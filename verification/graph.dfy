/** The interactive knowledge-graph navigator: the `graphState` store, the
    anti-overlap placement of newly discovered nodes, the incremental merge of
    an exploration response, the viewport boundary force and the pure display
    helpers. Coordinates are real numbers; the random candidate generator is a
    parameter, so every property below holds whatever candidates it yields. */
module InteractiveGraph {
  import opened Options
  import opened JsStrings

  /** A position on the canvas. */
  datatype Point = Point(x: real, y: real)

  /** The usable canvas, `container.clientWidth` by `container.clientHeight`. */
  datatype Viewport = Viewport(width: real, height: real)

  /** One entry of `graphState.nodes`. */
  datatype GraphNode = GraphNode(id: string, caption: string, kind: string, x: real, y: real)

  /** One entry of `graphState.links`, from parent id to child id. */
  datatype Link = Link(source: string, target: string)

  /** One entry of an exploration response's `new_nodes`. */
  datatype NodeInput = NodeInput(nodeId: string, caption: string, kind: string)

  /** Minimum distance between a freshly placed node and every known position. */
  const MinSeparation: real := 100.0
  /** Attempt budget of the placement loop. */
  const MaxAttempts: nat := 50
  /** Inward margin kept from every edge of the canvas. */
  const Padding: real := 80.0
  /** Canvas size assumed when there is no canvas element. */
  const DefaultViewport: Viewport := Viewport(800.0, 600.0)
  /** Anchor used when the parent node or one of its coordinates is missing. */
  const DefaultAnchor: Point := Point(400.0, 300.0)

  /** The company (or party) node is pinned at the centre and exempt from clamping. */
  predicate IsCompanyKind(kind: string) {
    kind == "company" || kind == "party"
  }

  function PositionOf(n: GraphNode): Point {
    Point(n.x, n.y)
  }

  /** `graphState.nodes.map(n => ({ x: n.x || 0, y: n.y || 0 }))` */
  function Positions(nodes: seq<GraphNode>): (ps: seq<Point>)
    ensures |ps| == |nodes|
    ensures forall i :: 0 <= i < |nodes| ==> ps[i] == PositionOf(nodes[i])
  {
    seq(|nodes|, i requires 0 <= i < |nodes| => PositionOf(nodes[i]))
  }

  function DistSq(p: Point, q: Point): real {
    (p.x - q.x) * (p.x - q.x) + (p.y - q.y) * (p.y - q.y)
  }

  /** `isTooCloseToExisting(x, y, existingPos)`: some known position lies strictly
      closer than `MinSeparation`. Distances are compared squared, so no square root
      is taken. */
  function TooClose(p: Point, existing: seq<Point>): (r: bool)
    ensures r <==> exists i :: 0 <= i < |existing| && DistSq(p, existing[i]) < MinSeparation * MinSeparation
    ensures existing == [] ==> !r
  {
    if existing == [] then false
    else if DistSq(p, existing[0]) < MinSeparation * MinSeparation then true
    else
      var r := TooClose(p, existing[1..]);
      assert forall i :: 1 <= i < |existing| ==> existing[i] == existing[1..][i - 1];
      r
  }

  function Min(a: real, b: real): real { if a <= b then a else b }
  function Max(a: real, b: real): real { if a >= b then a else b }

  /** `Math.max(padding, Math.min(limit - padding, v))` */
  function Clamp(v: real, limit: real): (r: real)
    ensures r >= Padding
    ensures limit >= 2.0 * Padding ==> r <= limit - Padding
    ensures Padding <= v <= limit - Padding ==> r == v
    ensures v < Padding ==> r == Padding
    ensures limit >= 2.0 * Padding && v > limit - Padding ==> r == limit - Padding
    ensures limit < 2.0 * Padding ==> r == Padding
  {
    Max(Padding, Min(limit - Padding, v))
  }

  /** Clamping a clamped coordinate changes nothing. */
  lemma ClampIdempotent(v: real, limit: real)
    ensures Clamp(Clamp(v, limit), limit) == Clamp(v, limit)
  {
  }

  /** The random part of the placement formula (angle, distance and offset around
      the anchor): given the anchor, the node's index in the batch, the batch size
      and the attempt number, it yields an unclamped point. */
  type Sampler = (Point, nat, nat, nat) -> Point

  /** The `attempt`-th candidate: the sampled point clamped into the viewport. */
  function Candidate(sample: Sampler, anchor: Point, index: nat, size: nat, view: Viewport, attempt: nat): (p: Point)
    ensures p.x >= Padding && p.y >= Padding
    ensures view.width >= 2.0 * Padding ==> p.x <= view.width - Padding
    ensures view.height >= 2.0 * Padding ==> p.y <= view.height - Padding
  {
    var raw := sample(anchor, index, size, attempt);
    Point(Clamp(raw.x, view.width), Clamp(raw.y, view.height))
  }

  /** The do-while loop of `expandKnowledgeGraph`: draw clamped candidates until one
      is not too close to `existing` or the attempt budget is spent. The result is
      the first candidate that keeps its distance, or the fiftieth candidate. */
  method PlaceNode(anchor: Point, index: nat, size: nat, existing: seq<Point>, view: Viewport, sample: Sampler)
    returns (p: Point, attempts: nat)
    ensures 1 <= attempts <= MaxAttempts
    ensures p == Candidate(sample, anchor, index, size, view, attempts - 1)
    ensures forall j :: 0 <= j < attempts - 1 ==> TooClose(Candidate(sample, anchor, index, size, view, j), existing)
    ensures !TooClose(p, existing) || attempts == MaxAttempts
  {
    p := Candidate(sample, anchor, index, size, view, 0);
    attempts := 1;
    while TooClose(p, existing) && attempts < MaxAttempts
      invariant 1 <= attempts <= MaxAttempts
      invariant p == Candidate(sample, anchor, index, size, view, attempts - 1)
      invariant forall j :: 0 <= j < attempts - 1 ==> TooClose(Candidate(sample, anchor, index, size, view, j), existing)
      decreases MaxAttempts - attempts
    {
      p := Candidate(sample, anchor, index, size, view, attempts);
      attempts := attempts + 1;
    }
  }

  /** `nodes.find(n => n.id === id)`: the first node carrying `id`. */
  function FindNode(nodes: seq<GraphNode>, id: string): (r: Option<GraphNode>)
    ensures r.None? <==> forall i :: 0 <= i < |nodes| ==> nodes[i].id != id
    ensures r.Some? ==> exists i :: 0 <= i < |nodes| && nodes[i] == r.value && r.value.id == id
                                    && forall j :: 0 <= j < i ==> nodes[j].id != id
  {
    if nodes == [] then None
    else if nodes[0].id == id then Some(nodes[0])
    else
      var r := FindNode(nodes[1..], id);
      assert forall i :: 1 <= i < |nodes| ==> nodes[i] == nodes[1..][i - 1];
      if r.Some? then
        var i :| 0 <= i < |nodes[1..]| && nodes[1..][i] == r.value && r.value.id == id
                 && forall j :: 0 <= j < i ==> nodes[1..][j].id != id;
        assert nodes[i + 1] == r.value;
        r
      else r
  }

  /** The point new nodes are placed around: the parent's position, where a zero
      (falsy) coordinate reads as 400 or 300, or (400, 300) without a parent. */
  function Anchor(nodes: seq<GraphNode>, parentId: string): (a: Point)
    ensures FindNode(nodes, parentId).None? ==> a == DefaultAnchor
    ensures FindNode(nodes, parentId).Some? ==>
              var n := FindNode(nodes, parentId).value;
              a == Point(if n.x != 0.0 then n.x else 400.0, if n.y != 0.0 then n.y else 300.0)
  {
    match FindNode(nodes, parentId)
    case None => DefaultAnchor
    case Some(n) => Point(if n.x != 0.0 then n.x else DefaultAnchor.x, if n.y != 0.0 then n.y else DefaultAnchor.y)
  }

  function IdsOf(entries: seq<NodeInput>): set<string> {
    set e | e in entries :: e.nodeId
  }

  function IdSet(nodes: seq<GraphNode>): set<string> {
    set n | n in nodes :: n.id
  }

  predicate DistinctIds(nodes: seq<GraphNode>) {
    forall i, j :: 0 <= i < j < |nodes| ==> nodes[i].id != nodes[j].id
  }

  /** The entries of a batch that `expandKnowledgeGraph` adds, in batch order: each
      entry whose id is neither already known nor carried by an earlier added entry. */
  function NewEntries(known: set<string>, batch: seq<NodeInput>): seq<NodeInput>
    decreases |batch|
  {
    if batch == [] then []
    else
      var prev := NewEntries(known, batch[..|batch| - 1]);
      var e := batch[|batch| - 1];
      if e.nodeId in known || e.nodeId in IdsOf(prev) then prev else prev + [e]
  }

  /** What is added is new, free of duplicates, and drawn from the batch. */
  lemma {:induction false} NewEntriesFresh(known: set<string>, batch: seq<NodeInput>)
    ensures var r := NewEntries(known, batch);
            |r| <= |batch|
            && (forall k :: 0 <= k < |r| ==> r[k].nodeId !in known && r[k] in batch)
            && (forall k, l :: 0 <= k < l < |r| ==> r[k].nodeId != r[l].nodeId)
    decreases |batch|
  {
    if batch != [] {
      var prev := NewEntries(known, batch[..|batch| - 1]);
      NewEntriesFresh(known, batch[..|batch| - 1]);
      assert forall e :: e in batch[..|batch| - 1] ==> e in batch;
      forall k | 0 <= k < |prev| ensures prev[k].nodeId in IdsOf(prev) {
        assert prev[k] in prev;
      }
    }
  }

  /** Every id in the batch is known afterwards. */
  lemma {:induction false} NewEntriesCover(known: set<string>, batch: seq<NodeInput>)
    ensures forall e :: e in batch ==> e.nodeId in known + IdsOf(NewEntries(known, batch))
    decreases |batch|
  {
    if batch != [] {
      var front := batch[..|batch| - 1];
      var prev := NewEntries(known, front);
      NewEntriesCover(known, front);
      var e := batch[|batch| - 1];
      assert batch == front + [e];
      assert IdsOf(prev) <= IdsOf(NewEntries(known, batch));
      if !(e.nodeId in known || e.nodeId in IdsOf(prev)) {
        assert e in NewEntries(known, batch);
      }
    }
  }

  /** A batch whose ids are all known adds nothing. */
  lemma {:induction false} NewEntriesOfKnown(known: set<string>, batch: seq<NodeInput>)
    requires forall e :: e in batch ==> e.nodeId in known
    ensures NewEntries(known, batch) == []
    decreases |batch|
  {
    if batch != [] {
      var front := batch[..|batch| - 1];
      assert forall e :: e in front ==> e in batch;
      NewEntriesOfKnown(known, front);
    }
  }

  /** Merging the same batch a second time adds nothing: after one merge, every id of
      the batch is known. */
  lemma MergeIdempotent(known: set<string>, batch: seq<NodeInput>)
    ensures NewEntries(known + IdsOf(NewEntries(known, batch)), batch) == []
  {
    NewEntriesCover(known, batch);
    NewEntriesOfKnown(known + IdsOf(NewEntries(known, batch)), batch);
  }

  /** One parent-to-child link per added entry. */
  function LinksFrom(parentId: string, added: seq<NodeInput>): (ls: seq<Link>)
    ensures |ls| == |added|
    ensures forall k :: 0 <= k < |added| ==> ls[k] == Link(parentId, added[k].nodeId)
  {
    seq(|added|, k requires 0 <= k < |added| => Link(parentId, added[k].nodeId))
  }

  /** The nodes from index `base` on are exactly the `added` entries, in order, with
      their ids, captions and kinds. */
  predicate Mirrors(nodes: seq<GraphNode>, base: nat, added: seq<NodeInput>) {
    && |nodes| == base + |added|
    && forall k :: 0 <= k < |added| ==>
         nodes[base + k].id == added[k].nodeId
         && nodes[base + k].caption == added[k].caption
         && nodes[base + k].kind == added[k].kind
  }

  lemma MirrorsExtend(nodes: seq<GraphNode>, base: nat, added: seq<NodeInput>, e: NodeInput, p: Point)
    requires Mirrors(nodes, base, added)
    ensures Mirrors(nodes + [Placed(e, p)], base, added + [e])
  {
    var nodes', added' := nodes + [Placed(e, p)], added + [e];
    forall k | 0 <= k < |added'|
      ensures nodes'[base + k].id == added'[k].nodeId
    {
      if k < |added| { assert nodes'[base + k] == nodes[base + k]; }
    }
  }

  lemma PositionsSnoc(nodes: seq<GraphNode>, n: GraphNode)
    ensures Positions(nodes + [n]) == Positions(nodes) + [PositionOf(n)]
  {
  }

  lemma PrefixKept(nodes: seq<GraphNode>, base: nat, n: GraphNode)
    requires base <= |nodes|
    ensures (nodes + [n])[..base] == nodes[..base]
  {
  }

  lemma LinksFromSnoc(parentId: string, added: seq<NodeInput>, e: NodeInput)
    ensures LinksFrom(parentId, added + [e]) == LinksFrom(parentId, added) + [Link(parentId, e.nodeId)]
  {
  }

  /** The node record built from an input entry placed at `p`. */
  function Placed(e: NodeInput, p: Point): GraphNode {
    GraphNode(e.nodeId, e.caption, e.kind, p.x, p.y)
  }

  /** `FindNode` misses exactly the ids that are not in the store. */
  lemma FindNodeMissesIff(nodes: seq<GraphNode>, id: string)
    ensures FindNode(nodes, id).None? <==> id !in IdSet(nodes)
  {
    if FindNode(nodes, id).Some? {
      var i :| 0 <= i < |nodes| && nodes[i] == FindNode(nodes, id).value && nodes[i].id == id;
      assert nodes[i] in nodes;
    }
  }

  /** One more batch entry: the entries added so far stay, and the entry itself is
      added exactly when its id is still unknown. */
  lemma NewEntriesStep(known: set<string>, batch: seq<NodeInput>, i: nat)
    requires i < |batch|
    ensures var prev := NewEntries(known, batch[..i]);
            NewEntries(known, batch[..i + 1])
            == if batch[i].nodeId in known + IdsOf(prev) then prev else prev + [batch[i]]
  {
    assert batch[..i + 1][..i] == batch[..i];
  }

  lemma IdsOfSnoc(entries: seq<NodeInput>, e: NodeInput)
    ensures IdsOf(entries + [e]) == IdsOf(entries) + {e.nodeId}
  {
  }

  /** Appending a node whose id is new keeps ids unique. */
  lemma AppendDistinct(nodes: seq<GraphNode>, n: GraphNode)
    requires DistinctIds(nodes) && n.id !in IdSet(nodes)
    ensures DistinctIds(nodes + [n]) && IdSet(nodes + [n]) == IdSet(nodes) + {n.id}
  {
    forall i | 0 <= i < |nodes| ensures nodes[i].id != n.id {
      assert nodes[i] in nodes;
    }
  }

  /** Node `n`, placed after `before` with `tries` attempts, sits inside the padded
      viewport and, unless its placement used the whole attempt budget, keeps
      `MinSeparation` from every node before it. */
  predicate PlacedWell(n: GraphNode, tries: nat, before: seq<GraphNode>, view: Viewport) {
    && 1 <= tries <= MaxAttempts
    && n.x >= Padding && n.y >= Padding
    && (view.width >= 2.0 * Padding ==> n.x <= view.width - Padding)
    && (view.height >= 2.0 * Padding ==> n.y <= view.height - Padding)
    && (!TooClose(PositionOf(n), Positions(before)) || tries == MaxAttempts)
  }

  /** Every node from index `base` on was placed well, the `j`-th of them after
      `attempts[j]` tries. */
  predicate AllPlacedWell(nodes: seq<GraphNode>, base: nat, attempts: seq<nat>, view: Viewport) {
    && base + |attempts| == |nodes|
    && forall j :: 0 <= j < |attempts| ==> PlacedWell(nodes[base + j], attempts[j], nodes[..base + j], view)
  }

  lemma {:induction false} PlacementExtends(nodes: seq<GraphNode>, base: nat, attempts: seq<nat>, view: Viewport,
                                            n: GraphNode, tries: nat)
    requires AllPlacedWell(nodes, base, attempts, view)
    requires PlacedWell(n, tries, nodes, view)
    ensures AllPlacedWell(nodes + [n], base, attempts + [tries], view)
  {
    var nodes', attempts' := nodes + [n], attempts + [tries];
    forall j | 0 <= j < |attempts'|
      ensures PlacedWell(nodes'[base + j], attempts'[j], nodes'[..base + j], view)
    {
      if j < |attempts| {
        assert nodes'[..base + j] == nodes[..base + j];
      } else {
        assert nodes'[..base + j] == nodes;
      }
    }
  }

  /** A node after one tick of the `'boundary'` force: every node but the company or
      party node is clamped into the padded viewport. */
  function Bounded(n: GraphNode, view: Viewport): (r: GraphNode)
    ensures r.id == n.id && r.caption == n.caption && r.kind == n.kind
    ensures IsCompanyKind(n.kind) ==> r == n
    ensures !IsCompanyKind(n.kind) ==> r.x >= Padding && r.y >= Padding
    ensures !IsCompanyKind(n.kind) && view.width >= 2.0 * Padding ==> r.x <= view.width - Padding
    ensures !IsCompanyKind(n.kind) && view.height >= 2.0 * Padding ==> r.y <= view.height - Padding
    ensures !IsCompanyKind(n.kind) ==> r.x == Clamp(n.x, view.width) && r.y == Clamp(n.y, view.height)
  {
    if IsCompanyKind(n.kind) then n else n.(x := Clamp(n.x, view.width), y := Clamp(n.y, view.height))
  }

  /** The boundary force installed after a window resize: it clamps only `x`. */
  function BoundedX(n: GraphNode, width: real): (r: GraphNode)
    ensures r.id == n.id && r.caption == n.caption && r.kind == n.kind && r.y == n.y
    ensures IsCompanyKind(n.kind) ==> r == n
    ensures !IsCompanyKind(n.kind) ==> r.x >= Padding
    ensures !IsCompanyKind(n.kind) && width >= 2.0 * Padding ==> r.x <= width - Padding
    ensures !IsCompanyKind(n.kind) ==> r.x == Clamp(n.x, width)
  {
    if IsCompanyKind(n.kind) then n else n.(x := Clamp(n.x, width))
  }

  /** Further ticks of the boundary force do not move a node again. */
  lemma BoundedIdempotent(n: GraphNode, view: Viewport)
    ensures Bounded(Bounded(n, view), view) == Bounded(n, view)
  {
    ClampIdempotent(n.x, view.width);
    ClampIdempotent(n.y, view.height);
  }

  /** What the backend reports about the company when the first fetch succeeds;
      an empty `kind`, industry or location counts as absent. */
  datatype CompanyRecord = CompanyRecord(nodeId: string, kind: string, industry: string, hqLocation: string)

  /** The parsed body of a successful `/explore` call, as far as the store uses it. */
  datatype ExploreResult = ExploreResult(tokensUsed: Option<int>, costUsd: Option<real>, cacheHit: bool,
                                         newNodes: Option<seq<NodeInput>>)

  function BatchOf(newNodes: Option<seq<NodeInput>>): seq<NodeInput> {
    newNodes.GetOr([])
  }

  /** `window.graphState` */
  class GraphState {
    var nodes: seq<GraphNode>
    var links: seq<Link>
    var companyName: string
    var industry: string
    var country: string
    var sessionTokens: int
    var sessionCost: real
    var cacheHits: nat
    var nodesDiscovered: int

    /** Node ids are unique in the store. */
    ghost predicate Valid()
      reads this
    {
      DistinctIds(nodes)
    }

    /** The empty store the page starts with. */
    constructor ()
      ensures Valid()
      ensures nodes == [] && links == [] && companyName == "" && industry == "" && country == ""
      ensures sessionTokens == 0 && sessionCost == 0.0 && cacheHits == 0 && nodesDiscovered == 0
    {
      nodes, links := [], [];
      companyName, industry, country := "", "", "";
      sessionTokens, sessionCost, cacheHits, nodesDiscovered := 0, 0.0, 0, 0;
    }

    /** `initializeInteractiveKG`: seeds the store with the company node at the centre
        of the canvas, from the backend's record when the fetch succeeded and from
        the fallback `company-root`/`party` node otherwise. Without a canvas only
        the company name is recorded. */
    method Initialize(name: string, canvas: Option<Viewport>, fetched: Option<CompanyRecord>)
      requires Valid()
      modifies this
      ensures Valid()
      ensures companyName == name
      ensures canvas.None? ==> nodes == old(nodes) && links == old(links) && nodesDiscovered == old(nodesDiscovered)
                               && industry == old(industry) && country == old(country)
      ensures canvas.Some? ==>
        && |nodes| == 1 && links == [] && nodesDiscovered == 1
        && nodes[0].caption == name
        && nodes[0].x == canvas.value.width / 2.0 && nodes[0].y == canvas.value.height / 2.0
        && (fetched.None? ==> nodes[0].id == "company-root" && nodes[0].kind == "party"
                              && industry == old(industry) && country == old(country))
        && (fetched.Some? ==> nodes[0].id == fetched.value.nodeId
                              && nodes[0].kind == (if fetched.value.kind != "" then fetched.value.kind else "company")
                              && industry == (if fetched.value.industry != "" then fetched.value.industry else old(industry))
                              && country == (if fetched.value.hqLocation != "" then fetched.value.hqLocation else old(country)))
      ensures sessionTokens == old(sessionTokens) && sessionCost == old(sessionCost) && cacheHits == old(cacheHits)
    {
      companyName := name;
      if canvas.None? {
        return;
      }
      var center := Point(canvas.value.width / 2.0, canvas.value.height / 2.0);
      match fetched {
        case Some(rec) =>
          if rec.industry != "" { industry := rec.industry; }
          if rec.hqLocation != "" { country := rec.hqLocation; }
          var kind := if rec.kind != "" then rec.kind else "company";
          nodes := [GraphNode(rec.nodeId, name, kind, center.x, center.y)];
        case None =>
          nodes := [GraphNode("company-root", name, "party", center.x, center.y)];
      }
      links := [];
      nodesDiscovered := 1;
    }

    /** `expandKnowledgeGraph(parentNodeId, newNodes)`: appends, in batch order, one
        node and one parent link per entry whose id is not yet in the store (ids added
        earlier in the same batch included), placed by `PlaceNode` against every
        position known at that moment, and counts each in `nodesDiscovered`. A
        missing or empty batch changes nothing. The attempt count of every placement
        is returned. */
    method ExpandKnowledgeGraph(parentId: string, newNodes: Option<seq<NodeInput>>, canvas: Option<Viewport>,
                                sample: Sampler)
      returns (attempts: seq<nat>)
      requires Valid()
      modifies this`nodes, this`links, this`nodesDiscovered
      ensures Valid()
      ensures var added := NewEntries(IdSet(old(nodes)), BatchOf(newNodes));
        && Mirrors(nodes, |old(nodes)|, added)
        && nodes[..|old(nodes)|] == old(nodes)
        && IdSet(nodes) == IdSet(old(nodes)) + IdsOf(added)
        && links == old(links) + LinksFrom(parentId, added)
        && nodesDiscovered == old(nodesDiscovered) + |added|
        && |attempts| == |added|
      ensures AllPlacedWell(nodes, |old(nodes)|, attempts, canvas.GetOr(DefaultViewport))
    {
      var batch := BatchOf(newNodes);
      attempts := [];
      if newNodes.None? || |batch| == 0 {
        return;
      }
      attempts := MergeBatch(parentId, batch, canvas.GetOr(DefaultViewport), sample);
    }

    /** The `forEach` over a non-empty batch: each entry whose id is still unknown is
        placed around the parent's anchor and appended. */
    method MergeBatch(parentId: string, batch: seq<NodeInput>, view: Viewport, sample: Sampler)
      returns (attempts: seq<nat>)
      requires Valid()
      modifies this`nodes, this`links, this`nodesDiscovered
      ensures MergedSoFar(old(nodes), old(links), old(nodesDiscovered), parentId,
                          NewEntries(IdSet(old(nodes)), batch), attempts, view)
    {
      attempts := [];
      var anchor := Anchor(nodes, parentId);
      var existingPositions := Positions(nodes);
      ghost var known := IdSet(nodes);
      ghost var added: seq<NodeInput> := [];
      var i := 0;
      while i < |batch|
        invariant 0 <= i <= |batch|
        invariant added == NewEntries(known, batch[..i])
        invariant MergedSoFar(old(nodes), old(links), old(nodesDiscovered), parentId, added, attempts, view)
        invariant existingPositions == Positions(nodes)
      {
        var entry := batch[i];
        NewEntriesStep(known, batch, i);
        FindNodeMissesIff(nodes, entry.nodeId);
        if FindNode(nodes, entry.nodeId).None? {
          var p, tries := PlaceNode(anchor, i, |batch|, existingPositions, view, sample);
          PositionsSnoc(nodes, Placed(entry, p));
          AppendPlaced(entry, p, tries, parentId, old(nodes), old(links), old(nodesDiscovered), added, attempts, view);
          existingPositions := existingPositions + [p];
          attempts := attempts + [tries];
          added := added + [entry];
        }
        i := i + 1;
      }
      assert batch[..|batch|] == batch;
    }

    /** The store holds `nodes0` followed by one placed node per entry of `added`, the
        links `links0` followed by one parent link per entry, and the count grew by the
        number of entries. */
    ghost predicate MergedSoFar(nodes0: seq<GraphNode>, links0: seq<Link>, discovered0: int, parentId: string,
                                added: seq<NodeInput>, attempts: seq<nat>, view: Viewport)
      reads this
    {
      && DistinctIds(nodes) && IdSet(nodes) == IdSet(nodes0) + IdsOf(added)
      && Mirrors(nodes, |nodes0|, added) && nodes[..|nodes0|] == nodes0
      && links == links0 + LinksFrom(parentId, added)
      && nodesDiscovered == discovered0 + |added|
      && AllPlacedWell(nodes, |nodes0|, attempts, view)
    }

    /** The body of one `forEach` step that adds a node: push the node, push the link,
        count it. */
    method AppendPlaced(entry: NodeInput, p: Point, tries: nat, parentId: string, ghost nodes0: seq<GraphNode>,
                        ghost links0: seq<Link>, ghost discovered0: int, ghost added: seq<NodeInput>,
                        ghost attempts: seq<nat>, ghost view: Viewport)
      requires MergedSoFar(nodes0, links0, discovered0, parentId, added, attempts, view)
      requires entry.nodeId !in IdSet(nodes)
      requires PlacedWell(Placed(entry, p), tries, nodes, view)
      modifies this`nodes, this`links, this`nodesDiscovered
      ensures MergedSoFar(nodes0, links0, discovered0, parentId, added + [entry], attempts + [tries], view)
      ensures nodes == old(nodes) + [Placed(entry, p)]
    {
      var node := Placed(entry, p);
      PlacementExtends(nodes, |nodes0|, attempts, view, node, tries);
      MirrorsExtend(nodes, |nodes0|, added, entry, p);
      AppendDistinct(nodes, node);
      IdsOfSnoc(added, entry);
      LinksFromSnoc(parentId, added, entry);
      PrefixKept(nodes, |nodes0|, node);
      nodes := nodes + [node];
      links := links + [Link(parentId, entry.nodeId)];
      nodesDiscovered := nodesDiscovered + 1;
    }

    /** One tick of the `'boundary'` force: every node but the company or party node
        is clamped into the padded viewport; ids, labels and kinds stay. */
    method BoundaryForce(view: Viewport)
      requires Valid()
      modifies this`nodes
      ensures Valid()
      ensures |nodes| == |old(nodes)|
      ensures forall i :: 0 <= i < |nodes| ==> nodes[i] == Bounded(old(nodes)[i], view)
    {
      var i := 0;
      while i < |nodes|
        invariant 0 <= i <= |nodes| == |old(nodes)|
        invariant forall k :: 0 <= k < i ==> nodes[k] == Bounded(old(nodes)[k], view)
        invariant forall k :: i <= k < |nodes| ==> nodes[k] == old(nodes)[k]
      {
        nodes := nodes[i := Bounded(nodes[i], view)];
        i := i + 1;
      }
    }

    /** The boundary force installed by the resize handler: clamps only `x`, to the
        new width. */
    method ResizeBoundaryForce(newWidth: real)
      requires Valid()
      modifies this`nodes
      ensures Valid()
      ensures |nodes| == |old(nodes)|
      ensures forall i :: 0 <= i < |nodes| ==> nodes[i] == BoundedX(old(nodes)[i], newWidth)
    {
      var i := 0;
      while i < |nodes|
        invariant 0 <= i <= |nodes| == |old(nodes)|
        invariant forall k :: 0 <= k < i ==> nodes[k] == BoundedX(old(nodes)[k], newWidth)
        invariant forall k :: i <= k < |nodes| ==> nodes[k] == old(nodes)[k]
      {
        nodes := nodes[i := BoundedX(nodes[i], newWidth)];
        i := i + 1;
      }
    }

    /** The successful branch of `exploreNode`: adds the reported tokens and cost
        (absent counts as zero), counts a cache hit, then merges the new nodes. */
    method ApplyExploration(nodeId: string, result: ExploreResult, canvas: Option<Viewport>, sample: Sampler)
      returns (attempts: seq<nat>)
      requires Valid()
      modifies this
      ensures Valid()
      ensures sessionTokens == old(sessionTokens) + result.tokensUsed.GetOr(0)
      ensures sessionCost == old(sessionCost) + result.costUsd.GetOr(0.0)
      ensures cacheHits == old(cacheHits) + (if result.cacheHit then 1 else 0)
      ensures var added := NewEntries(IdSet(old(nodes)), BatchOf(result.newNodes));
        && Mirrors(nodes, |old(nodes)|, added)
        && nodes[..|old(nodes)|] == old(nodes)
        && IdSet(nodes) == IdSet(old(nodes)) + IdsOf(added)
        && links == old(links) + LinksFrom(nodeId, added)
        && nodesDiscovered == old(nodesDiscovered) + |added|
        && |attempts| == |added|
      ensures AllPlacedWell(nodes, |old(nodes)|, attempts, canvas.GetOr(DefaultViewport))
      ensures companyName == old(companyName) && industry == old(industry) && country == old(country)
    {
      sessionTokens := sessionTokens + result.tokensUsed.GetOr(0);
      sessionCost := sessionCost + result.costUsd.GetOr(0.0);
      if result.cacheHit {
        cacheHits := cacheHits + 1;
      }
      attempts := ExpandKnowledgeGraph(nodeId, result.newNodes, canvas, sample);
    }
  }

  /** `truncateLabel(label, type)`: the caption when it fits the limit (25 for the
      company or party node, 15 otherwise), otherwise its first `limit - 3` characters
      followed by an ellipsis, exactly `limit` long. */
  function TruncateLabel(caption: string, kind: string): (r: string)
    ensures IsCompanyKind(kind) && |caption| <= 25 ==> r == caption
    ensures IsCompanyKind(kind) && |caption| > 25 ==> |r| == 25 && r == caption[..22] + "..."
    ensures !IsCompanyKind(kind) && |caption| <= 15 ==> r == caption
    ensures !IsCompanyKind(kind) && |caption| > 15 ==> |r| == 15 && r == caption[..12] + "..."
    ensures |r| <= |caption|
  {
    var limit := if IsCompanyKind(kind) then 25 else 15;
    if |caption| > limit then caption[..limit - 3] + "..." else caption
  }

  /** `getNodeRadius(type)`: the radius table, 10 for an unknown type. */
  function NodeRadius(kind: string): (r: nat)
    ensures IsCompanyKind(kind) ==> r == 25
    ensures kind == "regulation" ==> r == 15
    ensures kind == "business_line" ==> r == 12
    ensures kind == "business_term" ==> r == 8
    ensures !(IsCompanyKind(kind) || kind in {"regulation", "business_line", "business_term"}) ==> r == 10
  {
    if IsCompanyKind(kind) then 25
    else if kind == "regulation" then 15
    else if kind == "business_line" then 12
    else if kind == "process" then 10
    else if kind == "business_term" then 8
    else 10
  }

  /** The company or party node is drawn at least as large as any other. */
  lemma CompanyNodeIsLargest(company: string, other: string)
    requires IsCompanyKind(company)
    ensures NodeRadius(other) <= NodeRadius(company)
  {
  }

  /** `getNodeColor(type)`: the colour table, grey for an unknown type. */
  function NodeColor(kind: string): (c: string)
    ensures kind == "party" ==> c == "#6366f1"
    ensures kind == "company" ==> c == "#06b6d4"
    ensures kind == "regulation" ==> c == "#4ade80"
    ensures kind == "business_line" ==> c == "#a78bfa"
    ensures kind == "process" ==> c == "#60a5fa"
    ensures kind == "business_term" ==> c == "#fbbf24"
    ensures !(kind in {"party", "company", "regulation", "business_line", "process", "business_term"}) ==> c == "#9ca3af"
  {
    if kind == "party" then "#6366f1"
    else if kind == "company" then "#06b6d4"
    else if kind == "regulation" then "#4ade80"
    else if kind == "business_line" then "#a78bfa"
    else if kind == "process" then "#60a5fa"
    else if kind == "business_term" then "#fbbf24"
    else "#9ca3af"
  }

  /** The user-facing categories `exploreNode` maps a failure message to. */
  datatype ErrorCategory = Exhausted | QuotaReached | HighDemand | ModelsFailed | Generic

  predicate MentionsExhausted(m: string) {
    Includes(m, "No exploration options") || Includes(m, "already explored")
  }

  predicate MentionsQuota(m: string) {
    Includes(m, "SERVICE_UNAVAILABLE")
  }

  predicate MentionsRateLimit(m: string) {
    Includes(m, "rate") || Includes(m, "limit") || Includes(m, "429")
  }

  predicate MentionsModelsFailed(m: string) {
    Includes(m, "Both LLMs failed")
  }

  /** The first-match `if/else` chain of `exploreNode`'s error handler. */
  function Categorize(m: string): (c: ErrorCategory)
    ensures MentionsExhausted(m) ==> c == Exhausted
    ensures c == QuotaReached <==> !MentionsExhausted(m) && MentionsQuota(m)
    ensures c == HighDemand <==> !MentionsExhausted(m) && !MentionsQuota(m) && MentionsRateLimit(m)
    ensures c == ModelsFailed <==> !MentionsExhausted(m) && !MentionsQuota(m) && !MentionsRateLimit(m) && MentionsModelsFailed(m)
    ensures c == Generic <==> !MentionsExhausted(m) && !MentionsQuota(m) && !MentionsRateLimit(m) && !MentionsModelsFailed(m)
  {
    if MentionsExhausted(m) then Exhausted
    else if MentionsQuota(m) then QuotaReached
    else if MentionsRateLimit(m) then HighDemand
    else if MentionsModelsFailed(m) then ModelsFailed
    else Generic
  }

  /** The notice texts of the error modal. */
  const ExhaustedNotice := "This exploration path has been exhausted. Try exploring a different node or option."
  const QuotaNotice := "We've reached our daily quota for free AI services. The system will be available again in a few minutes, or you can continue exploring cached data."
  const HighDemandNotice := "Our system is experiencing high demand. Please try again in a moment."
  const ModelsFailedNotice := "Unable to process your request at this time. Please try again later."
  const GenericNotice := "Unable to complete exploration. Please try again."

  /** What the error modal shows. */
  datatype ErrorNotice = ErrorNotice(message: string, showSupport: bool)

  /** The modal for a category; the support link only for the failure of both models. */
  function NoticeFor(c: ErrorCategory): (n: ErrorNotice)
    ensures n.showSupport <==> c == ModelsFailed
    ensures c == Exhausted ==> n.message == ExhaustedNotice
    ensures c == QuotaReached ==> n.message == QuotaNotice
    ensures c == HighDemand ==> n.message == HighDemandNotice
    ensures c == ModelsFailed ==> n.message == ModelsFailedNotice
    ensures c == Generic ==> n.message == GenericNotice
  {
    ErrorNotice(NoticeMessage(c), c == ModelsFailed)
  }

  function NoticeMessage(c: ErrorCategory): string {
    match c
    case Exhausted => ExhaustedNotice
    case QuotaReached => QuotaNotice
    case HighDemand => HighDemandNotice
    case ModelsFailed => ModelsFailedNotice
    case Generic => GenericNotice
  }

  /** The text shown for an error message; an empty message reads as 'Exploration failed'. */
  function ErrorText(errorMessage: string): (t: string)
    ensures t != ""
    ensures errorMessage != "" ==> t == errorMessage
    ensures errorMessage == "" ==> t == "Exploration failed"
  {
    if errorMessage == "" then "Exploration failed" else errorMessage
  }

  /** The notice for a failed exploration: the support link is offered exactly when
      the message names the failure of both models and none of the earlier checks
      fired. */
  function ExplorationErrorNotice(errorMessage: string): (n: ErrorNotice)
    ensures n.showSupport <==> Categorize(ErrorText(errorMessage)) == ModelsFailed
  {
    NoticeFor(Categorize(ErrorText(errorMessage)))
  }

  /** The substring checks run in order, so a message that names the failure of
      both models but also contains "rate" (as "generate" does) never offers the
      support link. */
  lemma GenerateHidesSupport()
    ensures MentionsModelsFailed("Both LLMs failed to generate")
    ensures !ExplorationErrorNotice("Both LLMs failed to generate").showSupport
  {
    var m := "Both LLMs failed to generate";
    assert OccursAt(m, "Both LLMs failed", 0);
    assert OccursAt(m, "rate", 24);
  }
}
