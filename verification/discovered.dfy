/** `discoveredNodes`: what the user has uncovered during exploration (the company,
    its regulations and lines of business, the processes and terms explored), kept
    free of duplicate labels batch by batch, and its projection into the node and
    link lists `renderKnowledgeGraph` draws. */
module Discovered {
  import opened Options
  import opened JsStrings

  /** The id of the company node, and the source of every regulation and line-of-business link. */
  const CompanyRootId: string := "company-root"

  /** One tracked entry: id, label, type and the id of its parent. */
  datatype DNode = DNode(id: string, caption: string, kind: string, parentId: string)

  /** An entry of `semantic_layer.regulatory_context` as the initialisation reads it;
      an absent field is the empty string. */
  datatype RegulationInfo = RegulationInfo(regulationId: string, name: string)

  /** A term of an exploration response: its `term` and `name` fields, empty when absent. */
  datatype TermInfo = TermInfo(term: string, name: string)

  predicate HasLabel(entries: seq<DNode>, caption: string) {
    exists k | 0 <= k < |entries| :: entries[k].caption == caption
  }

  predicate DistinctLabels(entries: seq<DNode>) {
    forall i, j :: 0 <= i < j < |entries| ==> entries[i].caption != entries[j].caption
  }

  /** `entries.find(e => e.label === caption)` */
  function FindByLabel(entries: seq<DNode>, caption: string): (r: Option<DNode>)
    ensures r.None? <==> !HasLabel(entries, caption)
    ensures r.Some? ==> exists k | 0 <= k < |entries| :: entries[k] == r.value && r.value.caption == caption
                                  && forall j | 0 <= j < k :: entries[j].caption != caption
  {
    if entries == [] then None
    else if entries[0].caption == caption then Some(entries[0])
    else
      var r := FindByLabel(entries[1..], caption);
      assert forall k :: 1 <= k < |entries| ==> entries[k] == entries[1..][k - 1];
      if r.Some? then
        var k :| 0 <= k < |entries[1..]| && entries[1..][k] == r.value && r.value.caption == caption
                 && forall j | 0 <= j < k :: entries[1..][j].caption != caption;
        assert entries[k + 1] == r.value;
        r
      else r
  }

  /** `entries.findIndex(e => e.label === caption)`: the first position, or -1. */
  function IndexByLabel(entries: seq<DNode>, caption: string): (i: int)
    ensures -1 <= i < |entries|
    ensures i == -1 <==> !HasLabel(entries, caption)
    ensures i >= 0 ==> entries[i].caption == caption && forall j | 0 <= j < i :: entries[j].caption != caption
  {
    if entries == [] then -1
    else if entries[0].caption == caption then 0
    else
      var i := IndexByLabel(entries[1..], caption);
      assert forall k :: 1 <= k < |entries| ==> entries[k] == entries[1..][k - 1];
      if i == -1 then -1 else i + 1
  }

  /** `found?.id || 'unknown'`: the id of the first entry with that label, or
      'unknown' when there is none (or its id is empty). */
  function ParentIdByLabel(entries: seq<DNode>, caption: string): (id: string)
    ensures id != ""
    ensures !HasLabel(entries, caption) ==> id == "unknown"
    ensures var i := IndexByLabel(entries, caption);
            i >= 0 ==> id == (if entries[i].id != "" then entries[i].id else "unknown")
  {
    match FindByLabel(entries, caption)
    case None => "unknown"
    case Some(e) => if e.id != "" then e.id else "unknown"
  }

  /** How one batch is absorbed into a list: the id prefix, the type and parent
      given to every new entry, and whether an empty label is skipped. */
  datatype Template = Template(prefix: string, kind: string, parentId: string, skipEmpty: bool)

  /** A label is taken when it is not skipped as empty and no entry carries it yet. */
  predicate Admits(entries: seq<DNode>, t: Template, caption: string) {
    !(t.skipEmpty && caption == "") && !HasLabel(entries, caption)
  }

  /** The `forEach((item, idx) => ...)` over a batch, from position `idx` on. The id
      of an entry is the prefix followed by the list's length at that moment plus
      `idx`, computed whether or not the entry is taken. */
  function Absorb(entries: seq<DNode>, labels: seq<string>, idx: nat, t: Template): seq<DNode>
    requires idx <= |labels|
    decreases |labels| - idx
  {
    if idx == |labels| then entries
    else
      var caption := labels[idx];
      var next := if Admits(entries, t, caption)
                  then entries + [DNode(t.prefix + NatToString(|entries| + idx), caption, t.kind, t.parentId)]
                  else entries;
      Absorb(next, labels, idx + 1, t)
  }

  /** Existing entries are never modified: the list only grows at its end. */
  lemma {:induction false} AbsorbKeepsPrefix(entries: seq<DNode>, labels: seq<string>, idx: nat, t: Template)
    requires idx <= |labels|
    ensures var r := Absorb(entries, labels, idx, t);
            |entries| <= |r| && r[..|entries|] == entries
    decreases |labels| - idx
  {
    if idx < |labels| {
      var caption := labels[idx];
      var next := if Admits(entries, t, caption)
                  then entries + [DNode(t.prefix + NatToString(|entries| + idx), caption, t.kind, t.parentId)]
                  else entries;
      AbsorbKeepsPrefix(next, labels, idx + 1, t);
      var r := Absorb(next, labels, idx + 1, t);
      assert r[..|entries|] == r[..|next|][..|entries|];
    }
  }

  /** Every entry a batch adds carries the template's type and parent and a label of
      the batch that was not skipped. */
  lemma {:induction false} AbsorbNewEntries(entries: seq<DNode>, labels: seq<string>, idx: nat, t: Template)
    requires idx <= |labels|
    ensures var r := Absorb(entries, labels, idx, t);
            forall k | |entries| <= k < |r| ::
              r[k].kind == t.kind && r[k].parentId == t.parentId && r[k].caption in labels
              && !(t.skipEmpty && r[k].caption == "")
    decreases |labels| - idx
  {
    if idx < |labels| {
      var caption := labels[idx];
      var next := if Admits(entries, t, caption)
                  then entries + [DNode(t.prefix + NatToString(|entries| + idx), caption, t.kind, t.parentId)]
                  else entries;
      AbsorbNewEntries(next, labels, idx + 1, t);
      AbsorbKeepsPrefix(next, labels, idx + 1, t);
      var r := Absorb(next, labels, idx + 1, t);
      if next != entries {
        assert r[|entries|] == next[|entries|];
      }
    }
  }

  /** Absorbing a batch keeps labels distinct. */
  lemma {:induction false} AbsorbKeepsDistinct(entries: seq<DNode>, labels: seq<string>, idx: nat, t: Template)
    requires idx <= |labels| && DistinctLabels(entries)
    ensures DistinctLabels(Absorb(entries, labels, idx, t))
    decreases |labels| - idx
  {
    if idx < |labels| {
      var caption := labels[idx];
      if Admits(entries, t, caption) {
        var next := entries + [DNode(t.prefix + NatToString(|entries| + idx), caption, t.kind, t.parentId)];
        assert DistinctLabels(next) by {
          forall i, j | 0 <= i < j < |next| ensures next[i].caption != next[j].caption {
            if j == |entries| {
              assert next[i] == entries[i];
            }
          }
        }
        AbsorbKeepsDistinct(next, labels, idx + 1, t);
      } else {
        AbsorbKeepsDistinct(entries, labels, idx + 1, t);
      }
    }
  }

  /** Afterwards every label of the batch that is not skipped is present. */
  lemma {:induction false} AbsorbCovers(entries: seq<DNode>, labels: seq<string>, idx: nat, t: Template)
    requires idx <= |labels|
    ensures var r := Absorb(entries, labels, idx, t);
            forall j | idx <= j < |labels| && !(t.skipEmpty && labels[j] == "") :: HasLabel(r, labels[j])
    decreases |labels| - idx
  {
    if idx < |labels| {
      var caption := labels[idx];
      var next := if Admits(entries, t, caption)
                  then entries + [DNode(t.prefix + NatToString(|entries| + idx), caption, t.kind, t.parentId)]
                  else entries;
      AbsorbCovers(next, labels, idx + 1, t);
      if !(t.skipEmpty && caption == "") {
        AbsorbCoversFirst(entries, labels, idx, t);
      }
    }
  }

  lemma AbsorbCoversFirst(entries: seq<DNode>, labels: seq<string>, idx: nat, t: Template)
    requires idx < |labels| && !(t.skipEmpty && labels[idx] == "")
    ensures HasLabel(Absorb(entries, labels, idx, t), labels[idx])
  {
    var caption := labels[idx];
    var next := if Admits(entries, t, caption)
                then entries + [DNode(t.prefix + NatToString(|entries| + idx), caption, t.kind, t.parentId)]
                else entries;
    if next != entries {
      assert next[|entries|].caption == caption;
    }
    assert HasLabel(next, caption);
    AbsorbKeepsPrefix(next, labels, idx + 1, t);
    HasLabelInPrefix(Absorb(next, labels, idx + 1, t), |next|, caption);
  }

  lemma HasLabelInPrefix(entries: seq<DNode>, n: nat, caption: string)
    requires n <= |entries| && HasLabel(entries[..n], caption)
    ensures HasLabel(entries, caption)
  {
    var k :| 0 <= k < n && entries[..n][k].caption == caption;
    assert entries[k] == entries[..n][k];
  }

  /** A batch none of whose labels is admitted leaves the list as it was. */
  lemma {:induction false} AbsorbNothingNew(entries: seq<DNode>, labels: seq<string>, idx: nat, t: Template)
    requires idx <= |labels|
    requires forall j | idx <= j < |labels| :: !Admits(entries, t, labels[j])
    ensures Absorb(entries, labels, idx, t) == entries
    decreases |labels| - idx
  {
    if idx < |labels| {
      AbsorbNothingNew(entries, labels, idx + 1, t);
    }
  }

  /** The same batch absorbed a second time, under any parent, adds nothing. */
  lemma AbsorbTwice(entries: seq<DNode>, labels: seq<string>, t: Template, t': Template)
    requires t'.skipEmpty == t.skipEmpty
    ensures var once := Absorb(entries, labels, 0, t);
            Absorb(once, labels, 0, t') == once
  {
    AbsorbCovers(entries, labels, 0, t);
    AbsorbNothingNew(Absorb(entries, labels, 0, t), labels, 0, t');
  }

  /** Ids are not unique: two new terms absorbed into an empty list get `term-0` and
      `term-2`, and the first new term of the next batch gets `term-2` again. */
  lemma TermIdsCollide(parentId: string)
    ensures var t := Template("term-", "term", parentId, true);
            var first := Absorb([], ["KYC", "AML"], 0, t);
            var second := Absorb(first, ["PEP"], 0, t);
            |second| == 3 && second[1].id == "term-2" && second[2].id == "term-2"
  {
    var t := Template("term-", "term", parentId, true);
    var a := DNode("term-" + NatToString(0), "KYC", "term", parentId);
    assert NatToString(0) == "0" && NatToString(2) == "2";
    assert Absorb([], ["KYC", "AML"], 0, t) == Absorb([a], ["KYC", "AML"], 1, t);
    assert !HasLabel([a], "AML");
    var b := DNode("term-" + NatToString(2), "AML", "term", parentId);
    assert Absorb([a], ["KYC", "AML"], 1, t) == [a, b];
    assert !HasLabel([a, b], "PEP");
    assert Absorb([a, b], ["PEP"], 0, t) == [a, b, DNode("term-" + NatToString(2), "PEP", "term", parentId)];
  }

  /** The loop of a `forEach` that pushes into one of the lists: the same result as
      `Absorb` from the first position. */
  method AbsorbBatch(entries: seq<DNode>, labels: seq<string>, t: Template) returns (r: seq<DNode>)
    ensures r == Absorb(entries, labels, 0, t)
  {
    r := entries;
    var idx := 0;
    while idx < |labels|
      invariant 0 <= idx <= |labels|
      invariant Absorb(r, labels, idx, t) == Absorb(entries, labels, 0, t)
    {
      var caption := labels[idx];
      if Admits(r, t, caption) {
        r := r + [DNode(t.prefix + NatToString(|r| + idx), caption, t.kind, t.parentId)];
      }
      idx := idx + 1;
    }
  }

  /** `term.term || term.name` */
  function TermLabel(info: TermInfo): (l: string)
    ensures info.term != "" ==> l == info.term
    ensures info.term == "" ==> l == info.name
    ensures l == "" <==> info.term == "" && info.name == ""
  {
    if info.term != "" then info.term else info.name
  }

  /** A node of the drawn graph. */
  datatype ViewNode = ViewNode(id: string, caption: string, kind: string)

  /** A link of the drawn graph. */
  datatype ViewLink = ViewLink(source: string, target: string)

  function Views(entries: seq<DNode>, kind: string): (vs: seq<ViewNode>)
    ensures |vs| == |entries|
    ensures forall k :: 0 <= k < |entries| ==> vs[k] == ViewNode(entries[k].id, entries[k].caption, kind)
  {
    seq(|entries|, k requires 0 <= k < |entries| => ViewNode(entries[k].id, entries[k].caption, kind))
  }

  function LinksFrom(source: string, entries: seq<DNode>): (ls: seq<ViewLink>)
    ensures |ls| == |entries|
    ensures forall k :: 0 <= k < |entries| ==> ls[k] == ViewLink(source, entries[k].id)
  {
    seq(|entries|, k requires 0 <= k < |entries| => ViewLink(source, entries[k].id))
  }

  function LinksFromParents(entries: seq<DNode>): (ls: seq<ViewLink>)
    ensures |ls| == |entries|
    ensures forall k :: 0 <= k < |entries| ==> ls[k] == ViewLink(entries[k].parentId, entries[k].id)
  {
    seq(|entries|, k requires 0 <= k < |entries| => ViewLink(entries[k].parentId, entries[k].id))
  }

  /** The node and link lists of `renderKnowledgeGraph`. */
  datatype Projection = Projection(nodes: seq<ViewNode>, links: seq<ViewLink>)

  /** The entries appear as nodes of the given type from position `offset` on. */
  predicate Shows(nodes: seq<ViewNode>, offset: nat, entries: seq<DNode>, kind: string) {
    && offset + |entries| <= |nodes|
    && forall k :: 0 <= k < |entries| ==> nodes[offset + k] == ViewNode(entries[k].id, entries[k].caption, kind)
  }

  lemma ShowsAfter(front: seq<ViewNode>, nodes: seq<ViewNode>, offset: nat, entries: seq<DNode>, kind: string)
    requires Shows(nodes, offset, entries, kind)
    ensures Shows(front + nodes, |front| + offset, entries, kind)
  {
    forall k | 0 <= k < |entries|
      ensures (front + nodes)[|front| + offset + k] == ViewNode(entries[k].id, entries[k].caption, kind)
    {
      assert (front + nodes)[|front| + offset + k] == nodes[offset + k];
    }
  }

  lemma ShowsBefore(nodes: seq<ViewNode>, back: seq<ViewNode>, offset: nat, entries: seq<DNode>, kind: string)
    requires Shows(nodes, offset, entries, kind)
    ensures Shows(nodes + back, offset, entries, kind)
  {
    forall k | 0 <= k < |entries|
      ensures (nodes + back)[offset + k] == ViewNode(entries[k].id, entries[k].caption, kind)
    {
      assert (nodes + back)[offset + k] == nodes[offset + k];
    }
  }

  /** Link `k` ends at node `k` of a node list. */
  predicate Aligned(nodes: seq<ViewNode>, links: seq<ViewLink>) {
    |nodes| == |links| && forall k :: 0 <= k < |links| ==> links[k].target == nodes[k].id
  }

  lemma AlignedConcat(n1: seq<ViewNode>, l1: seq<ViewLink>, n2: seq<ViewNode>, l2: seq<ViewLink>)
    requires Aligned(n1, l1) && Aligned(n2, l2)
    ensures Aligned(n1 + n2, l1 + l2)
  {
  }

  /** `renderKnowledgeGraph`'s construction: the company node when its label is
      non-empty, then every regulation, line of business, process and term; one link
      per non-company node, regulations and lines of business hanging off
      `company-root`, processes and terms off their recorded parent. */
  function Project(companyCaption: string, regulations: seq<DNode>, lobs: seq<DNode>, processes: seq<DNode>,
                   terms: seq<DNode>): (g: Projection)
    ensures |g.nodes| == (if companyCaption != "" then 1 else 0) + |regulations| + |lobs| + |processes| + |terms|
    ensures |g.links| == |regulations| + |lobs| + |processes| + |terms|
    ensures forall k :: 0 <= k < |regulations| + |lobs| ==> g.links[k].source == CompanyRootId
    ensures forall k :: 0 <= k < |processes| ==>
              g.links[|regulations| + |lobs| + k].source == processes[k].parentId
    ensures forall k :: 0 <= k < |terms| ==>
              g.links[|regulations| + |lobs| + |processes| + k].source == terms[k].parentId
    ensures companyCaption != "" ==> g.nodes[0] == ViewNode(CompanyRootId, companyCaption, "company")
  {
    var company := if companyCaption != "" then [ViewNode(CompanyRootId, companyCaption, "company")] else [];
    Projection(company + (Views(regulations, "regulation") + Views(lobs, "lob") + Views(processes, "process")
                          + Views(terms, "term")),
               RenderLinks(regulations, lobs, processes, terms))
  }

  /** The links of `renderKnowledgeGraph`, in the order of its node lists. */
  function RenderLinks(regulations: seq<DNode>, lobs: seq<DNode>, processes: seq<DNode>, terms: seq<DNode>)
    : (ls: seq<ViewLink>)
    ensures |ls| == |regulations| + |lobs| + |processes| + |terms|
    ensures forall k :: 0 <= k < |regulations| + |lobs| ==> ls[k].source == CompanyRootId
    ensures forall k :: 0 <= k < |processes| ==> ls[|regulations| + |lobs| + k].source == processes[k].parentId
    ensures forall k :: 0 <= k < |terms| ==>
              ls[|regulations| + |lobs| + |processes| + k].source == terms[k].parentId
  {
    var front := LinksFrom(CompanyRootId, regulations) + LinksFrom(CompanyRootId, lobs);
    var l3, l4 := LinksFromParents(processes), LinksFromParents(terms);
    assert forall k :: 0 <= k < |processes| ==> (front + l3 + l4)[|front| + k] == l3[k];
    assert forall k :: 0 <= k < |terms| ==> (front + l3 + l4)[|front| + |l3| + k] == l4[k];
    front + l3 + l4
  }

  /** Four blocks of nodes laid out one after the other behind `front`. */
  lemma ShowsStacked(front: seq<ViewNode>, v1: seq<ViewNode>, v2: seq<ViewNode>, v3: seq<ViewNode>,
                     v4: seq<ViewNode>, e1: seq<DNode>, e2: seq<DNode>, e3: seq<DNode>, e4: seq<DNode>,
                     k1: string, k2: string, k3: string, k4: string)
    requires |v1| == |e1| && |v2| == |e2| && |v3| == |e3| && |v4| == |e4|
    requires Shows(v1, 0, e1, k1) && Shows(v2, 0, e2, k2) && Shows(v3, 0, e3, k3) && Shows(v4, 0, e4, k4)
    ensures var all := front + (v1 + v2 + v3 + v4);
            && Shows(all, |front|, e1, k1)
            && Shows(all, |front| + |e1|, e2, k2)
            && Shows(all, |front| + |e1| + |e2|, e3, k3)
            && Shows(all, |front| + |e1| + |e2| + |e3|, e4, k4)
  {
    var rest := v1 + v2 + v3 + v4;
    ShowsBefore(v1, v2, 0, e1, k1);
    ShowsBefore(v1 + v2, v3, 0, e1, k1);
    ShowsBefore(v1 + v2 + v3, v4, 0, e1, k1);
    ShowsAfter(front, rest, 0, e1, k1);
    ShowsAfter(v1, v2, 0, e2, k2);
    ShowsBefore(v1 + v2, v3, |v1|, e2, k2);
    ShowsBefore(v1 + v2 + v3, v4, |v1|, e2, k2);
    ShowsAfter(front, rest, |v1|, e2, k2);
    ShowsAfter(v1 + v2, v3, 0, e3, k3);
    ShowsBefore(v1 + v2 + v3, v4, |v1 + v2|, e3, k3);
    ShowsAfter(front, rest, |v1 + v2|, e3, k3);
    ShowsAfter(v1 + v2 + v3, v4, 0, e4, k4);
    ShowsAfter(front, rest, |v1 + v2 + v3|, e4, k4);
  }

  /** Past the company node (when drawn), the regulations, lines of business,
      processes and terms appear in that order, each under its own type. */
  lemma ProjectLayout(companyCaption: string, regulations: seq<DNode>, lobs: seq<DNode>, processes: seq<DNode>,
                      terms: seq<DNode>)
    ensures var g := Project(companyCaption, regulations, lobs, processes, terms);
            var c := if companyCaption != "" then 1 else 0;
            && Shows(g.nodes, c, regulations, "regulation")
            && Shows(g.nodes, c + |regulations|, lobs, "lob")
            && Shows(g.nodes, c + |regulations| + |lobs|, processes, "process")
            && Shows(g.nodes, c + |regulations| + |lobs| + |processes|, terms, "term")
  {
    var company := if companyCaption != "" then [ViewNode(CompanyRootId, companyCaption, "company")] else [];
    ShowsStacked(company, Views(regulations, "regulation"), Views(lobs, "lob"), Views(processes, "process"),
                 Views(terms, "term"), regulations, lobs, processes, terms, "regulation", "lob", "process", "term");
  }

  /** Past the company node (when drawn), the `k`-th link ends at the `k`-th node. */
  lemma LinksAlignWithNodes(companyCaption: string, regulations: seq<DNode>, lobs: seq<DNode>,
                            processes: seq<DNode>, terms: seq<DNode>)
    ensures var g := Project(companyCaption, regulations, lobs, processes, terms);
            Aligned(g.nodes[if companyCaption != "" then 1 else 0..], g.links)
  {
    var g := Project(companyCaption, regulations, lobs, processes, terms);
    var company := if companyCaption != "" then [ViewNode(CompanyRootId, companyCaption, "company")] else [];
    var v1, v2, v3, v4 := Views(regulations, "regulation"), Views(lobs, "lob"), Views(processes, "process"),
                          Views(terms, "term");
    var l1, l2, l3, l4 := LinksFrom(CompanyRootId, regulations), LinksFrom(CompanyRootId, lobs),
                          LinksFromParents(processes), LinksFromParents(terms);
    AlignedConcat(v1, l1, v2, l2);
    AlignedConcat(v1 + v2, l1 + l2, v3, l3);
    AlignedConcat(v1 + v2 + v3, l1 + l2 + l3, v4, l4);
    assert g.nodes[|company|..] == v1 + v2 + v3 + v4;
  }

  function NodeIds(nodes: seq<ViewNode>): set<string> {
    set n | n in nodes :: n.id
  }

  /** Every link ends at a node of the projection. */
  lemma LinkTargetsAreNodes(companyCaption: string, regulations: seq<DNode>, lobs: seq<DNode>,
                            processes: seq<DNode>, terms: seq<DNode>)
    ensures var g := Project(companyCaption, regulations, lobs, processes, terms);
            forall l | l in g.links :: l.target in NodeIds(g.nodes)
  {
    LinksAlignWithNodes(companyCaption, regulations, lobs, processes, terms);
    var g := Project(companyCaption, regulations, lobs, processes, terms);
    AlignedTargetsAreNodes(g.nodes, g.links, if companyCaption != "" then 1 else 0);
  }

  lemma AlignedTargetsAreNodes(nodes: seq<ViewNode>, links: seq<ViewLink>, offset: nat)
    requires offset <= |nodes| && Aligned(nodes[offset..], links)
    ensures forall l | l in links :: l.target in NodeIds(nodes)
  {
    forall l | l in links ensures l.target in NodeIds(nodes) {
      var k :| 0 <= k < |links| && links[k] == l;
      assert nodes[offset..][k] == nodes[offset + k];
      assert nodes[offset + k] in nodes;
    }
  }

  /** Links are not checked against the nodes: a process whose line of business was
      not found hangs off `lob--1`, which is no node's id. */
  lemma DanglingSourceKept()
    ensures var p := DNode("proc-0", "Claims Handling", "process", "lob-" + IntToString(IndexByLabel([], "Marine")));
            var g := Project("Acme", [], [], [p], []);
            g.links == [ViewLink("lob--1", "proc-0")]
            && forall n | n in g.nodes :: n.id != "lob--1"
  {
    assert NatToString(1) == "1";
    assert IntToString(-1) == "-1";
    assert IndexByLabel([], "Marine") == -1;
    assert "lob-" + IntToString(-1) == "lob--1";
    assert "company-root"[0] != "lob--1"[0] && "proc-0"[0] != "lob--1"[0];
    var p := DNode("proc-0", "Claims Handling", "process", "lob--1");
    var g := Project("Acme", [], [], [p], []);
    assert g.nodes == [ViewNode(CompanyRootId, "Acme", "company"), ViewNode("proc-0", "Claims Handling", "process")];
    assert g.links == [ViewLink("lob--1", "proc-0")];
  }

  /** `discoveredNodes` */
  class DiscoveredNodes {
    var companyCaption: string
    var regulations: seq<DNode>
    var linesOfBusiness: seq<DNode>
    var processes: seq<DNode>
    var terms: seq<DNode>

    /** Processes and terms never share a label within their list. */
    ghost predicate Valid()
      reads this
    {
      DistinctLabels(processes) && DistinctLabels(terms)
    }

    /** The empty tracker the page starts with. */
    constructor ()
      ensures Valid()
      ensures companyCaption == "" && regulations == [] && linesOfBusiness == [] && processes == [] && terms == []
    {
      companyCaption, regulations, linesOfBusiness, processes, terms := "", [], [], [], [];
    }

    /** The initialisation in `displaySemanticResults`: the company label, every
        line of business (`lob-<idx>`), every regulation of the semantic layer (its
        own id or `reg-<idx>`, its name or 'Unknown Regulation'), and no processes or
        terms. */
    method Initialize(companyName: string, lobNames: seq<string>, regs: seq<RegulationInfo>)
      modifies this
      ensures Valid()
      ensures companyCaption == companyName && processes == [] && terms == []
      ensures |linesOfBusiness| == |lobNames| && |regulations| == |regs|
      ensures forall i :: 0 <= i < |lobNames| ==>
                linesOfBusiness[i] == DNode("lob-" + NatToString(i), lobNames[i], "lob", CompanyRootId)
      ensures forall i :: 0 <= i < |regs| ==>
                regulations[i] == DNode(if regs[i].regulationId != "" then regs[i].regulationId else "reg-" + NatToString(i),
                                        if regs[i].name != "" then regs[i].name else "Unknown Regulation",
                                        "regulation", CompanyRootId)
    {
      companyCaption := companyName;
      linesOfBusiness := seq(|lobNames|, i requires 0 <= i < |lobNames| =>
                               DNode("lob-" + NatToString(i), lobNames[i], "lob", CompanyRootId));
      regulations := seq(|regs|, i requires 0 <= i < |regs| =>
                           DNode(if regs[i].regulationId != "" then regs[i].regulationId else "reg-" + NatToString(i),
                                 if regs[i].name != "" then regs[i].name else "Unknown Regulation",
                                 "regulation", CompanyRootId));
      processes, terms := [], [];
    }

    /** `exploreRegulations` tracking the explored regulation: appended under
        `company-root` unless one with that label is already tracked. */
    method AddRegulation(regId: string, regName: string)
      requires Valid()
      modifies this`regulations
      ensures Valid()
      ensures HasLabel(old(regulations), regName) ==> regulations == old(regulations)
      ensures !HasLabel(old(regulations), regName) ==>
                regulations == old(regulations) + [DNode(regId, regName, "regulation", CompanyRootId)]
      ensures DistinctLabels(old(regulations)) ==> DistinctLabels(regulations)
    {
      if FindByLabel(regulations, regName).None? {
        regulations := regulations + [DNode(regId, regName, "regulation", CompanyRootId)];
      }
    }

    /** `exploreLineOfBusiness` tracking the processes of a line of business: each
        new name becomes `proc-<n>` under `lob-<i>`, `i` being the position of the
        line of business (-1 when it is not tracked). */
    method AddProcesses(lobName: string, names: seq<string>)
      requires Valid()
      modifies this`processes
      ensures Valid()
      ensures processes == Absorb(old(processes), names, 0,
                                  Template("proc-", "process", "lob-" + IntToString(IndexByLabel(linesOfBusiness, lobName)), false))
    {
      var t := Template("proc-", "process", "lob-" + IntToString(IndexByLabel(linesOfBusiness, lobName)), false);
      AbsorbKeepsDistinct(processes, names, 0, t);
      processes := AbsorbBatch(processes, names, t);
    }

    /** The regulation branch's term tracking: the label is `term || name` and must
        be non-empty; the parent is the regulation with that label, or 'unknown'. */
    method AddRegulationTerms(regName: string, batch: seq<TermInfo>)
      requires Valid()
      modifies this`terms
      ensures Valid()
      ensures terms == Absorb(old(terms), seq(|batch|, i requires 0 <= i < |batch| => TermLabel(batch[i])), 0,
                              Template("term-", "term", ParentIdByLabel(regulations, regName), true))
    {
      var labels := seq(|batch|, i requires 0 <= i < |batch| => TermLabel(batch[i]));
      var t := Template("term-", "term", ParentIdByLabel(regulations, regName), true);
      AbsorbKeepsDistinct(terms, labels, 0, t);
      terms := AbsorbBatch(terms, labels, t);
    }

    /** `exploreBusinessTerms` tracking the terms of a process: the label is `term`
        with no emptiness check; the parent is the process with that label, or
        'unknown'. */
    method AddProcessTerms(processName: string, labels: seq<string>)
      requires Valid()
      modifies this`terms
      ensures Valid()
      ensures terms == Absorb(old(terms), labels, 0, Template("term-", "term", ParentIdByLabel(processes, processName), false))
    {
      var t := Template("term-", "term", ParentIdByLabel(processes, processName), false);
      AbsorbKeepsDistinct(terms, labels, 0, t);
      terms := AbsorbBatch(terms, labels, t);
    }

    /** The node and link lists `renderKnowledgeGraph` builds from the tracker. */
    function Graph(): Projection
      reads this
    {
      Project(companyCaption, regulations, linesOfBusiness, processes, terms)
    }
  }
}
