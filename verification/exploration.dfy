/** Exploration state of the results page: the memo cache and its key
    normalisation, the exploration context with its breadcrumbs, the
    context-to-sections visibility table and the single-selection discipline of
    the three checkbox grids. */
module Exploration {
  import opened Options
  import opened JsStrings

  // ---------------------------------------------------------------------------
  // Cache key and memo cache
  // ---------------------------------------------------------------------------

  /** `context.regulations`: either an array of names, or any other value, read as
      text (an absent value reads as the empty text). */
  datatype Regulations = RegList(names: seq<string>) | RegText(text: string)

  /** The fields of an exploration request context the cache key reads. An absent
      text field is the empty string; `depth` may be absent. */
  datatype RequestContext = RequestContext(regulations: Regulations, lineOfBusiness: string,
                                           businessProcess: string, depth: Option<int>,
                                           companyName: string, industry: string)

  /** The `contextKey` object `getCacheKey` serialises. Its fields are serialised in
      a fixed order, so two keys serialise to the same text exactly when the records
      are equal; the record stands for that text. */
  datatype CacheKey = CacheKey(sectionType: string, regulations: string, lob: string, process: string,
                               depth: int, company: string, industry: string)

  /** `context.depth || 1`: an absent depth and the falsy depth 0 both read as 1. */
  function DepthOrDefault(depth: Option<int>): (d: int)
    ensures d != 0
    ensures depth.None? ==> d == 1
    ensures depth == Some(0) ==> d == 1
    ensures depth.Some? && depth.value != 0 ==> d == depth.value
  {
    match depth
    case None => 1
    case Some(v) => if v != 0 then v else 1
  }

  /** The regulations part of the key: the sorted names joined by commas, or the text. */
  function RegulationsText(r: Regulations): string {
    match r
    case RegList(names) => Join(Sort(names), ",")
    case RegText(text) => text
  }

  /** `getCacheKey(sectionType, context)` */
  function KeyOf(sectionType: string, ctx: RequestContext): CacheKey {
    CacheKey(sectionType, RegulationsText(ctx.regulations), ctx.lineOfBusiness, ctx.businessProcess,
             DepthOrDefault(ctx.depth), ctx.companyName, ctx.industry)
  }

  /** The context as `getCacheKey` leaves it: `.sort()` reorders the caller's array. */
  function AfterKeying(ctx: RequestContext): (c: RequestContext)
    ensures c.regulations.RegList? <==> ctx.regulations.RegList?
    ensures c.regulations.RegList? ==> Sorted(c.regulations.names)
                                       && multiset(c.regulations.names) == multiset(ctx.regulations.names)
    ensures c.(regulations := ctx.regulations) == ctx
  {
    match ctx.regulations
    case RegList(names) => ctx.(regulations := RegList(Sort(names)))
    case RegText(_) => ctx
  }

  /** Two contexts the key cannot tell apart by design: the same text fields, the
      same depth once defaulted, and regulation arrays holding the same names in
      any order (or the same text). */
  predicate Equivalent(c1: RequestContext, c2: RequestContext) {
    && c1.lineOfBusiness == c2.lineOfBusiness && c1.businessProcess == c2.businessProcess
    && c1.companyName == c2.companyName && c1.industry == c2.industry
    && DepthOrDefault(c1.depth) == DepthOrDefault(c2.depth)
    && match (c1.regulations, c2.regulations)
       case (RegList(a), RegList(b)) => multiset(a) == multiset(b)
       case (RegText(a), RegText(b)) => a == b
       case _ => false
  }

  /** Equivalent contexts share their key: the order of the regulations does not matter. */
  lemma EquivalentSameKey(sectionType: string, c1: RequestContext, c2: RequestContext)
    requires Equivalent(c1, c2)
    ensures KeyOf(sectionType, c1) == KeyOf(sectionType, c2)
  {
    if c1.regulations.RegList? {
      SortPermutationInvariant(c1.regulations.names, c2.regulations.names);
    }
  }

  /** A missing depth, depth 0 and depth 1 give the same key. */
  lemma MissingDepthKeysAsOne(sectionType: string, ctx: RequestContext)
    ensures KeyOf(sectionType, ctx.(depth := None)) == KeyOf(sectionType, ctx.(depth := Some(1)))
    ensures KeyOf(sectionType, ctx.(depth := Some(0))) == KeyOf(sectionType, ctx.(depth := Some(1)))
  {
  }

  /** Sorting in place does not change the key a context gets next time. */
  lemma KeyingKeepsKey(sectionType: string, ctx: RequestContext)
    ensures KeyOf(sectionType, AfterKeying(ctx)) == KeyOf(sectionType, ctx)
  {
    if ctx.regulations.RegList? {
      SortPermutationInvariant(Sort(ctx.regulations.names), ctx.regulations.names);
    }
  }

  /** The key does not separate an array holding one name with a comma from the same
      text given as a plain value, although `Equivalent` does. */
  lemma ListAndTextCollide(sectionType: string, ctx: RequestContext)
    ensures KeyOf(sectionType, ctx.(regulations := RegList(["GDPR,SOX"])))
         == KeyOf(sectionType, ctx.(regulations := RegText("GDPR,SOX")))
    ensures !Equivalent(ctx.(regulations := RegList(["GDPR,SOX"])), ctx.(regulations := RegText("GDPR,SOX")))
  {
  }

  /** The value `cacheExploration` stores; `timestamp` is `Date.now()` at that call. */
  datatype CacheEntry<R> = CacheEntry(result: R, timestamp: int, instant: bool)

  /** `explorationCache.get(getCacheKey(t, c))` on the map's contents: the
      specification of `ExplorationCache.Get`. */
  function Lookup<R>(entries: map<CacheKey, CacheEntry<R>>, sectionType: string, ctx: RequestContext)
    : Option<CacheEntry<R>>
  {
    var key := KeyOf(sectionType, ctx);
    if key in entries then Some(entries[key]) else None
  }

  /** `explorationCache.set(getCacheKey(t, c), { result, timestamp, instant: true })` on
      the map's contents: the specification of `ExplorationCache.Put`. */
  function Store<R>(entries: map<CacheKey, CacheEntry<R>>, sectionType: string, ctx: RequestContext,
                    result: R, now: int): map<CacheKey, CacheEntry<R>>
  {
    entries[KeyOf(sectionType, ctx) := CacheEntry(result, now, true)]
  }

  /** After storing a result under a context, every equivalent context retrieves it. */
  lemma StoreThenLookup<R>(entries: map<CacheKey, CacheEntry<R>>, sectionType: string, ctx: RequestContext,
                           ctx': RequestContext, result: R, now: int)
    requires Equivalent(ctx, ctx')
    ensures Lookup(Store(entries, sectionType, ctx, result, now), sectionType, ctx')
            == Some(CacheEntry(result, now, true))
  {
    EquivalentSameKey(sectionType, ctx, ctx');
  }

  /** Storing under one key leaves every other key's entry as it was. */
  lemma StoreLeavesOthers<R>(entries: map<CacheKey, CacheEntry<R>>, sectionType: string, ctx: RequestContext,
                             sectionType': string, ctx': RequestContext, result: R, now: int)
    requires KeyOf(sectionType, ctx) != KeyOf(sectionType', ctx')
    ensures Lookup(Store(entries, sectionType, ctx, result, now), sectionType', ctx')
            == Lookup(entries, sectionType', ctx')
  {
  }

  /** `explorationCache`, the `Map` behind `getCachedExploration` and `cacheExploration`. */
  class ExplorationCache<R> {
    var entries: map<CacheKey, CacheEntry<R>>

    constructor ()
      ensures entries == map[]
    {
      entries := map[];
    }

    /** `getCachedExploration(sectionType, context)`: the stored entry, if any (as
        `Lookup` specifies), and the context as the in-place sort leaves it. */
    method Get(sectionType: string, ctx: RequestContext) returns (entry: Option<CacheEntry<R>>, ctx': RequestContext)
      ensures entry == Lookup(entries, sectionType, ctx)
      ensures ctx' == AfterKeying(ctx)
    {
      var key := KeyOf(sectionType, ctx);
      ctx' := AfterKeying(ctx);
      if key in entries {
        entry := Some(entries[key]);
      } else {
        entry := None;
      }
    }

    /** `cacheExploration(sectionType, context, result)` at time `now`: the map becomes
        `Store` of the old one. */
    method Put(sectionType: string, ctx: RequestContext, result: R, now: int) returns (ctx': RequestContext)
      modifies this
      ensures entries == Store(old(entries), sectionType, ctx, result, now)
      ensures ctx' == AfterKeying(ctx)
    {
      entries := entries[KeyOf(sectionType, ctx) := CacheEntry(result, now, true)];
      ctx' := AfterKeying(ctx);
    }
  }

  // ---------------------------------------------------------------------------
  // Section visibility
  // ---------------------------------------------------------------------------

  /** The four result sections of the page. */
  datatype Section = RegulationsSection | LobSection | ProcessesSection | TermsSection

  const AllSections: set<Section> := {RegulationsSection, LobSection, ProcessesSection, TermsSection}

  /** The decision of `updateSectionVisibility(contextType)`: which sections are shown. */
  function VisibleSections(contextType: Option<string>): (shown: set<Section>)
    ensures RegulationsSection in shown <==> contextType != Some("lob") && contextType != Some("process")
    ensures LobSection in shown <==> contextType != Some("regulation") && contextType != Some("process")
    ensures ProcessesSection in shown <==> contextType != Some("regulation")
    ensures TermsSection in shown <==> contextType != Some("lob")
  {
    if contextType == Some("regulation") then {RegulationsSection, TermsSection}
    else if contextType == Some("lob") then {LobSection, ProcessesSection}
    else if contextType == Some("process") then {ProcessesSection, TermsSection}
    else AllSections
  }

  /** A known context shows exactly two sections; any other shows all four. */
  lemma KnownContextShowsTwo(contextType: Option<string>)
    ensures contextType in {Some("regulation"), Some("lob"), Some("process")} ==> |VisibleSections(contextType)| == 2
    ensures contextType !in {Some("regulation"), Some("lob"), Some("process")} ==> VisibleSections(contextType) == AllSections
  {
  }

  /** The cave types that have a display title. */
  const TitledCaves: set<string> := {"business_processes", "regulations", "applications", "business_terms"}

  /** `getCaveName(caveType)`: the display title of a cave type, or the type itself
      when it has none (or an empty one). */
  function CaveName(caveType: string): (name: string)
    ensures caveType == "business_processes" ==> name == "Business Processes"
    ensures caveType == "regulations" ==> name == "Regulations"
    ensures caveType == "applications" ==> name == "Applications"
    ensures caveType == "business_terms" ==> name == "Business Terms"
    ensures name == caveType <==> caveType !in TitledCaves
    ensures name != "" || caveType == ""
  {
    if caveType == "business_processes" then "Business Processes"
    else if caveType == "regulations" then "Regulations"
    else if caveType == "applications" then "Applications"
    else if caveType == "business_terms" then "Business Terms"
    else caveType
  }

  // ---------------------------------------------------------------------------
  // Exploration context and breadcrumbs
  // ---------------------------------------------------------------------------

  predicate KnownContext(kind: Option<string>) {
    kind == None || kind == Some("regulation") || kind == Some("lob") || kind == Some("process")
  }

  /** `explorationContext` */
  class ExplorationContext {
    var kind: Option<string>
    var source: Option<string>
    var depth: int
    var breadcrumbs: seq<string>

    /** At most company, section and process are on the trail, and the context type
        is one the visibility table knows or absent. */
    ghost predicate Valid()
      reads this
    {
      |breadcrumbs| <= 3 && KnownContext(kind)
    }

    constructor ()
      ensures Valid()
      ensures kind == None && source == None && depth == 0 && breadcrumbs == []
    {
      kind, source, depth, breadcrumbs := None, None, 0, [];
    }

    /** `navigateToBreadcrumb(index)`: keeps the first `index + 1` crumbs, sets the
        depth to `index + 1`; index 0 returns to the root, index 1 to the regulation
        or line-of-business level (whichever a regulation selection says); returns
        the sections then shown. */
    method NavigateToBreadcrumb(index: nat, regulationSelected: bool) returns (shown: set<Section>)
      requires Valid()
      modifies this
      ensures Valid()
      ensures breadcrumbs == old(breadcrumbs)[..if index + 1 <= |old(breadcrumbs)| then index + 1 else |old(breadcrumbs)|]
      ensures depth == index + 1
      ensures index == 0 ==> kind == None && source == None
      ensures index == 1 ==> && kind == Some(if regulationSelected then "regulation" else "lob")
                             && source == (if |old(breadcrumbs)| > 1 then Some(old(breadcrumbs)[1]) else None)
      ensures index > 1 ==> kind == old(kind) && source == old(source)
      ensures shown == VisibleSections(kind)
    {
      var keep := if index + 1 <= |breadcrumbs| then index + 1 else |breadcrumbs|;
      breadcrumbs := breadcrumbs[..keep];
      depth := index + 1;
      if index == 0 {
        kind, source := None, None;
      } else if index == 1 {
        source := if |breadcrumbs| > 1 then Some(breadcrumbs[1]) else None;
        kind := Some(if regulationSelected then "regulation" else "lob");
      }
      shown := VisibleSections(kind);
    }

    /** The context update at the start of `exploreRegulations`. */
    method BeginRegulation(companyName: string, regName: string) returns (shown: set<Section>)
      requires Valid()
      modifies this
      ensures Valid()
      ensures kind == Some("regulation") && source == Some(regName) && depth == 1
      ensures breadcrumbs == [companyName, regName]
      ensures shown == {RegulationsSection, TermsSection}
    {
      kind, source, depth := Some("regulation"), Some(regName), 1;
      breadcrumbs := [companyName, regName];
      shown := VisibleSections(kind);
    }

    /** The context update at the start of `exploreLineOfBusiness`. */
    method BeginLineOfBusiness(companyName: string, lobName: string) returns (shown: set<Section>)
      requires Valid()
      modifies this
      ensures Valid()
      ensures kind == Some("lob") && source == Some(lobName) && depth == 1
      ensures breadcrumbs == [companyName, lobName]
      ensures shown == {LobSection, ProcessesSection}
    {
      kind, source, depth := Some("lob"), Some(lobName), 1;
      breadcrumbs := [companyName, lobName];
      shown := VisibleSections(kind);
    }

    /** The context update at the start of `exploreBusinessTerms`: the middle crumb
        is kept when present and non-empty, otherwise it reads 'Business Processes'. */
    method BeginProcess(companyName: string, processName: string) returns (shown: set<Section>)
      requires Valid()
      modifies this
      ensures Valid()
      ensures kind == Some("process") && source == Some(processName) && depth == 2
      ensures |old(breadcrumbs)| > 1 && old(breadcrumbs)[1] != "" ==>
                breadcrumbs == [companyName, old(breadcrumbs)[1], processName]
      ensures !(|old(breadcrumbs)| > 1 && old(breadcrumbs)[1] != "") ==>
                breadcrumbs == [companyName, "Business Processes", processName]
      ensures shown == {ProcessesSection, TermsSection}
    {
      var middle := if |breadcrumbs| > 1 && breadcrumbs[1] != "" then breadcrumbs[1] else "Business Processes";
      kind, source, depth := Some("process"), Some(processName), 2;
      breadcrumbs := [companyName, middle, processName];
      shown := VisibleSections(kind);
    }
  }

  // ---------------------------------------------------------------------------
  // Single-selection checkbox grids
  // ---------------------------------------------------------------------------

  /** A checkbox element: the rendering of the grid it belongs to and its position
      in that rendering. Two references are the same element exactly when equal. */
  datatype BoxRef = BoxRef(generation: nat, index: nat)

  /** The boxes after a click, the selection, and whether the multi-select modal
      refused the click. */
  datatype ClickOutcome = ClickOutcome(checked: seq<bool>, selected: Option<BoxRef>, refused: bool)

  /** Every checked box of the current rendering is the selected one. */
  predicate SingleSelection(checked: seq<bool>, selected: Option<BoxRef>, generation: nat) {
    forall k :: 0 <= k < |checked| && checked[k] ==> selected == Some(BoxRef(generation, k))
  }

  /** A click on box `box.index` of the current rendering: the browser toggles the
      box, then `handle*Selection` runs. Checking a box while another element is
      selected unchecks it again and keeps the selection; checking it otherwise
      unchecks every other box and selects it; unchecking it clears the selection. */
  function Click(checked: seq<bool>, selected: Option<BoxRef>, box: BoxRef): (r: ClickOutcome)
    requires box.index < |checked|
    ensures |r.checked| == |checked|
    ensures r.refused <==> !checked[box.index] && selected.Some? && selected != Some(box)
    ensures r.refused ==> r.checked == checked && r.selected == selected
    ensures !r.refused && !checked[box.index] ==>
              r.selected == Some(box) && forall k :: 0 <= k < |checked| ==> (r.checked[k] <==> k == box.index)
    ensures checked[box.index] ==> r.selected == None && r.checked == checked[box.index := false]
  {
    var i := box.index;
    if !checked[i] && selected.Some? && selected != Some(box) then ClickOutcome(checked, selected, true)
    else if !checked[i] then ClickOutcome(seq(|checked|, k => k == i), Some(box), false)
    else ClickOutcome(checked[i := false], None, false)
  }

  /** Clicking keeps at most one box checked, and that box is the selected one. */
  lemma ClickKeepsSingleSelection(checked: seq<bool>, selected: Option<BoxRef>, generation: nat, index: nat)
    requires index < |checked| && SingleSelection(checked, selected, generation)
    ensures var r := Click(checked, selected, BoxRef(generation, index));
            SingleSelection(r.checked, r.selected, generation)
  {
  }

  lemma SingleSelectionAtMostOne(checked: seq<bool>, selected: Option<BoxRef>, generation: nat)
    requires SingleSelection(checked, selected, generation)
    ensures forall j, k :: 0 <= j < |checked| && 0 <= k < |checked| && checked[j] && checked[k] ==> j == k
  {
  }

  /** The state of one grid: `selectedRegulation`, `selectedLoB` or `selectedProcess`
      with the checkboxes of the grid's current rendering. */
  class CheckboxGroup {
    var generation: nat
    var checked: seq<bool>
    var selected: Option<BoxRef>

    ghost predicate Valid()
      reads this
    {
      SingleSelection(checked, selected, generation)
    }

    /** A freshly rendered grid of `count` unchecked boxes and no selection. */
    constructor (count: nat)
      ensures Valid()
      ensures generation == 0 && checked == seq(count, k => false) && selected == None
    {
      generation, checked, selected := 0, seq(count, k => false), None;
    }

    /** The click handler: toggle, then apply the single-selection rule; unchecking
        the other boxes walks over the whole grid as the `forEach` does. */
    method HandleClick(index: nat) returns (refused: bool)
      requires Valid() && index < |checked|
      modifies this`checked, this`selected
      ensures Valid()
      ensures ClickOutcome(checked, selected, refused) == Click(old(checked), old(selected), BoxRef(generation, index))
    {
      var box := BoxRef(generation, index);
      ghost var before := checked;
      checked := checked[index := !checked[index]];
      if checked[index] && selected.Some? && selected != Some(box) {
        checked := checked[index := false];
        refused := true;
        return;
      }
      refused := false;
      if checked[index] {
        var k := 0;
        while k < |checked|
          invariant 0 <= k <= |checked| == |before|
          invariant checked[index]
          invariant forall j :: 0 <= j < k ==> (checked[j] <==> j == index)
          invariant forall j :: k <= j < |checked| && j != index ==> checked[j] == before[j]
        {
          if k != index {
            checked := checked[k := false];
          }
          k := k + 1;
        }
        selected := Some(box);
      } else {
        selected := None;
      }
    }

    /** `populateProcessesGrid(items)` as written: a new rendering of `count` unchecked
        boxes replaces the grid, and the selection still refers to the old element. */
    method RepopulateKeepingSelection(count: nat)
      requires Valid()
      modifies this
      ensures Valid()
      ensures generation == old(generation) + 1 && checked == seq(count, k => false) && selected == old(selected)
    {
      generation := generation + 1;
      checked := seq(count, k => false);
    }

    /** Repopulating with the selection cleared, so the new boxes can be selected. */
    method Repopulate(count: nat)
      requires Valid()
      modifies this
      ensures Valid()
      ensures generation == old(generation) + 1 && checked == seq(count, k => false) && selected == None
    {
      generation := generation + 1;
      checked := seq(count, k => false);
      selected := None;
    }
  }

  /** The clicks a user makes, in order, by position in the current rendering; the
      result's `refused` tells whether the last click was refused. */
  function ClickAll(checked: seq<bool>, selected: Option<BoxRef>, generation: nat, clicks: seq<nat>)
    : (r: ClickOutcome)
    requires forall i :: 0 <= i < |clicks| ==> clicks[i] < |checked|
    ensures |r.checked| == |checked|
    decreases |clicks|
  {
    if clicks == [] then ClickOutcome(checked, selected, false)
    else
      var r := Click(checked, selected, BoxRef(generation, clicks[0]));
      if |clicks| == 1 then r
      else ClickAll(r.checked, r.selected, generation, clicks[1..])
  }

  /** As written, a selection left over from the previous rendering of the grid
      refuses every click on the new boxes: whatever the user clicks, no box stays
      checked and the old element stays selected. */
  lemma {:induction false} StaleSelectionRefusesEveryClick(count: nat, selected: Option<BoxRef>, generation: nat,
                                                          clicks: seq<nat>)
    requires selected.Some? && selected.value.generation != generation
    requires forall i :: 0 <= i < |clicks| ==> clicks[i] < count
    ensures var r := ClickAll(seq(count, k => false), selected, generation, clicks);
            r.selected == selected && r.checked == seq(count, k => false)
            && (clicks != [] ==> r.refused)
    decreases |clicks|
  {
    if clicks != [] {
      var r := Click(seq(count, k => false), selected, BoxRef(generation, clicks[0]));
      assert r.refused && r.checked == seq(count, k => false) && r.selected == selected;
      if |clicks| > 1 {
        StaleSelectionRefusesEveryClick(count, selected, generation, clicks[1..]);
      }
    }
  }

  /** With the selection cleared on repopulating, the first click on any new box
      selects it. */
  lemma RepopulatedClickSelects(count: nat, generation: nat, index: nat)
    requires index < count
    ensures var r := Click(seq(count, k => false), None, BoxRef(generation, index));
            !r.refused && r.selected == Some(BoxRef(generation, index))
  {
  }
}
