# Knowledge-graph navigator and semantic-catalyst client state, in Dafny

This project models the client-side bookkeeping of two browser scripts of the
landing site.

The interactive knowledge-graph navigator (`landing/app-interactive-navigation.js`):
- the `graphState` store and its seeding with the company node;
- the incremental merge of an exploration response. `expandKnowledgeGraph` skips ids
  that are already known, places each new node by an anti-overlap retry loop, and
  appends one node, one parent link and one count per new node;
- the viewport clamp and the `'boundary'` force;
- the token, cost and cache-hit accounting of a successful exploration;
- the display tables for labels, radii and colours;
- the classification of exploration errors into user-facing notices.

The semantic-catalyst results page (`landing/app-semantic-catalyst.js`):
- the three-step onboarding wizard, with its step validators and the email pattern;
- the exploration memo cache and its key normalisation;
- the exploration context with its breadcrumbs;
- the context-to-sections visibility table;
- the single-selection discipline of the regulation, line-of-business and process
  checkbox grids;
- the `discoveredNodes` tracker, which stays free of duplicate labels batch by batch,
  and its projection into the node and link lists of `renderKnowledgeGraph`.

State that the scripts update in place is modelled as Dafny classes:
- `InteractiveGraph.GraphState`, `Wizard.WizardState`;
- `Exploration.ExplorationCache`, `Exploration.ExplorationContext`, `Exploration.CheckboxGroup`;
- `Discovered.DiscoveredNodes`.

Their fields are sequences and maps that the methods reassign. Pure decisions are
functions, and the loops of the source are methods with loop invariants, each proved
against a specification function. Coordinates are `real`. The random candidate
generator of the placement loop is a function parameter, so every property of the
merge holds whatever candidates it yields. Absent JavaScript values (`null`,
`undefined`) are `Option`s, or the empty string where the code only tests them for
truthiness.

Files:
- `options.dfy`: `Option` and `Result`.
- `strings.dfy`: the JavaScript string primitives the scripts rely on.
  - the `\s` / `trim()` white-space class;
  - `includes`;
  - the default order of `Array.prototype.sort`;
  - `join`;
  - decimal printing.
- `graph.dfy`: the navigator.
- `wizard.dfy`: the onboarding wizard.
- `exploration.dfy`: the cache, the context, visibility, the cave titles and the checkbox grids.
- `discovered.dfy`: the `discoveredNodes` tracker and the graph projection.

## Model

| member | source | states |
|---|---|---|
| InteractiveGraph.TooClose | landing/app-interactive-navigation.js:1297-1307 | a position is too close exactly when some known position lies at distance strictly below 100 (squared distance below 100²); never for an empty list |
| InteractiveGraph.Clamp | landing/app-interactive-navigation.js:1338-1339 | a clamped coordinate is at least 80, and exactly 80 when the input is below 80; on a canvas of at least 160 it is at most limit−80, and exactly limit−80 when the input is beyond that; it is unchanged when already inside; it is 80 when the canvas is narrower than 160 |
| InteractiveGraph.ClampIdempotent | landing/app-interactive-navigation.js:1338-1339 | clamping twice is clamping once |
| InteractiveGraph.Candidate | landing/app-interactive-navigation.js:1319-1339 | every candidate the loop draws lies inside the padded viewport, whatever the random part yields |
| InteractiveGraph.PlaceNode | landing/app-interactive-navigation.js:1316-1342 | the do-while loop runs 1 to 50 attempts; the result is the last candidate drawn, and every earlier candidate was too close; the result keeps its distance from every known position unless all 50 attempts were spent |
| InteractiveGraph.FindNode | landing/app-interactive-navigation.js:1282 | `find` by id returns the first node carrying the id, and nothing exactly when no node carries it |
| InteractiveGraph.FindNodeMissesIff | landing/app-interactive-navigation.js:1311-1313 | the existence check misses exactly the ids not in the store |
| InteractiveGraph.Anchor | landing/app-interactive-navigation.js:1282-1284 | with a parent, the anchor is the parent's position, each coordinate falling back to 400 (x) or 300 (y) when it is 0; without a parent the anchor is (400, 300) |
| InteractiveGraph.Positions | landing/app-interactive-navigation.js:1293 | the snapshot of positions has one point per node, in order |
| InteractiveGraph.NewEntriesFresh | landing/app-interactive-navigation.js:1310-1313 | the entries a batch adds come from the batch, carry ids not known before, and carry no id twice, so duplicates within one batch are added once |
| InteractiveGraph.NewEntriesCover | landing/app-interactive-navigation.js:1310-1313 | after the merge every id of the batch is known |
| InteractiveGraph.NewEntriesOfKnown | landing/app-interactive-navigation.js:1311-1313 | a batch whose ids are all known adds nothing |
| InteractiveGraph.MergeIdempotent | landing/app-interactive-navigation.js:1310-1313 | merging the same batch a second time adds nothing |
| InteractiveGraph.NewEntriesStep | landing/app-interactive-navigation.js:1310-1313 | each batch entry is added exactly when its id is neither in the store nor added earlier in the batch |
| InteractiveGraph.AppendDistinct | landing/app-interactive-navigation.js:1353-1366 | pushing a node whose id is new keeps ids unique and adds exactly that id |
| InteractiveGraph.LinksFrom | landing/app-interactive-navigation.js:1368-1372 | one link from the parent to each added id, in order |
| InteractiveGraph.PlacementExtends | landing/app-interactive-navigation.js:1350-1366 | a node placed against all positions known at that moment keeps the whole batch well placed |
| InteractiveGraph.GraphState.constructor | landing/app-interactive-navigation.js:26-37 | the store starts empty with all counters at zero |
| InteractiveGraph.GraphState.Initialize | landing/app-interactive-navigation.js:55-184 | without a canvas only the company name is recorded; otherwise the store holds one node at the canvas centre, with the backend's id and type (default `company`) or the fallback `company-root`/`party`; there are no links, the discovery count is 1, and industry and country are taken from the backend's record when present |
| InteractiveGraph.GraphState.ExpandKnowledgeGraph | landing/app-interactive-navigation.js:1275-1382 | a missing or empty batch changes nothing; otherwise the old nodes and links stay an unchanged prefix; one node (same id, label, type) and one link `parent → id` are appended per new entry, in batch order; `nodesDiscovered` grows by their number; ids stay unique; every new node lies inside the padded viewport and keeps its distance from every earlier node unless its placement spent 50 attempts |
| InteractiveGraph.GraphState.MergeBatch | landing/app-interactive-navigation.js:1309-1376 | the `forEach` over a non-empty batch leaves the store in the merged state described above |
| InteractiveGraph.GraphState.AppendPlaced | landing/app-interactive-navigation.js:1353-1374 | one step pushes exactly one node, one link and one count, preserving the merge invariant |
| InteractiveGraph.Bounded | landing/app-interactive-navigation.js:323-333 | the boundary force sets every node but the company or party node to its coordinates clamped to the viewport (each within 80..size−80) and leaves the company or party node untouched |
| InteractiveGraph.BoundedIdempotent | landing/app-interactive-navigation.js:323-333 | further ticks of the boundary force do not move a node again |
| InteractiveGraph.GraphState.BoundaryForce | landing/app-interactive-navigation.js:323-333 | the `forEach` replaces every node by its bounded version and changes nothing else |
| InteractiveGraph.BoundedX | landing/app-interactive-navigation.js:1610-1617 | the resize-time force sets x to its clamp against the new width and leaves y alone; the company or party node is exempt |
| InteractiveGraph.GraphState.ResizeBoundaryForce | landing/app-interactive-navigation.js:1610-1617 | the `forEach` replaces every node by its x-clamped version |
| InteractiveGraph.GraphState.ApplyExploration | landing/app-interactive-navigation.js:1217-1225 | tokens and cost grow by the reported amounts (absent reads as 0), a cache hit counts once; then the batch is merged with the node as parent: the old store is a prefix, the appended nodes mirror the new entries, the ids grow by exactly theirs, and every new node is inside the viewport and well placed unless its placement spent 50 attempts |
| InteractiveGraph.TruncateLabel | landing/app-interactive-navigation.js:1694-1697 | a company or party label of at most 25 characters, or any other label of at most 15, is unchanged; a longer one becomes its first 22 (resp. 12) characters followed by `...`, exactly 25 (resp. 15) long |
| InteractiveGraph.NodeRadius | landing/app-interactive-navigation.js:1682-1692 | the radius table; an unknown type gets 10 |
| InteractiveGraph.CompanyNodeIsLargest | landing/app-interactive-navigation.js:1682-1692 | the company or party node is drawn at least as large as any other |
| InteractiveGraph.NodeColor | landing/app-interactive-navigation.js:1670-1680 | the whole colour table: party `#6366f1`, company `#06b6d4`, regulation `#4ade80`, business line `#a78bfa`, process `#60a5fa`, business term `#fbbf24`; any other type is grey `#9ca3af` |
| InteractiveGraph.Categorize | landing/app-interactive-navigation.js:1246-1262 | first match over the `includes` substring checks, in order: exhausted, quota, rate/limit/429, both models failed, generic; each category holds exactly when its check fires and no earlier one does |
| InteractiveGraph.NoticeFor | landing/app-interactive-navigation.js:1246-1264 | each category's notice text (`NoticeMessage`), with the support link only for the failure of both models |
| InteractiveGraph.ExplorationErrorNotice | landing/app-interactive-navigation.js:1236-1264 | the support link is offered exactly when the message is classified as the failure of both models |
| InteractiveGraph.ErrorText | landing/app-interactive-navigation.js:1240 | the text classified is the error's message, or 'Exploration failed' when it has none; it is never empty |
| InteractiveGraph.GenerateHidesSupport | landing/app-interactive-navigation.js:1246-1262 | because the checks run in order, "Both LLMs failed to generate" matches the rate check ("gene-rate") and offers no support link |
| JsStrings.TrimIdempotent | landing/app-semantic-catalyst.js:477 | trimming a trimmed string changes nothing |
| JsStrings.TrimEmptyIffAllSpace | landing/app-semantic-catalyst.js:477 | `trim()` yields the empty string exactly when the input is all white space |
| JsStrings.Trim | landing/app-semantic-catalyst.js:477 | the result is the input with its leading and trailing white space removed: it neither starts nor ends with white space, and what was cut off on either side is all white space |
| JsStrings.Sort | landing/app-semantic-catalyst.js:204 | the default order of `sort()`: the result is sorted and a permutation of the input |
| JsStrings.SortPermutationInvariant | landing/app-semantic-catalyst.js:204 | `sort()` yields the same array for any two orderings of the same names |
| JsStrings.SortedUnique | landing/app-semantic-catalyst.js:204 | two sorted permutations of each other are equal, so the result does not depend on the sort algorithm |
| Wizard.PatternIffShape | landing/app-semantic-catalyst.js:488-492 | the email pattern (`MatchesEmailPattern`) accepts exactly the strings with no white space, exactly one `@`, a non-empty local part, and a dot in the domain that is neither its first nor its last character |
| Wizard.ValidateChoice | landing/app-semantic-catalyst.js:280-301 | the platform (and industry) step succeeds exactly when an option is selected and `other` comes with a non-blank custom value; the error alert says which check failed; the value recorded is the option or the trimmed custom text |
| Wizard.ValidateContact | landing/app-semantic-catalyst.js:476-511 | the contact step succeeds exactly when the trimmed email, company and HQ are non-empty, the email has the pattern's shape, and HQ `other` comes with a non-blank custom country; the fill-in alert comes first, then the email alert, then the country alert; the recorded values are the trimmed fields |
| Wizard.Validate | landing/app-semantic-catalyst.js:280-511 | each step succeeds exactly when its validator does; on success the data gets that validator's values in that step's fields (platform; industry; email, company, HQ and challenge) and keeps all others; on failure the alert is that validator's, with the step's own texts |
| Wizard.Advance | landing/app-semantic-catalyst.js:610-617 | the step moves one further exactly when validation succeeded and the step is not the last; it stays within 0..2 |
| Wizard.WizardState.constructor | landing/app-semantic-catalyst.js:14-23 | the wizard starts at step 0 with empty data |
| Wizard.WizardState.NextStep | landing/app-semantic-catalyst.js:610-617 | `nextStep` advances as `Advance` says, records the step's fields only on success, and reports the alert on failure |
| Exploration.DepthOrDefault | landing/app-semantic-catalyst.js:207 | an absent depth or depth 0 reads as 1; any other depth as itself |
| Exploration.AfterKeying | landing/app-semantic-catalyst.js:204 | `getCacheKey` sorts the caller's regulations array in place: afterwards it is a sorted permutation of what it was, and nothing else changes |
| Exploration.EquivalentSameKey | landing/app-semantic-catalyst.js:201-213 | contexts whose regulation arrays are permutations of each other, and which agree on the other fields and on the defaulted depth, share their key (`KeyOf`, which joins the sorted names) |
| Exploration.MissingDepthKeysAsOne | landing/app-semantic-catalyst.js:207 | a missing depth, depth 0 and depth 1 give the same key |
| Exploration.KeyingKeepsKey | landing/app-semantic-catalyst.js:204 | the in-place sort does not change the key the context gets next time |
| Exploration.ListAndTextCollide | landing/app-semantic-catalyst.js:204 | an array holding the one name "GDPR,SOX" and the text "GDPR,SOX" get the same key |
| Exploration.StoreThenLookup | landing/app-semantic-catalyst.js:215-228 | after `cacheExploration(t, c, r)` (`Store`), `getCachedExploration(t, c')` (`Lookup`) returns `{r, now, instant}` for every equivalent `c'` |
| Exploration.StoreLeavesOthers | landing/app-semantic-catalyst.js:221-228 | storing under one key leaves every other key's entry as it was |
| Exploration.ExplorationCache.constructor | landing/app-semantic-catalyst.js:45 | the cache starts empty |
| Exploration.ExplorationCache.Get | landing/app-semantic-catalyst.js:215-218 | returns the entry stored under the context's key, and the context as the in-place sort leaves it |
| Exploration.ExplorationCache.Put | landing/app-semantic-catalyst.js:221-228 | the map gains (or replaces) exactly the entry under the context's key |
| Exploration.VisibleSections | landing/app-semantic-catalyst.js:82-109 | `regulation` shows exactly regulations and terms, `lob` exactly lines of business and processes, `process` exactly processes and terms, anything else all four (each section's condition stated both ways) |
| Exploration.KnownContextShowsTwo | landing/app-semantic-catalyst.js:82-109 | a known context shows two sections, any other all four |
| Exploration.CaveName | landing/app-semantic-catalyst.js:918-926 | the four cave types have their titles; every other type is shown as itself |
| Exploration.ExplorationContext.constructor | landing/app-semantic-catalyst.js:37-42 | the context starts with no type or source, depth 0 and no breadcrumbs |
| Exploration.ExplorationContext.NavigateToBreadcrumb | landing/app-semantic-catalyst.js:139-157 | keeps the first index+1 crumbs and sets depth index+1; index 0 clears type and source; index 1 sets the source to the second crumb and the type to `regulation` or `lob` by the regulation selection; larger indices keep type and source; the sections shown follow the visibility table |
| Exploration.ExplorationContext.BeginRegulation | landing/app-semantic-catalyst.js:1583-1589 | exploring a regulation sets type, source, depth 1 and the two-crumb trail, and shows regulations and terms; in the source this happens after the selection check and before the credit check, so also when credits are exhausted |
| Exploration.ExplorationContext.BeginLineOfBusiness | landing/app-semantic-catalyst.js:1818-1824 | exploring a line of business sets type, source, depth 1 and the two-crumb trail, and shows lines of business and processes; in the source this happens before the cache lookup and the credit check, so also on a cache hit and when credits are exhausted |
| Exploration.ExplorationContext.BeginProcess | landing/app-semantic-catalyst.js:1998-2004 | exploring a process sets depth 2 and a three-crumb trail whose middle crumb is kept, or reads 'Business Processes' when missing or empty; in the source this happens before the cache lookup and the credit check, so also on a cache hit and when credits are exhausted |
| Exploration.Click | landing/app-semantic-catalyst.js:1962-1986 | checking a box while another element is selected is refused and changes nothing; checking it otherwise leaves only it checked and selects it; unchecking it clears the selection |
| Exploration.ClickKeepsSingleSelection | landing/app-semantic-catalyst.js:1471-1495 | every click preserves "each checked box is the selected one" |
| Exploration.SingleSelectionAtMostOne | landing/app-semantic-catalyst.js:1498-1522 | under that invariant at most one box is checked |
| Exploration.CheckboxGroup.constructor | landing/app-semantic-catalyst.js:1412-1437 | a freshly rendered grid has only unchecked boxes and no selection |
| Exploration.CheckboxGroup.HandleClick | landing/app-semantic-catalyst.js:1962-1986 | the handler, with its loop over all boxes, has exactly the outcome of `Click` and keeps the single-selection invariant |
| Exploration.CheckboxGroup.RepopulateKeepingSelection | landing/app-semantic-catalyst.js:1938-1959 | re-rendering the process grid replaces the boxes and keeps the old selection |
| Exploration.StaleSelectionRefusesEveryClick | landing/app-semantic-catalyst.js:1962-1970 | with a selection left from the previous rendering, every click on the new boxes is refused: no box stays checked and the stale element stays selected |
| Exploration.CheckboxGroup.Repopulate | landing/app-semantic-catalyst.js:1938-1959 | re-rendering with the selection cleared |
| Exploration.RepopulatedClickSelects | landing/app-semantic-catalyst.js:1974-1978 | after a cleared re-rendering, the first click on any box selects it |
| Discovered.FindByLabel | landing/app-semantic-catalyst.js:1643 | `find` by label returns the first entry with that label, and nothing exactly when none has it |
| Discovered.IndexByLabel | landing/app-semantic-catalyst.js:1899 | `findIndex` by label returns the first position with that label, or −1 exactly when none has it |
| Discovered.ParentIdByLabel | landing/app-semantic-catalyst.js:1727 | with an entry of that label, the parent id is that entry's id (or 'unknown' when the id is empty); with none it is 'unknown' |
| Discovered.AbsorbKeepsPrefix | landing/app-semantic-catalyst.js:1729-1743 | absorbing a batch never modifies existing entries: the old list is a prefix of the new one |
| Discovered.TermLabel | landing/app-semantic-catalyst.js:1731 | a regulation term is labelled by its `term`, or by its `name` when `term` is empty; the label is empty exactly when both are |
| Discovered.AbsorbNewEntries | landing/app-semantic-catalyst.js:1901-1914 | every entry a batch adds carries the batch's type and parent and a label of the batch that was not skipped |
| Discovered.AbsorbKeepsDistinct | landing/app-semantic-catalyst.js:2079-2092 | a label is added only when no entry carries it yet, so labels stay distinct |
| Discovered.AbsorbCovers | landing/app-semantic-catalyst.js:1729-1743 | afterwards every label of the batch that is not skipped as empty is present |
| Discovered.AbsorbNothingNew | landing/app-semantic-catalyst.js:2079-2092 | a batch none of whose labels is admitted leaves the list as it was |
| Discovered.AbsorbTwice | landing/app-semantic-catalyst.js:1729-1743 | absorbing the same batch again, under any parent, adds nothing |
| Discovered.TermIdsCollide | landing/app-semantic-catalyst.js:1730 | term ids are not unique: two terms absorbed into an empty list get `term-0` and `term-2`, and the next batch's first term gets `term-2` again |
| Discovered.AbsorbBatch | landing/app-semantic-catalyst.js:1901-1914 | the `forEach` loop pushing into a list computes exactly the absorption of the whole batch |
| Discovered.Project | landing/app-semantic-catalyst.js:2293-2365 | `DiscoveredNodes.Graph`'s projection: nodes = (the company node `company-root` if the company label is non-empty) + regulations + lines of business + processes + terms; one link per non-company node; regulation and line-of-business links start at `company-root`, process and term links at their recorded parent |
| Discovered.ProjectLayout | landing/app-semantic-catalyst.js:2304-2365 | past the company node, each tracked entry appears in order as a node with its own id, label and the type of its list |
| Discovered.LinksAlignWithNodes | landing/app-semantic-catalyst.js:2304-2365 | past the company node, the k-th link ends at the k-th node |
| Discovered.LinkTargetsAreNodes | landing/app-semantic-catalyst.js:2304-2365 | every link ends at a node of the projection |
| Discovered.DanglingSourceKept | landing/app-semantic-catalyst.js:1899-1908 | links are not checked against the nodes: a process whose line of business is not tracked hangs off `lob--1`, which is no node's id |
| Discovered.DiscoveredNodes.constructor | landing/app-semantic-catalyst.js:51-66 | the tracker starts with an empty company label and empty lists |
| Discovered.DiscoveredNodes.Initialize | landing/app-semantic-catalyst.js:1347-1373 | every line of business becomes `lob-<i>`, every regulation keeps its own id (or `reg-<i>`) and name (or 'Unknown Regulation'), all under `company-root`; processes and terms are emptied |
| Discovered.DiscoveredNodes.AddRegulation | landing/app-semantic-catalyst.js:1643-1652 | the explored regulation is appended under `company-root` exactly when no tracked regulation has its label |
| Discovered.DiscoveredNodes.AddProcesses | landing/app-semantic-catalyst.js:1899-1914 | processes absorb the batch as `proc-<n>` under `lob-<index of the line of business>`, keeping labels distinct |
| Discovered.DiscoveredNodes.AddRegulationTerms | landing/app-semantic-catalyst.js:1725-1743 | terms absorb the batch's `term || name` labels, skipping empty ones, under the regulation's id or 'unknown', keeping labels distinct |
| Discovered.DiscoveredNodes.AddProcessTerms | landing/app-semantic-catalyst.js:2079-2092 | terms absorb the batch's `term` labels under the process's id or 'unknown', keeping labels distinct |

## Left out

- The network calls (`fetch` of company data, exploration and metadata) and their response handling are not modelled. Each response enters the model as an argument (`CompanyRecord`, `ExploreResult`, term and process batches), applied as one atomic step.
- DOM reads and writes are not modelled: templating, modals, toasts, spinners, `updateStats`, `updateBreadcrumb`, `highlightKGSections`. The form fields a validator reads are the `Form` record, and the canvas size is an optional `Viewport`.
- The D3 force simulation, zoom, drag and transitions are third-party physics and are not modelled. Only the `'boundary'` force callback and the positions set when a node is created are modelled.
- The random candidate formula (`Math.random`, `cos`, `sin`) is an arbitrary `Sampler` argument. The initial velocities `vx`/`vy` are random and left out.
- `Date.now()` is the `now` argument of `cacheExploration`. Timers, the resize debounce and the auto-select timeout are left out.
- Floating point is replaced by exact reals. The placement loop compares squared distances with 100² instead of taking `Math.sqrt`.
- `metadata`, `explorationOptions`, `data` and the parent-name fields of the stored records are opaque payloads that no modelled decision reads, and are left out.
- The in-place `.sort()` of `getCacheKey` is modelled as a returned context (`AfterKeying`). Aliasing of the caller's array with other holders of it is not captured.
- `JSON.stringify` of the key object is modelled by the key record itself. The serialisation has a fixed field order, so equal texts mean equal records.
- Non-string or non-array values of context fields are not modelled. Only string fields and either an array of names or a text for `regulations` are.
- `undefined` and the empty string are the same value for labels, names and optional text fields, because the code only tests them for truthiness. A label `undefined` stored by the process-terms branch is therefore the label `""` here.
- The colour, radius and cave-title tables are JavaScript objects. Looking up an inherited property name such as `constructor` is not modelled.
- `updateSectionVisibility` returns early when a section container is missing. That is a DOM condition; the model gives the decision it takes when all four are present.
- The `explore*` handlers return early when nothing is selected, and again on an exhausted credit balance or an HTTP 402. The context update and section visibility (`Begin*`) run after the selection check but before the cache lookup and the credit check, so they also happen on a cache hit and when credits are exhausted; the `Add*` methods model what happens after all the guards pass. The credit balance is not modelled.
- InteractiveGraph.TruncateLabel: lengths and cut points count characters of the Dafny string, whereas JavaScript's `length` and `substring` count UTF-16 code units; a label with characters outside the Basic Multilingual Plane can be cut differently.
- JsStrings.Sort: the order is the character order of the Dafny string, whereas `Array.prototype.sort` compares UTF-16 code units; the two differ only for names with characters outside the Basic Multilingual Plane.
- Exploration.KeyOf: inherits that order through `Sort`, so keys of names with characters outside the Basic Multilingual Plane may be ordered differently than in the browser.
- `populateProcessesGrid` renders at most the first 10 processes. `Repopulate`'s `count` stands for that number.
- `prevStep`, `renderStep` and the `generateSemanticLayer` request are not modelled. `exportKnowledgeGraphToExcel`, the `API_BASE` host detection and `countryMap` are library or environment plumbing and are not modelled either.
- `explorationContext.depth` is written by `navigateToBreadcrumb` (`index + 1`) and by the `explore*` handlers (1 or 2), but no modelled decision reads it. It is kept as a field with no invariant.
- Concurrent explorations can interleave at their `await` points in the browser. Each handler's update is treated as sequential.

## Findings

| source | as written | input that shows it | evidently intended | confidence | as-written member | corrected member |
|---|---|---|---|---|---|---|
| landing/app-semantic-catalyst.js:1938-1959 | `populateProcessesGrid` replaces the process checkboxes but leaves `selectedProcess` pointing at the removed element, so `handleProcessSelection` (1966) refuses every click on the new boxes | select a process, explore another line of business (the grid is rebuilt), then click any new process box: it is unchecked again and the multi-select modal is shown, every time | rebuilding the grid clears the selection, so the first click on a new box selects it | medium, not executed | Exploration.StaleSelectionRefusesEveryClick | Exploration.RepopulatedClickSelects |
