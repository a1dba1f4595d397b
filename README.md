# Cartesian series and XLSX factory, modelled in Dafny

This project models two cores in Dafny and proves properties of the models.

**The Cartesian series base class of a charting library** (`CartesianSeries`).
A series keeps a pool of *sub-groups*, one per context of node data.
Each sub-group owns a main group, a pick group, a label group, an optional
marker group and a fixed number of paths. The series:

- reconciles that pool with the current context data (shrinking or growing
  it, drawing scene-node names and z-order positions from one counter);
- gates the selection phase on item enablement and staleness;
- sets container and sub-group visibility and opacity in the node phase,
  calling the subclass hooks only for visible sub-groups;
- finds the label of the highlighted item;
- answers three kinds of pointer picks: exact shape, closest datum and
  main-axis-first;
- toggles single items.

**The XLSX factory of a spreadsheet exporter** (`ExcelXlsxFactory`).
This is a registry of static state shared by one export. It:

- makes sheet names unique by appending `_1`, `_2`, ...;
- gives each shared string a dense index;
- registers images per workbook and per sheet with dense ids;
- anchors images to a cell and clips their width and height to the columns
  and rows they span;
- lays out the package and workbook relationship lists.

Module layout:

- `Options`: the optional value.
- `Seqs`: lists without duplicates.
- `CartesianData`: node data, contexts, axes.
- `CartesianScene`: scene-node names, groups, paths, sub-groups, the log of
  hook calls.
- `CartesianPool`: the pool invariant and the specification functions of
  each phase.
- `CartesianPick`: the picks and the label search.
- `CartesianSeries`: the value-level loops and the `CartesianSeries` class.
- `XlsxText`: decimal text and name suffixes.
- `XlsxImages`: the `ExcelImage` class and clipping.
- `XlsxRels`: relationship lists.
- `XlsxFactory`: the registry predicates and the `ExcelXlsxFactory` class.

Scene nodes are named by the counter value their sub-group was allocated at.
Subclass hooks that return a new selection are function parameters. Every
hook call is appended to a call log, so the order and gating of calls can be
stated. On an exact tie the main-axis pick keeps the later datum
(cartesianSeries.ts:421-432). Shrinking the sub-group pool detaches each
dropped sub-group's label group from the series root as well; this corrects
cartesianSeries.ts:175-185 (see Findings). The corrected shrink is the one
used by ShrinkPool, ReconcilePool, UpdateSeriesGroups, UpdateSelections and
Update.

## Model

| member | source | states |
|---|---|---|
| CartesianData.CheckDomainXY | charts-packages/ag-charts-community/src/chart/series/cartesian/cartesianSeries.ts:101-106 | the pair is returned exactly when both values suit their axis kind (continuous or discrete), and it is `(x, y)` unchanged |
| CartesianData.CheckRangeXY | charts-packages/ag-charts-community/src/chart/series/cartesian/cartesianSeries.ts:118-120 | true exactly when neither coordinate is NaN and both lie in their axis' range |
| CartesianData.PickInRangeIsRangeCheck | charts-packages/ag-charts-community/src/chart/series/cartesian/cartesianSeries.ts:363-364 | the picks' in-range test (missing point read as NaN) agrees with the range check |
| CartesianData.PickInRange | charts-packages/ag-charts-community/src/chart/series/cartesian/cartesianSeries.ts:363-364 | a datum is only in range when both axes exist and it has a point |
| CartesianData.AllNodeDataStep | charts-packages/ag-charts-community/src/chart/series/cartesian/cartesianSeries.ts:361-362 | scanning one more context appends exactly its node data, in order |
| CartesianData.AllLabelDataStep | charts-packages/ag-charts-community/src/chart/series/cartesian/cartesianSeries.ts:315-316 | scanning one more context appends exactly its label data, in order |
| CartesianData.AllLabelDataPrefix | charts-packages/ag-charts-community/src/chart/series/cartesian/cartesianSeries.ts:315-321 | the labels of the first contexts form a prefix of all labels |
| CartesianPick.ScanClosest | charts-packages/ag-charts-community/src/chart/series/cartesian/cartesianSeries.ts:358-377 | the index the closest-datum scan keeps always points into the data |
| CartesianPick.ScanClosestIsClosest | charts-packages/ag-charts-community/src/chart/series/cartesian/cartesianSeries.ts:358-377 | the scan finds nothing iff no datum is in range; otherwise it keeps an in-range datum no farther than any other, strictly nearer than every earlier one (first wins on ties), with its squared distance as the minimum |
| CartesianPick.ScanClosestSnoc | charts-packages/ag-charts-community/src/chart/series/cartesian/cartesianSeries.ts:365-375 | one loop step: an in-range datum strictly below the minimum replaces the best; anything else leaves the state alone |
| CartesianPick.ClosestOutcome | charts-packages/ag-charts-community/src/chart/series/cartesian/cartesianSeries.ts:379-382 | the scan's final state gives no datum iff none is in range, else the closest datum at its index |
| CartesianPick.ScanNodesClosest | charts-packages/ag-charts-community/src/chart/series/cartesian/cartesianSeries.ts:362-376 | the inner loop over one context advances the scan state exactly as the scan over the concatenated data |
| CartesianPick.PickNodeClosestDatum | charts-packages/ag-charts-community/src/chart/series/cartesian/cartesianSeries.ts:353-383 | no match iff no datum of any context is in range; otherwise the match is the closest in-range datum (first on ties), with distance `max(sqrt(d²) - markerSize, 0)`, never negative |
| CartesianPick.CategoryDirections | charts-packages/ag-charts-community/src/chart/series/cartesian/cartesianSeries.ts:393-395 | at most two directions; none exactly when neither axis is a category axis; an x category axis comes first |
| CartesianPick.PrimaryDirection | charts-packages/ag-charts-community/src/chart/series/cartesian/cartesianSeries.ts:400-401 | the x axis' direction if it is a category axis, else the y axis' if it is, else X |
| CartesianPick.AxisDistances | charts-packages/ag-charts-community/src/chart/series/cartesian/cartesianSeries.ts:404-423 | two distances, primary axis first |
| CartesianPick.Finites | charts-packages/ag-charts-community/src/chart/series/cartesian/cartesianSeries.ts:429 | one finite minimum per distance |
| CartesianPick.Infinities | charts-packages/ag-charts-community/src/chart/series/cartesian/cartesianSeries.ts:407 | a minimum vector of the given length |
| CartesianPick.CompareDistances | charts-packages/ag-charts-community/src/chart/series/cartesian/cartesianSeries.ts:421-432 | the early-exit comparison loop accepts exactly when the distances are lexicographically no greater than the minimum, and the minimum it leaves is the new distances when accepted, the old minimum otherwise |
| CartesianPick.LexFromPairs | charts-packages/ag-charts-community/src/chart/series/cartesian/cartesianSeries.ts:421-432 | a pair of distances is accepted against a finite minimum exactly when it is lexicographically no greater |
| CartesianPick.LexFromInfinities | charts-packages/ag-charts-community/src/chart/series/cartesian/cartesianSeries.ts:407 | every pair is accepted against the initial infinite minimum |
| CartesianPick.ScanMainAxis | charts-packages/ag-charts-community/src/chart/series/cartesian/cartesianSeries.ts:407-438 | the main-axis scan keeps a two-entry minimum and an index into the data |
| CartesianPick.ScanMainAxisIsBest | charts-packages/ag-charts-community/src/chart/series/cartesian/cartesianSeries.ts:407-438 | nothing found iff nothing is in range; otherwise the kept datum is in range, lexicographically (primary, then secondary distance) no farther than any in-range datum, and strictly nearer than every later one (later wins on exact ties) |
| CartesianPick.ScanMainAxisSnoc | charts-packages/ag-charts-community/src/chart/series/cartesian/cartesianSeries.ts:412-436 | one loop step: an in-range datum accepted by the comparison becomes the best, with its distances as the minimum |
| CartesianPick.ScanNodesMainAxis | charts-packages/ag-charts-community/src/chart/series/cartesian/cartesianSeries.ts:411-437 | the inner loop over one context advances the main-axis scan state as the scan over the concatenated data |
| CartesianPick.MainAxisOutcome | charts-packages/ag-charts-community/src/chart/series/cartesian/cartesianSeries.ts:440-446 | the final state gives no datum iff none is in range, else the main-axis best at its index |
| CartesianPick.PickNodeMainAxisFirst | charts-packages/ag-charts-community/src/chart/series/cartesian/cartesianSeries.ts:385-447 | no match when a category axis is required and there is none; otherwise no match iff nothing is in range, and a match is the main-axis best datum with distance `max(sqrt(dp² + ds²) - markerSize, 0)`, never negative |
| CartesianPick.PickNodeExactShape | charts-packages/ag-charts-community/src/chart/series/cartesian/cartesianSeries.ts:327-351 | the base match wins; otherwise no match iff no sub-group's pick group (or, when markers are pickable, marker group) is hit, and a match is from the first hit sub-group in pool order, at distance 0 |
| CartesianPick.FindLabelIsFirstMatch | charts-packages/ag-charts-community/src/chart/series/cartesian/cartesianSeries.ts:316 | the label search finds nothing iff no label has the item's record and item id, else the first such label |
| CartesianPick.FindLabel | charts-packages/ag-charts-community/src/chart/series/cartesian/cartesianSeries.ts:316 | a found label is one of the labels and matches the item; when the first label matches, it is the one found |
| CartesianPick.FindLabelConcat | charts-packages/ag-charts-community/src/chart/series/cartesian/cartesianSeries.ts:315-321 | searching two label lists in turn, stopping at the first hit, equals searching their concatenation |
| CartesianPick.FindHighlightLabel | charts-packages/ag-charts-community/src/chart/series/cartesian/cartesianSeries.ts:315-321 | the per-context loop with `break` returns the first matching label over all contexts in order |
| CartesianScene.ResolveOpts | charts-packages/ag-charts-community/src/chart/series/cartesian/cartesianSeries.ts:75-85 | each option takes its given value, else its default: pick group holds datum nodes, one path per series, no features, no sub-order offsets |
| CartesianScene.PathIds | charts-packages/ag-charts-community/src/chart/series/cartesian/cartesianSeries.ts:226-232 | one node per path |
| CartesianScene.NewPathsSnoc | charts-packages/ag-charts-community/src/chart/series/cartesian/cartesianSeries.ts:227-232 | the path loop's next iteration appends the path with the next index |
| CartesianScene.PathIdsSnoc | charts-packages/ag-charts-community/src/chart/series/cartesian/cartesianSeries.ts:231 | appending a path appends its node |
| CartesianScene.NewSubGroupShape | charts-packages/ag-charts-community/src/chart/series/cartesian/cartesianSeries.ts:189-244 | a new sub-group: `pathsPerSeries` paths; a marker group and marker selection iff markers are on; sub-orders `id`, `10000+id` (pick and marker groups), `20000+id` (labels), `offset[i]+id` (paths); main group holds the pick group; paths under the pick group iff it includes the main path; datum selection rooted at the pick group iff it includes datum nodes; names drawn in allocation order within one counter step |
| CartesianScene.NewSubGroupWellFormed | charts-packages/ag-charts-community/src/chart/series/cartesian/cartesianSeries.ts:189-244 | a new sub-group has the structure every pooled sub-group keeps |
| CartesianScene.NewSubGroup | charts-packages/ag-charts-community/src/chart/series/cartesian/cartesianSeries.ts:189-244 | a new sub-group carries the given id, its main and label groups are the nodes named by that id, it has one path per configured path, and a marker group exactly when markers are enabled |
| CartesianScene.RootNodeSeqElems | charts-packages/ag-charts-community/src/chart/series/cartesian/cartesianSeries.ts:217-231 | the nodes a sub-group attaches to the series root, as a list and as a set, agree |
| CartesianScene.RootNodesOwned | charts-packages/ag-charts-community/src/chart/series/cartesian/cartesianSeries.ts:190-215 | every node a sub-group attaches is named after that sub-group's counter value |
| CartesianScene.AttachedAppend | charts-packages/ag-charts-community/src/chart/series/cartesian/cartesianSeries.ts:220-231 | attaching one more sub-group adds exactly its root nodes |
| CartesianScene.AttachedConcat | charts-packages/ag-charts-community/src/chart/series/cartesian/cartesianSeries.ts:220-231 | the attached nodes of two pools together are the union of each |
| CartesianScene.AttachedOwned | charts-packages/ag-charts-community/src/chart/series/cartesian/cartesianSeries.ts:190-231 | every attached node belongs to a pooled sub-group |
| CartesianScene.AttachedSameNodes | charts-packages/ag-charts-community/src/chart/series/cartesian/cartesianSeries.ts:271-296 | pools whose sub-groups attach the same nodes position by position attach the same nodes |
| CartesianPool.Without | charts-packages/ag-charts-community/src/chart/series/cartesian/cartesianSeries.ts:176 | `removeChild` never lengthens the children |
| CartesianPool.WithoutSpec | charts-packages/ag-charts-community/src/chart/series/cartesian/cartesianSeries.ts:176 | `removeChild` removes exactly that node (ignoring a non-child) and keeps the children duplicate-free |
| CartesianPool.WithoutAll | charts-packages/ag-charts-community/src/chart/series/cartesian/cartesianSeries.ts:175-185 | removing several nodes never lengthens the children |
| CartesianPool.WithoutAllSpec | charts-packages/ag-charts-community/src/chart/series/cartesian/cartesianSeries.ts:175-185 | removing several nodes leaves exactly the other children, still duplicate-free |
| CartesianPool.WithoutAllSnoc | charts-packages/ag-charts-community/src/chart/series/cartesian/cartesianSeries.ts:175-185 | removing one more node is one more `removeChild` |
| CartesianPool.RootNodeSeqNoDups | charts-packages/ag-charts-community/src/chart/series/cartesian/cartesianSeries.ts:220-231 | a sub-group attaches no node twice |
| CartesianPool.EmptyPool | charts-packages/ag-charts-community/src/chart/series/cartesian/cartesianSeries.ts:64-65 | the initial empty pool with counter 0 satisfies the pool invariant |
| CartesianPool.FreshNodesDetached | charts-packages/ag-charts-community/src/chart/series/cartesian/cartesianSeries.ts:190-215 | nodes allocated at the current counter are not yet attached by any pooled sub-group |
| CartesianPool.PoolAppend | charts-packages/ag-charts-community/src/chart/series/cartesian/cartesianSeries.ts:188-245 | allocating and attaching one sub-group at the counter keeps the pool invariant, with the counter advanced one step |
| CartesianPool.IdsAppend | charts-packages/ag-charts-community/src/chart/series/cartesian/cartesianSeries.ts:190-212 | a sub-group allocated at the counter keeps pooled ids spaced a full step apart and below the counter |
| CartesianPool.IdsSpacedCut | charts-packages/ag-charts-community/src/chart/series/cartesian/cartesianSeries.ts:175 | cutting sub-groups out keeps the remaining ids spaced and below the counter |
| CartesianPool.NodesOwnedElsewhere | charts-packages/ag-charts-community/src/chart/series/cartesian/cartesianSeries.ts:190-231 | no other pooled sub-group attaches a sub-group's nodes |
| CartesianPool.AttachedSplit | charts-packages/ag-charts-community/src/chart/series/cartesian/cartesianSeries.ts:175 | the attached nodes split around one position of the pool |
| CartesianPool.RemoveDisjoint | charts-packages/ag-charts-community/src/chart/series/cartesian/cartesianSeries.ts:175-185 | removing a part disjoint from the rest leaves the rest |
| CartesianPool.AttachedRemoveAt | charts-packages/ag-charts-community/src/chart/series/cartesian/cartesianSeries.ts:175-185 | removing one sub-group's root nodes leaves exactly the nodes of the remaining sub-groups |
| CartesianPool.PoolRemoveAt | charts-packages/ag-charts-community/src/chart/series/cartesian/cartesianSeries.ts:175-185 | dropping a sub-group and detaching all its root nodes, the label group included, keeps the pool invariant |
| CartesianPool.ShrinkAsWrittenLeavesLabelGroup | charts-packages/ag-charts-community/src/chart/series/cartesian/cartesianSeries.ts:175-185 | with the code's detach list, the dropped sub-group's label group stays under the series root and the invariant is broken |
| CartesianPool.ShrinkAsWrittenExample | charts-packages/ag-charts-community/src/chart/series/cartesian/cartesianSeries.ts:175-185 | default options, one sub-group, zero contexts: as written the root keeps `LabelGroup(0)`; detaching it too empties the root |
| CartesianPool.NewSubGroups | charts-packages/ag-charts-community/src/chart/series/cartesian/cartesianSeries.ts:188-245 | `count` fresh sub-groups |
| CartesianPool.CounterAfterIsProduct | charts-packages/ag-charts-community/src/chart/series/cartesian/cartesianSeries.ts:190-212 | after `count` allocations the counter has advanced `count` steps |
| CartesianPool.NewSubGroupsAt | charts-packages/ag-charts-community/src/chart/series/cartesian/cartesianSeries.ts:188-245 | the i-th fresh sub-group is allocated at the counter reached after i allocations, between the start and the final counter |
| CartesianPool.GrowStep | charts-packages/ag-charts-community/src/chart/series/cartesian/cartesianSeries.ts:188-245 | one growth iteration appends the next fresh sub-group and its root nodes, and advances the counter one step |
| CartesianPool.GrowKeepsPoolStep | charts-packages/ag-charts-community/src/chart/series/cartesian/cartesianSeries.ts:188-245 | one growth iteration keeps the pool invariant |
| CartesianPool.GrowKeepsPool | charts-packages/ag-charts-community/src/chart/series/cartesian/cartesianSeries.ts:188-245 | the whole growth loop keeps the pool invariant |
| CartesianPool.GrownPool | charts-packages/ag-charts-community/src/chart/series/cartesian/cartesianSeries.ts:188-245 | a grown pool keeps the invariant and the old root children are a prefix of the new |
| CartesianPool.PoolInvariantEq | charts-packages/ag-charts-community/src/chart/series/cartesian/cartesianSeries.ts:163-246 | the pool invariant carries over to equal arguments |
| CartesianPool.Reconciled | charts-packages/ag-charts-community/src/chart/series/cartesian/cartesianSeries.ts:170-245 | after reconciliation there is one sub-group per context |
| CartesianPool.ReconciledCases | charts-packages/ag-charts-community/src/chart/series/cartesian/cartesianSeries.ts:170-245 | equal counts: unchanged; fewer contexts: the prefix; more: the pool plus fresh sub-groups. The counter moves only when growing |
| CartesianPool.ReconciledShape | charts-packages/ag-charts-community/src/chart/series/cartesian/cartesianSeries.ts:170-245 | surviving sub-groups keep their position; each appended one is fresh, well formed and named from a counter value in the newly allocated range |
| CartesianPool.CounterIncreases | charts-packages/ag-charts-community/src/chart/series/cartesian/cartesianSeries.ts:190-212 | the counter never decreases, and rises by 3 per new sub-group (4 with markers) |
| CartesianPool.RebindAll | charts-packages/ag-charts-community/src/chart/series/cartesian/cartesianSeries.ts:149-160 | the selection pass keeps the pool's length |
| CartesianPool.SelectionPassInPoolOrder | charts-packages/ag-charts-community/src/chart/series/cartesian/cartesianSeries.ts:149-160 | every selection hook call carries an index of a processed sub-group, and the indices never go down |
| CartesianPool.RebindKeepsPool | charts-packages/ag-charts-community/src/chart/series/cartesian/cartesianSeries.ts:149-160 | re-binding selections keeps the pool invariant |
| CartesianPool.ItemEnabled | charts-packages/ag-charts-community/src/chart/series/cartesian/cartesianSeries.ts:275 | an item is disabled only by an explicit `false` entry; an entry present decides |
| CartesianPool.Styled | charts-packages/ag-charts-community/src/chart/series/cartesian/cartesianSeries.ts:272-284 | a sub-group takes its item's opacity and is visible iff the series is and its item is enabled; its marker group and paths copy its opacity and visibility; the marker group is never below the main group |
| CartesianPool.StyledUpTo | charts-packages/ag-charts-community/src/chart/series/cartesian/cartesianSeries.ts:271-296 | part-way through the node pass the pool keeps its length |
| CartesianPool.StyledUpToAt | charts-packages/ag-charts-community/src/chart/series/cartesian/cartesianSeries.ts:271-296 | part-way through, sub-groups before the position are styled with their own context, the rest untouched |
| CartesianPool.StyledUpToStep | charts-packages/ag-charts-community/src/chart/series/cartesian/cartesianSeries.ts:271-296 | each iteration styles exactly the next untouched sub-group |
| CartesianPool.StyleAll | charts-packages/ag-charts-community/src/chart/series/cartesian/cartesianSeries.ts:271-296 | the node pass keeps the pool's length |
| CartesianPool.StyleAllAt | charts-packages/ag-charts-community/src/chart/series/cartesian/cartesianSeries.ts:271-296 | after the node pass each sub-group is styled with its own context |
| CartesianPool.StyledKeepsNodes | charts-packages/ag-charts-community/src/chart/series/cartesian/cartesianSeries.ts:272-284 | styling changes attributes only: structure, name and attached nodes are kept |
| CartesianPool.StyleKeepsPool | charts-packages/ag-charts-community/src/chart/series/cartesian/cartesianSeries.ts:271-296 | the node pass keeps the pool invariant |
| CartesianPool.NodePassStep | charts-packages/ag-charts-community/src/chart/series/cartesian/cartesianSeries.ts:271-296 | one more sub-group appends exactly its node hook calls |
| CartesianPool.NodePassUpdateAfter | charts-packages/ag-charts-community/src/chart/series/cartesian/cartesianSeries.ts:271-296 | the hook calls for the first sub-groups do not depend on later ones |
| CartesianPool.NodePassSkipsHidden | charts-packages/ag-charts-community/src/chart/series/cartesian/cartesianSeries.ts:286-295 | every node hook call of the pass is for a visible sub-group |
| CartesianPool.HiddenSeriesNoNodeCalls | charts-packages/ag-charts-community/src/chart/series/cartesian/cartesianSeries.ts:258-296 | when the series as a whole is hidden, no pooled sub-group gets a node hook call |
| CartesianPool.SeriesHighlighted | charts-packages/ag-charts-community/src/chart/series/cartesian/cartesianSeries.ts:123-124 | `true` iff the highlighted datum is this series'; undefined iff nothing is highlighted or it has no series |
| CartesianPool.HighlightItem | charts-packages/ag-charts-community/src/chart/series/cartesian/cartesianSeries.ts:307-308 | the highlighted datum is the item exactly when this series is highlighted and the datum has a source record |
| CartesianPool.HighlightLabelIsFirstMatch | charts-packages/ag-charts-community/src/chart/series/cartesian/cartesianSeries.ts:311-322 | no label when labels are off or there is no item; otherwise none iff no label matches, else the first matching label over all contexts in order |
| CartesianPool.HighlightLabelItem | charts-packages/ag-charts-community/src/chart/series/cartesian/cartesianSeries.ts:311-322 | a label is found only when labels are on and there is a highlighted item; the label matches that item and comes from the labels of the context data |
| CartesianPool.AnySeriesItemEnabledCases | charts-packages/ag-charts-community/src/chart/series/cartesian/cartesianSeries.ts:126-127 | with no per-item entries the series' visibility decides; with entries visibility is irrelevant; one `true` entry suffices; all `false` means none |
| CartesianPool.AnySeriesItemEnabled | charts-packages/ag-charts-community/src/chart/series/cartesian/cartesianSeries.ts:126-127 | with no per-item entries the series' visibility decides; when the series is hidden, some entry must be `true` |
| CartesianSeries.OverallVisible | charts-packages/ag-charts-community/src/chart/series/cartesian/cartesianSeries.ts:258-260 | the series is drawn exactly when it is visible, some item is enabled and there is at least one context; never without context data |
| CartesianPool.DetachedNodes | charts-packages/ag-charts-community/src/chart/series/cartesian/cartesianSeries.ts:175-185 | the nodes a dropped sub-group removes from the series root are exactly its root-level nodes, label group included (corrected shrink, see Findings) |
| CartesianPool.DetachedNodesAsWritten | charts-packages/ag-charts-community/src/chart/series/cartesian/cartesianSeries.ts:175-185 | the nodes the source removes, together with the label group, make up all root-level nodes of the dropped sub-group: the label group is the one left attached |
| CartesianSeries.Toggled | charts-packages/ag-charts-community/src/chart/series/cartesian/cartesianSeries.ts:449-456 | with per-item entries the item's entry becomes the given flag, a refresh is requested and visibility kept; otherwise the entries are kept and the base toggle decides visibility, never cancelling a pending refresh; context data unchanged |
| CartesianSeries.RemoveChildren | charts-packages/ag-charts-community/src/chart/series/cartesian/cartesianSeries.ts:175-185 | the removal loop removes exactly the given nodes from the root's children |
| CartesianSeries.CreatePaths | charts-packages/ag-charts-community/src/chart/series/cartesian/cartesianSeries.ts:226-232 | the path loop builds the new sub-group's paths, parented under the pick group iff it includes the main path, else under the root |
| CartesianSeries.CreateSubGroup | charts-packages/ag-charts-community/src/chart/series/cartesian/cartesianSeries.ts:189-244 | one allocation builds the specified fresh sub-group, attaches its root nodes in order, and advances the counter one step |
| CartesianSeries.GrowPool | charts-packages/ag-charts-community/src/chart/series/cartesian/cartesianSeries.ts:188-245 | the growth loop appends the fresh sub-groups, advances the counter by their steps, only appends root children, and keeps the pool invariant |
| CartesianSeries.ShrinkPool | charts-packages/ag-charts-community/src/chart/series/cartesian/cartesianSeries.ts:174-186 | shrinking leaves the prefix of the pool and keeps the pool invariant; the dropped label groups are detached too (corrected shrink, see Findings) |
| CartesianSeries.SpliceNext | charts-packages/ag-charts-community/src/chart/series/cartesian/cartesianSeries.ts:175 | removing the next element of the spliced tail leaves the shorter tail |
| CartesianSeries.ReconcilePool | charts-packages/ag-charts-community/src/chart/series/cartesian/cartesianSeries.ts:163-246 | the pool becomes the reconciled pool and the counter the reconciled counter; the invariant is kept; the root is untouched when counts match and only grows when growing (corrected shrink, see Findings) |
| CartesianSeries.RebindSubGroup | charts-packages/ag-charts-community/src/chart/series/cartesian/cartesianSeries.ts:150-159 | one sub-group's selections are re-bound, and its path, datum, label and (if any) marker hooks are called in that order |
| CartesianSeries.RebindPool | charts-packages/ag-charts-community/src/chart/series/cartesian/cartesianSeries.ts:149-160 | the selection pass over the whole pool, in pool order |
| CartesianSeries.StyleSubGroup | charts-packages/ag-charts-community/src/chart/series/cartesian/cartesianSeries.ts:272-284 | one sub-group is styled as specified |
| CartesianSeries.NodeHooks | charts-packages/ag-charts-community/src/chart/series/cartesian/cartesianSeries.ts:286-295 | a hidden sub-group gets no hook call; a visible one gets path, datum and label node hooks, then marker nodes when markers are on |
| CartesianSeries.StylePool | charts-packages/ag-charts-community/src/chart/series/cartesian/cartesianSeries.ts:271-296 | the in-place loop leaves the fully styled pool and the node hook calls of the whole pass |
| CartesianSeries.CartesianSeries.constructor | charts-packages/ag-charts-community/src/chart/series/cartesian/cartesianSeries.ts:54-85 | resolved options, empty pool, counter 0, no context data and a pending refresh, no per-item entries |
| CartesianSeries.CartesianSeries.ContextNodeData | charts-packages/ag-charts-community/src/chart/series/cartesian/cartesianSeries.ts:55-57 | the getter's copy is absent only while the pool is empty, and otherwise has one context per sub-group |
| CartesianSeries.CartesianSeries.UpdateSeriesGroups | charts-packages/ag-charts-community/src/chart/series/cartesian/cartesianSeries.ts:163-246 | the pool and counter become the reconciled ones, with one sub-group per context and the invariant kept; data, display and hook log unchanged (corrected shrink, see Findings) |
| CartesianSeries.CartesianSeries.RebindSubGroups | charts-packages/ag-charts-community/src/chart/series/cartesian/cartesianSeries.ts:149-160 | every sub-group is re-bound to its context, the selection hooks are logged in pool order, and everything else is unchanged |
| CartesianSeries.CartesianSeries.UpdateHighlightSelection | charts-packages/ag-charts-community/src/chart/series/cartesian/cartesianSeries.ts:299-325 | the highlight selection is re-bound to the item (via marker or datum hooks) and the label selection to its first matching label; the pool is untouched |
| CartesianSeries.CartesianSeries.UpdateSelections | charts-packages/ag-charts-community/src/chart/series/cartesian/cartesianSeries.ts:133-161 | the highlight selections are always re-bound to the highlighted datum (marker or datum hook by marker mode) and to its label in the old context data; with no item enabled, or nothing stale or dirty, nothing else changes; when stale, node data are recreated, the pool reconciled and re-bound; when only dirty, the pool is re-bound to the old data (corrected shrink, see Findings) |
| CartesianSeries.CartesianSeries.UpdateNodes | charts-packages/ag-charts-community/src/chart/series/cartesian/cartesianSeries.ts:248-297 | the series containers are visible iff the series is visible, has contexts and an enabled item; the highlight group also needs this series highlighted; the pool is styled; highlight node hooks are called, then per visible sub-group its node hooks |
| CartesianSeries.CartesianSeries.Update | charts-packages/ag-charts-community/src/chart/series/cartesian/cartesianSeries.ts:122-131 | visibility of containers follows data, enablement and highlight; the highlight selections are re-bound to the highlighted datum and its label in the old context data; when idle (no item enabled, or nothing stale or dirty) the data, counter and root are unchanged, the pool is only restyled and the log gains the highlight, highlight-node and node passes; when stale the node data are recreated, the pool reconciled, re-bound and restyled and the log gains the creation and the selection pass in between; when only dirty the old pool is re-bound to the old data and restyled (corrected shrink, see Findings) |
| CartesianSeries.CartesianSeries.ToggleSeriesItem | charts-packages/ag-charts-community/src/chart/series/cartesian/cartesianSeries.ts:449-456 | with per-item entries the item's entry is set and a refresh requested, visibility unchanged; otherwise the base series' toggle is logged and its effect on visibility and the refresh flag applied, a pending refresh never cancelled; context data, pool and root are unchanged |
| Seqs.NoDupsAppend | charts-packages/ag-charts-community/src/chart/series/cartesian/cartesianSeries.ts:220-231 | appending disjoint duplicate-free children stays duplicate-free |
| XlsxText.DigitChar | enterprise-modules/excel-export/src/excelExport/excelXlsxFactory.ts:191 | a digit character of the given value |
| XlsxText.Digits | enterprise-modules/excel-export/src/excelExport/excelXlsxFactory.ts:191 | a number renders as a non-empty digit string without a leading zero |
| XlsxText.ParseDecimal | enterprise-modules/excel-export/src/excelExport/excelXlsxFactory.ts:190 | a number is read exactly when the text is a non-empty digit string |
| XlsxText.ParseDigits | enterprise-modules/excel-export/src/excelExport/excelXlsxFactory.ts:190-191 | reading back a rendered number gives the number |
| XlsxText.DigitsInjective | enterprise-modules/excel-export/src/excelExport/excelXlsxFactory.ts:191 | different numbers render differently |
| XlsxText.Suffix | enterprise-modules/excel-export/src/excelExport/excelXlsxFactory.ts:184-192 | only the first attempt has no suffix |
| XlsxText.SuffixStep | enterprise-modules/excel-export/src/excelExport/excelXlsxFactory.ts:187-192 | the loop's step: no suffix becomes `_1`; `_k` parses back to k and becomes `_<k+1>` |
| XlsxText.CandidateInjective | enterprise-modules/excel-export/src/excelExport/excelXlsxFactory.ts:186-192 | different attempts try different names |
| XlsxText.CandidatesCard | enterprise-modules/excel-export/src/excelExport/excelXlsxFactory.ts:186-192 | the first k attempts try k distinct names |
| XlsxText.ElemsCard | enterprise-modules/excel-export/src/excelExport/excelXlsxFactory.ts:186 | a list has at most as many distinct elements as entries |
| XlsxText.SubsetCard | enterprise-modules/excel-export/src/excelExport/excelXlsxFactory.ts:186 | a subset is no larger |
| XlsxText.CandidatesBound | enterprise-modules/excel-export/src/excelExport/excelXlsxFactory.ts:186-193 | if the first k attempted names are all taken, at least k names are registered, so the search ends |
| XlsxRels.RelIdInjective | enterprise-modules/excel-export/src/excelExport/excelXlsxFactory.ts:259-280 | different numbers give different `rId` ids |
| XlsxRels.RelIdReadsBack | enterprise-modules/excel-export/src/excelExport/excelXlsxFactory.ts:261 | an id is `rId` followed by digits that read back as the number |
| XlsxRels.SheetTargetReadsBack | enterprise-modules/excel-export/src/excelExport/excelXlsxFactory.ts:263 | a target is `worksheets/sheet`, digits that read back as the number, then `.xml` |
| XlsxRels.PackageRels | enterprise-modules/excel-export/src/excelExport/excelXlsxFactory.ts:241-253 | two relationships with distinct ids, to the workbook and to the core properties |
| XlsxRels.WorkbookRels | enterprise-modules/excel-export/src/excelExport/excelXlsxFactory.ts:259-283 | `sheetLen + 3` entries with ids `rId1..`, all distinct: one worksheet each at `worksheets/sheet<i>.xml`, then theme, styles, shared strings |
| XlsxImages.ExcelImage.constructor | enterprise-modules/excel-export/src/excelExport/excelXlsxFactory.ts:78-138 | an image with its id, format, size and position and no totals yet |
| XlsxImages.IndexOf | enterprise-modules/excel-export/src/excelExport/excelXlsxFactory.ts:136 | -1 iff absent, else the first index holding the element |
| XlsxImages.DefaultPosition | enterprise-modules/excel-export/src/excelExport/excelXlsxFactory.ts:131-138 | a position with a truthy row and column is kept; otherwise row and column become the cell's row and the 1-based column index; other fields are kept |
| XlsxImages.SumSnoc | enterprise-modules/excel-export/src/excelExport/excelXlsxFactory.ts:93 | the running total grows by each counted size |
| XlsxImages.FirstOverFromSpec | enterprise-modules/excel-export/src/excelExport/excelXlsxFactory.ts:84-94 | the scan from a point stops at the first size that takes the running total over the limit, or finds none |
| XlsxImages.ScanStep | enterprise-modules/excel-export/src/excelExport/excelXlsxFactory.ts:87-93 | one iteration either cuts here or adds the size and goes on |
| XlsxImages.FirstOver | enterprise-modules/excel-export/src/excelExport/excelXlsxFactory.ts:84-94 | the cut is the first index whose running total exceeds the limit; no cut means no running total does |
| XlsxImages.CutRemainder | enterprise-modules/excel-export/src/excelExport/excelXlsxFactory.ts:88-90 | the width left at a cut is below the cut element's size, and non-negative for a non-negative limit |
| XlsxImages.SliceIndex | enterprise-modules/excel-export/src/excelExport/excelXlsxFactory.ts:83 | `slice` index resolution: clamped to the length, negatives count from the end |
| XlsxImages.JsSlice | enterprise-modules/excel-export/src/excelExport/excelXlsxFactory.ts:83 | `slice(start, end)` is the ordinary subsequence for in-range bounds and never longer than the span |
| XlsxImages.SpanWidths | enterprise-modules/excel-export/src/excelExport/excelXlsxFactory.ts:83-86 | at most `colSpan` column widths |
| XlsxImages.ClipWidth | enterprise-modules/excel-export/src/excelExport/excelXlsxFactory.ts:78-99 | width clipping touches only width, total width and column span |
| XlsxImages.ClipWidthKeeps | enterprise-modules/excel-export/src/excelExport/excelXlsxFactory.ts:78-99 | no width: unchanged; no span: total width = width; span with no cut: unchanged |
| XlsxImages.ClipWidthCut | enterprise-modules/excel-export/src/excelExport/excelXlsxFactory.ts:84-92 | at a cut: total width = old width; span = first column over the width (never more than before); new width = old width minus the covered columns, below the cut column's width |
| XlsxImages.ScanColumns | enterprise-modules/excel-export/src/excelExport/excelXlsxFactory.ts:84-94 | the loop finds the first column over the width and the width covered before it |
| XlsxImages.SetExcelImageTotalWidth | enterprise-modules/excel-export/src/excelExport/excelXlsxFactory.ts:78-99 | the image is left as width clipping specifies |
| XlsxImages.SpanHeights | enterprise-modules/excel-export/src/excelExport/excelXlsxFactory.ts:108-110 | one height per spanned row |
| XlsxImages.SpanHeightsAt | enterprise-modules/excel-export/src/excelExport/excelXlsxFactory.ts:110 | the k-th spanned height is `floor(pt * 1.33333)` of row `row + k`, 20 pt when the row has none |
| XlsxImages.ClipHeight | enterprise-modules/excel-export/src/excelExport/excelXlsxFactory.ts:101-125 | height clipping touches only height, total height and row span |
| XlsxImages.ClipHeightKeeps | enterprise-modules/excel-export/src/excelExport/excelXlsxFactory.ts:101-125 | no height: unchanged; no span: total height = height; span with no cut: unchanged |
| XlsxImages.ClipHeightCut | enterprise-modules/excel-export/src/excelExport/excelXlsxFactory.ts:106-118 | at a cut: total height = old height; span = first row over the height; new height = old height minus the covered rows, below the cut row's height |
| XlsxImages.ScanRows | enterprise-modules/excel-export/src/excelExport/excelXlsxFactory.ts:106-119 | the loop finds the first row over the height and the height covered before it |
| XlsxImages.SetExcelImageTotalHeight | enterprise-modules/excel-export/src/excelExport/excelXlsxFactory.ts:101-125 | the image is left as height clipping specifies |
| XlsxImages.AnchorImage | enterprise-modules/excel-export/src/excelExport/excelXlsxFactory.ts:130-138 | the image's state becomes its default position: a missing or incomplete anchor is set to the row and the column's 1-based index, a complete one is kept |
| XlsxImages.RowPixels | enterprise-modules/excel-export/src/excelExport/excelXlsxFactory.ts:110 | a missing row height (0) counts as 20 points, 26 pixels; otherwise the pixels are the floor of the points times 1.33333 |
| XlsxImages.Scaled | enterprise-modules/excel-export/src/excelExport/excelXlsxFactory.ts:110 | the result is the floor of the height times 1.33333 |
| XlsxFactory.DenseInsert | enterprise-modules/excel-export/src/excelExport/excelXlsxFactory.ts:204 | a new key at index `size` keeps a map's indices exactly `0..size-1` |
| XlsxFactory.Indices | enterprise-modules/excel-export/src/excelExport/excelXlsxFactory.ts:43 | an id map's indices, key for key |
| XlsxFactory.IndicesInsert | enterprise-modules/excel-export/src/excelExport/excelXlsxFactory.ts:155 | a new workbook image id at index `size` keeps workbook indices dense |
| XlsxFactory.FindSheet | enterprise-modules/excel-export/src/excelExport/excelXlsxFactory.ts:144 | `_.find` by sheet: -1 iff no entry is for the sheet, else the first such entry |
| XlsxFactory.AddToSheetEntry | enterprise-modules/excel-export/src/excelExport/excelXlsxFactory.ts:143-152 | adding an image to a known id keeps one non-empty list per sheet, every image carrying that id |
| XlsxFactory.AddToSheetAppends | enterprise-modules/excel-export/src/excelExport/excelXlsxFactory.ts:143-152 | after adding, the sheet has an entry whose image list ends with the image; a new entry is appended only when the sheet had none; other sheets' entries are unchanged |
| XlsxFactory.AddSheetImageId | enterprise-modules/excel-export/src/excelExport/excelXlsxFactory.ts:174-179 | the id map gains exactly the image's id; a known id keeps the map unchanged; a new id gets the image's type and the next index (the map's size) |
| XlsxFactory.AddSheetImage | enterprise-modules/excel-export/src/excelExport/excelXlsxFactory.ts:174-179 | adding an image to a sheet keeps its per-sheet ids dense over its images, and known ids keep their index |
| XlsxFactory.FirstSheetImage | enterprise-modules/excel-export/src/excelExport/excelXlsxFactory.ts:171-173 | a sheet's first image gets per-sheet index 0 |
| XlsxFactory.AddToSheets | enterprise-modules/excel-export/src/excelExport/excelXlsxFactory.ts:161-180 | every sheet's registry stays consistent, and a new sheet's id map is the one image at 0 |
| XlsxFactory.RegisterImage | enterprise-modules/excel-export/src/excelExport/excelXlsxFactory.ts:143-156 | registering a known or new image keeps the image registry consistent, a new id taking the next workbook index |
| XlsxFactory.ExcelXlsxFactory.RegisterWorkbookImage | enterprise-modules/excel-export/src/excelExport/excelXlsxFactory.ts:143-156 | a new id gets a one-image entry for the sheet and the next workbook index; a known id has the image added to the sheet's entry and keeps its index; the registry stays consistent and the per-sheet maps are unchanged |
| XlsxFactory.Worksheet.constructor | enterprise-modules/excel-export/src/excelExport/excelXlsxFactory.ts:182-183 | a worksheet with the given name |
| XlsxFactory.ExcelXlsxFactory.constructor | enterprise-modules/excel-export/src/excelExport/excelXlsxFactory.ts:35-47 | the registry starts empty and consistent |
| XlsxFactory.ExcelXlsxFactory.ResetFactory | enterprise-modules/excel-export/src/excelExport/excelXlsxFactory.ts:208-219 | every map and the sheet names are emptied and the mode is single-sheet |
| XlsxFactory.ExcelXlsxFactory.AddSheetName | enterprise-modules/excel-export/src/excelExport/excelXlsxFactory.ts:182-197 | an unused name is kept; else the smallest suffix `_k` whose name is unused is appended; the result is new and appended to the sheet names; nothing else changes |
| XlsxFactory.ExcelXlsxFactory.GetStringPosition | enterprise-modules/excel-export/src/excelExport/excelXlsxFactory.ts:199-206 | a known string returns its index unchanged; a new one is added at index `size`, keeping the indices dense |
| XlsxFactory.ExcelXlsxFactory.BuildSheetImageMap | enterprise-modules/excel-export/src/excelExport/excelXlsxFactory.ts:161-180 | the image is appended to its sheet's list; a sheet's first image gets index 0, a new id the map's size, and a known id keeps its index |
| XlsxFactory.ExcelXlsxFactory.BuildImageMap | enterprise-modules/excel-export/src/excelExport/excelXlsxFactory.ts:127-159 | the image is anchored, then clipped in width and height; on the current sheet (the count of names) it joins its id's entry, a new id taking the next workbook index; the per-sheet maps are updated; the registry stays consistent |

## Left out

- Pixel to point conversion (`getHeightFromProperty`, excelXlsxFactory.ts:62-76) and its float rounding are not modelled. A row's height in points is a parameter (0 meaning none), and `floor(h * 1.33333)` is computed exactly on integers.
- Numbers are mathematical integers and reals. There is no 64-bit float rounding, and NaN is a separate value only where the range check reads it.
- `ParseDecimal` handles digit strings only. That is all the suffix loop ever parses.
- Column lookup (`indexOf(col)`) compares columns by value. The source compares object identity.
- Only the image fields the exporter reads and writes are modelled (id, type, size, position, totals).
- XML rendering (`createXmlPart` and the part templates) is not modelled. The relationship lists are modelled as records before rendering.
- `createDrawingRel`, `createWorksheetDrawingRel`, `createDrawing`, `createWorkbook`, `createStylesheet`, `createSharedStrings`, `createCore`, `createContentTypes` and `createTheme` are not modelled. They only pass factory state to templates.
- `createExcel` and `registerStyles` are not modelled: the style registry is not part of this model.
- `factoryMode` is only set, by the reset.
- Scene-graph internals are abstract. Groups and paths are records, and `appendChild`/`removeChild` act on the series root's child list. `transformPoint` is done by the caller (the picks take the local hit point), and `Math.sqrt` is a parameter.
- The subclass hooks are abstract. Selection-returning hooks are function parameters; every other hook call is recorded in a call log and its effect is left out.
- `getOpacity` and the highlighted datum come from the base series and chart; they are parameters.
- The base series' own `pickNodeExactShape` is not modelled. The model takes it as an optional match.
- CartesianSeries.CartesianSeries.ToggleSeriesItem: the base series' `toggleSeriesItem` is not part of this model. It is logged as a call, and its effect on visibility and the refresh flag is an input (`BaseToggle`), taken never to cancel a pending refresh or to touch the per-item entries.
- CartesianPick.PickNodeClosestDatum: takes the context data as a list, so the error path is not modelled: before the first refresh the data are undefined, and the loop at cartesianSeries.ts:361 would throw a TypeError.
- CartesianPick.PickNodeMainAxisFirst: takes the context data as a list, so the error path is not modelled: before the first refresh the data are undefined, and the loop at cartesianSeries.ts:410 would throw a TypeError.
- CartesianPool.HighlightLabelItem: reads absent context data as an empty list, whereas the source's loop at cartesianSeries.ts:315 would throw a TypeError on undefined context data.
- The marker subclass (`CartesianSeriesMarker`, cartesianSeries.ts:564-572) is not modelled.
- A datum without a point is read with NaN coordinates and counted as out of range. The model assumes no axis range contains NaN; the axes' own range test is not modelled.
- CartesianPool.Styled: states only that the marker group's z-index is not below the main group's. The exact rule (lifted by one when the main group sits below the series layer) is in its body.

## Findings

| source | as written | input that shows it | evidently intended | confidence | as-written member | corrected member |
|---|---|---|---|---|---|---|
| charts-packages/ag-charts-community/src/chart/series/cartesian/cartesianSeries.ts:175-185 | shrinking the pool removes the main group, the marker group and root-level paths, but not the label group that allocation appended to the series root (line 221) | default options, one context, then zero contexts: the root keeps the label group of the dropped sub-group | a dropped sub-group's label group is removed from the series root too, so the root holds exactly the nodes of the remaining sub-groups | not executed | CartesianPool.ShrinkAsWrittenLeavesLabelGroup | CartesianPool.PoolRemoveAt |
