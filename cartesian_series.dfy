/**
 * The Cartesian series: its sub-group pool, the per-frame update with its
 * staleness and visibility gating, the highlight update and item toggling.
 */
module CartesianSeries {
  import opened Options
  import opened Seqs
  import opened CartesianData
  import opened CartesianScene
  import opened CartesianPick
  import opened CartesianPool

  /** What the chart and the base series supply to one update. */
  datatype Env = Env(highlighted: Option<HighlightedDatum>, labelEnabled: bool, getOpacity: OpacityQuery -> real)

  /**
   * What the base series' own `toggleSeriesItem` leaves behind: the series'
   * visibility, and whether it requested a node-data refresh.
   */
  datatype BaseToggle = BaseToggle(visible: bool, refresh: bool)

  /** The item the highlight update shows for this series, if it holds the highlighted datum. */
  function HighlightedItem(env: Env): Option<NodeDatum>
  {
    HighlightItem(SeriesHighlighted(env.highlighted), env.highlighted)
  }

  /** The hooks the highlight selection update calls, given the context data it reads the label from. */
  function HighlightPhaseCalls(markers: bool, env: Env, contexts: Option<seq<Context>>): seq<HookCall>
  {
    HighlightSelectionCalls(markers, HighlightedItem(env), HighlightLabelItem(env.labelEnabled, HighlightedItem(env), contexts))
  }

  /**
   * The series state `(visible, contextNodeData, nodeDataRefresh,
   * seriesItemEnabled)` after `toggleSeriesItem`: with per-item entries the
   * item's entry is set and a refresh requested, and the visibility is kept;
   * without entries the base toggle's effect applies and the (empty) entry
   * map is kept. The context data never change, and a pending refresh is
   * never cancelled.
   */
  function Toggled(d: (bool, Option<seq<Context>>, bool, map<string, bool>), itemId: string, enabled: bool, base: BaseToggle)
    : (r: (bool, Option<seq<Context>>, bool, map<string, bool>))
    ensures r.1 == d.1 && (d.2 ==> r.2)
    ensures |d.3| > 0 ==> r.3 == d.3[itemId := enabled] && r.3[itemId] == enabled && r.2 && r.0 == d.0
    ensures |d.3| == 0 ==> r.3 == d.3 && r.0 == base.visible && (r.2 <==> d.2 || base.refresh)
  {
    if |d.3| > 0 then (d.0, d.1, true, d.3[itemId := enabled])
    else (base.visible, d.1, d.2 || base.refresh, d.3)
  }

  /** `visible && contexts non-empty && anySeriesItemEnabled`; absent context data counts as empty. */
  function OverallVisible(visible: bool, contexts: Option<seq<Context>>, anySeriesItemEnabled: bool): (r: bool)
    ensures r <==> visible && anySeriesItemEnabled && 0 < |contexts.GetOr([])|
    ensures contexts.None? ==> !r
  {
    visible && contexts.Some? && |contexts.value| > 0 && anySeriesItemEnabled
  }

  lemma PrefixAppend<T>(a: seq<T>, b: seq<T>, c: seq<T>)
    requires a <= b
    ensures a <= b + c
  {
    assert (b + c)[..|a|] == b[..|a|];
  }

  /** Removes `nodes` from a container's children one at a time, in order. */
  method RemoveChildren(children: seq<NodeId>, nodes: seq<NodeId>) returns (r: seq<NodeId>)
    ensures r == WithoutAll(children, nodes)
    ensures Elems(r) == Elems(children) - Elems(nodes)
  {
    r := children;
    var k := 0;
    while k < |nodes|
      invariant 0 <= k <= |nodes|
      invariant r == WithoutAll(children, nodes[..k])
    {
      WithoutAllSnoc(children, nodes[..k], nodes[k]);
      assert nodes[..k + 1] == nodes[..k] + [nodes[k]];
      r := Without(r, nodes[k]);
      k := k + 1;
    }
    assert nodes[..k] == nodes;
    WithoutAllSpec(children, nodes);
  }

  /**
   * Creates the paths of sub-group `id`; each goes under the pick group
   * when the main path is pickable, and under the series root otherwise.
   */
  method CreatePaths(opts: SeriesOpts, z: int, id: nat) returns (paths: seq<Path>, pickChildren: seq<NodeId>, rootPaths: seq<NodeId>)
    ensures paths == NewPaths(opts, z, id, opts.pathsPerSeries)
    ensures pickChildren == if MainPath in opts.pickGroupIncludes then PathIds(paths) else []
    ensures rootPaths == if MainPath in opts.pickGroupIncludes then [] else PathIds(paths)
  {
    paths, pickChildren, rootPaths := [], [], [];
    var index := 0;
    while index < opts.pathsPerSeries
      invariant 0 <= index <= opts.pathsPerSeries
      invariant paths == NewPaths(opts, z, id, index)
      invariant pickChildren == if MainPath in opts.pickGroupIncludes then PathIds(paths) else []
      invariant rootPaths == if MainPath in opts.pickGroupIncludes then [] else PathIds(paths)
    {
      var path := Path(PathNode(id, index), z, PathSubOrderOffset(opts, index) + id, true, 1.0);
      NewPathsSnoc(opts, z, id, index);
      PathIdsSnoc(paths, path);
      paths := paths + [path];
      if MainPath in opts.pickGroupIncludes {
        pickChildren := pickChildren + [path.node];
      } else {
        rootPaths := rootPaths + [path.node];
      }
      index := index + 1;
    }
  }

  /**
   * Creates sub-group `id` and the root's new children in append order;
   * `next` is the allocation counter after its groups took their names.
   */
  method CreateSubGroup(opts: SeriesOpts, z: int, id: nat) returns (sg: SubGroup, attached: seq<NodeId>, next: nat)
    ensures sg == NewSubGroup(opts, z, id)
    ensures attached == RootNodeSeq(sg, MainPath in opts.pickGroupIncludes)
    ensures next == id + SubGroupIdStep(opts)
  {
    next := id + 1;
    var group := Group(MainGroup(id), id, true, z, id, [], true, 1.0);
    var markerGroup: Option<Group> := None;
    if MarkersEnabled(opts) {
      markerGroup := Some(Group(MarkerGroup(id), next, true, z, MarkerSubOrderBase + id, [], true, 1.0));
      next := next + 1;
    }
    var labelGroup := Group(LabelGroup(id), next, true, z, LabelSubOrderBase + id, [], true, 1.0);
    next := next + 1;
    var pickGroup := Group(PickGroup(id), next, false, z, MarkerSubOrderBase + id, [], true, 1.0);
    next := next + 1;

    attached := [group.node, labelGroup.node];
    if markerGroup.Some? {
      attached := attached + [markerGroup.value.node];
    }
    var paths, pickChildren, rootPaths := CreatePaths(opts, z, id);
    pickGroup := pickGroup.(children := pickGroup.children + pickChildren);
    attached := attached + rootPaths;
    group := group.(children := group.children + [pickGroup.node]);

    var datumParent := if DatumNodes in opts.pickGroupIncludes then pickGroup.node else group.node;
    sg := SubGroup(id, paths, group, pickGroup, labelGroup, markerGroup,
                   Selection(datumParent, 0), Selection(labelGroup.node, 0),
                   if markerGroup.Some? then Some(Selection(markerGroup.value.node, 0)) else None);
  }

  /**
   * The allocation loop of `updateSeriesGroups`: creates fresh sub-groups
   * until `count` more are pooled, appending each one's root nodes to `children`.
   */
  method GrowPool(opts: SeriesOpts, z: int, pool: seq<SubGroup>, counter: nat, children: seq<NodeId>, count: nat)
    returns (pool': seq<SubGroup>, counter': nat, children': seq<NodeId>)
    requires PoolInvariant(opts, pool, counter, children)
    ensures PoolInvariant(opts, pool', counter', children')
    ensures pool' == pool + NewSubGroups(opts, z, counter, count)
    ensures counter' == CounterAfter(opts, counter, count)
    ensures children <= children'
  {
    var n := |pool| + count;
    pool', counter', children' := pool, counter, children;
    ghost var k := 0;
    while |pool'| < n
      invariant |pool'| == |pool| + k <= n
      invariant pool' == pool + NewSubGroups(opts, z, counter, k)
      invariant counter' == CounterAfter(opts, counter, k)
      invariant children' == children + NewRoots(opts, z, counter, k)
    {
      var sg, attached, next := CreateSubGroup(opts, z, counter');
      GrowStep(opts, z, pool, pool', children, children', counter, k);
      pool' := pool' + [sg];
      counter' := next;
      children' := children' + attached;
      k := k + 1;
    }
    assert k == count;
    GrownPool(opts, z, pool, counter, children, count, pool', counter', children');
  }

  /**
   * The truncation of `updateSeriesGroups`: splices off the sub-groups from
   * `n` on and takes each one's nodes off the series root, in pool order.
   */
  method ShrinkPool(opts: SeriesOpts, pool: seq<SubGroup>, counter: nat, children: seq<NodeId>, n: nat)
    returns (pool': seq<SubGroup>, children': seq<NodeId>)
    requires PoolInvariant(opts, pool, counter, children) && n < |pool|
    ensures pool' == pool[..n]
    ensures PoolInvariant(opts, pool', counter, children')
  {
    var mp := MainPath in opts.pickGroupIncludes;
    pool' := pool[..n];
    var removed := pool[n..];
    children' := children;
    assert pool' + removed[0..] == pool;
    var i := 0;
    while i < |removed|
      invariant 0 <= i <= |removed|
      invariant PoolInvariant(opts, pool' + removed[i..], counter, children')
    {
      ghost var cur := pool' + removed[i..];
      PoolRemoveAt(opts, cur, |pool'|, counter, children');
      SpliceNext(pool', removed, i);
      PoolInvariantEq(opts, cur[..|pool'|] + cur[|pool'| + 1..], counter,
                      WithoutAll(children', DetachedNodes(cur[|pool'|], mp)),
                      pool' + removed[i + 1..], counter, WithoutAll(children', DetachedNodes(removed[i], mp)));
      children' := RemoveChildren(children', DetachedNodes(removed[i], mp));
      i := i + 1;
    }
    assert pool' + removed[i..] == pool';
  }

  /** Removing the element at the join of `a + b[i..]` leaves `a + b[i + 1..]`. */
  lemma SpliceNext<T>(a: seq<T>, b: seq<T>, i: nat)
    requires i < |b|
    ensures (a + b[i..])[|a|] == b[i]
    ensures (a + b[i..])[..|a|] + (a + b[i..])[|a| + 1..] == a + b[i + 1..]
  {
    var c := a + b[i..];
    assert c[..|a|] == a;
    assert c[|a| + 1..] == b[i + 1..];
  }

  /**
   * `updateSeriesGroups` on values: nothing to do when the pool already
   * matches `n`; otherwise it is truncated or grown to `n` sub-groups.
   */
  method ReconcilePool(opts: SeriesOpts, z: int, pool: seq<SubGroup>, counter: nat, children: seq<NodeId>, n: nat)
    returns (pool': seq<SubGroup>, counter': nat, children': seq<NodeId>)
    requires PoolInvariant(opts, pool, counter, children)
    ensures PoolInvariant(opts, pool', counter', children')
    ensures pool' == Reconciled(opts, z, pool, counter, n)
    ensures counter' == ReconciledCounter(opts, pool, counter, n)
    ensures |pool| == n ==> children' == children
    ensures |pool| < n ==> children <= children'
  {
    ReconciledCases(opts, z, pool, counter, n);
    if |pool| < n {
      pool', counter', children' := GrowPool(opts, z, pool, counter, children, n - |pool|);
    } else if n < |pool| {
      pool', children' := ShrinkPool(opts, pool, counter, children, n);
      counter' := counter;
    } else {
      pool', counter', children' := pool, counter, children;
    }
  }

  /** Re-binds one sub-group's selections to its context; `made` lists the hooks called, in order. */
  method RebindSubGroup(subGroup: SubGroup, contextData: Context, seriesIdx: int, seriesHighlighted: Option<bool>,
                        hooks: Hooks)
    returns (r: SubGroup, made: seq<HookCall>)
    ensures r == Rebind(subGroup, contextData, seriesIdx, hooks)
    ensures made == SelectionCalls(subGroup, contextData, seriesIdx, seriesHighlighted)
  {
    r := subGroup;
    made := [UpdatePaths(seriesIdx, contextData.itemId, seriesHighlighted)];
    r := r.(datumSelection := hooks.updateDatumSelection(contextData.nodeData, r.datumSelection, seriesIdx));
    made := made + [UpdateDatumSelection(seriesIdx, contextData.nodeData)];
    r := r.(labelSelection := hooks.updateLabelSelection(contextData.labelData, r.labelSelection, seriesIdx));
    made := made + [UpdateLabelSelection(seriesIdx, contextData.labelData)];
    if r.markerSelection.Some? {
      r := r.(markerSelection := Some(hooks.updateMarkerSelection(contextData.nodeData, r.markerSelection.value, seriesIdx)));
      made := made + [UpdateMarkerSelection(seriesIdx, contextData.nodeData)];
    }
  }

  /** The selection pass over a pool, in pool order; `made` lists the hooks called. */
  method RebindPool(subGroups: seq<SubGroup>, contexts: seq<Context>, seriesHighlighted: Option<bool>, hooks: Hooks)
    returns (r: seq<SubGroup>, made: seq<HookCall>)
    requires |subGroups| <= |contexts|
    ensures r == RebindAll(subGroups, contexts, hooks)
    ensures made == SelectionPassCalls(subGroups, contexts, seriesHighlighted, |subGroups|)
  {
    r, made := subGroups, [];
    var seriesIdx := 0;
    while seriesIdx < |r|
      invariant 0 <= seriesIdx <= |r| == |subGroups|
      invariant forall k :: 0 <= k < seriesIdx ==> r[k] == Rebind(subGroups[k], contexts[k], k, hooks)
      invariant forall k :: seriesIdx <= k < |r| ==> r[k] == subGroups[k]
      invariant made == SelectionPassCalls(subGroups, contexts, seriesHighlighted, seriesIdx)
    {
      var subGroup, calls := RebindSubGroup(r[seriesIdx], contexts[seriesIdx], seriesIdx, seriesHighlighted, hooks);
      r := r[seriesIdx := subGroup];
      made := made + calls;
      seriesIdx := seriesIdx + 1;
    }
  }

  /** Styles one sub-group: the item's opacity and visibility, copied down to markers and paths. */
  method StyleSubGroup(subGroup: SubGroup, contextData: Context, overall: bool, seriesItemEnabled: map<string, bool>,
                       getOpacity: OpacityQuery -> real, seriesLayerZIndex: int)
    returns (r: SubGroup)
    ensures r == Styled(subGroup, contextData, overall, seriesItemEnabled, getOpacity, seriesLayerZIndex)
  {
    var itemId := contextData.itemId;
    var group := subGroup.group.(opacity := getOpacity(ItemOpacity(itemId)));
    group := group.(visible := overall && ItemEnabled(seriesItemEnabled, itemId));
    var markerGroup := subGroup.markerGroup;
    if markerGroup.Some? {
      var zIndex := if group.zIndex >= seriesLayerZIndex then group.zIndex else group.zIndex + 1;
      markerGroup := Some(markerGroup.value.(opacity := group.opacity, zIndex := zIndex, visible := group.visible));
    }
    var paths := subGroup.paths;
    var k := 0;
    while k < |paths|
      invariant 0 <= k <= |paths| == |subGroup.paths|
      invariant forall j :: 0 <= j < k ==> paths[j] == subGroup.paths[j].(opacity := group.opacity, visible := group.visible)
      invariant forall j :: k <= j < |paths| ==> paths[j] == subGroup.paths[j]
    {
      paths := paths[k := paths[k].(opacity := group.opacity, visible := group.visible)];
      k := k + 1;
    }
    r := subGroup.(group := group, markerGroup := markerGroup, paths := paths);
  }

  /** The node hooks called for one styled sub-group: none when it is hidden. */
  method NodeHooks(subGroup: SubGroup, seriesIdx: int, contextData: Context, seriesHighlighted: Option<bool>,
                   markersEnabled: bool)
    returns (made: seq<HookCall>)
    ensures made == NodeCalls(subGroup, seriesIdx, contextData, seriesHighlighted, markersEnabled)
  {
    made := [];
    if !subGroup.group.visible {
      return;
    }
    made := made + [UpdatePathNodes(seriesIdx, contextData.itemId, seriesHighlighted)];
    made := made + [UpdateDatumNodes(seriesIdx, false)];
    made := made + [UpdateLabelNodes(seriesIdx)];
    if markersEnabled && subGroup.markerSelection.Some? {
      made := made + [UpdateMarkerNodes(seriesIdx, false)];
    }
  }

  /**
   * The node pass over a pool, in pool order: each sub-group styled, then its
   * node hooks called when it is visible; `made` lists the hooks called.
   */
  method StylePool(subGroups: seq<SubGroup>, contexts: seq<Context>, overall: bool, seriesItemEnabled: map<string, bool>,
                   getOpacity: OpacityQuery -> real, seriesLayerZIndex: int, seriesHighlighted: Option<bool>,
                   markersEnabled: bool)
    returns (r: seq<SubGroup>, made: seq<HookCall>)
    requires |subGroups| <= |contexts|
    ensures r == StyleAll(subGroups, contexts, overall, seriesItemEnabled, getOpacity, seriesLayerZIndex)
    ensures made == NodePassCalls(r, contexts, seriesHighlighted, markersEnabled, |r|)
  {
    r, made := subGroups, [];
    var seriesIdx := 0;
    while seriesIdx < |subGroups|
      invariant seriesIdx <= |subGroups|
      invariant r == StyledUpTo(subGroups, contexts, overall, seriesItemEnabled, getOpacity, seriesLayerZIndex, seriesIdx)
      invariant made == NodePassCalls(r, contexts, seriesHighlighted, markersEnabled, seriesIdx)
    {
      StyledUpToStep(subGroups, contexts, overall, seriesItemEnabled, getOpacity, seriesLayerZIndex, seriesIdx);
      var contextData := contexts[seriesIdx];
      var subGroup := StyleSubGroup(r[seriesIdx], contextData, overall, seriesItemEnabled, getOpacity, seriesLayerZIndex);
      NodePassUpdateAfter(r, contexts, seriesHighlighted, markersEnabled, seriesIdx, seriesIdx, subGroup);
      r := r[seriesIdx := subGroup];
      var calls := NodeHooks(subGroup, seriesIdx, contextData, seriesHighlighted, markersEnabled);
      NodePassStep(r, contexts, seriesHighlighted, markersEnabled, seriesIdx);
      made := made + calls;
      seriesIdx := seriesIdx + 1;
    }
    assert seriesIdx == |r|;
  }

  /** The attributes `updateNodes` sets on the series' containers. */
  datatype Containers = Containers(groupVisible: bool, seriesGroupVisible: bool, seriesGroupOpacity: real,
                                   highlightGroupVisible: bool)

  class CartesianSeries {
    const opts: SeriesOpts
    /** The z-index of the series layer every container is created at. */
    const seriesLayerZIndex: int

    var visible: bool
    var contextNodeData: Option<seq<Context>>
    var nodeDataRefresh: bool
    var seriesItemEnabled: map<string, bool>

    var subGroups: seq<SubGroup>
    var subGroupId: nat
    /** The children of the series root container. */
    var rootChildren: seq<NodeId>

    var containers: Containers
    var highlightSelection: Selection
    var highlightLabelSelection: Selection

    /** Every call made to a subclass hook, oldest first. */
    var calls: seq<HookCall>

    predicate MainPathInPick() { MainPath in opts.pickGroupIncludes }

    /** The series' data: visibility, context data, staleness and per-item toggles. */
    ghost function Data(): (bool, Option<seq<Context>>, bool, map<string, bool>)
      reads this`visible, this`contextNodeData, this`nodeDataRefresh, this`seriesItemEnabled
    {
      (visible, contextNodeData, nodeDataRefresh, seriesItemEnabled)
    }

    /** What the node and highlight phases draw: container attributes and highlight selections. */
    ghost function Display(): (Containers, Selection, Selection)
      reads this`containers, this`highlightSelection, this`highlightLabelSelection
    {
      (containers, highlightSelection, highlightLabelSelection)
    }

    ghost predicate PoolValid()
      reads this`subGroups, this`subGroupId, this`rootChildren
    {
      PoolInvariant(opts, subGroups, subGroupId, rootChildren)
    }

    /**
     * The pool is valid and matched one-to-one with the context data; before
     * the first node data exist the pool is empty and a refresh is pending.
     */
    ghost predicate Valid()
      reads this`subGroups, this`subGroupId, this`rootChildren, this`contextNodeData, this`nodeDataRefresh
    {
      && PoolValid()
      && (contextNodeData.None? ==> subGroups == [] && nodeDataRefresh)
      && (contextNodeData.Some? ==> |subGroups| == |contextNodeData.value|)
    }

    constructor(p: PartialSeriesOpts, seriesLayerZIndex: int)
      ensures Valid()
      ensures opts == ResolveOpts(p) && this.seriesLayerZIndex == seriesLayerZIndex
      ensures visible && contextNodeData.None? && nodeDataRefresh && seriesItemEnabled == map[]
      ensures subGroups == [] && subGroupId == 0 && rootChildren == [] && calls == []
      ensures highlightSelection == Selection(HighlightNode, 0) && highlightLabelSelection == Selection(HighlightLabel, 0)
    {
      opts := ResolveOpts(p);
      this.seriesLayerZIndex := seriesLayerZIndex;
      visible := true;
      contextNodeData := None;
      nodeDataRefresh := true;
      seriesItemEnabled := map[];
      subGroups := [];
      subGroupId := 0;
      rootChildren := [];
      containers := Containers(true, true, 1.0, true);
      highlightSelection := Selection(HighlightNode, 0);
      highlightLabelSelection := Selection(HighlightLabel, 0);
      calls := [];
      new;
      EmptyPool(opts);
    }

    /** The `contextNodeData` getter: a copy of the context data, absent before the first refresh. */
    function ContextNodeData(): (r: Option<seq<Context>>)
      reads this
      ensures Valid() && r.None? ==> subGroups == []
      ensures Valid() && r.Some? ==> |r.value| == |subGroups|
    {
      contextNodeData
    }

    // -------------------------------------------------------------------------
    // Pool reconciliation

    /**
     * Matches the pool to the context data: truncates the tail and detaches
     * it, or allocates fresh sub-groups at the end.
     */
    method UpdateSeriesGroups()
      requires PoolValid() && contextNodeData.Some?
      modifies this`subGroups, this`subGroupId, this`rootChildren
      ensures Data() == old(Data()) && Display() == old(Display()) && calls == old(calls)
      ensures contextNodeData == old(contextNodeData)
      ensures PoolValid() && |subGroups| == |contextNodeData.value|
      ensures subGroups == Reconciled(opts, seriesLayerZIndex, old(subGroups), old(subGroupId), |contextNodeData.value|)
      ensures subGroupId == ReconciledCounter(opts, old(subGroups), old(subGroupId), |contextNodeData.value|)
      ensures |old(subGroups)| == |contextNodeData.value| ==> rootChildren == old(rootChildren)
      ensures |old(subGroups)| < |contextNodeData.value| ==> old(rootChildren) <= rootChildren
    {
      subGroups, subGroupId, rootChildren :=
        ReconcilePool(opts, seriesLayerZIndex, subGroups, subGroupId, rootChildren, |contextNodeData.value|);
    }

    // -------------------------------------------------------------------------
    // Selections

    /** Re-binds every pooled sub-group's selections to its context, in pool order. */
    method RebindSubGroups(seriesHighlighted: Option<bool>, hooks: Hooks)
      requires Valid() && contextNodeData.Some?
      modifies this`subGroups, this`calls
      ensures Data() == old(Data()) && Display() == old(Display())
      ensures contextNodeData == old(contextNodeData)
      ensures subGroupId == old(subGroupId) && rootChildren == old(rootChildren)
      ensures Valid()
      ensures subGroups == RebindAll(old(subGroups), contextNodeData.value, hooks)
      ensures calls == old(calls) + SelectionPassCalls(old(subGroups), contextNodeData.value, seriesHighlighted, |old(subGroups)|)
    {
      ghost var pre := subGroups;
      var made;
      subGroups, made := RebindPool(subGroups, contextNodeData.value, seriesHighlighted, hooks);
      calls := calls + made;
      RebindKeepsPool(opts, pre, contextNodeData.value, hooks, subGroupId, rootChildren);
    }

    /**
     * Re-binds the highlight selection to the highlighted item (if this
     * series holds it) and the highlight label selection to its label.
     */
    method UpdateHighlightSelection(seriesHighlighted: Option<bool>, env: Env, hooks: Hooks)
      modifies this
      ensures Data() == old(Data()) && containers == old(containers)
      ensures contextNodeData == old(contextNodeData)
      ensures subGroups == old(subGroups) && subGroupId == old(subGroupId) && rootChildren == old(rootChildren)
      ensures var item := HighlightItem(seriesHighlighted, env.highlighted);
        && highlightSelection == (if MarkersEnabled(opts)
                                  then hooks.updateMarkerSelection(NodeDataOf(item), old(highlightSelection), -1)
                                  else hooks.updateDatumSelection(NodeDataOf(item), old(highlightSelection), -1))
        && highlightLabelSelection ==
             hooks.updateLabelSelection(LabelDataOf(HighlightLabelItem(env.labelEnabled, item, contextNodeData)),
                                        old(highlightLabelSelection), -1)
        && calls == old(calls) + HighlightSelectionCalls(MarkersEnabled(opts), item,
                                                         HighlightLabelItem(env.labelEnabled, item, contextNodeData))
    {
      var item := HighlightItem(seriesHighlighted, env.highlighted);
      var nodeData := if item.Some? then [item.value] else [];
      if MarkersEnabled(opts) {
        highlightSelection := hooks.updateMarkerSelection(nodeData, highlightSelection, -1);
        calls := calls + [UpdateMarkerSelection(-1, nodeData)];
      } else {
        highlightSelection := hooks.updateDatumSelection(nodeData, highlightSelection, -1);
        calls := calls + [UpdateDatumSelection(-1, nodeData)];
      }

      var labelItem: Option<LabelDatum> := None;
      if env.labelEnabled && item.Some? {
        labelItem := FindHighlightLabel(contextNodeData.GetOr([]), item.value);
      }
      var labelData := if labelItem.Some? then [labelItem.value] else [];
      highlightLabelSelection := hooks.updateLabelSelection(labelData, highlightLabelSelection, -1);
      calls := calls + [UpdateLabelSelection(-1, labelData)];
    }

    /**
     * The selection phase: the highlight always; then, unless no item is
     * enabled or nothing is stale or dirty, a node-data refresh (when stale)
     * with pool reconciliation, and a re-bind of every sub-group.
     */
    method UpdateSelections(seriesHighlighted: Option<bool>, anySeriesItemEnabled: bool, env: Env, hooks: Hooks)
      requires Valid()
      modifies this
      ensures visible == old(visible) && seriesItemEnabled == old(seriesItemEnabled) && containers == old(containers)
      ensures Valid()
      ensures highlightSelection ==
        if MarkersEnabled(opts)
        then hooks.updateMarkerSelection(NodeDataOf(HighlightItem(seriesHighlighted, env.highlighted)), old(highlightSelection), -1)
        else hooks.updateDatumSelection(NodeDataOf(HighlightItem(seriesHighlighted, env.highlighted)), old(highlightSelection), -1)
      ensures highlightLabelSelection ==
        hooks.updateLabelSelection(
          LabelDataOf(HighlightLabelItem(env.labelEnabled, HighlightItem(seriesHighlighted, env.highlighted), old(contextNodeData))),
          old(highlightLabelSelection), -1)
      ensures var item := HighlightItem(seriesHighlighted, env.highlighted);
        var highlightCalls := HighlightSelectionCalls(MarkersEnabled(opts), item,
                                                      HighlightLabelItem(env.labelEnabled, item, old(contextNodeData)));
        && (!anySeriesItemEnabled || (!old(nodeDataRefresh) && !hooks.isPathOrSelectionDirty) ==>
              && subGroups == old(subGroups) && subGroupId == old(subGroupId) && rootChildren == old(rootChildren)
              && contextNodeData == old(contextNodeData) && nodeDataRefresh == old(nodeDataRefresh)
              && calls == old(calls) + highlightCalls)
        && (anySeriesItemEnabled && old(nodeDataRefresh) ==>
              var reconciled := Reconciled(opts, seriesLayerZIndex, old(subGroups), old(subGroupId), |hooks.createNodeData|);
              && !nodeDataRefresh && contextNodeData == Some(hooks.createNodeData)
              && subGroups == RebindAll(reconciled, hooks.createNodeData, hooks)
              && subGroupId == ReconciledCounter(opts, old(subGroups), old(subGroupId), |hooks.createNodeData|)
              && calls == old(calls) + highlightCalls + [CreateNodeData]
                          + SelectionPassCalls(reconciled, hooks.createNodeData, seriesHighlighted, |reconciled|))
        && (anySeriesItemEnabled && !old(nodeDataRefresh) && hooks.isPathOrSelectionDirty ==>
              && contextNodeData == old(contextNodeData) && contextNodeData.Some? && !nodeDataRefresh
              && subGroups == RebindAll(old(subGroups), contextNodeData.value, hooks)
              && subGroupId == old(subGroupId) && rootChildren == old(rootChildren)
              && calls == old(calls) + highlightCalls
                          + SelectionPassCalls(old(subGroups), contextNodeData.value, seriesHighlighted, |old(subGroups)|))
    {
      UpdateHighlightSelection(seriesHighlighted, env, hooks);

      if anySeriesItemEnabled && (nodeDataRefresh || hooks.isPathOrSelectionDirty) {
        if nodeDataRefresh {
          nodeDataRefresh := false;
          contextNodeData := Some(hooks.createNodeData);
          calls := calls + [CreateNodeData];
          UpdateSeriesGroups();
        }
        RebindSubGroups(seriesHighlighted, hooks);
      }
    }

    // -------------------------------------------------------------------------
    // Nodes

    /**
     * The node phase: container visibility and opacity, the highlight's node
     * hooks, then each sub-group styled and, when visible, its node hooks.
     */
    method UpdateNodes(seriesHighlighted: Option<bool>, anySeriesItemEnabled: bool, env: Env)
      requires Valid()
      modifies this
      ensures Data() == old(Data())
      ensures highlightSelection == old(highlightSelection) && highlightLabelSelection == old(highlightLabelSelection)
      ensures subGroupId == old(subGroupId) && rootChildren == old(rootChildren)
      ensures Valid()
      ensures var overall := OverallVisible(visible, contextNodeData, anySeriesItemEnabled);
        containers == Containers(overall, overall, env.getOpacity(SeriesOpacity), overall && seriesHighlighted == Some(true))
      ensures subGroups == StyleAll(old(subGroups), contextNodeData.GetOr([]), containers.groupVisible, seriesItemEnabled,
                                    env.getOpacity, seriesLayerZIndex)
      ensures calls == old(calls) + HighlightNodeCalls(MarkersEnabled(opts))
                       + NodePassCalls(subGroups, contextNodeData.GetOr([]), seriesHighlighted, MarkersEnabled(opts), |subGroups|)
    {
      var markersEnabled := MarkersEnabled(opts);
      var overall := OverallVisible(visible, contextNodeData, anySeriesItemEnabled);
      containers := Containers(overall, overall, env.getOpacity(SeriesOpacity), overall && seriesHighlighted == Some(true));

      // The highlight's node hooks: its markers (or datums), then its label.
      var highlightCalls := [if markersEnabled then UpdateMarkerNodes(-1, true) else UpdateDatumNodes(-1, true),
                             UpdateLabelNodes(-1)];

      var contexts := contextNodeData.GetOr([]);
      var styled, made := StylePool(subGroups, contexts, overall, seriesItemEnabled, env.getOpacity, seriesLayerZIndex,
                                    seriesHighlighted, markersEnabled);
      StyleKeepsPool(opts, subGroups, contexts, overall, seriesItemEnabled, env.getOpacity, seriesLayerZIndex, subGroupId, rootChildren);
      subGroups := styled;
      calls := calls + highlightCalls + made;
    }

    /** The per-frame update: the selection phase, then the node phase. */
    method Update(env: Env, hooks: Hooks)
      requires Valid()
      modifies this
      ensures visible == old(visible) && seriesItemEnabled == old(seriesItemEnabled)
      ensures Valid()
      ensures containers.groupVisible == OverallVisible(visible, contextNodeData, AnySeriesItemEnabled(visible, seriesItemEnabled))
      ensures containers.highlightGroupVisible == (containers.groupVisible && SeriesHighlighted(env.highlighted) == Some(true))
      ensures highlightSelection ==
        if MarkersEnabled(opts)
        then hooks.updateMarkerSelection(NodeDataOf(HighlightedItem(env)), old(highlightSelection), -1)
        else hooks.updateDatumSelection(NodeDataOf(HighlightedItem(env)), old(highlightSelection), -1)
      ensures highlightLabelSelection ==
        hooks.updateLabelSelection(LabelDataOf(HighlightLabelItem(env.labelEnabled, HighlightedItem(env), old(contextNodeData))),
                                   old(highlightLabelSelection), -1)
      // Nothing enabled, or nothing stale or dirty: the pool is only restyled.
      ensures !AnySeriesItemEnabled(visible, seriesItemEnabled) || (!old(nodeDataRefresh) && !hooks.isPathOrSelectionDirty) ==>
        && contextNodeData == old(contextNodeData) && nodeDataRefresh == old(nodeDataRefresh)
        && subGroupId == old(subGroupId) && rootChildren == old(rootChildren)
        && subGroups == StyleAll(old(subGroups), contextNodeData.GetOr([]), containers.groupVisible, seriesItemEnabled,
                                 env.getOpacity, seriesLayerZIndex)
        && calls == old(calls) + HighlightPhaseCalls(MarkersEnabled(opts), env, old(contextNodeData))
                    + HighlightNodeCalls(MarkersEnabled(opts))
                    + NodePassCalls(subGroups, contextNodeData.GetOr([]), SeriesHighlighted(env.highlighted),
                                    MarkersEnabled(opts), |subGroups|)
      // Stale: fresh node data, the pool reconciled to it, re-bound, then restyled.
      ensures AnySeriesItemEnabled(visible, seriesItemEnabled) && old(nodeDataRefresh) ==>
        && !nodeDataRefresh && contextNodeData == Some(hooks.createNodeData)
        && subGroupId == ReconciledCounter(opts, old(subGroups), old(subGroupId), |hooks.createNodeData|)
        && subGroups == StyleAll(RebindAll(Reconciled(opts, seriesLayerZIndex, old(subGroups), old(subGroupId), |hooks.createNodeData|),
                                           hooks.createNodeData, hooks),
                                 hooks.createNodeData, containers.groupVisible, seriesItemEnabled, env.getOpacity, seriesLayerZIndex)
        && calls == old(calls) + HighlightPhaseCalls(MarkersEnabled(opts), env, old(contextNodeData)) + [CreateNodeData]
                    + SelectionPassCalls(Reconciled(opts, seriesLayerZIndex, old(subGroups), old(subGroupId), |hooks.createNodeData|),
                                         hooks.createNodeData, SeriesHighlighted(env.highlighted), |hooks.createNodeData|)
                    + HighlightNodeCalls(MarkersEnabled(opts))
                    + NodePassCalls(subGroups, hooks.createNodeData, SeriesHighlighted(env.highlighted),
                                    MarkersEnabled(opts), |subGroups|)
      // Dirty only: the pool is re-bound to the same node data, then restyled.
      ensures AnySeriesItemEnabled(visible, seriesItemEnabled) && !old(nodeDataRefresh) && hooks.isPathOrSelectionDirty ==>
        && contextNodeData == old(contextNodeData) && contextNodeData.Some? && !nodeDataRefresh
        && subGroupId == old(subGroupId) && rootChildren == old(rootChildren)
        && subGroups == StyleAll(RebindAll(old(subGroups), contextNodeData.value, hooks), contextNodeData.value,
                                 containers.groupVisible, seriesItemEnabled, env.getOpacity, seriesLayerZIndex)
        && calls == old(calls) + HighlightPhaseCalls(MarkersEnabled(opts), env, old(contextNodeData))
                    + SelectionPassCalls(old(subGroups), contextNodeData.value, SeriesHighlighted(env.highlighted), |old(subGroups)|)
                    + HighlightNodeCalls(MarkersEnabled(opts))
                    + NodePassCalls(subGroups, contextNodeData.value, SeriesHighlighted(env.highlighted),
                                    MarkersEnabled(opts), |subGroups|)
    {
      var seriesHighlighted := SeriesHighlighted(env.highlighted);
      var anySeriesItemEnabled := AnySeriesItemEnabled(visible, seriesItemEnabled);
      UpdateSelections(seriesHighlighted, anySeriesItemEnabled, env, hooks);
      UpdateNodes(seriesHighlighted, anySeriesItemEnabled, env);
    }

    /**
     * Toggles one item: with per-item entries the entry is set and a refresh
     * is requested; otherwise the base series handles it, with the effect
     * `base` on the series' visibility and refresh flag.
     */
    method ToggleSeriesItem(itemId: string, enabled: bool, base: BaseToggle)
      requires Valid()
      modifies this
      ensures contextNodeData == old(contextNodeData) && Display() == old(Display())
      ensures subGroups == old(subGroups) && subGroupId == old(subGroupId) && rootChildren == old(rootChildren)
      ensures Valid()
      ensures Data() == Toggled(old(Data()), itemId, enabled, base)
      ensures calls ==
        if |old(seriesItemEnabled)| > 0 then old(calls) else old(calls) + [BaseToggleSeriesItem(itemId, enabled)]
    {
      var d := Toggled((visible, contextNodeData, nodeDataRefresh, seriesItemEnabled), itemId, enabled, base);
      if |seriesItemEnabled| == 0 {
        calls := calls + [BaseToggleSeriesItem(itemId, enabled)];
      }
      visible, nodeDataRefresh, seriesItemEnabled := d.0, d.2, d.3;
    }
  }
}
