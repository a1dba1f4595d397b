/**
 * The scene containers a Cartesian series keeps per sub-series ("sub-groups"),
 * modelled as records over abstract node ids. A node id carries the
 * allocation counter value of the sub-group that created it, which makes the
 * ids of different sub-groups distinct.
 */
module CartesianScene {
  import opened Options
  import opened Seqs
  import opened CartesianData

  /** The elements that may take part in hit-testing: 'mainPath', 'datumNodes', 'markers'. */
  datatype PickGroupInclude = MainPath | DatumNodes | MarkerNodes

  /** Optional series features: only 'markers'. */
  datatype SeriesFeature = MarkersFeature

  /** The series configuration, fixed at construction. */
  datatype SeriesOpts = SeriesOpts(
    pickGroupIncludes: seq<PickGroupInclude>,
    pathsPerSeries: nat,
    pathsZIndexSubOrderOffset: seq<int>,
    features: seq<SeriesFeature>)

  /** The configuration as a concrete series passes it: every field may be left out. */
  datatype PartialSeriesOpts = PartialSeriesOpts(
    pickGroupIncludes: Option<seq<PickGroupInclude>>,
    pathsPerSeries: Option<nat>,
    pathsZIndexSubOrderOffset: Option<seq<int>>,
    features: Option<seq<SeriesFeature>>)

  /** Fills in the defaults: pick the datum nodes, one path, no features, no path offsets. */
  function ResolveOpts(p: PartialSeriesOpts): (o: SeriesOpts)
    ensures p.pickGroupIncludes.None? ==> o.pickGroupIncludes == [DatumNodes]
    ensures p.pathsPerSeries.None? ==> o.pathsPerSeries == 1
    ensures p.features.None? ==> o.features == []
    ensures p.pathsZIndexSubOrderOffset.None? ==> o.pathsZIndexSubOrderOffset == []
    ensures p.pickGroupIncludes.Some? ==> o.pickGroupIncludes == p.pickGroupIncludes.value
    ensures p.pathsPerSeries.Some? ==> o.pathsPerSeries == p.pathsPerSeries.value
    ensures p.features.Some? ==> o.features == p.features.value
    ensures p.pathsZIndexSubOrderOffset.Some? ==> o.pathsZIndexSubOrderOffset == p.pathsZIndexSubOrderOffset.value
  {
    SeriesOpts(p.pickGroupIncludes.GetOr([DatumNodes]), p.pathsPerSeries.GetOr(1),
               p.pathsZIndexSubOrderOffset.GetOr([]), p.features.GetOr([]))
  }

  predicate MarkersEnabled(opts: SeriesOpts) { MarkersFeature in opts.features }

  /** The z-order bands: markers and pick groups above the main groups, labels above those. */
  const MarkerSubOrderBase: int := 10000
  const LabelSubOrderBase: int := 20000

  /** Scene node identities. */
  datatype NodeId =
    | SeriesRoot
    | HighlightNode
    | HighlightLabel
    | MainGroup(sub: nat)
    | MarkerGroup(sub: nat)
    | LabelGroup(sub: nat)
    | PickGroup(sub: nat)
    | PathNode(sub: nat, index: nat)

  /** The allocation counter value of the sub-group that owns a node, -1 for the series' own nodes. */
  function Owner(n: NodeId): int
  {
    match n
    case SeriesRoot => -1
    case HighlightNode => -1
    case HighlightLabel => -1
    case MainGroup(s) => s
    case MarkerGroup(s) => s
    case LabelGroup(s) => s
    case PickGroup(s) => s
    case PathNode(s, _) => s
  }

  /**
   * A group container. `name` is the number in its scene name
   * (`<series>-series-sub<name>`, suffixed by its role), `zIndexSubOrder`
   * the second component of its sort key (the first is the series id).
   */
  datatype Group = Group(
    node: NodeId, name: nat, layer: bool, zIndex: int, zIndexSubOrder: int,
    children: seq<NodeId>, visible: bool, opacity: real)

  datatype Path = Path(node: NodeId, zIndex: int, zIndexSubOrder: int, visible: bool, opacity: real)

  /**
   * A selection handle: the container its nodes live under and the number of
   * data it is bound to. Selections are re-issued by the subclass hooks.
   */
  datatype Selection = Selection(root: NodeId, bound: nat)

  datatype SubGroup = SubGroup(
    id: nat,
    paths: seq<Path>,
    group: Group,
    pickGroup: Group,
    labelGroup: Group,
    markerGroup: Option<Group>,
    datumSelection: Selection,
    labelSelection: Selection,
    markerSelection: Option<Selection>)

  /** How far one new sub-group moves the allocation counter. */
  function SubGroupIdStep(opts: SeriesOpts): nat
  {
    if MarkersEnabled(opts) then 4 else 3
  }

  /** `pathsZIndexSubOrderOffset[index] ?? 0` */
  function PathSubOrderOffset(opts: SeriesOpts, index: nat): int
  {
    if index < |opts.pathsZIndexSubOrderOffset| then opts.pathsZIndexSubOrderOffset[index] else 0
  }

  function NewPath(opts: SeriesOpts, z: int, id: nat, index: nat): Path
  {
    Path(PathNode(id, index), z, PathSubOrderOffset(opts, index) + id, true, 1.0)
  }

  /** The first `n` paths of a new sub-group. */
  function NewPaths(opts: SeriesOpts, z: int, id: nat, n: nat): (ps: seq<Path>)
  {
    seq(n, i requires 0 <= i < n => NewPath(opts, z, id, i))
  }

  function PathIds(paths: seq<Path>): (r: seq<NodeId>)
    ensures |r| == |paths|
  {
    seq(|paths|, i requires 0 <= i < |paths| => paths[i].node)
  }

  lemma NewPathsSnoc(opts: SeriesOpts, z: int, id: nat, n: nat)
    ensures NewPaths(opts, z, id, n + 1) == NewPaths(opts, z, id, n) + [NewPath(opts, z, id, n)]
  {
  }

  lemma PathIdsSnoc(paths: seq<Path>, p: Path)
    ensures PathIds(paths + [p]) == PathIds(paths) + [p.node]
  {
  }

  /**
   * The sub-group created when the allocation counter stands at `id`, in a
   * series whose layer z-index is `z`.
   */
  function NewSubGroup(opts: SeriesOpts, z: int, id: nat): (sg: SubGroup)
    ensures sg.id == id && sg.group.node == MainGroup(id) && sg.labelGroup.node == LabelGroup(id)
    ensures |sg.paths| == opts.pathsPerSeries && (sg.markerGroup.Some? <==> MarkersEnabled(opts))
  {
    var markers := MarkersEnabled(opts);
    var labelName := if markers then id + 2 else id + 1;
    var paths := NewPaths(opts, z, id, opts.pathsPerSeries);
    var group := Group(MainGroup(id), id, true, z, id, [PickGroup(id)], true, 1.0);
    var markerGroup :=
      if markers then Some(Group(MarkerGroup(id), id + 1, true, z, MarkerSubOrderBase + id, [], true, 1.0))
      else None;
    var labelGroup := Group(LabelGroup(id), labelName, true, z, LabelSubOrderBase + id, [], true, 1.0);
    var pickGroup := Group(PickGroup(id), labelName + 1, false, z, MarkerSubOrderBase + id,
                           if MainPath in opts.pickGroupIncludes then PathIds(paths) else [], true, 1.0);
    var datumParent := if DatumNodes in opts.pickGroupIncludes then PickGroup(id) else MainGroup(id);
    SubGroup(id, paths, group, pickGroup, labelGroup, markerGroup,
             Selection(datumParent, 0), Selection(LabelGroup(id), 0),
             if markers then Some(Selection(MarkerGroup(id), 0)) else None)
  }

  /** The shape of a new sub-group, as the allocation code lays it out. */
  lemma NewSubGroupShape(opts: SeriesOpts, z: int, id: nat)
    ensures var sg := NewSubGroup(opts, z, id);
      && |sg.paths| == opts.pathsPerSeries
      && (sg.markerGroup.Some? <==> MarkersEnabled(opts))
      && (sg.markerSelection.Some? <==> MarkersEnabled(opts))
      && sg.group.zIndexSubOrder == id
      && sg.pickGroup.zIndexSubOrder == MarkerSubOrderBase + id
      && sg.labelGroup.zIndexSubOrder == LabelSubOrderBase + id
      && (sg.markerGroup.Some? ==> sg.markerGroup.value.zIndexSubOrder == MarkerSubOrderBase + id)
      && (forall i :: 0 <= i < |sg.paths| ==> sg.paths[i].zIndexSubOrder == PathSubOrderOffset(opts, i) + id)
      && sg.group.children == [sg.pickGroup.node]
      && (MainPath in opts.pickGroupIncludes ==> sg.pickGroup.children == PathIds(sg.paths))
      && (MainPath !in opts.pickGroupIncludes ==> sg.pickGroup.children == [])
      && sg.datumSelection.root == (if DatumNodes in opts.pickGroupIncludes then sg.pickGroup.node else sg.group.node)
      && sg.labelSelection.root == sg.labelGroup.node
      && (sg.markerSelection.Some? ==> sg.markerSelection.value.root == sg.markerGroup.value.node)
      && sg.group.layer && sg.labelGroup.layer && !sg.pickGroup.layer
      && id <= sg.group.name < sg.labelGroup.name < sg.pickGroup.name < id + SubGroupIdStep(opts)
      && (sg.markerGroup.Some? ==> sg.group.name < sg.markerGroup.value.name < sg.labelGroup.name)
  {
  }

  /** The structure a sub-group keeps for its whole life. */
  ghost predicate WellFormed(sg: SubGroup, opts: SeriesOpts)
  {
    && sg.group.node == MainGroup(sg.id)
    && sg.pickGroup.node == PickGroup(sg.id)
    && sg.labelGroup.node == LabelGroup(sg.id)
    && (sg.markerGroup.Some? <==> MarkersEnabled(opts))
    && (sg.markerGroup.Some? ==> sg.markerGroup.value.node == MarkerGroup(sg.id))
    && (sg.markerSelection.Some? <==> sg.markerGroup.Some?)
    && |sg.paths| == opts.pathsPerSeries
    && (forall k :: 0 <= k < |sg.paths| ==> sg.paths[k].node == PathNode(sg.id, k))
  }

  lemma NewSubGroupWellFormed(opts: SeriesOpts, z: int, id: nat)
    ensures WellFormed(NewSubGroup(opts, z, id), opts)
  {
  }

  /**
   * The nodes a sub-group attaches directly under the series root, in the
   * order it attaches them: main group, label group, marker group, and the
   * paths when they do not live under the pick group.
   */
  function RootNodeSeq(sg: SubGroup, mainPathInPick: bool): seq<NodeId>
  {
    [sg.group.node, sg.labelGroup.node]
    + (if sg.markerGroup.Some? then [sg.markerGroup.value.node] else [])
    + (if mainPathInPick then [] else PathIds(sg.paths))
  }

  function PathNodeSet(sg: SubGroup): set<NodeId>
  {
    set p | p in sg.paths :: p.node
  }

  function RootNodes(sg: SubGroup, mainPathInPick: bool): set<NodeId>
  {
    {sg.group.node, sg.labelGroup.node}
    + (if sg.markerGroup.Some? then {sg.markerGroup.value.node} else {})
    + (if mainPathInPick then {} else PathNodeSet(sg))
  }

  lemma RootNodeSeqElems(sg: SubGroup, mainPathInPick: bool)
    ensures Elems(RootNodeSeq(sg, mainPathInPick)) == RootNodes(sg, mainPathInPick)
  {
    var s := RootNodeSeq(sg, mainPathInPick);
    forall n | n in RootNodes(sg, mainPathInPick) ensures n in s {
      if !mainPathInPick && n in PathNodeSet(sg) {
        var p :| p in sg.paths && p.node == n;
        var k :| 0 <= k < |sg.paths| && sg.paths[k] == p;
        assert PathIds(sg.paths)[k] == n;
      }
    }
  }

  /** Every node of a well-formed sub-group is owned by that sub-group. */
  lemma RootNodesOwned(sg: SubGroup, opts: SeriesOpts, mainPathInPick: bool)
    requires WellFormed(sg, opts)
    ensures forall n :: n in RootNodes(sg, mainPathInPick) ==> Owner(n) == sg.id
  {
    forall n | n in PathNodeSet(sg) ensures Owner(n) == sg.id {
      var p :| p in sg.paths && p.node == n;
      var k :| 0 <= k < |sg.paths| && sg.paths[k] == p;
    }
  }

  /** All nodes the given sub-groups attach under the series root. */
  function Attached(sgs: seq<SubGroup>, mainPathInPick: bool): set<NodeId>
    decreases |sgs|
  {
    if sgs == [] then {} else Attached(sgs[..|sgs| - 1], mainPathInPick) + RootNodes(sgs[|sgs| - 1], mainPathInPick)
  }

  lemma AttachedAppend(sgs: seq<SubGroup>, sg: SubGroup, mainPathInPick: bool)
    ensures Attached(sgs + [sg], mainPathInPick) == Attached(sgs, mainPathInPick) + RootNodes(sg, mainPathInPick)
  {
    assert (sgs + [sg])[..|sgs|] == sgs;
  }

  lemma {:induction false} AttachedConcat(a: seq<SubGroup>, b: seq<SubGroup>, mainPathInPick: bool)
    ensures Attached(a + b, mainPathInPick) == Attached(a, mainPathInPick) + Attached(b, mainPathInPick)
    decreases |b|
  {
    if b == [] {
      assert a + b == a;
    } else {
      var init := b[..|b| - 1];
      var last := b[|b| - 1];
      assert a + b == (a + init) + [last];
      AttachedAppend(a + init, last, mainPathInPick);
      AttachedConcat(a, init, mainPathInPick);
      assert b == init + [last];
      AttachedAppend(init, last, mainPathInPick);
    }
  }

  function Ids(sgs: seq<SubGroup>): set<int>
  {
    set i | 0 <= i < |sgs| :: sgs[i].id as int
  }

  /** Every attached node is owned by one of the sub-groups that attached it. */
  lemma {:induction false} AttachedOwned(sgs: seq<SubGroup>, opts: SeriesOpts, mainPathInPick: bool)
    requires forall i :: 0 <= i < |sgs| ==> WellFormed(sgs[i], opts)
    ensures forall n :: n in Attached(sgs, mainPathInPick) ==> Owner(n) in Ids(sgs)
    decreases |sgs|
  {
    if sgs != [] {
      var init := sgs[..|sgs| - 1];
      var last := sgs[|sgs| - 1];
      AttachedOwned(init, opts, mainPathInPick);
      RootNodesOwned(last, opts, mainPathInPick);
      forall n | n in Attached(sgs, mainPathInPick) ensures Owner(n) in Ids(sgs) {
        if n in Attached(init, mainPathInPick) {
          var i :| 0 <= i < |init| && init[i].id as int == Owner(n);
          assert sgs[i] == init[i];
        } else {
          assert Owner(n) == sgs[|sgs| - 1].id;
        }
      }
    }
  }

  /** Two pools whose sub-groups attach the same nodes attach the same node set. */
  lemma {:induction false} AttachedSameNodes(a: seq<SubGroup>, b: seq<SubGroup>, mainPathInPick: bool)
    requires |a| == |b|
    requires forall i :: 0 <= i < |a| ==> RootNodes(a[i], mainPathInPick) == RootNodes(b[i], mainPathInPick)
    ensures Attached(a, mainPathInPick) == Attached(b, mainPathInPick)
    decreases |a|
  {
    if a != [] {
      AttachedSameNodes(a[..|a| - 1], b[..|b| - 1], mainPathInPick);
    }
  }

  /** The calls a series makes to its subclass hooks, in the order it makes them. */
  datatype HookCall =
    | CreateNodeData
    | UpdatePaths(seriesIdx: int, itemId: Option<string>, seriesHighlighted: Option<bool>)
    | UpdateDatumSelection(seriesIdx: int, nodeData: seq<NodeDatum>)
    | UpdateLabelSelection(seriesIdx: int, labelData: seq<LabelDatum>)
    | UpdateMarkerSelection(seriesIdx: int, nodeData: seq<NodeDatum>)
    | UpdatePathNodes(seriesIdx: int, itemId: Option<string>, seriesHighlighted: Option<bool>)
    | UpdateDatumNodes(seriesIdx: int, isHighlight: bool)
    | UpdateLabelNodes(seriesIdx: int)
    | UpdateMarkerNodes(seriesIdx: int, isHighlight: bool)
    | BaseToggleSeriesItem(toggledItemId: string, enabled: bool)

  /** The sub-group index a hook call is made for, if any (-1 is the highlight). */
  function CallIndex(c: HookCall): Option<int>
  {
    match c
    case CreateNodeData => None
    case BaseToggleSeriesItem(_, _) => None
    case _ => Some(c.seriesIdx)
  }
}
