/**
 * Hit-testing of a Cartesian series: the exact-shape pick over the
 * sub-groups' pick containers, the closest-datum pick and the
 * main-axis-first pick over the node data, and the search for the label of
 * the highlighted datum.
 */
module CartesianPick {
  import opened Options
  import opened Seqs
  import opened CartesianData
  import opened CartesianScene

  /** A distance that may still be infinite (the searches start at Infinity). */
  datatype Extended = Infinity | Finite(v: real)

  predicate Below(d: real, m: Extended) { m.Infinity? || d < m.v }
  predicate Above(d: real, m: Extended) { m.Finite? && d > m.v }

  datatype PickMatch = PickMatch(datum: NodeDatum, distance: real)

  function Max(a: real, b: real): real { if a >= b then a else b }

  function Abs(a: real): real { if a < 0.0 then -a else a }

  /** `point?.size ?? 0` */
  function MarkerSize(d: NodeDatum): real
  {
    if d.point.Some? && d.point.value.size.Some? then d.point.value.size.value else 0.0
  }

  /**
   * The squared distance from the hit point, floored at 0. Only read for
   * in-range data, which always have a point.
   */
  function SquaredDistance(hit: Coord, d: NodeDatum): real
  {
    match d.point
    case Some(p) => Max((hit.x - p.x) * (hit.x - p.x) + (hit.y - p.y) * (hit.y - p.y), 0.0)
    case None => 0.0
  }

  // ---------------------------------------------------------------------------
  // Closest datum

  datatype ClosestScan = ClosestScan(best: Option<nat>, minDistance: Extended)

  /** The state of the closest-datum scan after the data `ds`: a strict `<` keeps the earliest. */
  function ScanClosest(ds: seq<NodeDatum>, xAxis: Option<Axis>, yAxis: Option<Axis>, hit: Coord): (s: ClosestScan)
    ensures s.best.Some? ==> s.best.value < |ds|
    decreases |ds|
  {
    if ds == [] then ClosestScan(None, Infinity)
    else
      var s := ScanClosest(ds[..|ds| - 1], xAxis, yAxis, hit);
      var d := ds[|ds| - 1];
      if PickInRange(xAxis, yAxis, d) && Below(SquaredDistance(hit, d), s.minDistance)
      then ClosestScan(Some(|ds| - 1), Finite(SquaredDistance(hit, d)))
      else s
  }

  /**
   * `ds[k]` is in range, no in-range datum is strictly closer, and every
   * in-range datum before it is strictly farther.
   */
  ghost predicate IsClosestAt(ds: seq<NodeDatum>, k: int, xAxis: Option<Axis>, yAxis: Option<Axis>, hit: Coord)
  {
    && 0 <= k < |ds|
    && PickInRange(xAxis, yAxis, ds[k])
    && (forall j :: 0 <= j < |ds| && PickInRange(xAxis, yAxis, ds[j]) ==>
          SquaredDistance(hit, ds[k]) <= SquaredDistance(hit, ds[j]))
    && (forall j :: 0 <= j < k && PickInRange(xAxis, yAxis, ds[j]) ==>
          SquaredDistance(hit, ds[k]) < SquaredDistance(hit, ds[j]))
  }

  lemma {:induction false} ScanClosestIsClosest(ds: seq<NodeDatum>, xAxis: Option<Axis>, yAxis: Option<Axis>, hit: Coord)
    ensures var s := ScanClosest(ds, xAxis, yAxis, hit);
      && (s.best.None? <==> forall j :: 0 <= j < |ds| ==> !PickInRange(xAxis, yAxis, ds[j]))
      && (s.best.None? ==> s.minDistance == Infinity)
      && (s.best.Some? ==> IsClosestAt(ds, s.best.value, xAxis, yAxis, hit)
                           && s.minDistance == Finite(SquaredDistance(hit, ds[s.best.value])))
    decreases |ds|
  {
    if ds != [] {
      var init := ds[..|ds| - 1];
      ScanClosestIsClosest(init, xAxis, yAxis, hit);
      assert forall j :: 0 <= j < |init| ==> ds[j] == init[j];
    }
  }

  /** One step of the closest-datum scan. */
  lemma ScanClosestSnoc(seen: seq<NodeDatum>, d: NodeDatum, xAxis: Option<Axis>, yAxis: Option<Axis>, hit: Coord)
    ensures var s := ScanClosest(seen, xAxis, yAxis, hit);
      ScanClosest(seen + [d], xAxis, yAxis, hit)
      == if PickInRange(xAxis, yAxis, d) && Below(SquaredDistance(hit, d), s.minDistance)
         then ClosestScan(Some(|seen|), Finite(SquaredDistance(hit, d))) else s
  {
    assert (seen + [d])[..|seen|] == seen;
  }

  /** The scan state `(best, minDistance)` over `seen`, with `closestDatum` the datum at `best`. */
  ghost predicate ClosestState(seen: seq<NodeDatum>, xAxis: Option<Axis>, yAxis: Option<Axis>, hit: Coord,
                               best: Option<nat>, minDistance: Extended, closestDatum: Option<NodeDatum>)
  {
    && ScanClosest(seen, xAxis, yAxis, hit) == ClosestScan(best, minDistance)
    && (best.Some? ==> best.value < |seen| && closestDatum == Some(seen[best.value]))
    && (best.None? ==> closestDatum.None?)
  }

  /** What the finished scan says about the datum it kept. */
  lemma ClosestOutcome(all: seq<NodeDatum>, xAxis: Option<Axis>, yAxis: Option<Axis>, hit: Coord,
                       best: Option<nat>, minDistance: Extended, closestDatum: Option<NodeDatum>)
    requires ClosestState(all, xAxis, yAxis, hit, best, minDistance, closestDatum)
    ensures closestDatum.None? <==> forall j :: 0 <= j < |all| ==> !PickInRange(xAxis, yAxis, all[j])
    ensures closestDatum.Some? ==>
      best.Some? && IsClosestAt(all, best.value, xAxis, yAxis, hit) && all[best.value] == closestDatum.value
  {
    ScanClosestIsClosest(all, xAxis, yAxis, hit);
  }

  /** The inner loop of the closest-datum pick: one context's node data. */
  method ScanNodesClosest(nodeData: seq<NodeDatum>, xAxis: Option<Axis>, yAxis: Option<Axis>, hit: Coord,
                          ghost seen: seq<NodeDatum>, ghost best: Option<nat>,
                          minDistance: Extended, closestDatum: Option<NodeDatum>)
    returns (ghost best': Option<nat>, minDistance': Extended, closestDatum': Option<NodeDatum>)
    requires ClosestState(seen, xAxis, yAxis, hit, best, minDistance, closestDatum)
    ensures ClosestState(seen + nodeData, xAxis, yAxis, hit, best', minDistance', closestDatum')
  {
    best', minDistance', closestDatum' := best, minDistance, closestDatum;
    var di := 0;
    assert seen + nodeData[..di] == seen;
    while di < |nodeData|
      invariant 0 <= di <= |nodeData|
      invariant ClosestState(seen + nodeData[..di], xAxis, yAxis, hit, best', minDistance', closestDatum')
    {
      var datum := nodeData[di];
      ghost var prev := seen + nodeData[..di];
      assert seen + nodeData[..di + 1] == prev + [datum];
      ScanClosestSnoc(prev, datum, xAxis, yAxis, hit);
      if PickInRange(xAxis, yAxis, datum) {
        var distance := SquaredDistance(hit, datum);
        if Below(distance, minDistance') {
          minDistance' := Finite(distance);
          closestDatum' := Some(datum);
          best' := Some(|prev|);
        }
      }
      di := di + 1;
    }
    assert nodeData[..di] == nodeData;
  }

  /**
   * The closest-datum pick over `contexts`, from the local hit point `hit`;
   * `sqrt` stands for the square root of the final distance.
   */
  method PickNodeClosestDatum(contexts: seq<Context>, xAxis: Option<Axis>, yAxis: Option<Axis>,
                              hit: Coord, sqrt: real -> real) returns (r: Option<PickMatch>)
    ensures r.None? <==> forall j :: 0 <= j < |AllNodeData(contexts)| ==> !PickInRange(xAxis, yAxis, AllNodeData(contexts)[j])
    ensures r.Some? ==> exists k :: (IsClosestAt(AllNodeData(contexts), k, xAxis, yAxis, hit)
      && AllNodeData(contexts)[k] == r.value.datum
      && r.value.distance == Max(sqrt(SquaredDistance(hit, r.value.datum)) - MarkerSize(r.value.datum), 0.0))
    ensures r.Some? ==> r.value.distance >= 0.0
  {
    var minDistance := Infinity;
    var closestDatum: Option<NodeDatum> := None;
    ghost var best: Option<nat> := None;
    var ci := 0;
    while ci < |contexts|
      invariant 0 <= ci <= |contexts|
      invariant ClosestState(AllNodeData(contexts[..ci]), xAxis, yAxis, hit, best, minDistance, closestDatum)
    {
      AllNodeDataStep(contexts, ci);
      best, minDistance, closestDatum :=
        ScanNodesClosest(contexts[ci].nodeData, xAxis, yAxis, hit, AllNodeData(contexts[..ci]), best, minDistance, closestDatum);
      ci := ci + 1;
    }
    assert contexts[..ci] == contexts;
    ghost var all := AllNodeData(contexts);
    ClosestOutcome(all, xAxis, yAxis, hit, best, minDistance, closestDatum);
    if closestDatum.Some? {
      var d := closestDatum.value;
      r := Some(PickMatch(d, Max(sqrt(SquaredDistance(hit, d)) - MarkerSize(d), 0.0)));
      ghost var k := best.value;
      assert IsClosestAt(all, k, xAxis, yAxis, hit) && all[k] == r.value.datum
        && r.value.distance == Max(sqrt(SquaredDistance(hit, all[k])) - MarkerSize(all[k]), 0.0);
    } else {
      r := None;
    }
  }

  // ---------------------------------------------------------------------------
  // Main axis first

  /** The directions of the category axes among the x- and y-axis, in that order. */
  function CategoryDirections(xAxis: Option<Axis>, yAxis: Option<Axis>): (r: seq<Direction>)
    ensures |r| <= 2
    ensures r == [] <==> !(xAxis.Some? && xAxis.value.isCategory) && !(yAxis.Some? && yAxis.value.isCategory)
    ensures xAxis.Some? && xAxis.value.isCategory ==> r[0] == xAxis.value.direction
  {
    (if xAxis.Some? && xAxis.value.isCategory then [xAxis.value.direction] else [])
    + (if yAxis.Some? && yAxis.value.isCategory then [yAxis.value.direction] else [])
  }

  /** The first category axis' direction, defaulting to X. */
  function PrimaryDirection(xAxis: Option<Axis>, yAxis: Option<Axis>): (d: Direction)
    ensures xAxis.Some? && xAxis.value.isCategory ==> d == xAxis.value.direction
    ensures !(xAxis.Some? && xAxis.value.isCategory) && yAxis.Some? && yAxis.value.isCategory ==> d == yAxis.value.direction
    ensures !(xAxis.Some? && xAxis.value.isCategory) && !(yAxis.Some? && yAxis.value.isCategory) ==> d == X
  {
    var directions := CategoryDirections(xAxis, yAxis);
    if |directions| > 0 then directions[0] else X
  }

  /** A coordinate pair, primary axis first. */
  function Ordered(primary: Direction, x: real, y: real): seq<real>
  {
    if primary == X then [x, y] else [y, x]
  }

  /** The per-axis distances of a datum from the hit point, primary axis first. */
  function AxisDistances(primary: Direction, hit: Coord, d: NodeDatum): (r: seq<real>)
    ensures |r| == 2
  {
    var h := Ordered(primary, hit.x, hit.y);
    var p := if d.point.Some? then Ordered(primary, d.point.value.x, d.point.value.y) else [0.0, 0.0];
    [Abs(p[0] - h[0]), Abs(p[1] - h[1])]
  }

  /**
   * The outcome of comparing distances `dist` with the best ones `minD` from
   * component `i` on: a larger component rejects, a smaller one accepts, an
   * equal one defers to the next component; equal throughout accepts.
   */
  function LexFrom(dist: seq<real>, minD: seq<Extended>, i: nat): bool
    requires |dist| == |minD| && i <= |dist|
    decreases |dist| - i
  {
    if i == |dist| then true
    else if Above(dist[i], minD[i]) then false
    else if Below(dist[i], minD[i]) then true
    else LexFrom(dist, minD, i + 1)
  }

  function Finites(s: seq<real>): (r: seq<Extended>)
    ensures |r| == |s|
  {
    seq(|s|, i requires 0 <= i < |s| => Finite(s[i]))
  }

  function Infinities(n: nat): (r: seq<Extended>)
    ensures |r| == n
  {
    seq(n, i => Infinity)
  }

  /**
   * The inner comparison loop of the main-axis-first pick: it accepts the
   * candidate exactly when its distances are lexicographically no larger
   * than the best so far, and then the best become the candidate's.
   */
  method CompareDistances(dist: seq<real>, minDistance: seq<Extended>) returns (newMinDistance: bool, m: seq<Extended>)
    requires |dist| == |minDistance|
    ensures newMinDistance == LexFrom(dist, minDistance, 0)
    ensures m == if newMinDistance then Finites(dist) else minDistance
  {
    m := minDistance;
    newMinDistance := true;
    ghost var improved := false;
    var i := 0;
    while i < |dist|
      invariant 0 <= i <= |dist| && |m| == |dist|
      invariant newMinDistance
      invariant !improved ==> m == minDistance
      invariant !improved ==> forall k :: 0 <= k < i ==> minDistance[k] == Finite(dist[k])
      invariant !improved ==> LexFrom(dist, minDistance, 0) == LexFrom(dist, minDistance, i)
      invariant improved ==> LexFrom(dist, minDistance, 0)
      invariant improved ==> forall k :: 0 <= k < i ==> m[k] == Finite(dist[k])
      invariant improved ==> forall k :: i <= k < |m| ==> m[k] == Infinity
    {
      if Above(dist[i], m[i]) {
        newMinDistance := false;
        break;
      }
      if Below(dist[i], m[i]) {
        m := m[i := Finite(dist[i])];
        m := m[..i + 1] + Infinities(|m| - (i + 1));
        improved := true;
      }
      i := i + 1;
    }
    if newMinDistance {
      assert forall k :: 0 <= k < |m| ==> m[k] == Finites(dist)[k];
    }
  }

  /** For two components, the comparison is the lexicographic order of the pairs. */
  lemma LexFromPairs(dist: seq<real>, best: seq<real>)
    requires |dist| == 2 && |best| == 2
    ensures LexFrom(dist, Finites(best), 0)
            <==> dist[0] < best[0] || (dist[0] == best[0] && dist[1] <= best[1])
  {
    var m := Finites(best);
    assert LexFrom(dist, m, 1) == (dist[1] <= best[1]) by {
      assert LexFrom(dist, m, 2);
    }
  }

  lemma LexFromInfinities(dist: seq<real>)
    requires |dist| == 2
    ensures LexFrom(dist, [Infinity, Infinity], 0)
  {
  }

  datatype AxisScan = AxisScan(best: Option<nat>, minDistance: seq<Extended>)

  /** The state of the main-axis-first scan after the data `ds`. */
  function ScanMainAxis(ds: seq<NodeDatum>, xAxis: Option<Axis>, yAxis: Option<Axis>,
                        primary: Direction, hit: Coord): (s: AxisScan)
    ensures |s.minDistance| == 2
    ensures s.best.Some? ==> s.best.value < |ds|
    decreases |ds|
  {
    if ds == [] then AxisScan(None, [Infinity, Infinity])
    else
      var s := ScanMainAxis(ds[..|ds| - 1], xAxis, yAxis, primary, hit);
      var d := ds[|ds| - 1];
      if !PickInRange(xAxis, yAxis, d) then s
      else
        var dist := AxisDistances(primary, hit, d);
        if LexFrom(dist, s.minDistance, 0) then AxisScan(Some(|ds| - 1), Finites(dist)) else s
  }

  function PrimaryDistance(primary: Direction, hit: Coord, d: NodeDatum): real
  {
    AxisDistances(primary, hit, d)[0]
  }

  function SecondaryDistance(primary: Direction, hit: Coord, d: NodeDatum): real
  {
    AxisDistances(primary, hit, d)[1]
  }

  /** The squared length of the per-axis distance vector. */
  function SquaredAxisDistance(primary: Direction, hit: Coord, d: NodeDatum): real
  {
    Hypot2(PrimaryDistance(primary, hit, d), SecondaryDistance(primary, hit, d))
  }

  function Hypot2(a: real, b: real): real { a * a + b * b }

  /** `a` is no farther than `b`: primary distance first, then secondary. */
  ghost predicate NoFarther(primary: Direction, hit: Coord, a: NodeDatum, b: NodeDatum)
  {
    PrimaryDistance(primary, hit, a) < PrimaryDistance(primary, hit, b)
    || (PrimaryDistance(primary, hit, a) == PrimaryDistance(primary, hit, b)
        && SecondaryDistance(primary, hit, a) <= SecondaryDistance(primary, hit, b))
  }

  /**
   * `ds[k]` is in range, lexicographically no farther than any in-range
   * datum, and strictly nearer than every in-range datum after it (on a
   * full tie the later datum wins).
   */
  ghost predicate IsMainAxisBestAt(ds: seq<NodeDatum>, k: int, xAxis: Option<Axis>, yAxis: Option<Axis>,
                                   primary: Direction, hit: Coord)
  {
    && 0 <= k < |ds|
    && PickInRange(xAxis, yAxis, ds[k])
    && (forall j :: 0 <= j < |ds| && PickInRange(xAxis, yAxis, ds[j]) ==> NoFarther(primary, hit, ds[k], ds[j]))
    && (forall j :: k < j < |ds| && PickInRange(xAxis, yAxis, ds[j]) ==> !NoFarther(primary, hit, ds[j], ds[k]))
  }

  lemma {:induction false} ScanMainAxisIsBest(ds: seq<NodeDatum>, xAxis: Option<Axis>, yAxis: Option<Axis>,
                                              primary: Direction, hit: Coord)
    ensures var s := ScanMainAxis(ds, xAxis, yAxis, primary, hit);
      && (s.best.None? <==> forall j :: 0 <= j < |ds| ==> !PickInRange(xAxis, yAxis, ds[j]))
      && (s.best.None? ==> s.minDistance == [Infinity, Infinity])
      && (s.best.Some? ==> IsMainAxisBestAt(ds, s.best.value, xAxis, yAxis, primary, hit)
                           && s.minDistance == Finites(AxisDistances(primary, hit, ds[s.best.value])))
    decreases |ds|
  {
    if ds != [] {
      var init := ds[..|ds| - 1];
      var d := ds[|ds| - 1];
      ScanMainAxisIsBest(init, xAxis, yAxis, primary, hit);
      assert forall j :: 0 <= j < |init| ==> ds[j] == init[j];
      var s := ScanMainAxis(init, xAxis, yAxis, primary, hit);
      if PickInRange(xAxis, yAxis, d) {
        var dist := AxisDistances(primary, hit, d);
        if s.best.None? {
          LexFromInfinities(dist);
        } else {
          LexFromPairs(dist, AxisDistances(primary, hit, ds[s.best.value]));
        }
      }
    }
  }

  lemma ScanMainAxisSnoc(seen: seq<NodeDatum>, d: NodeDatum, xAxis: Option<Axis>, yAxis: Option<Axis>,
                         primary: Direction, hit: Coord)
    ensures var s := ScanMainAxis(seen, xAxis, yAxis, primary, hit);
      var dist := AxisDistances(primary, hit, d);
      ScanMainAxis(seen + [d], xAxis, yAxis, primary, hit)
      == if PickInRange(xAxis, yAxis, d) && LexFrom(dist, s.minDistance, 0)
         then AxisScan(Some(|seen|), Finites(dist)) else s
  {
    assert (seen + [d])[..|seen|] == seen;
  }

  ghost predicate MainAxisState(seen: seq<NodeDatum>, xAxis: Option<Axis>, yAxis: Option<Axis>, primary: Direction,
                                hit: Coord, best: Option<nat>, minDistance: seq<Extended>, closestDatum: Option<NodeDatum>)
  {
    && ScanMainAxis(seen, xAxis, yAxis, primary, hit) == AxisScan(best, minDistance)
    && (best.Some? ==> best.value < |seen| && closestDatum == Some(seen[best.value]))
    && (best.None? ==> closestDatum.None?)
  }

  /** The inner loop of the main-axis-first pick: one context's node data. */
  method ScanNodesMainAxis(nodeData: seq<NodeDatum>, xAxis: Option<Axis>, yAxis: Option<Axis>, primary: Direction,
                           hit: Coord, ghost seen: seq<NodeDatum>, ghost best: Option<nat>,
                           minDistance: seq<Extended>, closestDatum: Option<NodeDatum>)
    returns (ghost best': Option<nat>, minDistance': seq<Extended>, closestDatum': Option<NodeDatum>)
    requires MainAxisState(seen, xAxis, yAxis, primary, hit, best, minDistance, closestDatum)
    ensures MainAxisState(seen + nodeData, xAxis, yAxis, primary, hit, best', minDistance', closestDatum')
  {
    best', minDistance', closestDatum' := best, minDistance, closestDatum;
    var di := 0;
    assert seen + nodeData[..di] == seen;
    while di < |nodeData|
      invariant 0 <= di <= |nodeData|
      invariant MainAxisState(seen + nodeData[..di], xAxis, yAxis, primary, hit, best', minDistance', closestDatum')
    {
      var datum := nodeData[di];
      ghost var prev := seen + nodeData[..di];
      assert seen + nodeData[..di + 1] == prev + [datum];
      ScanMainAxisSnoc(prev, datum, xAxis, yAxis, primary, hit);
      if PickInRange(xAxis, yAxis, datum) {
        var dist := AxisDistances(primary, hit, datum);
        var newMinDistance;
        newMinDistance, minDistance' := CompareDistances(dist, minDistance');
        if newMinDistance {
          closestDatum' := Some(datum);
          best' := Some(|prev|);
        }
      }
      di := di + 1;
    }
    assert nodeData[..di] == nodeData;
  }

  /**
   * The main-axis-first pick: the nearest datum along the primary axis,
   * ties broken by the secondary axis. With `requireCategoryAxis` and no
   * category axis there is no match.
   */
  method PickNodeMainAxisFirst(contexts: seq<Context>, xAxis: Option<Axis>, yAxis: Option<Axis>,
                               hit: Coord, requireCategoryAxis: bool, sqrt: real -> real)
    returns (r: Option<PickMatch>)
    ensures requireCategoryAxis && CategoryDirections(xAxis, yAxis) == [] ==> r.None?
    ensures !(requireCategoryAxis && CategoryDirections(xAxis, yAxis) == []) ==>
      (r.None? <==> forall j :: 0 <= j < |AllNodeData(contexts)| ==> !PickInRange(xAxis, yAxis, AllNodeData(contexts)[j]))
    ensures r.Some? ==>
      exists k :: (IsMainAxisBestAt(AllNodeData(contexts), k, xAxis, yAxis, PrimaryDirection(xAxis, yAxis), hit)
        && AllNodeData(contexts)[k] == r.value.datum
        && r.value.distance
           == Max(sqrt(SquaredAxisDistance(PrimaryDirection(xAxis, yAxis), hit, r.value.datum)) - MarkerSize(r.value.datum), 0.0))
    ensures r.Some? ==> r.value.distance >= 0.0
  {
    var directions := CategoryDirections(xAxis, yAxis);
    if requireCategoryAxis && |directions| == 0 {
      return None;
    }
    var primaryDirection := if |directions| > 0 then directions[0] else X;
    assert primaryDirection == PrimaryDirection(xAxis, yAxis);
    var minDistance := [Infinity, Infinity];
    var closestDatum: Option<NodeDatum> := None;
    ghost var best: Option<nat> := None;
    var ci := 0;
    while ci < |contexts|
      invariant 0 <= ci <= |contexts|
      invariant MainAxisState(AllNodeData(contexts[..ci]), xAxis, yAxis, primaryDirection, hit, best, minDistance, closestDatum)
    {
      AllNodeDataStep(contexts, ci);
      best, minDistance, closestDatum :=
        ScanNodesMainAxis(contexts[ci].nodeData, xAxis, yAxis, primaryDirection, hit,
                          AllNodeData(contexts[..ci]), best, minDistance, closestDatum);
      ci := ci + 1;
    }
    assert contexts[..ci] == contexts;
    ghost var all := AllNodeData(contexts);
    MainAxisOutcome(all, xAxis, yAxis, primaryDirection, hit, best, minDistance, closestDatum);
    if closestDatum.Some? {
      var d := closestDatum.value;
      var m0 := minDistance[0].v;
      var m1 := minDistance[1].v;
      var squared := Hypot2(m0, m1);
      r := Some(PickMatch(d, Max(sqrt(squared) - MarkerSize(d), 0.0)));
      ghost var k := best.value;
      assert squared == SquaredAxisDistance(primaryDirection, hit, all[k]);
      assert IsMainAxisBestAt(all, k, xAxis, yAxis, primaryDirection, hit) && all[k] == r.value.datum
          && r.value.distance == Max(sqrt(SquaredAxisDistance(primaryDirection, hit, all[k])) - MarkerSize(all[k]), 0.0);
    } else {
      r := None;
    }
  }

  /** What the main-axis scan state says once every datum has been seen. */
  lemma MainAxisOutcome(all: seq<NodeDatum>, xAxis: Option<Axis>, yAxis: Option<Axis>, primary: Direction, hit: Coord,
                        best: Option<nat>, minDistance: seq<Extended>, closestDatum: Option<NodeDatum>)
    requires MainAxisState(all, xAxis, yAxis, primary, hit, best, minDistance, closestDatum)
    ensures closestDatum.None? <==> forall j :: 0 <= j < |all| ==> !PickInRange(xAxis, yAxis, all[j])
    ensures closestDatum.Some? ==>
      && best.Some? && IsMainAxisBestAt(all, best.value, xAxis, yAxis, primary, hit)
      && all[best.value] == closestDatum.value
      && |minDistance| == 2 && minDistance[0] == Finite(PrimaryDistance(primary, hit, closestDatum.value))
      && minDistance[1] == Finite(SecondaryDistance(primary, hit, closestDatum.value))
  {
    ScanMainAxisIsBest(all, xAxis, yAxis, primary, hit);
  }

  // ---------------------------------------------------------------------------
  // Exact shape

  /** The datum hit in one sub-group: its pick group first, then (if picked) its marker group. */
  function SubGroupHit(sg: SubGroup, markerGroupIncluded: bool, pickNode: NodeId -> Option<NodeDatum>): Option<NodeDatum>
  {
    match pickNode(sg.pickGroup.node)
    case Some(d) => Some(d)
    case None =>
      if markerGroupIncluded && sg.markerGroup.Some? then pickNode(sg.markerGroup.value.node) else None
  }

  /**
   * The exact-shape pick: the base class' match if there is one, otherwise
   * the first sub-group, in pool order, whose containers are hit.
   * `pickNode` answers the scene's hit test at the pointer position.
   */
  method PickNodeExactShape(baseMatch: Option<PickMatch>, subGroups: seq<SubGroup>,
                            pickGroupIncludes: seq<PickGroupInclude>, pickNode: NodeId -> Option<NodeDatum>)
    returns (r: Option<PickMatch>)
    ensures baseMatch.Some? ==> r == baseMatch
    ensures baseMatch.None? ==>
      (r.None? <==> forall i :: 0 <= i < |subGroups| ==> SubGroupHit(subGroups[i], MarkerNodes in pickGroupIncludes, pickNode).None?)
    ensures baseMatch.None? && r.Some? ==> r.value.distance == 0.0
    ensures baseMatch.None? && r.Some? ==>
      exists i :: 0 <= i < |subGroups|
        && SubGroupHit(subGroups[i], MarkerNodes in pickGroupIncludes, pickNode) == Some(r.value.datum)
        && forall j :: 0 <= j < i ==> SubGroupHit(subGroups[j], MarkerNodes in pickGroupIncludes, pickNode).None?
  {
    if baseMatch.Some? {
      return baseMatch;
    }
    var markerGroupIncluded := MarkerNodes in pickGroupIncludes;
    var i := 0;
    while i < |subGroups|
      invariant 0 <= i <= |subGroups|
      invariant forall j :: 0 <= j < i ==> SubGroupHit(subGroups[j], markerGroupIncluded, pickNode).None?
    {
      var sg := subGroups[i];
      var match_ := pickNode(sg.pickGroup.node);
      if match_.None? && markerGroupIncluded && sg.markerGroup.Some? {
        match_ := pickNode(sg.markerGroup.value.node);
      }
      if match_.Some? {
        return Some(PickMatch(match_.value, 0.0));
      }
      i := i + 1;
    }
    return None;
  }

  // ---------------------------------------------------------------------------
  // Highlight label

  /** A label belongs to the highlighted item: same source record and same item id. */
  predicate LabelMatches(ld: LabelDatum, item: NodeDatum)
  {
    ld.datum == item.datum && ld.itemId == item.itemId
  }

  /** The first matching label of a sequence (`Array.prototype.find`). */
  function FindLabel(labels: seq<LabelDatum>, item: NodeDatum): (r: Option<LabelDatum>)
    ensures r.Some? ==> r.value in labels && LabelMatches(r.value, item)
    ensures labels != [] && LabelMatches(labels[0], item) ==> r == Some(labels[0])
    decreases |labels|
  {
    if labels == [] then None
    else if LabelMatches(labels[0], item) then Some(labels[0])
    else FindLabel(labels[1..], item)
  }

  lemma {:induction false} FindLabelIsFirstMatch(labels: seq<LabelDatum>, item: NodeDatum)
    ensures FindLabel(labels, item).None? <==> forall j :: 0 <= j < |labels| ==> !LabelMatches(labels[j], item)
    ensures FindLabel(labels, item).Some? ==>
      exists k :: 0 <= k < |labels| && labels[k] == FindLabel(labels, item).value && LabelMatches(labels[k], item)
        && forall j :: 0 <= j < k ==> !LabelMatches(labels[j], item)
    decreases |labels|
  {
    if labels != [] && !LabelMatches(labels[0], item) {
      var rest := labels[1..];
      FindLabelIsFirstMatch(rest, item);
      assert forall j :: 1 <= j < |labels| ==> labels[j] == rest[j - 1];
      if FindLabel(rest, item).Some? {
        var k :| 0 <= k < |rest| && rest[k] == FindLabel(rest, item).value && LabelMatches(rest[k], item)
                 && forall j :: 0 <= j < k ==> !LabelMatches(rest[j], item);
        assert labels[k + 1] == rest[k];
      }
    }
  }

  lemma {:induction false} FindLabelConcat(a: seq<LabelDatum>, b: seq<LabelDatum>, item: NodeDatum)
    ensures FindLabel(a + b, item) == if FindLabel(a, item).Some? then FindLabel(a, item) else FindLabel(b, item)
    decreases |a|
  {
    if a == [] {
      assert a + b == b;
    } else {
      assert (a + b)[0] == a[0];
      assert (a + b)[1..] == a[1..] + b;
      FindLabelConcat(a[1..], b, item);
    }
  }

  /**
   * The label of the highlighted item: contexts are scanned in order and
   * the first label that matches is taken.
   */
  method FindHighlightLabel(contexts: seq<Context>, item: NodeDatum) returns (labelItem: Option<LabelDatum>)
    ensures labelItem == FindLabel(AllLabelData(contexts), item)
  {
    labelItem := None;
    var ci := 0;
    while ci < |contexts|
      invariant 0 <= ci <= |contexts|
      invariant labelItem.None? && FindLabel(AllLabelData(contexts[..ci]), item).None?
    {
      labelItem := FindLabel(contexts[ci].labelData, item);
      AllLabelDataStep(contexts, ci);
      FindLabelConcat(AllLabelData(contexts[..ci]), contexts[ci].labelData, item);
      if labelItem.Some? {
        AllLabelDataPrefix(contexts, ci + 1);
        var front := AllLabelData(contexts[..ci + 1]);
        var all := AllLabelData(contexts);
        assert all == front + all[|front|..];
        FindLabelConcat(front, all[|front|..], item);
        return;
      }
      ci := ci + 1;
    }
    assert contexts[..ci] == contexts;
  }
}
