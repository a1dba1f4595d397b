/**
 * Node data of a Cartesian series: the per-datum records produced by a
 * series' data-transform step, grouped into one context per sub-series,
 * together with the two axis queries the series makes (domain validity and
 * range membership).
 */
module CartesianData {
  import opened Options

  /** A source record. Records are compared by identity; the model names each by a number. */
  type Record = nat

  /** A projected position in the series' local coordinates, with the optional marker size. */
  datatype Point = Point(x: real, y: real, size: Option<real>)

  /** One rendered data point. */
  datatype NodeDatum = NodeDatum(itemId: Option<string>, datum: Option<Record>, point: Option<Point>)

  /** One label entry; it refers back to the source record it labels. */
  datatype LabelDatum = LabelDatum(itemId: Option<string>, datum: Option<Record>)

  /** The node data and label data of one sub-series. */
  datatype Context = Context(itemId: Option<string>, nodeData: seq<NodeDatum>, labelData: seq<LabelDatum>)

  /** A number that may be NaN. */
  datatype Num = NaN | Num(v: real)

  datatype Direction = X | Y

  /**
   * What the series asks of an axis: its direction, whether it is a category
   * axis, and whether a (non-NaN) pixel coordinate lies in its visible range.
   */
  datatype Axis = Axis(direction: Direction, isCategory: bool, inRange: real -> bool)

  /** A point in the series' local coordinate space (the transformed pointer position). */
  datatype Coord = Coord(x: real, y: real)

  /**
   * Whether a domain value is plottable on an axis: continuous axes take
   * continuous values, the others discrete values.
   */
  predicate ValidDomainValue<V>(v: V, continuous: bool, isContinuous: V -> bool, isDiscrete: V -> bool)
  {
    (continuous && isContinuous(v)) || (!continuous && isDiscrete(v))
  }

  /** The pair `[x, y]` when both values are plottable on their axes, otherwise nothing. */
  function CheckDomainXY<V>(x: V, y: V, isContinuousX: bool, isContinuousY: bool,
                            isContinuous: V -> bool, isDiscrete: V -> bool): (r: Option<(V, V)>)
    ensures r.Some? <==> ValidDomainValue(x, isContinuousX, isContinuous, isDiscrete)
                         && ValidDomainValue(y, isContinuousY, isContinuous, isDiscrete)
    ensures r.Some? ==> r.value.0 == x && r.value.1 == y
    ensures isContinuousX && isContinuousY ==> (r.Some? <==> isContinuous(x) && isContinuous(y))
  {
    var isValidDatum :=
      ((isContinuousX && isContinuous(x)) || (!isContinuousX && isDiscrete(x))) &&
      ((isContinuousY && isContinuous(y)) || (!isContinuousY && isDiscrete(y)));
    if isValidDatum then Some((x, y)) else None
  }

  /** Whether a projected pair is a real number pair inside both axes' visible ranges. */
  function CheckRangeXY(x: Num, y: Num, xAxis: Axis, yAxis: Axis): (r: bool)
    ensures r ==> x.Num? && y.Num?
    ensures r <==> x != NaN && y != NaN && xAxis.inRange(x.v) && yAxis.inRange(y.v)
  {
    match (x, y)
    case (Num(a), Num(b)) => xAxis.inRange(a) && yAxis.inRange(b)
    case _ => false
  }

  /**
   * The in-range test of the two distance picks: both axes exist and the
   * datum's point lies in both ranges. A datum without a point has NaN
   * coordinates, which no axis range contains.
   */
  function PickInRange(xAxis: Option<Axis>, yAxis: Option<Axis>, d: NodeDatum): (r: bool)
    ensures r ==> xAxis.Some? && yAxis.Some? && d.point.Some?
  {
    d.point.Some? && xAxis.Some? && yAxis.Some?
    && xAxis.value.inRange(d.point.value.x) && yAxis.value.inRange(d.point.value.y)
  }

  /** The picks' in-range test is the range check applied to the datum's coordinates. */
  lemma PickInRangeIsRangeCheck(xAxis: Axis, yAxis: Axis, d: NodeDatum)
    ensures PickInRange(Some(xAxis), Some(yAxis), d) == CheckRangeXY(DatumXY(d).0, DatumXY(d).1, xAxis, yAxis)
  {
  }

  /** The coordinates a pick reads from a datum, NaN where the point is missing. */
  function DatumXY(d: NodeDatum): (Num, Num)
  {
    match d.point
    case Some(p) => (Num(p.x), Num(p.y))
    case None => (NaN, NaN)
  }

  /** Every node datum of every context, in scan order (context by context). */
  function AllNodeData(cs: seq<Context>): (r: seq<NodeDatum>)
    decreases |cs|
  {
    if cs == [] then [] else AllNodeData(cs[..|cs| - 1]) + cs[|cs| - 1].nodeData
  }

  /** Every label datum of every context, in scan order. */
  function AllLabelData(cs: seq<Context>): (r: seq<LabelDatum>)
    decreases |cs|
  {
    if cs == [] then [] else AllLabelData(cs[..|cs| - 1]) + cs[|cs| - 1].labelData
  }

  /** Taking one more context appends its node data. */
  lemma AllNodeDataStep(cs: seq<Context>, i: nat)
    requires i < |cs|
    ensures AllNodeData(cs[..i + 1]) == AllNodeData(cs[..i]) + cs[i].nodeData
  {
    assert cs[..i + 1][..i] == cs[..i];
  }

  /** Taking one more context appends its label data. */
  lemma AllLabelDataStep(cs: seq<Context>, i: nat)
    requires i < |cs|
    ensures AllLabelData(cs[..i + 1]) == AllLabelData(cs[..i]) + cs[i].labelData
  {
    assert cs[..i + 1][..i] == cs[..i];
  }

  /** The labels of the first `i` contexts are a prefix of all labels. */
  lemma {:induction false} AllLabelDataPrefix(cs: seq<Context>, i: nat)
    requires i <= |cs|
    ensures |AllLabelData(cs[..i])| <= |AllLabelData(cs)|
    ensures AllLabelData(cs[..i]) == AllLabelData(cs)[..|AllLabelData(cs[..i])|]
    decreases |cs|
  {
    if i < |cs| {
      var init := cs[..|cs| - 1];
      assert init[..i] == cs[..i];
      AllLabelDataPrefix(init, i);
      assert AllLabelData(cs) == AllLabelData(init) + cs[|cs| - 1].labelData;
    } else {
      assert cs[..i] == cs;
    }
  }
}
