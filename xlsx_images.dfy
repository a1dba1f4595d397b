/**
 * Images placed in exported cells: the default anchor position and the
 * clipping of an image to the columns and rows it spans.
 */
module XlsxImages {
  import opened Options

  // ---------------------------------------------------------------------------
  // Data model

  /** A grid column as the exporter sees it: its id and its rendered width. */
  datatype Column = Column(colId: string, actualWidth: int)

  datatype ImageType = Jpg | Png | Gif

  /** Where an image is anchored; every field may be left unset. */
  datatype ImagePosition = ImagePosition(
    row: Option<int>,
    rowSpan: Option<int>,
    column: Option<int>,
    colSpan: Option<int>,
    offsetX: Option<int>,
    offsetY: Option<int>)

  const EmptyPosition := ImagePosition(None, None, None, None, None, None)

  /** The fields of an image that the exporter reads and writes. */
  datatype ImageState = ImageState(
    width: Option<int>,
    height: Option<int>,
    position: Option<ImagePosition>,
    totalWidth: Option<int>,
    totalHeight: Option<int>)

  /** An image returned for a cell. The exporter updates it in place. */
  class ExcelImage {
    const id: string
    const imageType: ImageType
    var width: Option<int>
    var height: Option<int>
    var position: Option<ImagePosition>
    var totalWidth: Option<int>
    var totalHeight: Option<int>

    function State(): ImageState
      reads this
    {
      ImageState(width, height, position, totalWidth, totalHeight)
    }

    constructor(id: string, imageType: ImageType, width: Option<int>, height: Option<int>, position: Option<ImagePosition>)
      ensures this.id == id && this.imageType == imageType
      ensures State() == ImageState(width, height, position, None, None)
    {
      this.id := id;
      this.imageType := imageType;
      this.width := width;
      this.height := height;
      this.position := position;
      this.totalWidth := None;
      this.totalHeight := None;
    }
  }

  /** JavaScript truthiness of an optional number: unset and 0 are falsy. */
  predicate Truthy(n: Option<int>)
  {
    n.Some? && n.value != 0
  }

  // ---------------------------------------------------------------------------
  // Default position

  /** `Array.prototype.indexOf`: the first index holding `x`, or -1. */
  function IndexOf<T(==)>(s: seq<T>, x: T): (r: int)
    ensures -1 <= r < |s|
    ensures r == -1 <==> x !in s
    ensures 0 <= r ==> s[r] == x && forall j :: 0 <= j < r ==> s[j] != x
  {
    if |s| == 0 then -1
    else if s[0] == x then 0
    else var k := IndexOf(s[1..], x); if k == -1 then -1 else k + 1
  }

  /**
   * An image without a position, or whose row or column is falsy, is anchored
   * at the cell it was returned for (1-based column); its other position
   * fields are kept.
   */
  function DefaultPosition(st: ImageState, rowIndex: int, col: Column, columnsToExport: seq<Column>): (r: ImageState)
    ensures r.position.Some? && r.position.value.row.Some? && r.position.value.column.Some?
    ensures r.(position := st.position) == st
    ensures st.position.Some? && Truthy(st.position.value.row) && Truthy(st.position.value.column) ==> r == st
    ensures st.position.None? || !Truthy(st.position.value.row) || !Truthy(st.position.value.column) ==>
      r.position.value.row == Some(rowIndex)
      && r.position.value.column == Some(IndexOf(columnsToExport, col) + 1)
      && r.position.value.(row := EmptyPosition.row, column := EmptyPosition.column)
         == st.position.GetOr(EmptyPosition).(row := EmptyPosition.row, column := EmptyPosition.column)
  {
    if st.position.None? || !Truthy(st.position.value.row) || !Truthy(st.position.value.column) then
      st.(position := Some(st.position.GetOr(EmptyPosition).(
        row := Some(rowIndex),
        column := Some(IndexOf(columnsToExport, col) + 1))))
    else st
  }

  // ---------------------------------------------------------------------------
  // Running totals

  /** The sum of a list of sizes. */
  function Sum(s: seq<int>): int
  {
    if s == [] then 0 else Sum(s[..|s| - 1]) + s[|s| - 1]
  }

  lemma SumSnoc(s: seq<int>, i: nat)
    requires i < |s|
    ensures Sum(s[..i + 1]) == Sum(s[..i]) + s[i]
  {
    assert s[..i + 1][..i] == s[..i];
  }

  /** The running total of `sizes` once element `j` is counted. */
  function RunningTotal(sizes: seq<int>, j: nat): int
    requires j < |sizes|
  {
    Sum(sizes[..j + 1])
  }

  /** The scan of the clipping loops, from index `i` with running total `total`. */
  function FirstOverFrom(limit: int, sizes: seq<int>, i: nat, total: int): Option<nat>
    requires i <= |sizes|
    decreases |sizes| - i
  {
    if i == |sizes| then None
    else if limit < total + sizes[i] then Some(i)
    else FirstOverFrom(limit, sizes, i + 1, total + sizes[i])
  }

  lemma {:induction false} FirstOverFromSpec(limit: int, sizes: seq<int>, i: nat, total: int)
    requires i <= |sizes| && total == Sum(sizes[..i])
    requires forall j :: 0 <= j < i ==> RunningTotal(sizes, j) <= limit
    ensures FirstOverFrom(limit, sizes, i, total).Some? ==>
      FirstOverFrom(limit, sizes, i, total).value < |sizes|
      && limit < RunningTotal(sizes, FirstOverFrom(limit, sizes, i, total).value)
      && forall j :: 0 <= j < FirstOverFrom(limit, sizes, i, total).value ==> RunningTotal(sizes, j) <= limit
    ensures FirstOverFrom(limit, sizes, i, total).None? ==>
      forall j :: 0 <= j < |sizes| ==> RunningTotal(sizes, j) <= limit
    decreases |sizes| - i
  {
    if i < |sizes| {
      SumSnoc(sizes, i);
      if total + sizes[i] <= limit {
        FirstOverFromSpec(limit, sizes, i + 1, total + sizes[i]);
      }
    }
  }

  /** One step of a scan: either index `i` is the first over, or the scan moves on. */
  lemma ScanStep(limit: int, sizes: seq<int>, i: nat, total: int)
    requires i < |sizes| && total == Sum(sizes[..i])
    ensures limit < total + sizes[i] ==> FirstOverFrom(limit, sizes, i, total) == Some(i)
    ensures total + sizes[i] <= limit ==>
      total + sizes[i] == Sum(sizes[..i + 1])
      && FirstOverFrom(limit, sizes, i, total) == FirstOverFrom(limit, sizes, i + 1, total + sizes[i])
  {
    SumSnoc(sizes, i);
  }

  /**
   * The first index at which the running total of `sizes` exceeds `limit`:
   * every earlier running total is at most `limit`. `None` when no running
   * total exceeds it.
   */
  function FirstOver(limit: int, sizes: seq<int>): (r: Option<nat>)
    ensures r.Some? ==>
      r.value < |sizes|
      && limit < RunningTotal(sizes, r.value)
      && forall j :: 0 <= j < r.value ==> RunningTotal(sizes, j) <= limit
    ensures r.None? ==> forall j :: 0 <= j < |sizes| ==> RunningTotal(sizes, j) <= limit
  {
    FirstOverFromSpec(limit, sizes, 0, 0);
    FirstOverFrom(limit, sizes, 0, 0)
  }

  /** The remainder at a cut lies below the size of the element that was cut. */
  lemma CutRemainder(limit: int, sizes: seq<int>, i: nat)
    requires FirstOver(limit, sizes) == Some(i)
    ensures limit - Sum(sizes[..i]) < sizes[i]
    ensures 0 < i || 0 <= limit ==> 0 <= limit - Sum(sizes[..i])
  {
    SumSnoc(sizes, i);
    if 0 < i {
      assert RunningTotal(sizes, i - 1) <= limit;
      assert sizes[..(i - 1) + 1] == sizes[..i];
    }
  }

  // ---------------------------------------------------------------------------
  // Width clipping

  /** `Array.prototype.slice` index resolution: negative counts from the end. */
  function SliceIndex(len: nat, k: int): (r: nat)
    ensures r <= len
    ensures 0 <= k ==> r == if k < len then k else len
    ensures k < 0 ==> r == if len + k < 0 then 0 else len + k
  {
    if k < 0 then (if len + k < 0 then 0 else len + k) else if k < len then k else len
  }

  /** `Array.prototype.slice(start, end)`. */
  function JsSlice<T>(s: seq<T>, start: int, end: int): (r: seq<T>)
    ensures |r| <= |s|
    ensures start <= end ==> |r| <= end - start
    ensures 0 <= start <= end <= |s| ==> r == s[start..end]
  {
    var a := SliceIndex(|s|, start);
    var b := SliceIndex(|s|, end);
    if a < b then s[a..b] else []
  }

  /**
   * The widths of the columns an image spans: `colSpan` columns from its
   * 1-based `column`. An unset column makes the bounds NaN and the slice empty.
   */
  function SpanWidths(columns: seq<Column>, column: Option<int>, colSpan: int): (r: seq<int>)
    ensures 0 < colSpan ==> |r| <= colSpan
  {
    if column.None? then []
    else
      var inSpan := JsSlice(columns, column.value - 1, column.value + colSpan - 1);
      seq(|inSpan|, k requires 0 <= k < |inSpan| => inSpan[k].actualWidth)
  }

  /** What `setExcelImageTotalWidth` leaves behind. */
  function ClipWidth(st: ImageState, columnsToExport: seq<Column>): (r: ImageState)
    requires st.position.Some?
    ensures r.height == st.height && r.totalHeight == st.totalHeight
    ensures r.position.Some? && r.position.value.(colSpan := st.position.value.colSpan) == st.position.value
  {
    var pos := st.position.value;
    if !Truthy(st.width) then st
    else if !Truthy(pos.colSpan) then st.(totalWidth := st.width)
    else
      var widths := SpanWidths(columnsToExport, pos.column, pos.colSpan.value);
      match FirstOver(st.width.value, widths)
      case None => st
      case Some(i) =>
        st.(position := Some(pos.(colSpan := Some(i + 1))),
            totalWidth := st.width,
            width := Some(st.width.value - Sum(widths[..i])))
  }

  /** The widths of the columns an image with a column span covers. */
  function ColumnSpanWidths(st: ImageState, columnsToExport: seq<Column>): seq<int>
    requires st.position.Some? && st.position.value.colSpan.Some?
  {
    SpanWidths(columnsToExport, st.position.value.column, st.position.value.colSpan.value)
  }

  /**
   * Nothing changes for a falsy width; without a column span the total
   * width is the width; when no running total of the spanned columns exceeds
   * the width, nothing changes either.
   */
  lemma ClipWidthKeeps(st: ImageState, columnsToExport: seq<Column>, r: ImageState)
    requires st.position.Some? && r == ClipWidth(st, columnsToExport)
    ensures !Truthy(st.width) ==> r == st
    ensures Truthy(st.width) && !Truthy(st.position.value.colSpan) ==> r == st.(totalWidth := st.width)
    ensures Truthy(st.width) && Truthy(st.position.value.colSpan)
      && (forall j :: 0 <= j < |ColumnSpanWidths(st, columnsToExport)| ==>
            RunningTotal(ColumnSpanWidths(st, columnsToExport), j) <= st.width.value)
      ==> r == st
  {
    if Truthy(st.width) && Truthy(st.position.value.colSpan) {
      var cut := FirstOver(st.width.value, ColumnSpanWidths(st, columnsToExport));
      assert cut.Some? ==> st.width.value < RunningTotal(ColumnSpanWidths(st, columnsToExport), cut.value);
    }
  }

  /**
   * When a running total of the spanned columns exceeds the width, the span is
   * cut at the first column where that happens: the new span counts the
   * columns up to that one and is no larger than the old one, the total width
   * keeps the original width, and the new width is what is left inside the
   * last column — less than that column's width, and not negative unless a
   * negative width was clipped at the first column.
   */
  lemma ClipWidthCut(st: ImageState, columnsToExport: seq<Column>, r: ImageState)
    requires st.position.Some? && Truthy(st.width) && Truthy(st.position.value.colSpan)
    requires exists j :: (0 <= j < |ColumnSpanWidths(st, columnsToExport)|
      && st.width.value < RunningTotal(ColumnSpanWidths(st, columnsToExport), j))
    requires r == ClipWidth(st, columnsToExport)
    ensures r.totalWidth == st.width
    ensures r.position.Some? && r.position.value.colSpan.Some?
    ensures 1 <= r.position.value.colSpan.value <= |ColumnSpanWidths(st, columnsToExport)|
    ensures 0 < st.position.value.colSpan.value ==> r.position.value.colSpan.value <= st.position.value.colSpan.value
    ensures st.width.value < RunningTotal(ColumnSpanWidths(st, columnsToExport), r.position.value.colSpan.value - 1)
    ensures forall j :: 0 <= j < r.position.value.colSpan.value - 1 ==>
      RunningTotal(ColumnSpanWidths(st, columnsToExport), j) <= st.width.value
    ensures r.width.Some?
    ensures r.width.value + Sum(ColumnSpanWidths(st, columnsToExport)[..r.position.value.colSpan.value - 1]) == st.width.value
    ensures r.width.value < ColumnSpanWidths(st, columnsToExport)[r.position.value.colSpan.value - 1]
    ensures 1 < r.position.value.colSpan.value || 0 <= st.width.value ==> 0 <= r.width.value
  {
    var widths := ColumnSpanWidths(st, columnsToExport);
    match FirstOver(st.width.value, widths)
    case None =>
      assert false;
    case Some(i) =>
      CutRemainder(st.width.value, widths, i);
  }

  /**
   * The column loop of `setExcelImageTotalWidth`: walks the spanned columns
   * until the running total passes `width`. Returns the index of that column
   * and the total width of the columns before it.
   */
  method ScanColumns(width: int, widths: seq<int>) returns (cut: Option<nat>, covered: int)
    ensures cut == FirstOver(width, widths)
    ensures cut.Some? ==> covered == Sum(widths[..cut.value])
  {
    var totalWidth := 0;
    var i := 0;
    while i < |widths|
      invariant 0 <= i <= |widths|
      invariant totalWidth == Sum(widths[..i])
      invariant FirstOver(width, widths) == FirstOverFrom(width, widths, i, totalWidth)
    {
      var colWidth := widths[i];
      ScanStep(width, widths, i, totalWidth);
      if width < totalWidth + colWidth {
        return Some(i), totalWidth;
      }
      totalWidth := totalWidth + colWidth;
      i := i + 1;
    }
    return None, totalWidth;
  }

  /** The anchoring step of `buildImageMap`, applied to the image in place. */
  method AnchorImage(image: ExcelImage, rowIndex: int, col: Column, columnsToExport: seq<Column>)
    modifies image
    ensures image.State() == DefaultPosition(old(image.State()), rowIndex, col, columnsToExport)
  {
    if image.position.None? || !Truthy(image.position.value.row) || !Truthy(image.position.value.column) {
      image.position := Some(image.position.GetOr(EmptyPosition).(
        row := Some(rowIndex),
        column := Some(IndexOf(columnsToExport, col) + 1)));
    }
  }

  /** `setExcelImageTotalWidth`: clips the image to the columns it spans. */
  method SetExcelImageTotalWidth(image: ExcelImage, columnsToExport: seq<Column>)
    requires image.position.Some?
    modifies image
    ensures image.State() == ClipWidth(old(image.State()), columnsToExport)
  {
    var pos := image.position.value;
    if Truthy(image.width) {
      if Truthy(pos.colSpan) {
        var widths := SpanWidths(columnsToExport, pos.column, pos.colSpan.value);
        var cut, covered := ScanColumns(image.width.value, widths);
        if cut.Some? {
          image.position := Some(pos.(colSpan := Some(cut.value + 1)));
          image.totalWidth := image.width;
          image.width := Some(image.totalWidth.value - covered);
        }
      } else {
        image.totalWidth := image.width;
      }
    }
  }

  // ---------------------------------------------------------------------------
  // Height clipping

  /**
   * The pixel height of a row from its height in points (0 when the row has
   * no height, which counts as 20 points): `floor(pt * 1.33333)`.
   */
  function RowPixels(pt: int): (r: int)
    ensures pt == 0 ==> r == 26
    ensures pt != 0 ==> r as real <= pt as real * 1.33333 < r as real + 1.0
  {
    Scaled(if pt == 0 then 20 else pt)
  }

  /** `Math.floor(h * 1.33333)`, computed exactly. */
  function Scaled(h: int): (r: int)
    ensures r as real <= h as real * 1.33333 < r as real + 1.0
  {
    h * 133333 / 100000
  }

  /**
   * The pixel heights of the rows an image spans: `rowSpan` rows from its
   * `row`. An unset row makes the loop bounds NaN and the list empty.
   */
  function SpanHeights(rowHeightPt: int -> int, row: Option<int>, rowSpan: int): (r: seq<int>)
    ensures |r| == if row.None? || rowSpan < 0 then 0 else rowSpan
  {
    if row.None? || rowSpan < 0 then []
    else seq(rowSpan, k requires 0 <= k < rowSpan => RowPixels(rowHeightPt(row.value + k)))
  }

  lemma SpanHeightsAt(rowHeightPt: int -> int, row: int, rowSpan: int, k: nat)
    requires k < |SpanHeights(rowHeightPt, Some(row), rowSpan)|
    ensures SpanHeights(rowHeightPt, Some(row), rowSpan)[k] == RowPixels(rowHeightPt(row + k))
  {
  }

  /** What `setExcelImageTotalHeight` leaves behind. */
  function ClipHeight(st: ImageState, rowHeightPt: int -> int): (r: ImageState)
    requires st.position.Some?
    ensures r.width == st.width && r.totalWidth == st.totalWidth
    ensures r.position.Some? && r.position.value.(rowSpan := st.position.value.rowSpan) == st.position.value
  {
    var pos := st.position.value;
    if !Truthy(st.height) then st
    else if !Truthy(pos.rowSpan) then st.(totalHeight := st.height)
    else
      var heights := SpanHeights(rowHeightPt, pos.row, pos.rowSpan.value);
      match FirstOver(st.height.value, heights)
      case None => st
      case Some(i) =>
        st.(position := Some(pos.(rowSpan := Some(i + 1))),
            totalHeight := st.height,
            height := Some(st.height.value - Sum(heights[..i])))
  }

  /** The pixel heights of the rows an image with a row span covers. */
  function RowSpanHeights(st: ImageState, rowHeightPt: int -> int): seq<int>
    requires st.position.Some? && st.position.value.rowSpan.Some?
  {
    SpanHeights(rowHeightPt, st.position.value.row, st.position.value.rowSpan.value)
  }

  /**
   * Nothing changes for a falsy height; without a row span the total height
   * is the height; when no running total of the spanned rows exceeds the
   * height, nothing changes either.
   */
  lemma ClipHeightKeeps(st: ImageState, rowHeightPt: int -> int, r: ImageState)
    requires st.position.Some? && r == ClipHeight(st, rowHeightPt)
    ensures !Truthy(st.height) ==> r == st
    ensures Truthy(st.height) && !Truthy(st.position.value.rowSpan) ==> r == st.(totalHeight := st.height)
    ensures Truthy(st.height) && Truthy(st.position.value.rowSpan)
      && (forall j :: 0 <= j < |RowSpanHeights(st, rowHeightPt)| ==>
            RunningTotal(RowSpanHeights(st, rowHeightPt), j) <= st.height.value)
      ==> r == st
  {
    if Truthy(st.height) && Truthy(st.position.value.rowSpan) {
      var cut := FirstOver(st.height.value, RowSpanHeights(st, rowHeightPt));
      assert cut.Some? ==> st.height.value < RunningTotal(RowSpanHeights(st, rowHeightPt), cut.value);
    }
  }

  /**
   * When a running total of the spanned rows exceeds the height, the new row
   * span is one more than the number of rows fully covered and no larger than
   * the old one, the total height keeps the original height, and the new
   * height is what is left inside the last row.
   */
  lemma ClipHeightCut(st: ImageState, rowHeightPt: int -> int, r: ImageState)
    requires st.position.Some? && Truthy(st.height) && Truthy(st.position.value.rowSpan)
    requires exists j :: (0 <= j < |RowSpanHeights(st, rowHeightPt)|
      && st.height.value < RunningTotal(RowSpanHeights(st, rowHeightPt), j))
    requires r == ClipHeight(st, rowHeightPt)
    ensures r.totalHeight == st.height
    ensures r.position.Some? && r.position.value.rowSpan.Some?
    ensures 1 <= r.position.value.rowSpan.value <= st.position.value.rowSpan.value
    ensures forall j :: 0 <= j < r.position.value.rowSpan.value - 1 ==>
      RunningTotal(RowSpanHeights(st, rowHeightPt), j) <= st.height.value
    ensures r.height.Some?
    ensures r.height.value + Sum(RowSpanHeights(st, rowHeightPt)[..r.position.value.rowSpan.value - 1]) == st.height.value
    ensures r.height.value < RowPixels(rowHeightPt(st.position.value.row.value + r.position.value.rowSpan.value - 1))
    ensures 1 < r.position.value.rowSpan.value || 0 <= st.height.value ==> 0 <= r.height.value
  {
    var heights := RowSpanHeights(st, rowHeightPt);
    match FirstOver(st.height.value, heights)
    case None =>
      assert false;
    case Some(i) =>
      CutRemainder(st.height.value, heights, i);
      SpanHeightsAt(rowHeightPt, st.position.value.row.value, st.position.value.rowSpan.value, i);
  }

  /**
   * The row loop of `setExcelImageTotalHeight`: walks the rows from `row`,
   * asking each one's height, until the running total passes `height`.
   * Returns the number of rows fully covered before that and their total.
   */
  method ScanRows(height: int, rowHeightPt: int -> int, row: int, rowSpan: int) returns (cut: Option<nat>, covered: int)
    ensures cut == FirstOver(height, SpanHeights(rowHeightPt, Some(row), rowSpan))
    ensures cut.Some? ==> covered == Sum(SpanHeights(rowHeightPt, Some(row), rowSpan)[..cut.value])
  {
    ghost var heights := SpanHeights(rowHeightPt, Some(row), rowSpan);
    var totalHeight := 0;
    var counter := 0;
    var i := row;
    while i < row + rowSpan
      invariant row <= i && counter == i - row
      invariant counter <= |heights|
      invariant totalHeight == Sum(heights[..counter])
      invariant FirstOver(height, heights) == FirstOverFrom(height, heights, counter, totalHeight)
    {
      var nextRowHeight := RowPixels(rowHeightPt(i));
      SpanHeightsAt(rowHeightPt, row, rowSpan, counter);
      ScanStep(height, heights, counter, totalHeight);
      if height < totalHeight + nextRowHeight {
        return Some(counter), totalHeight;
      }
      totalHeight := totalHeight + nextRowHeight;
      counter := counter + 1;
      i := i + 1;
    }
    return None, totalHeight;
  }

  /** `setExcelImageTotalHeight`: clips the image to the rows it spans. */
  method SetExcelImageTotalHeight(image: ExcelImage, rowHeightPt: int -> int)
    requires image.position.Some?
    modifies image
    ensures image.State() == ClipHeight(old(image.State()), rowHeightPt)
  {
    var pos := image.position.value;
    if Truthy(image.height) {
      if Truthy(pos.rowSpan) {
        if pos.row.Some? {
          var cut, covered := ScanRows(image.height.value, rowHeightPt, pos.row.value, pos.rowSpan.value);
          if cut.Some? {
            image.position := Some(pos.(rowSpan := Some(cut.value + 1)));
            image.totalHeight := image.height;
            image.height := Some(image.totalHeight.value - covered);
          }
        }
      } else {
        image.totalHeight := image.height;
      }
    }
  }
}
