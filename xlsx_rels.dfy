/**
 * The package relationship lists the XLSX factory writes, as lists of
 * records before they are rendered to XML.
 */
module XlsxRels {
  import opened Options
  import opened XlsxText

  datatype Relationship = Relationship(id: string, relType: string, target: string)

  const OfficeDocumentType := "http://schemas.openxmlformats.org/officeDocument/2006/relationships/officeDocument"
  const CorePropertiesType := "http://schemas.openxmlformats.org/package/2006/relationships/metadata/core-properties"
  const WorksheetType := "http://schemas.openxmlformats.org/officeDocument/2006/relationships/worksheet"
  const ThemeType := "http://schemas.openxmlformats.org/officeDocument/2006/relationships/theme"
  const StylesType := "http://schemas.openxmlformats.org/officeDocument/2006/relationships/styles"
  const SharedStringsType := "http://schemas.openxmlformats.org/officeDocument/2006/relationships/sharedStrings"

  /** The relationship id `rId<k>`. */
  function RelId(k: nat): string
  {
    "rId" + Digits(k)
  }

  /** A relationship id is `rId` followed by a decimal that reads back as `k`. */
  lemma RelIdReadsBack(k: nat)
    ensures 3 < |RelId(k)| && RelId(k)[..3] == "rId" && ParseDecimal(RelId(k)[3..]) == Some(k)
  {
    ParseDigits(k);
    assert RelId(k)[3..] == Digits(k);
  }

  /** Different numbers give different relationship ids. */
  lemma RelIdInjective()
    ensures forall a: nat, b: nat :: RelId(a) == RelId(b) ==> a == b
  {
    forall a: nat, b: nat | RelId(a) == RelId(b) ensures a == b {
      assert Digits(a) == RelId(a)[3..];
      assert Digits(b) == RelId(b)[3..];
      DigitsInjective(a, b);
    }
  }

  predicate DistinctIds(rels: seq<Relationship>)
  {
    forall i, j :: 0 <= i < j < |rels| ==> rels[i].id != rels[j].id
  }

  /**
   * `createRels`: the package-level relationships, to the workbook and to the
   * core properties, with distinct ids.
   */
  function PackageRels(): (r: seq<Relationship>)
    ensures |r| == 2 && DistinctIds(r)
    ensures r[0].relType == OfficeDocumentType && r[0].target == "xl/workbook.xml"
    ensures r[1].relType == CorePropertiesType && r[1].target == "docProps/core.xml"
  {
    [Relationship("rId1", OfficeDocumentType, "xl/workbook.xml"),
     Relationship("rId2", CorePropertiesType, "docProps/core.xml")]
  }

  /** The path of the n-th worksheet part (1-based). */
  function SheetTarget(n: nat): string
  {
    "worksheets/sheet" + Digits(n) + ".xml"
  }

  /**
   * A worksheet target is `worksheets/sheet`, a decimal that reads back as
   * `n`, then `.xml`.
   */
  lemma SheetTargetReadsBack(n: nat)
    ensures var t := SheetTarget(n);
      && 20 < |t| && t[..16] == "worksheets/sheet" && t[|t| - 4..] == ".xml"
      && ParseDecimal(t[16..|t| - 4]) == Some(n)
  {
    ParseDigits(n);
    var t := SheetTarget(n);
    assert t[16..|t| - 4] == Digits(n);
  }

  /**
   * `createWorkbookRels(sheetLen)`: one relationship per worksheet, then the
   * theme, the styles and the shared strings. The k-th entry has id
   * `rId<k+1>`, so the ids are `rId1` to `rId<sheetLen+3>` and all distinct.
   */
  function WorkbookRels(sheetLen: nat): (r: seq<Relationship>)
    ensures |r| == sheetLen + 3
    ensures forall k :: 0 <= k < |r| ==> r[k].id == RelId(k + 1)
    ensures DistinctIds(r)
    ensures forall i :: 0 <= i < sheetLen ==> r[i].relType == WorksheetType && r[i].target == SheetTarget(i + 1)
    ensures r[sheetLen].relType == ThemeType && r[sheetLen].target == "theme/theme1.xml"
    ensures r[sheetLen + 1].relType == StylesType && r[sheetLen + 1].target == "styles.xml"
    ensures r[sheetLen + 2].relType == SharedStringsType && r[sheetLen + 2].target == "sharedStrings.xml"
  {
    RelIdInjective();
    var worksheets := seq(sheetLen, i requires 0 <= i < sheetLen => Relationship(RelId(i + 1), WorksheetType, SheetTarget(i + 1)));
    worksheets + [
      Relationship(RelId(sheetLen + 1), ThemeType, "theme/theme1.xml"),
      Relationship(RelId(sheetLen + 2), StylesType, "styles.xml"),
      Relationship(RelId(sheetLen + 3), SharedStringsType, "sharedStrings.xml")]
  }
}
