/**
 * The workbook-wide registry the XLSX exporter keeps while it writes one
 * workbook: unique sheet names, the shared-string table, and the maps that
 * give every image a workbook id and a per-sheet id.
 */
module XlsxFactory {
  import opened Options
  import opened Seqs
  import opened XlsxText
  import opened XlsxImages

  datatype FactoryMode = SingleSheet | MultiSheet

  /** The id an image is known by: its format and its index. */
  datatype ImageId = ImageId(imageType: ImageType, index: nat)

  /** The images with one id placed on one sheet. */
  datatype SheetImages = SheetImages(sheetId: nat, image: seq<ExcelImage>)

  // ---------------------------------------------------------------------------
  // Dense index maps

  /** The indices of a map are exactly 0 .. |m|-1, each used once. */
  predicate Dense<K(==)>(m: map<K, nat>)
  {
    && (forall k :: k in m ==> m[k] < |m|)
    && (forall a, b :: a in m && b in m && a != b ==> m[a] != m[b])
    && (forall i :: 0 <= i < |m| ==> i in m.Values)
  }

  /**
   * Giving a new key the index |m| keeps the map dense, grows it by one and
   * leaves every other index as it was.
   */
  lemma DenseInsert<K>(m: map<K, nat>, k: K)
    requires Dense(m) && k !in m
    ensures |m[k := |m|]| == |m| + 1
    ensures Dense(m[k := |m|])
  {
    var m' := m[k := |m|];
    assert m'.Keys == m.Keys + {k};
    assert |m'| == |m| + 1;
    assert forall x :: x in m ==> m'[x] == m[x];
    assert forall k :: k in m' ==> m'[k] < |m'|;
    forall a, b | a in m' && b in m' && a != b ensures m'[a] != m'[b] {
      if a == k {
        assert m'[b] == m[b] < |m|;
      } else if b == k {
        assert m'[a] == m[a] < |m|;
      } else {
        assert m'[a] == m[a] && m'[b] == m[b];
      }
    }
    forall i | 0 <= i < |m'| ensures i in m'.Values {
      if i < |m| {
        assert i in m.Values;
        var key :| key in m && m[key] == i;
        assert key in m' && m'[key] == i;
      } else {
        assert k in m' && m'[k] == i;
      }
    }
  }

  /** The index part of an image-id map. */
  function Indices(m: map<string, ImageId>): (r: map<string, nat>)
    ensures r.Keys == m.Keys && |r| == |m|
    ensures forall k :: k in m ==> r[k] == m[k].index
  {
    var r := map k | k in m :: m[k].index;
    assert r.Keys == m.Keys;
    r
  }

  /** A new image id gets index |m|, which keeps the indices dense. */
  lemma IndicesInsert(m: map<string, ImageId>, key: string, t: ImageType)
    requires Dense(Indices(m)) && key !in m
    ensures Indices(m[key := ImageId(t, |m|)]) == Indices(m)[key := |m|]
    ensures Dense(Indices(m[key := ImageId(t, |m|)]))
  {
    var n := Indices(m[key := ImageId(t, |m|)]);
    assert n.Keys == Indices(m)[key := |m|].Keys;
    assert forall k :: k in n ==> n[k] == Indices(m)[key := |m|][k];
    DenseInsert(Indices(m), key);
  }

  // ---------------------------------------------------------------------------
  // Image lists

  /** The ids of a list of images. */
  function IdsOf(list: seq<ExcelImage>): set<string>
  {
    set i | 0 <= i < |list| :: list[i].id
  }

  predicate AllWithId(list: seq<ExcelImage>, id: string)
  {
    forall i :: 0 <= i < |list| ==> list[i].id == id
  }

  /**
   * The registry entry of one image id: one non-empty list per sheet, no
   * sheet twice, every image carrying that id.
   */
  predicate RegistryEntry(id: string, entries: seq<SheetImages>)
  {
    && 0 < |entries|
    && (forall i, j :: 0 <= i < j < |entries| ==> entries[i].sheetId != entries[j].sheetId)
    && (forall i :: 0 <= i < |entries| ==> 0 < |entries[i].image| && AllWithId(entries[i].image, id))
  }

  /** `_.find` by sheet: the index of the first entry for `sheetId`, or -1. */
  function FindSheet(entries: seq<SheetImages>, sheetId: nat): (r: int)
    ensures -1 <= r < |entries|
    ensures r == -1 <==> forall i :: 0 <= i < |entries| ==> entries[i].sheetId != sheetId
    ensures 0 <= r ==> entries[r].sheetId == sheetId && forall j :: 0 <= j < r ==> entries[j].sheetId != sheetId
    decreases |entries|
  {
    if entries == [] then -1
    else if entries[0].sheetId == sheetId then 0
    else
      var k := FindSheet(entries[1..], sheetId);
      assert forall i :: 1 <= i < |entries| ==> entries[1..][i - 1] == entries[i];
      if k == -1 then -1 else k + 1
  }

  /** The first entry for a sheet is the one `FindSheet` returns. */
  lemma FindSheetAt(entries: seq<SheetImages>, sheetId: nat, k: nat)
    requires k < |entries| && entries[k].sheetId == sheetId
    requires forall j :: 0 <= j < k ==> entries[j].sheetId != sheetId
    ensures FindSheet(entries, sheetId) == k
  {
    var r := FindSheet(entries, sheetId);
    assert r != -1 by {
      assert entries[k].sheetId == sheetId;
    }
  }

  /**
   * Adds an image to the entry list of its id: onto the first entry for
   * sheet `sheetId` if there is one, else as a new entry at the end.
   */
  function AddToSheet(entries: seq<SheetImages>, sheetId: nat, image: ExcelImage): seq<SheetImages>
  {
    var k := FindSheet(entries, sheetId);
    if k == -1 then entries + [SheetImages(sheetId, [image])]
    else entries[k := entries[k].(image := entries[k].image + [image])]
  }

  /**
   * After adding, the sheet has an entry and its image list ends with the
   * image; a new entry is made only for a sheet that had none, and the
   * entries of other sheets are untouched.
   */
  lemma AddToSheetAppends(entries: seq<SheetImages>, sheetId: nat, image: ExcelImage)
    ensures var r := AddToSheet(entries, sheetId, image);
      && |r| == (if FindSheet(entries, sheetId) == -1 then |entries| + 1 else |entries|)
      && 0 <= FindSheet(r, sheetId)
      && r[FindSheet(r, sheetId)].image != []
      && r[FindSheet(r, sheetId)].image[|r[FindSheet(r, sheetId)].image| - 1] == image
      && forall i :: 0 <= i < |entries| && entries[i].sheetId != sheetId ==> r[i] == entries[i]
  {
    var r := AddToSheet(entries, sheetId, image);
    var k := FindSheet(entries, sheetId);
    if k == -1 {
      FindSheetAt(r, sheetId, |entries|);
    } else {
      FindSheetAt(r, sheetId, k);
    }
  }

  lemma AddToSheetEntry(id: string, entries: seq<SheetImages>, sheetId: nat, image: ExcelImage)
    requires RegistryEntry(id, entries) && image.id == id
    ensures RegistryEntry(id, AddToSheet(entries, sheetId, image))
  {
    var r := AddToSheet(entries, sheetId, image);
    var k := FindSheet(entries, sheetId);
    if k == -1 {
      assert forall i :: 0 <= i < |entries| ==> r[i] == entries[i];
    } else {
      assert AllWithId(r[k].image, id);
    }
  }

  /** The per-sheet registry: a non-empty image list and a dense id map over its ids. */
  predicate SheetRegistry(list: seq<ExcelImage>, ids: map<string, ImageId>)
  {
    0 < |list| && IdsOf(list) == ids.Keys && Dense(Indices(ids))
  }

  /** A sheet's id map after an image is added to it. */
  function AddSheetImageId(ids: map<string, ImageId>, image: ExcelImage): (r: map<string, ImageId>)
    ensures r.Keys == ids.Keys + {image.id}
    ensures image.id in ids ==> r == ids
    ensures image.id !in ids ==> r[image.id] == ImageId(image.imageType, |ids|)
  {
    if image.id in ids then ids else ids[image.id := ImageId(image.imageType, |ids|)]
  }

  /**
   * Adding an image to a sheet keeps its registry consistent: the id map
   * stays dense and an id already present keeps its index.
   */
  lemma AddSheetImage(list: seq<ExcelImage>, ids: map<string, ImageId>, image: ExcelImage)
    requires SheetRegistry(list, ids)
    ensures SheetRegistry(list + [image], AddSheetImageId(ids, image))
    ensures forall id :: id in ids ==> AddSheetImageId(ids, image)[id] == ids[id]
  {
    IdsOfSnoc(list, image);
    if image.id !in ids {
      AddNewSheetImage(list, ids, image);
    }
  }

  /** The case of `AddSheetImage` where the id is new to the sheet. */
  lemma AddNewSheetImage(list: seq<ExcelImage>, ids: map<string, ImageId>, image: ExcelImage)
    requires SheetRegistry(list, ids) && image.id !in ids
    requires IdsOf(list + [image]) == IdsOf(list) + {image.id}
    ensures SheetRegistry(list + [image], ids[image.id := ImageId(image.imageType, |ids|)])
  {
    IndicesInsert(ids, image.id, image.imageType);
  }

  /** Appending an image adds its id to the list's ids. */
  lemma IdsOfSnoc(list: seq<ExcelImage>, image: ExcelImage)
    ensures IdsOf(list + [image]) == IdsOf(list) + {image.id}
  {
    var l := list + [image];
    forall id | id in IdsOf(l) ensures id in IdsOf(list) + {image.id} {
      var i :| 0 <= i < |l| && l[i].id == id;
      if i < |list| {
        assert l[i] == list[i];
      }
    }
    forall id | id in IdsOf(list) + {image.id} ensures id in IdsOf(l) {
      if id == image.id {
        assert l[|list|] == image;
      } else {
        var i :| 0 <= i < |list| && list[i].id == id;
        assert l[i] == list[i];
      }
    }
  }

  lemma FirstSheetImage(image: ExcelImage)
    ensures SheetRegistry([image], map[image.id := ImageId(image.imageType, 0)])
  {
    var ids := map[image.id := ImageId(image.imageType, 0)];
    assert [image][0] == image;
    assert IdsOf([image]) == {image.id};
    assert Indices(ids)[image.id] == 0;
  }

  /** The images of a sheet, empty for a sheet without images. */
  function SheetList(worksheetImages: map<nat, seq<ExcelImage>>, sheetIndex: nat): seq<ExcelImage>
  {
    if sheetIndex in worksheetImages then worksheetImages[sheetIndex] else []
  }

  /** The id map of a sheet, empty for a sheet without images. */
  function SheetIds(worksheetImageIds: map<nat, map<string, ImageId>>, sheetIndex: nat): map<string, ImageId>
  {
    if sheetIndex in worksheetImageIds then worksheetImageIds[sheetIndex] else map[]
  }

  /** Every sheet with images has a consistent per-sheet registry. */
  predicate SheetsValid(worksheetImages: map<nat, seq<ExcelImage>>, worksheetImageIds: map<nat, map<string, ImageId>>)
  {
    && worksheetImages.Keys == worksheetImageIds.Keys
    && (forall s :: s in worksheetImageIds ==> SheetRegistry(worksheetImages[s], worksheetImageIds[s]))
  }

  /** Every registered image id has an entry and a dense workbook index. */
  predicate ImagesValid(images: map<string, seq<SheetImages>>, workbookImageIds: map<string, ImageId>)
  {
    && images.Keys == workbookImageIds.Keys
    && Dense(Indices(workbookImageIds))
    && (forall id :: id in images ==> RegistryEntry(id, images[id]))
  }

  /** Adding an image to a sheet keeps every sheet's registry consistent. */
  lemma AddToSheets(worksheetImages: map<nat, seq<ExcelImage>>, worksheetImageIds: map<nat, map<string, ImageId>>, sheetIndex: nat, image: ExcelImage)
    requires SheetsValid(worksheetImages, worksheetImageIds)
    ensures SheetsValid(
      worksheetImages[sheetIndex := SheetList(worksheetImages, sheetIndex) + [image]],
      worksheetImageIds[sheetIndex := AddSheetImageId(SheetIds(worksheetImageIds, sheetIndex), image)])
    ensures sheetIndex !in worksheetImages ==>
      AddSheetImageId(SheetIds(worksheetImageIds, sheetIndex), image) == map[image.id := ImageId(image.imageType, 0)]
  {
    var list := SheetList(worksheetImages, sheetIndex) + [image];
    var ids := AddSheetImageId(SheetIds(worksheetImageIds, sheetIndex), image);
    if sheetIndex in worksheetImages {
      AddSheetImage(worksheetImages[sheetIndex], worksheetImageIds[sheetIndex], image);
    } else {
      FirstSheetImage(image);
      assert list == [image];
      assert SheetIds(worksheetImageIds, sheetIndex) == map[];
    }
    SheetsValidUpdate(worksheetImages, worksheetImageIds, sheetIndex, list, ids);
  }

  /** Replacing one sheet's registry by a consistent one keeps every sheet consistent. */
  lemma SheetsValidUpdate(worksheetImages: map<nat, seq<ExcelImage>>, worksheetImageIds: map<nat, map<string, ImageId>>,
                          sheetIndex: nat, list: seq<ExcelImage>, ids: map<string, ImageId>)
    requires SheetsValid(worksheetImages, worksheetImageIds) && SheetRegistry(list, ids)
    ensures SheetsValid(worksheetImages[sheetIndex := list], worksheetImageIds[sheetIndex := ids])
  {
  }

  /** Registering an image, new or known, keeps the image registry consistent. */
  lemma RegisterImage(images: map<string, seq<SheetImages>>, workbookImageIds: map<string, ImageId>, sheetId: nat, image: ExcelImage)
    requires ImagesValid(images, workbookImageIds)
    ensures image.id in images ==>
      ImagesValid(images[image.id := AddToSheet(images[image.id], sheetId, image)], workbookImageIds)
    ensures image.id !in images ==>
      ImagesValid(images[image.id := [SheetImages(sheetId, [image])]],
        workbookImageIds[image.id := ImageId(image.imageType, |workbookImageIds|)])
  {
    if image.id in images {
      AddToSheetEntry(image.id, images[image.id], sheetId, image);
      ImagesValidUpdate(images, workbookImageIds, image.id, AddToSheet(images[image.id], sheetId, image));
    } else {
      RegisterNewImage(images, workbookImageIds, sheetId, image);
    }
  }

  /** The case of `RegisterImage` where the id is new to the workbook. */
  lemma RegisterNewImage(images: map<string, seq<SheetImages>>, workbookImageIds: map<string, ImageId>, sheetId: nat, image: ExcelImage)
    requires ImagesValid(images, workbookImageIds) && image.id !in images
    ensures ImagesValid(images[image.id := [SheetImages(sheetId, [image])]],
      workbookImageIds[image.id := ImageId(image.imageType, |workbookImageIds|)])
  {
    IndicesInsert(workbookImageIds, image.id, image.imageType);
    assert RegistryEntry(image.id, [SheetImages(sheetId, [image])]);
  }

  /** Replacing a registered id's entry list by a consistent one keeps the image registry consistent. */
  lemma ImagesValidUpdate(images: map<string, seq<SheetImages>>, workbookImageIds: map<string, ImageId>,
                          id: string, entries: seq<SheetImages>)
    requires ImagesValid(images, workbookImageIds) && id in images && RegistryEntry(id, entries)
    ensures ImagesValid(images[id := entries], workbookImageIds)
  {
  }

  /** A worksheet whose name the factory may change to keep names unique. */
  class Worksheet {
    var name: string

    constructor(name: string)
      ensures this.name == name
    {
      this.name := name;
    }
  }

  // ---------------------------------------------------------------------------
  // The factory

  /** The static state of the XLSX factory, as one object. */
  class ExcelXlsxFactory {
    var sharedStrings: map<string, nat>
    var sheetNames: seq<string>
    /** Image id to the sheets it is placed on. */
    var images: map<string, seq<SheetImages>>
    /** Sheet index to the images placed on it. */
    var worksheetImages: map<nat, seq<ExcelImage>>
    /** Image id to its workbook-wide id. */
    var workbookImageIds: map<string, ImageId>
    /** Sheet index to the per-sheet ids of its images. */
    var worksheetImageIds: map<nat, map<string, ImageId>>
    var factoryMode: FactoryMode

    /** All image bookkeeping, for stating what an operation leaves alone. */
    ghost function ImageMaps(): (map<string, seq<SheetImages>>, map<nat, seq<ExcelImage>>, map<string, ImageId>, map<nat, map<string, ImageId>>)
      reads this
    {
      (images, worksheetImages, workbookImageIds, worksheetImageIds)
    }

    ghost predicate Valid()
      reads this
    {
      && NoDups(sheetNames)
      && Dense(sharedStrings)
      && ImagesValid(images, workbookImageIds)
      && SheetsValid(worksheetImages, worksheetImageIds)
    }

    predicate Empty()
      reads this
    {
      && sharedStrings == map[] && sheetNames == []
      && images == map[] && worksheetImages == map[]
      && workbookImageIds == map[] && worksheetImageIds == map[]
      && factoryMode == SingleSheet
    }

    constructor()
      ensures Valid() && Empty()
    {
      sharedStrings := map[];
      sheetNames := [];
      images := map[];
      worksheetImages := map[];
      workbookImageIds := map[];
      worksheetImageIds := map[];
      factoryMode := SingleSheet;
    }

    /** `resetFactory`: forgets every sheet, string and image. */
    method ResetFactory()
      modifies this
      ensures Valid() && Empty()
    {
      sharedStrings := map[];
      images := map[];
      worksheetImages := map[];
      workbookImageIds := map[];
      worksheetImageIds := map[];
      sheetNames := [];
      factoryMode := SingleSheet;
    }

    /**
     * `addSheetName`: keeps the worksheet's name if no sheet has it yet, else
     * appends `_k` for the smallest k >= 1 that gives an unused name, and
     * records the name.
     */
    method AddSheetName(worksheet: Worksheet)
      requires Valid()
      modifies this, worksheet
      ensures Valid()
      ensures old(worksheet.name) !in old(sheetNames) ==> worksheet.name == old(worksheet.name)
      ensures exists k: nat :: (worksheet.name == old(worksheet.name) + Suffix(k)
        && forall j :: 0 <= j < k ==> old(worksheet.name) + Suffix(j) in old(sheetNames))
      ensures worksheet.name !in old(sheetNames)
      ensures sheetNames == old(sheetNames) + [worksheet.name]
      ensures sharedStrings == old(sharedStrings) && ImageMaps() == old(ImageMaps()) && factoryMode == old(factoryMode)
    {
      var name := worksheet.name;
      var append := "";
      ghost var k: nat := 0;
      while name + append in sheetNames
        modifies {}
        invariant append == Suffix(k)
        invariant forall j :: 0 <= j < k ==> name + Suffix(j) in sheetNames
        invariant k <= |sheetNames|
        decreases |sheetNames| - k
      {
        CandidatesBound(name, sheetNames, k + 1);
        SuffixStep(k);
        if append == "" {
          append := "_1";
        } else {
          var curr := ParseDecimal(append[1..]).value;
          append := "_" + Digits(curr + 1);
        }
        k := k + 1;
      }
      if k == 0 {
        assert name + append == name;
      } else {
        assert name + Suffix(0) in old(sheetNames);
        assert name + Suffix(0) == name;
      }
      worksheet.name := name + append;
      NoDupsAppend(sheetNames, [worksheet.name]);
      sheetNames := sheetNames + [worksheet.name];
    }

    /**
     * `getStringPosition`: the index of a string in the shared-string table,
     * adding it at the end when it is new.
     */
    method GetStringPosition(str: string) returns (index: nat)
      requires Valid()
      modifies this
      ensures Valid()
      ensures str in old(sharedStrings) ==> index == old(sharedStrings)[str] && sharedStrings == old(sharedStrings)
      ensures str !in old(sharedStrings) ==> index == |old(sharedStrings)| && sharedStrings == old(sharedStrings)[str := index]
      ensures sheetNames == old(sheetNames) && ImageMaps() == old(ImageMaps()) && factoryMode == old(factoryMode)
    {
      if str in sharedStrings {
        return sharedStrings[str];
      }
      DenseInsert(sharedStrings, str);
      sharedStrings := sharedStrings[str := |sharedStrings|];
      return |sharedStrings| - 1;
    }

    /**
     * `buildSheetImageMap`: appends the image to its sheet's list; the first
     * image of a sheet gets per-sheet index 0, a new id the size of the
     * sheet's id map, and an id already there keeps its index.
     */
    method BuildSheetImageMap(sheetIndex: nat, image: ExcelImage)
      requires Valid()
      modifies this
      ensures Valid()
      ensures worksheetImages == old(worksheetImages)[sheetIndex := SheetList(old(worksheetImages), sheetIndex) + [image]]
      ensures worksheetImageIds == old(worksheetImageIds)[sheetIndex := AddSheetImageId(SheetIds(old(worksheetImageIds), sheetIndex), image)]
      ensures sheetIndex !in old(worksheetImages) ==> worksheetImageIds[sheetIndex] == map[image.id := ImageId(image.imageType, 0)]
      ensures forall id :: id in SheetIds(old(worksheetImageIds), sheetIndex) ==> worksheetImageIds[sheetIndex][id] == SheetIds(old(worksheetImageIds), sheetIndex)[id]
      ensures sharedStrings == old(sharedStrings) && sheetNames == old(sheetNames) && factoryMode == old(factoryMode)
      ensures images == old(images) && workbookImageIds == old(workbookImageIds)
    {
      AddToSheets(worksheetImages, worksheetImageIds, sheetIndex, image);
      if sheetIndex in worksheetImages {
        AddSheetImage(worksheetImages[sheetIndex], worksheetImageIds[sheetIndex], image);
      }
      var idMap := if sheetIndex in worksheetImageIds then worksheetImageIds[sheetIndex] else map[];
      var sheetImages: seq<ExcelImage>;
      if sheetIndex !in worksheetImages {
        sheetImages := [image];
        idMap := idMap[image.id := ImageId(image.imageType, 0)];
      } else {
        sheetImages := worksheetImages[sheetIndex] + [image];
        if image.id !in idMap {
          idMap := idMap[image.id := ImageId(image.imageType, |idMap|)];
        }
      }
      assert sheetImages == SheetList(worksheetImages, sheetIndex) + [image];
      assert idMap == AddSheetImageId(SheetIds(worksheetImageIds, sheetIndex), image);
      worksheetImages := worksheetImages[sheetIndex := sheetImages];
      worksheetImageIds := worksheetImageIds[sheetIndex := idMap];
    }

    /**
     * The workbook-level registration step of `buildImageMap`: a known id gets
     * the image added to its entry for the sheet; a new id gets a one-entry
     * list and the next workbook index.
     */
    method RegisterWorkbookImage(sheetIndex: nat, image: ExcelImage)
      requires Valid()
      modifies this
      ensures Valid()
      ensures image.id !in old(images) ==>
        images == old(images)[image.id := [SheetImages(sheetIndex, [image])]]
        && workbookImageIds == old(workbookImageIds)[image.id := ImageId(image.imageType, |old(workbookImageIds)|)]
      ensures image.id in old(images) ==>
        images == old(images)[image.id := AddToSheet(old(images)[image.id], sheetIndex, image)]
        && workbookImageIds == old(workbookImageIds)
      ensures worksheetImages == old(worksheetImages) && worksheetImageIds == old(worksheetImageIds)
      ensures sharedStrings == old(sharedStrings) && sheetNames == old(sheetNames) && factoryMode == old(factoryMode)
    {
      RegisterImage(images, workbookImageIds, sheetIndex, image);
      if image.id in images {
        images := images[image.id := AddToSheet(images[image.id], sheetIndex, image)];
      } else {
        images := images[image.id := [SheetImages(sheetIndex, [image])]];
        workbookImageIds := workbookImageIds[image.id := ImageId(image.imageType, |workbookImageIds|)];
      }
    }

    /**
     * `buildImageMap`: anchors the image, clips it to its span, registers it
     * on the sheet at index |sheetNames| (the sheet whose name is added next)
     * and gives it a per-sheet id. An id seen for the first time gets the next workbook
     * index; a known id keeps it.
     */
    method BuildImageMap(image: ExcelImage, rowIndex: int, col: Column, columnsToExport: seq<Column>, rowHeightPt: int -> int)
      requires Valid()
      modifies this, image
      ensures Valid()
      ensures image.State() == ClipHeight(ClipWidth(DefaultPosition(old(image.State()), rowIndex, col, columnsToExport), columnsToExport), rowHeightPt)
      ensures image.id !in old(images) ==>
        images == old(images)[image.id := [SheetImages(|sheetNames|, [image])]]
        && workbookImageIds == old(workbookImageIds)[image.id := ImageId(image.imageType, |old(workbookImageIds)|)]
      ensures image.id in old(images) ==>
        images == old(images)[image.id := AddToSheet(old(images)[image.id], |sheetNames|, image)]
        && workbookImageIds == old(workbookImageIds)
      ensures worksheetImages == old(worksheetImages)[|sheetNames| := SheetList(old(worksheetImages), |sheetNames|) + [image]]
      ensures worksheetImageIds == old(worksheetImageIds)[|sheetNames| := AddSheetImageId(SheetIds(old(worksheetImageIds), |sheetNames|), image)]
      ensures sharedStrings == old(sharedStrings) && sheetNames == old(sheetNames) && factoryMode == old(factoryMode)
    {
      var currentSheetIndex := |sheetNames|;

      AnchorImage(image, rowIndex, col, columnsToExport);
      SetExcelImageTotalWidth(image, columnsToExport);
      SetExcelImageTotalHeight(image, rowHeightPt);

      RegisterWorkbookImage(currentSheetIndex, image);
      BuildSheetImageMap(currentSheetIndex, image);
    }
  }
}
