/** `TaskConverter`: turns a dataset of one kind into another along a fixed
    route table — relationships into detection boxes, detection boxes into
    cropped classification images, classification ids into full-frame
    boxes. */
module TaskConversion {
  import opened Wrappers
  import opened Strings
  import opened Files
  import opened FileReading
  import opened LabelCodecs
  import opened KindDetection
  import opened Datasets

  function Min(a: int, b: int): int { if a <= b then a else b }
  function Max(a: int, b: int): int { if a >= b then a else b }

  // ------------------------------------------------ _make_unique_filepath

  /** Where pathlib's `suffix` starts: at the last '.', unless that is the
      name's first or last character (then there is no suffix). */
  function SuffixStart(name: string): (k: nat)
    ensures k <= |name|
    ensures k < |name| ==> 0 < k < |name| - 1 && name[k] == '.' && '.' !in name[k + 1..]
    ensures k == |name| ==> (name != [] && name[|name| - 1] == '.') || forall j :: 0 < j < |name| - 1 ==> name[j] != '.'
  {
    var i := RFind(name, '.');
    if 0 < i < |name| - 1 then i else |name|
  }

  /** pathlib's `stem` and `suffix`: together they are the name. */
  function PathStem(name: string): string { name[..SuffixStart(name)] }
  function PathSuffix(name: string): string { name[SuffixStart(name)..] }

  /** `_make_unique_filepath(directory / name)`, by the name it settles on. */
  function UniquePath(disk: Disk, directory: string, name: string): (r: Result<string>)
    ensures r.Ok? ==> !disk.Exists(PathJoin(directory, r.value))
    ensures r.Err? ==> r.error == RuntimeError
  {
    if !disk.Exists(PathJoin(directory, name)) then Ok(name)
    else FirstFree(disk, directory, PathStem(name), PathSuffix(name), 0)
  }

  /** The name is kept when free; otherwise the result is the first free
      `{stem}{i}{suffix}`, and RuntimeError exactly when all 100 are taken. */
  lemma UniquePathSpec(disk: Disk, directory: string, name: string, stem: string, suffix: string)
    requires stem == PathStem(name) && suffix == PathSuffix(name)
    ensures stem + suffix == name
    ensures !disk.Exists(PathJoin(directory, name)) ==> UniquePath(disk, directory, name) == Ok(name)
    ensures disk.Exists(PathJoin(directory, name)) ==>
      (UniquePath(disk, directory, name).Err? <==> forall j :: 0 <= j < 100 ==> Taken(disk, directory, stem, suffix, j))
    ensures disk.Exists(PathJoin(directory, name)) && UniquePath(disk, directory, name).Ok? ==>
      exists k :: 0 <= k < 100 && UniquePath(disk, directory, name).value == Candidate(stem, suffix, k)
        && !Taken(disk, directory, stem, suffix, k) && forall j :: 0 <= j < k ==> Taken(disk, directory, stem, suffix, j)
  {
    assert name == name[..SuffixStart(name)] + name[SuffixStart(name)..];
    FirstFreeFails(disk, directory, stem, suffix, 0);
    FirstFreeFirst(disk, directory, stem, suffix, 0);
  }

  /** `_make_unique_filepath`: the loop over the 100 candidates. */
  method MakeUniqueFilepath(disk: Disk, directory: string, name: string) returns (r: Result<string>)
    ensures r == UniquePath(disk, directory, name)
  {
    if !disk.Exists(PathJoin(directory, name)) {
      return Ok(name);
    }
    var stem, suffix := PathStem(name), PathSuffix(name);
    for i := 0 to 100
      invariant FirstFree(disk, directory, stem, suffix, 0) == FirstFree(disk, directory, stem, suffix, i)
    {
      var candidate := Candidate(stem, suffix, i);
      if !disk.Exists(PathJoin(directory, candidate)) {
        return Ok(candidate);
      }
    }
    return Err(RuntimeError);
  }

  // ------------------------------------------------------------ _convert_vr_od

  /** `outer` contains `inner`. */
  predicate Encloses(outer: Box, inner: Box)
  {
    outer.xMin <= inner.xMin && outer.yMin <= inner.yMin && inner.xMax <= outer.xMax && inner.yMax <= outer.yMax
  }

  /** `convert_label`: the box around subject and object, labelled with the
      predicate. */
  function UnionBox(r: Relation): (b: Box)
    ensures b.classId == r.predicateId
    ensures Encloses(b, r.subject) && Encloses(b, r.obj)
  {
    Box(r.predicateId, Min(r.subject.xMin, r.obj.xMin), Min(r.subject.yMin, r.obj.yMin),
        Max(r.subject.xMax, r.obj.xMax), Max(r.subject.yMax, r.obj.yMax))
  }

  /** No smaller box contains both: any box around subject and object is
      around the union box. */
  lemma UnionBoxSmallest(r: Relation, b: Box)
    requires Encloses(b, r.subject) && Encloses(b, r.obj)
    ensures Encloses(b, UnionBox(r))
  {
  }

  predicate AllRelations(records: seq<Record>)
  {
    forall i :: 0 <= i < |records| ==> records[i].labels.Relations?
  }

  /** `[(image, [convert_label(x) for x in labels]) for image, labels in dataset]`. */
  function VrOdRecords(records: seq<Record>): (r: seq<Record>)
    requires AllRelations(records)
    ensures |r| == |records|
    ensures forall i :: 0 <= i < |records| ==>
      && r[i].image == records[i].image && r[i].labels.Boxes?
      && |r[i].labels.boxes| == |records[i].labels.relations|
      && forall k :: 0 <= k < |r[i].labels.boxes| ==> r[i].labels.boxes[k] == UnionBox(records[i].labels.relations[k])
  {
    seq(|records|, i requires 0 <= i < |records| =>
      var rs := records[i].labels.relations;
      Record(records[i].image, Boxes(seq(|rs|, k requires 0 <= k < |rs| => UnionBox(rs[k])))))
  }

  /** `_convert_vr_od`: a detection dataset in the output directory with the
      same records, images directory and label table. */
  function ConvertVrOd(ds: Dataset, disk: Disk, outputDirectory: string): (r: Result<Dataset>)
    requires ds.kind == VisualRelationship && WellKinded(ds)
    ensures r.Err? <==> LabelsOf(ds, disk).Err?
    ensures r.Err? ==> r.error == LabelsOf(ds, disk).error
    ensures r.Ok? ==>
      && r.value.kind == ObjectDetection && WellKinded(r.value)
      && r.value.records == VrOdRecords(ds.records)
      && r.value.directory == outputDirectory && r.value.imagesDirectory == ds.imagesDirectory
      && r.value.labelNames == LabelsOf(ds, disk).value
  {
    match LabelsOf(ds, disk)
    case Err(e) => Err(e)
    case Ok(labels) => Ok(NewDataset(ObjectDetection, VrOdRecords(ds.records), outputDirectory, Some(ds.imagesDirectory), labels))
  }

  // ------------------------------------------------------------ _convert_ic_od

  /** `[(x, 0, 0, w, h) for x in labels]`. */
  function FullFrame(ids: seq<int>, width: int, height: int): (r: seq<Box>)
    ensures |r| == |ids|
  {
    seq(|ids|, i requires 0 <= i < |ids| => Box(ids[i], 0, 0, width, height))
  }

  /** Full-frame boxes keep the ids in order and each covers the whole
      image. */
  lemma FullFrameSpec(ids: seq<int>, width: int, height: int)
    ensures BoxIds(FullFrame(ids, width, height)) == ids
    ensures forall b :: b in FullFrame(ids, width, height) ==>
      b.xMin == 0 && b.yMin == 0 && b.xMax == width && b.yMax == height
  {
  }

  predicate AllClassIds(records: seq<Record>)
  {
    forall i :: 0 <= i < |records| ==> records[i].labels.ClassIds?
  }

  function Images(records: seq<Record>): (r: seq<string>)
    ensures |r| == |records| && forall i :: 0 <= i < |records| ==> r[i] == records[i].image
  {
    seq(|records|, i requires 0 <= i < |records| => records[i].image)
  }

  /** Each record's ids as full-frame boxes of its image. */
  function IcOdRecords(records: seq<Record>, pictures: seq<Picture>): (r: seq<Record>)
    requires AllClassIds(records) && |pictures| == |records|
    ensures |r| == |records|
    ensures forall i :: 0 <= i < |records| ==> r[i].image == records[i].image && r[i].labels.Boxes?
  {
    seq(|records|, i requires 0 <= i < |records| =>
      Record(records[i].image, Boxes(FullFrame(records[i].labels.ids, pictures[i].width, pictures[i].height))))
  }

  /** `_convert_ic_od`: every image is loaded for its size, in record order;
      the first that fails fails the conversion. */
  function ConvertIcOd(ds: Dataset, disk: Disk, decoder: Decoder, outputDirectory: string): (r: Result<Dataset>)
    requires ds.kind == ImageClassification && WellKinded(ds)
    ensures r.Ok? ==>
      && r.value.kind == ObjectDetection && WellKinded(r.value)
      && |r.value.records| == |ds.records|
      && r.value.directory == outputDirectory && r.value.imagesDirectory == ds.imagesDirectory
      && LabelsOf(ds, disk).Ok? && r.value.labelNames == LabelsOf(ds, disk).value
    ensures r.Ok? <==>
      (forall i :: 0 <= i < |ds.records| ==> LoadImage(disk, decoder, ds.imagesDirectory, ds.records[i].image).Ok?) && LabelsOf(ds, disk).Ok?
    ensures r.Err? && LabelsOf(ds, disk).Ok? ==>
      exists i :: 0 <= i < |ds.records| && LoadImage(disk, decoder, ds.imagesDirectory, ds.records[i].image) == Err(r.error)
        && forall j :: 0 <= j < i ==> LoadImage(disk, decoder, ds.imagesDirectory, ds.records[j].image).Ok?
  {
    match ParseEach(Images(ds.records), ImageLoader(disk, decoder, ds.imagesDirectory))
    case Err(e) => Err(e)
    case Ok(pictures) =>
      match LabelsOf(ds, disk)
      case Err(e) => Err(e)
      case Ok(labels) => Ok(NewDataset(ObjectDetection, IcOdRecords(ds.records, pictures), outputDirectory, Some(ds.imagesDirectory), labels))
  }

  /** Record i of the converted dataset carries one full-frame box of image
      i's decoded size per id, in id order. */
  lemma ConvertIcOdRecords(ds: Dataset, disk: Disk, decoder: Decoder, outputDirectory: string, i: nat)
    requires ds.kind == ImageClassification && WellKinded(ds)
    requires ConvertIcOd(ds, disk, decoder, outputDirectory).Ok? && i < |ds.records|
    ensures var rec := ConvertIcOd(ds, disk, decoder, outputDirectory).value.records[i];
      && rec.image == ds.records[i].image
      && exists p :: LoadImage(disk, decoder, ds.imagesDirectory, ds.records[i].image) == Ok(p)
                     && rec.labels == Boxes(FullFrame(ds.records[i].labels.ids, p.width, p.height))
  {
    var pictures := ParseEach(Images(ds.records), ImageLoader(disk, decoder, ds.imagesDirectory)).value;
    assert ImageLoader(disk, decoder, ds.imagesDirectory)(Images(ds.records)[i]) == Ok(pictures[i]);
  }

  // ------------------------------------------------------------ _convert_od_ic

  /** The boxes that are skipped with a warning: starting at or past the
      right or bottom edge, ending at or before the left or top edge, or
      empty. */
  predicate Invalid(b: Box, width: int, height: int)
  {
    b.xMin >= width || b.yMin >= height || b.xMax <= 0 || b.yMax <= 0 || b.xMin >= b.xMax || b.yMin >= b.yMax
  }

  /** A box reaching outside the image is clamped to it; others are kept. */
  function Clamp(b: Box, width: int, height: int): Box
  {
    if b.xMin < 0 || b.yMin < 0 || b.xMax > width || b.yMax > height then
      Box(b.classId, Max(b.xMin, 0), Max(b.yMin, 0), Min(b.xMax, width), Min(b.yMax, height))
    else b
  }

  /** A non-empty crop inside the image. */
  predicate InFrame(b: Box, width: int, height: int)
  {
    0 <= b.xMin < b.xMax <= width && 0 <= b.yMin < b.yMax <= height
  }

  /** One record's boxes after dropping the invalid ones and clamping the
      rest, in order. */
  function KeptBoxes(boxes: seq<Box>, width: int, height: int): (r: seq<Box>)
    ensures |r| <= |boxes|
  {
    if boxes == [] then []
    else
      var n := |boxes| - 1;
      KeptBoxes(boxes[..n], width, height) + (if Invalid(boxes[n], width, height) then [] else [Clamp(boxes[n], width, height)])
  }

  /** A box is kept exactly when some valid box clamps to it; with a
      non-empty image every kept box is a non-empty crop inside it, of the
      same class. */
  lemma {:induction false} KeptBoxesSpec(boxes: seq<Box>, width: int, height: int)
    ensures forall b :: b in KeptBoxes(boxes, width, height) <==>
      exists i :: 0 <= i < |boxes| && !Invalid(boxes[i], width, height) && b == Clamp(boxes[i], width, height)
    ensures width > 0 && height > 0 ==> forall b :: b in KeptBoxes(boxes, width, height) ==> InFrame(b, width, height)
  {
    if boxes != [] {
      var n := |boxes| - 1;
      KeptBoxesSpec(boxes[..n], width, height);
      assert forall i :: 0 <= i < n ==> boxes[..n][i] == boxes[i];
    }
  }

  /** Full-frame boxes of a non-empty image are all kept, unchanged: an
      image dataset taken to boxes and back crops every image whole. */
  lemma {:induction false} KeptFullFrame(ids: seq<int>, width: int, height: int)
    requires width > 0 && height > 0
    ensures KeptBoxes(FullFrame(ids, width, height), width, height) == FullFrame(ids, width, height)
  {
    if ids != [] {
      var n := |ids| - 1;
      KeptFullFrame(ids[..n], width, height);
      assert FullFrame(ids, width, height)[..n] == FullFrame(ids[..n], width, height);
    }
  }

  /** One crop: the picture it is cut from and the clamped box. */
  datatype Crop = Crop(picture: Picture, box: Box)

  /** The crops made before the loop stopped, and the failure that stopped
      it, if any. */
  datatype CropRun = CropRun(failure: Option<Error>, crops: seq<Crop>)

  predicate AllBoxes(records: seq<Record>)
  {
    forall i :: 0 <= i < |records| ==> records[i].labels.Boxes?
  }

  function PictureCrops(p: Picture, boxes: seq<Box>): (r: seq<Crop>)
    ensures |r| == |boxes| && forall k :: 0 <= k < |boxes| ==> r[k] == Crop(p, boxes[k])
  {
    seq(|boxes|, k requires 0 <= k < |boxes| => Crop(p, boxes[k]))
  }

  /** The loop over the records: each image is loaded (even when it has no
      boxes) and its kept boxes become crops; the first image that cannot be
      loaded stops the loop. */
  function CropAll(disk: Disk, decoder: Decoder, imagesDirectory: string, records: seq<Record>): CropRun
    requires AllBoxes(records)
  {
    if records == [] then CropRun(None, [])
    else
      var n := |records| - 1;
      var run := CropAll(disk, decoder, imagesDirectory, records[..n]);
      if run.failure.Some? then run
      else
        match LoadImage(disk, decoder, imagesDirectory, records[n].image)
        case Err(e) => CropRun(Some(e), run.crops)
        case Ok(p) => CropRun(None, run.crops + PictureCrops(p, KeptBoxes(records[n].labels.boxes, p.width, p.height)))
  }

  /** One more record, while nothing has failed: its image is loaded and its
      kept boxes are cropped. */
  lemma CropAllStep(disk: Disk, decoder: Decoder, imagesDirectory: string, records: seq<Record>, i: nat)
    requires AllBoxes(records) && i < |records|
    requires CropAll(disk, decoder, imagesDirectory, records[..i]).failure.None?
    ensures CropAll(disk, decoder, imagesDirectory, records[..i + 1]) ==
      match LoadImage(disk, decoder, imagesDirectory, records[i].image)
      case Err(e) => CropRun(Some(e), CropAll(disk, decoder, imagesDirectory, records[..i]).crops)
      case Ok(p) => CropRun(None, CropAll(disk, decoder, imagesDirectory, records[..i]).crops + PictureCrops(p, KeptBoxes(records[i].labels.boxes, p.width, p.height)))
  {
    assert records[..i + 1][..i] == records[..i];
  }

  /** Once the loop has stopped, later records change nothing. */
  lemma {:induction false} CropAllStops(disk: Disk, decoder: Decoder, imagesDirectory: string, records: seq<Record>, i: nat)
    requires AllBoxes(records) && i <= |records|
    requires CropAll(disk, decoder, imagesDirectory, records[..i]).failure.Some?
    ensures CropAll(disk, decoder, imagesDirectory, records) == CropAll(disk, decoder, imagesDirectory, records[..i])
    decreases |records| - i
  {
    if i < |records| {
      assert records[..i + 1][..i] == records[..i];
      CropAllStops(disk, decoder, imagesDirectory, records, i + 1);
    } else {
      assert records[..i] == records;
    }
  }

  /** Every crop of a non-empty picture is a non-empty part of it. */
  lemma {:induction false} CropsInFrame(disk: Disk, decoder: Decoder, imagesDirectory: string, records: seq<Record>)
    requires AllBoxes(records)
    ensures forall c :: c in CropAll(disk, decoder, imagesDirectory, records).crops && c.picture.width > 0 && c.picture.height > 0 ==>
      InFrame(c.box, c.picture.width, c.picture.height)
  {
    if records != [] {
      var n := |records| - 1;
      CropsInFrame(disk, decoder, imagesDirectory, records[..n]);
      var run := CropAll(disk, decoder, imagesDirectory, records[..n]);
      if run.failure.None? {
        match LoadImage(disk, decoder, imagesDirectory, records[n].image)
        case Err(_) =>
        case Ok(p) =>
          var kept := KeptBoxes(records[n].labels.boxes, p.width, p.height);
          KeptBoxesSpec(records[n].labels.boxes, p.width, p.height);
          assert CropAll(disk, decoder, imagesDirectory, records).crops == run.crops + PictureCrops(p, kept);
      }
    }
  }

  /** Archive entry `{index}.jpg`. */
  function CropEntryName(index: nat): string
  {
    IntToString(index) + ".jpg"
  }

  /** `f'{images_zip_filename}@{index}.jpg'`. */
  function CropImage(zip: string, index: nat): string
  {
    zip + "@" + CropEntryName(index)
  }

  /** The classification records: crop k becomes image `{zip}@{k}.jpg`
      labelled with its box's class. */
  function CropRecords(zip: string, crops: seq<Crop>): (r: seq<Record>)
    ensures |r| == |crops|
  {
    seq(|crops|, k requires 0 <= k < |crops| => Record(CropImage(zip, k), ClassIds([crops[k].box.classId])))
  }

  /** The images zip: crop k, encoded by `encode` from the picture's bytes
      and the box, under `{k}.jpg`. */
  function CropEntries(crops: seq<Crop>, encode: (string, Box) -> string): map<string, string>
  {
    if crops == [] then map[]
    else
      var n := |crops| - 1;
      CropEntries(crops[..n], encode)[CropEntryName(n) := encode(crops[n].picture.bytes, crops[n].box)]
  }

  /** The output images are all different, and entry k holds crop k. */
  lemma {:induction false} CropEntriesSpec(crops: seq<Crop>, encode: (string, Box) -> string, zip: string)
    ensures var r := CropRecords(zip, crops);
      forall k, m :: 0 <= k < m < |crops| ==> r[k].image != r[m].image
    ensures forall k :: 0 <= k < |crops| ==>
      CropEntryName(k) in CropEntries(crops, encode) && CropEntries(crops, encode)[CropEntryName(k)] == encode(crops[k].picture.bytes, crops[k].box)
  {
    var r := CropRecords(zip, crops);
    forall k, m | 0 <= k < m < |crops|
      ensures r[k].image != r[m].image
    {
      if r[k].image == r[m].image {
        assert CropEntryName(k) == r[k].image[|zip| + 1..];
        assert CropEntryName(m) == r[m].image[|zip| + 1..];
        NumberedNameInjective(k, m, ".jpg");
      }
    }
    if crops != [] {
      var n := |crops| - 1;
      CropEntriesSpec(crops[..n], encode, zip);
      forall k | 0 <= k < n
        ensures CropEntryName(k) != CropEntryName(n)
      {
        if CropEntryName(k) == CropEntryName(n) {
          NumberedNameInjective(k, n, ".jpg");
        }
      }
    }
  }

  /** `_convert_od_ic`: the images zip is created under a fresh name and
      closed whatever happens, holding the crops made so far; the result is
      a classification dataset in the output directory whose label table is
      the source's, asked for after the zip is written. */
  function ConvertOdIcSpec(ds: Dataset, disk: Disk, decoder: Decoder, encode: (string, Box) -> string, outputDirectory: string): (Result<Dataset>, Disk)
    requires ds.kind == ObjectDetection && WellKinded(ds)
  {
    match UniquePath(disk, outputDirectory, "images.zip")
    case Err(e) => (Err(e), disk)
    case Ok(zip) =>
      var run := CropAll(disk, decoder, ds.imagesDirectory, ds.records);
      var d := disk.WriteArchive(PathJoin(outputDirectory, zip), CropEntries(run.crops, encode));
      if run.failure.Some? then (Err(run.failure.value), d)
      else
        match LabelsOf(ds, d)
        case Err(e) => (Err(e), d)
        case Ok(labels) => (Ok(NewDataset(ImageClassification, CropRecords(zip, run.crops), outputDirectory, None, labels)), d)
  }

  /** Appending one crop appends one record and adds one entry. */
  lemma CropSnoc(zip: string, crops: seq<Crop>, c: Crop, encode: (string, Box) -> string)
    ensures CropRecords(zip, crops + [c]) == CropRecords(zip, crops) + [Record(CropImage(zip, |crops|), ClassIds([c.box.classId]))]
    ensures CropEntries(crops + [c], encode) == CropEntries(crops, encode)[CropEntryName(|crops|) := encode(c.picture.bytes, c.box)]
  {
    CropRecordsSnoc(zip, crops, c);
    assert (crops + [c])[..|crops|] == crops;
  }

  lemma CropRecordsSnoc(zip: string, crops: seq<Crop>, c: Crop)
    ensures CropRecords(zip, crops + [c]) == CropRecords(zip, crops) + [Record(CropImage(zip, |crops|), ClassIds([c.box.classId]))]
  {
    var a := CropRecords(zip, crops + [c]);
    var b := CropRecords(zip, crops) + [Record(CropImage(zip, |crops|), ClassIds([c.box.classId]))];
    forall k | 0 <= k < |a|
      ensures a[k] == b[k]
    {
      if k < |crops| {
        assert (crops + [c])[k] == crops[k];
      }
    }
  }

  /** The kept boxes of one more box. */
  lemma KeptSnoc(p: Picture, boxes: seq<Box>, j: nat)
    requires j < |boxes|
    ensures PictureCrops(p, KeptBoxes(boxes[..j + 1], p.width, p.height)) ==
      PictureCrops(p, KeptBoxes(boxes[..j], p.width, p.height))
      + (if Invalid(boxes[j], p.width, p.height) then [] else [Crop(p, Clamp(boxes[j], p.width, p.height))])
  {
    assert boxes[..j + 1][..j] == boxes[..j];
  }

  /** The running crops after one more box of the picture. */
  lemma CropsStep(crops: seq<Crop>, cur: seq<Crop>, p: Picture, boxes: seq<Box>, j: nat)
    requires j < |boxes| && cur == crops + PictureCrops(p, KeptBoxes(boxes[..j], p.width, p.height))
    ensures crops + PictureCrops(p, KeptBoxes(boxes[..j + 1], p.width, p.height)) ==
      cur + (if Invalid(boxes[j], p.width, p.height) then [] else [Crop(p, Clamp(boxes[j], p.width, p.height))])
  {
    KeptSnoc(p, boxes, j);
  }

  /** The inner loop of `_convert_od_ic`: the crops of one picture appended
      to the records and the zip, numbered on from `index`. */
  method CropPicture(zip: string, p: Picture, boxes: seq<Box>, encode: (string, Box) -> string,
                     index: nat, data: seq<Record>, entries: map<string, string>, ghost crops: seq<Crop>)
    returns (index': nat, data': seq<Record>, entries': map<string, string>, ghost crops': seq<Crop>)
    requires index == |crops| && data == CropRecords(zip, crops) && entries == CropEntries(crops, encode)
    ensures crops' == crops + PictureCrops(p, KeptBoxes(boxes, p.width, p.height))
    ensures index' == |crops'| && data' == CropRecords(zip, crops') && entries' == CropEntries(crops', encode)
  {
    index', data', entries', crops' := index, data, entries, crops;
    for j := 0 to |boxes|
      invariant crops' == crops + PictureCrops(p, KeptBoxes(boxes[..j], p.width, p.height))
      invariant index' == |crops'| && data' == CropRecords(zip, crops') && entries' == CropEntries(crops', encode)
    {
      CropsStep(crops, crops', p, boxes, j);
      var b := boxes[j];
      if !Invalid(b, p.width, p.height) {
        if b.xMin < 0 || b.yMin < 0 || b.xMax > p.width || b.yMax > p.height {
          b := Box(b.classId, Max(b.xMin, 0), Max(b.yMin, 0), Min(b.xMax, p.width), Min(b.yMax, p.height));
        }
        assert b == Clamp(boxes[j], p.width, p.height);
        CropSnoc(zip, crops', Crop(p, b), encode);
        entries' := entries'[CropEntryName(index') := encode(p.bytes, b)];
        data' := data' + [Record(CropImage(zip, index'), ClassIds([b.classId]))];
        index' := index' + 1;
        crops' := crops' + [Crop(p, b)];
      }
    }
    assert boxes[..|boxes|] == boxes;
  }

  /** The outer loop of `_convert_od_ic`, with the running `index`. */
  method ConvertOdIc(ds: Dataset, disk: Disk, decoder: Decoder, encode: (string, Box) -> string, outputDirectory: string)
    returns (r: Result<Dataset>, d: Disk)
    requires ds.kind == ObjectDetection && WellKinded(ds)
    ensures (r, d) == ConvertOdIcSpec(ds, disk, decoder, encode, outputDirectory)
  {
    var zip := MakeUniqueFilepath(disk, outputDirectory, "images.zip");
    if zip.Err? {
      return Err(zip.error), disk;
    }
    var records := ds.records;
    var data: seq<Record> := [];
    var entries: map<string, string> := map[];
    var index := 0;
    ghost var crops: seq<Crop> := [];
    for i := 0 to |records|
      invariant CropAll(disk, decoder, ds.imagesDirectory, records[..i]) == CropRun(None, crops)
      invariant index == |crops| && data == CropRecords(zip.value, crops) && entries == CropEntries(crops, encode)
    {
      CropAllStep(disk, decoder, ds.imagesDirectory, records, i);
      var picture := LoadImage(disk, decoder, ds.imagesDirectory, records[i].image);
      if picture.Err? {
        CropAllStops(disk, decoder, ds.imagesDirectory, records, i + 1);
        d := disk.WriteArchive(PathJoin(outputDirectory, zip.value), entries);
        return Err(picture.error), d;
      }
      index, data, entries, crops := CropPicture(zip.value, picture.value, records[i].labels.boxes, encode, index, data, entries, crops);
    }
    assert records[..|records|] == records;
    d := disk.WriteArchive(PathJoin(outputDirectory, zip.value), entries);
    var labels := LabelsOf(ds, d);
    if labels.Err? {
      return Err(labels.error), d;
    }
    return Ok(NewDataset(ImageClassification, data, outputDirectory, None, labels.value)), d;
  }

  // ---------------------------------------------------------------- convert

  /** One converter of the route table. */
  datatype Step = VrToOd | OdToIc | IcToOd
  {
    function Input(): Kind
    {
      match this
      case VrToOd => VisualRelationship
      case OdToIc => ObjectDetection
      case IcToOd => ImageClassification
    }

    function Output(): Kind
    {
      match this
      case VrToOd => ObjectDetection
      case OdToIc => ImageClassification
      case IcToOd => ObjectDetection
    }
  }

  /** `ROUTES.get((source, destination))`, with `[]` for a pair not in the
      table. */
  function Route(source: Kind, destination: Kind): seq<Step>
  {
    match (source, destination)
    case (VisualRelationship, ObjectDetection) => [VrToOd]
    case (VisualRelationship, ImageClassification) => [VrToOd, OdToIc]
    case (ObjectDetection, ImageClassification) => [OdToIc]
    case (ImageClassification, ObjectDetection) => [IcToOd]
    case _ => []
  }

  /** Each step takes the kind the one before it produced. */
  predicate Chains(steps: seq<Step>, kind: Kind)
  {
    steps == [] || (steps[0].Input() == kind && Chains(steps[1..], steps[0].Output()))
  }

  /** Exactly four pairs have a route; a same-kind pair has none; every
      route starts at its source kind, is made of chaining steps and ends at
      its destination kind. */
  lemma RouteTable(source: Kind, destination: Kind)
    ensures Route(source, destination) != [] <==>
      (source, destination) in {(VisualRelationship, ObjectDetection), (VisualRelationship, ImageClassification),
                                (ObjectDetection, ImageClassification), (ImageClassification, ObjectDetection)}
    ensures source == destination ==> Route(source, destination) == []
    ensures var steps := Route(source, destination);
      Chains(steps, source) && (steps != [] ==> steps[|steps| - 1].Output() == destination)
  {
  }

  /** One converter applied to a dataset of its input kind. */
  function ApplyStep(step: Step, ds: Dataset, disk: Disk, decoder: Decoder, encode: (string, Box) -> string, outputDirectory: string): (r: (Result<Dataset>, Disk))
    requires ds.kind == step.Input() && WellKinded(ds)
    ensures r.0.Ok? ==> r.0.value.kind == step.Output() && WellKinded(r.0.value)
  {
    match step
    case VrToOd => (ConvertVrOd(ds, disk, outputDirectory), disk)
    case IcToOd => (ConvertIcOd(ds, disk, decoder, outputDirectory), disk)
    case OdToIc =>
      var (r, d) := ConvertOdIcSpec(ds, disk, decoder, encode, outputDirectory);
      (r, d)
  }

  /** The converters of a route applied left to right; the first failure
      stops the chain. */
  function ApplySteps(steps: seq<Step>, ds: Dataset, disk: Disk, decoder: Decoder, encode: (string, Box) -> string, outputDirectory: string): (r: (Result<Dataset>, Disk))
    requires Chains(steps, ds.kind) && WellKinded(ds)
    ensures steps != [] && r.0.Ok? ==> r.0.value.kind == steps[|steps| - 1].Output() && WellKinded(r.0.value)
    ensures steps == [] ==> r == (Ok(ds), disk)
    decreases |steps|
  {
    if steps == [] then (Ok(ds), disk)
    else
      var first := ApplyStep(steps[0], ds, disk, decoder, encode, outputDirectory);
      if first.0.Err? then (Err(first.0.error), first.1)
      else
        assert steps[1..] != [] ==> steps[1..][|steps[1..]| - 1] == steps[|steps| - 1];
        ApplySteps(steps[1..], first.0.value, first.1, decoder, encode, outputDirectory)
  }

  /** `TaskConverter.convert(dataset, destination_dataset_type, output_directory)`. */
  function ConvertSpec(ds: Dataset, destination: Kind, disk: Disk, decoder: Decoder, encode: (string, Box) -> string, outputDirectory: string): (r: (Result<Dataset>, Disk))
    requires WellKinded(ds)
    ensures Route(ds.kind, destination) == [] ==> r == (Err(RuntimeError), disk)
    ensures r.0.Ok? ==> r.0.value.kind == destination && WellKinded(r.0.value)
  {
    var steps := Route(ds.kind, destination);
    RouteTable(ds.kind, destination);
    if steps == [] then (Err(RuntimeError), disk)
    else ApplySteps(steps, ds, disk, decoder, encode, outputDirectory)
  }

  /** `convert`: the loop over the route's converters. */
  method Convert(ds: Dataset, destination: Kind, disk: Disk, decoder: Decoder, encode: (string, Box) -> string, outputDirectory: string)
    returns (r: Result<Dataset>, d: Disk)
    requires WellKinded(ds)
    ensures (r, d) == ConvertSpec(ds, destination, disk, decoder, encode, outputDirectory)
  {
    var steps := Route(ds.kind, destination);
    RouteTable(ds.kind, destination);
    if steps == [] {
      return Err(RuntimeError), disk;
    }
    var current := ds;
    d := disk;
    var i := 0;
    while i < |steps|
      invariant 0 <= i <= |steps|
      invariant Chains(steps[i..], current.kind) && WellKinded(current)
      invariant ApplySteps(steps, ds, disk, decoder, encode, outputDirectory)
             == ApplySteps(steps[i..], current, d, decoder, encode, outputDirectory)
    {
      var next: Result<Dataset>;
      match steps[i] {
        case VrToOd =>
          next := ConvertVrOd(current, d, outputDirectory);
        case IcToOd =>
          next := ConvertIcOd(current, d, decoder, outputDirectory);
        case OdToIc =>
          next, d := ConvertOdIc(current, d, decoder, encode, outputDirectory);
      }
      if next.Err? {
        return Err(next.error), d;
      }
      assert steps[i..][1..] == steps[i + 1..];
      current := next.value;
      i := i + 1;
    }
    return Ok(current), d;
  }
}
