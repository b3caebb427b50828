/** The COCO detection format: `CocoReader` turns a decoded COCO document
    into a detection dataset, `CocoWriter` turns a detection dataset into
    one. The document is taken already decoded (its JSON text is not
    modelled) and coordinates are integers. */
module Coco {
  import opened Wrappers
  import opened Strings
  import opened Files
  import opened LabelCodecs
  import opened KindDetection
  import opened Datasets

  /** An `images` entry; the reader uses only `id` and `file_name`. */
  datatype CocoImage = CocoImage(id: int, width: int, height: int, fileName: string)

  /** An `annotations` entry with its `bbox` as [x, y, w, h]; `iscrowd` is
      always 0 and is not represented. */
  datatype CocoAnnotation = CocoAnnotation(id: int, imageId: int, categoryId: int, area: int, x: int, y: int, w: int, h: int)

  datatype CocoCategory = CocoCategory(id: int, name: string)

  datatype CocoDocument = CocoDocument(images: seq<CocoImage>, annotations: seq<CocoAnnotation>, categories: seq<CocoCategory>)

  // ------------------------------------------------------------- reader

  /** `(category_id, x, y, x + w, y + h)`: the category is copied with no
      shift. */
  function AnnotationBox(a: CocoAnnotation): (b: Box)
    ensures b.classId == a.categoryId && b.xMin == a.x && b.yMin == a.y
    ensures b.xMax - b.xMin == a.w && b.yMax - b.yMin == a.h
  {
    Box(a.categoryId, a.x, a.y, a.x + a.w, a.y + a.h)
  }

  /** The boxes skipped as invalid: only a zero width or height, so an
      inverted box is kept. */
  predicate Degenerate(b: Box)
  {
    b.xMin == b.xMax || b.yMin == b.yMax
  }

  /** `annotations[image_id]`, with the empty default of a defaultdict. */
  function Get(groups: map<int, seq<Box>>, id: int): seq<Box>
  {
    if id in groups then groups[id] else []
  }

  /** The annotation loop: a non-degenerate box is appended to its image's
      list unless that list already holds it. */
  function Grouped(annotations: seq<CocoAnnotation>): map<int, seq<Box>>
  {
    if annotations == [] then map[]
    else
      var n := |annotations| - 1;
      var groups := Grouped(annotations[..n]);
      var a := annotations[n];
      var b := AnnotationBox(a);
      if Degenerate(b) || b in Get(groups, a.imageId) then groups
      else groups[a.imageId := Get(groups, a.imageId) + [b]]
  }

  /** Reference definition: the non-degenerate boxes of one image, in
      annotation order, duplicates included. */
  function ImageBoxes(annotations: seq<CocoAnnotation>, id: int): seq<Box>
  {
    if annotations == [] then []
    else
      var n := |annotations| - 1;
      var a := annotations[n];
      ImageBoxes(annotations[..n], id) + (if a.imageId == id && !Degenerate(AnnotationBox(a)) then [AnnotationBox(a)] else [])
  }

  /** Each element's first occurrence, in order. */
  function Dedup<T(==)>(s: seq<T>): seq<T>
  {
    if s == [] then []
    else
      var n := |s| - 1;
      Dedup(s[..n]) + (if s[n] in Dedup(s[..n]) then [] else [s[n]])
  }

  /** Deduplication keeps exactly the elements, once each, and leaves a
      sequence without repeats as it is. */
  lemma {:induction false} DedupSpec<T>(s: seq<T>)
    ensures Distinct(Dedup(s))
    ensures forall x :: x in Dedup(s) <==> x in s
    ensures Distinct(s) ==> Dedup(s) == s
  {
    if s != [] {
      var n := |s| - 1;
      var d := Dedup(s[..n]);
      DedupSpec(s[..n]);
      assert forall x :: x in s <==> x in s[..n] || x == s[n] by {
        assert s == s[..n] + [s[n]];
      }
      if s[n] !in d {
        DistinctSnoc(d, s[n]);
      }
      if Distinct(s) {
        assert Distinct(s[..n]);
        assert s[n] !in s[..n];
        assert s == s[..n] + [s[n]];
      }
    }
  }

  /** A new element appended keeps a sequence free of repeats. */
  lemma DistinctSnoc<T>(d: seq<T>, x: T)
    requires Distinct(d) && x !in d
    ensures Distinct(d + [x])
  {
  }

  /** Each image's list is its non-degenerate boxes with later duplicates
      dropped, keeping the first occurrence. */
  lemma {:induction false} GroupedIsDedup(annotations: seq<CocoAnnotation>, id: int)
    ensures Get(Grouped(annotations), id) == Dedup(ImageBoxes(annotations, id))
  {
    if annotations != [] {
      var n := |annotations| - 1;
      GroupedIsDedup(annotations[..n], id);
      var prev := ImageBoxes(annotations[..n], id);
      var b := AnnotationBox(annotations[n]);
      if annotations[n].imageId == id && !Degenerate(b) {
        assert ImageBoxes(annotations, id) == prev + [b];
        assert (prev + [b])[..|prev|] == prev;
        assert Dedup(prev + [b]) == Dedup(prev) + (if b in Dedup(prev) then [] else [b]);
        DedupSpec(prev);
      } else {
        assert ImageBoxes(annotations, id) == prev + [];
        assert prev + [] == prev;
      }
    }
  }

  /** So every image's list is free of degenerate boxes and repeats, and
      holds exactly the non-degenerate boxes annotated on that image. */
  lemma {:induction false} GroupedSpec(annotations: seq<CocoAnnotation>, id: int)
    ensures Distinct(Get(Grouped(annotations), id))
    ensures forall b :: b in Get(Grouped(annotations), id) <==> b in ImageBoxes(annotations, id)
    ensures forall b :: b in ImageBoxes(annotations, id) ==> !Degenerate(b)
  {
    GroupedIsDedup(annotations, id);
    DedupSpec(ImageBoxes(annotations, id));
    ImageBoxesSpec(annotations, id);
  }

  lemma {:induction false} ImageBoxesSpec(annotations: seq<CocoAnnotation>, id: int)
    ensures forall b :: b in ImageBoxes(annotations, id) <==>
      exists k :: 0 <= k < |annotations| && annotations[k].imageId == id && b == AnnotationBox(annotations[k]) && !Degenerate(b)
  {
    if annotations != [] {
      var n := |annotations| - 1;
      ImageBoxesSpec(annotations[..n], id);
      assert forall k :: 0 <= k < n ==> annotations[..n][k] == annotations[k];
    }
  }

  /** One record per `images` entry, in order, with that image's list (empty
      when it has none). */
  function CocoRecords(images: seq<CocoImage>, groups: map<int, seq<Box>>): (r: seq<Record>)
    ensures |r| == |images|
    ensures forall i :: 0 <= i < |images| ==> r[i] == Record(images[i].fileName, Boxes(Get(groups, images[i].id)))
  {
    seq(|images|, i requires 0 <= i < |images| => Record(images[i].fileName, Boxes(Get(groups, images[i].id))))
  }

  /** `{c['id']: c['name'] for c in categories}`: a later category with the
      same id wins. */
  function NameMap(categories: seq<CocoCategory>): map<int, string>
  {
    if categories == [] then map[]
    else
      var n := |categories| - 1;
      NameMap(categories[..n])[categories[n].id := categories[n].name]
  }

  /** The keys are the category ids. */
  lemma {:induction false} NameMapKeys(categories: seq<CocoCategory>)
    ensures forall id :: id in NameMap(categories) <==> exists k :: 0 <= k < |categories| && categories[k].id == id
  {
    if categories != [] {
      var n := |categories| - 1;
      NameMapKeys(categories[..n]);
      assert forall k :: 0 <= k < n ==> categories[..n][k] == categories[k];
    }
  }

  /** The name a later category gives an id overrides an earlier one. */
  lemma {:induction false} NameMapLast(categories: seq<CocoCategory>, k: nat)
    requires k < |categories|
    requires forall j :: k < j < |categories| ==> categories[j].id != categories[k].id
    ensures categories[k].id in NameMap(categories) && NameMap(categories)[categories[k].id] == categories[k].name
  {
    var n := |categories| - 1;
    if k < n {
      NameMapLast(categories[..n], k);
    }
  }

  /** `max(name_map.keys())`. */
  function MaxId(categories: seq<CocoCategory>): (r: int)
    requires categories != []
    ensures exists k :: 0 <= k < |categories| && categories[k].id == r
    ensures forall k :: 0 <= k < |categories| ==> categories[k].id <= r
  {
    var n := |categories| - 1;
    if n == 0 then categories[0].id
    else
      var m := MaxId(categories[..n]);
      assert forall k :: 0 <= k < n ==> categories[..n][k] == categories[k];
      if categories[n].id > m then categories[n].id else m
  }

  function NonNeg(x: int): nat { if x < 0 then 0 else x }

  /** `_get_labels`: `max_id + 1` names, entry i being category i's name or
      `str(i)`; an empty category list has no maximum (ValueError). */
  function CocoLabels(categories: seq<CocoCategory>): (r: Result<seq<string>>)
    ensures r.Err? <==> categories == []
    ensures r.Err? ==> r.error == ValueError
    ensures r.Ok? ==> |r.value| == NonNeg(MaxId(categories) + 1)
    ensures r.Ok? ==> forall i :: 0 <= i < |r.value| ==>
      r.value[i] == if i in NameMap(categories) then NameMap(categories)[i] else IntToString(i)
  {
    if categories == [] then Err(ValueError)
    else
      var m := NameMap(categories);
      var top := MaxId(categories);
      Ok(seq(NonNeg(top + 1), i requires 0 <= i < NonNeg(top + 1) => if i in m then m[i] else IntToString(i)))
  }

  /** `CocoReader.read`: a detection dataset based in the images directory. */
  function CocoRead(document: CocoDocument, imagesDirectory: string): (r: Result<Dataset>)
    ensures r.Err? <==> document.categories == []
    ensures r.Ok? ==>
      && r.value.kind == ObjectDetection && WellKinded(r.value)
      && r.value.records == CocoRecords(document.images, Grouped(document.annotations))
      && r.value.directory == imagesDirectory && r.value.imagesDirectory == imagesDirectory
      && r.value.labelNames == CocoLabels(document.categories).value
  {
    match CocoLabels(document.categories)
    case Err(e) => Err(e)
    case Ok(labels) => Ok(NewDataset(ObjectDetection, CocoRecords(document.images, Grouped(document.annotations)), imagesDirectory, None, labels))
  }

  /** The reader's loops: group the annotations, then one record per image. */
  method Read(document: CocoDocument, imagesDirectory: string) returns (r: Result<Dataset>)
    ensures r == CocoRead(document, imagesDirectory)
  {
    var annotations := document.annotations;
    var groups: map<int, seq<Box>> := map[];
    for k := 0 to |annotations|
      invariant groups == Grouped(annotations[..k])
    {
      assert annotations[..k + 1][..k] == annotations[..k];
      var a := annotations[k];
      var b := Box(a.categoryId, a.x, a.y, a.x + a.w, a.y + a.h);
      if b.xMin == b.xMax || b.yMin == b.yMax {
        continue;
      }
      if b in Get(groups, a.imageId) {
        continue;
      }
      groups := groups[a.imageId := Get(groups, a.imageId) + [b]];
    }
    assert annotations[..|annotations|] == annotations;
    var images := document.images;
    var data: seq<Record> := [];
    for i := 0 to |images|
      invariant data == CocoRecords(images[..i], groups)
    {
      data := data + [Record(images[i].fileName, Boxes(Get(groups, images[i].id)))];
    }
    assert images[..|images|] == images;
    var labels := CocoLabels(document.categories);
    if labels.Err? {
      return Err(labels.error);
    }
    return Ok(NewDataset(ObjectDetection, data, imagesDirectory, None, labels.value));
  }

  // ------------------------------------------------------------- writer

  /** One written annotation: the class shifted to COCO's 1-based ids, the
      box as [x, y, width, height] and its area. */
  function ToAnnotation(b: Box, imageId: int, id: int): (a: CocoAnnotation)
    ensures a.categoryId == b.classId + 1 && a.imageId == imageId && a.id == id
    ensures a.x == b.xMin && a.y == b.yMin && a.x + a.w == b.xMax && a.y + a.h == b.yMax
    ensures a.area == a.w * a.h
  {
    CocoAnnotation(id, imageId, b.classId + 1, (b.xMax - b.xMin) * (b.yMax - b.yMin), b.xMin, b.yMin, b.xMax - b.xMin, b.yMax - b.yMin)
  }

  /** One record's annotations, numbered on from `firstId`. */
  function RecordAnnotations(boxes: seq<Box>, imageId: int, firstId: int): (r: seq<CocoAnnotation>)
    ensures |r| == |boxes|
    ensures forall k :: 0 <= k < |boxes| ==> r[k] == ToAnnotation(boxes[k], imageId, firstId + k)
  {
    seq(|boxes|, k requires 0 <= k < |boxes| => ToAnnotation(boxes[k], imageId, firstId + k))
  }

  /** `image_filename.split('.')[-1]`: the text after the last '.', or the
      whole name when it has none. */
  function Extension(fileName: string): (r: string)
    ensures '.' !in r && |r| <= |fileName|
    ensures r == fileName[|fileName| - |r|..]
    ensures r != fileName ==> fileName[|fileName| - |r| - 1] == '.'
  {
    var k := RFind(fileName, '.');
    var r := fileName[k + 1..];
    assert |fileName| - |r| == k + 1;
    forall j | 0 <= j < |r|
      ensures r[j] != '.'
    {
      assert r[j] == fileName[k + 1 + j];
    }
    r
  }

  /** `f'{i}.{ext}'`. */
  function RenamedImage(i: nat, fileName: string): string
  {
    IntToString(i) + "." + Extension(fileName)
  }

  /** `dataset.load_image` against a given state of the disk. */
  type Loader = (Disk, string) -> Result<Picture>

  function DiskLoader(decoder: Decoder, imagesDirectory: string): Loader
  {
    (d: Disk, image: string) => LoadImage(d, decoder, imagesDirectory, image)
  }

  /** A record's boxes (a detection record always has them). */
  function RecordBoxes(r: Record): seq<Box>
  {
    if r.labels.Boxes? then r.labels.boxes else []
  }

  /** The number of boxes in the records. */
  function BoxCount(records: seq<Record>): nat
  {
    if records == [] then 0
    else BoxCount(records[..|records| - 1]) + |RecordBoxes(records[|records| - 1])|
  }

  /** The annotations written for record j: its boxes, numbered on from
      `firstId` past the boxes of the records before it, with image id j. */
  function Chunk(records: seq<Record>, j: nat, firstId: int): seq<CocoAnnotation>
    requires j < |records|
  {
    RecordAnnotations(RecordBoxes(records[j]), j, firstId + BoxCount(records[..j]))
  }

  function Chunks(records: seq<Record>, firstId: int): (cs: seq<seq<CocoAnnotation>>)
    ensures |cs| == |records|
  {
    seq(|records|, j requires 0 <= j < |records| => Chunk(records, j, firstId))
  }

  function Flatten(cs: seq<seq<CocoAnnotation>>): seq<CocoAnnotation>
  {
    if cs == [] then [] else Flatten(cs[..|cs| - 1]) + cs[|cs| - 1]
  }

  /** The `annotations` list of the writer: every record's annotations in
      record order. */
  function Annotations(records: seq<Record>, firstId: int): seq<CocoAnnotation>
  {
    Flatten(Chunks(records, firstId))
  }

  /** Chunk j holds only annotations of image j. */
  predicate OwnImages(cs: seq<seq<CocoAnnotation>>)
  {
    forall j, k :: 0 <= j < |cs| && 0 <= k < |cs[j]| ==> cs[j][k].imageId == j
  }

  lemma {:induction false} ChunksOwnImages(records: seq<Record>, firstId: int)
    ensures OwnImages(Chunks(records, firstId))
  {
    var cs: seq<seq<CocoAnnotation>> := Chunks(records, firstId);
    forall j: int | 0 <= j < |cs|
      ensures forall k: int :: 0 <= k < |cs[j]| ==> cs[j][k].imageId == j
    {
      assert cs[j] == Chunk(records, j, firstId);
    }
  }

  /** One more chunk adds its annotations at the end. */
  lemma {:induction false} FlattenStep(cs: seq<seq<CocoAnnotation>>, i: nat)
    requires i < |cs|
    ensures Flatten(cs[..i + 1]) == Flatten(cs[..i]) + cs[i]
  {
    assert cs[..i + 1][..i] == cs[..i];
  }

  lemma {:induction false} FlattenSnoc(cs: seq<seq<CocoAnnotation>>, c: seq<CocoAnnotation>)
    ensures Flatten(cs + [c]) == Flatten(cs) + c
  {
    assert (cs + [c])[..|cs|] == cs;
  }

  /** The chunk of the next record, numbered on from the running index. */
  lemma {:induction false} ChunksGrow(records: seq<Record>, firstId: int, chunks: seq<seq<CocoAnnotation>>, i: nat, index: int)
    requires i < |records| && |chunks| == i
    requires forall j :: 0 <= j < i ==> chunks[j] == Chunk(records, j, firstId)
    requires index == firstId + BoxCount(records[..i])
    ensures forall j :: 0 <= j <= i ==> (chunks + [RecordAnnotations(RecordBoxes(records[i]), i, index)])[j] == Chunk(records, j, firstId)
  {
    var next := chunks + [RecordAnnotations(RecordBoxes(records[i]), i, index)];
    forall j | 0 <= j <= i
      ensures next[j] == Chunk(records, j, firstId)
    {
      if j < i {
        assert next[j] == chunks[j];
      }
    }
  }

  /** Chunks built one record at a time are the records' chunks. */
  lemma {:induction false} ChunksEqual(records: seq<Record>, firstId: int, chunks: seq<seq<CocoAnnotation>>)
    requires |chunks| == |records| && forall j :: 0 <= j < |records| ==> chunks[j] == Chunk(records, j, firstId)
    ensures chunks == Chunks(records, firstId)
  {
    var cs := Chunks(records, firstId);
    forall j | 0 <= j < |records|
      ensures chunks[j] == cs[j]
    {
      assert cs[j] == Chunk(records, j, firstId);
    }
  }

  lemma {:induction false} BoxCountStep(records: seq<Record>, i: nat)
    requires i < |records|
    ensures BoxCount(records[..i + 1]) == BoxCount(records[..i]) + |RecordBoxes(records[i])|
  {
    var next := records[..i + 1];
    assert next[..i] == records[..i];
    assert next[i] == records[i];
  }

  /** The first i chunks hold as many annotations as the first i records
      hold boxes, numbered from `firstId` with no gap. */
  lemma {:induction false} ChunkIds(records: seq<Record>, firstId: int, cs: seq<seq<CocoAnnotation>>, i: nat)
    requires i <= |cs| == |records| && forall j :: 0 <= j < |cs| ==> cs[j] == Chunk(records, j, firstId)
    ensures |Flatten(cs[..i])| == BoxCount(records[..i])
    ensures NumberedFrom(Flatten(cs[..i]), firstId)
  {
    if i > 0 {
      var j := i - 1;
      ChunkIds(records, firstId, cs, j);
      FlattenStep(cs, j);
      BoxCountStep(records, j);
      var count := BoxCount(records[..j]);
      assert cs[j] == RecordAnnotations(RecordBoxes(records[j]), j, firstId + count);
      RecordAnnotationsNumbered(RecordBoxes(records[j]), j, firstId + count);
      NumberedStep(Flatten(cs[..j]), cs[j], Flatten(cs[..j + 1]), firstId, count);
    }
  }

  /** Annotations numbered from `first`, one after the other. */
  predicate NumberedFrom(a: seq<CocoAnnotation>, first: int)
  {
    forall k :: 0 <= k < |a| ==> a[k].id == first + k
  }

  /** One record's annotations are numbered from the id they start at. */
  lemma RecordAnnotationsNumbered(boxes: seq<Box>, imageId: int, first: int)
    ensures NumberedFrom(RecordAnnotations(boxes, imageId, first), first)
  {
  }

  /** The numbered annotations so far, followed by a chunk numbered on
      from their count, are numbered with no gap. */
  lemma NumberedStep(prev: seq<CocoAnnotation>, chunk: seq<CocoAnnotation>, all: seq<CocoAnnotation>, first: int, count: nat)
    requires all == prev + chunk && |prev| == count
    requires NumberedFrom(prev, first) && NumberedFrom(chunk, first + count)
    ensures |all| == count + |chunk| && NumberedFrom(all, first)
  {
    NumberedAppend(prev, chunk, first);
  }

  lemma NumberedAppend(a: seq<CocoAnnotation>, b: seq<CocoAnnotation>, first: int)
    requires NumberedFrom(a, first) && NumberedFrom(b, first + |a|)
    ensures NumberedFrom(a + b, first)
  {
    forall k: int | 0 <= k < |a + b|
      ensures (a + b)[k].id == first + k
    {
      if k >= |a| {
        assert (a + b)[k] == b[k - |a|];
      } else {
        assert (a + b)[k] == a[k];
      }
    }
  }

  /** Annotation ids count up from `firstId` with no gap, so they are all
      different; image ids are record positions. */
  lemma {:induction false} AnnotationIds(records: seq<Record>, firstId: int)
    ensures |Annotations(records, firstId)| == BoxCount(records)
    ensures forall k :: 0 <= k < |Annotations(records, firstId)| ==>
      Annotations(records, firstId)[k].id == firstId + k && 0 <= Annotations(records, firstId)[k].imageId < |records|
  {
    var cs := Chunks(records, firstId);
    ChunkIds(records, firstId, cs, |records|);
    assert cs[..|records|] == cs && records[..|records|] == records;
    assert NumberedFrom(Annotations(records, firstId), firstId);
    ChunksOwnImages(records, firstId);
    FlattenImages(cs);
  }

  /** Every annotation of flattened chunks comes from a chunk's image. */
  lemma {:induction false} FlattenImages(cs: seq<seq<CocoAnnotation>>)
    requires OwnImages(cs)
    ensures forall k :: 0 <= k < |Flatten(cs)| ==> 0 <= Flatten(cs)[k].imageId < |cs|
  {
    if cs != [] {
      var n := |cs| - 1;
      assert OwnImages(cs[..n]);
      FlattenImages(cs[..n]);
      var f: seq<CocoAnnotation> := Flatten(cs);
      forall k: int | 0 <= k < |f|
        ensures 0 <= f[k].imageId < |cs|
      {
        if k >= |Flatten(cs[..n])| {
          assert f[k] == cs[n][k - |Flatten(cs[..n])|];
        }
      }
    }
  }

  /** What the image loop has produced: the failure that stopped it, if
      any, the `images` entries so far, and the disk with the images copied
      so far. */
  datatype CopyRun = CopyRun(failure: Option<Error>, images: seq<CocoImage>, disk: Disk)

  /** The image half of one pass for record `i`: its image is loaded for
      its size and copied under its new name into the output images
      directory. Nothing happens once a load has failed. */
  function CopyOne(load: Loader, imagesOut: string, run: CopyRun, i: nat, image: string): (r: CopyRun)
    ensures run.failure.Some? ==> r == run
    ensures r.failure.None? ==> run.failure.None?
  {
    if run.failure.Some? then run
    else
      match load(run.disk, image)
      case Err(e) => CopyRun(Some(e), run.images, run.disk)
      case Ok(p) =>
        var name := RenamedImage(i, image);
        CopyRun(None, run.images + [CocoImage(i, p.width, p.height, name)], run.disk.WriteText(PathJoin(imagesOut, name), p.bytes))
  }

  /** The image half of the record loop over the first records. */
  function CopyImages(load: Loader, imagesOut: string, records: seq<Record>, disk: Disk): (run: CopyRun)
    ensures run.failure.None? ==> |run.images| == |records|
  {
    if records == [] then CopyRun(None, [], disk)
    else
      var n := |records| - 1;
      CopyOne(load, imagesOut, CopyImages(load, imagesOut, records[..n], disk), n, records[n].image)
  }

  /** `categories`: label i under the 1-based id i + 1. */
  function WrittenCategories(labels: seq<string>): (r: seq<CocoCategory>)
    ensures |r| == |labels| && forall i :: 0 <= i < |labels| ==> r[i] == CocoCategory(i + 1, labels[i])
  {
    seq(|labels|, i requires 0 <= i < |labels| => CocoCategory(i + 1, labels[i]))
  }

  /** `CocoWriter.write`, by the document it writes and the disk after the
      image copies. Only a detection dataset is accepted; annotation ids
      start at the dataset's length; the label table is `get_labels()`,
      read after the images are copied. */
  function CocoWrite(ds: Dataset, disk: Disk, decoder: Decoder, imagesOut: string): (Result<CocoDocument>, Disk)
  {
    if ds.kind != ObjectDetection then (Err(AssertionError), disk)
    else
      var run := CopyImages(DiskLoader(decoder, ds.imagesDirectory), imagesOut, ds.records, disk);
      if run.failure.Some? then (Err(run.failure.value), run.disk)
      else
        match GetLabels(ds, run.disk)
        case Err(e) => (Err(e), run.disk)
        case Ok(labels) => (Ok(CocoDocument(run.images, Annotations(ds.records, |ds.records|), WrittenCategories(labels))), run.disk)
  }

  /** Written image i has id i and the renamed file name of record i. */
  predicate Named(images: seq<CocoImage>, records: seq<Record>)
  {
    |images| == |records|
    && forall i :: 0 <= i < |images| ==> images[i].id == i && images[i].fileName == RenamedImage(i, records[i].image)
  }

  lemma NamedSnoc(images: seq<CocoImage>, records: seq<Record>, image: CocoImage)
    requires records != [] && Named(images, records[..|records| - 1])
    requires image.id == |records| - 1 && image.fileName == RenamedImage(|records| - 1, records[|records| - 1].image)
    ensures Named(images + [image], records)
  {
    var a := images + [image];
    forall i | 0 <= i < |a|
      ensures a[i].id == i && a[i].fileName == RenamedImage(i, records[i].image)
    {
      if i < |images| {
        assert a[i] == images[i] && records[..|records| - 1][i] == records[i];
      }
    }
  }

  /** The copies name the records in order: written image i has id i and
      the renamed file name of record i. */
  lemma {:induction false} CopiedImageIds(load: Loader, imagesOut: string, records: seq<Record>, disk: Disk)
    requires CopyImages(load, imagesOut, records, disk).failure.None?
    ensures Named(CopyImages(load, imagesOut, records, disk).images, records)
  {
    if records != [] {
      var n := |records| - 1;
      var prev := CopyImages(load, imagesOut, records[..n], disk);
      var run := CopyOne(load, imagesOut, prev, n, records[n].image);
      assert CopyImages(load, imagesOut, records, disk) == run;
      CopyOneImage(load, imagesOut, prev, n, records[n].image);
      CopiedImageIds(load, imagesOut, records[..n], disk);
      NamedSnoc(prev.images, records, run.images[n]);
    }
  }

  /** A pass that succeeds appends one entry, with the record's position as
      id and its new name. */
  lemma CopyOneImage(load: Loader, imagesOut: string, run: CopyRun, i: nat, image: string)
    requires CopyOne(load, imagesOut, run, i, image).failure.None?
    ensures run.failure.None?
    ensures var r := CopyOne(load, imagesOut, run, i, image);
      && |r.images| == |run.images| + 1 && r.images == run.images + [r.images[|run.images|]]
      && r.images[|run.images|].id == i && r.images[|run.images|].fileName == RenamedImage(i, image)
  {
  }


  lemma {:induction false} CopyStep(load: Loader, imagesOut: string, records: seq<Record>, disk: Disk, i: nat)
    requires i < |records|
    ensures CopyImages(load, imagesOut, records[..i + 1], disk)
      == CopyOne(load, imagesOut, CopyImages(load, imagesOut, records[..i], disk), i, records[i].image)
  {
    assert records[..i + 1][..i] == records[..i];
  }

  /** Once an image has failed, later records change nothing. */
  lemma {:induction false} CopyFailureStops(load: Loader, imagesOut: string, records: seq<Record>, disk: Disk, i: nat)
    requires i <= |records|
    requires CopyImages(load, imagesOut, records[..i], disk).failure.Some?
    ensures CopyImages(load, imagesOut, records, disk) == CopyImages(load, imagesOut, records[..i], disk)
    decreases |records| - i
  {
    if i < |records| {
      assert records[..i + 1][..i] == records[..i];
      CopyFailureStops(load, imagesOut, records, disk, i + 1);
    } else {
      assert records[..i] == records;
    }
  }

  /** The non-degenerate boxes of a concatenation are those of its parts. */
  lemma {:induction false} ImageBoxesAppend(a: seq<CocoAnnotation>, b: seq<CocoAnnotation>, id: int)
    ensures ImageBoxes(a + b, id) == ImageBoxes(a, id) + ImageBoxes(b, id)
  {
    if b != [] {
      var n := |b| - 1;
      assert (a + b)[..|a| + n] == a + b[..n];
      assert (a + b)[|a| + n] == b[n];
      ImageBoxesAppend(a, b[..n], id);
    } else {
      assert a + b == a;
    }
  }

  predicate NonDegenerate(boxes: seq<Box>)
  {
    forall k :: 0 <= k < |boxes| ==> !Degenerate(boxes[k])
  }

  /** The boxes as the reader sees them after the writer's shift. */
  function Shifted(boxes: seq<Box>): (r: seq<Box>)
    ensures |r| == |boxes|
  {
    seq(|boxes|, k requires 0 <= k < |boxes| => boxes[k].(classId := boxes[k].classId + 1))
  }

  /** One record's annotations, read back for its own image, give its boxes
      with every class shifted by one; for any other image they give
      nothing. */
  lemma {:induction false} RecordAnnotationsBoxes(boxes: seq<Box>, imageId: int, firstId: int, id: int)
    requires NonDegenerate(boxes)
    ensures ImageBoxes(RecordAnnotations(boxes, imageId, firstId), id) == if id == imageId then Shifted(boxes) else []
  {
    if boxes != [] {
      var n := |boxes| - 1;
      assert RecordAnnotations(boxes, imageId, firstId)[..n] == RecordAnnotations(boxes[..n], imageId, firstId);
      RecordAnnotationsBoxes(boxes[..n], imageId, firstId, id);
      if id == imageId {
        assert Shifted(boxes) == Shifted(boxes[..n]) + [AnnotationBox(ToAnnotation(boxes[n], imageId, firstId + n))];
      }
    }
  }

  /** Annotations of other images contribute no boxes. */
  lemma {:induction false} ImageBoxesElsewhere(a: seq<CocoAnnotation>, id: int)
    requires forall k :: 0 <= k < |a| ==> a[k].imageId != id
    ensures ImageBoxes(a, id) == []
  {
    if a != [] {
      ImageBoxesElsewhere(a[..|a| - 1], id);
    }
  }

  /** Read back for image j, flattened chunks give chunk j's boxes. */
  lemma {:induction false} FlattenBoxes(cs: seq<seq<CocoAnnotation>>, id: int)
    requires OwnImages(cs)
    ensures ImageBoxes(Flatten(cs), id) == if 0 <= id < |cs| then ImageBoxes(cs[id], id) else []
  {
    if cs != [] {
      var n := |cs| - 1;
      assert OwnImages(cs[..n]);
      FlattenBoxes(cs[..n], id);
      ImageBoxesAppend(Flatten(cs[..n]), cs[n], id);
      if id != n {
        ImageBoxesElsewhere(cs[n], id);
      }
    }
  }

  lemma {:induction false} ChunkBoxes(records: seq<Record>, j: nat, firstId: int)
    requires j < |records| && NonDegenerate(RecordBoxes(records[j]))
    ensures ImageBoxes(Chunk(records, j, firstId), j) == Shifted(RecordBoxes(records[j]))
  {
    RecordAnnotationsBoxes(RecordBoxes(records[j]), j, firstId + BoxCount(records[..j]), j);
  }

  /** The written annotations, read back for image i, give record i's
      boxes shifted by one, and nothing for an image that is not a record
      position. */
  lemma {:induction false} AnnotationsBoxes(records: seq<Record>, firstId: int, id: int)
    requires forall r :: r in records ==> NonDegenerate(RecordBoxes(r))
    ensures ImageBoxes(Annotations(records, firstId), id) == if 0 <= id < |records| then Shifted(RecordBoxes(records[id])) else []
  {
    var cs := Chunks(records, firstId);
    ChunksOwnImages(records, firstId);
    FlattenBoxes(cs, id);
    if 0 <= id < |records| {
      assert records[id] in records;
      assert cs[id] == Chunk(records, id, firstId);
      ChunkBoxes(records, id, firstId);
    }
  }

  /** Categories written for a table read back as `"0"` followed by the
      table: the reader keeps the writer's 1-based ids. */
  lemma {:induction false} WrittenCategoriesReadBack(labels: seq<string>)
    ensures CocoLabels(WrittenCategories(labels)) == if labels == [] then Err(ValueError) else Ok(["0"] + labels)
  {
    var cats := WrittenCategories(labels);
    if labels == [] {
      assert cats == [];
    } else {
      WrittenNameMap(labels);
      TableFromNameMap(NameMap(cats), labels, CocoLabels(cats).value);
    }
  }

  /** A table built from a name map that has no id 0 and names 1 .. n after
      the n labels is "0" followed by the labels. */
  lemma TableFromNameMap(m: map<int, string>, labels: seq<string>, r: seq<string>)
    requires 0 !in m && forall id :: 1 <= id <= |labels| ==> id in m && m[id] == labels[id - 1]
    requires |r| == |labels| + 1 && forall i :: 0 <= i < |r| ==> r[i] == if i in m then m[i] else IntToString(i)
    ensures r == ["0"] + labels
  {
    var want := ["0"] + labels;
    assert r[0] == want[0] by {
      ZeroToString();
    }
    forall i | 1 <= i < |r|
      ensures r[i] == want[i]
    {
    }
  }

  /** The written categories map id i + 1 to label i, have no id 0, and
      their largest id is the table's length. */
  lemma {:induction false} WrittenNameMap(labels: seq<string>)
    requires labels != []
    ensures 0 !in NameMap(WrittenCategories(labels))
    ensures forall id :: 1 <= id <= |labels| ==>
      id in NameMap(WrittenCategories(labels)) && NameMap(WrittenCategories(labels))[id] == labels[id - 1]
    ensures MaxId(WrittenCategories(labels)) == |labels|
  {
    var cats := WrittenCategories(labels);
    var m := NameMap(cats);
    NameMapKeys(cats);
    forall id | 1 <= id <= |labels|
      ensures id in m && m[id] == labels[id - 1]
    {
      assert cats[id - 1].id == id;
      NameMapLast(cats, id - 1);
    }
    assert cats[|labels| - 1].id == |labels|;
    assert forall k :: 0 <= k < |cats| ==> cats[k].id != 0;
  }

  /** What the round trip needs of the dataset: detection records whose
      boxes are non-degenerate and free of repeats. */
  predicate WriterInput(ds: Dataset)
  {
    && ds.kind == ObjectDetection && WellKinded(ds)
    && forall r :: r in ds.records ==> NonDegenerate(RecordBoxes(r)) && Distinct(RecordBoxes(r))
  }

  lemma {:induction false} ShiftedDistinct(boxes: seq<Box>)
    requires Distinct(boxes)
    ensures Distinct(Shifted(boxes))
  {
    var s := Shifted(boxes);
    forall i, j | 0 <= i < j < |s|
      ensures s[i] != s[j]
    {
      assert boxes[i] != boxes[j];
    }
  }

  /** The written annotations group back into record i's boxes, shifted. */
  lemma {:induction false} WrittenGroups(records: seq<Record>, i: nat)
    requires forall r :: r in records ==> NonDegenerate(RecordBoxes(r)) && Distinct(RecordBoxes(r))
    requires i < |records|
    ensures Get(Grouped(Annotations(records, |records|)), i) == Shifted(RecordBoxes(records[i]))
  {
    var anns := Annotations(records, |records|);
    assert records[i] in records;
    GroupedIsDedup(anns, i);
    AnnotationsBoxes(records, |records|, i);
    ShiftedDistinct(RecordBoxes(records[i]));
    DedupSpec(Shifted(RecordBoxes(records[i])));
  }

  /** The parts of a successfully written document. */
  lemma {:induction false} WrittenParts(ds: Dataset, disk: Disk, decoder: Decoder, imagesOut: string)
    requires CocoWrite(ds, disk, decoder, imagesOut).0.Ok?
    ensures CopyImages(DiskLoader(decoder, ds.imagesDirectory), imagesOut, ds.records, disk).failure.None?
    ensures CocoWrite(ds, disk, decoder, imagesOut).1 == CopyImages(DiskLoader(decoder, ds.imagesDirectory), imagesOut, ds.records, disk).disk
    ensures GetLabels(ds, CocoWrite(ds, disk, decoder, imagesOut).1).Ok?
    ensures CocoWrite(ds, disk, decoder, imagesOut).0.value
      == CocoDocument(CopyImages(DiskLoader(decoder, ds.imagesDirectory), imagesOut, ds.records, disk).images,
                      Annotations(ds.records, |ds.records|),
                      WrittenCategories(GetLabels(ds, CocoWrite(ds, disk, decoder, imagesOut).1).value))
  {
  }

  /** Images renamed from the records, read back with the records'
      annotations, give the renamed records with every class one higher. */
  lemma {:induction false} ReadBack(records: seq<Record>, images: seq<CocoImage>)
    requires forall r :: r in records ==> NonDegenerate(RecordBoxes(r)) && Distinct(RecordBoxes(r))
    requires |images| == |records|
    requires forall i :: 0 <= i < |records| ==> images[i].id == i && images[i].fileName == RenamedImage(i, records[i].image)
    ensures forall i :: 0 <= i < |records| ==>
      CocoRecords(images, Grouped(Annotations(records, |records|)))[i] == Record(RenamedImage(i, records[i].image), Boxes(Shifted(RecordBoxes(records[i]))))
  {
    forall i | 0 <= i < |records|
      ensures CocoRecords(images, Grouped(Annotations(records, |records|)))[i] == Record(RenamedImage(i, records[i].image), Boxes(Shifted(RecordBoxes(records[i]))))
    {
      WrittenGroups(records, i);
    }
  }

  /** Reading back what the writer wrote gives its label table with `"0"`
      prepended (the reader keeps the writer's 1-based category ids), or a
      ValueError when the table was empty. */
  lemma {:induction false} WriteThenReadLabels(ds: Dataset, disk: Disk, decoder: Decoder, imagesOut: string, document: CocoDocument, d: Disk)
    requires CocoWrite(ds, disk, decoder, imagesOut) == (Ok(document), d)
    ensures GetLabels(ds, d).Ok?
    ensures GetLabels(ds, d).value == [] ==> CocoRead(document, imagesOut) == Err(ValueError)
    ensures GetLabels(ds, d).value != [] ==>
      CocoRead(document, imagesOut).Ok? && CocoRead(document, imagesOut).value.labelNames == ["0"] + GetLabels(ds, d).value
  {
    WrittenParts(ds, disk, decoder, imagesOut);
    WrittenCategoriesReadBack(GetLabels(ds, d).value);
  }

  /** Reading back what the writer wrote gives the records with image i
      renamed `{i}.{ext}` and every class id one higher: the reader does
      not undo the writer's shift. */
  lemma {:induction false} WriteThenReadRecords(ds: Dataset, disk: Disk, decoder: Decoder, imagesOut: string, document: CocoDocument, d: Disk)
    requires WriterInput(ds)
    requires CocoWrite(ds, disk, decoder, imagesOut) == (Ok(document), d)
    ensures CocoRead(document, imagesOut).Ok? ==> |CocoRead(document, imagesOut).value.records| == |ds.records|
    ensures CocoRead(document, imagesOut).Ok? ==> forall i :: 0 <= i < |ds.records| ==>
      CocoRead(document, imagesOut).value.records[i] == Record(RenamedImage(i, ds.records[i].image), Boxes(Shifted(ds.records[i].labels.boxes)))
  {
    var load := DiskLoader(decoder, ds.imagesDirectory);
    var records := ds.records;
    WrittenParts(ds, disk, decoder, imagesOut);
    var images := CopyImages(load, imagesOut, records, disk).images;
    assert document.images == images && document.annotations == Annotations(records, |records|);
    CopiedImageIds(load, imagesOut, records, disk);
    ReadBack(records, images);
    if CocoRead(document, imagesOut).Ok? {
      var back := CocoRead(document, imagesOut).value.records;
      assert back == CocoRecords(images, Grouped(Annotations(records, |records|)));
      forall i | 0 <= i < |records|
        ensures back[i] == Record(RenamedImage(i, records[i].image), Boxes(Shifted(records[i].labels.boxes)))
      {
        assert Fits(ObjectDetection, records[i].labels);
      }
    }
  }

  /** The inner loop of `CocoWriter.write`: one annotation per box, the
      index rising by one each. */
  method AnnotateRecord(boxes: seq<Box>, imageId: int, annotations: seq<CocoAnnotation>, index: int)
    returns (annotations': seq<CocoAnnotation>, index': int)
    ensures annotations' == annotations + RecordAnnotations(boxes, imageId, index)
    ensures index' == index + |boxes|
  {
    annotations', index' := annotations, index;
    for k := 0 to |boxes|
      invariant annotations' == annotations + RecordAnnotations(boxes[..k], imageId, index)
      invariant index' == index + k
    {
      var b := boxes[k];
      annotations' := annotations' + [CocoAnnotation(index', imageId, b.classId + 1, (b.xMax - b.xMin) * (b.yMax - b.yMin), b.xMin, b.yMin, b.xMax - b.xMin, b.yMax - b.yMin)];
      index' := index' + 1;
    }
    assert boxes[..|boxes|] == boxes;
  }

  /** The annotation state after the first i records: the chunks so far,
      their concatenation, and the running index past their boxes. */
  predicate Annotated(records: seq<Record>, firstId: int, i: nat, chunks: seq<seq<CocoAnnotation>>, annotations: seq<CocoAnnotation>, index: int)
    requires i <= |records|
  {
    && |chunks| == i && (forall j :: 0 <= j < i ==> chunks[j] == Chunk(records, j, firstId))
    && annotations == Flatten(chunks)
    && index == firstId + BoxCount(records[..i])
  }

  /** The annotation half of one pass of the record loop. */
  method AnnotateNext(records: seq<Record>, firstId: int, i: nat, ghost chunks: seq<seq<CocoAnnotation>>, annotations: seq<CocoAnnotation>, index: int)
    returns (ghost chunks': seq<seq<CocoAnnotation>>, annotations': seq<CocoAnnotation>, index': int)
    requires i < |records| && Annotated(records, firstId, i, chunks, annotations, index)
    ensures Annotated(records, firstId, i + 1, chunks', annotations', index')
    ensures annotations' == annotations + RecordAnnotations(RecordBoxes(records[i]), i, index)
  {
    var boxes := RecordBoxes(records[i]);
    FlattenSnoc(chunks, RecordAnnotations(boxes, i, index));
    ChunksGrow(records, firstId, chunks, i, index);
    chunks' := chunks + [RecordAnnotations(boxes, i, index)];
    BoxCountStep(records, i);
    annotations', index' := AnnotateRecord(boxes, i, annotations, index);
  }

  /** The image half of one pass of the record loop: the image is loaded
      and copied under its new name. */
  method CopyNext(load: Loader, imagesOut: string, records: seq<Record>, disk: Disk, i: nat, images: seq<CocoImage>, d: Disk)
    returns (run: CopyRun)
    requires i < |records| && CopyImages(load, imagesOut, records[..i], disk) == CopyRun(None, images, d)
    ensures run == CopyImages(load, imagesOut, records[..i + 1], disk)
  {
    CopyStep(load, imagesOut, records, disk, i);
    var image := load(d, records[i].image);
    if image.Err? {
      return CopyRun(Some(image.error), images, d);
    }
    var name := RenamedImage(i, records[i].image);
    run := CopyRun(None, images + [CocoImage(i, image.value.width, image.value.height, name)], d.WriteText(PathJoin(imagesOut, name), image.value.bytes));
  }

  /** The record loop of `CocoWriter.write`: annotations with a running
      index that starts at `firstId`, and each image loaded and copied under
      its new name. A failed load ends the loop with that failure. */
  method RecordLoop(load: Loader, imagesOut: string, records: seq<Record>, disk: Disk, firstId: int)
    returns (run: CopyRun, annotations: seq<CocoAnnotation>)
    ensures run == CopyImages(load, imagesOut, records, disk)
    ensures run.failure.None? ==> annotations == Annotations(records, firstId)
  {
    annotations := [];
    var images: seq<CocoImage> := [];
    var d := disk;
    var annotationIndex := firstId;
    ghost var chunks: seq<seq<CocoAnnotation>> := [];
    for i := 0 to |records|
      invariant CopyImages(load, imagesOut, records[..i], disk) == CopyRun(None, images, d)
      invariant Annotated(records, firstId, i, chunks, annotations, annotationIndex)
    {
      chunks, annotations, annotationIndex := AnnotateNext(records, firstId, i, chunks, annotations, annotationIndex);
      var next := CopyNext(load, imagesOut, records, disk, i, images, d);
      if next.failure.Some? {
        CopyFailureStops(load, imagesOut, records, disk, i + 1);
        return next, annotations;
      }
      images, d := next.images, next.disk;
    }
    assert records[..|records|] == records;
    ChunksEqual(records, firstId, chunks);
    run := CopyRun(None, images, d);
  }

  lemma {:induction false} WrittenCategoriesStep(labels: seq<string>, i: nat)
    requires i < |labels|
    ensures WrittenCategories(labels[..i + 1]) == WrittenCategories(labels[..i]) + [CocoCategory(i + 1, labels[i])]
  {
    var a := WrittenCategories(labels[..i + 1]);
    var b := WrittenCategories(labels[..i]) + [CocoCategory(i + 1, labels[i])];
    assert |a| == |b|;
    forall k | 0 <= k < |a|
      ensures a[k] == b[k]
    {
      assert labels[..i + 1][k] == labels[k];
      if k < i {
        assert labels[..i][k] == labels[k];
      }
    }
  }

  /** `CocoWriter.write`: the record loop, then the label table, then the
      categories loop. */
  method Write(ds: Dataset, disk: Disk, decoder: Decoder, imagesOut: string) returns (r: Result<CocoDocument>, d: Disk)
    ensures (r, d) == CocoWrite(ds, disk, decoder, imagesOut)
  {
    if ds.kind != ObjectDetection {
      return Err(AssertionError), disk;
    }
    var run, annotations := RecordLoop(DiskLoader(decoder, ds.imagesDirectory), imagesOut, ds.records, disk, |ds.records|);
    d := run.disk;
    if run.failure.Some? {
      return Err(run.failure.value), d;
    }
    var labels := GetLabels(ds, d);
    if labels.Err? {
      return Err(labels.error), d;
    }
    var categories: seq<CocoCategory> := [];
    for i := 0 to |labels.value|
      invariant categories == WrittenCategories(labels.value[..i])
    {
      WrittenCategoriesStep(labels.value, i);
      categories := categories + [CocoCategory(i + 1, labels.value[i])];
    }
    assert labels.value[..|labels.value|] == labels.value;
    return Ok(CocoDocument(run.images, annotations, categories)), d;
  }
}
