/** `ImageDataset` and its three kinds: the records a manifest loads into,
    the class-id queries, the label table with its memo, and the factory
    that detects the kind before loading. */
module Datasets {
  import opened Wrappers
  import opened Strings
  import opened Files
  import opened FileReading
  import opened LabelCodecs
  import opened KindDetection
  import PyLists

  /** A record's label list, one variant per kind. */
  datatype Labels = ClassIds(ids: seq<int>) | Boxes(boxes: seq<Box>) | Relations(relations: seq<Relation>)

  /** One `(image, labels)` pair. */
  datatype Record = Record(image: string, labels: Labels)

  /** A dataset: its kind, records, base and images directories, and the label
      names it was given (`[]` when none were given, which the source treats
      the same as an empty list). */
  datatype Dataset = Dataset(kind: Kind, records: seq<Record>, directory: string, imagesDirectory: string, labelNames: seq<string>)
  {
    /** `len(dataset)`. */
    function Count(): nat
    {
      |records|
    }
  }

  predicate Fits(kind: Kind, labels: Labels)
  {
    match kind
    case ImageClassification => labels.ClassIds?
    case ObjectDetection => labels.Boxes?
    case VisualRelationship => labels.Relations?
  }

  /** Every record's labels are of the dataset's kind. */
  predicate WellKinded(ds: Dataset)
  {
    forall i :: 0 <= i < |ds.records| ==> Fits(ds.kind, ds.records[i].labels)
  }

  /** `ImageDataset.__init__`: the images directory defaults to the base
      directory. */
  function NewDataset(kind: Kind, records: seq<Record>, directory: string, imagesDirectory: Option<string>, labelNames: seq<string>): (ds: Dataset)
    ensures ds.kind == kind && ds.records == records && ds.directory == directory && ds.labelNames == labelNames
    ensures ds.imagesDirectory == if imagesDirectory.Some? then imagesDirectory.value else directory
  {
    Dataset(kind, records, directory, if imagesDirectory.Some? then imagesDirectory.value else directory, labelNames)
  }

  // ------------------------------------------------------------ class slots

  function BoxIds(boxes: seq<Box>): (r: seq<int>)
    ensures |r| == |boxes| && forall i :: 0 <= i < |boxes| ==> r[i] == boxes[i].classId
  {
    seq(|boxes|, i requires 0 <= i < |boxes| => boxes[i].classId)
  }

  function SubjectIds(rs: seq<Relation>): (r: seq<int>)
    ensures |r| == |rs| && forall i :: 0 <= i < |rs| ==> r[i] == rs[i].subject.classId
  {
    seq(|rs|, i requires 0 <= i < |rs| => rs[i].subject.classId)
  }

  function ObjectIds(rs: seq<Relation>): (r: seq<int>)
    ensures |r| == |rs| && forall i :: 0 <= i < |rs| ==> r[i] == rs[i].obj.classId
  {
    seq(|rs|, i requires 0 <= i < |rs| => rs[i].obj.classId)
  }

  function PredicateIds(rs: seq<Relation>): (r: seq<int>)
    ensures |r| == |rs| && forall i :: 0 <= i < |rs| ==> r[i] == rs[i].predicateId
  {
    seq(|rs|, i requires 0 <= i < |rs| => rs[i].predicateId)
  }

  /** The ids in a record's class slots, in the order the source visits them:
      every id for classification, slot 0 for detection, and slots 0, then
      5, then 10 for relationships. */
  function SlotIds(labels: Labels): seq<int>
  {
    match labels
    case ClassIds(ids) => ids
    case Boxes(boxes) => BoxIds(boxes)
    case Relations(rs) => SubjectIds(rs) + ObjectIds(rs) + PredicateIds(rs)
  }

  /** An id is in a record's class slots exactly when some label carries it in
      one of its kind's class slots. */
  lemma SlotIdsMembers(labels: Labels, x: int)
    ensures labels.ClassIds? ==> (x in SlotIds(labels) <==> x in labels.ids)
    ensures labels.Boxes? ==> (x in SlotIds(labels) <==> exists i :: 0 <= i < |labels.boxes| && labels.boxes[i].classId == x)
    ensures labels.Relations? ==> (x in SlotIds(labels) <==>
      exists i :: 0 <= i < |labels.relations| && x in [labels.relations[i].subject.classId, labels.relations[i].obj.classId, labels.relations[i].predicateId])
  {
    if labels.Relations? {
      var rs := labels.relations;
      if x in SlotIds(labels) {
        var k :| 0 <= k < |SlotIds(labels)| && SlotIds(labels)[k] == x;
        var i := if k < |rs| then k else if k < 2 * |rs| then k - |rs| else k - 2 * |rs|;
        assert x in [rs[i].subject.classId, rs[i].obj.classId, rs[i].predicateId];
      }
      if exists i :: 0 <= i < |rs| && x in [rs[i].subject.classId, rs[i].obj.classId, rs[i].predicateId] {
        var i :| 0 <= i < |rs| && x in [rs[i].subject.classId, rs[i].obj.classId, rs[i].predicateId];
        if x == rs[i].subject.classId {
          assert SlotIds(labels)[i] == x;
        } else if x == rs[i].obj.classId {
          assert SlotIds(labels)[|rs| + i] == x;
        } else {
          assert SlotIds(labels)[2 * |rs| + i] == x;
        }
      }
    } else if labels.Boxes? {
      if x in SlotIds(labels) {
        var i :| 0 <= i < |labels.boxes| && SlotIds(labels)[i] == x;
      }
    }
  }

  function Elements(s: seq<int>): set<int>
  {
    set x | x in s
  }

  /** The distinct ids in the records' class slots. */
  function ClassSet(records: seq<Record>): set<int>
  {
    if records == [] then {}
    else ClassSet(records[..|records| - 1]) + Elements(SlotIds(records[|records| - 1].labels))
  }

  lemma {:induction false} ClassSetMembers(records: seq<Record>, x: int)
    ensures x in ClassSet(records) <==> exists i :: 0 <= i < |records| && x in SlotIds(records[i].labels)
  {
    if records != [] {
      var n := |records| - 1;
      ClassSetMembers(records[..n], x);
      assert forall i :: 0 <= i < n ==> records[..n][i] == records[i];
    }
  }

  /** The class-slot ids of all the records, record after record. */
  function AllSlotIds(records: seq<Record>): (r: seq<int>)
    ensures forall x :: x in r <==> x in ClassSet(records)
  {
    if records == [] then []
    else
      var n := |records| - 1;
      var r := AllSlotIds(records[..n]) + SlotIds(records[n].labels);
      assert forall x :: x in Elements(SlotIds(records[n].labels)) <==> x in SlotIds(records[n].labels);
      r
  }

  /** One more record adds its class-slot ids. */
  lemma AllSlotIdsSnoc(records: seq<Record>, i: nat)
    requires i < |records|
    ensures AllSlotIds(records[..i + 1]) == AllSlotIds(records[..i]) + SlotIds(records[i].labels)
  {
    assert records[..i + 1][..i] == records[..i];
  }

  // ------------------------------------------------------------ relabelling

  /** The number of labels in a record's list. */
  function Size(labels: Labels): nat
  {
    match labels
    case ClassIds(ids) => |ids|
    case Boxes(boxes) => |boxes|
    case Relations(rs) => |rs|
  }

  /** A box with its class slot set to 0. */
  function AnonBox(b: Box): Box
  {
    b.(classId := 0)
  }

  /** A relationship with its three class slots set to 0. */
  function AnonRelation(rel: Relation): Relation
  {
    Relation(AnonBox(rel.subject), AnonBox(rel.obj), 0)
  }

  /** A label list with every class slot set to 0: what a relabelling must
      not touch (the coordinates, the order and the number of labels). */
  function Anonymous(labels: Labels): Labels
  {
    match labels
    case ClassIds(ids) => ClassIds(seq(|ids|, _ => 0))
    case Boxes(boxes) => Boxes(seq(|boxes|, i requires 0 <= i < |boxes| => AnonBox(boxes[i])))
    case Relations(rs) => Relations(seq(|rs|, i requires 0 <= i < |rs| => AnonRelation(rs[i])))
  }

  /** `[f(x) for x in ids]`. */
  function MapIds(ids: seq<int>, f: int -> int): (r: seq<int>)
    ensures |r| == |ids| && forall i :: 0 <= i < |ids| ==> r[i] == f(ids[i])
  {
    seq(|ids|, i requires 0 <= i < |ids| => f(ids[i]))
  }

  lemma MapIdsAppend(a: seq<int>, b: seq<int>, f: int -> int)
    ensures MapIds(a + b, f) == MapIds(a, f) + MapIds(b, f)
  {
  }

  /** A box with its class id replaced. */
  function RelabelBox(b: Box, f: int -> int): (r: Box)
    ensures r.classId == f(b.classId) && AnonBox(r) == AnonBox(b)
  {
    b.(classId := f(b.classId))
  }

  /** A relationship with its three class slots replaced. */
  function RelabelRelation(rel: Relation, f: int -> int): (r: Relation)
    ensures r.subject.classId == f(rel.subject.classId) && r.obj.classId == f(rel.obj.classId)
    ensures r.predicateId == f(rel.predicateId) && AnonRelation(r) == AnonRelation(rel)
  {
    Relation(RelabelBox(rel.subject, f), RelabelBox(rel.obj, f), f(rel.predicateId))
  }

  function RelabelBoxes(boxes: seq<Box>, f: int -> int): (r: seq<Box>)
    ensures BoxIds(r) == MapIds(BoxIds(boxes), f)
    ensures Anonymous(Boxes(r)) == Anonymous(Boxes(boxes))
  {
    var r := seq(|boxes|, i requires 0 <= i < |boxes| => RelabelBox(boxes[i], f));
    assert Anonymous(Boxes(r)).boxes == Anonymous(Boxes(boxes)).boxes;
    r
  }

  function RelabelRelations(rs: seq<Relation>, f: int -> int): (r: seq<Relation>)
    ensures SubjectIds(r) == MapIds(SubjectIds(rs), f)
    ensures ObjectIds(r) == MapIds(ObjectIds(rs), f)
    ensures PredicateIds(r) == MapIds(PredicateIds(rs), f)
    ensures Anonymous(Relations(r)) == Anonymous(Relations(rs))
  {
    var r := seq(|rs|, i requires 0 <= i < |rs| => RelabelRelation(rs[i], f));
    assert Anonymous(Relations(r)).relations == Anonymous(Relations(rs)).relations;
    r
  }

  /** Every class slot of a record's labels replaced through `f`: every id
      for classification, slot 0 for detection, slots 0, 5 and 10 for
      relationships; everything else is copied. */
  function Relabel(labels: Labels, f: int -> int): (r: Labels)
    ensures SlotIds(r) == MapIds(SlotIds(labels), f)
    ensures Anonymous(r) == Anonymous(labels) && Size(r) == Size(labels)
    ensures forall kind :: Fits(kind, r) <==> Fits(kind, labels)
  {
    match labels
    case ClassIds(ids) => ClassIds(MapIds(ids, f))
    case Boxes(boxes) => Boxes(RelabelBoxes(boxes, f))
    case Relations(rs) =>
      MapIdsAppend(SubjectIds(rs), ObjectIds(rs), f);
      MapIdsAppend(SubjectIds(rs) + ObjectIds(rs), PredicateIds(rs), f);
      Relations(RelabelRelations(rs, f))
  }

  /** `mapping.get(x, x)`: the ids the mapping does not name are kept. */
  function Renumber(m: map<int, int>): (f: int -> int)
    ensures forall x :: f(x) == if x in m then m[x] else x
  {
    x => PyLists.Get(m, x, x)
  }

  /** Relabelling every record of a list. */
  function RelabelAll(records: seq<Record>, f: int -> int): (r: seq<Record>)
    ensures |r| == |records|
    ensures forall i :: 0 <= i < |records| ==> r[i].image == records[i].image && r[i].labels == Relabel(records[i].labels, f)
  {
    seq(|records|, i requires 0 <= i < |records| => Record(records[i].image, Relabel(records[i].labels, f)))
  }

  /** The ids in use after a relabelling are exactly the images of the ids in
      use before it. */
  lemma RelabelAllClassSet(records: seq<Record>, f: int -> int, x: int)
    ensures x in ClassSet(RelabelAll(records, f)) <==> exists y :: y in ClassSet(records) && f(y) == x
  {
    var r := RelabelAll(records, f);
    ClassSetMembers(r, x);
    if x in ClassSet(r) {
      var i :| 0 <= i < |r| && x in SlotIds(r[i].labels);
      var ids := SlotIds(records[i].labels);
      var j :| 0 <= j < |ids| && MapIds(ids, f)[j] == x;
      ClassSetMembers(records, ids[j]);
      assert ids[j] in ClassSet(records);
    }
    if exists y :: y in ClassSet(records) && f(y) == x {
      var y :| y in ClassSet(records) && f(y) == x;
      ClassSetMembers(records, y);
      var i :| 0 <= i < |records| && y in SlotIds(records[i].labels);
      var ids := SlotIds(records[i].labels);
      var j :| 0 <= j < |ids| && ids[j] == y;
      assert SlotIds(r[i].labels)[j] == x;
    }
  }

  /** A relabelling that fixes every id in use changes nothing. */
  lemma RelabelFixes(labels: Labels, f: int -> int)
    requires forall x :: x in SlotIds(labels) ==> f(x) == x
    ensures Relabel(labels, f) == labels
  {
    match labels
    case ClassIds(ids) =>
      forall i | 0 <= i < |ids|
        ensures MapIds(ids, f)[i] == ids[i]
      {
        assert ids[i] in SlotIds(labels);
      }
    case Boxes(boxes) =>
      RelabelBoxesFixes(boxes, f);
    case Relations(rs) =>
      RelabelRelationsFixes(rs, f);
  }

  lemma RelabelBoxesFixes(boxes: seq<Box>, f: int -> int)
    requires forall x :: x in BoxIds(boxes) ==> f(x) == x
    ensures RelabelBoxes(boxes, f) == boxes
  {
    var r := RelabelBoxes(boxes, f);
    forall i | 0 <= i < |boxes|
      ensures r[i] == boxes[i]
    {
      assert BoxIds(boxes)[i] in BoxIds(boxes);
      assert BoxIds(r)[i] == boxes[i].classId;
      assert AnonBox(r[i]) == Anonymous(Boxes(r)).boxes[i];
    }
  }

  lemma RelabelRelationsFixes(rs: seq<Relation>, f: int -> int)
    requires forall x :: x in SubjectIds(rs) + ObjectIds(rs) + PredicateIds(rs) ==> f(x) == x
    ensures RelabelRelations(rs, f) == rs
  {
    var r := RelabelRelations(rs, f);
    var all := SubjectIds(rs) + ObjectIds(rs) + PredicateIds(rs);
    var n := |rs|;
    forall i | 0 <= i < n
      ensures r[i] == rs[i]
    {
      assert all[i] == rs[i].subject.classId && all[n + i] == rs[i].obj.classId && all[2 * n + i] == rs[i].predicateId;
      assert SubjectIds(r)[i] == rs[i].subject.classId;
      assert ObjectIds(r)[i] == rs[i].obj.classId;
      assert PredicateIds(r)[i] == rs[i].predicateId;
      assert AnonRelation(r[i]) == Anonymous(Relations(r)).relations[i];
    }
  }

  // ------------------------------------------------------ get_max_class_id

  /** The largest of `m` and the elements of `s`. */
  function MaxFrom(m: int, s: seq<int>): (r: int)
    ensures r >= m && forall i :: 0 <= i < |s| ==> r >= s[i]
    ensures r == m || r in s
  {
    if s == [] then m
    else
      var k := MaxFrom(m, s[..|s| - 1]);
      var x := s[|s| - 1];
      if k >= x then k else x
  }

  /** One record's step of `get_max_class_id`: `max(labels)` of an empty
      classification list is a ValueError; an empty detection or relationship
      list is skipped. */
  function RecordMax(labels: Labels, m: nat): (r: Result<nat>)
    ensures r.Err? <==> labels == ClassIds([])
    ensures r.Err? ==> r.error == ValueError
    ensures r.Ok? ==> r.value == MaxFrom(m, SlotIds(labels))
  {
    if labels.ClassIds? && labels.ids == [] then Err(ValueError) else Ok(MaxFrom(m, SlotIds(labels)))
  }

  /** `get_max_class_id()` over the records, starting from 0. */
  function MaxClassId(records: seq<Record>): (r: Result<nat>)
    ensures r.Err? ==> r.error == ValueError
  {
    if records == [] then Ok(0)
    else
      match MaxClassId(records[..|records| - 1])
      case Err(e) => Err(e)
      case Ok(m) => RecordMax(records[|records| - 1].labels, m)
  }

  /** The maximum is never negative, bounds every id in use, and is 0 or one
      of them; it fails exactly when a classification record has no label. */
  lemma {:induction false} MaxClassIdSpec(records: seq<Record>)
    ensures MaxClassId(records).Err? <==> exists i :: 0 <= i < |records| && records[i].labels == ClassIds([])
    ensures MaxClassId(records).Ok? ==>
      var m := MaxClassId(records).value;
      && (forall x :: x in ClassSet(records) ==> x <= m)
      && (m == 0 || m in ClassSet(records))
  {
    if records != [] {
      var n := |records| - 1;
      var init := records[..n];
      MaxClassIdSpec(init);
      assert forall i :: 0 <= i < n ==> init[i] == records[i];
      assert records == init + [records[n]];
    }
  }

  /** `get_max_class_id` of each kind: the loop over the records. */
  method GetMaxClassId(records: seq<Record>) returns (r: Result<nat>)
    ensures r == MaxClassId(records)
  {
    var maxId: nat := 0;
    var i := 0;
    while i < |records|
      invariant 0 <= i <= |records|
      invariant MaxClassId(records[..i]) == Ok(maxId)
    {
      assert records[..i + 1][..i] == records[..i];
      var labels := records[i].labels;
      if labels.ClassIds? && labels.ids == [] {
        MaxClassIdSpec(records);
        return Err(ValueError);
      }
      maxId := MaxFrom(maxId, SlotIds(labels));
      i := i + 1;
    }
    assert records[..i] == records;
    return Ok(maxId);
  }

  // ------------------------------------------------------ get_num_classes

  /** `get_num_classes` of each kind: a set grown record by record. */
  method GetNumClasses(records: seq<Record>) returns (n: nat)
    ensures n == |ClassSet(records)|
  {
    var classes: set<int> := {};
    var i := 0;
    while i < |records|
      invariant 0 <= i <= |records|
      invariant classes == ClassSet(records[..i])
    {
      assert records[..i + 1][..i] == records[..i];
      classes := classes + Elements(SlotIds(records[i].labels));
      i := i + 1;
    }
    assert records[..i] == records;
    return |classes|;
  }

  // ------------------------------------------------------------ get_labels

  /** The table generated when there is no labels.txt: the names "0" up to
      the maximum id. */
  function GeneratedLabels(maxId: nat): (r: seq<string>)
    ensures |r| == maxId + 1
    ensures forall i :: 0 <= i <= maxId ==> r[i] == IntToString(i)
  {
    seq(maxId + 1, i requires 0 <= i <= maxId => IntToString(i))
  }

  lemma GeneratedLabelsDistinct(maxId: nat)
    ensures Distinct(GeneratedLabels(maxId))
  {
    var g := GeneratedLabels(maxId);
    forall i, j | 0 <= i < j < |g|
      ensures g[i] != g[j]
    {
      ParseIntOfIntToString(i);
      ParseIntOfIntToString(j);
    }
  }

  function LabelsFile(directory: string): string
  {
    PathJoin(directory, "labels.txt")
  }

  /** `get_labels()`: the lines of labels.txt when it exists, else the
      generated table; then the table must be duplicate-free and at least as
      long as the maximum id. */
  function GetLabels(ds: Dataset, disk: Disk): (r: Result<seq<string>>)
    ensures r.Ok? ==> Distinct(r.value) && MaxClassId(ds.records).Ok? && |r.value| >= MaxClassId(ds.records).value
    ensures r.Err? ==> r.error == AssertionError || r.error == ValueError
  {
    match LabelTable(ds, disk)
    case Err(e) => Err(e)
    case Ok(labels) =>
      if !Distinct(labels) then Err(AssertionError)
      else
        match MaxClassId(ds.records)
        case Err(e) => Err(e)
        case Ok(m) => if |labels| < m then Err(AssertionError) else Ok(labels)
  }

  /** The table before the checks: labels.txt's lines, or the generated table. */
  function LabelTable(ds: Dataset, disk: Disk): (r: Result<seq<string>>)
    ensures r.Err? ==> r.error == ValueError
  {
    var path := LabelsFile(ds.directory);
    if path in disk.files then Ok(SplitLines(disk.files[path]))
    else
      match MaxClassId(ds.records)
      case Err(e) => Err(e)
      case Ok(m) => Ok(GeneratedLabels(m))
  }

  /** Without labels.txt the table is exactly "0" .. str(max id), which names
      every id in use. */
  lemma GetLabelsGenerated(ds: Dataset, disk: Disk)
    requires LabelsFile(ds.directory) !in disk.files
    requires MaxClassId(ds.records).Ok?
    ensures GetLabels(ds, disk) == Ok(GeneratedLabels(MaxClassId(ds.records).value))
    ensures forall x :: x in ClassSet(ds.records) ==> x < |GetLabels(ds, disk).value|
  {
    MaxClassIdSpec(ds.records);
    GeneratedLabelsDistinct(MaxClassId(ds.records).value);
  }

  /** With labels.txt present its lines are the table, as long as they are
      distinct and long enough. */
  lemma GetLabelsFromFile(ds: Dataset, disk: Disk)
    requires LabelsFile(ds.directory) in disk.files
    ensures var lines := SplitLines(disk.files[LabelsFile(ds.directory)]);
      GetLabels(ds, disk).Ok? <==> Distinct(lines) && MaxClassId(ds.records).Ok? && |lines| >= MaxClassId(ds.records).value
    ensures GetLabels(ds, disk).Ok? ==> GetLabels(ds, disk).value == SplitLines(disk.files[LabelsFile(ds.directory)])
  {
  }

  /** The `labels` property: given names when there are any, else `get_labels()`. */
  function LabelsOf(ds: Dataset, disk: Disk): (r: Result<seq<string>>)
    ensures ds.labelNames != [] ==> r == Ok(ds.labelNames)
    ensures ds.labelNames == [] ==> r == GetLabels(ds, disk)
  {
    if ds.labelNames != [] then Ok(ds.labelNames) else GetLabels(ds, disk)
  }

  /** Storing what `labels` computed does not change what it returns next. */
  lemma LabelsMemoStable(ds: Dataset, disk: Disk)
    requires LabelsOf(ds, disk).Ok?
    ensures LabelsOf(ds.(labelNames := LabelsOf(ds, disk).value), disk) == LabelsOf(ds, disk)
  {
  }

  /** A dataset object whose label names are filled in on first use. */
  class ImageDataset {
    const kind: Kind
    const records: seq<Record>
    const directory: string
    const imagesDirectory: string
    var labelNames: seq<string>

    function Value(): Dataset
      reads this
    {
      Dataset(kind, records, directory, imagesDirectory, labelNames)
    }

    constructor (ds: Dataset)
      ensures Value() == ds
    {
      kind := ds.kind;
      records := ds.records;
      directory := ds.directory;
      imagesDirectory := ds.imagesDirectory;
      labelNames := ds.labelNames;
    }

    /** The `labels` property: stores the computed table when none was given. */
    method Labels(disk: Disk) returns (r: Result<seq<string>>)
      modifies this`labelNames
      ensures r == LabelsOf(old(Value()), disk)
      ensures labelNames == if r.Ok? then r.value else old(labelNames)
    {
      if labelNames != [] {
        return Ok(labelNames);
      }
      r := GetLabels(Value(), disk);
      if r.Ok? {
        labelNames := r.value;
      }
    }
  }

  // ----------------------------------------------------------- load_image

  /** A decoded image: its bytes and the (width, height) the image library
      reports for them. */
  datatype Picture = Picture(bytes: string, width: int, height: int)

  /** `read_image_binary(image_filename)`: the image's bytes, read in binary
      mode through the images directory. */
  function ReadImageBinary(disk: Disk, imagesDirectory: string, image: string): Result<string>
  {
    match ReadSpec(disk, imagesDirectory, image, "rb")
    case Err(e) => Err(e)
    case Ok(content) => Ok(content.data)
  }

  /** `load_image(image_filename)`: the image's bytes, then decoded. */
  function LoadImage(disk: Disk, decoder: Decoder, imagesDirectory: string, image: string): Result<Picture>
  {
    match ReadImageBinary(disk, imagesDirectory, image)
    case Err(e) => Err(e)
    case Ok(bytes) =>
      if bytes in decoder then Ok(Picture(bytes, decoder[bytes].0, decoder[bytes].1))
      else Err(ImageError)
  }

  /** `load_image` as a function of the image path alone. */
  function ImageLoader(disk: Disk, decoder: Decoder, imagesDirectory: string): string -> Result<Picture>
  {
    image => LoadImage(disk, decoder, imagesDirectory, image)
  }

  // ----------------------------------------------------------------- load

  /** A label field decoded by the kind's label loader: a comma list of ids,
      or the path of a payload read in text mode through the dataset's
      reader. */
  function ParseLabelField(kind: Kind, disk: Disk, directory: string, field: string): (r: Result<Labels>)
    ensures r.Ok? ==> Fits(kind, r.value)
  {
    match kind
    case ImageClassification =>
      (match ParseClassIds(field)
       case Err(e) => Err(e)
       case Ok(ids) => Ok(ClassIds(ids)))
    case ObjectDetection =>
      (match ReadSpec(disk, directory, field, "r")
       case Err(e) => Err(e)
       case Ok(content) =>
         match ParseBoxes(content.data)
         case Err(e) => Err(e)
         case Ok(boxes) => Ok(Boxes(boxes)))
    case VisualRelationship =>
      (match ReadSpec(disk, directory, field, "r")
       case Err(e) => Err(e)
       case Ok(content) =>
         match ParseRelations(content.data)
         case Err(e) => Err(e)
         case Ok(rs) => Ok(Relations(rs)))
  }

  /** One manifest line: `line.strip().split(maxsplit=1)` must give exactly an
      image path and a label field. */
  function ParseManifestLine(kind: Kind, disk: Disk, directory: string, line: string): (r: Result<Record>)
    ensures r.Ok? ==> Fits(kind, r.value.labels) && r.value.image != [] && NoSpace(r.value.image)
    ensures |SplitFirstField(Strip(line))| != 2 ==> r == Err(ValueError)
  {
    var parts := SplitFirstField(Strip(line));
    if |parts| != 2 then Err(ValueError)
    else
      match ParseLabelField(kind, disk, directory, parts[1])
      case Err(e) => Err(e)
      case Ok(labels) => Ok(Record(parts[0], labels))
  }

  /** The per-line parser `load` applies to each manifest line. */
  function ManifestParser(kind: Kind, disk: Disk, directory: string): string -> Result<Record>
  {
    line => ParseManifestLine(kind, disk, directory, line)
  }

  /** `cls.load(main_txt, directory, images_dir)`: every manifest line parses,
      in order, or the load fails with the first bad line's error. */
  function LoadSpec(kind: Kind, mainTxt: string, disk: Disk, directory: string, imagesDirectory: Option<string>): Result<Dataset>
  {
    match ParseEach(SplitLines(mainTxt), ManifestParser(kind, disk, directory))
    case Err(e) => Err(e)
    case Ok(records) => Ok(NewDataset(kind, records, directory, imagesDirectory, []))
  }

  /** A loaded dataset has one record per manifest line, in line order, each
      of the kind loaded, and no label names of its own. */
  lemma LoadSpecShape(kind: Kind, mainTxt: string, disk: Disk, directory: string, imagesDirectory: Option<string>)
    ensures var r := LoadSpec(kind, mainTxt, disk, directory, imagesDirectory);
      r.Ok? ==> && WellKinded(r.value) && r.value.kind == kind && r.value.labelNames == []
                && |r.value.records| == |SplitLines(mainTxt)|
  {
    var f := ManifestParser(kind, disk, directory);
    var lines := SplitLines(mainTxt);
    var p := ParseEach(lines, f);
    if p.Ok? {
      forall i | 0 <= i < |lines|
        ensures Fits(kind, p.value[i].labels)
      {
        assert f(lines[i]) == Ok(p.value[i]);
      }
    }
  }

  /** `ImageDataset.load`: the manifest's lines parsed one by one. */
  method Load(kind: Kind, mainTxt: string, disk: Disk, directory: string, imagesDirectory: Option<string>) returns (r: Result<Dataset>)
    ensures r == LoadSpec(kind, mainTxt, disk, directory, imagesDirectory)
  {
    var records := DecodeLines(mainTxt, ManifestParser(kind, disk, directory));
    if records.Err? {
      return Err(records.error);
    }
    return Ok(NewDataset(kind, records.value, directory, imagesDirectory, []));
  }

  // -------------------------------------------------------------- factory

  /** `SimpleDatasetFactory().load(main_txt, directory, images_directory)`:
      the detected kind's loader; a detection failure is the load's failure. */
  function FactoryLoad(mainTxt: string, disk: Disk, directory: string, imagesDirectory: Option<string>): (r: Result<Dataset>)
    ensures r.Ok? ==> Detect(mainTxt, disk, directory) == Ok(r.value.kind)
    ensures Detect(mainTxt, disk, directory).Err? ==> r == Err(Detect(mainTxt, disk, directory).error)
    ensures Detect(mainTxt, disk, directory).Ok? ==> r == LoadSpec(Detect(mainTxt, disk, directory).value, mainTxt, disk, directory, imagesDirectory)
  {
    match Detect(mainTxt, disk, directory)
    case Err(e) => Err(e)
    case Ok(kind) => LoadSpec(kind, mainTxt, disk, directory, imagesDirectory)
  }
}
