/** `concat_datasets`: datasets of one kind are joined into a dataset in the
    output directory. Their label tables are merged name by name, each
    dataset's ids move up by the length of the tables before it, records are
    grouped by their new image path, and paths whose images hash alike are
    merged under the first such path. */
module Concat {
  import opened Wrappers
  import opened Files
  import opened LabelCodecs
  import opened KindDetection
  import opened Datasets
  import opened ConcatLabels
  import opened ImageGrouping

  /** One input: a loaded dataset, and its base directory relative to the
      output directory. */
  datatype Input = Input(ds: Dataset, relativePath: string)

  // ------------------------------------------------------------ type check

  /** The distinct kinds of the inputs: `set(dataset_types)`. */
  function KindSet(inputs: seq<Input>): set<Kind>
  {
    set i | 0 <= i < |inputs| :: inputs[i].ds.kind
  }

  /** The inputs' kinds form a one-element set exactly when there are inputs
      and all share the first one's kind. */
  lemma {:induction false} KindSetSingle(inputs: seq<Input>)
    ensures |KindSet(inputs)| == 1 <==> inputs != [] && forall i :: 0 <= i < |inputs| ==> inputs[i].ds.kind == inputs[0].ds.kind
  {
    var kinds := KindSet(inputs);
    if inputs != [] {
      var k0 := inputs[0].ds.kind;
      assert k0 in kinds;
      if exists i :: 0 <= i < |inputs| && inputs[i].ds.kind != k0 {
        var i :| 0 <= i < |inputs| && inputs[i].ds.kind != k0;
        var rest := kinds - {k0};
        assert inputs[i].ds.kind in rest;
        assert kinds == rest + {k0};
      } else {
        assert kinds == {k0};
      }
    } else {
      assert kinds == {};
    }
  }

  /** The type check: the inputs must all be of one kind, and there must be
      at least one of them; otherwise ValueError. */
  function ConcatKind(inputs: seq<Input>): (r: Result<Kind>)
    ensures r.Ok? <==> inputs != [] && forall i :: 0 <= i < |inputs| ==> inputs[i].ds.kind == inputs[0].ds.kind
    ensures r.Ok? ==> r.value == inputs[0].ds.kind
    ensures r.Err? ==> r.error == ValueError
  {
    KindSetSingle(inputs);
    if |KindSet(inputs)| != 1 then Err(ValueError) else Ok(inputs[0].ds.kind)
  }

  // -------------------------------------------------------------- offsets

  /** The id offset of one record's labels: every id for classification,
      slot 0 for detection, and slots 0, 5 and 10 for relationships. */
  function ShiftLabels(labels: Labels, off: int): (r: Labels)
    ensures |SlotIds(r)| == |SlotIds(labels)| && forall i :: 0 <= i < |SlotIds(labels)| ==> SlotIds(r)[i] == SlotIds(labels)[i] + off
    ensures Anonymous(r) == Anonymous(labels) && Size(r) == Size(labels)
    ensures forall kind :: Fits(kind, r) <==> Fits(kind, labels)
  {
    Relabel(labels, x => x + off)
  }

  /** Moving the ids back down undoes the shift. */
  lemma {:induction false} ShiftInverse(labels: Labels, off: int)
    ensures ShiftLabels(ShiftLabels(labels, off), -off) == labels
  {
    match labels
    case ClassIds(ids) =>
      assert ShiftLabels(ShiftLabels(labels, off), -off).ids == ids;
    case Boxes(boxes) =>
      assert ShiftLabels(ShiftLabels(labels, off), -off).boxes == boxes;
    case Relations(rs) =>
      assert ShiftLabels(ShiftLabels(labels, off), -off).relations == rs;
  }

  // ---------------------------------------------------------- label tables

  /** `dataset.labels` of every input, the first failure winning. */
  function Tables(inputs: seq<Input>, disk: Disk): (r: Result<seq<seq<string>>>)
    ensures r.Ok? ==> |r.value| == |inputs|
  {
    if inputs == [] then Ok([])
    else
      var n := |inputs| - 1;
      match Tables(inputs[..n], disk)
      case Err(e) => Err(e)
      case Ok(ts) =>
        match LabelsOf(inputs[n].ds, disk)
        case Err(e) => Err(e)
        case Ok(t) => Ok(ts + [t])
  }

  /** The tables load exactly when every input's table loads. */
  lemma {:induction false} TablesOk(inputs: seq<Input>, disk: Disk)
    ensures Tables(inputs, disk).Ok? <==> forall k :: 0 <= k < |inputs| ==> LabelsOf(inputs[k].ds, disk).Ok?
  {
    if inputs != [] {
      var n := |inputs| - 1;
      var prefix := inputs[..n];
      TablesOk(prefix, disk);
      if Tables(inputs, disk).Ok? {
        forall k | 0 <= k < |inputs| ensures LabelsOf(inputs[k].ds, disk).Ok? {
          if k < n {
            assert prefix[k] == inputs[k];
          }
        }
      } else if Tables(prefix, disk).Err? {
        var k :| 0 <= k < n && LabelsOf(prefix[k].ds, disk).Err?;
        assert prefix[k] == inputs[k];
      }
    }
  }

  /** Table k is input k's own table. */
  lemma {:induction false} TablesValues(inputs: seq<Input>, disk: Disk)
    requires Tables(inputs, disk).Ok?
    ensures forall k :: 0 <= k < |inputs| ==> LabelsOf(inputs[k].ds, disk) == Ok(Tables(inputs, disk).value[k])
  {
    if inputs != [] {
      var n := |inputs| - 1;
      TablesValues(inputs[..n], disk);
      assert forall k :: 0 <= k < n ==> inputs[..n][k] == inputs[k];
    }
  }

  /** A failure is that of the first input whose table fails. */
  lemma {:induction false} TablesFirstError(inputs: seq<Input>, disk: Disk)
    requires Tables(inputs, disk).Err?
    ensures exists k :: 0 <= k < |inputs| && LabelsOf(inputs[k].ds, disk) == Err(Tables(inputs, disk).error) &&
                        forall j :: 0 <= j < k ==> LabelsOf(inputs[j].ds, disk).Ok?
  {
    var n := |inputs| - 1;
    var e := Tables(inputs, disk).error;
    assert forall k :: 0 <= k < n ==> inputs[..n][k] == inputs[k];
    if Tables(inputs[..n], disk).Err? {
      TablesFirstError(inputs[..n], disk);
      var k :| 0 <= k < n && LabelsOf(inputs[..n][k].ds, disk) == Err(e) &&
               forall j :: 0 <= j < k ==> LabelsOf(inputs[..n][j].ds, disk).Ok?;
      assert LabelsOf(inputs[k].ds, disk) == Err(e);
    } else {
      TablesOk(inputs[..n], disk);
      assert LabelsOf(inputs[n].ds, disk) == Err(e);
    }
  }

  /** The tables load exactly when every input's table loads, table k is
      input k's, and a failure is the first input's that fails. */
  lemma TablesContents(inputs: seq<Input>, disk: Disk)
    ensures Tables(inputs, disk).Ok? <==> forall k :: 0 <= k < |inputs| ==> LabelsOf(inputs[k].ds, disk).Ok?
    ensures Tables(inputs, disk).Ok? ==> forall k :: 0 <= k < |inputs| ==> LabelsOf(inputs[k].ds, disk) == Ok(Tables(inputs, disk).value[k])
    ensures Tables(inputs, disk).Err? ==>
      exists k :: 0 <= k < |inputs| && LabelsOf(inputs[k].ds, disk) == Err(Tables(inputs, disk).error) &&
                  forall j :: 0 <= j < k ==> LabelsOf(inputs[j].ds, disk).Ok?
  {
    TablesOk(inputs, disk);
    if Tables(inputs, disk).Ok? {
      TablesValues(inputs, disk);
    } else {
      TablesFirstError(inputs, disk);
    }
  }

  // ---------------------------------------------------------------- visits

  /** `read_image_binary` of any input, as a function of its images
      directory and the image. */
  function ImageReader(disk: Disk): (string, string) -> Result<string>
  {
    (directory, image) => ReadImageBinary(disk, directory, image)
  }

  /** `hashlib.md5(dataset.read_image_binary(image)).hexdigest()`: the
      fingerprint of the image's bytes. An image that cannot be read gets no
      real digest; the loop stops at the first such read (`ReadFrom`). */
  function ImageDigest(input: Input, image: string, read: (string, string) -> Result<string>, fingerprint: string -> string): string
  {
    match read(input.ds.imagesDirectory, image)
    case Ok(bytes) => fingerprint(bytes)
    case Err(_) => ""
  }

  /** The visits of one input's records: the new path, the labels moved up by
      `off`, and the digest of the image's bytes. */
  function RecordVisits(input: Input, off: int, read: (string, string) -> Result<string>, fingerprint: string -> string): (vs: seq<Visit<Labels>>)
    ensures |vs| == |input.ds.records|
  {
    var recs := input.ds.records;
    seq(|recs|, i requires 0 <= i < |recs| =>
      Visit(PathJoin(input.relativePath, recs[i].image), ShiftLabels(recs[i].labels, off),
            ImageDigest(input, recs[i].image, read, fingerprint)))
  }

  /** The paths of some visits. */
  function VisitPaths(visits: seq<Visit<Labels>>): set<string>
  {
    if visits == [] then {} else VisitPaths(visits[..|visits| - 1]) + {visits[|visits| - 1].path}
  }

  /** A path is among the visits' paths exactly when some visit has it. */
  lemma {:induction false} VisitPathsSeen(visits: seq<Visit<Labels>>, p: string)
    ensures p in VisitPaths(visits) <==> Seen(visits, p)
  {
    if visits != [] {
      VisitPathsSeen(visits[..|visits| - 1], p);
      SeenSnoc(visits, p);
    }
  }

  /** The new paths of the first j records of one input. */
  function NewPaths(input: Input, j: nat): set<string>
    requires j <= |input.ds.records|
  {
    if j == 0 then {} else NewPaths(input, j - 1) + {PathJoin(input.relativePath, input.ds.records[j - 1].image)}
  }

  /** The image reads of one input's records from the i-th on, given the
      paths `seen` so far: a record's image is read only when its new path
      has not been seen, and the first failing read ends the scan. */
  function ReadFrom(input: Input, read: (string, string) -> Result<string>, seen: set<string>, i: nat): Option<Error>
    requires i <= |input.ds.records|
    decreases |input.ds.records| - i
  {
    if i == |input.ds.records| then None
    else
      var image := input.ds.records[i].image;
      var p := PathJoin(input.relativePath, image);
      if p in seen then ReadFrom(input, read, seen, i + 1)
      else
        match read(input.ds.imagesDirectory, image)
        case Err(e) => Some(e)
        case Ok(_) => ReadFrom(input, read, seen + {p}, i + 1)
  }

  /** No read fails exactly when every record whose new path is seen for the
      first time has a readable image. */
  lemma {:induction false} ReadFromNone(input: Input, read: (string, string) -> Result<string>, seen: set<string>, i: nat)
    requires i <= |input.ds.records|
    decreases |input.ds.records| - i
    ensures ReadFrom(input, read, seen + NewPaths(input, i), i).None? <==>
      forall k :: i <= k < |input.ds.records| && PathJoin(input.relativePath, input.ds.records[k].image) !in seen + NewPaths(input, k)
        ==> read(input.ds.imagesDirectory, input.ds.records[k].image).Ok?
  {
    if i < |input.ds.records| {
      ReadFromNone(input, read, seen, i + 1);
      var p := PathJoin(input.relativePath, input.ds.records[i].image);
      assert seen + NewPaths(input, i + 1) == seen + NewPaths(input, i) + {p};
      if p in seen + NewPaths(input, i) {
        assert seen + NewPaths(input, i + 1) == seen + NewPaths(input, i);
      }
    }
  }

  /** The visits of all inputs in order, input k's ids moved up by the
      total length of the tables before it. */
  function AllVisits(inputs: seq<Input>, tables: seq<seq<string>>, read: (string, string) -> Result<string>, fingerprint: string -> string): seq<Visit<Labels>>
    requires |tables| == |inputs|
  {
    if inputs == [] then []
    else
      var n := |inputs| - 1;
      AllVisits(inputs[..n], tables[..n], read, fingerprint) + RecordVisits(inputs[n], TotalLen(tables[..n]), read, fingerprint)
  }

  // ---------------------------------------------------------------- result

  /** The empty label list of a kind. */
  function NoLabels(kind: Kind): (r: Labels)
    ensures Fits(kind, r) && Size(r) == 0
  {
    match kind
    case ImageClassification => ClassIds([])
    case ObjectDetection => Boxes([])
    case VisualRelationship => Relations([])
  }

  /** `list.extend`: a chunk of another kind, which no well-kinded input
      yields, adds nothing. */
  function Extend(a: Labels, b: Labels): Labels
  {
    match (a, b)
    case (ClassIds(x), ClassIds(y)) => ClassIds(x + y)
    case (Boxes(x), Boxes(y)) => Boxes(x + y)
    case (Relations(x), Relations(y)) => Relations(x + y)
    case _ => a
  }

  /** The weight of a chunk in a dataset of `kind`: its number of labels
      when it is of that kind. */
  function KindSize(kind: Kind): Labels -> nat
  {
    c => if Fits(kind, c) then Size(c) else 0
  }

  /** A path's label list: its chunks, extended one after the other. */
  function Join(kind: Kind, chunks: seq<Labels>): (r: Labels)
    ensures Fits(kind, r)
    ensures Size(r) == Weight(chunks, KindSize(kind))
  {
    if chunks == [] then NoLabels(kind)
    else
      var n := |chunks| - 1;
      Extend(Join(kind, chunks[..n]), chunks[n])
  }

  /** Extending by the empty list of a value's own kind changes nothing. */
  lemma ExtendNone(kind: Kind, x: Labels)
    requires Fits(kind, x)
    ensures Extend(x, NoLabels(kind)) == x
  {
    match x
    case ClassIds(ids) => assert ids + [] == ids;
    case Boxes(boxes) => assert boxes + [] == boxes;
    case Relations(relations) => assert relations + [] == relations;
  }

  /** Extending is associative on lists of one kind, whatever the third
      chunk is. */
  lemma ExtendAssociative(kind: Kind, x: Labels, y: Labels, c: Labels)
    requires Fits(kind, x) && Fits(kind, y)
    ensures Extend(Extend(x, y), c) == Extend(x, Extend(y, c))
  {
    match (x, y, c)
    case (ClassIds(a), ClassIds(b), ClassIds(d)) => assert a + b + d == a + (b + d);
    case (Boxes(a), Boxes(b), Boxes(d)) => assert a + b + d == a + (b + d);
    case (Relations(a), Relations(b), Relations(d)) => assert a + b + d == a + (b + d);
    case _ =>
  }

  /** A single chunk of the dataset's kind is the path's whole list. */
  lemma JoinSingle(kind: Kind, c: Labels)
    requires Fits(kind, c)
    ensures Join(kind, [c]) == c
  {
    assert [c][..0] == [];
    match c
    case ClassIds(ids) => assert [] + ids == ids;
    case Boxes(boxes) => assert [] + boxes == boxes;
    case Relations(relations) => assert [] + relations == relations;
  }

  /** Joining two runs of chunks is extending the first run's list by the
      second's: the chunks are extended in order, one after the other. */
  lemma {:induction false} JoinAppend(kind: Kind, a: seq<Labels>, b: seq<Labels>)
    ensures Join(kind, a + b) == Extend(Join(kind, a), Join(kind, b))
  {
    if b == [] {
      assert a + b == a;
      ExtendNone(kind, Join(kind, a));
    } else {
      var n := |b| - 1;
      assert (a + b)[..|a + b| - 1] == a + b[..n] && (a + b)[|a + b| - 1] == b[n];
      JoinAppend(kind, a, b[..n]);
      ExtendAssociative(kind, Join(kind, a), Join(kind, b[..n]), b[n]);
    }
  }

  /** `[(key, annotations[key]) for key in annotations]`. */
  function Records(kind: Kind, t: Table<Labels>): (rs: seq<Record>)
    requires forall i :: 0 <= i < |t.keys| ==> t.keys[i] in t.values
    ensures |rs| == |t.keys|
    ensures forall i :: 0 <= i < |rs| ==> rs[i].image == t.keys[i] && Fits(kind, rs[i].labels)
    ensures forall i :: 0 <= i < |rs| ==> rs[i].labels == Join(kind, t.values[t.keys[i]])
  {
    seq(|t.keys|, i requires 0 <= i < |t.keys| => Record(t.keys[i], Join(kind, t.values[t.keys[i]])))
  }

  /** `copy_images`: some input manifest is in a directory other than the
      output's. */
  function CopyImages(inputs: seq<Input>, outputDirectory: string): (r: bool)
    ensures r <==> exists i :: 0 <= i < |inputs| && inputs[i].ds.directory != outputDirectory
  {
    if inputs == [] then false
    else
      var n := |inputs| - 1;
      assert forall i :: 0 <= i < n ==> inputs[..n][i] == inputs[i];
      CopyImages(inputs[..n], outputDirectory) || inputs[n].ds.directory != outputDirectory
  }

  /** The grouped, deduplicated label lists of the inputs. */
  function Merged(inputs: seq<Input>, tables: seq<seq<string>>, read: (string, string) -> Result<string>, fingerprint: string -> string): (t: Table<Labels>)
    requires |tables| == |inputs|
    ensures t.Valid() && forall i :: 0 <= i < |t.keys| ==> t.keys[i] in t.values
  {
    var g := Group(AllVisits(inputs, tables, read, fingerprint));
    ValidKeys(DedupImages(g.annotations, g.hashes));
    DedupImages(g.annotations, g.hashes)
  }

  /** What the input loop reads, in its order: input k's label table, then
      the images of its records whose new paths are visited for the first
      time; the first failure wins. On success, the label tables. */
  function Loaded(inputs: seq<Input>, disk: Disk, fingerprint: string -> string): (r: Result<seq<seq<string>>>)
    ensures r.Ok? ==> r == Tables(inputs, disk)
    ensures Tables(inputs, disk).Err? ==> r.Err?
  {
    if inputs == [] then Ok([])
    else
      var n := |inputs| - 1;
      match Loaded(inputs[..n], disk, fingerprint)
      case Err(e) => Err(e)
      case Ok(ts) =>
        match LabelsOf(inputs[n].ds, disk)
        case Err(e) => Err(e)
        case Ok(t) =>
          match ReadFrom(inputs[n], ImageReader(disk), VisitPaths(AllVisits(inputs[..n], ts, ImageReader(disk), fingerprint)), 0)
          case Some(e) => Err(e)
          case None => Ok(ts + [t])
  }

  /** No input's first-seen image fails to read, input k's paths seen after
      those of the inputs before it. */
  predicate ReadsSucceed(inputs: seq<Input>, tables: seq<seq<string>>, read: (string, string) -> Result<string>, fingerprint: string -> string)
    requires |tables| == |inputs|
  {
    forall k :: 0 <= k < |inputs| ==> ReadsAt(inputs, tables, read, fingerprint, k).None?
  }

  /** Input k's scan, its paths seen after those of the inputs before it. */
  function ReadsAt(inputs: seq<Input>, tables: seq<seq<string>>, read: (string, string) -> Result<string>, fingerprint: string -> string, k: nat): Option<Error>
    requires |tables| == |inputs| && k < |inputs|
  {
    ReadFrom(inputs[k], read, VisitPaths(AllVisits(inputs[..k], tables[..k], read, fingerprint)), 0)
  }

  lemma ReadsAtPrefix(inputs: seq<Input>, tables: seq<seq<string>>, read: (string, string) -> Result<string>, fingerprint: string -> string, n: nat, k: nat)
    requires |tables| == |inputs| && k < n <= |inputs|
    ensures ReadsAt(inputs[..n], tables[..n], read, fingerprint, k) == ReadsAt(inputs, tables, read, fingerprint, k)
  {
    assert inputs[..n][k] == inputs[k] && inputs[..n][..k] == inputs[..k] && tables[..n][..k] == tables[..k];
  }

  lemma ReadsSucceedLast(inputs: seq<Input>, tables: seq<seq<string>>, read: (string, string) -> Result<string>, fingerprint: string -> string)
    requires |tables| == |inputs| && inputs != []
    ensures var n := |inputs| - 1;
      ReadsSucceed(inputs, tables, read, fingerprint) <==>
        ReadsSucceed(inputs[..n], tables[..n], read, fingerprint) && ReadsAt(inputs, tables, read, fingerprint, n).None?
  {
    var n := |inputs| - 1;
    if ReadsSucceed(inputs, tables, read, fingerprint) {
      forall k | 0 <= k < n
        ensures ReadsAt(inputs[..n], tables[..n], read, fingerprint, k).None?
      {
        ReadsAtPrefix(inputs, tables, read, fingerprint, n, k);
      }
    }
    if ReadsSucceed(inputs[..n], tables[..n], read, fingerprint) && ReadsAt(inputs, tables, read, fingerprint, n).None? {
      forall k | 0 <= k < |inputs|
        ensures ReadsAt(inputs, tables, read, fingerprint, k).None?
      {
        if k < n {
          ReadsAtPrefix(inputs, tables, read, fingerprint, n, k);
        }
      }
    }
  }

  /** Loading succeeds exactly when every label table loads and no input's
      first-seen image fails to read. */
  lemma {:induction false} LoadedOk(inputs: seq<Input>, disk: Disk, fingerprint: string -> string)
    ensures Loaded(inputs, disk, fingerprint).Ok? <==>
      Tables(inputs, disk).Ok? && ReadsSucceed(inputs, Tables(inputs, disk).value, ImageReader(disk), fingerprint)
  {
    if inputs != [] {
      var n := |inputs| - 1;
      LoadedOk(inputs[..n], disk, fingerprint);
      if Tables(inputs, disk).Ok? {
        var ts := Tables(inputs, disk).value;
        assert Tables(inputs[..n], disk) == Ok(ts[..n]) && LabelsOf(inputs[n].ds, disk) == Ok(ts[n]);
        ReadsSucceedLast(inputs, ts, ImageReader(disk), fingerprint);
        if Loaded(inputs[..n], disk, fingerprint).Ok? {
          assert ts[..n] + [ts[n]] == ts;
        }
      }
    }
  }

  /** Once the first k inputs fail to load, the whole list fails the same
      way. */
  lemma {:induction false} LoadedFailsEarly(inputs: seq<Input>, disk: Disk, fingerprint: string -> string, k: nat)
    requires k <= |inputs| && Loaded(inputs[..k], disk, fingerprint).Err?
    ensures Loaded(inputs, disk, fingerprint) == Loaded(inputs[..k], disk, fingerprint)
  {
    if k < |inputs| {
      var n := |inputs| - 1;
      assert inputs[..n][..k] == inputs[..k];
      LoadedFailsEarly(inputs[..n], disk, fingerprint, k);
      LoadedErrStep(inputs, disk, fingerprint);
    } else {
      assert inputs[..k] == inputs;
    }
  }

  lemma LoadedErrStep(inputs: seq<Input>, disk: Disk, fingerprint: string -> string)
    requires inputs != [] && Loaded(inputs[..|inputs| - 1], disk, fingerprint).Err?
    ensures Loaded(inputs, disk, fingerprint) == Loaded(inputs[..|inputs| - 1], disk, fingerprint)
  {
  }

  /** The dataset `concat_datasets` hands to the writer. */
  function ConcatSpec(inputs: seq<Input>, disk: Disk, outputDirectory: string, fingerprint: string -> string): (r: Result<Dataset>)
    ensures ConcatKind(inputs).Err? ==> r == Err(ValueError)
    ensures ConcatKind(inputs).Ok? ==> (r.Err? <==> Loaded(inputs, disk, fingerprint).Err?)
    ensures ConcatKind(inputs).Ok? && Loaded(inputs, disk, fingerprint).Err? ==> r == Err(Loaded(inputs, disk, fingerprint).error)
  {
    match ConcatKind(inputs)
    case Err(e) => Err(e)
    case Ok(kind) =>
      match Loaded(inputs, disk, fingerprint)
      case Err(e) => Err(e)
      case Ok(tables) =>
        var t := Merged(inputs, tables, ImageReader(disk), fingerprint);
        Ok(NewDataset(kind, Records(kind, t), outputDirectory, None, MergedLabels(tables)))
  }

  // ------------------------------------------------------------ properties

  /** What a successful concatenation is made of: the inputs' kind, the
      merged label table, and one record per key of the merged dict, in key
      order, so every record is of the dataset's kind. */
  lemma {:induction false} ConcatShape(inputs: seq<Input>, disk: Disk, outputDirectory: string, fingerprint: string -> string, ds: Dataset)
    requires ConcatSpec(inputs, disk, outputDirectory, fingerprint) == Ok(ds)
    ensures inputs != [] && ds.kind == inputs[0].ds.kind && forall k :: 0 <= k < |inputs| ==> inputs[k].ds.kind == ds.kind
    ensures Tables(inputs, disk).Ok?
    ensures ds.labelNames == MergedLabels(Tables(inputs, disk).value)
    ensures ds.records == Records(ds.kind, Merged(inputs, Tables(inputs, disk).value, ImageReader(disk), fingerprint))
    ensures WellKinded(ds) && ds.directory == outputDirectory && ds.imagesDirectory == outputDirectory
  {
  }

  /** The merged table is duplicate-free and as long as the input tables
      together, and input k's id x, moved up by the tables before it, names
      input k's name x, with '.' appended while it clashed. */
  lemma {:induction false} ConcatLabelNames(inputs: seq<Input>, disk: Disk, outputDirectory: string, fingerprint: string -> string,
                                            ds: Dataset, k: nat, x: nat)
    requires ConcatSpec(inputs, disk, outputDirectory, fingerprint) == Ok(ds)
    requires k < |inputs| && Tables(inputs, disk).Ok? && x < |Tables(inputs, disk).value[k]|
    ensures Distinct(ds.labelNames) && |ds.labelNames| == TotalLen(Tables(inputs, disk).value)
    ensures x + Offset(Tables(inputs, disk).value, k) < |ds.labelNames|
    ensures Dotted(ds.labelNames[x + Offset(Tables(inputs, disk).value, k)], Tables(inputs, disk).value[k][x])
  {
    ConcatShape(inputs, disk, outputDirectory, fingerprint, ds);
    MergedPosition(Tables(inputs, disk).value, k, x);
  }

  /** The visits of the first k inputs come first. */
  lemma {:induction false} AllVisitsPrefix(inputs: seq<Input>, tables: seq<seq<string>>, read: (string, string) -> Result<string>, fingerprint: string -> string, k: nat)
    requires |tables| == |inputs| && k <= |inputs|
    ensures AllVisits(inputs[..k], tables[..k], read, fingerprint) <= AllVisits(inputs, tables, read, fingerprint)
  {
    if k < |inputs| {
      var n := |inputs| - 1;
      assert inputs[..n][..k] == inputs[..k] && tables[..n][..k] == tables[..k];
      AllVisitsPrefix(inputs[..n], tables[..n], read, fingerprint, k);
    } else {
      assert inputs[..k] == inputs && tables[..k] == tables;
    }
  }

  /** Record i of input k is visited under its new path, with its ids moved
      up by the tables before input k. */
  lemma {:induction false} VisitedRecord(inputs: seq<Input>, tables: seq<seq<string>>, read: (string, string) -> Result<string>, fingerprint: string -> string, k: nat, i: nat)
    requires |tables| == |inputs| && k < |inputs| && i < |inputs[k].ds.records|
    ensures RecordVisits(inputs[k], Offset(tables, k), read, fingerprint)[i] in AllVisits(inputs, tables, read, fingerprint)
  {
    var upTo := inputs[..k + 1];
    assert upTo[..k] == inputs[..k] && upTo[k] == inputs[k];
    assert tables[..k + 1][..k] == tables[..k];
    AllVisitsPrefix(inputs, tables, read, fingerprint, k + 1);
    var vs := RecordVisits(inputs[k], Offset(tables, k), read, fingerprint);
    assert AllVisits(inputs[..k + 1], tables[..k + 1], read, fingerprint) == AllVisits(inputs[..k], tables[..k], read, fingerprint) + vs;
    InPrefix(AllVisits(inputs[..k], tables[..k], read, fingerprint), vs, AllVisits(inputs, tables, read, fingerprint), i);
  }

  lemma InPrefix<T>(front: seq<T>, vs: seq<T>, all: seq<T>, i: nat)
    requires front + vs <= all && i < |vs|
    ensures vs[i] in all
  {
    assert vs[i] == (front + vs)[|front| + i] == all[|front| + i];
  }

  /** `annotations` and `image_md5s` after all the inputs. */
  function Grouped(inputs: seq<Input>, tables: seq<seq<string>>, read: (string, string) -> Result<string>, fingerprint: string -> string): (g: Grouping<Labels>)
    requires |tables| == |inputs|
    ensures g.annotations.Valid() && forall p :: p in g.hashes <==> p in g.annotations.keys
    ensures Hashed(g.annotations.keys, g.hashes)
    ensures forall i :: 0 <= i < |g.annotations.keys| ==> g.annotations.keys[i] in g.annotations.values && g.annotations.keys[i] in g.hashes
  {
    ValidKeys(Group(AllVisits(inputs, tables, read, fingerprint)).annotations);
    Group(AllVisits(inputs, tables, read, fingerprint))
  }

  /** Each key of the merged dict is the first visited path with its
      image's hash, and holds the label lists of all the paths with that
      hash, in the order the paths were first visited. */
  lemma {:induction false} MergedKey(inputs: seq<Input>, tables: seq<seq<string>>, read: (string, string) -> Result<string>, fingerprint: string -> string, j: nat)
    requires |tables| == |inputs| && j < |Merged(inputs, tables, read, fingerprint).keys|
    ensures Seen(AllVisits(inputs, tables, read, fingerprint), Merged(inputs, tables, read, fingerprint).keys[j])
    ensures exists i :: FirstOfHash(Grouped(inputs, tables, read, fingerprint).annotations.keys, Grouped(inputs, tables, read, fingerprint).hashes, i) &&
                        Grouped(inputs, tables, read, fingerprint).annotations.keys[i] == Merged(inputs, tables, read, fingerprint).keys[j]
    ensures Merged(inputs, tables, read, fingerprint).keys[j] in Grouped(inputs, tables, read, fingerprint).hashes
    ensures Merged(inputs, tables, read, fingerprint).values[Merged(inputs, tables, read, fingerprint).keys[j]]
         == Gather(Grouped(inputs, tables, read, fingerprint).annotations.keys, Grouped(inputs, tables, read, fingerprint).annotations.values,
                   Grouped(inputs, tables, read, fingerprint).hashes,
                   Grouped(inputs, tables, read, fingerprint).hashes[Merged(inputs, tables, read, fingerprint).keys[j]])
  {
    var g := Grouped(inputs, tables, read, fingerprint);
    var keys, values, hashes := g.annotations.keys, g.annotations.values, g.hashes;
    var h2p := HashToPath(keys, hashes);
    HashToPathRepresents(keys, hashes);
    var t := Dedup(keys, values, hashes, h2p);
    assert t == Merged(inputs, tables, read, fingerprint);
    var p := t.keys[j];
    assert p in t.values;
    var i :| 0 <= i < |keys| && h2p[hashes[keys[i]]] == p;
    var i' :| FirstOfHash(keys, hashes, i') && keys[i'] == p && hashes[keys[i']] == hashes[keys[i]];
    DedupValue(keys, values, hashes, h2p, i);
    assert keys[i'] in keys;
  }

  /** No two keys of the merged dict have images with the same hash. */
  lemma {:induction false} MergedDistinctHashes(inputs: seq<Input>, tables: seq<seq<string>>, read: (string, string) -> Result<string>, fingerprint: string -> string, j: nat, j': nat)
    requires |tables| == |inputs| && j < |Merged(inputs, tables, read, fingerprint).keys| && j' < |Merged(inputs, tables, read, fingerprint).keys| && j != j'
    ensures Merged(inputs, tables, read, fingerprint).keys[j] in Grouped(inputs, tables, read, fingerprint).hashes
    ensures Merged(inputs, tables, read, fingerprint).keys[j'] in Grouped(inputs, tables, read, fingerprint).hashes
    ensures Grouped(inputs, tables, read, fingerprint).hashes[Merged(inputs, tables, read, fingerprint).keys[j]]
         != Grouped(inputs, tables, read, fingerprint).hashes[Merged(inputs, tables, read, fingerprint).keys[j']]
  {
    var g := Grouped(inputs, tables, read, fingerprint);
    var keys, values, hashes := g.annotations.keys, g.annotations.values, g.hashes;
    var h2p := HashToPath(keys, hashes);
    HashToPathRepresents(keys, hashes);
    var t := Dedup(keys, values, hashes, h2p);
    assert t == Merged(inputs, tables, read, fingerprint);
    assert t.keys[j] in t.values && t.keys[j'] in t.values;
    assert t.keys[j] != t.keys[j'];
    DedupDistinctHashes(keys, values, hashes, h2p, t.keys[j], t.keys[j']);
  }

  /** Every input record is represented: some key of the merged dict has an
      image with the same hash as the record's new path. */
  lemma {:induction false} MergedCovers(inputs: seq<Input>, tables: seq<seq<string>>, read: (string, string) -> Result<string>, fingerprint: string -> string, k: nat, i: nat)
    requires |tables| == |inputs| && k < |inputs| && i < |inputs[k].ds.records|
    ensures PathJoin(inputs[k].relativePath, inputs[k].ds.records[i].image) in Grouped(inputs, tables, read, fingerprint).hashes
    ensures exists j :: (0 <= j < |Merged(inputs, tables, read, fingerprint).keys| &&
      Merged(inputs, tables, read, fingerprint).keys[j] in Grouped(inputs, tables, read, fingerprint).hashes &&
      Grouped(inputs, tables, read, fingerprint).hashes[Merged(inputs, tables, read, fingerprint).keys[j]]
        == Grouped(inputs, tables, read, fingerprint).hashes[PathJoin(inputs[k].relativePath, inputs[k].ds.records[i].image)])
  {
    var visits := AllVisits(inputs, tables, read, fingerprint);
    var g := Grouped(inputs, tables, read, fingerprint);
    var keys, values, hashes := g.annotations.keys, g.annotations.values, g.hashes;
    var q := PathJoin(inputs[k].relativePath, inputs[k].ds.records[i].image);
    VisitedRecord(inputs, tables, read, fingerprint, k, i);
    var v := RecordVisits(inputs[k], Offset(tables, k), read, fingerprint)[i];
    assert v.path == q;
    var m :| 0 <= m < |visits| && visits[m] == v;
    assert Seen(visits, q);
    assert q in keys;
    var iq :| 0 <= iq < |keys| && keys[iq] == q;
    var h2p := HashToPath(keys, hashes);
    HashToPathRepresents(keys, hashes);
    var t := Dedup(keys, values, hashes, h2p);
    assert t == Merged(inputs, tables, read, fingerprint);
    DedupValue(keys, values, hashes, h2p, iq);
    var p := h2p[hashes[q]];
    assert p in t.keys;
    var j :| 0 <= j < |t.keys| && t.keys[j] == p;
  }

  // ----------------------------------------------------------- label count

  /** The number of labels over some records. */
  function LabelCount(records: seq<Record>): nat
  {
    if records == [] then 0 else LabelCount(records[..|records| - 1]) + Size(records[|records| - 1].labels)
  }

  /** The number of labels over all the inputs. */
  function InputLabelCount(inputs: seq<Input>): nat
  {
    if inputs == [] then 0 else InputLabelCount(inputs[..|inputs| - 1]) + LabelCount(inputs[|inputs| - 1].ds.records)
  }

  /** A path's record holds as many labels as its chunks. */
  lemma {:induction false} RecordsCount(kind: Kind, keys: seq<string>, values: map<string, seq<Labels>>)
    requires forall i :: 0 <= i < |keys| ==> keys[i] in values
    ensures LabelCount(Records(kind, Table(keys, values))) == Total(keys, values, KindSize(kind))
  {
    if keys != [] {
      var n := |keys| - 1;
      var rs := Records(kind, Table(keys, values));
      RecordsPrefix(kind, keys, values, n);
      RecordsCount(kind, keys[..n], values);
      assert LabelCount(rs) == LabelCount(rs[..n]) + Size(rs[n].labels);
      assert rs[n].labels == Join(kind, values[keys[n]]);
    }
  }

  /** The records of the first n paths are the first n records. */
  lemma RecordsPrefix(kind: Kind, keys: seq<string>, values: map<string, seq<Labels>>, n: nat)
    requires n <= |keys| && forall i :: 0 <= i < |keys| ==> keys[i] in values
    ensures forall i :: 0 <= i < n ==> keys[..n][i] in values
    ensures Records(kind, Table(keys[..n], values)) == Records(kind, Table(keys, values))[..n]
  {
    assert forall i :: 0 <= i < n ==> keys[..n][i] == keys[i];
  }

  /** Visiting an input's records moves their labels without losing any. */
  lemma {:induction false} RecordVisitsWeight(input: Input, off: int, read: (string, string) -> Result<string>, fingerprint: string -> string, kind: Kind, j: nat)
    requires j <= |input.ds.records|
    requires forall i :: 0 <= i < |input.ds.records| ==> Fits(kind, input.ds.records[i].labels)
    ensures VisitWeight(RecordVisits(input, off, read, fingerprint)[..j], KindSize(kind)) == LabelCount(input.ds.records[..j])
  {
    if j > 0 {
      var vs := RecordVisits(input, off, read, fingerprint);
      var recs := input.ds.records;
      VisitWeightStep(vs, j, KindSize(kind));
      LabelCountStep(recs, j);
      RecordVisitsWeight(input, off, read, fingerprint, kind, j - 1);
      assert vs[j - 1].chunk == ShiftLabels(recs[j - 1].labels, off);
    }
  }

  lemma VisitWeightStep<V>(vs: seq<Visit<V>>, j: nat, w: V -> nat)
    requires 0 < j <= |vs|
    ensures VisitWeight(vs[..j], w) == VisitWeight(vs[..j - 1], w) + w(vs[j - 1].chunk)
  {
    assert vs[..j][..j - 1] == vs[..j - 1];
  }

  lemma LabelCountStep(records: seq<Record>, j: nat)
    requires 0 < j <= |records|
    ensures LabelCount(records[..j]) == LabelCount(records[..j - 1]) + Size(records[j - 1].labels)
  {
    assert records[..j][..j - 1] == records[..j - 1];
  }

  /** One input's visits carry its labels once. */
  lemma RecordVisitsTotal(input: Input, off: int, read: (string, string) -> Result<string>, fingerprint: string -> string, kind: Kind)
    requires input.ds.kind == kind && WellKinded(input.ds)
    ensures VisitWeight(RecordVisits(input, off, read, fingerprint), KindSize(kind)) == LabelCount(input.ds.records)
  {
    var vs := RecordVisits(input, off, read, fingerprint);
    RecordVisitsWeight(input, off, read, fingerprint, kind, |input.ds.records|);
    assert vs[..|vs|] == vs && input.ds.records[..|input.ds.records|] == input.ds.records;
  }

  /** All the visits together carry every input label once. */
  lemma {:induction false} AllVisitsWeight(inputs: seq<Input>, tables: seq<seq<string>>, read: (string, string) -> Result<string>, fingerprint: string -> string, kind: Kind)
    requires |tables| == |inputs|
    requires forall k :: 0 <= k < |inputs| ==> inputs[k].ds.kind == kind && WellKinded(inputs[k].ds)
    ensures VisitWeight(AllVisits(inputs, tables, read, fingerprint), KindSize(kind)) == InputLabelCount(inputs)
  {
    if inputs != [] {
      var n := |inputs| - 1;
      var input := inputs[n];
      assert forall k :: 0 <= k < n ==> inputs[..n][k] == inputs[k];
      AllVisitsWeight(inputs[..n], tables[..n], read, fingerprint, kind);
      var vs := RecordVisits(input, TotalLen(tables[..n]), read, fingerprint);
      VisitWeightAppend(AllVisits(inputs[..n], tables[..n], read, fingerprint), vs, KindSize(kind));
      RecordVisitsTotal(input, TotalLen(tables[..n]), read, fingerprint, kind);
    }
  }

  /** Concatenation loses no label and adds none: the result holds as many
      labels as the inputs together. */
  lemma {:induction false} ConcatLabelCount(inputs: seq<Input>, disk: Disk, outputDirectory: string, fingerprint: string -> string, ds: Dataset)
    requires ConcatSpec(inputs, disk, outputDirectory, fingerprint) == Ok(ds)
    requires forall k :: 0 <= k < |inputs| ==> WellKinded(inputs[k].ds)
    ensures LabelCount(ds.records) == InputLabelCount(inputs)
  {
    ConcatShape(inputs, disk, outputDirectory, fingerprint, ds);
    var tables := Tables(inputs, disk).value;
    var g := Grouped(inputs, tables, ImageReader(disk), fingerprint);
    var t := Merged(inputs, tables, ImageReader(disk), fingerprint);
    var w := KindSize(ds.kind);
    AllVisitsWeight(inputs, tables, ImageReader(disk), fingerprint, ds.kind);
    GroupTotal(AllVisits(inputs, tables, ImageReader(disk), fingerprint), w);
    DedupImagesTotal(g.annotations, g.hashes, w);
    RecordsCount(ds.kind, t.keys, t.values);
    assert t == Table(t.keys, t.values);
  }

  // --------------------------------------------------------------- methods

  /** One loop step of `concat_datasets` over the inputs: the tables, and
      the reads of the input's images. */
  lemma {:induction false} ConcatStep(inputs: seq<Input>, disk: Disk, fingerprint: string -> string, k: nat, tables: seq<seq<string>>, t: seq<string>)
    requires k < |inputs| && Loaded(inputs[..k], disk, fingerprint) == Ok(tables) && LabelsOf(inputs[k].ds, disk) == Ok(t)
    ensures Loaded(inputs[..k + 1], disk, fingerprint) ==
      match ReadFrom(inputs[k], ImageReader(disk), VisitPaths(AllVisits(inputs[..k], tables, ImageReader(disk), fingerprint)), 0)
      case Some(e) => Err(e)
      case None => Ok(tables + [t])
    ensures MergedLabels(tables + [t]) == MergeTable(MergedLabels(tables), t)
    ensures TotalLen(tables + [t]) == TotalLen(tables) + |t|
  {
    var upTo := inputs[..k + 1];
    assert upTo[..k] == inputs[..k] && upTo[k] == inputs[k];
    assert (tables + [t])[..k] == tables;
  }

  /** One loop step of `concat_datasets` over the inputs: the visits. */
  lemma {:induction false} VisitStep(inputs: seq<Input>, read: (string, string) -> Result<string>, fingerprint: string -> string, k: nat, tables: seq<seq<string>>, t: seq<string>)
    requires k < |inputs| && |tables| == k
    ensures AllVisits(inputs[..k + 1], tables + [t], read, fingerprint) == AllVisits(inputs[..k], tables, read, fingerprint) + RecordVisits(inputs[k], TotalLen(tables), read, fingerprint)
  {
    var upTo := inputs[..k + 1];
    assert upTo[..k] == inputs[..k] && upTo[k] == inputs[k];
    assert (tables + [t])[..k] == tables;
  }

  /** One record of the loop: `annotations[new_path].extend(new_labels)`,
      and the image's hash when the path is new. */
  method AddRecord(annotations: Table<Labels>, md5s: map<string, string>, newPath: string, newLabels: Labels, md5: string)
    returns (annotations': Table<Labels>, md5s': map<string, string>)
    requires newPath in annotations.values <==> newPath in md5s
    ensures Grouping(annotations', md5s') == AddVisit(Grouping(annotations, md5s), Visit(newPath, newLabels, md5))
    ensures md5s'.Keys == md5s.Keys + {newPath}
  {
    if newPath in annotations.values {
      annotations' := Table(annotations.keys, annotations.values[newPath := annotations.values[newPath] + [newLabels]]);
    } else {
      annotations' := Table(annotations.keys + [newPath], annotations.values[newPath := [newLabels]]);
    }
    md5s' := md5s;
    if newPath !in md5s' {
      md5s' := md5s'[newPath := md5];
    }
  }

  /** The paths of a grouping's visits are its hashed paths. */
  lemma GroupPaths(visits: seq<Visit<Labels>>)
    ensures Group(visits).hashes.Keys == VisitPaths(visits)
  {
    forall p
      ensures p in Group(visits).hashes <==> p in VisitPaths(visits)
    {
      VisitPathsSeen(visits, p);
    }
  }

  /** A record whose image is read only when its path is new extends the
      grouping by its visit. */
  lemma {:induction false} RecordStep(input: Input, off: int, read: (string, string) -> Result<string>, fingerprint: string -> string,
                                      before: seq<Visit<Labels>>, i: nat, md5: string)
    requires i < |input.ds.records|
    requires var image := input.ds.records[i].image;
      PathJoin(input.relativePath, image) !in Group(before + RecordVisits(input, off, read, fingerprint)[..i]).hashes ==>
        read(input.ds.imagesDirectory, image).Ok? && md5 == fingerprint(read(input.ds.imagesDirectory, image).value)
    ensures Group(before + RecordVisits(input, off, read, fingerprint)[..i + 1])
         == AddVisit(Group(before + RecordVisits(input, off, read, fingerprint)[..i]),
                     Visit(PathJoin(input.relativePath, input.ds.records[i].image), ShiftLabels(input.ds.records[i].labels, off), md5))
  {
    GroupStep(before, RecordVisits(input, off, read, fingerprint), i);
  }

  /** Past a record whose path was seen or whose image reads, the scan goes
      on from the next record with that path seen. */
  lemma ReadFromNext(input: Input, read: (string, string) -> Result<string>, seen: set<string>, i: nat)
    requires i < |input.ds.records|
    requires var image := input.ds.records[i].image;
      PathJoin(input.relativePath, image) !in seen ==> read(input.ds.imagesDirectory, image).Ok?
    ensures ReadFrom(input, read, seen, i) == ReadFrom(input, read, seen + {PathJoin(input.relativePath, input.ds.records[i].image)}, i + 1)
  {
    var p := PathJoin(input.relativePath, input.ds.records[i].image);
    if p in seen {
      assert seen + {p} == seen;
    }
  }

  lemma VisitsEnds(before: seq<Visit<Labels>>, vs: seq<Visit<Labels>>)
    ensures before + vs[..0] == before && vs[..|vs|] == vs
  {
  }

  /** One record of one input: its new path and moved labels, the image
      read and hashed when the path is new, and the dicts updated; a failing
      read stops the scan. */
  method VisitRecord(annotations: Table<Labels>, md5s: map<string, string>, input: Input, off: int, read: (string, string) -> Result<string>, fingerprint: string -> string,
                     ghost before: seq<Visit<Labels>>, i: nat)
    returns (failure: Option<Error>, annotations': Table<Labels>, md5s': map<string, string>)
    requires i < |input.ds.records| && Grouping(annotations, md5s) == Group(before + RecordVisits(input, off, read, fingerprint)[..i])
    ensures failure.Some? ==> failure == ReadFrom(input, read, md5s.Keys, i)
    ensures failure.None? ==> ReadFrom(input, read, md5s'.Keys, i + 1) == ReadFrom(input, read, md5s.Keys, i)
    ensures failure.None? ==> Grouping(annotations', md5s') == Group(before + RecordVisits(input, off, read, fingerprint)[..i + 1])
  {
    var image := input.ds.records[i].image;
    var newPath := PathJoin(input.relativePath, image);
    var newLabels := ShiftLabels(input.ds.records[i].labels, off);
    var md5 := "";
    if newPath !in md5s {
      var bytes := read(input.ds.imagesDirectory, image);
      if bytes.Err? {
        return Some(bytes.error), annotations, md5s;
      }
      md5 := fingerprint(bytes.value);
    }
    RecordStep(input, off, read, fingerprint, before, i, md5);
    annotations', md5s' := AddRecord(annotations, md5s, newPath, newLabels, md5);
    ReadFromNext(input, read, md5s.Keys, i);
    failure := None;
  }

  /** The record loop of `concat_datasets` for one input: an image is read
      and hashed when its new path is first seen, and a failing read ends
      the loop. */
  method VisitLoop(annotations: Table<Labels>, md5s: map<string, string>, input: Input, off: int, read: (string, string) -> Result<string>, fingerprint: string -> string,
                   ghost before: seq<Visit<Labels>>)
    returns (failure: Option<Error>, annotations': Table<Labels>, md5s': map<string, string>)
    requires Grouping(annotations, md5s) == Group(before)
    ensures failure == ReadFrom(input, read, VisitPaths(before), 0)
    ensures failure.None? ==> Grouping(annotations', md5s') == Group(before + RecordVisits(input, off, read, fingerprint))
  {
    ghost var vs := RecordVisits(input, off, read, fingerprint);
    annotations', md5s' := annotations, md5s;
    var i := 0;
    VisitsEnds(before, vs);
    GroupPaths(before);
    while i < |input.ds.records|
      invariant 0 <= i <= |input.ds.records|
      invariant ReadFrom(input, read, md5s'.Keys, i) == ReadFrom(input, read, md5s.Keys, 0)
      invariant Grouping(annotations', md5s') == Group(before + vs[..i])
    {
      failure, annotations', md5s' := VisitRecord(annotations', md5s', input, off, read, fingerprint, before, i);
      if failure.Some? {
        return;
      }
      i := i + 1;
    }
    failure := None;
  }

  /** The input loop of `concat_datasets`: each input's label table is
      merged into `labels` and its records into `annotations`. */
  method InputLoop(inputs: seq<Input>, disk: Disk, fingerprint: string -> string)
    returns (labels: Result<seq<string>>, annotations: Table<Labels>, md5s: map<string, string>)
    ensures labels.Err? ==> Loaded(inputs, disk, fingerprint) == Err(labels.error)
    ensures labels.Ok? ==> Loaded(inputs, disk, fingerprint).Ok? && labels.value == MergedLabels(Tables(inputs, disk).value)
    ensures labels.Ok? ==> Grouping(annotations, md5s) == Group(AllVisits(inputs, Tables(inputs, disk).value, ImageReader(disk), fingerprint))
  {
    var names: seq<string> := [];
    var offset := 0;
    annotations, md5s := Table([], map[]), map[];
    ghost var tables: seq<seq<string>> := [];
    var k := 0;
    while k < |inputs|
      invariant 0 <= k <= |inputs|
      invariant Loaded(inputs[..k], disk, fingerprint) == Ok(tables)
      invariant names == MergedLabels(tables) && offset == TotalLen(tables)
      invariant Grouping(annotations, md5s) == Group(AllVisits(inputs[..k], tables, ImageReader(disk), fingerprint))
    {
      var table := LabelsOf(inputs[k].ds, disk);
      if table.Err? {
        var upTo := inputs[..k + 1];
        assert upTo[..k] == inputs[..k] && upTo[k] == inputs[k];
        LoadedFailsEarly(inputs, disk, fingerprint, k + 1);
        return Err(table.error), annotations, md5s;
      }
      ConcatStep(inputs, disk, fingerprint, k, tables, table.value);
      VisitStep(inputs, ImageReader(disk), fingerprint, k, tables, table.value);
      names := MergeTableLoop(names, table.value);
      var failure;
      failure, annotations, md5s := VisitLoop(annotations, md5s, inputs[k], offset, ImageReader(disk), fingerprint, AllVisits(inputs[..k], tables, ImageReader(disk), fingerprint));
      if failure.Some? {
        LoadedFailsEarly(inputs, disk, fingerprint, k + 1);
        return Err(failure.value), annotations, md5s;
      }
      tables := tables + [table.value];
      offset := offset + |table.value|;
      k := k + 1;
    }
    assert inputs[..k] == inputs;
    labels := Ok(names);
  }

  /** `concat_datasets` up to the writer call: the dataset to write and the
      `copy_images` flag. */
  method ConcatDatasets(inputs: seq<Input>, disk: Disk, outputDirectory: string, fingerprint: string -> string)
    returns (r: Result<Dataset>, copyImages: bool)
    ensures r == ConcatSpec(inputs, disk, outputDirectory, fingerprint)
    ensures copyImages == CopyImages(inputs, outputDirectory)
  {
    copyImages := CopyImages(inputs, outputDirectory);
    var kind := ConcatKind(inputs);
    if kind.Err? {
      return Err(kind.error), copyImages;
    }
    var labels, annotations, md5s := InputLoop(inputs, disk, fingerprint);
    if labels.Err? {
      return Err(labels.error), copyImages;
    }
    ghost var tables := Tables(inputs, disk).value;
    ghost var g := Grouped(inputs, tables, ImageReader(disk), fingerprint);
    var merged := DedupImagesLoop(annotations, md5s);
    assert merged == Merged(inputs, tables, ImageReader(disk), fingerprint);
    r := Ok(NewDataset(kind.value, Records(kind.value, merged), outputDirectory, None, labels.value));
  }
}
