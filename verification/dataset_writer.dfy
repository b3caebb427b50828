/** `DatasetWriter`: writes a dataset's label table, its manifest and, for
    detection, a zip of per-record box payloads into a directory, choosing a
    numbered name instead of overwriting labels.txt or labels.zip. */
module DatasetWriting {
  import opened Wrappers
  import opened Strings
  import opened Files
  import opened FileReading
  import opened LabelCodecs
  import opened KindDetection
  import opened Datasets

  // ------------------------------------------------- _get_unique_filename

  /** `filename.split('.', maxsplit=1)` unpacked into a stem and an
      extension: a name without '.' does not unpack (ValueError). */
  function StemAndExt(filename: string): (r: Result<(string, string)>)
    ensures r.Err? <==> '.' !in filename
    ensures r.Err? ==> r.error == ValueError
    ensures r.Ok? ==> '.' !in r.value.0 && r.value.0 + "." + r.value.1 == filename
  {
    var k := Find(filename, '.');
    if k == |filename| then Err(ValueError)
    else
      assert filename == filename[..k] + "." + filename[k + 1..];
      Ok((filename[..k], filename[k + 1..]))
  }

  /** `_get_unique_filename(filename)`. */
  function UniqueFilename(disk: Disk, directory: string, filename: string): (r: Result<string>)
    ensures r.Ok? ==> !disk.Exists(PathJoin(directory, r.value))
    ensures r.Err? ==> r.error == ValueError || r.error == RuntimeError
  {
    if !disk.Exists(PathJoin(directory, filename)) then Ok(filename)
    else
      match StemAndExt(filename)
      case Err(e) => Err(e)
      case Ok((stem, ext)) => FirstFree(disk, directory, stem, "." + ext, 0)
  }

  /** The name is kept when free; a taken name without '.' cannot be split
      (ValueError); otherwise the result is the first free numbered
      candidate, and RuntimeError exactly when all 100 are taken. */
  lemma UniqueFilenameSpec(disk: Disk, directory: string, filename: string)
    ensures !disk.Exists(PathJoin(directory, filename)) ==> UniqueFilename(disk, directory, filename) == Ok(filename)
    ensures disk.Exists(PathJoin(directory, filename)) && '.' !in filename ==>
      UniqueFilename(disk, directory, filename) == Err(ValueError)
    ensures disk.Exists(PathJoin(directory, filename)) && '.' in filename ==>
      var (stem, ext) := StemAndExt(filename).value;
      var r := UniqueFilename(disk, directory, filename);
      && (r == Err(RuntimeError) <==> forall j :: 0 <= j < 100 ==> Taken(disk, directory, stem, "." + ext, j))
      && (r.Ok? ==> exists k :: 0 <= k < 100 && r.value == Candidate(stem, "." + ext, k) && !Taken(disk, directory, stem, "." + ext, k)
                                && forall j :: 0 <= j < k ==> Taken(disk, directory, stem, "." + ext, j))
  {
    if disk.Exists(PathJoin(directory, filename)) && '.' in filename {
      var (stem, ext) := StemAndExt(filename).value;
      FirstFreeFails(disk, directory, stem, "." + ext, 0);
      FirstFreeFirst(disk, directory, stem, "." + ext, 0);
    }
  }

  // ------------------------------------------------------ the written text

  /** `f"{image} {'.'.join([str(i) for i in labels])}"`. */
  function ClassificationLine(image: string, ids: seq<int>): string
  {
    image + " " + Join(".", IntStrings(ids))
  }

  predicate AllClassIds(records: seq<Record>)
  {
    forall i :: 0 <= i < |records| ==> records[i].labels.ClassIds?
  }

  predicate AllBoxes(records: seq<Record>)
  {
    forall i :: 0 <= i < |records| ==> records[i].labels.Boxes?
  }

  /** The classification manifest's lines, one per record, in record order. */
  function ClassificationLines(records: seq<Record>): (lines: seq<string>)
    requires AllClassIds(records)
    ensures |lines| == |records|
  {
    seq(|records|, i requires 0 <= i < |records| => ClassificationLine(records[i].image, records[i].labels.ids))
  }

  function ClassificationManifest(records: seq<Record>): string
    requires AllClassIds(records)
  {
    Terminated(ClassificationLines(records))
  }

  /** Entry `{i}.txt` of the labels zip. */
  function EntryName(i: nat): string
  {
    IntToString(i) + ".txt"
  }

  /** `f'{image} {label_zip_filename}@{i}.txt'`. */
  function DetectionLine(image: string, zip: string, i: nat): string
  {
    image + " " + zip + "@" + EntryName(i)
  }

  /** The detection manifest's lines: record i's line points at entry i of
      the zip. */
  function DetectionLines(records: seq<Record>, zip: string): (lines: seq<string>)
    ensures |lines| == |records|
  {
    seq(|records|, i requires 0 <= i < |records| => DetectionLine(records[i].image, zip, i))
  }

  function DetectionManifest(records: seq<Record>, zip: string): string
  {
    Terminated(DetectionLines(records, zip))
  }

  /** The zip's entries: record i's boxes, encoded, under `{i}.txt`. */
  function DetectionEntries(records: seq<Record>): map<string, string>
    requires AllBoxes(records)
  {
    if records == [] then map[]
    else
      var n := |records| - 1;
      DetectionEntries(records[..n])[EntryName(n) := EncodeBoxes(records[n].labels.boxes)]
  }

  /** The name the labels are written to: labels.txt, or a numbered name
      when labels.txt exists. */
  function LabelsTarget(disk: Disk, directory: string): (r: Result<string>)
    ensures r.Ok? ==> !disk.Exists(PathJoin(directory, r.value))
  {
    if disk.Exists(PathJoin(directory, "labels.txt")) then UniqueFilename(disk, directory, "labels.txt")
    else Ok("labels.txt")
  }

  /** `'\n'.join(labels)` written to the labels target; the disk is
      unchanged when the labels are skipped. */
  function WriteLabels(disk: Disk, directory: string, ds: Dataset, skipLabelsTxt: bool): Result<Disk>
  {
    if skipLabelsTxt then Ok(disk)
    else
      match LabelsTarget(disk, directory)
      case Err(e) => Err(e)
      case Ok(name) =>
        match LabelsOf(ds, disk)
        case Err(e) => Err(e)
        case Ok(labels) => Ok(disk.WriteText(PathJoin(directory, name), Join("\n", labels)))
  }

  /** `write(dataset, output_filepath, skip_labels_txt)`: the outcome and the
      disk afterwards. A failure after the labels were written leaves them
      written. */
  function WriteSpec(disk: Disk, directory: string, ds: Dataset, output: string, skipLabelsTxt: bool): (Result<()>, Disk)
    requires WellKinded(ds)
  {
    if '/' in output then (Err(AssertionError), disk)
    else
      match WriteLabels(disk, directory, ds, skipLabelsTxt)
      case Err(e) => (Err(e), disk)
      case Ok(d) =>
        match ds.kind
        case ImageClassification =>
          (Ok(()), d.WriteText(PathJoin(directory, output), ClassificationManifest(ds.records)))
        case ObjectDetection =>
          (match UniqueFilename(d, directory, "labels.zip")
           case Err(e) => (Err(e), d)
           case Ok(zip) =>
             (Ok(()), d.WriteText(PathJoin(directory, output), DetectionManifest(ds.records, zip))
                       .WriteArchive(PathJoin(directory, zip), DetectionEntries(ds.records))))
        case VisualRelationship => (Ok(()), d)
  }

  /** Whether `write` asks the dataset for its labels: when they are not
      skipped and a name for them was found. */
  predicate AsksForLabels(disk: Disk, directory: string, output: string, skipLabelsTxt: bool)
  {
    '/' !in output && !skipLabelsTxt
    && LabelsTarget(disk, directory).Ok?
  }

  // ------------------------------------------------------ what a write does

  /** The labels step never touches an existing file: the table goes to a
      name that did not exist, and nothing else changes. */
  lemma LabelsKeepExistingFiles(disk: Disk, directory: string, ds: Dataset, skipLabelsTxt: bool)
    requires WriteLabels(disk, directory, ds, skipLabelsTxt).Ok?
    ensures var d := WriteLabels(disk, directory, ds, skipLabelsTxt).value;
      && d.archives == disk.archives
      && (forall p :: p in disk.files ==> p in d.files && d.files[p] == disk.files[p])
      && (skipLabelsTxt ==> d == disk)
      && (!skipLabelsTxt ==> exists name :: !disk.Exists(PathJoin(directory, name))
                                && d == disk.WriteText(PathJoin(directory, name), Join("\n", LabelsOf(ds, disk).value)))
  {
    if !skipLabelsTxt {
      var name := LabelsTarget(disk, directory).value;
      var path := PathJoin(directory, name);
      var d := disk.WriteText(path, Join("\n", LabelsOf(ds, disk).value));
      assert WriteLabels(disk, directory, ds, skipLabelsTxt) == Ok(d);
      assert !disk.Exists(path);
      forall p | p in disk.files
        ensures p in d.files && d.files[p] == disk.files[p]
      {
        assert p != path;
      }
    }
  }

  /** A relationship dataset gets no manifest: the write is the labels step
      alone. */
  lemma RelationshipWritesOnlyLabels(disk: Disk, directory: string, ds: Dataset, output: string, skipLabelsTxt: bool)
    requires ds.kind == VisualRelationship && WellKinded(ds) && '/' !in output
    requires WriteLabels(disk, directory, ds, skipLabelsTxt).Ok?
    ensures WriteSpec(disk, directory, ds, output, skipLabelsTxt) == (Ok(()), WriteLabels(disk, directory, ds, skipLabelsTxt).value)
  {
  }

  predicate ImagesWellFormed(records: seq<Record>)
  {
    forall i :: 0 <= i < |records| ==> records[i].image != [] && NoSpace(records[i].image)
  }

  lemma NoSpaceNoLineBreak(s: string)
    requires NoSpace(s)
    ensures NoLineBreak(s)
  {
    forall k | 0 <= k < |s|
      ensures !IsLineBreak(s[k])
    {
      LineBreakIsSpace(s[k]);
    }
  }

  /** A character of a '.'-joined id list. */
  predicate IdChar(c: char)
  {
    IsDigit(c) || c == '-' || c == '.'
  }

  /** A '.'-joined id list is made of digits, '-' and '.'; with two ids or
      more it has a '.' after its first character. */
  lemma {:induction false} DottedIdsField(ids: seq<int>)
    ensures var f := Join(".", IntStrings(ids));
      && (forall k :: 0 <= k < |f| ==> IdChar(f[k]))
      && (ids != [] ==> f != [])
      && (|ids| >= 2 ==> exists k :: 1 <= k < |f| && f[k] == '.')
  {
    var parts := IntStrings(ids);
    if |ids| == 1 {
      assert Join(".", parts) == IntToString(ids[0]);
    } else if |ids| >= 2 {
      DottedIdsField(ids[1..]);
      assert parts[1..] == IntStrings(ids[1..]);
      var a := IntToString(ids[0]);
      var rest := Join(".", IntStrings(ids[1..]));
      assert Join(".", parts) == a + "." + rest;
      DotJoinIdChars(a, rest);
    }
  }

  /** Id characters on both sides of a '.' make an id field with a '.' after
      its first character. */
  lemma DotJoinIdChars(a: string, rest: string)
    requires a != [] && forall k :: 0 <= k < |a| ==> IdChar(a[k])
    requires forall k :: 0 <= k < |rest| ==> IdChar(rest[k])
    ensures var f := a + "." + rest;
      (forall k :: 0 <= k < |f| ==> IdChar(f[k])) && f[|a|] == '.'
  {
    var f := a + "." + rest;
    forall k | 0 <= k < |f|
      ensures IdChar(f[k])
    {
      if k < |a| {
        assert f[k] == a[k];
      } else if k > |a| {
        assert f[k] == rest[k - |a| - 1];
      }
    }
  }

  /** A field holding '.' after its first character is not an integer. */
  lemma DottedNotInt(f: string)
    requires f != [] && (forall k :: 0 <= k < |f| ==> IdChar(f[k]))
    requires exists k :: 1 <= k < |f| && f[k] == '.'
    ensures ParseInt(f).Err?
  {
    StripUnchanged(f);
    var k :| 1 <= k < |f| && f[k] == '.';
    assert !IsDigit(f[1..][k - 1]);
  }

  /** A manifest line made of an image path, one space and a label field is
      that image with the field's labels. */
  lemma ManifestLineOfPair(kind: Kind, disk: Disk, directory: string, image: string, field: string)
    requires image != [] && NoSpace(image)
    requires field != [] && !IsSpace(field[0]) && !IsSpace(field[|field| - 1])
    ensures ParseManifestLine(kind, disk, directory, image + " " + field) ==
      match ParseLabelField(kind, disk, directory, field)
      case Err(e) => Err(e)
      case Ok(labels) => Ok(Record(image, labels))
  {
    var line := image + " " + field;
    assert line[0] == image[0] && line[|line| - 1] == field[|field| - 1];
    StripUnchanged(line);
    SplitFirstFieldOfPair(image, field);
  }

  /** A manifest line holding only an image path has no label field. */
  lemma ManifestLineWithoutField(kind: Kind, disk: Disk, directory: string, image: string)
    requires image != [] && NoSpace(image)
    ensures ParseManifestLine(kind, disk, directory, image + " ") == Err(ValueError)
  {
    StripTrailingSpace(image);
    SplitFirstFieldOfToken(image);
  }

  /** The label field of a classification line has no space at either end
      and no line break. */
  lemma DottedIdsTrimmed(ids: seq<int>)
    requires ids != []
    ensures var f := Join(".", IntStrings(ids));
      f != [] && !IsSpace(f[0]) && !IsSpace(f[|f| - 1]) && NoLineBreak(f)
  {
    DottedIdsField(ids);
  }

  /** Several ids joined with '.' do not parse back as a label field. */
  lemma DottedIdsReject(disk: Disk, directory: string, ids: seq<int>)
    requires |ids| >= 2
    ensures ParseLabelField(ImageClassification, disk, directory, Join(".", IntStrings(ids))) == Err(ValueError)
  {
    var f := Join(".", IntStrings(ids));
    DottedIdsField(ids);
    assert ',' !in f;
    SplitOnAbsent(f, ',');
    DottedNotInt(f);
    assert ParseInts(SplitOn(f, ',')).Err?;
  }

  /** The label field of a classification line: one id parses back, several
      joined with '.' do not. */
  lemma DottedIdsParse(disk: Disk, directory: string, ids: seq<int>)
    requires ids != []
    ensures var f := Join(".", IntStrings(ids));
      && f != [] && !IsSpace(f[0]) && !IsSpace(f[|f| - 1]) && NoLineBreak(f)
      && ParseLabelField(ImageClassification, disk, directory, f) == if |ids| == 1 then Ok(ClassIds(ids)) else Err(ValueError)
  {
    DottedIdsTrimmed(ids);
    if |ids| == 1 {
      assert Join(".", IntStrings(ids)) == IntToString(ids[0]);
      ClassIdsOfSingle(ids[0]);
      assert ids == [ids[0]];
    } else {
      DottedIdsReject(disk, directory, ids);
    }
  }

  /** A written classification line reads back as its record exactly when
      the record has one label: no label leaves the line without a label
      field, and several are joined with '.', which is not an integer. */
  lemma ClassificationLineReadBack(disk: Disk, directory: string, image: string, ids: seq<int>)
    requires image != [] && NoSpace(image)
    ensures ParseManifestLine(ImageClassification, disk, directory, ClassificationLine(image, ids))
      == if |ids| == 1 then Ok(Record(image, ClassIds(ids))) else Err(ValueError)
  {
    if ids == [] {
      assert ClassificationLine(image, ids) == image + " ";
      ManifestLineWithoutField(ImageClassification, disk, directory, image);
    } else {
      DottedIdsParse(disk, directory, ids);
      ManifestLineOfPair(ImageClassification, disk, directory, image, Join(".", IntStrings(ids)));
    }
  }

  lemma ClassificationLineNoLineBreak(image: string, ids: seq<int>)
    requires NoSpace(image)
    ensures NoLineBreak(ClassificationLine(image, ids))
  {
    NoSpaceNoLineBreak(image);
    DottedIdsField(ids);
    var f := Join(".", IntStrings(ids));
    assert NoLineBreak(f);
  }

  /** `{i}.txt` names differ for different i. */
  lemma EntryNameInjective(i: nat, j: nat)
    requires EntryName(i) == EntryName(j)
    ensures i == j
  {
    NumberedNameInjective(i, j, ".txt");
  }

  /** Entry `{i}.txt` of the zip holds record i's encoded boxes. */
  lemma {:induction false} DetectionEntriesLookup(records: seq<Record>, i: nat)
    requires AllBoxes(records) && i < |records|
    ensures EntryName(i) in DetectionEntries(records)
    ensures DetectionEntries(records)[EntryName(i)] == EncodeBoxes(records[i].labels.boxes)
  {
    var n := |records| - 1;
    if i < n {
      DetectionEntriesLookup(records[..n], i);
      if EntryName(i) == EntryName(n) {
        EntryNameInjective(i, n);
      }
    }
  }

  /** The zip holds no entry other than `{i}.txt` for each record i. */
  lemma {:induction false} DetectionEntriesKeys(records: seq<Record>, key: string)
    requires AllBoxes(records)
    ensures key in DetectionEntries(records) <==> exists i :: 0 <= i < |records| && key == EntryName(i)
  {
    if records != [] {
      var n := |records| - 1;
      DetectionEntriesKeys(records[..n], key);
    }
  }

  /** Entry names are single fields without '@' that end in 't'. */
  lemma EntryNameChars(i: nat)
    ensures var e := EntryName(i); '@' !in e && NoSpace(e) && NoLineBreak(e) && e[|e| - 1] == 't'
  {
  }

  /** A compound label field `{zip}@{entry}` reads the entry's payload out of
      the zip. */
  lemma CompoundFieldReads(disk: Disk, directory: string, zip: string, entry: string)
    requires '@' !in zip && '@' !in entry
    requires PathJoin(directory, zip) in disk.archives && entry in disk.archives[PathJoin(directory, zip)]
    ensures ReadSpec(disk, directory, zip + "@" + entry, "r") == Ok(Text(disk.archives[PathJoin(directory, zip)][entry]))
  {
    var field := zip + "@" + entry;
    assert field[|zip|] == '@';
    SplitOnPair(zip, entry, '@');
  }

  /** A written detection manifest line reads back as its record, through
      the zip entry it names. */
  lemma DetectionLineReadBack(disk: Disk, directory: string, image: string, zip: string, i: nat, boxes: seq<Box>)
    requires image != [] && NoSpace(image) && zip != [] && NoSpace(zip) && '@' !in zip
    requires PathJoin(directory, zip) in disk.archives
    requires EntryName(i) in disk.archives[PathJoin(directory, zip)]
    requires disk.archives[PathJoin(directory, zip)][EntryName(i)] == EncodeBoxes(boxes)
    ensures ParseManifestLine(ObjectDetection, disk, directory, DetectionLine(image, zip, i)) == Ok(Record(image, Boxes(boxes)))
  {
    var entry := EntryName(i);
    var field := zip + "@" + entry;
    EntryNameChars(i);
    assert DetectionLine(image, zip, i) == image + " " + field;
    assert field[0] == zip[0] && field[|field| - 1] == 't';
    CompoundFieldReads(disk, directory, zip, entry);
    BoxesRoundTrip(boxes);
    assert ParseLabelField(ObjectDetection, disk, directory, field) == Ok(Boxes(boxes));
    ManifestLineOfPair(ObjectDetection, disk, directory, image, field);
  }

  lemma DetectionLineNoLineBreak(image: string, zip: string, i: nat)
    requires NoSpace(image) && NoSpace(zip)
    ensures NoLineBreak(DetectionLine(image, zip, i))
  {
    NoSpaceNoLineBreak(image);
    NoSpaceNoLineBreak(zip);
    EntryNameChars(i);
  }

  /** Loading a written detection manifest against the zip written with it
      gives back the records. */
  lemma DetectionManifestReadBack(records: seq<Record>, zip: string, disk: Disk, directory: string)
    requires AllBoxes(records) && ImagesWellFormed(records)
    requires zip != [] && NoSpace(zip) && '@' !in zip
    requires PathJoin(directory, zip) in disk.archives && disk.archives[PathJoin(directory, zip)] == DetectionEntries(records)
    ensures ParseEach(SplitLines(DetectionManifest(records, zip)), ManifestParser(ObjectDetection, disk, directory)) == Ok(records)
  {
    var lines := DetectionLines(records, zip);
    var parse := ManifestParser(ObjectDetection, disk, directory);
    forall i | 0 <= i < |records|
      ensures NoLineBreak(lines[i]) && parse(lines[i]) == Ok(records[i])
    {
      DetectionEntriesLookup(records, i);
      DetectionLineReadBack(disk, directory, records[i].image, zip, i, records[i].labels.boxes);
      DetectionLineNoLineBreak(records[i].image, zip, i);
    }
    SplitLinesOfTerminated(lines);
    ParseEachOfDecodable(lines, records, parse);
  }

  /** A unique name found for a single field without '@' is again one. */
  lemma UniqueFilenameChars(disk: Disk, directory: string, filename: string)
    requires filename != [] && NoSpace(filename) && '@' !in filename
    requires UniqueFilename(disk, directory, filename).Ok?
    ensures var n := UniqueFilename(disk, directory, filename).value; n != [] && NoSpace(n) && '@' !in n
  {
    var n := UniqueFilename(disk, directory, filename).value;
    if disk.Exists(PathJoin(directory, filename)) {
      var (stem, ext) := StemAndExt(filename).value;
      assert filename == stem + "." + ext;
      assert forall j :: 0 <= j < |stem| ==> stem[j] == filename[j];
      assert forall j :: 0 <= j < |"." + ext| ==> ("." + ext)[j] == filename[|stem| + j];
      FirstFreeFirst(disk, directory, stem, "." + ext, 0);
      var k :| 0 <= k < 100 && n == Candidate(stem, "." + ext, k);
      CandidateChars(stem, "." + ext, k);
    }
  }

  lemma LabelsZipLiteral()
    ensures NoSpace("labels.zip") && '@' !in "labels.zip"
  {
    var z := "labels.zip";
    forall j | 0 <= j < |z|
      ensures !IsSpace(z[j]) && z[j] != '@'
    {
      assert z[j] in {'l', 'a', 'b', 'e', 's', '.', 'z', 'i', 'p'};
    }
  }

  /** A written detection dataset loads back as the same records, provided
      the manifest was not written over by the zip. */
  lemma WriteThenLoadDetection(disk: Disk, directory: string, ds: Dataset, output: string, skipLabelsTxt: bool, imagesDirectory: Option<string>)
    requires ds.kind == ObjectDetection && WellKinded(ds) && ImagesWellFormed(ds.records)
    requires WriteSpec(disk, directory, ds, output, skipLabelsTxt).0.Ok?
    requires PathJoin(directory, output) in WriteSpec(disk, directory, ds, output, skipLabelsTxt).1.files
    ensures var d := WriteSpec(disk, directory, ds, output, skipLabelsTxt).1;
      LoadSpec(ObjectDetection, d.files[PathJoin(directory, output)], d, directory, imagesDirectory)
        == Ok(NewDataset(ObjectDetection, ds.records, directory, imagesDirectory, []))
  {
    var d1 := WriteLabels(disk, directory, ds, skipLabelsTxt).value;
    var zip := UniqueFilename(d1, directory, "labels.zip").value;
    assert UniqueFilename(d1, directory, "labels.zip").Ok?;
    LabelsZipLiteral();
    UniqueFilenameChars(d1, directory, "labels.zip");
    var d := WriteSpec(disk, directory, ds, output, skipLabelsTxt).1;
    assert d == d1.WriteText(PathJoin(directory, output), DetectionManifest(ds.records, zip))
                  .WriteArchive(PathJoin(directory, zip), DetectionEntries(ds.records));
    assert d.files[PathJoin(directory, output)] == DetectionManifest(ds.records, zip);
    DetectionManifestReadBack(ds.records, zip, d, directory);
  }

  predicate SingleLabels(records: seq<Record>)
    requires AllClassIds(records)
  {
    forall i :: 0 <= i < |records| ==> |records[i].labels.ids| == 1
  }

  /** Loading a written classification manifest gives back the records when
      each has exactly one label, and ValueError otherwise. */
  lemma ClassificationManifestReadBack(records: seq<Record>, disk: Disk, directory: string)
    requires AllClassIds(records) && ImagesWellFormed(records)
    ensures ParseEach(SplitLines(ClassificationManifest(records)), ManifestParser(ImageClassification, disk, directory))
      == if SingleLabels(records) then Ok(records) else Err(ValueError)
  {
    var lines := ClassificationLines(records);
    var parse := ManifestParser(ImageClassification, disk, directory);
    forall i | 0 <= i < |records|
      ensures NoLineBreak(lines[i])
      ensures parse(lines[i]) == if |records[i].labels.ids| == 1 then Ok(records[i]) else Err(ValueError)
    {
      ClassificationLineReadBack(disk, directory, records[i].image, records[i].labels.ids);
      ClassificationLineNoLineBreak(records[i].image, records[i].labels.ids);
    }
    SplitLinesOfTerminated(lines);
    assert SplitLines(ClassificationManifest(records)) == lines;
    var r := ParseEach(lines, parse);
    if SingleLabels(records) {
      ParseEachOfDecodable(lines, records, parse);
    } else {
      var i :| 0 <= i < |records| && |records[i].labels.ids| != 1;
      assert parse(lines[i]).Err?;
      assert r.Err?;
      var j :| 0 <= j < |lines| && parse(lines[j]) == Err(r.error);
      assert r.error == ValueError;
    }
  }

  /** A written classification dataset loads back as the same records when
      every record has exactly one label, and fails with ValueError
      otherwise. */
  lemma WriteThenLoadClassification(disk: Disk, directory: string, ds: Dataset, output: string, skipLabelsTxt: bool, imagesDirectory: Option<string>)
    requires ds.kind == ImageClassification && WellKinded(ds) && ImagesWellFormed(ds.records)
    requires WriteSpec(disk, directory, ds, output, skipLabelsTxt).0.Ok?
    ensures var d := WriteSpec(disk, directory, ds, output, skipLabelsTxt).1;
      && PathJoin(directory, output) in d.files
      && LoadSpec(ImageClassification, d.files[PathJoin(directory, output)], d, directory, imagesDirectory)
           == if SingleLabels(ds.records) then Ok(NewDataset(ImageClassification, ds.records, directory, imagesDirectory, []))
              else Err(ValueError)
  {
    var d := WriteSpec(disk, directory, ds, output, skipLabelsTxt).1;
    assert d.files[PathJoin(directory, output)] == ClassificationManifest(ds.records);
    ClassificationManifestReadBack(ds.records, d, directory);
  }

  // --------------------------------------------------------- the writer

  class DatasetWriter {
    const directory: string
    /** The file system the writer writes into. */
    var disk: Disk

    constructor (directory: string, disk: Disk)
      ensures this.directory == directory && this.disk == disk
    {
      this.directory := directory;
      this.disk := disk;
    }

    /** `_get_unique_filename`: the loop over the 100 candidates. */
    method GetUniqueFilename(filename: string) returns (r: Result<string>)
      ensures r == UniqueFilename(disk, directory, filename)
    {
      if !disk.Exists(PathJoin(directory, filename)) {
        return Ok(filename);
      }
      var split := StemAndExt(filename);
      if split.Err? {
        return Err(split.error);
      }
      var (stem, ext) := split.value;
      for i := 0 to 100
        invariant FirstFree(disk, directory, stem, "." + ext, 0) == FirstFree(disk, directory, stem, "." + ext, i)
      {
        var name := Candidate(stem, "." + ext, i);
        if !disk.Exists(PathJoin(directory, name)) {
          return Ok(name);
        }
      }
      return Err(RuntimeError);
    }

    /** The labels step of `write`, through the dataset's memoising
        `labels`. */
    method WriteLabelsFile(dataset: ImageDataset, skipLabelsTxt: bool) returns (r: Result<()>)
      modifies this, dataset`labelNames
      ensures match WriteLabels(old(disk), directory, old(dataset.Value()), skipLabelsTxt)
        case Ok(d) => r == Ok(()) && disk == d
        case Err(e) => r == Err(e) && disk == old(disk)
      ensures dataset.labelNames ==
        if !skipLabelsTxt && LabelsTarget(old(disk), directory).Ok? && LabelsOf(old(dataset.Value()), old(disk)).Ok?
        then LabelsOf(old(dataset.Value()), old(disk)).value
        else old(dataset.labelNames)
    {
      if skipLabelsTxt {
        return Ok(());
      }
      var name := "labels.txt";
      if disk.Exists(PathJoin(directory, "labels.txt")) {
        var unique := GetUniqueFilename("labels.txt");
        if unique.Err? {
          return Err(unique.error);
        }
        name := unique.value;
      }
      assert LabelsTarget(disk, directory) == Ok(name);
      var labels := dataset.Labels(disk);
      if labels.Err? {
        return Err(labels.error);
      }
      disk := disk.WriteText(PathJoin(directory, name), Join("\n", labels.value));
      return Ok(());
    }

    /** `write`: the labels (through the dataset's memoising `labels`), then
        the manifest and, for detection, the labels zip. */
    method Write(dataset: ImageDataset, output: string, skipLabelsTxt: bool) returns (r: Result<()>)
      requires WellKinded(dataset.Value())
      modifies this, dataset`labelNames
      ensures (r, disk) == WriteSpec(old(disk), directory, old(dataset.Value()), output, skipLabelsTxt)
      ensures dataset.labelNames ==
        if AsksForLabels(old(disk), directory, output, skipLabelsTxt) && LabelsOf(old(dataset.Value()), old(disk)).Ok?
        then LabelsOf(old(dataset.Value()), old(disk)).value
        else old(dataset.labelNames)
    {
      if '/' in output {
        return Err(AssertionError);
      }
      var written := WriteLabelsFile(dataset, skipLabelsTxt);
      if written.Err? {
        return written;
      }
      var records := dataset.records;
      match dataset.kind {
        case ImageClassification =>
          var text := ClassificationText(records);
          disk := disk.WriteText(PathJoin(directory, output), text);
        case ObjectDetection =>
          var zip := GetUniqueFilename("labels.zip");
          if zip.Err? {
            return Err(zip.error);
          }
          var text, entries := DetectionPayloads(records, zip.value);
          disk := disk.WriteText(PathJoin(directory, output), text).WriteArchive(PathJoin(directory, zip.value), entries);
        case VisualRelationship =>
      }
      return Ok(());
    }
  }

  lemma DetectionLinesSnoc(records: seq<Record>, zip: string, i: nat)
    requires i < |records|
    ensures DetectionLines(records[..i + 1], zip) == DetectionLines(records[..i], zip) + [DetectionLine(records[i].image, zip, i)]
  {
    var a := DetectionLines(records[..i + 1], zip);
    var b := DetectionLines(records[..i], zip) + [DetectionLine(records[i].image, zip, i)];
    assert forall k :: 0 <= k < i + 1 ==> a[k] == b[k];
  }

  lemma ClassificationLinesSnoc(records: seq<Record>, i: nat)
    requires i < |records| && AllClassIds(records)
    ensures AllClassIds(records[..i]) && AllClassIds(records[..i + 1])
    ensures ClassificationLines(records[..i + 1]) == ClassificationLines(records[..i]) + [ClassificationLine(records[i].image, records[i].labels.ids)]
  {
    var all := ClassificationLines(records);
    ClassificationLinesPrefix(records, i);
    ClassificationLinesPrefix(records, i + 1);
    assert all[..i + 1] == all[..i] + [all[i]];
  }

  /** The lines of the first j records are the first j lines. */
  lemma ClassificationLinesPrefix(records: seq<Record>, j: nat)
    requires j <= |records| && AllClassIds(records)
    ensures AllClassIds(records[..j])
    ensures ClassificationLines(records[..j]) == ClassificationLines(records)[..j]
  {
    assert forall k :: 0 <= k < j ==> records[..j][k] == records[k];
  }

  /** The classification branch's loop: one line per record. */
  method ClassificationText(records: seq<Record>) returns (text: string)
    requires AllClassIds(records)
    ensures text == ClassificationManifest(records)
  {
    text := [];
    for i := 0 to |records|
      invariant text == ClassificationManifest(records[..i])
    {
      var line := ClassificationLine(records[i].image, records[i].labels.ids);
      ClassificationLinesSnoc(records, i);
      TerminatedSnoc(ClassificationLines(records[..i]), line);
      text := text + line + "\n";
    }
    assert records[..|records|] == records;
  }

  /** The detection branch's loop: entry `{i}.txt` and manifest line i for
      each record i. */
  method DetectionPayloads(records: seq<Record>, zip: string) returns (text: string, entries: map<string, string>)
    requires AllBoxes(records)
    ensures text == DetectionManifest(records, zip)
    ensures entries == DetectionEntries(records)
  {
    text := [];
    entries := map[];
    for i := 0 to |records|
      invariant text == DetectionManifest(records[..i], zip)
      invariant entries == DetectionEntries(records[..i])
    {
      DetectionPayloadsSnoc(records, zip, i);
      entries := entries[EntryName(i) := EncodeBoxes(records[i].labels.boxes)];
      text := text + DetectionLine(records[i].image, zip, i) + "\n";
    }
    assert records[..|records|] == records;
  }

  /** One more record adds its line to the manifest and its entry to the
      zip. */
  lemma DetectionPayloadsSnoc(records: seq<Record>, zip: string, i: nat)
    requires i < |records| && AllBoxes(records)
    ensures DetectionManifest(records[..i + 1], zip) == DetectionManifest(records[..i], zip) + DetectionLine(records[i].image, zip, i) + "\n"
    ensures DetectionEntries(records[..i + 1]) == DetectionEntries(records[..i])[EntryName(i) := EncodeBoxes(records[i].labels.boxes)]
  {
    assert records[..i + 1][..i] == records[..i];
    DetectionLinesSnoc(records, zip, i);
    TerminatedSnoc(DetectionLines(records[..i], zip), DetectionLine(records[i].image, zip, i));
  }
}
