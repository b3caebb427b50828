/** The Open Images detection reader: the rows of `annotation-bbox.csv`
    become a detection dataset with one record per image that keeps a box.
    Rows are taken already parsed; a coordinate stays the text of its
    column, and its conversion `int(round(float(text) * size))`, which can
    fail, is a parameter of the model. */
module OpenImagesOD {
  import opened Wrappers
  import opened Files
  import opened Orders
  import opened PyLists
  import opened LabelCodecs
  import opened KindDetection
  import opened Datasets

  /** One CSV row; a flag column that is absent is the empty text, which,
      like any text other than "1", does not set the flag. */
  datatype BoxRow = BoxRow(imageId: string, labelName: string, xMin: string, yMin: string, xMax: string, yMax: string,
                           isOccluded: string, isDepiction: string, isInside: string)

  /** The reader's three include options. */
  datatype Options = Options(includeOccluded: bool, includeDepiction: bool, includeInside: bool)

  /** Occluded boxes are included by default, depictions and boxes seen from
      inside are not. */
  const DefaultOptions := Options(true, false, false)

  /** `int(round(float(text) * size))` for a coordinate text and an image
      side length: a ValueError for a text that is not a number or is "nan",
      an OverflowError for an infinite one. */
  type Pixels = (string, int) -> Result<int>

  /** A kept box before its label name is replaced by an id. */
  datatype Kept = Kept(imageId: string, labelName: string, x: int, y: int, x2: int, y2: int)

  // ------------------------------------------------------- image lookup

  /** `images_dir / f'train_{image_id[0]}' / filename`. */
  function TrainPath(imagesDirectory: string, imageId: string): string
    requires imageId != []
  {
    PathJoin(PathJoin(imagesDirectory, "train_" + [imageId[0]]), imageId + ".jpg")
  }

  /** `_resolve_image_filename`: `{id}.jpg` when it exists in the images
      directory, else `train_{id[0]}/{id}.jpg` when that exists, else None.
      An empty id whose `.jpg` is missing fails at `image_id[0]`. */
  function ResolveImageFilename(disk: Disk, imagesDirectory: string, imageId: string): (r: Result<Option<string>>)
    ensures r.Err? ==> r.error == IndexError
  {
    var filename := imageId + ".jpg";
    if disk.Exists(PathJoin(imagesDirectory, filename)) then Ok(Some(filename))
    else if imageId == [] then Err(IndexError)
    else if disk.Exists(TrainPath(imagesDirectory, imageId)) then Ok(Some("train_" + [imageId[0]] + "/" + filename))
    else Ok(None)
  }

  /** The first candidate wins when it exists; a returned name always names
      an existing file of the images directory; None means neither candidate
      exists; the lookup fails only for an empty id without a `.jpg`. */
  lemma ResolveImageFilenameSpec(disk: Disk, imagesDirectory: string, imageId: string)
    ensures disk.Exists(PathJoin(imagesDirectory, imageId + ".jpg")) ==> ResolveImageFilename(disk, imagesDirectory, imageId) == Ok(Some(imageId + ".jpg"))
    ensures ResolveImageFilename(disk, imagesDirectory, imageId).Ok? && ResolveImageFilename(disk, imagesDirectory, imageId).value.Some? ==>
      disk.Exists(PathJoin(imagesDirectory, ResolveImageFilename(disk, imagesDirectory, imageId).value.value))
    ensures ResolveImageFilename(disk, imagesDirectory, imageId) == Ok(None) ==>
      imageId != [] && !disk.Exists(PathJoin(imagesDirectory, imageId + ".jpg")) && !disk.Exists(TrainPath(imagesDirectory, imageId))
    ensures ResolveImageFilename(disk, imagesDirectory, imageId).Err? <==> imageId == [] && !disk.Exists(PathJoin(imagesDirectory, imageId + ".jpg"))
  {
    if imageId != [] {
      var filename := imageId + ".jpg";
      assert TrainPath(imagesDirectory, imageId) == PathJoin(imagesDirectory, "train_" + [imageId[0]] + "/" + filename);
    }
  }

  /** `_get_image_size`: the resolved image's (width, height); an image that
      cannot be found raises RuntimeError, one the decoder cannot read an
      image error. */
  function ImageSize(disk: Disk, decoder: Decoder, imagesDirectory: string, imageId: string): (r: Result<(int, int)>)
    ensures r.Err? ==> r.error in {IndexError, RuntimeError, ImageError}
  {
    match ResolveImageFilename(disk, imagesDirectory, imageId)
    case Err(e) => Err(e)
    case Ok(None) => Err(RuntimeError)
    case Ok(Some(filename)) =>
      var path := PathJoin(imagesDirectory, filename);
      if path in disk.files && disk.files[path] in decoder then Ok(decoder[disk.files[path]]) else Err(ImageError)
  }

  /** The image lookups as functions of the image id alone. */
  type Resolver = string -> Result<Option<string>>
  type Sizer = string -> Result<(int, int)>

  function DiskResolver(disk: Disk, imagesDirectory: string): Resolver
  {
    id => ResolveImageFilename(disk, imagesDirectory, id)
  }

  function DiskSizer(disk: Disk, decoder: Decoder, imagesDirectory: string): Sizer
  {
    id => ImageSize(disk, decoder, imagesDirectory, id)
  }

  /** An image that can be sized resolves to a file name. */
  ghost predicate Consistent(resolve: Resolver, size: Sizer)
  {
    forall id :: size(id).Ok? ==> resolve(id).Ok? && resolve(id).value.Some?
  }

  /** The two lookups on a disk are consistent: sizing an image resolves it
      first, and a missing image cannot be sized (RuntimeError). */
  lemma DiskConsistent(disk: Disk, decoder: Decoder, imagesDirectory: string)
    ensures Consistent(DiskResolver(disk, imagesDirectory), DiskSizer(disk, decoder, imagesDirectory))
    ensures forall id :: ResolveImageFilename(disk, imagesDirectory, id) == Ok(None) ==> ImageSize(disk, decoder, imagesDirectory, id) == Err(RuntimeError)
  {
  }

  // ------------------------------------------------------------ row loop

  /** A row is skipped exactly when one of its flags is "1" and the matching
      option does not include it. */
  predicate Skipped(row: BoxRow, opts: Options)
  {
    || (!opts.includeOccluded && row.isOccluded == "1")
    || (!opts.includeDepiction && row.isDepiction == "1")
    || (!opts.includeInside && row.isInside == "1")
  }

  /** Under the default options a row is skipped exactly when it is a
      depiction or seen from inside; occlusion never skips it. */
  lemma SkippedByDefault(row: BoxRow)
    ensures Skipped(row, DefaultOptions) <==> row.isDepiction == "1" || row.isInside == "1"
  {
  }

  /** The box a kept row contributes, scaled by its image's size. The
      coordinates are converted left to right, XMin, YMin, XMax, YMax, and
      the first that fails fails the row. */
  function KeepRow(row: BoxRow, size: (int, int), pixel: Pixels): (r: Result<Kept>)
    ensures r.Ok? <==> pixel(row.xMin, size.0).Ok? && pixel(row.yMin, size.1).Ok? && pixel(row.xMax, size.0).Ok? && pixel(row.yMax, size.1).Ok?
    ensures r.Ok? ==> r.value == Kept(row.imageId, row.labelName, pixel(row.xMin, size.0).value, pixel(row.yMin, size.1).value,
                                      pixel(row.xMax, size.0).value, pixel(row.yMax, size.1).value)
    ensures pixel(row.xMin, size.0).Err? ==> r == Err(pixel(row.xMin, size.0).error)
    ensures pixel(row.xMin, size.0).Ok? && pixel(row.yMin, size.1).Err? ==> r == Err(pixel(row.yMin, size.1).error)
    ensures pixel(row.xMin, size.0).Ok? && pixel(row.yMin, size.1).Ok? && pixel(row.xMax, size.0).Err? ==> r == Err(pixel(row.xMax, size.0).error)
  {
    var x :- pixel(row.xMin, size.0);
    var y :- pixel(row.yMin, size.1);
    var x2 :- pixel(row.xMax, size.0);
    var y2 :- pixel(row.yMax, size.1);
    Ok(Kept(row.imageId, row.labelName, x, y, x2, y2))
  }

  /** One pass of the row loop: the image's size is looked up first, whether
      or not the row is then skipped; a row that is not skipped then
      converts its coordinates. A skipped row gives None, a kept one its
      box. */
  function RowOutcome(size: Sizer, opts: Options, pixel: Pixels, row: BoxRow): Result<Option<Kept>>
  {
    var wh :- size(row.imageId);
    if Skipped(row, opts) then Ok(None)
    else
      var c :- KeepRow(row, wh, pixel);
      Ok(Some(c))
  }

  /** A row passes exactly when its image is sized and, unless it is
      skipped, its coordinates convert; a skipped row gives no box, a kept
      one the box of its coordinates; a failure is the size lookup's, or
      else the coordinates'. */
  lemma RowOutcomeSpec(size: Sizer, opts: Options, pixel: Pixels, row: BoxRow)
    ensures RowOutcome(size, opts, pixel, row).Ok? <==>
      size(row.imageId).Ok? && (!Skipped(row, opts) ==> KeepRow(row, size(row.imageId).value, pixel).Ok?)
    ensures RowOutcome(size, opts, pixel, row).Ok? ==> (RowOutcome(size, opts, pixel, row).value.None? <==> Skipped(row, opts))
    ensures RowOutcome(size, opts, pixel, row).Ok? && RowOutcome(size, opts, pixel, row).value.Some? ==>
      KeepRow(row, size(row.imageId).value, pixel) == Ok(RowOutcome(size, opts, pixel, row).value.value)
    ensures size(row.imageId).Err? ==> RowOutcome(size, opts, pixel, row) == Err(size(row.imageId).error)
    ensures size(row.imageId).Ok? && !Skipped(row, opts) && KeepRow(row, size(row.imageId).value, pixel).Err? ==>
      RowOutcome(size, opts, pixel, row) == Err(KeepRow(row, size(row.imageId).value, pixel).error)
  {
  }

  /** The number of skipped rows. */
  function SkipCount(rows: seq<BoxRow>, opts: Options): nat
  {
    if rows == [] then 0
    else SkipCount(rows[..|rows| - 1], opts) + if Skipped(rows[|rows| - 1], opts) then 1 else 0
  }

  /** The boxes of the rows that are not skipped, in row order, or the
      failure of the first row that fails; together with the skipped rows
      the kept boxes account for every row. */
  function KeptBoxes(size: Sizer, opts: Options, pixel: Pixels, rows: seq<BoxRow>): (r: Result<seq<Kept>>)
    ensures r.Ok? ==> |r.value| + SkipCount(rows, opts) == |rows|
  {
    if rows == [] then Ok([])
    else
      var n := |rows| - 1;
      var init := KeptBoxes(size, opts, pixel, rows[..n]);
      if init.Err? then init
      else
        match RowOutcome(size, opts, pixel, rows[n])
        case Err(e) => Err(e)
        case Ok(None) => init
        case Ok(Some(c)) => Ok(init.value + [c])
  }

  /** The rows give boxes exactly when every row passes. */
  lemma {:induction false} KeptBoxesOk(size: Sizer, opts: Options, pixel: Pixels, rows: seq<BoxRow>)
    ensures KeptBoxes(size, opts, pixel, rows).Ok? <==> forall i :: 0 <= i < |rows| ==> RowOutcome(size, opts, pixel, rows[i]).Ok?
  {
    if rows != [] {
      var n := |rows| - 1;
      var prefix := rows[..n];
      KeptBoxesOk(size, opts, pixel, prefix);
      if KeptBoxes(size, opts, pixel, rows).Ok? {
        forall i | 0 <= i < |rows|
          ensures RowOutcome(size, opts, pixel, rows[i]).Ok?
        {
          if i < n {
            assert prefix[i] == rows[i];
          }
        }
      } else if KeptBoxes(size, opts, pixel, prefix).Err? {
        var i :| 0 <= i < n && RowOutcome(size, opts, pixel, prefix[i]).Err?;
        assert prefix[i] == rows[i];
      }
    }
  }

  /** Each row that is not skipped has its box kept, and every kept box is
      some row's. */
  lemma {:induction false} KeptBoxesMembers(size: Sizer, opts: Options, pixel: Pixels, rows: seq<BoxRow>)
    requires KeptBoxes(size, opts, pixel, rows).Ok?
    ensures forall i :: 0 <= i < |rows| && !Skipped(rows[i], opts) ==>
      RowOutcome(size, opts, pixel, rows[i]).Ok? && RowOutcome(size, opts, pixel, rows[i]).value.Some? &&
      RowOutcome(size, opts, pixel, rows[i]).value.value in KeptBoxes(size, opts, pixel, rows).value
    ensures forall c :: c in KeptBoxes(size, opts, pixel, rows).value ==>
      exists i :: 0 <= i < |rows| && RowOutcome(size, opts, pixel, rows[i]) == Ok(Some(c))
  {
    if rows != [] {
      var n := |rows| - 1;
      var prefix := rows[..n];
      KeptBoxesMembers(size, opts, pixel, prefix);
      var kept := KeptBoxes(size, opts, pixel, prefix).value;
      var last := RowOutcome(size, opts, pixel, rows[n]);
      assert KeptBoxes(size, opts, pixel, rows).value == if last.value.Some? then kept + [last.value.value] else kept;
      forall i | 0 <= i < n
        ensures prefix[i] == rows[i]
      {
      }
    }
  }

  /** A failure is that of the first row that fails: its size lookup, or,
      for a row that is not skipped, one of its coordinates. */
  lemma {:induction false} KeptBoxesFirstError(size: Sizer, opts: Options, pixel: Pixels, rows: seq<BoxRow>)
    requires KeptBoxes(size, opts, pixel, rows).Err?
    ensures exists i :: && 0 <= i < |rows| && RowOutcome(size, opts, pixel, rows[i]) == Err(KeptBoxes(size, opts, pixel, rows).error)
                        && forall j :: 0 <= j < i ==> RowOutcome(size, opts, pixel, rows[j]).Ok?
  {
    var n := |rows| - 1;
    var prefix := rows[..n];
    var e := KeptBoxes(size, opts, pixel, rows).error;
    if KeptBoxes(size, opts, pixel, prefix).Err? {
      KeptBoxesFirstError(size, opts, pixel, prefix);
      var i :| && 0 <= i < n && RowOutcome(size, opts, pixel, prefix[i]) == Err(e)
               && forall j :: 0 <= j < i ==> RowOutcome(size, opts, pixel, prefix[j]).Ok?;
      assert prefix[i] == rows[i];
      forall j | 0 <= j < i
        ensures RowOutcome(size, opts, pixel, rows[j]).Ok?
      {
        assert prefix[j] == rows[j];
      }
    } else {
      assert RowOutcome(size, opts, pixel, rows[n]) == Err(e);
      KeptBoxesOk(size, opts, pixel, prefix);
      forall j | 0 <= j < n
        ensures RowOutcome(size, opts, pixel, rows[j]).Ok?
      {
        assert prefix[j] == rows[j];
      }
    }
  }

  /** Every row's label name, skipped or not. */
  function RowNames(rows: seq<BoxRow>): (names: seq<string>)
    ensures |names| == |rows| && forall i :: 0 <= i < |rows| ==> names[i] == rows[i].labelName
  {
    seq(|rows|, i requires 0 <= i < |rows| => rows[i].labelName)
  }

  // ------------------------------------------------------------ grouping

  function KeptIds(kept: seq<Kept>): (ids: seq<string>)
    ensures |ids| == |kept| && forall k :: 0 <= k < |kept| ==> ids[k] == kept[k].imageId
  {
    seq(|kept|, k requires 0 <= k < |kept| => kept[k].imageId)
  }

  /** The keys of the `annotations` dictionary, in insertion order: each
      distinct id in the order of its first occurrence. */
  function FirstSeen(ids: seq<string>): (order: seq<string>)
    ensures Distinct(order)
    ensures forall x :: x in order <==> x in ids
  {
    if ids == [] then []
    else
      var n := |ids| - 1;
      var o := FirstSeen(ids[..n]);
      assert forall x :: x in ids <==> x in ids[..n] || x == ids[n] by {
        assert ids == ids[..n] + [ids[n]];
      }
      if ids[n] in o then o else o + [ids[n]]
  }

  /** `xs.index(x)` is the one position that holds `x` with no `x` before it. */
  lemma IndexOfUnique<T>(xs: seq<T>, x: T, k: nat)
    requires k < |xs| && xs[k] == x && forall j :: 0 <= j < k ==> xs[j] != x
    ensures IndexOf(xs, x) == k
  {
  }

  /** The keys come in the order of their first occurrences. */
  lemma {:induction false} FirstSeenOrder(ids: seq<string>, i: nat, j: nat)
    requires i < j < |FirstSeen(ids)|
    ensures IndexOf(ids, FirstSeen(ids)[i]) < IndexOf(ids, FirstSeen(ids)[j])
  {
    var n := |ids| - 1;
    var o := FirstSeen(ids[..n]);
    var x, y := FirstSeen(ids)[i], FirstSeen(ids)[j];
    assert x in ids[..n] by {
      assert x == o[i];
    }
    IndexOfUnique(ids, x, IndexOf(ids[..n], x));
    if j < |o| {
      assert y == o[j] && y in ids[..n];
      IndexOfUnique(ids, y, IndexOf(ids[..n], y));
      FirstSeenOrder(ids[..n], i, j);
    } else {
      assert y == ids[n] && y !in ids[..n];
      IndexOfUnique(ids, y, n);
    }
  }

  /** `annotations[image_id]`: the kept boxes of one image, in row order. */
  function Group(kept: seq<Kept>, id: string): (g: seq<Kept>)
    ensures forall c :: c in g ==> c in kept && c.imageId == id
    ensures (exists c :: c in kept && c.imageId == id) ==> g != []
  {
    if kept == [] then []
    else
      var n := |kept| - 1;
      var init := Group(kept[..n], id);
      assert forall c :: c in kept <==> c in kept[..n] || c == kept[n] by {
        assert kept == kept[..n] + [kept[n]];
      }
      if kept[n].imageId == id then init + [kept[n]] else init
  }

  /** The dictionary and its key order after the boxes in `kept`. */
  ghost predicate Grouped(kept: seq<Kept>, groups: map<string, seq<Kept>>, order: seq<string>)
  {
    && order == FirstSeen(KeptIds(kept))
    && (forall id :: id in groups <==> id in order)
    && (forall id :: id in groups ==> groups[id] == Group(kept, id))
  }

  /** `(label_id_map[name], x, y, x2, y2)` for each box of a group. */
  function ToBoxes(g: seq<Kept>, table: seq<string>): (boxes: seq<Box>)
    requires forall c :: c in g ==> c.labelName in table
    ensures |boxes| == |g|
    ensures forall k :: 0 <= k < |g| ==> && boxes[k] == Box(IndexOf(table, g[k].labelName), g[k].x, g[k].y, g[k].x2, g[k].y2)
                                         && table[boxes[k].classId] == g[k].labelName
  {
    seq(|g|, k requires 0 <= k < |g| => Box(IndexOf(table, g[k].labelName), g[k].x, g[k].y, g[k].x2, g[k].y2))
  }

  /** One record per key, in key order: the resolved file name and the
      group's boxes with their names replaced by table positions. */
  function GroupRecords(resolve: Resolver, kept: seq<Kept>, table: seq<string>, order: seq<string>): (records: seq<Record>)
    requires forall c :: c in kept ==> c.labelName in table
    requires forall k :: 0 <= k < |order| ==> resolve(order[k]).Ok? && resolve(order[k]).value.Some?
    ensures |records| == |order|
    ensures forall k :: 0 <= k < |order| ==> records[k] == Record(resolve(order[k]).value.value, Boxes(ToBoxes(Group(kept, order[k]), table)))
  {
    seq(|order|, k requires 0 <= k < |order| => Record(resolve(order[k]).value.value, Boxes(ToBoxes(Group(kept, order[k]), table))))
  }

  // ---------------------------------------------------------------- read

  /** The kept boxes come from rows whose images were sized, so their images
      resolve, and their names are among all rows' names. */
  lemma {:induction false} KeptFacts(resolve: Resolver, size: Sizer, opts: Options, pixel: Pixels, rows: seq<BoxRow>)
    requires Consistent(resolve, size) && KeptBoxes(size, opts, pixel, rows).Ok?
    ensures forall c :: c in KeptBoxes(size, opts, pixel, rows).value ==> c.labelName in SortedNames(RowNames(rows))
    ensures forall k :: 0 <= k < |FirstSeen(KeptIds(KeptBoxes(size, opts, pixel, rows).value))| ==>
      var id := FirstSeen(KeptIds(KeptBoxes(size, opts, pixel, rows).value))[k];
      resolve(id).Ok? && resolve(id).value.Some?
  {
    var kept := KeptBoxes(size, opts, pixel, rows).value;
    KeptBoxesMembers(size, opts, pixel, rows);
    forall c | c in kept
      ensures c.labelName in SortedNames(RowNames(rows)) && size(c.imageId).Ok?
    {
      var i :| 0 <= i < |rows| && RowOutcome(size, opts, pixel, rows[i]) == Ok(Some(c));
      RowOutcomeSpec(size, opts, pixel, rows[i]);
      assert RowNames(rows)[i] == c.labelName;
    }
    var order := FirstSeen(KeptIds(kept));
    forall k | 0 <= k < |order|
      ensures size(order[k]).Ok?
    {
      assert order[k] in order;
      var j :| 0 <= j < |kept| && KeptIds(kept)[j] == order[k];
      assert kept[j] in kept;
    }
  }

  /** The reader over any pair of consistent image lookups: the row loop,
      then the label table (the sorted names of every row), then one record
      per image that kept a box; the base directory is the images
      directory. */
  function ReadRows(resolve: Resolver, size: Sizer, imagesDirectory: string, opts: Options, pixel: Pixels, rows: seq<BoxRow>): (r: Result<Dataset>)
    requires Consistent(resolve, size)
    ensures r.Ok? <==> forall i :: 0 <= i < |rows| ==> RowOutcome(size, opts, pixel, rows[i]).Ok?
    ensures r.Ok? <==> KeptBoxes(size, opts, pixel, rows).Ok?
    ensures r.Err? ==> KeptBoxes(size, opts, pixel, rows) == Err(r.error)
  {
    KeptBoxesOk(size, opts, pixel, rows);
    match KeptBoxes(size, opts, pixel, rows)
    case Err(e) => Err(e)
    case Ok(kept) =>
      var table := SortedNames(RowNames(rows));
      KeptFacts(resolve, size, opts, pixel, rows);
      Ok(NewDataset(ObjectDetection, GroupRecords(resolve, kept, table, FirstSeen(KeptIds(kept))), imagesDirectory, None, table))
  }

  /** A row gets through the loop on a disk: its image can be sized and,
      unless the row is skipped, its coordinates convert. */
  predicate RowPasses(disk: Disk, decoder: Decoder, imagesDirectory: string, opts: Options, pixel: Pixels, row: BoxRow)
  {
    && ImageSize(disk, decoder, imagesDirectory, row.imageId).Ok?
    && (!Skipped(row, opts) ==> KeepRow(row, ImageSize(disk, decoder, imagesDirectory, row.imageId).value, pixel).Ok?)
  }

  lemma DiskRowsPass(disk: Disk, decoder: Decoder, imagesDirectory: string, opts: Options, pixel: Pixels, rows: seq<BoxRow>)
    ensures forall i :: 0 <= i < |rows| ==>
      (RowOutcome(DiskSizer(disk, decoder, imagesDirectory), opts, pixel, rows[i]).Ok? <==> RowPasses(disk, decoder, imagesDirectory, opts, pixel, rows[i]))
  {
    var size := DiskSizer(disk, decoder, imagesDirectory);
    forall i | 0 <= i < |rows|
      ensures RowOutcome(size, opts, pixel, rows[i]).Ok? <==> RowPasses(disk, decoder, imagesDirectory, opts, pixel, rows[i])
    {
      RowOutcomeSpec(size, opts, pixel, rows[i]);
      assert size(rows[i].imageId) == ImageSize(disk, decoder, imagesDirectory, rows[i].imageId);
    }
  }

  /** `OpenImagesODReader.read` on a disk: a row whose image cannot be
      sized, skipped or not, fails the whole read, and so does a row that is
      not skipped and whose coordinates do not convert; the failure is the
      rows' fold's. */
  function ReadOD(disk: Disk, decoder: Decoder, imagesDirectory: string, opts: Options, pixel: Pixels, rows: seq<BoxRow>): (r: Result<Dataset>)
    ensures r.Ok? <==> forall i :: 0 <= i < |rows| ==> RowPasses(disk, decoder, imagesDirectory, opts, pixel, rows[i])
    ensures r.Err? ==> KeptBoxes(DiskSizer(disk, decoder, imagesDirectory), opts, pixel, rows) == Err(r.error)
  {
    DiskConsistent(disk, decoder, imagesDirectory);
    DiskRowsPass(disk, decoder, imagesDirectory, opts, pixel, rows);
    ReadRows(DiskResolver(disk, imagesDirectory), DiskSizer(disk, decoder, imagesDirectory), imagesDirectory, opts, pixel, rows)
  }

  /** The table is the sorted distinct label names of all rows, kept or
      skipped, and every box's class id is the position of its name in it. */
  lemma {:induction false} ReadRowsLabels(resolve: Resolver, size: Sizer, imagesDirectory: string, opts: Options, pixel: Pixels, rows: seq<BoxRow>)
    requires Consistent(resolve, size) && ReadRows(resolve, size, imagesDirectory, opts, pixel, rows).Ok?
    ensures NamesSorted(ReadRows(resolve, size, imagesDirectory, opts, pixel, rows).value.labelNames)
    ensures forall x :: x in ReadRows(resolve, size, imagesDirectory, opts, pixel, rows).value.labelNames <==> exists i :: 0 <= i < |rows| && rows[i].labelName == x
    ensures forall k, b :: 0 <= k < |ReadRows(resolve, size, imagesDirectory, opts, pixel, rows).value.records| &&
                           0 <= b < |ReadRows(resolve, size, imagesDirectory, opts, pixel, rows).value.records[k].labels.boxes| ==>
      ReadRows(resolve, size, imagesDirectory, opts, pixel, rows).value.labelNames[ReadRows(resolve, size, imagesDirectory, opts, pixel, rows).value.records[k].labels.boxes[b].classId]
      == Group(KeptBoxes(size, opts, pixel, rows).value, FirstSeen(KeptIds(KeptBoxes(size, opts, pixel, rows).value))[k])[b].labelName
  {
    var kept := KeptBoxes(size, opts, pixel, rows).value;
    var table := SortedNames(RowNames(rows));
    KeptFacts(resolve, size, opts, pixel, rows);
    var order := FirstSeen(KeptIds(kept));
    var records := GroupRecords(resolve, kept, table, order);
    assert ReadRows(resolve, size, imagesDirectory, opts, pixel, rows).value.records == records;
    assert ReadRows(resolve, size, imagesDirectory, opts, pixel, rows).value.labelNames == table;
    forall x
      ensures x in table <==> exists i :: 0 <= i < |rows| && rows[i].labelName == x
    {
      if x in table {
        var i :| 0 <= i < |rows| && RowNames(rows)[i] == x;
      }
      if exists i :: 0 <= i < |rows| && rows[i].labelName == x {
        var i :| 0 <= i < |rows| && rows[i].labelName == x;
        assert RowNames(rows)[i] == x;
      }
    }
  }

  /** One record per image that kept at least one box, in the order of each
      image's first kept box, named by its resolved file name; the dataset
      is of detection kind. */
  lemma {:induction false} ReadRowsRecords(resolve: Resolver, size: Sizer, imagesDirectory: string, opts: Options, pixel: Pixels, rows: seq<BoxRow>)
    requires Consistent(resolve, size) && ReadRows(resolve, size, imagesDirectory, opts, pixel, rows).Ok?
    ensures ReadRows(resolve, size, imagesDirectory, opts, pixel, rows).value.kind == ObjectDetection
    ensures WellKinded(ReadRows(resolve, size, imagesDirectory, opts, pixel, rows).value)
    ensures |ReadRows(resolve, size, imagesDirectory, opts, pixel, rows).value.records| == |FirstSeen(KeptIds(KeptBoxes(size, opts, pixel, rows).value))|
    ensures forall k :: 0 <= k < |ReadRows(resolve, size, imagesDirectory, opts, pixel, rows).value.records| ==>
      && ReadRows(resolve, size, imagesDirectory, opts, pixel, rows).value.records[k].labels.Boxes?
      && ReadRows(resolve, size, imagesDirectory, opts, pixel, rows).value.records[k].labels.boxes != []
      && resolve(FirstSeen(KeptIds(KeptBoxes(size, opts, pixel, rows).value))[k]) ==
         Ok(Some(ReadRows(resolve, size, imagesDirectory, opts, pixel, rows).value.records[k].image))
  {
    var kept := KeptBoxes(size, opts, pixel, rows).value;
    var table := SortedNames(RowNames(rows));
    KeptFacts(resolve, size, opts, pixel, rows);
    var order := FirstSeen(KeptIds(kept));
    var records := GroupRecords(resolve, kept, table, order);
    assert ReadRows(resolve, size, imagesDirectory, opts, pixel, rows).value.records == records;
    forall k | 0 <= k < |order|
      ensures records[k].labels.boxes != []
    {
      FirstSeenGroup(kept, k);
    }
  }

  /** Every image in the dictionary's key order has at least one kept box. */
  lemma FirstSeenGroup(kept: seq<Kept>, k: nat)
    requires k < |FirstSeen(KeptIds(kept))|
    ensures Group(kept, FirstSeen(KeptIds(kept))[k]) != []
  {
    var order := FirstSeen(KeptIds(kept));
    assert order[k] in order;
    var j :| 0 <= j < |kept| && KeptIds(kept)[j] == order[k];
    assert kept[j] in kept;
  }

  // ------------------------------------------------------------- methods

  lemma {:induction false} GroupSnoc(kept: seq<Kept>, c: Kept, id: string)
    ensures Group(kept + [c], id) == Group(kept, id) + if c.imageId == id then [c] else []
  {
    assert (kept + [c])[..|kept|] == kept;
  }

  /** An image with no kept box has an empty group. */
  lemma GroupEmpty(kept: seq<Kept>, id: string)
    requires id !in KeptIds(kept)
    ensures Group(kept, id) == []
  {
  }

  lemma {:induction false} KeysSnoc(kept: seq<Kept>, c: Kept)
    ensures FirstSeen(KeptIds(kept + [c])) == if c.imageId in FirstSeen(KeptIds(kept)) then FirstSeen(KeptIds(kept)) else FirstSeen(KeptIds(kept)) + [c.imageId]
  {
    var ids := KeptIds(kept + [c]);
    assert ids[..|kept|] == KeptIds(kept);
    assert ids[|kept|] == c.imageId;
  }

  /** `annotations[image_id].append(box)` on the dictionary and its key
      order. */
  method AddToGroup(ghost kept: seq<Kept>, groups: map<string, seq<Kept>>, order: seq<string>, c: Kept)
    returns (groups': map<string, seq<Kept>>, order': seq<string>)
    requires Grouped(kept, groups, order)
    ensures Grouped(kept + [c], groups', order')
  {
    KeysSnoc(kept, c);
    if c.imageId in groups {
      groups' := groups[c.imageId := groups[c.imageId] + [c]];
      order' := order;
    } else {
      groups' := groups[c.imageId := [c]];
      order' := order + [c.imageId];
      GroupEmpty(kept, c.imageId);
    }
    forall id | id in groups'
      ensures groups'[id] == Group(kept + [c], id)
    {
      GroupSnoc(kept, c, id);
    }
  }

  /** The row loop of `read`: sizes are cached per image; every row's name
      is collected; the boxes of kept rows are grouped by image. */
  method ScanRows(size: Sizer, opts: Options, pixel: Pixels, rows: seq<BoxRow>)
    returns (r: Result<()>, ghost kept: seq<Kept>, groups: map<string, seq<Kept>>, order: seq<string>, skipped: nat)
    ensures r.Ok? <==> KeptBoxes(size, opts, pixel, rows).Ok?
    ensures r.Err? ==> r == Err(KeptBoxes(size, opts, pixel, rows).error)
    ensures r.Ok? ==> && kept == KeptBoxes(size, opts, pixel, rows).value
                      && Grouped(kept, groups, order)
                      && skipped == SkipCount(rows, opts)
  {
    var sizes: map<string, (int, int)> := map[];
    kept, groups, order, skipped := [], map[], [], 0;
    var i := 0;
    while i < |rows|
      invariant 0 <= i <= |rows|
      invariant KeptBoxes(size, opts, pixel, rows[..i]) == Ok(kept)
      invariant forall id :: id in sizes ==> size(id) == Ok(sizes[id])
      invariant Grouped(kept, groups, order)
      invariant skipped == SkipCount(rows[..i], opts)
    {
      var outcome;
      outcome, sizes := ScanRow(size, opts, pixel, rows[i], sizes);
      if outcome.Err? {
        KeptBoxesStops(size, opts, pixel, rows, i, outcome.error);
        return Err(outcome.error), kept, groups, order, skipped;
      }
      ScanStep(size, opts, pixel, rows, i, kept, outcome.value);
      kept, groups, order, skipped := AddOutcome(kept, groups, order, skipped, outcome.value);
      i := i + 1;
    }
    assert rows[..i] == rows;
    return Ok(()), kept, groups, order, skipped;
  }

  /** The end of one pass: a skipped row is counted, a kept box appended to
      its image's group. */
  method AddOutcome(ghost kept: seq<Kept>, groups: map<string, seq<Kept>>, order: seq<string>, skipped: nat, outcome: Option<Kept>)
    returns (ghost kept': seq<Kept>, groups': map<string, seq<Kept>>, order': seq<string>, skipped': nat)
    requires Grouped(kept, groups, order)
    ensures kept' == if outcome.Some? then kept + [outcome.value] else kept
    ensures skipped' == if outcome.None? then skipped + 1 else skipped
    ensures Grouped(kept', groups', order')
  {
    kept', groups', order', skipped' := kept, groups, order, skipped;
    if outcome.None? {
      skipped' := skipped + 1;
    } else {
      groups', order' := AddToGroup(kept, groups, order, outcome.value);
      kept' := kept + [outcome.value];
    }
  }

  /** One pass of the row loop's body: the size comes from the cache, or is
      looked up and cached; then the skip checks; then the coordinates. */
  method ScanRow(size: Sizer, opts: Options, pixel: Pixels, row: BoxRow, sizes: map<string, (int, int)>)
    returns (outcome: Result<Option<Kept>>, sizes': map<string, (int, int)>)
    requires forall id :: id in sizes ==> size(id) == Ok(sizes[id])
    ensures outcome == RowOutcome(size, opts, pixel, row)
    ensures outcome.Ok? ==> (outcome.value.None? <==> Skipped(row, opts))
    ensures forall id :: id in sizes' ==> size(id) == Ok(sizes'[id])
  {
    sizes' := sizes;
    if row.imageId !in sizes' {
      var wh := size(row.imageId);
      if wh.Err? {
        return Err(wh.error), sizes';
      }
      sizes' := sizes'[row.imageId := wh.value];
    }
    var wh := sizes'[row.imageId];
    if Skipped(row, opts) {
      return Ok(None), sizes';
    }
    var c := KeepRow(row, wh, pixel);
    if c.Err? {
      return Err(c.error), sizes';
    }
    return Ok(Some(c.value)), sizes';
  }

  /** One row's step of the two prefix folds the row loop maintains. */
  lemma ScanStep(size: Sizer, opts: Options, pixel: Pixels, rows: seq<BoxRow>, i: nat, kept: seq<Kept>, outcome: Option<Kept>)
    requires i < |rows| && KeptBoxes(size, opts, pixel, rows[..i]) == Ok(kept) && RowOutcome(size, opts, pixel, rows[i]) == Ok(outcome)
    ensures KeptBoxes(size, opts, pixel, rows[..i + 1]) == Ok(if outcome.Some? then kept + [outcome.value] else kept)
    ensures SkipCount(rows[..i + 1], opts) == SkipCount(rows[..i], opts) + if Skipped(rows[i], opts) then 1 else 0
  {
    var next := rows[..i + 1];
    assert next[..i] == rows[..i] && next[i] == rows[i] && |next| - 1 == i;
  }

  /** The first row that fails fails the whole fold. */
  lemma KeptBoxesStops(size: Sizer, opts: Options, pixel: Pixels, rows: seq<BoxRow>, i: nat, e: Error)
    requires i < |rows| && KeptBoxes(size, opts, pixel, rows[..i]).Ok? && RowOutcome(size, opts, pixel, rows[i]) == Err(e)
    ensures KeptBoxes(size, opts, pixel, rows) == Err(e)
  {
    assert rows[..i + 1][..i] == rows[..i];
    assert KeptBoxes(size, opts, pixel, rows[..i + 1]) == Err(e);
    KeptBoxesFailsEarly(size, opts, pixel, rows, i + 1);
  }

  /** Once a prefix of the rows fails, no later row is looked at. */
  lemma {:induction false} KeptBoxesFailsEarly(size: Sizer, opts: Options, pixel: Pixels, rows: seq<BoxRow>, i: nat)
    requires i <= |rows| && KeptBoxes(size, opts, pixel, rows[..i]).Err?
    ensures KeptBoxes(size, opts, pixel, rows) == KeptBoxes(size, opts, pixel, rows[..i])
    decreases |rows| - i
  {
    if i < |rows| {
      assert rows[..i + 1][..i] == rows[..i];
      KeptBoxesFailsEarly(size, opts, pixel, rows, i + 1);
    } else {
      assert rows[..i] == rows;
    }
  }

  /** The reader's two loops over consistent lookups, with the logged number
      of skipped rows: the row loop, then the record loop over the
      dictionary's keys. */
  method ReadWith(resolve: Resolver, size: Sizer, imagesDirectory: string, opts: Options, pixel: Pixels, rows: seq<BoxRow>)
    returns (r: Result<Dataset>, skipped: nat)
    requires Consistent(resolve, size)
    ensures r == ReadRows(resolve, size, imagesDirectory, opts, pixel, rows)
    ensures r.Ok? ==> skipped == SkipCount(rows, opts) == |rows| - |KeptBoxes(size, opts, pixel, rows).value|
  {
    var scanned: Result<()>;
    ghost var kept: seq<Kept>;
    var groups: map<string, seq<Kept>>;
    var order: seq<string>;
    scanned, kept, groups, order, skipped := ScanRows(size, opts, pixel, rows);
    if scanned.Err? {
      return Err(scanned.error), skipped;
    }
    var table := SortedNames(RowNames(rows));
    KeptFacts(resolve, size, opts, pixel, rows);
    var data := RecordLoop(resolve, kept, groups, order, table);
    return Ok(NewDataset(ObjectDetection, data, imagesDirectory, None, table)), skipped;
  }

  /** The record loop of `read`: for each key of the dictionary, in order,
      the resolved file name and the group with names replaced by ids. */
  method RecordLoop(resolve: Resolver, ghost kept: seq<Kept>, groups: map<string, seq<Kept>>, order: seq<string>, table: seq<string>)
    returns (data: seq<Record>)
    requires Grouped(kept, groups, order)
    requires forall c :: c in kept ==> c.labelName in table
    requires forall k :: 0 <= k < |order| ==> resolve(order[k]).Ok? && resolve(order[k]).value.Some?
    ensures data == GroupRecords(resolve, kept, table, order)
  {
    ghost var records := GroupRecords(resolve, kept, table, order);
    data := [];
    var k := 0;
    while k < |order|
      invariant 0 <= k <= |order|
      invariant data == records[..k]
    {
      assert order[k] in order;
      assert records[..k + 1] == records[..k] + [records[k]];
      var filename := resolve(order[k]).value.value;
      data := data + [Record(filename, Boxes(ToBoxes(groups[order[k]], table)))];
      k := k + 1;
    }
    assert records[..k] == records;
  }

  /** `OpenImagesODReader.read` on a disk. */
  method Read(disk: Disk, decoder: Decoder, imagesDirectory: string, opts: Options, pixel: Pixels, rows: seq<BoxRow>)
    returns (r: Result<Dataset>, skipped: nat)
    ensures r == ReadOD(disk, decoder, imagesDirectory, opts, pixel, rows)
    ensures r.Ok? ==> skipped == SkipCount(rows, opts)
  {
    DiskConsistent(disk, decoder, imagesDirectory);
    r, skipped := ReadWith(DiskResolver(disk, imagesDirectory), DiskSizer(disk, decoder, imagesDirectory), imagesDirectory, opts, pixel, rows);
  }

  // -------------------------------------------------------------- writer

  /** `OpenImagesODWriter.write`: exporting to this format is not supported. */
  function WriteOD(ds: Dataset, outputPath: string, imagesDirectory: string): (r: Result<()>)
    ensures r.Err? && r.error == NotImplementedError
  {
    Err(NotImplementedError)
  }
}
