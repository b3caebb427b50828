/** The Open Images relationship reader: of the rows of the relationship
    CSV only the "is" rows are used, and each contributes its first box,
    labelled by its second label, to a detection dataset. Its image lookups,
    label table and grouping are the detection reader's. */
module OpenImagesVR {
  import opened Wrappers
  import opened Files
  import opened LabelCodecs
  import opened KindDetection
  import opened Datasets
  import opened OpenImagesOD

  /** One CSV row, with the columns the reader uses. */
  datatype RelationRow = RelationRow(imageId: string, labelName1: string, labelName2: string, relationshipLabel: string,
                                     xMin1: string, yMin1: string, xMax1: string, yMax1: string)

  /** The box a used row contributes: box 1, labelled by `LabelName2`; it
      carries no flags. */
  function AsBoxRow(row: RelationRow): (b: BoxRow)
    ensures !Skipped(b, DefaultOptions)
  {
    BoxRow(row.imageId, row.labelName2, row.xMin1, row.yMin1, row.xMax1, row.yMax1, "", "", "")
  }

  /** The rows whose relationship is "is", in order, as box rows. */
  function IsRows(rows: seq<RelationRow>): (used: seq<BoxRow>)
    ensures |used| <= |rows|
    ensures forall b :: b in used <==> exists i :: 0 <= i < |rows| && rows[i].relationshipLabel == "is" && b == AsBoxRow(rows[i])
    ensures forall k :: 0 <= k < |used| ==> !Skipped(used[k], DefaultOptions)
  {
    if rows == [] then []
    else
      var n := |rows| - 1;
      var init := IsRows(rows[..n]);
      assert forall i :: 0 <= i < n ==> rows[..n][i] == rows[i];
      if rows[n].relationshipLabel == "is" then init + [AsBoxRow(rows[n])] else init
  }

  /** No used row is skipped, so every used row keeps its box. */
  lemma {:induction false} NothingSkipped(rows: seq<RelationRow>)
    ensures SkipCount(IsRows(rows), DefaultOptions) == 0
  {
    if rows != [] {
      var n := |rows| - 1;
      NothingSkipped(rows[..n]);
      var init := IsRows(rows[..n]);
      if rows[n].relationshipLabel == "is" {
        assert (init + [AsBoxRow(rows[n])])[..|init|] == init;
      }
    }
  }

  /** `OpenImagesVRReader.read`: the detection reader over the used rows, so
      only their images are sized, only their box-1 coordinates are
      converted and only their names enter the table. */
  function ReadVR(disk: Disk, decoder: Decoder, imagesDirectory: string, pixel: Pixels, rows: seq<RelationRow>): (r: Result<Dataset>)
    ensures r.Ok? <==> forall k :: 0 <= k < |IsRows(rows)| ==> RowPasses(disk, decoder, imagesDirectory, DefaultOptions, pixel, IsRows(rows)[k])
    ensures r.Err? ==> KeptBoxes(DiskSizer(disk, decoder, imagesDirectory), DefaultOptions, pixel, IsRows(rows)) == Err(r.error)
  {
    ReadOD(disk, decoder, imagesDirectory, DefaultOptions, pixel, IsRows(rows))
  }

  /** Every used row keeps its box: the skip count the reader logs is the
      number of rows that are not "is" rows, and the table holds exactly the
      second labels of the "is" rows. */
  lemma {:induction false} ReadVRKeepsEveryUsedRow(disk: Disk, decoder: Decoder, imagesDirectory: string, pixel: Pixels, rows: seq<RelationRow>)
    requires ReadVR(disk, decoder, imagesDirectory, pixel, rows).Ok?
    ensures |KeptBoxes(DiskSizer(disk, decoder, imagesDirectory), DefaultOptions, pixel, IsRows(rows)).value| == |IsRows(rows)|
    ensures forall x :: x in ReadVR(disk, decoder, imagesDirectory, pixel, rows).value.labelNames <==>
      exists i :: 0 <= i < |rows| && rows[i].relationshipLabel == "is" && rows[i].labelName2 == x
    ensures ReadVR(disk, decoder, imagesDirectory, pixel, rows).value.kind == ObjectDetection
  {
    var used := IsRows(rows);
    var resolve, size := DiskResolver(disk, imagesDirectory), DiskSizer(disk, decoder, imagesDirectory);
    DiskConsistent(disk, decoder, imagesDirectory);
    NothingSkipped(rows);
    assert ReadVR(disk, decoder, imagesDirectory, pixel, rows) == ReadRows(resolve, size, imagesDirectory, DefaultOptions, pixel, used);
    ReadRowsLabels(resolve, size, imagesDirectory, DefaultOptions, pixel, used);
    ReadRowsRecords(resolve, size, imagesDirectory, DefaultOptions, pixel, used);
    var table := ReadRows(resolve, size, imagesDirectory, DefaultOptions, pixel, used).value.labelNames;
    forall x | x in table
      ensures exists i :: 0 <= i < |rows| && rows[i].relationshipLabel == "is" && rows[i].labelName2 == x
    {
      var j :| 0 <= j < |used| && used[j].labelName == x;
      assert used[j] in used;
    }
    forall i | 0 <= i < |rows| && rows[i].relationshipLabel == "is"
      ensures rows[i].labelName2 in table
    {
      assert AsBoxRow(rows[i]) in used;
      var j :| 0 <= j < |used| && used[j] == AsBoxRow(rows[i]);
      assert used[j].labelName == rows[i].labelName2;
    }
  }

  /** `OpenImagesVRReader.read` with the logged number of skipped rows:
      the "is" filter over the rows, then the detection reader's loops. */
  method Read(disk: Disk, decoder: Decoder, imagesDirectory: string, pixel: Pixels, rows: seq<RelationRow>)
    returns (r: Result<Dataset>, skipped: nat)
    ensures r == ReadVR(disk, decoder, imagesDirectory, pixel, rows)
    ensures r.Ok? ==> skipped == |rows| - |IsRows(rows)|
  {
    var used: seq<BoxRow> := [];
    var i := 0;
    while i < |rows|
      invariant 0 <= i <= |rows|
      invariant used == IsRows(rows[..i])
    {
      assert rows[..i + 1][..i] == rows[..i];
      if rows[i].relationshipLabel == "is" {
        used := used + [AsBoxRow(rows[i])];
      }
      i := i + 1;
    }
    assert rows[..i] == rows;
    var flagged: nat;
    DiskConsistent(disk, decoder, imagesDirectory);
    r, flagged := ReadWith(DiskResolver(disk, imagesDirectory), DiskSizer(disk, decoder, imagesDirectory), imagesDirectory, DefaultOptions, pixel, used);
    skipped := |rows| - |used|;
  }

  /** `OpenImagesVRWriter.write`: exporting to this format is not supported. */
  function WriteVR(ds: Dataset, outputPath: string, imagesDirectory: string): (r: Result<()>)
    ensures r.Err? && r.error == NotImplementedError
  {
    Err(NotImplementedError)
  }
}
