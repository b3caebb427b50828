/** `print_summary`: the kind, the number of images, the number of distinct
    class ids, the maximum id, and for each id in use, in ascending order,
    its name and the number of labels that carry it. The printed lines are
    returned as a value. */
module Summary {
  import opened Wrappers
  import opened Files
  import opened KindDetection
  import opened PyLists
  import opened Orders
  import opened Datasets

  /** A `collections.Counter` after `update(ids)`: one count per distinct
      id. */
  function Tally(ids: seq<int>): (c: map<int, nat>)
    ensures forall x :: x in c <==> x in ids
  {
    if ids == [] then map[]
    else
      var n := |ids| - 1;
      var c := Tally(ids[..n]);
      assert forall x :: x in ids <==> x in ids[..n] || x == ids[n];
      c[ids[n] := Get(c, ids[n], 0) + 1]
  }

  /** Each id's count is its number of occurrences, and an absent id reads
      as 0, as a Counter does. */
  lemma {:induction false} TallyCounts(ids: seq<int>, x: int)
    ensures Get(Tally(ids), x, 0) == multiset(ids)[x]
  {
    if ids != [] {
      var n := |ids| - 1;
      TallyCounts(ids[..n], x);
      assert ids == ids[..n] + [ids[n]];
    }
  }

  /** The number of distinct ids is the number of ids in use. */
  lemma TallySize(records: seq<Record>)
    ensures |Tally(AllSlotIds(records))| == |ClassSet(records)|
  {
    var c := Tally(AllSlotIds(records));
    assert c.Keys == ClassSet(records);
  }

  /** One printed distribution line. */
  datatype ClassLine = ClassLine(classId: int, name: string, count: nat)

  /** What `print_summary` prints. */
  datatype Report = Report(kind: Kind, imageCount: nat, classCount: nat, maxClassId: nat, distribution: seq<ClassLine>)

  /** The distribution lines for the given ids: `labels[class_id]` (an
      IndexError for an id outside the table, a negative id counting from
      its end) and `num_class_samples[class_id]`. */
  function Distribution(ids: seq<int>, labels: seq<string>, counts: map<int, nat>): (r: Result<seq<ClassLine>>)
    ensures r.Ok? <==> forall k :: 0 <= k < |ids| ==> PyIndex(labels, ids[k]).Ok?
    ensures r.Ok? ==> |r.value| == |ids| && forall k :: 0 <= k < |ids| ==>
      r.value[k] == ClassLine(ids[k], PyIndex(labels, ids[k]).value, Get(counts, ids[k], 0))
    ensures r.Err? ==> r.error == IndexError
  {
    if ids == [] then Ok([])
    else
      var n := |ids| - 1;
      assert forall k :: 0 <= k < n ==> ids[..n][k] == ids[k];
      match Distribution(ids[..n], labels, counts)
      case Err(e) => Err(e)
      case Ok(lines) =>
        match PyIndex(labels, ids[n])
        case Err(e) => Err(e)
        case Ok(name) => Ok(lines + [ClassLine(ids[n], name, Get(counts, ids[n], 0))])
  }

  /** Once a line fails, the whole distribution fails the same way. */
  lemma {:induction false} DistributionFailsEarly(ids: seq<int>, labels: seq<string>, counts: map<int, nat>, k: nat)
    requires k <= |ids| && Distribution(ids[..k], labels, counts).Err?
    ensures Distribution(ids, labels, counts) == Distribution(ids[..k], labels, counts)
  {
    if k < |ids| {
      var n := |ids| - 1;
      assert ids[..n][..k] == ids[..k];
      DistributionFailsEarly(ids[..n], labels, counts, k);
    } else {
      assert ids[..k] == ids;
    }
  }

  /** The report once the maximum id and the label table are known: one
      line per id in use, in ascending order. */
  function Summarize(kind: Kind, records: seq<Record>, maxId: nat, labels: seq<string>): (r: Result<Report>)
    ensures r.Err? ==> r.error == IndexError
  {
    var counts := Tally(AllSlotIds(records));
    match Distribution(SortedIds(AllSlotIds(records)), labels, counts)
    case Err(e) => Err(e)
    case Ok(lines) => Ok(Report(kind, |records|, |counts|, maxId, lines))
  }

  /** `print_summary`: the counts first, then the maximum id (line 28 can
      fail), then the label table, then one line per id in use. */
  function SummarySpec(ds: Dataset, disk: Disk): (r: Result<Report>)
    ensures r.Err? ==> r.error == ValueError || r.error == AssertionError || r.error == IndexError
  {
    match MaxClassId(ds.records)
    case Err(e) => Err(e)
    case Ok(maxId) =>
      match LabelsOf(ds, disk)
      case Err(e) => Err(e)
      case Ok(labels) => Summarize(ds.kind, ds.records, maxId, labels)
  }

  /** The report counts the images and the distinct ids in use, and names
      each listed id from the table. */
  lemma SummarizeHeader(kind: Kind, records: seq<Record>, maxId: nat, labels: seq<string>)
    requires Summarize(kind, records, maxId, labels).Ok?
    ensures var rep := Summarize(kind, records, maxId, labels).value;
      && rep.kind == kind && rep.imageCount == |records| && rep.maxClassId == maxId
      && rep.classCount == |ClassSet(records)|
      && forall k :: 0 <= k < |rep.distribution| ==> rep.distribution[k].name == PyIndex(labels, rep.distribution[k].classId).value
  {
    TallySize(records);
  }

  /** The report lists every id in use exactly once, in ascending order. */
  lemma SummarizeIds(kind: Kind, records: seq<Record>, maxId: nat, labels: seq<string>)
    requires Summarize(kind, records, maxId, labels).Ok?
    ensures var lines := Summarize(kind, records, maxId, labels).value.distribution;
      && (forall k, l :: 0 <= k < l < |lines| ==> lines[k].classId < lines[l].classId)
      && forall x :: x in ClassSet(records) <==> exists k :: 0 <= k < |lines| && lines[k].classId == x
  {
    var all := AllSlotIds(records);
    var ids := SortedIds(all);
    var d := Distribution(ids, labels, Tally(all));
    assert Summarize(kind, records, maxId, labels).value.distribution == d.value;
    DistributionIds(ids, labels, Tally(all), ClassSet(records));
  }

  /** The lines of a distribution carry the given ids, in the same order. */
  lemma DistributionIds(ids: seq<int>, labels: seq<string>, counts: map<int, nat>, used: set<int>)
    requires Distribution(ids, labels, counts).Ok?
    requires IdsSorted(ids) && forall x :: x in ids <==> x in used
    ensures var lines := Distribution(ids, labels, counts).value;
      && (forall k, l :: 0 <= k < l < |lines| ==> lines[k].classId < lines[l].classId)
      && forall x :: x in used <==> exists k :: 0 <= k < |lines| && lines[k].classId == x
  {
    var lines := Distribution(ids, labels, counts).value;
    assert forall k :: 0 <= k < |lines| ==> lines[k].classId == ids[k];
    forall x | x in used
      ensures exists k :: 0 <= k < |lines| && lines[k].classId == x
    {
      var k :| 0 <= k < |ids| && ids[k] == x;
      assert lines[k].classId == x;
    }
  }

  /** Each listed count is the number of label slots that carry the id. */
  lemma SummarizeCounts(kind: Kind, records: seq<Record>, maxId: nat, labels: seq<string>)
    requires Summarize(kind, records, maxId, labels).Ok?
    ensures var lines := Summarize(kind, records, maxId, labels).value.distribution;
      forall k :: 0 <= k < |lines| ==> lines[k].count == multiset(AllSlotIds(records))[lines[k].classId]
  {
    var lines := Summarize(kind, records, maxId, labels).value.distribution;
    forall k | 0 <= k < |lines|
      ensures lines[k].count == multiset(AllSlotIds(records))[lines[k].classId]
    {
      TallyCounts(AllSlotIds(records), lines[k].classId);
    }
  }

  /** The last stage fails exactly when an id in use has no name. */
  lemma SummarizeErrors(kind: Kind, records: seq<Record>, maxId: nat, labels: seq<string>)
    ensures Summarize(kind, records, maxId, labels).Err? <==>
      exists x :: x in ClassSet(records) && PyIndex(labels, x).Err?
  {
    var ids := SortedIds(AllSlotIds(records));
    var counts := Tally(AllSlotIds(records));
    assert Summarize(kind, records, maxId, labels).Err? <==> Distribution(ids, labels, counts).Err?;
    assert forall x :: x in ids <==> x in ClassSet(records);
    if exists x :: x in ClassSet(records) && PyIndex(labels, x).Err? {
      var x :| x in ClassSet(records) && PyIndex(labels, x).Err?;
      var k :| 0 <= k < |ids| && ids[k] == x;
      assert PyIndex(labels, ids[k]).Err?;
    } else {
      forall k | 0 <= k < |ids|
        ensures PyIndex(labels, ids[k]).Ok?
      {
        assert ids[k] in ClassSet(records);
      }
    }
  }

  /** The summary fails exactly when the maximum id fails (an empty
      classification list), when the table fails, or when an id in use has
      no name in the table; otherwise it is the report described above. */
  lemma SummaryErrors(ds: Dataset, disk: Disk)
    ensures SummarySpec(ds, disk).Err? <==>
      MaxClassId(ds.records).Err? || LabelsOf(ds, disk).Err? ||
      exists x :: x in ClassSet(ds.records) && PyIndex(LabelsOf(ds, disk).value, x).Err?
    ensures SummarySpec(ds, disk).Ok? ==>
      SummarySpec(ds, disk) == Summarize(ds.kind, ds.records, MaxClassId(ds.records).value, LabelsOf(ds, disk).value)
  {
    if MaxClassId(ds.records).Ok? && LabelsOf(ds, disk).Ok? {
      SummarizeErrors(ds.kind, ds.records, MaxClassId(ds.records).value, LabelsOf(ds, disk).value);
    }
  }

  /** Adding one id to the counter is one `update` step. */
  lemma TallySnoc(s: seq<int>, ids: seq<int>, j: nat)
    requires j < |ids|
    ensures Tally(s + ids[..j + 1]) == Tally(s + ids[..j])[ids[j] := Get(Tally(s + ids[..j]), ids[j], 0) + 1]
  {
    var t := s + ids[..j + 1];
    assert t[..|t| - 1] == s + ids[..j] && t[|t| - 1] == ids[j];
  }

  /** The counting loop: `num_class_samples.update(...)` for each record's
      class-slot ids. */
  method CountClasses(records: seq<Record>) returns (counts: map<int, nat>)
    ensures counts == Tally(AllSlotIds(records))
  {
    counts := map[];
    for i := 0 to |records|
      invariant counts == Tally(AllSlotIds(records[..i]))
    {
      var ids := SlotIds(records[i].labels);
      ghost var before := AllSlotIds(records[..i]);
      assert before + ids[..0] == before;
      for j := 0 to |ids|
        invariant counts == Tally(before + ids[..j])
      {
        TallySnoc(before, ids, j);
        counts := counts[ids[j] := Get(counts, ids[j], 0) + 1];
      }
      AllSlotIdsSnoc(records, i);
      assert ids[..|ids|] == ids;
    }
    assert records[..|records|] == records;
  }

  /** The printing loop over the sorted ids in use. */
  method PrintLines(ids: seq<int>, labels: seq<string>, counts: map<int, nat>) returns (r: Result<seq<ClassLine>>)
    ensures r == Distribution(ids, labels, counts)
  {
    var lines: seq<ClassLine> := [];
    for k := 0 to |ids|
      invariant Distribution(ids[..k], labels, counts) == Ok(lines)
    {
      assert ids[..k + 1][..k] == ids[..k];
      var name := PyIndex(labels, ids[k]);
      if name.Err? {
        DistributionFailsEarly(ids, labels, counts, k + 1);
        return Err(name.error);
      }
      lines := lines + [ClassLine(ids[k], name.value, Get(counts, ids[k], 0))];
    }
    assert ids[..|ids|] == ids;
    r := Ok(lines);
  }

  /** `print_summary`: the counting loop, the maximum id, the table, and the
      printing loop over the sorted ids. */
  method PrintSummary(ds: Dataset, disk: Disk) returns (r: Result<Report>)
    ensures r == SummarySpec(ds, disk)
  {
    var counts := CountClasses(ds.records);
    var maxId := GetMaxClassId(ds.records);
    if maxId.Err? {
      return Err(maxId.error);
    }
    var labels := LabelsOf(ds, disk);
    if labels.Err? {
      return Err(labels.error);
    }
    var lines := PrintLines(SortedIds(AllSlotIds(ds.records)), labels.value, counts);
    if lines.Err? {
      return Err(lines.error);
    }
    r := Ok(Report(ds.kind, |ds.records|, |counts|, maxId.value, lines.value));
  }
}
