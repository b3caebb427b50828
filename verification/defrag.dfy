/** `defrag`: the class ids in use are renumbered 0, 1, 2, ... in
    ascending order, and the label table is cut down to the names of the
    ids in use, in the same order. */
module Defrag {
  import opened Wrappers
  import opened LabelCodecs
  import opened PyLists
  import opened Orders
  import opened Files
  import opened Datasets

  // ------------------------------------------------------------ used ids

  /** `sorted(list(used_labels))`: the ids in use, ascending, each once. */
  function UsedIds(records: seq<Record>): (used: seq<int>)
    ensures IdsSorted(used) && forall x :: x in used <==> x in ClassSet(records)
  {
    SortedIds(AllSlotIds(records))
  }

  /** Adding one id to the sorted set is inserting it. */
  lemma SortedIdsSnoc(s: seq<int>, ids: seq<int>, j: nat)
    requires j < |ids|
    ensures SortedIds(s + ids[..j + 1]) == InsertId(ids[j], SortedIds(s + ids[..j]))
  {
    var t := s + ids[..j + 1];
    assert t[..|t| - 1] == s + ids[..j] && t[|t| - 1] == ids[j];
  }

  /** The `used_labels` loop: one `update` per record with the ids in its
      class slots. The set is kept as an ascending list without repeats,
      so that sorting it afterwards gives it back unchanged. */
  method UsedLabels(records: seq<Record>) returns (used: seq<int>)
    ensures used == UsedIds(records)
  {
    used := [];
    for i := 0 to |records|
      invariant used == SortedIds(AllSlotIds(records[..i]))
    {
      var ids := SlotIds(records[i].labels);
      ghost var before := AllSlotIds(records[..i]);
      assert before + ids[..0] == before;
      for j := 0 to |ids|
        invariant used == SortedIds(before + ids[..j])
      {
        SortedIdsSnoc(before, ids, j);
        used := InsertId(ids[j], used);
      }
      AllSlotIdsSnoc(records, i);
      assert ids[..|ids|] == ids;
    }
    assert records[..|records|] == records;
  }

  // ------------------------------------------------------------- mapping

  /** `{i: n for n, i in enumerate(ids)}`: a later position of the same id
      overwrites an earlier one. */
  function DenseMap(ids: seq<int>): (m: map<int, int>)
    ensures forall x :: x in m <==> x in ids
    ensures forall x :: x in m ==> 0 <= m[x] < |ids| && ids[m[x]] == x
  {
    if ids == [] then map[]
    else
      var n := |ids| - 1;
      var m := DenseMap(ids[..n]);
      assert forall x :: x in ids <==> x in ids[..n] || x == ids[n];
      m[ids[n] := n]
  }

  /** Positions in an ascending list are ordered as the ids they hold. */
  lemma SortedPositions(ids: seq<int>, i: nat, j: nat)
    requires IdsSorted(ids) && i < |ids| && j < |ids|
    ensures ids[i] < ids[j] ==> i < j
    ensures ids[i] == ids[j] ==> i == j
  {
  }

  /** Over an ascending list, the k-th id maps to k; so the map keeps the
      order of the ids and reaches every position. */
  lemma DenseMapSorted(ids: seq<int>)
    requires IdsSorted(ids)
    ensures forall k :: 0 <= k < |ids| ==> ids[k] in DenseMap(ids) && DenseMap(ids)[ids[k]] == k
    ensures forall x, y :: x in DenseMap(ids) && y in DenseMap(ids) && x < y ==> DenseMap(ids)[x] < DenseMap(ids)[y]
  {
    var m := DenseMap(ids);
    forall k | 0 <= k < |ids|
      ensures ids[k] in m && m[ids[k]] == k
    {
      assert ids[k] in ids;
      SortedPositions(ids, m[ids[k]], k);
    }
    forall x, y | x in m && y in m && x < y
      ensures m[x] < m[y]
    {
      SortedPositions(ids, m[x], m[y]);
    }
  }

  // --------------------------------------------------------------- names

  /** `[labels[used[k]] for k in range(len(used))]`, an IndexError at the
      first id outside the table (a negative id counts from its end). */
  function NamesOf(used: seq<int>, labels: seq<string>): (r: Result<seq<string>>)
    ensures r.Ok? <==> forall k :: 0 <= k < |used| ==> PyIndex(labels, used[k]).Ok?
    ensures r.Ok? ==> |r.value| == |used| && forall k :: 0 <= k < |used| ==> r.value[k] == PyIndex(labels, used[k]).value
    ensures r.Err? ==> r.error == IndexError
  {
    if used == [] then Ok([])
    else
      var n := |used| - 1;
      assert forall k :: 0 <= k < n ==> used[..n][k] == used[k];
      match NamesOf(used[..n], labels)
      case Err(e) => Err(e)
      case Ok(names) =>
        match PyIndex(labels, used[n])
        case Err(e) => Err(e)
        case Ok(name) => Ok(names + [name])
  }

  /** The new label table. The plan printout and the comprehension both
      read `dataset.labels[i]` for each used id, so without ids in use the
      table is not read at all. */
  function NewLabelNames(ds: Dataset, disk: Disk, used: seq<int>): (r: Result<seq<string>>)
    ensures used == [] ==> r == Ok([])
  {
    if used == [] then Ok([])
    else
      match LabelsOf(ds, disk)
      case Err(e) => Err(e)
      case Ok(labels) => NamesOf(used, labels)
  }

  // ---------------------------------------------------------------- defrag

  /** The records with every id in use renumbered by its rank. */
  function Defragged(records: seq<Record>): (r: seq<Record>)
    ensures |r| == |records|
    ensures forall i :: 0 <= i < |records| ==>
      r[i].image == records[i].image && Anonymous(r[i].labels) == Anonymous(records[i].labels)
  {
    RelabelAll(records, Renumber(DenseMap(UsedIds(records))))
  }

  /** `defrag` up to the writer call: the relabelled records and the cut
      table. The relationship branch is the corrected one (see
      `RelationAsWritten`). */
  function DefragSpec(ds: Dataset, disk: Disk): (r: Result<Dataset>)
    ensures r.Ok? ==> r.value.kind == ds.kind && r.value.records == Defragged(ds.records)
    ensures r.Ok? ==> r.value.directory == ds.directory && r.value.imagesDirectory == ds.directory
  {
    var used := UsedIds(ds.records);
    match NewLabelNames(ds, disk, used)
    case Err(e) => Err(e)
    case Ok(names) => Ok(NewDataset(ds.kind, Defragged(ds.records), ds.directory, None, names))
  }

  /** There are as many ids in use as positions in the used list. */
  lemma UsedIdsCount(records: seq<Record>)
    ensures |UsedIds(records)| == |ClassSet(records)|
  {
    var used := UsedIds(records);
    IdsSortedCard(used);
    assert (set y | y in used) == ClassSet(records);
  }

  /** The new table has one name per id in use. */
  lemma DefragTableSize(ds: Dataset, disk: Disk)
    requires DefragSpec(ds, disk).Ok?
    ensures |DefragSpec(ds, disk).value.labelNames| == |ClassSet(ds.records)|
  {
    UsedIdsCount(ds.records);
  }

  /** `defrag` fails only where the table is read: when ids are in use and
      the table cannot be produced, or some id in use falls outside it. */
  lemma DefragErrors(ds: Dataset, disk: Disk)
    ensures ClassSet(ds.records) == {} ==> DefragSpec(ds, disk).Ok?
    ensures ClassSet(ds.records) != {} ==>
      (DefragSpec(ds, disk).Err? <==>
        LabelsOf(ds, disk).Err? || exists x :: x in ClassSet(ds.records) && PyIndex(LabelsOf(ds, disk).value, x).Err?)
  {
    var used := UsedIds(ds.records);
    assert DefragSpec(ds, disk).Err? <==> NewLabelNames(ds, disk, used).Err?;
    if ClassSet(ds.records) == {} {
      assert used == [] by {
        HeadIsElement(used);
      }
    } else {
      assert used != [] by {
        var x :| x in ClassSet(ds.records);
        assert x in used;
      }
      if LabelsOf(ds, disk).Ok? {
        var labels := LabelsOf(ds, disk).value;
        assert NewLabelNames(ds, disk, used) == NamesOf(used, labels);
        if exists x :: x in ClassSet(ds.records) && PyIndex(labels, x).Err? {
          var y :| y in ClassSet(ds.records) && PyIndex(labels, y).Err?;
          var k :| 0 <= k < |used| && used[k] == y;
          assert PyIndex(labels, used[k]).Err?;
        } else {
          forall k | 0 <= k < |used|
            ensures PyIndex(labels, used[k]).Ok?
          {
            assert used[k] in ClassSet(ds.records);
          }
        }
      }
    }
  }

  /** After `defrag` the ids in use are exactly 0 .. n-1, n being the number
      of ids in use before. */
  lemma {:induction false} DefragDense(records: seq<Record>)
    ensures forall x :: x in ClassSet(Defragged(records)) <==> 0 <= x < |ClassSet(records)|
  {
    var used := UsedIds(records);
    var m := DenseMap(used);
    UsedIdsCount(records);
    DenseMapSorted(used);
    forall x
      ensures x in ClassSet(Defragged(records)) <==> 0 <= x < |used|
    {
      RelabelAllClassSet(records, Renumber(m), x);
      if 0 <= x < |used| {
        assert used[x] in ClassSet(records) && Renumber(m)(used[x]) == x;
      }
    }
  }

  /** `defrag` keeps the order of the ids, and each new id's name is the
      name the table gave the old id. */
  lemma {:induction false} DefragNamesFollow(ds: Dataset, disk: Disk, x: int, y: int)
    requires DefragSpec(ds, disk).Ok? && x in ClassSet(ds.records) && y in ClassSet(ds.records)
    ensures var f := Renumber(DenseMap(UsedIds(ds.records)));
      && LabelsOf(ds, disk).Ok?
      && 0 <= f(x) < |DefragSpec(ds, disk).value.labelNames|
      && DefragSpec(ds, disk).value.labelNames[f(x)] == PyIndex(LabelsOf(ds, disk).value, x).value
      && (x < y ==> f(x) < f(y))
  {
    var used := UsedIds(ds.records);
    DenseMapSorted(used);
    assert x in used;
    var k :| 0 <= k < |used| && used[k] == x;
  }

  /** After `defrag` the ids in use, in order, are 0, 1, ..., n-1. */
  lemma UsedIdsOfDefragged(records: seq<Record>)
    ensures UsedIds(Defragged(records)) == Iota(|ClassSet(records)|)
  {
    DefragDense(records);
    IdsSortedUnique(UsedIds(Defragged(records)), Iota(|ClassSet(records)|));
  }

  /** `defrag` changes nothing in the records of a dataset it has already
      defragmented. */
  lemma {:induction false} DefragTwice(records: seq<Record>)
    ensures Defragged(Defragged(records)) == Defragged(records)
  {
    var once := Defragged(records);
    var n := |ClassSet(records)|;
    UsedIdsOfDefragged(records);
    var m := DenseMap(Iota(n));
    DenseMapSorted(Iota(n));
    forall i | 0 <= i < |once|
      ensures RelabelAll(once, Renumber(m))[i] == once[i]
    {
      forall x | x in SlotIds(once[i].labels)
        ensures Renumber(m)(x) == x
      {
        ClassSetMembers(once, x);
        DefragDense(records);
        assert Iota(n)[x] == x;
      }
      RelabelFixes(once[i].labels, Renumber(m));
    }
  }

  /** `defrag` up to the writer call: the used-id loop, then the mapping,
      the new table and the relabelled records. */
  method DefragDataset(ds: Dataset, disk: Disk) returns (r: Result<Dataset>)
    ensures r == DefragSpec(ds, disk)
  {
    var used := UsedLabels(ds.records);
    var mapping := DenseMap(used);
    var names := NewLabelNames(ds, disk, used);
    if names.Err? {
      return Err(names.error);
    }
    r := Ok(NewDataset(ds.kind, RelabelAll(ds.records, Renumber(mapping)), ds.directory, None, names.value));
  }

  // ------------------------------------------ the relationship branch as written

  /** The relationship branch as written builds
      `(m(x[0]), *x[1:5], m(x[5]), *x[5:10], m(x[10]))`: since `x[5:10]`
      starts at slot 5, the object's old id is copied in after its new one
      and the tuple has twelve slots. */
  function RelationAsWritten(rel: Relation, f: int -> int): (t: seq<int>)
    ensures |t| == 12
  {
    var x := RelationInts(rel);
    [f(x[0])] + x[1..5] + [f(x[5])] + x[5..10] + [f(x[10])]
  }

  /** The written tuple is not a relationship: it is one slot too long, its
      slot 6 holds the object's old id, and the slots after the object's new
      id are shifted one place from where the corrected relabelling puts
      them. */
  lemma RelationAsWrittenMisaligned(rel: Relation, f: int -> int)
    ensures |RelationAsWritten(rel, f)| == |RelationInts(RelabelRelation(rel, f))| + 1
    ensures RelationAsWritten(rel, f)[6] == rel.obj.classId
    ensures RelationAsWritten(rel, f)[..6] == RelationInts(RelabelRelation(rel, f))[..6]
    ensures RelationAsWritten(rel, f)[7..] == RelationInts(RelabelRelation(rel, f))[6..]
  {
  }

  /** A relationship whose object id moves: as written, slot 6 keeps 7
      where the corrected tuple has the object's x_min, 0. */
  lemma RelationAsWrittenExample()
    ensures var rel := Relation(Box(3, 0, 0, 1, 1), Box(7, 0, 0, 2, 2), 5);
      var f := Renumber(DenseMap([3, 5, 7]));
      RelationAsWritten(rel, f) == [0, 0, 0, 1, 1, 2, 7, 0, 0, 2, 2, 1]
      && RelationInts(RelabelRelation(rel, f)) == [0, 0, 0, 1, 1, 2, 0, 0, 2, 2, 1]
  {
    var m := DenseMap([3, 5, 7]);
    assert [3, 5, 7][..2] == [3, 5] && [3, 5][..1] == [3];
    assert m == map[3 := 0, 5 := 1, 7 := 2];
  }
}
