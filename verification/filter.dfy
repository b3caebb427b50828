/** `filter_dataset`: only the labels of the chosen classes are kept, and
    the images left without a label are dropped. The classes are the ones
    listed to include, or else every id from 0 to the maximum id that is
    not listed to exclude. */
module FilterClasses {
  import opened Wrappers
  import opened LabelCodecs
  import opened PyLists
  import opened Orders
  import opened KindDetection
  import opened Datasets

  /** `set(include_class_ids or [i for i in range(max_class_id + 1) if i not
      in exclude_class_ids])`: an empty include list counts as absent. */
  function IncludeSet(includeIds: seq<int>, excludeIds: seq<int>, maxId: nat): (r: set<int>)
    ensures includeIds != [] ==> forall x :: x in r <==> x in includeIds
    ensures includeIds == [] ==> forall x :: x in r <==> 0 <= x <= maxId && x !in excludeIds
  {
    if includeIds != [] then set x | x in includeIds
    else set x | x in Iota(maxId + 1) && x !in excludeIds
  }

  /** The labels of one record whose class is chosen, in their order:
      `[i for i in labels if i in includeIds]` for classification and
      `[x for x in labels if x[0] in includeIds]` for detection. */
  function KeepLabels(labels: Labels, includeIds: set<int>): (r: Labels)
    requires !labels.Relations?
    ensures !r.Relations? && (labels.ClassIds? <==> r.ClassIds?)
    ensures forall x :: x in SlotIds(r) <==> x in SlotIds(labels) && x in includeIds
    ensures |SlotIds(r)| == Size(r) && Size(r) <= Size(labels)
  {
    match labels
    case ClassIds(ids) =>
      var r := Filter(ids, x => x in includeIds);
      forall x
        ensures x in r <==> x in ids && x in includeIds
      {
        FilterMembers(ids, x => x in includeIds, x);
      }
      ClassIds(r)
    case Boxes(boxes) =>
      var keep := (b: Box) => b.classId in includeIds;
      var r := Filter(boxes, keep);
      forall x
        ensures x in BoxIds(r) <==> x in BoxIds(boxes) && x in includeIds
      {
        if x in BoxIds(r) {
          var i :| 0 <= i < |r| && BoxIds(r)[i] == x;
          FilterMembers(boxes, keep, r[i]);
          var j :| 0 <= j < |boxes| && boxes[j] == r[i];
          assert BoxIds(boxes)[j] == x;
        }
        if x in BoxIds(boxes) && x in includeIds {
          var j :| 0 <= j < |boxes| && BoxIds(boxes)[j] == x;
          FilterMembers(boxes, keep, boxes[j]);
          var i :| 0 <= i < |r| && r[i] == boxes[j];
          assert BoxIds(r)[i] == x;
        }
      }
      Boxes(r)
  }

  /** A list `if d[1]` keeps: one holding at least one label. */
  predicate HasLabels(r: Record)
  {
    Size(r.labels) > 0
  }

  /** `[(image, kept labels) for image, labels in dataset]`. */
  function Narrowed(records: seq<Record>, includeIds: set<int>): (r: seq<Record>)
    requires forall i :: 0 <= i < |records| ==> !records[i].labels.Relations?
    ensures |r| == |records|
    ensures forall i :: 0 <= i < |r| ==> r[i] == Record(records[i].image, KeepLabels(records[i].labels, includeIds))
  {
    seq(|records|, i requires 0 <= i < |records| => Record(records[i].image, KeepLabels(records[i].labels, includeIds)))
  }

  /** The records left: narrowed, then `[d for d in data if d[1]]`. */
  function KeptRecords(records: seq<Record>, includeIds: set<int>): (r: seq<Record>)
    requires forall i :: 0 <= i < |records| ==> !records[i].labels.Relations?
    ensures |r| <= |records| && forall i :: 0 <= i < |r| ==> HasLabels(r[i])
  {
    Filter(Narrowed(records, includeIds), HasLabels)
  }

  /** The ids in use after filtering are the ids in use before that are
      chosen. */
  lemma KeptClassSet(records: seq<Record>, includeIds: set<int>, x: int)
    requires forall i :: 0 <= i < |records| ==> !records[i].labels.Relations?
    ensures x in ClassSet(KeptRecords(records, includeIds)) <==> x in ClassSet(records) && x in includeIds
  {
    var narrowed := Narrowed(records, includeIds);
    var kept := KeptRecords(records, includeIds);
    ClassSetMembers(kept, x);
    ClassSetMembers(records, x);
    if x in ClassSet(kept) {
      var i :| 0 <= i < |kept| && x in SlotIds(kept[i].labels);
      FilterMembers(narrowed, HasLabels, kept[i]);
      var j :| 0 <= j < |narrowed| && narrowed[j] == kept[i];
      assert x in SlotIds(records[j].labels);
    }
    if x in ClassSet(records) && x in includeIds {
      var j :| 0 <= j < |records| && x in SlotIds(records[j].labels);
      assert x in SlotIds(narrowed[j].labels);
      FilterMembers(narrowed, HasLabels, narrowed[j]);
      var i :| 0 <= i < |kept| && kept[i] == narrowed[j];
    }
  }

  /** A narrowed list holds a label exactly when some label of the
      original list has a chosen class. */
  lemma KeepLabelsNonEmpty(labels: Labels, includeIds: set<int>)
    requires !labels.Relations?
    ensures Size(KeepLabels(labels, includeIds)) > 0 <==> exists x :: x in SlotIds(labels) && x in includeIds
  {
    var ids := SlotIds(KeepLabels(labels, includeIds));
    if |ids| > 0 {
      assert ids[0] in ids;
    }
    if exists x :: x in SlotIds(labels) && x in includeIds {
      var x :| x in SlotIds(labels) && x in includeIds;
      assert x in ids;
    }
  }

  /** An image stays exactly when it has a label of a chosen class, with
      exactly its labels of chosen classes. */
  lemma KeptImage(records: seq<Record>, includeIds: set<int>, j: nat)
    requires forall i :: 0 <= i < |records| ==> !records[i].labels.Relations?
    requires j < |records|
    ensures Record(records[j].image, KeepLabels(records[j].labels, includeIds)) in KeptRecords(records, includeIds)
      <==> exists x :: x in SlotIds(records[j].labels) && x in includeIds
  {
    var narrowed := Narrowed(records, includeIds);
    var r := narrowed[j];
    assert r == Record(records[j].image, KeepLabels(records[j].labels, includeIds));
    FilterMembers(narrowed, HasLabels, r);
    KeepLabelsNonEmpty(records[j].labels, includeIds);
  }

  /** `filter_dataset` up to the writer call. The new dataset gets no label
      names, so its table is derived again from its own ids. */
  function FilterSpec(ds: Dataset, includeIds: seq<int>, excludeIds: seq<int>): (r: Result<Dataset>)
    requires WellKinded(ds)
    ensures MaxClassId(ds.records).Err? ==> r == Err(ValueError)
    ensures MaxClassId(ds.records).Ok? ==> (r.Err? <==> ds.kind == VisualRelationship)
    ensures r.Err? ==> r.error == ValueError || r.error == RuntimeError
    ensures r.Ok? ==> r.value.kind == ds.kind && WellKinded(r.value) && r.value.labelNames == []
  {
    match MaxClassId(ds.records)
    case Err(e) => Err(e)
    case Ok(maxId) =>
      if ds.kind == VisualRelationship then Err(RuntimeError)
      else
        var includeSet := IncludeSet(includeIds, excludeIds, maxId);
        KeptRecordsFit(ds.kind, ds.records, includeSet);
        var kept := KeptRecords(ds.records, includeSet);
        var r := NewDataset(ds.kind, kept, ds.directory, None, []);
        assert WellKinded(r);
        Ok(r)
  }

  /** The records kept still fit the dataset's kind. */
  lemma KeptRecordsFit(kind: Kind, records: seq<Record>, includeIds: set<int>)
    requires kind != VisualRelationship && forall i :: 0 <= i < |records| ==> Fits(kind, records[i].labels)
    ensures forall i :: 0 <= i < |records| ==> !records[i].labels.Relations?
    ensures forall i :: 0 <= i < |KeptRecords(records, includeIds)| ==> Fits(kind, KeptRecords(records, includeIds)[i].labels)
  {
    var kept := KeptRecords(records, includeIds);
    forall i | 0 <= i < |kept|
      ensures Fits(kind, kept[i].labels)
    {
      var narrowed := Narrowed(records, includeIds);
      assert kept[i] in kept;
      FilterMembers(narrowed, HasLabels, kept[i]);
      var j :| 0 <= j < |narrowed| && narrowed[j] == kept[i];
    }
  }

  /** With classes listed to include, the ids left are those in use that
      are listed; without, those in use that are not negative and not
      listed to exclude. */
  lemma FilterClassSet(ds: Dataset, includeIds: seq<int>, excludeIds: seq<int>, x: int)
    requires WellKinded(ds) && FilterSpec(ds, includeIds, excludeIds).Ok?
    ensures includeIds != [] ==> (x in ClassSet(FilterSpec(ds, includeIds, excludeIds).value.records) <==> x in ClassSet(ds.records) && x in includeIds)
    ensures includeIds == [] ==> (x in ClassSet(FilterSpec(ds, includeIds, excludeIds).value.records) <==> x in ClassSet(ds.records) && 0 <= x && x !in excludeIds)
  {
    var maxId := MaxClassId(ds.records).value;
    MaxClassIdSpec(ds.records);
    KeptClassSet(ds.records, IncludeSet(includeIds, excludeIds, maxId), x);
  }
}
