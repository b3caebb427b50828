/** The HICO-DET reader: a decoded HICO-DET `.mat` structure becomes a
    relationship dataset whose subjects are always `person`. The `.mat`
    file is taken already decoded into the datatypes below; its coordinates
    are integers. */
module HicoDet {
  import opened Wrappers
  import opened Orders
  import opened PyLists
  import opened LabelCodecs
  import opened KindDetection
  import opened Datasets

  /** A box row of the `.mat` file: its four fields in stored order. */
  datatype MatBox = MatBox(x: int, x2: int, y: int, y2: int)

  /** One HOI annotation: a 1-based action id, the human and object boxes,
      the 1-based (human, object) connections, and the invisibility flag. */
  datatype MatAnnotation = MatAnnotation(actionId: int, humanBoxes: seq<MatBox>, objectBoxes: seq<MatBox>, connections: seq<(int, int)>, invisible: int)

  /** One image entry of a split (`bbox_train` or `bbox_test`). */
  datatype MatEntry = MatEntry(fileName: string, annotations: seq<MatAnnotation>)

  /** A `list_action` entry: the object name and the bare predicate name. */
  datatype MatAction = MatAction(objectName: string, predicateName: string)

  /** The decoded file: `list_action` and the splits by key name. */
  datatype MatFile = MatFile(actions: seq<MatAction>, splits: map<string, seq<MatEntry>>)

  /** A box as `read_box` returns it: (x, y, x2, y2). */
  datatype Corners = Corners(x: int, y: int, x2: int, y2: int)

  // ------------------------------------------------------------- read_box

  /** `read_box`: the fields are stored as (x, x2, y, y2) and returned as
      (x, y, x2, y2); a box that is empty or inverted on either axis fails
      the assertion. */
  function ReadBox(b: MatBox): (r: Result<Corners>)
    ensures r.Ok? <==> b.x < b.x2 && b.y < b.y2
    ensures r.Ok? ==> r.value.x == b.x && r.value.y == b.y && r.value.x2 == b.x2 && r.value.y2 == b.y2
    ensures r.Ok? ==> r.value.x < r.value.x2 && r.value.y < r.value.y2
    ensures r.Err? ==> r.error == AssertionError
  {
    if b.x < b.x2 && b.y < b.y2 then Ok(Corners(b.x, b.y, b.x2, b.y2)) else Err(AssertionError)
  }

  /** `[read_box(ann) for ann in boxes]`: every box is read, referenced or
      not, and the first bad one fails the list. */
  function ReadBoxes(bs: seq<MatBox>): (r: Result<seq<Corners>>)
    ensures r.Ok? <==> forall i :: 0 <= i < |bs| ==> ReadBox(bs[i]).Ok?
    ensures r.Ok? ==> |r.value| == |bs| && forall i :: 0 <= i < |bs| ==> ReadBox(bs[i]) == Ok(r.value[i])
    ensures r.Err? ==> r.error == AssertionError
  {
    if bs == [] then Ok([])
    else
      var init := ReadBoxes(bs[..|bs| - 1]);
      var last := ReadBox(bs[|bs| - 1]);
      assert forall i :: 0 <= i < |bs| - 1 ==> bs[..|bs| - 1][i] == bs[i];
      if init.Err? then Err(init.error)
      else if last.Err? then Err(last.error)
      else Ok(init.value + [last.value])
  }

  // ---------------------------------------------------------- label table

  function ObjectNames(actions: seq<MatAction>): (r: seq<string>)
    ensures |r| == |actions| && forall i :: 0 <= i < |actions| ==> r[i] == actions[i].objectName
  {
    seq(|actions|, i requires 0 <= i < |actions| => actions[i].objectName)
  }

  function VerbNames(actions: seq<MatAction>): (r: seq<string>)
    ensures |r| == |actions| && forall i :: 0 <= i < |actions| ==> r[i] == "verb_" + actions[i].predicateName
  {
    seq(|actions|, i requires 0 <= i < |actions| => "verb_" + actions[i].predicateName)
  }

  /** `sorted(object_name_set)`, where the set also holds 'person'. */
  function ObjectPart(actions: seq<MatAction>): seq<string>
  {
    SortedNames(ObjectNames(actions) + ["person"])
  }

  /** `sorted(predicate_name_set)`, the 'verb_'-prefixed predicates. */
  function VerbPart(actions: seq<MatAction>): seq<string>
  {
    SortedNames(VerbNames(actions))
  }

  /** `label_names`: the sorted objects followed by the sorted verbs. */
  function LabelNames(actions: seq<MatAction>): seq<string>
  {
    ObjectPart(actions) + VerbPart(actions)
  }

  /** The table's first part lists, in increasing order and once each,
      'person' and every action's object; the second part lists, in the same
      way, every action's 'verb_'-prefixed predicate. */
  lemma {:induction false} LabelNamesSpec(actions: seq<MatAction>)
    ensures LabelNames(actions)[..|ObjectPart(actions)|] == ObjectPart(actions)
    ensures LabelNames(actions)[|ObjectPart(actions)|..] == VerbPart(actions)
    ensures NamesSorted(ObjectPart(actions)) && NamesSorted(VerbPart(actions))
    ensures "person" in ObjectPart(actions)
    ensures forall x :: x in ObjectPart(actions) <==> x == "person" || exists a :: a in actions && a.objectName == x
    ensures forall x :: x in VerbPart(actions) <==> exists a :: a in actions && x == "verb_" + a.predicateName
  {
    var objects := ObjectNames(actions) + ["person"];
    assert objects[|actions|] == "person";
    forall x
      ensures x in objects <==> x == "person" || exists a :: a in actions && a.objectName == x
    {
      if x in objects && x != "person" {
        var i :| 0 <= i < |objects| && objects[i] == x;
        assert actions[i] in actions;
      }
      if exists a :: a in actions && a.objectName == x {
        var a :| a in actions && a.objectName == x;
        var i :| 0 <= i < |actions| && actions[i] == a;
        assert objects[i] == x;
      }
    }
    var verbs := VerbNames(actions);
    forall x
      ensures x in verbs <==> exists a :: a in actions && x == "verb_" + a.predicateName
    {
      if x in verbs {
        var i :| 0 <= i < |verbs| && verbs[i] == x;
        assert actions[i] in actions;
      }
      if exists a :: a in actions && x == "verb_" + a.predicateName {
        var a :| a in actions && x == "verb_" + a.predicateName;
        var i :| 0 <= i < |actions| && actions[i] == a;
        assert verbs[i] == x;
      }
    }
  }

  /** `(label_names.index(object), label_names.index('verb_' + predicate))`
      for action `i`. */
  function ActionId(actions: seq<MatAction>, i: nat): (p: (nat, nat))
    requires i < |actions|
    ensures p.0 < |ObjectPart(actions)| && p.1 < |LabelNames(actions)|
    ensures LabelNames(actions)[p.0] == actions[i].objectName
    ensures LabelNames(actions)[p.1] == "verb_" + actions[i].predicateName
    ensures forall j :: 0 <= j < p.0 ==> LabelNames(actions)[j] != actions[i].objectName
    ensures forall j :: 0 <= j < p.1 ==> LabelNames(actions)[j] != "verb_" + actions[i].predicateName
  {
    LabelNamesSpec(actions);
    var table := LabelNames(actions);
    var k := |ObjectPart(actions)|;
    assert actions[i] in actions;
    assert actions[i].objectName in ObjectPart(actions);
    var o :| 0 <= o < k && ObjectPart(actions)[o] == actions[i].objectName;
    assert table[o] == actions[i].objectName;
    assert "verb_" + actions[i].predicateName in VerbPart(actions);
    var v :| 0 <= v < |VerbPart(actions)| && VerbPart(actions)[v] == "verb_" + actions[i].predicateName;
    assert table[k + v] == "verb_" + actions[i].predicateName;
    (IndexOf(table, actions[i].objectName), IndexOf(table, "verb_" + actions[i].predicateName))
  }

  /** The rewritten `action_list`: one pair of table positions per action. */
  function ActionIds(actions: seq<MatAction>): (ids: seq<(nat, nat)>)
    ensures |ids| == |actions| && forall i :: 0 <= i < |actions| ==> ids[i] == ActionId(actions, i)
  {
    seq(|actions|, i requires 0 <= i < |actions| => ActionId(actions, i))
  }

  /** `label_names.index('person')`: a position in the object part. */
  function PersonId(actions: seq<MatAction>): (k: nat)
    ensures k < |ObjectPart(actions)| && LabelNames(actions)[k] == "person"
  {
    LabelNamesSpec(actions);
    var o :| 0 <= o < |ObjectPart(actions)| && ObjectPart(actions)[o] == "person";
    assert LabelNames(actions)[o] == "person";
    IndexOf(LabelNames(actions), "person")
  }

  // ------------------------------------------------------ one annotation

  /** `(person_id, *person_box, object_id, *object_box, predicate_id)`. */
  function Emit(personId: int, p: Corners, objectId: int, o: Corners, predicateId: int): Relation
  {
    Relation(Box(personId, p.x, p.y, p.x2, p.y2), Box(objectId, o.x, o.y, o.x2, o.y2), predicateId)
  }

  /** A connection whose 1-based human and object indices both resolve. */
  predicate Resolves(c: (int, int), persons: seq<Corners>, objects: seq<Corners>)
  {
    PyIndex(persons, c.0 - 1).Ok? && PyIndex(objects, c.1 - 1).Ok?
  }

  /** The connection loop: each 1-based (p, o) pair emits the person box
      `p - 1` and the object box `o - 1` (Python indexing, so 0 picks the
      last box); an index out of range raises IndexError. */
  function Connect(conns: seq<(int, int)>, persons: seq<Corners>, objects: seq<Corners>, personId: int, objectId: int, predicateId: int): (r: Result<seq<Relation>>)
    ensures r.Ok? <==> forall k :: 0 <= k < |conns| ==> Resolves(conns[k], persons, objects)
    ensures r.Ok? ==> |r.value| == |conns|
    ensures r.Ok? ==> forall k :: 0 <= k < |conns| ==>
      r.value[k] == Emit(personId, PyIndex(persons, conns[k].0 - 1).value, objectId, PyIndex(objects, conns[k].1 - 1).value, predicateId)
    ensures r.Err? ==> r.error == IndexError
  {
    if conns == [] then Ok([])
    else
      var n := |conns| - 1;
      var init := Connect(conns[..n], persons, objects, personId, objectId, predicateId);
      assert forall k :: 0 <= k < n ==> conns[..n][k] == conns[k];
      if init.Err? then Err(init.error)
      else
        var p := PyIndex(persons, conns[n].0 - 1);
        var o := PyIndex(objects, conns[n].1 - 1);
        if p.Err? then Err(p.error)
        else if o.Err? then Err(o.error)
        else Ok(init.value + [Emit(personId, p.value, objectId, o.value, predicateId)])
  }

  /** A tuple as the reader emits it: 'person' in the subject slot and the
      object and verb of one listed action in the object and predicate slots. */
  predicate FromActions(rel: Relation, ids: seq<(nat, nat)>, personId: int)
  {
    rel.subject.classId == personId && exists j :: 0 <= j < |ids| && rel.obj.classId == ids[j].0 && rel.predicateId == ids[j].1
  }

  /** One annotation's tuples: none when the invisibility flag is set;
      otherwise the action is looked up by its 1-based id, every human and
      object box is read, and the connections are emitted. */
  function AnnotationRelations(ann: MatAnnotation, ids: seq<(nat, nat)>, personId: int): (r: Result<seq<Relation>>)
    ensures ann.invisible != 0 ==> r == Ok([])
    ensures ann.invisible == 0 && PyIndex(ids, ann.actionId - 1).Err? ==> r == Err(IndexError)
    ensures r.Ok? ==> |r.value| == if ann.invisible != 0 then 0 else |ann.connections|
    ensures r.Ok? ==> forall k :: 0 <= k < |r.value| ==> FromActions(r.value[k], ids, personId)
  {
    if ann.invisible != 0 then Ok([])
    else
      var action := PyIndex(ids, ann.actionId - 1);
      if action.Err? then Err(action.error)
      else
        var persons := ReadBoxes(ann.humanBoxes);
        var objects := ReadBoxes(ann.objectBoxes);
        if persons.Err? then Err(persons.error)
        else if objects.Err? then Err(objects.error)
        else
          PyIndexMember(ids, ann.actionId - 1);
          Connect(ann.connections, persons.value, objects.value, personId, action.value.0, action.value.1)
  }

  // ------------------------------------------------------- entries (folds)

  /** The annotation loop of one entry: the tuples of each annotation in
      turn; the first failing annotation fails the entry. */
  function EntryRelations(anns: seq<MatAnnotation>, ids: seq<(nat, nat)>, personId: int): (r: Result<seq<Relation>>)
    ensures r.Ok? ==> forall k :: 0 <= k < |r.value| ==> FromActions(r.value[k], ids, personId)
  {
    if anns == [] then Ok([])
    else
      var init := EntryRelations(anns[..|anns| - 1], ids, personId);
      var last := AnnotationRelations(anns[|anns| - 1], ids, personId);
      if init.Err? then Err(init.error)
      else if last.Err? then Err(last.error)
      else Ok(init.value + last.value)
  }

  /** The entry loop: one record per entry, in order, named by the entry's
      file name, even when it has no tuples. */
  function HicoRecords(entries: seq<MatEntry>, ids: seq<(nat, nat)>, personId: int): (r: Result<seq<Record>>)
    ensures r.Ok? ==> |r.value| == |entries|
    ensures r.Ok? ==> forall i :: 0 <= i < |entries| ==>
      && r.value[i].image == entries[i].fileName
      && r.value[i].labels.Relations?
      && EntryRelations(entries[i].annotations, ids, personId) == Ok(r.value[i].labels.relations)
  {
    if entries == [] then Ok([])
    else
      var n := |entries| - 1;
      var init := HicoRecords(entries[..n], ids, personId);
      var last := EntryRelations(entries[n].annotations, ids, personId);
      assert forall i :: 0 <= i < n ==> entries[..n][i] == entries[i];
      if init.Err? then Err(init.error)
      else if last.Err? then Err(last.error)
      else Ok(init.value + [Record(entries[n].fileName, Relations(last.value))])
  }

  /** The entries convert exactly when each entry's annotations do. */
  lemma {:induction false} HicoRecordsOk(entries: seq<MatEntry>, ids: seq<(nat, nat)>, personId: int)
    ensures HicoRecords(entries, ids, personId).Ok? <==>
      forall i :: 0 <= i < |entries| ==> EntryRelations(entries[i].annotations, ids, personId).Ok?
  {
    if entries != [] {
      var n := |entries| - 1;
      HicoRecordsOk(entries[..n], ids, personId);
      forall i | 0 <= i < n
        ensures entries[..n][i] == entries[i]
      {
      }
    }
  }

  /** A failure is the failure of one entry's annotations. */
  lemma {:induction false} HicoRecordsErr(entries: seq<MatEntry>, ids: seq<(nat, nat)>, personId: int)
    requires HicoRecords(entries, ids, personId).Err?
    ensures exists i :: 0 <= i < |entries| && EntryRelations(entries[i].annotations, ids, personId) == Err(HicoRecords(entries, ids, personId).error)
  {
    var n := |entries| - 1;
    if HicoRecords(entries[..n], ids, personId).Err? {
      HicoRecordsErr(entries[..n], ids, personId);
      var i :| 0 <= i < n && EntryRelations(entries[..n][i].annotations, ids, personId) == Err(HicoRecords(entries[..n], ids, personId).error);
      assert entries[..n][i] == entries[i];
    } else {
      assert EntryRelations(entries[n].annotations, ids, personId) == Err(HicoRecords(entries, ids, personId).error);
    }
  }

  /** `HicoDetReader.read`: the split named `keyName` (a missing key raises
      KeyError) converted entry by entry into a relationship dataset whose
      base directory is the images directory and whose label names are the
      table built from `list_action`. */
  function HicoRead(mat: MatFile, imagesDirectory: string, keyName: string): (r: Result<Dataset>)
    ensures keyName !in mat.splits ==> r == Err(KeyError)
  {
    if keyName !in mat.splits then Err(KeyError)
    else
      var actions := mat.actions;
      match HicoRecords(mat.splits[keyName], ActionIds(actions), PersonId(actions))
      case Err(e) => Err(e)
      case Ok(records) => Ok(NewDataset(VisualRelationship, records, imagesDirectory, None, LabelNames(actions)))
  }

  /** A present split reads exactly when every entry's annotations convert:
      their action numbers, boxes and connections all resolve. */
  lemma HicoReadOk(mat: MatFile, imagesDirectory: string, keyName: string)
    ensures HicoRead(mat, imagesDirectory, keyName).Ok? <==>
      && keyName in mat.splits
      && forall i :: 0 <= i < |mat.splits[keyName]| ==>
           EntryRelations(mat.splits[keyName][i].annotations, ActionIds(mat.actions), PersonId(mat.actions)).Ok?
  {
    if keyName in mat.splits {
      HicoRecordsOk(mat.splits[keyName], ActionIds(mat.actions), PersonId(mat.actions));
    }
  }

  /** What the reader promises: a well-kinded relationship dataset with one
      record per entry of the split, in order and under the entry's file
      name; its table is the `list_action` table, and every tuple has
      'person' in its subject slot and the object and verb of one listed
      action in its object and predicate slots. */
  lemma {:induction false} HicoReadSpec(mat: MatFile, imagesDirectory: string, keyName: string)
    requires HicoRead(mat, imagesDirectory, keyName).Ok?
    ensures keyName in mat.splits
    ensures HicoRead(mat, imagesDirectory, keyName).value.kind == VisualRelationship
    ensures WellKinded(HicoRead(mat, imagesDirectory, keyName).value)
    ensures HicoRead(mat, imagesDirectory, keyName).value.labelNames == LabelNames(mat.actions)
    ensures |HicoRead(mat, imagesDirectory, keyName).value.records| == |mat.splits[keyName]|
    ensures forall i :: 0 <= i < |mat.splits[keyName]| ==>
      HicoRead(mat, imagesDirectory, keyName).value.records[i].image == mat.splits[keyName][i].fileName
    ensures forall i, k :: 0 <= i < |mat.splits[keyName]| && 0 <= k < |HicoRead(mat, imagesDirectory, keyName).value.records[i].labels.relations| ==>
      Named(HicoRead(mat, imagesDirectory, keyName).value.records[i].labels.relations[k], mat.actions)
  {
    var actions := mat.actions;
    var ids := ActionIds(actions);
    var personId := PersonId(actions);
    var records := HicoRecords(mat.splits[keyName], ids, personId).value;
    assert HicoRead(mat, imagesDirectory, keyName).value.records == records;
    forall i, k | 0 <= i < |records| && 0 <= k < |records[i].labels.relations|
      ensures Named(records[i].labels.relations[k], actions)
    {
      var rel := records[i].labels.relations[k];
      assert FromActions(rel, ids, personId);
      FromActionsNamed(rel, actions);
    }
  }

  /** A tuple emitted from the action ids names a listed action. */
  lemma FromActionsNamed(rel: Relation, actions: seq<MatAction>)
    requires FromActions(rel, ActionIds(actions), PersonId(actions))
    ensures Named(rel, actions)
  {
    var ids := ActionIds(actions);
    var j :| 0 <= j < |ids| && rel.obj.classId == ids[j].0 && rel.predicateId == ids[j].1;
    assert ids[j] == ActionId(actions, j);
  }

  /** A tuple names, through the table, 'person' as its subject and the
      object and verb of one listed action. */
  predicate Named(rel: Relation, actions: seq<MatAction>)
  {
    && 0 <= rel.subject.classId < |LabelNames(actions)|
    && LabelNames(actions)[rel.subject.classId] == "person"
    && exists j :: 0 <= j < |actions| && 0 <= rel.obj.classId < |LabelNames(actions)| && 0 <= rel.predicateId < |LabelNames(actions)|
                   && LabelNames(actions)[rel.obj.classId] == actions[j].objectName
                   && LabelNames(actions)[rel.predicateId] == "verb_" + actions[j].predicateName
  }

  // -------------------------------------------------------------- methods

  /** The connection loop of `read`. */
  method ConnectLoop(conns: seq<(int, int)>, persons: seq<Corners>, objects: seq<Corners>, personId: int, objectId: int, predicateId: int) returns (r: Result<seq<Relation>>)
    ensures r == Connect(conns, persons, objects, personId, objectId, predicateId)
  {
    var labels: seq<Relation> := [];
    var k := 0;
    while k < |conns|
      invariant 0 <= k <= |conns|
      invariant Connect(conns[..k], persons, objects, personId, objectId, predicateId) == Ok(labels)
    {
      assert conns[..k + 1][..k] == conns[..k];
      var p := PyIndex(persons, conns[k].0 - 1);
      var o := PyIndex(objects, conns[k].1 - 1);
      if p.Err? || o.Err? {
        assert !Resolves(conns[k], persons, objects);
        return Err(IndexError);
      }
      labels := labels + [Emit(personId, p.value, objectId, o.value, predicateId)];
      k := k + 1;
    }
    assert conns[..k] == conns;
    return Ok(labels);
  }

  lemma {:induction false} EntryRelationsFailsEarly(anns: seq<MatAnnotation>, i: nat, ids: seq<(nat, nat)>, personId: int)
    requires i <= |anns| && EntryRelations(anns[..i], ids, personId).Err?
    ensures EntryRelations(anns, ids, personId) == EntryRelations(anns[..i], ids, personId)
    decreases |anns| - i
  {
    if i < |anns| {
      assert anns[..i + 1][..i] == anns[..i];
      EntryRelationsFailsEarly(anns, i + 1, ids, personId);
    } else {
      assert anns[..i] == anns;
    }
  }

  /** The annotation loop of `read` for one entry. */
  method EntryLoop(anns: seq<MatAnnotation>, ids: seq<(nat, nat)>, personId: int) returns (r: Result<seq<Relation>>)
    ensures r == EntryRelations(anns, ids, personId)
  {
    var labels: seq<Relation> := [];
    var i := 0;
    while i < |anns|
      invariant 0 <= i <= |anns|
      invariant EntryRelations(anns[..i], ids, personId) == Ok(labels)
    {
      assert anns[..i + 1][..i] == anns[..i];
      var ann := anns[i];
      if ann.invisible == 0 {
        var action := PyIndex(ids, ann.actionId - 1);
        var persons := ReadBoxes(ann.humanBoxes);
        var objects := ReadBoxes(ann.objectBoxes);
        var emitted: Result<seq<Relation>>;
        if action.Err? {
          emitted := Err(action.error);
        } else if persons.Err? {
          emitted := Err(persons.error);
        } else if objects.Err? {
          emitted := Err(objects.error);
        } else {
          emitted := ConnectLoop(ann.connections, persons.value, objects.value, personId, action.value.0, action.value.1);
        }
        assert emitted == AnnotationRelations(ann, ids, personId);
        if emitted.Err? {
          EntryRelationsFailsEarly(anns, i + 1, ids, personId);
          return Err(emitted.error);
        }
        labels := labels + emitted.value;
      } else {
        assert labels + [] == labels;
      }
      i := i + 1;
    }
    assert anns[..i] == anns;
    return Ok(labels);
  }

  lemma {:induction false} HicoRecordsFailsEarly(entries: seq<MatEntry>, i: nat, ids: seq<(nat, nat)>, personId: int)
    requires i <= |entries| && HicoRecords(entries[..i], ids, personId).Err?
    ensures HicoRecords(entries, ids, personId) == HicoRecords(entries[..i], ids, personId)
    decreases |entries| - i
  {
    if i < |entries| {
      var next := entries[..i + 1];
      assert next[..i] == entries[..i];
      assert HicoRecords(next, ids, personId) == HicoRecords(entries[..i], ids, personId);
      HicoRecordsFailsEarly(entries, i + 1, ids, personId);
    } else {
      assert entries[..i] == entries;
    }
  }

  /** `HicoDetReader.read`: the table, the action ids and the person id,
      then the entry loop. */
  method Read(mat: MatFile, imagesDirectory: string, keyName: string) returns (r: Result<Dataset>)
    ensures r == HicoRead(mat, imagesDirectory, keyName)
  {
    var labelNames := LabelNames(mat.actions);
    var ids := ActionIds(mat.actions);
    var personId := PersonId(mat.actions);
    if keyName !in mat.splits {
      return Err(KeyError);
    }
    var entries := mat.splits[keyName];
    var data: seq<Record> := [];
    var i := 0;
    while i < |entries|
      invariant 0 <= i <= |entries|
      invariant HicoRecords(entries[..i], ids, personId) == Ok(data)
    {
      assert entries[..i + 1][..i] == entries[..i];
      var labels := EntryLoop(entries[i].annotations, ids, personId);
      if labels.Err? {
        HicoRecordsFailsEarly(entries, i + 1, ids, personId);
        return Err(labels.error);
      }
      data := data + [Record(entries[i].fileName, Relations(labels.value))];
      i := i + 1;
    }
    assert entries[..i] == entries;
    return Ok(NewDataset(VisualRelationship, data, imagesDirectory, None, labelNames));
  }

  // ---------------------------------------------------------------- writer

  /** `HicoDetWriter.write`: exporting to HICO-DET is not supported. */
  function HicoWrite(ds: Dataset, outputPath: string, imagesDirectory: string): (r: Result<()>)
    ensures r.Err? && r.error == NotImplementedError
  {
    Err(NotImplementedError)
  }
}
