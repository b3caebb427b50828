/** The Visual Genome relationship reader: the decoded relationships JSON
    becomes a relationship dataset. Names are lower-cased, predicates get the
    'verb_' prefix, and the label table is the sorted object names followed
    by the sorted predicates. The JSON is taken already decoded into the
    datatypes below; its coordinates are integers. */
module VisualGenome {
  import opened Wrappers
  import opened Strings
  import opened Orders
  import opened PyLists
  import opened LabelCodecs
  import opened KindDetection
  import opened Datasets

  /** A subject or object of the JSON: its box and either a `names` list or
      a single `name`; either key may be absent. */
  datatype VgObject = VgObject(x: int, y: int, w: int, h: int, names: Option<seq<string>>, name: Option<string>)

  datatype VgRelationship = VgRelationship(subject: VgObject, obj: VgObject, verb: string)

  /** One entry of the JSON list: an image id and its relationships. */
  datatype VgEntry = VgEntry(imageId: int, relationships: seq<VgRelationship>)

  /** A box as `load_box` returns it: (name, x, y, x2, y2). */
  datatype NamedBox = NamedBox(name: string, x: int, y: int, x2: int, y2: int)

  /** An 11-tuple before id substitution: names in slots 0, 5 and 10. */
  datatype NamedRelation = NamedRelation(subject: NamedBox, obj: NamedBox, verb: string)

  /** One `(image_filename, labels)` pair before id substitution; the file
      name is kept as the image id it is formed from (see `ImageFilename`). */
  datatype NamedRecord = NamedRecord(imageId: int, labels: seq<NamedRelation>)

  // ------------------------------------------------------------- load_box

  /** `load_box`: the name is `names[0]` when `names` is present (IndexError
      when that list is empty) and `name` otherwise (KeyError when it is
      absent), lower-cased; the box becomes (x, y, x + w, y + h). */
  function LoadBox(o: VgObject): (r: Result<NamedBox>)
    ensures r.Ok? <==> if o.names.Some? then o.names.value != [] else o.name.Some?
    ensures r.Ok? ==> r.value.name == Lower(if o.names.Some? then o.names.value[0] else o.name.value)
    ensures r.Ok? ==> r.value.x == o.x && r.value.y == o.y && r.value.x2 == o.x + o.w && r.value.y2 == o.y + o.h
    ensures r.Err? ==> r.error == if o.names.Some? then IndexError else KeyError
  {
    var raw := if o.names.Some? then PyIndex(o.names.value, 0)
               else if o.name.Some? then Ok(o.name.value)
               else Err(KeyError);
    match raw
    case Err(e) => Err(e)
    case Ok(n) => Ok(NamedBox(Lower(n), o.x, o.y, o.x + o.w, o.y + o.h))
  }

  /** One relationship's tuple: the subject's box, the object's box (in
      that order, so the subject's error wins), and 'verb_' + the
      lower-cased predicate. */
  function LoadRelation(rel: VgRelationship): (r: Result<NamedRelation>)
    ensures r.Ok? <==> LoadBox(rel.subject).Ok? && LoadBox(rel.obj).Ok?
    ensures LoadBox(rel.subject).Err? ==> r == Err(LoadBox(rel.subject).error)
    ensures r.Ok? ==> r.value.subject == LoadBox(rel.subject).value && r.value.obj == LoadBox(rel.obj).value
    ensures r.Ok? ==> r.value.verb == "verb_" + Lower(rel.verb)
  {
    var s := LoadBox(rel.subject);
    var o := LoadBox(rel.obj);
    if s.Err? then Err(s.error)
    else if o.Err? then Err(o.error)
    else Ok(NamedRelation(s.value, o.value, "verb_" + Lower(rel.verb)))
  }

  // ------------------------------------------------------- entries (folds)

  /** The relationship loop of one entry: one tuple per relationship, in
      order; the first failing relationship fails the entry. */
  function EntryLabels(rels: seq<VgRelationship>): (r: Result<seq<NamedRelation>>)
    ensures r.Ok? <==> forall k :: 0 <= k < |rels| ==> LoadRelation(rels[k]).Ok?
    ensures r.Ok? ==> |r.value| == |rels| && forall k :: 0 <= k < |rels| ==> LoadRelation(rels[k]) == Ok(r.value[k])
  {
    if rels == [] then Ok([])
    else
      var n := |rels| - 1;
      var init := EntryLabels(rels[..n]);
      var last := LoadRelation(rels[n]);
      if init.Err? then
        assert forall k :: 0 <= k < n ==> rels[..n][k] == rels[k];
        Err(init.error)
      else if last.Err? then Err(last.error)
      else
        SnocLoaded(rels, LoadRelation, init.value, last.value);
        Ok(init.value + [last.value])
  }

  /** The loaded prefix followed by the last item's value are all the items' values. */
  lemma SnocLoaded<A, B>(xs: seq<A>, load: A -> Result<B>, init: seq<B>, last: B)
    requires xs != [] && |init| == |xs| - 1 && load(xs[|xs| - 1]) == Ok(last)
    requires forall k :: 0 <= k < |init| ==> load(xs[..|init|][k]) == Ok(init[k])
    ensures forall k :: 0 <= k < |xs| ==> load(xs[k]) == Ok((init + [last])[k])
  {
    forall k | 0 <= k < |init|
      ensures load(xs[k]) == Ok((init + [last])[k])
    {
      assert xs[k] == xs[..|init|][k];
    }
  }

  /** `str(image_id) + '.jpg'`. */
  function ImageFilename(imageId: int): string
  {
    IntToString(imageId) + ".jpg"
  }

  /** One entry's record: its image file name and its tuples. */
  function ConvertEntry(e: VgEntry): (r: Result<NamedRecord>)
  {
    match EntryLabels(e.relationships)
    case Err(err) => Err(err)
    case Ok(labels) => Ok(NamedRecord(e.imageId, labels))
  }

  /** The entry loop: one record per entry, in input order; the first
      failing entry fails the conversion. */
  function NamedData(entries: seq<VgEntry>): (r: Result<seq<NamedRecord>>)
    ensures r.Ok? <==> forall i :: 0 <= i < |entries| ==> ConvertEntry(entries[i]).Ok?
    ensures r.Ok? ==> |r.value| == |entries| && forall i :: 0 <= i < |entries| ==> ConvertEntry(entries[i]) == Ok(r.value[i])
  {
    if entries == [] then Ok([])
    else
      var n := |entries| - 1;
      var init := NamedData(entries[..n]);
      var last := ConvertEntry(entries[n]);
      if init.Err? then
        assert forall i :: 0 <= i < n ==> entries[..n][i] == entries[i];
        Err(init.error)
      else if last.Err? then Err(last.error)
      else
        SnocLoaded(entries, ConvertEntry, init.value, last.value);
        Ok(init.value + [last.value])
  }

  // ---------------------------------------------------------- label table

  /** The names `object_set.add` receives for a list of tuples: slot 0, then
      slot 5, tuple by tuple. */
  function RelObjects(rels: seq<NamedRelation>): (r: seq<string>)
    ensures forall x :: x in r <==> exists k :: 0 <= k < |rels| && (rels[k].subject.name == x || rels[k].obj.name == x)
  {
    if rels == [] then []
    else
      var n := |rels| - 1;
      assert forall k :: 0 <= k < n ==> rels[..n][k] == rels[k];
      RelObjects(rels[..n]) + [rels[n].subject.name, rels[n].obj.name]
  }

  /** The names `predicate_set.add` receives for a list of tuples: slot 10. */
  function RelPredicates(rels: seq<NamedRelation>): (r: seq<string>)
    ensures forall x :: x in r <==> exists k :: 0 <= k < |rels| && rels[k].verb == x
  {
    if rels == [] then []
    else
      var n := |rels| - 1;
      assert forall k :: 0 <= k < n ==> rels[..n][k] == rels[k];
      RelPredicates(rels[..n]) + [rels[n].verb]
  }

  /** The elements of `object_set` after the name loop, in the order added. */
  function ObjectNames(data: seq<NamedRecord>): (r: seq<string>)
    ensures forall x :: x in r <==> exists i :: 0 <= i < |data| && x in RelObjects(data[i].labels)
  {
    if data == [] then []
    else
      var n := |data| - 1;
      assert forall i :: 0 <= i < n ==> data[..n][i] == data[i];
      ObjectNames(data[..n]) + RelObjects(data[n].labels)
  }

  /** The elements of `predicate_set` after the name loop, in the order added. */
  function PredicateNames(data: seq<NamedRecord>): (r: seq<string>)
    ensures forall x :: x in r <==> exists i :: 0 <= i < |data| && x in RelPredicates(data[i].labels)
  {
    if data == [] then []
    else
      var n := |data| - 1;
      assert forall i :: 0 <= i < n ==> data[..n][i] == data[i];
      PredicateNames(data[..n]) + RelPredicates(data[n].labels)
  }

  /** `label_names = sorted(object_set) + sorted(predicate_set)`. */
  function LabelNames(data: seq<NamedRecord>): seq<string>
  {
    SortedNames(ObjectNames(data)) + SortedNames(PredicateNames(data))
  }

  /** The table lists, in increasing order and once each, every name found
      in slot 0 or 5 of some tuple, then in the same way every name found in
      slot 10; any name of any slot is in the table. */
  lemma {:induction false} LabelNamesSpec(data: seq<NamedRecord>)
    ensures LabelNames(data)[..|SortedNames(ObjectNames(data))|] == SortedNames(ObjectNames(data))
    ensures LabelNames(data)[|SortedNames(ObjectNames(data))|..] == SortedNames(PredicateNames(data))
    ensures NamesSorted(SortedNames(ObjectNames(data))) && NamesSorted(SortedNames(PredicateNames(data)))
    ensures forall x :: x in SortedNames(ObjectNames(data)) <==>
      exists i, k :: 0 <= i < |data| && 0 <= k < |data[i].labels| && (data[i].labels[k].subject.name == x || data[i].labels[k].obj.name == x)
    ensures forall x :: x in SortedNames(PredicateNames(data)) <==>
      exists i, k :: 0 <= i < |data| && 0 <= k < |data[i].labels| && data[i].labels[k].verb == x
    ensures forall i, k :: 0 <= i < |data| && 0 <= k < |data[i].labels| ==> Tabled(data[i].labels[k], LabelNames(data))
  {
    var objects := SortedNames(ObjectNames(data));
    var predicates := SortedNames(PredicateNames(data));
    var table := LabelNames(data);
    forall i, k | 0 <= i < |data| && 0 <= k < |data[i].labels|
      ensures Tabled(data[i].labels[k], table)
    {
      assert data[i].labels[k].subject.name in RelObjects(data[i].labels);
      assert data[i].labels[k].obj.name in RelObjects(data[i].labels);
      assert data[i].labels[k].verb in RelPredicates(data[i].labels);
      assert data[i].labels[k].subject.name in objects && data[i].labels[k].obj.name in objects;
      assert data[i].labels[k].verb in predicates;
    }
  }

  // ------------------------------------------------------- id substitution

  /** All three names of a tuple are in the table. */
  predicate Tabled(rel: NamedRelation, table: seq<string>)
  {
    rel.subject.name in table && rel.obj.name in table && rel.verb in table
  }

  /** `label_name_map[x]`: the comprehension over `enumerate(label_names)`
      keeps the last position of a name, which matters only when an object
      name is also a predicate name. */
  function LabelId(table: seq<string>, x: string): (k: nat)
    requires x in table
    ensures k < |table| && table[k] == x
    ensures forall j :: k < j < |table| ==> table[j] != x
  {
    LastIndexOf(table, x)
  }

  /** Where an id lands: a predicate name's id is in the predicate part,
      even when the name is also an object name; any other name's id is in
      the object part. */
  lemma {:induction false} LabelIdPart(data: seq<NamedRecord>, x: string)
    requires x in LabelNames(data)
    ensures x in SortedNames(PredicateNames(data)) ==> LabelId(LabelNames(data), x) >= |SortedNames(ObjectNames(data))|
    ensures x !in SortedNames(PredicateNames(data)) ==> LabelId(LabelNames(data), x) < |SortedNames(ObjectNames(data))|
  {
    var objects := SortedNames(ObjectNames(data));
    var predicates := SortedNames(PredicateNames(data));
    var table := LabelNames(data);
    if x in predicates {
      var j :| 0 <= j < |predicates| && predicates[j] == x;
      assert table[|objects| + j] == x;
    }
  }

  /** One tuple with slots 0, 5 and 10 replaced by their ids and slots 1-4
      and 6-9 copied. */
  function Substitute(rel: NamedRelation, table: seq<string>): (r: Relation)
    requires Tabled(rel, table)
    ensures 0 <= r.subject.classId < |table| && table[r.subject.classId] == rel.subject.name
    ensures 0 <= r.obj.classId < |table| && table[r.obj.classId] == rel.obj.name
    ensures 0 <= r.predicateId < |table| && table[r.predicateId] == rel.verb
    ensures r.subject.xMin == rel.subject.x && r.subject.yMin == rel.subject.y && r.subject.xMax == rel.subject.x2 && r.subject.yMax == rel.subject.y2
    ensures r.obj.xMin == rel.obj.x && r.obj.yMin == rel.obj.y && r.obj.xMax == rel.obj.x2 && r.obj.yMax == rel.obj.y2
  {
    Relation(Box(LabelId(table, rel.subject.name), rel.subject.x, rel.subject.y, rel.subject.x2, rel.subject.y2),
             Box(LabelId(table, rel.obj.name), rel.obj.x, rel.obj.y, rel.obj.x2, rel.obj.y2),
             LabelId(table, rel.verb))
  }

  /** The substitution comprehension over one record's tuples. */
  function SubstituteAll(rels: seq<NamedRelation>, table: seq<string>): (r: seq<Relation>)
    requires forall k :: 0 <= k < |rels| ==> Tabled(rels[k], table)
    ensures |r| == |rels| && forall k :: 0 <= k < |rels| ==> r[k] == Substitute(rels[k], table)
  {
    seq(|rels|, k requires 0 <= k < |rels| => Substitute(rels[k], table))
  }

  /** The substitution comprehension over the records: names kept, tuples
      substituted. */
  function Substituted(data: seq<NamedRecord>, table: seq<string>): (r: seq<Record>)
    requires forall i, k :: 0 <= i < |data| && 0 <= k < |data[i].labels| ==> Tabled(data[i].labels[k], table)
    ensures |r| == |data| && forall i :: 0 <= i < |data| ==> r[i] == Record(ImageFilename(data[i].imageId), Relations(SubstituteAll(data[i].labels, table)))
  {
    seq(|data|, i requires 0 <= i < |data| => Record(ImageFilename(data[i].imageId), Relations(SubstituteAll(data[i].labels, table))))
  }

  // ------------------------------------------------------------------ read

  /** `VisualGenomeVRReader.read`: a relationship dataset whose base
      directory is the images directory and whose label names are the table. */
  function VgRead(entries: seq<VgEntry>, imagesDirectory: string): (r: Result<Dataset>)
    ensures r.Ok? <==> forall i, k :: 0 <= i < |entries| && 0 <= k < |entries[i].relationships| ==> LoadRelation(entries[i].relationships[k]).Ok?
  {
    match NamedData(entries)
    case Err(e) => Err(e)
    case Ok(data) =>
      LabelNamesSpec(data);
      Ok(NewDataset(VisualRelationship, Substituted(data, LabelNames(data)), imagesDirectory, None, LabelNames(data)))
  }

  /** A stored record stands for an entry: it is named `{image_id}.jpg`
      and holds one tuple per relationship, each standing for that
      relationship's `load_box` boxes and 'verb_' predicate. */
  predicate StandsFor(rec: Record, e: VgEntry, table: seq<string>)
  {
    && rec.image == ImageFilename(e.imageId)
    && rec.labels.Relations?
    && |rec.labels.relations| == |e.relationships|
    && forall k :: 0 <= k < |e.relationships| ==>
         LoadRelation(e.relationships[k]).Ok? && Describes(rec.labels.relations[k], LoadRelation(e.relationships[k]).value, table)
  }

  /** A converted entry, once substituted, stands for the entry. */
  lemma {:induction false} SubstitutedStandsFor(e: VgEntry, named: NamedRecord, table: seq<string>)
    requires ConvertEntry(e) == Ok(named)
    requires forall k :: 0 <= k < |named.labels| ==> Tabled(named.labels[k], table)
    ensures StandsFor(Record(ImageFilename(named.imageId), Relations(SubstituteAll(named.labels, table))), e, table)
  {
    var rels := SubstituteAll(named.labels, table);
    assert EntryLabels(e.relationships) == Ok(named.labels);
    forall k | 0 <= k < |e.relationships|
      ensures LoadRelation(e.relationships[k]).Ok? && Describes(rels[k], LoadRelation(e.relationships[k]).value, table)
    {
      assert LoadRelation(e.relationships[k]) == Ok(named.labels[k]);
      assert rels[k] == Substitute(named.labels[k], table);
    }
  }

  /** What the reader promises: a well-kinded relationship dataset with one
      record per entry, in order, each standing for its entry through the
      table; the table is the one built from the tuples' names. */
  lemma {:induction false} VgReadSpec(entries: seq<VgEntry>, imagesDirectory: string)
    requires VgRead(entries, imagesDirectory).Ok?
    ensures VgRead(entries, imagesDirectory).value.kind == VisualRelationship
    ensures WellKinded(VgRead(entries, imagesDirectory).value)
    ensures VgRead(entries, imagesDirectory).value.labelNames == LabelNames(NamedData(entries).value)
    ensures |VgRead(entries, imagesDirectory).value.records| == |entries|
    ensures forall i :: 0 <= i < |entries| ==>
      StandsFor(VgRead(entries, imagesDirectory).value.records[i], entries[i], VgRead(entries, imagesDirectory).value.labelNames)
  {
    var data := NamedData(entries).value;
    var table := LabelNames(data);
    LabelNamesSpec(data);
    var records := Substituted(data, table);
    assert VgRead(entries, imagesDirectory).value.records == records;
    forall i | 0 <= i < |entries|
      ensures StandsFor(records[i], entries[i], table)
    {
      SubstitutedStandsFor(entries[i], data[i], table);
    }
  }

  /** A stored tuple stands for a named tuple: its ids name, through the
      table, the named tuple's names, and its coordinates are copied. */
  predicate Describes(rel: Relation, named: NamedRelation, table: seq<string>)
  {
    && 0 <= rel.subject.classId < |table| && table[rel.subject.classId] == named.subject.name
    && 0 <= rel.obj.classId < |table| && table[rel.obj.classId] == named.obj.name
    && 0 <= rel.predicateId < |table| && table[rel.predicateId] == named.verb
    && rel.subject == Box(rel.subject.classId, named.subject.x, named.subject.y, named.subject.x2, named.subject.y2)
    && rel.obj == Box(rel.obj.classId, named.obj.x, named.obj.y, named.obj.x2, named.obj.y2)
  }

  // -------------------------------------------------------------- methods

  lemma {:induction false} EntryLabelsFailsEarly(rels: seq<VgRelationship>, k: nat)
    requires k <= |rels| && EntryLabels(rels[..k]).Err?
    ensures EntryLabels(rels) == EntryLabels(rels[..k])
    decreases |rels| - k
  {
    if k < |rels| {
      assert rels[..k + 1][..k] == rels[..k];
      EntryLabelsFailsEarly(rels, k + 1);
    } else {
      assert rels[..k] == rels;
    }
  }

  /** The relationship loop of `read` for one entry. */
  method EntryLoop(rels: seq<VgRelationship>) returns (r: Result<seq<NamedRelation>>)
    ensures r == EntryLabels(rels)
  {
    var labels: seq<NamedRelation> := [];
    var k := 0;
    while k < |rels|
      invariant 0 <= k <= |rels|
      invariant EntryLabels(rels[..k]) == Ok(labels)
    {
      assert rels[..k + 1][..k] == rels[..k];
      var t := LoadRelation(rels[k]);
      if t.Err? {
        EntryLabelsFailsEarly(rels, k + 1);
        return Err(t.error);
      }
      labels := labels + [t.value];
      k := k + 1;
    }
    assert rels[..k] == rels;
    return Ok(labels);
  }

  lemma {:induction false} NamedDataFailsEarly(entries: seq<VgEntry>, i: nat)
    requires i <= |entries| && NamedData(entries[..i]).Err?
    ensures NamedData(entries) == NamedData(entries[..i])
    decreases |entries| - i
  {
    if i < |entries| {
      assert entries[..i + 1][..i] == entries[..i];
      NamedDataFailsEarly(entries, i + 1);
    } else {
      assert entries[..i] == entries;
    }
  }

  /** The conversion loop of `read`. */
  method ConvertLoop(entries: seq<VgEntry>) returns (r: Result<seq<NamedRecord>>)
    ensures r == NamedData(entries)
  {
    var data: seq<NamedRecord> := [];
    var i := 0;
    while i < |entries|
      invariant 0 <= i <= |entries|
      invariant NamedData(entries[..i]) == Ok(data)
    {
      assert entries[..i + 1][..i] == entries[..i];
      var labels := EntryLoop(entries[i].relationships);
      if labels.Err? {
        NamedDataFailsEarly(entries, i + 1);
        return Err(labels.error);
      }
      data := data + [NamedRecord(entries[i].imageId, labels.value)];
      i := i + 1;
    }
    assert entries[..i] == entries;
    return Ok(data);
  }

  /** The name loop of `read`: every tuple adds its slot-10 name to the
      predicate set and its slot-0 and slot-5 names to the object set. */
  method CollectNames(data: seq<NamedRecord>) returns (objects: seq<string>, predicates: seq<string>)
    ensures objects == ObjectNames(data) && predicates == PredicateNames(data)
  {
    objects, predicates := [], [];
    var i := 0;
    while i < |data|
      invariant 0 <= i <= |data|
      invariant objects == ObjectNames(data[..i]) && predicates == PredicateNames(data[..i])
    {
      assert data[..i + 1][..i] == data[..i];
      var rels := data[i].labels;
      var k := 0;
      while k < |rels|
        invariant 0 <= k <= |rels|
        invariant objects == ObjectNames(data[..i]) + RelObjects(rels[..k])
        invariant predicates == PredicateNames(data[..i]) + RelPredicates(rels[..k])
      {
        assert rels[..k + 1][..k] == rels[..k];
        predicates := predicates + [rels[k].verb];
        objects := objects + [rels[k].subject.name, rels[k].obj.name];
        k := k + 1;
      }
      assert rels[..k] == rels;
      i := i + 1;
    }
    assert data[..i] == data;
  }

  /** `VisualGenomeVRReader.read`: conversion, names, table, substitution. */
  method Read(entries: seq<VgEntry>, imagesDirectory: string) returns (r: Result<Dataset>)
    ensures r == VgRead(entries, imagesDirectory)
  {
    var converted := ConvertLoop(entries);
    if converted.Err? {
      return Err(converted.error);
    }
    var data := converted.value;
    var objects, predicates := CollectNames(data);
    var labelNames := SortedNames(objects) + SortedNames(predicates);
    LabelNamesSpec(data);
    return Ok(NewDataset(VisualRelationship, Substituted(data, labelNames), imagesDirectory, None, labelNames));
  }

  // ---------------------------------------------------------------- writer

  /** `VisualGenomeVRWriter.write`: exporting to Visual Genome is not
      supported. */
  function VgWrite(ds: Dataset, outputPath: string, imagesDirectory: string): (r: Result<()>)
    ensures r.Err? && r.error == NotImplementedError
  {
    Err(NotImplementedError)
  }
}
