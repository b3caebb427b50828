/** `map_dataset`: class ids are rewritten through a list of (source,
    destination) pairs; ids no pair names are kept. */
module MapClasses {
  import opened Wrappers
  import opened Strings
  import opened KindDetection
  import opened Datasets

  /** A dict built pair by pair from parsed entries: the first entry that
      does not parse stops it, and a later entry with the same key
      overrides an earlier one. */
  function DictOf<P>(entries: seq<P>, parse: P -> Result<(int, int)>): (r: Result<map<int, int>>)
    ensures r.Ok? <==> forall i :: 0 <= i < |entries| ==> parse(entries[i]).Ok?
    ensures r.Err? ==> exists i :: 0 <= i < |entries| && parse(entries[i]) == Err(r.error)
    ensures r.Ok? ==> forall x :: x in r.value <==> exists i :: 0 <= i < |entries| && parse(entries[i]).value.0 == x
  {
    if entries == [] then Ok(map[])
    else
      var n := |entries| - 1;
      assert forall i :: 0 <= i < n ==> entries[..n][i] == entries[i];
      match DictOf(entries[..n], parse)
      case Err(e) => Err(e)
      case Ok(m) =>
        match parse(entries[n])
        case Err(e) => Err(e)
        case Ok(p) => Ok(m[p.0 := p.1])
  }

  /** The last entry with a key decides its value. */
  lemma {:induction false} DictOfLastWins<P>(entries: seq<P>, parse: P -> Result<(int, int)>, i: nat)
    requires DictOf(entries, parse).Ok? && i < |entries|
    requires forall j :: i < j < |entries| ==> parse(entries[j]).value.0 != parse(entries[i]).value.0
    ensures parse(entries[i]).value.0 in DictOf(entries, parse).value
    ensures DictOf(entries, parse).value[parse(entries[i]).value.0] == parse(entries[i]).value.1
  {
    var n := |entries| - 1;
    var init := entries[..n];
    assert DictOf(entries, parse).Ok? ==> DictOf(init, parse).Ok?;
    var m := DictOf(init, parse).value;
    var p := parse(entries[n]).value;
    assert DictOf(entries, parse).value == m[p.0 := p.1];
    if i < n {
      assert init[i] == entries[i];
      assert forall j :: i < j < n ==> init[j] == entries[j];
      DictOfLastWins(init, parse, i);
    }
  }

  /** `(int(src), int(dst))`: the source is converted first. */
  function ParsePair(pair: (string, string)): (r: Result<(int, int)>)
    ensures r.Ok? <==> ParseInt(pair.0).Ok? && ParseInt(pair.1).Ok?
    ensures r.Ok? ==> r.value == (ParseInt(pair.0).value, ParseInt(pair.1).value)
    ensures r.Err? ==> r.error == ValueError
  {
    match ParseInt(pair.0)
    case Err(e) => Err(e)
    case Ok(src) =>
      match ParseInt(pair.1)
      case Err(e) => Err(e)
      case Ok(dst) => Ok((src, dst))
  }

  /** `{int(src): int(dst) for src, dst in mappings_list}`. */
  function MappingOf(pairs: seq<(string, string)>): (r: Result<map<int, int>>)
    ensures r.Ok? <==> forall i :: 0 <= i < |pairs| ==> ParsePair(pairs[i]).Ok?
    ensures r.Err? ==> r.error == ValueError
  {
    DictOf(pairs, ParsePair)
  }

  /** Every source of the list is mapped, to the destination of the last
      pair that names it; nothing else is mapped. */
  lemma MappingSources(pairs: seq<(string, string)>, i: nat, x: int)
    requires MappingOf(pairs).Ok? && i < |pairs|
    ensures x in MappingOf(pairs).value <==> exists j :: 0 <= j < |pairs| && ParsePair(pairs[j]).value.0 == x
    ensures (forall j :: i < j < |pairs| ==> ParsePair(pairs[j]).value.0 != ParsePair(pairs[i]).value.0) ==>
      MappingOf(pairs).value[ParsePair(pairs[i]).value.0] == ParsePair(pairs[i]).value.1
  {
    if forall j :: i < j < |pairs| ==> ParsePair(pairs[j]).value.0 != ParsePair(pairs[i]).value.0 {
      DictOfLastWins(pairs, ParsePair, i);
    }
  }

  /** `map_dataset` up to the writer call. Only classification and
      detection datasets can be mapped; the new dataset gets no label
      names. */
  function MapSpec(ds: Dataset, pairs: seq<(string, string)>): (r: Result<Dataset>)
    ensures MappingOf(pairs).Err? ==> r == Err(ValueError)
    ensures MappingOf(pairs).Ok? ==> (r.Err? <==> ds.kind == VisualRelationship)
    ensures r.Err? ==> r.error == ValueError || r.error == RuntimeError
    ensures r.Ok? ==> r.value.kind == ds.kind && |r.value.records| == |ds.records| && r.value.labelNames == []
    ensures r.Ok? ==> r.value.records == RelabelAll(ds.records, Renumber(MappingOf(pairs).value))
  {
    match MappingOf(pairs)
    case Err(e) => Err(e)
    case Ok(m) =>
      if ds.kind == VisualRelationship then Err(RuntimeError)
      else Ok(NewDataset(ds.kind, RelabelAll(ds.records, Renumber(m)), ds.directory, None, []))
  }

  /** Mapping keeps every image, the number of its labels and everything
      but their class ids, and the kind of every label list. */
  lemma MapKeepsShape(ds: Dataset, pairs: seq<(string, string)>, i: nat)
    requires MapSpec(ds, pairs).Ok? && i < |ds.records|
    ensures var rec := MapSpec(ds, pairs).value.records[i];
      && rec.image == ds.records[i].image
      && Anonymous(rec.labels) == Anonymous(ds.records[i].labels)
      && Size(rec.labels) == Size(ds.records[i].labels)
      && (Fits(ds.kind, rec.labels) <==> Fits(ds.kind, ds.records[i].labels))
  {
  }

  /** The ids in use after mapping: each id in use before, sent where the
      mapping sends it, or left as it is. */
  lemma MapClassSet(ds: Dataset, pairs: seq<(string, string)>, x: int)
    requires MapSpec(ds, pairs).Ok?
    ensures var m := MappingOf(pairs).value;
      x in ClassSet(MapSpec(ds, pairs).value.records) <==>
      exists y :: y in ClassSet(ds.records) && x == (if y in m then m[y] else y)
  {
    var f := Renumber(MappingOf(pairs).value);
    RelabelAllClassSet(ds.records, f, x);
  }

  /** An empty mapping list changes no record. */
  lemma MapNothing(ds: Dataset)
    requires ds.kind != VisualRelationship
    ensures MapSpec(ds, []) == Ok(NewDataset(ds.kind, ds.records, ds.directory, None, []))
  {
    var f := Renumber(map[]);
    forall i | 0 <= i < |ds.records|
      ensures Relabel(ds.records[i].labels, f) == ds.records[i].labels
    {
      RelabelFixes(ds.records[i].labels, f);
    }
    assert RelabelAll(ds.records, f) == ds.records;
  }
}
