/** The two dictionaries `concat_datasets` fills while it visits the
    records, and `_dedup_images`, which merges the entries whose images hash
    alike. A Python dict is modelled as its keys in insertion order beside a
    map. `annotations` and `image_md5s` receive a key at the same moment, so
    their key orders coincide and one key sequence serves both. A label list
    is kept as the list of the per-record lists `extend` appended to it, so
    the model is generic in what a per-record list is. */
module ImageGrouping {
  import opened LabelCodecs

  /** An insertion-ordered dict from paths to lists of chunks. */
  datatype Table<V> = Table(keys: seq<string>, values: map<string, seq<V>>)
  {
    ghost predicate Valid()
    {
      Distinct(keys) && forall p :: p in values <==> p in keys
    }
  }

  /** One visited record: its new path, its shifted labels and the hash of
      its image. */
  datatype Visit<V> = Visit(path: string, chunk: V, hash: string)

  /** `annotations` and `image_md5s`. */
  datatype Grouping<V> = Grouping(annotations: Table<V>, hashes: map<string, string>)

  // ------------------------------------------------------------- grouping

  /** `annotations[new_path].extend(new_labels)`, then the hash of the
      image when the path is new. */
  function AddVisit<V>(g: Grouping<V>, v: Visit<V>): Grouping<V>
  {
    var t := g.annotations;
    if v.path in t.values then Grouping(Table(t.keys, t.values[v.path := t.values[v.path] + [v.chunk]]), g.hashes)
    else Grouping(Table(t.keys + [v.path], t.values[v.path := [v.chunk]]), g.hashes[v.path := v.hash])
  }

  /** Some visit has path `p`. */
  predicate Seen<V>(visits: seq<Visit<V>>, p: string)
  {
    exists i :: 0 <= i < |visits| && visits[i].path == p
  }

  lemma SeenSnoc<V>(visits: seq<Visit<V>>, p: string)
    requires visits != []
    ensures Seen(visits, p) <==> Seen(visits[..|visits| - 1], p) || visits[|visits| - 1].path == p
  {
    var n := |visits| - 1;
    if Seen(visits, p) && visits[n].path != p {
      var i :| 0 <= i < |visits| && visits[i].path == p;
      assert visits[..n][i] == visits[i];
    }
    if Seen(visits[..n], p) {
      var i :| 0 <= i < n && visits[..n][i].path == p;
      assert visits[i] == visits[..n][i];
    }
  }

  /** The chunks of the visits with path `p`, in visiting order. */
  function ChunksAt<V>(visits: seq<Visit<V>>, p: string): (r: seq<V>)
    ensures !Seen(visits, p) ==> r == []
  {
    if visits == [] then []
    else
      var n := |visits| - 1;
      SeenSnoc(visits, p);
      ChunksAt(visits[..n], p) + if visits[n].path == p then [visits[n].chunk] else []
  }

  /** The hash of the first visit with path `p`. */
  function FirstHash<V>(visits: seq<Visit<V>>, p: string): string
    requires Seen(visits, p)
  {
    var n := |visits| - 1;
    SeenSnoc(visits, p);
    if Seen(visits[..n], p) then FirstHash(visits[..n], p) else visits[n].hash
  }

  /** The visiting loop's step. */
  lemma GroupSnoc<V>(visits: seq<Visit<V>>)
    requires visits != []
    ensures Group(visits) == AddVisit(Group(visits[..|visits| - 1]), visits[|visits| - 1])
  {
  }

  /** The visiting loop's step, over a list of visits appended to others. */
  lemma {:induction false} GroupStep<V>(before: seq<Visit<V>>, visits: seq<Visit<V>>, i: nat)
    requires i < |visits|
    ensures Group(before + visits[..i + 1]) == AddVisit(Group(before + visits[..i]), visits[i])
  {
    var next := before + visits[..i + 1];
    assert next[..|next| - 1] == before + visits[..i] && next[|next| - 1] == visits[i];
    GroupSnoc(next);
  }

  /** The key bookkeeping of one visit: a new path is appended once to the
      keys of both dicts. */
  lemma AddVisitKeys<V>(g: Grouping<V>, v: Visit<V>)
    requires g.annotations.Valid() && forall p :: p in g.hashes <==> p in g.annotations.keys
    ensures AddVisit(g, v).annotations.Valid()
    ensures forall p :: p in AddVisit(g, v).hashes <==> p in AddVisit(g, v).annotations.keys
    ensures forall p :: p in AddVisit(g, v).annotations.keys <==> p in g.annotations.keys || p == v.path
  {
  }

  /** The visiting loop of `concat_datasets`: one key per distinct path,
      in both dicts. */
  function Group<V>(visits: seq<Visit<V>>): (g: Grouping<V>)
    ensures g.annotations.Valid()
    ensures forall p :: p in g.hashes <==> p in g.annotations.keys
    ensures forall p :: p in g.annotations.keys <==> Seen(visits, p)
  {
    if visits == [] then Grouping(Table([], map[]), map[])
    else
      var n := |visits| - 1;
      var prev := Group(visits[..n]);
      AddVisitKeys(prev, visits[n]);
      forall p
        ensures Seen(visits, p) <==> Seen(visits[..n], p) || visits[n].path == p
      {
        SeenSnoc(visits, p);
      }
      AddVisit(prev, visits[n])
  }

  /** A path's list is the chunks of all its visits, in order, and its hash
      is the one taken on first sight. */
  lemma {:induction false} GroupContents<V>(visits: seq<Visit<V>>, p: string)
    requires Seen(visits, p)
    ensures p in Group(visits).annotations.values && Group(visits).annotations.values[p] == ChunksAt(visits, p)
    ensures p in Group(visits).hashes && Group(visits).hashes[p] == FirstHash(visits, p)
  {
    var n := |visits| - 1;
    var init := visits[..n];
    var prev := Group(init);
    var v := visits[n];
    assert Group(visits) == AddVisit(prev, v);
    assert ChunksAt(visits, p) == ChunksAt(init, p) + if v.path == p then [v.chunk] else [];
    SeenSnoc(visits, p);
    if Seen(init, p) {
      GroupContents(init, p);
      assert FirstHash(visits, p) == FirstHash(init, p);
    } else {
      assert p !in prev.annotations.values && p !in prev.hashes;
      assert FirstHash(visits, p) == v.hash;
    }
  }

  // ------------------------------------------------------------- hashing

  /** Every key has a hash. */
  predicate Hashed(keys: seq<string>, hashes: map<string, string>)
  {
    forall i :: 0 <= i < |keys| ==> keys[i] in hashes
  }

  /** Position `i` holds the first key with its hash. */
  predicate FirstOfHash(keys: seq<string>, hashes: map<string, string>, i: int)
    requires Hashed(keys, hashes)
  {
    0 <= i < |keys| && forall j :: 0 <= j < i ==> hashes[keys[j]] != hashes[keys[i]]
  }

  /** `hash_to_path`: each hash of the keys, mapped to the first key with
      that hash. */
  function HashToPath(keys: seq<string>, hashes: map<string, string>): (m: map<string, string>)
    requires Hashed(keys, hashes)
    ensures forall h :: h in m <==> exists i :: 0 <= i < |keys| && hashes[keys[i]] == h
    ensures forall h :: h in m ==> exists i :: FirstOfHash(keys, hashes, i) && keys[i] == m[h] && hashes[keys[i]] == h
  {
    if keys == [] then map[]
    else
      var n := |keys| - 1;
      var prev := HashToPath(keys[..n], hashes);
      var h := hashes[keys[n]];
      FirstOfHashPrefix(keys, hashes, n);
      if h in prev then prev
      else
        assert FirstOfHash(keys, hashes, n);
        prev[h := keys[n]]
  }

  /** The first key with its hash among the first n keys is the first among
      all of them. */
  lemma FirstOfHashPrefix(keys: seq<string>, hashes: map<string, string>, n: nat)
    requires n <= |keys| && Hashed(keys, hashes)
    ensures Hashed(keys[..n], hashes)
    ensures forall i :: 0 <= i < n ==> keys[..n][i] == keys[i]
    ensures forall i :: FirstOfHash(keys[..n], hashes, i) ==> FirstOfHash(keys, hashes, i)
  {
    assert forall i :: 0 <= i < n ==> keys[..n][i] == keys[i];
  }

  /** The lists of all the keys with hash `h`, concatenated in key order. */
  function Gather<V>(keys: seq<string>, values: map<string, seq<V>>, hashes: map<string, string>, h: string): (r: seq<V>)
    requires forall i :: 0 <= i < |keys| ==> keys[i] in values && keys[i] in hashes
    ensures (forall i :: 0 <= i < |keys| ==> hashes[keys[i]] != h) ==> r == []
  {
    if keys == [] then []
    else
      var n := |keys| - 1;
      assert forall i :: 0 <= i < n ==> keys[..n][i] == keys[i];
      Gather(keys[..n], values, hashes, h) + if hashes[keys[n]] == h then values[keys[n]] else []
  }

  /** `hash_to_path` sends each hash to a key with that hash. */
  predicate Representative(h2p: map<string, string>, hashes: map<string, string>)
  {
    forall h :: h in h2p ==> h2p[h] in hashes && hashes[h2p[h]] == h
  }

  /** One key of the merge loop: its list goes to the representative path
      of its hash, behind what that path already holds; the representative
      enters the new dict when first met. */
  function DedupAdd<V>(prev: Table<V>, q: string, values: map<string, seq<V>>, hashes: map<string, string>, h2p: map<string, string>): Table<V>
    requires q in values && q in hashes && hashes[q] in h2p
  {
    var p := h2p[hashes[q]];
    if p in prev.values then Table(prev.keys, prev.values[p := prev.values[p] + values[q]])
    else Table(prev.keys + [p], prev.values[p := values[q]])
  }

  /** Every key has a list, a hash and a representative. */
  predicate Mergeable<V>(keys: seq<string>, values: map<string, seq<V>>, hashes: map<string, string>, h2p: map<string, string>)
  {
    forall i :: 0 <= i < |keys| ==> keys[i] in values && keys[i] in hashes && hashes[keys[i]] in h2p
  }

  /** The merge loop of `_dedup_images`: one key per representative path. */
  function Dedup<V>(keys: seq<string>, values: map<string, seq<V>>, hashes: map<string, string>, h2p: map<string, string>): (t: Table<V>)
    requires Mergeable(keys, values, hashes, h2p)
    ensures t.Valid()
    ensures forall p :: p in t.values <==> exists i :: 0 <= i < |keys| && h2p[hashes[keys[i]]] == p
  {
    if keys == [] then Table([], map[])
    else
      var n := |keys| - 1;
      assert forall i :: 0 <= i < n ==> keys[..n][i] == keys[i];
      DedupAdd(Dedup(keys[..n], values, hashes, h2p), keys[n], values, hashes, h2p)
  }

  /** Each representative's list is the lists of all the keys with its
      hash, concatenated in key order. */
  lemma {:induction false} DedupValue<V>(keys: seq<string>, values: map<string, seq<V>>, hashes: map<string, string>, h2p: map<string, string>, i: nat)
    requires Mergeable(keys, values, hashes, h2p) && Representative(h2p, hashes)
    requires i < |keys|
    ensures h2p[hashes[keys[i]]] in Dedup(keys, values, hashes, h2p).values
    ensures Dedup(keys, values, hashes, h2p).values[h2p[hashes[keys[i]]]] == Gather(keys, values, hashes, hashes[keys[i]])
  {
    var n := |keys| - 1;
    var init := keys[..n];
    assert forall j :: 0 <= j < n ==> init[j] == keys[j];
    var prev := Dedup(init, values, hashes, h2p);
    var q := keys[n];
    var h := hashes[keys[i]];
    var p := h2p[h];
    assert Gather(keys, values, hashes, h) == Gather(init, values, hashes, h) + if hashes[q] == h then values[q] else [];
    if hashes[q] != h {
      DedupValue(init, values, hashes, h2p, i);
    } else if exists j :: 0 <= j < n && hashes[keys[j]] == h {
      var j :| 0 <= j < n && hashes[keys[j]] == h;
      DedupValue(init, values, hashes, h2p, j);
    } else {
      assert p !in prev.values;
    }
  }

  /** `_dedup_images`. */
  function DedupImages<V>(annotations: Table<V>, hashes: map<string, string>): (t: Table<V>)
    requires annotations.Valid() && forall p :: p in hashes <==> p in annotations.keys
    ensures t.Valid()
  {
    DedupReady(annotations, hashes);
    Dedup(annotations.keys, annotations.values, hashes, HashToPath(annotations.keys, hashes))
  }

  /** With a hash for every key, every key can be merged under its hash's
      representative. */
  lemma DedupReady<V>(annotations: Table<V>, hashes: map<string, string>)
    requires annotations.Valid() && forall p :: p in hashes <==> p in annotations.keys
    ensures Hashed(annotations.keys, hashes)
    ensures Mergeable(annotations.keys, annotations.values, hashes, HashToPath(annotations.keys, hashes))
    ensures Representative(HashToPath(annotations.keys, hashes), hashes)
  {
    assert Hashed(annotations.keys, hashes);
    HashToPathRepresents(annotations.keys, hashes);
  }

  /** No two keys of the new dict share a hash: one key per distinct hash. */
  lemma {:induction false} DedupDistinctHashes<V>(keys: seq<string>, values: map<string, seq<V>>, hashes: map<string, string>, h2p: map<string, string>, p: string, p': string)
    requires Mergeable(keys, values, hashes, h2p) && Representative(h2p, hashes)
    requires p in Dedup(keys, values, hashes, h2p).values && p' in Dedup(keys, values, hashes, h2p).values
    ensures p in hashes && p' in hashes
    ensures hashes[p] == hashes[p'] ==> p == p'
  {
    var i :| 0 <= i < |keys| && h2p[hashes[keys[i]]] == p;
    var j :| 0 <= j < |keys| && h2p[hashes[keys[j]]] == p';
  }

  /** `hash_to_path` is a set of representatives: each hash is sent to the
      first key with that hash. */
  lemma {:induction false} HashToPathRepresents(keys: seq<string>, hashes: map<string, string>)
    requires Hashed(keys, hashes)
    ensures Representative(HashToPath(keys, hashes), hashes)
    ensures forall i :: 0 <= i < |keys| ==> hashes[keys[i]] in HashToPath(keys, hashes)
  {
    var h2p := HashToPath(keys, hashes);
    forall h | h in h2p
      ensures h2p[h] in hashes && hashes[h2p[h]] == h
    {
      var i :| FirstOfHash(keys, hashes, i) && keys[i] == h2p[h] && hashes[keys[i]] == h;
    }
  }

  // --------------------------------------------------------------- counts

  /** The total weight of a list of chunks. */
  function Weight<V>(cs: seq<V>, w: V -> nat): nat
  {
    if cs == [] then 0 else Weight(cs[..|cs| - 1], w) + w(cs[|cs| - 1])
  }

  lemma {:induction false} WeightAppend<V>(a: seq<V>, b: seq<V>, w: V -> nat)
    ensures Weight(a + b, w) == Weight(a, w) + Weight(b, w)
  {
    if b != [] {
      var n := |b| - 1;
      assert (a + b)[..|a| + n] == a + b[..n];
      WeightAppend(a, b[..n], w);
    } else {
      assert a + b == a;
    }
  }

  /** The total weight of the lists under some keys. */
  function Total<V>(keys: seq<string>, values: map<string, seq<V>>, w: V -> nat): nat
    requires forall i :: 0 <= i < |keys| ==> keys[i] in values
  {
    if keys == [] then 0
    else
      var n := |keys| - 1;
      assert forall i :: 0 <= i < n ==> keys[..n][i] == keys[i];
      Total(keys[..n], values, w) + Weight(values[keys[n]], w)
  }

  /** Changing the list of one key changes the total by the difference. */
  lemma {:induction false} TotalUpdate<V>(keys: seq<string>, values: map<string, seq<V>>, p: string, x: seq<V>, w: V -> nat)
    requires forall i :: 0 <= i < |keys| ==> keys[i] in values
    requires Distinct(keys) && p in values
    ensures p in keys ==> Total(keys, values[p := x], w) + Weight(values[p], w) == Total(keys, values, w) + Weight(x, w)
    ensures p !in keys ==> Total(keys, values[p := x], w) == Total(keys, values, w)
  {
    if keys != [] {
      var n := |keys| - 1;
      assert forall i :: 0 <= i < n ==> keys[..n][i] == keys[i];
      TotalUpdate(keys[..n], values, p, x, w);
      if keys[n] == p {
        assert p !in keys[..n];
      }
    }
  }

  /** A new key adds its list's weight. */
  lemma {:induction false} TotalFresh<V>(keys: seq<string>, values: map<string, seq<V>>, p: string, x: seq<V>, w: V -> nat)
    requires forall i :: 0 <= i < |keys| ==> keys[i] in values
    requires Distinct(keys) && p !in keys
    ensures Total(keys + [p], values[p := x], w) == Total(keys, values, w) + Weight(x, w)
  {
    var m := values[p := x];
    assert (keys + [p])[..|keys|] == keys;
    if p in values {
      TotalUpdate(keys, values, p, x, w);
    } else {
      TotalAbsent(keys, values, p, x, w);
    }
  }

  /** A key outside the list does not change the total. */
  lemma {:induction false} TotalAbsent<V>(keys: seq<string>, values: map<string, seq<V>>, p: string, x: seq<V>, w: V -> nat)
    requires forall i :: 0 <= i < |keys| ==> keys[i] in values
    requires p !in keys
    ensures Total(keys, values[p := x], w) == Total(keys, values, w)
  {
    if keys != [] {
      var n := |keys| - 1;
      assert forall i :: 0 <= i < n ==> keys[..n][i] == keys[i];
      TotalAbsent(keys[..n], values, p, x, w);
    }
  }

  /** Merging moves lists between keys and loses none: the total weight of
      the new dict is the total weight of the old one. */
  lemma {:induction false} DedupTotal<V>(keys: seq<string>, values: map<string, seq<V>>, hashes: map<string, string>, h2p: map<string, string>, w: V -> nat)
    requires Mergeable(keys, values, hashes, h2p)
    ensures forall i :: 0 <= i < |Dedup(keys, values, hashes, h2p).keys| ==> Dedup(keys, values, hashes, h2p).keys[i] in Dedup(keys, values, hashes, h2p).values
    ensures forall i :: 0 <= i < |keys| ==> keys[i] in values
    ensures Total(Dedup(keys, values, hashes, h2p).keys, Dedup(keys, values, hashes, h2p).values, w) == Total(keys, values, w)
  {
    if keys != [] {
      var n := |keys| - 1;
      var init := keys[..n];
      assert forall i :: 0 <= i < n ==> init[i] == keys[i];
      var prev := Dedup(init, values, hashes, h2p);
      DedupTotal(init, values, hashes, h2p, w);
      var q := keys[n];
      var p := h2p[hashes[q]];
      assert Dedup(keys, values, hashes, h2p) == DedupAdd(prev, q, values, hashes, h2p);
      assert Total(keys, values, w) == Total(init, values, w) + Weight(values[q], w);
      if p in prev.values {
        assert p in prev.keys;
        TotalUpdate(prev.keys, prev.values, p, prev.values[p] + values[q], w);
        WeightAppend(prev.values[p], values[q], w);
      } else {
        assert p !in prev.keys;
        TotalFresh(prev.keys, prev.values, p, values[q], w);
      }
    }
  }

  /** The total weight of the visits' chunks. */
  function VisitWeight<V>(visits: seq<Visit<V>>, w: V -> nat): nat
  {
    if visits == [] then 0 else VisitWeight(visits[..|visits| - 1], w) + w(visits[|visits| - 1].chunk)
  }

  lemma {:induction false} VisitWeightAppend<V>(a: seq<Visit<V>>, b: seq<Visit<V>>, w: V -> nat)
    ensures VisitWeight(a + b, w) == VisitWeight(a, w) + VisitWeight(b, w)
  {
    if b != [] {
      var n := |b| - 1;
      assert (a + b)[..|a| + n] == a + b[..n];
      VisitWeightAppend(a, b[..n], w);
    } else {
      assert a + b == a;
    }
  }

  /** Every key of a valid table has a list. */
  lemma ValidKeys<V>(t: Table<V>)
    requires t.Valid()
    ensures forall i :: 0 <= i < |t.keys| ==> t.keys[i] in t.values
  {
    forall i | 0 <= i < |t.keys|
      ensures t.keys[i] in t.values
    {
      assert t.keys[i] in t.keys;
    }
  }

  /** A one-chunk list weighs its chunk. */
  lemma WeightSingle<V>(c: V, w: V -> nat)
    ensures Weight([c], w) == w(c)
  {
    assert [c][..0] == [];
  }

  /** One visit adds its chunk's weight to the total. */
  lemma {:induction false} AddVisitTotal<V>(t: Table<V>, hashes: map<string, string>, v: Visit<V>, w: V -> nat)
    requires t.Valid()
    ensures forall i :: 0 <= i < |t.keys| ==> t.keys[i] in t.values
    ensures forall i :: 0 <= i < |AddVisit(Grouping(t, hashes), v).annotations.keys| ==>
      AddVisit(Grouping(t, hashes), v).annotations.keys[i] in AddVisit(Grouping(t, hashes), v).annotations.values
    ensures Total(AddVisit(Grouping(t, hashes), v).annotations.keys, AddVisit(Grouping(t, hashes), v).annotations.values, w)
      == Total(t.keys, t.values, w) + w(v.chunk)
  {
    ValidKeys(t);
    WeightSingle(v.chunk, w);
    var t' := AddVisit(Grouping(t, hashes), v).annotations;
    if v.path in t.values {
      assert v.path in t.keys;
      assert t' == Table(t.keys, t.values[v.path := t.values[v.path] + [v.chunk]]);
      TotalUpdate(t.keys, t.values, v.path, t.values[v.path] + [v.chunk], w);
      WeightAppend(t.values[v.path], [v.chunk], w);
    } else {
      assert v.path !in t.keys;
      assert t' == Table(t.keys + [v.path], t.values[v.path := [v.chunk]]);
      assert (t.keys + [v.path])[..|t.keys|] == t.keys;
      TotalFresh(t.keys, t.values, v.path, [v.chunk], w);
    }
  }

  /** Grouping moves every chunk into its path's list and loses none. */
  lemma {:induction false} GroupTotal<V>(visits: seq<Visit<V>>, w: V -> nat)
    ensures forall i :: 0 <= i < |Group(visits).annotations.keys| ==> Group(visits).annotations.keys[i] in Group(visits).annotations.values
    ensures Total(Group(visits).annotations.keys, Group(visits).annotations.values, w) == VisitWeight(visits, w)
  {
    ValidKeys(Group(visits).annotations);
    if visits != [] {
      var n := |visits| - 1;
      var prev := Group(visits[..n]);
      GroupTotal(visits[..n], w);
      GroupSnoc(visits);
      assert VisitWeight(visits, w) == VisitWeight(visits[..n], w) + w(visits[n].chunk);
      AddVisitTotal(prev.annotations, prev.hashes, visits[n], w);
    }
  }

  /** `_dedup_images` keeps the total weight of the lists. */
  lemma {:induction false} DedupImagesTotal<V>(annotations: Table<V>, hashes: map<string, string>, w: V -> nat)
    requires annotations.Valid() && forall p :: p in hashes <==> p in annotations.keys
    ensures forall i :: 0 <= i < |annotations.keys| ==> annotations.keys[i] in annotations.values
    ensures forall i :: 0 <= i < |DedupImages(annotations, hashes).keys| ==> DedupImages(annotations, hashes).keys[i] in DedupImages(annotations, hashes).values
    ensures Total(DedupImages(annotations, hashes).keys, DedupImages(annotations, hashes).values, w) == Total(annotations.keys, annotations.values, w)
  {
    HashToPathRepresents(annotations.keys, hashes);
    DedupTotal(annotations.keys, annotations.values, hashes, HashToPath(annotations.keys, hashes), w);
  }

  // -------------------------------------------------------------- methods

  /** The `hash_to_path` loop of `_dedup_images`. */
  method HashToPathLoop(keys: seq<string>, hashes: map<string, string>) returns (m: map<string, string>)
    requires Hashed(keys, hashes)
    ensures m == HashToPath(keys, hashes)
  {
    m := map[];
    var i := 0;
    while i < |keys|
      invariant 0 <= i <= |keys|
      invariant m == HashToPath(keys[..i], hashes)
    {
      assert keys[..i + 1][..i] == keys[..i];
      var h := hashes[keys[i]];
      if h !in m {
        m := m[h := keys[i]];
      }
      i := i + 1;
    }
    assert keys[..i] == keys;
  }

  /** The merge loop of `_dedup_images`. */
  method DedupLoop<V>(keys: seq<string>, values: map<string, seq<V>>, hashes: map<string, string>, h2p: map<string, string>) returns (t: Table<V>)
    requires Mergeable(keys, values, hashes, h2p)
    ensures t == Dedup(keys, values, hashes, h2p)
  {
    t := Table([], map[]);
    var i := 0;
    while i < |keys|
      invariant 0 <= i <= |keys|
      invariant Mergeable(keys[..i], values, hashes, h2p)
      invariant t == Dedup(keys[..i], values, hashes, h2p)
    {
      var upTo := keys[..i + 1];
      assert upTo[..i] == keys[..i] && upTo[i] == keys[i];
      assert Mergeable(upTo, values, hashes, h2p);
      var q := keys[i];
      var labels := values[q];
      var p := h2p[hashes[q]];
      if p in t.values {
        labels := t.values[p] + labels;
        t := Table(t.keys, t.values[p := labels]);
      } else {
        t := Table(t.keys + [p], t.values[p := labels]);
      }
      assert t == DedupAdd(Dedup(keys[..i], values, hashes, h2p), q, values, hashes, h2p);
      i := i + 1;
    }
    assert keys[..i] == keys;
  }

  /** `_dedup_images`: the `hash_to_path` loop, then the merge loop. */
  method DedupImagesLoop<V>(annotations: Table<V>, hashes: map<string, string>) returns (t: Table<V>)
    requires annotations.Valid() && forall p :: p in hashes <==> p in annotations.keys
    ensures t == DedupImages(annotations, hashes)
  {
    DedupReady(annotations, hashes);
    var h2p := HashToPathLoop(annotations.keys, hashes);
    t := DedupLoop(annotations.keys, annotations.values, hashes, h2p);
  }
}
