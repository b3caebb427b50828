/** Python list indexing as the converters and commands use it: `xs[k]` with
    negative `k` counting from the end, and `xs.index(x)` for the position of
    the first occurrence. */
module PyLists {
  import opened Wrappers

  /** `xs[k]`: valid for -len(xs) <= k < len(xs); a negative `k` counts from
      the end; anything else raises IndexError. */
  function PyIndex<T>(xs: seq<T>, k: int): (r: Result<T>)
    ensures r.Ok? <==> -|xs| <= k < |xs|
    ensures r.Ok? && k >= 0 ==> r.value == xs[k]
    ensures r.Ok? && k < 0 ==> r.value == xs[|xs| + k]
    ensures r.Err? ==> r.error == IndexError
  {
    if 0 <= k < |xs| then Ok(xs[k])
    else if -|xs| <= k < 0 then Ok(xs[|xs| + k])
    else Err(IndexError)
  }

  /** A successful `xs[k]` is always one of the elements of `xs`. */
  lemma PyIndexMember<T>(xs: seq<T>, k: int)
    requires PyIndex(xs, k).Ok?
    ensures PyIndex(xs, k).value in xs
  {
    if k < 0 {
      assert xs[|xs| + k] in xs;
    }
  }

  /** `xs.index(x)` for an `x` known to occur: the position of its first
      occurrence. */
  function IndexOf<T(==)>(xs: seq<T>, x: T): (k: nat)
    requires x in xs
    ensures k < |xs| && xs[k] == x
    ensures forall j :: 0 <= j < k ==> xs[j] != x
  {
    if xs[0] == x then 0 else 1 + IndexOf(xs[1..], x)
  }

  /** `{name: i for i, name in enumerate(xs)}[x]`: the dict keeps the last
      position at which `x` occurs. */
  function LastIndexOf<T(==)>(xs: seq<T>, x: T): (k: nat)
    requires x in xs
    ensures k < |xs| && xs[k] == x
    ensures forall j :: k < j < |xs| ==> xs[j] != x
  {
    if xs[|xs| - 1] == x then |xs| - 1
    else
      assert x in xs[..|xs| - 1] by {
        var i :| 0 <= i < |xs| && xs[i] == x;
        assert xs[..|xs| - 1][i] == x;
      }
      LastIndexOf(xs[..|xs| - 1], x)
  }

  /** `d.get(k, default)`. */
  function Get<K, V>(d: map<K, V>, k: K, default: V): (v: V)
    ensures k in d ==> v == d[k]
    ensures k !in d ==> v == default
  {
    if k in d then d[k] else default
  }

  /** `[x for x in xs if keep(x)]`. */
  function Filter<T>(xs: seq<T>, keep: T -> bool): (r: seq<T>)
    ensures |r| <= |xs|
    ensures forall i :: 0 <= i < |r| ==> keep(r[i])
  {
    if xs == [] then []
    else
      var n := |xs| - 1;
      Filter(xs[..n], keep) + if keep(xs[n]) then [xs[n]] else []
  }

  /** Filtering keeps every element that passes, as often as it occurs,
      and drops every other. */
  lemma {:induction false} FilterCount<T(!new)>(xs: seq<T>, keep: T -> bool)
    ensures forall x :: multiset(Filter(xs, keep))[x] == if keep(x) then multiset(xs)[x] else 0
  {
    if xs != [] {
      var n := |xs| - 1;
      assert xs == xs[..n] + [xs[n]];
      FilterCount(xs[..n], keep);
    }
  }

  /** Filtering keeps the relative order: it distributes over
      concatenation. */
  lemma {:induction false} FilterAppend<T>(a: seq<T>, b: seq<T>, keep: T -> bool)
    ensures Filter(a + b, keep) == Filter(a, keep) + Filter(b, keep)
  {
    if b == [] {
      assert a + b == a;
    } else {
      var n := |b| - 1;
      assert (a + b)[..|a| + n] == a + b[..n];
      assert (a + b)[|a| + n] == b[n];
      FilterAppend(a, b[..n], keep);
    }
  }

  /** An element is in the filtered list exactly when it is in the list and
      passes. */
  lemma {:induction false} FilterMembers<T>(xs: seq<T>, keep: T -> bool, x: T)
    ensures x in Filter(xs, keep) <==> x in xs && keep(x)
  {
    if xs != [] {
      var n := |xs| - 1;
      FilterMembers(xs[..n], keep, x);
      assert xs == xs[..n] + [xs[n]];
    }
  }
}
