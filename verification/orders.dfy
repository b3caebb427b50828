/** Python's `sorted(set(...))` for the two element types the core sorts:
    class names (strings, compared by code point) and class ids (ints). Each
    is built by insertion from a sequence that lists the set's elements in any
    order, and is the one strictly increasing sequence with those elements. */
module Orders {

  /** The first element of a non-empty sequence is one of its elements. */
  lemma HeadIsElement<T>(s: seq<T>)
    ensures s != [] ==> s[0] in s
  {
  }

  // ----------------------------------------------------------- string order

  /** Python's `a < b` on str: lexicographic by code point. */
  predicate StrLess(a: string, b: string)
  {
    if a == [] then b != []
    else if b == [] then false
    else if a[0] != b[0] then a[0] < b[0]
    else StrLess(a[1..], b[1..])
  }

  lemma {:induction false} StrLessIrreflexive(a: string)
    ensures !StrLess(a, a)
  {
    if a != [] {
      StrLessIrreflexive(a[1..]);
    }
  }

  lemma {:induction false} StrLessTransitive(a: string, b: string, c: string)
    requires StrLess(a, b) && StrLess(b, c)
    ensures StrLess(a, c)
  {
    if a != [] && b != [] && c != [] && a[0] == b[0] && b[0] == c[0] {
      StrLessTransitive(a[1..], b[1..], c[1..]);
    }
  }

  lemma {:induction false} StrLessTotal(a: string, b: string)
    requires a != b
    ensures StrLess(a, b) || StrLess(b, a)
  {
    if a != [] && b != [] && a[0] == b[0] {
      assert a == [a[0]] + a[1..] && b == [b[0]] + b[1..];
      StrLessTotal(a[1..], b[1..]);
    }
  }

  predicate NamesSorted(s: seq<string>)
  {
    forall i, j :: 0 <= i < j < |s| ==> StrLess(s[i], s[j])
  }

  /** Insert `x` into a strictly sorted sequence, unless it is already there. */
  function InsertName(x: string, s: seq<string>): (r: seq<string>)
    requires NamesSorted(s)
    ensures NamesSorted(r)
    ensures forall y :: y in r <==> y in s || y == x
  {
    if s == [] then [x]
    else if x == s[0] then s
    else if StrLess(x, s[0]) then
      assert forall j :: 0 < j < |s| ==> StrLess(x, s[j]) by {
        forall j | 0 < j < |s| {
          StrLessTransitive(x, s[0], s[j]);
        }
      }
      [x] + s
    else
      StrLessTotal(x, s[0]);
      var t := InsertName(x, s[1..]);
      assert forall y :: y in t ==> StrLess(s[0], y);
      [s[0]] + t
  }

  /** `sorted(set(s))` for a sequence of names. */
  function SortedNames(s: seq<string>): (r: seq<string>)
    ensures NamesSorted(r)
    ensures forall y :: y in r <==> y in s
  {
    if s == [] then [] else InsertName(s[|s| - 1], SortedNames(s[..|s| - 1]))
  }

  /** There is only one strictly sorted sequence of a given set of names, so
      the result depends on the set alone, not on the order it was met in. */
  lemma {:induction false} NamesSortedUnique(a: seq<string>, b: seq<string>)
    requires NamesSorted(a) && NamesSorted(b)
    requires forall y :: y in a <==> y in b
    ensures a == b
  {
    if a != [] {
      assert a[0] in a && a[0] in b;
      assert b != [] && b[0] in b && b[0] in a;
      if a[0] != b[0] {
        var i :| 0 <= i < |b| && b[i] == a[0];
        var j :| 0 <= j < |a| && a[j] == b[0];
        assert i > 0 && j > 0;
        assert StrLess(b[0], b[i]) && StrLess(a[0], a[j]);
        StrLessTransitive(a[0], b[0], a[0]);
        StrLessIrreflexive(a[0]);
      }
      assert a == [a[0]] + a[1..] && b == [b[0]] + b[1..];
      forall y
        ensures y in a[1..] <==> y in b[1..]
      {
        if y in a[1..] {
          var i :| 0 <= i < |a[1..]| && a[1..][i] == y;
          assert StrLess(a[0], a[i + 1]);
          StrLessIrreflexive(y);
          assert y in b && y != b[0];
          assert y in b[1..];
        }
        if y in b[1..] {
          var i :| 0 <= i < |b[1..]| && b[1..][i] == y;
          assert StrLess(b[0], b[i + 1]);
          StrLessIrreflexive(y);
          assert y in a && y != a[0];
          assert y in a[1..];
        }
      }
      NamesSortedUnique(a[1..], b[1..]);
    } else {
      HeadIsElement(b);
    }
  }

  /** A strictly sorted sequence has no repeated name. */
  lemma NamesSortedDistinct(s: seq<string>, i: int, j: int)
    requires NamesSorted(s)
    requires 0 <= i < |s| && 0 <= j < |s| && i != j
    ensures s[i] != s[j]
  {
    if i < j {
      StrLessIrreflexive(s[i]);
    } else {
      StrLessIrreflexive(s[j]);
    }
  }

  // --------------------------------------------------------------- int order

  predicate IdsSorted(s: seq<int>)
  {
    forall i, j :: 0 <= i < j < |s| ==> s[i] < s[j]
  }

  function InsertId(x: int, s: seq<int>): (r: seq<int>)
    requires IdsSorted(s)
    ensures IdsSorted(r)
    ensures forall y :: y in r <==> y in s || y == x
  {
    if s == [] then [x]
    else if x == s[0] then s
    else if x < s[0] then [x] + s
    else
      var t := InsertId(x, s[1..]);
      assert forall y :: y in t ==> s[0] < y;
      [s[0]] + t
  }

  /** `sorted(set(s))` for a sequence of ids. */
  function SortedIds(s: seq<int>): (r: seq<int>)
    ensures IdsSorted(r)
    ensures forall y :: y in r <==> y in s
  {
    if s == [] then [] else InsertId(s[|s| - 1], SortedIds(s[..|s| - 1]))
  }

  /** The strictly sorted sequence of a set of ids is unique. */
  lemma {:induction false} IdsSortedUnique(a: seq<int>, b: seq<int>)
    requires IdsSorted(a) && IdsSorted(b)
    requires forall y :: y in a <==> y in b
    ensures a == b
  {
    if a != [] {
      assert a[0] in a && a[0] in b;
      assert b != [] && b[0] in b && b[0] in a;
      assert a[0] == b[0];
      assert a == [a[0]] + a[1..] && b == [b[0]] + b[1..];
      forall y
        ensures y in a[1..] <==> y in b[1..]
      {
        if y in a[1..] {
          var i :| 0 <= i < |a[1..]| && a[1..][i] == y;
          assert a[0] < a[i + 1];
          assert y in b && y != b[0];
          assert y in b[1..];
        }
        if y in b[1..] {
          var i :| 0 <= i < |b[1..]| && b[1..][i] == y;
          assert b[0] < b[i + 1];
          assert y in a && y != a[0];
          assert y in a[1..];
        }
      }
      IdsSortedUnique(a[1..], b[1..]);
    } else {
      HeadIsElement(b);
    }
  }

  /** A strictly sorted sequence of ids has exactly as many elements as the
      set it lists. */
  lemma {:induction false} IdsSortedCard(s: seq<int>)
    requires IdsSorted(s)
    ensures |set y | y in s| == |s|
  {
    if s != [] {
      IdsSortedCard(s[1..]);
      assert (set y | y in s) == {s[0]} + (set y | y in s[1..]);
      assert s[0] !in s[1..];
    }
  }

  /** `[0, 1, ..., n-1]`. */
  function Iota(n: nat): (r: seq<int>)
    ensures |r| == n && forall i :: 0 <= i < n ==> r[i] == i
    ensures IdsSorted(r)
    ensures forall x :: x in r <==> 0 <= x < n
  {
    if n == 0 then []
    else
      var r := Iota(n - 1) + [n - 1];
      assert forall x :: x in r <==> x in Iota(n - 1) || x == n - 1;
      r
  }
}
