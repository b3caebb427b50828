/** The label-table merge of `concat_datasets`: the input tables are
    appended name by name, a name that is already taken getting '.'
    appended until it is free, and dataset k's ids move up by the total
    length of the tables before it. */
module ConcatLabels {
  import opened LabelCodecs

  /** `'.' * n`. */
  function Dots(n: nat): (r: string)
    ensures |r| == n && forall i :: 0 <= i < n ==> r[i] == '.'
  {
    seq(n, _ => '.')
  }

  /** One more dot on the name is one more dot in the suffix. */
  lemma AppendDot(name: string, j: nat)
    ensures (name + ".") + Dots(j) == name + Dots(j + 1)
  {
    var a, b := (name + ".") + Dots(j), name + Dots(j + 1);
    assert |a| == |b|;
    forall i | 0 <= i < |a|
      ensures a[i] == b[i]
    {
    }
  }

  /** `s` is `base` followed by dots only. */
  predicate Dotted(s: string, base: string)
  {
    |base| <= |s| && s == base + Dots(|s| - |base|)
  }

  /** The length of the longest name: no longer name can be taken. */
  function MaxLen(names: seq<string>): (m: nat)
    ensures forall x :: x in names ==> |x| <= m
  {
    if names == [] then 0
    else
      var m := MaxLen(names[1..]);
      assert forall x :: x in names ==> x == names[0] || x in names[1..];
      if |names[0]| > m then |names[0]| else m
  }

  /** The `while new_label in labels: new_label = new_label + '.'` loop: the
      first of name, name + '.', name + '..', ... that is not taken. */
  function Unclash(labels: seq<string>, name: string): (r: string)
    ensures r !in labels && Dotted(r, name)
    decreases MaxLen(labels) + 1 - |name|
  {
    if name in labels then
      var r := Unclash(labels, name + ".");
      AppendDot(name, |r| - |name| - 1);
      r
    else name
  }

  /** Every dotted form of the name shorter than the result is taken: the
      result is the first free one. */
  lemma {:induction false} UnclashFirstFree(labels: seq<string>, name: string, j: nat)
    requires j < |Unclash(labels, name)| - |name|
    ensures name + Dots(j) in labels
    decreases MaxLen(labels) + 1 - |name|
  {
    assert name in labels;
    if j == 0 {
      assert name + Dots(0) == name;
    } else {
      UnclashFirstFree(labels, name + ".", j - 1);
      AppendDot(name, j - 1);
    }
  }

  /** The name loop for one table: each name is appended once, unclashed
      against everything appended before it. */
  function MergeTable(labels: seq<string>, table: seq<string>): (r: seq<string>)
    ensures |r| == |labels| + |table| && r[..|labels|] == labels
    ensures Distinct(labels) ==> Distinct(r)
  {
    if table == [] then labels
    else
      var n := |table| - 1;
      var prev := MergeTable(labels, table[..n]);
      var r := prev + [Unclash(prev, table[n])];
      assert r[..|labels|] == prev[..|labels|];
      r
  }

  /** Name i of the table lands at position |labels| + i, unclashed against
      everything before it. */
  lemma {:induction false} MergeTableAt(labels: seq<string>, table: seq<string>, i: nat)
    requires i < |table|
    ensures MergeTable(labels, table)[|labels| + i] == Unclash(MergeTable(labels, table)[..|labels| + i], table[i])
  {
    var n := |table| - 1;
    var prev := MergeTable(labels, table[..n]);
    var r := MergeTable(labels, table);
    assert r == prev + [Unclash(prev, table[n])];
    if i < n {
      MergeTableAt(labels, table[..n], i);
      assert table[..n][i] == table[i];
      assert r[..|labels| + i] == prev[..|labels| + i];
      assert r[|labels| + i] == prev[|labels| + i];
    } else {
      assert r[..|labels| + i] == prev;
    }
  }

  /** The sum of the table lengths: `label_id_offset` after these tables. */
  function TotalLen(tables: seq<seq<string>>): nat
  {
    if tables == [] then 0 else TotalLen(tables[..|tables| - 1]) + |tables[|tables| - 1]|
  }

  /** The offset of dataset k's ids: the tables before it. */
  function Offset(tables: seq<seq<string>>, k: nat): nat
    requires k <= |tables|
  {
    TotalLen(tables[..k])
  }

  /** The merged `labels` list after all the tables. */
  function MergedLabels(tables: seq<seq<string>>): (r: seq<string>)
    ensures |r| == TotalLen(tables) && Distinct(r)
  {
    if tables == [] then []
    else MergeTable(MergedLabels(tables[..|tables| - 1]), tables[|tables| - 1])
  }

  /** The merged table after the first k tables is a prefix of the merged
      table after all of them. */
  lemma {:induction false} MergedPrefix(tables: seq<seq<string>>, k: nat)
    requires k <= |tables|
    ensures TotalLen(tables[..k]) <= |MergedLabels(tables)|
    ensures MergedLabels(tables)[..TotalLen(tables[..k])] == MergedLabels(tables[..k])
  {
    if k == |tables| {
      assert tables[..k] == tables;
    } else {
      var n := |tables| - 1;
      var prev := MergedLabels(tables[..n]);
      var all := MergedLabels(tables);
      var t := TotalLen(tables[..k]);
      assert t <= |prev| && prev[..t] == MergedLabels(tables[..k]) by {
        MergedPrefix(tables[..n], k);
        assert tables[..n][..k] == tables[..k];
      }
      assert all[..|prev|] == prev by {
        assert all == MergeTable(prev, tables[n]);
      }
      assert all[..t] == prev[..t];
    }
  }

  /** A sequence agrees with its prefix below the prefix's length. */
  lemma PrefixAgrees(a: seq<string>, b: seq<string>, j: nat)
    requires j < |b| <= |a| && a[..|b|] == b
    ensures a[j] == b[j] && a[..j] == b[..j]
  {
    assert a[j] == a[..|b|][j];
  }

  /** Dataset k's i-th name lands at position Offset(k) + i of the merged
      table, as itself or with dots appended. */
  lemma {:induction false} MergedPosition(tables: seq<seq<string>>, k: nat, i: nat)
    requires k < |tables| && i < |tables[k]|
    ensures Offset(tables, k) + i < |MergedLabels(tables)|
    ensures MergedLabels(tables)[Offset(tables, k) + i] == Unclash(MergedLabels(tables)[..Offset(tables, k) + i], tables[k][i])
    ensures Dotted(MergedLabels(tables)[Offset(tables, k) + i], tables[k][i])
  {
    var all := MergedLabels(tables);
    var pre := MergedLabels(tables[..k + 1]);
    var j := Offset(tables, k) + i;
    assert j < |pre| && pre[j] == Unclash(pre[..j], tables[k][i]) by {
      MergedStep(tables, k);
      MergeTableAt(MergedLabels(tables[..k]), tables[k], i);
    }
    assert |pre| <= |all| && all[..|pre|] == pre by {
      MergedPrefix(tables, k + 1);
    }
    UnclashInPrefix(all, pre, j, tables[k][i]);
  }

  /** A name unclashed at position j of a prefix is unclashed at position j
      of the whole table. */
  lemma UnclashInPrefix(all: seq<string>, pre: seq<string>, j: nat, name: string)
    requires j < |pre| <= |all| && all[..|pre|] == pre
    requires pre[j] == Unclash(pre[..j], name)
    ensures all[j] == Unclash(all[..j], name) && Dotted(all[j], name)
  {
    PrefixAgrees(all, pre, j);
  }

  /** The merged table after k + 1 tables is table k merged onto the merged
      table after k. */
  lemma MergedStep(tables: seq<seq<string>>, k: nat)
    requires k < |tables|
    ensures MergedLabels(tables[..k + 1]) == MergeTable(MergedLabels(tables[..k]), tables[k])
  {
    var upTo := tables[..k + 1];
    assert upTo[..k] == tables[..k] && upTo[k] == tables[k];
  }

  /** The inner `while new_label in labels` loop. */
  method UnclashLoop(labels: seq<string>, name: string) returns (newLabel: string)
    ensures newLabel == Unclash(labels, name)
  {
    newLabel := name;
    while newLabel in labels
      invariant Unclash(labels, newLabel) == Unclash(labels, name)
      decreases MaxLen(labels) + 1 - |newLabel|
    {
      newLabel := newLabel + ".";
    }
  }

  /** The name loop of `concat_datasets` for one dataset's table. */
  method MergeTableLoop(before: seq<string>, table: seq<string>) returns (labels: seq<string>)
    ensures labels == MergeTable(before, table)
  {
    labels := before;
    var i := 0;
    while i < |table|
      invariant 0 <= i <= |table|
      invariant labels == MergeTable(before, table[..i])
    {
      assert table[..i + 1][..i] == table[..i];
      var newLabel := UnclashLoop(labels, table[i]);
      labels := labels + [newLabel];
      i := i + 1;
    }
    assert table[..i] == table;
  }
}
