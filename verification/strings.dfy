/** The handful of Python `str` operations the simple-dataset code relies on:
    `strip()`, `split()`, `split(maxsplit=1)`, `split(sep)`, `splitlines()`,
    `sep.join(...)`, `int(...)` and `str(int)`, each written out over
    `seq<char>`, with the round trips the label codecs depend on. */
module Strings {
  import opened Wrappers

  /** Python's `str.isspace()` characters: what `split()` and `strip()` remove. */
  predicate IsSpace(c: char) {
    c == ' ' || ('\t' <= c <= '\r') || ('\U{1c}' <= c <= '\U{1f}') || c == '\U{85}' || c == '\U{a0}'
    || c == '\U{1680}' || ('\U{2000}' <= c <= '\U{200a}') || c == '\U{2028}' || c == '\U{2029}'
    || c == '\U{202f}' || c == '\U{205f}' || c == '\U{3000}'
  }

  /** The line boundaries of Python's `str.splitlines()`. */
  predicate IsLineBreak(c: char) {
    ('\n' <= c <= '\r') || ('\U{1c}' <= c <= '\U{1e}') || c == '\U{85}' || c == '\U{2028}' || c == '\U{2029}'
  }

  predicate IsDigit(c: char) {
    '0' <= c <= '9'
  }

  predicate NoSpace(s: string) {
    forall i :: 0 <= i < |s| ==> !IsSpace(s[i])
  }

  predicate NoLineBreak(s: string) {
    forall i :: 0 <= i < |s| ==> !IsLineBreak(s[i])
  }

  predicate AllDigits(s: string) {
    forall i :: 0 <= i < |s| ==> IsDigit(s[i])
  }

  lemma LineBreakIsSpace(c: char)
    ensures IsLineBreak(c) ==> IsSpace(c)
  {
  }

  // ---------------------------------------------------------------- strip()

  function StripLeft(s: string): (r: string)
    ensures |r| <= |s| && r == s[|s| - |r|..]
    ensures r == [] || !IsSpace(r[0])
    ensures forall i :: 0 <= i < |s| - |r| ==> IsSpace(s[i])
  {
    if s != [] && IsSpace(s[0]) then StripLeft(s[1..]) else s
  }

  function StripRight(s: string): (r: string)
    ensures |r| <= |s| && r == s[..|r|]
    ensures r == [] || !IsSpace(r[|r| - 1])
    ensures forall i :: |r| <= i < |s| ==> IsSpace(s[i])
  {
    if s != [] && IsSpace(s[|s| - 1]) then StripRight(s[..|s| - 1]) else s
  }

  /** Python's `s.strip()`. */
  function Strip(s: string): (r: string)
    ensures r == [] || (!IsSpace(r[0]) && !IsSpace(r[|r| - 1]))
  {
    StripRight(StripLeft(s))
  }

  /** Strip leaves a string with no whitespace at either end as it is. */
  lemma StripUnchanged(s: string)
    requires s == [] || (!IsSpace(s[0]) && !IsSpace(s[|s| - 1]))
    ensures Strip(s) == s
  {
  }

  // ---------------------------------------------------------------- split()

  /** Length of the run of non-whitespace characters that starts `s`. */
  function TokenLen(s: string): (k: nat)
    ensures k <= |s| && NoSpace(s[..k])
    ensures k < |s| ==> IsSpace(s[k])
  {
    if s == [] || IsSpace(s[0]) then 0 else 1 + TokenLen(s[1..])
  }

  /** Python's `s.split()`: the maximal whitespace-free runs, in order. */
  function Fields(s: string): (r: seq<string>)
    ensures forall i :: 0 <= i < |r| ==> r[i] != [] && NoSpace(r[i])
    decreases |s|
  {
    if s == [] then []
    else if IsSpace(s[0]) then Fields(s[1..])
    else
      var k := TokenLen(s);
      [s[..k]] + Fields(s[k..])
  }

  /** Python's `s.split(maxsplit=1)`: the first field and, when there is more
      text after it, that text with its leading whitespace removed. */
  function SplitFirstField(s: string): (r: seq<string>)
    ensures |r| <= 2
    ensures |r| >= 1 ==> r[0] != [] && NoSpace(r[0])
    ensures |r| == 2 ==> r[1] != [] && !IsSpace(r[1][0])
    ensures r == [] <==> Fields(s) == []
  {
    var t := StripLeft(s);
    if t == [] then
      FieldsOfBlank(s);
      []
    else
      var k := TokenLen(t);
      var rest := StripLeft(t[k..]);
      FieldsSkipsLeadingSpace(s);
      if rest == [] then [t[..k]] else [t[..k], rest]
  }

  lemma {:induction false} FieldsOfBlank(s: string)
    requires StripLeft(s) == []
    ensures Fields(s) == []
    decreases |s|
  {
    if s != [] {
      FieldsOfBlank(s[1..]);
    }
  }

  lemma {:induction false} FieldsSkipsLeadingSpace(s: string)
    ensures Fields(s) == Fields(StripLeft(s))
    decreases |s|
  {
    if s != [] && IsSpace(s[0]) {
      FieldsSkipsLeadingSpace(s[1..]);
    }
  }

  /** `(a + " " + b).split(maxsplit=1)` gives back `a` and `b` when `a` is one
      field and `b` starts with a non-space. */
  lemma SplitFirstFieldOfPair(a: string, b: string)
    requires a != [] && NoSpace(a) && b != [] && !IsSpace(b[0])
    ensures SplitFirstField(a + " " + b) == [a, b]
  {
    var s := a + " " + b;
    assert s == a + (" " + b);
    assert StripLeft(s) == s;
    TokenLenOf(a, " " + b);
    assert s[|a|..] == " " + b;
    assert (" " + b)[1..] == b;
    assert StripLeft(" " + b) == b;
    assert s[..|a|] == a;
  }

  /** A single whitespace-free field splits into itself alone. */
  lemma SplitFirstFieldOfToken(a: string)
    requires a != [] && NoSpace(a)
    ensures SplitFirstField(a) == [a]
  {
    TokenLenOf(a, []);
    assert a + [] == a;
  }

  /** Stripping a whitespace-free field followed by one space gives the field. */
  lemma StripTrailingSpace(a: string)
    requires a != [] && NoSpace(a)
    ensures Strip(a + " ") == a
  {
    var s := a + " ";
    assert StripLeft(s) == s;
    assert s[..|s| - 1] == a;
    assert StripRight(s) == StripRight(a);
  }

  /** Python's `sep.join(parts)`. */
  function Join(sep: string, parts: seq<string>): string
  {
    if parts == [] then []
    else if |parts| == 1 then parts[0]
    else parts[0] + sep + Join(sep, parts[1..])
  }

  /** Splitting a single-space join of whitespace-free, non-empty fields gives
      the fields back: what makes a written payload line readable. */
  lemma {:induction false} FieldsOfJoin(ts: seq<string>)
    requires forall i :: 0 <= i < |ts| ==> ts[i] != [] && NoSpace(ts[i])
    ensures Fields(Join(" ", ts)) == ts
  {
    if |ts| == 1 {
      FieldsOfToken(ts[0], []);
      assert ts[0] + [] == ts[0];
    } else if |ts| > 1 {
      var rest := Join(" ", ts[1..]);
      FieldsOfJoin(ts[1..]);
      assert Join(" ", ts) == ts[0] + (" " + rest);
      FieldsOfToken(ts[0], " " + rest);
      assert (" " + rest)[1..] == rest;
    }
  }

  /** A whitespace-free token followed by text that is empty or starts with
      whitespace is the first field. */
  lemma {:induction false} FieldsOfToken(t: string, rest: string)
    requires t != [] && NoSpace(t)
    requires rest == [] || IsSpace(rest[0])
    ensures Fields(t + rest) == [t] + Fields(rest)
  {
    TokenLenOf(t, rest);
    assert (t + rest)[..|t|] == t;
    assert (t + rest)[|t|..] == rest;
  }

  lemma {:induction false} TokenLenOf(t: string, rest: string)
    requires NoSpace(t)
    requires rest == [] || IsSpace(rest[0])
    ensures TokenLen(t + rest) == |t|
  {
    if t != [] {
      assert (t + rest)[1..] == t[1..] + rest;
      TokenLenOf(t[1..], rest);
    } else {
      assert t + rest == rest;
    }
  }

  // ---------------------------------------------------------- split(sep)

  /** Python's `s.split(sep)` for a one-character separator: always at least
      one part, empty parts kept. */
  function SplitOn(s: string, sep: char): (r: seq<string>)
    ensures |r| >= 1
    ensures forall i :: 0 <= i < |r| ==> sep !in r[i]
  {
    if s == [] then [[]]
    else
      var r := SplitOn(s[1..], sep);
      if s[0] == sep then [[]] + r else [[s[0]] + r[0]] + r[1..]
  }

  /** The number of parts is one more than the number of separators. */
  lemma {:induction false} SplitOnCount(s: string, sep: char)
    ensures |SplitOn(s, sep)| == multiset(s)[sep] + 1
  {
    if s != [] {
      SplitOnCount(s[1..], sep);
      assert s == [s[0]] + s[1..];
      assert multiset(s) == multiset{s[0]} + multiset(s[1..]);
    }
  }

  /** Joining the parts with the separator gives the string back. */
  lemma {:induction false} SplitOnJoin(s: string, sep: char)
    ensures Join([sep], SplitOn(s, sep)) == s
  {
    if s != [] {
      SplitOnJoin(s[1..], sep);
      var r := SplitOn(s[1..], sep);
      if s[0] == sep {
        assert SplitOn(s, sep)[1..] == r;
      } else {
        var r' := [[s[0]] + r[0]] + r[1..];
        assert r'[1..] == r[1..];
        if |r| > 1 {
          assert r == [r[0]] + r[1..];
          assert Join([sep], r) == r[0] + [sep] + Join([sep], r[1..]);
        }
      }
    }
  }

  /** A string without the separator splits into itself alone. */
  lemma SplitOnAbsent(s: string, sep: char)
    requires sep !in s
    ensures SplitOn(s, sep) == [s]
  {
    SplitOnCount(s, sep);
    SplitOnJoin(s, sep);
  }

  /** Two separator-free parts joined by the separator split back into them. */
  lemma {:induction false} SplitOnPair(a: string, b: string, sep: char)
    requires sep !in a && sep !in b
    ensures SplitOn(a + [sep] + b, sep) == [a, b]
  {
    var s := a + [sep] + b;
    if a == [] {
      assert s[1..] == b;
      SplitOnAbsent(b, sep);
    } else {
      assert s[1..] == a[1..] + [sep] + b;
      SplitOnPair(a[1..], b, sep);
      assert [s[0]] + a[1..] == a;
    }
  }

  /** The first part of `s.split(sep)` is the text before the first separator,
      or all of `s` when there is none. */
  lemma {:induction false} SplitOnHead(s: string, sep: char)
    ensures sep !in s ==> SplitOn(s, sep)[0] == s
    ensures sep in s ==> exists i :: 0 <= i < |s| && s[i] == sep && SplitOn(s, sep)[0] == s[..i]
  {
    if s != [] {
      SplitOnHead(s[1..], sep);
      if s[0] == sep {
        assert s[..0] == [];
      } else if sep in s[1..] {
        var i :| 0 <= i < |s[1..]| && s[1..][i] == sep && SplitOn(s[1..], sep)[0] == s[1..][..i];
        assert s[..i + 1] == [s[0]] + s[1..][..i];
      } else {
        assert s == [s[0]] + s[1..];
      }
    }
  }

  // ---------------------------------------------------------- splitlines()

  /** Length of the text before the first line boundary of `s`. */
  function LineLen(s: string): (k: nat)
    ensures k <= |s| && NoLineBreak(s[..k])
    ensures k < |s| ==> IsLineBreak(s[k])
  {
    if s == [] || IsLineBreak(s[0]) then 0 else 1 + LineLen(s[1..])
  }

  /** Python's `s.splitlines()`: lines without their boundaries; "\r\n" is one
      boundary; no trailing empty line. */
  function SplitLines(s: string): (r: seq<string>)
    ensures forall i :: 0 <= i < |r| ==> NoLineBreak(r[i])
    ensures s == [] <==> r == []
    decreases |s|
  {
    if s == [] then []
    else
      var k := LineLen(s);
      if k == |s| then [s]
      else
        var skip := if s[k] == '\r' && k + 1 < |s| && s[k + 1] == '\n' then 2 else 1;
        [s[..k]] + SplitLines(s[k + skip..])
  }

  /** Each line followed by "\n": what a sequence of `f.write(f"...\n")` gives. */
  function Terminated(lines: seq<string>): string
  {
    if lines == [] then [] else lines[0] + "\n" + Terminated(lines[1..])
  }

  /** Writing one more line appends it and its "\n". */
  lemma {:induction false} TerminatedSnoc(lines: seq<string>, l: string)
    ensures Terminated(lines + [l]) == Terminated(lines) + l + "\n"
  {
    if lines != [] {
      assert (lines + [l])[1..] == lines[1..] + [l];
      TerminatedSnoc(lines[1..], l);
    }
  }

  /** Lines written one per "\n" are read back by `splitlines()` unchanged. */
  lemma {:induction false} SplitLinesOfTerminated(lines: seq<string>)
    requires forall i :: 0 <= i < |lines| ==> NoLineBreak(lines[i])
    ensures SplitLines(Terminated(lines)) == lines
  {
    if lines != [] {
      SplitLinesOfTerminated(lines[1..]);
      SplitLinesStep(lines[0], Terminated(lines[1..]));
    }
  }

  /** A line ended by "\n" is the first line of what follows it. */
  lemma SplitLinesStep(l: string, rest: string)
    requires NoLineBreak(l)
    ensures SplitLines(l + "\n" + rest) == [l] + SplitLines(rest)
  {
    var s := l + "\n" + rest;
    LineLenOf(l, "\n" + rest);
    assert s == l + ("\n" + rest);
    assert LineLen(s) == |l| && s[|l|] == '\n';
    assert s[..|l|] == l;
    assert s[|l| + 1..] == rest;
  }

  lemma {:induction false} LineLenOf(l: string, rest: string)
    requires NoLineBreak(l)
    requires rest == [] || IsLineBreak(rest[0])
    ensures LineLen(l + rest) == |l|
  {
    if l != [] {
      assert (l + rest)[1..] == l[1..] + rest;
      LineLenOf(l[1..], rest);
    } else {
      assert l + rest == rest;
    }
  }

  /** A label table written with "\n".join is read back by `splitlines()`
      unchanged, provided its last name is not empty (an empty last name is
      lost, as is a table holding only the empty name). */
  lemma {:induction false} SplitLinesOfJoin(lines: seq<string>)
    requires forall i :: 0 <= i < |lines| ==> NoLineBreak(lines[i])
    requires lines != [] ==> lines[|lines| - 1] != []
    ensures SplitLines(Join("\n", lines)) == lines
  {
    if |lines| == 1 {
      var l := lines[0];
      LineLenOf(l, []);
      assert l + [] == l;
      assert SplitLines(l) == [l];
    } else if |lines| > 1 {
      var rest := lines[1..];
      assert forall i :: 0 <= i < |rest| ==> rest[i] == lines[i + 1];
      SplitLinesOfJoin(rest);
      assert Join("\n", lines) == lines[0] + "\n" + Join("\n", rest);
      SplitLinesStep(lines[0], Join("\n", rest));
      assert [lines[0]] + rest == lines;
    }
  }

  // ------------------------------------------------------ int() and str()

  function DigitValue(c: char): nat
    requires IsDigit(c)
  {
    c as int - '0' as int
  }

  function DigitChar(d: nat): (c: char)
    requires d < 10
    ensures IsDigit(c) && DigitValue(c) == d
  {
    ('0' as int + d) as char
  }

  /** The value of a string of decimal digits. */
  function DigitsValue(s: string): nat
    requires AllDigits(s)
  {
    if s == [] then 0 else 10 * DigitsValue(s[..|s| - 1]) + DigitValue(s[|s| - 1])
  }

  /** Python's `str(n)` for a natural number. */
  function NatToString(n: nat): (r: string)
    ensures r != [] && AllDigits(r)
  {
    if n < 10 then [DigitChar(n)] else NatToString(n / 10) + [DigitChar(n % 10)]
  }

  /** `str(0)`. */
  lemma ZeroToString()
    ensures IntToString(0) == "0"
  {
    assert NatToString(0) == [DigitChar(0)];
  }

  /** Python's `str(i)`. */
  function IntToString(i: int): (r: string)
    ensures r != [] && NoSpace(r) && NoLineBreak(r)
    ensures forall k :: 0 <= k < |r| ==> IsDigit(r[k]) || r[k] == '-'
  {
    if i < 0 then "-" + NatToString(-i) else NatToString(i)
  }

  /** The runs of ten decimal digits `int` reads: the Unicode 15.0
      characters with a decimal digit value (category Nd). */
  const DigitRuns := 68

  /** The zero of the k-th digit run; a digit's value is its distance from
      its run's zero. */
  function RunZero(k: nat): int
    requires k < DigitRuns
  {
    if k == 0 then 0x30
    else if k == 1 then 0x660
    else if k == 2 then 0x6F0
    else if k == 3 then 0x7C0
    else if k == 4 then 0x966
    else if k == 5 then 0x9E6
    else if k == 6 then 0xA66
    else if k == 7 then 0xAE6
    else if k == 8 then 0xB66
    else if k == 9 then 0xBE6
    else if k == 10 then 0xC66
    else if k == 11 then 0xCE6
    else if k == 12 then 0xD66
    else if k == 13 then 0xDE6
    else if k == 14 then 0xE50
    else if k == 15 then 0xED0
    else if k == 16 then 0xF20
    else if k == 17 then 0x1040
    else if k == 18 then 0x1090
    else if k == 19 then 0x17E0
    else if k == 20 then 0x1810
    else if k == 21 then 0x1946
    else if k == 22 then 0x19D0
    else if k == 23 then 0x1A80
    else if k == 24 then 0x1A90
    else if k == 25 then 0x1B50
    else if k == 26 then 0x1BB0
    else if k == 27 then 0x1C40
    else if k == 28 then 0x1C50
    else if k == 29 then 0xA620
    else if k == 30 then 0xA8D0
    else if k == 31 then 0xA900
    else if k == 32 then 0xA9D0
    else if k == 33 then 0xA9F0
    else if k == 34 then 0xAA50
    else if k == 35 then 0xABF0
    else if k == 36 then 0xFF10
    else if k == 37 then 0x104A0
    else if k == 38 then 0x10D30
    else if k == 39 then 0x11066
    else if k == 40 then 0x110F0
    else if k == 41 then 0x11136
    else if k == 42 then 0x111D0
    else if k == 43 then 0x112F0
    else if k == 44 then 0x11450
    else if k == 45 then 0x114D0
    else if k == 46 then 0x11650
    else if k == 47 then 0x116C0
    else if k == 48 then 0x11730
    else if k == 49 then 0x118E0
    else if k == 50 then 0x11950
    else if k == 51 then 0x11C50
    else if k == 52 then 0x11D50
    else if k == 53 then 0x11DA0
    else if k == 54 then 0x11F50
    else if k == 55 then 0x16A60
    else if k == 56 then 0x16AC0
    else if k == 57 then 0x16B50
    else if k == 58 then 0x1D7CE
    else if k == 59 then 0x1D7D8
    else if k == 60 then 0x1D7E2
    else if k == 61 then 0x1D7EC
    else if k == 62 then 0x1D7F6
    else if k == 63 then 0x1E140
    else if k == 64 then 0x1E2F0
    else if k == 65 then 0x1E4F0
    else if k == 66 then 0x1E950
    else 0x1FBF0
  }

  /** The zero of the first run from the k-th on that holds `code`, or -1
      when none does; the runs are in increasing order, so the search stops
      at the first run that starts past `code`. */
  function RunOf(code: int, k: nat): (z: int)
    requires k <= DigitRuns
    ensures z == -1 || z <= code < z + 10
    decreases DigitRuns - k
  {
    if k == DigitRuns || code < RunZero(k) then -1
    else if code < RunZero(k) + 10 then RunZero(k)
    else RunOf(code, k + 1)
  }

  /** A character `int` reads as a decimal digit. */
  predicate IsDecimal(c: char) {
    IsDigit(c) || RunOf(c as int, 0) != -1
  }

  function DecimalValue(c: char): (d: nat)
    requires IsDecimal(c)
    ensures d < 10
  {
    if IsDigit(c) then DigitValue(c) else c as int - RunOf(c as int, 0)
  }

  /** An ASCII digit is a decimal digit with its usual value. */
  lemma AsciiDecimal(c: char)
    requires IsDigit(c)
    ensures IsDecimal(c) && DecimalValue(c) == DigitValue(c)
  {
  }

  /** The digit part `int` accepts: one or more decimal digits, where a
      single '_' may stand between two digits. */
  predicate IntDigits(s: string) {
    && s != []
    && (forall k :: 0 <= k < |s| ==> IsDecimal(s[k]) || s[k] == '_')
    && (forall k :: 0 <= k < |s| && s[k] == '_' ==> 0 < k < |s| - 1 && IsDecimal(s[k + 1]))
  }

  /** The value of digits with separating underscores, which count for nothing. */
  function GroupedValue(s: string): nat
    requires forall k :: 0 <= k < |s| ==> IsDecimal(s[k]) || s[k] == '_'
  {
    if s == [] then 0
    else if s[|s| - 1] == '_' then GroupedValue(s[..|s| - 1])
    else 10 * GroupedValue(s[..|s| - 1]) + DecimalValue(s[|s| - 1])
  }

  /** Plain ASCII digits are accepted, with their ordinary value. */
  lemma {:induction false} GroupedValueOfDigits(s: string)
    requires AllDigits(s)
    ensures forall k :: 0 <= k < |s| ==> IsDecimal(s[k])
    ensures s != [] ==> IntDigits(s)
    ensures GroupedValue(s) == DigitsValue(s)
  {
    if s != [] {
      GroupedValueOfDigits(s[..|s| - 1]);
      AsciiDecimal(s[|s| - 1]);
      assert forall k :: 0 <= k < |s| - 1 ==> s[..|s| - 1][k] == s[k];
    }
  }

  /** Python's `int(s)` on a string: surrounding whitespace, an optional sign,
      then decimal digits with single underscores allowed between them;
      anything else is a ValueError. */
  function ParseInt(s: string): (r: Result<int>)
    ensures r.Err? ==> r.error == ValueError
  {
    var t := Strip(s);
    if t != [] && (t[0] == '-' || t[0] == '+') then
      var d := t[1..];
      if IntDigits(d) then
        var v: int := GroupedValue(d);
        Ok(if t[0] == '-' then -v else v)
      else Err(ValueError)
    else if IntDigits(t) then Ok(GroupedValue(t))
    else Err(ValueError)
  }

  lemma {:induction false} DigitsValueOfNatToString(n: nat)
    ensures DigitsValue(NatToString(n)) == n
  {
    if n >= 10 {
      var s := NatToString(n);
      DigitsValueOfNatToString(n / 10);
      assert s[..|s| - 1] == NatToString(n / 10);
    }
  }

  /** A sign and accepted digits, with no whitespace at the end, read as
      the digits' value, negated after a minus. */
  lemma ParseIntSigned(t: string)
    requires |t| > 1 && (t[0] == '-' || t[0] == '+') && IntDigits(t[1..]) && !IsSpace(t[|t| - 1])
    ensures ParseInt(t) == Ok(if t[0] == '-' then -(GroupedValue(t[1..]) as int) else GroupedValue(t[1..]))
  {
    StripUnchanged(t);
  }

  /** Accepted digits with no whitespace at either end read as their value. */
  lemma ParseIntUnsigned(t: string)
    requires IntDigits(t) && t[0] != '-' && t[0] != '+' && !IsSpace(t[0]) && !IsSpace(t[|t| - 1])
    ensures ParseInt(t) == Ok(GroupedValue(t))
  {
    StripUnchanged(t);
  }

  /** "1_000" is a run of digits with one separating underscore, worth 1000. */
  lemma GroupedThousand()
    ensures IntDigits("1_000") && GroupedValue("1_000") == 1000
  {
    var a := "1_000";
    assert IsDecimal(a[2]);
    assert a[..4][..3] == a[..3] && a[..3][..2] == a[..2] && a[..2][..1] == a[..1] && a[..4] == a[..|a| - 1];
    assert GroupedValue(a[..1]) == 1;
    assert GroupedValue(a[..2]) == 1;
    assert GroupedValue(a[..3]) == 10;
    assert GroupedValue(a[..4]) == 100;
  }

  /** `int` reads single underscores between digits. */
  lemma ParseIntGrouped()
    ensures ParseInt("1_000") == Ok(1000)
  {
    GroupedThousand();
    ParseIntUnsigned("1_000");
  }

  /** `int` reads the digits of other scripts. */
  lemma ParseIntArabicIndic()
    ensures ParseInt("\U{661}\U{662}") == Ok(12)
  {
    var b := "\U{661}\U{662}";
    assert RunOf(b[0] as int, 0) == 0x660 && RunOf(b[1] as int, 0) == 0x660;
    assert GroupedValue(b[..1]) == 1;
    ParseIntUnsigned(b);
  }

  /** `int` rejects a doubled underscore. */
  lemma ParseIntDoubleUnderscore()
    ensures ParseInt("1__0") == Err(ValueError)
  {
    var c := "1__0";
    assert RunOf(c[2] as int, 0) == -1;
    assert !IsDecimal(c[2]);
    assert c[1] == '_' && !(0 < 1 < |c| - 1 && IsDecimal(c[1 + 1]));
    assert !IntDigits(c);
    StripUnchanged(c);
  }

  /** `int(str(n)) == n` for a natural number. */
  lemma ParseIntOfNatToString(n: nat)
    ensures ParseInt(NatToString(n)) == Ok(n)
  {
    var s := NatToString(n);
    DigitsValueOfNatToString(n);
    GroupedValueOfDigits(s);
    ParseIntUnsigned(s);
  }

  /** `int(str(-n)) == -n` for a positive number. */
  lemma ParseIntOfNegative(n: nat)
    requires n > 0
    ensures ParseInt(IntToString(-(n as int))) == Ok(-(n as int))
  {
    var s := IntToString(-(n as int));
    var d := NatToString(n);
    assert s == "-" + d && s[1..] == d;
    DigitsValueOfNatToString(n);
    GroupedValueOfDigits(d);
    ParseIntSigned(s);
  }

  /** `int(str(i)) == i`. */
  lemma ParseIntOfIntToString(i: int)
    ensures ParseInt(IntToString(i)) == Ok(i)
  {
    if i < 0 {
      ParseIntOfNegative(-i);
    } else {
      ParseIntOfNatToString(i);
    }
  }

  /** Numbered names `f'{i}{suffix}'` differ for different numbers. */
  lemma NumberedNameInjective(i: int, j: int, suffix: string)
    requires IntToString(i) + suffix == IntToString(j) + suffix
    ensures i == j
  {
    var a := IntToString(i);
    var b := IntToString(j);
    assert a == (a + suffix)[..|a|] && b == (b + suffix)[..|b|];
    ParseIntOfIntToString(i);
    ParseIntOfIntToString(j);
  }

  // ---------------------------------------------------------------- lower()

  function LowerChar(c: char): char
  {
    if 'A' <= c <= 'Z' then (c as int + 32) as char else c
  }

  /** `s.lower()` on the ASCII letters; other letters are left as they are. */
  function Lower(s: string): (r: string)
    ensures |r| == |s|
    ensures forall i :: 0 <= i < |s| ==> r[i] == LowerChar(s[i])
  {
    seq(|s|, i requires 0 <= i < |s| => LowerChar(s[i]))
  }

  // ------------------------------------------------------------- find()

  /** Python's `s.find(c)`, with `|s|` standing for "not found". */
  function Find(s: string, c: char): (k: nat)
    ensures k <= |s| && c !in s[..k]
    ensures k < |s| ==> s[k] == c
    ensures k == |s| <==> c !in s
  {
    if s == [] then 0
    else if s[0] == c then 0
    else
      var k := 1 + Find(s[1..], c);
      assert s[..k] == [s[0]] + s[1..][..k - 1];
      k
  }

  /** Python's `s.rfind(c)`, with -1 for "not found". */
  function RFind(s: string, c: char): (k: int)
    ensures -1 <= k < |s|
    ensures k >= 0 ==> s[k] == c
    ensures forall j :: k < j < |s| ==> s[j] != c
  {
    if s == [] then -1
    else if s[|s| - 1] == c then |s| - 1
    else RFind(s[..|s| - 1], c)
  }
}
