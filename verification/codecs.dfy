/** The per-kind label codecs: the classification label field (a comma list of
    ids), the detection payload (one `id x_min y_min x_max y_max` line per
    box) and the relationship payload (eleven integers per line), with the
    detection encoder the dataset writer uses. */
module LabelCodecs {
  import opened Wrappers
  import opened Strings

  /** A detection tuple `(label_id, x_min, y_min, x_max, y_max)`. */
  datatype Box = Box(classId: int, xMin: int, yMin: int, xMax: int, yMax: int)

  /** A relationship 11-tuple: subject class and box (slots 0-4), object class
      and box (slots 5-9), predicate class (slot 10). */
  datatype Relation = Relation(subject: Box, obj: Box, predicateId: int)

  function BoxInts(b: Box): seq<int>
  {
    [b.classId, b.xMin, b.yMin, b.xMax, b.yMax]
  }

  function BoxOf(v: seq<int>): (b: Box)
    requires |v| == 5
    ensures BoxInts(b) == v
  {
    Box(v[0], v[1], v[2], v[3], v[4])
  }

  /** The eleven slots of a relationship, in the order they are stored. */
  function RelationInts(r: Relation): (s: seq<int>)
    ensures |s| == 11 && s[0] == r.subject.classId && s[5] == r.obj.classId && s[10] == r.predicateId
  {
    BoxInts(r.subject) + BoxInts(r.obj) + [r.predicateId]
  }

  predicate Distinct<T(==)>(s: seq<T>)
  {
    forall i, j :: 0 <= i < j < |s| ==> s[i] != s[j]
  }

  /** `[str(x) for x in xs]`. */
  function IntStrings(xs: seq<int>): (ts: seq<string>)
    ensures |ts| == |xs|
    ensures forall i :: 0 <= i < |xs| ==> ts[i] == IntToString(xs[i])
  {
    seq(|xs|, i requires 0 <= i < |xs| => IntToString(xs[i]))
  }

  /** `[int(s) for s in tokens]`: the first token that is not an integer
      raises ValueError. */
  function ParseInts(tokens: seq<string>): (r: Result<seq<int>>)
    ensures r.Ok? ==> |r.value| == |tokens|
    ensures r.Ok? ==> forall i :: 0 <= i < |tokens| ==> ParseInt(tokens[i]) == Ok(r.value[i])
    ensures r.Err? ==> r.error == ValueError && exists i :: 0 <= i < |tokens| && ParseInt(tokens[i]).Err?
  {
    if tokens == [] then Ok([])
    else
      var x :- ParseInt(tokens[0]);
      var rest :- ParseInts(tokens[1..]);
      ConsParsed(tokens, ParseInt, x, rest);
      Ok([x] + rest)
  }

  /** A token's value in front of the values of the tokens after it gives
      every token's value. */
  lemma ConsParsed<T>(tokens: seq<string>, parse: string -> Result<T>, x: T, rest: seq<T>)
    requires tokens != [] && parse(tokens[0]) == Ok(x) && |rest| == |tokens| - 1
    requires forall j :: 0 <= j < |rest| ==> parse(tokens[1..][j]) == Ok(rest[j])
    ensures forall i :: 0 <= i < |tokens| ==> parse(tokens[i]) == Ok(([x] + rest)[i])
  {
    forall i | 1 <= i < |tokens|
      ensures parse(tokens[i]) == Ok(([x] + rest)[i])
    {
      assert tokens[i] == tokens[1..][i - 1];
    }
  }

  lemma {:induction false} ParseIntsOfStrings(xs: seq<int>)
    ensures ParseInts(IntStrings(xs)) == Ok(xs)
  {
    if xs != [] {
      var ts := IntStrings(xs);
      ParseIntOfIntToString(xs[0]);
      assert ParseInt(ts[0]) == Ok(xs[0]);
      ParseIntsOfStrings(xs[1..]);
      assert ts[1..] == IntStrings(xs[1..]);
      assert [xs[0]] + xs[1..] == xs;
    }
  }

  /** `line.strip().split()`: the whitespace-separated fields of a line. */
  function Tokens(line: string): seq<string>
  {
    Fields(Strip(line))
  }

  // -------------------------------------------------------- classification

  /** `ImageClassificationLabelLoader.load`: the label field split on ',',
      each part an int, no id repeated. */
  function ParseClassIds(field: string): (r: Result<seq<int>>)
    ensures r.Ok? ==> Distinct(r.value) && |r.value| == |SplitOn(field, ',')|
    ensures r.Ok? ==> forall i :: 0 <= i < |r.value| ==> ParseInt(SplitOn(field, ',')[i]) == Ok(r.value[i])
    ensures r.Err? ==> r.error == ValueError || r.error == AssertionError
    ensures r == Err(AssertionError) ==> ParseInts(SplitOn(field, ',')).Ok? && !Distinct(ParseInts(SplitOn(field, ',')).value)
    ensures r.Ok? <==> ParseInts(SplitOn(field, ',')).Ok? && Distinct(ParseInts(SplitOn(field, ',')).value)
  {
    var ids :- ParseInts(SplitOn(field, ','));
    if Distinct(ids) then Ok(ids) else Err(AssertionError)
  }

  /** A single id written by `str` is read back as that one id. */
  lemma ClassIdsOfSingle(id: int)
    ensures ParseClassIds(IntToString(id)) == Ok([id])
  {
    var s := IntToString(id);
    assert forall k :: 0 <= k < |s| ==> s[k] != ',';
    SplitOnAbsent(s, ',');
    ParseIntsOfStrings([id]);
    assert IntStrings([id]) == [s];
  }

  // ------------------------------------------------------------- detection

  /** One detection payload line: exactly five integers (ValueError otherwise). */
  function ParseBoxLine(line: string): (r: Result<Box>)
    ensures r.Err? ==> r.error == ValueError
  {
    match ParseInts(Tokens(line))
    case Err(e) => Err(e)
    case Ok(v) => BoxFromInts(v)
  }

  /** Five integers make a box; any other count is a ValueError. */
  function BoxFromInts(v: seq<int>): (r: Result<Box>)
    ensures r.Ok? <==> |v| == 5
    ensures r.Ok? ==> BoxInts(r.value) == v
    ensures r.Err? ==> r.error == ValueError
  {
    if |v| != 5 then Err(ValueError) else Ok(BoxOf(v))
  }

  /** `_write_object_detection_labels` for one box: `f'{label_id} {x} {y} {x2} {y2}'`. */
  function EncodeBox(b: Box): string
  {
    Join(" ", IntStrings(BoxInts(b)))
  }

  /** The payload's lines: one encoded box each. */
  function BoxLines(boxes: seq<Box>): (lines: seq<string>)
    ensures |lines| == |boxes|
    ensures forall i :: 0 <= i < |boxes| ==> lines[i] == EncodeBox(boxes[i])
  {
    seq(|boxes|, i requires 0 <= i < |boxes| => EncodeBox(boxes[i]))
  }

  /** A detection payload: one encoded box per line, each ending in "\n". */
  function EncodeBoxes(boxes: seq<Box>): string
  {
    Terminated(BoxLines(boxes))
  }

  lemma {:induction false} JoinEnds(ts: seq<string>)
    requires ts != [] && forall i :: 0 <= i < |ts| ==> ts[i] != []
    ensures var j := Join(" ", ts);
      j != [] && j[0] == ts[0][0] && j[|j| - 1] == ts[|ts| - 1][|ts[|ts| - 1]| - 1]
  {
    if |ts| > 1 {
      var rest := ts[1..];
      assert forall i :: 0 <= i < |rest| ==> rest[i] == ts[i + 1];
      JoinEnds(rest);
      var tail := Join(" ", rest);
      assert Join(" ", ts) == ts[0] + " " + tail;
      assert rest[|rest| - 1] == ts[|ts| - 1];
    }
  }

  lemma {:induction false} JoinNoLineBreak(sep: string, ts: seq<string>)
    requires NoLineBreak(sep) && forall i :: 0 <= i < |ts| ==> NoLineBreak(ts[i])
    ensures NoLineBreak(Join(sep, ts))
  {
    if |ts| > 1 {
      JoinNoLineBreak(sep, ts[1..]);
    }
  }

  lemma EncodeBoxNoLineBreak(b: Box)
    ensures NoLineBreak(EncodeBox(b))
  {
    JoinNoLineBreak(" ", IntStrings(BoxInts(b)));
  }

  /** An encoded box line splits back into its five numbers as written. */
  lemma TokensOfEncodedBox(b: Box)
    ensures Tokens(EncodeBox(b)) == IntStrings(BoxInts(b))
    ensures |Tokens(EncodeBox(b))| == 5
  {
    var ts := IntStrings(BoxInts(b));
    JoinEnds(ts);
    StripUnchanged(EncodeBox(b));
    FieldsOfJoin(ts);
  }

  /** One encoded box line decodes to the same box. */
  lemma ParseBoxLineOfEncode(b: Box)
    ensures ParseBoxLine(EncodeBox(b)) == Ok(b)
  {
    TokensOfEncodedBox(b);
    ParseIntsOfStrings(BoxInts(b));
    assert BoxFromInts(BoxInts(b)) == Ok(b);
  }

  lemma EncodedBoxLines(boxes: seq<Box>)
    ensures forall i :: 0 <= i < |boxes| ==> NoLineBreak(EncodeBox(boxes[i]))
    ensures forall i :: 0 <= i < |boxes| ==> ParseBoxLine(EncodeBox(boxes[i])) == Ok(boxes[i])
  {
    forall i | 0 <= i < |boxes|
      ensures NoLineBreak(EncodeBox(boxes[i])) && ParseBoxLine(EncodeBox(boxes[i])) == Ok(boxes[i])
    {
      EncodeBoxNoLineBreak(boxes[i]);
      ParseBoxLineOfEncode(boxes[i]);
    }
  }

  /** decode(encode(boxes)) == boxes, the empty list included. */
  lemma BoxesRoundTrip(boxes: seq<Box>)
    ensures ParseBoxes(EncodeBoxes(boxes)) == Ok(boxes)
  {
    BoxPayloadLines(boxes);
    BoxLinesDecode(boxes);
  }

  lemma BoxPayloadLines(boxes: seq<Box>)
    ensures SplitLines(EncodeBoxes(boxes)) == BoxLines(boxes)
  {
    EncodedBoxLines(boxes);
    SplitLinesOfTerminated(BoxLines(boxes));
  }

  lemma BoxLinesDecode(boxes: seq<Box>)
    ensures ParseEach(BoxLines(boxes), ParseBoxLine) == Ok(boxes)
  {
    EncodedBoxLines(boxes);
    ParseEachOfDecodable(BoxLines(boxes), boxes, ParseBoxLine);
  }

  // ---------------------------------------------------------- relationship

  /** One relationship payload line: the integers first (ValueError), then
      exactly eleven of them (RuntimeError). */
  function ParseRelationLine(line: string): (r: Result<Relation>)
    ensures r.Err? ==> r.error == ValueError || r.error == RuntimeError
    ensures r == Err(ValueError) <==> ParseInts(Tokens(line)).Err?
  {
    match ParseInts(Tokens(line))
    case Err(e) => Err(e)
    case Ok(v) => RelationFromInts(v)
  }

  /** Eleven integers make a relationship; any other count is a RuntimeError. */
  function RelationFromInts(v: seq<int>): (r: Result<Relation>)
    ensures r.Ok? <==> |v| == 11
    ensures r.Ok? ==> RelationInts(r.value) == v
    ensures r.Err? ==> r.error == RuntimeError
  {
    if |v| != 11 then Err(RuntimeError)
    else
      assert v == v[..5] + v[5..10] + [v[10]];
      Ok(Relation(BoxOf(v[..5]), BoxOf(v[5..10]), v[10]))
  }

  // ------------------------------------------------------------- payloads

  /** A payload's lines decoded in order by one line decoder: every line
      decodes, or the payload fails with the error of its first bad line. */
  function ParseEach<T>(lines: seq<string>, parse: string -> Result<T>): (r: Result<seq<T>>)
    ensures r.Ok? ==> |r.value| == |lines|
    ensures r.Ok? ==> forall i :: 0 <= i < |lines| ==> parse(lines[i]) == Ok(r.value[i])
    ensures r.Err? ==> exists i :: 0 <= i < |lines| && parse(lines[i]) == Err(r.error)
                        && forall j :: 0 <= j < i ==> parse(lines[j]).Ok?
  {
    if lines == [] then Ok([])
    else
      var n := |lines| - 1;
      match ParseEach(lines[..n], parse)
      case Err(e) =>
        assert forall j :: 0 <= j < n ==> lines[..n][j] == lines[j];
        Err(e)
      case Ok(init) =>
        match parse(lines[n])
        case Err(e) => Err(e)
        case Ok(x) => Ok(init + [x])
  }

  /** One more line that decodes extends the decoded prefix by its value. */
  lemma ParseEachExtends<T>(lines: seq<string>, i: nat, parse: string -> Result<T>, done: seq<T>, x: T)
    requires i < |lines| && ParseEach(lines[..i], parse) == Ok(done) && parse(lines[i]) == Ok(x)
    ensures ParseEach(lines[..i + 1], parse) == Ok(done + [x])
  {
    assert lines[..i + 1][..i] == lines[..i];
  }

  /** Once a prefix of the lines fails, the whole fails with the same error:
      nothing after the first bad line is looked at. */
  lemma {:induction false} ParseEachFailsEarly<T>(lines: seq<string>, k: nat, parse: string -> Result<T>)
    requires k <= |lines| && ParseEach(lines[..k], parse).Err?
    ensures ParseEach(lines, parse) == ParseEach(lines[..k], parse)
    decreases |lines| - k
  {
    if k < |lines| {
      assert lines[..k + 1][..k] == lines[..k];
      ParseEachFailsEarly(lines, k + 1, parse);
    } else {
      assert lines[..k] == lines;
    }
  }

  /** Lines each of which decodes to the matching value decode, together, to
      all of the values. */
  lemma {:induction false} ParseEachOfDecodable<T>(lines: seq<string>, xs: seq<T>, parse: string -> Result<T>)
    requires |lines| == |xs|
    requires forall i :: 0 <= i < |xs| ==> parse(lines[i]) == Ok(xs[i])
    ensures ParseEach(lines, parse) == Ok(xs)
  {
    if xs != [] {
      var n := |xs| - 1;
      ParseEachOfDecodable(lines[..n], xs[..n], parse);
      assert xs[..n] + [xs[n]] == xs;
    }
  }

  /** The loop of `ObjectDetectionLabelLoader.load` and
      `VisualRelationshipLabelLoader.load` over a payload's lines. */
  method DecodeLines<T>(payload: string, parse: string -> Result<T>) returns (r: Result<seq<T>>)
    ensures r == ParseEach(SplitLines(payload), parse)
  {
    var lines := SplitLines(payload);
    var data: seq<T> := [];
    var i := 0;
    while i < |lines|
      invariant 0 <= i <= |lines|
      invariant ParseEach(lines[..i], parse) == Ok(data)
    {
      assert lines[..i + 1][..i] == lines[..i];
      var x := parse(lines[i]);
      if x.Err? {
        ParseEachFailsEarly(lines, i + 1, parse);
        return Err(x.error);
      }
      data := data + [x.value];
      i := i + 1;
    }
    assert lines[..i] == lines;
    return Ok(data);
  }

  /** A detection payload decoded: one box per line. */
  function ParseBoxes(payload: string): Result<seq<Box>>
  {
    ParseEach(SplitLines(payload), ParseBoxLine)
  }

  /** A relationship payload decoded: one relationship per line. */
  function ParseRelations(payload: string): Result<seq<Relation>>
  {
    ParseEach(SplitLines(payload), ParseRelationLine)
  }
}
