/** `DatasetTypeDetector.detect`: the dataset kind sniffed from the manifest's
    first line and, unless its label field looks like a list of ids, from the
    first line of the payload that field names. */
module KindDetection {
  import opened Wrappers
  import opened Strings
  import opened Files
  import opened FileReading
  import opened LabelCodecs

  /** The three dataset kinds, by the type name the source uses for each. */
  datatype Kind = ImageClassification | ObjectDetection | VisualRelationship
  {
    function TypeName(): string
    {
      match this
      case ImageClassification => "image_classification"
      case ObjectDetection => "object_detection"
      case VisualRelationship => "visual_relationship"
    }
  }

  /** `re.match(r'[0-9,]+', field)`: anchored at the start only, so the first
      character alone decides. */
  predicate LooksLikeIds(field: string)
  {
    field != [] && (IsDigit(field[0]) || field[0] == ',')
  }

  /** The kind of the first payload line's field count: 5 is detection, 11 is
      relationship, anything else a RuntimeError; an empty payload has no
      first line (IndexError). */
  function PayloadKind(payload: string): (r: Result<Kind>)
    ensures r.Ok? ==> r.value != ImageClassification
    ensures SplitLines(payload) == [] ==> r == Err(IndexError)
    ensures SplitLines(payload) != [] ==>
      (r == Ok(ObjectDetection) <==> |Tokens(SplitLines(payload)[0])| == 5) &&
      (r == Ok(VisualRelationship) <==> |Tokens(SplitLines(payload)[0])| == 11) &&
      (r.Err? <==> r == Err(RuntimeError))
  {
    var lines := SplitLines(payload);
    if lines == [] then Err(IndexError)
    else
      var n := |Tokens(lines[0])|;
      if n == 5 then Ok(ObjectDetection)
      else if n == 11 then Ok(VisualRelationship)
      else Err(RuntimeError)
  }

  /** `detect(main_txt, directory)`, reading the payload through a fresh
      reader in text mode. */
  function Detect(mainTxt: string, disk: Disk, directory: string): (r: Result<Kind>)
    ensures SplitLines(mainTxt) == [] ==> r == Err(IndexError)
    ensures SplitLines(mainTxt) != [] && |Tokens(SplitLines(mainTxt)[0])| < 2 ==> r == Err(IndexError)
    ensures SplitLines(mainTxt) != [] && |Tokens(SplitLines(mainTxt)[0])| >= 2 ==>
      (r == Ok(ImageClassification) <==> LooksLikeIds(Tokens(SplitLines(mainTxt)[0])[1]))
  {
    var lines := SplitLines(mainTxt);
    if lines == [] then Err(IndexError)
    else
      var fields := Tokens(lines[0]);
      if |fields| < 2 then Err(IndexError)
      else if LooksLikeIds(fields[1]) then Ok(ImageClassification)
      else
        match ReadSpec(disk, directory, fields[1], "r")
        case Err(e) => Err(e)
        case Ok(content) => PayloadKind(content.data)
  }

  /** Only the first manifest line matters: lines after it never change the
      answer. */
  lemma DetectFirstLineOnly(first: string, rest: seq<string>, disk: Disk, directory: string)
    requires NoLineBreak(first)
    ensures Detect(first + "\n" + Terminated(rest), disk, directory) == Detect(first + "\n", disk, directory)
  {
    var a, b := first + "\n" + Terminated(rest), first + "\n";
    SplitLinesStep(first, Terminated(rest));
    assert b == first + "\n" + [];
    SplitLinesStep(first, []);
    assert SplitLines(a)[0] == first == SplitLines(b)[0];
    SameFirstLine(a, b, disk, directory);
  }

  /** Two manifests with the same first line are detected alike. */
  lemma SameFirstLine(a: string, b: string, disk: Disk, directory: string)
    requires SplitLines(a) != [] && SplitLines(b) != [] && SplitLines(a)[0] == SplitLines(b)[0]
    ensures Detect(a, disk, directory) == Detect(b, disk, directory)
  {
  }

  /** A detection payload whose first box line was written by the encoder is
      detected as detection; an empty one is an IndexError. */
  lemma PayloadKindOfEncodedBoxes(boxes: seq<Box>)
    ensures PayloadKind(EncodeBoxes(boxes)) == if boxes == [] then Err(IndexError) else Ok(ObjectDetection)
  {
    BoxPayloadLines(boxes);
    if boxes != [] {
      TokensOfEncodedBox(boxes[0]);
    }
  }
}
