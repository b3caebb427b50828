/** `_find_referenced_files` of the download command: the set of files a
    manifest names, so that they can be fetched next to it. Each line is an
    image field and a label field; the image field always names a file (the
    archive, when it has an '@'), the label field only when it has a '.'
    (a classification line's id list names none). */
module Download {
  import opened Wrappers
  import opened Strings
  import opened Files

  /** `s.split('@')[0]`: the text before the first '@'. */
  function BeforeAt(s: string): (r: string)
    ensures '@' !in r
  {
    SplitOn(s, '@')[0]
  }

  /** BeforeAt gives a prefix of its input, the whole of it when there is no
      '@', and otherwise stops just before the first '@'. */
  lemma BeforeAtPrefix(s: string)
    ensures |BeforeAt(s)| <= |s| && BeforeAt(s) == s[..|BeforeAt(s)|]
    ensures '@' !in s ==> BeforeAt(s) == s
    ensures '@' in s ==> |BeforeAt(s)| < |s| && s[|BeforeAt(s)|] == '@'
  {
    SplitOnHead(s, '@');
  }

  /** The files named by a line's fields once they unpack into an image
      field and a label field; any other number of fields fails to unpack. */
  function RefsOf(fields: seq<string>): (r: Result<set<string>>)
    ensures r.Ok? <==> |fields| == 2
    ensures r.Err? ==> r.error == ValueError
    ensures r.Ok? ==> BeforeAt(fields[0]) in r.value
    ensures r.Ok? ==> forall x :: x in r.value <==>
      x == BeforeAt(fields[0]) || ('.' in fields[1] && x == BeforeAt(fields[1]))
  {
    if |fields| != 2 then Err(ValueError)
    else
      var image, labels := fields[0], fields[1];
      Ok({BeforeAt(image)} + if '.' in labels then {BeforeAt(labels)} else {})
  }

  /** The files one manifest line names: `line.strip().split()` unpacked. */
  function LineRefs(line: string): (r: Result<set<string>>)
    ensures r == RefsOf(Fields(Strip(line)))
  {
    RefsOf(Fields(Strip(line)))
  }

  /** A scan over the lines with the given per-line result: the first line
      that fails ends it with that line's error; otherwise the union of what
      the lines give. */
  function UnionOf<T>(lines: seq<T>, refs: T -> Result<set<string>>): (r: Result<set<string>>)
    ensures r.Ok? <==> forall i :: 0 <= i < |lines| ==> refs(lines[i]).Ok?
    ensures r.Err? ==> exists i :: 0 <= i < |lines| && refs(lines[i]) == Err(r.error)
  {
    if lines == [] then Ok({})
    else
      var n := |lines| - 1;
      assert forall i :: 0 <= i < n ==> lines[..n][i] == lines[i];
      match UnionOf(lines[..n], refs)
      case Err(e) => Err(e)
      case Ok(files) =>
        match refs(lines[n])
        case Err(e) => Err(e)
        case Ok(more) => Ok(files + more)
  }

  /** One more line adds what it gives. */
  lemma UnionStep<T>(lines: seq<T>, refs: T -> Result<set<string>>, i: nat)
    requires i < |lines| && UnionOf(lines[..i], refs).Ok? && refs(lines[i]).Ok?
    ensures UnionOf(lines[..i + 1], refs) == Ok(UnionOf(lines[..i], refs).value + refs(lines[i]).value)
  {
    assert lines[..i + 1][..i] == lines[..i];
  }

  /** An element is in the union exactly when some line gives it. */
  lemma {:induction false} UnionMembers<T>(lines: seq<T>, refs: T -> Result<set<string>>, x: string)
    requires UnionOf(lines, refs).Ok?
    ensures x in UnionOf(lines, refs).value <==> exists i :: 0 <= i < |lines| && x in refs(lines[i]).value
  {
    if lines != [] {
      var n := |lines| - 1;
      UnionMembers(lines[..n], refs, x);
      if exists i :: 0 <= i < n && x in refs(lines[..n][i]).value {
        var i :| 0 <= i < n && x in refs(lines[..n][i]).value;
        assert lines[..n][i] == lines[i];
      }
      if exists i :: 0 <= i < |lines| && x in refs(lines[i]).value {
        var i :| 0 <= i < |lines| && x in refs(lines[i]).value;
        if i < n {
          assert lines[..n][i] == lines[i];
        }
      }
    }
  }

  /** Scanning two runs of lines one after the other gives the union of what
      each gives. */
  lemma {:induction false} UnionAppend<T>(a: seq<T>, b: seq<T>, refs: T -> Result<set<string>>)
    ensures UnionOf(a + b, refs).Ok? <==> UnionOf(a, refs).Ok? && UnionOf(b, refs).Ok?
    ensures UnionOf(a + b, refs).Ok? ==>
      UnionOf(a + b, refs).value == UnionOf(a, refs).value + UnionOf(b, refs).value
  {
    if b == [] {
      assert a + b == a;
    } else {
      var n := |b| - 1;
      UnionAppend(a, b[..n], refs);
      assert (a + b)[..|a + b| - 1] == a + b[..n];
      assert (a + b)[|a + b| - 1] == b[n];
    }
  }

  /** The loop over the manifest lines: the first line that does not unpack
      ends it with a ValueError; otherwise the union of what the lines
      name. */
  function ReferencedFiles(lines: seq<string>): (r: Result<set<string>>)
    ensures r.Ok? <==> forall i :: 0 <= i < |lines| ==> |Fields(Strip(lines[i]))| == 2
    ensures r.Err? ==> r.error == ValueError
  {
    UnionOf(lines, LineRefs)
  }

  /** A file is referenced exactly when some line names it: as its image
      field before any '@', or as its label field before any '@' when that
      field has a '.'. */
  lemma ReferencedMembers(lines: seq<string>, x: string)
    requires ReferencedFiles(lines).Ok?
    ensures x in ReferencedFiles(lines).value <==>
      exists i :: 0 <= i < |lines| && (x == BeforeAt(Fields(Strip(lines[i]))[0]) || ('.' in Fields(Strip(lines[i]))[1] && x == BeforeAt(Fields(Strip(lines[i]))[1])))
  {
    UnionMembers(lines, LineRefs, x);
  }

  /** The result is a set: reading two manifests one after the other names
      the union of what each names, so a file named on several lines, or in
      both, is there once. */
  lemma ReferencedAppend(a: seq<string>, b: seq<string>)
    ensures ReferencedFiles(a + b).Ok? <==> ReferencedFiles(a).Ok? && ReferencedFiles(b).Ok?
    ensures ReferencedFiles(a + b).Ok? ==>
      ReferencedFiles(a + b).value == ReferencedFiles(a).value + ReferencedFiles(b).value
  {
    UnionAppend(a, b, LineRefs);
  }

  /** A line as the writers produce it, an image field, one space, a label
      field and a newline, unpacks into those two fields. */
  lemma WrittenLineFields(image: string, labels: string)
    requires image != [] && NoSpace(image) && labels != [] && NoSpace(labels)
    ensures Fields(Strip(image + " " + labels + "\n")) == [image, labels]
  {
    var body := image + " " + labels;
    var s := body + "\n";
    assert StripLeft(s) == s;
    assert s[..|s| - 1] == body;
    assert StripRight(body) == body;
    assert Join(" ", [image, labels]) == body;
    FieldsOfJoin([image, labels]);
  }

  /** Such a line names the image's file and, when the label field has a
      '.', the label file; an id list names nothing more. */
  lemma WrittenLineRefs(image: string, labels: string)
    requires image != [] && NoSpace(image) && labels != [] && NoSpace(labels)
    ensures LineRefs(image + " " + labels + "\n") ==
      Ok({BeforeAt(image)} + if '.' in labels then {BeforeAt(labels)} else {})
  {
    WrittenLineFields(image, labels);
  }

  /** The lines `for line in f` yields for a file's text whose only line
      end is '\n': split after each '\n', with no empty line after a final
      newline. The line ends are not kept; `strip()` would remove them.
      Text-mode iteration also ends a line at a lone '\r' and at "\r\n";
      this model keeps a '\r' inside the line. */
  function FileLines(text: string): (r: seq<string>)
    ensures forall i :: 0 <= i < |r| ==> '\n' !in r[i]
    ensures text == [] ==> r == []
  {
    var parts := SplitOn(text, '\n');
    if parts[|parts| - 1] == [] then parts[..|parts| - 1] else parts
  }

  /** `_find_referenced_files(main_txt_filepath)`: a missing manifest fails
      with FileNotFoundError at `open`. */
  function FindReferencedFiles(disk: Disk, path: string): (r: Result<set<string>>)
    ensures path !in disk.files ==> r == Err(FileNotFoundError)
    ensures path in disk.files ==> r == ReferencedFiles(FileLines(disk.files[path]))
  {
    if path !in disk.files then Err(FileNotFoundError)
    else ReferencedFiles(FileLines(disk.files[path]))
  }

  /** The loop of `_find_referenced_files`, adding to `referenced_files`. */
  method FindReferencedFilesLoop(lines: seq<string>) returns (r: Result<set<string>>)
    ensures r == ReferencedFiles(lines)
  {
    var referenced: set<string> := {};
    for i := 0 to |lines|
      invariant UnionOf(lines[..i], LineRefs) == Ok(referenced)
    {
      var fields := Fields(Strip(lines[i]));
      if |fields| != 2 {
        assert LineRefs(lines[i]).Err?;
        return Err(ValueError);
      }
      assert LineRefs(lines[i]) == RefsOf(fields);
      ghost var before := referenced;
      var image, labels := fields[0], fields[1];
      referenced := referenced + {BeforeAt(image)};
      if '.' in labels {
        referenced := referenced + {BeforeAt(labels)};
      }
      assert referenced == before + RefsOf(fields).value;
      UnionStep(lines, LineRefs, i);
    }
    assert lines[..|lines|] == lines;
    r := Ok(referenced);
  }
}
