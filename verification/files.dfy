/** The environment the core reads and writes, reduced to values: plain files
    by path, zip archives by path (each a map from entry name to the entry's
    contents), and the image decoder's answer for each image's bytes. A
    file's bytes and its UTF-8 text are the same value here. */
module Files {
  import opened Wrappers
  import opened Strings

  datatype Disk = Disk(files: map<string, string>, archives: map<string, map<string, string>>)
  {
    /** `Path.exists()`. */
    predicate Exists(path: string)
    {
      path in files || path in archives
    }

    /** `Path.write_text(text)`: the path now holds a plain file. */
    function WriteText(path: string, text: string): Disk
    {
      Disk(files[path := text], archives - {path})
    }

    /** Closing a `zipfile.ZipFile(path, mode='w')`: the path now holds an
        archive with exactly these entries. */
    function WriteArchive(path: string, entries: map<string, string>): Disk
    {
      Disk(files - {path}, archives[path := entries])
    }
  }

  /** pathlib's `directory / name` for a relative name: the current directory
      ("" or ".") adds no prefix. */
  function PathJoin(directory: string, name: string): string
  {
    if directory == "" || directory == "." then name else directory + "/" + name
  }

  /** The decoded size (width, height) the image library reports for each
      image's bytes; bytes it cannot decode are absent. */
  type Decoder = map<string, (int, int)>

  // ------------------------------------------------ numbered fresh names

  /** The i-th numbered variant of a name: `f'{stem}{i}{suffix}'`. */
  function Candidate(stem: string, suffix: string, i: nat): string
  {
    stem + IntToString(i) + suffix
  }

  /** The first of the candidates numbered i .. 99 that names nothing on the
      disk; RuntimeError when all are taken. */
  function FirstFree(disk: Disk, directory: string, stem: string, suffix: string, i: nat): (r: Result<string>)
    requires i <= 100
    ensures r.Err? ==> r.error == RuntimeError
    ensures r.Ok? ==> !disk.Exists(PathJoin(directory, r.value))
    decreases 100 - i
  {
    if i == 100 then Err(RuntimeError)
    else
      var name := Candidate(stem, suffix, i);
      if !disk.Exists(PathJoin(directory, name)) then Ok(name)
      else FirstFree(disk, directory, stem, suffix, i + 1)
  }

  /** Whether candidate j names an existing file. */
  predicate Taken(disk: Disk, directory: string, stem: string, suffix: string, j: nat)
  {
    disk.Exists(PathJoin(directory, Candidate(stem, suffix, j)))
  }

  /** The search from i on fails exactly when every candidate from i on is
      taken. */
  lemma {:induction false} FirstFreeFails(disk: Disk, directory: string, stem: string, suffix: string, i: nat)
    requires i <= 100
    ensures FirstFree(disk, directory, stem, suffix, i).Err? <==> forall j :: i <= j < 100 ==> Taken(disk, directory, stem, suffix, j)
    decreases 100 - i
  {
    if i < 100 {
      if Taken(disk, directory, stem, suffix, i) {
        FirstFreeFails(disk, directory, stem, suffix, i + 1);
        assert FirstFree(disk, directory, stem, suffix, i) == FirstFree(disk, directory, stem, suffix, i + 1);
      } else {
        assert FirstFree(disk, directory, stem, suffix, i).Ok?;
      }
    }
  }

  /** A successful search from i on returns the first free candidate. */
  lemma {:induction false} FirstFreeFirst(disk: Disk, directory: string, stem: string, suffix: string, i: nat)
    requires i <= 100
    ensures var r := FirstFree(disk, directory, stem, suffix, i);
      r.Ok? ==> exists k :: i <= k < 100 && r.value == Candidate(stem, suffix, k) && !Taken(disk, directory, stem, suffix, k)
                            && forall j :: i <= j < k ==> Taken(disk, directory, stem, suffix, j)
    decreases 100 - i
  {
    if i < 100 {
      if Taken(disk, directory, stem, suffix, i) {
        FirstFreeFirst(disk, directory, stem, suffix, i + 1);
      } else {
        assert FirstFree(disk, directory, stem, suffix, i).value == Candidate(stem, suffix, i);
      }
    }
  }

  /** Numbering a name made of single fields without '@' keeps it so. */
  lemma CandidateChars(stem: string, suffix: string, k: nat)
    requires NoSpace(stem) && NoSpace(suffix) && '@' !in stem && '@' !in suffix
    ensures var n := Candidate(stem, suffix, k); n != [] && NoSpace(n) && '@' !in n
  {
    var d := IntToString(k);
    var n := Candidate(stem, suffix, k);
    forall j | 0 <= j < |n|
      ensures !IsSpace(n[j]) && n[j] != '@'
    {
      if j < |stem| {
        assert n[j] == stem[j];
      } else if j < |stem| + |d| {
        assert n[j] == d[j - |stem|];
      } else {
        assert n[j] == suffix[j - |stem| - |d|];
      }
    }
  }
}
