/** `FileReader`: reads `archive@entry` compound paths and plain paths relative
    to a base directory, opening each archive once and keeping the handle. */
module FileReading {
  import opened Wrappers
  import opened Strings
  import opened Files

  /** What `read` returns: decoded text in mode 'r', raw bytes in mode 'rb'. */
  datatype Content = Text(data: string) | Raw(data: string)

  function Wrap(mode: string, data: string): Content
  {
    if mode == "r" then Text(data) else Raw(data)
  }

  /** `filepath.split('@')` unpacked into exactly two names. */
  function SplitCompound(path: string): Result<(string, string)>
  {
    var parts := SplitOn(path, '@');
    if |parts| != 2 then Err(ValueError) else Ok((parts[0], parts[1]))
  }

  /** The split succeeds exactly when the path holds one '@'; the two names
      then contain no '@' and put back together give the path. */
  lemma SplitCompoundSpec(path: string)
    ensures SplitCompound(path).Ok? <==> multiset(path)['@'] == 1
    ensures SplitCompound(path).Ok? ==>
      var (archive, entry) := SplitCompound(path).value;
      '@' !in archive && '@' !in entry && archive + "@" + entry == path
  {
    SplitOnCount(path, '@');
    SplitOnJoin(path, '@');
    var parts := SplitOn(path, '@');
    if |parts| == 2 {
      assert parts[1..] == [parts[1]];
    }
  }

  /** What one `read` call returns, whatever the reader has cached: the cache
      changes when an archive is opened, never what is read. */
  function ReadSpec(disk: Disk, base: string, path: string, mode: string): (r: Result<Content>)
    ensures mode != "r" && mode != "rb" ==> r == Err(AssertionError)
    ensures r.Ok? && mode == "r" ==> r.value.Text?
    ensures r.Ok? && mode == "rb" ==> r.value.Raw?
  {
    if mode != "r" && mode != "rb" then Err(AssertionError)
    else if '@' in path then
      match SplitCompound(path)
      case Err(e) => Err(e)
      case Ok((archive, entry)) =>
        var archivePath := PathJoin(base, archive);
        if archivePath !in disk.archives then
          Err(if archivePath in disk.files then BadZipFile else FileNotFoundError)
        else if entry !in disk.archives[archivePath] then Err(KeyError)
        else Ok(Wrap(mode, disk.archives[archivePath][entry]))
    else
      var filePath := PathJoin(base, path);
      if filePath in disk.files then Ok(Wrap(mode, disk.files[filePath])) else Err(FileNotFoundError)
  }

  /** The archive a `read` call opens (and caches), if any: the first read
      that reaches an archive not yet cached, when the archive can be opened. */
  function ArchiveOpenedBy(disk: Disk, base: string, cached: set<string>, path: string, mode: string): Option<string>
  {
    if (mode == "r" || mode == "rb") && '@' in path && SplitCompound(path).Ok? then
      var archive := SplitCompound(path).value.0;
      if archive !in cached && PathJoin(base, archive) in disk.archives then Some(archive) else None
    else None
  }

  class FileReader {
    const disk: Disk
    const baseDir: string
    /** Opened archives by the name they were read under. */
    var zipObjects: map<string, map<string, string>>
    /** Every archive opened by this reader, in opening order. */
    ghost var openLog: seq<string>

    ghost predicate Valid()
      reads this
    {
      && (forall a :: a in zipObjects ==> PathJoin(baseDir, a) in disk.archives && zipObjects[a] == disk.archives[PathJoin(baseDir, a)])
      && (forall a :: a in zipObjects <==> a in openLog)
      && (forall i, j :: 0 <= i < j < |openLog| ==> openLog[i] != openLog[j])
    }

    constructor (disk: Disk, baseDir: string)
      ensures Valid()
      ensures this.disk == disk && this.baseDir == baseDir
      ensures zipObjects == map[] && openLog == []
    {
      this.disk := disk;
      this.baseDir := baseDir;
      zipObjects := map[];
      openLog := [];
    }

    /** `FileReader.read(filepath, mode)`. */
    method Read(path: string, mode: string) returns (r: Result<Content>)
      requires Valid()
      modifies this
      ensures Valid()
      ensures r == ReadSpec(disk, baseDir, path, mode)
      ensures var a := ArchiveOpenedBy(disk, baseDir, old(zipObjects).Keys, path, mode);
        && (a.None? ==> zipObjects == old(zipObjects) && openLog == old(openLog))
        && (a.Some? ==> zipObjects == old(zipObjects)[a.value := disk.archives[PathJoin(baseDir, a.value)]]
                        && openLog == old(openLog) + [a.value])
      ensures forall a :: a in old(zipObjects) ==> a in zipObjects && zipObjects[a] == old(zipObjects)[a]
      ensures '@' !in path ==> zipObjects == old(zipObjects)
    {
      if mode != "r" && mode != "rb" {
        return Err(AssertionError);
      }
      if '@' in path {
        var split := SplitCompound(path);
        if split.Err? {
          return Err(split.error);
        }
        var (archive, entry) := split.value;
        if archive !in zipObjects {
          var archivePath := PathJoin(baseDir, archive);
          if archivePath !in disk.archives {
            return Err(if archivePath in disk.files then BadZipFile else FileNotFoundError);
          }
          zipObjects := zipObjects[archive := disk.archives[archivePath]];
          openLog := openLog + [archive];
        }
        var handle := zipObjects[archive];
        if entry !in handle {
          return Err(KeyError);
        }
        return Ok(Wrap(mode, handle[entry]));
      } else {
        var filePath := PathJoin(baseDir, path);
        if filePath !in disk.files {
          return Err(FileNotFoundError);
        }
        return Ok(Wrap(mode, disk.files[filePath]));
      }
    }
  }

  /** Reading the same compound path twice opens its archive at most once:
      after the first read the archive is cached, so the second opens nothing. */
  lemma SecondReadOpensNothing(disk: Disk, base: string, cached: set<string>, path: string, mode: string)
    requires ArchiveOpenedBy(disk, base, cached, path, mode).Some?
    ensures ArchiveOpenedBy(disk, base, cached + {ArchiveOpenedBy(disk, base, cached, path, mode).value}, path, mode).None?
  {
  }
}
