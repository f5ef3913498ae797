/**
 * The part of the filesystem the thumbnail lookup observes, as values: canonical paths,
 * directory listings, and a snapshot that says what each path is.
 */
module FileSystem {

  /** An absolute, canonical path, as its components below the root. */
  datatype Path = Path(segments: seq<string>)

  /** `p / name` */
  function Join(p: Path, name: string): Path {
    Path(p.segments + [name])
  }

  /** `str(p)`: `/` for the root, otherwise `/a/b/c`. */
  function Render(p: Path): string {
    if p.segments == [] then "/" else RenderSegments(p.segments)
  }

  function RenderSegments(segments: seq<string>): string {
    if segments == [] then "" else "/" + segments[0] + RenderSegments(segments[1..])
  }

  /** One child yielded by `iterdir()`: its name and what `is_file()` answers for it. */
  datatype DirEntry = DirEntry(name: string, isFile: bool)

  /**
   * What a path is at the time of the scan: nothing (`exists()` is false), something other
   * than a directory (`iterdir()` raises NotADirectoryError), or a directory whose children
   * `iterdir()` yields in `entries`' order.
   */
  datatype PathState = Absent | NonDirectory | Directory(entries: seq<DirEntry>)

  /** The filesystem, read-only for the duration of one scan. */
  type Snapshot = Path -> PathState

  /** `set(i.name for i in d.iterdir())` */
  function Names(entries: seq<DirEntry>): set<string> {
    set e | e in entries :: e.name
  }

  /** The names of the entries that are regular files. */
  function RegularFileNames(entries: seq<DirEntry>): set<string> {
    set e | e in entries && e.isFile :: e.name
  }

  /** The names of the entries that are regular files, in listing order. */
  function FileNames(entries: seq<DirEntry>): seq<string> {
    if entries == [] then []
    else
      var last := entries[|entries| - 1];
      FileNames(entries[..|entries| - 1]) + if last.isFile then [last.name] else []
  }

  /** No two entries share a name, as in any real directory listing. */
  ghost predicate UniqueNames(entries: seq<DirEntry>) {
    forall i, j :: 0 <= i < j < |entries| ==> entries[i].name != entries[j].name
  }
}
