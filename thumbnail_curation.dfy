/**
 * The thumbnail lookup: for every regular file in a directory, the thumbnail that the
 * freedesktop.org Thumbnail Managing Standard says a file manager has cached for it, if any.
 * A file's thumbnail is named by the MD5 hex digest of the UTF-8 bytes of the file's URI,
 * followed by ".png", and lives in the `normal` or the `large` tier under
 * `<cache>/thumbnails/`; `normal` is looked up first.
 */
module ThumbnailCuration {
  import opened Wrappers
  import opened PyDicts
  import opened FileSystem
  import Utf8

  predicate IsHexDigit(c: char) {
    '0' <= c <= '9' || 'a' <= c <= 'f'
  }

  /** What `hashlib.md5(...).hexdigest()` returns: 32 lower-case hexadecimal digits. */
  type HexDigest = s: string | |s| == 32 && forall i :: 0 <= i < |s| ==> IsHexDigit(s[i])
    witness "00000000000000000000000000000000"

  /**
   * The two library calls the lookup depends on, left abstract: `Path.as_uri()` (the
   * percent-encoded `file://` URI of a path) and the MD5 hex digest of a byte string.
   */
  datatype Hashing = Hashing(asUri: Path -> string, md5HexDigest: seq<bv8> -> HexDigest)

  /** The exceptions the lookup raises. */
  datatype Error = FileNotFoundError(path: Path) | NotADirectoryError(path: Path)

  /** The mapping the lookup returns: file name to thumbnail path, or None. */
  type ThumbnailDict = Dict<string, Option<string>>

  /** The thumbnail file name the standard prescribes for the file at `filePath`. */
  function ExpectedThumbnailName(h: Hashing, filePath: Path): string {
    h.md5HexDigest(Utf8.Encode(h.asUri(filePath))) + ".png"
  }

  /**
   * A thumbnail name is 32 lower-case hexadecimal digits, the MD5 digest of the UTF-8 bytes
   * of the file's URI, followed by ".png".
   */
  lemma ThumbnailNameFormat(h: Hashing, filePath: Path)
    ensures var name := ExpectedThumbnailName(h, filePath);
      && |name| == 36 && name[32..] == ".png"
      && name[..32] == h.md5HexDigest(Utf8.Encode(h.asUri(filePath)))
      && forall i :: 0 <= i < 32 ==> IsHexDigit(name[i])
  {
  }

  function NormalDir(cacheDir: Path): Path {
    Join(Join(cacheDir, "thumbnails"), "normal")
  }

  function LargeDir(cacheDir: Path): Path {
    Join(Join(cacheDir, "thumbnails"), "large")
  }

  /** The names a tier directory holds; an absent tier holds none. */
  function TierNames(state: PathState): set<string> {
    if state.Directory? then Names(state.entries) else {}
  }

  /** Everything one scan needs besides the listing of the files directory. */
  datatype Lookup = Lookup(filesDir: Path, cacheDir: Path, hashing: Hashing,
                           normalNames: set<string>, largeNames: set<string>)
  {
    /** The value recorded for the regular file `fileName` of `filesDir`. */
    function ThumbnailFor(fileName: string): (r: Option<string>)
      ensures var t := ExpectedThumbnailName(hashing, Join(filesDir, fileName));
        && (r.None? <==> t !in normalNames && t !in largeNames)
        && (r.Some? ==>
              || (t in normalNames && r.value == Render(Join(NormalDir(cacheDir), t)))
              || (t in largeNames && r.value == Render(Join(LargeDir(cacheDir), t))))
    {
      var t := ExpectedThumbnailName(hashing, Join(filesDir, fileName));
      if t in normalNames then Some(Render(Join(NormalDir(cacheDir), t)))
      else if t in largeNames then Some(Render(Join(LargeDir(cacheDir), t)))
      else None
    }
  }

  /** The lookup a scan of `fs` performs, with both tier listings taken once. */
  function TierLookup(fs: Snapshot, filesDir: Path, cacheDir: Path, h: Hashing): Lookup {
    Lookup(filesDir, cacheDir, h, TierNames(fs(NormalDir(cacheDir))), TierNames(fs(LargeDir(cacheDir))))
  }

  /** The mapping after the loop has visited `entries`, in order. */
  function ResolveEntries(entries: seq<DirEntry>, lookup: Lookup): (d: ThumbnailDict)
    ensures d.Valid()
  {
    if entries == [] then EmptyDict()
    else
      var d := ResolveEntries(entries[..|entries| - 1], lookup);
      var e := entries[|entries| - 1];
      if e.isFile then d.Set(e.name, lookup.ThumbnailFor(e.name)) else d
  }

  /** What the lookup returns or raises for the files directory and cache directory given. */
  function Resolve(fs: Snapshot, filesDir: Path, cacheDir: Path, h: Hashing): (r: Result<ThumbnailDict, Error>)
    ensures fs(filesDir).Absent? ==> r == Failure(FileNotFoundError(filesDir))
    ensures r.Failure? <==>
      !fs(filesDir).Directory? || fs(NormalDir(cacheDir)).NonDirectory? || fs(LargeDir(cacheDir)).NonDirectory?
    ensures r.Failure? && fs(filesDir).Directory? ==>
      r.error == NotADirectoryError(NormalDir(cacheDir)) || r.error == NotADirectoryError(LargeDir(cacheDir))
  {
    if fs(filesDir).Absent? then Failure(FileNotFoundError(filesDir))
    else if fs(NormalDir(cacheDir)).NonDirectory? then Failure(NotADirectoryError(NormalDir(cacheDir)))
    else if fs(LargeDir(cacheDir)).NonDirectory? then Failure(NotADirectoryError(LargeDir(cacheDir)))
    else if fs(filesDir).NonDirectory? then Failure(NotADirectoryError(filesDir))
    else Success(ResolveEntries(fs(filesDir).entries, TierLookup(fs, filesDir, cacheDir, h)))
  }

  /**
   * `get_file_thumbnail_dict`. The paths are taken as already expanded and resolved; `fs`
   * answers `exists()`, `iterdir()` and `is_file()`.
   */
  method GetFileThumbnailDict(fs: Snapshot, filesDir: Path, cacheDir: Path, h: Hashing)
    returns (r: Result<ThumbnailDict, Error>)
    ensures r == Resolve(fs, filesDir, cacheDir, h)
    ensures fs(filesDir).Absent? ==> r == Failure(FileNotFoundError(filesDir))
    ensures r.Failure? <==>
      !fs(filesDir).Directory? || fs(NormalDir(cacheDir)).NonDirectory? || fs(LargeDir(cacheDir)).NonDirectory?
    ensures r.Success? ==> r.value.Valid() && r.value.values.Keys == RegularFileNames(fs(filesDir).entries)
    ensures r.Success? && UniqueNames(fs(filesDir).entries) ==> r.value.keys == FileNames(fs(filesDir).entries)
  {
    var fileThumbnailDict: ThumbnailDict := EmptyDict();
    if fs(filesDir).Absent? {
      return Failure(FileNotFoundError(filesDir));
    }
    var normalDir := NormalDir(cacheDir);
    var largeDir := LargeDir(cacheDir);
    if fs(normalDir).NonDirectory? {
      return Failure(NotADirectoryError(normalDir));
    }
    var normalThumbnails := TierNames(fs(normalDir));
    if fs(largeDir).NonDirectory? {
      return Failure(NotADirectoryError(largeDir));
    }
    var largeThumbnails := TierNames(fs(largeDir));
    if fs(filesDir).NonDirectory? {
      return Failure(NotADirectoryError(filesDir));
    }
    var entries := fs(filesDir).entries;
    ghost var lookup := TierLookup(fs, filesDir, cacheDir, h);
    var i := 0;
    while i < |entries|
      invariant i <= |entries|
      invariant fileThumbnailDict == ResolveEntries(entries[..i], lookup)
    {
      var filePath := entries[i];
      assert entries[..i + 1][..i] == entries[..i];
      i := i + 1;
      if !filePath.isFile {
        continue;
      }
      var expectedThumbnailName := ExpectedThumbnailName(h, Join(filesDir, filePath.name));
      if expectedThumbnailName in normalThumbnails {
        fileThumbnailDict := fileThumbnailDict.Set(filePath.name, Some(Render(Join(normalDir, expectedThumbnailName))));
      } else if expectedThumbnailName in largeThumbnails {
        fileThumbnailDict := fileThumbnailDict.Set(filePath.name, Some(Render(Join(largeDir, expectedThumbnailName))));
      } else {
        fileThumbnailDict := fileThumbnailDict.Set(filePath.name, None);
      }
    }
    assert entries[..i] == entries;
    ResolvedKeys(entries, lookup);
    if UniqueNames(entries) {
      ResolvedOrder(entries, lookup);
    }
    r := Success(fileThumbnailDict);
  }

  /** The keys are exactly the names of the regular files; other entries never appear. */
  lemma {:induction false} ResolvedKeys(entries: seq<DirEntry>, lookup: Lookup)
    ensures ResolveEntries(entries, lookup).values.Keys == RegularFileNames(entries)
  {
    if entries != [] {
      var init, e := entries[..|entries| - 1], entries[|entries| - 1];
      ResolvedKeys(init, lookup);
      assert entries == init + [e];
      assert RegularFileNames(entries) == RegularFileNames(init) + if e.isFile then {e.name} else {};
    }
  }

  /** With the unique names of a real directory, the keys follow the listing order. */
  lemma {:induction false} ResolvedOrder(entries: seq<DirEntry>, lookup: Lookup)
    requires UniqueNames(entries)
    ensures ResolveEntries(entries, lookup).keys == FileNames(entries)
  {
    if entries != [] {
      var init, e := entries[..|entries| - 1], entries[|entries| - 1];
      ResolvedOrder(init, lookup);
      ResolvedKeys(init, lookup);
    }
  }

  /** Each key's value is the thumbnail looked up for that file name. */
  lemma {:induction false} ResolvedValues(entries: seq<DirEntry>, lookup: Lookup, fileName: string)
    requires fileName in ResolveEntries(entries, lookup).values
    ensures ResolveEntries(entries, lookup).values[fileName] == lookup.ThumbnailFor(fileName)
  {
    var init, e := entries[..|entries| - 1], entries[|entries| - 1];
    if !(e.isFile && e.name == fileName) {
      ResolvedValues(init, lookup, fileName);
    }
  }

  /**
   * A file whose expected thumbnail is listed in `normal` gets the `normal` path, whether or
   * not `large` lists it too.
   */
  lemma NormalTierFirst(fs: Snapshot, filesDir: Path, cacheDir: Path, h: Hashing, fileName: string)
    requires Resolve(fs, filesDir, cacheDir, h).Success?
    requires fileName in RegularFileNames(fs(filesDir).entries)
    requires ExpectedThumbnailName(h, Join(filesDir, fileName)) in TierNames(fs(NormalDir(cacheDir)))
    ensures fileName in Resolve(fs, filesDir, cacheDir, h).value.values
    ensures Resolve(fs, filesDir, cacheDir, h).value.values[fileName]
         == Some(Render(Join(NormalDir(cacheDir), ExpectedThumbnailName(h, Join(filesDir, fileName)))))
  {
    ResolvedKeys(fs(filesDir).entries, TierLookup(fs, filesDir, cacheDir, h));
    ResolvedValues(fs(filesDir).entries, TierLookup(fs, filesDir, cacheDir, h), fileName);
  }

  /** A file whose expected thumbnail is missing from `normal` but listed in `large` gets the `large` path. */
  lemma LargeTierFallback(fs: Snapshot, filesDir: Path, cacheDir: Path, h: Hashing, fileName: string)
    requires Resolve(fs, filesDir, cacheDir, h).Success?
    requires fileName in RegularFileNames(fs(filesDir).entries)
    requires ExpectedThumbnailName(h, Join(filesDir, fileName)) !in TierNames(fs(NormalDir(cacheDir)))
    requires ExpectedThumbnailName(h, Join(filesDir, fileName)) in TierNames(fs(LargeDir(cacheDir)))
    ensures fileName in Resolve(fs, filesDir, cacheDir, h).value.values
    ensures Resolve(fs, filesDir, cacheDir, h).value.values[fileName]
         == Some(Render(Join(LargeDir(cacheDir), ExpectedThumbnailName(h, Join(filesDir, fileName)))))
  {
    ResolvedKeys(fs(filesDir).entries, TierLookup(fs, filesDir, cacheDir, h));
    ResolvedValues(fs(filesDir).entries, TierLookup(fs, filesDir, cacheDir, h), fileName);
  }

  /** A file whose expected thumbnail is listed in neither tier maps to None. */
  lemma MissingThumbnailIsNone(fs: Snapshot, filesDir: Path, cacheDir: Path, h: Hashing, fileName: string)
    requires Resolve(fs, filesDir, cacheDir, h).Success?
    requires fileName in RegularFileNames(fs(filesDir).entries)
    requires ExpectedThumbnailName(h, Join(filesDir, fileName)) !in TierNames(fs(NormalDir(cacheDir)))
    requires ExpectedThumbnailName(h, Join(filesDir, fileName)) !in TierNames(fs(LargeDir(cacheDir)))
    ensures fileName in Resolve(fs, filesDir, cacheDir, h).value.values
    ensures Resolve(fs, filesDir, cacheDir, h).value.values[fileName] == None
  {
    ResolvedKeys(fs(filesDir).entries, TierLookup(fs, filesDir, cacheDir, h));
    ResolvedValues(fs(filesDir).entries, TierLookup(fs, filesDir, cacheDir, h), fileName);
  }

  /**
   * Every thumbnail reported is the file's expected name inside a tier directory that
   * exists and lists that name: nothing unlisted is ever reported.
   */
  lemma ThumbnailsAreListed(fs: Snapshot, filesDir: Path, cacheDir: Path, h: Hashing, fileName: string)
    requires Resolve(fs, filesDir, cacheDir, h).Success?
    requires fileName in Resolve(fs, filesDir, cacheDir, h).value.values
    requires Resolve(fs, filesDir, cacheDir, h).value.values[fileName].Some?
    ensures var t, v := ExpectedThumbnailName(h, Join(filesDir, fileName)),
                        Resolve(fs, filesDir, cacheDir, h).value.values[fileName].value;
      || (fs(NormalDir(cacheDir)).Directory? && t in Names(fs(NormalDir(cacheDir)).entries)
          && v == Render(Join(NormalDir(cacheDir), t)))
      || (fs(LargeDir(cacheDir)).Directory? && t in Names(fs(LargeDir(cacheDir)).entries)
          && v == Render(Join(LargeDir(cacheDir), t)))
  {
    ResolvedValues(fs(filesDir).entries, TierLookup(fs, filesDir, cacheDir, h), fileName);
  }

  /** `fs` with `p` replaced by an empty directory. */
  function WithEmptyDirectory(fs: Snapshot, p: Path): Snapshot {
    q => if q == p then Directory([]) else fs(q)
  }

  /**
   * An absent tier directory is no error: the lookup behaves exactly as if the tier were an
   * empty directory.
   */
  lemma AbsentTierActsEmpty(fs: Snapshot, filesDir: Path, cacheDir: Path, h: Hashing, tierDir: Path)
    requires tierDir == NormalDir(cacheDir) || tierDir == LargeDir(cacheDir)
    requires tierDir != filesDir
    requires fs(tierDir).Absent?
    ensures Resolve(fs, filesDir, cacheDir, h) == Resolve(WithEmptyDirectory(fs, tierDir), filesDir, cacheDir, h)
  {
    var fs' := WithEmptyDirectory(fs, tierDir);
    assert Names([]) == {};
    assert TierLookup(fs, filesDir, cacheDir, h) == TierLookup(fs', filesDir, cacheDir, h);
  }
}
