/**
 * The categorisation pass: every file of the thumbnail mapping gets the classifier's answer
 * for its thumbnail, and a file without a thumbnail gets None without the classifier being
 * asked.
 */
module Orgabot {
  import opened Wrappers
  import opened PyDicts
  import opened FileSystem
  import opened ThumbnailCuration

  /** The model `OrgaBot` asks for when none is named. */
  const DefaultModel := "qwen2.5vl:7b"

  /**
   * The vision-language classifier. The model call itself is outside this model: `respond`
   * stands for the answer the model gives for a (file name, thumbnail path) pair, and
   * `calls` records every request made, in order.
   */
  class Prompter {
    const categories: seq<string>
    const model: string
    const respond: (string, string) -> string
    ghost var calls: seq<(string, string)>

    constructor (categories: seq<string>, model: string, respond: (string, string) -> string)
      ensures this.categories == categories && this.model == model && this.respond == respond
      ensures calls == []
    {
      this.categories := categories;
      this.model := model;
      this.respond := respond;
      calls := [];
    }

    /** One request to the model: it is logged, and its answer is returned unchecked. */
    method GetCategory(fileName: string, thumbnailPath: string) returns (category: string)
      modifies this
      ensures calls == old(calls) + [(fileName, thumbnailPath)]
      ensures category == respond(fileName, thumbnailPath)
    {
      calls := calls + [(fileName, thumbnailPath)];
      category := respond(fileName, thumbnailPath);
    }
  }

  /** The request `categorize_files` makes for a file: one if it has a thumbnail, none otherwise. */
  function Request(fileName: string, thumbnail: Option<string>): (r: seq<(string, string)>)
    ensures |r| <= 1
    ensures r == [] <==> thumbnail.None?
    ensures r != [] ==> r[0] == (fileName, thumbnail.value)
  {
    match thumbnail
    case None => []
    case Some(p) => [(fileName, p)]
  }

  /** The entry `categorize_files` stores for a file, given its thumbnail. */
  function CategoryOf(respond: (string, string) -> string, fileName: string, thumbnail: Option<string>): Option<string> {
    match thumbnail
    case None => None
    case Some(p) => Some(respond(fileName, p))
  }

  /**
   * A file gets a category exactly when a request is made for it, and the category is the
   * answer to that request.
   */
  lemma CategoryMatchesRequest(respond: (string, string) -> string, fileName: string, thumbnail: Option<string>)
    ensures CategoryOf(respond, fileName, thumbnail).Some? <==> Request(fileName, thumbnail) != []
    ensures CategoryOf(respond, fileName, thumbnail).Some? ==>
      var req := Request(fileName, thumbnail)[0];
      req.0 == fileName && CategoryOf(respond, fileName, thumbnail).value == respond(req.0, req.1)
  {
  }

  /** The classifier requests made while visiting `keys` in order. */
  function CallsFor(keys: seq<string>, thumbnails: map<string, Option<string>>): (calls: seq<(string, string)>)
    requires forall k :: k in keys ==> k in thumbnails
    ensures |calls| <= |keys|
  {
    if keys == [] then []
    else
      var last := keys[|keys| - 1];
      CallsFor(keys[..|keys| - 1], thumbnails) + Request(last, thumbnails[last])
  }

  /** The categories recorded after visiting `keys` in order. */
  function Categorize(keys: seq<string>, thumbnails: map<string, Option<string>>,
                      respond: (string, string) -> string): (d: Dict<string, Option<string>>)
    requires forall k :: k in keys ==> k in thumbnails
    ensures d.Valid()
  {
    if keys == [] then EmptyDict()
    else
      var last := keys[|keys| - 1];
      Categorize(keys[..|keys| - 1], thumbnails, respond).Set(last, CategoryOf(respond, last, thumbnails[last]))
  }

  /** Visiting one more key adds that key's category and at most its request. */
  lemma CategorizeStep(keys: seq<string>, thumbnails: map<string, Option<string>>,
                       respond: (string, string) -> string, i: nat)
    requires forall k :: k in keys ==> k in thumbnails
    requires i < |keys|
    ensures CallsFor(keys[..i + 1], thumbnails) == CallsFor(keys[..i], thumbnails) + Request(keys[i], thumbnails[keys[i]])
    ensures Categorize(keys[..i + 1], thumbnails, respond)
         == Categorize(keys[..i], thumbnails, respond).Set(keys[i], CategoryOf(respond, keys[i], thumbnails[keys[i]]))
  {
    assert keys[..i + 1][..i] == keys[..i];
  }

  /** Over distinct keys, the categories come out keyed in the same order. */
  lemma {:induction false} CategorizedKeys(keys: seq<string>, thumbnails: map<string, Option<string>>,
                                           respond: (string, string) -> string)
    requires forall k :: k in keys ==> k in thumbnails
    requires forall i, j :: 0 <= i < j < |keys| ==> keys[i] != keys[j]
    ensures Categorize(keys, thumbnails, respond).keys == keys
  {
    if keys != [] {
      var init, last := keys[..|keys| - 1], keys[|keys| - 1];
      CategorizedKeys(init, thumbnails, respond);
      var before := Categorize(init, thumbnails, respond);
      assert last !in init;
      assert last !in before.values;
      assert Categorize(keys, thumbnails, respond) == before.Set(last, CategoryOf(respond, last, thumbnails[last]));
    }
  }

  /** Over distinct keys, the next key to visit has no entry yet. */
  lemma NotYetCategorized(keys: seq<string>, thumbnails: map<string, Option<string>>,
                          respond: (string, string) -> string, i: nat)
    requires forall k :: k in keys ==> k in thumbnails
    requires forall i, j :: 0 <= i < j < |keys| ==> keys[i] != keys[j]
    requires i < |keys|
    ensures keys[i] !in Categorize(keys[..i], thumbnails, respond).values
  {
    CategorizedKeys(keys[..i], thumbnails, respond);
  }

  /** Every visited file maps to its category: the classifier's answer if it has a thumbnail, None if not. */
  lemma {:induction false} CategorizedValues(keys: seq<string>, thumbnails: map<string, Option<string>>,
                                             respond: (string, string) -> string, fileName: string)
    requires forall k :: k in keys ==> k in thumbnails
    requires fileName in keys
    ensures fileName in Categorize(keys, thumbnails, respond).values
    ensures Categorize(keys, thumbnails, respond).values[fileName] == CategoryOf(respond, fileName, thumbnails[fileName])
  {
    var init := keys[..|keys| - 1];
    if fileName != keys[|keys| - 1] {
      CategorizedValues(init, thumbnails, respond, fileName);
    }
  }

  /** Every request is for a visited file, with that file's own thumbnail path. */
  lemma {:induction false} CallsOnlyForThumbnails(keys: seq<string>, thumbnails: map<string, Option<string>>, i: nat)
    requires forall k :: k in keys ==> k in thumbnails
    requires i < |CallsFor(keys, thumbnails)|
    ensures CallsFor(keys, thumbnails)[i].0 in keys
    ensures thumbnails[CallsFor(keys, thumbnails)[i].0] == Some(CallsFor(keys, thumbnails)[i].1)
  {
    var init := keys[..|keys| - 1];
    if i < |CallsFor(init, thumbnails)| {
      CallsOnlyForThumbnails(init, thumbnails, i);
    }
  }

  /** Every visited file with a thumbnail is sent to the classifier with that thumbnail. */
  lemma {:induction false} ThumbnailedFilesAreCalled(keys: seq<string>, thumbnails: map<string, Option<string>>, fileName: string)
    requires forall k :: k in keys ==> k in thumbnails
    requires fileName in keys && thumbnails[fileName].Some?
    ensures (fileName, thumbnails[fileName].value) in CallsFor(keys, thumbnails)
  {
    var init := keys[..|keys| - 1];
    if fileName != keys[|keys| - 1] {
      ThumbnailedFilesAreCalled(init, thumbnails, fileName);
    }
  }

  /** Over distinct keys, no file is sent to the classifier twice. */
  lemma {:induction false} CalledAtMostOnce(keys: seq<string>, thumbnails: map<string, Option<string>>)
    requires forall k :: k in keys ==> k in thumbnails
    requires forall i, j :: 0 <= i < j < |keys| ==> keys[i] != keys[j]
    ensures var calls := CallsFor(keys, thumbnails);
      forall i, j :: 0 <= i < j < |calls| ==> calls[i].0 != calls[j].0
  {
    if keys != [] {
      var init, last := keys[..|keys| - 1], keys[|keys| - 1];
      CalledAtMostOnce(init, thumbnails);
      var calls, prefix := CallsFor(keys, thumbnails), CallsFor(init, thumbnails);
      forall i | 0 <= i < |prefix|
        ensures prefix[i].0 != last
      {
        CallsOnlyForThumbnails(init, thumbnails, i);
      }
    }
  }

  /**
   * Regrouping of a concatenation. Stated once, it spares the solver from rediscovering it
   * inside the request-log invariant of `CategorizeFiles`.
   */
  lemma AppendAssociative<T>(a: seq<T>, b: seq<T>, c: seq<T>)
    ensures (a + b) + c == a + (b + c)
  {
  }

  /** The whole pass over a dictionary: same keys, same order, each file's category. */
  lemma Categorized(d: Dict<string, Option<string>>, respond: (string, string) -> string)
    requires d.Valid()
    ensures Categorize(d.keys, d.values, respond).keys == d.keys
    ensures forall k :: k in d.values ==>
      k in Categorize(d.keys, d.values, respond).values
      && Categorize(d.keys, d.values, respond).values[k] == CategoryOf(respond, k, d.values[k])
  {
    CategorizedKeys(d.keys, d.values, respond);
    forall k | k in d.values
      ensures k in Categorize(d.keys, d.values, respond).values
      ensures Categorize(d.keys, d.values, respond).values[k] == CategoryOf(respond, k, d.values[k])
    {
      CategorizedValues(d.keys, d.values, respond, k);
    }
  }

  /** The object that ties the lookup to the classifier. */
  class OrgaBot {
    var fileThumbnailDict: ThumbnailDict
    var model: string
    var categories: seq<string>
    const vlmPrompter: Prompter

    /**
     * The fields as the initialiser sets them, from a lookup that has already succeeded and
     * a category list that has already been read.
     */
    constructor (fileThumbnailDict: ThumbnailDict, categories: seq<string>,
                 respond: (string, string) -> string, model: string := DefaultModel)
      requires fileThumbnailDict.Valid()
      ensures Valid() && fresh(vlmPrompter)
      ensures this.fileThumbnailDict == fileThumbnailDict && this.categories == categories
      ensures this.model == model && vlmPrompter.model == model && vlmPrompter.categories == categories
      ensures vlmPrompter.respond == respond && vlmPrompter.calls == []
    {
      this.fileThumbnailDict := fileThumbnailDict;
      this.model := model;
      this.categories := categories;
      vlmPrompter := new Prompter(categories, model, respond);
    }

    ghost predicate Valid()
      reads this
    {
      fileThumbnailDict.Valid()
    }

    /**
     * `categorize_files`: the result has the same keys in the same order as the thumbnail
     * mapping; a file with a thumbnail maps to the classifier's answer for it, a file without
     * one to None; the classifier is asked once per file with a thumbnail, in order, and for
     * nothing else; the thumbnail mapping is left as it was.
     */
    method CategorizeFiles() returns (categorizedFiles: Dict<string, Option<string>>)
      requires Valid()
      modifies vlmPrompter
      ensures categorizedFiles.Valid()
      ensures categorizedFiles.keys == fileThumbnailDict.keys
      ensures forall k :: k in fileThumbnailDict.values ==>
        k in categorizedFiles.values
        && categorizedFiles.values[k] == CategoryOf(vlmPrompter.respond, k, fileThumbnailDict.values[k])
      ensures vlmPrompter.calls == old(vlmPrompter.calls) + CallsFor(fileThumbnailDict.keys, fileThumbnailDict.values)
      ensures fileThumbnailDict == old(fileThumbnailDict)
    {
      categorizedFiles := EmptyDict();
      var items := fileThumbnailDict;
      ghost var respond, calls0 := vlmPrompter.respond, vlmPrompter.calls;
      var i := 0;
      while i < |items.keys|
        invariant i <= |items.keys|
        invariant categorizedFiles == Categorize(items.keys[..i], items.values, respond)
        invariant vlmPrompter.calls == calls0 + CallsFor(items.keys[..i], items.values)
      {
        var fileName := items.keys[i];
        var thumbnailPath := items.values[fileName];
        NotYetCategorized(items.keys, items.values, respond, i);
        assert fileName !in categorizedFiles.values;
        CategorizeStep(items.keys, items.values, respond, i);
        AppendAssociative(calls0, CallsFor(items.keys[..i], items.values), Request(fileName, thumbnailPath));
        if thumbnailPath.Some? {
          var category := vlmPrompter.GetCategory(fileName, thumbnailPath.value);
          categorizedFiles := categorizedFiles.Set(fileName, Some(category));
        } else {
          categorizedFiles := categorizedFiles.Set(fileName, None);
        }
        i := i + 1;
      }
      assert items.keys[..i] == items.keys;
      Categorized(items, respond);
    }
  }

  /**
   * End to end: a regular file whose expected thumbnail is listed in neither tier is never
   * sent to the classifier.
   */
  lemma MissingThumbnailNeverClassified(fs: Snapshot, filesDir: Path, cacheDir: Path, h: Hashing,
                                        d: ThumbnailDict, fileName: string)
    requires Resolve(fs, filesDir, cacheDir, h) == Success(d)
    requires fileName in RegularFileNames(fs(filesDir).entries)
    requires ExpectedThumbnailName(h, Join(filesDir, fileName)) !in TierNames(fs(NormalDir(cacheDir)))
    requires ExpectedThumbnailName(h, Join(filesDir, fileName)) !in TierNames(fs(LargeDir(cacheDir)))
    ensures d.Valid()
    ensures forall i :: 0 <= i < |CallsFor(d.keys, d.values)| ==> CallsFor(d.keys, d.values)[i].0 != fileName
  {
    MissingThumbnailIsNone(fs, filesDir, cacheDir, h, fileName);
    NeverCalledWithoutThumbnail(d, fileName);
  }

  /** A key whose thumbnail is None never appears in a request. */
  lemma NeverCalledWithoutThumbnail(d: ThumbnailDict, fileName: string)
    requires d.Valid()
    requires fileName in d.values && d.values[fileName] == None
    ensures forall i :: 0 <= i < |CallsFor(d.keys, d.values)| ==> CallsFor(d.keys, d.values)[i].0 != fileName
  {
    forall i | 0 <= i < |CallsFor(d.keys, d.values)|
      ensures CallsFor(d.keys, d.values)[i].0 != fileName
    {
      CallsOnlyForThumbnails(d.keys, d.values, i);
    }
  }

  /** A files directory holding the regular files `first` and `second`, and a `normal` tier holding `thumb`. */
  function TwoFileSnapshot(filesDir: Path, cacheDir: Path, first: string, second: string, thumb: string): Snapshot {
    p => if p == filesDir then Directory([DirEntry(first, true), DirEntry(second, true)])
         else if p == NormalDir(cacheDir) then Directory([DirEntry(thumb, true)])
         else Absent
  }

  /**
   * A worked case: the thumbnail of `first` is in `normal`, `second` has none and there is no
   * `large` tier. The lookup maps `first` to its `normal` path and `second` to None, in listing
   * order, and the classifier is asked exactly once, about `first`.
   */
  lemma OneOfTwoThumbnailed(h: Hashing, filesDir: Path, cacheDir: Path, first: string, second: string,
                            respond: (string, string) -> string)
    requires filesDir != NormalDir(cacheDir) && filesDir != LargeDir(cacheDir)
    requires first != second
    requires ExpectedThumbnailName(h, Join(filesDir, second)) != ExpectedThumbnailName(h, Join(filesDir, first))
    ensures var thumb := ExpectedThumbnailName(h, Join(filesDir, first));
      var thumbnail := Render(Join(NormalDir(cacheDir), thumb));
      var d := Dict([first, second], map[first := Some(thumbnail), second := None]);
      && Resolve(TwoFileSnapshot(filesDir, cacheDir, first, second, thumb), filesDir, cacheDir, h) == Success(d)
      && CallsFor(d.keys, d.values) == [(first, thumbnail)]
      && Categorize(d.keys, d.values, respond)
         == Dict([first, second], map[first := Some(respond(first, thumbnail)), second := None])
  {
    var thumb := ExpectedThumbnailName(h, Join(filesDir, first));
    var fs := TwoFileSnapshot(filesDir, cacheDir, first, second, thumb);
    var lookup := TierLookup(fs, filesDir, cacheDir, h);
    var thumbnail := Render(Join(NormalDir(cacheDir), thumb));
    assert NormalDir(cacheDir).segments[|NormalDir(cacheDir).segments| - 1] == "normal";
    assert fs(LargeDir(cacheDir)) == Absent;
    assert lookup.normalNames == {thumb} by {
      assert DirEntry(thumb, true) in fs(NormalDir(cacheDir)).entries;
    }
    assert lookup.ThumbnailFor(first) == Some(thumbnail);
    assert lookup.ThumbnailFor(second) == None;
    ResolveTwoFiles(DirEntry(first, true), DirEntry(second, true), lookup);
    var d := Dict([first, second], map[first := Some(thumbnail), second := None]);
    assert Resolve(fs, filesDir, cacheDir, h) == Success(d);
    CallsForTwo(first, second, thumbnail);
    CategorizeTwo(first, second, thumbnail, respond);
  }

  /** The lookup over two regular files with different names. */
  lemma ResolveTwoFiles(e1: DirEntry, e2: DirEntry, lookup: Lookup)
    requires e1.isFile && e2.isFile && e1.name != e2.name
    ensures ResolveEntries([e1, e2], lookup)
         == Dict([e1.name, e2.name], map[e1.name := lookup.ThumbnailFor(e1.name), e2.name := lookup.ThumbnailFor(e2.name)])
  {
    var entries := [e1, e2];
    assert entries[..1] == [e1];
    assert [e1][..0] == [];
    var d0 := ResolveEntries([], lookup);
    assert d0 == EmptyDict();
    var d1 := ResolveEntries([e1], lookup);
    assert d1 == d0.Set(e1.name, lookup.ThumbnailFor(e1.name));
    assert d1.keys == [e1.name];
    assert ResolveEntries(entries, lookup) == d1.Set(e2.name, lookup.ThumbnailFor(e2.name));
  }

  /** The requests made over two files of which only the first has a thumbnail. */
  lemma CallsForTwo(first: string, second: string, thumbnail: string)
    requires first != second
    ensures CallsFor([first, second], map[first := Some(thumbnail), second := None]) == [(first, thumbnail)]
  {
  }

  /** The categories recorded over two files of which only the first has a thumbnail. */
  lemma CategorizeTwo(first: string, second: string, thumbnail: string, respond: (string, string) -> string)
    requires first != second
    ensures Categorize([first, second], map[first := Some(thumbnail), second := None], respond)
         == Dict([first, second], map[first := Some(respond(first, thumbnail)), second := None])
  {
    var keys, thumbnails := [first, second], map[first := Some(thumbnail), second := None];
    assert keys[..1] == [first] && [first][..0] == [];
    assert CategoryOf(respond, first, thumbnails[first]) == Some(respond(first, thumbnail));
    assert Categorize([], thumbnails, respond) == EmptyDict();
    var d1 := Categorize([first], thumbnails, respond);
    assert d1 == EmptyDict().Set(first, Some(respond(first, thumbnail)));
    assert Categorize(keys, thumbnails, respond) == d1.Set(second, None);
  }
}
