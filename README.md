# OrgaBot thumbnail lookup and categorisation, modelled in Dafny

OrgaBot sorts the files of a directory into categories. It shows a vision-language model
each file's name together with the thumbnail a desktop file manager has already cached.
This project models the two parts of OrgaBot that hold logic of their own.

1. **The thumbnail lookup** (`get_file_thumbnail_dict`). The freedesktop.org Thumbnail
   Managing Standard names a file's thumbnail after the MD5 hex digest of the UTF-8 bytes
   of the file's URI, followed by `.png`. The thumbnail lives in the `normal` or the `large`
   tier under `<cache>/thumbnails/`. The lookup lists both tiers once. Then it walks the
   files directory and records, for every regular file, the `normal` path, else the `large`
   path, else `None`.
2. **The categorisation pass** (`OrgaBot.categorize_files`). It walks the file→thumbnail
   mapping and builds a file→category mapping. It asks the classifier only about files
   that have a thumbnail, and stores `None` for the others.

Layout:

- `wrappers.dfy`: `Option` (Python's `Optional`) and `Result` (a value or a raised exception).
- `py_dicts.dfy`: a Python `dict` as its keys in insertion order plus a key→value map.
  Assigning to an existing key keeps its position; a new key goes to the end.
- `file_system.dfy`: paths, directory entries, and a filesystem snapshot. For each path the
  snapshot says whether it is absent, a non-directory, or a directory with a listing. This
  is what `exists()`, `iterdir()` and `is_file()` observe.
- `utf8.dfy`: UTF-8 encoding of a string, as `str.encode('utf-8')` does it.
- `thumbnail_curation.dfy`: the lookup. `GetFileThumbnailDict` is the loop as written.
  `Resolve` and `ResolveEntries` are its specification. The lemmas state what the
  specification promises.
- `orgabot.dfy`: the classifier as a `Prompter` object that logs every request, the
  `OrgaBot` object with its fields, the `CategorizeFiles` loop with its specification
  functions `Categorize` and `CallsFor`, and end-to-end lemmas joining the two parts.

Inputs that the program reads from the outside world become parameters:

- the filesystem, as a `Snapshot`;
- `Path.as_uri()` and the MD5 hex digest, as the functions of a `Hashing` value;
- the vision-language model's answer, as a function `respond` from (file name, thumbnail
  path) to a string.

Points of the code the model keeps as they are:

- A file without a thumbnail maps to `None` in both mappings. There is no separate "no thumbnail" string.
- `categorize_files` stores whatever the classifier returns. The code has no check against the category list, so the model has none.
- The duplicate-name assertion in `categorize_files` is checked against a Python `dict`, whose keys are distinct. `NotYetCategorized` proves it always holds, so the model has no failure branch for it.
- A files directory that exists but is not a directory passes the existence check. `iterdir()` then raises `NotADirectoryError`, after both tiers have been listed. `Resolve` keeps that order of failures. The same error is raised when a tier path exists but is not a directory.

## Model

| member | source | states |
|---|---|---|
| ThumbnailCuration.GetFileThumbnailDict | thumbnail_curation.py:18-72 | The loop computes `Resolve`. It raises FileNotFoundError when the files directory is absent. It fails exactly when the files directory is not a directory or a tier path is not a directory. On success, the result is a well-formed dict whose keys are exactly the regular-file names, in listing order when names are unique. |
| ThumbnailCuration.Resolve | thumbnail_curation.py:43-72 | The outcome of one lookup. An absent files directory raises FileNotFoundError. The lookup fails exactly when the files directory is not a directory or a tier path is not a directory. When the files directory is a directory, the only possible failures name a tier path. What a success holds is stated by `ResolvedKeys`, `ResolvedOrder`, `ResolvedValues` and the tier lemmas below. |
| ThumbnailCuration.Lookup.ThumbnailFor | thumbnail_curation.py:57-70 | A file's value is None exactly when its expected name is in neither tier listing. Otherwise it is the expected name joined to a tier whose listing holds that name. `NormalTierFirst` and `LargeTierFallback` fix which tier. |
| ThumbnailCuration.ExpectedThumbnailName | thumbnail_curation.py:57-60 | The name a file's thumbnail must have. Its format is stated by `ThumbnailNameFormat`. |
| ThumbnailCuration.TierNames | thumbnail_curation.py:50-51 | The names one tier directory lists, or none for an absent tier. `AbsentTierActsEmpty` and `ThumbnailsAreListed` state its role. |
| ThumbnailCuration.TierLookup | thumbnail_curation.py:47-51 | Both tier listings, taken once before the loop. `ThumbnailsAreListed` states that every reported path comes from them. |
| ThumbnailCuration.ResolveEntries | thumbnail_curation.py:53-70 | The mapping built from a listing is a well-formed dict: distinct keys, and its key list and map agree. |
| ThumbnailCuration.ThumbnailNameFormat | thumbnail_curation.py:57-60 | The expected thumbnail name is 36 characters: 32 lower-case hex digits, which are the MD5 digest of the UTF-8 bytes of the file's URI, then ".png". |
| Utf8.EncodeChar | thumbnail_curation.py:60 | A character encodes to 1 to 4 bytes. It encodes to exactly one byte iff it is below U+0080, and that byte is the code point. |
| Utf8.Encode | thumbnail_curation.py:60 | An encoded string has between 1 and 4 bytes per character. An ASCII string encodes byte for byte to its code points. |
| Utf8.EncodeAppend | thumbnail_curation.py:60 | Encoding a concatenation gives the concatenation of the encodings, so a string encodes character by character. |
| FileSystem.Render | thumbnail_curation.py:64 | `str()` of a path, the form in which a thumbnail path is stored. It is used by `ThumbnailFor` and pinned down in `OneOfTwoThumbnailed`. |
| FileSystem.Names | thumbnail_curation.py:50-51 | The set of names one directory listing holds. `ThumbnailsAreListed` states that reported thumbnails come from it. |
| PyDicts.Dict.Set | thumbnail_curation.py:64 | A dict assignment keeps the dict well formed. It maps the key to the new value and leaves the other keys alone. An existing key keeps its position; a new key is appended. |
| ThumbnailCuration.ResolvedKeys | thumbnail_curation.py:53-55 | The result's keys are exactly the names of the regular-file entries; other entries never appear. |
| ThumbnailCuration.ResolvedOrder | thumbnail_curation.py:53-70 | With unique entry names, the keys come in the order `iterdir()` lists the regular files. |
| ThumbnailCuration.ResolvedValues | thumbnail_curation.py:57-70 | Every key's value is the lookup of that file's expected name: normal tier, then large tier, then None. |
| ThumbnailCuration.NormalTierFirst | thumbnail_curation.py:62-64 | If the expected name is listed in `normal`, the value is the `normal` path, even when `large` lists it too. |
| ThumbnailCuration.LargeTierFallback | thumbnail_curation.py:65-67 | If the expected name is missing from `normal` and listed in `large`, the value is the `large` path. |
| ThumbnailCuration.MissingThumbnailIsNone | thumbnail_curation.py:68-70 | If the expected name is in neither tier, the file is still a key and its value is None. |
| ThumbnailCuration.ThumbnailsAreListed | thumbnail_curation.py:50-51 | Every reported thumbnail is the file's expected name inside a tier directory that exists and lists that name. |
| ThumbnailCuration.AbsentTierActsEmpty | thumbnail_curation.py:50-51 | A missing `normal` or `large` directory is no error: the outcome equals the outcome with that tier as an empty directory. |
| Orgabot.Prompter.constructor | orgabot.py:16 | The classifier holds the categories and model it was given, and has made no request yet. |
| Orgabot.Prompter.GetCategory | orgabot.py:31 | One request is appended to the request log, and the answer for that (file name, thumbnail path) pair is returned. |
| Orgabot.OrgaBot.constructor | orgabot.py:8-16 | The fields hold the thumbnail mapping, categories and model given, with the model defaulting to "qwen2.5vl:7b". The classifier is a fresh one built from the same categories and model, with no request made yet. |
| Orgabot.OrgaBot.CategorizeFiles | orgabot.py:18-36 | The result has the same keys, in the same order, as `file_thumbnail_dict`. Each key maps to the classifier's answer for its thumbnail, or to None without one. The request log grows by exactly `CallsFor` of the mapping. `file_thumbnail_dict` is left unchanged. |
| Orgabot.Request | orgabot.py:30-31 | A file yields at most one request. It yields none exactly when it has no thumbnail; otherwise the request is (file name, thumbnail path). |
| Orgabot.CategoryOf | orgabot.py:30-34 | What is stored for one file. Its link to the request is stated by `CategoryMatchesRequest`. |
| Orgabot.CategoryMatchesRequest | orgabot.py:30-34 | A file gets a category exactly when a request is made for it, and the category is the answer to that request. |
| Orgabot.CallsFor | orgabot.py:27-32 | A pass makes at most one request per file. |
| Orgabot.Categorize | orgabot.py:25-34 | The mapping a pass builds is a well-formed dict. |
| Orgabot.CategorizedKeys | orgabot.py:27-34 | Over distinct keys, the result's keys are the keys visited, in the order visited. |
| Orgabot.NotYetCategorized | orgabot.py:28 | Over distinct keys, the file about to be visited has no entry yet, so the duplicate-name assertion never fires. |
| Orgabot.CategorizedValues | orgabot.py:30-34 | A visited file with a thumbnail maps to the classifier's answer for (name, thumbnail). A visited file without one maps to None. |
| Orgabot.Categorized | orgabot.py:25-36 | Over a whole well-formed dict, the result has the same keys in the same order and each file's category. |
| Orgabot.CallsOnlyForThumbnails | orgabot.py:30-32 | Every request is for a visited file, and carries that file's own thumbnail path. |
| Orgabot.ThumbnailedFilesAreCalled | orgabot.py:30-32 | Every visited file with a thumbnail is sent to the classifier with that thumbnail. |
| Orgabot.CalledAtMostOnce | orgabot.py:27-32 | Over distinct keys, no file is sent to the classifier twice. With the two lemmas above, each file with a thumbnail is asked about exactly once, and nothing else is asked. |
| Orgabot.NeverCalledWithoutThumbnail | orgabot.py:30 | A file whose thumbnail is None never appears in a request. |
| Orgabot.MissingThumbnailNeverClassified | orgabot.py:30 | A regular file whose expected thumbnail neither tier lists is never sent to the classifier. This composes the lookup and the pass. |
| Orgabot.ResolveTwoFiles | thumbnail_curation.py:53-70 | Two regular files with different names map, in listing order, to their own lookups. |
| Orgabot.CallsForTwo | orgabot.py:27-32 | Over two files where only the first has a thumbnail, exactly one request is made, about the first file. |
| Orgabot.CategorizeTwo | orgabot.py:25-34 | Over two files where only the first has a thumbnail, the first maps to the classifier's answer and the second to None, in that order. |
| Orgabot.OneOfTwoThumbnailed | thumbnail_curation.py:43-70 | Worked case: a directory of two files, with only the first file's thumbnail in `normal` and no `large` tier. The lookup gives the first file its `normal` path and the second None, in that order. The classifier is asked exactly once, about the first file. The categorised mapping holds the first file's answer and None for the second. |

## Left out

- Path normalisation: `expanduser()` and `resolve()` are not modelled. Paths are taken as already absolute and canonical, and `Render` shows a path as its `/`-joined segments, which is how `str()` prints such a path.
- `Path.as_uri()` and MD5 are abstract functions of a `Hashing` value. The percent-encoding of file URIs and the MD5 algorithm are not modelled. The hex digest is only constrained to be 32 lower-case hex digits.
- Filesystem errors other than a missing path and a non-directory (permissions, races while listing) are not modelled. `is_file()` is a flag on each listed entry.
- Logging and the module-level logger setup are left out; they do not affect any result.
- The `__main__` blocks of all three modules are left out.
- The classifier module `vlm_prompter.py` is not part of this model. It is a call to an external model service. `orgabot.py` imports and builds a `Prompter` class that `vlm_prompter.py` does not define; that file defines only a `get_category` function. The model supplies the `Prompter` that `orgabot.py` expects, with the service's answer as the function `respond`.
- Orgabot.OrgaBot.constructor: reading the categories JSON file and running the lookup are not part of it. It receives the lookup's successful result and the category list as arguments, so a failure of either is not modelled there.
- The category vocabulary is carried but never checked, as in the code.
- Orgabot.Prompter.GetCategory: classifier failure is not modelled. In the code, the model call can raise and abort `categorize_files` after some requests have been made. The model's classifier always answers, so `CategorizeFiles` always completes. "Asked exactly once per file with a thumbnail" describes a pass in which no request fails.
- Orgabot.Prompter.GetCategory: the answer is a fixed function `respond` of (file name, thumbnail path). Two passes on one object therefore give identical categories, which a sampling model does not promise.
- Default arguments: `cache_path="~/.cache"` of the lookup and `categories_filename` and `cache_path` of `OrgaBot` are not modelled, because the model takes the lookup's result and the category list as given. Only `model` keeps its default, `DefaultModel`.
- File names that are not valid UTF-8: Python keeps them as strings with lone surrogates, which a Dafny `string` cannot hold, so such files cannot be represented.
