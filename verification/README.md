# buildout.recipe.uwsgi in Dafny

A model of the buildout recipe `UWSGI` (`buildout/recipe/uwsgi.py`) and
proofs about it. The recipe:
- builds the uWSGI server binary for a buildout part;
- writes the XML file uWSGI starts from, `parts/<name>/uwsgi.xml`.

The model covers four pieces:
- **Option normalisation** at construction. `extra-paths` always exists afterwards, and `pythonpath` is its legacy alias.
- **The search path** (`get_extra_paths`). It lists, in order:
  - the project directory;
  - every entry of the parts directory;
  - the recipe's own `extra-paths`, after the libraries named by `.pth` files have been appended to it in place;
  - the `extra-paths` of the `[buildout]` section.
- **The XML document** (`create_conf_xml`). It holds one element per `xml-` option, following the value rule (`true`, `false`/empty, multi-line, scalar), then one `<pythonpath>` element per resolved path.
- **The lifecycle**:
  - `install` builds the binary unless it is already in the bin directory, then writes the configuration;
  - `update` only rewrites the configuration.

Modules:
- `PyStr` (`pystr.dfy`): the Python 3 `str` and `posixpath` operations the recipe uses: `splitlines`, `split`, `strip`, `lower`, `replace`, `join`, `os.path.join`, `os.path.basename`.
- `OptionMaps` (`options.dfy`): the option section as an insertion-ordered dictionary. `Dict` is the value. `OptionMap` is the shared object that buildout hands to the recipe and that the recipe changes in place.
- `PathResolver` (`paths.dfy`): the search-path list as functions, with the lemmas about its order and contents.
- `ConfigRenderer` (`render.dfy`): the document as a list of elements and its text, with the value rule.
- `Recipe` (`recipe.dfy`): the class `UWSGI` with its constructor and its methods `GetExtraPaths`, `CreateConfXml`, `Install` and `Update`. The loops of the source are methods with loop invariants, proved against the functions above.

The outside world is the value `Machine`, one field per outside call:
- the host separator;
- `os.path.exists`;
- `os.listdir` of the parts directory;
- `site.addsitedir`;
- `zc.buildout.easy_install._get_path` with the eggs' working set;
- whether the download succeeds;
- the `os.walk` listing of the unpacked release;
- whether `make` succeeds.

Downloading, unpacking, `make`, copying, removing the extraction, creating the directory and writing the file are `Step` values. The methods return them in the order they happen.

The `.pth` libraries are appended to the text of `extra-paths` (uwsgi.py:102), so they come after the explicitly configured local paths, not before them. `Recipe.ResolvedExtraPaths` states that order.

## Model

| member | source | states |
|---|---|---|
| OptionMaps.Dict.Store | buildout/recipe/uwsgi.py:25 | `options[k] = v`: the key maps to the value afterwards; every other key keeps its presence and value; an existing key keeps its place and a new one goes last |
| OptionMaps.Dict.SetDefault | buildout/recipe/uwsgi.py:27 | `setdefault` leaves a present key alone and otherwise stores the value |
| OptionMaps.OptionMap.Store | buildout/recipe/uwsgi.py:102 | the shared options object is updated in place, as `Dict.Store` describes |
| OptionMaps.OptionMap.SetDefault | buildout/recipe/uwsgi.py:27 | the shared options object gets the key only when it is missing, in place, as `Dict.SetDefault` describes |
| Recipe.Normalised | buildout/recipe/uwsgi.py:24-27 | after construction `extra-paths` exists. If it was given, it keeps its value and `pythonpath` takes it. Otherwise it takes `pythonpath`'s value (or ""), and `pythonpath` stays as it was. No other option changes and existing keys keep their order |
| Recipe.NormalisedTwice | buildout/recipe/uwsgi.py:24-27 | normalising twice equals normalising once exactly when `extra-paths` or `pythonpath` was given; with neither, the second pass adds `pythonpath = ""` |
| Recipe.UWSGI.constructor | buildout/recipe/uwsgi.py:18-29 | the recipe keeps the options object it is given and leaves it normalised |
| PyStr.Replace | buildout/recipe/uwsgi.py:105-106 | `replace('/', sep)` keeps the length, changes exactly the '/' characters to the separator, and leaves no '/' when the separator differs |
| PyStr.SplitLinesAroundNewline | buildout/recipe/uwsgi.py:105-106 | the non-blank lines of `a + "\n" + b` are those of `a` followed by those of `b` |
| PathResolver.ConfiguredPathsAroundNewline | buildout/recipe/uwsgi.py:105-106 | the paths of two texts joined by a newline are the paths of each, in order |
| PathResolver.ConfiguredPathsShape | buildout/recipe/uwsgi.py:105-106 | for a separator that is not whitespace, no configured path is blank; and on a host whose separator is not '/', none holds a '/' |
| PathResolver.BlankLineIgnored | buildout/recipe/uwsgi.py:105-106 | a blank line inside `extra-paths` contributes nothing |
| PathResolver.ConfiguredPathsOfLibraries | buildout/recipe/uwsgi.py:102 | when no library holds a line break, libraries joined with "\n" come back as themselves, blank ones dropped, '/' replaced |
| PathResolver.PthLibrariesAppended | buildout/recipe/uwsgi.py:93-102 | after the `.pth` loop, the local paths are the configured ones followed by each file's libraries, file by file |
| PathResolver.PthWithoutLibraries | buildout/recipe/uwsgi.py:95-99 | `.pth` files that yield no library leave `extra-paths` unchanged |
| PathResolver.ExtraPathsLayout | buildout/recipe/uwsgi.py:87-116 | the list is the project directory, then `parts/<entry>` for every listed entry in order, then the local paths, then the global paths; nothing dropped or reordered |
| PathResolver.ExtraPathsWithoutGlobal | buildout/recipe/uwsgi.py:111-114 | with no (or an empty) global `extra-paths`, the list is directory + parts + local paths |
| PathResolver.ExampleLocalPaths | buildout/recipe/uwsgi.py:87-116 | directory `/proj`, no parts, `extra-paths` "/x\n/y": the list is `["/proj", "/x", "/y"]` |
| PathResolver.ExampleDuplicatesKept | buildout/recipe/uwsgi.py:87-116 | a part that `extra-paths` names again is listed twice: `["/a", "/p/x", "/p/x"]` |
| Recipe.UWSGI.GetExtraPaths | buildout/recipe/uwsgi.py:82-116 | appends the `.pth` libraries to the option `extra-paths` in place and returns directory, parts, local and global paths as `ExtraPaths` lays them out |
| Recipe.ResolvedExtraPaths | buildout/recipe/uwsgi.py:92-108 | the local paths after `get_extra_paths` are the configured `extra-paths` followed by the `.pth` libraries |
| Recipe.RepeatedRefreshAppendsPthLibraries | buildout/recipe/uwsgi.py:92-102 | a second `get_extra_paths` on the same options appends the `.pth` libraries again: they are listed twice |
| ConfigRenderer.EntryTags | buildout/recipe/uwsgi.py:133-134 | only keys of the form `xml-` plus at least one character contribute, and each of their elements is named by the key without the prefix |
| ConfigRenderer.TrueValue | buildout/recipe/uwsgi.py:135-136 | a value equal to `true` in any letter case gives exactly `<tag/>` and a newline |
| ConfigRenderer.FalseOrEmptyValue | buildout/recipe/uwsgi.py:137 | an empty value, or `false` in any letter case, gives nothing |
| ConfigRenderer.MultiLineValue | buildout/recipe/uwsgi.py:138-140 | a value holding "\n" gives one element per `split()` token, in order. The tokens are non-empty and whitespace-free, and together they are the value's non-whitespace characters |
| ConfigRenderer.ScalarValue | buildout/recipe/uwsgi.py:141-142 | any other value gives one element holding the value unescaped |
| ConfigRenderer.ExampleMultiLine | buildout/recipe/uwsgi.py:138-140 | `xml-foo = "a b\nc"` gives `<foo>a</foo>`, `<foo>b</foo>`, `<foo>c</foo>` |
| ConfigRenderer.ExampleBooleans | buildout/recipe/uwsgi.py:131-142 | `xml-foo = true`, `xml-bar = false`, `xml-baz = hello` give the body `<foo/>\n<baz>hello</baz>\n` |
| ConfigRenderer.BodyWithoutXmlKeys | buildout/recipe/uwsgi.py:131-133 | options without the `xml-` prefix contribute no element |
| ConfigRenderer.EmptyDocument | buildout/recipe/uwsgi.py:130-150 | no `xml-` option and no path: the document is `<uwsgi>\n</uwsgi>` |
| ConfigRenderer.DocumentParts | buildout/recipe/uwsgi.py:145-150 | the document is `<uwsgi>\n`, the option elements, the `<pythonpath>` elements, then `</uwsgi>` |
| Recipe.RenderEntry | buildout/recipe/uwsgi.py:133-142 | the text one option adds is the markup of its elements under the value rule |
| Recipe.RenderLeaves | buildout/recipe/uwsgi.py:139-140 | one `<tag>text</tag>` line per token, in order |
| Recipe.RenderBody | buildout/recipe/uwsgi.py:131-142 | the option loop produces the markup of every option's elements in dictionary order |
| Recipe.RenderPythonPaths | buildout/recipe/uwsgi.py:146-147 | one `<pythonpath>` line per resolved path, in order |
| Recipe.UWSGI.CreateConfXml | buildout/recipe/uwsgi.py:118-152 | creates `parts/<name>` and writes the document to `parts/<name>/uwsgi.xml`. The body comes from the options as they were before the call. The `.pth` libraries are appended to `extra-paths`. Returns the file's path |
| Recipe.BuildRootIsLastMatch | buildout/recipe/uwsgi.py:44-50 | the build directory is the last walked directory holding `uwsgiconfig.py`, and there is none exactly when no directory holds it |
| Recipe.LocateBuildDirectory | buildout/recipe/uwsgi.py:44-50 | the walk loop finds that directory |
| Recipe.BuildStepsShape | buildout/recipe/uwsgi.py:31-72 | among the modelled failures, the build stops exactly when the download fails, no `uwsgiconfig.py` is found, or `make` fails, and the failing step is the last one (download; unpack; `make`). On success the steps are download, unpack, `make`, the copy of `<build directory>/<name>` into the bin directory, and the removal of the extraction. It starts with the download of `uwsgi-<version>` (default `latest`), runs `make` with the profile (default `default.ini`) in the build directory, never writes the configuration or creates its directory, and removes the extraction only after a successful build |
| Recipe.UWSGI.BuildBinary | buildout/recipe/uwsgi.py:157-170 | performs the build steps and stops at the first failure; on success returns the bin directory joined with the executable's base name |
| Recipe.BuiltBinaryIsCheckedPath | buildout/recipe/uwsgi.py:72-80 | the reported binary path is the path `install` checked for, when the part name holds no separator |
| PyStr.BasenameOfJoin | buildout/recipe/uwsgi.py:80 | `basename(join(a, b))` is `b` when `b` holds no separator |
| Recipe.UWSGI.Install | buildout/recipe/uwsgi.py:154-175 | returns what `InstallOutcome` says and performs the steps `InstallSteps` gives for the options it started with; the options are unchanged after a failed build and have the `.pth` libraries appended otherwise |
| Recipe.InstallWithBinaryPresent | buildout/recipe/uwsgi.py:154-175 | with the binary already in the bin directory, nothing is downloaded, built or copied; only the configuration is written, and its path alone is returned |
| Recipe.InstallAbortedWritesNoConfiguration | buildout/recipe/uwsgi.py:154-170 | among the modelled failures, `install` stops exactly when the binary is missing and the download, the search for the build directory or `make` fails; it then never writes the configuration or creates its directory |
| Recipe.InstallWritesConfigurationLast | buildout/recipe/uwsgi.py:154-175 | when `install` succeeds, writing the configuration is the last thing it does and the configuration's path is the last path returned |
| Recipe.InstallAfterBuild | buildout/recipe/uwsgi.py:154-175 | a build that succeeds downloads the release, copies `<build directory>/<name>` into the bin directory and removes the extraction; `install` returns `[binary, configuration]`, with the binary at the path it checked for when the name holds no separator |
| Recipe.UWSGI.Update | buildout/recipe/uwsgi.py:177-180 | only the configuration is rewritten; no build step happens |
| Recipe.UpdateIdempotentWithoutPthLibraries | buildout/recipe/uwsgi.py:177-180 | when no `.pth` file yields a library, `update` leaves the options unchanged, so the next `update` writes the same file |

## Left out

- Downloading, unpacking, `make`, copying and removing directories are `Step` values, not performed. Their outcomes are the `Machine` fields (`fetchOk`, `walk`, `makeOk`).
- `Step` records the configuration's directory and file as `MakeDirectory` and `WriteFile`, and nothing else that is written. The download cache and the archive (uwsgi.py:35-37), the extraction directory and its contents (uwsgi.py:45-46) and the output of `make` (uwsgi.py:67) are created or written inside the `Fetch`, `Unpack` and `Make` steps and are not recorded apart.
- Only the download, the search for `uwsgiconfig.py` and `make` can fail in the model. These can also raise in the source and stop `install`, but never do in the model:
  - `unpack_archive` (uwsgi.py:46; `Unpack` always succeeds);
  - the copy into the bin directory (uwsgi.py:79) and `rmtree` (uwsgi.py:170);
  - writing the configuration file;
  - `os.listdir` of the parts directory (uwsgi.py:88);
  - `site.addsitedir`, when an `import` line of a `.pth` file fails (uwsgi.py:95);
  - `self.egg.working_set()` and `_get_path` (uwsgi.py:144-145), for example for an egg that cannot be found.
  The last three fail inside `create_conf_xml`, so they stop `install` even when the binary is present. By then `parts/<name>` exists, and on a fresh build the binary has been copied. The model has no such outcome. A failing `os.mkdir` of `parts/<name>` is ignored by the source (uwsgi.py:123-126) and by the model alike.
- The temporary download cache and extraction directories, and the `UWSGI_PROFILE` environment variable, are not modelled beyond the `Make` step's profile. The working directory that stays changed after a failed `make` is not modelled either.
- Logging (the `.pth` warning and info messages) is not modelled.
- `zc.recipe.egg.Egg`, its working set and `_get_path` are the parameter `resolvePath`. Changes the `Egg` constructor makes to the options are not part of this model.
- `site.addsitedir` is the parameter `siteDir`, which gives the returned set in iteration order. Its side effects (uwsgi.py:95) are not modelled: it adds directories to `sys.path` and runs the `import` lines of `.pth` files. `os.listdir` is the list `partsListing`, in the order the platform returns.
- `os.path.join` and `os.path.basename` follow `posixpath`, with the separator as a parameter. Windows drive letters and `\\` handling are not modelled.
- PyStr: follows Python 3 `str`, while the package also targets Python 2 (setup.py:9), where option values are byte strings. There `splitlines` breaks only at `\n`, `\r` and `\r\n`, and `split` and `strip` see only space, `\t`, `\n`, `\r`, `\x0b` and `\x0c` as whitespace. So text holding `\x0b`, `\x0c`, `\x1c`-`\x1f`, `\x85` or a non-ASCII space, line or paragraph separator is split differently. For example, under Python 2 `a\x0cb` in `extra-paths` is one path, and in the model it is two.
- OptionMaps.Dict: keeps the options in insertion order, as Python 3.7+ dicts do. Under Python 2 the order in which `items()` lists the options, and so the order of the option elements in `uwsgi.xml` (uwsgi.py:131), is the dictionary's hash order, which the model does not capture. The keys the recipe adds (`extra-paths`, `pythonpath`) carry no `xml-` prefix, so they never change which elements appear.
- PyStr.Lower: folds ASCII letters only. This agrees with Python's `lower()` on every comparison the recipe makes, since no other character lowers to a letter of `true` or `false`.
- The `[buildout]` section must hold `directory`, `parts-directory` and `bin-directory`; buildout always sets them. The source would raise `KeyError` without them, and the methods require them instead.
- The options must be a well-formed dictionary: each key once, and its key list and lookup agree. A Python dict always is.
- `setup.py` is packaging and is not part of this model.

