/**
 * The search-path list of `UWSGI.get_extra_paths`: the project directory,
 * every entry of the parts directory, the recipe's own `extra-paths` (after
 * the libraries named by `.pth` files have been appended to it) and the
 * `extra-paths` of the [buildout] section, in that order, with duplicates.
 */
module PathResolver {
  import opened PyStr

  /** `[os.path.join(parts, part) for part in listing]` */
  function PartsPaths(parts: string, listing: seq<string>, sep: char): seq<string> {
    seq(|listing|, i requires 0 <= i < |listing| => PathJoin(parts, listing[i], sep))
  }

  /** `p.replace('/', sep)` for every line, in order. */
  function Localised(lines: seq<string>, sep: char): seq<string> {
    seq(|lines|, i requires 0 <= i < |lines| => Replace(lines[i], '/', sep))
  }

  /** `[p.replace('/', sep) for p in text.splitlines() if p.strip()]` */
  function ConfiguredPaths(text: string, sep: char): seq<string> {
    Localised(NonBlankLines(SplitLines(text)), sep)
  }

  /** The [buildout] section's own `extra-paths`, when it is set and not empty. */
  function GlobalPaths(section: map<string, string>, sep: char): seq<string> {
    if "extra-paths" in section && section["extra-paths"] != "" then
      ConfiguredPaths(section["extra-paths"], sep)
    else []
  }

  predicate HasPathKeys(section: map<string, string>) {
    "directory" in section && "parts-directory" in section
  }

  /** The list `get_extra_paths` returns, given the listing of the parts
      directory and the final value of the recipe's `extra-paths`. */
  function ExtraPaths(section: map<string, string>, listing: seq<string>, localExtra: string, sep: char): seq<string>
    requires HasPathKeys(section)
  {
    [section["directory"]] + PartsPaths(section["parts-directory"], listing, sep)
      + ConfiguredPaths(localExtra, sep) + GlobalPaths(section, sep)
  }

  /** `extra += '\n' + '\n'.join(libs)` when `libs` is not empty. */
  function WithLibraries(extra: string, libs: seq<string>): string {
    if libs == [] then extra else extra + "\n" + Join("\n", libs)
  }

  /** The value of `extra-paths` after the loop over the `.pth` files:
      `siteDir(f)` is what `site.addsitedir(f, set())` gives, in iteration order. */
  function WithPthLibraries(extra: string, files: seq<string>, siteDir: string -> seq<string>): string
    decreases |files|
  {
    if files == [] then extra
    else WithLibraries(WithPthLibraries(extra, files[..|files| - 1], siteDir), siteDir(files[|files| - 1]))
  }

  /** The paths the `.pth` files add, file by file. */
  function PthLibraryPaths(files: seq<string>, siteDir: string -> seq<string>, sep: char): seq<string>
    decreases |files|
  {
    if files == [] then []
    else PthLibraryPaths(files[..|files| - 1], siteDir, sep)
           + ConfiguredPaths(Join("\n", siteDir(files[|files| - 1])), sep)
  }

  lemma LocalisedAppend(a: seq<string>, b: seq<string>, sep: char)
    ensures Localised(a + b, sep) == Localised(a, sep) + Localised(b, sep)
  {
  }

  /** Every configured path is one non-blank line with each '/' replaced by
      the separator, so none is blank and, on a host whose separator is not
      '/', none holds a '/'. */
  lemma ConfiguredPathsShape(text: string, sep: char)
    ensures forall i | 0 <= i < |ConfiguredPaths(text, sep)| ::
      && (sep != '/' ==> '/' !in ConfiguredPaths(text, sep)[i])
      && (!IsSpace(sep) ==> !IsBlank(ConfiguredPaths(text, sep)[i]))
  {
    var lines := NonBlankLines(SplitLines(text));
    NonBlankLinesAreNotBlank(SplitLines(text));
    forall i | 0 <= i < |lines| && !IsSpace(sep)
      ensures !IsBlank(ConfiguredPaths(text, sep)[i])
    {
      var j :| 0 <= j < |lines[i]| && !IsSpace(lines[i][j]);
      assert !IsSpace(ConfiguredPaths(text, sep)[i][j]);
    }
  }

  /** A newline between two texts: their configured paths, one after the other. */
  lemma ConfiguredPathsAroundNewline(a: string, b: string, sep: char)
    ensures ConfiguredPaths(a + "\n" + b, sep) == ConfiguredPaths(a, sep) + ConfiguredPaths(b, sep)
  {
    SplitLinesAroundNewline(a, b);
    LocalisedAppend(NonBlankLines(SplitLines(a)), NonBlankLines(SplitLines(b)), sep);
  }

  /** One line contributes nothing when blank, else itself with '/' replaced. */
  lemma ConfiguredPathsOfLine(line: string, sep: char)
    requires HasNoLineBreak(line)
    ensures ConfiguredPaths(line, sep) == if IsBlank(line) then [] else [Replace(line, '/', sep)]
  {
    SplitLinesOfLine(line);
    if line == [] {
      assert IsBlank(line);
    } else {
      assert NonBlankLines([line]) == (if IsBlank(line) then [] else [line]) + NonBlankLines([]);
    }
  }

  /** A blank line between two parts of `extra-paths` changes nothing. */
  lemma BlankLineIgnored(a: string, w: string, b: string, sep: char)
    requires HasNoLineBreak(w) && IsBlank(w)
    ensures ConfiguredPaths(a + "\n" + w + "\n" + b, sep) == ConfiguredPaths(a + "\n" + b, sep)
  {
    var x := a + "\n";
    AppendAssociates(x + w, "\n", b);
    AppendAssociates(x, w, "\n" + b);
    AppendAssociates(w, "\n", b);
    ConfiguredPathsAroundNewline(a, w + "\n" + b, sep);
    ConfiguredPathsAroundNewline(w, b, sep);
    ConfiguredPathsOfLine(w, sep);
    ConfiguredPathsAroundNewline(a, b, sep);
  }

  /** Joined with "\n", libraries whose names hold no line boundary come back
      as themselves, blank ones dropped, '/' replaced. */
  lemma {:induction false} ConfiguredPathsOfLibraries(libs: seq<string>, sep: char)
    requires forall i | 0 <= i < |libs| :: HasNoLineBreak(libs[i])
    ensures ConfiguredPaths(Join("\n", libs), sep) == Localised(NonBlankLines(libs), sep)
  {
    if libs == [] {
      assert SplitLines([]) == [];
    } else if |libs| == 1 {
      ConfiguredPathsOfLine(libs[0], sep);
      assert libs == [libs[0]] + [];
    } else {
      ConfiguredPathsOfLibraries(libs[1..], sep);
      FirstLibrary(libs, sep);
    }
  }

  /** The first library goes before the others, unless it is blank. */
  lemma FirstLibrary(libs: seq<string>, sep: char)
    requires |libs| > 1 && HasNoLineBreak(libs[0])
    requires ConfiguredPaths(Join("\n", libs[1..]), sep) == Localised(NonBlankLines(libs[1..]), sep)
    ensures ConfiguredPaths(Join("\n", libs), sep) == Localised(NonBlankLines(libs), sep)
  {
    var first, rest := libs[0], libs[1..];
    assert Join("\n", libs) == first + "\n" + Join("\n", rest);
    ConfiguredPathsAroundNewline(first, Join("\n", rest), sep);
    ConfiguredPathsOfLine(first, sep);
    assert libs == [first] + rest;
    ConsLine(first, rest);
    var head := if IsBlank(first) then [] else [first];
    LocalisedAppend(head, NonBlankLines(rest), sep);
  }

  /** The libraries of the `.pth` files come after the configured local paths,
      file by file, in order. */
  lemma {:induction false} PthLibrariesAppended(extra: string, files: seq<string>, siteDir: string -> seq<string>, sep: char)
    ensures ConfiguredPaths(WithPthLibraries(extra, files, siteDir), sep)
         == ConfiguredPaths(extra, sep) + PthLibraryPaths(files, siteDir, sep)
    decreases |files|
  {
    if files != [] {
      var init := files[..|files| - 1];
      var libs := siteDir(files[|files| - 1]);
      var before := WithPthLibraries(extra, init, siteDir);
      PthLibrariesAppended(extra, init, siteDir, sep);
      if libs == [] {
        assert ConfiguredPaths(Join("\n", libs), sep) == [] by {
          assert SplitLines([]) == [];
        }
      } else {
        ConfiguredPathsAroundNewline(before, Join("\n", libs), sep);
      }
    }
  }

  /** `.pth` files that name no library leave `extra-paths` as it was. */
  lemma {:induction false} PthWithoutLibraries(extra: string, files: seq<string>, siteDir: string -> seq<string>)
    requires forall i | 0 <= i < |files| :: siteDir(files[i]) == []
    ensures WithPthLibraries(extra, files, siteDir) == extra
    decreases |files|
  {
    if files != [] {
      PthWithoutLibraries(extra, files[..|files| - 1], siteDir);
    }
  }

  /** The list in its four consecutive parts; nothing is removed or reordered. */
  lemma ExtraPathsLayout(section: map<string, string>, listing: seq<string>, localExtra: string, sep: char)
    requires HasPathKeys(section)
    ensures var r := ExtraPaths(section, listing, localExtra, sep);
      var n, m := |listing|, |ConfiguredPaths(localExtra, sep)|;
      && |r| == 1 + n + m + |GlobalPaths(section, sep)|
      && r[0] == section["directory"]
      && (forall i | 0 <= i < n :: r[1 + i] == PathJoin(section["parts-directory"], listing[i], sep))
      && r[1 + n .. 1 + n + m] == ConfiguredPaths(localExtra, sep)
      && r[1 + n + m ..] == GlobalPaths(section, sep)
  {
  }

  /** With no (or an empty) global `extra-paths`, the list ends with the local paths. */
  lemma ExtraPathsWithoutGlobal(section: map<string, string>, listing: seq<string>, localExtra: string, sep: char)
    requires HasPathKeys(section)
    requires "extra-paths" !in section || section["extra-paths"] == ""
    ensures ExtraPaths(section, listing, localExtra, sep)
         == [section["directory"]] + PartsPaths(section["parts-directory"], listing, sep)
            + ConfiguredPaths(localExtra, sep)
  {
  }

  /** Two lines that are not blank give two paths, in order. */
  lemma ConfiguredPathsOfTwoLines(x: string, y: string, sep: char)
    requires HasNoLineBreak(x) && HasNoLineBreak(y) && !IsBlank(x) && !IsBlank(y)
    ensures ConfiguredPaths(x + "\n" + y, sep) == [Replace(x, '/', sep), Replace(y, '/', sep)]
  {
    ConfiguredPathsAroundNewline(x, y, sep);
    ConfiguredPathsOfLine(x, sep);
    ConfiguredPathsOfLine(y, sep);
  }

  /** A non-empty path of lower-case letters and '/' is one line, not blank. */
  lemma PlainPath(p: string)
    requires p != [] && forall i | 0 <= i < |p| :: 'a' <= p[i] <= 'z' || p[i] == '/'
    ensures HasNoLineBreak(p) && !IsBlank(p)
  {
    assert !IsSpace(p[0]);
  }

  /** A project directory "/proj" with no parts and `extra-paths` "/x\n/y":
      the list is exactly ["/proj", "/x", "/y"]. */
  lemma ExampleLocalPaths(section: map<string, string>, text: string)
    requires section == map["directory" := "/proj", "parts-directory" := "/proj/parts"]
    requires text == "/x\n/y"
    ensures ExtraPaths(section, [], text, '/') == ["/proj", "/x", "/y"]
  {
    assert text == "/x" + "\n" + "/y";
    PlainPath("/x");
    PlainPath("/y");
    ConfiguredPathsOfTwoLines("/x", "/y", '/');
    ReplaceSame("/x", '/');
    ReplaceSame("/y", '/');
    assert GlobalPaths(section, '/') == [];
  }

  /** Duplicates are kept: a part that `extra-paths` names again is listed
      twice, once among the parts and once among the local paths. */
  lemma ExampleDuplicatesKept(section: map<string, string>, listing: seq<string>, text: string)
    requires section == map["directory" := "/a", "parts-directory" := "/p"]
    requires listing == ["x"] && text == "/p/x"
    ensures ExtraPaths(section, listing, text, '/') == ["/a", "/p/x", "/p/x"]
  {
    assert PathJoin("/p", "x", '/') == "/p/x";
    PlainPath(text);
    ConfiguredPathsOfLine(text, '/');
    ReplaceSame(text, '/');
    assert GlobalPaths(section, '/') == [];
  }
}
