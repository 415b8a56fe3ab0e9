/**
 * The buildout recipe `UWSGI`: it normalises its options when constructed,
 * builds the uWSGI binary on `install` unless it is already in the bin
 * directory, and (re)writes `parts/<name>/uwsgi.xml` on `install` and `update`.
 * Downloading, unpacking, `make`, copying and writing files are recorded as
 * `Step`s; the library calls whose results the recipe only consumes are the
 * fields of `Machine`.
 */
module Recipe {
  import opened PyStr
  import opened OptionMaps
  import opened PathResolver
  import opened ConfigRenderer

  datatype Option<T> = None | Some(value: T)

  /** The world around the recipe, one field per outside call. */
  datatype Machine = Machine(
    sep: char,                                // os.path.sep
    pathExists: string -> bool,                 // os.path.exists
    partsListing: seq<string>,                // os.listdir(parts-directory)
    siteDir: string -> seq<string>,           // site.addsitedir(f, set()), in iteration order
    resolvePath: seq<string> -> seq<string>,  // _get_path(working set of the eggs, extra paths)
    fetchOk: bool,                            // the release archive downloads
    walk: seq<(string, seq<string>)>,         // os.walk of the unpacked release: (root, file names)
    makeOk: bool)                             // `make -f Makefile` exits with status 0

  /** The effects on the world, in the order the recipe causes them. */
  datatype Step =
    | Fetch(url: string)
    | Unpack
    | Make(directory: string, profile: string)
    | CopyToBin(executable: string, binDirectory: string)
    | RemoveExtraction
    | MakeDirectory(path: string)
    | WriteFile(path: string, content: string)

  /** Why `install` stops: a failed download, no `uwsgiconfig.py` in the
      archive (`os.chdir(None)` raises), or `make` failing. */
  datatype Failure = FetchFailed | NoBuildDirectory | MakeFailed

  datatype Outcome = Installed(paths: seq<string>) | Aborted(failure: Failure)

  const BuildDescriptor := "uwsgiconfig.py"

  function ReleaseUrl(version: string): string {
    "http://projects.unbit.it/downloads/uwsgi-" + version + ".tar.gz"
  }

  /** The [buildout] keys the recipe reads without a default. */
  predicate SectionReady(section: map<string, string>) {
    HasPathKeys(section) && "bin-directory" in section
  }

  /** The options after construction: `extra-paths` always exists; when it
      was given, `pythonpath` takes its value; otherwise it takes the value
      of `pythonpath`, or "" if that is missing too. Nothing else changes and
      the existing keys keep their order. */
  function Normalised(d: Dict): (r: Dict)
    requires d.Valid()
    ensures r.Valid()
    ensures "extra-paths" in r.values
    ensures "extra-paths" in d.values ==>
      && r.values["extra-paths"] == d.values["extra-paths"]
      && "pythonpath" in r.values && r.values["pythonpath"] == d.values["extra-paths"]
    ensures "extra-paths" !in d.values ==>
      && r.values["extra-paths"] == d.Get("pythonpath", "")
      && ("pythonpath" in r.values <==> "pythonpath" in d.values)
      && r.Get("pythonpath", "") == d.Get("pythonpath", "")
    ensures forall k | k in d.values && k != "pythonpath" && k != "extra-paths" :: k in r.values && r.values[k] == d.values[k]
    ensures forall k | k in r.values :: k in d.values || k == "pythonpath" || k == "extra-paths"
    ensures |d.keys| <= |r.keys| && r.keys[..|d.keys|] == d.keys
  {
    if "extra-paths" in d.values then d.Store("pythonpath", d.values["extra-paths"])
    else d.SetDefault("extra-paths", d.Get("pythonpath", ""))
  }

  /** Normalising again changes nothing, unless neither `extra-paths` nor
      `pythonpath` was given: then the second pass adds `pythonpath = ""`. */
  lemma NormalisedTwice(d: Dict)
    requires d.Valid()
    ensures Normalised(Normalised(d)) == Normalised(d) <==> ("extra-paths" in d.values || "pythonpath" in d.values)
    ensures "extra-paths" !in d.values && "pythonpath" !in d.values ==>
      Normalised(Normalised(d)) == Normalised(d).Store("pythonpath", "")
  {
    var r := Normalised(d);
    if "extra-paths" in d.values {
      StoreUnchanged(r, "pythonpath");
    } else if "pythonpath" in d.values {
      StoreUnchanged(r, "pythonpath");
    } else {
      assert "pythonpath" !in r.values;
      assert "pythonpath" in Normalised(r).values;
    }
  }

  /** The value `extra-paths` has after `get_extra_paths`: the libraries of
      the `.pth` files appended, when `pth-files` is set. */
  function ResolvedExtra(d: Dict, siteDir: string -> seq<string>): string
    requires "extra-paths" in d.values
  {
    var extra := d.values["extra-paths"];
    if "pth-files" in d.values then WithPthLibraries(extra, SplitLines(d.values["pth-files"]), siteDir)
    else extra
  }

  /** The options after `get_extra_paths`. */
  function Refreshed(d: Dict, siteDir: string -> seq<string>): Dict
    requires "extra-paths" in d.values
  {
    d.Store("extra-paths", ResolvedExtra(d, siteDir))
  }

  function ConfigDirectory(section: map<string, string>, name: string, sep: char): string
    requires SectionReady(section)
  {
    PathJoin(section["parts-directory"], name, sep)
  }

  function ConfigPath(section: map<string, string>, name: string, sep: char): string
    requires SectionReady(section)
  {
    PathJoin(ConfigDirectory(section, name, sep), "uwsgi.xml", sep)
  }

  function BinaryPath(section: map<string, string>, name: string, sep: char): string
    requires SectionReady(section)
  {
    PathJoin(section["bin-directory"], name, sep)
  }

  /** The document `create_conf_xml` writes, from the options it starts with. */
  function ConfigText(section: map<string, string>, d: Dict, m: Machine): string
    requires SectionReady(section) && d.Valid() && "extra-paths" in d.values
  {
    var paths := ExtraPaths(section, m.partsListing, ResolvedExtra(d, m.siteDir), m.sep);
    Document(BodyElements(d.keys, d.values), m.resolvePath(paths))
  }

  /** What `create_conf_xml` does to the world. */
  function ConfigSteps(section: map<string, string>, name: string, d: Dict, m: Machine): seq<Step>
    requires SectionReady(section) && d.Valid() && "extra-paths" in d.values
  {
    [MakeDirectory(ConfigDirectory(section, name, m.sep)), WriteFile(ConfigPath(section, name, m.sep), ConfigText(section, d, m))]
  }

  /** The directory of the unpacked release that holds `uwsgiconfig.py`;
      the last one walked wins. */
  function BuildRoot(walk: seq<(string, seq<string>)>): Option<string>
    decreases |walk|
  {
    if walk == [] then None
    else if BuildDescriptor in walk[|walk| - 1].1 then Some(walk[|walk| - 1].0)
    else BuildRoot(walk[..|walk| - 1])
  }

  /** `BuildRoot` is the root of the last walked directory holding the build
      descriptor, and is missing exactly when no directory holds it. */
  lemma {:induction false} BuildRootIsLastMatch(walk: seq<(string, seq<string>)>)
    ensures BuildRoot(walk).None? <==> forall i | 0 <= i < |walk| :: BuildDescriptor !in walk[i].1
    ensures BuildRoot(walk).Some? ==>
      exists i | 0 <= i < |walk| ::
        && walk[i].0 == BuildRoot(walk).value && BuildDescriptor in walk[i].1
        && forall j | i < j < |walk| :: BuildDescriptor !in walk[j].1
    decreases |walk|
  {
    if walk != [] {
      var n := |walk| - 1;
      BuildRootIsLastMatch(walk[..n]);
      if BuildDescriptor in walk[n].1 {
        assert walk[n].0 == BuildRoot(walk).value;
      } else if BuildRoot(walk[..n]).Some? {
        var i :| 0 <= i < n && walk[..n][i].0 == BuildRoot(walk[..n]).value && BuildDescriptor in walk[..n][i].1
                 && forall j | i < j < n :: BuildDescriptor !in walk[..n][j].1;
        assert walk[i].0 == BuildRoot(walk).value && BuildDescriptor in walk[i].1;
      } else {
        assert forall i | 0 <= i < n :: BuildDescriptor !in walk[..n][i].1;
      }
    }
  }

  /** The loop of `extract_release` over `os.walk`. */
  method LocateBuildDirectory(walk: seq<(string, seq<string>)>) returns (root: Option<string>)
    ensures root == BuildRoot(walk)
  {
    root := None;
    for i := 0 to |walk|
      invariant root == BuildRoot(walk[..i])
    {
      var (dir, files) := walk[i];
      if BuildDescriptor in files {
        root := Some(dir);
      }
      assert walk[..i + 1][..i] == walk[..i];
    }
    assert walk[..|walk|] == walk;
  }

  /** The option loop of `create_conf_xml`: one element per `xml-` option,
      in the order of the keys, by the value rule. */
  method RenderBody(keys: seq<string>, values: map<string, string>) returns (conf: string)
    requires forall k | k in keys :: k in values
    ensures conf == Serialize(BodyElements(keys, values))
  {
    conf := "";
    for i := 0 to |keys|
      invariant conf == Serialize(BodyElements(keys[..i], values))
    {
      var more := RenderEntry(keys[i], values[keys[i]]);
      assert keys[..i + 1][..i] == keys[..i];
      SerializeAppend(BodyElements(keys[..i], values), EntryElements(keys[i], values[keys[i]]));
      conf := conf + more;
    }
    assert keys[..|keys|] == keys;
  }

  /** The text one option adds to the body. */
  method RenderEntry(key: string, value: string) returns (text: string)
    ensures text == Serialize(EntryElements(key, value))
  {
    text := "";
    if IsXmlKey(key) {
      var tag := key[4..];
      if Lower(value) == "true" {
        text := "<" + tag + "/>\n";
        SerializeOne(SelfClosing(tag));
      } else if value != "" && Lower(value) != "false" {
        if '\n' in value {
          text := RenderLeaves(tag, Split(value));
        } else {
          text := "<" + tag + ">" + value + "</" + tag + ">\n";
          SerializeOne(Leaf(tag, value));
        }
      }
    }
  }

  /** `<tag>text</tag>` and a newline for every text, in order. */
  method RenderLeaves(tag: string, texts: seq<string>) returns (out: string)
    ensures out == Serialize(Leaves(tag, texts))
  {
    out := "";
    for j := 0 to |texts|
      invariant out == Serialize(Leaves(tag, texts[..j]))
    {
      var line := "<" + tag + ">" + texts[j] + "</" + tag + ">\n";
      SerializeLeavesStep(tag, texts, j);
      out := out + line;
    }
    assert texts[..|texts|] == texts;
  }

  /** The path loop of `create_conf_xml`. */
  method RenderPythonPaths(paths: seq<string>) returns (out: string)
    ensures out == Serialize(PythonPaths(paths))
  {
    out := RenderLeaves("pythonpath", paths);
  }

  /** One turn of the `.pth` loop in terms of the options it starts from. */
  lemma PthStep(d0: Dict, extra0: string, files: seq<string>, i: nat, siteDir: string -> seq<string>)
    requires i < |files|
    ensures var current := d0.Store("extra-paths", WithPthLibraries(extra0, files[..i], siteDir));
      var libs := siteDir(files[i]);
      d0.Store("extra-paths", WithPthLibraries(extra0, files[..i + 1], siteDir))
        == if libs == [] then current
           else current.Store("extra-paths", current.values["extra-paths"] + "\n" + Join("\n", libs))
  {
    assert files[..i + 1][..i] == files[..i];
    var before := WithPthLibraries(extra0, files[..i], siteDir);
    var libs := siteDir(files[i]);
    if libs != [] {
      StoreTwice(d0, "extra-paths", before, before + "\n" + Join("\n", libs));
    }
  }

  /** Why building the binary stops, if it does. */
  function BuildFailure(m: Machine): Option<Failure> {
    if !m.fetchOk then Some(FetchFailed)
    else if BuildRoot(m.walk).None? then Some(NoBuildDirectory)
    else if !m.makeOk then Some(MakeFailed)
    else None
  }

  /** The effects of building the binary, up to the failure if there is one. */
  function BuildSteps(d: Dict, name: string, bin: string, m: Machine): seq<Step> {
    var fetched := [Fetch(ReleaseUrl(d.Get("version", "latest")))];
    if !m.fetchOk then fetched
    else if BuildRoot(m.walk).None? then fetched + [Unpack]
    else
      var root := BuildRoot(m.walk).value;
      var made := fetched + [Unpack] + [Make(root, d.Get("profile", "default.ini"))];
      if !m.makeOk then made
      else made + [CopyToBin(PathJoin(root, name, m.sep), bin)] + [RemoveExtraction]
  }

  /** `copy_uwsgi_to_bin`: the bin directory joined with the base name of
      the built executable. */
  function BuiltBinary(name: string, bin: string, m: Machine): string
    requires BuildRoot(m.walk).Some?
  {
    PathJoin(bin, Basename(PathJoin(BuildRoot(m.walk).value, name, m.sep), m.sep), m.sep)
  }

  /** Among the failures the model has, the build stops exactly when the
      download fails, no directory of the release holds `uwsgiconfig.py`, or
      `make` fails. It always starts with the download of the requested
      version, never writes the configuration or creates its directory, runs
      `make` in the build directory with the profile once the release is
      unpacked, and removes the extraction only after a successful build. */
  lemma BuildStepsShape(d: Dict, name: string, bin: string, m: Machine)
    ensures BuildFailure(m).None? <==> m.fetchOk && BuildRoot(m.walk).Some? && m.makeOk
    ensures var steps := BuildSteps(d, name, bin, m);
      && steps != [] && steps[0] == Fetch(ReleaseUrl(d.Get("version", "latest")))
      && (forall i | 0 <= i < |steps| :: !steps[i].WriteFile? && !steps[i].MakeDirectory?)
      && (!m.fetchOk ==> steps == [Fetch(ReleaseUrl(d.Get("version", "latest")))])
      && (m.fetchOk ==> |steps| >= 2 && steps[1] == Unpack)
      && (m.fetchOk && BuildRoot(m.walk).None? ==> |steps| == 2)
      && (m.fetchOk && BuildRoot(m.walk).Some? ==>
            |steps| >= 3 && steps[2] == Make(BuildRoot(m.walk).value, d.Get("profile", "default.ini")))
      && (m.fetchOk && BuildRoot(m.walk).Some? && !m.makeOk ==> |steps| == 3)
      && (BuildFailure(m).None? ==>
            |steps| == 5 && steps[3] == CopyToBin(PathJoin(BuildRoot(m.walk).value, name, m.sep), bin)
            && steps[4] == RemoveExtraction)
      && (RemoveExtraction in steps <==> BuildFailure(m).None?)
  {
    var steps := BuildSteps(d, name, bin, m);
    if BuildFailure(m).None? {
      assert steps[|steps| - 1] == RemoveExtraction;
    }
  }

  /** The path `install` reports for the binary is the one it checked for,
      unless the recipe's name holds a separator. */
  lemma BuiltBinaryIsCheckedPath(section: map<string, string>, name: string, m: Machine)
    requires SectionReady(section) && BuildRoot(m.walk).Some?
    requires m.sep !in name
    ensures BuiltBinary(name, section["bin-directory"], m) == BinaryPath(section, name, m.sep)
  {
    BasenameOfJoin(BuildRoot(m.walk).value, name, m.sep);
  }

  /** What `install` returns: the configuration's path, preceded by the
      binary's when it builds one; or why it stopped. */
  function InstallOutcome(section: map<string, string>, name: string, m: Machine): Outcome
    requires SectionReady(section)
  {
    if m.pathExists(BinaryPath(section, name, m.sep)) then Installed([ConfigPath(section, name, m.sep)])
    else if BuildFailure(m).Some? then Aborted(BuildFailure(m).value)
    else Installed([BuiltBinary(name, section["bin-directory"], m), ConfigPath(section, name, m.sep)])
  }

  /** What `install` does to the world, from the options it starts with. */
  function InstallSteps(section: map<string, string>, name: string, d: Dict, m: Machine): seq<Step>
    requires SectionReady(section) && d.Valid() && "extra-paths" in d.values
  {
    var config := ConfigSteps(section, name, d, m);
    if m.pathExists(BinaryPath(section, name, m.sep)) then config
    else
      var built := BuildSteps(d, name, section["bin-directory"], m);
      if BuildFailure(m).Some? then built else built + config
  }

  /** With the binary already in place, `install` downloads, builds and
      copies nothing: it writes the configuration and returns its path. */
  lemma InstallWithBinaryPresent(section: map<string, string>, name: string, d: Dict, m: Machine)
    requires SectionReady(section) && d.Valid() && "extra-paths" in d.values
    requires m.pathExists(BinaryPath(section, name, m.sep))
    ensures InstallOutcome(section, name, m) == Installed([ConfigPath(section, name, m.sep)])
    ensures InstallSteps(section, name, d, m) == ConfigSteps(section, name, d, m)
    ensures var steps := InstallSteps(section, name, d, m);
      forall i | 0 <= i < |steps| :: !steps[i].Fetch? && !steps[i].Make? && !steps[i].CopyToBin?
  {
  }

  /** Among the failures the model has, `install` stops exactly when the
      binary is missing and the download, the search for the build directory
      or `make` fails; it then never writes the configuration or creates its
      directory. */
  lemma InstallAbortedWritesNoConfiguration(section: map<string, string>, name: string, d: Dict, m: Machine)
    requires SectionReady(section) && d.Valid() && "extra-paths" in d.values
    ensures InstallOutcome(section, name, m).Aborted? <==>
      !m.pathExists(BinaryPath(section, name, m.sep)) && (!m.fetchOk || BuildRoot(m.walk).None? || !m.makeOk)
    ensures InstallOutcome(section, name, m).Aborted? ==>
      var steps := InstallSteps(section, name, d, m);
      forall i | 0 <= i < |steps| :: !steps[i].WriteFile? && !steps[i].MakeDirectory?
  {
    BuildStepsShape(d, name, section["bin-directory"], m);
  }

  /** When `install` succeeds, writing the configuration is its last act and
      the configuration's path is the last path it returns. */
  lemma InstallWritesConfigurationLast(section: map<string, string>, name: string, d: Dict, m: Machine)
    requires SectionReady(section) && d.Valid() && "extra-paths" in d.values
    ensures InstallOutcome(section, name, m).Installed? ==>
      var paths := InstallOutcome(section, name, m).paths;
      var steps := InstallSteps(section, name, d, m);
      && |paths| >= 1 && paths[|paths| - 1] == ConfigPath(section, name, m.sep)
      && |steps| >= 2 && steps[|steps| - 2..] == ConfigSteps(section, name, d, m)
  {
    var steps := InstallSteps(section, name, d, m);
    var config := ConfigSteps(section, name, d, m);
    if !m.pathExists(BinaryPath(section, name, m.sep)) && BuildFailure(m).None? {
      assert steps == BuildSteps(d, name, section["bin-directory"], m) + config;
      assert steps[|steps| - 2..] == config;
    }
  }

  /** A successful build downloads the release, copies the executable of the
      build directory into the bin directory and removes the extraction, and
      `install` returns the binary's path, the one it checked for, and the
      configuration's. */
  lemma InstallAfterBuild(section: map<string, string>, name: string, d: Dict, m: Machine)
    requires SectionReady(section) && d.Valid() && "extra-paths" in d.values
    ensures !m.pathExists(BinaryPath(section, name, m.sep)) && InstallOutcome(section, name, m).Installed? ==>
      var steps := InstallSteps(section, name, d, m);
      && m.fetchOk && BuildRoot(m.walk).Some? && m.makeOk
      && |steps| == 7
      && steps[0] == Fetch(ReleaseUrl(d.Get("version", "latest")))
      && steps[3] == CopyToBin(PathJoin(BuildRoot(m.walk).value, name, m.sep), section["bin-directory"])
      && steps[4] == RemoveExtraction
      && (m.sep !in name ==>
            InstallOutcome(section, name, m).paths == [BinaryPath(section, name, m.sep), ConfigPath(section, name, m.sep)])
  {
    if !m.pathExists(BinaryPath(section, name, m.sep)) && BuildFailure(m).None? {
      var built := BuildSteps(d, name, section["bin-directory"], m);
      BuildStepsShape(d, name, section["bin-directory"], m);
      assert InstallSteps(section, name, d, m) == built + ConfigSteps(section, name, d, m);
      if m.sep !in name {
        BuiltBinaryIsCheckedPath(section, name, m);
      }
    }
  }

  class UWSGI {
    /** `buildout['buildout']` */
    const buildoutSection: map<string, string>
    const name: string
    /** The option section, shared with buildout and changed in place. */
    const options: OptionMap

    ghost predicate Valid()
      reads options
    {
      options.dict.Valid() && "extra-paths" in options.dict.values
    }

    constructor(section: map<string, string>, name: string, opts: OptionMap)
      requires opts.dict.Valid()
      modifies opts
      ensures buildoutSection == section && this.name == name && options == opts
      ensures opts.dict == Normalised(old(opts.dict))
      ensures Valid()
    {
      buildoutSection := section;
      this.name := name;
      options := opts;
      new;
      if "extra-paths" in opts.dict.values {
        opts.Store("pythonpath", opts.dict.values["extra-paths"]);
      } else {
        opts.SetDefault("extra-paths", opts.dict.Get("pythonpath", ""));
      }
    }

    /** `get_extra_paths`: appends the `.pth` libraries to the option
        `extra-paths`, then lists the project directory, the parts, the local
        and the global extra paths. */
    method GetExtraPaths(m: Machine) returns (paths: seq<string>)
      requires Valid() && SectionReady(buildoutSection)
      modifies options
      ensures Valid()
      ensures options.dict == Refreshed(old(options.dict), m.siteDir)
      ensures paths == ExtraPaths(buildoutSection, m.partsListing, ResolvedExtra(old(options.dict), m.siteDir), m.sep)
    {
      var partsPath := buildoutSection["parts-directory"];
      var extraPaths := [buildoutSection["directory"]] + PartsPaths(partsPath, m.partsListing, m.sep);
      ghost var d0 := options.dict;
      ghost var extra0 := options.dict.values["extra-paths"];
      StoreUnchanged(d0, "extra-paths");
      if "pth-files" in options.dict.values {
        var files := SplitLines(options.dict.values["pth-files"]);
        for i := 0 to |files|
          invariant options.dict == d0.Store("extra-paths", WithPthLibraries(extra0, files[..i], m.siteDir))
        {
          PthStep(d0, extra0, files, i, m.siteDir);
          var libs := m.siteDir(files[i]);
          if libs != [] {
            options.Store("extra-paths", options.dict.values["extra-paths"] + "\n" + Join("\n", libs));
          }
        }
        assert files[..|files|] == files;
      }
      paths := extraPaths + ConfiguredPaths(options.dict.values["extra-paths"], m.sep);
      if "extra-paths" in buildoutSection && buildoutSection["extra-paths"] != "" {
        paths := paths + ConfiguredPaths(buildoutSection["extra-paths"], m.sep);
      } else {
        assert paths + GlobalPaths(buildoutSection, m.sep) == paths;
      }
    }

    /** `create_conf_xml`: the body from the `xml-` options, then one
        `<pythonpath>` per resolved path, written to `parts/<name>/uwsgi.xml`. */
    method CreateConfXml(m: Machine) returns (xmlPath: string, steps: seq<Step>)
      requires Valid() && SectionReady(buildoutSection)
      modifies options
      ensures Valid()
      ensures options.dict == Refreshed(old(options.dict), m.siteDir)
      ensures xmlPath == ConfigPath(buildoutSection, name, m.sep)
      ensures steps == ConfigSteps(buildoutSection, name, old(options.dict), m)
    {
      var path := PathJoin(buildoutSection["parts-directory"], name, m.sep);
      xmlPath := PathJoin(path, "uwsgi.xml", m.sep);
      var keys, values := options.dict.keys, options.dict.values;
      var conf := RenderBody(keys, values);
      var extra := GetExtraPaths(m);
      var paths := RenderPythonPaths(m.resolvePath(extra));
      DocumentParts(BodyElements(keys, values), m.resolvePath(extra));
      steps := [MakeDirectory(path), WriteFile(xmlPath, "<uwsgi>\n" + conf + paths + "</uwsgi>")];
    }

    /** The part of `install` that builds the binary: download, unpack, find
        the directory with `uwsgiconfig.py`, `make`, copy into the bin
        directory. Returns the failure, if any, and the path of the copy. */
    method BuildBinary(m: Machine) returns (failure: Option<Failure>, binary: string, steps: seq<Step>)
      requires SectionReady(buildoutSection)
      ensures failure == BuildFailure(m)
      ensures steps == BuildSteps(options.dict, name, buildoutSection["bin-directory"], m)
      ensures failure.None? ==> binary == BuiltBinary(name, buildoutSection["bin-directory"], m)
    {
      binary := "";
      steps := [Fetch(ReleaseUrl(options.dict.Get("version", "latest")))];
      if !m.fetchOk {
        return Some(FetchFailed), binary, steps;
      }
      steps := steps + [Unpack];
      var root := LocateBuildDirectory(m.walk);
      if root.None? {
        return Some(NoBuildDirectory), binary, steps;
      }
      steps := steps + [Make(root.value, options.dict.Get("profile", "default.ini"))];
      if !m.makeOk {
        return Some(MakeFailed), binary, steps;
      }
      var bin := buildoutSection["bin-directory"];
      var executable := PathJoin(root.value, name, m.sep);
      steps := steps + [CopyToBin(executable, bin)];
      binary := PathJoin(bin, Basename(executable, m.sep), m.sep);
      steps := steps + [RemoveExtraction];
      failure := None;
    }

    /** `install`: build and copy the binary unless it is already in the bin
        directory, then write the configuration; returns the paths created.
        A failed build stops before the configuration is written. */
    method Install(m: Machine) returns (outcome: Outcome, steps: seq<Step>)
      requires Valid() && SectionReady(buildoutSection)
      modifies options
      ensures Valid()
      ensures outcome == InstallOutcome(buildoutSection, name, m)
      ensures steps == InstallSteps(buildoutSection, name, old(options.dict), m)
      ensures outcome.Aborted? ==> options.dict == old(options.dict)
      ensures outcome.Installed? ==> options.dict == Refreshed(old(options.dict), m.siteDir)
    {
      ghost var d0 := options.dict;
      if m.pathExists(BinaryPath(buildoutSection, name, m.sep)) {
        var xmlPath, written := CreateConfXml(m);
        return Installed([xmlPath]), written;
      }
      var failure, binary, built := BuildBinary(m);
      if failure.Some? {
        return Aborted(failure.value), built;
      }
      var xmlPath, written := CreateConfXml(m);
      assert written == ConfigSteps(buildoutSection, name, d0, m);
      return Installed([binary, xmlPath]), built + written;
    }

    /** `update`: rewrite the configuration; the binary is left alone. */
    method Update(m: Machine) returns (steps: seq<Step>)
      requires Valid() && SectionReady(buildoutSection)
      modifies options
      ensures Valid()
      ensures options.dict == Refreshed(old(options.dict), m.siteDir)
      ensures steps == ConfigSteps(buildoutSection, name, old(options.dict), m)
    {
      var xmlPath;
      xmlPath, steps := CreateConfXml(m);
    }
  }

  /** The local paths after `get_extra_paths`: the configured ones, then the
      `.pth` libraries file by file. */
  lemma ResolvedExtraPaths(d: Dict, siteDir: string -> seq<string>, sep: char)
    requires "extra-paths" in d.values
    ensures ConfiguredPaths(ResolvedExtra(d, siteDir), sep)
         == ConfiguredPaths(d.values["extra-paths"], sep)
            + (if "pth-files" in d.values then PthLibraryPaths(SplitLines(d.values["pth-files"]), siteDir, sep) else [])
  {
    if "pth-files" in d.values {
      PthLibrariesAppended(d.values["extra-paths"], SplitLines(d.values["pth-files"]), siteDir, sep);
    }
  }

  /** When no `.pth` file names a library, `update` leaves the options as they
      were, so a second `update` writes the same file as the first. */
  lemma UpdateIdempotentWithoutPthLibraries(section: map<string, string>, name: string, d: Dict, m: Machine)
    requires SectionReady(section) && d.Valid() && "extra-paths" in d.values
    requires "pth-files" in d.values ==>
      forall i | 0 <= i < |SplitLines(d.values["pth-files"])| :: m.siteDir(SplitLines(d.values["pth-files"])[i]) == []
    ensures Refreshed(d, m.siteDir) == d
    ensures ConfigSteps(section, name, Refreshed(d, m.siteDir), m) == ConfigSteps(section, name, d, m)
  {
    if "pth-files" in d.values {
      PthWithoutLibraries(d.values["extra-paths"], SplitLines(d.values["pth-files"]), m.siteDir);
    }
    StoreUnchanged(d, "extra-paths");
  }

  /** Each `get_extra_paths` on the same options appends the `.pth` libraries
      to `extra-paths` again: a second `update` lists them twice. */
  lemma RepeatedRefreshAppendsPthLibraries(d: Dict, siteDir: string -> seq<string>, sep: char)
    requires "extra-paths" in d.values && "pth-files" in d.values
    ensures var libs := PthLibraryPaths(SplitLines(d.values["pth-files"]), siteDir, sep);
      ConfiguredPaths(ResolvedExtra(Refreshed(d, siteDir), siteDir), sep)
        == ConfiguredPaths(d.values["extra-paths"], sep) + libs + libs
  {
    var r := Refreshed(d, siteDir);
    assert r.values["pth-files"] == d.values["pth-files"];
    assert r.values["extra-paths"] == ResolvedExtra(d, siteDir);
    ResolvedExtraPaths(d, siteDir, sep);
    ResolvedExtraPaths(r, siteDir, sep);
  }
}
