/**
 * `SigmondConfig` of `config_reader.py`, the version the package build uses: the defaults, the
 * boolean overrides, validation, the `-D` argument list with `;`-joined library paths, and the
 * preprocessor definitions.
 */
module ConfigReader {
  import opened Wrappers
  import opened Values
  import Text
  import Dicts
  import Shared

  /** The library path keys this version reads: lists of directories. */
  const IncludeKey := "include_dirs"
  const LibraryKey := "library_dirs"

  // ---------------------------------------------------------------- loading

  /** The `build` section of `_default_config`; `cpuCount` is `os.cpu_count()`. */
  function DefaultBuild(cpuCount: Option<nat>): Entries {
    [
      ("skip_query", Bool(false)),
      ("skip_batch", Bool(false)),
      ("verbose", Bool(false)),
      ("precision", Str("double")),
      ("numbers", Str("complex")),
      ("default_file_format", Str("hdf5")),
      ("enable_minuit", Bool(false)),
      ("enable_grace", Bool(false)),
      ("build_jobs", Int(Shared.CpuCountOr1(cpuCount))),
      ("batch_install_dir", Str("")),
      ("query_install_dir", Str(""))
    ]
  }

  /** The `libraries` section of `_default_config`: empty paths for every library. */
  function DefaultLibraries(): Entries {
    [
      ("hdf5", Table([("hdf5_root", Str(""))])),
      ("lapack", Table([("include_dirs", List([])), ("library_dirs", List([]))])),
      ("accelerate", Table([("framework_dirs", List([]))])),
      ("minuit2", Table([("include_dirs", List([])), ("library_dirs", List([]))])),
      ("grace", Table([("include_dirs", List([])), ("library_dirs", List([]))]))
    ]
  }

  /** `_default_config`. */
  function DefaultConfig(cpuCount: Option<nat>): (r: Entries)
    ensures Shared.BuildLookup(r, "build_jobs") == Some(Int(Shared.CpuCountOr1(cpuCount))) && Shared.CpuCountOr1(cpuCount) >= 1
  {
    DefaultJobs(cpuCount);
    [
      ("build", Table(DefaultBuild(cpuCount))),
      ("libraries", Table(DefaultLibraries())),
      ("compiler", Table([("cxx_flags", List([]))]))
    ]
  }

  /** `_load_config`: the parsed file as a whole when there is one, the defaults otherwise. */
  function LoadConfig(fileTree: Option<Entries>, cpuCount: Option<nat>): Entries {
    match fileTree
    case Some(tree) => tree
    case None => DefaultConfig(cpuCount)
  }

  /** `SigmondConfig(...)`: load, the three boolean overrides, then validation. */
  function Resolve(fileTree: Option<Entries>, env: map<string, string>, cpuCount: Option<nat>): (r: Result<Entries>)
    ensures r.Success? ==> Shared.ConfigErrors(r.value) == []
    ensures fileTree.None? && !Shared.AnyFlagOverride(env) ==> r == Success(DefaultConfig(cpuCount))
  {
    DefaultsValidate(cpuCount);
    var config :- Shared.FlagOverrides(LoadConfig(fileTree, cpuCount), env);
    var warnings :- Shared.Validate(config, IncludeKey, LibraryKey);
    Success(config)
  }

  /**
   * This version has no ensembles-file override: only the three flags can change, and each
   * only towards `True`.
   */
  lemma OverridesOnlyRaiseFlags(config: Entries, env: map<string, string>)
    requires Shared.FlagOverrides(config, env).Success?
    ensures var after := Shared.FlagOverrides(config, env).value;
      && (forall k :: k !in ["skip_query", "skip_batch", "verbose"] ==> Shared.BuildLookup(after, k) == Shared.BuildLookup(config, k))
      && (forall j :: j != "build" ==> Dicts.Lookup(after, j) == Dicts.Lookup(config, j))
      && (forall k :: k in ["skip_query", "skip_batch", "verbose"] ==>
            Shared.BuildLookup(after, k) == Shared.BuildLookup(config, k) || Shared.BuildLookup(after, k) == Some(Bool(true)))
  {
    var after := Shared.FlagOverrides(config, env).value;
    forall k | k !in ["skip_query", "skip_batch", "verbose"]
      ensures Shared.BuildLookup(after, k) == Shared.BuildLookup(config, k)
    {
      Shared.FlagOverridesKeep(config, env, k);
    }
    assert forall j :: j != "build" ==> Dicts.Lookup(after, j) == Dicts.Lookup(config, j) by {
      Shared.FlagOverridesEffect(config, env);
    }
    forall k | k in ["skip_query", "skip_batch", "verbose"]
      ensures Shared.BuildLookup(after, k) == Shared.BuildLookup(config, k) || Shared.BuildLookup(after, k) == Some(Bool(true))
    {
      Shared.FlagOverridesEffect(config, env);
      assert k == "skip_query" || k == "skip_batch" || k == "verbose";
    }
  }

  // One lookup per lemma: several lookups on the literal table in one proof are too costly.
  lemma DefaultSkipQuery(cpuCount: Option<nat>)
    ensures Dicts.Lookup(DefaultBuild(cpuCount), "skip_query") == Some(Bool(false))
  {}
  lemma DefaultSkipBatch(cpuCount: Option<nat>)
    ensures Dicts.Lookup(DefaultBuild(cpuCount), "skip_batch") == Some(Bool(false))
  {
    Dicts.LookupAt(DefaultBuild(cpuCount), 1);
  }
  lemma DefaultPrecision(cpuCount: Option<nat>)
    ensures Dicts.Lookup(DefaultBuild(cpuCount), "precision") == Some(Str("double"))
  {
    Dicts.LookupAt(DefaultBuild(cpuCount), 3);
  }
  lemma DefaultNumbers(cpuCount: Option<nat>)
    ensures Dicts.Lookup(DefaultBuild(cpuCount), "numbers") == Some(Str("complex"))
  {
    Dicts.LookupAt(DefaultBuild(cpuCount), 4);
  }
  lemma DefaultFormat(cpuCount: Option<nat>)
    ensures Dicts.Lookup(DefaultBuild(cpuCount), "default_file_format") == Some(Str("hdf5"))
  {
    Dicts.LookupAt(DefaultBuild(cpuCount), 5);
  }
  lemma DefaultMinuit(cpuCount: Option<nat>)
    ensures Dicts.Lookup(DefaultBuild(cpuCount), "enable_minuit") == Some(Bool(false))
  {
    Dicts.LookupAt(DefaultBuild(cpuCount), 6);
  }
  lemma DefaultGrace(cpuCount: Option<nat>)
    ensures Dicts.Lookup(DefaultBuild(cpuCount), "enable_grace") == Some(Bool(false))
  {
    Dicts.LookupAt(DefaultBuild(cpuCount), 7);
  }
  lemma DefaultJobs(cpuCount: Option<nat>)
    ensures Dicts.Lookup(DefaultBuild(cpuCount), "build_jobs") == Some(Int(Shared.CpuCountOr1(cpuCount)))
  {
    Dicts.LookupAt(DefaultBuild(cpuCount), 8);
  }

  /** The four validated settings of the default `build` section all hold accepted values. */
  lemma DefaultChecks(cpuCount: Option<nat>)
    ensures var e := DefaultBuild(cpuCount);
      && Dicts.Lookup(e, "precision") == Some(Str("double"))
      && Dicts.Lookup(e, "numbers") == Some(Str("complex"))
      && Dicts.Lookup(e, "default_file_format") == Some(Str("hdf5"))
      && Dicts.Lookup(e, "build_jobs") == Some(Int(Shared.CpuCountOr1(cpuCount)))
  {
    DefaultPrecision(cpuCount);
    DefaultNumbers(cpuCount);
    DefaultFormat(cpuCount);
    DefaultJobs(cpuCount);
  }

  /** Every switch of the default `build` section is off. */
  lemma DefaultSwitches(cpuCount: Option<nat>)
    ensures var e := DefaultBuild(cpuCount);
      && Dicts.Lookup(e, "skip_query") == Some(Bool(false))
      && Dicts.Lookup(e, "skip_batch") == Some(Bool(false))
      && Dicts.Lookup(e, "enable_minuit") == Some(Bool(false))
      && Dicts.Lookup(e, "enable_grace") == Some(Bool(false))
  {
    DefaultSkipQuery(cpuCount);
    DefaultSkipBatch(cpuCount);
    DefaultMinuit(cpuCount);
    DefaultGrace(cpuCount);
  }

  /** The defaults pass validation without an advisory. */
  lemma DefaultsValidate(cpuCount: Option<nat>)
    ensures Shared.Validate(DefaultConfig(cpuCount), IncludeKey, LibraryKey) == Success([])
  {
    DefaultChecks(cpuCount);
    DefaultSwitches(cpuCount);
    Shared.QuietValidation(DefaultConfig(cpuCount), IncludeKey, LibraryKey, DefaultBuild(cpuCount), Shared.CpuCountOr1(cpuCount));
  }

  /** The defaults pass validation, so a run without a file and without overrides succeeds. */
  lemma DefaultsResolve(cpuCount: Option<nat>)
    ensures Resolve(None, map[], cpuCount) == Success(DefaultConfig(cpuCount))
  {
    assert !Shared.AnyFlagOverride(map[]) by {
      assert Text.Lower("") == "";
    }
    DefaultsValidate(cpuCount);
  }

  // ---------------------------------------------------------------- get_cmake_args

  /** `-D<name>=<value>` for a path setting whose value is a list joined by `;`. */
  function JoinedDefine(name: string, joined: string): string {
    "-D" + name + "=" + joined
  }

  /**
   * The path settings of one library section, in key order: each truthy setting under
   * `keys[j].0` gives `-D<keys[j].1>=<its elements joined by ';'>`; a falsy one (an empty list
   * among them) gives nothing. Joining raises when the setting holds a non-string.
   */
  function JoinedEntryArgs(section: Value, keys: seq<(string, string)>): (r: Result<seq<string>>)
    ensures r.Failure? ==> r.error == (if section.Table? then TypeError else AttributeError)
    ensures !section.Table? && keys != [] ==> r == Failure(AttributeError)
    ensures r.Success? ==> |r.value| <= |keys| && Shared.AllDefinitions(r.value)
    ensures section.Table? ==> (r.Success? <==> forall j :: 0 <= j < |keys| && TruthyOpt(Dicts.Lookup(section.entries, keys[j].0)) ==>
      JoinValues(";", Dicts.Lookup(section.entries, keys[j].0).value).Success?)
    decreases |keys|
  {
    if keys == [] then Success([])
    else
      assert forall j :: 1 <= j < |keys| ==> keys[j] == keys[1..][j - 1];
      var v :- Get(section, keys[0].0);
      var here :- if TruthyOpt(v) then
          var joined :- JoinValues(";", v.value);
          Success([JoinedDefine(keys[0].1, joined)])
        else Success([]);
      var rest :- JoinedEntryArgs(section, keys[1..]);
      assert here == [] || "-D" <= here[0];
      Shared.AllDefinitionsAppend(here, rest);
      Success(here + rest)
  }

  /** Every truthy path setting of the section gives its `-D<name>=<joined>` argument. */
  lemma {:induction false} JoinedEntryArgsPresent(section: Value, keys: seq<(string, string)>)
    requires JoinedEntryArgs(section, keys).Success? && section.Table?
    ensures forall j :: 0 <= j < |keys| && TruthyOpt(Dicts.Lookup(section.entries, keys[j].0)) ==>
      var joined := JoinValues(";", Dicts.Lookup(section.entries, keys[j].0).value);
      joined.Success? && JoinedDefine(keys[j].1, joined.value) in JoinedEntryArgs(section, keys).value
    decreases |keys|
  {
    if keys != [] {
      var r := JoinedEntryArgs(section, keys).value;
      var rest := JoinedEntryArgs(section, keys[1..]).value;
      JoinedEntryArgsPresent(section, keys[1..]);
      var v := Get(section, keys[0].0).value;
      var here := if TruthyOpt(v) then [JoinedDefine(keys[0].1, JoinValues(";", v.value).value)] else [];
      assert r == here + rest;
      forall j | 0 <= j < |keys| && TruthyOpt(Dicts.Lookup(section.entries, keys[j].0))
        ensures var joined := JoinValues(";", Dicts.Lookup(section.entries, keys[j].0).value);
          joined.Success? && JoinedDefine(keys[j].1, joined.value) in r
      {
        if j == 0 {
          assert r[0] == here[0];
        } else {
          assert keys[j] == keys[1..][j - 1];
        }
      }
    }
  }

  /** A section's arguments never name a variable whose own setting is falsy or absent. */
  lemma {:induction false} JoinedEntryArgsOmits(section: Value, keys: seq<(string, string)>, name: string)
    requires JoinedEntryArgs(section, keys).Success?
    requires '=' !in name && forall j :: 0 <= j < |keys| ==> '=' !in keys[j].1
    requires section.Table? ==> forall j :: 0 <= j < |keys| && keys[j].1 == name ==>
      !TruthyOpt(Dicts.Lookup(section.entries, keys[j].0))
    ensures Shared.NoneNamed(JoinedEntryArgs(section, keys).value, name)
    decreases |keys|
  {
    if keys != [] {
      var v := Get(section, keys[0].0).value;
      var rest := JoinedEntryArgs(section, keys[1..]).value;
      assert forall j :: 1 <= j < |keys| ==> keys[j] == keys[1..][j - 1];
      JoinedEntryArgsOmits(section, keys[1..], name);
      if TruthyOpt(v) {
        var joined := JoinValues(";", v.value).value;
        Shared.NamesExact(name, keys[0].1, joined);
        assert JoinedDefine(keys[0].1, joined) == "-D" + keys[0].1 + "=" + joined;
        Shared.NoneNamedAppend([JoinedDefine(keys[0].1, joined)], rest, name);
      } else {
        assert JoinedEntryArgs(section, keys).value == rest;
      }
    }
  }

  /** `if lib in libraries: ...`: a library section's arguments, none when it is absent. */
  function JoinedSection(libraries: Value, lib: string, keys: seq<(string, string)>): (r: Result<seq<string>>)
    ensures r.Success? ==> Shared.AllDefinitions(r.value)
    ensures libraries.Table? && lib !in Dicts.Keys(libraries.entries) ==> r == Success([])
    ensures libraries.Table? && lib in Dicts.Keys(libraries.entries) ==>
      r == JoinedEntryArgs(Dicts.Lookup(libraries.entries, lib).value, keys)
  {
    var present :- In(lib, libraries);
    if !present then Success([])
    else
      var section :- Subscript(libraries, lib);
      JoinedEntryArgs(section, keys)
  }

  const LapackKeys := [("include_dirs", "SIGMOND_LAPACK_INCLUDE_DIR"), ("library_dirs", "SIGMOND_LAPACK_LIBRARY_DIR")]
  const MinuitKeys := [("include_dirs", "SIGMOND_MINUIT2_INCLUDE_DIR"), ("library_dirs", "SIGMOND_MINUIT2_LIBRARY_DIR")]
  const GraceKeys := [("include_dirs", "SIGMOND_GRACE_INCLUDE_DIR"), ("library_dirs", "SIGMOND_GRACE_LIBRARY_DIR")]
  const AccelerateKeys := [("framework_dirs", "SIGMOND_ACCELERATE_FRAMEWORK_DIR")]

  /** `-DHDF5_ROOT=<hdf5_root>` when the `hdf5` section sets a root; the value is not joined. */
  function HDF5Args(libraries: Value): (r: Result<seq<string>>)
    ensures r.Success? ==> Shared.AllDefinitions(r.value) && |r.value| <= 1
    ensures r.Success? && !libraries.Table? ==> r.value == []
    ensures libraries.Table? && "hdf5" !in Dicts.Keys(libraries.entries) ==> r == Success([])
    ensures libraries.Table? && "hdf5" in Dicts.Keys(libraries.entries) ==>
      var section := Dicts.Lookup(libraries.entries, "hdf5").value;
      && (r.Success? <==> section.Table?)
      && (r.Success? && TruthyOpt(Dicts.Lookup(section.entries, "hdf5_root")) ==>
            r.value == [Shared.Define("HDF5_ROOT", Dicts.Lookup(section.entries, "hdf5_root").value)])
      && (r.Success? && !TruthyOpt(Dicts.Lookup(section.entries, "hdf5_root")) ==> r.value == [])
  {
    var present :- In("hdf5", libraries);
    if !present then Success([])
    else
      var section :- Subscript(libraries, "hdf5");
      var root :- Get(section, "hdf5_root");
      Success(if TruthyOpt(root) then [Shared.Define("HDF5_ROOT", root.value)] else [])
  }

  /** `-D<name>=ON`, a switch. */
  function SwitchOn(name: string): string {
    "-D" + name + "=ON"
  }

  /** The two skip switches, each present exactly when its setting is truthy. */
  function SkipArgs(skipQuery: Value, skipBatch: Value): (r: seq<string>)
    ensures Shared.AllDefinitions(r)
  {
    (if Truthy(skipQuery) then [SwitchOn("SKIP_SIGMOND_QUERY")] else [])
    + (if Truthy(skipBatch) then [SwitchOn("SKIP_SIGMOND_BATCH")] else [])
  }

  /** An install directory, when it is set. */
  function InstallDirArg(name: string, dir: Value): (r: seq<string>)
    ensures Shared.AllDefinitions(r)
    ensures Truthy(dir) ==> r == [Shared.Define(name, dir)]
    ensures !Truthy(dir) ==> Shared.NoneNamed(r, name)
  {
    if Truthy(dir) then [Shared.Define(name, dir)] else []
  }

  /** The build control flags: `build['skip_query']`, then `build['skip_batch']`. */
  function SkipPart(build: Value): (r: Result<seq<string>>)
    ensures r.Success? ==> Shared.AllDefinitions(r.value)
  {
    var skipQuery :- Subscript(build, "skip_query");
    var skipBatch :- Subscript(build, "skip_batch");
    Success(SkipArgs(skipQuery, skipBatch))
  }

  /** The custom install directories, batch first. */
  function DirPart(build: Value): (r: Result<seq<string>>)
    ensures r.Success? ==> Shared.AllDefinitions(r.value)
    ensures r.Success? <==> build.Table? && "batch_install_dir" in Dicts.Keys(build.entries) && "query_install_dir" in Dicts.Keys(build.entries)
    ensures r.Success? ==>
      var batchDir := Subscript(build, "batch_install_dir").value;
      var queryDir := Subscript(build, "query_install_dir").value;
      && (Truthy(batchDir) ==> Shared.Define("SIGMOND_BATCH_INSTALL_DIR", batchDir) in r.value)
      && (!Truthy(batchDir) ==> Shared.NoneNamed(r.value, "SIGMOND_BATCH_INSTALL_DIR"))
      && (Truthy(queryDir) ==> Shared.Define("SIGMOND_QUERY_INSTALL_DIR", queryDir) in r.value)
      && (!Truthy(queryDir) ==> Shared.NoneNamed(r.value, "SIGMOND_QUERY_INSTALL_DIR"))
  {
    var batchDir :- Subscript(build, "batch_install_dir");
    var queryDir :- Subscript(build, "query_install_dir");
    InstallDirsOmit(batchDir, queryDir);
    Shared.AllDefinitionsAppend(InstallDirArg("SIGMOND_BATCH_INSTALL_DIR", batchDir),
      InstallDirArg("SIGMOND_QUERY_INSTALL_DIR", queryDir));
    Success(InstallDirArg("SIGMOND_BATCH_INSTALL_DIR", batchDir) + InstallDirArg("SIGMOND_QUERY_INSTALL_DIR", queryDir))
  }

  /**
   * An optional library's paths: read only when its switch `build[switch]` is truthy, so a
   * disabled library's section is never looked at.
   */
  function OptionalSection(build: Value, switch: string, libraries: Value, lib: string, keys: seq<(string, string)>): (r: Result<seq<string>>)
    ensures r.Success? ==> Shared.AllDefinitions(r.value)
    ensures Subscript(build, switch).Success? && !Truthy(Subscript(build, switch).value) ==> r == Success([])
  {
    var on :- Subscript(build, switch);
    if Truthy(on) then JoinedSection(libraries, lib, keys) else Success([])
  }

  /** The library paths: HDF5, LAPACK, Minuit2, Grace, Accelerate, in that order. */
  function LibraryPart(build: Value, libraries: Value): (r: Result<seq<string>>)
    ensures r.Success? ==> Shared.AllDefinitions(r.value)
  {
    var hdf5 :- HDF5Args(libraries);
    var lapack :- JoinedSection(libraries, "lapack", LapackKeys);
    var minuit2 :- OptionalSection(build, "enable_minuit", libraries, "minuit2", MinuitKeys);
    var grace2 :- OptionalSection(build, "enable_grace", libraries, "grace", GraceKeys);
    var accelerate :- JoinedSection(libraries, "accelerate", AccelerateKeys);
    Shared.AllDefinitionsAppend(hdf5, lapack);
    Shared.AllDefinitionsAppend(hdf5 + lapack, minuit2);
    Shared.AllDefinitionsAppend(hdf5 + lapack + minuit2, grace2);
    Shared.AllDefinitionsAppend(hdf5 + lapack + minuit2 + grace2, accelerate);
    Success(hdf5 + lapack + minuit2 + grace2 + accelerate)
  }

  /**
   * `get_cmake_args`: the skip switches, the install directories, then the library paths,
   * reading the settings in the order the source reads them.
   */
  function CmakeArgs(config: Entries): (r: Result<seq<string>>)
    ensures r.Success? ==> Shared.HasBuildTable(config) && Shared.AllDefinitions(r.value)
    ensures r.Success? ==>
      Shared.BuildLookup(config, "batch_install_dir").Some? && Shared.BuildLookup(config, "query_install_dir").Some?
    ensures "build" !in Dicts.Keys(config) ==> r == Failure(KeyError("build"))
  {
    var build :- Subscript(Table(config), "build");
    var skip :- SkipPart(build);
    var dirs :- DirPart(build);
    var libraries :- Subscript(Table(config), "libraries");
    var libs :- LibraryPart(build, libraries);
    Shared.AllDefinitionsAppend(skip, dirs);
    Shared.AllDefinitionsAppend(skip + dirs, libs);
    Success(skip + dirs + libs)
  }

  /** The three parts `get_cmake_args` concatenates. */
  lemma CmakeArgsParts(config: Entries)
    requires CmakeArgs(config).Success?
    ensures var build := Dicts.Lookup(config, "build").value;
      var libraries := Dicts.Lookup(config, "libraries").value;
      && Shared.HasBuildTable(config)
      && "libraries" in Dicts.Keys(config)
      && SkipPart(build).Success? && DirPart(build).Success? && LibraryPart(build, libraries).Success?
      && CmakeArgs(config).value == SkipPart(build).value + DirPart(build).value + LibraryPart(build, libraries).value
  {
  }

  /** A setting of the `build` table, as `Subscript` and as `BuildLookup` see it. */
  lemma BuildSubscript(config: Entries, key: string)
    requires Shared.HasBuildTable(config)
    ensures var build := Dicts.Lookup(config, "build").value;
      Subscript(build, key).Success? ==> Shared.BuildLookup(config, key) == Some(Subscript(build, key).value)
  {
  }

  /** A section's arguments never name a variable that none of its keys stands for. */
  lemma JoinedSectionOmits(libraries: Value, lib: string, keys: seq<(string, string)>, name: string)
    requires JoinedSection(libraries, lib, keys).Success?
    requires '=' !in name && forall j :: 0 <= j < |keys| ==> '=' !in keys[j].1 && keys[j].1 != name
    ensures Shared.NoneNamed(JoinedSection(libraries, lib, keys).value, name)
  {
    if In(lib, libraries).value {
      JoinedEntryArgsOmits(Subscript(libraries, lib).value, keys, name);
    }
  }

  /** The `hdf5` root never names another variable. */
  lemma HDF5ArgsOmit(libraries: Value, name: string)
    requires HDF5Args(libraries).Success?
    requires '=' !in name && name != "HDF5_ROOT"
    ensures Shared.NoneNamed(HDF5Args(libraries).value, name)
  {
    var r := HDF5Args(libraries).value;
    if r != [] {
      HDF5NamePlain();
      var root := Get(Subscript(libraries, "hdf5").value, "hdf5_root").value.value;
      assert r == [Shared.Define("HDF5_ROOT", root)];
      Shared.NamesExact(name, "HDF5_ROOT", PyStr(root));
    }
  }

  /** An install directory never names another variable. */
  lemma InstallDirArgOmits(dirName: string, dir: Value, name: string)
    requires '=' !in dirName && '=' !in name && dirName != name
    ensures Shared.NoneNamed(InstallDirArg(dirName, dir), name)
  {
    if Truthy(dir) {
      Shared.NamesExact(name, dirName, PyStr(dir));
    }
  }

  /** An unset install directory is absent from the pair, whichever of the two it is. */
  lemma InstallDirsOmit(batchDir: Value, queryDir: Value)
    ensures var dirs := InstallDirArg("SIGMOND_BATCH_INSTALL_DIR", batchDir) + InstallDirArg("SIGMOND_QUERY_INSTALL_DIR", queryDir);
      && (!Truthy(batchDir) ==> Shared.NoneNamed(dirs, "SIGMOND_BATCH_INSTALL_DIR"))
      && (!Truthy(queryDir) ==> Shared.NoneNamed(dirs, "SIGMOND_QUERY_INSTALL_DIR"))
  {
    var b := InstallDirArg("SIGMOND_BATCH_INSTALL_DIR", batchDir);
    var q := InstallDirArg("SIGMOND_QUERY_INSTALL_DIR", queryDir);
    DirNamesPlain();
    if !Truthy(batchDir) {
      InstallDirArgOmits("SIGMOND_QUERY_INSTALL_DIR", queryDir, "SIGMOND_BATCH_INSTALL_DIR");
      Shared.NoneNamedAppend(b, q, "SIGMOND_BATCH_INSTALL_DIR");
    }
    if !Truthy(queryDir) {
      InstallDirArgOmits("SIGMOND_BATCH_INSTALL_DIR", batchDir, "SIGMOND_QUERY_INSTALL_DIR");
      Shared.NoneNamedAppend(b, q, "SIGMOND_QUERY_INSTALL_DIR");
    }
  }

  /** The install directories name only themselves. */
  lemma DirPartOmits(build: Value, name: string)
    requires DirPart(build).Success?
    requires '=' !in name && name != "SIGMOND_BATCH_INSTALL_DIR" && name != "SIGMOND_QUERY_INSTALL_DIR"
    ensures Shared.NoneNamed(DirPart(build).value, name)
  {
    DirNamesPlain();
    var b := InstallDirArg("SIGMOND_BATCH_INSTALL_DIR", Subscript(build, "batch_install_dir").value);
    var q := InstallDirArg("SIGMOND_QUERY_INSTALL_DIR", Subscript(build, "query_install_dir").value);
    InstallDirArgOmits("SIGMOND_BATCH_INSTALL_DIR", Subscript(build, "batch_install_dir").value, name);
    InstallDirArgOmits("SIGMOND_QUERY_INSTALL_DIR", Subscript(build, "query_install_dir").value, name);
    Shared.NoneNamedAppend(b, q, name);
  }

  // No variable name `get_cmake_args` defines contains `=`. Each group is its own lemma:
  // checking a long literal character by character is costly, so it is done once.
  lemma SwitchNamesPlain()
    ensures '=' !in "SKIP_SIGMOND_QUERY" && '=' !in "SKIP_SIGMOND_BATCH"
  {
  }

  lemma DirNamesPlain()
    ensures '=' !in "SIGMOND_BATCH_INSTALL_DIR" && '=' !in "SIGMOND_QUERY_INSTALL_DIR"
  {
  }

  lemma HDF5NamePlain()
    ensures '=' !in "HDF5_ROOT"
  {
  }

  lemma LapackNamesPlain()
    ensures forall j :: 0 <= j < |LapackKeys| ==> '=' !in LapackKeys[j].1
  {
  }

  lemma MinuitNamesPlain()
    ensures forall j :: 0 <= j < |MinuitKeys| ==> '=' !in MinuitKeys[j].1
  {
  }

  lemma GraceNamesPlain()
    ensures forall j :: 0 <= j < |GraceKeys| ==> '=' !in GraceKeys[j].1
  {
  }

  lemma AccelerateNamePlain()
    ensures forall j :: 0 <= j < |AccelerateKeys| ==> '=' !in AccelerateKeys[j].1
  {
  }

  /** The names no library section but the optional ones emit. */
  predicate NotALibraryPathName(name: string) {
    && '=' !in name
    && name !in ["HDF5_ROOT", "SIGMOND_LAPACK_INCLUDE_DIR", "SIGMOND_LAPACK_LIBRARY_DIR", "SIGMOND_ACCELERATE_FRAMEWORK_DIR"]
  }

  /** The names neither the install directories nor any library section but the optional ones emit. */
  predicate NotAPathName(name: string) {
    NotALibraryPathName(name) && name !in ["SIGMOND_BATCH_INSTALL_DIR", "SIGMOND_QUERY_INSTALL_DIR"]
  }

  /** An optional library's block avoids every name but its own, and its own ones when it is off. */
  lemma OptionalSectionOmits(build: Value, switch: string, libraries: Value, lib: string, keys: seq<(string, string)>, name: string)
    requires OptionalSection(build, switch, libraries, lib, keys).Success?
    requires '=' !in name && forall j :: 0 <= j < |keys| ==> '=' !in keys[j].1
    requires (exists j :: 0 <= j < |keys| && keys[j].1 == name) ==> !Truthy(Subscript(build, switch).value)
    ensures Shared.NoneNamed(OptionalSection(build, switch, libraries, lib, keys).value, name)
  {
    if Truthy(Subscript(build, switch).value) {
      JoinedSectionOmits(libraries, lib, keys, name);
    }
  }

  /** HDF5, LAPACK and Accelerate paths never name a variable outside their own sections. */
  lemma FixedSectionsOmit(libraries: Value, name: string)
    requires HDF5Args(libraries).Success?
    requires JoinedSection(libraries, "lapack", LapackKeys).Success?
    requires JoinedSection(libraries, "accelerate", AccelerateKeys).Success?
    requires NotALibraryPathName(name)
    ensures Shared.NoneNamed(HDF5Args(libraries).value, name)
    ensures Shared.NoneNamed(JoinedSection(libraries, "lapack", LapackKeys).value, name)
    ensures Shared.NoneNamed(JoinedSection(libraries, "accelerate", AccelerateKeys).value, name)
  {
    LapackNamesPlain();
    AccelerateNamePlain();
    HDF5ArgsOmit(libraries, name);
    JoinedSectionOmits(libraries, "lapack", LapackKeys, name);
    JoinedSectionOmits(libraries, "accelerate", AccelerateKeys, name);
  }

  /** The Minuit2 and Grace blocks avoid every name but their own, and their own when off. */
  lemma OptionalSectionsOmit(build: Value, libraries: Value, name: string)
    requires OptionalSection(build, "enable_minuit", libraries, "minuit2", MinuitKeys).Success?
    requires OptionalSection(build, "enable_grace", libraries, "grace", GraceKeys).Success?
    requires '=' !in name
    requires name in ["SIGMOND_MINUIT2_INCLUDE_DIR", "SIGMOND_MINUIT2_LIBRARY_DIR"] ==> !Truthy(Subscript(build, "enable_minuit").value)
    requires name in ["SIGMOND_GRACE_INCLUDE_DIR", "SIGMOND_GRACE_LIBRARY_DIR"] ==> !Truthy(Subscript(build, "enable_grace").value)
    ensures Shared.NoneNamed(OptionalSection(build, "enable_minuit", libraries, "minuit2", MinuitKeys).value, name)
    ensures Shared.NoneNamed(OptionalSection(build, "enable_grace", libraries, "grace", GraceKeys).value, name)
  {
    MinuitNamesPlain();
    GraceNamesPlain();
    OptionalSectionOmits(build, "enable_minuit", libraries, "minuit2", MinuitKeys, name);
    OptionalSectionOmits(build, "enable_grace", libraries, "grace", GraceKeys, name);
  }

  /** The skip switches are neither path variables nor optional-library variables. */
  lemma SwitchNamesOutsidePaths()
    ensures NotAPathName("SKIP_SIGMOND_QUERY") && NotAPathName("SKIP_SIGMOND_BATCH")
    ensures "SKIP_SIGMOND_QUERY" !in ["SIGMOND_MINUIT2_INCLUDE_DIR", "SIGMOND_MINUIT2_LIBRARY_DIR", "SIGMOND_GRACE_INCLUDE_DIR", "SIGMOND_GRACE_LIBRARY_DIR"]
    ensures "SKIP_SIGMOND_BATCH" !in ["SIGMOND_MINUIT2_INCLUDE_DIR", "SIGMOND_MINUIT2_LIBRARY_DIR", "SIGMOND_GRACE_INCLUDE_DIR", "SIGMOND_GRACE_LIBRARY_DIR"]
  {
    SwitchNamesPlain();
  }

  /** The Minuit2 variables belong to no other section. */
  lemma MinuitNamesOutside()
    ensures NotAPathName("SIGMOND_MINUIT2_INCLUDE_DIR") && NotAPathName("SIGMOND_MINUIT2_LIBRARY_DIR")
    ensures "SIGMOND_MINUIT2_INCLUDE_DIR" !in ["SKIP_SIGMOND_QUERY", "SKIP_SIGMOND_BATCH", "SIGMOND_GRACE_INCLUDE_DIR", "SIGMOND_GRACE_LIBRARY_DIR"]
    ensures "SIGMOND_MINUIT2_LIBRARY_DIR" !in ["SKIP_SIGMOND_QUERY", "SKIP_SIGMOND_BATCH", "SIGMOND_GRACE_INCLUDE_DIR", "SIGMOND_GRACE_LIBRARY_DIR"]
  {
    MinuitNamesPlain();
  }

  /** The Grace variables belong to no other section. */
  lemma GraceNamesOutside()
    ensures NotAPathName("SIGMOND_GRACE_INCLUDE_DIR") && NotAPathName("SIGMOND_GRACE_LIBRARY_DIR")
    ensures "SIGMOND_GRACE_INCLUDE_DIR" !in ["SKIP_SIGMOND_QUERY", "SKIP_SIGMOND_BATCH", "SIGMOND_MINUIT2_INCLUDE_DIR", "SIGMOND_MINUIT2_LIBRARY_DIR"]
    ensures "SIGMOND_GRACE_LIBRARY_DIR" !in ["SKIP_SIGMOND_QUERY", "SKIP_SIGMOND_BATCH", "SIGMOND_MINUIT2_INCLUDE_DIR", "SIGMOND_MINUIT2_LIBRARY_DIR"]
  {
    GraceNamesPlain();
  }

  /** The library blocks avoid `name` unless it belongs to an enabled optional library. */
  lemma LibraryPartOmits(build: Value, libraries: Value, name: string)
    requires LibraryPart(build, libraries).Success?
    requires NotALibraryPathName(name)
    requires name in ["SIGMOND_MINUIT2_INCLUDE_DIR", "SIGMOND_MINUIT2_LIBRARY_DIR"] ==> !Truthy(Subscript(build, "enable_minuit").value)
    requires name in ["SIGMOND_GRACE_INCLUDE_DIR", "SIGMOND_GRACE_LIBRARY_DIR"] ==> !Truthy(Subscript(build, "enable_grace").value)
    ensures Shared.NoneNamed(LibraryPart(build, libraries).value, name)
  {
    var hdf5 := HDF5Args(libraries).value;
    var lapack := JoinedSection(libraries, "lapack", LapackKeys).value;
    var minuit2 := OptionalSection(build, "enable_minuit", libraries, "minuit2", MinuitKeys).value;
    var grace2 := OptionalSection(build, "enable_grace", libraries, "grace", GraceKeys).value;
    var accelerate := JoinedSection(libraries, "accelerate", AccelerateKeys).value;
    FixedSectionsOmit(libraries, name);
    OptionalSectionsOmit(build, libraries, name);
    Shared.NoneNamedAppend(hdf5, lapack, name);
    Shared.NoneNamedAppend(hdf5 + lapack, minuit2, name);
    Shared.NoneNamedAppend(hdf5 + lapack + minuit2, grace2, name);
    Shared.NoneNamedAppend(hdf5 + lapack + minuit2 + grace2, accelerate, name);
  }

  /** The install directories are no library variable and no switch. */
  lemma DirNamesOutside()
    ensures NotALibraryPathName("SIGMOND_BATCH_INSTALL_DIR") && NotALibraryPathName("SIGMOND_QUERY_INSTALL_DIR")
    ensures "SIGMOND_BATCH_INSTALL_DIR" !in ["SKIP_SIGMOND_QUERY", "SKIP_SIGMOND_BATCH", "SIGMOND_MINUIT2_INCLUDE_DIR",
      "SIGMOND_MINUIT2_LIBRARY_DIR", "SIGMOND_GRACE_INCLUDE_DIR", "SIGMOND_GRACE_LIBRARY_DIR"]
    ensures "SIGMOND_QUERY_INSTALL_DIR" !in ["SKIP_SIGMOND_QUERY", "SKIP_SIGMOND_BATCH", "SIGMOND_MINUIT2_INCLUDE_DIR",
      "SIGMOND_MINUIT2_LIBRARY_DIR", "SIGMOND_GRACE_INCLUDE_DIR", "SIGMOND_GRACE_LIBRARY_DIR"]
  {
    DirNamesPlain();
  }

  /**
   * The install directories over the whole of `get_cmake_args`: a set directory is passed under
   * its variable, and an unset one leaves its variable out altogether.
   */
  lemma CmakeInstallDirs(config: Entries)
    requires CmakeArgs(config).Success?
    ensures var args := CmakeArgs(config).value;
      var batchDir := Shared.BuildLookup(config, "batch_install_dir").value;
      var queryDir := Shared.BuildLookup(config, "query_install_dir").value;
      && (Truthy(batchDir) ==> Shared.Define("SIGMOND_BATCH_INSTALL_DIR", batchDir) in args)
      && (!Truthy(batchDir) ==> Shared.NoneNamed(args, "SIGMOND_BATCH_INSTALL_DIR"))
      && (Truthy(queryDir) ==> Shared.Define("SIGMOND_QUERY_INSTALL_DIR", queryDir) in args)
      && (!Truthy(queryDir) ==> Shared.NoneNamed(args, "SIGMOND_QUERY_INSTALL_DIR"))
  {
    CmakeArgsParts(config);
    var build := Dicts.Lookup(config, "build").value;
    var libraries := Dicts.Lookup(config, "libraries").value;
    var skip, dirs, libs := SkipPart(build).value, DirPart(build).value, LibraryPart(build, libraries).value;
    BuildSubscript(config, "batch_install_dir");
    BuildSubscript(config, "query_install_dir");
    DirNamesOutside();
    DirOmittedAround(skip, dirs, libs, build, libraries, "SIGMOND_BATCH_INSTALL_DIR");
    DirOmittedAround(skip, dirs, libs, build, libraries, "SIGMOND_QUERY_INSTALL_DIR");
  }

  /** An install variable the directories leave out is absent from the whole list. */
  lemma DirOmittedAround(skip: seq<string>, dirs: seq<string>, libs: seq<string>, build: Value, libraries: Value, name: string)
    requires SkipPart(build) == Success(skip) && LibraryPart(build, libraries) == Success(libs)
    requires NotALibraryPathName(name) && name != "SKIP_SIGMOND_QUERY" && name != "SKIP_SIGMOND_BATCH"
    requires name !in ["SIGMOND_MINUIT2_INCLUDE_DIR", "SIGMOND_MINUIT2_LIBRARY_DIR", "SIGMOND_GRACE_INCLUDE_DIR", "SIGMOND_GRACE_LIBRARY_DIR"]
    ensures forall a :: a in dirs ==> a in skip + dirs + libs
    ensures Shared.NoneNamed(dirs, name) ==> Shared.NoneNamed(skip + dirs + libs, name)
  {
    if Shared.NoneNamed(dirs, name) {
      SkipPartOmits(build, name);
      LibraryPartOmits(build, libraries, name);
      Shared.NoneNamedAppend(skip, dirs, name);
      Shared.NoneNamedAppend(skip + dirs, libs, name);
    }
  }

  /** `libraries['hdf5']['hdf5_root']` as `get` reads it, when the tree has such a section. */
  function Hdf5Root(config: Entries): Option<Value> {
    match Dicts.Lookup(config, "libraries")
    case Some(libraries) => RootOf(libraries)
    case None => None
  }

  /**
   * The HDF5 root over the whole of `get_cmake_args`: a set root is passed as `HDF5_ROOT`, and
   * an unset or missing one leaves `HDF5_ROOT` out altogether.
   */
  lemma CmakeHdf5Root(config: Entries)
    requires CmakeArgs(config).Success?
    ensures TruthyOpt(Hdf5Root(config)) ==> Shared.Define("HDF5_ROOT", Hdf5Root(config).value) in CmakeArgs(config).value
    ensures !TruthyOpt(Hdf5Root(config)) ==> Shared.NoneNamed(CmakeArgs(config).value, "HDF5_ROOT")
  {
    CmakeArgsParts(config);
    var build := Dicts.Lookup(config, "build").value;
    var libraries := Dicts.Lookup(config, "libraries").value;
    var skip, dirs, libs := SkipPart(build).value, DirPart(build).value, LibraryPart(build, libraries).value;
    LibraryPartRoot(build, libraries);
    assert Hdf5Root(config) == RootOf(libraries);
    if !TruthyOpt(Hdf5Root(config)) {
      HDF5NamePlain();
      assert "HDF5_ROOT" != "SKIP_SIGMOND_QUERY" && "HDF5_ROOT" != "SKIP_SIGMOND_BATCH";
      assert "HDF5_ROOT" != "SIGMOND_BATCH_INSTALL_DIR" && "HDF5_ROOT" != "SIGMOND_QUERY_INSTALL_DIR";
      SkipPartOmits(build, "HDF5_ROOT");
      DirPartOmits(build, "HDF5_ROOT");
      Shared.NoneNamedAppend(skip, dirs, "HDF5_ROOT");
      Shared.NoneNamedAppend(skip + dirs, libs, "HDF5_ROOT");
    }
  }

  /** The root setting of a `libraries` value, when it holds an `hdf5` table. */
  function RootOf(libraries: Value): Option<Value> {
    if libraries.Table? && "hdf5" in Dicts.Keys(libraries.entries) && Dicts.Lookup(libraries.entries, "hdf5").value.Table?
    then Dicts.Lookup(Dicts.Lookup(libraries.entries, "hdf5").value.entries, "hdf5_root")
    else None
  }

  /** The library blocks pass a set HDF5 root and otherwise never name `HDF5_ROOT`. */
  lemma LibraryPartRoot(build: Value, libraries: Value)
    requires LibraryPart(build, libraries).Success?
    ensures TruthyOpt(RootOf(libraries)) ==> Shared.Define("HDF5_ROOT", RootOf(libraries).value) in LibraryPart(build, libraries).value
    ensures !TruthyOpt(RootOf(libraries)) ==> Shared.NoneNamed(LibraryPart(build, libraries).value, "HDF5_ROOT")
  {
    var hdf5 := HDF5Args(libraries).value;
    var lapack := JoinedSection(libraries, "lapack", LapackKeys).value;
    var minuit2 := OptionalSection(build, "enable_minuit", libraries, "minuit2", MinuitKeys).value;
    var grace2 := OptionalSection(build, "enable_grace", libraries, "grace", GraceKeys).value;
    var accelerate := JoinedSection(libraries, "accelerate", AccelerateKeys).value;
    assert LibraryPart(build, libraries).value == hdf5 + lapack + minuit2 + grace2 + accelerate;
    if !TruthyOpt(RootOf(libraries)) {
      assert hdf5 == [];
      HDF5NamePlain();
      LapackNamesPlain();
      AccelerateNamePlain();
      JoinedSectionOmits(libraries, "lapack", LapackKeys, "HDF5_ROOT");
      JoinedSectionOmits(libraries, "accelerate", AccelerateKeys, "HDF5_ROOT");
      OptionalSectionsOmit(build, libraries, "HDF5_ROOT");
      Shared.NoneNamedAppend(hdf5, lapack, "HDF5_ROOT");
      Shared.NoneNamedAppend(hdf5 + lapack, minuit2, "HDF5_ROOT");
      Shared.NoneNamedAppend(hdf5 + lapack + minuit2, grace2, "HDF5_ROOT");
      Shared.NoneNamedAppend(hdf5 + lapack + minuit2 + grace2, accelerate, "HDF5_ROOT");
    }
  }

  /** Switches for names that differ at some position are different arguments. */
  lemma SwitchesDiffer(a: string, b: string, k: nat)
    requires k < |a| && k < |b| && a[k] != b[k]
    ensures SwitchOn(a) != SwitchOn(b)
  {
    assert SwitchOn(a)[2 + k] == a[k];
    assert SwitchOn(b)[2 + k] == b[k];
  }

  /** Each skip switch is present exactly when its setting is truthy. */
  lemma SkipPartSwitches(build: Value)
    requires SkipPart(build).Success?
    ensures SwitchOn("SKIP_SIGMOND_QUERY") in SkipPart(build).value <==> Truthy(Subscript(build, "skip_query").value)
    ensures SwitchOn("SKIP_SIGMOND_BATCH") in SkipPart(build).value <==> Truthy(Subscript(build, "skip_batch").value)
  {
    SkipSwitchesDiffer();
    SkipArgsSwitches(Subscript(build, "skip_query").value, Subscript(build, "skip_batch").value,
      SwitchOn("SKIP_SIGMOND_QUERY"), SwitchOn("SKIP_SIGMOND_BATCH"));
  }

  /** The two skip switches are different arguments. */
  lemma SkipSwitchesDiffer()
    ensures SwitchOn("SKIP_SIGMOND_QUERY") != SwitchOn("SKIP_SIGMOND_BATCH")
  {
    SwitchesDiffer("SKIP_SIGMOND_QUERY", "SKIP_SIGMOND_BATCH", 13);
  }

  /** Two different optional arguments, each present exactly when its setting is truthy. */
  lemma SkipArgsSwitches(skipQuery: Value, skipBatch: Value, query: string, batch: string)
    requires query == SwitchOn("SKIP_SIGMOND_QUERY") && batch == SwitchOn("SKIP_SIGMOND_BATCH") && query != batch
    ensures query in SkipArgs(skipQuery, skipBatch) <==> Truthy(skipQuery)
    ensures batch in SkipArgs(skipQuery, skipBatch) <==> Truthy(skipBatch)
  {
  }

  /** The skip switches name no other variable. */
  lemma SkipArgsOmit(skipQuery: Value, skipBatch: Value, name: string)
    requires '=' !in name && name != "SKIP_SIGMOND_QUERY" && name != "SKIP_SIGMOND_BATCH"
    ensures Shared.NoneNamed(SkipArgs(skipQuery, skipBatch), name)
  {
    SwitchNamesPlain();
    Shared.NamesExact(name, "SKIP_SIGMOND_QUERY", "ON");
    Shared.NamesExact(name, "SKIP_SIGMOND_BATCH", "ON");
    Shared.NoneNamedAppend(if Truthy(skipQuery) then [SwitchOn("SKIP_SIGMOND_QUERY")] else [],
      if Truthy(skipBatch) then [SwitchOn("SKIP_SIGMOND_BATCH")] else [], name);
  }

  /**
   * The arguments after the skip switches avoid every name outside the fixed sections,
   * except the names of an optional library that is enabled.
   */
  lemma CmakePathsOmit(config: Entries, name: string)
    requires CmakeArgs(config).Success?
    requires NotAPathName(name)
    requires name in ["SIGMOND_MINUIT2_INCLUDE_DIR", "SIGMOND_MINUIT2_LIBRARY_DIR"] ==> !Shared.BuildTruthy(config, "enable_minuit")
    requires name in ["SIGMOND_GRACE_INCLUDE_DIR", "SIGMOND_GRACE_LIBRARY_DIR"] ==> !Shared.BuildTruthy(config, "enable_grace")
    ensures var skip := SkipPart(Dicts.Lookup(config, "build").value);
      skip.Success? && skip.value <= CmakeArgs(config).value
      && Shared.NoneNamed(CmakeArgs(config).value[|skip.value|..], name)
  {
    CmakeArgsParts(config);
    var build := Dicts.Lookup(config, "build").value;
    var libraries := Dicts.Lookup(config, "libraries").value;
    BuildSubscript(config, "enable_minuit");
    BuildSubscript(config, "enable_grace");
    DirPartOmits(build, name);
    LibraryPartOmits(build, libraries, name);
    TailOmits(SkipPart(build).value, DirPart(build).value, LibraryPart(build, libraries).value, name);
  }

  /** What follows a prefix avoids `name` when both blocks after it do. */
  lemma TailOmits(skip: seq<string>, dirs: seq<string>, libs: seq<string>, name: string)
    requires Shared.NoneNamed(dirs, name) && Shared.NoneNamed(libs, name)
    ensures skip <= skip + dirs + libs && Shared.NoneNamed((skip + dirs + libs)[|skip|..], name)
  {
    Shared.NoneNamedAppend(dirs, libs, name);
    assert (skip + dirs + libs)[|skip|..] == dirs + libs;
  }

  /**
   * The skip switches lead: `-DSKIP_SIGMOND_QUERY=ON` and `-DSKIP_SIGMOND_BATCH=ON` appear
   * exactly when their settings are truthy, before every other argument, and nowhere after.
   */
  lemma SkipSwitchesLead(config: Entries)
    requires CmakeArgs(config).Success?
    ensures var args := CmakeArgs(config).value;
      var skip := SkipPart(Dicts.Lookup(config, "build").value);
      && skip.Success? && skip.value <= args
      && (SwitchOn("SKIP_SIGMOND_QUERY") in skip.value <==> Shared.BuildTruthy(config, "skip_query"))
      && (SwitchOn("SKIP_SIGMOND_BATCH") in skip.value <==> Shared.BuildTruthy(config, "skip_batch"))
      && Shared.NoneNamed(args[|skip.value|..], "SKIP_SIGMOND_QUERY")
      && Shared.NoneNamed(args[|skip.value|..], "SKIP_SIGMOND_BATCH")
  {
    CmakeArgsParts(config);
    var build := Dicts.Lookup(config, "build").value;
    BuildSubscript(config, "skip_query");
    BuildSubscript(config, "skip_batch");
    SkipPartSwitches(build);
    SwitchNamesOutsidePaths();
    CmakePathsOmit(config, "SKIP_SIGMOND_QUERY");
    CmakePathsOmit(config, "SKIP_SIGMOND_BATCH");
  }

  /** No argument names a variable that neither a fixed section nor an enabled library emits. */
  lemma NameAbsent(config: Entries, name: string)
    requires CmakeArgs(config).Success?
    requires NotAPathName(name) && name != "SKIP_SIGMOND_QUERY" && name != "SKIP_SIGMOND_BATCH"
    requires name in ["SIGMOND_MINUIT2_INCLUDE_DIR", "SIGMOND_MINUIT2_LIBRARY_DIR"] ==> !Shared.BuildTruthy(config, "enable_minuit")
    requires name in ["SIGMOND_GRACE_INCLUDE_DIR", "SIGMOND_GRACE_LIBRARY_DIR"] ==> !Shared.BuildTruthy(config, "enable_grace")
    ensures Shared.NoneNamed(CmakeArgs(config).value, name)
  {
    var build := Dicts.Lookup(config, "build").value;
    CmakePathsOmit(config, name);
    SkipPartOmits(build, name);
    PrefixOmits(CmakeArgs(config).value, SkipPart(build).value, name);
  }

  /** The skip switches avoid every name but their own. */
  lemma SkipPartOmits(build: Value, name: string)
    requires SkipPart(build).Success?
    requires '=' !in name && name != "SKIP_SIGMOND_QUERY" && name != "SKIP_SIGMOND_BATCH"
    ensures Shared.NoneNamed(SkipPart(build).value, name)
  {
    SkipArgsOmit(Subscript(build, "skip_query").value, Subscript(build, "skip_batch").value, name);
  }

  /** A list avoids `name` when a prefix of it and the rest both do. */
  lemma PrefixOmits(args: seq<string>, prefix: seq<string>, name: string)
    requires prefix <= args
    requires Shared.NoneNamed(prefix, name) && Shared.NoneNamed(args[|prefix|..], name)
    ensures Shared.NoneNamed(args, name)
  {
    assert args == prefix + args[|prefix|..];
    Shared.NoneNamedAppend(prefix, args[|prefix|..], name);
  }

  /** Minuit2 paths appear only when Minuit2 is enabled. */
  lemma MinuitPathsGated(config: Entries)
    requires CmakeArgs(config).Success?
    ensures !Shared.BuildTruthy(config, "enable_minuit") ==>
      Shared.NoneNamed(CmakeArgs(config).value, "SIGMOND_MINUIT2_INCLUDE_DIR")
      && Shared.NoneNamed(CmakeArgs(config).value, "SIGMOND_MINUIT2_LIBRARY_DIR")
  {
    if !Shared.BuildTruthy(config, "enable_minuit") {
      MinuitNamesOutside();
      NameAbsent(config, "SIGMOND_MINUIT2_INCLUDE_DIR");
      NameAbsent(config, "SIGMOND_MINUIT2_LIBRARY_DIR");
    }
  }

  /** Grace paths appear only when Grace is enabled. */
  lemma GracePathsGated(config: Entries)
    requires CmakeArgs(config).Success?
    ensures !Shared.BuildTruthy(config, "enable_grace") ==>
      Shared.NoneNamed(CmakeArgs(config).value, "SIGMOND_GRACE_INCLUDE_DIR")
      && Shared.NoneNamed(CmakeArgs(config).value, "SIGMOND_GRACE_LIBRARY_DIR")
  {
    if !Shared.BuildTruthy(config, "enable_grace") {
      GraceNamesOutside();
      NameAbsent(config, "SIGMOND_GRACE_INCLUDE_DIR");
      NameAbsent(config, "SIGMOND_GRACE_LIBRARY_DIR");
    }
  }

  // ---------------------------------------------------------------- get_compiler_definitions

  /** The preprocessor macros `get_compiler_definitions` can name. */
  datatype Macro =
    | SinglePrecision | DoublePrecision
    | RealNumbers | ComplexNumbers
    | DefaultFstream | DefaultHdf5
    | NoGrace | NoMinuit | NoXml | Hdf5 | Lapack

  /** The macro as the source spells it. */
  function MacroName(m: Macro): string {
    match m
    case SinglePrecision => "SINGLEPRECISION"
    case DoublePrecision => "DOUBLEPRECISION"
    case RealNumbers => "REALNUMBERS"
    case ComplexNumbers => "COMPLEXNUMBERS"
    case DefaultFstream => "DEFAULT_FSTREAM"
    case DefaultHdf5 => "DEFAULT_HDF5"
    case NoGrace => "NOGRACE"
    case NoMinuit => "NO_MINUIT"
    case NoXml => "NOXML"
    case Hdf5 => "HDF5"
    case Lapack => "LAPACK"
  }

  /** Different macros are spelled differently, so a list of macros and its spelling agree on duplicates. */
  lemma MacroNamesDiffer(a: Macro, b: Macro)
    requires a != b
    ensures MacroName(a) != MacroName(b)
  {
    if |MacroName(a)| == |MacroName(b)| {
      assert MacroName(a)[1] != MacroName(b)[1];
    }
  }

  /** The spelled-out list. */
  function MacroNames(ms: seq<Macro>): (r: seq<string>)
    ensures |r| == |ms|
    ensures forall i :: 0 <= i < |ms| ==> r[i] == MacroName(ms[i])
  {
    seq(|ms|, i requires 0 <= i < |ms| => MacroName(ms[i]))
  }

  /** `list.remove(x)`: drops the first occurrence of `x`; the source only removes what is there. */
  function Remove<T(==)>(xs: seq<T>, x: T): (r: seq<T>)
    requires x in xs
    ensures |r| == |xs| - 1
  {
    if xs[0] == x then xs[1..] else [xs[0]] + Remove(xs[1..], x)
  }

  /** Removing an element drops its first occurrence and keeps everything else in order. */
  lemma {:induction false} RemoveFirst<T>(pre: seq<T>, x: T, post: seq<T>)
    requires x !in pre
    ensures Remove(pre + [x] + post, x) == pre + post
  {
    var xs := pre + [x] + post;
    if pre != [] {
      assert xs[0] == pre[0] && xs[1..] == pre[1..] + [x] + post;
      RemoveFirst(pre[1..], x, post);
      assert pre + post == [pre[0]] + (pre[1..] + post);
    } else {
      assert xs[1..] == post;
    }
  }

  /** The same, for a list written as the prefix followed by `x` and the rest. */
  lemma RemoveBetween<T>(pre: seq<T>, x: T, post: seq<T>)
    requires x !in pre
    ensures x in pre + ([x] + post)
    ensures Remove(pre + ([x] + post), x) == pre + post
  {
    assert pre + ([x] + post) == pre + [x] + post;
    RemoveFirst(pre, x, post);
  }

  /** One macro from each pair, chosen by the lower-cased settings. */
  function Selectors(precision: string, numbers: string, format: string): seq<Macro> {
    [ if precision == "single" then SinglePrecision else DoublePrecision,
      if numbers == "real" then RealNumbers else ComplexNumbers,
      if format == "fstream" then DefaultFstream else DefaultHdf5 ]
  }

  /** The macros that survive the removals: a disabling macro stays when its feature is off. */
  function Survivors(minuit: bool, grace: bool, skipBatch: bool): seq<Macro> {
    (if grace then [] else [NoGrace])
    + (if minuit then [] else [NoMinuit])
    + (if skipBatch then [NoXml] else [])
    + [Hdf5, Lapack]
  }

  /** The three selector macros, reading precision, numbers and file format in that order. */
  function SelectorMacros(build: Value): Result<seq<Macro>> {
    var precision :- Shared.LoweredSetting(build, "precision");
    var numbers :- Shared.LoweredSetting(build, "numbers");
    var format :- Shared.LoweredSetting(build, "default_file_format");
    Success(Selectors(precision, numbers, format))
  }

  /** The Minuit2, Grace and skip-batch switches, read in that order and taken for their truth. */
  function FeatureSwitches(build: Value): Result<(bool, bool, bool)> {
    var minuit :- Subscript(build, "enable_minuit");
    var grace :- Subscript(build, "enable_grace");
    var skipBatch :- Subscript(build, "skip_batch");
    Success((Truthy(minuit), Truthy(grace), Truthy(skipBatch)))
  }

  /** No selector is one of the macros the removals look for. */
  lemma SelectorsNotDisabling(build: Value)
    requires SelectorMacros(build).Success?
    ensures var sel := SelectorMacros(build).value;
      NoGrace !in sel && NoMinuit !in sel && NoXml !in sel
  {
    var sel := Selectors(Shared.LoweredSetting(build, "precision").value, Shared.LoweredSetting(build, "numbers").value,
      Shared.LoweredSetting(build, "default_file_format").value);
    assert SelectorMacros(build).value == sel;
    SelectorsUnranked(Shared.LoweredSetting(build, "precision").value, Shared.LoweredSetting(build, "numbers").value,
      Shared.LoweredSetting(build, "default_file_format").value);
  }

  /** Selectors rank behind every disabling and always-present macro. */
  lemma SelectorsUnranked(precision: string, numbers: string, format: string)
    ensures forall m :: m in Selectors(precision, numbers, format) ==> SurvivorRank(m) == 5
  {
  }

  /** What `get_compiler_definitions` computes, reading the settings in the source's order. */
  function CompilerMacros(config: Entries): (r: Result<seq<Macro>>)
    ensures r.Success? ==> 5 <= |r.value| <= 8 && Hdf5 in r.value && Lapack in r.value
  {
    var build :- Subscript(Table(config), "build");
    var selectors :- SelectorMacros(build);
    var switches :- FeatureSwitches(build);
    Success(selectors + Survivors(switches.0, switches.1, switches.2))
  }

  /** `get_compiler_definitions`: the macro names. */
  function CompilerDefinitions(config: Entries): (r: Result<seq<string>>)
    ensures r.Success? <==> CompilerMacros(config).Success?
    ensures r.Success? ==> 5 <= |r.value| <= 8 && "HDF5" in r.value && "LAPACK" in r.value
  {
    match CompilerMacros(config)
    case Failure(e) => Failure(e)
    case Success(ms) =>
      AlwaysNamed(ms);
      Success(MacroNames(ms))
  }

  /** A list holding `HDF5` and `LAPACK` names both. */
  lemma AlwaysNamed(ms: seq<Macro>)
    requires Hdf5 in ms && Lapack in ms
    ensures "HDF5" in MacroNames(ms) && "LAPACK" in MacroNames(ms)
  {
    var i :| 0 <= i < |ms| && ms[i] == Hdf5;
    assert MacroNames(ms)[i] == "HDF5";
    var j :| 0 <= j < |ms| && ms[j] == Lapack;
    assert MacroNames(ms)[j] == "LAPACK";
  }

  /** The position of a disabling or always-present macro in the list the source extends with. */
  function SurvivorRank(m: Macro): nat {
    match m
    case NoGrace => 0
    case NoMinuit => 1
    case NoXml => 2
    case Hdf5 => 3
    case Lapack => 4
    case _ => 5
  }

  /**
   * The survivors: `HDF5` and `LAPACK` always, `NO_MINUIT` exactly without Minuit2, `NOGRACE`
   * exactly without Grace, `NOXML` exactly when the batch executable is skipped.
   */
  lemma SurvivorsPresent(minuit: bool, grace: bool, skipBatch: bool)
    ensures var s := Survivors(minuit, grace, skipBatch);
      && Hdf5 in s && Lapack in s
      && (NoMinuit in s <==> !minuit)
      && (NoGrace in s <==> !grace)
      && (NoXml in s <==> skipBatch)
  {
  }

  /** The survivors keep the order of the list the source extends with. */
  lemma SurvivorsOrdered(minuit: bool, grace: bool, skipBatch: bool)
    ensures var s := Survivors(minuit, grace, skipBatch);
      && (forall i :: 0 <= i < |s| ==> SurvivorRank(s[i]) < 5)
      && (forall i, j :: 0 <= i < j < |s| ==> SurvivorRank(s[i]) < SurvivorRank(s[j]))
  {
    var s := Survivors(minuit, grace, skipBatch);
    var full := [NoGrace, NoMinuit, NoXml, Hdf5, Lapack];
    assert forall i :: 0 <= i < |full| ==> SurvivorRank(full[i]) == i;
  }

  /** The parts of a successful `get_compiler_definitions`. */
  lemma CompilerMacrosParts(config: Entries)
    requires CompilerMacros(config).Success?
    ensures var build := Dicts.Lookup(config, "build").value;
      && Shared.LoweredSetting(build, "precision").Success?
      && Shared.LoweredSetting(build, "numbers").Success?
      && Shared.LoweredSetting(build, "default_file_format").Success?
      && Shared.HasBuildTable(config)
      && CompilerMacros(config).value ==
        Selectors(Shared.LoweredSetting(build, "precision").value, Shared.LoweredSetting(build, "numbers").value,
          Shared.LoweredSetting(build, "default_file_format").value)
        + Survivors(Shared.BuildTruthy(config, "enable_minuit"), Shared.BuildTruthy(config, "enable_grace"),
          Shared.BuildTruthy(config, "skip_batch"))
  {
    BuildSubscript(config, "enable_minuit");
    BuildSubscript(config, "enable_grace");
    BuildSubscript(config, "skip_batch");
  }

  /**
   * `get_compiler_definitions`: one macro from each selector pair, in the order precision,
   * numbers, file format; then the survivors in the order `NOGRACE`, `NO_MINUIT`, `NOXML`,
   * `HDF5`, `LAPACK`; and no macro twice.
   */
  lemma CompilerMacrosShape(config: Entries)
    requires CompilerMacros(config).Success?
    ensures var ms := CompilerMacros(config).value;
      var build := Dicts.Lookup(config, "build").value;
      && |ms| >= 5
      && (ms[0] == SinglePrecision <==> Shared.LoweredSetting(build, "precision").value == "single")
      && ms[0] in [SinglePrecision, DoublePrecision]
      && (ms[1] == RealNumbers <==> Shared.LoweredSetting(build, "numbers").value == "real")
      && ms[1] in [RealNumbers, ComplexNumbers]
      && (ms[2] == DefaultFstream <==> Shared.LoweredSetting(build, "default_file_format").value == "fstream")
      && ms[2] in [DefaultFstream, DefaultHdf5]
      && (forall i :: 3 <= i < |ms| ==> SurvivorRank(ms[i]) < 5)
      && (forall i, j :: 3 <= i < j < |ms| ==> SurvivorRank(ms[i]) < SurvivorRank(ms[j]))
      && (forall i, j :: 0 <= i < j < |ms| ==> ms[i] != ms[j])
  {
    CompilerMacrosParts(config);
    var build := Dicts.Lookup(config, "build").value;
    MacroListShape(Shared.LoweredSetting(build, "precision").value, Shared.LoweredSetting(build, "numbers").value,
      Shared.LoweredSetting(build, "default_file_format").value, Shared.BuildTruthy(config, "enable_minuit"),
      Shared.BuildTruthy(config, "enable_grace"), Shared.BuildTruthy(config, "skip_batch"));
  }

  /** The shape of the selectors followed by the survivors, for any settings. */
  lemma MacroListShape(precision: string, numbers: string, format: string, minuit: bool, grace: bool, skipBatch: bool)
    ensures var ms := Selectors(precision, numbers, format) + Survivors(minuit, grace, skipBatch);
      && |ms| >= 5
      && (ms[0] == SinglePrecision <==> precision == "single")
      && ms[0] in [SinglePrecision, DoublePrecision]
      && (ms[1] == RealNumbers <==> numbers == "real")
      && ms[1] in [RealNumbers, ComplexNumbers]
      && (ms[2] == DefaultFstream <==> format == "fstream")
      && ms[2] in [DefaultFstream, DefaultHdf5]
      && (forall i :: 3 <= i < |ms| ==> SurvivorRank(ms[i]) < 5)
      && (forall i, j :: 3 <= i < j < |ms| ==> SurvivorRank(ms[i]) < SurvivorRank(ms[j]))
      && (forall i, j :: 0 <= i < j < |ms| ==> ms[i] != ms[j])
  {
    SurvivorsOrdered(minuit, grace, skipBatch);
    SelectorsThenSurvivors(Selectors(precision, numbers, format), Survivors(minuit, grace, skipBatch));
  }

  /** Selector macros followed by ranked survivors hold no macro twice. */
  lemma SelectorsThenSurvivors(sel: seq<Macro>, sur: seq<Macro>)
    requires |sel| == 3 && sel[0] in [SinglePrecision, DoublePrecision] && sel[1] in [RealNumbers, ComplexNumbers]
    requires sel[2] in [DefaultFstream, DefaultHdf5]
    requires forall i :: 0 <= i < |sur| ==> SurvivorRank(sur[i]) < 5
    requires forall i, j :: 0 <= i < j < |sur| ==> SurvivorRank(sur[i]) < SurvivorRank(sur[j])
    ensures var ms := sel + sur;
      && (forall i :: 3 <= i < |ms| ==> SurvivorRank(ms[i]) < 5)
      && (forall i, j :: 3 <= i < j < |ms| ==> SurvivorRank(ms[i]) < SurvivorRank(ms[j]))
      && (forall i, j :: 0 <= i < j < |ms| ==> ms[i] != ms[j])
  {
    var ms := sel + sur;
    forall i, j | 0 <= i < j < |ms|
      ensures ms[i] != ms[j]
    {
      if i >= 3 {
        assert ms[i] == sur[i - 3] && ms[j] == sur[j - 3];
      } else if j >= 3 {
        assert ms[j] == sur[j - 3];
      }
    }
  }

  /** Which of the five other macros follow the selectors. */
  lemma MacrosPresent(precision: string, numbers: string, format: string, minuit: bool, grace: bool, skipBatch: bool)
    ensures var ms := Selectors(precision, numbers, format) + Survivors(minuit, grace, skipBatch);
      && Hdf5 in ms && Lapack in ms
      && (NoMinuit in ms <==> !minuit)
      && (NoGrace in ms <==> !grace)
      && (NoXml in ms <==> skipBatch)
  {
    var sel := Selectors(precision, numbers, format);
    var sur := Survivors(minuit, grace, skipBatch);
    SurvivorsPresent(minuit, grace, skipBatch);
    assert forall m :: m in sel ==> SurvivorRank(m) == 5;
    assert forall m :: m in sel + sur <==> m in sel || m in sur;
  }

  /**
   * `HDF5` and `LAPACK` are always among the macros, `NO_MINUIT` exactly without Minuit2,
   * `NOGRACE` exactly without Grace, `NOXML` exactly when the batch executable is skipped.
   */
  lemma CompilerMacrosPresent(config: Entries)
    requires CompilerMacros(config).Success?
    ensures var ms := CompilerMacros(config).value;
      && Hdf5 in ms && Lapack in ms
      && (NoMinuit in ms <==> !Shared.BuildTruthy(config, "enable_minuit"))
      && (NoGrace in ms <==> !Shared.BuildTruthy(config, "enable_grace"))
      && (NoXml in ms <==> Shared.BuildTruthy(config, "skip_batch"))
  {
    CompilerMacrosParts(config);
    var build := Dicts.Lookup(config, "build").value;
    MacrosPresent(Shared.LoweredSetting(build, "precision").value, Shared.LoweredSetting(build, "numbers").value,
      Shared.LoweredSetting(build, "default_file_format").value, Shared.BuildTruthy(config, "enable_minuit"),
      Shared.BuildTruthy(config, "enable_grace"), Shared.BuildTruthy(config, "skip_batch"));
  }

  /**
   * The same facts about the names the source returns: `HDF5` and `LAPACK` always,
   * `NO_MINUIT` exactly without Minuit2, `NOGRACE` exactly without Grace, `NOXML` exactly
   * when the batch executable is skipped, and no name twice.
   */
  lemma CompilerDefinitionsShape(config: Entries)
    requires CompilerDefinitions(config).Success?
    ensures var defs := CompilerDefinitions(config).value;
      && "HDF5" in defs && "LAPACK" in defs
      && ("NO_MINUIT" in defs <==> !Shared.BuildTruthy(config, "enable_minuit"))
      && ("NOGRACE" in defs <==> !Shared.BuildTruthy(config, "enable_grace"))
      && ("NOXML" in defs <==> Shared.BuildTruthy(config, "skip_batch"))
      && (forall i, j :: 0 <= i < j < |defs| ==> defs[i] != defs[j])
  {
    var ms := CompilerMacros(config).value;
    CompilerMacrosShape(config);
    CompilerMacrosPresent(config);
    SpelledDistinct(ms);
    SpelledPresence(ms);
  }

  /** A list without repeated macros spells a list without repeated names. */
  lemma SpelledDistinct(ms: seq<Macro>)
    requires forall i, j :: 0 <= i < j < |ms| ==> ms[i] != ms[j]
    ensures var defs := MacroNames(ms);
      forall i, j :: 0 <= i < j < |defs| ==> defs[i] != defs[j]
  {
    forall i, j | 0 <= i < j < |ms|
      ensures MacroName(ms[i]) != MacroName(ms[j])
    {
      MacroNamesDiffer(ms[i], ms[j]);
    }
  }

  /** The five survivors' names are in the spelled list exactly when the macros are in the list. */
  lemma SpelledPresence(ms: seq<Macro>)
    ensures Hdf5 in ms <==> "HDF5" in MacroNames(ms)
    ensures Lapack in ms <==> "LAPACK" in MacroNames(ms)
    ensures NoMinuit in ms <==> "NO_MINUIT" in MacroNames(ms)
    ensures NoGrace in ms <==> "NOGRACE" in MacroNames(ms)
    ensures NoXml in ms <==> "NOXML" in MacroNames(ms)
  {
    NameSpelled(ms, Hdf5);
    NameSpelled(ms, Lapack);
    NameSpelled(ms, NoMinuit);
    NameSpelled(ms, NoGrace);
    NameSpelled(ms, NoXml);
  }

  /** A macro is in the list exactly when its name is in the spelled list. */
  lemma NameSpelled(ms: seq<Macro>, m: Macro)
    ensures m in ms <==> MacroName(m) in MacroNames(ms)
  {
    if MacroName(m) in MacroNames(ms) {
      var i :| 0 <= i < |ms| && MacroNames(ms)[i] == MacroName(m);
      if ms[i] != m {
        MacroNamesDiffer(ms[i], m);
      }
    }
  }

  /** The five macros the source appends, after the `NO_MINUIT` removal (when Minuit2 is on). */
  function AfterMinuit(minuit: bool): seq<Macro> {
    [NoGrace] + (if minuit then [] else [NoMinuit]) + [NoXml, Hdf5, Lapack]
  }

  /** The same after the `NOGRACE` removal (when Grace is on). */
  function AfterGrace(minuit: bool, grace: bool): seq<Macro> {
    (if grace then [] else [NoGrace]) + (if minuit then [] else [NoMinuit]) + [NoXml, Hdf5, Lapack]
  }

  /** A step that removes nothing leaves the list as it was. */
  lemma StagesAgree(minuit: bool, grace: bool)
    ensures AfterMinuit(false) == [NoGrace, NoMinuit, NoXml, Hdf5, Lapack]
    ensures AfterGrace(minuit, false) == AfterMinuit(minuit)
    ensures AfterGrace(minuit, grace) == Survivors(minuit, grace, true)
  {
  }

  /** Removing `NO_MINUIT` from the extended list. */
  lemma DropMinuit(selectors: seq<Macro>)
    requires NoMinuit !in selectors
    ensures NoMinuit in selectors + AfterMinuit(false)
    ensures Remove(selectors + AfterMinuit(false), NoMinuit) == selectors + AfterMinuit(true)
  {
    RemoveFirst(selectors + [NoGrace], NoMinuit, [NoXml, Hdf5, Lapack]);
    assert selectors + [NoGrace] + [NoMinuit] + [NoXml, Hdf5, Lapack] == selectors + AfterMinuit(false);
    assert selectors + [NoGrace] + [NoXml, Hdf5, Lapack] == selectors + AfterMinuit(true);
  }

  /** Removing `NOGRACE`, which follows the selectors directly. */
  lemma DropGrace(selectors: seq<Macro>, minuit: bool)
    requires NoGrace !in selectors
    ensures NoGrace in selectors + AfterMinuit(minuit)
    ensures Remove(selectors + AfterMinuit(minuit), NoGrace) == selectors + AfterGrace(minuit, true)
  {
    GraceStage(minuit);
    RemoveBetween(selectors, NoGrace, BehindGrace(minuit));
  }

  /** What follows `NOGRACE` in the extended list once the `NO_MINUIT` step has run. */
  function BehindGrace(minuit: bool): seq<Macro> {
    (if minuit then [] else [NoMinuit]) + [NoXml, Hdf5, Lapack]
  }

  /** Before and after the `NOGRACE` removal, split around `NOGRACE`. */
  lemma GraceStage(minuit: bool)
    ensures AfterMinuit(minuit) == [NoGrace] + BehindGrace(minuit)
    ensures AfterGrace(minuit, true) == BehindGrace(minuit)
  {
  }

  /** The disabling macros still present before the `NOXML` removal. */
  function Disabling(minuit: bool, grace: bool): seq<Macro> {
    (if grace then [] else [NoGrace]) + (if minuit then [] else [NoMinuit])
  }

  /** Before and after the `NOXML` removal, split around `NOXML`. */
  lemma DisablingStage(minuit: bool, grace: bool)
    ensures NoXml !in Disabling(minuit, grace)
    ensures AfterGrace(minuit, grace) == Disabling(minuit, grace) + [NoXml] + [Hdf5, Lapack]
    ensures Survivors(minuit, grace, false) == Disabling(minuit, grace) + [Hdf5, Lapack]
  {
  }

  /** Removing `NOXML`, which comes just before `HDF5` and `LAPACK`. */
  lemma DropXml(selectors: seq<Macro>, minuit: bool, grace: bool)
    requires NoXml !in selectors
    ensures NoXml in selectors + AfterGrace(minuit, grace)
    ensures Remove(selectors + AfterGrace(minuit, grace), NoXml) == selectors + Survivors(minuit, grace, false)
  {
    DisablingStage(minuit, grace);
    var flags := Disabling(minuit, grace);
    RemoveFirst(selectors + flags, NoXml, [Hdf5, Lapack]);
    assert selectors + flags + [NoXml] + [Hdf5, Lapack] == selectors + AfterGrace(minuit, grace);
  }

  /**
   * The extend-then-remove step of `get_compiler_definitions`: the five disabling and
   * always-present macros are appended, then `NO_MINUIT` is removed when Minuit2 is enabled,
   * `NOGRACE` when Grace is, and `NOXML` when the batch executable is built.
   */
  method ExtendThenRemove(selectors: seq<Macro>, minuit: bool, grace: bool, skipBatch: bool)
    returns (definitions: seq<Macro>)
    requires NoGrace !in selectors && NoMinuit !in selectors && NoXml !in selectors
    ensures definitions == selectors + Survivors(minuit, grace, skipBatch)
  {
    StagesAgree(minuit, grace);
    definitions := selectors + [NoGrace, NoMinuit, NoXml, Hdf5, Lapack];
    if minuit {
      DropMinuit(selectors);
      definitions := Remove(definitions, NoMinuit);
    }
    if grace {
      DropGrace(selectors, minuit);
      definitions := Remove(definitions, NoGrace);
    }
    if !skipBatch {
      DropXml(selectors, minuit, grace);
      definitions := Remove(definitions, NoXml);
    }
  }

  /** The selector half of `get_compiler_definitions`: one macro appended per lower-cased setting. */
  method AppendSelectors(precision: string, numbers: string, format: string) returns (definitions: seq<Macro>)
    ensures definitions == Selectors(precision, numbers, format)
  {
    definitions := [];
    if precision == "single" {
      definitions := definitions + [SinglePrecision];
    } else {
      definitions := definitions + [DoublePrecision];
    }
    if numbers == "real" {
      definitions := definitions + [RealNumbers];
    } else {
      definitions := definitions + [ComplexNumbers];
    }
    if format == "fstream" {
      definitions := definitions + [DefaultFstream];
    } else {
      definitions := definitions + [DefaultHdf5];
    }
  }

  /**
   * The list `get_compiler_definitions` builds: the selectors appended, then the five
   * disabling and always-present macros appended and a disabling macro removed for each
   * enabled feature. Each setting is read before the appends and removals rather than
   * between them, which changes nothing: a failed read discards the list.
   */
  method CollectMacros(config: Entries) returns (r: Result<seq<Macro>>)
    ensures r == CompilerMacros(config)
  {
    var build :- Subscript(Table(config), "build");
    var precision :- Shared.LoweredSetting(build, "precision");
    var numbers :- Shared.LoweredSetting(build, "numbers");
    var format :- Shared.LoweredSetting(build, "default_file_format");
    var definitions := AppendSelectors(precision, numbers, format);
    var switches :- FeatureSwitches(build);
    SelectorsNotDisabling(build);
    definitions := ExtendThenRemove(definitions, switches.0, switches.1, switches.2);
    r := Success(definitions);
  }

  /** The build control flags, appended one at a time. */
  method AppendSkipSwitches(build: Value) returns (r: Result<seq<string>>)
    ensures r == SkipPart(build)
  {
    var args: seq<string> := [];
    var skipQuery :- Subscript(build, "skip_query");
    if Truthy(skipQuery) {
      args := args + [SwitchOn("SKIP_SIGMOND_QUERY")];
    }
    var skipBatch :- Subscript(build, "skip_batch");
    if Truthy(skipBatch) {
      args := args + [SwitchOn("SKIP_SIGMOND_BATCH")];
    }
    assert args == SkipArgs(skipQuery, skipBatch);
    r := Success(args);
  }

  /** The custom install directories, appended one at a time. */
  method AppendInstallDirs(build: Value) returns (r: Result<seq<string>>)
    ensures r == DirPart(build)
  {
    var args: seq<string> := [];
    var batchDir :- Subscript(build, "batch_install_dir");
    if Truthy(batchDir) {
      args := args + [Shared.Define("SIGMOND_BATCH_INSTALL_DIR", batchDir)];
    }
    var queryDir :- Subscript(build, "query_install_dir");
    if Truthy(queryDir) {
      args := args + [Shared.Define("SIGMOND_QUERY_INSTALL_DIR", queryDir)];
    }
    assert args == InstallDirArg("SIGMOND_BATCH_INSTALL_DIR", batchDir) + InstallDirArg("SIGMOND_QUERY_INSTALL_DIR", queryDir);
    r := Success(args);
  }

  // ---------------------------------------------------------------- the object

  /** A `SigmondConfig` of this version: the tree it holds and the methods that read or change it. */
  class SigmondConfig {
    var config: Entries

    /** `self.config = self._load_config(...)`: the file's tree, or the built-in defaults. */
    constructor (fileTree: Option<Entries>, cpuCount: Option<nat>)
      ensures config == LoadConfig(fileTree, cpuCount)
    {
      config := LoadConfig(fileTree, cpuCount);
    }

    /**
     * `_apply_env_overrides`: the three add-only overrides, each storing `True` into `build`
     * when its variable asks for it. The first store into a missing or non-table `build`
     * raises, before anything has changed.
     */
    method ApplyEnvOverrides(env: map<string, string>) returns (outcome: Outcome)
      modifies this
      ensures var expected := Shared.FlagOverrides(old(config), env);
        && (outcome.Pass? <==> expected.Success?)
        && (outcome.Pass? ==> config == expected.value)
        && (outcome.Fail? ==> outcome.error == expected.error && config == old(config))
    {
      var c1 := Shared.OverrideStep(config, env, "SIGMOND_SKIP_QUERY", "skip_query");
      if c1.Failure? {
        return Fail(c1.error);
      }
      config := c1.value;
      var c2 := Shared.OverrideStep(config, env, "SIGMOND_SKIP_BATCH", "skip_batch");
      if c2.Failure? {
        return Fail(c2.error);
      }
      config := c2.value;
      var c3 := Shared.OverrideStep(config, env, "SIGMOND_VERBOSE", "verbose");
      if c3.Failure? {
        return Fail(c3.error);
      }
      config := c3.value;
      outcome := Pass;
    }

    /** `_validate_config`: the warnings, or the aggregated `ValueError`. */
    method ValidateConfig() returns (r: Result<seq<string>>)
      ensures r == Shared.Validate(config, IncludeKey, LibraryKey)
    {
      r := Shared.ValidateEntries(config, IncludeKey, LibraryKey);
    }

    /** `get_cmake_args`: the skip switches, the install directories, then the library blocks. */
    method GetCmakeArgs() returns (r: Result<seq<string>>)
      ensures r == CmakeArgs(config)
    {
      var build :- Subscript(Table(config), "build");
      var skip :- AppendSkipSwitches(build);
      var dirs :- AppendInstallDirs(build);
      var args := skip + dirs;
      var libraries :- Subscript(Table(config), "libraries");
      var libs :- LibraryPart(build, libraries);
      r := Success(args + libs);
    }

    /**
     * `get_compiler_definitions`: the three selectors appended, then the five disabling and
     * always-present macros appended and a disabling macro removed for each enabled feature.
     * The switches are read before the removals rather than between them, which changes
     * nothing: a failed read discards the list.
     */
    method GetCompilerDefinitions() returns (r: Result<seq<string>>)
      ensures r == CompilerDefinitions(config)
    {
      var macros :- CollectMacros(config);
      r := Success(MacroNames(macros));
    }
  }

  /**
   * `SigmondConfig(...)`: load, apply the overrides, validate. Either step can raise, and then
   * no object is made.
   */
  method NewSigmondConfig(fileTree: Option<Entries>, env: map<string, string>, cpuCount: Option<nat>)
    returns (r: Result<SigmondConfig>)
    ensures var expected := Resolve(fileTree, env, cpuCount);
      && (r.Success? <==> expected.Success?)
      && (r.Success? ==> fresh(r.value) && r.value.config == expected.value)
      && (r.Failure? ==> r.error == expected.error)
  {
    var sc := new SigmondConfig(fileTree, cpuCount);
    var outcome := sc.ApplyEnvOverrides(env);
    if outcome.Fail? {
      return Failure(outcome.error);
    }
    var warnings := sc.ValidateConfig();
    if warnings.Failure? {
      return Failure(warnings.error);
    }
    r := Success(sc);
  }
}
