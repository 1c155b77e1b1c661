/**
 * `SigmondConfig` of `configure.py`: the defaults, the environment overrides, validation, the
 * `-D` argument list, the CMake init-cache lines and the two-preset document.
 */
module Configure {
  import opened Wrappers
  import opened Values
  import Text
  import Dicts
  import Shared
  import CMakeCache

  /** The ensembles file the defaults point at. */
  const DefaultEnsemblesFile := "/Users/johnmeneghini/Documents/LatticeQCD/spectrums/software/sigmond/ensembles.xml"

  /** The library path keys this version's advisories consult. */
  const IncludeKey := "include_dir"
  const LibraryKey := "library_dir"

  // ---------------------------------------------------------------- loading

  /** The `build` section of `_default_config`; `cpuCount` is `os.cpu_count()`. */
  function DefaultBuild(cpuCount: Option<nat>): Entries {
    [
      ("skip_query", Bool(false)),
      ("skip_batch", Bool(false)),
      ("enable_testing", Bool(true)),
      ("verbose", Bool(false)),
      ("precision", Str("double")),
      ("numbers", Str("complex")),
      ("default_file_format", Str("hdf5")),
      ("enable_minuit", Bool(false)),
      ("enable_grace", Bool(false)),
      ("build_jobs", Int(Shared.CpuCountOr1(cpuCount))),
      ("batch_install_dir", Str("")),
      ("query_install_dir", Str("")),
      ("extra_cmake_definitions", List([])),
      ("default_ensembles_file", Str(DefaultEnsemblesFile))
    ]
  }

  /** The `libraries` section of `_default_config`: empty paths for every library. */
  function DefaultLibraries(): Entries {
    [
      ("hdf5", Table([("root_dir", Str(""))])),
      ("blas", Table([("library_path", Str(""))])),
      ("lapack", Table([("library_path", Str(""))])),
      ("accelerate", Table([("framework_dir", Str(""))])),
      ("minuit2", Table([("include_dir", Str("")), ("library_dir", Str(""))])),
      ("grace", Table([("include_dir", Str("")), ("library_dir", Str(""))]))
    ]
  }

  /**
   * `_default_config`: the job count is the CPU count or 1, and the ensembles file is a fixed,
   * non-empty path.
   */
  function DefaultConfig(cpuCount: Option<nat>): (r: Entries)
    ensures Shared.BuildLookup(r, "build_jobs") == Some(Int(Shared.CpuCountOr1(cpuCount))) && Shared.CpuCountOr1(cpuCount) >= 1
    ensures Shared.BuildLookup(r, "default_ensembles_file") == Some(Str(DefaultEnsemblesFile)) && DefaultEnsemblesFile != []
  {
    DefaultJobs(cpuCount);
    DefaultEnsembles(cpuCount);
    [
      ("build", Table(DefaultBuild(cpuCount))),
      ("libraries", Table(DefaultLibraries())),
      ("compiler", Table([
        ("c_compiler", Str("")),
        ("cxx_compiler", Str("")),
        ("cxx_flags", List([]))
      ]))
    ]
  }

  // One lookup per lemma: several lookups on the literal table in one proof are too costly.
  lemma DefaultSkipQuery(cpuCount: Option<nat>)
    ensures Dicts.Lookup(DefaultBuild(cpuCount), "skip_query") == Some(Bool(false))
  {}
  lemma DefaultPrecision(cpuCount: Option<nat>)
    ensures Dicts.Lookup(DefaultBuild(cpuCount), "precision") == Some(Str("double"))
  {
    Dicts.LookupAt(DefaultBuild(cpuCount), 4);
  }
  lemma DefaultNumbers(cpuCount: Option<nat>)
    ensures Dicts.Lookup(DefaultBuild(cpuCount), "numbers") == Some(Str("complex"))
  {
    Dicts.LookupAt(DefaultBuild(cpuCount), 5);
  }
  lemma DefaultFormat(cpuCount: Option<nat>)
    ensures Dicts.Lookup(DefaultBuild(cpuCount), "default_file_format") == Some(Str("hdf5"))
  {
    Dicts.LookupAt(DefaultBuild(cpuCount), 6);
  }
  lemma DefaultMinuit(cpuCount: Option<nat>)
    ensures Dicts.Lookup(DefaultBuild(cpuCount), "enable_minuit") == Some(Bool(false))
  {
    Dicts.LookupAt(DefaultBuild(cpuCount), 7);
  }
  lemma DefaultGrace(cpuCount: Option<nat>)
    ensures Dicts.Lookup(DefaultBuild(cpuCount), "enable_grace") == Some(Bool(false))
  {
    Dicts.LookupAt(DefaultBuild(cpuCount), 8);
  }
  lemma DefaultJobs(cpuCount: Option<nat>)
    ensures Dicts.Lookup(DefaultBuild(cpuCount), "build_jobs") == Some(Int(Shared.CpuCountOr1(cpuCount)))
  {
    Dicts.LookupAt(DefaultBuild(cpuCount), 9);
  }
  lemma DefaultEnsembles(cpuCount: Option<nat>)
    ensures Dicts.Lookup(DefaultBuild(cpuCount), "default_ensembles_file") == Some(Str(DefaultEnsemblesFile))
  {
    Dicts.LookupAt(DefaultBuild(cpuCount), 13);
  }

  /** The defaults pass validation without an advisory. */
  lemma DefaultsValidate(cpuCount: Option<nat>)
    ensures Shared.Validate(DefaultConfig(cpuCount), IncludeKey, LibraryKey) == Success([])
  {
    var build := DefaultBuild(cpuCount);
    DefaultSkipQuery(cpuCount);
    DefaultPrecision(cpuCount);
    DefaultNumbers(cpuCount);
    DefaultFormat(cpuCount);
    DefaultMinuit(cpuCount);
    DefaultGrace(cpuCount);
    DefaultJobs(cpuCount);
    Shared.QuietValidation(DefaultConfig(cpuCount), IncludeKey, LibraryKey, build, Shared.CpuCountOr1(cpuCount));
  }

  /** The defaults pass validation, so a run without a file and without overrides succeeds with them. */
  lemma DefaultsResolve(cpuCount: Option<nat>)
    ensures Resolve(None, map[], cpuCount) == Success(DefaultConfig(cpuCount))
  {
    assert !AnyOverride(map[]) by {
      assert Text.Lower("") == "";
    }
    assert EnvOverrides(DefaultConfig(cpuCount), map[]) == Success(DefaultConfig(cpuCount)) by {
      EnvOverridesEffect(DefaultConfig(cpuCount), map[]);
    }
    DefaultsValidate(cpuCount);
  }

  /**
   * `_load_config`: the parsed file when one was found and parsed, the defaults otherwise.
   * The file replaces the defaults as a whole; nothing is merged.
   */
  function LoadConfig(fileTree: Option<Entries>, cpuCount: Option<nat>): Entries {
    match fileTree
    case Some(tree) => tree
    case None => DefaultConfig(cpuCount)
  }

  // ---------------------------------------------------------------- overrides

  /** `DEFAULTENSFILE`, when set to a non-empty value, replaces `default_ensembles_file`. */
  function EnsemblesFileOverride(config: Entries, env: map<string, string>): (r: Result<Entries>)
    ensures Shared.EnvGet(env, "DEFAULTENSFILE") == [] ==> r == Success(config)
    ensures r.Success? <==> Shared.HasBuildTable(config) || Shared.EnvGet(env, "DEFAULTENSFILE") == []
  {
    var file := Shared.EnvGet(env, "DEFAULTENSFILE");
    if file != [] then Shared.SetBuildKey(config, "default_ensembles_file", Str(file)) else Success(config)
  }

  /** `_apply_env_overrides`: the three boolean flags, then the ensembles file. */
  function EnvOverrides(config: Entries, env: map<string, string>): (r: Result<Entries>)
    ensures !AnyOverride(env) ==> r == Success(config)
    ensures r.Failure? ==> AnyOverride(env) && r.error == if "build" in Dicts.Keys(config) then TypeError else KeyError("build")
  {
    var flagged :- Shared.FlagOverrides(config, env);
    EnsemblesFileOverride(flagged, env)
  }

  /** Some override variable asks for a change. */
  predicate AnyOverride(env: map<string, string>) {
    Shared.AnyFlagOverride(env) || Shared.EnvGet(env, "DEFAULTENSFILE") != []
  }

  /**
   * The overrides fail only on a tree without a `build` table and only when some variable asks
   * for a change; when they succeed they set exactly the four settings the variables name, and
   * the ensembles file is replaced exactly when `DEFAULTENSFILE` is non-empty.
   */
  lemma EnvOverridesEffect(config: Entries, env: map<string, string>)
    ensures var r := EnvOverrides(config, env);
      && (r.Success? <==> Shared.HasBuildTable(config) || !AnyOverride(env))
      && (r.Failure? ==> r.error == if "build" in Dicts.Keys(config) then TypeError else KeyError("build"))
      && (r.Success? ==>
        && Dicts.Keys(r.value) == Dicts.Keys(config)
        && Shared.BuildLookup(r.value, "skip_query") == Shared.Overridden(config, env, "SIGMOND_SKIP_QUERY", "skip_query")
        && Shared.BuildLookup(r.value, "skip_batch") == Shared.Overridden(config, env, "SIGMOND_SKIP_BATCH", "skip_batch")
        && Shared.BuildLookup(r.value, "verbose") == Shared.Overridden(config, env, "SIGMOND_VERBOSE", "verbose")
        && Shared.BuildLookup(r.value, "default_ensembles_file") ==
             (if Shared.EnvGet(env, "DEFAULTENSFILE") != [] then Some(Str(Shared.EnvGet(env, "DEFAULTENSFILE")))
              else Shared.BuildLookup(config, "default_ensembles_file"))
        && (forall k :: k !in ["skip_query", "skip_batch", "verbose", "default_ensembles_file"] ==>
              Shared.BuildLookup(r.value, k) == Shared.BuildLookup(config, k))
        && (forall j :: j != "build" ==> Dicts.Lookup(r.value, j) == Dicts.Lookup(config, j)))
  {
    EnvOverridesFlags(config, env);
    EnvOverridesFile(config, env);
    EnvOverridesFrame(config, env);
  }

  /** The three flags after the overrides, and the sections other than `build`. */
  lemma EnvOverridesFlags(config: Entries, env: map<string, string>)
    ensures var r := EnvOverrides(config, env);
      r.Success? ==>
        && Dicts.Keys(r.value) == Dicts.Keys(config)
        && Shared.BuildLookup(r.value, "skip_query") == Shared.Overridden(config, env, "SIGMOND_SKIP_QUERY", "skip_query")
        && Shared.BuildLookup(r.value, "skip_batch") == Shared.Overridden(config, env, "SIGMOND_SKIP_BATCH", "skip_batch")
        && Shared.BuildLookup(r.value, "verbose") == Shared.Overridden(config, env, "SIGMOND_VERBOSE", "verbose")
        && (forall j :: j != "build" ==> Dicts.Lookup(r.value, j) == Dicts.Lookup(config, j))
  {
    var f := Shared.FlagOverrides(config, env);
    if f.Success? {
      Shared.FlagOverridesEffect(config, env);
      if Shared.EnvGet(env, "DEFAULTENSFILE") == [] {
        assert EnvOverrides(config, env) == f;
      } else {
        assert EnvOverrides(config, env)
          == Shared.SetBuildKey(f.value, "default_ensembles_file", Str(Shared.EnvGet(env, "DEFAULTENSFILE")));
        assert "skip_query" != "default_ensembles_file" && "skip_batch" != "default_ensembles_file";
        assert "verbose" != "default_ensembles_file";
      }
    }
  }

  /** The ensembles file after the overrides. */
  lemma EnvOverridesFile(config: Entries, env: map<string, string>)
    ensures var r := EnvOverrides(config, env);
      r.Success? ==>
        Shared.BuildLookup(r.value, "default_ensembles_file") ==
          (if Shared.EnvGet(env, "DEFAULTENSFILE") != [] then Some(Str(Shared.EnvGet(env, "DEFAULTENSFILE")))
           else Shared.BuildLookup(config, "default_ensembles_file"))
  {
    if Shared.EnvGet(env, "DEFAULTENSFILE") == [] {
      EnsemblesFileKept(config, env);
    } else {
      EnsemblesFileSet(config, env);
    }
  }

  /** The ensembles file is not one of the flags. */
  lemma EnsemblesFileNotAFlag()
    ensures "default_ensembles_file" != "skip_query" && "default_ensembles_file" != "skip_batch"
    ensures "default_ensembles_file" != "verbose"
  {
    assert |"default_ensembles_file"| == 22;
  }

  /** Without `DEFAULTENSFILE` the ensembles file keeps its value. */
  lemma EnsemblesFileKept(config: Entries, env: map<string, string>)
    requires Shared.EnvGet(env, "DEFAULTENSFILE") == []
    ensures var r := EnvOverrides(config, env);
      r.Success? ==> Shared.BuildLookup(r.value, "default_ensembles_file") == Shared.BuildLookup(config, "default_ensembles_file")
  {
    var f := Shared.FlagOverrides(config, env);
    if f.Success? {
      assert EnvOverrides(config, env) == f;
      EnsemblesFileNotAFlag();
      Shared.FlagOverridesKeep(config, env, "default_ensembles_file");
    }
  }

  /** With `DEFAULTENSFILE` the ensembles file becomes its value. */
  lemma EnsemblesFileSet(config: Entries, env: map<string, string>)
    requires Shared.EnvGet(env, "DEFAULTENSFILE") != []
    ensures var r := EnvOverrides(config, env);
      r.Success? ==> Shared.BuildLookup(r.value, "default_ensembles_file") == Some(Str(Shared.EnvGet(env, "DEFAULTENSFILE")))
  {
    var f := Shared.FlagOverrides(config, env);
    if f.Success? {
      assert EnvOverrides(config, env)
        == Shared.SetBuildKey(f.value, "default_ensembles_file", Str(Shared.EnvGet(env, "DEFAULTENSFILE")));
    }
  }

  /** Every other `build` setting is left as it was. */
  lemma EnvOverridesFrame(config: Entries, env: map<string, string>)
    ensures var r := EnvOverrides(config, env);
      r.Success? ==>
        forall k :: k !in ["skip_query", "skip_batch", "verbose", "default_ensembles_file"] ==>
          Shared.BuildLookup(r.value, k) == Shared.BuildLookup(config, k)
  {
    var f := Shared.FlagOverrides(config, env);
    if f.Success? {
      Shared.FlagOverridesEffect(config, env);
      var file := Shared.EnvGet(env, "DEFAULTENSFILE");
      assert ["skip_query", "skip_batch", "verbose"] + ["default_ensembles_file"]
        == ["skip_query", "skip_batch", "verbose", "default_ensembles_file"];
      if file != [] && Shared.HasBuildTable(config) {
        var r := Shared.SetBuildKey(f.value, "default_ensembles_file", Str(file)).value;
        StoreKeepsFrame(config, f.value, r, ["skip_query", "skip_batch", "verbose"], "default_ensembles_file", Str(file));
      }
    }
  }

  /** A store after changes confined to `keys` leaves every key outside `keys` and `key` as before. */
  lemma StoreKeepsFrame(config: Entries, changed: Entries, r: Entries, keys: seq<string>, key: string, v: Value)
    requires forall k :: k !in keys ==> Shared.BuildLookup(changed, k) == Shared.BuildLookup(config, k)
    requires forall j :: j != "build" ==> Dicts.Lookup(changed, j) == Dicts.Lookup(config, j)
    requires Shared.SetBuildKey(changed, key, v) == Success(r)
    ensures forall k :: k !in keys + [key] ==> Shared.BuildLookup(r, k) == Shared.BuildLookup(config, k)
    ensures forall j :: j != "build" ==> Dicts.Lookup(r, j) == Dicts.Lookup(config, j)
  {
    forall k | k !in keys + [key]
      ensures Shared.BuildLookup(r, k) == Shared.BuildLookup(config, k)
    {
      assert k != key && k !in keys;
    }
  }

  /** A constructed configuration: the chosen tree after the overrides, once validation accepts it. */
  function Resolve(fileTree: Option<Entries>, env: map<string, string>, cpuCount: Option<nat>): (r: Result<Entries>)
    ensures r.Success? ==> Shared.ConfigErrors(r.value) == []
    ensures fileTree.None? && !AnyOverride(env) ==> r == Success(DefaultConfig(cpuCount))
  {
    DefaultsValidate(cpuCount);
    var config :- EnvOverrides(LoadConfig(fileTree, cpuCount), env);
    var warnings :- Shared.Validate(config, IncludeKey, LibraryKey);
    Success(config)
  }

  // ---------------------------------------------------------------- get_cmake_args

  /** The settings `get_cmake_args` reads by subscript, in the order it reads them. */
  const CoreKeys: seq<string> := ChoiceKeys + SettingKeys

  /** The three settings that are lower-cased. */
  const ChoiceKeys: seq<string> := ["precision", "numbers", "default_file_format"]
  /** The settings that are used as they are. */
  const SettingKeys: seq<string> := ["skip_query", "skip_batch", "enable_minuit", "enable_grace", "verbose", "enable_testing",
    "batch_install_dir", "query_install_dir"]

  /** The `-D<name>=ON` a set flag adds. */
  function FlagArg(flag: Value, name: string): seq<string> {
    if Truthy(flag) then ["-D" + name + "=ON"] else []
  }

  /** An install directory or the ensembles file, when it is set. */
  function OptionalArg(name: string, v: Value): seq<string> {
    if Truthy(v) then [Shared.Define(name, v)] else []
  }

  /** The build-control switches, each present only when its setting is truthy. */
  function ControlArgs(skipQuery: Value, skipBatch: Value, minuit: Value, grace: Value, verbose: Value): (r: seq<string>)
    ensures Shared.AllDefinitions(r)
    ensures |r| == (if Truthy(skipQuery) then 1 else 0) + (if Truthy(skipBatch) then 1 else 0) + (if Truthy(minuit) then 1 else 0)
      + (if Truthy(grace) then 1 else 0) + (if Truthy(verbose) then 2 else 0)
  {
    FlagArg(skipQuery, "SKIP_SIGMOND_QUERY")
    + FlagArg(skipBatch, "SKIP_SIGMOND_BATCH")
    + FlagArg(minuit, "ENABLE_MINUIT")
    + FlagArg(grace, "ENABLE_GRACE")
    + FlagArg(verbose, "SIGMOND_VERBOSE")
    + FlagArg(verbose, "CMAKE_FIND_DEBUG_MODE")
  }

  /** The testing toggle, which is always emitted. */
  function TestingArg(testing: Value): (r: string)
    ensures r == "-DENABLE_TESTING=ON" || r == "-DENABLE_TESTING=OFF"
    ensures r == "-DENABLE_TESTING=ON" <==> Truthy(testing)
  {
    if Truthy(testing) then "-DENABLE_TESTING=ON" else "-DENABLE_TESTING=OFF"
  }

  /**
   * The install directories and the ensembles file, each only when set: a set value is passed
   * under its variable, and an unset one leaves its variable out altogether.
   */
  function PathArgs(batchDir: Value, queryDir: Value, ensemblesFile: Value): (r: seq<string>)
    ensures Shared.AllDefinitions(r)
    ensures Truthy(batchDir) ==> Shared.Define(BatchDirName, batchDir) in r
    ensures Truthy(queryDir) ==> Shared.Define(QueryDirName, queryDir) in r
    ensures Truthy(ensemblesFile) ==> Shared.Define(EnsemblesName, ensemblesFile) in r
    ensures !Truthy(batchDir) ==> Shared.NoneNamed(r, BatchDirName)
    ensures !Truthy(queryDir) ==> Shared.NoneNamed(r, QueryDirName)
    ensures !Truthy(ensemblesFile) ==> Shared.NoneNamed(r, EnsemblesName)
  {
    PathNamesPlain();
    OptionalArgsOmit(BatchDirName, batchDir, QueryDirName, queryDir, EnsemblesName, ensemblesFile);
    OptionalArgsOmit(QueryDirName, queryDir, BatchDirName, batchDir, EnsemblesName, ensemblesFile);
    OptionalArgsOmit(EnsemblesName, ensemblesFile, BatchDirName, batchDir, QueryDirName, queryDir);
    OptionalArg(BatchDirName, batchDir) + OptionalArg(QueryDirName, queryDir) + OptionalArg(EnsemblesName, ensemblesFile)
  }

  const BatchDirName := "SIGMOND_BATCH_INSTALL_DIR"
  const QueryDirName := "SIGMOND_QUERY_INSTALL_DIR"
  const EnsemblesName := "DEFAULTENSFILE"

  /** The three path variables contain no `=` and are pairwise different. */
  lemma PathNamesPlain()
    ensures '=' !in BatchDirName && '=' !in QueryDirName && '=' !in EnsemblesName
    ensures BatchDirName != QueryDirName && BatchDirName != EnsemblesName && QueryDirName != EnsemblesName
  {
    assert BatchDirName[8] != QueryDirName[8];
    assert |BatchDirName| != |EnsemblesName| && |QueryDirName| != |EnsemblesName|;
  }

  /** An optional argument names its own variable only, and that one only when set. */
  lemma OptionalArgOmits(name: string, v: Value, other: string)
    requires '=' !in name && '=' !in other && (name != other || !Truthy(v))
    ensures Shared.NoneNamed(OptionalArg(name, v), other)
  {
    if Truthy(v) {
      Shared.NamesExact(other, name, PyStr(v));
    }
  }

  /**
   * Among three optional arguments with different variables, the first is passed when set and
   * its variable is absent from all three when unset, wherever it stands.
   */
  lemma OptionalArgsOmit(n1: string, v1: Value, n2: string, v2: Value, n3: string, v3: Value)
    requires '=' !in n1 && '=' !in n2 && '=' !in n3 && n1 != n2 && n1 != n3
    ensures Truthy(v1) ==> Shared.Define(n1, v1) in OptionalArg(n1, v1) + OptionalArg(n2, v2) + OptionalArg(n3, v3)
    ensures Truthy(v1) ==> Shared.Define(n1, v1) in OptionalArg(n2, v2) + OptionalArg(n1, v1) + OptionalArg(n3, v3)
    ensures Truthy(v1) ==> Shared.Define(n1, v1) in OptionalArg(n2, v2) + OptionalArg(n3, v3) + OptionalArg(n1, v1)
    ensures !Truthy(v1) ==> Shared.NoneNamed(OptionalArg(n1, v1) + OptionalArg(n2, v2) + OptionalArg(n3, v3), n1)
    ensures !Truthy(v1) ==> Shared.NoneNamed(OptionalArg(n2, v2) + OptionalArg(n1, v1) + OptionalArg(n3, v3), n1)
    ensures !Truthy(v1) ==> Shared.NoneNamed(OptionalArg(n2, v2) + OptionalArg(n3, v3) + OptionalArg(n1, v1), n1)
  {
    var a1, a2, a3 := OptionalArg(n1, v1), OptionalArg(n2, v2), OptionalArg(n3, v3);
    if !Truthy(v1) {
      OptionalArgOmits(n2, v2, n1);
      OptionalArgOmits(n3, v3, n1);
      Shared.NoneNamedAppend(a2, a3, n1);
      Shared.NoneNamedAppend(a2 + a3, a1, n1);
      assert a1 == [];
      assert a1 + a2 + a3 == a2 + a1 + a3 == a2 + a3 + a1 == a2 + a3;
    }
  }

  /**
   * The arguments from the `build` settings, in source order: the three lower-cased choices,
   * the build control flags, the testing toggle, the install directories and the ensembles file.
   * Every setting but the ensembles file is read by subscript, so a missing one is a `KeyError`.
   */
  function CoreArgs(build: Value): (r: Result<seq<string>>)
    ensures r.Success? ==> build.Table? && forall k :: k in CoreKeys ==> k in Dicts.Keys(build.entries)
    ensures (build.Table? && (forall k :: k in CoreKeys ==> k in Dicts.Keys(build.entries))
      && Subscript(build, "precision").value.Str? && Subscript(build, "numbers").value.Str?
      && Subscript(build, "default_file_format").value.Str?) ==> r.Success?
  {
    var precision :- Shared.LoweredSetting(build, "precision");
    var numbers :- Shared.LoweredSetting(build, "numbers");
    var format :- Shared.LoweredSetting(build, "default_file_format");
    var settings :- SubscriptAll(build, SettingKeys);
    var ensemblesFile := GetOr(build, "default_ensembles_file", Str("")).value;
    Success(
      ["-DPRECISION=" + precision, "-DNUMBERS=" + numbers, "-DDEFAULT_FILE_FORMAT=" + format]
      + ControlArgs(settings[0], settings[1], settings[2], settings[3], settings[4])
      + [TestingArg(settings[5])]
      + PathArgs(settings[6], settings[7], ensemblesFile))
  }

  /** How many of `args` assign `name`. */
  function CountNamed(args: seq<string>, name: string): nat {
    if args == [] then 0 else (if Shared.Names(args[0], name) then 1 else 0) + CountNamed(args[1..], name)
  }

  lemma {:induction false} CountNamedAppend(a: seq<string>, b: seq<string>, name: string)
    ensures CountNamed(a + b, name) == CountNamed(a, name) + CountNamed(b, name)
  {
    if a == [] {
      assert a + b == b;
    } else {
      assert (a + b)[1..] == a[1..] + b;
      CountNamedAppend(a[1..], b, name);
    }
  }

  lemma {:induction false} NoneNamedCount(args: seq<string>, name: string)
    requires Shared.NoneNamed(args, name)
    ensures CountNamed(args, name) == 0
  {
    if args != [] {
      assert Shared.NoneNamed(args[1..], name) by {
        assert forall i :: 0 <= i < |args[1..]| ==> args[1..][i] == args[i + 1];
      }
      NoneNamedCount(args[1..], name);
    }
  }

  /** An argument whose `k`-th name character differs from `name`'s does not assign `name`. */
  lemma NotNamedAt(arg: string, name: string, k: nat)
    requires k < |name| && 2 + k < |arg| && arg[2 + k] != name[k]
    ensures !Shared.Names(arg, name)
  {
    assert ("-D" + name + "=")[2 + k] == name[k];
  }

  /** A choice argument (precision, numbers, file format) is not the testing toggle. */
  lemma ChoiceNotToggle(prefix: string, choice: string)
    requires |prefix| >= 3 && prefix[2] != 'E'
    ensures !Shared.Names(prefix + choice, "ENABLE_TESTING")
  {
    assert (prefix + choice)[2] == prefix[2];
    NotNamedAt(prefix + choice, "ENABLE_TESTING", 0);
  }

  lemma ChoicesNotToggles(precision: string, numbers: string, format: string)
    ensures Shared.NoneNamed(["-DPRECISION=" + precision, "-DNUMBERS=" + numbers, "-DDEFAULT_FILE_FORMAT=" + format], "ENABLE_TESTING")
  {
    ChoiceNotToggle("-DPRECISION=", precision);
    ChoiceNotToggle("-DNUMBERS=", numbers);
    ChoiceNotToggle("-DDEFAULT_FILE_FORMAT=", format);
  }

  /** None of the control switches is the testing toggle. */
  lemma ControlArgsNotToggles(skipQuery: Value, skipBatch: Value, minuit: Value, grace: Value, verbose: Value)
    ensures Shared.NoneNamed(ControlArgs(skipQuery, skipBatch, minuit, grace, verbose), "ENABLE_TESTING")
    ensures Shared.AllDefinitions(ControlArgs(skipQuery, skipBatch, minuit, grace, verbose))
  {
    var a1 := FlagArg(skipQuery, "SKIP_SIGMOND_QUERY");
    var a2 := FlagArg(skipBatch, "SKIP_SIGMOND_BATCH");
    var a3 := FlagArg(minuit, "ENABLE_MINUIT");
    var a4 := FlagArg(grace, "ENABLE_GRACE");
    var a5 := FlagArg(verbose, "SIGMOND_VERBOSE");
    var a6 := FlagArg(verbose, "CMAKE_FIND_DEBUG_MODE");
    FlagArgAvoids(skipQuery, "SKIP_SIGMOND_QUERY", 0);
    FlagArgAvoids(skipBatch, "SKIP_SIGMOND_BATCH", 0);
    FlagArgAvoids(minuit, "ENABLE_MINUIT", 7);
    FlagArgAvoids(grace, "ENABLE_GRACE", 7);
    FlagArgAvoids(verbose, "SIGMOND_VERBOSE", 0);
    FlagArgAvoids(verbose, "CMAKE_FIND_DEBUG_MODE", 0);
    Shared.NoneNamedAppend(a1, a2, "ENABLE_TESTING");
    Shared.NoneNamedAppend(a1 + a2, a3, "ENABLE_TESTING");
    Shared.NoneNamedAppend(a1 + a2 + a3, a4, "ENABLE_TESTING");
    Shared.NoneNamedAppend(a1 + a2 + a3 + a4, a5, "ENABLE_TESTING");
    Shared.NoneNamedAppend(a1 + a2 + a3 + a4 + a5, a6, "ENABLE_TESTING");
    Shared.AllDefinitionsAppend(a1, a2);
    Shared.AllDefinitionsAppend(a1 + a2, a3);
    Shared.AllDefinitionsAppend(a1 + a2 + a3, a4);
    Shared.AllDefinitionsAppend(a1 + a2 + a3 + a4, a5);
    Shared.AllDefinitionsAppend(a1 + a2 + a3 + a4 + a5, a6);
  }

  /** A flag argument is a definition of its own name, which differs from the toggle's at `k`. */
  lemma FlagArgAvoids(flag: Value, name: string, k: nat)
    requires k < |name| && k < 14 && name[k] != "ENABLE_TESTING"[k]
    ensures Shared.NoneNamed(FlagArg(flag, name), "ENABLE_TESTING")
    ensures Shared.AllDefinitions(FlagArg(flag, name))
  {
    if Truthy(flag) {
      var a := "-D" + name + "=ON";
      assert a == "-D" + (name + "=ON");
      assert a[2 + k] == name[k];
      NotNamedAt(a, "ENABLE_TESTING", k);
    }
  }

  /** An optional path argument is not the testing toggle. */
  lemma OptionalArgNotToggle(name: string, v: Value)
    requires |name| >= 1 && name[0] != 'E'
    ensures Shared.NoneNamed(OptionalArg(name, v), "ENABLE_TESTING")
  {
    if Truthy(v) {
      var d := Shared.Define(name, v);
      assert d == "-D" + name + "=" + PyStr(v);
      assert d[2] == name[0];
      NotNamedAt(d, "ENABLE_TESTING", 0);
    }
  }

  lemma PathArgsNotToggles(batchDir: Value, queryDir: Value, ensemblesFile: Value)
    ensures Shared.NoneNamed(PathArgs(batchDir, queryDir, ensemblesFile), "ENABLE_TESTING")
  {
    OptionalArgNotToggle("SIGMOND_BATCH_INSTALL_DIR", batchDir);
    OptionalArgNotToggle("SIGMOND_QUERY_INSTALL_DIR", queryDir);
    OptionalArgNotToggle("DEFAULTENSFILE", ensemblesFile);
    Shared.NoneNamedAppend(OptionalArg("SIGMOND_BATCH_INSTALL_DIR", batchDir), OptionalArg("SIGMOND_QUERY_INSTALL_DIR", queryDir), "ENABLE_TESTING");
    Shared.NoneNamedAppend(OptionalArg("SIGMOND_BATCH_INSTALL_DIR", batchDir) + OptionalArg("SIGMOND_QUERY_INSTALL_DIR", queryDir),
      OptionalArg("DEFAULTENSFILE", ensemblesFile), "ENABLE_TESTING");
  }

  /** A list built as `front`, one toggle, `back`, where only the toggle names `ENABLE_TESTING`. */
  lemma ToggleOnce(front: seq<string>, toggle: string, back: seq<string>)
    requires Shared.NoneNamed(front, "ENABLE_TESTING") && Shared.NoneNamed(back, "ENABLE_TESTING")
    requires toggle == "-DENABLE_TESTING=ON" || toggle == "-DENABLE_TESTING=OFF"
    ensures CountNamed(front + [toggle] + back, "ENABLE_TESTING") == 1
    ensures "-DENABLE_TESTING=ON" in front + [toggle] + back <==> toggle == "-DENABLE_TESTING=ON"
    ensures "-DENABLE_TESTING=OFF" in front + [toggle] + back <==> toggle == "-DENABLE_TESTING=OFF"
  {
    ToggleWords();
    OneToggle(front, toggle, back, "ENABLE_TESTING", "-DENABLE_TESTING=ON", "-DENABLE_TESTING=OFF");
  }

  /** Both spellings of the toggle name `ENABLE_TESTING`, and they differ. */
  lemma ToggleWords()
    ensures Shared.Names("-DENABLE_TESTING=ON", "ENABLE_TESTING")
    ensures Shared.Names("-DENABLE_TESTING=OFF", "ENABLE_TESTING")
    ensures "-DENABLE_TESTING=ON" != "-DENABLE_TESTING=OFF"
  {
    assert |"-DENABLE_TESTING=ON"| != |"-DENABLE_TESTING=OFF"|;
  }

  /** `front`, one of two arguments naming `name`, `back`: only that argument names `name`. */
  lemma OneToggle(front: seq<string>, toggle: string, back: seq<string>, name: string, on: string, off: string)
    requires Shared.NoneNamed(front, name) && Shared.NoneNamed(back, name)
    requires Shared.Names(on, name) && Shared.Names(off, name) && on != off
    requires toggle == on || toggle == off
    ensures CountNamed(front + [toggle] + back, name) == 1
    ensures on in front + [toggle] + back <==> toggle == on
    ensures off in front + [toggle] + back <==> toggle == off
  {
    NoneNamedCount(front, name);
    NoneNamedCount(back, name);
    CountNamedAppend(front, [toggle], name);
    CountNamedAppend(front + [toggle], back, name);
    assert CountNamed([toggle], name) == 1;
    Shared.NoneNamedAppend(front, back, name);
    assert forall a :: a in front + [toggle] + back ==> a in front + back || a == toggle;
  }

  /** The core arguments decompose into the choices, the switches, the toggle and the paths. */
  lemma CoreArgsParts(build: Value)
    requires CoreArgs(build).Success?
    ensures build.Table? && SubscriptAll(build, SettingKeys).Success?
    ensures var s := SubscriptAll(build, SettingKeys).value;
      && Shared.LoweredSetting(build, "precision").Success? && Shared.LoweredSetting(build, "numbers").Success?
      && Shared.LoweredSetting(build, "default_file_format").Success?
      && CoreArgs(build).value ==
        ["-DPRECISION=" + Shared.LoweredSetting(build, "precision").value,
         "-DNUMBERS=" + Shared.LoweredSetting(build, "numbers").value,
         "-DDEFAULT_FILE_FORMAT=" + Shared.LoweredSetting(build, "default_file_format").value]
        + ControlArgs(s[0], s[1], s[2], s[3], s[4])
        + [TestingArg(s[5])]
        + PathArgs(s[6], s[7], GetOr(build, "default_ensembles_file", Str("")).value)
  {
  }

  /** The sixth plain setting read is `enable_testing`. */
  lemma TestingSetting(build: Value)
    requires SubscriptAll(build, SettingKeys).Success?
    ensures Subscript(build, "enable_testing") == Success(SubscriptAll(build, SettingKeys).value[5])
  {
    assert SettingKeys[5] == "enable_testing";
  }

  /**
   * The head of the argument list is the three choices in order, and the core arguments hold
   * exactly one `ENABLE_TESTING` entry: `ON` when testing is enabled, `OFF` otherwise.
   */
  lemma CoreArgsShape(build: Value)
    requires CoreArgs(build).Success?
    ensures var args := CoreArgs(build).value;
      && build.Table?
      && Shared.AllDefinitions(args)
      && |args| >= 4
      && args[0] == "-DPRECISION=" + Text.Lower(Subscript(build, "precision").value.s)
      && args[1] == "-DNUMBERS=" + Text.Lower(Subscript(build, "numbers").value.s)
      && args[2] == "-DDEFAULT_FILE_FORMAT=" + Text.Lower(Subscript(build, "default_file_format").value.s)
      && CountNamed(args, "ENABLE_TESTING") == 1
      && ("-DENABLE_TESTING=ON" in args <==> Truthy(Subscript(build, "enable_testing").value))
      && ("-DENABLE_TESTING=OFF" in args <==> !Truthy(Subscript(build, "enable_testing").value))
  {
    CoreArgsParts(build);
    TestingSetting(build);
    var s := SubscriptAll(build, SettingKeys).value;
    var ef := GetOr(build, "default_ensembles_file", Str("")).value;
    ControlArgsNotToggles(s[0], s[1], s[2], s[3], s[4]);
    PathArgsNotToggles(s[6], s[7], ef);
    AssembledShape(Text.Lower(Subscript(build, "precision").value.s), Text.Lower(Subscript(build, "numbers").value.s),
      Text.Lower(Subscript(build, "default_file_format").value.s), ControlArgs(s[0], s[1], s[2], s[3], s[4]),
      s[5], PathArgs(s[6], s[7], ef));
  }

  /** The shape of the core arguments, given that neither the switches nor the paths are toggles. */
  lemma AssembledShape(precision: string, numbers: string, format: string, control: seq<string>, testing: Value, paths: seq<string>)
    requires Shared.NoneNamed(control, "ENABLE_TESTING") && Shared.NoneNamed(paths, "ENABLE_TESTING")
    requires Shared.AllDefinitions(control) && Shared.AllDefinitions(paths)
    ensures var args := ["-DPRECISION=" + precision, "-DNUMBERS=" + numbers, "-DDEFAULT_FILE_FORMAT=" + format]
        + control + [TestingArg(testing)] + paths;
      && Shared.AllDefinitions(args)
      && |args| >= 4
      && args[0] == "-DPRECISION=" + precision
      && args[1] == "-DNUMBERS=" + numbers
      && args[2] == "-DDEFAULT_FILE_FORMAT=" + format
      && CountNamed(args, "ENABLE_TESTING") == 1
      && ("-DENABLE_TESTING=ON" in args <==> Truthy(testing))
      && ("-DENABLE_TESTING=OFF" in args <==> !Truthy(testing))
  {
    var head := ["-DPRECISION=" + precision, "-DNUMBERS=" + numbers, "-DDEFAULT_FILE_FORMAT=" + format];
    ChoicesNotToggles(precision, numbers, format);
    Shared.NoneNamedAppend(head, control, "ENABLE_TESTING");
    ToggleOnce(head + control, TestingArg(testing), paths);
    AssembledDefinitions(precision, numbers, format, control, testing, paths);
  }

  lemma AssembledDefinitions(precision: string, numbers: string, format: string, control: seq<string>, testing: Value, paths: seq<string>)
    requires Shared.AllDefinitions(control) && Shared.AllDefinitions(paths)
    ensures Shared.AllDefinitions(["-DPRECISION=" + precision, "-DNUMBERS=" + numbers, "-DDEFAULT_FILE_FORMAT=" + format]
        + control + [TestingArg(testing)] + paths)
  {
    var head := ["-DPRECISION=" + precision, "-DNUMBERS=" + numbers, "-DDEFAULT_FILE_FORMAT=" + format];
    SelectorDefinitions(precision, numbers, format);
    TestingDefinition(testing);
    Shared.AllDefinitionsAppend(head, control);
    Shared.AllDefinitionsAppend(head + control, [TestingArg(testing)]);
    Shared.AllDefinitionsAppend(head + control + [TestingArg(testing)], paths);
  }

  /** The three selector arguments are definitions. */
  lemma SelectorDefinitions(precision: string, numbers: string, format: string)
    ensures Shared.AllDefinitions(["-DPRECISION=" + precision, "-DNUMBERS=" + numbers, "-DDEFAULT_FILE_FORMAT=" + format])
  {
    var head := ["-DPRECISION=" + precision, "-DNUMBERS=" + numbers, "-DDEFAULT_FILE_FORMAT=" + format];
    assert head[0] == "-D" + ("PRECISION=" + precision);
    assert head[1] == "-D" + ("NUMBERS=" + numbers);
    assert head[2] == "-D" + ("DEFAULT_FILE_FORMAT=" + format);
  }

  /** The testing switch is a definition. */
  lemma TestingDefinition(testing: Value)
    ensures Shared.AllDefinitions([TestingArg(testing)])
  {
    assert TestingArg(testing) == "-D" + (if Truthy(testing) then "ENABLE_TESTING=ON" else "ENABLE_TESTING=OFF");
  }

  /** The variables the head of the core arguments assigns, before the paths. */
  const HeadNames := ["PRECISION", "NUMBERS", "DEFAULT_FILE_FORMAT", "SKIP_SIGMOND_QUERY", "SKIP_SIGMOND_BATCH",
    "ENABLE_MINUIT", "ENABLE_GRACE", "SIGMOND_VERBOSE", "CMAKE_FIND_DEBUG_MODE", "ENABLE_TESTING"]

  lemma HeadNamesPlain()
    ensures forall i :: 0 <= i < |HeadNames| ==> '=' !in HeadNames[i]
  {
  }

  /** No path variable is assigned in the head. */
  lemma PathNamesNotHead()
    ensures BatchDirName !in HeadNames && QueryDirName !in HeadNames && EnsemblesName !in HeadNames
  {
  }

  /** A switch names only its own variable. */
  lemma FlagArgOmits(flag: Value, flagName: string, name: string)
    requires '=' !in flagName && '=' !in name && flagName != name
    ensures Shared.NoneNamed(FlagArg(flag, flagName), name)
  {
    if Truthy(flag) {
      Shared.NamesExact(name, flagName, "ON");
    }
  }

  /**
   * The head of the core arguments, everything before the paths, never assigns a variable that
   * is not one of its own.
   */
  lemma HeadOmits(precision: string, numbers: string, format: string, s: seq<Value>, name: string)
    requires |s| >= 6 && '=' !in name && name !in HeadNames
    ensures Shared.NoneNamed(["-DPRECISION=" + precision, "-DNUMBERS=" + numbers, "-DDEFAULT_FILE_FORMAT=" + format]
      + ControlArgs(s[0], s[1], s[2], s[3], s[4]) + [TestingArg(s[5])], name)
  {
    var choices := ["-DPRECISION=" + precision, "-DNUMBERS=" + numbers, "-DDEFAULT_FILE_FORMAT=" + format];
    var control := ControlArgs(s[0], s[1], s[2], s[3], s[4]);
    ChoicesOmit(precision, numbers, format, name);
    ControlArgsOmit(s[0], s[1], s[2], s[3], s[4], name);
    ToggleOmits(s[5], name);
    Shared.NoneNamedAppend(choices, control, name);
    Shared.NoneNamedAppend(choices + control, [TestingArg(s[5])], name);
  }

  lemma ChoicesOmit(precision: string, numbers: string, format: string, name: string)
    requires '=' !in name && name !in HeadNames
    ensures Shared.NoneNamed(["-DPRECISION=" + precision, "-DNUMBERS=" + numbers, "-DDEFAULT_FILE_FORMAT=" + format], name)
  {
    HeadNamesPlain();
    var h := HeadNames;
    assert '=' !in h[0] && '=' !in h[1] && '=' !in h[2];
    assert "-DPRECISION=" + precision == "-D" + h[0] + "=" + precision;
    assert "-DNUMBERS=" + numbers == "-D" + h[1] + "=" + numbers;
    assert "-DDEFAULT_FILE_FORMAT=" + format == "-D" + h[2] + "=" + format;
    Shared.NamesExact(name, h[0], precision);
    Shared.NamesExact(name, h[1], numbers);
    Shared.NamesExact(name, h[2], format);
  }

  lemma ControlArgsOmit(skipQuery: Value, skipBatch: Value, minuit: Value, grace: Value, verbose: Value, name: string)
    requires '=' !in name && name !in HeadNames
    ensures Shared.NoneNamed(ControlArgs(skipQuery, skipBatch, minuit, grace, verbose), name)
  {
    HeadNamesPlain();
    var h := HeadNames;
    assert '=' !in h[3] && '=' !in h[4] && '=' !in h[5] && '=' !in h[6] && '=' !in h[7] && '=' !in h[8];
    var a1, a2, a3 := FlagArg(skipQuery, h[3]), FlagArg(skipBatch, h[4]), FlagArg(minuit, h[5]);
    var a4, a5, a6 := FlagArg(grace, h[6]), FlagArg(verbose, h[7]), FlagArg(verbose, h[8]);
    FlagArgOmits(skipQuery, h[3], name);
    FlagArgOmits(skipBatch, h[4], name);
    FlagArgOmits(minuit, h[5], name);
    FlagArgOmits(grace, h[6], name);
    FlagArgOmits(verbose, h[7], name);
    FlagArgOmits(verbose, h[8], name);
    Shared.NoneNamedAppend(a1, a2, name);
    Shared.NoneNamedAppend(a1 + a2, a3, name);
    Shared.NoneNamedAppend(a1 + a2 + a3, a4, name);
    Shared.NoneNamedAppend(a1 + a2 + a3 + a4, a5, name);
    Shared.NoneNamedAppend(a1 + a2 + a3 + a4 + a5, a6, name);
  }

  lemma ToggleOmits(testing: Value, name: string)
    requires '=' !in name && name != "ENABLE_TESTING"
    ensures Shared.NoneNamed([TestingArg(testing)], name)
  {
    var value := if Truthy(testing) then "ON" else "OFF";
    assert TestingArg(testing) == "-D" + "ENABLE_TESTING" + "=" + value;
    Shared.NamesExact(name, "ENABLE_TESTING", value);
  }

  /** The seventh and eighth plain settings read are the install directories. */
  lemma InstallDirSettings(build: Value)
    requires SubscriptAll(build, SettingKeys).Success?
    ensures Subscript(build, "batch_install_dir") == Success(SubscriptAll(build, SettingKeys).value[6])
    ensures Subscript(build, "query_install_dir") == Success(SubscriptAll(build, SettingKeys).value[7])
  {
    assert SettingKeys[6] == "batch_install_dir" && SettingKeys[7] == "query_install_dir";
  }

  /**
   * In the core arguments each install directory and the ensembles file is passed when set,
   * and its variable is absent altogether when it is not.
   */
  lemma CorePathsPassed(build: Value)
    requires CoreArgs(build).Success?
    ensures var args := CoreArgs(build).value;
      var batch := Subscript(build, "batch_install_dir").value;
      var query := Subscript(build, "query_install_dir").value;
      var ensembles := GetOr(build, "default_ensembles_file", Str("")).value;
      && (Truthy(batch) ==> Shared.Define(BatchDirName, batch) in args)
      && (Truthy(query) ==> Shared.Define(QueryDirName, query) in args)
      && (Truthy(ensembles) ==> Shared.Define(EnsemblesName, ensembles) in args)
      && (!Truthy(batch) ==> Shared.NoneNamed(args, BatchDirName))
      && (!Truthy(query) ==> Shared.NoneNamed(args, QueryDirName))
      && (!Truthy(ensembles) ==> Shared.NoneNamed(args, EnsemblesName))
  {
    CoreArgsParts(build);
    InstallDirSettings(build);
    var s := SubscriptAll(build, SettingKeys).value;
    var precision := Shared.LoweredSetting(build, "precision").value;
    var numbers := Shared.LoweredSetting(build, "numbers").value;
    var format := Shared.LoweredSetting(build, "default_file_format").value;
    var head := ["-DPRECISION=" + precision, "-DNUMBERS=" + numbers, "-DDEFAULT_FILE_FORMAT=" + format]
      + ControlArgs(s[0], s[1], s[2], s[3], s[4]) + [TestingArg(s[5])];
    var paths := PathArgs(s[6], s[7], GetOr(build, "default_ensembles_file", Str("")).value);
    assert CoreArgs(build).value == head + paths;
    PathNamesPlain();
    PathNamesNotHead();
    HeadOmits(precision, numbers, format, s, BatchDirName);
    HeadOmits(precision, numbers, format, s, QueryDirName);
    HeadOmits(precision, numbers, format, s, EnsemblesName);
    if !Truthy(s[6]) {
      Shared.NoneNamedAppend(head, paths, BatchDirName);
    }
    if !Truthy(s[7]) {
      Shared.NoneNamedAppend(head, paths, QueryDirName);
    }
    if !Truthy(GetOr(build, "default_ensembles_file", Str("")).value) {
      Shared.NoneNamedAppend(head, paths, EnsemblesName);
    }
  }

  // ---------------------------------------------------------------- extra definitions

  /** A string entry of `extra_cmake_definitions`: stripped, and given `-D` unless it starts with it. */
  function AsDefinition(entry: string): (r: string)
    ensures CMakeCache.StartsWith(r, "-D")
    ensures r == Text.Strip(entry) || r == "-D" + Text.Strip(entry)
    ensures r == Text.Strip(entry) <==> CMakeCache.StartsWith(Text.Strip(entry), "-D")
  {
    var s := Text.Strip(entry);
    if CMakeCache.StartsWith(s, "-D") then s else "-D" + s
  }

  /** A string with no white space at either end is its own strip. */
  lemma StripKeeps(s: string)
    requires s == [] || (!Text.IsSpace(s[0]) && !Text.IsSpace(s[|s| - 1]))
    ensures Text.Strip(s) == s
  {
    assert Text.StripStart(s) == s;
    assert Text.StripEnd(s) == s;
  }

  /** Normalising an entry twice is normalising it once. */
  lemma AsDefinitionIdempotent(entry: string)
    ensures AsDefinition(AsDefinition(entry)) == AsDefinition(entry)
  {
    AsDefinitionEnds(entry);
    StripKeeps(AsDefinition(entry));
  }

  /** A normalised entry begins with `-` and does not end in white space. */
  lemma AsDefinitionEnds(entry: string)
    ensures var r := AsDefinition(entry); r != [] && r[0] == '-' && !Text.IsSpace(r[|r| - 1])
  {
    var s := Text.Strip(entry);
    var r := AsDefinition(entry);
    assert r[0] == '-';
    if r != s {
      if s == [] {
        assert r == "-D";
      } else {
        assert r[|r| - 1] == s[|s| - 1];
      }
    }
  }

  /** The string entries of a list of extras, normalised, in order. */
  function StringExtras(xs: seq<Value>): (r: seq<string>)
    ensures Shared.AllDefinitions(r)
    ensures |r| <= |xs|
    decreases |xs|
  {
    if xs == [] then []
    else
      var last := xs[|xs| - 1];
      var init := StringExtras(xs[..|xs| - 1]);
      var here := if last.Str? then [AsDefinition(last.s)] else [];
      assert Shared.AllDefinitions(here);
      Shared.AllDefinitionsAppend(init, here);
      init + here
  }

  /** The key-value pairs of the table entries of a list of extras, in order. */
  function DictPairs(xs: seq<Value>): seq<(string, Value)>
    decreases |xs|
  {
    if xs == [] then []
    else
      var last := xs[|xs| - 1];
      DictPairs(xs[..|xs| - 1]) + (if last.Table? then last.entries else [])
  }

  /** The value text of a key-value extra: booleans as `ON`/`OFF`, lists joined by `;`, else `str()`. */
  function PairValue(v: Value): (r: string)
    ensures v.Bool? ==> r in ["ON", "OFF"] && (r == "ON" <==> v.b)
    ensures v.List? ==> forall i :: 0 <= i < |v.items| ==> Text.IsSubstring(PyStr(v.items[i]), r)
    ensures v.List? && |v.items| == 1 ==> r == PyStr(v.items[0])
    ensures !v.Bool? && !v.List? ==> r == PyStr(v)
  {
    if v.Bool? then (if v.b then "ON" else "OFF")
    else if v.List? then
      var parts := seq(|v.items|, i requires 0 <= i < |v.items| => PyStr(v.items[i]));
      Text.JoinContainsAll(";", parts);
      assert forall i :: 0 <= i < |v.items| ==> parts[i] == PyStr(v.items[i]);
      Text.Join(";", parts)
    else PyStr(v)
  }

  /** `-D<key>=<value>` for a key-value extra. */
  function PairArg(k: string, v: Value): string {
    "-D" + k + "=" + PairValue(v)
  }

  /** The arguments for key-value extras, one per pair, in order. */
  function PairArgs(pairs: seq<(string, Value)>): (r: seq<string>)
    ensures |r| == |pairs|
    ensures forall i :: 0 <= i < |pairs| ==> r[i] == PairArg(pairs[i].0, pairs[i].1)
    decreases |pairs|
  {
    if pairs == [] then []
    else PairArgs(pairs[..|pairs| - 1]) + [PairArg(pairs[|pairs| - 1].0, pairs[|pairs| - 1].1)]
  }

  /**
   * `extra_cmake_definitions`: a table gives one argument per pair; a list gives its string
   * entries first, then the pairs of its table entries; any other value gives nothing.
   */
  function ExtraDefinitionArgs(extras: Value): (r: seq<string>)
    ensures Shared.AllDefinitions(r)
  {
    match extras
    case Table(entries) => PairArgs(entries)
    case List(xs) =>
      var strings := StringExtras(xs);
      var pairs := PairArgs(DictPairs(xs));
      assert forall i :: 0 <= i < |pairs| ==> pairs[i] == "-D" + (DictPairs(xs)[i].0 + "=" + PairValue(DictPairs(xs)[i].1));
      strings + pairs
    case _ => []
  }

  /** The first `c` in `pre + [c] + post` is the one after `pre` when `pre` holds none. */
  lemma {:induction false} IndexOfFirst(pre: string, c: char, post: string)
    requires c !in pre
    ensures Text.IndexOf(pre + [c] + post, c) == Some(|pre|)
  {
    if pre != [] {
      assert (pre + [c] + post)[1..] == pre[1..] + [c] + post;
      IndexOfFirst(pre[1..], c, post);
    }
  }

  /** The cache fold reads back the name and the value text of an assignment whose name has no `=`. */
  lemma AssignmentRoundTrip(name: string, value: string)
    requires '=' !in name
    ensures CMakeCache.Definition("-D" + name + "=" + value) == Some((name, value))
  {
    var arg := "-D" + name + "=" + value;
    var body := arg[2..];
    assert body == name + "=" + value;
    IndexOfFirst(name, '=', value);
    assert body[..|name|] == name && body[|name| + 1..] == value;
  }

  /** A key-value extra folds into the cache as its key and its value text. */
  lemma PairArgRoundTrip(k: string, v: Value)
    requires '=' !in k
    ensures CMakeCache.Definition(PairArg(k, v)) == Some((k, PairValue(v)))
  {
    AssignmentRoundTrip(k, PairValue(v));
  }

  /** A setting-derived argument folds into the cache as its name and the setting's `str()`. */
  lemma DefineRoundTrip(name: string, v: Value)
    requires '=' !in name
    ensures CMakeCache.Definition(Shared.Define(name, v)) == Some((name, PyStr(v)))
  {
    AssignmentRoundTrip(name, PyStr(v));
  }

  // ---------------------------------------------------------------- library and compiler sections

  /**
   * For each `(key, name)` in order, `section.get(key)`; a truthy value adds `-D<name>=<value>`.
   * Only a table has `get`.
   */
  function EntryArgs(section: Value, keys: seq<(string, string)>): (r: Result<seq<string>>)
    ensures r.Success? <==> section.Table? || keys == []
    ensures r.Failure? ==> r.error == AttributeError
    ensures r.Success? ==> |r.value| <= |keys| && Shared.AllDefinitions(r.value)
    ensures r.Success? && section.Table? ==> forall j :: 0 <= j < |keys| && TruthyOpt(Dicts.Lookup(section.entries, keys[j].0)) ==>
      Shared.Define(keys[j].1, Dicts.Lookup(section.entries, keys[j].0).value) in r.value
    decreases |keys|
  {
    if keys == [] then Success([])
    else
      var v :- Get(section, keys[0].0);
      var rest := EntryArgs(section, keys[1..]).value;
      var here := if TruthyOpt(v) then [Shared.Define(keys[0].1, v.value)] else [];
      assert forall j :: 1 <= j < |keys| ==> keys[j] == keys[1..][j - 1];
      Success(here + rest)
  }

  /** No argument of a section names `name` when every name it may emit differs from it at `k`. */
  lemma {:induction false} EntryArgsAvoid(section: Value, keys: seq<(string, string)>, name: string, k: nat)
    requires EntryArgs(section, keys).Success?
    requires k < |name| && forall j :: 0 <= j < |keys| ==> k < |keys[j].1| && keys[j].1[k] != name[k]
    ensures Shared.NoneNamed(EntryArgs(section, keys).value, name)
    decreases |keys|
  {
    if keys != [] {
      var v := Get(section, keys[0].0).value;
      assert forall j :: 0 <= j < |keys[1..]| ==> keys[1..][j] == keys[j + 1];
      EntryArgsAvoid(section, keys[1..], name, k);
      var here := if TruthyOpt(v) then [Shared.Define(keys[0].1, v.value)] else [];
      if TruthyOpt(v) {
        Shared.DefineNames(keys[0].1, v.value);
        Shared.NamesDiffer(here[0], keys[0].1, name, k);
      }
      Shared.NoneNamedAppend(here, EntryArgs(section, keys[1..]).value, name);
    }
  }

  /**
   * A variable is absent from a section's arguments when every key that stands for it is
   * missing or falsy, so a path appears only when it is set.
   */
  lemma {:induction false} EntryArgsOmits(section: Value, keys: seq<(string, string)>, name: string)
    requires EntryArgs(section, keys).Success?
    requires '=' !in name && forall j :: 0 <= j < |keys| ==> '=' !in keys[j].1
    requires section.Table? ==> forall j :: 0 <= j < |keys| && keys[j].1 == name ==>
      !TruthyOpt(Dicts.Lookup(section.entries, keys[j].0))
    ensures Shared.NoneNamed(EntryArgs(section, keys).value, name)
    decreases |keys|
  {
    if keys != [] {
      var v := Get(section, keys[0].0).value;
      var rest := EntryArgs(section, keys[1..]).value;
      assert forall j :: 1 <= j < |keys| ==> keys[j] == keys[1..][j - 1];
      EntryArgsOmits(section, keys[1..], name);
      if TruthyOpt(v) {
        Shared.NamesExact(name, keys[0].1, PyStr(v.value));
        Shared.NoneNamedAppend([Shared.Define(keys[0].1, v.value)], rest, name);
      } else {
        assert EntryArgs(section, keys).value == rest;
      }
    }
  }

  /** The section form of `EntryArgsOmits`: an absent section emits nothing at all. */
  lemma SectionOmits(container: Value, lib: string, keys: seq<(string, string)>, name: string)
    requires Section(container, lib, keys).Success?
    requires '=' !in name && forall j :: 0 <= j < |keys| ==> '=' !in keys[j].1
    requires SectionLeavesUnset(container, lib, keys, name)
    ensures Shared.NoneNamed(Section(container, lib, keys).value, name)
  {
    if In(lib, container).value {
      EntryArgsOmits(Subscript(container, lib).value, keys, name);
    }
  }

  /** Section `lib` of `container`, when it is a table, sets no key that stands for `name`. */
  predicate SectionLeavesUnset(container: Value, lib: string, keys: seq<(string, string)>, name: string) {
    container.Table? && Dicts.Lookup(container.entries, lib).Some? && Dicts.Lookup(container.entries, lib).value.Table? ==>
      var section := Dicts.Lookup(container.entries, lib).value;
      forall j :: 0 <= j < |keys| && keys[j].1 == name ==> !TruthyOpt(Dicts.Lookup(section.entries, keys[j].0))
  }

  /** `if lib in container:` then the arguments of `container[lib]`. */
  function Section(container: Value, lib: string, keys: seq<(string, string)>): (r: Result<seq<string>>)
    ensures r.Success? ==> Shared.AllDefinitions(r.value)
    ensures container.Table? && lib !in Dicts.Keys(container.entries) ==> r == Success([])
    ensures container.Table? && lib in Dicts.Keys(container.entries) ==>
      r == EntryArgs(Dicts.Lookup(container.entries, lib).value, keys)
  {
    var present :- In(lib, container);
    if !present then Success([])
    else
      var section :- Subscript(container, lib);
      EntryArgs(section, keys)
  }

  lemma SectionAvoids(container: Value, lib: string, keys: seq<(string, string)>, name: string, k: nat)
    requires Section(container, lib, keys).Success?
    requires k < |name| && forall j :: 0 <= j < |keys| ==> k < |keys[j].1| && keys[j].1[k] != name[k]
    ensures Shared.NoneNamed(Section(container, lib, keys).value, name)
  {
    if In(lib, container).value {
      EntryArgsAvoid(Subscript(container, lib).value, keys, name, k);
    }
  }

  const HDF5Keys := [("root_dir", "HDF5_DIR")]
  const BlasKeys := [("library_path", "BLAS_LIBRARIES")]
  const LapackKeys := [("library_path", "LAPACK_LIBRARIES")]
  const MinuitKeys := [("include_dir", "SIGMOND_MINUIT2_INCLUDE_DIR"), ("library_dir", "SIGMOND_MINUIT2_LIBRARY_DIR")]
  const GraceKeys := [("include_dir", "SIGMOND_GRACE_INCLUDE_DIR"), ("library_dir", "SIGMOND_GRACE_LIBRARY_DIR")]
  const AccelerateKeys := [("framework_dir", "SIGMOND_ACCELERATE_FRAMEWORK_DIR")]
  const CompilerKeys := [("c_compiler", "CMAKE_C_COMPILER"), ("cxx_compiler", "CMAKE_CXX_COMPILER")]

  /**
   * The library arguments in source order: HDF5, BLAS, LAPACK, then Minuit2 and Grace only when
   * enabled, then Accelerate. `libraries` is read by subscript.
   */
  function LibraryArgs(config: Entries, minuit: Value, grace: Value): (r: Result<seq<string>>)
    ensures r.Success? ==> Shared.AllDefinitions(r.value)
  {
    var libs :- Subscript(Table(config), "libraries");
    var hdf5 :- Section(libs, "hdf5", HDF5Keys);
    var blas :- Section(libs, "blas", BlasKeys);
    var lapack :- Section(libs, "lapack", LapackKeys);
    var minuit2 :- if Truthy(minuit) then Section(libs, "minuit2", MinuitKeys) else Success([]);
    var grace2 :- if Truthy(grace) then Section(libs, "grace", GraceKeys) else Success([]);
    var accelerate :- Section(libs, "accelerate", AccelerateKeys);
    Shared.AllDefinitionsAppend(hdf5, blas);
    Shared.AllDefinitionsAppend(hdf5 + blas, lapack);
    Shared.AllDefinitionsAppend(hdf5 + blas + lapack, minuit2);
    Shared.AllDefinitionsAppend(hdf5 + blas + lapack + minuit2, grace2);
    Shared.AllDefinitionsAppend(hdf5 + blas + lapack + minuit2 + grace2, accelerate);
    Success(hdf5 + blas + lapack + minuit2 + grace2 + accelerate)
  }

  /** The compiler arguments, when the tree has a `compiler` section. */
  function CompilerArgs(config: Entries): (r: Result<seq<string>>)
    ensures r.Success? <==> "compiler" !in Dicts.Keys(config) || Dicts.Lookup(config, "compiler").value.Table?
    ensures r.Failure? ==> r.error == AttributeError
    ensures r.Success? ==> |r.value| <= 2 && Shared.AllDefinitions(r.value)
  {
    Section(Table(config), "compiler", CompilerKeys)
  }

  /** `get_cmake_args`: the core settings, the extras, the libraries and the compilers, in that order. */
  function CmakeArgs(config: Entries): (r: Result<seq<string>>)
    ensures r.Success? ==> Shared.HasBuildTable(config) && forall k :: k in CoreKeys ==> Shared.BuildLookup(config, k).Some?
  {
    var build :- Subscript(Table(config), "build");
    var core :- CoreArgs(build);
    var extras := GetOr(build, "extra_cmake_definitions", List([])).value;
    var libs :- LibraryArgs(config, Subscript(build, "enable_minuit").value, Subscript(build, "enable_grace").value);
    var compilers :- CompilerArgs(config);
    Success(core + ExtraDefinitionArgs(extras) + libs + compilers)
  }

  // ---------------------------------------------------------------- write_cache

  const CCompiler := "CMAKE_C_COMPILER"
  const CxxCompiler := "CMAKE_CXX_COMPILER"

  /** `os.path.exists(v)` for a configured path: only a string names a file. */
  predicate Exists(v: Value, existing: set<string>) {
    v.Str? && v.s in existing
  }

  /** `clear_cache`: both compiler variables are set to the empty string. */
  function ClearCompilers(vars: CMakeCache.CacheVars): CMakeCache.CacheVars {
    Dicts.Put(Dicts.Put(vars, CCompiler, ""), CxxCompiler, "")
  }

  /**
   * The compiler step of `write_cache`: blanked under `clear_cache`; otherwise each configured
   * compiler (read with `get`, default empty) is stored when it is set and exists.
   */
  function CacheCompilers(config: Entries, vars: CMakeCache.CacheVars, clearCache: bool, existing: set<string>)
    : (r: Result<CMakeCache.CacheVars>)
    ensures clearCache ==> r.Success? && Dicts.Lookup(r.value, CCompiler) == Some("") && Dicts.Lookup(r.value, CxxCompiler) == Some("")
    ensures !clearCache ==> (r.Success? <==> "compiler" in Dicts.Keys(config) && Dicts.Lookup(config, "compiler").value.Table?)
    ensures r.Failure? ==> r.error == KeyError("compiler") || r.error == AttributeError
    ensures r.Success? ==> forall k :: k != CCompiler && k != CxxCompiler ==> Dicts.Lookup(r.value, k) == Dicts.Lookup(vars, k)
  {
    if clearCache then Success(ClearCompilers(vars))
    else
      var compiler :- Subscript(Table(config), "compiler");
      var c :- GetOr(compiler, "c_compiler", Str(""));
      var cxx := GetOr(compiler, "cxx_compiler", Str("")).value;
      Success(StoreCompilers(vars, c, cxx, Truthy(c) && Exists(c, existing), Truthy(cxx) && Exists(cxx, existing)))
  }

  /** The C compiler stored when `useC`, then the C++ compiler when `useCxx`. */
  function StoreCompilers(vars: CMakeCache.CacheVars, c: Value, cxx: Value, useC: bool, useCxx: bool)
    : CMakeCache.CacheVars
    requires useC ==> c.Str?
    requires useCxx ==> cxx.Str?
  {
    var withC := if useC then Dicts.Put(vars, CCompiler, c.s) else vars;
    if useCxx then Dicts.Put(withC, CxxCompiler, cxx.s) else withC
  }

  /** The cache variables `write_cache` renders. */
  function CacheVarsFor(config: Entries, condaPrefix: string, clearCache: bool, existing: set<string>)
    : Result<CMakeCache.CacheVars>
  {
    var args :- CmakeArgs(config);
    CacheCompilers(config, CMakeCache.FoldArgs(CMakeCache.BaseCacheVars(condaPrefix), args), clearCache, existing)
  }

  /** The text `write_cache` writes. */
  function CacheFile(config: Entries, condaPrefix: string, clearCache: bool, existing: set<string>): (r: Result<string>)
    ensures r.Success? <==> CacheVarsFor(config, condaPrefix, clearCache, existing).Success?
    ensures r.Success? ==> var vars := CacheVarsFor(config, condaPrefix, clearCache, existing).value;
      forall i :: 0 <= i < |vars| ==> Text.IsSubstring(CMakeCache.CacheLine(vars[i].0, vars[i].1), r.value)
  {
    var vars :- CacheVarsFor(config, condaPrefix, clearCache, existing);
    Success(CMakeCache.CacheText(CMakeCache.CacheLines(vars)))
  }

  // ---------------------------------------------------------------- generate_cmake_presets

  /** `v and v.strip() and os.path.exists(v)`; `strip` on a set non-string raises. */
  function UsablePath(v: Value, existing: set<string>): (r: Result<bool>)
    ensures r.Failure? <==> Truthy(v) && !v.Str?
    ensures r == Success(true) <==> v.Str? && Text.Strip(v.s) != [] && v.s in existing
  {
    if !Truthy(v) then Success(false)
    else if !v.Str? then Failure(AttributeError)
    else Success(Text.Strip(v.s) != [] && v.s in existing)
  }

  /** The compiler `key` is set, and is a string whenever it is truthy (else `strip` raises). */
  predicate CompilerUsable(config: Entries, key: string) {
    var v := CompilerSetting(config, key);
    v.Some? && (Truthy(v.value) ==> v.value.Str?)
  }

  /** The compiler step of `generate_cmake_presets`, which reads both compilers by subscript. */
  function PresetCompilers(config: Entries, vars: CMakeCache.CacheVars, clearCache: bool, existing: set<string>)
    : (r: Result<CMakeCache.CacheVars>)
    ensures clearCache ==> r.Success? && Dicts.Lookup(r.value, CCompiler) == Some("") && Dicts.Lookup(r.value, CxxCompiler) == Some("")
    ensures r.Success? ==> forall k :: k != CCompiler && k != CxxCompiler ==> Dicts.Lookup(r.value, k) == Dicts.Lookup(vars, k)
  {
    if clearCache then Success(ClearCompilers(vars))
    else
      var compiler :- Subscript(Table(config), "compiler");
      var c :- Subscript(compiler, "c_compiler");
      var useC :- UsablePath(c, existing);
      var cxx :- Subscript(compiler, "cxx_compiler");
      var useCxx :- UsablePath(cxx, existing);
      Success(StoreCompilers(vars, c, cxx, useC, useCxx))
  }

  /** A configure preset of the presets document. */
  datatype ConfigurePreset = ConfigurePreset(
    name: string,
    displayName: string,
    inherits: Option<string>,
    generator: Option<string>,
    binaryDir: string,
    cacheVariables: CMakeCache.CacheVars)

  /** A build preset; `verbose` and `jobs` are the configured values as they are. */
  datatype BuildPreset = BuildPreset(name: string, configurePreset: string, verbose: Value, jobs: Value)

  /** The `CMakeUserPresets.json` document. */
  datatype PresetsDocument = PresetsDocument(
    version: int,
    configurePresets: seq<ConfigurePreset>,
    buildPresets: seq<BuildPreset>)

  const ReleasePreset := "sigmond-auto-release"
  const DebugPreset := "sigmond-auto-debug"

  /** The document for the given cache variables, verbosity and job count. */
  function PresetsOf(vars: CMakeCache.CacheVars, verbose: Value, jobs: Value): PresetsDocument {
    PresetsDocument(
      5,
      [ ConfigurePreset(ReleasePreset, "Sigmond Auto Release", None, Some("Unix Makefiles"),
          "${sourceDir}/../../../build", vars),
        ConfigurePreset(DebugPreset, "Sigmond Auto Debug", Some(ReleasePreset), None,
          "${sourceDir}/../../../build-debug", [("CMAKE_BUILD_TYPE", "Debug")]) ],
      [ BuildPreset("build-auto-release", ReleasePreset, verbose, jobs),
        BuildPreset("build-auto-debug", DebugPreset, verbose, jobs) ])
  }

  /** The document `generate_cmake_presets` writes. */
  function PresetsFor(config: Entries, condaPrefix: string, clearCache: bool, existing: set<string>, cpuCount: Option<nat>)
    : (r: Result<PresetsDocument>)
    ensures r.Success? ==> CmakeArgs(config).Success? && Shared.BuildJobs(config, cpuCount).Success?
    ensures r.Success? ==> r.value.version == 5 && |r.value.configurePresets| == 2 && |r.value.buildPresets| == 2
    ensures r.Success? ==> forall i :: 0 <= i < 2 ==> Success(r.value.buildPresets[i].jobs) == Shared.BuildJobs(config, cpuCount)
  {
    var args :- CmakeArgs(config);
    var vars :- PresetCompilers(config, CMakeCache.FoldArgs(CMakeCache.BaseCacheVars(condaPrefix), args), clearCache, existing);
    var verbose := Shared.BuildSetting(config, "verbose").value;
    var jobs :- Shared.BuildJobs(config, cpuCount);
    Success(PresetsOf(vars, verbose, jobs))
  }

  // ---------------------------------------------------------------- properties of the arguments

  /** The parts `get_cmake_args` concatenates. */
  lemma CmakeArgsParts(config: Entries)
    requires CmakeArgs(config).Success?
    ensures var build := Dicts.Lookup(config, "build").value;
      && CoreArgs(build).Success?
      && LibraryArgs(config, Subscript(build, "enable_minuit").value, Subscript(build, "enable_grace").value).Success?
      && CompilerArgs(config).Success?
      && CmakeArgs(config).value ==
        CoreArgs(build).value
        + ExtraDefinitionArgs(GetOr(build, "extra_cmake_definitions", List([])).value)
        + LibraryArgs(config, Subscript(build, "enable_minuit").value, Subscript(build, "enable_grace").value).value
        + CompilerArgs(config).value
  {
  }

  /** Every argument `get_cmake_args` returns is a `-D` definition. */
  lemma CmakeArgsAreDefinitions(config: Entries)
    requires CmakeArgs(config).Success?
    ensures Shared.AllDefinitions(CmakeArgs(config).value)
  {
    CmakeArgsParts(config);
    var build := Dicts.Lookup(config, "build").value;
    var core := CoreArgs(build).value;
    var extras := ExtraDefinitionArgs(GetOr(build, "extra_cmake_definitions", List([])).value);
    var libs := LibraryArgs(config, Subscript(build, "enable_minuit").value, Subscript(build, "enable_grace").value).value;
    CoreArgsShape(build);
    Shared.AllDefinitionsAppend(core, extras);
    Shared.AllDefinitionsAppend(core + extras, libs);
    Shared.AllDefinitionsAppend(core + extras + libs, CompilerArgs(config).value);
  }

  /** The blocks `LibraryArgs` concatenates. */
  lemma LibraryArgsParts(config: Entries, minuit: Value, grace: Value)
    requires LibraryArgs(config, minuit, grace).Success?
    ensures var libs := Subscript(Table(config), "libraries");
      && libs.Success?
      && Section(libs.value, "hdf5", HDF5Keys).Success?
      && Section(libs.value, "blas", BlasKeys).Success?
      && Section(libs.value, "lapack", LapackKeys).Success?
      && (Truthy(minuit) ==> Section(libs.value, "minuit2", MinuitKeys).Success?)
      && (Truthy(grace) ==> Section(libs.value, "grace", GraceKeys).Success?)
      && Section(libs.value, "accelerate", AccelerateKeys).Success?
      && LibraryArgs(config, minuit, grace).value ==
        Section(libs.value, "hdf5", HDF5Keys).value
        + Section(libs.value, "blas", BlasKeys).value
        + Section(libs.value, "lapack", LapackKeys).value
        + (if Truthy(minuit) then Section(libs.value, "minuit2", MinuitKeys).value else [])
        + (if Truthy(grace) then Section(libs.value, "grace", GraceKeys).value else [])
        + Section(libs.value, "accelerate", AccelerateKeys).value
  {
  }

  /**
   * Minuit2 and Grace paths are passed only for an enabled library: with the library disabled no
   * library argument names its variables.
   */
  lemma OptionalLibrariesGated(config: Entries, minuit: Value, grace: Value)
    requires LibraryArgs(config, minuit, grace).Success?
    ensures var args := LibraryArgs(config, minuit, grace).value;
      && (!Truthy(minuit) ==> Shared.NoneNamed(args, "SIGMOND_MINUIT2_INCLUDE_DIR") && Shared.NoneNamed(args, "SIGMOND_MINUIT2_LIBRARY_DIR"))
      && (!Truthy(grace) ==> Shared.NoneNamed(args, "SIGMOND_GRACE_INCLUDE_DIR") && Shared.NoneNamed(args, "SIGMOND_GRACE_LIBRARY_DIR"))
  {
    LibraryArgsParts(config, minuit, grace);
    var libs := Subscript(Table(config), "libraries").value;
    var minuit2 := if Truthy(minuit) then Section(libs, "minuit2", MinuitKeys).value else [];
    var grace2 := if Truthy(grace) then Section(libs, "grace", GraceKeys).value else [];
    if !Truthy(minuit) {
      MinuitVariableChars();
      BlocksAvoid(libs, minuit2, grace2, "SIGMOND_MINUIT2_INCLUDE_DIR");
      BlocksAvoid(libs, minuit2, grace2, "SIGMOND_MINUIT2_LIBRARY_DIR");
    }
    if !Truthy(grace) {
      GraceVariableChars();
      BlocksAvoid(libs, minuit2, grace2, "SIGMOND_GRACE_INCLUDE_DIR");
      BlocksAvoid(libs, minuit2, grace2, "SIGMOND_GRACE_LIBRARY_DIR");
    }
  }

  // The variable names are told apart by their first and ninth characters; each lemma below
  // states those characters for one group of literal names.

  lemma MinuitVariableChars()
    ensures var a := "SIGMOND_MINUIT2_INCLUDE_DIR"; |a| > 8 && a[0] == 'S' && a[8] == 'M'
    ensures var b := "SIGMOND_MINUIT2_LIBRARY_DIR"; |b| > 8 && b[0] == 'S' && b[8] == 'M'
  {}

  lemma GraceVariableChars()
    ensures var a := "SIGMOND_GRACE_INCLUDE_DIR"; |a| > 8 && a[0] == 'S' && a[8] == 'G'
    ensures var b := "SIGMOND_GRACE_LIBRARY_DIR"; |b| > 8 && b[0] == 'S' && b[8] == 'G'
  {}

  lemma FixedKeyChars()
    ensures forall j :: 0 <= j < |HDF5Keys| ==> 0 < |HDF5Keys[j].1| && HDF5Keys[j].1[0] == 'H'
    ensures forall j :: 0 <= j < |BlasKeys| ==> 0 < |BlasKeys[j].1| && BlasKeys[j].1[0] == 'B'
    ensures forall j :: 0 <= j < |LapackKeys| ==> 0 < |LapackKeys[j].1| && LapackKeys[j].1[0] == 'L'
    ensures forall j :: 0 <= j < |AccelerateKeys| ==> 8 < |AccelerateKeys[j].1| && AccelerateKeys[j].1[8] == 'A'
  {}

  lemma OptionalKeyChars()
    ensures forall j :: 0 <= j < |MinuitKeys| ==> 8 < |MinuitKeys[j].1| && MinuitKeys[j].1[8] == 'M'
    ensures forall j :: 0 <= j < |GraceKeys| ==> 8 < |GraceKeys[j].1| && GraceKeys[j].1[8] == 'G'
  {}

  /**
   * The library blocks avoid a variable `name` that no always-read section sets and that the
   * non-empty optional blocks do not set either; each optional block is empty or that
   * library's section arguments.
   */
  lemma BlocksAvoid(libs: Value, minuit2: seq<string>, grace2: seq<string>, name: string)
    requires Section(libs, "hdf5", HDF5Keys).Success? && Section(libs, "blas", BlasKeys).Success?
    requires Section(libs, "lapack", LapackKeys).Success? && Section(libs, "accelerate", AccelerateKeys).Success?
    requires minuit2 == [] || Section(libs, "minuit2", MinuitKeys) == Success(minuit2)
    requires grace2 == [] || Section(libs, "grace", GraceKeys) == Success(grace2)
    requires |name| > 8 && name[0] == 'S' && name[8] != 'A'
    requires minuit2 == [] || name[8] != 'M'
    requires grace2 == [] || name[8] != 'G'
    ensures Shared.NoneNamed(Section(libs, "hdf5", HDF5Keys).value + Section(libs, "blas", BlasKeys).value
      + Section(libs, "lapack", LapackKeys).value + minuit2 + grace2 + Section(libs, "accelerate", AccelerateKeys).value, name)
  {
    var hdf5 := Section(libs, "hdf5", HDF5Keys).value;
    var blas := Section(libs, "blas", BlasKeys).value;
    var lapack := Section(libs, "lapack", LapackKeys).value;
    var accelerate := Section(libs, "accelerate", AccelerateKeys).value;
    FixedKeyChars();
    OptionalKeyChars();
    SectionAvoids(libs, "hdf5", HDF5Keys, name, 0);
    SectionAvoids(libs, "blas", BlasKeys, name, 0);
    SectionAvoids(libs, "lapack", LapackKeys, name, 0);
    SectionAvoids(libs, "accelerate", AccelerateKeys, name, 8);
    if minuit2 != [] {
      SectionAvoids(libs, "minuit2", MinuitKeys, name, 8);
    }
    if grace2 != [] {
      SectionAvoids(libs, "grace", GraceKeys, name, 8);
    }
    Shared.NoneNamedAppend(hdf5, blas, name);
    Shared.NoneNamedAppend(hdf5 + blas, lapack, name);
    Shared.NoneNamedAppend(hdf5 + blas + lapack, minuit2, name);
    Shared.NoneNamedAppend(hdf5 + blas + lapack + minuit2, grace2, name);
    Shared.NoneNamedAppend(hdf5 + blas + lapack + minuit2 + grace2, accelerate, name);
  }

  /** How many sections `LibraryArgs` reads. */
  const SectionCount := 6

  /** Section `s` of those `LibraryArgs` reads, with its keys, in source order. */
  function LibrarySection(s: nat): (string, seq<(string, string)>)
    requires s < SectionCount
  {
    if s == 0 then ("hdf5", HDF5Keys) else if s == 1 then ("blas", BlasKeys)
    else if s == 2 then ("lapack", LapackKeys) else if s == 3 then ("minuit2", MinuitKeys)
    else if s == 4 then ("grace", GraceKeys) else ("accelerate", AccelerateKeys)
  }

  /** Whether `LibraryArgs` reads section `lib`: Minuit2 and Grace only when enabled. */
  predicate SectionRead(lib: string, minuit: Value, grace: Value) {
    (lib == "minuit2" ==> Truthy(minuit)) && (lib == "grace" ==> Truthy(grace))
  }

  /** Key `key` of section `lib` is not set: the section is absent, or a table where the key is missing or falsy. */
  predicate PathUnset(libs: Value, lib: string, key: string) {
    libs.Table? && Dicts.Lookup(libs.entries, lib).Some? && Dicts.Lookup(libs.entries, lib).value.Table? ==>
      !TruthyOpt(Dicts.Lookup(Dicts.Lookup(libs.entries, lib).value.entries, key))
  }

  /** Every library variable belongs to exactly one key of one section. */
  lemma LibraryVariablesDistinct()
    ensures forall s, j, s2, j2 ::
      (0 <= s < SectionCount && 0 <= j < |LibrarySection(s).1|
      && 0 <= s2 < SectionCount && 0 <= j2 < |LibrarySection(s2).1|
      && LibrarySection(s).1[j].1 == LibrarySection(s2).1[j2].1) ==> s == s2 && j == j2
  {
    MinuitVariableChars();
    GraceVariableChars();
    assert MinuitKeys[0].1[16] != MinuitKeys[1].1[16];
    assert GraceKeys[0].1[14] != GraceKeys[1].1[14];
  }

  /** No variable of `keys` contains `=`. */
  predicate KeysPlain(keys: seq<(string, string)>) {
    forall j :: 0 <= j < |keys| ==> '=' !in keys[j].1
  }

  lemma LibraryKeysPlain()
    ensures KeysPlain(HDF5Keys) && KeysPlain(BlasKeys) && KeysPlain(LapackKeys)
    ensures KeysPlain(MinuitKeys) && KeysPlain(GraceKeys) && KeysPlain(AccelerateKeys)
  {
  }

  /**
   * A variable is absent from the library arguments when no section that is read sets a key
   * standing for it.
   */
  lemma LibraryArgsOmit(config: Entries, minuit: Value, grace: Value, name: string)
    requires LibraryArgs(config, minuit, grace).Success?
    requires '=' !in name
    requires var libs := Subscript(Table(config), "libraries").value;
      && SectionLeavesUnset(libs, "hdf5", HDF5Keys, name)
      && SectionLeavesUnset(libs, "blas", BlasKeys, name)
      && SectionLeavesUnset(libs, "lapack", LapackKeys, name)
      && (Truthy(minuit) ==> SectionLeavesUnset(libs, "minuit2", MinuitKeys, name))
      && (Truthy(grace) ==> SectionLeavesUnset(libs, "grace", GraceKeys, name))
      && SectionLeavesUnset(libs, "accelerate", AccelerateKeys, name)
    ensures Shared.NoneNamed(LibraryArgs(config, minuit, grace).value, name)
  {
    LibraryArgsParts(config, minuit, grace);
    var libs := Subscript(Table(config), "libraries").value;
    var hdf5 := Section(libs, "hdf5", HDF5Keys).value;
    var blas := Section(libs, "blas", BlasKeys).value;
    var lapack := Section(libs, "lapack", LapackKeys).value;
    var minuit2 := if Truthy(minuit) then Section(libs, "minuit2", MinuitKeys).value else [];
    var grace2 := if Truthy(grace) then Section(libs, "grace", GraceKeys).value else [];
    var accelerate := Section(libs, "accelerate", AccelerateKeys).value;
    LibraryKeysPlain();
    SectionOmits(libs, "hdf5", HDF5Keys, name);
    SectionOmits(libs, "blas", BlasKeys, name);
    SectionOmits(libs, "lapack", LapackKeys, name);
    if Truthy(minuit) {
      SectionOmits(libs, "minuit2", MinuitKeys, name);
    }
    if Truthy(grace) {
      SectionOmits(libs, "grace", GraceKeys, name);
    }
    SectionOmits(libs, "accelerate", AccelerateKeys, name);
    Shared.NoneNamedAppend(hdf5, blas, name);
    Shared.NoneNamedAppend(hdf5 + blas, lapack, name);
    Shared.NoneNamedAppend(hdf5 + blas + lapack, minuit2, name);
    Shared.NoneNamedAppend(hdf5 + blas + lapack + minuit2, grace2, name);
    Shared.NoneNamedAppend(hdf5 + blas + lapack + minuit2 + grace2, accelerate, name);
  }

  /** The variable of key `j` of section `s`, unset there, is left unset by section `s2` as well. */
  lemma LeavesUnsetAt(libs: Value, s: nat, j: nat, s2: nat)
    requires s < SectionCount && j < |LibrarySection(s).1| && s2 < SectionCount
    requires PathUnset(libs, LibrarySection(s).0, LibrarySection(s).1[j].0)
    ensures SectionLeavesUnset(libs, LibrarySection(s2).0, LibrarySection(s2).1, LibrarySection(s).1[j].1)
  {
    LibraryVariablesDistinct();
    if s2 == s {
      LibrarySectionNames();
    }
  }

  /** The sections have different names. */
  lemma LibrarySectionNames()
    ensures forall s, s2 :: 0 <= s < SectionCount && 0 <= s2 < SectionCount && LibrarySection(s).0 == LibrarySection(s2).0 ==> s == s2
  {
  }

  /**
   * A library path is passed only when it is set: its variable is absent when its section is
   * not read (a disabled Minuit2 or Grace) or does not set its key.
   */
  lemma LibraryPathOmitted(config: Entries, minuit: Value, grace: Value, s: nat, j: nat)
    requires LibraryArgs(config, minuit, grace).Success?
    requires s < SectionCount && j < |LibrarySection(s).1|
    requires SectionRead(LibrarySection(s).0, minuit, grace) ==>
      PathUnset(Subscript(Table(config), "libraries").value, LibrarySection(s).0, LibrarySection(s).1[j].0)
    ensures Shared.NoneNamed(LibraryArgs(config, minuit, grace).value, LibrarySection(s).1[j].1)
  {
    var (lib, keys) := LibrarySection(s);
    var name := keys[j].1;
    var libs := Subscript(Table(config), "libraries").value;
    if !SectionRead(lib, minuit, grace) {
      OptionalLibrariesGated(config, minuit, grace);
      assert s == 3 || s == 4;
    } else {
      LibraryKeysPlain();
      assert '=' !in name;
      LeavesUnsetAt(libs, s, j, 0);
      LeavesUnsetAt(libs, s, j, 1);
      LeavesUnsetAt(libs, s, j, 2);
      LeavesUnsetAt(libs, s, j, 3);
      LeavesUnsetAt(libs, s, j, 4);
      LeavesUnsetAt(libs, s, j, 5);
      LibraryArgsOmit(config, minuit, grace, name);
    }
  }

  /** A library path set in a section that is read is passed under its variable. */
  lemma LibraryPathPassed(config: Entries, minuit: Value, grace: Value, s: nat, j: nat)
    requires LibraryArgs(config, minuit, grace).Success?
    requires s < SectionCount && j < |LibrarySection(s).1|
    requires SectionRead(LibrarySection(s).0, minuit, grace)
    requires var libs := Dicts.Lookup(config, "libraries");
      libs.Some? && libs.value.Table? && Dicts.Lookup(libs.value.entries, LibrarySection(s).0).Some?
    ensures var section := Dicts.Lookup(Dicts.Lookup(config, "libraries").value.entries, LibrarySection(s).0).value;
      var key := LibrarySection(s).1[j];
      && section.Table?
      && (TruthyOpt(Dicts.Lookup(section.entries, key.0)) ==>
        Shared.Define(key.1, Dicts.Lookup(section.entries, key.0).value) in LibraryArgs(config, minuit, grace).value)
  {
    LibraryArgsParts(config, minuit, grace);
    var (lib, keys) := LibrarySection(s);
    var libs := Subscript(Table(config), "libraries").value;
    var args := LibraryArgs(config, minuit, grace).value;
    var hdf5 := Section(libs, "hdf5", HDF5Keys).value;
    var blas := Section(libs, "blas", BlasKeys).value;
    var lapack := Section(libs, "lapack", LapackKeys).value;
    var minuit2 := if Truthy(minuit) then Section(libs, "minuit2", MinuitKeys).value else [];
    var grace2 := if Truthy(grace) then Section(libs, "grace", GraceKeys).value else [];
    var accelerate := Section(libs, "accelerate", AccelerateKeys).value;
    assert args == hdf5 + blas + lapack + minuit2 + grace2 + accelerate;
    var block := if s == 0 then hdf5 else if s == 1 then blas else if s == 2 then lapack
      else if s == 3 then minuit2 else if s == 4 then grace2 else accelerate;
    assert Section(libs, lib, keys) == Success(block);
    assert forall a :: a in block ==> a in args;
  }

  // ---------------------------------------------------------------- the whole argument list

  /**
   * The extras `get_cmake_args` appends after the core arguments. They are passed as they are,
   * so they can assign any variable, including the ones the blocks around them control.
   */
  function ExtrasArgs(config: Entries): seq<string>
    requires Shared.HasBuildTable(config)
  {
    ExtraDefinitionArgs(GetOr(Dicts.Lookup(config, "build").value, "extra_cmake_definitions", List([])).value)
  }

  /** The path arguments name only their own three variables. */
  lemma PathArgsOmit(batchDir: Value, queryDir: Value, ensemblesFile: Value, name: string)
    requires '=' !in name && name != BatchDirName && name != QueryDirName && name != EnsemblesName
    ensures Shared.NoneNamed(PathArgs(batchDir, queryDir, ensemblesFile), name)
  {
    PathNamesPlain();
    var a1, a2, a3 := OptionalArg(BatchDirName, batchDir), OptionalArg(QueryDirName, queryDir), OptionalArg(EnsemblesName, ensemblesFile);
    OptionalArgOmits(BatchDirName, batchDir, name);
    OptionalArgOmits(QueryDirName, queryDir, name);
    OptionalArgOmits(EnsemblesName, ensemblesFile, name);
    Shared.NoneNamedAppend(a1, a2, name);
    Shared.NoneNamedAppend(a1 + a2, a3, name);
  }

  /** The compiler arguments name only the two compiler variables. */
  lemma CompilerArgsOmit(config: Entries, name: string)
    requires CompilerArgs(config).Success?
    requires '=' !in name && name != CCompiler && name != CxxCompiler
    ensures Shared.NoneNamed(CompilerArgs(config).value, name)
  {
    assert KeysPlain(CompilerKeys);
    SectionOmits(Table(config), "compiler", CompilerKeys, name);
  }

  /** The core arguments name nothing but the head's variables and the three paths. */
  lemma CoreArgsOmit(build: Value, name: string)
    requires CoreArgs(build).Success?
    requires '=' !in name && name !in HeadNames && name != BatchDirName && name != QueryDirName && name != EnsemblesName
    ensures Shared.NoneNamed(CoreArgs(build).value, name)
  {
    CoreArgsParts(build);
    var s := SubscriptAll(build, SettingKeys).value;
    var precision := Shared.LoweredSetting(build, "precision").value;
    var numbers := Shared.LoweredSetting(build, "numbers").value;
    var format := Shared.LoweredSetting(build, "default_file_format").value;
    var head := ["-DPRECISION=" + precision, "-DNUMBERS=" + numbers, "-DDEFAULT_FILE_FORMAT=" + format]
      + ControlArgs(s[0], s[1], s[2], s[3], s[4]) + [TestingArg(s[5])];
    var paths := PathArgs(s[6], s[7], GetOr(build, "default_ensembles_file", Str("")).value);
    assert CoreArgs(build).value == head + paths;
    HeadOmits(precision, numbers, format, s, name);
    PathArgsOmit(s[6], s[7], GetOr(build, "default_ensembles_file", Str("")).value, name);
    Shared.NoneNamedAppend(head, paths, name);
  }

  /** The testing switch is not a variable of any library section, nor a compiler variable. */
  lemma LibrariesOmitToggle(config: Entries, minuit: Value, grace: Value)
    requires LibraryArgs(config, minuit, grace).Success?
    ensures Shared.NoneNamed(LibraryArgs(config, minuit, grace).value, "ENABLE_TESTING")
    ensures "ENABLE_TESTING" != CCompiler && "ENABLE_TESTING" != CxxCompiler && '=' !in "ENABLE_TESTING"
  {
    LibraryArgsOmit(config, minuit, grace, "ENABLE_TESTING");
  }

  /**
   * Over the whole of `get_cmake_args`, `ENABLE_TESTING` is assigned exactly once, `ON` exactly
   * when testing is enabled, as long as the extras do not assign it themselves.
   */
  lemma CmakeArgsToggle(config: Entries)
    requires CmakeArgs(config).Success?
    requires Shared.NoneNamed(ExtrasArgs(config), "ENABLE_TESTING")
    ensures var args := CmakeArgs(config).value;
      var testing := Subscript(Dicts.Lookup(config, "build").value, "enable_testing").value;
      && CountNamed(args, "ENABLE_TESTING") == 1
      && ("-DENABLE_TESTING=ON" in args <==> Truthy(testing))
      && ("-DENABLE_TESTING=OFF" in args <==> !Truthy(testing))
  {
    CmakeArgsParts(config);
    var build := Dicts.Lookup(config, "build").value;
    var minuit, grace := Subscript(build, "enable_minuit").value, Subscript(build, "enable_grace").value;
    var core := CoreArgs(build).value;
    var extras, libs, compilers := ExtrasArgs(config), LibraryArgs(config, minuit, grace).value, CompilerArgs(config).value;
    LibrariesOmitToggle(config, minuit, grace);
    CompilerArgsOmit(config, "ENABLE_TESTING");
    CoreArgsShape(build);
    TailKeepsToggle(core, extras);
    TailKeepsToggle(core + extras, libs);
    TailKeepsToggle(core + extras + libs, compilers);
  }

  /** Appending arguments that do not name the testing switch keeps its count and its spellings. */
  lemma TailKeepsToggle(core: seq<string>, tail: seq<string>)
    requires Shared.NoneNamed(tail, "ENABLE_TESTING")
    ensures CountNamed(core + tail, "ENABLE_TESTING") == CountNamed(core, "ENABLE_TESTING")
    ensures "-DENABLE_TESTING=ON" in core + tail <==> "-DENABLE_TESTING=ON" in core
    ensures "-DENABLE_TESTING=OFF" in core + tail <==> "-DENABLE_TESTING=OFF" in core
  {
    CountNamedAppend(core, tail, "ENABLE_TESTING");
    NoneNamedCount(tail, "ENABLE_TESTING");
    ToggleWords();
  }

  /** The library variables are neither head variables, nor paths, nor compilers, and hold no `=`. */
  lemma LibraryVariablesApart(s: nat, j: nat)
    requires s < SectionCount && j < |LibrarySection(s).1|
    ensures var name := LibrarySection(s).1[j].1;
      && '=' !in name && name !in HeadNames && name != BatchDirName && name != QueryDirName && name != EnsemblesName
      && name != CCompiler && name != CxxCompiler
  {
    LibraryKeysPlain();
  }

  /**
   * Over the whole of `get_cmake_args`, a library path whose section is not read (a disabled
   * Minuit2 or Grace) or does not set it is absent, as long as the extras do not assign it.
   */
  lemma CmakeLibraryPathOmitted(config: Entries, s: nat, j: nat)
    requires CmakeArgs(config).Success?
    requires s < SectionCount && j < |LibrarySection(s).1|
    requires var build := Dicts.Lookup(config, "build").value;
      SectionRead(LibrarySection(s).0, Subscript(build, "enable_minuit").value, Subscript(build, "enable_grace").value) ==>
      PathUnset(Subscript(Table(config), "libraries").value, LibrarySection(s).0, LibrarySection(s).1[j].0)
    requires Shared.NoneNamed(ExtrasArgs(config), LibrarySection(s).1[j].1)
    ensures Shared.NoneNamed(CmakeArgs(config).value, LibrarySection(s).1[j].1)
  {
    CmakeArgsParts(config);
    var build := Dicts.Lookup(config, "build").value;
    var minuit, grace := Subscript(build, "enable_minuit").value, Subscript(build, "enable_grace").value;
    var name := LibrarySection(s).1[j].1;
    var core := CoreArgs(build).value;
    var extras, libs, compilers := ExtrasArgs(config), LibraryArgs(config, minuit, grace).value, CompilerArgs(config).value;
    LibraryVariablesApart(s, j);
    CoreArgsOmit(build, name);
    LibraryPathOmitted(config, minuit, grace, s, j);
    CompilerArgsOmit(config, name);
    Shared.NoneNamedAppend(core, extras, name);
    Shared.NoneNamedAppend(core + extras, libs, name);
    Shared.NoneNamedAppend(core + extras + libs, compilers, name);
  }

  /** No library section and no compiler setting stands for a path variable. */
  lemma LibrariesOmitPath(config: Entries, minuit: Value, grace: Value, name: string)
    requires LibraryArgs(config, minuit, grace).Success?
    requires name == BatchDirName || name == QueryDirName || name == EnsemblesName
    ensures Shared.NoneNamed(LibraryArgs(config, minuit, grace).value, name)
    ensures '=' !in name && name != CCompiler && name != CxxCompiler
  {
    PathNamesPlain();
    forall s, j | 0 <= s < SectionCount && 0 <= j < |LibrarySection(s).1|
      ensures LibrarySection(s).1[j].1 != name
    {
      LibraryVariablesApart(s, j);
    }
    assert LibrarySection(0) == ("hdf5", HDF5Keys) && LibrarySection(1) == ("blas", BlasKeys);
    assert LibrarySection(2) == ("lapack", LapackKeys) && LibrarySection(3) == ("minuit2", MinuitKeys);
    assert LibrarySection(4) == ("grace", GraceKeys) && LibrarySection(5) == ("accelerate", AccelerateKeys);
    LibraryArgsOmit(config, minuit, grace, name);
  }

  /**
   * Over the whole of `get_cmake_args`, an install directory or the ensembles file that is not
   * set leaves its variable out, as long as the extras do not assign it.
   */
  lemma CmakePathOmitted(config: Entries, name: string)
    requires CmakeArgs(config).Success?
    requires var build := Dicts.Lookup(config, "build").value;
      || (name == BatchDirName && !Truthy(Subscript(build, "batch_install_dir").value))
      || (name == QueryDirName && !Truthy(Subscript(build, "query_install_dir").value))
      || (name == EnsemblesName && !Truthy(GetOr(build, "default_ensembles_file", Str("")).value))
    requires Shared.NoneNamed(ExtrasArgs(config), name)
    ensures Shared.NoneNamed(CmakeArgs(config).value, name)
  {
    CmakeArgsParts(config);
    var build := Dicts.Lookup(config, "build").value;
    var minuit, grace := Subscript(build, "enable_minuit").value, Subscript(build, "enable_grace").value;
    var core := CoreArgs(build).value;
    var extras, libs, compilers := ExtrasArgs(config), LibraryArgs(config, minuit, grace).value, CompilerArgs(config).value;
    CorePathsPassed(build);
    LibrariesOmitPath(config, minuit, grace, name);
    CompilerArgsOmit(config, name);
    Shared.NoneNamedAppend(core, extras, name);
    Shared.NoneNamedAppend(core + extras, libs, name);
    Shared.NoneNamedAppend(core + extras + libs, compilers, name);
  }

  /** The extras `get_cmake_args` appends are those of the `build` setting. */
  lemma ExtrasOf(config: Entries, extras: Value)
    requires CmakeArgs(config).Success?
    requires GetOr(Dicts.Lookup(config, "build").value, "extra_cmake_definitions", List([])).value == extras
    ensures Shared.HasBuildTable(config) && ExtrasArgs(config) == ExtraDefinitionArgs(extras)
    ensures forall a :: a in ExtrasArgs(config) ==> a in CmakeArgs(config).value
  {
    CmakeArgsParts(config);
  }

  /**
   * The extras come after the testing switch and can assign it again: with testing disabled and
   * the extra `ENABLE_TESTING = true`, both spellings are passed, and CMake keeps the later `ON`.
   */
  lemma ExtrasOverrideToggle(config: Entries)
    requires CmakeArgs(config).Success?
    requires var build := Dicts.Lookup(config, "build").value;
      && GetOr(build, "extra_cmake_definitions", List([])).value == Table([("ENABLE_TESTING", Bool(true))])
      && !Truthy(Subscript(build, "enable_testing").value)
    ensures "-DENABLE_TESTING=OFF" in CmakeArgs(config).value
    ensures "-DENABLE_TESTING=ON" in CmakeArgs(config).value
  {
    ExtrasOf(config, Table([("ENABLE_TESTING", Bool(true))]));
    ToggleExtraArgs();
    assert "-DENABLE_TESTING=OFF" in CmakeArgs(config).value by {
      CmakeArgsParts(config);
      CoreArgsShape(Dicts.Lookup(config, "build").value);
    }
  }

  /** The extra table `{ENABLE_TESTING = true}` becomes the argument `-DENABLE_TESTING=ON`. */
  lemma ToggleExtraArgs()
    ensures ExtraDefinitionArgs(Table([("ENABLE_TESTING", Bool(true))])) == ["-DENABLE_TESTING=ON"]
  {
    assert PairArgs([("ENABLE_TESTING", Bool(true))]) == [PairArg("ENABLE_TESTING", Bool(true))];
    assert PairValue(Bool(true)) == "ON";
    var a := "-D" + "ENABLE_TESTING" + "=" + "ON";
    assert PairArg("ENABLE_TESTING", Bool(true)) == a;
    assert |a| == 19 && forall i :: 0 <= i < 19 ==> a[i] == "-DENABLE_TESTING=ON"[i];
    assert a == "-DENABLE_TESTING=ON";
    assert ExtraDefinitionArgs(Table([("ENABLE_TESTING", Bool(true))])) == PairArgs([("ENABLE_TESTING", Bool(true))]);
  }

  /** The extra table `{SIGMOND_MINUIT2_INCLUDE_DIR = "/x"}` becomes the argument that sets that variable. */
  lemma MinuitExtraArgs()
    ensures ExtraDefinitionArgs(Table([("SIGMOND_MINUIT2_INCLUDE_DIR", Str("/x"))])) == ["-DSIGMOND_MINUIT2_INCLUDE_DIR=/x"]
  {
    assert PairArgs([("SIGMOND_MINUIT2_INCLUDE_DIR", Str("/x"))]) == [PairArg("SIGMOND_MINUIT2_INCLUDE_DIR", Str("/x"))];
    assert PairValue(Str("/x")) == "/x";
    assert PairArg("SIGMOND_MINUIT2_INCLUDE_DIR", Str("/x")) == "-D" + "SIGMOND_MINUIT2_INCLUDE_DIR" + "=" + "/x";
    MinuitArgText();
    assert ExtraDefinitionArgs(Table([("SIGMOND_MINUIT2_INCLUDE_DIR", Str("/x"))])) == PairArgs([("SIGMOND_MINUIT2_INCLUDE_DIR", Str("/x"))]);
  }

  /** The argument text, spelled out character by character. */
  lemma MinuitArgText()
    ensures "-D" + "SIGMOND_MINUIT2_INCLUDE_DIR" + "=" + "/x" == "-DSIGMOND_MINUIT2_INCLUDE_DIR=/x"
  {
    var a := "-D" + "SIGMOND_MINUIT2_INCLUDE_DIR" + "=" + "/x";
    assert |a| == 32 && forall i :: 0 <= i < 32 ==> a[i] == "-DSIGMOND_MINUIT2_INCLUDE_DIR=/x"[i];
  }

  /**
   * The extras can also pass an optional library's path while that library is disabled: the
   * gate covers only the library block.
   */
  lemma ExtrasBypassGate(config: Entries)
    requires CmakeArgs(config).Success?
    requires var build := Dicts.Lookup(config, "build").value;
      && GetOr(build, "extra_cmake_definitions", List([])).value == Table([("SIGMOND_MINUIT2_INCLUDE_DIR", Str("/x"))])
      && !Truthy(Subscript(build, "enable_minuit").value)
    ensures "-DSIGMOND_MINUIT2_INCLUDE_DIR=/x" in CmakeArgs(config).value
  {
    ExtrasOf(config, Table([("SIGMOND_MINUIT2_INCLUDE_DIR", Str("/x"))]));
    MinuitExtraArgs();
  }

  // ---------------------------------------------------------------- properties of the cache and the presets

  /** A setting of the `compiler` table, when the tree has one. */
  function CompilerSetting(config: Entries, key: string): Option<Value> {
    var section := Dicts.Lookup(config, "compiler");
    if section.Some? && section.value.Table? then Dicts.Lookup(section.value.entries, key) else None
  }

  /** Arguments that name other variables do not change the last definition of `k`. */
  lemma {:induction false} LastDefinitionSkips(prefix: seq<string>, tail: seq<string>, k: string)
    requires forall i :: 0 <= i < |tail| ==>
      CMakeCache.Definition(tail[i]).Some? && CMakeCache.Definition(tail[i]).value.0 != k
    ensures CMakeCache.LastDefinition(prefix + tail, k) == CMakeCache.LastDefinition(prefix, k)
    decreases |tail|
  {
    if tail == [] {
      assert prefix + tail == prefix;
    } else {
      var all := prefix + tail;
      assert all[..|all| - 1] == prefix + tail[..|tail| - 1];
      assert all[|all| - 1] == tail[|tail| - 1];
      LastDefinitionSkips(prefix, tail[..|tail| - 1], k);
    }
  }

  /** The argument a compiler setting contributes: its definition when it is set. */
  function CompilerBlock(c: Option<Value>, name: string): seq<string> {
    if TruthyOpt(c) then [Shared.Define(name, c.value)] else []
  }

  /** `get_cmake_args`' compiler step: the C compiler's definition, then the C++ compiler's. */
  lemma CompilerArgsShape(config: Entries)
    requires CompilerArgs(config).Success?
    ensures CompilerArgs(config).value ==
      CompilerBlock(CompilerSetting(config, "c_compiler"), CCompiler)
      + CompilerBlock(CompilerSetting(config, "cxx_compiler"), CxxCompiler)
  {
    var c := CompilerSetting(config, "c_compiler");
    var cxx := CompilerSetting(config, "cxx_compiler");
    if "compiler" in Dicts.Keys(config) {
      var section := Dicts.Lookup(config, "compiler").value;
      assert CompilerKeys[1..] == [("cxx_compiler", CxxCompiler)];
      assert EntryArgs(section, [("cxx_compiler", CxxCompiler)]).value == CompilerBlock(cxx, CxxCompiler) + [];
    }
  }

  /** After any prefix, the compiler blocks decide the last definition of each compiler variable. */
  lemma LastCompilers(prefix: seq<string>, c: Option<Value>, cxx: Option<Value>)
    ensures var args := prefix + (CompilerBlock(c, CCompiler) + CompilerBlock(cxx, CxxCompiler));
      TruthyOpt(c) ==> CMakeCache.LastDefinition(args, CCompiler) == Some(PyStr(c.value))
    ensures var args := prefix + (CompilerBlock(c, CCompiler) + CompilerBlock(cxx, CxxCompiler));
      TruthyOpt(cxx) ==> CMakeCache.LastDefinition(args, CxxCompiler) == Some(PyStr(cxx.value))
  {
    var hereC := CompilerBlock(c, CCompiler);
    var hereCxx := CompilerBlock(cxx, CxxCompiler);
    assert prefix + (hereC + hereCxx) == prefix + hereC + hereCxx;
    if TruthyOpt(cxx) {
      DefineRoundTrip(CxxCompiler, cxx.value);
      assert (prefix + hereC + hereCxx)[..|prefix + hereC|] == prefix + hereC;
    }
    if TruthyOpt(c) {
      DefineRoundTrip(CCompiler, c.value);
      assert (prefix + hereC)[..|prefix|] == prefix;
      if TruthyOpt(cxx) {
        DefineRoundTrip(CxxCompiler, cxx.value);
      }
      LastDefinitionSkips(prefix + hereC, hereCxx, CCompiler);
    }
  }

  /**
   * The compilers come last: when a compiler is set, the last argument naming its variable
   * carries the configured value, whatever the extras defined before it.
   */
  lemma CompilersComeLast(config: Entries)
    requires CmakeArgs(config).Success?
    ensures var args := CmakeArgs(config).value;
      var c := CompilerSetting(config, "c_compiler");
      TruthyOpt(c) ==> CMakeCache.LastDefinition(args, CCompiler) == Some(PyStr(c.value))
    ensures var args := CmakeArgs(config).value;
      var cxx := CompilerSetting(config, "cxx_compiler");
      TruthyOpt(cxx) ==> CMakeCache.LastDefinition(args, CxxCompiler) == Some(PyStr(cxx.value))
  {
    CmakeArgsParts(config);
    CompilerArgsShape(config);
    var build := Dicts.Lookup(config, "build").value;
    LastCompilers(
      CoreArgs(build).value
        + ExtraDefinitionArgs(GetOr(build, "extra_cmake_definitions", List([])).value)
        + LibraryArgs(config, Subscript(build, "enable_minuit").value, Subscript(build, "enable_grace").value).value,
      CompilerSetting(config, "c_compiler"), CompilerSetting(config, "cxx_compiler"));
  }

  /** The folded variables hold no name twice and keep the five base settings in front. */
  lemma FoldedVarsShape(condaPrefix: string, args: seq<string>)
    ensures var vars := CMakeCache.FoldArgs(CMakeCache.BaseCacheVars(condaPrefix), args);
      Dicts.UniqueKeys(vars) && Dicts.Keys(CMakeCache.BaseVars) <= Dicts.Keys(vars)
  {
    var base := CMakeCache.BaseCacheVars(condaPrefix);
    CMakeCache.FoldKeepsPositions(base, args);
    assert Dicts.Keys(CMakeCache.BaseVars) <= Dicts.Keys(base) by {
      assert forall i :: 0 <= i < |CMakeCache.BaseVars| ==> base[i] == CMakeCache.BaseVars[i];
    }
  }

  /** Variables that already hold every set compiler, as the folded arguments do. */
  predicate HoldsCompilers(config: Entries, vars: CMakeCache.CacheVars) {
    var c := CompilerSetting(config, "c_compiler");
    var cxx := CompilerSetting(config, "cxx_compiler");
    && Dicts.UniqueKeys(vars)
    && (TruthyOpt(c) ==> Dicts.Lookup(vars, CCompiler) == Some(PyStr(c.value)))
    && (TruthyOpt(cxx) ==> Dicts.Lookup(vars, CxxCompiler) == Some(PyStr(cxx.value)))
  }

  /** The folded arguments hold every set compiler. */
  lemma FoldHoldsCompilers(config: Entries, condaPrefix: string)
    requires CmakeArgs(config).Success?
    ensures HoldsCompilers(config, CMakeCache.FoldArgs(CMakeCache.BaseCacheVars(condaPrefix), CmakeArgs(config).value))
  {
    var args := CmakeArgs(config).value;
    var base := CMakeCache.BaseCacheVars(condaPrefix);
    FoldedVarsShape(condaPrefix, args);
    CompilersComeLast(config);
    CMakeCache.FoldLastWriterWins(base, args, CCompiler);
    CMakeCache.FoldLastWriterWins(base, args, CxxCompiler);
  }

  /** The compiler step of `write_cache` changes nothing in variables that hold the set compilers. */
  lemma CacheCompilersNoOp(config: Entries, vars: CMakeCache.CacheVars, existing: set<string>)
    requires HoldsCompilers(config, vars)
    requires CacheCompilers(config, vars, false, existing).Success?
    ensures CacheCompilers(config, vars, false, existing).value == vars
  {
    var compiler := Subscript(Table(config), "compiler").value;
    var c := GetOr(compiler, "c_compiler", Str("")).value;
    var cxx := GetOr(compiler, "cxx_compiler", Str("")).value;
    if Truthy(c) {
      assert CompilerSetting(config, "c_compiler") == Some(c);
    }
    if Truthy(cxx) {
      assert CompilerSetting(config, "cxx_compiler") == Some(cxx);
    }
    StoresKept(vars, c, cxx, Truthy(c) && Exists(c, existing), Truthy(cxx) && Exists(cxx, existing));
  }

  /**
   * Outside `clear_cache`, the compiler step of `generate_cmake_presets` succeeds exactly when both
   * compilers are set under a `compiler` table and each truthy one is a string.
   */
  lemma PresetCompilersSucceed(config: Entries, vars: CMakeCache.CacheVars, existing: set<string>)
    ensures PresetCompilers(config, vars, false, existing).Success? <==>
      CompilerUsable(config, "c_compiler") && CompilerUsable(config, "cxx_compiler")
  {
  }

  /** The compiler step of `generate_cmake_presets` changes nothing in such variables either. */
  lemma PresetCompilersNoOp(config: Entries, vars: CMakeCache.CacheVars, existing: set<string>)
    requires HoldsCompilers(config, vars)
    requires PresetCompilers(config, vars, false, existing).Success?
    ensures PresetCompilers(config, vars, false, existing).value == vars
  {
    var compiler := Subscript(Table(config), "compiler").value;
    var c := Subscript(compiler, "c_compiler").value;
    var cxx := Subscript(compiler, "cxx_compiler").value;
    PresetCompilersStore(config, vars, existing);
    CompilerSubscript(config, "c_compiler");
    CompilerSubscript(config, "cxx_compiler");
    var useC := UsablePath(c, existing).value;
    var useCxx := UsablePath(cxx, existing).value;
    assert useC ==> c.Str? && Dicts.Lookup(vars, CCompiler) == Some(c.s);
    assert useCxx ==> cxx.Str? && Dicts.Lookup(vars, CxxCompiler) == Some(cxx.s);
    StoresKept(vars, c, cxx, useC, useCxx);
  }

  /** Outside `clear_cache`, the compiler step of `generate_cmake_presets` stores the usable compilers. */
  lemma PresetCompilersStore(config: Entries, vars: CMakeCache.CacheVars, existing: set<string>)
    requires PresetCompilers(config, vars, false, existing).Success?
    ensures var compiler := Subscript(Table(config), "compiler").value;
      var c := Subscript(compiler, "c_compiler").value;
      var cxx := Subscript(compiler, "cxx_compiler").value;
      && UsablePath(c, existing).Success? && UsablePath(cxx, existing).Success?
      && PresetCompilers(config, vars, false, existing).value ==
        StoreCompilers(vars, c, cxx, UsablePath(c, existing).value, UsablePath(cxx, existing).value)
  {
  }

  /** Storing the compilers the variables already hold leaves them unchanged. */
  lemma StoresKept(vars: CMakeCache.CacheVars, c: Value, cxx: Value, useC: bool, useCxx: bool)
    requires Dicts.UniqueKeys(vars)
    requires useC ==> c.Str? && Dicts.Lookup(vars, CCompiler) == Some(c.s)
    requires useCxx ==> cxx.Str? && Dicts.Lookup(vars, CxxCompiler) == Some(cxx.s)
    ensures StoreCompilers(vars, c, cxx, useC, useCxx) == vars
  {
    if useC {
      Dicts.PutSame(vars, CCompiler, c.s);
    }
    if useCxx {
      Dicts.PutSame(vars, CxxCompiler, cxx.s);
    }
  }

  /** A compiler read by subscript is the compiler setting. */
  lemma CompilerSubscript(config: Entries, key: string)
    requires Subscript(Table(config), "compiler").Success?
    requires Subscript(Subscript(Table(config), "compiler").value, key).Success?
    ensures CompilerSetting(config, key) == Some(Subscript(Subscript(Table(config), "compiler").value, key).value)
  {
  }

  /**
   * Outside `clear_cache`, the compiler step of `write_cache` never changes the variables: a set
   * compiler already holds its value from the compiler arguments, and an unset one is skipped.
   * A configured compiler therefore reaches the cache whether or not the path exists.
   */
  lemma CacheCompilersKeepFold(config: Entries, condaPrefix: string, existing: set<string>)
    requires CacheVarsFor(config, condaPrefix, false, existing).Success?
    ensures CacheVarsFor(config, condaPrefix, false, existing).value ==
      CMakeCache.FoldArgs(CMakeCache.BaseCacheVars(condaPrefix), CmakeArgs(config).value)
  {
    FoldHoldsCompilers(config, condaPrefix);
    CacheCompilersNoOp(config, CMakeCache.FoldArgs(CMakeCache.BaseCacheVars(condaPrefix), CmakeArgs(config).value), existing);
  }

  /** Blanking the compilers keeps every other variable, the order and the unique names. */
  lemma ClearCompilersKeeps(vars: CMakeCache.CacheVars)
    requires Dicts.UniqueKeys(vars)
    ensures var r := ClearCompilers(vars);
      && Dicts.UniqueKeys(r)
      && Dicts.Keys(vars) <= Dicts.Keys(r)
      && Dicts.Lookup(r, CCompiler) == Some("") && Dicts.Lookup(r, CxxCompiler) == Some("")
      && forall k :: k != CCompiler && k != CxxCompiler ==> Dicts.Lookup(r, k) == Dicts.Lookup(vars, k)
  {
  }

  /**
   * What the init cache holds: no variable twice, the base settings first in their order, every
   * non-compiler variable as the last argument naming it left it (or its base value), and both
   * compilers blank under `clear_cache`.
   */
  lemma CacheVariables(config: Entries, condaPrefix: string, clearCache: bool, existing: set<string>)
    requires CacheVarsFor(config, condaPrefix, clearCache, existing).Success?
    ensures var vars := CacheVarsFor(config, condaPrefix, clearCache, existing).value;
      var args := CmakeArgs(config).value;
      var base := CMakeCache.BaseCacheVars(condaPrefix);
      && Dicts.UniqueKeys(vars)
      && Dicts.Keys(CMakeCache.BaseVars) <= Dicts.Keys(vars)
      && (forall k :: k != CCompiler && k != CxxCompiler ==>
           (Dicts.Lookup(vars, k) ==
            if CMakeCache.LastDefinition(args, k).Some? then CMakeCache.LastDefinition(args, k) else Dicts.Lookup(base, k)))
      && (clearCache ==> Dicts.Lookup(vars, CCompiler) == Some("") && Dicts.Lookup(vars, CxxCompiler) == Some(""))
  {
    var args := CmakeArgs(config).value;
    var base := CMakeCache.BaseCacheVars(condaPrefix);
    var folded := CMakeCache.FoldArgs(base, args);
    FoldedVarsShape(condaPrefix, args);
    FoldedLookups(base, args);
    if clearCache {
      CacheVarsCleared(config, condaPrefix, existing);
      ClearCompilersKeeps(folded);
    } else {
      CacheCompilersKeepFold(config, condaPrefix, existing);
    }
  }

  /** Under `clear_cache` the variables are the folded ones with both compilers blanked. */
  lemma CacheVarsCleared(config: Entries, condaPrefix: string, existing: set<string>)
    requires CacheVarsFor(config, condaPrefix, true, existing).Success?
    ensures CacheVarsFor(config, condaPrefix, true, existing).value ==
      ClearCompilers(CMakeCache.FoldArgs(CMakeCache.BaseCacheVars(condaPrefix), CmakeArgs(config).value))
  {
  }

  /** After the fold, a variable holds the last value an argument gave it, or its base value. */
  lemma FoldedLookups(base: CMakeCache.CacheVars, args: seq<string>)
    ensures var folded := CMakeCache.FoldArgs(base, args);
      forall k :: Dicts.Lookup(folded, k) ==
        if CMakeCache.LastDefinition(args, k).Some? then CMakeCache.LastDefinition(args, k) else Dicts.Lookup(base, k)
  {
    forall k
      ensures Dicts.Lookup(CMakeCache.FoldArgs(base, args), k) ==
        if CMakeCache.LastDefinition(args, k).Some? then CMakeCache.LastDefinition(args, k) else Dicts.Lookup(base, k)
    {
      CMakeCache.FoldLastWriterWins(base, args, k);
    }
  }

  /** The parts of the presets document. */
  lemma PresetsForParts(config: Entries, condaPrefix: string, clearCache: bool, existing: set<string>, cpuCount: Option<nat>)
    requires PresetsFor(config, condaPrefix, clearCache, existing, cpuCount).Success?
    ensures CmakeArgs(config).Success?
    ensures var folded := CMakeCache.FoldArgs(CMakeCache.BaseCacheVars(condaPrefix), CmakeArgs(config).value);
      && PresetCompilers(config, folded, clearCache, existing).Success?
      && Shared.BuildJobs(config, cpuCount).Success?
      && PresetsFor(config, condaPrefix, clearCache, existing, cpuCount).value == PresetsOf(
        PresetCompilers(config, folded, clearCache, existing).value,
        Shared.BuildSetting(config, "verbose").value,
        Shared.BuildJobs(config, cpuCount).value)
  {
  }

  /**
   * The init cache mirrors the presets: whenever both succeed, the release preset's cache
   * variables are exactly the variables of the init-cache file.
   */
  lemma CacheMirrorsPresets(config: Entries, condaPrefix: string, clearCache: bool, existing: set<string>, cpuCount: Option<nat>)
    requires CacheVarsFor(config, condaPrefix, clearCache, existing).Success?
    requires PresetsFor(config, condaPrefix, clearCache, existing, cpuCount).Success?
    ensures PresetsFor(config, condaPrefix, clearCache, existing, cpuCount).value.configurePresets[0].cacheVariables ==
      CacheVarsFor(config, condaPrefix, clearCache, existing).value
  {
    PresetsForParts(config, condaPrefix, clearCache, existing, cpuCount);
    if !clearCache {
      var folded := CMakeCache.FoldArgs(CMakeCache.BaseCacheVars(condaPrefix), CmakeArgs(config).value);
      FoldHoldsCompilers(config, condaPrefix);
      CacheCompilersNoOp(config, folded, existing);
      PresetCompilersNoOp(config, folded, existing);
    }
  }

  /** The fixed layout of the presets document around the variables, verbosity and job count. */
  lemma PresetsOfShape(vars: CMakeCache.CacheVars, verbose: Value, jobs: Value)
    ensures var doc := PresetsOf(vars, verbose, jobs);
      && doc.version == 5
      && |doc.configurePresets| == 2 && |doc.buildPresets| == 2
      && doc.configurePresets[0].cacheVariables == vars
      && doc.configurePresets[1].inherits == Some(doc.configurePresets[0].name)
      && doc.configurePresets[1].cacheVariables == [("CMAKE_BUILD_TYPE", "Debug")]
      && forall i :: 0 <= i < 2 ==>
           && doc.buildPresets[i].configurePreset == doc.configurePresets[i].name
           && doc.buildPresets[i].verbose == verbose
           && doc.buildPresets[i].jobs == jobs
  {
  }

  /**
   * The shape of the presets document: version 5, a release and a debug configure preset, the
   * debug one inheriting the release one, and one build preset for each, both with the configured
   * verbosity and a job count of at least one.
   */
  lemma PresetsShape(config: Entries, condaPrefix: string, clearCache: bool, existing: set<string>, cpuCount: Option<nat>)
    requires PresetsFor(config, condaPrefix, clearCache, existing, cpuCount).Success?
    ensures var doc := PresetsFor(config, condaPrefix, clearCache, existing, cpuCount).value;
      && doc.version == 5
      && |doc.configurePresets| == 2 && |doc.buildPresets| == 2
      && doc.configurePresets[1].inherits == Some(doc.configurePresets[0].name)
      && doc.configurePresets[1].cacheVariables == [("CMAKE_BUILD_TYPE", "Debug")]
      && (forall i :: 0 <= i < 2 ==>
           && doc.buildPresets[i].configurePreset == doc.configurePresets[i].name
           && Some(doc.buildPresets[i].verbose) == Shared.BuildLookup(config, "verbose")
           && Shared.JobNumber(doc.buildPresets[i].jobs) >= 1
           && Success(doc.buildPresets[i].jobs) == Shared.BuildJobs(config, cpuCount))
  {
    PresetsForParts(config, condaPrefix, clearCache, existing, cpuCount);
    var folded := CMakeCache.FoldArgs(CMakeCache.BaseCacheVars(condaPrefix), CmakeArgs(config).value);
    PresetsOfShape(PresetCompilers(config, folded, clearCache, existing).value,
      Shared.BuildSetting(config, "verbose").value, Shared.BuildJobs(config, cpuCount).value);
  }

  /** One more entry of a list of extras: a string adds its argument, a table its pairs. */
  lemma ExtrasStep(xs: seq<Value>, i: nat)
    requires i < |xs|
    ensures xs[i].Str? ==> StringExtras(xs[..i + 1]) == StringExtras(xs[..i]) + [AsDefinition(xs[i].s)]
    ensures !xs[i].Str? ==> StringExtras(xs[..i + 1]) == StringExtras(xs[..i])
    ensures xs[i].Table? ==> DictPairs(xs[..i + 1]) == DictPairs(xs[..i]) + xs[i].entries
    ensures !xs[i].Table? ==> DictPairs(xs[..i + 1]) == DictPairs(xs[..i])
  {
    assert xs[..i + 1][..i] == xs[..i];
    assert xs[..i + 1][i] == xs[i];
  }

  /** Appending to `args0 + strings` extends `strings`: concatenation associates. */
  lemma ExtendsStrings(args0: seq<string>, strings: seq<string>, arg: string)
    ensures args0 + strings + [arg] == args0 + (strings + [arg])
  {
  }

  /** One more key-value pair adds its argument. */
  lemma PairArgsStep(items: seq<(string, Value)>, j: nat)
    requires j < |items|
    ensures PairArgs(items[..j + 1]) == PairArgs(items[..j]) + [PairArg(items[j].0, items[j].1)]
  {
    assert items[..j + 1][..j] == items[..j];
  }

  /**
   * The loop over a list of extras: each string entry is appended to `args` at once, and the
   * pairs of each table entry are collected for later.
   */
  method AppendListExtras(args0: seq<string>, xs: seq<Value>) returns (args: seq<string>, items: seq<(string, Value)>)
    ensures args == args0 + StringExtras(xs)
    ensures items == DictPairs(xs)
  {
    args := args0;
    items := [];
    var i := 0;
    while i < |xs|
      invariant 0 <= i <= |xs|
      invariant args == args0 + StringExtras(xs[..i])
      invariant items == DictPairs(xs[..i])
    {
      ExtrasStep(xs, i);
      var entry := xs[i];
      if entry.Str? {
        ExtendsStrings(args0, StringExtras(xs[..i]), AsDefinition(entry.s));
        args := args + [AsDefinition(entry.s)];
      } else if entry.Table? {
        items := items + entry.entries;
      }
      i := i + 1;
    }
    assert xs[..|xs|] == xs;
  }

  /**
   * The extras of `get_cmake_args`: the string entries of a list as they come, then the
   * key-value pairs of a table, or of the tables in a list.
   */
  method AppendExtras(core: seq<string>, extras: Value) returns (args: seq<string>)
    ensures args == core + ExtraDefinitionArgs(extras)
  {
    args := core;
    var items: seq<(string, Value)> := [];
    if extras.Table? {
      items := extras.entries;
    } else if extras.List? {
      args, items := AppendListExtras(args, extras.items);
    }
    args := AppendPairs(args, items);
    assert args == core + ExtraDefinitionArgs(extras) by {
      if extras.List? {
        ExtendsBy(core, StringExtras(extras.items), PairArgs(items));
      }
    }
  }

  /** Concatenation associates. */
  lemma ExtendsBy(core: seq<string>, strings: seq<string>, pairs: seq<string>)
    ensures core + strings + pairs == core + (strings + pairs)
  {
  }

  /** The loop over the collected key-value extras: one `-D<key>=<value>` argument per pair. */
  method AppendPairs(args0: seq<string>, items: seq<(string, Value)>) returns (args: seq<string>)
    ensures args == args0 + PairArgs(items)
  {
    args := args0;
    var j := 0;
    while j < |items|
      invariant 0 <= j <= |items|
      invariant args == args0 + PairArgs(items[..j])
    {
      PairArgsStep(items, j);
      ExtendsStrings(args0, PairArgs(items[..j]), PairArg(items[j].0, items[j].1));
      args := args + [PairArg(items[j].0, items[j].1)];
      j := j + 1;
    }
    assert items[..|items|] == items;
  }

  /** The fold of `write_cache`: a `-D` argument sets the name before its first `=`, or `ON`. */
  method FoldCacheArgs(vars0: CMakeCache.CacheVars, args: seq<string>) returns (vars: CMakeCache.CacheVars)
    ensures vars == CMakeCache.FoldArgs(vars0, args)
  {
    vars := vars0;
    var i := 0;
    while i < |args|
      invariant 0 <= i <= |args|
      invariant vars == CMakeCache.FoldArgs(vars0, args[..i])
    {
      CMakeCache.FoldStep(vars0, args, i);
      vars := CacheFoldStep(vars, args[i]);
      i := i + 1;
    }
    assert args[..|args|] == args;
  }

  /** One pass of the `write_cache` loop: the `-D` test, then the `=` test on the rest. */
  method CacheFoldStep(vars0: CMakeCache.CacheVars, arg: string) returns (vars: CMakeCache.CacheVars)
    ensures vars == CMakeCache.FoldArg(vars0, arg)
  {
    vars := vars0;
    if CMakeCache.StartsWith(arg, "-D") {
      var body := arg[2..];
      var eq := Text.IndexOf(body, '=');
      if eq.Some? {
        CMakeCache.FoldArgSplit(vars, arg, eq.value);
        vars := Dicts.Put(vars, body[..eq.value], body[eq.value + 1..]);
      } else {
        CMakeCache.FoldArgBare(vars, arg);
        vars := Dicts.Put(vars, body, "ON");
      }
    } else {
      CMakeCache.FoldArgOther(vars, arg);
    }
  }

  /**
   * The fold of `generate_cmake_presets`, which tests for `=` in the whole argument first; it
   * ends in the same variables as the fold of `write_cache`.
   */
  method FoldPresetArgs(vars0: CMakeCache.CacheVars, args: seq<string>) returns (vars: CMakeCache.CacheVars)
    ensures vars == CMakeCache.FoldArgs(vars0, args)
  {
    vars := vars0;
    var i := 0;
    while i < |args|
      invariant 0 <= i <= |args|
      invariant vars == CMakeCache.FoldArgs(vars0, args[..i])
    {
      CMakeCache.FoldStep(vars0, args, i);
      vars := PresetFoldStep(vars, args[i]);
      i := i + 1;
    }
    assert args[..|args|] == args;
  }

  /**
   * One pass of the `generate_cmake_presets` loop: `-D` with an `=` anywhere splits at the
   * first `=` after the prefix, `-D` alone stores `ON`, anything else is skipped.
   */
  method PresetFoldStep(vars0: CMakeCache.CacheVars, arg: string) returns (vars: CMakeCache.CacheVars)
    ensures vars == CMakeCache.FoldArg(vars0, arg)
  {
    vars := vars0;
    CMakeCache.PresetDefinitionAgrees(arg);
    if CMakeCache.StartsWith(arg, "-D") && '=' in arg {
      var body := arg[2..];
      var eq := Text.IndexOf(body, '=');
      if eq.Some? {
        CMakeCache.FoldArgSplit(vars, arg, eq.value);
        vars := Dicts.Put(vars, body[..eq.value], body[eq.value + 1..]);
      } else {
        CMakeCache.FoldArgBare(vars, arg);
        vars := Dicts.Put(vars, body, "ON");
      }
    } else if CMakeCache.StartsWith(arg, "-D") {
      CMakeCache.FoldArgBare(vars, arg);
      vars := Dicts.Put(vars, arg[2..], "ON");
    } else {
      CMakeCache.FoldArgOther(vars, arg);
    }
  }

  /** The rendering loop of `write_cache`: one `set(...)` line per variable, in order. */
  method RenderCacheLines(vars: CMakeCache.CacheVars) returns (lines: seq<string>)
    ensures lines == CMakeCache.CacheLines(vars)
  {
    lines := [];
    var k := 0;
    while k < |vars|
      invariant 0 <= k <= |vars|
      invariant lines == CMakeCache.CacheLines(vars[..k])
    {
      CMakeCache.LinesStep(vars, k);
      lines := lines + [CMakeCache.CacheLine(vars[k].0, vars[k].1)];
      k := k + 1;
    }
    assert vars[..|vars|] == vars;
  }

  // ---------------------------------------------------------------- the configuration object

  /** `SigmondConfig`: the configuration tree, updated in place by the overrides. */
  class SigmondConfig {
    var config: Entries

    /** `self.config = self._load_config(...)`: the file's tree, or the built-in defaults. */
    constructor (fileTree: Option<Entries>, cpuCount: Option<nat>)
      ensures config == LoadConfig(fileTree, cpuCount)
    {
      config := LoadConfig(fileTree, cpuCount);
    }

    /**
     * `_apply_env_overrides`: each override that asks for a change stores its value into
     * `build`. The first store into a missing or non-table `build` raises, before anything
     * has changed.
     */
    method ApplyEnvOverrides(env: map<string, string>) returns (outcome: Outcome)
      modifies this
      ensures var expected := EnvOverrides(old(config), env);
        && (outcome.Pass? <==> expected.Success?)
        && (outcome.Pass? ==> config == expected.value)
        && (outcome.Fail? ==> outcome.error == expected.error && config == old(config))
    {
      var names := ["SIGMOND_SKIP_QUERY", "SIGMOND_SKIP_BATCH", "SIGMOND_VERBOSE"];
      var keys := ["skip_query", "skip_batch", "verbose"];
      var c1 := Shared.OverrideStep(config, env, names[0], keys[0]);
      if c1.Failure? {
        return Fail(c1.error);
      }
      config := c1.value;
      var c2 := Shared.OverrideStep(config, env, names[1], keys[1]);
      if c2.Failure? {
        return Fail(c2.error);
      }
      config := c2.value;
      var c3 := Shared.OverrideStep(config, env, names[2], keys[2]);
      if c3.Failure? {
        return Fail(c3.error);
      }
      config := c3.value;
      var file := Shared.EnvGet(env, "DEFAULTENSFILE");
      if file != [] {
        var c4 := Shared.SetBuildKey(config, "default_ensembles_file", Str(file));
        if c4.Failure? {
          return Fail(c4.error);
        }
        config := c4.value;
      }
      outcome := Pass;
    }

    /** `_validate_config`: the warnings, or the aggregated `ValueError`. */
    method ValidateConfig() returns (r: Result<seq<string>>)
      ensures r == Shared.Validate(config, IncludeKey, LibraryKey)
    {
      r := Shared.ValidateEntries(config, IncludeKey, LibraryKey);
    }

    /**
     * `get_cmake_args`: the core settings, then the extras (string entries as they come,
     * key-value entries afterwards), then the libraries and the compilers.
     */
    method GetCmakeArgs() returns (r: Result<seq<string>>)
      ensures r == CmakeArgs(config)
    {
      var build :- Subscript(Table(config), "build");
      var core :- CoreArgs(build);
      var extras := GetOr(build, "extra_cmake_definitions", List([])).value;
      var args := AppendExtras(core, extras);
      var libs :- LibraryArgs(config, Subscript(build, "enable_minuit").value, Subscript(build, "enable_grace").value);
      var compilers :- CompilerArgs(config);
      r := Success(args + libs + compilers);
    }
  
    /**
     * `write_cache`: the base variables, the arguments folded in, the compiler step, then one
     * `set(...)` line per variable. The text is returned rather than written to a file.
     */
    method WriteCache(condaPrefix: string, clearCache: bool, existing: set<string>) returns (r: Result<string>)
      ensures r == CacheFile(config, condaPrefix, clearCache, existing)
    {
      var args :- GetCmakeArgs();
      var vars := FoldCacheArgs(CMakeCache.BaseCacheVars(condaPrefix), args);
      if clearCache {
        vars := Dicts.Put(vars, CCompiler, "");
        vars := Dicts.Put(vars, CxxCompiler, "");
      } else {
        var compiler :- Subscript(Table(config), "compiler");
        var c :- GetOr(compiler, "c_compiler", Str(""));
        if Truthy(c) && Exists(c, existing) {
          vars := Dicts.Put(vars, CCompiler, c.s);
        }
        var cxx := GetOr(compiler, "cxx_compiler", Str("")).value;
        if Truthy(cxx) && Exists(cxx, existing) {
          vars := Dicts.Put(vars, CxxCompiler, cxx.s);
        }
      }
      var lines := RenderCacheLines(vars);
      r := Success(Text.Join("\n", lines) + "\n");
    }

    /**
     * `generate_cmake_presets`: the same fold with the presets' own split of each argument, the
     * compiler step read by subscript, and the document around the variables. The document is
     * returned rather than written as JSON.
     */
    method GenerateCmakePresets(condaPrefix: string, clearCache: bool, existing: set<string>, cpuCount: Option<nat>)
      returns (r: Result<PresetsDocument>)
      ensures r == PresetsFor(config, condaPrefix, clearCache, existing, cpuCount)
    {
      var args :- GetCmakeArgs();
      var vars := FoldPresetArgs(CMakeCache.BaseCacheVars(condaPrefix), args);
      if clearCache {
        vars := Dicts.Put(vars, CCompiler, "");
        vars := Dicts.Put(vars, CxxCompiler, "");
      } else {
        var compiler :- Subscript(Table(config), "compiler");
        var c :- Subscript(compiler, "c_compiler");
        var useC :- UsablePath(c, existing);
        if useC {
          vars := Dicts.Put(vars, CCompiler, c.s);
        }
        var cxx :- Subscript(compiler, "cxx_compiler");
        var useCxx :- UsablePath(cxx, existing);
        if useCxx {
          vars := Dicts.Put(vars, CxxCompiler, cxx.s);
        }
      }
      var verbose := Shared.BuildSetting(config, "verbose").value;
      var jobs :- Shared.BuildJobs(config, cpuCount);
      r := Success(PresetsOf(vars, verbose, jobs));
    }
  }

  /**
   * `SigmondConfig(...)`: load, apply the overrides, validate. Either step can raise, and then
   * no object is made.
   */
  method NewSigmondConfig(fileTree: Option<Entries>, env: map<string, string>, cpuCount: Option<nat>)
    returns (r: Result<SigmondConfig>)
    ensures var expected := Resolve(fileTree, env, cpuCount);
      && (r.Success? <==> expected.Success?)
      && (r.Success? ==> fresh(r.value) && r.value.config == expected.value)
      && (r.Failure? ==> r.error == expected.error)
  {
    var sc := new SigmondConfig(fileTree, cpuCount);
    var outcome := sc.ApplyEnvOverrides(env);
    if outcome.Fail? {
      return Failure(outcome.error);
    }
    var warnings := sc.ValidateConfig();
    if warnings.Failure? {
      return Failure(warnings.error);
    }
    r := Success(sc);
  }
}
