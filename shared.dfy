/**
 * The parts of `SigmondConfig` that `configure.py` and `config_reader.py` implement with
 * the same code: the boolean environment overrides, validation, the job count, the list of
 * enabled optional libraries, the extra compiler flags and the `build` accessors.
 */
module Shared {
  import opened Wrappers
  import opened Values
  import Text
  import Dicts

  // ---------------------------------------------------------------- the tree

  /** The `build` section, when the tree has one and it is a table. */
  predicate HasBuildTable(config: Entries) {
    var b := Dicts.Lookup(config, "build");
    b.Some? && b.value.Table?
  }

  /** `config['build'][key]`, when both lookups succeed. */
  function BuildLookup(config: Entries, key: string): Option<Value> {
    if HasBuildTable(config) then Dicts.Lookup(Dicts.Lookup(config, "build").value.entries, key) else None
  }

  /** The setting under `key` in `build` is present and truthy. */
  predicate BuildTruthy(config: Entries, key: string) {
    TruthyOpt(BuildLookup(config, key))
  }

  /** The exception `config['build'][key]` raises when the lookup fails. */
  function BuildSettingError(config: Entries, key: string): PyError {
    if "build" !in Dicts.Keys(config) then KeyError("build")
    else if !HasBuildTable(config) then TypeError
    else KeyError(key)
  }

  /**
   * `self.config['build'][key]`: the accessors `should_skip_query`, `should_skip_batch`,
   * `is_verbose`, `get_precision`, `get_numbers_type`, `get_default_file_format`,
   * `get_batch_install_dir`, `get_query_install_dir` (and, in `configure.py`,
   * `is_testing_enabled` and `get_default_ensembles_file`) are this lookup for one key each.
   */
  function BuildSetting(config: Entries, key: string): (r: Result<Value>)
    ensures r.Success? <==> BuildLookup(config, key).Some?
    ensures r.Success? ==> BuildLookup(config, key) == Some(r.value)
    ensures r.Failure? ==> r.error == BuildSettingError(config, key)
  {
    var build :- Subscript(Table(config), "build");
    Subscript(build, key)
  }

  /** `self.config['build'][key] = v`, which mutates the `build` table in place. */
  function SetBuildKey(config: Entries, key: string, v: Value): (r: Result<Entries>)
    ensures r.Success? <==> HasBuildTable(config)
    ensures r.Failure? ==> r.error == if "build" in Dicts.Keys(config) then TypeError else KeyError("build")
    ensures r.Success? ==>
      && Dicts.Keys(r.value) == Dicts.Keys(config)
      && HasBuildTable(r.value)
      && BuildLookup(r.value, key) == Some(v)
      && (forall k :: k != key ==> BuildLookup(r.value, k) == BuildLookup(config, k))
      && (forall j :: j != "build" ==> Dicts.Lookup(r.value, j) == Dicts.Lookup(config, j))
  {
    var build :- Subscript(Table(config), "build");
    var updated :- SetItem(build, key, v);
    Success(Dicts.Put(config, "build", updated))
  }

  // ---------------------------------------------------------------- environment

  /** `os.environ.get(name, '')`. */
  function EnvGet(env: map<string, string>, name: string): string {
    if name in env then env[name] else ""
  }

  /** `os.environ.get(name, '').lower() in ('1', 'true', 'yes')`. */
  predicate EnvFlag(env: map<string, string>, name: string) {
    Text.Lower(EnvGet(env, name)) in ["1", "true", "yes"]
  }

  /** At least one of the boolean override variables asks for a change. */
  predicate AnyFlagOverride(env: map<string, string>) {
    EnvFlag(env, "SIGMOND_SKIP_QUERY") || EnvFlag(env, "SIGMOND_SKIP_BATCH") || EnvFlag(env, "SIGMOND_VERBOSE")
  }

  /** The setting under `key` after an add-only override driven by variable `name`. */
  function Overridden(config: Entries, env: map<string, string>, name: string, key: string): Option<Value> {
    if EnvFlag(env, name) then Some(Bool(true)) else BuildLookup(config, key)
  }

  /** One add-only override: when variable `name` is set, `build[key]` becomes `True`. */
  function OverrideStep(config: Entries, env: map<string, string>, name: string, key: string): (r: Result<Entries>)
    ensures r.Success? <==> HasBuildTable(config) || !EnvFlag(env, name)
    ensures r.Failure? ==> r.error == if "build" in Dicts.Keys(config) then TypeError else KeyError("build")
    ensures !EnvFlag(env, name) ==> r == Success(config)
    ensures r.Success? ==>
      && Dicts.Keys(r.value) == Dicts.Keys(config)
      && HasBuildTable(r.value) == HasBuildTable(config)
      && BuildLookup(r.value, key) == Overridden(config, env, name, key)
      && (forall k :: k != key ==> BuildLookup(r.value, k) == BuildLookup(config, k))
      && (forall j :: j != "build" ==> Dicts.Lookup(r.value, j) == Dicts.Lookup(config, j))
  {
    if EnvFlag(env, name) then SetBuildKey(config, key, Bool(true)) else Success(config)
  }

  /**
   * The three boolean overrides both versions apply, in source order. Each one only ever
   * stores `True`; a variable that is absent or holds any other text changes nothing.
   */
  function FlagOverrides(config: Entries, env: map<string, string>): (r: Result<Entries>)
    ensures r.Success? <==> HasBuildTable(config) || !AnyFlagOverride(env)
    ensures r.Failure? ==> r.error == if "build" in Dicts.Keys(config) then TypeError else KeyError("build")
    ensures !AnyFlagOverride(env) ==> r == Success(config)
  {
    var c1 :- OverrideStep(config, env, "SIGMOND_SKIP_QUERY", "skip_query");
    var c2 :- OverrideStep(c1, env, "SIGMOND_SKIP_BATCH", "skip_batch");
    OverrideStep(c2, env, "SIGMOND_VERBOSE", "verbose")
  }

  /**
   * What the overrides change: each of the three flags becomes `True` when its variable is
   * set and keeps its value otherwise; no other setting and no other section changes.
   */
  lemma FlagOverridesEffect(config: Entries, env: map<string, string>)
    requires FlagOverrides(config, env).Success?
    ensures var r := FlagOverrides(config, env).value;
      && Dicts.Keys(r) == Dicts.Keys(config)
      && HasBuildTable(r) == HasBuildTable(config)
      && BuildLookup(r, "skip_query") == Overridden(config, env, "SIGMOND_SKIP_QUERY", "skip_query")
      && BuildLookup(r, "skip_batch") == Overridden(config, env, "SIGMOND_SKIP_BATCH", "skip_batch")
      && BuildLookup(r, "verbose") == Overridden(config, env, "SIGMOND_VERBOSE", "verbose")
      && (forall k :: k !in ["skip_query", "skip_batch", "verbose"] ==> BuildLookup(r, k) == BuildLookup(config, k))
      && (forall j :: j != "build" ==> Dicts.Lookup(r, j) == Dicts.Lookup(config, j))
  {
    var c1 := OverrideStep(config, env, "SIGMOND_SKIP_QUERY", "skip_query").value;
    var c2 := OverrideStep(c1, env, "SIGMOND_SKIP_BATCH", "skip_batch").value;
    var r := OverrideStep(c2, env, "SIGMOND_VERBOSE", "verbose").value;
    assert r == FlagOverrides(config, env).value;
    assert "skip_query" != "skip_batch" && "skip_query" != "verbose" && "skip_batch" != "verbose";
    OverrideChain(config, c1, c2, r, env, "SIGMOND_SKIP_QUERY", "skip_query", "SIGMOND_SKIP_BATCH", "skip_batch",
      "SIGMOND_VERBOSE", "verbose");
    forall k | k !in ["skip_query", "skip_batch", "verbose"]
      ensures BuildLookup(r, k) == BuildLookup(config, k)
    {
      assert k != "skip_query" && k != "skip_batch" && k != "verbose";
    }
  }

  /** A setting other than the three flags keeps its value. */
  lemma FlagOverridesKeep(config: Entries, env: map<string, string>, k: string)
    requires FlagOverrides(config, env).Success?
    requires k != "skip_query" && k != "skip_batch" && k != "verbose"
    ensures BuildLookup(FlagOverrides(config, env).value, k) == BuildLookup(config, k)
  {
    FlagOverridesEffect(config, env);
    assert k !in ["skip_query", "skip_batch", "verbose"];
  }

  /** Three successful override steps on different keys: each key is left as its own step set it. */
  lemma OverrideChain(config: Entries, c1: Entries, c2: Entries, r: Entries, env: map<string, string>,
                      n1: string, k1: string, n2: string, k2: string, n3: string, k3: string)
    requires k1 != k2 && k1 != k3 && k2 != k3
    requires OverrideStep(config, env, n1, k1) == Success(c1)
    requires OverrideStep(c1, env, n2, k2) == Success(c2)
    requires OverrideStep(c2, env, n3, k3) == Success(r)
    ensures Dicts.Keys(r) == Dicts.Keys(config) && HasBuildTable(r) == HasBuildTable(config)
    ensures BuildLookup(r, k1) == Overridden(config, env, n1, k1)
    ensures BuildLookup(r, k2) == Overridden(config, env, n2, k2)
    ensures BuildLookup(r, k3) == Overridden(config, env, n3, k3)
    ensures forall k :: k != k1 && k != k2 && k != k3 ==> BuildLookup(r, k) == BuildLookup(config, k)
    ensures forall j :: j != "build" ==> Dicts.Lookup(r, j) == Dicts.Lookup(config, j)
  {
    assert BuildLookup(r, k1) == BuildLookup(c2, k1) == BuildLookup(c1, k1);
    assert BuildLookup(r, k2) == BuildLookup(c2, k2);
    assert BuildLookup(c1, k2) == BuildLookup(config, k2);
    assert BuildLookup(c2, k3) == BuildLookup(c1, k3) == BuildLookup(config, k3);
  }

  /** Overrides are monotone: a truthy flag stays truthy, and a set variable makes its flag true. */
  lemma FlagOverridesMonotone(config: Entries, env: map<string, string>)
    requires FlagOverrides(config, env).Success?
    ensures var after := FlagOverrides(config, env).value;
      && BuildTruthy(after, "skip_query") == (BuildTruthy(config, "skip_query") || EnvFlag(env, "SIGMOND_SKIP_QUERY"))
      && BuildTruthy(after, "skip_batch") == (BuildTruthy(config, "skip_batch") || EnvFlag(env, "SIGMOND_SKIP_BATCH"))
      && BuildTruthy(after, "verbose") == (BuildTruthy(config, "verbose") || EnvFlag(env, "SIGMOND_VERBOSE"))
  {
    FlagOverridesEffect(config, env);
  }

  // ---------------------------------------------------------------- validation

  predicate BadPrecision(v: Value) { v != Str("double") && v != Str("single") }
  predicate BadNumbers(v: Value) { v != Str("complex") && v != Str("real") }
  predicate BadFormat(v: Value) { v != Str("hdf5") && v != Str("fstream") }

  /** `not isinstance(v, int) or v < 0`; a Python `bool` is an `int`. */
  predicate BadJobs(v: Value) {
    match v
    case Int(i) => i < 0
    case Bool(_) => false
    case _ => true
  }

  function PrecisionError(v: Value): string {
    "Invalid precision '" + PyStr(v) + "'. Must be 'double' or 'single'."
  }
  function NumbersError(v: Value): string {
    "Invalid numbers type '" + PyStr(v) + "'. Must be 'complex' or 'real'."
  }
  function FormatError(v: Value): string {
    "Invalid file format '" + PyStr(v) + "'. Must be 'hdf5' or 'fstream'."
  }
  function JobsError(v: Value): string {
    "Invalid build_jobs '" + PyStr(v) + "'. Must be a non-negative integer."
  }

  /** The error list, one entry per failing check, in the order the checks run. */
  function Errors(precision: Value, numbers: Value, format: Value, jobs: Value): (r: seq<string>)
    ensures |r| == (if BadPrecision(precision) then 1 else 0) + (if BadNumbers(numbers) then 1 else 0)
                   + (if BadFormat(format) then 1 else 0) + (if BadJobs(jobs) then 1 else 0)
    ensures BadPrecision(precision) ==> PrecisionError(precision) in r
    ensures BadNumbers(numbers) ==> NumbersError(numbers) in r
    ensures BadFormat(format) ==> FormatError(format) in r
    ensures BadJobs(jobs) ==> JobsError(jobs) in r
  {
    var afterPrecision := Check([], BadPrecision(precision), PrecisionError(precision));
    var afterNumbers := Check(afterPrecision, BadNumbers(numbers), NumbersError(numbers));
    var afterFormat := Check(afterNumbers, BadFormat(format), FormatError(format));
    Check(afterFormat, BadJobs(jobs), JobsError(jobs))
  }

  /** One check: a failing check appends its message to the errors so far. */
  function Check(errors: seq<string>, bad: bool, message: string): (r: seq<string>)
    ensures |r| == |errors| + if bad then 1 else 0
    ensures bad ==> message in r
    ensures forall e :: e in errors ==> e in r
  {
    if bad then errors + [message] else errors
  }

  function Bullets(errors: seq<string>): (r: seq<string>)
    ensures |r| == |errors|
    ensures forall i :: 0 <= i < |errors| ==> r[i] == "  - " + errors[i]
  {
    seq(|errors|, i requires 0 <= i < |errors| => "  - " + errors[i])
  }

  /** The text of the `ValueError` raised when at least one check fails. */
  function FailureMessage(errors: seq<string>): string {
    "Configuration validation failed:\n" + Text.Join("\n", Bullets(errors))
  }

  const MinuitWarning := "Minuit2 is enabled but no library paths specified. Auto-detection will be attempted."
  const GraceWarning := "Grace is enabled but no library paths specified. Auto-detection will be attempted."
  const BothSkippedWarning := "Both executables are disabled - only Python bindings will be built."

  /** `self.config.get('build', {})`. */
  function BuildOrEmpty(config: Entries): Value {
    match Dicts.Lookup(config, "build")
    case Some(b) => b
    case None => Table([])
  }

  /** `self.config.get('libraries', {})`. */
  function LibrariesOrEmpty(config: Entries): Value {
    match Dicts.Lookup(config, "libraries")
    case Some(l) => l
    case None => Table([])
  }

  /**
   * The advisory for an enabled optional library: `message` when neither path key of
   * `libraries[lib]` holds a truthy value. `incKey`/`libKey` are the two path keys.
   */
  function MissingPathsWarning(config: Entries, lib: string, incKey: string, libKey: string, message: string): (r: Result<seq<string>>)
    ensures r.Failure? ==> r.error == AttributeError
    ensures r.Success? ==> r.value == [] || r.value == [message]
  {
    var libConfig :- GetOr(LibrariesOrEmpty(config), lib, Table([]));
    var inc :- Get(libConfig, incKey);
    if TruthyOpt(inc) then Success([])
    else
      var dirs := Get(libConfig, libKey).value;
      if TruthyOpt(dirs) then Success([]) else Success([message])
  }

  /** The setting `build.get(key, default)` that validation reads, when `build` is a table. */
  function Checked(config: Entries, key: string, default: Value): Value {
    var b := BuildOrEmpty(config);
    if b.Table? && key in Dicts.Keys(b.entries) then Dicts.Lookup(b.entries, key).value else default
  }

  /** The four checks that validation turns into errors, on the settings as validation reads them. */
  function ConfigErrors(config: Entries): seq<string> {
    Errors(Checked(config, "precision", Str("double")), Checked(config, "numbers", Str("complex")),
           Checked(config, "default_file_format", Str("hdf5")), Checked(config, "build_jobs", Int(0)))
  }

  /** The advisories of `_validate_config`, which are printed and never make it fail. */
  function Warnings(config: Entries, incKey: string, libKey: string): (r: Result<seq<string>>)
    ensures r.Failure? ==> r.error == AttributeError
    ensures r.Success? ==> BuildOrEmpty(config).Table?
    ensures r.Success? ==> |r.value| <= 3 && forall w :: w in r.value ==> w in [MinuitWarning, GraceWarning, BothSkippedWarning]
  {
    var build := BuildOrEmpty(config);
    var minuit :- GetOr(build, "enable_minuit", Bool(false));
    var w1 :- if Truthy(minuit) then MissingPathsWarning(config, "minuit2", incKey, libKey, MinuitWarning) else Success([]);
    var grace := GetOr(build, "enable_grace", Bool(false)).value;
    var w2 :- if Truthy(grace) then MissingPathsWarning(config, "grace", incKey, libKey, GraceWarning) else Success([]);
    var w3 := SkipWarnings(build).value;
    Success(w1 + w2 + w3)
  }

  /** Neither library enabled and no advisory about skipped executables: no advisory at all. */
  lemma WarningsQuiet(config: Entries, incKey: string, libKey: string, minuit: Value, grace: Value)
    requires GetOr(BuildOrEmpty(config), "enable_minuit", Bool(false)) == Success(minuit) && !Truthy(minuit)
    requires GetOr(BuildOrEmpty(config), "enable_grace", Bool(false)) == Success(grace) && !Truthy(grace)
    requires SkipWarnings(BuildOrEmpty(config)) == Success([])
    ensures Warnings(config, incKey, libKey) == Success([])
  {
    var none: seq<string> := [];
    assert none + none + none == none;
  }

  /** The advisory for a tree that skips both executables; `skip_batch` is read only when `skip_query` is set. */
  function SkipWarnings(build: Value): (r: Result<seq<string>>)
    ensures r.Success? <==> build.Table?
    ensures r.Failure? ==> r.error == AttributeError
    ensures r.Success? ==> r.value == [] || r.value == [BothSkippedWarning]
  {
    var skipQuery :- GetOr(build, "skip_query", Bool(false));
    if !Truthy(skipQuery) then Success([])
    else
      var skipBatch := GetOr(build, "skip_batch", Bool(false)).value;
      Success(if Truthy(skipBatch) then [BothSkippedWarning] else [])
  }

  /**
   * `_validate_config`: the warnings on success; a `ValueError` naming every failing check
   * otherwise. `incKey`/`libKey` are the library path keys the version consults.
   */
  function Validate(config: Entries, incKey: string, libKey: string): (r: Result<seq<string>>)
    ensures r.Success? <==> ConfigErrors(config) == [] && Warnings(config, incKey, libKey).Success?
    ensures r.Success? ==> r == Warnings(config, incKey, libKey)
    ensures r.Failure? ==>
      r.error == AttributeError || (ConfigErrors(config) != [] && r.error == ValueError(FailureMessage(ConfigErrors(config))))
    ensures Warnings(config, incKey, libKey).Failure? ==> r == Failure(AttributeError)
    ensures Warnings(config, incKey, libKey).Success? && ConfigErrors(config) != [] ==>
      r == Failure(ValueError(FailureMessage(ConfigErrors(config))))
  {
    var build := BuildOrEmpty(config);
    assert build.Table? ==>
      (GetOr(build, "precision", Str("double")) == Success(Checked(config, "precision", Str("double"))) &&
       GetOr(build, "numbers", Str("complex")) == Success(Checked(config, "numbers", Str("complex"))) &&
       GetOr(build, "default_file_format", Str("hdf5")) == Success(Checked(config, "default_file_format", Str("hdf5"))) &&
       GetOr(build, "build_jobs", Int(0)) == Success(Checked(config, "build_jobs", Int(0)))) by {
      if build.Table? {
        GetOrChecked(config, "precision", Str("double"));
        GetOrChecked(config, "numbers", Str("complex"));
        GetOrChecked(config, "default_file_format", Str("hdf5"));
        GetOrChecked(config, "build_jobs", Int(0));
      }
    }
    var precision :- GetOr(build, "precision", Str("double"));
    var numbers := GetOr(build, "numbers", Str("complex")).value;
    var format := GetOr(build, "default_file_format", Str("hdf5")).value;
    var jobs := GetOr(build, "build_jobs", Int(0)).value;
    var errors := Errors(precision, numbers, format, jobs);
    var warnings :- Warnings(config, incKey, libKey);
    if errors != [] then Failure(ValueError(FailureMessage(errors))) else Success(warnings)
  }

  /**
   * A `build` table whose four checked settings are present and accepted, and whose switches
   * are off, passes validation without an advisory.
   */
  lemma QuietValidation(config: Entries, incKey: string, libKey: string, build: Entries, jobs: nat)
    requires Dicts.Lookup(config, "build") == Some(Table(build))
    requires Dicts.Lookup(build, "precision") == Some(Str("double"))
    requires Dicts.Lookup(build, "numbers") == Some(Str("complex"))
    requires Dicts.Lookup(build, "default_file_format") == Some(Str("hdf5"))
    requires Dicts.Lookup(build, "build_jobs") == Some(Int(jobs))
    requires Dicts.Lookup(build, "skip_query") == Some(Bool(false))
    requires Dicts.Lookup(build, "enable_minuit") == Some(Bool(false))
    requires Dicts.Lookup(build, "enable_grace") == Some(Bool(false))
    ensures Validate(config, incKey, libKey) == Success([])
  {
    assert BuildOrEmpty(config) == Table(build);
    QuietChecks(build, jobs);
    QuietWarnings(config, incKey, libKey, build);
  }

  /** The four checked settings of such a table read back as accepted values. */
  lemma QuietChecks(build: Entries, jobs: nat)
    requires Dicts.Lookup(build, "precision") == Some(Str("double"))
    requires Dicts.Lookup(build, "numbers") == Some(Str("complex"))
    requires Dicts.Lookup(build, "default_file_format") == Some(Str("hdf5"))
    requires Dicts.Lookup(build, "build_jobs") == Some(Int(jobs))
    ensures GetOr(Table(build), "precision", Str("double")) == Success(Str("double"))
    ensures GetOr(Table(build), "numbers", Str("complex")) == Success(Str("complex"))
    ensures GetOr(Table(build), "default_file_format", Str("hdf5")) == Success(Str("hdf5"))
    ensures GetOr(Table(build), "build_jobs", Int(0)) == Success(Int(jobs))
    ensures Errors(Str("double"), Str("complex"), Str("hdf5"), Int(jobs)) == []
  {
  }

  /** With both libraries and `skip_query` off, validation has no advisory. */
  lemma QuietWarnings(config: Entries, incKey: string, libKey: string, build: Entries)
    requires Dicts.Lookup(config, "build") == Some(Table(build))
    requires Dicts.Lookup(build, "skip_query") == Some(Bool(false))
    requires Dicts.Lookup(build, "enable_minuit") == Some(Bool(false))
    requires Dicts.Lookup(build, "enable_grace") == Some(Bool(false))
    ensures Warnings(config, incKey, libKey) == Success([])
  {
    assert BuildOrEmpty(config) == Table(build);
    assert GetOr(Table(build), "enable_minuit", Bool(false)) == Success(Bool(false));
    assert GetOr(Table(build), "enable_grace", Bool(false)) == Success(Bool(false));
    assert SkipWarnings(Table(build)) == Success([]) by {
      assert GetOr(Table(build), "skip_query", Bool(false)) == Success(Bool(false));
    }
    WarningsQuiet(config, incKey, libKey, Bool(false), Bool(false));
  }

  /**
   * The advisory half of `_validate_config`, one check at a time. Once the first read of
   * `build` succeeds the later ones cannot fail, so only the first one and the library
   * lookups can raise.
   */
  method CollectWarnings(config: Entries, incKey: string, libKey: string) returns (r: Result<seq<string>>)
    ensures r == Warnings(config, incKey, libKey)
  {
    var warnings: seq<string> := [];
    var build := BuildOrEmpty(config);
    var minuit :- GetOr(build, "enable_minuit", Bool(false));
    if Truthy(minuit) {
      var w :- MissingPathsWarning(config, "minuit2", incKey, libKey, MinuitWarning);
      warnings := warnings + w;
      assert warnings == w;
    }
    var grace := GetOr(build, "enable_grace", Bool(false)).value;
    if Truthy(grace) {
      var w :- MissingPathsWarning(config, "grace", incKey, libKey, GraceWarning);
      warnings := warnings + w;
    } else {
      assert warnings == warnings + [];
    }
    var skipQuery := GetOr(build, "skip_query", Bool(false)).value;
    if Truthy(skipQuery) {
      var skipBatch := GetOr(build, "skip_batch", Bool(false)).value;
      if Truthy(skipBatch) {
        warnings := warnings + [BothSkippedWarning];
      } else {
        assert warnings == warnings + [];
      }
    } else {
      assert warnings == warnings + [];
    }
    return Success(warnings);
  }

  /**
   * `_validate_config` as the source runs it: errors and advisories are collected one check
   * at a time, and the error list is raised only once every check has run.
   */
  method ValidateEntries(config: Entries, incKey: string, libKey: string) returns (r: Result<seq<string>>)
    ensures r == Validate(config, incKey, libKey)
  {
    var build := BuildOrEmpty(config);
    // `build.get` raises only when `build` is not a table, and then already on the first read.
    var precision :- GetOr(build, "precision", Str("double"));
    var numbers := GetOr(build, "numbers", Str("complex")).value;
    var format := GetOr(build, "default_file_format", Str("hdf5")).value;
    var jobs := GetOr(build, "build_jobs", Int(0)).value;
    var errors := CollectErrors(precision, numbers, format, jobs);
    var warnings :- CollectWarnings(config, incKey, libKey);
    if errors != [] {
      return Failure(ValueError(FailureMessage(errors)));
    }
    return Success(warnings);
  }

  /** The checks on the four values, each adding its message to the error list when it fails. */
  method CollectErrors(precision: Value, numbers: Value, format: Value, jobs: Value) returns (errors: seq<string>)
    ensures errors == Errors(precision, numbers, format, jobs)
  {
    errors := [];
    errors := Report(errors, BadPrecision(precision), PrecisionError(precision));
    errors := Report(errors, BadNumbers(numbers), NumbersError(numbers));
    errors := Report(errors, BadFormat(format), FormatError(format));
    errors := Report(errors, BadJobs(jobs), JobsError(jobs));
  }

  /** `if bad: errors.append(message)`. */
  method Report(errors: seq<string>, bad: bool, message: string) returns (r: seq<string>)
    ensures r == Check(errors, bad, message)
  {
    r := errors;
    if bad {
      r := r + [message];
    }
  }

  /** On a table, `build.get(key, default)` reads what `Checked` describes. */
  lemma GetOrChecked(config: Entries, key: string, default: Value)
    requires BuildOrEmpty(config).Table?
    ensures GetOr(BuildOrEmpty(config), key, default) == Success(Checked(config, key, default))
  {
  }

  /** An advisory lookup on a well-formed library entry cannot raise. */
  lemma MissingPathsWarningSucceeds(config: Entries, lib: string, incKey: string, libKey: string, message: string)
    requires LibrariesOrEmpty(config).Table?
    requires lib in Dicts.Keys(LibrariesOrEmpty(config).entries) ==> Dicts.Lookup(LibrariesOrEmpty(config).entries, lib).value.Table?
    ensures MissingPathsWarning(config, lib, incKey, libKey, message).Success?
  {
  }

  /** The `build` section is absent or a table, and so are the library entries the advisories read. */
  predicate WellShaped(config: Entries) {
    && BuildOrEmpty(config).Table?
    && LibrariesOrEmpty(config).Table?
    && (forall lib :: lib in ["minuit2", "grace"] && lib in Dicts.Keys(LibrariesOrEmpty(config).entries) ==>
          Dicts.Lookup(LibrariesOrEmpty(config).entries, lib).value.Table?)
  }

  /**
   * On a well-shaped tree validation fails exactly when one of the four checks fails, and
   * then with a `ValueError`: the advisories never decide the outcome.
   */
  lemma ValidateFailsIffSomeCheckFails(config: Entries, incKey: string, libKey: string)
    requires WellShaped(config)
    ensures var r := Validate(config, incKey, libKey);
      && (r.Success? <==> ConfigErrors(config) == [])
      && (r.Failure? ==> r.error == ValueError(FailureMessage(ConfigErrors(config))))
  {
    MissingPathsWarningSucceeds(config, "minuit2", incKey, libKey, MinuitWarning);
    MissingPathsWarningSucceeds(config, "grace", incKey, libKey, GraceWarning);
    assert Warnings(config, incKey, libKey).Success?;
    GetOrChecked(config, "precision", Str("double"));
    GetOrChecked(config, "numbers", Str("complex"));
    GetOrChecked(config, "default_file_format", Str("hdf5"));
    GetOrChecked(config, "build_jobs", Int(0));
  }

  /** Every error handed to the failure message appears in it as its own bullet line. */
  lemma {:induction false} FailureMessageListsEveryError(errors: seq<string>, k: nat)
    requires k < |errors|
    ensures Text.IsSubstring("  - " + errors[k], FailureMessage(errors))
  {
    Text.JoinContainsPart("\n", Bullets(errors), k);
    Text.SuffixIsSubstring("Configuration validation failed:\n", Text.Join("\n", Bullets(errors)));
    Text.SubstringTransitive("  - " + errors[k], Text.Join("\n", Bullets(errors)), FailureMessage(errors));
  }

  /** Each failing check contributes its own line to the failure message, not only the first one. */
  lemma EveryFailingCheckIsReported(config: Entries, incKey: string, libKey: string)
    requires WellShaped(config)
    ensures var p := Checked(config, "precision", Str("double"));
      var n := Checked(config, "numbers", Str("complex"));
      var f := Checked(config, "default_file_format", Str("hdf5"));
      var j := Checked(config, "build_jobs", Int(0));
      var r := Validate(config, incKey, libKey);
      && (BadPrecision(p) ==> r.Failure? && r.error.ValueError? && Text.IsSubstring("  - " + PrecisionError(p), r.error.message))
      && (BadNumbers(n) ==> r.Failure? && r.error.ValueError? && Text.IsSubstring("  - " + NumbersError(n), r.error.message))
      && (BadFormat(f) ==> r.Failure? && r.error.ValueError? && Text.IsSubstring("  - " + FormatError(f), r.error.message))
      && (BadJobs(j) ==> r.Failure? && r.error.ValueError? && Text.IsSubstring("  - " + JobsError(j), r.error.message))
  {
    var errors := ConfigErrors(config);
    var p := Checked(config, "precision", Str("double"));
    var n := Checked(config, "numbers", Str("complex"));
    var f := Checked(config, "default_file_format", Str("hdf5"));
    var j := Checked(config, "build_jobs", Int(0));
    assert errors == Errors(p, n, f, j);
    if BadPrecision(p) { ConfigErrorIsReported(config, incKey, libKey, PrecisionError(p)); }
    if BadNumbers(n) { ConfigErrorIsReported(config, incKey, libKey, NumbersError(n)); }
    if BadFormat(f) { ConfigErrorIsReported(config, incKey, libKey, FormatError(f)); }
    if BadJobs(j) { ConfigErrorIsReported(config, incKey, libKey, JobsError(j)); }
  }

  lemma ConfigErrorIsReported(config: Entries, incKey: string, libKey: string, e: string)
    requires WellShaped(config) && e in ConfigErrors(config)
    ensures var r := Validate(config, incKey, libKey);
      r.Failure? && r.error.ValueError? && Text.IsSubstring("  - " + e, r.error.message)
  {
    ValidateFailsIffSomeCheckFails(config, incKey, libKey);
    ListedErrorIsReported(ConfigErrors(config), e);
  }

  lemma ListedErrorIsReported(errors: seq<string>, e: string)
    requires e in errors
    ensures Text.IsSubstring("  - " + e, FailureMessage(errors))
  {
    var k :| 0 <= k < |errors| && errors[k] == e;
    FailureMessageListsEveryError(errors, k);
  }

  // ---------------------------------------------------------------- -D arguments

  /** `f'-D{name}={v}'`. */
  function Define(name: string, v: Value): string {
    "-D" + name + "=" + PyStr(v)
  }

  /** `arg` assigns the CMake variable `name`. */
  predicate Names(arg: string, name: string) {
    "-D" + name + "=" <= arg
  }

  /** Every argument is a `-D` definition. */
  predicate AllDefinitions(args: seq<string>) {
    forall i :: 0 <= i < |args| ==> "-D" <= args[i]
  }

  lemma DefineNames(name: string, v: Value)
    ensures Names(Define(name, v), name)
  {
    assert Define(name, v) == ("-D" + name + "=") + PyStr(v);
  }

  /** Two names that differ at some position are never assigned by the same argument. */
  lemma NamesDiffer(arg: string, n1: string, n2: string, k: nat)
    requires k < |n1| && k < |n2| && n1[k] != n2[k]
    ensures Names(arg, n1) ==> !Names(arg, n2)
  {
    if Names(arg, n1) {
      assert arg[2 + k] == ("-D" + n1 + "=")[2 + k] == n1[k];
      assert ("-D" + n2 + "=")[2 + k] == n2[k];
    }
  }

  /** A definition of one name never assigns another, as long as neither contains `=`. */
  lemma NamesExact(n1: string, n2: string, rest: string)
    requires '=' !in n1 && '=' !in n2 && n1 != n2
    ensures !Names("-D" + n2 + "=" + rest, n1)
  {
    var arg := "-D" + n2 + "=" + rest;
    var p := "-D" + n1 + "=";
    if |n1| < |n2| {
      assert arg[2 + |n1|] == n2[|n1|];
      assert p[2 + |n1|] == '=';
    } else if |n1| > |n2| {
      assert arg[2 + |n2|] == '=';
      assert p[2 + |n2|] == n1[|n2|];
    } else {
      var i :| 0 <= i < |n1| && n1[i] != n2[i];
      assert arg[2 + i] == n2[i];
      assert p[2 + i] == n1[i];
    }
  }

  /** No element of `args` assigns `name`. */
  predicate NoneNamed(args: seq<string>, name: string) {
    forall i :: 0 <= i < |args| ==> !Names(args[i], name)
  }

  lemma {:induction false} NoneNamedAppend(a: seq<string>, b: seq<string>, name: string)
    requires NoneNamed(a, name) && NoneNamed(b, name)
    ensures NoneNamed(a + b, name)
  {
    forall i | 0 <= i < |a + b| ensures !Names((a + b)[i], name) {
      if i >= |a| {
        assert (a + b)[i] == b[i - |a|];
      }
    }
  }

  /** Concatenating definitions gives definitions. */
  lemma AllDefinitionsAppend(a: seq<string>, b: seq<string>)
    requires AllDefinitions(a) && AllDefinitions(b)
    ensures AllDefinitions(a + b)
  {
    forall i | 0 <= i < |a + b| ensures "-D" <= (a + b)[i] {
      if i >= |a| {
        assert (a + b)[i] == b[i - |a|];
      }
    }
  }

  // ---------------------------------------------------------------- accessors

  /** `os.cpu_count() or 1`. */
  function CpuCountOr1(cpuCount: Option<nat>): (r: nat)
    ensures r >= 1
    ensures cpuCount.Some? && cpuCount.value > 0 ==> r == cpuCount.value
  {
    match cpuCount
    case Some(n) => if n > 0 then n else 1
    case None => 1
  }

  /** The number a job-count value stands for in Python arithmetic (`True` is 1). */
  function JobNumber(v: Value): int {
    match v
    case Int(i) => i
    case Bool(b) => if b then 1 else 0
    case _ => 0
  }

  /**
   * `get_build_jobs`: the configured count when it is positive, otherwise the CPU count
   * (or 1). A configured `true` passes validation and is returned unchanged.
   */
  function BuildJobs(config: Entries, cpuCount: Option<nat>): (r: Result<Value>)
    ensures r.Success? ==> JobNumber(r.value) >= 1 && (r.value.Int? || r.value == Bool(true))
    ensures r.Success? ==> BuildLookup(config, "build_jobs").Some?
    ensures var j := BuildLookup(config, "build_jobs");
      j.Some? && j.value.Int? ==>
        r == Success(if j.value.i > 0 then j.value else Int(CpuCountOr1(cpuCount)))
  {
    var jobs :- BuildSetting(config, "build_jobs");
    match jobs
    case Int(i) => Success(if i <= 0 then Int(CpuCountOr1(cpuCount)) else jobs)
    case Bool(b) => Success(if b then jobs else Int(CpuCountOr1(cpuCount)))
    case _ => Failure(TypeError)
  }

  /** `_get_enabled_optional_libraries`: a subsequence of `["minuit2", "grace"]` chosen by the enable flags. */
  function EnabledOptionalLibraries(config: Entries): (r: Result<seq<string>>)
    ensures r.Success? <==> BuildLookup(config, "enable_minuit").Some? && BuildLookup(config, "enable_grace").Some?
    ensures r.Success? ==> r.value in [[], ["minuit2"], ["grace"], ["minuit2", "grace"]]
    ensures r.Success? ==> ("minuit2" in r.value <==> BuildTruthy(config, "enable_minuit"))
    ensures r.Success? ==> ("grace" in r.value <==> BuildTruthy(config, "enable_grace"))
  {
    var minuit :- BuildSetting(config, "enable_minuit");
    var grace :- BuildSetting(config, "enable_grace");
    var libs := (if Truthy(minuit) then ["minuit2"] else []) + (if Truthy(grace) then ["grace"] else []);
    assert "minuit2" != "grace";
    assert libs == if Truthy(minuit) && Truthy(grace) then ["minuit2", "grace"]
      else if Truthy(minuit) then ["minuit2"] else if Truthy(grace) then ["grace"] else [];
    Success(libs)
  }

  /**
   * `build[key].lower()`: a missing setting raises as the subscript does, and only a string
   * has `lower`.
   */
  function LoweredSetting(build: Value, key: string): (r: Result<string>)
    ensures r.Success? <==> Subscript(build, key).Success? && Subscript(build, key).value.Str?
    ensures r.Success? ==> r.value == Text.Lower(Subscript(build, key).value.s)
  {
    var v :- Subscript(build, key);
    LowerValue(v)
  }

  /** `self.config['compiler']['cxx_flags']`. */
  function CxxFlagsSetting(config: Entries): (r: Result<Value>)
    ensures r.Success? <==> "compiler" in Dicts.Keys(config) && CompilerTableHolds(config, "cxx_flags")
    ensures "compiler" !in Dicts.Keys(config) ==> r == Failure(KeyError("compiler"))
    ensures r.Success? ==> Dicts.Lookup(Dicts.Lookup(config, "compiler").value.entries, "cxx_flags") == Some(r.value)
  {
    var compiler :- Subscript(Table(config), "compiler");
    Subscript(compiler, "cxx_flags")
  }

  /** The `compiler` entry is a table holding `key`. */
  predicate CompilerTableHolds(config: Entries, key: string)
    requires "compiler" in Dicts.Keys(config)
  {
    var c := Dicts.Lookup(config, "compiler").value;
    c.Table? && key in Dicts.Keys(c.entries)
  }

  /**
   * `get_extra_cxx_flags`: the configured `compiler.cxx_flags`, in order, or nothing when it
   * is falsy; a missing section or key raises, and so does a truthy value that cannot be iterated.
   */
  function ExtraCxxFlags(config: Entries): (r: Result<seq<Value>>)
    ensures CxxFlagsSetting(config).Failure? ==> r == Failure(CxxFlagsSetting(config).error)
    ensures var flags := CxxFlagsSetting(config);
      flags.Success? && flags.value.List? ==> r == Success(flags.value.items)
    ensures var flags := CxxFlagsSetting(config);
      flags.Success? && !Truthy(flags.value) ==> r == Success([])
    ensures var flags := CxxFlagsSetting(config);
      flags.Success? ==> (r.Failure? <==> Truthy(flags.value) && (flags.value.Bool? || flags.value.Int? || flags.value.Other?))
    ensures var flags := CxxFlagsSetting(config);
      flags.Success? && flags.value.Str? && Truthy(flags.value) ==>
        r.Success? && |r.value| == |flags.value.s| &&
        forall i :: 0 <= i < |r.value| ==> r.value[i] == Str([flags.value.s[i]])
    ensures var flags := CxxFlagsSetting(config);
      flags.Success? && flags.value.Table? && Truthy(flags.value) ==>
        r.Success? && |r.value| == |flags.value.entries| &&
        forall i :: 0 <= i < |r.value| ==> r.value[i] == Str(flags.value.entries[i].0)
  {
    var flags :- CxxFlagsSetting(config);
    if Truthy(flags) then Iterate(flags) else Success([])
  }

  /**
   * A string `cxx_flags` is split into its characters, so `"".join(get_extra_cxx_flags())`
   * gives back the configured string.
   */
  lemma CxxFlagsOfStringRejoin(config: Entries, flags: string)
    requires CxxFlagsSetting(config) == Success(Str(flags)) && flags != []
    ensures ExtraCxxFlags(config).Success?
    ensures var chars := AsStrings(ExtraCxxFlags(config).value);
      chars.Some? && Text.Join("", chars.value) == flags
  {
    var chars := AsStrings(ExtraCxxFlags(config).value);
    assert chars.Some?;
    assert chars.value == seq(|flags|, i requires 0 <= i < |flags| => [flags[i]]);
    JoinCharacters(flags);
  }

  /** Joining the one-character strings of `s` with no separator gives back `s`. */
  lemma {:induction false} JoinCharacters(s: string)
    ensures Text.Join("", seq(|s|, i requires 0 <= i < |s| => [s[i]])) == s
  {
    var parts := seq(|s|, i requires 0 <= i < |s| => [s[i]]);
    if |s| > 1 {
      assert parts[1..] == seq(|s[1..]|, i requires 0 <= i < |s[1..]| => [s[1..][i]]);
      JoinCharacters(s[1..]);
      assert s == [s[0]] + s[1..];
    }
  }
}
