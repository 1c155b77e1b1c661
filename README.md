# Sigmond build configuration, modelled in Dafny

Sigmond's Python build helpers resolve a build configuration in a class called `SigmondConfig`. Two versions of the class exist:

- the one in `configure.py`;
- the one in `config_reader.py`, which the package build uses.

Each version does four things in order:

1. It loads a configuration tree. This is the parsed `sigmond.toml` when one is found, and a hard-coded default tree otherwise. A file replaces the defaults as a whole; nothing is merged.
2. It applies environment overrides in place.
3. It validates the result. Validation collects every error before raising one `ValueError`.
4. It renders the tree into several outputs:
   - the ordered list of CMake `-D` arguments;
   - in `config_reader.py`, the preprocessor definitions;
   - in `configure.py`, a CMake init-cache file and a two-preset `CMakeUserPresets.json` document.

Modules:

- `Values` is the loosely typed TOML tree. A table is an ordered list of `(key, value)` pairs, because Python dictionaries keep insertion order. `Values` also models Python truthiness, `str()`, `.get` and subscripting, each with the exception it raises. `str()` of a list or a table shows its string items and keys as `repr` does: with Python's choice of quote and its backslash escapes.
- `Wrappers` holds the `Option` and `Result` types. An exception becomes a `Failure` that carries the Python exception kind.
- `Text` and `Dicts` are the string and ordered-dictionary helpers.
- `Shared` holds the code the two versions share word for word:
  - the three add-only boolean overrides;
  - validation, parameterised by the library-path key names, which differ between the versions (`include_dir` and `include_dirs`);
  - `get_build_jobs`, `_get_enabled_optional_libraries`, `get_extra_cxx_flags` and the `build` accessors.
- `CMakeCache` holds the cache-variable fold of `write_cache` and `generate_cmake_presets`, the `_ctype` classifier, the `_q` escaper and the `set(... CACHE ...)` lines.
- `Configure` models `configure.py`, and `ConfigReader` models `config_reader.py`. Each declares:
  - the specification functions;
  - the lemmas about them;
  - a class `SigmondConfig` whose field `config` is the tree. `ApplyEnvOverrides` updates `config` in place. The renderers are methods, and each is proved equal to its specification function. The loops (over the extra definitions, the cache fold, the rendered lines, the definition list) carry their invariants.

Ambient process state becomes explicit parameters:

- the environment is a `map<string, string>`;
- `os.cpu_count()` is an `Option<nat>`;
- `os.path.exists` is the set of existing paths;
- `CONDA_PREFIX` is a string;
- the result of loading a file is an `Option` holding the parsed tree.

In `configure.py` the two renderers that write files return the file's text and the preset document instead of writing them.

## Model

In this table an argument *assigns* a variable `NAME` when it starts with `-DNAME=` (`Shared.Names`). A bare `-DNAME` argument, which a bare string extra such as `"ENABLE_TESTING"` renders to, does not assign `NAME` in this sense, although the cache fold later sets `NAME` to `ON` for it.

| member | source | states |
|---|---|---|
| Text.ReprQuote | configure.py:244 | `repr` quotes a string with `"` exactly when the text holds a `'` and no `"`, and with `'` otherwise. |
| Text.StrRepr | configure.py:244 | `repr` of a string, which `str()` of a list or a table shows for its string items and keys, starts and ends with the chosen quote. Reading back the escaped text between the quotes gives the original string. |
| Text.ReprCharReadsBack | configure.py:244 | Each escape `repr` writes for one character (backslash, the quote, `\n`, `\r`, `\t`, `\xNN`) reads back as that character, and reading then continues after it. |
| Text.ReprBodyReadsBack | configure.py:244 | The escaped text of a whole string reads back as that string, for either quote. |
| Shared.BuildSetting | configure.py:506-553 | The accessors read `config['build'][key]`. The lookup succeeds exactly when both tables hold the key, and the result is the stored value. Otherwise it fails with `KeyError('build')`, a `TypeError` when `build` is not a table, or `KeyError(key)`. |
| Shared.LoweredSetting | configure.py:178 | `config['build'][key].lower()` succeeds exactly when the setting is present and a string, and then gives its lower-cased text. Both versions use it. |
| Shared.SetBuildKey | configure.py:110 | `config['build'][key] = v` stores `v` under `key`. It changes no other `build` setting and no other top-level section. It fails exactly when there is no `build` table, with the matching exception. |
| Shared.OverrideStep | configure.py:109-110 | One override stores `True` only when the variable, lower-cased, is `1`, `true` or `yes`. In every other case the tree is returned unchanged. |
| Shared.FlagOverrides | configure.py:108-114 | The three boolean overrides fail only when some variable asks for a change and there is no `build` table. With no such variable, the tree is unchanged. |
| Shared.FlagOverridesEffect | configure.py:109-114 | After the overrides, each of `skip_query`, `skip_batch` and `verbose` is `True` when its variable asks for it, and its old value otherwise. Every other `build` key and every other section is unchanged. |
| Shared.FlagOverridesKeep | config_reader.py:99-104 | No `build` setting other than the three flags changes. |
| Shared.OverrideChain | configure.py:109-114 | Three overrides on distinct keys, applied in sequence, compose. Each key ends up as if it had been overridden alone, and nothing else changes. |
| Shared.FlagOverridesMonotone | configure.py:109-114 | Each flag is truthy afterwards exactly when it was truthy before or its variable asks for it. An override never turns a flag off. |
| Shared.Errors | configure.py:128-146 | Validation yields one error per failing check, for precision, numbers, file format and `build_jobs`. The number of errors equals the number of failing checks, and each failing check's message is among them. |
| Shared.Check | configure.py:130-131 | A single check keeps the earlier errors and adds its message exactly when it fails. |
| Shared.CollectErrors | configure.py:122-146 | The method that appends errors one by one produces exactly the error list `Errors` specifies. |
| Shared.Report | configure.py:130-131 | The appending step of one check is `Check`. |
| Shared.Bullets | configure.py:165 | Each error becomes the line `  - <error>`, in order. |
| Shared.CollectWarnings | configure.py:148-161 | The method that appends the advisories produces the specified warning list. This includes the exceptions raised by the `.get` chains on non-table values. |
| Shared.WarningsQuiet | configure.py:148-161 | When the optional libraries are off and the two skips are not both set, no advisory is produced. |
| Shared.MissingPathsWarningSucceeds | configure.py:149-157 | When `libraries` and the library's own section are tables, or absent, the advisory for an enabled library cannot raise. |
| Shared.ValidateEntries | configure.py:120-171 | The imperative validation returns the specified result: either the warnings, or a `ValueError` carrying the full message. |
| Shared.MissingPathsWarning | configure.py:149-157 | The missing-paths check of one enabled optional library fails only with `AttributeError`, from a `.get` on something that is not a table. Otherwise it gives no warning or exactly its one message. `MissingPathsWarningSucceeds` says when it succeeds. |
| Shared.SkipWarnings | configure.py:160-161 | The both-skipped check succeeds exactly when `build` is a table, and fails with `AttributeError` otherwise. It gives no warning or exactly the "Both executables are disabled" message. |
| Shared.Warnings | configure.py:148-161 | Collecting the warnings fails only with `AttributeError`. When it succeeds, `build` (or the `{}` stand-in for a missing one) is a table, and the result holds at most three warnings, each one of the Minuit2, Grace and both-skipped messages. `WarningsQuiet` gives the case with none. |
| Shared.Validate | configure.py:120-171 | Validation succeeds exactly when no check reports an error and the warnings can be collected, and then returns those warnings. When the advisories raise `AttributeError` (a `.get` on a non-table), validation raises that, because the advisories run before the `if errors: raise`. Otherwise, when some check reports an error, it raises the `ValueError` whose message lists every error. `ValidateEntries` is the loop that computes it; `ValidateFailsIffSomeCheckFails` and `EveryFailingCheckIsReported` relate it to the checks. |
| Shared.QuietValidation | configure.py:120-171 | A tree whose `build` table holds the accepted precision, numbers and format, an integer job count, and a false `skip_query`, `enable_minuit` and `enable_grace` passes validation with no warnings. |
| Shared.QuietChecks | configure.py:128-146 | Such a `build` table fails none of the four checks. |
| Shared.QuietWarnings | configure.py:148-161 | Such a tree produces no warning. |
| Shared.GetOrChecked | configure.py:126-129 | The validator reads each setting with `.get` and a default. On a table this never fails. |
| Shared.ValidateFailsIffSomeCheckFails | configure.py:164-166 | When the sections the advisories read are well shaped, validation fails exactly when at least one of the four checks fails. The `ValueError` message then lists all the errors, and warnings never cause failure. |
| Shared.FailureMessageListsEveryError | configure.py:165 | The failure message contains `  - <e>` for every error `e` in the list, not only the first. |
| Shared.ListedErrorIsReported | configure.py:165 | Any listed error appears as a bullet in the failure message. |
| Shared.EveryFailingCheckIsReported | configure.py:128-166 | Each check that fails puts its own bullet into the raised message. |
| Shared.ConfigErrorIsReported | config_reader.py:114-152 | In either version, every collected error appears in the raised message. |
| Shared.CpuCountOr1 | configure.py:85 | `os.cpu_count() or 1` is at least 1, and it is the count whenever that is known and positive. |
| Shared.BuildJobs | configure.py:530-537 | `get_build_jobs` is at least 1. A positive configured integer is returned as it is. Otherwise the result is the CPU count, or 1. It fails when `build_jobs` is missing. |
| Shared.EnabledOptionalLibraries | configure.py:486-498 | The result is a subsequence of `["minuit2", "grace"]`. It contains each name exactly when that library's enable flag is truthy, and it fails exactly when a flag is missing. |
| Shared.CxxFlagsSetting | configure.py:303 | `config['compiler']['cxx_flags']` succeeds exactly when both lookups do. A missing `compiler` section raises `KeyError('compiler')`. |
| Shared.ExtraCxxFlags | configure.py:298-306 | `get_extra_cxx_flags` returns a list setting's items, and an empty list for a falsy setting. A truthy string setting gives its characters, one one-character string each, because `extend` iterates the string; a truthy table gives its keys in order. It raises exactly when a truthy setting is not iterable. Lookup failures propagate. |
| Shared.CxxFlagsOfStringRejoin | configure.py:298-306 | For a non-empty string `cxx_flags`, the flags are strings and joining them with no separator gives back the configured string. |
| CMakeCache.BaseCacheVars | configure.py:414-429 | The five fixed variables come first. Only when `CONDA_PREFIX` is non-empty are exactly four more added: `CMAKE_PREFIX_PATH` and `HDF5_ROOT` set to the prefix, `CMAKE_BUILD_RPATH` set to `<prefix>/lib`, and `PYTHON_EXECUTABLE` set to `<prefix>/bin/python`. No name repeats. |
| CMakeCache.Definition | configure.py:434-441 | A `-D` argument with `=` splits at the first `=`, and the name contains no `=`. Without `=`, the value is `ON`. Any other argument defines nothing. |
| CMakeCache.PresetDefinitionAgrees | configure.py:335-341 | The preset fold tests `=` on the whole argument, while the cache fold tests the text after `-D`. The two still split every argument the same way. |
| CMakeCache.FoldArgSplit | configure.py:437-439 | The fold stores the text after the first `=` under the name before it. |
| CMakeCache.FoldArgBare | configure.py:440-441 | A `-D` argument without `=` stores `ON`. |
| CMakeCache.FoldArgOther | configure.py:435 | An argument that does not start with `-D` leaves the cache unchanged. |
| CMakeCache.FoldArg | configure.py:434-441 | One fold step. An argument that is no definition leaves the cache as it is. A definition makes its name hold its value (the text after the first `=`, or `ON`) and leaves every other variable as it was. `FoldArgSplit`, `FoldArgBare` and `FoldArgOther` give the three branches. |
| CMakeCache.FoldArgGrows | configure.py:434-441 | One fold step adds at most one variable and removes none. |
| CMakeCache.FoldArgs | configure.py:434-441 | The fold over all arguments removes no variable and adds at most one per argument. `FoldLastWriterWins` states the value each variable ends with, and `FoldKeepsPositions` its position. |
| CMakeCache.FoldLastWriterWins | configure.py:434-441 | After the fold, each variable holds the value of the last argument that names it. With no such argument, it keeps its base value. |
| CMakeCache.FoldKeepsPositions | configure.py:434-441 | Variables present before the fold keep their place. A rewritten variable is not moved, and no name appears twice. |
| CMakeCache.FoldArgsAppend | configure.py:434-441 | Folding two argument lists one after the other is the same as folding their concatenation. |
| CMakeCache.CType | configure.py:458-466 | `_ctype` applies a fixed precedence: `BOOL` for on/off/true/false in any case, then `FILEPATH` for `*_COMPILER` and `PYTHON_EXECUTABLE`, then `PATH` for `*_DIR`, `*_ROOT` and `*_PREFIX_PATH`, and `STRING` otherwise. Each type is stated as an if-and-only-if. |
| CMakeCache.Q | configure.py:468-469 | `_q` output is well escaped. Reading it back gives the input with backslashes turned into slashes. |
| CMakeCache.QIsTwoPassReplace | configure.py:469 | The one-pass escaper equals the source's two chained `replace` calls. |
| CMakeCache.WellEscapedPointwise | configure.py:469 | In `_q` output every backslash comes immediately before a `"`, and every `"` comes right after a backslash. |
| CMakeCache.CacheLines | configure.py:471-474 | Exactly one `set(...)` line is produced per cache variable, in the variables' order. |
| CMakeCache.CacheLineNamesVariable | configure.py:474 | Each line starts with `set(<name> "`. |
| CMakeCache.CacheLine | configure.py:474 | The line for `(k, v)` starts with `set(k "`. Right after that prefix come the escaped value, `" CACHE ` and the `_ctype` type of the pair. |
| CMakeCache.CacheText | configure.py:479 | The file text ends with a newline and contains every rendered line. |
| Configure.EnsemblesFileOverride | configure.py:116-118 | `DEFAULTENSFILE` changes the tree only when it is set and non-empty. The override fails exactly when it would store and there is no `build` table. |
| Configure.EnvOverridesEffect | configure.py:106-118 | All `configure.py` overrides together: the success condition and the exception, the three add-only flags, and `default_ensembles_file`, which is replaced exactly when `DEFAULTENSFILE` is non-empty. Nothing else changes. |
| Configure.EnvOverridesFlags | configure.py:109-114 | After all overrides, each flag is its override result, and the other sections are untouched. |
| Configure.EnvOverridesFile | configure.py:117-118 | `default_ensembles_file` holds `DEFAULTENSFILE` when that is non-empty, and its old value otherwise. |
| Configure.EnsemblesFileKept | configure.py:117 | An empty or unset `DEFAULTENSFILE` leaves the ensembles file as it was. |
| Configure.EnsemblesFileSet | configure.py:118 | A non-empty `DEFAULTENSFILE` becomes the ensembles file. |
| Configure.EnvOverridesFrame | configure.py:106-118 | Every `build` key other than the three flags and the ensembles file is unchanged. |
| Configure.EnvOverrides | configure.py:106-118 | With no override variable set, the tree is unchanged. The overrides fail only when some variable asks for a change: with `KeyError('build')` when there is no `build` section, and with `TypeError` when it is not a table. `EnvOverridesEffect` and `EnvOverridesFrame` state the new tree. |
| Configure.DefaultConfig | configure.py:71-104 | The default tree's `build_jobs` is `os.cpu_count() or 1`, which is at least 1. Its `default_ensembles_file` is the fixed path, which is not empty. |
| Configure.DefaultsValidate | configure.py:71-171 | The default tree passes validation with no warnings. |
| Configure.DefaultsResolve | configure.py:27-30 | With no file and an empty environment, the configuration is the default tree. |
| Configure.Resolve | configure.py:27-30 | A constructed configuration passes every validation check. With no file and no override variable, it is exactly the default tree. |
| Configure.PathArgs | configure.py:209-218 | Each install directory and the ensembles file is passed as `-D<name>=<value>` when it is truthy. When it is falsy, its variable is absent from the path arguments altogether. |
| Configure.OptionalArgOmits | configure.py:210-218 | An optional path argument assigns only its own variable, and none at all when its value is falsy. |
| Configure.OptionalArgsOmit | configure.py:210-218 | Among three optional arguments with different variables, a set one is passed and an unset one's variable is absent, wherever it stands. |
| Configure.PathArgsOmit | configure.py:210-218 | The path arguments assign no variable other than their three own. |
| Configure.CoreArgs | configure.py:178-218 | The head of the argument list fails unless `build` is a table holding every key it subscripts. It succeeds when those keys are present and the three selectors are strings. |
| Configure.CoreArgsParts | configure.py:178-218 | The head is, in order: the three selectors, the control flags, one testing toggle, and the path arguments. |
| Configure.CoreArgsShape | configure.py:178-207 | The core arguments (everything before the extras) start with `-DPRECISION=`, `-DNUMBERS=` and `-DDEFAULT_FILE_FORMAT=`, each holding the lower-cased setting. They hold exactly one `ENABLE_TESTING` entry, which is `=ON` exactly when `enable_testing` is truthy and `=OFF` otherwise. For the whole list see `Configure.CmakeArgsToggle`. |
| Configure.ChoicesOmit | configure.py:178-186 | The three choice arguments assign only `PRECISION`, `NUMBERS` and `DEFAULT_FILE_FORMAT`. |
| Configure.FlagArgOmits | configure.py:189-201 | A switch assigns only its own variable. |
| Configure.ControlArgsOmit | configure.py:188-201 | The build-control switches assign only their own six variables. |
| Configure.ControlArgs | configure.py:188-201 | The build-control arguments are `-D` definitions: one per truthy switch, and two for a truthy `verbose`. `ControlArgsOmit` says they name only their own variables. |
| Configure.ToggleOmits | configure.py:203-207 | The testing switch assigns only `ENABLE_TESTING`. |
| Configure.TestingArg | configure.py:203-207 | The testing argument is `-DENABLE_TESTING=ON` exactly when `enable_testing` is truthy, and `-DENABLE_TESTING=OFF` otherwise. |
| Configure.HeadOmits | configure.py:178-207 | Everything before the paths assigns only the ten variables of the head. |
| Configure.CorePathsPassed | configure.py:209-218 | In the core arguments, each install directory and the ensembles file is passed when set. When unset, its variable is absent. |
| Configure.CoreArgsOmit | configure.py:178-218 | The core arguments assign only the head's variables and the three path variables. |
| Configure.AssembledShape | configure.py:178-218 | Any head assembled from the selectors, control flags that do not name `ENABLE_TESTING`, one toggle and path arguments has that shape. |
| Configure.ControlArgsNotToggles | configure.py:188-201 | The control flags are `-D` definitions and never name `ENABLE_TESTING`. |
| Configure.PathArgsNotToggles | configure.py:209-218 | The path arguments never name `ENABLE_TESTING`. |
| Configure.ToggleOnce | configure.py:204-207 | One toggle between lists that do not name the variable gives exactly one `ENABLE_TESTING` entry, and it is the chosen one. |
| Configure.OneToggle | configure.py:204-207 | The same holds for any variable with two distinct spellings. |
| Configure.AsDefinition | configure.py:229-233 | A string extra is stripped. It is kept as it is exactly when it already starts with `-D`, and is otherwise prefixed with `-D`. The result always starts with `-D`. |
| Configure.AsDefinitionIdempotent | configure.py:229-233 | Normalising an extra a second time changes nothing. |
| Configure.AsDefinitionEnds | configure.py:229 | A normalised extra is non-empty and has no trailing whitespace. |
| Configure.StringExtras | configure.py:226-233 | The string extras all become `-D` arguments, at most one per entry. |
| Configure.PairValue | configure.py:241-246 | A boolean renders as `ON` exactly when it is true, and as `OFF` otherwise. Every item's `str()` occurs in a list's rendering, and a one-item list renders as that item's `str()`. Any other value renders as its `str()`. |
| Configure.PairArgs | configure.py:239-247 | Each dictionary pair becomes `-D<k>=<value>`, in order and one per pair. |
| Configure.ExtraDefinitionArgs | configure.py:221-247 | Whatever shape `extra_cmake_definitions` has, every argument it adds is a `-D` definition. |
| Configure.AppendListExtras | configure.py:224-235 | The loop over a list of extras appends the string extras in input order, and collects the dictionary pairs in order. |
| Configure.AppendPairs | configure.py:239-247 | The pair loop appends the pair arguments after everything emitted so far, so the pairs come after all string extras. |
| Configure.AppendExtras | configure.py:220-247 | The extras, as appended by the loops, equal the specified `ExtraDefinitionArgs`. |
| Configure.AssignmentRoundTrip | configure.py:437-438 | Splitting `-D<name>=<value>` gives back `name` and `value`, when `name` has no `=`. |
| Configure.PairArgRoundTrip | configure.py:247 | A pair argument folds back to its key and its rendered value. |
| Configure.DefineRoundTrip | configure.py:271 | A `-D<name>=<str(value)>` argument folds back to `name` and `str(value)`. |
| Configure.EntryArgs | configure.py:250-286 | A library section emits one definition per truthy path key, and fails with `AttributeError` when the section is not a table. At most one argument comes from each key. |
| Configure.EntryArgsOmits | configure.py:250-286 | A variable is absent from a section's arguments when every key standing for it is missing or falsy. |
| Configure.SectionOmits | configure.py:250-286 | This is `EntryArgsOmits` lifted to a library lookup. An absent section emits nothing. |
| Configure.EntryArgsAvoid | configure.py:250-286 | A section's definitions never name a variable that differs from every one of its names at a given position. |
| Configure.Section | configure.py:250-286 | A library absent from `libraries` emits nothing. A present one emits its entries. |
| Configure.SectionAvoids | configure.py:250-286 | This is `EntryArgsAvoid` lifted to a library lookup. |
| Configure.LibraryArgs | configure.py:249-286 | Every library argument is a `-D` definition. |
| Configure.LibraryArgsParts | configure.py:249-286 | The library arguments come in source order: hdf5, blas, lapack, then minuit2 when enabled, grace when enabled, and accelerate. |
| Configure.OptionalLibrariesGated | configure.py:267-280 | Within the library block, no `SIGMOND_MINUIT2_*` entry appears unless `enable_minuit` is truthy, and no `SIGMOND_GRACE_*` entry unless `enable_grace` is truthy. The extras can still assign these variables; see `Configure.ExtrasBypassGate`. |
| Configure.BlocksAvoid | configure.py:249-286 | No library block names a variable that belongs to another block. |
| Configure.LibraryPathPassed | configure.py:249-286 | A path set in a library section that is read is passed under its variable. A disabled Minuit2 or Grace section is not read. |
| Configure.LibraryVariablesDistinct | configure.py:249-286 | Every library variable belongs to exactly one key of one section. |
| Configure.LibraryArgsOmit | configure.py:249-286 | A variable is absent from the library block when no section that is read sets a key standing for it. |
| Configure.LibraryPathOmitted | configure.py:249-286 | A library path is absent from the library block when its section is not read, or when the section does not set it. |
| Configure.CompilerArgsOmit | configure.py:288-294 | The compiler arguments assign only `CMAKE_C_COMPILER` and `CMAKE_CXX_COMPILER`. |
| Configure.CompilerArgs | configure.py:288-294 | The compiler arguments succeed exactly when there is no `compiler` section or it is a table. Otherwise `.get` raises `AttributeError`. There are at most two, and all are `-D` definitions. `CompilerArgsShape` and `LastCompilers` give their values. |
| Configure.CmakeArgs | configure.py:173-296 | `get_cmake_args` fails unless `build` is a table holding every key the head subscripts. |
| Configure.CmakeArgsParts | configure.py:173-296 | The arguments are the head, then the extras, then the libraries, then the compilers. |
| Configure.CmakeArgsAreDefinitions | configure.py:173-296 | Every element of `get_cmake_args` begins with `-D`. |
| Configure.CmakeArgsToggle | configure.py:173-296 | Over the whole of `get_cmake_args`, `ENABLE_TESTING` is assigned exactly once, `ON` exactly when testing is enabled, as long as no extra renders as a `-DENABLE_TESTING=` argument. A bare `ENABLE_TESTING` extra is not covered. |
| Configure.CmakePathOmitted | configure.py:173-296 | Over the whole list, an unset install directory or ensembles file leaves its variable out, as long as the extras do not assign it. |
| Configure.CmakeLibraryPathOmitted | configure.py:173-296 | Over the whole list, a library path whose section is not read (a disabled Minuit2 or Grace) or does not set it is absent, as long as the extras do not assign it. |
| Configure.ExtrasOf | configure.py:220-247 | The extras appended are those rendered from `extra_cmake_definitions`, and each of them is part of the whole list. |
| Configure.ToggleExtraArgs | configure.py:222-247 | The extra table `{ENABLE_TESTING = true}` adds `-DENABLE_TESTING=ON`. |
| Configure.MinuitExtraArgs | configure.py:222-247 | The extra table `{SIGMOND_MINUIT2_INCLUDE_DIR = "/x"}` adds `-DSIGMOND_MINUIT2_INCLUDE_DIR=/x`. |
| Configure.ExtrasOverrideToggle | configure.py:203-247 | With testing disabled and the extra `ENABLE_TESTING = true`, the list holds both `-DENABLE_TESTING=OFF` and `-DENABLE_TESTING=ON`. |
| Configure.ExtrasBypassGate | configure.py:220-280 | With Minuit2 disabled, the extra `SIGMOND_MINUIT2_INCLUDE_DIR = "/x"` still puts `-DSIGMOND_MINUIT2_INCLUDE_DIR=/x` into the list. |
| Configure.CompilerArgsShape | configure.py:288-294 | The compiler block is the C compiler entry followed by the C++ compiler entry, each present only when set. |
| Configure.LastCompilers | configure.py:288-294 | After any prefix, a configured compiler is the last definition of its variable. |
| Configure.CompilersComeLast | configure.py:173-296 | In `get_cmake_args`, a configured C or C++ compiler is the last word on `CMAKE_C_COMPILER` or `CMAKE_CXX_COMPILER`. |
| Configure.LastDefinitionSkips | configure.py:288-294 | Definitions of other variables after a prefix do not change which definition of a variable is last. |
| Configure.UsablePath | configure.py:353 | A compiler path is used exactly when it is a string, its stripped text is non-empty, and it exists. The lookup raises exactly for a truthy value that is not a string. |
| Configure.FoldedVarsShape | configure.py:333-341 | After folding, the cache has unique names and still holds the five base variables. |
| Configure.FoldedLookups | configure.py:434-441 | The folded value of each variable is its last definition, or else its base value. |
| Configure.FoldHoldsCompilers | configure.py:434-455 | A configured compiler is already in the folded cache under its variable. |
| Configure.CacheCompilersNoOp | configure.py:449-455 | Without `clear_cache`, the compiler step of `write_cache` changes nothing after the fold. A compiler reaches the cache whether or not its path exists. |
| Configure.PresetCompilersNoOp | configure.py:350-358 | The same holds for the preset's compiler step. |
| Configure.CacheCompilers | configure.py:443-455 | With `clear_cache`, both compiler variables become empty. Otherwise the step succeeds exactly when there is a `compiler` table, and fails with `KeyError('compiler')` or `AttributeError`. It changes no other variable. `CacheCompilersNoOp` says it also keeps the compiler variables the fold already set. |
| Configure.PresetCompilers | configure.py:343-358 | With `clear_cache`, both compiler variables become empty. In every case no other variable changes. `PresetCompilersStore` gives the stored values. |
| Configure.PresetCompilersSucceed | configure.py:350-358 | Outside `clear_cache`, the preset's compiler step succeeds exactly when both compilers are set under a `compiler` table and each truthy one is a string. Anything else makes the subscript or `.strip()` raise. |
| Configure.PresetCompilersStore | configure.py:350-358 | Without `clear_cache`, the preset step stores each compiler only when it passes the path checks. |
| Configure.StoresKept | configure.py:352-358 | Storing the value a variable already holds changes nothing. |
| Configure.ClearCompilersKeeps | configure.py:344-349 | `clear_cache` sets both compiler variables to `""` and changes no other variable. |
| Configure.CacheVariables | configure.py:413-455 | The cache variables have unique names and hold the base variables. Each variable holds its last `-D` definition or its base value. With `clear_cache`, both compiler variables are `""`. |
| Configure.CacheVarsCleared | configure.py:443-448 | With `clear_cache`, the variables are the fold with both compilers cleared. |
| Configure.CacheCompilersKeepFold | configure.py:449-455 | Without `clear_cache`, the variables are the fold itself. |
| Configure.CacheMirrorsPresets | configure.py:408-455 | The release preset's cache variables are exactly the variables `write_cache` renders. |
| Configure.CacheFile | configure.py:471-479 | The cache file is produced exactly when its variables can be computed. It then contains the `set(...)` line of every variable. |
| Configure.PresetsForParts | configure.py:308-395 | The preset document is built from the preset cache variables, `is_verbose()` and `get_build_jobs()`. |
| Configure.PresetsOfShape | configure.py:361-395 | The document has version 5, two configure presets and two build presets. The debug preset inherits from the release preset and only sets `CMAKE_BUILD_TYPE=Debug`. Each build preset names its configure preset and carries the same `verbose` and `jobs`. |
| Configure.PresetsShape | configure.py:361-395 | In a generated document, both build presets carry the configured `verbose` and the same `get_build_jobs()` value, which is at least 1. |
| Configure.PresetsFor | configure.py:308-395 | A presets document is produced only when the CMake arguments and the job count both succeed. It has version 5, two configure presets and two build presets, and each build preset's `jobs` is `get_build_jobs()`. |
| Configure.FoldCacheArgs | configure.py:434-441 | The loop that folds the `-D` arguments into the cache computes `FoldArgs`. |
| Configure.FoldPresetArgs | configure.py:334-341 | The preset's version of that loop computes the same fold. |
| Configure.CacheFoldStep | configure.py:435-441 | One pass of the `write_cache` loop makes the fold step of its argument. |
| Configure.PresetFoldStep | configure.py:335-341 | One pass of the preset loop, which tests for `=` in the whole argument, makes the same fold step. |
| Configure.RenderCacheLines | configure.py:471-474 | The line loop produces `CacheLines`. |
| Configure.SigmondConfig.constructor | configure.py:27-28 | A new object holds the loaded tree: the file tree as a whole, or the defaults. |
| Configure.SigmondConfig.ApplyEnvOverrides | configure.py:106-118 | The in-place overrides leave `config` as `EnvOverrides` of the old tree. When the store raises, the outcome carries the same exception. |
| Configure.SigmondConfig.ValidateConfig | configure.py:120-171 | It returns the validation result for the current tree. |
| Configure.SigmondConfig.GetCmakeArgs | configure.py:173-296 | It returns the specified argument list, built by appending. |
| Configure.SigmondConfig.WriteCache | configure.py:408-479 | It returns the init-cache text: the rendered lines joined by newlines, with a final newline. |
| Configure.SigmondConfig.GenerateCmakePresets | configure.py:308-395 | It returns the specified preset document. |
| Configure.NewSigmondConfig | configure.py:27-30 | Construction is load, then overrides, then validation. It succeeds exactly when `Resolve` does and holds its tree. Otherwise it raises the same exception. |
| ConfigReader.OverridesOnlyRaiseFlags | config_reader.py:96-104 | Only `skip_query`, `skip_batch` and `verbose` can change, and each only becomes `True`. |
| ConfigReader.DefaultChecks | config_reader.py:75-80 | The defaults are precision `double`, numbers `complex`, format `hdf5`, and `build_jobs` set to the CPU count or 1. |
| ConfigReader.DefaultSwitches | config_reader.py:72-79 | The defaults turn off both skips and both optional libraries. |
| ConfigReader.DefaultJobs | config_reader.py:80 | The default `build_jobs` is `os.cpu_count() or 1`, not 0. |
| ConfigReader.DefaultsValidate | config_reader.py:67-94 | The default tree passes validation with no warnings. |
| ConfigReader.DefaultsResolve | config_reader.py:23-26 | With no file and an empty environment, the configuration is the default tree. |
| ConfigReader.DefaultConfig | config_reader.py:67-94 | The default tree's `build_jobs` is `os.cpu_count() or 1`, which is at least 1. `DefaultsValidate` says the tree is valid. |
| ConfigReader.Resolve | config_reader.py:23-26 | A constructed configuration passes every validation check. With no file and no override variable, it is exactly the default tree. |
| ConfigReader.JoinedEntryArgs | config_reader.py:182-189 | A section that is not a table raises `AttributeError`. On a table, the call succeeds exactly when every truthy path setting joins. One that does not join raises `TypeError`, because `';'.join` needs strings. Every argument is a `-D` definition. |
| ConfigReader.JoinedEntryArgsPresent | config_reader.py:182-189 | Each truthy list-valued path is emitted, as its items joined by `;`. |
| ConfigReader.JoinedEntryArgsOmits | config_reader.py:182-189 | A path whose value is falsy, including an empty list, emits no entry. |
| ConfigReader.JoinedSection | config_reader.py:182-189 | An absent library emits nothing. A present one emits its joined entries. |
| ConfigReader.HDF5Args | config_reader.py:175-179 | When `libraries` is a table without `hdf5`, there is no argument. When it holds `hdf5`, the step succeeds exactly when that section is a table, and then gives `-DHDF5_ROOT=<root>` exactly when `hdf5_root` is truthy, and nothing otherwise. The result is at most one `-D` definition. |
| ConfigReader.SkipArgs | config_reader.py:164-167 | The skip switches are `-D` definitions. |
| ConfigReader.SkipArgsSwitches | config_reader.py:164-167 | `-DSKIP_SIGMOND_QUERY=ON` is present exactly when `skip_query` is truthy, and likewise for `skip_batch`. |
| ConfigReader.SkipPartSwitches | config_reader.py:164-167 | The same holds for the skip part read from the tree. |
| ConfigReader.SkipPart | config_reader.py:164-167 | The skip part is `-D` definitions. `SkipPartSwitches` says which. |
| ConfigReader.InstallDirArg | config_reader.py:170-173 | A truthy install directory gives exactly its `-D` definition, and a falsy one gives no argument naming the variable. |
| ConfigReader.DirPart | config_reader.py:170-173 | The install-directory part succeeds exactly when `build` is a table holding both keys. A truthy directory then has its definition in the part, and a falsy one has no argument naming its variable. |
| ConfigReader.InstallDirsOmit | config_reader.py:170-173 | A falsy install directory leaves its variable unnamed in both install-directory arguments. |
| ConfigReader.DirNamesOutside | config_reader.py:163-215 | No other argument of `get_cmake_args` names the two install-directory variables. |
| ConfigReader.CmakeInstallDirs | config_reader.py:159-217 | Over the whole argument list, a truthy install directory has its definition in the list, and a falsy one has no argument naming its variable. |
| ConfigReader.LibraryPartRoot | config_reader.py:175-215 | Within the library block, a truthy `hdf5_root` has its `-DHDF5_ROOT` definition, and otherwise no argument names `HDF5_ROOT`. |
| ConfigReader.CmakeHdf5Root | config_reader.py:159-217 | Over the whole argument list, a truthy `hdf5_root` has its `-DHDF5_ROOT` definition, and otherwise no argument names `HDF5_ROOT`. |
| ConfigReader.OptionalSection | config_reader.py:192-208 | A disabled optional library emits nothing. |
| ConfigReader.LibraryPart | config_reader.py:175-215 | The library part consists of `-D` definitions. |
| ConfigReader.CmakeArgs | config_reader.py:159-217 | Every argument begins with `-D`. A missing `build` section raises `KeyError('build')`. |
| ConfigReader.CmakeArgsParts | config_reader.py:159-217 | The arguments are the skip switches, then the install directories, then the libraries. |
| ConfigReader.SkipSwitchesLead | config_reader.py:163-217 | The skip switches are emitted exactly when their flags are truthy, and no later entry names them, so they precede all other entries. |
| ConfigReader.NameAbsent | config_reader.py:159-217 | A variable that no fixed block emits and no enabled optional block names does not appear. |
| ConfigReader.CmakePathsOmit | config_reader.py:169-215 | After the skip switches, no entry names such a variable. |
| ConfigReader.MinuitPathsGated | config_reader.py:192-199 | No `SIGMOND_MINUIT2_*` entry appears unless `enable_minuit` is truthy. |
| ConfigReader.GracePathsGated | config_reader.py:201-208 | No `SIGMOND_GRACE_*` entry appears unless `enable_grace` is truthy. |
| ConfigReader.LibraryPartOmits | config_reader.py:175-215 | The library part never names such a variable. |
| ConfigReader.OptionalSectionsOmit | config_reader.py:192-208 | A disabled optional library's names never appear. |
| ConfigReader.FixedSectionsOmit | config_reader.py:175-189 | The hdf5, lapack and accelerate blocks name only their own variables. |
| ConfigReader.DirPartOmits | config_reader.py:170-173 | The install-directory part names only the two install variables. |
| ConfigReader.SkipPartOmits | config_reader.py:164-167 | The skip part names only the two skip variables. |
| ConfigReader.MacroNamesDiffer | config_reader.py:224-245 | Distinct definitions are spelled differently. |
| ConfigReader.MacroNames | config_reader.py:224-256 | Each definition is spelled in order, one per definition. |
| ConfigReader.Remove | config_reader.py:249 | `list.remove` of a present item shortens the list by one. |
| ConfigReader.RemoveFirst | config_reader.py:249 | `list.remove` deletes the first occurrence and keeps the order of the rest. |
| ConfigReader.SelectorsNotDisabling | config_reader.py:224-242 | The selectors never include `NOGRACE`, `NO_MINUIT` or `NOXML`, so every later `remove` finds its target in the survivors. |
| ConfigReader.SurvivorsPresent | config_reader.py:245-256 | `HDF5` and `LAPACK` always remain. `NO_MINUIT` remains exactly when minuit is off, `NOGRACE` exactly when grace is off, and `NOXML` exactly when batch is skipped. |
| ConfigReader.SurvivorsOrdered | config_reader.py:245-256 | The survivors keep the order `NOGRACE`, `NO_MINUIT`, `NOXML`, `HDF5`, `LAPACK`. |
| ConfigReader.CompilerMacrosParts | config_reader.py:219-258 | The definitions are the three selectors from the lower-cased settings, followed by the survivors of the three flags. |
| ConfigReader.CompilerMacrosShape | config_reader.py:219-258 | `SINGLEPRECISION` is chosen exactly when precision is `single`, else `DOUBLEPRECISION`. `REALNUMBERS` is chosen exactly for `real`, and `DEFAULT_FSTREAM` exactly for `fstream`. The survivors follow in order, and there are no duplicates. |
| ConfigReader.MacroListShape | config_reader.py:224-256 | The same shape holds for any selector strings and flags. |
| ConfigReader.SelectorsThenSurvivors | config_reader.py:224-256 | One selector from each pair, followed by ranked survivors, contains no duplicates. |
| ConfigReader.MacrosPresent | config_reader.py:245-256 | Presence of the fixed and disabling definitions in the whole list, stated both ways. |
| ConfigReader.CompilerMacrosPresent | config_reader.py:245-256 | Presence is stated in terms of the tree's flags. |
| ConfigReader.CompilerDefinitionsShape | config_reader.py:219-258 | In the spelled list, `HDF5` and `LAPACK` are present. `NO_MINUIT` is present exactly when `enable_minuit` is falsy, and `NOGRACE` exactly when `enable_grace` is falsy. `NOXML` is present exactly when `skip_batch` is truthy. There are no duplicates. |
| ConfigReader.CompilerMacros | config_reader.py:219-258 | When the definitions can be computed, there are five to eight of them, and `HDF5` and `LAPACK` are among them. `CompilerMacrosShape` and `CompilerMacrosPresent` state the rest. |
| ConfigReader.CompilerDefinitions | config_reader.py:219-258 | The names are computed exactly when the macros are. There are five to eight, including `HDF5` and `LAPACK`. |
| ConfigReader.AlwaysNamed | config_reader.py:245 | A macro list that holds `HDF5` and `LAPACK` names both. |
| ConfigReader.SpelledDistinct | config_reader.py:224-256 | Spelling a list without duplicates keeps it without duplicates. |
| ConfigReader.SpelledPresence | config_reader.py:245 | A definition is present exactly when its spelling is. |
| ConfigReader.NameSpelled | config_reader.py:224-256 | Membership is preserved by spelling, in both directions. |
| ConfigReader.StagesAgree | config_reader.py:245-256 | The list after each `remove` stage is the survivors of the flags applied so far. |
| ConfigReader.DropMinuit | config_reader.py:248-249 | Removing `NO_MINUIT` from the extended list leaves the selectors and the next stage. |
| ConfigReader.DropGrace | config_reader.py:250-251 | Removing `NOGRACE` leaves the selectors and the next stage. |
| ConfigReader.DropXml | config_reader.py:254-256 | Removing `NOXML` leaves the selectors and the final survivors. |
| ConfigReader.ExtendThenRemove | config_reader.py:245-256 | The `extend`, then up to three `remove` calls, leave exactly the selectors followed by the survivors. |
| ConfigReader.AppendSelectors | config_reader.py:221-242 | The appends produce the three selectors. |
| ConfigReader.CollectMacros | config_reader.py:219-258 | The imperative definition list equals its specification, including the exceptions raised by the reads. |
| ConfigReader.AppendSkipSwitches | config_reader.py:163-167 | The skip-switch appends equal their specification. |
| ConfigReader.AppendInstallDirs | config_reader.py:169-173 | The install-directory appends equal their specification. |
| ConfigReader.SigmondConfig.constructor | config_reader.py:23-24 | A new object holds the loaded tree. |
| ConfigReader.SigmondConfig.ApplyEnvOverrides | config_reader.py:96-104 | The in-place overrides leave `config` as the three add-only flag overrides of the old tree, or raise the same exception. |
| ConfigReader.SigmondConfig.ValidateConfig | config_reader.py:106-157 | It returns the validation result for the current tree, using the list-valued path keys. |
| ConfigReader.SigmondConfig.GetCmakeArgs | config_reader.py:159-217 | It returns the specified argument list. |
| ConfigReader.SigmondConfig.GetCompilerDefinitions | config_reader.py:219-258 | It returns the specified, spelled definition list. |
| ConfigReader.NewSigmondConfig | config_reader.py:23-26 | Construction is load, then overrides, then validation. It succeeds exactly when `Resolve` does and holds its tree. |

## Left out

- TOML parsing, the search for `sigmond.toml` (the explicit path, `SIGMOND_CONFIG` and the four standard locations), and a missing `tomllib` are not modelled. The outcome of loading is a parameter: the parsed tree, or none. A parse failure and a missing `tomllib` both give none.
- Writing the cache file and the presets file is left out, as are JSON formatting and the boolean success result. So are all `print` diagnostics, including the verbose listing of warnings and the missing-`CONDA_PREFIX` warning. The model returns the file text and the preset document instead.
- `load_sigmond_config`, `create_config`, `show_config`, `validate_config` and `main` in both files are left out. They are command-line glue, prompts and printing.
- `get_env_dict` always returns an empty dictionary and is not modelled.
- `setup.py` and `src/sigmond/source/tasks/sigmond.cc` are not part of this model.
- `str.strip` removes the characters up to U+00FF for which `str.isspace` holds. Whitespace above U+00FF (U+1680, U+2000 to U+200A, U+2028, U+2029, U+202F, U+205F, U+3000) is not stripped. `str.lower` and `str.upper` map ASCII letters only.
- `repr` and `str` of floats and dates are not modelled. Such values are kept as opaque text with their truthiness.
- Text.StrRepr: `repr` escapes the non-printable characters up to U+00FF as `\xNN`. It does not escape the non-printable characters above U+00FF, which Python writes as `\uNNNN` or `\UNNNNNNNN`, because that needs the Unicode character database.
- Shared.BuildJobs: for a float `build_jobs`, Python would compare it with 0 and return it. The model raises a `TypeError` instead. Validation rejects any `build_jobs` that is not an integer (a `bool` counts as one), so a resolved configuration never reaches this case.
- Configure.UsablePath: `os.path.exists` is modelled as membership of a string in the existing-paths set. A truthy value that is not a string never reaches it, because the source's `strip()` raises an `AttributeError` first. The cache's compiler step has no `strip()`, so it calls `os.path.exists` on whatever value is set. The model treats a non-string value there as a path that does not exist. It does not model Python reading an integer as a file descriptor, or raising for other types.
- The `build` accessors (`should_skip_query`, `get_precision` and the rest) are modelled once, as `Shared.BuildSetting` with the key as a parameter, rather than as one method per accessor.
- ConfigReader.CompilerMacrosParts: the definitions are modelled as an enumeration that is spelled at the end. The model reads the three flags before the `extend` and `remove` steps. A failed read raises the same exception, and the partly built list is discarded either way.
- Configure.PresetCompilersStore: the preset and cache compiler steps read both compilers before storing either. A failed lookup raises the same exception either way.
- Configure.CoreArgs: the head reads the plain settings in one pass, in the source's order, so the first missing key raises the same `KeyError`.
