/**
 * The CMake cache variables that `write_cache` and `generate_cmake_presets` derive from the
 * `-D` arguments, and the `set(... CACHE ...)` lines `write_cache` renders them as.
 */
module CMakeCache {
  import opened Wrappers
  import Text
  import Dicts

  /** Cache variable names and their string values, in insertion order. */
  type CacheVars = seq<(string, string)>

  predicate StartsWith(s: string, prefix: string) {
    prefix <= s
  }

  // ---------------------------------------------------------------- base variables

  /** The five settings every cache starts from. */
  const BaseVars: CacheVars := [
    ("CMAKE_BUILD_TYPE", "Release"),
    ("CMAKE_EXPORT_COMPILE_COMMANDS", "ON"),
    ("CMAKE_CXX_STANDARD", "17"),
    ("CMAKE_CXX_STANDARD_REQUIRED", "ON"),
    ("CMAKE_CXX_EXTENSIONS", "OFF")
  ]

  /** The paths suggested by a conda environment rooted at `condaPrefix`. */
  function CondaVars(condaPrefix: string): CacheVars {
    [
      ("CMAKE_PREFIX_PATH", condaPrefix),
      ("CMAKE_BUILD_RPATH", condaPrefix + "/lib"),
      ("HDF5_ROOT", condaPrefix),
      ("PYTHON_EXECUTABLE", condaPrefix + "/bin/python")
    ]
  }

  /**
   * The cache before any `-D` argument is folded in; `condaPrefix` is `CONDA_PREFIX` or empty.
   * The conda names are all new, so `update` appends them.
   */
  function BaseCacheVars(condaPrefix: string): (r: CacheVars)
    ensures Dicts.UniqueKeys(r)
    ensures BaseVars <= r
    ensures condaPrefix == [] ==> r == BaseVars
    ensures condaPrefix != [] ==> Dicts.Lookup(r, "PYTHON_EXECUTABLE") == Some(condaPrefix + "/bin/python")
    ensures condaPrefix != [] ==> Dicts.Lookup(r, "CMAKE_PREFIX_PATH") == Some(condaPrefix)
    ensures condaPrefix != [] ==> Dicts.Lookup(r, "CMAKE_BUILD_RPATH") == Some(condaPrefix + "/lib")
    ensures condaPrefix != [] ==> Dicts.Lookup(r, "HDF5_ROOT") == Some(condaPrefix)
    ensures condaPrefix != [] ==> |r| == |BaseVars| + 4
  {
    var r := if condaPrefix == [] then BaseVars else BaseVars + CondaVars(condaPrefix);
    Dicts.UniqueKeysFromDistinct(r);
    assert r[..5] == BaseVars;
    if condaPrefix == [] then r
    else
      Dicts.LookupEntry(r, 5);
      Dicts.LookupEntry(r, 6);
      Dicts.LookupEntry(r, 7);
      Dicts.LookupEntry(r, 8);
      r
  }

  // ---------------------------------------------------------------- the fold

  /**
   * The entry a `-D` argument stands for in `write_cache`: the name before the first `=` and
   * the text after it, or the value `ON` when there is no `=`. Other arguments stand for none.
   */
  function Definition(arg: string): (r: Option<(string, string)>)
    ensures r.None? <==> !StartsWith(arg, "-D")
    ensures r.Some? && '=' in arg[2..] ==> arg == "-D" + r.value.0 + "=" + r.value.1 && '=' !in r.value.0
    ensures r.Some? && '=' !in arg[2..] ==> r.value == (arg[2..], "ON")
  {
    if !StartsWith(arg, "-D") then None
    else
      var body := arg[2..];
      match Text.IndexOf(body, '=')
      case Some(i) =>
        assert body == body[..i] + "=" + body[i + 1..];
        Some((body[..i], body[i + 1..]))
      case None => Some((body, "ON"))
  }

  /**
   * The same split as `generate_cmake_presets` writes it: it looks for `=` in the whole argument
   * and falls back to `ON` for any other `-D` argument.
   */
  function PresetDefinition(arg: string): Option<(string, string)> {
    if StartsWith(arg, "-D") && '=' in arg then
      var body := arg[2..];
      match Text.IndexOf(body, '=')
      case Some(i) => Some((body[..i], body[i + 1..]))
      case None => Some((body, "ON"))
    else if StartsWith(arg, "-D") then Some((arg[2..], "ON"))
    else None
  }

  /** Both renderers split every argument the same way. */
  lemma PresetDefinitionAgrees(arg: string)
    ensures PresetDefinition(arg) == Definition(arg)
  {
    if StartsWith(arg, "-D") {
      assert arg == arg[..2] + arg[2..];
      assert '=' in arg <==> '=' in arg[2..];
    }
  }

  /** One step of the fold: `cache_vars[k] = v` for the entry `arg` stands for. */
  function FoldArg(vars: CacheVars, arg: string): (r: CacheVars)
    ensures Definition(arg).None? ==> r == vars
    ensures Definition(arg).Some? ==>
      && Dicts.Lookup(r, Definition(arg).value.0) == Some(Definition(arg).value.1)
      && forall k :: k != Definition(arg).value.0 ==> Dicts.Lookup(r, k) == Dicts.Lookup(vars, k)
  {
    match Definition(arg)
    case Some((k, v)) => Dicts.Put(vars, k, v)
    case None => vars
  }

  /** Folding in a `-D` argument with an `=` stores the text after the first `=` under the name before it. */
  lemma FoldArgSplit(vars: CacheVars, arg: string, i: nat)
    requires StartsWith(arg, "-D") && Text.IndexOf(arg[2..], '=') == Some(i)
    ensures i < |arg[2..]|
    ensures FoldArg(vars, arg) == Dicts.Put(vars, arg[2..][..i], arg[2..][i + 1..])
  {
  }

  /** Folding in a `-D` argument without `=` stores `ON` under the rest of the argument. */
  lemma FoldArgBare(vars: CacheVars, arg: string)
    requires StartsWith(arg, "-D") && Text.IndexOf(arg[2..], '=').None?
    ensures FoldArg(vars, arg) == Dicts.Put(vars, arg[2..], "ON")
  {
  }

  /** Any other argument leaves the cache as it was. */
  lemma FoldArgOther(vars: CacheVars, arg: string)
    requires !StartsWith(arg, "-D")
    ensures FoldArg(vars, arg) == vars
  {
  }

  /** The cache after folding in `args` from first to last. */
  function FoldArgs(vars: CacheVars, args: seq<string>): (r: CacheVars)
    ensures |vars| <= |r| <= |vars| + |args|
    decreases |args|
  {
    if args == [] then vars
    else
      var before := FoldArgs(vars, args[..|args| - 1]);
      FoldArgGrows(before, args[|args| - 1]);
      FoldArg(before, args[|args| - 1])
  }

  /** One step of the fold adds at most one variable and removes none. */
  lemma FoldArgGrows(vars: CacheVars, arg: string)
    ensures |vars| <= |FoldArg(vars, arg)| <= |vars| + 1
  {
    if Definition(arg).Some? {
      var k := Definition(arg).value.0;
      var v := Definition(arg).value.1;
      assert |Dicts.Keys(Dicts.Put(vars, k, v))| == |Dicts.Put(vars, k, v)|;
      assert |Dicts.Keys(vars)| == |vars|;
    }
  }

  /** Folding in one more argument applies it to the cache folded so far. */
  lemma FoldStep(vars: CacheVars, args: seq<string>, i: nat)
    requires i < |args|
    ensures FoldArgs(vars, args[..i + 1]) == FoldArg(FoldArgs(vars, args[..i]), args[i])
  {
    assert args[..i + 1][..i] == args[..i];
  }

  /** The value the last argument in `args` that names `k` assigns to it, if any does. */
  function LastDefinition(args: seq<string>, k: string): Option<string>
    decreases |args|
  {
    if args == [] then None
    else match Definition(args[|args| - 1])
      case Some((k', v)) => if k' == k then Some(v) else LastDefinition(args[..|args| - 1], k)
      case None => LastDefinition(args[..|args| - 1], k)
  }

  /** Last writer wins: a variable holds what the last argument naming it says, or its base value. */
  lemma {:induction false} FoldLastWriterWins(vars: CacheVars, args: seq<string>, k: string)
    ensures Dicts.Lookup(FoldArgs(vars, args), k) ==
      if LastDefinition(args, k).Some? then LastDefinition(args, k) else Dicts.Lookup(vars, k)
    decreases |args|
  {
    if args != [] {
      FoldLastWriterWins(vars, args[..|args| - 1], k);
    }
  }

  /**
   * A rewritten variable keeps its position: the variables present before the fold stay in
   * front in their order, and no variable name appears twice.
   */
  lemma {:induction false} FoldKeepsPositions(vars: CacheVars, args: seq<string>)
    ensures Dicts.Keys(vars) <= Dicts.Keys(FoldArgs(vars, args))
    ensures Dicts.UniqueKeys(vars) ==> Dicts.UniqueKeys(FoldArgs(vars, args))
    decreases |args|
  {
    if args != [] {
      FoldKeepsPositions(vars, args[..|args| - 1]);
    }
  }

  /** Folding an argument list in two parts is folding the whole list. */
  lemma {:induction false} FoldArgsAppend(vars: CacheVars, a: seq<string>, b: seq<string>)
    ensures FoldArgs(vars, a + b) == FoldArgs(FoldArgs(vars, a), b)
    decreases |b|
  {
    if b == [] {
      assert a + b == a;
    } else {
      assert (a + b)[..|a + b| - 1] == a + b[..|b| - 1];
      FoldArgsAppend(vars, a, b[..|b| - 1]);
    }
  }

  // ---------------------------------------------------------------- rendering

  /** The values `_ctype` reads as booleans, after upper-casing. */
  predicate IsBoolWord(v: string) {
    Text.Upper(v) in ["ON", "OFF", "TRUE", "FALSE"]
  }

  /** Names of tool locations. */
  predicate IsToolKey(k: string) {
    Text.EndsWith(k, "_COMPILER") || k == "PYTHON_EXECUTABLE"
  }

  /** Names of directories, by suffix alone. */
  predicate IsPathKey(k: string) {
    Text.EndsWith(k, "_DIR") || Text.EndsWith(k, "_ROOT") || Text.EndsWith(k, "_PREFIX_PATH")
  }

  /**
   * `_ctype`: the cache type of variable `k` with value `v`. A boolean-looking value wins over
   * the name; tool names win over directory names. The explicit `CMAKE_PREFIX_PATH` test of
   * the source adds nothing to the `_PREFIX_PATH` suffix test, as the `PATH` clause shows.
   */
  function CType(k: string, v: string): (r: string)
    ensures r == "BOOL" <==> IsBoolWord(v)
    ensures r == "FILEPATH" <==> !IsBoolWord(v) && IsToolKey(k)
    ensures r == "PATH" <==> !IsBoolWord(v) && !IsToolKey(k) && IsPathKey(k)
    ensures r == "STRING" <==> !IsBoolWord(v) && !IsToolKey(k) && !IsPathKey(k)
  {
    assert Text.EndsWith("CMAKE_PREFIX_PATH", "_PREFIX_PATH");
    if IsBoolWord(v) then "BOOL"
    else if IsToolKey(k) then "FILEPATH"
    else if Text.EndsWith(k, "_DIR") || Text.EndsWith(k, "_ROOT") || Text.EndsWith(k, "_PREFIX_PATH") || k == "CMAKE_PREFIX_PATH" then "PATH"
    else "STRING"
  }

  /** What `_q` turns one character into. */
  function EscapeChar(c: char): string {
    if c == '\\' then "/" else if c == '"' then "\\\"" else [c]
  }

  /**
   * `_q`: backslashes become forward slashes, then double quotes are escaped, so the text can
   * sit between double quotes in CMake. Written one character at a time;
   * `QIsTwoPassReplace` shows it is the source's pair of `replace` calls.
   */
  function Q(s: string): (r: string)
    ensures WellEscaped(r)
    ensures Unescape(r) == Text.ReplaceChar(s, '\\', "/")
  {
    if s == [] then []
    else
      var e := EscapeChar(s[0]);
      var rest := Q(s[1..]);
      assert (e + rest)[|e|..] == rest;
      assert s[0] == '"' ==> (e + rest)[2..] == rest;
      e + rest
  }

  /**
   * `t` is a run of escape pairs `\"` and characters other than `\` and `"`: every backslash
   * starts an escaped quote and every quote is escaped.
   */
  predicate WellEscaped(t: string) {
    if t == [] then true
    else if t[0] == '\\' then |t| >= 2 && t[1] == '"' && WellEscaped(t[2..])
    else t[0] != '"' && WellEscaped(t[1..])
  }

  /** What CMake reads back from an escaped string: `\"` is a quote, everything else itself. */
  function Unescape(t: string): string {
    if t == [] then []
    else if |t| >= 2 && t[0] == '\\' && t[1] == '"' then "\"" + Unescape(t[2..])
    else [t[0]] + Unescape(t[1..])
  }

  /** The one-pass `Q` is the source's two chained `replace` calls. */
  lemma {:induction false} QIsTwoPassReplace(s: string)
    ensures Q(s) == Text.ReplaceChar(Text.ReplaceChar(s, '\\', "/"), '"', "\\\"")
  {
    if s != [] {
      QIsTwoPassReplace(s[1..]);
      var once := Text.ReplaceChar(s, '\\', "/");
      var first := if s[0] == '\\' then "/" else [s[0]];
      assert once == first + Text.ReplaceChar(s[1..], '\\', "/");
      assert once[0] == first[0] && once[1..] == Text.ReplaceChar(s[1..], '\\', "/");
    }
  }

  /** In an escaped string no backslash stands alone and no quote is bare. */
  lemma {:induction false} WellEscapedPointwise(t: string)
    requires WellEscaped(t)
    ensures forall i :: 0 <= i < |t| && t[i] == '\\' ==> i + 1 < |t| && t[i + 1] == '"'
    ensures forall i :: 0 <= i < |t| && t[i] == '"' ==> i > 0 && t[i - 1] == '\\'
    decreases |t|
  {
    if t != [] {
      var skip := if t[0] == '\\' then 2 else 1;
      WellEscapedPointwise(t[skip..]);
      forall i | skip <= i < |t|
        ensures t[i] == t[skip..][i - skip]
      {
      }
    }
  }

  /** One line of the init-cache file. */
  function CacheLine(k: string, v: string): (r: string)
    ensures StartsWith(r, "set(" + k + " \"")
    ensures Text.OccursAt(Q(v) + "\" CACHE " + CType(k, v), r, |k| + 6)
  {
    var head := "set(" + k + " \"";
    var body := Q(v) + "\" CACHE " + CType(k, v);
    var r := head + body + " \"\")";
    assert r[..|head|] == head;
    assert r[|head|..|head| + |body|] == body;
    assert r == "set(" + k + " \"" + Q(v) + "\" CACHE " + CType(k, v) + " \"\")";
    r
  }

  /** The lines for `vars`, one per variable, in the variables' order. */
  function CacheLines(vars: CacheVars): (r: seq<string>)
    ensures |r| == |vars|
    ensures forall i :: 0 <= i < |vars| ==> r[i] == CacheLine(vars[i].0, vars[i].1)
    decreases |vars|
  {
    if vars == [] then []
    else
      var init := CacheLines(vars[..|vars| - 1]);
      LinesExtend(vars, init);
      init + [CacheLine(vars[|vars| - 1].0, vars[|vars| - 1].1)]
  }

  /** Rendering one more variable appends its line. */
  lemma LinesStep(vars: CacheVars, k: nat)
    requires k < |vars|
    ensures CacheLines(vars[..k + 1]) == CacheLines(vars[..k]) + [CacheLine(vars[k].0, vars[k].1)]
  {
    assert vars[..k + 1][..k] == vars[..k];
  }

  /** The lines of all but the last variable, followed by the last one's line. */
  lemma LinesExtend(vars: CacheVars, init: seq<string>)
    requires vars != [] && |init| == |vars| - 1
    requires forall i :: 0 <= i < |init| ==> init[i] == CacheLine(vars[..|vars| - 1][i].0, vars[..|vars| - 1][i].1)
    ensures var r := init + [CacheLine(vars[|vars| - 1].0, vars[|vars| - 1].1)];
      forall i :: 0 <= i < |vars| ==> r[i] == CacheLine(vars[i].0, vars[i].1)
  {
    var r := init + [CacheLine(vars[|vars| - 1].0, vars[|vars| - 1].1)];
    forall i | 0 <= i < |vars|
      ensures r[i] == CacheLine(vars[i].0, vars[i].1)
    {
      if i < |init| {
        assert vars[..|vars| - 1][i] == vars[i];
      }
    }
  }

  /** A line names its variable right after `set(`. */
  lemma CacheLineNamesVariable(k: string, v: string)
    ensures StartsWith(CacheLine(k, v), "set(" + k + " \"")
  {
    PrefixOfConcat("set(" + k + " \"", Q(v), "\" CACHE ", CType(k, v), " \"\")");
  }

  /** A string starts with the first of the pieces it is concatenated from. */
  lemma PrefixOfConcat(head: string, a: string, b: string, c: string, d: string)
    ensures StartsWith(head + a + b + c + d, head)
  {
    assert (head + a + b + c + d)[..|head|] == head;
  }

  /** The file's text: the lines joined by newlines, with a final newline. */
  function CacheText(lines: seq<string>): (r: string)
    ensures |r| > 0 && r[|r| - 1] == '\n'
    ensures forall i :: 0 <= i < |lines| ==> Text.IsSubstring(lines[i], r)
  {
    var joined := Text.Join("\n", lines);
    Text.JoinContainsAll("\n", lines);
    assert Text.OccursAt(joined, joined + "\n", 0);
    forall i | 0 <= i < |lines| ensures Text.IsSubstring(lines[i], joined + "\n") {
      Text.SubstringTransitive(lines[i], joined, joined + "\n");
    }
    joined + "\n"
  }
}
