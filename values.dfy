/**
 * The loosely typed configuration tree: what a TOML parser hands back, and what the
 * configuration code reads, indexes and mutates with Python's dynamic semantics.
 */
module Values {
  import opened Wrappers
  import Text
  import Dicts

  /**
   * A TOML value as Python sees it. Tables keep their keys in insertion order.
   * `Other` stands for a float or a date-time, carried as its `str()` text and its
   * truth value; the configuration code never looks inside one.
   */
  datatype Value =
    | Bool(b: bool)
    | Int(i: int)
    | Str(s: string)
    | List(items: seq<Value>)
    | Table(entries: seq<(string, Value)>)
    | Other(text: string, truthy: bool)

  /** The entries of a table, such as the whole configuration tree. */
  type Entries = seq<(string, Value)>

  /** Python truthiness (`if v:`). */
  predicate Truthy(v: Value) {
    match v
    case Bool(b) => b
    case Int(i) => i != 0
    case Str(s) => s != []
    case List(items) => items != []
    case Table(entries) => entries != []
    case Other(_, t) => t
  }

  /** Truthiness of the result of `d.get(k)`, where a missing key gives the falsy `None`. */
  predicate TruthyOpt(v: Option<Value>) {
    v.Some? && Truthy(v.value)
  }

  /** `str(v)`, which is also what an f-string interpolates. */
  function PyStr(v: Value): string
    decreases v, 0
  {
    match v
    case Bool(b) => if b then "True" else "False"
    case Int(i) => Text.IntToString(i)
    case Str(s) => s
    case Other(text, _) => text
    case List(items) =>
      "[" + Text.Join(", ", seq(|items|, i requires 0 <= i < |items| => Repr(items[i]))) + "]"
    case Table(entries) =>
      "{" + Text.Join(", ", seq(|entries|, i requires 0 <= i < |entries| =>
        Text.StrRepr(entries[i].0) + ": " + Repr(entries[i].1))) + "}"
  }

  /** `repr(v)` as it appears inside the `str()` of a list or a table. */
  function Repr(v: Value): string
    decreases v, 1
  {
    if v.Str? then Text.StrRepr(v.s) else PyStr(v)
  }

  /** `c[k]`: the value under `k` of a table; anything else cannot be indexed by a string. */
  function Subscript(c: Value, k: string): (r: Result<Value>)
    ensures r.Success? <==> c.Table? && k in Dicts.Keys(c.entries)
    ensures r.Success? ==> Dicts.Lookup(c.entries, k) == Some(r.value)
    ensures r.Failure? ==> r.error == if c.Table? then KeyError(k) else TypeError
  {
    if !c.Table? then Failure(TypeError)
    else match Dicts.Lookup(c.entries, k)
      case Some(v) => Success(v)
      case None => Failure(KeyError(k))
  }

  /**
   * `c[k]` for each of `keys` in turn, stopping at the first that fails: the values read,
   * in the order of the keys.
   */
  function SubscriptAll(c: Value, keys: seq<string>): (r: Result<seq<Value>>)
    ensures r.Success? <==> (keys == [] || c.Table?) && forall k :: k in keys ==> k in Dicts.Keys(c.entries)
    ensures r.Success? ==> |r.value| == |keys|
    ensures r.Success? ==> forall i :: 0 <= i < |keys| ==> Subscript(c, keys[i]) == Success(r.value[i])
  {
    if keys == [] then Success([])
    else
      assert keys[0] in keys;
      var v :- Subscript(c, keys[0]);
      assert forall k :: k in keys ==> k == keys[0] || k in keys[1..];
      var rest :- SubscriptAll(c, keys[1..]);
      assert forall i :: 1 <= i < |keys| ==> keys[i] == keys[1..][i - 1];
      Success([v] + rest)
  }

  /** `c.get(k)`: only tables have a `get` method. */
  function Get(c: Value, k: string): (r: Result<Option<Value>>)
    ensures r.Success? <==> c.Table?
    ensures r.Success? ==> r.value == Dicts.Lookup(c.entries, k)
    ensures r.Failure? ==> r.error == AttributeError
  {
    if c.Table? then Success(Dicts.Lookup(c.entries, k)) else Failure(AttributeError)
  }

  /** `c.get(k, default)`. */
  function GetOr(c: Value, k: string, default: Value): (r: Result<Value>)
    ensures r.Success? <==> c.Table?
    ensures r.Success? && k in Dicts.Keys(c.entries) ==> Dicts.Lookup(c.entries, k) == Some(r.value)
    ensures r.Success? && k !in Dicts.Keys(c.entries) ==> r.value == default
    ensures r.Failure? ==> r.error == AttributeError
  {
    if !c.Table? then Failure(AttributeError)
    else match Dicts.Lookup(c.entries, k)
      case Some(v) => Success(v)
      case None => Success(default)
  }

  /** `k in c`: key membership for a table, element membership for a list, substring for a string. */
  function In(k: string, c: Value): (r: Result<bool>)
    ensures c.Table? ==> r == Success(k in Dicts.Keys(c.entries))
    ensures r.Failure? <==> c.Bool? || c.Int? || c.Other?
  {
    match c
    case Table(entries) => Success(k in Dicts.Keys(entries))
    case List(items) => Success(Str(k) in items)
    case Str(s) => Success(Text.Contains(s, k))
    case _ => Failure(TypeError)
  }

  /** `v.lower()`: only strings have it. */
  function LowerValue(v: Value): (r: Result<string>)
    ensures r.Success? <==> v.Str?
    ensures r.Success? ==> r.value == Text.Lower(v.s)
  {
    if v.Str? then Success(Text.Lower(v.s)) else Failure(AttributeError)
  }

  /** `c[k] = v` on a table value, which is updated in place in the source. */
  function SetItem(c: Value, k: string, v: Value): (r: Result<Value>)
    ensures r.Success? <==> c.Table?
    ensures r.Success? ==> r.value == Table(Dicts.Put(c.entries, k, v))
    ensures r.Failure? ==> r.error == TypeError
  {
    if c.Table? then Success(Table(Dicts.Put(c.entries, k, v))) else Failure(TypeError)
  }

  /** The elements produced by iterating `v`: list items, the characters of a string, or table keys. */
  function Iterate(v: Value): (r: Result<seq<Value>>)
    ensures v.List? ==> r == Success(v.items)
    ensures r.Failure? <==> v.Bool? || v.Int? || v.Other?
    ensures v.Str? ==> |r.value| == |v.s| && forall i :: 0 <= i < |v.s| ==> r.value[i] == Str([v.s[i]])
    ensures v.Table? ==> |r.value| == |v.entries| && forall i :: 0 <= i < |v.entries| ==> r.value[i] == Str(v.entries[i].0)
  {
    match v
    case List(items) => Success(items)
    case Str(s) => Success(seq(|s|, i requires 0 <= i < |s| => Str([s[i]])))
    case Table(entries) =>
      var keys := Dicts.Keys(entries);
      Success(seq(|keys|, i requires 0 <= i < |keys| => Str(keys[i])))
    case _ => Failure(TypeError)
  }

  /** The strings inside `vs`, when every element is a string. */
  function AsStrings(vs: seq<Value>): (r: Option<seq<string>>)
    ensures r.Some? <==> forall i :: 0 <= i < |vs| ==> vs[i].Str?
    ensures r.Some? ==> |r.value| == |vs| && forall i :: 0 <= i < |vs| ==> r.value[i] == vs[i].s
  {
    if vs == [] then Some([])
    else if !vs[0].Str? then None
    else match AsStrings(vs[1..])
      case None => None
      case Some(rest) => Some([vs[0].s] + rest)
  }

  /** `sep.join(v)`: the elements of `v` must all be strings. */
  function JoinValues(sep: string, v: Value): (r: Result<string>)
    ensures v.List? && AsStrings(v.items).Some? ==> r == Success(Text.Join(sep, AsStrings(v.items).value))
  {
    var items :- Iterate(v);
    match AsStrings(items)
    case Some(strs) => Success(Text.Join(sep, strs))
    case None => Failure(TypeError)
  }
}
