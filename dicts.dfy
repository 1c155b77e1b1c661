/** Python dictionaries with string keys, which keep their keys in insertion order. */
module Dicts {
  import opened Wrappers

  /** The keys of `d`, in insertion order (`list(d)`). */
  function Keys<V>(d: seq<(string, V)>): (r: seq<string>)
    ensures |r| == |d|
    ensures forall i :: 0 <= i < |d| ==> r[i] == d[i].0
  {
    if d == [] then [] else [d[0].0] + Keys(d[1..])
  }

  /** `d.get(k)`: the value stored under `k`, if any. */
  function Lookup<V>(d: seq<(string, V)>, k: string): (r: Option<V>)
    ensures r.None? <==> k !in Keys(d)
  {
    if d == [] then None
    else if d[0].0 == k then Some(d[0].1)
    else
      assert Keys(d) == [d[0].0] + Keys(d[1..]);
      Lookup(d[1..], k)
  }

  /** No key occurs twice, as in every Python dict. */
  predicate UniqueKeys<V>(d: seq<(string, V)>) {
    d == [] || (d[0].0 !in Keys(d[1..]) && UniqueKeys(d[1..]))
  }

  /**
   * `d[k] = v`: an existing key keeps its position and takes the new value;
   * a new key is appended at the end. No other entry changes.
   */
  function Put<V>(d: seq<(string, V)>, k: string, v: V): (r: seq<(string, V)>)
    ensures Lookup(r, k) == Some(v)
    ensures forall j :: j != k ==> Lookup(r, j) == Lookup(d, j)
    ensures Keys(r) == if k in Keys(d) then Keys(d) else Keys(d) + [k]
    ensures UniqueKeys(d) ==> UniqueKeys(r)
  {
    if d == [] then
      Cons((k, v), []);
      [(k, v)]
    else if d[0].0 == k then
      PutFront(d, v);
      [(k, v)] + d[1..]
    else
      var rest := Put(d[1..], k, v);
      PutBehindLookups(d, rest, k, v);
      PutBehindKeys(d, rest, k);
      [d[0]] + rest
  }

  /** Keys, lookups and uniqueness of a dict with one more entry in front. */
  lemma Cons<V>(e: (string, V), d: seq<(string, V)>)
    ensures Keys([e] + d) == [e.0] + Keys(d)
    ensures Lookup([e] + d, e.0) == Some(e.1)
    ensures forall j :: j != e.0 ==> Lookup([e] + d, j) == Lookup(d, j)
    ensures UniqueKeys([e] + d) <==> e.0 !in Keys(d) && UniqueKeys(d)
  {
    assert ([e] + d)[1..] == d;
  }

  /** Storing under the first key replaces the first value. */
  lemma PutFront<V>(d: seq<(string, V)>, v: V)
    requires d != []
    ensures var r := [(d[0].0, v)] + d[1..];
      && Lookup(r, d[0].0) == Some(v)
      && (forall j :: j != d[0].0 ==> Lookup(r, j) == Lookup(d, j))
      && Keys(r) == Keys(d)
      && (UniqueKeys(d) ==> UniqueKeys(r))
  {
    Cons((d[0].0, v), d[1..]);
  }

  /** Storing `k` behind a first entry under another key: the lookups. */
  lemma PutBehindLookups<V>(d: seq<(string, V)>, rest: seq<(string, V)>, k: string, v: V)
    requires d != [] && d[0].0 != k
    requires Lookup(rest, k) == Some(v) && forall j :: j != k ==> Lookup(rest, j) == Lookup(d[1..], j)
    ensures Lookup([d[0]] + rest, k) == Some(v)
    ensures forall j :: j != k ==> Lookup([d[0]] + rest, j) == Lookup(d, j)
  {
    Cons(d[0], rest);
  }

  /** Storing `k` behind a first entry under another key: the keys and their uniqueness. */
  lemma PutBehindKeys<V>(d: seq<(string, V)>, rest: seq<(string, V)>, k: string)
    requires d != [] && d[0].0 != k
    requires Keys(rest) == if k in Keys(d[1..]) then Keys(d[1..]) else Keys(d[1..]) + [k]
    requires UniqueKeys(d[1..]) ==> UniqueKeys(rest)
    ensures Keys([d[0]] + rest) == if k in Keys(d) then Keys(d) else Keys(d) + [k]
    ensures UniqueKeys(d) ==> UniqueKeys([d[0]] + rest)
  {
    Cons(d[0], rest);
    if k !in Keys(d[1..]) {
      AppendAssociates([d[0].0], Keys(d[1..]), [k]);
    }
  }

  lemma AppendAssociates(a: seq<string>, b: seq<string>, c: seq<string>)
    ensures a + (b + c) == a + b + c
  {
  }

  /** In a dict without repeated keys, each entry is what a lookup of its key finds. */
  lemma {:induction false} LookupEntry<V>(d: seq<(string, V)>, i: nat)
    requires UniqueKeys(d) && i < |d|
    ensures Lookup(d, d[i].0) == Some(d[i].1)
  {
    if i > 0 {
      assert d[1..][i - 1] == d[i];
      assert d[i].0 in Keys(d[1..]);
      LookupEntry(d[1..], i - 1);
    }
  }

  /** Keys that are pairwise different make a dict without repeated keys. */
  lemma {:induction false} UniqueKeysFromDistinct<V>(d: seq<(string, V)>)
    requires forall i, j :: 0 <= i < j < |d| ==> d[i].0 != d[j].0
    ensures UniqueKeys(d)
  {
    if d != [] {
      assert forall i, j :: 0 <= i < j < |d[1..]| ==> d[1..][i].0 == d[i + 1].0 && d[1..][j].0 == d[j + 1].0;
      UniqueKeysFromDistinct(d[1..]);
    }
  }

  /** Storing the value a key already has changes nothing. */
  lemma {:induction false} PutSame<V>(d: seq<(string, V)>, k: string, v: V)
    requires UniqueKeys(d) && Lookup(d, k) == Some(v)
    ensures Put(d, k, v) == d
  {
    if d[0].0 != k {
      assert Keys(d) == [d[0].0] + Keys(d[1..]);
      PutSame(d[1..], k, v);
    }
  }

  /** A lookup passes over leading entries under other keys. */
  lemma {:induction false} LookupSkip<V>(d: seq<(string, V)>, k: string, i: nat)
    requires i <= |d| && forall j :: 0 <= j < i ==> d[j].0 != k
    ensures Lookup(d, k) == Lookup(d[i..], k)
  {
    if i > 0 {
      LookupSkip(d, k, i - 1);
      var tail := d[i - 1..];
      assert tail[0].0 != k && tail[1..] == d[i..];
    }
  }

  /** The entry at position `i` is what a lookup finds when no earlier entry has its key. */
  lemma LookupAt<V>(d: seq<(string, V)>, i: nat)
    requires i < |d| && forall j :: 0 <= j < i ==> d[j].0 != d[i].0
    ensures Lookup(d, d[i].0) == Some(d[i].1)
  {
    LookupSkip(d, d[i].0, i);
    assert d[i..][0] == d[i];
  }
}
