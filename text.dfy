/** The string operations of Python's `str` that the configuration code uses. */
module Text {
  import opened Wrappers

  /** `c.lower()` on ASCII letters; other characters are unchanged. */
  function LowerChar(c: char): char {
    if 'A' <= c <= 'Z' then (c as int - 'A' as int + 'a' as int) as char else c
  }

  /** `c.upper()` on ASCII letters; other characters are unchanged. */
  function UpperChar(c: char): char {
    if 'a' <= c <= 'z' then (c as int - 'a' as int + 'A' as int) as char else c
  }

  function Lower(s: string): (r: string)
    ensures |r| == |s|
    ensures forall i :: 0 <= i < |s| ==> r[i] == LowerChar(s[i])
  {
    if s == [] then [] else [LowerChar(s[0])] + Lower(s[1..])
  }

  function Upper(s: string): (r: string)
    ensures |r| == |s|
    ensures forall i :: 0 <= i < |s| ==> r[i] == UpperChar(s[i])
  {
    if s == [] then [] else [UpperChar(s[0])] + Upper(s[1..])
  }

  /** The characters below U+0100 for which Python's `str.isspace()` holds. */
  predicate IsSpace(c: char) {
    c == ' ' || '\t' <= c <= '\r' || '\U{1c}' <= c <= '\U{1f}' || c == '\U{85}' || c == '\U{a0}'
  }

  /** `s` occurs in `t` starting at index `i`. */
  predicate OccursAt(s: string, t: string, i: nat) {
    i + |s| <= |t| && t[i..i + |s|] == s
  }

  /** `s` occurs in `t` as a contiguous run of characters. */
  ghost predicate IsSubstring(s: string, t: string) {
    exists i: nat :: OccursAt(s, t, i)
  }

  /** Python's `sub in s` for strings. */
  function Contains(s: string, sub: string): (r: bool)
    ensures r <==> IsSubstring(sub, s)
    decreases |s|
  {
    if sub <= s then
      assert OccursAt(sub, s, 0);
      true
    else if s == [] then
      false
    else
      var r := Contains(s[1..], sub);
      if r then
        var i: nat :| OccursAt(sub, s[1..], i);
        assert OccursAt(sub, s, i + 1);
        true
      else
        OccursInTail(sub, s);
        false
  }

  /** An occurrence past the first character is an occurrence in the tail. */
  lemma OccursInTail(sub: string, s: string)
    requires s != []
    ensures forall i: nat :: OccursAt(sub, s, i) ==> i == 0 || OccursAt(sub, s[1..], i - 1)
  {
    forall i: nat | OccursAt(sub, s, i) && i != 0
      ensures OccursAt(sub, s[1..], i - 1)
    {
      assert s[1..][i - 1..i - 1 + |sub|] == s[i..i + |sub|];
    }
  }

  /** `s.strip()`: drops leading and trailing white space. */
  function Strip(s: string): (r: string)
    ensures |r| <= |s| && IsSubstring(r, s)
    ensures r != [] ==> !IsSpace(r[0]) && !IsSpace(r[|r| - 1])
    ensures (forall i :: 0 <= i < |s| ==> IsSpace(s[i])) ==> r == []
  {
    var t := StripStart(s);
    var r := StripEnd(t);
    assert OccursAt(r, s, |s| - |t|);
    r
  }

  function StripStart(s: string): (r: string)
    ensures |r| <= |s| && r == s[|s| - |r|..]
    ensures r != [] ==> !IsSpace(r[0])
    ensures forall i :: 0 <= i < |s| - |r| ==> IsSpace(s[i])
  {
    if s != [] && IsSpace(s[0]) then
      var r := StripStart(s[1..]);
      assert s[1..][|s| - 1 - |r|..] == s[|s| - |r|..];
      assert forall i :: 1 <= i < |s| - |r| ==> s[i] == s[1..][i - 1];
      r
    else s
  }

  function StripEnd(s: string): (r: string)
    ensures |r| <= |s| && r == s[..|r|]
    ensures r != [] ==> !IsSpace(r[|r| - 1])
    ensures forall i :: |r| <= i < |s| ==> IsSpace(s[i])
  {
    if s != [] && IsSpace(s[|s| - 1]) then
      var r := StripEnd(s[..|s| - 1]);
      assert s[..|s| - 1][..|r|] == s[..|r|];
      assert forall i :: |r| <= i < |s| - 1 ==> s[i] == s[..|s| - 1][i];
      r
    else s
  }

  /** `s.endswith(suffix)`. */
  predicate EndsWith(s: string, suffix: string) {
    |suffix| <= |s| && s[|s| - |suffix|..] == suffix
  }

  /** `sep.join(parts)`. */
  function Join(sep: string, parts: seq<string>): string {
    if parts == [] then []
    else if |parts| == 1 then parts[0]
    else parts[0] + sep + Join(sep, parts[1..])
  }

  /** The index of the first occurrence of `c` in `s`, as `s.find(c)` reports it. */
  function IndexOf(s: string, c: char): (r: Option<nat>)
    ensures r.None? <==> c !in s
    ensures r.Some? ==> r.value < |s| && s[r.value] == c && c !in s[..r.value]
  {
    if s == [] then None
    else if s[0] == c then Some(0)
    else match IndexOf(s[1..], c)
      case None => None
      case Some(i) =>
        assert s[..i + 1] == [s[0]] + s[1..][..i];
        Some(i + 1)
  }

  /** `s.replace(c, rep)` for a one-character pattern. */
  function ReplaceChar(s: string, c: char, rep: string): (r: string)
    ensures c !in rep ==> c !in r
  {
    if s == [] then []
    else (if s[0] == c then rep else [s[0]]) + ReplaceChar(s[1..], c, rep)
  }

  function DigitChar(d: nat): char
    requires d < 10
  {
    "0123456789"[d]
  }

  function NatToString(n: nat): string {
    if n < 10 then [DigitChar(n)] else NatToString(n / 10) + [DigitChar(n % 10)]
  }

  /** `str(i)` for an integer. */
  function IntToString(i: int): string {
    if i < 0 then "-" + NatToString(-i) else NatToString(i)
  }

  /** Every part handed to `Join` occurs in the joined string. */
  lemma {:induction false} JoinContainsPart(sep: string, parts: seq<string>, k: nat)
    requires k < |parts|
    ensures IsSubstring(parts[k], Join(sep, parts))
  {
    var j := Join(sep, parts);
    if |parts| == 1 {
      assert OccursAt(parts[0], j, 0);
    } else if k == 0 {
      assert OccursAt(parts[0], j, 0);
    } else {
      var rest := Join(sep, parts[1..]);
      JoinContainsPart(sep, parts[1..], k - 1);
      var i: nat :| OccursAt(parts[1..][k - 1], rest, i);
      var off := |parts[0]| + |sep|;
      assert j == parts[0] + sep + rest;
      assert j[off + i..off + i + |parts[k]|] == rest[i..i + |parts[k]|];
      assert OccursAt(parts[k], j, off + i);
    }
  }

  /** Every part handed to `Join` occurs in the joined string, whatever the separator. */
  lemma JoinContainsAll(sep: string, parts: seq<string>)
    ensures forall k :: 0 <= k < |parts| ==> IsSubstring(parts[k], Join(sep, parts))
  {
    forall k | 0 <= k < |parts| ensures IsSubstring(parts[k], Join(sep, parts)) {
      JoinContainsPart(sep, parts, k);
    }
  }

  /** A substring of a substring is a substring. */
  lemma SubstringTransitive(a: string, b: string, c: string)
    requires IsSubstring(a, b) && IsSubstring(b, c)
    ensures IsSubstring(a, c)
  {
    var i: nat :| OccursAt(a, b, i);
    var j: nat :| OccursAt(b, c, j);
    forall k | 0 <= k < |a|
      ensures c[j + i..j + i + |a|][k] == a[k]
    {
      assert a[k] == b[i + k] == c[j + i + k];
    }
    assert OccursAt(a, c, j + i);
  }

  /** A string occurs in any string that ends with it. */
  lemma SuffixIsSubstring(a: string, b: string)
    ensures IsSubstring(b, a + b)
  {
    assert OccursAt(b, a + b, |a|);
  }

  /** A string occurs in any string that starts with it. */
  lemma PrefixIsSubstring(a: string, b: string)
    ensures IsSubstring(a, a + b)
  {
    assert OccursAt(a, a + b, 0);
  }

  /** The quote `repr` puts around a string: a double quote only when the text holds a single quote and no double quote. */
  function ReprQuote(s: string): (q: char)
    ensures q == '"' <==> '\'' in s && '"' !in s
    ensures q == '\'' || q == '"'
  {
    if '\'' in s && '"' !in s then '"' else '\''
  }

  /** A lower-case hexadecimal digit. */
  function HexDigit(n: nat): char
    requires n < 16
  {
    "0123456789abcdef"[n]
  }

  /** The value of a lower-case hexadecimal digit; anything else is read as 0. */
  function HexValue(d: char): (n: nat)
    ensures n < 16
  {
    if '0' <= d <= '9' then d as int - '0' as int
    else if 'a' <= d <= 'f' then d as int - 'a' as int + 10
    else 0
  }

  /**
   * The characters below U+0100 that `repr` writes as `\xNN`: the control characters other
   * than tab, newline and carriage return, DEL, the C1 controls, the no-break space and the
   * soft hyphen.
   */
  predicate HexEscaped(c: char) {
    (c as int < 32 && c != '\t' && c != '\n' && c != '\r')
    || (127 <= c as int <= 160) || c as int == 173
  }

  /** How `repr` writes one character of a string quoted with `q`. */
  function ReprChar(c: char, q: char): string {
    if c == '\\' || c == q then ['\\', c]
    else if c == '\n' then "\\n"
    else if c == '\r' then "\\r"
    else if c == '\t' then "\\t"
    else if HexEscaped(c) then "\\x" + [HexDigit(c as int / 16), HexDigit(c as int % 16)]
    else [c]
  }

  /** The characters of a string as `repr` writes them between quotes `q`. */
  function ReprBody(s: string, q: char): string {
    if s == [] then [] else ReprChar(s[0], q) + ReprBody(s[1..], q)
  }

  /**
   * Reading back the text between the quotes of a `repr`: an escape `\n`, `\r`, `\t` or
   * `\xNN` stands for its character, a backslash before anything else for that character.
   */
  function ReadBody(t: string): string
    decreases |t|
  {
    if t == [] then []
    else if t[0] == '\\' && |t| >= 2 then
      if t[1] == 'x' && |t| >= 4 then [(HexValue(t[2]) * 16 + HexValue(t[3])) as char] + ReadBody(t[4..])
      else if t[1] == 'n' then ['\n'] + ReadBody(t[2..])
      else if t[1] == 'r' then ['\r'] + ReadBody(t[2..])
      else if t[1] == 't' then ['\t'] + ReadBody(t[2..])
      else [t[1]] + ReadBody(t[2..])
    else [t[0]] + ReadBody(t[1..])
  }

  /** `repr(s)` for a string: the escaped text between the chosen quotes. */
  function StrRepr(s: string): (r: string)
    ensures |r| >= 2 && r[0] == r[|r| - 1] == ReprQuote(s)
    ensures ReadBody(r[1..|r| - 1]) == s
  {
    var q := ReprQuote(s);
    var body := ReprBody(s, q);
    ReprBodyReadsBack(s, q);
    var r := [q] + body + [q];
    assert r[1..|r| - 1] == body;
    r
  }

  /** Reading back one written character leaves what follows it to be read. */
  lemma ReprCharReadsBack(c: char, q: char, rest: string)
    requires q == '\'' || q == '"'
    ensures ReadBody(ReprChar(c, q) + rest) == [c] + ReadBody(rest)
  {
    var t := ReprChar(c, q) + rest;
    if c == '\\' || c == q {
      assert t[2..] == rest;
    } else if c == '\n' || c == '\r' || c == '\t' {
      assert t[2..] == rest;
    } else if HexEscaped(c) {
      HexEscapeReadsBack(c, rest);
    } else {
      assert t[1..] == rest;
    }
  }

  /** A `\xNN` escape reads back as its character. */
  lemma HexEscapeReadsBack(c: char, rest: string)
    requires HexEscaped(c)
    ensures ReadBody("\\x" + [HexDigit(c as int / 16), HexDigit(c as int % 16)] + rest) == [c] + ReadBody(rest)
  {
    var n := c as int;
    var t := "\\x" + [HexDigit(n / 16), HexDigit(n % 16)] + rest;
    HexDigitReadsBack(n / 16);
    HexDigitReadsBack(n % 16);
    assert t[0] == '\\' && t[1] == 'x' && t[2] == HexDigit(n / 16) && t[3] == HexDigit(n % 16);
    assert t[4..] == rest;
  }

  /** A hexadecimal digit reads back as its value. */
  lemma HexDigitReadsBack(n: nat)
    requires n < 16
    ensures HexValue(HexDigit(n)) == n
  {
  }

  /** The written characters of a string read back as that string. */
  lemma {:induction false} ReprBodyReadsBack(s: string, q: char)
    requires q == '\'' || q == '"'
    ensures ReadBody(ReprBody(s, q)) == s
  {
    if s != [] {
      ReprCharReadsBack(s[0], q, ReprBody(s[1..], q));
      ReprBodyReadsBack(s[1..], q);
    }
  }
}
