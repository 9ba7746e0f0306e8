/**
 * The few Python `str` operations the core relies on, written out over `seq<char>`:
 * `strip`, `split`, `split(sep)`, `re.split` over a character class, `lower`,
 * the `in` substring test, `count` and `join`.
 */
module Text {
  import opened Common

  type String = seq<char>

  /** Python's `str.isspace()` characters (the ones `strip()` and `split()` drop). */
  predicate IsSpace(c: char) {
    || c == ' ' || c == '\t' || c == '\n' || c == '\r' || c == '\U{0b}' || c == '\U{0c}'
    || ('\U{1c}' <= c <= '\U{1f}') || c == '\U{85}' || c == '\U{a0}' || c == '\U{1680}'
    || ('\U{2000}' <= c <= '\U{200a}') || c == '\U{2028}' || c == '\U{2029}'
    || c == '\U{202f}' || c == '\U{205f}' || c == '\U{3000}'
  }

  /** `s.lstrip(chars)` where `drop` tells which characters are stripped. */
  function StripLeft(s: String, drop: char -> bool): (r: String)
    ensures |r| <= |s| && r == s[|s| - |r|..]
    ensures r != [] ==> !drop(r[0])
    ensures forall i :: 0 <= i < |s| - |r| ==> drop(s[i])
  {
    if s != [] && drop(s[0]) then StripLeft(s[1..], drop) else s
  }

  /** `s.rstrip(chars)`. */
  function StripRight(s: String, drop: char -> bool): (r: String)
    ensures |r| <= |s| && r == s[..|r|]
    ensures r != [] ==> !drop(r[|r| - 1])
    ensures forall i :: |r| <= i < |s| ==> drop(s[i])
  {
    if s != [] && drop(s[|s| - 1]) then StripRight(s[..|s| - 1], drop) else s
  }

  /** `s.strip(chars)`. */
  function StripWith(s: String, drop: char -> bool): (r: String)
    ensures |r| <= |s|
    ensures r != [] ==> !drop(r[0]) && !drop(r[|r| - 1])
  {
    StripRight(StripLeft(s, drop), drop)
  }

  /** `s.strip()`: drop leading and trailing whitespace. */
  function Strip(s: String): (r: String)
    ensures |r| <= |s|
    ensures r != [] ==> !IsSpace(r[0]) && !IsSpace(r[|r| - 1])
  {
    StripWith(s, IsSpace)
  }

  lemma StripLeftNoop(s: String, drop: char -> bool)
    requires s != [] ==> !drop(s[0])
    ensures StripLeft(s, drop) == s
  {
  }

  lemma StripRightNoop(s: String, drop: char -> bool)
    requires s != [] ==> !drop(s[|s| - 1])
    ensures StripRight(s, drop) == s
  {
  }

  /** Stripping twice is stripping once. */
  lemma StripIdempotent(s: String)
    ensures Strip(Strip(s)) == Strip(s)
  {
    var t := Strip(s);
    StripLeftNoop(t, IsSpace);
    StripRightNoop(t, IsSpace);
  }

  /** A string is blank when `not s.strip()` holds. */
  predicate IsBlank(s: String) { Strip(s) == [] }

  /** `c.lower()`; only the ASCII letters are mapped. */
  function LowerChar(c: char): char {
    if 'A' <= c <= 'Z' then (c as int + 32) as char else c
  }

  /** `s.lower()`. */
  function Lower(s: String): (r: String)
    ensures |r| == |s|
    ensures forall i :: 0 <= i < |s| ==> r[i] == LowerChar(s[i])
  {
    seq(|s|, i requires 0 <= i < |s| => LowerChar(s[i]))
  }

  /** No character of `Lower(s)` is an ASCII capital. */
  lemma LowerHasNoCapital(s: String, c: char)
    requires 'A' <= c <= 'Z'
    ensures c !in Lower(s)
  {
    assert forall i :: 0 <= i < |s| ==> Lower(s)[i] != c;
  }

  /** Python's `needle in hay` for strings. */
  predicate Contains(hay: String, needle: String)
    decreases |hay|
  {
    needle <= hay || (hay != [] && Contains(hay[1..], needle))
  }

  lemma ContainsLength(hay: String, needle: String)
    requires Contains(hay, needle)
    ensures |needle| <= |hay|
    decreases |hay|
  {
    if !(needle <= hay) { ContainsLength(hay[1..], needle); }
  }

  /** An occurrence survives appending text after the haystack. */
  lemma {:induction false} ContainsExtend(a: String, b: String, x: String)
    requires Contains(a, x)
    ensures Contains(a + b, x)
    decreases |a|
  {
    if !(x <= a) {
      assert (a + b)[1..] == a[1..] + b;
      ContainsExtend(a[1..], b, x);
    }
  }

  /** An occurrence survives putting text before the haystack. */
  lemma {:induction false} ContainsShift(a: String, b: String, x: String)
    requires Contains(b, x)
    ensures Contains(a + b, x)
    decreases |a|
  {
    if a == [] {
      assert a + b == b;
    } else {
      assert (a + b)[1..] == a[1..] + b;
      ContainsShift(a[1..], b, x);
    }
  }

  /** A needle with a character the haystack lacks does not occur in it. */
  lemma NotContainsChar(hay: String, needle: String, c: char)
    requires c in needle && c !in hay
    ensures !Contains(hay, needle)
    decreases |hay|
  {
    var i :| 0 <= i < |needle| && needle[i] == c;
    assert !(needle <= hay) by {
      if i < |hay| { assert hay[i] != c; }
    }
    if hay != [] { NotContainsChar(hay[1..], needle, c); }
  }

  /** `hay.count(needle)`: non-overlapping occurrences, scanning from the left. */
  function Count(hay: String, needle: String): nat
    requires |needle| > 0
    decreases |hay|
  {
    if |hay| < |needle| then 0
    else if needle <= hay then 1 + Count(hay[|needle|..], needle)
    else Count(hay[1..], needle)
  }

  /** `s.split(sep)` for a non-empty separator. */
  function SplitOn(s: String, sep: String): (r: seq<String>)
    requires |sep| > 0
    ensures |r| >= 1
    decreases |s|
  {
    if |s| < |sep| then [s]
    else if sep <= s then [[]] + SplitOn(s[|sep|..], sep)
    else var rest := SplitOn(s[1..], sep); [[s[0]] + rest[0]] + rest[1..]
  }

  /** Without an occurrence of the separator, `split` gives the whole string back. */
  lemma SplitOnAbsent(s: String, sep: String)
    requires |sep| > 0 && !Contains(s, sep)
    ensures SplitOn(s, sep) == [s]
    decreases |s|
  {
    if |s| >= |sep| {
      SplitOnAbsent(s[1..], sep);
      assert [s[0]] + s[1..] == s;
    }
  }

  /** `s.split(sep, 1)[-1]`: what follows the first separator, or all of `s`. */
  function AfterFirst(s: String, sep: char): (r: String)
    ensures |r| <= |s|
    ensures sep !in s ==> r == s
  {
    if sep !in s then s
    else if s[0] == sep then s[1..]
    else AfterFirst(s[1..], sep)
  }

  /** `re.split('[...]', s)`: split at every character satisfying `isSep`, empties kept. */
  function SplitChars(s: String, isSep: char -> bool): (r: seq<String>)
    ensures |r| >= 1
  {
    if s == [] then [[]]
    else if isSep(s[0]) then [[]] + SplitChars(s[1..], isSep)
    else var rest := SplitChars(s[1..], isSep); [[s[0]] + rest[0]] + rest[1..]
  }

  /** `s.split()`: the maximal runs of non-whitespace characters. */
  function Words(s: String): (r: seq<String>)
    ensures forall w :: w in r ==> w != []
  {
    Filter(SplitChars(s, IsSpace), (w: String) => w != [])
  }

  /** `sep.join(parts)`. */
  function Join(parts: seq<String>, sep: String): (r: String)
    ensures parts == [] ==> r == []
  {
    if parts == [] then []
    else if |parts| == 1 then parts[0]
    else parts[0] + sep + Join(parts[1..], sep)
  }

  /** Every part occurs in the joined text. */
  lemma {:induction false} JoinContains(parts: seq<String>, sep: String, i: nat)
    requires i < |parts|
    ensures Contains(Join(parts, sep), parts[i])
  {
    if |parts| == 1 {
      assert parts[0] <= Join(parts, sep);
    } else if i == 0 {
      assert parts[0] <= parts[0] + (sep + Join(parts[1..], sep));
      assert parts[0] + sep + Join(parts[1..], sep) == parts[0] + (sep + Join(parts[1..], sep));
    } else {
      JoinContains(parts[1..], sep, i - 1);
      ContainsShift(parts[0] + sep, Join(parts[1..], sep), parts[i]);
    }
  }

  /** Decimal digits of a natural number, as Python's `str(n)`. */
  function NatToString(n: nat): (r: String)
    ensures |r| >= 1
    ensures forall c :: c in r ==> '0' <= c <= '9'
    decreases n
  {
    var d := ['0' + (n % 10) as char];
    if n < 10 then d else NatToString(n / 10) + d
  }

  /** Different numbers have different decimal representations. */
  lemma {:induction false} NatToStringInjective(n: nat, m: nat)
    requires NatToString(n) == NatToString(m)
    ensures n == m
    decreases n
  {
    var a, b := NatToString(n), NatToString(m);
    assert a[|a| - 1] == '0' + (n % 10) as char;
    assert b[|b| - 1] == '0' + (m % 10) as char;
    if n >= 10 && m >= 10 {
      assert NatToString(n / 10) == a[..|a| - 1] == b[..|b| - 1] == NatToString(m / 10);
      NatToStringInjective(n / 10, m / 10);
    }
  }

  /** Python's `str(n)` for any integer. */
  function IntToString(n: int): (r: String)
    ensures forall c :: c in r ==> c == '-' || '0' <= c <= '9'
  {
    if n < 0 then "-" + NatToString(-n) else NatToString(n)
  }
}
