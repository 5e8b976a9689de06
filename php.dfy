/**
 * The few PHP string primitives the plugin relies on, with their PHP
 * semantics written out: `empty()` on a string, `trim()` with its default
 * character list, `explode()` on a one-character separator, and the decimal
 * rendering of an integer used by string interpolation.
 */
module Php {

  /** PHP's `empty()` applied to a string: true for "" and also for "0". */
  predicate IsEmpty(s: string) {
    s == "" || s == "0"
  }

  /** The characters `trim()` strips by default: space, tab, LF, CR, NUL and vertical tab. */
  predicate IsTrimmable(c: char) {
    c == ' ' || c == '\t' || c == '\n' || c == '\r' || c == 0 as char || c == 11 as char
  }

  predicate AllTrimmable(s: string) {
    forall i :: 0 <= i < |s| ==> IsTrimmable(s[i])
  }

  /** `ltrim()`: `s` without its longest all-trimmable prefix. */
  function TrimLeft(s: string): (r: string)
    ensures |r| <= |s| && r == s[|s| - |r|..]
    ensures AllTrimmable(s[..|s| - |r|])
    ensures r == [] || !IsTrimmable(r[0])
  {
    if s != [] && IsTrimmable(s[0]) then TrimLeft(s[1..]) else s
  }

  /** `rtrim()`: `s` without its longest all-trimmable suffix. */
  function TrimRight(s: string): (r: string)
    ensures |r| <= |s| && r == s[..|r|]
    ensures AllTrimmable(s[|r|..])
    ensures r == [] || !IsTrimmable(r[|r| - 1])
  {
    if s != [] && IsTrimmable(s[|s| - 1]) then TrimRight(s[..|s| - 1]) else s
  }

  /** `trim()`: strips trimmable characters from both ends. */
  function Trim(s: string): (r: string)
    ensures |r| <= |s|
    ensures r == [] || (!IsTrimmable(r[0]) && !IsTrimmable(r[|r| - 1]))
    ensures forall c :: c in r ==> c in s
  {
    var l := TrimLeft(s);
    var r := TrimRight(l);
    forall c | c in r
      ensures c in s
    {
      var i :| 0 <= i < |r| && r[i] == c;
      assert r[i] == l[i] == s[|s| - |l| + i];
    }
    r
  }

  /**
   * `trim()` is characterised by what it keeps: padding a string whose ends
   * are not trimmable with trimmable characters on either side and trimming
   * gives the string back.
   */
  lemma {:induction false} TrimOfPadded(pre: string, s: string, post: string)
    requires AllTrimmable(pre) && AllTrimmable(post)
    requires s == [] ==> post == []
    requires s != [] ==> !IsTrimmable(s[0]) && !IsTrimmable(s[|s| - 1])
    ensures Trim(pre + s + post) == s
  {
    assert pre + s + post == pre + (s + post);
    TrimLeftOfPadded(pre, s + post);
    TrimRightOfPadded(s, post);
  }

  lemma {:induction false} TrimLeftOfPadded(pre: string, s: string)
    requires AllTrimmable(pre)
    requires s == [] || !IsTrimmable(s[0])
    ensures TrimLeft(pre + s) == s
    decreases |pre|
  {
    if pre != [] {
      assert (pre + s)[1..] == pre[1..] + s;
      TrimLeftOfPadded(pre[1..], s);
    }
  }

  lemma {:induction false} TrimRightOfPadded(s: string, post: string)
    requires AllTrimmable(post)
    requires s == [] || !IsTrimmable(s[|s| - 1])
    ensures TrimRight(s + post) == s
    decreases |post|
  {
    if post != [] {
      assert (s + post)[..|s + post| - 1] == s + post[..|post| - 1];
      TrimRightOfPadded(s, post[..|post| - 1]);
    }
  }

  /** PHP's `implode()` with a one-character glue; the inverse of `Explode`. */
  function Join(sep: char, parts: seq<string>): string
    requires |parts| >= 1
  {
    if |parts| == 1 then parts[0]
    else Join(sep, parts[..|parts| - 1]) + [sep] + parts[|parts| - 1]
  }

  /**
   * PHP's `explode()` on a one-character separator: the maximal
   * separator-free pieces of `s`, in order. There is always at least one
   * piece (the empty string splits into one empty piece), and joining the
   * pieces with the separator gives `s` back.
   */
  function Explode(sep: char, s: string): (parts: seq<string>)
    ensures |parts| >= 1
    ensures forall k :: 0 <= k < |parts| ==> sep !in parts[k]
    ensures Join(sep, parts) == s
  {
    if s == [] then [[]]
    else
      var init := Explode(sep, s[..|s| - 1]);
      assert s == s[..|s| - 1] + [s[|s| - 1]];
      JoinFeed(sep, init, s[|s| - 1]);
      Feed(sep, init, s[|s| - 1])
  }

  /** One step of `Explode`: a separator opens a new piece, any other character extends the last one. */
  function Feed(sep: char, parts: seq<string>, c: char): (r: seq<string>)
    requires |parts| >= 1
    requires forall k :: 0 <= k < |parts| ==> sep !in parts[k]
    ensures |r| >= 1
    ensures forall k :: 0 <= k < |r| ==> sep !in r[k]
  {
    if c == sep then parts + [[]]
    else parts[..|parts| - 1] + [parts[|parts| - 1] + [c]]
  }

  lemma JoinFeed(sep: char, parts: seq<string>, c: char)
    requires |parts| >= 1
    requires forall k :: 0 <= k < |parts| ==> sep !in parts[k]
    ensures Join(sep, Feed(sep, parts, c)) == Join(sep, parts) + [c]
  {
    var q := Feed(sep, parts, c);
    if c == sep {
      assert q[..|q| - 1] == parts;
    } else if |parts| > 1 {
      assert q[..|q| - 1] == parts[..|parts| - 1];
    }
  }

  lemma FeedAfter(sep: char, front: seq<string>, back: seq<string>, c: char)
    requires |back| >= 1
    requires forall k :: 0 <= k < |front| ==> sep !in front[k]
    requires forall k :: 0 <= k < |back| ==> sep !in back[k]
    ensures Feed(sep, front + back, c) == front + Feed(sep, back, c)
  {
    var all := front + back;
    assert forall k :: 0 <= k < |all| ==> sep !in all[k];
    if c != sep {
      assert all[..|all| - 1] == front + back[..|back| - 1];
    }
  }

  /** A string without the separator is a single piece. */
  lemma {:induction false} ExplodeWithoutSeparator(sep: char, s: string)
    requires sep !in s
    ensures Explode(sep, s) == [s]
  {
    if s != [] {
      assert sep !in s[..|s| - 1];
      ExplodeWithoutSeparator(sep, s[..|s| - 1]);
      assert s[..|s| - 1] + [s[|s| - 1]] == s;
    }
  }

  /** Splitting at a separator splits the pieces: explode(a . sep . b) = explode(a) ++ explode(b). */
  lemma {:induction false} ExplodeAtSeparator(sep: char, a: string, b: string)
    ensures Explode(sep, a + [sep] + b) == Explode(sep, a) + Explode(sep, b)
    decreases |b|
  {
    var s := a + [sep] + b;
    if b == [] {
      assert s[..|s| - 1] == a;
    } else {
      var b' := b[..|b| - 1];
      assert s[..|s| - 1] == a + [sep] + b';
      ExplodeAtSeparator(sep, a, b');
      FeedAfter(sep, Explode(sep, a), Explode(sep, b'), b[|b| - 1]);
    }
  }

  /** `explode()` undoes `implode()` on separator-free pieces: the two are mutual inverses. */
  lemma {:induction false} ExplodeOfJoin(sep: char, parts: seq<string>)
    requires |parts| >= 1
    requires forall k :: 0 <= k < |parts| ==> sep !in parts[k]
    ensures Explode(sep, Join(sep, parts)) == parts
    decreases |parts|
  {
    var last := parts[|parts| - 1];
    ExplodeWithoutSeparator(sep, last);
    if |parts| > 1 {
      var init := parts[..|parts| - 1];
      assert Join(sep, parts) == Join(sep, init) + [sep] + last;
      ExplodeOfJoin(sep, init);
      ExplodeAtSeparator(sep, Join(sep, init), last);
      assert Explode(sep, Join(sep, parts)) == init + [last];
      assert init + [last] == parts;
    }
  }

  /** The ASCII digit for `d`. */
  function DigitChar(d: nat): (c: char)
    requires d < 10
    ensures '0' <= c <= '9'
  {
    ('0' as int + d) as char
  }

  predicate IsDigits(s: string) {
    forall i :: 0 <= i < |s| ==> '0' <= s[i] <= '9'
  }

  /** The decimal text PHP produces when it interpolates a non-negative integer. */
  function NatToString(n: nat): (s: string)
    ensures |s| >= 1 && IsDigits(s)
    ensures |s| > 1 ==> s[0] != '0'
  {
    if n < 10 then [DigitChar(n)]
    else NatToString(n / 10) + [DigitChar(n % 10)]
  }

  /** Reads a string of decimal digits back as a number. */
  function DigitsValue(s: string): nat
    requires IsDigits(s)
  {
    if s == [] then 0
    else 10 * DigitsValue(s[..|s| - 1]) + (s[|s| - 1] as int - '0' as int)
  }

  /** The decimal rendering loses nothing: distinct ids give distinct texts. */
  lemma {:induction false} NatToStringRoundTrip(n: nat)
    ensures DigitsValue(NatToString(n)) == n
  {
    var s := NatToString(n);
    if n >= 10 {
      NatToStringRoundTrip(n / 10);
      assert s[..|s| - 1] == NatToString(n / 10);
    }
  }
}
