/** String helpers with the meaning the Python string operations have in the source. */
module Text {

  /** Python's `str.lower()` restricted to ASCII letters. */
  function LowerChar(c: char): char
  {
    if 'A' <= c <= 'Z' then (c as int + 32) as char else c
  }

  function Lower(s: string): string
  {
    seq(|s|, i requires 0 <= i < |s| => LowerChar(s[i]))
  }

  /** A string with no ASCII upper-case letter is its own lower-case form. */
  predicate IsLower(s: string)
  {
    forall i :: 0 <= i < |s| ==> !('A' <= s[i] <= 'Z')
  }

  lemma LowerOfLower(s: string)
    requires IsLower(s)
    ensures Lower(s) == s
  {
  }

  /** Python's `str.endswith(suffix)`. */
  predicate EndsWith(s: string, suffix: string)
  {
    |suffix| <= |s| && s[|s| - |suffix|..] == suffix
  }

  function DigitChar(d: nat): (c: char)
    requires d < 10
    ensures '0' <= c <= '9'
  {
    ('0' as int + d) as char
  }

  /** Python's `str(n)` for a non-negative integer: its decimal digits. */
  function NatToString(n: nat): (s: string)
    ensures 1 <= |s|
    ensures n < 10 <==> |s| == 1
    ensures forall i :: 0 <= i < |s| ==> '0' <= s[i] <= '9'
  {
    if n < 10 then [DigitChar(n)] else NatToString(n / 10) + [DigitChar(n % 10)]
  }

  /** Different numbers are written differently. */
  lemma {:induction false} NatToStringInjective(a: nat, b: nat)
    requires NatToString(a) == NatToString(b)
    ensures a == b
  {
    if 10 <= a {
      var s := NatToString(a);
      assert s[|s| - 1] == DigitChar(a % 10) == DigitChar(b % 10);
      assert s[..|s| - 1] == NatToString(a / 10) == NatToString(b / 10);
      NatToStringInjective(a / 10, b / 10);
    }
  }

  /** The text before the first `c` in `s` (all of `s` when there is none). */
  function UpToFirst(s: string, c: char): (r: string)
    ensures r <= s
    ensures c !in r
    ensures |r| < |s| ==> s[|r|] == c
  {
    if s == [] || s[0] == c then [] else [s[0]] + UpToFirst(s[1..], c)
  }

  /** The text after the first `c` in `s` (empty when there is none). */
  function AfterFirst(s: string, c: char): (r: string)
    ensures c in s ==> s == UpToFirst(s, c) + [c] + r
    ensures c !in s ==> r == []
  {
    if s == [] then [] else if s[0] == c then s[1..] else AfterFirst(s[1..], c)
  }

  /** Python's `s.split(c)[1]`: the field between the first and the second `c`. */
  function SecondField(s: string, c: char): string
  {
    UpToFirst(AfterFirst(s, c), c)
  }

  /** After a prefix free of `c` and then `c` itself, the text after the first `c` is the rest. */
  lemma {:induction false} AfterFirstPast(p: string, c: char, t: string)
    requires c !in p
    ensures AfterFirst(p + [c] + t, c) == t
  {
    if p != [] {
      assert (p + [c] + t)[1..] == p[1..] + [c] + t;
      AfterFirstPast(p[1..], c, t);
    }
  }

  /** The text before the first `c` is empty exactly when `s` is empty or starts with `c`. */
  lemma UpToFirstEmpty(s: string, c: char)
    ensures UpToFirst(s, c) == [] <==> s == [] || s[0] == c
  {
  }

  /** Every element followed by a comma: the text `s += e + ','` builds over a list. */
  function Trail(xs: seq<string>): string
  {
    if xs == [] then "" else Trail(xs[..|xs| - 1]) + xs[|xs| - 1] + ","
  }

  /** Python's `','.join(xs)`. */
  function Join(xs: seq<string>): string
  {
    if xs == [] then "" else if |xs| == 1 then xs[0] else Join(xs[..|xs| - 1]) + "," + xs[|xs| - 1]
  }

  /** Dropping the last character of a trailed list (`[:-1]`) gives the comma-joined list. */
  lemma {:induction false} TrailIsJoinPlusComma(xs: seq<string>)
    requires xs != []
    ensures Trail(xs) == Join(xs) + ","
  {
    if |xs| > 1 {
      TrailIsJoinPlusComma(xs[..|xs| - 1]);
    } else {
      assert xs[..0] == [];
    }
  }

  lemma {:induction false} TrailAppend(xs: seq<string>, ys: seq<string>)
    ensures Trail(xs + ys) == Trail(xs) + Trail(ys)
    decreases |ys|
  {
    if ys == [] {
      assert xs + ys == xs;
    } else {
      var n := |ys| - 1;
      assert (xs + ys)[..|xs + ys| - 1] == xs + ys[..n];
      TrailAppend(xs, ys[..n]);
    }
  }

  /** Adding one element adds it and a comma at the end. */
  lemma TrailSnoc(xs: seq<string>, x: string)
    ensures Trail(xs + [x]) == Trail(xs) + x + ","
  {
    assert (xs + [x])[..|xs|] == xs;
  }

  /** A trailed list is empty exactly when the list is. */
  lemma TrailEmpty(xs: seq<string>)
    ensures Trail(xs) == "" <==> xs == []
  {
  }

  /** A trailed list starts with its first element. */
  lemma {:induction false} TrailStartsWithFirst(xs: seq<string>)
    requires xs != []
    ensures xs[0] + "," <= Trail(xs)
  {
    if |xs| > 1 {
      TrailStartsWithFirst(xs[..|xs| - 1]);
    } else {
      assert xs[..0] == [];
    }
  }
}
