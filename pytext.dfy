/** The few pieces of Python's `str` that the interview code relies on:
    `strip()`, `in`, `split(sep)[0]`, `split(sep)[1]`, `replace(" ", "")`,
    `lower()` on ASCII and decimal rendering of integers. */
module PyText {

  datatype Option<+T> = None | Some(value: T)

  /** Python's `str.isspace()` for a single character. */
  predicate IsSpace(c: char) {
    c == ' ' || ('\t' <= c <= '\r') || ('\U{1c}' <= c <= '\U{1f}') || c == '\U{85}' || c == '\U{a0}'
    || c == '\U{1680}' || ('\U{2000}' <= c <= '\U{200a}') || c == '\U{2028}' || c == '\U{2029}'
    || c == '\U{202f}' || c == '\U{205f}' || c == '\U{3000}'
  }

  predicate AllSpace(s: string) {
    forall i :: 0 <= i < |s| ==> IsSpace(s[i])
  }

  /** A string `strip()` leaves alone: empty, or no white space at either end. */
  predicate IsStripped(s: string) {
    s == [] || (!IsSpace(s[0]) && !IsSpace(s[|s| - 1]))
  }

  function StripLeft(s: string): (r: string)
    ensures |r| <= |s| && r == s[|s| - |r|..]
    ensures forall i :: 0 <= i < |s| - |r| ==> IsSpace(s[i])
    ensures r == [] || !IsSpace(r[0])
  {
    if |s| > 0 && IsSpace(s[0]) then StripLeft(s[1..]) else s
  }

  function StripRight(s: string): (r: string)
    ensures |r| <= |s| && r == s[..|r|]
    ensures forall i :: |r| <= i < |s| ==> IsSpace(s[i])
    ensures r == [] || !IsSpace(r[|r| - 1])
  {
    if |s| > 0 && IsSpace(s[|s| - 1]) then StripRight(s[..|s| - 1]) else s
  }

  /** Python's `s.strip()`: the white space at both ends removed. */
  function Strip(s: string): (r: string)
    ensures IsStripped(r)
    ensures |r| <= |s|
  {
    StripRight(StripLeft(s))
  }

  lemma {:induction false} StripLeftPadded(w: string, t: string)
    requires AllSpace(w) && (t == [] || !IsSpace(t[0]))
    ensures StripLeft(w + t) == t
  {
    var s := w + t;
    var r := StripLeft(s);
    var m := |s| - |r|;
    assert |r| > 0 ==> r[0] == s[m];
    assert |w| < |s| ==> s[|w|] == t[0];
    assert m == |w|;
    assert s[|w|..] == t;
  }

  lemma {:induction false} StripRightPadded(t: string, w: string)
    requires AllSpace(w) && (t == [] || !IsSpace(t[|t| - 1]))
    ensures StripRight(t + w) == t
  {
    var s := t + w;
    var r := StripRight(s);
    assert |r| > 0 ==> r[|r| - 1] == s[|r| - 1];
    assert |t| > 0 ==> s[|t| - 1] == t[|t| - 1];
    assert |r| == |t|;
    assert s[..|t|] == t;
  }

  /** `strip()` removes exactly the white space around `t`, whatever it is. */
  lemma {:induction false} StripPadded(w1: string, t: string, w2: string)
    requires AllSpace(w1) && AllSpace(w2) && IsStripped(t)
    ensures Strip(w1 + t + w2) == t
  {
    if t == [] {
      assert w1 + t + w2 == w1 + w2;
      assert AllSpace(w1 + w2);
      AllSpaceStripsToEmpty(w1 + w2);
    } else {
      assert w1 + t + w2 == w1 + (t + w2);
      StripLeftPadded(w1, t + w2);
      StripRightPadded(t, w2);
    }
  }

  lemma {:induction false} AllSpaceStripsToEmpty(w: string)
    requires AllSpace(w)
    ensures StripLeft(w) == [] && Strip(w) == []
  {
    if w != [] {
      AllSpaceStripsToEmpty(w[1..]);
    }
  }

  /** `strip()` is the identity on stripped strings ... */
  lemma {:induction false} StrippedFixed(s: string)
    requires IsStripped(s)
    ensures Strip(s) == s
  {
    assert StripLeft(s) == s;
    assert StripRight(s) == s;
  }

  /** ... and hence idempotent. */
  lemma {:induction false} StripIdempotent(s: string)
    ensures Strip(Strip(s)) == Strip(s)
  {
    StrippedFixed(Strip(s));
  }

  /** Concatenation regrouped: `a + b + c + d` is `a` followed by the rest. */
  lemma {:induction false} ConcatRegroup(a: string, b: string, c: string, d: string)
    ensures a + b + c + d == a + (b + c + d)
  {
    assert a + b + c + d == a + (b + c) + d;
  }

  /** The pieces of `a + b + c + d`, read back by position. */
  lemma {:induction false} ConcatPieces(a: string, b: string, c: string, d: string)
    ensures var s := a + b + c + d;
            s[..|a|] == a && s[|a|..|a| + |b|] == b && s[|a| + |b|..|a| + |b| + |c|] == c
            && s[|a|..] == b + c + d && s[|a|..|a| + |b| + |c|] == b + c
  {
    var s := a + b + c + d;
    assert s[..|a|] == a;
    assert s[|a|..|a| + |b|] == b;
    assert s[|a| + |b|..|a| + |b| + |c|] == c;
    assert s[|a|..] == b + c + d;
    assert s[|a|..|a| + |b| + |c|] == b + c;
  }

  // ---------------------------------------------------------------------------
  // Substring search and splitting

  predicate OccursAt(s: string, pat: string, k: int) {
    0 <= k && k + |pat| <= |s| && s[k..k + |pat|] == pat
  }

  /** Python's `s.find(pat, from)`, with None for -1. */
  function FindFrom(s: string, pat: string, from: nat): (r: Option<nat>)
    decreases |s| - from
    ensures r.Some? ==> from <= r.value && r.value + |pat| <= |s|
  {
    if from + |pat| > |s| then None
    else if s[from..from + |pat|] == pat then Some(from)
    else FindFrom(s, pat, from + 1)
  }

  /** `find` returns the first occurrence at or after `from`, and None only
      when there is none. */
  lemma {:induction false} FindFromFirst(s: string, pat: string, from: nat)
    decreases |s| - from
    ensures var r := FindFrom(s, pat, from);
            (r.Some? ==> from <= r.value && OccursAt(s, pat, r.value))
            && forall k :: from <= k && (r.None? || k < r.value) ==> !OccursAt(s, pat, k)
  {
    if from + |pat| <= |s| && s[from..from + |pat|] != pat {
      FindFromFirst(s, pat, from + 1);
    }
  }

  function Find(s: string, pat: string): Option<nat> {
    FindFrom(s, pat, 0)
  }

  /** Python's `pat in s`. */
  predicate Contains(s: string, pat: string) {
    Find(s, pat).Some?
  }

  /** Python's `s.split(sep)[0]`: the text before the first separator, or all of `s`. */
  function SplitHead(s: string, sep: string): (r: string)
    requires |sep| > 0
    ensures r <= s
    ensures |r| == |s| || OccursAt(s, sep, |r|)
    ensures forall k :: 0 <= k < |r| ==> !OccursAt(s, sep, k)
  {
    FindFromFirst(s, sep, 0);
    match Find(s, sep)
    case None => s
    case Some(i) => s[..i]
  }

  /** Python's `s.split(sep)[1]`: the text between the first and the second
      separator (or the end), and None where Python raises IndexError. */
  function SplitSecond(s: string, sep: string): (r: Option<string>)
    requires |sep| > 0
    ensures r.None? <==> forall k :: !OccursAt(s, sep, k)
  {
    FindFromFirst(s, sep, 0);
    match Find(s, sep)
    case None => assert forall k :: OccursAt(s, sep, k) ==> 0 <= k; None
    case Some(i) =>
      var j := i + |sep|;
      match FindFrom(s, sep, j)
      case None => Some(s[j..])
      case Some(k) => Some(s[j..k])
  }

  /** An occurrence cannot start at a character that differs from the
      pattern's first, so the search skips such characters. */
  lemma {:induction false} SkipHeadFree(s: string, pat: string, from: nat, to: nat)
    requires |pat| > 0 && from <= to <= |s|
    requires forall i :: from <= i < to ==> s[i] != pat[0]
    ensures FindFrom(s, pat, from) == FindFrom(s, pat, to)
  {
    forall k | from <= k < to ensures !OccursAt(s, pat, k) {
      if k + |pat| <= |s| {
        assert s[k..k + |pat|][0] == s[k];
      }
    }
    FindFromFirst(s, pat, from);
    FindFromFirst(s, pat, to);
  }

  lemma {:induction false} FoundAt(s: string, pat: string, k: nat)
    requires OccursAt(s, pat, k)
    ensures FindFrom(s, pat, k) == Some(k)
  {
  }

  /** In `head + gap + pat + rest`, where neither `head` nor `gap` holds the
      first character of `pat`, the first occurrence of `pat` is the one
      right after them. */
  lemma {:induction false} FoundPastFreeHead(head: string, gap: string, pat: string, rest: string)
    requires |pat| > 0 && HeadCharFree(head, pat) && HeadCharFree(gap, pat)
    ensures Find(head + gap + pat + rest, pat) == Some(|head| + |gap|)
  {
    var s := head + gap + pat + rest;
    ConcatPieces(head, gap, pat, rest);
    forall i | 0 <= i < |head| + |gap| ensures s[i] != pat[0] {
      if i < |head| {
        assert s[i] == s[..|head|][i];
        assert head[i] in head;
      } else {
        assert s[i] == s[|head|..|head| + |gap|][i - |head|];
        assert gap[i - |head|] in gap;
      }
    }
    SkipHeadFree(s, pat, 0, |head| + |gap|);
    FoundAt(s, pat, |head| + |gap|);
  }

  /** Searching `p + q` past `p` is searching `q`, shifted by `|p|`. */
  lemma {:induction false} FindShift(p: string, q: string, pat: string, m: nat)
    requires m <= |q|
    decreases |q| - m
    ensures FindFrom(p + q, pat, |p| + m)
         == match FindFrom(q, pat, m) case None => None case Some(k) => Some(|p| + k)
  {
    var s := p + q;
    if |p| + m + |pat| <= |s| {
      assert s[|p| + m..|p| + m + |pat|] == q[m..m + |pat|];
      if q[m..m + |pat|] != pat {
        FindShift(p, q, pat, m + 1);
      }
    }
  }

  /** Searching `p + q` from `|p|` is searching `q` from its start. */
  lemma {:induction false} FindPastPrefix(p: string, q: string, pat: string)
    ensures Find(q, pat).None? ==> FindFrom(p + q, pat, |p|).None?
    ensures Find(q, pat).Some? ==> FindFrom(p + q, pat, |p|) == Some(|p| + Find(q, pat).value)
  {
    FindShift(p, q, pat, 0);
    assert |p| + 0 == |p|;
  }

  lemma {:induction false} SecondPieceBetween(s: string, sep: string, i: nat, j: nat, k: nat)
    requires |sep| > 0 && Find(s, sep) == Some(i) && j == i + |sep| && FindFrom(s, sep, j) == Some(k)
    ensures SplitSecond(s, sep) == Some(s[j..k])
  {
  }

  lemma {:induction false} SplitHeadAt(s: string, sep: string, k: nat)
    requires |sep| > 0 && Find(s, sep) == Some(k)
    ensures SplitHead(s, sep) == s[..k]
  {
  }

  /** The second piece of `p + rest`, when the first separator ends `p`. */
  lemma {:induction false} SplitSecondAfterFirst(p: string, rest: string, sep: string)
    requires |sep| > 0 && |p| >= |sep| && Find(p + rest, sep) == Some(|p| - |sep|)
    ensures SplitSecond(p + rest, sep) == Some(SplitHead(rest, sep))
  {
    var r := Find(rest, sep);
    FindPastPrefix(p, rest, sep);
    if r.None? {
      LastPiece(p, rest, sep);
    } else {
      MiddlePiece(p, rest, sep, r.value);
    }
  }

  lemma {:induction false} LastPiece(p: string, rest: string, sep: string)
    requires |sep| > 0 && |p| >= |sep| && Find(p + rest, sep) == Some(|p| - |sep|)
    requires Find(rest, sep) == None && FindFrom(p + rest, sep, |p|) == None
    ensures SplitSecond(p + rest, sep) == Some(SplitHead(rest, sep))
  {
    assert (p + rest)[|p|..] == rest;
  }

  lemma {:induction false} MiddlePiece(p: string, rest: string, sep: string, k: nat)
    requires |sep| > 0 && |p| >= |sep| && Find(p + rest, sep) == Some(|p| - |sep|)
    requires Find(rest, sep) == Some(k) && FindFrom(p + rest, sep, |p|) == Some(|p| + k)
    ensures SplitSecond(p + rest, sep) == Some(SplitHead(rest, sep))
  {
    SecondPieceBetween(p + rest, sep, |p| - |sep|, |p|, |p| + k);
    PrefixAfterPrefix(p, rest, k);
    SplitHeadAt(rest, sep, k);
  }

  /** The first `k` characters of `p + q` past `p` are the first `k` of `q`. */
  lemma {:induction false} PrefixAfterPrefix(p: string, q: string, k: nat)
    requires k <= |q|
    ensures (p + q)[|p|..|p| + k] == q[..k]
  {
    assert forall i :: 0 <= i < k ==> (p + q)[|p|..|p| + k][i] == q[..k][i];
  }

  /** `SplitHead` of a string that starts with `d + sep`, where `d` never
      holds the separator's first character. */
  lemma {:induction false} SplitHeadPrefixed(s: string, d: string, sep: string)
    requires |sep| > 0 && HeadCharFree(d, sep)
    requires |d| + |sep| <= |s| && s[..|d| + |sep|] == d + sep
    ensures SplitHead(s, sep) == d
  {
    SkipHeadFree(s, sep, 0, |d|);
    assert s[|d|..|d| + |sep|] == sep;
    FoundAt(s, sep, |d|);
    assert s[..|d|] == d;
  }

  /** No character of `s` is the first character of `pat`. */
  predicate HeadCharFree(s: string, pat: string)
    requires |pat| > 0
  {
    pat[0] !in s
  }

  lemma {:induction false} NotContained(s: string, pat: string)
    requires |pat| > 0 && HeadCharFree(s, pat)
    ensures Find(s, pat).None? && SplitHead(s, pat) == s
  {
    SkipHeadFree(s, pat, 0, |s|);
  }

  // ---------------------------------------------------------------------------
  // Character classes and case

  predicate IsDigit(c: char) {
    '0' <= c <= '9'
  }

  predicate AllDigits(s: string) {
    forall i :: 0 <= i < |s| ==> IsDigit(s[i])
  }

  /** `c.lower()` for ASCII letters; every other character is left as it is. */
  function AsciiLowerChar(c: char): (r: char)
    ensures 'A' <= c <= 'Z' ==> 'a' <= r <= 'z' && r as int - c as int == 32
    ensures !('A' <= c <= 'Z') ==> r == c
  {
    if 'A' <= c <= 'Z' then (c as int + 32) as char else c
  }

  function AsciiLower(s: string): (r: string)
    ensures |r| == |s|
    ensures forall i :: 0 <= i < |s| ==> r[i] == AsciiLowerChar(s[i])
  {
    if s == [] then [] else [AsciiLowerChar(s[0])] + AsciiLower(s[1..])
  }

  /** `s.replace(" ", "")`: every ASCII space removed, nothing else touched. */
  function RemoveSpaces(s: string): (r: string)
    ensures |r| <= |s|
    ensures ' ' !in r
    ensures multiset(r) == multiset(s)[' ' := 0]
  {
    if s == [] then []
    else
      assert s == [s[0]] + s[1..];
      (if s[0] == ' ' then [] else [s[0]]) + RemoveSpaces(s[1..])
  }

  /** A single character is dropped when it is a space and kept otherwise. */
  lemma {:induction false} RemoveSpacesChar(c: char)
    ensures RemoveSpaces([c]) == if c == ' ' then [] else [c]
  {
    assert [c][1..] == [];
  }

  /** Removing spaces works piece by piece and keeps the order: together
      with `RemoveSpacesChar` this fixes the result as the characters of `s`
      that are not spaces, in their order. */
  lemma {:induction false} RemoveSpacesAppend(a: string, b: string)
    decreases |a|
    ensures RemoveSpaces(a + b) == RemoveSpaces(a) + RemoveSpaces(b)
  {
    if a != [] {
      assert (a + b)[0] == a[0];
      assert (a + b)[1..] == a[1..] + b;
      RemoveSpacesAppend(a[1..], b);
    } else {
      assert a + b == b;
    }
  }

  // ---------------------------------------------------------------------------
  // Decimal numerals

  function DigitValue(c: char): (r: nat)
    requires IsDigit(c)
    ensures r < 10
  {
    c as int - '0' as int
  }

  function DigitChar(d: nat): (c: char)
    requires d < 10
    ensures IsDigit(c) && DigitValue(c) == d
  {
    ('0' as int + d) as char
  }

  /** The value of a string of decimal digits (0 for the empty string). */
  function DigitsValue(s: string): nat
    requires AllDigits(s)
  {
    if s == [] then 0 else 10 * DigitsValue(s[..|s| - 1]) + DigitValue(s[|s| - 1])
  }

  /** Python's `str(n)` for a natural number; it reads back as `n`. */
  function NatToString(n: nat): (r: string)
    ensures |r| > 0 && AllDigits(r) && DigitsValue(r) == n
    ensures |r| == 1 || r[0] != '0'
  {
    if n < 10 then [DigitChar(n)]
    else
      var r := NatToString(n / 10) + [DigitChar(n % 10)];
      assert r[..|r| - 1] == NatToString(n / 10);
      r
  }

  /** Python's `str(n)` for any integer. */
  function IntToString(n: int): (r: string)
    ensures |r| > 0 && (r[0] == '-' || IsDigit(r[0])) && IsDigit(r[|r| - 1])
    ensures n < 0 <==> r[0] == '-'
    ensures n < 0 ==> r[1..] == NatToString(-n)
    ensures n >= 0 ==> r == NatToString(n)
  {
    if n < 0 then "-" + NatToString(-n) else NatToString(n)
  }

  /** Python's `f"{n:02d}"` for a natural number. */
  function Pad2(n: nat): (r: string)
    ensures |r| >= 2 && AllDigits(r) && DigitsValue(r) == n
    ensures n >= 10 ==> r == NatToString(n)
  {
    if n < 10 then
      var r := "0" + NatToString(n);
      assert r[..|r| - 1] == "0";
      r
    else NatToString(n)
  }

  /** Below 10 the padding gives exactly two characters: `0` and the digit. */
  lemma {:induction false} Pad2BelowTen(n: nat)
    requires n < 10
    ensures Pad2(n) == ['0', DigitChar(n)]
  {
    assert NatToString(n) == [DigitChar(n)];
  }

}
