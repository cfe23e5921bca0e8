/**
 * The Python `str` built-ins the core relies on, as pure functions:
 * `find`, `rfind`, `split`, `join`, `strip`, `lower`, `isdigit`, `str(int)`
 * and `int(str)`. Character classes follow Python's definitions for the
 * characters listed; see each function.
 */
module Strings {
  import opened Wrappers

  /** `s.find(c)`: the first index of `c`, or -1 when `c` does not occur. */
  function Find(s: string, c: char): (i: int)
    ensures -1 <= i < |s|
    ensures i == -1 ==> forall k :: 0 <= k < |s| ==> s[k] != c
    ensures 0 <= i ==> s[i] == c && forall k :: 0 <= k < i ==> s[k] != c
  {
    FindFrom(s, c, 0)
  }

  /** The first index of `c` at or after `from`, or -1. */
  function FindFrom(s: string, c: char, from: nat): (i: int)
    requires from <= |s|
    ensures i == -1 || from <= i < |s|
    ensures i == -1 ==> forall k :: from <= k < |s| ==> s[k] != c
    ensures 0 <= i ==> s[i] == c && forall k :: from <= k < i ==> s[k] != c
    decreases |s| - from
  {
    if from == |s| then -1
    else if s[from] == c then from
    else FindFrom(s, c, from + 1)
  }

  /** The index characterised by `Find`'s contract is the only one it can return. */
  lemma FindIs(s: string, c: char, k: nat)
    requires k < |s| && s[k] == c
    requires forall j :: 0 <= j < k ==> s[j] != c
    ensures Find(s, c) == k
  {
  }

  /** `s.rfind(c)`: the last index of `c`, or -1 when `c` does not occur. */
  function RFind(s: string, c: char): (i: int)
    ensures -1 <= i < |s|
    ensures i == -1 ==> forall k :: 0 <= k < |s| ==> s[k] != c
    ensures 0 <= i ==> s[i] == c && forall k :: i < k < |s| ==> s[k] != c
  {
    RFindBefore(s, c, |s|)
  }

  /** The last index of `c` before `upto`, or -1. */
  function RFindBefore(s: string, c: char, upto: nat): (i: int)
    requires upto <= |s|
    ensures -1 <= i < upto
    ensures i == -1 ==> forall k :: 0 <= k < upto ==> s[k] != c
    ensures 0 <= i ==> s[i] == c && forall k :: i < k < upto ==> s[k] != c
  {
    if upto == 0 then -1
    else if s[upto - 1] == c then upto - 1
    else RFindBefore(s, c, upto - 1)
  }

  /** The index characterised by `RFind`'s contract is the only one it can return. */
  lemma RFindIs(s: string, c: char, k: nat)
    requires k < |s| && s[k] == c
    requires forall j :: k < j < |s| ==> s[j] != c
    ensures RFind(s, c) == k
  {
  }

  /** `c.isspace()`: the characters Python treats as white space. */
  predicate IsSpace(c: char)
  {
    || c in {'\t', '\n', '\U{B}', '\U{C}', '\r', '\U{1C}', '\U{1D}', '\U{1E}', '\U{1F}', ' '}
    || c in {'\U{85}', '\U{A0}', '\U{1680}', '\U{2028}', '\U{2029}', '\U{202F}', '\U{205F}', '\U{3000}'}
    || '\U{2000}' <= c <= '\U{200A}'
  }

  /** `c.isdigit()` for the ASCII digits. */
  predicate IsDigit(c: char)
  {
    '0' <= c <= '9'
  }

  predicate AllDigits(s: string)
  {
    forall k :: 0 <= k < |s| ==> IsDigit(s[k])
  }

  /** How many white-space characters `s` starts with. */
  function LeadingSpaces(s: string): (n: nat)
    ensures n <= |s| && (forall k :: 0 <= k < n ==> IsSpace(s[k])) && (n < |s| ==> !IsSpace(s[n]))
  {
    if |s| > 0 && IsSpace(s[0]) then 1 + LeadingSpaces(s[1..]) else 0
  }

  /** How many white-space characters `s` ends with. */
  function TrailingSpaces(s: string): (n: nat)
    ensures n <= |s| && (forall k :: |s| - n <= k < |s| ==> IsSpace(s[k])) && (n < |s| ==> !IsSpace(s[|s| - n - 1]))
  {
    if |s| > 0 && IsSpace(s[|s| - 1]) then 1 + TrailingSpaces(s[..|s| - 1]) else 0
  }

  /** `s.lstrip()`: drops the leading white space and nothing else. */
  function StripLeft(s: string): (r: string)
    ensures r == [] || !IsSpace(r[0])
  {
    s[LeadingSpaces(s)..]
  }

  /** `s.rstrip()`: drops the trailing white space and nothing else. */
  function StripRight(s: string): (r: string)
    ensures r == [] || !IsSpace(r[|r| - 1])
  {
    s[..|s| - TrailingSpaces(s)]
  }

  /** `s.strip()`. */
  function Strip(s: string): string
  {
    StripRight(StripLeft(s))
  }

  /** A string with no white space at either end is its own `strip()`. */
  lemma StripUnchanged(s: string)
    requires s == [] || (!IsSpace(s[0]) && !IsSpace(s[|s| - 1]))
    ensures Strip(s) == s
  {
  }

  /** One leading blank makes no difference to `lstrip()`. */
  lemma StripLeftBlank(s: string)
    ensures StripLeft([' '] + s) == StripLeft(s)
  {
    assert ([' '] + s)[1..] == s;
  }

  function LowerChar(c: char): char
  {
    if 'A' <= c <= 'Z' then (c as int - 'A' as int + 'a' as int) as char else c
  }

  /** `s.lower()` for the ASCII letters. */
  function Lower(s: string): (r: string)
    ensures |r| == |s|
  {
    seq(|s|, k requires 0 <= k < |s| => LowerChar(s[k]))
  }

  /** `s.split(c)` with a one-character separator: never empty, no piece holds `c`. */
  function Split(s: string, c: char): (parts: seq<string>)
    ensures |parts| >= 1
    decreases |s|
  {
    var i := Find(s, c);
    if i == -1 then [s] else [s[..i]] + Split(s[i + 1..], c)
  }

  /** No piece of a split holds the separator. */
  lemma {:induction false} SplitPiecesLackSeparator(s: string, c: char)
    ensures forall k :: 0 <= k < |Split(s, c)| ==> c !in Split(s, c)[k]
    decreases |s|
  {
    var i := Find(s, c);
    if i != -1 {
      assert c !in s[..i];
      SplitPiecesLackSeparator(s[i + 1..], c);
    }
  }

  /** `sep.join(items)`. */
  function Join(sep: string, items: seq<string>): string
  {
    if |items| == 0 then ""
    else if |items| == 1 then items[0]
    else items[0] + sep + Join(sep, items[1..])
  }

  /** `[tail + x for x in items]`. */
  function Prefixed(tail: string, items: seq<string>): (r: seq<string>)
    ensures |r| == |items|
  {
    seq(|items|, k requires 0 <= k < |items| => tail + items[k])
  }

  /**
   * Splitting a joined string on the first character of the separator gives the
   * items back, each after the first carrying the rest of the separator in front.
   */
  lemma {:induction false} SplitJoin(pre: string, c: char, tail: string, items: seq<string>)
    requires |items| >= 1
    requires c !in pre && c !in tail
    requires forall k :: 0 <= k < |items| ==> c !in items[k]
    ensures Split(pre + Join([c] + tail, items), c) == [pre + items[0]] + Prefixed(tail, items[1..])
    decreases |items|
  {
    var sep := [c] + tail;
    if |items| == 1 {
      SplitWithout(pre + items[0], c);
    } else {
      var rest := Join(sep, items[1..]);
      JoinStep(sep, items);
      Regroup(pre, items[0], c, tail, rest);
      SplitFirst(pre + items[0], c, tail + rest);
      assert forall k :: 0 <= k < |items[1..]| ==> c !in items[1..][k];
      SplitJoin(tail, c, tail, items[1..]);
      PrefixedStep(tail, items[1..]);
    }
  }

  /** `Join` of two or more items: the first, the separator, the join of the rest. */
  lemma JoinStep(sep: string, items: seq<string>)
    requires |items| >= 2
    ensures Join(sep, items) == items[0] + sep + Join(sep, items[1..])
  {
  }

  /** Moving the separator's first character out of the joined text. */
  lemma Regroup(pre: string, item: string, c: char, tail: string, rest: string)
    ensures pre + (item + ([c] + tail) + rest) == (pre + item) + [c] + (tail + rest)
  {
  }

  /** The first piece ends at the first separator. */
  lemma SplitFirst(head: string, c: char, rest: string)
    requires c !in head
    ensures Split(head + [c] + rest, c) == [head] + Split(rest, c)
  {
    var s := head + [c] + rest;
    assert s[..|head|] == head;
    FindIs(s, c, |head|);
    assert s[|head| + 1..] == rest;
  }

  /** `Prefixed` of a non-empty list, its head taken out. */
  lemma PrefixedStep(tail: string, items: seq<string>)
    requires |items| >= 1
    ensures Prefixed(tail, items) == [tail + items[0]] + Prefixed(tail, items[1..])
  {
  }

  function DigitChar(d: nat): (c: char)
    requires d < 10
    ensures IsDigit(c)
  {
    "0123456789"[d]
  }

  function DigitValue(c: char): (d: nat)
    requires IsDigit(c)
    ensures d < 10
  {
    c as int - '0' as int
  }

  /** `str(n)` for a natural number: decimal digits, no leading zero. */
  function NatToString(n: nat): (s: string)
    ensures |s| >= 1 && AllDigits(s)
  {
    if n < 10 then [DigitChar(n)] else NatToString(n / 10) + [DigitChar(n % 10)]
  }

  /** The value of a string of decimal digits. */
  function DigitsValue(s: string): nat
    requires AllDigits(s)
  {
    if s == [] then 0 else DigitsValue(s[..|s| - 1]) * 10 + DigitValue(s[|s| - 1])
  }

  lemma {:induction false} DigitsValueOfNatToString(n: nat)
    ensures DigitsValue(NatToString(n)) == n
  {
    if n >= 10 {
      var s := NatToString(n);
      assert s[..|s| - 1] == NatToString(n / 10);
      DigitsValueOfNatToString(n / 10);
    }
  }

  /** Distinct numbers print differently. */
  lemma NatToStringInjective(m: nat, n: nat)
    ensures NatToString(m) == NatToString(n) ==> m == n
  {
    DigitsValueOfNatToString(m);
    DigitsValueOfNatToString(n);
  }

  /** `str(i)` for any integer. */
  function IntToString(i: int): (s: string)
    ensures |s| >= 1
  {
    if i < 0 then "-" + NatToString(-i) else NatToString(i)
  }

  /**
   * `int(s)` for a string: surrounding white space is ignored, then an optional
   * sign and at least one decimal digit; anything else raises `ValueError`.
   */
  function ParseInt(s: string): (r: Option<int>)
  {
    var t := Strip(s);
    if |t| >= 2 && (t[0] == '-' || t[0] == '+') && AllDigits(t[1..]) then
      var v: int := DigitsValue(t[1..]);
      Some(if t[0] == '-' then -v else v)
    else if |t| >= 1 && AllDigits(t) then
      Some(DigitsValue(t))
    else
      None
  }

  /** `int(str(i)) == i`. */
  lemma ParseIntOfIntToString(i: int)
    ensures ParseInt(IntToString(i)) == Some(i)
  {
    if i < 0 {
      ParseIntOfNegative(i);
    } else {
      ParseIntOfNat(i);
    }
  }

  /** A digit is not white space. */
  lemma DigitNotSpace(c: char)
    requires IsDigit(c)
    ensures !IsSpace(c)
  {
  }

  lemma ParseIntOfNat(i: int)
    requires i >= 0
    ensures ParseInt(IntToString(i)) == Some(i)
  {
    var s := NatToString(i);
    DigitNotSpace(s[0]);
    DigitNotSpace(s[|s| - 1]);
    StripUnchanged(s);
    DigitsValueOfNatToString(i);
  }

  lemma ParseIntOfNegative(i: int)
    requires i < 0
    ensures ParseInt(IntToString(i)) == Some(i)
  {
    var n: nat := -i;
    var digits := NatToString(n);
    DigitsValueOfNatToString(n);
    MinusDigits(digits);
    assert IntToString(i) == "-" + digits;
  }

  /** A minus sign followed by digits parses to the negated digits' value. */
  lemma MinusDigits(digits: string)
    requires |digits| >= 1 && AllDigits(digits)
    ensures ParseInt("-" + digits) == Some(-(DigitsValue(digits) as int))
  {
    var s := "-" + digits;
    assert s[1..] == digits;
    MinusDigitsStripped(digits);
    ParseIntMinus(s);
  }

  lemma MinusDigitsStripped(digits: string)
    requires |digits| >= 1 && AllDigits(digits)
    ensures Strip("-" + digits) == "-" + digits
  {
    var s := "-" + digits;
    assert s[|s| - 1] == digits[|digits| - 1];
    DigitNotSpace(s[|s| - 1]);
    StripUnchanged(s);
  }

  /** An unpadded minus sign followed by digits parses to the negated digits' value. */
  lemma ParseIntMinus(t: string)
    requires Strip(t) == t && |t| >= 2 && t[0] == '-' && AllDigits(t[1..])
    ensures ParseInt(t) == Some(-(DigitsValue(t[1..]) as int))
  {
  }

  /** `pat` occurs in `t` starting at index `i`. */
  predicate OccursAt(t: string, pat: string, i: int)
  {
    0 <= i && i + |pat| <= |t| && t[i..i + |pat|] == pat
  }

  /**
   * `t.replace(pat, rep)` for a non-empty `pat`: every occurrence, scanning left
   * to right and resuming after each replaced one, so occurrences do not overlap.
   */
  function ReplaceAll(t: string, pat: string, rep: string): string
    requires |pat| > 0
  {
    if |t| < |pat| then t
    else if t[..|pat|] == pat then rep + ReplaceAll(t[|pat|..], pat, rep)
    else [t[0]] + ReplaceAll(t[1..], pat, rep)
  }

  /** Text in which the pattern does not occur comes back unchanged. */
  lemma {:induction false} ReplaceAllAbsent(t: string, pat: string, rep: string)
    requires |pat| > 0
    requires forall i :: !OccursAt(t, pat, i)
    ensures ReplaceAll(t, pat, rep) == t
  {
    if |t| >= |pat| {
      assert !OccursAt(t, pat, 0);
      forall i
        ensures !OccursAt(t[1..], pat, i)
      {
        if OccursAt(t[1..], pat, i) {
          assert t[1..][i..i + |pat|] == t[i + 1..i + 1 + |pat|];
          assert OccursAt(t, pat, i + 1);
        }
      }
      ReplaceAllAbsent(t[1..], pat, rep);
    }
  }

  /** Replacing a pattern by itself changes nothing. */
  lemma {:induction false} ReplaceAllSelf(t: string, pat: string)
    requires |pat| > 0
    ensures ReplaceAll(t, pat, pat) == t
  {
    if |t| >= |pat| {
      if t[..|pat|] == pat {
        ReplaceAllSelf(t[|pat|..], pat);
        assert t == t[..|pat|] + t[|pat|..];
      } else {
        ReplaceAllSelf(t[1..], pat);
        assert t == [t[0]] + t[1..];
      }
    }
  }

  /** A stretch in which the pattern's first character never appears is copied as is. */
  lemma {:induction false} ReplaceAllSkip(a: string, b: string, pat: string, rep: string)
    requires |pat| > 0
    requires forall i :: 0 <= i < |a| ==> a[i] != pat[0]
    ensures ReplaceAll(a + b, pat, rep) == a + ReplaceAll(b, pat, rep)
  {
    if a == [] {
      assert a + b == b;
    } else {
      var t := a + b;
      assert t[0] == a[0] && t[1..] == a[1..] + b;
      ReplaceAllSkip(a[1..], b, pat, rep);
      if |t| < |pat| {
        assert ReplaceAll(t, pat, rep) == t;
        assert ReplaceAll(b, pat, rep) == b;
      } else {
        assert t[..|pat|] != pat by {
          assert t[..|pat|][0] != pat[0];
        }
        assert ReplaceAll(t, pat, rep) == [t[0]] + ReplaceAll(t[1..], pat, rep);
        assert a == [a[0]] + a[1..];
        assert [t[0]] + (a[1..] + ReplaceAll(b, pat, rep)) == a + ReplaceAll(b, pat, rep);
      }
    }
  }

  /** `s.startswith(p)`. */
  predicate StartsWith(s: string, p: string)
  {
    |p| <= |s| && s[..|p|] == p
  }

  /** `s.split(c)[-1]`. */
  function LastPiece(s: string, c: char): (r: string)
    ensures c !in r
  {
    var parts := Split(s, c);
    SplitPiecesLackSeparator(s, c);
    parts[|parts| - 1]
  }

  /** A string without the separator splits into itself alone. */
  lemma SplitWithout(s: string, c: char)
    requires c !in s
    ensures Split(s, c) == [s]
  {
  }

  /** The last piece after splitting `s + [c] + tail` is `tail`, whatever `s` holds. */
  lemma {:induction false} LastPieceAfterSeparator(s: string, c: char, tail: string)
    requires c !in tail
    ensures LastPiece(s + [c] + tail, c) == tail
    decreases |s|
  {
    var t := s + [c] + tail;
    var i := Find(t, c);
    if i == |s| {
      assert t[i + 1..] == tail;
      SplitWithout(tail, c);
    } else {
      assert i < |s| by {
        assert t[|s|] == c;
      }
      assert t[i + 1..] == s[i + 1..] + [c] + tail;
      LastPieceAfterSeparator(s[i + 1..], c, tail);
    }
  }
}
