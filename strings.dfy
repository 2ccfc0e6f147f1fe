/** JavaScript string helpers used by the core: `split` with a one-character
    separator, `Array.prototype.join`, and decimal rendering of integers. */
module Strings {
  import Common

  /** Index of the first occurrence of `c` in `s`, or `|s|` when there is none. */
  function FirstIndex(s: string, c: char): (i: nat)
    ensures i <= |s| && (i < |s| ==> s[i] == c)
    ensures forall k :: 0 <= k < i ==> s[k] != c
  {
    if s == [] then 0 else if s[0] == c then 0 else 1 + FirstIndex(s[1..], c)
  }

  /** `s.split(sep)` for a one-character separator: the maximal pieces of `s`
      between occurrences of `sep`; the empty string splits into `[""]`. */
  function Split(s: string, sep: char): (parts: seq<string>)
    ensures |parts| >= 1
    decreases |s|
  {
    var i := FirstIndex(s, sep);
    if i == |s| then [s] else [s[..i]] + Split(s[i + 1..], sep)
  }

  /** `parts.join(sep)`: `[]` joins to `""`, one part joins to itself. */
  function Join(parts: seq<string>, sep: string): string {
    if |parts| == 0 then ""
    else if |parts| == 1 then parts[0]
    else parts[0] + sep + Join(parts[1..], sep)
  }

  /** Splitting and joining back with the same separator gives the string back. */
  lemma {:induction false} JoinSplit(s: string, sep: char)
    ensures Join(Split(s, sep), [sep]) == s
    decreases |s|
  {
    var i := FirstIndex(s, sep);
    if i < |s| {
      JoinSplit(s[i + 1..], sep);
      JoinSplitStep(s, sep, i, Split(s[i + 1..], sep));
    }
  }

  /** The step of `JoinSplit`: the first piece, the separator and the join of
      the pieces of the rest. */
  lemma JoinSplitStep(s: string, sep: char, i: nat, p: seq<string>)
    requires i == FirstIndex(s, sep) < |s| && p == Split(s[i + 1..], sep) && Join(p, [sep]) == s[i + 1..]
    ensures Join(Split(s, sep), [sep]) == s
  {
    SplitFirst(s, sep, i);
    JoinCons(s[..i], p, [sep]);
    Common.SplitAround(s, i);
  }

  lemma JoinCons(a: string, p: seq<string>, sep: string)
    requires p != []
    ensures Join([a] + p, sep) == a + sep + Join(p, sep)
  {
    assert ([a] + p)[1..] == p;
  }

  /** A piece free of the separator, the separator, and a tail split into
      that piece followed by the pieces of the tail. */
  lemma SplitAtFirst(a: string, sep: char, tail: string)
    requires sep !in a
    ensures Split(a + [sep] + tail, sep) == [a] + Split(tail, sep)
  {
    var s := a + [sep] + tail;
    assert forall k :: 0 <= k < |a| ==> s[k] == a[k];
    assert s[|a|] == sep;
    assert FirstIndex(s, sep) == |a|;
    assert s[..|a|] == a;
    assert s[|a| + 1..] == tail;
  }

  /** A string holding the separator splits at its first occurrence `i`. */
  lemma SplitFirst(s: string, sep: char, i: nat)
    requires i == FirstIndex(s, sep) < |s|
    ensures Split(s, sep) == [s[..i]] + Split(s[i + 1..], sep)
  { }

  /** Joining pieces that do not contain the separator and splitting again gives
      the pieces back. */
  lemma {:induction false} SplitJoin(parts: seq<string>, sep: char)
    requires |parts| >= 1
    requires forall k :: 0 <= k < |parts| ==> sep !in parts[k]
    ensures Split(Join(parts, [sep]), sep) == parts
    decreases |parts|
  {
    if |parts| > 1 {
      var tail := Join(parts[1..], [sep]);
      assert Join(parts, [sep]) == parts[0] + [sep] + tail;
      SplitAtFirst(parts[0], sep, tail);
      SplitJoin(parts[1..], sep);
      assert parts == [parts[0]] + parts[1..];
    }
  }

  /** `r` is what follows the last `sep` in `s`, or all of `s` when `s` has
      no `sep`. */
  predicate AfterLastSep(s: string, r: string, sep: char) {
    && |r| <= |s| && s[|s| - |r|..] == r && sep !in r
    && (sep !in s ==> r == s)
    && (sep in s ==> |r| < |s| && s[|s| - |r| - 1] == sep)
  }

  /** The last piece of a split is what follows the last separator, or the
      whole string when there is none. */
  lemma {:induction false} LastPiece(s: string, sep: char)
    ensures var parts := Split(s, sep); AfterLastSep(s, parts[|parts| - 1], sep)
    decreases |s|
  {
    var i := FirstIndex(s, sep);
    if i < |s| {
      var rest := s[i + 1..];
      var p := Split(rest, sep);
      LastPiece(rest, sep);
      SplitLast(s, sep, i, Split(s, sep), p);
      AfterLastSepStep(s, i, sep, p[|p| - 1]);
    } else {
      assert s[|s| - |s|..] == s;
    }
  }

  /** The last piece of a string holding the separator, its first one at
      `i`, is the last piece of what follows it. */
  lemma SplitLast(s: string, sep: char, i: nat, parts: seq<string>, p: seq<string>)
    requires i == FirstIndex(s, sep) < |s| && parts == Split(s, sep) && p == Split(s[i + 1..], sep)
    ensures parts[|parts| - 1] == p[|p| - 1]
  {
    SplitFirst(s, sep, i);
    LastOfCons(s[..i], p);
  }

  lemma LastOfCons(a: string, p: seq<string>)
    requires p != []
    ensures ([a] + p)[|[a] + p| - 1] == p[|p| - 1]
  { }

  /** What follows the last separator after `s[i]`, a separator, also follows
      the last separator of `s`. */
  lemma AfterLastSepStep(s: string, i: nat, sep: char, r: string)
    requires i < |s| && s[i] == sep
    requires AfterLastSep(s[i + 1..], r, sep)
    ensures AfterLastSep(s, r, sep)
  {
    var rest := s[i + 1..];
    var n := |rest| - |r|;
    assert s[i + 1 + n..] == rest[n..];
    if sep in rest {
      assert s[i + n] == rest[n - 1];
    }
  }

  function DigitChar(d: nat): (c: char)
    requires d < 10
    ensures '0' <= c <= '9'
  {
    (('0' as int) + d) as char
  }

  /** Decimal rendering of a natural number, without leading zeros. */
  function NatToString(n: nat): (s: string)
    ensures |s| >= 1
    ensures forall k :: 0 <= k < |s| ==> '0' <= s[k] <= '9'
  {
    if n < 10 then [DigitChar(n)] else NatToString(n / 10) + [DigitChar(n % 10)]
  }

  /** `String(n)` for an integer. */
  function IntToString(n: int): (s: string)
    ensures |s| >= 1
    ensures forall k :: 0 <= k < |s| ==> s[k] == '-' || '0' <= s[k] <= '9'
  {
    if n < 0 then "-" + NatToString(-n) else NatToString(n)
  }

  function MapIntToString(ns: seq<int>): (r: seq<string>)
    ensures |r| == |ns|
    ensures forall k :: 0 <= k < |ns| ==> r[k] == IntToString(ns[k])
  {
    if ns == [] then [] else [IntToString(ns[0])] + MapIntToString(ns[1..])
  }

  /** The value of a decimal digit. */
  function DigitValue(c: char): nat
    requires '0' <= c <= '9'
  {
    (c as int) - ('0' as int)
  }

  /** Reads a string of decimal digits back as a number. */
  function ParseNat(s: string): nat
    requires forall k :: 0 <= k < |s| ==> '0' <= s[k] <= '9'
  {
    if s == [] then 0 else 10 * ParseNat(s[..|s| - 1]) + DigitValue(s[|s| - 1])
  }

  /** Reads an optionally signed decimal back as an integer. */
  function ParseInt(s: string): int
    requires |s| >= 1 && forall k :: 0 <= k < |s| ==> s[k] == '-' || '0' <= s[k] <= '9'
    requires forall k :: 1 <= k < |s| ==> '0' <= s[k] <= '9'
  {
    if s[0] == '-' then -(ParseNat(s[1..]) as int) else ParseNat(s)
  }

  lemma {:induction false} ParseNatToString(n: nat)
    ensures ParseNat(NatToString(n)) == n
    decreases n
  {
    if n >= 10 {
      ParseNatToString(n / 10);
      var s := NatToString(n);
      assert s == NatToString(n / 10) + [DigitChar(n % 10)];
      assert s[..|s| - 1] == NatToString(n / 10);
      assert DigitValue(s[|s| - 1]) == n % 10;
    }
  }

  /** The decimal rendering loses nothing: it reads back as the same integer. */
  lemma ParseIntToString(n: int)
    ensures forall k :: 1 <= k < |IntToString(n)| ==> '0' <= IntToString(n)[k] <= '9'
    ensures ParseInt(IntToString(n)) == n
  {
    if n < 0 {
      var d := NatToString(-n);
      assert IntToString(n) == "-" + d;
      forall k | 1 <= k < |IntToString(n)| ensures '0' <= IntToString(n)[k] <= '9' {
        assert IntToString(n)[k] == d[k - 1];
      }
      ParseNatToString(-n);
      assert IntToString(n)[1..] == d;
    } else {
      ParseNatToString(n);
    }
  }
}
