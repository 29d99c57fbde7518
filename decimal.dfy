/**
 * Decimal rendering of natural numbers, as JavaScript's template
 * interpolation and moment's `M` / `D` format tokens produce it
 * (no sign, no leading zeros), and its inverse.
 */
module Decimal {
  import opened Wrappers
  import opened Text

  predicate IsDigit(c: char) {
    '0' <= c <= '9'
  }

  predicate AllDigits(s: string) {
    forall i :: 0 <= i < |s| ==> IsDigit(s[i])
  }

  function DigitChar(d: nat): (c: char)
    requires d < 10
    ensures IsDigit(c)
  {
    ['0', '1', '2', '3', '4', '5', '6', '7', '8', '9'][d]
  }

  function DigitValue(c: char): (d: nat)
    requires IsDigit(c)
    ensures d < 10
  {
    if c == '0' then 0 else if c == '1' then 1 else if c == '2' then 2
    else if c == '3' then 3 else if c == '4' then 4 else if c == '5' then 5
    else if c == '6' then 6 else if c == '7' then 7 else if c == '8' then 8
    else 9
  }

  /** The decimal text of `n`: never empty, only digits, no leading zero. */
  function NatToString(n: nat): (s: string)
    ensures |s| >= 1 && AllDigits(s)
    ensures |s| > 1 ==> s[0] != '0'
    decreases n
  {
    if n < 10 then [DigitChar(n)] else NatToString(n / 10) + [DigitChar(n % 10)]
  }

  /** The number a run of digits denotes. */
  function DigitsValue(s: string): nat
    requires AllDigits(s)
    decreases |s|
  {
    if s == [] then 0 else DigitsValue(s[..|s| - 1]) * 10 + DigitValue(s[|s| - 1])
  }

  /** Reading back the decimal text of `n` gives `n`. */
  lemma {:induction false} DigitsValueOfNatToString(n: nat)
    ensures DigitsValue(NatToString(n)) == n
    decreases n
  {
    if n >= 10 {
      var s := NatToString(n);
      assert s[..|s| - 1] == NatToString(n / 10);
      DigitsValueOfNatToString(n / 10);
    }
  }

  /** Distinct numbers have distinct decimal texts. */
  lemma NatToStringInjective(a: nat, b: nat)
    requires NatToString(a) == NatToString(b)
    ensures a == b
  {
    DigitsValueOfNatToString(a);
    DigitsValueOfNatToString(b);
  }

  /** Splits `s` into its longest all-digit prefix and the rest. */
  function SplitDigits(s: string): (r: (string, string))
    ensures AllDigits(r.0) && r.0 + r.1 == s
    ensures r.1 == [] || !IsDigit(r.1[0])
    decreases |s|
  {
    if s == [] || !IsDigit(s[0]) then ([], s)
    else
      var tail := SplitDigits(s[1..]);
      AppendAssociative([s[0]], tail.0, tail.1);
      assert [s[0]] + s[1..] == s;
      ([s[0]] + tail.0, tail.1)
  }

  /** A digit run followed by anything that does not start with a digit splits back apart. */
  lemma {:induction false} SplitDigitsOfConcat(d: string, rest: string)
    requires AllDigits(d)
    requires rest == [] || !IsDigit(rest[0])
    ensures SplitDigits(d + rest) == (d, rest)
    decreases |d|
  {
    if d == [] {
      assert d + rest == rest;
    } else {
      assert (d + rest)[0] == d[0];
      assert (d + rest)[1..] == d[1..] + rest;
      SplitDigitsOfConcat(d[1..], rest);
      assert [d[0]] + d[1..] == d;
    }
  }

  /** Reads the number written at the start of `s` up to `mark`; gives it and what follows the mark. */
  function ReadNumberThen(s: string, mark: string): Option<(nat, string)> {
    var (ds, rest) := SplitDigits(s);
    if ds == [] || !StartsWith(rest, mark) then None
    else Some((DigitsValue(ds), rest[|mark|..]))
  }

  /** A number's decimal text followed by a mark that does not start with a digit reads back. */
  lemma ReadNumberThenOfConcat(n: nat, mark: string, rest: string)
    requires mark != [] && !IsDigit(mark[0])
    ensures ReadNumberThen(NatToString(n) + mark + rest, mark) == Some((n, rest))
  {
    var ds := NatToString(n);
    AppendAssociative(ds, mark, rest);
    assert (mark + rest)[0] == mark[0];
    SplitDigitsOfConcat(ds, mark + rest);
    EndsWithAppended(mark, rest);
    assert (mark + rest)[|mark|..] == rest;
    DigitsValueOfNatToString(n);
  }
}
