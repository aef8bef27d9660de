/** Digit strings: their value, their order as text, and printing a number. */
module Decimal {
  import Text

  predicate IsDigit(c: char) { '0' <= c <= '9' }

  predicate AllDigits(s: string) { forall i :: 0 <= i < |s| ==> IsDigit(s[i]) }

  function Digit(c: char): (d: int)
    requires IsDigit(c)
    ensures 0 <= d <= 9
  {
    (c as int) - ('0' as int)
  }

  function DigitChar(d: int): (c: char)
    requires 0 <= d <= 9
    ensures IsDigit(c) && Digit(c) == d
  {
    (d + ('0' as int)) as char
  }

  /** The number a digit string denotes. */
  function Value(s: string): (v: int)
    requires AllDigits(s)
    ensures v >= 0
  {
    if s == "" then 0 else Value(s[..|s|-1]) * 10 + Digit(s[|s|-1])
  }

  /** The shortest digit string of a number. */
  function Print(n: nat): (s: string)
    ensures AllDigits(s) && s != ""
  {
    if n < 10 then [DigitChar(n)] else Print(n / 10) + [DigitChar(n % 10)]
  }

  function Zeros(n: nat): (s: string)
    ensures |s| == n && AllDigits(s)
    ensures forall i :: 0 <= i < n ==> s[i] == '0'
  {
    seq(n, i => '0')
  }

  function PadStart(s: string, n: nat): (r: string)
    ensures |r| >= n && |r| >= |s|
  {
    if |s| >= n then s else Zeros(n - |s|) + s
  }

  function Pow10(n: nat): (p: int)
    ensures p >= 1
  {
    if n == 0 then 1 else 10 * Pow10(n - 1)
  }

  // -------------------------------------------------------------------- laws

  lemma {:induction false} PrintValue(n: nat)
    ensures Value(Print(n)) == n
  {
    var s := Print(n);
    if n >= 10 {
      PrintValue(n / 10);
      assert s[..|s|-1] == Print(n / 10);
    } else {
      assert s[..0] == "";
    }
  }

  lemma {:induction false} ValueConcat(s: string, t: string)
    requires AllDigits(s) && AllDigits(t)
    ensures AllDigits(s + t) && Value(s + t) == Value(s) * Pow10(|t|) + Value(t)
  {
    if t == "" {
      assert s + t == s;
    } else {
      var n := |t| - 1;
      ValueConcat(s, t[..n]);
      assert (s + t)[..|s + t| - 1] == s + t[..n];
      Shift(Value(s), Pow10(n), Value(t[..n]));
    }
  }

  lemma Shift(a: int, p: int, b: int)
    ensures (a * p + b) * 10 == a * (10 * p) + b * 10
  {
  }

  lemma {:induction false} ValueBound(s: string)
    requires AllDigits(s)
    ensures Value(s) < Pow10(|s|)
  {
    if s != "" { ValueBound(s[..|s|-1]); }
  }

  lemma {:induction false} ZerosValue(n: nat)
    ensures Value(Zeros(n)) == 0
  {
    if n > 0 {
      assert Zeros(n)[..n-1] == Zeros(n - 1);
      ZerosValue(n - 1);
    }
  }

  /** Padding with zeros changes the text, not the number. */
  lemma PadValue(s: string, n: nat)
    requires AllDigits(s)
    ensures AllDigits(PadStart(s, n)) && Value(PadStart(s, n)) == Value(s)
  {
    if |s| < n {
      ZerosValue(n - |s|);
      ValueConcat(Zeros(n - |s|), s);
      assert 0 * Pow10(|s|) == 0;
    }
  }

  // ------------------------------------------------------------ text ordering

  /** Comparing equal-length texts is comparing a prefix, then the rest. */
  lemma {:induction false} LtSplit(a: string, b: string, i: nat)
    requires |a| == |b| && i <= |a|
    ensures Text.Lt(a, b) <==> Text.Lt(a[..i], b[..i]) || (a[..i] == b[..i] && Text.Lt(a[i..], b[i..]))
  {
    if i == 0 {
      assert a[0..] == a && b[0..] == b;
    } else {
      LtSplit(a[1..], b[1..], i - 1);
      assert a[1..][..i-1] == a[1..i] && b[1..][..i-1] == b[1..i];
      assert a[1..][i-1..] == a[i..] && b[1..][i-1..] == b[i..];
      assert a[..i][1..] == a[1..i] && b[..i][1..] == b[1..i];
      assert a[..i] == [a[0]] + a[1..i] && b[..i] == [b[0]] + b[1..i];
    }
  }

  lemma LtChar(a: char, b: char)
    ensures Text.Lt([a], [b]) <==> a < b
  {
    assert [a][1..] == [] && [b][1..] == [];
  }

  /** Equal-length digit strings are ordered as the numbers they denote. */
  lemma {:induction false} DigitsOrder(s: string, t: string)
    requires |s| == |t| && AllDigits(s) && AllDigits(t)
    ensures Text.Lt(s, t) <==> Value(s) < Value(t)
    ensures s == t <==> Value(s) == Value(t)
  {
    if s != "" {
      var n := |s| - 1;
      DigitsOrder(s[..n], t[..n]);
      LtSplit(s, t, n);
      assert s[n..] == [s[n]] && t[n..] == [t[n]];
      LtChar(s[n], t[n]);
      assert s == s[..n] + [s[n]] && t == t[..n] + [t[n]];
    }
  }
}
