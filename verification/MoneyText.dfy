/** Money as decimal text: printing it, and reading it back digit by digit. */
module MoneyText {
  import opened Prelude
  import opened Arith
  import opened Money
  import opened Decimal

  const MONEY_SCALE: nat := 2

  /** 12345 becomes "123.45". */
  function MinorToNumeric(value: int): string {
    var digits := PadStart(Print(Abs(value)), MONEY_SCALE + 1);
    var n := |digits| - MONEY_SCALE;
    (if value < 0 then "-" else "") + digits[..n] + "." + digits[n..]
  }

  // ---------------------------------------------------------------- reading

  predicate IsSpace(c: char) {
    || c in " \t\n\r" || c == '\U{B}' || c == '\U{C}' || c == '\U{A0}' || c == '\U{1680}' || '\U{2000}' <= c <= '\U{200A}'
    || c == '\U{2028}' || c == '\U{2029}' || c == '\U{202F}' || c == '\U{205F}' || c == '\U{3000}' || c == '\U{FEFF}'
  }

  function TrimStart(s: string): string {
    if s != "" && IsSpace(s[0]) then TrimStart(s[1..]) else s
  }

  function TrimEnd(s: string): string {
    if s != "" && IsSpace(s[|s|-1]) then TrimEnd(s[..|s|-1]) else s
  }

  function Trim(s: string): string { TrimEnd(TrimStart(s)) }

  /** A decimal number as written: an optional sign, digits, and perhaps a fraction. */
  datatype Parts = Parts(negative: bool, whole: string, fraction: string)

  function Dot(s: string): (i: nat)
    ensures i <= |s|
  {
    if s == "" || s[0] == '.' then 0 else 1 + Dot(s[1..])
  }

  function Parse(s: string): Option<Parts> {
    var signed := s != "" && (s[0] == '+' || s[0] == '-');
    var body := if signed then s[1..] else s;
    var i := Dot(body);
    var whole, fraction := body[..i], if i < |body| then body[i+1..] else "";
    if whole != "" && AllDigits(whole) && AllDigits(fraction)
    then Some(Parts(signed && s[0] == '-', whole, fraction)) else None
  }

  predicate Significant(s: string) { exists i :: 0 <= i < |s| && '1' <= s[i] <= '9' }

  function StripZeros(s: string): string {
    if |s| > 1 && s[0] == '0' then StripZeros(s[1..]) else s
  }

  function PadEnd(s: string, n: nat): (r: string)
    ensures |r| >= n && |r| >= |s|
  {
    if |s| >= n then s else s + Zeros(n - |s|)
  }

  function Kept(fraction: string, exponent: nat): string {
    PadEnd(fraction[..Min(exponent, |fraction|)], exponent)
  }

  function Dropped(fraction: string, exponent: nat): string {
    fraction[Min(exponent, |fraction|)..]
  }

  lemma KeptDigits(p: Parts, exponent: nat)
    requires AllDigits(p.whole) && AllDigits(p.fraction)
    ensures AllDigits(p.whole + Kept(p.fraction, exponent)) && AllDigits(StripZeros(p.whole + Kept(p.fraction, exponent)))
    ensures Value(StripZeros(p.whole + Kept(p.fraction, exponent))) == Value(p.whole + Kept(p.fraction, exponent))
  {
    StripKeepsValue(p.whole + Kept(p.fraction, exponent));
  }

  lemma {:induction false} StripKeepsValue(s: string)
    requires AllDigits(s)
    ensures AllDigits(StripZeros(s)) && Value(StripZeros(s)) == Value(s)
  {
    if |s| > 1 && s[0] == '0' {
      StripKeepsValue(s[1..]);
      assert s == [s[0]] + s[1..];
      ValueConcat([s[0]], s[1..]);
      assert [s[0]][..0] == "";
      assert Value([s[0]]) == 0 && 0 * Pow10(|s[1..]|) == 0;
    }
  }

  /** Digit by digit, never through a float; refuses what it would have to round. */
  function ToMinorFromDecimal(raw: string, exponent: nat): Result<int> {
    if exponent != 0 && exponent != 2 && exponent != 3 then Err(BadRate)
    else
      match Parse(Trim(raw))
      case None => Err(NotADecimal)
      case Some(p) =>
        if Significant(Dropped(p.fraction, exponent)) then Err(TooPrecise)
        else
          ParsedDigits(Trim(raw));
          KeptDigits(p, exponent);
          var value := Value(StripZeros(p.whole + Kept(p.fraction, exponent)));
          if !Safe(value) then Err(OutOfRange)
          else ToMinor(if p.negative then -value else value)
  }

  lemma ParsedDigits(s: string)
    requires Parse(s).Some?
    ensures AllDigits(Parse(s).value.whole) && AllDigits(Parse(s).value.fraction)
  {
  }

  function NumericToMinor(raw: string): Result<int> { ToMinorFromDecimal(raw, MONEY_SCALE) }

  // ------------------------------------------------------------------- laws

  /** Minor units m are exactly the number written: m / 10^exponent equals it. */
  ghost predicate Denotes(p: Parts, exponent: nat, m: int)
    requires AllDigits(p.whole) && AllDigits(p.fraction)
  {
    m * Pow10(|p.fraction|) == (if p.negative then -1 else 1) * (Value(p.whole + p.fraction) * Pow10(exponent))
  }

  lemma {:induction false} PowAdd(a: nat, b: nat)
    ensures Pow10(a + b) == Pow10(a) * Pow10(b)
  {
    if a > 0 {
      PowAdd(a - 1, b);
      TimesAssociates(10, Pow10(a - 1), Pow10(b));
    }
  }

  lemma TimesAssociates(a: int, b: int, c: int)
    ensures (a * b) * c == a * (b * c)
    ensures a * b == b * a
  {
  }

  /** A positive factor can be cancelled. */
  lemma Cancel(a: int, b: int, c: int)
    requires c > 0 && a * c == b * c
    ensures a == b
  {
    if a < b { Gap(b, a, 1, c); }
    if b < a { Gap(a, b, 1, c); }
  }

  /** Short fractions are padded: the digits read are the number scaled up. */
  lemma ShortFraction(p: Parts, exponent: nat)
    requires AllDigits(p.whole) && AllDigits(p.fraction) && |p.fraction| <= exponent
    ensures !Significant(Dropped(p.fraction, exponent))
    ensures AllDigits(p.whole + Kept(p.fraction, exponent))
    ensures Value(p.whole + Kept(p.fraction, exponent)) * Pow10(|p.fraction|) == Value(p.whole + p.fraction) * Pow10(exponent)
  {
    var zeros := Zeros(exponent - |p.fraction|);
    assert Dropped(p.fraction, exponent) == "";
    assert p.fraction[..|p.fraction|] == p.fraction;
    assert p.fraction + "" == p.fraction;
    assert p.whole + Kept(p.fraction, exponent) == (p.whole + p.fraction) + zeros;
    ValueConcat(p.whole + p.fraction, zeros);
    ZerosValue(|zeros|);
    PowAdd(|zeros|, |p.fraction|);
    TimesAssociates(Value(p.whole + p.fraction), Pow10(|zeros|), Pow10(|p.fraction|));
  }

  lemma {:induction false} SignificantMeansPositive(s: string)
    requires AllDigits(s)
    ensures Significant(s) <==> Value(s) > 0
  {
    if s != "" {
      var n := |s| - 1;
      SignificantMeansPositive(s[..n]);
      if Significant(s) && !('1' <= s[n] <= '9') {
        var i :| 0 <= i < |s| && '1' <= s[i] <= '9';
        assert s[..n][i] == s[i];
      }
      if Significant(s[..n]) {
        var i :| 0 <= i < n && '1' <= s[..n][i] <= '9';
        assert '1' <= s[i] <= '9';
      }
    }
  }

  /** Long fractions are cut: what is read is the number without its dropped digits. */
  lemma LongFraction(p: Parts, exponent: nat)
    requires AllDigits(p.whole) && AllDigits(p.fraction) && |p.fraction| > exponent
    ensures var dropped := Dropped(p.fraction, exponent);
      && AllDigits(dropped) && |dropped| == |p.fraction| - exponent
      && AllDigits(p.whole + Kept(p.fraction, exponent))
      && Value(p.whole + p.fraction) == Value(p.whole + Kept(p.fraction, exponent)) * Pow10(|dropped|) + Value(dropped)
      && Value(dropped) < Pow10(|dropped|)
  {
    var dropped := Dropped(p.fraction, exponent);
    var kept := Kept(p.fraction, exponent);
    assert kept == p.fraction[..exponent];
    assert p.whole + p.fraction == (p.whole + kept) + dropped;
    ValueConcat(p.whole + kept, dropped);
    ValueBound(dropped);
  }

  /** The only whole number of units a long fraction can denote drops nothing but zeros. */
  lemma LongFractionDenotes(p: Parts, exponent: nat, m: int)
    requires AllDigits(p.whole) && AllDigits(p.fraction) && |p.fraction| > exponent
    ensures AllDigits(p.whole + Kept(p.fraction, exponent))
    ensures Denotes(p, exponent, m) <==>
      !Significant(Dropped(p.fraction, exponent))
      && m == (if p.negative then -1 else 1) * Value(p.whole + Kept(p.fraction, exponent))
  {
    LongFraction(p, exponent);
    var dropped := Dropped(p.fraction, exponent);
    var k, n, d := Value(p.whole + Kept(p.fraction, exponent)), Value(p.whole + p.fraction), Pow10(|dropped|);
    var sign := if p.negative then -1 else 1;
    SignificantMeansPositive(dropped);
    PowAdd(|dropped|, exponent);
    hide Significant, Kept, Dropped, Pow10, Value;
    LongScale(m, sign * n, d, Pow10(exponent));
    assert sign * (n * Pow10(exponent)) == (sign * n) * Pow10(exponent) by { TimesAssociates(sign, n, Pow10(exponent)); }
    assert Denotes(p, exponent, m) <==> m * d == sign * n;
    SignedQuotient(m, sign, k, d, Value(dropped));
  }

  lemma LongScale(m: int, n: int, d: int, e: int)
    requires d > 0 && e > 0
    ensures m * (d * e) == n * e <==> m * d == n
  {
    TimesAssociates(m, d, e);
    if m * (d * e) == n * e { Cancel(m * d, n, e); }
  }

  lemma SignedQuotient(m: int, sign: int, k: int, d: int, r: int)
    requires (sign == 1 || sign == -1) && d > 0 && 0 <= r < d && k >= 0
    ensures m * d == sign * (k * d + r) <==> r == 0 && m == sign * k
  {
    var a := sign * m;
    assert sign == -1 ==> a * d == -(m * d) by { Distribute(0, m, d); }
    assert m * d == sign * (k * d + r) <==> a * d == k * d + r;
    if a * d == k * d + r {
      if a > k { Gap(a, k, 1, d); }
      if a < k { Gap(k, a, 1, d); }
    }
  }

  lemma ShortFractionDenotes(p: Parts, exponent: nat, m: int)
    requires AllDigits(p.whole) && AllDigits(p.fraction) && |p.fraction| <= exponent
    ensures AllDigits(p.whole + Kept(p.fraction, exponent))
    ensures !Significant(Dropped(p.fraction, exponent))
    ensures Denotes(p, exponent, m) <==> m == (if p.negative then -1 else 1) * Value(p.whole + Kept(p.fraction, exponent))
  {
    ShortFraction(p, exponent);
    var k, f := Value(p.whole + Kept(p.fraction, exponent)), Pow10(|p.fraction|);
    var sign := if p.negative then -1 else 1;
    hide Significant, Kept, Dropped, Pow10, Value;
    Distribute(0, k, f);
    if m * f == (sign * k) * f { Cancel(m, sign * k, f); }
  }

  /** The number of minor units that text within the scale stands for, and that no other number is. */
  lemma UnitsOf(p: Parts, exponent: nat) returns (m: int)
    requires AllDigits(p.whole) && AllDigits(p.fraction)
    ensures AllDigits(p.whole + Kept(p.fraction, exponent)) && AllDigits(StripZeros(p.whole + Kept(p.fraction, exponent)))
    ensures m == (if p.negative then -1 else 1) * Value(StripZeros(p.whole + Kept(p.fraction, exponent)))
    ensures forall k :: Denotes(p, exponent, k) <==> !Significant(Dropped(p.fraction, exponent)) && k == m
  {
    KeptDigits(p, exponent);
    hide Denotes, Kept, Significant, Dropped, StripZeros, Value;
    m := (if p.negative then -1 else 1) * Value(StripZeros(p.whole + Kept(p.fraction, exponent)));
    forall k ensures Denotes(p, exponent, k) <==> !Significant(Dropped(p.fraction, exponent)) && k == m {
      if |p.fraction| <= exponent {
        ShortFractionDenotes(p, exponent, k);
      } else {
        LongFractionDenotes(p, exponent, k);
      }
    }
  }

  /** Well-formed text is read exactly when it is a whole, in-range number of minor units, and then as that number. */
  lemma ReadsExactly(raw: string, exponent: nat, m: int)
    requires exponent == 0 || exponent == 2 || exponent == 3
    requires Parse(Trim(raw)).Some?
    ensures AllDigits(Parse(Trim(raw)).value.whole) && AllDigits(Parse(Trim(raw)).value.fraction)
    ensures ToMinorFromDecimal(raw, exponent) == Ok(m) <==> Denotes(Parse(Trim(raw)).value, exponent, m) && InRange(m)
  {
    hide Trim, Parse, Denotes, Kept, Significant, Dropped, StripZeros, Value;
    ParsedDigits(Trim(raw));
    var u := UnitsOf(Parse(Trim(raw)).value, exponent);
  }

  /**
   * The reader refuses text that is no decimal, a decimal that is no whole number of minor units, and
   * a whole number out of range, each under its own name and nothing else under it.
   */
  lemma ReadFailures(raw: string, exponent: nat)
    requires exponent == 0 || exponent == 2 || exponent == 3
    ensures ToMinorFromDecimal(raw, exponent) == Err(NotADecimal) <==> Parse(Trim(raw)).None?
    ensures Parse(Trim(raw)).Some? ==> AllDigits(Parse(Trim(raw)).value.whole) && AllDigits(Parse(Trim(raw)).value.fraction)
    ensures Parse(Trim(raw)).Some? ==>
      && (ToMinorFromDecimal(raw, exponent) == Err(TooPrecise) <==> forall m :: !Denotes(Parse(Trim(raw)).value, exponent, m))
      && (ToMinorFromDecimal(raw, exponent) == Err(OutOfRange)
          <==> exists m :: Denotes(Parse(Trim(raw)).value, exponent, m) && !InRange(m))
  {
    hide Trim, Parse, Denotes, Kept, Significant, Dropped, StripZeros, Value;
    if Parse(Trim(raw)).Some? {
      ParsedDigits(Trim(raw));
      var m := UnitsOf(Parse(Trim(raw)).value, exponent);
      assert !Significant(Dropped(Parse(Trim(raw)).value.fraction, exponent)) ==> Denotes(Parse(Trim(raw)).value, exponent, m);
    }
  }

  // ---------------------------------------------------------------- round trip

  lemma {:induction false} DotAfterDigits(s: string, t: string)
    requires AllDigits(s)
    ensures Dot(s + "." + t) == |s|
  {
    if s == "" {
      assert (s + "." + t)[0] == '.';
    } else {
      DotAfterDigits(s[1..], t);
      assert (s + "." + t)[1..] == s[1..] + "." + t;
    }
  }

  lemma NotTrimmed(s: string)
    requires s != "" && !IsSpace(s[0]) && !IsSpace(s[|s|-1])
    ensures Trim(s) == s
  {
  }

  lemma DigitIsNotSpace(c: char)
    requires IsDigit(c) || c == '-'
    ensures !IsSpace(c) && (IsDigit(c) ==> c != '+' && c != '-')
  {
  }

  /** Written out as sign, whole part, dot and fraction. */
  function Written(p: Parts): string { (if p.negative then "-" else "") + p.whole + "." + p.fraction }

  lemma WrittenBody(p: Parts)
    requires AllDigits(p.whole) && p.whole != ""
    ensures var s, body := Written(p), p.whole + "." + p.fraction;
      && s != "" && (if p.negative then s[0] == '-' && s[1..] == body else s == body && s[0] == p.whole[0])
      && Dot(body) == |p.whole| && body[..|p.whole|] == p.whole && body[|p.whole|+1..] == p.fraction
  {
    var s, body := Written(p), p.whole + "." + p.fraction;
    DotAfterDigits(p.whole, p.fraction);
    assert s == if p.negative then ['-'] + body else body;
  }

  lemma WrittenParses(p: Parts)
    requires AllDigits(p.whole) && p.whole != "" && AllDigits(p.fraction)
    ensures Parse(Written(p)) == Some(p)
  {
    WrittenBody(p);
    DigitIsNotSpace(p.whole[0]);
    hide Written, Dot, IsSpace;
    assert |p.whole| < |p.whole + "." + p.fraction|;
  }

  lemma WrittenIsTrimmed(p: Parts)
    requires AllDigits(p.whole) && p.whole != "" && AllDigits(p.fraction) && p.fraction != ""
    ensures Trim(Written(p)) == Written(p)
  {
    var s := Written(p);
    WrittenBody(p);
    assert s[|s|-1] == p.fraction[|p.fraction|-1];
    DigitIsNotSpace(p.whole[0]);
    DigitIsNotSpace(p.fraction[|p.fraction|-1]);
    DigitIsNotSpace('-');
    hide Written, IsSpace, Trim;
    NotTrimmed(s);
  }

  /** Printed money is well-formed: its sign, its whole part and its two decimals. */
  lemma PrintedParts(value: int) returns (p: Parts)
    ensures p.negative == (value < 0) && AllDigits(p.whole) && p.whole != "" && AllDigits(p.fraction) && |p.fraction| == 2
    ensures AllDigits(p.whole + p.fraction) && Value(p.whole + p.fraction) == Abs(value)
    ensures MinorToNumeric(value) == Written(p)
  {
    hide Value, Print, PadStart;
    PrintValue(Abs(value));
    PadValue(Print(Abs(value)), MONEY_SCALE + 1);
    var digits := PadStart(Print(Abs(value)), MONEY_SCALE + 1);
    var n := |digits| - 2;
    p := Parts(value < 0, digits[..n], digits[n..]);
    assert p.whole + p.fraction == digits;
  }

  /** What is written to a money column is what is read back. */
  lemma MoneyRoundTrip(value: int)
    requires InRange(value)
    ensures NumericToMinor(MinorToNumeric(value)) == Ok(value)
  {
    hide *;
    var p := PrintedParts(value);
    WrittenParses(p);
    WrittenIsTrimmed(p);
    PrintedDenotes(p, value);
    assert NumericToMinor(MinorToNumeric(value))
        == ToMinorFromDecimal(MinorToNumeric(value), 2) by { ReadAtScale(MinorToNumeric(value)); }
    ReadsExactly(MinorToNumeric(value), 2, value);
  }

  lemma ReadAtScale(raw: string)
    ensures NumericToMinor(raw) == ToMinorFromDecimal(raw, 2)
  {
  }

  lemma PrintedDenotes(p: Parts, value: int)
    requires p.negative == (value < 0) && AllDigits(p.whole) && AllDigits(p.fraction) && |p.fraction| == 2
    requires AllDigits(p.whole + p.fraction) && Value(p.whole + p.fraction) == Abs(value)
    ensures Denotes(p, 2, value)
  {
    hide Value;
    assert Pow10(2) == 10 * Pow10(1) && Pow10(1) == 10 * Pow10(0);
  }
}
