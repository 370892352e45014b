/** Rust's `Display` for integers and the `"<Kind> (x, y, z)"` layout that
    every coordinate kind renders, with the proof that the rendering loses
    nothing: two triples render alike only when they are equal. */
module Text {

  predicate IsDigit(c: char)
  {
    '0' <= c <= '9'
  }

  predicate AllDigits(s: string)
  {
    forall i :: 0 <= i < |s| ==> IsDigit(s[i])
  }

  function DigitChar(d: nat): (c: char)
    requires d < 10
    ensures IsDigit(c) && c as int - '0' as int == d
  {
    (d + '0' as int) as char
  }

  function DigitValue(c: char): (d: nat)
    requires IsDigit(c)
    ensures d < 10 && DigitChar(d) == c
  {
    c as int - '0' as int
  }

  /** Decimal digits of `n`, most significant first, without leading zeros. */
  function NatToDecimal(n: nat): (s: string)
    ensures |s| >= 1 && AllDigits(s)
  {
    if n < 10 then [DigitChar(n)] else NatToDecimal(n / 10) + [DigitChar(n % 10)]
  }

  /** Reads a string of decimal digits back as a number. */
  function DecimalToNat(s: string): nat
    requires AllDigits(s)
  {
    if s == [] then 0 else DecimalToNat(s[..|s| - 1]) * 10 + DigitValue(s[|s| - 1])
  }

  /** How Rust prints an integer: a minus sign for negatives, then the digits. */
  function IntToDecimal(n: int): (s: string)
    ensures |s| >= 1
    ensures forall i :: 0 <= i < |s| ==> s[i] == '-' || IsDigit(s[i])
  {
    if n < 0 then "-" + NatToDecimal(-n) else NatToDecimal(n)
  }

  lemma {:induction false} DecimalRoundTrip(n: nat)
    ensures DecimalToNat(NatToDecimal(n)) == n
  {
    var s := NatToDecimal(n);
    if n >= 10 {
      DecimalRoundTrip(n / 10);
      assert s[..|s| - 1] == NatToDecimal(n / 10);
    }
  }

  /** Reads Rust's rendering of an integer back. */
  function DecimalToInt(s: string): int
    requires |s| >= 1
    requires forall i :: 0 <= i < |s| ==> s[i] == '-' || IsDigit(s[i])
  {
    if s[0] == '-' && AllDigits(s[1..]) then -(DecimalToNat(s[1..]) as int)
    else if AllDigits(s) then DecimalToNat(s)
    else 0
  }

  lemma IntDecimalRoundTrip(n: int)
    ensures DecimalToInt(IntToDecimal(n)) == n
  {
    var s := IntToDecimal(n);
    if n < 0 {
      assert s[1..] == NatToDecimal(-n);
      DecimalRoundTrip(-n);
    } else {
      DecimalRoundTrip(n);
    }
  }

  /** Distinct integers print differently. */
  lemma IntToDecimalInjective(a: int, b: int)
    ensures IntToDecimal(a) == IntToDecimal(b) ==> a == b
  {
    IntDecimalRoundTrip(a);
    IntDecimalRoundTrip(b);
  }

  /** `"x, y"` for two integers: the inner list of a coordinate's rendering. */
  function Pair(x: int, y: int): string
  {
    IntToDecimal(x) + ", " + IntToDecimal(y)
  }

  /** `"x, y, z"` for three integers. */
  function Fields(x: int, y: int, z: int): string
  {
    IntToDecimal(x) + ", " + Pair(y, z)
  }

  /** `"<kind> (x, y, z)"`, the layout of every coordinate's `Display`. */
  function Triple(kind: string, x: int, y: int, z: int): string
  {
    kind + " (" + Fields(x, y, z) + ")"
  }

  predicate NoComma(s: string)
  {
    forall i :: 0 <= i < |s| ==> s[i] != ','
  }

  /** A comma-free head followed by a comma splits a string in one way only. */
  lemma SplitAtComma(a: string, r1: string, b: string, r2: string)
    requires NoComma(a) && NoComma(b)
    requires a + [','] + r1 == b + [','] + r2
    ensures a == b && r1 == r2
  {
    var s := a + [','] + r1;
    assert s[|a|] == ',' && s[|b|] == ',';
    assert forall i :: 0 <= i < |a| ==> s[i] == a[i];
    assert forall i :: 0 <= i < |b| ==> s[i] == b[i];
    assert |a| == |b|;
    assert a == s[..|a|] && b == s[..|b|];
    assert r1 == s[|a| + 1..] && r2 == s[|b| + 1..];
  }

  /** Splits `"x, rest"` at its first comma into the number and the rest. */
  lemma SplitLeading(x1: int, r1: string, x2: int, r2: string)
    requires IntToDecimal(x1) + ", " + r1 == IntToDecimal(x2) + ", " + r2
    ensures x1 == x2 && r1 == r2
  {
    var a, b := IntToDecimal(x1), IntToDecimal(x2);
    assert a + ", " + r1 == a + [','] + (" " + r1);
    assert b + ", " + r2 == b + [','] + (" " + r2);
    SplitAtComma(a, " " + r1, b, " " + r2);
    assert r1 == (" " + r1)[1..] && r2 == (" " + r2)[1..];
    IntToDecimalInjective(x1, x2);
  }

  lemma PairInjective(x1: int, y1: int, x2: int, y2: int)
    requires Pair(x1, y1) == Pair(x2, y2)
    ensures x1 == x2 && y1 == y2
  {
    SplitLeading(x1, IntToDecimal(y1), x2, IntToDecimal(y2));
    IntToDecimalInjective(y1, y2);
  }

  lemma FieldsInjective(x1: int, y1: int, z1: int, x2: int, y2: int, z2: int)
    requires Fields(x1, y1, z1) == Fields(x2, y2, z2)
    ensures x1 == x2 && y1 == y2 && z1 == z2
  {
    SplitLeading(x1, Pair(y1, z1), x2, Pair(y2, z2));
    PairInjective(y1, z1, y2, z2);
  }

  /** Rendering a triple is injective: the text determines all three numbers. */
  lemma TripleInjective(kind: string, x1: int, y1: int, z1: int, x2: int, y2: int, z2: int)
    requires Triple(kind, x1, y1, z1) == Triple(kind, x2, y2, z2)
    ensures x1 == x2 && y1 == y2 && z1 == z2
  {
    var p := kind + " (";
    var f1, f2 := Fields(x1, y1, z1), Fields(x2, y2, z2);
    var s1, s2 := Triple(kind, x1, y1, z1), Triple(kind, x2, y2, z2);
    assert f1 == s1[|p|..|s1| - 1];
    assert f2 == s2[|p|..|s2| - 1];
    FieldsInjective(x1, y1, z1, x2, y2, z2);
  }
}
