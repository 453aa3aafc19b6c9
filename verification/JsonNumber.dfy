/** JSON integers: decimal digits of unbounded Python ints. */
module JsonNumber {
  import opened Texts
  import opened JsonText

  predicate IsDigit(c: CodePoint) { 0x30 <= c <= 0x39 }

  function Digits(n: nat): (t: Text)
    ensures t != [] && (forall i :: 0 <= i < |t| ==> IsDigit(t[i]))
    ensures t[0] == 0x30 ==> n == 0 && t == [0x30]
  {
    if n < 10 then [0x30 + n] else Digits(n / 10) + [0x30 + n % 10]
  }

  function ShowInt(n: int): Text {
    if n < 0 then [0x2D] + Digits(-n) else Digits(n)
  }

  /** How many digits open `s`. */
  function DigitRun(s: Text): (k: nat)
    ensures k <= |s| && (forall i :: 0 <= i < k ==> IsDigit(s[i]))
  {
    if s == [] || !IsDigit(s[0]) then 0 else 1 + DigitRun(s[1..])
  }

  function Decimal(t: Text): nat
    requires forall i :: 0 <= i < |t| ==> IsDigit(t[i])
  {
    if t == [] then 0 else assert IsDigit(t[|t| - 1]); Decimal(t[..|t| - 1]) * 10 + (t[|t| - 1] - 0x30) as int
  }

  /** `s` goes on in a way that makes the digits before it a float literal. */
  predicate FloatTail(s: Text) {
    || (|s| >= 2 && s[0] == 0x2E && IsDigit(s[1]))
    || (|s| >= 2 && (s[0] == 0x65 || s[0] == 0x45) && IsDigit(s[1]))
    || (|s| >= 3 && (s[0] == 0x65 || s[0] == 0x45) && (s[1] == 0x2B || s[1] == 0x2D) && IsDigit(s[2]))
  }

  /** The digits of an integer literal: a lone zero, or a run that does not start with zero. */
  function IntegerLength(s: Text): (k: nat)
    ensures k <= |s| && (forall i :: 0 <= i < k ==> IsDigit(s[i]))
  {
    if s != [] && s[0] == 0x30 then 1 else DigitRun(s)
  }

  function ReadNat(s: Text): (r: Read<int>)
    ensures r.Got? ==> |r.rest| < |s|
  {
    var k := IntegerLength(s);
    if k == 0 then Fail(Malformed)
    else if FloatTail(s[k..]) then Fail(FloatLiteral)
    else Got(Decimal(s[..k]), s[k..])
  }

  function ReadInt(s: Text): (r: Read<int>)
    ensures r.Got? ==> |r.rest| < |s|
  {
    if s != [] && s[0] == 0x2D then
      match ReadNat(s[1..])
      case Got(n, rest) => Got(-n, rest)
      case Fail(why) => Fail(why)
    else ReadNat(s)
  }

  /** What may follow a number without being read into it. */
  predicate EndsNumber(rest: Text) {
    rest != [] ==> !IsDigit(rest[0]) && rest[0] != 0x2E && rest[0] != 0x65 && rest[0] != 0x45
  }

  lemma {:induction false} DecimalOfDigits(n: nat)
    ensures Decimal(Digits(n)) == n
  {
    if n >= 10 {
      DecimalOfDigits(n / 10);
      assert Digits(n)[..|Digits(n)| - 1] == Digits(n / 10);
    }
  }

  lemma {:induction false} DigitRunOf(t: Text, rest: Text)
    requires forall i :: 0 <= i < |t| ==> IsDigit(t[i])
    requires rest != [] ==> !IsDigit(rest[0])
    ensures DigitRun(t + rest) == |t|
  {
    if t == [] {
      assert t + rest == rest;
    } else {
      assert (t + rest)[1..] == t[1..] + rest;
      DigitRunOf(t[1..], rest);
    }
  }

  lemma {:induction false} NatRoundTrip(n: nat, rest: Text)
    requires EndsNumber(rest)
    ensures ReadNat(Digits(n) + rest) == Got(n, rest)
  {
    var s, t := Digits(n) + rest, Digits(n);
    DigitRunOf(t, rest);
    assert s[0] == t[0];
    assert IntegerLength(s) == |t|;
    assert s[..|t|] == t && s[|t|..] == rest;
    DecimalOfDigits(n);
  }

  lemma ReadNegative(s: Text)
    requires ReadNat(s).Got?
    ensures ReadInt([0x2D] + s) == Got(-ReadNat(s).value, ReadNat(s).rest)
  {
    assert ([0x2D] + s)[1..] == s;
  }

  lemma {:induction false} IntRoundTrip(n: int, rest: Text)
    requires EndsNumber(rest)
    ensures ReadInt(ShowInt(n) + rest) == Got(n, rest)
  {
    var s := Digits(if n < 0 then -n else n) + rest;
    NatRoundTrip(if n < 0 then -n else n, rest);
    if n < 0 {
      ReadNegative(s);
      assert ShowInt(n) + rest == [0x2D] + s;
    } else {
      assert s[0] == Digits(n)[0];
    }
  }
}
