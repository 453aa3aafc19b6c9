/** Text as Python and Postgres see it: sequences of code points. */
module Texts {

  datatype Option<+T> = None | Some(value: T)

  /** A Python `str` element: any code point, surrogates included. */
  type CodePoint = c: int | 0 <= c < 0x110000

  type Text = seq<CodePoint>

  type Byte = b: int | 0 <= b < 256

  /** An ASCII literal written as a Dafny string. */
  function Lit(s: string): (t: Text)
    requires forall i :: 0 <= i < |s| ==> s[i] as int < 128
    ensures |t| == |s|
    ensures forall i :: 0 <= i < |s| ==> t[i] == s[i] as int
  {
    seq(|s|, i requires 0 <= i < |s| => s[i] as int)
  }

  predicate IsHigh(c: CodePoint) { 0xD800 <= c < 0xDC00 }

  predicate IsLow(c: CodePoint) { 0xDC00 <= c < 0xE000 }

  predicate IsSurrogate(c: CodePoint) { 0xD800 <= c < 0xE000 }

  /** Every element is a Unicode scalar value. */
  predicate Scalar(t: Text) { forall i :: 0 <= i < |t| ==> !IsSurrogate(t[i]) }

  /** Code-point order on strings, which is Python's `<`. */
  predicate Before(a: Text, b: Text) {
    if b == [] then false
    else if a == [] then true
    else a[0] < b[0] || (a[0] == b[0] && Before(a[1..], b[1..]))
  }

  /** What that order is: a string comes before its own continuations, and otherwise the smaller code point at the
      first difference decides. */
  predicate Earlier(a: Text, b: Text) {
    || (|a| < |b| && a == b[..|a|])
    || exists k :: 0 <= k < |a| && k < |b| && a[..k] == b[..k] && a[k] < b[k]
  }

  lemma {:induction false} BeforeIff(a: Text, b: Text)
    ensures Before(a, b) <==> Earlier(a, b)
  {
    if a != [] && b != [] && a[0] == b[0] {
      BeforeIff(a[1..], b[1..]);
      EarlierTails(a, b);
    } else if a != [] && b != [] && a[0] < b[0] {
      assert a[..0] == b[..0];
    }
  }

  lemma EarlierTails(a: Text, b: Text)
    requires a != [] && b != [] && a[0] == b[0]
    ensures Earlier(a, b) <==> Earlier(a[1..], b[1..])
  {
    var x, y := a[1..], b[1..];
    if |a| <= |b| { assert a == [a[0]] + x && b[..|a|] == [b[0]] + y[..|x|]; }
    if k: nat :| 0 <= k < |a| && k < |b| && a[..k] == b[..k] && a[k] < b[k] {
      assert x[..k - 1] == a[..k][1..] && y[..k - 1] == b[..k][1..] && x[k - 1] < y[k - 1];
    }
    if k: nat :| 0 <= k < |x| && k < |y| && x[..k] == y[..k] && x[k] < y[k] {
      assert a[..k + 1] == [a[0]] + x[..k] && b[..k + 1] == [b[0]] + y[..k] && a[k + 1] < b[k + 1];
    }
  }

  lemma {:induction false} BeforeIrreflexive(a: Text)
    ensures !Before(a, a)
  {
    if a != [] { BeforeIrreflexive(a[1..]); }
  }

  lemma {:induction false} BeforeTransitive(a: Text, b: Text, c: Text)
    requires Before(a, b) && Before(b, c)
    ensures Before(a, c)
  {
    if a != [] && a[0] == b[0] == c[0] { BeforeTransitive(a[1..], b[1..], c[1..]); }
  }

  lemma {:induction false} BeforeConnected(a: Text, b: Text)
    ensures a == b || Before(a, b) || Before(b, a)
  {
    if a != [] && b != [] && a[0] == b[0] {
      BeforeConnected(a[1..], b[1..]);
      assert a == [a[0]] + a[1..] && b == [b[0]] + b[1..];
    }
  }

  // ---------------------------------------------------------------- hex digits

  type Nibble = n: int | 0 <= n < 16

  function HexDigit(n: Nibble): (c: CodePoint)
    ensures 0x30 <= c <= 0x39 || 0x61 <= c <= 0x66
  {
    if n < 10 then 0x30 + n else 0x57 + n
  }

  /** Both cases are read, only the lower case is written. */
  function HexValue(c: CodePoint): (r: Option<nat>)
    ensures r.Some? ==> r.value < 16
    ensures r.Some? <==> 0x30 <= c <= 0x39 || 0x41 <= c <= 0x46 || 0x61 <= c <= 0x66
  {
    if 0x30 <= c <= 0x39 then Some(c - 0x30)
    else if 0x41 <= c <= 0x46 then Some(c - 0x37)
    else if 0x61 <= c <= 0x66 then Some(c - 0x57)
    else None
  }

  /** The digits that are written and the digits that are read. */
  lemma HexTable(n: Nibble)
    ensures HexDigit(n) == Lit("0123456789abcdef")[n]
    ensures HexValue(Lit("0123456789abcdef")[n]) == HexValue(Lit("0123456789ABCDEF")[n]) == Some(n)
  {
  }
}
