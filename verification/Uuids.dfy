/** UUIDs as 32 hexadecimal digits, their text form (section 4 of RFC 9562) and Python's `UUID(...)`. */
module Uuids {
  import opened Texts

  type Uuid = u: seq<Nibble> | |u| == 32 witness seq(32, _ => 0)

  function HexText(u: seq<Nibble>): (t: Text)
    ensures |t| == |u|
    ensures forall i :: 0 <= i < |u| ==> t[i] == HexDigit(u[i])
  {
    seq(|u|, i requires 0 <= i < |u| => HexDigit(u[i]))
  }

  /** `str(uuid)`: lower-case digits grouped 8-4-4-4-12. */
  function ToText(u: Uuid): (t: Text)
    ensures |t| == 36
  {
    HexText(u[..8]) + [0x2D] + HexText(u[8..12]) + [0x2D] + HexText(u[12..16]) + [0x2D]
    + HexText(u[16..20]) + [0x2D] + HexText(u[20..])
  }

  /** `str.replace(word, "")`, left to right. */
  function Without(t: Text, word: Text): (r: Text)
    requires word != []
    decreases |t|
  {
    if t == [] then []
    else if |word| <= |t| && t[..|word|] == word then Without(t[|word|..], word)
    else [t[0]] + Without(t[1..], word)
  }

  predicate IsBrace(c: CodePoint) { c == 0x7B || c == 0x7D }

  function StripBraces(t: Text): Text
    decreases |t|
  {
    if t == [] then []
    else if IsBrace(t[0]) then StripBraces(t[1..])
    else if IsBrace(t[|t| - 1]) then StripBraces(t[..|t| - 1])
    else t
  }

  function HexNibbles(t: Text): (r: Option<seq<Nibble>>)
    ensures r.Some? ==> |r.value| == |t|
  {
    if t == [] then Some([])
    else
      match (HexValue(t[0]), HexNibbles(t[1..]))
      case (Some(n), Some(rest)) => Some([n as Nibble] + rest)
      case _ => None
  }

  const URN: Text := Lit("urn:")
  const UUID: Text := Lit("uuid:")

  /** The text without `urn:`, `uuid:` and outer braces. */
  function Bare(t: Text): Text { StripBraces(Without(Without(t, URN), UUID)) }

  function FromDigits(digits: Text): (r: Option<Uuid>) {
    if |digits| != 32 then None
    else
      match HexNibbles(digits)
      case None => None
      case Some(u) => Some(u)
  }

  /** `UUID(text)`: drops the words, the outer braces and every hyphen, then wants 32 digits. */
  function FromText(t: Text): Option<Uuid> { FromDigits(Without(Bare(t), [0x2D])) }

  // --------------------------------------------------------------- round trip

  lemma {:induction false} WithoutAbsent(t: Text, word: Text)
    requires word != [] && forall i :: 0 <= i < |t| ==> t[i] != word[|word| - 1]
    ensures Without(t, word) == t
  {
    if t != [] {
      if |word| <= |t| { assert t[..|word|][|word| - 1] == t[|word| - 1]; }
      WithoutAbsent(t[1..], word);
    }
  }

  lemma {:induction false} WithoutConcat(a: Text, b: Text)
    ensures Without(a + b, [0x2D]) == Without(a, [0x2D]) + Without(b, [0x2D])
  {
    if a == [] {
      assert a + b == b;
    } else {
      WithoutConcat(a[1..], b);
      assert (a + b)[1..] == a[1..] + b;
      assert (a + b)[..1] == a[..1] == [a[0]];
    }
  }

  lemma DropHyphen(a: Text, b: Text)
    requires forall i :: 0 <= i < |a| ==> a[i] != 0x2D
    ensures Without(a + [0x2D] + b, [0x2D]) == a + Without(b, [0x2D])
  {
    assert a + [0x2D] + b == a + ([0x2D] + b);
    WithoutConcat(a, [0x2D] + b);
    WithoutConcat([0x2D], b);
    WithoutAbsent(a, [0x2D]);
    assert Without([0x2D], [0x2D]) == [];
  }

  lemma {:induction false} HexNibblesOfHexText(u: seq<Nibble>)
    ensures HexNibbles(HexText(u)) == Some(u)
  {
    if u != [] {
      HexNibblesOfHexText(u[1..]);
      assert HexText(u)[1..] == HexText(u[1..]);
      assert u == [u[0]] + u[1..];
    }
  }

  lemma HyphensDropped(u: Uuid)
    ensures Without(ToText(u), [0x2D]) == HexText(u)
  {
    var a, b, c, d, e := HexText(u[..8]), HexText(u[8..12]), HexText(u[12..16]), HexText(u[16..20]), HexText(u[20..]);
    var t3 := d + [0x2D] + e;
    var t2 := c + [0x2D] + t3;
    var t1 := b + [0x2D] + t2;
    assert ToText(u) == a + [0x2D] + t1;
    DropHyphen(a, t1);
    DropHyphen(b, t2);
    DropHyphen(c, t3);
    DropHyphen(d, e);
    WithoutAbsent(e, [0x2D]);
    assert a + (b + (c + (d + e))) == HexText(u);
  }

  /** The text form holds digits `0-9a-f` and hyphens only, so nothing else in it is stripped. */
  lemma TextAlphabet(u: Uuid)
    ensures forall i :: 0 <= i < 36 ==> var c := ToText(u)[i]; c == 0x2D || 0x30 <= c <= 0x39 || 0x61 <= c <= 0x66
  {
  }

  lemma NothingStripped(u: Uuid)
    ensures var t := ToText(u); Bare(t) == t && StripBraces(t) == t
    ensures Without(ToText(u), UUID) == ToText(u)
  {
    TextAlphabet(u);
    WithoutAbsent(ToText(u), URN);
    WithoutAbsent(ToText(u), UUID);
  }

  lemma {:induction false} TextRoundTrip(u: Uuid)
    ensures FromText(ToText(u)) == Some(u)
  {
    NothingStripped(u);
    HyphensDropped(u);
    HexNibblesOfHexText(u);
  }

  // ------------------------------------------------------------------ the form

  /** How many hyphens stand before position i of the text. */
  function HyphensBefore(i: nat): nat {
    if i <= 8 then 0 else if i <= 13 then 1 else if i <= 18 then 2 else if i <= 23 then 3 else 4
  }

  /** Hyphens at positions 8, 13, 18 and 23, and the digits in order everywhere else. */
  lemma {:induction false} TextForm(u: Uuid, i: nat)
    requires i < 36
    ensures ToText(u)[i] == if i in {8, 13, 18, 23} then '-' as int else Lit("0123456789abcdef")[u[i - HyphensBefore(i)]]
  {
    if i !in {8, 13, 18, 23} { HexTable(u[i - HyphensBefore(i)]); }
  }

  function Upper(t: Text): (r: Text)
    ensures |r| == |t|
    ensures forall i :: 0 <= i < |t| ==> r[i] == if 0x61 <= t[i] <= 0x7A then t[i] - 0x20 else t[i]
  {
    seq(|t|, i requires 0 <= i < |t| => if 0x61 <= t[i] <= 0x7A then t[i] - 0x20 else t[i])
  }

  lemma {:induction false} HexNibblesOfUpper(u: seq<Nibble>)
    ensures HexNibbles(Upper(HexText(u))) == Some(u)
  {
    if u != [] {
      HexNibblesOfUpper(u[1..]);
      assert Upper(HexText(u))[1..] == Upper(HexText(u[1..]));
      HexTable(u[0]);
      assert u == [u[0]] + u[1..];
    }
  }

  /** The digits may be in upper case, without hyphens, in braces or behind `urn:uuid:`. */
  lemma {:induction false} OtherForms(u: Uuid)
    ensures FromText(Upper(HexText(u))) == Some(u)
    ensures FromText(HexText(u)) == Some(u)
    ensures FromText(Lit("{") + ToText(u) + Lit("}")) == Some(u)
    ensures FromText(Lit("urn:uuid:") + ToText(u)) == Some(u)
  {
    Unhyphenated(u);
    InBraces(u);
    BehindUrn(u);
  }

  lemma Unhyphenated(u: Uuid)
    ensures FromText(HexText(u)) == Some(u) && FromText(Upper(HexText(u))) == Some(u)
  {
    PlainDigits(HexText(u));
    HexNibblesOfHexText(u);
    PlainDigits(Upper(HexText(u)));
    HexNibblesOfUpper(u);
  }

  /** A text without colons loses nothing but braces and hyphens. */
  lemma NoWords(t: Text)
    requires forall i :: 0 <= i < |t| ==> t[i] != 0x3A
    ensures Bare(t) == StripBraces(t)
  {
    NoWord(t, URN);
    NoWord(t, UUID);
  }

  lemma NoWord(t: Text, word: Text)
    requires word != [] && word[|word| - 1] == 0x3A && forall i :: 0 <= i < |t| ==> t[i] != 0x3A
    ensures Without(t, word) == t
  {
    WithoutAbsent(t, word);
  }

  lemma PlainDigits(t: Text)
    requires forall i :: 0 <= i < |t| ==> Alphanumeric(t[i])
    ensures FromText(t) == FromDigits(t)
  {
    NoWords(t);
    WithoutAbsent(t, [0x2D]);
    assert StripBraces(t) == t;
  }

  predicate Alphanumeric(c: CodePoint) { 0x30 <= c <= 0x39 || 0x41 <= c <= 0x5A || 0x61 <= c <= 0x7A }

  lemma InBraces(u: Uuid)
    ensures FromText(Lit("{") + ToText(u) + Lit("}")) == Some(u)
  {
    var text := ToText(u);
    TextAlphabet(u);
    NoWords(Lit("{") + text + Lit("}"));
    NothingStripped(u);
    Unbraced(text);
    HyphensDropped(u);
    HexNibblesOfHexText(u);
  }

  lemma Unbraced(t: Text)
    requires t != [] && StripBraces(t) == t && !IsBrace(t[0]) && !IsBrace(t[|t| - 1])
    ensures StripBraces(Lit("{") + t + Lit("}")) == t
  {
    var s := Lit("{") + t + Lit("}");
    assert s[1..] == t + Lit("}");
    assert (t + Lit("}"))[..|t|] == t;
    var inner := t + Lit("}");
    assert inner[0] == t[0] && inner[|inner| - 1] == 0x7D;
    assert StripBraces(inner) == t;
  }

  lemma BehindUrn(u: Uuid)
    ensures FromText(Lit("urn:uuid:") + ToText(u)) == Some(u)
  {
    var t := ToText(u);
    TextAlphabet(u);
    Skips(URN, UUID + t);
    assert Lit("urn:uuid:") + t == URN + (UUID + t);
    NoUrn(t);
    Skips(UUID, t);
    NothingStripped(u);
    HyphensDropped(u);
    HexNibblesOfHexText(u);
  }

  lemma Skips(word: Text, t: Text)
    requires word != []
    ensures Without(word + t, word) == Without(t, word)
  {
    assert (word + t)[..|word|] == word && (word + t)[|word|..] == t;
  }

  /** `uuid:` and a text without colons hold no `urn:`. */
  lemma NoUrn(t: Text)
    requires forall i :: 0 <= i < |t| ==> t[i] != 0x3A && t[i] != 0x72
    ensures Without(UUID + t, URN) == UUID + t
  {
    NoR(t);
    WithoutFirst(UUID + t, URN);
  }

  lemma NoR(t: Text)
    requires forall i :: 0 <= i < |t| ==> t[i] != 0x72
    ensures var s := UUID + t; forall i :: 0 <= i < |s| ==> s[i] != URN[1]
  {
  }

  lemma {:induction false} WithoutFirst(t: Text, word: Text)
    requires |word| >= 2 && forall i :: 0 <= i < |t| ==> t[i] != word[1]
    ensures Without(t, word) == t
  {
    if t != [] {
      if |word| <= |t| { assert t[..|word|][1] == t[1]; }
      WithoutFirst(t[1..], word);
    }
  }
}
