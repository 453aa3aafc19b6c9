/** UTF-8 as Python's strict codec has it (RFC 3629, section 3). */
module Utf8 {
  import opened Texts

  function EncodeChar(c: CodePoint): (b: seq<Byte>)
    requires !IsSurrogate(c)
  {
    if c < 0x80 then [c]
    else if c < 0x800 then [0xC0 + c / 0x40, 0x80 + c % 0x40]
    else if c < 0x10000 then [0xE0 + c / 0x1000, 0x80 + c / 0x40 % 0x40, 0x80 + c % 0x40]
    else [0xF0 + c / 0x40000, 0x80 + c / 0x1000 % 0x40, 0x80 + c / 0x40 % 0x40, 0x80 + c % 0x40]
  }

  /** `str.encode("utf-8")` refuses text that holds a surrogate. */
  function Encode(t: Text): (r: Option<seq<Byte>>)
    ensures r.Some? <==> Scalar(t)
  {
    if t == [] then Some([])
    else if IsSurrogate(t[0]) then None
    else
      assert t == [t[0]] + t[1..];
      match Encode(t[1..])
      case None => None
      case Some(rest) => Some(EncodeChar(t[0]) + rest)
  }

  predicate Continues(b: Byte) { 0x80 <= b < 0xC0 }

  /** The six payload bits of a continuation byte. */
  function Payload(b: Byte): (n: int)
    requires Continues(b)
    ensures 0 <= n < 0x40
  {
    b - 0x80
  }

  /** The character at the front and how many bytes it takes; overlong forms and surrogates are refused. */
  function DecodeChar(b: seq<Byte>): (r: Option<(CodePoint, nat)>)
    requires b != []
    ensures r.Some? ==> 1 <= r.value.1 <= |b| && !IsSurrogate(r.value.0)
  {
    var lead: int := b[0];
    if lead < 0x80 then Some((lead, 1))
    else if 0xC2 <= lead < 0xE0 && |b| >= 2 && Continues(b[1]) then
      Some(((lead - 0xC0) * 0x40 + Payload(b[1]), 2))
    else if 0xE0 <= lead < 0xF0 && |b| >= 3 && Continues(b[1]) && Continues(b[2]) then
      var c: int := (lead - 0xE0) * 0x1000 + Payload(b[1]) * 0x40 + Payload(b[2]);
      if c < 0x800 || IsSurrogate(c) then None else Some((c, 3))
    else if 0xF0 <= lead < 0xF5 && |b| >= 4 && Continues(b[1]) && Continues(b[2]) && Continues(b[3]) then
      var c: int := (lead - 0xF0) * 0x40000 + Payload(b[1]) * 0x1000 + Payload(b[2]) * 0x40 + Payload(b[3]);
      if c < 0x10000 || c >= 0x110000 then None else Some((c, 4))
    else None
  }

  function Decode(b: seq<Byte>): (r: Option<Text>)
    ensures r.Some? ==> Scalar(r.value)
    decreases |b|
  {
    if b == [] then Some([])
    else
      match DecodeChar(b)
      case None => None
      case Some((c, k)) =>
        match Decode(b[k..])
        case None => None
        case Some(rest) => Some([c] + rest)
  }

  lemma DecodeEncodedChar(c: CodePoint, rest: seq<Byte>)
    requires !IsSurrogate(c)
    ensures DecodeChar(EncodeChar(c) + rest) == Some((c, |EncodeChar(c)|))
  {
    var b := EncodeChar(c) + rest;
    assert b[0] == EncodeChar(c)[0];
    if |EncodeChar(c)| >= 2 { assert b[1] == EncodeChar(c)[1]; }
    if |EncodeChar(c)| >= 3 { assert b[2] == EncodeChar(c)[2]; }
    if |EncodeChar(c)| == 4 {
      assert b[3] == EncodeChar(c)[3];
      assert c / 0x40 == c / 0x1000 * 0x40 + c / 0x40 % 0x40;
      assert c / 0x1000 == c / 0x40000 * 0x40 + c / 0x1000 % 0x40;
    } else if |EncodeChar(c)| == 3 {
      assert c / 0x40 == c / 0x1000 * 0x40 + c / 0x40 % 0x40;
    }
  }

  /** What was encoded is decoded, so different texts never share their bytes. */
  lemma {:induction false} DecodeEncode(t: Text)
    requires Scalar(t)
    ensures Decode(Encode(t).value) == Some(t)
  {
    if t != [] {
      var rest := Encode(t[1..]).value;
      DecodeEncode(t[1..]);
      DecodeEncodedChar(t[0], rest);
      assert (EncodeChar(t[0]) + rest)[|EncodeChar(t[0])|..] == rest;
      assert t == [t[0]] + t[1..];
    }
  }

  /** ASCII text is its own encoding. */
  lemma {:induction false} EncodeAscii(t: Text)
    requires forall i :: 0 <= i < |t| ==> t[i] < 0x80
    ensures Encode(t).Some? && Encode(t).value == t
  {
    if t != [] {
      EncodeAscii(t[1..]);
      assert t == [t[0]] + t[1..];
    }
  }

  // ---------------------------------------------------------------- the byte forms

  /** A lead byte that starts at `mark` and carries the top of `c`, then six bits of it in each byte that follows. */
  predicate Layout(b: seq<Byte>, mark: int, c: int)
    requires b != []
  {
    match |b|
    case 1 => c == b[0]
    case 2 => Continues(b[1]) && c == (b[0] as int - mark) * 64 + (b[1] as int - 0x80)
    case 3 =>
      && Continues(b[1]) && Continues(b[2])
      && c == (b[0] as int - mark) * 4096 + (b[1] as int - 0x80) * 64 + (b[2] as int - 0x80)
    case _ =>
      && |b| == 4 && Continues(b[1]) && Continues(b[2]) && Continues(b[3])
      && c == (b[0] as int - mark) * 262144 + (b[1] as int - 0x80) * 4096 + (b[2] as int - 0x80) * 64 + (b[3] as int - 0x80)
  }

  lemma LongLayouts(c: CodePoint)
    requires c >= 0x800 && !IsSurrogate(c)
    ensures Layout(EncodeChar(c), if c <= 0xFFFF then 0xE0 else 0xF0, c)
  {
    assert c == c / 0x40 * 0x40 + c % 0x40;
    assert c / 0x40 == c / 0x1000 * 0x40 + c / 0x40 % 0x40;
    if c > 0xFFFF { assert c / 0x1000 == c / 0x40000 * 0x40 + c / 0x1000 % 0x40; }
  }

  lemma LeadBytes(c: CodePoint)
    requires !IsSurrogate(c)
    ensures var lead := EncodeChar(c)[0];
            if c <= 0x7F then lead <= 0x7F
            else if c <= 0x7FF then 0xC2 <= lead <= 0xDF
            else if c <= 0xFFFF then 0xE0 <= lead <= 0xEF
            else 0xF0 <= lead <= 0xF4
  {
  }

  /** One to four bytes by the size of the character, and which lead bytes go with each length. */
  lemma {:induction false} EncodedForm(c: CodePoint)
    requires !IsSurrogate(c)
    ensures var b := EncodeChar(c);
            if c <= 0x7F then |b| == 1 && b[0] <= 0x7F && Layout(b, 0, c)
            else if c <= 0x7FF then |b| == 2 && 0xC2 <= b[0] <= 0xDF && Layout(b, 0xC0, c)
            else if c <= 0xFFFF then |b| == 3 && 0xE0 <= b[0] <= 0xEF && Layout(b, 0xE0, c)
            else |b| == 4 && 0xF0 <= b[0] <= 0xF4 && Layout(b, 0xF0, c)
    ensures Encode([c]) == Some(EncodeChar(c))
  {
    LeadBytes(c);
    if c >= 0x800 { LongLayouts(c); }
    assert [c][1..] == [];
    assert EncodeChar(c) + [] == EncodeChar(c);
  }

  /** A text's bytes are its characters' bytes, one after the other. */
  lemma {:induction false} EncodeConcat(a: Text, b: Text)
    requires Scalar(a) && Scalar(b)
    ensures Scalar(a + b) && Encode(a + b).value == Encode(a).value + Encode(b).value
  {
    if a == [] {
      assert a + b == b;
    } else {
      EncodeConcat(a[1..], b);
      assert (a + b)[1..] == a[1..] + b;
    }
  }

  lemma Two(x: int, y: int)
    requires 2 <= x < 0x20 && 0 <= y < 0x40
    ensures EncodeChar(x * 0x40 + y) == [0xC0 + x, 0x80 + y]
  {
  }

  lemma Three(x: int, y: int, z: int)
    requires 0 <= x < 0x10 && 0 <= y < 0x40 && 0 <= z < 0x40
    requires var c := x * 0x1000 + y * 0x40 + z; c >= 0x800 && !IsSurrogate(c)
    ensures EncodeChar(x * 0x1000 + y * 0x40 + z) == [0xE0 + x, 0x80 + y, 0x80 + z]
  {
    var c := x * 0x1000 + y * 0x40 + z;
    assert c / 0x40 == x * 0x40 + y && c % 0x40 == z;
    assert c / 0x1000 == x;
  }

  lemma Four(x: int, y: int, z: int, u: int)
    requires 0 <= x < 5 && 0 <= y < 0x40 && 0 <= z < 0x40 && 0 <= u < 0x40
    requires 0x10000 <= x * 0x40000 + y * 0x1000 + z * 0x40 + u < 0x110000
    ensures EncodeChar(x * 0x40000 + y * 0x1000 + z * 0x40 + u) == [0xF0 + x, 0x80 + y, 0x80 + z, 0x80 + u]
  {
    var c := x * 0x40000 + y * 0x1000 + z * 0x40 + u;
    assert c / 0x40 == x * 0x1000 + y * 0x40 + z && c % 0x40 == u;
    assert c / 0x1000 == x * 0x40 + y && c / 0x40 % 0x40 == z;
    assert c / 0x40000 == x && c / 0x1000 % 0x40 == y;
  }

  /** What is decoded is the encoding of what it is decoded to: overlong forms, surrogates and stray bytes never are. */
  lemma EncodeDecodedChar(b: seq<Byte>)
    requires b != [] && DecodeChar(b).Some?
    ensures EncodeChar(DecodeChar(b).value.0) == b[..DecodeChar(b).value.1]
  {
    var lead: int, k := b[0], DecodeChar(b).value.1;
    if k == 2 {
      Two(lead - 0xC0, Payload(b[1]));
    } else if k == 3 {
      Three(lead - 0xE0, Payload(b[1]), Payload(b[2]));
    } else if k == 4 {
      Four(lead - 0xF0, Payload(b[1]), Payload(b[2]), Payload(b[3]));
    }
  }

  lemma {:induction false} EncodeDecode(b: seq<Byte>)
    requires Decode(b).Some?
    ensures Encode(Decode(b).value) == Some(b)
    decreases |b|
  {
    if b != [] {
      var (c, k) := DecodeChar(b).value;
      var rest := Decode(b[k..]).value;
      EncodeDecode(b[k..]);
      EncodeDecodedChar(b);
      assert ([c] + rest)[1..] == rest;
      assert b == b[..k] + b[k..];
    }
  }

  /** Decoding is the inverse of encoding and accepts nothing else. */
  lemma {:induction false} DecodeIff(b: seq<Byte>, t: Text)
    ensures Decode(b) == Some(t) <==> Encode(t) == Some(b)
  {
    if Decode(b) == Some(t) { EncodeDecode(b); }
    if Encode(t) == Some(b) { DecodeEncode(t); }
  }
}
