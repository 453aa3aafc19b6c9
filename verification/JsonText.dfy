/** JSON string literals: what `json.dumps` writes between quotes and `json.loads` reads back. */
module JsonText {
  import opened Texts

  datatype Failure = Malformed | FloatLiteral

  /** A reader's answer: a value with the unread rest, or the reason it stopped. */
  datatype Read<+T> = Got(value: T, rest: Text) | Fail(why: Failure)

  const QUOTE: CodePoint := 0x22
  const BACKSLASH: CodePoint := 0x5C

  function UnicodeEscape(n: int): (t: Text)
    requires 0 <= n < 0x10000
  {
    [BACKSLASH, 0x75, HexDigit(n / 4096), HexDigit(n / 256 % 16), HexDigit(n / 16 % 16), HexDigit(n % 16)]
  }

  function JoinPair(high: CodePoint, low: CodePoint): CodePoint
    requires IsHigh(high) && IsLow(low)
  {
    0x10000 + (high - 0xD800) * 0x400 + (low - 0xDC00)
  }

  /** One character as written; `ascii` is `ensure_ascii`. */
  function Escape(c: CodePoint, ascii: bool): Text {
    if c == QUOTE then [BACKSLASH, QUOTE]
    else if c == BACKSLASH then [BACKSLASH, BACKSLASH]
    else if c == 0x0A then [BACKSLASH, 0x6E]
    else if c == 0x0D then [BACKSLASH, 0x72]
    else if c == 0x09 then [BACKSLASH, 0x74]
    else if c == 0x0C then [BACKSLASH, 0x66]
    else if c == 0x08 then [BACKSLASH, 0x62]
    else if c < 0x20 then UnicodeEscape(c)
    else if !ascii || c < 0x7F then [c]
    else if c < 0x10000 then UnicodeEscape(c)
    else UnicodeEscape(0xD800 + (c - 0x10000) / 0x400) + UnicodeEscape(0xDC00 + (c - 0x10000) % 0x400)
  }

  function EscapeAll(t: Text, ascii: bool): Text {
    if t == [] then [] else Escape(t[0], ascii) + EscapeAll(t[1..], ascii)
  }

  function ShowString(t: Text, ascii: bool): Text {
    [QUOTE] + EscapeAll(t, ascii) + [QUOTE]
  }

  /** The code unit at the front of `s` when `s` opens with a `\u` escape. */
  function FrontUnit(s: Text): Option<CodePoint> {
    if |s| >= 6 && s[0] == BACKSLASH && s[1] == 0x75 then
      match (HexValue(s[2]), HexValue(s[3]), HexValue(s[4]), HexValue(s[5]))
      case (Some(a), Some(b), Some(c), Some(d)) => Some(a * 4096 + b * 256 + c * 16 + d)
      case _ => None
    else None
  }

  function SimpleEscape(c: CodePoint): Option<CodePoint> {
    if c == QUOTE || c == BACKSLASH || c == 0x2F then Some(c)
    else if c == 0x6E then Some(0x0A)
    else if c == 0x72 then Some(0x0D)
    else if c == 0x74 then Some(0x09)
    else if c == 0x66 then Some(0x0C)
    else if c == 0x62 then Some(0x08)
    else None
  }

  /** Puts `c` in front of what a reader returned. */
  function Prepend(c: CodePoint, r: Read<Text>): (r': Read<Text>)
    ensures r'.Got? <==> r.Got?
    ensures r.Got? ==> r'.rest == r.rest
  {
    match r
    case Got(t, rest) => Got([c] + t, rest)
    case Fail(why) => Fail(why)
  }

  /** Reads a string body after its opening quote, in strict mode. */
  function ReadChars(s: Text): (r: Read<Text>)
    ensures r.Got? ==> |r.rest| < |s|
    decreases |s|
  {
    if s == [] then Fail(Malformed)
    else if s[0] == QUOTE then Got([], s[1..])
    else if s[0] < 0x20 then Fail(Malformed)
    else if s[0] != BACKSLASH then Prepend(s[0], ReadChars(s[1..]))
    else if |s| < 2 then Fail(Malformed)
    else if s[1] == 0x75 then
      match FrontUnit(s)
      case None => Fail(Malformed)
      case Some(unit) =>
        var next := FrontUnit(s[6..]);
        if IsHigh(unit) && next.Some? && IsLow(next.value)
        then Prepend(JoinPair(unit, next.value), ReadChars(s[12..]))
        else Prepend(unit, ReadChars(s[6..]))
    else
      match SimpleEscape(s[1])
      case None => Fail(Malformed)
      case Some(c) => Prepend(c, ReadChars(s[2..]))
  }

  /** What reading makes of a text whose every character was escaped: surrogate halves that
      stand next to each other become one character. */
  function Joined(t: Text): (r: Text)
    decreases |t|
  {
    if t == [] then []
    else if |t| >= 2 && IsHigh(t[0]) && IsLow(t[1]) then [JoinPair(t[0], t[1])] + Joined(t[2..])
    else [t[0]] + Joined(t[1..])
  }

  /** No high surrogate stands directly before a low one. */
  predicate PairFree(t: Text) {
    forall i {:trigger t[i]} :: 0 <= i < |t| - 1 ==> !(IsHigh(t[i]) && IsLow(t[i + 1]))
  }

  lemma {:induction false} JoinedShrinks(t: Text)
    ensures |Joined(t)| <= |t|
    ensures Joined(t) == t <==> PairFree(t)
    decreases |t|
  {
    if t == [] {
    } else if |t| >= 2 && IsHigh(t[0]) && IsLow(t[1]) {
      JoinedShrinks(t[2..]);
    } else {
      JoinedShrinks(t[1..]);
      assert t == [t[0]] + t[1..];
      if PairFree(t) {
        forall i | 0 <= i < |t[1..]| - 1 ensures !(IsHigh(t[1..][i]) && IsLow(t[1..][i + 1])) {
          assert t[1..][i] == t[i + 1];
        }
      } else {
        var i :| 0 <= i < |t| - 1 && IsHigh(t[i]) && IsLow(t[i + 1]);
        assert t[1..][i - 1] == t[i] && t[1..][i] == t[i + 1];
      }
    }
  }

  // ------------------------------------------------------------ reading back

  lemma {:induction false} FrontUnitOfEscape(n: int, t: Text)
    requires 0 <= n < 0x10000
    ensures FrontUnit(UnicodeEscape(n) + t) == Some(n)
    ensures (UnicodeEscape(n) + t)[6..] == t
  {
    var s := UnicodeEscape(n) + t;
    assert s[..6] == UnicodeEscape(n);
    assert s[0] == BACKSLASH && s[1] == 0x75;
    assert s[2] == HexDigit(n / 4096) && s[3] == HexDigit(n / 256 % 16);
    assert s[4] == HexDigit(n / 16 % 16) && s[5] == HexDigit(n % 16);
    assert n / 256 == n / 4096 * 16 + n / 256 % 16;
    assert n / 16 == n / 256 * 16 + n / 16 % 16;
  }

  /** A character beyond the basic plane is written as a surrogate pair and read back as one character. */
  lemma ReadEscapedPair(c: CodePoint, t: Text)
    requires c >= 0x10000
    ensures ReadChars(Escape(c, true) + t) == Prepend(c, ReadChars(t))
  {
    var s := Escape(c, true) + t;
    var hi, lo := 0xD800 + (c - 0x10000) / 0x400, 0xDC00 + (c - 0x10000) % 0x400;
    assert s == UnicodeEscape(hi) + (UnicodeEscape(lo) + t);
    FrontUnitOfEscape(hi, UnicodeEscape(lo) + t);
    FrontUnitOfEscape(lo, t);
    assert s[12..] == s[6..][6..] == t;
    assert JoinPair(hi, lo) == c;
    assert s[0] == BACKSLASH && s[1] == 0x75;
  }

  /** A plain character opens with something a pending high surrogate cannot join, and is read alone. */
  lemma {:induction false} ReadEscaped(c: CodePoint, ascii: bool, t: Text)
    requires ascii && IsHigh(c) ==> !(FrontUnit(t).Some? && IsLow(FrontUnit(t).value))
    ensures ReadChars(Escape(c, ascii) + t) == Prepend(c, ReadChars(t))
  {
    var s := Escape(c, ascii) + t;
    if |Escape(c, ascii)| == 6 {
      FrontUnitOfEscape(c, t);
      assert s[0] == BACKSLASH && s[1] == 0x75;
    } else if ascii && c >= 0x10000 {
      ReadEscapedPair(c, t);
    } else if |Escape(c, ascii)| == 2 {
      assert s[2..] == t;
    } else {
      assert s[1..] == t;
    }
  }

  /** Whatever follows, an escaped character opens with a low code unit only if it is a low surrogate. */
  lemma {:induction false} FrontOfEscape(c: CodePoint, t: Text)
    ensures FrontUnit(Escape(c, true) + t).Some? && IsLow(FrontUnit(Escape(c, true) + t).value) ==> IsLow(c)
  {
    var s := Escape(c, true) + t;
    if c >= 0x10000 {
      var hi, lo := 0xD800 + (c - 0x10000) / 0x400, 0xDC00 + (c - 0x10000) % 0x400;
      assert s == UnicodeEscape(hi) + (UnicodeEscape(lo) + t);
      FrontUnitOfEscape(hi, UnicodeEscape(lo) + t);
    } else if |Escape(c, true)| == 6 {
      FrontUnitOfEscape(c, t);
    }
  }

  lemma {:induction false} FrontOfEscapes(t: Text, rest: Text)
    ensures var f := FrontUnit(EscapeAll(t, true) + [QUOTE] + rest);
            f.Some? && IsLow(f.value) ==> t != [] && IsLow(t[0])
  {
    if t != [] {
      var more := EscapeAll(t[1..], true) + [QUOTE] + rest;
      assert EscapeAll(t, true) + [QUOTE] + rest == Escape(t[0], true) + more;
      FrontOfEscape(t[0], more);
    }
  }

  /** Two escaped halves of a pair are read as the one character they stand for. */
  lemma {:induction false} ReadPair(high: CodePoint, low: CodePoint, t: Text)
    requires IsHigh(high) && IsLow(low)
    ensures ReadChars(UnicodeEscape(high) + (UnicodeEscape(low) + t)) == Prepend(JoinPair(high, low), ReadChars(t))
  {
    var s := UnicodeEscape(high) + (UnicodeEscape(low) + t);
    FrontUnitOfEscape(high, UnicodeEscape(low) + t);
    FrontUnitOfEscape(low, t);
    assert s[12..] == s[6..][6..] == t;
    assert s[0] == BACKSLASH && s[1] == 0x75;
  }

  /** The text of a string literal after its opening quote, with what follows the closing one. */
  function Body(t: Text, ascii: bool, rest: Text): Text {
    EscapeAll(t, ascii) + [QUOTE] + rest
  }

  lemma BodySplit(t: Text, ascii: bool, rest: Text)
    requires t != []
    ensures Body(t, ascii, rest) == Escape(t[0], ascii) + Body(t[1..], ascii, rest)
  {
  }

  lemma BodySplitPair(t: Text, rest: Text)
    requires |t| >= 2 && IsHigh(t[0]) && IsLow(t[1])
    ensures Body(t, true, rest) == UnicodeEscape(t[0]) + (UnicodeEscape(t[1]) + Body(t[2..], true, rest))
  {
    BodySplit(t, true, rest);
    BodySplit(t[1..], true, rest);
    assert t[1..][1..] == t[2..];
  }

  lemma BodyPair(t: Text, rest: Text)
    requires |t| >= 2 && IsHigh(t[0]) && IsLow(t[1])
    ensures ReadChars(Body(t, true, rest)) == Prepend(JoinPair(t[0], t[1]), ReadChars(Body(t[2..], true, rest)))
  {
    var more := Body(t[2..], true, rest);
    ReadPair(t[0], t[1], more);
    assert Body(t, true, rest) == UnicodeEscape(t[0]) + (UnicodeEscape(t[1]) + more) by { BodySplitPair(t, rest); }
  }

  lemma BodySingle(t: Text, ascii: bool, rest: Text)
    requires t != []
    requires !(ascii && |t| >= 2 && IsHigh(t[0]) && IsLow(t[1]))
    ensures ReadChars(Body(t, ascii, rest)) == Prepend(t[0], ReadChars(Body(t[1..], ascii, rest)))
  {
    BodySplit(t, ascii, rest);
    if ascii && IsHigh(t[0]) { FrontOfEscapes(t[1..], rest); }
    ReadEscaped(t[0], ascii, Body(t[1..], ascii, rest));
  }

  lemma BodyEnd(ascii: bool, rest: Text)
    ensures ReadChars(Body([], ascii, rest)) == Got([], rest)
  {
    assert Body([], ascii, rest) == [QUOTE] + rest;
  }

  /** A written string is read back whole; with `ensure_ascii` its surrogate pairs come back joined. */
  lemma {:induction false} StringRoundTrip(t: Text, ascii: bool, rest: Text)
    ensures ReadChars(Body(t, ascii, rest)) == Got(if ascii then Joined(t) else t, rest)
    decreases |t|
  {
    if t == [] {
      BodyEnd(ascii, rest);
    } else if ascii && |t| >= 2 && IsHigh(t[0]) && IsLow(t[1]) {
      BodyPair(t, rest);
      StringRoundTrip(t[2..], ascii, rest);
    } else {
      BodySingle(t, ascii, rest);
      StringRoundTrip(t[1..], ascii, rest);
      assert t == [t[0]] + t[1..];
    }
  }

  /** Text that holds no raw surrogate can only yield pair-free strings. */
  lemma {:induction false} ReadIsPairFree(s: Text)
    requires Scalar(s)
    ensures ReadChars(s).Got? ==> PairFree(ReadChars(s).value) && Scalar(ReadChars(s).rest)
    ensures ReadChars(s).Got? && ReadChars(s).value != [] && IsLow(ReadChars(s).value[0]) ==>
              FrontUnit(s).Some? && IsLow(FrontUnit(s).value)
    decreases |s|
  {
    var r := ReadChars(s);
    if r.Got? && s[0] != QUOTE {
      if s[0] != BACKSLASH {
        ReadIsPairFree(s[1..]);
        PrependPairFree(s[0], ReadChars(s[1..]).value);
      } else if s[1] == 0x75 {
        var unit, next := FrontUnit(s).value, FrontUnit(s[6..]);
        if IsHigh(unit) && next.Some? && IsLow(next.value) {
          ReadIsPairFree(s[12..]);
          PrependPairFree(JoinPair(unit, next.value), ReadChars(s[12..]).value);
        } else {
          ReadIsPairFree(s[6..]);
          PrependPairFree(unit, ReadChars(s[6..]).value);
        }
      } else {
        ReadIsPairFree(s[2..]);
        PrependPairFree(SimpleEscape(s[1]).value, ReadChars(s[2..]).value);
      }
    }
  }

  lemma {:induction false} PrependPairFree(c: CodePoint, t: Text)
    requires PairFree(t)
    requires IsHigh(c) && t != [] ==> !IsLow(t[0])
    ensures PairFree([c] + t)
  {
    var u := [c] + t;
    forall i | 0 <= i < |u| - 1 ensures !(IsHigh(u[i]) && IsLow(u[i + 1])) {
      assert i > 0 ==> u[i] == t[i - 1];
      assert u[i + 1] == t[i];
    }
  }
}
