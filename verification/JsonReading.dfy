/** What `json.loads` makes of text that the writer would not write: blanks, repeated keys, other escapes, and what it
    refuses. */
module JsonReading {
  import opened Texts
  import opened JsonText
  import opened JsonNumber
  import opened Json
  import opened JsonRoundTrip

  predicate Blanks(w: Text) {
    forall i :: 0 <= i < |w| ==> w[i] in {' ' as int, '\t' as int, '\n' as int, '\r' as int}
  }

  lemma {:induction false} BlanksSkipped(w: Text, s: Text)
    requires Blanks(w)
    ensures SkipSpace(w + s) == SkipSpace(s)
  {
    if w == [] {
      assert w + s == s;
    } else {
      assert (w + s)[1..] == w[1..] + s;
      BlanksSkipped(w[1..], s);
    }
  }

  /** Blanks around a document change nothing, and anything else after it is refused. */
  lemma {:induction false} AroundADocument(v: Value, ascii: bool, before: Text, after: Text, more: Text)
    requires Blanks(before) && Blanks(after)
    requires more != [] && !Blanks([more[0]]) && EndsNumber(more)
    ensures Loads(before + Show(v, ascii) + after) == Got(Landed(v, ascii), [])
    ensures Loads(before + Show(v, ascii) + (after + more)) == Fail(Malformed)
  {
    ReadAround(v, ascii, before, after);
    BlanksSkipped(after, []);
    assert after + [] == after;
    ReadAround(v, ascii, before, after + more);
    BlanksSkipped(after, more);
    assert !IsSpace(more[0]);
  }

  lemma ReadAround(v: Value, ascii: bool, before: Text, rest: Text)
    requires Blanks(before) && EndsNumber(rest)
    ensures ReadValue(SkipSpace(before + Show(v, ascii) + rest)) == Got(Landed(v, ascii), rest)
  {
    var s := Show(v, ascii) + rest;
    assert before + Show(v, ascii) + rest == before + s;
    BlanksSkipped(before, s);
    ShowHead(v, ascii);
    assert s[0] == Show(v, ascii)[0];
    assert SkipSpace(s) == s;
    ValueRoundTrip(v, ascii, rest);
  }

  /** Of two members with one key the later is kept; the others stay. */
  lemma {:induction false} LaterMemberWins(fields: seq<Field>, f: Field)
    requires DistinctKeys(fields)
    ensures forall g :: g in Put(fields, f) <==> g == f || (g in fields && g.key != f.key)
  {
    if fields != [] {
      assert fields == [fields[0]] + fields[1..];
      if fields[0].key != f.key {
        LaterMemberWins(fields[1..], f);
      } else {
        forall g | g in fields[1..] ensures g.key != f.key {
          var i :| 0 <= i < |fields[1..]| && fields[1..][i] == g;
          assert fields[i + 1] == g;
        }
      }
    }
  }

  /** So it is for an object that is read. */
  lemma {:induction false} RepeatedKey(key: Text, v: Value, w: Value, ascii: bool)
    ensures Loads(Show(Obj([Field(key, v), Field(key, w)]), ascii)) ==
              Got(Obj([Field(LandedText(key, ascii), Landed(w, ascii))]), [])
  {
    var fields := [Field(key, v), Field(key, w)];
    ReadAround(Obj(fields), ascii, [], []);
    assert [] + Show(Obj(fields), ascii) + [] == Show(Obj(fields), ascii);
    var f, g := LandedField(fields[0], ascii), LandedField(fields[1], ascii);
    assert fields[1..] == [fields[1]] && fields[1..][1..] == [];
    assert LandedFields(fields[1..], ascii) == [g];
    assert LandedFields(fields, ascii) == [f, g];
    TwoPuts(f, g);
  }

  lemma TwoPuts(f: Field, g: Field)
    requires f.key == g.key
    ensures PutAll([], [f, g]) == [g]
  {
    assert [f, g][1..] == [g] && [g][1..] == [];
    assert Put([], f) == [f];
    assert [f][1..] == [];
    assert Put([f], g) == [g];
    assert PutAll([f], [g]) == PutAll([g], []);
  }

  /** What the character after a backslash stands for. */
  const NAMED: map<CodePoint, int> :=
    map['"' as int := 34, '\\' as int := 92, '/' as int := 47, 'n' as int := 10, 'r' as int := 13, 't' as int := 9,
        'f' as int := 12, 'b' as int := 8]

  /** Strings are read strictly: no raw control characters, and of the escapes only these and `\u`. */
  lemma {:induction false} StrictStrings(c: CodePoint, s: Text)
    ensures c < 0x20 ==> ReadChars([c] + s) == Fail(Malformed)
    ensures c >= 0x20 && c != '"' as int && c != '\\' as int ==> ReadChars([c] + s) == Prepend(c, ReadChars(s))
    ensures c in NAMED ==> ReadChars([BACKSLASH, c] + s) == Prepend(NAMED[c], ReadChars(s))
    ensures c !in NAMED && c != 'u' as int ==> ReadChars([BACKSLASH, c] + s) == Fail(Malformed)
  {
    var raw, escaped := [c] + s, [BACKSLASH, c] + s;
    assert raw[0] == c && raw[1..] == s;
    assert escaped[0] == BACKSLASH && escaped[1] == c && escaped[2..] == s;
    NamedEscapes(c);
  }

  lemma NamedEscapes(c: CodePoint)
    ensures SimpleEscape(c) == if c in NAMED then Some(NAMED[c]) else None
  {
  }

  /** A number goes no further than its literal: a digit after a leading zero is left over and refused, and a fraction
      or an exponent makes a float, which is refused by its own name. */
  lemma {:induction false} NumbersEnd(d: CodePoint, n: nat, s: Text)
    requires IsDigit(d)
    ensures Loads([0x30, d] + s) == Fail(Malformed)
    ensures ReadNat(Digits(n) + ([0x2E, d] + s)) == Fail(FloatLiteral)
    ensures ReadNat(Digits(n) + ([0x65, d] + s)) == Fail(FloatLiteral)
    ensures ReadNat(Digits(n) + ([0x45, 0x2D, d] + s)) == Fail(FloatLiteral)
  {
    LeadingZero(d, s);
    Fraction(n, [0x2E, d] + s);
    Fraction(n, [0x65, d] + s);
    Fraction(n, [0x45, 0x2D, d] + s);
  }

  lemma Fraction(n: nat, tail: Text)
    requires FloatTail(tail)
    ensures ReadNat(Digits(n) + tail) == Fail(FloatLiteral)
  {
    var s := Digits(n) + tail;
    DigitRunOf(Digits(n), tail);
    assert s[0] == Digits(n)[0];
    assert IntegerLength(s) == |Digits(n)|;
    assert s[|Digits(n)|..] == tail;
  }

  lemma LeadingZero(d: CodePoint, s: Text)
    requires IsDigit(d)
    ensures Loads([0x30, d] + s) == Fail(Malformed)
  {
    var t := [0x30, d] + s;
    NotAWord(t);
    assert SkipSpace(t) == t;
    assert t[1..] == [d] + s && ([d] + s)[0] == d;
    assert !FloatTail(t[1..]);
    assert ReadNat(t) == Got(Decimal(t[..1]), t[1..]);
    assert SkipSpace(t[1..]) == t[1..];
  }
}
