/** The written form of JSON, literally, and the normal form that `sort_keys` writes. */
module JsonForm {
  import opened Texts
  import opened Arithmetic
  import opened JsonText
  import opened JsonNumber
  import opened Json
  import opened JsonCanon
  import opened JsonClean

  // ------------------------------------------------------------ values and strings

  /** The parts with a comma between every two of them. */
  function Separated(parts: seq<Text>): Text {
    if parts == [] then [] else if |parts| == 1 then parts[0] else parts[0] + Lit(",") + Separated(parts[1..])
  }

  function ItemTexts(items: seq<Value>, ascii: bool): (parts: seq<Text>)
    ensures |parts| == |items| && forall i :: 0 <= i < |items| ==> parts[i] == Show(items[i], ascii)
  {
    seq(|items|, i requires 0 <= i < |items| => Show(items[i], ascii))
  }

  function FieldTexts(fields: seq<Field>, ascii: bool): (parts: seq<Text>)
    ensures |parts| == |fields|
    ensures forall i :: 0 <= i < |fields| ==>
              parts[i] == ShowString(fields[i].key, ascii) + Lit(":") + Show(fields[i].value, ascii)
  {
    seq(|fields|, i requires 0 <= i < |fields| =>
      ShowString(fields[i].key, ascii) + Lit(":") + Show(fields[i].value, ascii))
  }

  lemma {:induction false} ItemsAreSeparated(items: seq<Value>, ascii: bool)
    ensures ShowItems(items, ascii) == Separated(ItemTexts(items, ascii))
  {
    if items != [] {
      ItemsAreSeparated(items[1..], ascii);
      assert ItemTexts(items, ascii)[1..] == ItemTexts(items[1..], ascii);
    }
  }

  lemma {:induction false} FieldsAreSeparated(fields: seq<Field>, ascii: bool)
    ensures ShowFields(fields, ascii) == Separated(FieldTexts(fields, ascii))
  {
    if fields != [] {
      FieldsAreSeparated(fields[1..], ascii);
      assert FieldTexts(fields, ascii)[1..] == FieldTexts(fields[1..], ascii);
      FirstField(fields, ascii);
    }
  }

  lemma FirstField(fields: seq<Field>, ascii: bool)
    requires fields != []
    ensures ShowFields(fields, ascii) ==
              FieldTexts(fields, ascii)[0] + (if |fields| == 1 then [] else Lit(",")) + ShowFields(fields[1..], ascii)
  {
    assert Lit(",") == [0x2C] && Lit(":") == [0x3A];
  }

  /** The compact form: no blanks, commas between elements, colons after keys. */
  lemma {:induction false} WrittenForm(v: Value, ascii: bool)
    ensures match v
            case Null => Show(v, ascii) == Lit("null")
            case Bool(b) => Show(v, ascii) == Lit(if b then "true" else "false")
            case Int(n) => Show(v, ascii) == (if n < 0 then Lit("-") else []) + Digits(if n < 0 then -n else n)
            case Str(t) => Show(v, ascii) == ShowString(t, ascii)
            case Arr(items) => Show(v, ascii) == Lit("[") + Separated(ItemTexts(items, ascii)) + Lit("]")
            case Obj(fields) => Show(v, ascii) == Lit("{") + Separated(FieldTexts(fields, ascii)) + Lit("}")
  {
    match v
    case Arr(items) => ArrayWritten(items, ascii);
    case Obj(fields) => ObjectWritten(fields, ascii);
    case Int(n) => IntegerWritten(n, ascii);
    case _ =>
  }

  lemma ArrayWritten(items: seq<Value>, ascii: bool)
    ensures Show(Arr(items), ascii) == Lit("[") + Separated(ItemTexts(items, ascii)) + Lit("]")
  {
    ItemsAreSeparated(items, ascii);
    assert Lit("[") == [0x5B] && Lit("]") == [0x5D];
  }

  lemma ObjectWritten(fields: seq<Field>, ascii: bool)
    ensures Show(Obj(fields), ascii) == Lit("{") + Separated(FieldTexts(fields, ascii)) + Lit("}")
  {
    FieldsAreSeparated(fields, ascii);
    assert Lit("{") == [0x7B] && Lit("}") == [0x7D];
  }

  lemma IntegerWritten(n: int, ascii: bool)
    ensures Show(Int(n), ascii) == (if n < 0 then Lit("-") else []) + Digits(if n < 0 then -n else n)
  {
    assert Lit("-") == [0x2D];
    if n >= 0 { assert [] + Digits(n) == Digits(n); }
  }

  /** The short escapes. */
  const SHORT: map<CodePoint, string> :=
    map[0x22 := "\\\"", 0x5C := "\\\\", 0x0A := "\\n", 0x0D := "\\r", 0x09 := "\\t", 0x0C := "\\f", 0x08 := "\\b"]

  /** A lower-case hexadecimal digit of this value. */
  predicate IsHexDigit(c: CodePoint, n: int) { 0 <= n < 16 && c == Lit("0123456789abcdef")[n] }

  /** `\u` and four hexadecimal digits, the most significant first. */
  predicate UnicodeForm(t: Text, n: int) {
    && |t| == 6 && t[0] == '\\' as int && t[1] == 'u' as int
    && IsHexDigit(t[2], n / 4096) && IsHexDigit(t[3], n / 256 % 16)
    && IsHexDigit(t[4], n / 16 % 16) && IsHexDigit(t[5], n % 16)
  }

  /** The escapes of the two surrogates that stand for a character beyond the basic plane. */
  predicate PairForm(t: Text, c: CodePoint) {
    |t| == 12 && UnicodeForm(t[..6], 0xD7C0 + c / 0x400) && UnicodeForm(t[6..], 0xDC00 + c % 0x400)
  }

  lemma UnicodeWritten(n: int)
    requires 0 <= n < 0x10000
    ensures UnicodeForm(UnicodeEscape(n), n)
  {
    HexTable(n / 4096);
    HexTable(n / 256 % 16);
    HexTable(n / 16 % 16);
    HexTable(n % 16);
  }

  lemma PairWritten(c: CodePoint)
    requires c >= 0x10000
    ensures PairForm(Escape(c, true), c)
  {
    var high, low := 0xD7C0 + c / 0x400, 0xDC00 + c % 0x400;
    UnicodeWritten(high);
    UnicodeWritten(low);
    EscapeOfPair(c);
    JoinTexts(UnicodeEscape(high), UnicodeEscape(low));
  }

  lemma EscapeOfPair(c: CodePoint)
    requires c >= 0x10000
    ensures Escape(c, true) == UnicodeEscape(0xD7C0 + c / 0x400) + UnicodeEscape(0xDC00 + c % 0x400)
  {
    var high, low := 0xD800 + (c - 0x10000) / 0x400, 0xDC00 + (c - 0x10000) % 0x400;
    assert high == 0xD7C0 + c / 0x400 && low == 0xDC00 + c % 0x400;
    assert Escape(c, true) == UnicodeEscape(high) + UnicodeEscape(low);
  }

  lemma JoinTexts(a: Text, b: Text)
    ensures (a + b)[..|a|] == a && (a + b)[|a|..] == b
  {
  }

  lemma NotShort(c: CodePoint)
    requires c !in SHORT
    ensures c != 0x22 && c != 0x5C && c != 0x0A && c != 0x0D && c != 0x09 && c != 0x0C && c != 0x08
  {
  }

  /** Every character as it is written. Without ASCII escapes only quotes, backslashes and control characters differ
      from themselves; with them so does all outside the printable ASCII range, beyond the basic plane as a pair. */
  lemma {:induction false} EscapeTable(c: CodePoint, ascii: bool)
    ensures if c in SHORT then
              (forall i :: 0 <= i < |SHORT[c]| ==> SHORT[c][i] as int < 128) && Escape(c, ascii) == Lit(SHORT[c])
            else if c < 0x20 || (ascii && 0x7F <= c < 0x10000) then UnicodeForm(Escape(c, ascii), c)
            else if ascii && c >= 0x10000 then PairForm(Escape(c, ascii), c)
            else Escape(c, ascii) == [c]
  {
    if c !in SHORT { NotShort(c); }
    if c in SHORT {
      ShortWritten(c, ascii);
    } else if c < 0x20 || (ascii && 0x7F <= c < 0x10000) {
      UnicodeWritten(c);
      assert Escape(c, ascii) == UnicodeEscape(c);
    } else if ascii && c >= 0x10000 {
      PairWritten(c);
    }
  }

  lemma ShortWritten(c: CodePoint, ascii: bool)
    requires c in SHORT
    ensures (forall i :: 0 <= i < |SHORT[c]| ==> SHORT[c][i] as int < 128) && Escape(c, ascii) == Lit(SHORT[c])
  {
  }

  /** A string is its characters, one after the other, between quotes. */
  lemma {:induction false} StringForm(a: Text, c: CodePoint, b: Text, ascii: bool)
    ensures ShowString(a, ascii) == Lit("\"") + EscapeAll(a, ascii) + Lit("\"")
    ensures EscapeAll([], ascii) == []
    ensures EscapeAll(a + [c] + b, ascii) == EscapeAll(a, ascii) + Escape(c, ascii) + EscapeAll(b, ascii)
  {
    EscapeConcat(a + [c], b, ascii);
    EscapeConcat(a, [c], ascii);
    OneEscaped(c, ascii);
  }

  lemma OneEscaped(c: CodePoint, ascii: bool)
    ensures EscapeAll([c], ascii) == Escape(c, ascii)
  {
    assert [c][1..] == [];
  }

  lemma {:induction false} EscapeConcat(a: Text, b: Text, ascii: bool)
    ensures EscapeAll(a + b, ascii) == EscapeAll(a, ascii) + EscapeAll(b, ascii)
  {
    if a == [] {
      assert a + b == b;
    } else {
      EscapeConcat(a[1..], b, ascii);
      FirstEscaped(a, b, ascii);
      Regrouped(Escape(a[0], ascii), EscapeAll(a[1..], ascii), EscapeAll(b, ascii));
    }
  }

  lemma FirstEscaped(a: Text, b: Text, ascii: bool)
    requires a != []
    ensures EscapeAll(a + b, ascii) == Escape(a[0], ascii) + EscapeAll(a[1..] + b, ascii)
  {
    assert (a + b)[1..] == a[1..] + b;
  }

  lemma Regrouped(a: Text, b: Text, c: Text)
    ensures a + (b + c) == a + b + c
  {
  }

  // -------------------------------------------------------------------- numbers

  function Power10(k: nat): (p: nat)
    ensures p > 0
  {
    if k == 0 then 1 else 10 * Power10(k - 1)
  }

  /** Decimal notation: no more digits than the number needs, and at every place the digit it has there. */
  lemma {:induction false} DigitsForm(n: nat, k: nat)
    ensures |Digits(n)| <= k + 1 <==> n < Power10(k + 1)
    ensures k < |Digits(n)| ==> Digits(n)[|Digits(n)| - 1 - k] == Lit("0123456789")[n / Power10(k) % 10]
  {
    DigitCount(n, k);
    if k < |Digits(n)| { DigitAt(n, k); }
  }

  lemma {:induction false} DigitCount(n: nat, k: nat)
    ensures |Digits(n)| <= k + 1 <==> n < Power10(k + 1)
    decreases k
  {
    if k == 0 {
      assert Power10(1) == 10 * Power10(0);
    } else if n >= 10 {
      DigitCount(n / 10, k - 1);
    } else {
      AtLeastTen(k);
    }
  }

  lemma {:induction false} DigitAt(n: nat, k: nat)
    requires k < |Digits(n)|
    ensures Digits(n)[|Digits(n)| - 1 - k] == 0x30 + n / Power10(k) % 10
    decreases k
  {
    if k > 0 {
      DigitAt(n / 10, k - 1);
      Nested(n, Power10(k - 1));
    }
  }

  lemma {:induction false} AtLeastTen(k: nat)
    ensures Power10(k + 1) >= 10
  {
    if k > 0 { AtLeastTen(k - 1); }
  }

  lemma Nested(n: nat, p: nat)
    requires p > 0
    ensures n / 10 / p == n / (10 * p)
  {
    var q := n / 10 / p;
    assert n / 10 == p * q + n / 10 % p;
    assert n == (10 * p) * q + (10 * (n / 10 % p) + n % 10);
    Quotient(n, 10 * p, q, 10 * (n / 10 % p) + n % 10);
  }

  // ----------------------------------------------------------------- normal form

  /** The keys of every object inside `v` ascend, a key before its continuations and otherwise by the first code
      point that differs. */
  predicate KeysAscend(v: Value) {
    match v
    case Arr(items) => forall x | x in items :: KeysAscend(x)
    case Obj(fields) =>
      && (forall i, j :: 0 <= i < j < |fields| ==> Earlier(fields[i].key, fields[j].key))
      && (forall f | f in fields :: KeysAscend(f.value))
    case _ => true
  }

  lemma {:induction false} NormAscends(v: Value)
    requires Proper(v)
    ensures KeysAscend(Norm(v))
  {
    match v
    case Arr(items) =>
      forall x | x in NormItems(items) ensures KeysAscend(x) {
        var i :| 0 <= i < |items| && NormItems(items)[i] == x;
        NormItemsAt(items, i);
        NormAscends(items[i]);
      }
    case Obj(fields) =>
      NormFieldsDistinct(fields);
      SortSorts(NormFields(fields));
      var sorted := Sort(NormFields(fields));
      forall i, j | 0 <= i < j < |sorted| ensures Earlier(sorted[i].key, sorted[j].key) {
        BeforeIff(sorted[i].key, sorted[j].key);
      }
      forall g | g in sorted ensures KeysAscend(g.value) {
        var i := NormFieldsSource(fields, g);
        assert fields[i] in fields;
        NormAscends(fields[i].value);
      }
    case _ =>
  }

  lemma {:induction false} AscendingIsNormal(v: Value)
    requires Proper(v) && KeysAscend(v)
    ensures Norm(v) == v
  {
    match v
    case Arr(items) =>
      forall i | 0 <= i < |items| ensures NormItems(items)[i] == items[i] {
        NormItemsAt(items, i);
        assert items[i] in items;
        AscendingIsNormal(items[i]);
      }
      assert NormItems(items) == items;
    case Obj(fields) =>
      forall i | 0 <= i < |fields| ensures NormFields(fields)[i] == fields[i] {
        NormFieldsAt(fields, i);
        assert fields[i] in fields;
        AscendingIsNormal(fields[i].value);
      }
      assert NormFields(fields) == fields;
      forall i, j | 0 <= i < j < |fields| ensures Before(fields[i].key, fields[j].key) {
        BeforeIff(fields[i].key, fields[j].key);
      }
      SortSorts(fields);
      SortedUnique(Sort(fields), fields);
    case _ =>
  }

  /** What `sort_keys` writes is the one value that is equal up to key order and whose keys ascend everywhere. */
  lemma {:induction false} NormalForm(v: Value, w: Value)
    requires Proper(v) && Proper(w)
    ensures Proper(Norm(v)) && KeysAscend(Norm(v)) && Equivalent(v, Norm(v))
    ensures w == Norm(v) <==> KeysAscend(w) && Equivalent(v, w)
    ensures KeysAscend(w) && Equivalent(v, w) ==> Dumps(v, false) == Show(w, false) && Dumps(v, true) == Show(w, true)
  {
    NormProper(v);
    NormAscends(v);
    NormIdempotent(v);
    NormEqualGivesEquivalent(v, Norm(v));
    if KeysAscend(w) && Equivalent(v, w) {
      EquivalentGivesNormEqual(v, w);
      AscendingIsNormal(w);
    }
  }
}
