/** Reading back what was written: `loads` inverts the writer on every float-free value. */
module JsonRoundTrip {
  import opened Texts
  import opened JsonText
  import opened JsonNumber
  import opened Json

  /** A string as it comes back: with `ensure_ascii`, its surrogate pairs joined. */
  function LandedText(t: Text, ascii: bool): Text { if ascii then Joined(t) else t }

  /** Members put one after another, as the reader does: a repeated key keeps its first place and its last value. */
  function PutAll(before: seq<Field>, fields: seq<Field>): seq<Field>
    decreases |fields|
  {
    if fields == [] then before else PutAll(Put(before, fields[0]), fields[1..])
  }

  function LandedItems(items: seq<Value>, ascii: bool): (r: seq<Value>)
    decreases items, 0
  {
    if items == [] then [] else [Landed(items[0], ascii)] + LandedItems(items[1..], ascii)
  }

  function LandedField(f: Field, ascii: bool): Field
    decreases f, 0
  {
    Field(LandedText(f.key, ascii), Landed(f.value, ascii))
  }

  function LandedFields(fields: seq<Field>, ascii: bool): (r: seq<Field>)
    decreases fields, 0
  {
    if fields == [] then [] else [LandedField(fields[0], ascii)] + LandedFields(fields[1..], ascii)
  }

  /** What comes back when `v` is written and read. Two keys of an object that are joined to the same string
      come back as one member. */
  function Landed(v: Value, ascii: bool): Value
    decreases v, 1
  {
    match v
    case Str(t) => Str(LandedText(t, ascii))
    case Arr(items) => Arr(LandedItems(items, ascii))
    case Obj(fields) => Obj(PutAll([], LandedFields(fields, ascii)))
    case _ => v
  }

  /** A written value opens with a mark that no space, comma or closing bracket shares. */
  lemma ShowHead(v: Value, ascii: bool)
    ensures Show(v, ascii) != []
    ensures var c := Show(v, ascii)[0]; c == QUOTE || c == 0x7B || c == 0x5B || IsDigit(c) || c == 0x2D || c in {0x6E, 0x74, 0x66}
  {
  }

  lemma ReadStringValue(t: Text, ascii: bool, rest: Text)
    ensures ReadValue(ShowString(t, ascii) + rest) == Got(Str(LandedText(t, ascii)), rest)
  {
    var s := ShowString(t, ascii) + rest;
    assert s[0] == QUOTE && s[1..] == Body(t, ascii, rest);
    StringRoundTrip(t, ascii, rest);
  }

  lemma ReadIntValue(n: int, rest: Text)
    requires EndsNumber(rest)
    ensures ReadValue(ShowInt(n) + rest) == Got(Int(n), rest)
  {
    var s := ShowInt(n) + rest;
    IntRoundTrip(n, rest);
    assert s[0] == ShowInt(n)[0];
    if n < 0 { assert s[1] == Digits(-n)[0]; }
    NotAWord(s);
  }

  lemma NotAWord(s: Text)
    requires s != [] && (IsDigit(s[0]) || (s[0] == 0x2D && |s| >= 2 && IsDigit(s[1])))
    ensures !Opens(s, Lit("null")) && !Opens(s, Lit("true")) && !Opens(s, Lit("false"))
    ensures !Opens(s, Lit("NaN")) && !Opens(s, Lit("Infinity")) && !Opens(s, Lit("-Infinity"))
  {
    if |s| >= 9 { assert s[..9][0] == s[0] && s[..9][1] == s[1]; }
    if |s| >= 8 { assert s[..8][0] == s[0]; }
    if |s| >= 5 { assert s[..5][0] == s[0]; }
    if |s| >= 4 { assert s[..4][0] == s[0]; }
    if |s| >= 3 { assert s[..3][0] == s[0]; }
  }

  lemma ReadWord(v: Value, ascii: bool, rest: Text)
    requires v.Null? || v.Bool?
    ensures ReadValue(Show(v, ascii) + rest) == Got(v, rest)
  {
    var w := Show(v, ascii);
    var s := w + rest;
    assert s[0] == w[0] && s[..|w|] == w && s[|w|..] == rest;
    if v == Bool(true) { assert s[..4][0] != Lit("null")[0]; }
    if v == Bool(false) { assert s[..4][0] == 0x66; }
  }

  // --------------------------------------------------- regrouping the text

  /** The elements of an array with its closing bracket and what follows. */
  function ItemsText(items: seq<Value>, ascii: bool, rest: Text): Text {
    ShowItems(items, ascii) + ([0x5D] + rest)
  }

  /** The members of an object with its closing brace and what follows. */
  function FieldsText(fields: seq<Field>, ascii: bool, rest: Text): Text {
    ShowFields(fields, ascii) + ([0x7D] + rest)
  }

  lemma Regroup(a: Text, b: Text, c: Text, d: Text)
    ensures a + b + c + d == a + (b + (c + d))
  {
  }

  lemma ItemsTextLast(items: seq<Value>, ascii: bool, rest: Text)
    requires |items| == 1
    ensures ItemsText(items, ascii, rest) == Show(items[0], ascii) + ([0x5D] + rest)
  {
    assert ShowItems(items[1..], ascii) == [];
  }

  lemma ItemsTextMore(items: seq<Value>, ascii: bool, rest: Text)
    requires |items| > 1
    ensures ItemsText(items, ascii, rest) == Show(items[0], ascii) + ([0x2C] + ItemsText(items[1..], ascii, rest))
  {
    Regroup(Show(items[0], ascii), [0x2C], ShowItems(items[1..], ascii), [0x5D] + rest);
  }

  /** One member's text, then `more`. */
  function MemberText(f: Field, ascii: bool, more: Text): Text {
    [QUOTE] + Body(f.key, ascii, [0x3A] + (Show(f.value, ascii) + more))
  }

  lemma MemberRegroup(f: Field, ascii: bool, more: Text)
    ensures ShowString(f.key, ascii) + [0x3A] + Show(f.value, ascii) + more == MemberText(f, ascii, more)
  {
    var key, v := EscapeAll(f.key, ascii), Show(f.value, ascii);
    assert [QUOTE] + key + [QUOTE] + [0x3A] + v + more == [QUOTE] + (key + [QUOTE] + ([0x3A] + (v + more)));
  }

  lemma FieldsTextLast(fields: seq<Field>, ascii: bool, rest: Text)
    requires |fields| == 1
    ensures FieldsText(fields, ascii, rest) == MemberText(fields[0], ascii, [0x7D] + rest)
  {
    assert ShowFields(fields[1..], ascii) == [];
    MemberRegroup(fields[0], ascii, [0x7D] + rest);
  }

  lemma FieldsTextMore(fields: seq<Field>, ascii: bool, rest: Text)
    requires |fields| > 1
    ensures FieldsText(fields, ascii, rest) == MemberText(fields[0], ascii, [0x2C] + FieldsText(fields[1..], ascii, rest))
  {
    var one := ShowString(fields[0].key, ascii) + [0x3A] + Show(fields[0].value, ascii);
    Regroup(one, [0x2C], ShowFields(fields[1..], ascii), [0x7D] + rest);
    MemberRegroup(fields[0], ascii, [0x2C] + FieldsText(fields[1..], ascii, rest));
  }

  // ------------------------------------------------------------ single steps

  lemma ReadArray(s: Text, r: Read<Value>)
    requires s != [] && !IsSpace(s[0])
    requires s[0] == 0x5D ==> r == Got(Arr([]), s[1..])
    requires s[0] != 0x5D ==> r == ReadItems(s, [])
    ensures ReadValue([0x5B] + s) == r
  {
    assert ([0x5B] + s)[1..] == s;
  }

  lemma ReadObject(s: Text, r: Read<Value>)
    requires s != [] && !IsSpace(s[0])
    requires s[0] == 0x7D ==> r == Got(Obj([]), s[1..])
    requires s[0] != 0x7D ==> r == ReadFields(s, [])
    ensures ReadValue([0x7B] + s) == r
  {
    assert ([0x7B] + s)[1..] == s;
  }

  lemma ItemsHead(items: seq<Value>, ascii: bool, rest: Text)
    requires items != []
    ensures ItemsText(items, ascii, rest) != []
    ensures !IsSpace(ItemsText(items, ascii, rest)[0]) && ItemsText(items, ascii, rest)[0] != 0x5D
  {
    ShowHead(items[0], ascii);
    assert ShowItems(items, ascii)[0] == Show(items[0], ascii)[0];
  }

  lemma FieldsHead(fields: seq<Field>, ascii: bool, rest: Text)
    requires fields != []
    ensures FieldsText(fields, ascii, rest) != [] && FieldsText(fields, ascii, rest)[0] == QUOTE
  {
    assert ShowFields(fields, ascii)[0] == QUOTE;
  }

  /** One element read: what `ReadItems` does once its first value is known. */
  lemma ItemsStep(s: Text, before: seq<Value>, v: Value, more: Text)
    requires ReadValue(s) == Got(v, more) && more != [] && !IsSpace(more[0])
    ensures more[0] == 0x5D ==> ReadItems(s, before) == Got(Arr(before + [v]), more[1..])
    ensures more[0] == 0x2C ==> ReadItems(s, before) == ReadItems(SkipSpace(more[1..]), before + [v])
  {
  }

  /** One member read: what `ReadFields` does once its first key and value are known. */
  lemma FieldsStep(t: Text, before: seq<Field>, key: Text, afterKey: Text, v: Value, more: Text)
    requires ReadChars(t) == Got(key, [0x3A] + afterKey) && afterKey != [] && !IsSpace(afterKey[0])
    requires ReadValue(afterKey) == Got(v, more) && more != [] && !IsSpace(more[0])
    ensures more[0] == 0x7D ==> ReadFields([QUOTE] + t, before) == Got(Obj(Put(before, Field(key, v))), more[1..])
    ensures more[0] == 0x2C ==>
              ReadFields([QUOTE] + t, before) == ReadFields(SkipSpace(more[1..]), Put(before, Field(key, v)))
  {
    var s := [QUOTE] + t;
    assert s[0] == QUOTE && s[1..] == t;
    var colon := [0x3A] + afterKey;
    assert colon[0] == 0x3A && colon[1..] == afterKey;
  }

  lemma {:induction false} PutNew(fields: seq<Field>, f: Field)
    requires forall i :: 0 <= i < |fields| ==> fields[i].key != f.key
    ensures Put(fields, f) == fields + [f]
  {
    if fields != [] {
      PutNew(fields[1..], f);
      assert fields == [fields[0]] + fields[1..];
    }
  }

  lemma MemberStep(f: Field, ascii: bool, before: seq<Field>, v: Value, more: Text)
    requires more != [] && !IsSpace(more[0])
    requires ReadValue(Show(f.value, ascii) + more) == Got(v, more)
    ensures var after := Put(before, Field(LandedText(f.key, ascii), v));
            && (more[0] == 0x7D ==> ReadFields(MemberText(f, ascii, more), before) == Got(Obj(after), more[1..]))
            && (more[0] == 0x2C ==> ReadFields(MemberText(f, ascii, more), before) == ReadFields(SkipSpace(more[1..]), after))
  {
    var afterKey := Show(f.value, ascii) + more;
    ShowHead(f.value, ascii);
    assert afterKey[0] == Show(f.value, ascii)[0];
    StringRoundTrip(f.key, ascii, [0x3A] + afterKey);
    FieldsStep(Body(f.key, ascii, [0x3A] + afterKey), before, LandedText(f.key, ascii), afterKey, v, more);
  }

  // ------------------------------------------------------------ the induction

  /** A written value is read back, to the last character and no further. */
  lemma {:induction false} ValueRoundTrip(v: Value, ascii: bool, rest: Text)
    requires v.Int? ==> EndsNumber(rest)
    ensures ReadValue(Show(v, ascii) + rest) == Got(Landed(v, ascii), rest)
    decreases v, 2
  {
    match v
    case Null => ReadWord(v, ascii, rest);
    case Bool(_) => ReadWord(v, ascii, rest);
    case Int(n) => ReadIntValue(n, rest);
    case Str(t) => ReadStringValue(t, ascii, rest);
    case Arr(items) => ArrayRoundTrip(v, ascii, rest);
    case Obj(fields) => ObjectRoundTrip(v, ascii, rest);
  }

  lemma {:induction false} ArrayRoundTrip(v: Value, ascii: bool, rest: Text)
    requires v.Arr?
    ensures ReadValue(Show(v, ascii) + rest) == Got(Landed(v, ascii), rest)
    decreases v, 1
  {
    var s, landed := ItemsText(v.items, ascii, rest), LandedItems(v.items, ascii);
    Regroup([0x5B], ShowItems(v.items, ascii), [0x5D], rest);
    if v.items == [] {
      assert s == [0x5D] + rest;
    } else {
      ItemsHead(v.items, ascii, rest);
      ItemsRoundTrip(v.items, ascii, [], rest);
      assert [] + landed == landed;
    }
    ReadArray(s, Got(Arr(landed), rest));
  }

  lemma {:induction false} ObjectRoundTrip(v: Value, ascii: bool, rest: Text)
    requires v.Obj?
    ensures ReadValue(Show(v, ascii) + rest) == Got(Landed(v, ascii), rest)
    decreases v, 1
  {
    var s, landed := FieldsText(v.fields, ascii, rest), PutAll([], LandedFields(v.fields, ascii));
    Regroup([0x7B], ShowFields(v.fields, ascii), [0x7D], rest);
    if v.fields == [] {
      assert s == [0x7D] + rest;
    } else {
      FieldsHead(v.fields, ascii, rest);
      FieldsRoundTrip(v.fields, ascii, [], rest);
    }
    ReadObject(s, Got(Obj(landed), rest));
  }

  lemma LandedMore(items: seq<Value>, ascii: bool, before: seq<Value>)
    requires items != []
    ensures before + [Landed(items[0], ascii)] + LandedItems(items[1..], ascii) == before + LandedItems(items, ascii)
  {
  }

  lemma {:induction false} ItemsRoundTrip(items: seq<Value>, ascii: bool, before: seq<Value>, rest: Text)
    requires items != []
    ensures ReadItems(ItemsText(items, ascii, rest), before) == Got(Arr(before + LandedItems(items, ascii)), rest)
    decreases items, 0
  {
    var s, v := ItemsText(items, ascii, rest), Landed(items[0], ascii);
    if |items| == 1 {
      var more := [0x5D] + rest;
      ItemsTextLast(items, ascii, rest);
      ValueRoundTrip(items[0], ascii, more);
      ItemsStep(s, before, v, more);
      assert LandedItems(items, ascii) == [v];
    } else {
      var tail := ItemsText(items[1..], ascii, rest);
      var more := [0x2C] + tail;
      ItemsTextMore(items, ascii, rest);
      ValueRoundTrip(items[0], ascii, more);
      ItemsStep(s, before, v, more);
      ItemsHead(items[1..], ascii, rest);
      assert more[1..] == tail;
      ItemsRoundTrip(items[1..], ascii, before + [v], rest);
      LandedMore(items, ascii, before);
    }
  }

  /** From one member to the next: the rest of the object decides, with the member put among what came before. */
  lemma NextField(fields: seq<Field>, ascii: bool, before: seq<Field>, v: Value, rest: Text)
    requires |fields| > 1
    requires var more := [0x2C] + FieldsText(fields[1..], ascii, rest);
             ReadValue(Show(fields[0].value, ascii) + more) == Got(v, more)
    ensures ReadFields(FieldsText(fields, ascii, rest), before)
         == ReadFields(FieldsText(fields[1..], ascii, rest), Put(before, Field(LandedText(fields[0].key, ascii), v)))
  {
    var tail := FieldsText(fields[1..], ascii, rest);
    var more := [0x2C] + tail;
    FieldsTextMore(fields, ascii, rest);
    MemberStep(fields[0], ascii, before, v, more);
    FieldsHead(fields[1..], ascii, rest);
    assert more[1..] == tail;
  }

  lemma LastField(fields: seq<Field>, ascii: bool, before: seq<Field>, v: Value, rest: Text)
    requires |fields| == 1
    requires ReadValue(Show(fields[0].value, ascii) + ([0x7D] + rest)) == Got(v, [0x7D] + rest)
    ensures ReadFields(FieldsText(fields, ascii, rest), before)
         == Got(Obj(Put(before, Field(LandedText(fields[0].key, ascii), v))), rest)
  {
    var more := [0x7D] + rest;
    FieldsTextLast(fields, ascii, rest);
    MemberStep(fields[0], ascii, before, v, more);
    assert more[1..] == rest;
  }

  lemma PutFirst(fields: seq<Field>, ascii: bool, before: seq<Field>)
    requires fields != []
    ensures PutAll(before, LandedFields(fields, ascii))
         == PutAll(Put(before, LandedField(fields[0], ascii)), LandedFields(fields[1..], ascii))
  {
    assert LandedFields(fields, ascii)[1..] == LandedFields(fields[1..], ascii);
  }

  lemma {:induction false} FieldsRoundTrip(fields: seq<Field>, ascii: bool, before: seq<Field>, rest: Text)
    requires fields != []
    ensures ReadFields(FieldsText(fields, ascii, rest), before)
         == Got(Obj(PutAll(before, LandedFields(fields, ascii))), rest)
    decreases fields, 0
  {
    var g := LandedField(fields[0], ascii);
    PutFirst(fields, ascii, before);
    if |fields| == 1 {
      ValueRoundTrip(fields[0].value, ascii, [0x7D] + rest);
      LastField(fields, ascii, before, g.value, rest);
    } else {
      ValueRoundTrip(fields[0].value, ascii, [0x2C] + FieldsText(fields[1..], ascii, rest));
      NextField(fields, ascii, before, g.value, rest);
      FieldsRoundTrip(fields[1..], ascii, Put(before, g), rest);
    }
  }

  // ---------------------------------------------------------- distinct members

  lemma {:induction false} PutAllDistinct(before: seq<Field>, fields: seq<Field>)
    requires DistinctKeys(before + fields)
    ensures PutAll(before, fields) == before + fields
    decreases |fields|
  {
    if fields != [] {
      assert forall i :: 0 <= i < |before| ==> (before + fields)[i] == before[i];
      assert (before + fields)[|before|] == fields[0];
      PutNew(before, fields[0]);
      assert before + [fields[0]] + fields[1..] == before + fields;
      PutAllDistinct(before + [fields[0]], fields[1..]);
    }
  }

  /** A dict's own members come back one by one. */
  lemma PutAllOfDict(fields: seq<Field>)
    requires DistinctKeys(fields)
    ensures PutAll([], fields) == fields
  {
    assert [] + fields == fields;
    PutAllDistinct([], fields);
  }
}
