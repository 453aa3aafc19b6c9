/** What reading can yield: dicts with distinct keys and strings without split surrogate pairs, which the
    writer and the reader then leave fixed. */
module JsonClean {
  import opened Texts
  import opened JsonText
  import opened JsonNumber
  import opened Json
  import opened JsonRoundTrip
  import opened JsonCanon

  predicate Clean(v: Value) {
    match v
    case Str(t) => PairFree(t)
    case Arr(items) => forall x | x in items :: Clean(x)
    case Obj(fields) => DistinctKeys(fields) && forall f | f in fields :: PairFree(f.key) && Clean(f.value)
    case _ => true
  }

  predicate CleanFields(fields: seq<Field>) { Clean(Obj(fields)) }

  lemma {:induction false} SkipSpaceScalar(s: Text)
    requires Scalar(s)
    ensures Scalar(SkipSpace(s))
  {
    if s != [] && IsSpace(s[0]) { SkipSpaceScalar(s[1..]); }
  }

  lemma DropScalar(s: Text, k: nat)
    requires Scalar(s) && k <= |s|
    ensures Scalar(s[k..])
  {
  }

  lemma {:induction false} PutClean(fields: seq<Field>, f: Field)
    requires CleanFields(fields) && PairFree(f.key) && Clean(f.value)
    ensures CleanFields(Put(fields, f))
    ensures forall g | g in Put(fields, f) :: g == f || g in fields
  {
    if fields == [] {
    } else if fields[0].key == f.key {
      assert forall g | g in fields[1..] :: g in fields;
      assert Put(fields, f) == fields[0 := f];
    } else {
      assert forall g | g in fields[1..] :: g in fields;
      PutClean(fields[1..], f);
      assert fields == [fields[0]] + fields[1..];
      var tail := Put(fields[1..], f);
      forall j | 0 <= j < |tail| ensures tail[j].key != fields[0].key {
        assert tail[j] in tail;
        if tail[j] != f {
          var k :| 0 <= k < |fields[1..]| && fields[1..][k] == tail[j];
          assert fields[k + 1] == tail[j];
        }
      }
      DistinctPrepend(fields[0], tail);
    }
  }

  lemma DistinctPrepend(f: Field, fields: seq<Field>)
    requires DistinctKeys(fields) && forall j :: 0 <= j < |fields| ==> fields[j].key != f.key
    ensures DistinctKeys([f] + fields)
  {
  }

  lemma {:induction false} ReadIntScalar(s: Text)
    requires Scalar(s) && ReadInt(s).Got?
    ensures Scalar(ReadInt(s).rest)
  {
    var body := if s != [] && s[0] == 0x2D then s[1..] else s;
    DropScalar(body, IntegerLength(body));
  }

  lemma {:induction false} ReadValueClean(s: Text)
    requires Scalar(s)
    ensures ReadValue(s).Got? ==> Clean(ReadValue(s).value) && Scalar(ReadValue(s).rest)
    decreases |s|, 0
  {
    if s != [] && ReadValue(s).Got? {
      DropScalar(s, 1);
      if s[0] == QUOTE {
        ReadIsPairFree(s[1..]);
      } else if s[0] == 0x7B {
        var inner := SkipSpace(s[1..]);
        SkipSpaceScalar(s[1..]);
        if inner != [] && inner[0] == 0x7D { DropScalar(inner, 1); } else { ReadFieldsClean(inner, []); }
      } else if s[0] == 0x5B {
        var inner := SkipSpace(s[1..]);
        SkipSpaceScalar(s[1..]);
        if inner != [] && inner[0] == 0x5D { DropScalar(inner, 1); } else { ReadItemsClean(inner, []); }
      } else if Opens(s, Lit("null")) || Opens(s, Lit("true")) || Opens(s, Lit("false")) {
      } else {
        ReadIntScalar(s);
      }
    }
  }

  lemma {:induction false} ReadItemsClean(s: Text, before: seq<Value>)
    requires Scalar(s) && forall x | x in before :: Clean(x)
    ensures ReadItems(s, before).Got? ==> Clean(ReadItems(s, before).value) && Scalar(ReadItems(s, before).rest)
    decreases |s|, 1
  {
    ReadValueClean(s);
    if ReadItems(s, before).Got? {
      var v, more := ReadValue(s).value, ReadValue(s).rest;
      var after := SkipSpace(more);
      SkipSpaceScalar(more);
      DropScalar(after, 1);
      if after[0] == 0x2C {
        SkipSpaceScalar(after[1..]);
        ReadItemsClean(SkipSpace(after[1..]), before + [v]);
      }
    }
  }

  lemma {:induction false} ReadFieldsClean(s: Text, before: seq<Field>)
    requires Scalar(s) && CleanFields(before)
    ensures ReadFields(s, before).Got? ==> Clean(ReadFields(s, before).value) && Scalar(ReadFields(s, before).rest)
    decreases |s|, 1
  {
    if ReadFields(s, before).Got? {
      DropScalar(s, 1);
      ReadIsPairFree(s[1..]);
      var key, afterKey := ReadChars(s[1..]).value, ReadChars(s[1..]).rest;
      var colon := SkipSpace(afterKey);
      SkipSpaceScalar(afterKey);
      DropScalar(colon, 1);
      SkipSpaceScalar(colon[1..]);
      ReadValueClean(SkipSpace(colon[1..]));
      var r := ReadValue(SkipSpace(colon[1..]));
      var after := SkipSpace(r.rest);
      SkipSpaceScalar(r.rest);
      DropScalar(after, 1);
      PutClean(before, Field(key, r.value));
      if after[0] == 0x2C {
        SkipSpaceScalar(after[1..]);
        ReadFieldsClean(SkipSpace(after[1..]), Put(before, Field(key, r.value)));
      }
    }
  }

  lemma LoadsClean(s: Text)
    requires Scalar(s) && Loads(s).Got?
    ensures Clean(Loads(s).value)
  {
    SkipSpaceScalar(s);
    ReadValueClean(SkipSpace(s));
  }

  // ------------------------------------------------------------- fixed points

  lemma {:induction false} CleanIsProper(v: Value)
    requires Clean(v)
    ensures Proper(v)
  {
    match v
    case Arr(items) => forall x | x in items ensures Proper(x) { CleanIsProper(x); }
    case Obj(fields) => forall f | f in fields ensures Proper(f.value) { CleanIsProper(f.value); }
    case _ =>
  }

  lemma {:induction false} NormClean(v: Value)
    requires Clean(v)
    ensures Clean(Norm(v))
  {
    match v
    case Arr(items) =>
      forall x | x in NormItems(items) ensures Clean(x) {
        var i :| 0 <= i < |items| && NormItems(items)[i] == x;
        NormItemsAt(items, i);
        NormClean(items[i]);
      }
    case Obj(fields) =>
      NormFieldsDistinct(fields);
      SortSorts(NormFields(fields));
      forall g | g in Sort(NormFields(fields)) ensures PairFree(g.key) && Clean(g.value) {
        var i := NormFieldsSource(fields, g);
        assert fields[i] in fields;
        NormClean(fields[i].value);
      }
    case _ =>
  }

  lemma {:induction false} LandedClean(v: Value)
    requires Clean(v)
    ensures Landed(v, true) == v
    decreases v, 1
  {
    match v
    case Str(t) => JoinedShrinks(t);
    case Arr(items) => LandedItemsClean(items);
    case Obj(fields) =>
      LandedFieldsClean(fields);
      PutAllOfDict(fields);
    case _ =>
  }

  lemma {:induction false} LandedItemsClean(items: seq<Value>)
    requires forall x | x in items :: Clean(x)
    ensures LandedItems(items, true) == items
    decreases items, 0
  {
    if items != [] {
      LandedClean(items[0]);
      LandedItemsClean(items[1..]);
    }
  }

  lemma {:induction false} LandedFieldsClean(fields: seq<Field>)
    requires forall f | f in fields :: PairFree(f.key) && Clean(f.value)
    ensures LandedFields(fields, true) == fields
    decreases fields, 0
  {
    if fields != [] {
      JoinedShrinks(fields[0].key);
      LandedClean(fields[0].value);
      LandedFieldsClean(fields[1..]);
    }
  }

  lemma {:induction false} NormIdempotent(v: Value)
    requires Proper(v)
    ensures Norm(Norm(v)) == Norm(v)
  {
    match v
    case Arr(items) =>
      var a := NormItems(items);
      forall i | 0 <= i < |items| ensures NormItems(a)[i] == a[i] {
        NormItemsAt(items, i);
        NormItemsAt(a, i);
        NormIdempotent(items[i]);
      }
    case Obj(fields) =>
      var g := Sort(NormFields(fields));
      NormFieldsDistinct(fields);
      SortSorts(NormFields(fields));
      forall k | 0 <= k < |g| ensures NormFields(g)[k] == g[k] {
        NormFieldsAt(g, k);
        assert g[k] in NormFields(fields);
        var i := NormFieldsSource(fields, g[k]);
        NormIdempotent(fields[i].value);
      }
      assert NormFields(g) == g;
      SortSorts(g);
      SortedUnique(Sort(g), g);
    case _ =>
  }
}
