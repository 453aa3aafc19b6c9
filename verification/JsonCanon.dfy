/** Canonical JSON: two values are written alike exactly when they differ only in object key order. */
module JsonCanon {
  import opened Texts
  import opened JsonText
  import opened Json
  import opened JsonRoundTrip

  /** Equal up to the order in which objects hold their keys. */
  predicate Equivalent(v: Value, w: Value)
    decreases v
  {
    match (v, w)
    case (Arr(a), Arr(b)) => |a| == |b| && forall i :: 0 <= i < |a| ==> Equivalent(a[i], b[i])
    case (Obj(f), Obj(g)) =>
      && (forall i :: 0 <= i < |f| ==> HasKey(g, f[i].key))
      && (forall j :: 0 <= j < |g| ==> HasKey(f, g[j].key))
      && (forall i, j :: 0 <= i < |f| && 0 <= j < |g| && f[i].key == g[j].key ==> Equivalent(f[i].value, g[j].value))
    case _ => v == w
  }

  predicate HasKey(fields: seq<Field>, key: Text) {
    exists i :: 0 <= i < |fields| && fields[i].key == key
  }

  predicate Sorted(fields: seq<Field>) {
    forall i, j :: 0 <= i < j < |fields| ==> Before(fields[i].key, fields[j].key)
  }

  // ------------------------------------------------------------------ sorting

  lemma {:induction false} InsertKeeps(f: Field, fields: seq<Field>)
    ensures forall g :: g in Insert(f, fields) <==> g == f || g in fields
    ensures |Insert(f, fields)| == |fields| + 1
  {
    if fields != [] {
      assert fields == [fields[0]] + fields[1..];
      InsertKeeps(f, fields[1..]);
    }
  }

  lemma {:induction false} InsertSorted(f: Field, fields: seq<Field>)
    requires Sorted(fields) && forall g | g in fields :: g.key != f.key
    ensures Sorted(Insert(f, fields))
  {
    if fields == [] {
    } else if Before(fields[0].key, f.key) {
      var tail := Insert(f, fields[1..]);
      InsertSorted(f, fields[1..]);
      InsertKeeps(f, fields[1..]);
      forall j | 0 <= j < |tail| ensures Before(fields[0].key, tail[j].key) {
        assert tail[j] in tail;
      }
      SortedPrepend(fields[0], tail);
    } else {
      BeforeConnected(fields[0].key, f.key);
      forall j | 0 <= j < |fields| ensures Before(f.key, fields[j].key) {
        if j > 0 { BeforeTransitive(f.key, fields[0].key, fields[j].key); }
      }
      SortedPrepend(f, fields);
    }
  }

  lemma SortedPrepend(f: Field, fields: seq<Field>)
    requires Sorted(fields) && forall j :: 0 <= j < |fields| ==> Before(f.key, fields[j].key)
    ensures Sorted([f] + fields)
  {
  }

  lemma {:induction false} SortSorts(fields: seq<Field>)
    requires DistinctKeys(fields)
    ensures Sorted(Sort(fields)) && DistinctKeys(Sort(fields))
    ensures |Sort(fields)| == |fields| && forall g :: g in Sort(fields) <==> g in fields
  {
    if fields != [] {
      SortSorts(fields[1..]);
      InsertKeeps(fields[0], Sort(fields[1..]));
      assert fields == [fields[0]] + fields[1..];
      forall g | g in fields[1..] ensures g.key != fields[0].key {
        var i :| 0 <= i < |fields[1..]| && fields[1..][i] == g;
        assert fields[i + 1] == g;
      }
      InsertSorted(fields[0], Sort(fields[1..]));
    }
    SortedDistinct(Sort(fields));
  }

  lemma SortedDistinct(fields: seq<Field>)
    requires Sorted(fields)
    ensures DistinctKeys(fields)
  {
    forall i, j | 0 <= i < j < |fields| ensures fields[i].key != fields[j].key {
      BeforeIrreflexive(fields[i].key);
    }
  }

  /** A sorted list of fields is fixed by which fields it holds. */
  lemma {:induction false} SortedUnique(a: seq<Field>, b: seq<Field>)
    requires Sorted(a) && Sorted(b) && forall g :: g in a <==> g in b
    ensures a == b
  {
    if a == [] {
      NonEmptyHasMember(b);
    } else {
      assert a[0] in b;
      assert b[0] in a;
      FirstIsLeast(a, b[0]);
      FirstIsLeast(b, a[0]);
      if a[0] != b[0] {
        BeforeTransitive(a[0].key, b[0].key, a[0].key);
        BeforeIrreflexive(a[0].key);
      }
      assert a == [a[0]] + a[1..] && b == [b[0]] + b[1..];
      NotInTail(a);
      NotInTail(b);
      assert forall g :: g in a <==> g == a[0] || g in a[1..];
      assert forall g :: g in b <==> g == b[0] || g in b[1..];
      SortedUnique(a[1..], b[1..]);
    }
  }

  lemma NonEmptyHasMember(b: seq<Field>)
    ensures b == [] || exists g :: g in b
  {
    if b != [] { assert b[0] in b; }
  }

  lemma FirstIsLeast(a: seq<Field>, g: Field)
    requires Sorted(a) && g in a
    ensures g == a[0] || Before(a[0].key, g.key)
  {
  }

  lemma NotInTail(a: seq<Field>)
    requires a != [] && Sorted(a)
    ensures a[0] !in a[1..]
  {
    if a[0] in a[1..] {
      BeforeIrreflexive(a[0].key);
    }
  }

  // -------------------------------------------------------------- normal form

  lemma {:induction false} NormItemsAt(items: seq<Value>, i: nat)
    requires i < |items|
    ensures NormItems(items)[i] == Norm(items[i])
  {
    if i > 0 { NormItemsAt(items[1..], i - 1); }
  }

  lemma {:induction false} NormFieldsAt(fields: seq<Field>, i: nat)
    requires i < |fields|
    ensures NormFields(fields)[i] == Field(fields[i].key, Norm(fields[i].value))
  {
    if i > 0 { NormFieldsAt(fields[1..], i - 1); }
  }

  lemma NormFieldsDistinct(fields: seq<Field>)
    requires DistinctKeys(fields)
    ensures DistinctKeys(NormFields(fields))
  {
    forall i | 0 <= i < |fields| ensures NormFields(fields)[i].key == fields[i].key { NormFieldsAt(fields, i); }
  }

  lemma NormFieldsSource(fields: seq<Field>, g: Field) returns (i: nat)
    requires g in NormFields(fields)
    ensures i < |fields| && g == Field(fields[i].key, Norm(fields[i].value))
  {
    i :| 0 <= i < |fields| && NormFields(fields)[i] == g;
    NormFieldsAt(fields, i);
  }

  lemma {:induction false} NormProper(v: Value)
    requires Proper(v)
    ensures Proper(Norm(v))
  {
    match v
    case Arr(items) =>
      forall x | x in NormItems(items) ensures Proper(x) {
        var i :| 0 <= i < |items| && NormItems(items)[i] == x;
        NormItemsAt(items, i);
        NormProper(items[i]);
      }
    case Obj(fields) =>
      NormFieldsDistinct(fields);
      SortSorts(NormFields(fields));
      forall g | g in Sort(NormFields(fields)) ensures Proper(g.value) {
        var i := NormFieldsSource(fields, g);
        NormProper(fields[i].value);
        assert fields[i] in fields;
      }
    case _ =>
  }

  /** Values with one normal form differ only in key order. */
  lemma {:induction false} NormEqualGivesEquivalent(v: Value, w: Value)
    requires Proper(v) && Proper(w) && Norm(v) == Norm(w)
    ensures Equivalent(v, w)
    decreases v
  {
    match (v, w)
    case (Arr(a), Arr(b)) =>
      forall i | 0 <= i < |a| ensures Equivalent(a[i], b[i]) {
        NormItemsAt(a, i);
        NormItemsAt(b, i);
        NormEqualGivesEquivalent(a[i], b[i]);
      }
    case (Obj(f), Obj(g)) =>
      NormFieldsDistinct(f);
      NormFieldsDistinct(g);
      SortSorts(NormFields(f));
      SortSorts(NormFields(g));
      forall i | 0 <= i < |f| ensures HasKey(g, f[i].key) {
        NormFieldsAt(f, i);
        var j := NormFieldsSource(g, NormFields(f)[i]);
      }
      forall j | 0 <= j < |g| ensures HasKey(f, g[j].key) {
        NormFieldsAt(g, j);
        var i := NormFieldsSource(f, NormFields(g)[j]);
      }
      forall i, j | 0 <= i < |f| && 0 <= j < |g| && f[i].key == g[j].key ensures Equivalent(f[i].value, g[j].value) {
        NormFieldsAt(f, i);
        var k := NormFieldsSource(g, NormFields(f)[i]);
        assert k == j;
        NormEqualGivesEquivalent(f[i].value, g[j].value);
      }
    case _ =>
  }

  /** Members whose keys are all found on the other side with equal normal forms are members there. */
  lemma MatchingIncluded(f: seq<Field>, g: seq<Field>)
    requires forall i :: 0 <= i < |f| ==> HasKey(g, f[i].key)
    requires forall i, j :: 0 <= i < |f| && 0 <= j < |g| && f[i].key == g[j].key ==> Norm(f[i].value) == Norm(g[j].value)
    ensures forall x | x in NormFields(f) :: x in NormFields(g)
  {
    forall x | x in NormFields(f) ensures x in NormFields(g) {
      var i := NormFieldsSource(f, x);
      var j :| 0 <= j < |g| && g[j].key == f[i].key;
      NormFieldsAt(g, j);
    }
  }

  lemma SameMembersSameNorm(f: seq<Field>, g: seq<Field>)
    requires DistinctKeys(f) && DistinctKeys(g) && forall x :: x in NormFields(f) <==> x in NormFields(g)
    ensures Norm(Obj(f)) == Norm(Obj(g))
  {
    NormFieldsDistinct(f);
    NormFieldsDistinct(g);
    SortSorts(NormFields(f));
    SortSorts(NormFields(g));
    SortedUnique(Sort(NormFields(f)), Sort(NormFields(g)));
  }

  lemma {:induction false} EquivalentGivesNormEqual(v: Value, w: Value)
    requires Proper(v) && Proper(w) && Equivalent(v, w)
    ensures Norm(v) == Norm(w)
    decreases v
  {
    match (v, w)
    case (Arr(a), Arr(b)) =>
      forall i | 0 <= i < |a| ensures NormItems(a)[i] == NormItems(b)[i] {
        NormItemsAt(a, i);
        NormItemsAt(b, i);
        EquivalentGivesNormEqual(a[i], b[i]);
      }
    case (Obj(f), Obj(g)) =>
      forall i, j | 0 <= i < |f| && 0 <= j < |g| && f[i].key == g[j].key ensures Norm(f[i].value) == Norm(g[j].value) {
        EquivalentGivesNormEqual(f[i].value, g[j].value);
      }
      MatchingIncluded(f, g);
      MatchingIncluded(g, f);
      SameMembersSameNorm(f, g);
    case _ =>
  }

  lemma {:induction false} LandedRaw(v: Value)
    requires Proper(v)
    ensures Landed(v, false) == v
    decreases v, 1
  {
    match v
    case Arr(items) => LandedItemsRaw(items);
    case Obj(fields) =>
      LandedFieldsRaw(fields);
      PutAllOfDict(fields);
    case _ =>
  }

  lemma {:induction false} LandedItemsRaw(items: seq<Value>)
    requires forall x | x in items :: Proper(x)
    ensures LandedItems(items, false) == items
    decreases items, 0
  {
    if items != [] {
      LandedRaw(items[0]);
      LandedItemsRaw(items[1..]);
    }
  }

  lemma {:induction false} LandedFieldsRaw(fields: seq<Field>)
    requires forall f | f in fields :: Proper(f.value)
    ensures LandedFields(fields, false) == fields
    decreases fields, 0
  {
    if fields != [] {
      LandedRaw(fields[0].value);
      LandedFieldsRaw(fields[1..]);
    }
  }

  // ------------------------------------------------------------- main results

  /** The writer is injective: the text determines the value it was written from. */
  lemma {:induction false} ShowInjective(v: Value, w: Value)
    requires Proper(v) && Proper(w) && Show(v, false) == Show(w, false)
    ensures v == w
  {
    ValueRoundTrip(v, false, []);
    ValueRoundTrip(w, false, []);
    LandedRaw(v);
    LandedRaw(w);
  }

  /** The canonical string of two values agrees if and only if they are equal up to object key order. */
  lemma {:induction false} CanonicalIff(v: Value, w: Value)
    requires Proper(v) && Proper(w)
    ensures Dumps(v, false) == Dumps(w, false) <==> Equivalent(v, w)
  {
    if Equivalent(v, w) { EquivalentGivesNormEqual(v, w); }
    if Dumps(v, false) == Dumps(w, false) {
      NormProper(v);
      NormProper(w);
      ShowInjective(Norm(v), Norm(w));
      NormEqualGivesEquivalent(v, w);
    }
  }

  /** Reading a sorted string gives the value back up to key order, with nothing left unread; with ASCII escapes
      its surrogate pairs come back joined. Without them a dict comes back as it is. */
  lemma {:induction false} LoadsDumps(v: Value, ascii: bool)
    ensures Loads(Dumps(v, ascii)) == Got(Landed(Norm(v), ascii), [])
    ensures Proper(v) && !ascii ==> Loads(Dumps(v, ascii)) == Got(Norm(v), [])
  {
    if Proper(v) && !ascii {
      NormProper(v);
      LandedRaw(Norm(v));
    }
    ShowHead(Norm(v), ascii);
    ValueRoundTrip(Norm(v), ascii, []);
    assert Dumps(v, ascii) + [] == Dumps(v, ascii);
  }
}
