/** The operator's reads over both delivery ledgers (axon/src/axon/reads.py). */
module LedgerReads {
  import opened Texts
  import opened Rls

  /** A ledger row; a platform row has no tenant column. */
  datatype Stored = Stored(deliveryId: Id, createdAt: int, state: string, reason: Option<string>, rest: string)

  datatype TenantStored = TenantStored(tenant: Id, row: Stored)

  datatype DeliveryRow = DeliveryRow(scope: string, tenant: Option<Id>, row: Stored)

  datatype DeliveryCounts = DeliveryCounts(
    total: nat, accepted: nat, failed: nat, suppressed: nat, suppressedNotOnboarded: nat)

  const MAX_ROWS: nat := 200

  predicate Vocabulary(r: Stored) { r.state in {"accepted", "failed", "suppressed"} }

  // ----------------------------------------------------------------- the union

  function FromPlatform(platform: seq<Stored>): (u: seq<DeliveryRow>)
    ensures |u| == |platform|
  {
    seq(|platform|, i requires 0 <= i < |platform| => DeliveryRow("PLATFORM", None, platform[i]))
  }

  /** The tenant branch, filtered by the policy under the session. */
  function FromTenant(tenant: seq<TenantStored>, s: Session): seq<DeliveryRow> {
    if tenant == [] then []
    else
      (if Admits(OpenForm(Some(tenant[0].tenant), s))
       then [DeliveryRow("TENANT", Some(tenant[0].tenant), tenant[0].row)] else [])
      + FromTenant(tenant[1..], s)
  }

  /** UNION ALL, in whatever order the tables are scanned. */
  function Union(platform: seq<Stored>, tenant: seq<TenantStored>, s: Session): seq<DeliveryRow> {
    FromPlatform(platform) + FromTenant(tenant, s)
  }

  /** The reader's session is PLATFORM, so the union holds every row of both ledgers. */
  lemma {:induction false} NothingIsFiltered(tenant: seq<TenantStored>, s: Session)
    requires s.userType == PLATFORM && !s.tenant.Garbage?
    ensures |FromTenant(tenant, s)| == |tenant|
    ensures forall i :: 0 <= i < |tenant| ==>
              FromTenant(tenant, s)[i] == DeliveryRow("TENANT", Some(tenant[i].tenant), tenant[i].row)
  {
    if tenant != [] { NothingIsFiltered(tenant[1..], s); }
  }

  /** Row by row: the platform ledger's, without a tenant, then the tenant ledger's. */
  lemma {:induction false} UnionRowByRow(platform: seq<Stored>, tenant: seq<TenantStored>, s: Session)
    requires s.userType == PLATFORM && !s.tenant.Garbage?
    ensures |Union(platform, tenant, s)| == |platform| + |tenant|
    ensures forall i :: 0 <= i < |platform| ==> Union(platform, tenant, s)[i] == DeliveryRow("PLATFORM", None, platform[i])
    ensures forall i :: 0 <= i < |tenant| ==>
              Union(platform, tenant, s)[|platform| + i] == DeliveryRow("TENANT", Some(tenant[i].tenant), tenant[i].row)
  {
    NothingIsFiltered(tenant, s);
  }

  /** Any other session would be given the platform ledger and its own tenant's rows. */
  lemma {:induction false} UnionMembers(platform: seq<Stored>, tenant: seq<TenantStored>, s: Session, r: DeliveryRow)
    requires s.userType != PLATFORM
    ensures r in Union(platform, tenant, s) <==>
              || (exists x | x in platform :: r == DeliveryRow("PLATFORM", None, x))
              || (exists x | x in tenant :: r == DeliveryRow("TENANT", Some(x.tenant), x.row) && s.tenant == TenantText(x.tenant))
  {
    TenantMembers(tenant, s, r);
    if r in FromPlatform(platform) {
      var i :| 0 <= i < |platform| && FromPlatform(platform)[i] == r;
      assert platform[i] in platform;
    }
    forall x | x in platform && r == DeliveryRow("PLATFORM", None, x) ensures r in FromPlatform(platform) {
      var i :| 0 <= i < |platform| && platform[i] == x;
      assert FromPlatform(platform)[i] == r;
    }
  }

  lemma {:induction false} TenantMembers(tenant: seq<TenantStored>, s: Session, r: DeliveryRow)
    requires s.userType != PLATFORM
    ensures r in FromTenant(tenant, s) <==>
              exists x | x in tenant :: r == DeliveryRow("TENANT", Some(x.tenant), x.row) && s.tenant == TenantText(x.tenant)
  {
    if tenant != [] {
      TenantMembers(tenant[1..], s, r);
      assert tenant == [tenant[0]] + tenant[1..];
    }
  }

  // ------------------------------------------------------------------ the order

  /** created_at DESC, delivery_id DESC. */
  predicate Precedes(a: DeliveryRow, b: DeliveryRow) {
    || a.row.createdAt > b.row.createdAt
    || (a.row.createdAt == b.row.createdAt && a.row.deliveryId > b.row.deliveryId)
  }

  /** `a` is newer than `b`, or as new with an id that is not smaller. */
  predicate NotAfter(a: DeliveryRow, b: DeliveryRow) {
    || a.row.createdAt > b.row.createdAt
    || (a.row.createdAt == b.row.createdAt && a.row.deliveryId >= b.row.deliveryId)
  }

  predicate Ordered(s: seq<DeliveryRow>) { forall i, j :: 0 <= i < j < |s| ==> !Precedes(s[j], s[i]) }

  function Place(x: DeliveryRow, s: seq<DeliveryRow>): seq<DeliveryRow> {
    if s == [] then [x] else if Precedes(s[0], x) then [s[0]] + Place(x, s[1..]) else [x] + s
  }

  function NewestFirst(u: seq<DeliveryRow>): seq<DeliveryRow> {
    if u == [] then [] else Place(u[0], NewestFirst(u[1..]))
  }

  lemma {:induction false} PlaceKeeps(x: DeliveryRow, s: seq<DeliveryRow>)
    ensures multiset(Place(x, s)) == multiset{x} + multiset(s)
    ensures |Place(x, s)| == |s| + 1
    ensures forall y | y in Place(x, s) :: y == x || y in s
  {
    if s != [] && Precedes(s[0], x) {
      PlaceKeeps(x, s[1..]);
      assert s == [s[0]] + s[1..];
    }
  }

  lemma {:induction false} PlaceOrdered(x: DeliveryRow, s: seq<DeliveryRow>)
    requires Ordered(s)
    ensures Ordered(Place(x, s))
  {
    if s != [] && Precedes(s[0], x) {
      PlaceOrdered(x, s[1..]);
      PlaceKeeps(x, s[1..]);
      var p := Place(x, s[1..]);
      forall j | 0 <= j < |p| ensures !Precedes(p[j], s[0]) { assert p[j] in p; }
    }
  }

  lemma {:induction false} NewestFirstSorts(u: seq<DeliveryRow>)
    ensures Ordered(NewestFirst(u)) && multiset(NewestFirst(u)) == multiset(u) && |NewestFirst(u)| == |u|
  {
    if u != [] {
      NewestFirstSorts(u[1..]);
      PlaceKeeps(u[0], NewestFirst(u[1..]));
      PlaceOrdered(u[0], NewestFirst(u[1..]));
      assert u == [u[0]] + u[1..];
    }
  }

  // -------------------------------------------------------------------- the list

  /** What ORDER BY may deliver: the rows of the union in an order that respects the two columns. Rows that share
      both may come in any order. */
  predicate Arranged(u: seq<DeliveryRow>, s: seq<DeliveryRow>) { Ordered(s) && multiset(s) == multiset(u) }

  lemma ArrangementExists(u: seq<DeliveryRow>)
    ensures Arranged(u, NewestFirst(u))
  {
    NewestFirstSorts(u);
  }

  lemma ArrangementSize(u: seq<DeliveryRow>, s: seq<DeliveryRow>)
    requires Arranged(u, s)
    ensures |s| == |u|
  {
    assert |multiset(s)| == |multiset(u)|;
  }

  /** LIMIT on an arrangement, and the truncation flag. */
  function Recent(s: seq<DeliveryRow>): (seq<DeliveryRow>, bool) {
    var page := if |s| <= MAX_ROWS then s else s[..MAX_ROWS];
    (page, |page| >= MAX_ROWS)
  }

  /** Whichever arrangement the query delivers, the page is the newest min(200, n) rows: it is in order, and the rows
      left out are the rest of the union, none of them ordered before a row returned. The flag is false only on a
      complete list, and it is true at exactly 200 rows although nothing is missing then. */
  lemma {:induction false} RecentIsNewest(u: seq<DeliveryRow>, s: seq<DeliveryRow>)
    requires Arranged(u, s)
    ensures var (page, truncated) := Recent(s);
            && |page| == (if |u| <= 200 then |u| else 200)
            && (forall i, j :: 0 <= i < j < |page| ==> NotAfter(page[i], page[j]))
            && exists rest: seq<DeliveryRow> ::
                 && multiset(page) + multiset(rest) == multiset(u)
                 && (forall x, y | x in rest && y in page :: NotAfter(y, x))
                 && (!truncated ==> rest == [])
                 && (|u| == 200 ==> truncated && rest == [])
                 && (truncated <==> |u| >= 200)
  {
    ArrangementSize(u, s);
    var (page, truncated) := Recent(s);
    var rest := s[|page|..];
    assert s == page + rest;
    forall x, y | x in rest && y in page ensures NotAfter(y, x) {
      var i :| 0 <= i < |page| && page[i] == y;
      var j :| 0 <= j < |rest| && rest[j] == x;
      assert s[i] == y && s[|page| + j] == x;
    }
  }

  // ------------------------------------------------------------- when it is one list

  /** Both columns of the order agree. */
  predicate Tied(a: DeliveryRow, b: DeliveryRow) {
    a.row.createdAt == b.row.createdAt && a.row.deliveryId == b.row.deliveryId
  }

  /** No two different rows tie within the first n or across their end. */
  predicate NoTieReaches(s: seq<DeliveryRow>, n: nat) {
    forall i, j :: 0 <= i < j < |s| && i < n && Tied(s[i], s[j]) ==> s[i] == s[j]
  }

  function Swapped(s: seq<DeliveryRow>, i: nat, j: nat): seq<DeliveryRow>
    requires i < j < |s|
  {
    s[i := s[j]][j := s[i]]
  }

  lemma SwapKeepsOrder(s: seq<DeliveryRow>, i: nat, j: nat)
    requires Ordered(s) && i < j < |s| && Tied(s[i], s[j])
    ensures Ordered(Swapped(s, i, j))
  {
    var t := Swapped(s, i, j);
    forall k | 0 <= k < |s| ensures Tied(t[k], s[k]) { }
    forall k, l | 0 <= k < l < |t| ensures !Precedes(t[l], t[k]) {
      assert !Precedes(s[l], s[k]);
    }
  }

  /** Two tied rows may come either way round. */
  lemma {:induction false} TiedRowsSwap(u: seq<DeliveryRow>, s: seq<DeliveryRow>, i: nat, j: nat)
    requires Arranged(u, s) && i < j < |s| && Tied(s[i], s[j])
    ensures Arranged(u, Swapped(s, i, j))
  {
    SwapKeepsOrder(s, i, j);
  }

  lemma HeadsAgree(s: seq<DeliveryRow>, t: seq<DeliveryRow>)
    requires Ordered(s) && Ordered(t) && multiset(s) == multiset(t) && s != [] && t != [] && NoTieReaches(s, 1)
    ensures s[0] == t[0]
  {
    assert s[0] in multiset(s) && t[0] in multiset(t);
    assert s[0] in t && t[0] in s;
  }

  lemma TailMultiset(s: seq<DeliveryRow>)
    requires s != []
    ensures multiset(s[1..]) == multiset(s) - multiset{s[0]}
  {
    assert s == [s[0]] + s[1..];
  }

  lemma {:induction false} SamePrefix(s: seq<DeliveryRow>, t: seq<DeliveryRow>, n: nat)
    requires Ordered(s) && Ordered(t) && multiset(s) == multiset(t) && |s| == |t| && n <= |s| && NoTieReaches(s, n)
    ensures s[..n] == t[..n]
  {
    if n > 0 {
      HeadsAgree(s, t);
      TailMultiset(s);
      TailMultiset(t);
      SamePrefix(s[1..], t[1..], n - 1);
      assert s[..n] == [s[0]] + s[1..][..n - 1] && t[..n] == [t[0]] + t[1..][..n - 1];
    }
  }

  /** The query can deliver only one list if and only if no two different rows tie on the page or across its end. */
  lemma {:induction false} OneListIff(u: seq<DeliveryRow>, s: seq<DeliveryRow>)
    requires Arranged(u, s)
    ensures (forall t | Arranged(u, t) :: Recent(t) == Recent(s)) <==> NoTieReaches(s, MAX_ROWS)
  {
    ArrangementSize(u, s);
    var n := if |s| <= MAX_ROWS then |s| else MAX_ROWS;
    if NoTieReaches(s, MAX_ROWS) {
      forall t | Arranged(u, t) ensures Recent(t) == Recent(s) {
        ArrangementSize(u, t);
        SamePrefix(s, t, n);
        assert s[..|s|] == s && t[..|t|] == t;
      }
    } else {
      var i, j :| 0 <= i < j < |s| && i < MAX_ROWS && Tied(s[i], s[j]) && s[i] != s[j];
      TiedRowsSwap(u, s, i, j);
      assert Recent(Swapped(s, i, j)).0[i] == s[j] && Recent(s).0[i] == s[i];
    }
  }

  /** The primary key of each ledger: rows of one table with one id are one row. */
  predicate KeyedPerTable(u: seq<DeliveryRow>) {
    forall x, y | x in u && y in u && x.scope == y.scope && x.row.deliveryId == y.row.deliveryId :: x == y
  }

  /** No constraint says this one: no platform row and tenant row were created at the same time under one id. */
  predicate NothingShared(u: seq<DeliveryRow>) {
    forall x, y | x in u && y in u && x.row.deliveryId == y.row.deliveryId && x.row.createdAt == y.row.createdAt ::
      x.scope == y.scope
  }

  /** Given the primary keys, ids that the ledgers do not share make it one list. */
  lemma {:induction false} UnsharedIdsGiveOneList(u: seq<DeliveryRow>, s: seq<DeliveryRow>, t: seq<DeliveryRow>)
    requires Arranged(u, s) && Arranged(u, t) && KeyedPerTable(u) && NothingShared(u)
    ensures Recent(t) == Recent(s)
  {
    forall x | x in s ensures x in u { assert x in multiset(s) && x in multiset(u); }
    assert NoTieReaches(s, MAX_ROWS);
    OneListIff(u, s);
  }

  // -------------------------------------------------------------------- the counts

  function CountState(u: seq<DeliveryRow>, state: string): nat {
    if u == [] then 0
    else CountState(u[..|u| - 1], state) + if u[|u| - 1].row.state == state then 1 else 0
  }

  predicate NotOnboarded(r: DeliveryRow) {
    r.row.state == "suppressed" && r.row.reason == Some("channel_not_onboarded")
  }

  function CountNotOnboarded(u: seq<DeliveryRow>): nat {
    if u == [] then 0 else CountNotOnboarded(u[..|u| - 1]) + if NotOnboarded(u[|u| - 1]) then 1 else 0
  }

  function Counts(u: seq<DeliveryRow>): DeliveryCounts {
    DeliveryCounts(|u|, CountState(u, "accepted"), CountState(u, "failed"), CountState(u, "suppressed"),
                   CountNotOnboarded(u))
  }

  /** Where the rows in this state are. */
  function Positions(u: seq<DeliveryRow>, state: string): set<nat> {
    set i: nat | i < |u| && u[i].row.state == state
  }

  function NotOnboardedPositions(u: seq<DeliveryRow>): set<nat> {
    set i: nat | i < |u| && u[i].row.state == "suppressed" && u[i].row.reason == Some("channel_not_onboarded")
  }

  lemma {:induction false} CountsPositions(u: seq<DeliveryRow>, state: string)
    ensures CountState(u, state) == |Positions(u, state)|
  {
    if u != [] {
      var init, n := u[..|u| - 1], |u| - 1;
      CountsPositions(init, state);
      assert Positions(u, state) == Positions(init, state) + if u[n].row.state == state then {n} else {};
    }
  }

  lemma {:induction false} CountsNotOnboarded(u: seq<DeliveryRow>)
    ensures CountNotOnboarded(u) == |NotOnboardedPositions(u)|
  {
    if u != [] {
      var init, n := u[..|u| - 1], |u| - 1;
      CountsNotOnboarded(init);
      assert NotOnboardedPositions(u) == NotOnboardedPositions(init) + if NotOnboarded(u[n]) then {n} else {};
    }
  }

  /** Every count is the number of rows it is named after. */
  lemma {:induction false} CountsAreCounts(u: seq<DeliveryRow>)
    ensures var c := Counts(u);
            && c.total == |u|
            && c.accepted == |Positions(u, "accepted")|
            && c.failed == |Positions(u, "failed")|
            && c.suppressed == |Positions(u, "suppressed")|
            && c.suppressedNotOnboarded == |NotOnboardedPositions(u)|
  {
    CountsPositions(u, "accepted");
    CountsPositions(u, "failed");
    CountsPositions(u, "suppressed");
    CountsNotOnboarded(u);
  }

  /** The parts add up to the total exactly when every state is in the vocabulary. */
  lemma {:induction false} TotalIsTheSumOfItsParts(u: seq<DeliveryRow>)
    ensures var c := Counts(u);
            && c.accepted + c.failed + c.suppressed <= c.total
            && (c.total == c.accepted + c.failed + c.suppressed <==> forall r | r in u :: Vocabulary(r.row))
            && c.suppressedNotOnboarded <= c.suppressed
  {
    if u != [] {
      TotalIsTheSumOfItsParts(u[..|u| - 1]);
      assert u == u[..|u| - 1] + [u[|u| - 1]];
    }
  }

  /** The list and the counts speak of the same rows: a list without the flag has as many rows as the total, and
      a flagged one has 200 of at least as many. */
  lemma {:induction false} ListAgreesWithCounts(u: seq<DeliveryRow>, s: seq<DeliveryRow>)
    requires Arranged(u, s)
    ensures !Recent(s).1 ==> |Recent(s).0| == Counts(u).total
    ensures Recent(s).1 ==> |Recent(s).0| == 200 <= Counts(u).total
  {
    ArrangementSize(u, s);
  }

  /** Both reads over both ledgers under the reader's session: every row of either table is counted. */
  lemma {:induction false} CountsCoverBothLedgers(platform: seq<Stored>, tenant: seq<TenantStored>, s: Session)
    requires s.userType == PLATFORM && !s.tenant.Garbage?
    ensures Counts(Union(platform, tenant, s)).total == |platform| + |tenant|
  {
    UnionRowByRow(platform, tenant, s);
  }
}
