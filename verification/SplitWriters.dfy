/** Writers beside the split (migration 3e05299cb533). Every statement of the copy block takes its own snapshot, so
    each may read a later version of the table: what the locks let other sessions commit in between, and which of
    their changes are copied, stop the migration, or are lost with the old table. */
module SplitWriters {
  import opened Texts
  import opened Rls
  import opened Sets
  import opened SplitModel
  import opened SplitMigration

  type Rows = map<Id, OldRow>

  // ------------------------------------------------------------ concurrent changes

  /** One row of `user_role_assignments` inserted, updated or (None) deleted by another session. */
  datatype Change = Change(session: Session, id: Id, after: Option<OldRow>)

  /** The foreign key to `tenant_users` is checked for a new or changed `tenant_user_id`. The migration's first
      statement, ALTER TABLE tenant_users, locks that table against the check until its transaction ends. */
  predicate ChecksTenantUser(rows: Rows, c: Change) {
    && c.after.Some? && c.after.value.tenantUser.Some?
    && !(c.id in rows && rows[c.id].tenantUser == c.after.value.tenantUser)
  }

  /** The change can commit while the migration runs: policy, constraints and locks let it. */
  predicate Commits(refs: Refs, rows: Rows, c: Change) {
    && (c.id in rows ==> Admits(GatedForm(rows[c.id].tenant, c.session)))
    && match c.after
       case None => c.id in rows
       case Some(r) =>
         && Admits(GatedForm(r.tenant, c.session)) && OldRowOk(refs, r)
         && (forall k | k in rows && k != c.id :: !OldClash(rows[k], r) && !OldClash(r, rows[k]))
         && !ChecksTenantUser(rows, c)
  }

  function Changed(rows: Rows, c: Change): Rows {
    match c.after
    case None => rows - {c.id}
    case Some(r) => rows[c.id := r]
  }

  function AfterAll(refs: Refs, rows: Rows, cs: seq<Change>): Rows {
    if cs == [] then rows
    else
      var before := AfterAll(refs, rows, cs[..|cs| - 1]);
      if Commits(refs, before, cs[|cs| - 1]) then Changed(before, cs[|cs| - 1]) else before
  }

  /** `w` is a later version of `v`. */
  ghost predicate Follows(refs: Refs, v: Rows, w: Rows) { exists cs :: w == AfterAll(refs, v, cs) }

  /** The tenant side can lose rows but gains none, and no row changes its user or tenant. */
  predicate OnlyLeaves(v: Rows, w: Rows) {
    forall id | id in w && w[id].tenantUser.Some? ::
      id in v && v[id].tenantUser == w[id].tenantUser && v[id].tenant == w[id].tenant
  }

  /** The session may read and write the row: PLATFORM an unowned one, any session one of the tenant it is pinned to. */
  predicate May(s: Session, r: OldRow) {
    && !s.tenant.Garbage?
    && if r.tenant.None? then s.userType == PLATFORM else s.tenant == TenantText(r.tenant.value)
  }

  /** A change commits if and only if its session may see the row before and after it, the table is valid with it, and
      it does not name a new tenant user. */
  lemma {:induction false} CommitsIff(refs: Refs, rows: Rows, c: Change)
    requires OldConstraints(refs, rows)
    ensures Commits(refs, rows, c) <==>
              && (c.id in rows ==> May(c.session, rows[c.id]))
              && match c.after
                 case None => c.id in rows
                 case Some(r) =>
                   && May(c.session, r) && OldConstraints(refs, rows[c.id := r])
                   && (r.tenantUser.Some? ==> c.id in rows && rows[c.id].tenantUser == r.tenantUser)
  {
    forall r: OldRow ensures Admits(GatedForm(r.tenant, c.session)) <==> May(c.session, r) { }
    if c.after.Some? { ValidWith(refs, rows, c.id, c.after.value); }
  }

  lemma ValidWith(refs: Refs, rows: Rows, id: Id, r: OldRow)
    requires OldConstraints(refs, rows)
    ensures OldConstraints(refs, rows[id := r]) <==>
              && OldRowOk(refs, r)
              && forall k | k in rows && k != id :: !OldClash(rows[k], r) && !OldClash(r, rows[k])
  {
    var after := rows[id := r];
    assert id in after && after[id] == r;
    if OldConstraints(refs, after) {
      forall k | k in rows && k != id ensures !OldClash(rows[k], r) && !OldClash(r, rows[k]) {
        assert k in after && after[k] == rows[k];
      }
    }
  }

  /** It changes its own row and no other. */
  lemma {:induction false} ChangeIsOneRow(rows: Rows, c: Change, id: Id)
    ensures (if id in Changed(rows, c) then Some(Changed(rows, c)[id]) else None) ==
              if id == c.id then c.after else if id in rows then Some(rows[id]) else None
  {
  }

  lemma ChangedKeeps(refs: Refs, rows: Rows, c: Change)
    requires OldConstraints(refs, rows) && Commits(refs, rows, c)
    ensures OldConstraints(refs, Changed(rows, c))
  {
  }

  /** A tenant-side row that is there after a change was there before, in the same tenant: the session that updates
      it has to pass the policy on both sides. */
  lemma ChangedOnlyLeaves(refs: Refs, rows: Rows, c: Change)
    requires OldConstraints(refs, rows) && Commits(refs, rows, c)
    ensures OnlyLeaves(rows, Changed(rows, c))
  {
    if c.after.Some? && c.after.value.tenantUser.Some? {
      assert OldRowOk(refs, rows[c.id]) && OldRowOk(refs, c.after.value);
    }
  }

  lemma {:induction false} AfterAllKeeps(refs: Refs, rows: Rows, cs: seq<Change>)
    requires OldConstraints(refs, rows)
    ensures OldConstraints(refs, AfterAll(refs, rows, cs)) && OnlyLeaves(rows, AfterAll(refs, rows, cs))
  {
    if cs != [] {
      var before := AfterAll(refs, rows, cs[..|cs| - 1]);
      AfterAllKeeps(refs, rows, cs[..|cs| - 1]);
      if Commits(refs, before, cs[|cs| - 1]) {
        ChangedKeeps(refs, before, cs[|cs| - 1]);
        ChangedOnlyLeaves(refs, before, cs[|cs| - 1]);
      }
    }
  }

  lemma FollowsKeeps(refs: Refs, v: Rows, w: Rows)
    requires OldConstraints(refs, v) && Follows(refs, v, w)
    ensures OldConstraints(refs, w) && OnlyLeaves(v, w)
  {
    var cs :| w == AfterAll(refs, v, cs);
    AfterAllKeeps(refs, v, cs);
  }

  // ------------------------------------------------------------------ one migration

  /** A tenant's turn: the versions that its count and its copy read. */
  datatype Turn = Turn(tenant: Id, atCount: Rows, atCopy: Rows)

  datatype Timeline = Timeline(platformCount: Rows, platformCopy: Rows, turns: seq<Turn>, atDrop: Rows)

  /** The version that the statement before turn k read. */
  function PriorTo(tl: Timeline, k: nat): Rows
    requires k <= |tl.turns|
  {
    if k == 0 then tl.platformCopy else tl.turns[k - 1].atCopy
  }

  /** No tenant has two turns. */
  predicate TurnsDistinct(tl: Timeline) {
    forall j, k :: 0 <= j < k < |tl.turns| ==> tl.turns[j].tenant != tl.turns[k].tenant
  }

  /** Every tenant has one; `tenants` itself cannot change, the new foreign keys having locked it. */
  predicate EveryTenantHasATurn(refs: Refs, tl: Timeline) {
    forall t | t in refs.tenants :: exists k :: 0 <= k < |tl.turns| && tl.turns[k].tenant == t
  }

  /** The versions follow one another from a valid table on. */
  ghost predicate Happens(refs: Refs, start: Rows, tl: Timeline) {
    && OldConstraints(refs, start) && TurnsDistinct(tl) && EveryTenantHasATurn(refs, tl)
    && Follows(refs, start, tl.platformCount) && Follows(refs, tl.platformCount, tl.platformCopy)
    && (forall k :: 0 <= k < |tl.turns| ==>
         Follows(refs, PriorTo(tl, k), tl.turns[k].atCount) && Follows(refs, tl.turns[k].atCount, tl.turns[k].atCopy))
    && Follows(refs, PriorTo(tl, |tl.turns|), tl.atDrop)
  }

  /** What that means for the versions themselves. */
  predicate Sound(refs: Refs, tl: Timeline) {
    && TurnsDistinct(tl)
    && OldConstraints(refs, tl.platformCount) && OldConstraints(refs, tl.platformCopy) && OldConstraints(refs, tl.atDrop)
    && (forall k :: 0 <= k < |tl.turns| ==> SoundTurn(refs, tl, k))
    && OnlyLeaves(PriorTo(tl, |tl.turns|), tl.atDrop)
  }

  predicate SoundTurn(refs: Refs, tl: Timeline, k: nat)
    requires k < |tl.turns|
  {
    && OldConstraints(refs, tl.turns[k].atCount) && OldConstraints(refs, tl.turns[k].atCopy)
    && OnlyLeaves(PriorTo(tl, k), tl.turns[k].atCount) && OnlyLeaves(tl.turns[k].atCount, tl.turns[k].atCopy)
  }

  lemma {:induction false} BeforeIsValid(refs: Refs, start: Rows, tl: Timeline, k: nat)
    requires Happens(refs, start, tl) && k <= |tl.turns|
    ensures OldConstraints(refs, PriorTo(tl, k))
  {
    if k == 0 {
      FollowsKeeps(refs, start, tl.platformCount);
      FollowsKeeps(refs, tl.platformCount, tl.platformCopy);
    } else {
      BeforeIsValid(refs, start, tl, k - 1);
      TurnKeeps(refs, PriorTo(tl, k - 1), tl.turns[k - 1]);
    }
  }

  lemma TurnKeeps(refs: Refs, v: Rows, t: Turn)
    requires OldConstraints(refs, v) && Follows(refs, v, t.atCount) && Follows(refs, t.atCount, t.atCopy)
    ensures OldConstraints(refs, t.atCount) && OldConstraints(refs, t.atCopy)
    ensures OnlyLeaves(v, t.atCount) && OnlyLeaves(t.atCount, t.atCopy)
  {
    FollowsKeeps(refs, v, t.atCount);
    FollowsKeeps(refs, t.atCount, t.atCopy);
  }

  lemma HappensIsSound(refs: Refs, start: Rows, tl: Timeline)
    requires Happens(refs, start, tl)
    ensures Sound(refs, tl)
  {
    FollowsKeeps(refs, start, tl.platformCount);
    BeforeIsValid(refs, start, tl, 0);
    forall k | 0 <= k < |tl.turns| ensures SoundTurn(refs, tl, k) {
      BeforeIsValid(refs, start, tl, k);
      TurnKeeps(refs, PriorTo(tl, k), tl.turns[k]);
    }
    BeforeIsValid(refs, start, tl, |tl.turns|);
    FollowsKeeps(refs, PriorTo(tl, |tl.turns|), tl.atDrop);
  }

  lemma LeavesThrough(u: Rows, v: Rows, w: Rows)
    requires OnlyLeaves(u, v) && OnlyLeaves(v, w)
    ensures OnlyLeaves(u, w)
  {
  }

  /** From any earlier copy to any later one the tenant side only loses rows. */
  lemma {:induction false} LeavesBetween(refs: Refs, tl: Timeline, j: nat, k: nat)
    requires Sound(refs, tl) && j <= k <= |tl.turns|
    ensures OnlyLeaves(PriorTo(tl, j), PriorTo(tl, k))
  {
    if j < k {
      LeavesBetween(refs, tl, j, k - 1);
      assert SoundTurn(refs, tl, k - 1);
      LeavesThrough(PriorTo(tl, k - 1), tl.turns[k - 1].atCount, tl.turns[k - 1].atCopy);
      LeavesThrough(PriorTo(tl, j), PriorTo(tl, k - 1), PriorTo(tl, k));
    }
  }

  // -------------------------------------------------------------------- the new tables

  /** The rows that turn k copies. */
  function Part(tl: Timeline, k: nat): map<Id, TenantRow>
    requires k < |tl.turns|
  {
    TenantPartOf(tl.turns[k].atCopy, {tl.turns[k].tenant})
  }

  /** The rows that turn k counts. */
  function Counted(tl: Timeline, k: nat): set<Id>
    requires k < |tl.turns|
  {
    TenantPartOf(tl.turns[k].atCount, {tl.turns[k].tenant}).Keys
  }

  function Parts(tl: Timeline): nat -> map<Id, TenantRow> {
    (k: nat) => if k < |tl.turns| then Part(tl, k) else map[]
  }

  /** The tenant table after n turns. */
  function NewTenant(tl: Timeline, n: nat): map<Id, TenantRow>
    requires n <= |tl.turns|
  {
    UnionTo(Parts(tl), n)
  }

  /** How many rows each turn counts. */
  function CountAt(tl: Timeline): nat -> nat {
    (k: nat) => if k < |tl.turns| then |Counted(tl, k)| else 0
  }

  /** How many it copies. */
  function CopyAt(tl: Timeline): nat -> nat {
    (k: nat) => if k < |tl.turns| then |Part(tl, k)| else 0
  }

  function CountSum(tl: Timeline, n: nat): nat
    requires n <= |tl.turns|
  {
    SumTo(CountAt(tl), n)
  }

  /** No row is copied in two turns: a row of a later turn was in the same tenant at the earlier one. */
  lemma PartsApart(refs: Refs, tl: Timeline, j: nat, k: nat, id: Id)
    requires Sound(refs, tl) && j < k < |tl.turns| && id in Part(tl, k)
    ensures id !in Part(tl, j)
  {
    LeavesBetween(refs, tl, j + 1, k + 1);
  }

  lemma AllApart(refs: Refs, tl: Timeline)
    requires Sound(refs, tl)
    ensures ApartTo(Parts(tl), |tl.turns|)
  {
    forall j, k | 0 <= j < k < |tl.turns| ensures Parts(tl)(j).Keys !! Parts(tl)(k).Keys {
      forall id | id in Part(tl, k) ensures id !in Part(tl, j) { PartsApart(refs, tl, j, k, id); }
    }
  }

  lemma NewTenantFrom(tl: Timeline, n: nat, id: Id) returns (k: nat)
    requires n <= |tl.turns| && id in NewTenant(tl, n)
    ensures k < n && id in Part(tl, k) && NewTenant(tl, n)[id] == Part(tl, k)[id]
  {
    k := UnionToFrom(Parts(tl), n, id);
  }

  lemma NewTenantHas(refs: Refs, tl: Timeline, k: nat, id: Id)
    requires Sound(refs, tl) && k < |tl.turns| && id in Part(tl, k)
    ensures id in NewTenant(tl, |tl.turns|) && NewTenant(tl, |tl.turns|)[id] == Part(tl, k)[id]
  {
    AllApart(refs, tl);
    UnionToHas(Parts(tl), |tl.turns|, k, id);
  }

  /** No id is in both new tables: a row of the tenant side was on the tenant side when the platform was copied. */
  lemma NewTablesApart(refs: Refs, tl: Timeline)
    requires Sound(refs, tl)
    ensures PlatformPart(tl.platformCopy).Keys !! NewTenant(tl, |tl.turns|).Keys
  {
    forall id | id in NewTenant(tl, |tl.turns|) ensures id !in PlatformPart(tl.platformCopy) {
      var k := NewTenantFrom(tl, |tl.turns|, id);
      LeavesBetween(refs, tl, 0, k + 1);
      if id in tl.platformCopy { assert OldRowOk(refs, tl.platformCopy[id]); }
    }
  }

  // ----------------------------------------------------------------- the count check

  predicate CountsMatch(tl: Timeline) {
    && |PlatformPart(tl.platformCount)| == |PlatformPart(tl.platformCopy)|
    && CountSum(tl, |tl.turns|) == |NewTenant(tl, |tl.turns|)|
  }

  /** Between a tenant's count and its copy rows can only leave. */
  lemma CopyWithinCount(refs: Refs, tl: Timeline, k: nat)
    requires Sound(refs, tl) && k < |tl.turns|
    ensures Part(tl, k).Keys <= Counted(tl, k)
  {
    assert SoundTurn(refs, tl, k);
    forall id | id in Part(tl, k) ensures id in Counted(tl, k) {
      assert OldRowOk(refs, tl.turns[k].atCount[id]);
    }
  }

  /** Turn k copies the very rows it counted. */
  predicate Steady(tl: Timeline, k: nat)
    requires k < |tl.turns|
  {
    Part(tl, k).Keys == Counted(tl, k)
  }

  lemma SteadyIff(refs: Refs, tl: Timeline, k: nat)
    requires Sound(refs, tl) && k < |tl.turns|
    ensures |Part(tl, k)| <= |Counted(tl, k)|
    ensures |Part(tl, k)| == |Counted(tl, k)| <==> Steady(tl, k)
  {
    CopyWithinCount(refs, tl, k);
    SubsetSize(Part(tl, k).Keys, Counted(tl, k));
    SubsetSizeIff(Part(tl, k).Keys, Counted(tl, k));
  }

  lemma TermsCompared(refs: Refs, tl: Timeline, k: nat)
    requires Sound(refs, tl) && k < |tl.turns|
    ensures CopyAt(tl)(k) <= CountAt(tl)(k)
    ensures CopyAt(tl)(k) == CountAt(tl)(k) <==> Steady(tl, k)
  {
    SteadyIff(refs, tl, k);
  }

  lemma CountSumIff(refs: Refs, tl: Timeline)
    requires Sound(refs, tl)
    ensures CountSum(tl, |tl.turns|) == |NewTenant(tl, |tl.turns|)| <==> forall k :: 0 <= k < |tl.turns| ==> Steady(tl, k)
  {
    AllApart(refs, tl);
    UnionToSize(Parts(tl), CopyAt(tl), |tl.turns|);
    var copied, counted := CopyAt(tl), CountAt(tl);
    forall k: nat | k < |tl.turns| ensures copied(k) <= counted(k) && (copied(k) == counted(k) <==> Steady(tl, k)) {
      TermsCompared(refs, tl, k);
    }
    SumsCompared(copied, counted, |tl.turns|);
  }

  /** The check passes if and only if the platform side has as many rows at its copy as at its count, and no tenant
      lost a row between its count and its copy. Arrivals and departures on the platform side cancel out. */
  lemma {:induction false} CountsMatchIff(refs: Refs, start: Rows, tl: Timeline)
    requires Happens(refs, start, tl)
    ensures CountsMatch(tl) <==>
              && |PlatformPart(tl.platformCount)| == |PlatformPart(tl.platformCopy)|
              && forall k :: 0 <= k < |tl.turns| ==> Steady(tl, k)
  {
    HappensIsSound(refs, start, tl);
    CountSumIff(refs, tl);
  }

  // --------------------------------------------------------------------- what is lost

  /** The new tables are the old one as it is when it is dropped. */
  predicate NothingLost(tl: Timeline) {
    Merged(PlatformPart(tl.platformCopy), NewTenant(tl, |tl.turns|)) == tl.atDrop
  }

  /** Turn k's rows in the dropped table. */
  function Final(tl: Timeline, k: nat): map<Id, TenantRow>
    requires k < |tl.turns|
  {
    TenantPartOf(tl.atDrop, {tl.turns[k].tenant})
  }

  lemma TenantPartSplits(refs: Refs, tl: Timeline)
    requires Sound(refs, tl) && EveryTenantHasATurn(refs, tl)
    ensures NewTenant(tl, |tl.turns|) == TenantPart(tl.atDrop) <==>
              forall k :: 0 <= k < |tl.turns| ==> Part(tl, k) == Final(tl, k)
  {
    if NewTenant(tl, |tl.turns|) == TenantPart(tl.atDrop) {
      forall k | 0 <= k < |tl.turns| ensures Part(tl, k) == Final(tl, k) { PartIsFinal(refs, tl, k); }
    }
    if forall k :: 0 <= k < |tl.turns| ==> Part(tl, k) == Final(tl, k) { FinalsMakeTheTable(refs, tl); }
  }

  lemma PartIsFinal(refs: Refs, tl: Timeline, k: nat)
    requires Sound(refs, tl) && k < |tl.turns| && NewTenant(tl, |tl.turns|) == TenantPart(tl.atDrop)
    ensures Part(tl, k) == Final(tl, k)
  {
    forall id | id in Part(tl, k) ensures id in Final(tl, k) && Final(tl, k)[id] == Part(tl, k)[id] {
      CopiedIsFinal(refs, tl, k, id);
    }
    forall id | id in Final(tl, k) ensures id in Part(tl, k) { FinalIsCopied(refs, tl, k, id); }
  }

  lemma CopiedIsFinal(refs: Refs, tl: Timeline, k: nat, id: Id)
    requires Sound(refs, tl) && k < |tl.turns| && NewTenant(tl, |tl.turns|) == TenantPart(tl.atDrop) && id in Part(tl, k)
    ensures id in Final(tl, k) && Final(tl, k)[id] == Part(tl, k)[id]
  {
    NewTenantHas(refs, tl, k, id);
    OfOneTenant(tl, k, id, Part(tl, k)[id]);
  }

  lemma FinalIsCopied(refs: Refs, tl: Timeline, k: nat, id: Id)
    requires Sound(refs, tl) && k < |tl.turns| && NewTenant(tl, |tl.turns|) == TenantPart(tl.atDrop) && id in Final(tl, k)
    ensures id in Part(tl, k)
  {
    FinalIsOfTheTable(tl, k, id);
    var j := NewTenantFrom(tl, |tl.turns|, id);
    SameTurn(tl, j, k, id);
  }

  lemma FinalIsOfTheTable(tl: Timeline, k: nat, id: Id)
    requires k < |tl.turns| && id in Final(tl, k)
    ensures id in TenantPart(tl.atDrop) && TenantPart(tl.atDrop)[id] == Final(tl, k)[id]
  {
  }

  /** A row of the dropped table is in the share of its tenant's turn. */
  lemma OfOneTenant(tl: Timeline, k: nat, id: Id, row: TenantRow)
    requires k < |tl.turns| && id in TenantPart(tl.atDrop) && TenantPart(tl.atDrop)[id] == row
    requires row.tenant == tl.turns[k].tenant
    ensures id in Final(tl, k) && Final(tl, k)[id] == row
  {
  }

  lemma SameTurn(tl: Timeline, j: nat, k: nat, id: Id)
    requires TurnsDistinct(tl) && j < |tl.turns| && k < |tl.turns| && id in Part(tl, j) && id in Final(tl, k)
    requires Part(tl, j)[id].tenant == Final(tl, k)[id].tenant
    ensures j == k
  {
  }

  lemma FinalsMakeTheTable(refs: Refs, tl: Timeline)
    requires Sound(refs, tl) && EveryTenantHasATurn(refs, tl)
    requires forall k :: 0 <= k < |tl.turns| ==> Part(tl, k) == Final(tl, k)
    ensures NewTenant(tl, |tl.turns|) == TenantPart(tl.atDrop)
  {
    var n, f := NewTenant(tl, |tl.turns|), TenantPart(tl.atDrop);
    forall id | id in n ensures id in f && n[id] == f[id] {
      var k := NewTenantFrom(tl, |tl.turns|, id);
      FinalIsOfTheTable(tl, k, id);
    }
    forall id | id in f ensures id in n { AllOfTheTable(refs, tl, id); }
    SameMap(n, f);
  }

  lemma AllOfTheTable(refs: Refs, tl: Timeline, id: Id)
    requires Sound(refs, tl) && EveryTenantHasATurn(refs, tl) && id in TenantPart(tl.atDrop)
    requires forall k :: 0 <= k < |tl.turns| ==> Part(tl, k) == Final(tl, k)
    ensures id in NewTenant(tl, |tl.turns|)
  {
    var k := TurnOf(refs, tl, id);
    NewTenantHas(refs, tl, k, id);
  }

  lemma TurnOf(refs: Refs, tl: Timeline, id: Id) returns (k: nat)
    requires OldConstraints(refs, tl.atDrop) && EveryTenantHasATurn(refs, tl) && id in TenantPart(tl.atDrop)
    ensures k < |tl.turns| && id in Final(tl, k)
  {
    assert OldRowOk(refs, tl.atDrop[id]);
    k :| 0 <= k < |tl.turns| && tl.turns[k].tenant == tl.atDrop[id].tenant.value;
  }

  /** Nothing is lost if and only if no row changed after the statement that copies it: the platform side is at the
      drop what its copy read, and so is every tenant's. */
  lemma {:induction false} NothingLostIff(refs: Refs, start: Rows, tl: Timeline)
    requires Happens(refs, start, tl)
    ensures NothingLost(tl) <==>
              && PlatformPart(tl.platformCopy) == PlatformPart(tl.atDrop)
              && forall k :: 0 <= k < |tl.turns| ==> Part(tl, k) == Final(tl, k)
  {
    HappensIsSound(refs, start, tl);
    NewTablesApart(refs, tl);
    TenantPartSplits(refs, tl);
    MergeThenSplit(PlatformPart(tl.platformCopy), NewTenant(tl, |tl.turns|));
    SplitThenMerge(refs, tl.atDrop);
  }

  // ------------------------------------------------------------- the copy block as it runs

  predicate AllGood(refs: Refs, tl: Timeline, n: nat)
    requires n <= |tl.turns|
  {
    n > 0 ==> AllGood(refs, tl, n - 1) && TenantSideGood(refs, tl.turns[n - 1].atCopy, {tl.turns[n - 1].tenant})
  }

  lemma {:induction false} AllGoodMeans(refs: Refs, tl: Timeline, n: nat)
    requires n <= |tl.turns|
    ensures AllGood(refs, tl, n) <==>
              forall k :: 0 <= k < n ==> TenantSideGood(refs, tl.turns[k].atCopy, {tl.turns[k].tenant})
  {
    if n > 0 { AllGoodMeans(refs, tl, n - 1); }
  }

  /** What a pass reads of its own tenant is that tenant's share of the version it reads. */
  lemma PassReads(refs: Refs, rows: Rows, t: Id)
    requires OldConstraints(refs, rows)
    ensures |Selection(TenantPass(t), rows)| == |TenantPartOf(rows, {t})|
    ensures TenantPartOf(Selection(TenantPass(t), rows), {t}) == TenantPartOf(rows, {t})
  {
    SelectionIsTenantPart(refs, rows, t);
    assert |Selection(TenantPass(t), rows).Keys| == |TenantPartOf(rows, {t}).Keys|;
  }

  lemma CountSumWithin(tl: Timeline, n: nat, m: nat)
    requires n <= m <= |tl.turns|
    ensures CountSum(tl, n) <= CountSum(tl, m)
  {
    SumToGrows(CountAt(tl), n, m);
  }

  /** The counts match and the total fits the closing notice. */
  predicate Balances(tl: Timeline) {
    CountsMatch(tl) && Fits(|PlatformPart(tl.platformCopy)| + |NewTenant(tl, |tl.turns|)|)
  }

  /** A counter that overflows belongs to a total that does, or to a mismatch. */
  lemma TooManyToBalance(tl: Timeline)
    requires !Fits(|PlatformPart(tl.platformCount)|) || !Fits(CountSum(tl, |tl.turns|))
    ensures !Balances(tl)
  {
    NatsTooBig(|PlatformPart(tl.platformCount)|, |PlatformPart(tl.platformCopy)|,
               CountSum(tl, |tl.turns|), |NewTenant(tl, |tl.turns|)|);
  }

  lemma NatsTooBig(a: nat, b: nat, c: nat, d: nat)
    requires !Fits(a) || !Fits(c)
    ensures !(a == b && c == d && Fits(b + d))
  {
  }

  /** The copy block when each statement reads the version of its own moment. It completes exactly when the rows it
      copies are good, the counts match and the total fits. */
  method CopyBesideWriters(refs: Refs, tl: Timeline)
    returns (r: Outcome, platform: map<Id, PlatformRow>, tenant: map<Id, TenantRow>)
    requires Sound(refs, tl)
    ensures r.Done? <==>
              PlatformSideGood(refs, tl.platformCopy) && AllGood(refs, tl, |tl.turns|) && Balances(tl)
    ensures r.Done? ==> platform == PlatformPart(tl.platformCopy) && tenant == NewTenant(tl, |tl.turns|)
    ensures r == Failed(CountMismatch) ==> !CountsMatch(tl)
  {
    PlatformReads(refs, tl.platformCount);
    PlatformReads(refs, tl.platformCopy);
    platform, tenant := map[], map[];
    var platformOld := |Selection(PlatformPass, tl.platformCount)|;
    if !Fits(platformOld) {
      TooManyToBalance(tl);
      return Failed(OutOfRange), platform, tenant;
    }
    if !PlatformSideGood(refs, tl.platformCopy) { return Failed(AudienceMismatch), platform, tenant; }
    platform := PlatformPart(Selection(PlatformPass, tl.platformCopy));
    var tenantOld;
    r, tenantOld, tenant := CopyTurns(refs, tl);
    if r.Failed? {
      if !Fits(CountSum(tl, |tl.turns|)) { TooManyToBalance(tl); }
      return;
    }
    r := Conclude(tl, platformOld, platform, tenantOld, tenant);
  }

  method Conclude(tl: Timeline, platformOld: nat, platform: map<Id, PlatformRow>, tenantOld: nat, tenant: map<Id, TenantRow>)
    returns (r: Outcome)
    requires platformOld == |PlatformPart(tl.platformCount)| && platform == PlatformPart(tl.platformCopy)
    requires tenantOld == CountSum(tl, |tl.turns|) && tenant == NewTenant(tl, |tl.turns|)
    ensures r.Done? <==> Balances(tl)
    ensures r == Failed(CountMismatch) ==> !CountsMatch(tl)
  {
    VerifyDecides(platformOld, |platform|, tenantOld, |tenant|);
    r := Verify(platformOld, |platform|, tenantOld, |tenant|);
  }

  lemma PlatformReads(refs: Refs, rows: Rows)
    requires OldConstraints(refs, rows)
    ensures |Selection(PlatformPass, rows)| == |PlatformPart(rows)|
    ensures PlatformPart(Selection(PlatformPass, rows)) == PlatformPart(rows)
  {
    PlatformSelection(refs, rows);
  }

  lemma VerifyDecides(platformOld: nat, platformNew: nat, tenantOld: nat, tenantNew: nat)
    ensures Verify(platformOld, platformNew, tenantOld, tenantNew).Done? <==>
              platformOld == platformNew && tenantOld == tenantNew && Fits(platformNew + tenantNew)
    ensures Verify(platformOld, platformNew, tenantOld, tenantNew) == Failed(CountMismatch) ==>
              platformOld != platformNew || tenantOld != tenantNew
  {
  }

  /** The loop over tenants. */
  method CopyTurns(refs: Refs, tl: Timeline) returns (r: Outcome, tenantOld: nat, tenant: map<Id, TenantRow>)
    requires Sound(refs, tl)
    ensures r.Done? <==> AllGood(refs, tl, |tl.turns|) && Fits(CountSum(tl, |tl.turns|))
    ensures r.Done? ==> tenantOld == CountSum(tl, |tl.turns|) && tenant == NewTenant(tl, |tl.turns|)
    ensures r.Failed? ==> r.why in {OutOfRange, AudienceMismatch, MissingReference}
  {
    tenantOld, tenant := 0, map[];
    for k := 0 to |tl.turns|
      invariant tenantOld == CountSum(tl, k) && Fits(tenantOld)
      invariant tenant == NewTenant(tl, k) && AllGood(refs, tl, k)
    {
      r, tenantOld, tenant := CopyTurn(refs, tl, k, tenantOld, tenant);
      if r.Failed? { return; }
    }
    r := Done;
  }

  /** The trigger looks at the role before the foreign key looks at the user. */
  function WhyMisfit(refs: Refs, rows: Rows, t: Id): Failure {
    if exists k | k in rows && rows[k].tenant == Some(t) :: !AudienceMatches(refs, rows[k])
    then AudienceMismatch else MissingReference
  }

  /** The old rows that turn k copies. */
  function Copied(tl: Timeline, k: nat): Rows
    requires k < |tl.turns|
  {
    var t := tl.turns[k];
    map id | id in t.atCopy && t.atCopy[id].tenant == Some(t.tenant) :: t.atCopy[id]
  }

  predicate AudiencesMatch(refs: Refs, rows: Rows) { forall id | id in rows :: AudienceMatches(refs, rows[id]) }

  predicate UsersBelong(refs: Refs, rows: Rows) { forall id | id in rows :: UserBelongs(refs, rows[id]) }

  lemma WhyItFails(refs: Refs, tl: Timeline, k: nat)
    requires k < |tl.turns| && !TenantSideGood(refs, tl.turns[k].atCopy, {tl.turns[k].tenant})
    ensures var why := WhyMisfit(refs, tl.turns[k].atCopy, tl.turns[k].tenant);
            && (why == AudienceMismatch ==> !AudiencesMatch(refs, Copied(tl, k)))
            && (why == MissingReference ==> AudiencesMatch(refs, Copied(tl, k)) && !UsersBelong(refs, Copied(tl, k)))
  {
    var t := tl.turns[k];
    var id :| id in Misfits(refs, t.atCopy, {t.tenant});
    assert id in Copied(tl, k) && Copied(tl, k)[id] == t.atCopy[id];
    if j :| j in t.atCopy && t.atCopy[j].tenant == Some(t.tenant) && !AudienceMatches(refs, t.atCopy[j]) {
      assert j in Copied(tl, k) && Copied(tl, k)[j] == t.atCopy[j];
    }
  }

  /** One turn: count, then copy. */
  method CopyTurn(refs: Refs, tl: Timeline, k: nat, counted: nat, copied: map<Id, TenantRow>)
    returns (r: Outcome, tenantOld: nat, tenant: map<Id, TenantRow>)
    requires Sound(refs, tl) && k < |tl.turns|
    requires counted == CountSum(tl, k) && copied == NewTenant(tl, k) && AllGood(refs, tl, k)
    ensures r.Done? ==>
              && tenantOld == CountSum(tl, k + 1) && Fits(tenantOld)
              && tenant == NewTenant(tl, k + 1) && AllGood(refs, tl, k + 1)
    ensures r.Failed? ==> !(AllGood(refs, tl, |tl.turns|) && Fits(CountSum(tl, |tl.turns|)))
    ensures r.Failed? ==> r.why in {OutOfRange, AudienceMismatch, MissingReference}
    ensures r == Failed(AudienceMismatch) ==> !AudiencesMatch(refs, Copied(tl, k))
    ensures r == Failed(MissingReference) ==> AudiencesMatch(refs, Copied(tl, k)) && !UsersBelong(refs, Copied(tl, k))
  {
    var turn := tl.turns[k];
    TurnReads(refs, tl, k);
    TurnAdds(refs, tl, k);
    CountSumWithin(tl, k + 1, |tl.turns|);
    if AllGood(refs, tl, |tl.turns|) { AllGoodBefore(refs, tl, k + 1, |tl.turns|); }
    tenantOld, tenant := counted + |Selection(TenantPass(turn.tenant), turn.atCount)|, copied;
    if !Fits(tenantOld) { return Failed(OutOfRange), tenantOld, tenant; }
    if !TenantSideGood(refs, turn.atCopy, {turn.tenant}) {
      WhyItFails(refs, tl, k);
      return Failed(WhyMisfit(refs, turn.atCopy, turn.tenant)), tenantOld, tenant;
    }
    tenant := copied + TenantPartOf(Selection(TenantPass(turn.tenant), turn.atCopy), {turn.tenant});
    r := Done;
  }

  lemma TurnAdds(refs: Refs, tl: Timeline, k: nat)
    requires k < |tl.turns|
    ensures CountSum(tl, k + 1) == CountSum(tl, k) + |Counted(tl, k)|
    ensures NewTenant(tl, k + 1) == NewTenant(tl, k) + Part(tl, k)
    ensures AllGood(refs, tl, k + 1) <==>
              AllGood(refs, tl, k) && TenantSideGood(refs, tl.turns[k].atCopy, {tl.turns[k].tenant})
  {
    NewTenantStep(tl, k);
  }

  lemma NewTenantStep(tl: Timeline, k: nat)
    requires k < |tl.turns|
    ensures NewTenant(tl, k + 1) == NewTenant(tl, k) + Part(tl, k)
  {
    assert Parts(tl)(k) == Part(tl, k);
  }

  lemma {:induction false} AllGoodBefore(refs: Refs, tl: Timeline, n: nat, m: nat)
    requires n <= m <= |tl.turns| && AllGood(refs, tl, m)
    ensures AllGood(refs, tl, n)
  {
    if n < m { AllGoodBefore(refs, tl, n, m - 1); }
  }

  lemma TurnReads(refs: Refs, tl: Timeline, k: nat)
    requires Sound(refs, tl) && k < |tl.turns|
    ensures |Selection(TenantPass(tl.turns[k].tenant), tl.turns[k].atCount)| == |Counted(tl, k)|
    ensures TenantPartOf(Selection(TenantPass(tl.turns[k].tenant), tl.turns[k].atCopy), {tl.turns[k].tenant}) == Part(tl, k)
  {
    assert SoundTurn(refs, tl, k);
    PassReads(refs, tl.turns[k].atCount, tl.turns[k].tenant);
    PassReads(refs, tl.turns[k].atCopy, tl.turns[k].tenant);
  }

  /** Good rows go in: although they come from different versions, they meet every constraint of the new tables
      together. */
  lemma {:induction false} NewTablesValid(refs: Refs, tl: Timeline)
    requires Sound(refs, tl) && AllGood(refs, tl, |tl.turns|)
    ensures PlatformConstraints(refs, PlatformPart(tl.platformCopy))
    ensures TenantConstraints(refs, NewTenant(tl, |tl.turns|))
  {
    PlatformPartValid(refs, tl.platformCopy);
    var t := NewTenant(tl, |tl.turns|);
    forall id | id in t ensures TenantRowOk(refs, t[id]) {
      var k := NewTenantFrom(tl, |tl.turns|, id);
      CopiedRowOk(refs, tl, k, id);
    }
    forall i, j | i in t && j in t && i != j ensures !TenantClash(t[i], t[j]) {
      var k := NewTenantFrom(tl, |tl.turns|, i);
      var l := NewTenantFrom(tl, |tl.turns|, j);
      CopiedRowsClashNot(refs, tl, k, i, l, j);
    }
  }

  lemma PlatformPartValid(refs: Refs, rows: Rows)
    requires OldConstraints(refs, rows)
    ensures PlatformConstraints(refs, PlatformPart(rows))
  {
    var p := PlatformPart(rows);
    forall i, j | i in p && j in p && i != j ensures !PlatformClash(p[i], p[j]) {
      assert !OldClash(rows[i], rows[j]);
    }
  }

  lemma CopiedRowOk(refs: Refs, tl: Timeline, k: nat, id: Id)
    requires Sound(refs, tl) && AllGood(refs, tl, |tl.turns|) && k < |tl.turns| && id in Part(tl, k)
    ensures TenantRowOk(refs, Part(tl, k)[id])
  {
    assert SoundTurn(refs, tl, k);
    AllGoodMeans(refs, tl, |tl.turns|);
    assert OldRowOk(refs, tl.turns[k].atCopy[id]);
    assert id !in Misfits(refs, tl.turns[k].atCopy, {tl.turns[k].tenant});
  }

  lemma CopiedRowsClashNot(refs: Refs, tl: Timeline, k: nat, i: Id, l: nat, j: Id)
    requires Sound(refs, tl) && AllGood(refs, tl, |tl.turns|) && k < |tl.turns| && l < |tl.turns|
    requires i in Part(tl, k) && j in Part(tl, l) && i != j
    ensures !TenantClash(Part(tl, k)[i], Part(tl, l)[j])
  {
    CopiedRowOk(refs, tl, k, i);
    CopiedRowOk(refs, tl, l, j);
    if Part(tl, k)[i].orgNode == Part(tl, l)[j].orgNode {
      assert k == l;
      assert SoundTurn(refs, tl, k);
      assert !OldClash(tl.turns[k].atCopy[i], tl.turns[k].atCopy[j]);
    }
  }
}
