/** The role-assignment tables before and after the split (migration 3e05299cb533), with their constraints. */
module SplitModel {
  import opened Texts
  import opened Rls

  datatype Status = Active | Inactive

  datatype Audience = PlatformAudience | TenantAudience

  /** The lifecycle columns that all three tables share. */
  datatype Lifecycle = Lifecycle(
    status: Status,
    grantedAt: int,
    grantedBy: Option<Id>,
    grantedByType: Option<string>,
    revokedAt: Option<int>,
    revokedBy: Option<Id>,
    revokedByType: Option<string>,
    updatedAt: int)

  datatype OldRow = OldRow(
    platformUser: Option<Id>,
    tenantUser: Option<Id>,
    role: Id,
    tenant: Option<Id>,
    orgNode: Option<Id>,
    life: Lifecycle)

  datatype PlatformRow = PlatformRow(user: Id, role: Id, life: Lifecycle)

  datatype TenantRow = TenantRow(user: Id, tenant: Id, orgNode: Id, role: Id, life: Lifecycle)

  /** The tables the foreign keys and the audience triggers look at. */
  datatype Refs = Refs(
    tenants: set<Id>,
    platformUsers: set<Id>,
    tenantUsers: map<Id, Id>,
    orgNodes: map<Id, Id>,
    roles: map<Id, Audience>)

  // ------------------------------------------------------------- constraints

  /** The three lifecycle CHECKs, the same on every table. */
  predicate LifecycleCheck(l: Lifecycle) {
    && (l.grantedBy.None? <==> l.grantedByType.None?)
    && (l.revokedBy.None? <==> l.revokedByType.None?)
    && (l.status.Inactive? ==> l.revokedAt.Some? && l.revokedBy.Some? && l.revokedByType.Some?)
    && (l.status.Active? ==> l.revokedAt.None? && l.revokedBy.None? && l.revokedByType.None?)
  }

  /** user_xor, anchor_shape and user_anchor_consistency. */
  predicate ShapeCheck(r: OldRow) {
    && (r.platformUser.Some? <==> r.tenantUser.None?)
    && (r.tenant.Some? <==> r.orgNode.Some?)
    && ( || (r.platformUser.Some? && r.tenant.None? && r.orgNode.None?)
         || (r.tenantUser.Some? && r.tenant.Some? && r.orgNode.Some?))
  }

  /** Foreign keys of the old table; a composite key with a NULL part is not checked (MATCH SIMPLE). */
  predicate OldForeignKeys(refs: Refs, r: OldRow) {
    && r.role in refs.roles
    && (r.tenant.Some? ==> r.tenant.value in refs.tenants)
    && (r.tenant.Some? && r.orgNode.Some? ==>
         r.orgNode.value in refs.orgNodes && refs.orgNodes[r.orgNode.value] == r.tenant.value)
    && (r.platformUser.Some? ==> r.platformUser.value in refs.platformUsers)
    && (r.tenantUser.Some? ==> r.tenantUser.value in refs.tenantUsers)
  }

  predicate OldRowOk(refs: Refs, r: OldRow) {
    LifecycleCheck(r.life) && ShapeCheck(r) && OldForeignKeys(refs, r)
  }

  /** The two partial unique indexes as a relation between rows with different ids. */
  predicate OldClash(a: OldRow, b: OldRow) {
    && a.life.status.Active? && b.life.status.Active? && a.role == b.role
    && ( || (a.platformUser.Some? && a.platformUser == b.platformUser)
         || (a.tenantUser.Some? && a.tenantUser == b.tenantUser && a.orgNode.Some? && a.orgNode == b.orgNode))
  }

  predicate OldConstraints(refs: Refs, rows: map<Id, OldRow>) {
    && (forall id | id in rows :: OldRowOk(refs, rows[id]))
    && (forall i, j | i in rows && j in rows && i != j :: !OldClash(rows[i], rows[j]))
  }

  predicate PlatformRowOk(refs: Refs, r: PlatformRow) {
    LifecycleCheck(r.life) && r.user in refs.platformUsers && r.role in refs.roles
  }

  predicate PlatformClash(a: PlatformRow, b: PlatformRow) {
    a.life.status.Active? && b.life.status.Active? && a.user == b.user && a.role == b.role
  }

  predicate PlatformConstraints(refs: Refs, rows: map<Id, PlatformRow>) {
    && (forall id | id in rows :: PlatformRowOk(refs, rows[id]))
    && (forall i, j | i in rows && j in rows && i != j :: !PlatformClash(rows[i], rows[j]))
  }

  predicate TenantRowOk(refs: Refs, r: TenantRow) {
    && LifecycleCheck(r.life)
    && r.user in refs.tenantUsers && refs.tenantUsers[r.user] == r.tenant
    && r.orgNode in refs.orgNodes && refs.orgNodes[r.orgNode] == r.tenant
    && r.role in refs.roles && r.tenant in refs.tenants
  }

  predicate TenantClash(a: TenantRow, b: TenantRow) {
    && a.life.status.Active? && b.life.status.Active?
    && a.user == b.user && a.role == b.role && a.orgNode == b.orgNode
  }

  predicate TenantConstraints(refs: Refs, rows: map<Id, TenantRow>) {
    && (forall id | id in rows :: TenantRowOk(refs, rows[id]))
    && (forall i, j | i in rows && j in rows && i != j :: !TenantClash(rows[i], rows[j]))
  }

  /** What the CHECKs leave: an active row has no trace of a revocation, an inactive one has all of it, and who granted
      is named together with the kind of user or not at all. */
  lemma LifecycleIff(l: Lifecycle)
    ensures LifecycleCheck(l) <==>
              && (l.grantedBy.Some? == l.grantedByType.Some?)
              && match l.status
                 case Active => (l.revokedAt, l.revokedBy, l.revokedByType) == (None, None, None)
                 case Inactive => l.revokedAt != None && l.revokedBy != None && l.revokedByType != None
  {
  }

  /** What the partial unique indexes leave: nobody holds a role twice at the same time, on the tenant side at one node. */
  lemma {:induction false} ActiveOnce(
      rows: map<Id, OldRow>, p: map<Id, PlatformRow>, t: map<Id, TenantRow>)
    requires forall id | id in rows :: ShapeCheck(rows[id])
    ensures (forall i, j | i in rows && j in rows && i != j :: !OldClash(rows[i], rows[j])) <==>
              forall i, j | i in rows && j in rows && rows[i].life.status == Active && rows[j].life.status == Active
                            && (rows[i].platformUser, rows[i].tenantUser, rows[i].role, rows[i].orgNode) ==
                               (rows[j].platformUser, rows[j].tenantUser, rows[j].role, rows[j].orgNode) :: i == j
    ensures (forall i, j | i in p && j in p && i != j :: !PlatformClash(p[i], p[j])) <==>
              forall i, j | i in p && j in p && p[i].life.status == Active && p[j].life.status == Active
                            && (p[i].user, p[i].role) == (p[j].user, p[j].role) :: i == j
    ensures (forall i, j | i in t && j in t && i != j :: !TenantClash(t[i], t[j])) <==>
              forall i, j | i in t && j in t && t[i].life.status == Active && t[j].life.status == Active
                            && (t[i].user, t[i].role, t[i].orgNode) == (t[j].user, t[j].role, t[j].orgNode) :: i == j
  {
    forall i, j | i in rows && j in rows
      ensures OldClash(rows[i], rows[j]) <==>
                && rows[i].life.status == Active && rows[j].life.status == Active
                && (rows[i].platformUser, rows[i].tenantUser, rows[i].role, rows[i].orgNode) ==
                   (rows[j].platformUser, rows[j].tenantUser, rows[j].role, rows[j].orgNode)
    {
      assert ShapeCheck(rows[i]) && ShapeCheck(rows[j]);
    }
  }

  /** A row is on one side: a platform user without anchor, or a tenant user with both parts of one. */
  lemma ShapeIff(r: OldRow)
    ensures ShapeCheck(r) <==>
              || (r.platformUser != None && (r.tenantUser, r.tenant, r.orgNode) == (None, None, None))
              || (r.platformUser == None && r.tenantUser != None && r.tenant != None && r.orgNode != None)
  {
  }

  // ---------------------------------------------------------- the two halves

  function ToPlatform(r: OldRow): PlatformRow
    requires r.platformUser.Some?
  {
    PlatformRow(r.platformUser.value, r.role, r.life)
  }

  function ToTenant(r: OldRow): TenantRow
    requires r.tenantUser.Some? && r.tenant.Some? && r.orgNode.Some?
  {
    TenantRow(r.tenantUser.value, r.tenant.value, r.orgNode.value, r.role, r.life)
  }

  predicate IsTenantSide(r: OldRow) { r.tenantUser.Some? && r.tenant.Some? && r.orgNode.Some? }

  function PlatformPart(rows: map<Id, OldRow>): map<Id, PlatformRow> {
    map id | id in rows && rows[id].platformUser.Some? :: ToPlatform(rows[id])
  }

  /** The tenant-side rows of the tenants in `visited`. */
  function TenantPartOf(rows: map<Id, OldRow>, visited: set<Id>): map<Id, TenantRow> {
    map id | id in rows && IsTenantSide(rows[id]) && rows[id].tenant.value in visited :: ToTenant(rows[id])
  }

  function TenantPart(rows: map<Id, OldRow>): map<Id, TenantRow> {
    map id | id in rows && IsTenantSide(rows[id]) :: ToTenant(rows[id])
  }

  function FromPlatform(r: PlatformRow): OldRow {
    OldRow(Some(r.user), None, r.role, None, None, r.life)
  }

  function FromTenant(r: TenantRow): OldRow {
    OldRow(None, Some(r.user), r.role, Some(r.tenant), Some(r.orgNode), r.life)
  }

  function Merged(p: map<Id, PlatformRow>, t: map<Id, TenantRow>): map<Id, OldRow> {
    map id | id in p.Keys + t.Keys :: if id in p then FromPlatform(p[id]) else FromTenant(t[id])
  }

  // ------------------------------------------------------- the columns, one by one

  /** The new platform table has the rows of the platform side, each column as it was. */
  ghost predicate HoldsPlatform(p: map<Id, PlatformRow>, rows: map<Id, OldRow>) {
    && (forall id :: id in p <==> id in rows && rows[id].platformUser.Some?)
    && forall id | id in p ::
         && Some(p[id].user) == rows[id].platformUser && p[id].role == rows[id].role
         && SameLifecycle(p[id].life, rows[id].life)
  }

  /** The new tenant table has the rows of the tenant side, each column as it was. */
  ghost predicate HoldsTenant(t: map<Id, TenantRow>, rows: map<Id, OldRow>) {
    && (forall id :: id in t <==> id in rows && rows[id].platformUser.None?)
    && forall id | id in t ::
         && Some(t[id].user) == rows[id].tenantUser && Some(t[id].tenant) == rows[id].tenant
         && Some(t[id].orgNode) == rows[id].orgNode && t[id].role == rows[id].role
         && SameLifecycle(t[id].life, rows[id].life)
  }

  predicate SameLifecycle(l: Lifecycle, m: Lifecycle) {
    && l.status == m.status
    && l.grantedAt == m.grantedAt && l.grantedBy == m.grantedBy && l.grantedByType == m.grantedByType
    && l.revokedAt == m.revokedAt && l.revokedBy == m.revokedBy && l.revokedByType == m.revokedByType
    && l.updatedAt == m.updatedAt
  }

  /** The old table again: the rows of both new ones, with NULL in the columns of the other side. */
  predicate HoldsBoth(rows: map<Id, OldRow>, p: map<Id, PlatformRow>, t: map<Id, TenantRow>) {
    && rows.Keys == p.Keys + t.Keys
    && (forall id | id in p ::
         && rows[id].platformUser == Some(p[id].user) && rows[id].tenantUser == None
         && rows[id].tenant == None && rows[id].orgNode == None && rows[id].role == p[id].role
         && SameLifecycle(rows[id].life, p[id].life))
    && (forall id | id in t ::
         && rows[id].platformUser == None && rows[id].tenantUser == Some(t[id].user)
         && rows[id].tenant == Some(t[id].tenant) && rows[id].orgNode == Some(t[id].orgNode)
         && rows[id].role == t[id].role && SameLifecycle(rows[id].life, t[id].life))
  }

  lemma PartsHoldColumns(refs: Refs, rows: map<Id, OldRow>)
    requires OldConstraints(refs, rows)
    ensures HoldsPlatform(PlatformPart(rows), rows) && HoldsTenant(TenantPart(rows), rows)
  {
    forall id | id in rows ensures rows[id].platformUser.Some? <==> !IsTenantSide(rows[id]) {
      assert OldRowOk(refs, rows[id]);
    }
  }

  lemma MergedHoldsColumns(p: map<Id, PlatformRow>, t: map<Id, TenantRow>)
    requires p.Keys !! t.Keys
    ensures HoldsBoth(Merged(p, t), p, t)
  {
  }

  // ---------------------------------------------------------- what must hold

  const INT_MAX := 0x7FFF_FFFF

  predicate AudienceMatches(refs: Refs, r: OldRow) {
    && (r.platformUser.Some? ==> r.role in refs.roles && refs.roles[r.role].PlatformAudience?)
    && (r.tenantUser.Some? ==> r.role in refs.roles && refs.roles[r.role].TenantAudience?)
  }

  /** The user of a tenant-side row belongs to the tenant the row names. */
  predicate UserBelongs(refs: Refs, r: OldRow) {
    r.tenantUser.Some? && r.tenant.Some? ==>
      r.tenantUser.value in refs.tenantUsers && refs.tenantUsers[r.tenantUser.value] == r.tenant.value
  }

  predicate Splittable(refs: Refs, rows: map<Id, OldRow>) {
    && (forall id | id in rows :: AudienceMatches(refs, rows[id]) && UserBelongs(refs, rows[id]))
    && |rows| <= INT_MAX
  }

  // ---------------------------------------------- which pass reads which row

  /** One SELECT of the copy: the platform pass, or the pass that impersonates a tenant. */
  datatype Pass = PlatformPass | TenantPass(id: Id)

  function PassSession(p: Pass): Session {
    match p
    case PlatformPass => Session(Blank, PLATFORM)
    case TenantPass(id) => Session(TenantText(id), PLATFORM)
  }

  /** The WHERE clause of the pass. */
  function Where(p: Pass, r: OldRow): Tri {
    match p
    case PlatformPass => Truth(r.platformUser.Some?)
    case TenantPass(id) => And(Truth(r.tenantUser.Some?), Same(r.tenant, Some(id)))
  }

  /** A row is read when the policy admits it under the pass's session and the WHERE clause is true. */
  predicate Selected(p: Pass, r: OldRow) {
    Admits(GatedForm(r.tenant, PassSession(p))) && Where(p, r).Yes?
  }

  function Selection(p: Pass, rows: map<Id, OldRow>): map<Id, OldRow> {
    map id | id in rows && Selected(p, rows[id]) :: rows[id]
  }

  /** The passes the migration makes: one for the platform and one for every tenant. */
  predicate Made(p: Pass, refs: Refs) { p.TenantPass? ==> p.id in refs.tenants }

  function OwnPass(r: OldRow): Pass {
    if r.tenant.Some? then TenantPass(r.tenant.value) else PlatformPass
  }

  /** Under the changing session variables every stored row is read by exactly one of the passes made. */
  lemma {:induction false} ExactlyOnePass(refs: Refs, r: OldRow, p: Pass)
    requires OldRowOk(refs, r)
    ensures Made(OwnPass(r), refs) && Selected(OwnPass(r), r)
    ensures Selected(p, r) <==> p == OwnPass(r)
  {
    assert IsPlatform(PassSession(p)) == Yes;
  }

  /** No single session reads the rows of two tenants, so the loop over tenants cannot be dropped; and a session
      that is not PLATFORM reads no row without a tenant, so neither can the setting. */
  lemma NoSingleSessionSuffices(refs: Refs, a: OldRow, b: OldRow, s: Session)
    requires OldRowOk(refs, a) && OldRowOk(refs, b)
    requires a.tenant.Some? && b.tenant.Some? && a.tenant != b.tenant
    ensures !(Admits(GatedForm(a.tenant, s)) && Admits(GatedForm(b.tenant, s)))
    ensures s.userType != PLATFORM ==> forall r: OldRow | r.tenant.None? :: !Admits(GatedForm(r.tenant, s))
  {
  }

  // -------------------------------------------------- constraints carry over

  lemma PartsKeepConstraints(refs: Refs, rows: map<Id, OldRow>)
    requires OldConstraints(refs, rows) && Splittable(refs, rows)
    ensures PlatformConstraints(refs, PlatformPart(rows)) && TenantConstraints(refs, TenantPart(rows))
  {
    var p, t := PlatformPart(rows), TenantPart(rows);
    forall i, j | i in p && j in p && i != j ensures !PlatformClash(p[i], p[j]) {
      assert !OldClash(rows[i], rows[j]);
    }
    forall i, j | i in t && j in t && i != j ensures !TenantClash(t[i], t[j]) {
      assert !OldClash(rows[i], rows[j]);
    }
  }

  lemma MergeKeepsConstraints(refs: Refs, p: map<Id, PlatformRow>, t: map<Id, TenantRow>)
    requires PlatformConstraints(refs, p) && TenantConstraints(refs, t) && p.Keys !! t.Keys
    ensures OldConstraints(refs, Merged(p, t))
  {
    var rows := Merged(p, t);
    forall i, j | i in rows && j in rows && i != j ensures !OldClash(rows[i], rows[j]) {
      if i in p && j in p { assert !PlatformClash(p[i], p[j]); }
      if i in t && j in t { assert !TenantClash(t[i], t[j]); }
    }
  }

  // --------------------------------------------------------------- partition

  /** The two new tables hold every old row exactly once: their keys partition the old keys, and putting them
      together gives the old table back, every column included. */
  lemma {:induction false} SplitThenMerge(refs: Refs, rows: map<Id, OldRow>)
    requires OldConstraints(refs, rows)
    ensures PlatformPart(rows).Keys !! TenantPart(rows).Keys
    ensures PlatformPart(rows).Keys + TenantPart(rows).Keys == rows.Keys
    ensures HoldsPlatform(PlatformPart(rows), rows) && HoldsTenant(TenantPart(rows), rows)
    ensures Merged(PlatformPart(rows), TenantPart(rows)) == rows
    ensures |PlatformPart(rows)| + |TenantPart(rows)| == |rows|
  {
    var p, t := PlatformPart(rows), TenantPart(rows);
    PartsHoldColumns(refs, rows);
    PartsPartition(refs, rows);
    PartsMergeBack(refs, rows);
    assert |p.Keys + t.Keys| == |p.Keys| + |t.Keys|;
  }

  lemma PartsPartition(refs: Refs, rows: map<Id, OldRow>)
    requires OldConstraints(refs, rows)
    ensures PlatformPart(rows).Keys !! TenantPart(rows).Keys
    ensures PlatformPart(rows).Keys + TenantPart(rows).Keys == rows.Keys
  {
    forall id | id in rows ensures rows[id].platformUser.Some? <==> !IsTenantSide(rows[id]) {
      assert OldRowOk(refs, rows[id]);
    }
  }

  lemma PartsMergeBack(refs: Refs, rows: map<Id, OldRow>)
    requires OldConstraints(refs, rows)
    ensures Merged(PlatformPart(rows), TenantPart(rows)) == rows
  {
    var merged := Merged(PlatformPart(rows), TenantPart(rows));
    PartsPartition(refs, rows);
    assert merged.Keys == rows.Keys;
    forall id | id in rows ensures merged[id] == rows[id] {
      assert OldRowOk(refs, rows[id]);
    }
  }

  lemma MergedPlatform(p: map<Id, PlatformRow>, t: map<Id, TenantRow>)
    requires p.Keys !! t.Keys
    ensures PlatformPart(Merged(p, t)) == p
  {
    var q := PlatformPart(Merged(p, t));
    assert q.Keys == p.Keys;
    forall id | id in p ensures q[id] == p[id] { assert ToPlatform(FromPlatform(p[id])) == p[id]; }
  }

  lemma MergedTenant(p: map<Id, PlatformRow>, t: map<Id, TenantRow>)
    requires p.Keys !! t.Keys
    ensures TenantPart(Merged(p, t)) == t
  {
    var q := TenantPart(Merged(p, t));
    assert q.Keys == t.Keys;
    forall id | id in t ensures q[id] == t[id] { assert ToTenant(FromTenant(t[id])) == t[id]; }
  }

  /** The other way round: two tables with disjoint ids are found again in their union. */
  lemma {:induction false} MergeThenSplit(p: map<Id, PlatformRow>, t: map<Id, TenantRow>)
    requires p.Keys !! t.Keys
    ensures HoldsBoth(Merged(p, t), p, t)
    ensures PlatformPart(Merged(p, t)) == p && TenantPart(Merged(p, t)) == t
    ensures |Merged(p, t)| == |p| + |t|
  {
    MergedHoldsColumns(p, t);
    MergedPlatform(p, t);
    MergedTenant(p, t);
    assert Merged(p, t).Keys == p.Keys + t.Keys;
    assert |p.Keys + t.Keys| == |p.Keys| + |t.Keys|;
  }

  // ------------------------------------------------- what the counters check

  /** The sum of the per-tenant counts over tenants visited in this order. */
  function CountOver(rows: map<Id, OldRow>, order: seq<Id>): nat {
    if order == [] then 0
    else CountOver(rows, order[..|order| - 1]) + |Selection(TenantPass(order[|order| - 1]), rows)|
  }

  lemma SelectionIsTenantPart(refs: Refs, rows: map<Id, OldRow>, id: Id)
    requires OldConstraints(refs, rows)
    ensures Selection(TenantPass(id), rows).Keys == TenantPartOf(rows, {id}).Keys
    ensures forall k | k in Selection(TenantPass(id), rows) :: IsTenantSide(rows[k]) && rows[k].tenant == Some(id)
  {
    forall k | k in rows ensures Selected(TenantPass(id), rows[k]) <==> (IsTenantSide(rows[k]) && rows[k].tenant.value == id) {
      ExactlyOnePass(refs, rows[k], TenantPass(id));
    }
  }

  lemma PartGrows(rows: map<Id, OldRow>, visited: set<Id>, id: Id)
    requires id !in visited
    ensures |TenantPartOf(rows, visited + {id})| == |TenantPartOf(rows, visited)| + |TenantPartOf(rows, {id})|
  {
    var a, b := TenantPartOf(rows, visited).Keys, TenantPartOf(rows, {id}).Keys;
    assert TenantPartOf(rows, visited + {id}).Keys == a + b;
    assert a !! b;
    assert |a + b| == |a| + |b|;
  }

  lemma FullPart(refs: Refs, rows: map<Id, OldRow>, visited: set<Id>)
    requires OldConstraints(refs, rows)
    ensures TenantPartOf(rows, visited) == TenantPart(rows) <==>
            forall id | id in rows && rows[id].tenant.Some? :: rows[id].tenant.value in visited
  {
    var part, full := TenantPartOf(rows, visited), TenantPart(rows);
    forall id | id in rows && rows[id].tenant.Some?
      ensures id in full && (id in part <==> rows[id].tenant.value in visited)
    {
      assert OldRowOk(refs, rows[id]);
    }
    if forall id | id in rows && rows[id].tenant.Some? :: rows[id].tenant.value in visited {
      assert part.Keys == full.Keys;
    }
  }

  lemma {:induction false} CountsWhatIsVisited(refs: Refs, rows: map<Id, OldRow>, order: seq<Id>, visited: set<Id>)
    requires OldConstraints(refs, rows) && visited == set id | id in order
    requires forall i, j :: 0 <= i < j < |order| ==> order[i] != order[j]
    ensures CountOver(rows, order) == |TenantPartOf(rows, visited)|
  {
    if order == [] {
      assert TenantPartOf(rows, visited) == map[];
    } else {
      var init, last := order[..|order| - 1], order[|order| - 1];
      assert order == init + [last];
      assert visited == (visited - {last}) + {last};
      CountsWhatIsVisited(refs, rows, init, visited - {last});
      SelectionSize(refs, rows, last);
      PartGrows(rows, visited - {last}, last);
    }
  }

  lemma SelectionSize(refs: Refs, rows: map<Id, OldRow>, id: Id)
    requires OldConstraints(refs, rows)
    ensures |Selection(TenantPass(id), rows)| == |TenantPartOf(rows, {id})|
  {
    SelectionIsTenantPart(refs, rows, id);
    assert |Selection(TenantPass(id), rows).Keys| == |TenantPartOf(rows, {id}).Keys|;
  }

  /** The count check compares two numbers that agree whichever tenants the loop visits, so by itself it would
      not notice a tenant left out; that no row is lost rests on every row's tenant being visited. */
  lemma {:induction false} CountCheckIsBlind(refs: Refs, rows: map<Id, OldRow>, order: seq<Id>)
    requires OldConstraints(refs, rows)
    requires forall i, j :: 0 <= i < j < |order| ==> order[i] != order[j]
    ensures var visited := set id | id in order;
            && CountOver(rows, order) == |TenantPartOf(rows, visited)|
            && (TenantPartOf(rows, visited) == TenantPart(rows) <==>
                 forall id | id in rows && rows[id].tenant.Some? :: rows[id].tenant.value in visited)
  {
    CountsWhatIsVisited(refs, rows, order, set id | id in order);
    FullPart(refs, rows, set id | id in order);
  }
}
