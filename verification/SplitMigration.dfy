/** Migration 3e05299cb533 as it runs: one transaction that creates two tables, copies under changing session
    variables, checks counts and drops the source; and its downgrade. */
module SplitMigration {
  import opened Texts
  import opened Rls
  import opened Sets
  import opened SplitModel

  datatype Failure =
    | PolicyViolation
    | AudienceMismatch
    | CheckViolation
    | DuplicateKey
    | DuplicateActive
    | MissingReference
    | CountMismatch
    | OutOfRange
    | InvalidSetting

  datatype Outcome = Done | Failed(why: Failure)

  /** Everything the transaction can change. */
  datatype Snapshot = Snapshot(
    session: Session,
    assignments: Option<map<Id, OldRow>>,
    platform: Option<map<Id, PlatformRow>>,
    tenant: Option<map<Id, TenantRow>>,
    userTenantKey: bool)

  /** An INT variable holds what fits; anything larger raises. */
  predicate Fits(n: nat) { n <= INT_MAX }

  /** These platform-side rows, each as the new table stores it. */
  function PlatformCopies(rows: map<Id, OldRow>, ids: set<Id>): map<Id, PlatformRow> {
    map id | id in ids && id in rows && rows[id].platformUser.Some? :: ToPlatform(rows[id])
  }

  function TenantCopies(rows: map<Id, OldRow>, ids: set<Id>): map<Id, TenantRow> {
    map id | id in ids && id in rows && IsTenantSide(rows[id]) :: ToTenant(rows[id])
  }

  function CopiesBack(p: map<Id, PlatformRow>, ids: set<Id>): map<Id, OldRow> {
    map id | id in ids && id in p :: FromPlatform(p[id])
  }

  /** What is to be merged from `p`, and from `t` for these ids. */
  function MergedSoFar(p: map<Id, PlatformRow>, t: map<Id, TenantRow>, ids: set<Id>): map<Id, OldRow> {
    map id | id in p.Keys + ids && (id in p || id in t) :: if id in p then FromPlatform(p[id]) else FromTenant(t[id])
  }

  /** What the two count comparisons and the closing notice decide. */
  function Verify(platformOld: nat, platformNew: nat, tenantOld: nat, tenantNew: nat): Outcome {
    if !Fits(platformNew) || !Fits(tenantNew) then Failed(OutOfRange)
    else if platformOld != platformNew || tenantOld != tenantNew then Failed(CountMismatch)
    else if !Fits(platformNew + tenantNew) then Failed(OutOfRange)
    else Done
  }

  class Database {
    const refs: Refs
    var session: Session
    var assignments: Option<map<Id, OldRow>>
    var platform: Option<map<Id, PlatformRow>>
    var tenant: Option<map<Id, TenantRow>>
    var userTenantKey: bool

    constructor (refs: Refs, session: Session, rows: map<Id, OldRow>)
      ensures this.refs == refs && State() == Snapshot(session, Some(rows), None, None, false)
    {
      this.refs, this.session, this.assignments := refs, session, Some(rows);
      this.platform, this.tenant, this.userTenantKey := None, None, false;
    }

    function State(): Snapshot
      reads this
    {
      Snapshot(session, assignments, platform, tenant, userTenantKey)
    }

    /** Rolls the transaction back. */
    method Restore(s: Snapshot)
      modifies this
      ensures State() == s
    {
      session, assignments, platform, tenant, userTenantKey :=
        s.session, s.assignments, s.platform, s.tenant, s.userTenantKey;
    }

    method SetTenant(s: TenantSetting)
      modifies this`session
      ensures session == old(session).(tenant := s)
    {
      session := session.(tenant := s);
    }

    // ------------------------------------------------------------ triggers

    method EnforcePlatformRoleAudience(role: Id) returns (ok: bool)
      ensures ok <==> role in refs.roles && refs.roles[role].PlatformAudience?
    {
      var audience: Option<Audience> := if role in refs.roles then Some(refs.roles[role]) else None;
      ok := audience == Some(PlatformAudience);
    }

    method EnforceTenantRoleAudience(role: Id) returns (ok: bool)
      ensures ok <==> role in refs.roles && refs.roles[role].TenantAudience?
    {
      var audience: Option<Audience> := if role in refs.roles then Some(refs.roles[role]) else None;
      ok := audience == Some(TenantAudience);
    }

    // ------------------------------------------------------------- inserts

    method InsertPlatform(id: Id, row: PlatformRow) returns (r: Outcome)
      requires platform.Some?
      modifies this`platform
      ensures r.Done? <==>
              && row.role in refs.roles && refs.roles[row.role].PlatformAudience?
              && PlatformRowOk(refs, row)
              && id !in old(platform.value)
              && forall k | k in old(platform.value) :: !PlatformClash(old(platform.value)[k], row)
      ensures r.Done? ==> platform == Some(old(platform.value)[id := row])
      ensures r.Failed? ==> platform == old(platform)
      ensures r == Failed(AudienceMismatch) <==> !(row.role in refs.roles && refs.roles[row.role].PlatformAudience?)
    {
      var audienceOk := EnforcePlatformRoleAudience(row.role);
      if !audienceOk { return Failed(AudienceMismatch); }
      if !LifecycleCheck(row.life) { return Failed(CheckViolation); }
      if id in platform.value { return Failed(DuplicateKey); }
      if exists k | k in platform.value :: PlatformClash(platform.value[k], row) { return Failed(DuplicateActive); }
      if row.user !in refs.platformUsers { return Failed(MissingReference); }
      platform := Some(platform.value[id := row]);
      r := Done;
    }

    method InsertTenant(id: Id, row: TenantRow) returns (r: Outcome)
      requires tenant.Some?
      modifies this`tenant
      ensures r.Done? <==>
              && row.role in refs.roles && refs.roles[row.role].TenantAudience?
              && Admits(OpenForm(Some(row.tenant), session))
              && TenantRowOk(refs, row)
              && id !in old(tenant.value)
              && forall k | k in old(tenant.value) :: !TenantClash(old(tenant.value)[k], row)
      ensures r.Done? ==> tenant == Some(old(tenant.value)[id := row])
      ensures r.Failed? ==> tenant == old(tenant)
      ensures r == Failed(AudienceMismatch) <==> !(row.role in refs.roles && refs.roles[row.role].TenantAudience?)
      ensures r == Failed(MissingReference) ==> !TenantRowOk(refs, row)
      ensures r.Failed? && Admits(OpenForm(Some(row.tenant), session)) && LifecycleCheck(row.life)
              && id !in old(tenant.value)
              && (forall k | k in old(tenant.value) :: !TenantClash(old(tenant.value)[k], row)) ==>
                r.why in {AudienceMismatch, MissingReference}
    {
      var audienceOk := EnforceTenantRoleAudience(row.role);
      if !audienceOk { return Failed(AudienceMismatch); }
      if !Admits(OpenForm(Some(row.tenant), session)) { return Failed(PolicyViolation); }
      if !LifecycleCheck(row.life) { return Failed(CheckViolation); }
      if id in tenant.value { return Failed(DuplicateKey); }
      if exists k | k in tenant.value :: TenantClash(tenant.value[k], row) { return Failed(DuplicateActive); }
      if !TenantRowOk(refs, row) { return Failed(MissingReference); }
      tenant := Some(tenant.value[id := row]);
      r := Done;
    }

    method InsertOld(id: Id, row: OldRow) returns (r: Outcome)
      requires assignments.Some?
      modifies this`assignments
      ensures r.Done? <==>
              && Admits(GatedForm(row.tenant, session))
              && OldRowOk(refs, row)
              && id !in old(assignments.value)
              && forall k | k in old(assignments.value) :: !OldClash(old(assignments.value)[k], row)
      ensures r.Done? ==> assignments == Some(old(assignments.value)[id := row])
      ensures r.Failed? ==> assignments == old(assignments)
      ensures Admits(GatedForm(row.tenant, session)) && OldRowOk(refs, row) && id in old(assignments.value) ==>
                r == Failed(DuplicateKey)
    {
      if !Admits(GatedForm(row.tenant, session)) { return Failed(PolicyViolation); }
      if !LifecycleCheck(row.life) || !ShapeCheck(row) { return Failed(CheckViolation); }
      if id in assignments.value { return Failed(DuplicateKey); }
      if exists k | k in assignments.value :: OldClash(assignments.value[k], row) { return Failed(DuplicateActive); }
      if !OldForeignKeys(refs, row) { return Failed(MissingReference); }
      assignments := Some(assignments.value[id := row]);
      r := Done;
    }

    // -------------------------------------------------------------- upgrade

    /** The rows a SELECT of the copy returns under the session as it stands. */
    function Read(p: Pass): (rows: map<Id, OldRow>)
      requires assignments.Some?
      reads this
      ensures session == PassSession(p) ==> rows == Selection(p, assignments.value)
    {
      map id | id in assignments.value
               && Admits(GatedForm(assignments.value[id].tenant, session))
               && Where(p, assignments.value[id]).Yes? :: assignments.value[id]
    }

    /** INSERT ... SELECT of the platform pass, row by row in any order. */
    method CopyPlatform(selected: map<Id, OldRow>) returns (r: Outcome)
      requires platform == Some(map[])
      requires OldConstraints(refs, selected) && forall id | id in selected :: selected[id].platformUser.Some?
      modifies this`platform
      ensures r.Done? <==> forall id | id in selected :: AudienceMatches(refs, selected[id])
      ensures r.Done? ==> platform == Some(PlatformPart(selected))
      ensures r.Failed? ==> r.why == AudienceMismatch
    {
      var pending := selected.Keys;
      ghost var copied: set<Id> := {};
      while pending != {}
        invariant copied !! pending && copied + pending == selected.Keys
        invariant platform == Some(PlatformCopies(selected, copied))
        invariant forall id | id in copied :: AudienceMatches(refs, selected[id])
        decreases |pending|
      {
        var id :| id in pending;
        r := CopyPlatformRow(id, selected, copied);
        if r.Failed? { return; }
        MoveOne(copied, pending, id);
        copied, pending := copied + {id}, pending - {id};
      }
      AllPlatformCopied(selected);
      r := Done;
    }

    method CopyPlatformRow(id: Id, rows: map<Id, OldRow>, ghost copied: set<Id>) returns (r: Outcome)
      requires OldConstraints(refs, rows)
      requires id in rows && id !in copied && rows[id].platformUser.Some?
      requires platform == Some(PlatformCopies(rows, copied))
      modifies this`platform
      ensures r.Done? <==> AudienceMatches(refs, rows[id])
      ensures r.Done? ==> platform == Some(PlatformCopies(rows, copied + {id}))
      ensures r.Failed? ==> r.why == AudienceMismatch
    {
      var row := rows[id];
      assert OldRowOk(refs, row);
      forall k | k in platform.value ensures !PlatformClash(platform.value[k], ToPlatform(row)) {
        assert !OldClash(rows[k], row);
      }
      OneMorePlatform(rows, copied, id);
      r := InsertPlatform(id, ToPlatform(row));
    }

    /** INSERT ... SELECT of one tenant's pass. */
    method CopyTenant(id: Id, rows: map<Id, OldRow>, ghost visited: set<Id>) returns (r: Outcome)
      requires assignments == Some(rows) && OldConstraints(refs, rows)
      requires session == PassSession(TenantPass(id)) && id !in visited
      requires tenant == Some(TenantPartOf(rows, visited))
      modifies this`tenant
      ensures r.Done? <==> TenantSideGood(refs, rows, {id})
      ensures r.Done? ==> tenant == Some(TenantPartOf(rows, visited + {id}))
      ensures r.Failed? ==> r.why in {AudienceMismatch, MissingReference}
    {
      var selected := Read(TenantPass(id)).Keys;
      TenantSelection(refs, rows, visited, id);
      AllTenantCopied(rows, visited);
      AllTenantCopied(rows, visited + {id});
      GoodSelection(refs, rows, id, selected);
      r := CopyTenantRows(selected, id, rows, TenantPartOf(rows, visited).Keys);
    }

    /** Row by row in any order. */
    method CopyTenantRows(selected: set<Id>, id: Id, rows: map<Id, OldRow>, ghost already: set<Id>)
      returns (r: Outcome)
      requires OldConstraints(refs, rows) && session == PassSession(TenantPass(id)) && already !! selected
      requires forall k | k in selected :: k in rows && IsTenantSide(rows[k]) && rows[k].tenant == Some(id)
      requires tenant == Some(TenantCopies(rows, already))
      modifies this`tenant
      ensures r.Done? <==> forall k | k in selected :: AudienceMatches(refs, rows[k]) && UserBelongs(refs, rows[k])
      ensures r.Done? ==> tenant == Some(TenantCopies(rows, already + selected))
      ensures r.Failed? ==> r.why in {AudienceMismatch, MissingReference}
    {
      var pending := selected;
      ghost var copied := already;
      while pending != {}
        invariant copied !! pending && copied + pending == already + selected && pending <= selected
        invariant tenant == Some(TenantCopies(rows, copied))
        invariant forall k | k in selected && k !in pending ::
                    AudienceMatches(refs, rows[k]) && UserBelongs(refs, rows[k])
        decreases |pending|
      {
        var k :| k in pending;
        r := CopyTenantRow(k, id, rows, copied);
        if r.Failed? { return; }
        MoveOne(copied, pending, k);
        copied, pending := copied + {k}, pending - {k};
      }
      r := Done;
    }

    method CopyTenantRow(k: Id, id: Id, rows: map<Id, OldRow>, ghost copied: set<Id>) returns (r: Outcome)
      requires OldConstraints(refs, rows)
      requires session == PassSession(TenantPass(id))
      requires k in rows && k !in copied && IsTenantSide(rows[k]) && rows[k].tenant == Some(id)
      requires tenant == Some(TenantCopies(rows, copied))
      modifies this`tenant
      ensures r.Done? <==> AudienceMatches(refs, rows[k]) && UserBelongs(refs, rows[k])
      ensures r.Done? ==> tenant == Some(TenantCopies(rows, copied + {k}))
      ensures r.Failed? ==> r.why in {AudienceMismatch, MissingReference}
    {
      var row := rows[k];
      assert OldRowOk(refs, row);
      forall j | j in tenant.value ensures !TenantClash(tenant.value[j], ToTenant(row)) {
        assert !OldClash(rows[j], row);
      }
      OneMoreTenant(rows, copied, k);
      r := InsertTenant(k, ToTenant(row));
    }

    /** The copy DO block: counts, copies and checks, reading through the policy at every step. */
    method CopyAndVerify(rows: map<Id, OldRow>) returns (r: Outcome)
      requires assignments == Some(rows) && platform == Some(map[]) && tenant == Some(map[])
      requires OldConstraints(refs, rows)
      modifies this`session, this`platform, this`tenant
      ensures r.Done? <==> Splittable(refs, rows)
      ensures r.Done? ==> platform == Some(PlatformPart(rows)) && tenant == Some(TenantPart(rows))
      ensures r.Done? ==> HoldsPlatform(platform.value, rows) && HoldsTenant(tenant.value, rows)
      ensures r.Done? ==> session == PassSession(PlatformPass)
      ensures r.Failed? ==> r.why in {AudienceMismatch, MissingReference, OutOfRange}
    {
      PartsHoldColumns(refs, rows);
      session := session.(userType := PLATFORM);
      SetTenant(Blank);
      SplittableParts(refs, rows);
      var platformOld, tenantOld;
      r, platformOld := CopyPlatforms(rows);
      if r.Failed? { return; }
      r, tenantOld := CopyTenants(rows);
      if r.Failed? { return; }
      SetTenant(Blank);
      var tenantNew := |ReadTenantTable()|;
      r := Verify(platformOld, |platform.value|, tenantOld, tenantNew);
    }

    /** The platform pass: count, then copy. */
    method CopyPlatforms(rows: map<Id, OldRow>) returns (r: Outcome, platformOld: nat)
      requires assignments == Some(rows) && platform == Some(map[])
      requires OldConstraints(refs, rows) && session == PassSession(PlatformPass)
      modifies this`platform
      ensures platformOld == |PlatformPart(rows)|
      ensures r.Done? <==> PlatformSideGood(refs, rows) && Fits(platformOld)
      ensures r.Done? ==> platform == Some(PlatformPart(rows))
      ensures r.Failed? ==> r.why in {AudienceMismatch, OutOfRange}
    {
      var selected := Read(PlatformPass);
      PlatformSelection(refs, rows);
      platformOld := |selected|;
      if !Fits(platformOld) { return Failed(OutOfRange), platformOld; }
      r := CopyPlatform(selected);
    }

    /** The loop over tenants: one impersonated count and copy each. */
    method CopyTenants(rows: map<Id, OldRow>) returns (r: Outcome, tenantOld: nat)
      requires assignments == Some(rows) && tenant == Some(map[])
      requires OldConstraints(refs, rows)
      requires session == PassSession(PlatformPass)
      modifies this`session, this`tenant
      ensures r.Done? ==> tenant == Some(TenantPart(rows)) && tenantOld == |TenantPart(rows)| && Fits(tenantOld)
      ensures r.Done? ==> session.userType == PLATFORM && !session.tenant.Garbage?
      ensures r.Done? ==> TenantSideGood(refs, rows, refs.tenants)
      ensures r.Failed? ==> !TenantSideGood(refs, rows, refs.tenants) || !Fits(|TenantPart(rows)|)
      ensures r.Failed? ==> r.why in {AudienceMismatch, MissingReference, OutOfRange}
    {
      tenantOld := 0;
      var pending := refs.tenants;
      ghost var visited: set<Id> := {};
      NoneCopiedYet(refs, rows);
      while pending != {}
        invariant visited == refs.tenants - pending && pending <= refs.tenants
        invariant assignments == Some(rows) && session.userType == PLATFORM && !session.tenant.Garbage?
        invariant tenant == Some(TenantPartOf(rows, visited))
        invariant tenantOld == |TenantPartOf(rows, visited)| && Fits(tenantOld)
        invariant TenantSideGood(refs, rows, visited)
        decreases |pending|
      {
        var id :| id in pending;
        pending := pending - {id};
        r, tenantOld := VisitTenant(id, rows, visited, tenantOld);
        if r.Failed? { return; }
        visited := visited + {id};
      }
      AllVisited(refs, rows, visited);
      r := Done;
    }

    /** One turn of the loop. The cursor reads `tenants` through its own policy, under whatever tenant is set by
        now: PLATFORM always sees the row. */
    method VisitTenant(id: Id, rows: map<Id, OldRow>, ghost visited: set<Id>, before: nat)
      returns (r: Outcome, tenantOld: nat)
      requires assignments == Some(rows) && OldConstraints(refs, rows)
      requires session.userType == PLATFORM && !session.tenant.Garbage?
      requires id !in visited && tenant == Some(TenantPartOf(rows, visited)) && before == |TenantPartOf(rows, visited)|
      requires id in refs.tenants && TenantSideGood(refs, rows, visited)
      modifies this`session, this`tenant
      ensures r.Done? ==>
                && session == PassSession(TenantPass(id))
                && tenant == Some(TenantPartOf(rows, visited + {id}))
                && tenantOld == |TenantPartOf(rows, visited + {id})| && Fits(tenantOld)
                && TenantSideGood(refs, rows, visited + {id})
      ensures r.Failed? ==> !TenantSideGood(refs, rows, refs.tenants) || !Fits(|TenantPart(rows)|)
      ensures r.Failed? ==> r.why in {AudienceMismatch, MissingReference, OutOfRange}
    {
      r, tenantOld := Done, before;
      PlatformSees(Some(id), session);
      if Admits(OpenForm(Some(id), session)) { r, tenantOld := CountAndCopyTenant(id, rows, visited, before); }
      SidesJoin(refs, rows, visited, id);
      if !TenantSideGood(refs, rows, {id}) { MisfitTenant(refs, rows, id); }
    }

    /** Impersonate, count, copy. */
    method CountAndCopyTenant(id: Id, rows: map<Id, OldRow>, ghost visited: set<Id>, before: nat)
      returns (r: Outcome, tenantOld: nat)
      requires assignments == Some(rows) && OldConstraints(refs, rows) && session.userType == PLATFORM
      requires id !in visited && tenant == Some(TenantPartOf(rows, visited)) && before == |TenantPartOf(rows, visited)|
      modifies this`session, this`tenant
      ensures r.Done? ==>
                && session == PassSession(TenantPass(id))
                && tenant == Some(TenantPartOf(rows, visited + {id}))
                && tenantOld == |TenantPartOf(rows, visited + {id})| && Fits(tenantOld)
                && TenantSideGood(refs, rows, {id})
      ensures r.Failed? ==> !TenantSideGood(refs, rows, {id}) || !Fits(|TenantPart(rows)|)
      ensures r.Failed? ==> r.why in {AudienceMismatch, MissingReference, OutOfRange}
    {
      SetTenant(TenantText(id));
      var count := |Read(TenantPass(id))|;
      TenantCount(refs, rows, visited, id);
      tenantOld := before;
      if !Fits(count) || !Fits(tenantOld + count) { return Failed(OutOfRange), tenantOld; }
      tenantOld := tenantOld + count;
      r := CopyTenant(id, rows, visited);
    }

    /** The rows `SELECT COUNT(*)` sees in the tenant table under the session as it stands. */
    function ReadTenantTable(): (rows: map<Id, TenantRow>)
      requires tenant.Some?
      reads this
      ensures session.userType == PLATFORM && !session.tenant.Garbage? ==> rows == tenant.value
    {
      map id | id in tenant.value && Admits(OpenForm(Some(tenant.value[id].tenant), session)) :: tenant.value[id]
    }

    /** `upgrade()` inside its transaction. It completes exactly for a splittable table, the new tables then
        partition the old one, and a failure leaves everything as it was. */
    method Upgrade() returns (r: Outcome)
      requires assignments.Some? && platform.None? && tenant.None? && !userTenantKey
      requires OldConstraints(refs, assignments.value)
      modifies this
      ensures r.Done? <==> Splittable(refs, old(assignments.value))
      ensures r.Done? ==> State() == Snapshot(Session(Blank, PLATFORM), None, Some(PlatformPart(old(assignments.value))),
                                              Some(TenantPart(old(assignments.value))), true)
      ensures r.Done? ==>
                HoldsPlatform(platform.value, old(assignments.value)) && HoldsTenant(tenant.value, old(assignments.value))
      ensures r.Failed? ==> State() == old(State())
      ensures r.Failed? ==> r.why in {AudienceMismatch, MissingReference, OutOfRange}
    {
      var before := State();
      PartsHoldColumns(refs, assignments.value);
      userTenantKey := true;
      platform, tenant := Some(map[]), Some(map[]);
      r := CopyAndVerify(assignments.value);
      if r.Done? {
        assignments := None;
      } else {
        Restore(before);
      }
    }

    // ------------------------------------------------------------ downgrade

    method CopyPlatformBack()
      requires assignments == Some(map[]) && platform.Some?
      requires PlatformConstraints(refs, platform.value)
      requires session.userType == PLATFORM && !session.tenant.Garbage?
      modifies this`assignments
      ensures assignments == Some(CopiesBack(platform.value, platform.value.Keys))
    {
      var pending := platform.value.Keys;
      ghost var copied: set<Id> := {};
      while pending != {}
        invariant copied !! pending && copied + pending == platform.value.Keys
        invariant assignments == Some(CopiesBack(platform.value, copied))
        decreases |pending|
      {
        var id :| id in pending;
        CopyPlatformRowBack(id, copied);
        MoveOne(copied, pending, id);
        copied, pending := copied + {id}, pending - {id};
      }
    }

    method CopyPlatformRowBack(id: Id, ghost copied: set<Id>)
      requires platform.Some? && PlatformConstraints(refs, platform.value)
      requires session.userType == PLATFORM && !session.tenant.Garbage?
      requires assignments == Some(CopiesBack(platform.value, copied))
      requires id in platform.value && id !in copied
      modifies this`assignments
      ensures assignments == Some(CopiesBack(platform.value, copied + {id}))
    {
      var row := platform.value[id];
      forall k | k in assignments.value ensures !OldClash(assignments.value[k], FromPlatform(row)) {
        assert !PlatformClash(platform.value[k], row);
      }
      assert PlatformRowOk(refs, row);
      OneMoreBack(platform.value, copied, id);
      var r := InsertOld(id, FromPlatform(row));
    }

    method CopyTenantsBack() returns (r: Outcome)
      requires platform.Some? && tenant.Some? && assignments == Some(CopiesBack(platform.value, platform.value.Keys))
      requires PlatformConstraints(refs, platform.value) && TenantConstraints(refs, tenant.value)
      requires session.userType == PLATFORM && !session.tenant.Garbage?
      modifies this`session, this`assignments
      ensures r.Done? <==> platform.value.Keys !! tenant.value.Keys
      ensures r.Done? ==> assignments == Some(Merged(platform.value, tenant.value))
      ensures r.Done? ==> session == PassSession(PlatformPass)
      ensures r.Failed? ==> r.why == DuplicateKey
    {
      r := CopyTenantRowsBack();
      if r.Failed? { return; }
      SetTenant(Blank);
      AllCopiedBack(platform.value, tenant.value);
    }

    /** Both new tables are valid and the session sees every row of them. */
    predicate TablesReadable() reads this {
      && platform.Some? && tenant.Some?
      && PlatformConstraints(refs, platform.value) && TenantConstraints(refs, tenant.value)
      && session.userType == PLATFORM && !session.tenant.Garbage?
    }

    /** The loop over the tenant table, in any order. */
    method CopyTenantRowsBack() returns (r: Outcome)
      requires TablesReadable() && assignments == Some(CopiesBack(platform.value, platform.value.Keys))
      modifies this`session, this`assignments
      ensures r.Done? <==> platform.value.Keys !! tenant.value.Keys
      ensures r.Done? ==> assignments == Some(MergedSoFar(platform.value, tenant.value, tenant.value.Keys))
      ensures session.userType == PLATFORM && !session.tenant.Garbage?
      ensures r.Failed? ==> r.why == DuplicateKey
    {
      var p, t := platform.value, tenant.value;
      var pending := t.Keys;
      MergingStarts(p, t);
      while pending != {}
        invariant TablesReadable()
        invariant Merging(p, t, pending, assignments)
        decreases |pending|
      {
        var id :| id in pending;
        r := ReadAndCopyBack(id, pending);
        if r.Failed? { return; }
        pending := pending - {id};
      }
      MergingDone(p, t, assignments);
      r := Done;
    }

    /** One turn of the cursor: every row is visible, whatever tenant the previous turn left set. */
    method ReadAndCopyBack(id: Id, ghost pending: set<Id>) returns (r: Outcome)
      requires TablesReadable() && id in pending
      requires Merging(platform.value, tenant.value, pending, assignments)
      modifies this`session, this`assignments
      ensures r.Done? <==> id !in platform.value
      ensures r.Done? ==> Merging(platform.value, tenant.value, pending - {id}, assignments)
      ensures r.Failed? ==> r.why == DuplicateKey
      ensures session == Session(TenantText(tenant.value[id].tenant), PLATFORM)
    {
      OneLess(tenant.value.Keys, pending, id);
      PlatformSees(Some(tenant.value[id].tenant), session);
      if Admits(OpenForm(Some(tenant.value[id].tenant), session)) {
        r := CopyTenantRowBack(id, tenant.value.Keys - pending);
      }
    }

    method CopyTenantRowBack(id: Id, ghost copied: set<Id>) returns (r: Outcome)
      requires platform.Some? && tenant.Some?
      requires PlatformConstraints(refs, platform.value) && TenantConstraints(refs, tenant.value)
      requires session.userType == PLATFORM && copied !! platform.value.Keys
      requires assignments == Some(MergedSoFar(platform.value, tenant.value, copied))
      requires id in tenant.value && id !in copied
      modifies this`session, this`assignments
      ensures r.Done? <==> id !in platform.value
      ensures r.Done? ==> assignments == Some(MergedSoFar(platform.value, tenant.value, copied + {id}))
      ensures r.Failed? ==> r.why == DuplicateKey
      ensures session == Session(TenantText(tenant.value[id].tenant), PLATFORM)
    {
      var row := tenant.value[id];
      SetTenant(TenantText(row.tenant));
      forall k | k in assignments.value && k !in platform.value ensures !OldClash(assignments.value[k], FromTenant(row)) {
        assert !TenantClash(tenant.value[k], row);
      }
      assert TenantRowOk(refs, row);
      if id !in platform.value { OneMoreMerged(platform.value, tenant.value, copied, id); }
      r := InsertOld(id, FromTenant(row));
    }

    /** `downgrade()` inside its transaction: it completes exactly when no id is in both tables and the tenant
        setting it starts from can be read. */
    method Downgrade() returns (r: Outcome)
      requires assignments.None? && platform.Some? && tenant.Some? && userTenantKey
      requires PlatformConstraints(refs, platform.value) && TenantConstraints(refs, tenant.value)
      modifies this
      ensures r.Done? <==> !old(session).tenant.Garbage? && old(platform.value).Keys !! old(tenant.value).Keys
      ensures r.Done? ==> State() == Downgraded(old(platform.value), old(tenant.value))
      ensures r.Done? ==> HoldsBoth(assignments.value, old(platform.value), old(tenant.value))
      ensures r.Failed? ==> State() == old(State())
      ensures r.Failed? ==> r.why == if old(session).tenant.Garbage? then InvalidSetting else DuplicateKey
    {
      var before := State();
      // The policies of both tables read the setting, and a text that is no uuid raises.
      if session.tenant.Garbage? { return Failed(InvalidSetting); }
      if platform.value.Keys !! tenant.value.Keys { MergedHoldsColumns(platform.value, tenant.value); }
      assignments := Some(map[]);
      session := session.(userType := PLATFORM);
      CopyPlatformBack();
      r := CopyTenantsBack();
      if r.Done? {
        platform, tenant, userTenantKey := None, None, false;
      } else {
        Restore(before);
      }
    }

    // ---------------------------------------------------------- round trips

    /** Upgrade, and downgrade if that succeeded: from any valid table the same table is there at the end,
        NULLs and `updated_at` included. */
    method UpgradeThenDowngrade() returns (r: Outcome)
      requires assignments.Some? && platform.None? && tenant.None? && !userTenantKey
      requires OldConstraints(refs, assignments.value)
      modifies this
      ensures r.Done? <==> Splittable(refs, old(assignments.value))
      ensures State() == old(State()).(session := session)
    {
      ghost var rows := assignments.value;
      r := Upgrade();
      if r.Done? {
        PartsKeepConstraints(refs, rows);
        SplitThenMerge(refs, rows);
        r := Downgrade();
      }
    }

    /** Downgrade, and upgrade if that succeeded: the two tables come back exactly when the downgrade completes, the
        roles have the right audience and the counters fit. A failed downgrade changes nothing; a failed upgrade
        leaves what the downgrade made. */
    method DowngradeThenUpgrade() returns (r: Outcome)
      requires assignments.None? && platform.Some? && tenant.Some? && userTenantKey
      requires PlatformConstraints(refs, platform.value) && TenantConstraints(refs, tenant.value)
      modifies this
      ensures r.Done? <==>
                && !old(session).tenant.Garbage? && old(platform.value).Keys !! old(tenant.value).Keys
                && AudiencesRight(refs, old(platform.value), old(tenant.value))
                && Fits(|old(platform.value)| + |old(tenant.value)|)
      ensures r.Done? ==> State() == old(State()).(session := session)
      ensures r.Failed? ==>
                State() == if !old(session).tenant.Garbage? && old(platform.value).Keys !! old(tenant.value).Keys
                           then Downgraded(old(platform.value), old(tenant.value)) else old(State())
    {
      ghost var p, t := platform.value, tenant.value;
      r := Downgrade();
      if r.Done? {
        MergedIsSplittable(refs, p, t);
        r := Upgrade();
      }
    }
  }

  // --------------------------------------------------------- facts used above

  /** The database after a completed downgrade. */
  function Downgraded(p: map<Id, PlatformRow>, t: map<Id, TenantRow>): Snapshot {
    Snapshot(Session(Blank, PLATFORM), Some(Merged(p, t)), None, None, false)
  }

  predicate AudiencesRight(refs: Refs, p: map<Id, PlatformRow>, t: map<Id, TenantRow>) {
    && (forall id | id in p :: p[id].role in refs.roles && refs.roles[p[id].role].PlatformAudience?)
    && (forall id | id in t :: t[id].role in refs.roles && refs.roles[t[id].role].TenantAudience?)
  }

  /** What an upgrade meets after the downgrade: a valid table whose parts are the old tables, splittable exactly
      when the audiences are right and the counters fit. */
  lemma MergedIsSplittable(refs: Refs, p: map<Id, PlatformRow>, t: map<Id, TenantRow>)
    requires PlatformConstraints(refs, p) && TenantConstraints(refs, t) && p.Keys !! t.Keys
    ensures OldConstraints(refs, Merged(p, t))
    ensures PlatformPart(Merged(p, t)) == p && TenantPart(Merged(p, t)) == t
    ensures Splittable(refs, Merged(p, t)) <==> AudiencesRight(refs, p, t) && Fits(|p| + |t|)
  {
    MergeKeepsConstraints(refs, p, t);
    MergeThenSplit(p, t);
    MergedAudiences(refs, p, t);
  }

  lemma MergedAudiences(refs: Refs, p: map<Id, PlatformRow>, t: map<Id, TenantRow>)
    requires TenantConstraints(refs, t) && p.Keys !! t.Keys
    ensures (forall id | id in Merged(p, t) ::
              AudienceMatches(refs, Merged(p, t)[id]) && UserBelongs(refs, Merged(p, t)[id]))
            <==> AudiencesRight(refs, p, t)
  {
    var rows := Merged(p, t);
    forall id | id in p ensures id in rows && rows[id] == FromPlatform(p[id]) { }
    forall id | id in t ensures id in rows && rows[id] == FromTenant(t[id]) && UserBelongs(refs, rows[id]) {
      assert TenantRowOk(refs, t[id]);
    }
  }

  /** A PLATFORM session passes the open policy, whatever tenant is set. */
  lemma PlatformSees(column: Option<Id>, s: Session)
    requires s.userType == PLATFORM && !s.tenant.Garbage?
    ensures Admits(OpenForm(column, s))
  {
  }

  /** One element of what is pending is done. */
  lemma OneLess<T>(all: set<T>, pending: set<T>, x: T)
    requires x in pending && pending <= all
    ensures (all - pending) + {x} == all - (pending - {x}) && x !in all - pending
    ensures |pending - {x}| < |pending|
  {
  }

  /** One element moves from what is pending to what is done. */
  lemma MoveOne<T>(done: set<T>, pending: set<T>, x: T)
    requires done !! pending && x in pending
    ensures (done + {x}) !! (pending - {x}) && (done + {x}) + (pending - {x}) == done + pending
    ensures |pending - {x}| < |pending|
  {
  }

  lemma OneMorePlatform(rows: map<Id, OldRow>, ids: set<Id>, id: Id)
    requires id in rows && rows[id].platformUser.Some?
    ensures PlatformCopies(rows, ids + {id}) == PlatformCopies(rows, ids)[id := ToPlatform(rows[id])]
  {
  }

  lemma OneMoreTenant(rows: map<Id, OldRow>, ids: set<Id>, id: Id)
    requires id in rows && IsTenantSide(rows[id])
    ensures TenantCopies(rows, ids + {id}) == TenantCopies(rows, ids)[id := ToTenant(rows[id])]
  {
  }

  lemma OneMoreBack(p: map<Id, PlatformRow>, ids: set<Id>, id: Id)
    requires id in p
    ensures CopiesBack(p, ids + {id}) == CopiesBack(p, ids)[id := FromPlatform(p[id])]
  {
  }

  lemma OneMoreMerged(p: map<Id, PlatformRow>, t: map<Id, TenantRow>, ids: set<Id>, id: Id)
    requires id in t && id !in p
    ensures MergedSoFar(p, t, ids + {id}) == MergedSoFar(p, t, ids)[id := FromTenant(t[id])]
  {
  }

  /** All but the pending rows of `t` are merged, and none of them has an id of `p`. */
  predicate Merging(p: map<Id, PlatformRow>, t: map<Id, TenantRow>, pending: set<Id>, table: Option<map<Id, OldRow>>) {
    pending <= t.Keys && t.Keys - pending !! p.Keys && table == Some(MergedSoFar(p, t, t.Keys - pending))
  }

  lemma MergingStarts(p: map<Id, PlatformRow>, t: map<Id, TenantRow>)
    ensures Merging(p, t, t.Keys, Some(CopiesBack(p, p.Keys)))
  {
    assert t.Keys - t.Keys == {};
    assert MergedSoFar(p, t, {}) == CopiesBack(p, p.Keys);
  }

  lemma MergingDone(p: map<Id, PlatformRow>, t: map<Id, TenantRow>, table: Option<map<Id, OldRow>>)
    requires Merging(p, t, {}, table)
    ensures t.Keys !! p.Keys && table == Some(MergedSoFar(p, t, t.Keys))
  {
    assert t.Keys - {} == t.Keys;
  }

  lemma AllPlatformCopied(rows: map<Id, OldRow>)
    ensures PlatformCopies(rows, rows.Keys) == PlatformPart(rows)
  {
  }

  lemma AllTenantCopied(rows: map<Id, OldRow>, visited: set<Id>)
    ensures TenantCopies(rows, TenantPartOf(rows, visited).Keys) == TenantPartOf(rows, visited)
  {
  }

  lemma AllCopiedBack(p: map<Id, PlatformRow>, t: map<Id, TenantRow>)
    ensures MergedSoFar(p, t, t.Keys) == Merged(p, t)
  {
  }

  /** A table is splittable when both sides are good and the total fits. */
  lemma SplittableParts(refs: Refs, rows: map<Id, OldRow>)
    requires OldConstraints(refs, rows)
    ensures Splittable(refs, rows) <==>
            && PlatformSideGood(refs, rows)
            && TenantSideGood(refs, rows, refs.tenants)
            && |PlatformPart(rows)| + |TenantPart(rows)| <= 0x7FFF_FFFF
  {
    SplitThenMerge(refs, rows);
    forall id | id in rows
      ensures if rows[id].tenant.Some? then rows[id].tenant.value in refs.tenants else rows[id].platformUser.Some?
    {
      assert OldRowOk(refs, rows[id]);
    }
  }

  lemma PlatformSelection(refs: Refs, rows: map<Id, OldRow>)
    requires OldConstraints(refs, rows)
    ensures var s := Selection(PlatformPass, rows);
            && PlatformPart(s) == PlatformPart(rows) && s.Keys == PlatformPart(rows).Keys && |s| == |PlatformPart(rows)|
            && OldConstraints(refs, s)
            && (forall id | id in s :: s[id].platformUser.Some? && id in rows && s[id] == rows[id])
            && (forall id | id in rows && rows[id].platformUser.Some? :: id in s)
  {
    PlatformSelected(refs, rows);
    var s := Selection(PlatformPass, rows);
    assert PlatformPart(s) == PlatformPart(rows);
    assert |s.Keys| == |PlatformPart(rows).Keys|;
  }

  lemma PlatformSelected(refs: Refs, rows: map<Id, OldRow>)
    requires OldConstraints(refs, rows)
    ensures Selection(PlatformPass, rows).Keys == PlatformPart(rows).Keys
  {
    forall id | id in rows ensures id in Selection(PlatformPass, rows) <==> rows[id].platformUser.Some? {
      assert OldRowOk(refs, rows[id]);
      ExactlyOnePass(refs, rows[id], PlatformPass);
    }
  }

  lemma TenantSelection(refs: Refs, rows: map<Id, OldRow>, visited: set<Id>, id: Id)
    requires OldConstraints(refs, rows) && id !in visited
    ensures var s := Selection(TenantPass(id), rows);
            && (forall k | k in s :: k in rows && IsTenantSide(rows[k]) && rows[k].tenant == Some(id))
            && (forall k | k in rows && rows[k].tenant == Some(id) :: k in s)
            && TenantPartOf(rows, visited).Keys !! s.Keys
            && TenantPartOf(rows, visited).Keys + s.Keys == TenantPartOf(rows, visited + {id}).Keys
  {
    SelectionIsTenantPart(refs, rows, id);
    forall k | k in rows && rows[k].tenant == Some(id) ensures k in Selection(TenantPass(id), rows) {
      assert OldRowOk(refs, rows[k]);
    }
  }

  predicate PlatformSideGood(refs: Refs, rows: map<Id, OldRow>) {
    forall id | id in rows && rows[id].platformUser.Some? :: AudienceMatches(refs, rows[id])
  }

  /** The rows of these tenants whose role has the wrong audience or whose user is of another tenant. */
  function Misfits(refs: Refs, rows: map<Id, OldRow>, visited: set<Id>): set<Id> {
    set k | k in rows && rows[k].tenant.Some? && rows[k].tenant.value in visited
            && !(AudienceMatches(refs, rows[k]) && UserBelongs(refs, rows[k]))
  }

  predicate TenantSideGood(refs: Refs, rows: map<Id, OldRow>, visited: set<Id>) { Misfits(refs, rows, visited) == {} }

  lemma SidesJoin(refs: Refs, rows: map<Id, OldRow>, visited: set<Id>, id: Id)
    ensures TenantSideGood(refs, rows, visited + {id}) <==>
              TenantSideGood(refs, rows, visited) && TenantSideGood(refs, rows, {id})
  {
    assert Misfits(refs, rows, visited + {id}) == Misfits(refs, rows, visited) + Misfits(refs, rows, {id});
  }

  lemma NoneCopiedYet(refs: Refs, rows: map<Id, OldRow>)
    ensures TenantPartOf(rows, {}) == map[] && TenantSideGood(refs, rows, {})
  {
  }

  lemma MisfitTenant(refs: Refs, rows: map<Id, OldRow>, id: Id)
    requires id in refs.tenants && !TenantSideGood(refs, rows, {id})
    ensures !TenantSideGood(refs, rows, refs.tenants)
  {
    assert Misfits(refs, rows, {id}) <= Misfits(refs, rows, refs.tenants);
  }

  lemma GoodSelection(refs: Refs, rows: map<Id, OldRow>, id: Id, selected: set<Id>)
    requires forall k :: k in selected <==> k in rows && rows[k].tenant == Some(id)
    ensures TenantSideGood(refs, rows, {id}) <==>
              forall k | k in selected :: AudienceMatches(refs, rows[k]) && UserBelongs(refs, rows[k])
  {
    if forall k | k in selected :: AudienceMatches(refs, rows[k]) && UserBelongs(refs, rows[k]) {
      assert Misfits(refs, rows, {id}) == {};
    } else {
      var k :| k in selected && !(AudienceMatches(refs, rows[k]) && UserBelongs(refs, rows[k]));
      assert k in Misfits(refs, rows, {id});
    }
  }

  lemma TenantCount(refs: Refs, rows: map<Id, OldRow>, visited: set<Id>, id: Id)
    requires OldConstraints(refs, rows) && id !in visited
    ensures |TenantPartOf(rows, visited)| + |Selection(TenantPass(id), rows)| == |TenantPartOf(rows, visited + {id})|
    ensures |TenantPartOf(rows, visited + {id})| <= |TenantPart(rows)|
  {
    SelectionIsTenantPart(refs, rows, id);
    assert |Selection(TenantPass(id), rows).Keys| == |TenantPartOf(rows, {id}).Keys|;
    PartGrows(rows, visited, id);
    assert TenantPartOf(rows, visited + {id}).Keys <= TenantPart(rows).Keys;
    SubsetSize(TenantPartOf(rows, visited + {id}).Keys, TenantPart(rows).Keys);
  }

  lemma AllVisited(refs: Refs, rows: map<Id, OldRow>, visited: set<Id>)
    requires OldConstraints(refs, rows) && visited == refs.tenants
    ensures TenantPartOf(rows, visited) == TenantPart(rows)
  {
    FullPart(refs, rows, visited);
    forall id | id in rows && rows[id].tenant.Some? ensures rows[id].tenant.value in visited {
      assert OldRowOk(refs, rows[id]);
    }
  }
}
