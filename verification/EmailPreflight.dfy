/** Migration f4b8c1d2e3a9: one email, one identity. */
module EmailPreflight {
  import opened Texts
  import opened Rls
  import opened Sets

  datatype TenantUser = TenantUser(tenant: Id, email: string)

  /** Rows by id; `platformUsers` maps an id to its email. */
  type TenantUsers = map<Id, TenantUser>
  type PlatformUsers = map<Id, string>

  /** `tenantEmail` is uq_tenant_users_tenant_email, `email` is uq_tenant_users_email. */
  datatype Indexes = Indexes(tenantEmail: bool, email: bool)

  predicate UniqueTenantEmail(users: TenantUsers) {
    forall i, j | i in users && j in users && users[i] == users[j] :: i == j
  }

  predicate UniqueEmail(users: TenantUsers) {
    forall i, j | i in users && j in users && users[i].email == users[j].email :: i == j
  }

  predicate Disjoint(p: PlatformUsers, t: TenantUsers) {
    forall i, j | i in p && j in t :: p[i] != t[j].email
  }

  // ------------------------------------------------------------- the queries

  /** `tenant_users` as the session's policy shows it. */
  function Visible(t: TenantUsers, s: Session): TenantUsers {
    map id | id in t && Admits(OpenForm(Some(t[id].tenant), s)) :: t[id]
  }

  function Emails(t: TenantUsers): set<string> { set id | id in t :: t[id].email }

  function RowsWith(t: TenantUsers, email: string): set<Id> { set id | id in t && t[id].email == email }

  /** GROUP BY email HAVING COUNT(*) > 1, as a map from the email to its count. */
  function Dupes(t: TenantUsers): map<string, nat> {
    map e | e in Emails(t) && |RowsWith(t, e)| > 1 :: |RowsWith(t, e)|
  }

  /** The emails of platform rows for which EXISTS a tenant row. */
  function Overlaps(p: PlatformUsers, t: TenantUsers): set<string> {
    set i | i in p && p[i] in Emails(t) :: p[i]
  }

  lemma {:induction false} Pair(t: TenantUsers, i: Id, j: Id)
    requires i in t && j in t && i != j && t[i].email == t[j].email
    ensures t[i].email in Dupes(t)
  {
    var rows := RowsWith(t, t[i].email);
    assert {i, j} <= rows;
    assert |{i, j}| == 2;
    SubsetSize({i, j}, rows);
  }

  lemma TwoOf(t: TenantUsers, e: string) returns (i: Id, j: Id)
    requires e in Dupes(t)
    ensures i in t && j in t && i != j && t[i].email == e == t[j].email
  {
    var rows := RowsWith(t, e);
    i :| i in rows;
    assert |rows - {i}| == |rows| - 1;
    j :| j in rows - {i};
  }

  /** Over the rows it sees, the pre-flight is exact: no duplicates means globally unique emails, no overlaps
      means that no email is on both sides. */
  lemma {:induction false} DetectIsExact(p: PlatformUsers, t: TenantUsers)
    ensures Dupes(t) == map[] <==> UniqueEmail(t)
    ensures Overlaps(p, t) == {} <==> Disjoint(p, t)
  {
    if Dupes(t) == map[] {
      forall i, j | i in t && j in t && t[i].email == t[j].email ensures i == j {
        if i != j { Pair(t, i, j); }
      }
    } else {
      var e :| e in Dupes(t);
      var i, j := TwoOf(t, e);
    }
    if Overlaps(p, t) == {} {
      forall i, j | i in p && j in t ensures p[i] != t[j].email {
        assert t[j].email in Emails(t);
        assert p[i] !in Overlaps(p, t);
      }
    } else {
      var e :| e in Overlaps(p, t);
      var i :| i in p && p[i] == e && e in Emails(t);
      var j :| j in t && t[j].email == e;
    }
  }

  /** What is listed: an email that two or more rows hold, with their number, and a platform email that a tenant row
      holds as well. */
  lemma {:induction false} ListsAre(p: PlatformUsers, t: TenantUsers, e: string)
    ensures e in Dupes(t) <==> |set id | id in t && t[id].email == e| >= 2
    ensures e in Dupes(t) ==> Dupes(t)[e] == |set id | id in t && t[id].email == e|
    ensures e in Overlaps(p, t) <==> (exists i | i in p :: p[i] == e) && (exists j | j in t :: t[j].email == e)
  {
    var rows := set id | id in t && t[id].email == e;
    assert rows == RowsWith(t, e);
    if |rows| >= 2 {
      var i :| i in rows;
      assert t[i].email in Emails(t);
    }
  }

  lemma PlatformSeesAll(t: TenantUsers, s: Session)
    requires s.userType == PLATFORM && !s.tenant.Garbage?
    ensures Visible(t, s) == t
  {
  }

  /** A session that is pinned to no tenant and is not PLATFORM gets two empty lists for every population. */
  lemma {:induction false} BlindDetection(p: PlatformUsers, t: TenantUsers, s: Session)
    requires s.userType != PLATFORM && !s.tenant.TenantText?
    ensures Dupes(Visible(t, s)) == map[] && Overlaps(p, Visible(t, s)) == {}
  {
    forall id | id in t ensures !Admits(OpenForm(Some(t[id].tenant), s)) { }
    assert Visible(t, s) == map[];
    assert Emails(map[]) == {};
  }

  // ------------------------------------------------------------ the migration

  datatype Failure = Violations(dupes: map<string, nat>, overlaps: set<string>) | InvalidSetting | IndexNotUnique

  datatype Outcome = Done | Failed(why: Failure)

  class Schema {
    const tenantUsers: TenantUsers
    const platformUsers: PlatformUsers
    var session: Session
    var indexes: Indexes

    constructor (tenantUsers: TenantUsers, platformUsers: PlatformUsers, session: Session)
      requires UniqueTenantEmail(tenantUsers)
      ensures this.tenantUsers == tenantUsers && this.platformUsers == platformUsers
      ensures this.session == session && indexes == Indexes(true, false) && Valid()
    {
      this.tenantUsers, this.platformUsers := tenantUsers, platformUsers;
      this.session, this.indexes := session, Indexes(true, false);
    }

    /** An index that exists is satisfied by the rows. */
    predicate Valid()
      reads this
    {
      && (indexes.tenantEmail ==> UniqueTenantEmail(tenantUsers))
      && (indexes.email ==> UniqueEmail(tenantUsers))
    }

    method CreateEmailIndex() returns (ok: bool)
      modifies this`indexes
      ensures ok <==> UniqueEmail(tenantUsers)
      ensures indexes == if ok then old(indexes).(email := true) else old(indexes)
    {
      if exists i, j | i in tenantUsers && j in tenantUsers :: i != j && tenantUsers[i].email == tenantUsers[j].email {
        return false;
      }
      indexes := indexes.(email := true);
      ok := true;
    }

    method CreateTenantEmailIndex() returns (ok: bool)
      modifies this`indexes
      ensures ok <==> UniqueTenantEmail(tenantUsers)
      ensures indexes == if ok then old(indexes).(tenantEmail := true) else old(indexes)
    {
      if exists i, j | i in tenantUsers && j in tenantUsers :: i != j && tenantUsers[i] == tenantUsers[j] {
        return false;
      }
      indexes := indexes.(tenantEmail := true);
      ok := true;
    }

    /** `detect_email_violations` under the session as it stands. */
    method Detect() returns (dupes: map<string, nat>, overlaps: set<string>)
      ensures dupes == Dupes(Visible(tenantUsers, session))
      ensures overlaps == Overlaps(platformUsers, Visible(tenantUsers, session))
    {
      var seen := Visible(tenantUsers, session);
      dupes, overlaps := Dupes(seen), Overlaps(platformUsers, seen);
    }

    /** `upgrade()`: it completes exactly when the emails are globally unique and disjoint from the platform's;
        past the pre-flight the index is always built, and a failure changes nothing. */
    method Upgrade() returns (r: Outcome)
      requires Valid()
      modifies this
      ensures Valid()
      ensures r.Done? <==>
                !old(session).tenant.Garbage? && UniqueEmail(tenantUsers) && Disjoint(platformUsers, tenantUsers)
      ensures r.Done? ==> indexes == Indexes(false, true) && session == old(session).(userType := PLATFORM)
      ensures r.Failed? ==> indexes == old(indexes) && session == old(session)
      ensures r.Failed? ==>
                r.why == if old(session).tenant.Garbage? then InvalidSetting
                         else Violations(Dupes(tenantUsers), Overlaps(platformUsers, tenantUsers))
    {
      var before := (session, indexes);
      session := session.(userType := PLATFORM);
      if session.tenant.Garbage? {
        session := before.0;
        return Failed(InvalidSetting);
      }
      PlatformSeesAll(tenantUsers, session);
      var dupes, overlaps := Detect();
      DetectIsExact(platformUsers, tenantUsers);
      if dupes != map[] || overlaps != {} {
        session := before.0;
        return Failed(Violations(dupes, overlaps));
      }
      indexes := indexes.(tenantEmail := false);
      var ok := CreateEmailIndex();
      r := if ok then Done else Failed(IndexNotUnique);
    }

    /** `downgrade()`: from the upgraded state it always succeeds. */
    method Downgrade() returns (ok: bool)
      requires Valid() && indexes == Indexes(false, true)
      modifies this`indexes
      ensures Valid() && ok && indexes == Indexes(true, false)
    {
      assert UniqueEmail(tenantUsers);
      indexes := indexes.(email := false);
      ok := CreateTenantEmailIndex();
    }
  }
}
