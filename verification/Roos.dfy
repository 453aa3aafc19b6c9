/** Migration 0fdfbc8871a8: every ROOS row is deleted, then the enum is rebuilt without the label. */
module Roos {
  import opened Texts
  import opened Rls
  import Rbac

  datatype Permission = Permission(module_: string, code: string)

  datatype Access = Access(tenant: Id, module_: string)

  /** (role, permission) */
  type Grant = (Id, Id)

  datatype Lookup = Lookup(listName: string, code: string)

  /** The enum as tables refer to it: under its own name, or renamed out of the way. */
  datatype TypeName = Current | Legacy

  datatype Column = Column(table: string, column: string)

  const ROOS := "ROOS"

  const SUPPORTED: seq<string> :=
    ["PRICING_OS", "PERISHABLES_ASSISTANT", "PROMOTIONS_ASSISTANT", "GOAL_CONSOLE", "ADMIN", "DIS"]

  /** The declaration order that cd2a02e452ae created and a1c4e7f09d2b extended. */
  const DECLARED: seq<string> :=
    [ "ROOS", "PRICING_OS", "PERISHABLES_ASSISTANT", "PROMOTIONS_ASSISTANT", "GOAL_CONSOLE", "ADMIN", "DIS" ]

  const PERMISSIONS_MODULE := Column("permissions", "module")
  const ACCESS_MODULE := Column("tenant_module_access", "module")

  const EXPECTED_COLUMNS: set<Column> := {PERMISSIONS_MODULE, ACCESS_MODULE}

  datatype Failure =
    | GucNotActive
    | UnexpectedColumns
    | ColumnDefaults
    | ExoticDependents
    | InvalidSetting
    | ProtectedGrant
    | RestrictViolation
    | RowsSurvive
    | CountChanged
    | InvalidLabel
    | TypeInUse
    | WrongLabels

  datatype Outcome = Done | Failed(why: Failure)

  /** Everything the migration reads and changes. */
  datatype Tables = Tables(
    roleCodes: map<Id, string>,
    permissions: map<Id, Permission>,
    grants: set<Grant>,
    access: map<Id, Access>,
    lookups: set<Lookup>)

  datatype Catalogue = Catalogue(
    labels: map<TypeName, seq<string>>,
    columns: map<Column, TypeName>,
    defaults: set<Column>,
    blocking: seq<string>)

  /** Enum columns hold declared labels, and grants name permissions. */
  predicate Consistent(t: Tables, c: Catalogue) {
    && c.labels == map[Current := DECLARED]
    && (forall k | k in c.columns :: c.columns[k].Current?)
    && (forall id | id in t.permissions :: t.permissions[id].module_ in DECLARED)
    && (forall id | id in t.access :: t.access[id].module_ in DECLARED)
    && (forall g | g in t.grants :: g.1 in t.permissions)
  }

  // ------------------------------------------------------------ what is left

  function KeptPermissions(t: Tables): map<Id, Permission> {
    map id | id in t.permissions && t.permissions[id].module_ != ROOS :: t.permissions[id]
  }

  /** A grant goes exactly when it names a ROOS permission. */
  predicate Doomed(t: Tables, g: Grant) { g.1 in t.permissions && t.permissions[g.1].module_ == ROOS }

  function KeptGrants(t: Tables): set<Grant> { set g | g in t.grants && !Doomed(t, g) }

  predicate Visible(s: Session, a: Access) { Admits(OpenForm(Some(a.tenant), s)) }

  /** The access rows left by a DELETE that sees what the session's policy admits. */
  function KeptAccess(s: Session, access: map<Id, Access>): map<Id, Access> {
    map id | id in access && !(Visible(s, access[id]) && access[id].module_ == ROOS) :: access[id]
  }

  const ROOS_LOOKUP := Lookup("module_code", ROOS)

  function Cleaned(t: Tables, s: Session): Tables {
    Tables(t.roleCodes, KeptPermissions(t), KeptGrants(t), KeptAccess(s, t.access), t.lookups - {ROOS_LOOKUP})
  }

  /** The trigger of 5e22b2ca13cc. */
  predicate Protected(t: Tables, g: Grant) {
    && g.0 in t.roleCodes && t.roleCodes[g.0] == Rbac.SUPER_ADMIN
    && g.1 in t.permissions && t.permissions[g.1].code == Rbac.OVERRIDE_GLOBAL
  }

  /** It is the one of the role tables, for the rows as they are there. */
  lemma ProtectedIsOverride(t: Tables, r: Rbac.Tables, g: Grant)
    requires t.roleCodes.Keys == r.roles.Keys && forall id | id in r.roles :: r.roles[id].code == t.roleCodes[id]
    requires t.permissions.Keys == r.permissions.Keys
    requires forall id | id in r.permissions :: r.permissions[id].code == t.permissions[id].code
    ensures Protected(t, g) <==> Rbac.IsOverrideGrant(r, g)
  {
  }

  predicate Blocked(t: Tables) { exists g | g in t.grants :: Doomed(t, g) && Protected(t, g) }

  predicate CatalogueAsExpected(c: Catalogue) {
    c.columns.Keys == EXPECTED_COLUMNS && c.defaults !! EXPECTED_COLUMNS && c.blocking == []
  }

  // --------------------------------------------------------------- verification

  function IdsWhere(access: map<Id, Access>, s: Session, roos: bool): set<Id> {
    set id | id in access && Visible(s, access[id]) && (access[id].module_ == ROOS <==> roos)
  }

  function VisibleIds(access: map<Id, Access>, s: Session): set<Id> {
    set id | id in access && Visible(s, access[id])
  }

  function NotRoos(permissions: map<Id, Permission>): set<Id> {
    set id | id in permissions && permissions[id].module_ != ROOS
  }

  function CountWhere(access: map<Id, Access>, s: Session, roos: bool): nat { |IdsWhere(access, s, roos)| }

  function CountVisible(access: map<Id, Access>, s: Session): nat { |VisibleIds(access, s)| }

  function CountKept(permissions: map<Id, Permission>): nat { |NotRoos(permissions)| }

  /** What the checks on `tenant_module_access` decide: no visible ROOS row, and as many visible rows as there
      were visible rows of other modules before. */
  predicate AccessVerified(before: map<Id, Access>, after: map<Id, Access>, s: Session) {
    CountWhere(after, s, true) == 0 && CountVisible(after, s) == CountWhere(before, s, false)
  }

  /** For what the DELETE leaves the checks always pass, whoever asks: under PLATFORM they then mean that no ROOS
      row is left; for a session that sees nothing they pass on an untouched table. */
  lemma {:induction false} VerificationIsVacuousWhenBlind(access: map<Id, Access>, s: Session)
    requires !s.tenant.Garbage?
    ensures AccessVerified(access, KeptAccess(s, access), s)
    ensures s.userType == PLATFORM ==>
              forall after: map<Id, Access> | CountWhere(after, s, true) == 0 :: forall id | id in after :: after[id].module_ != ROOS
    ensures s.userType != PLATFORM && !s.tenant.TenantText? ==>
              KeptAccess(s, access) == access && AccessVerified(access, access, s)
  {
    var after := KeptAccess(s, access);
    assert VisibleIds(after, s) == IdsWhere(access, s, false);
    NoneLeft(access, s);
    if s.userType == PLATFORM {
      forall rows: map<Id, Access> | CountWhere(rows, s, true) == 0 ensures forall id | id in rows :: rows[id].module_ != ROOS {
        AllSeen(rows, s);
      }
    } else if !s.tenant.TenantText? {
      forall id | id in access ensures !Visible(s, access[id]) { }
      assert after == access;
    }
  }

  lemma NoneLeft(access: map<Id, Access>, s: Session)
    ensures CountWhere(KeptAccess(s, access), s, true) == 0
  {
    assert IdsWhere(KeptAccess(s, access), s, true) == {};
  }

  lemma AllSeen(rows: map<Id, Access>, s: Session)
    requires s.userType == PLATFORM && !s.tenant.Garbage? && CountWhere(rows, s, true) == 0
    ensures forall id | id in rows :: rows[id].module_ != ROOS
  {
    forall id | id in rows ensures rows[id].module_ != ROOS {
      assert Visible(s, rows[id]);
      assert id !in IdsWhere(rows, s, true);
    }
  }

  /** The PLATFORM session is what makes the deletion complete. */
  lemma PlatformKeepsExactlyTheRest(access: map<Id, Access>, s: Session)
    requires s.userType == PLATFORM && !s.tenant.Garbage?
    ensures KeptAccess(s, access) == map id | id in access && access[id].module_ != ROOS :: access[id]
  {
  }

  // ----------------------------------------------------------------- enum order

  /** Whether label a sorts before label b in an enum declared like this. */
  predicate SortsBefore(labels: seq<string>, a: string, b: string) {
    exists i, j :: 0 <= i < j < |labels| && labels[i] == a && labels[j] == b
  }

  /** The declaration with one label left out. */
  function Dropped(labels: seq<string>, retired: string): seq<string> {
    if labels == [] then [] else (if labels[0] == retired then [] else [labels[0]]) + Dropped(labels[1..], retired)
  }

  lemma {:induction false} DroppedMembers(labels: seq<string>, retired: string, a: string)
    ensures a in Dropped(labels, retired) <==> a in labels && a != retired
  {
    if labels != [] {
      assert labels == [labels[0]] + labels[1..];
      DroppedMembers(labels[1..], retired, a);
    }
  }

  lemma SortsBeforeCons(head: string, tail: seq<string>, a: string, b: string)
    ensures SortsBefore([head] + tail, a, b) <==> (head == a && b in tail) || SortsBefore(tail, a, b)
  {
    var labels := [head] + tail;
    if SortsBefore(labels, a, b) {
      var i, j :| 0 <= i < j < |labels| && labels[i] == a && labels[j] == b;
      assert tail[j - 1] == b;
      if i > 0 { assert tail[i - 1] == a; }
    }
    if SortsBefore(tail, a, b) {
      var i, j :| 0 <= i < j < |tail| && tail[i] == a && tail[j] == b;
      assert labels[i + 1] == a && labels[j + 1] == b;
    }
    if head == a && b in tail {
      var j :| 0 <= j < |tail| && tail[j] == b;
      assert labels[0] == a && labels[j + 1] == b;
    }
  }

  /** Leaving a label out of a declaration changes the order of no two others. */
  lemma {:induction false} DropKeepsOrder(labels: seq<string>, retired: string, a: string, b: string)
    requires a != retired && b != retired
    ensures SortsBefore(Dropped(labels, retired), a, b) <==> SortsBefore(labels, a, b)
  {
    if labels != [] {
      var head, tail := labels[0], labels[1..];
      assert labels == [head] + tail;
      DropKeepsOrder(tail, retired, a, b);
      DroppedMembers(tail, retired, b);
      SortsBeforeCons(head, tail, a, b);
      SortsBeforeCons(head, Dropped(tail, retired), a, b);
      assert Dropped(labels, retired) == (if head == retired then Dropped(tail, retired) else [head] + Dropped(tail, retired));
    }
  }

  lemma {:induction false} NothingDropped(labels: seq<string>, retired: string)
    requires retired !in labels
    ensures Dropped(labels, retired) == labels
  {
    if labels != [] { NothingDropped(labels[1..], retired); }
  }

  /** The supported labels are the declared ones without ROOS, so any two that survive sort as they did. */
  lemma {:induction false} OrderKept(a: string, b: string)
    requires a in SUPPORTED && b in SUPPORTED
    ensures SUPPORTED == Dropped(DECLARED, ROOS)
    ensures SortsBefore(SUPPORTED, a, b) <==> SortsBefore(DECLARED, a, b)
  {
    assert ROOS !in SUPPORTED;
    assert DECLARED[1..] == SUPPORTED;
    NothingDropped(SUPPORTED, ROOS);
    DropKeepsOrder(DECLARED, ROOS, a, b);
  }

  // ------------------------------------------------------------ the migration

  class Schema {
    var session: Session
    var tables: Tables
    var catalogue: Catalogue

    constructor (session: Session, tables: Tables, catalogue: Catalogue)
      ensures this.session == session && this.tables == tables && this.catalogue == catalogue
    {
      this.session, this.tables, this.catalogue := session, tables, catalogue;
    }

    /** DELETE FROM role_permissions, row by row under the trigger. */
    method DeleteGrants() returns (r: Outcome)
      requires forall g | g in tables.grants :: g.1 in tables.permissions
      modifies this`tables
      ensures r.Done? <==> !Blocked(old(tables))
      ensures r.Done? ==> tables == old(tables).(grants := KeptGrants(old(tables)))
      ensures r.Failed? ==> r.why == ProtectedGrant
    {
      ghost var t := tables;
      var pending := set g | g in tables.grants && Doomed(tables, g);
      while pending != {}
        invariant tables == t.(grants := tables.grants)
        invariant pending <= tables.grants <= t.grants
        invariant forall g | g in pending :: Doomed(t, g)
        invariant tables.grants == KeptGrants(t) + pending
        invariant forall g | g in t.grants && Doomed(t, g) && g !in pending :: !Protected(t, g)
        decreases |pending|
      {
        var g :| g in pending;
        if Protected(tables, g) { return Failed(ProtectedGrant); }
        tables := tables.(grants := tables.grants - {g});
        pending := pending - {g};
      }
      r := Done;
    }

    /** DELETE FROM permissions; a grant left on one of the rows would raise. */
    method DeletePermissions() returns (r: Outcome)
      modifies this`tables
      ensures r.Done? <==> forall g | g in old(tables).grants :: !Doomed(old(tables), g)
      ensures r.Done? ==> tables == old(tables).(permissions := KeptPermissions(old(tables)))
      ensures r.Failed? ==> r.why == RestrictViolation
    {
      if exists g | g in tables.grants :: Doomed(tables, g) { return Failed(RestrictViolation); }
      tables := tables.(permissions := KeptPermissions(tables));
      r := Done;
    }

    /** The deletes in foreign-key order, then the checks. Under any session that does not raise the checks pass;
        it is the session that decides how much was deleted. */
    method DeleteAndVerify() returns (r: Outcome)
      requires forall g | g in tables.grants :: g.1 in tables.permissions
      modifies this`tables
      ensures r.Done? <==> !session.tenant.Garbage? && !Blocked(old(tables))
      ensures r.Done? ==> tables == Cleaned(old(tables), session)
      ensures r.Failed? ==> r.why in {InvalidSetting, ProtectedGrant}
    {
      ghost var t := tables;
      if session.tenant.Garbage? { return Failed(InvalidSetting); }
      var beforePermissions, beforeAccess := CountKept(tables.permissions), CountWhere(tables.access, session, false);
      r := DeleteGrants();
      if r.Failed? { return; }
      NothingRestricts(t);
      r := DeletePermissions();
      tables := tables.(access := KeptAccess(session, tables.access));
      tables := tables.(lookups := tables.lookups - {ROOS_LOOKUP});
      PermissionsCount(t);
      VerificationIsVacuousWhenBlind(t.access, session);
      r := Verify(beforePermissions, beforeAccess);
    }

    method Verify(beforePermissions: nat, beforeAccess: nat) returns (r: Outcome)
      ensures r.Done? <==>
                && CountKept(tables.permissions) == |tables.permissions| == beforePermissions
                && CountWhere(tables.access, session, true) == 0 && CountVisible(tables.access, session) == beforeAccess
                && ROOS_LOOKUP !in tables.lookups
    {
      if CountKept(tables.permissions) != |tables.permissions| { return Failed(RowsSurvive); }
      if CountWhere(tables.access, session, true) != 0 { return Failed(RowsSurvive); }
      if ROOS_LOOKUP in tables.lookups { return Failed(RowsSurvive); }
      if (|tables.permissions|, CountVisible(tables.access, session)) != (beforePermissions, beforeAccess) {
        return Failed(CountChanged);
      }
      r := Done;
    }

    /** The values stored in a column; no policy filters a table rewrite. */
    function Stored(c: Column): set<string>
      reads this`tables
    {
      if c == PERMISSIONS_MODULE then set id | id in tables.permissions :: tables.permissions[id].module_
      else if c == ACCESS_MODULE then set id | id in tables.access :: tables.access[id].module_
      else {}
    }

    /** Rename, recreate, cast each column, drop: no CASCADE anywhere. */
    method Rebuild() returns (r: Outcome)
      requires catalogue.labels == map[Current := DECLARED] && forall k | k in catalogue.columns :: catalogue.columns[k].Current?
      modifies this`catalogue
      ensures r.Done? <==> forall k | k in catalogue.columns :: Castable(k)
      ensures catalogue.columns.Keys == old(catalogue).columns.Keys
      ensures r.Done? ==> catalogue == old(catalogue).(labels := map[Current := SUPPORTED])
      ensures r.Failed? ==> r.why == InvalidLabel
    {
      ghost var c := catalogue;
      catalogue := catalogue.(labels := map[Legacy := catalogue.labels[Current]],
                              columns := map k | k in catalogue.columns :: Legacy);
      catalogue := catalogue.(labels := catalogue.labels[Current := SUPPORTED]);
      r := CastColumns();
      if r.Failed? { return; }
      if exists k | k in catalogue.columns :: catalogue.columns[k].Legacy? { return Failed(TypeInUse); }
      catalogue := catalogue.(labels := catalogue.labels - {Legacy});
      assert catalogue.labels == map[Current := SUPPORTED];
      assert catalogue.columns == c.columns;
      r := CheckLabels();
    }

    /** The end state: exactly the supported labels, in order, and no legacy type. */
    method CheckLabels() returns (r: Outcome)
      ensures r.Done? <==> Current in catalogue.labels && catalogue.labels[Current] == SUPPORTED && Legacy !in catalogue.labels
    {
      if Current !in catalogue.labels || catalogue.labels[Current] != SUPPORTED { return Failed(WrongLabels); }
      if Legacy in catalogue.labels { return Failed(WrongLabels); }
      r := Done;
    }

    /** ALTER COLUMN ... USING column::text::type on each column found. */
    method CastColumns() returns (r: Outcome)
      requires Current in catalogue.labels && catalogue.labels[Current] == SUPPORTED
      modifies this`catalogue
      ensures catalogue == old(catalogue).(columns := catalogue.columns)
      ensures catalogue.columns.Keys == old(catalogue).columns.Keys
      ensures r.Done? <==> forall k | k in catalogue.columns :: Castable(k)
      ensures r.Done? ==> forall k | k in catalogue.columns :: catalogue.columns[k].Current?
      ensures r.Failed? ==> r.why == InvalidLabel
    {
      ghost var c := catalogue;
      var columns := catalogue.columns;
      var pending := columns.Keys;
      while pending != {}
        invariant pending <= columns.Keys == c.columns.Keys
        invariant catalogue == c.(columns := columns)
        invariant forall k | k in columns && k !in pending :: columns[k].Current? && Castable(k)
        decreases |pending|
      {
        var k :| k in pending;
        if !Castable(k) { return Failed(InvalidLabel); }
        columns := columns[k := Current];
        catalogue := catalogue.(columns := columns);
        pending := pending - {k};
      }
      r := Done;
    }

    predicate Castable(c: Column)
      reads this`tables
    {
      forall v | v in Stored(c) :: v in SUPPORTED
    }

    /** `upgrade()` inside its transaction. */
    method Upgrade() returns (r: Outcome)
      requires Consistent(tables, catalogue)
      modifies this
      ensures r.Done? <==>
                && !old(session).tenant.Garbage? && !Blocked(old(tables))
                && old(catalogue).columns.Keys == {Column("permissions", "module"), Column("tenant_module_access", "module")}
                && (forall k | k in old(catalogue).columns :: k !in old(catalogue).defaults)
                && old(catalogue).blocking == []
      ensures r.Done? ==>
                && session == old(session).(userType := PLATFORM)
                && tables == Cleaned(old(tables), session)
                && catalogue == old(catalogue).(labels := map[Current := SUPPORTED])
      ensures r.Failed? ==> session == old(session) && tables == old(tables) && catalogue == old(catalogue)
      ensures r.Failed? ==>
                r.why in {UnexpectedColumns, ColumnDefaults, ExoticDependents, InvalidSetting, ProtectedGrant}
    {
      var before := (session, tables, catalogue);
      session := session.(userType := PLATFORM);
      r := CheckCatalogue();
      if r.Done? {
        r := DeleteAndVerify();
        if r.Done? {
          LabelsSurvive(before.1, session);
          r := Rebuild();
        }
      }
      if r.Failed? { session, tables, catalogue := before.0, before.1, before.2; }
    }

    /** The GUC and the catalogue, as far as the migration insists on them. */
    method CheckCatalogue() returns (r: Outcome)
      ensures r.Done? <==> session.userType == PLATFORM && CatalogueAsExpected(catalogue)
      ensures session.userType == PLATFORM && r.Failed? ==> r.why in {UnexpectedColumns, ColumnDefaults, ExoticDependents}
    {
      if session.userType != PLATFORM { return Failed(GucNotActive); }
      if catalogue.columns.Keys != EXPECTED_COLUMNS { return Failed(UnexpectedColumns); }
      if exists k | k in catalogue.columns :: k in catalogue.defaults { return Failed(ColumnDefaults); }
      if catalogue.blocking != [] { return Failed(ExoticDependents); }
      r := Done;
    }
  }

  // --------------------------------------------------------- facts used above

  lemma NothingRestricts(t: Tables)
    ensures var u := t.(grants := KeptGrants(t)); forall g | g in u.grants :: !Doomed(u, g)
  {
  }

  lemma PermissionsCount(t: Tables)
    ensures CountKept(KeptPermissions(t)) == |KeptPermissions(t)| == CountKept(t.permissions)
  {
    var kept := KeptPermissions(t);
    assert NotRoos(kept) == kept.Keys && NotRoos(t.permissions) == kept.Keys;
    assert |kept| == |kept.Keys|;
  }

  /** After the deletes every stored label is a supported one: the cast is total. */
  lemma LabelsSurvive(t: Tables, s: Session)
    requires s.userType == PLATFORM && !s.tenant.Garbage?
    requires forall id | id in t.permissions :: t.permissions[id].module_ in DECLARED
    requires forall id | id in t.access :: t.access[id].module_ in DECLARED
    ensures forall id | id in Cleaned(t, s).permissions :: Cleaned(t, s).permissions[id].module_ in SUPPORTED
    ensures forall id | id in Cleaned(t, s).access :: Cleaned(t, s).access[id].module_ in SUPPORTED
  {
    PlatformKeepsExactlyTheRest(t.access, s);
  }

  /** What a completed run leaves: no ROOS row anywhere, every other row as it was, and no grant on a permission
      that is gone. */
  lemma {:induction false} CleanedIsExact(t: Tables, c: Catalogue, s: Session)
    requires Consistent(t, c) && s.userType == PLATFORM && !s.tenant.Garbage?
    ensures var u := Cleaned(t, s);
            && (forall id :: id in u.permissions <==> id in t.permissions && t.permissions[id].module_ != ROOS)
            && (forall id | id in u.permissions :: u.permissions[id] == t.permissions[id])
            && (forall id :: id in u.access <==> id in t.access && t.access[id].module_ != ROOS)
            && (forall id | id in u.access :: u.access[id] == t.access[id])
            && (forall g | g in u.grants :: g in t.grants && g.1 in u.permissions)
            && (forall g | g in t.grants && g.1 in u.permissions :: g in u.grants)
            && (forall l :: l in u.lookups <==> l in t.lookups && l != ROOS_LOOKUP)
            && Consistent(u, c)
  {
    PlatformKeepsExactlyTheRest(t.access, s);
  }

  /** Had the setting not taken effect, the deletes and the checks would pass with the access rows untouched; what
      then stops the run is the cast, which no policy filters. */
  method BlindRun(db: Schema) returns (r: Outcome)
    requires Consistent(db.tables, db.catalogue) && CatalogueAsExpected(db.catalogue) && !Blocked(db.tables)
    requires db.session.userType != PLATFORM && (db.session.tenant.Unset? || db.session.tenant.Blank?)
    modifies db
    ensures db.tables.access == old(db.tables).access
    ensures r.Done? <==> forall id | id in old(db.tables).access :: old(db.tables).access[id].module_ != ROOS
    ensures r.Failed? ==> r.why == InvalidLabel
  {
    ghost var t := db.tables;
    VerificationIsVacuousWhenBlind(t.access, db.session);
    r := db.DeleteAndVerify();
    BlindLabels(t, db.tables);
    r := db.Rebuild();
  }

  lemma BlindLabels(t: Tables, u: Tables)
    requires u.permissions == KeptPermissions(t) && u.access == t.access
    requires forall id | id in t.permissions :: t.permissions[id].module_ in DECLARED
    requires forall id | id in t.access :: t.access[id].module_ in DECLARED
    ensures forall id | id in u.permissions :: u.permissions[id].module_ in SUPPORTED
    ensures ROOS !in SUPPORTED
    ensures forall id | id in u.access :: u.access[id].module_ in SUPPORTED <==> u.access[id].module_ != ROOS
  {
  }
}
