/** The role tables as their foreign keys, unique codes and triggers let them change. */
module Rbac {
  import opened Texts
  import opened Rls
  import opened SplitModel

  datatype RoleStatus = RoleActive | RoleInactive | RoleArchived

  datatype Scope = GlobalScope | TenantScope | RegionScope | StoreScope

  /** `branding` stands for the columns no trigger looks at. */
  datatype Role = Role(code: string, audience: Audience, status: RoleStatus, branding: string)

  datatype Permission = Permission(code: string, scope: Scope)

  type Grant = (Id, Id)

  const SUPER_ADMIN := "SUPER_ADMIN"
  const OVERRIDE_GLOBAL := "ADMIN.ROLES.OVERRIDE.GLOBAL"

  /** Assignments map an assignment's id to its role. */
  datatype Tables = Tables(
    roles: map<Id, Role>,
    permissions: map<Id, Permission>,
    grants: set<Grant>,
    platformAssignments: map<Id, Id>,
    tenantAssignments: map<Id, Id>)

  const NO_ROWS := Tables(map[], map[], {}, map[], map[])

  datatype RoleTable = RolesTable | PermissionsTable | GrantsTable | PlatformAssignmentsTable | TenantAssignmentsTable

  /** The tables that the seed reset empties, as far as they are role tables. */
  const SEED_TABLES: set<RoleTable> :=
    {PlatformAssignmentsTable, TenantAssignmentsTable, GrantsTable, PermissionsTable, RolesTable}

  /** One row changed by one statement, an update naming the row's id before and after; or a TRUNCATE of several
      tables, which fires no row trigger. */
  datatype Statement =
    | InsertRole(id: Id, role: Role)
    | UpdateRole(id: Id, to: Id, role: Role)
    | DeleteRole(id: Id)
    | InsertPermission(id: Id, permission: Permission)
    | UpdatePermission(id: Id, to: Id, permission: Permission)
    | DeletePermission(id: Id)
    | InsertGrant(grant: Grant)
    | UpdateGrant(grant: Grant, toGrant: Grant)
    | DeleteGrant(grant: Grant)
    | SetPlatformAssignment(id: Id, roleId: Id)
    | DeletePlatformAssignment(id: Id)
    | SetTenantAssignment(id: Id, roleId: Id)
    | DeleteTenantAssignment(id: Id)
    | Truncate(tables: set<RoleTable>)

  // ----------------------------------------------------------- constraints

  predicate UniqueRoleCodes(roles: map<Id, Role>) {
    forall i, j | i in roles && j in roles && roles[i].code == roles[j].code :: i == j
  }

  predicate UniquePermissionCodes(permissions: map<Id, Permission>) {
    forall i, j | i in permissions && j in permissions && permissions[i].code == permissions[j].code :: i == j
  }

  predicate RoleReferenced(t: Tables, id: Id) {
    || (exists g | g in t.grants :: g.0 == id)
    || id in t.platformAssignments.Values || id in t.tenantAssignments.Values
  }

  predicate PermissionReferenced(t: Tables, id: Id) { exists g | g in t.grants :: g.1 == id }

  /** Keys, unique codes and foreign keys. */
  predicate Integrity(t: Tables) {
    && UniqueRoleCodes(t.roles) && UniquePermissionCodes(t.permissions)
    && (forall g | g in t.grants :: g.0 in t.roles && g.1 in t.permissions)
    && (forall a | a in t.platformAssignments :: t.platformAssignments[a] in t.roles)
    && (forall a | a in t.tenantAssignments :: t.tenantAssignments[a] in t.roles)
  }

  predicate CodeFree<T>(codes: map<Id, T>, codeOf: T -> string, except: Id, code: string) {
    forall i | i in codes && codeOf(codes[i]) == code :: i == except
  }

  // ----------------------------------------------- what the triggers refuse

  /** A TENANT role and a GLOBAL permission. */
  predicate Incoherent(t: Tables, g: Grant) {
    && g.0 in t.roles && g.1 in t.permissions
    && t.roles[g.0].audience.TenantAudience? && t.permissions[g.1].scope.GlobalScope?
  }

  predicate IsOverrideGrant(t: Tables, g: Grant) {
    && g.0 in t.roles && t.roles[g.0].code == SUPER_ADMIN
    && g.1 in t.permissions && t.permissions[g.1].code == OVERRIDE_GLOBAL
  }

  /** TRUNCATE without CASCADE wants every table that refers to a listed one listed too, rows or no rows. */
  predicate ListsReferencing(tables: set<RoleTable>) {
    && (RolesTable in tables ==>
         GrantsTable in tables && PlatformAssignmentsTable in tables && TenantAssignmentsTable in tables)
    && (PermissionsTable in tables ==> GrantsTable in tables)
  }

  function Emptied(t: Tables, tables: set<RoleTable>): Tables {
    Tables(
      if RolesTable in tables then map[] else t.roles,
      if PermissionsTable in tables then map[] else t.permissions,
      if GrantsTable in tables then {} else t.grants,
      if PlatformAssignmentsTable in tables then map[] else t.platformAssignments,
      if TenantAssignmentsTable in tables then map[] else t.tenantAssignments)
  }

  /** Whether the statement goes through: triggers, then keys and foreign keys. */
  predicate Allowed(t: Tables, s: Statement) {
    match s
    case InsertRole(id, r) => id !in t.roles && CodeFree(t.roles, (x: Role) => x.code, id, r.code)
    case UpdateRole(id, to, r) =>
      && id in t.roles
      && (t.roles[id].code == SUPER_ADMIN ==>
           r.code == SUPER_ADMIN && r.status == t.roles[id].status && r.audience == t.roles[id].audience)
      && CodeFree(t.roles, (x: Role) => x.code, id, r.code)
      && (to == id || (to !in t.roles && !RoleReferenced(t, id)))
    case DeleteRole(id) => id in t.roles && t.roles[id].code != SUPER_ADMIN && !RoleReferenced(t, id)
    case InsertPermission(id, p) => id !in t.permissions && CodeFree(t.permissions, (x: Permission) => x.code, id, p.code)
    case UpdatePermission(id, to, p) =>
      && id in t.permissions && CodeFree(t.permissions, (x: Permission) => x.code, id, p.code)
      && (to == id || (to !in t.permissions && !PermissionReferenced(t, id)))
    case DeletePermission(id) => id in t.permissions && !PermissionReferenced(t, id)
    case InsertGrant(g) => g !in t.grants && g.0 in t.roles && g.1 in t.permissions && !Incoherent(t, g)
    case UpdateGrant(g, h) =>
      g in t.grants && (h == g || h !in t.grants) && h.0 in t.roles && h.1 in t.permissions && !Incoherent(t, h)
    case DeleteGrant(g) => g in t.grants && !IsOverrideGrant(t, g)
    case SetPlatformAssignment(id, r) => r in t.roles && t.roles[r].audience.PlatformAudience?
    case DeletePlatformAssignment(id) => id in t.platformAssignments
    case SetTenantAssignment(id, r) => r in t.roles && t.roles[r].audience.TenantAudience?
    case DeleteTenantAssignment(id) => id in t.tenantAssignments
    case Truncate(tables) => ListsReferencing(tables)
  }

  function Effect(t: Tables, s: Statement): Tables {
    match s
    case InsertRole(id, r) => t.(roles := t.roles[id := r])
    case UpdateRole(id, to, r) => t.(roles := (t.roles - {id})[to := r])
    case DeleteRole(id) => t.(roles := t.roles - {id})
    case InsertPermission(id, p) => t.(permissions := t.permissions[id := p])
    case UpdatePermission(id, to, p) => t.(permissions := (t.permissions - {id})[to := p])
    case DeletePermission(id) => t.(permissions := t.permissions - {id})
    case InsertGrant(g) => t.(grants := t.grants + {g})
    case UpdateGrant(g, h) => t.(grants := t.grants - {g} + {h})
    case DeleteGrant(g) => t.(grants := t.grants - {g})
    case SetPlatformAssignment(id, r) => t.(platformAssignments := t.platformAssignments[id := r])
    case DeletePlatformAssignment(id) => t.(platformAssignments := t.platformAssignments - {id})
    case SetTenantAssignment(id, r) => t.(tenantAssignments := t.tenantAssignments[id := r])
    case DeleteTenantAssignment(id) => t.(tenantAssignments := t.tenantAssignments - {id})
    case Truncate(tables) => Emptied(t, tables)
  }

  /** A refused statement changes nothing. */
  function Next(t: Tables, s: Statement): Tables { if Allowed(t, s) then Effect(t, s) else t }

  function Run(t: Tables, ss: seq<Statement>): Tables {
    if ss == [] then t else Next(Run(t, ss[..|ss| - 1]), ss[|ss| - 1])
  }

  // --------------------------------------------- what refuses a statement, and what it does

  /** The row that the statement changes is there, or for an insert or a move its key is free. */
  predicate Applies(t: Tables, s: Statement) {
    match s
    case InsertRole(id, _) => id !in t.roles
    case UpdateRole(id, to, _) => id in t.roles && (to == id || to !in t.roles)
    case DeleteRole(id) => id in t.roles
    case InsertPermission(id, _) => id !in t.permissions
    case UpdatePermission(id, to, _) => id in t.permissions && (to == id || to !in t.permissions)
    case DeletePermission(id) => id in t.permissions
    case InsertGrant(g) => g !in t.grants
    case UpdateGrant(g, h) => g in t.grants && (h == g || h !in t.grants)
    case DeleteGrant(g) => g in t.grants
    case SetPlatformAssignment(_, _) => true
    case DeletePlatformAssignment(id) => id in t.platformAssignments
    case SetTenantAssignment(_, _) => true
    case DeleteTenantAssignment(id) => id in t.tenantAssignments
    case Truncate(_) => true
  }

  /** A trigger raises: the SUPER_ADMIN role deleted or changed in a pinned column, the override grant deleted, a
      GLOBAL permission granted to a TENANT role, a role assigned on the side that is not its audience's. */
  predicate TriggerRaises(t: Tables, s: Statement) {
    match s
    case UpdateRole(id, _, r) =>
      && id in t.roles && t.roles[id].code == "SUPER_ADMIN"
      && (r.code, r.audience, r.status) != ("SUPER_ADMIN", t.roles[id].audience, t.roles[id].status)
    case DeleteRole(id) => id in t.roles && t.roles[id].code == "SUPER_ADMIN"
    case InsertGrant(g) => Incoherent(t, g)
    case UpdateGrant(_, h) => Incoherent(t, h)
    case DeleteGrant(g) =>
      && g.0 in t.roles && t.roles[g.0].code == "SUPER_ADMIN"
      && g.1 in t.permissions && t.permissions[g.1].code == "ADMIN.ROLES.OVERRIDE.GLOBAL"
    case SetPlatformAssignment(_, r) => !(r in t.roles && t.roles[r].audience.PlatformAudience?)
    case SetTenantAssignment(_, r) => !(r in t.roles && t.roles[r].audience.TenantAudience?)
    case _ => false
  }

  /** From a sound database a row statement goes through exactly when it applies, no trigger raises, and every unique
      code and foreign key holds afterwards. */
  lemma {:induction false} AllowedExactly(t: Tables, s: Statement)
    requires Integrity(t) && !s.Truncate?
    ensures Allowed(t, s) <==> Applies(t, s) && !TriggerRaises(t, s) && Integrity(Effect(t, s))
  {
    if Allowed(t, s) {
      IntegrityStep(t, s);
    } else if Applies(t, s) && !TriggerRaises(t, s) {
      RefusedBreaksIntegrity(t, s);
    }
  }

  lemma RefusedBreaksIntegrity(t: Tables, s: Statement)
    requires Integrity(t) && !s.Truncate? && Applies(t, s) && !TriggerRaises(t, s) && !Allowed(t, s)
    ensures !Integrity(Effect(t, s))
  {
    match s
    case UpdateRole(id, to, r) => RefusedRoleUpdate(t, id, to, r);
    case UpdatePermission(id, to, p) => RefusedPermissionUpdate(t, id, to, p);
    case DeleteRole(id) => RefusedRoleDelete(t, id);
    case _ => RefusedRow(t, s);
  }

  lemma RefusedRoleUpdate(t: Tables, id: Id, to: Id, r: Role)
    requires Integrity(t) && Applies(t, UpdateRole(id, to, r)) && !TriggerRaises(t, UpdateRole(id, to, r))
    requires !Allowed(t, UpdateRole(id, to, r))
    ensures !Integrity(Effect(t, UpdateRole(id, to, r)))
  {
    var u := Effect(t, UpdateRole(id, to, r));
    assert to in u.roles && u.roles[to] == r;
    if !CodeFree(t.roles, (x: Role) => x.code, id, r.code) {
      var i :| i in t.roles && t.roles[i].code == r.code && i != id;
      assert i in u.roles && u.roles[i].code == u.roles[to].code;
    } else {
      assert to != id && RoleReferenced(t, id) && id !in u.roles;
    }
  }

  lemma RefusedPermissionUpdate(t: Tables, id: Id, to: Id, p: Permission)
    requires Integrity(t) && Applies(t, UpdatePermission(id, to, p)) && !Allowed(t, UpdatePermission(id, to, p))
    ensures !Integrity(Effect(t, UpdatePermission(id, to, p)))
  {
    var u := Effect(t, UpdatePermission(id, to, p));
    assert to in u.permissions && u.permissions[to] == p;
    if !CodeFree(t.permissions, (x: Permission) => x.code, id, p.code) {
      var i :| i in t.permissions && t.permissions[i].code == p.code && i != id;
      assert i in u.permissions && u.permissions[i].code == u.permissions[to].code;
    } else {
      assert to != id && PermissionReferenced(t, id) && id !in u.permissions;
    }
  }

  lemma RefusedRoleDelete(t: Tables, id: Id)
    requires Integrity(t) && id in t.roles && RoleReferenced(t, id)
    ensures !Integrity(Effect(t, DeleteRole(id)))
  {
  }

  /** The statements on single rows that no key of their own can move. */
  lemma RefusedRow(t: Tables, s: Statement)
    requires Integrity(t) && Applies(t, s) && !TriggerRaises(t, s) && !Allowed(t, s)
    requires !s.UpdateRole? && !s.UpdatePermission? && !s.DeleteRole? && !s.Truncate?
    ensures !Integrity(Effect(t, s))
  {
    match s
    case InsertRole(id, r) =>
      var i :| i in t.roles && t.roles[i].code == r.code && i != id;
      assert id in Effect(t, s).roles && i in Effect(t, s).roles;
    case InsertPermission(id, p) =>
      var i :| i in t.permissions && t.permissions[i].code == p.code && i != id;
      assert id in Effect(t, s).permissions && i in Effect(t, s).permissions;
    case InsertGrant(g) => assert g in Effect(t, s).grants;
    case UpdateGrant(g, h) => assert h in Effect(t, s).grants;
    case _ =>
  }

  // ------------------------------------------------------------- invariants

  lemma IntegrityStep(t: Tables, s: Statement)
    requires Integrity(t)
    ensures Integrity(Next(t, s))
  {
    if Allowed(t, s) {
      match s
      case UpdateRole(id, to, r) => RoleUpdateIntegrity(t, id, to, r);
      case UpdatePermission(id, to, p) => PermissionUpdateIntegrity(t, id, to, p);
      case DeleteRole(id) => RoleDeleteIntegrity(t, id);
      case InsertRole(_, _) => InsertIntegrity(t, s);
      case InsertPermission(_, _) => InsertIntegrity(t, s);
      case _ => RowIntegrity(t, s);
    }
  }

  lemma InsertIntegrity(t: Tables, s: Statement)
    requires Integrity(t) && Allowed(t, s) && (s.InsertRole? || s.InsertPermission?)
    ensures Integrity(Effect(t, s))
  {
  }

  /** Statements that leave the codes alone. */
  lemma RowIntegrity(t: Tables, s: Statement)
    requires Integrity(t) && Allowed(t, s)
    requires !s.InsertRole? && !s.UpdateRole? && !s.DeleteRole? && !s.InsertPermission? && !s.UpdatePermission?
    ensures Integrity(Effect(t, s))
  {
  }

  lemma RoleDeleteIntegrity(t: Tables, id: Id)
    requires Integrity(t) && Allowed(t, DeleteRole(id))
    ensures Integrity(Effect(t, DeleteRole(id)))
  {
  }

  lemma RoleUpdateIntegrity(t: Tables, id: Id, to: Id, r: Role)
    requires Integrity(t) && Allowed(t, UpdateRole(id, to, r))
    ensures Integrity(Effect(t, UpdateRole(id, to, r)))
  {
  }

  lemma PermissionUpdateIntegrity(t: Tables, id: Id, to: Id, p: Permission)
    requires Integrity(t) && Allowed(t, UpdatePermission(id, to, p))
    ensures Integrity(Effect(t, UpdatePermission(id, to, p)))
  {
  }

  lemma {:induction false} IntegrityRun(t: Tables, ss: seq<Statement>)
    requires Integrity(t)
    ensures Integrity(Run(t, ss))
  {
    if ss != [] {
      IntegrityRun(t, ss[..|ss| - 1]);
      IntegrityStep(Run(t, ss[..|ss| - 1]), ss[|ss| - 1]);
    }
  }

  /** No TENANT role holds a GLOBAL permission, and assignments match their role's audience. */
  predicate Coherent(t: Tables) { GrantsCoherent(t) && AssignmentsCoherent(t) }

  predicate GrantsCoherent(t: Tables) { forall g | g in t.grants :: !Incoherent(t, g) }

  predicate AssignmentsCoherent(t: Tables) {
    && (forall a | a in t.platformAssignments ::
         t.platformAssignments[a] in t.roles && t.roles[t.platformAssignments[a]].audience.PlatformAudience?)
    && (forall a | a in t.tenantAssignments ::
         t.tenantAssignments[a] in t.roles && t.roles[t.tenantAssignments[a]].audience.TenantAudience?)
  }

  /** What no trigger watches: turning a role TENANT while it holds a GLOBAL permission or is assigned on the
      platform side, turning it PLATFORM while it is assigned on the tenant side, and turning a permission
      GLOBAL while a TENANT role holds it. */
  predicate BreaksCoherence(t: Tables, s: Statement) {
    match s
    case UpdateRole(id, to, r) =>
      && id in t.roles && r.audience != t.roles[id].audience
      && if r.audience.TenantAudience?
         then (id in t.platformAssignments.Values ||
               exists g | g in t.grants :: g.0 == id && g.1 in t.permissions && t.permissions[g.1].scope.GlobalScope?)
         else id in t.tenantAssignments.Values
    case UpdatePermission(id, to, p) =>
      && id in t.permissions && p.scope.GlobalScope?
      && exists g | g in t.grants :: g.1 == id && g.0 in t.roles && t.roles[g.0].audience.TenantAudience?
    case _ => false
  }

  /** From a good state a statement that goes through ends in a bad one exactly when it is one of those. */
  lemma {:induction false} CoherenceBreaksExactly(t: Tables, s: Statement)
    requires Integrity(t) && Coherent(t) && Allowed(t, s)
    ensures !Coherent(Effect(t, s)) <==> BreaksCoherence(t, s)
  {
    match s
    case UpdateRole(id, to, r) => RoleUpdateCoherence(t, id, to, r);
    case UpdatePermission(id, to, p) => PermissionUpdateCoherence(t, id, to, p);
    case _ =>
      OtherCoherence(t, s);
  }

  lemma OtherCoherence(t: Tables, s: Statement)
    requires Integrity(t) && Coherent(t) && Allowed(t, s) && !s.UpdateRole? && !s.UpdatePermission?
    ensures Coherent(Effect(t, s))
  {
  }

  lemma RoleUpdateCoherence(t: Tables, id: Id, to: Id, r: Role)
    requires Integrity(t) && Coherent(t) && Allowed(t, UpdateRole(id, to, r))
    ensures !Coherent(Effect(t, UpdateRole(id, to, r))) <==> BreaksCoherence(t, UpdateRole(id, to, r))
  {
  }

  lemma PermissionUpdateCoherence(t: Tables, id: Id, to: Id, p: Permission)
    requires Integrity(t) && Coherent(t) && Allowed(t, UpdatePermission(id, to, p))
    ensures !Coherent(Effect(t, UpdatePermission(id, to, p))) <==> BreaksCoherence(t, UpdatePermission(id, to, p))
  {
  }

  /** The columns the invariants rest on keep their values: no role changes audience, no permission its scope or
      its code. */
  predicate CatalogueFixed(t: Tables, s: Statement) {
    && (s.UpdateRole? && s.id in t.roles ==> s.role.audience == t.roles[s.id].audience)
    && (s.UpdatePermission? && s.id in t.permissions ==>
         s.permission.scope == t.permissions[s.id].scope && s.permission.code == t.permissions[s.id].code)
  }

  predicate FixedRun(t: Tables, ss: seq<Statement>) {
    ss != [] ==> FixedRun(t, ss[..|ss| - 1]) && CatalogueFixed(Run(t, ss[..|ss| - 1]), ss[|ss| - 1])
  }

  /** Along every run that keeps those columns both invariants hold. */
  lemma {:induction false} CoherentRuns(t: Tables, ss: seq<Statement>)
    requires Integrity(t) && Coherent(t) && FixedRun(t, ss)
    ensures Coherent(Run(t, ss))
  {
    if ss != [] {
      var init, last := ss[..|ss| - 1], ss[|ss| - 1];
      CoherentRuns(t, init);
      IntegrityRun(t, init);
      if Allowed(Run(t, init), last) {
        CoherenceBreaksExactly(Run(t, init), last);
        FixedBreaksNothing(Run(t, init), last);
      }
    }
  }

  lemma FixedBreaksNothing(t: Tables, s: Statement)
    requires Integrity(t) && Coherent(t) && CatalogueFixed(t, s)
    ensures !BreaksCoherence(t, s)
  {
  }

  // ------------------------------------------------------------ SUPER_ADMIN

  /** The SUPER_ADMIN role is there, with this audience and status, under whatever id. */
  predicate HasSuperAdmin(t: Tables, audience: Audience, status: RoleStatus) {
    exists id | id in t.roles :: t.roles[id].code == SUPER_ADMIN && t.roles[id].audience == audience && t.roles[id].status == status
  }

  predicate HasOverride(t: Tables) { exists g | g in t.grants :: IsOverrideGrant(t, g) }

  /** A statement that goes through takes the SUPER_ADMIN role away, or changes its code, audience or status,
      exactly when it truncates the table of roles. */
  lemma {:induction false} SuperAdminLostExactly(t: Tables, s: Statement, audience: Audience, status: RoleStatus)
    requires HasSuperAdmin(t, audience, status) && Allowed(t, s)
    ensures !HasSuperAdmin(Effect(t, s), audience, status) <==> s.Truncate? && RolesTable in s.tables
  {
    if !(s.Truncate? && RolesTable in s.tables) {
      var id :| id in t.roles && t.roles[id].code == SUPER_ADMIN && t.roles[id].audience == audience && t.roles[id].status == status;
      var now := if s.UpdateRole? && s.id == id then s.to else id;
      assert now in Effect(t, s).roles && Effect(t, s).roles[now].code == SUPER_ADMIN;
    }
  }

  predicate KeepsRolesTable(ss: seq<Statement>) {
    forall i :: 0 <= i < |ss| ==> !(ss[i].Truncate? && RolesTable in ss[i].tables)
  }

  /** Once present, the SUPER_ADMIN role keeps its code, audience and status through every run that does not
      truncate the table of roles. */
  lemma {:induction false} SuperAdminIsForever(t: Tables, ss: seq<Statement>, audience: Audience, status: RoleStatus)
    requires HasSuperAdmin(t, audience, status) && KeepsRolesTable(ss)
    ensures HasSuperAdmin(Run(t, ss), audience, status)
  {
    if ss != [] {
      var init := ss[..|ss| - 1];
      assert forall i :: 0 <= i < |init| ==> init[i] == ss[i];
      SuperAdminIsForever(t, init, audience, status);
      if Allowed(Run(t, init), ss[|ss| - 1]) {
        SuperAdminLostExactly(Run(t, init), ss[|ss| - 1], audience, status);
      }
    }
  }

  /** What takes the override grant away in spite of the trigger on DELETE: an UPDATE that moves the grant
      elsewhere, one that gives the permission another code, or a TRUNCATE that lists the grants. */
  predicate LosesOverride(t: Tables, s: Statement) {
    || (s.Truncate? && GrantsTable in s.tables)
    || (s.UpdateGrant? && IsOverrideGrant(t, s.grant) && s.toGrant != s.grant)
    || (s.UpdatePermission? && s.id in t.permissions && t.permissions[s.id].code == OVERRIDE_GLOBAL
        && s.permission.code != OVERRIDE_GLOBAL)
  }

  lemma OverrideIsUnique(t: Tables, g: Grant, h: Grant)
    requires Integrity(t) && IsOverrideGrant(t, g) && IsOverrideGrant(t, h)
    ensures g == h
  {
  }

  lemma OverrideKept(t: Tables, s: Statement, g: Grant)
    requires Integrity(t) && g in t.grants && IsOverrideGrant(t, g) && Allowed(t, s) && !LosesOverride(t, s)
    ensures g in Effect(t, s).grants && IsOverrideGrant(Effect(t, s), g)
  {
  }

  lemma OverrideLost(t: Tables, s: Statement, h: Grant)
    requires Integrity(t) && HasOverride(t) && Allowed(t, s) && LosesOverride(t, s)
    ensures !(h in Effect(t, s).grants && IsOverrideGrant(Effect(t, s), h))
  {
    var g :| g in t.grants && IsOverrideGrant(t, g);
  }

  /** A statement that goes through takes the grant away exactly when it is one of those three. */
  lemma {:induction false} OverrideLostExactly(t: Tables, s: Statement)
    requires Integrity(t) && HasOverride(t) && Allowed(t, s)
    ensures !HasOverride(Effect(t, s)) <==> LosesOverride(t, s)
  {
    if LosesOverride(t, s) {
      forall h | h in Effect(t, s).grants ensures !IsOverrideGrant(Effect(t, s), h) { OverrideLost(t, s, h); }
    } else {
      var g :| g in t.grants && IsOverrideGrant(t, g);
      OverrideKept(t, s, g);
    }
  }

  /** `role_permissions` changes by inserting and deleting rows alone, and the permission codes are fixed. */
  predicate NoGrantUpdates(t: Tables, ss: seq<Statement>) {
    FixedRun(t, ss) && forall i :: 0 <= i < |ss| ==> !ss[i].UpdateGrant? && !(ss[i].Truncate? && GrantsTable in ss[i].tables)
  }

  /** Then the override grant, once present, is present for ever. */
  lemma {:induction false} OverrideIsForever(t: Tables, ss: seq<Statement>)
    requires Integrity(t) && HasOverride(t) && NoGrantUpdates(t, ss)
    ensures HasOverride(Run(t, ss))
  {
    if ss != [] {
      var init, last := ss[..|ss| - 1], ss[|ss| - 1];
      assert forall i :: 0 <= i < |init| ==> init[i] == ss[i];
      OverrideIsForever(t, init);
      IntegrityRun(t, init);
      if Allowed(Run(t, init), last) { OverrideLostExactly(Run(t, init), last); }
    }
  }

  /** The trigger guards DELETE only: moving the grant to another permission is allowed, and then deleting it is. */
  lemma GrantEscapesThroughUpdate(t: Tables, g: Grant, h: Grant)
    requires Integrity(t) && Coherent(t) && g in t.grants && IsOverrideGrant(t, g)
    requires h.0 == g.0 && h.1 in t.permissions && h.1 != g.1 && h !in t.grants && t.roles[g.0].audience.PlatformAudience?
    ensures Run(t, [UpdateGrant(g, h), DeleteGrant(h)]).grants == t.grants - {g}
    ensures !HasOverride(Run(t, [UpdateGrant(g, h), DeleteGrant(h)]))
  {
    var ss := [UpdateGrant(g, h), DeleteGrant(h)];
    var first := [UpdateGrant(g, h)];
    assert ss[..1] == first && first[..0] == [];
    assert Run(t, []) == t && Run(t, first) == Next(t, UpdateGrant(g, h));
    forall k | k in t.grants - {g} ensures !IsOverrideGrant(t, k) {
      if IsOverrideGrant(t, k) { OverrideIsUnique(t, g, k); }
    }
  }

  /** A database as it is after bootstrap, with nothing but the two protected rows and the permission. */
  const BOOTSTRAP := Tables(
    map[1 := Role(SUPER_ADMIN, PlatformAudience, RoleActive, "Super Admin")],
    map[2 := Permission(OVERRIDE_GLOBAL, GlobalScope)], {(1, 2)}, map[], map[])

  /** It is sound and has both. */
  lemma BootstrapIsSound()
    ensures Integrity(BOOTSTRAP) && Coherent(BOOTSTRAP)
    ensures HasSuperAdmin(BOOTSTRAP, PlatformAudience, RoleActive) && HasOverride(BOOTSTRAP)
  {
    assert 1 in BOOTSTRAP.roles && (1, 2) in BOOTSTRAP.grants && IsOverrideGrant(BOOTSTRAP, (1, 2));
  }

  /** The reset of the development seed gets past every trigger: whatever the run before it, it goes through and
      leaves no row, so neither the SUPER_ADMIN role nor the override grant. */
  lemma {:induction false} SeedResetLosesBoth(t: Tables, ss: seq<Statement>)
    ensures Allowed(Run(t, ss), Truncate(SEED_TABLES))
    ensures Run(t, ss + [Truncate(SEED_TABLES)]) == NO_ROWS
    ensures !HasOverride(NO_ROWS) && forall a, s :: !HasSuperAdmin(NO_ROWS, a, s)
  {
    var reset := ss + [Truncate(SEED_TABLES)];
    assert reset[..|reset| - 1] == ss;
  }

  // -------------------------------------------------------- the trigger bodies

  class RoleTables {
    var roles: map<Id, Role>
    var permissions: map<Id, Permission>
    var grants: set<Grant>
    var platformAssignments: map<Id, Id>
    var tenantAssignments: map<Id, Id>

    constructor ()
      ensures State() == NO_ROWS
    {
      roles, permissions, grants, platformAssignments, tenantAssignments := map[], map[], {}, map[], map[];
    }

    function State(): Tables
      reads this
    {
      Tables(roles, permissions, grants, platformAssignments, tenantAssignments)
    }

    /** BEFORE INSERT OR UPDATE OF role_id, permission_id ON role_permissions. */
    method EnforceRoleAudienceScopeCoherence(new_: Grant) returns (raises: bool)
      ensures raises <==> Incoherent(State(), new_)
      ensures GrantsCoherent(State()) ==>
                (raises <==> !GrantsCoherent(State().(grants := State().grants + {new_})))
    {
      var roleAudience: Option<Audience> := if new_.0 in roles then Some(roles[new_.0].audience) else None;
      var permissionScope: Option<Scope> := if new_.1 in permissions then Some(permissions[new_.1].scope) else None;
      raises := roleAudience == Some(TenantAudience) && permissionScope == Some(GlobalScope);
      OneMoreGrant(State(), new_);
    }

    /** BEFORE DELETE ON role_permissions; an id that is not found is NULL and equals nothing. */
    method ProtectSuperAdminOverrideGlobalGrant(old_: Grant) returns (raises: bool)
      requires Integrity(State())
      ensures raises <==> IsOverrideGrant(State(), old_)
    {
      var superAdminId, overrideId: Option<Id> := None, None;
      if exists id | id in roles :: roles[id].code == SUPER_ADMIN {
        var id :| id in roles && roles[id].code == SUPER_ADMIN;
        superAdminId := Some(id);
      }
      if exists id | id in permissions :: permissions[id].code == OVERRIDE_GLOBAL {
        var id :| id in permissions && permissions[id].code == OVERRIDE_GLOBAL;
        overrideId := Some(id);
      }
      raises := superAdminId == Some(old_.0) && overrideId == Some(old_.1);
    }

    /** BEFORE UPDATE OR DELETE ON roles, fired by a statement on this row. For the SUPER_ADMIN role it raises exactly
        when the statement would leave no SUPER_ADMIN role with the audience and status it has now, and for any other
        role never. */
    method ProtectSuperAdminRole(id: Id, s: Statement) returns (raises: bool)
      requires id in roles && UniqueRoleCodes(roles)
      requires (s.DeleteRole? || s.UpdateRole?) && s.id == id
      ensures roles[id].code == SUPER_ADMIN ==>
                (raises <==> !HasSuperAdmin(Effect(State(), s), roles[id].audience, roles[id].status))
      ensures roles[id].code != SUPER_ADMIN ==> !raises
    {
      var old_ := roles[id];
      match s {
        case DeleteRole(_) => raises := old_.code == SUPER_ADMIN;
        case UpdateRole(_, _, new_) =>
          raises := old_.code == SUPER_ADMIN &&
            (new_.code != old_.code || new_.status != old_.status || new_.audience != old_.audience);
      }
      SuperAdminAfter(State(), s);
    }

    /** BEFORE INSERT OR UPDATE OF role_id ON tenant_user_role_assignments; a missing role has a NULL audience. It
        raises exactly when the row would break the rule that assignments match their role's audience. */
    method EnforceTenantRoleAudience(id: Id, roleId: Id) returns (raises: bool)
      ensures !raises <==> Allowed(State(), Statement.SetTenantAssignment(id, roleId))
      ensures AssignmentsCoherent(State()) ==>
                (raises <==> !AssignmentsCoherent(Effect(State(), Statement.SetTenantAssignment(id, roleId))))
    {
      var found: Option<Audience> := if roleId in roles then Some(roles[roleId].audience) else None;
      raises := found != Some(TenantAudience);
      if AssignmentsCoherent(State()) { OneMoreAssignment(State(), id, roleId); }
    }

    /** The same BEFORE INSERT OR UPDATE OF role_id ON platform_user_role_assignments. */
    method EnforcePlatformRoleAudience(id: Id, roleId: Id) returns (raises: bool)
      ensures !raises <==> Allowed(State(), Statement.SetPlatformAssignment(id, roleId))
      ensures AssignmentsCoherent(State()) ==>
                (raises <==> !AssignmentsCoherent(Effect(State(), Statement.SetPlatformAssignment(id, roleId))))
    {
      var found: Option<Audience> := if roleId in roles then Some(roles[roleId].audience) else None;
      raises := found != Some(PlatformAudience);
      if AssignmentsCoherent(State()) { OneMoreAssignment(State(), id, roleId); }
    }

    method InsertGrant(g: Grant) returns (ok: bool)
      requires Integrity(State())
      modifies this`grants
      ensures ok <==> Allowed(old(State()), Statement.InsertGrant(g))
      ensures State() == Next(old(State()), Statement.InsertGrant(g))
    {
      var raises := EnforceRoleAudienceScopeCoherence(g);
      if raises || g in grants || g.0 !in roles || g.1 !in permissions { return false; }
      grants := grants + {g};
      ok := true;
    }

    method UpdateGrant(g: Grant, h: Grant) returns (ok: bool)
      requires Integrity(State())
      modifies this`grants
      ensures ok <==> Allowed(old(State()), Statement.UpdateGrant(g, h))
      ensures State() == Next(old(State()), Statement.UpdateGrant(g, h))
    {
      if g !in grants { return false; }
      var raises := EnforceRoleAudienceScopeCoherence(h);
      if raises || (h != g && h in grants) || h.0 !in roles || h.1 !in permissions { return false; }
      grants := grants - {g} + {h};
      ok := true;
    }

    method DeleteGrant(g: Grant) returns (ok: bool)
      requires Integrity(State())
      modifies this`grants
      ensures ok <==> Allowed(old(State()), Statement.DeleteGrant(g))
      ensures State() == Next(old(State()), Statement.DeleteGrant(g))
    {
      if g !in grants { return false; }
      var raises := ProtectSuperAdminOverrideGlobalGrant(g);
      if raises { return false; }
      grants := grants - {g};
      ok := true;
    }

    method UpdateRole(id: Id, to: Id, r: Role) returns (ok: bool)
      requires Integrity(State())
      modifies this`roles
      ensures ok <==> Allowed(old(State()), Statement.UpdateRole(id, to, r))
      ensures State() == Next(old(State()), Statement.UpdateRole(id, to, r))
    {
      if id !in roles { return false; }
      SuperAdminAfter(State(), Statement.UpdateRole(id, to, r));
      var raises := ProtectSuperAdminRole(id, Statement.UpdateRole(id, to, r));
      if raises { return false; }
      if exists i | i in roles :: roles[i].code == r.code && i != id { return false; }
      if to != id && (to in roles || RoleReferenced(State(), id)) { return false; }
      roles := (roles - {id})[to := r];
      ok := true;
    }

    method DeleteRole(id: Id) returns (ok: bool)
      requires Integrity(State())
      modifies this`roles
      ensures ok <==> Allowed(old(State()), Statement.DeleteRole(id))
      ensures State() == Next(old(State()), Statement.DeleteRole(id))
    {
      if id !in roles { return false; }
      SuperAdminAfter(State(), Statement.DeleteRole(id));
      var raises := ProtectSuperAdminRole(id, Statement.DeleteRole(id));
      if raises || RoleReferenced(State(), id) { return false; }
      roles := roles - {id};
      ok := true;
    }

    method SetPlatformAssignment(id: Id, roleId: Id) returns (ok: bool)
      modifies this`platformAssignments
      ensures ok <==> Allowed(old(State()), Statement.SetPlatformAssignment(id, roleId))
      ensures State() == Next(old(State()), Statement.SetPlatformAssignment(id, roleId))
    {
      var raises := EnforcePlatformRoleAudience(id, roleId);
      if raises { return false; }
      platformAssignments := platformAssignments[id := roleId];
      ok := true;
    }

    method SetTenantAssignment(id: Id, roleId: Id) returns (ok: bool)
      modifies this`tenantAssignments
      ensures ok <==> Allowed(old(State()), Statement.SetTenantAssignment(id, roleId))
      ensures State() == Next(old(State()), Statement.SetTenantAssignment(id, roleId))
    {
      var raises := EnforceTenantRoleAudience(id, roleId);
      if raises { return false; }
      tenantAssignments := tenantAssignments[id := roleId];
      ok := true;
    }

    method InsertRole(id: Id, r: Role) returns (ok: bool)
      requires Integrity(State())
      modifies this`roles
      ensures ok <==> Allowed(old(State()), Statement.InsertRole(id, r))
      ensures State() == Next(old(State()), Statement.InsertRole(id, r))
    {
      if id in roles || exists i | i in roles :: roles[i].code == r.code { return false; }
      roles := roles[id := r];
      ok := true;
    }

    method InsertPermission(id: Id, p: Permission) returns (ok: bool)
      requires Integrity(State())
      modifies this`permissions
      ensures ok <==> Allowed(old(State()), Statement.InsertPermission(id, p))
      ensures State() == Next(old(State()), Statement.InsertPermission(id, p))
    {
      if id in permissions || exists i | i in permissions :: permissions[i].code == p.code { return false; }
      permissions := permissions[id := p];
      ok := true;
    }

    method UpdatePermission(id: Id, to: Id, p: Permission) returns (ok: bool)
      requires Integrity(State())
      modifies this`permissions
      ensures ok <==> Allowed(old(State()), Statement.UpdatePermission(id, to, p))
      ensures State() == Next(old(State()), Statement.UpdatePermission(id, to, p))
    {
      if id !in permissions { return false; }
      if exists i | i in permissions :: permissions[i].code == p.code && i != id { return false; }
      if to != id && (to in permissions || PermissionReferenced(State(), id)) { return false; }
      permissions := (permissions - {id})[to := p];
      ok := true;
    }

    method DeletePermission(id: Id) returns (ok: bool)
      requires Integrity(State())
      modifies this`permissions
      ensures ok <==> Allowed(old(State()), Statement.DeletePermission(id))
      ensures State() == Next(old(State()), Statement.DeletePermission(id))
    {
      if id !in permissions || PermissionReferenced(State(), id) { return false; }
      permissions := permissions - {id};
      ok := true;
    }

    method DeletePlatformAssignment(id: Id) returns (ok: bool)
      modifies this`platformAssignments
      ensures ok <==> Allowed(old(State()), Statement.DeletePlatformAssignment(id))
      ensures State() == Next(old(State()), Statement.DeletePlatformAssignment(id))
    {
      ok := id in platformAssignments;
      platformAssignments := platformAssignments - {id};
    }

    method DeleteTenantAssignment(id: Id) returns (ok: bool)
      modifies this`tenantAssignments
      ensures ok <==> Allowed(old(State()), Statement.DeleteTenantAssignment(id))
      ensures State() == Next(old(State()), Statement.DeleteTenantAssignment(id))
    {
      ok := id in tenantAssignments;
      tenantAssignments := tenantAssignments - {id};
    }

    /** TRUNCATE consults the foreign keys between tables and no row trigger. */
    method Truncate(tables: set<RoleTable>) returns (ok: bool)
      modifies this
      ensures ok <==> Allowed(old(State()), Statement.Truncate(tables))
      ensures State() == Next(old(State()), Statement.Truncate(tables))
    {
      if !ListsReferencing(tables) { return false; }
      if RolesTable in tables { roles := map[]; }
      if PermissionsTable in tables { permissions := map[]; }
      if GrantsTable in tables { grants := {}; }
      if PlatformAssignmentsTable in tables { platformAssignments := map[]; }
      if TenantAssignmentsTable in tables { tenantAssignments := map[]; }
      ok := true;
    }
  }

  // --------------------------------------------------------- facts used above

  /** Codes being unique, the SUPER_ADMIN role is gone after its row is deleted or differs in a pinned column. */
  lemma SuperAdminAfter(t: Tables, s: Statement)
    requires UniqueRoleCodes(t.roles) && (s.DeleteRole? || s.UpdateRole?) && s.id in t.roles
    ensures t.roles[s.id].code == SUPER_ADMIN ==>
              (HasSuperAdmin(Effect(t, s), t.roles[s.id].audience, t.roles[s.id].status) <==>
                 s.UpdateRole? && s.role.code == SUPER_ADMIN
                 && s.role.audience == t.roles[s.id].audience && s.role.status == t.roles[s.id].status)
  {
    if s.UpdateRole? { assert s.to in Effect(t, s).roles && Effect(t, s).roles[s.to] == s.role; }
  }

  lemma OneMoreGrant(t: Tables, g: Grant)
    ensures GrantsCoherent(t) ==> (Incoherent(t, g) <==> !GrantsCoherent(t.(grants := t.grants + {g})))
  {
    var u := t.(grants := t.grants + {g});
    forall h ensures Incoherent(u, h) == Incoherent(t, h) { }
    assert g in u.grants;
  }

  lemma OneMoreAssignment(t: Tables, id: Id, roleId: Id)
    requires AssignmentsCoherent(t)
    ensures AssignmentsCoherent(t.(tenantAssignments := t.tenantAssignments[id := roleId])) <==>
              roleId in t.roles && t.roles[roleId].audience.TenantAudience?
    ensures AssignmentsCoherent(t.(platformAssignments := t.platformAssignments[id := roleId])) <==>
              roleId in t.roles && t.roles[roleId].audience.PlatformAudience?
  {
    assert t.tenantAssignments[id := roleId][id] == roleId && t.platformAssignments[id := roleId][id] == roleId;
  }
}
