/** The three migrations that rewrite the tenant policies (e59f62d5037d, 4fd3aec6ae0c, 21e2ad16303a) and what the
    chain as a whole does to access. */
module PolicyChain {
  import opened Texts
  import opened Rls

  datatype Table = Tenants | TenantUsers | OrgNodes | Stores | UserRoleAssignments

  datatype Form = AsCreated | WithNullif | WithGate | WithPlatform

  /** The value of a policy of this form on a row whose tenant column holds `column`. */
  function Evaluate(f: Form, column: Option<Id>, s: Session): Judged {
    match f
    case AsCreated => OriginalForm(column, s)
    case WithNullif => NullifForm(column, s)
    case WithGate => GatedForm(column, s)
    case WithPlatform => OpenForm(column, s)
  }

  /** `_POLICIES`. */
  const POLICIES: seq<Table> := [Tenants, TenantUsers, OrgNodes, Stores, UserRoleAssignments]

  /** Every table with its one policy in this form. */
  function All(f: Form): map<Table, Form> { map t | t in POLICIES :: f }

  function Rewritten(policies: map<Table, Form>, tables: seq<Table>, f: Form): map<Table, Form> {
    map t | t in policies :: if t in tables then f else policies[t]
  }

  // --------------------------------------------------- what each step does to access

  const NULLIFIED: map<Table, Form> := All(WithNullif)
  const GATED: map<Table, Form> := All(WithNullif)[UserRoleAssignments := WithGate]
  const FINAL: map<Table, Form> := All(WithPlatform)[UserRoleAssignments := WithGate]

  /** The session reads and writes this row under these policies. */
  predicate Grants(policies: map<Table, Form>, t: Table, column: Option<Id>, s: Session) {
    t in policies && Admits(Evaluate(policies[t], column, s))
  }

  predicate PlatformSession(s: Session) { s.userType == PLATFORM && !s.tenant.Garbage? }

  /** Nobody gains or loses a row. */
  ghost predicate SameAccess(p: map<Table, Form>, q: map<Table, Form>) {
    forall t, column, s :: Grants(q, t, column, s) <==> Grants(p, t, column, s)
  }

  /** What `q` grants beyond `p` is the assignments without a tenant, to PLATFORM. */
  ghost predicate OpensUnownedAssignments(p: map<Table, Form>, q: map<Table, Form>) {
    forall t, column, s :: Grants(q, t, column, s) <==>
      Grants(p, t, column, s) || (t.UserRoleAssignments? && column.None? && PlatformSession(s))
  }

  /** What `q` grants beyond `p` is every row of the other four tables, to PLATFORM. */
  ghost predicate OpensForPlatform(p: map<Table, Form>, q: map<Table, Form>) {
    forall t, column, s :: Grants(q, t, column, s) <==>
      Grants(p, t, column, s) || (!t.UserRoleAssignments? && PlatformSession(s))
  }

  /** Both together. */
  ghost predicate OpensChain(p: map<Table, Form>, q: map<Table, Form>) {
    forall t, column, s :: Grants(q, t, column, s) <==>
      Grants(p, t, column, s) || (PlatformSession(s) && (t.UserRoleAssignments? ==> column.None?))
  }

  /** A statement on one of the tables raises under a text that is no uuid, and under the empty string as well or not. */
  ghost predicate RaiseWhen(p: map<Table, Form>, onBlank: bool) {
    forall t, column, s :: t in p ==>
      (Evaluate(p[t], column, s).Raised? <==> s.tenant.Garbage? || (onBlank && s.tenant.Blank?))
  }

  lemma WhenTheyRaise()
    ensures RaiseWhen(All(AsCreated), true) && RaiseWhen(NULLIFIED, false) && RaiseWhen(GATED, false) && RaiseWhen(FINAL, false)
  {
  }

  lemma AllTables(f: Form, t: Table)
    ensures t in All(f) && All(f)[t] == f
  {
    assert t in POLICIES;
  }

  lemma NullifStep()
    ensures SameAccess(All(AsCreated), NULLIFIED)
  {
    forall t, column, s ensures Grants(NULLIFIED, t, column, s) <==> Grants(All(AsCreated), t, column, s) {
      AllTables(AsCreated, t);
      AllTables(WithNullif, t);
      NullifRefinesOriginal(column, s);
    }
  }

  lemma GateStep()
    ensures OpensUnownedAssignments(NULLIFIED, GATED)
  {
    forall t, column, s
      ensures Grants(GATED, t, column, s) <==>
                Grants(NULLIFIED, t, column, s) || (t.UserRoleAssignments? && column.None? && PlatformSession(s))
    {
      AllTables(WithNullif, t);
    }
  }

  lemma PlatformStep()
    ensures OpensForPlatform(GATED, FINAL)
  {
    forall t, column, s
      ensures Grants(FINAL, t, column, s) <==>
                Grants(GATED, t, column, s) || (!t.UserRoleAssignments? && PlatformSession(s))
    {
      AllTables(WithNullif, t);
      AllTables(WithPlatform, t);
    }
  }

  lemma ChainSteps()
    ensures OpensChain(All(AsCreated), FINAL)
  {
    NullifStep();
    GateStep();
    PlatformStep();
    forall t, column, s
      ensures Grants(FINAL, t, column, s) <==>
                Grants(All(AsCreated), t, column, s) || (PlatformSession(s) && (t.UserRoleAssignments? ==> column.None?))
    {
      assert Grants(NULLIFIED, t, column, s) <==> Grants(All(AsCreated), t, column, s);
      assert Grants(GATED, t, column, s) <==>
               Grants(NULLIFIED, t, column, s) || (t.UserRoleAssignments? && column.None? && PlatformSession(s));
    }
  }

  class Catalogue {
    var policies: map<Table, Form>

    constructor ()
      ensures policies == All(AsCreated)
    {
      policies := All(AsCreated);
    }

    /** DROP POLICY raises where there is none; until the CREATE the table has no policy at all. */
    method Recreate(t: Table, f: Form)
      requires t in policies
      modifies this
      ensures policies == old(policies)[t := f]
    {
      policies := policies - {t};
      policies := policies[t := f];
    }

    method RecreateAll(tables: seq<Table>, f: Form)
      requires forall t | t in tables :: t in policies
      modifies this
      ensures policies == Rewritten(old(policies), tables, f)
    {
      var i := 0;
      ghost var before := policies;
      assert Rewritten(before, tables[..0], f) == before;
      while i < |tables|
        invariant 0 <= i <= |tables|
        invariant policies == Rewritten(before, tables[..i], f)
      {
        Recreate(tables[i], f);
        RewriteOneMore(before, tables, i, f);
        i := i + 1;
      }
      assert tables[..|tables|] == tables;
    }

    method UpgradeNullif()
      requires policies == All(AsCreated)
      modifies this
      ensures policies == NULLIFIED
      ensures SameAccess(old(policies), policies)
      ensures RaiseWhen(old(policies), true) && RaiseWhen(policies, false)
    {
      WhenTheyRaise();
      RecreateAll(POLICIES, WithNullif);
      NullifStep();
    }

    method DowngradeNullif()
      requires policies == NULLIFIED
      modifies this
      ensures policies == All(AsCreated)
      ensures SameAccess(old(policies), policies)
      ensures RaiseWhen(old(policies), false) && RaiseWhen(policies, true)
    {
      WhenTheyRaise();
      RecreateAll(POLICIES, AsCreated);
      NullifStep();
    }

    method UpgradeGate()
      requires policies == NULLIFIED
      modifies this
      ensures policies == GATED
      ensures OpensUnownedAssignments(old(policies), policies)
      ensures RaiseWhen(policies, false)
    {
      WhenTheyRaise();
      Recreate(UserRoleAssignments, WithGate);
      GateStep();
    }

    method DowngradeGate()
      requires policies == GATED
      modifies this
      ensures policies == NULLIFIED
      ensures OpensUnownedAssignments(policies, old(policies))
    {
      Recreate(UserRoleAssignments, WithNullif);
      GateStep();
    }

    method UpgradePlatform()
      requires policies == GATED
      modifies this
      ensures policies == FINAL
      ensures OpensForPlatform(old(policies), policies)
      ensures RaiseWhen(policies, false)
    {
      WhenTheyRaise();
      Recreate(Tenants, WithPlatform);
      Recreate(TenantUsers, WithPlatform);
      Recreate(OrgNodes, WithPlatform);
      Recreate(Stores, WithPlatform);
      PlatformStep();
    }

    method DowngradePlatform()
      requires policies == FINAL
      modifies this
      ensures policies == GATED
      ensures OpensForPlatform(policies, old(policies))
    {
      Recreate(Tenants, WithNullif);
      Recreate(TenantUsers, WithNullif);
      Recreate(OrgNodes, WithNullif);
      Recreate(Stores, WithNullif);
      PlatformStep();
    }

    /** All three: access grows by exactly what the chain opens, to PLATFORM alone. */
    method UpgradeChain()
      requires policies == All(AsCreated)
      modifies this
      ensures policies == FINAL
      ensures OpensChain(old(policies), policies)
      ensures RaiseWhen(old(policies), true) && RaiseWhen(policies, false)
    {
      WhenTheyRaise();
      UpgradeNullif();
      UpgradeGate();
      UpgradePlatform();
      ChainSteps();
    }

    /** Down again, step by step: exactly that access is withdrawn, and the policies are those of the initial
        schema. */
    method DowngradeChain()
      requires policies == FINAL
      modifies this
      ensures policies == All(AsCreated)
      ensures OpensChain(policies, old(policies))
      ensures RaiseWhen(policies, true)
    {
      WhenTheyRaise();
      DowngradePlatform();
      DowngradeGate();
      DowngradeNullif();
      ChainSteps();
    }
  }

  lemma RewriteOneMore(policies: map<Table, Form>, tables: seq<Table>, i: nat, f: Form)
    requires i < |tables| && tables[i] in policies
    ensures Rewritten(policies, tables[..i], f)[tables[i] := f] == Rewritten(policies, tables[..i + 1], f)
  {
    assert tables[..i + 1] == tables[..i] + [tables[i]];
  }

  /** What the finished chain admits, in terms of who asks and whose row it is: a session pinned to the row's
      tenant, and PLATFORM on every table but the assignments, where PLATFORM is admitted to unowned rows only. */
  lemma {:induction false} ChainAdmits(t: Table, column: Option<Id>, s: Session)
    requires !s.tenant.Garbage?
    ensures var form := FINAL[t];
            Admits(Evaluate(form, column, s)) <==>
              || (column.Some? && s.tenant == TenantText(column.value))
              || (s.userType == PLATFORM && (t.UserRoleAssignments? ==> column.None?))
  {
    assert t in POLICIES;
  }

  /** No step of the chain takes access away, and none gives a session that is not PLATFORM anything but
      protection from the blank setting. */
  lemma {:induction false} ChainOnlyWidensForPlatform(t: Table, column: Option<Id>, s: Session)
    ensures Admits(Evaluate(AsCreated, column, s)) ==> Admits(Evaluate(WithNullif, column, s))
    ensures var last := FINAL[t];
            && (Admits(Evaluate(WithNullif, column, s)) ==> Admits(Evaluate(last, column, s)))
            && (s.userType != PLATFORM ==>
                 (Admits(Evaluate(last, column, s)) <==> Admits(Evaluate(AsCreated, column, s))))
            && (Evaluate(last, column, s).Raised? <==> s.tenant.Garbage?)
  {
    assert t in POLICIES;
  }
}
