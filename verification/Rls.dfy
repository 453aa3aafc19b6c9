/** Row-level security as the schema migrations write it: SQL's three-valued predicates over a row's tenant
    column and the two session variables. */
module Rls {
  import opened Texts

  /** A UUID, as its number; byte order and numeric order agree. */
  type Id = nat

  // ------------------------------------------------------ three-valued logic

  datatype Tri = Yes | No | Unknown

  function Or(a: Tri, b: Tri): Tri {
    if a.Yes? || b.Yes? then Yes else if a.No? && b.No? then No else Unknown
  }

  function And(a: Tri, b: Tri): Tri {
    if a.No? || b.No? then No else if a.Yes? && b.Yes? then Yes else Unknown
  }

  function Truth(b: bool): Tri { if b then Yes else No }

  /** SQL `=`, where NULL on either side is unknown. */
  function Same<T(==)>(a: Option<T>, b: Option<T>): Tri {
    if a.None? || b.None? then Unknown else Truth(a.value == b.value)
  }

  // --------------------------------------------------------- session variables

  /** `current_setting('app.tenant_id', TRUE)`: NULL, the empty string, a uuid's text, or other text. */
  datatype TenantSetting = Unset | Blank | TenantText(id: Id) | Garbage

  datatype Session = Session(tenant: TenantSetting, userType: Option<string>)

  /** `::uuid` on a possibly NULL text; text that is no uuid raises. */
  datatype Cast = Raises | Value(id: Option<Id>)

  function CastUuid(s: TenantSetting): Cast {
    match s
    case Unset => Value(None)
    case Blank => Raises
    case TenantText(id) => Value(Some(id))
    case Garbage => Raises
  }

  /** `NULLIF(..., '')`. */
  function NullIfBlank(s: TenantSetting): TenantSetting { if s.Blank? then Unset else s }

  function IsPlatform(s: Session): Tri { Same(s.userType, Some("PLATFORM")) }

  // ----------------------------------------------------------------- policies

  /** A policy expression's value, or the error that aborts the statement. */
  datatype Judged = Raised | Judged(truth: Tri)

  predicate Admits(j: Judged) { j == Judged(Yes) }

  /** `tenant_id = current_setting('app.tenant_id', TRUE)::uuid` (initial schema). */
  function OriginalForm(column: Option<Id>, s: Session): Judged {
    match CastUuid(s.tenant)
    case Raises => Raised
    case Value(id) => Judged(Same(column, id))
  }

  /** The same with the setting wrapped in NULLIF (e59f62d5037d). */
  function NullifForm(column: Option<Id>, s: Session): Judged {
    match CastUuid(NullIfBlank(s.tenant))
    case Raises => Raised
    case Value(id) => Judged(Same(column, id))
  }

  /** `... OR (tenant_id IS NULL AND app.user_type = 'PLATFORM')` (4fd3aec6ae0c). */
  function GatedForm(column: Option<Id>, s: Session): Judged {
    match NullifForm(column, s)
    case Raised => Raised
    case Judged(t) => Judged(Or(t, And(Truth(column.None?), IsPlatform(s))))
  }

  /** `... OR app.user_type = 'PLATFORM'` (21e2ad16303a and every later multi-tenant table). */
  function OpenForm(column: Option<Id>, s: Session): Judged {
    match NullifForm(column, s)
    case Raised => Raised
    case Judged(t) => Judged(Or(t, IsPlatform(s)))
  }

  const PLATFORM: Option<string> := Some("PLATFORM")

  // -------------------------------------------------- what each form is for

  /** The amended policy raises in strictly fewer sessions and changes no answer the original gave. */
  lemma NullifRefinesOriginal(column: Option<Id>, s: Session)
    ensures OriginalForm(column, s).Raised? <==> s.tenant.Blank? || s.tenant.Garbage?
    ensures NullifForm(column, s).Raised? <==> s.tenant.Garbage?
    ensures !OriginalForm(column, s).Raised? ==> NullifForm(column, s) == OriginalForm(column, s)
    ensures s.tenant.Blank? || s.tenant.Unset? ==> !Admits(NullifForm(column, s))
  {
  }

  /** On a NOT NULL column the gated branch never changes the policy's value; on NULL it admits exactly PLATFORM. */
  lemma GateIsNoOpOnNotNull(column: Option<Id>, s: Session)
    ensures column.Some? ==> GatedForm(column, s) == NullifForm(column, s)
    ensures column.None? && !s.tenant.Garbage? ==> (Admits(GatedForm(column, s)) <==> s.userType == PLATFORM)
  {
  }

  // --------------------------------------------------------- pooled connections

  /** A connection's `app.tenant_id`: whether the placeholder was ever set on it, and what a read returns now. */
  datatype Connection = Connection(registered: bool, current: TenantSetting)

  const PRISTINE := Connection(false, Unset)

  datatype Event = SetLocal(v: TenantSetting) | EndOfTransaction

  /** A transaction-local setting is undone at the end of its transaction, down to the empty string once the
      placeholder is registered. */
  function After(c: Connection, e: Event): Connection {
    match e
    case SetLocal(v) => Connection(true, v)
    case EndOfTransaction => Connection(c.registered, if c.registered then Blank else Unset)
  }

  function Run(events: seq<Event>): Connection {
    if events == [] then PRISTINE else After(Run(events[..|events| - 1]), events[|events| - 1])
  }

  /** Only uuids and the empty string are ever set. */
  predicate WellFormed(events: seq<Event>) {
    forall i :: 0 <= i < |events| ==> events[i].SetLocal? ==> events[i].v.Blank? || events[i].v.TenantText?
  }

  predicate EverSet(events: seq<Event>) {
    exists i :: 0 <= i < |events| && events[i].SetLocal?
  }

  /** Read off the history alone: the last event blanked the setting, either directly or by ending a
      transaction on a connection that had been given a setting before. */
  predicate BlankedBy(events: seq<Event>) {
    events != [] &&
    match events[|events| - 1]
    case SetLocal(v) => v.Blank?
    case EndOfTransaction => EverSet(events)
  }

  lemma {:induction false} RunState(events: seq<Event>)
    requires WellFormed(events)
    ensures Run(events).registered <==> EverSet(events)
    ensures !Run(events).current.Garbage?
    ensures Run(events).current.Blank? <==> BlankedBy(events)
  {
    if events != [] {
      var before := events[..|events| - 1];
      RunState(before);
      if EverSet(events) && !events[|events| - 1].SetLocal? {
        var i :| 0 <= i < |events| && events[i].SetLocal?;
        assert before[i].SetLocal?;
      }
    }
  }

  /** Along every run of settings, transaction ends and reuse: the amended policy never raises and agrees with
      the original wherever that does not raise, and the original raises exactly when the history blanked the
      setting. */
  lemma {:induction false} PooledPolicies(events: seq<Event>, userType: Option<string>, column: Option<Id>)
    requires WellFormed(events)
    ensures var s := Session(Run(events).current, userType);
            && !NullifForm(column, s).Raised?
            && (OriginalForm(column, s).Raised? <==> BlankedBy(events))
            && (!BlankedBy(events) ==> NullifForm(column, s) == OriginalForm(column, s))
            && (BlankedBy(events) ==> !Admits(NullifForm(column, s)))
  {
    RunState(events);
    NullifRefinesOriginal(column, Session(Run(events).current, userType));
  }
}
