/** One change committed beside the split, at any moment between its statements: what becomes of it. */
module SplitOneWriter {
  import opened Texts
  import opened Rls
  import opened SplitModel
  import opened SplitMigration
  import opened SplitWriters

  // ---------------------------------------------------- the timeline of one change

  /** What statement i reads when the change commits just before statement `moment`. Statements are numbered: the
      platform count and copy are 0 and 1, turn k counts at 2 + 2 k and copies at 3 + 2 k, the drop comes last. */
  function At(rows: Rows, c: Change, moment: nat, i: nat): Rows {
    if i >= moment then Changed(rows, c) else rows
  }

  function LastMoment(order: seq<Id>): nat { 2 + 2 * |order| }

  function Turns(rows: Rows, c: Change, order: seq<Id>, moment: nat): (ts: seq<Turn>)
    ensures |ts| == |order|
    ensures forall k :: 0 <= k < |order| ==>
              ts[k] == Turn(order[k], At(rows, c, moment, 2 + 2 * k), At(rows, c, moment, 3 + 2 * k))
  {
    seq(|order|, k requires 0 <= k < |order| =>
      Turn(order[k], At(rows, c, moment, 2 + 2 * k), At(rows, c, moment, 3 + 2 * k)))
  }

  function OneChange(rows: Rows, c: Change, order: seq<Id>, moment: nat): Timeline {
    Timeline(At(rows, c, moment, 0), At(rows, c, moment, 1), Turns(rows, c, order, moment),
             At(rows, c, moment, LastMoment(order)))
  }

  /** The loop's order: every tenant once. */
  predicate Order(refs: Refs, order: seq<Id>) {
    && (forall j, k :: 0 <= j < k < |order| ==> order[j] != order[k])
    && (forall t | t in refs.tenants :: exists k :: 0 <= k < |order| && order[k] == t)
  }

  lemma StaysOrChanges(refs: Refs, rows: Rows, c: Change, moment: nat, i: nat, j: nat)
    requires Commits(refs, rows, c) && i <= j
    ensures Follows(refs, At(rows, c, moment, i), At(rows, c, moment, j))
  {
    var v, w := At(rows, c, moment, i), At(rows, c, moment, j);
    if v == w {
      assert w == AfterAll(refs, v, []);
    } else {
      OneAfterAll(refs, rows, c);
      assert w == AfterAll(refs, v, [c]);
    }
  }

  lemma OneAfterAll(refs: Refs, rows: Rows, c: Change)
    requires Commits(refs, rows, c)
    ensures AfterAll(refs, rows, [c]) == Changed(rows, c)
  {
    assert [c][..0] == [] && AfterAll(refs, rows, []) == rows;
  }

  lemma OneChangeOrder(refs: Refs, rows: Rows, c: Change, order: seq<Id>, moment: nat)
    requires Order(refs, order)
    ensures TurnsDistinct(OneChange(rows, c, order, moment)) && EveryTenantHasATurn(refs, OneChange(rows, c, order, moment))
  {
    var tl := OneChange(rows, c, order, moment);
    forall t | t in refs.tenants ensures exists k :: 0 <= k < |tl.turns| && tl.turns[k].tenant == t {
      var k :| 0 <= k < |order| && order[k] == t;
      assert tl.turns[k].tenant == t;
    }
  }

  /** Such a timeline does happen. */
  lemma OneChangeHappens(refs: Refs, rows: Rows, c: Change, order: seq<Id>, moment: nat)
    requires OldConstraints(refs, rows) && Commits(refs, rows, c) && Order(refs, order) && moment <= LastMoment(order)
    ensures Happens(refs, rows, OneChange(rows, c, order, moment))
  {
    var tl := OneChange(rows, c, order, moment);
    OneChangeOrder(refs, rows, c, order, moment);
    if moment == 0 { OneAfterAll(refs, rows, c); }
    assert tl.platformCount == AfterAll(refs, rows, if moment == 0 then [c] else []);
    StaysOrChanges(refs, rows, c, moment, 0, 1);
    forall k | 0 <= k < |tl.turns|
      ensures Follows(refs, PriorTo(tl, k), tl.turns[k].atCount) && Follows(refs, tl.turns[k].atCount, tl.turns[k].atCopy)
    {
      assert PriorTo(tl, k) == At(rows, c, moment, 1 + 2 * k);
      StaysOrChanges(refs, rows, c, moment, 1 + 2 * k, 2 + 2 * k);
      StaysOrChanges(refs, rows, c, moment, 2 + 2 * k, 3 + 2 * k);
    }
    assert PriorTo(tl, |tl.turns|) == At(rows, c, moment, 1 + 2 * |order|);
    StaysOrChanges(refs, rows, c, moment, 1 + 2 * |order|, LastMoment(order));
  }

  // ---------------------------------------------------------- what becomes of it

  /** Turn k's share of a version. */
  function Share(rows: Rows, order: seq<Id>, k: nat): map<Id, TenantRow>
    requires k < |order|
  {
    TenantPartOf(rows, {order[k]})
  }

  /** The change is noticed only if it commits between a count and its copy and alters what was counted. */
  predicate Unnoticed(rows: Rows, c: Change, order: seq<Id>, moment: nat) {
    && (moment == 1 ==> |PlatformPart(rows)| == |PlatformPart(Changed(rows, c))|)
    && forall k :: 0 <= k < |order| && moment == 3 + 2 * k ==>
         Share(rows, order, k).Keys == Share(Changed(rows, c), order, k).Keys
  }

  /** The change is carried over unless it alters a side after that side was copied. */
  predicate Carried(rows: Rows, c: Change, order: seq<Id>, moment: nat) {
    && (moment >= 2 ==> PlatformPart(rows) == PlatformPart(Changed(rows, c)))
    && forall k :: 0 <= k < |order| && moment >= 4 + 2 * k ==>
         Share(rows, order, k) == Share(Changed(rows, c), order, k)
  }

  lemma OneTurn(rows: Rows, c: Change, order: seq<Id>, moment: nat, k: nat)
    requires k < |order| && moment <= LastMoment(order)
    ensures var tl := OneChange(rows, c, order, moment);
            && Part(tl, k) == Share(At(rows, c, moment, 3 + 2 * k), order, k)
            && Counted(tl, k) == Share(At(rows, c, moment, 2 + 2 * k), order, k).Keys
            && Final(tl, k) == Share(Changed(rows, c), order, k)
            && (Steady(tl, k) <==>
                 (moment == 3 + 2 * k ==> Share(rows, order, k).Keys == Share(Changed(rows, c), order, k).Keys))
            && (Part(tl, k) == Final(tl, k) <==>
                 (moment >= 4 + 2 * k ==> Share(rows, order, k) == Share(Changed(rows, c), order, k)))
  {
  }

  /** For every change that can commit and every moment: the counts match if and only if it goes unnoticed, and the
      new tables are the old one as dropped if and only if it is carried over. A change that is neither noticed nor
      carried over is lost with the old table. */
  lemma {:induction false} FateOfAChange(refs: Refs, rows: Rows, c: Change, order: seq<Id>, moment: nat)
    requires OldConstraints(refs, rows) && Commits(refs, rows, c) && Order(refs, order) && moment <= LastMoment(order)
    ensures CountsMatch(OneChange(rows, c, order, moment)) <==> Unnoticed(rows, c, order, moment)
    ensures NothingLost(OneChange(rows, c, order, moment)) <==> Carried(rows, c, order, moment)
  {
    FateOfTheCounts(refs, rows, c, order, moment);
    FateOfTheRows(refs, rows, c, order, moment);
  }

  lemma FateOfTheCounts(refs: Refs, rows: Rows, c: Change, order: seq<Id>, moment: nat)
    requires OldConstraints(refs, rows) && Commits(refs, rows, c) && Order(refs, order) && moment <= LastMoment(order)
    ensures CountsMatch(OneChange(rows, c, order, moment)) <==> Unnoticed(rows, c, order, moment)
  {
    var tl := OneChange(rows, c, order, moment);
    OneChangeHappens(refs, rows, c, order, moment);
    CountsMatchIff(refs, rows, tl);
    forall k | 0 <= k < |order|
      ensures Steady(tl, k) <==>
                (moment == 3 + 2 * k ==> Share(rows, order, k).Keys == Share(Changed(rows, c), order, k).Keys)
    {
      OneTurn(rows, c, order, moment, k);
    }
  }

  lemma FateOfTheRows(refs: Refs, rows: Rows, c: Change, order: seq<Id>, moment: nat)
    requires OldConstraints(refs, rows) && Commits(refs, rows, c) && Order(refs, order) && moment <= LastMoment(order)
    ensures NothingLost(OneChange(rows, c, order, moment)) <==> Carried(rows, c, order, moment)
  {
    var tl := OneChange(rows, c, order, moment);
    OneChangeHappens(refs, rows, c, order, moment);
    NothingLostIff(refs, rows, tl);
    forall k | 0 <= k < |order|
      ensures Part(tl, k) == Final(tl, k) <==>
                (moment >= 4 + 2 * k ==> Share(rows, order, k) == Share(Changed(rows, c), order, k))
    {
      OneTurn(rows, c, order, moment, k);
    }
  }

  // ------------------------------------------------------------------ two cases

  /** A platform assignment granted beside the copy is carried over if it commits before the platform's copy, stops
      the migration if it commits between count and copy, and is lost without notice after. */
  lemma {:induction false} PlatformGrant(refs: Refs, rows: Rows, c: Change, order: seq<Id>, moment: nat)
    requires OldConstraints(refs, rows) && Commits(refs, rows, c) && Order(refs, order) && moment <= LastMoment(order)
    requires c.id !in rows && c.after.Some? && c.after.value.platformUser.Some?
    ensures CountsMatch(OneChange(rows, c, order, moment)) <==> moment != 1
    ensures NothingLost(OneChange(rows, c, order, moment)) <==> moment <= 1
  {
    FateOfAChange(refs, rows, c, order, moment);
    GrantFate(refs, rows, c, order, moment);
  }

  lemma GrantFate(refs: Refs, rows: Rows, c: Change, order: seq<Id>, moment: nat)
    requires c.id !in rows && c.after.Some? && ShapeCheck(c.after.value) && c.after.value.platformUser.Some?
    ensures Unnoticed(rows, c, order, moment) <==> moment != 1
    ensures Carried(rows, c, order, moment) <==> moment <= 1
  {
    PlatformGrantParts(refs, rows, c);
    forall k | 0 <= k < |order| ensures Share(rows, order, k) == Share(Changed(rows, c), order, k) {
      SharesApart(refs, rows, c, order, k);
    }
  }

  lemma PlatformGrantParts(refs: Refs, rows: Rows, c: Change)
    requires c.id !in rows && c.after.Some? && c.after.value.platformUser.Some?
    ensures |PlatformPart(Changed(rows, c))| == |PlatformPart(rows)| + 1
    ensures PlatformPart(Changed(rows, c)) != PlatformPart(rows)
  {
    var p, q := PlatformPart(rows), PlatformPart(Changed(rows, c));
    assert q.Keys == p.Keys + {c.id};
    assert c.id !in p;
    assert |q.Keys| == |p.Keys| + 1;
  }

  lemma SharesApart(refs: Refs, rows: Rows, c: Change, order: seq<Id>, k: nat)
    requires k < |order| && c.id !in rows && c.after.Some? && ShapeCheck(c.after.value) && c.after.value.platformUser.Some?
    ensures Share(rows, order, k) == Share(Changed(rows, c), order, k)
  {
  }

  /** A revocation: another lifecycle on the same assignment. */
  predicate Revocation(rows: Rows, c: Change) {
    && c.id in rows && c.after.Some? && c.after.value == rows[c.id].(life := c.after.value.life)
    && c.after.value.life != rows[c.id].life
  }

  /** The statement that copies a row: 1 for the platform side, 3 + 2 k for the tenant of turn k. */
  predicate CopiedAt(r: OldRow, order: seq<Id>, statement: nat) {
    if r.tenant.None? then statement == 1
    else exists k :: 0 <= k < |order| && order[k] == r.tenant.value && statement == 3 + 2 * k
  }

  /** A revocation on either side changes no count, and it is carried over if and only if it commits before the
      statement that copies its row: after that it is lost without notice and the assignment stays as it was. */
  lemma {:induction false} RevocationBesideTheCopy(
      refs: Refs, rows: Rows, c: Change, order: seq<Id>, moment: nat, statement: nat)
    requires OldConstraints(refs, rows) && Commits(refs, rows, c) && Order(refs, order) && moment <= LastMoment(order)
    requires Revocation(rows, c) && CopiedAt(rows[c.id], order, statement)
    ensures CountsMatch(OneChange(rows, c, order, moment))
    ensures NothingLost(OneChange(rows, c, order, moment)) <==> moment <= statement
  {
    assert OldRowOk(refs, rows[c.id]);
    FateOfAChange(refs, rows, c, order, moment);
    RevokedPlatform(rows, c);
    forall k | 0 <= k < |order|
      ensures Share(rows, order, k).Keys == Share(Changed(rows, c), order, k).Keys
      ensures Share(rows, order, k) == Share(Changed(rows, c), order, k) <==> rows[c.id].tenant != Some(order[k])
    {
      RevokedShare(rows, c, order, k);
    }
  }

  lemma RevokedPlatform(rows: Rows, c: Change)
    requires Revocation(rows, c)
    ensures |PlatformPart(rows)| == |PlatformPart(Changed(rows, c))|
    ensures PlatformPart(rows) == PlatformPart(Changed(rows, c)) <==> rows[c.id].platformUser.None?
  {
    var p, q := PlatformPart(rows), PlatformPart(Changed(rows, c));
    assert p.Keys == q.Keys;
    assert |p.Keys| == |q.Keys|;
    if rows[c.id].platformUser.Some? { assert p[c.id] != q[c.id]; }
  }

  lemma RevokedShare(rows: Rows, c: Change, order: seq<Id>, k: nat)
    requires Revocation(rows, c) && ShapeCheck(rows[c.id]) && k < |order|
    ensures Share(rows, order, k).Keys == Share(Changed(rows, c), order, k).Keys
    ensures Share(rows, order, k) == Share(Changed(rows, c), order, k) <==> rows[c.id].tenant != Some(order[k])
  {
    var p, q := Share(rows, order, k), Share(Changed(rows, c), order, k);
    assert p.Keys == q.Keys;
    if rows[c.id].tenant == Some(order[k]) { assert p[c.id] != q[c.id]; }
  }
}
