/** Statements of a session under the policies of 21e2ad16303a: what a session pinned to one tenant can change
    and what it can learn. */
module TenantFrame {
  import opened Texts
  import opened Rls
  import opened PolicyChain

  /** A row's primary key. */
  datatype Key = Key(table: Table, id: Id)

  /** `owner` is the column that the policy compares; `data` stands for the rest. */
  datatype Row = Row(owner: Id, data: string)

  type Database = map<Key, Row>

  datatype Statement =
    | Select(which: (Key, Row) -> bool)
    | Insert(key: Key, row: Row)
    | Update(which: (Key, Row) -> bool, change: (Key, Row) -> Row)
    | Delete(which: (Key, Row) -> bool)

  datatype Answer =
    | Rows(rows: map<Key, Row>)
    | Affected(count: nat)
    | PolicyViolation
    | DuplicateKey
    | InvalidSetting

  predicate Passes(r: Row, s: Session) { Admits(OpenForm(Some(r.owner), s)) }

  /** The rows that the policy shows and the WHERE clause picks. */
  function Picked(db: Database, s: Session, which: (Key, Row) -> bool): Database {
    map k | k in db && Passes(db[k], s) && which(k, db[k]) :: db[k]
  }

  function Changed(picked: Database, change: (Key, Row) -> Row): Database {
    map k | k in picked :: change(k, picked[k])
  }

  function Execute(db: Database, s: Session, q: Statement): (r: (Database, Answer)) {
    if s.tenant.Garbage? then (db, InvalidSetting)
    else match q
      case Select(which) => (db, Rows(Picked(db, s, which)))
      case Insert(key, row) =>
        if !Passes(row, s) then (db, PolicyViolation)
        else if key in db then (db, DuplicateKey)
        else (db[key := row], Affected(1))
      case Update(which, change) =>
        var picked := Picked(db, s, which);
        var after := Changed(picked, change);
        if exists k | k in after :: !Passes(after[k], s) then (db, PolicyViolation)
        else (db + after, Affected(|picked|))
      case Delete(which) =>
        var picked := Picked(db, s, which);
        (db - picked.Keys, Affected(|picked|))
  }

  /** A run of statements: the database it leaves and the answers it got. */
  function Run(db: Database, s: Session, qs: seq<Statement>): (Database, seq<Answer>) {
    if qs == [] then (db, [])
    else
      var (before, answers) := Run(db, s, qs[..|qs| - 1]);
      var (after, answer) := Execute(before, s, qs[|qs| - 1]);
      (after, answers + [answer])
  }

  predicate Pinned(s: Session, t: Id) { s.tenant == TenantText(t) && s.userType != PLATFORM }

  predicate Nobody(s: Session) { (s.tenant.Unset? || s.tenant.Blank?) && s.userType != PLATFORM }

  function Own(db: Database, t: Id): Database { map k | k in db && db[k].owner == t :: db[k] }

  function Foreign(db: Database, t: Id): Database { map k | k in db && db[k].owner != t :: db[k] }

  // -------------------------------------------------------------------- frame

  lemma PinnedPasses(r: Row, s: Session, t: Id)
    requires Pinned(s, t)
    ensures Passes(r, s) <==> r.owner == t
  {
  }

  lemma StatementFrame(db: Database, s: Session, t: Id, q: Statement)
    requires Pinned(s, t)
    ensures Foreign(Execute(db, s, q).0, t) == Foreign(db, t)
  {
    forall r: Row ensures Passes(r, s) <==> r.owner == t { PinnedPasses(r, s, t); }
  }

  /** Whatever a session pinned to t does, the rows of every other tenant are the same rows afterwards. */
  lemma {:induction false} OtherTenantsUntouched(db: Database, s: Session, t: Id, qs: seq<Statement>)
    requires Pinned(s, t)
    ensures Foreign(Run(db, s, qs).0, t) == Foreign(db, t)
  {
    if qs != [] {
      OtherTenantsUntouched(db, s, t, qs[..|qs| - 1]);
      StatementFrame(Run(db, s, qs[..|qs| - 1]).0, s, t, qs[|qs| - 1]);
    }
  }

  // ------------------------------------------------------------- what it answers

  /** The tenant's own rows that the WHERE clause picks. */
  function OwnPicked(db: Database, t: Id, which: (Key, Row) -> bool): set<Key> {
    set k | k in db && db[k].owner == t && which(k, db[k])
  }

  lemma PickedIsOwn(db: Database, s: Session, t: Id, which: (Key, Row) -> bool)
    requires Pinned(s, t)
    ensures Picked(db, s, which).Keys == OwnPicked(db, t, which)
    ensures |Picked(db, s, which)| == |OwnPicked(db, t, which)|
  {
    forall r: Row ensures Passes(r, s) <==> r.owner == t { PinnedPasses(r, s, t); }
    assert |Picked(db, s, which)| == |Picked(db, s, which).Keys|;
  }

  /** A SELECT answers with exactly the own rows that are picked. */
  lemma {:induction false} SelectAnswers(db: Database, s: Session, t: Id, which: (Key, Row) -> bool)
    requires Pinned(s, t)
    ensures var (after, answer) := Execute(db, s, Select(which));
            && after == db && answer.Rows? && answer.rows.Keys == OwnPicked(db, t, which)
            && forall k | k in answer.rows :: answer.rows[k] == db[k]
  {
    PickedIsOwn(db, s, t, which);
  }

  /** An INSERT goes through exactly for an own row under a key that nobody holds. */
  lemma {:induction false} InsertAnswers(db: Database, s: Session, t: Id, key: Key, row: Row)
    requires Pinned(s, t)
    ensures Execute(db, s, Insert(key, row)) ==
              if row.owner != t then (db, PolicyViolation)
              else if key in db then (db, DuplicateKey)
              else (db[key := row], Affected(1))
  {
    PinnedPasses(row, s, t);
  }

  /** An UPDATE changes exactly the own rows that are picked, and is refused if it would give one away. */
  lemma {:induction false} UpdateAnswers(
      db: Database, s: Session, t: Id, which: (Key, Row) -> bool, change: (Key, Row) -> Row)
    requires Pinned(s, t)
    ensures var (after, answer) := Execute(db, s, Update(which, change));
            var picked := OwnPicked(db, t, which);
            if exists k | k in picked :: change(k, db[k]).owner != t then after == db && answer == PolicyViolation
            else
              && answer == Affected(|picked|) && after.Keys == db.Keys
              && forall k | k in db :: after[k] == if k in picked then change(k, db[k]) else db[k]
  {
    PickedIsOwn(db, s, t, which);
    var changed := Changed(Picked(db, s, which), change);
    forall k | k in OwnPicked(db, t, which)
      ensures k in changed && changed[k] == change(k, db[k]) && (Passes(changed[k], s) <==> changed[k].owner == t)
    {
      PinnedPasses(change(k, db[k]), s, t);
    }
  }

  /** A DELETE takes exactly the own rows that are picked. */
  lemma {:induction false} DeleteAnswers(db: Database, s: Session, t: Id, which: (Key, Row) -> bool)
    requires Pinned(s, t)
    ensures var (after, answer) := Execute(db, s, Delete(which));
            && answer == Affected(|OwnPicked(db, t, which)|) && after.Keys == db.Keys - OwnPicked(db, t, which)
            && forall k | k in after :: after[k] == db[k]
  {
    PickedIsOwn(db, s, t, which);
  }

  // ------------------------------------------------------------- independence

  /** The insert meets a key that another tenant holds. */
  predicate Collides(db: Database, t: Id, q: Statement) { q.Insert? && q.row.owner == t && q.key in Foreign(db, t) }

  lemma SamePicked(a: Database, b: Database, s: Session, t: Id, which: (Key, Row) -> bool)
    requires Pinned(s, t) && Own(a, t) == Own(b, t)
    ensures Picked(a, s, which) == Picked(b, s, which)
  {
    forall k | k in Picked(a, s, which) ensures k in Picked(b, s, which) && Picked(b, s, which)[k] == a[k] {
      PinnedPasses(a[k], s, t);
      assert k in Own(a, t) && Own(b, t)[k] == a[k];
    }
    forall k | k in Picked(b, s, which) ensures k in Picked(a, s, which) {
      PinnedPasses(b[k], s, t);
      assert k in Own(b, t) && Own(a, t)[k] == b[k];
    }
  }

  lemma OwnAfterInsert(db: Database, s: Session, t: Id, key: Key, row: Row)
    requires Pinned(s, t)
    ensures var r := Execute(db, s, Insert(key, row));
            && (row.owner != t ==> r == (db, PolicyViolation))
            && (row.owner == t && key in Own(db, t) ==> r == (db, DuplicateKey))
            && (row.owner == t && key in Foreign(db, t) ==> r == (db, DuplicateKey))
            && (row.owner == t && key !in db ==> Own(r.0, t) == Own(db, t)[key := row] && r.1 == Affected(1))
  {
    PinnedPasses(row, s, t);
  }

  lemma OwnAfterUpdate(db: Database, s: Session, t: Id, which: (Key, Row) -> bool, change: (Key, Row) -> Row)
    requires Pinned(s, t)
    ensures var picked := Picked(db, s, which);
            var after := Changed(picked, change);
            var r := Execute(db, s, Update(which, change));
            if exists k | k in after :: after[k].owner != t then r == (db, PolicyViolation)
            else Own(r.0, t) == Own(db, t) + after && r.1 == Affected(|picked|)
  {
    forall r: Row ensures Passes(r, s) <==> r.owner == t { PinnedPasses(r, s, t); }
    var after := Changed(Picked(db, s, which), change);
    if forall k | k in after :: after[k].owner == t { OwnMerged(db, after, t); }
  }

  lemma OwnMerged(db: Database, after: Database, t: Id)
    requires forall k | k in after :: after[k].owner == t
    ensures Own(db + after, t) == Own(db, t) + after
  {
  }

  lemma OwnAfterDelete(db: Database, s: Session, t: Id, which: (Key, Row) -> bool)
    requires Pinned(s, t)
    ensures var picked := Picked(db, s, which);
            Execute(db, s, Delete(which)) == (db - picked.Keys, Affected(|picked|))
            && Own(db - picked.Keys, t) == Own(db, t) - picked.Keys
  {
  }

  /** Two databases that agree on t's rows give a statement the same answer exactly when its insert meets another
      tenant's key in both or in neither; after equal answers they agree on t's rows again. */
  lemma {:induction false} StatementIndependence(a: Database, b: Database, s: Session, t: Id, q: Statement)
    requires Pinned(s, t) && Own(a, t) == Own(b, t)
    ensures Execute(a, s, q).1 == Execute(b, s, q).1 <==> (Collides(a, t, q) <==> Collides(b, t, q))
    ensures Execute(a, s, q).1 == Execute(b, s, q).1 ==> Own(Execute(a, s, q).0, t) == Own(Execute(b, s, q).0, t)
  {
    match q
    case Select(which) => SamePicked(a, b, s, t, which);
    case Insert(key, row) => InsertIndependence(a, b, s, t, key, row);
    case Update(which, change) =>
      SamePicked(a, b, s, t, which);
      OwnAfterUpdate(a, s, t, which, change);
      OwnAfterUpdate(b, s, t, which, change);
    case Delete(which) =>
      SamePicked(a, b, s, t, which);
      OwnAfterDelete(a, s, t, which);
      OwnAfterDelete(b, s, t, which);
  }

  lemma InsertIndependence(a: Database, b: Database, s: Session, t: Id, key: Key, row: Row)
    requires Pinned(s, t) && Own(a, t) == Own(b, t)
    ensures var q := Insert(key, row);
            && (Execute(a, s, q).1 == Execute(b, s, q).1 <==> (Collides(a, t, q) <==> Collides(b, t, q)))
            && (Execute(a, s, q).1 == Execute(b, s, q).1 ==> Own(Execute(a, s, q).0, t) == Own(Execute(b, s, q).0, t))
  {
    OwnAfterInsert(a, s, t, key, row);
    OwnAfterInsert(b, s, t, key, row);
    assert key in a <==> key in Own(a, t) || key in Foreign(a, t);
    assert key in b <==> key in Own(b, t) || key in Foreign(b, t);
    if key in Own(a, t) { assert key in Own(b, t); }
  }

  /** Every insert of the run meets another tenant's key in both databases or in neither. */
  predicate SameCollisions(a: Database, b: Database, t: Id, qs: seq<Statement>) {
    forall i :: 0 <= i < |qs| ==> (Collides(a, t, qs[i]) <==> Collides(b, t, qs[i]))
  }

  lemma CollisionsLast(a: Database, b: Database, t: Id, qs: seq<Statement>)
    requires qs != []
    ensures var init, last := qs[..|qs| - 1], qs[|qs| - 1];
            SameCollisions(a, b, t, qs) <==>
              SameCollisions(a, b, t, init) && (Collides(a, t, last) <==> Collides(b, t, last))
  {
    var init := qs[..|qs| - 1];
    assert forall i :: 0 <= i < |init| ==> init[i] == qs[i];
  }

  lemma {:induction false} OneAnswerEach(db: Database, s: Session, qs: seq<Statement>)
    ensures |Run(db, s, qs).1| == |qs|
  {
    if qs != [] { OneAnswerEach(db, s, qs[..|qs| - 1]); }
  }

  lemma AnswersLast(a: Database, b: Database, s: Session, qs: seq<Statement>)
    requires qs != []
    ensures var init, last := qs[..|qs| - 1], qs[|qs| - 1];
            Run(a, s, qs).1 == Run(b, s, qs).1 <==>
              && Run(a, s, init).1 == Run(b, s, init).1
              && Execute(Run(a, s, init).0, s, last).1 == Execute(Run(b, s, init).0, s, last).1
  {
    var init, last := qs[..|qs| - 1], qs[|qs| - 1];
    OneAnswerEach(a, s, init);
    OneAnswerEach(b, s, init);
    SameLast(Run(a, s, init).1, Execute(Run(a, s, init).0, s, last).1,
             Run(b, s, init).1, Execute(Run(b, s, init).0, s, last).1);
  }

  lemma SameLast(xs: seq<Answer>, x: Answer, ys: seq<Answer>, y: Answer)
    requires |xs| == |ys|
    ensures xs + [x] == ys + [y] <==> xs == ys && x == y
  {
    if xs + [x] == ys + [y] {
      assert (xs + [x])[..|xs|] == xs && (ys + [y])[..|ys|] == ys;
      assert (xs + [x])[|xs|] == x && (ys + [y])[|ys|] == y;
    }
  }

  /** Other tenants' rows do not change, so neither does what a statement collides with. */
  lemma CollidesLater(db: Database, s: Session, t: Id, qs: seq<Statement>, q: Statement)
    requires Pinned(s, t)
    ensures Collides(Run(db, s, qs).0, t, q) == Collides(db, t, q)
  {
    OtherTenantsUntouched(db, s, t, qs);
  }

  /** Over whole runs: all answers are the same in two databases that agree on t's rows if and only if each insert
      meets another tenant's key in both or in neither, and then they agree on t's rows at the end. */
  lemma {:induction false} RunIndependence(a: Database, b: Database, s: Session, t: Id, qs: seq<Statement>)
    requires Pinned(s, t) && Own(a, t) == Own(b, t)
    ensures Run(a, s, qs).1 == Run(b, s, qs).1 <==> SameCollisions(a, b, t, qs)
    ensures Run(a, s, qs).1 == Run(b, s, qs).1 ==> Own(Run(a, s, qs).0, t) == Own(Run(b, s, qs).0, t)
  {
    if qs != [] {
      var init, last := qs[..|qs| - 1], qs[|qs| - 1];
      RunIndependence(a, b, s, t, init);
      AnswersLast(a, b, s, qs);
      CollisionsLast(a, b, t, qs);
      CollidesLater(a, s, t, init, last);
      CollidesLater(b, s, t, init, last);
      if SameCollisions(a, b, t, init) {
        StatementIndependence(Run(a, s, init).0, Run(b, s, init).0, s, t, last);
      }
    }
  }

  /** The condition does fail: two databases without a single row of t, told apart by one insert of t's because
      another tenant holds the key in the second. */
  lemma {:induction false} CollisionTellsApart(s: Session, t: Id, other: Id, key: Key, data: string)
    requires Pinned(s, t) && other != t
    ensures var a: Database, b: Database := map[], map[key := Row(other, data)];
            var qs := [Insert(key, Row(t, data))];
            && Own(a, t) == Own(b, t) && !SameCollisions(a, b, t, qs)
            && Run(a, s, qs).1 == [Affected(1)] && Run(b, s, qs).1 == [DuplicateKey]
  {
    var a: Database, b: Database := map[], map[key := Row(other, data)];
    var q := Insert(key, Row(t, data));
    assert Own(a, t) == Own(b, t) == map[];
    assert key in Foreign(b, t);
    assert [q][0] == q && Collides(b, t, [q][0]) && !Collides(a, t, [q][0]);
    PinnedPasses(Row(t, data), s, t);
    assert [q][..0] == [];
    assert Run(a, s, []) == (a, []) && Run(b, s, []) == (b, []);
  }

  /** Without a tenant nothing is visible and nothing can be written. */
  lemma {:induction false} NobodySeesNothing(db: Database, s: Session, qs: seq<Statement>)
    requires Nobody(s)
    ensures Run(db, s, qs).0 == db && |Run(db, s, qs).1| == |qs|
    ensures forall i :: 0 <= i < |qs| ==>
              Run(db, s, qs).1[i] == match qs[i]
                                     case Select(_) => Rows(map[])
                                     case Insert(_, _) => PolicyViolation
                                     case Update(_, _) => Affected(0)
                                     case Delete(_) => Affected(0)
  {
    if qs != [] {
      NobodySeesNothing(db, s, qs[..|qs| - 1]);
      NobodyStatement(db, s, qs[|qs| - 1]);
    }
  }

  lemma NobodyStatement(db: Database, s: Session, q: Statement)
    requires Nobody(s)
    ensures Execute(db, s, q) == (db, match q
                                      case Select(_) => Rows(map[])
                                      case Insert(_, _) => PolicyViolation
                                      case Update(_, _) => Affected(0)
                                      case Delete(_) => Affected(0))
  {
    forall r: Row ensures !Passes(r, s) { }
    if q.Update? {
      assert Picked(db, s, q.which) == map[];
      assert db + Changed(Picked(db, s, q.which), q.change) == db;
    }
    if q.Delete? || q.Select? {
      assert Picked(db, s, q.which) == map[];
      assert db - Picked(db, s, q.which).Keys == db;
    }
  }
}
