/** The queue in front of the send path as a transition system: any number of messages, deliveries and consumers,
    interleaved in any order, with crashes, lost acknowledgements and expired deadlines at any point. */
module AtLeastOnce {
  import opened Texts
  import opened Uuids
  import opened Envelope
  import opened Ledger

  const MAX_DELIVERY_ATTEMPTS := 5

  datatype Status = Queued | InFlight(attempt: nat) | Acked | DeadLettered

  /** `mail` is what parsing the bytes gives a consumer that can send them. */
  datatype Message = Message(raw: seq<Byte>, mail: Option<SendRequested>, status: Status, deliveries: nat)

  /** Whether the row got into the table, and what the consumer was told. */
  datatype Write = Write(landed: bool, seen: Recorded)

  /** One consumer at work on one delivery; `over` once it has answered, raised or died. */
  datatype Attempt = Attempt(message: nat, call: Option<AdapterCall>, write: Option<Write>, over: bool)

  /** `writers` is a history variable: the attempt whose INSERT made each row. */
  datatype World = World(
    messages: seq<Message>,
    attempts: seq<Attempt>,
    rows: map<Uuid, DeliveryRecord>,
    writers: map<Uuid, nat>)

  const EMPTY := World([], [], map[], map[])

  datatype Event =
    | Publish(raw: seq<Byte>)
    | Deliver(m: nat)
    | Call(a: nat, call: AdapterCall)
    | Insert(a: nat, fault: Fault)
    | Answer(a: nat, arrives: bool)
    | Expire(m: nat)
    | Crash(a: nat)

  function MailOf(raw: seq<Byte>): Option<SendRequested> {
    if Sendable(raw) then Some(FromJson(raw).envelope) else None
  }

  /** Attempts and their messages refer to each other properly. */
  predicate Shaped(w: World) {
    && (forall a | 0 <= a < |w.attempts| :: w.attempts[a].message < |w.messages|)
    && (forall m | 0 <= m < |w.messages| :: w.messages[m].mail == MailOf(w.messages[m].raw))
  }

  function MailAt(w: World, a: nat): Option<SendRequested>
    requires a < |w.attempts| && w.attempts[a].message < |w.messages|
  {
    w.messages[w.attempts[a].message].mail
  }

  /** What process_message returns at this point of the attempt, if it has got that far. */
  function Verdict(w: World, a: nat): Option<Decision>
    requires a < |w.attempts| && w.attempts[a].message < |w.messages|
  {
    if MailAt(w, a).None? then Some(Nack)
    else if w.attempts[a].write.None? then None
    else match w.attempts[a].write.value.seen
         case New => Some(Ack)
         case Duplicate => Some(Ack)
         case LedgerWriteError => Some(Nack)
         case Escapes => None
  }

  predicate Enabled(w: World, e: Event) {
    match e
    case Publish(_) => true
    case Deliver(m) => m < |w.messages| && w.messages[m].status.Queued? && w.messages[m].deliveries < MAX_DELIVERY_ATTEMPTS
    case Call(a, _) => Working(w, a) && MailAt(w, a).Some? && w.attempts[a].call.None?
    case Insert(a, _) => Working(w, a) && MailAt(w, a).Some? && w.attempts[a].call.Some? && w.attempts[a].write.None?
    case Answer(a, _) => Working(w, a) && Verdict(w, a).Some?
    case Expire(m) => m < |w.messages| && w.messages[m].status.InFlight?
    case Crash(a) => Working(w, a)
  }

  predicate Working(w: World, a: nat) {
    a < |w.attempts| && !w.attempts[a].over && w.attempts[a].message < |w.messages|
  }

  /** Back on the queue, or to the dead-letter topic when the attempts are used up. */
  function Requeue(m: Message): Message {
    m.(status := if m.deliveries >= MAX_DELIVERY_ATTEMPTS then DeadLettered else Queued)
  }

  /** An answer that reaches the queue. A nack counts only for the delivery it belongs to; an ack, even a late
      one, removes the message unless it has been dead-lettered. */
  function Answered(m: Message, a: nat, d: Decision): Message {
    match d
    case Ack => if m.status.DeadLettered? then m else m.(status := Acked)
    case Nack => if m.status == InFlight(a) then Requeue(m) else m
  }

  function Apply(w: World, e: Event): World
    requires Enabled(w, e)
  {
    match e
    case Publish(raw) => w.(messages := w.messages + [Message(raw, MailOf(raw), Queued, 0)])
    case Deliver(m) =>
      var msg := w.messages[m];
      w.(messages := w.messages[m := msg.(status := InFlight(|w.attempts|), deliveries := msg.deliveries + 1)],
         attempts := w.attempts + [Attempt(m, None, None, false)])
    case Call(a, call) =>
      w.(attempts := w.attempts[a := w.attempts[a].(call := Some(call), over := call.answer.Breaks?)])
    case Insert(a, fault) =>
      var r := RecordOf(MailAt(w, a).value, w.attempts[a].call.value);
      var write := Write(r.deliveryId !in w.rows && r.deliveryId in RowsAfter(w.rows, r, fault), Seen(w.rows, r, fault));
      w.(attempts := w.attempts[a := w.attempts[a].(write := Some(write), over := write.seen.Escapes?)],
         rows := RowsAfter(w.rows, r, fault),
         writers := if write.landed then w.writers[r.deliveryId := a] else w.writers)
    case Answer(a, arrives) =>
      var m := w.attempts[a].message;
      w.(attempts := w.attempts[a := w.attempts[a].(over := true)],
         messages := if arrives then w.messages[m := Answered(w.messages[m], a, Verdict(w, a).value)] else w.messages)
    case Expire(m) => w.(messages := w.messages[m := Requeue(w.messages[m])])
    case Crash(a) => w.(attempts := w.attempts[a := w.attempts[a].(over := true)])
  }

  /** An event that cannot happen now does nothing, so every sequence of events is a run. */
  function Next(w: World, e: Event): World {
    if Enabled(w, e) then Apply(w, e) else w
  }

  function Run(events: seq<Event>): World {
    if events == [] then EMPTY else Next(Run(events[..|events| - 1]), events[|events| - 1])
  }

  /** The last event of a continuation is the last of the run. */
  lemma RunMore(events: seq<Event>, more: seq<Event>)
    requires more != []
    ensures (events + more)[..|events + more| - 1] == events + more[..|more| - 1]
    ensures Run(events + more) == Next(Run(events + more[..|more| - 1]), more[|more| - 1])
  {
    assert (events + more)[..|events + more| - 1] == events + more[..|more| - 1];
  }

  // ------------------------------------------------------- the queue's shape

  predicate QueueInv(w: World) {
    && Shaped(w)
    && forall m | 0 <= m < |w.messages| :: StatusOk(w, m, w.messages[m])
  }

  predicate StatusOk(w: World, m: nat, msg: Message) {
    && msg.deliveries <= MAX_DELIVERY_ATTEMPTS
    && (msg.status.Queued? ==> msg.deliveries < MAX_DELIVERY_ATTEMPTS)
    && (msg.status.DeadLettered? ==> msg.deliveries == MAX_DELIVERY_ATTEMPTS)
    && (msg.status.InFlight? ==> msg.status.attempt < |w.attempts| && w.attempts[msg.status.attempt].message == m)
  }

  /** At most five deliveries; a message that waits has one left, and a dead-lettered one has used all five. */
  predicate LimitKept(msg: Message) {
    && msg.deliveries <= 5
    && (msg.status.Queued? ==> msg.deliveries < 5)
    && (msg.status.DeadLettered? ==> msg.deliveries == 5)
  }

  lemma QueueStep(w: World, e: Event)
    requires QueueInv(w)
    ensures QueueInv(Next(w, e))
  {
    if Enabled(w, e) {
      match e
      case Publish(_) => QueueKept(w, Apply(w, e));
      case Deliver(m) => QueueDeliver(w, m);
      case Answer(a, _) => QueueKept(w, Apply(w, e));
      case Expire(m) => QueueKept(w, Apply(w, e));
      case _ => QueueKept(w, Apply(w, e));
    }
  }

  /** Every event but a delivery adds no attempt and moves none to another message. */
  lemma QueueKept(w: World, v: World)
    requires QueueInv(w)
    requires |v.attempts| == |w.attempts| && forall a | 0 <= a < |w.attempts| :: v.attempts[a].message == w.attempts[a].message
    requires |v.messages| >= |w.messages|
    requires forall m | 0 <= m < |v.messages| :: StatusOk(w, m, v.messages[m]) && v.messages[m].mail == MailOf(v.messages[m].raw)
    ensures QueueInv(v)
  {
  }

  lemma QueueDeliver(w: World, m: nat)
    requires QueueInv(w) && Enabled(w, Deliver(m))
    ensures QueueInv(Apply(w, Deliver(m)))
  {
  }

  lemma {:induction false} QueueRun(events: seq<Event>)
    ensures QueueInv(Run(events))
    ensures forall m | 0 <= m < |Run(events).messages| :: LimitKept(Run(events).messages[m])
  {
    if events != [] {
      QueueRun(events[..|events| - 1]);
      QueueStep(Run(events[..|events| - 1]), events[|events| - 1]);
    }
  }

  // ------------------------------------------------------ the ledger's history

  /** Attempt a is the one that put its message's row into the table. */
  predicate Landed(w: World, a: nat) {
    && a < |w.attempts| && w.attempts[a].message < |w.messages|
    && MailAt(w, a).Some? && w.attempts[a].call.Some? && w.attempts[a].write.Some? && w.attempts[a].write.value.landed
  }

  function IdAt(w: World, a: nat): Uuid
    requires a < |w.attempts| && w.attempts[a].message < |w.messages| && MailAt(w, a).Some?
  {
    MailAt(w, a).value.deliveryId
  }

  /** What an attempt knows agrees with the table, now and later. */
  predicate AttemptOk(w: World, a: nat)
    requires a < |w.attempts| && w.attempts[a].message < |w.messages|
  {
    var t := w.attempts[a];
    && (t.call.Some? ==> MailAt(w, a).Some? && (t.call.value.answer.Breaks? ==> t.over))
    && (t.write.Some? ==>
         && t.call.Some? && !t.call.value.answer.Breaks?
         && (t.write.value.landed ==>
              && Storable(RecordOf(MailAt(w, a).value, t.call.value))
              && IdAt(w, a) in w.rows && w.rows[IdAt(w, a)] == Stored(RecordOf(MailAt(w, a).value, t.call.value))
              && IdAt(w, a) in w.writers && w.writers[IdAt(w, a)] == a)
         && (t.write.value.seen.New? ==> t.write.value.landed)
         && (t.write.value.seen in {New, Duplicate} ==> IdAt(w, a) in w.rows))
  }

  /** Every row was made by the attempt the history names, and that attempt is on a message with the row's id. */
  predicate WritersOk(w: World) {
    && w.writers.Keys == w.rows.Keys
    && forall id | id in w.writers :: Landed(w, w.writers[id]) && IdAt(w, w.writers[id]) == id
  }

  predicate LedgerInv(w: World) {
    && Shaped(w) && WritersOk(w)
    && forall a | 0 <= a < |w.attempts| :: AttemptOk(w, a)
  }

  /** The later world knows the same calls and writes; only statuses, new messages and new attempts differ. */
  predicate SameHistory(w: World, v: World) {
    && v.rows == w.rows && v.writers == w.writers
    && |w.attempts| <= |v.attempts| && |w.messages| <= |v.messages|
    && (forall m | 0 <= m < |w.messages| :: v.messages[m].mail == w.messages[m].mail)
    && (forall a | 0 <= a < |w.attempts| ::
         v.attempts[a].(over := w.attempts[a].over) == w.attempts[a] && (w.attempts[a].over ==> v.attempts[a].over))
    && (forall a | |w.attempts| <= a < |v.attempts| :: v.attempts[a].call.None? && v.attempts[a].write.None?)
  }

  lemma HistoryKept(w: World, v: World)
    requires LedgerInv(w) && SameHistory(w, v) && Shaped(v)
    ensures LedgerInv(v)
  {
    forall a | 0 <= a < |w.attempts| ensures AttemptOk(v, a) && (Landed(w, a) ==> Landed(v, a)) {
      assert AttemptOk(w, a);
    }
    forall id | id in v.writers ensures Landed(v, v.writers[id]) && IdAt(v, v.writers[id]) == id {
      assert Landed(w, w.writers[id]);
    }
  }

  /** The attempt that inserts: what it was told agrees with what it did. */
  lemma InsertSelf(w: World, a: nat, f: Fault)
    requires LedgerInv(w) && Enabled(w, Insert(a, f))
    ensures AttemptOk(Apply(w, Insert(a, f)), a)
    ensures Apply(w, Insert(a, f)).writers != w.writers ==> Landed(Apply(w, Insert(a, f)), a)
  {
    assert AttemptOk(w, a);
    OnlyThePrimaryKeyIsARepeat(w.rows, RecordOf(MailAt(w, a).value, w.attempts[a].call.value), f);
  }

  /** Every other attempt: its row, if it made one, is still there and still its own. */
  lemma OtherKept(w: World, v: World, b: nat)
    requires LedgerInv(w) && b < |w.attempts| == |v.attempts|
    requires v.messages == w.messages && v.attempts[b] == w.attempts[b]
    requires forall id | id in w.rows :: id in v.rows && v.rows[id] == w.rows[id]
    requires forall id | id in w.writers :: id in v.writers && v.writers[id] == w.writers[id]
    ensures AttemptOk(v, b) && (Landed(w, b) ==> Landed(v, b))
  {
    assert AttemptOk(w, b);
  }

  /** One attempt has gone on; the table and the history gained its message's key together, or neither changed. */
  predicate Grew(w: World, v: World, a: nat)
    requires a < |w.attempts| && w.attempts[a].message < |w.messages| && MailAt(w, a).Some?
  {
    var id := IdAt(w, a);
    && v.messages == w.messages && |v.attempts| == |w.attempts|
    && v.attempts[a].message == w.attempts[a].message
    && (forall b | 0 <= b < |w.attempts| && b != a :: v.attempts[b] == w.attempts[b])
    && ( || (v.rows == w.rows && v.writers == w.writers)
         || (id !in w.rows && id in v.rows && v.rows == w.rows[id := v.rows[id]] && v.writers == w.writers[id := a]))
  }

  /** An insert leaves the messages and the other attempts alone. */
  lemma InsertShape(w: World, a: nat, f: Fault)
    requires Enabled(w, Insert(a, f))
    ensures var v := Apply(w, Insert(a, f));
            && v.messages == w.messages && |v.attempts| == |w.attempts|
            && v.attempts[a].message == w.attempts[a].message
            && forall b | 0 <= b < |w.attempts| && b != a :: v.attempts[b] == w.attempts[b]
  {
  }

  lemma InsertRows(w: World, a: nat, f: Fault)
    requires Enabled(w, Insert(a, f))
    ensures var v := Apply(w, Insert(a, f));
            var id := IdAt(w, a);
            || (v.rows == w.rows && v.writers == w.writers)
            || (id !in w.rows && id in v.rows && v.rows == w.rows[id := v.rows[id]] && v.writers == w.writers[id := a])
  {
    RowsGrow(w.rows, RecordOf(MailAt(w, a).value, w.attempts[a].call.value), f);
  }

  lemma InsertGrew(w: World, a: nat, f: Fault)
    requires LedgerInv(w) && Enabled(w, Insert(a, f))
    ensures Grew(w, Apply(w, Insert(a, f)), a)
  {
    InsertShape(w, a, f);
    InsertRows(w, a, f);
  }

  lemma AdvanceKept(w: World, v: World, a: nat)
    requires LedgerInv(w) && a < |w.attempts| && MailAt(w, a).Some? && !Landed(w, a)
    requires Grew(w, v, a) && AttemptOk(v, a) && (v.writers != w.writers ==> Landed(v, a))
    ensures LedgerInv(v)
  {
    forall b | 0 <= b < |w.attempts| ensures AttemptOk(v, b) && (Landed(w, b) ==> Landed(v, b)) {
      if b != a { OtherKept(w, v, b); }
    }
    WritersGrew(w, v, a);
  }

  lemma CallKept(w: World, a: nat, c: AdapterCall)
    requires LedgerInv(w) && Enabled(w, Call(a, c))
    ensures LedgerInv(Apply(w, Call(a, c)))
  {
    assert AttemptOk(w, a);
    AdvanceKept(w, Apply(w, Call(a, c)), a);
  }

  lemma WritersGrew(w: World, v: World, a: nat)
    requires Shaped(w) && WritersOk(w) && a < |w.attempts| && MailAt(w, a).Some?
    requires Grew(w, v, a) && (v.writers != w.writers ==> Landed(v, a))
    requires forall b | 0 <= b < |w.attempts| && Landed(w, b) :: Landed(v, b)
    ensures WritersOk(v)
  {
    forall id | id in v.writers ensures Landed(v, v.writers[id]) && IdAt(v, v.writers[id]) == id {
      if v.writers == w.writers || id != IdAt(w, a) { assert Landed(w, w.writers[id]) && IdAt(w, w.writers[id]) == id; }
    }
  }

  lemma LedgerStep(w: World, e: Event)
    requires LedgerInv(w) && QueueInv(w)
    ensures LedgerInv(Next(w, e))
  {
    QueueStep(w, e);
    if Enabled(w, e) {
      match e
      case Call(a, c) => CallKept(w, a, c);
      case Insert(a, f) =>
        InsertSelf(w, a, f);
        InsertGrew(w, a, f);
        AdvanceKept(w, Apply(w, e), a);
      case _ => HistoryKept(w, Apply(w, e));
    }
  }
}
