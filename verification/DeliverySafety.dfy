/** What holds at the end of every run of the queue, whatever crashes, lost answers and faults it met. */
module DeliverySafety {
  import opened Texts
  import opened Uuids
  import opened Envelope
  import opened Ledger
  import opened AtLeastOnce

  lemma LedgerHolds(events: seq<Event>)
    ensures QueueInv(Run(events)) && LedgerInv(Run(events))
  {
    QueueRun(events);
    if events != [] {
      LedgerHolds(events[..|events| - 1]);
      LedgerStep(Run(events[..|events| - 1]), events[|events| - 1]);
    }
  }

  // ------------------------------------------------------------- one row per id

  /** Of all the attempts on messages with one id, at most one is told that its row is new. */
  lemma {:induction false} OneFirstWrite(events: seq<Event>, a: nat, b: nat)
    ensures var w := Run(events);
            TellsNew(w, a) && TellsNew(w, b) && IdAt(w, a) == IdAt(w, b) ==> a == b
  {
    LedgerHolds(events);
    var w := Run(events);
    if TellsNew(w, a) && TellsNew(w, b) {
      assert AttemptOk(w, a) && AttemptOk(w, b);
    }
  }

  /** The attempt's outcome is `recorded=True, duplicate=False`. */
  predicate TellsNew(w: World, a: nat) {
    && a < |w.attempts| && w.attempts[a].message < |w.messages| && MailAt(w, a).Some?
    && w.attempts[a].write.Some? && w.attempts[a].write.value.seen.New?
  }

  /** Every row states the answer that the one attempt which wrote it got from the provider: ACCEPTED means a
      real acceptance, FAILED that attempt's refusal. */
  lemma {:induction false} RowStatesItsWriter(events: seq<Event>, id: Uuid)
    requires id in Run(events).rows
    ensures var w := Run(events);
            && id in w.writers && Landed(w, w.writers[id]) && IdAt(w, w.writers[id]) == id
            && Reports(w.rows[id], MailAt(w, w.writers[id]).value, w.attempts[w.writers[id]].call.value)
            && !w.attempts[w.writers[id]].call.value.answer.Breaks?
            && forall a | Landed(w, a) && IdAt(w, a) == id :: a == w.writers[id]
  {
    LedgerHolds(events);
    var w := Run(events);
    forall a | Landed(w, a) && IdAt(w, a) == id ensures a == w.writers[id] {
      assert AttemptOk(w, a);
    }
    assert AttemptOk(w, w.writers[id]);
    StoredReports(MailAt(w, w.writers[id]).value, w.attempts[w.writers[id]].call.value);
  }

  // ------------------------------------------------------- rows and acks are final

  predicate Contains(big: World, small: World) {
    && (forall id | id in small.rows :: id in big.rows && big.rows[id] == small.rows[id])
    && |small.messages| <= |big.messages|
    && forall m | 0 <= m < |small.messages| ::
         && big.messages[m].raw == small.messages[m].raw
         && small.messages[m].deliveries <= big.messages[m].deliveries
         && (small.messages[m].status.Acked? ==> big.messages[m].status.Acked?)
         && (small.messages[m].status.DeadLettered? ==> big.messages[m].status.DeadLettered?)
  }

  lemma InsertContains(w: World, a: nat, f: Fault)
    requires QueueInv(w) && LedgerInv(w) && Enabled(w, Insert(a, f))
    ensures Contains(Apply(w, Insert(a, f)), w)
  {
    InsertShape(w, a, f);
    InsertRows(w, a, f);
    GrownContains(w, Apply(w, Insert(a, f)), IdAt(w, a));
  }

  lemma GrownContains(w: World, v: World, id: Uuid)
    requires v.messages == w.messages
    requires v.rows == w.rows || (id !in w.rows && id in v.rows && v.rows == w.rows[id := v.rows[id]])
    ensures Contains(v, w)
  {
  }

  lemma PublishContains(w: World, raw: seq<Byte>)
    ensures Contains(Apply(w, Publish(raw)), w)
  {
  }

  /** An event that replaces one message by a version of it that is no less final. */
  lemma MessageContains(w: World, v: World, m: nat)
    requires m < |w.messages| == |v.messages| && v.rows == w.rows
    requires forall k | 0 <= k < |w.messages| && k != m :: v.messages[k] == w.messages[k]
    requires v.messages[m].raw == w.messages[m].raw && v.messages[m].deliveries >= w.messages[m].deliveries
    requires w.messages[m].status.Acked? ==> v.messages[m].status.Acked?
    requires w.messages[m].status.DeadLettered? ==> v.messages[m].status.DeadLettered?
    ensures Contains(v, w)
  {
  }

  lemma AnswerContains(w: World, a: nat, arrives: bool)
    requires Enabled(w, Answer(a, arrives))
    ensures Contains(Apply(w, Answer(a, arrives)), w)
  {
    MessageContains(w, Apply(w, Answer(a, arrives)), w.attempts[a].message);
  }

  lemma StepContains(w: World, e: Event)
    requires QueueInv(w) && LedgerInv(w)
    ensures Contains(Next(w, e), w)
  {
    if Enabled(w, e) {
      match e
      case Publish(raw) => PublishContains(w, raw);
      case Deliver(m) => MessageContains(w, Apply(w, e), m);
      case Call(_, _) => ContainsItself(w, Apply(w, e));
      case Insert(a, f) => InsertContains(w, a, f);
      case Answer(a, arrives) => AnswerContains(w, a, arrives);
      case Expire(m) => MessageContains(w, Apply(w, e), m);
      case Crash(_) => ContainsItself(w, Apply(w, e));
    } else {
      ContainsItself(w, w);
    }
  }

  lemma ContainsItself(w: World, v: World)
    requires v.messages == w.messages && v.rows == w.rows
    ensures Contains(v, w)
  {
  }

  lemma OneMoreContains(events: seq<Event>, more: seq<Event>)
    requires more != []
    ensures Contains(Run(events + more), Run(events + more[..|more| - 1]))
  {
    RunMore(events, more);
    LedgerHolds(events + more[..|more| - 1]);
    StepContains(Run(events + more[..|more| - 1]), more[|more| - 1]);
  }

  lemma ContainsTransitive(a: World, b: World, c: World)
    requires Contains(a, b) && Contains(b, c)
    ensures Contains(a, c)
  {
  }

  /** No row is ever changed or removed, no message disappears, and acked and dead-lettered are final. */
  lemma {:induction false} NothingIsUndone(events: seq<Event>, more: seq<Event>)
    ensures Contains(Run(events + more), Run(events))
  {
    if more == [] {
      assert events + more == events;
    } else {
      var init := more[..|more| - 1];
      NothingIsUndone(events, init);
      OneMoreContains(events, more);
      ContainsTransitive(Run(events + more), Run(events + init), Run(events));
    }
  }

  /** What was published, in order. */
  function Published(events: seq<Event>): seq<seq<Byte>> {
    if events == [] then []
    else
      var last := events[|events| - 1];
      Published(events[..|events| - 1]) + if last.Publish? then [last.raw] else []
  }

  predicate Holds(w: World, raws: seq<seq<Byte>>) {
    |w.messages| == |raws| && forall m | 0 <= m < |raws| :: w.messages[m].raw == raws[m]
  }

  lemma HoldsStep(w: World, e: Event, raws: seq<seq<Byte>>)
    requires QueueInv(w) && Holds(w, raws)
    ensures Holds(Next(w, e), raws + if e.Publish? then [e.raw] else [])
  {
    if Enabled(w, e) {
      match e
      case Publish(_) =>
      case Deliver(_) =>
      case _ =>
    }
  }

  /** Conservation: at every moment the queue accounts for exactly the messages published so far, each with the
      bytes it was published with and, being a value of Status, in exactly one of the four states. */
  lemma {:induction false} MessagesAreConserved(events: seq<Event>)
    ensures Holds(Run(events), Published(events))
  {
    if events != [] {
      MessagesAreConserved(events[..|events| - 1]);
      QueueRun(events[..|events| - 1]);
      HoldsStep(Run(events[..|events| - 1]), events[|events| - 1], Published(events[..|events| - 1]));
    }
  }

  // -------------------------------------------------------------- acked means recorded

  predicate AckedOk(w: World, m: nat)
    requires m < |w.messages|
  {
    w.messages[m].status.Acked? ==> w.messages[m].mail.Some? && w.messages[m].mail.value.deliveryId in w.rows
  }

  lemma AnswerIsBacked(w: World, a: nat)
    requires QueueInv(w) && LedgerInv(w) && Working(w, a) && Verdict(w, a) == Some(Ack)
    ensures MailAt(w, a).Some? && IdAt(w, a) in w.rows
  {
    assert AttemptOk(w, a);
  }

  lemma OnlyAnAckAcks(w: World, e: Event, m: nat)
    requires QueueInv(w) && m < |Next(w, e).messages| && Next(w, e).messages[m].status.Acked?
    ensures m < |w.messages| && Next(w, e).messages[m].mail == w.messages[m].mail
    ensures w.messages[m].status.Acked? ||
            (Enabled(w, e) && e.Answer? && e.arrives && w.attempts[e.a].message == m && Verdict(w, e.a) == Some(Ack))
  {
  }

  lemma AckedStep(w: World, e: Event)
    requires QueueInv(w) && LedgerInv(w) && forall m | 0 <= m < |w.messages| :: AckedOk(w, m)
    ensures var v := Next(w, e); forall m | 0 <= m < |v.messages| :: AckedOk(v, m)
  {
    var v := Next(w, e);
    StepContains(w, e);
    forall m | 0 <= m < |v.messages| && v.messages[m].status.Acked? ensures AckedOk(v, m) {
      OnlyAnAckAcks(w, e, m);
      if w.messages[m].status.Acked? {
        assert AckedOk(w, m);
      } else {
        AnswerIsBacked(w, e.a);
      }
    }
  }

  lemma AckedRun(events: seq<Event>)
    ensures var w := Run(events); forall m | 0 <= m < |w.messages| :: AckedOk(w, m)
  {
    if events != [] {
      var init := events[..|events| - 1];
      AckedRun(init);
      LedgerHolds(init);
      AckedStep(Run(init), events[|events| - 1]);
    }
  }

  /** A message that was acked could be read, and its row is in the ledger, for good. Bytes that cannot be read
      or name another channel are never acked. */
  lemma {:induction false} AckedMeansRecorded(events: seq<Event>, more: seq<Event>, m: nat)
    requires m < |Run(events).messages| && Run(events).messages[m].status.Acked?
    ensures Sendable(Run(events).messages[m].raw)
    ensures var id := FromJson(Run(events).messages[m].raw).envelope.deliveryId;
            id in Run(events).rows && id in Run(events + more).rows && Run(events + more).rows[id] == Run(events).rows[id]
  {
    AckedRun(events);
    QueueRun(events);
    NothingIsUndone(events, more);
    assert AckedOk(Run(events), m);
  }

  // ------------------------------------------------ only a message's own write acks it

  /** Attempt a is on message m and was told that the row is in the table; its record fits the columns. */
  predicate WroteFor(w: World, m: nat, a: nat) {
    && a < |w.attempts| && m < |w.messages| && w.attempts[a].message == m
    && w.messages[m].mail.Some? && w.attempts[a].call.Some? && w.attempts[a].write.Some?
    && w.attempts[a].write.value.seen in {New, Duplicate}
    && Fitting(RecordOf(w.messages[m].mail.value, w.attempts[a].call.value))
  }

  predicate AttemptFits(w: World, a: nat)
    requires a < |w.attempts|
  {
    w.attempts[a].write.Some? && w.attempts[a].write.value.seen in {New, Duplicate} ==>
      WroteFor(w, w.attempts[a].message, a)
  }

  predicate AllFit(w: World) { forall a | 0 <= a < |w.attempts| :: AttemptFits(w, a) }

  /** What an attempt wrote stays written for its message. */
  lemma WroteForStep(w: World, e: Event, m: nat, a: nat)
    requires QueueInv(w) && WroteFor(w, m, a)
    ensures WroteFor(Next(w, e), m, a)
  {
    MailStays(w, e, m);
    WrittenStays(w, e, a);
  }

  lemma MailStays(w: World, e: Event, m: nat)
    requires QueueInv(w) && m < |w.messages|
    ensures m < |Next(w, e).messages| && Next(w, e).messages[m].mail == w.messages[m].mail
  {
  }

  lemma WrittenStays(w: World, e: Event, a: nat)
    requires QueueInv(w) && a < |w.attempts| && w.attempts[a].call.Some? && w.attempts[a].write.Some?
    ensures a < |Next(w, e).attempts|
    ensures Next(w, e).attempts[a].(over := w.attempts[a].over) == w.attempts[a]
  {
  }

  lemma InsertFits(w: World, a: nat, f: Fault)
    requires QueueInv(w) && Enabled(w, Insert(a, f))
    ensures AttemptFits(Apply(w, Insert(a, f)), a)
  {
    RecordedMeansFitting(w.rows, RecordOf(MailAt(w, a).value, w.attempts[a].call.value), f);
  }

  /** Only an insert tells an attempt anything new. */
  lemma OnlyInsertTells(w: World, e: Event, a: nat)
    requires QueueInv(w) && Enabled(w, e) && a < |Apply(w, e).attempts|
    ensures Apply(w, e).attempts[a].write.Some? ==>
              (e.Insert? && e.a == a) || (a < |w.attempts| && w.attempts[a].write == Apply(w, e).attempts[a].write)
    ensures a < |w.attempts| ==> Apply(w, e).attempts[a].message == w.attempts[a].message
  {
  }

  lemma FitStep(w: World, e: Event)
    requires QueueInv(w) && AllFit(w)
    ensures AllFit(Next(w, e))
  {
    if Enabled(w, e) {
      forall a | 0 <= a < |Next(w, e).attempts| ensures AttemptFits(Next(w, e), a) {
        OnlyInsertTells(w, e, a);
        if e.Insert? && e.a == a {
          InsertFits(w, a, e.fault);
        } else if a < |w.attempts| && Next(w, e).attempts[a].write.Some? {
          assert AttemptFits(w, a);
          if WroteFor(w, w.attempts[a].message, a) { WroteForStep(w, e, w.attempts[a].message, a); }
        }
      }
    }
  }

  lemma {:induction false} FitRun(events: seq<Event>)
    ensures AllFit(Run(events))
  {
    if events != [] {
      FitRun(events[..|events| - 1]);
      QueueRun(events[..|events| - 1]);
      FitStep(Run(events[..|events| - 1]), events[|events| - 1]);
    }
  }

  /** An acked message was acked on the strength of an attempt of its own, whose record the table takes. */
  lemma {:induction false} AckedByItsOwnAttempt(events: seq<Event>, m: nat) returns (a: nat)
    requires m < |Run(events).messages| && Run(events).messages[m].status.Acked?
    ensures WroteFor(Run(events), m, a)
  {
    var init, last := events[..|events| - 1], events[|events| - 1];
    var w := Run(init);
    QueueRun(init);
    FitRun(init);
    OnlyAnAckAcks(w, last, m);
    if w.messages[m].status.Acked? {
      a := AckedByItsOwnAttempt(init, m);
    } else {
      a := last.a;
      assert AttemptFits(w, a);
    }
    WroteForStep(w, last, m, a);
  }

  /** No record made from this mail fits the table, whatever the provider answers. */
  ghost predicate Unwritable(e: SendRequested) { forall c: AdapterCall :: !Fitting(RecordOf(e, c)) }

  /** A message whose row can never be written is never acked, in no run and however often the provider is called
      for it; one with a lone surrogate in its recipient is such a message. */
  lemma {:induction false} UnwritableIsNeverAcked(events: seq<Event>, m: nat)
    requires m < |Run(events).messages| && Run(events).messages[m].mail.Some?
    requires Unwritable(Run(events).messages[m].mail.value) || LoneRecipient(Run(events).messages[m].mail.value)
    ensures !Run(events).messages[m].status.Acked?
  {
    if Run(events).messages[m].status.Acked? {
      var a := AckedByItsOwnAttempt(events, m);
    }
  }
}
