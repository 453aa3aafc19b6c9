/** What one more event does to the queue at the end of any run, told without the transition function: deliveries that
    fail, answers that count, and what every event leaves alone. */
module DeliverySteps {
  import opened Texts
  import opened Envelope
  import opened Ledger
  import opened AtLeastOnce
  import opened DeliverySafety
  import opened DeliveryProgress

  /** The same message after a delivery that failed: waiting again below five deliveries, given up at five, and its
      count as it was. */
  predicate Returned(before: Message, after: Message) {
    && after.raw == before.raw && after.mail == before.mail && after.deliveries == before.deliveries
    && (before.deliveries < 5 ==> after.status == Queued)
    && (before.deliveries == 5 ==> after.status == DeadLettered)
  }

  /** Nothing but message m has changed on the queue, and the rows have not. */
  predicate OnlyMessage(w: World, v: World, m: nat) {
    && v.rows == w.rows && |v.messages| == |w.messages|
    && forall k | 0 <= k < |w.messages| && k != m :: v.messages[k] == w.messages[k]
  }

  /** Nothing but attempt a has changed among the attempts. */
  predicate OnlyAttempt(w: World, v: World, a: nat) {
    && |v.attempts| == |w.attempts|
    && forall b | 0 <= b < |w.attempts| && b != a :: v.attempts[b] == w.attempts[b]
  }

  /** A message that waits is delivered: one attempt more, on this message, and one delivery more on its count. */
  lemma {:induction false} DeliveryStep(events: seq<Event>, m: nat)
    requires m < |Run(events).messages| && Run(events).messages[m].status.Queued?
    ensures var w, v := Run(events), Run(events + [Deliver(m)]);
            && OnlyMessage(w, v, m)
            && v.messages[m] == w.messages[m].(status := InFlight(|w.attempts|), deliveries := w.messages[m].deliveries + 1)
            && v.attempts == w.attempts + [Attempt(m, None, None, false)]
  {
    QueueRun(events);
    RunOne(events, Deliver(m));
  }

  /** A deadline that expires. */
  lemma {:induction false} ExpiryStep(events: seq<Event>, m: nat)
    requires m < |Run(events).messages| && Run(events).messages[m].status.InFlight?
    ensures var w, v := Run(events), Run(events + [Expire(m)]);
            && OnlyMessage(w, v, m) && v.attempts == w.attempts
            && Returned(w.messages[m], v.messages[m])
  {
    QueueRun(events);
    RunOne(events, Expire(m));
  }

  /** The consumer of attempt a is at work, on a message it can or cannot read. */
  predicate Busy(w: World, a: nat) {
    a < |w.attempts| && !w.attempts[a].over && w.attempts[a].message < |w.messages|
  }

  /** It has been told that the row is in the table. */
  predicate Recorded(t: Attempt) { t.write.Some? && t.write.value.seen in {New, Duplicate} }

  /** It has been told that the write failed. */
  predicate NotRecorded(t: Attempt) { t.write.Some? && t.write.value.seen.LedgerWriteError? }

  /** An ack that arrives, however late, removes the message unless it has been given up; a lost one changes nothing
      on the queue. */
  lemma {:induction false} AckStep(events: seq<Event>, a: nat, arrives: bool)
    requires Busy(Run(events), a) && Recorded(Run(events).attempts[a])
    ensures var w, v := Run(events), Run(events + [Answer(a, arrives)]);
            var m := w.attempts[a].message;
            && OnlyMessage(w, v, m) && OnlyAttempt(w, v, a) && v.attempts[a] == w.attempts[a].(over := true)
            && v.messages[m] == if arrives && w.messages[m].status != DeadLettered
                                then w.messages[m].(status := Acked) else w.messages[m]
  {
    LedgerHolds(events);
    RecordedAcks(Run(events), a);
    RunOne(events, Answer(a, arrives));
    AckChanges(Run(events), a, arrives);
  }

  lemma RecordedAcks(w: World, a: nat)
    requires LedgerInv(w) && Busy(w, a) && Recorded(w.attempts[a])
    ensures Verdict(w, a) == Some(Ack)
  {
    assert AttemptOk(w, a);
  }

  lemma AckChanges(w: World, a: nat, arrives: bool)
    requires Busy(w, a) && Verdict(w, a) == Some(Ack)
    ensures var v, m := Next(w, Answer(a, arrives)), w.attempts[a].message;
            && OnlyMessage(w, v, m) && OnlyAttempt(w, v, a) && v.attempts[a] == w.attempts[a].(over := true)
            && v.messages[m] == if arrives && w.messages[m].status != DeadLettered
                                then w.messages[m].(status := Acked) else w.messages[m]
  {
  }

  /** A nack that arrives returns the message if it is for the delivery under way, and is ignored otherwise. */
  lemma {:induction false} NackStep(events: seq<Event>, a: nat, arrives: bool)
    requires Busy(Run(events), a)
    requires NotRecorded(Run(events).attempts[a]) || !Sendable(Run(events).messages[Run(events).attempts[a].message].raw)
    ensures var w, v := Run(events), Run(events + [Answer(a, arrives)]);
            var m := w.attempts[a].message;
            && OnlyMessage(w, v, m) && OnlyAttempt(w, v, a) && v.attempts[a] == w.attempts[a].(over := true)
            && if arrives && w.messages[m].status == InFlight(a) then Returned(w.messages[m], v.messages[m])
               else v.messages[m] == w.messages[m]
  {
    LedgerHolds(events);
    NotRecordedNacks(Run(events), a);
    RunOne(events, Answer(a, arrives));
    NackChanges(Run(events), a, arrives);
  }

  lemma NotRecordedNacks(w: World, a: nat)
    requires LedgerInv(w) && Busy(w, a)
    requires NotRecorded(w.attempts[a]) || !Sendable(w.messages[w.attempts[a].message].raw)
    ensures Verdict(w, a) == Some(Nack)
  {
    assert AttemptOk(w, a);
  }

  lemma NackChanges(w: World, a: nat, arrives: bool)
    requires QueueInv(w) && Busy(w, a) && Verdict(w, a) == Some(Nack)
    ensures var v, m := Next(w, Answer(a, arrives)), w.attempts[a].message;
            && OnlyMessage(w, v, m) && OnlyAttempt(w, v, a) && v.attempts[a] == w.attempts[a].(over := true)
            && if arrives && w.messages[m].status == InFlight(a) then Returned(w.messages[m], v.messages[m])
               else v.messages[m] == w.messages[m]
  {
  }

  /** A consumer that has sent or not yet sent, but was told nothing of its row, has no answer to give; one that dies
      leaves the queue and the rows as they are. */
  lemma {:induction false} SilentStep(events: seq<Event>, a: nat, arrives: bool)
    requires Busy(Run(events), a)
    ensures var w := Run(events);
            Sendable(w.messages[w.attempts[a].message].raw) && w.attempts[a].write.None? ==>
              Run(events + [Answer(a, arrives)]) == w
    ensures var w, v := Run(events), Run(events + [Crash(a)]);
            && v.messages == w.messages && v.rows == w.rows
            && OnlyAttempt(w, v, a) && v.attempts[a] == w.attempts[a].(over := true)
  {
    QueueRun(events);
    RunOne(events, Answer(a, arrives));
    RunOne(events, Crash(a));
  }

  /** The provider is called for mail only, and only with an envelope that could be read. */
  lemma {:induction false} OnlyMailIsSent(events: seq<Event>, a: nat)
    requires a < |Run(events).attempts| && Run(events).attempts[a].call.Some?
    ensures var w := Run(events);
            && w.attempts[a].message < |w.messages|
            && var read := FromJson(w.messages[w.attempts[a].message].raw);
               read.Accepted? && read.envelope.channel == Email && MailAt(w, a) == Some(read.envelope)
  {
    LedgerHolds(events);
    assert AttemptOk(Run(events), a);
  }

  /** The call leaves rows and queue alone, and ends the attempt if the adapter breaks; an exception around the INSERT
      that is no database error ends it too, with no row written. */
  lemma {:induction false} CallStep(events: seq<Event>, a: nat, c: AdapterCall)
    requires Busy(Run(events), a) && Run(events).attempts[a].call.None?
    requires Sendable(Run(events).messages[Run(events).attempts[a].message].raw)
    ensures var w, v := Run(events), Run(events + [Call(a, c)]);
            && v.messages == w.messages && v.rows == w.rows && OnlyAttempt(w, v, a)
            && v.attempts[a] == w.attempts[a].(call := Some(c), over := c.answer.Breaks?)
            && (!c.answer.Breaks? ==>
                 var x := Run(events + [Call(a, c)] + [Insert(a, NotDbapi)]);
                 && x.messages == w.messages && x.rows == w.rows && OnlyAttempt(w, x, a) && x.attempts[a].over)
  {
    LedgerHolds(events);
    var w := Run(events);
    assert AttemptOk(w, a);
    RunOne(events, Call(a, c));
    RunOne(events + [Call(a, c)], Insert(a, NotDbapi));
    CallChanges(w, a, c);
  }

  lemma CallChanges(w: World, a: nat, c: AdapterCall)
    requires Shaped(w) && Busy(w, a) && MailAt(w, a).Some? && w.attempts[a].call.None? && w.attempts[a].write.None?
    ensures var v := Next(w, Call(a, c));
            && v.messages == w.messages && v.rows == w.rows && OnlyAttempt(w, v, a)
            && v.attempts[a] == w.attempts[a].(call := Some(c), over := c.answer.Breaks?)
            && (!c.answer.Breaks? ==>
                 var x := Next(v, Insert(a, NotDbapi));
                 && x.messages == w.messages && x.rows == w.rows && OnlyAttempt(w, x, a) && x.attempts[a].over)
  {
    var v := Next(w, Call(a, c));
    assert v == Apply(w, Call(a, c));
    if !c.answer.Breaks? {
      assert Next(v, Insert(a, NotDbapi)) == Apply(v, Insert(a, NotDbapi));
    }
  }
}
