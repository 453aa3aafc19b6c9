/** How often the provider is called, that every message comes to an end, and what a run without faults does. */
module DeliveryProgress {
  import opened Texts
  import opened Uuids
  import opened Envelope
  import opened Ledger
  import opened AtLeastOnce
  import opened DeliverySafety
  import opened Sets

  // ------------------------------------------------------------- call bounds

  /** The attempts on any of these messages. */
  function AttemptsOn(w: World, ms: set<nat>): set<nat> {
    set a | 0 <= a < |w.attempts| && w.attempts[a].message in ms
  }

  /** The attempts in which the provider was called for this id. */
  function CallsFor(w: World, id: Uuid): set<nat>
    requires Shaped(w)
  {
    set a | 0 <= a < |w.attempts| && w.attempts[a].call.Some? && MailAt(w, a).Some? && IdAt(w, a) == id
  }

  function MessagesWith(w: World, id: Uuid): set<nat> {
    set m | 0 <= m < |w.messages| && w.messages[m].mail.Some? && w.messages[m].mail.value.deliveryId == id
  }

  predicate Counted(w: World, m: nat)
    requires m < |w.messages|
  {
    |AttemptsOn(w, {m})| == w.messages[m].deliveries
  }

  lemma DeliverCounts(w: World, k: nat, m: nat)
    requires QueueInv(w) && Enabled(w, Deliver(k)) && m < |w.messages| && Counted(w, m)
    ensures Counted(Apply(w, Deliver(k)), m)
  {
    var v := Apply(w, Deliver(k));
    if k == m {
      assert AttemptsOn(v, {m}) == AttemptsOn(w, {m}) + {|w.attempts|};
    } else {
      assert AttemptsOn(v, {m}) == AttemptsOn(w, {m});
    }
  }

  lemma CountedStep(w: World, e: Event, m: nat)
    requires QueueInv(w) && m < |Next(w, e).messages| && (m < |w.messages| ==> Counted(w, m))
    ensures Counted(Next(w, e), m)
  {
    if e.Deliver? && Enabled(w, e) {
      DeliverCounts(w, e.m, m);
    } else {
      assert AttemptsOn(Next(w, e), {m}) == AttemptsOn(w, {m});
      if m >= |w.messages| { assert AttemptsOn(w, {m}) == {}; }
    }
  }

  /** The queue's delivery count is the number of attempts, and never exceeds five. */
  lemma {:induction false} AttemptsAreDeliveries(events: seq<Event>, m: nat)
    requires m < |Run(events).messages|
    ensures Counted(Run(events), m) && Run(events).messages[m].deliveries <= MAX_DELIVERY_ATTEMPTS
  {
    QueueRun(events);
    var init := events[..|events| - 1];
    QueueRun(init);
    if m < |Run(init).messages| { AttemptsAreDeliveries(init, m); }
    CountedStep(Run(init), events[|events| - 1], m);
  }

  lemma {:induction false} AttemptsBound(events: seq<Event>, ms: set<nat>)
    requires forall m | m in ms :: m < |Run(events).messages|
    ensures |AttemptsOn(Run(events), ms)| <= MAX_DELIVERY_ATTEMPTS * |ms|
  {
    var w := Run(events);
    if ms == {} {
      assert AttemptsOn(w, ms) == {};
    } else {
      var m :| m in ms;
      AttemptsBound(events, ms - {m});
      AttemptsAreDeliveries(events, m);
      assert AttemptsOn(w, ms) == AttemptsOn(w, ms - {m}) + AttemptsOn(w, {m});
    }
  }

  /** In every run the provider is called for an id at most five times per message published with it; with one
      message, never more often than that message was delivered. */
  lemma {:induction false} CallsAreBounded(events: seq<Event>, id: Uuid)
    ensures Shaped(Run(events))
    ensures |CallsFor(Run(events), id)| <= MAX_DELIVERY_ATTEMPTS * |MessagesWith(Run(events), id)|
    ensures forall m :: MessagesWith(Run(events), id) == {m} && m < |Run(events).messages| ==>
              |CallsFor(Run(events), id)| <= Run(events).messages[m].deliveries <= MAX_DELIVERY_ATTEMPTS
  {
    QueueRun(events);
    var w := Run(events);
    var ms := MessagesWith(w, id);
    assert CallsFor(w, id) <= AttemptsOn(w, ms);
    SubsetSize(CallsFor(w, id), AttemptsOn(w, ms));
    AttemptsBound(events, ms);
    forall m | ms == {m} && m < |w.messages|
      ensures |CallsFor(w, id)| <= w.messages[m].deliveries <= MAX_DELIVERY_ATTEMPTS
    {
      AttemptsAreDeliveries(events, m);
    }
  }

  // -------------------------------------------------------------- termination

  function MessageRank(m: Message): nat {
    var left := if m.deliveries <= MAX_DELIVERY_ATTEMPTS then MAX_DELIVERY_ATTEMPTS - m.deliveries else 0;
    match m.status
    case Queued => 5 * left
    case InFlight(_) => 5 * left + 1
    case Acked => 0
    case DeadLettered => 0
  }

  function AttemptRank(t: Attempt): nat {
    if t.over then 0 else if t.write.Some? then 1 else if t.call.Some? then 2 else 3
  }

  function MessageRanks(ms: seq<Message>): nat {
    if ms == [] then 0 else MessageRanks(ms[..|ms| - 1]) + MessageRank(ms[|ms| - 1])
  }

  function AttemptRanks(ts: seq<Attempt>): nat {
    if ts == [] then 0 else AttemptRanks(ts[..|ts| - 1]) + AttemptRank(ts[|ts| - 1])
  }

  /** What is left to do: delivery attempts of the messages and phases of the attempts. */
  function Measure(w: World): nat { MessageRanks(w.messages) + AttemptRanks(w.attempts) }

  lemma {:induction false} MessageChanged(ms: seq<Message>, m: nat, x: Message)
    requires m < |ms|
    ensures MessageRanks(ms[m := x]) + MessageRank(ms[m]) == MessageRanks(ms) + MessageRank(x)
  {
    var init := ms[..|ms| - 1];
    if m < |ms| - 1 {
      MessageChanged(init, m, x);
      assert ms[m := x][..|ms| - 1] == init[m := x];
    } else {
      assert ms[m := x][..|ms| - 1] == init;
    }
  }

  lemma {:induction false} AttemptChanged(ts: seq<Attempt>, a: nat, x: Attempt)
    requires a < |ts|
    ensures AttemptRanks(ts[a := x]) + AttemptRank(ts[a]) == AttemptRanks(ts) + AttemptRank(x)
  {
    var init := ts[..|ts| - 1];
    if a < |ts| - 1 {
      AttemptChanged(init, a, x);
      assert ts[a := x][..|ts| - 1] == init[a := x];
    } else {
      assert ts[a := x][..|ts| - 1] == init;
    }
  }

  lemma MessageAdded(ms: seq<Message>, x: Message)
    ensures MessageRanks(ms + [x]) == MessageRanks(ms) + MessageRank(x)
  {
    assert (ms + [x])[..|ms|] == ms;
  }

  lemma AttemptAdded(ts: seq<Attempt>, x: Attempt)
    ensures AttemptRanks(ts + [x]) == AttemptRanks(ts) + AttemptRank(x)
  {
    assert (ts + [x])[..|ts|] == ts;
  }

  lemma PublishMeasure(w: World, raw: seq<Byte>)
    ensures Measure(Apply(w, Publish(raw))) == Measure(w) + 25
  {
    MessageAdded(w.messages, Message(raw, MailOf(raw), Queued, 0));
  }

  lemma DeliverMeasure(w: World, m: nat)
    requires QueueInv(w) && Enabled(w, Deliver(m))
    ensures Measure(Apply(w, Deliver(m))) < Measure(w)
  {
    var v := Apply(w, Deliver(m));
    MessageChanged(w.messages, m, v.messages[m]);
    AttemptAdded(w.attempts, v.attempts[|w.attempts|]);
  }

  lemma AttemptMeasure(w: World, v: World, a: nat)
    requires a < |w.attempts| && |v.attempts| == |w.attempts| && v.messages == w.messages
    requires v.attempts == w.attempts[a := v.attempts[a]]
    requires AttemptRank(v.attempts[a]) < AttemptRank(w.attempts[a])
    ensures Measure(v) < Measure(w)
  {
    AttemptChanged(w.attempts, a, v.attempts[a]);
  }

  lemma ExpireMeasure(w: World, m: nat)
    requires QueueInv(w) && Enabled(w, Expire(m))
    ensures Measure(Apply(w, Expire(m))) < Measure(w)
  {
    MessageChanged(w.messages, m, Apply(w, Expire(m)).messages[m]);
  }

  lemma AnswerMeasure(w: World, e: Event, v: World)
    requires QueueInv(w) && Enabled(w, e) && e.Answer? && v == Apply(w, e)
    ensures Measure(v) < Measure(w)
  {
    var m := w.attempts[e.a].message;
    AttemptChanged(w.attempts, e.a, v.attempts[e.a]);
    if e.arrives {
      MessageChanged(w.messages, m, v.messages[m]);
    }
  }

  /** Every event that happens, other than a publish, uses up some of what is left. */
  lemma MeasureStep(w: World, e: Event)
    requires QueueInv(w) && LedgerInv(w) && Enabled(w, e)
    ensures e.Publish? ==> Measure(Apply(w, e)) == Measure(w) + 25
    ensures !e.Publish? ==> Measure(Apply(w, e)) < Measure(w)
  {
    match e
    case Publish(raw) => PublishMeasure(w, raw);
    case Deliver(m) => DeliverMeasure(w, m);
    case Answer(a, _) => AnswerMeasure(w, e, Apply(w, e));
    case Expire(m) => ExpireMeasure(w, m);
    case Call(a, _) =>
      assert AttemptOk(w, a);
      AttemptMeasure(w, Apply(w, e), a);
    case Insert(a, _) => AttemptMeasure(w, Apply(w, e), a);
    case Crash(a) => AttemptMeasure(w, Apply(w, e), a);
  }

  /** How many events of a run happened, publishes aside. */
  function Happened(events: seq<Event>): nat {
    if events == [] then 0
    else
      var init, last := events[..|events| - 1], events[|events| - 1];
      Happened(init) + if Enabled(Run(init), last) && !last.Publish? then 1 else 0
  }

  /** No run goes on for ever: with n messages published at most 25 n further events can happen. */
  lemma {:induction false} RunsEnd(events: seq<Event>)
    ensures Happened(events) + Measure(Run(events)) <= 25 * |Run(events).messages|
  {
    if events != [] {
      var init, last := events[..|events| - 1], events[|events| - 1];
      RunsEnd(init);
      LedgerHolds(init);
      if Enabled(Run(init), last) { MeasureStep(Run(init), last); }
    }
  }

  predicate AllSettled(w: World) {
    && (forall m | 0 <= m < |w.messages| :: w.messages[m].status.Acked? || w.messages[m].status.DeadLettered?)
    && (forall a | 0 <= a < |w.attempts| :: w.attempts[a].over)
  }

  /** Nothing but a publish can happen any more exactly when every message is acked or dead-lettered and every
      consumer is done: with RunsEnd, every message reaches one of the two. */
  lemma {:induction false} StuckMeansSettled(events: seq<Event>)
    ensures var w := Run(events); AllSettled(w) <==> forall e: Event | Enabled(w, e) :: e.Publish?
  {
    QueueRun(events);
    var w := Run(events);
    if forall e: Event | Enabled(w, e) :: e.Publish? {
      forall m | 0 <= m < |w.messages| ensures w.messages[m].status.Acked? || w.messages[m].status.DeadLettered? {
        assert !Enabled(w, Deliver(m)) && !Enabled(w, Expire(m));
      }
      forall a | 0 <= a < |w.attempts| ensures w.attempts[a].over {
        assert !Enabled(w, Crash(a));
      }
    }
  }

  // ------------------------------------------------------- every run comes to an end

  predicate NoPublish(events: seq<Event>) { forall i :: 0 <= i < |events| ==> !events[i].Publish? }

  /** Continuing a run without publishing uses up its measure, one event at a time. */
  lemma {:induction false} MeasureBounds(events: seq<Event>, more: seq<Event>)
    requires NoPublish(more)
    ensures Happened(events + more) + Measure(Run(events + more)) <= Happened(events) + Measure(Run(events))
  {
    if more == [] {
      assert events + more == events;
    } else {
      var init, last := more[..|more| - 1], more[|more| - 1];
      RunMore(events, more);
      assert forall i :: 0 <= i < |init| ==> init[i] == more[i];
      MeasureBounds(events, init);
      LedgerHolds(events + init);
      if Enabled(Run(events + init), last) { MeasureStep(Run(events + init), last); }
    }
  }

  lemma HappenedOne(events: seq<Event>, e: Event)
    ensures Happened(events + [e]) == Happened(events) + if Enabled(Run(events), e) && !e.Publish? then 1 else 0
  {
    assert (events + [e])[..|events|] == events;
  }

  /** From every run, whatever it met: a continuation without publishes has at most Measure events that happen, and
      it cannot be made longer exactly when it has brought every message to an ack or to the dead-letter topic and
      every consumer to its end. */
  lemma {:induction false} EveryMessageSettles(events: seq<Event>, more: seq<Event>)
    requires NoPublish(more)
    ensures Happened(events + more) - Happened(events) <= Measure(Run(events)) <= 25 * |Run(events).messages|
    ensures (forall e: Event | !e.Publish? :: Happened(events + more + [e]) == Happened(events + more))
            <==> AllSettled(Run(events + more))
  {
    MeasureBounds(events, more);
    RunsEnd(events);
    StuckMeansSettled(events + more);
    forall e: Event | !e.Publish?
      ensures Happened(events + more + [e]) == Happened(events + more) <==> !Enabled(Run(events + more), e)
    {
      HappenedOne(events + more, e);
    }
  }

  /** Such a continuation always exists. */
  lemma {:induction false} SettlingContinuation(events: seq<Event>) returns (more: seq<Event>)
    ensures NoPublish(more) && AllSettled(Run(events + more))
    decreases Measure(Run(events))
  {
    if AllSettled(Run(events)) {
      more := [];
      assert events + more == events;
    } else {
      var e := SomethingLeft(events);
      var rest := SettlingContinuation(events + [e]);
      more := [e] + rest;
      OneBefore(events, e, rest);
    }
  }

  lemma OneBefore(events: seq<Event>, e: Event, rest: seq<Event>)
    requires !e.Publish? && NoPublish(rest)
    ensures events + ([e] + rest) == events + [e] + rest && NoPublish([e] + rest)
  {
  }

  lemma SomethingLeft(events: seq<Event>) returns (e: Event)
    requires !AllSettled(Run(events))
    ensures !e.Publish? && Measure(Run(events + [e])) < Measure(Run(events))
  {
    StuckMeansSettled(events);
    e :| Enabled(Run(events), e) && !e.Publish?;
    LedgerHolds(events);
    MeasureStep(Run(events), e);
    RunOne(events, e);
  }

  /** A message whose row can never be written ends on the dead-letter topic, after five attempts. */
  lemma {:induction false} UnwritableIsDeadLettered(events: seq<Event>, m: nat)
    requires m < |Run(events).messages| && Run(events).messages[m].mail.Some? && AllSettled(Run(events))
    requires Unwritable(Run(events).messages[m].mail.value) || LoneRecipient(Run(events).messages[m].mail.value)
    ensures Run(events).messages[m].status.DeadLettered? && |AttemptsOn(Run(events), {m})| == 5
  {
    UnwritableIsNeverAcked(events, m);
    QueueRun(events);
    AttemptsAreDeliveries(events, m);
  }

  // --------------------------------------------------- the resend after a row exists

  lemma RunOne(events: seq<Event>, e: Event)
    ensures Run(events + [e]) == Next(Run(events), e)
  {
    assert (events + [e])[..|events|] == events;
  }

  /** The row is in the ledger and its message is back on the queue: the provider is called again all the same,
      because nothing looks at the ledger before the call; afterwards the attempt is told it was a repeat,
      acks, and the rows are what they were. */
  lemma {:induction false} RecordedMessagesAreResent(events: seq<Event>, m: nat, c: AdapterCall)
    requires m < |Run(events).messages| && Run(events).messages[m].status.Queued?
    requires Run(events).messages[m].mail.Some? && Run(events).messages[m].mail.value.deliveryId in Run(events).rows
    requires !c.answer.Breaks?
    requires var r := RecordOf(Run(events).messages[m].mail.value, c); Encodable(r) && Storable(r)
    ensures var w := Run(events);
            var a, id := |w.attempts|, w.messages[m].mail.value.deliveryId;
            var x := Run(events + [Deliver(m)]);
            var y := Run(events + [Deliver(m)] + [Call(a, c)]);
            var z := Run(events + [Deliver(m)] + [Call(a, c)] + [Insert(a, NoFault)]);
            && Shaped(x) && Shaped(y) && a !in CallsFor(x, id) && a in CallsFor(y, id)
            && a < |z.attempts| && z.attempts[a].write == Some(Write(false, Duplicate)) && z.rows == w.rows
            && z.attempts[a].message < |z.messages| && Verdict(z, a) == Some(Ack)
  {
    var w := Run(events);
    var a := |w.attempts|;
    QueueRun(events);
    QueueRun(events + [Deliver(m)]);
    QueueRun(events + [Deliver(m)] + [Call(a, c)]);
    RunOne(events, Deliver(m));
    RunOne(events + [Deliver(m)], Call(a, c));
    RunOne(events + [Deliver(m)] + [Call(a, c)], Insert(a, NoFault));
    ResendSteps(w, m, c);
  }

  lemma ResendSteps(w: World, m: nat, c: AdapterCall)
    requires QueueInv(w) && m < |w.messages| && w.messages[m].status.Queued?
    requires w.messages[m].mail.Some? && w.messages[m].mail.value.deliveryId in w.rows && !c.answer.Breaks?
    requires var r := RecordOf(w.messages[m].mail.value, c); Encodable(r) && Storable(r)
    ensures var a, x := |w.attempts|, Next(w, Deliver(m));
            var y := Next(x, Call(a, c));
            var z := Next(y, Insert(a, NoFault));
            && x.attempts == w.attempts + [Attempt(m, None, None, false)] && MailSame(w, x)
            && y.attempts == w.attempts + [Attempt(m, Some(c), None, false)] && MailSame(w, y)
            && z.attempts == w.attempts + [Attempt(m, Some(c), Some(Write(false, Duplicate)), false)] && MailSame(w, z)
            && z.rows == w.rows
  {
    var a, x := |w.attempts|, Next(w, Deliver(m));
    assert x == Apply(w, Deliver(m));
    var y := Next(x, Call(a, c));
    assert y == Apply(x, Call(a, c));
    assert y.attempts == w.attempts + [Attempt(m, Some(c), None, false)];
    var z := Next(y, Insert(a, NoFault));
    assert z == Apply(y, Insert(a, NoFault));
  }

  predicate MailSame(w: World, v: World) {
    |v.messages| == |w.messages| && forall m | 0 <= m < |w.messages| :: v.messages[m].mail == w.messages[m].mail
  }

  /** Such a state is reached: the row commits, the consumer dies before its ack, the deadline expires. */
  lemma {:induction false} CrashAfterCommitRequeues(raw: seq<Byte>, c: AdapterCall)
    requires Sendable(raw) && !c.answer.Breaks?
    requires var r := RecordOf(FromJson(raw).envelope, c); Encodable(r) && Storable(r)
    ensures var w := Run([Publish(raw)] + [Deliver(0)] + [Call(0, c)] + [Insert(0, NoFault)] + [Crash(0)] + [Expire(0)]);
            && |w.messages| == 1 && w.messages[0].status.Queued? && w.messages[0].mail == MailOf(raw)
            && FromJson(raw).envelope.deliveryId in w.rows
  {
    RunOfFour(Publish(raw), Deliver(0), Call(0, c), Insert(0, NoFault));
    var written := [Publish(raw)] + [Deliver(0)] + [Call(0, c)] + [Insert(0, NoFault)];
    RunOne(written, Crash(0));
    RunOne(written + [Crash(0)], Expire(0));
    FirstWrite(raw, c);
    CrashThenExpire(Run(written), raw, c);
  }

  lemma RunOfFour(e1: Event, e2: Event, e3: Event, e4: Event)
    ensures Run([e1] + [e2] + [e3] + [e4]) == Next(Next(Next(Next(EMPTY, e1), e2), e3), e4)
  {
    assert [] + [e1] == [e1];
    RunOne([], e1);
    RunOne([e1], e2);
    RunOne([e1] + [e2], e3);
    RunOne([e1] + [e2] + [e3], e4);
  }

  lemma CrashThenExpire(w: World, raw: seq<Byte>, c: AdapterCall)
    requires w.messages == [Message(raw, MailOf(raw), InFlight(0), 1)]
    requires w.attempts == [Attempt(0, Some(c), Some(Write(true, New)), false)]
    ensures var v := Next(Next(w, Crash(0)), Expire(0));
            v.messages == [Message(raw, MailOf(raw), Queued, 1)] && v.rows == w.rows
  {
    var x := Next(w, Crash(0));
    assert x == Apply(w, Crash(0)) && x.messages == w.messages;
    var y := Next(x, Expire(0));
    assert y == Apply(x, Expire(0));
  }

  lemma FirstWrite(raw: seq<Byte>, c: AdapterCall)
    requires Sendable(raw) && !c.answer.Breaks?
    requires var r := RecordOf(FromJson(raw).envelope, c); Encodable(r) && Storable(r)
    ensures var w := Next(Next(Next(Next(EMPTY, Publish(raw)), Deliver(0)), Call(0, c)), Insert(0, NoFault));
            && w.messages == [Message(raw, MailOf(raw), InFlight(0), 1)]
            && w.attempts == [Attempt(0, Some(c), Some(Write(true, New)), false)]
            && FromJson(raw).envelope.deliveryId in w.rows
  {
    var w1 := Next(EMPTY, Publish(raw));
    assert w1.messages == [Message(raw, MailOf(raw), Queued, 0)];
    var w2 := Next(w1, Deliver(0));
    assert w2.messages == [Message(raw, MailOf(raw), InFlight(0), 1)];
    assert w2.attempts == [Attempt(0, None, None, false)];
    var w3 := Next(w2, Call(0, c));
    assert w3.attempts == [Attempt(0, Some(c), None, false)];
  }
}
