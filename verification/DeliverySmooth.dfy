/** Runs without faults: one delivery, one call and one row for every message that can be sent; and one attempt of
    the transition system is one call of the consumer's process_message. */
module DeliverySmooth {
  import opened Texts
  import opened Ledger
  import opened AtLeastOnce
  import opened DeliverySafety
  import opened DeliveryProgress

  /** Nothing goes wrong in this event: the adapter answers, the row fits its columns and is written, the answer
      arrives, no deadline expires and nobody dies. */
  predicate Smooth(w: World, e: Event)
    requires Shaped(w)
  {
    match e
    case Publish(_) => true
    case Deliver(_) => true
    case Call(_, c) => !c.answer.Breaks?
    case Insert(a, f) => f.NoFault? && (Enabled(w, e) ==> Fitting(RecordOf(MailAt(w, a).value, w.attempts[a].call.value)))
    case Answer(_, arrives) => arrives
    case Expire(_) => false
    case Crash(_) => false
  }

  ghost predicate SmoothRun(events: seq<Event>) {
    events != [] ==>
      var init, last := events[..|events| - 1], events[|events| - 1];
      SmoothRun(init) && Shaped(Run(init)) && Smooth(Run(init), last)
  }

  /** A message that can be sent is delivered at most once: it waits, is being worked on, or is acked. */
  predicate SmoothMessage(w: World, m: nat)
    requires m < |w.messages|
  {
    var msg := w.messages[m];
    msg.mail.Some? ==>
      && (msg.status.Queued? <==> msg.deliveries == 0)
      && msg.deliveries <= 1
      && !msg.status.DeadLettered?
      && (msg.status.InFlight? ==> msg.status.attempt < |w.attempts| && !w.attempts[msg.status.attempt].over)
  }

  /** An attempt on such a message is over only after its row is known to be in the ledger. */
  predicate SmoothAttempt(w: World, a: nat)
    requires a < |w.attempts| && w.attempts[a].message < |w.messages|
  {
    var t := w.attempts[a];
    MailAt(w, a).Some? ==>
      && (t.write.Some? ==> t.write.value.seen in {New, Duplicate})
      && (t.over ==> t.write.Some? && w.messages[t.message].status.Acked?)
      && (!t.over ==> w.messages[t.message].status == InFlight(a))
  }

  predicate SmoothInv(w: World)
    requires Shaped(w)
  {
    && (forall m | 0 <= m < |w.messages| :: SmoothMessage(w, m))
    && (forall a | 0 <= a < |w.attempts| :: SmoothAttempt(w, a))
  }

  lemma SmoothDeliver(w: World, m: nat)
    requires QueueInv(w) && SmoothInv(w) && Enabled(w, Deliver(m))
    ensures Shaped(Apply(w, Deliver(m))) && SmoothInv(Apply(w, Deliver(m)))
  {
    var v := Apply(w, Deliver(m));
    forall a | 0 <= a < |v.attempts| ensures SmoothAttempt(v, a) {
      if a < |w.attempts| { assert SmoothAttempt(w, a); }
    }
    forall k | 0 <= k < |v.messages| ensures SmoothMessage(v, k) {
      assert SmoothMessage(w, k);
    }
  }

  lemma SmoothAnswer(w: World, a: nat)
    requires QueueInv(w) && SmoothInv(w) && Enabled(w, Answer(a, true))
    ensures Shaped(Apply(w, Answer(a, true))) && SmoothInv(Apply(w, Answer(a, true)))
  {
    var v := Apply(w, Answer(a, true));
    assert SmoothAttempt(w, a);
    forall b | 0 <= b < |v.attempts| ensures SmoothAttempt(v, b) {
      assert SmoothAttempt(w, b);
    }
    forall k | 0 <= k < |v.messages| ensures SmoothMessage(v, k) {
      assert SmoothMessage(w, k);
    }
  }

  /** A call or an insert moves one attempt on and leaves the queue alone. */
  lemma SmoothWork(w: World, v: World, a: nat)
    requires Shaped(w) && SmoothInv(w) && a < |w.attempts| && !w.attempts[a].over
    requires v.messages == w.messages && |v.attempts| == |w.attempts| && v.attempts == w.attempts[a := v.attempts[a]]
    requires v.attempts[a].message == w.attempts[a].message && !v.attempts[a].over
    requires v.attempts[a].write.Some? ==> v.attempts[a].write.value.seen in {New, Duplicate}
    ensures Shaped(v) && SmoothInv(v)
  {
    forall b | 0 <= b < |v.attempts| ensures SmoothAttempt(v, b) {
      assert SmoothAttempt(w, b);
    }
    forall k | 0 <= k < |v.messages| ensures SmoothMessage(v, k) {
      assert SmoothMessage(w, k);
    }
  }

  lemma SmoothInsert(w: World, a: nat)
    requires QueueInv(w) && SmoothInv(w) && Enabled(w, Insert(a, NoFault)) && Smooth(w, Insert(a, NoFault))
    ensures Shaped(Apply(w, Insert(a, NoFault))) && SmoothInv(Apply(w, Insert(a, NoFault)))
  {
    SmoothWork(w, Apply(w, Insert(a, NoFault)), a);
  }

  lemma SmoothPublish(w: World, raw: seq<Byte>)
    requires QueueInv(w) && SmoothInv(w)
    ensures Shaped(Apply(w, Publish(raw))) && SmoothInv(Apply(w, Publish(raw)))
  {
    var v := Apply(w, Publish(raw));
    forall b | 0 <= b < |v.attempts| ensures SmoothAttempt(v, b) {
      assert SmoothAttempt(w, b);
    }
    forall k | 0 <= k < |v.messages| ensures SmoothMessage(v, k) {
      if k < |w.messages| { assert SmoothMessage(w, k); }
    }
  }

  lemma SmoothStep(w: World, e: Event)
    requires QueueInv(w) && SmoothInv(w) && Smooth(w, e) && Enabled(w, e)
    ensures Shaped(Apply(w, e)) && SmoothInv(Apply(w, e))
  {
    match e
    case Publish(raw) => SmoothPublish(w, raw);
    case Deliver(m) => SmoothDeliver(w, m);
    case Call(a, _) =>
      assert SmoothAttempt(w, a);
      SmoothWork(w, Apply(w, e), a);
    case Insert(a, _) => SmoothInsert(w, a);
    case Answer(a, _) => SmoothAnswer(w, a);
    case Expire(_) =>
    case Crash(_) =>
  }

  lemma {:induction false} SmoothRuns(events: seq<Event>)
    requires SmoothRun(events)
    ensures QueueInv(Run(events)) && SmoothInv(Run(events))
  {
    QueueRun(events);
    if events != [] {
      var init, last := events[..|events| - 1], events[|events| - 1];
      SmoothRuns(init);
      if Enabled(Run(init), last) { SmoothStep(Run(init), last); }
    }
  }

  /** A run without faults makes at most one provider call per message; once everything has settled, every message
      that can be sent is acked, was delivered once, called for exactly once, and has its row. */
  lemma {:induction false} FaultFreeRun(events: seq<Event>, m: nat)
    requires SmoothRun(events) && m < |Run(events).messages| && Run(events).messages[m].mail.Some?
    ensures var w := Run(events);
            && |AttemptsOn(w, {m})| <= 1
            && (AllSettled(w) ==>
                 && w.messages[m].status.Acked?
                 && w.messages[m].mail.value.deliveryId in w.rows
                 && exists a :: AttemptsOn(w, {m}) == {a} && a < |w.attempts| && w.attempts[a].call.Some?)
  {
    SmoothRuns(events);
    AttemptsAreDeliveries(events, m);
    var w := Run(events);
    assert SmoothMessage(w, m);
    if AllSettled(w) {
      LedgerHolds(events);
      AckedRun(events);
      assert AckedOk(w, m);
      var a := SettledAttempt(w, m);
    }
  }

  /** Once settled, a sendable message has one attempt, which called the provider. */
  lemma SettledAttempt(w: World, m: nat) returns (a: nat)
    requires QueueInv(w) && LedgerInv(w) && SmoothInv(w) && AllSettled(w)
    requires m < |w.messages| && w.messages[m].mail.Some? && Counted(w, m)
    ensures AttemptsOn(w, {m}) == {a} && a < |w.attempts| && w.attempts[a].call.Some?
  {
    assert SmoothMessage(w, m);
    a := TheOne(AttemptsOn(w, {m}));
    assert a in AttemptsOn(w, {m});
    assert SmoothAttempt(w, a) && AttemptOk(w, a);
  }

  lemma TheOne(s: set<nat>) returns (x: nat)
    requires |s| == 1
    ensures s == {x}
  {
    x :| x in s;
    assert |s - {x}| == 0;
    assert s == {x} + (s - {x});
  }

  // ------------------------------------------- one attempt is one process_message

  /** Delivered, called, inserted and answered without interruption, an attempt changes the rows exactly as
      process_message does and acks exactly when it does. */
  lemma {:induction false} AttemptIsProcessMessage(w: World, m: nat, c: AdapterCall, f: Fault)
    requires QueueInv(w) && m < |w.messages| && w.messages[m].status.Queued?
    ensures var a := |w.attempts|;
            var v := Next(Next(Next(Next(w, Deliver(m)), Call(a, c)), Insert(a, f)), Answer(a, true));
            && v.rows == RowsAfterMessage(w.rows, w.messages[m].raw, c, f)
            && |v.messages| == |w.messages|
            && (v.messages[m].status.Acked? <==> EndsInAck(w.messages[m].raw, c, f))
            && (v.messages[m].status.InFlight? <==> Dies(w.messages[m].raw, c, f))
  {
    var a := |w.attempts|;
    var x := Next(w, Deliver(m));
    assert x.attempts == w.attempts + [Attempt(m, None, None, false)];
    if w.messages[m].mail.None? {
      UnsendableAttempt(x, m, a, c, f);
    } else {
      SendableAttempt(x, m, a, c, f);
    }
  }

  lemma UnsendableAttempt(x: World, m: nat, a: nat, c: AdapterCall, f: Fault)
    requires QueueInv(x) && m < |x.messages| && x.messages[m].mail.None? && x.messages[m].status == InFlight(a)
    requires x.attempts[a] == Attempt(m, None, None, false)
    ensures var v := Next(Next(Next(x, Call(a, c)), Insert(a, f)), Answer(a, true));
            v.rows == x.rows && |v.messages| == |x.messages| && v.messages[m] == Requeue(x.messages[m])
  {
    assert Next(x, Call(a, c)) == x && Next(x, Insert(a, f)) == x;
  }

  lemma SendableAttempt(x: World, m: nat, a: nat, c: AdapterCall, f: Fault)
    requires QueueInv(x) && m < |x.messages| && x.messages[m].mail.Some? && x.messages[m].status == InFlight(a)
    requires x.attempts[a] == Attempt(m, None, None, false)
    ensures var v := Next(Next(Next(x, Call(a, c)), Insert(a, f)), Answer(a, true));
            && |v.messages| == |x.messages|
            && v.rows == RowsAfterMessage(x.rows, x.messages[m].raw, c, f)
            && v.messages[m] == if EndsInAck(x.messages[m].raw, c, f) then x.messages[m].(status := Acked)
                                else if Dies(x.messages[m].raw, c, f) then x.messages[m]
                                else Requeue(x.messages[m])
  {
    var y := Next(x, Call(a, c));
    CalledAttempt(x, m, a, c);
    if c.answer.Breaks? {
      assert Next(y, Insert(a, f)) == y;
    } else {
      InsertedAttempt(y, m, a, c, f);
    }
  }

  lemma CalledAttempt(x: World, m: nat, a: nat, c: AdapterCall)
    requires QueueInv(x) && m < |x.messages| && x.messages[m].mail.Some? && a < |x.attempts|
    requires x.attempts[a] == Attempt(m, None, None, false)
    ensures var y := Next(x, Call(a, c));
            && y.messages == x.messages && y.rows == x.rows && |y.attempts| == |x.attempts|
            && y.attempts[a] == Attempt(m, Some(c), None, c.answer.Breaks?)
  {
  }

  lemma InsertedAttempt(y: World, m: nat, a: nat, c: AdapterCall, f: Fault)
    requires m < |y.messages| && y.messages[m].mail.Some? && y.messages[m].status == InFlight(a) && a < |y.attempts|
    requires y.messages[m].mail == MailOf(y.messages[m].raw)
    requires y.attempts[a] == Attempt(m, Some(c), None, false) && !c.answer.Breaks?
    ensures var v := Next(Next(y, Insert(a, f)), Answer(a, true));
            && |v.messages| == |y.messages|
            && v.rows == RowsAfterMessage(y.rows, y.messages[m].raw, c, f)
            && v.messages[m] == if EndsInAck(y.messages[m].raw, c, f) then y.messages[m].(status := Acked)
                                else if Dies(y.messages[m].raw, c, f) then y.messages[m]
                                else Requeue(y.messages[m])
  {
    var z := Next(y, Insert(a, f));
    assert z == Apply(y, Insert(a, f));
  }
}
