/**
 The budget of the worker mailbox over all runs: `outstanding` is exactly what is still owed,
 every accepted command is answered once, and the event queue stays bounded although
 invalidations and telemetry consume no budget.
 */
module WorkerBudget {
  import opened Util
  import opened Mailbox
  import opened WorkerProtocol

  // ----- Counting events -----

  function Budget(es: seq<Event>): nat {
    if es == [] then 0 else (if ConsumesBudget(es[0].outcome) then 1 else 0) + Budget(es[1..])
  }

  function Invalidations(es: seq<Event>): nat {
    if es == [] then 0 else (if es[0].outcome.Invalidated? then 1 else 0) + Invalidations(es[1..])
  }

  function Telemetries(es: seq<Event>): nat {
    if es == [] then 0 else (if Telemetry(es[0].outcome) then 1 else 0) + Telemetries(es[1..])
  }

  lemma {:induction false} CountConcat(a: seq<Event>, b: seq<Event>)
    ensures Budget(a + b) == Budget(a) + Budget(b)
    ensures Invalidations(a + b) == Invalidations(a) + Invalidations(b)
    ensures Telemetries(a + b) == Telemetries(a) + Telemetries(b)
  {
    if a == [] {
      assert a + b == b;
    } else {
      assert (a + b)[1..] == a[1..] + b;
      CountConcat(a[1..], b);
    }
  }

  lemma {:induction false} CountsCover(es: seq<Event>)
    ensures |es| == Budget(es) + Invalidations(es) + Telemetries(es)
  {
    if es != [] {
      CountsCover(es[1..]);
    }
  }

  lemma CountOne(e: Event)
    ensures Budget([e]) == if ConsumesBudget(e.outcome) then 1 else 0
    ensures Invalidations([e]) == if e.outcome.Invalidated? then 1 else 0
    ensures Telemetries([e]) == if Telemetry(e.outcome) then 1 else 0
  {
    assert [e][1..] == [];
  }

  lemma {:induction false} FailedEventsCounts(rs: seq<Request>)
    ensures Budget(FailedEvents(rs)) == |rs|
    ensures Invalidations(FailedEvents(rs)) == 0 && Telemetries(FailedEvents(rs)) == 0
  {
    if rs != [] {
      FailedEventsCounts(rs[1..]);
      CountConcat([Event(rs[0].generation, Failed)], FailedEvents(rs[1..]));
      CountOne(Event(rs[0].generation, Failed));
    }
  }

  lemma {:induction false} WithoutTelemetryCounts(es: seq<Event>)
    ensures Budget(WithoutTelemetry(es)) == Budget(es)
    ensures Invalidations(WithoutTelemetry(es)) == Invalidations(es)
    ensures Telemetries(WithoutTelemetry(es)) == 0
  {
    if es != [] {
      WithoutTelemetryCounts(es[1..]);
      if !Telemetry(es[0].outcome) {
        CountConcat([es[0]], WithoutTelemetry(es[1..]));
        CountOne(es[0]);
      }
    }
  }

  // ----- Every suffix of the queue pays for its invalidations -----

  /** Each suffix holds at most `owed` more invalidations than budgeted events. */
  predicate Balanced(es: seq<Event>, owed: nat) {
    es != [] ==> Invalidations(es) <= Budget(es) + owed && Balanced(es[1..], owed)
  }

  lemma {:induction false} BalancedAppend(es: seq<Event>, tail: seq<Event>, before: nat, after: nat)
    requires Balanced(es, before) && Balanced(tail, after)
    requires Invalidations(tail) + before <= Budget(tail) + after
    ensures Balanced(es + tail, after)
  {
    if es == [] {
      assert es + tail == tail;
    } else {
      assert (es + tail)[1..] == es[1..] + tail;
      BalancedAppend(es[1..], tail, before, after);
      CountConcat(es, tail);
    }
  }

  lemma {:induction false} BalancedWithoutInvalidations(es: seq<Event>, owed: nat)
    requires Invalidations(es) == 0
    ensures Balanced(es, owed)
  {
    if es != [] {
      BalancedWithoutInvalidations(es[1..], owed);
    }
  }

  lemma {:induction false} BalancedFiltered(es: seq<Event>, owed: nat)
    requires Balanced(es, owed)
    ensures Balanced(WithoutTelemetry(es), owed)
  {
    if es != [] {
      BalancedFiltered(es[1..], owed);
      if !Telemetry(es[0].outcome) {
        WithoutTelemetryCounts(es);
        assert WithoutTelemetry(es)[1..] == WithoutTelemetry(es[1..]);
      }
    }
  }

  // ----- The budget invariant -----

  /** The active command has announced an invalidation that its terminal event will pay for. */
  function Owed(p: Phase): nat {
    if p.Busy? && p.job.invalidated && !p.stage.EmitFirst? && !p.stage.EmitSecond? && !p.stage.EmitThird? then 1 else 0
  }

  predicate PhaseOk(s: System) {
    match s.phase
    case Busy(job, stage) =>
      && s.mail.activeGeneration == Some(job.request.generation) && s.mail.active == Some(job.request.cancel)
      && (stage.EmitFirst? || stage.EmitSecond? || stage.EmitThird? ==> job.invalidated)
      && (stage.EmitFirst? || (stage.Preflight? && job.invalidated) ==> !job.request.action.Prepare?)
      && (stage.Settle? ==> Terminal(stage.result)) && (stage.EmitThird? ==> Terminal(stage.result))
      && (stage.Check? ==> Terminal(stage.result)) && (stage.Finish? ==> Terminal(stage.result))
    case _ => s.mail.activeGeneration == None && s.mail.active == None
  }

  function Running(p: Phase): nat { if p.Busy? then 1 else 0 }

  /** What is outstanding is queued, running, or answered but not yet polled. */
  predicate Accounted(s: System) {
    s.mail.outstanding == |s.mail.requests| + Running(s.phase) + Budget(s.mail.events) <= CAPACITY
  }

  predicate QueueShape(s: System) {
    Balanced(s.mail.events, Owed(s.phase)) && Telemetries(s.mail.events) <= 2
  }

  predicate BudgetInv(s: System) {
    PhaseOk(s) && Accounted(s) && QueueShape(s)
  }

  /** The queue never exceeds twice the capacity and the two telemetry slots. */
  lemma EventQueueBound(s: System)
    requires BudgetInv(s)
    ensures |s.mail.events| <= 2 * CAPACITY + 2
  {
    CountsCover(s.mail.events);
  }

  /** Polling an event that consumes budget never takes the count below zero. */
  lemma PollNeverUnderflows(s: System)
    requires BudgetInv(s)
    ensures Poll(s.mail).0.outstanding >= 0
  {
  }

  // ----- Preservation, one lemma per kind of step -----

  /** Appending events keeps the shape when the tail pays for what it adds. */
  lemma ShapeAppend(es: seq<Event>, tail: seq<Event>, before: nat, after: nat)
    requires Balanced(es, before) && Telemetries(es) <= 2
    requires Balanced(tail, after) && Telemetries(tail) == 0
    requires Invalidations(tail) + before <= Budget(tail) + after
    ensures Balanced(es + tail, after) && Telemetries(es + tail) <= 2
    ensures Budget(es + tail) == Budget(es) + Budget(tail)
  {
    BalancedAppend(es, tail, before, after);
    CountConcat(es, tail);
  }

  /** One more budgeted event. */
  lemma ShapeAnswer(es: seq<Event>, e: Event, before: nat, after: nat)
    requires Balanced(es, before) && Telemetries(es) <= 2
    requires ConsumesBudget(e.outcome) && before <= after + 1
    ensures Balanced(es + [e], after) && Telemetries(es + [e]) <= 2
    ensures Budget(es + [e]) == Budget(es) + 1
  {
    CountOne(e);
    BalancedWithoutInvalidations([e], after);
    ShapeAppend(es, [e], before, after);
  }

  lemma SubmitBudget(s: System, generation: nat, a: Action)
    requires BudgetInv(s)
    ensures BudgetInv(DoSubmit(s, generation, a))
  {
    if Accepts(s.mail) {
      var m := Revoke(s.mail, a);
      var superseded := Supersede(m, a);
      if superseded != m {
        var i := FindFamily(m.requests, Family(a).value).value;
        ShapeAnswer(m.events, Event(m.requests[i].generation, Failed), Owed(s.phase), Owed(s.phase));
      }
      assert |superseded.requests| + Budget(superseded.events) == |m.requests| + Budget(m.events);
    }
  }

  lemma PollBudget(s: System)
    requires BudgetInv(s)
    ensures BudgetInv(DoPoll(s))
  {
  }

  lemma DequeueBudget(s: System)
    requires BudgetInv(s) && Enabled(s, WorkerDequeue)
    ensures BudgetInv(DoDequeue(s))
  {
  }

  lemma EmitBudget(s: System)
    requires BudgetInv(s) && Enabled(s, WorkerEmit)
    ensures BudgetInv(DoEmit(s))
  {
    var e := Event(0, Invalidated);
    CountOne(e);
    assert Balanced([e], 1);
    ShapeAppend(s.mail.events, [e], 0, 1);
    if s.mail.stopped {
      assert s.mail.events + [] == s.mail.events;
      ShapeAppend(s.mail.events, [], 0, 1);
    }
  }

  lemma PublishBudget(s: System)
    requires BudgetInv(s) && Enabled(s, WorkerPublish)
    ensures BudgetInv(DoPublish(s))
  {
    ShapeAnswer(s.mail.events, Event(s.phase.job.request.generation, s.phase.stage.result), Owed(s.phase), 0);
  }

  lemma {:induction false} MediaErrorsBudget(m: Mail, errors: seq<SessionError>, reserved: nat)
    requires Balanced(m.events, 0) && Telemetries(m.events) <= 2
    requires m.outstanding == reserved + Budget(m.events) <= CAPACITY
    ensures var q := QueueMediaErrors(m, errors);
            && Balanced(q.events, 0) && Telemetries(q.events) <= 2
            && q.outstanding == reserved + Budget(q.events) <= CAPACITY
            && q == m.(events := q.events, outstanding := q.outstanding)
    decreases |errors|
  {
    if errors != [] && m.outstanding < CAPACITY {
      if errors[0].unreported {
        var e := Event(0, MediaFailed(errors[0].session));
        ShapeAnswer(m.events, e, 0, 0);
        MediaErrorsBudget(m.(events := m.events + [e], outstanding := m.outstanding + 1), errors[1..], reserved);
      } else {
        MediaErrorsBudget(m, errors[1..], reserved);
      }
    }
  }

  lemma TickBudget(s: System, errors: seq<SessionError>)
    requires BudgetInv(s) && Enabled(s, WorkerTick(errors))
    ensures BudgetInv(Next(s, WorkerTick(errors)))
  {
    MediaErrorsBudget(s.mail, errors, |s.mail.requests|);
    var es := QueueMediaErrors(s.mail, errors).events;
    WithoutTelemetryCounts(es);
    BalancedFiltered(es, 0);
    var tail := [Event(0, Usage), Event(0, SessionUpdates)];
    CountOne(tail[0]);
    CountOne(tail[1]);
    CountConcat([tail[0]], [tail[1]]);
    assert tail == [tail[0]] + [tail[1]];
    BalancedWithoutInvalidations(tail, 0);
    BalancedAppend(WithoutTelemetry(es), tail, 0, 0);
    CountConcat(WithoutTelemetry(es), tail);
  }

  lemma ExitBudget(s: System)
    requires BudgetInv(s) && Enabled(s, WorkerExit)
    ensures BudgetInv(Next(s, WorkerExit))
  {
    var m := s.mail;
    var es := m.events;
    var active := if m.activeGeneration.Some? then [Event(m.activeGeneration.value, Failed)] else [];
    if m.activeGeneration.Some? {
      ShapeAnswer(es, active[0], Owed(s.phase), 0);
    } else {
      assert es + active == es;
    }
    FailedEventsCounts(m.requests);
    BalancedWithoutInvalidations(FailedEvents(m.requests), 0);
    ShapeAppend(es + active, FailedEvents(m.requests), 0, 0);
  }

  lemma CancelBudget(s: System, generation: nat)
    requires BudgetInv(s)
    ensures BudgetInv(WithMail(s, CancelRequest(s.mail, generation)))
  {
  }

  lemma DropBudget(s: System)
    requires BudgetInv(s)
    ensures BudgetInv(WithMail(s, DropHandle(s.mail)))
  {
  }

  lemma PreflightBudget(s: System, preload: Preload)
    requires BudgetInv(s) && Enabled(s, WorkerPreflight(preload))
    ensures BudgetInv(DoPreflight(s, preload))
  {
  }

  lemma SettleBudget(s: System)
    requires BudgetInv(s) && Enabled(s, WorkerSettle)
    ensures BudgetInv(DoSettle(s))
  {
  }

  lemma StepBudget(s: System, step: Step)
    requires BudgetInv(s) && Enabled(s, step)
    ensures BudgetInv(Next(s, step))
  {
    match step {
      case UiSubmit(generation, a) => SubmitBudget(s, generation, a);
      case UiCancel(generation) => CancelBudget(s, generation);
      case UiPoll => PollBudget(s);
      case UiDrop => DropBudget(s);
      case WorkerDequeue => DequeueBudget(s);
      case WorkerEmit => EmitBudget(s);
      case WorkerPreflight(preload) => PreflightBudget(s, preload);
      case WorkerExecute(_, _, _) =>
      case WorkerSettle => SettleBudget(s);
      case WorkerCheck =>
      case WorkerPublish => PublishBudget(s);
      case WorkerTick(errors) => TickBudget(s, errors);
      case WorkerRest =>
      case WorkerExit => ExitBudget(s);
    }
  }
}
