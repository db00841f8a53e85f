/**
 Exactly-once answering. For every generation, the commands accepted under it are those
 queued, the one running, those answered in the event queue and those already delivered:
 nothing is lost or answered twice, also across a panic, an exit or a dropped handle.
 */
module WorkerAnswers {
  import opened Util
  import opened Mailbox
  import opened WorkerProtocol
  import opened WorkerBudget

  /** How many requests carry a generation. */
  function Carrying(rs: seq<Request>, g: nat): nat {
    if rs == [] then 0 else (if rs[0].generation == g then 1 else 0) + Carrying(rs[1..], g)
  }

  /** How many terminal events answer a generation. */
  function Answering(es: seq<Event>, g: nat): nat {
    if es == [] then 0
    else (if Terminal(es[0].outcome) && es[0].generation == g then 1 else 0) + Answering(es[1..], g)
  }

  lemma {:induction false} CarryingConcat(a: seq<Request>, b: seq<Request>, g: nat)
    ensures Carrying(a + b, g) == Carrying(a, g) + Carrying(b, g)
  {
    if a == [] {
      assert a + b == b;
    } else {
      assert (a + b)[1..] == a[1..] + b;
      CarryingConcat(a[1..], b, g);
    }
  }

  lemma CarryingAppend(rs: seq<Request>, r: Request, g: nat)
    ensures Carrying(rs + [r], g) == Carrying(rs, g) + if r.generation == g then 1 else 0
  {
    CarryingConcat(rs, [r], g);
    assert [r][1..] == [];
  }

  lemma CarryingRemoveAt(rs: seq<Request>, i: nat, g: nat)
    requires i < |rs|
    ensures Carrying(rs, g) == Carrying(RemoveAt(rs, i), g) + if rs[i].generation == g then 1 else 0
  {
    assert rs == (rs[..i] + [rs[i]]) + rs[i + 1..];
    CarryingConcat(rs[..i] + [rs[i]], rs[i + 1..], g);
    CarryingAppend(rs[..i], rs[i], g);
    CarryingConcat(rs[..i], rs[i + 1..], g);
  }

  lemma {:induction false} AnsweringConcat(a: seq<Event>, b: seq<Event>, g: nat)
    ensures Answering(a + b, g) == Answering(a, g) + Answering(b, g)
  {
    if a == [] {
      assert a + b == b;
    } else {
      assert (a + b)[1..] == a[1..] + b;
      AnsweringConcat(a[1..], b, g);
    }
  }

  lemma AnsweringAppend(es: seq<Event>, e: Event, g: nat)
    ensures Answering(es + [e], g) == Answering(es, g) + if Terminal(e.outcome) && e.generation == g then 1 else 0
  {
    AnsweringConcat(es, [e], g);
    assert [e][1..] == [];
  }

  lemma {:induction false} FailedEventsAnswer(rs: seq<Request>, g: nat)
    ensures Answering(FailedEvents(rs), g) == Carrying(rs, g)
  {
    if rs != [] {
      FailedEventsAnswer(rs[1..], g);
      assert FailedEvents(rs)[1..] == FailedEvents(rs[1..]);
    }
  }

  lemma {:induction false} WithoutTelemetryAnswers(es: seq<Event>, g: nat)
    ensures Answering(WithoutTelemetry(es), g) == Answering(es, g)
  {
    if es != [] {
      WithoutTelemetryAnswers(es[1..], g);
      if !Telemetry(es[0].outcome) {
        assert WithoutTelemetry(es)[1..] == WithoutTelemetry(es[1..]);
      }
    }
  }

  lemma {:induction false} MediaErrorsAnswers(m: Mail, errors: seq<SessionError>, g: nat)
    ensures Answering(QueueMediaErrors(m, errors).events, g) == Answering(m.events, g)
    ensures QueueMediaErrors(m, errors).requests == m.requests
    decreases |errors|
  {
    if errors != [] && m.outstanding < CAPACITY {
      if errors[0].unreported {
        var e := Event(0, MediaFailed(errors[0].session));
        AnsweringAppend(m.events, e, g);
        MediaErrorsAnswers(m.(events := m.events + [e], outstanding := m.outstanding + 1), errors[1..], g);
      } else {
        MediaErrorsAnswers(m, errors[1..], g);
      }
    }
  }

  function RunningCount(p: Phase, g: nat): nat {
    if p.Busy? && p.job.request.generation == g then 1 else 0
  }

  /** Commands accepted under a generation and not yet delivered. */
  function Owing(s: System, g: nat): nat {
    Carrying(s.mail.requests, g) + RunningCount(s.phase, g) + Answering(s.mail.events, g)
  }

  ghost predicate ExactlyOnce(s: System) {
    forall g: nat :: Carrying(s.log, g) == Owing(s, g) + Answering(s.delivered, g)
  }

  /** A worker that has exited leaves a closed mailbox: nothing is queued and nothing more is accepted. */
  predicate ExitClosed(s: System) { s.phase.Exited? ==> s.mail.stopped && s.mail.requests == [] }

  // ----- Preservation -----

  /** Superseding moves one command from queued to answered. */
  lemma SupersedeAnswers(m: Mail, a: Action, g: nat)
    ensures var n := Supersede(m, a);
            Carrying(n.requests, g) + Answering(n.events, g) == Carrying(m.requests, g) + Answering(m.events, g)
  {
    if Family(a).Some? && FindFamily(m.requests, Family(a).value).Some? {
      var i := FindFamily(m.requests, Family(a).value).value;
      CarryingRemoveAt(m.requests, i, g);
      AnsweringAppend(m.events, Event(m.requests[i].generation, Failed), g);
    }
  }

  lemma SubmitAnswers(s: System, generation: nat, a: Action, g: nat)
    ensures var t, more := DoSubmit(s, generation, a), if Accepts(s.mail) && g == generation then 1 else 0;
            && Carrying(t.log, g) == Carrying(s.log, g) + more && Owing(t, g) == Owing(s, g) + more
            && t.delivered == s.delivered
  {
    if Accepts(s.mail) {
      var m := Revoke(s.mail, a);
      var n := Supersede(m, a);
      SupersedeAnswers(m, a, g);
      CarryingAppend(s.log, NewRequest(m, generation, a), g);
      CarryingAppend(n.requests, NewRequest(n, generation, a), g);
    }
  }

  lemma PollAnswers(s: System, g: nat)
    ensures var t := DoPoll(s);
            && t.log == s.log
            && Owing(s, g) + Answering(s.delivered, g) == Owing(t, g) + Answering(t.delivered, g)
            && (s.mail.events != [] ==>
                  var e := s.mail.events[0];
                  Owing(s, g) == Owing(t, g) + if Terminal(e.outcome) && e.generation == g then 1 else 0)
  {
    if s.mail.events != [] {
      AnsweringAppend(s.delivered, s.mail.events[0], g);
    }
  }

  lemma EmitAnswers(s: System, g: nat)
    requires Enabled(s, WorkerEmit)
    ensures Owing(DoEmit(s), g) == Owing(s, g)
  {
    AnsweringAppend(s.mail.events, Event(0, Invalidated), g);
  }

  lemma PublishAnswers(s: System, g: nat)
    requires PhaseOk(s) && Enabled(s, WorkerPublish)
    ensures Owing(DoPublish(s), g) == Owing(s, g)
  {
    AnsweringAppend(s.mail.events, Event(s.phase.job.request.generation, s.phase.stage.result), g);
  }

  lemma TickAnswers(s: System, errors: seq<SessionError>, g: nat)
    requires Enabled(s, WorkerTick(errors))
    ensures Owing(Next(s, WorkerTick(errors)), g) == Owing(s, g)
  {
    MediaErrorsAnswers(s.mail, errors, g);
    var es := QueueMediaErrors(s.mail, errors).events;
    WithoutTelemetryAnswers(es, g);
    AnsweringAppend(WithoutTelemetry(es), Event(0, Usage), g);
    AnsweringAppend(WithoutTelemetry(es) + [Event(0, Usage)], Event(0, SessionUpdates), g);
    assert WithoutTelemetry(es) + [Event(0, Usage), Event(0, SessionUpdates)]
        == WithoutTelemetry(es) + [Event(0, Usage)] + [Event(0, SessionUpdates)];
  }

  /** An exit, whether ordered or by panic, answers everything that was queued or running. */
  lemma ExitAnswers(s: System, g: nat)
    requires PhaseOk(s) && Enabled(s, WorkerExit)
    ensures var t := Next(s, WorkerExit);
            Owing(t, g) == Owing(s, g) && t.mail.requests == [] && t.phase == Exited
  {
    var m := s.mail;
    var active := if m.activeGeneration.Some? then [Event(m.activeGeneration.value, Failed)] else [];
    FailedEventsAnswer(m.requests, g);
    if m.activeGeneration.Some? {
      AnsweringAppend(m.events, active[0], g);
    } else {
      assert m.events + active == m.events;
    }
    AnsweringConcat(m.events + active, FailedEvents(m.requests), g);
  }

  lemma DequeueAnswers(s: System, g: nat)
    requires PhaseOk(s) && Enabled(s, WorkerDequeue)
    ensures Owing(DoDequeue(s), g) == Owing(s, g)
  {
  }

  lemma ReconcileAnswers(s: System, step: Step, g: nat)
    requires Enabled(s, step) && (step.WorkerPreflight? || step.WorkerSettle?)
    ensures Owing(Next(s, step), g) == Owing(s, g)
  {
  }

  lemma LocalAnswers(s: System, step: Step, g: nat)
    requires Enabled(s, step) && (step.WorkerExecute? || step.WorkerCheck? || step.WorkerRest? || step.UiCancel? || step.UiDrop?)
    ensures Owing(Next(s, step), g) == Owing(s, g)
  {
  }

  /** Steps other than submitting and polling owe what was owed before. */
  lemma QuietStepOwes(s: System, step: Step, g: nat)
    requires PhaseOk(s) && Enabled(s, step) && !step.UiSubmit? && !step.UiPoll?
    ensures Owing(Next(s, step), g) == Owing(s, g)
  {
    match step {
      case UiSubmit(_, _) =>
      case UiPoll =>
      case WorkerDequeue => DequeueAnswers(s, g);
      case WorkerEmit => EmitAnswers(s, g);
      case WorkerPreflight(_) => ReconcileAnswers(s, step, g);
      case WorkerSettle => ReconcileAnswers(s, step, g);
      case WorkerPublish => PublishAnswers(s, g);
      case WorkerTick(errors) => TickAnswers(s, errors, g);
      case WorkerExit => ExitAnswers(s, g);
      case _ => LocalAnswers(s, step, g);
    }
  }

  lemma QuietStepHistory(s: System, step: Step)
    requires Enabled(s, step) && !step.UiSubmit? && !step.UiPoll?
    ensures Next(s, step).log == s.log && Next(s, step).delivered == s.delivered
  {
  }

  lemma StepAnswers(s: System, step: Step)
    requires PhaseOk(s) && ExactlyOnce(s) && Enabled(s, step)
    ensures ExactlyOnce(Next(s, step))
  {
    var t := Next(s, step);
    forall g: nat ensures Carrying(t.log, g) == Owing(t, g) + Answering(t.delivered, g) {
      match step {
        case UiSubmit(generation, a) => SubmitAnswers(s, generation, a, g);
        case UiPoll => PollAnswers(s, g);
        case _ =>
          QuietStepOwes(s, step, g);
          QuietStepHistory(s, step);
      }
    }
  }

  lemma StepClosed(s: System, step: Step)
    requires ExitClosed(s) && Enabled(s, step)
    ensures ExitClosed(Next(s, step))
  {
    match step {
      case WorkerTick(errors) => MediaErrorsAnswers(s.mail, errors, 0);
      case _ =>
    }
  }
}
