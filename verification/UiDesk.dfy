/**
 The UI's tracker composed with the worker protocol. The UI issues a generation, submits, and
 withdraws on refusal; it collects polled events and applies each to the tracker later. The
 tracker's pending set is then exactly the commands whose answer has not been applied.
 */
module UiDesk {
  import opened Util
  import opened Mailbox
  import opened WorkerProtocol
  import opened WorkerBudget
  import opened WorkerAnswers
  import opened WorkerPipeline
  import AppTracker

  datatype Desk = Desk(system: System, books: AppTracker.Books, inbox: seq<Event>)

  datatype DeskStep =
    | Command(action: Action)
    | Collect
    | ApplyEvent
    | Abandon(generation: nat)
    | Background(step: Step)

  function FreshDesk(): Desk { Desk(Init(), AppTracker.EmptyBooks(), []) }

  function PendingOf(a: Action): AppTracker.Pending {
    match a
    case LoadSettings => AppTracker.Load
    case SaveSettings(_) => AppTracker.Settings
    case Prepare => AppTracker.Prepare
    case PlayFile(_) => AppTracker.Play(true)
    case PlayLocal => AppTracker.Play(false)
    case ReleaseSession(_) => AppTracker.Release
    case CleanupUnused => AppTracker.Cleanup
    case ReplaySession(_) => AppTracker.Replay
    case RevealSession(_) => AppTracker.Reveal
    case _ => AppTracker.Credential
  }

  function SessionOf(a: Action): Option<nat> {
    match a
    case ReleaseSession(id) => Some(id)
    case ReplaySession(id) => Some(id)
    case RevealSession(id) => Some(id)
    case _ => None
  }

  function Registered(b: AppTracker.Books, a: Action): AppTracker.Books {
    match SessionOf(a)
    case Some(id) => AppTracker.IssueSession(b, PendingOf(a), id)
    case None => AppTracker.Issue(b, PendingOf(a))
  }

  /** Issue, submit, and withdraw if the worker refuses. */
  function DoCommand(d: Desk, a: Action): Desk {
    var issued := Registered(d.books, a);
    d.(system := DoSubmit(d.system, issued.next, a),
       books := if Accepts(d.system.mail) then issued else AppTracker.Withdraw(issued, issued.next))
  }

  function DoCollect(d: Desk): Desk {
    d.(system := DoPoll(d.system),
       inbox := if d.system.mail.events != [] then d.inbox + [d.system.mail.events[0]] else d.inbox)
  }

  /** Telemetry and invalidations leave the books alone; everything else resolves its generation. */
  function DoApply(d: Desk): Desk
    requires d.inbox != []
  {
    d.(inbox := d.inbox[1..],
       books := if ConsumesBudget(d.inbox[0].outcome) then AppTracker.Withdraw(d.books, d.inbox[0].generation) else d.books)
  }

  function DoAbandon(d: Desk, generation: nat): Desk {
    d.(books := AppTracker.Cancel(d.books, generation),
       system := WithMail(d.system, CancelRequest(d.system.mail, generation)))
  }

  ghost predicate DeskEnabled(d: Desk, step: DeskStep) {
    match step
    case ApplyEvent => d.inbox != []
    case Background(inner) => !inner.UiSubmit? && !inner.UiPoll? && !inner.UiCancel? && Enabled(d.system, inner)
    case _ => true
  }

  function DeskNext(d: Desk, step: DeskStep): Desk
    requires DeskEnabled(d, step)
  {
    match step
    case Command(a) => DoCommand(d, a)
    case Collect => DoCollect(d)
    case ApplyEvent => DoApply(d)
    case Abandon(generation) => DoAbandon(d, generation)
    case Background(inner) => d.(system := Next(d.system, inner))
  }

  ghost predicate DeskPossible(d: Desk, steps: seq<DeskStep>)
    decreases |steps|
  {
    steps != [] ==> DeskEnabled(d, steps[0]) && DeskPossible(DeskNext(d, steps[0]), steps[1..])
  }

  function DeskRun(d: Desk, steps: seq<DeskStep>): Desk
    requires DeskPossible(d, steps)
    decreases |steps|
  {
    if steps == [] then d else DeskRun(DeskNext(d, steps[0]), steps[1..])
  }

  // ----- The invariant -----

  /** Commands of a generation whose answer the UI has not applied. */
  function Unapplied(d: Desk, g: nat): nat { Owing(d.system, g) + Answering(d.inbox, g) }

  ghost predicate PendingIsUnapplied(d: Desk) {
    && (forall g: nat :: Unapplied(d, g) == if g in d.books.pending then 1 else 0)
    && (forall g: nat :: g in d.books.pending ==> 1 <= g <= d.books.next)
  }

  /** Media failures answer no command: they carry generation 0. */
  ghost predicate Unsolicited(es: seq<Event>) {
    forall i :: 0 <= i < |es| && es[i].outcome.MediaFailed? ==> es[i].generation == 0
  }

  /** The books remember what kind each unanswered command is. */
  ghost predicate KindKnown(d: Desk, r: Request) {
    r.generation in d.books.pending && d.books.pending[r.generation] == PendingOf(r.action)
  }

  ghost predicate KindsKnown(d: Desk) {
    forall r :: Unanswered(d.system, r) ==> KindKnown(d, r)
  }

  ghost predicate DeskInv(d: Desk) {
    && BudgetInv(d.system) && ExitClosed(d.system) && PendingIsUnapplied(d) && KindsKnown(d)
    && Unsolicited(d.system.mail.events) && Unsolicited(d.inbox)
  }

  lemma {:induction false} CarryingMember(rs: seq<Request>, r: Request)
    requires r in rs
    ensures Carrying(rs, r.generation) >= 1
  {
    if r != rs[0] {
      CarryingMember(rs[1..], r);
    }
  }

  lemma UnansweredOwes(s: System, r: Request)
    requires Unanswered(s, r)
    ensures Carrying(s.mail.requests, r.generation) + RunningCount(s.phase, r.generation) >= 1
  {
    if r in s.mail.requests {
      CarryingMember(s.mail.requests, r);
    }
  }

  // ----- Issuing a command -----

  lemma SubmitUnanswered(s: System, generation: nat, a: Action, r: Request)
    requires Unanswered(DoSubmit(s, generation, a), r)
    ensures Unanswered(s, r) || (Accepts(s.mail) && r.generation == generation && r.action == a)
  {
    if Accepts(s.mail) {
      var n := Supersede(Revoke(s.mail, a), a);
      assert forall q :: q in n.requests ==> q in s.mail.requests;
    }
  }

  lemma SubmitUnsolicited(s: System, generation: nat, a: Action)
    requires Unsolicited(s.mail.events)
    ensures Unsolicited(DoSubmit(s, generation, a).mail.events)
  {
  }

  lemma CommandBooks(d: Desk, a: Action)
    requires d.books.next + 1 !in d.books.pending
    ensures var t, g0 := DoCommand(d, a), d.books.next + 1;
            && t.books.next == g0 && t.inbox == d.inbox && t.system == DoSubmit(d.system, g0, a)
            && (if Accepts(d.system.mail)
                then t.books.pending == d.books.pending[g0 := PendingOf(a)]
                else t.books.pending == d.books.pending)
  {
    hide DoSubmit, Accepts, PendingOf;
  }

  lemma CommandPending(d: Desk, a: Action)
    requires PendingIsUnapplied(d)
    ensures PendingIsUnapplied(DoCommand(d, a))
  {
    var t := DoCommand(d, a);
    var g0 := d.books.next + 1;
    CommandBooks(d, a);
    hide Unapplied, DoSubmit, DoCommand, Accepts, PendingOf;
    forall g: nat ensures Unapplied(t, g) == if g in t.books.pending then 1 else 0 {
      CommandOwes(d, a, g);
      assert Unapplied(d, g) == if g in d.books.pending then 1 else 0;
    }
  }

  lemma CommandOwes(d: Desk, a: Action, g: nat)
    requires d.books.next + 1 !in d.books.pending
    ensures Unapplied(DoCommand(d, a), g) == Unapplied(d, g) + if Accepts(d.system.mail) && g == d.books.next + 1 then 1 else 0
  {
    CommandBooks(d, a);
    hide Owing, Answering, DoSubmit, DoCommand, Accepts, PendingOf;
    SubmitAnswers(d.system, d.books.next + 1, a, g);
  }

  lemma ClosedStays(d: Desk, a: Action)
    requires ExitClosed(d.system)
    ensures ExitClosed(DoCommand(d, a).system)
  {
    hide Submit;
  }

  lemma CommandKinds(d: Desk, a: Action)
    requires PendingIsUnapplied(d) && KindsKnown(d)
    ensures KindsKnown(DoCommand(d, a))
  {
    var t := DoCommand(d, a);
    var g0 := d.books.next + 1;
    assert g0 !in d.books.pending;
    CommandBooks(d, a);
    hide DoSubmit, DoCommand, Unanswered, Accepts, PendingOf, PendingIsUnapplied;
    forall r | Unanswered(t.system, r) ensures KindKnown(t, r) {
      SubmitUnanswered(d.system, g0, a, r);
      assert Unanswered(d.system, r) ==> KindKnown(d, r);
    }
  }

  lemma CommandDesk(d: Desk, a: Action)
    requires DeskInv(d)
    ensures DeskInv(DoCommand(d, a))
  {
    var g0 := d.books.next + 1;
    assert g0 !in d.books.pending;
    hide BudgetInv, ExitClosed, PendingIsUnapplied, KindsKnown, Unsolicited, DoCommand, DoSubmit, Accepts;
    CommandBooks(d, a);
    SubmitBudget(d.system, g0, a);
    SubmitUnsolicited(d.system, g0, a);
    CommandPending(d, a);
    CommandKinds(d, a);
    ClosedStays(d, a);
  }

  // ----- Collecting and applying answers -----

  lemma CollectDesk(d: Desk)
    requires DeskInv(d)
    ensures DeskInv(DoCollect(d))
  {
    var t := DoCollect(d);
    PollBudget(d.system);
    forall g: nat ensures Unapplied(t, g) == Unapplied(d, g) {
      PollAnswers(d.system, g);
      if d.system.mail.events != [] {
        AnsweringAppend(d.inbox, d.system.mail.events[0], g);
      }
    }
    assert PendingIsUnapplied(t);
    forall r | Unanswered(t.system, r) ensures KindKnown(t, r) {
      assert Unanswered(d.system, r);
    }
  }

  /** An applied answer clears exactly the one generation it answers. */
  lemma ApplyPending(d: Desk)
    requires PendingIsUnapplied(d) && d.inbox != [] && Unsolicited(d.inbox)
    ensures PendingIsUnapplied(DoApply(d))
    ensures var e := d.inbox[0];
            ConsumesBudget(e.outcome) ==>
              Owing(d.system, e.generation) + Answering(d.inbox[1..], e.generation) == 0
              || e.generation !in d.books.pending
  {
    var t := DoApply(d);
    var e := d.inbox[0];
    hide Owing;
    assert Unapplied(d, e.generation) == if e.generation in d.books.pending then 1 else 0;
    forall g: nat ensures Unapplied(t, g) == if g in t.books.pending then 1 else 0 {
      assert Unapplied(d, g) == if g in d.books.pending then 1 else 0;
      assert Unapplied(d, g) == Unapplied(t, g) + if Terminal(e.outcome) && e.generation == g then 1 else 0;
    }
  }

  lemma ApplyDesk(d: Desk)
    requires DeskInv(d) && d.inbox != []
    ensures DeskInv(DoApply(d))
  {
    var t := DoApply(d);
    ApplyPending(d);
    hide BudgetInv, PendingIsUnapplied, Unanswered;
    forall r | Unanswered(t.system, r) ensures KindKnown(t, r) {
      assert KindKnown(d, r);
      UnansweredOwes(d.system, r);
    }
  }

  // ----- Steps that issue and apply nothing -----

  lemma {:induction false} MediaErrorsUnsolicited(m: Mail, errors: seq<SessionError>)
    requires Unsolicited(m.events)
    ensures Unsolicited(QueueMediaErrors(m, errors).events)
    decreases |errors|
  {
    if errors != [] && m.outstanding < CAPACITY {
      if errors[0].unreported {
        var e := Event(0, MediaFailed(errors[0].session));
        MediaErrorsUnsolicited(m.(events := m.events + [e], outstanding := m.outstanding + 1), errors[1..]);
      } else {
        MediaErrorsUnsolicited(m, errors[1..]);
      }
    }
  }

  lemma {:induction false} WithoutTelemetryUnsolicited(es: seq<Event>)
    requires Unsolicited(es)
    ensures Unsolicited(WithoutTelemetry(es))
  {
    if es != [] {
      WithoutTelemetryUnsolicited(es[1..]);
    }
  }

  lemma {:induction false} FailedEventsUnsolicited(rs: seq<Request>)
    ensures Unsolicited(FailedEvents(rs))
  {
    if rs != [] {
      FailedEventsUnsolicited(rs[1..]);
    }
  }

  lemma BackgroundUnsolicited(s: System, step: Step)
    requires BudgetInv(s) && Unsolicited(s.mail.events) && Enabled(s, step) && !step.UiSubmit? && !step.UiPoll?
    ensures Unsolicited(Next(s, step).mail.events)
  {
    match step {
      case WorkerTick(errors) =>
        MediaErrorsUnsolicited(s.mail, errors);
        WithoutTelemetryUnsolicited(QueueMediaErrors(s.mail, errors).events);
      case WorkerExit => FailedEventsUnsolicited(s.mail.requests);
      case WorkerPublish => assert Terminal(s.phase.stage.result);
      case _ =>
    }
  }

  lemma BackgroundUnanswered(s: System, step: Step, r: Request)
    requires Enabled(s, step) && !step.UiSubmit? && !step.UiPoll? && Unanswered(Next(s, step), r)
    ensures Unanswered(s, r)
  {
    match step {
      case WorkerTick(errors) => MediaErrorsAnswers(s.mail, errors, 0);
      case WorkerPublish =>
      case _ => QuietFrame(s, step, Playback);
    }
  }

  lemma QuietDesk(d: Desk, t: Desk, step: Step)
    requires DeskInv(d) && Enabled(d.system, step) && !step.UiSubmit? && !step.UiPoll?
    requires t.system == Next(d.system, step) && t.inbox == d.inbox
    requires t.books.pending == d.books.pending && t.books.next == d.books.next
    ensures DeskInv(t)
  {
    StepBudget(d.system, step);
    BackgroundUnsolicited(d.system, step);
    assert PhaseOk(d.system);
    hide BudgetInv, PhaseOk, Next, Enabled, Unanswered, Owing, Unsolicited;
    forall g: nat ensures Unapplied(t, g) == Unapplied(d, g) {
      QuietStepOwes(d.system, step, g);
    }
    forall r | Unanswered(t.system, r) ensures KindKnown(t, r) {
      BackgroundUnanswered(d.system, step, r);
      assert KindKnown(d, r);
    }
  }

  // ----- Every run -----

  lemma StepDesk(d: Desk, step: DeskStep)
    requires DeskInv(d) && DeskEnabled(d, step)
    ensures DeskInv(DeskNext(d, step))
  {
    hide DeskInv;
    match step {
      case Command(a) => CommandDesk(d, a);
      case Collect => CollectDesk(d);
      case ApplyEvent => ApplyDesk(d);
      case Abandon(generation) => QuietDesk(d, DoAbandon(d, generation), UiCancel(generation));
      case Background(inner) => QuietDesk(d, d.(system := Next(d.system, inner)), inner);
    }
  }

  lemma {:induction false} RunDesk(d: Desk, steps: seq<DeskStep>)
    requires DeskInv(d) && DeskPossible(d, steps)
    ensures DeskInv(DeskRun(d, steps))
    decreases |steps|
  {
    hide DeskInv, DeskNext, DeskEnabled;
    if steps != [] {
      StepDesk(d, steps[0]);
      RunDesk(DeskNext(d, steps[0]), steps[1..]);
    }
  }

  /** From a fresh start, a generation is pending exactly while one answer to it is owed or not yet applied. */
  lemma PendingExactlyUnapplied(steps: seq<DeskStep>, g: nat)
    requires DeskPossible(FreshDesk(), steps)
    ensures var d := DeskRun(FreshDesk(), steps);
            && Unapplied(d, g) <= 1
            && (g in d.books.pending <==> Unapplied(d, g) == 1)
  {
    FreshIsOk();
    RunDesk(FreshDesk(), steps);
  }

  lemma FreshIsOk()
    ensures DeskInv(FreshDesk())
  {
  }

  lemma ReachableDesk(steps: seq<DeskStep>)
    requires DeskPossible(FreshDesk(), steps)
    ensures DeskInv(DeskRun(FreshDesk(), steps))
  {
    FreshIsOk();
    RunDesk(FreshDesk(), steps);
  }

  /** Over every run: once the worker has exited and its events are collected and applied, no command is left pending. */
  lemma NothingLeftPending(steps: seq<DeskStep>)
    requires DeskPossible(FreshDesk(), steps) && DeskRun(FreshDesk(), steps).system.phase.Exited?
    requires var d := DeskRun(FreshDesk(), steps); d.system.mail.events == [] && d.inbox == []
    ensures DeskRun(FreshDesk(), steps).books.pending == map[]
  {
    ReachableDesk(steps);
    var d := DeskRun(FreshDesk(), steps);
    hide BudgetInv, DeskRun, DeskPossible;
    forall g: nat ensures g !in d.books.pending {
      assert Unapplied(d, g) == if g in d.books.pending then 1 else 0;
    }
  }

  /** Over every run: an accepted launch that is queued or running asks for confirmation before quitting. */
  lemma LaunchAsksBeforeQuit(steps: seq<DeskStep>, r: Request)
    requires DeskPossible(FreshDesk(), steps) && Unanswered(DeskRun(FreshDesk(), steps).system, r)
    requires r.action.PlayFile? || r.action.PlayLocal? || r.action.ReplaySession?
    ensures AppTracker.LaunchPending(DeskRun(FreshDesk(), steps).books)
  {
    hide *;
    ReachableDesk(steps);
    LaunchIsPending(DeskRun(FreshDesk(), steps), r);
  }

  lemma LaunchIsPending(d: Desk, r: Request)
    requires DeskInv(d) && Unanswered(d.system, r)
    requires r.action.PlayFile? || r.action.PlayLocal? || r.action.ReplaySession?
    ensures AppTracker.LaunchPending(d.books)
  {
    hide BudgetInv, ExitClosed, PendingIsUnapplied, Unsolicited, Unanswered;
    assert KindKnown(d, r);
  }

  // ----- What a command supersedes -----

  /** The marks move to a newly issued generation whether or not it stays pending. */
  lemma CommandMarks(d: Desk, a: Action)
    ensures var t, g0 := DoCommand(d, a).books, d.books.next + 1;
            && t.latestPrepare == (if PendingOf(a).Prepare? then g0 else d.books.latestPrepare)
            && t.latestPlay == (if PendingOf(a).Play? then g0 else d.books.latestPlay)
  {
    hide DoSubmit, Accepts, PendingOf;
  }

  /**
   Which current answers a command makes obsolete: those of its own kind, whether the worker accepts
   the command or refuses it. Only a newer load must be accepted to count.
   */
  lemma CommandSupersedes(d: Desk, a: Action, g: nat)
    requires PendingIsUnapplied(d) && g in d.books.pending && AppTracker.Current(d.books, g)
    ensures var t := DoCommand(d, a).books; var kind := d.books.pending[g];
            && g in t.pending && t.pending[g] == kind
            && (AppTracker.Current(t, g)
                <==> !AppTracker.SameKind(PendingOf(a), kind)
                     && !(kind.Load? && PendingOf(a).Load? && Accepts(d.system.mail)))
  {
    CommandBooks(d, a);
    CommandMarks(d, a);
    assert g <= d.books.next;
    hide *;
    AppTracker.IssueSupersedes(d.books, DoCommand(d, a).books, PendingOf(a), Accepts(d.system.mail), g);
  }

  /** Preparations and launches, once superseded or abandoned, are never shown again. */
  predicate Obsolete(b: AppTracker.Books, g: nat) {
    && g in b.pending && (b.pending[g].Prepare? || b.pending[g].Play?) && !AppTracker.Current(b, g)
  }

  /** Issued before, and never to be shown: answered by now, or its answer is obsolete. */
  predicate Dismissed(b: AppTracker.Books, g: nat) { 1 <= g <= b.next && (g in b.pending ==> Obsolete(b, g)) }

  lemma StepDismissed(d: Desk, step: DeskStep, g: nat)
    requires PendingIsUnapplied(d) && DeskEnabled(d, step) && Dismissed(d.books, g)
    ensures Dismissed(DeskNext(d, step).books, g)
  {
    match step {
      case Command(a) => CommandDismisses(d, a, g);
      case _ => hide PendingIsUnapplied, Enabled, Next, CancelRequest, DoPoll, DoSubmit;
    }
  }

  lemma CommandDismisses(d: Desk, a: Action, g: nat)
    requires PendingIsUnapplied(d) && Dismissed(d.books, g)
    ensures Dismissed(DoCommand(d, a).books, g)
  {
    assert d.books.next + 1 !in d.books.pending;
    CommandBooks(d, a);
    CommandMarks(d, a);
    hide PendingIsUnapplied, DoCommand, DoSubmit, Accepts;
  }

  /** Over every run: a superseded preparation or launch is never shown, whatever its answer. */
  lemma {:induction false} ObsoleteForGood(d: Desk, steps: seq<DeskStep>, g: nat)
    requires DeskInv(d) && DeskPossible(d, steps) && Dismissed(d.books, g)
    ensures var t := DeskRun(d, steps).books; g in t.pending ==> !AppTracker.Resolution(t, g).current
    decreases |steps|
  {
    hide DeskInv, DeskNext, DeskEnabled;
    if steps != [] {
      hide Dismissed, AppTracker.Current;
      DeskParts(d);
      StepDismissed(d, steps[0], g);
      StepDesk(d, steps[0]);
      ObsoleteForGood(DeskNext(d, steps[0]), steps[1..], g);
    }
  }

  lemma DeskParts(d: Desk)
    requires DeskInv(d)
    ensures PendingIsUnapplied(d)
  {
    hide BudgetInv, PendingIsUnapplied;
  }
}
