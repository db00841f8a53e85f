/**
 A run from a fresh start in which a preparation succeeds and its success is never shown: the mailbox
 fills up, a second preparation is refused, and the refusal alone makes the first one obsolete.
 */
module LostAnswer {
  import opened Util
  import opened Mailbox
  import opened WorkerProtocol
  import opened UiDesk
  import AppTracker

  /** A reveal is queued behind what is there and supersedes nothing. */
  function Reveals(n: nat): seq<DeskStep> { if n == 0 then [] else [Command(RevealSession(0))] + Reveals(n - 1) }

  /** One preparation is queued first and current, with n commands in all and nothing else done. */
  ghost predicate Waiting(d: Desk, n: nat) {
    && d.system.phase == Top && d.system.settings == None && d.system.prepared == None && d.inbox == []
    && n >= 1 && WaitingMail(d.system.mail, n)
    && d.system.log == d.system.mail.requests
    && BooksWaiting(d.books)
  }

  ghost predicate BooksWaiting(b: AppTracker.Books) {
    && 1 <= b.next && 1 in b.pending && b.pending[1] == AppTracker.Prepare && b.latestPrepare == 1
    && (forall g :: g in b.pending ==> g <= b.next) && 1 !in b.releases
  }

  ghost predicate WaitingMail(m: Mail, n: nat)
    requires n >= 1
  {
    && m.events == [] && m.outstanding == n && !m.stopped && m.scope == None && m.cancelled == {} && m.discarded == []
    && |m.requests| == n && m.requests[0].generation == 1 && m.requests[0].action.Prepare? && m.requests[0].cancel != m.account
    && forall i :: 1 <= i < n ==> !m.requests[i].action.Prepare?
  }

  lemma RevealWaits(d: Desk, n: nat)
    requires Waiting(d, n) && n < CAPACITY
    ensures Waiting(DoCommand(d, RevealSession(0)), n + 1)
  {
    var a := RevealSession(0);
    assert Family(a) == None && !MetadataAction(a) && !DrainsPipeline(d.system.mail, a);
    CommandBooks(d, a);
    CommandMarks(d, a);
  }

  lemma {:induction false} RevealsFill(d: Desk, n: nat, k: nat)
    requires Waiting(d, n) && n + k <= CAPACITY
    ensures DeskPossible(d, Reveals(k)) && Waiting(DeskRun(d, Reveals(k)), n + k)
    decreases k
  {
    hide Waiting, DoCommand;
    if k > 0 {
      RevealWaits(d, n);
      assert Reveals(k)[1..] == Reveals(k - 1);
      RevealsFill(DoCommand(d, RevealSession(0)), n + 1, k - 1);
    }
  }

  lemma {:induction false} RunsCompose(d: Desk, a: seq<DeskStep>, b: seq<DeskStep>)
    requires DeskPossible(d, a) && DeskPossible(DeskRun(d, a), b)
    ensures DeskPossible(d, a + b) && DeskRun(d, a + b) == DeskRun(DeskRun(d, a), b)
    decreases |a|
  {
    hide DeskEnabled, DeskNext;
    if a == [] {
      assert a + b == b;
    } else {
      assert (a + b)[1..] == a[1..] + b;
      RunsCompose(DeskNext(d, a[0]), a[1..], b);
    }
  }

  /** The worker takes the oldest command, prepares it successfully, and the UI collects the answer. */
  function Served(): seq<DeskStep> {
    [Background(WorkerDequeue), Background(WorkerPreflight(Loaded(RealDebrid)))] + Finished()
  }

  function Finished(): seq<DeskStep> {
    [Background(WorkerExecute(Mailbox.Prepared, Some(RealDebrid), Some(1))), Background(WorkerSettle),
     Background(WorkerCheck), Background(WorkerPublish), Collect]
  }

  /** The first command runs uncancelled; its settings are loaded and published together. */
  ghost predicate Serving(s: System, stage: Stage, known: Option<Provider>) {
    && s.phase.Busy? && s.phase.stage == stage && s.phase.job.request.generation == 1 && s.phase.job.request.action.Prepare?
    && s.phase.job.request.cancel !in s.mail.cancelled
    && s.mail.events == [] && !s.mail.stopped && s.settings == known && s.mail.scope == known
  }

  lemma FirstIsTaken(s: System, n: nat)
    requires n >= 1 && WaitingMail(s.mail, n) && s.phase == Top && s.settings == None && s.prepared == None
    ensures var t := DoDequeue(s); Serving(t, Preflight, None) && t.mail.account == s.mail.account && t.log == s.log
    ensures DoDequeue(s).phase.job.request.cancel != s.mail.account
  {
  }

  lemma FirstIsLoaded(s: System)
    requires Serving(s, Preflight, None) && s.phase.job.request.cancel != s.mail.account
    ensures var t := DoPreflight(s, Loaded(RealDebrid)); Serving(t, Execute, Some(RealDebrid)) && t.log == s.log
  {
  }

  lemma FirstIsAnswered(s: System)
    requires Serving(s, Execute, Some(RealDebrid))
    ensures var t := DoCheck(DoSettle(DoExecute(s, Mailbox.Prepared, Some(RealDebrid), Some(1))));
            Serving(t, Finish(Mailbox.Prepared), Some(RealDebrid)) && t.log == s.log
    ensures Serving(DoSettle(DoExecute(s, Mailbox.Prepared, Some(RealDebrid), Some(1))), Check(Mailbox.Prepared), Some(RealDebrid))
  {
  }

  lemma AnswerIsCollected(d: Desk)
    requires Serving(d.system, Execute, Some(RealDebrid)) && d.inbox == []
    ensures DeskPossible(d, Finished())
    ensures var t := DeskRun(d, Finished());
            t.inbox == [Event(1, Mailbox.Prepared)] && t.books == d.books && t.system.log == d.system.log
  {
    FirstIsAnswered(d.system);
    hide DoSubmit, CancelRequest, DropHandle, Tick, CloseOnExit, Dequeue;
    var steps := Finished();
    var d3 := DeskNext(d, steps[0]);
    var d4 := DeskNext(d3, steps[1]);
    var d5 := DeskNext(d4, steps[2]);
    assert DeskEnabled(d4, steps[2]) && d5.system.phase.stage == Finish(Mailbox.Prepared);
    FinishCollects(d5);
    FirstThen(d4, steps[2], steps[3..]);
    assert steps[2..] == [steps[2]] + steps[3..];
    FirstThen(d3, steps[1], steps[2..]);
    assert steps[1..] == [steps[1]] + steps[2..];
    FirstThen(d, steps[0], steps[1..]);
    assert steps == [steps[0]] + steps[1..];
  }

  lemma FinishCollects(d: Desk)
    requires Serving(d.system, Finish(Mailbox.Prepared), Some(RealDebrid)) && d.inbox == []
    ensures DeskPossible(d, [Background(WorkerPublish), Collect])
    ensures var t := DeskRun(d, [Background(WorkerPublish), Collect]);
            t.inbox == [Event(1, Mailbox.Prepared)] && t.books == d.books && t.system.log == d.system.log
  {
    var d6 := DeskNext(d, Background(WorkerPublish));
    assert d6.system.mail.events == [Event(1, Mailbox.Prepared)];
    FirstThen(d6, Collect, []);
    assert [Collect] + [] == [Collect];
    FirstThen(d, Background(WorkerPublish), [Collect]);
  }

  lemma LoadIsCollected(d: Desk)
    requires Serving(d.system, Preflight, None) && d.system.phase.job.request.cancel != d.system.mail.account
             && d.inbox == []
    ensures DeskPossible(d, Served()[1..])
    ensures var t := DeskRun(d, Served()[1..]);
            t.inbox == [Event(1, Mailbox.Prepared)] && t.books == d.books && t.system.log == d.system.log
  {
    FirstIsLoaded(d.system);
    var load := Background(WorkerPreflight(Loaded(RealDebrid)));
    assert DeskEnabled(d, load);
    var t := d.(system := DoPreflight(d.system, Loaded(RealDebrid)));
    assert DeskNext(d, load) == t;
    hide Serving, DeskNext, DeskEnabled, DoPreflight;
    AnswerIsCollected(t);
    FirstThen(d, load, Finished());
    assert Served()[1..] == [load] + Finished();
  }

  lemma FirstIsServed(d: Desk, n: nat)
    requires n >= 1 && WaitingMail(d.system.mail, n) && d.inbox == []
    requires d.system.phase == Top && d.system.settings == None && d.system.prepared == None
    ensures DeskPossible(d, Served())
    ensures var t := DeskRun(d, Served());
            t.inbox == [Event(1, Mailbox.Prepared)] && t.books == d.books && t.system.log == d.system.log
  {
    FirstIsTaken(d.system, n);
    var take := Background(WorkerDequeue);
    assert DeskEnabled(d, take);
    var t := d.(system := DoDequeue(d.system));
    assert DeskNext(d, take) == t;
    hide Serving, DeskNext, DeskEnabled, DoDequeue, WaitingMail;
    LoadIsCollected(t);
    FirstThen(d, take, Served()[1..]);
    assert Served() == [take] + Served()[1..];
  }

  lemma FirstThen(d: Desk, step: DeskStep, rest: seq<DeskStep>)
    requires DeskEnabled(d, step) && DeskPossible(DeskNext(d, step), rest)
    ensures DeskPossible(d, [step] + rest) && DeskRun(d, [step] + rest) == DeskRun(DeskNext(d, step), rest)
  {
    hide DeskEnabled, DeskNext;
    assert ([step] + rest)[1..] == rest;
  }

  /**
   Such an answer can be lost from a fresh start: a preparation is accepted and the mailbox fills up,
   a second preparation is refused, and the first one's success is collected but not shown.
   */
  lemma SuccessIsNotShown() returns (steps: seq<DeskStep>)
    ensures DeskPossible(FreshDesk(), steps)
    ensures var d := DeskRun(FreshDesk(), steps);
            && d.inbox == [Event(1, Mailbox.Prepared)]
            && AppTracker.Resolution(d.books, 1) == AppTracker.Resolved(Some(AppTracker.Prepare), None, false)
            && forall r :: r in d.system.log && r.action.Prepare? ==> r.generation == 1
  {
    var prepare := Command(Mailbox.Prepare);
    var d1 := DeskNext(FreshDesk(), prepare);
    FirstWaits();
    RevealsFill(d1, 1, CAPACITY - 1);
    var d2 := DeskRun(d1, Reveals(CAPACITY - 1));
    var d3 := DeskNext(d2, prepare);
    RefusedWaits(d2);
    FirstIsServed(d3, CAPACITY);
    hide DeskNext, DeskEnabled, Waiting, WaitingMail, BooksWaiting, Served, Reveals;
    FirstThen(d2, prepare, Served());
    RunsCompose(d1, Reveals(CAPACITY - 1), [prepare] + Served());
    FirstThen(FreshDesk(), prepare, Reveals(CAPACITY - 1) + ([prepare] + Served()));
    steps := [prepare] + (Reveals(CAPACITY - 1) + ([prepare] + Served()));
  }

  lemma FirstWaits()
    ensures Waiting(DoCommand(FreshDesk(), Mailbox.Prepare), 1)
  {
    assert Flags([]) == {};
  }

  /** The refusal changes nothing but the mark. */
  lemma RefusedWaits(d: Desk)
    requires Waiting(d, CAPACITY)
    ensures var t := DoCommand(d, Mailbox.Prepare);
            && t.system == d.system && t.inbox == []
            && AppTracker.Resolution(t.books, 1) == AppTracker.Resolved(Some(AppTracker.Prepare), None, false)
    ensures forall r :: r in d.system.log && r.action.Prepare? ==> r.generation == 1
    ensures WaitingMail(d.system.mail, CAPACITY) && d.system.phase == Top && d.system.settings == None
             && d.system.prepared == None
  {
  }
}
