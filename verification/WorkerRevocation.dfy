/**
 Which commands an accepted command cancels and how they are answered, what becomes of a success that
 was cancelled meanwhile, and how the account scope follows the settings.
 */
module WorkerRevocation {
  import opened Util
  import opened Mailbox
  import opened WorkerProtocol
  import opened WorkerBudget
  import opened WorkerAnswers
  import opened WorkerScope
  import opened WorkerPipeline
  import opened WorkerRuns

  // ----- What a command touches, by its kind and the account in scope -----

  predicate PlaybackWork(a: Action) { a.Prepare? || a.PlayFile? || a.PlayLocal? || a.TestCredential? }

  /** Sets or deletes the credential of the account in scope. */
  predicate Rekeys(a: Action, scope: Option<Provider>) {
    scope.Some? && (a == SetCredential(scope.value) || a == DeleteCredential(scope.value))
  }

  predicate StopsPlayback(a: Action, scope: Option<Provider>) { PlaybackWork(a) || a.SaveSettings? || Rekeys(a, scope) }

  predicate StopsTmdbTest(a: Action) { a.SetTmdbCredential? || a.DeleteTmdbCredential? || a.TestTmdbCredential? }

  /** Another provider is chosen, or the one in scope gets another credential. */
  predicate LeavesAccount(a: Action, scope: Option<Provider>) {
    Rekeys(a, scope) || (a.SaveSettings? && scope != Some(a.debrid))
  }

  /** A queued command is replaced by a newer one that makes it pointless. */
  predicate Replaces(a: Action, queued: Action) {
    || (a.LoadSettings? && queued.LoadSettings?)
    || (a.Prepare? && queued.Prepare?)
    || ((a.PlayFile? || a.PlayLocal?) && (queued.PlayFile? || queued.PlayLocal?))
    || (a.TestCredential? && queued == a)
    || (a.TestTmdbCredential? && queued.TestTmdbCredential?)
  }

  lemma ReplacesIsFamily(a: Action, queued: Action)
    ensures Replaces(a, queued) <==> Family(a).Some? && Family(a) == Family(queued)
  {
  }

  // ----- A slot names an unanswered command -----

  ghost predicate SlotHeld(s: System, lane: Lane) {
    Slot(s.mail, lane) == [] || exists r :: Unanswered(s, r) && InLane(r.action, lane) && Slot(s.mail, lane) == [r.cancel]
  }

  lemma StaysHeld(s: System, t: System, lane: Lane)
    requires SlotHeld(s, lane) && (Slot(t.mail, lane) == Slot(s.mail, lane) || Slot(t.mail, lane) == [])
    requires Slot(t.mail, lane) == [] || forall r :: Unanswered(s, r) && InLane(r.action, lane) ==> Unanswered(t, r)
    ensures SlotHeld(t, lane)
  {
    hide Unanswered, Slot, InLane;
    if Slot(t.mail, lane) != [] {
      var r :| Unanswered(s, r) && InLane(r.action, lane) && Slot(s.mail, lane) == [r.cancel];
    }
  }

  /** Submission drains the slot, refills it with the newcomer, or leaves it to a command that is not superseded. */
  lemma SubmitHeld(s: System, generation: nat, a: Action, lane: Lane)
    requires ScopeInv(s) && SlotHeld(s, lane) && SlotOk(s, lane)
    ensures SlotHeld(DoSubmit(s, generation, a), lane)
  {
    if Accepts(s.mail) {
      var t := DoSubmit(s, generation, a);
      var r := NewRequest(Revoke(s.mail, a), generation, a);
      SubmitShape(s.mail, generation, a);
      if InLane(a, lane) {
        SubmitSlot(s, generation, a, lane);
        assert t.mail.requests[|t.mail.requests| - 1] == r;
        assert Unanswered(t, r);
      } else {
        SlotWithout(s, generation, a, lane);
        forall q | Unanswered(s, q) && InLane(q.action, lane) ensures Unanswered(t, q) {
          NotSuperseded(s, generation, a, lane, q);
        }
        StaysHeld(s, t, lane);
      }
    }
  }

  lemma SlotWithout(s: System, generation: nat, a: Action, lane: Lane)
    requires Accepts(s.mail) && !InLane(a, lane)
    ensures Slot(DoSubmit(s, generation, a).mail, lane) == if Drains(s.mail, a, lane) then [] else Slot(s.mail, lane)
  {
  }

  lemma NotSuperseded(s: System, generation: nat, a: Action, lane: Lane, q: Request)
    requires ScopeInv(s) && Accepts(s.mail) && !InLane(a, lane) && Unanswered(s, q) && InLane(q.action, lane)
    ensures Unanswered(DoSubmit(s, generation, a), q)
  {
    var m := Revoke(s.mail, a);
    SubmitShape(s.mail, generation, a);
    if q in m.requests && Family(a).Some? && FindFamily(m.requests, Family(a).value).Some? {
      QueueRemove(m.requests, s.log, FindFamily(m.requests, Family(a).value).value);
    }
  }

  /** Only the command that is answered leaves the slot. */
  lemma PublishHeld(s: System, lane: Lane)
    requires SlotHeld(s, lane) && Enabled(s, WorkerPublish)
    ensures SlotHeld(DoPublish(s), lane)
  {
    if Slot(s.mail, lane) != [] {
      var r :| Unanswered(s, r) && InLane(r.action, lane) && Slot(s.mail, lane) == [r.cancel];
      var f := s.phase.job.request.cancel;
      assert Slot(DoPublish(s).mail, lane) == Without([r.cancel], f);
      assert Without([r.cancel], f) == if r.cancel == f then [] else [r.cancel] by { assert [r.cancel][1..] == []; }
      if r.cancel != f {
        assert Unanswered(DoPublish(s), r);
      }
    }
  }

  /** A step of any other kind answers nothing unless it empties the slots. */
  lemma QuietUnanswered(s: System, step: Step, lane: Lane)
    requires Enabled(s, step) && !step.UiSubmit? && !step.WorkerPublish? && !step.WorkerTick?
    ensures var t := Next(s, step);
            && (Slot(t.mail, lane) == Slot(s.mail, lane) || Slot(t.mail, lane) == [])
            && (Slot(t.mail, lane) == [] || forall r :: Unanswered(s, r) ==> Unanswered(t, r))
  {
    if step.WorkerDequeue? && s.mail.requests != [] {
      assert s.mail.requests == [s.mail.requests[0]] + s.mail.requests[1..];
    }
  }

  lemma StepHeld(s: System, step: Step, lane: Lane)
    requires ScopeInv(s) && LaneInv(s, lane) && SlotHeld(s, lane) && Enabled(s, step)
    ensures SlotHeld(Next(s, step), lane)
  {
    hide ScopeInv, SlotHeld;
    match step {
      case UiSubmit(generation, a) => SubmitHeld(s, generation, a, lane);
      case WorkerPublish => PublishHeld(s, lane);
      case WorkerTick(errors) =>
        MediaErrorsFrame(s.mail, errors);
        StaysHeld(s, Next(s, step), lane);
      case _ =>
        QuietUnanswered(s, step, lane);
        StaysHeld(s, Next(s, step), lane);
    }
  }

  /** The invariants of the protocol, and that slots name unanswered commands. */
  ghost predicate Reached(s: System) { WorkerInv(s) && SlotHeld(s, Playback) && SlotHeld(s, Metadata) }

  lemma {:induction false} RunHeld(s: System, steps: seq<Step>)
    requires Reached(s) && Possible(s, steps)
    ensures Reached(Run(s, steps))
    decreases |steps|
  {
    hide WorkerInv, SlotHeld, Next, Enabled;
    if steps != [] {
      StepKeeps(s, steps[0]);
      RunHeld(Next(s, steps[0]), steps[1..]);
    }
  }

  lemma StepKeeps(s: System, step: Step)
    requires Reached(s) && Enabled(s, step)
    ensures Reached(Next(s, step))
  {
    hide SlotHeld, Next, Enabled, ScopeInv, LaneInv, BudgetInv, ExactlyOnce, RevisionInv, Coalesced;
    StepInv(s, step);
    StepHeld(s, step, Playback);
    StepHeld(s, step, Metadata);
  }

  /** Every reachable state is reached. */
  lemma RunReaches(steps: seq<Step>)
    requires Possible(Init(), steps)
    ensures Reached(Run(Init(), steps))
  {
    InitInv();
    RunHeld(Init(), steps);
  }

  // ----- What an accepted command cancels -----

  /** A slot holds the flag of its one live command, and no flag of a command already answered. */
  lemma SlotNames(s: System, r: Request, lane: Lane)
    requires Reached(s) && r in s.log
    ensures r.cancel in Slot(s.mail, lane) ==> Unanswered(s, r) && InLane(r.action, lane)
    ensures Unanswered(s, r) && Live(r, s.mail, lane) ==> r.cancel in Slot(s.mail, lane)
  {
    hide BudgetInv, ExactlyOnce, RevisionInv, Coalesced, AccountsRetired, NotStuck;
    if Unanswered(s, r) && Live(r, s.mail, lane) {
      assert Tracked(r, s.mail, lane);
      assert [r.cancel][0] == r.cancel;
    }
    if r.cancel in Slot(s.mail, lane) {
      var q :| Unanswered(s, q) && InLane(q.action, lane) && Slot(s.mail, lane) == [q.cancel];
      assert q in s.log;
      SameFlagSameRequest(s.log, s.mail.nextFlag, q, r);
    }
  }

  /** The flags set by an accepted command, before the queue is looked at and by replacing a queued command. */
  lemma SubmitSets(m: Mail, generation: nat, a: Action)
    requires Accepts(m)
    ensures forall f: Flag :: f in Submit(m, generation, a).cancelled <==>
              || f in m.cancelled
              || (LeavesAccount(a, m.scope) && f == m.account)
              || (StopsPlayback(a, m.scope) && f in m.pipeline)
              || (StopsTmdbTest(a) && f in m.metadataPipeline)
              || (exists i :: 0 <= i < |m.requests| && FirstReplaced(m, a, i) && f == m.requests[i].cancel)
  {
    SubmitUnion(m, generation, a);
    FirstOfFamily(m, a);
    hide Submit, FirstReplaced, LeavesAccount, StopsPlayback;
  }

  lemma SubmitUnion(m: Mail, generation: nat, a: Action)
    requires Accepts(m)
    ensures Submit(m, generation, a).cancelled
         == m.cancelled + (if LeavesAccount(a, m.scope) then {m.account} else {})
            + (if StopsPlayback(a, m.scope) then Flags(m.pipeline) else {})
            + (if StopsTmdbTest(a) then Flags(m.metadataPipeline) else {})
            + (if Family(a).Some? && FindFamily(m.requests, Family(a).value).Some?
               then {m.requests[FindFamily(m.requests, Family(a).value).value].cancel} else {})
  {
    hide FindFamily, Flags;
  }

  ghost predicate FirstReplaced(m: Mail, a: Action, i: nat) {
    i < |m.requests| && Replaces(a, m.requests[i].action) && forall j :: 0 <= j < i ==> !Replaces(a, m.requests[j].action)
  }

  lemma {:induction false} FindsFirst(rs: seq<Request>, family: nat)
    ensures match FindFamily(rs, family)
            case None => forall j :: 0 <= j < |rs| ==> Family(rs[j].action) != Some(family)
            case Some(i) => Family(rs[i].action) == Some(family) && forall j :: 0 <= j < i ==> Family(rs[j].action) != Some(family)
  {
    if rs != [] && Family(rs[0].action) != Some(family) {
      FindsFirst(rs[1..], family);
      assert forall j :: 0 < j < |rs| ==> rs[j] == rs[1..][j - 1];
    }
  }

  lemma FirstOfFamily(m: Mail, a: Action)
    ensures forall i: nat :: FirstReplaced(m, a, i) <==> Family(a).Some? && FindFamily(m.requests, Family(a).value) == Some(i)
  {
    if Family(a).Some? {
      FindsFirst(m.requests, Family(a).value);
    }
    forall i: nat ensures FirstReplaced(m, a, i) <==> Family(a).Some? && FindFamily(m.requests, Family(a).value) == Some(i) {
      forall j | 0 <= j < |m.requests|
        ensures Replaces(a, m.requests[j].action) <==> Family(a).Some? && Family(m.requests[j].action) == Family(a)
      {
        ReplacesIsFamily(a, m.requests[j].action);
      }
    }
  }

  /**
   Of all commands ever accepted, an accepted one cancels exactly those that are unanswered and are playback
   work it stops, a TMDB test it stops, or queued and replaced by it.
   */
  lemma SubmitCancelsExactly(s: System, generation: nat, a: Action, r: Request)
    requires Reached(s) && Accepts(s.mail) && r in s.log
    ensures r.cancel in Next(s, UiSubmit(generation, a)).mail.cancelled
       <==> || r.cancel in s.mail.cancelled
            || (Unanswered(s, r) && PlaybackWork(r.action) && StopsPlayback(a, s.mail.scope))
            || (Unanswered(s, r) && r.action.TestTmdbCredential? && StopsTmdbTest(a))
            || (r in s.mail.requests && Replaces(a, r.action))
  {
    SubmitSets(s.mail, generation, a);
    SlotNames(s, r, Playback);
    SlotNames(s, r, Metadata);
    ReplacedIs(s, a, r);
    AccountIsNoCommand(s, r);
    hide Reached, Submit, FirstReplaced, Replaces, Rekeys;
  }

  lemma AccountIsNoCommand(s: System, r: Request)
    requires Reached(s) && r in s.log
    ensures r.cancel != s.mail.account
  {
    hide BudgetInv, ExactlyOnce, RevisionInv, Coalesced, LaneInv, Ordered, NotStuck, SlotHeld;
    assert AccountOk(s, s.mail.account);
  }

  /** At most one queued command is replaced, and it is found. */
  lemma ReplacedIs(s: System, a: Action, r: Request)
    requires Reached(s) && r in s.log
    ensures (exists i :: 0 <= i < |s.mail.requests| && FirstReplaced(s.mail, a, i) && r.cancel == s.mail.requests[i].cancel)
       <==> r in s.mail.requests && Replaces(a, r.action)
  {
    hide BudgetInv, ExactlyOnce, RevisionInv, LaneInv, SlotHeld, AccountsRetired, NotStuck, Replaces;
    if i :| 0 <= i < |s.mail.requests| && FirstReplaced(s.mail, a, i) && r.cancel == s.mail.requests[i].cancel {
      assert s.mail.requests[i] in s.log;
      SameFlagSameRequest(s.log, s.mail.nextFlag, s.mail.requests[i], r);
    }
    if r in s.mail.requests && Replaces(a, r.action) {
      var k :| 0 <= k < |s.mail.requests| && s.mail.requests[k] == r;
      OnlyReplaced(s.mail, a, k);
    }
  }

  lemma OnlyReplaced(m: Mail, a: Action, k: nat)
    requires Coalesced(m.requests) && k < |m.requests| && Replaces(a, m.requests[k].action)
    ensures FirstReplaced(m, a, k)
  {
    ReplacesIsFamily(a, m.requests[k].action);
    forall j | 0 <= j < k ensures !Replaces(a, m.requests[j].action) {
      ReplacesIsFamily(a, m.requests[j].action);
    }
  }

  /**
   The account flag is set exactly by a command that leaves the account. The flag stays published until the
   worker takes that command, and the new command itself starts uncancelled.
   */
  lemma SubmitCancelsAccount(s: System, generation: nat, a: Action)
    requires Reached(s) && Accepts(s.mail)
    ensures var t := Next(s, UiSubmit(generation, a)).mail;
            && t.account == s.mail.account && t.scope == s.mail.scope && t.epoch == s.mail.epoch
            && (s.mail.account in t.cancelled <==> s.mail.account in s.mail.cancelled || LeavesAccount(a, s.mail.scope))
            && s.mail.nextFlag !in t.cancelled
  {
    SubmitSets(s.mail, generation, a);
    SubmitKeepsScope(s.mail, generation, a);
    FlagsAreCommands(s);
    hide Reached, Submit, Replaces, Rekeys;
  }

  lemma SubmitKeepsScope(m: Mail, generation: nat, a: Action)
    ensures var t := Submit(m, generation, a); t.account == m.account && t.scope == m.scope && t.epoch == m.epoch
  {
  }

  lemma FlagsAreCommands(s: System)
    requires Reached(s)
    ensures s.mail.account < s.mail.nextFlag && s.mail.nextFlag !in s.mail.cancelled
    ensures forall f :: f in s.mail.pipeline || f in s.mail.metadataPipeline ==> f < s.mail.nextFlag && f != s.mail.account
    ensures forall i :: 0 <= i < |s.mail.requests| ==>
              s.mail.requests[i].cancel < s.mail.nextFlag && s.mail.requests[i].cancel != s.mail.account
  {
    hide BudgetInv, ExactlyOnce, RevisionInv, Coalesced, LaneInv, NotStuck, SlotHeld;
    assert AccountOk(s, s.mail.account);
    forall f | f in s.mail.pipeline || f in s.mail.metadataPipeline ensures f < s.mail.nextFlag && f != s.mail.account {
      assert f in Flags(s.mail.pipeline) || f in Flags(s.mail.metadataPipeline);
      IssuedIsOld(s, f);
    }
    forall i | 0 <= i < |s.mail.requests|
      ensures s.mail.requests[i].cancel < s.mail.nextFlag && s.mail.requests[i].cancel != s.mail.account
    {
      assert s.mail.requests[i] in s.log;
      IssuedIsOld(s, s.mail.requests[i].cancel);
    }
  }

  // ----- How commands that never ran are answered -----

  /** The replaced command leaves the queue and is answered as failed at once; without one the queue only grows. */
  lemma ReplacedFails(s: System, generation: nat, a: Action)
    requires Reached(s) && Accepts(s.mail)
    ensures var m, t := s.mail, Next(s, UiSubmit(generation, a)).mail;
            var newcomer := Request(generation, a, m.nextFlag, t.revisions);
            && (forall i :: 0 <= i < |m.requests| && Replaces(a, m.requests[i].action) ==>
                  && t.requests == m.requests[..i] + m.requests[i + 1..] + [newcomer]
                  && t.events == m.events + [Event(m.requests[i].generation, Failed)])
            && ((forall i :: 0 <= i < |m.requests| ==> !Replaces(a, m.requests[i].action)) ==>
                  t.requests == m.requests + [newcomer] && t.events == m.events)
  {
    var m := s.mail;
    assert Coalesced(m.requests);
    hide Reached;
    forall i | 0 <= i < |m.requests| ensures Replaces(a, m.requests[i].action) ==> FirstReplaced(m, a, i) {
      if Replaces(a, m.requests[i].action) {
        OnlyReplaced(m, a, i);
      }
    }
    FirstOfFamily(m, a);
    SubmitQueues(m, generation, a);
    hide Submit, Replaces, Family, FindFamily;
  }

  lemma SubmitQueues(m: Mail, generation: nat, a: Action)
    requires Accepts(m)
    ensures var t := Submit(m, generation, a);
            var newcomer := Request(generation, a, m.nextFlag, t.revisions);
            if Family(a).Some? && FindFamily(m.requests, Family(a).value).Some?
            then var i := FindFamily(m.requests, Family(a).value).value;
                 && t.requests == m.requests[..i] + m.requests[i + 1..] + [newcomer]
                 && t.events == m.events + [Event(m.requests[i].generation, Failed)]
            else t.requests == m.requests + [newcomer] && t.events == m.events
  {
  }

  /** An exit answers the running command and then the queue, in order, all as failed. */
  lemma ExitFailsTheRest(s: System)
    requires Reached(s) && Enabled(s, WorkerExit)
    ensures var m, t := s.mail, Next(s, WorkerExit).mail;
            var first := |m.events| + if s.phase.Busy? then 1 else 0;
            && |t.events| == first + |m.requests| && t.events[..|m.events|] == m.events
            && (s.phase.Busy? ==> t.events[|m.events|] == Event(s.phase.job.request.generation, Failed))
            && (forall i :: 0 <= i < |m.requests| ==> t.events[first + i] == Event(m.requests[i].generation, Failed))
            && t.stopped && (forall r :: Unanswered(s, r) ==> r.cancel in t.cancelled) && m.account in t.cancelled
  {
    hide *;
    ActiveIsRunning(s);
    ExitEvents(s.mail);
    ExitMail(s);
    UnansweredAre(s);
  }

  lemma ExitMail(s: System)
    requires Enabled(s, WorkerExit)
    ensures Next(s, WorkerExit).mail == CloseOnExit(s.mail)
  {
    hide CloseOnExit;
  }

  lemma UnansweredAre(s: System)
    ensures forall r :: Unanswered(s, r) <==> r in s.mail.requests || (s.phase.Busy? && r == s.phase.job.request)
  {
  }

  lemma ActiveIsRunning(s: System)
    requires Reached(s)
    ensures s.mail.activeGeneration == if s.phase.Busy? then Some(s.phase.job.request.generation) else None
    ensures s.phase.Busy? ==> s.mail.active == Some(s.phase.job.request.cancel)
  {
    assert PhaseOk(s) && JobOrdered(s);
    hide Reached, WorkerInv;
  }

  lemma ExitEvents(m: Mail)
    ensures var t := CloseOnExit(m); var first := |m.events| + if m.activeGeneration.Some? then 1 else 0;
            && |t.events| == first + |m.requests| && t.events[..|m.events|] == m.events
            && (m.activeGeneration.Some? ==> t.events[|m.events|] == Event(m.activeGeneration.value, Failed))
            && (forall i :: 0 <= i < |m.requests| ==> t.events[first + i] == Event(m.requests[i].generation, Failed))
            && t.stopped && (forall r :: r in m.requests ==> r.cancel in t.cancelled)
            && (m.active.Some? ==> m.active.value in t.cancelled) && m.account in t.cancelled
  {
    FailedInOrder(m.requests);
  }

  lemma {:induction false} FailedInOrder(rs: seq<Request>)
    ensures |FailedEvents(rs)| == |rs|
    ensures forall i :: 0 <= i < |rs| ==> FailedEvents(rs)[i] == Event(rs[i].generation, Failed)
  {
    if rs != [] {
      FailedInOrder(rs[1..]);
      assert forall i :: 0 < i < |rs| ==> rs[i] == rs[1..][i - 1];
    }
  }

  // ----- A cancelled preparation -----

  ghost predicate Running(s: System, r: Request) { s.phase.Busy? && s.phase.job.request == r }

  /** Cancelled before the last look at its flag, and not finished as a success. */
  ghost predicate Doomed(s: System, r: Request) {
    Running(s, r) && r.cancel in s.mail.cancelled && (s.phase.stage.Finish? ==> !s.phase.stage.result.Prepared?)
  }

  lemma StepDoomed(s: System, step: Step, r: Request)
    requires Doomed(s, r) && Enabled(s, step) && !step.WorkerPublish? && !step.WorkerExit?
    ensures Doomed(Next(s, step), r)
  {
    StepFlagsMonotone(s, step);
    hide Submit, CancelRequest, Poll, DropHandle, ReconcileAccount;
  }

  /**
   However the steps interleave: if a running command is cancelled before its result was checked, it is not
   answered as prepared, whatever its execution returned.
   */
  lemma {:induction false} CancelledIsNotPrepared(s: System, steps: seq<Step>, r: Request)
    requires Running(s, r) && r.cancel in s.mail.cancelled && !s.phase.stage.Finish? && Possible(s, steps)
    requires forall i :: 0 <= i < |steps| ==> !steps[i].WorkerPublish? && !steps[i].WorkerExit?
    requires Enabled(Run(s, steps), WorkerPublish)
    ensures var t := Run(s, steps);
            && Running(t, r)
            && exists o: Outcome :: !o.Prepared? && Next(t, WorkerPublish).mail.events == t.mail.events + [Event(r.generation, o)]
  {
    RunDoomed(s, steps, r);
  }

  lemma {:induction false} RunDoomed(s: System, steps: seq<Step>, r: Request)
    requires Doomed(s, r) && Possible(s, steps)
    requires forall i :: 0 <= i < |steps| ==> !steps[i].WorkerPublish? && !steps[i].WorkerExit?
    ensures Doomed(Run(s, steps), r)
    decreases |steps|
  {
    hide Next, Enabled;
    if steps != [] {
      StepDoomed(s, steps[0], r);
      RunDoomed(Next(s, steps[0]), steps[1..], r);
    }
  }

  /** The look at the flag changes only a preparation that was cancelled; any other result is the answer. */
  lemma ResultIsTheAnswer(s: System)
    requires Enabled(s, WorkerCheck)
    ensures var t := Next(s, WorkerCheck); var result := s.phase.stage.result;
            && t.phase.Busy? && t.phase.stage.Finish? && t.phase.job == s.phase.job && t.mail.events == s.mail.events
            && (if result.Prepared? && s.phase.job.request.cancel in s.mail.cancelled
                then t.phase.stage.result.Failed? && t.prepared.None?
                else t.phase.stage.result == result && t.prepared == s.prepared)
            && (Enabled(t, WorkerPublish) ==>
                  && Next(t, WorkerPublish).mail.events
                     == t.mail.events + [Event(s.phase.job.request.generation, t.phase.stage.result)]
                  && Next(t, WorkerPublish).mail.preparedGeneration == t.prepared)
  {
  }

  // ----- The scope follows the settings -----

  /** Between commands, and from the moment a command's settings are applied, known settings name the account in scope. */
  ghost predicate ScopeFollows(s: System) {
    Settled(s.phase) && s.settings.Some? ==> s.mail.scope == s.settings
  }

  predicate Settled(p: Phase) {
    p.Top? || p.AfterWork? || (p.Busy? && (p.stage.Check? || p.stage.EmitThird? || p.stage.Finish?))
  }

  lemma StepFollows(s: System, step: Step)
    requires ScopeFollows(s) && Enabled(s, step)
    ensures ScopeFollows(Next(s, step))
  {
    if step.WorkerTick? {
      MediaErrorsFrame(s.mail, step.errors);
    } else if step.UiSubmit? {
      SubmitKeepsScope(s.mail, step.generation, step.action);
    }
    hide Submit, CancelRequest, Tick;
  }

  lemma {:induction false} RunFollows(s: System, steps: seq<Step>)
    requires ScopeFollows(s) && Possible(s, steps)
    ensures ScopeFollows(Run(s, steps))
    decreases |steps|
  {
    hide ScopeFollows, Next, Enabled;
    if steps != [] {
      StepFollows(s, steps[0]);
      RunFollows(Next(s, steps[0]), steps[1..]);
    }
  }

  /** Over every run a command is answered under the account its settings name, whether it succeeded or failed. */
  lemma ScopeFollowsSettings(steps: seq<Step>)
    requires Possible(Init(), steps)
    ensures ScopeFollows(Run(Init(), steps))
  {
    RunFollows(Init(), steps);
  }

  /** Settling keeps the account of a confirmed provider; for another one it retires the flag and publishes a fresh one. */
  lemma SettleMovesScope(s: System)
    requires Reached(s) && Enabled(s, WorkerSettle)
    ensures var m, t := s.mail, Next(s, WorkerSettle).mail;
            if s.settings.None? || s.settings == m.scope
            then t == m
            else && t.scope == s.settings && t.account == m.nextFlag && t.epoch == m.epoch + 1
                 && m.account in t.cancelled && t.account !in t.cancelled && t.cancelled <= m.cancelled + {m.account}
  {
    FlagsAreCommands(s);
    hide Reached;
  }
}
