/** The invariants of the worker protocol over every run from a fresh mailbox, and what they give a caller. */
module WorkerRuns {
  import opened Util
  import opened Mailbox
  import opened WorkerProtocol
  import opened WorkerBudget
  import opened WorkerAnswers
  import opened WorkerScope
  import opened WorkerPipeline

  ghost predicate WorkerInv(s: System) {
    && BudgetInv(s) && ExactlyOnce(s) && ExitClosed(s) && ScopeInv(s) && RevisionInv(s)
    && LaneInv(s, Playback) && LaneInv(s, Metadata) && Coalesced(s.mail.requests)
  }

  lemma InitInv()
    ensures WorkerInv(Init())
  {
    InitScope();
    InitLane(Playback);
    InitLane(Metadata);
  }

  lemma StepInv(s: System, step: Step)
    requires WorkerInv(s) && Enabled(s, step)
    ensures WorkerInv(Next(s, step))
  {
    hide Accounted, QueueShape, PhaseOk, ExactlyOnce, ExitClosed, ScopeInv, LaneInv, Coalesced, RevisionInv, Next, Enabled;
    StepBudget(s, step);
    StepAnswers(s, step);
    StepClosed(s, step);
    StepScope(s, step);
    StepLane(s, step, Playback);
    StepLane(s, step, Metadata);
    StepCoalesced(s, step);
    StepRevisions(s, step);
  }

  lemma {:induction false} RunInv(s: System, steps: seq<Step>)
    requires WorkerInv(s) && Possible(s, steps)
    ensures WorkerInv(Run(s, steps))
    decreases |steps|
  {
    hide WorkerInv, Next, Enabled;
    if steps != [] {
      StepInv(s, steps[0]);
      RunInv(Next(s, steps[0]), steps[1..]);
    }
  }

  /** Every reachable state keeps the budget, the queue bound and the answer count. */
  lemma Reachable(steps: seq<Step>) returns (s: System)
    requires Possible(Init(), steps)
    ensures s == Run(Init(), steps) && WorkerInv(s)
    ensures 0 <= s.mail.outstanding <= CAPACITY && |s.mail.events| <= 2 * CAPACITY + 2
    ensures Poll(s.mail).0.outstanding >= 0
    ensures forall g: nat :: Carrying(s.log, g) == Owing(s, g) + Answering(s.delivered, g)
  {
    InitInv();
    RunInv(Init(), steps);
    s := Run(Init(), steps);
    EventQueueBound(s);
    PollNeverUnderflows(s);
  }

  /** However the worker came to exit, once its events are polled every accepted command was delivered exactly once. */
  lemma ExitedAndDrained(steps: seq<Step>, g: nat)
    requires Possible(Init(), steps)
    requires Run(Init(), steps).phase.Exited? && Run(Init(), steps).mail.events == []
    ensures var s := Run(Init(), steps); Carrying(s.log, g) == Answering(s.delivered, g)
  {
    InitInv();
    RunInv(Init(), steps);
    hide BudgetInv, ScopeInv, LaneInv, RevisionInv, Run, Possible;
  }

  // ----- Work under a replaced scope is cancelled -----

  /** A running command whose account flag was replaced sees its flag set. */
  lemma StaleJobIsCancelled(s: System)
    requires WorkerInv(s) && s.phase.Busy? && s.phase.job.account != s.mail.account
    ensures s.phase.job.account in s.mail.cancelled
  {
    assert AccountOk(s, s.phase.job.account);
  }

  ghost predicate Succeeds(m: Mail, n: Mail) {
    || (n.account == m.account && n.scope == m.scope && n.epoch == m.epoch)
    || (n.account > m.account && n.epoch == m.epoch + 1)
  }

  /** A step either keeps the account flag with its provider and epoch, or publishes a later flag in the next epoch. */
  lemma StepIdentity(s: System, step: Step)
    requires ScopeInv(s) && Enabled(s, step)
    ensures Succeeds(s.mail, Next(s, step).mail)
  {
    assert AccountOk(s, s.mail.account);
    hide ScopeInv, AccountOk, Submit, Supersede, Revoke, Dequeue, CancelRequest;
    if step.WorkerTick? {
      MediaErrorsFrame(s.mail, step.errors);
    } else if step.UiSubmit? {
      assert Next(s, step) == DoSubmit(s, step.generation, step.action);
      SubmitIdentity(s, step.generation, step.action);
    } else if step.WorkerDequeue? {
      DequeueIdentity(s);
    } else if step.WorkerExit? {
      assert Succeeds(s.mail, CloseOnExit(s.mail));
    }
  }

  lemma DequeueIdentity(s: System)
    requires s.mail.account < s.mail.nextFlag
    ensures Succeeds(s.mail, DoDequeue(s).mail)
  {
  }

  lemma SubmitIdentity(s: System, generation: nat, a: Action)
    ensures Succeeds(s.mail, DoSubmit(s, generation, a).mail)
  {
  }

  /** Over any run a flag names one provider and one epoch for good. */
  lemma {:induction false} FlagIdentity(s: System, steps: seq<Step>)
    requires WorkerInv(s) && Possible(s, steps)
    ensures var m, n := s.mail, Run(s, steps).mail;
            && n.account >= m.account && n.epoch >= m.epoch
            && (n.account == m.account <==> n.epoch == m.epoch)
            && (n.account == m.account ==> n.scope == m.scope)
    decreases |steps|
  {
    hide BudgetInv, ExactlyOnce, ScopeInv, LaneInv, Coalesced, RevisionInv, Next, Enabled;
    if steps != [] {
      StepIdentity(s, steps[0]);
      StepInv(s, steps[0]);
      FlagIdentity(Next(s, steps[0]), steps[1..]);
    }
  }

  /** Over any run no flag that was set is cleared. */
  lemma {:induction false} FlagsStaySet(s: System, steps: seq<Step>)
    requires Possible(s, steps)
    ensures s.mail.cancelled <= Run(s, steps).mail.cancelled
    decreases |steps|
  {
    hide Next, Enabled;
    if steps != [] {
      StepFlagsMonotone(s, steps[0]);
      FlagsStaySet(Next(s, steps[0]), steps[1..]);
    }
  }
}
