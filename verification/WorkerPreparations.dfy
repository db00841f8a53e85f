/**
 The one retained preparation and the account a command runs under: when the account is replaced the
 preparation goes and the UI is told, a cancelled preparation does not outlive the next command, and
 a command executes under the account flag that is current.
 */
module WorkerPreparations {
  import opened Util
  import opened Mailbox
  import opened WorkerProtocol
  import opened WorkerScope

  // ----- A replaced account -----

  predicate Announcing(p: Phase) {
    p.Busy? && p.job.invalidated && (p.stage.EmitFirst? || p.stage.EmitSecond? || p.stage.EmitThird?)
  }

  /** The account was replaced, other than by the settings of a command that has announced a replacement already. */
  predicate Replaced(s: System, step: Step, t: System) {
    t.mail.epoch != s.mail.epoch && !(step.WorkerSettle? && s.phase.Busy? && s.phase.job.invalidated)
  }

  /**
   When the account is replaced the retained preparation goes and an announcement is due. Only the first account
   of all is published in silence, unless a command chose it.
   */
  lemma ReplacementIsAnnounced(s: System, step: Step)
    requires Enabled(s, step) && Replaced(s, step, Next(s, step))
    ensures var t := Next(s, step);
            if s.mail.scope.Some? || step.WorkerDequeue?
            then t.prepared == None && Announcing(t.phase)
            else t.prepared == s.prepared && !Announcing(t.phase)
  {
    if step.WorkerTick? {
      MediaErrorsFrame(s.mail, step.errors);
    }
    hide Submit, CancelRequest, Poll, DropHandle, Tick, QueueMediaErrors;
    if step.UiSubmit? {
      SubmitKeepsEpoch(s.mail, step.generation, step.action);
    }
    SmallStepsKeepEpoch(s.mail);
    if step.UiCancel? {
      CancelKeepsEpoch(s.mail, step.generation);
    }
    if step.WorkerTick? {
      TickKeepsEpoch(s.mail, step.errors);
    }
  }

  lemma SubmitKeepsEpoch(m: Mail, generation: nat, a: Action)
    ensures Submit(m, generation, a).epoch == m.epoch
  {
  }

  lemma CancelKeepsEpoch(m: Mail, generation: nat)
    ensures CancelRequest(m, generation).epoch == m.epoch
  {
  }

  lemma SmallStepsKeepEpoch(m: Mail)
    ensures Poll(m).0.epoch == m.epoch && DropHandle(m).epoch == m.epoch
  {
  }

  lemma TickKeepsEpoch(m: Mail, errors: seq<SessionError>)
    ensures Tick(m, errors).epoch == m.epoch
  {
    MediaErrorsFrame(m, errors);
    hide QueueMediaErrors, WithoutTelemetry;
  }

  /** A due announcement is queued, once, unless the mailbox is closed. */
  lemma AnnouncementIsMade(s: System)
    requires Enabled(s, WorkerEmit)
    ensures var t := Next(s, WorkerEmit);
            && t.mail.events == s.mail.events + (if s.mail.stopped then [] else [Event(0, Invalidated)])
            && !Announcing(t.phase) && t.phase.Busy? && t.phase.job == s.phase.job && t.prepared == s.prepared
  {
  }

  /** Looking settings up for a preparation: a failure is the answer, otherwise the settings found name the account. */
  lemma PreflightExactly(s: System, preload: Preload)
    requires Enabled(s, WorkerPreflight(preload))
    ensures var t := Next(s, WorkerPreflight(preload));
            && t.phase.Busy? && t.phase.job.request == s.phase.job.request
            && match preload
               case Skipped => t == s.(phase := t.phase) && t.phase.job == s.phase.job && t.phase.stage.Execute?
               case LoadFailed => t == s.(phase := t.phase) && t.phase.job == s.phase.job && t.phase.stage == Settle(Failed)
               case Loaded(provider) =>
                 && t.settings == Some(provider) && t.mail.scope == Some(provider) && t.phase.job.account == t.mail.account
                 && (t.phase.stage.Execute? || t.phase.stage.EmitSecond?)
                 && (s.mail.scope == Some(provider) ==> t.mail == s.mail && t.phase.stage.Execute? && t.prepared == s.prepared)
  {
  }

  // ----- The account a command runs under -----

  /** Until it has executed, a command's account flag is the current one. */
  ghost predicate UnderCurrent(s: System) {
    s.phase.Busy? && (s.phase.stage.EmitFirst? || s.phase.stage.Preflight? || s.phase.stage.EmitSecond? || s.phase.stage.Execute?) ==>
      s.phase.job.account == s.mail.account
  }

  lemma StepUnderCurrent(s: System, step: Step)
    requires UnderCurrent(s) && Enabled(s, step)
    ensures UnderCurrent(Next(s, step))
  {
    hide Submit, CancelRequest, Poll, DropHandle, Tick;
    match step {
      case UiSubmit(generation, a) => SubmitKeepsAccount(s.mail, generation, a);
      case UiCancel(generation) => CancelKeepsAccount(s.mail, generation);
      case _ => SmallStepsKeepAccount(s.mail);
    }
  }

  lemma SubmitKeepsAccount(m: Mail, generation: nat, a: Action)
    ensures Submit(m, generation, a).account == m.account
  {
  }

  lemma CancelKeepsAccount(m: Mail, generation: nat)
    ensures CancelRequest(m, generation).account == m.account
  {
  }

  lemma SmallStepsKeepAccount(m: Mail)
    ensures Poll(m).0.account == m.account && DropHandle(m).account == m.account
  {
  }

  lemma {:induction false} RunUnderCurrent(s: System, steps: seq<Step>)
    requires UnderCurrent(s) && Possible(s, steps)
    ensures UnderCurrent(Run(s, steps))
    decreases |steps|
  {
    hide UnderCurrent, Next, Enabled;
    if steps != [] {
      StepUnderCurrent(s, steps[0]);
      RunUnderCurrent(Next(s, steps[0]), steps[1..]);
    }
  }

  /** Over every run a command executes under the account flag that is current then. */
  lemma ExecutesUnderCurrentAccount(steps: seq<Step>)
    requires Possible(Init(), steps)
    ensures var s := Run(Init(), steps); s.phase.Busy? && s.phase.stage.Execute? ==> s.phase.job.account == s.mail.account
  {
    RunUnderCurrent(Init(), steps);
  }

  // ----- Cancelling the retained preparation -----

  /** Between commands the mailbox names the retained preparation, so that it can be cancelled. */
  ghost predicate PreparationNamed(s: System) {
    s.phase.Top? || s.phase.AfterWork? ==> s.mail.preparedGeneration == s.prepared
  }

  lemma StepNamed(s: System, step: Step)
    requires PreparationNamed(s) && Enabled(s, step)
    ensures PreparationNamed(Next(s, step))
  {
    hide Submit, CancelRequest, Poll, DropHandle, Tick;
    match step {
      case UiSubmit(generation, a) => SubmitKeepsPreparation(s.mail, generation, a);
      case UiCancel(generation) => CancelKeepsPreparation(s.mail, generation);
      case WorkerTick(errors) => TickKeepsPreparation(s.mail, errors);
      case _ => SmallStepsKeepPreparation(s.mail);
    }
  }

  lemma SubmitKeepsPreparation(m: Mail, generation: nat, a: Action)
    ensures Submit(m, generation, a).preparedGeneration == m.preparedGeneration
    ensures Submit(m, generation, a).discarded == m.discarded
  {
  }

  lemma CancelKeepsPreparation(m: Mail, generation: nat)
    ensures CancelRequest(m, generation).preparedGeneration == m.preparedGeneration
    ensures forall g :: g in m.discarded ==> g in CancelRequest(m, generation).discarded
  {
  }

  lemma SmallStepsKeepPreparation(m: Mail)
    ensures Poll(m).0.preparedGeneration == m.preparedGeneration && DropHandle(m).preparedGeneration == m.preparedGeneration
    ensures Poll(m).0.discarded == m.discarded && DropHandle(m).discarded == m.discarded
  {
  }

  lemma TickKeepsPreparation(m: Mail, errors: seq<SessionError>)
    ensures Tick(m, errors).preparedGeneration == m.preparedGeneration && Tick(m, errors).discarded == m.discarded
  {
    ErrorsKeepPreparation(m, errors);
    hide QueueMediaErrors, WithoutTelemetry;
  }

  lemma {:induction false} ErrorsKeepPreparation(m: Mail, errors: seq<SessionError>)
    ensures var q := QueueMediaErrors(m, errors); q.preparedGeneration == m.preparedGeneration && q.discarded == m.discarded
    decreases |errors|
  {
    if errors != [] && m.outstanding < CAPACITY {
      if errors[0].unreported {
        ErrorsKeepPreparation(m.(events := m.events + [Event(0, MediaFailed(errors[0].session))], outstanding := m.outstanding + 1),
                              errors[1..]);
      } else {
        ErrorsKeepPreparation(m, errors[1..]);
      }
    }
  }

  lemma {:induction false} RunNamed(s: System, steps: seq<Step>)
    requires PreparationNamed(s) && Possible(s, steps)
    ensures PreparationNamed(Run(s, steps))
    decreases |steps|
  {
    hide PreparationNamed, Next, Enabled;
    if steps != [] {
      StepNamed(s, steps[0]);
      RunNamed(Next(s, steps[0]), steps[1..]);
    }
  }

  lemma StepKeepsDiscard(s: System, step: Step, g: nat)
    requires g in s.mail.discarded && Enabled(s, step) && !step.WorkerDequeue?
    ensures g in Next(s, step).mail.discarded
  {
    hide Submit, CancelRequest, Poll, DropHandle, Tick;
    match step {
      case UiSubmit(generation, a) => SubmitKeepsPreparation(s.mail, generation, a);
      case UiCancel(generation) => CancelKeepsPreparation(s.mail, generation);
      case WorkerTick(errors) => TickKeepsPreparation(s.mail, errors);
      case _ => SmallStepsKeepPreparation(s.mail);
    }
  }

  lemma {:induction false} RunKeepsDiscard(s: System, steps: seq<Step>, g: nat)
    requires g in s.mail.discarded && Possible(s, steps) && forall i :: 0 <= i < |steps| ==> !steps[i].WorkerDequeue?
    ensures g in Run(s, steps).mail.discarded
    decreases |steps|
  {
    hide Next, Enabled;
    if steps != [] {
      StepKeepsDiscard(s, steps[0], g);
      RunKeepsDiscard(Next(s, steps[0]), steps[1..], g);
    }
  }

  /**
   Over every run: between commands the retained preparation can be cancelled, and a preparation that was
   cancelled, retained or still running, is not retained beyond the next dequeue, whatever happens until then.
   */
  lemma CancelledPreparationGoes(steps: seq<Step>, g: nat, more: seq<Step>)
    requires Possible(Init(), steps) && !Run(Init(), steps).mail.stopped
    requires var s := Run(Init(), steps);
             || (s.prepared == Some(g) && (s.phase.Top? || s.phase.AfterWork?))
             || s.mail.activeGeneration == Some(g)
    requires var cancelled := Next(Run(Init(), steps), UiCancel(g));
             && Possible(cancelled, more) && (forall i :: 0 <= i < |more| ==> !more[i].WorkerDequeue?)
             && Enabled(Run(cancelled, more), WorkerDequeue)
    ensures Next(Run(Next(Run(Init(), steps), UiCancel(g)), more), WorkerDequeue).prepared != Some(g)
  {
    var s := Run(Init(), steps);
    assert Enabled(s, UiCancel(g));
    hide *;
    RunNamedFromStart(steps);
    CancelDiscards(s, g);
    RunKeepsDiscard(Next(s, UiCancel(g)), more, g);
    DiscardedGoes(Run(Next(s, UiCancel(g)), more), g);
  }

  lemma RunNamedFromStart(steps: seq<Step>)
    requires Possible(Init(), steps)
    ensures PreparationNamed(Run(Init(), steps))
  {
    RunNamed(Init(), steps);
  }

  lemma CancelDiscards(s: System, g: nat)
    requires PreparationNamed(s) && !s.mail.stopped
    requires (s.prepared == Some(g) && (s.phase.Top? || s.phase.AfterWork?)) || s.mail.activeGeneration == Some(g)
    ensures g in Next(s, UiCancel(g)).mail.discarded
  {
  }

  lemma DiscardedGoes(s: System, g: nat)
    requires g in s.mail.discarded && Enabled(s, WorkerDequeue)
    ensures Next(s, WorkerDequeue).prepared != Some(g)
  {
  }

  /** A preparation that nobody discarded is kept by any dequeue that leaves the account alone. */
  lemma PreparationStays(s: System)
    requires Enabled(s, WorkerDequeue) && (s.prepared.Some? ==> s.prepared.value !in s.mail.discarded)
    requires Next(s, WorkerDequeue).mail.epoch == s.mail.epoch
    ensures Next(s, WorkerDequeue).prepared == s.prepared && Next(s, WorkerDequeue).mail.discarded == []
  {
  }
}
