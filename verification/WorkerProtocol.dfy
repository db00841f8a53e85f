/**
 The UI and the application worker as one step system over the mailbox. Each step is one
 lock-held section or one worker-local action; steps of the two sides interleave freely, and
 the worker may exit between any two of its sections. Results of execution are arbitrary.
 */
module WorkerProtocol {
  import opened Util
  import opened Mailbox

  /** The command the worker holds, the account flag it runs under, and whether it has announced an invalidation. */
  datatype Job = Job(request: Request, account: Flag, invalidated: bool)

  datatype Stage =
    | EmitFirst
    | Preflight
    | EmitSecond
    | Execute
    | Settle(result: Outcome)
    | EmitThird(result: Outcome)
    | Check(result: Outcome)
    | Finish(result: Outcome)

  datatype Phase = Top | Busy(job: Job, stage: Stage) | AfterWork | Exited

  /** `log`, `delivered` and `accounts` only record history: accepted requests, polled events, published account flags. */
  datatype System = System(
    mail: Mail,
    phase: Phase,
    prepared: Option<nat>,
    settings: Option<Provider>,
    log: seq<Request>,
    delivered: seq<Event>,
    accounts: set<Flag>)

  /** The preflight of a preparation before settings are known. */
  datatype Preload = Skipped | LoadFailed | Loaded(provider: Provider)

  datatype Step =
    | UiSubmit(generation: nat, action: Action)
    | UiCancel(generation: nat)
    | UiPoll
    | UiDrop
    | WorkerDequeue
    | WorkerEmit
    | WorkerPreflight(preload: Preload)
    | WorkerExecute(result: Outcome, settings: Option<Provider>, prepared: Option<nat>)
    | WorkerSettle
    | WorkerCheck
    | WorkerPublish
    | WorkerTick(errors: seq<SessionError>)
    | WorkerRest
    | WorkerExit

  function Init(): System {
    System(NewMail(), Top, None, None, [], [], {NewMail().account})
  }

  ghost predicate Enabled(s: System, step: Step) {
    match step
    case UiSubmit(_, _) => true
    case UiCancel(_) => true
    case UiPoll => true
    case UiDrop => true
    case WorkerDequeue => s.phase.Top? && !s.mail.stopped
    case WorkerEmit => s.phase.Busy? && (s.phase.stage.EmitFirst? || s.phase.stage.EmitSecond? || s.phase.stage.EmitThird?)
    case WorkerPreflight(preload) =>
      s.phase.Busy? && s.phase.stage.Preflight?
      // The flag is read before the section, so a skip is also possible when it was set by then.
      && (if s.phase.job.request.action.Prepare? && s.settings.None?
          then preload.Skipped? ==> s.phase.job.request.cancel in s.mail.cancelled
          else preload.Skipped?)
    case WorkerExecute(result, settings, prepared) =>
      s.phase.Busy? && s.phase.stage.Execute? && Terminal(result)
      && (prepared.Some? ==> prepared == s.prepared
                             || (result.Prepared? && prepared == Some(s.phase.job.request.generation)))
    case WorkerSettle => s.phase.Busy? && s.phase.stage.Settle?
    case WorkerCheck => s.phase.Busy? && s.phase.stage.Check?
    case WorkerPublish => s.phase.Busy? && s.phase.stage.Finish? && !s.mail.stopped
    case WorkerTick(_) => s.phase.AfterWork? && !s.mail.stopped
    case WorkerRest => s.phase.AfterWork?
    case WorkerExit => !s.phase.Exited?
  }

  // ----- Steps -----

  /** Installs a new mailbox and records the account flag it publishes. */
  function WithMail(s: System, m: Mail): System {
    s.(mail := m, accounts := s.accounts + {m.account})
  }

  function DoSubmit(s: System, generation: nat, a: Action): System {
    if Accepts(s.mail)
    then WithMail(s, Submit(s.mail, generation, a)).(log := s.log + [NewRequest(Revoke(s.mail, a), generation, a)])
    else s
  }

  function DoPoll(s: System): System {
    var (m, e) := Poll(s.mail);
    WithMail(s, m).(delivered := if e.Some? then s.delivered + [e.value] else s.delivered)
  }

  function DoDequeue(s: System): System {
    var m := Dequeue(s.mail, s.prepared);
    var kept := WithMail(s, m).(prepared := Retained(s.mail, s.prepared));
    if s.mail.requests == [] then kept.(phase := AfterWork)
    else
      var r := s.mail.requests[0];
      if InvalidatesAccount(r.action, s.mail.scope)
      then kept.(prepared := None, phase := Busy(Job(r, m.account, true), EmitFirst))
      else kept.(phase := Busy(Job(r, m.account, false), Preflight))
  }

  function DoEmit(s: System): System
    requires s.phase.Busy?
  {
    var next := match s.phase.stage
                case EmitFirst => Preflight
                case EmitSecond => Execute
                case EmitThird(result) => Check(result)
                case other => other;
    WithMail(s, EmitInvalidation(s.mail)).(phase := Busy(s.phase.job, next))
  }

  function DoPreflight(s: System, preload: Preload): System
    requires s.phase.Busy?
  {
    match preload
    case Skipped => s.(phase := Busy(s.phase.job, Execute))
    case LoadFailed => s.(phase := Busy(s.phase.job, Settle(Failed)))
    case Loaded(provider) =>
      var m := ReconcileAccount(s.mail, provider);
      var loaded := WithMail(s, m).(settings := Some(provider));
      if ScopeChanges(s.mail, provider)
      then loaded.(prepared := None, phase := Busy(s.phase.job.(account := m.account, invalidated := true), EmitSecond))
      else loaded.(phase := Busy(s.phase.job.(account := m.account), Execute))
  }

  function DoExecute(s: System, result: Outcome, settings: Option<Provider>, prepared: Option<nat>): System
    requires s.phase.Busy?
  {
    s.(phase := Busy(s.phase.job, Settle(result)), settings := settings, prepared := prepared)
  }

  /** The scope follows the settings left by the command, whether it succeeded or failed; a second change is not announced. */
  function DoSettle(s: System): System
    requires s.phase.Busy? && s.phase.stage.Settle?
  {
    var job, result := s.phase.job, s.phase.stage.result;
    if s.settings.None? then s.(phase := Busy(job, Check(result)))
    else
      var settled := WithMail(s, ReconcileAccount(s.mail, s.settings.value));
      if ScopeChanges(s.mail, s.settings.value) && !job.invalidated
      then settled.(prepared := None, phase := Busy(job.(invalidated := true), EmitThird(result)))
      else settled.(phase := Busy(job, Check(result)))
  }

  /** A success whose flag is set by now turns into a failure, and its preparation is not kept. */
  function DoCheck(s: System): System
    requires s.phase.Busy? && s.phase.stage.Check?
  {
    var job, result := s.phase.job, s.phase.stage.result;
    if result.Prepared? && job.request.cancel in s.mail.cancelled
    then s.(prepared := None, phase := Busy(job, Finish(Failed)))
    else s.(phase := Busy(job, Finish(result)))
  }

  function DoPublish(s: System): System
    requires s.phase.Busy? && s.phase.stage.Finish?
  {
    WithMail(s, Publish(s.mail, s.phase.job.request, s.phase.stage.result, s.prepared)).(phase := AfterWork)
  }

  function Next(s: System, step: Step): System
    requires Enabled(s, step)
  {
    match step
    case UiSubmit(generation, a) => DoSubmit(s, generation, a)
    case UiCancel(generation) => WithMail(s, CancelRequest(s.mail, generation))
    case UiPoll => DoPoll(s)
    case UiDrop => WithMail(s, DropHandle(s.mail))
    case WorkerDequeue => DoDequeue(s)
    case WorkerEmit => DoEmit(s)
    case WorkerPreflight(preload) => DoPreflight(s, preload)
    case WorkerExecute(result, settings, prepared) => DoExecute(s, result, settings, prepared)
    case WorkerSettle => DoSettle(s)
    case WorkerCheck => DoCheck(s)
    case WorkerPublish => DoPublish(s)
    case WorkerTick(errors) => WithMail(s, Tick(s.mail, errors)).(phase := Top)
    case WorkerRest => s.(phase := Top)
    case WorkerExit => WithMail(s, CloseOnExit(s.mail)).(phase := Exited)
  }

  ghost predicate Possible(s: System, steps: seq<Step>)
    decreases |steps|
  {
    steps != [] ==> Enabled(s, steps[0]) && Possible(Next(s, steps[0]), steps[1..])
  }

  function Run(s: System, steps: seq<Step>): System
    requires Possible(s, steps)
    decreases |steps|
  {
    if steps == [] then s else Run(Next(s, steps[0]), steps[1..])
  }
}
