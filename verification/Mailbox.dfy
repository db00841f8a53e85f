/**
 The mailbox the UI and the one application worker share. Every function here is one
 lock-held section. Cancellation flags are identities: a flag is set when it is in `cancelled`,
 and a new flag is the next unused identity.
 */
module Mailbox {
  import opened Util

  const CAPACITY: nat := 24

  datatype Provider = RealDebrid | AllDebrid

  datatype Action =
    | LoadSettings
    | SaveSettings(debrid: Provider)
    | SetCredential(set_: Provider)
    | DeleteCredential(deleted: Provider)
    | TestCredential(tested: Provider)
    | SetTmdbCredential
    | DeleteTmdbCredential
    | TestTmdbCredential
    | Prepare
    | PlayFile(preparation: nat)
    | PlayLocal
    | ReleaseSession(session: nat)
    | CleanupUnused
    | ReplaySession(replayed: nat)
    | RevealSession(revealed: nat)

  type Flag = nat

  /** Credential revisions, one counter per provider. */
  datatype Revisions = Revisions(realDebrid: nat, allDebrid: nat) {
    function Of(p: Provider): nat { if p.RealDebrid? then realDebrid else allDebrid }

    function Bump(p: Provider): Revisions {
      if p.RealDebrid? then Revisions(realDebrid + 1, allDebrid) else Revisions(realDebrid, allDebrid + 1)
    }
  }

  datatype Request = Request(generation: nat, action: Action, cancel: Flag, revisions: Revisions)

  /** Outcomes as far as the mailbox can tell them apart; `Done` is any other terminal outcome. */
  datatype Outcome = Failed | Prepared | Done | MediaFailed(failing: nat) | Invalidated | Usage | SessionUpdates

  datatype Event = Event(generation: nat, outcome: Outcome)

  datatype Mail = Mail(
    requests: seq<Request>,
    events: seq<Event>,
    outstanding: int,
    stopped: bool,
    pipeline: seq<Flag>,
    metadataPipeline: seq<Flag>,
    account: Flag,
    active: Option<Flag>,
    activeGeneration: Option<nat>,
    discarded: seq<nat>,
    preparedGeneration: Option<nat>,
    scope: Option<Provider>,
    epoch: nat,
    revisions: Revisions,
    cancelled: set<Flag>,
    nextFlag: Flag)

  // ----- Classification of actions and outcomes -----

  predicate ConsumesBudget(o: Outcome) { !o.Usage? && !o.SessionUpdates? && !o.Invalidated? }

  predicate Telemetry(o: Outcome) { o.Usage? || o.SessionUpdates? }

  /** Outcomes that answer a command. */
  predicate Terminal(o: Outcome) { o.Failed? || o.Prepared? || o.Done? }

  function Family(a: Action): Option<nat> {
    match a
    case LoadSettings => Some(0)
    case Prepare => Some(1)
    case PlayFile(_) => Some(2)
    case PlayLocal => Some(2)
    case TestCredential(p) => Some(if p.RealDebrid? then 3 else 4)
    case TestTmdbCredential => Some(5)
    case _ => None
  }

  predicate Pipeline(a: Action) { a.Prepare? || a.PlayFile? || a.PlayLocal? || a.TestCredential? }

  predicate MetadataAction(a: Action) { a.SetTmdbCredential? || a.DeleteTmdbCredential? || a.TestTmdbCredential? }

  function CredentialMutation(a: Action): Option<Provider> {
    match a
    case SetCredential(p) => Some(p)
    case DeleteCredential(p) => Some(p)
    case _ => None
  }

  predicate InvalidatesAccount(a: Action, scope: Option<Provider>) {
    match a
    case SaveSettings(p) => Some(p) != scope
    case SetCredential(p) => Some(p) == scope
    case DeleteCredential(p) => Some(p) == scope
    case _ => false
  }

  // ----- UI sections -----

  function NewMail(): Mail {
    Mail([], [], 0, false, [], [], 0, None, None, [], None, None, 0, Revisions(0, 0), {}, 1)
  }

  function Flags(fs: seq<Flag>): set<Flag> { set f | f in fs }

  predicate Accepts(m: Mail) { !m.stopped && m.outstanding < CAPACITY }

  predicate DrainsPipeline(m: Mail, a: Action) {
    Pipeline(a) || InvalidatesAccount(a, m.scope) || a.SaveSettings?
  }

  /** Revision bump and cancellations that an accepted command causes before it is queued. */
  function Revoke(m: Mail, a: Action): Mail {
    m.(revisions := match CredentialMutation(a) case Some(p) => m.revisions.Bump(p) case None => m.revisions,
       cancelled := m.cancelled
                    + (if InvalidatesAccount(a, m.scope) then {m.account} else {})
                    + (if DrainsPipeline(m, a) then Flags(m.pipeline) else {})
                    + (if MetadataAction(a) then Flags(m.metadataPipeline) else {}),
       pipeline := if DrainsPipeline(m, a) then [] else m.pipeline,
       metadataPipeline := if MetadataAction(a) then [] else m.metadataPipeline)
  }

  /** Index of the first queued request of a family. */
  function FindFamily(rs: seq<Request>, family: nat): (r: Option<nat>)
    ensures r.Some? ==> r.value < |rs| && Family(rs[r.value].action) == Some(family)
    ensures r.None? ==> forall i :: 0 <= i < |rs| ==> Family(rs[i].action) != Some(family)
  {
    if rs == [] then None
    else if Family(rs[0].action) == Some(family) then Some(0)
    else match FindFamily(rs[1..], family) case Some(i) => Some(i + 1) case None => None
  }

  function RemoveAt<T>(s: seq<T>, i: nat): seq<T>
    requires i < |s|
  {
    s[..i] + s[i + 1..]
  }

  /** A queued request of the same family is cancelled and answered at once. */
  function Supersede(m: Mail, a: Action): Mail {
    match Family(a)
    case None => m
    case Some(family) =>
      match FindFamily(m.requests, family)
      case None => m
      case Some(i) =>
        var victim := m.requests[i];
        m.(requests := RemoveAt(m.requests, i),
           cancelled := m.cancelled + {victim.cancel},
           events := m.events + [Event(victim.generation, Failed)])
  }

  function NewRequest(m: Mail, generation: nat, a: Action): Request {
    Request(generation, a, m.nextFlag, m.revisions)
  }

  function Enqueue(m: Mail, generation: nat, a: Action): Mail {
    m.(pipeline := if Pipeline(a) then m.pipeline + [m.nextFlag] else m.pipeline,
       metadataPipeline := if a.TestTmdbCredential? then m.metadataPipeline + [m.nextFlag] else m.metadataPipeline,
       requests := m.requests + [NewRequest(m, generation, a)],
       outstanding := m.outstanding + 1,
       nextFlag := m.nextFlag + 1)
  }

  /** A refused command changes nothing. */
  function Submit(m: Mail, generation: nat, a: Action): Mail {
    if Accepts(m) then Enqueue(Supersede(Revoke(m, a), a), generation, a) else m
  }

  predicate Queued(m: Mail, generation: nat) {
    exists i :: 0 <= i < |m.requests| && m.requests[i].generation == generation
  }

  predicate Cancellable(m: Mail, generation: nat) {
    !m.stopped
    && (m.activeGeneration == Some(generation) || m.preparedGeneration == Some(generation) || Queued(m, generation))
  }

  function CancelsOf(rs: seq<Request>, generation: nat): set<Flag> {
    if rs == [] then {}
    else (if rs[0].generation == generation then {rs[0].cancel} else {}) + CancelsOf(rs[1..], generation)
  }

  function CancelRequest(m: Mail, generation: nat): Mail {
    if !Cancellable(m, generation) then m
    else
      m.(cancelled := m.cancelled
                      + (if m.activeGeneration == Some(generation) && m.active.Some? then {m.active.value} else {})
                      + CancelsOf(m.requests, generation),
         discarded := if generation in m.discarded then m.discarded else m.discarded + [generation])
  }

  function Poll(m: Mail): (Mail, Option<Event>) {
    if m.events == [] then (m, None)
    else
      var e := m.events[0];
      (m.(events := m.events[1..],
          outstanding := if ConsumesBudget(e.outcome) then m.outstanding - 1 else m.outstanding),
       Some(e))
  }

  function ActiveFlag(m: Mail): set<Flag> { if m.active.Some? then {m.active.value} else {} }

  /** The UI lets go: what is current is cancelled and nothing is accepted any more, but no event is added. */
  function DropHandle(m: Mail): Mail {
    m.(stopped := true,
       cancelled := m.cancelled + {m.account} + ActiveFlag(m) + Flags(m.pipeline) + Flags(m.metadataPipeline),
       pipeline := [], metadataPipeline := [])
  }

  // ----- Worker sections -----

  function FailedEvents(rs: seq<Request>): seq<Event> {
    if rs == [] then [] else [Event(rs[0].generation, Failed)] + FailedEvents(rs[1..])
  }

  function CancelFlags(rs: seq<Request>): set<Flag> { set r | r in rs :: r.cancel }

  /** Nothing stays running or queued; each such command is answered as failed, the running one first. */
  function AbandonAll(m: Mail): Mail {
    m.(cancelled := m.cancelled + CancelFlags(m.requests),
       active := None, activeGeneration := None, requests := [],
       events := m.events
                 + (if m.activeGeneration.Some? then [Event(m.activeGeneration.value, Failed)] else [])
                 + FailedEvents(m.requests))
  }

  /** What the worker leaves behind on any exit, including an unwinding panic. */
  function CloseOnExit(m: Mail): Mail { AbandonAll(DropHandle(m)) }

  /** Retire the account flag and publish a fresh one together with its provider. */
  function RotateAccount(m: Mail, provider: Option<Provider>): Mail {
    m.(cancelled := m.cancelled + {m.account}, epoch := m.epoch + 1, scope := provider,
       account := m.nextFlag, nextFlag := m.nextFlag + 1)
  }

  function BeginAccountAction(m: Mail, a: Action): Mail {
    if InvalidatesAccount(a, m.scope)
    then RotateAccount(m, if a.SaveSettings? then Some(a.debrid) else m.scope)
    else m
  }

  function ReconcileAccount(m: Mail, effective: Provider): Mail {
    if m.scope != Some(effective) then RotateAccount(m, Some(effective)) else m
  }

  /** True when reconciliation replaces an already published scope. */
  predicate ScopeChanges(m: Mail, effective: Provider) {
    m.scope.Some? && m.scope != Some(effective)
  }

  /** The preparation that survives the discards requested since the last dequeue. */
  function Retained(m: Mail, prepared: Option<nat>): Option<nat> {
    if prepared.Some? && prepared.value in m.discarded then None else prepared
  }

  /** Takes the oldest request, if any, and makes it active. */
  function Dequeue(m: Mail, prepared: Option<nat>): Mail {
    var kept := m.(discarded := [], preparedGeneration := Retained(m, prepared));
    if m.requests == [] then kept.(active := None, activeGeneration := None)
    else
      var r := m.requests[0];
      BeginAccountAction(kept.(requests := m.requests[1..], active := Some(r.cancel), activeGeneration := Some(r.generation)),
                         r.action)
  }

  function EmitInvalidation(m: Mail): Mail {
    if m.stopped then m else m.(events := m.events + [Event(0, Invalidated)])
  }

  predicate ValidRevision(m: Mail, revisions: Revisions, p: Provider) {
    revisions.Of(p) == m.revisions.Of(p)
  }

  function Without(fs: seq<Flag>, f: Flag): seq<Flag> {
    if fs == [] then []
    else if fs[0] == f then Without(fs[1..], f) else [fs[0]] + Without(fs[1..], f)
  }

  /** The command's one terminal event; the worker is no longer active. */
  function Publish(m: Mail, r: Request, outcome: Outcome, prepared: Option<nat>): Mail {
    m.(active := None, activeGeneration := None, preparedGeneration := prepared,
       pipeline := Without(m.pipeline, r.cancel), metadataPipeline := Without(m.metadataPipeline, r.cancel),
       events := m.events + [Event(r.generation, outcome)])
  }

  /** A session error the media service reports; it is unreported unless seen before or its session is gone. */
  datatype SessionError = SessionError(session: nat, unreported: bool)

  /** Errors are reported while the budget lasts. */
  function QueueMediaErrors(m: Mail, errors: seq<SessionError>): Mail
    decreases |errors|
  {
    if errors == [] || m.outstanding >= CAPACITY then m
    else if !errors[0].unreported then QueueMediaErrors(m, errors[1..])
    else
      QueueMediaErrors(m.(events := m.events + [Event(0, MediaFailed(errors[0].session))], outstanding := m.outstanding + 1),
                       errors[1..])
  }

  function WithoutTelemetry(es: seq<Event>): seq<Event> {
    if es == [] then []
    else if Telemetry(es[0].outcome) then WithoutTelemetry(es[1..]) else [es[0]] + WithoutTelemetry(es[1..])
  }

  /** Older telemetry gives way to the two new events; every other event keeps its place. */
  function Tick(m: Mail, errors: seq<SessionError>): Mail {
    var queued := QueueMediaErrors(m, errors);
    queued.(events := WithoutTelemetry(queued.events) + [Event(0, Usage), Event(0, SessionUpdates)])
  }
}
