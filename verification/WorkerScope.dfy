/**
 Account scope over all runs of the worker protocol: flags are only ever set, every retired
 account flag stays set, and while the worker runs a set current account flag means a queued
 command is about to replace it, so cancellation never poisons a scope for good.
 */
module WorkerScope {
  import opened Util
  import opened Mailbox
  import opened WorkerProtocol
  import opened WorkerBudget

  // ----- Who owns a flag -----

  /** Flags of accepted commands. */
  ghost function Issued(log: seq<Request>): set<Flag> { set r | r in log :: r.cancel }

  lemma IssuedAppend(log: seq<Request>, r: Request)
    ensures Issued(log + [r]) == Issued(log) + {r.cancel}
  {
    assert forall q :: q in log + [r] <==> q in log || q == r;
  }

  /** Flags increase in order of acceptance and the next one is unused. */
  ghost predicate LogOrdered(log: seq<Request>, next: Flag) {
    && (forall i, j :: 0 <= i < j < |log| ==> log[i].cancel < log[j].cancel)
    && (forall i :: 0 <= i < |log| ==> log[i].cancel < next)
  }

  /** The queue holds accepted commands in order of acceptance. */
  ghost predicate QueueOrdered(rs: seq<Request>, log: seq<Request>) {
    && (forall i, j :: 0 <= i < j < |rs| ==> rs[i].cancel < rs[j].cancel)
    && (forall i :: 0 <= i < |rs| ==> rs[i] in log)
  }

  /** Every request of a queue carries a later flag. */
  ghost predicate Before(f: Flag, rs: seq<Request>) {
    forall i :: 0 <= i < |rs| ==> f < rs[i].cancel
  }

  ghost predicate JobOrdered(s: System) {
    s.phase.Busy? ==>
      && s.phase.job.request in s.log
      && s.phase.job.account in s.accounts
      && s.mail.active == Some(s.phase.job.request.cancel)
      && Before(s.phase.job.request.cancel, s.mail.requests)
  }

  ghost predicate FlagsOwned(s: System) {
    && (forall f: Flag :: f in s.mail.cancelled ==> f < s.mail.nextFlag)
    && Flags(s.mail.pipeline) <= Issued(s.log)
    && Flags(s.mail.metadataPipeline) <= Issued(s.log)
    && (s.mail.active.Some? ==> s.mail.active.value in Issued(s.log))
  }

  ghost predicate Ordered(s: System) {
    LogOrdered(s.log, s.mail.nextFlag) && QueueOrdered(s.mail.requests, s.log) && JobOrdered(s) && FlagsOwned(s)
  }

  lemma IssuedIsOld(s: System, f: Flag)
    requires LogOrdered(s.log, s.mail.nextFlag) && f in Issued(s.log)
    ensures f < s.mail.nextFlag
  {
  }

  // ----- Account flags -----

  /** A published account flag is no command's flag, and unless it is the current one it is set. */
  ghost predicate AccountOk(s: System, a: Flag) {
    a < s.mail.nextFlag && a !in Issued(s.log) && (a == s.mail.account || a in s.mail.cancelled)
  }

  ghost predicate AccountsRetired(s: System) {
    && s.mail.account in s.accounts
    && (forall a: Flag :: a in s.accounts ==> AccountOk(s, a))
  }

  /** Some queued command will rotate the account when it is dequeued. */
  ghost predicate RotationQueued(rs: seq<Request>, scope: Option<Provider>) {
    exists r :: r in rs && InvalidatesAccount(r.action, scope)
  }

  /** While the worker runs, a set current account flag means a queued command will replace it. */
  ghost predicate NotStuck(s: System) {
    !s.mail.stopped && s.mail.account in s.mail.cancelled ==> RotationQueued(s.mail.requests, s.mail.scope)
  }

  ghost predicate ScopeInv(s: System) {
    Ordered(s) && AccountsRetired(s) && NotStuck(s)
  }

  lemma InitScope()
    ensures ScopeInv(Init())
  {
  }

  // ----- Submission -----

  /** What submission leaves alone, and how the rest grows. */
  lemma SubmitShape(m: Mail, generation: nat, a: Action)
    requires Accepts(m)
    ensures var n, t := Supersede(Revoke(m, a), a), Submit(m, generation, a);
            && t.account == m.account && t.scope == m.scope && t.active == m.active && t.stopped == m.stopped
            && t.nextFlag == m.nextFlag + 1
            && t.requests == n.requests + [NewRequest(Revoke(m, a), generation, a)]
            && t.cancelled == n.cancelled
            && NewRequest(Revoke(m, a), generation, a).cancel == m.nextFlag
            && Flags(t.pipeline) <= Flags(m.pipeline) + {m.nextFlag}
            && Flags(t.metadataPipeline) <= Flags(m.metadataPipeline) + {m.nextFlag}
  {
  }

  lemma LogAppend(log: seq<Request>, r: Request, next: Flag)
    requires LogOrdered(log, next) && r.cancel == next
    ensures LogOrdered(log + [r], next + 1)
  {
  }

  lemma QueueAppend(rs: seq<Request>, log: seq<Request>, r: Request)
    requires QueueOrdered(rs, log) && LogOrdered(log, r.cancel)
    ensures QueueOrdered(rs + [r], log + [r])
  {
    assert r in log + [r];
    forall i | 0 <= i < |rs| ensures rs[i].cancel < r.cancel && rs[i] in log + [r] {
      var k :| 0 <= k < |log| && log[k] == rs[i];
    }
  }

  lemma QueueRemove(rs: seq<Request>, log: seq<Request>, i: nat)
    requires i < |rs| && QueueOrdered(rs, log)
    ensures QueueOrdered(RemoveAt(rs, i), log)
    ensures forall r :: r in RemoveAt(rs, i) ==> r in rs
    ensures forall r :: r in rs && r != rs[i] ==> r in RemoveAt(rs, i)
  {
    var left := RemoveAt(rs, i);
    assert forall k :: 0 <= k < |left| ==> left[k] == rs[if k < i then k else k + 1];
    forall r | r in rs && r != rs[i] ensures r in left {
      var k :| 0 <= k < |rs| && rs[k] == r;
      assert left[if k < i then k else k - 1] == r;
    }
  }

  /** Superseding removes only a request that rotates no account, and keeps the rest in order. */
  lemma SupersedeQueue(m: Mail, a: Action, log: seq<Request>)
    requires QueueOrdered(m.requests, log)
    ensures var n := Supersede(m, a);
            && QueueOrdered(n.requests, log)
            && (forall r :: r in n.requests ==> r in m.requests)
            && (RotationQueued(m.requests, m.scope) ==> RotationQueued(n.requests, m.scope))
            && n.cancelled <= m.cancelled + Issued(log)
  {
    if Family(a).Some? && FindFamily(m.requests, Family(a).value).Some? {
      var i := FindFamily(m.requests, Family(a).value).value;
      QueueRemove(m.requests, log, i);
      assert m.requests[i] in log;
      if RotationQueued(m.requests, m.scope) {
        var r :| r in m.requests && InvalidatesAccount(r.action, m.scope);
        assert r != m.requests[i];
      }
    }
  }

  /** What an accepted command cancels: command flags, and the account flag only if it invalidates the scope. */
  lemma SubmitCancels(s: System, a: Action)
    requires ScopeInv(s)
    ensures Supersede(Revoke(s.mail, a), a).cancelled
         <= s.mail.cancelled + Issued(s.log) + (if InvalidatesAccount(a, s.mail.scope) then {s.mail.account} else {})
  {
    SupersedeQueue(Revoke(s.mail, a), a, s.log);
  }

  lemma SubmitFlags(s: System, generation: nat, a: Action)
    requires ScopeInv(s) && Accepts(s.mail)
    ensures FlagsOwned(DoSubmit(s, generation, a))
  {
    var t := DoSubmit(s, generation, a);
    SubmitShape(s.mail, generation, a);
    SubmitCancels(s, a);
    IssuedAppend(s.log, NewRequest(Revoke(s.mail, a), generation, a));
    hide Submit, Supersede, Revoke, Issued, Flags, QueueOrdered, JobOrdered, NotStuck;
    forall f: Flag | f in t.mail.cancelled ensures f < t.mail.nextFlag {
      if f in Issued(s.log) {
        IssuedIsOld(s, f);
      }
    }
  }

  lemma SubmitJob(s: System, generation: nat, a: Action)
    requires ScopeInv(s) && Accepts(s.mail)
    ensures JobOrdered(DoSubmit(s, generation, a))
  {
    if s.phase.Busy? {
      var t := DoSubmit(s, generation, a);
      var n := Supersede(Revoke(s.mail, a), a);
      var job := s.phase.job.request;
      SubmitShape(s.mail, generation, a);
      SupersedeQueue(Revoke(s.mail, a), a, s.log);
      hide Submit, Supersede, Revoke, FlagsOwned, AccountsRetired, NotStuck, QueueOrdered;
      assert job in t.log;
      assert job.cancel < s.mail.nextFlag;
      forall i | 0 <= i < |t.mail.requests| ensures job.cancel < t.mail.requests[i].cancel {
        if i < |n.requests| {
          assert n.requests[i] in s.mail.requests;
        }
      }
    }
  }

  lemma SubmitOrdered(s: System, generation: nat, a: Action)
    requires ScopeInv(s) && Accepts(s.mail)
    ensures Ordered(DoSubmit(s, generation, a))
  {
    var m := Revoke(s.mail, a);
    var r := NewRequest(m, generation, a);
    SubmitShape(s.mail, generation, a);
    SupersedeQueue(m, a, s.log);
    LogAppend(s.log, r, s.mail.nextFlag);
    QueueAppend(Supersede(m, a).requests, s.log, r);
    SubmitFlags(s, generation, a);
    SubmitJob(s, generation, a);
    hide Submit, Supersede, Revoke, FlagsOwned, JobOrdered, AccountsRetired, NotStuck, QueueOrdered, LogOrdered;
  }

  lemma SubmitScope(s: System, generation: nat, a: Action)
    requires ScopeInv(s)
    ensures ScopeInv(DoSubmit(s, generation, a))
  {
    if Accepts(s.mail) {
      var t := DoSubmit(s, generation, a);
      var n := Supersede(Revoke(s.mail, a), a);
      var r := NewRequest(Revoke(s.mail, a), generation, a);
      SubmitOrdered(s, generation, a);
      SubmitShape(s.mail, generation, a);
      SubmitCancels(s, a);
      SupersedeQueue(Revoke(s.mail, a), a, s.log);
      IssuedAppend(s.log, r);
      assert s.mail.cancelled <= n.cancelled;
      hide Submit, Supersede, Revoke, Issued, LogOrdered, QueueOrdered, JobOrdered;
      assert AccountsRetired(t);
      assert r in t.mail.requests;
      assert forall q :: q in n.requests ==> q in t.mail.requests;
    }
  }

  // ----- The other steps of the UI -----

  lemma {:induction false} CancelsAreIssued(rs: seq<Request>, log: seq<Request>, generation: nat)
    requires forall i :: 0 <= i < |rs| ==> rs[i] in log
    ensures CancelsOf(rs, generation) <= Issued(log)
  {
    if rs != [] {
      CancelsAreIssued(rs[1..], log, generation);
    }
  }

  /** Setting command flags, and any flag once the worker is told to stop, keeps the invariant. */
  lemma CancelMore(s: System, t: System)
    requires ScopeInv(s)
    requires t.log == s.log && t.accounts == s.accounts
    requires || (t.phase == s.phase && t.mail.requests == s.mail.requests && t.mail.active == s.mail.active)
             || (!t.phase.Busy? && t.mail.requests == [] && t.mail.active == None)
    requires t.mail.account == s.mail.account && t.mail.scope == s.mail.scope && t.mail.nextFlag == s.mail.nextFlag
    requires Flags(t.mail.pipeline) <= Flags(s.mail.pipeline)
    requires Flags(t.mail.metadataPipeline) <= Flags(s.mail.metadataPipeline)
    requires s.mail.cancelled <= t.mail.cancelled <= s.mail.cancelled + Issued(s.log) + {s.mail.account}
    requires t.mail.stopped || (!s.mail.stopped && t.mail.cancelled <= s.mail.cancelled + Issued(s.log)
                                && t.mail.requests == s.mail.requests)
    ensures ScopeInv(t)
  {
    forall f: Flag | f in t.mail.cancelled ensures f < t.mail.nextFlag {
      if f in Issued(s.log) {
        IssuedIsOld(s, f);
      }
    }
  }

  lemma CancelScope(s: System, generation: nat)
    requires ScopeInv(s)
    ensures ScopeInv(WithMail(s, CancelRequest(s.mail, generation)))
  {
    if Cancellable(s.mail, generation) {
      CancelsAreIssued(s.mail.requests, s.log, generation);
      CancelMore(s, WithMail(s, CancelRequest(s.mail, generation)));
    }
  }

  lemma ShutdownScope(s: System, step: Step)
    requires ScopeInv(s) && Enabled(s, step) && (step.UiDrop? || step.WorkerExit?)
    ensures ScopeInv(Next(s, step))
  {
    CancelMore(s, Next(s, step));
  }

  lemma PollScope(s: System)
    requires ScopeInv(s)
    ensures ScopeInv(DoPoll(s))
  {
  }

  // ----- The steps of the worker -----

  lemma RotateScope(s: System, m: Mail, provider: Option<Provider>)
    requires Ordered(s.(mail := m)) && AccountsRetired(s.(mail := m))
    ensures ScopeInv(WithMail(s, RotateAccount(m, provider)))
    ensures m.nextFlag !in WithMail(s, RotateAccount(m, provider)).mail.cancelled
  {
    var t := WithMail(s, RotateAccount(m, provider));
    if m.nextFlag in Issued(s.log) {
      IssuedIsOld(s.(mail := m), m.nextFlag);
    }
    assert Ordered(t);
    assert AccountsRetired(t);
  }

  lemma ReconcileScope(s: System, effective: Provider)
    requires ScopeInv(s)
    ensures ScopeInv(WithMail(s, ReconcileAccount(s.mail, effective)))
  {
    if s.mail.scope != Some(effective) {
      RotateScope(s, s.mail, Some(effective));
    }
  }

  /** The mailbox after the oldest request was taken and before its account action. */
  function Taken(m: Mail, prepared: Option<nat>): Mail
    requires m.requests != []
  {
    m.(discarded := [], preparedGeneration := Retained(m, prepared), requests := m.requests[1..],
       active := Some(m.requests[0].cancel), activeGeneration := Some(m.requests[0].generation))
  }

  lemma TakenScope(s: System)
    requires ScopeInv(s) && !s.phase.Busy? && s.mail.requests != []
    ensures var t := s.(mail := Taken(s.mail, s.prepared));
            && Ordered(t) && AccountsRetired(t) && Before(s.mail.requests[0].cancel, t.mail.requests)
            && (NotStuck(t) || InvalidatesAccount(s.mail.requests[0].action, s.mail.scope))
  {
    var t := s.(mail := Taken(s.mail, s.prepared));
    var r := s.mail.requests[0];
    assert r in s.log;
    assert r.cancel in Issued(s.log);
    if RotationQueued(s.mail.requests, s.mail.scope) && !InvalidatesAccount(r.action, s.mail.scope) {
      var q :| q in s.mail.requests && InvalidatesAccount(q.action, s.mail.scope);
      assert q in t.mail.requests;
    }
  }

  /** A dequeued command that invalidates the scope always leaves an unset account flag behind. */
  lemma DequeueRefreshes(s: System)
    requires ScopeInv(s) && PhaseOk(s) && Enabled(s, WorkerDequeue) && s.mail.requests != []
    ensures ScopeInv(DoDequeue(s))
    ensures InvalidatesAccount(s.mail.requests[0].action, s.mail.scope) ==>
              var t := DoDequeue(s);
              && t.mail.account != s.mail.account && t.mail.account !in t.mail.cancelled
              && s.mail.account in t.mail.cancelled && t.mail.epoch == s.mail.epoch + 1
  {
    var r := s.mail.requests[0];
    var u := s.(mail := Taken(s.mail, s.prepared));
    TakenScope(s);
    var t := DoDequeue(s);
    if InvalidatesAccount(r.action, s.mail.scope) {
      var provider := if r.action.SaveSettings? then Some(r.action.debrid) else s.mail.scope;
      RotateScope(s, u.mail, provider);
      assert t.mail == RotateAccount(u.mail, provider);
      DequeuedJob(WithMail(s, t.mail), t, r);
    } else {
      assert t.mail == u.mail;
      DequeuedJob(u, t, r);
    }
  }

  /** Handing the taken request to the worker keeps the invariant. */
  lemma DequeuedJob(u: System, t: System, r: Request)
    requires ScopeInv(u) && !u.phase.Busy?
    requires t.mail == u.mail && t.log == u.log && t.accounts == u.accounts
    requires t.phase.Busy? && t.phase.job.request == r && t.phase.job.account == u.mail.account
    requires r in u.log && u.mail.active == Some(r.cancel) && Before(r.cancel, u.mail.requests)
    ensures ScopeInv(t)
  {
  }

  lemma IdleScope(s: System)
    requires ScopeInv(s) && PhaseOk(s) && Enabled(s, WorkerDequeue) && s.mail.requests == []
    ensures ScopeInv(DoDequeue(s))
  {
  }

  /** Moving the running command to another stage keeps the invariant. */
  lemma StageScope(u: System, t: System)
    requires ScopeInv(u) && u.phase.Busy? && t.phase.Busy?
    requires t.mail == u.mail && t.log == u.log && t.accounts == u.accounts
    requires t.phase.job.request == u.phase.job.request && t.phase.job.account in u.accounts
    ensures ScopeInv(t)
  {
  }

  lemma PreflightScope(s: System, preload: Preload)
    requires ScopeInv(s) && Enabled(s, WorkerPreflight(preload))
    ensures ScopeInv(DoPreflight(s, preload))
  {
    if preload.Loaded? {
      ReconcileScope(s, preload.provider);
      var u := WithMail(s, ReconcileAccount(s.mail, preload.provider));
      assert u.mail.account in u.accounts && u.phase == s.phase;
      hide ReconcileAccount, ScopeInv;
      StageScope(u, DoPreflight(s, preload));
    } else {
      StageScope(s, DoPreflight(s, preload));
    }
  }

  lemma SettleScope(s: System)
    requires ScopeInv(s) && Enabled(s, WorkerSettle)
    ensures ScopeInv(DoSettle(s))
  {
    if s.settings.Some? {
      ReconcileScope(s, s.settings.value);
    }
  }

  lemma {:induction false} WithoutFlags(fs: seq<Flag>, f: Flag)
    ensures Flags(Without(fs, f)) == Flags(fs) - {f}
  {
    if fs != [] {
      WithoutFlags(fs[1..], f);
      assert Flags(fs) == {fs[0]} + Flags(fs[1..]);
      assert fs[0] != f ==> Flags(Without(fs, f)) == {fs[0]} + Flags(Without(fs[1..], f));
    }
  }

  lemma PublishScope(s: System)
    requires ScopeInv(s) && Enabled(s, WorkerPublish)
    ensures ScopeInv(DoPublish(s))
  {
    WithoutFlags(s.mail.pipeline, s.phase.job.request.cancel);
    WithoutFlags(s.mail.metadataPipeline, s.phase.job.request.cancel);
  }

  lemma EmitScope(s: System)
    requires ScopeInv(s) && Enabled(s, WorkerEmit)
    ensures ScopeInv(DoEmit(s))
  {
  }

  lemma {:induction false} MediaErrorsFrame(m: Mail, errors: seq<SessionError>)
    ensures var q := QueueMediaErrors(m, errors); q == m.(events := q.events, outstanding := q.outstanding)
    decreases |errors|
  {
    if errors != [] && m.outstanding < CAPACITY {
      if errors[0].unreported {
        var e := Event(0, MediaFailed(errors[0].session));
        MediaErrorsFrame(m.(events := m.events + [e], outstanding := m.outstanding + 1), errors[1..]);
      } else {
        MediaErrorsFrame(m, errors[1..]);
      }
    }
  }

  lemma TickScope(s: System, errors: seq<SessionError>)
    requires ScopeInv(s) && Enabled(s, WorkerTick(errors))
    ensures ScopeInv(Next(s, WorkerTick(errors)))
  {
    MediaErrorsFrame(s.mail, errors);
  }

  lemma LocalScope(s: System, step: Step)
    requires ScopeInv(s) && Enabled(s, step) && (step.WorkerExecute? || step.WorkerCheck? || step.WorkerRest?)
    ensures ScopeInv(Next(s, step))
  {
  }

  lemma StepScope(s: System, step: Step)
    requires ScopeInv(s) && PhaseOk(s) && Enabled(s, step)
    ensures ScopeInv(Next(s, step))
  {
    hide ScopeInv;
    match step {
      case UiSubmit(generation, a) => SubmitScope(s, generation, a);
      case UiCancel(generation) => CancelScope(s, generation);
      case UiPoll => PollScope(s);
      case UiDrop => ShutdownScope(s, step);
      case WorkerDequeue =>
        if s.mail.requests == [] { IdleScope(s); } else { DequeueRefreshes(s); }
      case WorkerEmit => EmitScope(s);
      case WorkerPreflight(preload) => PreflightScope(s, preload);
      case WorkerSettle => SettleScope(s);
      case WorkerPublish => PublishScope(s);
      case WorkerTick(errors) => TickScope(s, errors);
      case WorkerExit => ShutdownScope(s, step);
      case _ => LocalScope(s, step);
    }
  }

  // ----- Flags are only ever set -----

  lemma StepFlagsMonotone(s: System, step: Step)
    requires Enabled(s, step)
    ensures s.mail.cancelled <= Next(s, step).mail.cancelled
    ensures s.accounts <= Next(s, step).accounts
  {
    if step.WorkerTick? {
      MediaErrorsFrame(s.mail, step.errors);
    }
  }
}
