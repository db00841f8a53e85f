/**
 Run-wide promises about accepted commands: at most one command of a lane is live and it is the
 latest accepted one, queued reads are coalesced, cancelling reaches exactly its commands, and a
 credential is still the one a request was accepted with exactly when no set or delete for its
 provider was accepted since.
 */
module WorkerPipeline {
  import opened Util
  import opened Mailbox
  import opened WorkerProtocol
  import opened WorkerBudget
  import opened WorkerScope

  // ----- Lanes -----

  /** Two kinds of command of which only the newest may stay live: playback work and the metadata credential test. */
  datatype Lane = Playback | Metadata

  function Slot(m: Mail, lane: Lane): seq<Flag> { if lane.Playback? then m.pipeline else m.metadataPipeline }

  predicate InLane(a: Action, lane: Lane) { if lane.Playback? then Pipeline(a) else a.TestTmdbCredential? }

  /** Commands that always cancel what is live in the lane. */
  predicate Guards(a: Action, lane: Lane) {
    if lane.Playback? then Pipeline(a) || a.SaveSettings? else MetadataAction(a)
  }

  predicate Drains(m: Mail, a: Action, lane: Lane) {
    if lane.Playback? then DrainsPipeline(m, a) else MetadataAction(a)
  }

  /** The flag of the latest accepted command that cancels the lane. */
  function LastGuard(log: seq<Request>, lane: Lane): Option<Flag> {
    if log == [] then None
    else if Guards(log[|log| - 1].action, lane) then Some(log[|log| - 1].cancel)
    else LastGuard(log[..|log| - 1], lane)
  }

  lemma LastGuardAppend(log: seq<Request>, r: Request, lane: Lane)
    ensures LastGuard(log + [r], lane) == if Guards(r.action, lane) then Some(r.cancel) else LastGuard(log, lane)
  {
    assert (log + [r])[..|log|] == log;
  }

  /** A command of the lane that nothing has cancelled. */
  predicate Live(r: Request, m: Mail, lane: Lane) { InLane(r.action, lane) && r.cancel !in m.cancelled }

  /** A live command is the one the slot names. */
  predicate Tracked(r: Request, m: Mail, lane: Lane) { Live(r, m, lane) ==> Slot(m, lane) == [r.cancel] }

  ghost predicate SlotOk(s: System, lane: Lane) {
    var slot := Slot(s.mail, lane);
    slot == [] || (|slot| == 1 && LastGuard(s.log, lane) == Some(slot[0]))
  }

  ghost predicate LaneInv(s: System, lane: Lane) {
    && SlotOk(s, lane)
    && (forall i :: 0 <= i < |s.mail.requests| ==> Tracked(s.mail.requests[i], s.mail, lane))
    && (s.phase.Busy? ==> Tracked(s.phase.job.request, s.mail, lane))
  }

  /** Commands the worker has accepted and not yet answered: queued, or running. */
  ghost predicate Unanswered(s: System, r: Request) {
    r in s.mail.requests || (s.phase.Busy? && r == s.phase.job.request)
  }

  lemma {:induction false} SameFlagSameRequest(log: seq<Request>, next: Flag, q: Request, r: Request)
    requires LogOrdered(log, next) && q in log && r in log && q.cancel == r.cancel
    ensures q == r
  {
    var i :| 0 <= i < |log| && log[i] == q;
    var j :| 0 <= j < |log| && log[j] == r;
    assert i == j;
  }

  /** At most one unanswered command of a lane is live, and no accepted command cancelled the lane after it. */
  lemma LiveCommandIsLatest(s: System, q: Request, lane: Lane)
    requires ScopeInv(s) && LaneInv(s, lane)
    requires Unanswered(s, q) && Live(q, s.mail, lane)
    ensures LastGuard(s.log, lane) == Some(q.cancel)
    ensures forall r :: Unanswered(s, r) && Live(r, s.mail, lane) ==> r == q
  {
    forall r | Unanswered(s, r) && Live(r, s.mail, lane)
      ensures r == q && LastGuard(s.log, lane) == Some(q.cancel)
    {
      assert Tracked(r, s.mail, lane) && Tracked(q, s.mail, lane);
      assert [q.cancel][0] == [r.cancel][0];
      assert r in s.log && q in s.log;
      SameFlagSameRequest(s.log, s.mail.nextFlag, q, r);
    }
  }

  lemma InitLane(lane: Lane)
    ensures LaneInv(Init(), lane)
  {
  }

  /** Draining cancels the slot it empties, so no queued command is left live. */
  lemma RevokeTracks(m: Mail, a: Action, r: Request, lane: Lane)
    requires Tracked(r, m, lane)
    ensures Tracked(r, Revoke(m, a), lane)
    ensures Drains(m, a, lane) ==> !Live(r, Revoke(m, a), lane)
    ensures m.cancelled <= Revoke(m, a).cancelled
  {
    if Drains(m, a, lane) && Live(r, m, lane) {
      assert Slot(m, lane)[0] == r.cancel;
    }
  }

  lemma SubmitTracks(s: System, generation: nat, a: Action, r: Request, lane: Lane)
    requires Accepts(s.mail) && Tracked(r, s.mail, lane)
    ensures Tracked(r, Submit(s.mail, generation, a), lane)
  {
    RevokeTracks(s.mail, a, r, lane);
  }

  lemma SubmitSlot(s: System, generation: nat, a: Action, lane: Lane)
    requires SlotOk(s, lane) && Accepts(s.mail)
    ensures SlotOk(DoSubmit(s, generation, a), lane)
    ensures InLane(a, lane) ==> Slot(DoSubmit(s, generation, a).mail, lane) == [s.mail.nextFlag]
  {
    LastGuardAppend(s.log, NewRequest(Revoke(s.mail, a), generation, a), lane);
  }

  lemma SubmitLane(s: System, generation: nat, a: Action, lane: Lane)
    requires ScopeInv(s) && LaneInv(s, lane)
    ensures LaneInv(DoSubmit(s, generation, a), lane)
  {
    if Accepts(s.mail) {
      var t := DoSubmit(s, generation, a);
      var n := Supersede(Revoke(s.mail, a), a);
      SubmitSlot(s, generation, a, lane);
      SubmitShape(s.mail, generation, a);
      SupersedeQueue(Revoke(s.mail, a), a, s.log);
      hide Submit, Supersede, Revoke, SlotOk, ScopeInv;
      if s.phase.Busy? {
        SubmitTracks(s, generation, a, s.phase.job.request, lane);
      }
      forall i | 0 <= i < |t.mail.requests| ensures Tracked(t.mail.requests[i], t.mail, lane) {
        if i < |n.requests| {
          assert n.requests[i] in s.mail.requests;
          SubmitTracks(s, generation, a, n.requests[i], lane);
        }
      }
    }
  }

  /** Cancelling more, or emptying the slot after cancelling it, keeps every command tracked. */
  lemma CancelTracks(m: Mail, n: Mail, r: Request, lane: Lane)
    requires Tracked(r, m, lane) && m.cancelled <= n.cancelled
    requires Slot(n, lane) == Slot(m, lane) || Flags(Slot(m, lane)) <= n.cancelled
    ensures Tracked(r, n, lane)
  {
    if Live(r, n, lane) {
      assert Slot(m, lane)[0] in Flags(Slot(m, lane));
    }
  }

  lemma KeepsLane(s: System, t: System, lane: Lane)
    requires LaneInv(s, lane) && s.mail.cancelled <= t.mail.cancelled && t.log == s.log
    requires Slot(t.mail, lane) == Slot(s.mail, lane)
             || (Slot(t.mail, lane) == [] && Flags(Slot(s.mail, lane)) <= t.mail.cancelled)
    requires forall i :: 0 <= i < |t.mail.requests| ==> t.mail.requests[i] in s.mail.requests
    requires t.phase.Busy? ==> Unanswered(s, t.phase.job.request)
    ensures LaneInv(t, lane)
  {
    forall r | Unanswered(s, r) ensures Tracked(r, t.mail, lane) {
      CancelTracks(s.mail, t.mail, r, lane);
    }
  }

  lemma {:induction false} WithoutAbsent(fs: seq<Flag>, f: Flag)
    requires f !in fs
    ensures Without(fs, f) == fs
  {
    if fs != [] {
      WithoutAbsent(fs[1..], f);
    }
  }

  /** Answering the running command frees the slot only if it holds that command. */
  lemma PublishLane(s: System, lane: Lane)
    requires ScopeInv(s) && LaneInv(s, lane) && Enabled(s, WorkerPublish)
    ensures LaneInv(DoPublish(s), lane)
  {
    var t := DoPublish(s);
    var f := s.phase.job.request.cancel;
    var slot := Slot(s.mail, lane);
    assert Slot(t.mail, lane) == Without(slot, f);
    if slot == [f] {
      assert Without([f], f) == [] by { assert [f][1..] == []; }
      forall i | 0 <= i < |t.mail.requests| ensures Tracked(t.mail.requests[i], t.mail, lane) {
        assert Tracked(s.mail.requests[i], s.mail, lane);
        assert f < s.mail.requests[i].cancel;
        assert [f][0] == f;
      }
    } else {
      WithoutAbsent(slot, f);
      forall i | 0 <= i < |t.mail.requests| ensures Tracked(t.mail.requests[i], t.mail, lane) {
        assert Tracked(s.mail.requests[i], s.mail, lane);
      }
    }
  }

  lemma TickLane(s: System, errors: seq<SessionError>, lane: Lane)
    requires LaneInv(s, lane) && Enabled(s, WorkerTick(errors))
    ensures LaneInv(Next(s, WorkerTick(errors)), lane)
  {
    MediaErrorsFrame(s.mail, errors);
    KeepsLane(s, Next(s, WorkerTick(errors)), lane);
  }

  /** What the remaining steps do to the slots, the queue and the running command. */
  lemma QuietFrame(s: System, step: Step, lane: Lane)
    requires Enabled(s, step) && !step.UiSubmit? && !step.WorkerPublish? && !step.WorkerTick?
    ensures var t := Next(s, step);
            && t.log == s.log
            && (Slot(t.mail, lane) == Slot(s.mail, lane)
                || (Slot(t.mail, lane) == [] && Flags(Slot(s.mail, lane)) <= t.mail.cancelled))
            && (t.mail.requests == s.mail.requests || t.mail.requests == []
                || (s.mail.requests != [] && t.mail.requests == s.mail.requests[1..]))
            && (t.phase.Busy? ==> Unanswered(s, t.phase.job.request))
  {
  }

  lemma QuietLane(s: System, step: Step, lane: Lane)
    requires LaneInv(s, lane) && Enabled(s, step)
    requires !step.UiSubmit? && !step.WorkerPublish? && !step.WorkerTick?
    ensures LaneInv(Next(s, step), lane)
  {
    StepFlagsMonotone(s, step);
    QuietFrame(s, step, lane);
    hide LaneInv, Next, Enabled, Unanswered;
    KeepsLane(s, Next(s, step), lane);
  }

  lemma StepLane(s: System, step: Step, lane: Lane)
    requires ScopeInv(s) && LaneInv(s, lane) && Enabled(s, step)
    ensures LaneInv(Next(s, step), lane)
  {
    hide ScopeInv, LaneInv;
    match step {
      case UiSubmit(generation, a) => SubmitLane(s, generation, a, lane);
      case WorkerPublish => PublishLane(s, lane);
      case WorkerTick(errors) => TickLane(s, errors, lane);
      case _ => QuietLane(s, step, lane);
    }
  }

  // ----- Coalescing -----

  /** Replaceable reads and preparations are queued at most once per family. */
  ghost predicate Coalesced(rs: seq<Request>) {
    forall i, j :: 0 <= i < j < |rs| && Family(rs[i].action).Some? ==> Family(rs[i].action) != Family(rs[j].action)
  }

  lemma RemoveCoalesced(rs: seq<Request>, i: nat)
    requires i < |rs| && Coalesced(rs)
    ensures Coalesced(RemoveAt(rs, i))
    ensures forall k :: 0 <= k < |rs| - 1 && Family(rs[i].action).Some? ==>
              Family(RemoveAt(rs, i)[k].action) != Family(rs[i].action)
  {
    var left := RemoveAt(rs, i);
    assert forall k :: 0 <= k < |left| ==> left[k] == rs[if k < i then k else k + 1];
  }

  lemma SubmitCoalesced(m: Mail, generation: nat, a: Action)
    requires Coalesced(m.requests)
    ensures Coalesced(Submit(m, generation, a).requests)
  {
    if Accepts(m) {
      var n := Revoke(m, a);
      SubmitShape(m, generation, a);
      if Family(a).Some? && FindFamily(n.requests, Family(a).value).Some? {
        RemoveCoalesced(n.requests, FindFamily(n.requests, Family(a).value).value);
      }
    }
  }

  lemma StepCoalesced(s: System, step: Step)
    requires Coalesced(s.mail.requests) && Enabled(s, step)
    ensures Coalesced(Next(s, step).mail.requests)
  {
    match step {
      case UiSubmit(generation, a) => SubmitCoalesced(s.mail, generation, a);
      case WorkerPublish =>
      case WorkerTick(errors) => MediaErrorsFrame(s.mail, errors);
      case _ => QuietFrame(s, step, Playback);
    }
  }

  // ----- Cancelling one command -----

  lemma {:induction false} CancelsOfCovers(rs: seq<Request>, generation: nat, r: Request)
    requires r in rs
    ensures r.generation == generation ==> r.cancel in CancelsOf(rs, generation)
  {
    if r != rs[0] {
      CancelsOfCovers(rs[1..], generation, r);
    }
  }

  lemma {:induction false} CancelsOfOnly(rs: seq<Request>, generation: nat, f: Flag) returns (r: Request)
    requires f in CancelsOf(rs, generation)
    ensures r in rs && r.generation == generation && r.cancel == f
  {
    if rs[0].generation == generation && rs[0].cancel == f {
      r := rs[0];
    } else {
      r := CancelsOfOnly(rs[1..], generation, f);
    }
  }

  /**
   Of all commands ever accepted, cancelling a generation cancels exactly those it names that are
   queued or running; answered ones, also of that generation, keep their flags as they were.
   */
  lemma CancelReachesExactly(s: System, generation: nat, r: Request)
    requires ScopeInv(s) && PhaseOk(s) && r in s.log
    ensures r.cancel in CancelRequest(s.mail, generation).cancelled
       <==> r.cancel in s.mail.cancelled
            || (Cancellable(s.mail, generation) && r.generation == generation && Unanswered(s, r))
  {
    if Cancellable(s.mail, generation) {
      if r in s.mail.requests {
        CancelsOfCovers(s.mail.requests, generation, r);
      }
      if r.cancel in CancelsOf(s.mail.requests, generation) {
        var q := CancelsOfOnly(s.mail.requests, generation, r.cancel);
        SameFlagSameRequest(s.log, s.mail.nextFlag, q, r);
      } else if s.phase.Busy? && r.cancel == s.phase.job.request.cancel {
        SameFlagSameRequest(s.log, s.mail.nextFlag, s.phase.job.request, r);
      }
    }
  }

  /** A cancelled preparation does not outlive the next dequeue. */
  lemma CancelDiscards(s: System, generation: nat)
    requires Cancellable(s.mail, generation)
    ensures Retained(CancelRequest(s.mail, generation), Some(generation)) == None
    ensures forall other: nat :: other != generation && other !in s.mail.discarded ==>
              Retained(CancelRequest(s.mail, generation), Some(other)) == Some(other)
  {
  }

  // ----- Credential revisions -----

  predicate Mutates(r: Request, p: Provider) { CredentialMutation(r.action) == Some(p) }

  /** Accepted sets and deletes for a provider. */
  function Mutations(log: seq<Request>, p: Provider): nat {
    if log == [] then 0
    else Mutations(log[..|log| - 1], p) + if Mutates(log[|log| - 1], p) then 1 else 0
  }

  lemma MutationsAppend(log: seq<Request>, r: Request, p: Provider)
    ensures Mutations(log + [r], p) == Mutations(log, p) + if Mutates(r, p) then 1 else 0
  {
    assert (log + [r])[..|log|] == log;
  }

  lemma {:induction false} MutationsBetween(log: seq<Request>, k: nat, p: Provider)
    requires k <= |log|
    ensures Mutations(log[..k], p) <= Mutations(log, p)
    ensures Mutations(log[..k], p) == Mutations(log, p) <==> forall j :: k <= j < |log| ==> !Mutates(log[j], p)
    decreases |log|
  {
    if k == |log| {
      assert log[..k] == log;
    } else {
      var rest := log[..|log| - 1];
      assert rest[..k] == log[..k];
      MutationsBetween(rest, k, p);
      assert forall j :: k <= j < |rest| ==> rest[j] == log[j];
    }
  }

  /** The request carries the revisions as they were once it was accepted. */
  ghost predicate Stamped(log: seq<Request>, k: nat, p: Provider)
    requires k < |log|
  {
    log[k].revisions.Of(p) == Mutations(log[..k + 1], p)
  }

  ghost predicate RevisionInv(s: System) {
    && (forall p: Provider :: s.mail.revisions.Of(p) == Mutations(s.log, p))
    && (forall k, p: Provider :: 0 <= k < |s.log| ==> Stamped(s.log, k, p))
  }

  lemma StampedPrefix(log: seq<Request>, r: Request, k: nat, p: Provider)
    requires k < |log|
    ensures Stamped(log + [r], k, p) <==> Stamped(log, k, p)
  {
    assert (log + [r])[..k + 1] == log[..k + 1];
  }

  lemma SubmitRevisions(s: System, generation: nat, a: Action)
    requires RevisionInv(s)
    ensures RevisionInv(DoSubmit(s, generation, a))
  {
    if Accepts(s.mail) {
      var t := DoSubmit(s, generation, a);
      var r := NewRequest(Revoke(s.mail, a), generation, a);
      forall p: Provider ensures t.mail.revisions.Of(p) == Mutations(t.log, p) == r.revisions.Of(p) {
        MutationsAppend(s.log, r, p);
        assert s.mail.revisions.Of(p) == Mutations(s.log, p);
      }
      forall k, p: Provider | 0 <= k < |t.log| ensures Stamped(t.log, k, p) {
        if k < |s.log| {
          StampedPrefix(s.log, r, k, p);
        } else {
          assert t.log[..k + 1] == t.log;
        }
      }
    }
  }

  lemma StepRevisions(s: System, step: Step)
    requires RevisionInv(s) && Enabled(s, step)
    ensures RevisionInv(Next(s, step))
  {
    var t := Next(s, step);
    match step {
      case UiSubmit(generation, a) => SubmitRevisions(s, generation, a);
      case WorkerTick(errors) =>
        MediaErrorsFrame(s.mail, errors);
        assert t.mail.revisions == s.mail.revisions && t.log == s.log;
      case _ => assert t.mail.revisions == s.mail.revisions && t.log == s.log;
    }
  }

  /** Validation succeeds exactly when nothing changed the credential after the request was accepted. */
  lemma ValidExactlyWhenUnchanged(s: System, k: nat, p: Provider)
    requires RevisionInv(s) && k < |s.log|
    ensures ValidRevision(s.mail, s.log[k].revisions, p)
       <==> forall j :: k < j < |s.log| ==> !Mutates(s.log[j], p)
  {
    assert Stamped(s.log, k, p);
    MutationsBetween(s.log, k + 1, p);
  }
}
