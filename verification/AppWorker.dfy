/**
 The mailbox as the program keeps it: fields that each lock-held section updates in place.
 Every method is proved to turn the old mailbox into the one its specification function gives.
 */
module AppWorker {
  import opened Util
  import opened Mailbox
  import opened MediaReports

  class Shared {
    var requests: seq<Request>
    var events: seq<Event>
    var outstanding: int
    var stopped: bool
    var pipeline: seq<Flag>
    var metadataPipeline: seq<Flag>
    var account: Flag
    var active: Option<Flag>
    var activeGeneration: Option<nat>
    var discarded: seq<nat>
    var preparedGeneration: Option<nat>
    var scope: Option<Provider>
    var epoch: nat
    var revisions: Revisions
    /** Flags that are set, and the next unused flag. */
    var cancelled: set<Flag>
    var nextFlag: Flag

    function Now(): Mail
      reads this
    {
      Mail(requests, events, outstanding, stopped, pipeline, metadataPipeline, account, active, activeGeneration,
           discarded, preparedGeneration, scope, epoch, revisions, cancelled, nextFlag)
    }

    constructor ()
      ensures Now() == NewMail()
    {
      requests, events, outstanding, stopped, pipeline, metadataPipeline := [], [], 0, false, [], [];
      account, active, activeGeneration, discarded, preparedGeneration := 0, None, None, [], None;
      scope, epoch, revisions, cancelled, nextFlag := None, 0, Revisions(0, 0), {}, 1;
    }

    // ----- Flags -----

    /** Sets every flag of a drained list. */
    method Drained(fs: seq<Flag>, flags: set<Flag>) returns (more: set<Flag>)
      ensures more == flags + Flags(fs)
    {
      more := flags;
      var i := 0;
      while i < |fs|
        invariant i <= |fs|
        invariant more == flags + Flags(fs[..i])
      {
        assert fs[..i + 1] == fs[..i] + [fs[i]];
        more := more + {fs[i]};
        i := i + 1;
      }
      assert fs[..i] == fs;
    }

    // ----- Sections of the UI -----

    /** Index of the first queued request of a family. */
    method Position(family: nat) returns (index: Option<nat>)
      ensures index == FindFamily(requests, family)
    {
      var i := 0;
      while i < |requests|
        invariant i <= |requests|
        invariant FindFamily(requests, family)
               == match FindFamily(requests[i..], family) case Some(k) => Some(k + i) case None => None
      {
        if Family(requests[i].action) == Some(family) {
          return Some(i);
        }
        assert requests[i..][1..] == requests[i + 1..];
        i := i + 1;
      }
      return None;
    }

    /** True means queued; false means backpressure, and nothing changed. */
    method TrySubmit(generation: nat, action: Action) returns (accepted: bool)
      modifies this
      ensures accepted == Accepts(old(Now()))
      ensures Now() == Submit(old(Now()), generation, action)
    {
      if stopped || outstanding >= CAPACITY {
        return false;
      }
      RevokeFor(action);
      Coalesce(action);
      Append(generation, action);
      return true;
    }

    method Append(generation: nat, action: Action)
      modifies this
      ensures Now() == Enqueue(old(Now()), generation, action)
    {
      var cancel := nextFlag;
      nextFlag := nextFlag + 1;
      if Pipeline(action) {
        pipeline := pipeline + [cancel];
      }
      if action.TestTmdbCredential? {
        metadataPipeline := metadataPipeline + [cancel];
      }
      requests := requests + [Request(generation, action, cancel, revisions)];
      outstanding := outstanding + 1;
    }

    /** A queued request of the same family is cancelled and answered at once. */
    method Coalesce(action: Action)
      modifies this`requests, this`cancelled, this`events
      ensures Now() == Supersede(old(Now()), action)
    {
      var family := Family(action);
      if family.Some? {
        var index := Position(family.value);
        if index.Some? {
          var victim := requests[index.value];
          requests := RemoveAt(requests, index.value);
          cancelled := cancelled + {victim.cancel};
          events := events + [Event(victim.generation, Failed)];
        }
      }
    }

    /** Revision bump, account flag and pipelines, in the order the command causes them. */
    method RevokeFor(action: Action)
      modifies this`revisions, this`cancelled, this`pipeline, this`metadataPipeline
      ensures Now() == Revoke(old(Now()), action)
    {
      RevokePlayback(action);
      if MetadataAction(action) {
        cancelled := Drained(metadataPipeline, cancelled);
        metadataPipeline := [];
      }
    }

    method RevokePlayback(action: Action)
      modifies this`revisions, this`cancelled, this`pipeline
      ensures var m := old(Now());
              && revisions == Revoke(m, action).revisions && pipeline == Revoke(m, action).pipeline
              && cancelled == m.cancelled
                              + (if InvalidatesAccount(action, m.scope) then {m.account} else {})
                              + (if DrainsPipeline(m, action) then Flags(m.pipeline) else {})
    {
      var mutated := CredentialMutation(action);
      if mutated.Some? {
        revisions := revisions.Bump(mutated.value);
      }
      var flags := cancelled;
      if InvalidatesAccount(action, scope) {
        flags := flags + {account};
      }
      if Pipeline(action) || InvalidatesAccount(action, scope) || action.SaveSettings? {
        flags := Drained(pipeline, flags);
        pipeline := [];
      }
      cancelled := flags;
    }

    method CancelQueued(generation: nat)
      modifies this`cancelled
      ensures cancelled == old(cancelled) + CancelsOf(requests, generation)
    {
      var i := 0;
      while i < |requests|
        invariant i <= |requests|
        invariant cancelled + CancelsOf(requests[i..], generation) == old(cancelled) + CancelsOf(requests, generation)
      {
        assert requests[i..][1..] == requests[i + 1..];
        if requests[i].generation == generation {
          cancelled := cancelled + {requests[i].cancel};
        }
        i := i + 1;
      }
    }

    method TryCancel(generation: nat) returns (known: bool)
      modifies this
      ensures known == Cancellable(old(Now()), generation)
      ensures Now() == CancelRequest(old(Now()), generation)
    {
      if stopped {
        return false;
      }
      if activeGeneration != Some(generation) && preparedGeneration != Some(generation)
         && !exists i :: 0 <= i < |requests| && requests[i].generation == generation
      {
        return false;
      }
      if activeGeneration == Some(generation) && active.Some? {
        cancelled := cancelled + {active.value};
      }
      CancelQueued(generation);
      if generation !in discarded {
        discarded := discarded + [generation];
      }
      return true;
    }

    method PollEvent() returns (event: Option<Event>)
      modifies this
      ensures (Now(), event) == Poll(old(Now()))
    {
      if events == [] {
        return None;
      }
      var first := events[0];
      events := events[1..];
      if ConsumesBudget(first.outcome) {
        outstanding := outstanding - 1;
      }
      return Some(first);
    }

    method Drop()
      modifies this
      ensures Now() == DropHandle(old(Now()))
    {
      stopped := true;
      var flags := cancelled;
      if active.Some? {
        flags := flags + {active.value};
      }
      flags := flags + {account};
      flags := Drained(pipeline, flags);
      flags := Drained(metadataPipeline, flags);
      cancelled, pipeline, metadataPipeline := flags, [], [];
    }

    // ----- Sections of the worker -----

    method Rotate(provider: Option<Provider>)
      modifies this
      ensures Now() == RotateAccount(old(Now()), provider)
    {
      cancelled := cancelled + {account};
      epoch := epoch + 1;
      scope := provider;
      account := nextFlag;
      nextFlag := nextFlag + 1;
    }

    method BeginAction(action: Action) returns (invalidated: bool)
      modifies this
      ensures invalidated == InvalidatesAccount(action, old(scope))
      ensures Now() == BeginAccountAction(old(Now()), action)
    {
      if !InvalidatesAccount(action, scope) {
        return false;
      }
      var provider := if action.SaveSettings? then Some(action.debrid) else scope;
      Rotate(provider);
      return true;
    }

    method Reconcile(effective: Provider) returns (changed: bool)
      modifies this
      ensures changed == ScopeChanges(old(Now()), effective)
      ensures Now() == ReconcileAccount(old(Now()), effective)
    {
      changed := scope.Some? && scope != Some(effective);
      if scope != Some(effective) {
        Rotate(Some(effective));
      }
    }

    /** Each discarded generation drops the retained preparation if it is the one. */
    method DrainDiscards(prepared: Option<nat>) returns (kept: Option<nat>)
      modifies this`discarded
      ensures discarded == [] && kept == Retained(old(Now()), prepared)
    {
      kept := prepared;
      var was := discarded;
      while discarded != []
        invariant kept == prepared || (kept == None && prepared.Some? && prepared.value in was)
        invariant kept.Some? ==> (kept.value in was <==> kept.value in discarded)
        decreases |discarded|
      {
        if kept == Some(discarded[0]) {
          kept := None;
        }
        assert discarded == [discarded[0]] + discarded[1..];
        discarded := discarded[1..];
      }
    }

    /** Drops discarded work, then takes the oldest request and starts its account action. */
    method TakeRequest(prepared: Option<nat>) returns (kept: Option<nat>, request: Option<Request>, invalidated: bool)
      modifies this
      ensures kept == Retained(old(Now()), prepared)
      ensures Now() == Dequeue(old(Now()), prepared)
      ensures request == if old(requests) == [] then None else Some(old(requests)[0])
      ensures invalidated == (old(requests) != [] && InvalidatesAccount(old(requests)[0].action, old(scope)))
    {
      kept := DrainDiscards(prepared);
      request := if requests == [] then None else Some(requests[0]);
      PopRequest(kept);
      invalidated := false;
      if request.Some? {
        invalidated := BeginAction(request.value.action);
      }
    }

    method PopRequest(kept: Option<nat>)
      modifies this`preparedGeneration, this`requests, this`active, this`activeGeneration
      ensures preparedGeneration == kept
      ensures old(requests) == [] ==> requests == [] && active == None && activeGeneration == None
      ensures old(requests) != [] ==>
                && requests == old(requests)[1..]
                && active == Some(old(requests)[0].cancel) && activeGeneration == Some(old(requests)[0].generation)
    {
      preparedGeneration := kept;
      if requests == [] {
        active, activeGeneration := None, None;
      } else {
        active, activeGeneration := Some(requests[0].cancel), Some(requests[0].generation);
        requests := requests[1..];
      }
    }

    method Emit()
      modifies this
      ensures Now() == EmitInvalidation(old(Now()))
    {
      if !stopped {
        events := events + [Event(0, Invalidated)];
      }
    }

    /** Keeps the flags other than one, as `retain` does. */
    method Retain(fs: seq<Flag>, f: Flag) returns (left: seq<Flag>)
      ensures left == Without(fs, f)
    {
      left := [];
      var i := 0;
      while i < |fs|
        invariant i <= |fs|
        invariant left + Without(fs[i..], f) == Without(fs, f)
      {
        assert fs[i..][1..] == fs[i + 1..];
        if fs[i] != f {
          left := left + [fs[i]];
        }
        i := i + 1;
      }
    }

    method Answer(r: Request, outcome: Outcome, prepared: Option<nat>)
      modifies this
      ensures Now() == Publish(old(Now()), r, outcome, prepared)
    {
      active, activeGeneration, preparedGeneration := None, None, prepared;
      Forget(r.cancel);
      events := events + [Event(r.generation, outcome)];
    }

    method Forget(f: Flag)
      modifies this`pipeline, this`metadataPipeline
      ensures pipeline == Without(old(pipeline), f) && metadataPipeline == Without(old(metadataPipeline), f)
    {
      pipeline := Retain(pipeline, f);
      metadataPipeline := Retain(metadataPipeline, f);
    }

    /** Tells what is new while budget lasts; the sessions remember what was told. */
    method ReportErrors(seen: Reports, found: seq<Found>) returns (more: Reports)
      modifies this
      ensures (Now(), more) == Report(old(Now()), seen, found)
    {
      more := seen;
      var i := 0;
      while i < |found|
        invariant i <= |found|
        invariant Report(Now(), more, found[i..]) == Report(old(Now()), seen, found)
      {
        if outstanding >= CAPACITY {
          break;
        }
        assert found[i..][1..] == found[i + 1..];
        if Fresh(more, found[i]) {
          more := Note(more, found[i]);
          events := events + [Event(0, MediaFailed(found[i].session))];
          outstanding := outstanding + 1;
        }
        i := i + 1;
      }
    }

    method DropTelemetry()
      modifies this`events
      ensures events == WithoutTelemetry(old(events))
    {
      var left, i := [], 0;
      while i < |events|
        invariant i <= |events| && events == old(events)
        invariant left + WithoutTelemetry(events[i..]) == WithoutTelemetry(events)
      {
        assert events[i..][1..] == events[i + 1..];
        if !Telemetry(events[i].outcome) {
          left := left + [events[i]];
        }
        i := i + 1;
      }
      events := left;
    }

    method OnTick(seen: Reports, found: seq<Found>) returns (more: Reports)
      modifies this
      ensures Now() == Tick(old(Now()), Judged(old(Now()), seen, found))
      ensures more == Report(old(Now()), seen, found).1
    {
      ReportIsQueue(Now(), seen, found);
      more := ReportErrors(seen, found);
      DropTelemetry();
      events := events + [Event(0, Usage)];
      events := events + [Event(0, SessionUpdates)];
    }

    method Close()
      modifies this
      ensures Now() == CloseOnExit(old(Now()))
    {
      Drop();
      AnswerAll();
    }

    /** Nothing stays running or queued: each command is answered as failed. */
    method AnswerAll()
      modifies this
      ensures Now() == AbandonAll(old(Now()))
    {
      var answers := if activeGeneration.Some? then [Event(activeGeneration.value, Failed)] else [];
      var flags, more := FailQueued(cancelled);
      active, activeGeneration, requests := None, None, [];
      cancelled, events := flags, events + answers + more;
    }

    /** Every queued request is cancelled and answered, oldest first. */
    method FailQueued(flags: set<Flag>) returns (more: set<Flag>, answers: seq<Event>)
      ensures more == flags + CancelFlags(requests) && answers == FailedEvents(requests)
    {
      more, answers := flags, [];
      var i := 0;
      while i < |requests|
        invariant i <= |requests|
        invariant answers + FailedEvents(requests[i..]) == FailedEvents(requests)
        invariant more + CancelFlags(requests[i..]) == flags + CancelFlags(requests)
      {
        var r := requests[i];
        assert requests[i..] == [r] + requests[i + 1..];
        assert CancelFlags(requests[i..]) == {r.cancel} + CancelFlags(requests[i + 1..]);
        more := more + {r.cancel};
        answers := answers + [Event(r.generation, Failed)];
        i := i + 1;
      }
    }
  }
}
