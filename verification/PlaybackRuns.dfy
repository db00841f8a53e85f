/**
 Who may write the playback position of a movie or episode. Beginning playback issues a run; a save
 names its run and the epoch it last saw and is stale unless both are still the entity's. Every
 other change advances the epoch, and a merge of two entities revokes the runs of both.
 */
module PlaybackRuns {
  import opened Util
  import opened PersonalState

  /** A confirmed position, in milliseconds. */
  datatype Sample = Sample(position: nat, duration: Option<nat>)

  datatype Operation =
    | Read
    | BeginRun(startOver: bool)
    | Save(run: nat, epoch: nat, sample: Sample)
    | Clear
    | CompleteRun(completed: nat, seenEpoch: nat, last: Option<Sample>)
    | SetWatched(watched: bool)

  datatype Verdict = Applied | Stale

  /** The last tenth counts as watched, unless the user marked it unwatched by hand. */
  predicate Qualifies(s: Sample, suppressed: bool) {
    !suppressed && s.duration.Some? && s.position * 10 >= s.duration.value * 9
  }

  /** A writer's permission: its run is the active one and it knows the current epoch. */
  predicate Authorized(p: Personal, run: nat, epoch: nat) {
    run != 0 && run == ActiveRun(p.watch) && epoch == Revision(p.watch)
  }

  predicate Refused(p: Personal, op: Operation) {
    match op
    case Save(run, epoch, _) => !Authorized(p, run, epoch)
    case CompleteRun(run, epoch, _) => !Authorized(p, run, epoch)
    case _ => false
  }

  // ----- The statements of an operation -----

  function Ensured(w: Option<WatchRow>): WatchRow { match w case None => WatchRow(false, 0, 0, 0,
                   false) case Some(row) => row }

  /** The checkpoint is replaced, and a sample near the end marks an unwatched entity as watched. */
  function Saved(p: Personal, w: WatchRow, s: Sample, now: nat): Personal {
    p.(progress := Some(Progress(s.position, s.duration, now, w.revision)),
       watch := Some(if !w.watched && Qualifies(s, w.suppressed) then w.(watched := true, updated := now) else w))
  }

  /** A kept checkpoint takes the new revision. */
  function Retagged(p: Personal): Personal {
    if p.progress.Some? && p.watch.Some? then p.(progress := Some(p.progress.value.(revision := p.watch.value.revision))) else p
  }

  function Performed(p: Personal, op: Operation, now: nat): Personal {
    var w := Ensured(p.watch);
    match op
    case Read => p
    case BeginRun(startOver) =>
      p.(watch := Some(w.(revision := w.revision + 1, activeRun := w.revision + 1, suppressed := false)),
         progress := if startOver then None else p.progress)
    case Save(_, _, s) => Saved(p, w, s, now)
    case Clear => p.(watch := Some(w.(revision := w.revision + 1)), progress := None)
    case CompleteRun(_, _, last) =>
      var saved := if last.Some? then Saved(p, w, last.value, now) else p.(watch := Some(w));
      saved.(watch := Some(saved.watch.value.(revision := saved.watch.value.revision + 1, activeRun := 0)))
    case SetWatched(watched) =>
      p.(watch := Some(w.(watched := watched, updated := now, revision := w.revision + 1, suppressed := w.suppressed || !watched)))
  }

  /** A refused write changes nothing. */
  function Operate(p: Personal, op: Operation, now: nat): (Personal, Verdict) {
    if Refused(p, op) then (p, Stale)
    else (if op.Read? then p else Retagged(Performed(p, op, now)), Applied)
  }

  // ----- Time of a change -----

  /** Later than the wall clock says and than everything stored. */
  function ChangeTime(wall: int, last: int): Option<nat> {
    if wall < 0 || last < 0 then None else Some(Max(wall, last + 1))
  }

  lemma ChangeTimeIsNewest(wall: int, last: int)
    ensures ChangeTime(wall, last).Some? <==> wall >= 0 && last >= 0
    ensures ChangeTime(wall, last).Some? ==> ChangeTime(wall, last).value > last && ChangeTime(wall, last).value >= wall
  {
  }

  // ----- One operation -----

  lemma OperateConsistent(p: Personal, op: Operation, now: nat)
    requires Consistent(p)
    ensures Consistent(Operate(p, op, now).0)
    ensures Revision(Operate(p, op, now).0.watch) >= Revision(p.watch)
    ensures Operate(p, op, now).0.added == p.added
  {
  }

  /** Exactly the beginning of another run and the completion of its own end a run. */
  lemma RunEndsExactly(p: Personal, op: Operation, now: nat, run: nat)
    requires Consistent(p) && run != 0 && ActiveRun(p.watch) == run
    ensures ActiveRun(Operate(p, op, now).0.watch) == run
       <==> !op.BeginRun? && !(op.CompleteRun? && op.completed == run && op.seenEpoch == Revision(p.watch))
  {
  }

  /** A permitted writer may go on without reading again exactly after reads, saves and refused writes. */
  lemma PermissionLasts(p: Personal, op: Operation, now: nat, run: nat, epoch: nat)
    requires Consistent(p) && Authorized(p, run, epoch)
    ensures Authorized(Operate(p, op, now).0, run, epoch) <==> op.Read? || op.Save? || Refused(p, op)
  {
  }

  // ----- Any history -----

  /** What can happen to an entity that stays: an operation on it, or a duplicate merged into it. */
  datatype Change = Do(op: Operation, now: nat) | Absorb(duplicate: Personal)

  function Changed(p: Personal, c: Change): Personal {
    match c
    case Do(op, now) => Operate(p, op, now).0
    case Absorb(duplicate) => (match MergePersonal(p, duplicate) case Ok(m) => m case Err(_) => p)
  }

  function ChangedAll(p: Personal, changes: seq<Change>): Personal
    decreases |changes|
  {
    if changes == [] then p else ChangedAll(Changed(p, changes[0]), changes[1..])
  }

  predicate Plausible(c: Change) { c.Absorb? ==> Consistent(c.duplicate) }

  /** Issued at some time, and not active now. */
  predicate Fenced(p: Personal, run: nat) { run <= Revision(p.watch) && ActiveRun(p.watch) != run }

  /** A merge fences every run either side ever issued. */
  lemma MergeFences(winner: Personal, loser: Personal, run: nat)
    requires Consistent(winner) && Consistent(loser) && run != 0
    requires run <= Revision(winner.watch) || run <= Revision(loser.watch)
    ensures MergePersonal(winner, loser).Ok? && Fenced(MergePersonal(winner, loser).value, run)
  {
  }

  lemma ChangeKeepsFence(p: Personal, c: Change, run: nat)
    requires Consistent(p) && Plausible(c)
    ensures Consistent(Changed(p, c)) && Revision(Changed(p, c).watch) >= Revision(p.watch)
    ensures run != 0 && Fenced(p, run) ==> Fenced(Changed(p, c), run)
  {
    match c {
      case Do(op, now) => OperateConsistent(p, op, now);
      case Absorb(duplicate) => MergeFailsIff(p, duplicate);
    }
  }

  /**
   Over every history of operations and merges: a run that was ended, replaced or merged away never
   becomes active again, so whatever epoch its writer presents, its writes are refused.
   */
  lemma {:induction false} EndedRunStaysOut(p: Personal, changes: seq<Change>, run: nat)
    requires Consistent(p) && run != 0 && Fenced(p, run) && forall i :: 0 <= i < |changes| ==> Plausible(changes[i])
    ensures var q := ChangedAll(p, changes);
            && Fenced(q, run)
            && (forall epoch, s, now :: Operate(q, Save(run, epoch, s), now) == (q, Stale))
            && (forall epoch, s, now :: Operate(q, CompleteRun(run, epoch, s), now) == (q, Stale))
    decreases |changes|
  {
    if changes != [] {
      ChangeKeepsFence(p, changes[0], run);
      EndedRunStaysOut(Changed(p, changes[0]), changes[1..], run);
    }
  }

  lemma {:induction false} HistoryConsistent(p: Personal, changes: seq<Change>)
    requires Consistent(p) && forall i :: 0 <= i < |changes| ==> Plausible(changes[i])
    ensures Consistent(ChangedAll(p, changes)) && Revision(ChangedAll(p, changes).watch) >= Revision(p.watch)
    decreases |changes|
  {
    if changes != [] {
      ChangeKeepsFence(p, changes[0], 0);
      HistoryConsistent(Changed(p, changes[0]), changes[1..]);
    }
  }

  /** Runs of one entity are all different: a run begun later has a higher number, across merges. */
  lemma LaterRunIsNew(p: Personal, changes: seq<Change>, startOver: bool, again: bool, now: nat, later: nat)
    requires Consistent(p) && forall i :: 0 <= i < |changes| ==> Plausible(changes[i])
    ensures var first := Operate(p, BeginRun(startOver), now).0;
            var second := Operate(ChangedAll(first, changes), BeginRun(again), later).0;
            ActiveRun(second.watch) > ActiveRun(first.watch) > ActiveRun(p.watch)
  {
    var first := Operate(p, BeginRun(startOver), now).0;
    OperateConsistent(p, BeginRun(startOver), now);
    HistoryConsistent(first, changes);
  }

  /**
   A mark made by hand later than everything stored decides the watch state of a merge, whichever
   side survives, and keeps playback from marking the entity watched again if it said unwatched.
   */
  lemma LastMarkWins(p: Personal, other: Personal, watched: bool, now: nat)
    requires Consistent(p) && Consistent(other) && (other.watch.Some? ==> other.watch.value.updated < now)
    ensures var q := Operate(p, SetWatched(watched), now).0;
            && MergePersonal(q, other).Ok? && MergePersonal(other, q).Ok?
            && var a, b := MergePersonal(q, other).value, MergePersonal(other, q).value;
               StateOf(a.watch) == Some(WatchState(watched, now)) == StateOf(b.watch)
               && (!watched ==> Suppressed(a.watch) && Suppressed(b.watch))
  {
  }

  // ----- What an operation stores -----

  /** The sample an operation brings. */
  function Brought(op: Operation): Option<Sample> {
    match op case Save(_, _, s) => Some(s) case CompleteRun(_, _, last) => last case _ => None
  }

  /** An accepted sample becomes the checkpoint, under the time of the operation and the revision it leaves. */
  lemma SampleIsStored(p: Personal, op: Operation, now: nat, s: Sample)
    requires (op.Save? && op.sample == s) || (op.CompleteRun? && op.last == Some(s))
    requires Operate(p, op, now).1.Applied?
    ensures var q := Operate(p, op, now).0;
            q.watch.Some? && q.progress == Some(Progress(s.position, s.duration, now, q.watch.value.revision))
  {
  }

  /** Starting over and clearing leave no checkpoint; whatever else brings no sample keeps it. */
  lemma CheckpointStays(p: Personal, op: Operation, now: nat)
    requires Operate(p, op, now).1.Stale? || (!op.Save? && !(op.CompleteRun? && op.last.Some?))
    ensures var q := Operate(p, op, now).0;
            if op.Clear? || (op.BeginRun? && op.startOver) then q.progress == None
            else if p.progress.None? then q.progress == None
            else SameCheckpoint(q.progress, p.progress)
  {
  }

  /** Marked by hand, or by an accepted sample of known duration in its last tenth that no mark by hand suppresses. */
  predicate MarksWatched(p: Personal, op: Operation, now: nat) {
    match op
    case SetWatched(watched) => watched
    case _ =>
      && Operate(p, op, now).1.Applied? && Brought(op).Some? && !Suppressed(p.watch)
      && var s := Brought(op).value; s.duration.Some? && 10 * s.position >= 9 * s.duration.value
  }

  predicate Watched(p: Personal) { p.watch.Some? && p.watch.value.watched }

  /**
   An entity is watched exactly when it was marked and not unmarked by hand; only a change of the mark, or a
   mark by hand, has a new time. Unmarking by hand suppresses later marks until another run begins.
   */
  lemma WatchedExactly(p: Personal, op: Operation, now: nat)
    ensures var q := Operate(p, op, now).0;
            && (Watched(q) <==> MarksWatched(p, op, now) || (Watched(p) && !op.SetWatched?))
            && (q.watch.Some? ==>
                  q.watch.value.updated == if op.SetWatched? || Watched(q) != Watched(p) then now
                                           else if p.watch.Some? then p.watch.value.updated else 0)
            && (Suppressed(q.watch) <==> op == SetWatched(false) || (Suppressed(p.watch) && !op.BeginRun?))
  {
  }

  /** A write is refused exactly when its run is not the active one or has not seen the current revision. */
  lemma RefusedExactly(p: Personal, op: Operation, now: nat)
    ensures Operate(p, op, now).1.Stale? <==>
              || (op.Save? && (op.run == 0 || op.run != ActiveRun(p.watch) || op.epoch != Revision(p.watch)))
              || (op.CompleteRun? && (op.completed == 0 || op.completed != ActiveRun(p.watch) || op.seenEpoch != Revision(p.watch)))
    ensures Operate(p, op, now).1.Stale? ==> Operate(p, op, now).0 == p
    ensures Operate(p, op, now).1.Applied? ==>
              Revision(Operate(p, op, now).0.watch) == Revision(p.watch) + if op.Read? || op.Save? then 0 else 1
  {
  }

  /** What leaves a checkpoint alone, whoever asks: reads, marks, runs that resume, and duplicates without a newer checkpoint. */
  predicate LeavesCheckpoint(p: Personal, c: Change) {
    match c
    case Do(op, now) =>
      Operate(p, op, now).1.Stale? || op.Read? || op.SetWatched? || op == BeginRun(false) || (op.CompleteRun? && op.last.None?)
    case Absorb(d) => d.progress.Some? && p.progress.Some? ==> d.progress.value.updated <= p.progress.value.updated
  }

  predicate AllLeaveCheckpoint(p: Personal, changes: seq<Change>)
    decreases |changes|
  {
    changes != [] ==> LeavesCheckpoint(p, changes[0]) && AllLeaveCheckpoint(Changed(p, changes[0]), changes[1..])
  }

  lemma ChangeLeavesCheckpoint(p: Personal, c: Change)
    requires p.progress.Some? && Consistent(p) && Plausible(c) && LeavesCheckpoint(p, c)
    ensures SameCheckpoint(Changed(p, c).progress, p.progress)
  {
    match c {
      case Do(op, now) => CheckpointStays(p, op, now);
      case Absorb(duplicate) => MergeFailsIff(p, duplicate);
    }
  }

  lemma {:induction false} CheckpointLasts(p: Personal, changes: seq<Change>)
    requires p.progress.Some? && Consistent(p) && AllLeaveCheckpoint(p, changes)
    requires forall i :: 0 <= i < |changes| ==> Plausible(changes[i])
    ensures SameCheckpoint(ChangedAll(p, changes).progress, p.progress)
    decreases |changes|
  {
    if changes != [] {
      ChangeLeavesCheckpoint(p, changes[0]);
      ChangeKeepsFence(p, changes[0], 0);
      CheckpointLasts(Changed(p, changes[0]), changes[1..]);
    }
  }

  /**
   Playback resumes where it was saved last: an accepted sample is the checkpoint until another sample, a clear
   or a fresh start, or a duplicate with a newer checkpoint.
   */
  lemma ResumesWhereSaved(p: Personal, op: Operation, now: nat, s: Sample, changes: seq<Change>)
    requires Consistent(p) && Brought(op) == Some(s) && Operate(p, op, now).1.Applied?
    requires AllLeaveCheckpoint(Operate(p, op, now).0, changes) && forall i :: 0 <= i < |changes| ==> Plausible(changes[i])
    ensures var q := ChangedAll(Operate(p, op, now).0, changes);
            q.progress.Some? && q.progress.value.position == s.position && q.progress.value.duration == s.duration
            && q.progress.value.updated == now
  {
    SampleIsStored(p, op, now, s);
    OperateConsistent(p, op, now);
    CheckpointLasts(Operate(p, op, now).0, changes);
  }

  // ----- As the program does it -----

  /** The rows of one kind of entity, updated statement by statement. */
  class ProgressTables {
    var watch: map<nat, WatchRow>
    var progress: map<nat, Progress>

    function Rows(id: nat): Personal
      reads this
    {
      Personal(None, if id in watch then Some(watch[id]) else None, if id in progress then Some(progress[id]) else None)
    }

    constructor ()
      ensures forall id :: Rows(id) == Personal(None, None, None)
    {
      watch, progress := map[], map[];
    }

    method EnsureState(id: nat)
      modifies this`watch
      ensures watch == old(watch)[id := Ensured(old(Rows(id)).watch)]
    {
      if id !in watch {
        watch := watch[id := WatchRow(false, 0, 0, 0, false)];
      }
    }

    method Keep(id: nat, s: Sample, now: nat)
      requires id in watch
      modifies this
      ensures Rows(id) == Saved(old(Rows(id)), old(watch)[id], s, now)
      ensures forall other :: other != id ==> Rows(other) == old(Rows(other))
    {
      var w := watch[id];
      progress := progress[id := Progress(s.position, s.duration, now, w.revision)];
      if !w.watched && Qualifies(s, w.suppressed) {
        watch := watch[id := w.(watched := true, updated := now)];
      }
    }

    method Retag(id: nat)
      requires id in watch
      modifies this`progress
      ensures Rows(id) == Retagged(old(Rows(id)))
      ensures forall other :: other != id ==> Rows(other) == old(Rows(other))
    {
      if id in progress {
        progress := progress[id := progress[id].(revision := watch[id].revision)];
      }
    }

    method Run(id: nat, op: Operation, now: nat) returns (v: Verdict)
      modifies this
      ensures (Rows(id), v) == Operate(old(Rows(id)), op, now)
      ensures forall other :: other != id ==> Rows(other) == old(Rows(other))
    {
      var state := Rows(id);
      match op {
        case Save(run, epoch, _) =>
          if run == 0 || run != ActiveRun(state.watch) || epoch != Revision(state.watch) {
            return Stale;
          }
        case CompleteRun(run, epoch, _) =>
          if run == 0 || run != ActiveRun(state.watch) || epoch != Revision(state.watch) {
            return Stale;
          }
        case _ =>
      }
      if op != Read {
        EnsureState(id);
        Perform(id, op, now);
        Retag(id);
      }
      return Applied;
    }

    method Perform(id: nat, op: Operation, now: nat)
      requires id in watch && op != Read
      modifies this
      ensures Rows(id) == Performed(old(Rows(id)), op, now)
      ensures forall other :: other != id ==> Rows(other) == old(Rows(other))
    {
      match op {
        case Read =>
        case BeginRun(startOver) =>
          watch := watch[id := watch[id].(revision := watch[id].revision + 1, activeRun := watch[id].revision + 1, suppressed := false)];
          if startOver {
            progress := progress - {id};
          }
        case Clear =>
          watch := watch[id := watch[id].(revision := watch[id].revision + 1)];
          progress := progress - {id};
        case Save(_, _, s) =>
          Keep(id, s, now);
        case CompleteRun(_, _, last) =>
          if last.Some? {
            Keep(id, last.value, now);
          }
          watch := watch[id := watch[id].(revision := watch[id].revision + 1, activeRun := 0)];
        case SetWatched(watched) =>
          var w := watch[id];
          watch := watch[id := w.(watched := watched, updated := now, revision := w.revision + 1,
                                  suppressed := w.suppressed || !watched)];
      }
    }
  }
}
