/**
 Library membership, watch state and playback progress when two titles or episodes turn out to
 be one. The law is a join of watch states; the row-by-row updates of the merge implement it.
 */
module PersonalState {
  import opened Util

  // ----- The law -----

  datatype WatchState = WatchState(watched: bool, updated: int)

  /** The join of two states: the one set last, and of two set at the same time watched only if both are. */
  function ReconcileWatch(a: Option<WatchState>, b: Option<WatchState>): Option<WatchState> {
    match (a, b)
    case (None, value) => value
    case (value, None) => value
    case (Some(x), Some(y)) =>
      Some(if x.updated > y.updated then x
           else if y.updated > x.updated then y
           else WatchState(x.watched && y.watched, x.updated))
  }

  lemma JoinLaws(a: Option<WatchState>, b: Option<WatchState>, c: Option<WatchState>)
    ensures ReconcileWatch(a, a) == a
    ensures ReconcileWatch(a, b) == ReconcileWatch(b, a)
    ensures ReconcileWatch(ReconcileWatch(a, b), c) == ReconcileWatch(a, ReconcileWatch(b, c))
  {
  }

  // ----- Rows -----

  datatype WatchRow = WatchRow(watched: bool, updated: int, revision: nat, activeRun: nat, suppressed: bool)

  datatype Progress = Progress(position: nat, duration: Option<nat>, updated: int, revision: nat)

  /** Personal rows of one title or episode; an episode has no library entry. */
  datatype Personal = Personal(added: Option<int>, watch: Option<WatchRow>, progress: Option<Progress>)

  datatype Error = ProgressWithoutWatch

  function StateOf(w: Option<WatchRow>): Option<WatchState> {
    match w case None => None case Some(row) => Some(WatchState(row.watched, row.updated))
  }

  function Revision(w: Option<WatchRow>): nat { match w case None => 0 case Some(row) => row.revision }

  function Suppressed(w: Option<WatchRow>): bool { w.Some? && w.value.suppressed }

  function ActiveRun(w: Option<WatchRow>): nat { match w case None => 0 case Some(row) => row.activeRun }

  /** A checkpoint stands beside a watch row and carries its revision; no run is newer than the revision. */
  predicate Consistent(p: Personal) {
    && (p.progress.Some? ==> p.watch.Some? && p.progress.value.revision == p.watch.value.revision)
    && ActiveRun(p.watch) <= Revision(p.watch)
  }

  // ----- The merge, statement by statement -----

  function EarliestAdded(winner: Option<int>, loser: Option<int>): Option<int> {
    match (winner, loser)
    case (None, l) => l
    case (w, None) => w
    case (Some(w), Some(l)) => Some(Min(w, l))
  }

  /** Insert the loser's watch row, or update the winner's on conflict. */
  function Upserted(winner: Option<WatchRow>, loser: Option<WatchRow>): Option<WatchRow> {
    match loser
    case None => winner
    case Some(l) =>
      match winner
      case None => Some(WatchRow(l.watched, l.updated, 0, 0, false))
      case Some(w) =>
        Some(w.(watched := if l.updated > w.updated then l.watched
                           else if l.updated == w.updated then w.watched && l.watched
                           else w.watched,
                updated := Max(w.updated, l.updated)))
  }

  /** A revision past both sides revokes every writer; a suppression on either side stays. */
  function Revoked(upserted: Option<WatchRow>, loser: Option<WatchRow>): Option<WatchRow> {
    match upserted
    case None => None
    case Some(w) =>
      Some(w.(revision := Max(w.revision, Revision(loser)) + 1, activeRun := 0, suppressed := w.suppressed || Suppressed(loser)))
  }

  /** The newer checkpoint, the winner's of equals. */
  function LatestProgress(winner: Option<Progress>, loser: Option<Progress>): Option<Progress> {
    match loser
    case None => winner
    case Some(l) =>
      match winner
      case None => Some(l)
      case Some(w) =>
        if l.updated > w.updated then Some(Progress(l.position, l.duration, l.updated, w.revision)) else Some(w)
  }

  /** The checkpoint takes the revision of the watch row; without one the update violates NOT NULL. */
  function MergePersonal(winner: Personal, loser: Personal): Result<Personal, Error> {
    var watch := Revoked(Upserted(winner.watch, loser.watch), loser.watch);
    match LatestProgress(winner.progress, loser.progress)
    case None => Ok(Personal(EarliestAdded(winner.added, loser.added), watch, None))
    case Some(p) =>
      match watch
      case None => Err(ProgressWithoutWatch)
      case Some(w) => Ok(Personal(EarliestAdded(winner.added, loser.added), watch, Some(p.(revision := w.revision))))
  }

  // ----- What the merge guarantees -----

  /** The merge fails exactly for a checkpoint without any watch row, which consistent rows rule out. */
  lemma MergeFailsIff(winner: Personal, loser: Personal)
    ensures MergePersonal(winner, loser).Err?
       <==> (winner.progress.Some? || loser.progress.Some?) && winner.watch.None? && loser.watch.None?
    ensures Consistent(winner) && Consistent(loser) ==>
              MergePersonal(winner, loser).Ok? && Consistent(MergePersonal(winner, loser).value)
  {
  }

  /** The merged watch row is the join of both, under a revision above both and with no active run. */
  lemma MergeFollowsLaw(winner: Personal, loser: Personal)
    requires MergePersonal(winner, loser).Ok?
    ensures var m := MergePersonal(winner, loser).value;
            && StateOf(m.watch) == ReconcileWatch(StateOf(winner.watch), StateOf(loser.watch))
            && (m.watch.Some? ==>
                  && m.watch.value.revision > Max(Revision(winner.watch), Revision(loser.watch))
                  && m.watch.value.activeRun == 0
                  && m.watch.value.suppressed == (Suppressed(winner.watch) || Suppressed(loser.watch)))
            && (m.progress.Some? ==> m.watch.Some? && m.progress.value.revision == m.watch.value.revision)
  {
  }

  /** Membership keeps the earliest addition and the checkpoint is the newest on either side. */
  lemma MergeKeepsMembershipAndCheckpoint(winner: Personal, loser: Personal)
    requires MergePersonal(winner, loser).Ok?
    ensures var m := MergePersonal(winner, loser).value;
            && (m.added.Some? <==> winner.added.Some? || loser.added.Some?)
            && (winner.added.Some? ==> m.added.value <= winner.added.value)
            && (loser.added.Some? ==> m.added.value <= loser.added.value)
            && (m.added.Some? ==> m.added == winner.added || m.added == loser.added)
            && (m.progress.Some? <==> winner.progress.Some? || loser.progress.Some?)
            && (winner.progress.Some? ==> m.progress.value.updated >= winner.progress.value.updated)
            && (loser.progress.Some? ==> m.progress.value.updated >= loser.progress.value.updated)
            && (m.progress.Some? ==> SameCheckpoint(m.progress, winner.progress) || SameCheckpoint(m.progress, loser.progress))
  {
  }

  predicate SameCheckpoint(a: Option<Progress>, b: Option<Progress>) {
    a.Some? && b.Some? && a.value.position == b.value.position && a.value.duration == b.value.duration
    && a.value.updated == b.value.updated
  }

  /**
   What is kept of two entities' personal rows, row by row: the earliest addition; the newest checkpoint, the
   winner's of equals; the watch state set last, of two set at once watched only if both are; any suppression.
   The revision is the next after both and no run is active.
   */
  predicate KeptPersonal(kept: Personal, winner: Personal, loser: Personal) {
    && KeptAddition(kept.added, winner.added, loser.added)
    && KeptCheckpoint(kept.progress, winner.progress, loser.progress)
    && KeptWatch(kept.watch, winner.watch, loser.watch)
  }

  predicate KeptAddition(kept: Option<int>, winner: Option<int>, loser: Option<int>) {
    && (kept.Some? <==> winner.Some? || loser.Some?)
    && (kept.Some? ==>
          && (kept == winner || kept == loser)
          && (winner.Some? ==> kept.value <= winner.value) && (loser.Some? ==> kept.value <= loser.value))
  }

  predicate KeptCheckpoint(kept: Option<Progress>, winner: Option<Progress>, loser: Option<Progress>) {
    && (kept.Some? <==> winner.Some? || loser.Some?)
    && (kept.Some? ==>
          if loser.Some? && (winner.None? || winner.value.updated < loser.value.updated)
          then SameCheckpoint(kept, loser) else SameCheckpoint(kept, winner))
  }

  predicate KeptWatch(kept: Option<WatchRow>, winner: Option<WatchRow>, loser: Option<WatchRow>) {
    && (kept.Some? <==> winner.Some? || loser.Some?)
    && (kept.Some? ==>
          && (winner.Some? ==> KeptSide(kept.value, winner.value))
          && (loser.Some? ==> KeptSide(kept.value, loser.value))
          && ((winner.Some? && winner.value.updated == kept.value.updated && winner.value.watched == kept.value.watched)
              || (loser.Some? && loser.value.updated == kept.value.updated && loser.value.watched == kept.value.watched))
          && (kept.value.suppressed <==> (winner.Some? && winner.value.suppressed) || (loser.Some? && loser.value.suppressed))
          && kept.value.revision == 1 + Max(Revision(winner), Revision(loser))
          && kept.value.activeRun == 0)
  }

  /** A side's watch row is older than the one kept, or as old and not less watched; its revision is passed. */
  predicate KeptSide(kept: WatchRow, side: WatchRow) {
    && kept.revision > side.revision
    && (side.updated < kept.updated || (side.updated == kept.updated && (kept.watched ==> side.watched)))
  }

  lemma MergeKeepsPersonal(winner: Personal, loser: Personal)
    requires MergePersonal(winner, loser).Ok?
    ensures KeptPersonal(MergePersonal(winner, loser).value, winner, loser)
  {
    UpsertKeeps(winner.watch, loser.watch);
    hide KeptWatch, Upserted, Revoked;
  }

  lemma UpsertKeeps(winner: Option<WatchRow>, loser: Option<WatchRow>)
    ensures KeptWatch(Revoked(Upserted(winner, loser), loser), winner, loser)
  {
  }

  // ----- Any sequence of merges -----

  /** Merging a survivor with one duplicate after another. */
  function MergeAll(survivor: Personal, duplicates: seq<Personal>): Result<Personal, Error>
    decreases |duplicates|
  {
    if duplicates == [] then Ok(survivor)
    else
      match MergePersonal(survivor, duplicates[0])
      case Err(e) => Err(e)
      case Ok(m) => MergeAll(m, duplicates[1..])
  }

  function JoinAll(states: seq<Personal>): Option<WatchState> {
    if states == [] then None else ReconcileWatch(StateOf(states[0].watch), JoinAll(states[1..]))
  }

  function EarliestOf(states: seq<Personal>): Option<int> {
    if states == [] then None else EarliestAdded(states[0].added, EarliestOf(states[1..]))
  }

  /** A checkpoint of one of the states, and none of them has a newer one. */
  predicate NewestCheckpoint(c: Option<Progress>, states: seq<Personal>) {
    && (forall i :: 0 <= i < |states| && states[i].progress.Some? ==> c.Some? && c.value.updated >= states[i].progress.value.updated)
    && (c.Some? ==> exists i :: 0 <= i < |states| && SameCheckpoint(c, states[i].progress))
  }

  predicate AnySuppressed(states: seq<Personal>) { exists i :: 0 <= i < |states| && Suppressed(states[i].watch) }

  /**
   After any sequence of merges the survivor holds the join, the earliest addition, the newest
   checkpoint and every suppression, under a revision past every input's and with no active run.
   */
  lemma {:induction false} MergeAllFollowsLaw(survivor: Personal, duplicates: seq<Personal>)
    requires Consistent(survivor) && forall i :: 0 <= i < |duplicates| ==> Consistent(duplicates[i])
    ensures MergeAll(survivor, duplicates).Ok?
    ensures var m := MergeAll(survivor, duplicates).value; var all := [survivor] + duplicates;
            && Consistent(m)
            && StateOf(m.watch) == JoinAll(all)
            && m.added == EarliestOf(all)
            && (Suppressed(m.watch) <==> AnySuppressed(all))
            && NewestCheckpoint(m.progress, all)
            && (duplicates != [] ==> ActiveRun(m.watch) == 0)
            && (duplicates != [] && m.watch.Some? ==> forall i :: 0 <= i < |all| ==> Revision(m.watch) > Revision(all[i].watch))
    decreases |duplicates|
  {
    if duplicates == [] {
      var all := [survivor] + duplicates;
      assert all[0] == survivor && all[1..] == duplicates;
      assert EarliestOf(duplicates) == None;
      assert AnySuppressed(all) <==> Suppressed(all[0].watch);
      assert survivor.progress.Some? ==> SameCheckpoint(survivor.progress, all[0].progress);
    } else {
      hide *;
      var d := duplicates[0];
      MergeAllFirst(survivor, duplicates);
      var m := MergePersonal(survivor, d).value;
      var few := [m] + duplicates[1..];
      MergeAllFollowsLaw(m, duplicates[1..]);
      JoinStep(survivor, d, m, duplicates);
      SuppressedStep(survivor, d, m, duplicates);
      CheckpointStep(survivor, d, m, duplicates, MergeAll(m, duplicates[1..]).value.progress);
      RevisionsStep(survivor, d, m, duplicates, MergeAll(m, duplicates[1..]).value);
    }
  }

  lemma MergeAllFirst(survivor: Personal, duplicates: seq<Personal>)
    requires duplicates != [] && Consistent(survivor) && Consistent(duplicates[0])
    ensures MergePersonal(survivor, duplicates[0]).Ok?
    ensures var d := duplicates[0]; var m := MergePersonal(survivor, d).value;
            && Consistent(m) && MergeAll(survivor, duplicates) == MergeAll(m, duplicates[1..])
            && (duplicates[1..] == [] ==> MergeAll(m, duplicates[1..]) == Ok(m))
            && StateOf(m.watch) == ReconcileWatch(StateOf(survivor.watch), StateOf(d.watch))
            && m.added == EarliestAdded(survivor.added, d.added) && ActiveRun(m.watch) == 0
            && (Suppressed(m.watch) <==> Suppressed(survivor.watch) || Suppressed(d.watch))
  {
    MergeFailsIff(survivor, duplicates[0]);
    MergeFollowsLaw(survivor, duplicates[0]);
    hide ReconcileWatch;
  }

  lemma JoinStep(survivor: Personal, d: Personal, m: Personal, duplicates: seq<Personal>)
    requires duplicates != [] && d == duplicates[0]
    requires StateOf(m.watch) == ReconcileWatch(StateOf(survivor.watch), StateOf(d.watch))
    requires m.added == EarliestAdded(survivor.added, d.added)
    ensures JoinAll([m] + duplicates[1..]) == JoinAll([survivor] + duplicates)
    ensures EarliestOf([m] + duplicates[1..]) == EarliestOf([survivor] + duplicates)
  {
    var few, all := [m] + duplicates[1..], [survivor] + duplicates;
    assert all[0] == survivor && all[1..] == duplicates && few[0] == m && few[1..] == duplicates[1..];
    JoinLaws(StateOf(survivor.watch), StateOf(d.watch), JoinAll(duplicates[1..]));
    hide ReconcileWatch;
  }

  lemma RevisionsStep(survivor: Personal, d: Personal, m: Personal, duplicates: seq<Personal>, q: Personal)
    requires duplicates != [] && d == duplicates[0] && MergePersonal(survivor, d) == Ok(m)
    requires var few := [m] + duplicates[1..];
             if duplicates[1..] == [] then q == m
             else ActiveRun(q.watch) == 0
                  && (q.watch.Some? ==> forall i :: 0 <= i < |few| ==> Revision(q.watch) > Revision(few[i].watch))
    ensures ActiveRun(q.watch) == 0
    ensures var all := [survivor] + duplicates;
            q.watch.Some? ==> forall i :: 0 <= i < |all| ==> Revision(q.watch) > Revision(all[i].watch)
  {
    var few, all := [m] + duplicates[1..], [survivor] + duplicates;
    RevisionsPassed(survivor, d, m, duplicates);
    hide MergePersonal, Revision, ActiveRun;
    if q.watch.Some? && duplicates[1..] != [] {
      assert Revision(q.watch) > Revision(few[0].watch);
      forall i | 0 <= i < |all| ensures Revision(q.watch) > Revision(all[i].watch) {
        assert i > 1 ==> all[i] == few[i - 1];
      }
    }
  }

  /** One merge passes both revisions, and later merges pass what is left. */
  lemma RevisionsPassed(survivor: Personal, d: Personal, m: Personal, duplicates: seq<Personal>)
    requires duplicates != [] && d == duplicates[0] && MergePersonal(survivor, d) == Ok(m)
    ensures m.watch.None? ==> Revision(survivor.watch) == 0 && Revision(d.watch) == 0
    ensures m.watch.Some? ==> Revision(m.watch) > Revision(survivor.watch) && Revision(m.watch) > Revision(d.watch)
    ensures ActiveRun(m.watch) == 0
    ensures var few, all := [m] + duplicates[1..], [survivor] + duplicates;
            forall i :: 1 < i < |all| ==> all[i] == few[i - 1]
    ensures ([survivor] + duplicates)[0] == survivor && ([survivor] + duplicates)[1] == d && ([m] + duplicates[1..])[0] == m
  {
  }

  lemma CheckpointStep(survivor: Personal, d: Personal, m: Personal, duplicates: seq<Personal>, c: Option<Progress>)
    requires duplicates != [] && d == duplicates[0] && MergePersonal(survivor, d) == Ok(m)
    requires NewestCheckpoint(c, [m] + duplicates[1..])
    ensures NewestCheckpoint(c, [survivor] + duplicates)
  {
    var few, all := [m] + duplicates[1..], [survivor] + duplicates;
    RevisionsPassed(survivor, d, m, duplicates);
    MergeKeepsMembershipAndCheckpoint(survivor, d);
    if c.Some? {
      var i :| 0 <= i < |few| && SameCheckpoint(c, few[i].progress);
      if i > 0 {
        assert all[i + 1] == few[i];
      }
    }
  }

  lemma SuppressedStep(survivor: Personal, d: Personal, m: Personal, duplicates: seq<Personal>)
    requires duplicates != [] && d == duplicates[0]
    requires Suppressed(m.watch) <==> Suppressed(survivor.watch) || Suppressed(d.watch)
    ensures AnySuppressed([m] + duplicates[1..]) <==> AnySuppressed([survivor] + duplicates)
  {
    var few, all := [m] + duplicates[1..], [survivor] + duplicates;
    if AnySuppressed(few) {
      var i :| 0 <= i < |few| && Suppressed(few[i].watch);
      assert i > 0 ==> all[i + 1] == few[i];
      assert all[0] == survivor && all[1] == d;
    }
    if AnySuppressed(all) {
      var i :| 0 <= i < |all| && Suppressed(all[i].watch);
      assert i > 1 ==> few[i - 1] == all[i];
      assert few[0] == m;
    }
  }

  /** The join of all inputs does not depend on the order in which duplicates are merged. */
  lemma {:induction false} JoinIgnoresOrder(a: seq<Personal>, b: seq<Personal>)
    requires multiset(a) == multiset(b)
    ensures JoinAll(a) == JoinAll(b) && EarliestOf(a) == EarliestOf(b)
    decreases |a|
  {
    if a == [] {
      if b != [] {
        NonemptyHasElement(b);
      }
    } else {
      var i := Counterpart(a, b);
      JoinIgnoresOrder(a[1..], b[..i] + b[i + 1..]);
      PullFront(b, i);
    }
  }

  lemma NonemptyHasElement<T>(s: seq<T>)
    requires s != []
    ensures multiset(s) != multiset([])
  {
    assert s[0] in multiset(s);
  }

  lemma MultisetWithout<T>(s: seq<T>, i: nat)
    requires i < |s|
    ensures multiset(s[..i] + s[i + 1..]) == multiset(s) - multiset{s[i]}
  {
    assert s == s[..i] + [s[i]] + s[i + 1..];
  }

  /** Where the first of a stands in a rearrangement b, and what is left of both. */
  lemma Counterpart<T>(a: seq<T>, b: seq<T>) returns (i: nat)
    requires a != [] && multiset(a) == multiset(b)
    ensures i < |b| && b[i] == a[0] && multiset(a[1..]) == multiset(b[..i] + b[i + 1..])
  {
    assert a[0] in multiset(a);
    assert a[0] in multiset(b);
    i :| 0 <= i < |b| && b[i] == a[0];
    MultisetWithout(a, 0);
    assert a[..0] + a[1..] == a[1..];
    MultisetWithout(b, i);
  }

  lemma {:induction false} PullFront(b: seq<Personal>, i: nat)
    requires i < |b|
    ensures JoinAll(b) == ReconcileWatch(StateOf(b[i].watch), JoinAll(b[..i] + b[i + 1..]))
    ensures EarliestOf(b) == EarliestAdded(b[i].added, EarliestOf(b[..i] + b[i + 1..]))
    decreases i
  {
    var rest := b[..i] + b[i + 1..];
    if i == 0 {
      assert rest == b[1..];
    } else {
      PullFront(b[1..], i - 1);
      assert rest[1..] == b[1..][..i - 1] + b[1..][i..];
      var tail := JoinAll(rest[1..]);
      JoinLaws(StateOf(b[0].watch), StateOf(b[i].watch), tail);
      JoinLaws(StateOf(b[i].watch), StateOf(b[0].watch), tail);
    }
  }

  // ----- The merge as the program does it -----

  /** The rows of two entities in the tables, updated in place. */
  class PersonalTables {
    var added: map<nat, int>
    var watch: map<nat, WatchRow>
    var progress: map<nat, Progress>

    function Rows(id: nat): Personal
      reads this
    {
      Personal(if id in added then Some(added[id]) else None,
               if id in watch then Some(watch[id]) else None,
               if id in progress then Some(progress[id]) else None)
    }

    constructor ()
      ensures forall id :: Rows(id) == Personal(None, None, None)
    {
      added, watch, progress := map[], map[], map[];
    }

    /** Sets the rows of an entity that has none. */
    method Place(id: nat, p: Personal)
      requires Rows(id) == Personal(None, None, None)
      modifies this
      ensures Rows(id) == p && forall other :: other != id ==> Rows(other) == old(Rows(other))
    {
      if p.added.Some? {
        added := added[id := p.added.value];
      }
      if p.watch.Some? {
        watch := watch[id := p.watch.value];
      }
      if p.progress.Some? {
        progress := progress[id := p.progress.value];
      }
    }

    /** Transfers the loser's rows; on an error the caller's transaction is rolled back. */
    method Merge(winner: nat, loser: nat) returns (r: Result<(), Error>)
      requires winner != loser
      modifies this
      ensures r.Ok? <==> MergePersonal(old(Rows(winner)), old(Rows(loser))).Ok?
      ensures r.Ok? ==>
                && Rows(winner) == MergePersonal(old(Rows(winner)), old(Rows(loser))).value
                && Rows(loser) == Personal(None, None, None)
                && forall id :: id != winner && id != loser ==> Rows(id) == old(Rows(id))
    {
      MergeMembership(winner, loser);
      MergeWatch(winner, loser);
      r := MergeProgress(winner, loser);
      if r.Ok? {
        watch := watch - {loser};
        forall id | id != winner && id != loser ensures Rows(id) == old(Rows(id)) {
          assert Rows(id).added == old(Rows(id)).added && Rows(id).watch == old(Rows(id)).watch;
        }
      }
    }

    method MergeMembership(winner: nat, loser: nat)
      requires winner != loser
      modifies this`added
      ensures loser !in added && forall id :: id != winner && id != loser ==> Rows(id).added == old(Rows(id)).added
      ensures Rows(winner).added == EarliestAdded(old(Rows(winner)).added, old(Rows(loser)).added)
    {
      if loser in added {
        added := added[winner := if winner in added then Min(added[winner], added[loser]) else added[loser]];
      }
      added := added - {loser};
    }

    method MergeWatch(winner: nat, loser: nat)
      requires winner != loser
      modifies this`watch
      ensures Rows(winner).watch == Revoked(Upserted(old(Rows(winner)).watch, old(Rows(loser)).watch), old(Rows(loser)).watch)
      ensures forall id :: id != winner ==> Rows(id).watch == old(Rows(id)).watch
    {
      if loser in watch {
        var l := watch[loser];
        if winner in watch {
          var w := watch[winner];
          watch := watch[winner := w.(watched := if l.updated > w.updated then l.watched
                                                 else if l.updated == w.updated then w.watched && l.watched
                                                 else w.watched,
                                      updated := Max(w.updated, l.updated))];
        } else {
          watch := watch[winner := WatchRow(l.watched, l.updated, 0, 0, false)];
        }
      }
      if winner in watch {
        var epoch := Max(watch[winner].revision, if loser in watch then watch[loser].revision else 0);
        var suppressed := watch[winner].suppressed || (loser in watch && watch[loser].suppressed);
        watch := watch[winner := watch[winner].(revision := epoch + 1, activeRun := 0, suppressed := suppressed)];
      }
    }

    method MergeProgress(winner: nat, loser: nat) returns (r: Result<(), Error>)
      requires winner != loser
      modifies this`progress
      ensures var latest := LatestProgress(old(Rows(winner)).progress, old(Rows(loser)).progress);
              && (r.Ok? <==> latest.None? || winner in watch)
              && (r.Ok? ==> Rows(winner).progress
                            == if latest.None? then None else Some(latest.value.(revision := watch[winner].revision)))
      ensures r.Ok? ==> loser !in progress && forall id :: id != winner && id != loser ==> Rows(id).progress == old(Rows(id)).progress
    {
      if loser in progress {
        var l := progress[loser];
        if winner !in progress {
          progress := progress[winner := l];
        } else if l.updated > progress[winner].updated {
          progress := progress[winner := Progress(l.position, l.duration, l.updated, progress[winner].revision)];
        }
      }
      if winner in progress {
        if winner !in watch {
          return Err(ProgressWithoutWatch);
        }
        progress := progress[winner := progress[winner].(revision := watch[winner].revision)];
      }
      progress := progress - {loser};
      return Ok(());
    }
  }
}
