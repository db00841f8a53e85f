/**
 Remembered misses on disk and the leases that guard them. A fetch holds a lease on its path
 and may write a miss marker only while the lease is not cancelled; clearing a path cancels its
 current lease and removes the marker under the disk lock. Acquiring a lease does not take the
 disk lock, so it may happen between the two halves of a clear.
 */
module MissLeases {
  import opened Util

  type Path = string

  type Scope = string

  type Lease = nat

  /** A strong reference: a lease lives while some fetch holds it. */
  datatype Hold = Hold(path: Path, lease: Lease)

  /** `writer` only records under which lease the marker was written. */
  datatype Marker = Marker(writer: Lease, scopes: set<Scope>)

  datatype Disk = Disk(
    leases: map<Path, Lease>,
    holds: seq<Hold>,
    cancelled: set<Lease>,
    markers: map<Path, Marker>,
    clearing: Option<Path>,
    next: Lease)

  datatype Step =
    | Acquire(wanted: Path)
    | Release(released: nat)
    | BeginClear(path: Path)
    | EndClear
    | WriteMiss(holder: nat)
    | Associate(marked: Path, scope: Scope)
    | ClearScope(cleared: Scope)
    | Expire(expired: Path)

  function Empty(): Disk { Disk(map[], [], {}, map[], None, 0) }

  // ----- Steps -----

  predicate Alive(holds: seq<Hold>, lease: Lease) { exists i :: 0 <= i < |holds| && holds[i].lease == lease }

  /** The registered leases that somebody still holds. */
  function Living(leases: map<Path, Lease>, holds: seq<Hold>): map<Path, Lease> {
    map q | q in leases && Alive(holds, leases[q]) :: leases[q]
  }

  /** Entries whose lease nobody holds are dropped first; a living lease is shared, otherwise a new one is issued. */
  function DoAcquire(d: Disk, p: Path): Disk {
    var living := Living(d.leases, d.holds);
    if p in living then d.(leases := living, holds := d.holds + [Hold(p, living[p])])
    else d.(leases := living[p := d.next], holds := d.holds + [Hold(p, d.next)], next := d.next + 1)
  }

  function DoRelease(d: Disk, i: nat): Disk
    requires i < |d.holds|
  {
    d.(holds := d.holds[..i] + d.holds[i + 1..])
  }

  /** First half of a clear: forget the lease and cancel it if it lives. */
  function DoBeginClear(d: Disk, p: Path): Disk {
    d.(clearing := Some(p), leases := d.leases - {p},
       cancelled := if p in d.leases && Alive(d.holds, d.leases[p]) then d.cancelled + {d.leases[p]} else d.cancelled)
  }

  /** Second half: remove the marker and let go of the disk lock. */
  function DoEndClear(d: Disk): Disk
    requires d.clearing.Some?
  {
    d.(markers := d.markers - {d.clearing.value}, clearing := None)
  }

  function DoWriteMiss(d: Disk, i: nat): Disk
    requires i < |d.holds|
  {
    var h := d.holds[i];
    if h.lease in d.cancelled then d else d.(markers := d.markers[h.path := Marker(h.lease, {})])
  }

  /** A title is noted on an existing marker only. */
  function DoAssociate(d: Disk, p: Path, scope: Scope): Disk {
    if p in d.markers then
      d.(markers := d.markers[p := Marker(d.markers[p].writer, d.markers[p].scopes + {scope})])
    else d
  }

  /** Every marker noted for a title goes; leases are not touched. */
  function DoClearScope(d: Disk, scope: Scope): Disk {
    d.(markers := map p | p in d.markers && scope !in d.markers[p].scopes :: d.markers[p])
  }

  /** Everything but acquiring and releasing runs under the disk lock. */
  predicate Enabled(d: Disk, step: Step) {
    match step
    case Acquire(_) => true
    case Release(i) => i < |d.holds|
    case EndClear => d.clearing.Some?
    case WriteMiss(i) => d.clearing.None? && i < |d.holds|
    case _ => d.clearing.None?
  }

  function Next(d: Disk, step: Step): Disk
    requires Enabled(d, step)
  {
    match step
    case Acquire(p) => DoAcquire(d, p)
    case Release(i) => DoRelease(d, i)
    case BeginClear(p) => DoBeginClear(d, p)
    case EndClear => DoEndClear(d)
    case WriteMiss(i) => DoWriteMiss(d, i)
    case Associate(p, scope) => DoAssociate(d, p, scope)
    case ClearScope(scope) => DoClearScope(d, scope)
    case Expire(p) => d.(markers := d.markers - {p})
  }

  predicate Possible(d: Disk, steps: seq<Step>)
    decreases |steps|
  {
    steps != [] ==> Enabled(d, steps[0]) && Possible(Next(d, steps[0]), steps[1..])
  }

  function Run(d: Disk, steps: seq<Step>): Disk
    requires Possible(d, steps)
    decreases |steps|
  {
    if steps == [] then d else Run(Next(d, steps[0]), steps[1..])
  }

  // ----- A living uncancelled lease is the registered one -----

  predicate HoldOk(d: Disk, h: Hold) {
    && h.lease < d.next
    && (h.lease in d.cancelled || (h.path in d.leases && d.leases[h.path] == h.lease))
  }

  ghost predicate LeaseInv(d: Disk) {
    && (forall i :: 0 <= i < |d.holds| ==> HoldOk(d, d.holds[i]))
    && (forall p, q :: p in d.leases && q in d.leases && p != q ==> d.leases[p] != d.leases[q])
    && (forall p :: p in d.leases ==> d.leases[p] < d.next && d.leases[p] !in d.cancelled)
    && (forall p :: p in d.markers ==> d.markers[p].writer < d.next)
    && (forall f :: f in d.cancelled ==> f < d.next)
  }

  lemma PruneKeeps(d: Disk)
    requires LeaseInv(d)
    ensures LeaseInv(d.(leases := Living(d.leases, d.holds)))
  {
    var e := d.(leases := Living(d.leases, d.holds));
    forall i | 0 <= i < |e.holds| ensures HoldOk(e, e.holds[i]) {
      assert HoldOk(d, d.holds[i]);
      assert Alive(d.holds, d.holds[i].lease);
    }
  }

  lemma IssueKeeps(d: Disk, p: Path)
    requires LeaseInv(d)
    ensures p !in d.leases ==>
              LeaseInv(d.(leases := d.leases[p := d.next], holds := d.holds + [Hold(p, d.next)], next := d.next + 1))
    ensures p in d.leases ==> LeaseInv(d.(holds := d.holds + [Hold(p, d.leases[p])]))
  {
  }

  lemma AcquireKeeps(d: Disk, p: Path)
    requires LeaseInv(d)
    ensures LeaseInv(DoAcquire(d, p))
  {
    var e := d.(leases := Living(d.leases, d.holds));
    PruneKeeps(d);
    IssueKeeps(e, p);
    hide LeaseInv, Living;
  }

  lemma BeginClearKeeps(d: Disk, p: Path)
    requires LeaseInv(d)
    ensures LeaseInv(DoBeginClear(d, p))
  {
    var t := DoBeginClear(d, p);
    forall i | 0 <= i < |t.holds| ensures HoldOk(t, t.holds[i]) {
      assert HoldOk(d, d.holds[i]);
      assert Alive(d.holds, d.holds[i].lease);
    }
  }

  lemma StepKeeps(d: Disk, step: Step)
    requires LeaseInv(d) && Enabled(d, step)
    ensures LeaseInv(Next(d, step))
  {
    match step {
      case Acquire(p) => AcquireKeeps(d, p);
      case BeginClear(p) => BeginClearKeeps(d, p);
      case Release(i) =>
        var t := DoRelease(d, i);
        forall k | 0 <= k < |t.holds| ensures HoldOk(t, t.holds[k]) {
          assert HoldOk(d, d.holds[if k < i then k else k + 1]);
        }
      case _ =>
        var t := Next(d, step);
        forall k | 0 <= k < |t.holds| ensures HoldOk(t, t.holds[k]) {
          assert HoldOk(d, d.holds[k]);
        }
    }
  }

  lemma {:induction false} RunKeeps(d: Disk, steps: seq<Step>)
    requires LeaseInv(d) && Possible(d, steps)
    ensures LeaseInv(Run(d, steps))
    decreases |steps|
  {
    hide LeaseInv, Next, Enabled;
    if steps != [] {
      StepKeeps(d, steps[0]);
      RunKeeps(Next(d, steps[0]), steps[1..]);
    }
  }

  lemma EmptyOk()
    ensures LeaseInv(Empty())
  {
  }

  /** In every reachable state, a held lease that is not cancelled is the one registered for its path. */
  lemma LivingLeaseIsRegistered(steps: seq<Step>, h: Hold)
    requires Possible(Empty(), steps)
    ensures var d := Run(Empty(), steps);
            h in d.holds && h.lease !in d.cancelled ==> h.path in d.leases && d.leases[h.path] == h.lease
  {
    EmptyOk();
    RunKeeps(Empty(), steps);
    var d := Run(Empty(), steps);
    if h in d.holds {
      var i :| 0 <= i < |d.holds| && d.holds[i] == h;
      assert HoldOk(d, d.holds[i]);
    }
  }

  // ----- A cleared miss stays cleared -----

  /** Leases on p issued before `bound` are cancelled and none of them is registered. */
  ghost predicate Revoked(d: Disk, p: Path, bound: Lease) {
    && bound <= d.next
    && (p in d.leases ==> d.leases[p] >= bound)
    && (forall i :: 0 <= i < |d.holds| && d.holds[i].path == p && d.holds[i].lease < bound ==> d.holds[i].lease in d.cancelled)
    && (d.clearing == Some(p) || (p in d.markers ==> d.markers[p].writer >= bound))
  }

  lemma BeginClearRevokes(d: Disk, p: Path)
    requires LeaseInv(d)
    ensures Revoked(DoBeginClear(d, p), p, d.next)
  {
    forall i | 0 <= i < |d.holds| && d.holds[i].path == p
      ensures d.holds[i].lease in DoBeginClear(d, p).cancelled
    {
      assert HoldOk(d, d.holds[i]);
      assert Alive(d.holds, d.holds[i].lease);
    }
  }

  lemma StepRevoked(d: Disk, step: Step, p: Path, bound: Lease)
    requires LeaseInv(d) && Enabled(d, step) && Revoked(d, p, bound)
    ensures Revoked(Next(d, step), p, bound)
  {
  }

  lemma {:induction false} RunRevoked(d: Disk, steps: seq<Step>, p: Path, bound: Lease)
    requires LeaseInv(d) && Possible(d, steps) && Revoked(d, p, bound)
    ensures Revoked(Run(d, steps), p, bound)
    decreases |steps|
  {
    hide LeaseInv, Revoked, Next, Enabled;
    if steps != [] {
      StepRevoked(d, steps[0], p, bound);
      StepKeeps(d, steps[0]);
      RunRevoked(Next(d, steps[0]), steps[1..], p, bound);
    }
  }

  /**
   However steps interleave after a clear of p begins, once its removal is done any marker found
   for p was written under a lease issued after the clear began.
   */
  lemma ClearedMissIsNotResurrected(before: seq<Step>, p: Path, later: seq<Step>)
    requires Possible(Empty(), before) && Enabled(Run(Empty(), before), BeginClear(p))
    requires Possible(DoBeginClear(Run(Empty(), before), p), later)
    ensures var d := Run(Empty(), before); var e := Run(DoBeginClear(d, p), later);
            e.clearing != Some(p) && p in e.markers ==> e.markers[p].writer >= d.next
  {
    EmptyOk();
    RunKeeps(Empty(), before);
    var d := Run(Empty(), before);
    BeginClearKeeps(d, p);
    BeginClearRevokes(d, p);
    RunRevoked(DoBeginClear(d, p), later, p, d.next);
  }

  // ----- What revokes a lease -----

  predicate Registered(d: Disk, p: Path, lease: Lease) { p in d.leases && d.leases[p] == lease }

  /** A lease nobody holds is never given out again. */
  lemma StepStaysDead(d: Disk, step: Step, lease: Lease)
    requires Enabled(d, step) && lease < d.next && !Alive(d.holds, lease)
    ensures lease < Next(d, step).next && !Alive(Next(d, step).holds, lease)
  {
  }

  lemma {:induction false} RunStaysDead(d: Disk, steps: seq<Step>, lease: Lease)
    requires Possible(d, steps) && lease < d.next && !Alive(d.holds, lease)
    ensures !Alive(Run(d, steps).holds, lease)
    decreases |steps|
  {
    hide Next, Enabled, Alive;
    if steps != [] {
      StepStaysDead(d, steps[0], lease);
      RunStaysDead(Next(d, steps[0]), steps[1..], lease);
    }
  }

  /** A registered lease that is still held is cancelled by a clear of its path and by nothing else. */
  lemma StepRegistered(d: Disk, step: Step, p: Path, lease: Lease)
    requires LeaseInv(d) && Enabled(d, step) && Registered(d, p, lease) && Alive(d.holds, lease)
    ensures step == BeginClear(p) ==> lease in Next(d, step).cancelled
    ensures step != BeginClear(p) ==> Registered(Next(d, step), p, lease)
  {
  }

  lemma {:induction false} StaysCancelled(d: Disk, steps: seq<Step>, lease: Lease)
    requires Possible(d, steps) && lease in d.cancelled
    ensures lease in Run(d, steps).cancelled
    decreases |steps|
  {
    if steps != [] {
      assert lease in Next(d, steps[0]).cancelled;
      StaysCancelled(Next(d, steps[0]), steps[1..], lease);
    }
  }

  lemma {:induction false} RegisteredUntilCleared(d: Disk, steps: seq<Step>, p: Path, lease: Lease)
    requires LeaseInv(d) && Possible(d, steps) && Registered(d, p, lease) && Alive(Run(d, steps).holds, lease)
    ensures lease in Run(d, steps).cancelled <==> BeginClear(p) in steps
    decreases |steps|
  {
    assert lease !in d.cancelled && lease < d.next;
    hide LeaseInv, Next, Enabled, Alive, Registered;
    if !Alive(d.holds, lease) {
      RunStaysDead(d, steps, lease);
    }
    if steps != [] {
      var rest := Next(d, steps[0]);
      StepRegistered(d, steps[0], p, lease);
      StepKeeps(d, steps[0]);
      assert steps == [steps[0]] + steps[1..];
      if steps[0] == BeginClear(p) {
        StaysCancelled(rest, steps[1..], lease);
      } else {
        RegisteredUntilCleared(rest, steps[1..], p, lease);
      }
    }
  }

  /**
   From any reachable state, over any run: a fetch that holds its lease throughout may write its miss
   exactly when no clear of its path began meanwhile. Clearing a title is no such clear, so a miss
   removed with its title is written again by a fetch that was running.
   */
  lemma MissIsWrittenUnlessCleared(before: seq<Step>, h: Hold, later: seq<Step>, i: nat)
    requires Possible(Empty(), before) && h in Run(Empty(), before).holds && h.lease !in Run(Empty(), before).cancelled
    requires Possible(Run(Empty(), before), later)
    requires var e := Run(Run(Empty(), before), later); Enabled(e, WriteMiss(i)) && e.holds[i] == h
    ensures var e := Run(Run(Empty(), before), later);
            h.lease in e.cancelled <==> BeginClear(h.path) in later
    ensures BeginClear(h.path) !in later ==>
              var t := DoWriteMiss(Run(Run(Empty(), before), later), i);
              h.path in t.markers && t.markers[h.path].writer == h.lease
    ensures BeginClear(h.path) in later ==>
              DoWriteMiss(Run(Run(Empty(), before), later), i) == Run(Run(Empty(), before), later)
  {
    EmptyOk();
    RunKeeps(Empty(), before);
    LivingLeaseIsRegistered(before, h);
    var d := Run(Empty(), before);
    var e := Run(d, later);
    hide LeaseInv, Run, Possible;
    assert Alive(e.holds, h.lease);
    RegisteredUntilCleared(d, later, h.path, h.lease);
  }

  /** Such a run from the empty cache: the title's misses are cleared and the marker is back. */
  lemma ClearedTitleReturns(p: Path, title: Scope) returns (steps: seq<Step>)
    ensures Possible(Empty(), steps) && Possible(Empty(), steps + [WriteMiss(0)])
    ensures ClearScope(title) in steps && p !in Run(Empty(), steps).markers
    ensures p in Run(Empty(), steps + [WriteMiss(0)]).markers
  {
    var first := Acquire(p);
    var written := [first, WriteMiss(0)];
    var noted := written + [Associate(p, title)];
    steps := noted + [ClearScope(title)];
    assert Next(Empty(), first).holds == [Hold(p, 0)];
    OneMore(Empty(), [], first);
    OneMore(Empty(), [first], WriteMiss(0));
    assert [] + [first] == [first] && [first] + [WriteMiss(0)] == written;
    OneMore(Empty(), written, Associate(p, title));
    OneMore(Empty(), noted, ClearScope(title));
    OneMore(Empty(), steps, WriteMiss(0));
  }

  lemma {:induction false} OneMore(d: Disk, steps: seq<Step>, last: Step)
    requires Possible(d, steps) && Enabled(Run(d, steps), last)
    ensures Possible(d, steps + [last]) && Run(d, steps + [last]) == Next(Run(d, steps), last)
    decreases |steps|
  {
    hide Next, Enabled;
    if steps == [] {
      assert ([] + [last])[1..] == [];
    } else {
      assert (steps + [last])[1..] == steps[1..] + [last];
      OneMore(Next(d, steps[0]), steps[1..], last);
    }
  }

  // ----- The cache as the program keeps it -----

  class DiskCache {
    var leases: map<Path, Lease>
    var holds: seq<Hold>
    var cancelled: set<Lease>
    var markers: map<Path, Marker>
    var clearing: Option<Path>
    var next: Lease

    function Now(): Disk
      reads this
    {
      Disk(leases, holds, cancelled, markers, clearing, next)
    }

    constructor ()
      ensures Now() == Empty()
    {
      leases, holds, cancelled, markers, clearing, next := map[], [], {}, map[], None, 0;
    }

    method MissLease(p: Path) returns (lease: Lease)
      modifies this`leases, this`holds, this`next
      ensures Now() == DoAcquire(old(Now()), p)
      ensures holds == old(holds) + [Hold(p, lease)]
    {
      leases := Living(leases, holds);
      if p in leases {
        lease := leases[p];
      } else {
        lease := next;
        leases := leases[p := lease];
        next := next + 1;
      }
      holds := holds + [Hold(p, lease)];
    }

    /** The halves of a clear; the disk lock is held in between. */
    method CancelLease(p: Path)
      requires clearing.None?
      modifies this`leases, this`cancelled, this`clearing
      ensures Now() == DoBeginClear(old(Now()), p)
    {
      clearing := Some(p);
      if p in leases {
        if Alive(holds, leases[p]) {
          cancelled := cancelled + {leases[p]};
        }
        leases := leases - {p};
      }
    }

    method RemoveMarker()
      requires clearing.Some?
      modifies this`markers, this`clearing
      ensures Now() == DoEndClear(old(Now()))
    {
      markers := markers - {clearing.value};
      clearing := None;
    }

    method Write(i: nat)
      requires clearing.None? && i < |holds|
      modifies this`markers
      ensures Now() == DoWriteMiss(old(Now()), i)
    {
      if holds[i].lease in cancelled {
        return;
      }
      markers := markers[holds[i].path := Marker(holds[i].lease, {})];
    }
  }
}
