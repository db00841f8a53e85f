/** The UI's books on its commands, and an exact account of when an answer still counts. */
module AppTracker {
  import opened Util

  datatype Pending =
    | Load
    | Settings
    | Credential
    | Prepare
    | Play(remote: bool)
    | Release
    | Replay
    | Reveal
    | Cleanup

  datatype Books = Books(
    next: nat,
    pending: map<nat, Pending>,
    releases: map<nat, nat>,
    latestPrepare: nat,
    latestPlay: nat)

  datatype Resolved = Resolved(pending: Option<Pending>, release: Option<nat>, current: bool)

  function EmptyBooks(): Books { Books(0, map[], map[], 0, 0) }

  // ----- Operations -----

  /** The new command's generation is the new `next`. */
  function Issue(b: Books, p: Pending): Books {
    Books(b.next + 1, b.pending[b.next + 1 := p], b.releases,
          if p.Prepare? then b.next + 1 else b.latestPrepare,
          if p.Play? then b.next + 1 else b.latestPlay)
  }

  function IssueSession(b: Books, p: Pending, session: nat): Books {
    var issued := Issue(b, p);
    issued.(releases := issued.releases[issued.next := session])
  }

  function Cancel(b: Books, g: nat): Books {
    b.(latestPrepare := if b.latestPrepare == g then 0 else b.latestPrepare,
       latestPlay := if b.latestPlay == g then 0 else b.latestPlay)
  }

  function Withdraw(b: Books, g: nat): Books {
    b.(pending := b.pending - {g}, releases := b.releases - {g})
  }

  function Find<T>(m: map<nat, T>, g: nat): Option<T> { if g in m then Some(m[g]) else None }

  predicate NewerLoadPending(b: Books, g: nat) {
    exists other: nat :: other in b.pending && b.pending[other].Load? && other > g
  }

  /** Whether the answer to g should still be shown. */
  predicate Current(b: Books, g: nat) {
    match Find<Pending>(b.pending, g)
    case Some(Prepare) => g == b.latestPrepare
    case Some(Play(_)) => g == b.latestPlay
    case Some(Load) => !NewerLoadPending(b, g)
    case _ => true
  }

  function Resolution(b: Books, g: nat): Resolved {
    Resolved(Find(b.pending, g), Find(b.releases, g), Current(b, g))
  }

  /** A command that may be starting a stream is pending. */
  predicate LaunchPending(b: Books) {
    exists g: nat :: g in b.pending && (b.pending[g].Play? || b.pending[g].Replay?)
  }

  /** Preparations supersede preparations, launches supersede launches. */
  predicate SameKind(p: Pending, q: Pending) { (p.Prepare? && q.Prepare?) || (p.Play? && q.Play?) }

  /** Whether an earlier answer stays current when p is issued, and withdrawn again unless it is kept. */
  lemma IssueSupersedes(b: Books, t: Books, p: Pending, kept: bool, g: nat)
    requires g in b.pending && g <= b.next && Current(b, g)
    requires t.pending == if kept then b.pending[b.next + 1 := p] else b.pending
    requires t.latestPrepare == (if p.Prepare? then b.next + 1 else b.latestPrepare)
    requires t.latestPlay == (if p.Play? then b.next + 1 else b.latestPlay)
    ensures g in t.pending && t.pending[g] == b.pending[g]
    ensures Current(t, g) <==> !SameKind(p, b.pending[g]) && !(b.pending[g].Load? && p.Load? && kept)
  {
    if NewerLoadPending(t, g) && !(p.Load? && kept) {
      var other: nat :| other in t.pending && t.pending[other].Load? && other > g;
      assert other in b.pending && b.pending[other].Load?;
    }
    if p.Load? && kept {
      assert t.pending[b.next + 1].Load?;
    }
  }

  // ----- Histories -----

  datatype Op =
    | DoIssue(kind: Pending)
    | DoIssueSession(sessionKind: Pending, session: nat)
    | DoCancel(cancelled: nat)
    | DoWithdraw(withdrawn: nat)
    | DoResolve(resolved: nat)

  function Apply(b: Books, op: Op): Books {
    match op
    case DoIssue(p) => Issue(b, p)
    case DoIssueSession(p, session) => IssueSession(b, p, session)
    case DoCancel(g) => Cancel(b, g)
    case DoWithdraw(g) => Withdraw(b, g)
    case DoResolve(g) => Withdraw(b, g)
  }

  function ApplyAll(ops: seq<Op>): Books {
    if ops == [] then EmptyBooks() else Apply(ApplyAll(ops[..|ops| - 1]), ops[|ops| - 1])
  }

  function Issued(op: Op): Option<Pending> {
    match op
    case DoIssue(p) => Some(p)
    case DoIssueSession(p, _) => Some(p)
    case _ => None
  }

  /** Generation given out by the operation at an index: one more than all issued before it. */
  function GenerationAt(ops: seq<Op>, i: nat): nat
    requires i < |ops|
  {
    ApplyAll(ops[..i]).next + 1
  }

  /** The operation at i issued g for the kind, and nothing after it superseded or cancelled it. */
  predicate Standing(ops: seq<Op>, i: nat, g: nat, play: bool)
    requires i < |ops|
  {
    && OfKind(ops[i], play) && GenerationAt(ops, i) == g
    && forall j :: i < j < |ops| ==> !OfKind(ops[j], play) && ops[j] != DoCancel(g)
  }

  predicate OfKind(op: Op, play: bool) {
    Issued(op).Some? && if play then Issued(op).value.Play? else Issued(op).value.Prepare?
  }

  function Latest(b: Books, play: bool): nat { if play then b.latestPlay else b.latestPrepare }

  lemma {:induction false} NextGrows(ops: seq<Op>)
    ensures Latest(ApplyAll(ops), true) <= ApplyAll(ops).next
    ensures Latest(ApplyAll(ops), false) <= ApplyAll(ops).next
  {
    if ops != [] {
      NextGrows(ops[..|ops| - 1]);
    }
  }

  lemma StandingExtends(ops: seq<Op>, op: Op, i: nat, g: nat, play: bool)
    requires i < |ops|
    ensures Standing(ops + [op], i, g, play)
       <==> Standing(ops, i, g, play) && !OfKind(op, play) && op != DoCancel(g)
  {
    var more := ops + [op];
    assert more[..i] == ops[..i];
    assert more[|ops|] == op;
    assert forall j :: 0 <= j < |ops| ==> more[j] == ops[j];
  }

  /**
   A generation is the current preparation (or launch) exactly when it was issued as one and no
   later preparation was issued, accepted or refused, and it was not cancelled since.
   */
  lemma {:induction false} LatestIsStanding(ops: seq<Op>, g: nat, play: bool)
    requires g > 0
    ensures Latest(ApplyAll(ops), play) == g <==> exists i :: 0 <= i < |ops| && Standing(ops, i, g, play)
  {
    if ops != [] {
      var front, op := ops[..|ops| - 1], ops[|ops| - 1];
      assert ops == front + [op];
      assert ops[..|ops| - 1] == front;
      LatestIsStanding(front, g, play);
      NextGrows(front);
      forall i | 0 <= i < |front|
        ensures Standing(ops, i, g, play) <==> Standing(front, i, g, play) && !OfKind(op, play) && op != DoCancel(g)
      {
        StandingExtends(front, op, i, g, play);
      }
      if OfKind(op, play) {
        assert Standing(ops, |front|, ApplyAll(front).next + 1, play);
      }
    }
  }

  // ----- The tracker -----

  class Tracker {
    var next: nat
    var pending: map<nat, Pending>
    var releases: map<nat, nat>
    var latestPrepare: nat
    var latestPlay: nat

    function Current(): Books
      reads this
    {
      Books(next, pending, releases, latestPrepare, latestPlay)
    }

    constructor ()
      ensures Current() == EmptyBooks()
    {
      next, pending, releases, latestPrepare, latestPlay := 0, map[], map[], 0, 0;
    }

    method Register(p: Pending) returns (generation: nat)
      modifies this
      ensures Current() == Issue(old(Current()), p) && generation == next
    {
      next := next + 1;
      generation := next;
      match p {
        case Prepare => latestPrepare := generation;
        case Play(_) => latestPlay := generation;
        case _ =>
      }
      pending := pending[generation := p];
    }

    method RegisterSession(p: Pending, session: nat) returns (generation: nat)
      modifies this
      ensures Current() == IssueSession(old(Current()), p, session) && generation == next
    {
      generation := Register(p);
      releases := releases[generation := session];
    }

    method Dismiss(generation: nat)
      modifies this
      ensures Current() == Cancel(old(Current()), generation)
    {
      if latestPrepare == generation {
        latestPrepare := 0;
      }
      if latestPlay == generation {
        latestPlay := 0;
      }
    }

    method TakeBack(generation: nat)
      modifies this
      ensures Current() == Withdraw(old(Current()), generation)
    {
      pending := pending - {generation};
      releases := releases - {generation};
    }

    /** The entry is removed first; a load looks only at what is still pending. */
    method Resolve(generation: nat) returns (r: Resolved)
      modifies this
      ensures Current() == Withdraw(old(Current()), generation)
      ensures r == Resolution(old(Current()), generation)
    {
      var entry := Find<Pending>(pending, generation);
      var release := Find(releases, generation);
      ghost var was := Current();
      pending := pending - {generation};
      releases := releases - {generation};
      var current := true;
      match entry {
        case Some(Prepare) => current := generation == latestPrepare;
        case Some(Play(_)) => current := generation == latestPlay;
        case Some(Load) =>
          current := !exists g :: g in pending && pending[g] == Load && g > generation;
          assert current == !NewerLoadPending(was, generation) by {
            assert forall g: nat :: g > generation ==> (g in pending <==> g in was.pending);
          }
        case _ =>
      }
      r := Resolved(entry, release, current);
    }
  }
}
