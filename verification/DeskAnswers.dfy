/** What the UI finds in its books when an answer arrives: the kind of the command and the session it was about. */
module DeskAnswers {
  import opened Util
  import opened Mailbox
  import opened WorkerProtocol
  import opened WorkerScope
  import opened UiDesk
  import AppTracker

  /** The entry of a command of this kind. */
  predicate Names(entry: AppTracker.Pending, a: Action) {
    match entry
    case Load => a.LoadSettings?
    case Settings => a.SaveSettings?
    case Credential =>
      || a.SetCredential? || a.DeleteCredential? || a.TestCredential?
      || a.SetTmdbCredential? || a.DeleteTmdbCredential? || a.TestTmdbCredential?
    case Prepare => a.Prepare?
    case Play(remote) => if remote then a.PlayFile? else a.PlayLocal?
    case Release => a.ReleaseSession?
    case Replay => a.ReplaySession?
    case Reveal => a.RevealSession?
    case Cleanup => a.CleanupUnused?
  }

  /** The session a command is about, if it is about one. */
  predicate About(session: Option<nat>, a: Action) {
    if a.ReleaseSession? then session == Some(a.session)
    else if a.ReplaySession? then session == Some(a.replayed)
    else if a.RevealSession? then session == Some(a.revealed)
    else session == None
  }

  ghost predicate EntryKnown(b: AppTracker.Books, r: Request) {
    && 1 <= r.generation <= b.next
    && (r.generation in b.pending ==>
          Names(b.pending[r.generation], r.action) && About(AppTracker.Find(b.releases, r.generation), r.action))
  }

  ghost predicate LogKnown(d: Desk) {
    && (forall r :: r in d.system.log ==> EntryKnown(d.books, r))
    && (forall g :: g in d.books.pending || g in d.books.releases ==> g <= d.books.next)
  }

  lemma RegisteredKnown(b: AppTracker.Books, a: Action)
    requires b.next + 1 !in b.releases
    ensures var t, g := Registered(b, a), b.next + 1;
            && t.next == g && g in t.pending && Names(t.pending[g], a) && About(AppTracker.Find(t.releases, g), a)
            && t.pending.Keys == b.pending.Keys + {g} && t.releases.Keys <= b.releases.Keys + {g}
            && forall other :: other != g ==>
                 AppTracker.Find(t.pending, other) == AppTracker.Find(b.pending, other)
                 && AppTracker.Find(t.releases, other) == AppTracker.Find(b.releases, other)
  {
  }

  lemma CommandKnown(d: Desk, a: Action)
    requires LogKnown(d)
    ensures LogKnown(DoCommand(d, a))
  {
    var t, g := DoCommand(d, a), d.books.next + 1;
    assert g !in d.books.releases && g !in d.books.pending;
    CommandEntries(d, a);
    SubmitLogs(d.system, g, a);
    hide DoSubmit, Accepts, EntryKnown, DoCommand;
    forall r | r in t.system.log ensures EntryKnown(t.books, r) {
      if r in d.system.log {
        EntryStays(d.books, t.books, r);
      } else {
        NewEntryKnown(t.books, r, a);
      }
    }
  }

  /** Issuing a command leaves every other entry, and its own only if it is accepted. */
  lemma CommandEntries(d: Desk, a: Action)
    requires d.books.next + 1 !in d.books.releases && d.books.next + 1 !in d.books.pending
    ensures var t, g := DoCommand(d, a), d.books.next + 1;
            && t.books.next == g && t.system == DoSubmit(d.system, g, a)
            && t.books.pending.Keys <= d.books.pending.Keys + {g} && t.books.releases.Keys <= d.books.releases.Keys + {g}
            && (g in t.books.pending ==> Names(t.books.pending[g], a) && About(AppTracker.Find(t.books.releases, g), a))
            && forall other :: other != g ==>
                 AppTracker.Find(t.books.pending, other) == AppTracker.Find(d.books.pending, other)
                 && AppTracker.Find(t.books.releases, other) == AppTracker.Find(d.books.releases, other)
  {
    RegisteredKnown(d.books, a);
    hide DoSubmit, Accepts, Registered, Names, About;
  }

  lemma EntryStays(b: AppTracker.Books, t: AppTracker.Books, r: Request)
    requires EntryKnown(b, r) && t.next == b.next + 1
    requires forall other :: other != t.next ==>
               AppTracker.Find(t.pending, other) == AppTracker.Find(b.pending, other)
               && AppTracker.Find(t.releases, other) == AppTracker.Find(b.releases, other)
    ensures EntryKnown(t, r)
  {
    hide Names, About;
    assert AppTracker.Find(t.pending, r.generation) == AppTracker.Find(b.pending, r.generation);
  }

  lemma NewEntryKnown(t: AppTracker.Books, r: Request, a: Action)
    requires r.generation == t.next && r.action == a && t.next > 0
    requires t.next in t.pending ==> Names(t.pending[t.next], a) && About(AppTracker.Find(t.releases, t.next), a)
    ensures EntryKnown(t, r)
  {
    hide Names, About;
  }

  lemma SubmitLogs(s: System, g: nat, a: Action)
    ensures forall r :: r in DoSubmit(s, g, a).log ==> r in s.log || (Accepts(s.mail) && r.generation == g && r.action == a)
  {
  }

  lemma StepKeepsLog(s: System, step: Step)
    requires Enabled(s, step) && !step.UiSubmit?
    ensures Next(s, step).log == s.log
  {
  }

  lemma StepLogKnown(d: Desk, step: DeskStep)
    requires LogKnown(d) && DeskEnabled(d, step)
    ensures LogKnown(DeskNext(d, step))
  {
    match step {
      case Command(a) => CommandKnown(d, a);
      case Background(inner) =>
        StepKeepsLog(d.system, inner);
        hide Next, Enabled, EntryKnown;
      case _ =>
        hide CancelRequest, Poll, Names, About;
        var t := DeskNext(d, step);
        forall r | r in t.system.log ensures EntryKnown(t.books, r) {
          assert EntryKnown(d.books, r);
        }
    }
  }

  lemma {:induction false} RunLogKnown(d: Desk, steps: seq<DeskStep>)
    requires LogKnown(d) && DeskPossible(d, steps)
    ensures LogKnown(DeskRun(d, steps))
    decreases |steps|
  {
    hide LogKnown, DeskNext, DeskEnabled;
    if steps != [] {
      StepLogKnown(d, steps[0]);
      RunLogKnown(DeskNext(d, steps[0]), steps[1..]);
    }
  }

  /**
   Over every run: while the answer to an accepted command is outstanding, looking its generation up gives the
   kind of the command and the session it was about; unless it is a preparation, a launch or a load, it is shown.
   */
  lemma AnswerNamesItsCommand(steps: seq<DeskStep>, r: Request)
    requires DeskPossible(FreshDesk(), steps)
    requires var d := DeskRun(FreshDesk(), steps); r in d.system.log && r.generation in d.books.pending
    ensures var answer := AppTracker.Resolution(DeskRun(FreshDesk(), steps).books, r.generation);
            && answer.pending.Some? && Names(answer.pending.value, r.action)
            && About(answer.release, r.action)
            && (!r.action.Prepare? && !r.action.PlayFile? && !r.action.PlayLocal? && !r.action.LoadSettings? ==> answer.current)
  {
    assert LogKnown(FreshDesk());
    RunLogKnown(FreshDesk(), steps);
    hide DeskRun, DeskPossible;
    assert EntryKnown(DeskRun(FreshDesk(), steps).books, r);
  }

  /** The answer to a command is looked up once: applying it removes its entry and session, and no other. */
  lemma AppliedOnce(d: Desk)
    requires d.inbox != [] && ConsumesBudget(d.inbox[0].outcome)
    ensures var b, t, g := d.books, DeskNext(d, ApplyEvent).books, d.inbox[0].generation;
            && AppTracker.Find(t.pending, g) == None && AppTracker.Find(t.releases, g) == None
            && forall other :: other != g ==>
                 AppTracker.Find(t.pending, other) == AppTracker.Find(b.pending, other)
                 && AppTracker.Find(t.releases, other) == AppTracker.Find(b.releases, other)
  {
  }

  /** Giving a command up hides its answer if it is a preparation or a launch, and nothing else. */
  lemma AbandonHides(d: Desk, g: nat, other: nat)
    requires other in d.books.pending && other > 0
    ensures var t := DeskNext(d, Abandon(g)).books;
            && t.pending == d.books.pending && t.releases == d.books.releases
            && (AppTracker.Resolution(t, other).current <==>
                  AppTracker.Resolution(d.books, other).current
                  && !(other == g && (d.books.pending[other].Prepare? || d.books.pending[other].Play?)))
  {
    hide CancelRequest;
  }
}
