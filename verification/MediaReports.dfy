/**
 Which errors of playback sessions are reported. Each live session remembers what it has reported;
 an error found again is not repeated, and one that finds the budget used up waits for a later tick.
 */
module MediaReports {
  import opened Util
  import opened Mailbox

  datatype Found = Found(session: nat, error: string)

  /** What each live session has reported. */
  type Reports = map<nat, set<string>>

  predicate Fresh(seen: Reports, f: Found) { f.session in seen && f.error !in seen[f.session] }

  predicate Known(seen: Reports, f: Found) { f.session in seen && f.error in seen[f.session] }

  function Note(seen: Reports, f: Found): Reports
    requires f.session in seen
  {
    seen[f.session := seen[f.session] + {f.error}]
  }

  function Tell(m: Mail, f: Found): Mail {
    m.(events := m.events + [Event(0, MediaFailed(f.session))], outstanding := m.outstanding + 1)
  }

  function Report(m: Mail, seen: Reports, found: seq<Found>): (Mail, Reports)
    decreases |found|
  {
    if found == [] || m.outstanding >= CAPACITY then (m, seen)
    else if Fresh(seen, found[0]) then Report(Tell(m, found[0]), Note(seen, found[0]), found[1..])
    else Report(m, seen, found[1..])
  }

  /** The errors that are told, in order. */
  function Told(m: Mail, seen: Reports, found: seq<Found>): seq<Found>
    decreases |found|
  {
    if found == [] || m.outstanding >= CAPACITY then []
    else if Fresh(seen, found[0]) then [found[0]] + Told(Tell(m, found[0]), Note(seen, found[0]), found[1..])
    else Told(m, seen, found[1..])
  }

  /** The errors as the mailbox sees them: session and whether it is unreported. */
  function Judged(m: Mail, seen: Reports, found: seq<Found>): seq<SessionError>
    decreases |found|
  {
    if found == [] || m.outstanding >= CAPACITY then []
    else if Fresh(seen, found[0]) then
      [SessionError(found[0].session, true)] + Judged(Tell(m, found[0]), Note(seen, found[0]), found[1..])
    else [SessionError(found[0].session, false)] + Judged(m, seen, found[1..])
  }

  lemma {:induction false} ReportIsQueue(m: Mail, seen: Reports, found: seq<Found>)
    ensures Report(m, seen, found).0 == QueueMediaErrors(m, Judged(m, seen, found))
    decreases |found|
  {
    if found != [] && m.outstanding < CAPACITY {
      assert Judged(m, seen, found)[1..]
          == if Fresh(seen, found[0]) then Judged(Tell(m, found[0]), Note(seen, found[0]), found[1..]) else Judged(m, seen, found[1..]);
      if Fresh(seen, found[0]) {
        ReportIsQueue(Tell(m, found[0]), Note(seen, found[0]), found[1..]);
      } else {
        ReportIsQueue(m, seen, found[1..]);
      }
    }
  }

  ghost predicate NoRepeats(fs: seq<Found>) { forall i, j :: 0 <= i < j < |fs| ==> fs[i] != fs[j] }

  /** Exactly what is told becomes known; it was new, is told once, and takes one budget slot each. */
  lemma {:induction false} ReportTells(m: Mail, seen: Reports, found: seq<Found>)
    ensures var told := Told(m, seen, found); var (n, more) := Report(m, seen, found);
            && more.Keys == seen.Keys
            && (forall f :: Known(more, f) <==> Known(seen, f) || f in told)
            && (forall f :: f in told ==> Fresh(seen, f) && f in found)
            && NoRepeats(told) && n.outstanding == m.outstanding + |told|
    ensures var (n, more) := Report(m, seen, found);
            n.outstanding < CAPACITY ==> forall f :: f in found && f.session in seen ==> Known(more, f)
    decreases |found|
  {
    if found != [] && m.outstanding < CAPACITY {
      if Fresh(seen, found[0]) {
        var rest := Told(Tell(m, found[0]), Note(seen, found[0]), found[1..]);
        ReportTells(Tell(m, found[0]), Note(seen, found[0]), found[1..]);
        NoteKnows(seen, found[0]);
        assert found[0] !in rest;
      } else {
        ReportTells(m, seen, found[1..]);
      }
      assert forall f :: f in found <==> f == found[0] || f in found[1..];
    }
  }

  lemma NoteKnows(seen: Reports, f: Found)
    requires f.session in seen
    ensures Note(seen, f).Keys == seen.Keys
    ensures forall g :: Known(Note(seen, f), g) <==> Known(seen, g) || g == f
    ensures forall g :: Fresh(Note(seen, f), g) <==> Fresh(seen, g) && g != f
  {
    forall g ensures Known(Note(seen, f), g) <==> Known(seen, g) || g == f {
      assert g == f <==> g.session == f.session && g.error == f.error;
    }
    forall g ensures Fresh(Note(seen, f), g) <==> Fresh(seen, g) && g != f {
      assert g == f <==> g.session == f.session && g.error == f.error;
    }
  }

  // ----- Over time -----

  /** Sessions start under identifiers never used before, and end; the mailbox may be in any state at a tick. */
  datatype Happening = Started(session: nat) | Ended(session: nat) | Ticked(mail: Mail, found: seq<Found>)

  function After(seen: Reports, h: Happening): Reports {
    match h
    case Started(session) => seen[session := {}]
    case Ended(session) => seen - {session}
    case Ticked(m, found) => Report(m, seen, found).1
  }

  function ToldBy(seen: Reports, h: Happening): seq<Found> { if h.Ticked? then Told(h.mail, seen, h.found) else [] }

  function Used(used: set<nat>, h: Happening): set<nat> { if h.Started? then used + {h.session} else used }

  predicate Possible(used: set<nat>, hs: seq<Happening>)
    decreases |hs|
  {
    hs != [] ==> (hs[0].Started? ==> hs[0].session !in used) && Possible(Used(used, hs[0]), hs[1..])
  }

  function AllTold(seen: Reports, hs: seq<Happening>): seq<Found>
    decreases |hs|
  {
    if hs == [] then [] else ToldBy(seen, hs[0]) + AllTold(After(seen, hs[0]), hs[1..])
  }

  /** An error told later is new to a live session, or its session starts later. */
  lemma {:induction false} ToldLaterIsNew(seen: Reports, used: set<nat>, hs: seq<Happening>, f: Found)
    requires Possible(used, hs) && seen.Keys <= used && f in AllTold(seen, hs)
    ensures Fresh(seen, f) || f.session !in used
    decreases |hs|
  {
    var now, later := ToldBy(seen, hs[0]), AllTold(After(seen, hs[0]), hs[1..]);
    var h := hs[0];
    if h.Ticked? {
      ReportTells(h.mail, seen, h.found);
    }
    if f !in now {
      assert f in later;
      assert After(seen, h).Keys <= Used(used, h);
      ToldLaterIsNew(After(seen, h), Used(used, h), hs[1..], f);
      if h.Ticked? && Fresh(After(seen, h), f) {
        assert !Known(After(seen, h), f);
      }
    }
  }

  /** Over every history of ticks, starts and ends, no error of a session is told twice. */
  lemma {:induction false} ToldOnce(seen: Reports, used: set<nat>, hs: seq<Happening>)
    requires Possible(used, hs) && seen.Keys <= used
    ensures NoRepeats(AllTold(seen, hs))
    decreases |hs|
  {
    if hs != [] {
      var h := hs[0];
      var now, later := ToldBy(seen, h), AllTold(After(seen, h), hs[1..]);
      if h.Ticked? {
        ReportTells(h.mail, seen, h.found);
      }
      ToldOnce(After(seen, h), Used(used, h), hs[1..]);
      forall f | f in now ensures f !in later {
        assert Known(After(seen, h), f);
        if f in later {
          ToldLaterIsNew(After(seen, h), Used(used, h), hs[1..], f);
        }
      }
      forall i, j | 0 <= i < j < |now + later| ensures (now + later)[i] != (now + later)[j] {
        if i < |now| <= j {
          assert now[i] in now && later[j - |now|] in later;
        }
      }
    }
  }
}
