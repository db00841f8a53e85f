/**
 Which files the artwork disk cache holds: each step said of the files themselves, when a scan is due,
 and what each file's turn in a scan decides.
 */
module DiskContents {
  import opened Util
  import opened Lists
  import opened DiskBudget

  /** Oldest first, and one file per name. */
  ghost predicate Ordered(files: seq<File>) {
    forall i, j :: 0 <= i < j < |files| ==> files[i].modified <= files[j].modified && files[i].name != files[j].name
  }

  lemma OrderedTail(files: seq<File>)
    requires Ordered(files) && files != []
    ensures Ordered(files[1..])
    ensures forall f :: f in files[1..] ==> files[0].modified <= f.modified && files[0].name != f.name
  {
  }

  lemma OrderedCons(f: File, files: seq<File>)
    requires Ordered(files) && forall g :: g in files ==> f.modified <= g.modified && f.name != g.name
    ensures Ordered([f] + files)
  {
  }

  lemma {:induction false} RemovedOrdered(files: seq<File>, name: string)
    requires Ordered(files)
    ensures Ordered(Removed(files, name))
    ensures forall f :: f in Removed(files, name) <==> f in files && f.name != name
  {
    forall f ensures f in Removed(files, name) <==> f in files && f.name != name {
      FilterMember(files, OtherName(name), f);
    }
    if files != [] {
      OrderedTail(files);
      RemovedOrdered(files[1..], name);
      if files[0].name != name {
        OrderedCons(files[0], Removed(files[1..], name));
      }
    }
  }

  lemma {:induction false} ScanOrdered(files: seq<File>, total: int, misses: int, budget: nat, stuck: set<string>)
    requires Ordered(files)
    ensures Ordered(Scan(files, total, misses, budget, stuck))
    ensures forall f :: f in Scan(files, total, misses, budget, stuck) ==> f in files
    decreases |files|
  {
    if files != [] {
      OrderedTail(files);
      if Spared(files[0], total, misses, budget) || files[0].name in stuck {
        ScanOrdered(files[1..], total, misses, budget, stuck);
        OrderedCons(files[0], Scan(files[1..], total, misses, budget, stuck));
      } else {
        ScanOrdered(files[1..], total - files[0].size, misses - MissOf(files[0]), budget, stuck);
      }
    }
  }

  /** The listing once a file is there with these contents: behind every file that is not newer. */
  ghost predicate Holds(before: seq<File>, after: seq<File>, f: File) {
    && Ordered(after)
    && (forall g :: g in after <==> g == f || (g in before && g.name != f.name))
    && (forall i, j :: 0 <= i < j < |after| && after[i] == f ==> after[j].modified > f.modified)
  }

  lemma {:induction false} PlacedHolds(files: seq<File>, f: File)
    requires Ordered(files) && forall g :: g in files ==> g.name != f.name
    ensures Holds(files, Placed(files, f), f)
  {
    var after := Placed(files, f);
    if files == [] || files[0].modified > f.modified {
      if files != [] {
        OrderedTail(files);
      }
      OrderedCons(f, files);
      forall j | 0 < j < |after| ensures after[j].modified > f.modified {
        assert after[j] == files[j - 1];
      }
    } else {
      OrderedTail(files);
      PlacedHolds(files[1..], f);
      HoldsCons(files[0], files[1..], Placed(files[1..], f), f);
      assert files == [files[0]] + files[1..];
    }
  }

  lemma HoldsCons(first: File, before: seq<File>, after: seq<File>, f: File)
    requires Holds(before, after, f) && first.modified <= f.modified && first.name != f.name
    requires forall g :: g in before ==> first.modified <= g.modified && first.name != g.name
    ensures Holds([first] + before, [first] + after, f)
  {
    OrderedCons(first, after);
    hide Ordered;
    assert forall j :: 0 < j <= |after| ==> ([first] + after)[j] == after[j - 1];
  }

  // ----- When a scan is due -----

  /** Without a count, over budget, after 64 writes, never scanned, or a minute after the last scan. */
  predicate Due(t: TrimState, charge: nat, budget: nat, now: nat) {
    || t.bytes.None? || t.lastTrim.None? || t.writes >= 63
    || (t.bytes.value + charge > budget && budget < MAX_U64)
    || now >= t.lastTrim.value + 60
  }

  /** The next count of bytes, which stops at the largest number rather than wrapping around. */
  function Counted(t: TrimState, charge: nat): Option<nat> {
    if t.bytes.None? then None
    else if t.bytes.value + charge <= MAX_U64 then Some(t.bytes.value + charge) else Some(MAX_U64)
  }

  lemma DueExactly(t: TrimState, charge: nat, budget: nat, now: nat)
    requires budget <= MAX_U64
    ensures RecordWrite(t, charge, budget, now)
         == (TrimState(Counted(t, charge), t.writes + 1, t.lastTrim), Due(t, charge, budget, now))
  {
  }

  // ----- Steps -----

  /** Markers are tiny and always count as twenty bytes; images may have four MiB and no more than the budget. */
  predicate Fits(f: File, budget: nat) { if f.miss then f.size <= 20 else f.size <= 4_194_304 && f.size <= budget }

  /**
   A file that fits replaces the one of its name; if a scan is then due and can be made it scans exactly these
   files and starts the count from what it leaves, otherwise the write is counted. Any other file changes nothing.
   */
  lemma WriteExactly(d: Dir, f: File, now: nat, scan: Option<set<string>>, budget: nat)
    requires Ordered(d.files) && budget <= MAX_U64
    ensures var t := Next(d, Write(f, now, scan), budget);
            var charge := if f.miss then 20 else f.size;
            if !Fits(f, budget) then t == d
            else exists written :: Holds(d.files, written, f)
                   && t == if Due(d.state, charge, budget, now) && scan.Some?
                           then Dir(Trim(written, budget, scan.value),
                                    TrimState(Some(Bytes(Trim(written, budget, scan.value))), 0, Some(now)))
                           else Dir(written, TrimState(Counted(d.state, charge), d.state.writes + 1, d.state.lastTrim))
  {
    var removed := Removed(d.files, f.name);
    RemovedOrdered(d.files, f.name);
    PlacedHolds(removed, f);
    assert Holds(d.files, Placed(removed, f), f);
    DueExactly(d.state, if f.miss then 20 else f.size, budget, now);
    hide Trim, RecordWrite, Placed, Removed, Holds, Due;
  }

  /** Removing a name removes its file, and touching it gives its file a new time and place; nothing else changes. */
  lemma OtherStepsExactly(d: Dir, step: Step, budget: nat)
    requires Ordered(d.files) && !step.Write?
    ensures var t := Next(d, step, budget);
            && t.state == d.state && Ordered(t.files)
            && match step
               case Write(_, _, _) => true
               case Remove(name) => forall g :: g in t.files <==> g in d.files && g.name != name
               case Touch(name, modified) =>
                 if forall g :: g in d.files ==> g.name != name then t == d
                 else exists g :: g in d.files && g.name == name && Holds(d.files, t.files, g.(modified := modified))
  {
    match step {
      case Write(_, _, _) =>
      case Remove(name) => RemovedOrdered(d.files, name);
      case Touch(name, modified) => TouchExactly(d.files, name, modified);
    }
  }

  lemma TouchExactly(files: seq<File>, name: string, modified: nat)
    requires Ordered(files)
    ensures var i := First(files, (f: File) => f.name == name);
            if i < |files|
            then files[i] in files && files[i].name == name
                 && Holds(files, Placed(Lists.Remove(files, i), Retimed(files[i], modified)), files[i].(modified := modified))
            else forall g :: g in files ==> g.name != name
  {
    var i := First(files, (f: File) => f.name == name);
    if i < |files| {
      WithoutOne(files, i);
      PlacedHolds(Lists.Remove(files, i), Retimed(files[i], modified));
      hide Ordered, Placed, Lists.Remove, Holds;
      var others, f := Lists.Remove(files, i), Retimed(files[i], modified);
      SameOthers(others, files, Placed(others, f), f);
    }
  }

  lemma SameOthers(some: seq<File>, before: seq<File>, after: seq<File>, f: File)
    requires Holds(some, after, f) && forall g :: g in some <==> g in before && g.name != f.name
    ensures Holds(before, after, f)
  {
    hide Ordered;
  }

  lemma WithoutOne(files: seq<File>, i: nat)
    requires Ordered(files) && i < |files|
    ensures Ordered(Lists.Remove(files, i))
    ensures forall g :: g in Lists.Remove(files, i) <==> g in files && g.name != files[i].name
  {
    var rest := Lists.Remove(files, i);
    assert forall k :: 0 <= k < |rest| ==> rest[k] == files[if k < i then k else k + 1];
    forall g ensures g in rest <==> g in files && g.name != files[i].name {
      RemoveMember(files, i, g);
    }
  }

  lemma StepOrdered(d: Dir, step: Step, budget: nat)
    requires Ordered(d.files)
    ensures Ordered(Next(d, step, budget).files)
  {
    match step {
      case Write(f, now, scan) =>
        RemovedOrdered(d.files, f.name);
        PlacedHolds(Removed(d.files, f.name), f);
        var written := Placed(Removed(d.files, f.name), f);
        if scan.Some? {
          ScanOrdered(written, Bytes(written), Misses(written), budget, scan.value);
        }
        hide Placed, Removed, Scan, Ordered, RecordWrite;
      case _ => OtherStepsExactly(d, step, budget);
    }
  }

  /** Over every run the listing is in order, oldest first, with one file per name. */
  lemma {:induction false} AlwaysOrdered(d: Dir, steps: seq<Step>, budget: nat)
    requires Ordered(d.files)
    ensures Ordered(Run(d, steps, budget).files)
    decreases |steps|
  {
    hide Ordered, Next;
    if steps != [] {
      StepOrdered(d, steps[0], budget);
      AlwaysOrdered(Next(d, steps[0], budget), steps[1..], budget);
    }
  }

  // ----- A scan, turn by turn -----

  /** What is on disk when a scan comes to the file at an index. */
  function AtTurn(files: seq<File>, budget: nat, stuck: set<string>, i: nat): seq<File>
    requires i <= |files|
  {
    Scan(files[..i], Bytes(files), Misses(files), budget, stuck) + files[i..]
  }

  /** A scan of two stretches goes on with what the first left. */
  lemma {:induction false} ScanConcat(a: seq<File>, b: seq<File>, total: int, misses: int, budget: nat, stuck: set<string>)
    ensures var left := Scan(a, total, misses, budget, stuck);
            Scan(a + b, total, misses, budget, stuck)
            == left + Scan(b, total - Bytes(a) + Bytes(left), misses - Misses(a) + Misses(left), budget, stuck)
    decreases |a|
  {
    hide Spared;
    if a == [] {
      assert a + b == b;
    } else {
      var f, rest := a[0], a[1..];
      assert (a + b)[1..] == rest + b && (a + b)[0] == f;
      if Spared(f, total, misses, budget) || f.name in stuck {
        ScanConcat(rest, b, total, misses, budget, stuck);
        var left := Scan(rest, total, misses, budget, stuck);
        assert ([f] + left)[1..] == left;
      } else {
        ScanConcat(rest, b, total - f.size, misses - MissOf(f), budget, stuck);
      }
    }
  }

  lemma ScanNext(files: seq<File>, total: int, misses: int, budget: nat, stuck: set<string>, i: nat)
    requires i < |files|
    ensures var before := Scan(files[..i], total, misses, budget, stuck);
            var bytes := total - Bytes(files[..i]) + Bytes(before);
            var markers := misses - Misses(files[..i]) + Misses(before);
            Scan(files[..i + 1], total, misses, budget, stuck)
            == before + if Spared(files[i], bytes, markers, budget) || files[i].name in stuck then [files[i]] else []
  {
    hide Spared, Bytes, Misses;
    assert files[..i + 1] == files[..i] + [files[i]];
    ScanConcat(files[..i], [files[i]], total, misses, budget, stuck);
    ScanOne(files[i], total - Bytes(files[..i]) + Bytes(Scan(files[..i], total, misses, budget, stuck)),
            misses - Misses(files[..i]) + Misses(Scan(files[..i], total, misses, budget, stuck)), budget, stuck);
    hide Scan;
  }

  lemma ScanOne(f: File, total: int, misses: int, budget: nat, stuck: set<string>)
    ensures Scan([f], total, misses, budget, stuck) == if Spared(f, total, misses, budget) || f.name in stuck then [f] else []
  {
    assert [f][1..] == [];
    hide Spared;
  }

  lemma {:induction false} TotalsConcat(a: seq<File>, b: seq<File>)
    ensures Bytes(a + b) == Bytes(a) + Bytes(b) && Misses(a + b) == Misses(a) + Misses(b)
  {
    if a == [] {
      assert a + b == b;
    } else {
      assert (a + b)[1..] == a[1..] + b;
      TotalsConcat(a[1..], b);
    }
  }

  lemma TurnShape(before: seq<File>, files: seq<File>, i: nat)
    requires i < |files|
    ensures var now := before + files[i..];
            && |now| - (|files| - i) == |before| && now[|before|] == files[i]
            && forall gone: bool :: Left(before, files, i, gone) == if gone then Lists.Remove(now, |before|) else now
  {
    assert files[i..] == [files[i]] + files[i + 1..];
  }

  /** What is left of the files before and from an index on, with the one there or without it. */
  function Left(before: seq<File>, files: seq<File>, i: nat, gone: bool): seq<File>
    requires i < |files|
  {
    before + (if gone then [] else [files[i]]) + files[i + 1..]
  }

  /** What is on disk at a turn: the totals the scan keeps are those of the files still there. */
  lemma TurnTotals(files: seq<File>, before: seq<File>, i: nat)
    requires i <= |files|
    ensures Bytes(before + files[i..]) == Bytes(files) - Bytes(files[..i]) + Bytes(before)
    ensures Misses(before + files[i..]) == Misses(files) - Misses(files[..i]) + Misses(before)
  {
    assert files[..i] + files[i..] == files;
    TotalsConcat(files[..i], files[i..]);
    TotalsConcat(before, files[i..]);
    hide Bytes, Misses;
  }

  lemma TurnEnds(files: seq<File>, budget: nat, stuck: set<string>)
    ensures AtTurn(files, budget, stuck, 0) == files && AtTurn(files, budget, stuck, |files|) == Trim(files, budget, stuck)
  {
    assert files[..0] == [] && files[0..] == files && files[..|files|] == files && files[|files|..] == [];
    hide Bytes, Misses;
  }

  /**
   A scan comes to each file in turn, the oldest first, and removes it exactly if what is on disk then is over
   the byte budget, or it is a marker and there are more than 4096 of them; a file that cannot be removed stays.
   */
  lemma EachTurn(files: seq<File>, budget: nat, stuck: set<string>, i: nat)
    requires i < |files|
    ensures var now := AtTurn(files, budget, stuck, i); var k := |now| - (|files| - i);
            && 0 <= k < |now| && now[k] == files[i]
            && AtTurn(files, budget, stuck, i + 1)
               == if (Bytes(now) > budget || (files[i].miss && Misses(now) > 4096)) && files[i].name !in stuck
                  then Lists.Remove(now, k) else now
    ensures AtTurn(files, budget, stuck, 0) == files
    ensures AtTurn(files, budget, stuck, |files|) == Trim(files, budget, stuck)
  {
    hide *;
    TurnEnds(files, budget, stuck);
    var before := Scan(files[..i], Bytes(files), Misses(files), budget, stuck);
    TurnsAre(files, budget, stuck, i);
    TurnTotals(files, before, i);
    TurnShape(before, files, i);
  }

  lemma TurnsAre(files: seq<File>, budget: nat, stuck: set<string>, i: nat)
    requires i < |files|
    ensures var before := Scan(files[..i], Bytes(files), Misses(files), budget, stuck);
            var bytes := Bytes(files) - Bytes(files[..i]) + Bytes(before);
            var markers := Misses(files) - Misses(files[..i]) + Misses(before);
            && AtTurn(files, budget, stuck, i) == before + files[i..]
            && AtTurn(files, budget, stuck, i + 1)
               == Left(before, files, i, (bytes > budget || (files[i].miss && markers > 4096)) && files[i].name !in stuck)
  {
    ScanNext(files, Bytes(files), Misses(files), budget, stuck, i);
    hide Scan, Bytes, Misses;
  }
}
