/**
 The byte budget of the artwork disk cache. Sizes are counted conservatively between scans:
 overwriting counts twice and removals are not subtracted, so the count never falls below what
 is on disk. A scan evicts oldest files first and makes the count exact again.
 */
module DiskBudget {
  import opened Util
  import opened Lists

  const MAX_U64: nat := 0xFFFF_FFFF_FFFF_FFFF
  const ENCODED: nat := 4 * 1024 * 1024
  const MISS_BYTES: nat := 20
  const MISSES: nat := 4096
  const WRITES: nat := 64
  const TRIM_SECONDS: nat := 60

  /** A file the cache owns: an image or a miss marker. */
  datatype File = File(name: string, miss: bool, size: nat, modified: nat)

  datatype TrimState = TrimState(bytes: Option<nat>, writes: nat, lastTrim: Option<nat>)

  function Bytes(files: seq<File>): nat { if files == [] then 0 else files[0].size + Bytes(files[1..]) }

  function MissOf(f: File): nat { if f.miss then 1 else 0 }

  function Misses(files: seq<File>): nat { if files == [] then 0 else MissOf(files[0]) + Misses(files[1..]) }

  function OfKind(miss: bool): File -> bool { (f: File) => f.miss == miss }

  // ----- Accounting between scans -----

  /** Counts a write; true when a scan is due. */
  function RecordWrite(t: TrimState, bytes: nat, budget: nat, now: nat): (TrimState, bool) {
    var counted := match t.bytes case Some(total) => Some(Min(MAX_U64, total + bytes)) case None => None;
    var more := TrimState(counted, t.writes + 1, t.lastTrim);
    (more,
     (counted.None? || counted.value > budget) || more.writes >= WRITES
     || t.lastTrim.None? || now - t.lastTrim.value >= TRIM_SECONDS)
  }

  function Trimmed(bytes: nat, now: nat): TrimState { TrimState(Some(bytes), 0, Some(now)) }

  // ----- A scan -----

  /** A scan keeps a file when both limits already hold, or when only the miss limit is exceeded and it is an image. */
  predicate Spared(f: File, total: int, misses: int, budget: nat) {
    total <= budget && (misses <= MISSES || !f.miss)
  }

  /** What a scan leaves, given the totals so far; a file that cannot be removed stays and still counts. */
  function Scan(files: seq<File>, total: int, misses: int, budget: nat, stuck: set<string>): seq<File> {
    if files == [] then []
    else if Spared(files[0], total, misses, budget) || files[0].name in stuck then
      [files[0]] + Scan(files[1..], total, misses, budget, stuck)
    else Scan(files[1..], total - files[0].size, misses - MissOf(files[0]), budget, stuck)
  }

  /** Files are visited oldest first. */
  function Trim(files: seq<File>, budget: nat, stuck: set<string>): seq<File> {
    Scan(files, Bytes(files), Misses(files), budget, stuck)
  }

  /** A scan never adds bytes or markers, and with every removal succeeding it ends within both limits. */
  lemma {:induction false} ScanWithinLimits(files: seq<File>, total: int, misses: int, budget: nat, stuck: set<string>)
    ensures var left := Scan(files, total, misses, budget, stuck);
            && Bytes(left) <= Bytes(files) && Misses(left) <= Misses(files)
            && (stuck == {} && total - Bytes(files) <= budget ==> total - Bytes(files) + Bytes(left) <= budget)
            && (stuck == {} && total - Bytes(files) <= budget && misses - Misses(files) <= MISSES ==>
                  misses - Misses(files) + Misses(left) <= MISSES)
    decreases |files|
  {
    if files != [] {
      var f := files[0];
      if Spared(f, total, misses, budget) || f.name in stuck {
        ScanWithinLimits(files[1..], total, misses, budget, stuck);
        assert Scan(files, total, misses, budget, stuck)[1..] == Scan(files[1..], total, misses, budget, stuck);
        if stuck == {} {
          ScanSpares(files[1..], total, misses, budget);
        }
      } else {
        ScanWithinLimits(files[1..], total - f.size, misses - MissOf(f), budget, stuck);
      }
    }
  }

  /** Once the bytes fit, no image goes; once the markers fit too, nothing does. */
  lemma {:induction false} ScanSpares(files: seq<File>, total: int, misses: int, budget: nat)
    requires total <= budget
    ensures var left := Scan(files, total, misses, budget, {});
            && Filter(left, OfKind(false)) == Filter(files, OfKind(false))
            && (misses <= MISSES ==> left == files)
            && (misses > MISSES ==> misses - Misses(files) + Misses(left) <= Max(MISSES, misses - Misses(files)))
    decreases |files|
  {
    if files != [] {
      if Spared(files[0], total, misses, budget) {
        ScanSpares(files[1..], total, misses, budget);
        assert Scan(files, total, misses, budget, {})[1..] == Scan(files[1..], total, misses, budget, {});
      } else {
        ScanSpares(files[1..], total - files[0].size, misses - MissOf(files[0]), budget);
      }
    }
  }

  /** Within each kind a scan removes the oldest: what is left of images, and of markers, is a suffix. */
  lemma {:induction false} ScanOldestFirst(files: seq<File>, total: int, misses: int, budget: nat,
                            miss: bool) returns (n: nat)
    ensures n <= Count(files, OfKind(miss))
    ensures Filter(Scan(files, total, misses, budget, {}), OfKind(miss)) == Filter(files, OfKind(miss))[n..]
    decreases |files|
  {
    var p := OfKind(miss);
    if files == [] {
      n := 0;
    } else {
      var f := files[0];
      if Spared(f, total, misses, budget) {
        n := 0;
        if misses <= MISSES || !miss {
          ScanSpares(files, total, misses, budget);
        } else {
          n := ScanOldestFirst(files[1..], total, misses, budget, miss);
          assert Scan(files, total, misses, budget, {})[1..] == Scan(files[1..], total, misses, budget, {});
        }
      } else {
        var m := ScanOldestFirst(files[1..], total - f.size, misses - MissOf(f), budget, miss);
        n := if p(f) then m + 1 else m;
      }
    }
  }

  // ----- The directory over time -----

  /** `files` lists what is on disk, oldest first. */
  datatype Dir = Dir(files: seq<File>, state: TrimState)

  function OtherName(name: string): File -> bool { (f: File) => f.name != name }

  function Removed(files: seq<File>, name: string): seq<File> { Filter(files, OtherName(name)) }

  /** A new file goes after everything at least as old. */
  function Placed(files: seq<File>, f: File): seq<File> {
    if files == [] || files[0].modified > f.modified then [f] + files else [files[0]] + Placed(files[1..], f)
  }

  /** Counting a write, then a scan if one is due: None when the scan fails, otherwise the files it cannot remove. */
  function Maintain(d: Dir, bytes: nat, budget: nat, now: nat, scan: Option<set<string>>): Dir {
    var (t, due) := RecordWrite(d.state, bytes, budget, now);
    if due && scan.Some? then
      var left := Trim(d.files, budget, scan.value);
      Dir(left, Trimmed(Bytes(left), now))
    else Dir(d.files, t)
  }

  datatype Step =
    | Write(file: File, now: nat, scan: Option<set<string>>)
    | Remove(name: string)
    | Touch(touched: string, modified: nat)

  /** An image over either size limit is not written. A marker holds at most twenty digits and is counted as twenty bytes. */
  predicate Writable(f: File, budget: nat) {
    if f.miss then f.size <= MISS_BYTES else f.size <= ENCODED && f.size <= budget
  }

  function Charge(f: File): nat { if f.miss then MISS_BYTES else f.size }

  function Retimed(f: File, modified: nat): File { f.(modified := modified) }

  function Next(d: Dir, step: Step, budget: nat): Dir {
    match step
    case Write(f, now, scan) =>
      if Writable(f, budget)
      then Maintain(d.(files := Placed(Removed(d.files, f.name), f)), Charge(f), budget, now, scan)
      else d
    case Remove(name) => d.(files := Removed(d.files, name))
    case Touch(name, modified) =>
      var i := First(d.files, (f: File) => f.name == name);
      if i < |d.files| then d.(files := Placed(Lists.Remove(d.files, i), Retimed(d.files[i], modified))) else d
  }

  function Run(d: Dir, steps: seq<Step>, budget: nat): Dir
    decreases |steps|
  {
    if steps == [] then d else Run(Next(d, steps[0], budget), steps[1..], budget)
  }

  lemma {:induction false} PlacedTotals(files: seq<File>, f: File)
    ensures Bytes(Placed(files, f)) == Bytes(files) + f.size && Misses(Placed(files, f)) == Misses(files) + MissOf(f)
  {
    var p := Placed(files, f);
    if files == [] || files[0].modified > f.modified {
      assert p[1..] == files;
    } else {
      PlacedTotals(files[1..], f);
      assert p[1..] == Placed(files[1..], f);
    }
  }

  lemma {:induction false} RemovedTotals(files: seq<File>, name: string)
    ensures Bytes(Removed(files, name)) <= Bytes(files) && Misses(Removed(files, name)) <= Misses(files)
  {
    if files != [] {
      RemovedTotals(files[1..], name);
      if files[0].name != name {
        assert Removed(files, name)[1..] == Removed(files[1..], name);
      }
    }
  }

  lemma {:induction false} TotalsAt(files: seq<File>, i: nat)
    requires i < |files|
    ensures Bytes(files) == Bytes(Lists.Remove(files, i)) + files[i].size
    ensures Misses(files) == Misses(Lists.Remove(files, i)) + MissOf(files[i])
  {
    if i == 0 {
      assert Lists.Remove(files, 0) == files[1..];
    } else {
      TotalsAt(files[1..], i - 1);
      assert Lists.Remove(files, i)[1..] == Lists.Remove(files[1..], i - 1);
    }
  }

  // ----- The count is never too low -----

  /** What is counted covers what is on disk. */
  predicate Covers(d: Dir) { d.state.bytes.Some? ==> Min(MAX_U64, Bytes(d.files)) <= d.state.bytes.value }

  lemma MaintainCovers(d: Dir, bytes: nat, more: nat, budget: nat, now: nat, scan: Option<set<string>>)
    requires d.state.bytes.Some? ==> Min(MAX_U64, Bytes(d.files)) <= d.state.bytes.value + more
    requires more <= bytes
    ensures Covers(Maintain(d, bytes, budget, now, scan))
  {
  }

  lemma StepCovers(d: Dir, step: Step, budget: nat)
    requires Covers(d)
    ensures Covers(Next(d, step, budget))
  {
    match step {
      case Write(f, now, scan) =>
        if Writable(f, budget) {
          var files := Placed(Removed(d.files, f.name), f);
          RemovedTotals(d.files, f.name);
          PlacedTotals(Removed(d.files, f.name), f);
          MaintainCovers(d.(files := files), Charge(f), f.size, budget, now, scan);
        }
      case Remove(name) => RemovedTotals(d.files, name);
      case Touch(name, modified) =>
        var i := First(d.files, (f: File) => f.name == name);
        if i < |d.files| {
          TotalsAt(d.files, i);
          PlacedTotals(Lists.Remove(d.files, i), Retimed(d.files[i], modified));
        }
    }
  }

  /** Whatever is on disk at the start, and whichever scans and removals fail, the count stays conservative. */
  lemma {:induction false} RunCovers(d: Dir, steps: seq<Step>, budget: nat)
    requires Covers(d)
    ensures Covers(Run(d, steps, budget))
    decreases |steps|
  {
    hide Covers, Next;
    if steps != [] {
      StepCovers(d, steps[0], budget);
      RunCovers(Next(d, steps[0], budget), steps[1..], budget);
    }
  }

  // ----- With scans that succeed, the limits hold after every write -----

  predicate Clean(step: Step) { step.Write? ==> step.scan == Some({}) }

  /** A state some scan has seen: within budget, and at most the writes since then above the marker limit. */
  predicate Kept(d: Dir, budget: nat) {
    && d.state.bytes.Some? && d.state.lastTrim.Some? && d.state.writes < WRITES
    && Bytes(d.files) <= d.state.bytes.value <= budget
    && Misses(d.files) <= MISSES + d.state.writes
  }

  lemma WriteKeeps(d: Dir, f: File, now: nat, budget: nat)
    requires budget < MAX_U64 && Writable(f, budget)
    requires d.state.bytes.None? || Kept(d, budget)
    ensures Kept(Next(d, Write(f, now, Some({})), budget), budget)
  {
    var files := Placed(Removed(d.files, f.name), f);
    RemovedTotals(d.files, f.name);
    PlacedTotals(Removed(d.files, f.name), f);
    ScanWithinLimits(files, Bytes(files), Misses(files), budget, {});
  }

  lemma StepKeeps(d: Dir, step: Step, budget: nat)
    requires budget < MAX_U64 && Clean(step)
    requires d.state.bytes.None? || Kept(d, budget)
    ensures var e := Next(d, step, budget); e.state.bytes.None? || Kept(e, budget)
  {
    match step {
      case Write(f, now, scan) =>
        if Writable(f, budget) {
          WriteKeeps(d, f, now, budget);
        }
      case Remove(name) => RemovedTotals(d.files, name);
      case Touch(name, modified) =>
        var i := First(d.files, (f: File) => f.name == name);
        if i < |d.files| {
          TotalsAt(d.files, i);
          PlacedTotals(Lists.Remove(d.files, i), Retimed(d.files[i], modified));
        }
    }
  }

  /**
   From any directory, if no scan fails, then after the first write the files stay within the
   byte budget and within 63 markers of the marker limit, although most writes do not scan.
   */
  lemma {:induction false} RunWithinBudget(d: Dir, steps: seq<Step>, budget: nat)
    requires budget < MAX_U64 && (d.state.bytes.None? || Kept(d, budget))
    requires forall i :: 0 <= i < |steps| ==> Clean(steps[i])
    ensures var e := Run(d, steps, budget);
            e.state.bytes.Some? ==> Bytes(e.files) <= budget && Misses(e.files) < MISSES + WRITES
    decreases |steps|
  {
    if steps != [] {
      StepKeeps(d, steps[0], budget);
      hide Kept, Next, Clean;
      RunWithinBudget(Next(d, steps[0], budget), steps[1..], budget);
    }
  }

  // ----- The counters as the program keeps them -----

  class Maintenance {
    var bytes: Option<nat>
    var writes: nat
    var lastTrim: Option<nat>

    function Now(): TrimState
      reads this
    {
      TrimState(bytes, writes, lastTrim)
    }

    constructor ()
      ensures Now() == TrimState(None, 0, None)
    {
      bytes, writes, lastTrim := None, 0, None;
    }

    method Record(size: nat, budget: nat, now: nat) returns (due: bool)
      modifies this`bytes, this`writes
      ensures (Now(), due) == RecordWrite(old(Now()), size, budget, now)
    {
      writes := writes + 1;
      if bytes.Some? {
        bytes := Some(Min(MAX_U64, bytes.value + size));
      }
      due := (bytes.None? || bytes.value > budget) || writes >= WRITES
             || lastTrim.None? || now - lastTrim.value >= TRIM_SECONDS;
    }

    method OnTrimmed(total: nat, now: nat)
      modifies this
      ensures Now() == Trimmed(total, now)
    {
      bytes, writes, lastTrim := Some(total), 0, Some(now);
    }
  }

  lemma {:induction false} ScanDone(files: seq<File>, total: int, misses: int, budget: nat, stuck: set<string>)
    requires total <= budget && misses <= MISSES
    ensures Scan(files, total, misses, budget, stuck) == files
  {
    if files != [] {
      ScanDone(files[1..], total, misses, budget, stuck);
    }
  }

  method Totals(files: seq<File>) returns (total: int, misses: int)
    ensures total == Bytes(files) && misses == Misses(files)
  {
    total, misses := 0, 0;
    var i := 0;
    while i < |files|
      invariant i <= |files| && total + Bytes(files[i..]) == Bytes(files) && misses + Misses(files[i..]) == Misses(files)
    {
      assert files[i..][1..] == files[i + 1..];
      total := total + files[i].size;
      misses := misses + MissOf(files[i]);
      i := i + 1;
    }
  }

  /** The scan: oldest first, stopping as soon as both limits hold. The total returned is what is left. */
  method TrimFiles(files: seq<File>, budget: nat, stuck: set<string>) returns (left: seq<File>, total: int)
    ensures left == Trim(files, budget, stuck) && total == Bytes(left)
  {
    var misses;
    total, misses := Totals(files);
    left := [];
    var i := 0;
    while i < |files|
      invariant i <= |files|
      invariant left + Scan(files[i..], total, misses, budget, stuck) == Trim(files, budget, stuck)
      invariant total == Bytes(left) + Bytes(files[i..])
    {
      assert files[i..][1..] == files[i + 1..];
      if total <= budget && misses <= MISSES {
        ScanDone(files[i..], total, misses, budget, stuck);
        BytesConcat(left, files[i..]);
        return left + files[i..], total;
      }
      if (total <= budget && !files[i].miss) || files[i].name in stuck {
        BytesConcat(left, [files[i]]);
        left := left + [files[i]];
      } else {
        total := total - files[i].size;
        misses := misses - MissOf(files[i]);
      }
      i := i + 1;
    }
  }

  lemma {:induction false} BytesConcat(a: seq<File>, b: seq<File>)
    ensures Bytes(a + b) == Bytes(a) + Bytes(b)
  {
    if a == [] {
      assert a + b == b;
    } else {
      assert (a + b)[1..] == a[1..] + b;
      BytesConcat(a[1..], b);
    }
  }
}
