/** Remembered misses and the titles they are noted under: what each step does to a marker, and how long a note lasts. */
module MissScopes {
  import opened Util
  import opened MissLeases

  function At(d: Disk, p: Path): Option<Marker> { if p in d.markers then Some(d.markers[p]) else None }

  /** Writes the marker of this path. */
  predicate Writes(d: Disk, step: Step, p: Path) {
    step.WriteMiss? && step.holder < |d.holds| && d.holds[step.holder].path == p && d.holds[step.holder].lease !in d.cancelled
  }

  /** Removes the marker of this path: the end of its clear, its expiry, or a clear of a title it is noted under. */
  predicate Removes(d: Disk, step: Step, p: Path) {
    || (step.EndClear? && d.clearing == Some(p))
    || step == Expire(p)
    || (step.ClearScope? && p in d.markers && step.cleared in d.markers[p].scopes)
  }

  /**
   A marker is written afresh by a fetch whose lease is not cancelled, gone when its path is cleared, expires or a
   title it is noted under is cleared, noted under one more title when it is associated, and else as it was.
   */
  lemma MarkerExactly(d: Disk, step: Step, p: Path)
    requires Enabled(d, step)
    ensures At(Next(d, step), p)
         == if Writes(d, step, p) then Some(Marker(d.holds[step.holder].lease, {}))
            else if Removes(d, step, p) || p !in d.markers then None
            else if step.Associate? && step.marked == p
            then Some(Marker(d.markers[p].writer, d.markers[p].scopes + {step.scope}))
            else Some(d.markers[p])
  {
  }

  /** Noted under a title: the miss is remembered and goes when the title's misses are cleared. */
  predicate Noted(d: Disk, p: Path, title: Scope) { p in d.markers && title in d.markers[p].scopes }

  ghost predicate Undisturbed(d: Disk, steps: seq<Step>, p: Path)
    requires Possible(d, steps)
    decreases |steps|
  {
    steps != [] ==>
      !Writes(d, steps[0], p) && !Removes(d, steps[0], p) && Undisturbed(Next(d, steps[0]), steps[1..], p)
  }

  /** A note lasts as long as its marker is neither written again nor removed. */
  lemma {:induction false} NoteLasts(d: Disk, steps: seq<Step>, p: Path, title: Scope)
    requires Possible(d, steps) && Undisturbed(d, steps, p) && Noted(d, p, title)
    ensures Noted(Run(d, steps), p, title)
    decreases |steps|
  {
    hide Next, Enabled, Writes, Removes;
    if steps != [] {
      MarkerExactly(d, steps[0], p);
      NoteLasts(Next(d, steps[0]), steps[1..], p, title);
    }
  }

  /** A title that was not noted for a path since it was cleared is not noted for it. */
  lemma {:induction false} StaysUnnoted(d: Disk, steps: seq<Step>, p: Path, title: Scope)
    requires Possible(d, steps) && !Noted(d, p, title) && Associate(p, title) !in steps
    ensures !Noted(Run(d, steps), p, title)
    decreases |steps|
  {
    hide Next, Enabled, Writes, Removes;
    if steps != [] {
      MarkerExactly(d, steps[0], p);
      assert steps == [steps[0]] + steps[1..];
      StaysUnnoted(Next(d, steps[0]), steps[1..], p, title);
    }
  }

  /**
   Clearing the misses of a title removes exactly the markers noted under it; afterwards a marker is noted under
   it again only if somebody associates the two again.
   */
  lemma ClearedTitleIsForgotten(d: Disk, title: Scope, steps: seq<Step>, p: Path)
    requires Enabled(d, ClearScope(title)) && Possible(Next(d, ClearScope(title)), steps)
    ensures var t := Next(d, ClearScope(title));
            && (p in t.markers <==> p in d.markers && title !in d.markers[p].scopes)
            && (p in t.markers ==> t.markers[p] == d.markers[p])
            && (Associate(p, title) !in steps ==> !Noted(Run(t, steps), p, title))
  {
    MarkerExactly(d, ClearScope(title), p);
    if Associate(p, title) !in steps {
      StaysUnnoted(Next(d, ClearScope(title)), steps, p, title);
    }
  }

  /** A note of a remembered miss makes it go with the title, if nothing else befell it in between. */
  lemma NotedMissIsCleared(d: Disk, p: Path, title: Scope, steps: seq<Step>)
    requires Enabled(d, Associate(p, title)) && p in d.markers
    requires var noted := Next(d, Associate(p, title));
             Possible(noted, steps) && Undisturbed(noted, steps, p) && Enabled(Run(noted, steps), ClearScope(title))
    ensures var last := Run(Next(d, Associate(p, title)), steps);
            p in last.markers && p !in Next(last, ClearScope(title)).markers
  {
    MarkerExactly(d, Associate(p, title), p);
    var noted := Next(d, Associate(p, title));
    NoteLasts(noted, steps, p, title);
    MarkerExactly(Run(noted, steps), ClearScope(title), p);
    hide Run, Possible, Undisturbed, Next;
  }
}
