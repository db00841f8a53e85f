/**
 The artwork store as the program keeps it, updated in place, and every run of its operations.
 Each method is proved to turn the old store into the one its specification function gives.
 */
module ArtworkLive {
  import opened Util
  import opened Lists
  import opened Artwork
  import opened ArtworkRuns
  import opened ArtworkTrim

  // ----- Iteration over sequences -----

  method Retain<T>(s: seq<T>, p: T -> bool) returns (kept: seq<T>)
    ensures kept == Filter(s, p)
  {
    kept := [];
    var i := 0;
    while i < |s|
      invariant i <= |s|
      invariant kept + Filter(s[i..], p) == Filter(s, p)
    {
      assert s[i..][1..] == s[i + 1..];
      if p(s[i]) {
        kept := kept + [s[i]];
      }
      i := i + 1;
    }
  }

  method Position<T>(s: seq<T>, p: T -> bool) returns (i: nat)
    ensures i == First(s, p)
  {
    i := 0;
    while i < |s| && !p(s[i])
      invariant i <= |s|
      invariant forall k :: 0 <= k < i ==> !p(s[k])
    {
      i := i + 1;
    }
  }

  method Tally<T>(s: seq<T>, p: T -> bool) returns (n: nat)
    ensures n == Count(s, p)
  {
    n := 0;
    var i := 0;
    while i < |s|
      invariant i <= |s|
      invariant n + Count(s[i..], p) == Count(s, p)
    {
      assert s[i..][1..] == s[i + 1..];
      if p(s[i]) {
        n := n + 1;
      }
      i := i + 1;
    }
  }

  method SumBytes(s: seq<Cached>, p: Cached -> bool) returns (n: nat)
    ensures n == Total(Filter(s, p))
  {
    n := 0;
    var i := 0;
    while i < |s|
      invariant i <= |s|
      invariant n + Total(Filter(s[i..], p)) == Total(Filter(s, p))
    {
      assert s[i..][1..] == s[i + 1..];
      if p(s[i]) {
        assert Filter(s[i..], p)[1..] == Filter(s[i + 1..], p);
        n := n + s[i].bytes;
      }
      i := i + 1;
    }
  }

  lemma PickPrefix(queue: seq<Job>, i: nat, active: seq<Job>, newest: Option<string>)
    requires i < |queue|
    ensures Pick(queue[..i + 1], active, newest)
         == match Pick(queue[..i], active, newest)
            case None => if Eligible(queue[i], active) then Some(i) else None
            case Some(k) =>
              if Eligible(queue[i], active) && Rank(queue[i], newest) > Rank(queue[k], newest) then Some(i) else Some(k)
  {
    assert queue[..i + 1][..i] == queue[..i];
  }

  lemma EvictBytesDone(cache: seq<Cached>, c: Class)
    requires ClassBytes(cache, c) <= Quota(c)
    ensures EvictBytes(cache, c) == (cache, [])
  {
  }

  lemma EvictCountDone(cache: seq<Cached>, still: bool)
    requires Count(cache, InGroup(still)) <= Limit(still)
    ensures EvictCount(cache, still) == (cache, [])
  {
  }

  lemma EvictBytesStep(cache: seq<Cached>, c: Class)
    requires ClassBytes(cache, c) > Quota(c)
    ensures var i := First(cache, OfClass(c));
            && i < |cache|
            && EvictBytes(cache, c).0 == EvictBytes(Remove(cache, i), c).0
            && EvictBytes(cache, c).1 == Picture(cache[i]) + EvictBytes(Remove(cache, i), c).1
  {
    SomeOfClass(cache, OfClass(c));
  }

  lemma EvictCountStep(cache: seq<Cached>, still: bool)
    requires Count(cache, InGroup(still)) > Limit(still)
    ensures var i := First(cache, InGroup(still));
            && i < |cache|
            && EvictCount(cache, still).0 == EvictCount(Remove(cache, i), still).0
            && EvictCount(cache, still).1 == Picture(cache[i]) + EvictCount(Remove(cache, i), still).1
  {
    SomeOfClass(cache, InGroup(still));
  }

  class ArtworkStore {
    var generations: map<string, nat>
    var queue: seq<Job>
    /** The jobs that hold a worker slot, one per id. */
    var active: seq<Job>
    var cache: seq<Cached>
    var next: nat
    var newest: Option<string>

    function Now(): Store
      reads this
    {
      Store(generations, queue, active, cache, next, newest)
    }

    constructor ()
      ensures Now() == NewStore()
    {
      generations, queue, active, cache, next, newest := map[], [], [], [], 0, None;
    }

    method Advance(owner: string) returns (generation: nat)
      modifies this
      ensures (Now(), generation) == AdvanceGeneration(old(Now()), owner)
    {
      if |owner| > OWNER_NAME || (owner !in generations && Owners(generations) >= OWNERS) {
        return 0;
      }
      generation := if owner in generations then generations[owner] + 1 else 1;
      generations := generations[owner := generation];
      queue := Retain(queue, NotOf(owner));
      cache := Retain(cache, IsImage());
      newest := Some(owner);
    }

    /** Gives up a queued job when the queue is full; false refuses the newcomer. */
    method Room(owner: string, interactive: bool) returns (admitted: bool)
      modifies this`queue
      ensures admitted == MakeRoom(old(Now()), owner, interactive).Some?
      ensures queue == if admitted then MakeRoom(old(Now()), owner, interactive).value else old(queue)
    {
      if |queue| >= QUEUED {
        var victim := Position(queue, Expendable(Now(), owner, interactive));
        if victim < |queue| {
          queue := Remove(queue, victim);
        } else if interactive {
          queue := queue[1..];
        } else {
          return false;
        }
      }
      return true;
    }

    method EnqueueWithPriority(now: nat, owner: string, generation: nat, key: Key, interactive: bool)
      modifies this`queue, this`cache, this`next
      ensures Now() == Enqueue(old(Now()), now, owner, generation, key, interactive)
    {
      cache := Retain(cache, Unexpired(now));
      var cached := Tally(cache, HasKey(key));
      var running := Tally(active, Wanted(key, owner, generation));
      if !Present(generations, owner, generation) || cached > 0 || running > 0 {
        return;
      }
      var i := Position(queue, Wanted(key, owner, generation));
      if i < |queue| {
        queue := queue[i := Promote(queue[i], interactive)];
        return;
      }
      var admitted := Room(owner, interactive);
      if !admitted {
        return;
      }
      next := next + 1;
      queue := queue + [Job(next, owner, generation, key, interactive)];
    }

    method Window(now: nat, owner: string, generation: nat, keys: seq<Key>)
      modifies this`queue, this`cache, this`next
      ensures Now() == ReplaceWindow(old(Now()), now, owner, generation, keys)
    {
      if !Present(generations, owner, generation) {
        return;
      }
      queue := Retain(queue, Kept(owner));
      var window := if |keys| <= QUEUED then keys else keys[..QUEUED];
      ghost var begun := Now();
      var i := 0;
      while i < |window|
        invariant i <= |window|
        invariant EnqueueAll(Now(), now, owner, generation, window[i..]) == EnqueueAll(begun, now, owner, generation, window)
      {
        assert window[i..][1..] == window[i + 1..];
        EnqueueWithPriority(now, owner, generation, window[i], false);
        i := i + 1;
      }
    }

    /** Index of the eligible job of highest priority, the earliest of equals. */
    method Best() returns (best: Option<nat>)
      ensures best == Pick(queue, active, newest)
    {
      best := None;
      var i := 0;
      while i < |queue|
        invariant i <= |queue|
        invariant best == Pick(queue[..i], active, newest)
      {
        PickPrefix(queue, i, active, newest);
        if Eligible(queue[i], active) {
          if best.None? || Rank(queue[i], newest) > Rank(queue[best.value], newest) {
            best := Some(i);
          }
        }
        i := i + 1;
      }
      assert queue[..i] == queue;
    }

    method Start() returns (job: Option<Job>)
      modifies this`queue, this`active
      ensures (Now(), job) == StartNext(old(Now()))
    {
      if |active| >= ACTIVE {
        return None;
      }
      queue := Retain(queue, Runnable(Now()));
      var best := Best();
      if best.None? {
        return None;
      }
      var j := queue[best.value];
      queue := Remove(queue, best.value);
      var others := Retain(active, OtherId(j.id));
      active := others + [j];
      return Some(j);
    }

    method Finish(job: Job, art: Art) returns (kept: bool)
      modifies this`active, this`cache
      ensures (Now(), kept) == Complete(old(Now()), job, art)
    {
      active := Retain(active, OtherId(job.id));
      if !Present(generations, job.owner, job.generation) {
        return false;
      }
      cache := cache + [Cached(job.key, art, Bytes(art))];
      return true;
    }

    /** The entry of a key, moved to the recent end. */
    method Use(key: Key) returns (art: Option<Art>)
      modifies this`cache
      ensures cache == Touch(old(cache), key) && art == Entry(old(cache), key)
    {
      var i := Position(cache, HasKey(key));
      if i >= |cache| {
        return None;
      }
      var entry := cache[i];
      cache := Remove(cache, i) + [entry];
      return Some(entry.art);
    }

    method Find(key: Key) returns (image: Option<nat>)
      modifies this`cache
      ensures (Now(), image) == Lookup(old(Now()), key)
    {
      var art := Use(key);
      image := match art case Some(Image(i, _)) => Some(i) case _ => None;
    }

    method FindSource(now: nat, key: Key) returns (art: Option<Art>)
      modifies this`cache
      ensures (Now(), art) == SourceOf(old(Now()), now, key)
    {
      cache := Retain(cache, Unexpired(now));
      art := Use(key.Source());
    }

    method EvictOver(c: Class) returns (evicted: seq<nat>)
      modifies this`cache
      ensures cache == EvictBytes(old(cache), c).0 && evicted == EvictBytes(old(cache), c).1
    {
      hide EvictBytes, EvictCount, Filter, Total, Quota, Limit, First;
      evicted := [];
      ghost var was := cache;
      var bytes := SumBytes(cache, OfClass(c));
      while bytes > Quota(c)
        invariant bytes == ClassBytes(cache, c)
        invariant EvictBytes(was, c).0 == EvictBytes(cache, c).0
        invariant EvictBytes(was, c).1 == evicted + EvictBytes(cache, c).1
        decreases |cache|
      {
        EvictBytesStep(cache, c);
        var i := Position(cache, OfClass(c));
        evicted := evicted + Picture(cache[i]);
        cache := Remove(cache, i);
        bytes := SumBytes(cache, OfClass(c));
      }
      EvictBytesDone(cache, c);
    }

    method EvictExcess(still: bool) returns (evicted: seq<nat>)
      modifies this`cache
      ensures cache == EvictCount(old(cache), still).0 && evicted == EvictCount(old(cache), still).1
    {
      hide EvictBytes, EvictCount, Filter, Total, Quota, Limit, First;
      evicted := [];
      ghost var was := cache;
      var entries := Tally(cache, InGroup(still));
      while entries > Limit(still)
        invariant entries == Count(cache, InGroup(still))
        invariant EvictCount(was, still).0 == EvictCount(cache, still).0
        invariant EvictCount(was, still).1 == evicted + EvictCount(cache, still).1
        decreases |cache|
      {
        EvictCountStep(cache, still);
        var i := Position(cache, InGroup(still));
        evicted := evicted + Picture(cache[i]);
        cache := Remove(cache, i);
        entries := Tally(cache, InGroup(still));
      }
      EvictCountDone(cache, still);
    }

    method TrimCache() returns (evicted: seq<nat>)
      modifies this`cache
      ensures (Now(), evicted) == TrimImages(old(Now()))
    {
      var posters := EvictOver(Posters);
      var backdrops := EvictOver(Backdrops);
      var stills := EvictOver(Stills);
      var blurred := EvictOver(Blurred);
      var entries := EvictExcess(false);
      var excess := EvictExcess(true);
      evicted := (posters + backdrops + stills + blurred) + entries + excess;
    }
  }

  // ----- Every run -----

  datatype Step =
    | Begin(owner: string)
    | Request(now: nat, requester: string, generation: nat, key: Key, interactive: bool)
    | Prefetches(at: nat, viewer: string, epoch: nat, keys: seq<Key>)
    | StartOne
    | FinishOne(slot: nat, art: Art)
    | LookUp(wanted: Key)
    | UseSource(when: nat, derived: Key)

  predicate Enabled(s: Store, step: Step) { step.FinishOne? ==> step.slot < |s.active| }

  /** A kept result is followed by trimming within the same update. */
  function FinishAndTrim(s: Store, j: Job, art: Art): Store {
    var (t, kept) := Complete(s, j, art);
    if kept then TrimImages(t).0 else t
  }

  function Next(s: Store, step: Step): Store
    requires Enabled(s, step)
  {
    match step
    case Begin(owner) => AdvanceGeneration(s, owner).0
    case Request(now, owner, generation, key, interactive) => Enqueue(s, now, owner, generation, key, interactive)
    case Prefetches(now, owner, generation, keys) => ReplaceWindow(s, now, owner, generation, keys)
    case StartOne => StartNext(s).0
    case FinishOne(slot, art) => FinishAndTrim(s, s.active[slot], art)
    case LookUp(key) => Lookup(s, key).0
    case UseSource(now, key) => SourceOf(s, now, key).0
  }

  predicate Possible(s: Store, steps: seq<Step>)
    decreases |steps|
  {
    steps != [] ==> Enabled(s, steps[0]) && Possible(Next(s, steps[0]), steps[1..])
  }

  function Run(s: Store, steps: seq<Step>): Store
    requires Possible(s, steps)
    decreases |steps|
  {
    if steps == [] then s else Run(Next(s, steps[0]), steps[1..])
  }

  lemma FinishInv(s: Store, j: Job, art: Art)
    requires StoreInv(s) && j in s.active
    ensures StoreInv(FinishAndTrim(s, j, art))
  {
    CompleteInv(s, j, art);
    var t := Complete(s, j, art).0;
    TrimConserves(t.cache);
    hide StoreInv, Trim;
    CacheShrinks(t, Trim(t.cache).0);
  }

  lemma StepInv(s: Store, step: Step)
    requires StoreInv(s) && Enabled(s, step)
    ensures StoreInv(Next(s, step))
  {
    hide StoreInv;
    match step {
      case Begin(owner) => AdvanceInv(s, owner);
      case Request(now, owner, generation, key, interactive) => EnqueueInv(s, now, owner, generation, key, interactive);
      case Prefetches(now, owner, generation, keys) => ReplaceWindowInv(s, now, owner, generation, keys);
      case StartOne => StartInv(s);
      case FinishOne(slot, art) => FinishInv(s, s.active[slot], art);
      case LookUp(key) => TouchInv(s, key);
      case UseSource(now, key) =>
        FilterCache(s, Unexpired(now));
        TouchInv(Expire(s, now), key.Source());
    }
  }

  lemma {:induction false} RunInv(s: Store, steps: seq<Step>)
    requires StoreInv(s) && Possible(s, steps)
    ensures StoreInv(Run(s, steps))
    decreases |steps|
  {
    hide StoreInv, Next, Enabled;
    if steps != [] {
      StepInv(s, steps[0]);
      RunInv(Next(s, steps[0]), steps[1..]);
    }
  }

  /** In every reachable store the bounds hold, a key has one entry at most, and no cached key is being fetched. */
  lemma Reachable(steps: seq<Step>, k: Key)
    requires Possible(NewStore(), steps)
    ensures var s := Run(NewStore(), steps);
            && |s.queue| <= QUEUED && |s.active| <= ACTIVE
            && Count(s.active, Prefetch()) <= ACTIVE - INTERACTIVE_RESERVED
            && Count(s.cache, HasKey(k)) + Count(s.active, OnKey(k)) <= 1
            && Count(s.active, OnSource(k)) <= 1
            && (forall j :: j in s.queue ==> Present(s.generations, j.owner, j.generation))
  {
    InitStore();
    RunInv(NewStore(), steps);
  }

  // ----- Obsolete epochs -----

  /** The job belongs to an epoch that has ended. */
  predicate Obsolete(s: Store, j: Job) { j.owner in s.generations && j.generation < s.generations[j.owner] }

  lemma {:induction false} EnqueueAllGenerations(s: Store, now: nat, owner: string, generation: nat, keys: seq<Key>)
    ensures EnqueueAll(s, now, owner, generation, keys).generations == s.generations
    decreases |keys|
  {
    if keys != [] {
      EnqueueAllGenerations(Enqueue(s, now, owner, generation, keys[0], false), now, owner, generation, keys[1..]);
    }
  }

  lemma StepKeepsObsolete(s: Store, step: Step, j: Job)
    requires Obsolete(s, j) && Enabled(s, step)
    ensures Obsolete(Next(s, step), j)
  {
    if step.Prefetches? {
      var window := if |step.keys| <= QUEUED then step.keys else step.keys[..QUEUED];
      EnqueueAllGenerations(s.(queue := Filter(s.queue, Kept(step.viewer))), step.at, step.viewer, step.epoch, window);
    }
  }

  /** Once a job's epoch has ended its result never enters the cache, whatever happens before it finishes. */
  lemma {:induction false} ObsoleteStaysOut(s: Store, steps: seq<Step>, j: Job, art: Art)
    requires Obsolete(s, j) && Possible(s, steps)
    ensures var t := Run(s, steps);
            !Complete(t, j, art).1 && Complete(t, j, art).0.cache == t.cache
    decreases |steps|
  {
    hide Next, Enabled;
    if steps != [] {
      StepKeepsObsolete(s, steps[0], j);
      ObsoleteStaysOut(Next(s, steps[0]), steps[1..], j, art);
    }
  }
}
