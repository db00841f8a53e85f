/**
 What the artwork store keeps over every run: bounds on queue and slots, a cache that is a
 function of its keys and disjoint from running work, distinct sources in flight, and queued
 jobs of the current epoch only. Plus what one scheduling decision guarantees.
 */
module ArtworkRuns {
  import opened Util
  import opened Lists
  import opened Artwork

  // ----- The invariant -----

  predicate Bounded(s: Store) {
    |s.queue| <= QUEUED && |s.active| <= ACTIVE && Count(s.active, Prefetch()) <= ACTIVE - INTERACTIVE_RESERVED
  }

  /** A key is cached once or running once, never both. */
  ghost predicate CacheIsFunction(s: Store) {
    forall k: Key :: Count(s.cache, HasKey(k)) + Count(s.active, OnKey(k)) <= 1
  }

  ghost predicate SourcesDistinct(s: Store) {
    forall k: Key :: Count(s.active, OnSource(k)) <= 1
  }

  ghost predicate QueueCurrent(s: Store) {
    forall j :: j in s.queue ==> Present(s.generations, j.owner, j.generation)
  }

  /** A request is queued once or running once. */
  ghost predicate RequestsUnique(s: Store) {
    forall k: Key, owner, g: nat :: Count(s.queue, Wanted(k, owner, g)) + Count(s.active, Wanted(k, owner, g)) <= 1
  }

  ghost predicate IdsUnique(s: Store) {
    forall id: nat :: Count(s.queue, HasId(id)) + Count(s.active, HasId(id)) <= if 1 <= id <= s.next then 1 else 0
  }

  ghost predicate StoreInv(s: Store) {
    && Bounded(s) && CacheIsFunction(s) && SourcesDistinct(s) && QueueCurrent(s) && RequestsUnique(s) && IdsUnique(s)
    && Owners(s.generations) <= OWNERS
  }

  lemma InitStore()
    ensures StoreInv(NewStore())
  {
  }

  // ----- Counting under updates -----

  lemma CountMember<T>(s: seq<T>, p: T -> bool, x: T)
    requires x in s && p(x)
    ensures Count(s, p) >= 1
  {
    FilterMember(s, p, x);
  }

  lemma CountUpdate<T>(s: seq<T>, i: nat, x: T, p: T -> bool)
    requires i < |s| && p(s[i]) == p(x)
    ensures Count(s[i := x], p) == Count(s, p)
  {
    var t := s[i := x];
    assert t[..i] == s[..i] && t[i + 1..] == s[i + 1..];
    FilterSplit(s, i, p);
    FilterSplit(t, i, p);
  }

  /** Dropping the one job with an id takes exactly that job out of every count. */
  lemma {:induction false} CountWithoutId(jobs: seq<Job>, j: Job, p: Job -> bool)
    requires j in jobs && Count(jobs, HasId(j.id)) <= 1
    ensures Count(jobs, p) == Count(Filter(jobs, OtherId(j.id)), p) + if p(j) then 1 else 0
  {
    var rest := jobs[1..];
    if jobs[0] == j {
      assert Count(rest, HasId(j.id)) == 0;
      CountZero(rest, HasId(j.id));
      FilterAll(rest, OtherId(j.id));
    } else {
      CountMember(rest, HasId(j.id), j);
      CountWithoutId(rest, j, p);
    }
  }

  lemma AbsentId(jobs: seq<Job>, id: nat)
    requires Count(jobs, HasId(id)) == 0
    ensures Filter(jobs, OtherId(id)) == jobs
  {
    CountZero(jobs, HasId(id));
    FilterAll(jobs, OtherId(id));
  }

  lemma TouchCounts(cache: seq<Cached>, k: Key, p: Cached -> bool)
    ensures Count(Touch(cache, k), p) == Count(cache, p)
  {
    var i := First(cache, HasKey(k));
    if i < |cache| {
      FilterRemove(cache, i, p);
      FilterAppend(Remove(cache, i), cache[i], p);
    }
  }

  // ----- Shrinking the cache or the queue keeps the invariant -----

  /** The cache may lose entries or be reordered. */
  lemma CacheShrinks(s: Store, cache: seq<Cached>)
    requires StoreInv(s)
    requires forall k: Key :: Count(cache, HasKey(k)) <= Count(s.cache, HasKey(k))
    ensures StoreInv(s.(cache := cache))
  {
    var t := s.(cache := cache);
    forall k: Key ensures Count(t.cache, HasKey(k)) + Count(t.active, OnKey(k)) <= 1 {
      assert Count(s.cache, HasKey(k)) + Count(s.active, OnKey(k)) <= 1;
    }
  }

  lemma FilterCache(s: Store, p: Cached -> bool)
    requires StoreInv(s)
    ensures StoreInv(s.(cache := Filter(s.cache, p)))
  {
    forall k: Key ensures Count(Filter(s.cache, p), HasKey(k)) <= Count(s.cache, HasKey(k)) {
      FilterTwice(s.cache, p, HasKey(k));
    }
    CacheShrinks(s, Filter(s.cache, p));
  }

  lemma QueueShrinks(s: Store, queue: seq<Job>)
    requires StoreInv(s) && |queue| <= |s.queue|
    requires forall j :: j in queue ==> j in s.queue
    requires forall k: Key, owner, g: nat :: Count(queue, Wanted(k, owner, g)) <= Count(s.queue, Wanted(k, owner, g))
    requires forall id: nat :: Count(queue, HasId(id)) <= Count(s.queue, HasId(id))
    ensures StoreInv(s.(queue := queue))
  {
    var t := s.(queue := queue);
    forall k: Key, owner, g: nat
      ensures Count(t.queue, Wanted(k, owner, g)) + Count(t.active, Wanted(k, owner, g)) <= 1
    {
      assert Count(queue, Wanted(k, owner, g)) <= Count(s.queue, Wanted(k, owner, g));
    }
    forall id: nat
      ensures Count(t.queue, HasId(id)) + Count(t.active, HasId(id)) <= if 1 <= id <= t.next then 1 else 0
    {
      assert Count(queue, HasId(id)) <= Count(s.queue, HasId(id));
    }
  }

  lemma FilterQueue(s: Store, p: Job -> bool)
    requires StoreInv(s)
    ensures StoreInv(s.(queue := Filter(s.queue, p)))
  {
    var left := Filter(s.queue, p);
    forall j ensures j in left <==> j in s.queue && p(j) {
      FilterMember(s.queue, p, j);
    }
    forall k: Key, owner, g: nat ensures Count(left, Wanted(k, owner, g)) <= Count(s.queue, Wanted(k, owner, g)) {
      FilterTwice(s.queue, p, Wanted(k, owner, g));
    }
    forall id: nat ensures Count(left, HasId(id)) <= Count(s.queue, HasId(id)) {
      FilterTwice(s.queue, p, HasId(id));
    }
    QueueShrinks(s, left);
  }

  lemma RemoveQueued(s: Store, i: nat)
    requires StoreInv(s) && i < |s.queue|
    ensures StoreInv(s.(queue := Remove(s.queue, i)))
  {
    var left := Remove(s.queue, i);
    forall j ensures j in left ==> j in s.queue {
      RemoveMember(s.queue, i, j);
    }
    forall k: Key, owner, g: nat ensures Count(left, Wanted(k, owner, g)) <= Count(s.queue, Wanted(k, owner, g)) {
      FilterRemove(s.queue, i, Wanted(k, owner, g));
    }
    forall id: nat ensures Count(left, HasId(id)) <= Count(s.queue, HasId(id)) {
      FilterRemove(s.queue, i, HasId(id));
    }
    QueueShrinks(s, left);
  }

  // ----- Epochs -----

  lemma OwnersGrow(generations: map<string, nat>, owner: string, g: nat)
    ensures Owners(generations[owner := g]) == Owners(generations) + if owner in generations then 0 else 1
  {
    var more := generations[owner := g];
    assert more.Keys == generations.Keys + {owner};
    assert |more| == |more.Keys| && |generations| == |generations.Keys|;
  }

  lemma AdvanceInv(s: Store, owner: string)
    requires StoreInv(s)
    ensures StoreInv(AdvanceGeneration(s, owner).0)
  {
    if !Refused(s, owner) {
      var q := s.(queue := Filter(s.queue, NotOf(owner)));
      FilterQueue(s, NotOf(owner));
      FilterCache(q, IsImage());
      OwnersGrow(s.generations, owner, NextGeneration(s, owner));
      forall j | j in q.queue ensures j.owner != owner {
        FilterMember(s.queue, NotOf(owner), j);
      }
      hide Owners, CacheIsFunction, SourcesDistinct, RequestsUnique, IdsUnique;
      NewEpoch(q.(cache := Filter(s.cache, IsImage())), owner, NextGeneration(s, owner));
    }
  }

  lemma NewEpoch(q: Store, owner: string, g: nat)
    requires StoreInv(q) && Owners(q.generations[owner := g]) <= OWNERS
    requires forall j :: j in q.queue ==> j.owner != owner
    ensures StoreInv(q.(generations := q.generations[owner := g], newest := Some(owner)))
  {
    hide Owners;
  }

  /** After an epoch starts the owner has no queued job, and no failure is remembered. */
  lemma AdvanceClears(s: Store, owner: string)
    requires !Refused(s, owner)
    ensures var t := AdvanceGeneration(s, owner).0;
            && (forall j :: j in t.queue <==> j in s.queue && j.owner != owner)
            && (forall e :: e in t.cache <==> e in s.cache && e.art.Image?)
  {
    forall j ensures j in Filter(s.queue, NotOf(owner)) <==> j in s.queue && j.owner != owner {
      FilterMember(s.queue, NotOf(owner), j);
    }
    forall e ensures e in Filter(s.cache, IsImage()) <==> e in s.cache && e.art.Image? {
      FilterMember(s.cache, IsImage(), e);
    }
  }

  // ----- Queueing -----

  lemma PromoteInv(s: Store, i: nat, interactive: bool)
    requires StoreInv(s) && i < |s.queue|
    ensures StoreInv(s.(queue := s.queue[i := Promote(s.queue[i], interactive)]))
  {
    var x := Promote(s.queue[i], interactive);
    var t := s.(queue := s.queue[i := x]);
    forall k: Key, owner, g: nat
      ensures Count(t.queue, Wanted(k, owner, g)) + Count(t.active, Wanted(k, owner, g)) <= 1
    {
      CountUpdate(s.queue, i, x, Wanted(k, owner, g));
      assert Count(s.queue, Wanted(k, owner, g)) + Count(s.active, Wanted(k, owner, g)) <= 1;
    }
    forall id: nat
      ensures Count(t.queue, HasId(id)) + Count(t.active, HasId(id)) <= if 1 <= id <= t.next then 1 else 0
    {
      CountUpdate(s.queue, i, x, HasId(id));
      assert Count(s.queue, HasId(id)) + Count(s.active, HasId(id)) <= if 1 <= id <= s.next then 1 else 0;
    }
    forall j | j in t.queue ensures Present(t.generations, j.owner, j.generation) {
      assert s.queue[i] in s.queue;
    }
  }

  lemma AppendInv(s: Store, j: Job)
    requires StoreInv(s) && |s.queue| < QUEUED && j.id == s.next + 1
    requires Present(s.generations, j.owner, j.generation)
    requires Count(s.queue, Wanted(j.key, j.owner, j.generation)) == 0
    requires Count(s.active, Wanted(j.key, j.owner, j.generation)) == 0
    ensures StoreInv(s.(next := s.next + 1, queue := s.queue + [j]))
  {
    var t := s.(next := s.next + 1, queue := s.queue + [j]);
    forall k: Key, owner, g: nat
      ensures Count(t.queue, Wanted(k, owner, g)) + Count(t.active, Wanted(k, owner, g)) <= 1
    {
      FilterAppend(s.queue, j, Wanted(k, owner, g));
      assert Count(s.queue, Wanted(k, owner, g)) + Count(s.active, Wanted(k, owner, g)) <= 1;
    }
    forall id: nat
      ensures Count(t.queue, HasId(id)) + Count(t.active, HasId(id)) <= if 1 <= id <= t.next then 1 else 0
    {
      FilterAppend(s.queue, j, HasId(id));
      assert Count(s.queue, HasId(id)) + Count(s.active, HasId(id)) <= if 1 <= id <= s.next then 1 else 0;
    }
  }

  /** Making room loses at most one job, and an interactive one only to an interactive newcomer when all are. */
  lemma RoomKeeps(s: Store, owner: string, interactive: bool)
    requires MakeRoom(s, owner, interactive).Some?
    ensures var room := MakeRoom(s, owner, interactive).value;
            && (room == s.queue || (|s.queue| >= QUEUED && exists i :: 0 <= i < |s.queue| && room == Remove(s.queue, i)))
            && (!interactive ==> forall j :: j in s.queue && j.interactive ==> j in room)
            && (interactive && (exists j :: j in s.queue && !j.interactive) ==>
                  forall j :: j in s.queue && j.interactive ==> j in room)
  {
    var room := MakeRoom(s, owner, interactive).value;
    if |s.queue| >= QUEUED {
      var i := First(s.queue, Expendable(s, owner, interactive));
      if i < |s.queue| {
        forall j | j in s.queue && j.interactive ensures j in room {
          RemoveMember(s.queue, i, j);
        }
      } else {
        assert s.queue[1..] == Remove(s.queue, 0);
      }
    }
  }

  lemma RoomInv(s: Store, owner: string, interactive: bool, p: Job -> bool)
    requires StoreInv(s) && MakeRoom(s, owner, interactive).Some?
    ensures var room := MakeRoom(s, owner, interactive).value;
            StoreInv(s.(queue := room)) && |room| < QUEUED && Count(room, p) <= Count(s.queue, p)
  {
    var room := MakeRoom(s, owner, interactive).value;
    assert Bounded(s);
    RoomKeeps(s, owner, interactive);
    hide StoreInv, MakeRoom;
    if room == s.queue {
      RoomIsFree(s, owner, interactive);
      assert s.(queue := room) == s;
    } else {
      var k :| 0 <= k < |s.queue| && room == Remove(s.queue, k);
      RemoveQueued(s, k);
      FilterRemove(s.queue, k, p);
    }
  }

  lemma RoomIsFree(s: Store, owner: string, interactive: bool)
    requires MakeRoom(s, owner, interactive) == Some(s.queue)
    ensures |s.queue| < QUEUED
  {
  }

  lemma EnqueueFreshInv(s: Store, owner: string, generation: nat, key: Key, interactive: bool)
    requires StoreInv(s)
    ensures StoreInv(EnqueueFresh(s, owner, generation, key, interactive))
  {
    if !Ignored(s, owner, generation, key) {
      var i := First(s.queue, Wanted(key, owner, generation));
      if i < |s.queue| {
        PromoteInv(s, i, interactive);
      } else if MakeRoom(s, owner, interactive).Some? {
        CountZero(s.queue, Wanted(key, owner, generation));
        RoomInv(s, owner, interactive, Wanted(key, owner, generation));
        hide StoreInv, MakeRoom, Count;
        AppendInv(s.(queue := MakeRoom(s, owner, interactive).value), Job(s.next + 1, owner, generation, key, interactive));
      }
    }
  }

  lemma EnqueueInv(s: Store, now: nat, owner: string, generation: nat, key: Key, interactive: bool)
    requires StoreInv(s)
    ensures StoreInv(Enqueue(s, now, owner, generation, key, interactive))
  {
    FilterCache(s, Unexpired(now));
    EnqueueFreshInv(Expire(s, now), owner, generation, key, interactive);
  }

  lemma {:induction false} EnqueueAllInv(s: Store, now: nat, owner: string, generation: nat, keys: seq<Key>)
    requires StoreInv(s)
    ensures StoreInv(EnqueueAll(s, now, owner, generation, keys))
    decreases |keys|
  {
    if keys != [] {
      EnqueueInv(s, now, owner, generation, keys[0], false);
      EnqueueAllInv(Enqueue(s, now, owner, generation, keys[0], false), now, owner, generation, keys[1..]);
    }
  }

  lemma ReplaceWindowInv(s: Store, now: nat, owner: string, generation: nat, keys: seq<Key>)
    requires StoreInv(s)
    ensures StoreInv(ReplaceWindow(s, now, owner, generation, keys))
  {
    FilterQueue(s, Kept(owner));
    EnqueueAllInv(s.(queue := Filter(s.queue, Kept(owner))), now, owner, generation,
                  if |keys| <= QUEUED then keys else keys[..QUEUED]);
  }

  /** A prefetch request never costs an interactive job its place. */
  lemma PrefetchKeepsInteractive(s: Store, now: nat, owner: string, generation: nat, key: Key, j: Job)
    requires j in s.queue && j.interactive
    ensures j in Enqueue(s, now, owner, generation, key, false).queue
  {
    var e := Expire(s, now);
    if !Ignored(e, owner, generation, key) {
      var i := First(e.queue, Wanted(key, owner, generation));
      if i < |e.queue| {
        var k :| 0 <= k < |e.queue| && e.queue[k] == j;
        assert e.queue[i := Promote(e.queue[i], false)][k] == j;
      } else if MakeRoom(e, owner, false).Some? {
        RoomKeeps(e, owner, false);
      }
    }
  }

  lemma {:induction false} WindowKeepsInteractive(s: Store, now: nat, owner: string, generation: nat, keys: seq<Key>, j: Job)
    requires j in s.queue && j.interactive
    ensures j in EnqueueAll(s, now, owner, generation, keys).queue
    decreases |keys|
  {
    if keys != [] {
      PrefetchKeepsInteractive(s, now, owner, generation, keys[0], j);
      WindowKeepsInteractive(Enqueue(s, now, owner, generation, keys[0], false), now, owner, generation, keys[1..], j);
    }
  }

  /** Replacing a window drops no interactive job of any owner. */
  lemma ReplaceWindowKeepsInteractive(s: Store, now: nat, owner: string, generation: nat, keys: seq<Key>, j: Job)
    requires j in s.queue && j.interactive
    ensures j in ReplaceWindow(s, now, owner, generation, keys).queue
  {
    FilterMember(s.queue, Kept(owner), j);
    if Present(s.generations, owner, generation) {
      WindowKeepsInteractive(s.(queue := Filter(s.queue, Kept(owner))), now, owner, generation,
                             if |keys| <= QUEUED then keys else keys[..QUEUED], j);
    }
  }

  /** A visible request of the current epoch is always admitted: cached, running, or queued as interactive. */
  lemma InteractiveIsAdmitted(s: Store, now: nat, owner: string, generation: nat, key: Key)
    requires Present(s.generations, owner, generation)
    ensures var t := Enqueue(s, now, owner, generation, key, true);
            || Count(t.cache, HasKey(key)) > 0
            || Count(t.active, Wanted(key, owner, generation)) > 0
            || exists j :: j in t.queue && Wanted(key, owner, generation)(j) && j.interactive
  {
    var e := Expire(s, now);
    var t := Enqueue(s, now, owner, generation, key, true);
    if !Ignored(e, owner, generation, key) {
      var i := First(e.queue, Wanted(key, owner, generation));
      var j := if i < |e.queue| then t.queue[i] else t.queue[|t.queue| - 1];
      assert j in t.queue && Wanted(key, owner, generation)(j);
    }
  }

  // ----- Scheduling -----

  /** The order the scheduler compares by, field by field. */
  predicate Lower(a: Job, b: Job, newest: Option<string>) {
    if a.interactive != b.interactive then b.interactive
    else if (newest == Some(a.owner)) != (newest == Some(b.owner)) then newest == Some(b.owner)
    else !Important(a.key) && Important(b.key)
  }

  lemma RankIsLexicographic(a: Job, b: Job, newest: Option<string>)
    ensures Rank(a, newest) < Rank(b, newest) <==> Lower(a, b, newest)
  {
  }

  /** The pick is eligible and beats every other eligible job; there is none exactly when nothing is eligible. */
  lemma {:induction false} PickIsMaximum(queue: seq<Job>, active: seq<Job>, newest: Option<string>)
    ensures var pick := Pick(queue, active, newest);
            && (pick.None? <==> forall i :: 0 <= i < |queue| ==> !Eligible(queue[i], active))
            && (pick.Some? ==>
                  && Eligible(queue[pick.value], active)
                  && forall i :: 0 <= i < |queue| && i != pick.value && Eligible(queue[i], active) ==>
                       Lower(queue[i], queue[pick.value], newest)
                       || (!Lower(queue[pick.value], queue[i], newest) && pick.value < i))
    decreases |queue|
  {
    hide Eligible;
    if queue != [] {
      var last := |queue| - 1;
      var front := queue[..last];
      PickIsMaximum(front, active, newest);
      assert forall i :: 0 <= i < last ==> front[i] == queue[i];
      forall i, k | 0 <= i < |queue| && 0 <= k < |queue|
        ensures Rank(queue[i], newest) < Rank(queue[k], newest) <==> Lower(queue[i], queue[k], newest)
      {
        RankIsLexicographic(queue[i], queue[k], newest);
      }
    }
  }

  lemma BeginInv(s: Store, i: nat)
    requires StoreInv(s) && |s.active| < ACTIVE && i < |s.queue|
    requires Eligible(s.queue[i], s.active) && Count(s.cache, HasKey(s.queue[i].key)) == 0
    ensures StoreInv(Begin(s, i)) && Begin(s, i).active == s.active + [s.queue[i]]
  {
    var j := s.queue[i];
    var t := Begin(s, i);
    assert Count(s.queue, HasId(j.id)) + Count(s.active, HasId(j.id)) <= 1;
    CountMember(s.queue, HasId(j.id), j);
    AbsentId(s.active, j.id);
    BeginCounts(s, t, i);
    FilterAppend(s.active, j, Prefetch());
    forall q | q in t.queue ensures q in s.queue {
      RemoveMember(s.queue, i, q);
    }
  }

  lemma BeginCounts(s: Store, t: Store, i: nat)
    requires StoreInv(s) && i < |s.queue| && Count(s.cache, HasKey(s.queue[i].key)) == 0
    requires Eligible(s.queue[i], s.active)
    requires t == s.(queue := Remove(s.queue, i), active := s.active + [s.queue[i]])
    ensures CacheIsFunction(t) && SourcesDistinct(t) && RequestsUnique(t) && IdsUnique(t)
  {
    var j := s.queue[i];
    forall k: Key ensures Count(t.active, OnSource(k)) <= 1 {
      FilterAppend(s.active, j, OnSource(k));
      assert Count(s.active, OnSource(k)) <= 1;
    }
    forall k: Key ensures Count(t.cache, HasKey(k)) + Count(t.active, OnKey(k)) <= 1 {
      FilterAppend(s.active, j, OnKey(k));
      assert Count(s.cache, HasKey(k)) + Count(s.active, OnKey(k)) <= 1;
      if j.key == k {
        CountZero(s.active, OnSource(k.Source()));
        CountZero(s.active, OnKey(k));
      }
    }
    forall k: Key, owner, g: nat
      ensures Count(t.queue, Wanted(k, owner, g)) + Count(t.active, Wanted(k, owner, g)) <= 1
    {
      FilterAppend(s.active, j, Wanted(k, owner, g));
      FilterRemove(s.queue, i, Wanted(k, owner, g));
      assert Count(s.queue, Wanted(k, owner, g)) + Count(s.active, Wanted(k, owner, g)) <= 1;
    }
    forall id: nat
      ensures Count(t.queue, HasId(id)) + Count(t.active, HasId(id)) <= if 1 <= id <= t.next then 1 else 0
    {
      FilterAppend(s.active, j, HasId(id));
      FilterRemove(s.queue, i, HasId(id));
      assert Count(s.queue, HasId(id)) + Count(s.active, HasId(id)) <= if 1 <= id <= s.next then 1 else 0;
    }
  }

  lemma StartInv(s: Store)
    requires StoreInv(s)
    ensures StoreInv(StartNext(s).0)
  {
    if |s.active| < ACTIVE {
      var p := Purge(s);
      FilterQueue(s, Runnable(s));
      PickIsMaximum(p.queue, p.active, p.newest);
      var pick := Pick(p.queue, p.active, p.newest);
      if pick.Some? {
        FilterMember(s.queue, Runnable(s), p.queue[pick.value]);
        hide StoreInv;
        BeginInv(p, pick.value);
      }
    }
  }

  /**
   With a free slot nothing starts only if each queued job is obsolete, already cached, waits for
   a running job on the same source, or is prefetch while prefetch has all its slots.
   */
  lemma StartIsWorkConserving(s: Store)
    requires |s.active| < ACTIVE
    ensures StartNext(s).1.None? <==>
              forall j :: j in s.queue ==>
                || !Present(s.generations, j.owner, j.generation)
                || Count(s.cache, HasKey(j.key)) > 0
                || Count(s.active, OnSource(j.key.Source())) > 0
                || (!j.interactive && PrefetchFull(s.active))
  {
    var p := Purge(s);
    PickIsMaximum(p.queue, p.active, p.newest);
    forall j ensures j in p.queue <==> j in s.queue && Runnable(s)(j) {
      FilterMember(s.queue, Runnable(s), j);
    }
    forall j | j in s.queue && Runnable(s)(j) && StartNext(s).1.None? ensures !Eligible(j, s.active) {
      var i :| 0 <= i < |p.queue| && p.queue[i] == j;
    }
    if StartNext(s).1.Some? {
      var i := Pick(p.queue, p.active, p.newest).value;
      assert p.queue[i] in p.queue;
    }
  }

  // ----- Results -----

  lemma CompleteInv(s: Store, j: Job, art: Art)
    requires StoreInv(s) && j in s.active
    ensures StoreInv(Complete(s, j, art).0)
  {
    assert Count(s.queue, HasId(j.id)) + Count(s.active, HasId(j.id)) <= 1;
    var freed := s.(active := Filter(s.active, OtherId(j.id)));
    var t := Complete(s, j, art).0;
    var c := Cached(j.key, art, Bytes(art));
    forall k: Key
      ensures Count(t.active, OnSource(k)) <= 1 && Count(t.cache, HasKey(k)) + Count(t.active, OnKey(k)) <= 1
    {
      CountWithoutId(s.active, j, OnSource(k));
      CountWithoutId(s.active, j, OnKey(k));
      FilterAppend(s.cache, c, HasKey(k));
      assert Count(s.active, OnSource(k)) <= 1;
      assert Count(s.cache, HasKey(k)) + Count(s.active, OnKey(k)) <= 1;
    }
    forall k: Key, owner, g: nat
      ensures Count(t.queue, Wanted(k, owner, g)) + Count(t.active, Wanted(k, owner, g)) <= 1
    {
      CountWithoutId(s.active, j, Wanted(k, owner, g));
      assert Count(s.queue, Wanted(k, owner, g)) + Count(s.active, Wanted(k, owner, g)) <= 1;
    }
    forall id: nat
      ensures Count(t.queue, HasId(id)) + Count(t.active, HasId(id)) <= if 1 <= id <= t.next then 1 else 0
    {
      CountWithoutId(s.active, j, HasId(id));
      assert Count(s.queue, HasId(id)) + Count(s.active, HasId(id)) <= if 1 <= id <= s.next then 1 else 0;
    }
    CountWithoutId(s.active, j, Prefetch());
  }

  /** A finished job is never appended over an existing entry, and only while its epoch is current. */
  lemma CompleteAddsOnce(s: Store, j: Job, art: Art)
    requires StoreInv(s) && j in s.active
    ensures var (t, kept) := Complete(s, j, art);
            && Count(s.cache, HasKey(j.key)) == 0
            && kept == Present(s.generations, j.owner, j.generation)
            && (kept ==> Entry(t.cache, j.key) == Some(art))
            && (!kept ==> t.cache == s.cache)
            && |t.active| == |s.active| - 1
  {
    CountMember(s.active, OnKey(j.key), j);
    assert Count(s.cache, HasKey(j.key)) + Count(s.active, OnKey(j.key)) <= 1;
    CountZero(s.cache, HasKey(j.key));
    assert Count(s.queue, HasId(j.id)) + Count(s.active, HasId(j.id)) <= 1;
    CountWithoutId(s.active, j, AnyJob());
    FilterAll(s.active, AnyJob());
    FilterAll(Filter(s.active, OtherId(j.id)), AnyJob());
    var c := s.cache + [Cached(j.key, art, Bytes(art))];
    assert HasKey(j.key)(c[|s.cache|]);
    assert forall i :: 0 <= i < |s.cache| ==> c[i] == s.cache[i] && !HasKey(j.key)(c[i]);
    assert First(c, HasKey(j.key)) == |s.cache|;
  }

  function AnyJob(): Job -> bool { (j: Job) => true }

  // ----- Lookups -----

  lemma TouchInv(s: Store, k: Key)
    requires StoreInv(s)
    ensures StoreInv(s.(cache := Touch(s.cache, k)))
  {
    forall q: Key ensures Count(Touch(s.cache, k), HasKey(q)) <= Count(s.cache, HasKey(q)) {
      TouchCounts(s.cache, k, HasKey(q));
    }
    CacheShrinks(s, Touch(s.cache, k));
  }

  function OtherKey(k: Key): Cached -> bool { (e: Cached) => e.key != k }

  /** A hit answers with the one entry of the key and makes it the most recent. */
  lemma TouchMakesRecent(s: Store, k: Key)
    requires StoreInv(s) && Entry(s.cache, k).Some?
    ensures var c := Touch(s.cache, k);
            && |c| == |s.cache| && c[|c| - 1].key == k && Some(c[|c| - 1].art) == Entry(s.cache, k)
            && Entry(c, k) == Entry(s.cache, k)
            && Filter(c, OtherKey(k)) == Filter(s.cache, OtherKey(k))
  {
    var i := First(s.cache, HasKey(k));
    assert Count(s.cache, HasKey(k)) + Count(s.active, OnKey(k)) <= 1;
    FilterRemove(s.cache, i, HasKey(k));
    CountZero(Remove(s.cache, i), HasKey(k));
    OnlyLast(Remove(s.cache, i), s.cache[i], k);
    FilterRemove(s.cache, i, OtherKey(k));
    FilterAppend(Remove(s.cache, i), s.cache[i], OtherKey(k));
    hide StoreInv, Filter, Count;
  }

  lemma OnlyLast(others: seq<Cached>, e: Cached, k: Key)
    requires e.key == k && forall i :: 0 <= i < |others| ==> !HasKey(k)(others[i])
    ensures First(others + [e], HasKey(k)) == |others|
  {
    var c := others + [e];
    assert HasKey(k)(c[|others|]);
    assert forall i :: 0 <= i < |others| ==> !HasKey(k)(c[i]);
  }
}
