/** The decoded cache never outgrows its quotas: each kind of image stays within its bytes and entries over every run. */
module ArtworkBounds {
  import opened Util
  import opened Lists
  import opened Artwork
  import opened ArtworkRuns
  import opened ArtworkTrim
  import opened ArtworkLive

  /** Posters, backdrops, stills and blurred images have bytes of their own, stills and the rest entries of their own. */
  ghost predicate Fits(cache: seq<Cached>) {
    && ClassBytes(cache, Posters) <= 201_326_592
    && ClassBytes(cache, Backdrops) <= 16_777_216
    && ClassBytes(cache, Stills) <= 67_108_864
    && ClassBytes(cache, Blurred) <= 16_777_216
    && Count(cache, InGroup(true)) <= 128
    && Count(cache, InGroup(false)) <= 256
  }

  /** No class has more bytes and no group more entries. */
  ghost predicate NoLarger(after: seq<Cached>, before: seq<Cached>) {
    && (forall c: Class :: ClassBytes(after, c) <= ClassBytes(before, c))
    && (forall still: bool :: Count(after, InGroup(still)) <= Count(before, InGroup(still)))
  }

  lemma StaysFitting(after: seq<Cached>, before: seq<Cached>)
    requires Fits(before) && NoLarger(after, before)
    ensures Fits(after)
  {
    hide ClassBytes;
    forall c: Class ensures ClassBytes(after, c) <= ClassBytes(before, c) {
    }
    forall still: bool ensures Count(after, InGroup(still)) <= Count(before, InGroup(still)) {
    }
  }

  lemma {:induction false} FilterTotal(es: seq<Cached>, p: Cached -> bool)
    ensures Total(Filter(es, p)) <= Total(es)
  {
    if es != [] {
      FilterTotal(es[1..], p);
      if p(es[0]) {
        assert Filter(es, p)[1..] == Filter(es[1..], p);
      }
    }
  }

  lemma FilterNoLarger(cache: seq<Cached>, p: Cached -> bool)
    ensures NoLarger(Filter(cache, p), cache)
  {
    forall c: Class ensures ClassBytes(Filter(cache, p), c) <= ClassBytes(cache, c) {
      FilterTwice(cache, p, OfClass(c));
      FilterTotal(Filter(cache, OfClass(c)), p);
    }
    forall still: bool ensures Count(Filter(cache, p), InGroup(still)) <= Count(cache, InGroup(still)) {
      FilterTwice(cache, p, InGroup(still));
    }
  }

  lemma {:induction false} TotalConcat(a: seq<Cached>, b: seq<Cached>)
    ensures Total(a + b) == Total(a) + Total(b)
  {
    if a == [] {
      assert a + b == b;
    } else {
      assert (a + b)[1..] == a[1..] + b;
      TotalConcat(a[1..], b);
    }
  }

  lemma TouchNoLarger(cache: seq<Cached>, k: Key)
    ensures NoLarger(Touch(cache, k), cache)
  {
    forall still: bool ensures Count(Touch(cache, k), InGroup(still)) <= Count(cache, InGroup(still)) {
      TouchCounts(cache, k, InGroup(still));
    }
    forall c: Class ensures ClassBytes(Touch(cache, k), c) <= ClassBytes(cache, c) {
      TouchBytes(cache, k, c);
    }
  }

  lemma TotalMoves(a: seq<Cached>, b: seq<Cached>, c: seq<Cached>)
    ensures Total(a + b + c) == Total(a + c + b)
  {
    TotalConcat(a + b, c);
    TotalConcat(a, b);
    TotalConcat(a + c, b);
    TotalConcat(a, c);
  }

  function Own(e: Cached, p: Cached -> bool): seq<Cached> { if p(e) then [e] else [] }

  lemma FilterAround(cache: seq<Cached>, i: nat, p: Cached -> bool)
    requires i < |cache|
    ensures Filter(cache, p) == Filter(cache[..i], p) + Own(cache[i], p) + Filter(cache[i + 1..], p)
  {
    FilterSplit(cache, i, p);
    hide Filter;
  }

  lemma FilterMoved(cache: seq<Cached>, i: nat, p: Cached -> bool)
    requires i < |cache|
    ensures Filter(Remove(cache, i) + [cache[i]], p) == Filter(cache[..i], p) + Filter(cache[i + 1..], p) + Own(cache[i], p)
  {
    FilterAppend(Remove(cache, i), cache[i], p);
    FilterRemove(cache, i, p);
    hide Filter, Remove, Count;
  }

  lemma TouchBytes(cache: seq<Cached>, k: Key, c: Class)
    ensures ClassBytes(Touch(cache, k), c) == ClassBytes(cache, c)
  {
    var i, p := First(cache, HasKey(k)), OfClass(c);
    if i < |cache| {
      assert Touch(cache, k) == Remove(cache, i) + [cache[i]];
      FilterAround(cache, i, p);
      FilterMoved(cache, i, p);
      hide Filter, Touch, Total, Remove, First, Own;
      TotalMoves(Filter(cache[..i], p), Own(cache[i], p), Filter(cache[i + 1..], p));
    }
  }

  lemma {:induction false} RequestsNoLarger(s: Store, now: nat, owner: string, generation: nat, keys: seq<Key>)
    requires Fits(s.cache)
    ensures Fits(EnqueueAll(s, now, owner, generation, keys).cache)
    decreases |keys|
  {
    hide Fits;
    if keys != [] {
      RequestFits(s, now, owner, generation, keys[0], false);
      RequestsNoLarger(Enqueue(s, now, owner, generation, keys[0], false), now, owner, generation, keys[1..]);
    }
  }

  lemma RequestFits(s: Store, now: nat, owner: string, generation: nat, key: Key, interactive: bool)
    requires Fits(s.cache)
    ensures Fits(Enqueue(s, now, owner, generation, key, interactive).cache)
  {
    FilterNoLarger(s.cache, Unexpired(now));
    hide Fits, NoLarger;
    StaysFitting(Filter(s.cache, Unexpired(now)), s.cache);
  }

  lemma TrimFits(cache: seq<Cached>)
    ensures Fits(Trim(cache).0)
  {
    forall c: Class ensures ClassBytes(Trim(cache).0, c) <= Quota(c) {
      var n := TrimClass(cache, c);
    }
    TrimLimits(cache, true);
    TrimLimits(cache, false);
    hide Trim, ClassBytes;
    assert forall c: Class :: ClassBytes(Trim(cache).0, c) <= Quota(c);
  }

  /** Trimming takes nothing away exactly when the cache fits already. */
  lemma TrimsExactlyExcess(cache: seq<Cached>)
    ensures Trim(cache) == (cache, []) <==> Fits(cache)
  {
    TrimFits(cache);
    if Fits(cache) {
      Untouched(cache);
    }
  }

  lemma Untouched(cache: seq<Cached>)
    requires Fits(cache)
    ensures Trim(cache) == (cache, [])
  {
    hide ClassBytes, InGroup, OfClass, Count;
    assert EvictBytes(cache, Posters) == (cache, []) && EvictBytes(cache, Backdrops) == (cache, []);
    assert EvictBytes(cache, Stills) == (cache, []) && EvictBytes(cache, Blurred) == (cache, []);
    assert EvictCount(cache, false) == (cache, []) && EvictCount(cache, true) == (cache, []);
    var none: seq<nat> := [];
    assert none + none + none + none == none && none + none + none == none;
    hide EvictBytes, EvictCount;
    assert TrimBytes(cache) == (cache, none);
  }

  lemma StepFits(s: Store, step: Step)
    requires Fits(s.cache) && Enabled(s, step)
    ensures Fits(Next(s, step).cache)
  {
    hide Fits, NoLarger, Trim;
    match step {
      case Begin(owner) =>
        FilterNoLarger(s.cache, IsImage());
        StaysFitting(Filter(s.cache, IsImage()), s.cache);
      case Request(now, owner, generation, key, interactive) => RequestFits(s, now, owner, generation, key, interactive);
      case Prefetches(now, owner, generation, keys) =>
        RequestsNoLarger(s.(queue := Filter(s.queue, Kept(owner))), now, owner, generation,
                         if |keys| <= QUEUED then keys else keys[..QUEUED]);
      case StartOne =>
      case FinishOne(slot, art) => TrimFits(Complete(s, s.active[slot], art).0.cache);
      case LookUp(key) =>
        TouchNoLarger(s.cache, key);
        StaysFitting(Touch(s.cache, key), s.cache);
      case UseSource(now, key) =>
        var unexpired := Filter(s.cache, Unexpired(now));
        FilterNoLarger(s.cache, Unexpired(now));
        StaysFitting(unexpired, s.cache);
        TouchNoLarger(unexpired, key.Source());
        StaysFitting(Touch(unexpired, key.Source()), unexpired);
    }
  }

  lemma {:induction false} RunFits(s: Store, steps: seq<Step>)
    requires Fits(s.cache) && Possible(s, steps)
    ensures Fits(Run(s, steps).cache)
    decreases |steps|
  {
    hide Fits, Next, Enabled;
    if steps != [] {
      StepFits(s, steps[0]);
      RunFits(Next(s, steps[0]), steps[1..]);
    }
  }

  /** In every reachable store the cache fits: 192 MiB of posters, 16 of backdrops, 64 of stills, 16 of blurred images. */
  lemma CacheAlwaysFits(steps: seq<Step>)
    requires Possible(NewStore(), steps)
    ensures Fits(Run(NewStore(), steps).cache)
  {
    RunFits(NewStore(), steps);
  }

  /** Every image belongs to one class, by its blur first and then its kind. */
  lemma ClassesPartition(k: Key, c: Class)
    ensures InClass(k, c) <==> c == if k.blurred then Blurred
                                    else if k.kind.Poster? then Posters else if k.kind.Backdrop? then Backdrops else Stills
    ensures forall e: Cached :: e.key == k ==> (InGroup(true)(e) <==> InClass(k, Stills)) && InGroup(false)(e) != InGroup(true)(e)
  {
  }
}
