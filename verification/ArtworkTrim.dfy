/**
 Trimming the decoded cache: four byte quotas, then two entry limits, each stage dropping its
 oldest entries until its bound holds.
 */
module ArtworkTrim {
  import opened Util
  import opened Lists
  import opened Artwork

  const MIB: nat := 1024 * 1024
  const ENTRIES: nat := 256
  const STILLS: nat := 128

  /** Entries with a byte quota of their own; a blurred image counts as blurred whatever it derives from. */
  datatype Class = Posters | Backdrops | Stills | Blurred

  predicate InClass(k: Key, c: Class) {
    match c
    case Posters => !k.blurred && k.kind.Poster?
    case Backdrops => !k.blurred && k.kind.Backdrop?
    case Stills => !k.blurred && k.kind.Still?
    case Blurred => k.blurred
  }

  function Quota(c: Class): nat {
    match c
    case Posters => 192 * MIB
    case Backdrops => 16 * MIB
    case Stills => 64 * MIB
    case Blurred => 16 * MIB
  }

  function OfClass(c: Class): Cached -> bool { (e: Cached) => InClass(e.key, c) }

  /** Episode stills have an entry allowance of their own. */
  function InGroup(still: bool): Cached -> bool { (e: Cached) => (e.key.kind.Still? && !e.key.blurred) == still }

  function Limit(still: bool): nat { if still then STILLS else ENTRIES }

  function Total(es: seq<Cached>): nat { if es == [] then 0 else es[0].bytes + Total(es[1..]) }

  function ClassBytes(cache: seq<Cached>, c: Class): nat { Total(Filter(cache, OfClass(c))) }

  function Picture(e: Cached): seq<nat> { if e.art.Image? then [e.art.image] else [] }

  /** The decoded images of entries, in order. */
  function Images(es: seq<Cached>): seq<nat> { if es == [] then [] else Picture(es[0]) + Images(es[1..]) }

  lemma SomeOfClass(cache: seq<Cached>, p: Cached -> bool)
    requires Filter(cache, p) != []
    ensures First(cache, p) < |cache|
  {
    if First(cache, p) == |cache| {
      FilterNone(cache, p);
    }
  }

  // ----- One stage -----

  /** Drops the oldest entries of a class until its bytes fit. */
  function EvictBytes(cache: seq<Cached>, c: Class): (seq<Cached>, seq<nat>)
    decreases |cache|
  {
    if ClassBytes(cache, c) <= Quota(c) then (cache, [])
    else
      SomeOfClass(cache, OfClass(c));
      var i := First(cache, OfClass(c));
      var (rest, images) := EvictBytes(Remove(cache, i), c);
      (rest, Picture(cache[i]) + images)
  }

  /** Drops the oldest entries of a group until its count fits. */
  function EvictCount(cache: seq<Cached>, still: bool): (seq<Cached>, seq<nat>)
    decreases |cache|
  {
    if Count(cache, InGroup(still)) <= Limit(still) then (cache, [])
    else
      SomeOfClass(cache, InGroup(still));
      var i := First(cache, InGroup(still));
      var (rest, images) := EvictCount(Remove(cache, i), still);
      (rest, Picture(cache[i]) + images)
  }

  function TrimBytes(cache: seq<Cached>): (seq<Cached>, seq<nat>) {
    var (c1, e1) := EvictBytes(cache, Posters);
    var (c2, e2) := EvictBytes(c1, Backdrops);
    var (c3, e3) := EvictBytes(c2, Stills);
    var (c4, e4) := EvictBytes(c3, Blurred);
    (c4, e1 + e2 + e3 + e4)
  }

  function Trim(cache: seq<Cached>): (seq<Cached>, seq<nat>) {
    var (c4, e4) := TrimBytes(cache);
    var (c5, e5) := EvictCount(c4, false);
    var (c6, e6) := EvictCount(c5, true);
    (c6, e4 + e5 + e6)
  }

  function TrimImages(s: Store): (Store, seq<nat>) {
    var (cache, evicted) := Trim(s.cache);
    (s.(cache := cache), evicted)
  }

  // ----- What dropping the oldest means -----

  /** The n oldest entries that satisfy p are gone, everything else is in place. */
  ghost predicate DropsOldest(before: seq<Cached>, after: seq<Cached>, p: Cached -> bool, n: nat) {
    && n <= Count(before, p)
    && Filter(after, p) == Filter(before, p)[n..]
    && Filter(after, Not(p)) == Filter(before, Not(p))
  }

  function Not(p: Cached -> bool): Cached -> bool { (e: Cached) => !p(e) }

  lemma DropFirst(cache: seq<Cached>, after: seq<Cached>, p: Cached -> bool, n: nat)
    requires First(cache, p) < |cache| && DropsOldest(Remove(cache, First(cache, p)), after, p, n)
    ensures DropsOldest(cache, after, p, n + 1)
  {
    var i := First(cache, p);
    FilterRemoveFirst(cache, p);
    FilterRemove(cache, i, Not(p));
    assert Filter(cache, p)[1..][n..] == Filter(cache, p)[n + 1..];
  }

  lemma {:induction false} TotalSuffix(es: seq<Cached>, n: nat)
    requires n <= |es|
    ensures Total(es[n..]) <= Total(es)
  {
    if n > 0 {
      TotalSuffix(es[1..], n - 1);
      assert es[1..][n - 1..] == es[n..];
    }
  }

  lemma ImagesPrefix(es: seq<Cached>, n: nat)
    requires n + 1 <= |es|
    ensures Images(es[..n + 1]) == Picture(es[0]) + Images(es[1..][..n])
  {
    assert es[..n + 1][1..] == es[1..][..n];
  }

  /** Byte eviction drops the fewest oldest entries of the class that bring it within its quota, and returns their images. */
  lemma {:induction false} EvictBytesExact(cache: seq<Cached>, c: Class) returns (n: nat)
    ensures var (after, evicted) := EvictBytes(cache, c); var own := Filter(cache, OfClass(c));
            && DropsOldest(cache, after, OfClass(c), n)
            && ClassBytes(after, c) <= Quota(c)
            && (n > 0 ==> Total(own[n - 1..]) > Quota(c))
            && evicted == Images(own[..n])
    decreases |cache|
  {
    var own := Filter(cache, OfClass(c));
    if ClassBytes(cache, c) <= Quota(c) {
      n := 0;
    } else {
      SomeOfClass(cache, OfClass(c));
      var i := First(cache, OfClass(c));
      var m := EvictBytesExact(Remove(cache, i), c);
      FilterRemoveFirst(cache, OfClass(c));
      DropFirst(cache, EvictBytes(cache, c).0, OfClass(c), m);
      ImagesPrefix(own, m);
      n := m + 1;
      if m == 0 {
        assert own[0..] == own;
      } else {
        assert own[1..][m - 1..] == own[m..];
      }
    }
  }

  /** Count eviction drops exactly the excess, oldest first. */
  lemma {:induction false} EvictCountExact(cache: seq<Cached>, still: bool) returns (n: nat)
    ensures var (after, evicted) := EvictCount(cache, still); var own := Filter(cache, InGroup(still));
            && DropsOldest(cache, after, InGroup(still), n)
            && n == Max(0, |own| - Limit(still))
            && evicted == Images(own[..n])
    decreases |cache|
  {
    hide Limit;
    var p := InGroup(still);
    var own := Filter(cache, p);
    if |own| <= Limit(still) {
      n := 0;
    } else {
      SomeOfClass(cache, p);
      var i := First(cache, p);
      var rest := Remove(cache, i);
      var m := EvictCountExact(rest, still);
      FilterRemoveFirst(cache, p);
      assert Filter(rest, p) == own[1..];
      DropFirst(cache, EvictCount(rest, still).0, p, m);
      ImagesPrefix(own, m);
      n := m + 1;
    }
  }

  // ----- How a stage shows in another class -----

  lemma {:induction false} FilterWithin(s: seq<Cached>, p: Cached -> bool, q: Cached -> bool)
    requires forall e :: q(e) ==> p(e)
    ensures Filter(Filter(s, p), q) == Filter(s, q)
  {
    if s != [] {
      FilterWithin(s[1..], p, q);
    }
  }

  lemma {:induction false} FilterSuffix(s: seq<Cached>, n: nat, q: Cached -> bool) returns (m: nat)
    requires n <= |s|
    ensures m <= Count(s, q) && Filter(s[n..], q) == Filter(s, q)[m..]
  {
    assert s == s[..n] + s[n..];
    FilterConcat(s[..n], s[n..], q);
    m := Count(s[..n], q);
  }

  /** A kind of entry outside the stage is untouched. */
  lemma StageLeaves(before: seq<Cached>, after: seq<Cached>, p: Cached -> bool, n: nat, q: Cached -> bool)
    requires DropsOldest(before, after, p, n) && forall e :: q(e) ==> !p(e)
    ensures Filter(after, q) == Filter(before, q)
  {
    FilterWithin(before, Not(p), q);
    FilterWithin(after, Not(p), q);
  }

  /** A kind of entry inside the stage loses only its oldest. */
  lemma StageShortens(before: seq<Cached>, after: seq<Cached>, p: Cached -> bool, n: nat, q: Cached -> bool) returns (m: nat)
    requires DropsOldest(before, after, p, n) && forall e :: q(e) ==> p(e)
    ensures m <= Count(before, q) && Filter(after, q) == Filter(before, q)[m..]
  {
    FilterWithin(before, p, q);
    FilterWithin(after, p, q);
    m := FilterSuffix(Filter(before, p), n, q);
  }

  // ----- All stages together -----

  /** Each class of `after` is what remains of the class after losing some of its oldest entries. */
  ghost predicate OldestFirst(before: seq<Cached>, after: seq<Cached>, c: Class, n: nat) {
    n <= Count(before, OfClass(c)) && Filter(after, OfClass(c)) == Filter(before, OfClass(c))[n..]
  }

  lemma OldestFirstChains(a: seq<Cached>, b: seq<Cached>, d: seq<Cached>, c: Class, n: nat, m: nat)
    requires OldestFirst(a, b, c, n) && OldestFirst(b, d, c, m)
    ensures OldestFirst(a, d, c, n + m) && ClassBytes(d, c) <= ClassBytes(b, c)
  {
    TotalSuffix(Filter(b, OfClass(c)), m);
  }

  lemma BytesStage(cache: seq<Cached>, stage: Class, c: Class) returns (n: nat)
    ensures OldestFirst(cache, EvictBytes(cache, stage).0, c, n)
    ensures stage != c ==> n == 0
    ensures stage == c ==> ClassBytes(EvictBytes(cache, stage).0, c) <= Quota(c)
    ensures stage == c && ClassBytes(cache, c) <= Quota(c) ==> n == 0
  {
    var k := EvictBytesExact(cache, stage);
    if stage == c {
      n := k;
    } else {
      StageLeaves(cache, EvictBytes(cache, stage).0, OfClass(stage), k, OfClass(c));
      n := 0;
    }
  }

  lemma CountStage(cache: seq<Cached>, still: bool, c: Class) returns (n: nat)
    ensures OldestFirst(cache, EvictCount(cache, still).0, c, n)
    ensures still != c.Stills? ==> n == 0
    ensures still && Count(cache, OfClass(Stills)) <= STILLS ==> n == 0
  {
    var k := EvictCountExact(cache, still);
    if still == c.Stills? {
      n := StageShortens(cache, EvictCount(cache, still).0, InGroup(still), k, OfClass(c));
      if still && Count(cache, OfClass(Stills)) <= STILLS {
        FilterWithin(cache, InGroup(true), OfClass(Stills));
        FilterWithin(cache, OfClass(Stills), InGroup(true));
        n := 0;
      }
    } else {
      StageLeaves(cache, EvictCount(cache, still).0, InGroup(still), k, OfClass(c));
      n := 0;
    }
  }

  lemma SameClass(before: seq<Cached>, after: seq<Cached>, c: Class)
    requires OldestFirst(before, after, c, 0)
    ensures ClassBytes(after, c) == ClassBytes(before, c) && Count(after, OfClass(c)) == Count(before, OfClass(c))
  {
    assert Filter(before, OfClass(c))[0..] == Filter(before, OfClass(c));
  }

  lemma TrimBytesStages(cache: seq<Cached>)
    ensures TrimBytes(cache).0
         == EvictBytes(EvictBytes(EvictBytes(EvictBytes(cache, Posters).0, Backdrops).0, Stills).0, Blurred).0
  {
    hide EvictBytes;
  }

  /** The four byte stages leave every class within its quota. */
  lemma TrimBytesClass(cache: seq<Cached>, c: Class) returns (n: nat)
    ensures OldestFirst(cache, TrimBytes(cache).0, c, n) && ClassBytes(TrimBytes(cache).0, c) <= Quota(c)
    ensures c.Stills? && ClassBytes(cache, c) <= Quota(c) ==> n == 0
  {
    hide *;
    var c1 := EvictBytes(cache, Posters).0;
    var c2 := EvictBytes(c1, Backdrops).0;
    var c3 := EvictBytes(c2, Stills).0;
    var c4 := EvictBytes(c3, Blurred).0;
    TrimBytesStages(cache);
    var n1 := BytesStage(cache, Posters, c);
    var n2 := BytesStage(c1, Backdrops, c);
    OldestFirstChains(cache, c1, c2, c, n1, n2);
    var n3 := BytesStage(c2, Stills, c);
    OldestFirstChains(cache, c2, c3, c, n1 + n2, n3);
    var n4 := BytesStage(c3, Blurred, c);
    OldestFirstChains(cache, c3, c4, c, n1 + n2 + n3, n4);
    n := n1 + n2 + n3 + n4;
    if n1 + n2 == 0 {
      SameClass(cache, c2, c);
    }
  }

  lemma TrimStages(cache: seq<Cached>)
    ensures Trim(cache).0 == EvictCount(EvictCount(TrimBytes(cache).0, false).0, true).0
  {
    hide EvictCount, TrimBytes;
  }

  /**
   After trimming, every class is within its byte quota, has lost only its oldest entries, and
   stills within their own two limits lost none.
   */
  lemma TrimClass(cache: seq<Cached>, c: Class) returns (n: nat)
    ensures var after := Trim(cache).0;
            && OldestFirst(cache, after, c, n)
            && ClassBytes(after, c) <= Quota(c)
    ensures c.Stills? && ClassBytes(cache, c) <= Quota(c) && Count(cache, OfClass(c)) <= STILLS ==> n == 0
  {
    hide *;
    var c4 := TrimBytes(cache).0;
    var c5 := EvictCount(c4, false).0;
    var c6 := EvictCount(c5, true).0;
    TrimStages(cache);
    var n4 := TrimBytesClass(cache, c);
    var n5 := CountStage(c4, false, c);
    OldestFirstChains(cache, c4, c5, c, n4, n5);
    if n4 + n5 == 0 {
      SameClass(cache, c5, c);
    }
    var n6 := CountStage(c5, true, c);
    OldestFirstChains(cache, c5, c6, c, n4 + n5, n6);
    n := n4 + n5 + n6;
  }

  /** Both entry limits hold after trimming. */
  lemma TrimLimits(cache: seq<Cached>, still: bool)
    ensures Count(Trim(cache).0, InGroup(still)) <= Limit(still)
  {
    var c4 := TrimBytes(cache).0;
    var c5 := EvictCount(c4, false).0;
    TrimStages(cache);
    hide EvictCount, TrimBytes, Trim, Filter;
    var n5 := EvictCountExact(c4, false);
    var n6 := EvictCountExact(c5, true);
    if !still {
      StageLeaves(c5, EvictCount(c5, true).0, InGroup(true), n6, InGroup(false));
    }
  }

  // ----- Nothing else is lost -----

  function Is(image: nat): nat -> bool { (x: nat) => x == image }

  /** How often an image is held. */
  function Held(images: seq<nat>, image: nat): nat { Count(images, Is(image)) }

  lemma HeldConcat(a: seq<nat>, b: seq<nat>, image: nat)
    ensures Held(a + b, image) == Held(a, image) + Held(b, image)
  {
    FilterConcat(a, b, Is(image));
  }

  function Shows(image: nat): Cached -> bool { (e: Cached) => e.art.Image? && e.art.image == image }

  /** A stage neither invents nor loses: what was held is still cached or was returned, and no key is added. */
  ghost predicate Conserves(before: seq<Cached>, after: seq<Cached>, evicted: seq<nat>) {
    && (forall image: nat :: Count(before, Shows(image)) == Count(after, Shows(image)) + Held(evicted, image))
    && (forall k: Key :: Count(after, HasKey(k)) <= Count(before, HasKey(k)))
  }

  lemma ConservesOne(cache: seq<Cached>, i: nat, after: seq<Cached>, evicted: seq<nat>)
    requires i < |cache| && Conserves(Remove(cache, i), after, evicted)
    ensures Conserves(cache, after, Picture(cache[i]) + evicted)
  {
    forall image: nat
      ensures Count(cache, Shows(image)) == Count(after, Shows(image)) + Held(Picture(cache[i]) + evicted, image)
    {
      FilterRemove(cache, i, Shows(image));
      HeldConcat(Picture(cache[i]), evicted, image);
      if cache[i].art.Image? {
        FilterOne(cache[i].art.image, Is(image));
      }
      assert Count(Remove(cache, i), Shows(image)) == Count(after, Shows(image)) + Held(evicted, image);
    }
    forall k: Key ensures Count(after, HasKey(k)) <= Count(cache, HasKey(k)) {
      FilterRemove(cache, i, HasKey(k));
      assert Count(after, HasKey(k)) <= Count(Remove(cache, i), HasKey(k));
    }
  }

  lemma ConservesChain(a: seq<Cached>, b: seq<Cached>, c: seq<Cached>, e1: seq<nat>, e2: seq<nat>)
    requires Conserves(a, b, e1) && Conserves(b, c, e2)
    ensures Conserves(a, c, e1 + e2)
  {
    forall image: nat ensures Count(a, Shows(image)) == Count(c, Shows(image)) + Held(e1 + e2, image) {
      HeldConcat(e1, e2, image);
      assert Count(a, Shows(image)) == Count(b, Shows(image)) + Held(e1, image);
      assert Count(b, Shows(image)) == Count(c, Shows(image)) + Held(e2, image);
    }
    forall k: Key ensures Count(c, HasKey(k)) <= Count(a, HasKey(k)) {
      assert Count(b, HasKey(k)) <= Count(a, HasKey(k));
      assert Count(c, HasKey(k)) <= Count(b, HasKey(k));
    }
  }

  lemma {:induction false} EvictBytesConserves(cache: seq<Cached>, c: Class)
    ensures Conserves(cache, EvictBytes(cache, c).0, EvictBytes(cache, c).1)
    decreases |cache|
  {
    if ClassBytes(cache, c) > Quota(c) {
      SomeOfClass(cache, OfClass(c));
      var i := First(cache, OfClass(c));
      EvictBytesConserves(Remove(cache, i), c);
      ConservesOne(cache, i, EvictBytes(cache, c).0, EvictBytes(Remove(cache, i), c).1);
    }
  }

  lemma {:induction false} EvictCountConserves(cache: seq<Cached>, still: bool)
    ensures Conserves(cache, EvictCount(cache, still).0, EvictCount(cache, still).1)
    decreases |cache|
  {
    if Count(cache, InGroup(still)) > Limit(still) {
      SomeOfClass(cache, InGroup(still));
      var i := First(cache, InGroup(still));
      EvictCountConserves(Remove(cache, i), still);
      ConservesOne(cache, i, EvictCount(cache, still).0, EvictCount(Remove(cache, i), still).1);
    }
  }

  /** The images returned are exactly the decoded ones that left the cache. */
  lemma TrimConserves(cache: seq<Cached>)
    ensures Conserves(cache, Trim(cache).0, Trim(cache).1)
  {
    hide EvictBytes, EvictCount, Conserves;
    var (c1, e1) := EvictBytes(cache, Posters);
    var (c2, e2) := EvictBytes(c1, Backdrops);
    var (c3, e3) := EvictBytes(c2, Stills);
    var (c4, e4) := EvictBytes(c3, Blurred);
    var (c5, e5) := EvictCount(c4, false);
    var (c6, e6) := EvictCount(c5, true);
    EvictBytesConserves(cache, Posters);
    EvictBytesConserves(c1, Backdrops);
    EvictBytesConserves(c2, Stills);
    EvictBytesConserves(c3, Blurred);
    EvictCountConserves(c4, false);
    EvictCountConserves(c5, true);
    ConservesChain(cache, c1, c2, e1, e2);
    ConservesChain(cache, c2, c3, e1 + e2, e3);
    ConservesChain(cache, c3, c4, e1 + e2 + e3, e4);
    ConservesChain(cache, c4, c5, e1 + e2 + e3 + e4, e5);
    ConservesChain(cache, c5, c6, e1 + e2 + e3 + e4 + e5, e6);
  }
}
