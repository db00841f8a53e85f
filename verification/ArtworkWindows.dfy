/**
 What one request does to the artwork store, said of the entries and jobs themselves: who is
 admitted at whose expense, what a window of prefetch requests leaves queued, which job starts, and
 what a lookup answers.
 */
module ArtworkWindows {
  import opened Lists
  import opened Util
  import opened Artwork
  import opened ArtworkRuns

  // ----- What is cached, running and queued -----

  /** Not a miss whose time is up. */
  predicate Fresh(e: Cached, now: nat) { e.art.Miss? ==> now < e.art.until }

  predicate Known(s: Store, now: nat, k: Key) { exists e :: e in s.cache && e.key == k && Fresh(e, now) }

  predicate Asks(j: Job, k: Key, owner: string, generation: nat) { j.key == k && j.owner == owner && j.generation == generation }

  predicate Running(s: Store, k: Key, owner: string, generation: nat) { exists j :: j in s.active && Asks(j, k, owner, generation) }

  predicate Waiting(s: Store, k: Key, owner: string, generation: nat) { exists j :: j in s.queue && Asks(j, k, owner, generation) }

  predicate Current(s: Store, owner: string, generation: nat) { owner in s.generations && s.generations[owner] == generation }

  lemma CountMeansMember<T>(s: seq<T>, p: T -> bool)
    ensures Count(s, p) > 0 <==> exists x :: x in s && p(x)
  {
    CountZero(s, p);
  }

  lemma ExpireExactly(s: Store, now: nat)
    ensures forall e :: e in Expire(s, now).cache <==> e in s.cache && Fresh(e, now)
  {
    forall e ensures e in Expire(s, now).cache <==> e in s.cache && Fresh(e, now) {
      FilterMember(s.cache, Unexpired(now), e);
    }
  }

  lemma IgnoredExactly(s: Store, now: nat, owner: string, generation: nat, key: Key)
    ensures Ignored(Expire(s, now), owner, generation, key)
       <==> !Current(s, owner, generation) || Known(s, now, key) || Running(s, key, owner, generation)
  {
    var e := Expire(s, now);
    ExpireExactly(s, now);
    CountMeansMember(e.cache, HasKey(key));
    CountMeansMember(s.active, Wanted(key, owner, generation));
    if x :| x in e.cache && HasKey(key)(x) {
      assert x in s.cache && x.key == key && Fresh(x, now);
    }
    if Known(s, now, key) {
      var x :| x in s.cache && x.key == key && Fresh(x, now);
      assert x in e.cache && HasKey(key)(x);
    }
    if x :| x in s.active && Wanted(key, owner, generation)(x) {
      assert Asks(x, key, owner, generation);
    }
    if x :| x in s.active && Asks(x, key, owner, generation) {
      assert Wanted(key, owner, generation)(x);
    }
  }

  // ----- One request -----

  /** A queued job a full queue gives up: prefetch, to a visible request or to another owner who is the newest. */
  predicate GivesWay(s: Store, j: Job, owner: string, interactive: bool) {
    !j.interactive && (interactive || (j.owner != owner && s.newest == Some(owner)))
  }

  /** The oldest of them. */
  predicate FirstToGo(s: Store, i: nat, owner: string, interactive: bool) {
    i < |s.queue| && GivesWay(s, s.queue[i], owner, interactive)
    && forall k :: 0 <= k < i ==> !GivesWay(s, s.queue[k], owner, interactive)
  }

  /** The queue a new job joins. */
  predicate RoomMade(s: Store, room: seq<Job>, owner: string, interactive: bool) {
    if |s.queue| < QUEUED then room == s.queue
    else if exists i :: 0 <= i < |s.queue| && FirstToGo(s, i, owner, interactive)
    then exists i :: 0 <= i < |s.queue| && FirstToGo(s, i, owner, interactive) && room == s.queue[..i] + s.queue[i + 1..]
    else interactive && room == s.queue[1..]
  }

  /** No room for a prefetch request. */
  predicate Crowded(s: Store, owner: string) {
    |s.queue| >= QUEUED && forall j :: j in s.queue ==> !GivesWay(s, j, owner, false)
  }

  lemma RoomExactly(s: Store, now: nat, owner: string, interactive: bool)
    ensures var m := MakeRoom(Expire(s, now), owner, interactive);
            if m.Some? then RoomMade(s, m.value, owner, interactive) else !interactive && Crowded(s, owner)
  {
    var e := Expire(s, now);
    var i := First(e.queue, Expendable(e, owner, interactive));
    forall k | 0 <= k < |s.queue|
      ensures Expendable(e, owner, interactive)(s.queue[k]) <==> GivesWay(s, s.queue[k], owner, interactive)
    {
    }
    if i < |s.queue| {
      assert FirstToGo(s, i, owner, interactive);
    }
  }

  /**
   A request of the current epoch that is neither cached nor running is queued: as it was if it already waits,
   visible if either request was; otherwise as the last job, at the cost of the oldest prefetch job that gives
   way, or of the oldest job at all to a visible request. Any other request changes nothing but expired misses.
   */
  lemma RequestExactly(s: Store, now: nat, owner: string, generation: nat, key: Key, interactive: bool)
    requires StoreInv(s)
    ensures var t := Enqueue(s, now, owner, generation, key, interactive);
            && t.generations == s.generations && t.active == s.active && t.newest == s.newest
            && (forall e :: e in t.cache <==> e in s.cache && Fresh(e, now))
            && if !Current(s, owner, generation) || Known(s, now, key) || Running(s, key, owner, generation)
               then t.queue == s.queue && t.next == s.next
               else if Waiting(s, key, owner, generation)
               then && t.next == s.next && |t.queue| == |s.queue|
                    && forall i :: 0 <= i < |s.queue| ==>
                         t.queue[i] == if Asks(s.queue[i], key, owner, generation)
                                       then s.queue[i].(interactive := s.queue[i].interactive || interactive)
                                       else s.queue[i]
               else if !interactive && Crowded(s, owner)
               then t.queue == s.queue && t.next == s.next
               else exists room :: RoomMade(s, room, owner, interactive) && t.next == s.next + 1
                                   && t.queue == room + [Job(s.next + 1, owner, generation, key, interactive)]
  {
    hide StoreInv;
    ExpireExactly(s, now);
    IgnoredExactly(s, now, owner, generation, key);
    var e := Expire(s, now);
    var i := First(s.queue, Wanted(key, owner, generation));
    if i < |s.queue| {
      assert Asks(s.queue[i], key, owner, generation);
      OneAsks(s, key, owner, generation, i);
    } else {
      NoneAsks(s, key, owner, generation);
      RoomExactly(s, now, owner, interactive);
      NotCrowded(s, now, owner, interactive);
    }
    hide Ignored, MakeRoom, Known, Running, Current, Crowded, RoomMade, Fresh;
  }

  lemma NotCrowded(s: Store, now: nat, owner: string, interactive: bool)
    ensures MakeRoom(Expire(s, now), owner, interactive).Some? && !interactive ==> !Crowded(s, owner)
  {
    RoomExactly(s, now, owner, interactive);
  }

  lemma NoneAsks(s: Store, key: Key, owner: string, generation: nat)
    requires First(s.queue, Wanted(key, owner, generation)) == |s.queue|
    ensures !Waiting(s, key, owner, generation)
  {
    forall j | j in s.queue ensures !Asks(j, key, owner, generation) {
      var i :| 0 <= i < |s.queue| && s.queue[i] == j;
      assert !Wanted(key, owner, generation)(s.queue[i]);
    }
  }

  lemma OneAsks(s: Store, key: Key, owner: string, generation: nat, i: nat)
    requires StoreInv(s) && i < |s.queue| && Asks(s.queue[i], key, owner, generation)
    ensures forall k :: 0 <= k < |s.queue| && Asks(s.queue[k], key, owner, generation) ==> k == i
  {
    var p := Wanted(key, owner, generation);
    assert Count(s.queue, p) + Count(s.active, p) <= 1;
    forall k | 0 <= k < |s.queue| && Asks(s.queue[k], key, owner, generation) ensures k == i {
      if k != i {
        FilterRemove(s.queue, i, p);
        assert Remove(s.queue, i)[if k < i then k else k - 1] == s.queue[k];
        CountMember(Remove(s.queue, i), p, s.queue[k]);
      }
    }
  }

  // ----- A window of prefetch requests -----

  /** Cached, running or waiting for this owner. */
  predicate Covered(s: Store, now: nat, k: Key, owner: string, generation: nat) {
    Known(s, now, k) || Running(s, k, owner, generation) || Waiting(s, k, owner, generation)
  }

  /** A request that has joined the queue since `since`. */
  predicate Joined(j: Job, since: nat, upTo: nat, owner: string, generation: nat) {
    since < j.id <= upTo && j.owner == owner && j.generation == generation && !j.interactive
  }

  /** What one prefetch request does: nothing, or one job joins a queue that gives up another owner's prefetch at most. */
  lemma PrefetchStep(s: Store, now: nat, owner: string, generation: nat, key: Key)
    requires StoreInv(s)
    ensures var t := Enqueue(s, now, owner, generation, key, false);
            && StoreInv(t) && t.generations == s.generations && t.active == s.active && t.newest == s.newest
            && (forall e :: e in t.cache <==> e in s.cache && Fresh(e, now))
            && if !Current(s, owner, generation) || Covered(s, now, key, owner, generation) || Crowded(s, owner)
               then t.queue == s.queue && t.next == s.next
               else exists room :: RoomMade(s, room, owner, false) && t.next == s.next + 1
                                   && t.queue == room + [Job(s.next + 1, owner, generation, key, false)]
  {
    EnqueueInv(s, now, owner, generation, key, false);
    RequestExactly(s, now, owner, generation, key, false);
    hide StoreInv, Enqueue, RoomMade, Crowded, Known, Running, Current, Fresh;
  }

  lemma RoomKeepsOwner(s: Store, room: seq<Job>, owner: string)
    requires RoomMade(s, room, owner, false)
    ensures |room| <= |s.queue|
    ensures forall j :: j in room ==> j in s.queue
    ensures forall j :: j in s.queue && !GivesWay(s, j, owner, false) ==> j in room
  {
    if |s.queue| >= QUEUED {
      var i :| 0 <= i < |s.queue| && FirstToGo(s, i, owner, false) && room == s.queue[..i] + s.queue[i + 1..];
      forall j ensures (j in room ==> j in s.queue) && (j in s.queue && j != s.queue[i] ==> j in room) {
        RemoveMember(s.queue, i, j);
      }
    }
  }

  lemma KnownStays(s: Store, t: Store, now: nat, k: Key)
    requires forall e :: e in t.cache <==> e in s.cache && Fresh(e, now)
    ensures Known(t, now, k) <==> Known(s, now, k)
  {
    if Known(s, now, k) {
      var e :| e in s.cache && e.key == k && Fresh(e, now);
      assert e in t.cache;
    }
    if Known(t, now, k) {
      var e :| e in t.cache && e.key == k && Fresh(e, now);
      assert e in s.cache;
    }
  }

  /** No prefetch request costs the owner a key that is covered. */
  lemma CoverStays(s: Store, now: nat, owner: string, generation: nat, key: Key, k: Key)
    requires StoreInv(s) && Covered(s, now, k, owner, generation)
    ensures Covered(Enqueue(s, now, owner, generation, key, false), now, k, owner, generation)
  {
    var t := Enqueue(s, now, owner, generation, key, false);
    PrefetchStep(s, now, owner, generation, key);
    KnownStays(s, t, now, k);
    hide StoreInv, Enqueue, Crowded, Fresh, Known;
    if Waiting(s, k, owner, generation) && t.queue != s.queue {
      var j :| j in s.queue && Asks(j, k, owner, generation);
      var room :| RoomMade(s, room, owner, false)
                  && t.queue == room + [Job(s.next + 1, owner, generation, key, false)];
      RoomKeepsOwner(s, room, owner);
      assert j in t.queue;
    }
  }

  lemma CrowdStays(s: Store, now: nat, owner: string, generation: nat, key: Key)
    requires StoreInv(s) && Crowded(s, owner)
    ensures Crowded(Enqueue(s, now, owner, generation, key, false), owner)
  {
    PrefetchStep(s, now, owner, generation, key);
    hide StoreInv, Enqueue;
  }

  lemma RequestCovers(s: Store, now: nat, owner: string, generation: nat, key: Key)
    requires StoreInv(s) && Current(s, owner, generation)
    ensures var t := Enqueue(s, now, owner, generation, key, false);
            && (Covered(t, now, key, owner, generation) || Crowded(t, owner))
            && (|s.queue| < QUEUED ==> Covered(t, now, key, owner, generation))
            && |t.queue| <= |s.queue| + 1
  {
    var t := Enqueue(s, now, owner, generation, key, false);
    PrefetchStep(s, now, owner, generation, key);
    KnownStays(s, t, now, key);
    if Crowded(s, owner) {
      CrowdStays(s, now, owner, generation, key);
    }
    assert Crowded(s, owner) ==> |s.queue| >= QUEUED;
    hide StoreInv, Enqueue, Fresh, Known, Current, Crowded;
    if Covered(s, now, key, owner, generation) {
      CoverStays(s, now, owner, generation, key, key);
    } else if !Crowded(s, owner) {
      var room :| RoomMade(s, room, owner, false)
                  && t.queue == room + [Job(s.next + 1, owner, generation, key, false)];
      RoomKeepsOwner(s, room, owner);
      assert t.queue[|room|] in t.queue && Asks(t.queue[|room|], key, owner, generation);
    }
  }

  /** After a list of requests each of its keys is covered, or no prefetch request of the owner gets in any more. */
  lemma {:induction false} AllCovered(s: Store, now: nat, owner: string, generation: nat, keys: seq<Key>)
    requires StoreInv(s) && Current(s, owner, generation)
    ensures var t := EnqueueAll(s, now, owner, generation, keys);
            && (forall k :: Covered(s, now, k, owner, generation) ==> Covered(t, now, k, owner, generation))
            && (Crowded(s, owner) ==> Crowded(t, owner))
            && (forall i :: 0 <= i < |keys| ==> Covered(t, now, keys[i], owner, generation) || Crowded(t, owner))
            && (|s.queue| + |keys| <= QUEUED ==> forall i :: 0 <= i < |keys| ==> Covered(t, now, keys[i], owner, generation))
    decreases |keys|
  {
    hide StoreInv, Enqueue, Covered, Crowded;
    if keys != [] {
      var u := Enqueue(s, now, owner, generation, keys[0], false);
      PrefetchStep(s, now, owner, generation, keys[0]);
      RequestCovers(s, now, owner, generation, keys[0]);
      AllCovered(u, now, owner, generation, keys[1..]);
      forall k | Covered(s, now, k, owner, generation) ensures Covered(u, now, k, owner, generation) {
        CoverStays(s, now, owner, generation, keys[0], k);
      }
      if Crowded(s, owner) {
        CrowdStays(s, now, owner, generation, keys[0]);
      }
      assert forall i :: 0 < i < |keys| ==> keys[i] == keys[1..][i - 1];
    }
  }

  /** Every job queued afterwards was queued before or joined for a key of the list that was neither covered nor crowded out. */
  lemma {:induction false} OnlyJoined(s: Store, now: nat, owner: string, generation: nat, keys: seq<Key>)
    requires StoreInv(s) && Current(s, owner, generation)
    ensures var t := EnqueueAll(s, now, owner, generation, keys);
            && t.next >= s.next && StoreInv(t)
            && forall j :: j in t.queue ==>
                 || j in s.queue
                 || (Joined(j, s.next, t.next, owner, generation) && j.key in keys
                     && !Covered(s, now, j.key, owner, generation) && !Crowded(s, owner))
    decreases |keys|
  {
    hide StoreInv, Enqueue, Covered, Crowded;
    if keys != [] {
      var u := Enqueue(s, now, owner, generation, keys[0], false);
      var t := EnqueueAll(s, now, owner, generation, keys);
      PrefetchStep(s, now, owner, generation, keys[0]);
      OnlyJoined(u, now, owner, generation, keys[1..]);
      forall j | j in t.queue && j !in s.queue
        ensures Joined(j, s.next, t.next, owner, generation) && j.key in keys
                && !Covered(s, now, j.key, owner, generation) && !Crowded(s, owner)
      {
        JoinedStep(s, now, owner, generation, keys[0], j);
        if Covered(s, now, j.key, owner, generation) {
          CoverStays(s, now, owner, generation, keys[0], j.key);
        }
        if Crowded(s, owner) {
          CrowdStays(s, now, owner, generation, keys[0]);
        }
      }
    }
  }

  lemma JoinedStep(s: Store, now: nat, owner: string, generation: nat, key: Key, j: Job)
    requires StoreInv(s)
    ensures var u := Enqueue(s, now, owner, generation, key, false);
            j in u.queue && j !in s.queue ==>
              Joined(j, s.next, u.next, owner, generation) && j.key == key
              && !Covered(s, now, key, owner, generation) && !Crowded(s, owner)
  {
    var u := Enqueue(s, now, owner, generation, key, false);
    PrefetchStep(s, now, owner, generation, key);
    hide StoreInv, Enqueue, Covered, Crowded;
    if j in u.queue && j !in s.queue {
      var room :| RoomMade(s, room, owner, false)
                  && u.queue == room + [Job(s.next + 1, owner, generation, key, false)];
      RoomKeepsOwner(s, room, owner);
    }
  }

  function Window(keys: seq<Key>): seq<Key> { if |keys| <= QUEUED then keys else keys[..QUEUED] }

  lemma WindowStart(s: Store, now: nat, owner: string, generation: nat, keys: seq<Key>) returns (u: Store)
    requires StoreInv(s) && Current(s, owner, generation)
    ensures u == s.(queue := Filter(s.queue, Kept(owner))) && StoreInv(u) && Current(u, owner, generation)
    ensures ReplaceWindow(s, now, owner, generation, keys) == EnqueueAll(u, now, owner, generation, Window(keys))
    ensures forall j :: j in u.queue <==> j in s.queue && (j.owner != owner || j.interactive)
  {
    u := s.(queue := Filter(s.queue, Kept(owner)));
    FilterQueue(s, Kept(owner));
    forall j ensures j in u.queue <==> j in s.queue && (j.owner != owner || j.interactive) {
      FilterMember(s.queue, Kept(owner), j);
    }
  }

  /**
   After a window of the current epoch each of its first 128 keys is cached, running or waiting for the owner, or
   the queue is full of jobs that do not give way; never the latter if the jobs kept and the keys fit the queue.
   */
  lemma WindowIsQueued(s: Store, now: nat, owner: string, generation: nat, keys: seq<Key>)
    requires StoreInv(s) && Current(s, owner, generation)
    ensures var t := ReplaceWindow(s, now, owner, generation, keys);
            forall i :: 0 <= i < Min(|keys|, QUEUED) ==>
              || Covered(t, now, keys[i], owner, generation)
              || (Crowded(t, owner) && Count(s.queue, Kept(owner)) + Min(|keys|, QUEUED) > QUEUED)
  {
    var u := WindowStart(s, now, owner, generation, keys);
    AllCovered(u, now, owner, generation, Window(keys));
    forall i | 0 <= i < Min(|keys|, QUEUED) ensures Window(keys)[i] == keys[i] {
    }
    hide StoreInv, Covered, Crowded, ReplaceWindow, EnqueueAll;
  }

  /**
   Of the prefetch jobs queued for the owner before a window nothing is left: each one queued afterwards joined
   for one of the first 128 keys. A job of anybody else is as it was, and the owner's visible jobs stay.
   */
  lemma WindowReplaces(s: Store, now: nat, owner: string, generation: nat, keys: seq<Key>)
    requires StoreInv(s) && Current(s, owner, generation)
    ensures var t := ReplaceWindow(s, now, owner, generation, keys);
            forall j :: j in t.queue ==>
              if j.owner == owner && !j.interactive
              then Joined(j, s.next, t.next, owner, generation) && j.key in Window(keys)
              else j in s.queue
  {
    var u := WindowStart(s, now, owner, generation, keys);
    OnlyJoined(u, now, owner, generation, Window(keys));
    hide StoreInv, Covered, Crowded, ReplaceWindow, EnqueueAll;
  }

  /** A window of an earlier epoch changes nothing. */
  lemma OldWindowIsIgnored(s: Store, now: nat, owner: string, generation: nat, keys: seq<Key>)
    requires !Current(s, owner, generation)
    ensures ReplaceWindow(s, now, owner, generation, keys) == s
  {
  }

  // ----- In the order asked for -----

  /** Jobs that joined later come later and have higher numbers. */
  ghost predicate TailSorted(queue: seq<Job>, since: nat) {
    forall p, q :: 0 <= p < q < |queue| && queue[p].id > since ==> queue[p].id < queue[q].id
  }

  lemma IdsIssued(s: Store)
    requires StoreInv(s)
    ensures forall j :: j in s.queue ==> 1 <= j.id <= s.next
  {
    forall j | j in s.queue ensures 1 <= j.id <= s.next {
      CountMember(s.queue, HasId(j.id), j);
      assert Count(s.queue, HasId(j.id)) + Count(s.active, HasId(j.id)) <= if 1 <= j.id <= s.next then 1 else 0;
    }
  }

  lemma {:induction false} TailStaysSorted(s: Store, now: nat, owner: string, generation: nat, keys: seq<Key>, since: nat)
    requires StoreInv(s) && TailSorted(s.queue, since) && since <= s.next
    ensures TailSorted(EnqueueAll(s, now, owner, generation, keys).queue, since)
    decreases |keys|
  {
    hide StoreInv, Enqueue, TailSorted;
    if keys != [] {
      PrefetchStep(s, now, owner, generation, keys[0]);
      RequestKeepsTail(s, now, owner, generation, keys[0], since);
      TailStaysSorted(Enqueue(s, now, owner, generation, keys[0], false), now, owner, generation, keys[1..], since);
    }
  }

  lemma RequestKeepsTail(s: Store, now: nat, owner: string, generation: nat, key: Key, since: nat)
    requires StoreInv(s) && TailSorted(s.queue, since)
    ensures TailSorted(Enqueue(s, now, owner, generation, key, false).queue, since)
  {
    hide StoreInv, Enqueue, Covered, Crowded, TailSorted;
    var u := Enqueue(s, now, owner, generation, key, false);
    PrefetchStep(s, now, owner, generation, key);
    if u.queue != s.queue {
      var room :| RoomMade(s, room, owner, false) && u.queue == room + [Job(s.next + 1, owner, generation, key, false)];
      IdsIssued(s);
      RoomSorted(s, room, owner, since);
      RoomKeepsOwner(s, room, owner);
      LastSorted(room, Job(s.next + 1, owner, generation, key, false), since);
    }
  }

  lemma LastSorted(room: seq<Job>, last: Job, since: nat)
    requires TailSorted(room, since) && forall j :: j in room ==> j.id < last.id
    ensures TailSorted(room + [last], since)
  {
    assert forall p :: 0 <= p < |room| ==> room[p] in room;
  }

  lemma RoomSorted(s: Store, room: seq<Job>, owner: string, since: nat)
    requires RoomMade(s, room, owner, false) && TailSorted(s.queue, since)
    ensures TailSorted(room, since)
  {
  }

  /** Of two jobs that joined with a window, the one in front was asked for first. */
  lemma {:induction false} JoinedInOrder(s: Store, now: nat, owner: string, generation: nat, keys: seq<Key>, a: Job, b: Job)
    requires StoreInv(s) && Current(s, owner, generation)
    requires var t := EnqueueAll(s, now, owner, generation, keys); a in t.queue && b in t.queue && s.next < a.id < b.id
    ensures exists i :: 0 <= i < |keys| && keys[i] == a.key && b.key !in keys[..i + 1]
    decreases |keys|
  {
    hide StoreInv, Enqueue, Covered, Crowded, Current;
    IdsIssued(s);
    OnlyJoined(s, now, owner, generation, keys);
    if keys != [] {
      var u := Enqueue(s, now, owner, generation, keys[0], false);
      PrefetchStep(s, now, owner, generation, keys[0]);
      RequestCovers(s, now, owner, generation, keys[0]);
      CurrentStays(s, u, owner, generation);
      OnlyJoined(u, now, owner, generation, keys[1..]);
      IdsIssued(u);
      JoinedStep(s, now, owner, generation, keys[0], a);
      JoinedStep(s, now, owner, generation, keys[0], b);
      assert b.id > u.next && b !in u.queue;
      assert b.key != keys[0];
      if a in u.queue {
        assert keys[0] == a.key && b.key !in keys[..0 + 1];
      } else {
        JoinedInOrder(u, now, owner, generation, keys[1..], a, b);
        var i :| 0 <= i < |keys[1..]| && keys[1..][i] == a.key && b.key !in keys[1..][..i + 1];
        assert keys[..i + 2] == [keys[0]] + keys[1..][..i + 1];
        assert keys[i + 1] == a.key;
      }
    }
  }

  lemma CurrentStays(s: Store, u: Store, owner: string, generation: nat)
    requires u.generations == s.generations
    ensures Current(u, owner, generation) == Current(s, owner, generation)
  {
  }

  /** A window is queued in its own order, behind everything that was queued before. */
  lemma WindowInOrder(s: Store, now: nat, owner: string, generation: nat, keys: seq<Key>, p: nat, q: nat)
    requires StoreInv(s) && Current(s, owner, generation)
    requires var t := ReplaceWindow(s, now, owner, generation, keys);
             p < q < |t.queue| && t.queue[p].owner == owner && !t.queue[p].interactive
    ensures var t := ReplaceWindow(s, now, owner, generation, keys);
            && t.queue[q].owner == owner && !t.queue[q].interactive
            && exists i :: 0 <= i < |Window(keys)| && Window(keys)[i] == t.queue[p].key
                           && t.queue[q].key !in Window(keys)[..i + 1]
  {
    var u := WindowStart(s, now, owner, generation, keys);
    var t := ReplaceWindow(s, now, owner, generation, keys);
    IdsIssued(u);
    WindowReplaces(s, now, owner, generation, keys);
    IdsIssued(s);
    assert TailSorted(u.queue, s.next) by {
      forall i | 0 <= i < |u.queue| ensures u.queue[i].id <= s.next {
        assert u.queue[i] in u.queue;
      }
    }
    TailStaysSorted(u, now, owner, generation, Window(keys), s.next);
    assert t.queue[p] in t.queue && t.queue[q] in t.queue;
    hide StoreInv, Current, ReplaceWindow, EnqueueAll, Window;
    JoinedInOrder(u, now, owner, generation, Window(keys), t.queue[p], t.queue[q]);
  }

  // ----- Epochs, starting and finishing -----

  /** A new epoch of an owner is one past its last, or the first; it is refused for a long name or a 65th owner. */
  lemma EpochExactly(s: Store, owner: string)
    ensures var (t, g) := AdvanceGeneration(s, owner);
            if |owner| > 128 || (owner !in s.generations && |s.generations| >= 64)
            then t == s && g == 0
            else && g == (if owner in s.generations then s.generations[owner] + 1 else 1) && Current(t, owner, g)
                 && t.newest == Some(owner) && t.active == s.active && t.next == s.next
                 && forall other :: other != owner ==>
                      (other in t.generations <==> other in s.generations)
                      && (other in s.generations ==> t.generations[other] == s.generations[other])
  {
  }

  /** May start: of the current epoch, not cached, not waiting for its image, and with a slot for its class. */
  predicate MayStart(s: Store, j: Job) {
    && Current(s, j.owner, j.generation)
    && (forall e :: e in s.cache ==> e.key != j.key)
    && (forall a :: a in s.active ==> a.key.kind != j.key.kind || a.key.url != j.key.url)
    && (j.interactive || Count(s.active, Prefetch()) < 6)
  }

  /** a comes after b: visible first, then the newest owner, then backdrops and blurred images. */
  predicate Later(a: Job, b: Job, newest: Option<string>) {
    if a.interactive != b.interactive then b.interactive
    else if (Some(a.owner) == newest) != (Some(b.owner) == newest) then Some(b.owner) == newest
    else (b.key.blurred || b.key.kind.Backdrop?) && !(a.key.blurred || a.key.kind.Backdrop?)
  }

  lemma MayStartExactly(s: Store, j: Job)
    ensures MayStart(s, j) <==> Runnable(s)(j) && Eligible(j, s.active)
  {
    CountZero(s.cache, HasKey(j.key));
    CountZero(s.active, OnSource(j.key.Source()));
    forall e | e in s.cache ensures e.key != j.key <==> !HasKey(j.key)(e) {
    }
    forall a | a in s.active
      ensures a.key.kind != j.key.kind || a.key.url != j.key.url <==> !OnSource(j.key.Source())(a)
    {
    }
    if MayStart(s, j) {
      forall i | 0 <= i < |s.cache| ensures !HasKey(j.key)(s.cache[i]) {
        assert s.cache[i] in s.cache;
      }
      forall i | 0 <= i < |s.active| ensures !OnSource(j.key.Source())(s.active[i]) {
        assert s.active[i] in s.active;
      }
    }
  }

  /**
   The job that starts is one of the queue that may, and none that may comes before it in the order of visible
   first, newest owner first, backdrops and blurred images first; it moves to a slot of its own.
   */
  lemma StartsTheFirst(s: Store)
    requires StoreInv(s)
    ensures var (t, started) := StartNext(s);
            && t.cache == s.cache && t.generations == s.generations && t.next == s.next && t.newest == s.newest
            && (started.None? ==> t.active == s.active
                                  && (|s.active| >= 8 || forall j :: j in s.queue ==> !MayStart(s, j)))
            && (started.Some? ==>
                  var j := started.value;
                  && |s.active| < 8 && j in s.queue && MayStart(s, j)
                  && t.active == s.active + [j] && j !in t.queue
                  && forall other :: other in s.queue && MayStart(s, other) ==> !Later(j, other, s.newest))
  {
    if |s.active| < ACTIVE {
      var p := Purge(s);
      FilterQueue(s, Runnable(s));
      PickIsMaximum(p.queue, p.active, p.newest);
      forall j ensures j in p.queue && Eligible(j, s.active) <==> j in s.queue && MayStart(s, j) {
        FilterMember(s.queue, Runnable(s), j);
        MayStartExactly(s, j);
      }
      forall a: Job, b: Job ensures Later(a, b, s.newest) == Lower(a, b, s.newest) {
      }
      hide MayStart, Runnable, StoreInv, Eligible, Later, Lower;
      if Pick(p.queue, p.active, p.newest).Some? {
        StartedMoves(s, p, Pick(p.queue, p.active, p.newest).value);
      }
    }
  }

  lemma StartedMoves(s: Store, p: Store, i: nat)
    requires p == Purge(s) && StoreInv(p) && i < |p.queue| && |s.active| < ACTIVE
    requires Eligible(p.queue[i], p.active)
    ensures Begin(p, i).active == s.active + [p.queue[i]] && p.queue[i] !in Begin(p, i).queue
  {
    var j := p.queue[i];
    FilterMember(s.queue, Runnable(s), j);
    BeginInv(p, i);
    assert Count(p.queue, HasId(j.id)) + Count(p.active, HasId(j.id)) <= 1;
    CountMember(p.queue, HasId(j.id), j);
    FilterRemove(p.queue, i, HasId(j.id));
    if j in Remove(p.queue, i) {
      CountMember(Remove(p.queue, i), HasId(j.id), j);
    }
  }

  /** A finished job leaves its slot; its result, with the size of its image, is the most recent entry or is dropped with its epoch. */
  lemma FinishExactly(s: Store, j: Job, art: Art)
    requires StoreInv(s) && j in s.active
    ensures var (t, kept) := Complete(s, j, art);
            && (kept <==> Current(s, j.owner, j.generation))
            && t.cache == s.cache + (if kept then [Cached(j.key, art, if art.Image? then art.size else 0)] else [])
            && t.queue == s.queue && t.generations == s.generations && t.newest == s.newest && t.next == s.next
            && forall other :: other in t.active <==> other in s.active && other != j
  {
    var t := Complete(s, j, art).0;
    assert Count(s.queue, HasId(j.id)) + Count(s.active, HasId(j.id)) <= 1;
    forall other ensures other in t.active <==> other in s.active && other != j {
      FilterMember(s.active, OtherId(j.id), other);
      if other in s.active && other != j && other.id == j.id {
        SameIdTwice(s.active, j, other);
      }
    }
  }

  lemma SameIdTwice(jobs: seq<Job>, a: Job, b: Job)
    requires a in jobs && b in jobs && a != b && a.id == b.id
    ensures Count(jobs, HasId(a.id)) >= 2
  {
    var i :| 0 <= i < |jobs| && jobs[i] == a;
    FilterRemove(jobs, i, HasId(a.id));
    RemoveMember(jobs, i, b);
    CountMember(Remove(jobs, i), HasId(a.id), b);
  }

  // ----- Lookups -----

  /** The most recent entry is that of the key; the others keep their order. */
  predicate MadeRecent(before: seq<Cached>, after: seq<Cached>, k: Key) {
    if forall e :: e in before ==> e.key != k then after == before
    else exists i :: 0 <= i < |before| && before[i].key == k && after == before[..i] + before[i + 1..] + [before[i]]
  }

  lemma TouchExactly(cache: seq<Cached>, k: Key)
    ensures MadeRecent(cache, Touch(cache, k), k)
    ensures Entry(cache, k).Some? ==> exists e :: e in cache && e.key == k && e.art == Entry(cache, k).value
    ensures Entry(cache, k).None? ==> forall e :: e in cache ==> e.key != k
  {
    var i := First(cache, HasKey(k));
    if i < |cache| {
      assert cache[i] in cache && cache[i].key == k;
      assert Touch(cache, k) == cache[..i] + cache[i + 1..] + [cache[i]];
    } else {
      forall e | e in cache ensures e.key != k {
        var n :| 0 <= n < |cache| && cache[n] == e;
        assert !HasKey(k)(cache[n]);
      }
    }
  }

  lemma OneEntry(s: Store, x: Cached, y: Cached)
    requires StoreInv(s) && x in s.cache && y in s.cache && x.key == y.key
    ensures x == y
  {
    assert Count(s.cache, HasKey(x.key)) + Count(s.active, OnKey(x.key)) <= 1;
    var i :| 0 <= i < |s.cache| && s.cache[i] == x;
    FilterRemove(s.cache, i, HasKey(x.key));
    RemoveMember(s.cache, i, y);
    if y in Remove(s.cache, i) {
      CountMember(Remove(s.cache, i), HasKey(x.key), y);
    }
  }

  /** A lookup finds an image exactly if the key's entry is one; the entry, whatever it is, becomes the most recent. */
  lemma LookupExactly(s: Store, k: Key)
    requires StoreInv(s)
    ensures var (t, found) := Lookup(s, k);
            && t == s.(cache := t.cache) && MadeRecent(s.cache, t.cache, k)
            && forall image :: found == Some(image) <==>
                 exists e :: e in s.cache && e.key == k && e.art.Image? && e.art.image == image
  {
    TouchExactly(s.cache, k);
    if Entry(s.cache, k).Some? {
      var e :| e in s.cache && e.key == k && e.art == Entry(s.cache, k).value;
      forall x | x in s.cache && x.key == k ensures x == e {
        OneEntry(s, x, e);
      }
    }
    hide StoreInv, Entry, Touch;
  }

  /** A decorated key finds what is known of its undecorated image, once misses whose time is up are forgotten. */
  lemma SourceExactly(s: Store, now: nat, k: Key)
    requires StoreInv(s)
    ensures var (t, found) := SourceOf(s, now, k);
            && t == s.(cache := t.cache) && MadeRecent(Expire(s, now).cache, t.cache, Key(k.kind, k.url, false))
            && (forall e :: e in t.cache <==> e in s.cache && Fresh(e, now))
            && forall art :: found == Some(art) <==>
                 exists e :: e in s.cache && e.key == Key(k.kind, k.url, false) && e.art == art && Fresh(e, now)
  {
    var u, source := Expire(s, now), Key(k.kind, k.url, false);
    FilterCache(s, Unexpired(now));
    ExpireExactly(s, now);
    TouchExactly(u.cache, source);
    TouchMembers(u.cache, source);
    if Entry(u.cache, source).Some? {
      var e :| e in u.cache && e.key == source && e.art == Entry(u.cache, source).value;
      forall x | x in u.cache && x.key == source ensures x == e {
        OneEntry(u, x, e);
      }
    }
    hide StoreInv, Entry, Touch, Expire, Fresh, MadeRecent;
  }

  lemma TouchMembers(cache: seq<Cached>, k: Key)
    ensures forall e :: e in Touch(cache, k) <==> e in cache
  {
    var i := First(cache, HasKey(k));
    if i < |cache| {
      forall e ensures e in Touch(cache, k) <==> e in cache {
        RemoveMember(cache, i, e);
      }
    }
  }
}
