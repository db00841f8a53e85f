/**
 The artwork store: a bounded priority queue, eight worker slots of which two are kept for
 interactive work, epochs per owner, and a decoded cache in least-recently-used order. Each
 function is one update of the store.
 */
module Artwork {
  import opened Util
  import opened Lists

  const ACTIVE: nat := 8
  const QUEUED: nat := 128
  const INTERACTIVE_RESERVED: nat := 2
  const OWNERS: nat := 64
  const OWNER_NAME: nat := 128

  datatype Kind = Poster | Backdrop | Still

  datatype Key = Key(kind: Kind, url: string, blurred: bool) {
    /** The undecorated image a blurred key derives from. */
    function Source(): Key { Key(kind, url, false) }
  }

  datatype Job = Job(id: nat, owner: string, generation: nat, key: Key, interactive: bool)

  /** A decoded image, a miss remembered until a time, or another failure. */
  datatype Art = Image(image: nat, size: nat) | Miss(until: nat) | Failure

  datatype Cached = Cached(key: Key, art: Art, bytes: nat)

  datatype Store = Store(
    generations: map<string, nat>,
    queue: seq<Job>,
    active: seq<Job>,
    cache: seq<Cached>,
    next: nat,
    newest: Option<string>)

  function NewStore(): Store { Store(map[], [], [], [], 0, None) }

  // ----- Tests on entries and jobs -----

  predicate Expired(art: Art, now: nat) { art.Miss? && now >= art.until }

  function Unexpired(now: nat): Cached -> bool { (e: Cached) => !Expired(e.art, now) }

  function IsImage(): Cached -> bool { (e: Cached) => e.art.Image? }

  function HasKey(k: Key): Cached -> bool { (e: Cached) => e.key == k }

  function OnKey(k: Key): Job -> bool { (j: Job) => j.key == k }

  function OnSource(k: Key): Job -> bool { (j: Job) => j.key.Source() == k }

  function HasId(id: nat): Job -> bool { (j: Job) => j.id == id }

  function OtherId(id: nat): Job -> bool { (j: Job) => j.id != id }

  function Prefetch(): Job -> bool { (j: Job) => !j.interactive }

  function NotOf(owner: string): Job -> bool { (j: Job) => j.owner != owner }

  function Kept(owner: string): Job -> bool { (j: Job) => j.owner != owner || j.interactive }

  function Wanted(k: Key, owner: string, generation: nat): Job -> bool {
    (j: Job) => j.key == k && j.owner == owner && j.generation == generation
  }

  predicate Present(generations: map<string, nat>, owner: string, generation: nat) {
    owner in generations && generations[owner] == generation
  }

  function Runnable(s: Store): Job -> bool {
    (j: Job) => Present(s.generations, j.owner, j.generation) && Count(s.cache, HasKey(j.key)) == 0
  }

  // ----- Epochs -----

  function Owners(generations: map<string, nat>): nat { |generations| }

  predicate Refused(s: Store, owner: string) {
    |owner| > OWNER_NAME || (owner !in s.generations && Owners(s.generations) >= OWNERS)
  }

  function NextGeneration(s: Store, owner: string): nat {
    if owner in s.generations then s.generations[owner] + 1 else 1
  }

  /** A new epoch drops the owner's queued jobs and every remembered failure. */
  function AdvanceGeneration(s: Store, owner: string): (Store, nat) {
    if Refused(s, owner) then (s, 0)
    else
      (s.(generations := s.generations[owner := NextGeneration(s, owner)],
          queue := Filter(s.queue, NotOf(owner)),
          cache := Filter(s.cache, IsImage()),
          newest := Some(owner)),
       NextGeneration(s, owner))
  }

  // ----- Queueing -----

  function Expire(s: Store, now: nat): Store { s.(cache := Filter(s.cache, Unexpired(now))) }

  predicate Ignored(s: Store, owner: string, generation: nat, key: Key) {
    || !Present(s.generations, owner, generation)
    || Count(s.cache, HasKey(key)) > 0
    || Count(s.active, Wanted(key, owner, generation)) > 0
  }

  /** Prefetch jobs that a full queue may give up. */
  function Expendable(s: Store, owner: string, interactive: bool): Job -> bool {
    (j: Job) => !j.interactive && (interactive || (s.newest == Some(owner) && j.owner != owner))
  }

  /** The queue with room for one more job, or None when the newcomer is refused. */
  function MakeRoom(s: Store, owner: string, interactive: bool): Option<seq<Job>> {
    if |s.queue| < QUEUED then Some(s.queue)
    else
      var i := First(s.queue, Expendable(s, owner, interactive));
      if i < |s.queue| then Some(Remove(s.queue, i))
      else if interactive then Some(s.queue[1..])
      else None
  }

  function Promote(j: Job, interactive: bool): Job { j.(interactive := j.interactive || interactive) }

  function EnqueueFresh(s: Store, owner: string, generation: nat, key: Key, interactive: bool): Store {
    if Ignored(s, owner, generation, key) then s
    else
      var i := First(s.queue, Wanted(key, owner, generation));
      if i < |s.queue| then s.(queue := s.queue[i := Promote(s.queue[i], interactive)])
      else
        match MakeRoom(s, owner, interactive)
        case None => s
        case Some(room) =>
          s.(next := s.next + 1, queue := room + [Job(s.next + 1, owner, generation, key, interactive)])
  }

  function Enqueue(s: Store, now: nat, owner: string, generation: nat, key: Key, interactive: bool): Store {
    EnqueueFresh(Expire(s, now), owner, generation, key, interactive)
  }

  function EnqueueAll(s: Store, now: nat, owner: string, generation: nat, keys: seq<Key>): Store
    decreases |keys|
  {
    if keys == [] then s
    else EnqueueAll(Enqueue(s, now, owner, generation, keys[0], false), now, owner, generation, keys[1..])
  }

  /** Replaces the owner's queued prefetch by a new window. */
  function ReplaceWindow(s: Store, now: nat, owner: string, generation: nat, keys: seq<Key>): Store {
    if !Present(s.generations, owner, generation) then s
    else EnqueueAll(s.(queue := Filter(s.queue, Kept(owner))), now, owner, generation,
                    if |keys| <= QUEUED then keys else keys[..QUEUED])
  }

  // ----- Starting work -----

  predicate PrefetchFull(active: seq<Job>) { Count(active, Prefetch()) >= ACTIVE - INTERACTIVE_RESERVED }

  predicate Eligible(j: Job, active: seq<Job>) {
    (j.interactive || !PrefetchFull(active)) && Count(active, OnSource(j.key.Source())) == 0
  }

  predicate Important(k: Key) { k.blurred || k.kind.Backdrop? }

  /** The stated priority without the position: visible first, then the newest owner, then large images. */
  function Rank(j: Job, newest: Option<string>): nat {
    (if j.interactive then 4 else 0) + (if newest == Some(j.owner) then 2 else 0) + (if Important(j.key) then 1 else 0)
  }

  /** The eligible job of highest rank, the earliest of equals. */
  function Pick(queue: seq<Job>, active: seq<Job>, newest: Option<string>): (pick: Option<nat>)
    ensures pick.Some? ==> pick.value < |queue|
    decreases |queue|
  {
    if queue == [] then None
    else
      var last := |queue| - 1;
      match Pick(queue[..last], active, newest)
      case None => if Eligible(queue[last], active) then Some(last) else None
      case Some(i) =>
        if Eligible(queue[last], active) && Rank(queue[last], newest) > Rank(queue[i], newest) then Some(last)
        else Some(i)
  }

  function Purge(s: Store): Store { s.(queue := Filter(s.queue, Runnable(s))) }

  /** Moves a queued job to a worker slot. */
  function Begin(s: Store, i: nat): Store
    requires i < |s.queue|
  {
    s.(queue := Remove(s.queue, i), active := Filter(s.active, OtherId(s.queue[i].id)) + [s.queue[i]])
  }

  function StartNext(s: Store): (Store, Option<Job>) {
    if |s.active| >= ACTIVE then (s, None)
    else
      var p := Purge(s);
      match Pick(p.queue, p.active, p.newest)
      case Some(i) => (Begin(p, i), Some(p.queue[i]))
      case None => (p, None)
  }

  // ----- Results and lookups -----

  function Bytes(art: Art): nat { if art.Image? then art.size else 0 }

  /** The slot is freed; the result is kept only while the owner's epoch is the job's. */
  function Complete(s: Store, j: Job, art: Art): (Store, bool) {
    var freed := s.(active := Filter(s.active, OtherId(j.id)));
    if !Present(s.generations, j.owner, j.generation) then (freed, false)
    else (freed.(cache := s.cache + [Cached(j.key, art, Bytes(art))]), true)
  }

  /** Moves the entry to the recent end. */
  function Touch(cache: seq<Cached>, k: Key): seq<Cached> {
    var i := First(cache, HasKey(k));
    if i < |cache| then Remove(cache, i) + [cache[i]] else cache
  }

  function Entry(cache: seq<Cached>, k: Key): Option<Art> {
    var i := First(cache, HasKey(k));
    if i < |cache| then Some(cache[i].art) else None
  }

  function Lookup(s: Store, k: Key): (Store, Option<nat>) {
    (s.(cache := Touch(s.cache, k)),
     match Entry(s.cache, k) case Some(Image(image, _)) => Some(image) case _ => None)
  }

  function SourceOf(s: Store, now: nat, k: Key): (Store, Option<Art>) {
    var e := Expire(s, now);
    (e.(cache := Touch(e.cache, k.Source())), Entry(e.cache, k.Source()))
  }
}
