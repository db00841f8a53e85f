/**
 The range-fetch cache: a sliding window of fixed-size chunks under a read cursor, filled by
 out-of-order completions of concurrent range requests and invalidated by seeks.
 Instants are milliseconds; rates are reals.
 */
module RangeFetch {
  import opened Util
  import opened ByteRanges
  import opened HttpRange

  const CHUNK: nat := 65536
  const SLOTS: nat := 8
  const WORKERS: nat := 4

  type Byte = b: int | 0 <= b < 256

  datatype Job = Job(start: nat, end: nat, total: nat, generation: nat, attempt: nat)

  datatype Key = Key(generation: nat, start: nat)

  datatype Failure = Cancelled | Transport | RetryableStatus | InvalidRange

  datatype Retry = Retry(attempt: nat, after: nat)

  datatype Controller = Controller(limit: nat, healthy: nat, cooldown: nat)

  datatype Cache = Cache(
    total: nat,
    cursor: nat,
    generation: nat,
    ready: map<nat, seq<Byte>>,
    flights: map<Key, Job>,
    retries: map<nat, Retry>,
    controller: Controller,
    sampleErrors: nat,
    fatal: bool,
    firstDispatch: Option<nat>)

  function Base(offset: nat): (b: nat)
    ensures b % CHUNK == 0 && b <= offset < b + CHUNK
  {
    offset / CHUNK * CHUNK
  }

  /** A chunk boundary is the base of exactly the offsets in its chunk. */
  lemma BaseUnique(offset: nat, start: nat)
    requires start % CHUNK == 0
    ensures Base(offset) <= start <==> offset < start + CHUNK
    ensures Base(offset) == start <==> start <= offset < start + CHUNK
    ensures Base(offset) < start ==> Base(offset) + CHUNK <= start
  {
  }

  function Backoff(attempt: nat): nat {
    if attempt == 0 then 20 else 2 * Backoff(attempt - 1)
  }

  // ----- Transitions -----

  function NewCache(total: nat): Cache {
    Cache(total, 0, 0, map[], map[], map[], Controller(1, 0, 0), 0, false, None)
  }

  /** Old requests keep their reservations until they complete. */
  function Seek(c: Cache, to: nat): Cache {
    c.(cursor := Min(to, c.total), generation := c.generation + 1, ready := map[], retries := map[], firstDispatch := None)
  }

  /** End of the contiguous data available from `end` on. */
  function AheadEnd(c: Cache, end: nat): (e: nat)
    ensures end <= e
    decreases c.total - end
  {
    if end >= c.total || Base(end) !in c.ready then end
    else
      var next := Base(end) + |c.ready[Base(end)]|;
      if next <= end then end else AheadEnd(c, next)
  }

  function Ahead(c: Cache): nat {
    AheadEnd(c, c.cursor) - c.cursor
  }

  /** The cached byte at an offset, if its chunk is ready and long enough. */
  function Lookup(c: Cache, offset: nat): Option<Byte> {
    if Base(offset) in c.ready && offset - Base(offset) < |c.ready[Base(offset)]|
    then Some(c.ready[Base(offset)][offset - Base(offset)])
    else None
  }

  function Granted(c: Cache, wanted: nat): nat {
    Min(wanted, Ahead(c))
  }

  function Consume(c: Cache, wanted: nat): Cache {
    var end := c.cursor + Granted(c, wanted);
    c.(cursor := end, ready := map start | start in c.ready && start + |c.ready[start]| > end :: c.ready[start])
  }

  function InFlight(c: Cache): nat { |c.flights.Keys| }

  /** Slots in use: chunks that can be read and requests of any generation that have not landed. */
  function Reservations(c: Cache): nat { |c.ready.Keys| + |c.flights.Keys| }

  /** True when the loop over the window must stop before this chunk. */
  predicate WindowClosed(c: Cache, start: nat) {
    start >= c.total || InFlight(c) >= c.controller.limit || Reservations(c) >= SLOTS
  }

  predicate BackingOff(c: Cache, start: nat, now: nat) {
    start in c.retries && now < c.retries[start].after
  }

  predicate Held(c: Cache, start: nat) {
    start in c.ready || Key(c.generation, start) in c.flights
  }

  function JobFor(c: Cache, start: nat): Job
    requires start < c.total
  {
    Job(start, Min(start + CHUNK, c.total) - 1, c.total, c.generation,
        if start in c.retries then c.retries[start].attempt else 0)
  }

  function Dispatch(c: Cache, start: nat): Cache
    requires start < c.total
  {
    c.(flights := c.flights[Key(c.generation, start) := JobFor(c, start)],
       firstDispatch := if c.firstDispatch.None? then Some(start) else c.firstDispatch)
  }

  /** Start of the window chunk with this index. */
  function WindowStart(c: Cache, index: nat): nat { Base(c.cursor) + index * CHUNK }

  /** One window chunk: skip it when it is held or backing off, otherwise request it. */
  function Visit(c: Cache, start: nat, now: nat): Cache
    requires start < c.total
  {
    if Held(c, start) || BackingOff(c, start, now) then c else Dispatch(c, start)
  }

  function ScheduleFrom(c: Cache, now: nat, index: nat): Cache
    requires index <= SLOTS
    decreases SLOTS - index
  {
    var start := WindowStart(c, index);
    if index == SLOTS || WindowClosed(c, start) then c
    else ScheduleFrom(Visit(c, start, now), now, index + 1)
  }

  function Schedule(c: Cache, now: nat): Cache {
    if c.fatal then c else ScheduleFrom(c, now, 0)
  }

  /** A landed request frees its reservation, whatever its generation or result. */
  function Landed(c: Cache, job: Job): Cache {
    c.(flights := c.flights - {Key(job.generation, job.start)})
  }

  function Arrived(c: Cache, start: nat, bytes: seq<Byte>): Cache {
    c.(retries := c.retries - {start}, ready := c.ready[start := bytes])
  }

  function Failed(c: Cache, job: Job, failure: Failure, now: nat): Cache {
    if failure == Cancelled then c
    else if failure == InvalidRange || job.attempt >= 3 then c.(sampleErrors := c.sampleErrors + 1, fatal := true)
    else
      c.(sampleErrors := c.sampleErrors + 1,
         retries := c.retries[job.start := Retry(job.attempt + 1, now + Backoff(job.attempt))])
  }

  function Complete(c: Cache, job: Job, result: Result<seq<Byte>, Failure>, now: nat): Cache {
    var landed := Landed(c, job);
    if job.generation != c.generation then landed
    else
      match result
      case Ok(bytes) => Arrived(landed, job.start, bytes)
      case Err(failure) => Failed(landed, job, failure, now)
  }

  /** The next limit; `StepInv` keeps it between one and the number of workers. */
  function Adapt(c: Controller, ahead: nat, demand: real, throughput: real, errors: nat): Controller {
    if errors > 0 then Controller((c.limit + 1) / 2, 0, 2)
    else if c.cooldown > 0 then c.(cooldown := c.cooldown - 1)
    else if ahead as real < demand * 0.15 || (ahead as real < demand * 0.4 && throughput < demand * 1.15) then
      c.(limit := Min(c.limit + 1, WORKERS), healthy := 0)
    else if ahead as real > demand * 0.4 then
      if c.healthy + 1 >= 3 then Controller(Max(c.limit - 1, 1), 0, 2)
      else c.(healthy := c.healthy + 1)
    else c.(healthy := 0)
  }

  function Sample(c: Cache, demand: real, throughput: real): Cache {
    c.(controller := Adapt(c.controller, Ahead(c), demand, throughput, c.sampleErrors), sampleErrors := 0)
  }

  lemma ScheduleUnroll(c: Cache, now: nat, index: nat)
    requires index <= SLOTS
    ensures index == SLOTS || WindowClosed(c, WindowStart(c, index)) ==> ScheduleFrom(c, now, index) == c
    ensures index < SLOTS && !WindowClosed(c, WindowStart(c, index)) ==>
      ScheduleFrom(c, now, index) == ScheduleFrom(Visit(c, WindowStart(c, index), now), now, index + 1)
  {
  }

  // ----- The invariant -----

  predicate InWindow(c: Cache, start: nat) {
    start % CHUNK == 0 && start < c.total && Base(c.cursor) <= start < Base(c.cursor) + SLOTS * CHUNK
  }

  function ChunkEnd(c: Cache, start: nat): nat { Min(start + CHUNK, c.total) }

  /** A ready chunk is a window chunk holding exactly the file's bytes. */
  predicate ReadyOk(c: Cache, file: seq<Byte>, start: nat, bytes: seq<Byte>) {
    InWindow(c, start) && |file| == c.total && bytes == file[start..ChunkEnd(c, start)]
  }

  ghost predicate ReadyExact(c: Cache, file: seq<Byte>) {
    forall s :: s in c.ready ==> ReadyOk(c, file, s, c.ready[s])
  }

  /** A flight is filed under its own generation and chunk; one of this generation is a missing window chunk. */
  predicate FlightOk(c: Cache, key: Key, job: Job) {
    && key.generation <= c.generation && key.start % CHUNK == 0 && key.start < c.total
    && job == Job(key.start, ChunkEnd(c, key.start) - 1, c.total, key.generation, job.attempt) && job.attempt <= 3
    && (key.generation == c.generation ==> InWindow(c, key.start) && key.start !in c.ready)
  }

  ghost predicate FlightsTracked(c: Cache) {
    forall k :: k in c.flights ==> FlightOk(c, k, c.flights[k])
  }

  ghost predicate RetriesBounded(c: Cache) {
    forall s :: s in c.retries ==> 1 <= c.retries[s].attempt <= 3
  }

  ghost predicate Reserved(c: Cache) {
    && 1 <= c.controller.limit <= WORKERS
    && InFlight(c) <= WORKERS
    && Reservations(c) <= SLOTS
  }

  ghost predicate Inv(c: Cache, file: seq<Byte>) {
    && |file| == c.total && c.cursor <= c.total
    && ReadyExact(c, file) && FlightsTracked(c) && RetriesBounded(c) && Reserved(c)
  }

  // ----- Ahead is the longest available prefix -----

  lemma ReadyByte(c: Cache, file: seq<Byte>, start: nat, offset: nat)
    requires Inv(c, file) && start in c.ready && start <= offset < ChunkEnd(c, start)
    ensures Lookup(c, offset) == Some(file[offset])
  {
    hide InFlight, Reservations;
    assert ReadyOk(c, file, start, c.ready[start]);
    BaseUnique(offset, start);
  }

  /** Every offset before the end is cached with the file's byte; the end is the file's end or a hole. */
  lemma {:induction false} AheadEndExact(c: Cache, file: seq<Byte>, from: nat)
    requires Inv(c, file) && c.cursor <= from <= c.total
    ensures var e := AheadEnd(c, from);
            && e <= c.total
            && (forall o :: from <= o < e ==> Lookup(c, o) == Some(file[o]))
            && (e < c.total ==> Lookup(c, e) == None)
    decreases c.total - from
  {
    hide InFlight, Reservations;
    if from < c.total && Base(from) in c.ready {
      var start := Base(from);
      assert ReadyOk(c, file, start, c.ready[start]);
      var next := ChunkEnd(c, start);
      assert AheadEnd(c, from) == AheadEnd(c, next);
      AheadEndExact(c, file, next);
      forall o | from <= o < next ensures Lookup(c, o) == Some(file[o]) {
        ReadyByte(c, file, start, o);
      }
    } else {
      assert AheadEnd(c, from) == from;
    }
  }

  /** A count of bytes can be read ahead exactly when all of them are in the file and cached. */
  lemma AheadIsLongestPrefix(c: Cache, file: seq<Byte>, count: nat)
    requires Inv(c, file)
    ensures count <= Ahead(c) <==>
            c.cursor + count <= c.total && forall o :: c.cursor <= o < c.cursor + count ==> Lookup(c, o).Some?
  {
    AheadEndExact(c, file, c.cursor);
  }

  /** This many bytes from the cursor on are in the file and cached. */
  ghost predicate CachedAhead(c: Cache, count: nat) {
    c.cursor + count <= c.total && forall o :: c.cursor <= o < c.cursor + count ==> Lookup(c, o).Some?
  }

  /**
   A read moves the cursor over no more than was wanted and over all that was wanted and is cached without
   a hole, and gives up no byte still to be read.
   */
  lemma ReadsAllThatIsCached(c: Cache, file: seq<Byte>, wanted: nat, count: nat)
    requires Inv(c, file)
    ensures var d := Consume(c, wanted);
            && c.cursor <= d.cursor <= c.total && d.cursor - c.cursor <= wanted
            && CachedAhead(c, d.cursor - c.cursor)
            && (count <= wanted && CachedAhead(c, count) ==> c.cursor + count <= d.cursor)
            && (forall o :: d.cursor <= o ==> Lookup(d, o) == Lookup(c, o))
  {
    hide InFlight, Reservations;
    AheadIsLongestPrefix(c, file, count);
    AheadEndExact(c, file, c.cursor);
    ConsumeKeepsUnread(c, wanted);
  }

  lemma ConsumeKeepsUnread(c: Cache, wanted: nat)
    ensures forall o :: Consume(c, wanted).cursor <= o ==> Lookup(Consume(c, wanted), o) == Lookup(c, o)
  {
    hide Base;
  }

  // ----- Every step keeps the invariant -----

  datatype Step =
    | StepSeek(to: nat)
    | StepConsume(wanted: nat)
    | StepSchedule(now: nat)
    | StepComplete(job: Job, result: Result<seq<Byte>, Failure>, now: nat)
    | StepSample(demand: real, throughput: real)

  function Next(c: Cache, step: Step): Cache {
    match step
    case StepSeek(to) => Seek(c, to)
    case StepConsume(wanted) => Consume(c, wanted)
    case StepSchedule(now) => Schedule(c, now)
    case StepComplete(job, result, now) => Complete(c, job, result, now)
    case StepSample(demand, throughput) => Sample(c, demand, throughput)
  }

  /** Workers answer each job once, in any order; a success carries the requested bytes. */
  ghost predicate Enabled(c: Cache, file: seq<Byte>, step: Step) {
    step.StepComplete? ==>
      && Key(step.job.generation, step.job.start) in c.flights
      && c.flights[Key(step.job.generation, step.job.start)] == step.job
      && (step.result.Ok? ==> step.job.end < |file| && step.job.start <= step.job.end
                              && step.result.value == file[step.job.start..step.job.end + 1])
  }

  lemma NewCacheInv(file: seq<Byte>)
    ensures Inv(NewCache(|file|), file)
  {
  }

  lemma SeekInv(c: Cache, file: seq<Byte>, to: nat)
    requires Inv(c, file)
    ensures Inv(Seek(c, to), file)
  {
  }

  lemma RestrictedSize<K, V>(m: map<K, V>, n: map<K, V>)
    requires n.Keys <= m.Keys
    ensures |n| <= |m|
  {
    SubsetSize(n.Keys, m.Keys);
  }

  lemma {:induction false} SubsetSize<T>(a: set<T>, b: set<T>)
    requires a <= b
    ensures |a| <= |b|
  {
    if a != {} {
      var x :| x in a;
      SubsetSize(a - {x}, b - {x});
    }
  }

  /** Reading moves the cursor only through ready chunks, so it never passes a chunk still in flight. */
  lemma ConsumeStopsBefore(c: Cache, file: seq<Byte>, wanted: nat, start: nat)
    requires Inv(c, file) && InWindow(c, start) && start !in c.ready
    ensures Base(Consume(c, wanted).cursor) <= start
  {
    hide InFlight, Reservations;
    var end := Consume(c, wanted).cursor;
    AheadEndExact(c, file, c.cursor);
    BaseUnique(end, start);
    BaseUnique(c.cursor, start);
    var o := Max(start, c.cursor);
    BaseUnique(o, start);
    assert o < start + CHUNK ==> Lookup(c, o) == None;
  }

  lemma ConsumeReservations(c: Cache, wanted: nat)
    ensures InFlight(Consume(c, wanted)) == InFlight(c)
    ensures Reservations(Consume(c, wanted)) <= Reservations(c)
  {
    SubsetSize(Consume(c, wanted).ready.Keys, c.ready.Keys);
  }

  lemma ConsumeInv(c: Cache, file: seq<Byte>, wanted: nat)
    requires Inv(c, file)
    ensures Inv(Consume(c, wanted), file)
  {
    hide InFlight, Reservations;
    var d := Consume(c, wanted);
    AheadEndExact(c, file, c.cursor);
    ConsumeReservations(c, wanted);
    ConsumeReady(c, file, wanted);
    ConsumeFlights(c, file, wanted);
    hide AheadEnd, ReadyOk, FlightOk;
  }

  lemma ConsumeReady(c: Cache, file: seq<Byte>, wanted: nat)
    requires Inv(c, file)
    ensures ReadyExact(Consume(c, wanted), file)
  {
    hide InFlight, Reservations, AheadEnd;
    var d := Consume(c, wanted);
    AheadEndExact(c, file, c.cursor);
    assert Base(c.cursor) <= Base(d.cursor) by { BaseUnique(c.cursor, Base(d.cursor)); }
    forall s | s in d.ready ensures ReadyOk(d, file, s, d.ready[s]) {
      assert ReadyOk(c, file, s, c.ready[s]);
      BaseUnique(d.cursor, s);
    }
  }

  lemma ConsumeFlights(c: Cache, file: seq<Byte>, wanted: nat)
    requires Inv(c, file)
    ensures FlightsTracked(Consume(c, wanted))
  {
    hide InFlight, Reservations, AheadEnd;
    var d := Consume(c, wanted);
    assert Base(c.cursor) <= Base(d.cursor) by { BaseUnique(c.cursor, Base(d.cursor)); }
    forall k | k in d.flights ensures FlightOk(d, k, d.flights[k]) {
      assert FlightOk(c, k, c.flights[k]);
      if k.generation == c.generation {
        ConsumeStopsBefore(c, file, wanted, k.start);
      }
    }
  }

  lemma DispatchReservations(c: Cache, start: nat)
    requires start < c.total && !Held(c, start)
    ensures InFlight(Dispatch(c, start)) == InFlight(c) + 1
    ensures Reservations(Dispatch(c, start)) == Reservations(c) + 1
  {
    assert Dispatch(c, start).flights.Keys == c.flights.Keys + {Key(c.generation, start)};
  }

  lemma DispatchInv(c: Cache, file: seq<Byte>, start: nat)
    requires Inv(c, file) && InWindow(c, start) && !Held(c, start) && !WindowClosed(c, start)
    ensures Inv(Dispatch(c, start), file)
  {
    hide InFlight, Reservations;
    DispatchReservations(c, start);
    var d, key := Dispatch(c, start), Key(c.generation, start);
    assert d.flights.Keys == c.flights.Keys + {key};
    forall s | s in d.ready ensures ReadyOk(d, file, s, d.ready[s]) {
      assert ReadyOk(c, file, s, c.ready[s]);
    }
    forall k | k in d.flights ensures FlightOk(d, k, d.flights[k]) {
      assert k != key ==> FlightOk(c, k, c.flights[k]);
    }
  }

  lemma {:induction false} ScheduleInv(c: Cache, file: seq<Byte>, now: nat, index: nat)
    requires Inv(c, file) && index <= SLOTS
    ensures Inv(ScheduleFrom(c, now, index), file)
    decreases SLOTS - index
  {
    hide InFlight, Reservations;
    var start := WindowStart(c, index);
    if index < SLOTS && !WindowClosed(c, start) {
      WindowChunk(c, index);
      if !Held(c, start) {
        DispatchInv(c, file, start);
      }
      var d := Visit(c, start, now);
      assert Inv(d, file);
      ScheduleInv(d, file, now, index + 1);
      assert ScheduleFrom(c, now, index) == ScheduleFrom(d, now, index + 1);
    } else {
      assert ScheduleFrom(c, now, index) == c;
    }
  }

  lemma WindowChunk(c: Cache, index: nat)
    requires index < SLOTS && WindowStart(c, index) < c.total
    ensures InWindow(c, WindowStart(c, index))
  {
  }

  lemma ReservationsFrame(c: Cache, d: Cache)
    requires d.ready == c.ready && d.flights == c.flights
    ensures InFlight(d) == InFlight(c) && Reservations(d) == Reservations(c)
  {
  }

  /** The chunk facts depend on the file, the position, the generation and the two chunk tables only. */
  lemma ChunkFrame(c: Cache, d: Cache, file: seq<Byte>)
    requires Inv(c, file)
    requires d.total == c.total && d.cursor == c.cursor && d.generation == c.generation
    requires d.ready == c.ready && d.flights == c.flights
    requires RetriesBounded(d) && 1 <= d.controller.limit <= WORKERS
    ensures Inv(d, file)
  {
    hide InFlight, Reservations;
    ReservationsFrame(c, d);
    forall s | s in d.ready ensures ReadyOk(d, file, s, d.ready[s]) {
      assert ReadyOk(c, file, s, c.ready[s]);
    }
    forall k | k in d.flights ensures FlightOk(d, k, d.flights[k]) {
      assert FlightOk(c, k, c.flights[k]);
    }
  }

  lemma LandedReservations(c: Cache, job: Job)
    requires Key(job.generation, job.start) in c.flights
    ensures InFlight(Landed(c, job)) == InFlight(c) - 1
    ensures Reservations(Landed(c, job)) == Reservations(c) - 1
  {
    assert Landed(c, job).flights.Keys == c.flights.Keys - {Key(job.generation, job.start)};
  }

  lemma ArrivedReservations(c: Cache, start: nat, bytes: seq<Byte>)
    requires start !in c.ready
    ensures InFlight(Arrived(c, start, bytes)) == InFlight(c)
    ensures Reservations(Arrived(c, start, bytes)) == Reservations(c) + 1
  {
    assert Arrived(c, start, bytes).ready.Keys == c.ready.Keys + {start};
  }

  lemma LandedInv(c: Cache, file: seq<Byte>, job: Job)
    requires Inv(c, file) && Key(job.generation, job.start) in c.flights
    ensures Inv(Landed(c, job), file)
  {
    hide InFlight, Reservations;
    LandedReservations(c, job);
    var key, d := Key(job.generation, job.start), Landed(c, job);
    assert d.flights.Keys == c.flights.Keys - {key};
    forall s | s in d.ready ensures ReadyOk(d, file, s, d.ready[s]) {
      assert ReadyOk(c, file, s, c.ready[s]);
    }
    forall k | k in d.flights ensures FlightOk(d, k, d.flights[k]) {
      assert FlightOk(c, k, c.flights[k]);
    }
  }

  /** A delivered chunk takes over exactly the reservation its request held. */
  lemma ArrivedInv(c: Cache, file: seq<Byte>, start: nat)
    requires Inv(c, file) && InWindow(c, start) && !Held(c, start)
    requires Reservations(c) < SLOTS
    ensures Inv(Arrived(c, start, file[start..ChunkEnd(c, start)]), file)
  {
    hide InFlight, Reservations;
    var d := Arrived(c, start, file[start..ChunkEnd(c, start)]);
    ArrivedReservations(c, start, file[start..ChunkEnd(c, start)]);
    forall s | s in d.ready ensures ReadyOk(d, file, s, d.ready[s]) {
      assert s in c.ready ==> ReadyOk(c, file, s, c.ready[s]);
    }
    forall k | k in d.flights ensures FlightOk(d, k, d.flights[k]) {
      assert FlightOk(c, k, c.flights[k]);
    }
  }

  lemma SuccessInv(c: Cache, file: seq<Byte>, job: Job)
    requires Inv(c, file)
    requires Key(job.generation, job.start) in c.flights && c.flights[Key(job.generation, job.start)] == job
    requires job.generation == c.generation
    ensures Inv(Arrived(Landed(c, job), job.start, file[job.start..job.end + 1]), file)
  {
    hide InFlight, Reservations;
    assert FlightOk(c, Key(job.generation, job.start), job);
    LandedInv(c, file, job);
    LandedReservations(c, job);
    var landed := Landed(c, job);
    assert InWindow(landed, job.start) && !Held(landed, job.start);
    assert landed.ready == c.ready && job.end + 1 == ChunkEnd(landed, job.start);
    ArrivedInv(landed, file, job.start);
  }

  lemma FailureInv(c: Cache, file: seq<Byte>, job: Job, failure: Failure, now: nat)
    requires Inv(c, file)
    ensures Inv(Failed(c, job, failure, now), file)
  {
    hide InFlight, Reservations;
    ChunkFrame(c, Failed(c, job, failure, now), file);
  }

  lemma CompleteInv(c: Cache, file: seq<Byte>, job: Job, result: Result<seq<Byte>, Failure>, now: nat)
    requires Inv(c, file) && Enabled(c, file, StepComplete(job, result, now))
    ensures Inv(Complete(c, job, result, now), file)
  {
    hide InFlight, Reservations;
    LandedInv(c, file, job);
    if job.generation == c.generation {
      match result {
        case Ok(bytes) => SuccessInv(c, file, job);
        case Err(failure) => FailureInv(Landed(c, job), file, job, failure, now);
      }
    }
  }

  lemma StepInv(c: Cache, file: seq<Byte>, step: Step)
    requires Inv(c, file) && Enabled(c, file, step)
    ensures Inv(Next(c, step), file)
  {
    hide InFlight, Reservations;
    match step {
      case StepSeek(to) => SeekInv(c, file, to);
      case StepConsume(wanted) => ConsumeInv(c, file, wanted);
      case StepSchedule(now) => if !c.fatal { ScheduleInv(c, file, now, 0); }
      case StepComplete(job, result, now) => CompleteInv(c, file, job, result, now);
      case StepSample(demand, throughput) => ChunkFrame(c, Sample(c, demand, throughput), file);
    }
  }

  // ----- Whole runs -----

  function Run(c: Cache, steps: seq<Step>): Cache
    decreases |steps|
  {
    if steps == [] then c else Run(Next(c, steps[0]), steps[1..])
  }

  ghost predicate Possible(c: Cache, file: seq<Byte>, steps: seq<Step>)
    decreases |steps|
  {
    steps != [] ==> Enabled(c, file, steps[0]) && Possible(Next(c, steps[0]), file, steps[1..])
  }

  /** The bytes one step hands to the reader, taken from the cached chunks. */
  function Exposed(c: Cache, step: Step): seq<Option<Byte>> {
    if step.StepConsume? then seq(Granted(c, step.wanted), k requires 0 <= k => Lookup(c, c.cursor + k)) else []
  }

  function Delivered(c: Cache, steps: seq<Step>): seq<Option<Byte>>
    decreases |steps|
  {
    if steps == [] then [] else Exposed(c, steps[0]) + Delivered(Next(c, steps[0]), steps[1..])
  }

  function Somes(bytes: seq<Byte>): seq<Option<Byte>> {
    seq(|bytes|, i requires 0 <= i < |bytes| => Some(bytes[i]))
  }

  lemma {:induction false} RunInv(c: Cache, file: seq<Byte>, steps: seq<Step>)
    requires Inv(c, file) && Possible(c, file, steps)
    ensures Inv(Run(c, steps), file)
    decreases |steps|
  {
    hide InFlight, Reservations;
    if steps != [] {
      StepInv(c, file, steps[0]);
      RunInv(Next(c, steps[0]), file, steps[1..]);
    }
  }

  ghost predicate SameButFlights(c: Cache, d: Cache) {
    && d.total == c.total && d.cursor == c.cursor && d.generation == c.generation && d.ready == c.ready
    && d.retries == c.retries && d.controller == c.controller && d.sampleErrors == c.sampleErrors && d.fatal == c.fatal
  }

  /** Scheduling changes the flights and the dispatch record, nothing else. */
  lemma {:induction false} ScheduleFrame(c: Cache, now: nat, index: nat)
    requires index <= SLOTS
    ensures SameButFlights(c, ScheduleFrom(c, now, index))
    decreases SLOTS - index
  {
    hide InFlight, Reservations;
    var start := WindowStart(c, index);
    if index < SLOTS && !WindowClosed(c, start) {
      var d := Visit(c, start, now);
      VisitFrame(c, start, now);
      ScheduleFrame(d, now, index + 1);
      assert ScheduleFrom(c, now, index) == ScheduleFrom(d, now, index + 1);
    } else {
      assert ScheduleFrom(c, now, index) == c;
    }
  }

  lemma VisitFrame(c: Cache, start: nat, now: nat)
    requires start < c.total
    ensures SameButFlights(c, Visit(c, start, now))
  {
  }

  lemma CompleteKeepsCursor(c: Cache, job: Job, result: Result<seq<Byte>, Failure>, now: nat)
    ensures Complete(c, job, result, now).cursor == c.cursor
  {
    hide InFlight, Reservations;
  }

  lemma ReadExposes(c: Cache, file: seq<Byte>, wanted: nat)
    requires c.cursor + Granted(c, wanted) <= |file|
    requires forall o :: c.cursor <= o < c.cursor + Granted(c, wanted) ==> Lookup(c, o) == Some(file[o])
    ensures Exposed(c, StepConsume(wanted)) == Somes(file[c.cursor..c.cursor + Granted(c, wanted)])
  {
    hide Granted, Lookup;
    var part := file[c.cursor..c.cursor + Granted(c, wanted)];
    forall k | 0 <= k < |part| ensures Exposed(c, StepConsume(wanted))[k] == Somes(part)[k] {
      assert part[k] == file[c.cursor + k];
    }
  }

  lemma ExposedExact(c: Cache, file: seq<Byte>, step: Step)
    requires Inv(c, file) && !step.StepSeek?
    ensures c.cursor <= Next(c, step).cursor <= c.total
    ensures Exposed(c, step) == Somes(file[c.cursor..Next(c, step).cursor])
  {
    assert c.cursor <= c.total == |file|;
    hide InFlight, Reservations, AheadEnd, Lookup, Inv;
    match step {
      case StepSeek(_) =>
      case StepConsume(wanted) =>
        AheadEndExact(c, file, c.cursor);
        ReadExposes(c, file, wanted);
      case StepSchedule(now) => ScheduleFrame(c, now, 0);
      case StepComplete(job, result, now) => CompleteKeepsCursor(c, job, result, now);
      case StepSample(_, _) =>
    }
  }

  /**
   Between two seeks, whatever the interleaving of dispatches, late, failed or stale completions,
   retries and reads, the bytes handed out are exactly the file's bytes from the first cursor to the
   last: no hole, no repetition, no byte of another generation.
   */
  lemma {:induction false} StreamExact(c: Cache, file: seq<Byte>, steps: seq<Step>)
    requires Inv(c, file) && Possible(c, file, steps)
    requires forall i :: 0 <= i < |steps| ==> !steps[i].StepSeek?
    ensures c.cursor <= Run(c, steps).cursor <= |file|
    ensures Delivered(c, steps) == Somes(file[c.cursor..Run(c, steps).cursor])
    decreases |steps|
  {
    hide InFlight, Reservations;
    if steps != [] {
      var d := Next(c, steps[0]);
      ExposedExact(c, file, steps[0]);
      StepInv(c, file, steps[0]);
      assert forall i :: 0 <= i < |steps[1..]| ==> steps[1..][i] == steps[i + 1];
      StreamExact(d, file, steps[1..]);
      SomesSplit(file, c.cursor, d.cursor, Run(c, steps).cursor);
    }
  }

  lemma SomesSplit(file: seq<Byte>, i: nat, j: nat, k: nat)
    requires i <= j <= k <= |file|
    ensures Somes(file[i..j]) + Somes(file[j..k]) == Somes(file[i..k])
  {
  }

  /** After any history at all, a seek starts a stream that is the file from the seek target on. */
  lemma StreamExactAfterSeek(file: seq<Byte>, history: seq<Step>, to: nat, steps: seq<Step>)
    requires Possible(NewCache(|file|), file, history)
    requires Possible(Seek(Run(NewCache(|file|), history), to), file, steps)
    requires forall i :: 0 <= i < |steps| ==> !steps[i].StepSeek?
    ensures var c := Seek(Run(NewCache(|file|), history), to);
            && Min(to, |file|) <= Run(c, steps).cursor <= |file|
            && Delivered(c, steps) == Somes(file[Min(to, |file|)..Run(c, steps).cursor])
  {
    NewCacheInv(file);
    RunInv(NewCache(|file|), file, history);
    var c := Run(NewCache(|file|), history);
    SeekInv(c, file, to);
    StreamExact(Seek(c, to), file, steps);
  }

  // ----- Reservations and progress -----

  lemma {:induction false} WindowSize(starts: set<nat>, base: nat, slots: nat)
    requires base % CHUNK == 0
    requires forall s :: s in starts ==> s % CHUNK == 0 && base <= s < base + slots * CHUNK
    ensures |starts| <= slots
    decreases slots
  {
    if slots == 0 {
      assert starts == {};
    } else {
      var last := base + (slots - 1) * CHUNK;
      WindowSize(starts - {last}, base, slots - 1);
      SubsetSize(starts, (starts - {last}) + {last});
    }
  }

  lemma {:induction false} StartsSize(keys: set<Key>, generation: nat)
    requires forall k :: k in keys ==> k.generation == generation
    ensures |set k | k in keys :: k.start| == |keys|
  {
    if keys == {} {
      assert (set k | k in keys :: k.start) == {};
    } else {
      var k :| k in keys;
      StartsSize(keys - {k}, generation);
      assert (set x | x in keys :: x.start) == (set x | x in keys - {k} :: x.start) + {k.start};
    }
  }

  ghost predicate NoStaleFlights(c: Cache) {
    forall k :: k in c.flights ==> k.generation == c.generation
  }

  /**
   Pigeonhole: ready chunks and current flights are distinct window chunks, so while one window chunk
   is neither, a slot is free. Only reservations of earlier generations can make the window full.
   */
  lemma MissingChunkHasSlot(c: Cache, file: seq<Byte>, start: nat)
    requires Inv(c, file) && NoStaleFlights(c) && InWindow(c, start) && !Held(c, start)
    ensures Reservations(c) < SLOTS
  {
    hide InFlight, Reservations;
    ChunksInWindow(c, file, start);
    ReservationsSize(c, c.ready.Keys, c.flights.Keys);
    RoomBySize(c.ready.Keys, c.flights.Keys, start, c.generation, Base(c.cursor));
  }

  ghost predicate Within(start: nat, base: nat) {
    start % CHUNK == 0 && base <= start < base + SLOTS * CHUNK
  }

  lemma RoomBySize(ready: set<nat>, keys: set<Key>, start: nat, generation: nat, base: nat)
    requires base % CHUNK == 0 && Within(start, base) && start !in ready
    requires forall s :: s in ready ==> Within(s, base)
    requires forall k :: k in keys ==> k.generation == generation && Within(k.start, base) && k.start !in ready && k.start != start
    ensures |ready| + |keys| < SLOTS
  {
    var flying := set k | k in keys :: k.start;
    StartsSize(keys, generation);
    UnionSize(ready, flying, start);
    WindowSize(ready + flying + {start}, base, SLOTS);
  }

  lemma ChunksInWindow(c: Cache, file: seq<Byte>, start: nat)
    requires Inv(c, file) && NoStaleFlights(c) && InWindow(c, start) && !Held(c, start)
    ensures forall s :: s in c.ready.Keys ==> Within(s, Base(c.cursor))
    ensures forall k :: k in c.flights.Keys ==>
      k.generation == c.generation && Within(k.start, Base(c.cursor)) && k.start !in c.ready.Keys && k.start != start
  {
    hide InFlight, Reservations;
    forall s | s in c.ready.Keys ensures Within(s, Base(c.cursor)) {
      assert ReadyOk(c, file, s, c.ready[s]);
    }
    forall k | k in c.flights.Keys
      ensures k.generation == c.generation && Within(k.start, Base(c.cursor)) && k.start !in c.ready.Keys && k.start != start
    {
      assert FlightOk(c, k, c.flights[k]);
      assert k == Key(c.generation, k.start);
    }
  }

  lemma ReservationsSize(c: Cache, ready: set<nat>, keys: set<Key>)
    requires ready == c.ready.Keys && keys == c.flights.Keys
    ensures Reservations(c) == |ready| + |keys|
  {
  }

  lemma UnionSize(a: set<nat>, b: set<nat>, x: nat)
    requires a !! b && x !in a && x !in b
    ensures |a + b + {x}| == |a| + |b| + 1
  {
  }

  lemma {:induction false} ScheduleKeepsHeld(c: Cache, now: nat, index: nat, start: nat)
    requires index <= SLOTS && Held(c, start)
    ensures Held(ScheduleFrom(c, now, index), start)
    decreases SLOTS - index
  {
    hide InFlight, Reservations;
    var here := WindowStart(c, index);
    if index < SLOTS && !WindowClosed(c, here) {
      ScheduleKeepsHeld(Visit(c, here, now), now, index + 1, start);
    }
  }

  /** With no stale reservation and a free worker, the chunk under the cursor is always dispatched, unless it backs off. */
  lemma CursorChunkServed(c: Cache, file: seq<Byte>, now: nat)
    requires Inv(c, file) && NoStaleFlights(c) && !c.fatal
    requires c.cursor < c.total && InFlight(c) < c.controller.limit
    requires !BackingOff(c, Base(c.cursor), now)
    ensures Held(Schedule(c, now), Base(c.cursor))
  {
    var start := Base(c.cursor);
    if Held(c, start) {
      ScheduleKeepsHeld(c, now, 0, start);
    } else {
      MissingChunkHasSlot(c, file, start);
      ScheduleKeepsHeld(Visit(c, start, now), now, 1, start);
    }
  }

  ghost predicate Saturated(c: Cache) {
    InFlight(c) >= c.controller.limit || Reservations(c) >= SLOTS
  }

  ghost predicate Served(c: Cache, now: nat, index: nat) {
    var start := WindowStart(c, index);
    start < c.total ==> Held(c, start) || BackingOff(c, start, now)
  }

  /** Work conservation: scheduling stops only at a bound, or with every window chunk held or backing off. */
  lemma {:induction false} ScheduleIsWorkConserving(c: Cache, now: nat, index: nat)
    requires index <= SLOTS
    ensures var d := ScheduleFrom(c, now, index);
            Saturated(d) || forall i :: index <= i < SLOTS ==> Served(d, now, i)
    decreases SLOTS - index
  {
    hide InFlight, Reservations, ScheduleFrom;
    var start := WindowStart(c, index);
    ScheduleUnroll(c, now, index);
    if index < SLOTS {
      if !WindowClosed(c, start) {
        ScheduleIsWorkConserving(Visit(c, start, now), now, index + 1);
        VisitServes(c, now, index);
      } else if start >= c.total {
        forall i | index <= i < SLOTS ensures Served(c, now, i) {
          assert WindowStart(c, i) >= start;
        }
      }
    }
  }

  lemma VisitServes(c: Cache, now: nat, index: nat)
    requires index < SLOTS && !WindowClosed(c, WindowStart(c, index))
    ensures Served(ScheduleFrom(c, now, index), now, index)
  {
    hide InFlight, Reservations;
    var start := WindowStart(c, index);
    var e := Visit(c, start, now);
    ScheduleFrame(c, now, index);
    if Held(e, start) {
      ScheduleKeepsHeld(e, now, index + 1, start);
    }
  }

  /**
   A request the scheduler adds covers a byte still to be read exactly when the reader is not at the
   end of the file: at the end the window starts inside the last chunk and is requested again.
   */
  lemma RequestsAreUseful(c: Cache, file: seq<Byte>, now: nat, key: Key)
    requires Inv(c, file) && !c.fatal
    requires key in Schedule(c, now).flights && key !in c.flights
    ensures c.cursor < ChunkEnd(c, key.start) <==> c.cursor < c.total
  {
    hide InFlight, Reservations;
    var d := Schedule(c, now);
    ScheduleInv(c, file, now, 0);
    ScheduleFrame(c, now, 0);
    assert FlightOk(d, key, d.flights[key]);
    NewFlightIsCurrent(c, now, 0, key);
    BaseUnique(c.cursor, key.start);
  }

  lemma {:induction false} NewFlightIsCurrent(c: Cache, now: nat, index: nat, key: Key)
    requires index <= SLOTS
    requires key in ScheduleFrom(c, now, index).flights && key !in c.flights
    ensures key.generation == c.generation
    decreases SLOTS - index
  {
    hide InFlight, Reservations;
    var start := WindowStart(c, index);
    if index < SLOTS && !WindowClosed(c, start) {
      var d := Visit(c, start, now);
      if key !in d.flights {
        NewFlightIsCurrent(d, now, index + 1, key);
      }
    }
  }

  /** The useless request does happen: after a seek to the end of a file with a partial last chunk, that chunk is requested. */
  lemma TailIsRequestedAgain(n: nat, now: nat)
    requires n % CHUNK != 0
    ensures var c := Next(Seek(NewCache(n), n), StepSchedule(now));
            && c.cursor == c.total == n && Key(c.generation, Base(n)) in c.flights
  {
    var c := Seek(NewCache(n), n);
    var start := Base(n);
    var d := Visit(c, start, now);
    assert Held(d, start);
    ScheduleKeepsHeld(d, now, 1, start);
    assert Schedule(c, now) == ScheduleFrom(d, now, 1);
    ScheduleFrame(d, now, 1);
  }

  /** The header sent for any flight asks for exactly the interval the flight reserves. */
  lemma FlightHeaderExact(c: Cache, file: seq<Byte>, key: Key)
    requires Inv(c, file) && key in c.flights && c.total <= U64_MAX
    ensures ParseHttpRange(RangeHeader(c.flights[key].start, c.flights[key].end), c.total)
         == Ok(Interval(key.start, ChunkEnd(c, key.start)))
  {
    hide InFlight, Reservations;
    assert FlightOk(c, key, c.flights[key]);
    HeaderRoundTrip(key.start, ChunkEnd(c, key.start) - 1, c.total);
  }

  // ----- The mutable cache -----

  datatype ReadError = ExposedHole | CorruptByte

  /** The check the reader makes on every byte it is about to expose. */
  function Verify(c: Cache, file: seq<Byte>, from: nat, to: nat): Option<ReadError>
    decreases if from < to then to - from else 0
  {
    if from >= to then None
    else if Lookup(c, from).None? then Some(ExposedHole)
    else if from >= |file| || Lookup(c, from).value != file[from] then Some(CorruptByte)
    else Verify(c, file, from + 1, to)
  }

  /** Neither error branch of the reader can be reached. */
  lemma ReadsNeverFail(c: Cache, file: seq<Byte>, wanted: nat)
    requires Inv(c, file)
    ensures Verify(c, file, c.cursor, c.cursor + Granted(c, wanted)) == None
  {
    assert c.cursor <= c.total == |file|;
    AheadEndExact(c, file, c.cursor);
    var e := AheadEnd(c, c.cursor);
    assert c.cursor + Granted(c, wanted) <= e;
    hide *;
    VerifyExact(c, file, c.cursor, c.cursor + Granted(c, wanted));
  }

  lemma {:induction false} VerifyExact(c: Cache, file: seq<Byte>, from: nat, to: nat)
    requires from <= to <= |file|
    requires forall o :: from <= o < to ==> Lookup(c, o) == Some(file[o])
    ensures Verify(c, file, from, to) == None
    decreases if from < to then to - from else 0
  {
    if from < to {
      VerifyExact(c, file, from + 1, to);
    }
  }

  /** No longer stretch from the cursor on is wanted and cached. */
  ghost predicate LongestRead(c: Cache, wanted: nat, count: nat) {
    count <= wanted && CachedAhead(c, count) && forall n: nat :: n <= wanted && CachedAhead(c, n) ==> n <= count
  }

  lemma ReadsLongest(c: Cache, file: seq<Byte>, wanted: nat)
    ensures Inv(c, file) ==>
              Verify(c, file, c.cursor, c.cursor + Granted(c, wanted)) == None && LongestRead(c, wanted, Granted(c, wanted))
  {
    if Inv(c, file) {
      ReadsNeverFail(c, file, wanted);
      hide Inv, CachedAhead, Verify;
      ReadsAllThatIsCached(c, file, wanted, 0);
      forall n: nat | n <= wanted && CachedAhead(c, n) ensures n <= Granted(c, wanted) {
        ReadsAllThatIsCached(c, file, wanted, n);
      }
    }
  }

  class RangeCache {
    const file: seq<Byte>
    var cursor: nat
    var generation: nat
    var ready: map<nat, seq<Byte>>
    var flights: map<Key, Job>
    var retries: map<nat, Retry>
    var controller: Controller
    var sampleErrors: nat
    var fatal: bool
    var firstDispatch: Option<nat>

    function State(): Cache
      reads this
    {
      Cache(|file|, cursor, generation, ready, flights, retries, controller, sampleErrors, fatal, firstDispatch)
    }

    constructor (file: seq<Byte>)
      ensures this.file == file && State() == NewCache(|file|) && Inv(State(), file)
    {
      this.file := file;
      cursor, generation, ready, flights, retries := 0, 0, map[], map[], map[];
      controller, sampleErrors, fatal, firstDispatch := Controller(1, 0, 0), 0, false, None;
    }

    method SeekTo(to: nat)
      modifies this
      ensures State() == Seek(old(State()), to)
    {
      cursor := Min(to, |file|);
      generation := generation + 1;
      ready := map[];
      retries := map[];
      firstDispatch := None;
    }

    method AheadOf() returns (count: nat)
      ensures count == Ahead(State())
    {
      var end := cursor;
      while end < |file| && Base(end) in ready
        invariant cursor <= end
        invariant AheadEnd(State(), end) == AheadEnd(State(), cursor)
        decreases |file| - end
      {
        var next := Base(end) + |ready[Base(end)]|;
        if next <= end {
          break;
        }
        end := next;
      }
      count := end - cursor;
    }

    /**
     Checks every byte it exposes, then advances; on an error nothing changes. A cache that keeps its
     rules hands out the longest stretch that is wanted and cached.
     */
    method Read(wanted: nat) returns (r: Result<nat, ReadError>)
      modifies this
      ensures old(Inv(State(), file)) ==>
                r.Ok? && cursor == old(cursor) + r.value && LongestRead(old(State()), wanted, r.value)
      ensures var c := old(State());
              match Verify(c, file, c.cursor, c.cursor + Granted(c, wanted))
              case Some(error) => r == Err(error) && State() == c
              case None => r == Ok(Granted(c, wanted)) && State() == Consume(c, wanted)
    {
      hide Inv, LongestRead;
      ReadsLongest(State(), file, wanted);
      var available := AheadOf();
      var count := Min(wanted, available);
      var end := cursor + count;
      var offset := cursor;
      while offset < end
        invariant cursor <= offset <= end
        invariant Verify(State(), file, offset, end) == Verify(State(), file, cursor, end)
        invariant State() == old(State())
      {
        var byte := Lookup(State(), offset);
        if byte.None? {
          return Err(ExposedHole);
        }
        if offset >= |file| || byte.value != file[offset] {
          return Err(CorruptByte);
        }
        offset := offset + 1;
      }
      cursor := end;
      ready := map start | start in ready && start + |ready[start]| > end :: ready[start];
      r := Ok(count);
    }

    method ScheduleAt(now: nat)
      modifies this
      ensures State() == Schedule(old(State()), now)
    {
      hide InFlight, Reservations, ScheduleFrom;
      if fatal {
        return;
      }
      var index := 0;
      while index < SLOTS
        invariant 0 <= index <= SLOTS
        invariant ScheduleFrom(State(), now, index) == ScheduleFrom(old(State()), now, 0)
        decreases SLOTS - index
      {
        ghost var c := State();
        var start := WindowStart(State(), index);
        if WindowClosed(State(), start) {
          break;
        }
        VisitChunk(start, now);
        ScheduleUnroll(c, now, index);
        index := index + 1;
      }
      ScheduleUnroll(State(), now, index);
    }

    method VisitChunk(start: nat, now: nat)
      requires start < |file|
      modifies this
      ensures State() == Visit(old(State()), start, now)
    {
      if start in ready || Key(generation, start) in flights {
        return;
      }
      var attempt := 0;
      if start in retries {
        if now < retries[start].after {
          return;
        }
        attempt := retries[start].attempt;
      }
      if firstDispatch.None? {
        firstDispatch := Some(start);
      }
      flights := flights[Key(generation, start) := Job(start, Min(start + CHUNK, |file|) - 1, |file|, generation, attempt)];
    }

    method CompleteJob(job: Job, result: Result<seq<Byte>, Failure>, now: nat)
      modifies this
      ensures State() == Complete(old(State()), job, result, now)
    {
      flights := flights - {Key(job.generation, job.start)};
      if job.generation != generation {
        return;
      }
      match result
      case Ok(bytes) =>
        retries := retries - {job.start};
        ready := ready[job.start := bytes];
      case Err(failure) =>
        if failure != Cancelled {
          sampleErrors := sampleErrors + 1;
          if failure == InvalidRange || job.attempt >= 3 {
            fatal := true;
          } else {
            retries := retries[job.start := Retry(job.attempt + 1, now + Backoff(job.attempt))];
          }
        }
    }

    method SampleAt(demand: real, throughput: real)
      modifies this
      ensures State() == Sample(old(State()), demand, throughput)
      ensures old(1 <= controller.limit <= WORKERS) ==> 1 <= controller.limit <= WORKERS
    {
      var ahead := AheadOf();
      controller := Adapt(controller, ahead, demand, throughput, sampleErrors);
      sampleErrors := 0;
    }
  }
}
