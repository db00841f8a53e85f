/**
 What becomes of a range request: a success is readable at once, a failure waits and is tried again,
 the concurrency limit follows the samples, and a stream that has not failed can always be finished.
 */
module RangeProgress {
  import opened Util
  import opened ByteRanges
  import opened HttpRange
  import opened RangeFetch

  // ----- A stream that has not failed can be finished -----

  /** Steps of a scheduler, a reader and workers that all succeed; nothing is sought or sampled. */
  ghost predicate Healthy(c: Cache, file: seq<Byte>, steps: seq<Step>) {
    && Possible(c, file, steps)
    && forall i :: 0 <= i < |steps| ==>
         steps[i].StepConsume? || steps[i].StepSchedule? || (steps[i].StepComplete? && steps[i].result.Ok?)
  }

  lemma {:induction false} RunConcat(c: Cache, file: seq<Byte>, a: seq<Step>, b: seq<Step>)
    requires Healthy(c, file, a) && Healthy(Run(c, a), file, b)
    ensures Healthy(c, file, a + b) && Run(c, a + b) == Run(Run(c, a), b)
    decreases |a|
  {
    if a == [] {
      assert a + b == b;
    } else {
      assert (a + b)[1..] == a[1..] + b;
      assert Healthy(Next(c, a[0]), file, a[1..]);
      RunConcat(Next(c, a[0]), file, a[1..], b);
      assert forall i :: 1 <= i < |a + b| ==> (a + b)[i] == (a[1..] + b)[i - 1];
    }
  }

  lemma OneStep(c: Cache, file: seq<Byte>, step: Step)
    requires Enabled(c, file, step)
    requires step.StepConsume? || step.StepSchedule? || (step.StepComplete? && step.result.Ok?)
    ensures Healthy(c, file, [step]) && Run(c, [step]) == Next(c, step)
  {
    assert [step][1..] == [];
  }

  /** A delivered chunk of this generation is cached whole and replaces its request; one of an earlier generation only frees it. */
  lemma DeliveryIsReadable(c: Cache, file: seq<Byte>, key: Key, now: nat)
    requires Inv(c, file) && key in c.flights
    ensures var job := c.flights[key];
            && job.end < |file| && job.start <= job.end
            && var step := StepComplete(job, Ok(file[job.start..job.end + 1]), now);
               var d := Next(c, step);
               && Enabled(c, file, step) && Inv(d, file)
               && d.fatal == c.fatal && d.cursor == c.cursor && d.total == c.total && d.generation == c.generation
               && d.flights == c.flights - {key}
               && d.controller == c.controller && d.sampleErrors == c.sampleErrors
               && (forall s :: s in d.ready <==> s in c.ready || (key.generation == c.generation && s == key.start))
               && d.retries == if key.generation == c.generation then c.retries - {key.start} else c.retries
  {
    hide InFlight, Reservations;
    var job := c.flights[key];
    assert FlightOk(c, key, job);
    StepInv(c, file, StepComplete(job, Ok(file[job.start..job.end + 1]), now));
  }

  /** Once every request has been answered each chunk that was requested or ready is ready. */
  lemma {:induction false} AllDelivered(c: Cache, file: seq<Byte>) returns (steps: seq<Step>)
    requires Inv(c, file) && !c.fatal
    ensures Healthy(c, file, steps)
    ensures var d := Run(c, steps);
            && Inv(d, file) && !d.fatal && d.flights == map[] && d.cursor == c.cursor && d.total == c.total
            && forall s :: Held(c, s) ==> s in d.ready
    decreases |c.flights.Keys|
  {
    hide InFlight, Reservations, Inv, Next;
    if c.flights == map[] {
      steps := [];
    } else {
      var key :| key in c.flights;
      var job := c.flights[key];
      DeliveryIsReadable(c, file, key, 0);
      var step := StepComplete(job, Ok(file[job.start..job.end + 1]), 0);
      var d := Next(c, step);
      assert d.flights.Keys == c.flights.Keys - {key};
      var rest := AllDelivered(d, file);
      OneStep(c, file, step);
      RunConcat(c, file, [step], rest);
      steps := [step] + rest;
      forall s | Held(c, s) ensures Held(d, s) {
        assert Key(c.generation, s) == key ==> s == key.start && key.generation == c.generation;
      }
    }
  }

  /** With nothing in flight the next byte can be fetched and read. */
  lemma ReaderAdvances(c: Cache, file: seq<Byte>) returns (steps: seq<Step>)
    requires Inv(c, file) && !c.fatal && c.flights == map[] && c.cursor < c.total
    ensures Healthy(c, file, steps)
    ensures var d := Run(c, steps);
            Inv(d, file) && !d.fatal && d.flights == map[] && d.total == c.total && d.cursor > c.cursor
  {
    var start := Base(c.cursor);
    var now := if start in c.retries then c.retries[start].after else 0;
    Requested(c, file, now);
    var schedule := StepSchedule(now);
    OneStep(c, file, schedule);
    var d := Next(c, schedule);
    var answers := AllDelivered(d, file);
    RunConcat(c, file, [schedule], answers);
    var e := Run(d, answers);
    var last := StepConsume(e.total);
    NextByteRead(e, file);
    OneStep(e, file, last);
    RunConcat(c, file, [schedule] + answers, [last]);
    steps := [schedule] + answers + [last];
  }

  lemma Requested(c: Cache, file: seq<Byte>, now: nat)
    requires Inv(c, file) && !c.fatal && c.flights == map[] && c.cursor < c.total && !BackingOff(c, Base(c.cursor), now)
    ensures var d := Next(c, StepSchedule(now));
            Inv(d, file) && !d.fatal && d.cursor == c.cursor && d.total == c.total && Held(d, Base(c.cursor))
  {
    assert InFlight(c) == 0;
    CursorChunkServed(c, file, now);
    StepInv(c, file, StepSchedule(now));
    ScheduleFrame(c, now, 0);
  }

  lemma NextByteRead(c: Cache, file: seq<Byte>)
    requires Inv(c, file) && !c.fatal && c.flights == map[] && c.cursor < c.total && Base(c.cursor) in c.ready
    ensures var d := Next(c, StepConsume(c.total));
            Inv(d, file) && !d.fatal && d.flights == map[] && d.total == c.total && d.cursor > c.cursor
  {
    hide InFlight, Reservations;
    StepInv(c, file, StepConsume(c.total));
    ReadyByte(c, file, Base(c.cursor), c.cursor);
    ReadsAllThatIsCached(c, file, c.total, 1);
  }

  /**
   Whatever happened before, short of a failure that ends the stream: if from here on workers succeed, the
   reader gets exactly the rest of the file. Nothing that was left behind - stale requests, full slots, a
   lowered limit, chunks backing off - can keep a byte from it.
   */
  lemma RestCanBeRead(c: Cache, file: seq<Byte>)
    requires Inv(c, file) && !c.fatal
    ensures exists steps :: Healthy(c, file, steps) && Run(c, steps).cursor == c.total
                            && Delivered(c, steps) == Somes(file[c.cursor..])
  {
    var answers := AllDelivered(c, file);
    var rest := EveryByteRead(Run(c, answers), file);
    RunConcat(c, file, answers, rest);
    StreamExact(c, file, answers + rest);
  }

  lemma {:induction false} EveryByteRead(c: Cache, file: seq<Byte>) returns (steps: seq<Step>)
    requires Inv(c, file) && !c.fatal && c.flights == map[]
    ensures Healthy(c, file, steps) && Run(c, steps).cursor == c.total
    decreases c.total - c.cursor
  {
    hide InFlight, Reservations;
    if c.cursor < c.total {
      var first := ReaderAdvances(c, file);
      var rest := EveryByteRead(Run(c, first), file);
      RunConcat(c, file, first, rest);
      steps := first + rest;
    } else {
      steps := [];
    }
  }

  // ----- Failures and retries -----

  /** How long the chunk waits after its first, second and third failure. */
  function Wait(attempt: nat): nat
    requires attempt < 3
  {
    [20, 40, 80][attempt]
  }

  /**
   A request of this generation that fails, other than by cancellation, is counted; the fourth failure in a row,
   or an answer that was not the requested range, ends the stream, and every other one makes the chunk wait.
   Failures of earlier generations and cancellations only free the request.
   */
  lemma FailureExactly(c: Cache, file: seq<Byte>, key: Key, failure: Failure, now: nat)
    requires Inv(c, file) && key in c.flights
    ensures var job := c.flights[key];
            var d := Next(c, StepComplete(job, Err(failure), now));
            var counts := key.generation == c.generation && !failure.Cancelled?;
            var last := failure.InvalidRange? || job.attempt == 3;
            && d.flights == c.flights - {key} && d.ready == c.ready && d.cursor == c.cursor && d.generation == c.generation
            && d.sampleErrors == c.sampleErrors + (if counts then 1 else 0)
            && (d.fatal <==> c.fatal || (counts && last))
            && d.retries == if counts && !last then c.retries[key.start := Retry(job.attempt + 1, now + Wait(job.attempt))]
                            else c.retries
  {
    hide InFlight, Reservations;
    assert FlightOk(c, key, c.flights[key]);
  }

  /** A seek starts anew at the target: nothing is cached or waits, and requests in flight belong to an earlier generation. */
  lemma SeekStartsAnew(c: Cache, file: seq<Byte>, to: nat)
    requires Inv(c, file)
    ensures var d := Next(c, StepSeek(to));
            && d.cursor == (if to <= c.total then to else c.total) && d.total == c.total
            && d.generation == c.generation + 1
            && d.ready == map[] && d.retries == map[] && d.firstDispatch == None
            && d.flights == c.flights && (forall k :: k in d.flights ==> k.generation < d.generation)
            && d.controller == c.controller && d.sampleErrors == c.sampleErrors && d.fatal == c.fatal
  {
    hide InFlight, Reservations;
    forall k | k in c.flights ensures k.generation <= c.generation {
      assert FlightOk(c, k, c.flights[k]);
    }
  }

  /** The check of a read stops at the first byte that is missing or wrong, and passes exactly when there is none. */
  lemma {:induction false} VerifyFindsTheFirst(c: Cache, file: seq<Byte>, from: nat, to: nat)
    requires from <= to <= |file|
    ensures match Verify(c, file, from, to)
            case None => forall o :: from <= o < to ==> Lookup(c, o) == Some(file[o])
            case Some(error) =>
              exists o :: from <= o < to && FirstBad(c, file, from, o) && (error.ExposedHole? <==> Lookup(c, o).None?)
    decreases if from < to then to - from else 0
  {
    hide Lookup;
    if from < to {
      VerifyFindsTheFirst(c, file, from + 1, to);
      assert Lookup(c, from) != Some(file[from]) ==> FirstBad(c, file, from, from);
    }
  }

  /** A byte that is missing or wrong, with none before it. */
  ghost predicate FirstBad(c: Cache, file: seq<Byte>, from: nat, o: nat) {
    from <= o < |file| && Lookup(c, o) != Some(file[o]) && forall p :: from <= p < o ==> Lookup(c, p) == Some(file[p])
  }

  // ----- Which chunks are requested -----

  /** Scheduling never exceeds the limit or the slots, unless they were exceeded before. */
  lemma {:induction false} LimitsAreKept(c: Cache, now: nat, index: nat)
    requires index <= SLOTS
    ensures var d := ScheduleFrom(c, now, index);
            && InFlight(d) <= Max(InFlight(c), c.controller.limit)
            && Reservations(d) <= Max(Reservations(c), SLOTS)
    decreases SLOTS - index
  {
    hide InFlight, Reservations, ScheduleFrom, Visit, WindowClosed;
    var start := WindowStart(c, index);
    ScheduleUnroll(c, now, index);
    if index < SLOTS && !WindowClosed(c, start) {
      VisitKeepsLimits(c, start, now);
      LimitsAreKept(Visit(c, start, now), now, index + 1);
    }
  }

  lemma VisitKeepsLimits(c: Cache, start: nat, now: nat)
    requires !WindowClosed(c, start)
    ensures start < c.total
    ensures var d := Visit(c, start, now);
            && InFlight(d) <= Max(InFlight(c), c.controller.limit) && Reservations(d) <= Max(Reservations(c), SLOTS)
            && d.controller == c.controller
  {
    hide InFlight, Reservations;
    if !Held(c, start) {
      DispatchReservations(c, start);
    }
  }

  /** The nearest chunks come first: a chunk is requested only when each one before it is held or backs off. */
  lemma {:induction false} NearestFirst(c: Cache, now: nat, index: nat, key: Key, i: nat)
    requires index <= i < SLOTS && key in ScheduleFrom(c, now, index).flights && key !in c.flights
    requires key.start > WindowStart(c, i)
    ensures var d := ScheduleFrom(c, now, index); Held(d, WindowStart(c, i)) || BackingOff(c, WindowStart(c, i), now)
    decreases SLOTS - index
  {
    hide InFlight, Reservations, ScheduleFrom;
    var start := WindowStart(c, index);
    ScheduleUnroll(c, now, index);
    if !WindowClosed(c, start) {
      var d := Visit(c, start, now);
      VisitFrame(c, start, now);
      if i == index {
        VisitServes(c, now, index);
        ScheduleFrame(c, now, index);
      } else {
        NearestFirst(d, now, index + 1, key, i);
      }
    }
  }

  /** The first request after a seek is put on record, and no later one replaces it. */
  lemma {:induction false} FirstIsRecorded(c: Cache, now: nat, index: nat)
    requires index <= SLOTS
    ensures var d := ScheduleFrom(c, now, index);
            && (c.firstDispatch.Some? ==> d.firstDispatch == c.firstDispatch)
            && (d.flights != c.flights ==> d.firstDispatch.Some?)
    decreases SLOTS - index
  {
    hide InFlight, Reservations, ScheduleFrom;
    var start := WindowStart(c, index);
    ScheduleUnroll(c, now, index);
    if index < SLOTS && !WindowClosed(c, start) {
      FirstIsRecorded(Visit(c, start, now), now, index + 1);
    }
  }

  /** Any request the scheduler adds carries the number of failures so far, and its wait is over. */
  lemma {:induction false} NewRequestWaited(c: Cache, now: nat, index: nat, key: Key)
    requires index <= SLOTS && key in ScheduleFrom(c, now, index).flights && key !in c.flights
    ensures key.start in c.retries ==> c.retries[key.start].after <= now
    ensures ScheduleFrom(c, now, index).flights[key].attempt == if key.start in c.retries then c.retries[key.start].attempt else 0
    decreases SLOTS - index
  {
    hide InFlight, Reservations;
    var start := WindowStart(c, index);
    if index < SLOTS && !WindowClosed(c, start) {
      var d := Visit(c, start, now);
      VisitFrame(c, start, now);
      if key !in d.flights {
        NewRequestWaited(d, now, index + 1, key);
      } else {
        FlightStays(d, now, index + 1, key);
      }
    }
  }

  /** A request in flight is not replaced by scheduling. */
  lemma {:induction false} FlightStays(c: Cache, now: nat, index: nat, key: Key)
    requires index <= SLOTS && key in c.flights
    ensures key in ScheduleFrom(c, now, index).flights && ScheduleFrom(c, now, index).flights[key] == c.flights[key]
    decreases SLOTS - index
  {
    hide InFlight, Reservations;
    var start := WindowStart(c, index);
    if index < SLOTS && !WindowClosed(c, start) {
      FlightStays(Visit(c, start, now), now, index + 1, key);
    }
  }

  // ----- The concurrency limit -----

  /** Less than 15% of a second's demand is available ahead, or less than 40% while throughput hardly exceeds demand. */
  predicate Short(c: Cache, demand: real, throughput: real) {
    || Ahead(c) as real < 0.15 * demand
    || (Ahead(c) as real < 0.4 * demand && throughput < 1.15 * demand)
  }

  predicate Ample(c: Cache, demand: real, throughput: real) {
    !Short(c, demand, throughput) && Ahead(c) as real > 0.4 * demand
  }

  /** A calm sample: no failure since the last one, and no change of the limit by backing off among the last two. */
  predicate Calm(c: Cache) { c.sampleErrors == 0 && c.controller.cooldown == 0 }

  /** The limit rises by one when data is short, falls by one on the third ample sample, and halves on failures. */
  lemma LimitMovesExactly(c: Cache, demand: real, throughput: real)
    requires 1 <= c.controller.limit <= WORKERS
    ensures var before, after := c.controller.limit, Sample(c, demand, throughput).controller.limit;
            && (after > before <==> Calm(c) && Short(c, demand, throughput) && before < WORKERS)
            && (after > before ==> after == before + 1)
            && (after < before <==>
                  before > 1 && (c.sampleErrors > 0 || (Calm(c) && Ample(c, demand, throughput) && c.controller.healthy >= 2)))
            && (c.sampleErrors > 0 ==> 2 * after == before + before % 2)
            && (c.sampleErrors == 0 && after < before ==> after == before - 1)
            && Sample(c, demand, throughput).sampleErrors == 0
  {
  }

  /** Ample samples are counted up to three in a row; any other calm sample starts the count again. */
  lemma AmpleSamplesCounted(c: Cache, demand: real, throughput: real)
    ensures var before, after := c.controller.healthy, Sample(c, demand, throughput).controller.healthy;
            after == if c.sampleErrors > 0 then 0
                     else if c.controller.cooldown > 0 then before
                     else if Ample(c, demand, throughput) && before < 2 then before + 1
                     else 0
  {
  }

  /** After a reduction the next two samples leave the limit alone unless requests fail again. */
  lemma ReductionRests(c: Cache, demand: real, throughput: real, d: Cache, x: real, y: real, e: Cache, u: real, v: real)
    requires 1 <= c.controller.limit <= WORKERS
    requires c.sampleErrors > 0 || Sample(c, demand, throughput).controller.limit < c.controller.limit
    requires d.controller == Sample(c, demand, throughput).controller && d.sampleErrors == 0
    requires e.controller == Sample(d, x, y).controller && e.sampleErrors == 0
    ensures Sample(e, u, v).controller.limit == d.controller.limit
    ensures Sample(e, u, v).controller.cooldown == 0
  {
    hide Ahead;
  }
}
