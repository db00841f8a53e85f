/**
 Rows an entity has per key: ratings, source snapshots and fetch records. Merging two entities
 leaves one row per key, whatever the order in which rows are visited or entities are merged.
 */
module NewestRows {
  import opened Util

  // ----- Ratings and snapshots: the newer row per key -----

  datatype Row<P> = Row(observed: int, payload: P)

  /** The loser's row replaces the winner's unless the winner's is newer. */
  function Newer<P>(winner: Row<P>, loser: Row<P>): Row<P> { if winner.observed > loser.observed then winner else loser }

  function At<K, V>(m: map<K, V>, k: K): Option<V> { if k in m then Some(m[k]) else None }

  function NewerOf<P>(winner: Option<Row<P>>, loser: Option<Row<P>>): Option<Row<P>> {
    match (winner, loser)
    case (None, l) => l
    case (w, None) => w
    case (Some(w), Some(l)) => Some(Newer(w, l))
  }

  lemma NewerAssociates<P>(a: Option<Row<P>>, b: Option<Row<P>>, c: Option<Row<P>>)
    ensures NewerOf(NewerOf(a, b), c) == NewerOf(a, NewerOf(b, c))
  {
  }

  /** Both sides' rows, the newer for each key. */
  function MergedRows<K, P>(winner: map<K, Row<P>>, loser: map<K, Row<P>>): map<K, Row<P>> {
    map k | k in winner.Keys + loser.Keys :: NewerOf(At(winner, k), At(loser, k)).value
  }

  lemma MergedRowsAt<K, P>(winner: map<K, Row<P>>, loser: map<K, Row<P>>, k: K)
    ensures At(MergedRows(winner, loser), k) == NewerOf(At(winner, k), At(loser, k))
  {
  }

  /** What is kept of two rows of a key: the one observed last, the loser's of two observed at once. */
  predicate KeptRow<P(==)>(kept: Option<Row<P>>, winner: Option<Row<P>>, loser: Option<Row<P>>) {
    && (kept.Some? <==> winner.Some? || loser.Some?)
    && (kept.Some? ==>
          && (kept == winner || kept == loser)
          && (winner.Some? ==> kept.value.observed >= winner.value.observed)
          && (loser.Some? ==> kept.value.observed >= loser.value.observed)
          && (loser.Some? && kept.value.observed == loser.value.observed ==> kept == loser))
  }

  lemma MergedRowsKeep<K(!new), P(!new)>(winner: map<K, Row<P>>, loser: map<K, Row<P>>)
    ensures forall k :: KeptRow(At(MergedRows(winner, loser), k), At(winner, k), At(loser, k))
  {
    forall k ensures KeptRow(At(MergedRows(winner, loser), k), At(winner, k), At(loser, k)) {
      MergedRowsAt(winner, loser, k);
    }
  }

  /** Which titles merge first makes no difference to the rows kept. */
  lemma MergedRowsAssociate<K, P>(a: map<K, Row<P>>, b: map<K, Row<P>>, c: map<K, Row<P>>)
    ensures MergedRows(MergedRows(a, b), c) == MergedRows(a, MergedRows(b, c))
  {
    var left, right := MergedRows(MergedRows(a, b), c), MergedRows(a, MergedRows(b, c));
    assert left.Keys == right.Keys;
    forall k | k in left ensures left[k] == right[k] {
      MergedRowsAt(MergedRows(a, b), c, k);
      MergedRowsAt(a, MergedRows(b, c), k);
      MergedRowsAt(a, b, k);
      MergedRowsAt(b, c, k);
      NewerAssociates(At(a, k), At(b, k), At(c, k));
    }
  }

  /** A key held by both sides keeps the newer row, every other key moves over; the order of rows is immaterial. */
  method MergeRows<K(!new), P(!new)>(winner: map<K, Row<P>>, loser: map<K, Row<P>>) returns (merged: map<K, Row<P>>)
    ensures merged == MergedRows(winner, loser)
  {
    merged := winner;
    var left := loser.Keys;
    while left != {}
      invariant left <= loser.Keys
      invariant forall k :: k !in left ==> At(merged, k) == NewerOf(At(winner, k), At(loser, k))
      invariant forall k :: k in left ==> At(merged, k) == At(winner, k)
      decreases |left|
    {
      var k :| k in left;
      merged := OfferRow(merged, k, loser[k]);
      left := left - {k};
    }
    SameRows(merged, winner, loser);
  }

  lemma SameRows<K(!new), P(!new)>(merged: map<K, Row<P>>, winner: map<K, Row<P>>, loser: map<K, Row<P>>)
    requires forall k :: At(merged, k) == NewerOf(At(winner, k), At(loser, k))
    ensures merged == MergedRows(winner, loser)
  {
    forall k ensures k in merged <==> k in MergedRows(winner, loser) {
      MergedRowsAt(winner, loser, k);
      assert At(merged, k) == NewerOf(At(winner, k), At(loser, k));
    }
    forall k | k in merged ensures merged[k] == MergedRows(winner, loser)[k] {
      assert At(merged, k) == NewerOf(At(winner, k), At(loser, k));
    }
  }

  /** An observed row is kept unless the one held is newer. */
  function Offered<K, P>(rows: map<K, Row<P>>, k: K, row: Row<P>): map<K, Row<P>> {
    if k in rows && rows[k].observed > row.observed then rows else rows[k := row]
  }

  /** Observing a row and merging with an entity that holds just that row come to the same. */
  lemma OfferIsMerge<K(!new), P(!new)>(rows: map<K, Row<P>>, k: K, row: Row<P>)
    ensures Offered(rows, k, row) == MergedRows(rows, map[k := row])
  {
    SameRows(Offered(rows, k, row), rows, map[k := row]);
  }

  method OfferRow<K(!new), P(!new)>(rows: map<K, Row<P>>, k: K, row: Row<P>) returns (more: map<K, Row<P>>)
    ensures more == Offered(rows, k, row)
  {
    if k in rows {
      if row.observed < rows[k].observed {
        return rows;
      }
    }
    return rows[k := row];
  }

  // ----- Fetches -----

  datatype Completeness = Summary | Detail

  datatype Success = Success(fetched: nat, empty: bool, completeness: Completeness, facts: Option<string>)

  /** What is known of one resource: the success it last had, and when it was last tried and why that failed. */
  datatype Fetch = Fetch(success: Option<Success>, attempt: Option<nat>, error: Option<string>)

  function Time(t: Option<nat>): int { match t case None => -1 case Some(n) => n }

  function Fetched(s: Option<Success>): int { match s case None => -1 case Some(x) => x.fetched }

  /** The loser's success is taken when it is newer, or as old but with facts the winner lacks. */
  function LatestSuccess(winner: Option<Success>, loser: Option<Success>): Option<Success> {
    if Fetched(winner) < Fetched(loser)
       || (winner.Some? && loser.Some? && winner.value.fetched == loser.value.fetched
           && winner.value.facts.None? && loser.value.facts.Some?)
    then loser else winner
  }

  function MergeFetch(winner: Fetch, loser: Fetch): Fetch {
    var success := LatestSuccess(winner.success, loser.success);
    if Time(winner.attempt) < Time(loser.attempt)
    then Fetch(success, loser.attempt, loser.error) else Fetch(success, winner.attempt, winner.error)
  }

  /** The newest success and the newest attempt of the two sides survive, each with what belongs to it. */
  lemma FetchNeverLosesSuccess(winner: Fetch, loser: Fetch)
    ensures var m := MergeFetch(winner, loser);
            && Fetched(m.success) == Max(Fetched(winner.success), Fetched(loser.success))
            && Time(m.attempt) == Max(Time(winner.attempt), Time(loser.attempt))
            && (m.success == winner.success || m.success == loser.success)
            && ((m.attempt == winner.attempt && m.error == winner.error) || (m.attempt == loser.attempt && m.error == loser.error))
            && (forall s: Option<Success> ::
                  (s == winner.success || s == loser.success) && s.Some? && Fetched(s) == Fetched(m.success) && s.value.facts.Some?
                  ==> m.success.value.facts.Some?)
  {
  }

  lemma FetchAssociates(a: Fetch, b: Fetch, c: Fetch)
    ensures MergeFetch(MergeFetch(a, b), c) == MergeFetch(a, MergeFetch(b, c))
    ensures MergeFetch(a, a) == a
  {
  }

  /** Statement by statement: copy the success if it is ahead, then the attempt if it is. */
  method MergeFetchRow(winner: Fetch, loser: Fetch) returns (m: Fetch)
    ensures m == MergeFetch(winner, loser)
  {
    m := winner;
    if Fetched(m.success) < Fetched(loser.success)
       || (m.success.Some? && loser.success.Some? && m.success.value.fetched == loser.success.value.fetched
           && m.success.value.facts.None? && loser.success.value.facts.Some?)
    {
      m := m.(success := loser.success);
    }
    if Time(m.attempt) < Time(loser.attempt) {
      m := m.(attempt := loser.attempt, error := loser.error);
    }
  }

  // ----- Recording attempts -----

  /** A successful attempt replaces success, attempt and error; stored facts stay. */
  function Succeeded(held: Option<Fetch>, time: nat, empty: bool, completeness: Completeness): Fetch {
    var facts := if held.Some? && held.value.success.Some? then held.value.success.value.facts else None;
    Fetch(Some(Success(time, empty, completeness, facts)), Some(time), None)
  }

  /** A failed attempt leaves the success alone. */
  function AttemptFailed(held: Option<Fetch>, time: nat, error: string): Fetch {
    Fetch(if held.Some? then held.value.success else None, Some(time), Some(error))
  }

  // ----- All fetches of an entity -----

  function FetchOf(winner: Option<Fetch>, loser: Option<Fetch>): Option<Fetch> {
    match (winner, loser)
    case (None, l) => l
    case (w, None) => w
    case (Some(w), Some(l)) => Some(MergeFetch(w, l))
  }

  function MergedFetches<K>(winner: map<K, Fetch>, loser: map<K, Fetch>): map<K, Fetch> {
    map k | k in winner.Keys + loser.Keys :: FetchOf(At(winner, k), At(loser, k)).value
  }

  /**
   What is kept of two records of a resource: the newest success of both, with facts if one of that time has
   them, and the newest attempt of both with its error; of equals the winner's.
   */
  predicate KeptFetch(kept: Fetch, winner: Fetch, loser: Fetch) {
    && (kept.success == winner.success || kept.success == loser.success)
    && (winner.success.Some? ==> kept.success.Some? && kept.success.value.fetched >= winner.success.value.fetched)
    && (loser.success.Some? ==> kept.success.Some? && kept.success.value.fetched >= loser.success.value.fetched)
    && (winner.success.Some? && kept.success.value.fetched == winner.success.value.fetched
        && (winner.success.value.facts.Some? || loser.success.None? || loser.success.value.facts.None?) ==>
          kept.success == winner.success)
    && (loser.success.Some? && kept.success.value.fetched == loser.success.value.fetched && loser.success.value.facts.Some? ==>
          kept.success.value.facts.Some?)
    && ((kept.attempt == winner.attempt && kept.error == winner.error) || (kept.attempt == loser.attempt && kept.error == loser.error))
    && (winner.attempt.Some? ==> kept.attempt.Some? && kept.attempt.value >= winner.attempt.value)
    && (loser.attempt.Some? ==> kept.attempt.Some? && kept.attempt.value >= loser.attempt.value)
    && (kept.attempt == winner.attempt ==> kept.error == winner.error)
  }

  lemma MergeFetchKeeps(winner: Fetch, loser: Fetch)
    ensures KeptFetch(MergeFetch(winner, loser), winner, loser)
  {
  }

  /** A resource known to one side only keeps its record. */
  predicate KeptRecord(kept: Option<Fetch>, winner: Option<Fetch>, loser: Option<Fetch>) {
    if winner.None? then kept == loser
    else if loser.None? then kept == winner
    else kept.Some? && KeptFetch(kept.value, winner.value, loser.value)
  }

  lemma MergedFetchesKeep<K(!new)>(winner: map<K, Fetch>, loser: map<K, Fetch>)
    ensures forall k :: KeptRecord(At(MergedFetches(winner, loser), k), At(winner, k), At(loser, k))
  {
    forall k ensures KeptRecord(At(MergedFetches(winner, loser), k), At(winner, k), At(loser, k)) {
      if k in winner && k in loser {
        MergeFetchKeeps(winner[k], loser[k]);
      }
    }
  }

  /** A success is the newest, with the facts known before; it is also the newest attempt and leaves no error. */
  lemma SuccessIsRecorded(held: Option<Fetch>, time: nat, empty: bool, completeness: Completeness)
    ensures var f := Succeeded(held, time, empty, completeness);
            && f.attempt == Some(time) && f.error == None
            && f.success.Some? && f.success.value.fetched == time && f.success.value.empty == empty
            && f.success.value.completeness == completeness
            && forall facts :: f.success.value.facts == Some(facts) <==>
                 held.Some? && held.value.success.Some? && held.value.success.value.facts == Some(facts)
  {
  }

  /** A failure is the newest attempt with its error and loses no success. */
  lemma FailureIsRecorded(held: Option<Fetch>, time: nat, error: string)
    ensures var f := AttemptFailed(held, time, error);
            && f.attempt == Some(time) && f.error == Some(error)
            && forall s :: f.success == Some(s) <==> held.Some? && held.value.success == Some(s)
  {
  }

  /** Record by record: merged where the winner has one for the resource, handed over otherwise. */
  method MergeFetches<K(!new)>(winner: map<K, Fetch>, loser: map<K, Fetch>) returns (merged: map<K, Fetch>)
    ensures merged == MergedFetches(winner, loser)
  {
    hide MergeFetch;
    merged := winner;
    var left := loser.Keys;
    while left != {}
      invariant left <= loser.Keys
      invariant forall k :: k !in left ==> At(merged, k) == FetchOf(At(winner, k), At(loser, k))
      invariant forall k :: k in left ==> At(merged, k) == At(winner, k)
      decreases |left|
    {
      var k :| k in left;
      merged := MergeRecord(merged, k, loser[k]);
      left := left - {k};
    }
    SameFetches(merged, winner, loser);
  }

  method MergeRecord<K(!new)>(fetches: map<K, Fetch>, k: K, f: Fetch) returns (more: map<K, Fetch>)
    ensures At(more, k) == FetchOf(At(fetches, k), Some(f))
    ensures forall other :: other != k ==> At(more, other) == At(fetches, other)
  {
    if k !in fetches {
      return fetches[k := f];
    }
    var m := MergeFetchRow(fetches[k], f);
    return fetches[k := m];
  }

  lemma SameFetches<K(!new)>(merged: map<K, Fetch>, winner: map<K, Fetch>, loser: map<K, Fetch>)
    requires forall k :: At(merged, k) == FetchOf(At(winner, k), At(loser, k))
    ensures merged == MergedFetches(winner, loser)
  {
    hide MergeFetch;
    forall k ensures k in merged <==> k in winner || k in loser {
      assert At(merged, k) == FetchOf(At(winner, k), At(loser, k));
    }
    forall k | k in merged ensures merged[k] == MergedFetches(winner, loser)[k] {
      assert At(merged, k) == FetchOf(At(winner, k), At(loser, k));
    }
  }
}
