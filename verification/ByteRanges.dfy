/**
 Byte availability: sorted, disjoint, non-adjacent intervals standing for a set of bytes.
 Offsets are 64-bit unsigned; every arithmetic result below is checked against that width.
 */
module ByteRanges {
  import opened Util

  type U64 = n: nat | n <= 0xFFFF_FFFF_FFFF_FFFF

  const U64_MAX: U64 := 0xFFFF_FFFF_FFFF_FFFF

  datatype Interval = Interval(start: U64, end: U64)

  /** An interval that holds at least one byte; `end` itself is not in it. */
  type ByteRange = r: Interval | r.start < r.end witness Interval(0, 1)

  function NewRange(start: U64, end: U64): (r: Option<ByteRange>) {
    if start < end then Some(Interval(start, end)) else None
  }

  function Len(r: ByteRange): (n: U64) {
    r.end - r.start
  }

  // ----- The set of bytes a list of intervals stands for -----

  ghost predicate Holds(r: Interval, b: nat) {
    r.start <= b < r.end
  }

  ghost predicate Covers(rs: seq<ByteRange>, b: nat) {
    exists i :: 0 <= i < |rs| && Holds(rs[i], b)
  }

  ghost function Span(r: Interval): set<nat> {
    set b: nat | b < r.end && Holds(r, b)
  }

  ghost function Bytes(rs: seq<ByteRange>): set<nat> {
    set b: nat | b < U64_MAX && Covers(rs, b)
  }

  ghost predicate Normalized(rs: seq<ByteRange>) {
    forall i, j :: 0 <= i < j < |rs| ==> rs[i].end < rs[j].start
  }

  // ----- Insertion -----

  /** The partition point of a sorted list: how many leading intervals end before x. */
  function EndsBefore(rs: seq<ByteRange>, x: U64): (n: nat)
    ensures n <= |rs|
    ensures forall i :: 0 <= i < n ==> rs[i].end < x
    ensures n < |rs| ==> x <= rs[n].end
  {
    if rs == [] || x <= rs[0].end then 0 else 1 + EndsBefore(rs[1..], x)
  }

  /** Absorbs the run of intervals from `at` that touch the hull; returns its end and the hull. */
  function Absorb(rs: seq<ByteRange>, at: nat, hull: ByteRange): (r: (nat, ByteRange))
    requires at <= |rs|
    ensures at <= r.0 <= |rs|
    decreases |rs| - at
  {
    if at == |rs| || rs[at].start > hull.end then (at, hull)
    else Absorb(rs, at + 1, Interval(Min(hull.start, rs[at].start), Max(hull.end, rs[at].end)))
  }

  function Inserted(rs: seq<ByteRange>, range: ByteRange): seq<ByteRange> {
    var first := EndsBefore(rs, range.start);
    var (last, hull) := Absorb(rs, first, range);
    rs[..first] + [hull] + rs[last..]
  }

  lemma CoversConcat(a: seq<ByteRange>, b: seq<ByteRange>, x: nat)
    ensures Covers(a + b, x) <==> Covers(a, x) || Covers(b, x)
  {
    var c := a + b;
    if Covers(a, x) {
      var i :| 0 <= i < |a| && Holds(a[i], x);
      assert Holds(c[i], x);
    }
    if Covers(b, x) {
      var i :| 0 <= i < |b| && Holds(b[i], x);
      assert Holds(c[|a| + i], x);
    }
    if Covers(c, x) {
      var i :| 0 <= i < |c| && Holds(c[i], x);
      assert if i < |a| then Holds(a[i], x) else Holds(b[i - |a|], x);
    }
  }

  lemma CoversOne(r: ByteRange, b: nat)
    ensures Covers([r], b) <==> Holds(r, b)
  {
    assert [r][0] == r;
  }

  /** What absorbing preserves: the hull is exactly the range together with the absorbed run. */
  lemma {:induction false} AbsorbHull(rs: seq<ByteRange>, at: nat, hull: ByteRange)
    requires at <= |rs| && Normalized(rs)
    requires at < |rs| ==> hull.start <= rs[at].end
    ensures var (last, h) := Absorb(rs, at, hull);
            && h.start == (if at < last then Min(hull.start, rs[at].start) else hull.start)
            && (last < |rs| ==> h.end < rs[last].start)
    decreases |rs| - at
  {
    if at < |rs| && rs[at].start <= hull.end {
      AbsorbHull(rs, at + 1, Interval(Min(hull.start, rs[at].start), Max(hull.end, rs[at].end)));
    }
  }

  lemma {:induction false} AbsorbCovers(rs: seq<ByteRange>, at: nat, hull: ByteRange, b: nat)
    requires at <= |rs| && Normalized(rs)
    requires at < |rs| ==> hull.start <= rs[at].end
    ensures var (last, h) := Absorb(rs, at, hull);
            Holds(h, b) <==> Holds(hull, b) || Covers(rs[at..last], b)
    decreases |rs| - at
  {
    var (last, h) := Absorb(rs, at, hull);
    if at < |rs| && rs[at].start <= hull.end {
      var wider: ByteRange := Interval(Min(hull.start, rs[at].start), Max(hull.end, rs[at].end));
      AbsorbCovers(rs, at + 1, wider, b);
      assert Holds(wider, b) <==> Holds(hull, b) || Holds(rs[at], b);
      assert rs[at..last] == [rs[at]] + rs[at + 1..last];
      CoversConcat([rs[at]], rs[at + 1..last], b);
      CoversOne(rs[at], b);
    }
  }

  lemma InsertedCovers(rs: seq<ByteRange>, range: ByteRange, b: nat)
    requires Normalized(rs)
    ensures Covers(Inserted(rs, range), b) <==> Covers(rs, b) || Holds(range, b)
  {
    var first := EndsBefore(rs, range.start);
    var (last, hull) := Absorb(rs, first, range);
    AbsorbCovers(rs, first, range, b);
    SplitCovers(rs, first, last, b);
    CoversConcat(rs[..first], [hull], b);
    CoversConcat(rs[..first] + [hull], rs[last..], b);
    CoversOne(hull, b);
  }

  lemma SplitCovers(rs: seq<ByteRange>, i: nat, j: nat, b: nat)
    requires i <= j <= |rs|
    ensures Covers(rs, b) <==> Covers(rs[..i], b) || Covers(rs[i..j], b) || Covers(rs[j..], b)
  {
    assert rs[..i] + rs[i..j] == rs[..j];
    assert rs[..j] + rs[j..] == rs;
    CoversConcat(rs[..i], rs[i..j], b);
    CoversConcat(rs[..j], rs[j..], b);
  }

  lemma ConcatNormalized(a: seq<ByteRange>, b: seq<ByteRange>)
    requires Normalized(a) && Normalized(b)
    requires forall i, j :: 0 <= i < |a| && 0 <= j < |b| ==> a[i].end < b[j].start
    ensures Normalized(a + b)
  {
    var c := a + b;
    forall i, j | 0 <= i < j < |c| ensures c[i].end < c[j].start {
      assert c[i] == if i < |a| then a[i] else b[i - |a|];
      assert c[j] == if j < |a| then a[j] else b[j - |a|];
    }
  }

  lemma InsertedNormalized(rs: seq<ByteRange>, range: ByteRange)
    requires Normalized(rs)
    ensures Normalized(Inserted(rs, range))
  {
    var first := EndsBefore(rs, range.start);
    var (last, hull) := Absorb(rs, first, range);
    AbsorbHull(rs, first, range);
    var low, high := rs[..first], rs[last..];
    ConcatNormalized(low, [hull]);
    assert forall i :: 0 <= i < |low + [hull]| ==> (low + [hull])[i].end <= hull.end;
    ConcatNormalized(low + [hull], high);
  }

  lemma BytesAt(rs: seq<ByteRange>, b: nat)
    ensures b in Bytes(rs) <==> Covers(rs, b)
  {
  }

  lemma SpanAt(r: ByteRange, b: nat)
    ensures b in Span(r) <==> Holds(r, b)
  {
  }

  lemma InsertedByte(rs: seq<ByteRange>, range: ByteRange, b: nat)
    requires Normalized(rs)
    ensures b in Bytes(Inserted(rs, range)) <==> b in Bytes(rs) + Span(range)
  {
    hide *;
    InsertedCovers(rs, range, b);
    BytesAt(Inserted(rs, range), b);
    BytesAt(rs, b);
    SpanAt(range, b);
  }

  lemma SameSet(a: set<nat>, b: set<nat>)
    requires forall x: nat :: x in a <==> x in b
    ensures a == b
  {
  }

  /** Insertion is union, and keeps the list sorted, disjoint and non-adjacent. */
  lemma InsertedIsUnion(rs: seq<ByteRange>, range: ByteRange)
    requires Normalized(rs)
    ensures Normalized(Inserted(rs, range))
    ensures Bytes(Inserted(rs, range)) == Bytes(rs) + Span(range)
  {
    InsertedNormalized(rs, range);
    hide *;
    forall b: nat ensures b in Bytes(Inserted(rs, range)) <==> b in Bytes(rs) + Span(range) {
      InsertedByte(rs, range, b);
    }
    SameSet(Bytes(Inserted(rs, range)), Bytes(rs) + Span(range));
  }

  lemma BytesConcat(a: seq<ByteRange>, b: seq<ByteRange>)
    ensures Bytes(a + b) == Bytes(a) + Bytes(b)
  {
    forall x: nat ensures x in Bytes(a + b) <==> x in Bytes(a) + Bytes(b) {
      CoversConcat(a, b, x);
    }
  }

  lemma BytesOne(r: ByteRange)
    ensures Bytes([r]) == Span(r)
  {
    forall x: nat ensures x in Bytes([r]) <==> x in Span(r) {
      CoversOne(r, x);
    }
  }

  // ----- Canonical form -----

  /** In a normalized list the first interval starts at the least byte and ends at the first gap. */
  lemma FirstInterval(rs: seq<ByteRange>)
    requires Normalized(rs) && rs != []
    ensures forall b: nat :: Covers(rs, b) ==> rs[0].start <= b
    ensures forall b: nat :: Holds(rs[0], b) ==> Covers(rs, b)
    ensures Covers(rs, rs[0].start)
    ensures !Covers(rs, rs[0].end)
  {
    assert Holds(rs[0], rs[0].start);
  }

  lemma CoversTail(rs: seq<ByteRange>, b: nat)
    requires Normalized(rs) && rs != []
    ensures Covers(rs, b) <==> Holds(rs[0], b) || Covers(rs[1..], b)
    ensures !(Holds(rs[0], b) && Covers(rs[1..], b))
  {
    assert rs == [rs[0]] + rs[1..];
    CoversConcat([rs[0]], rs[1..], b);
    CoversOne(rs[0], b);
  }

  /** Equal sets of bytes have equal lists, so no history of insertions can be observed. */
  lemma {:induction false} CanonicalForm(a: seq<ByteRange>, b: seq<ByteRange>)
    requires Normalized(a) && Normalized(b)
    requires Bytes(a) == Bytes(b)
    ensures a == b
  {
    assert forall x: nat :: Covers(a, x) <==> x in Bytes(a);
    assert forall x: nat :: Covers(b, x) <==> x in Bytes(b);
    if a == [] || b == [] {
      if a != [] { FirstInterval(a); }
      if b != [] { FirstInterval(b); }
    } else {
      FirstInterval(a);
      FirstInterval(b);
      assert a[0].start == b[0].start;
      assert a[0].end == b[0].end;
      forall x: nat ensures Covers(a[1..], x) <==> Covers(b[1..], x) {
        CoversTail(a, x);
        CoversTail(b, x);
      }
      CanonicalForm(a[1..], b[1..]);
      assert a == [a[0]] + a[1..] && b == [b[0]] + b[1..];
    }
  }

  function InsertAll(rs: seq<ByteRange>, history: seq<ByteRange>): seq<ByteRange>
    decreases |history|
  {
    if history == [] then rs else InsertAll(Inserted(rs, history[0]), history[1..])
  }

  lemma {:induction false} InsertAllIsUnion(rs: seq<ByteRange>, history: seq<ByteRange>)
    requires Normalized(rs)
    ensures Normalized(InsertAll(rs, history))
    ensures Bytes(InsertAll(rs, history)) == Bytes(rs) + Bytes(history)
    decreases |history|
  {
    if history == [] {
      assert Bytes(history) == {};
    } else {
      var next, rest := Inserted(rs, history[0]), history[1..];
      InsertedIsUnion(rs, history[0]);
      InsertAllIsUnion(next, rest);
      assert Bytes(history) == Span(history[0]) + Bytes(rest) by {
        assert history == [history[0]] + rest;
        BytesConcat([history[0]], rest);
        BytesOne(history[0]);
      }
    }
  }

  /** Two insertion histories over the same bytes leave the same list, whatever their order or overlap. */
  lemma InsertionOrderIrrelevant(first: seq<ByteRange>, second: seq<ByteRange>)
    requires Bytes(first) == Bytes(second)
    ensures InsertAll([], first) == InsertAll([], second)
  {
    InsertAllIsUnion([], first);
    InsertAllIsUnion([], second);
    CanonicalForm(InsertAll([], first), InsertAll([], second));
  }

  // ----- Size -----

  /** Sum of the lengths, accumulated left to right; no partial sum leaves 64 bits. */
  function TotalBytes(rs: seq<ByteRange>): (total: U64)
    requires Normalized(rs)
    ensures total <= if rs == [] then 0 else rs[|rs| - 1].end
  {
    if rs == [] then 0
    else
      var init := rs[..|rs| - 1];
      assert forall i :: 0 <= i < |init| ==> init[i] == rs[i];
      TotalBytes(init) + Len(rs[|rs| - 1])
  }

  lemma {:induction false} SpanSize(r: Interval)
    requires r.start <= r.end
    ensures |Span(r)| == r.end - r.start
    decreases r.end - r.start
  {
    if r.start == r.end {
      assert Span(r) == {};
    } else {
      var shorter := r.(end := r.end - 1);
      SpanSize(shorter);
      forall b: nat ensures Holds(r, b) <==> Holds(shorter, b) || b == r.end - 1 {}
      assert Span(r) == Span(shorter) + {r.end - 1};
    }
  }

  /** The sum of the lengths is the number of available bytes. */
  lemma {:induction false} TotalIsCardinality(rs: seq<ByteRange>)
    requires Normalized(rs)
    ensures TotalBytes(rs) == |Bytes(rs)|
  {
    if rs == [] {
      assert Bytes(rs) == {};
    } else {
      var init, last := rs[..|rs| - 1], rs[|rs| - 1];
      assert forall i :: 0 <= i < |init| ==> init[i] == rs[i];
      TotalIsCardinality(init);
      SpanSize(last);
      assert rs == init + [last];
      BytesConcat(init, [last]);
      BytesOne(last);
      assert Bytes(init) !! Span(last);
    }
  }

  // ----- Clipping -----

  /** What of the interval is held, as a list of pieces; `ClippedIsMeet` says which bytes these are. */
  function Clipped(rs: seq<ByteRange>, range: ByteRange): seq<ByteRange> {
    if rs == [] then []
    else
      match NewRange(Max(rs[0].start, range.start), Min(rs[0].end, range.end))
      case Some(piece) => [piece] + Clipped(rs[1..], range)
      case None => Clipped(rs[1..], range)
  }

  lemma {:induction false} ClippedIsMeet(rs: seq<ByteRange>, range: ByteRange)
    requires Normalized(rs)
    ensures Normalized(Clipped(rs, range))
    ensures Bytes(Clipped(rs, range)) == Bytes(rs) * Span(range)
    ensures forall i :: 0 <= i < |Clipped(rs, range)| ==> rs != [] && rs[0].start <= Clipped(rs, range)[i].start
  {
    if rs != [] {
      var tail := Clipped(rs[1..], range);
      ClippedIsMeet(rs[1..], range);
      var piece := NewRange(Max(rs[0].start, range.start), Min(rs[0].end, range.end));
      assert Clipped(rs, range) == (if piece.Some? then [piece.value] + tail else tail);
      forall b: nat ensures b in Bytes(Clipped(rs, range)) <==> b in Bytes(rs) * Span(range) {
        CoversTail(rs, b);
        assert b < U64_MAX ==> (Covers(tail, b) <==> b in Bytes(tail));
        assert b < U64_MAX ==> (Covers(rs[1..], b) <==> b in Bytes(rs[1..]));
        if piece.Some? {
          CoversConcat([piece.value], tail, b);
          CoversOne(piece.value, b);
        }
      }
    }
  }

  /** What is missing from a request and what is available make up exactly the request. */
  lemma MissingAndAvailablePartition(rs: seq<ByteRange>, range: ByteRange, missing: seq<ByteRange>)
    requires Normalized(rs) && Normalized(missing)
    requires Bytes(missing) == Span(range) - Bytes(rs)
    ensures Normalized(Clipped(rs, range))
    ensures TotalBytes(missing) + TotalBytes(Clipped(rs, range)) == Len(range)
  {
    ClippedIsMeet(rs, range);
    TotalIsCardinality(missing);
    TotalIsCardinality(Clipped(rs, range));
    SpanSize(range);
    SplitSize(Span(range), Bytes(rs));
  }

  lemma SplitSize(whole: set<nat>, part: set<nat>)
    ensures |whole - part| + |part * whole| == |whole|
  {
    assert whole == (whole - part) + (part * whole);
  }

  /** When the candidate interval does not hold the whole request, here is a byte of it that is absent. */
  lemma AbsentByte(rs: seq<ByteRange>, range: ByteRange, index: nat) returns (b: nat)
    requires Normalized(rs)
    requires index == EndsBefore(rs, range.start + 1)
    requires index < |rs| ==> range.start < rs[index].start || rs[index].end < range.end
    ensures Holds(range, b) && !Covers(rs, b)
  {
    b := if index < |rs| && rs[index].start <= range.start then rs[index].end else range.start;
  }

  // ----- The mutable set -----

  class RangeSet {
    var ranges: seq<ByteRange>

    ghost predicate Valid()
      reads this
    {
      Normalized(ranges)
    }

    constructor ()
      ensures Valid() && ranges == []
    {
      ranges := [];
    }

    /** Afterwards exactly the bytes held before and those of the interval are held, still in normal form. */
    method Insert(range: ByteRange)
      requires Valid()
      modifies this
      ensures Valid()
      ensures ranges == Inserted(old(ranges), range)
      ensures Bytes(ranges) == Bytes(old(ranges)) + Span(range)
    {
      var first := EndsBefore(ranges, range.start);
      var last := first;
      var hull: ByteRange := range;
      while last < |ranges| && ranges[last].start <= hull.end
        invariant first <= last <= |ranges|
        invariant Absorb(ranges, last, hull) == Absorb(ranges, first, range)
      {
        hull := Interval(Min(hull.start, ranges[last].start), Max(hull.end, ranges[last].end));
        last := last + 1;
      }
      InsertedIsUnion(ranges, range);
      ranges := ranges[..first] + [hull] + ranges[last..];
    }

    /** True exactly when every byte of the interval is available. */
    method Contains(range: ByteRange) returns (all: bool)
      requires Valid()
      ensures all <==> Span(range) <= Bytes(ranges)
    {
      // An interval whose end is at most the start cannot hold the first byte.
      var index := EndsBefore(ranges, range.start + 1);
      all := index < |ranges| && ranges[index].start <= range.start && range.end <= ranges[index].end;
      if all {
        forall b | b in Span(range) ensures Covers(ranges, b) {
          assert Holds(ranges[index], b);
        }
      } else {
        var absent := AbsentByte(ranges, range, index);
        assert absent in Span(range) && absent !in Bytes(ranges);
      }
    }

    /** Returns, in normal form, the requested bytes that are not held. */
    method Missing(range: ByteRange) returns (missing: seq<ByteRange>)
      requires Valid()
      ensures Normalized(missing)
      ensures Bytes(missing) == Span(range) - Bytes(ranges)
    {
      missing := [];
      var cursor := range.start;
      var i := 0;
      while i < |ranges|
        invariant 0 <= i <= |ranges|
        invariant range.start <= cursor < range.end
        invariant Normalized(missing)
        invariant forall k :: 0 <= k < |missing| ==> missing[k].end < cursor
        invariant forall k :: 0 <= k < i ==> ranges[k].end <= cursor
        invariant forall b: nat :: Covers(missing, b) <==> range.start <= b < cursor && !Covers(ranges, b)
      {
        var item := ranges[i];
        if item.end <= cursor {
          i := i + 1;
          continue;
        }
        if item.start >= range.end {
          break;
        }
        ghost var before, from := missing, cursor;
        if cursor < item.start {
          missing := missing + [Interval(cursor, item.start)];
        }
        cursor := Min(Max(cursor, item.end), range.end);
        forall b: nat ensures Covers(missing, b) <==> range.start <= b < cursor && !Covers(ranges, b) {
          if from < item.start {
            CoversConcat(before, [Interval(from, item.start)], b);
            CoversOne(Interval(from, item.start), b);
          }
          assert Holds(item, b) ==> Covers(ranges, b);
          assert from <= b < item.start ==> !Covers(ranges, b);
        }
        i := i + 1;
        if cursor == range.end {
          break;
        }
      }
      if cursor < range.end {
        ghost var before := missing;
        missing := missing + [Interval(cursor, range.end)];
        forall b: nat ensures Covers(missing, b) <==> Holds(range, b) && !Covers(ranges, b) {
          CoversConcat(before, [Interval(cursor, range.end)], b);
          CoversOne(Interval(cursor, range.end), b);
        }
      }
    }

    method Intersection(range: ByteRange) returns (clipped: RangeSet)
      requires Valid()
      ensures fresh(clipped) && clipped.Valid()
      ensures Bytes(clipped.ranges) == Bytes(ranges) * Span(range)
    {
      clipped := new RangeSet();
      ClippedIsMeet(ranges, range);
      clipped.ranges := Clipped(ranges, range);
    }
  }
}
