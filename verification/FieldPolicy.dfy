/**
 Which observation of a descriptive field is retained. The acceptance tests of the program are
 shown to be one comparison, so folding observations keeps the greatest, and merging two titles
 keeps what folding both histories into one title would have kept.
 */
module FieldPolicy {
  import opened Util
  import opened ProviderPriority

  datatype Quality = Summary | Detail

  /** Provenance of a retained field. */
  datatype Origin = Origin(supplier: string, quality: Quality, observed: int)

  datatype Observation<V> = Observation(origin: Origin, value: V)

  // ----- The tests of the program -----

  predicate AcceptsField(current: Option<(Quality, int)>, incoming: Quality, observed: int) {
    match current
    case None => true
    case Some((quality, time)) =>
      (incoming.Detail? && quality.Summary?) || (incoming == quality && observed >= time)
  }

  /** Across suppliers the configured priority decides; within one, quality and then age. */
  predicate AcceptsRanked(current: Option<(ProviderId, Quality, int)>, incoming: (ProviderId, Quality, int),
                          order: seq<ProviderId>) {
    match current
    case None => true
    case Some((supplier, quality, time)) =>
      if supplier != incoming.0 then Rank(order, incoming.0) < Rank(order, supplier)
      else AcceptsField(Some((quality, time)), incoming.1, incoming.2)
  }

  /** Unknown suppliers rank below every known one and among themselves follow quality and age. */
  predicate Accepts(current: Option<Origin>, incoming: Origin, order: seq<ProviderId>) {
    match Parse(incoming.supplier)
    case None =>
      current.None?
      || (Parse(current.value.supplier).None?
          && AcceptsField(Some((current.value.quality, current.value.observed)), incoming.quality, incoming.observed))
    case Some(id) =>
      var known := if current.Some? && Parse(current.value.supplier).Some?
                   then Some((Parse(current.value.supplier).value, current.value.quality, current.value.observed))
                   else None;
      AcceptsRanked(known, (id, incoming.quality, incoming.observed), order)
  }

  // ----- One comparison -----

  /** A complete order has one place per supplier, far below the rank of an absent one. */
  lemma CompleteIsShort(order: seq<ProviderId>)
    requires Complete(order)
    ensures |order| < USIZE_MAX
  {
    if |order| > 2 {
      TwoSuppliers(order[0], order[1], order[2]);
    }
  }

  lemma TwoSuppliers(a: ProviderId, b: ProviderId, c: ProviderId)
    ensures a == b || b == c || a == c
  {
  }

  /** Strength of a supplier: unknown ones lowest, then by configured rank. */
  function Strength(supplier: string, order: seq<ProviderId>): int {
    match Parse(supplier)
    case None => -1 - USIZE_MAX
    case Some(id) => 0 - Rank(order, id)
  }

  /** a is weaker than b by supplier, then quality, then age. */
  predicate Weaker(a: Origin, b: Origin, order: seq<ProviderId>) {
    var sa, sb := Strength(a.supplier, order), Strength(b.supplier, order);
    sa < sb || (sa == sb && (if a.quality != b.quality then a.quality.Summary? else a.observed < b.observed))
  }

  /** An observation is accepted exactly when it is not weaker than the retained one. */
  lemma AcceptsIsNotWeaker(current: Origin, incoming: Origin, order: seq<ProviderId>)
    requires Complete(order)
    ensures Accepts(Some(current), incoming, order) <==> !Weaker(incoming, current, order)
  {
    var a, b := Parse(incoming.supplier), Parse(current.supplier);
    CompleteIsShort(order);
    if a.Some? && b.Some? {
      RanksDistinct(order, a.value, b.value);
      RankIsPosition(order, a.value);
      RankIsPosition(order, b.value);
    } else if a.Some? {
      RankIsPosition(order, a.value);
    } else if b.Some? {
      RankIsPosition(order, b.value);
    }
  }

  lemma WeakerIsOrder(a: Origin, b: Origin, c: Origin, order: seq<ProviderId>)
    ensures Weaker(a, b, order) && !Weaker(c, b, order) ==> Weaker(a, c, order)
    ensures !Weaker(b, a, order) && Weaker(b, c, order) ==> Weaker(a, c, order)
    ensures Weaker(a, b, order) ==> !Weaker(b, a, order)
  {
  }

  // ----- Folding observations -----

  function Retain<V>(current: Option<Observation<V>>, o: Observation<V>, order: seq<ProviderId>): Observation<V> {
    if current.None? || Accepts(Some(current.value.origin), o.origin, order) then o else current.value
  }

  /** What a title keeps after a sequence of observations of one field. */
  function Fold<V>(observations: seq<Observation<V>>, order: seq<ProviderId>): Option<Observation<V>> {
    if observations == [] then None
    else
      var last := |observations| - 1;
      Some(Retain(Fold(observations[..last], order), observations[last], order))
  }

  /** Merging two titles offers the loser's field to the winner. */
  function Merge<V>(winner: Option<Observation<V>>, loser: Option<Observation<V>>,
                    order: seq<ProviderId>): Option<Observation<V>> {
    if loser.None? then winner else Some(Retain(winner, loser.value, order))
  }

  /** The index of the retained observation: nothing beats it, and nothing after it equals it. */
  predicate IsLastMaximum<V>(observations: seq<Observation<V>>, i: nat, order: seq<ProviderId>)
    requires i < |observations|
  {
    && (forall j :: 0 <= j < i ==> !Weaker(observations[i].origin, observations[j].origin, order))
    && (forall j :: i < j < |observations| ==> Weaker(observations[j].origin, observations[i].origin, order))
  }

  lemma NewMaximum(kept: Origin, o: Origin, other: Origin, order: seq<ProviderId>)
    requires !Weaker(o, kept, order) && !Weaker(kept, other, order)
    ensures !Weaker(o, other, order)
  {
  }

  /** Folding retains the greatest observation, the latest of equals. */
  lemma {:induction false} FoldKeepsLastMaximum<V>(observations: seq<Observation<V>>,
                            order: seq<ProviderId>) returns (i: nat)
    requires Complete(order) && observations != []
    ensures i < |observations| && Fold(observations, order) == Some(observations[i])
    ensures IsLastMaximum(observations, i, order)
  {
    hide Weaker, Accepts, Complete;
    var last := |observations| - 1;
    var front := observations[..last];
    if last == 0 {
      i := 0;
    } else {
      i := FoldKeepsLastMaximum(front, order);
      var kept, o := observations[i].origin, observations[last].origin;
      AcceptsIsNotWeaker(kept, o, order);
      if Accepts(Some(kept), o, order) {
        forall j | 0 <= j < last ensures !Weaker(o, observations[j].origin, order) {
          assert front[j] == observations[j];
          WeakerIsOrder(observations[j].origin, kept, kept, order);
          NewMaximum(kept, o, observations[j].origin, order);
        }
        i := last;
      } else {
        assert forall j :: 0 <= j < last ==> front[j] == observations[j];
      }
    }
  }

  /** Merging the field of two titles is folding both histories into one title. */
  lemma {:induction false} MergeOfFolds<V>(a: seq<Observation<V>>, b: seq<Observation<V>>, order: seq<ProviderId>)
    requires Complete(order)
    ensures Merge(Fold(a, order), Fold(b, order), order) == Fold(a + b, order)
    decreases |b|
  {
    if b == [] {
      assert a + b == a;
    } else {
      var last := |b| - 1;
      var front, o := b[..last], b[last];
      assert (a + b)[..|a + b| - 1] == a + front;
      MergeOfFolds(a, front, order);
      RetainAssociates(Fold(a, order), Fold(front, order), o, order);
    }
  }

  /** Offering a title what another kept of its history and o equals offering first its history, then o. */
  lemma RetainAssociates<V>(a: Option<Observation<V>>, b: Option<Observation<V>>, o: Observation<V>, order: seq<ProviderId>)
    requires Complete(order)
    ensures Retain(a, Retain(b, o, order), order) == Retain(Merge(a, b, order), o, order)
  {
    if a.Some? && b.Some? {
      var x, y, z := a.value.origin, b.value.origin, o.origin;
      AcceptsIsNotWeaker(x, y, order);
      AcceptsIsNotWeaker(y, z, order);
      AcceptsIsNotWeaker(x, z, order);
      WeakerIsOrder(z, y, x, order);
      WeakerIsOrder(y, x, z, order);
      WeakerIsOrder(z, x, y, order);
    }
  }

  /** Merging titles is associative: the survivor's field does not depend on the order of merges. */
  lemma MergeAssociates<V>(a: Option<Observation<V>>, b: Option<Observation<V>>, c: Option<Observation<V>>,
                           order: seq<ProviderId>)
    requires Complete(order)
    ensures Merge(Merge(a, b, order), c, order) == Merge(a, Merge(b, c, order), order)
  {
    if c.Some? {
      RetainAssociates(a, b, c.value, order);
    }
  }

  /** Two observations tie when neither is weaker. */
  predicate Tie(a: Origin, b: Origin, order: seq<ProviderId>) { !Weaker(a, b, order) && !Weaker(b, a, order) }

  /** Without ties the retained observation does not depend on the order of arrival. */
  lemma ArrivalOrderIrrelevant<V>(a: seq<Observation<V>>, b: seq<Observation<V>>, order: seq<ProviderId>)
    requires Complete(order) && a != []
    requires forall o :: o in a <==> o in b
    requires forall i, j :: 0 <= i < |a| && 0 <= j < |a| && Tie(a[i].origin, a[j].origin, order) ==> a[i] == a[j]
    ensures Fold(a, order) == Fold(b, order)
  {
    assert a[0] in b;
    var i := FoldKeepsLastMaximum(a, order);
    var k := FoldKeepsLastMaximum(b, order);
    assert a[i] in b && b[k] in a;
    var j :| 0 <= j < |a| && a[j] == b[k];
    var m :| 0 <= m < |b| && b[m] == a[i];
    MaximaTie(a, i, j, order);
    MaximaTie(b, k, m, order);
  }

  lemma MaximaTie<V>(s: seq<Observation<V>>, i: nat, j: nat, order: seq<ProviderId>)
    requires i < |s| && j < |s| && IsLastMaximum(s, i, order)
    ensures !Weaker(s[i].origin, s[j].origin, order)
  {
    WeakerIsOrder(s[j].origin, s[i].origin, s[i].origin, order);
  }

  /** Merging is symmetric exactly when the two fields differ in strength or are the same. */
  lemma MergeCommutesIff<V>(a: Observation<V>, b: Observation<V>, order: seq<ProviderId>)
    requires Complete(order)
    ensures Merge(Some(a), Some(b), order) == Merge(Some(b), Some(a), order)
       <==> !Tie(a.origin, b.origin, order) || a == b
  {
    AcceptsIsNotWeaker(a.origin, b.origin, order);
    AcceptsIsNotWeaker(b.origin, a.origin, order);
    WeakerIsOrder(a.origin, b.origin, a.origin, order);
    WeakerIsOrder(b.origin, a.origin, b.origin, order);
  }
}
