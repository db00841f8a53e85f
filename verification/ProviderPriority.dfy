/** The configured order of metadata suppliers. */
module ProviderPriority {
  import opened Util
  import opened Lists

  datatype ProviderId = Cinemeta | Tmdb

  const ALL: seq<ProviderId> := [Cinemeta, Tmdb]

  const USIZE_MAX: nat := 0xFFFF_FFFF_FFFF_FFFF

  function Parse(s: string): Option<ProviderId> {
    if s == "cinemeta" then Some(Cinemeta) else if s == "tmdb" then Some(Tmdb) else None
  }

  /** The two suppliers are known by these names, and by no other. */
  lemma KnownByName(s: string, id: ProviderId)
    ensures Parse(s) == Some(id) <==> s == match id case Cinemeta => "cinemeta" case Tmdb => "tmdb"
  {
  }

  // ----- Orders -----

  /** Every supplier appears exactly once. */
  predicate Complete(order: seq<ProviderId>) {
    && (forall id: ProviderId :: id in order)
    && (forall i, j :: 0 <= i < j < |order| ==> order[i] != order[j])
  }

  /** First occurrences, in order. */
  function FirstOccurrences(ids: seq<ProviderId>): (r: seq<ProviderId>)
    ensures forall id :: id in r <==> id in ids
    ensures forall i, j :: 0 <= i < j < |r| ==> r[i] != r[j]
    decreases |ids|
  {
    if ids == [] then []
    else
      var last := |ids| - 1;
      var front := FirstOccurrences(ids[..last]);
      if ids[last] in front then front else front + [ids[last]]
  }

  /** The given order, completed by the suppliers it leaves out. */
  function Completed(order: seq<ProviderId>): (r: seq<ProviderId>)
    ensures Complete(r)
  {
    AllListed(order);
    FirstOccurrences(order + ALL)
  }

  lemma AllListed(order: seq<ProviderId>)
    ensures forall id: ProviderId :: id in order + ALL
  {
    assert (order + ALL)[|order|] == Cinemeta && (order + ALL)[|order| + 1] == Tmdb;
    forall id: ProviderId ensures id in order + ALL {
      if id == Cinemeta {} else { assert id == Tmdb; }
    }
  }

  function Is(id: ProviderId): ProviderId -> bool { (p: ProviderId) => p == id }

  function Rank(order: seq<ProviderId>, id: ProviderId): nat {
    var i := First(order, Is(id));
    if i < |order| then i else USIZE_MAX
  }

  function Swap(order: seq<ProviderId>, i: nat, j: nat): seq<ProviderId>
    requires i < |order| && j < |order|
  {
    order[i := order[j]][j := order[i]]
  }

  function MovedUp(order: seq<ProviderId>, id: ProviderId): seq<ProviderId>
    requires Complete(order)
  {
    RankIsPosition(order, id);
    var rank := Rank(order, id);
    if rank > 0 then Swap(order, rank, rank - 1) else order
  }

  function MovedDown(order: seq<ProviderId>, id: ProviderId): seq<ProviderId>
    requires Complete(order)
  {
    RankIsPosition(order, id);
    var rank := Rank(order, id);
    if rank + 1 < |order| then Swap(order, rank, rank + 1) else order
  }

  /** In a complete order the rank is the supplier's one position, so ranks are distinct. */
  lemma RankIsPosition(order: seq<ProviderId>, id: ProviderId)
    requires Complete(order)
    ensures Rank(order, id) < |order| && order[Rank(order, id)] == id
    ensures forall i :: 0 <= i < |order| && order[i] == id ==> i == Rank(order, id)
  {
    assert id in order;
    var k :| 0 <= k < |order| && order[k] == id;
    assert Is(id)(order[k]);
    if First(order, Is(id)) < |order| {
      assert Is(id)(order[First(order, Is(id))]);
    }
  }

  lemma RanksDistinct(order: seq<ProviderId>, a: ProviderId, b: ProviderId)
    requires Complete(order)
    ensures a == b <==> Rank(order, a) == Rank(order, b)
  {
    RankIsPosition(order, a);
    RankIsPosition(order, b);
  }

  /** Moving keeps the order complete, and each move undoes the other. */
  lemma MovesAreInverse(order: seq<ProviderId>, id: ProviderId)
    requires Complete(order)
    ensures Complete(MovedUp(order, id)) && Complete(MovedDown(order, id))
    ensures Rank(order, id) > 0 ==> MovedDown(MovedUp(order, id), id) == order
    ensures Rank(order, id) + 1 < |order| ==> MovedUp(MovedDown(order, id), id) == order
  {
    RankIsPosition(order, id);
    var rank := Rank(order, id);
    if rank > 0 {
      SwapComplete(order, rank, rank - 1);
      RankIsPosition(MovedUp(order, id), id);
    }
    if rank + 1 < |order| {
      SwapComplete(order, rank, rank + 1);
      RankIsPosition(MovedDown(order, id), id);
    }
  }

  lemma SwapComplete(order: seq<ProviderId>, i: nat, j: nat)
    requires Complete(order) && i < |order| && j < |order| && i != j
    ensures Complete(Swap(order, i, j))
  {
    var s := Swap(order, i, j);
    forall id: ProviderId ensures id in s {
      RankIsPosition(order, id);
      var k := Rank(order, id);
      assert s[if k == i then j else if k == j then i else k] == id;
    }
  }

  // ----- The priority as the program keeps it -----

  class Priority {
    var order: seq<ProviderId>

    predicate Valid()
      reads this
    {
      Complete(order)
    }

    constructor (given: seq<ProviderId>)
      ensures Valid() && order == Completed(given)
    {
      var providers := [];
      var all := given + ALL;
      var i := 0;
      while i < |all|
        invariant i <= |all|
        invariant providers == FirstOccurrences(all[..i])
      {
        assert all[..i + 1][..i] == all[..i] && all[..i + 1][i] == all[i];
        if all[i] !in providers {
          providers := providers + [all[i]];
        }
        i := i + 1;
      }
      assert all[..i] == all;
      AllListed(given);
      order := providers;
    }

    method MoveUp(id: ProviderId)
      requires Valid()
      modifies this
      ensures Valid() && order == MovedUp(old(order), id)
    {
      MovesAreInverse(order, id);
      RankIsPosition(order, id);
      var rank := Rank(order, id);
      if rank > 0 {
        order := order[rank := order[rank - 1]][rank - 1 := order[rank]];
      }
    }

    method MoveDown(id: ProviderId)
      requires Valid()
      modifies this
      ensures Valid() && order == MovedDown(old(order), id)
    {
      MovesAreInverse(order, id);
      RankIsPosition(order, id);
      var rank := Rank(order, id);
      if rank + 1 < |order| {
        order := order[rank := order[rank + 1]][rank + 1 := order[rank]];
      }
    }
  }
}
