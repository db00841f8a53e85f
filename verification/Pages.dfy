/**
 Ordered membership of one provider page: the rows written, the checks made when they are read
 back, and what happens to them when one listed title turns out to be another.
 */
module Pages {
  import opened Util
  import opened Lists

  datatype Item = Item(position: int, title: nat)

  datatype Error = InvalidCache | InvalidMetadata

  /** A saved page; `items` are its membership rows by position, `fetched` the time of its last successful fetch. */
  datatype Page = Page(items: seq<Item>, count: Option<int>, available: bool, fetched: Option<int>, total: Option<nat>)

  function Titles(items: seq<Item>): seq<nat> { seq(|items|, i requires 0 <= i < |items| => items[i].title) }

  predicate Distinct(titles: seq<nat>) { forall i, j :: 0 <= i < j < |titles| ==> titles[i] != titles[j] }

  predicate Numbered(items: seq<Item>) { forall i :: 0 <= i < |items| ==> items[i].position == i }

  /** What every committed page satisfies. */
  predicate PageOk(p: Page) {
    && Numbered(p.items) && Distinct(Titles(p.items))
    && (p.available ==> p.count == Some(|p.items|) && p.fetched.Some? && p.fetched.value >= 0)
  }

  // ----- Reading -----

  predicate Readable(p: Page) {
    p.count.Some? && p.count.value >= 0 && p.fetched.Some? && p.fetched.value >= 0
    && Numbered(p.items) && Distinct(Titles(p.items)) && |p.items| == p.count.value
  }

  /** An unavailable page reads as absent; any gap, repetition or wrong count is a broken cache. */
  function Read(p: Page): Result<Option<seq<nat>>, Error> {
    if !p.available then Ok(None)
    else if Readable(p) then Ok(Some(Titles(p.items)))
    else Err(InvalidCache)
  }

  /** A committed page is never rejected and reads as its membership in order. */
  lemma CommittedPageReads(p: Page)
    requires PageOk(p)
    ensures Read(p) == Ok(if p.available then Some(Titles(p.items)) else None)
  {
  }

  /**
   A page that is available is rejected exactly if it has no count or no fetch time, either is negative, its rows
   are not numbered from zero without a gap, a title is listed twice, or the count is not the number of rows.
   */
  lemma RejectedExactly(p: Page)
    ensures Read(p).Err? <==>
              p.available
              && (|| p.count.None? || p.count.value < 0 || p.fetched.None? || p.fetched.value < 0
                  || (exists i :: 0 <= i < |p.items| && p.items[i].position != i)
                  || (exists i, j :: 0 <= i < j < |p.items| && p.items[i].title == p.items[j].title)
                  || |p.items| != p.count.value)
    ensures Read(p).Err? ==> Read(p).error == InvalidCache
    ensures Read(p).Ok? ==> (Read(p).value.Some? <==> p.available)
  {
    var titles := Titles(p.items);
    assert forall i :: 0 <= i < |titles| ==> titles[i] == p.items[i].title;
    if !Distinct(titles) {
      var i, j :| 0 <= i < j < |titles| && titles[i] == titles[j];
      assert p.items[i].title == p.items[j].title;
    }
  }

  // ----- Writing -----

  function Enumerated(titles: seq<nat>): seq<Item> { seq(|titles|, i requires 0 <= i < |titles| => Item(i, titles[i])) }

  /** Replaces the membership; the page becomes available. */
  function Store(p: Page, titles: seq<nat>, fetched: nat, total: Option<nat>): Page {
    Page(Enumerated(titles), Some(|titles|), true, Some(fetched), total)
  }

  /** What was written is read back, in order. */
  lemma WriteThenRead(p: Page, titles: seq<nat>, fetched: nat, total: Option<nat>)
    requires Distinct(titles)
    ensures PageOk(Store(p, titles, fetched, total))
    ensures Read(Store(p, titles, fetched, total)) == Ok(Some(titles))
  {
    assert Titles(Enumerated(titles)) == titles;
  }

  /** A written page is dated by its fetch and carries the total the provider gave. */
  lemma WrittenIsDated(p: Page, titles: seq<nat>, fetched: nat, total: Option<nat>)
    ensures var q := Store(p, titles, fetched, total);
            q.available && q.fetched == Some(fetched) && q.total == total && |q.items| == |titles| && q.count == Some(|titles|)
  {
  }

  // ----- Two titles become one -----

  function Rename(winner: nat, loser: nat, title: nat): nat { if title == loser then winner else title }

  function Renamed(titles: seq<nat>, winner: nat, loser: nat): seq<nat> {
    seq(|titles|, i requires 0 <= i < |titles| => Rename(winner, loser, titles[i]))
  }

  /** First occurrences, in order. */
  function FirstOccurrences(titles: seq<nat>): (r: seq<nat>)
    ensures Distinct(r)
    ensures forall t :: t in r <==> t in titles
    decreases |titles|
  {
    if titles == [] then []
    else
      var last := |titles| - 1;
      var front := FirstOccurrences(titles[..last]);
      if titles[last] in front then front else front + [titles[last]]
  }

  function MergedTitles(titles: seq<nat>, winner: nat, loser: nat): seq<nat> {
    FirstOccurrences(Renamed(titles, winner, loser))
  }

  /** Only pages that list the loser are rewritten. */
  function MergePage(p: Page, winner: nat, loser: nat): Page {
    if loser !in Titles(p.items) then p
    else
      var titles := MergedTitles(Titles(p.items), winner, loser);
      p.(items := Enumerated(titles), count := if p.available then Some(|titles|) else p.count)
  }

  lemma {:induction false} DistinctUnchanged(titles: seq<nat>)
    requires Distinct(titles)
    ensures FirstOccurrences(titles) == titles
    decreases |titles|
  {
    if titles != [] {
      DistinctUnchanged(titles[..|titles| - 1]);
    }
  }

  /** Dropping a later repetition changes no first occurrence. */
  lemma {:induction false} RepetitionDropped(titles: seq<nat>, i: nat, j: nat)
    requires i < j < |titles| && titles[i] == titles[j]
    ensures FirstOccurrences(titles) == FirstOccurrences(Remove(titles, j))
    decreases |titles|
  {
    var last := |titles| - 1;
    var front := titles[..last];
    var less := Remove(titles, j);
    if j == last {
      assert less == front;
      assert titles[i] in front by { assert front[i] == titles[i]; }
    } else {
      RepetitionDropped(front, i, j);
      assert less[..|less| - 1] == Remove(front, j);
      assert less[|less| - 1] == titles[last];
    }
  }

  /** A page that lists only the loser lists the winner in its place. */
  lemma MergedTitlesReplace(titles: seq<nat>, i: nat, winner: nat, loser: nat)
    requires Distinct(titles) && winner != loser && i < |titles| && titles[i] == loser && winner !in titles
    ensures MergedTitles(titles, winner, loser) == titles[i := winner]
  {
    assert Renamed(titles, winner, loser) == titles[i := winner];
    DistinctUnchanged(titles[i := winner]);
  }

  /** A page that lists both gives the earlier place to the winner and drops the later; nothing else moves. */
  lemma MergedTitlesDrop(titles: seq<nat>, i: nat, k: nat, winner: nat, loser: nat)
    requires Distinct(titles) && winner != loser && i < |titles| && titles[i] == loser && k < |titles| && titles[k] == winner
    ensures MergedTitles(titles, winner, loser) == Remove(titles[i := winner], if i < k then k else i)
  {
    var renamed := titles[i := winner];
    assert Renamed(titles, winner, loser) == renamed;
    var first, later := if i < k then i else k, if i < k then k else i;
    RepetitionDropped(renamed, first, later);
    var less := Remove(renamed, later);
    LessIsDistinct(titles, i, k, winner);
    DistinctUnchanged(less);
  }

  lemma LessIsDistinct(titles: seq<nat>, i: nat, k: nat, winner: nat)
    requires Distinct(titles) && i < |titles| && k < |titles| && i != k && titles[k] == winner
    ensures Distinct(Remove(titles[i := winner], if i < k then k else i))
  {
    var renamed, later := titles[i := winner], if i < k then k else i;
    var less := Remove(renamed, later);
    assert forall x :: 0 <= x < |less| ==> less[x] == renamed[if x < later then x else x + 1];
  }

  /** A merge keeps the page committed: it reads as the renamed first occurrences and lists the loser no more. */
  lemma MergedPageReads(p: Page, winner: nat, loser: nat)
    requires PageOk(p) && winner != loser
    ensures var q := MergePage(p, winner, loser);
            && PageOk(q)
            && loser !in Titles(q.items)
            && (forall t :: t in Titles(q.items) <==> exists u :: u in Titles(p.items) && Rename(winner, loser, u) == t)
            && (p.available ==> Read(q) == Ok(Some(MergedTitles(Titles(p.items), winner, loser))))
  {
    var titles := Titles(p.items);
    var renamed := Renamed(titles, winner, loser);
    forall u | u in titles ensures Rename(winner, loser, u) in renamed {
      var k :| 0 <= k < |titles| && titles[k] == u;
      assert renamed[k] == Rename(winner, loser, u);
    }
    if loser in titles {
      assert Titles(Enumerated(FirstOccurrences(renamed))) == FirstOccurrences(renamed);
    } else {
      assert renamed == titles;
      DistinctUnchanged(titles);
      forall u | u in titles ensures Rename(winner, loser, u) == u {}
    }
  }

  lemma MergedItems(p: Page, winner: nat, loser: nat)
    requires PageOk(p) && winner != loser
    ensures Titles(MergePage(p, winner, loser).items) == MergedTitles(Titles(p.items), winner, loser)
  {
    var titles := Titles(p.items);
    if loser in titles {
      assert Titles(Enumerated(MergedTitles(titles, winner, loser))) == MergedTitles(titles, winner, loser);
    } else {
      assert Renamed(titles, winner, loser) == titles;
      DistinctUnchanged(titles);
    }
  }

  // ----- As the program does it -----

  method ReadPage(p: Page) returns (r: Result<Option<seq<nat>>, Error>)
    ensures r == Read(p)
  {
    if !p.available {
      return Ok(None);
    }
    if p.count.None? || p.count.value < 0 || p.fetched.None? || p.fetched.value < 0 {
      return Err(InvalidCache);
    }
    var ids, seen: set<nat>, i := [], {}, 0;
    while i < |p.items|
      invariant i <= |p.items| && ids == Titles(p.items[..i]) && Numbered(p.items[..i]) && Distinct(ids)
      invariant forall t :: t in seen <==> t in ids
    {
      var item := p.items[i];
      if item.position != |ids| || item.title in seen {
        BadItem(p.items, i);
        return Err(InvalidCache);
      }
      seen := seen + {item.title};
      ids := ids + [item.title];
      assert Titles(p.items[..i + 1]) == ids;
      i := i + 1;
    }
    assert p.items[..i] == p.items;
    if |ids| != p.count.value {
      return Err(InvalidCache);
    }
    return Ok(Some(ids));
  }

  lemma BadItem(items: seq<Item>, i: nat)
    requires i < |items| && (items[i].position != i || items[i].title in Titles(items[..i]))
    ensures !Numbered(items) || !Distinct(Titles(items))
  {
    if items[i].title in Titles(items[..i]) {
      var k :| 0 <= k < i && Titles(items[..i])[k] == items[i].title;
      assert Titles(items)[k] == Titles(items)[i];
    }
  }

  method WriteItems(titles: seq<nat>) returns (items: seq<Item>)
    ensures items == Enumerated(titles)
  {
    items := [];
    var i := 0;
    while i < |titles|
      invariant i <= |titles| && items == Enumerated(titles[..i])
    {
      items := items + [Item(i, titles[i])];
      assert Enumerated(titles[..i + 1]) == items;
      i := i + 1;
    }
    assert titles[..i] == titles;
  }

  /** Renames row by row and keeps what was not seen before. */
  method MergeRows(p: Page, winner: nat, loser: nat) returns (q: Page)
    ensures q == MergePage(p, winner, loser)
  {
    if loser !in Titles(p.items) {
      return p;
    }
    var titles := Titles(p.items);
    ghost var renamed := Renamed(titles, winner, loser);
    var kept, seen: set<nat>, i := [], {}, 0;
    while i < |titles|
      invariant i <= |titles| && kept == FirstOccurrences(renamed[..i])
      invariant forall t :: t in seen <==> t in kept
    {
      var t := Rename(winner, loser, titles[i]);
      assert renamed[..i + 1][..i] == renamed[..i] && renamed[..i + 1][i] == t;
      if t !in seen {
        seen := seen + {t};
        kept := kept + [t];
      }
      i := i + 1;
    }
    assert renamed[..i] == renamed;
    var items := WriteItems(kept);
    q := p.(items := items, count := if p.available then Some(|kept|) else p.count);
  }
}
