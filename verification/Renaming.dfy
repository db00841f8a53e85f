/**
 Tables whose rows name a parent and a number, and what it means to identify some rows with
 others: references follow the renaming, identified rows disappear, and children that meet at
 the same number under one parent are identified in turn.
 */
module Renaming {
  import opened Util

  type Id = nat

  /** A child row; no two rows may hold the same parent and number. */
  datatype Row = Row(parent: Id, number: nat)

  predicate UniqueRows(rows: map<Id, Row>) {
    forall x, y :: x in rows && y in rows && rows[x] == rows[y] ==> x == y
  }

  // ----- Renamings -----

  function App(r: map<Id, Id>, x: Id): Id { if x in r then r[x] else x }

  /** Losers map to distinct winners, and no winner is itself a loser. */
  ghost predicate Good(r: map<Id, Id>) {
    && (forall x, y :: x in r && y in r && r[x] == r[y] ==> x == y)
    && (forall x :: x in r ==> r[x] !in r)
  }

  /** Neither renaming touches what the other touches. */
  ghost predicate Apart(r: map<Id, Id>, q: map<Id, Id>) {
    forall x, y :: x in r && y in q ==> x != y && x != q[y] && r[x] != y && r[x] != q[y]
  }

  lemma GoodUnion(r: map<Id, Id>, q: map<Id, Id>)
    requires Good(r) && Good(q) && Apart(r, q)
    ensures Good(r + q)
  {
  }

  // ----- References -----

  function KeysAfter<K>(keys: map<K, Id>, r: map<Id, Id>): map<K, Id> { map k | k in keys :: App(r, keys[k]) }

  lemma KeysTwice<K>(keys: map<K, Id>, r: map<Id, Id>, q: map<Id, Id>)
    requires Apart(r, q)
    ensures KeysAfter(KeysAfter(keys, r), q) == KeysAfter(keys, r + q)
  {
  }

  // ----- Children -----

  ghost predicate HasChild(rows: map<Id, Row>, p: Id, n: nat) {
    exists x :: x in rows && rows[x] == Row(p, n)
  }

  ghost function Child(rows: map<Id, Row>, p: Id, n: nat): (x: Id)
    requires HasChild(rows, p, n)
    ensures x in rows && rows[x] == Row(p, n)
  {
    var x :| x in rows && rows[x] == Row(p, n);
    x
  }

  /** Children of losers that meet a child of the winner at the same number. */
  ghost function PairsUnder(rows: map<Id, Row>, up: map<Id, Id>): map<Id, Id> {
    map x | x in rows && rows[x].parent in up && HasChild(rows, up[rows[x].parent], rows[x].number)
      :: Child(rows, up[rows[x].parent], rows[x].number)
  }

  /** Identified rows are gone; the other children of losers belong to the winners. */
  function RowsAfter(rows: map<Id, Row>, gone: map<Id, Id>, up: map<Id, Id>): map<Id, Row> {
    map x | x in rows && x !in gone :: Row(App(up, rows[x].parent), rows[x].number)
  }

  lemma PairsUnderAt(rows: map<Id, Row>, up: map<Id, Id>, x: Id)
    ensures x in PairsUnder(rows, up)
       <==> x in rows && rows[x].parent in up && HasChild(rows, up[rows[x].parent], rows[x].number)
    ensures x in PairsUnder(rows, up) ==> PairsUnder(rows, up)[x] == Child(rows, up[rows[x].parent], rows[x].number)
  {
  }

  /** Identifying parents gives a good identification of their children. */
  lemma PairsAreGood(rows: map<Id, Row>, up: map<Id, Id>)
    requires UniqueRows(rows) && Good(up)
    ensures Good(PairsUnder(rows, up))
    ensures forall x :: x in PairsUnder(rows, up) ==>
              PairsUnder(rows, up)[x] in rows && rows[PairsUnder(rows, up)[x]] == Row(up[rows[x].parent], rows[x].number)
  {
  }

  lemma PairsUnion(rows: map<Id, Row>, r: map<Id, Id>, q: map<Id, Id>)
    requires Apart(r, q)
    ensures PairsUnder(rows, r + q) == PairsUnder(rows, r) + PairsUnder(rows, q)
  {
    hide *;
    var both, sum := PairsUnder(rows, r + q), PairsUnder(rows, r) + PairsUnder(rows, q);
    forall x ensures Agree(both, sum, x) {
      PairUnionAt(rows, r, q, x);
    }
    MapsEqual(both, sum);
  }

  lemma PairUnionAt(rows: map<Id, Row>, r: map<Id, Id>, q: map<Id, Id>, x: Id)
    requires Apart(r, q)
    ensures Agree(PairsUnder(rows, r + q), PairsUnder(rows, r) + PairsUnder(rows, q), x)
  {
    PairsUnderAt(rows, r + q, x);
    PairsUnderAt(rows, r, x);
    PairsUnderAt(rows, q, x);
    hide PairsUnder, HasChild, Child;
  }

  ghost predicate Agree(a: map<Id, Id>, b: map<Id, Id>, x: Id) { (x in a <==> x in b) && (x in a ==> a[x] == b[x]) }

  lemma MapsEqual(a: map<Id, Id>, b: map<Id, Id>)
    requires forall x :: Agree(a, b, x)
    ensures a == b
  {
    forall x ensures (x in a <==> x in b) && (x in a ==> a[x] == b[x]) {
      assert Agree(a, b, x);
    }
  }

  /** Apart parents have apart children. */
  lemma PairsApart(rows: map<Id, Row>, r: map<Id, Id>, q: map<Id, Id>)
    requires UniqueRows(rows) && Good(r) && Good(q) && Apart(r, q)
    ensures Apart(PairsUnder(rows, r), PairsUnder(rows, q))
  {
    PairsAreGood(rows, r);
    PairsAreGood(rows, q);
  }

  /** A child of a loser that meets a child of its winner is identified with it. */
  lemma MeetsChild(rows: map<Id, Row>, up: map<Id, Id>, x: Id, y: Id)
    requires x in rows && y in rows && rows[x].parent in up && rows[y] == Row(up[rows[x].parent], rows[x].number)
    ensures x in PairsUnder(rows, up)
  {
    assert HasChild(rows, up[rows[x].parent], rows[x].number);
  }

  /** Coordinates stay unique. */
  lemma RowsAfterUnique(rows: map<Id, Row>, up: map<Id, Id>)
    requires UniqueRows(rows) && Good(up)
    ensures UniqueRows(RowsAfter(rows, PairsUnder(rows, up), up))
  {
    var pairs := PairsUnder(rows, up);
    var after := RowsAfter(rows, pairs, up);
    forall x, y | x in after && y in after && after[x] == after[y] ensures rows[x] == rows[y] {
      var px, py := rows[x].parent, rows[y].parent;
      if px in up && py !in up {
        MeetsChild(rows, up, x, y);
      } else if py in up && px !in up {
        MeetsChild(rows, up, y, x);
      }
    }
  }

  /** The coordinates under a parent afterwards are those it had and those of the loser identified with it. */
  lemma CoordinatesAreUnion(rows: map<Id, Row>, up: map<Id, Id>, p: Id, n: nat)
    requires UniqueRows(rows) && Good(up) && p !in up
    ensures HasChild(RowsAfter(rows, PairsUnder(rows, up), up), p, n)
       <==> HasChild(rows, p, n) || exists l :: l in up && up[l] == p && HasChild(rows, l, n)
  {
    var pairs := PairsUnder(rows, up);
    var after := RowsAfter(rows, pairs, up);
    PairsAreGood(rows, up);
    if HasChild(after, p, n) {
      var x :| x in after && after[x] == Row(p, n);
      assert rows[x] == Row(rows[x].parent, n);
    }
    if HasChild(rows, p, n) {
      var x := Child(rows, p, n);
      assert x !in pairs;
      assert after[x] == Row(p, n);
    } else if exists l :: l in up && up[l] == p && HasChild(rows, l, n) {
      var l :| l in up && up[l] == p && HasChild(rows, l, n);
      var x := Child(rows, l, n);
      assert x !in pairs;
      assert after[x] == Row(p, n);
    }
  }

  // ----- Doing one child at a time -----

  ghost function Only(r: map<Id, Id>, done: set<Id>): map<Id, Id> { map x | x in r && x in done :: r[x] }

  /** Some children handled: matched ones gone, the others moved under w. */
  ghost function PartRows(rows: map<Id, Row>, gone: map<Id, Id>, done: set<Id>, w: Id): map<Id, Row> {
    map x | x in rows && x !in gone :: if x in done then Row(w, rows[x].number) else rows[x]
  }

  ghost function Children(rows: map<Id, Row>, p: Id): set<Id> { set x | x in rows && rows[x].parent == p }

  lemma OnlyAll(r: map<Id, Id>, done: set<Id>)
    requires forall x :: x in r ==> x in done
    ensures Only(r, done) == r
  {
    assert Only(r, done).Keys == r.Keys;
  }

  lemma PartIsAll(rows: map<Id, Row>, gone: map<Id, Id>, done: set<Id>, w: Id, l: Id)
    requires forall x :: x in rows ==> (x in done <==> rows[x].parent == l)
    ensures PartRows(rows, gone, done, w) == RowsAfter(rows, gone, map[l := w])
  {
    var a, b := PartRows(rows, gone, done, w), RowsAfter(rows, gone, map[l := w]);
    assert a.Keys == b.Keys;
    forall x | x in a ensures a[x] == b[x] {
    }
  }

  lemma PairsAreChildren(rows: map<Id, Row>, w: Id, l: Id)
    ensures forall x :: x in PairsUnder(rows, map[l := w]) ==> x in Children(rows, l)
    ensures forall x :: x in rows ==> (x in Children(rows, l) <==> rows[x].parent == l)
  {
  }

  lemma AllChildrenDone(rows: map<Id, Row>, w: Id, l: Id)
    ensures var up := map[l := w]; var pairs := PairsUnder(rows, up);
            && Only(pairs, Children(rows, l)) == pairs
            && PartRows(rows, pairs, Children(rows, l), w) == RowsAfter(rows, pairs, up)
  {
    hide *;
    PairsAreChildren(rows, w, l);
    OnlyAll(PairsUnder(rows, map[l := w]), Children(rows, l));
    PartIsAll(rows, PairsUnder(rows, map[l := w]), Children(rows, l), w, l);
  }

  /** While children of l are handled one by one, the next is as it was, and so is its match. */
  lemma NextIsUntouched(rows: map<Id, Row>, w: Id, l: Id, done: set<Id>, c: Id)
    requires UniqueRows(rows) && w != l && done <= Children(rows, l) && c in Children(rows, l) && c !in done
    ensures var pairs := PairsUnder(rows, map[l := w]); var part := PartRows(rows, Only(pairs, done), done, w);
            && c in part && part[c] == rows[c]
            && (c in pairs ==> pairs[c] in part && part[pairs[c]] == Row(w, rows[c].number))
  {
    PairsAreGood(rows, map[l := w]);
  }

  /** A row found for the next child among those handled so far is its original match. */
  lemma NextMatchIsOriginal(rows: map<Id, Row>, w: Id, l: Id, done: set<Id>, c: Id, x: Id)
    requires UniqueRows(rows) && w != l && done <= Children(rows, l) && c in Children(rows, l) && c !in done
    requires var part := PartRows(rows, Only(PairsUnder(rows, map[l := w]), done), done, w);
             x in part && part[x] == Row(w, rows[c].number)
    ensures c in PairsUnder(rows, map[l := w]) && x == PairsUnder(rows, map[l := w])[c]
  {
    if x in done {
      NumbersDiffer(rows, x, c);
    } else {
      MeetsChild(rows, map[l := w], c, x);
      PairsAreGood(rows, map[l := w]);
    }
  }

  lemma NumbersDiffer(rows: map<Id, Row>, x: Id, y: Id)
    requires UniqueRows(rows) && x in rows && y in rows && x != y && rows[x].parent == rows[y].parent
    ensures rows[x].number != rows[y].number
  {
  }

  lemma OnlyMore(pairs: map<Id, Id>, done: set<Id>, c: Id)
    ensures c in pairs ==> Only(pairs, done + {c}) == Only(pairs, done) + map[c := pairs[c]]
    ensures c !in pairs ==> Only(pairs, done + {c}) == Only(pairs, done)
  {
  }

  /** What one child adds is apart from what was done before. */
  lemma OnlyApart(pairs: map<Id, Id>, done: set<Id>, c: Id)
    requires Good(pairs) && c in pairs && c !in done
    ensures Good(Only(pairs, done)) && Good(map[c := pairs[c]]) && Apart(Only(pairs, done), map[c := pairs[c]])
  {
  }

  /** Coordinates are unique at every moment in between. */
  lemma PartRowsUnique(rows: map<Id, Row>, w: Id, l: Id, done: set<Id>)
    requires UniqueRows(rows) && w != l && done <= Children(rows, l)
    ensures UniqueRows(PartRows(rows, Only(PairsUnder(rows, map[l := w]), done), done, w))
  {
    var up: map<Id, Id> := map[l := w];
    var part := PartRows(rows, Only(PairsUnder(rows, up), done), done, w);
    forall x, y | x in part && y in part && part[x] == part[y] ensures rows[x] == rows[y] {
      if x in done && y !in done {
        MeetsChild(rows, up, x, y);
      } else if y in done && x !in done {
        MeetsChild(rows, up, y, x);
      }
    }
  }

  /** References and rows after two apart steps are those after both together. */
  lemma RowsTwice(rows: map<Id, Row>, gone: map<Id, Id>, up: map<Id, Id>, more: map<Id, Id>, q: map<Id, Id>)
    requires Apart(up, q)
    ensures RowsAfter(RowsAfter(rows, gone, up), more, q) == RowsAfter(rows, gone + more, up + q)
  {
  }

  /** Pairs under parents that an earlier step did not touch are as before it. */
  lemma PairsUntouched(rows: map<Id, Row>, up: map<Id, Id>, q: map<Id, Id>)
    requires UniqueRows(rows) && Good(up) && Apart(up, q)
    ensures PairsUnder(RowsAfter(rows, PairsUnder(rows, up), up), q) == PairsUnder(rows, q)
  {
    hide *;
    var before := PairsUnder(rows, q);
    var after := PairsUnder(RowsAfter(rows, PairsUnder(rows, up), up), q);
    forall x ensures Agree(after, before, x) {
      PairUntouched(rows, up, q, x);
    }
    MapsEqual(after, before);
  }

  lemma PairUntouched(rows: map<Id, Row>, up: map<Id, Id>, q: map<Id, Id>, x: Id)
    requires UniqueRows(rows) && Good(up) && Apart(up, q)
    ensures Agree(PairsUnder(RowsAfter(rows, PairsUnder(rows, up), up), q), PairsUnder(rows, q), x)
  {
    var pairs := PairsUnder(rows, up);
    var after := RowsAfter(rows, pairs, up);
    PairsUnderAt(rows, q, x);
    PairsUnderAt(after, q, x);
    PairsUnderAt(rows, up, x);
    if x in rows && rows[x].parent in q {
      ChildUntouched(rows, up, q, q[rows[x].parent], rows[x].number);
    } else if x in after {
      RowUntouched(rows, up, q, x);
    }
  }

  /** No row moves under a parent of the other renaming. */
  lemma RowUntouched(rows: map<Id, Row>, up: map<Id, Id>, q: map<Id, Id>, x: Id)
    requires Apart(up, q) && x in rows && rows[x].parent !in q
    ensures App(up, rows[x].parent) !in q
  {
  }

  lemma ChildUntouched(rows: map<Id, Row>, up: map<Id, Id>, q: map<Id, Id>, p: Id, n: nat)
    requires UniqueRows(rows) && Good(up) && Apart(up, q) && (p in q || exists y :: y in q && q[y] == p)
    ensures var after := RowsAfter(rows, PairsUnder(rows, up), up);
            && (HasChild(after, p, n) <==> HasChild(rows, p, n))
            && (HasChild(rows, p, n) ==> Child(after, p, n) == Child(rows, p, n))
  {
    var after := RowsAfter(rows, PairsUnder(rows, up), up);
    PairsAreGood(rows, up);
    if HasChild(rows, p, n) {
      assert after[Child(rows, p, n)] == Row(p, n);
    }
    if HasChild(after, p, n) {
      assert rows[Child(after, p, n)] == Row(p, n);
    }
  }
}
