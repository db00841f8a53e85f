/** Filtering and counting over sequences, shared by the caches and tables. */
module Lists {

  /** The elements that satisfy p, in order: what `retain` leaves. */
  function Filter<T>(s: seq<T>, p: T -> bool): (r: seq<T>)
    ensures |r| <= |s|
  {
    if s == [] then [] else if p(s[0]) then [s[0]] + Filter(s[1..], p) else Filter(s[1..], p)
  }

  /** How many elements satisfy p. */
  function Count<T>(s: seq<T>, p: T -> bool): nat { |Filter(s, p)| }

  lemma {:induction false} FilterMember<T>(s: seq<T>, p: T -> bool, x: T)
    ensures x in Filter(s, p) <==> x in s && p(x)
  {
    if s != [] {
      FilterMember(s[1..], p, x);
    }
  }

  lemma {:induction false} FilterConcat<T>(a: seq<T>, b: seq<T>, p: T -> bool)
    ensures Filter(a + b, p) == Filter(a, p) + Filter(b, p)
  {
    if a == [] {
      assert a + b == b;
    } else {
      assert (a + b)[1..] == a[1..] + b;
      FilterConcat(a[1..], b, p);
    }
  }

  lemma FilterOne<T>(x: T, p: T -> bool)
    ensures Filter([x], p) == if p(x) then [x] else []
  {
    assert [x][1..] == [];
  }

  lemma FilterAppend<T>(s: seq<T>, x: T, p: T -> bool)
    ensures Filter(s + [x], p) == Filter(s, p) + if p(x) then [x] else []
  {
    FilterConcat(s, [x], p);
    FilterOne(x, p);
  }

  lemma FilterSplit<T>(s: seq<T>, i: nat, p: T -> bool)
    requires i < |s|
    ensures Filter(s, p) == Filter(s[..i], p) + Filter(s[i..], p)
    ensures Filter(s[i..], p) == if p(s[i]) then [s[i]] + Filter(s[i + 1..], p) else Filter(s[i + 1..], p)
  {
    assert s == s[..i] + s[i..];
    FilterConcat(s[..i], s[i..], p);
    assert s[i..][1..] == s[i + 1..];
  }

  lemma {:induction false} FilterAll<T>(s: seq<T>, p: T -> bool)
    requires forall i :: 0 <= i < |s| ==> p(s[i])
    ensures Filter(s, p) == s
  {
    if s != [] {
      FilterAll(s[1..], p);
    }
  }

  lemma {:induction false} FilterNone<T>(s: seq<T>, p: T -> bool)
    requires forall i :: 0 <= i < |s| ==> !p(s[i])
    ensures Filter(s, p) == []
  {
    if s != [] {
      FilterNone(s[1..], p);
    }
  }

  /** Filters commute: filtering twice keeps what satisfies both. */
  lemma {:induction false} FilterTwice<T>(s: seq<T>, p: T -> bool, q: T -> bool)
    ensures Filter(Filter(s, p), q) == Filter(Filter(s, q), p)
    ensures |Filter(Filter(s, p), q)| <= |Filter(s, q)|
  {
    if s != [] {
      FilterTwice(s[1..], p, q);
    }
  }

  /** The first element that satisfies p, or the length. */
  function First<T>(s: seq<T>, p: T -> bool): (i: nat)
    ensures i <= |s| && (forall k :: 0 <= k < i ==> !p(s[k])) && (i < |s| ==> p(s[i]))
  {
    if s == [] || p(s[0]) then 0 else 1 + First(s[1..], p)
  }

  function Remove<T>(s: seq<T>, i: nat): seq<T>
    requires i < |s|
  {
    s[..i] + s[i + 1..]
  }

  lemma RemoveMember<T>(s: seq<T>, i: nat, x: T)
    requires i < |s|
    ensures x in Remove(s, i) ==> x in s
    ensures x in s && x != s[i] ==> x in Remove(s, i)
  {
    if x in s && x != s[i] {
      var k :| 0 <= k < |s| && s[k] == x;
      assert Remove(s, i)[if k < i then k else k - 1] == x;
    }
  }

  lemma FilterRemove<T>(s: seq<T>, i: nat, p: T -> bool)
    requires i < |s|
    ensures Filter(Remove(s, i), p) == Filter(s[..i], p) + Filter(s[i + 1..], p)
    ensures Count(s, p) == Count(Remove(s, i), p) + if p(s[i]) then 1 else 0
    ensures !p(s[i]) ==> Filter(Remove(s, i), p) == Filter(s, p)
  {
    FilterSplit(s, i, p);
    FilterConcat(s[..i], s[i + 1..], p);
  }

  /** Removing the first match leaves the matches but the oldest. */
  lemma FilterRemoveFirst<T>(s: seq<T>, p: T -> bool)
    requires First(s, p) < |s|
    ensures var i := First(s, p);
            && Filter(s, p) != [] && Filter(s, p)[0] == s[i]
            && Filter(Remove(s, i), p) == Filter(s, p)[1..]
  {
    var i := First(s, p);
    var rest := Filter(s[i + 1..], p);
    FilterSplit(s, i, p);
    FilterNone(s[..i], p);
    FilterRemove(s, i, p);
    assert Filter(s, p) == [s[i]] + rest;
    assert Filter(Remove(s, i), p) == rest;
  }

  lemma {:induction false} CountZero<T>(s: seq<T>, p: T -> bool)
    ensures Count(s, p) == 0 <==> forall i :: 0 <= i < |s| ==> !p(s[i])
  {
    if s != [] {
      CountZero(s[1..], p);
      assert forall i :: 1 <= i < |s| ==> s[i] == s[1..][i - 1];
    }
  }
}
