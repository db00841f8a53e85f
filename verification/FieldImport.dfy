/**
 Importing the observed fields of one title, season or episode. Dates and years that belong together
 are settled and written first, then every field is written under its own acceptance test. With each
 field named once, the result is what independent writes would retain, and the rule that dates agree
 with years is never violated on the way.
 */
module FieldImport {
  import opened Util
  import opened ProviderPriority
  import opened FieldPolicy
  import opened FieldMerge
  import opened EntityInfo

  /** An observed value after its text was validated: nothing to record, unacceptable, or a value. */
  datatype Given = Blank | Malformed | Usable(value: Value)

  type FieldList = seq<(string, Given)>

  const YEARS: set<string> := {"release_year", "first_air_year", "last_air_year", "air_year"}

  const NUMBERS: set<string> := YEARS + {"season_count", "episode_count", "runtime_minutes"}

  // ----- One field -----

  /** The column exists, the value has its type, and a number is in its range. */
  predicate Proper(sort: Sort, name: string, given: Given) {
    && name in Fields(LevelOf(sort))
    && match given
       case Blank => name !in NUMBERS
       case Malformed => false
       case Usable(Text(_)) => name !in NUMBERS
       case Usable(Integer(n)) => name in NUMBERS && n >= 0 && (name == "runtime_minutes" ==> n > 0)
  }

  predicate YearInRange(name: string, value: Value) { name in YEARS && value.Integer? ==> 1 <= value.number <= 9999 }

  predicate Takes(c: Columns, name: string, given: Given, origin: Origin, order: seq<ProviderId>) {
    given.Usable? && Accepts(Get(c.origins, name), origin, order)
  }

  /** The table refuses a row whose date and year disagree, whose year is out of range, or that has a column of the other kind. */
  function WriteField(sort: Sort, c: Columns, name: string, given: Given, origin: Origin, order: seq<ProviderId>)
    : Result<Columns, CatalogError>
  {
    if !Proper(sort, name, given) then Err(InvalidMetadata)
    else if !Takes(c, name, given, origin, order) then Ok(c)
    else
      var d := Columns(c.values[name := given.value], c.origins[name := origin]);
      if YearInRange(name, given.value) && name !in Barred(sort) && PairsAgree(d.values, DatePairs(LevelOf(sort))) then Ok(d)
      else Err(Database)
  }

  function WriteEach(sort: Sort, c: Columns, fields: FieldList, origin: Origin,
                     order: seq<ProviderId>): Result<Columns, CatalogError>
    decreases |fields|
  {
    if fields == [] then Ok(c)
    else
      match WriteField(sort, c, fields[0].0, fields[0].1, origin, order)
      case Err(e) => Err(e)
      case Ok(d) => WriteEach(sort, d, fields[1..], origin, order)
  }

  // ----- Dates with their years -----

  function First(fields: FieldList, name: string): Option<Given>
    decreases |fields|
  {
    if fields == [] then None else if fields[0].0 == name then Some(fields[0].1) else First(fields[1..], name)
  }

  /** The value a column of a pair is about to have. */
  function Settled(c: Columns, fields: FieldList, name: string, origin: Origin,
                   order: seq<ProviderId>): Result<Option<Value>, CatalogError> {
    var given := First(fields, name);
    if given.None? || !Accepts(Get(c.origins, name), origin, order) then Ok(Get(c.values, name))
    else
      match given.value
      case Malformed => Err(InvalidMetadata)
      case Blank => if name in YEARS then Err(InvalidMetadata) else Ok(Get(c.values, name))
      case Usable(v) =>
        if (v.Integer? <==> name in YEARS) && YearInRange(name, v) then Ok(Some(v)) else Err(InvalidMetadata)
  }

  function Put(values: map<string, Value>, name: string, v: Option<Value>): map<string, Value> {
    if v.Some? then values[name := v.value] else values
  }

  /** The table has no such column for the kind. */
  predicate BarsPair(sort: Sort, values: map<string, Value>, pair: (string, string)) {
    (pair.0 in values && pair.0 in Barred(sort)) || (pair.1 in values && pair.1 in Barred(sort))
  }

  /** A pair that would disagree is rejected; otherwise both columns are written at once. */
  function SettlePair(sort: Sort, c: Columns, fields: FieldList, pair: (string, string), origin: Origin,
                      order: seq<ProviderId>): Result<Columns, CatalogError> {
    if First(fields, pair.0).None? && First(fields, pair.1).None? then Ok(c)
    else
      match (Settled(c, fields, pair.0, origin, order), Settled(c, fields, pair.1, origin, order))
      case (Err(e), _) => Err(e)
      case (_, Err(e)) => Err(e)
      case (Ok(date), Ok(year)) =>
        var values := Put(Put(c.values, pair.0, date), pair.1, year);
        if !PairAgrees(values, pair) then Err(InvalidMetadata)
        else if BarsPair(sort, values, pair) then Err(Database) else Ok(c.(values := values))
  }

  function SettlePairs(sort: Sort, c: Columns, fields: FieldList, pairs: seq<(string, string)>, origin: Origin,
                       order: seq<ProviderId>): Result<Columns, CatalogError>
    decreases |pairs|
  {
    if pairs == [] then Ok(c)
    else
      match SettlePair(sort, c, fields, pairs[0], origin, order)
      case Err(e) => Err(e)
      case Ok(d) => SettlePairs(sort, d, fields, pairs[1..], origin, order)
  }

  /** Episodes have no years, so nothing to settle. */
  function ImportFields(sort: Sort, c: Columns, fields: FieldList, origin: Origin,
                        order: seq<ProviderId>): Result<Columns, CatalogError> {
    match SettlePairs(sort, c, fields, DatePairs(LevelOf(sort)), origin, order)
    case Err(e) => Err(e)
    case Ok(d) => WriteEach(sort, d, fields, origin, order)
  }

  // ----- Whatever is imported, values keep their provenance and dates agree -----

  /** Values written ahead of their provenance are still to come among the fields. */
  ghost predicate Promised(c: Columns, fields: FieldList) {
    && (forall name :: name in c.origins ==> name in c.values)
    && (forall name :: name in c.values && name !in c.origins ==> Pending(fields, name))
  }

  ghost predicate Pending(fields: FieldList, name: string) {
    exists k :: 0 <= k < |fields| && fields[k].0 == name && fields[k].1.Usable?
  }

  lemma {:induction false} FirstIsPending(fields: FieldList, name: string)
    ensures First(fields, name).Some? && First(fields, name).value.Usable? ==> Pending(fields, name)
    decreases |fields|
  {
    if fields != [] && fields[0].0 != name {
      FirstIsPending(fields[1..], name);
      if Pending(fields[1..], name) {
        var k :| 0 <= k < |fields[1..]| && fields[1..][k].0 == name && fields[1..][k].1.Usable?;
        assert fields[k + 1] == fields[1..][k];
      }
    }
  }

  /** The columns of all pairs are different. */
  predicate Separate(pairs: seq<(string, string)>) {
    && (forall i :: 0 <= i < |pairs| ==> pairs[i].0 != pairs[i].1)
    && (forall i, j :: 0 <= i < |pairs| && 0 <= j < |pairs| && i != j ==>
          pairs[i].0 != pairs[j].0 && pairs[i].1 != pairs[j].1 && pairs[i].0 != pairs[j].1)
  }

  lemma LevelsSeparate(level: Level)
    ensures Separate(DatePairs(level))
    ensures forall i :: 0 <= i < |DatePairs(level)| ==> DatePairs(level)[i].0 !in NUMBERS && DatePairs(level)[i].1 in YEARS
  {
  }

  lemma SettlePairKeeps(sort: Sort, c: Columns, fields: FieldList, pair: (string, string), origin: Origin, order: seq<ProviderId>)
    requires Promised(c, fields) && SettlePair(sort, c, fields, pair, origin, order).Ok?
    ensures var d := SettlePair(sort, c, fields, pair, origin, order).value;
            && Promised(d, fields) && d.origins == c.origins
            && forall name :: name != pair.0 && name != pair.1 ==> Get(d.values, name) == Get(c.values, name)
    ensures PairAgrees(c.values, pair) ==> PairAgrees(SettlePair(sort, c, fields, pair, origin, order).value.values, pair)
  {
    FirstIsPending(fields, pair.0);
    FirstIsPending(fields, pair.1);
    hide Pending, First;
  }

  lemma {:induction false} SettlePairsKeep(sort: Sort, c: Columns, fields: FieldList, pairs: seq<(string, string)>, k: nat,
                            origin: Origin, order: seq<ProviderId>)
    requires Separate(pairs) && k <= |pairs| && Promised(c, fields) && PairsAgree(c.values, pairs)
    requires SettlePairs(sort, c, fields, pairs[k..], origin, order).Ok?
    ensures var d := SettlePairs(sort, c, fields, pairs[k..], origin, order).value; Promised(d, fields) && PairsAgree(d.values, pairs)
    decreases |pairs| - k
  {
    hide Promised, Pending, First, SettlePair;
    if k < |pairs| {
      SettlePairKeeps(sort, c, fields, pairs[k], origin, order);
      var d := SettlePair(sort, c, fields, pairs[k], origin, order).value;
      forall i | 0 <= i < |pairs| ensures PairAgrees(d.values, pairs[i]) {
        assert PairAgrees(c.values, pairs[i]);
      }
      assert pairs[k..][1..] == pairs[k + 1..];
      SettlePairsKeep(sort, d, fields, pairs, k + 1, origin, order);
    }
  }

  lemma WriteFieldKeeps(sort: Sort, c: Columns, fields: FieldList, origin: Origin, order: seq<ProviderId>)
    requires fields != [] && Promised(c, fields) && WriteField(sort, c, fields[0].0, fields[0].1, origin, order).Ok?
    requires PairsAgree(c.values, DatePairs(LevelOf(sort)))
    ensures var d := WriteField(sort, c, fields[0].0, fields[0].1, origin, order).value;
            Promised(d, fields[1..]) && PairsAgree(d.values, DatePairs(LevelOf(sort)))
  {
    var name := fields[0].0;
    var d := WriteField(sort, c, name, fields[0].1, origin, order).value;
    hide Proper, PairsAgree, Accepts;
    assert name !in c.origins ==> Accepts(Get(c.origins, name), origin, order) by { AcceptsFirst(origin, order); }
    forall other | other in d.values && other !in d.origins ensures Pending(fields[1..], other) {
      assert other in c.values && other !in c.origins;
      var k :| 0 <= k < |fields| && fields[k].0 == other && fields[k].1.Usable?;
      assert k > 0;
      assert fields[1..][k - 1] == fields[k];
    }
  }

  lemma AcceptsFirst(origin: Origin, order: seq<ProviderId>)
    ensures Accepts(None, origin, order)
  {
  }

  lemma {:induction false} WriteEachKeeps(sort: Sort, c: Columns, fields: FieldList, origin: Origin,
                            order: seq<ProviderId>)
    requires Promised(c, fields) && PairsAgree(c.values, DatePairs(LevelOf(sort))) && WriteEach(sort, c, fields, origin, order).Ok?
    ensures var d := WriteEach(sort, c, fields, origin, order).value; Sourced(d) && PairsAgree(d.values, DatePairs(LevelOf(sort)))
    decreases |fields|
  {
    hide PairsAgree, WriteField;
    if fields == [] {
      assert c.values.Keys == c.origins.Keys;
    } else {
      hide Promised;
      WriteFieldKeeps(sort, c, fields, origin, order);
      WriteEachKeeps(sort, WriteField(sort, c, fields[0].0, fields[0].1, origin, order).value, fields[1..], origin, order);
    }
  }

  lemma SettlePairOwn(sort: Sort, c: Columns, fields: FieldList, pair: (string, string), origin: Origin, order: seq<ProviderId>)
    requires c.values.Keys !! Barred(sort) && SettlePair(sort, c, fields, pair, origin, order).Ok?
    ensures SettlePair(sort, c, fields, pair, origin, order).value.values.Keys !! Barred(sort)
  {
    hide Settled, First, Barred, PairAgrees;
  }

  lemma {:induction false} SettlePairsOwn(sort: Sort, c: Columns, fields: FieldList, pairs: seq<(string, string)>,
                                          origin: Origin, order: seq<ProviderId>)
    requires c.values.Keys !! Barred(sort) && SettlePairs(sort, c, fields, pairs, origin, order).Ok?
    ensures SettlePairs(sort, c, fields, pairs, origin, order).value.values.Keys !! Barred(sort)
    decreases |pairs|
  {
    hide SettlePair, Barred;
    if pairs != [] {
      SettlePairOwn(sort, c, fields, pairs[0], origin, order);
      SettlePairsOwn(sort, SettlePair(sort, c, fields, pairs[0], origin, order).value, fields, pairs[1..], origin, order);
    }
  }

  lemma WriteFieldOwn(sort: Sort, c: Columns, name: string, given: Given, origin: Origin, order: seq<ProviderId>)
    requires c.values.Keys !! Barred(sort) && WriteField(sort, c, name, given, origin, order).Ok?
    ensures WriteField(sort, c, name, given, origin, order).value.values.Keys !! Barred(sort)
  {
    hide Proper, Accepts, PairsAgree, Barred;
  }

  lemma {:induction false} WriteEachOwn(sort: Sort, c: Columns, fields: FieldList, origin: Origin, order: seq<ProviderId>)
    requires c.values.Keys !! Barred(sort) && WriteEach(sort, c, fields, origin, order).Ok?
    ensures WriteEach(sort, c, fields, origin, order).value.values.Keys !! Barred(sort)
    decreases |fields|
  {
    hide WriteField, Barred;
    if fields != [] {
      WriteFieldOwn(sort, c, fields[0].0, fields[0].1, origin, order);
      WriteEachOwn(sort, WriteField(sort, c, fields[0].0, fields[0].1, origin, order).value, fields[1..], origin, order);
    }
  }

  /** No accepted import gives a title a column of the other kind. */
  lemma ImportKeepsKind(sort: Sort, c: Columns, fields: FieldList, origin: Origin, order: seq<ProviderId>)
    requires c.values.Keys !! Barred(sort) && ImportFields(sort, c, fields, origin, order).Ok?
    ensures ImportFields(sort, c, fields, origin, order).value.values.Keys !! Barred(sort)
  {
    var pairs := DatePairs(LevelOf(sort));
    SettlePairsOwn(sort, c, fields, pairs, origin, order);
    WriteEachOwn(sort, SettlePairs(sort, c, fields, pairs, origin, order).value, fields, origin, order);
    hide SettlePairs, WriteEach, Barred;
  }

  /** Any accepted import, repeated names included, leaves every value with its provenance and dates that agree. */
  lemma ImportKeepsRules(sort: Sort, c: Columns, fields: FieldList, origin: Origin, order: seq<ProviderId>)
    requires Sourced(c) && PairsAgree(c.values, DatePairs(LevelOf(sort))) && ImportFields(sort, c, fields, origin, order).Ok?
    ensures var d := ImportFields(sort, c, fields, origin, order).value; Sourced(d) && PairsAgree(d.values, DatePairs(LevelOf(sort)))
  {
    var pairs := DatePairs(LevelOf(sort));
    assert Promised(c, fields) by {
      forall name ensures name in c.values <==> name in c.origins {
        assert name in c.values.Keys <==> name in c.origins.Keys;
      }
    }
    LevelsSeparate(LevelOf(sort));
    assert pairs[0..] == pairs;
    hide Promised, PairsAgree, SettlePairs, WriteEach, Sourced;
    SettlePairsKeep(sort, c, fields, pairs, 0, origin, order);
    WriteEachKeeps(sort, SettlePairs(sort, c, fields, pairs, origin, order).value, fields, origin, order);
  }

  // ----- With each field named once, fields are independent -----

  predicate NamedOnce(fields: FieldList) { forall i, j :: 0 <= i < j < |fields| ==> fields[i].0 != fields[j].0 }

  /** The values that are to be taken, all judged by what was retained before. */
  function Taken(c: Columns, fields: FieldList, origin: Origin, order: seq<ProviderId>): map<string, Value>
    decreases |fields|
  {
    if fields == [] then map[]
    else
      var last := |fields| - 1;
      var front := Taken(c, fields[..last], origin, order);
      if Takes(c, fields[last].0, fields[last].1, origin, order) then front[fields[last].0 := fields[last].1.value] else front
  }

  /** Every taken value with its new provenance, on top of what was there. */
  function Overlay(c: Columns, taken: map<string, Value>, origin: Origin): Columns {
    Columns(c.values + taken, c.origins + map name | name in taken :: origin)
  }

  /** Every field is proper, and a year that is taken is a calendar year. */
  predicate Acceptable(sort: Sort, c: Columns, fields: FieldList, origin: Origin, order: seq<ProviderId>) {
    forall i :: 0 <= i < |fields| ==>
      && Proper(sort, fields[i].0, fields[i].1)
      && (Takes(c, fields[i].0, fields[i].1, origin, order) ==> YearInRange(fields[i].0, fields[i].1.value))
  }

  /** No field that is taken is a column of the other kind of title. */
  predicate Admitted(sort: Sort, c: Columns, fields: FieldList, origin: Origin, order: seq<ProviderId>) {
    forall i :: 0 <= i < |fields| && Takes(c, fields[i].0, fields[i].1, origin, order) ==> fields[i].0 !in Barred(sort)
  }

  /** Nothing taken is barred exactly when every taken column is admitted. */
  lemma AdmittedIs(sort: Sort, c: Columns, fields: FieldList, origin: Origin, order: seq<ProviderId>)
    requires NamedOnce(fields)
    ensures Admitted(sort, c, fields, origin, order) <==> forall name :: name in Taken(c, fields, origin, order) ==> name !in Barred(sort)
  {
    var taken := Taken(c, fields, origin, order);
    if Admitted(sort, c, fields, origin, order) {
      forall name | name in taken ensures name !in Barred(sort) {
        var k := TakenFrom(c, fields, name, origin, order);
      }
    } else {
      var i :| 0 <= i < |fields| && Takes(c, fields[i].0, fields[i].1, origin, order) && fields[i].0 in Barred(sort);
      TakenAt(c, fields, i, origin, order);
    }
  }

  lemma {:induction false} TakenAt(c: Columns, fields: FieldList, k: nat, origin: Origin, order: seq<ProviderId>)
    requires NamedOnce(fields) && k < |fields|
    ensures var taken := Taken(c, fields, origin, order);
            && (fields[k].0 in taken <==> Takes(c, fields[k].0, fields[k].1, origin, order))
            && (fields[k].0 in taken ==> taken[fields[k].0] == fields[k].1.value)
    decreases |fields|
  {
    var last := |fields| - 1;
    var front := fields[..last];
    assert forall j :: 0 <= j < last ==> front[j] == fields[j];
    if k < last {
      TakenAt(c, front, k, origin, order);
    } else if fields[last].0 in Taken(c, front, origin, order) {
      var j := TakenFrom(c, front, fields[last].0, origin, order);
    }
  }

  lemma {:induction false} TakenFrom(c: Columns, fields: FieldList, name: string, origin: Origin,
                            order: seq<ProviderId>) returns (k: nat)
    requires name in Taken(c, fields, origin, order)
    ensures k < |fields| && fields[k].0 == name && Takes(c, name, fields[k].1, origin, order)
    decreases |fields|
  {
    var last := |fields| - 1;
    if fields[last].0 == name && Takes(c, name, fields[last].1, origin, order) {
      k := last;
    } else {
      k := TakenFrom(c, fields[..last], name, origin, order);
    }
  }

  lemma {:induction false} FirstIs(fields: FieldList, name: string)
    ensures First(fields, name).Some? ==> exists k :: 0 <= k < |fields| && fields[k] == (name, First(fields, name).value)
    ensures First(fields, name).None? ==> forall k :: 0 <= k < |fields| ==> fields[k].0 != name
    decreases |fields|
  {
    if fields != [] && fields[0].0 != name {
      FirstIs(fields[1..], name);
      if First(fields[1..], name).Some? {
        var k :| 0 <= k < |fields[1..]| && fields[1..][k] == (name, First(fields[1..], name).value);
        assert fields[k + 1] == fields[1..][k];
      } else {
        forall k | 0 <= k < |fields| ensures fields[k].0 != name {
          if k > 0 {
            assert fields[k] == fields[1..][k - 1];
          }
        }
      }
    }
  }

  predicate InRange(taken: map<string, Value>, name: string) { name in taken ==> YearInRange(name, taken[name]) }

  /** A column of a pair settles at its overlaid value, unless a field is unacceptable. */
  lemma SettlesAtOverlay(sort: Sort, c: Columns, fields: FieldList, name: string, origin: Origin, order: seq<ProviderId>)
    requires NamedOnce(fields) && (name in YEARS <==> name in NUMBERS)
    ensures var r := Settled(c, fields, name, origin, order);
            && (r.Ok? ==> r.value == Get(c.values + Taken(c, fields, origin, order), name))
            && (r.Ok? ==> InRange(Taken(c, fields, origin, order), name))
            && (r.Err? ==> r.error == InvalidMetadata && !Acceptable(sort, c, fields, origin, order))
  {
    FirstIs(fields, name);
    var taken := Taken(c, fields, origin, order);
    if First(fields, name).Some? {
      var k :| 0 <= k < |fields| && fields[k] == (name, First(fields, name).value);
      TakenAt(c, fields, k, origin, order);
    } else if name in taken {
      var k := TakenFrom(c, fields, name, origin, order);
    }
  }

  predicate InPairs(pairs: seq<(string, string)>, name: string) {
    exists i :: 0 <= i < |pairs| && (pairs[i].0 == name || pairs[i].1 == name)
  }

  /** The pairs before k are written ahead of their provenance; nothing else has changed. */
  ghost predicate Ahead(c: Columns, d: Columns, over: map<string, Value>, pairs: seq<(string, string)>) {
    && d.origins == c.origins
    && forall name :: Get(d.values, name) == if InPairs(pairs, name) then Get(over, name) else Get(c.values, name)
  }

  lemma SettledSame(c: Columns, d: Columns, fields: FieldList, name: string, origin: Origin, order: seq<ProviderId>)
    requires d.origins == c.origins && Get(d.values, name) == Get(c.values, name)
    ensures Settled(d, fields, name, origin, order) == Settled(c, fields, name, origin, order)
  {
  }

  lemma NotYetInPairs(pairs: seq<(string, string)>, k: nat, name: string)
    requires Separate(pairs) && k < |pairs|
    ensures !InPairs(pairs[..k], pairs[k].0) && !InPairs(pairs[..k], pairs[k].1)
    ensures InPairs(pairs[..k + 1], name) <==> InPairs(pairs[..k], name) || name == pairs[k].0 || name == pairs[k].1
  {
    assert pairs[..k + 1] == pairs[..k] + [pairs[k]];
    if name == pairs[k].0 || name == pairs[k].1 {
      assert pairs[..k + 1][k] == pairs[k];
    }
    if InPairs(pairs[..k], name) {
      var i :| 0 <= i < k && (pairs[..k][i].0 == name || pairs[..k][i].1 == name);
      assert pairs[..k + 1][i] == pairs[..k][i];
    }
  }

  lemma PutGet(values: map<string, Value>, name: string, v: Option<Value>, other: string)
    ensures Get(values, name).None? || v.Some? ==> Get(Put(values, name, v), other) == if other == name then v else Get(values, other)
  {
  }

  /** Settling one more pair puts its columns where the overlay has them, or shows why the import is refused. */
  lemma SettlesNext(sort: Sort, c: Columns, d: Columns, fields: FieldList, k: nat, origin: Origin, order: seq<ProviderId>)
    requires NamedOnce(fields) && k < |DatePairs(LevelOf(sort))|
    requires Ahead(c, d, c.values + Taken(c, fields, origin, order), DatePairs(LevelOf(sort))[..k])
    requires PairAgrees(c.values, DatePairs(LevelOf(sort))[k]) && c.values.Keys !! Barred(sort)
    ensures var over := c.values + Taken(c, fields, origin, order); var pair := DatePairs(LevelOf(sort))[k];
            var r := SettlePair(sort, d, fields, pair, origin, order);
            && (r.Ok? ==> Ahead(c, r.value, over, DatePairs(LevelOf(sort))[..k + 1]) && PairAgrees(over, pair))
            && (r.Ok? ==> InRange(Taken(c, fields, origin, order), pair.1))
            && (r.Err? && r.error == InvalidMetadata ==> !Acceptable(sort, c, fields, origin, order) || !PairAgrees(over, pair))
            && (r.Err? && r.error != InvalidMetadata ==> r.error == Database && !Admitted(sort, c, fields, origin, order))
  {
    var over := c.values + Taken(c, fields, origin, order);
    var pairs := DatePairs(LevelOf(sort));
    var pair := pairs[k];
    LevelsSeparate(LevelOf(sort));
    NotYetInPairs(pairs, k, pair.0);
    SettledSame(c, d, fields, pair.0, origin, order);
    SettledSame(c, d, fields, pair.1, origin, order);
    SettlesAtOverlay(sort, c, fields, pair.0, origin, order);
    SettlesAtOverlay(sort, c, fields, pair.1, origin, order);
    AdmittedIs(sort, c, fields, origin, order);
    hide Settled, Taken, Acceptable, Admitted, InPairs, Separate, YEARS, NUMBERS, DatePairs, Barred;
    if First(fields, pair.0).None? && First(fields, pair.1).None? {
      NotTaken(c, fields, pair.1, origin, order);
    }
    SettledAgree(sort, c, d, fields, pairs, k, over, origin, order);
  }

  lemma SettledAgree(sort: Sort, c: Columns, d: Columns, fields: FieldList, pairs: seq<(string, string)>, k: nat,
                     over: map<string, Value>, origin: Origin, order: seq<ProviderId>)
    requires Separate(pairs) && k < |pairs| && Ahead(c, d, over, pairs[..k])
    requires c.values.Keys <= over.Keys && PairAgrees(c.values, pairs[k])
    requires First(fields, pairs[k].0).None? ==> Settled(d, fields, pairs[k].0, origin, order) == Ok(Get(d.values, pairs[k].0))
    requires var r := Settled(d, fields, pairs[k].0, origin, order); r.Ok? ==> r.value == Get(over, pairs[k].0)
    requires var r := Settled(d, fields, pairs[k].1, origin, order); r.Ok? ==> r.value == Get(over, pairs[k].1)
    ensures var r := SettlePair(sort, d, fields, pairs[k], origin, order);
            && (r.Ok? ==> Ahead(c, r.value, over, pairs[..k + 1]) && PairAgrees(over, pairs[k]))
            && (r.Err? && Settled(d, fields, pairs[k].0, origin, order).Ok? && Settled(d, fields, pairs[k].1, origin, order).Ok?
                ==> if r.error == InvalidMetadata then !PairAgrees(over, pairs[k])
                    else r.error == Database && BarsPair(sort, over, pairs[k]))
  {
    var pair := pairs[k];
    var r := SettlePair(sort, d, fields, pair, origin, order);
    assert Get(d.values, pair.0) == Get(c.values, pair.0) by { NotYetInPairs(pairs, k, pair.0); }
    assert Get(d.values, pair.1) == Get(c.values, pair.1) by { NotYetInPairs(pairs, k, pair.0); }
    if r.Ok? {
      forall name
        ensures Get(r.value.values, name) == if InPairs(pairs[..k + 1], name) then Get(over, name) else Get(c.values, name)
      {
        NotYetInPairs(pairs, k, name);
      }
    }
  }

  lemma NotTaken(c: Columns, fields: FieldList, name: string, origin: Origin, order: seq<ProviderId>)
    requires First(fields, name).None?
    ensures name !in Taken(c, fields, origin, order)
  {
    FirstIs(fields, name);
    if name in Taken(c, fields, origin, order) {
      var k := TakenFrom(c, fields, name, origin, order);
    }
  }

  /** All pairs settle at the overlay, or the import is refused for a reason found in the overlay. */
  lemma {:induction false} SettlesAll(sort: Sort, c: Columns, d: Columns, fields: FieldList, k: nat,
                            origin: Origin, order: seq<ProviderId>)
    requires NamedOnce(fields) && k <= |DatePairs(LevelOf(sort))| && PairsAgree(c.values, DatePairs(LevelOf(sort)))
    requires c.values.Keys !! Barred(sort)
    requires Ahead(c, d, c.values + Taken(c, fields, origin, order), DatePairs(LevelOf(sort))[..k])
    ensures var over := c.values + Taken(c, fields, origin, order); var pairs := DatePairs(LevelOf(sort));
            var r := SettlePairs(sort, d, fields, pairs[k..], origin, order);
            && (r.Ok? ==> Ahead(c, r.value, over, pairs))
            && (r.Ok? ==> forall i :: k <= i < |pairs| ==> PairAgrees(over, pairs[i]) && InRange(Taken(c, fields, origin, order), pairs[i].1))
            && (r.Err? && r.error == InvalidMetadata ==> !Acceptable(sort, c, fields, origin, order) || !PairsAgree(over, pairs))
            && (r.Err? && r.error != InvalidMetadata ==> r.error == Database && !Admitted(sort, c, fields, origin, order))
    decreases |DatePairs(LevelOf(sort))| - k
  {
    var pairs := DatePairs(LevelOf(sort));
    hide Ahead, SettlePair, Taken, Acceptable, Admitted, PairAgrees, InRange, DatePairs, Barred;
    if k == |pairs| {
      assert pairs[..k] == pairs;
    } else {
      SettlesNext(sort, c, d, fields, k, origin, order);
      assert pairs[k..][1..] == pairs[k + 1..];
      var r := SettlePair(sort, d, fields, pairs[k], origin, order);
      if r.Ok? {
        SettlesAll(sort, c, r.value, fields, k + 1, origin, order);
      }
    }
  }

  // ----- Writing field after field -----

  /** The fields before i are written and the pairs are settled; nothing else has changed. */
  ghost predicate Written(c: Columns, d: Columns, done: map<string, Value>, over: map<string, Value>,
                          pairs: seq<(string, string)>, origin: Origin) {
    && d.origins == c.origins + (map name | name in done :: origin)
    && forall name ::
         Get(d.values, name) == if InPairs(pairs, name) || name in done then Get(over, name) else Get(c.values, name)
  }

  lemma PairsHaveOverlay(c: Columns, d: Columns, done: map<string, Value>, over: map<string, Value>,
                         pairs: seq<(string, string)>, origin: Origin)
    requires Written(c, d, done, over, pairs, origin) && PairsAgree(over, pairs)
    ensures PairsAgree(d.values, pairs)
  {
    forall i | 0 <= i < |pairs| ensures PairAgrees(d.values, pairs[i]) {
      assert InPairs(pairs, pairs[i].0) && InPairs(pairs, pairs[i].1);
      assert PairAgrees(over, pairs[i]);
    }
  }

  lemma YearIsInPairs(level: Level, name: string)
    requires name in Fields(level) && name in YEARS
    ensures exists i :: 0 <= i < |DatePairs(level)| && DatePairs(level)[i].1 == name
  {
    var pairs := DatePairs(level);
    match level {
      case TitleLevel =>
        assert pairs[0].1 == "release_year" && pairs[1].1 == "first_air_year" && pairs[2].1 == "last_air_year";
        assert "air_year" !in Fields(level);
      case SeasonLevel =>
        assert pairs[0].1 == "air_year";
        assert "release_year" !in Fields(level) && "first_air_year" !in Fields(level) && "last_air_year" !in Fields(level);
      case EpisodeLevel =>
    }
  }

  /** What has been taken does not touch a field named later. */
  lemma StillOpen(c: Columns, fields: FieldList, i: nat, origin: Origin, order: seq<ProviderId>)
    requires NamedOnce(fields) && i < |fields|
    ensures fields[i].0 !in Taken(c, fields[..i], origin, order)
    ensures var next := Taken(c, fields[..i + 1], origin, order);
            next == if Takes(c, fields[i].0, fields[i].1, origin, order)
                    then Taken(c, fields[..i], origin, order)[fields[i].0 := fields[i].1.value]
                    else Taken(c, fields[..i], origin, order)
  {
    assert fields[..i + 1][..i] == fields[..i];
    assert forall k :: 0 <= k < i ==> fields[..i][k] == fields[k];
    if fields[i].0 in Taken(c, fields[..i], origin, order) {
      var k := TakenFrom(c, fields[..i], fields[i].0, origin, order);
    }
  }

  /** The next write is refused only for what is wrong with its field, and otherwise takes what the overlay takes. */
  lemma WritesNext(sort: Sort, c: Columns, d: Columns, fields: FieldList, i: nat, origin: Origin, order: seq<ProviderId>)
    requires NamedOnce(fields) && i < |fields| && PairsAgree(c.values + Taken(c, fields, origin, order), DatePairs(LevelOf(sort)))
    requires forall k :: 0 <= k < |DatePairs(LevelOf(sort))| ==> InRange(Taken(c, fields, origin, order), DatePairs(LevelOf(sort))[k].1)
    requires var over := c.values + Taken(c, fields, origin, order);
             Written(c, d, Taken(c, fields[..i], origin, order), over, DatePairs(LevelOf(sort)), origin)
    ensures var r := WriteField(sort, d, fields[i].0, fields[i].1, origin, order);
            && (r.Ok? ==> Proper(sort, fields[i].0, fields[i].1)
                          && Written(c, r.value, Taken(c, fields[..i + 1], origin, order),
                                     c.values + Taken(c, fields, origin, order), DatePairs(LevelOf(sort)), origin))
            && (r.Ok? && Takes(c, fields[i].0, fields[i].1, origin, order) ==>
                  YearInRange(fields[i].0, fields[i].1.value) && fields[i].0 !in Barred(sort))
            && (r.Err? && r.error == InvalidMetadata ==> !Proper(sort, fields[i].0, fields[i].1))
            && (r.Err? && r.error != InvalidMetadata ==>
                  r.error == Database && Takes(c, fields[i].0, fields[i].1, origin, order) && fields[i].0 in Barred(sort))
  {
    var (name, given) := fields[i];
    var taken := Taken(c, fields, origin, order);
    var over := c.values + taken;
    var done := Taken(c, fields[..i], origin, order);
    StillOpen(c, fields, i, origin, order);
    TakenAt(c, fields, i, origin, order);
    if Proper(sort, name, given) && Takes(c, name, given, origin, order) {
      if name in YEARS {
        YearIsInPairs(LevelOf(sort), name);
      }
      var e := Columns(d.values[name := given.value], d.origins[name := origin]);
      WrittenMore(c, d, done, over, DatePairs(LevelOf(sort)), origin, name, given.value);
      PairsHaveOverlay(c, e, done[name := given.value], over, DatePairs(LevelOf(sort)), origin);
    }
    hide Taken, Proper, PairsAgree, Accepts, Fields, DatePairs, YEARS, NUMBERS, Barred;
  }

  lemma WrittenMore(c: Columns, d: Columns, done: map<string, Value>, over: map<string, Value>,
                    pairs: seq<(string, string)>, origin: Origin, name: string, v: Value)
    requires Written(c, d, done, over, pairs, origin) && Get(over, name) == Some(v)
    ensures Written(c, Columns(d.values[name := v], d.origins[name := origin]), done[name := v], over, pairs, origin)
  {
  }

  lemma {:induction false} WritesAll(sort: Sort, c: Columns, d: Columns, fields: FieldList, i: nat,
                            origin: Origin, order: seq<ProviderId>)
    requires NamedOnce(fields) && i <= |fields| && PairsAgree(c.values + Taken(c, fields, origin, order), DatePairs(LevelOf(sort)))
    requires forall k :: 0 <= k < |DatePairs(LevelOf(sort))| ==> InRange(Taken(c, fields, origin, order), DatePairs(LevelOf(sort))[k].1)
    requires var over := c.values + Taken(c, fields, origin, order);
             Written(c, d, Taken(c, fields[..i], origin, order), over, DatePairs(LevelOf(sort)), origin)
    requires Acceptable(sort, c, fields[..i], origin, order) && Admitted(sort, c, fields[..i], origin, order)
    ensures var r := WriteEach(sort, d, fields[i..], origin, order);
            && (r.Ok? <==> Acceptable(sort, c, fields, origin, order) && Admitted(sort, c, fields, origin, order))
            && (r.Err? && r.error == InvalidMetadata ==> !Acceptable(sort, c, fields, origin, order))
            && (r.Err? && r.error != InvalidMetadata ==> r.error == Database && !Admitted(sort, c, fields, origin, order))
            && (r.Ok? ==> Written(c, r.value, Taken(c, fields, origin, order), c.values + Taken(c, fields, origin, order),
                                  DatePairs(LevelOf(sort)), origin))
    decreases |fields| - i
  {
    hide Taken, Written, PairsAgree, InRange, Proper, Takes, DatePairs, WriteField, YEARS, Barred;
    if i == |fields| {
      assert fields[..i] == fields;
    } else {
      WritesNext(sort, c, d, fields, i, origin, order);
      var r := WriteField(sort, d, fields[i].0, fields[i].1, origin, order);
      assert fields[i..][0] == fields[i] && fields[i..][1..] == fields[i + 1..];
      if r.Ok? {
        assert fields[..i + 1] == fields[..i] + [fields[i]];
        AcceptableMore(sort, c, fields, i, origin, order);
        WritesAll(sort, c, r.value, fields, i + 1, origin, order);
      }
    }
  }

  lemma AcceptableMore(sort: Sort, c: Columns, fields: FieldList, i: nat, origin: Origin, order: seq<ProviderId>)
    requires i < |fields| && Acceptable(sort, c, fields[..i], origin, order) && Proper(sort, fields[i].0, fields[i].1)
    requires Takes(c, fields[i].0, fields[i].1, origin, order) ==> YearInRange(fields[i].0, fields[i].1.value)
    requires Admitted(sort, c, fields[..i], origin, order)
    requires Takes(c, fields[i].0, fields[i].1, origin, order) ==> fields[i].0 !in Barred(sort)
    ensures Acceptable(sort, c, fields[..i + 1], origin, order) && Admitted(sort, c, fields[..i + 1], origin, order)
  {
    hide Proper, Accepts, YearInRange, Barred;
    forall k | 0 <= k < i + 1
      ensures Proper(sort, fields[k].0, fields[k].1)
              && (Takes(c, fields[k].0, fields[k].1, origin, order) ==> fields[k].0 !in Barred(sort))
              && (Takes(c, fields[k].0, fields[k].1, origin, order) ==> YearInRange(fields[k].0, fields[k].1.value))
    {
      if k < i {
        assert fields[..i][k] == fields[k];
      }
    }
  }

  lemma OverlayIs(c: Columns, d: Columns, taken: map<string, Value>, pairs: seq<(string, string)>, origin: Origin)
    requires Written(c, d, taken, c.values + taken, pairs, origin)
    ensures d == Overlay(c, taken, origin)
  {
    var over := c.values + taken;
    forall name ensures Get(d.values, name) == Get(over, name) {
    }
    assert forall name :: name in d.values <==> Get(d.values, name).Some?;
    assert forall name :: name in over <==> Get(over, name).Some?;
    assert forall name :: name in over ==> Get(over, name) == Some(over[name]);
    assert d.values == over;
  }

  /**
   With each field named once, an import of well-kept columns is refused exactly for an unacceptable
   field, a date that would disagree with its year, or a column of the other kind of title; only in the
   last case is it the table that refuses. Otherwise every field is taken or not by its own test alone.
   */
  lemma FieldsAreIndependent(sort: Sort, c: Columns, fields: FieldList, origin: Origin, order: seq<ProviderId>)
    requires NamedOnce(fields) && PairsAgree(c.values, DatePairs(LevelOf(sort))) && c.values.Keys !! Barred(sort)
    ensures var r := ImportFields(sort, c, fields, origin, order); var d := Overlay(c, Taken(c, fields, origin, order), origin);
            var acceptable := Acceptable(sort, c, fields, origin, order) && PairsAgree(d.values, DatePairs(LevelOf(sort)));
            var admitted := Admitted(sort, c, fields, origin, order);
            && (r.Ok? <==> acceptable && admitted)
            && (r.Ok? ==> r.value == d && d.values.Keys !! Barred(sort))
            && (r.Err? ==> (r.error == InvalidMetadata && !acceptable) || (r.error == Database && !admitted))
  {
    hide *;
    var pairs := DatePairs(LevelOf(sort));
    var taken := Taken(c, fields, origin, order);
    ImportIs(sort, c, fields, origin, order);
    NothingAhead(c, c.values + taken, pairs);
    assert pairs[0..] == pairs;
    SettlesAll(sort, c, c, fields, 0, origin, order);
    OverlayOwn(sort, c, fields, origin, order);
    var s := SettlePairs(sort, c, fields, pairs, origin, order);
    if s.Ok? {
      AllPairsAgree(c.values + taken, taken, pairs);
      NothingWritten(c, s.value, fields, c.values + taken, pairs, origin, order);
      assert fields[0..] == fields;
      NothingYet(sort, c, fields, origin, order);
      WritesAll(sort, c, s.value, fields, 0, origin, order);
      var r := WriteEach(sort, s.value, fields, origin, order);
      if r.Ok? {
        OverlayIs(c, r.value, taken, pairs, origin);
      }
    }
  }

  lemma ImportIs(sort: Sort, c: Columns, fields: FieldList, origin: Origin, order: seq<ProviderId>)
    ensures var s := SettlePairs(sort, c, fields, DatePairs(LevelOf(sort)), origin, order);
            ImportFields(sort, c, fields, origin, order) == if s.Ok? then WriteEach(sort, s.value, fields, origin, order) else s
  {
    hide SettlePairs, WriteEach;
  }

  lemma AllPairsAgree(over: map<string, Value>, taken: map<string, Value>, pairs: seq<(string, string)>)
    requires forall i :: 0 <= i < |pairs| ==> PairAgrees(over, pairs[i]) && InRange(taken, pairs[i].1)
    ensures PairsAgree(over, pairs)
  {
    hide PairAgrees, InRange;
  }

  lemma NothingYet(sort: Sort, c: Columns, fields: FieldList, origin: Origin, order: seq<ProviderId>)
    ensures Acceptable(sort, c, fields[..0], origin, order) && Admitted(sort, c, fields[..0], origin, order)
  {
  }

  /** What an import would leave, and when it has a column of the other kind. */
  lemma OverlayOwn(sort: Sort, c: Columns, fields: FieldList, origin: Origin, order: seq<ProviderId>)
    requires NamedOnce(fields) && c.values.Keys !! Barred(sort)
    ensures var d := Overlay(c, Taken(c, fields, origin, order), origin);
            && d.values == c.values + Taken(c, fields, origin, order)
            && (Admitted(sort, c, fields, origin, order) ==> d.values.Keys !! Barred(sort))
  {
    AdmittedIs(sort, c, fields, origin, order);
    hide Taken, Admitted, Barred;
  }

  lemma NothingAhead(c: Columns, over: map<string, Value>, pairs: seq<(string, string)>)
    ensures Ahead(c, c, over, pairs[..0])
  {
  }

  lemma NothingWritten(c: Columns, d: Columns, fields: FieldList, over: map<string, Value>, pairs: seq<(string, string)>,
                       origin: Origin, order: seq<ProviderId>)
    requires Ahead(c, d, over, pairs)
    ensures Written(c, d, Taken(c, fields[..0], origin, order), over, pairs, origin)
  {
  }

  /** Each field then holds what retaining the observation gives it, and every other field is as before. */
  lemma ImportRetains(sort: Sort, c: Columns, fields: FieldList, k: nat, origin: Origin,
                      order: seq<ProviderId>, other: string)
    requires NamedOnce(fields) && Sourced(c) && PairsAgree(c.values, DatePairs(LevelOf(sort))) && c.values.Keys !! Barred(sort)
    requires k < |fields|
    requires ImportFields(sort, c, fields, origin, order).Ok?
    ensures var d := ImportFields(sort, c, fields, origin, order).value; var (name, given) := fields[k];
            && (given.Usable? ==> Held(d, name) == Some(Retain(Held(c, name), Observation(origin, given.value), order)))
            && (given.Blank? ==> Held(d, name) == Held(c, name))
            && ((forall i :: 0 <= i < |fields| ==> fields[i].0 != other) ==> Held(d, other) == Held(c, other))
  {
    hide *;
    var taken := Taken(c, fields, origin, order);
    var (name, given) := fields[k];
    FieldsAreIndependent(sort, c, fields, origin, order);
    TakenAt(c, fields, k, origin, order);
    OverlayHolds(c, taken, origin, name);
    OverlayHolds(c, taken, origin, other);
    TakesIsRetain(c, name, given, origin, order);
    if other in taken {
      var j := TakenFrom(c, fields, other, origin, order);
    }
  }

  lemma OverlayHolds(c: Columns, taken: map<string, Value>, origin: Origin, name: string)
    requires Sourced(c)
    ensures Held(Overlay(c, taken, origin), name) == if name in taken then Some(Observation(origin, taken[name])) else Held(c, name)
  {
    assert name in c.values.Keys <==> name in c.origins.Keys;
  }

  lemma TakesIsRetain(c: Columns, name: string, given: Given, origin: Origin, order: seq<ProviderId>)
    requires Sourced(c)
    ensures given.Usable? ==>
              Some(Retain(Held(c, name), Observation(origin, given.value), order))
              == if Takes(c, name, given, origin, order) then Some(Observation(origin, given.value)) else Held(c, name)
    ensures given.Blank? ==> !Takes(c, name, given, origin, order)
  {
    assert name in c.values.Keys <==> name in c.origins.Keys;
  }

  // ----- Why pairs are settled first -----

  lemma DateAloneIsRefused(c: Columns, origin: Origin, order: seq<ProviderId>)
    requires Get(c.values, "air_year") == Some(Integer(2019)) && Get(c.origins, "air_date") == Some(origin)
    ensures WriteField(OneSeason, c, "air_date", Usable(Text("2020-05-01")), origin, order) == Err(Database)
  {
    var d := Columns(c.values["air_date" := Text("2020-05-01")], c.origins["air_date" := origin]);
    assert YearOf("2020-05-01") == Some(2020);
    assert !PairAgrees(d.values, DatePairs(SeasonLevel)[0]);
    AcceptsSame(origin, order);
  }

  lemma AcceptsSame(origin: Origin, order: seq<ProviderId>)
    ensures Accepts(Some(origin), origin, order)
  {
  }

  lemma BothAreSettled(c: Columns, origin: Origin, order: seq<ProviderId>)
    requires Get(c.values, "air_year") == Some(Integer(2019)) && Get(c.values, "air_date") == Some(Text("2019-05-01"))
    requires Get(c.origins, "air_date") == Some(origin) && Get(c.origins, "air_year") == Some(origin)
    ensures ImportFields(OneSeason, c, [("air_date", Usable(Text("2020-05-01"))), ("air_year", Usable(Integer(2020)))], origin, order).Ok?
  {
    var fields := [("air_date", Usable(Text("2020-05-01"))), ("air_year", Usable(Integer(2020)))];
    var pairs := DatePairs(SeasonLevel);
    FieldsAreIndependent(OneSeason, c, fields, origin, order);
    assert YearOf("2019-05-01") == Some(2019);
    assert PairsAgree(c.values, pairs);
    AcceptsSame(origin, order);
    TakenAt(c, fields, 0, origin, order);
    TakenAt(c, fields, 1, origin, order);
    assert Acceptable(OneSeason, c, fields, origin, order) by { hide Taken, Accepts; BothAreProper(); }
    var over := c.values + Taken(c, fields, origin, order);
    hide *;
    BothAgree(over);
  }

  lemma BothAreProper()
    ensures Proper(OneSeason, "air_date", Usable(Text("2020-05-01"))) && Proper(OneSeason, "air_year", Usable(Integer(2020)))
  {
    assert SEASON_FIELDS[2] == "air_date" && SEASON_FIELDS[3] == "air_year";
  }

  lemma BothAgree(values: map<string, Value>)
    requires Get(values, "air_date") == Some(Text("2020-05-01")) && Get(values, "air_year") == Some(Integer(2020))
    ensures PairsAgree(values, DatePairs(SeasonLevel))
  {
    assert YearOf("2020-05-01") == Some(2020);
  }

  /** Writing a new date and its year one after the other would be refused where the import succeeds. */
  lemma OneByOneIsRefused(c: Columns, origin: Origin, order: seq<ProviderId>)
    requires c == Columns(map["air_date" := Text("2019-05-01"), "air_year" := Integer(2019)], map["air_date" := origin, "air_year" := origin])
    ensures var fields := [("air_date", Usable(Text("2020-05-01"))), ("air_year", Usable(Integer(2020)))];
            && ImportFields(OneSeason, c, fields, origin, order).Ok?
            && WriteEach(OneSeason, c, fields, origin, order) == Err(Database)
  {
    DateAloneIsRefused(c, origin, order);
    BothAreSettled(c, origin, order);
  }

  // ----- As the program does it -----

  method Import(sort: Sort, c: Columns, fields: FieldList, origin: Origin,
                order: seq<ProviderId>) returns (r: Result<Columns, CatalogError>)
    ensures r == ImportFields(sort, c, fields, origin, order)
  {
    hide SettlePair, WriteField;
    var d, pairs, i := c, DatePairs(LevelOf(sort)), 0;
    while i < |pairs|
      invariant i <= |pairs|
      invariant SettlePairs(sort, d, fields, pairs[i..], origin, order) == SettlePairs(sort, c, fields, pairs, origin, order)
    {
      assert pairs[i..][1..] == pairs[i + 1..];
      var settled := SettlePair(sort, d, fields, pairs[i], origin, order);
      if settled.Err? {
        return settled;
      }
      d, i := settled.value, i + 1;
    }
    ghost var ahead := d;
    i := 0;
    while i < |fields|
      invariant i <= |fields|
      invariant WriteEach(sort, d, fields[i..], origin, order) == WriteEach(sort, ahead, fields, origin, order)
    {
      assert fields[i..][1..] == fields[i + 1..];
      var written := WriteField(sort, d, fields[i].0, fields[i].1, origin, order);
      if written.Err? {
        return written;
      }
      d, i := written.value, i + 1;
    }
    return Ok(d);
  }
}
