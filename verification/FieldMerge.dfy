/** Descriptive columns with their provenance: one accepted write, and the merge of two rows. */
module FieldMerge {
  import opened Util
  import opened ProviderPriority
  import opened FieldPolicy

  datatype Value = Text(text: string) | Integer(number: int)

  datatype Error = InvalidCache | IdentityConflict

  /** Non-null columns of a row and the provenance recorded for them. */
  datatype Columns = Columns(values: map<string, Value>, origins: map<string, Origin>)

  const TITLE_FIELDS: seq<string> := [
    "name", "original_name", "tagline", "overview", "release_date", "release_year", "runtime_minutes", "genres_json",
    "poster_url", "backdrop_url", "logo_url", "original_language", "status", "first_air_date", "first_air_year",
    "last_air_date", "last_air_year", "season_count", "episode_count"]

  const SEASON_FIELDS: seq<string> := ["name", "overview", "air_date", "air_year", "poster_url", "episode_count"]

  const EPISODE_FIELDS: seq<string> := ["name", "overview", "air_date", "runtime_minutes", "production_code", "still_url"]

  /** Date and year columns that must agree. */
  const TITLE_PAIRS: seq<(string, string)> := [
    ("release_date", "release_year"), ("first_air_date", "first_air_year"), ("last_air_date", "last_air_year")]

  const SEASON_PAIRS: seq<(string, string)> := [("air_date", "air_year")]

  function Get<V>(m: map<string, V>, name: string): Option<V> { if name in m then Some(m[name]) else None }

  /** The retained observation of a column. */
  function Held(c: Columns, name: string): Option<Observation<Value>> {
    if name in c.values && name in c.origins then Some(Observation(c.origins[name], c.values[name])) else None
  }

  /** Every value has its provenance and nothing else has. */
  predicate Sourced(c: Columns) { c.values.Keys == c.origins.Keys }

  // ----- Years -----

  predicate IsDigit(c: char) { '0' <= c <= '9' }

  /** The year a date starts with. */
  function YearOf(date: string): Option<int> {
    if |date| >= 4 && forall i :: 0 <= i < 4 ==> IsDigit(date[i])
    then Some((date[0] as int - '0' as int) * 1000 + (date[1] as int - '0' as int) * 100
              + (date[2] as int - '0' as int) * 10 + (date[3] as int - '0' as int))
    else None
  }

  predicate PairAgrees(values: map<string, Value>, pair: (string, string)) {
    match (Get<Value>(values, pair.0), Get<Value>(values, pair.1))
    case (Some(Text(d)), Some(Integer(y))) => YearOf(d) == Some(y)
    case _ => true
  }

  predicate PairsAgree(values: map<string, Value>, pairs: seq<(string, string)>) {
    forall i :: 0 <= i < |pairs| ==> PairAgrees(values, pairs[i])
  }

  function Digit(n: nat): char
    requires n < 10
  {
    ('0' as int + n) as char
  }

  /** A date that starts with four digits has the year they spell, and no other date has one. */
  lemma YearIsRead(a: nat, b: nat, c: nat, d: nat, rest: string)
    requires a < 10 && b < 10 && c < 10 && d < 10
    ensures YearOf([Digit(a), Digit(b), Digit(c), Digit(d)] + rest) == Some(1000 * a + 100 * b + 10 * c + d)
  {
    var date := [Digit(a), Digit(b), Digit(c), Digit(d)] + rest;
    assert date[0] == Digit(a) && date[1] == Digit(b) && date[2] == Digit(c) && date[3] == Digit(d);
    forall i | 0 <= i < 4 ensures IsDigit(date[i]) {
    }
  }

  lemma OnlyDigitsAreYears(date: string)
    ensures YearOf(date).Some? ==> |date| >= 4 && forall i :: 0 <= i < 4 ==> exists n: nat :: n < 10 && date[i] == Digit(n)
  {
    if YearOf(date).Some? {
      forall i | 0 <= i < 4 ensures exists n: nat :: n < 10 && date[i] == Digit(n) {
        assert date[i] == Digit((date[i] as int - '0' as int) as nat);
      }
    }
  }

  // ----- One write -----

  /** An accepted observation replaces value and provenance together. */
  function Write(c: Columns, name: string, o: Observation<Value>, order: seq<ProviderId>): Columns {
    if Accepts(Get(c.origins, name), o.origin, order)
    then Columns(c.values[name := o.value], c.origins[name := o.origin])
    else c
  }

  lemma WriteRetains(c: Columns, name: string, o: Observation<Value>, order: seq<ProviderId>)
    requires Sourced(c)
    ensures var d := Write(c, name, o, order);
            && Sourced(d)
            && Held(d, name) == Some(Retain(Held(c, name), o, order))
            && forall other :: other != name ==> Held(d, other) == Held(c, other)
  {
    assert name in c.origins.Keys <==> name in c.values.Keys;
    if Accepts(Get(c.origins, name), o.origin, order) {
      var d := Write(c, name, o, order);
      assert d.values.Keys == c.values.Keys + {name} && d.origins.Keys == c.origins.Keys + {name};
    }
  }

  // ----- Merging rows -----

  predicate Unsourced(c: Columns, name: string) { name in c.values && name !in c.origins }

  predicate Chosen(winner: Columns, loser: Columns, name: string, order: seq<ProviderId>) {
    name in loser.values && name in loser.origins && Accepts(Get(winner.origins, name), loser.origins[name], order)
  }

  /** Columns the loser's row gives to the winner's. */
  function ChosenOf(winner: Columns, loser: Columns, fields: seq<string>, order: seq<ProviderId>): set<string> {
    set name | name in fields && Chosen(winner, loser, name, order)
  }

  function Take(winner: Columns, loser: Columns, names: set<string>): Columns
    requires forall name :: name in names ==> name in loser.values && name in loser.origins
  {
    Columns(map name | name in winner.values.Keys + names :: if name in names then loser.values[name] else winner.values[name],
            map name | name in winner.origins.Keys + names :: if name in names then loser.origins[name] else winner.origins[name])
  }

  /** A value without provenance is a broken cache; inconsistent dates and years are an identity conflict. */
  function MergeFields(winner: Columns, loser: Columns, fields: seq<string>, pairs: seq<(string, string)>,
                       order: seq<ProviderId>): Result<Columns, Error> {
    if exists name :: name in fields && Unsourced(loser, name) then Err(InvalidCache)
    else
      var names := ChosenOf(winner, loser, fields, order);
      var merged := Take(winner, loser, names);
      if names != {} && !PairsAgree(merged.values, pairs) then Err(IdentityConflict) else Ok(merged)
  }

  /**
   With both rows sourced, the merge fails exactly when the retained dates and years disagree, and
   otherwise every column is what folding both histories of observations would have retained.
   */
  lemma MergeKeepsBest(winner: Columns, loser: Columns, fields: seq<string>, pairs: seq<(string, string)>,
                       order: seq<ProviderId>)
    requires Sourced(winner) && Sourced(loser) && PairsAgree(winner.values, pairs)
    ensures var r := MergeFields(winner, loser, fields, pairs, order);
            var names := ChosenOf(winner, loser, fields, order);
            && (r.Ok? <==> PairsAgree(Take(winner, loser, names).values, pairs))
            && (r.Err? ==> r.error == IdentityConflict)
            && (r.Ok? ==> Sourced(r.value) && PairsAgree(r.value.values, pairs))
            && (r.Ok? ==> forall name ::
                  Held(r.value, name)
                  == if name in fields then FieldPolicy.Merge(Held(winner, name), Held(loser, name), order) else Held(winner, name))
  {
    var names := ChosenOf(winner, loser, fields, order);
    var merged := Take(winner, loser, names);
    forall name ensures name in loser.values <==> name in loser.origins {
      assert name in loser.values.Keys <==> name in loser.origins.Keys;
    }
    forall name ensures name in winner.values <==> name in winner.origins {
      assert name in winner.values.Keys <==> name in winner.origins.Keys;
    }
    forall name
      ensures Held(merged, name)
           == if name in fields then FieldPolicy.Merge(Held(winner, name), Held(loser, name), order) else Held(winner, name)
    {
    }
    if names == {} {
      assert merged.values == winner.values;
    }
    assert merged.values.Keys == merged.origins.Keys;
  }

  /** The merge takes the loser's row for broken exactly when one of its columns has a value without provenance. */
  lemma BrokenExactly(winner: Columns, loser: Columns, fields: seq<string>, pairs: seq<(string, string)>, order: seq<ProviderId>)
    ensures MergeFields(winner, loser, fields, pairs, order) == Err(InvalidCache)
       <==> exists i :: 0 <= i < |fields| && fields[i] in loser.values && fields[i] !in loser.origins
  {
    hide PairsAgree, Accepts;
    if name :| name in fields && Unsourced(loser, name) {
      var i :| 0 <= i < |fields| && fields[i] == name;
    }
    if i :| 0 <= i < |fields| && fields[i] in loser.values && fields[i] !in loser.origins {
      assert fields[i] in fields && Unsourced(loser, fields[i]);
    }
  }

  lemma MergedNames(winner: Columns, loser: Columns, fields: seq<string>, pairs: seq<(string, string)>, order: seq<ProviderId>)
    requires MergeFields(winner, loser, fields, pairs, order).Ok?
    ensures MergeFields(winner, loser, fields, pairs, order).value.values.Keys <= winner.values.Keys + loser.values.Keys
  {
    hide PairsAgree, Accepts;
    var names := ChosenOf(winner, loser, fields, order);
    assert names <= loser.values.Keys;
    assert Take(winner, loser, names).values.Keys == winner.values.Keys + names;
  }

  /** The merge as the program does it: column by column, then the pairs, then the transfers. */
  method MergeRows(winner: Columns, loser: Columns, fields: seq<string>, pairs: seq<(string, string)>,
                   order: seq<ProviderId>)
    returns (r: Result<Columns, Error>)
    ensures r == MergeFields(winner, loser, fields, pairs, order)
  {
    var chosen: set<string> := {};
    var i := 0;
    while i < |fields|
      invariant i <= |fields|
      invariant forall k :: 0 <= k < i ==> !Unsourced(loser, fields[k])
      invariant chosen == ChosenOf(winner, loser, fields[..i], order)
    {
      var name := fields[i];
      assert fields[..i + 1] == fields[..i] + [name];
      if name in loser.values {
        if name !in loser.origins {
          assert Unsourced(loser, name) && name in fields;
          return Err(InvalidCache);
        }
        if Accepts(Get(winner.origins, name), loser.origins[name], order) {
          chosen := chosen + {name};
        }
      }
      i := i + 1;
    }
    assert fields[..i] == fields;
    var merged := Take(winner, loser, chosen);
    if chosen != {} {
      i := 0;
      while i < |pairs|
        invariant i <= |pairs|
        invariant forall k :: 0 <= k < i ==> PairAgrees(merged.values, pairs[k])
      {
        if !PairAgrees(merged.values, pairs[i]) {
          return Err(IdentityConflict);
        }
        i := i + 1;
      }
    }
    return Ok(merged);
  }
}
