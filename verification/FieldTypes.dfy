/** The values descriptive columns may hold: what an import accepts for one field, and what no import or merge can break. */
module FieldTypes {
  import opened Util
  import opened ProviderPriority
  import opened FieldPolicy
  import opened FieldMerge
  import opened EntityInfo
  import opened FieldImport

  predicate IsYear(name: string) {
    name == "release_year" || name == "first_air_year" || name == "last_air_year" || name == "air_year"
  }

  predicate IsNumber(name: string) {
    IsYear(name) || name == "season_count" || name == "episode_count" || name == "runtime_minutes"
  }

  /** Years have four digits at most, running times are positive, counts are not negative, and all else is text. */
  predicate HasType(name: string, v: Value) {
    if IsYear(name) then v.Integer? && 1 <= v.number <= 9999
    else if name == "runtime_minutes" then v.Integer? && v.number > 0
    else if IsNumber(name) then v.Integer? && v.number >= 0
    else v.Text?
  }

  ghost predicate Typed(values: map<string, Value>) { forall name :: name in values ==> HasType(name, values[name]) }

  /** One field of an import is acceptable exactly if its column exists and takes what is given. */
  lemma AcceptableExactly(sort: Sort, c: Columns, name: string, given: Given, origin: Origin, order: seq<ProviderId>)
    ensures Proper(sort, name, given) && (Takes(c, name, given, origin, order) ==> YearInRange(name, given.value))
       <==> name in Fields(LevelOf(sort))
            && match given
               case Malformed => false
               case Blank => !IsNumber(name)
               case Usable(Text(_)) => !IsNumber(name)
               case Usable(Integer(n)) =>
                 && IsNumber(name) && n >= 0 && (name == "runtime_minutes" ==> n > 0)
                 && (IsYear(name) && Accepts(Get(c.origins, name), origin, order) ==> 1 <= n <= 9999)
  {
    hide Fields, Accepts;
  }

  lemma WriteFieldTyped(sort: Sort, c: Columns, name: string, given: Given, origin: Origin, order: seq<ProviderId>)
    requires Typed(c.values) && WriteField(sort, c, name, given, origin, order).Ok?
    ensures Typed(WriteField(sort, c, name, given, origin, order).value.values)
  {
    hide Fields, Accepts, Barred, PairsAgree, DatePairs;
  }

  lemma {:induction false} WriteEachTyped(sort: Sort, c: Columns, fields: FieldList, origin: Origin, order: seq<ProviderId>)
    requires Typed(c.values) && WriteEach(sort, c, fields, origin, order).Ok?
    ensures Typed(WriteEach(sort, c, fields, origin, order).value.values)
    decreases |fields|
  {
    hide Typed, WriteField;
    if fields != [] {
      WriteFieldTyped(sort, c, fields[0].0, fields[0].1, origin, order);
      WriteEachTyped(sort, WriteField(sort, c, fields[0].0, fields[0].1, origin, order).value, fields[1..], origin, order);
    }
  }

  lemma PutTyped(values: map<string, Value>, name: string, v: Option<Value>)
    requires Typed(values) && (v.Some? ==> HasType(name, v.value))
    ensures Typed(Put(values, name, v))
  {
  }

  lemma SettledTyped(c: Columns, fields: FieldList, name: string, origin: Origin, order: seq<ProviderId>)
    requires Typed(c.values) && Settled(c, fields, name, origin, order).Ok? && (IsYear(name) || !IsNumber(name))
    ensures Settled(c, fields, name, origin, order).value.Some? ==> HasType(name, Settled(c, fields, name, origin, order).value.value)
  {
    hide Accepts, First;
  }

  lemma SettlePairTyped(sort: Sort, c: Columns, fields: FieldList, pair: (string, string), origin: Origin, order: seq<ProviderId>)
    requires Typed(c.values) && SettlePair(sort, c, fields, pair, origin, order).Ok?
    requires !IsNumber(pair.0) && IsYear(pair.1)
    ensures Typed(SettlePair(sort, c, fields, pair, origin, order).value.values)
  {
    hide Typed, Settled, Put, PairAgrees, BarsPair, First, IsNumber, IsYear, HasType;
    var date, year := Settled(c, fields, pair.0, origin, order), Settled(c, fields, pair.1, origin, order);
    if date.Ok? && year.Ok? {
      SettledTyped(c, fields, pair.0, origin, order);
      SettledTyped(c, fields, pair.1, origin, order);
      PutTyped(c.values, pair.0, date.value);
      PutTyped(Put(c.values, pair.0, date.value), pair.1, year.value);
    }
  }

  lemma {:induction false} SettlePairsTyped(sort: Sort, c: Columns, fields: FieldList, pairs: seq<(string, string)>, origin: Origin,
                                            order: seq<ProviderId>)
    requires Typed(c.values) && SettlePairs(sort, c, fields, pairs, origin, order).Ok?
    requires forall i :: 0 <= i < |pairs| ==> !IsNumber(pairs[i].0) && IsYear(pairs[i].1)
    ensures Typed(SettlePairs(sort, c, fields, pairs, origin, order).value.values)
    decreases |pairs|
  {
    hide Typed, SettlePair, IsNumber, IsYear;
    if pairs != [] {
      SettlePairTyped(sort, c, fields, pairs[0], origin, order);
      SettlePairsTyped(sort, SettlePair(sort, c, fields, pairs[0], origin, order).value, fields, pairs[1..], origin, order);
    }
  }

  lemma PairsAreDates(level: Level)
    ensures forall i :: 0 <= i < |DatePairs(level)| ==> !IsNumber(DatePairs(level)[i].0) && IsYear(DatePairs(level)[i].1)
  {
  }

  /** No accepted import, whatever it names and however often, leaves a value that is not of its column's type. */
  lemma ImportKeepsTypes(sort: Sort, c: Columns, fields: FieldList, origin: Origin, order: seq<ProviderId>)
    requires Typed(c.values) && ImportFields(sort, c, fields, origin, order).Ok?
    ensures Typed(ImportFields(sort, c, fields, origin, order).value.values)
  {
    var pairs := DatePairs(LevelOf(sort));
    PairsAreDates(LevelOf(sort));
    hide Typed, SettlePairs, WriteEach, DatePairs, IsNumber, IsYear;
    SettlePairsTyped(sort, c, fields, pairs, origin, order);
    WriteEachTyped(sort, SettlePairs(sort, c, fields, pairs, origin, order).value, fields, origin, order);
  }

  /** Nor does the merge of two entities. */
  lemma MergeKeepsTypes(level: Level, winner: Info, loser: Info, order: seq<ProviderId>)
    requires Typed(winner.columns.values) && Typed(loser.columns.values) && MergeInfo(level, winner, loser, order).Ok?
    ensures Typed(MergeInfo(level, winner, loser, order).value.columns.values)
  {
    MergedColumns(level, winner, loser, order);
    hide MergeInfo, PairsAgree, Fields, DatePairs, Accepts, HasType;
  }
}
