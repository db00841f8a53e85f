/** Everything the catalog keeps about one title, season or episode besides its place, and the merge of two. */
module EntityInfo {
  import opened Util
  import opened ProviderPriority
  import FieldMerge
  import FieldPolicy
  import NewestRows
  import PersonalState

  datatype Level = TitleLevel | SeasonLevel | EpisodeLevel

  /** What an entity is; titles of the two kinds have different columns. */
  datatype Sort = MovieTitle | SeriesTitle | OneSeason | OneEpisode

  function LevelOf(sort: Sort): Level {
    match sort
    case MovieTitle => TitleLevel
    case SeriesTitle => TitleLevel
    case OneSeason => SeasonLevel
    case OneEpisode => EpisodeLevel
  }

  /** Columns that the table of titles refuses for a kind. */
  function Barred(sort: Sort): set<string> {
    match sort
    case MovieTitle =>
      {"first_air_date", "first_air_year", "last_air_date", "last_air_year", "season_count", "episode_count"}
    case SeriesTitle => {"release_date", "release_year"}
    case _ => {}
  }

  datatype CatalogError = IdentityConflict | InvalidCache | InvalidMetadata | MissingIdentity | Clock | Database

  datatype RatingKey = RatingKey(source: string, metric: string, supplier: string)

  datatype FetchKey = FetchKey(provider: string, resource: string)

  datatype SnapshotKey = SnapshotKey(indexer: string, query: string, scope: string)

  datatype Info = Info(
    columns: FieldMerge.Columns,
    ratings: map<RatingKey, NewestRows.Row<string>>,
    fetches: map<FetchKey, NewestRows.Fetch>,
    snapshots: map<SnapshotKey, NewestRows.Row<string>>,
    personal: PersonalState.Personal)

  function NewInfo(): Info {
    Info(FieldMerge.Columns(map[], map[]), map[], map[], map[], PersonalState.Personal(None, None, None))
  }

  function Fields(level: Level): seq<string> {
    match level
    case TitleLevel => FieldMerge.TITLE_FIELDS
    case SeasonLevel => FieldMerge.SEASON_FIELDS
    case EpisodeLevel => FieldMerge.EPISODE_FIELDS
  }

  function DatePairs(level: Level): seq<(string, string)> {
    match level
    case TitleLevel => FieldMerge.TITLE_PAIRS
    case SeasonLevel => FieldMerge.SEASON_PAIRS
    case EpisodeLevel => []
  }

  // ----- Merging -----

  function FieldError(e: FieldMerge.Error): CatalogError {
    match e case InvalidCache => InvalidCache case IdentityConflict => IdentityConflict
  }

  /** Seasons have no personal rows. */
  function MergePersonal(level: Level, winner: PersonalState.Personal,
                         loser: PersonalState.Personal): Result<PersonalState.Personal, CatalogError> {
    if level.SeasonLevel? then Ok(winner)
    else
      match PersonalState.MergePersonal(winner, loser)
      case Ok(p) => Ok(p)
      case Err(_) => Err(Database)
  }

  function MergeInfo(level: Level, winner: Info, loser: Info, order: seq<ProviderId>): Result<Info, CatalogError> {
    match FieldMerge.MergeFields(winner.columns, loser.columns, Fields(level), DatePairs(level), order)
    case Err(e) => Err(FieldError(e))
    case Ok(columns) =>
      match MergePersonal(level, winner.personal, loser.personal)
      case Err(e) => Err(e)
      case Ok(personal) =>
        Ok(Info(columns, NewestRows.MergedRows(winner.ratings, loser.ratings), NewestRows.MergedFetches(winner.fetches, loser.fetches),
                NewestRows.MergedRows(winner.snapshots, loser.snapshots), personal))
  }

  /**
   What every write keeps: values have provenance, dates agree with years, checkpoints have a watch row, and
   seasons have nothing personal.
   */
  predicate InfoOk(level: Level, info: Info) {
    && FieldMerge.Sourced(info.columns)
    && FieldMerge.PairsAgree(info.columns.values, DatePairs(level))
    && PersonalState.Consistent(info.personal)
    && (level.SeasonLevel? ==> info.personal == PersonalState.Personal(None, None, None))
  }

  /** A title has no columns of the other kind. */
  predicate OwnColumns(sort: Sort, info: Info) { info.columns.values.Keys !! Barred(sort) }

  /** Columns after taking the stronger field of each name. */
  function StrongerColumns(level: Level, winner: Info, loser: Info, order: seq<ProviderId>): FieldMerge.Columns {
    FieldMerge.Take(winner.columns, loser.columns, FieldMerge.ChosenOf(winner.columns, loser.columns, Fields(level), order))
  }

  /** Two well-kept entities fail to merge exactly when the stronger dates and years disagree. */
  lemma InfoMergesIff(level: Level, winner: Info, loser: Info, order: seq<ProviderId>)
    requires InfoOk(level, winner) && InfoOk(level, loser)
    ensures var r := MergeInfo(level, winner, loser, order);
            && (r.Ok? <==> FieldMerge.PairsAgree(StrongerColumns(level, winner, loser, order).values, DatePairs(level)))
            && (r.Err? ==> r.error == IdentityConflict)
            && (r.Ok? ==> InfoOk(level, r.value))
  {
    FieldMerge.MergeKeepsBest(winner.columns, loser.columns, Fields(level), DatePairs(level), order);
    PersonalState.MergeFailsIff(winner.personal, loser.personal);
  }

  lemma MergedColumns(level: Level, winner: Info, loser: Info, order: seq<ProviderId>)
    requires MergeInfo(level, winner, loser, order).Ok?
    ensures FieldMerge.MergeFields(winner.columns, loser.columns, Fields(level), DatePairs(level), order)
         == Ok(MergeInfo(level, winner, loser, order).value.columns)
  {
    hide FieldMerge.MergeFields, MergePersonal;
  }

  /** A merge of two titles of one kind gives no column of the other. */
  lemma MergeKeepsKind(sort: Sort, winner: Info, loser: Info, order: seq<ProviderId>)
    requires OwnColumns(sort, winner) && OwnColumns(sort, loser) && MergeInfo(LevelOf(sort), winner, loser, order).Ok?
    ensures OwnColumns(sort, MergeInfo(LevelOf(sort), winner, loser, order).value)
  {
    var level := LevelOf(sort);
    hide MergeInfo, Barred, Fields, DatePairs;
    MergedColumns(level, winner, loser, order);
    FieldMerge.MergedNames(winner.columns, loser.columns, Fields(level), DatePairs(level), order);
  }

  // ----- What a merge keeps -----

  /** Ratings, snapshots, fetches and personal rows of both entities, key by key. */
  ghost predicate KeepsRows(level: Level, kept: Info, winner: Info, loser: Info) {
    && (forall k ::
          NewestRows.KeptRow(
            NewestRows.At(kept.ratings, k), NewestRows.At(winner.ratings, k), NewestRows.At(loser.ratings, k)))
    && (forall k ::
          NewestRows.KeptRow(
            NewestRows.At(kept.snapshots, k), NewestRows.At(winner.snapshots, k), NewestRows.At(loser.snapshots, k)))
    && (forall k ::
          NewestRows.KeptRecord(
            NewestRows.At(kept.fetches, k), NewestRows.At(winner.fetches, k), NewestRows.At(loser.fetches, k)))
    && (if level.SeasonLevel? then kept.personal == PersonalState.Personal(None, None, None)
        else PersonalState.KeptPersonal(kept.personal, winner.personal, loser.personal))
  }

  /** No row of either entity is lost to the merge but to a newer one. */
  lemma MergeKeepsRows(level: Level, winner: Info, loser: Info, order: seq<ProviderId>)
    requires InfoOk(level, winner) && InfoOk(level, loser) && MergeInfo(level, winner, loser, order).Ok?
    ensures KeepsRows(level, MergeInfo(level, winner, loser, order).value, winner, loser)
  {
    NewestRows.MergedRowsKeep(winner.ratings, loser.ratings);
    NewestRows.MergedRowsKeep(winner.snapshots, loser.snapshots);
    NewestRows.MergedFetchesKeep(winner.fetches, loser.fetches);
    hide FieldMerge.MergeFields, NewestRows.MergedRows, NewestRows.MergedFetches, NewestRows.KeptRow, NewestRows.KeptRecord;
    if !level.SeasonLevel? {
      PersonalState.MergeKeepsPersonal(winner.personal, loser.personal);
    }
    hide PersonalState.KeptPersonal;
  }

  type Field = Option<FieldPolicy.Observation<FieldMerge.Value>>

  /** The loser's field is kept unless it is weaker than the winner's. */
  predicate KeptField(kept: Field, winner: Field, loser: Field, order: seq<ProviderId>) {
    kept == if loser.Some? && (winner.None? || !FieldPolicy.Weaker(loser.value.origin, winner.value.origin, order))
            then loser else winner
  }

  /** So for every column of the level; any other column stays the winner's. */
  ghost predicate KeepsColumns(level: Level, kept: Info, winner: Info, loser: Info, order: seq<ProviderId>) {
    forall name ::
      var k, w, l := FieldMerge.Held(kept.columns, name), FieldMerge.Held(winner.columns, name),
                     FieldMerge.Held(loser.columns, name);
      if name in Fields(level) then KeptField(k, w, l, order) else k == w
  }

  lemma MergeKeepsColumns(level: Level, winner: Info, loser: Info, order: seq<ProviderId>)
    requires Complete(order) && InfoOk(level, winner) && InfoOk(level, loser) && MergeInfo(level, winner, loser, order).Ok?
    ensures KeepsColumns(level, MergeInfo(level, winner, loser, order).value, winner, loser, order)
  {
    var kept := MergeInfo(level, winner, loser, order).value;
    MergedColumns(level, winner, loser, order);
    FieldMerge.MergeKeepsBest(winner.columns, loser.columns, Fields(level), DatePairs(level), order);
    hide MergeInfo, FieldMerge.MergeFields, FieldMerge.PairsAgree, Fields, DatePairs, FieldMerge.Held, FieldPolicy.Merge, Complete,
         KeptField;
    forall name | name in Fields(level)
      ensures KeptField(FieldMerge.Held(kept.columns, name), FieldMerge.Held(winner.columns, name),
                        FieldMerge.Held(loser.columns, name), order)
    {
      MergedFieldKept(FieldMerge.Held(winner.columns, name), FieldMerge.Held(loser.columns, name), order);
    }
  }

  lemma MergedFieldKept(winner: Field, loser: Field, order: seq<ProviderId>)
    requires Complete(order)
    ensures KeptField(FieldPolicy.Merge(winner, loser, order), winner, loser, order)
  {
    if winner.Some? && loser.Some? {
      FieldPolicy.AcceptsIsNotWeaker(winner.value.origin, loser.value.origin, order);
    }
    hide FieldPolicy.Weaker, FieldPolicy.Accepts;
  }

  // ----- As the program does it -----

  /** Fields first, then the rows, then the personal rows. */
  method MergeEntities(level: Level, winner: Info, loser: Info,
                       order: seq<ProviderId>) returns (r: Result<Info, CatalogError>)
    ensures r == MergeInfo(level, winner, loser, order)
  {
    var columns := FieldMerge.MergeRows(winner.columns, loser.columns, Fields(level), DatePairs(level), order);
    if columns.Err? {
      return Err(FieldError(columns.error));
    }
    var ratings := NewestRows.MergeRows(winner.ratings, loser.ratings);
    var fetches := NewestRows.MergeFetches(winner.fetches, loser.fetches);
    var snapshots := NewestRows.MergeRows(winner.snapshots, loser.snapshots);
    var personal := MergePersonalRows(level, winner.personal, loser.personal);
    if personal.Err? {
      return Err(personal.error);
    }
    return Ok(Info(columns.value, ratings, fetches, snapshots, personal.value));
  }

  /** The personal rows of both entities, in tables of their own. */
  method MergePersonalRows(level: Level, winner: PersonalState.Personal, loser: PersonalState.Personal)
    returns (r: Result<PersonalState.Personal, CatalogError>)
    ensures r == MergePersonal(level, winner, loser)
  {
    if level.SeasonLevel? {
      return Ok(winner);
    }
    var tables := new PersonalState.PersonalTables();
    tables.Place(0, winner);
    tables.Place(1, loser);
    var merged := tables.Merge(0, 1);
    if merged.Err? {
      return Err(Database);
    }
    return Ok(tables.Rows(0));
  }
}
