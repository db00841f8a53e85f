/**
 The writes that grow the catalog: external identifiers, seasons, episodes, and what is kept about
 each entity. A write that would break a rule of the tables is an error and changes nothing.
 */
module CatalogWrites {
  import opened Util
  import opened ProviderPriority
  import opened EntityInfo
  import opened Renaming
  import opened CatalogGraph
  import opened CatalogIdentity
  import opened EntityWrites
  import FieldImport
  import FieldMerge
  import FieldPolicy
  import HttpRange
  import NewestRows
  import PersonalState
  import Pages

  datatype Identifier = Identifier(namespace: Namespace, external: string)

  /** What one supplier says about a title. */
  datatype Observation = Observation(
    kind: Kind,
    identifiers: seq<Identifier>,
    fields: FieldImport.FieldList,
    origin: FieldPolicy.Origin,
    ratings: seq<(RatingKey, NewestRows.Row<string>)>)

  // ----- Well-formed identifiers -----

  /** On IMDb "tt" with seven or more digits after it; on TMDB a positive 64-bit number as it is printed. */
  predicate Valid(i: Identifier) {
    match i.namespace
    case Imdb => |i.external| >= 9 && i.external[..2] == "tt" && HttpRange.AllDigits(i.external[2..])
    case Tmdb => var n := HttpRange.Decimal(i.external); n.Ok? && n.value > 0 && HttpRange.Show(n.value) == i.external
  }

  /** A number has one accepted spelling, so comparing identifiers as text compares them as numbers. */
  lemma ValidIsCanonical(i: Identifier, j: Identifier)
    requires Valid(i) && Valid(j) && i.namespace.Tmdb? && j.namespace.Tmdb?
    ensures i == j <==> HttpRange.DigitsValue(i.external) == HttpRange.DigitsValue(j.external)
  {
  }

  // ----- Where an observation comes from -----

  /** The fetch that supplied it belongs to one entity or to a saved page; `listed` says that it filled that very page. */
  datatype Source = TitleFetch(title: Id) | SeasonFetch(season: Id) | EpisodeFetch(episode: Id) | PageFetch(listed: bool)

  /** A fetch supplies its own entity; a season's also its series, and a title's or season's everything below it. */
  function Unsupplied(g: Graph, level: Level, id: Id, s: Source): Option<CatalogError> {
    match (level, s)
    case (TitleLevel, TitleFetch(t)) => if t == id then None else Some(InvalidMetadata)
    case (TitleLevel, SeasonFetch(x)) =>
      if x !in g.seasons then Some(Database) else if g.seasons[x].parent == id then None else Some(InvalidMetadata)
    case (TitleLevel, PageFetch(listed)) => if listed then None else Some(InvalidMetadata)
    case (SeasonLevel, SeasonFetch(x)) => if x == id then None else Some(InvalidMetadata)
    case (SeasonLevel, TitleFetch(t)) =>
      if id !in g.seasons then Some(Database) else if g.seasons[id].parent == t then None else Some(InvalidMetadata)
    case (EpisodeLevel, _) =>
      if s == EpisodeFetch(id) then None
      else if id !in g.episodes || g.episodes[id].parent !in g.seasons then Some(Database)
      else if s == SeasonFetch(g.episodes[id].parent) || s == TitleFetch(g.seasons[g.episodes[id].parent].parent) then None
      else Some(InvalidMetadata)
    case _ => Some(InvalidMetadata)
  }

  // ----- Identifiers -----

  predicate EpisodeOwnsImdb(g: Graph, external: string) { Key(Imdb, external) in g.episodeKeys }

  predicate TitleOwnsImdb(g: Graph, external: string) {
    TitleKey(Imdb, Movie, external) in g.titleKeys || TitleKey(Imdb, Series, external) in g.titleKeys
  }

  function Other(kind: Kind): Kind { if kind.Movie? then Series else Movie }

  predicate HasOtherTitleKey(keys: map<TitleKey, Id>, id: Id, i: Identifier) {
    exists k :: k in keys && keys[k] == id && k.namespace == i.namespace && k.external != i.external
  }

  predicate HasOtherKey(keys: map<Key, Id>, id: Id, i: Identifier) {
    exists k :: k in keys && keys[k] == id && k.namespace == i.namespace && k.external != i.external
  }

  /** Records that a title has an identifier. */
  function SetTitleKey(g: Graph, id: Id, kind: Kind, i: Identifier, s: Source): Result<Graph, CatalogError> {
    var k := TitleKey(i.namespace, kind, i.external);
    if !Valid(i) then Err(InvalidMetadata)
    else if Unsupplied(g, TitleLevel, id, s).Some? then Err(Unsupplied(g, TitleLevel, id, s).value)
    else if i.namespace.Imdb? && EpisodeOwnsImdb(g, i.external) then Err(IdentityConflict)
    else if k in g.titleKeys && g.titleKeys[k] != id then Err(IdentityConflict)
    else if HasOtherTitleKey(g.titleKeys, id, i) then Err(IdentityConflict)
    else if k in g.titleKeys then Ok(g)
    else if id !in g.titles || g.titles[id] != kind then Err(Database)
    else if i.namespace.Imdb? && TitleKey(Imdb, Other(kind), i.external) in g.titleKeys then Err(Database)
    else Ok(g.(titleKeys := g.titleKeys[k := id]))
  }

  /** IMDb has no identifiers for seasons. */
  function SetSeasonKey(g: Graph, id: Id, i: Identifier, s: Source): Result<Graph, CatalogError> {
    var k := Key(i.namespace, i.external);
    if !Valid(i) then Err(InvalidMetadata)
    else if Unsupplied(g, SeasonLevel, id, s).Some? then Err(Unsupplied(g, SeasonLevel, id, s).value)
    else if i.namespace.Imdb? then Err(InvalidMetadata)
    else if k in g.seasonKeys && g.seasonKeys[k] != id then Err(IdentityConflict)
    else if HasOtherKey(g.seasonKeys, id, i) then Err(IdentityConflict)
    else if k in g.seasonKeys then Ok(g)
    else if id !in g.seasons then Err(Database)
    else Ok(g.(seasonKeys := g.seasonKeys[k := id]))
  }

  function SetEpisodeKey(g: Graph, id: Id, i: Identifier, s: Source): Result<Graph, CatalogError> {
    var k := Key(i.namespace, i.external);
    if !Valid(i) then Err(InvalidMetadata)
    else if Unsupplied(g, EpisodeLevel, id, s).Some? then Err(Unsupplied(g, EpisodeLevel, id, s).value)
    else if i.namespace.Imdb? && TitleOwnsImdb(g, i.external) then Err(IdentityConflict)
    else if k in g.episodeKeys && g.episodeKeys[k] != id then Err(IdentityConflict)
    else if HasOtherKey(g.episodeKeys, id, i) then Err(IdentityConflict)
    else if k in g.episodeKeys then Ok(g)
    else if id !in g.episodes then Err(Database)
    else Ok(g.(episodeKeys := g.episodeKeys[k := id]))
  }

  lemma WithTitleKeys(g: Graph, keys: map<TitleKey, Id>)
    requires GraphOk(g) && TitleKeysOk(keys, g.titles) && ImdbSeparate(keys, g.episodeKeys)
    ensures GraphOk(g.(titleKeys := keys))
  {
    hide Placed, TitleKeysOk, SeasonKeysOk, EpisodeKeysOk, ImdbSeparate, InfosOk, PagesOk, KindsOk, SeriesOf;
  }

  lemma WithSeasonKeys(g: Graph, keys: map<Key, Id>)
    requires GraphOk(g) && SeasonKeysOk(keys, g.seasons.Keys)
    ensures GraphOk(g.(seasonKeys := keys))
  {
    hide Placed, TitleKeysOk, SeasonKeysOk, EpisodeKeysOk, ImdbSeparate, InfosOk, PagesOk, KindsOk, SeriesOf;
  }

  lemma WithEpisodeKeys(g: Graph, keys: map<Key, Id>)
    requires GraphOk(g) && EpisodeKeysOk(keys, g.episodes.Keys) && ImdbSeparate(g.titleKeys, keys)
    ensures GraphOk(g.(episodeKeys := keys))
  {
    hide Placed, TitleKeysOk, SeasonKeysOk, EpisodeKeysOk, ImdbSeparate, InfosOk, PagesOk, KindsOk, SeriesOf;
  }

  lemma GraphParts(g: Graph)
    requires GraphOk(g)
    ensures TitleKeysOk(g.titleKeys, g.titles) && ImdbSeparate(g.titleKeys, g.episodeKeys)
    ensures SeasonKeysOk(g.seasonKeys, g.seasons.Keys) && EpisodeKeysOk(g.episodeKeys, g.episodes.Keys)
    ensures Placed(g.seasons, SeriesOf(g.titles)) && Placed(g.episodes, g.seasons.Keys)
    ensures InfosOk(SeasonLevel, g.seasonInfo, g.seasons.Keys) && InfosOk(EpisodeLevel, g.episodeInfo, g.episodes.Keys)
    ensures InfosOk(TitleLevel, g.titleInfo, g.titles.Keys) && PagesOk(g.pages, g.titles) && KindsOk(g.titles, g.titleInfo)
  {
    hide Placed, TitleKeysOk, SeasonKeysOk, EpisodeKeysOk, ImdbSeparate, InfosOk, PagesOk, KindsOk, SeriesOf;
  }

  /** A recorded identifier belongs to the title alone, and no other identifier changed hands. */
  lemma SetTitleKeyRecords(g: Graph, id: Id, kind: Kind, i: Identifier, s: Source)
    requires GraphOk(g) && SetTitleKey(g, id, kind, i, s).Ok?
    ensures var h := SetTitleKey(g, id, kind, i, s).value; var k := TitleKey(i.namespace, kind, i.external);
            && GraphOk(h) && k in h.titleKeys && h.titleKeys[k] == id
            && (forall q :: q in g.titleKeys ==> q in h.titleKeys && h.titleKeys[q] == g.titleKeys[q])
            && h == g.(titleKeys := h.titleKeys)
  {
    hide GraphOk, HasOtherTitleKey, EpisodeOwnsImdb, Valid, Unsupplied;
    if TitleKey(i.namespace, kind, i.external) !in g.titleKeys {
      InsertTitleKey(g, id, kind, i);
    }
  }

  lemma InsertTitleKey(g: Graph, id: Id, kind: Kind, i: Identifier)
    requires GraphOk(g) && id in g.titles && g.titles[id] == kind && !HasOtherTitleKey(g.titleKeys, id, i)
    requires TitleKey(i.namespace, kind, i.external) !in g.titleKeys
    requires i.namespace.Imdb? ==> !EpisodeOwnsImdb(g, i.external) && TitleKey(Imdb, Other(kind), i.external) !in g.titleKeys
    ensures GraphOk(g.(titleKeys := g.titleKeys[TitleKey(i.namespace, kind, i.external) := id]))
  {
    GraphParts(g);
    hide GraphOk, TitleKeysOk, ImdbSeparate, HasOtherTitleKey, EpisodeOwnsImdb;
    NewTitleKeyOk(g, id, kind, i);
    WithTitleKeys(g, g.titleKeys[TitleKey(i.namespace, kind, i.external) := id]);
  }

  lemma NewTitleKeyOk(g: Graph, id: Id, kind: Kind, i: Identifier)
    requires TitleKeysOk(g.titleKeys, g.titles) && ImdbSeparate(g.titleKeys, g.episodeKeys)
    requires id in g.titles && g.titles[id] == kind && !HasOtherTitleKey(g.titleKeys, id, i)
    requires TitleKey(i.namespace, kind, i.external) !in g.titleKeys
    requires i.namespace.Imdb? ==> !EpisodeOwnsImdb(g, i.external) && TitleKey(Imdb, Other(kind), i.external) !in g.titleKeys
    ensures var keys := g.titleKeys[TitleKey(i.namespace, kind, i.external) := id];
            TitleKeysOk(keys, g.titles) && ImdbSeparate(keys, g.episodeKeys)
  {
    var k := TitleKey(i.namespace, kind, i.external);
    var keys := g.titleKeys[k := id];
    forall q | q in g.titleKeys && g.titleKeys[q] == id ensures q.namespace != k.namespace {
      SameTitleKey(q, k);
    }
    if k.namespace.Imdb? {
      forall q | q in g.episodeKeys && q.namespace.Imdb? ensures q.external != k.external {
        assert q == Key(Imdb, q.external);
      }
      forall q | q in g.titleKeys && q.namespace.Imdb? ensures q.external != k.external {
        SameTitleKey(q, k);
        SameTitleKey(q, TitleKey(Imdb, Other(kind), i.external));
      }
    }
  }

  lemma SameTitleKey(q: TitleKey, k: TitleKey)
    ensures q.namespace == k.namespace && q.external == k.external && q.kind == k.kind ==> q == k
    ensures q.kind == k.kind || q.kind == Other(k.kind)
  {
  }

  lemma SetSeasonKeyRecords(g: Graph, id: Id, i: Identifier, s: Source)
    requires GraphOk(g) && SetSeasonKey(g, id, i, s).Ok?
    ensures var h := SetSeasonKey(g, id, i, s).value;
            && GraphOk(h) && Key(i.namespace, i.external) in h.seasonKeys && h.seasonKeys[Key(i.namespace, i.external)] == id
            && (forall q :: q in g.seasonKeys ==> q in h.seasonKeys && h.seasonKeys[q] == g.seasonKeys[q])
            && h == g.(seasonKeys := h.seasonKeys)
  {
    hide GraphOk, HasOtherKey, Valid, Unsupplied;
    if Key(i.namespace, i.external) !in g.seasonKeys {
      InsertSeasonKey(g, id, i);
    }
  }

  lemma InsertSeasonKey(g: Graph, id: Id, i: Identifier)
    requires GraphOk(g) && id in g.seasons && i.namespace.Tmdb? && Key(i.namespace, i.external) !in g.seasonKeys
    requires !HasOtherKey(g.seasonKeys, id, i)
    ensures GraphOk(g.(seasonKeys := g.seasonKeys[Key(i.namespace, i.external) := id]))
  {
    GraphParts(g);
    hide GraphOk, HasOtherKey, SeasonKeysOk;
    NewSeasonKeyOk(g.seasonKeys, g.seasons.Keys, id, i);
    WithSeasonKeys(g, g.seasonKeys[Key(i.namespace, i.external) := id]);
  }

  lemma SetEpisodeKeyRecords(g: Graph, id: Id, i: Identifier, s: Source)
    requires GraphOk(g) && SetEpisodeKey(g, id, i, s).Ok?
    ensures var h := SetEpisodeKey(g, id, i, s).value;
            && GraphOk(h) && Key(i.namespace, i.external) in h.episodeKeys && h.episodeKeys[Key(i.namespace, i.external)] == id
            && (forall q :: q in g.episodeKeys ==> q in h.episodeKeys && h.episodeKeys[q] == g.episodeKeys[q])
            && h == g.(episodeKeys := h.episodeKeys)
  {
    hide GraphOk, HasOtherKey, TitleOwnsImdb, Valid, Unsupplied;
    if Key(i.namespace, i.external) !in g.episodeKeys {
      InsertEpisodeKey(g, id, i);
    }
  }

  lemma InsertEpisodeKey(g: Graph, id: Id, i: Identifier)
    requires GraphOk(g) && id in g.episodes && Key(i.namespace, i.external) !in g.episodeKeys
    requires !HasOtherKey(g.episodeKeys, id, i) && (i.namespace.Imdb? ==> !TitleOwnsImdb(g, i.external))
    ensures GraphOk(g.(episodeKeys := g.episodeKeys[Key(i.namespace, i.external) := id]))
  {
    GraphParts(g);
    hide GraphOk, HasOtherKey, EpisodeKeysOk, ImdbSeparate, TitleOwnsImdb;
    NewEpisodeKeyOk(g.episodeKeys, g.episodes.Keys, id, i);
    NewEpisodeKeySeparate(g, id, i);
    WithEpisodeKeys(g, g.episodeKeys[Key(i.namespace, i.external) := id]);
  }

  lemma NewEpisodeKeySeparate(g: Graph, id: Id, i: Identifier)
    requires ImdbSeparate(g.titleKeys, g.episodeKeys) && (i.namespace.Imdb? ==> !TitleOwnsImdb(g, i.external))
    ensures ImdbSeparate(g.titleKeys, g.episodeKeys[Key(i.namespace, i.external) := id])
  {
    if i.namespace.Imdb? {
      forall q | q in g.titleKeys && q.namespace.Imdb? ensures q.external != i.external {
        SameTitleKey(q, TitleKey(Imdb, Movie, i.external));
        SameTitleKey(q, TitleKey(Imdb, Series, i.external));
      }
    }
  }

  lemma NewKeyOk(keys: map<Key, Id>, id: Id, i: Identifier)
    requires OnePerNamespace(keys)
    ensures Key(i.namespace, i.external) !in keys && !HasOtherKey(keys, id, i) ==>
              OnePerNamespace(keys[Key(i.namespace, i.external) := id])
  {
    var k := Key(i.namespace, i.external);
    forall q | q in keys && q.namespace == k.namespace && q.external == k.external ensures q == k {}
  }

  lemma NewSeasonKeyOk(keys: map<Key, Id>, ids: set<Id>, id: Id, i: Identifier)
    requires SeasonKeysOk(keys, ids) && id in ids && i.namespace.Tmdb? && Key(i.namespace, i.external) !in keys
    requires !HasOtherKey(keys, id, i)
    ensures SeasonKeysOk(keys[Key(i.namespace, i.external) := id], ids)
  {
    NewKeyOk(keys, id, i);
    hide OnePerNamespace, HasOtherKey;
  }

  lemma NewEpisodeKeyOk(keys: map<Key, Id>, ids: set<Id>, id: Id, i: Identifier)
    requires EpisodeKeysOk(keys, ids) && id in ids && Key(i.namespace, i.external) !in keys && !HasOtherKey(keys, id, i)
    ensures EpisodeKeysOk(keys[Key(i.namespace, i.external) := id], ids)
  {
    NewKeyOk(keys, id, i);
    hide OnePerNamespace, HasOtherKey;
  }

  // ----- Seasons and episodes -----

  predicate Taken(rows: map<Id, Row>, p: Id, n: nat) { exists x :: x in rows && rows[x] == Row(p, n) }

  /** Inserts the season unless its coordinate exists. */
  function AddSeason(g: Graph, series: Id, number: nat, id: Id): Result<Graph, CatalogError> {
    if Taken(g.seasons, series, number) then Ok(g)
    else if series !in g.titles || !g.titles[series].Series? then Err(Database)
    else Ok(g.(seasons := g.seasons[id := Row(series, number)], seasonInfo := g.seasonInfo[id := NewInfo()]))
  }

  /** Episode zero is refused. */
  function AddEpisode(g: Graph, season: Id, number: nat, id: Id): Result<Graph, CatalogError> {
    if number == 0 then Err(InvalidMetadata)
    else if Taken(g.episodes, season, number) then Ok(g)
    else if season !in g.seasons then Err(Database)
    else Ok(g.(episodes := g.episodes[id := Row(season, number)], episodeInfo := g.episodeInfo[id := NewInfo()]))
  }

  lemma NewInfoOk(level: Level, infos: map<Id, Info>, ids: set<Id>, id: Id)
    requires InfosOk(level, infos, ids)
    ensures InfosOk(level, infos[id := NewInfo()], ids + {id})
  {
  }

  lemma NewRowPlaced(rows: map<Id, Row>, parents: set<Id>, p: Id, n: nat, id: Id)
    requires Placed(rows, parents) && !Taken(rows, p, n) && id !in rows && p in parents
    ensures Placed(rows[id := Row(p, n)], parents) && rows[id := Row(p, n)].Keys == rows.Keys + {id}
  {
  }

  lemma WithSeason(g: Graph, seasons: map<Id, Row>, infos: map<Id, Info>, id: Id)
    requires GraphOk(g) && Placed(seasons, SeriesOf(g.titles)) && InfosOk(SeasonLevel, infos, seasons.Keys)
    requires seasons.Keys == g.seasons.Keys + {id}
    ensures GraphOk(g.(seasons := seasons, seasonInfo := infos))
  {
    hide Placed, TitleKeysOk, SeasonKeysOk, EpisodeKeysOk, ImdbSeparate, InfosOk, PagesOk, KindsOk, SeriesOf;
    PlacedWider(g.episodes, g.seasons.Keys, seasons.Keys);
    KeysWider(g.seasonKeys, g.seasons.Keys, seasons.Keys);
  }

  lemma PlacedWider(rows: map<Id, Row>, parents: set<Id>, more: set<Id>)
    requires Placed(rows, parents) && parents <= more
    ensures Placed(rows, more)
  {
    hide UniqueRows;
  }

  lemma KeysWider(keys: map<Key, Id>, ids: set<Id>, more: set<Id>)
    requires ids <= more
    ensures SeasonKeysOk(keys, ids) ==> SeasonKeysOk(keys, more)
    ensures EpisodeKeysOk(keys, ids) ==> EpisodeKeysOk(keys, more)
  {
    hide OnePerNamespace;
  }

  lemma WithEpisode(g: Graph, episodes: map<Id, Row>, infos: map<Id, Info>, id: Id)
    requires GraphOk(g) && Placed(episodes, g.seasons.Keys) && InfosOk(EpisodeLevel, infos, episodes.Keys)
    requires episodes.Keys == g.episodes.Keys + {id}
    ensures GraphOk(g.(episodes := episodes, episodeInfo := infos))
  {
    hide Placed, TitleKeysOk, SeasonKeysOk, EpisodeKeysOk, ImdbSeparate, InfosOk, PagesOk, KindsOk, SeriesOf;
    KeysWider(g.episodeKeys, g.episodes.Keys, episodes.Keys);
  }

  /** After adding, the coordinate is held, by one season only. */
  lemma AddSeasonKeepsRules(g: Graph, series: Id, number: nat, id: Id)
    requires GraphOk(g) && id !in g.seasons && AddSeason(g, series, number, id).Ok?
    ensures var h := AddSeason(g, series, number, id).value; GraphOk(h) && Taken(h.seasons, series, number)
  {
    GraphParts(g);
    if !Taken(g.seasons, series, number) {
      NewInfoOk(SeasonLevel, g.seasonInfo, g.seasons.Keys, id);
      NewRowPlaced(g.seasons, SeriesOf(g.titles), series, number, id);
      assert g.seasons[id := Row(series, number)][id] == Row(series, number);
      hide GraphOk, Placed, InfosOk, NewInfo;
      WithSeason(g, g.seasons[id := Row(series, number)], g.seasonInfo[id := NewInfo()], id);
    }
  }

  lemma AddEpisodeKeepsRules(g: Graph, season: Id, number: nat, id: Id)
    requires GraphOk(g) && id !in g.episodes && AddEpisode(g, season, number, id).Ok?
    ensures var h := AddEpisode(g, season, number, id).value; GraphOk(h) && Taken(h.episodes, season, number)
  {
    GraphParts(g);
    if !Taken(g.episodes, season, number) {
      NewInfoOk(EpisodeLevel, g.episodeInfo, g.episodes.Keys, id);
      NewRowPlaced(g.episodes, g.seasons.Keys, season, number, id);
      assert g.episodes[id := Row(season, number)][id] == Row(season, number);
      hide GraphOk, Placed, InfosOk, NewInfo;
      WithEpisode(g, g.episodes[id := Row(season, number)], g.episodeInfo[id := NewInfo()], id);
    }
  }

  // ----- Writes to one entity -----

  function Infos(g: Graph, level: Level): map<Id, Info> {
    match level case TitleLevel => g.titleInfo case SeasonLevel => g.seasonInfo case EpisodeLevel => g.episodeInfo
  }

  function WithInfos(g: Graph, level: Level, infos: map<Id, Info>): Graph {
    match level
    case TitleLevel => g.(titleInfo := infos)
    case SeasonLevel => g.(seasonInfo := infos)
    case EpisodeLevel => g.(episodeInfo := infos)
  }

  /** Supplied facts need a fetch that supplies the entity. */
  predicate IsSupplied(w: Write) { w.WriteFields? || w.WriteRating? }

  function EntitySort(g: Graph, level: Level, id: Id): Sort {
    match level
    case TitleLevel => if id in g.titles then SortOf(g.titles[id]) else SeriesTitle
    case SeasonLevel => OneSeason
    case EpisodeLevel => OneEpisode
  }

  /** Of titles only movies have sources and are played. */
  predicate Playable(g: Graph, level: Level, id: Id) { level.TitleLevel? ==> id in g.titles && g.titles[id].Movie? }

  function WriteAt(g: Graph, level: Level, id: Id, w: Write, s: Source, order: seq<ProviderId>)
    : Result<Graph, CatalogError>
  {
    if id !in Infos(g, level) then Err(MissingIdentity)
    else if IsSupplied(w) && Unsupplied(g, level, id, s).Some? then Err(Unsupplied(g, level, id, s).value)
    else if (w.Play? || w.SaveSnapshot?) && !Playable(g, level, id) then Err(InvalidMetadata)
    else
      match WriteInfo(EntitySort(g, level, id), Infos(g, level)[id], w, order)
      case Err(e) => Err(e)
      case Ok(info) => Ok(WithInfos(g, level, Infos(g, level)[id := info]))
  }

  lemma WithInfosOk(g: Graph, level: Level, infos: map<Id, Info>)
    requires GraphOk(g) && infos.Keys == Infos(g, level).Keys && forall x :: x in infos ==> InfoOk(level, infos[x])
    requires level.TitleLevel? ==> KindsOk(g.titles, infos)
    ensures GraphOk(WithInfos(g, level, infos))
  {
    hide Placed, TitleKeysOk, SeasonKeysOk, EpisodeKeysOk, ImdbSeparate, PagesOk, KindsOk, SeriesOf, InfoOk;
  }

  lemma InfosAreOk(g: Graph, level: Level)
    requires GraphOk(g)
    ensures forall x :: x in Infos(g, level) ==> InfoOk(level, Infos(g, level)[x])
  {
    hide PlacesOk, KeysOk, PagesOk, KindsOk, InfoOk;
  }

  lemma WriteAtIs(g: Graph, level: Level, id: Id, w: Write, s: Source, order: seq<ProviderId>)
    requires WriteAt(g, level, id, w, s, order).Ok?
    ensures id in Infos(g, level) && WriteInfo(EntitySort(g, level, id), Infos(g, level)[id], w, order).Ok?
    ensures WriteAt(g, level, id, w, s, order).value
         == WithInfos(g, level, Infos(g, level)[id := WriteInfo(EntitySort(g, level, id), Infos(g, level)[id], w, order).value])
  {
    hide WriteInfo, Unsupplied, Playable, Infos, WithInfos;
  }

  lemma InfosWith(g: Graph, level: Level, infos: map<Id, Info>)
    ensures Infos(WithInfos(g, level, infos), level) == infos
    ensures forall other :: other != level ==> Infos(WithInfos(g, level, infos), other) == Infos(g, other)
    ensures WithInfos(g, level, infos)
         == g.(titleInfo := Infos(WithInfos(g, level, infos), TitleLevel), seasonInfo := Infos(WithInfos(g, level, infos), SeasonLevel),
               episodeInfo := Infos(WithInfos(g, level, infos), EpisodeLevel))
  {
  }

  lemma InfosAreOwn(g: Graph, level: Level, id: Id)
    requires GraphOk(g) && id in Infos(g, level)
    ensures OwnColumns(EntitySort(g, level, id), Infos(g, level)[id])
  {
    hide PlacesOk, KeysOk, PagesOk, InfoOk;
  }

  lemma PutKindsOk(g: Graph, level: Level, id: Id, info: Info)
    requires GraphOk(g) && id in Infos(g, level) && OwnColumns(EntitySort(g, level, id), info)
    ensures level.TitleLevel? ==> KindsOk(g.titles, Infos(g, level)[id := info])
  {
    hide PlacesOk, KeysOk, PagesOk, InfoOk, OwnColumns;
  }

  lemma SortHasLevel(g: Graph, level: Level, id: Id)
    ensures LevelOf(EntitySort(g, level, id)) == level
  {
  }

  lemma PutInfo(g: Graph, level: Level, id: Id, info: Info)
    requires GraphOk(g) && id in Infos(g, level) && InfoOk(level, info) && OwnColumns(EntitySort(g, level, id), info)
    ensures var infos := Infos(g, level)[id := info]; GraphOk(WithInfos(g, level, infos)) && infos.Keys == Infos(g, level).Keys
  {
    hide *;
    InfosAreOk(g, level);
    var infos := Infos(g, level)[id := info];
    assert infos.Keys == Infos(g, level).Keys;
    PutKindsOk(g, level, id, info);
    WithInfosOk(g, level, infos);
  }

  /** h is g with one entity's information replaced. */
  ghost predicate OnlyAt(g: Graph, h: Graph, level: Level, id: Id) {
    && h == WithInfos(g, level, Infos(h, level)) && Infos(h, level).Keys == Infos(g, level).Keys
    && forall x :: x in Infos(g, level) && x != id ==> Infos(h, level)[x] == Infos(g, level)[x]
  }

  lemma PutInfoOnlyAt(g: Graph, level: Level, id: Id, info: Info)
    requires id in Infos(g, level)
    ensures OnlyAt(g, WithInfos(g, level, Infos(g, level)[id := info]), level, id)
  {
    InfosWith(g, level, Infos(g, level)[id := info]);
    hide Infos, WithInfos;
    assert Infos(g, level)[id := info].Keys == Infos(g, level).Keys;
  }

  /** An accepted write keeps every rule and touches that entity alone. */
  lemma WriteAtKeepsRules(g: Graph, level: Level, id: Id, w: Write, s: Source, order: seq<ProviderId>)
    requires GraphOk(g) && WriteAt(g, level, id, w, s, order).Ok?
    ensures var h := WriteAt(g, level, id, w, s, order).value; GraphOk(h) && OnlyAt(g, h, level, id)
  {
    hide *;
    WriteAtIs(g, level, id, w, s, order);
    InfosAreOk(g, level);
    InfosAreOwn(g, level, id);
    SortHasLevel(g, level, id);
    WriteKeepsKind(EntitySort(g, level, id), Infos(g, level)[id], w, order);
    var info := WriteInfo(EntitySort(g, level, id), Infos(g, level)[id], w, order).value;
    WriteKeepsInfo(EntitySort(g, level, id), Infos(g, level)[id], w, order);
    PutInfo(g, level, id, info);
    PutInfoOnlyAt(g, level, id, info);
  }
}
