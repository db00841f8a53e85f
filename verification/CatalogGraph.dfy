/**
 The catalog as one graph: titles own seasons, seasons own episodes, external identifiers and
 page rows name their owner. `MergedGraph` says what identifying two titles means, without any
 order of steps: everything that names a loser names its winner, and equal coordinates meet.
 */
module CatalogGraph {
  import opened Util
  import opened ProviderPriority
  import opened EntityInfo
  import opened Renaming
  import Pages

  datatype Kind = Movie | Series

  datatype Namespace = Imdb | Tmdb

  /** An external identifier; titles of different kinds have separate identifiers, except on IMDb. */
  datatype TitleKey = TitleKey(namespace: Namespace, kind: Kind, external: string)

  /** Seasons have TMDB identifiers only. */
  datatype Key = Key(namespace: Namespace, external: string)

  datatype Graph = Graph(
    titles: map<Id, Kind>,
    seasons: map<Id, Row>,
    episodes: map<Id, Row>,
    titleKeys: map<TitleKey, Id>,
    seasonKeys: map<Key, Id>,
    episodeKeys: map<Key, Id>,
    titleInfo: map<Id, Info>,
    seasonInfo: map<Id, Info>,
    episodeInfo: map<Id, Info>,
    pages: map<Id, Pages.Page>)

  // ----- The rules of the tables -----

  /** At most one identifier per namespace. */
  ghost predicate OnePerNamespace(keys: map<Key, Id>) {
    forall k, q :: k in keys && q in keys && keys[k] == keys[q] && k.namespace == q.namespace ==> k == q
  }

  ghost predicate TitleKeysOk(keys: map<TitleKey, Id>, titles: map<Id, Kind>) {
    && (forall k :: k in keys ==> keys[k] in titles && titles[keys[k]] == k.kind)
    && (forall k, q :: k in keys && q in keys && keys[k] == keys[q] && k.namespace == q.namespace ==> k == q)
    && (forall k, q :: k in keys && q in keys && k.namespace.Imdb? && q.namespace.Imdb? && k.external == q.external ==> k == q)
  }

  /** An IMDb identifier names a title or an episode, never both. */
  ghost predicate ImdbSeparate(titleKeys: map<TitleKey, Id>, episodeKeys: map<Key, Id>) {
    forall k, q :: k in titleKeys && q in episodeKeys && k.namespace.Imdb? && q.namespace.Imdb? ==> k.external != q.external
  }

  ghost predicate PagesOk(pages: map<Id, Pages.Page>, titles: map<Id, Kind>) {
    forall p :: p in pages ==> Pages.PageOk(pages[p]) && forall t :: t in Pages.Titles(pages[p].items) ==> t in titles
  }

  /** Rows have unique coordinates and an existing parent. */
  ghost predicate Placed(rows: map<Id, Row>, parents: set<Id>) {
    UniqueRows(rows) && forall x :: x in rows ==> rows[x].parent in parents
  }

  function SeriesOf(titles: map<Id, Kind>): set<Id> { set t | t in titles && titles[t].Series? }

  ghost predicate SeasonKeysOk(keys: map<Key, Id>, seasons: set<Id>) {
    OnePerNamespace(keys) && forall k :: k in keys ==> keys[k] in seasons && k.namespace.Tmdb?
  }

  ghost predicate EpisodeKeysOk(keys: map<Key, Id>, episodes: set<Id>) {
    OnePerNamespace(keys) && forall k :: k in keys ==> keys[k] in episodes
  }

  ghost predicate PlacesOk(g: Graph) {
    Placed(g.seasons, SeriesOf(g.titles)) && Placed(g.episodes, g.seasons.Keys)
  }

  ghost predicate KeysOk(g: Graph) {
    && TitleKeysOk(g.titleKeys, g.titles) && ImdbSeparate(g.titleKeys, g.episodeKeys)
    && SeasonKeysOk(g.seasonKeys, g.seasons.Keys) && EpisodeKeysOk(g.episodeKeys, g.episodes.Keys)
  }

  ghost predicate InfosOk(level: Level, infos: map<Id, Info>, ids: set<Id>) {
    infos.Keys == ids && forall x :: x in infos ==> InfoOk(level, infos[x])
  }

  ghost predicate AllInfosOk(g: Graph) {
    && InfosOk(TitleLevel, g.titleInfo, g.titles.Keys)
    && InfosOk(SeasonLevel, g.seasonInfo, g.seasons.Keys)
    && InfosOk(EpisodeLevel, g.episodeInfo, g.episodes.Keys)
  }

  function SortOf(kind: Kind): Sort { if kind.Movie? then MovieTitle else SeriesTitle }

  /** Movies have no air dates or counts, series no release date. */
  ghost predicate KindsOk(titles: map<Id, Kind>, infos: map<Id, Info>) {
    forall t :: t in titles && t in infos ==> OwnColumns(SortOf(titles[t]), infos[t])
  }

  ghost predicate GraphOk(g: Graph) {
    PlacesOk(g) && KeysOk(g) && AllInfosOk(g) && PagesOk(g.pages, g.titles) && KindsOk(g.titles, g.titleInfo)
  }

  // ----- Merging what is kept about entities -----

  ghost predicate HasLoser(r: map<Id, Id>, x: Id) { exists l :: l in r && r[l] == x }

  ghost function Loser(r: map<Id, Id>, x: Id): (l: Id)
    requires HasLoser(r, x)
    ensures l in r && r[l] == x
  {
    var l :| l in r && r[l] == x;
    l
  }

  /** The merge when it succeeds. */
  function Merged(level: Level, winner: Info, loser: Info, order: seq<ProviderId>): Info {
    match MergeInfo(level, winner, loser, order) case Ok(info) => info case Err(_) => winner
  }

  ghost function InfoAfter(level: Level, infos: map<Id, Info>, r: map<Id, Id>, order: seq<ProviderId>): map<Id, Info> {
    map x | x in infos && x !in r ::
      if HasLoser(r, x) && Loser(r, x) in infos then Merged(level, infos[x], infos[Loser(r, x)], order) else infos[x]
  }

  ghost predicate InfoMerges(level: Level, infos: map<Id, Info>, r: map<Id, Id>, order: seq<ProviderId>) {
    forall l :: l in r ==> l in infos && r[l] in infos && MergeInfo(level, infos[r[l]], infos[l], order).Ok?
  }

  lemma ApartHasNoLoser(r: map<Id, Id>, q: map<Id, Id>, y: Id)
    requires Apart(r, q) && y in q
    ensures !HasLoser(r, y) && y !in r
  {
  }

  /** Merging along apart renamings one after the other is merging along both. */
  lemma InfoTwice(level: Level, infos: map<Id, Info>, r: map<Id, Id>, q: map<Id, Id>, order: seq<ProviderId>)
    requires Good(r) && Good(q) && Apart(r, q)
    ensures InfoAfter(level, InfoAfter(level, infos, r, order), q, order) == InfoAfter(level, infos, r + q, order)
  {
    hide Merged;
    var once := InfoAfter(level, infos, r, order);
    forall x | x in infos && x !in r && x !in q
      ensures InfoAfter(level, once, q, order)[x] == InfoAfter(level, infos, r + q, order)[x]
    {
      InfoTwiceAt(level, infos, r, q, order, x);
    }
  }

  lemma InfoTwiceAt(level: Level, infos: map<Id, Info>, r: map<Id, Id>, q: map<Id, Id>, order: seq<ProviderId>, x: Id)
    requires Good(r) && Good(q) && Apart(r, q) && x in infos && x !in r && x !in q
    ensures x in InfoAfter(level, infos, r, order)
    ensures InfoAfter(level, InfoAfter(level, infos, r, order), q, order)[x] == InfoAfter(level, infos, r + q, order)[x]
  {
    hide Merged;
    var once := InfoAfter(level, infos, r, order);
    var both := r + q;
    if HasLoser(r, x) {
      LoserOfUnion(r, q, x);
      assert !HasLoser(q, x);
    } else if HasLoser(q, x) {
      LoserOfUnion(q, r, x);
      assert both == q + r;
      ApartHasNoLoser(r, q, Loser(q, x));
    } else {
      assert !HasLoser(both, x);
    }
  }

  lemma LoserOfUnion(r: map<Id, Id>, q: map<Id, Id>, x: Id)
    requires Good(r) && Apart(r, q) && HasLoser(r, x)
    ensures HasLoser(r + q, x) && Loser(r + q, x) == Loser(r, x)
  {
    var l := Loser(r, x);
    assert (r + q)[l] == x;
  }

  /** Entities not involved are unchanged. */
  lemma InfoElsewhere(level: Level, infos: map<Id, Info>, r: map<Id, Id>, order: seq<ProviderId>, x: Id)
    requires x in infos && x !in r && forall l :: l in r ==> r[l] != x
    ensures x in InfoAfter(level, infos, r, order) && InfoAfter(level, infos, r, order)[x] == infos[x]
  {
    hide Merged;
  }

  lemma InfoAfterOk(level: Level, infos: map<Id, Info>, ids: set<Id>, r: map<Id, Id>, order: seq<ProviderId>)
    requires InfosOk(level, infos, ids) && InfoMerges(level, infos, r, order)
    ensures InfosOk(level, InfoAfter(level, infos, r, order), ids - r.Keys)
  {
    var after := InfoAfter(level, infos, r, order);
    forall x | x in after ensures InfoOk(level, after[x]) {
      if HasLoser(r, x) {
        var l := Loser(r, x);
        InfoMergesIff(level, infos[x], infos[l], order);
      }
    }
  }

  // ----- Identifying two titles -----

  ghost function SeasonPairs(g: Graph, w: Id, l: Id): map<Id, Id> { PairsUnder(g.seasons, map[l := w]) }

  ghost function EpisodePairs(g: Graph, w: Id, l: Id): map<Id, Id> { PairsUnder(g.episodes, SeasonPairs(g, w, l)) }

  function PagesAfter(pages: map<Id, Pages.Page>, w: Id, l: Id): map<Id, Pages.Page> {
    map p | p in pages :: Pages.MergePage(pages[p], w, l)
  }

  ghost function MergedGraph(g: Graph, w: Id, l: Id, order: seq<ProviderId>): Graph {
    var t, s, e := map[l := w], SeasonPairs(g, w, l), EpisodePairs(g, w, l);
    Graph(g.titles - {l}, RowsAfter(g.seasons, s, t), RowsAfter(g.episodes, e, s),
          KeysAfter(g.titleKeys, t), KeysAfter(g.seasonKeys, s), KeysAfter(g.episodeKeys, e),
          InfoAfter(TitleLevel, g.titleInfo, t, order), InfoAfter(SeasonLevel, g.seasonInfo, s, order),
          InfoAfter(EpisodeLevel, g.episodeInfo, e, order), PagesAfter(g.pages, w, l))
  }

  /** Two entities claim different identifiers in one namespace. */
  predicate Conflict(keys: map<Key, Id>, w: Id, l: Id) {
    exists k, q :: k in keys && q in keys && keys[k] == w && keys[q] == l && k.namespace == q.namespace && k.external != q.external
  }

  predicate TitleConflict(keys: map<TitleKey, Id>, w: Id, l: Id) {
    exists k, q :: k in keys && q in keys && keys[k] == w && keys[q] == l && k.namespace == q.namespace && k.external != q.external
  }

  ghost predicate NoConflicts(keys: map<Key, Id>, r: map<Id, Id>) { forall l :: l in r ==> !Conflict(keys, r[l], l) }

  /** Nothing in the two graphs contradicts that the titles are one. */
  ghost predicate Compatible(g: Graph, w: Id, l: Id)
    requires w in g.titles && l in g.titles
  {
    && g.titles[w] == g.titles[l]
    && !TitleConflict(g.titleKeys, w, l)
    && NoConflicts(g.seasonKeys, SeasonPairs(g, w, l))
    && NoConflicts(g.episodeKeys, EpisodePairs(g, w, l))
  }

  /** The stronger dates and years of every identified pair agree. */
  ghost predicate Mergeable(g: Graph, w: Id, l: Id, order: seq<ProviderId>) {
    && InfoMerges(TitleLevel, g.titleInfo, map[l := w], order)
    && InfoMerges(SeasonLevel, g.seasonInfo, SeasonPairs(g, w, l), order)
    && InfoMerges(EpisodeLevel, g.episodeInfo, EpisodePairs(g, w, l), order)
  }
}
