/**
 The merge of two titles one row at a time: what the tables hold after some children of the
 loser have been handled, in whatever order, and that handling them all gives `MergedGraph`.
 */
module CatalogSteps {
  import opened Util
  import opened ProviderPriority
  import opened EntityInfo
  import opened Renaming
  import opened CatalogGraph
  import opened CatalogIdentity

  // ----- One entity -----

  ghost function DropEpisode(g: Graph, w: Id, l: Id, order: seq<ProviderId>): Graph {
    var t := map[l := w];
    g.(episodes := g.episodes - {l}, episodeKeys := KeysAfter(g.episodeKeys, t),
       episodeInfo := InfoAfter(EpisodeLevel, g.episodeInfo, t, order))
  }

  function MoveEpisode(g: Graph, c: Id, w: Id): Graph
    requires c in g.episodes
  {
    g.(episodes := g.episodes[c := Row(w, g.episodes[c].number)])
  }

  ghost function DropSeason(g: Graph, w: Id, l: Id, order: seq<ProviderId>): Graph {
    var t := map[l := w];
    g.(seasons := g.seasons - {l}, seasonKeys := KeysAfter(g.seasonKeys, t),
       seasonInfo := InfoAfter(SeasonLevel, g.seasonInfo, t, order))
  }

  function MoveSeason(g: Graph, c: Id, w: Id): Graph
    requires c in g.seasons
  {
    g.(seasons := g.seasons[c := Row(w, g.seasons[c].number)])
  }

  ghost function DropTitle(g: Graph, w: Id, l: Id, order: seq<ProviderId>): Graph {
    var t := map[l := w];
    g.(titles := g.titles - {l}, titleKeys := KeysAfter(g.titleKeys, t),
       titleInfo := InfoAfter(TitleLevel, g.titleInfo, t, order), pages := PagesAfter(g.pages, w, l))
  }

  /** The one merge of what is kept about two entities. */
  lemma InfoOfOne(level: Level, infos: map<Id, Info>, w: Id, l: Id, order: seq<ProviderId>)
    requires w in infos && l in infos && w != l
    ensures InfoAfter(level, infos, map[l := w], order) == infos[w := Merged(level, infos[w], infos[l], order)] - {l}
    ensures InfoMerges(level, infos, map[l := w], order) <==> MergeInfo(level, infos[w], infos[l], order).Ok?
  {
    hide Merged, MergeInfo;
    var t := map[l := w];
    assert t[l] == w;
    assert HasLoser(t, w);
  }

  // ----- The episodes of two seasons -----

  ghost function SeasonPart(g: Graph, w: Id, l: Id, done: set<Id>, order: seq<ProviderId>): Graph {
    var r := Only(PairsUnder(g.episodes, map[l := w]), done);
    g.(episodes := PartRows(g.episodes, r, done, w), episodeKeys := KeysAfter(g.episodeKeys, r),
       episodeInfo := InfoAfter(EpisodeLevel, g.episodeInfo, r, order))
  }

  /** The episodes of both seasons are one, and so are the seasons. */
  ghost function SeasonMerged(g: Graph, w: Id, l: Id, order: seq<ProviderId>): Graph {
    var t := map[l := w]; var e := PairsUnder(g.episodes, t);
    g.(episodes := RowsAfter(g.episodes, e, t), episodeKeys := KeysAfter(g.episodeKeys, e),
       episodeInfo := InfoAfter(EpisodeLevel, g.episodeInfo, e, order),
       seasons := g.seasons - {l}, seasonKeys := KeysAfter(g.seasonKeys, t),
       seasonInfo := InfoAfter(SeasonLevel, g.seasonInfo, t, order))
  }

  ghost predicate SeasonMergeable(g: Graph, w: Id, l: Id, order: seq<ProviderId>) {
    && InfoMerges(EpisodeLevel, g.episodeInfo, PairsUnder(g.episodes, map[l := w]), order)
    && InfoMerges(SeasonLevel, g.seasonInfo, map[l := w], order)
  }

  lemma NothingDone<K>(rows: map<Id, Row>, keys: map<K, Id>, level: Level, infos: map<Id, Info>,
                       pairs: map<Id, Id>, w: Id, order: seq<ProviderId>)
    ensures Only(pairs, {}) == map[]
    ensures PartRows(rows, map[], {}, w) == rows && RowsAfter(rows, map[], map[]) == rows
    ensures KeysAfter(keys, map[]) == keys
    ensures InfoAfter(level, infos, map[], order) == infos
    ensures PairsUnder(rows, map[]) == map[]
  {
  }

  /** A matched child is gone; every other row is as it was. */
  lemma RowsMatched(rows: map<Id, Row>, w: Id, l: Id, done: set<Id>, c: Id)
    requires c in Children(rows, l) && c !in done && c in PairsUnder(rows, map[l := w])
    ensures var pairs := PairsUnder(rows, map[l := w]);
            PartRows(rows, Only(pairs, done), done, w) - {c} == PartRows(rows, Only(pairs, done + {c}), done + {c}, w)
  {
    hide PairsUnder;
  }

  /** An unmatched child belongs to the winner. */
  lemma RowsMoved(rows: map<Id, Row>, w: Id, l: Id, done: set<Id>, c: Id)
    requires c in Children(rows, l) && c !in done && c !in PairsUnder(rows, map[l := w])
    ensures var pairs := PairsUnder(rows, map[l := w]); var part := PartRows(rows, Only(pairs, done), done, w);
            && c in part
            && part[c := Row(w, part[c].number)] == PartRows(rows, Only(pairs, done + {c}), done + {c}, w)
  {
    hide PairsUnder;
  }

  lemma EpisodeMatched(g: Graph, w: Id, l: Id, done: set<Id>, c: Id, order: seq<ProviderId>)
    requires UniqueRows(g.episodes) && w != l && c in Children(g.episodes, l) && c !in done
    requires c in PairsUnder(g.episodes, map[l := w])
    ensures DropEpisode(SeasonPart(g, w, l, done, order), PairsUnder(g.episodes, map[l := w])[c], c, order)
         == SeasonPart(g, w, l, done + {c}, order)
  {
    var pairs := PairsUnder(g.episodes, map[l := w]);
    var r, q := Only(pairs, done), map[c := pairs[c]];
    PairIsGood(w, l);
    PairsAreGood(g.episodes, map[l := w]);
    OnlyApart(pairs, done, c);
    OnlyMore(pairs, done, c);
    RowsMatched(g.episodes, w, l, done, c);
    KeysTwice(g.episodeKeys, r, q);
    InfoTwice(EpisodeLevel, g.episodeInfo, r, q, order);
    hide PairsUnder, Only, PartRows, KeysAfter, InfoAfter, Children, UniqueRows, Good, Apart;
  }

  lemma EpisodeMoved(g: Graph, w: Id, l: Id, done: set<Id>, c: Id, order: seq<ProviderId>)
    requires c in Children(g.episodes, l) && c !in done && c !in PairsUnder(g.episodes, map[l := w])
    ensures var part := SeasonPart(g, w, l, done, order);
            c in part.episodes && MoveEpisode(part, c, w) == SeasonPart(g, w, l, done + {c}, order)
  {
    var pairs := PairsUnder(g.episodes, map[l := w]);
    OnlyMore(pairs, done, c);
    RowsMoved(g.episodes, w, l, done, c);
    hide PairsUnder, Only, PartRows, KeysAfter, InfoAfter, Children;
  }

  lemma SeasonDone(g: Graph, w: Id, l: Id, order: seq<ProviderId>)
    ensures DropSeason(SeasonPart(g, w, l, Children(g.episodes, l), order), w, l, order) == SeasonMerged(g, w, l, order)
  {
    AllChildrenDone(g.episodes, w, l);
    hide PairsUnder, Only, PartRows, KeysAfter, InfoAfter, RowsAfter, Children;
  }

  // ----- The seasons of two titles -----

  ghost function TitlePart(g: Graph, w: Id, l: Id, done: set<Id>, order: seq<ProviderId>): Graph {
    var s := Only(SeasonPairs(g, w, l), done);
    var e := PairsUnder(g.episodes, s);
    g.(seasons := PartRows(g.seasons, s, done, w), seasonKeys := KeysAfter(g.seasonKeys, s),
       seasonInfo := InfoAfter(SeasonLevel, g.seasonInfo, s, order),
       episodes := RowsAfter(g.episodes, e, s), episodeKeys := KeysAfter(g.episodeKeys, e),
       episodeInfo := InfoAfter(EpisodeLevel, g.episodeInfo, e, order))
  }

  /** One more identified season, table by table: its episodes are untouched so far and add to those done. */
  lemma OneMoreSeason(g: Graph, pairs: map<Id, Id>, done: set<Id>, c: Id, order: seq<ProviderId>,
                      s: map<Id, Id>, q: map<Id, Id>, both: map<Id, Id>, e: map<Id, Id>, p: map<Id, Id>, all: map<Id, Id>)
    requires UniqueRows(g.episodes) && Good(pairs) && c !in done && c in pairs
    requires s == Only(pairs, done) && q == map[c := pairs[c]] && both == Only(pairs, done + {c})
    requires e == PairsUnder(g.episodes, s) && p == PairsUnder(g.episodes, q) && all == PairsUnder(g.episodes, both)
    ensures PairsUnder(RowsAfter(g.episodes, e, s), q) == p
    ensures RowsAfter(RowsAfter(g.episodes, e, s), p, q) == RowsAfter(g.episodes, all, both)
    ensures KeysAfter(KeysAfter(g.seasonKeys, s), q) == KeysAfter(g.seasonKeys, both)
    ensures KeysAfter(KeysAfter(g.episodeKeys, e), p) == KeysAfter(g.episodeKeys, all)
    ensures InfoAfter(SeasonLevel, InfoAfter(SeasonLevel, g.seasonInfo, s, order), q, order)
         == InfoAfter(SeasonLevel, g.seasonInfo, both, order)
    ensures InfoAfter(EpisodeLevel, InfoAfter(EpisodeLevel, g.episodeInfo, e, order), p, order)
         == InfoAfter(EpisodeLevel, g.episodeInfo, all, order)
  {
    hide *;
    OnlyApart(pairs, done, c);
    OnlyMore(pairs, done, c);
    PairsAreGood(g.episodes, s);
    PairsAreGood(g.episodes, q);
    PairsApart(g.episodes, s, q);
    PairsUnion(g.episodes, s, q);
    PairsUntouched(g.episodes, s, q);
    RowsTwice(g.episodes, e, s, p, q);
    KeysTwice(g.seasonKeys, s, q);
    KeysTwice(g.episodeKeys, e, p);
    InfoTwice(SeasonLevel, g.seasonInfo, s, q, order);
    InfoTwice(EpisodeLevel, g.episodeInfo, e, p, order);
  }

  lemma SeasonPairsGood(g: Graph, w: Id, l: Id)
    requires UniqueRows(g.seasons) && w != l
    ensures Good(SeasonPairs(g, w, l))
  {
    PairIsGood(w, l);
    PairsAreGood(g.seasons, map[l := w]);
  }

  lemma SeasonMatched(g: Graph, w: Id, l: Id, done: set<Id>, c: Id, order: seq<ProviderId>)
    requires UniqueRows(g.seasons) && UniqueRows(g.episodes) && w != l
    requires c in Children(g.seasons, l) && c !in done && c in SeasonPairs(g, w, l)
    ensures SeasonMerged(TitlePart(g, w, l, done, order), SeasonPairs(g, w, l)[c], c, order)
         == TitlePart(g, w, l, done + {c}, order)
  {
    var pairs := SeasonPairs(g, w, l);
    var s, q, both := Only(pairs, done), map[c := pairs[c]], Only(pairs, done + {c});
    SeasonPairsGood(g, w, l);
    OneMoreSeason(g, pairs, done, c, order, s, q, both,
                  PairsUnder(g.episodes, s), PairsUnder(g.episodes, q), PairsUnder(g.episodes, both));
    RowsMatched(g.seasons, w, l, done, c);
    hide PairsUnder, Only, PartRows, KeysAfter, InfoAfter, RowsAfter, Children, UniqueRows;
  }

  lemma SeasonMoved(g: Graph, w: Id, l: Id, done: set<Id>, c: Id, order: seq<ProviderId>)
    requires c in Children(g.seasons, l) && c !in done && c !in SeasonPairs(g, w, l)
    ensures var part := TitlePart(g, w, l, done, order);
            c in part.seasons && MoveSeason(part, c, w) == TitlePart(g, w, l, done + {c}, order)
  {
    OnlyMore(SeasonPairs(g, w, l), done, c);
    RowsMoved(g.seasons, w, l, done, c);
    hide PairsUnder, Only, PartRows, KeysAfter, InfoAfter, RowsAfter, Children;
  }

  lemma TitleDone(g: Graph, w: Id, l: Id, order: seq<ProviderId>)
    ensures DropTitle(TitlePart(g, w, l, Children(g.seasons, l), order), w, l, order) == MergedGraph(g, w, l, order)
  {
    AllChildrenDone(g.seasons, w, l);
    hide PairsUnder, Only, PartRows, KeysAfter, InfoAfter, RowsAfter, Children, PagesAfter;
  }
}
