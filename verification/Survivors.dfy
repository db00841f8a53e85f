/**
 What is left of two titles once they are one: every pair of entities that becomes one - the titles, two
 seasons of one number, two episodes of one number in such seasons - leaves a survivor with the rows of both.
 */
module Survivors {
  import opened Util
  import opened ProviderPriority
  import opened EntityInfo
  import opened Renaming
  import opened CatalogGraph
  import opened CatalogIdentity
  import opened CatalogWrites
  import opened CatalogFences
  import Pages

  /** By their coordinates, y becomes one with x when title l does with title w. */
  predicate BecomeOne(g: Graph, w: Id, l: Id, level: Level, x: Id, y: Id) {
    match level
    case TitleLevel => x == w && y == l
    case SeasonLevel => SameSeason(g, w, l, x, y)
    case EpisodeLevel =>
      && x in g.episodes && y in g.episodes && g.episodes[x].number == g.episodes[y].number
      && SameSeason(g, w, l, g.episodes[x].parent, g.episodes[y].parent)
  }

  predicate SameSeason(g: Graph, w: Id, l: Id, s: Id, q: Id) {
    s in g.seasons && q in g.seasons && g.seasons[s] == Row(w, g.seasons[q].number) && g.seasons[q].parent == l
  }

  lemma SeasonsIdentified(g: Graph, w: Id, l: Id, s: Id, q: Id)
    requires UniqueRows(g.seasons)
    ensures SameSeason(g, w, l, s, q) <==> q in SeasonPairs(g, w, l) && SeasonPairs(g, w, l)[q] == s
  {
    PairsUnderAt(g.seasons, map[l := w], q);
    hide PairsUnder;
  }

  lemma EpisodesIdentified(g: Graph, w: Id, l: Id, x: Id, y: Id)
    requires UniqueRows(g.seasons) && UniqueRows(g.episodes)
    ensures BecomeOne(g, w, l, EpisodeLevel, x, y) <==> y in EpisodePairs(g, w, l) && EpisodePairs(g, w, l)[y] == x
  {
    PairsUnderAt(g.episodes, SeasonPairs(g, w, l), y);
    if x in g.episodes && y in g.episodes {
      SeasonsIdentified(g, w, l, g.episodes[x].parent, g.episodes[y].parent);
    }
    if y in EpisodePairs(g, w, l) {
      var q := g.episodes[y].parent;
      SeasonsIdentified(g, w, l, SeasonPairs(g, w, l)[q], q);
    }
    hide PairsUnder, SeasonPairs, SameSeason;
  }

  lemma IdentifiedExactly(g: Graph, w: Id, l: Id, level: Level, x: Id, y: Id)
    requires PlacesOk(g)
    ensures BecomeOne(g, w, l, level, x, y) <==> y in Identified(g, w, l, level) && Identified(g, w, l, level)[y] == x
  {
    SeasonsIdentified(g, w, l, x, y);
    EpisodesIdentified(g, w, l, x, y);
    hide SeasonPairs, EpisodePairs, SameSeason;
  }

  lemma SurvivorIsMerged(level: Level, infos: map<Id, Info>, r: map<Id, Id>, order: seq<ProviderId>, y: Id)
    requires InfoMerges(level, infos, r, order) && Good(r) && y in r
    ensures var after := InfoAfter(level, infos, r, order);
            && y in infos && r[y] in infos && y !in after && r[y] in after
            && MergeInfo(level, infos[r[y]], infos[y], order) == Ok(after[r[y]])
  {
    hide MergeInfo;
    assert HasLoser(r, r[y]) && Loser(r, r[y]) == y;
  }

  /**
   The survivor of a pair keeps, key by key, the newest ratings, snapshots and fetches of both, joins their
   personal rows, and keeps in each column the field that is not weaker; the other one is gone.
   */
  lemma SurvivorKeepsRows(g: Graph, w: Id, l: Id, order: seq<ProviderId>, level: Level, x: Id, y: Id)
    requires GraphOk(g) && Complete(order) && w != l && Mergeable(g, w, l, order) && BecomeOne(g, w, l, level, x, y)
    ensures var h := MergedGraph(g, w, l, order);
            && x in Infos(g, level) && y in Infos(g, level) && x in Infos(h, level) && y !in Infos(h, level)
            && KeepsRows(level, Infos(h, level)[x], Infos(g, level)[x], Infos(g, level)[y])
            && KeepsColumns(level, Infos(h, level)[x], Infos(g, level)[x], Infos(g, level)[y], order)
  {
    GraphParts(g);
    IdentifiedExactly(g, w, l, level, x, y);
    InfosMerged(g, w, l, order, level);
    IdentifiedGood(g, w, l, level);
    InfosAreOk(g, level);
    hide *;
    SurvivorIsMerged(level, Infos(g, level), Identified(g, w, l, level), order, y);
    MergeKeepsRows(level, Infos(g, level)[x], Infos(g, level)[y], order);
    MergeKeepsColumns(level, Infos(g, level)[x], Infos(g, level)[y], order);
  }

  /** What is kept about any entity that does not become one with another is untouched. */
  lemma OthersKeepEverything(g: Graph, w: Id, l: Id, order: seq<ProviderId>, level: Level, x: Id)
    requires GraphOk(g) && w != l && Mergeable(g, w, l, order) && x in Infos(g, level)
    requires forall y :: !BecomeOne(g, w, l, level, x, y) && !BecomeOne(g, w, l, level, y, x)
    ensures var h := MergedGraph(g, w, l, order); x in Infos(h, level) && Infos(h, level)[x] == Infos(g, level)[x]
  {
    assert PlacesOk(g);
    hide *;
    InfosMerged(g, w, l, order, level);
    var r := Identified(g, w, l, level);
    if x in r {
      IdentifiedExactly(g, w, l, level, r[x], x);
    }
    forall q | q in r ensures r[q] != x {
      IdentifiedExactly(g, w, l, level, r[q], q);
    }
    InfoElsewhere(level, Infos(g, level), r, order, x);
  }

  // ----- What named the one names the other -----

  /** The entity an entity of this level is part of afterwards: its survivor, or itself. */
  ghost predicate Goes(g: Graph, w: Id, l: Id, level: Level, y: Id, to: Id) {
    BecomeOne(g, w, l, level, to, y) || (to == y && !Absorbed(g, w, l, level, y))
  }

  ghost predicate Absorbed(g: Graph, w: Id, l: Id, level: Level, y: Id) { exists x :: BecomeOne(g, w, l, level, x, y) }

  lemma GoesWhere(g: Graph, w: Id, l: Id, level: Level, y: Id)
    requires PlacesOk(g)
    ensures Absorbed(g, w, l, level, y) <==> y in Identified(g, w, l, level)
    ensures forall to :: Goes(g, w, l, level, y, to) <==> to == App(Identified(g, w, l, level), y)
  {
    hide PlacesOk, Identified, BecomeOne;
    forall x ensures BecomeOne(g, w, l, level, x, y) <==> y in Identified(g, w, l, level) && Identified(g, w, l, level)[y] == x {
      IdentifiedExactly(g, w, l, level, x, y);
    }
    if y in Identified(g, w, l, level) {
      assert BecomeOne(g, w, l, level, Identified(g, w, l, level)[y], y);
    }
  }

  lemma MergedTables(g: Graph, w: Id, l: Id, order: seq<ProviderId>)
    ensures var h := MergedGraph(g, w, l, order); var s, e := Identified(g, w, l, SeasonLevel), Identified(g, w, l, EpisodeLevel);
            && h.seasonKeys == KeysAfter(g.seasonKeys, s) && h.episodeKeys == KeysAfter(g.episodeKeys, e)
            && h.seasons == RowsAfter(g.seasons, s, map[l := w]) && h.episodes == RowsAfter(g.episodes, e, s)
  {
    hide SeasonPairs, EpisodePairs, RowsAfter, InfoAfter, KeysAfter, PagesAfter;
  }

  lemma KeyAfter(keys: map<Key, Id>, r: map<Id, Id>, k: Key)
    ensures k in KeysAfter(keys, r) <==> k in keys
    ensures k in keys ==> KeysAfter(keys, r)[k] == App(r, keys[k])
  {
  }

  lemma RowAfter(rows: map<Id, Row>, gone: map<Id, Id>, up: map<Id, Id>, x: Id)
    ensures x in RowsAfter(rows, gone, up) <==> x in rows && x !in gone
    ensures x in RowsAfter(rows, gone, up) ==> RowsAfter(rows, gone, up)[x] == Row(App(up, rows[x].parent), rows[x].number)
  {
  }

  /** Every identifier of a season or episode stays, and names what its owner has become. */
  lemma IdentifierFollows(g: Graph, w: Id, l: Id, order: seq<ProviderId>, k: Key)
    requires PlacesOk(g)
    ensures var h := MergedGraph(g, w, l, order);
            && (k in h.seasonKeys <==> k in g.seasonKeys) && (k in h.episodeKeys <==> k in g.episodeKeys)
            && (k in g.seasonKeys ==> Goes(g, w, l, SeasonLevel, g.seasonKeys[k], h.seasonKeys[k]))
            && (k in g.episodeKeys ==> Goes(g, w, l, EpisodeLevel, g.episodeKeys[k], h.episodeKeys[k]))
  {
    hide *;
    MergedTables(g, w, l, order);
    KeyAfter(g.seasonKeys, Identified(g, w, l, SeasonLevel), k);
    KeyAfter(g.episodeKeys, Identified(g, w, l, EpisodeLevel), k);
    if k in g.seasonKeys {
      GoesWhere(g, w, l, SeasonLevel, g.seasonKeys[k]);
    }
    if k in g.episodeKeys {
      GoesWhere(g, w, l, EpisodeLevel, g.episodeKeys[k]);
    }
  }

  /** A season that is not absorbed stays under its number, with the survivor if it was the other title's. */
  lemma SeasonFollows(g: Graph, w: Id, l: Id, order: seq<ProviderId>, s: Id)
    requires PlacesOk(g)
    ensures var h := MergedGraph(g, w, l, order);
            && (s in h.seasons <==> s in g.seasons && !Absorbed(g, w, l, SeasonLevel, s))
            && (s in h.seasons ==>
                  h.seasons[s] == Row(if g.seasons[s].parent == l then w else g.seasons[s].parent, g.seasons[s].number))
  {
    hide *;
    MergedTables(g, w, l, order);
    GoesWhere(g, w, l, SeasonLevel, s);
    RowAfter(g.seasons, Identified(g, w, l, SeasonLevel), map[l := w], s);
    if s in g.seasons {
      Moved(w, l, g.seasons[s].parent);
    }
  }

  lemma Moved(w: Id, l: Id, p: Id)
    ensures App(map[l := w], p) == if p == l then w else p
  {
  }

  /** An episode that is not absorbed stays under its number, in what its season has become. */
  lemma EpisodeFollows(g: Graph, w: Id, l: Id, order: seq<ProviderId>, e: Id)
    requires PlacesOk(g)
    ensures var h := MergedGraph(g, w, l, order);
            && (e in h.episodes <==> e in g.episodes && !Absorbed(g, w, l, EpisodeLevel, e))
            && (e in h.episodes ==>
                  h.episodes[e].number == g.episodes[e].number
                  && Goes(g, w, l, SeasonLevel, g.episodes[e].parent, h.episodes[e].parent))
  {
    hide *;
    MergedTables(g, w, l, order);
    GoesWhere(g, w, l, EpisodeLevel, e);
    RowAfter(g.episodes, Identified(g, w, l, EpisodeLevel), Identified(g, w, l, SeasonLevel), e);
    if e in g.episodes {
      GoesWhere(g, w, l, SeasonLevel, g.episodes[e].parent);
    }
  }

  /** Every saved page stays, with its titles renamed in order and nothing else changed but its count. */
  lemma PagesFollow(g: Graph, w: Id, l: Id, order: seq<ProviderId>, p: Id)
    requires PagesOk(g.pages, g.titles) && w != l && p in g.pages
    ensures var h := MergedGraph(g, w, l, order);
            && h.pages.Keys == g.pages.Keys && h.titles == g.titles - {l}
            && var before, after := g.pages[p], h.pages[p];
               && after.available == before.available && after.fetched == before.fetched && after.total == before.total
               && Pages.Titles(after.items) == Pages.MergedTitles(Pages.Titles(before.items), w, l)
  {
    Pages.MergedPageReads(g.pages[p], w, l);
    Pages.MergedItems(g.pages[p], w, l);
    hide SeasonPairs, EpisodePairs, RowsAfter, InfoAfter, KeysAfter, Pages.MergedTitles;
  }
}
