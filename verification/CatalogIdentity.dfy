/**
 What identifying two titles preserves: every rule of the tables, the union of identifiers with
 one owner each, the union of coordinates with each held once, and no trace of the loser.
 */
module CatalogIdentity {
  import opened Util
  import opened ProviderPriority
  import opened EntityInfo
  import opened Renaming
  import opened CatalogGraph
  import Pages

  lemma PairIsGood(w: Id, l: Id)
    requires w != l
    ensures Good(map[l := w])
  {
  }

  /** The identified seasons and episodes pair losers with distinct winners under identified parents. */
  lemma PairsGood(g: Graph, w: Id, l: Id)
    requires UniqueRows(g.seasons) && UniqueRows(g.episodes) && w != l
    ensures Good(SeasonPairs(g, w, l)) && Good(EpisodePairs(g, w, l))
  {
    PairIsGood(w, l);
    PairsAreGood(g.seasons, map[l := w]);
    PairsAreGood(g.episodes, SeasonPairs(g, w, l));
  }

  // ----- The rules survive -----

  /** Identifiers stay one per namespace when no identified pair is in conflict. */
  lemma KeysStayUnique(keys: map<Key, Id>, r: map<Id, Id>)
    requires OnePerNamespace(keys) && Good(r) && NoConflicts(keys, r)
    ensures OnePerNamespace(KeysAfter(keys, r))
  {
    var after := KeysAfter(keys, r);
    forall k, q | k in after && q in after && after[k] == after[q] && k.namespace == q.namespace ensures k == q {
      var x, y := keys[k], keys[q];
      if x != y && x in r && y !in r {
        assert !Conflict(keys, r[x], x);
      } else if x != y && y in r && x !in r {
        assert !Conflict(keys, r[y], y);
      }
    }
  }

  lemma TitleKeysStayOk(keys: map<TitleKey, Id>, titles: map<Id, Kind>, w: Id, l: Id)
    requires TitleKeysOk(keys, titles) && w in titles && l in titles && w != l && titles[w] == titles[l]
    requires !TitleConflict(keys, w, l)
    ensures TitleKeysOk(KeysAfter(keys, map[l := w]), titles - {l})
  {
  }

  lemma RowsStayPlaced(rows: map<Id, Row>, parents: set<Id>, up: map<Id, Id>)
    requires Placed(rows, parents) && Good(up)
    requires forall p :: p in up && p in parents ==> up[p] in parents
    ensures Placed(RowsAfter(rows, PairsUnder(rows, up), up), parents - up.Keys)
  {
    RowsAfterUnique(rows, up);
    hide UniqueRows, PairsUnder;
  }

  lemma SeriesWithout(titles: map<Id, Kind>, w: Id, l: Id)
    requires w in titles && l in titles && titles[w] == titles[l]
    ensures SeriesOf(titles - {l}) == SeriesOf(titles) - {l}
    ensures l in SeriesOf(titles) ==> w in SeriesOf(titles)
    ensures map[l := w].Keys == {l}
  {
  }

  lemma RowsAfterKeys(rows: map<Id, Row>, gone: map<Id, Id>, up: map<Id, Id>)
    ensures RowsAfter(rows, gone, up).Keys == rows.Keys - gone.Keys
  {
  }

  lemma PlacesStayOk(g: Graph, w: Id, l: Id, order: seq<ProviderId>)
    requires PlacesOk(g) && w in g.titles && l in g.titles && w != l && g.titles[w] == g.titles[l]
    ensures PlacesOk(MergedGraph(g, w, l, order))
  {
    var after := MergedGraph(g, w, l, order);
    SeasonsStayPlaced(g, w, l);
    EpisodesStayPlaced(g, w, l);
    hide InfoAfter, PagesAfter, KeysAfter, RowsAfter, Placed, SeasonPairs, EpisodePairs;
    assert PlacesOk(after);
  }

  lemma SeasonsStayPlaced(g: Graph, w: Id, l: Id)
    requires PlacesOk(g) && w in g.titles && l in g.titles && w != l && g.titles[w] == g.titles[l]
    ensures Placed(RowsAfter(g.seasons, SeasonPairs(g, w, l), map[l := w]), SeriesOf(g.titles - {l}))
  {
    PairIsGood(w, l);
    SeriesWithout(g.titles, w, l);
    hide RowsAfter, PairsUnder, Placed, Good, SeriesOf;
    RowsStayPlaced(g.seasons, SeriesOf(g.titles), map[l := w]);
  }

  lemma EpisodesStayPlaced(g: Graph, w: Id, l: Id)
    requires PlacesOk(g) && w != l
    ensures var s := SeasonPairs(g, w, l);
            Placed(RowsAfter(g.episodes, EpisodePairs(g, w, l), s), RowsAfter(g.seasons, s, map[l := w]).Keys)
  {
    var s := SeasonPairs(g, w, l);
    PairIsGood(w, l);
    PairsGood(g, w, l);
    PairsAreGood(g.seasons, map[l := w]);
    RowsAfterKeys(g.seasons, s, map[l := w]);
    hide RowsAfter, PairsUnder, Placed, Good;
    RowsStayPlaced(g.episodes, g.seasons.Keys, s);
  }

  lemma SeasonKeysStayOk(keys: map<Key, Id>, ids: set<Id>, r: map<Id, Id>)
    requires SeasonKeysOk(keys, ids) && Good(r) && NoConflicts(keys, r) && forall x :: x in r ==> r[x] in ids
    ensures SeasonKeysOk(KeysAfter(keys, r), ids - r.Keys)
  {
    KeysStayUnique(keys, r);
    hide OnePerNamespace, NoConflicts;
  }

  lemma EpisodeKeysStayOk(keys: map<Key, Id>, ids: set<Id>, r: map<Id, Id>)
    requires EpisodeKeysOk(keys, ids) && Good(r) && NoConflicts(keys, r) && forall x :: x in r ==> r[x] in ids
    ensures EpisodeKeysOk(KeysAfter(keys, r), ids - r.Keys)
  {
    KeysStayUnique(keys, r);
    hide OnePerNamespace, NoConflicts;
  }

  lemma ImdbStaysSeparate(titleKeys: map<TitleKey, Id>, episodeKeys: map<Key, Id>, t: map<Id, Id>, e: map<Id, Id>)
    requires ImdbSeparate(titleKeys, episodeKeys)
    ensures ImdbSeparate(KeysAfter(titleKeys, t), KeysAfter(episodeKeys, e))
  {
  }

  lemma KeysStayOk(g: Graph, w: Id, l: Id, order: seq<ProviderId>)
    requires PlacesOk(g) && KeysOk(g) && w in g.titles && l in g.titles && w != l && Compatible(g, w, l)
    ensures KeysOk(MergedGraph(g, w, l, order))
  {
    var t, s, e := map[l := w], SeasonPairs(g, w, l), EpisodePairs(g, w, l);
    PairsGood(g, w, l);
    PairsAreGood(g.seasons, t) by { PairIsGood(w, l); }
    PairsAreGood(g.episodes, s);
    TitleKeysStayOk(g.titleKeys, g.titles, w, l);
    SeasonKeysStayOk(g.seasonKeys, g.seasons.Keys, s);
    EpisodeKeysStayOk(g.episodeKeys, g.episodes.Keys, e);
    ImdbStaysSeparate(g.titleKeys, g.episodeKeys, t, e);
    RowsAfterKeys(g.seasons, s, t);
    RowsAfterKeys(g.episodes, e, s);
    hide InfoAfter, PairsUnder, PagesAfter, KeysAfter, RowsAfter, UniqueRows, Placed, Good,
         TitleKeysOk, SeasonKeysOk, EpisodeKeysOk, ImdbSeparate, NoConflicts, TitleConflict;
  }

  lemma InfosStayOk(g: Graph, w: Id, l: Id, order: seq<ProviderId>)
    requires AllInfosOk(g) && Mergeable(g, w, l, order)
    ensures AllInfosOk(MergedGraph(g, w, l, order))
  {
    var t, s, e := map[l := w], SeasonPairs(g, w, l), EpisodePairs(g, w, l);
    InfoAfterOk(TitleLevel, g.titleInfo, g.titles.Keys, t, order);
    InfoAfterOk(SeasonLevel, g.seasonInfo, g.seasons.Keys, s, order);
    InfoAfterOk(EpisodeLevel, g.episodeInfo, g.episodes.Keys, e, order);
    RowsAfterKeys(g.seasons, s, t);
    RowsAfterKeys(g.episodes, e, s);
    assert t.Keys == {l};
    assert (g.titles - {l}).Keys == g.titles.Keys - {l};
    hide InfoAfter, InfosOk, PairsUnder, PagesAfter, KeysAfter, RowsAfter, InfoMerges;
  }

  lemma PagesStayOk(pages: map<Id, Pages.Page>, titles: map<Id, Kind>, w: Id, l: Id)
    requires PagesOk(pages, titles) && w in titles && w != l
    ensures PagesOk(PagesAfter(pages, w, l), titles - {l})
  {
    var after := PagesAfter(pages, w, l);
    forall p | p in after
      ensures Pages.PageOk(after[p]) && forall t :: t in Pages.Titles(after[p].items) ==> t in titles - {l}
    {
      Pages.MergedPageReads(pages[p], w, l);
    }
  }

  lemma InfoKindsStayOk(titles: map<Id, Kind>, infos: map<Id, Info>, w: Id, l: Id, order: seq<ProviderId>)
    requires KindsOk(titles, infos) && w in titles && l in titles && w != l && titles[w] == titles[l]
    requires InfoMerges(TitleLevel, infos, map[l := w], order)
    ensures KindsOk(titles - {l}, InfoAfter(TitleLevel, infos, map[l := w], order))
  {
    var r: map<Id, Id> := map[l := w];
    assert l in r && r[l] == w;
    hide MergeInfo, OwnColumns;
    var after := InfoAfter(TitleLevel, infos, r, order);
    forall t | t in titles - {l} && t in after ensures OwnColumns(SortOf(titles[t]), after[t]) {
      if HasLoser(r, t) {
        MergeKeepsKind(SortOf(titles[w]), infos[w], infos[l], order);
      }
    }
  }

  /** Titles of one kind give a title of that kind. */
  lemma KindsStayOk(g: Graph, w: Id, l: Id, order: seq<ProviderId>)
    requires KindsOk(g.titles, g.titleInfo) && w in g.titles && l in g.titles && w != l
    requires Compatible(g, w, l) && Mergeable(g, w, l, order)
    ensures var h := MergedGraph(g, w, l, order); KindsOk(h.titles, h.titleInfo)
  {
    InfoKindsStayOk(g.titles, g.titleInfo, w, l, order);
    hide KindsOk, InfoAfter, InfoMerges, SeasonPairs, EpisodePairs, RowsAfter, KeysAfter, PagesAfter, NoConflicts, TitleConflict;
  }

  /** Identifying compatible titles keeps every rule of the catalog. */
  lemma MergedGraphOk(g: Graph, w: Id, l: Id, order: seq<ProviderId>)
    requires GraphOk(g) && w in g.titles && l in g.titles && w != l
    requires Compatible(g, w, l) && Mergeable(g, w, l, order)
    ensures GraphOk(MergedGraph(g, w, l, order))
  {
    PlacesStayOk(g, w, l, order);
    KeysStayOk(g, w, l, order);
    InfosStayOk(g, w, l, order);
    PagesStayOk(g.pages, g.titles, w, l);
    KindsStayOk(g, w, l, order);
    hide PlacesOk, KeysOk, AllInfosOk, PagesOk, KindsOk, Compatible, Mergeable;
  }

  // ----- What the survivor has -----

  /** Each identifier keeps exactly one owner: the winner's and the loser's are the survivor's, all others stay. */
  lemma IdentifiersAreUnion(g: Graph, w: Id, l: Id, order: seq<ProviderId>, k: TitleKey)
    requires w != l
    ensures var after := MergedGraph(g, w, l, order).titleKeys;
            && (k in after <==> k in g.titleKeys)
            && (k in after ==> (after[k] == w <==> g.titleKeys[k] == w || g.titleKeys[k] == l) && after[k] != l)
            && (k in after && after[k] != w ==> after[k] == g.titleKeys[k])
  {
  }

  /** The episode at a season and episode number of a title. */
  ghost predicate HasEpisode(g: Graph, title: Id, season: nat, episode: nat) {
    exists s :: s in g.seasons && g.seasons[s] == Row(title, season) && HasChild(g.episodes, s, episode)
  }

  /** The survivor's seasons are those of both titles. */
  lemma SeasonsAreUnion(g: Graph, w: Id, l: Id, order: seq<ProviderId>, n: nat)
    requires PlacesOk(g) && w != l
    ensures HasChild(MergedGraph(g, w, l, order).seasons, w, n) <==> HasChild(g.seasons, w, n) || HasChild(g.seasons, l, n)
  {
    PairIsGood(w, l);
    CoordinatesAreUnion(g.seasons, map[l := w], w, n);
    if HasChild(g.seasons, l, n) {
      assert l in map[l := w] && map[l := w][l] == w;
    }
  }

  /** Where a season ends up. */
  lemma SeasonAfter(g: Graph, w: Id, l: Id, s: Id)
    requires PlacesOk(g) && w != l && s in g.seasons
    ensures var pairs := SeasonPairs(g, w, l); var after := RowsAfter(g.seasons, pairs, map[l := w]);
            && App(pairs, s) in after
            && after[App(pairs, s)] == Row(App(map[l := w], g.seasons[s].parent), g.seasons[s].number)
  {
    PairIsGood(w, l);
    PairsAreGood(g.seasons, map[l := w]);
  }

  /** The survivor's (season, episode) coordinates are the union of both titles'. */
  lemma EpisodesAreUnion(g: Graph, w: Id, l: Id, order: seq<ProviderId>, n: nat, m: nat)
    requires PlacesOk(g) && w != l
    ensures HasEpisode(MergedGraph(g, w, l, order), w, n, m) <==> HasEpisode(g, w, n, m) || HasEpisode(g, l, n, m)
  {
    var after := MergedGraph(g, w, l, order);
    if HasEpisode(after, w, n, m) {
      var s :| s in after.seasons && after.seasons[s] == Row(w, n) && HasChild(after.episodes, s, m);
      CameFrom(g, w, l, s, n, m);
    }
    if HasEpisode(g, w, n, m) {
      var s :| s in g.seasons && g.seasons[s] == Row(w, n) && HasChild(g.episodes, s, m);
      KeepsEpisode(g, w, l, s, n, m);
    }
    if HasEpisode(g, l, n, m) {
      var s :| s in g.seasons && g.seasons[s] == Row(l, n) && HasChild(g.episodes, s, m);
      KeepsEpisode(g, w, l, s, n, m);
    }
  }

  lemma CameFrom(g: Graph, w: Id, l: Id, s: Id, n: nat, m: nat)
    requires PlacesOk(g) && w != l
    requires var pairs := SeasonPairs(g, w, l); var seasons := RowsAfter(g.seasons, pairs, map[l := w]);
             s in seasons && seasons[s] == Row(w, n) && HasChild(RowsAfter(g.episodes, PairsUnder(g.episodes, pairs), pairs), s, m)
    ensures HasEpisode(g, w, n, m) || HasEpisode(g, l, n, m)
  {
    var pairs := SeasonPairs(g, w, l);
    PairsGood(g, w, l);
    CoordinatesAreUnion(g.episodes, pairs, s, m);
    SeasonBefore(g, w, l, s, n);
    hide *;
    if HasChild(g.episodes, s, m) {
      EpisodeAt(g, g.seasons[s].parent, s, n, m);
    } else {
      var x :| x in pairs && pairs[x] == s && HasChild(g.episodes, x, m);
      SeasonOfPair(g, w, l, x);
      EpisodeAt(g, l, x, n, m);
    }
  }

  lemma EpisodeAt(g: Graph, title: Id, s: Id, n: nat, m: nat)
    requires s in g.seasons && g.seasons[s] == Row(title, n) && HasChild(g.episodes, s, m)
    ensures HasEpisode(g, title, n, m)
  {
  }

  lemma SeasonBefore(g: Graph, w: Id, l: Id, s: Id, n: nat)
    requires var seasons := RowsAfter(g.seasons, SeasonPairs(g, w, l), map[l := w]); s in seasons && seasons[s] == Row(w, n)
    ensures s in g.seasons && (g.seasons[s] == Row(w, n) || g.seasons[s] == Row(l, n))
  {
    hide PairsUnder;
  }

  lemma SeasonOfPair(g: Graph, w: Id, l: Id, x: Id)
    requires x in SeasonPairs(g, w, l)
    ensures var y := SeasonPairs(g, w, l)[x];
            x in g.seasons && y in g.seasons && g.seasons[x] == Row(l, g.seasons[y].number) && g.seasons[y].parent == w
  {
  }

  lemma KeepsEpisode(g: Graph, w: Id, l: Id, s: Id, n: nat, m: nat)
    requires PlacesOk(g) && w != l && s in g.seasons && g.seasons[s].number == n
    requires g.seasons[s].parent == w || g.seasons[s].parent == l
    requires HasChild(g.episodes, s, m)
    ensures var pairs := SeasonPairs(g, w, l);
            var seasons := RowsAfter(g.seasons, pairs, map[l := w]);
            var episodes := RowsAfter(g.episodes, PairsUnder(g.episodes, pairs), pairs);
            exists x :: x in seasons && seasons[x] == Row(w, n) && HasChild(episodes, x, m)
  {
    var pairs := SeasonPairs(g, w, l);
    var seasons := RowsAfter(g.seasons, pairs, map[l := w]);
    SeasonAfter(g, w, l, s);
    PairsGood(g, w, l);
    hide PairsUnder, UniqueRows, HasChild;
    var x := App(pairs, s);
    CoordinatesAreUnion(g.episodes, pairs, x, m);
    assert x in seasons && seasons[x] == Row(w, n);
  }

  lemma KeysForget(keys: map<TitleKey, Id>, w: Id, l: Id)
    requires w != l
    ensures forall k :: k in KeysAfter(keys, map[l := w]) ==> KeysAfter(keys, map[l := w])[k] != l
  {
  }

  lemma RowsForget(rows: map<Id, Row>, gone: map<Id, Id>, w: Id, l: Id)
    requires w != l
    ensures forall x :: x in RowsAfter(rows, gone, map[l := w]) ==> RowsAfter(rows, gone, map[l := w])[x].parent != l
  {
  }

  lemma PagesForget(pages: map<Id, Pages.Page>, titles: map<Id, Kind>, w: Id, l: Id)
    requires PagesOk(pages, titles) && w != l
    ensures forall p :: p in PagesAfter(pages, w, l) ==> l !in Pages.Titles(PagesAfter(pages, w, l)[p].items)
  {
    forall p | p in pages ensures l !in Pages.Titles(Pages.MergePage(pages[p], w, l).items) {
      Pages.MergedPageReads(pages[p], w, l);
    }
  }

  lemma InfoForgets(infos: map<Id, Info>, w: Id, l: Id, order: seq<ProviderId>)
    ensures l !in InfoAfter(TitleLevel, infos, map[l := w], order)
  {
  }

  /** Nothing in the merged graph names the loser: no identifier, season, page or kept information. */
  lemma LoserIsGone(g: Graph, w: Id, l: Id, order: seq<ProviderId>)
    requires PagesOk(g.pages, g.titles) && w in g.titles && w != l
    ensures var after := MergedGraph(g, w, l, order);
            && w in after.titles && l !in after.titles && l !in after.titleInfo
            && (forall k :: k in after.titleKeys ==> after.titleKeys[k] != l)
            && (forall s :: s in after.seasons ==> after.seasons[s].parent != l)
            && (forall p :: p in after.pages ==> l !in Pages.Titles(after.pages[p].items))
  {
    KeysForget(g.titleKeys, w, l);
    RowsForget(g.seasons, SeasonPairs(g, w, l), w, l);
    PagesForget(g.pages, g.titles, w, l);
    InfoForgets(g.titleInfo, w, l, order);
    hide SeasonPairs, EpisodePairs, KeysAfter, RowsAfter, PagesAfter, InfoAfter, PagesOk, KindsOk, Pages.Titles;
  }
}
