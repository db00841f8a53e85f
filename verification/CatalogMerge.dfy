/**
 Reconciliation as the program does it: validate the two graphs, then merge children before
 parents row by row, in whatever order the tables list them, inside one transaction.
 */
module CatalogMerge {
  import opened Util
  import opened ProviderPriority
  import opened EntityInfo
  import opened Renaming
  import opened CatalogGraph
  import opened CatalogIdentity
  import opened CatalogSteps
  import Pages

  // ----- Failures found along the way are failures of the whole -----

  /** Every row has its information. */
  ghost predicate InfoPresent(g: Graph) {
    g.titleInfo.Keys == g.titles.Keys && g.seasonInfo.Keys == g.seasons.Keys && g.episodeInfo.Keys == g.episodes.Keys
  }

  /** Merging along one renaming decides nothing about pairs apart from it. */
  lemma MergesUntouched(level: Level, infos: map<Id, Info>, r: map<Id, Id>, p: map<Id, Id>, order: seq<ProviderId>)
    requires Apart(r, p) && forall x :: x in p ==> x in infos && p[x] in infos
    ensures InfoMerges(level, InfoAfter(level, infos, r, order), p, order) <==> InfoMerges(level, infos, p, order)
  {
    hide Merged, MergeInfo;
    var part := InfoAfter(level, infos, r, order);
    forall x | x in p ensures x in part && part[x] == infos[x] && p[x] in part && part[p[x]] == infos[p[x]] {
      InfoElsewhere(level, infos, r, order, x);
      InfoElsewhere(level, infos, r, order, p[x]);
    }
    hide InfoAfter;
  }

  lemma InfoAfterKeys(level: Level, infos: map<Id, Info>, r: map<Id, Id>, order: seq<ProviderId>)
    ensures InfoAfter(level, infos, r, order).Keys == infos.Keys - r.Keys
  {
    hide Merged;
  }

  /** What one identified season needs is decided by the original tables. */
  lemma SeasonDecidedAtStart(g: Graph, w: Id, l: Id, done: set<Id>, c: Id, order: seq<ProviderId>)
    requires UniqueRows(g.seasons) && UniqueRows(g.episodes) && w != l && InfoPresent(g)
    requires c !in done && c in SeasonPairs(g, w, l)
    ensures SeasonMergeable(TitlePart(g, w, l, done, order), SeasonPairs(g, w, l)[c], c, order)
       <==> SeasonMergeable(g, SeasonPairs(g, w, l)[c], c, order)
  {
    hide *;
    var pairs := SeasonPairs(g, w, l);
    var s, q := Only(pairs, done), map[c := pairs[c]];
    var h := TitlePart(g, w, l, done, order);
    OneMoreSeasonDecided(g, w, l, done, c, order, s, q, PairsUnder(g.episodes, s), PairsUnder(g.episodes, q));
    TitlePartTables(g, w, l, done, order);
    SeasonMergeableAt(h, pairs[c], c, order);
    SeasonMergeableAt(g, pairs[c], c, order);
  }

  lemma TitlePartTables(g: Graph, w: Id, l: Id, done: set<Id>, order: seq<ProviderId>)
    ensures var h := TitlePart(g, w, l, done, order); var s := Only(SeasonPairs(g, w, l), done);
            var e := PairsUnder(g.episodes, s);
            && h.episodes == RowsAfter(g.episodes, e, s)
            && h.seasons == PartRows(g.seasons, s, done, w)
            && h.seasonInfo == InfoAfter(SeasonLevel, g.seasonInfo, s, order)
            && h.episodeInfo == InfoAfter(EpisodeLevel, g.episodeInfo, e, order)
  {
  }

  lemma SeasonMergeableAt(h: Graph, w: Id, l: Id, order: seq<ProviderId>)
    ensures SeasonMergeable(h, w, l, order)
       <==> InfoMerges(EpisodeLevel, h.episodeInfo, PairsUnder(h.episodes, map[l := w]), order)
            && InfoMerges(SeasonLevel, h.seasonInfo, map[l := w], order)
  {
  }

  lemma OneMoreSeasonDecided(g: Graph, w: Id, l: Id, done: set<Id>, c: Id, order: seq<ProviderId>,
                             s: map<Id, Id>, q: map<Id, Id>, e: map<Id, Id>, p: map<Id, Id>)
    requires UniqueRows(g.seasons) && UniqueRows(g.episodes) && w != l && InfoPresent(g)
    requires c !in done && c in SeasonPairs(g, w, l) && s == Only(SeasonPairs(g, w, l), done)
    requires q == map[c := SeasonPairs(g, w, l)[c]] && e == PairsUnder(g.episodes, s) && p == PairsUnder(g.episodes, q)
    ensures PairsUnder(RowsAfter(g.episodes, e, s), q) == p
    ensures InfoMerges(SeasonLevel, InfoAfter(SeasonLevel, g.seasonInfo, s, order), q, order)
       <==> InfoMerges(SeasonLevel, g.seasonInfo, q, order)
    ensures InfoMerges(EpisodeLevel, InfoAfter(EpisodeLevel, g.episodeInfo, e, order), p, order)
       <==> InfoMerges(EpisodeLevel, g.episodeInfo, p, order)
  {
    hide *;
    var pairs := SeasonPairs(g, w, l);
    SeasonPairsGood(g, w, l);
    OnlyApart(pairs, done, c);
    PairsAreGood(g.episodes, s);
    PairsAreGood(g.episodes, q);
    PairsApart(g.episodes, s, q);
    PairsUntouched(g.episodes, s, q);
    SeasonPairHasInfo(g, w, l, c);
    EpisodePairsHaveInfo(g, q);
    MergesUntouched(SeasonLevel, g.seasonInfo, s, q, order);
    MergesUntouched(EpisodeLevel, g.episodeInfo, e, p, order);
  }

  lemma SeasonPairHasInfo(g: Graph, w: Id, l: Id, c: Id)
    requires InfoPresent(g) && c in SeasonPairs(g, w, l)
    ensures c in g.seasonInfo && SeasonPairs(g, w, l)[c] in g.seasonInfo
  {
    SeasonOfPair(g, w, l, c);
    hide SeasonPairs;
  }

  lemma EpisodePairsHaveInfo(g: Graph, q: map<Id, Id>)
    requires InfoPresent(g)
    ensures forall x :: x in PairsUnder(g.episodes, q) ==> x in g.episodeInfo && PairsUnder(g.episodes, q)[x] in g.episodeInfo
  {
    forall x | x in PairsUnder(g.episodes, q) ensures x in g.episodes && PairsUnder(g.episodes, q)[x] in g.episodes {
      PairsUnderAt(g.episodes, q, x);
    }
    hide PairsUnder;
  }

  ghost predicate EachSeasonMerges(g: Graph, s: map<Id, Id>, order: seq<ProviderId>) {
    forall c :: c in s ==> SeasonMergeable(g, s[c], c, order)
  }

  lemma MergesEach(level: Level, infos: map<Id, Info>, s: map<Id, Id>, order: seq<ProviderId>)
    ensures InfoMerges(level, infos, s, order) <==> forall c :: c in s ==> InfoMerges(level, infos, map[c := s[c]], order)
  {
    hide MergeInfo;
    forall c | c in s && InfoMerges(level, infos, map[c := s[c]], order)
      ensures c in infos && s[c] in infos && MergeInfo(level, infos[s[c]], infos[c], order).Ok?
    {
      var one: map<Id, Id> := map[c := s[c]];
      assert c in one && one[c] == s[c];
      assert InfoMerges(level, infos, one, order);
    }
  }

  lemma MergesFewer(level: Level, infos: map<Id, Info>, r: map<Id, Id>, fewer: map<Id, Id>, order: seq<ProviderId>)
    requires InfoMerges(level, infos, r, order) && forall x :: x in fewer ==> x in r && r[x] == fewer[x]
    ensures InfoMerges(level, infos, fewer, order)
  {
  }

  lemma EpisodesMergeEach(rows: map<Id, Row>, infos: map<Id, Info>, s: map<Id, Id>, order: seq<ProviderId>)
    ensures InfoMerges(EpisodeLevel, infos, PairsUnder(rows, s), order)
       <==> forall c :: c in s ==> InfoMerges(EpisodeLevel, infos, PairsUnder(rows, map[c := s[c]]), order)
  {
    hide MergeInfo, PairsUnder;
    var all := PairsUnder(rows, s);
    forall c, x | c in s && x in PairsUnder(rows, map[c := s[c]])
      ensures x in all && all[x] == PairsUnder(rows, map[c := s[c]])[x]
    {
      PairOfOne(rows, s, c, x);
    }
    if forall c :: c in s ==> InfoMerges(EpisodeLevel, infos, PairsUnder(rows, map[c := s[c]]), order) {
      forall x | x in all ensures x in infos && all[x] in infos && MergeInfo(EpisodeLevel, infos[all[x]], infos[x], order).Ok? {
        PairsUnderAt(rows, s, x);
        var c := rows[x].parent;
        PairOfOne(rows, s, c, x);
        assert InfoMerges(EpisodeLevel, infos, PairsUnder(rows, map[c := s[c]]), order);
      }
    }
    if InfoMerges(EpisodeLevel, infos, all, order) {
      forall c | c in s ensures InfoMerges(EpisodeLevel, infos, PairsUnder(rows, map[c := s[c]]), order) {
        MergesFewer(EpisodeLevel, infos, all, PairsUnder(rows, map[c := s[c]]), order);
      }
    }
  }

  /** The whole merge succeeds when every identified season's does and the titles' own does. */
  lemma MergeableBySeason(g: Graph, w: Id, l: Id, order: seq<ProviderId>)
    ensures Mergeable(g, w, l, order)
       <==> InfoMerges(TitleLevel, g.titleInfo, map[l := w], order) && EachSeasonMerges(g, SeasonPairs(g, w, l), order)
  {
    var s := SeasonPairs(g, w, l);
    MergesEach(SeasonLevel, g.seasonInfo, s, order);
    EpisodesMergeEach(g.episodes, g.episodeInfo, s, order);
    hide SeasonPairs, InfoMerges, PairsUnder;
  }

  lemma PairOfOne(rows: map<Id, Row>, s: map<Id, Id>, c: Id, x: Id)
    requires c in s
    ensures x in PairsUnder(rows, map[c := s[c]]) <==> x in PairsUnder(rows, s) && rows[x].parent == c
    ensures x in PairsUnder(rows, map[c := s[c]]) ==> PairsUnder(rows, s)[x] == PairsUnder(rows, map[c := s[c]])[x]
  {
    PairsUnderAt(rows, s, x);
    PairsUnderAt(rows, map[c := s[c]], x);
    hide PairsUnder;
  }
}
