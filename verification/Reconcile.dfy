/**
 The tables of the catalog, updated in place. `Reconcile` validates both graphs, then merges
 children before parents one row at a time, in whatever order the rows are listed, and is proved
 to leave exactly the graph in which the two titles are one.
 */
module Reconcile {
  import opened Util
  import opened ProviderPriority
  import opened EntityInfo
  import opened Renaming
  import opened CatalogGraph
  import opened CatalogIdentity
  import opened CatalogSteps
  import opened CatalogMerge
  import opened CatalogWrites
  import opened CatalogRuns
  import Pages

  class CatalogTx {
    var titles: map<Id, Kind>
    var seasons: map<Id, Row>
    var episodes: map<Id, Row>
    var titleKeys: map<TitleKey, Id>
    var seasonKeys: map<Key, Id>
    var episodeKeys: map<Key, Id>
    var titleInfo: map<Id, Info>
    var seasonInfo: map<Id, Info>
    var episodeInfo: map<Id, Info>
    var pages: map<Id, Pages.Page>
    const order: seq<ProviderId>

    function Now(): Graph
      reads this
    {
      Graph(titles, seasons, episodes, titleKeys, seasonKeys, episodeKeys, titleInfo, seasonInfo, episodeInfo, pages)
    }

    constructor (g: Graph, priority: seq<ProviderId>)
      ensures Now() == g && order == priority
    {
      titles, seasons, episodes := g.titles, g.seasons, g.episodes;
      titleKeys, seasonKeys, episodeKeys := g.titleKeys, g.seasonKeys, g.episodeKeys;
      titleInfo, seasonInfo, episodeInfo, pages := g.titleInfo, g.seasonInfo, g.episodeInfo, g.pages;
      order := priority;
    }

    // ----- Queries -----

    method SeasonAt(title: Id, number: nat) returns (found: Option<Id>)
      ensures found.Some? ==> found.value in seasons && seasons[found.value] == Row(title, number)
      ensures found.None? ==> !HasChild(seasons, title, number)
    {
      if s :| s in seasons && seasons[s] == Row(title, number) {
        return Some(s);
      }
      return None;
    }

    method EpisodeAt(season: Id, number: nat) returns (found: Option<Id>)
      ensures found.Some? ==> found.value in episodes && episodes[found.value] == Row(season, number)
      ensures found.None? ==> !HasChild(episodes, season, number)
    {
      if e :| e in episodes && episodes[e] == Row(season, number) {
        return Some(e);
      }
      return None;
    }

    // ----- Validation -----

    method ValidateSeason(w: Id, l: Id) returns (ok: bool)
      requires w in seasons && l in seasons && w != l && UniqueRows(episodes)
      ensures ok <==> seasons[w].number == seasons[l].number && SeasonAgrees(Now(), w, l)
    {
      ghost var pairs := PairsUnder(episodes, map[l := w]);
      if Conflict(seasonKeys, w, l) || seasons[w].number != seasons[l].number {
        return false;
      }
      var all := set e | e in episodes && episodes[e].parent == l;
      var todo := all;
      while todo != {}
        invariant todo <= all
        invariant forall c :: c in pairs && c !in todo ==> !Conflict(episodeKeys, pairs[c], c)
        decreases |todo|
      {
        var c :| c in todo;
        var found := EpisodeAt(w, episodes[c].number);
        if found.Some? {
          MatchIsPair(episodes, w, l, c, found.value);
          if Conflict(episodeKeys, found.value, c) {
            return false;
          }
        }
        todo := todo - {c};
      }
      return true;
    }

    /** A season of the loser that meets one of the winner must agree with it. */
    method ValidateChild(w: Id, l: Id, c: Id) returns (ok: bool)
      requires w != l && c in seasons && seasons[c].parent == l && UniqueRows(seasons) && UniqueRows(episodes)
      ensures var pairs := SeasonPairs(Now(), w, l); ok <==> (c in pairs ==> SeasonAgrees(Now(), pairs[c], c))
    {
      var found := SeasonAt(w, seasons[c].number);
      if found.None? {
        NoMatchNoPair(Now(), w, l, c);
        return true;
      }
      SeasonMatchIsPair(Now(), w, l, c, found.value);
      hide PairsUnder, SeasonPairs, SeasonAgrees;
      ok := ValidateSeason(found.value, c);
    }

    method ValidateSeasons(w: Id, l: Id) returns (ok: bool)
      requires w in titles && l in titles && w != l && UniqueRows(seasons) && UniqueRows(episodes)
      ensures ok ==> AgreedExcept(Now(), w, l, {})
      ensures !ok ==> !Compatible(Now(), w, l)
    {
      hide PairsUnder, SeasonPairs, SeasonAgrees, Compatible, UniqueRows, AgreedExcept, Children;
      AgreedDecides(Now(), w, l);
      var todo := ChildrenOf(l);
      while todo != {}
        invariant AgreedExcept(Now(), w, l, todo) && todo <= Children(Now().seasons, l)
        decreases |todo|
      {
        var c :| c in todo;
        AgreedNext(Now(), w, l, todo, c);
        ok := ValidateNext(w, l, todo, c);
        if !ok {
          return false;
        }
        todo := todo - {c};
      }
      return true;
    }

    method ChildrenOf(title: Id) returns (children: set<Id>)
      ensures children == Children(Now().seasons, title)
    {
      children := set s | s in seasons && seasons[s].parent == title;
    }

    method ValidateNext(w: Id, l: Id, todo: set<Id>, c: Id) returns (ok: bool)
      requires w != l && UniqueRows(seasons) && UniqueRows(episodes)
      requires c in todo && todo <= Children(Now().seasons, l)
      ensures var pairs := SeasonPairs(Now(), w, l); ok <==> (c in pairs ==> SeasonAgrees(Now(), pairs[c], c))
    {
      ok := ValidateChild(w, l, c);
    }

    method ValidateGraph(w: Id, l: Id) returns (ok: bool)
      requires w in titles && l in titles && w != l && UniqueRows(seasons) && UniqueRows(episodes)
      ensures ok <==> Compatible(Now(), w, l)
    {
      hide PairsUnder, SeasonPairs, SeasonAgrees, Conflict, TitleConflict, Compatible, UniqueRows, AgreedExcept;
      AgreedDecides(Now(), w, l);
      if TitleConflict(titleKeys, w, l) || titles[w] != titles[l] {
        return false;
      }
      ok := ValidateSeasons(w, l);
    }

    // ----- Merging two episodes -----

    /** Combine what is kept, hand over identifiers, delete the loser. */
    method MergeEpisode(w: Id, l: Id) returns (r: Result<(), CatalogError>)
      requires w in episodeInfo && l in episodeInfo && w != l
      requires InfoOk(EpisodeLevel, episodeInfo[w]) && InfoOk(EpisodeLevel, episodeInfo[l])
      modifies this`episodes, this`episodeKeys, this`episodeInfo
      ensures r.Ok? <==> MergeInfo(EpisodeLevel, old(episodeInfo)[w], old(episodeInfo)[l], order).Ok?
      ensures r.Ok? ==> Now() == DropEpisode(old(Now()), w, l, order)
      ensures r.Err? ==> r.error == IdentityConflict
    {
      InfoMergesIff(EpisodeLevel, episodeInfo[w], episodeInfo[l], order);
      hide MergeInfo, InfoAfter, KeysAfter, InfoMerges, InfoOk;
      var merged := MergeEntities(EpisodeLevel, episodeInfo[w], episodeInfo[l], order);
      if merged.Err? {
        return Err(merged.error);
      }
      InfoOfOne(EpisodeLevel, episodeInfo, w, l, order);
      episodeInfo := episodeInfo[w := merged.value] - {l};
      episodeKeys := KeysAfter(episodeKeys, map[l := w]);
      episodes := episodes - {l};
      return Ok(());
    }

    /** One episode of the loser's season: merged into the one at its number, or moved. */
    method MergeOrMoveEpisode(ghost g: Graph, w: Id, l: Id, ghost done: set<Id>, c: Id) returns (r: Result<(), CatalogError>)
      requires w != l && UniqueRows(g.episodes) && InfosOk(EpisodeLevel, g.episodeInfo, g.episodes.Keys)
      requires Now() == SeasonPart(g, w, l, done, order) && done <= Children(g.episodes, l)
      requires c in Children(g.episodes, l) && c !in done
      modifies this`episodes, this`episodeKeys, this`episodeInfo
      ensures r.Ok? <==> NextEpisodeMerges(g, w, l, c, order)
      ensures r.Ok? ==> Now() == SeasonPart(g, w, l, done + {c}, order)
      ensures r.Err? ==> r.error == IdentityConflict
    {
      hide SeasonPart, DropEpisode, PairsUnder, Children, UniqueRows, NextEpisodeMerges, MergeInfo, HasChild, InfosOk, InfoOk;
      NextEpisode(g, w, l, done, c, order);
      var found := EpisodeAt(w, episodes[c].number);
      if found.Some? {
        NextEpisodeFound(g, w, l, done, c, found.value, order);
        r := MergeEpisode(found.value, c);
      } else {
        NextEpisodeFree(g, w, l, done, c, order);
        episodes := episodes[c := Row(w, episodes[c].number)];
        r := Ok(());
      }
    }

    method EpisodesOf(season: Id) returns (children: set<Id>)
      ensures children == Children(Now().episodes, season)
    {
      children := set e | e in episodes && episodes[e].parent == season;
    }

    method MergeEpisodes(w: Id, l: Id) returns (r: Result<(), CatalogError>)
      requires w != l && UniqueRows(episodes) && InfosOk(EpisodeLevel, episodeInfo, episodes.Keys)
      modifies this`episodes, this`episodeKeys, this`episodeInfo
      ensures r.Ok? <==> EpisodesMerge(old(Now()), w, l, Children(old(Now()).episodes, l), order)
      ensures r.Ok? ==> Now() == SeasonPart(old(Now()), w, l, Children(old(Now()).episodes, l), order)
      ensures r.Err? ==> r.error == IdentityConflict
    {
      hide SeasonPart, Children, UniqueRows, EpisodesMerge, NextEpisodeMerges, InfosOk;
      ghost var g := Now();
      var todo := EpisodesOf(l);
      ghost var done: set<Id> := {};
      NoEpisodeYet(g, w, l, order);
      while todo != {}
        invariant done + todo == Children(g.episodes, l) && done !! todo
        invariant Now() == SeasonPart(g, w, l, done, order) && EpisodesMerge(g, w, l, done, order)
        decreases |todo|
      {
        var c :| c in todo;
        OneMoreEpisode(g, w, l, done, c, order);
        r := MergeOrMoveEpisode(g, w, l, done, c);
        if r.Err? {
          return;
        }
        todo, done := todo - {c}, done + {c};
      }
      assert done == Children(g.episodes, l);
      return Ok(());
    }

    // ----- Merging two seasons -----

    method MergeSeason(w: Id, l: Id) returns (r: Result<(), CatalogError>)
      requires w != l && w in seasonInfo && l in seasonInfo
      requires InfoOk(SeasonLevel, seasonInfo[w]) && InfoOk(SeasonLevel, seasonInfo[l])
      requires UniqueRows(episodes) && InfosOk(EpisodeLevel, episodeInfo, episodes.Keys)
      modifies this`seasons, this`seasonKeys, this`seasonInfo, this`episodes, this`episodeKeys, this`episodeInfo
      ensures r.Ok? <==> SeasonMergeable(old(Now()), w, l, order)
      ensures r.Ok? ==> Now() == SeasonMerged(old(Now()), w, l, order)
      ensures r.Err? ==> r.error == IdentityConflict
    {
      hide SeasonPart, SeasonMerged, SeasonMergeable, Children, UniqueRows, EpisodesMerge, MergeInfo, DropSeason, InfosOk, InfoOk;
      ghost var g := Now();
      SeasonDone(g, w, l, order);
      SeasonMergesWhen(g, w, l, order);
      r := MergeEpisodes(w, l);
      if r.Ok? {
        SeasonPartKeepsSeasons(g, w, l, Children(g.episodes, l), order);
        r := DeleteSeason(w, l);
      }
    }

    /** Combine what is kept about the seasons themselves and delete the loser. */
    method DeleteSeason(w: Id, l: Id) returns (r: Result<(), CatalogError>)
      requires w in seasonInfo && l in seasonInfo && w != l
      requires InfoOk(SeasonLevel, seasonInfo[w]) && InfoOk(SeasonLevel, seasonInfo[l])
      modifies this`seasons, this`seasonKeys, this`seasonInfo
      ensures r.Ok? <==> MergeInfo(SeasonLevel, old(seasonInfo)[w], old(seasonInfo)[l], order).Ok?
      ensures r.Ok? ==> Now() == DropSeason(old(Now()), w, l, order)
      ensures r.Err? ==> r.error == IdentityConflict
    {
      InfoMergesIff(SeasonLevel, seasonInfo[w], seasonInfo[l], order);
      hide MergeInfo, InfoAfter, KeysAfter, InfoMerges, InfoOk;
      var merged := MergeEntities(SeasonLevel, seasonInfo[w], seasonInfo[l], order);
      if merged.Err? {
        return Err(merged.error);
      }
      InfoOfOne(SeasonLevel, seasonInfo, w, l, order);
      seasonInfo := seasonInfo[w := merged.value] - {l};
      seasonKeys := KeysAfter(seasonKeys, map[l := w]);
      seasons := seasons - {l};
      return Ok(());
    }

    // ----- Merging two titles -----

    /** The season of the winner at the number of the next season of the loser. */
    method SeasonFor(ghost g: Graph, w: Id, l: Id, ghost done: set<Id>, c: Id) returns (found: Option<Id>)
      requires w != l && UniqueRows(g.seasons) && Now() == TitlePart(g, w, l, done, order) && done <= Children(g.seasons, l)
      requires c in Children(g.seasons, l) && c !in done
      ensures found.Some? ==> found.value in seasons && seasons[found.value] == Row(w, g.seasons[c].number)
      ensures found.None? ==> !HasChild(Now().seasons, w, g.seasons[c].number)
    {
      hide TitlePart, PairsUnder, UniqueRows, HasChild;
      NextSeason(g, w, l, done, c, order);
      found := SeasonAt(w, seasons[c].number);
    }

    /** One season of the loser: merged into the one at its number, or moved. */
    method MergeOrMoveSeason(ghost g: Graph, w: Id, l: Id, ghost done: set<Id>, c: Id) returns (r: Result<(), CatalogError>)
      requires w != l && UniqueRows(g.seasons) && UniqueRows(g.episodes) && AllInfosOk(g)
      requires Now() == TitlePart(g, w, l, done, order) && done <= Children(g.seasons, l)
      requires c in Children(g.seasons, l) && c !in done
      requires SeasonsMerge(g, w, l, done, order)
      modifies this`seasons, this`seasonKeys, this`seasonInfo, this`episodes, this`episodeKeys, this`episodeInfo
      ensures r.Ok? <==> NextSeasonMerges(g, w, l, c, order)
      ensures r.Ok? ==> Now() == TitlePart(g, w, l, done + {c}, order)
      ensures r.Err? ==> r.error == IdentityConflict
    {
      hide TitlePart, NextSeasonMerges, Children, UniqueRows, HasChild, AllInfosOk, SeasonsMerge;
      var found := SeasonFor(g, w, l, done, c);
      if found.Some? {
        r := MergeMatchedSeason(g, w, l, done, c, found.value);
      } else {
        MoveFreeSeason(g, w, l, done, c);
        r := Ok(());
      }
    }

    method MoveFreeSeason(ghost g: Graph, w: Id, l: Id, ghost done: set<Id>, c: Id)
      requires w != l && UniqueRows(g.seasons)
      requires Now() == TitlePart(g, w, l, done, order) && done <= Children(g.seasons, l)
      requires c in Children(g.seasons, l) && c !in done && !HasChild(Now().seasons, w, g.seasons[c].number)
      modifies this`seasons
      ensures NextSeasonMerges(g, w, l, c, order) && Now() == TitlePart(g, w, l, done + {c}, order)
    {
      hide TitlePart, NextSeasonMerges, PairsUnder, Children, UniqueRows, HasChild;
      NextSeasonFree(g, w, l, done, c, order);
      seasons := seasons[c := Row(w, seasons[c].number)];
    }

    method MergeMatchedSeason(ghost g: Graph, w: Id, l: Id, ghost done: set<Id>, c: Id,
                              pair: Id) returns (r: Result<(), CatalogError>)
      requires w != l && UniqueRows(g.seasons) && UniqueRows(g.episodes) && AllInfosOk(g)
      requires Now() == TitlePart(g, w, l, done, order) && done <= Children(g.seasons, l)
      requires c in Children(g.seasons, l) && c !in done && pair in seasons && seasons[pair] == Row(w, g.seasons[c].number)
      requires SeasonsMerge(g, w, l, done, order)
      modifies this`seasons, this`seasonKeys, this`seasonInfo, this`episodes, this`episodeKeys, this`episodeInfo
      ensures r.Ok? <==> NextSeasonMerges(g, w, l, c, order)
      ensures r.Ok? ==> Now() == TitlePart(g, w, l, done + {c}, order)
      ensures r.Err? ==> r.error == IdentityConflict
    {
      hide TitlePart, SeasonMerged, SeasonMergeable, NextSeasonMerges, PairsUnder, Children, UniqueRows, AllInfosOk, SeasonsMerge, InfosOk, InfoOk;
      NextSeasonFound(g, w, l, done, c, pair, order);
      r := MergeSeason(pair, c);
    }

    method MergeSeasons(w: Id, l: Id) returns (r: Result<(), CatalogError>)
      requires w != l && UniqueRows(seasons) && UniqueRows(episodes) && AllInfosOk(Now())
      modifies this`seasons, this`seasonKeys, this`seasonInfo, this`episodes, this`episodeKeys, this`episodeInfo
      ensures r.Ok? <==> SeasonsMerge(old(Now()), w, l, Children(old(Now()).seasons, l), order)
      ensures r.Ok? ==> Now() == TitlePart(old(Now()), w, l, Children(old(Now()).seasons, l), order)
      ensures r.Err? ==> r.error == IdentityConflict
    {
      hide TitlePart, Children, UniqueRows, SeasonsMerge, NextSeasonMerges, AllInfosOk;
      ghost var g := Now();
      var todo := ChildrenOf(l);
      ghost var done: set<Id> := {};
      NoSeasonYet(g, w, l, order);
      while todo != {}
        invariant done + todo == Children(g.seasons, l) && done !! todo
        invariant Now() == TitlePart(g, w, l, done, order) && SeasonsMerge(g, w, l, done, order)
        decreases |todo|
      {
        var c :| c in todo;
        OneMoreSeasonMerges(g, w, l, done, c, order);
        r := MergeOrMoveSeason(g, w, l, done, c);
        if r.Err? {
          return;
        }
        todo, done := todo - {c}, done + {c};
      }
      assert done == Children(g.seasons, l);
      return Ok(());
    }

    /** Page after page that lists the loser, in any order. */
    method RewritePages(w: Id, l: Id)
      modifies this`pages
      ensures pages == PagesAfter(old(pages), w, l)
    {
      hide Pages.MergePage;
      var todo := pages.Keys;
      ghost var was := pages;
      while todo != {}
        invariant todo <= was.Keys && pages.Keys == was.Keys
        invariant forall p :: p in was && p !in todo ==> pages[p] == Pages.MergePage(was[p], w, l)
        invariant forall p :: p in todo ==> pages[p] == was[p]
        decreases |todo|
      {
        var p :| p in todo;
        var page := Pages.MergeRows(pages[p], w, l);
        pages := pages[p := page];
        todo := todo - {p};
      }
    }

    /** Combine what is kept about the titles, rewrite the pages that list the loser, delete it. */
    method DeleteTitle(w: Id, l: Id) returns (r: Result<(), CatalogError>)
      requires w in titleInfo && l in titleInfo && w != l
      requires InfoOk(TitleLevel, titleInfo[w]) && InfoOk(TitleLevel, titleInfo[l])
      modifies this`titles, this`titleKeys, this`titleInfo, this`pages
      ensures r.Ok? <==> MergeInfo(TitleLevel, old(titleInfo)[w], old(titleInfo)[l], order).Ok?
      ensures r.Ok? ==> Now() == DropTitle(old(Now()), w, l, order)
      ensures r.Err? ==> r.error == IdentityConflict
    {
      InfoMergesIff(TitleLevel, titleInfo[w], titleInfo[l], order);
      hide MergeInfo, InfoAfter, KeysAfter, InfoMerges, PagesAfter, InfoOk;
      var merged := MergeEntities(TitleLevel, titleInfo[w], titleInfo[l], order);
      if merged.Err? {
        return Err(merged.error);
      }
      InfoOfOne(TitleLevel, titleInfo, w, l, order);
      titleInfo := titleInfo[w := merged.value] - {l};
      titleKeys := KeysAfter(titleKeys, map[l := w]);
      RewritePages(w, l);
      titles := titles - {l};
      return Ok(());
    }

    /** Children before parents. */
    method MergeTitle(w: Id, l: Id) returns (r: Result<(), CatalogError>)
      requires w != l && w in titles && l in titles && UniqueRows(seasons) && UniqueRows(episodes) && AllInfosOk(Now())
      modifies this
      ensures r.Ok? <==> Mergeable(old(Now()), w, l, order)
      ensures r.Ok? ==> Now() == MergedGraph(old(Now()), w, l, order)
      ensures r.Err? ==> r.error == IdentityConflict
    {
      hide TitlePart, MergedGraph, Mergeable, Children, UniqueRows, SeasonsMerge, MergeInfo, DropTitle, InfoOk;
      ghost var g := Now();
      InfosArePresent(g);
      TitleDone(g, w, l, order);
      TitleMergesWhen(g, w, l, order);
      r := MergeSeasons(w, l);
      if r.Ok? {
        TitlePartKeepsTitles(g, w, l, Children(g.seasons, l), order);
        r := DeleteTitle(w, l);
      }
    }

    // ----- The transaction -----

    /** An error has no effect. */
    method RollBack(g: Graph)
      modifies this
      ensures Now() == g
    {
      titles, seasons, episodes := g.titles, g.seasons, g.episodes;
      titleKeys, seasonKeys, episodeKeys := g.titleKeys, g.seasonKeys, g.episodeKeys;
      titleInfo, seasonInfo, episodeInfo, pages := g.titleInfo, g.seasonInfo, g.episodeInfo, g.pages;
    }

    /**
     Two titles that turn out to be one become the one with the lower identifier, exactly when
     nothing in their graphs contradicts it; otherwise nothing changes.
     */
    method Reconcile(first: Id, second: Id) returns (r: Result<Id, CatalogError>)
      requires GraphOk(Now()) && first in titles && second in titles && first != second
      modifies this
      ensures GraphOk(Now())
      ensures var w, l := Min(first, second), Max(first, second);
              && (r.Ok? <==> Compatible(old(Now()), w, l) && Mergeable(old(Now()), w, l, order))
              && (r.Ok? ==> r.value == w && Now() == MergedGraph(old(Now()), w, l, order))
              && (r.Err? ==> r.error == IdentityConflict && Now() == old(Now()))
    {
      hide PlacesOk, KeysOk, AllInfosOk, PagesOk, KindsOk, Compatible, Mergeable, MergedGraph, UniqueRows;
      var winner, loser := if first < second then first else second, if first < second then second else first;
      var g := Now();
      GraphIsPlaced(g);
      var ok := ValidateGraph(winner, loser);
      if !ok {
        return Err(IdentityConflict);
      }
      var merged := MergeTitle(winner, loser);
      if merged.Err? {
        RollBack(g);
        return Err(merged.error);
      }
      MergedGraphOk(g, winner, loser, order);
      return Ok(winner);
    }

    // ----- Growing the catalog -----

    /** Records a title's identifier, or reports the conflict. */
    method RecordTitleKey(id: Id, kind: Kind, i: Identifier, s: Source) returns (r: Result<(), CatalogError>)
      modifies this`titleKeys
      ensures match SetTitleKey(old(Now()), id, kind, i, s)
              case Ok(g) => r.Ok? && Now() == g
              case Err(e) => r == Err(e) && Now() == old(Now())
    {
      hide HasOtherTitleKey, EpisodeOwnsImdb, Valid, Unsupplied;
      if !Valid(i) {
        return Err(InvalidMetadata);
      }
      var unsupplied := Unsupplied(Now(), TitleLevel, id, s);
      if unsupplied.Some? {
        return Err(unsupplied.value);
      }
      if i.namespace.Imdb? && EpisodeOwnsImdb(Now(), i.external) {
        return Err(IdentityConflict);
      }
      var k := TitleKey(i.namespace, kind, i.external);
      if k in titleKeys && titleKeys[k] != id {
        return Err(IdentityConflict);
      }
      if HasOtherTitleKey(titleKeys, id, i) {
        return Err(IdentityConflict);
      }
      if k !in titleKeys {
        if id !in titles || titles[id] != kind {
          return Err(Database);
        }
        if i.namespace.Imdb? && TitleKey(Imdb, Other(kind), i.external) in titleKeys {
          return Err(Database);
        }
        titleKeys := titleKeys[k := id];
      }
      return Ok(());
    }

    /** The season at a coordinate, inserted if it is missing. */
    method PutSeason(series: Id, number: nat, newId: Id) returns (r: Result<Id, CatalogError>)
      requires newId !in seasons
      modifies this`seasons, this`seasonInfo
      ensures match AddSeason(old(Now()), series, number, newId)
              case Ok(g) => r.Ok? && Now() == g && r.value in seasons && seasons[r.value] == Row(series, number)
              case Err(e) => r == Err(e) && Now() == old(Now())
    {
      var found := SeasonAt(series, number);
      if found.Some? {
        return Ok(found.value);
      }
      if series !in titles || !titles[series].Series? {
        return Err(Database);
      }
      seasons := seasons[newId := Row(series, number)];
      seasonInfo := seasonInfo[newId := NewInfo()];
      return Ok(newId);
    }

    method PutEpisode(season: Id, number: nat, newId: Id) returns (r: Result<Id, CatalogError>)
      requires newId !in episodes
      modifies this`episodes, this`episodeInfo
      ensures match AddEpisode(old(Now()), season, number, newId)
              case Ok(g) => r.Ok? && Now() == g && r.value in episodes && episodes[r.value] == Row(season, number)
              case Err(e) => r == Err(e) && Now() == old(Now())
    {
      if number == 0 {
        return Err(InvalidMetadata);
      }
      var found := EpisodeAt(season, number);
      if found.Some? {
        return Ok(found.value);
      }
      if season !in seasons {
        return Err(Database);
      }
      episodes := episodes[newId := Row(season, number)];
      episodeInfo := episodeInfo[newId := NewInfo()];
      return Ok(newId);
    }

    /** The owners of the observed identifiers, each once. */
    method FindOwners(o: Observation) returns (r: Result<seq<Id>, CatalogError>)
      ensures r == Owners(Now(), o.kind, o.identifiers, {}, [])
    {
      hide ImdbTakenElsewhere, Valid;
      var owners: seq<Id> := [];
      var namespaces: set<Namespace> := {};
      var i := 0;
      while i < |o.identifiers|
        invariant i <= |o.identifiers|
        invariant Owners(Now(), o.kind, o.identifiers[i..], namespaces, owners) == Owners(Now(), o.kind, o.identifiers, {}, [])
      {
        var id := o.identifiers[i];
        assert o.identifiers[i..][1..] == o.identifiers[i + 1..];
        if !Valid(id) || id.namespace in namespaces {
          return Err(InvalidMetadata);
        }
        if id.namespace.Imdb? && ImdbTakenElsewhere(Now(), o.kind, id.external) {
          return Err(IdentityConflict);
        }
        namespaces := namespaces + {id.namespace};
        var k := TitleKey(id.namespace, o.kind, id.external);
        if k in titleKeys && titleKeys[k] !in owners {
          owners := owners + [titleKeys[k]];
        }
        i := i + 1;
      }
      return Ok(owners);
    }

    /** The title an observation is about; two owners are reconciled into one. */
    method ResolveTitle(o: Observation, newId: Id) returns (r: Result<Id, CatalogError>)
      requires GraphOk(Now()) && newId !in titles
      modifies this
      ensures match Resolve(old(Now()), o, newId, order)
              case Ok(found) => r == Ok(found.1) && Now() == found.0
              case Err(e) => r == Err(e) && Now() == old(Now())
    {
      hide PlacesOk, AllInfosOk, PagesOk, KindsOk, SeasonKeysOk, EpisodeKeysOk, ImdbSeparate, TitleKeysOk, Compatible, Mergeable,
           MergedGraph, Owners, Mentions;
      if o.identifiers == [] {
        return Err(InvalidMetadata);
      }
      OwnersExist(Now(), o.kind, o.identifiers, {}, []);
      var owners := FindOwners(o);
      if owners.Err? {
        return Err(owners.error);
      }
      if |owners.value| > 1 {
        if !Mentions(o.identifiers, Imdb) || !Mentions(o.identifiers, Namespace.Tmdb) {
          return Err(IdentityConflict);
        }
        r := Reconcile(owners.value[0], owners.value[1]);
      } else if |owners.value| == 1 {
        r := Ok(owners.value[0]);
      } else {
        InsertTitle(o.kind, newId);
        r := Ok(newId);
      }
    }

    method InsertTitle(kind: Kind, newId: Id)
      modifies this`titles, this`titleInfo
      ensures Now() == AddTitle(old(Now()), kind, newId)
    {
      titles := titles[newId := kind];
      titleInfo := titleInfo[newId := NewInfo()];
    }
  }

  // ----- What the loops over seasons rely on -----

  lemma GraphIsPlaced(g: Graph)
    requires GraphOk(g)
    ensures UniqueRows(g.seasons) && UniqueRows(g.episodes) && AllInfosOk(g)
  {
    hide KeysOk, PagesOk, KindsOk, UniqueRows, AllInfosOk;
  }

  lemma InfosArePresent(g: Graph)
    requires AllInfosOk(g)
    ensures InfoPresent(g)
    ensures forall x :: x in g.titleInfo ==> InfoOk(TitleLevel, g.titleInfo[x])
    ensures forall x :: x in g.seasonInfo ==> InfoOk(SeasonLevel, g.seasonInfo[x])
    ensures InfosOk(EpisodeLevel, g.episodeInfo, g.episodes.Keys)
  {
    hide InfoOk;
  }

  ghost predicate NextSeasonMerges(g: Graph, w: Id, l: Id, c: Id, order: seq<ProviderId>) {
    var pairs := SeasonPairs(g, w, l);
    c in pairs ==> SeasonMergeable(g, pairs[c], c, order)
  }

  /** The seasons handled so far merge. */
  ghost predicate SeasonsMerge(g: Graph, w: Id, l: Id, done: set<Id>, order: seq<ProviderId>) {
    forall c :: c in done ==> NextSeasonMerges(g, w, l, c, order)
  }

  lemma NoSeasonYet(g: Graph, w: Id, l: Id, order: seq<ProviderId>)
    ensures g == TitlePart(g, w, l, {}, order) && SeasonsMerge(g, w, l, {}, order)
  {
    NothingDone(g.seasons, g.seasonKeys, SeasonLevel, g.seasonInfo, SeasonPairs(g, w, l), w, order);
    NothingDone(g.episodes, g.episodeKeys, EpisodeLevel, g.episodeInfo, SeasonPairs(g, w, l), w, order);
    hide PairsUnder, PartRows, Only, KeysAfter, InfoAfter, RowsAfter;
  }

  lemma OneMoreSeasonMerges(g: Graph, w: Id, l: Id, done: set<Id>, c: Id, order: seq<ProviderId>)
    requires SeasonsMerge(g, w, l, done, order) && c in Children(g.seasons, l)
    ensures NextSeasonMerges(g, w, l, c, order) ==> SeasonsMerge(g, w, l, done + {c}, order)
    ensures !NextSeasonMerges(g, w, l, c, order) ==> !SeasonsMerge(g, w, l, Children(g.seasons, l), order)
  {
    hide NextSeasonMerges;
  }

  lemma NextSeason(g: Graph, w: Id, l: Id, done: set<Id>, c: Id, order: seq<ProviderId>)
    requires UniqueRows(g.seasons) && w != l && done <= Children(g.seasons, l) && c in Children(g.seasons, l) && c !in done
    ensures var part := TitlePart(g, w, l, done, order); c in part.seasons && part.seasons[c] == g.seasons[c]
  {
    NextIsUntouched(g.seasons, w, l, done, c);
    hide PairsUnder, PartRows, Only, KeysAfter, InfoAfter, RowsAfter, Children, UniqueRows;
  }

  /** A season found at the next one's number is its match, and merging the two decides what it did at the start. */
  lemma NextSeasonFound(g: Graph, w: Id, l: Id, done: set<Id>, c: Id, x: Id, order: seq<ProviderId>)
    requires UniqueRows(g.seasons) && UniqueRows(g.episodes) && AllInfosOk(g) && w != l && SeasonsMerge(g, w, l, done, order)
    requires done <= Children(g.seasons, l) && c in Children(g.seasons, l) && c !in done
    requires var part := TitlePart(g, w, l, done, order); x in part.seasons && part.seasons[x] == Row(w, g.seasons[c].number)
    ensures var part := TitlePart(g, w, l, done, order);
            && x != c && x in part.seasonInfo && c in part.seasonInfo
            && InfoOk(SeasonLevel, part.seasonInfo[x]) && InfoOk(SeasonLevel, part.seasonInfo[c])
            && UniqueRows(part.episodes) && InfosOk(EpisodeLevel, part.episodeInfo, part.episodes.Keys)
            && (NextSeasonMerges(g, w, l, c, order) <==> SeasonMergeable(part, x, c, order))
            && SeasonMerged(part, x, c, order) == TitlePart(g, w, l, done + {c}, order)
  {
    InfosArePresent(g);
    hide AllInfosOk, InfosOk, InfoOk, SeasonsMerge;
    SeasonFoundIsPair(g, w, l, done, c, x, order);
    SeasonMatched(g, w, l, done, c, order);
    SeasonDecidedAtStart(g, w, l, done, c, order);
    PartEpisodesOk(g, w, l, done, order);
    SeasonInfoKept(g, w, l, done, c, order);
    hide TitlePart, SeasonMerged, SeasonMergeable, SeasonPairs, Children, UniqueRows, InfoPresent, NextSeasonMerges;
    assert NextSeasonMerges(g, w, l, c, order) <==> SeasonMergeable(g, x, c, order) by { NextSeasonIs(g, w, l, c, order); }
  }

  lemma NextSeasonIs(g: Graph, w: Id, l: Id, c: Id, order: seq<ProviderId>)
    ensures NextSeasonMerges(g, w, l, c, order) <==> (c in SeasonPairs(g, w, l) ==> SeasonMergeable(g, SeasonPairs(g, w, l)[c], c, order))
  {
  }

  lemma SeasonFoundIsPair(g: Graph, w: Id, l: Id, done: set<Id>, c: Id, x: Id, order: seq<ProviderId>)
    requires UniqueRows(g.seasons) && w != l && done <= Children(g.seasons, l) && c in Children(g.seasons, l) && c !in done
    requires var part := TitlePart(g, w, l, done, order); x in part.seasons && part.seasons[x] == Row(w, g.seasons[c].number)
    ensures c in SeasonPairs(g, w, l) && SeasonPairs(g, w, l)[c] == x && x != c
  {
    hide *;
    TitlePartTables(g, w, l, done, order);
    SeasonPairsAre(g, w, l);
    NextMatchIsOriginal(g.seasons, w, l, done, c, x);
    SeasonOfPair(g, w, l, c);
  }

  lemma SeasonPairsAre(g: Graph, w: Id, l: Id)
    ensures SeasonPairs(g, w, l) == PairsUnder(g.seasons, map[l := w])
  {
  }

  lemma PartEpisodesOk(g: Graph, w: Id, l: Id, done: set<Id>, order: seq<ProviderId>)
    requires UniqueRows(g.seasons) && UniqueRows(g.episodes) && w != l && SeasonsMerge(g, w, l, done, order)
    requires InfosOk(EpisodeLevel, g.episodeInfo, g.episodes.Keys)
    ensures var part := TitlePart(g, w, l, done, order);
            UniqueRows(part.episodes) && InfosOk(EpisodeLevel, part.episodeInfo, part.episodes.Keys)
  {
    var s := Only(SeasonPairs(g, w, l), done);
    EpisodesDoneMerge(g, w, l, done, order);
    InfoAfterOk(EpisodeLevel, g.episodeInfo, g.episodes.Keys, PairsUnder(g.episodes, s), order);
    hide InfosOk, InfoMerges, SeasonsMerge;
    SeasonPairsGood(g, w, l);
    OnlyGood(SeasonPairs(g, w, l), done);
    RowsAfterUnique(g.episodes, s);
    RowsAfterKeys(g.episodes, PairsUnder(g.episodes, s), s);
    hide PairsUnder, SeasonPairs, PartRows, Only, KeysAfter, InfoAfter, RowsAfter, UniqueRows, Good;
  }

  /** The episodes under the seasons handled so far merge. */
  lemma EpisodesDoneMerge(g: Graph, w: Id, l: Id, done: set<Id>, order: seq<ProviderId>)
    requires SeasonsMerge(g, w, l, done, order)
    ensures InfoMerges(EpisodeLevel, g.episodeInfo, PairsUnder(g.episodes, Only(SeasonPairs(g, w, l), done)), order)
  {
    var pairs := SeasonPairs(g, w, l);
    var s := Only(pairs, done);
    EpisodesMergeEach(g.episodes, g.episodeInfo, s, order);
    hide SeasonPairs, PairsUnder, InfoMerges;
    forall c | c in s ensures InfoMerges(EpisodeLevel, g.episodeInfo, PairsUnder(g.episodes, map[c := s[c]]), order) {
      assert NextSeasonMerges(g, w, l, c, order);
    }
  }

  lemma OnlyGood(r: map<Id, Id>, done: set<Id>)
    requires Good(r)
    ensures Good(Only(r, done))
  {
  }

  lemma SeasonInfoKept(g: Graph, w: Id, l: Id, done: set<Id>, c: Id, order: seq<ProviderId>)
    requires UniqueRows(g.seasons) && InfoPresent(g) && w != l && c in SeasonPairs(g, w, l) && c !in done
    requires forall x :: x in g.seasonInfo ==> InfoOk(SeasonLevel, g.seasonInfo[x])
    ensures var part := TitlePart(g, w, l, done, order); var x := SeasonPairs(g, w, l)[c];
            && c in part.seasonInfo && x in part.seasonInfo
            && InfoOk(SeasonLevel, part.seasonInfo[x]) && InfoOk(SeasonLevel, part.seasonInfo[c])
  {
    var pairs := SeasonPairs(g, w, l);
    SeasonPairsGood(g, w, l);
    SeasonPairHasInfo(g, w, l, c);
    TitlePartTables(g, w, l, done, order);
    hide PairsUnder, SeasonPairs, InfoAfter, TitlePart, UniqueRows, InfoOk;
    InfoElsewhere(SeasonLevel, g.seasonInfo, Only(pairs, done), order, c);
    InfoElsewhere(SeasonLevel, g.seasonInfo, Only(pairs, done), order, pairs[c]);
  }

  lemma NextSeasonFree(g: Graph, w: Id, l: Id, done: set<Id>, c: Id, order: seq<ProviderId>)
    requires UniqueRows(g.seasons) && w != l && done <= Children(g.seasons, l) && c in Children(g.seasons, l) && c !in done
    requires !HasChild(TitlePart(g, w, l, done, order).seasons, w, g.seasons[c].number)
    ensures NextSeasonMerges(g, w, l, c, order)
    ensures var part := TitlePart(g, w, l, done, order);
            c in part.seasons && MoveSeason(part, c, w) == TitlePart(g, w, l, done + {c}, order)
  {
    PairIsFound(g.seasons, w, l, done, c);
    hide PairsUnder, HasChild, SeasonMergeable;
    SeasonMoved(g, w, l, done, c, order);
  }

  lemma TitleMergesWhen(g: Graph, w: Id, l: Id, order: seq<ProviderId>)
    requires InfoPresent(g) && w in g.titles && l in g.titles && w != l
    ensures Mergeable(g, w, l, order)
       <==> SeasonsMerge(g, w, l, Children(g.seasons, l), order)
            && MergeInfo(TitleLevel, g.titleInfo[w], g.titleInfo[l], order).Ok?
  {
    MergeableBySeason(g, w, l, order);
    InfoOfOne(TitleLevel, g.titleInfo, w, l, order);
    PairsAreChildren(g, w, l);
    hide SeasonPairs, SeasonMergeable, InfoMerges, MergeInfo, InfoAfter, Mergeable;
    if SeasonsMerge(g, w, l, Children(g.seasons, l), order) {
      forall c | c in SeasonPairs(g, w, l) ensures SeasonMergeable(g, SeasonPairs(g, w, l)[c], c, order) {
        assert NextSeasonMerges(g, w, l, c, order);
      }
    }
  }

  lemma TitlePartKeepsTitles(g: Graph, w: Id, l: Id, done: set<Id>, order: seq<ProviderId>)
    ensures TitlePart(g, w, l, done, order).titleInfo == g.titleInfo
  {
  }

  // ----- What the loops over episodes rely on -----

  ghost predicate NextEpisodeMerges(g: Graph, w: Id, l: Id, c: Id, order: seq<ProviderId>) {
    var pairs := PairsUnder(g.episodes, map[l := w]);
    c in pairs ==> c in g.episodeInfo && pairs[c] in g.episodeInfo
                   && MergeInfo(EpisodeLevel, g.episodeInfo[pairs[c]], g.episodeInfo[c], order).Ok?
  }

  /** The episodes handled so far merge. */
  ghost predicate EpisodesMerge(g: Graph, w: Id, l: Id, done: set<Id>, order: seq<ProviderId>) {
    forall c :: c in done ==> NextEpisodeMerges(g, w, l, c, order)
  }

  lemma NoEpisodeYet(g: Graph, w: Id, l: Id, order: seq<ProviderId>)
    ensures g == SeasonPart(g, w, l, {}, order) && EpisodesMerge(g, w, l, {}, order)
  {
    NothingDone(g.episodes, g.episodeKeys, EpisodeLevel, g.episodeInfo, PairsUnder(g.episodes, map[l := w]), w, order);
    hide PairsUnder, PartRows, Only, KeysAfter, InfoAfter;
  }

  lemma OneMoreEpisode(g: Graph, w: Id, l: Id, done: set<Id>, c: Id, order: seq<ProviderId>)
    requires EpisodesMerge(g, w, l, done, order) && c in Children(g.episodes, l)
    ensures NextEpisodeMerges(g, w, l, c, order) ==> EpisodesMerge(g, w, l, done + {c}, order)
    ensures !NextEpisodeMerges(g, w, l, c, order) ==> !EpisodesMerge(g, w, l, Children(g.episodes, l), order)
  {
    hide NextEpisodeMerges;
  }

  lemma NextEpisode(g: Graph, w: Id, l: Id, done: set<Id>, c: Id, order: seq<ProviderId>)
    requires UniqueRows(g.episodes) && w != l && done <= Children(g.episodes, l)
             && c in Children(g.episodes, l) && c !in done
    ensures var part := SeasonPart(g, w, l, done, order);
            c in part.episodes && part.episodes[c] == g.episodes[c]
  {
    NextIsUntouched(g.episodes, w, l, done, c);
    hide PairsUnder, PartRows, Only, KeysAfter, InfoAfter, Children, UniqueRows;
  }

  /** A row found at the next episode's number is its match, with the information it had at the start. */
  lemma NextEpisodeFound(g: Graph, w: Id, l: Id, done: set<Id>, c: Id, x: Id, order: seq<ProviderId>)
    requires UniqueRows(g.episodes) && InfosOk(EpisodeLevel, g.episodeInfo, g.episodes.Keys) && w != l
    requires done <= Children(g.episodes, l) && c in Children(g.episodes, l) && c !in done
    requires var part := SeasonPart(g, w, l, done, order); x in part.episodes && part.episodes[x] == Row(w, g.episodes[c].number)
    ensures var part := SeasonPart(g, w, l, done, order);
            && x != c && x in part.episodeInfo && c in part.episodeInfo
            && InfoOk(EpisodeLevel, part.episodeInfo[x]) && InfoOk(EpisodeLevel, part.episodeInfo[c])
            && (NextEpisodeMerges(g, w, l, c, order) <==> MergeInfo(EpisodeLevel, part.episodeInfo[x], part.episodeInfo[c], order).Ok?)
            && DropEpisode(part, x, c, order) == SeasonPart(g, w, l, done + {c}, order)
  {
    var pairs := PairsUnder(g.episodes, map[l := w]);
    NextMatchIsOriginal(g.episodes, w, l, done, c, x);
    PairIsGood(w, l);
    PairsAreGood(g.episodes, map[l := w]);
    EpisodeMatched(g, w, l, done, c, order);
    OnlyApart(pairs, done, c);
    NextPairInfo(g, pairs, done, c, order);
    hide PairsUnder, PartRows, Only, KeysAfter, InfoAfter, Children, UniqueRows, MergeInfo, DropEpisode, Apart, InfoOk;
  }

  lemma NextPairInfo(g: Graph, pairs: map<Id, Id>, done: set<Id>, c: Id, order: seq<ProviderId>)
    requires Good(pairs) && c in pairs && c !in done && c in g.episodeInfo && pairs[c] in g.episodeInfo
    ensures var infos := InfoAfter(EpisodeLevel, g.episodeInfo, Only(pairs, done), order);
            c in infos && infos[c] == g.episodeInfo[c] && pairs[c] in infos && infos[pairs[c]] == g.episodeInfo[pairs[c]]
  {
    InfoElsewhere(EpisodeLevel, g.episodeInfo, Only(pairs, done), order, c);
    InfoElsewhere(EpisodeLevel, g.episodeInfo, Only(pairs, done), order, pairs[c]);
    hide InfoAfter;
  }

  lemma NextEpisodeFree(g: Graph, w: Id, l: Id, done: set<Id>, c: Id, order: seq<ProviderId>)
    requires UniqueRows(g.episodes) && w != l && done <= Children(g.episodes, l)
             && c in Children(g.episodes, l) && c !in done
    requires !HasChild(SeasonPart(g, w, l, done, order).episodes, w, g.episodes[c].number)
    ensures NextEpisodeMerges(g, w, l, c, order)
    ensures var part := SeasonPart(g, w, l, done, order);
            c in part.episodes && MoveEpisode(part, c, w) == SeasonPart(g, w, l, done + {c}, order)
  {
    NextIsUntouched(g.episodes, w, l, done, c);
    PairIsFound(g.episodes, w, l, done, c);
    EpisodeMoved(g, w, l, done, c, order);
  }

  /** The match of the next child can be found by its number. */
  lemma PairIsFound(rows: map<Id, Row>, w: Id, l: Id, done: set<Id>, c: Id)
    requires UniqueRows(rows) && w != l && done <= Children(rows, l) && c in Children(rows, l) && c !in done
    ensures var pairs := PairsUnder(rows, map[l := w]);
            c in pairs ==> HasChild(PartRows(rows, Only(pairs, done), done, w), w, rows[c].number)
  {
    NextIsUntouched(rows, w, l, done, c);
  }

  lemma SeasonMergesWhen(g: Graph, w: Id, l: Id, order: seq<ProviderId>)
    requires w in g.seasonInfo && l in g.seasonInfo && w != l
    ensures SeasonMergeable(g, w, l, order)
       <==> EpisodesMerge(g, w, l, Children(g.episodes, l), order)
            && MergeInfo(SeasonLevel, g.seasonInfo[w], g.seasonInfo[l], order).Ok?
  {
    InfoOfOne(SeasonLevel, g.seasonInfo, w, l, order);
    EpisodesMergeAll(g, w, l, order);
    hide PairsUnder, InfoMerges, MergeInfo, EpisodesMerge, InfoAfter;
  }

  lemma EpisodesMergeAll(g: Graph, w: Id, l: Id, order: seq<ProviderId>)
    ensures EpisodesMerge(g, w, l, Children(g.episodes, l), order)
       <==> InfoMerges(EpisodeLevel, g.episodeInfo, PairsUnder(g.episodes, map[l := w]), order)
  {
    hide MergeInfo;
    var pairs := PairsUnder(g.episodes, map[l := w]);
    forall x | x in pairs ensures x in Children(g.episodes, l) {
      PairsUnderAt(g.episodes, map[l := w], x);
    }
    hide PairsUnder;
    if EpisodesMerge(g, w, l, Children(g.episodes, l), order) {
      forall x | x in pairs ensures x in g.episodeInfo && pairs[x] in g.episodeInfo
                                    && MergeInfo(EpisodeLevel, g.episodeInfo[pairs[x]], g.episodeInfo[x], order).Ok?
      {
        assert NextEpisodeMerges(g, w, l, x, order);
      }
    }
  }

  lemma SeasonPartKeepsSeasons(g: Graph, w: Id, l: Id, done: set<Id>, order: seq<ProviderId>)
    ensures SeasonPart(g, w, l, done, order).seasonInfo == g.seasonInfo
  {
  }

  // ----- Validation, season by season -----

  /** Every identified season outside `todo` agrees. */
  ghost predicate AgreedExcept(g: Graph, w: Id, l: Id, todo: set<Id>) {
    forall c :: c in SeasonPairs(g, w, l) && c !in todo ==> SeasonAgrees(g, SeasonPairs(g, w, l)[c], c)
  }

  lemma AgreedDecides(g: Graph, w: Id, l: Id)
    requires w in g.titles && l in g.titles
    ensures AgreedExcept(g, w, l, Children(g.seasons, l))
    ensures Compatible(g, w, l) ==> g.titles[w] == g.titles[l] && !TitleConflict(g.titleKeys, w, l)
    ensures g.titles[w] == g.titles[l] && !TitleConflict(g.titleKeys, w, l) && AgreedExcept(g, w, l, {}) ==> Compatible(g, w, l)
  {
    CompatibleBySeason(g, w, l);
    PairsAreChildren(g, w, l);
    hide PairsUnder, SeasonPairs, SeasonAgrees, TitleConflict, Compatible;
  }

  lemma AgreedNext(g: Graph, w: Id, l: Id, todo: set<Id>, c: Id)
    requires w in g.titles && l in g.titles && AgreedExcept(g, w, l, todo)
    ensures (c in SeasonPairs(g, w, l) ==> SeasonAgrees(g, SeasonPairs(g, w, l)[c], c)) ==> AgreedExcept(g, w, l, todo - {c})
    ensures c in SeasonPairs(g, w, l) && !SeasonAgrees(g, SeasonPairs(g, w, l)[c], c) ==> !Compatible(g, w, l)
  {
    CompatibleBySeason(g, w, l);
    hide PairsUnder, SeasonPairs, SeasonAgrees, TitleConflict, Compatible;
  }

  /** A row found at a child's number under the winner is the row the child is identified with. */
  lemma MatchIsPair(rows: map<Id, Row>, w: Id, l: Id, c: Id, x: Id)
    requires UniqueRows(rows) && c in rows && rows[c].parent == l && x in rows && rows[x] == Row(w, rows[c].number)
    ensures c in PairsUnder(rows, map[l := w]) && PairsUnder(rows, map[l := w])[c] == x
  {
    var up: map<Id, Id> := map[l := w];
    MeetsChild(rows, up, c, x);
  }

  lemma SeasonMatchIsPair(g: Graph, w: Id, l: Id, c: Id, x: Id)
    requires UniqueRows(g.seasons) && c in g.seasons && g.seasons[c].parent == l
    requires x in g.seasons && g.seasons[x] == Row(w, g.seasons[c].number)
    ensures c in SeasonPairs(g, w, l) && SeasonPairs(g, w, l)[c] == x
  {
    MatchIsPair(g.seasons, w, l, c, x);
  }

  lemma NoMatchNoPair(g: Graph, w: Id, l: Id, c: Id)
    requires c in g.seasons && !HasChild(g.seasons, w, g.seasons[c].number)
    ensures c !in SeasonPairs(g, w, l)
  {
  }

  lemma PairsAreChildren(g: Graph, w: Id, l: Id)
    ensures forall c :: c in SeasonPairs(g, w, l) ==> c in g.seasons && g.seasons[c].parent == l
  {
  }

  ghost predicate SeasonAgrees(g: Graph, w: Id, l: Id) {
    !Conflict(g.seasonKeys, w, l) && NoConflicts(g.episodeKeys, PairsUnder(g.episodes, map[l := w]))
  }

  /** Two titles are compatible when their kinds, identifiers and identified seasons are. */
  lemma CompatibleBySeason(g: Graph, w: Id, l: Id)
    requires w in g.titles && l in g.titles
    ensures Compatible(g, w, l)
       <==> g.titles[w] == g.titles[l] && !TitleConflict(g.titleKeys, w, l)
            && forall c :: c in SeasonPairs(g, w, l) ==> SeasonAgrees(g, SeasonPairs(g, w, l)[c], c)
  {
    var s := SeasonPairs(g, w, l);
    EpisodesAgreeEach(g.episodes, g.episodeKeys, s);
    hide SeasonPairs, PairsUnder, Conflict, TitleConflict;
    var fits := g.titles[w] == g.titles[l] && !TitleConflict(g.titleKeys, w, l);
    assert Compatible(g, w, l) <==> fits && NoConflicts(g.seasonKeys, s) && NoConflicts(g.episodeKeys, PairsUnder(g.episodes, s));
    assert (forall c :: c in s ==> SeasonAgrees(g, s[c], c)) ==> NoConflicts(g.seasonKeys, s);
    assert (forall c :: c in s ==> SeasonAgrees(g, s[c], c)) ==> NoConflicts(g.episodeKeys, PairsUnder(g.episodes, s));
    if NoConflicts(g.seasonKeys, s) && NoConflicts(g.episodeKeys, PairsUnder(g.episodes, s)) {
      forall c | c in s ensures SeasonAgrees(g, s[c], c) {
        assert NoConflicts(g.episodeKeys, PairsUnder(g.episodes, map[c := s[c]]));
      }
    }
  }

  lemma EpisodesAgreeEach(rows: map<Id, Row>, keys: map<Key, Id>, s: map<Id, Id>)
    ensures NoConflicts(keys, PairsUnder(rows, s)) <==> forall c :: c in s ==> NoConflicts(keys, PairsUnder(rows, map[c := s[c]]))
  {
    hide PairsUnder, Conflict;
    var all := PairsUnder(rows, s);
    forall c, x | c in s && x in PairsUnder(rows, map[c := s[c]])
      ensures x in all && all[x] == PairsUnder(rows, map[c := s[c]])[x]
    {
      PairOfOne(rows, s, c, x);
    }
    if forall c :: c in s ==> NoConflicts(keys, PairsUnder(rows, map[c := s[c]])) {
      forall x | x in all ensures !Conflict(keys, all[x], x) {
        PairsUnderAt(rows, s, x);
        var c := rows[x].parent;
        PairOfOne(rows, s, c, x);
        assert NoConflicts(keys, PairsUnder(rows, map[c := s[c]]));
      }
    }
    if NoConflicts(keys, all) {
      forall c | c in s ensures NoConflicts(keys, PairsUnder(rows, map[c := s[c]])) {
        NoConflictsFewer(keys, all, PairsUnder(rows, map[c := s[c]]));
      }
    }
  }

  lemma NoConflictsFewer(keys: map<Key, Id>, r: map<Id, Id>, fewer: map<Id, Id>)
    requires NoConflicts(keys, r) && forall x :: x in fewer ==> x in r && r[x] == fewer[x]
    ensures NoConflicts(keys, fewer)
  {
    hide Conflict;
  }
}
