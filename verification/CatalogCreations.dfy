/**
 Which steps give an identifier to a new row. A step that names an unused identifier need not use
 it: an observed title may have an owner already, a coordinate may be taken, the step may fail. When
 it does use it, nothing has been played on the new entity yet.
 */
module CatalogCreations {
  import opened Util
  import opened ProviderPriority
  import opened EntityInfo
  import opened EntityWrites
  import opened Renaming
  import opened CatalogGraph
  import opened CatalogIdentity
  import opened CatalogWrites
  import opened CatalogRuns
  import NewestRows
  import Pages
  import PersonalState

  // ----- The guards -----

  /** The observation has identifiers nobody owns, and x is what a new title is to be called. */
  predicate TakesNew(g: Graph, o: Observation, id: Id, x: Id) {
    id == x && o.identifiers != [] && Owners(g, o.kind, o.identifiers, {}, []) == Ok([])
  }

  /** One of the listed observations does so, after those before it were recorded. */
  ghost predicate ListingTakes(g: Graph, listed: seq<Listed>, order: seq<ProviderId>, x: Id)
    decreases |listed|
  {
    listed != []
    && (TakesNew(g, listed[0].observation, listed[0].newId, x)
        || var r := Observe(g, listed[0].observation, true, listed[0].newId, order);
           r.Ok? && ListingTakes(r.value.0, listed[1..], order, x))
  }

  /** An accepted write that inserts a row under x. */
  ghost predicate Creates(g: Graph, step: Step, order: seq<ProviderId>, level: Level, x: Id) {
    match step
    case ObserveTitle(o, id) => level.TitleLevel? && TakesNew(g, o, id, x) && Observe(g, o, false, id, order).Ok?
    case SavePage(p, listed, fetched, total) =>
      level.TitleLevel? && ListingTakes(g, listed, order, x) && WritePage(g, p, listed, fetched, total, order).Ok?
    case PutSeason(series, n, id) =>
      level.SeasonLevel? && id == x && series in g.titles && g.titles[series].Series? && !Taken(g.seasons, series, n)
    case PutEpisode(season, n, id) =>
      level.EpisodeLevel? && id == x && n != 0 && season in g.seasons && !Taken(g.episodes, season, n)
    case _ => false
  }

  // ----- Imports leave playback alone -----

  predicate SamePersonal(g: Graph, h: Graph, level: Level, x: Id) {
    && (x in Infos(g, level) <==> x in Infos(h, level))
    && (x in Infos(g, level) ==> Infos(g, level)[x].personal == Infos(h, level)[x].personal)
  }

  lemma {:induction false} KeysLeaveInfos(g: Graph, id: Id, kind: Kind, ids: seq<Identifier>, s: Source, level: Level)
    requires ImportKeys(g, id, kind, ids, s).Ok?
    ensures Infos(ImportKeys(g, id, kind, ids, s).value, level) == Infos(g, level)
    decreases |ids|
  {
    hide Valid, Unsupplied, HasOtherTitleKey, EpisodeOwnsImdb;
    if ids != [] {
      var mid := SetTitleKey(g, id, kind, ids[0], s).value;
      assert mid == g.(titleKeys := mid.titleKeys);
      KeysLeaveInfos(mid, id, kind, ids[1..], s, level);
    }
  }

  lemma SuppliedKeepsPersonal(g: Graph, id: Id, w: Write, s: Source, order: seq<ProviderId>, level: Level, x: Id)
    requires WriteAt(g, TitleLevel, id, w, s, order).Ok? && IsSupplied(w)
    ensures SamePersonal(g, WriteAt(g, TitleLevel, id, w, s, order).value, level, x)
  {
    WriteAtIs(g, TitleLevel, id, w, s, order);
    var info := WriteInfo(EntitySort(g, TitleLevel, id), Infos(g, TitleLevel)[id], w, order).value;
    assert info.personal == Infos(g, TitleLevel)[id].personal;
    InfosWith(g, TitleLevel, Infos(g, TitleLevel)[id := info]);
    hide WriteAt, WriteInfo, WithInfos, Infos;
  }

  lemma SamePersonalTwice(g: Graph, m: Graph, h: Graph, level: Level, x: Id)
    requires SamePersonal(g, m, level, x) && SamePersonal(m, h, level, x)
    ensures SamePersonal(g, h, level, x)
  {
    hide Infos;
  }

  lemma {:induction false} RatingsKeepPersonal(g: Graph, id: Id, ratings: seq<(RatingKey, NewestRows.Row<string>)>, s: Source,
                                               order: seq<ProviderId>, level: Level, x: Id)
    requires ImportRatings(g, id, ratings, s, order).Ok?
    ensures SamePersonal(g, ImportRatings(g, id, ratings, s, order).value, level, x)
    decreases |ratings|
  {
    hide WriteAt, SamePersonal;
    if ratings == [] {
      assert SamePersonal(g, g, level, x) by { SameItself(g, level, x); }
    } else {
      var w := WriteRating(ratings[0].0, ratings[0].1);
      var mid := WriteAt(g, TitleLevel, id, w, s, order).value;
      SuppliedKeepsPersonal(g, id, w, s, order, level, x);
      RatingsKeepPersonal(mid, id, ratings[1..], s, order, level, x);
      SamePersonalTwice(g, mid, ImportRatings(g, id, ratings, s, order).value, level, x);
    }
  }

  lemma SameItself(g: Graph, level: Level, x: Id)
    ensures SamePersonal(g, g, level, x)
  {
  }

  lemma ImportKeepsPersonal(g: Graph, id: Id, o: Observation, s: Source, order: seq<ProviderId>, level: Level, x: Id)
    requires Import(g, id, o, s, order).Ok?
    ensures SamePersonal(g, Import(g, id, o, s, order).value, level, x)
  {
    hide *;
    ImportParts(g, id, o, s, order);
    KeysLeaveInfos(g, id, o.kind, o.identifiers, s, level);
    var named := ImportKeys(g, id, o.kind, o.identifiers, s).value;
    SameInfos(g, named, level, x);
    var w := WriteFields(o.fields, o.origin);
    FieldsAreSupplied(o);
    SuppliedKeepsPersonal(named, id, w, s, order, level, x);
    var described := WriteAt(named, TitleLevel, id, w, s, order).value;
    RatingsKeepPersonal(described, id, o.ratings, s, order, level, x);
    SamePersonalTwice(g, named, described, level, x);
    SamePersonalTwice(g, described, Import(g, id, o, s, order).value, level, x);
  }

  lemma SameInfos(g: Graph, h: Graph, level: Level, x: Id)
    requires Infos(h, level) == Infos(g, level)
    ensures SamePersonal(g, h, level, x)
  {
  }

  lemma FieldsAreSupplied(o: Observation)
    ensures IsSupplied(WriteFields(o.fields, o.origin))
  {
  }

  // ----- A new row is new -----

  /** Nothing personal is kept about the entity. */
  predicate Untouched(g: Graph, level: Level, x: Id) {
    x in Infos(g, level) && Infos(g, level)[x].personal == PersonalState.Personal(None, None, None)
  }

  lemma UntouchedStays(g: Graph, h: Graph, level: Level, x: Id)
    requires Untouched(g, level, x) && SamePersonal(g, h, level, x)
    ensures Untouched(h, level, x)
  {
    hide Infos;
  }

  lemma AddedTitleIsUntouched(g: Graph, o: Observation, id: Id, order: seq<ProviderId>)
    requires TakesNew(g, o, id, id)
    ensures Resolve(g, o, id, order) == Ok((AddTitle(g, o.kind, id), id)) && Untouched(AddTitle(g, o.kind, id), TitleLevel, id)
  {
    hide Owners, Reconciled;
  }

  lemma ObservedNewIsUntouched(g: Graph, o: Observation, paged: bool, x: Id, order: seq<ProviderId>)
    requires TakesNew(g, o, x, x) && Observe(g, o, paged, x, order).Ok?
    ensures var (h, t) := Observe(g, o, paged, x, order).value; t == x && Untouched(h, TitleLevel, x)
  {
    hide *;
    AddedTitleIsUntouched(g, o, x, order);
    ObserveParts(g, o, paged, x, order);
    var m := AddTitle(g, o.kind, x);
    ImportKeepsPersonal(m, x, o, SourceOf(x, paged), order, TitleLevel, x);
    UntouchedStays(m, Observe(g, o, paged, x, order).value.0, TitleLevel, x);
  }

  /** x is untouched, or it is gone. */
  predicate UntouchedOrGone(g: Graph, x: Id) { x in g.titles ==> Untouched(g, TitleLevel, x) }

  lemma MergedTitleInfo(g: Graph, w: Id, l: Id, order: seq<ProviderId>)
    ensures MergedGraph(g, w, l, order).titleInfo == InfoAfter(TitleLevel, g.titleInfo, map[l := w], order)
    ensures MergedGraph(g, w, l, order).titles == g.titles - {l}
  {
    hide SeasonPairs, EpisodePairs, RowsAfter, KeysAfter, PagesAfter, InfoAfter;
  }

  lemma MergeLeavesOthers(g: Graph, w: Id, l: Id, order: seq<ProviderId>, x: Id)
    requires GraphOk(g) && x != w && UntouchedOrGone(g, x)
    ensures UntouchedOrGone(MergedGraph(g, w, l, order), x)
  {
    MergedTitleInfo(g, w, l, order);
    hide GraphOk, MergedGraph, InfoAfter;
    if x in g.titles && x != l {
      InfoElsewhere(TitleLevel, g.titleInfo, map[l := w], order, x);
    }
  }

  lemma ReconcileLeavesOthers(g: Graph, a: Id, b: Id, order: seq<ProviderId>, x: Id)
    requires GraphOk(g) && Reconciled(g, a, b, order).Ok? && UntouchedOrGone(g, x)
    ensures var (h, t) := Reconciled(g, a, b, order).value; x != t ==> UntouchedOrGone(h, x)
  {
    hide GraphOk, Compatible, Mergeable, MergedGraph, UntouchedOrGone;
    var w, l := Min(a, b), Max(a, b);
    if x != w {
      MergeLeavesOthers(g, w, l, order, x);
    }
  }

  lemma AddTitleLeavesOthers(g: Graph, kind: Kind, id: Id, x: Id)
    requires UntouchedOrGone(g, x) && x != id
    ensures UntouchedOrGone(AddTitle(g, kind, id), x)
  {
    hide NewInfo;
  }

  lemma ResolveLeavesOthers(g: Graph, o: Observation, id: Id, order: seq<ProviderId>, x: Id)
    requires GraphOk(g) && Resolve(g, o, id, order).Ok? && UntouchedOrGone(g, x)
    ensures var (h, t) := Resolve(g, o, id, order).value; x != t ==> UntouchedOrGone(h, x)
  {
    hide GraphOk, Reconciled, AddTitle, UntouchedOrGone, Owners, Mentions;
    var owners := Owners(g, o.kind, o.identifiers, {}, []).value;
    if |owners| > 1 {
      ReconcileLeavesOthers(g, owners[0], owners[1], order, x);
    } else if |owners| == 0 && x != id {
      AddTitleLeavesOthers(g, o.kind, id, x);
    }
  }

  lemma ImportLeavesOthers(g: Graph, h: Graph, x: Id)
    requires UntouchedOrGone(g, x) && SamePersonal(g, h, TitleLevel, x) && h.titles == g.titles
    ensures UntouchedOrGone(h, x)
  {
    hide Infos;
  }

  /** Observing one title leaves every other untouched title untouched, unless it is merged away. */
  lemma ObserveLeavesOthers(g: Graph, o: Observation, paged: bool, id: Id, order: seq<ProviderId>, x: Id)
    requires GraphOk(g) && id !in g.titles && Observe(g, o, paged, id, order).Ok? && UntouchedOrGone(g, x)
    ensures var (h, t) := Observe(g, o, paged, id, order).value; x != t ==> UntouchedOrGone(h, x)
  {
    hide *;
    ObserveParts(g, o, paged, id, order);
    var (m, t) := Resolve(g, o, id, order).value;
    ResolveResolves(g, o, id, order);
    ResolvedIsOk(g, m, t, o.kind);
    if x != t {
      ResolveLeavesOthers(g, o, id, order, x);
      ImportRecords(m, t, o, SourceOf(t, paged), order);
      var h := Import(m, t, o, SourceOf(t, paged), order).value;
      SameRowsTitles(m, h);
      ImportKeepsPersonal(m, t, o, SourceOf(t, paged), order, TitleLevel, x);
      ImportLeavesOthers(m, h, x);
    }
  }

  lemma SameRowsTitles(g: Graph, h: Graph)
    requires SameRows(g, h)
    ensures h.titles == g.titles
  {
  }

  /** A title already listed is not listed again, so the rest of the listing leaves it alone. */
  lemma {:induction false} CollectLeavesListed(g: Graph, listed: seq<Listed>, ids: seq<Id>, order: seq<ProviderId>, x: Id)
    requires GraphOk(g) && Collect(g, listed, ids, order).Ok? && x in ids && UntouchedOrGone(g, x)
    ensures UntouchedOrGone(Collect(g, listed, ids, order).value.0, x)
    decreases |listed|
  {
    hide GraphOk, Observe, OwnsListed, UntouchedOrGone, Collect;
    if listed == [] {
      CollectNone(g, ids, order);
    } else {
      CollectNext(g, listed, ids, order);
      var first := listed[0];
      var (mid, t) := Observe(g, first.observation, true, first.newId, order).value;
      ObserveLeavesOthers(g, first.observation, true, first.newId, order, x);
      CollectLeavesListed(mid, listed[1..], ids + [t], order, x);
    }
  }

  /** A listing that takes x lists it, untouched unless it was merged away later on. */
  lemma {:induction false} CollectTakes(g: Graph, listed: seq<Listed>, ids: seq<Id>, order: seq<ProviderId>, x: Id)
    requires GraphOk(g) && Pages.Distinct(ids) && Collect(g, listed, ids, order).Ok? && ListingTakes(g, listed, order, x)
    ensures var (h, all) := Collect(g, listed, ids, order).value; x in all && UntouchedOrGone(h, x)
    decreases |listed|
  {
    hide GraphOk, Observe, OwnsListed, UntouchedOrGone, Untouched, Collect, TakesNew, Pages.Distinct;
    CollectNext(g, listed, ids, order);
    var first := listed[0];
    var (mid, t) := Observe(g, first.observation, true, first.newId, order).value;
    var more := ids + [t];
    DistinctMore(ids, t);
    if TakesNew(g, first.observation, first.newId, x) {
      TakenIs(g, first, x);
      ObservedNewIsUntouched(g, first.observation, true, x, order);
      UntouchedIsThere(mid, x);
      CollectLeavesListed(mid, listed[1..], more, order, x);
      CollectGives(mid, listed[1..], more, order);
      var all := Collect(g, listed, ids, order).value.1;
      assert all[..|more|] == more && more[|ids|] == x;
      assert all[|ids|] == x;
    } else {
      CollectTakes(mid, listed[1..], more, order, x);
    }
  }

  lemma TakenIs(g: Graph, first: Listed, x: Id)
    requires TakesNew(g, first.observation, first.newId, x)
    ensures first.newId == x
  {
    hide Owners;
  }

  lemma UntouchedIsThere(g: Graph, x: Id)
    requires Untouched(g, TitleLevel, x)
    ensures UntouchedOrGone(g, x)
  {
  }

  /** A written page lists titles that exist. */
  lemma PageCreates(g: Graph, p: Id, listed: seq<Listed>, fetched: nat, total: Option<nat>, order: seq<ProviderId>, x: Id)
    requires GraphOk(g) && WritePage(g, p, listed, fetched, total, order).Ok? && ListingTakes(g, listed, order, x)
    ensures Untouched(WritePage(g, p, listed, fetched, total, order).value, TitleLevel, x)
  {
    CollectTakes(g, listed, [], order, x);
    hide GraphOk, Collect, ListingTakes, PageAt, Pages.Store;
    var (h, all) := Collect(g, listed, [], order).value;
    assert x in h.titles;
  }

  lemma RowCreates(g: Graph, step: Step, order: seq<ProviderId>, level: Level, x: Id)
    requires (step.PutSeason? || step.PutEpisode?) && Creates(g, step, order, level, x)
    ensures Untouched(Next(g, step, order), level, x)
  {
    hide Taken;
  }

  /** A step that creates x leaves it in the catalog with nothing played, marked or saved. */
  lemma CreatedIsUntouched(g: Graph, step: Step, order: seq<ProviderId>, level: Level, x: Id)
    requires GraphOk(g) && Enabled(g, step) && Creates(g, step, order, level, x)
    ensures Untouched(Next(g, step, order), level, x)
  {
    hide GraphOk, Observe, WritePage, Untouched, ListingTakes, Owners;
    match step {
      case ObserveTitle(o, id) => ObservedNewIsUntouched(g, o, false, x, order);
      case SavePage(p, listed, fetched, total) => PageCreates(g, p, listed, fetched, total, order, x);
      case _ => RowCreates(g, step, order, level, x);
    }
  }
}
