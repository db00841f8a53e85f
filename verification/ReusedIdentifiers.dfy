/**
 A run of the catalog in which an old playback writer passes for a new one. A title is merged away,
 its identifier is given to another title, and that title's first run has the old run's number.
 */
module ReusedIdentifiers {
  import opened Util
  import opened ProviderPriority
  import opened EntityInfo
  import opened EntityWrites
  import opened Renaming
  import opened CatalogGraph
  import opened CatalogIdentity
  import opened CatalogWrites
  import opened CatalogRuns
  import opened CatalogFences
  import FieldImport
  import FieldMerge
  import FieldPolicy
  import HttpRange
  import NewestRows
  import PersonalState
  import PlaybackRuns

  function Named(ids: seq<Identifier>): Observation {
    Observation(Movie, ids, [], FieldPolicy.Origin("tmdb", FieldPolicy.Summary, 0), [])
  }

  function Key1(i: Identifier): TitleKey { TitleKey(i.namespace, Movie, i.external) }

  /** Importing no fields and no ratings changes nothing. */
  lemma NothingToDescribe(g: Graph, id: Id, s: Source, order: seq<ProviderId>)
    requires id in g.titleInfo && Unsupplied(g, TitleLevel, id, s).None?
    ensures WriteAt(g, TitleLevel, id, WriteFields([], Named([]).origin), s, order) == Ok(g)
    ensures ImportRatings(g, id, [], s, order) == Ok(g)
  {
    var c := g.titleInfo[id].columns;
    var pairs := DatePairs(TitleLevel);
    NothingSettled(EntitySort(g, TitleLevel, id), c, pairs, Named([]).origin, order);
    assert FieldImport.ImportFields(EntitySort(g, TitleLevel, id), c, [], Named([]).origin, order) == Ok(c);
    assert g.titleInfo[id := g.titleInfo[id]] == g.titleInfo;
  }

  lemma {:induction false} NothingSettled(sort: Sort, c: FieldMerge.Columns, pairs: seq<(string, string)>,
                            origin: FieldPolicy.Origin, order: seq<ProviderId>)
    ensures FieldImport.SettlePairs(sort, c, [], pairs, origin, order) == Ok(c)
    decreases |pairs|
  {
    if pairs != [] {
      NothingSettled(sort, c, pairs[1..], origin, order);
    }
  }

  /** A movie observed under one identifier nobody owns is new. */
  lemma NewMovie(g: Graph, i: Identifier, id: Id, order: seq<ProviderId>)
    requires Valid(i) && Key1(i) !in g.titleKeys && (i.namespace.Imdb? ==> !ImdbTakenElsewhere(g, Movie, i.external))
    requires id !in g.titles && forall k :: k in g.titleKeys ==> g.titleKeys[k] != id
    ensures Observe(g, Named([i]), false, id, order)
         == Ok((Added(g, i, id), id))
  {
    var added := AddTitle(g, Movie, id);
    assert Named([i]).identifiers[1..] == [];
    assert Owners(g, Movie, [i], {}, []) == Ok([]) by { hide Valid; }
    var named := added.(titleKeys := g.titleKeys[Key1(i) := id]);
    assert SetTitleKey(added, id, Movie, i, TitleFetch(id)) == Ok(named) by { hide Valid, NewInfo; }
    assert ImportKeys(added, id, Movie, [i], TitleFetch(id)) == Ok(named) by { hide SetTitleKey, AddTitle; assert [i][1..] == []; }
    NothingToDescribe(named, id, TitleFetch(id), order);
    hide Owners, SetTitleKey, ImportKeys, ImportRatings, WriteAt, Valid, AddTitle;
  }

  const A: Identifier := Identifier(Imdb, "tt0000001")
  const B: Identifier := Identifier(Namespace.Tmdb, "7")
  const C: Identifier := Identifier(Namespace.Tmdb, "8")

  lemma AllValid()
    ensures Valid(A) && Valid(B) && Valid(C)
  {
    assert A.external[..2] == "tt" && A.external[2..] == "0000001";
    assert HttpRange.DigitsValue("7") == 7 && HttpRange.Show(7) == "7" by { assert "7"[..0] == ""; }
    assert HttpRange.DigitsValue("8") == 8 && HttpRange.Show(8) == "8" by { assert "8"[..0] == ""; }
  }

  lemma MovieBegins(g: Graph, id: Id, order: seq<ProviderId>)
    requires id in g.titleInfo && id in g.titles && g.titles[id].Movie?
    ensures Next(g, Begin(TitleLevel, id), order) == g.(titleInfo := g.titleInfo[id := Begun(g.titleInfo[id])])
  {
    BeginIs(g, TitleLevel, id, order);
    hide Next, Begin, Begun;
  }

  /** Two movies, the second of which is being played by its first run. */
  function TwoMovies(): Graph {
    EmptyCatalog().(titles := map[1 := Movie, 2 := Movie], titleKeys := map[Key1(A) := 1, Key1(B) := 2],
                    titleInfo := map[1 := NewInfo(), 2 := Begun(NewInfo())])
  }

  function ToTwoMovies(): seq<Step> { [ObserveTitle(Named([A]), 1), ObserveTitle(Named([B]), 2), Begin(TitleLevel, 2)] }

  /** One past the largest identifier in use, which is what the database hands out. */
  predicate NextFree(ids: set<Id>, id: Id) { (id == 1 || id - 1 in ids) && forall x :: x in ids ==> x < id }

  /** Every observed title is offered the identifier the database would give it. */
  ghost predicate Allocated(g: Graph, steps: seq<Step>, order: seq<ProviderId>)
    decreases |steps|
  {
    steps != [] ==>
      && (steps[0].ObserveTitle? ==> NextFree(g.titles.Keys, steps[0].newTitle))
      && Allocated(Next(g, steps[0], order), steps[1..], order)
  }

  lemma ThreeAllocated(g: Graph, a: Step, b: Step, c: Step, order: seq<ProviderId>)
    requires a.ObserveTitle? && NextFree(g.titles.Keys, a.newTitle) && !c.ObserveTitle?
    requires b.ObserveTitle? && NextFree(Next(g, a, order).titles.Keys, b.newTitle)
    ensures Allocated(g, [a, b, c], order)
  {
    hide Next, NextFree;
    var h := Next(Next(g, a, order), b, order);
    assert [c][1..] == [] && [b, c][1..] == [c] && [a, b, c][1..] == [b, c];
    assert Allocated(h, [c], order);
    assert Allocated(Next(g, a, order), [b, c], order);
  }

  lemma ThreeSteps(g: Graph, a: Step, b: Step, c: Step, order: seq<ProviderId>)
    requires Enabled(g, a) && Enabled(Next(g, a, order), b) && Enabled(Next(Next(g, a, order), b, order), c)
    ensures Possible(g, [a, b, c], order) && Run(g, [a, b, c], order) == Next(Next(Next(g, a, order), b, order), c, order)
  {
    hide Next, Enabled;
    var h := Next(g, a, order);
    OneStep(g, a, order);
    OneStep(h, b, order);
    OneStep(Next(h, b, order), c, order);
    RunsFollow(h, [b], [c], order);
    RunsFollow(g, [a], [b] + [c], order);
    assert [a, b, c] == [a] + ([b] + [c]);
  }

  function FirstMovie(): Graph {
    EmptyCatalog().(titles := map[1 := Movie], titleKeys := map[Key1(A) := 1], titleInfo := map[1 := NewInfo()])
  }

  lemma ObserveFirst(order: seq<ProviderId>)
    ensures Next(EmptyCatalog(), ObserveTitle(Named([A]), 1), order) == FirstMovie()
  {
    AllValid();
    NewMovie(EmptyCatalog(), A, 1, order);
    hide Valid, Observe, NewInfo;
  }

  lemma ObserveSecond(order: seq<ProviderId>)
    ensures var h := Next(FirstMovie(), ObserveTitle(Named([B]), 2), order);
            Played(h, TitleLevel, 2) && Next(h, Begin(TitleLevel, 2), order) == TwoMovies()
  {
    hide *;
    AllValid();
    SecondIsFree();
    NewMovie(FirstMovie(), B, 2, order);
    ObservedNext(FirstMovie(), Named([B]), 2, order);
    SecondIsAdded();
    MovieBegins(Added(FirstMovie(), B, 2), 2, order);
  }

  lemma SecondIsFree()
    ensures var g := FirstMovie();
            && Key1(B) !in g.titleKeys && !B.namespace.Imdb? && 2 !in g.titles
            && forall k :: k in g.titleKeys ==> g.titleKeys[k] != 2
  {
    hide NewInfo;
  }

  lemma ObservedNext(g: Graph, o: Observation, id: Id, order: seq<ProviderId>)
    requires Observe(g, o, false, id, order).Ok?
    ensures Next(g, ObserveTitle(o, id), order) == Observe(g, o, false, id, order).value.0
  {
    hide Observe;
  }

  lemma SecondIsAdded()
    ensures var h := Added(FirstMovie(), B, 2);
            && 2 in h.titleInfo && 2 in h.titles && h.titles[2].Movie? && Played(h, TitleLevel, 2)
            && h.(titleInfo := h.titleInfo[2 := Begun(h.titleInfo[2])]) == TwoMovies()
  {
    hide NewInfo, Begun;
  }

  lemma ReachTwoMovies(order: seq<ProviderId>)
    ensures Possible(EmptyCatalog(), ToTwoMovies(), order) && Run(EmptyCatalog(), ToTwoMovies(), order) == TwoMovies()
    ensures Allocated(EmptyCatalog(), ToTwoMovies(), order)
  {
    var e, a, b, c := EmptyCatalog(), ObserveTitle(Named([A]), 1), ObserveTitle(Named([B]), 2), Begin(TitleLevel, 2);
    FirstIdsFollow();
    assert Enabled(e, a) && Enabled(FirstMovie(), b) && Enabled(Next(FirstMovie(), b, order), c);
    assert a.ObserveTitle? && b.ObserveTitle? && !c.ObserveTitle? && ToTwoMovies() == [a, b, c];
    hide *;
    ObserveFirst(order);
    ObserveSecond(order);
    ThreeSteps(e, a, b, c, order);
    ThreeAllocated(e, a, b, c, order);
  }

  lemma FirstIdsFollow()
    ensures NextFree(EmptyCatalog().titles.Keys, 1) && NextFree(FirstMovie().titles.Keys, 2)
  {
    hide NewInfo, Key1;
    assert FirstMovie().titles.Keys == {1};
  }

  /** The second movie turns out to be the first. */
  function OneMovie(info: Info): Graph {
    EmptyCatalog().(titles := map[1 := Movie], titleKeys := map[Key1(A) := 1, Key1(B) := 1], titleInfo := map[1 := info])
  }

  lemma NoRowsNoPairs(g: Graph, w: Id, l: Id)
    requires g.seasons == map[] && g.episodes == map[]
    ensures SeasonPairs(g, w, l) == map[] && EpisodePairs(g, w, l) == map[]
  {
  }

  lemma NewInfosMerge(order: seq<ProviderId>)
    ensures MergeInfo(TitleLevel, NewInfo(), Begun(NewInfo()), order).Ok?
  {
    var c := FieldMerge.Columns(map[], map[]);
    assert FieldMerge.ChosenOf(c, c, FieldMerge.TITLE_FIELDS, order) == {};
    assert FieldMerge.MergeFields(c, c, FieldMerge.TITLE_FIELDS, FieldMerge.TITLE_PAIRS, order).Ok? by {
      hide FieldMerge.PairsAgree, FieldMerge.Take;
    }
    hide FieldMerge.MergeFields;
  }

  lemma KeysAgree(keys: map<TitleKey, Id>)
    requires keys == map[Key1(A) := 1, Key1(B) := 2]
    ensures !TitleConflict(keys, 1, 2)
  {
    assert Key1(A).namespace == Imdb && Key1(B).namespace == Namespace.Tmdb;
    hide A, B, Key1;
  }

  lemma InfosMergeBoth(a: Info, b: Info, order: seq<ProviderId>)
    requires MergeInfo(TitleLevel, a, b, order).Ok?
    ensures InfoMerges(TitleLevel, map[1 := a, 2 := b], map[2 := 1], order)
    ensures InfoMerges(SeasonLevel, map[], map[], order) && InfoMerges(EpisodeLevel, map[], map[], order)
  {
    hide MergeInfo;
  }

  lemma MoviesAreCompatible()
    ensures Compatible(TwoMovies(), 1, 2)
  {
    NoRowsNoPairs(TwoMovies(), 1, 2);
    KeysAgree(TwoMovies().titleKeys);
    hide SeasonPairs, EpisodePairs, NewInfo, Begun, TitleConflict, Conflict, A, B, Key1;
  }

  lemma MoviesAreMergeable(order: seq<ProviderId>)
    ensures Mergeable(TwoMovies(), 1, 2, order)
  {
    NoRowsNoPairs(TwoMovies(), 1, 2);
    NewInfosMerge(order);
    InfosMergeBoth(NewInfo(), Begun(NewInfo()), order);
    hide SeasonPairs, EpisodePairs, NewInfo, Begun, MergeInfo, InfoMerges, A, B, Key1;
  }

  lemma InfoOfBoth(a: Info, b: Info, order: seq<ProviderId>)
    requires MergeInfo(TitleLevel, a, b, order).Ok?
    ensures InfoAfter(TitleLevel, map[1 := a, 2 := b], map[2 := 1], order) == map[1 := MergeInfo(TitleLevel, a, b, order).value]
  {
    var r: map<Id, Id> := map[2 := 1];
    hide MergeInfo;
    assert r[2] == 1;
    assert HasLoser(r, 1) && Loser(r, 1) == 2;
  }

  lemma EmptyTablesStayEmpty(order: seq<ProviderId>, t: map<Id, Id>)
    ensures RowsAfter(map[], map[], t) == map[] && RowsAfter(map[], map[], map[]) == map[]
    ensures KeysAfter<Key>(map[], map[]) == map[]
    ensures InfoAfter(SeasonLevel, map[], map[], order) == map[] && InfoAfter(EpisodeLevel, map[], map[], order) == map[]
    ensures PagesAfter(map[], 1, 2) == map[]
  {
  }

  lemma KeysOfBoth()
    ensures KeysAfter(map[Key1(A) := 1, Key1(B) := 2], map[2 := 1]) == map[Key1(A) := 1, Key1(B) := 1]
    ensures map[1 := Movie, 2 := Movie] - {2} == map[1 := Movie]
  {
  }

  lemma MoviesMerge(order: seq<ProviderId>)
    ensures MergeInfo(TitleLevel, NewInfo(), Begun(NewInfo()), order).Ok?
    ensures MergedGraph(TwoMovies(), 1, 2, order) == OneMovie(MergeInfo(TitleLevel, NewInfo(), Begun(NewInfo()), order).value)
  {
    NewInfosMerge(order);
    NoRowsNoPairs(TwoMovies(), 1, 2);
    InfoOfBoth(NewInfo(), Begun(NewInfo()), order);
    EmptyTablesStayEmpty(order, map[2 := 1]);
    KeysOfBoth();
    hide SeasonPairs, EpisodePairs, MergeInfo, NewInfo, Begun, InfoAfter, KeysAfter, RowsAfter, PagesAfter, A, B, Key1;
  }

  lemma BothReconciled(order: seq<ProviderId>) returns (info: Info)
    ensures Reconciled(TwoMovies(), 1, 2, order) == Ok((OneMovie(info), 1))
  {
    hide *;
    NewInfosMerge(order);
    info := MergeInfo(TitleLevel, NewInfo(), Begun(NewInfo()), order).value;
    BothAreThere();
    MoviesAreCompatible();
    MoviesAreMergeable(order);
    MoviesMerge(order);
    ReconciledWhen(TwoMovies(), 1, 2, order);
  }

  lemma BothAreThere()
    ensures 1 in TwoMovies().titles && 2 in TwoMovies().titles
  {
    hide NewInfo, Begun, Key1;
  }

  lemma ReconciledWhen(g: Graph, w: Id, l: Id, order: seq<ProviderId>)
    requires w < l && w in g.titles && l in g.titles && Compatible(g, w, l) && Mergeable(g, w, l, order)
    ensures Reconciled(g, w, l, order) == Ok((MergedGraph(g, w, l, order), w))
  {
    hide Compatible, Mergeable, MergedGraph;
  }

  lemma BothResolved(order: seq<ProviderId>) returns (info: Info)
    ensures Resolve(TwoMovies(), Named([A, B]), 3, order) == Ok((OneMovie(info), 1))
  {
    info := BothReconciled(order);
    OwnersAreBoth();
    assert Named([A, B]).identifiers[0] == A && Named([A, B]).identifiers[1] == B;
    assert A.namespace == Imdb && B.namespace == Namespace.Tmdb;
    assert Mentions([A, B], Imdb) && Mentions([A, B], Namespace.Tmdb) by { assert [A, B][0] == A && [A, B][1] == B; }
    hide Owners, Reconciled, Mentions, TwoMovies, OneMovie, A, B;
  }

  /** Observed under both identifiers, the two movies become one. */
  lemma BothObserved(order: seq<ProviderId>) returns (info: Info)
    ensures Observe(TwoMovies(), Named([A, B]), false, 3, order) == Ok((OneMovie(info), 1))
  {
    info := BothResolved(order);
    var h := OneMovie(info);
    KnownKeys(info);
    NothingToDescribe(h, 1, TitleFetch(1), order);
    hide Resolve, ImportKeys, ImportRatings, WriteAt, TwoMovies, OneMovie, A, B;
  }

  lemma OwnersAreBoth()
    ensures Owners(TwoMovies(), Movie, [A, B], {}, []) == Ok([1, 2])
  {
    AllValid();
    hide Valid, NewInfo, Begun;
    var g := TwoMovies();
    assert [A, B][1..] == [B] && [B][1..] == [];
    assert [] + [1] == [1] && [1] + [2] == [1, 2];
    assert g.titleKeys[Key1(A)] == 1 && g.titleKeys[Key1(B)] == 2;
    assert !ImdbTakenElsewhere(g, Movie, A.external);
    hide ImdbTakenElsewhere, TwoMovies;
    assert Owners(g, Movie, [], {} + {Imdb} + {Namespace.Tmdb}, [1, 2]) == Ok([1, 2]);
    assert Owners(g, Movie, [B], {} + {Imdb}, [1]) == Ok([1, 2]);
  }

  lemma KnownKeys(info: Info)
    ensures ImportKeys(OneMovie(info), 1, Movie, [A, B], TitleFetch(1)) == Ok(OneMovie(info))
  {
    AllValid();
    hide Valid;
    var g := OneMovie(info);
    assert [A, B][1..] == [B] && [B][1..] == [];
    assert SetTitleKey(g, 1, Movie, A, TitleFetch(1)) == Ok(g);
    assert SetTitleKey(g, 1, Movie, B, TitleFetch(1)) == Ok(g);
    hide SetTitleKey, OneMovie;
    assert ImportKeys(g, 1, Movie, [B], TitleFetch(1)) == Ok(g);
  }

  /** The two observations and the beginning of playback that follow the merge. */
  function ToNewMovie(): seq<Step> { [ObserveTitle(Named([A, B]), 3), ObserveTitle(Named([C]), 2), Begin(TitleLevel, 2)] }

  lemma AfterTheMerge(info: Info, order: seq<ProviderId>)
    ensures var g := OneMovie(info); var h := Next(Next(g, ObserveTitle(Named([C]), 2), order), Begin(TitleLevel, 2), order);
            && 2 !in g.titles && Enabled(g, ObserveTitle(Named([C]), 2))
            && h.titleKeys == map[Key1(A) := 1, Key1(B) := 1, Key1(C) := 2]
            && 2 in h.titleInfo && h.titleInfo[2] == Begun(NewInfo())
  {
    var g := OneMovie(info);
    AllValid();
    NewMovie(g, C, 2, order);
    var h := Added(g, C, 2);
    assert Next(g, ObserveTitle(Named([C]), 2), order) == h by { hide Observe, Valid, AddTitle; }
    MovieBegins(h, 2, order);
    hide Valid, Next, NewInfo, Begun;
  }

  lemma BegunIsFirst()
    ensures PlaybackRuns.Authorized(Begun(NewInfo()).personal, 1, 1)
  {
  }

  /**
   From an empty catalog: a writer is permitted on the title numbered 2; that title is merged into
   title 1, another movie gets the number 2, as the largest left is 1, and the same run and epoch
   are permitted on it.
   */
  lemma OldWriterPasses(order: seq<ProviderId>) returns (before: seq<Step>, later: seq<Step>)
    ensures Possible(EmptyCatalog(), before, order) && Possible(Run(EmptyCatalog(), before, order), later, order)
    ensures Allocated(EmptyCatalog(), before, order) && Allocated(Run(EmptyCatalog(), before, order), later, order)
    ensures var g := Run(EmptyCatalog(), before, order); var h := Run(g, later, order);
            && 2 in g.titleInfo && PlaybackRuns.Authorized(g.titleInfo[2].personal, 1, 1)
            && Key1(B) in g.titleKeys && g.titleKeys[Key1(B)] == 2
            && Key1(B) in h.titleKeys && h.titleKeys[Key1(B)] == 1
            && 2 in h.titleInfo && PlaybackRuns.Authorized(h.titleInfo[2].personal, 1, 1)
  {
    hide *;
    before, later := ToTwoMovies(), ToNewMovie();
    ReachTwoMovies(order);
    SecondIsPlayed();
    BegunIsFirst();
    LaterRun(order);
  }

  lemma LaterRun(order: seq<ProviderId>)
    ensures Possible(TwoMovies(), ToNewMovie(), order) && Allocated(TwoMovies(), ToNewMovie(), order)
    ensures var h := Run(TwoMovies(), ToNewMovie(), order);
            && Key1(B) in h.titleKeys && h.titleKeys[Key1(B)] == 1
            && 2 in h.titleInfo && PlaybackRuns.Authorized(h.titleInfo[2].personal, 1, 1)
  {
    var merge, observe, begin := ObserveTitle(Named([A, B]), 3), ObserveTitle(Named([C]), 2), Begin(TitleLevel, 2);
    assert ToNewMovie() == [merge, observe, begin] && merge.newTitle == 3 && observe.newTitle == 2 && begin.WriteEntity?;
    hide *;
    var g := TwoMovies();
    var info := BothMerge(order);
    AfterTheMerge(info, order);
    BeginEnabled(Next(Next(g, merge, order), observe, order));
    ThreeSteps(g, merge, observe, begin, order);
    IdsFollow(info);
    ThreeAllocated(g, merge, observe, begin, order);
    KeysApart();
    BegunIsFirst();
  }

  lemma BeginEnabled(g: Graph)
    ensures Enabled(g, Begin(TitleLevel, 2))
  {
  }

  lemma IdsFollow(info: Info)
    ensures NextFree(TwoMovies().titles.Keys, 3) && NextFree(OneMovie(info).titles.Keys, 2)
  {
    hide NewInfo, Begun, Key1;
    assert TwoMovies().titles.Keys == {1, 2} && OneMovie(info).titles.Keys == {1};
  }

  lemma KeysApart()
    ensures Key1(A) != Key1(B) && Key1(B) != Key1(C)
  {
  }

  lemma SecondIsPlayed()
    ensures var g := TwoMovies();
            && 2 in g.titleInfo && g.titleInfo[2] == Begun(NewInfo()) && Key1(B) in g.titleKeys && g.titleKeys[Key1(B)] == 2
  {
    hide NewInfo, Begun;
  }

  lemma BothMerge(order: seq<ProviderId>) returns (info: Info)
    ensures var merge := ObserveTitle(Named([A, B]), 3);
            Enabled(TwoMovies(), merge) && Next(TwoMovies(), merge, order) == OneMovie(info)
  {
    info := BothObserved(order);
    assert 3 !in TwoMovies().titles by { hide NewInfo, Begun, Key1; }
    hide Observe, TwoMovies, OneMovie;
  }

  function Added(g: Graph, i: Identifier, id: Id): Graph {
    AddTitle(g, Movie, id).(titleKeys := g.titleKeys[Key1(i) := id])
  }
}
