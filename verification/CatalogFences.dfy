/**
 Playback and reconciliation together. Over every run of the catalog a playback run that has ended,
 or whose entity was merged, is kept out exactly as long as its entity's identifier is not given to
 a new row.
 */
module CatalogFences {
  import opened Util
  import opened ProviderPriority
  import opened EntityInfo
  import opened EntityWrites
  import opened Renaming
  import opened CatalogGraph
  import opened CatalogIdentity
  import opened CatalogWrites
  import opened CatalogRuns
  import opened CatalogCreations
  import NewestRows
  import PersonalState
  import PlaybackRuns

  /** If the entity exists, the run was issued before and is not its active one. */
  predicate Guarded(g: Graph, level: Level, x: Id, run: nat) {
    x in Infos(g, level) ==> PlaybackRuns.Fenced(Infos(g, level)[x].personal, run)
  }

  // ----- Merging -----

  lemma MergedInfoFences(level: Level, winner: Info, loser: Info, order: seq<ProviderId>, run: nat)
    requires InfoOk(level, winner) && InfoOk(level, loser) && MergeInfo(level, winner, loser, order).Ok? && run != 0
    ensures PlaybackRuns.Fenced(winner.personal, run) ==>
              PlaybackRuns.Fenced(MergeInfo(level, winner, loser, order).value.personal, run)
    ensures !level.SeasonLevel?
            && (run <= PersonalState.Revision(winner.personal.watch) || run <= PersonalState.Revision(loser.personal.watch)) ==>
              PlaybackRuns.Fenced(MergeInfo(level, winner, loser, order).value.personal, run)
  {
    hide FieldMerge.MergeFields, FieldMerge.Sourced, FieldMerge.PairsAgree;
    if !level.SeasonLevel?
       && (run <= PersonalState.Revision(winner.personal.watch) || run <= PersonalState.Revision(loser.personal.watch))
    {
      PlaybackRuns.MergeFences(winner.personal, loser.personal, run);
    }
  }

  lemma InfoAfterGuards(level: Level, infos: map<Id, Info>, ids: set<Id>, r: map<Id, Id>,
                        order: seq<ProviderId>, x: Id, run: nat)
    requires InfosOk(level, infos, ids) && InfoMerges(level, infos, r, order) && run != 0
    requires x in infos ==> PlaybackRuns.Fenced(infos[x].personal, run)
    ensures var after := InfoAfter(level, infos, r, order); x in after ==> PlaybackRuns.Fenced(after[x].personal, run)
  {
    hide InfoOk, MergeInfo;
    if x in InfoAfter(level, infos, r, order) && HasLoser(r, x) {
      MergedInfoFences(level, infos[x], infos[Loser(r, x)], order, run);
    }
  }

  /** The entities of a level that become one with others when two titles do. */
  ghost function Identified(g: Graph, w: Id, l: Id, level: Level): map<Id, Id> {
    match level case TitleLevel => map[l := w] case SeasonLevel => SeasonPairs(g, w, l) case EpisodeLevel => EpisodePairs(g, w, l)
  }

  lemma InfosMerged(g: Graph, w: Id, l: Id, order: seq<ProviderId>, level: Level)
    requires Mergeable(g, w, l, order)
    ensures Infos(MergedGraph(g, w, l, order), level) == InfoAfter(level, Infos(g, level), Identified(g, w, l, level), order)
    ensures InfoMerges(level, Infos(g, level), Identified(g, w, l, level), order)
  {
    hide InfoMerges, InfoAfter, SeasonPairs, EpisodePairs, RowsAfter, KeysAfter, PagesAfter;
  }

  lemma InfosOkAt(g: Graph, level: Level)
    requires GraphOk(g)
    ensures InfosOk(level, Infos(g, level), Infos(g, level).Keys)
  {
    hide PlacesOk, KeysOk, PagesOk, KindsOk, InfoOk;
  }

  lemma MergedGuards(g: Graph, w: Id, l: Id, order: seq<ProviderId>, level: Level, x: Id, run: nat)
    requires GraphOk(g) && Mergeable(g, w, l, order) && Guarded(g, level, x, run) && run != 0
    ensures Guarded(MergedGraph(g, w, l, order), level, x, run)
  {
    InfosOkAt(g, level);
    InfosMerged(g, w, l, order, level);
    hide GraphOk, Mergeable, MergedGraph, InfosOk, InfoMerges, InfoAfter, Identified, PlaybackRuns.Fenced, Infos;
    InfoAfterGuards(level, Infos(g, level), Infos(g, level).Keys, Identified(g, w, l, level), order, x, run);
  }

  /** A merge ends every run issued so far on either of two entities that become one. */
  lemma MergedRunsEnd(g: Graph, w: Id, l: Id, order: seq<ProviderId>, level: Level, y: Id, run: nat)
    requires GraphOk(g) && w != l && Mergeable(g, w, l, order) && !level.SeasonLevel? && run != 0
    requires y in Identified(g, w, l, level) && var x := Identified(g, w, l, level)[y];
             && x in Infos(g, level) && y in Infos(g, level)
             && (run <= PersonalState.Revision(Infos(g, level)[x].personal.watch)
                 || run <= PersonalState.Revision(Infos(g, level)[y].personal.watch))
    ensures var h, x := MergedGraph(g, w, l, order), Identified(g, w, l, level)[y];
            y !in Infos(h, level) && Guarded(h, level, x, run)
  {
    InfosOkAt(g, level);
    InfosMerged(g, w, l, order, level);
    var r := Identified(g, w, l, level);
    var x := r[y];
    IdentifiedGood(g, w, l, level);
    hide GraphOk, Mergeable, MergedGraph, InfoMerges, InfoAfter, Identified, Infos;
    RunsEndAt(level, Infos(g, level), r, order, y, run);
  }

  lemma IdentifiedGood(g: Graph, w: Id, l: Id, level: Level)
    requires GraphOk(g) && w != l
    ensures Good(Identified(g, w, l, level))
  {
    GraphParts(g);
    PairIsGood(w, l);
    PairsGood(g, w, l);
    hide GraphOk, SeasonPairs, EpisodePairs, Good;
  }

  lemma RunsEndAt(level: Level, infos: map<Id, Info>, r: map<Id, Id>, order: seq<ProviderId>, y: Id, run: nat)
    requires InfosOk(level, infos, infos.Keys) && InfoMerges(level, infos, r, order) && Good(r)
             && !level.SeasonLevel? && run != 0
    requires y in r && (run <= PersonalState.Revision(infos[r[y]].personal.watch) || run <= PersonalState.Revision(infos[y].personal.watch))
    ensures var after := InfoAfter(level, infos, r, order);
            && y !in after && (r[y] in after ==> PlaybackRuns.Fenced(after[r[y]].personal, run))
  {
    hide MergeInfo, InfoOk;
    var x := r[y];
    assert HasLoser(r, x) && Loser(r, x) == y;
    MergedInfoFences(level, infos[x], infos[y], order, run);
  }

  // ----- Every other write -----

  lemma SameInfosGuard(g: Graph, h: Graph, level: Level, x: Id, run: nat)
    requires Infos(h, level) == Infos(g, level)
    ensures Guarded(g, level, x, run) ==> Guarded(h, level, x, run)
  {
  }

  /** Replacing the information of one entity by information that keeps the fence. */
  lemma PutGuards(g: Graph, at: Level, id: Id, info: Info, level: Level, x: Id, run: nat)
    requires id in Infos(g, at) && Guarded(g, level, x, run)
    requires at == level && id == x ==> PlaybackRuns.Fenced(info.personal, run)
    ensures Guarded(WithInfos(g, at, Infos(g, at)[id := info]), level, x, run)
  {
    InfosWith(g, at, Infos(g, at)[id := info]);
    hide WithInfos, Infos, PlaybackRuns.Fenced;
  }

  lemma GuardedAt(g: Graph, level: Level, x: Id, run: nat)
    requires Guarded(g, level, x, run)
    ensures x in Infos(g, level) ==> PlaybackRuns.Fenced(Infos(g, level)[x].personal, run)
  {
  }

  lemma WriteAtGuards(g: Graph, at: Level, id: Id, w: Write, s: Source, order: seq<ProviderId>, level: Level,
                      x: Id, run: nat)
    requires GraphOk(g) && WriteAt(g, at, id, w, s, order).Ok? && Guarded(g, level, x, run) && run != 0
    ensures Guarded(WriteAt(g, at, id, w, s, order).value, level, x, run)
  {
    hide *;
    InfosAreOk(g, at);
    WriteAtIs(g, at, id, w, s, order);
    SortHasLevel(g, at, id);
    GuardedAt(g, level, x, run);
    var info := WriteInfo(EntitySort(g, at, id), Infos(g, at)[id], w, order).value;
    if at == level && id == x {
      WriteKeepsFence(EntitySort(g, at, id), Infos(g, at)[id], w, order, run);
    }
    PutGuards(g, at, id, info, level, x, run);
  }

  lemma {:induction false} RatingsGuard(g: Graph, id: Id, ratings: seq<(RatingKey, NewestRows.Row<string>)>, s: Source,
                                        order: seq<ProviderId>, level: Level, x: Id, run: nat)
    requires GraphOk(g) && ImportRatings(g, id, ratings, s, order).Ok? && Guarded(g, level, x, run) && run != 0
    ensures Guarded(ImportRatings(g, id, ratings, s, order).value, level, x, run)
    decreases |ratings|
  {
    hide GraphOk, WriteAt, Guarded, OnlyAt;
    if ratings != [] {
      var w := WriteRating(ratings[0].0, ratings[0].1);
      WriteAtGuards(g, TitleLevel, id, w, s, order, level, x, run);
      WriteAtKeepsRules(g, TitleLevel, id, w, s, order);
      RatingsGuard(WriteAt(g, TitleLevel, id, w, s, order).value, id, ratings[1..], s, order, level, x, run);
    }
  }

  lemma ImportGuards(g: Graph, id: Id, o: Observation, s: Source, order: seq<ProviderId>, level: Level, x: Id, run: nat)
    requires GraphOk(g) && Import(g, id, o, s, order).Ok? && Guarded(g, level, x, run) && run != 0
    ensures Guarded(Import(g, id, o, s, order).value, level, x, run)
  {
    hide *;
    ImportParts(g, id, o, s, order);
    KeysRecorded(g, id, o.kind, o.identifiers, s);
    KeysLeaveInfos(g, id, o.kind, o.identifiers, s, level);
    var named := ImportKeys(g, id, o.kind, o.identifiers, s).value;
    SameInfosGuard(g, named, level, x, run);
    var w := WriteFields(o.fields, o.origin);
    WriteAtGuards(named, TitleLevel, id, w, s, order, level, x, run);
    WriteAtKeepsRules(named, TitleLevel, id, w, s, order);
    RatingsGuard(WriteAt(named, TitleLevel, id, w, s, order).value, id, o.ratings, s, order, level, x, run);
  }

  lemma AddTitleGuards(g: Graph, kind: Kind, id: Id, level: Level, x: Id, run: nat)
    requires Guarded(g, level, x, run) && !(level.TitleLevel? && x == id)
    ensures Guarded(AddTitle(g, kind, id), level, x, run)
  {
    hide NewInfo, PlaybackRuns.Fenced;
  }

  lemma ReconciledGuards(g: Graph, a: Id, b: Id, order: seq<ProviderId>, level: Level, x: Id, run: nat)
    requires GraphOk(g) && Reconciled(g, a, b, order).Ok? && Guarded(g, level, x, run) && run != 0
    ensures Guarded(Reconciled(g, a, b, order).value.0, level, x, run)
  {
    hide GraphOk, Compatible, Mergeable, MergedGraph, Guarded;
    MergedGuards(g, Min(a, b), Max(a, b), order, level, x, run);
  }

  lemma ResolveGuards(g: Graph, o: Observation, id: Id, order: seq<ProviderId>, level: Level, x: Id, run: nat)
    requires GraphOk(g) && Resolve(g, o, id, order).Ok? && Guarded(g, level, x, run) && run != 0
             && !(level.TitleLevel? && TakesNew(g, o, id, x))
    ensures Guarded(Resolve(g, o, id, order).value.0, level, x, run)
  {
    hide GraphOk, Reconciled, AddTitle, Guarded, Owners, Mentions;
    var owners := Owners(g, o.kind, o.identifiers, {}, []).value;
    if |owners| > 1 {
      ReconciledGuards(g, owners[0], owners[1], order, level, x, run);
    } else if owners == [] {
      AddTitleGuards(g, o.kind, id, level, x, run);
    }
  }

  lemma ObserveGuards(g: Graph, o: Observation, paged: bool, id: Id, order: seq<ProviderId>, level: Level, x: Id, run: nat)
    requires GraphOk(g) && id !in g.titles && Observe(g, o, paged, id, order).Ok?
    requires Guarded(g, level, x, run) && run != 0 && !(level.TitleLevel? && TakesNew(g, o, id, x))
    ensures Guarded(Observe(g, o, paged, id, order).value.0, level, x, run)
  {
    hide *;
    ObserveParts(g, o, paged, id, order);
    var (m, t) := Resolve(g, o, id, order).value;
    ResolveResolves(g, o, id, order);
    ResolvedIsOk(g, m, t, o.kind);
    ResolveGuards(g, o, id, order, level, x, run);
    ImportGuards(m, t, o, SourceOf(t, paged), order, level, x, run);
  }

  lemma {:induction false} CollectGuards(g: Graph, listed: seq<Listed>, ids: seq<Id>, order: seq<ProviderId>,
                            level: Level, x: Id, run: nat)
    requires GraphOk(g) && Collect(g, listed, ids, order).Ok? && Guarded(g, level, x, run) && run != 0
    requires !(level.TitleLevel? && ListingTakes(g, listed, order, x))
    ensures Guarded(Collect(g, listed, ids, order).value.0, level, x, run)
    decreases |listed|
  {
    hide GraphOk, Observe, OwnsListed, Guarded, Collect, TakesNew;
    if listed == [] {
      CollectNone(g, ids, order);
    } else {
      CollectNext(g, listed, ids, order);
      var first := listed[0];
      var (mid, t) := Observe(g, first.observation, true, first.newId, order).value;
      ObserveGuards(g, first.observation, true, first.newId, order, level, x, run);
      CollectGuards(mid, listed[1..], ids + [t], order, level, x, run);
    }
  }

  lemma WritePageGuards(g: Graph, p: Id, listed: seq<Listed>, fetched: nat, total: Option<nat>, order: seq<ProviderId>,
                        level: Level, x: Id, run: nat)
    requires GraphOk(g) && WritePage(g, p, listed, fetched, total, order).Ok? && Guarded(g, level, x, run) && run != 0
    requires !(level.TitleLevel? && ListingTakes(g, listed, order, x))
    ensures Guarded(WritePage(g, p, listed, fetched, total, order).value, level, x, run)
  {
    hide GraphOk, Collect, Guarded, ListingTakes, PageAt, Pages.Store;
    CollectGuards(g, listed, [], order, level, x, run);
    SameInfosGuard(Collect(g, listed, [], order).value.0, WritePage(g, p, listed, fetched, total, order).value, level, x, run);
  }

  // ----- Every run -----

  lemma RowStepGuards(g: Graph, step: Step, order: seq<ProviderId>, level: Level, x: Id, run: nat)
    requires step.PutSeason? || step.PutEpisode? || step.NameSeason? || step.NameEpisode?
    requires Guarded(g, level, x, run) && !Creates(g, step, order, level, x)
    ensures Guarded(Next(g, step, order), level, x, run)
  {
    hide NewInfo, PlaybackRuns.Fenced, Taken, Valid, Unsupplied, HasOtherKey, TitleOwnsImdb;
  }

  lemma StepGuards(g: Graph, step: Step, order: seq<ProviderId>, level: Level, x: Id, run: nat)
    requires GraphOk(g) && Enabled(g, step) && Guarded(g, level, x, run) && run != 0 && !Creates(g, step, order, level, x)
    ensures Guarded(Next(g, step, order), level, x, run)
  {
    hide GraphOk, Observe, AddSeason, AddEpisode, SetSeasonKey, SetEpisodeKey, WritePage, WriteAt, Guarded, ListingTakes, TakesNew;
    match step {
      case ObserveTitle(o, id) =>
        if Observe(g, o, false, id, order).Ok? { ObserveGuards(g, o, false, id, order, level, x, run); }
      case SavePage(p, listed, fetched, total) =>
        if WritePage(g, p, listed, fetched, total, order).Ok? {
          WritePageGuards(g, p, listed, fetched, total, order, level, x, run);
        }
      case WriteEntity(at, id, w, s) =>
        if WriteAt(g, at, id, w, s, order).Ok? { WriteAtGuards(g, at, id, w, s, order, level, x, run); }
      case _ => RowStepGuards(g, step, order, level, x, run);
    }
  }

  /** A new entity has issued no run, so every number is still to come. */
  lemma UntouchedIsUnguarded(g: Graph, level: Level, x: Id, run: nat)
    requires Untouched(g, level, x) && run != 0
    ensures !Guarded(g, level, x, run)
  {
    hide Infos;
  }

  /** A step keeps an ended run out exactly when it does not give the identifier of its entity to a new row. */
  lemma StepGuardsExactly(g: Graph, step: Step, order: seq<ProviderId>, level: Level, x: Id, run: nat)
    requires GraphOk(g) && Enabled(g, step) && Guarded(g, level, x, run) && run != 0
    ensures Guarded(Next(g, step, order), level, x, run) <==> !Creates(g, step, order, level, x)
  {
    hide *;
    if Creates(g, step, order, level, x) {
      CreatedIsUntouched(g, step, order, level, x);
      UntouchedIsUnguarded(Next(g, step, order), level, x, run);
    } else {
      StepGuards(g, step, order, level, x, run);
    }
  }

  /** Some step of the run gives x to a new row. */
  ghost predicate CreatedIn(g: Graph, steps: seq<Step>, order: seq<ProviderId>, level: Level, x: Id)
    decreases |steps|
  {
    steps != [] && (Creates(g, steps[0], order, level, x) || CreatedIn(Next(g, steps[0], order), steps[1..], order, level, x))
  }

  lemma {:induction false} RunGuards(g: Graph, steps: seq<Step>, order: seq<ProviderId>, level: Level, x: Id, run: nat)
    requires GraphOk(g) && Possible(g, steps, order) && Guarded(g, level, x, run) && run != 0
    requires !CreatedIn(g, steps, order, level, x)
    ensures Guarded(Run(g, steps, order), level, x, run)
    decreases |steps|
  {
    hide GraphOk, Next, Enabled, Guarded, Creates;
    if steps != [] {
      StepGuards(g, steps[0], order, level, x, run);
      StepKeepsRules(g, steps[0], order);
      RunGuards(Next(g, steps[0], order), steps[1..], order, level, x, run);
    }
  }

  ghost predicate GuardedAfter(g: Graph, steps: seq<Step>, k: nat, order: seq<ProviderId>, level: Level, x: Id, run: nat)
    requires k <= |steps|
  {
    Guarded(Run(g, steps[..k], order), level, x, run)
  }

  lemma RunFirst(g: Graph, steps: seq<Step>, k: nat, order: seq<ProviderId>, level: Level, x: Id, run: nat)
    requires 0 < k <= |steps|
    ensures GuardedAfter(g, steps, k, order, level, x, run)
       <==> GuardedAfter(Next(g, steps[0], order), steps[1..], k - 1, order, level, x, run)
  {
    hide Next, Guarded;
    assert steps[..k][1..] == steps[1..][..k - 1];
  }

  /** An ended run is kept out at every moment of a run exactly when no step of it gives the identifier to a new row. */
  lemma {:induction false} KeptOutExactly(g: Graph, steps: seq<Step>, order: seq<ProviderId>, level: Level, x: Id, run: nat)
    requires GraphOk(g) && Possible(g, steps, order) && Guarded(g, level, x, run) && run != 0
    ensures (forall k :: 0 <= k <= |steps| ==> GuardedAfter(g, steps, k, order, level, x, run))
       <==> !CreatedIn(g, steps, order, level, x)
    decreases |steps|
  {
    hide GraphOk, Next, Enabled, Guarded, Creates, GuardedAfter;
    assert GuardedAfter(g, steps, 0, order, level, x, run) by { NothingRun(g, steps, order, level, x, run); }
    if steps != [] {
      var h := Next(g, steps[0], order);
      StepGuardsExactly(g, steps[0], order, level, x, run);
      StepKeepsRules(g, steps[0], order);
      RunFirst(g, steps, 1, order, level, x, run);
      NothingRun(h, steps[1..], order, level, x, run);
      if !Creates(g, steps[0], order, level, x) {
        KeptOutExactly(h, steps[1..], order, level, x, run);
        forall k | 0 < k <= |steps|
          ensures GuardedAfter(g, steps, k, order, level, x, run) <==> GuardedAfter(h, steps[1..], k - 1, order, level, x, run)
        {
          RunFirst(g, steps, k, order, level, x, run);
        }
        forall j | 0 <= j <= |steps[1..]|
          ensures GuardedAfter(g, steps, j + 1, order, level, x, run) <==> GuardedAfter(h, steps[1..], j, order, level, x, run)
        {
          RunFirst(g, steps, j + 1, order, level, x, run);
        }
      }
    }
  }

  lemma NothingRun(g: Graph, steps: seq<Step>, order: seq<ProviderId>, level: Level, x: Id, run: nat)
    ensures GuardedAfter(g, steps, 0, order, level, x, run) <==> Guarded(g, level, x, run)
  {
    hide Guarded, Next;
    assert steps[..0] == [];
  }

  /** A save or a completion in the name of a run. */
  predicate WritesAs(op: PlaybackRuns.Operation, run: nat) {
    (op.Save? && op.run == run) || (op.CompleteRun? && op.completed == run)
  }

  /** A write of a run that is out changes nothing: it is refused, or its entity is gone. */
  lemma GuardedWriteIsRefused(g: Graph, order: seq<ProviderId>, level: Level, x: Id, run: nat,
                              op: PlaybackRuns.Operation, now: nat, s: Source)
    requires Guarded(g, level, x, run) && run != 0 && WritesAs(op, run)
    ensures Next(g, WriteEntity(level, x, Play(op, now), s), order) == g
  {
    var w := Play(op, now);
    if WriteAt(g, level, x, w, s, order).Ok? {
      WriteAtIs(g, level, x, w, s, order);
      var infos := Infos(g, level);
      assert WriteInfo(EntitySort(g, level, x), infos[x], w, order) == Ok(infos[x]);
      assert infos[x := infos[x]] == infos;
    }
  }

  /**
   Over every run: a playback run that ended, or was merged away with its entity, neither saves nor
   completes any more, whatever epoch it presents, unless a step gave its entity's identifier to a
   new row.
   */
  lemma EndedRunNeverWrites(g: Graph, steps: seq<Step>, order: seq<ProviderId>, level: Level, x: Id, run: nat,
                            op: PlaybackRuns.Operation, now: nat, s: Source)
    requires GraphOk(g) && Possible(g, steps, order) && Guarded(g, level, x, run) && run != 0 && WritesAs(op, run)
    requires !CreatedIn(g, steps, order, level, x)
    ensures var h := Run(g, steps, order); Next(h, WriteEntity(level, x, Play(op, now), s), order) == h
  {
    RunGuards(g, steps, order, level, x, run);
    hide *;
    GuardedWriteIsRefused(Run(g, steps, order), order, level, x, run, op, now, s);
  }

  // ----- What lets a run back in -----

  function Begun(info: Info): Info {
    info.(personal := PlaybackRuns.Operate(info.personal, PlaybackRuns.BeginRun(false), 0).0)
  }

  function Begin(level: Level, x: Id): Step { WriteEntity(level, x, Play(PlaybackRuns.BeginRun(false), 0), TitleFetch(x)) }

  /** Playback of an entity begins n times. */
  function Begins(level: Level, x: Id, n: nat): seq<Step> { if n == 0 then [] else [Begin(level, x)] + Begins(level, x, n - 1) }

  /** The entity exists and is of a sort that is played. */
  predicate Played(g: Graph, level: Level, x: Id) { x in Infos(g, level) && !level.SeasonLevel? && Playable(g, level, x) }

  function WatchOf(g: Graph, level: Level, x: Id): Option<PersonalState.WatchRow> {
    if x in Infos(g, level) then Infos(g, level)[x].personal.watch else None
  }

  lemma BeginIs(g: Graph, level: Level, x: Id, order: seq<ProviderId>)
    requires Played(g, level, x)
    ensures Next(g, Begin(level, x), order) == WithInfos(g, level, Infos(g, level)[x := Begun(Infos(g, level)[x])])
  {
    hide Observe, AddSeason, AddEpisode, SetSeasonKey, SetEpisodeKey, WritePage, Infos, WithInfos;
  }

  lemma BeginCounts(g: Graph, level: Level, x: Id, order: seq<ProviderId>)
    requires Played(g, level, x)
    ensures var h := Next(g, Begin(level, x), order);
            && Played(h, level, x)
            && var was, now := WatchOf(g, level, x), WatchOf(h, level, x);
               PersonalState.Revision(now) == PersonalState.Revision(was) + 1 == PersonalState.ActiveRun(now)
  {
    BeginIs(g, level, x, order);
    InfosWith(g, level, Infos(g, level)[x := Begun(Infos(g, level)[x])]);
    hide Next, Infos, WithInfos;
  }

  /** Every beginning counts the revision on by one and makes it the active run. */
  lemma {:induction false} BeginsCount(g: Graph, level: Level, x: Id, n: nat, order: seq<ProviderId>)
    requires Played(g, level, x)
    ensures Possible(g, Begins(level, x, n), order)
    ensures var h := Run(g, Begins(level, x, n), order);
            var was, now := WatchOf(g, level, x), WatchOf(h, level, x);
            && Played(h, level, x)
            && PersonalState.Revision(now) == PersonalState.Revision(was) + n
            && PersonalState.ActiveRun(now) == if n == 0 then PersonalState.ActiveRun(was) else PersonalState.Revision(now)
    decreases n
  {
    hide Next, Infos, Played, WatchOf;
    if n > 0 {
      var h := Next(g, Begin(level, x), order);
      BeginCounts(g, level, x, order);
      assert Begins(level, x, n)[1..] == Begins(level, x, n - 1);
      BeginsCount(h, level, x, n - 1, order);
    }
  }

  /** After playback of x has begun n more times, the writer of a run that knows the epoch is permitted. */
  ghost predicate LetInAfter(g: Graph, level: Level, x: Id, run: nat, n: nat, order: seq<ProviderId>) {
    var h := Run(g, Begins(level, x, n), order);
    x in Infos(h, level)
    && PlaybackRuns.Authorized(Infos(h, level)[x].personal, run, PersonalState.Revision(WatchOf(h, level, x)))
  }

  lemma {:induction false} BeginsCreateNothing(g: Graph, level: Level, x: Id, n: nat, order: seq<ProviderId>)
    ensures !CreatedIn(g, Begins(level, x, n), order, level, x)
    decreases n
  {
    if n > 0 {
      assert Begins(level, x, n)[1..] == Begins(level, x, n - 1);
      BeginsCreateNothing(Next(g, Begin(level, x), order), level, x, n - 1, order);
    }
  }

  lemma GuardedIsNotLetIn(g: Graph, level: Level, x: Id, run: nat, n: nat, order: seq<ProviderId>)
    requires GraphOk(g) && Played(g, level, x) && Guarded(g, level, x, run) && run != 0
    ensures !LetInAfter(g, level, x, run, n, order)
  {
    BeginsCount(g, level, x, n, order);
    BeginsCreateNothing(g, level, x, n, order);
    RunGuards(g, Begins(level, x, n), order, level, x, run);
    hide GraphOk, Run, Infos, Begins, Possible, CreatedIn;
  }

  /**
   On an entity that is played, further playback alone lets the writer of a run in exactly when the
   run is not kept out. So keeping it out is neither too much nor too little to ask.
   */
  lemma LetInExactly(g: Graph, level: Level, x: Id, run: nat, order: seq<ProviderId>)
    requires GraphOk(g) && Played(g, level, x) && run != 0
    ensures (exists n :: LetInAfter(g, level, x, run, n, order)) <==> !Guarded(g, level, x, run)
  {
    hide *;
    if Guarded(g, level, x, run) {
      forall n ensures !LetInAfter(g, level, x, run, n, order) {
        GuardedIsNotLetIn(g, level, x, run, n, order);
      }
    } else {
      var n := LetInThen(g, level, x, run, order);
    }
  }

  /** As many beginnings as are missing let an unguarded run in. */
  lemma LetInThen(g: Graph, level: Level, x: Id, run: nat, order: seq<ProviderId>) returns (n: nat)
    requires GraphOk(g) && Played(g, level, x) && run != 0 && !Guarded(g, level, x, run)
    ensures LetInAfter(g, level, x, run, n, order)
  {
    var watch := WatchOf(g, level, x);
    n := if PersonalState.ActiveRun(watch) == run then 0 else run - PersonalState.Revision(watch);
    BeginsCount(g, level, x, n, order);
    hide GraphOk, Run, Infos, Begins;
  }

  /** Whoever wrote under an identifier, and in whichever run: once a new movie or episode has it, that run is let in again. */
  lemma CreationLetsIn(g: Graph, step: Step, order: seq<ProviderId>, level: Level, x: Id, run: nat)
    requires GraphOk(g) && Enabled(g, step) && Creates(g, step, order, level, x) && run != 0
    requires Played(Next(g, step, order), level, x)
    ensures var steps := [step] + Begins(level, x, run);
            && Possible(g, steps, order)
            && var h := Run(g, steps, order);
               x in Infos(h, level) && PlaybackRuns.Authorized(Infos(h, level)[x].personal, run, run)
  {
    hide *;
    CreatedIsUntouched(g, step, order, level, x);
    var h := Next(g, step, order);
    BeginsCount(h, level, x, run, order);
    OneStep(g, step, order);
    RunsFollow(g, [step], Begins(level, x, run), order);
    CountedIsPermitted(h, Run(h, Begins(level, x, run), order), level, x, run);
  }

  lemma CountedIsPermitted(g: Graph, h: Graph, level: Level, x: Id, run: nat)
    requires Untouched(g, level, x) && Played(h, level, x) && run != 0
    requires PersonalState.Revision(WatchOf(h, level, x)) == PersonalState.Revision(WatchOf(g, level, x)) + run
    requires PersonalState.ActiveRun(WatchOf(h, level, x)) == PersonalState.Revision(WatchOf(h, level, x))
    ensures x in Infos(h, level) && PlaybackRuns.Authorized(Infos(h, level)[x].personal, run, run)
  {
    hide Infos;
  }
}
