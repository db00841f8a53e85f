/**
 What each catalog operation comes to, said of the tables: which title an observation is resolved to,
 what it leaves recorded, when an identifier or write is refused and why, and how a page is dated.
 */
module CatalogOutcomes {
  import opened Util
  import opened ProviderPriority
  import opened EntityInfo
  import opened EntityWrites
  import opened Renaming
  import opened CatalogGraph
  import opened CatalogIdentity
  import opened CatalogWrites
  import opened CatalogRuns
  import opened CatalogCreations
  import FieldImport
  import HttpRange
  import NewestRows
  import Pages

  // ----- Identifiers -----

  /** On IMDb "tt" and at least seven digits, nothing else; on TMDB a positive number below 2 to the 64 as it is printed. */
  lemma ValidExactly(i: Identifier)
    ensures i.namespace.Imdb? ==>
              (Valid(i) <==> exists digits :: |digits| >= 7 && HttpRange.AllDigits(digits) && i.external == "tt" + digits)
    ensures i.namespace.Tmdb? ==>
              (Valid(i) <==> exists n: nat :: 0 < n < 0x1_0000_0000_0000_0000 && i.external == HttpRange.Show(n))
  {
    if i.namespace.Imdb? {
      if Valid(i) {
        assert i.external == "tt" + i.external[2..];
      }
      if digits :| |digits| >= 7 && HttpRange.AllDigits(digits) && i.external == "tt" + digits {
        assert i.external[..2] == "tt" && i.external[2..] == digits;
      }
    } else {
      if Valid(i) {
        var n: nat := HttpRange.Decimal(i.external).value;
        assert 0 < n < 0x1_0000_0000_0000_0000 && i.external == HttpRange.Show(n);
      }
      if n: nat :| 0 < n < 0x1_0000_0000_0000_0000 && i.external == HttpRange.Show(n) {
        HttpRange.ShowSpells(n);
        assert HttpRange.Decimal(i.external) == Ok(n);
      }
    }
  }

  /** The identifier names another entity, or this one has another identifier of the namespace. */
  ghost predicate Disputed(keys: map<Key, Id>, id: Id, i: Identifier) {
    || (Key(i.namespace, i.external) in keys && keys[Key(i.namespace, i.external)] != id)
    || exists k :: k in keys && keys[k] == id && k.namespace == i.namespace && k.external != i.external
  }

  ghost predicate TitleDisputed(keys: map<TitleKey, Id>, id: Id, kind: Kind, i: Identifier) {
    || (TitleKey(i.namespace, kind, i.external) in keys && keys[TitleKey(i.namespace, kind, i.external)] != id)
    || exists k :: k in keys && keys[k] == id && k.namespace == i.namespace && k.external != i.external
  }

  /** A supplier may speak of an entity: of its own, of what lies below it, of its series, or of a page it listed it on. */
  ghost predicate Speaks(g: Graph, level: Level, id: Id, s: Source) {
    match level
    case TitleLevel =>
      || s == TitleFetch(id) || s == PageFetch(true)
      || (s.SeasonFetch? && s.season in g.seasons && g.seasons[s.season].parent == id)
    case SeasonLevel => s == SeasonFetch(id) || (s.TitleFetch? && id in g.seasons && g.seasons[id].parent == s.title)
    case EpisodeLevel =>
      || s == EpisodeFetch(id)
      || (id in g.episodes && g.episodes[id].parent in g.seasons
          && (s == SeasonFetch(g.episodes[id].parent) || s == TitleFetch(g.seasons[g.episodes[id].parent].parent)))
  }

  lemma SpeaksExactly(g: Graph, level: Level, id: Id, s: Source)
    ensures Unsupplied(g, level, id, s).None? <==> Speaks(g, level, id, s)
    ensures Unsupplied(g, level, id, s).Some? ==> Unsupplied(g, level, id, s).value in {InvalidMetadata, Database}
  {
  }

  /**
   In a catalog that keeps its rules an identifier of a title is recorded exactly if it is valid, its supplier may
   speak of the title, the title is of its kind, and neither is disputed, also by an episode or, on IMDb, by a title
   of the other kind; the dispute is reported as such unless only the last kind is left.
   */
  lemma TitleKeyExactly(g: Graph, id: Id, kind: Kind, i: Identifier, s: Source)
    requires GraphOk(g)
    ensures var r := SetTitleKey(g, id, kind, i, s);
            var elsewhere := i.namespace.Imdb? && TitleKey(Imdb, if kind.Movie? then Series else Movie, i.external) in g.titleKeys;
            var disputed := TitleDisputed(g.titleKeys, id, kind, i) || (i.namespace.Imdb? && Key(Imdb, i.external) in g.episodeKeys);
            var placed := id in g.titles && g.titles[id] == kind;
            && (r.Ok? <==> Valid(i) && Speaks(g, TitleLevel, id, s) && placed && !disputed && !elsewhere)
            && (r.Ok? ==> r.value == g.(titleKeys := g.titleKeys[TitleKey(i.namespace, kind, i.external) := id]))
            && (!Valid(i) ==> r == Err(InvalidMetadata))
            && (Valid(i) && Speaks(g, TitleLevel, id, s) && disputed ==> r == Err(IdentityConflict))
            && (Valid(i) && Speaks(g, TitleLevel, id, s) && !disputed && !(placed && !elsewhere) ==> r == Err(Database))
  {
    GraphParts(g);
    SpeaksExactly(g, TitleLevel, id, s);
    TitleKeyOwned(g.titleKeys, g.titles, id, kind, i);
    hide *;
    SetTitleKeyIs(g, id, kind, i, s);
    TitleDisputedIs(g.titleKeys, id, kind, i);
  }

  lemma TitleKeyOwned(keys: map<TitleKey, Id>, titles: map<Id, Kind>, id: Id, kind: Kind, i: Identifier)
    requires TitleKeysOk(keys, titles)
    ensures var k := TitleKey(i.namespace, kind, i.external);
            k in keys && keys[k] == id ==>
              && id in titles && titles[id] == kind && keys[k := id] == keys
              && (i.namespace.Imdb? ==> TitleKey(Imdb, if kind.Movie? then Series else Movie, i.external) !in keys)
  {
  }

  lemma TitleDisputedIs(keys: map<TitleKey, Id>, id: Id, kind: Kind, i: Identifier)
    ensures TitleDisputed(keys, id, kind, i)
       <==> (TitleKey(i.namespace, kind, i.external) in keys && keys[TitleKey(i.namespace, kind, i.external)] != id)
            || HasOtherTitleKey(keys, id, i)
  {
  }

  lemma SetTitleKeyIs(g: Graph, id: Id, kind: Kind, i: Identifier, s: Source)
    ensures var k := TitleKey(i.namespace, kind, i.external);
            SetTitleKey(g, id, kind, i, s)
            == if !Valid(i) then Err(InvalidMetadata)
               else if Unsupplied(g, TitleLevel, id, s).Some? then Err(Unsupplied(g, TitleLevel, id, s).value)
               else if (i.namespace.Imdb? && Key(Imdb, i.external) in g.episodeKeys)
                       || (k in g.titleKeys && g.titleKeys[k] != id) || HasOtherTitleKey(g.titleKeys, id, i)
               then Err(IdentityConflict)
               else if k in g.titleKeys then Ok(g)
               else if id !in g.titles || g.titles[id] != kind
                       || (i.namespace.Imdb? && TitleKey(Imdb, if kind.Movie? then Series else Movie, i.external) in g.titleKeys)
               then Err(Database)
               else Ok(g.(titleKeys := g.titleKeys[k := id]))
  {
    hide Valid, Unsupplied, HasOtherTitleKey;
  }

  lemma DisputedIs(keys: map<Key, Id>, id: Id, i: Identifier)
    ensures Disputed(keys, id, i)
       <==> (Key(i.namespace, i.external) in keys && keys[Key(i.namespace, i.external)] != id) || HasOtherKey(keys, id, i)
  {
  }

  lemma KeyOwned(keys: map<Key, Id>, ids: set<Id>, id: Id, i: Identifier)
    requires forall k :: k in keys ==> keys[k] in ids
    ensures var k := Key(i.namespace, i.external); k in keys && keys[k] == id ==> id in ids && keys[k := id] == keys
  {
  }

  /** Of a season, which has no IMDb identifier. */
  lemma SeasonKeyExactly(g: Graph, id: Id, i: Identifier, s: Source)
    requires GraphOk(g)
    ensures var r := SetSeasonKey(g, id, i, s); var disputed := Disputed(g.seasonKeys, id, i);
            && (r.Ok? <==> Valid(i) && Speaks(g, SeasonLevel, id, s) && i.namespace.Tmdb? && !disputed && id in g.seasons)
            && (r.Ok? ==> r.value == g.(seasonKeys := g.seasonKeys[Key(i.namespace, i.external) := id]))
            && (!Valid(i) || (Speaks(g, SeasonLevel, id, s) && i.namespace.Imdb?) ==> r == Err(InvalidMetadata))
            && (Valid(i) && Speaks(g, SeasonLevel, id, s) && i.namespace.Tmdb? && disputed ==> r == Err(IdentityConflict))
  {
    GraphParts(g);
    SpeaksExactly(g, SeasonLevel, id, s);
    KeyOwned(g.seasonKeys, g.seasons.Keys, id, i);
    DisputedIs(g.seasonKeys, id, i);
    hide *;
    SetSeasonKeyIs(g, id, i, s);
  }

  lemma SetSeasonKeyIs(g: Graph, id: Id, i: Identifier, s: Source)
    ensures var k := Key(i.namespace, i.external);
            SetSeasonKey(g, id, i, s)
            == if !Valid(i) then Err(InvalidMetadata)
               else if Unsupplied(g, SeasonLevel, id, s).Some? then Err(Unsupplied(g, SeasonLevel, id, s).value)
               else if i.namespace.Imdb? then Err(InvalidMetadata)
               else if (k in g.seasonKeys && g.seasonKeys[k] != id) || HasOtherKey(g.seasonKeys, id, i) then Err(IdentityConflict)
               else if k in g.seasonKeys then Ok(g)
               else if id !in g.seasons then Err(Database)
               else Ok(g.(seasonKeys := g.seasonKeys[k := id]))
  {
    hide Valid, Unsupplied, HasOtherKey;
  }

  /** Of an episode, whose IMDb identifiers no title has. */
  lemma EpisodeKeyExactly(g: Graph, id: Id, i: Identifier, s: Source)
    requires GraphOk(g)
    ensures var r := SetEpisodeKey(g, id, i, s);
            var disputed := Disputed(g.episodeKeys, id, i)
                            || (i.namespace.Imdb? && exists kind :: TitleKey(Imdb, kind, i.external) in g.titleKeys);
            && (r.Ok? <==> Valid(i) && Speaks(g, EpisodeLevel, id, s) && !disputed && id in g.episodes)
            && (r.Ok? ==> r.value == g.(episodeKeys := g.episodeKeys[Key(i.namespace, i.external) := id]))
            && (!Valid(i) ==> r == Err(InvalidMetadata))
            && (Valid(i) && Speaks(g, EpisodeLevel, id, s) && disputed ==> r == Err(IdentityConflict))
  {
    GraphParts(g);
    SpeaksExactly(g, EpisodeLevel, id, s);
    KeyOwned(g.episodeKeys, g.episodes.Keys, id, i);
    DisputedIs(g.episodeKeys, id, i);
    TitleOwnsIs(g, i);
    hide *;
    SetEpisodeKeyIs(g, id, i, s);
    assert (i.namespace.Imdb? && exists kind :: TitleKey(Imdb, kind, i.external) in g.titleKeys)
       <==> i.namespace.Imdb? && TitleOwnsImdb(g, i.external);
  }

  lemma TitleOwnsIs(g: Graph, i: Identifier)
    ensures TitleOwnsImdb(g, i.external) <==> exists kind :: TitleKey(Imdb, kind, i.external) in g.titleKeys
  {
    if kind :| TitleKey(Imdb, kind, i.external) in g.titleKeys {
      assert kind == Movie || kind == Series;
    }
  }

  lemma SetEpisodeKeyIs(g: Graph, id: Id, i: Identifier, s: Source)
    ensures var k := Key(i.namespace, i.external);
            SetEpisodeKey(g, id, i, s)
            == if !Valid(i) then Err(InvalidMetadata)
               else if Unsupplied(g, EpisodeLevel, id, s).Some? then Err(Unsupplied(g, EpisodeLevel, id, s).value)
               else if (i.namespace.Imdb? && TitleOwnsImdb(g, i.external))
                       || (k in g.episodeKeys && g.episodeKeys[k] != id) || HasOtherKey(g.episodeKeys, id, i)
               then Err(IdentityConflict)
               else if k in g.episodeKeys then Ok(g)
               else if id !in g.episodes then Err(Database)
               else Ok(g.(episodeKeys := g.episodeKeys[k := id]))
  {
    hide Valid, Unsupplied, HasOtherKey, TitleOwnsImdb;
  }

  // ----- Writes to one entity -----

  /**
   A write to what is kept about an entity is refused if there is no such entity, if it brings observed fields or
   ratings from a supplier that may not speak of it, if it plays or finds sources for what is neither a movie nor an
   episode, and else for the reasons of the write itself; otherwise it changes what is kept about this one alone.
   */
  lemma WriteAtExactly(g: Graph, level: Level, id: Id, w: Write, s: Source, order: seq<ProviderId>)
    ensures var r := WriteAt(g, level, id, w, s, order);
            if id !in Infos(g, level) then r == Err(MissingIdentity)
            else if (w.WriteFields? || w.WriteRating?) && !Speaks(g, level, id, s)
            then r.Err? && r.error in {InvalidMetadata, Database}
            else if (w.Play? || w.SaveSnapshot?) && level.TitleLevel? && !(id in g.titles && g.titles[id].Movie?)
            then r == Err(InvalidMetadata)
            else match WriteInfo(EntitySort(g, level, id), Infos(g, level)[id], w, order)
                 case Err(e) => r == Err(e)
                 case Ok(info) => r.Ok? && OnlyAt(g, r.value, level, id) && Infos(r.value, level)[id] == info
  {
    SpeaksExactly(g, level, id, s);
    InfosWith(g, level, if id in Infos(g, level) then
                          match WriteInfo(EntitySort(g, level, id), Infos(g, level)[id], w, order)
                          case Ok(info) => Infos(g, level)[id := info] case Err(_) => Infos(g, level)
                        else Infos(g, level));
    hide WriteInfo, Unsupplied, Speaks, Infos, WithInfos, EntitySort;
    if WriteAt(g, level, id, w, s, order).Ok? {
      var info := WriteInfo(EntitySort(g, level, id), Infos(g, level)[id], w, order).value;
      assert Infos(g, level)[id := info].Keys == Infos(g, level).Keys;
    }
  }

  // ----- Resolving an observation -----

  /** A title of the kind has one of the identifiers. */
  ghost predicate HasOne(g: Graph, kind: Kind, ids: seq<Identifier>, x: Id) {
    exists i :: 0 <= i < |ids| && OwnsIt(g, kind, ids[i], x)
  }

  predicate OwnsIt(g: Graph, kind: Kind, i: Identifier, x: Id) {
    var k := TitleKey(i.namespace, kind, i.external); k in g.titleKeys && g.titleKeys[k] == x
  }

  /** The identifier is valid and, on IMDb, is neither an episode's nor a title's of the other kind. */
  predicate Usable(g: Graph, kind: Kind, i: Identifier) {
    Valid(i)
    && (i.namespace.Imdb? ==>
          && Key(Imdb, i.external) !in g.episodeKeys
          && TitleKey(Imdb, if kind.Movie? then Series else Movie, i.external) !in g.titleKeys)
  }

  /** Usable identifiers, one per namespace. */
  ghost predicate Readable(g: Graph, kind: Kind, ids: seq<Identifier>) {
    && (forall i :: 0 <= i < |ids| ==> Usable(g, kind, ids[i]))
    && (forall i, j :: 0 <= i < j < |ids| ==> ids[i].namespace != ids[j].namespace)
  }

  ghost predicate Unseen(ids: seq<Identifier>, seen: set<Namespace>) {
    forall i :: 0 <= i < |ids| ==> ids[i].namespace !in seen
  }

  lemma ReadableFirst(g: Graph, kind: Kind, ids: seq<Identifier>, seen: set<Namespace>)
    requires ids != []
    ensures Readable(g, kind, ids) && Unseen(ids, seen)
       <==> Usable(g, kind, ids[0]) && ids[0].namespace !in seen
            && Readable(g, kind, ids[1..]) && Unseen(ids[1..], seen + {ids[0].namespace})
  {
    var rest := ids[1..];
    hide Usable;
    assert forall i :: 0 < i < |ids| ==> ids[i] == rest[i - 1];
    if Usable(g, kind, ids[0]) && ids[0].namespace !in seen && Readable(g, kind, rest) && Unseen(rest, seen + {ids[0].namespace}) {
      forall i, j | 0 <= i < j < |ids| ensures ids[i].namespace != ids[j].namespace {
        assert rest[j - 1].namespace !in seen + {ids[0].namespace};
      }
      forall i | 0 <= i < |ids| ensures ids[i].namespace !in seen {
        assert i > 0 ==> rest[i - 1].namespace !in seen + {ids[0].namespace};
      }
    }
  }

  lemma HasOneFirst(g: Graph, kind: Kind, ids: seq<Identifier>, x: Id)
    requires ids != []
    ensures HasOne(g, kind, ids, x) <==> OwnsIt(g, kind, ids[0], x) || HasOne(g, kind, ids[1..], x)
  {
    var rest := ids[1..];
    hide OwnsIt;
    assert forall i :: 0 < i < |ids| ==> ids[i] == rest[i - 1];
    if HasOne(g, kind, rest, x) {
      var i :| 0 <= i < |rest| && OwnsIt(g, kind, rest[i], x);
      assert OwnsIt(g, kind, ids[i + 1], x);
    }
  }

  lemma FirstOwner(g: Graph, kind: Kind, ids: seq<Identifier>, seen: set<Namespace>, owners: seq<Id>) returns (more: seq<Id>)
    requires ids != []
    ensures forall x :: x in more <==> x in owners || OwnsIt(g, kind, ids[0], x)
    ensures Owners(g, kind, ids, seen, owners)
         == if !Valid(ids[0]) || ids[0].namespace in seen then Err(InvalidMetadata)
            else if !Usable(g, kind, ids[0]) then Err(IdentityConflict)
            else Owners(g, kind, ids[1..], seen + {ids[0].namespace}, more)
  {
    var k := TitleKey(ids[0].namespace, kind, ids[0].external);
    more := if k in g.titleKeys then AddOwner(owners, g.titleKeys[k]) else owners;
    hide Valid;
  }

  /** The owners are found exactly if the identifiers can be read, and they are the titles that have one of them. */
  lemma {:induction false} OwnersExactly(g: Graph, kind: Kind, ids: seq<Identifier>, seen: set<Namespace>, owners: seq<Id>)
    ensures var r := Owners(g, kind, ids, seen, owners);
            && (r.Ok? <==> Readable(g, kind, ids) && Unseen(ids, seen))
            && (r.Ok? ==> forall x :: x in r.value <==> x in owners || HasOne(g, kind, ids, x))
            && (r.Err? ==> r.error in {InvalidMetadata, IdentityConflict})
    decreases |ids|
  {
    if ids != [] {
      ReadableFirst(g, kind, ids, seen);
      var more := FirstOwner(g, kind, ids, seen, owners);
      OwnersExactly(g, kind, ids[1..], seen + {ids[0].namespace}, more);
      hide Owners, Readable, Unseen, Usable, Valid, HasOne, OwnsIt;
      forall x ensures HasOne(g, kind, ids, x) <==> OwnsIt(g, kind, ids[0], x) || HasOne(g, kind, ids[1..], x) {
        HasOneFirst(g, kind, ids, x);
      }
    }
  }

  /**
   An observation is refused if it has no identifier, an unusable one or two of a namespace. Otherwise it is of the
   title that has its identifiers; if no title has one it is of a new title; and if two titles have them, these are
   one, the lower identifier surviving, unless their graphs contradict each other.
   */
  lemma ResolvesExactly(g: Graph, o: Observation, id: Id, order: seq<ProviderId>, w: Id, l: Id)
    requires GraphOk(g)
    ensures var r := Resolve(g, o, id, order);
            && (o.identifiers == [] || !Readable(g, o.kind, o.identifiers) ==>
                  r.Err? && r.error in {InvalidMetadata, IdentityConflict})
            && (o.identifiers != [] && Readable(g, o.kind, o.identifiers) ==>
                  && ((forall x :: !HasOne(g, o.kind, o.identifiers, x)) ==>
                        r == Ok((g.(titles := g.titles[id := o.kind], titleInfo := g.titleInfo[id := NewInfo()]), id)))
                  && ((forall x :: HasOne(g, o.kind, o.identifiers, x) <==> x == w) ==> r == Ok((g, w)))
                  && (HasOne(g, o.kind, o.identifiers, w) && HasOne(g, o.kind, o.identifiers, l) && w < l ==>
                        r == if Compatible(g, w, l) && Mergeable(g, w, l, order) then Ok((MergedGraph(g, w, l, order), w))
                             else Err(IdentityConflict)))
  {
    GraphParts(g);
    OwnersExactly(g, o.kind, o.identifiers, {}, []);
    OwnersExist(g, o.kind, o.identifiers, {}, []);
    AtMostTwoOwners(g, o.kind, o.identifiers, {}, []);
    var r := Owners(g, o.kind, o.identifiers, {}, []);
    hide GraphOk, Readable, HasOne, Owners, TitleKeysOk, Mergeable, MergedGraph, Compatible;
    assert Unseen(o.identifiers, {});
    if r.Ok? {
      if |r.value| > 1 {
        BothMentioned(g, o.kind, o.identifiers, r.value[0], r.value[1]);
      }
      OwnersList(g, o, id, order, r.value, w, l);
    }
  }

  lemma BothMentioned(g: Graph, kind: Kind, ids: seq<Identifier>, x: Id, y: Id)
    requires Readable(g, kind, ids) && HasOne(g, kind, ids, x) && HasOne(g, kind, ids, y) && x != y
    ensures Mentions(ids, Imdb) && Mentions(ids, Namespace.Tmdb)
  {
    var i :| 0 <= i < |ids| && OwnsIt(g, kind, ids[i], x);
    var j :| 0 <= j < |ids| && OwnsIt(g, kind, ids[j], y);
    assert ids[i].namespace != ids[j].namespace;
    hide Usable;
  }

  lemma OwnersList(g: Graph, o: Observation, id: Id, order: seq<ProviderId>, owners: seq<Id>, w: Id, l: Id)
    requires Owners(g, o.kind, o.identifiers, {}, []) == Ok(owners) && |owners| <= 2 && OwnerList(g, o.kind, owners)
    requires forall x :: x in owners <==> HasOne(g, o.kind, o.identifiers, x)
    requires |owners| > 1 ==> Mentions(o.identifiers, Imdb) && Mentions(o.identifiers, Namespace.Tmdb)
    ensures var r := Resolve(g, o, id, order);
            o.identifiers != [] ==>
              && ((forall x :: !HasOne(g, o.kind, o.identifiers, x)) ==>
                    r == Ok((g.(titles := g.titles[id := o.kind], titleInfo := g.titleInfo[id := NewInfo()]), id)))
              && ((forall x :: HasOne(g, o.kind, o.identifiers, x) <==> x == w) ==> r == Ok((g, w)))
              && (HasOne(g, o.kind, o.identifiers, w) && HasOne(g, o.kind, o.identifiers, l) && w < l ==>
                    w in g.titles && l in g.titles
                    && r == if Compatible(g, w, l) && Mergeable(g, w, l, order) then Ok((MergedGraph(g, w, l, order), w))
                            else Err(IdentityConflict))
  {
    hide HasOne, Owners, Mentions, Mergeable, MergedGraph, Compatible;
    assert w in owners <==> HasOne(g, o.kind, o.identifiers, w);
    if |owners| == 1 {
      assert owners[0] in owners;
    } else if |owners| == 2 {
      assert owners[0] in owners && owners[1] in owners;
    }
  }

  // ----- Recording an observation -----

  type Rates = map<RatingKey, NewestRows.Row<string>>

  /** A key has a rating if it had one or was given one, and its rating is one of these, none of them observed later. */
  ghost predicate NewestOf(before: Rates, after: Rates, ratings: seq<(RatingKey, NewestRows.Row<string>)>, k: RatingKey) {
    && (k in after <==> k in before || Given(ratings, k))
    && (k in after ==>
          && ((k in before && after[k] == before[k]) || (k, after[k]) in ratings)
          && (k in before ==> after[k].observed >= before[k].observed)
          && forall row :: (k, row) in ratings ==> after[k].observed >= row.observed)
  }

  ghost predicate Given(ratings: seq<(RatingKey, NewestRows.Row<string>)>, k: RatingKey) { exists row :: (k, row) in ratings }

  ghost predicate Rated(before: Info, after: Info, ratings: seq<(RatingKey, NewestRows.Row<string>)>) {
    after == before.(ratings := after.ratings) && forall k :: NewestOf(before.ratings, after.ratings, ratings, k)
  }

  lemma RateOneAt(before: Rates, after: Rates, ratings: seq<(RatingKey, NewestRows.Row<string>)>, k: RatingKey)
    requires ratings != [] && NewestOf(NewestRows.Offered(before, ratings[0].0, ratings[0].1), after, ratings[1..], k)
    ensures NewestOf(before, after, ratings, k)
  {
    var rest := ratings[1..];
    assert ratings == [ratings[0]] + rest;
    assert forall r :: r in ratings <==> r == ratings[0] || r in rest;
    if ratings[0].0 == k {
      assert (k, ratings[0].1) in ratings;
    }
  }

  lemma RateOne(before: Info, middle: Info, after: Info, ratings: seq<(RatingKey, NewestRows.Row<string>)>)
    requires ratings != [] && middle == before.(ratings := NewestRows.Offered(before.ratings, ratings[0].0, ratings[0].1))
    requires Rated(middle, after, ratings[1..])
    ensures Rated(before, after, ratings)
  {
    hide NewestOf, NewestRows.Offered;
    forall k ensures NewestOf(before.ratings, after.ratings, ratings, k) {
      RateOneAt(before.ratings, after.ratings, ratings, k);
    }
  }

  /** Only what is kept about one title changes. */
  ghost predicate OnlyTitle(g: Graph, h: Graph, id: Id) {
    && h == g.(titleInfo := h.titleInfo) && h.titleInfo.Keys == g.titleInfo.Keys && id in g.titleInfo
    && forall x :: x in g.titleInfo && x != id ==> h.titleInfo[x] == g.titleInfo[x]
  }

  lemma OnlyTitleTwice(g: Graph, m: Graph, h: Graph, id: Id)
    requires OnlyTitle(g, m, id) && OnlyTitle(m, h, id)
    ensures OnlyTitle(g, h, id)
  {
    forall x | x in g.titleInfo && x != id ensures h.titleInfo[x] == g.titleInfo[x] {
      assert x in m.titleInfo.Keys;
    }
  }

  lemma TitleWritten(g: Graph, id: Id, w: Write, s: Source, order: seq<ProviderId>)
    requires WriteAt(g, TitleLevel, id, w, s, order).Ok?
    ensures var h := WriteAt(g, TitleLevel, id, w, s, order).value;
            OnlyTitle(g, h, id) && WriteInfo(EntitySort(g, TitleLevel, id), g.titleInfo[id], w, order) == Ok(h.titleInfo[id])
  {
    hide WriteInfo, Unsupplied, Playable;
    var info := WriteInfo(EntitySort(g, TitleLevel, id), g.titleInfo[id], w, order).value;
    assert g.titleInfo[id := info].Keys == g.titleInfo.Keys;
  }

  lemma {:induction false} RatingsRecorded(g: Graph, id: Id, ratings: seq<(RatingKey, NewestRows.Row<string>)>, s: Source,
                                           order: seq<ProviderId>)
    requires id in g.titleInfo && ImportRatings(g, id, ratings, s, order).Ok?
    ensures var h := ImportRatings(g, id, ratings, s, order).value;
            OnlyTitle(g, h, id) && Rated(g.titleInfo[id], h.titleInfo[id], ratings)
    decreases |ratings|
  {
    hide WriteAt, OnlyTitle, Rated;
    if ratings == [] {
      OnlyTitleSelf(g, id);
      RatedSelf(g.titleInfo[id]);
    } else {
      var w := WriteRating(ratings[0].0, ratings[0].1);
      TitleWritten(g, id, w, s, order);
      var m := WriteAt(g, TitleLevel, id, w, s, order).value;
      OnlyTitleHas(g, m, id);
      RatingsRecorded(m, id, ratings[1..], s, order);
      var h := ImportRatings(m, id, ratings[1..], s, order).value;
      OnlyTitleTwice(g, m, h, id);
      RateOne(g.titleInfo[id], m.titleInfo[id], h.titleInfo[id], ratings);
    }
  }

  lemma OnlyTitleSelf(g: Graph, id: Id)
    requires id in g.titleInfo
    ensures OnlyTitle(g, g, id)
  {
  }

  lemma OnlyTitleHas(g: Graph, h: Graph, id: Id)
    requires OnlyTitle(g, h, id)
    ensures id in g.titleInfo && id in h.titleInfo
  {
    assert id in h.titleInfo.Keys;
  }

  lemma RatedSelf(info: Info)
    ensures Rated(info, info, [])
  {
  }

  /** An identifier observed is the title's; any other has the owner it had. */
  predicate KeyAddedAt(before: map<TitleKey, Id>, after: map<TitleKey, Id>, id: Id, kind: Kind, ids: seq<Identifier>, k: TitleKey) {
    if k.kind == kind && Identifier(k.namespace, k.external) in ids then k in after && after[k] == id
    else (k in after <==> k in before) && (k in after ==> after[k] == before[k])
  }

  /** No owner is replaced. */
  ghost predicate KeysAdded(g: Graph, h: Graph, id: Id, kind: Kind, ids: seq<Identifier>) {
    && h == g.(titleKeys := h.titleKeys)
    && (forall k :: KeyAddedAt(g.titleKeys, h.titleKeys, id, kind, ids, k))
    && (forall k :: k in g.titleKeys ==> k in h.titleKeys && h.titleKeys[k] == g.titleKeys[k])
  }

  lemma {:induction false} KeysAddedExactly(g: Graph, id: Id, kind: Kind, ids: seq<Identifier>, s: Source)
    requires ImportKeys(g, id, kind, ids, s).Ok?
    ensures KeysAdded(g, ImportKeys(g, id, kind, ids, s).value, id, kind, ids)
    decreases |ids|
  {
    if ids != [] {
      hide SetTitleKey, KeysAdded;
      KeyAdded(g, id, kind, ids[0], s);
      var m := SetTitleKey(g, id, kind, ids[0], s).value;
      KeysAddedExactly(m, id, kind, ids[1..], s);
      OneMoreKey(g, m, ImportKeys(m, id, kind, ids[1..], s).value, id, kind, ids);
    }
  }

  lemma KeyAdded(g: Graph, id: Id, kind: Kind, i: Identifier, s: Source)
    requires SetTitleKey(g, id, kind, i, s).Ok?
    ensures var h := SetTitleKey(g, id, kind, i, s).value; var k := TitleKey(i.namespace, kind, i.external);
            && h == g.(titleKeys := g.titleKeys[k := id]) && (k in g.titleKeys ==> g.titleKeys[k] == id)
  {
    SetTitleKeyIs(g, id, kind, i, s);
    hide SetTitleKey, Valid, Unsupplied, HasOtherTitleKey;
    var k := TitleKey(i.namespace, kind, i.external);
    assert k in g.titleKeys && g.titleKeys[k] == id ==> g.titleKeys[k := id] == g.titleKeys;
  }

  lemma OneMoreKey(g: Graph, m: Graph, h: Graph, id: Id, kind: Kind, ids: seq<Identifier>)
    requires ids != [] && var k := TitleKey(ids[0].namespace, kind, ids[0].external);
             m == g.(titleKeys := g.titleKeys[k := id]) && (k in g.titleKeys ==> g.titleKeys[k] == id)
    requires KeysAdded(m, h, id, kind, ids[1..])
    ensures KeysAdded(g, h, id, kind, ids)
  {
    hide KeyAddedAt;
    forall k ensures KeyAddedAt(g.titleKeys, h.titleKeys, id, kind, ids, k) {
      OneMoreKeyAt(g.titleKeys, m.titleKeys, h.titleKeys, id, kind, ids, k);
    }
    forall k | k in g.titleKeys ensures k in h.titleKeys && h.titleKeys[k] == g.titleKeys[k] {
      assert k in m.titleKeys && m.titleKeys[k] == g.titleKeys[k];
    }
  }

  lemma OneMoreKeyAt(before: map<TitleKey, Id>, middle: map<TitleKey, Id>, after: map<TitleKey, Id>, id: Id, kind: Kind,
                     ids: seq<Identifier>, k: TitleKey)
    requires ids != [] && middle == before[TitleKey(ids[0].namespace, kind, ids[0].external) := id]
    requires KeyAddedAt(middle, after, id, kind, ids[1..], k)
    ensures KeyAddedAt(before, after, id, kind, ids, k)
  {
    assert ids == [ids[0]] + ids[1..];
    assert Identifier(k.namespace, k.external) in ids
       <==> Identifier(k.namespace, k.external) == ids[0] || Identifier(k.namespace, k.external) in ids[1..];
  }

  /**
   What an accepted observation leaves in the catalog its title was resolved in: the title has the identifiers
   observed, its fields are those the import retains, its ratings the newest, and nothing else is changed.
   */
  lemma ObservationIsRecorded(g: Graph, o: Observation, paged: bool, id: Id, order: seq<ProviderId>)
    requires GraphOk(g) && id !in g.titles && Observe(g, o, paged, id, order).Ok?
    ensures Resolve(g, o, id, order).Ok?
    ensures var (m, t) := Resolve(g, o, id, order).value; var (h, found) := Observe(g, o, paged, id, order).value;
            && found == t && t in m.titleInfo && t in h.titleInfo
            && exists named, columns ::
                 && KeysAdded(m, named, t, o.kind, o.identifiers) && OnlyTitle(named, h, t)
                 && FieldImport.ImportFields(SortOf(o.kind), m.titleInfo[t].columns, o.fields, o.origin, order) == Ok(columns)
                 && Rated(m.titleInfo[t].(columns := columns), h.titleInfo[t], o.ratings)
  {
    hide *;
    ObserveParts(g, o, paged, id, order);
    ResolveResolves(g, o, id, order);
    var (m, t) := Resolve(g, o, id, order).value;
    ResolvedKind(g, m, t, o.kind);
    ImportIsRecorded(m, t, o, SourceOf(t, paged), order);
  }

  lemma ResolvedKind(g: Graph, m: Graph, t: Id, kind: Kind)
    requires Resolved(g, m, t, kind)
    ensures t in m.titles && m.titles[t] == kind
  {
    hide GraphOk, Keeps;
  }

  lemma ImportIsRecorded(m: Graph, t: Id, o: Observation, s: Source, order: seq<ProviderId>)
    requires Import(m, t, o, s, order).Ok? && t in m.titles && m.titles[t] == o.kind
    ensures var h := Import(m, t, o, s, order).value;
            && t in m.titleInfo && t in h.titleInfo
            && exists named, columns ::
                 && KeysAdded(m, named, t, o.kind, o.identifiers) && OnlyTitle(named, h, t)
                 && FieldImport.ImportFields(SortOf(o.kind), m.titleInfo[t].columns, o.fields, o.origin, order) == Ok(columns)
                 && Rated(m.titleInfo[t].(columns := columns), h.titleInfo[t], o.ratings)
  {
    ImportParts(m, t, o, s, order);
    hide Import, ImportKeys, ImportRatings, WriteAt, KeysAdded, OnlyTitle, Rated, FieldImport.ImportFields, GraphOk;
    KeysAddedExactly(m, t, o.kind, o.identifiers, s);
    var named := ImportKeys(m, t, o.kind, o.identifiers, s).value;
    KeysAddedOnly(m, named, t, o.kind, o.identifiers);
    var w := WriteFields(o.fields, o.origin);
    TitleWritten(named, t, w, s, order);
    var described := WriteAt(named, TitleLevel, t, w, s, order).value;
    OnlyTitleHas(named, described, t);
    RatingsRecorded(described, t, o.ratings, s, order);
    var h := ImportRatings(described, t, o.ratings, s, order).value;
    OnlyTitleHas(described, h, t);
    OnlyTitleTwice(named, described, h, t);
    assert described.titleInfo[t] == named.titleInfo[t].(columns := described.titleInfo[t].columns);
  }

  lemma KeysAddedOnly(g: Graph, h: Graph, id: Id, kind: Kind, ids: seq<Identifier>)
    requires KeysAdded(g, h, id, kind, ids)
    ensures h.titleInfo == g.titleInfo && h.titles == g.titles
  {
  }

  // ----- A saved page -----

  /** A saved page is dated by its fetch and carries the provider's total; every other page is as the listed titles left it. */
  lemma WrittenPageIsDated(g: Graph, p: Id, listed: seq<Listed>, fetched: nat, total: Option<nat>, order: seq<ProviderId>)
    requires WritePage(g, p, listed, fetched, total, order).Ok?
    ensures Collect(g, listed, [], order).Ok?
    ensures var (m, ids) := Collect(g, listed, [], order).value; var h := WritePage(g, p, listed, fetched, total, order).value;
            && p in h.pages && h.pages[p].available && h.pages[p].fetched == Some(fetched) && h.pages[p].total == total
            && |h.pages[p].items| == |ids| && h == m.(pages := m.pages[p := h.pages[p]])
  {
    hide Collect;
  }
}
