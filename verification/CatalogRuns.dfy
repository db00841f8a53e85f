/**
 The catalog over time. An observed title is resolved to the title that owns its identifiers,
 which may show that two titles are one; what was observed is then recorded. A page write does so
 for each listed observation. Whatever is written, the rules of the catalog hold throughout.
 */
module CatalogRuns {
  import opened Util
  import opened ProviderPriority
  import opened EntityInfo
  import opened Renaming
  import opened CatalogGraph
  import opened CatalogIdentity
  import opened CatalogWrites
  import opened EntityWrites
  import NewestRows
  import Pages

  // ----- Resolving -----

  predicate ImdbTakenElsewhere(g: Graph, kind: Kind, external: string) {
    EpisodeOwnsImdb(g, external) || TitleKey(Imdb, Other(kind), external) in g.titleKeys
  }

  function AddOwner(owners: seq<Id>, id: Id): seq<Id> { if id in owners then owners else owners + [id] }

  /** The titles that own the observed identifiers, in order of discovery. */
  function Owners(g: Graph, kind: Kind, ids: seq<Identifier>, seen: set<Namespace>,
                  owners: seq<Id>): Result<seq<Id>, CatalogError>
    decreases |ids|
  {
    if ids == [] then Ok(owners)
    else if !Valid(ids[0]) || ids[0].namespace in seen then Err(InvalidMetadata)
    else if ids[0].namespace.Imdb? && ImdbTakenElsewhere(g, kind, ids[0].external) then Err(IdentityConflict)
    else
      var k := TitleKey(ids[0].namespace, kind, ids[0].external);
      Owners(g, kind, ids[1..], seen + {ids[0].namespace}, if k in g.titleKeys then AddOwner(owners, g.titleKeys[k]) else owners)
  }

  predicate Mentions(ids: seq<Identifier>, n: Namespace) { exists i :: 0 <= i < |ids| && ids[i].namespace == n }

  function AddTitle(g: Graph, kind: Kind, id: Id): Graph {
    g.(titles := g.titles[id := kind], titleInfo := g.titleInfo[id := NewInfo()])
  }

  ghost function Reconciled(g: Graph, a: Id, b: Id, order: seq<ProviderId>): Result<(Graph, Id), CatalogError> {
    var w, l := Min(a, b), Max(a, b);
    if w in g.titles && l in g.titles && Compatible(g, w, l) && Mergeable(g, w, l, order)
    then Ok((MergedGraph(g, w, l, order), w)) else Err(IdentityConflict)
  }

  /** One owner is the title, two owners are one title if both namespaces are observed, none is a new title. */
  ghost function Resolve(g: Graph, o: Observation, id: Id, order: seq<ProviderId>): Result<(Graph, Id), CatalogError> {
    if o.identifiers == [] then Err(InvalidMetadata)
    else
      match Owners(g, o.kind, o.identifiers, {}, [])
      case Err(e) => Err(e)
      case Ok(owners) =>
        if |owners| > 1 then
          if Mentions(o.identifiers, Imdb) && Mentions(o.identifiers, Namespace.Tmdb) then Reconciled(g, owners[0], owners[1], order)
          else Err(IdentityConflict)
        else if |owners| == 1 then Ok((g, owners[0]))
        else Ok((AddTitle(g, o.kind, id), id))
  }

  /** Different titles of the observed kind. */
  ghost predicate OwnerList(g: Graph, kind: Kind, owners: seq<Id>) {
    && (forall x :: x in owners ==> x in g.titles && g.titles[x] == kind)
    && (forall i, j :: 0 <= i < j < |owners| ==> owners[i] != owners[j])
  }

  lemma AddOwnerKeeps(g: Graph, kind: Kind, owners: seq<Id>, id: Id)
    requires OwnerList(g, kind, owners) && id in g.titles && g.titles[id] == kind
    ensures OwnerList(g, kind, AddOwner(owners, id)) && forall x :: x in owners ==> x in AddOwner(owners, id)
  {
  }

  lemma {:induction false} OwnersExist(g: Graph, kind: Kind, ids: seq<Identifier>, seen: set<Namespace>, owners: seq<Id>)
    requires TitleKeysOk(g.titleKeys, g.titles) && OwnerList(g, kind, owners)
    ensures var r := Owners(g, kind, ids, seen, owners);
            r.Ok? ==> OwnerList(g, kind, r.value) && forall x :: x in owners ==> x in r.value
    decreases |ids|
  {
    hide ImdbTakenElsewhere, Valid, OwnerList, AddOwner;
    if ids != [] {
      var k := TitleKey(ids[0].namespace, kind, ids[0].external);
      var more := if k in g.titleKeys then AddOwner(owners, g.titleKeys[k]) else owners;
      if k in g.titleKeys {
        AddOwnerKeeps(g, kind, owners, g.titleKeys[k]);
      }
      OwnersExist(g, kind, ids[1..], seen + {ids[0].namespace}, more);
    }
  }

  /** Every observed identifier that has an owner has one of those found. */
  lemma {:induction false} OwnersComplete(g: Graph, kind: Kind, ids: seq<Identifier>, seen: set<Namespace>,
                            owners: seq<Id>, i: nat)
    requires Owners(g, kind, ids, seen, owners).Ok? && i < |ids|
    ensures var k := TitleKey(ids[i].namespace, kind, ids[i].external);
            k in g.titleKeys ==> g.titleKeys[k] in Owners(g, kind, ids, seen, owners).value
    ensures ids[i].namespace !in seen && Valid(ids[i])
    ensures ids[i].namespace.Imdb? ==> !ImdbTakenElsewhere(g, kind, ids[i].external)
    decreases |ids|
  {
    var k := TitleKey(ids[0].namespace, kind, ids[0].external);
    var more := if k in g.titleKeys then AddOwner(owners, g.titleKeys[k]) else owners;
    assert k in g.titleKeys ==> g.titleKeys[k] in more;
    if i == 0 {
      OwnersGrow(g, kind, ids[1..], seen + {ids[0].namespace}, more);
    } else {
      assert ids[i] == ids[1..][i - 1];
      OwnersComplete(g, kind, ids[1..], seen + {ids[0].namespace}, more, i - 1);
    }
  }

  lemma {:induction false} OwnersGrow(g: Graph, kind: Kind, ids: seq<Identifier>, seen: set<Namespace>, owners: seq<Id>)
    ensures var r := Owners(g, kind, ids, seen, owners); r.Ok? ==> forall x :: x in owners ==> x in r.value
    decreases |ids|
  {
    hide ImdbTakenElsewhere, Valid;
    if ids != [] {
      var k := TitleKey(ids[0].namespace, kind, ids[0].external);
      var more := if k in g.titleKeys then AddOwner(owners, g.titleKeys[k]) else owners;
      assert forall x :: x in owners ==> x in more;
      OwnersGrow(g, kind, ids[1..], seen + {ids[0].namespace}, more);
    }
  }

  /** There are two namespaces, so at most two owners: reconciling the first two reconciles all. */
  lemma {:induction false} AtMostTwoOwners(g: Graph, kind: Kind, ids: seq<Identifier>, seen: set<Namespace>, owners: seq<Id>)
    requires |owners| <= |seen|
    ensures var r := Owners(g, kind, ids, seen, owners); r.Ok? ==> |r.value| <= 2
    decreases |ids|
  {
    NamespacesAreTwo(seen);
    if ids != [] && ids[0].namespace !in seen {
      var k := TitleKey(ids[0].namespace, kind, ids[0].external);
      var more := if k in g.titleKeys then AddOwner(owners, g.titleKeys[k]) else owners;
      AtMostTwoOwners(g, kind, ids[1..], seen + {ids[0].namespace}, more);
    }
  }

  lemma NamespacesAreTwo(s: set<Namespace>)
    ensures |s| <= 2
  {
    var all: set<Namespace> := {Imdb, Namespace.Tmdb};
    forall n | n in s ensures n in all {
      if n.Imdb? {} else { assert n == Namespace.Tmdb; }
    }
    SubsetIsSmaller(s, all);
  }

  lemma {:induction false} SubsetIsSmaller<T>(a: set<T>, b: set<T>)
    requires a <= b
    ensures |a| <= |b|
    decreases |a|
  {
    if a != {} {
      var x :| x in a;
      SubsetIsSmaller(a - {x}, b - {x});
    }
  }

  // ----- Recording what was observed -----

  function ImportKeys(g: Graph, id: Id, kind: Kind, ids: seq<Identifier>, s: Source): Result<Graph, CatalogError>
    decreases |ids|
  {
    if ids == [] then Ok(g)
    else
      match SetTitleKey(g, id, kind, ids[0], s)
      case Err(e) => Err(e)
      case Ok(h) => ImportKeys(h, id, kind, ids[1..], s)
  }

  function ImportRatings(g: Graph, id: Id, ratings: seq<(RatingKey, NewestRows.Row<string>)>, s: Source,
                         order: seq<ProviderId>)
    : Result<Graph, CatalogError>
    decreases |ratings|
  {
    if ratings == [] then Ok(g)
    else
      match WriteAt(g, TitleLevel, id, WriteRating(ratings[0].0, ratings[0].1), s, order)
      case Err(e) => Err(e)
      case Ok(h) => ImportRatings(h, id, ratings[1..], s, order)
  }

  /** Identifiers, then fields, then ratings. */
  function Import(g: Graph, id: Id, o: Observation, s: Source, order: seq<ProviderId>): Result<Graph, CatalogError> {
    match ImportKeys(g, id, o.kind, o.identifiers, s)
    case Err(e) => Err(e)
    case Ok(named) =>
      match WriteAt(named, TitleLevel, id, WriteFields(o.fields, o.origin), s, order)
      case Err(e) => Err(e)
      case Ok(described) => ImportRatings(described, id, o.ratings, s, order)
  }

  /** Details are supplied by a fetch of the title itself, a listing by the fetch that filled its page. */
  function SourceOf(id: Id, paged: bool): Source { if paged then PageFetch(true) else TitleFetch(id) }

  ghost function Observe(g: Graph, o: Observation, paged: bool, id: Id, order: seq<ProviderId>)
    : Result<(Graph, Id), CatalogError>
  {
    match Resolve(g, o, id, order)
    case Err(e) => Err(e)
    case Ok(found) =>
      match Import(found.0, found.1, o, SourceOf(found.1, paged), order)
      case Err(e) => Err(e)
      case Ok(h) => Ok((h, found.1))
  }

  /** Identifiers that x owned are still x's. */
  ghost predicate Keeps(g: Graph, h: Graph, x: Id) {
    forall k :: k in g.titleKeys && g.titleKeys[k] == x ==> k in h.titleKeys && h.titleKeys[k] == x
  }

  lemma {:induction false} KeysRecorded(g: Graph, id: Id, kind: Kind, ids: seq<Identifier>, s: Source)
    requires GraphOk(g) && ImportKeys(g, id, kind, ids, s).Ok?
    ensures var h := ImportKeys(g, id, kind, ids, s).value;
            && GraphOk(h) && h == g.(titleKeys := h.titleKeys)
            && (forall x :: Keeps(g, h, x))
            && (forall i :: 0 <= i < |ids| ==> Owns(h, id, kind, ids[i]))
    decreases |ids|
  {
    hide GraphOk, SetTitleKey;
    if ids != [] {
      SetTitleKeyRecords(g, id, kind, ids[0], s);
      var mid := SetTitleKey(g, id, kind, ids[0], s).value;
      KeysRecorded(mid, id, kind, ids[1..], s);
      var h := ImportKeys(g, id, kind, ids, s).value;
      forall i | 0 <= i < |ids| ensures Owns(h, id, kind, ids[i]) {
        if i == 0 {
          assert Keeps(mid, h, id);
        } else {
          assert ids[i] == ids[1..][i - 1];
        }
      }
      forall x ensures Keeps(g, h, x) {
        assert Keeps(mid, h, x);
      }
    }
  }

  /** h differs from g in identifiers and in what is kept about titles, at most. */
  ghost predicate SameRows(g: Graph, h: Graph) { h == g.(titleKeys := h.titleKeys, titleInfo := h.titleInfo) }

  lemma TitleWriteKeeps(g: Graph, h: Graph, id: Id)
    requires OnlyAt(g, h, TitleLevel, id)
    ensures SameRows(g, h) && h.titleKeys == g.titleKeys
  {
  }

  lemma {:induction false} RatingsRecorded(g: Graph, id: Id, ratings: seq<(RatingKey, NewestRows.Row<string>)>,
                            s: Source, order: seq<ProviderId>)
    requires GraphOk(g) && ImportRatings(g, id, ratings, s, order).Ok?
    ensures var h := ImportRatings(g, id, ratings, s, order).value; GraphOk(h) && SameRows(g, h) && h.titleKeys == g.titleKeys
    decreases |ratings|
  {
    hide GraphOk, WriteAt, OnlyAt;
    if ratings != [] {
      var w := WriteRating(ratings[0].0, ratings[0].1);
      WriteAtKeepsRules(g, TitleLevel, id, w, s, order);
      var mid := WriteAt(g, TitleLevel, id, w, s, order).value;
      TitleWriteKeeps(g, mid, id);
      RatingsRecorded(mid, id, ratings[1..], s, order);
    }
  }

  lemma ImportParts(g: Graph, id: Id, o: Observation, s: Source, order: seq<ProviderId>)
    requires Import(g, id, o, s, order).Ok?
    ensures ImportKeys(g, id, o.kind, o.identifiers, s).Ok?
    ensures var named := ImportKeys(g, id, o.kind, o.identifiers, s).value; var w := WriteFields(o.fields, o.origin);
            && WriteAt(named, TitleLevel, id, w, s, order).Ok?
            && Import(g, id, o, s, order) == ImportRatings(WriteAt(named, TitleLevel, id, w, s, order).value, id, o.ratings, s, order)
  {
    hide ImportKeys, ImportRatings, WriteAt;
  }

  lemma SameRowsTwice(g: Graph, m: Graph, h: Graph)
    requires SameRows(g, m) && SameRows(m, h) && h.titleKeys == m.titleKeys
    ensures SameRows(g, h) && (forall x :: Keeps(g, m, x) ==> Keeps(g, h, x))
    ensures forall id, kind, i :: Owns(m, id, kind, i) ==> Owns(h, id, kind, i)
  {
  }

  /** Fields and ratings leave the identifiers alone. */
  lemma DescribeKeeps(named: Graph, id: Id, o: Observation, s: Source, order: seq<ProviderId>)
    requires GraphOk(named) && WriteAt(named, TitleLevel, id, WriteFields(o.fields, o.origin), s, order).Ok?
    requires ImportRatings(WriteAt(named, TitleLevel, id, WriteFields(o.fields, o.origin), s, order).value, id, o.ratings, s, order).Ok?
    ensures var described := WriteAt(named, TitleLevel, id, WriteFields(o.fields, o.origin), s, order).value;
            var h := ImportRatings(described, id, o.ratings, s, order).value;
            GraphOk(h) && SameRows(named, h) && h.titleKeys == named.titleKeys
  {
    hide *;
    var w := WriteFields(o.fields, o.origin);
    WriteAtKeepsRules(named, TitleLevel, id, w, s, order);
    var described := WriteAt(named, TitleLevel, id, w, s, order).value;
    TitleWriteKeeps(named, described, id);
    RatingsRecorded(described, id, o.ratings, s, order);
    SameRowsTwice(named, described, ImportRatings(described, id, o.ratings, s, order).value);
  }

  /** An import keeps the rules and every identifier, and the title owns the observed ones. */
  lemma ImportRecords(g: Graph, id: Id, o: Observation, s: Source, order: seq<ProviderId>)
    requires GraphOk(g) && Import(g, id, o, s, order).Ok?
    ensures var h := Import(g, id, o, s, order).value;
            && GraphOk(h) && SameRows(g, h)
            && (forall x :: Keeps(g, h, x))
            && (forall i :: 0 <= i < |o.identifiers| ==> Owns(h, id, o.kind, o.identifiers[i]))
  {
    hide *;
    ImportParts(g, id, o, s, order);
    KeysRecorded(g, id, o.kind, o.identifiers, s);
    var named := ImportKeys(g, id, o.kind, o.identifiers, s).value;
    DescribeKeeps(named, id, o, s, order);
    KeysOnly(g, named);
    SameRowsTwice(g, named, Import(g, id, o, s, order).value);
  }

  lemma KeysOnly(g: Graph, h: Graph)
    requires h == g.(titleKeys := h.titleKeys)
    ensures SameRows(g, h)
  {
  }

  ghost predicate Owns(h: Graph, id: Id, kind: Kind, i: Identifier) {
    var k := TitleKey(i.namespace, kind, i.external);
    k in h.titleKeys && h.titleKeys[k] == id
  }

  lemma TablesAllowTitle(g: Graph, kind: Kind, id: Id)
    requires TitleKeysOk(g.titleKeys, g.titles) && PagesOk(g.pages, g.titles) && id !in g.titles
    ensures var titles := g.titles[id := kind];
            && titles.Keys == g.titles.Keys + {id} && TitleKeysOk(g.titleKeys, titles) && PagesOk(g.pages, titles)
            && SeriesOf(g.titles) <= SeriesOf(titles)
  {
  }

  lemma NewTitleIsOwn(titles: map<Id, Kind>, infos: map<Id, Info>, kind: Kind, id: Id)
    requires KindsOk(titles, infos)
    ensures KindsOk(titles[id := kind], infos[id := NewInfo()])
  {
    hide Barred;
  }

  lemma AddTitleKeepsRules(g: Graph, kind: Kind, id: Id)
    requires GraphOk(g) && id !in g.titles
    ensures GraphOk(AddTitle(g, kind, id))
  {
    hide Placed, TitleKeysOk, SeasonKeysOk, EpisodeKeysOk, ImdbSeparate, InfosOk, PagesOk, KindsOk, SeriesOf, NewInfo;
    NewInfoOk(TitleLevel, g.titleInfo, g.titles.Keys, id);
    NewTitleIsOwn(g.titles, g.titleInfo, kind, id);
    TablesAllowTitle(g, kind, id);
    PlacedWider(g.seasons, SeriesOf(g.titles), SeriesOf(g.titles[id := kind]));
  }

  /** What resolving gives: a title of the observed kind; every other surviving title keeps its identifiers. */
  ghost predicate Resolved(g: Graph, h: Graph, t: Id, kind: Kind) {
    && GraphOk(h) && t in h.titles && h.titles[t] == kind
    && forall x :: x in g.titles && x in h.titles ==> Keeps(g, h, x)
  }

  lemma MergedTitleTables(g: Graph, w: Id, l: Id, order: seq<ProviderId>)
    ensures MergedGraph(g, w, l, order).titles == g.titles - {l}
    ensures MergedGraph(g, w, l, order).titleKeys == KeysAfter(g.titleKeys, map[l := w])
  {
  }

  lemma MergeResolves(g: Graph, a: Id, b: Id, order: seq<ProviderId>, kind: Kind)
    requires GraphOk(g) && a != b && a in g.titles && b in g.titles && g.titles[a] == kind && g.titles[b] == kind
    requires Reconciled(g, a, b, order).Ok?
    ensures var (h, t) := Reconciled(g, a, b, order).value; Resolved(g, h, t, kind)
  {
    hide GraphOk, Compatible, Mergeable, MergedGraph, KeysAfter, Keeps;
    var w, l := Min(a, b), Max(a, b);
    MergedGraphOk(g, w, l, order);
    MergedTitleTables(g, w, l, order);
    var h := MergedGraph(g, w, l, order);
    forall x | x in g.titles && x in h.titles ensures Keeps(g, h, x) {
      KeepsMerged(g, h, w, l, x);
    }
  }

  lemma KeepsMerged(g: Graph, h: Graph, w: Id, l: Id, x: Id)
    requires h.titleKeys == KeysAfter(g.titleKeys, map[l := w]) && x != l
    ensures Keeps(g, h, x)
  {
    KeepsApart(g.titleKeys, w, l, x);
    hide KeysAfter;
  }

  lemma KeepsApart(keys: map<TitleKey, Id>, w: Id, l: Id, x: Id)
    requires x != l
    ensures forall k :: k in keys && keys[k] == x ==> k in KeysAfter(keys, map[l := w]) && KeysAfter(keys, map[l := w])[k] == x
  {
  }

  lemma ResolveResolves(g: Graph, o: Observation, id: Id, order: seq<ProviderId>)
    requires GraphOk(g) && id !in g.titles && Resolve(g, o, id, order).Ok?
    ensures var (h, t) := Resolve(g, o, id, order).value; Resolved(g, h, t, o.kind)
  {
    GraphParts(g);
    OwnersExist(g, o.kind, o.identifiers, {}, []);
    var owners := Owners(g, o.kind, o.identifiers, {}, []).value;
    AddTitleKeepsRules(g, o.kind, id);
    hide GraphOk, Reconciled, Owners, Mentions, TitleKeysOk, SeasonKeysOk, EpisodeKeysOk, ImdbSeparate, Placed, InfosOk, PagesOk,
         KindsOk;
    if |owners| > 1 {
      MergeResolves(g, owners[0], owners[1], order, o.kind);
    }
  }

  lemma ObserveParts(g: Graph, o: Observation, paged: bool, id: Id, order: seq<ProviderId>)
    requires Observe(g, o, paged, id, order).Ok?
    ensures Resolve(g, o, id, order).Ok?
    ensures var (m, t) := Resolve(g, o, id, order).value; var found := Observe(g, o, paged, id, order).value;
            Import(m, t, o, SourceOf(t, paged), order) == Ok(found.0) && found.1 == t
  {
    hide Resolve, Import;
  }

  lemma ResolvedIsOk(g: Graph, h: Graph, t: Id, kind: Kind)
    requires Resolved(g, h, t, kind)
    ensures GraphOk(h) && t in h.titles
  {
    hide GraphOk;
  }

  lemma ResolvedThen(g: Graph, m: Graph, h: Graph, t: Id, kind: Kind)
    requires Resolved(g, m, t, kind) && GraphOk(h) && SameRows(m, h) && forall x :: Keeps(m, h, x)
    ensures Resolved(g, h, t, kind)
  {
    hide GraphOk;
    forall x | x in g.titles && x in h.titles ensures Keeps(g, h, x) {
      assert Keeps(g, m, x) && Keeps(m, h, x);
    }
  }

  /** An observed title owns every identifier it was observed under, and every other survivor keeps its own. */
  lemma ObservedTitleOwnsItsIdentifiers(g: Graph, o: Observation, paged: bool, id: Id, order: seq<ProviderId>)
    requires GraphOk(g) && id !in g.titles && Observe(g, o, paged, id, order).Ok?
    ensures var (h, t) := Observe(g, o, paged, id, order).value;
            && Resolved(g, h, t, o.kind)
            && forall i :: 0 <= i < |o.identifiers| ==> Owns(h, t, o.kind, o.identifiers[i])
  {
    hide *;
    ObserveParts(g, o, paged, id, order);
    ResolveResolves(g, o, id, order);
    var (m, t) := Resolve(g, o, id, order).value;
    var h := Observe(g, o, paged, id, order).value.0;
    ResolvedIsOk(g, m, t, o.kind);
    ImportRecords(m, t, o, SourceOf(t, paged), order);
    ResolvedThen(g, m, h, t, o.kind);
  }

  // ----- Writing a page -----

  datatype Listed = Listed(observation: Observation, newId: Id)

  /** Resolves and records the listed observations in order; a title listed twice is refused. */
  ghost function Collect(g: Graph, listed: seq<Listed>, ids: seq<Id>, order: seq<ProviderId>)
    : Result<(Graph, seq<Id>), CatalogError>
    decreases |listed|
  {
    if listed == [] then Ok((g, ids))
    else if listed[0].newId in g.titles then Err(Database)
    else
      match Observe(g, listed[0].observation, true, listed[0].newId, order)
      case Err(e) => Err(e)
      case Ok(found) =>
        if found.1 in ids then Err(InvalidMetadata) else Collect(found.0, listed[1..], ids + [found.1], order)
  }

  function PageAt(g: Graph, p: Id): Pages.Page {
    if p in g.pages then g.pages[p] else Pages.Page([], None, false, None, None)
  }

  /** A membership row must name an existing title; otherwise the whole write fails. */
  ghost function WritePage(g: Graph, p: Id, listed: seq<Listed>, fetched: nat, total: Option<nat>, order: seq<ProviderId>)
    : Result<Graph, CatalogError>
  {
    match Collect(g, listed, [], order)
    case Err(e) => Err(e)
    case Ok(found) =>
      if exists i :: 0 <= i < |found.1| && found.1[i] !in found.0.titles then Err(Database)
      else Ok(found.0.(pages := found.0.pages[p := Pages.Store(PageAt(found.0, p), found.1, fetched, total)]))
  }

  /** The title at a place owns the identifiers listed there, if it is still there. */
  ghost predicate OwnsListed(h: Graph, x: Id, o: Observation) {
    x in h.titles ==> forall i :: 0 <= i < |o.identifiers| ==> Owns(h, x, o.kind, o.identifiers[i])
  }

  /** A title that has gone does not come back, since a new one under its identifier would repeat it. */
  lemma {:induction false} CollectKeeps(g: Graph, listed: seq<Listed>, ids: seq<Id>, order: seq<ProviderId>,
                            x: Id, o: Observation)
    requires GraphOk(g) && x in ids && OwnsListed(g, x, o) && Collect(g, listed, ids, order).Ok?
    ensures OwnsListed(Collect(g, listed, ids, order).value.0, x, o)
    decreases |listed|
  {
    if listed != [] {
      var first := listed[0];
      ObservedTitleOwnsItsIdentifiers(g, first.observation, true, first.newId, order);
      var (h, t) := Observe(g, first.observation, true, first.newId, order).value;
      StaysOwned(g, h, first, order, x, t, o);
      CollectKeeps(h, listed[1..], ids + [t], order, x, o);
    }
  }

  lemma StaysOwned(g: Graph, h: Graph, first: Listed, order: seq<ProviderId>, x: Id, t: Id, o: Observation)
    requires GraphOk(g) && first.newId !in g.titles && OwnsListed(g, x, o) && x != t
    requires Observe(g, first.observation, true, first.newId, order) == Ok((h, t))
    ensures OwnsListed(h, x, o)
  {
    hide *;
    ObservedTitleOwnsItsIdentifiers(g, first.observation, true, first.newId, order);
    ObserveAddsOnly(g, first, order);
    SurvivorOwns(g, h, t, first.observation.kind, x, o);
  }

  lemma SurvivorOwns(g: Graph, h: Graph, t: Id, kind: Kind, x: Id, o: Observation)
    requires Resolved(g, h, t, kind) && h.titles.Keys <= g.titles.Keys + {t} && x != t && OwnsListed(g, x, o)
    ensures OwnsListed(h, x, o)
  {
    hide *;
    SurvivorKeeps(g, h, t, kind, x);
    if x in h.titles {
      assert x in h.titles.Keys;
      StillOwns(g, h, x, o);
    } else {
      NoneLeft(h, x, o);
    }
  }

  lemma SurvivorKeeps(g: Graph, h: Graph, t: Id, kind: Kind, x: Id)
    requires Resolved(g, h, t, kind)
    ensures x in g.titles && x in h.titles ==> Keeps(g, h, x)
  {
    hide GraphOk, Keeps;
  }

  lemma NoneLeft(h: Graph, x: Id, o: Observation)
    requires x !in h.titles
    ensures OwnsListed(h, x, o)
  {
  }

  lemma StillOwns(g: Graph, h: Graph, x: Id, o: Observation)
    requires OwnsListed(g, x, o) && x in g.titles && Keeps(g, h, x)
    ensures OwnsListed(h, x, o)
  {
  }

  lemma ObserveAddsOnly(g: Graph, first: Listed, order: seq<ProviderId>)
    requires GraphOk(g) && first.newId !in g.titles && Observe(g, first.observation, true, first.newId, order).Ok?
    ensures var (h, t) := Observe(g, first.observation, true, first.newId, order).value; h.titles.Keys <= g.titles.Keys + {t}
  {
    ResolveAddsOnly(g, first.observation, first.newId, order);
    ResolveResolves(g, first.observation, first.newId, order);
    hide GraphOk, Resolve, Import;
    var (m, t) := Resolve(g, first.observation, first.newId, order).value;
    ImportRecords(m, t, first.observation, SourceOf(t, true), order);
  }

  lemma ResolveAddsOnly(g: Graph, o: Observation, id: Id, order: seq<ProviderId>)
    requires GraphOk(g) && id !in g.titles && Resolve(g, o, id, order).Ok?
    ensures var (h, t) := Resolve(g, o, id, order).value; h.titles.Keys <= g.titles.Keys + {t}
  {
    GraphParts(g);
    OwnersExist(g, o.kind, o.identifiers, {}, []);
    var owners := Owners(g, o.kind, o.identifiers, {}, []).value;
    AddTitleAdds(g, o.kind, id);
    hide GraphOk, Reconciled, AddTitle;
    if |owners| > 1 {
      ReconciledRemoves(g, owners[0], owners[1], order);
    }
  }

  lemma AddTitleAdds(g: Graph, kind: Kind, id: Id)
    ensures AddTitle(g, kind, id).titles.Keys == g.titles.Keys + {id}
  {
    hide NewInfo;
  }

  lemma ReconciledRemoves(g: Graph, a: Id, b: Id, order: seq<ProviderId>)
    requires Reconciled(g, a, b, order).Ok?
    ensures Reconciled(g, a, b, order).value.0.titles.Keys <= g.titles.Keys
  {
    hide Compatible, Mergeable, MergedGraph;
    MergedTitleTables(g, Min(a, b), Max(a, b), order);
    assert (g.titles - {Max(a, b)}).Keys == g.titles.Keys - {Max(a, b)};
  }

  lemma CollectNext(g: Graph, listed: seq<Listed>, ids: seq<Id>, order: seq<ProviderId>)
    requires GraphOk(g) && listed != [] && Collect(g, listed, ids, order).Ok?
    ensures var first := listed[0];
            && first.newId !in g.titles && Observe(g, first.observation, true, first.newId, order).Ok?
            && var (mid, t) := Observe(g, first.observation, true, first.newId, order).value;
               && GraphOk(mid) && t !in ids && OwnsListed(mid, t, first.observation)
               && Collect(mid, listed[1..], ids + [t], order) == Collect(g, listed, ids, order)
  {
    ObservedTitleOwnsItsIdentifiers(g, listed[0].observation, true, listed[0].newId, order);
    hide GraphOk, Observe;
  }

  /** Collecting keeps the rules and gives each listed observation a place of its own whose title owns its identifiers. */
  lemma {:induction false} CollectGives(g: Graph, listed: seq<Listed>, ids: seq<Id>, order: seq<ProviderId>)
    requires GraphOk(g) && Pages.Distinct(ids) && Collect(g, listed, ids, order).Ok?
    ensures var (h, all) := Collect(g, listed, ids, order).value;
            && GraphOk(h) && Pages.Distinct(all) && |all| == |ids| + |listed| && all[..|ids|] == ids
            && forall k :: 0 <= k < |listed| ==> OwnsListed(h, all[|ids| + k], listed[k].observation)
    decreases |listed|
  {
    hide GraphOk, Observe, OwnsListed, Collect, Pages.Distinct;
    if listed == [] {
      CollectNone(g, ids, order);
    } else {
      CollectNext(g, listed, ids, order);
      var first := listed[0];
      var (mid, t) := Observe(g, first.observation, true, first.newId, order).value;
      var more := ids + [t];
      DistinctMore(ids, t);
      CollectGives(mid, listed[1..], more, order);
      CollectKeeps(mid, listed[1..], more, order, t, first.observation);
      PlacesLineUp(Collect(g, listed, ids, order).value.0, listed, ids, t, Collect(g, listed, ids, order).value.1);
    }
  }

  lemma CollectNone(g: Graph, ids: seq<Id>, order: seq<ProviderId>)
    requires GraphOk(g)
    ensures Collect(g, [], ids, order) == Ok((g, ids))
  {
  }

  lemma DistinctMore(ids: seq<Id>, t: Id)
    requires Pages.Distinct(ids) && t !in ids
    ensures Pages.Distinct(ids + [t])
  {
  }

  /** Places counted from after the first are places counted from the first. */
  lemma PlacesLineUp(h: Graph, listed: seq<Listed>, ids: seq<Id>, t: Id, all: seq<Id>)
    requires listed != [] && |all| == |ids| + |listed| && all[..|ids + [t]|] == ids + [t]
             && OwnsListed(h, t, listed[0].observation)
    requires forall k :: 0 <= k < |listed[1..]| ==> OwnsListed(h, all[|ids + [t]| + k], listed[1..][k].observation)
    ensures all[..|ids|] == ids && forall k :: 0 <= k < |listed| ==> OwnsListed(h, all[|ids| + k], listed[k].observation)
  {
    hide OwnsListed;
    PrefixOfPrefix(all, ids, t);
    forall k | 0 <= k < |listed| ensures OwnsListed(h, all[|ids| + k], listed[k].observation) {
      if k > 0 {
        assert OwnsListed(h, all[|ids + [t]| + (k - 1)], listed[1..][k - 1].observation);
      }
    }
  }

  lemma PrefixOfPrefix(all: seq<Id>, ids: seq<Id>, t: Id)
    requires |ids| + 1 <= |all| && all[..|ids + [t]|] == ids + [t]
    ensures all[..|ids|] == ids && all[|ids|] == t
  {
    assert all[..|ids|] == all[..|ids + [t]|][..|ids|];
    assert all[|ids|] == all[..|ids + [t]|][|ids|];
  }

  /**
   A page that is written keeps every rule, reads back as one distinct title per listed
   observation in the order listed, and each of those titles owns what was observed there.
   */
  lemma WrittenPageReads(g: Graph, p: Id, listed: seq<Listed>, fetched: nat, total: Option<nat>,
                         order: seq<ProviderId>) returns (ids: seq<Id>)
    requires GraphOk(g) && WritePage(g, p, listed, fetched, total, order).Ok?
    ensures var h := WritePage(g, p, listed, fetched, total, order).value;
            && GraphOk(h) && p in h.pages && Pages.Read(h.pages[p]) == Ok(Some(ids)) && |ids| == |listed|
            && (forall i, j :: 0 <= i < j < |ids| ==> ids[i] != ids[j])
            && forall k :: 0 <= k < |listed| ==>
                 ids[k] in h.titles && OwnsListed(h, ids[k], listed[k].observation)
  {
    CollectGives(g, listed, [], order);
    var (m, all) := Collect(g, listed, [], order).value;
    ids := all;
    Pages.WriteThenRead(PageAt(m, p), all, fetched, total);
    hide Collect, Pages.Read;
    StoredPageOk(m, p, Pages.Store(PageAt(m, p), all, fetched, total), all);
  }

  lemma StoredPageOk(m: Graph, p: Id, page: Pages.Page, ids: seq<Id>)
    requires GraphOk(m) && Pages.PageOk(page) && Pages.Titles(page.items) == ids
    requires forall i :: 0 <= i < |ids| ==> ids[i] in m.titles
    ensures GraphOk(m.(pages := m.pages[p := page]))
  {
    hide Placed, TitleKeysOk, SeasonKeysOk, EpisodeKeysOk, ImdbSeparate, InfosOk, SeriesOf;
  }

  // ----- Every run -----

  datatype Step =
    | ObserveTitle(observation: Observation, newTitle: Id)
    | PutSeason(series: Id, season: nat, newSeason: Id)
    | PutEpisode(inSeason: Id, episode: nat, newEpisode: Id)
    | NameSeason(namedSeason: Id, seasonId: Identifier, seasonSource: Source)
    | NameEpisode(namedEpisode: Id, episodeId: Identifier, episodeSource: Source)
    | SavePage(page: Id, listed: seq<Listed>, fetched: nat, total: Option<nat>)
    | WriteEntity(level: Level, entity: Id, write: Write, source: Source)

  /** New rows get unused identifiers. */
  predicate Enabled(g: Graph, step: Step) {
    match step
    case ObserveTitle(_, id) => id !in g.titles
    case PutSeason(_, _, id) => id !in g.seasons
    case PutEpisode(_, _, id) => id !in g.episodes
    case _ => true
  }

  function Settled(g: Graph, r: Result<Graph, CatalogError>): Graph { match r case Ok(h) => h case Err(_) => g }

  /** One transaction: an error has no effect. */
  ghost function Next(g: Graph, step: Step, order: seq<ProviderId>): Graph {
    match step
    case ObserveTitle(o, id) =>
      (match Observe(g, o, false, id, order) case Ok(found) => found.0 case Err(_) => g)
    case PutSeason(series, n, id) => Settled(g, AddSeason(g, series, n, id))
    case PutEpisode(season, n, id) => Settled(g, AddEpisode(g, season, n, id))
    case NameSeason(id, i, s) => Settled(g, SetSeasonKey(g, id, i, s))
    case NameEpisode(id, i, s) => Settled(g, SetEpisodeKey(g, id, i, s))
    case SavePage(p, listed, fetched, total) => Settled(g, WritePage(g, p, listed, fetched, total, order))
    case WriteEntity(level, id, w, s) => Settled(g, WriteAt(g, level, id, w, s, order))
  }

  lemma StepKeepsRules(g: Graph, step: Step, order: seq<ProviderId>)
    requires GraphOk(g) && Enabled(g, step)
    ensures GraphOk(Next(g, step, order))
  {
    hide GraphOk, Observe, AddSeason, AddEpisode, SetSeasonKey, SetEpisodeKey, WritePage, WriteAt;
    match step {
      case ObserveTitle(o, id) =>
        if Observe(g, o, false, id, order).Ok? { ObservedTitleOwnsItsIdentifiers(g, o, false, id, order); }
      case PutSeason(series, n, id) =>
        if AddSeason(g, series, n, id).Ok? { AddSeasonKeepsRules(g, series, n, id); }
      case PutEpisode(season, n, id) =>
        if AddEpisode(g, season, n, id).Ok? { AddEpisodeKeepsRules(g, season, n, id); }
      case NameSeason(id, i, s) =>
        if SetSeasonKey(g, id, i, s).Ok? { SetSeasonKeyRecords(g, id, i, s); }
      case NameEpisode(id, i, s) =>
        if SetEpisodeKey(g, id, i, s).Ok? { SetEpisodeKeyRecords(g, id, i, s); }
      case SavePage(p, listed, fetched, total) =>
        if WritePage(g, p, listed, fetched, total, order).Ok? {
          var _ := WrittenPageReads(g, p, listed, fetched, total, order);
        }
      case WriteEntity(level, id, w, s) =>
        if WriteAt(g, level, id, w, s, order).Ok? { WriteAtKeepsRules(g, level, id, w, s, order); }
    }
  }

  /** All that is asked of a run is that new rows get unused identifiers. */
  ghost predicate Possible(g: Graph, steps: seq<Step>, order: seq<ProviderId>)
    decreases |steps|
  {
    steps != [] ==> Enabled(g, steps[0]) && Possible(Next(g, steps[0], order), steps[1..], order)
  }

  ghost function Run(g: Graph, steps: seq<Step>, order: seq<ProviderId>): Graph
    decreases |steps|
  {
    if steps == [] then g else Run(Next(g, steps[0], order), steps[1..], order)
  }

  lemma {:induction false} RunsFollow(g: Graph, a: seq<Step>, b: seq<Step>, order: seq<ProviderId>)
    requires Possible(g, a, order) && Possible(Run(g, a, order), b, order)
    ensures Possible(g, a + b, order) && Run(g, a + b, order) == Run(Run(g, a, order), b, order)
    decreases |a|
  {
    hide Enabled, Next;
    if a == [] {
      assert a + b == b;
    } else {
      assert (a + b)[1..] == a[1..] + b;
      RunsFollow(Next(g, a[0], order), a[1..], b, order);
    }
  }

  lemma OneStep(g: Graph, step: Step, order: seq<ProviderId>)
    requires Enabled(g, step)
    ensures Possible(g, [step], order) && Run(g, [step], order) == Next(g, step, order)
  {
    hide Next, Enabled;
    assert [step][1..] == [];
  }

  /** From any well-formed catalog, every run of writes keeps every rule. */
  lemma {:induction false} RunKeepsRules(g: Graph, steps: seq<Step>, order: seq<ProviderId>)
    requires GraphOk(g) && Possible(g, steps, order)
    ensures GraphOk(Run(g, steps, order))
    decreases |steps|
  {
    hide GraphOk, Next, Enabled;
    if steps != [] {
      StepKeepsRules(g, steps[0], order);
      RunKeepsRules(Next(g, steps[0], order), steps[1..], order);
    }
  }

  function EmptyCatalog(): Graph {
    Graph(map[], map[], map[], map[], map[], map[], map[], map[], map[], map[])
  }

  lemma EmptyCatalogOk()
    ensures GraphOk(EmptyCatalog())
  {
  }

  /** From an empty catalog, over every run: one identifier per namespace, and an IMDb identifier names one thing. */
  lemma IdentifiersStayUnique(steps: seq<Step>, order: seq<ProviderId>, k: TitleKey, q: TitleKey)
    requires Possible(EmptyCatalog(), steps, order)
    ensures var h := Run(EmptyCatalog(), steps, order);
            && GraphOk(h)
            && (k in h.titleKeys && q in h.titleKeys && k != q ==>
                  && (h.titleKeys[k] == h.titleKeys[q] ==> k.namespace != q.namespace)
                  && (k.namespace.Imdb? && q.namespace.Imdb? ==> k.external != q.external)
                  && h.titles.Keys >= {h.titleKeys[k], h.titleKeys[q]})
            && forall e :: e in h.episodeKeys && e.namespace.Imdb? && k in h.titleKeys && k.namespace.Imdb? ==> e.external != k.external
  {
    EmptyCatalogOk();
    RunKeepsRules(EmptyCatalog(), steps, order);
    GraphParts(Run(EmptyCatalog(), steps, order));
    hide GraphOk, Run, Possible, EmptyCatalog;
  }
}
