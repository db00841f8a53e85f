/**
 The writes that change what is kept about one title, season or episode: imported fields, ratings,
 fetch attempts, source snapshots, library membership and playback. An error changes nothing; every
 accepted write keeps the entity well kept.
 */
module EntityWrites {
  import opened Util
  import opened ProviderPriority
  import opened EntityInfo
  import FieldImport
  import FieldMerge
  import FieldPolicy
  import NewestRows
  import PersonalState
  import PlaybackRuns

  datatype Write =
    | WriteFields(fields: FieldImport.FieldList, origin: FieldPolicy.Origin)
    | WriteRating(rating: RatingKey, observed: NewestRows.Row<string>)
    | FetchSucceeded(fetched: FetchKey, time: nat, empty: bool, completeness: NewestRows.Completeness)
    | FetchFailed(attempted: FetchKey, at: nat, error: string)
    | SaveSnapshot(snapshot: SnapshotKey, sources: NewestRows.Row<string>)
    | SetMembership(saved: bool, addedAt: int)
    | Play(op: PlaybackRuns.Operation, now: nat)

  /** Membership keeps the time of the first addition until it is removed. */
  function Membership(p: PersonalState.Personal, saved: bool, time: int): PersonalState.Personal {
    if !saved then p.(added := None) else if p.added.Some? then p else p.(added := Some(time))
  }

  /** Only titles are library members, and only titles and episodes have sources and are played. */
  function WriteInfo(sort: Sort, info: Info, w: Write, order: seq<ProviderId>): Result<Info, CatalogError> {
    match w
    case WriteFields(fields, origin) =>
      (match FieldImport.ImportFields(sort, info.columns, fields, origin, order)
       case Ok(columns) => Ok(info.(columns := columns))
       case Err(e) => Err(e))
    case WriteRating(k, row) => Ok(info.(ratings := NewestRows.Offered(info.ratings, k, row)))
    case FetchSucceeded(k, time, empty, completeness) =>
      Ok(info.(fetches := info.fetches[k := NewestRows.Succeeded(NewestRows.At(info.fetches, k), time, empty, completeness)]))
    case FetchFailed(k, at, error) =>
      Ok(info.(fetches := info.fetches[k := NewestRows.AttemptFailed(NewestRows.At(info.fetches, k), at, error)]))
    case SaveSnapshot(k, row) =>
      if sort.OneSeason? then Err(InvalidMetadata) else Ok(info.(snapshots := info.snapshots[k := row]))
    case SetMembership(saved, time) =>
      if !LevelOf(sort).TitleLevel? then Err(MissingIdentity)
      else if saved && time < 0 then Err(Clock)
      else Ok(info.(personal := Membership(info.personal, saved, time)))
    case Play(op, now) =>
      if sort.OneSeason? then Err(InvalidMetadata)
      else Ok(info.(personal := PlaybackRuns.Operate(info.personal, op, now).0))
  }

  lemma WriteKeepsInfo(sort: Sort, info: Info, w: Write, order: seq<ProviderId>)
    requires InfoOk(LevelOf(sort), info) && WriteInfo(sort, info, w, order).Ok?
    ensures InfoOk(LevelOf(sort), WriteInfo(sort, info, w, order).value)
  {
    match w {
      case WriteFields(fields, origin) => FieldImport.ImportKeepsRules(sort, info.columns, fields, origin, order);
      case Play(op, now) => PlaybackRuns.OperateConsistent(info.personal, op, now);
      case _ =>
    }
  }

  // ----- What a write changes -----

  /** Why a write is refused. */
  function Refusal(sort: Sort, info: Info, w: Write, order: seq<ProviderId>): Option<CatalogError> {
    match WriteInfo(sort, info, w, order) case Ok(_) => None case Err(e) => Some(e)
  }

  /** Ratings and fetches can always be recorded; the rest asks for an entity of its kind, and an addition for a time. */
  lemma RefusedExactly(sort: Sort, info: Info, w: Write, order: seq<ProviderId>)
    requires !w.WriteFields?
    ensures var title := sort.MovieTitle? || sort.SeriesTitle?;
            Refusal(sort, info, w, order)
            == if w.SaveSnapshot? && sort.OneSeason? then Some(InvalidMetadata)
               else if w.Play? && sort.OneSeason? then Some(InvalidMetadata)
               else if w.SetMembership? && !title then Some(MissingIdentity)
               else if w.SetMembership? && w.saved && w.addedAt < 0 then Some(Clock)
               else None
  {
  }

  /** Rows of other keys are as they were. */
  ghost predicate OnlyKey<K(!new), V(!new)>(before: map<K, V>, after: map<K, V>, k: K) {
    k in after && forall other :: other != k ==> NewestRows.At(after, other) == NewestRows.At(before, other)
  }

  /** What the entity holds after an accepted write: the row that was written, and everything else as before. */
  ghost predicate Wrote(before: Info, after: Info, w: Write) {
    match w
    case WriteFields(_, _) => after == before.(columns := after.columns)
    case WriteRating(k, row) =>
      && after == before.(ratings := after.ratings) && OnlyKey(before.ratings, after.ratings, k)
      && after.ratings[k] == if k in before.ratings && before.ratings[k].observed > row.observed then before.ratings[k] else row
    case SaveSnapshot(k, row) =>
      after == before.(snapshots := after.snapshots) && OnlyKey(before.snapshots, after.snapshots, k) && after.snapshots[k] == row
    case FetchSucceeded(k, time, empty, completeness) =>
      && after == before.(fetches := after.fetches) && OnlyKey(before.fetches, after.fetches, k)
      && var f := after.fetches[k];
         && f.attempt == Some(time) && f.error == None && f.success.Some?
         && f.success.value == NewestRows.Success(time, empty, completeness, f.success.value.facts)
         && forall facts :: f.success.value.facts == Some(facts) <==>
              k in before.fetches && before.fetches[k].success.Some? && before.fetches[k].success.value.facts == Some(facts)
    case FetchFailed(k, at, error) =>
      && after == before.(fetches := after.fetches) && OnlyKey(before.fetches, after.fetches, k)
      && after.fetches[k].attempt == Some(at) && after.fetches[k].error == Some(error)
      && forall success :: after.fetches[k].success == Some(success) <==>
           k in before.fetches && before.fetches[k].success == Some(success)
    case SetMembership(saved, time) =>
      && after == before.(personal := before.personal.(added := after.personal.added))
      && (saved <==> after.personal.added.Some?)
      && (saved ==> after.personal.added.value == if before.personal.added.Some? then before.personal.added.value else time)
    case Play(op, now) =>
      after == before.(personal := after.personal) && after.personal == PlaybackRuns.Operate(before.personal, op, now).0
  }

  lemma WritesExactly(sort: Sort, info: Info, w: Write, order: seq<ProviderId>)
    requires WriteInfo(sort, info, w, order).Ok?
    ensures Wrote(info, WriteInfo(sort, info, w, order).value, w)
    ensures w.WriteFields? ==>
              FieldImport.ImportFields(sort, info.columns, w.fields, w.origin, order) == Ok(WriteInfo(sort, info, w, order).value.columns)
  {
    hide FieldImport.ImportFields, PlaybackRuns.Operate;
    match w {
      case FetchSucceeded(k, time, empty, completeness) =>
        NewestRows.SuccessIsRecorded(NewestRows.At(info.fetches, k), time, empty, completeness);
      case FetchFailed(k, at, error) => NewestRows.FailureIsRecorded(NewestRows.At(info.fetches, k), at, error);
      case _ =>
    }
  }

  /** What is kept after a sequence of writes; a refused one changes nothing. */
  function WriteAll(sort: Sort, info: Info, writes: seq<Write>, order: seq<ProviderId>): Info
    decreases |writes|
  {
    if writes == [] then info
    else WriteAll(sort, match WriteInfo(sort, info, writes[0], order) case Ok(next) => next case Err(_) => info, writes[1..], order)
  }

  /** A library member keeps the time of its first addition over everything written until it is removed. */
  lemma {:induction false} AdditionLasts(sort: Sort, info: Info, writes: seq<Write>, order: seq<ProviderId>)
    requires InfoOk(LevelOf(sort), info) && info.personal.added.Some?
    requires forall i :: 0 <= i < |writes| ==> !(writes[i].SetMembership? && !writes[i].saved)
    ensures WriteAll(sort, info, writes, order).personal.added == info.personal.added
    decreases |writes|
  {
    hide InfoOk, PlaybackRuns.Operate;
    if writes != [] {
      var r := WriteInfo(sort, info, writes[0], order);
      if r.Ok? {
        WritesExactly(sort, info, writes[0], order);
        WriteKeepsInfo(sort, info, writes[0], order);
        PersonalIsConsistent(sort, info);
        if writes[0].Play? {
          PlaybackRuns.OperateConsistent(info.personal, writes[0].op, writes[0].now);
        }
        hide WriteInfo;
        AdditionLasts(sort, r.value, writes[1..], order);
      } else {
        AdditionLasts(sort, info, writes[1..], order);
      }
    }
  }

  lemma PersonalIsConsistent(sort: Sort, info: Info)
    requires InfoOk(LevelOf(sort), info)
    ensures PersonalState.Consistent(info.personal)
  {
  }

  lemma WriteKeepsKind(sort: Sort, info: Info, w: Write, order: seq<ProviderId>)
    requires OwnColumns(sort, info) && WriteInfo(sort, info, w, order).Ok?
    ensures OwnColumns(sort, WriteInfo(sort, info, w, order).value)
  {
    hide Barred;
    if w.WriteFields? {
      FieldImport.ImportKeepsKind(sort, info.columns, w.fields, w.origin, order);
    }
  }

  /** A run that has ended stays out, whatever is written. */
  lemma WriteKeepsFence(sort: Sort, info: Info, w: Write, order: seq<ProviderId>, run: nat)
    requires InfoOk(LevelOf(sort), info) && WriteInfo(sort, info, w, order).Ok? && run != 0
    requires PlaybackRuns.Fenced(info.personal, run)
    ensures PlaybackRuns.Fenced(WriteInfo(sort, info, w, order).value.personal, run)
  {
    if w.Play? {
      PlaybackRuns.ChangeKeepsFence(info.personal, PlaybackRuns.Do(w.op, w.now), run);
    }
  }
}
