/** The apps service. Every change is a read under one lock followed by a transaction under a
    second one; between the two, any other call may run. */
module AppsService {
  import opened Prelude
  import opened Json
  import opened AppsModel
  import opened AppsTables
  import opened AppsStore
  import Slug

  const DEFAULT_WORKSPACE_ID := "local"

  /** `metadata` lists a map's entries, so no key comes twice. */
  datatype AppUpdate = AppUpdate(
    name: Option<string>, description: Option<string>, metadata: seq<(string, Value)>, actor: Option<string>)

  datatype Request =
    | ToPublish(actor: string)
    | ToUnpublish(actor: string)
    | ToArchive(actor: string)
    | ToUnarchive(actor: string)
    | ToUpdate(patch: AppUpdate)

  /** What a call decides from the row it read: an immediate answer, or a transaction to run. */
  datatype Decision =
    | Answer(app: App)
    | Refuse(error: AppsError)
    | Go(plan: Plan)

  datatype Plan = Plan(appId: Uuid, expected: Option<AppStatus>, mutations: seq<Mutation>, actor: string)

  predicate DistinctKeys(entries: seq<(string, Value)>) {
    forall i, j :: 0 <= i < j < |entries| ==> entries[i].0 != entries[j].0
  }

  // ---- Update: the smallest patch ------------------------------------------------------------

  function DiffEntry(app: App, entry: (string, Value)): seq<Mutation> {
    if entry.1.Null? then if entry.0 in app.metadata then [RemoveMetadata(entry.0)] else []
    else if Lookup(app.metadata, entry.0) != Some(entry.1) then [SetMetadata(entry.0, entry.1)]
    else []
  }

  function EntryBy(app: App): ((string, Value)) -> seq<Mutation> {
    (entry: (string, Value)) => DiffEntry(app, entry)
  }

  function DiffEntries(app: App, entries: seq<(string, Value)>): seq<Mutation> { Collect(EntryBy(app), entries) }

  function DiffFields(app: App, patch: AppUpdate): seq<Mutation> {
    (if patch.name.Some? && patch.name.value != app.name then [Rename(patch.name.value)] else [])
    + (if patch.description.Some? && patch.description.value != app.description
       then [UpdateDescription(patch.description.value)] else [])
  }

  function Diff(app: App, patch: AppUpdate): seq<Mutation> {
    DiffFields(app, patch) + DiffEntries(app, patch.metadata)
  }

  method DiffMetadata(app: App, entries: seq<(string, Value)>) returns (mutations: seq<Mutation>)
    ensures mutations == DiffEntries(app, entries)
  {
    mutations := [];
    var i := 0;
    while i < |entries|
      invariant 0 <= i <= |entries|
      invariant mutations == DiffEntries(app, entries[..i])
    {
      var (key, value) := entries[i];
      assert entries[..i + 1][..i] == entries[..i];
      if value.Null? {
        if key in app.metadata {
          mutations := mutations + [RemoveMetadata(key)];
        }
      } else if Lookup(app.metadata, key) != Some(value) {
        mutations := mutations + [SetMetadata(key, value)];
      }
      i := i + 1;
    }
    assert entries[..i] == entries;
  }

  method DiffPatch(app: App, patch: AppUpdate) returns (r: Result<seq<Mutation>, AppsError>)
    ensures r == if patch.name.Some? && IsBlank(patch.name.value) then Err(InvalidArgument) else Ok(Diff(app, patch))
  {
    var mutations: seq<Mutation> := [];
    if patch.name.Some? {
      if IsBlank(patch.name.value) {
        return Err(InvalidArgument);
      }
      if patch.name.value != app.name {
        mutations := mutations + [Rename(patch.name.value)];
      }
    }
    if patch.description.Some? && patch.description.value != app.description {
      mutations := mutations + [UpdateDescription(patch.description.value)];
    }
    assert mutations == DiffFields(app, patch);
    var more := DiffMetadata(app, patch.metadata);
    mutations := mutations + more;
    return Ok(mutations);
  }

  /** What the patch asks a metadata key to become. */
  function Wanted(entries: seq<(string, Value)>, key: string, before: Option<Value>): Option<Value> {
    if entries == [] then before
    else
      var last := entries[|entries| - 1];
      if last.0 == key then (if last.1.Null? then None else Some(last.1))
      else Wanted(entries[..|entries| - 1], key, before)
  }

  lemma {:induction false} WantedUnmentioned(entries: seq<(string, Value)>, key: string, before: Option<Value>)
    requires forall i :: 0 <= i < |entries| ==> entries[i].0 != key
    ensures Wanted(entries, key, before) == before
    decreases |entries|
  {
    if entries != [] {
      WantedUnmentioned(entries[..|entries| - 1], key, before);
    }
  }

  ghost predicate IsPatched(app: App, entries: seq<(string, Value)>, after: App) {
    && after == app.(metadata := after.metadata)
    && (forall key :: Lookup(after.metadata, key) == Wanted(entries, key, Lookup(app.metadata, key)))
  }

  lemma MutateAllSnoc(app: App, ms: seq<Mutation>, m: Mutation, now: Time)
    ensures MutateAll(app, ms + [m], now) == MutateRow(MutateAll(app, ms, now), m, now)
  {
    assert (ms + [m])[..|ms|] == ms;
  }

  lemma {:induction false} MutateAllAppend(app: App, a: seq<Mutation>, b: seq<Mutation>, now: Time)
    ensures MutateAll(app, a + b, now) == MutateAll(MutateAll(app, a, now), b, now)
    decreases |b|
  {
    if b == [] {
      assert a + b == a;
    } else {
      var n := |b| - 1;
      assert a + b == (a + b[..n]) + [b[n]];
      MutateAllSnoc(app, a + b[..n], b[n], now);
      MutateAllAppend(app, a, b[..n], now);
    }
  }

  /** One entry, applied to a row whose value for that key is still the original one. */
  lemma EntryApplied(orig: App, row: App, entry: (string, Value), now: Time)
    requires Lookup(row.metadata, entry.0) == Lookup(orig.metadata, entry.0)
    ensures var after := MutateAll(row, DiffEntry(orig, entry), now);
      && after == row.(metadata := after.metadata)
      && (forall key :: Lookup(after.metadata, key)
            == if key == entry.0 then (if entry.1.Null? then None else Some(entry.1)) else Lookup(row.metadata, key))
  {
    if |DiffEntry(orig, entry)| == 1 {
      assert DiffEntry(orig, entry)[..0] == [];
    }
  }

  lemma {:induction false} EntriesApplied(orig: App, row: App, entries: seq<(string, Value)>, now: Time)
    requires DistinctKeys(entries) && row.metadata == orig.metadata
    ensures IsPatched(row, entries, MutateAll(row, DiffEntries(orig, entries), now))
    decreases |entries|
  {
    if entries != [] {
      var n := |entries| - 1;
      var before := MutateAll(row, DiffEntries(orig, entries[..n]), now);
      EntriesApplied(orig, row, entries[..n], now);
      WantedUnmentioned(entries[..n], entries[n].0, Lookup(row.metadata, entries[n].0));
      hide DiffEntry, MutateAll, Collect;
      EntryApplied(orig, before, entries[n], now);
      MutateAllAppend(row, DiffEntries(orig, entries[..n]), DiffEntry(orig, entries[n]), now);
      CollectStep(EntryBy(orig), entries, n);
      assert entries[..n + 1] == entries;
      EntryPatched(row, entries, before, MutateAll(before, DiffEntry(orig, entries[n]), now));
    }
  }

  lemma EntryPatched(row: App, entries: seq<(string, Value)>, before: App, after: App)
    requires entries != [] && IsPatched(row, entries[..|entries| - 1], before)
    requires after == before.(metadata := after.metadata)
    requires var entry := entries[|entries| - 1];
      forall key :: Lookup(after.metadata, key)
        == if key == entry.0 then (if entry.1.Null? then None else Some(entry.1)) else Lookup(before.metadata, key)
    ensures IsPatched(row, entries, after)
  {
    hide Lookup;
  }

  function Renewed(app: App, patch: AppUpdate): App {
    app.(name := if patch.name.Some? then patch.name.value else app.name,
         description := if patch.description.Some? then patch.description.value else app.description)
  }

  lemma FieldsApplied(app: App, patch: AppUpdate, now: Time)
    ensures MutateAll(app, DiffFields(app, patch), now) == Renewed(app, patch)
  {
    var a := if patch.name.Some? && patch.name.value != app.name then [Rename(patch.name.value)] else [];
    var b := if patch.description.Some? && patch.description.value != app.description
             then [UpdateDescription(patch.description.value)] else [];
    MutateAllAppend(app, a, b, now);
    assert |a| == 1 ==> a[..0] == [];
    assert |b| == 1 ==> b[..0] == [];
  }

  /** Applying the diff gives exactly the patched row. */
  lemma DiffApplies(app: App, patch: AppUpdate, now: Time)
    requires DistinctKeys(patch.metadata)
    ensures IsPatched(Renewed(app, patch), patch.metadata, MutateAll(app, Diff(app, patch), now))
  {
    FieldsApplied(app, patch, now);
    EntriesApplied(app, Renewed(app, patch), patch.metadata, now);
    MutateAllAppend(app, DiffFields(app, patch), DiffEntries(app, patch.metadata), now);
  }

  lemma {:induction false} EntriesMinimal(app: App, entries: seq<(string, Value)>)
    requires DistinctKeys(entries)
    requires forall key :: Wanted(entries, key, Lookup(app.metadata, key)) == Lookup(app.metadata, key)
    ensures DiffEntries(app, entries) == []
    decreases |entries|
  {
    if entries != [] {
      var n := |entries| - 1;
      var last := entries[n];
      assert Wanted(entries, last.0, Lookup(app.metadata, last.0)) == Lookup(app.metadata, last.0);
      forall key ensures Wanted(entries[..n], key, Lookup(app.metadata, key)) == Lookup(app.metadata, key) {
        if key == last.0 {
          WantedUnmentioned(entries[..n], key, Lookup(app.metadata, key));
        } else {
          assert Wanted(entries, key, Lookup(app.metadata, key)) == Lookup(app.metadata, key);
        }
      }
      EntriesMinimal(app, entries[..n]);
    }
  }

  /** The diff is empty exactly when the patch asks for what is already there. */
  lemma DiffEmptyIffNothingAsked(app: App, patch: AppUpdate)
    requires DistinctKeys(patch.metadata)
    ensures Diff(app, patch) == []
       <==> Renewed(app, patch) == app
            && forall key :: Wanted(patch.metadata, key, Lookup(app.metadata, key)) == Lookup(app.metadata, key)
  {
    if Diff(app, patch) == [] {
      DiffApplies(app, patch, 0);
    }
    if Renewed(app, patch) == app
       && forall key :: Wanted(patch.metadata, key, Lookup(app.metadata, key)) == Lookup(app.metadata, key) {
      EntriesMinimal(app, patch.metadata);
    }
  }

  // ---- Decisions and the lifecycle -------------------------------------------------------------

  predicate IsTransition(m: Mutation) { m.Publish? || m.Unpublish? || m.Archive? || m.Unarchive? }

  predicate IsPlain(ms: seq<Mutation>) { forall m :: m in ms ==> !IsTransition(m) }

  /** The transactions the service runs: never an empty one, and a status change only from the
      status the lifecycle allows it from. */
  predicate PlanOk(plan: Plan) {
    || plan == Plan(plan.appId, Some(Draft), [Publish], plan.actor)
    || plan == Plan(plan.appId, Some(Live), [Unpublish], plan.actor)
    || plan == Plan(plan.appId, None, [Archive], plan.actor)
    || plan == Plan(plan.appId, Some(Archived), [Unarchive], plan.actor)
    || (plan.expected == None && plan.mutations != [] && IsPlain(plan.mutations))
  }

  function ActorOf(patch: AppUpdate): string {
    if patch.actor.Some? then patch.actor.value else "operator"
  }

  /** What a call decides from the row it read. */
  function DecisionFor(app: App, request: Request): Decision {
    match request
    case ToPublish(actor) =>
      if app.status == Live then Answer(app)
      else if app.status == Draft then Go(Plan(app.id, Some(Draft), [Publish], actor))
      else Refuse(InvalidTransition(app.status))
    case ToUnpublish(actor) =>
      if app.status == Draft then Answer(app)
      else if app.status == Live then Go(Plan(app.id, Some(Live), [Unpublish], actor))
      else Refuse(InvalidTransition(app.status))
    case ToArchive(actor) =>
      if app.status == Archived then Answer(app) else Go(Plan(app.id, None, [Archive], actor))
    case ToUnarchive(actor) =>
      if app.status == Archived then Go(Plan(app.id, Some(Archived), [Unarchive], actor))
      else Refuse(InvalidTransition(app.status))
    case ToUpdate(patch) =>
      if patch.name.Some? && IsBlank(patch.name.value) then Refuse(InvalidArgument)
      else if Diff(app, patch) == [] then Answer(app)
      else Go(Plan(app.id, None, Diff(app, patch), ActorOf(patch)))
  }

  /** The same, in the order the source goes about it. */
  method Decide(app: App, request: Request) returns (r: Decision)
    ensures r == DecisionFor(app, request)
  {
    match request
    case ToPublish(actor) =>
      if app.status == Live {
        return Answer(app);
      }
      if app.status != Draft {
        return Refuse(InvalidTransition(app.status));
      }
      return Go(Plan(app.id, Some(Draft), [Publish], actor));
    case ToUnpublish(actor) =>
      if app.status == Draft {
        return Answer(app);
      }
      if app.status != Live {
        return Refuse(InvalidTransition(app.status));
      }
      return Go(Plan(app.id, Some(Live), [Unpublish], actor));
    case ToArchive(actor) =>
      if app.status == Archived {
        return Answer(app);
      }
      return Go(Plan(app.id, None, [Archive], actor));
    case ToUnarchive(actor) =>
      if app.status != Archived {
        return Refuse(InvalidTransition(app.status));
      }
      return Go(Plan(app.id, Some(Archived), [Unarchive], actor));
    case ToUpdate(patch) =>
      var actor := ActorOf(patch);
      var diff := DiffPatch(app, patch);
      if diff.Err? {
        return Refuse(diff.error);
      }
      if diff.value == [] {
        return Answer(app);
      }
      return Go(Plan(app.id, None, diff.value, actor));
  }

  /** The status a request asks for; an update asks for none. */
  function Target(request: Request): Option<AppStatus> {
    match request
    case ToPublish(_) => Some(Live)
    case ToUnpublish(_) => Some(Draft)
    case ToArchive(_) => Some(Archived)
    case ToUnarchive(_) => Some(Draft)
    case ToUpdate(_) => None
  }

  lemma {:induction false} PlainKeepsStatus(app: App, ms: seq<Mutation>, now: Time)
    requires IsPlain(ms)
    ensures MutateAll(app, ms, now).status == app.status
    decreases |ms|
  {
    if ms != [] {
      assert !IsTransition(ms[|ms| - 1]);
      PlainKeepsStatus(app, ms[..|ms| - 1], now);
    }
  }

  /** The event a status request asks for. */
  function Asks(request: Request): EventKind
    requires !request.ToUpdate?
  {
    match request
    case ToPublish(_) => PublishedEvent
    case ToUnpublish(_) => UnpublishedEvent
    case ToArchive(_) => ArchivedEvent
    case ToUnarchive(_) => UnarchivedEvent
  }

  /** The row after a change of status: only the status and its stamp differ. */
  predicate Moved(before: App, kind: EventKind, now: Time, after: App) {
    after == before.(
      status := NextStatus(before.status, kind),
      publishedAt := if kind.PublishedEvent? then Some(now) else before.publishedAt,
      archivedAt :=
        if kind.ArchivedEvent? then Some(now) else if kind.UnarchivedEvent? then None else before.archivedAt)
  }

  /** A status request is carried out exactly if the lifecycle allows its event and the event would
      change anything. It is refused, with the status in its way, exactly if the lifecycle does not
      allow the event, unless the row already is what was asked for; only unarchiving insists. */
  lemma StatusDecision(app: App, request: Request, now: Time)
    requires !request.ToUpdate?
    ensures var d, kind := DecisionFor(app, request), Asks(request);
      && (d.Go? <==> LegalFrom(app.status, kind) && NextStatus(app.status, kind) != app.status)
      && (d.Refuse? <==> !LegalFrom(app.status, kind) && (Target(request) != Some(app.status) || request.ToUnarchive?))
      && (d.Refuse? ==> d.error == InvalidTransition(app.status))
      && (d.Answer? ==> d.app == app && Target(request) == Some(app.status))
      && (d.Go? ==>
           && d.plan.appId == app.id && d.plan.actor == request.actor
           && (d.plan.expected.Some? ==> d.plan.expected.value == app.status)
           && Moved(app, kind, now, MutateAll(app, d.plan.mutations, now)))
  {
    var d := DecisionFor(app, request);
    if d.Go? {
      assert d.plan.mutations[..0] == [];
    }
  }

  /** An update is refused exactly for a blank name, answered at once exactly if it asks for nothing
      new, and otherwise carried out by a plan that turns the row that was read into the patched row,
      whatever its status, in the name of whoever asked. */
  lemma UpdateDecision(app: App, patch: AppUpdate, now: Time)
    requires DistinctKeys(patch.metadata)
    ensures var d := DecisionFor(app, ToUpdate(patch));
      var blank := patch.name.Some? && IsBlank(patch.name.value);
      && (d.Refuse? <==> blank) && (d.Refuse? ==> d.error == InvalidArgument)
      && (d.Answer? <==> !blank && IsPatched(Renewed(app, patch), patch.metadata, app))
      && (d.Answer? ==> d.app == app)
      && (d.Go? ==>
           && d.plan.appId == app.id && d.plan.expected == None
           && (if patch.actor.Some? then patch.actor == Some(d.plan.actor) else d.plan.actor == "operator")
           && IsPatched(Renewed(app, patch), patch.metadata, MutateAll(app, d.plan.mutations, now)))
  {
    DiffApplies(app, patch, now);
    DiffEmptyIffNothingAsked(app, patch);
    PatchedAlready(app, patch);
    hide Diff, IsPatched, Wanted, DistinctKeys;
  }

  lemma PatchedAlready(app: App, patch: AppUpdate)
    ensures IsPatched(Renewed(app, patch), patch.metadata, app) <==>
      && Renewed(app, patch) == app
      && forall key :: Wanted(patch.metadata, key, Lookup(app.metadata, key)) == Lookup(app.metadata, key)
  {
  }

  /** Every decision is one the lifecycle allows; it is about the row that was read; and whoever is
      told it worked has the status asked for, whether the row already had it or the transaction,
      on whatever row it finds by then, gives it. */
  lemma DecisionsAreLegal(app: App, request: Request, found: App, now: Time)
    ensures var d := DecisionFor(app, request);
      && (d.Go? ==> PlanOk(d.plan) && d.plan.appId == app.id)
      && (d.Answer? ==> d.app == app && (Target(request).Some? ==> app.status == Target(request).value))
      && (d.Go? ==> ApplyBatch(found, d.plan.mutations, now).status
                      == (if Target(request).Some? then Target(request).value else found.status))
  {
    var d := DecisionFor(app, request);
    if d.Go? {
      match request
      case ToUpdate(patch) =>
        DiffPlain(app, patch);
        PlainKeepsStatus(found, d.plan.mutations, now);
      case _ =>
        assert d.plan.mutations[..0] == [];
    }
  }

  lemma {:induction false} EntriesPlain(app: App, entries: seq<(string, Value)>)
    ensures IsPlain(DiffEntries(app, entries))
    decreases |entries|
  {
    if entries != [] {
      EntriesPlain(app, entries[..|entries| - 1]);
    }
  }

  lemma DiffPlain(app: App, patch: AppUpdate)
    ensures IsPlain(Diff(app, patch))
  {
    EntriesPlain(app, patch.metadata);
  }

  lemma PathNext(es: seq<AppEvent>, e: AppEvent)
    requires LifecyclePath(es) && LegalFrom(StatusAfter(es), e.kind)
    ensures LifecyclePath(es + [e]) && StatusAfter(es + [e]) == NextStatus(StatusAfter(es), e.kind)
  {
    assert (es + [e])[..|es|] == es;
  }

  lemma {:induction false} PlainKeepsPath(es: seq<AppEvent>, app: App, ms: seq<Mutation>, start: int, actor: string,
                                          now: Time)
    requires LifecyclePath(es) && IsPlain(ms)
    ensures LifecyclePath(es + BatchEvents(app, ms, start, actor, now))
    ensures StatusAfter(es + BatchEvents(app, ms, start, actor, now)) == StatusAfter(es)
    decreases |ms|
  {
    if ms == [] {
      assert es + BatchEvents(app, ms, start, actor, now) == es;
    } else {
      hide LifecyclePath, StatusAfter;
      var n := |ms| - 1;
      var rows := BatchEvents(app, ms, start, actor, now);
      PlainKeepsPath(es, app, ms[..n], start, actor, now);
      assert !IsTransition(ms[n]);
      PathNext(es + BatchEvents(app, ms[..n], start, actor, now), rows[n]);
      assert es + rows == es + BatchEvents(app, ms[..n], start, actor, now) + [rows[n]];
    }
  }

  lemma TransitionKeepsPath(es: seq<AppEvent>, app: App, m: Mutation, start: int, actor: string, now: Time)
    requires LifecyclePath(es) && LegalFrom(StatusAfter(es), EventFor(app, m))
    ensures LifecyclePath(es + BatchEvents(app, [m], start, actor, now))
  {
    var rows := BatchEvents(app, [m], start, actor, now);
    assert [m][..0] == [];
    assert rows == [rows[0]];
    PathNext(es, rows[0]);
  }

  /** Whatever ran since the plan was made, the transaction continues the lifecycle, because the
      store checks the expected status again. */
  lemma PlanKeepsPath(db: Database, born: map<Uuid, map<string, Value>>, plan: Plan, now: Time)
    requires Shape(db) && PlanOk(plan) && plan.appId in db.apps && plan.appId in born
    requires InStep(db, born, plan.appId) && LifecyclePath(EventsOf(db.events, plan.appId))
    requires plan.expected.None? || db.apps[plan.appId].status == plan.expected.value
    ensures LifecyclePath(EventsOf(Transacted(db, plan.appId, plan.mutations, plan.actor, now).events, plan.appId))
  {
    hide LifecyclePath, StatusAfter, FoldFrom, Shape, EventsOf, BatchEvents;
    var id, es := plan.appId, EventsOf(db.events, plan.appId);
    assert RowShape(db, id) by { ShapeOf(db, id); }
    ExtendedOwn(db, id, plan.mutations, plan.actor, now);
    PathStamps(born[id], es);
    if IsPlain(plan.mutations) {
      PlainKeepsPath(es, db.apps[id], plan.mutations, |es|, plan.actor, now);
    } else {
      TransitionKeepsPath(es, db.apps[id], plan.mutations[0], |es|, plan.actor, now);
    }
  }

  lemma ShapeOf(db: Database, id: Uuid)
    requires Shape(db) && id in db.apps
    ensures RowShape(db, id)
  {
  }

  ghost predicate AllOnPath(db: Database) {
    forall id :: id in db.apps ==> LifecyclePath(EventsOf(db.events, id))
  }

  lemma TransactedOnPath(db: Database, born: map<Uuid, map<string, Value>>, plan: Plan, now: Time)
    requires Shape(db) && AllInStep(db, born) && AllOnPath(db)
    requires PlanOk(plan) && plan.appId in db.apps
    requires plan.expected.None? || db.apps[plan.appId].status == plan.expected.value
    ensures AllOnPath(Transacted(db, plan.appId, plan.mutations, plan.actor, now))
  {
    hide LifecyclePath, InStep;
    var after := Transacted(db, plan.appId, plan.mutations, plan.actor, now);
    forall a | a in after.apps ensures LifecyclePath(EventsOf(after.events, a)) {
      if a == plan.appId {
        PlanKeepsPath(db, born, plan, now);
      } else {
        ShapeOf(db, plan.appId);
        ExtendedOther(db, plan.appId, plan.mutations, plan.actor, now, a);
      }
    }
  }

  lemma PathBegins(e: AppEvent)
    requires e.kind.Created?
    ensures LifecyclePath([e])
  {
  }

  lemma InsertedOnPath(db: Database, app: App, actor: string)
    requires Insertable(db, app) && AllOnPath(db)
    ensures AllOnPath(Inserted(db, app, actor))
  {
    hide EventsOf, Shape, LifecyclePath;
    var after := Inserted(db, app, actor);
    forall a | a in after.apps ensures LifecyclePath(EventsOf(after.events, a)) {
      InsertedLogs(db, app, actor, a);
      PathBegins(CreatedRow(app, actor));
      if a != app.id {
        assert EventsOf(after.events, a) == EventsOf(db.events, a);
      } else {
        assert EventsOf(after.events, a) == [CreatedRow(app, actor)];
      }
    }
  }

  /** How a decision is carried out in the first half of a call. */
  ghost predicate Carried(d: Decision, r: Option<Result<App, AppsError>>, before: map<nat, Plan>,
                          after: map<nat, Plan>, ticket: nat)
  {
    match d
    case Answer(app) => r == Some(Ok(app)) && after == before
    case Refuse(error) => r == Some(Err(error)) && after == before
    case Go(plan) => r == None && after == before[ticket := plan]
  }

  predicate IsLogged(db: Database, e: AppEvent) {
    var es := EventsOf(db.events, e.appId);
    0 <= e.seqNo < |es| && es[e.seqNo] == e
  }

  /** Events on their way to the bus are in their logs. */
  ghost predicate Announced(db: Database, loaded: map<nat, AppEvent>, published: seq<AppEvent>) {
    && (forall t :: t in loaded ==> IsLogged(db, loaded[t]))
    && (forall i :: 0 <= i < |published| ==> IsLogged(db, published[i]))
  }

  lemma AnnouncedGrows(db: Database, after: Database, loaded: map<nat, AppEvent>, published: seq<AppEvent>)
    requires Grows(db, after) && Announced(db, loaded, published)
    ensures Announced(after, loaded, published)
  {
    hide EventsOf;
    forall t | t in loaded ensures IsLogged(after, loaded[t]) {
      LoggedStays(db, after, loaded[t]);
    }
    forall i | 0 <= i < |published| ensures IsLogged(after, published[i]) {
      LoggedStays(db, after, published[i]);
    }
  }

  lemma LoggedStays(db: Database, after: Database, e: AppEvent)
    requires Grows(db, after) && IsLogged(db, e)
    ensures IsLogged(after, e)
  {
    hide EventsOf;
    assert EventsOf(db.events, e.appId) <= EventsOf(after.events, e.appId);
  }

  lemma LastIsLogged(db: Database, id: Uuid)
    requires Shape(db) && id in db.apps
    ensures var es := EventsOf(db.events, id); es != [] && IsLogged(db, es[|es| - 1])
  {
    ShapeOf(db, id);
    LastRow(db, id);
  }

  lemma LastRow(db: Database, id: Uuid)
    requires id in db.apps && RowShape(db, id)
    ensures var es := EventsOf(db.events, id);
      es != [] && es[|es| - 1].appId == id && es[|es| - 1].seqNo == |es| - 1
  {
    OwnEvents(db.events, id);
    hide EventsOf;
    var es := EventsOf(db.events, id);
    assert es[|es| - 1] in es;
  }

  lemma {:induction false} OwnEvents(table: seq<AppEvent>, id: Uuid)
    ensures forall e :: e in EventsOf(table, id) ==> e.appId == id
    decreases |table|
  {
    if table != [] {
      OwnEvents(table[..|table| - 1], id);
    }
  }

  datatype NewApp = NewApp(
    name: string, description: string, slug: Option<string>, workspaceId: Option<string>,
    metadata: map<string, Value>)

  class AppsService {
    const store: AppsStore
    /** Calls between their read and their transaction. */
    var pending: map<nat, Plan>
    /** Apps with a call between its transaction and its broadcast, once for each call. */
    var unannounced: multiset<Uuid>
    /** Events loaded for the broadcast of a call, but not yet on the bus. */
    var loaded: map<nat, AppEvent>
    /** What has been broadcast. */
    var published: seq<AppEvent>

    ghost predicate Valid()
      reads this, store
    {
      && store.Valid() && store.Agrees() && AllOnPath(store.db)
      && (forall t :: t in pending ==> PlanOk(pending[t]))
      && (forall id :: id in unannounced ==> id in store.db.apps)
      && Announced(store.db, loaded, published)
    }

    constructor (store: AppsStore)
      requires store.Valid() && store.Agrees() && AllOnPath(store.db)
      ensures Valid() && this.store == store && pending == map[]
      ensures unannounced == multiset{} && loaded == map[] && published == []
    {
      this.store := store;
      pending, unannounced, loaded, published := map[], multiset{}, map[], [];
    }

    /** In every reachable state: the stamps match the status of every row. */
    lemma Stamps(id: Uuid)
      requires Valid() && id in store.db.apps
      ensures StampsOk(store.db.apps[id])
      ensures store.db.apps[id].status == StatusAfter(EventsOf(store.db.events, id))
      ensures LifecyclePath(EventsOf(store.db.events, id)) && Numbered(EventsOf(store.db.events, id))
    {
      ShapeOf(store.db, id);
      assert InStep(store.db, store.born, id);
      PathStamps(store.born[id], EventsOf(store.db.events, id));
    }

    /** And the log folds to the row, but for untouched initial metadata. */
    lemma Refinement(id: Uuid)
      requires Valid() && id in store.db.apps
      ensures var es := EventsOf(store.db.events, id);
        && es != [] && FoldFrom(map[], es).Some?
        && AgreeButInitial(store.born[id], es[1..], store.db.apps[id], FoldFrom(map[], es).value)
        && (store.born[id] == map[] ==> FoldFrom(map[], es) == Some(store.db.apps[id]))
    {
      hide AgreeButInitial, FoldFrom;
      ShapeOf(store.db, id);
      assert InStep(store.db, store.born, id);
      RowAgainstFold(store.born[id], EventsOf(store.db.events, id), store.db.apps[id]);
    }

    /** Every version the service can be asked for is the row as that event left it, whatever has
        been done since: `history` only grows, and so does every log. */
    lemma Versions(id: Uuid, k: int)
      requires Valid() && id in store.db.apps
      requires 0 <= k < |EventsOf(store.db.events, id)| && k < 0x8000_0000_0000_0000
      ensures |store.history[id]| == |EventsOf(store.db.events, id)|
      ensures VersionOf(store.db.events, id, k).Some?
      ensures AgreeButInitial(store.born[id], EventsOf(store.db.events, id)[..k + 1][1..], store.history[id][k],
                              VersionOf(store.db.events, id, k).value)
      ensures store.born[id] == map[] ==> VersionOf(store.db.events, id, k) == Some(store.history[id][k])
    {
      hide AgreeButInitial, FoldFrom, VersionOf, Shape;
      VersionIsHistory(store.db, store.born, store.history, id, k);
    }

    method Create(newApp: NewApp, actor: string, id: Uuid, now: Time, fault: Fault)
      returns (r: Result<App, AppsError>)
      requires Valid()
      modifies `unannounced, store
      ensures Valid() && pending == old(pending) && loaded == old(loaded) && published == old(published)
      ensures unannounced == old(unannounced) + (if r.Ok? then multiset{id} else multiset{})
      ensures r.Err? ==> store.db == old(store.db)
      ensures Grows(old(store.db), store.db) && HistoryGrows(old(store.history), store.history)
      ensures var slug := Slug.SlugOf(if newApp.slug.Some? then newApp.slug.value else newApp.name);
        var workspaceId := if newApp.workspaceId.Some? then newApp.workspaceId.value else DEFAULT_WORKSPACE_ID;
        && (IsBlank(newApp.name) || slug == "" <==> r == Err(InvalidArgument))
        && (fault == Healthy && !IsBlank(newApp.name) && slug != "" ==>
             (r.Err? <==>
               || id in old(store.db).apps
               || exists a :: a in old(store.db).apps && Matches(BySlug(workspaceId, slug), old(store.db).apps[a])))
        && (r.Ok? ==>
             && r.value == App(id, workspaceId, slug, newApp.name, newApp.description, Draft, newApp.metadata, now, now,
                               None, None)
             && store.db == Inserted(old(store.db), r.value, actor))
    {
      hide Shape, AllInStep, AllReconstruct, AllRemembered, AllOnPath, Grows, Announced, Insertable;
      AppendedGrows(store.db, store.db);
      if IsBlank(newApp.name) {
        return Err(InvalidArgument);
      }
      var workspaceId := if newApp.workspaceId.Some? then newApp.workspaceId.value else DEFAULT_WORKSPACE_ID;
      var slug := Slug.Slugify(if newApp.slug.Some? then newApp.slug.value else newApp.name);
      if slug == "" {
        return Err(InvalidArgument);
      }
      ghost var before := store.db;
      r := store.Insert(workspaceId, slug, newApp.name, newApp.description, newApp.metadata, actor, id, now, fault);
      if r.Ok? {
        InsertedOnPath(before, r.value, actor);
        AnnouncedGrows(before, store.db, loaded, published);
        unannounced := unannounced + multiset{id};
      }
    }

    /** First half of a call: read the row, decide, and park the transaction if there is one. */
    method Begin(ticket: nat, ref: AppRef, request: Request) returns (r: Option<Result<App, AppsError>>)
      requires Valid() && ticket !in pending
      modifies `pending
      ensures Valid()
      ensures (forall id :: id in store.db.apps ==> !Matches(ref, store.db.apps[id])) ==>
        r == Some(Err(NotFound)) && pending == old(pending)
      ensures forall id :: id in store.db.apps && Matches(ref, store.db.apps[id]) ==>
        Carried(DecisionFor(store.db.apps[id], request), r, old(pending), pending, ticket)
    {
      hide Shape, AllInStep, AllReconstruct, AllRemembered, AllOnPath, PlanOk, DecisionFor;
      var found := store.Get(ref);
      if found.None? {
        return Some(Err(NotFound));
      }
      var decision := Decide(found.value, request);
      DecisionsAreLegal(found.value, request, found.value, 0);
      match decision
      case Answer(app) => return Some(Ok(app));
      case Refuse(error) => return Some(Err(error));
      case Go(plan) =>
        pending := pending[ticket := plan];
        return None;
    }

    /** Second half: the transaction, on whatever the tables hold by now. */
    method Finish(ticket: nat, now: Time, fault: Fault) returns (r: Result<App, AppsError>)
      requires Valid() && ticket in pending
      modifies `pending, `unannounced, store
      ensures Valid() && pending == old(pending) - {ticket} && loaded == old(loaded) && published == old(published)
      ensures unannounced == old(unannounced) + (if r.Ok? then multiset{old(pending)[ticket].appId} else multiset{})
      ensures r.Err? ==> store.db == old(store.db)
      ensures Grows(old(store.db), store.db) && HistoryGrows(old(store.history), store.history)
      ensures var plan := old(pending)[ticket];
        fault == Healthy ==>
          (r.Ok? <==>
            && plan.appId in old(store.db).apps
            && (plan.expected.None? || old(store.db).apps[plan.appId].status == plan.expected.value))
      ensures var plan := old(pending)[ticket];
        r.Ok? ==>
          && plan.appId in old(store.db).apps
          && (plan.expected.Some? ==> old(store.db).apps[plan.appId].status == plan.expected.value)
          && store.db == Transacted(old(store.db), plan.appId, plan.mutations, plan.actor, now)
          && r.value == store.db.apps[plan.appId]
    {
      hide Shape, AllInStep, AllReconstruct, AllRemembered, AllOnPath, ApplyBatch, Extended, Grows, HistoryGrows;
      hide Announced, LifecyclePath, RowsAfter, EventsOf, IsPlain;
      var plan := pending[ticket];
      pending := pending - {ticket};
      ghost var before, born := store.db, store.born;
      assert PlanOk(plan) && plan.mutations != [];
      r := store.ApplyMutations(plan.appId, plan.expected, plan.mutations, plan.actor, now, fault);
      if r.Ok? {
        TransactedOnPath(before, born, plan, now);
        AnnouncedGrows(before, store.db, loaded, published);
        unannounced := unannounced + multiset{plan.appId};
      }
    }

    /** After its transaction a successful call loads the last event of its app, whoever has written
        that by now; a log that cannot be read is not announced. */
    method LoadLastEvent(ticket: nat, id: Uuid, readable: bool)
      requires Valid() && id in unannounced && ticket !in loaded
      modifies `unannounced, `loaded
      ensures Valid() && unannounced == old(unannounced) - multiset{id}
      ensures readable ==>
        var es := EventsOf(store.db.events, id);
        es != [] && loaded == old(loaded)[ticket := es[|es| - 1]]
      ensures !readable ==> loaded == old(loaded)
    {
      hide Shape, AllInStep, AllReconstruct, AllRemembered, AllOnPath, EventsOf;
      unannounced := unannounced - multiset{id};
      if readable {
        LastIsLogged(store.db, id);
        var events := EventsOf(store.db.events, id);
        loaded := loaded[ticket := events[|events| - 1]];
      }
    }

    /** ... and puts it on the bus. */
    method BroadcastLoaded(ticket: nat)
      requires Valid() && ticket in loaded
      modifies `loaded, `published
      ensures Valid() && loaded == old(loaded) - {ticket} && published == old(published) + [old(loaded)[ticket]]
    {
      hide Shape, AllInStep, AllReconstruct, AllRemembered, AllOnPath, IsLogged, PlanOk;
      published := published + [loaded[ticket]];
      loaded := loaded - {ticket};
    }

    lemma Known(ticket: nat, id: Uuid)
      requires Valid() && ticket in pending && id in unannounced
      ensures PlanOk(pending[ticket]) && Shape(store.db) && id in store.db.apps
    {
    }

    lemma StillKnown(id: Uuid)
      requires Valid() && id in unannounced
      ensures Shape(store.db) && id in store.db.apps
    {
    }

    /** Whatever has been broadcast about an app is in its log. */
    lemma Announcements(i: nat)
      requires Valid() && i < |published|
      ensures published[i] in EventsOf(store.db.events, published[i].appId)
    {
      hide EventsOf, AllOnPath;
      assert IsLogged(store.db, published[i]);
    }
  }

  /** Announcements can overtake each other: one call loads its event, another commits, loads and
      broadcasts a later one, and only then does the first broadcast. */
  method Overtaken(service: AppsService, id: Uuid, ticket: nat, now: Time) returns (r: Result<App, AppsError>)
    requires service.Valid() && service.loaded == map[] && id in service.unannounced
    requires ticket in service.pending && service.pending[ticket].appId == id
    modifies service, service.store
    ensures r.Ok? ==>
      var n := |old(service.published)|;
      && |service.published| == n + 2
      && service.published[n].appId == id == service.published[n + 1].appId
      && service.published[n].seqNo > service.published[n + 1].seqNo
  {
    hide EventsOf, Shape, Transacted, Grows, HistoryGrows, PlanOk, AppsService.Valid;
    ghost var plan, before := service.pending[ticket], service.store.db;
    service.Known(ticket, id);
    LastOf(before, id);
    service.LoadLastEvent(0, id, true);
    r := service.Finish(ticket, now, Healthy);
    if r.Ok? {
      LogIsLonger(before, plan, now);
      service.StillKnown(id);
      LastOf(service.store.db, id);
      service.LoadLastEvent(1, id, true);
      service.BroadcastLoaded(1);
      service.BroadcastLoaded(0);
    }
  }

  lemma LastOf(db: Database, id: Uuid)
    requires Shape(db) && id in db.apps
    ensures var es := EventsOf(db.events, id);
      es != [] && es[|es| - 1].appId == id && es[|es| - 1].seqNo == |es| - 1
  {
    ShapeOf(db, id);
    LastRow(db, id);
  }

  lemma LogIsLonger(db: Database, plan: Plan, now: Time)
    requires Shape(db) && plan.appId in db.apps && PlanOk(plan)
    ensures |EventsOf(Transacted(db, plan.appId, plan.mutations, plan.actor, now).events, plan.appId)|
          > |EventsOf(db.events, plan.appId)|
  {
    ShapeOf(db, plan.appId);
    ExtendedOwn(db, plan.appId, plan.mutations, plan.actor, now);
  }
}
