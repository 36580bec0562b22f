/** The apps primitive as data: rows, the event log, and how each is computed from the other. */
module AppsModel {
  import opened Prelude
  import opened Json

  type Uuid = nat
  type Time = int

  datatype AppStatus = Draft | Live | Archived     // `Live` is the source's `Published`

  datatype App = App(
    id: Uuid, workspaceId: string, slug: string, name: string, description: string, status: AppStatus,
    metadata: map<string, Value>, createdAt: Time, updatedAt: Time,
    publishedAt: Option<Time>, archivedAt: Option<Time>)

  datatype EventKind =
    | Created(slug: string, name: string, description: string)
    | Renamed(from: string, to: string)
    | DescriptionUpdated(description: string)
    | MetadataSet(key: string, value: Value)
    | MetadataRemoved(key: string)
    | PublishedEvent
    | UnpublishedEvent
    | ArchivedEvent
    | UnarchivedEvent

  datatype AppEvent = AppEvent(
    appId: Uuid, workspaceId: string, seqNo: int, actor: string, createdAt: Time, kind: EventKind)

  datatype Mutation =
    | Rename(name: string)
    | UpdateDescription(description: string)
    | SetMetadata(key: string, value: Value)
    | RemoveMetadata(key: string)
    | Publish
    | Unpublish
    | Archive
    | Unarchive

  // ---- The log folded into a row -----------------------------------------------------------

  function StartApp(init: map<string, Value>, e: AppEvent): App
    requires e.kind.Created?
  {
    App(e.appId, e.workspaceId, e.kind.slug, e.kind.name, e.kind.description, Draft, init,
        e.createdAt, e.createdAt, None, None)
  }

  function FoldStep(app: App, e: AppEvent): Option<App> {
    var app := app.(updatedAt := e.createdAt);
    match e.kind
    case Created(_, _, _) => None
    case Renamed(_, to) => Some(app.(name := to))
    case DescriptionUpdated(d) => Some(app.(description := d))
    case MetadataSet(key, value) => Some(app.(metadata := app.metadata[key := value]))
    case MetadataRemoved(key) => Some(app.(metadata := app.metadata - {key}))
    case PublishedEvent => Some(app.(status := Live, publishedAt := Some(e.createdAt)))
    case UnpublishedEvent => Some(app.(status := Draft))
    case ArchivedEvent => Some(app.(status := Archived, archivedAt := Some(e.createdAt)))
    case UnarchivedEvent => Some(app.(status := Draft, archivedAt := None))
  }

  function FoldSteps(app: App, es: seq<AppEvent>): Option<App> {
    if es == [] then Some(app)
    else match FoldSteps(app, es[..|es| - 1])
         case None => None
         case Some(before) => FoldStep(before, es[|es| - 1])
  }

  /** The fold, with `init` as the metadata of a freshly created app. The source's fold starts
      from no metadata, because `Created` does not carry any. */
  function FoldFrom(init: map<string, Value>, es: seq<AppEvent>): Option<App> {
    if es == [] || !es[0].kind.Created? then None else FoldSteps(StartApp(init, es[0]), es[1..])
  }

  lemma FoldNext(init: map<string, Value>, es: seq<AppEvent>, e: AppEvent)
    requires es != []
    ensures FoldFrom(init, es + [e]) ==
      match FoldFrom(init, es) case None => None case Some(app) => FoldStep(app, e)
  {
    assert (es + [e])[1..] == es[1..] + [e];
    assert (es[1..] + [e])[..|es[1..] + [e]| - 1] == es[1..];
  }

  // ---- Mutations applied to a row ------------------------------------------------------------

  function MutateRow(app: App, m: Mutation, now: Time): App {
    match m
    case Rename(name) => app.(name := name)
    case UpdateDescription(d) => app.(description := d)
    case SetMetadata(key, value) => app.(metadata := app.metadata[key := value])
    case RemoveMetadata(key) => app.(metadata := app.metadata - {key})
    case Publish => app.(status := Live, publishedAt := Some(now))
    case Unpublish => app.(status := Draft)
    case Archive => app.(status := Archived, archivedAt := Some(now))
    case Unarchive => app.(status := Draft, archivedAt := None)
  }

  function MutateAll(app: App, ms: seq<Mutation>, now: Time): App {
    if ms == [] then app else MutateRow(MutateAll(app, ms[..|ms| - 1], now), ms[|ms| - 1], now)
  }

  /** The row that a transaction with mutations `ms` writes. */
  function ApplyBatch(app: App, ms: seq<Mutation>, now: Time): App {
    MutateAll(app, ms, now).(updatedAt := now)
  }

  function EventFor(app: App, m: Mutation): EventKind {
    match m
    case Rename(name) => Renamed(app.name, name)
    case UpdateDescription(d) => DescriptionUpdated(d)
    case SetMetadata(key, value) => MetadataSet(key, value)
    case RemoveMetadata(key) => MetadataRemoved(key)
    case Publish => PublishedEvent
    case Unpublish => UnpublishedEvent
    case Archive => ArchivedEvent
    case Unarchive => UnarchivedEvent
  }

  /** The log rows that a transaction with mutations `ms` writes. */
  function BatchEvents(app: App, ms: seq<Mutation>, start: int, actor: string, now: Time): (r: seq<AppEvent>)
    ensures |r| == |ms|
  {
    if ms == [] then []
    else
      var before := MutateAll(app, ms[..|ms| - 1], now);
      BatchEvents(app, ms[..|ms| - 1], start, actor, now)
      + [AppEvent(app.id, app.workspaceId, start + |ms| - 1, actor, now, EventFor(before, ms[|ms| - 1]))]
  }

  lemma StepAgrees(app: App, m: Mutation, e: AppEvent, now: Time)
    requires e.kind == EventFor(app, m) && e.createdAt == now
    ensures FoldStep(app, e) == Some(MutateRow(app, m, now).(updatedAt := now))
    ensures forall t :: FoldStep(app.(updatedAt := t), e) == FoldStep(app, e)
  {
  }

  /** The two pieces of code that must not diverge: folding the log rows of a transaction on top
      of a log that agrees with the row gives the row the transaction writes. */
  lemma {:induction false} BatchAgrees(init: map<string, Value>, es: seq<AppEvent>, app: App, ms: seq<Mutation>,
                                       start: int, actor: string, now: Time)
    requires FoldFrom(init, es) == Some(app)
    ensures FoldFrom(init, es + BatchEvents(app, ms, start, actor, now))
         == Some(if ms == [] then app else ApplyBatch(app, ms, now))
    decreases |ms|
  {
    var rows := BatchEvents(app, ms, start, actor, now);
    if ms == [] {
      assert es + rows == es;
    } else {
      var n := |ms| - 1;
      var before := MutateAll(app, ms[..n], now);
      var e := rows[n];
      BatchAgrees(init, es, app, ms[..n], start, actor, now);
      assert es + rows == es + BatchEvents(app, ms[..n], start, actor, now) + [e];
      FoldNext(init, es + BatchEvents(app, ms[..n], start, actor, now), e);
      StepAgrees(before, ms[n], e, now);
      StepAgrees(before.(updatedAt := now), ms[n], e, now);
    }
  }

  lemma {:induction false} BatchPrefix(app: App, ms: seq<Mutation>, k: nat, start: int, actor: string, now: Time)
    requires k <= |ms|
    ensures BatchEvents(app, ms, start, actor, now)[..k] == BatchEvents(app, ms[..k], start, actor, now)
    decreases |ms|
  {
    if k < |ms| {
      BatchPrefix(app, ms[..|ms| - 1], k, start, actor, now);
      assert ms[..|ms| - 1][..k] == ms[..k];
    } else {
      assert ms[..k] == ms;
    }
  }

  /** A renaming event tells both names: the one the row had and the one it got. */
  lemma {:induction false} RenamesTell(app: App, ms: seq<Mutation>, start: int, actor: string, now: Time, i: nat)
    requires i < |ms|
    ensures var e := BatchEvents(app, ms, start, actor, now)[i];
      e.kind.Renamed? ==>
        && e.kind.from == MutateAll(app, ms[..i], now).name
        && e.kind.to == MutateAll(app, ms[..i + 1], now).name
    decreases |ms|
  {
    var n := |ms| - 1;
    if i < n {
      RenamesTell(app, ms[..n], start, actor, now, i);
      assert ms[..n][..i] == ms[..i] && ms[..n][..i + 1] == ms[..i + 1];
    } else {
      assert ms[..i + 1] == ms && ms[..i] == ms[..n];
    }
  }

  lemma {:induction false} MutateKeepsIdentity(app: App, ms: seq<Mutation>, now: Time)
    ensures var r := MutateAll(app, ms, now);
      r.id == app.id && r.workspaceId == app.workspaceId && r.slug == app.slug
      && r.createdAt == app.createdAt && r.updatedAt == app.updatedAt
    decreases |ms|
  {
    if ms != [] {
      MutateKeepsIdentity(app, ms[..|ms| - 1], now);
    }
  }

  // ---- Metadata given at creation ---------------------------------------------------------

  predicate Touches(e: AppEvent, key: string) {
    (e.kind.MetadataSet? && e.kind.key == key) || (e.kind.MetadataRemoved? && e.kind.key == key)
  }

  predicate Touched(es: seq<AppEvent>, key: string) {
    exists i :: 0 <= i < |es| && Touches(es[i], key)
  }

  function Lookup(m: map<string, Value>, key: string): Option<Value> {
    if key in m then Some(m[key]) else None
  }

  /** Key by key: touched, the row has what the fold has; untouched, it has the insert-time value
      and the fold has nothing. */
  predicate KeyAgrees(init: map<string, Value>, es: seq<AppEvent>, key: string, row: App, folded: App) {
    if Touched(es, key) then Lookup(row.metadata, key) == Lookup(folded.metadata, key)
    else Lookup(row.metadata, key) == Lookup(init, key) && Lookup(folded.metadata, key) == None
  }

  /** `row` agrees with `folded` on everything but the metadata keys no event has touched; those
      have their insert-time value in the row and are absent from the fold. */
  ghost predicate AgreeButInitial(init: map<string, Value>, es: seq<AppEvent>, row: App, folded: App) {
    && row == folded.(metadata := row.metadata)
    && (forall key :: KeyAgrees(init, es, key, row, folded))
  }

  lemma TouchedNext(es: seq<AppEvent>, e: AppEvent, key: string)
    ensures Touched(es + [e], key) <==> Touched(es, key) || Touches(e, key)
  {
    if Touched(es, key) {
      var i :| 0 <= i < |es| && Touches(es[i], key);
      assert Touches((es + [e])[i], key);
    }
    if Touches(e, key) {
      assert Touches((es + [e])[|es|], key);
    }
  }

  lemma KeyStep(init: map<string, Value>, es: seq<AppEvent>, key: string, row: App, folded: App, e: AppEvent)
    requires KeyAgrees(init, es, key, row, folded) && !e.kind.Created?
    ensures KeyAgrees(init, es + [e], key, FoldStep(row, e).value, FoldStep(folded, e).value)
  {
    TouchedNext(es, e, key);
  }

  lemma AgreeStep(init: map<string, Value>, es: seq<AppEvent>, row: App, folded: App, e: AppEvent)
    requires AgreeButInitial(init, es, row, folded) && !e.kind.Created?
    ensures AgreeButInitial(init, es + [e], FoldStep(row, e).value, FoldStep(folded, e).value)
  {
    forall key ensures KeyAgrees(init, es + [e], key, FoldStep(row, e).value, FoldStep(folded, e).value) {
      KeyStep(init, es, key, row, folded, e);
    }
    hide KeyAgrees;
  }

  lemma {:induction false} FoldStepsAgree(init: map<string, Value>, first: AppEvent, es: seq<AppEvent>)
    requires first.kind.Created?
    ensures var a, b := FoldSteps(StartApp(init, first), es), FoldSteps(StartApp(map[], first), es);
      && (a.Some? <==> b.Some?)
      && (a.Some? ==> AgreeButInitial(init, es, a.value, b.value))
    decreases |es|
  {
    if es != [] {
      hide KeyAgrees;
      var n := |es| - 1;
      FoldStepsAgree(init, first, es[..n]);
      var a, b := FoldSteps(StartApp(init, first), es[..n]), FoldSteps(StartApp(map[], first), es[..n]);
      if a.Some? && !es[n].kind.Created? {
        AgreeStep(init, es[..n], a.value, b.value, es[n]);
        assert es[..n] + [es[n]] == es;
      }
    }
  }

  lemma NothingInitial(es: seq<AppEvent>, a: App, b: App)
    requires AgreeButInitial(map[], es, a, b)
    ensures a == b
  {
    forall key ensures Lookup(a.metadata, key) == Lookup(b.metadata, key) {
      assert KeyAgrees(map[], es, key, a, b);
    }
    SameMetadata(a, b);
  }

  /** The row and the source's fold (which starts from no metadata) agree except on untouched
      initial keys, and are equal when there was no initial metadata. */
  lemma RowAgainstFold(init: map<string, Value>, es: seq<AppEvent>, row: App)
    requires FoldFrom(init, es) == Some(row)
    ensures FoldFrom(map[], es).Some?
    ensures AgreeButInitial(init, es[1..], row, FoldFrom(map[], es).value)
    ensures init == map[] ==> FoldFrom(map[], es) == Some(row)
  {
    FoldStepsAgree(init, es[0], es[1..]);
    if init == map[] {
      NothingInitial(es[1..], row, FoldFrom(map[], es).value);
    }
  }

  /** Row and fold are the same exactly if the events have touched every key given at creation. */
  lemma RowEqualsFold(init: map<string, Value>, es: seq<AppEvent>, row: App)
    requires FoldFrom(init, es) == Some(row)
    ensures FoldFrom(map[], es) == Some(row) <==> forall key :: key in init ==> Touched(es[1..], key)
  {
    RowAgainstFold(init, es, row);
    var folded := FoldFrom(map[], es).value;
    hide FoldFrom, Touched;
    assert forall key :: KeyAgrees(init, es[1..], key, row, folded);
    if forall key :: key in init ==> Touched(es[1..], key) {
      forall key ensures Lookup(row.metadata, key) == Lookup(folded.metadata, key) {
        assert KeyAgrees(init, es[1..], key, row, folded);
      }
      SameMetadata(row, folded);
    }
    if folded == row {
      forall key | key in init ensures Touched(es[1..], key) {
        assert KeyAgrees(init, es[1..], key, row, folded);
      }
    }
  }

  lemma SameMetadata(a: App, b: App)
    requires a == b.(metadata := a.metadata)
    requires forall key :: Lookup(a.metadata, key) == Lookup(b.metadata, key)
    ensures a == b
  {
    forall key ensures key in a.metadata <==> key in b.metadata {
      assert Lookup(a.metadata, key) == Lookup(b.metadata, key);
    }
    forall key | key in a.metadata ensures a.metadata[key] == b.metadata[key] {
      assert Lookup(a.metadata, key) == Lookup(b.metadata, key);
    }
    assert a.metadata == b.metadata;
  }

  // ---- Lifecycle ---------------------------------------------------------------------------

  function NextStatus(status: AppStatus, kind: EventKind): AppStatus {
    match kind
    case PublishedEvent => Live
    case UnpublishedEvent => Draft
    case ArchivedEvent => Archived
    case UnarchivedEvent => Draft
    case _ => status
  }

  /** The lifecycle automaton; archiving is possible from every status, also from Archived. */
  predicate LegalFrom(status: AppStatus, kind: EventKind) {
    match kind
    case Created(_, _, _) => false
    case PublishedEvent => status == Draft
    case UnpublishedEvent => status == Live
    case ArchivedEvent => true
    case UnarchivedEvent => status == Archived
    case _ => true
  }

  function StatusAfter(es: seq<AppEvent>): AppStatus {
    if |es| <= 1 then Draft else NextStatus(StatusAfter(es[..|es| - 1]), es[|es| - 1].kind)
  }

  /** The log starts with its creation and then follows the automaton. */
  predicate LifecyclePath(es: seq<AppEvent>) {
    if es == [] then false
    else if |es| == 1 then es[0].kind.Created?
    else LifecyclePath(es[..|es| - 1]) && LegalFrom(StatusAfter(es[..|es| - 1]), es[|es| - 1].kind)
  }

  predicate StampsOk(app: App) {
    && (app.status == Archived <==> app.archivedAt.Some?)
    && (app.status == Live ==> app.publishedAt.Some?)
  }

  /** A log that follows the automaton folds to a row with consistent stamps. */
  lemma {:induction false} PathStamps(init: map<string, Value>, es: seq<AppEvent>)
    requires LifecyclePath(es)
    ensures FoldFrom(init, es).Some?
    ensures FoldFrom(init, es).value.status == StatusAfter(es)
    ensures StampsOk(FoldFrom(init, es).value)
    decreases |es|
  {
    if |es| > 1 {
      var n := |es| - 1;
      PathStamps(init, es[..n]);
      FoldNext(init, es[..n], es[n]);
      assert es[..n] + [es[n]] == es;
    }
  }
}
