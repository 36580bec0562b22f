/** The apps tables: what they promise, time travel over the event log, what a transaction keeps. */
module AppsTables {
  import opened Prelude
  import opened Json
  import opened AppsModel
  import opened Sorting

  datatype DeploymentState = Pending | Promoted | Failed     // `Promoted` is the source's `Live`

  datatype Deployment = Deployment(
    id: Uuid, appId: Uuid, workspaceId: string, appEventSeq: int, state: DeploymentState,
    previewPath: Option<string>, note: string, createdAt: Time, promotedAt: Option<Time>)

  datatype AppRef = ById(id: Uuid) | BySlug(workspaceId: string, slug: string)

  datatype AppsError =
    | NotFound
    | SlugConflict(workspaceId: string, slug: string)
    | InvalidArgument
    | InvalidTransition(from: AppStatus)
    | Storage

  /** Where the storage engine fails during a transaction, if it does. */
  datatype Fault = Healthy | FailsEarly | FailsLate

  datatype Database = Database(apps: map<Uuid, App>, events: seq<AppEvent>, deployments: map<Uuid, Deployment>)

  // ---- The event table ---------------------------------------------------------------------

  function RowOf(id: Uuid): AppEvent -> seq<AppEvent> {
    (e: AppEvent) => if e.appId == id then [e] else []
  }

  /** The rows of one app, in insertion order. */
  function EventsOf(table: seq<AppEvent>, id: Uuid): seq<AppEvent> { Collect(RowOf(id), table) }

  lemma EventsOfOwnRows(table: seq<AppEvent>, rows: seq<AppEvent>, id: Uuid)
    requires forall e :: e in rows ==> e.appId == id
    ensures EventsOf(table + rows, id) == EventsOf(table, id) + rows
  {
    hide Collect;
    CollectAppend(RowOf(id), table, rows);
    CollectAll(RowOf(id), rows);
  }

  lemma EventsOfOtherRows(table: seq<AppEvent>, rows: seq<AppEvent>, id: Uuid)
    requires forall e :: e in rows ==> e.appId != id
    ensures EventsOf(table + rows, id) == EventsOf(table, id)
  {
    hide Collect;
    CollectAppend(RowOf(id), table, rows);
    CollectNothing(RowOf(id), rows);
  }

  /** No app's log loses or changes an event. */
  ghost predicate Grows(before: Database, after: Database) {
    forall id :: EventsOf(before.events, id) <= EventsOf(after.events, id)
  }

  lemma AppendedGrows(before: Database, after: Database)
    requires before.events <= after.events
    ensures Grows(before, after)
  {
    assert after.events == before.events + after.events[|before.events|..];
    forall id ensures EventsOf(before.events, id) <= EventsOf(after.events, id) {
      CollectAppend(RowOf(id), before.events, after.events[|before.events|..]);
    }
  }

  /** The k-th event of an app has sequence number k. */
  predicate Numbered(es: seq<AppEvent>) {
    forall i :: 0 <= i < |es| ==> es[i].seqNo == i
  }

  /** `COALESCE(MAX(seq), -1)` */
  function MaxSeq(es: seq<AppEvent>): int {
    if es == [] then -1
    else
      var rest := MaxSeq(es[..|es| - 1]);
      if es[|es| - 1].seqNo > rest then es[|es| - 1].seqNo else rest
  }

  lemma {:induction false} MaxSeqNumbered(es: seq<AppEvent>)
    requires Numbered(es)
    ensures MaxSeq(es) == |es| - 1
    decreases |es|
  {
    if es != [] {
      MaxSeqNumbered(es[..|es| - 1]);
    }
  }

  /** `value as i64` for a u64. */
  function AsI64(value: int): int {
    if value < 0x8000_0000_0000_0000 then value else value - 0x1_0000_0000_0000_0000
  }

  const BySeq: (AppEvent, AppEvent) -> bool := (a: AppEvent, b: AppEvent) => a.seqNo <= b.seqNo

  function IfUpTo(bound: int): AppEvent -> seq<AppEvent> {
    (e: AppEvent) => if e.seqNo <= bound then [e] else []
  }

  function UpTo(es: seq<AppEvent>, bound: int): seq<AppEvent> { Collect(IfUpTo(bound), es) }

  /** `SELECT ... WHERE app_id = ? AND seq <= ? ORDER BY seq ASC` */
  function SelectUpTo(table: seq<AppEvent>, id: Uuid, bound: int): seq<AppEvent> {
    Sort(BySeq, UpTo(EventsOf(table, id), bound))
  }

  lemma UpToNothing(es: seq<AppEvent>, bound: int)
    requires Numbered(es) && bound < 0
    ensures UpTo(es, bound) == []
  {
    hide Collect;
    CollectNothing(IfUpTo(bound), es);
  }

  lemma UpToAll(es: seq<AppEvent>, bound: int)
    requires Numbered(es) && |es| <= bound + 1
    ensures UpTo(es, bound) == es
  {
    hide Collect;
    CollectAll(IfUpTo(bound), es);
  }

  lemma {:induction false} UpToPrefix(es: seq<AppEvent>, bound: nat)
    requires Numbered(es) && bound < |es|
    ensures UpTo(es, bound) == es[..bound + 1]
    decreases |es|
  {
    var n := |es| - 1;
    if bound == n {
      UpToAll(es, bound);
      assert es[..n + 1] == es;
    } else {
      UpToPrefix(es[..n], bound);
      assert es[..n][..bound + 1] == es[..bound + 1];
    }
  }

  lemma UpToNumbered(es: seq<AppEvent>, bound: int)
    requires Numbered(es)
    ensures UpTo(es, bound) == if bound < 0 then [] else es[..Min(bound + 1, |es|)]
  {
    if bound < 0 {
      UpToNothing(es, bound);
    } else if bound < |es| {
      UpToPrefix(es, bound);
    } else {
      UpToAll(es, bound);
      assert es[..|es|] == es;
    }
  }

  lemma SelectNumbered(table: seq<AppEvent>, id: Uuid, bound: int)
    requires Numbered(EventsOf(table, id))
    ensures SelectUpTo(table, id, bound)
         == if bound < 0 then [] else EventsOf(table, id)[..Min(bound + 1, |EventsOf(table, id)|)]
  {
    var es := EventsOf(table, id);
    UpToNumbered(es, bound);
    SortFixed(BySeq, UpTo(es, bound));
  }

  // ---- What the tables promise -------------------------------------------------------------

  predicate Matches(ref: AppRef, app: App) {
    match ref
    case ById(id) => app.id == id
    case BySlug(workspaceId, slug) => app.workspaceId == workspaceId && app.slug == slug
  }

  /** Slugs are unique within a workspace only. */
  lemma SlugsPerWorkspace(a: App, b: App)
    ensures SameSlug(a, b) <==> (a.workspaceId, a.slug) == (b.workspaceId, b.slug)
  {
  }

  predicate SameSlug(a: App, b: App) { Matches(BySlug(a.workspaceId, a.slug), b) }

  ghost predicate RowShape(db: Database, id: Uuid)
    requires id in db.apps
  {
    db.apps[id].id == id && EventsOf(db.events, id) != [] && Numbered(EventsOf(db.events, id))
  }

  /** The constraints of the schema, and gap-free numbering of every app's log. */
  ghost predicate Shape(db: Database) {
    && (forall id :: id in db.apps ==> RowShape(db, id))
    && (forall e :: e in db.events ==> e.appId in db.apps)
    && (forall a, b :: a in db.apps && b in db.apps && SameSlug(db.apps[a], db.apps[b]) ==> a == b)
  }

  /** Folding the app's log gives its row. `born` is the metadata the app was created with. */
  ghost predicate InStep(db: Database, born: map<Uuid, map<string, Value>>, id: Uuid)
    requires id in db.apps && id in born
  {
    FoldFrom(born[id], EventsOf(db.events, id)) == Some(db.apps[id])
  }

  ghost predicate AllInStep(db: Database, born: map<Uuid, map<string, Value>>) {
    && born.Keys == db.apps.Keys
    && (forall id :: id in db.apps ==> InStep(db, born, id))
  }

  /** The log up to the deployment's sequence number still folds to the row deployed. */
  ghost predicate Reconstructs(db: Database, born: map<Uuid, map<string, Value>>, dep: Deployment, deployed: App) {
    && dep.appId in db.apps && dep.appId in born
    && 0 <= dep.appEventSeq < |EventsOf(db.events, dep.appId)|
    && FoldFrom(born[dep.appId], EventsOf(db.events, dep.appId)[..dep.appEventSeq + 1]) == Some(deployed)
  }

  ghost predicate AllReconstruct(db: Database, born: map<Uuid, map<string, Value>>, deployed: map<Uuid, App>) {
    && deployed.Keys == db.deployments.Keys
    && (forall d :: d in db.deployments ==> Reconstructs(db, born, db.deployments[d], deployed[d]))
  }

  /** `rows[k]` is the row that the first k + 1 events fold to. */
  ghost predicate Remembers(init: map<string, Value>, es: seq<AppEvent>, rows: seq<App>) {
    |rows| == |es| && forall k :: 0 <= k < |es| ==> FoldFrom(init, es[..k + 1]) == Some(rows[k])
  }

  /** For every event of every app, the row as that event left it. */
  ghost predicate AllRemembered(db: Database, born: map<Uuid, map<string, Value>>, history: map<Uuid, seq<App>>) {
    && history.Keys == db.apps.Keys && born.Keys == db.apps.Keys
    && (forall id :: id in db.apps ==> Remembers(born[id], EventsOf(db.events, id), history[id]))
  }

  /** Nothing that was remembered is forgotten. */
  ghost predicate HistoryGrows(before: map<Uuid, seq<App>>, after: map<Uuid, seq<App>>) {
    forall id :: id in before ==> id in after && before[id] <= after[id]
  }

  // ---- Time travel -----------------------------------------------------------------------

  /** What `state_at_version` answers. */
  function VersionOf(table: seq<AppEvent>, id: Uuid, k: int): Option<App> {
    FoldFrom(map[], SelectUpTo(table, id, AsI64(k)))
  }

  /** Version k is the fold of the first k + 1 events. From 2^63 on the cast turns k negative and
      there is no answer at all. */
  lemma VersionIsPrefixFold(table: seq<AppEvent>, id: Uuid, k: int)
    requires Numbered(EventsOf(table, id)) && 0 <= k < 0x1_0000_0000_0000_0000
    ensures VersionOf(table, id, k)
         == if k >= 0x8000_0000_0000_0000 then None
            else FoldFrom(map[], EventsOf(table, id)[..Min(k + 1, |EventsOf(table, id)|)])
  {
    SelectNumbered(table, id, AsI64(k));
  }

  /** Once event k exists, version k never changes, whatever is done to the tables after it. */
  lemma VersionStable(db: Database, later: Database, id: Uuid, k: int)
    requires Grows(db, later) && Numbered(EventsOf(later.events, id))
    requires 0 <= k < |EventsOf(db.events, id)| && k < 0x8000_0000_0000_0000
    ensures VersionOf(later.events, id, k) == VersionOf(db.events, id, k)
  {
    hide EventsOf, VersionOf, FoldFrom;
    var es, more := EventsOf(db.events, id), EventsOf(later.events, id);
    assert es <= more;
    hide Grows;
    assert forall i :: 0 <= i < |es| ==> es[i] == more[i];
    assert Numbered(es);
    VersionIsPrefixFold(db.events, id, k);
    VersionIsPrefixFold(later.events, id, k);
    assert more[..k + 1] == es[..k + 1];
  }

  lemma {:induction false} BatchRows(app: App, ms: seq<Mutation>, start: int, actor: string, now: Time)
    ensures forall i :: 0 <= i < |ms| ==>
      var e := BatchEvents(app, ms, start, actor, now)[i];
      && e.appId == app.id && e.seqNo == start + i && !e.kind.Created?
      && e.workspaceId == app.workspaceId && e.actor == actor && e.createdAt == now
    decreases |ms|
  {
    if ms != [] {
      BatchRows(app, ms[..|ms| - 1], start, actor, now);
    }
  }

  /** The table after a transaction on app `id`. */
  ghost function Extended(db: Database, id: Uuid, ms: seq<Mutation>, actor: string, now: Time): seq<AppEvent>
    requires id in db.apps
  {
    db.events + BatchEvents(db.apps[id], ms, MaxSeq(EventsOf(db.events, id)) + 1, actor, now)
  }

  ghost function Transacted(db: Database, id: Uuid, ms: seq<Mutation>, actor: string, now: Time): Database
    requires id in db.apps
  {
    db.(apps := db.apps[id := ApplyBatch(db.apps[id], ms, now)], events := Extended(db, id, ms, actor, now))
  }

  lemma ExtendedOwn(db: Database, id: Uuid, ms: seq<Mutation>, actor: string, now: Time)
    requires id in db.apps && RowShape(db, id)
    ensures var es := EventsOf(db.events, id);
      && EventsOf(Extended(db, id, ms, actor, now), id)
         == es + BatchEvents(db.apps[id], ms, |es|, actor, now)
      && Numbered(EventsOf(Extended(db, id, ms, actor, now), id))
  {
    var es := EventsOf(db.events, id);
    MaxSeqNumbered(es);
    BatchRows(db.apps[id], ms, |es|, actor, now);
    EventsOfOwnRows(db.events, BatchEvents(db.apps[id], ms, |es|, actor, now), id);
  }

  lemma ExtendedOther(db: Database, id: Uuid, ms: seq<Mutation>, actor: string, now: Time, other: Uuid)
    requires id in db.apps && db.apps[id].id == id && other != id
    ensures EventsOf(Extended(db, id, ms, actor, now), other) == EventsOf(db.events, other)
  {
    var start := MaxSeq(EventsOf(db.events, id)) + 1;
    BatchRows(db.apps[id], ms, start, actor, now);
    EventsOfOtherRows(db.events, BatchEvents(db.apps[id], ms, start, actor, now), other);
  }

  /** Mid-batch too: with no initial metadata, the version named by the j-th new event is the row
      as the transaction's first j + 1 mutations leave it. */
  lemma VersionMidBatch(db: Database, id: Uuid, ms: seq<Mutation>, actor: string, now: Time, j: nat)
    requires id in db.apps && RowShape(db, id) && j < |ms|
    requires FoldFrom(map[], EventsOf(db.events, id)) == Some(db.apps[id])
    requires |EventsOf(db.events, id)| + j < 0x8000_0000_0000_0000
    ensures VersionOf(Extended(db, id, ms, actor, now), id, |EventsOf(db.events, id)| + j)
         == Some(ApplyBatch(db.apps[id], ms[..j + 1], now))
  {
    hide EventsOf, VersionOf, FoldFrom, ApplyBatch, Extended;
    var es, app := EventsOf(db.events, id), db.apps[id];
    var rows := BatchEvents(app, ms, |es|, actor, now);
    ExtendedOwn(db, id, ms, actor, now);
    VersionIsPrefixFold(Extended(db, id, ms, actor, now), id, |es| + j);
    assert (es + rows)[..|es| + j + 1] == es + rows[..j + 1];
    BatchPrefix(app, ms, j + 1, |es|, actor, now);
    BatchAgrees(map[], es, app, ms[..j + 1], |es|, actor, now);
  }

  /** The row as each event of a transaction leaves it. */
  function RowsAfter(app: App, ms: seq<Mutation>, now: Time): seq<App> {
    seq(|ms|, j requires 0 <= j < |ms| => ApplyBatch(app, ms[..j + 1], now))
  }

  lemma RemembersBatch(init: map<string, Value>, es: seq<AppEvent>, rows: seq<App>, app: App, ms: seq<Mutation>,
                       actor: string, now: Time)
    requires Remembers(init, es, rows) && FoldFrom(init, es) == Some(app)
    ensures Remembers(init, es + BatchEvents(app, ms, |es|, actor, now), rows + RowsAfter(app, ms, now))
  {
    hide FoldFrom, ApplyBatch;
    var more, all := BatchEvents(app, ms, |es|, actor, now), rows + RowsAfter(app, ms, now);
    forall k | 0 <= k < |es + more| ensures FoldFrom(init, (es + more)[..k + 1]) == Some(all[k]) {
      if k < |es| {
        assert (es + more)[..k + 1] == es[..k + 1];
      } else {
        var j := k - |es|;
        assert (es + more)[..k + 1] == es + more[..j + 1];
        BatchPrefix(app, ms, j + 1, |es|, actor, now);
        BatchAgrees(init, es, app, ms[..j + 1], |es|, actor, now);
      }
    }
  }

  lemma RemembersOwn(db: Database, init: map<string, Value>, rows: seq<App>, id: Uuid, ms: seq<Mutation>,
                     actor: string, now: Time)
    requires id in db.apps && RowShape(db, id)
    requires FoldFrom(init, EventsOf(db.events, id)) == Some(db.apps[id])
    requires Remembers(init, EventsOf(db.events, id), rows)
    ensures Remembers(init, EventsOf(Extended(db, id, ms, actor, now), id), rows + RowsAfter(db.apps[id], ms, now))
  {
    hide Remembers, FoldFrom;
    ExtendedOwn(db, id, ms, actor, now);
    RemembersBatch(init, EventsOf(db.events, id), rows, db.apps[id], ms, actor, now);
  }

  lemma RemembersMore(db: Database, born: map<Uuid, map<string, Value>>, history: map<Uuid, seq<App>>, id: Uuid,
                      ms: seq<Mutation>, actor: string, now: Time)
    requires Shape(db) && AllInStep(db, born) && AllRemembered(db, born, history) && id in db.apps
    ensures AllRemembered(Transacted(db, id, ms, actor, now), born,
                          history[id := history[id] + RowsAfter(db.apps[id], ms, now)])
  {
    hide Remembers, FoldFrom, RowsAfter, Extended, EventsOf, ApplyBatch;
    var after := Transacted(db, id, ms, actor, now);
    var rows := history[id := history[id] + RowsAfter(db.apps[id], ms, now)];
    assert RowShape(db, id) && InStep(db, born, id);
    forall a | a in after.apps ensures Remembers(born[a], EventsOf(after.events, a), rows[a]) {
      assert Remembers(born[a], EventsOf(db.events, a), history[a]);
      if a == id {
        RemembersOwn(db, born[id], history[id], id, ms, actor, now);
      } else {
        ExtendedOther(db, id, ms, actor, now, a);
      }
    }
  }

  /** Every version of every app, at any later time: version k agrees with the row as event k left
      it on everything but untouched initial metadata, and is that row when there was none. */
  lemma VersionIsHistory(db: Database, born: map<Uuid, map<string, Value>>, history: map<Uuid, seq<App>>, id: Uuid,
                         k: int)
    requires Shape(db) && AllRemembered(db, born, history) && id in db.apps
    requires 0 <= k < |EventsOf(db.events, id)| && k < 0x8000_0000_0000_0000
    ensures |history[id]| == |EventsOf(db.events, id)|
    ensures VersionOf(db.events, id, k).Some?
    ensures AgreeButInitial(born[id], EventsOf(db.events, id)[..k + 1][1..], history[id][k],
                            VersionOf(db.events, id, k).value)
    ensures born[id] == map[] ==> VersionOf(db.events, id, k) == Some(history[id][k])
  {
    hide AgreeButInitial, FoldFrom, EventsOf, VersionOf, Touched;
    assert RowShape(db, id) && Remembers(born[id], EventsOf(db.events, id), history[id]);
    VersionIsPrefixFold(db.events, id, k);
    RowAgainstFold(born[id], EventsOf(db.events, id)[..k + 1], history[id][k]);
  }

  /** A deployment names the version that was deployed: the fold agrees with the row deployed on
      everything but untouched initial metadata, and is that row when there was none. */
  lemma DeploymentVersion(db: Database, born: map<Uuid, map<string, Value>>, dep: Deployment, deployed: App)
    requires Shape(db) && Reconstructs(db, born, dep, deployed) && dep.appEventSeq < 0x8000_0000_0000_0000
    ensures VersionOf(db.events, dep.appId, dep.appEventSeq).Some?
    ensures AgreeButInitial(born[dep.appId], EventsOf(db.events, dep.appId)[..dep.appEventSeq + 1][1..], deployed,
                            VersionOf(db.events, dep.appId, dep.appEventSeq).value)
    ensures born[dep.appId] == map[] ==> VersionOf(db.events, dep.appId, dep.appEventSeq) == Some(deployed)
  {
    hide AgreeButInitial, FoldFrom, EventsOf, VersionOf, Touched;
    assert RowShape(db, dep.appId);
    hide Shape;
    VersionIsPrefixFold(db.events, dep.appId, dep.appEventSeq);
    RowAgainstFold(born[dep.appId], EventsOf(db.events, dep.appId)[..dep.appEventSeq + 1], deployed);
  }

  // ---- What a transaction keeps ---------------------------------------------------------

  lemma TransactedShape(db: Database, id: Uuid, ms: seq<Mutation>, actor: string, now: Time)
    requires Shape(db) && id in db.apps
    ensures Shape(Transacted(db, id, ms, actor, now))
  {
    hide EventsOf, BatchEvents, MaxSeq, MutateAll;
    var after := Transacted(db, id, ms, actor, now);
    MutateKeepsIdentity(db.apps[id], ms, now);
    BatchRows(db.apps[id], ms, MaxSeq(EventsOf(db.events, id)) + 1, actor, now);
    assert RowShape(db, id);
    forall a | a in after.apps ensures RowShape(after, a) {
      assert RowShape(db, a);
      if a == id {
        ExtendedOwn(db, id, ms, actor, now);
      } else {
        ExtendedOther(db, id, ms, actor, now, a);
      }
    }
    forall a, b | a in after.apps && b in after.apps && SameSlug(after.apps[a], after.apps[b]) ensures a == b {
      assert SameSlug(db.apps[a], db.apps[b]);
    }
  }

  /** Exactly when a transaction keeps row and log in step: it must write an event, or happen at
      the very instant the row already carries. */
  lemma InStepAfter(db: Database, born: map<Uuid, map<string, Value>>, id: Uuid, ms: seq<Mutation>, actor: string,
                    now: Time)
    requires Shape(db) && id in db.apps && id in born && InStep(db, born, id)
    ensures InStep(Transacted(db, id, ms, actor, now), born, id)
       <==> ms != [] || now == db.apps[id].updatedAt
  {
    assert RowShape(db, id);
    var es := EventsOf(db.events, id);
    ExtendedOwn(db, id, ms, actor, now);
    BatchAgrees(born[id], es, db.apps[id], ms, |es|, actor, now);
  }

  lemma InStepOther(db: Database, born: map<Uuid, map<string, Value>>, id: Uuid, ms: seq<Mutation>, actor: string,
                    now: Time, other: Uuid)
    requires Shape(db) && id in db.apps && other in db.apps && other in born && other != id
    requires InStep(db, born, other)
    ensures InStep(Transacted(db, id, ms, actor, now), born, other)
  {
    assert RowShape(db, id);
    ExtendedOther(db, id, ms, actor, now, other);
  }

  lemma TransactedInStep(db: Database, born: map<Uuid, map<string, Value>>, id: Uuid, ms: seq<Mutation>,
                         actor: string, now: Time)
    requires Shape(db) && AllInStep(db, born) && id in db.apps && ms != []
    ensures AllInStep(Transacted(db, id, ms, actor, now), born)
  {
    hide InStep;
    var after := Transacted(db, id, ms, actor, now);
    forall a | a in after.apps ensures InStep(after, born, a) {
      if a == id {
        InStepAfter(db, born, id, ms, actor, now);
      } else {
        InStepOther(db, born, id, ms, actor, now, a);
      }
    }
  }

  lemma ReconstructsLater(db: Database, after: Database, born: map<Uuid, map<string, Value>>, dep: Deployment,
                          deployed: App)
    requires Reconstructs(db, born, dep, deployed)
    requires dep.appId in after.apps
    requires EventsOf(db.events, dep.appId) <= EventsOf(after.events, dep.appId)
    ensures Reconstructs(after, born, dep, deployed)
  {
    var es := EventsOf(db.events, dep.appId);
    assert es == EventsOf(after.events, dep.appId)[..|es|];
    assert EventsOf(after.events, dep.appId)[..dep.appEventSeq + 1] == es[..dep.appEventSeq + 1];
  }

  lemma TransactedReconstructs(db: Database, born: map<Uuid, map<string, Value>>, deployed: map<Uuid, App>, id: Uuid,
                               ms: seq<Mutation>, actor: string, now: Time)
    requires Shape(db) && AllReconstruct(db, born, deployed) && id in db.apps
    ensures AllReconstruct(Transacted(db, id, ms, actor, now), born, deployed)
  {
    var after := Transacted(db, id, ms, actor, now);
    forall d | d in after.deployments ensures Reconstructs(after, born, after.deployments[d], deployed[d]) {
      var dep := db.deployments[d];
      assert Reconstructs(db, born, dep, deployed[d]);
      assert RowShape(db, id);
      if dep.appId == id {
        ExtendedOwn(db, id, ms, actor, now);
      } else {
        ExtendedOther(db, id, ms, actor, now, dep.appId);
      }
      ReconstructsLater(db, after, born, dep, deployed[d]);
    }
  }
}
