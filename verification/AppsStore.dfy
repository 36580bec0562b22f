/** The store: one atomic transaction per method. A transaction either commits or leaves the
    tables as they were. */
module AppsStore {
  import opened Prelude
  import opened Json
  import opened AppsModel
  import opened AppsTables

  /** The fold as the source runs it: one mutable row, one pass over the log. */
  method FoldEventsIntoState(events: seq<AppEvent>) returns (r: Option<App>)
    ensures r == FoldFrom(map[], events)
  {
    if events == [] || !events[0].kind.Created? {
      return None;
    }
    var app := StartApp(map[], events[0]);
    var i := 1;
    while i < |events|
      invariant 1 <= i <= |events|
      invariant FoldFrom(map[], events[..i]) == Some(app)
    {
      var event := events[i];
      FoldNext(map[], events[..i], event);
      assert events[..i] + [event] == events[..i + 1];
      app := app.(updatedAt := event.createdAt);
      match event.kind {
        case Created(_, _, _) =>
          FoldStuck(map[], events, i);
          return None;
        case Renamed(_, to) => app := app.(name := to);
        case DescriptionUpdated(d) => app := app.(description := d);
        case MetadataSet(key, value) => app := app.(metadata := app.metadata[key := value]);
        case MetadataRemoved(key) => app := app.(metadata := app.metadata - {key});
        case PublishedEvent => app := app.(status := Live, publishedAt := Some(event.createdAt));
        case UnpublishedEvent => app := app.(status := Draft);
        case ArchivedEvent => app := app.(status := Archived, archivedAt := Some(event.createdAt));
        case UnarchivedEvent => app := app.(status := Draft, archivedAt := None);
      }
      i := i + 1;
    }
    assert events[..i] == events;
    return Some(app);
  }

  /** A second `Created` row makes the whole log unreadable, whatever follows it. */
  lemma {:induction false} FoldStuck(init: map<string, Value>, es: seq<AppEvent>, i: nat)
    requires 0 < i < |es| && es[i].kind.Created?
    ensures FoldFrom(init, es) == None
    decreases |es|
  {
    var n := |es| - 1;
    FoldNext(init, es[..n], es[n]);
    assert es[..n] + [es[n]] == es;
    if i < n {
      FoldStuck(init, es[..n], i);
    }
  }

  /** The transaction's loop: the new row, and one log row for every mutation. */
  method RunMutations(current: App, mutations: seq<Mutation>, nextSeq: int, actor: string, now: Time)
    returns (app: App, rows: seq<AppEvent>)
    ensures app == ApplyBatch(current, mutations, now)
    ensures rows == BatchEvents(current, mutations, nextSeq, actor, now)
  {
    var name, description, metadata := current.name, current.description, current.metadata;
    var status, publishedAt, archivedAt := current.status, current.publishedAt, current.archivedAt;
    rows := [];
    var offset := 0;
    while offset < |mutations|
      invariant 0 <= offset <= |mutations|
      invariant current.(name := name, description := description, metadata := metadata, status := status,
                         publishedAt := publishedAt, archivedAt := archivedAt)
             == MutateAll(current, mutations[..offset], now)
      invariant rows == BatchEvents(current, mutations[..offset], nextSeq, actor, now)
    {
      assert mutations[..offset + 1][..offset] == mutations[..offset];
      var kind;
      match mutations[offset] {
        case Rename(newName) =>
          kind := Renamed(name, newName);
          name := newName;
        case UpdateDescription(newDescription) =>
          description := newDescription;
          kind := DescriptionUpdated(newDescription);
        case SetMetadata(key, value) =>
          metadata := metadata[key := value];
          kind := MetadataSet(key, value);
        case RemoveMetadata(key) =>
          metadata := metadata - {key};
          kind := MetadataRemoved(key);
        case Publish =>
          status, publishedAt := Live, Some(now);
          kind := PublishedEvent;
        case Unpublish =>
          status := Draft;
          kind := UnpublishedEvent;
        case Archive =>
          status, archivedAt := Archived, Some(now);
          kind := ArchivedEvent;
        case Unarchive =>
          status, archivedAt := Draft, None;
          kind := UnarchivedEvent;
      }
      rows := rows + [AppEvent(current.id, current.workspaceId, nextSeq + offset, actor, now, kind)];
      offset := offset + 1;
    }
    assert mutations[..offset] == mutations;
    app := current.(name := name, description := description, metadata := metadata, status := status,
                    updatedAt := now, publishedAt := publishedAt, archivedAt := archivedAt);
  }

  class AppsStore {
    var db: Database
    ghost var born: map<Uuid, map<string, Value>>     // metadata each app was created with
    ghost var deployed: map<Uuid, App>                // the row each deployment was made of
    ghost var history: map<Uuid, seq<App>>            // the row as each event left it

    ghost predicate Valid()
      reads this
    {
      Shape(db) && born.Keys == db.apps.Keys && history.Keys == db.apps.Keys
    }

    /** Rows and log in step for every app, and every past row and deployment still readable from the
        log. */
    ghost predicate Agrees()
      reads this
    {
      AllInStep(db, born) && AllRemembered(db, born, history) && AllReconstruct(db, born, deployed)
    }

    constructor ()
      ensures Valid() && Agrees()
      ensures db == Database(map[], [], map[])
    {
      db := Database(map[], [], map[]);
      born, deployed, history := map[], map[], map[];
    }

    method Insert(workspaceId: string, slug: string, name: string, description: string,
                  metadata: map<string, Value>, actor: string, id: Uuid, now: Time, fault: Fault)
      returns (r: Result<App, AppsError>)
      requires Valid()
      modifies this
      ensures Valid()
      ensures old(Agrees()) ==> Agrees()
      ensures r.Err? ==> unchanged(this)
      ensures fault == Healthy ==>
        (r.Err? <==>
          id in old(db.apps) || (exists a :: a in old(db.apps) && Matches(BySlug(workspaceId, slug), old(db.apps[a]))))
      ensures r.Err? ==> r.error in {SlugConflict(workspaceId, slug), Storage}
      ensures r.Ok? ==>
        && r.value == App(id, workspaceId, slug, name, description, Draft, metadata, now, now, None, None)
        && Insertable(old(db), r.value) && db == Inserted(old(db), r.value, actor)
        && born == old(born)[id := metadata] && deployed == old(deployed)
        && history == old(history)[id := [r.value]]
      ensures Grows(old(db), db) && HistoryGrows(old(history), history)
    {
      hide Shape, AllInStep, AllReconstruct, AllRemembered, Grows, Inserted;
      AppendedGrows(db, db);
      if fault == FailsEarly {
        return Err(Storage);
      }
      if id in db.apps || exists a :: a in db.apps.Keys && Matches(BySlug(workspaceId, slug), db.apps[a]) {
        return Err(SlugConflict(workspaceId, slug));
      }
      if fault == FailsLate {
        return Err(Storage);
      }
      var app := App(id, workspaceId, slug, name, description, Draft, metadata, now, now, None, None);
      InsertedKeepsAll(db, born, deployed, history, app, actor);
      db := Inserted(db, app, actor);
      born, history := born[id := metadata], history[id := [app]];
      return Ok(app);
    }

    method Get(ref: AppRef) returns (r: Option<App>)
      requires Valid()
      ensures r.Some? ==> r.value.id in db.apps && db.apps[r.value.id] == r.value && Matches(ref, r.value)
      ensures r.Some? ==> forall id :: id in db.apps && Matches(ref, db.apps[id]) ==> id == r.value.id
      ensures r.None? ==> forall id :: id in db.apps ==> !Matches(ref, db.apps[id])
    {
      if id :| id in db.apps && Matches(ref, db.apps[id]) {
        assert RowShape(db, id);
        forall other | other in db.apps && Matches(ref, db.apps[other]) ensures other == id {
          assert RowShape(db, other);
          assert ref.BySlug? ==> SameSlug(db.apps[other], db.apps[id]);
        }
        return Some(db.apps[id]);
      }
      return None;
    }

    /** The transaction behind every change to an existing app. */
    method ApplyMutations(id: Uuid, expected: Option<AppStatus>, mutations: seq<Mutation>, actor: string, now: Time,
                          fault: Fault)
      returns (r: Result<App, AppsError>)
      requires Valid()
      modifies `db, `history
      ensures Valid()
      ensures old(Agrees()) && mutations != [] ==> Agrees()
      ensures r.Err? ==> db == old(db) && history == old(history)
      ensures Grows(old(db), db) && HistoryGrows(old(history), history)
      ensures fault == Healthy ==>
        (r.Ok? <==> id in old(db.apps) && (expected.None? || old(db.apps)[id].status == expected.value))
      ensures r.Ok? ==>
        && id in old(db.apps) && (expected.None? || old(db.apps)[id].status == expected.value)
        && r.value == ApplyBatch(old(db.apps)[id], mutations, now)
        && db == Transacted(old(db), id, mutations, actor, now)
        && history == old(history)[id := old(history)[id] + RowsAfter(old(db.apps)[id], mutations, now)]
      ensures r.Err? ==>
        r.error in {NotFound, Storage} || (id in db.apps && r.error == InvalidTransition(db.apps[id].status))
    {
      hide Shape, AllInStep, AllReconstruct, AllRemembered, EventsOf, MaxSeq, ApplyBatch, BatchEvents, RowsAfter, Grows;
      AppendedGrows(db, db);
      if fault == FailsEarly {
        return Err(Storage);
      }
      if id !in db.apps {
        return Err(NotFound);
      }
      var current := db.apps[id];
      if expected.Some? && current.status != expected.value {
        return Err(InvalidTransition(current.status));
      }
      var nextSeq := MaxSeq(EventsOf(db.events, id)) + 1;
      var app, rows := RunMutations(current, mutations, nextSeq, actor, now);
      if fault == FailsLate {
        return Err(Storage);
      }
      KeepsAll(mutations, id, actor, now);
      AppendedGrows(db, Transacted(db, id, mutations, actor, now));
      history := history[id := history[id] + RowsAfter(current, mutations, now)];
      db := db.(apps := db.apps[id := app], events := db.events + rows);
      return Ok(app);
    }

    lemma KeepsAll(mutations: seq<Mutation>, id: Uuid, actor: string, now: Time)
      requires Valid() && id in db.apps
      ensures Shape(Transacted(db, id, mutations, actor, now))
      ensures Agrees() && mutations != [] ==>
        && AllInStep(Transacted(db, id, mutations, actor, now), born)
        && AllRemembered(Transacted(db, id, mutations, actor, now), born,
                         history[id := history[id] + RowsAfter(db.apps[id], mutations, now)])
        && AllReconstruct(Transacted(db, id, mutations, actor, now), born, deployed)
    {
      hide Shape, AllInStep, AllReconstruct, AllRemembered;
      TransactedShape(db, id, mutations, actor, now);
      if Agrees() && mutations != [] {
        TransactedInStep(db, born, id, mutations, actor, now);
        RemembersMore(db, born, history, id, mutations, actor, now);
        TransactedReconstructs(db, born, deployed, id, mutations, actor, now);
      }
    }

    method StateAtVersion(id: Uuid, upToSeq: int) returns (r: Option<App>)
      requires 0 <= upToSeq < 0x1_0000_0000_0000_0000
      ensures r == VersionOf(db.events, id, upToSeq)
    {
      r := FoldEventsIntoState(SelectUpTo(db.events, id, AsI64(upToSeq)));
    }

    lemma KeepsDeployed(dep: Deployment)
      requires Valid() && dep.appId in db.apps && dep.appEventSeq == |EventsOf(db.events, dep.appId)| - 1
      ensures var after := db.(deployments := db.deployments[dep.id := dep]);
        && Shape(after)
        && (Agrees() ==> AllInStep(after, born) && AllRemembered(after, born, history)
                         && AllReconstruct(after, born, deployed[dep.id := db.apps[dep.appId]]))
    {
      hide Shape, AllInStep, AllReconstruct, AllRemembered, EventsOf;
      SameTablesKeep(db, db.(deployments := db.deployments[dep.id := dep]), born, history);
      DeployedReconstructs(db, born, deployed, dep);
    }

    lemma KeepsState(id: Uuid, dep: Deployment)
      requires Valid() && id in db.deployments
      requires dep == db.deployments[id].(state := dep.state, promotedAt := dep.promotedAt)
      ensures var after := db.(deployments := db.deployments[id := dep]);
        && Shape(after)
        && (Agrees() ==> AllInStep(after, born) && AllRemembered(after, born, history)
                         && AllReconstruct(after, born, deployed))
    {
      hide Shape, AllInStep, AllReconstruct, AllRemembered;
      SameTablesKeep(db, db.(deployments := db.deployments[id := dep]), born, history);
      StateReconstructs(db, born, deployed, id, dep);
    }

    lemma LastSeq(id: Uuid)
      requires Valid() && id in db.apps
      ensures MaxSeq(EventsOf(db.events, id)) == |EventsOf(db.events, id)| - 1 >= 0
    {
      assert RowShape(db, id);
      MaxSeqNumbered(EventsOf(db.events, id));
    }

    method WriteNew(dep: Deployment)
      requires Valid() && dep.appId in db.apps && dep.appEventSeq == |EventsOf(db.events, dep.appId)| - 1
      modifies `db, `deployed
      ensures Valid() && (old(Agrees()) ==> Agrees())
      ensures db == old(db).(deployments := old(db.deployments)[dep.id := dep])
      ensures deployed == old(deployed)[dep.id := db.apps[dep.appId]]
    {
      hide Shape, AllInStep, AllReconstruct, AllRemembered, EventsOf;
      KeepsDeployed(dep);
      deployed := deployed[dep.id := db.apps[dep.appId]];
      db := db.(deployments := db.deployments[dep.id := dep]);
    }

    method WriteState(id: Uuid, dep: Deployment)
      requires Valid() && id in db.deployments
      requires dep == db.deployments[id].(state := dep.state, promotedAt := dep.promotedAt)
      modifies `db
      ensures Valid() && (old(Agrees()) ==> Agrees())
      ensures db == old(db).(deployments := old(db.deployments)[id := dep])
    {
      hide Shape, AllInStep, AllReconstruct, AllRemembered;
      KeepsState(id, dep);
      db := db.(deployments := db.deployments[id := dep]);
    }

    method CreateDeployment(appId: Uuid, previewPath: Option<string>, note: string, id: Uuid, now: Time, fault: Fault)
      returns (r: Result<Deployment, AppsError>)
      requires Valid()
      modifies this
      ensures Valid()
      ensures old(Agrees()) ==> Agrees()
      ensures r.Err? ==> unchanged(this)
      ensures fault == Healthy ==> (r.Ok? <==> appId in old(db.apps) && id !in old(db.deployments))
      ensures r.Ok? ==>
        && appId in db.apps
        && r.value == Deployment(id, appId, db.apps[appId].workspaceId, |EventsOf(db.events, appId)| - 1, Pending,
                                 previewPath, note, now, None)
        && db == old(db).(deployments := old(db.deployments)[id := r.value])
        && deployed == old(deployed)[id := db.apps[appId]] && born == old(born) && history == old(history)
    {
      hide Valid, Agrees, EventsOf;
      r := PlanDeployment(appId, previewPath, note, id, now, fault);
      if r.Ok? {
        WriteNew(r.value);
      }
    }

    /** The record to insert, or why there is none. */
    method PlanDeployment(appId: Uuid, previewPath: Option<string>, note: string, id: Uuid, now: Time, fault: Fault)
      returns (r: Result<Deployment, AppsError>)
      requires Valid()
      ensures fault == Healthy ==> (r.Ok? <==> appId in db.apps && id !in db.deployments)
      ensures r.Ok? ==>
        && appId in db.apps
        && r.value == Deployment(id, appId, db.apps[appId].workspaceId, |EventsOf(db.events, appId)| - 1, Pending,
                                 previewPath, note, now, None)
    {
      if fault == FailsEarly {
        return Err(Storage);
      }
      if appId !in db.apps {
        return Err(NotFound);
      }
      LastSeq(appId);
      var maxSeq := MaxSeq(EventsOf(db.events, appId));
      if maxSeq < 0 {
        return Err(InvalidArgument);
      }
      if fault == FailsLate || id in db.deployments {
        return Err(Storage);
      }
      return Ok(Deployment(id, appId, db.apps[appId].workspaceId, maxSeq, Pending, previewPath, note, now, None));
    }

    method SetDeploymentState(id: Uuid, state: DeploymentState, now: Time, fault: Fault)
      returns (r: Result<Deployment, AppsError>)
      requires Valid()
      modifies `db
      ensures Valid()
      ensures old(Agrees()) ==> Agrees()
      ensures fault == Healthy ==> (r.Ok? <==> id in old(db.deployments))
      ensures fault == FailsEarly || id !in old(db.deployments) ==> r.Err? && db == old(db)
      ensures fault != FailsEarly && id in old(db.deployments) ==>
        var before := old(db.deployments)[id];
        var after := before.(state := state, promotedAt := if state == Promoted then Some(now) else before.promotedAt);
        && db == old(db).(deployments := old(db.deployments)[id := after])
        && r == (if fault == FailsLate then Err(Storage) else Ok(after))
        && (r.Err? && db != old(db) <==> fault == FailsLate && after != before)
      ensures r.Err? && db != old(db) ==> fault == FailsLate && id in old(db.deployments)
    {
      if fault == FailsEarly {
        return Err(Storage);
      }
      if id !in db.deployments {
        return Err(NotFound);
      }
      hide Valid, Agrees;
      var promotedAt := if state == Promoted then Some(now) else None;
      var dep := db.deployments[id];
      dep := dep.(state := state, promotedAt := if promotedAt.Some? then promotedAt else dep.promotedAt);
      WriteState(id, dep);
      if fault == FailsLate {           // the update committed; reading the row back failed
        return Err(Storage);
      }
      return Ok(dep);
    }
  }

  // ---- Insertion and deployments keep the tables in order --------------------------------------

  function CreatedRow(app: App, actor: string): AppEvent {
    AppEvent(app.id, app.workspaceId, 0, actor, app.createdAt, Created(app.slug, app.name, app.description))
  }

  function Inserted(db: Database, app: App, actor: string): Database {
    db.(apps := db.apps[app.id := app], events := db.events + [CreatedRow(app, actor)])
  }

  ghost predicate Insertable(db: Database, app: App) {
    && Shape(db) && app.id !in db.apps
    && (forall a :: a in db.apps ==> !SameSlug(app, db.apps[a]))
    && app == App(app.id, app.workspaceId, app.slug, app.name, app.description, Draft, app.metadata,
                  app.createdAt, app.createdAt, None, None)
  }

  lemma InsertedLogs(db: Database, app: App, actor: string, a: Uuid)
    requires Insertable(db, app)
    ensures EventsOf(Inserted(db, app, actor).events, a)
         == EventsOf(db.events, a) + (if a == app.id then [CreatedRow(app, actor)] else [])
    ensures a == app.id ==> EventsOf(db.events, a) == []
  {
    if a == app.id {
      EventsOfOwnRows(db.events, [CreatedRow(app, actor)], a);
      CollectNothing(RowOf(a), db.events);
    } else {
      EventsOfOtherRows(db.events, [CreatedRow(app, actor)], a);
    }
  }

  lemma InsertedShape(db: Database, app: App, actor: string)
    requires Insertable(db, app)
    ensures Shape(Inserted(db, app, actor))
  {
    hide EventsOf;
    var after := Inserted(db, app, actor);
    forall a | a in after.apps ensures RowShape(after, a) {
      InsertedLogs(db, app, actor, a);
      if a != app.id {
        assert RowShape(db, a);
      }
    }
    forall a, b | a in after.apps && b in after.apps && SameSlug(after.apps[a], after.apps[b]) ensures a == b {
      if a != app.id && b != app.id {
        assert SameSlug(db.apps[a], db.apps[b]);
      }
    }
  }

  lemma FoldCreated(app: App, actor: string)
    requires app == App(app.id, app.workspaceId, app.slug, app.name, app.description, Draft, app.metadata,
                        app.createdAt, app.createdAt, None, None)
    ensures FoldFrom(app.metadata, [CreatedRow(app, actor)]) == Some(app)
    ensures CreatedRow(app, actor).actor == actor && CreatedRow(app, actor).createdAt == app.createdAt
  {
  }

  lemma InsertedInStepOne(db: Database, born: map<Uuid, map<string, Value>>, app: App, actor: string, a: Uuid)
    requires Insertable(db, app) && AllInStep(db, born) && (a == app.id || a in db.apps)
    ensures InStep(Inserted(db, app, actor), born[app.id := app.metadata], a)
  {
    hide FoldFrom, EventsOf;
    InsertedLogs(db, app, actor, a);
    if a == app.id {
      FoldCreated(app, actor);
      assert EventsOf(Inserted(db, app, actor).events, a) == [CreatedRow(app, actor)];
    } else {
      assert InStep(db, born, a);
      assert EventsOf(Inserted(db, app, actor).events, a) == EventsOf(db.events, a);
    }
  }

  lemma InsertedInStep(db: Database, born: map<Uuid, map<string, Value>>, app: App, actor: string)
    requires Insertable(db, app)
    ensures AllInStep(db, born) ==> AllInStep(Inserted(db, app, actor), born[app.id := app.metadata])
  {
    hide InStep;
    if AllInStep(db, born) {
      var after := Inserted(db, app, actor);
      forall a | a in after.apps ensures InStep(after, born[app.id := app.metadata], a) {
        InsertedInStepOne(db, born, app, actor, a);
      }
    }
  }

  lemma RemembersCreated(app: App, actor: string)
    requires app == App(app.id, app.workspaceId, app.slug, app.name, app.description, Draft, app.metadata,
                        app.createdAt, app.createdAt, None, None)
    ensures Remembers(app.metadata, [CreatedRow(app, actor)], [app])
  {
    hide FoldFrom;
    FoldCreated(app, actor);
    assert [CreatedRow(app, actor)][..1] == [CreatedRow(app, actor)];
  }

  lemma InsertedRemembersOne(db: Database, born: map<Uuid, map<string, Value>>, history: map<Uuid, seq<App>>, app: App,
                             actor: string, a: Uuid)
    requires Insertable(db, app) && AllRemembered(db, born, history) && (a == app.id || a in db.apps)
    ensures Remembers(born[app.id := app.metadata][a], EventsOf(Inserted(db, app, actor).events, a),
                      history[app.id := [app]][a])
  {
    hide Remembers, EventsOf, Shape;
    InsertedLogs(db, app, actor, a);
    var es := EventsOf(Inserted(db, app, actor).events, a);
    if a == app.id {
      RemembersCreated(app, actor);
      assert es == [CreatedRow(app, actor)];
    } else {
      assert Remembers(born[a], EventsOf(db.events, a), history[a]);
      assert es == EventsOf(db.events, a);
    }
  }

  lemma InsertedRemembers(db: Database, born: map<Uuid, map<string, Value>>, history: map<Uuid, seq<App>>, app: App,
                          actor: string)
    requires Insertable(db, app)
    ensures AllRemembered(db, born, history) ==>
      AllRemembered(Inserted(db, app, actor), born[app.id := app.metadata], history[app.id := [app]])
  {
    hide Remembers;
    if AllRemembered(db, born, history) {
      var after := Inserted(db, app, actor);
      forall a | a in after.apps
        ensures Remembers(born[app.id := app.metadata][a], EventsOf(after.events, a), history[app.id := [app]][a])
      {
        InsertedRemembersOne(db, born, history, app, actor, a);
      }
    }
  }

  lemma InsertedKeepsAll(db: Database, born: map<Uuid, map<string, Value>>, deployed: map<Uuid, App>,
                         history: map<Uuid, seq<App>>, app: App, actor: string)
    requires Insertable(db, app)
    ensures var after, known := Inserted(db, app, actor), born[app.id := app.metadata];
      && after.apps == db.apps[app.id := app]
      && Shape(after) && Grows(db, after)
      && (AllInStep(db, born) ==> AllInStep(after, known))
      && (AllRemembered(db, born, history) ==> AllRemembered(after, known, history[app.id := [app]]))
      && (AllReconstruct(db, born, deployed) ==> AllReconstruct(after, known, deployed))
  {
    hide Shape, AllInStep, AllReconstruct, AllRemembered, Grows;
    InsertedShape(db, app, actor);
    InsertedInStep(db, born, app, actor);
    InsertedRemembers(db, born, history, app, actor);
    InsertedReconstructs(db, born, deployed, app, actor);
    AppendedGrows(db, Inserted(db, app, actor));
  }

  /** The failing family of `InStepAfter` at work: a new app and a transaction that mutates nothing,
      at any other time. */
  lemma EmptyTransactionDiverges(app: App, actor: string, now: Time)
    requires Insertable(Database(map[], [], map[]), app) && now != app.updatedAt
    ensures var db := Inserted(Database(map[], [], map[]), app, actor);
      && InStep(db, map[app.id := app.metadata], app.id)
      && !InStep(Transacted(db, app.id, [], actor, now), map[app.id := app.metadata], app.id)
  {
    var empty := Database(map[], [], map[]);
    InsertedShape(empty, app, actor);
    InsertedInStep(empty, map[], app, actor);
    assert map[][app.id := app.metadata] == map[app.id := app.metadata];
    InStepAfter(Inserted(empty, app, actor), map[app.id := app.metadata], app.id, [], actor, now);
  }

  /** ... and of `RowEqualsFold`: a new app with one metadata key. */
  lemma InitialMetadataDiverges(app: App, actor: string, key: string, value: Value)
    requires Insertable(Database(map[], [], map[]), app) && app.metadata == map[key := value]
    ensures var es := EventsOf(Inserted(Database(map[], [], map[]), app, actor).events, app.id);
      FoldFrom(app.metadata, es) == Some(app) && FoldFrom(map[], es) != Some(app)
  {
    var empty := Database(map[], [], map[]);
    var es := EventsOf(Inserted(empty, app, actor).events, app.id);
    InsertedInStep(empty, map[], app, actor);
    InsertedLogs(empty, app, actor, app.id);
    assert EventsOf(empty.events, app.id) == [];
    assert es == [CreatedRow(app, actor)] && es[1..] == [];
    assert InStep(Inserted(empty, app, actor), map[][app.id := app.metadata], app.id);
    RowEqualsFold(app.metadata, es, app);
    assert key in app.metadata && !Touched(es[1..], key);
  }

  lemma InsertedReconstructs(db: Database, born: map<Uuid, map<string, Value>>, deployed: map<Uuid, App>, app: App,
                             actor: string)
    requires Insertable(db, app)
    ensures AllReconstruct(db, born, deployed) ==>
      AllReconstruct(Inserted(db, app, actor), born[app.id := app.metadata], deployed)
  {
    if AllReconstruct(db, born, deployed) {
      var after, known := Inserted(db, app, actor), born[app.id := app.metadata];
      forall d | d in db.deployments ensures Reconstructs(after, known, db.deployments[d], deployed[d]) {
        var dep := db.deployments[d];
        assert Reconstructs(db, born, dep, deployed[d]);
        InsertedLogs(db, app, actor, dep.appId);
        assert Reconstructs(db, known, dep, deployed[d]);
        ReconstructsLater(db, after, known, dep, deployed[d]);
      }
    }
  }

  lemma SameTablesKeep(db: Database, after: Database, born: map<Uuid, map<string, Value>>,
                       history: map<Uuid, seq<App>>)
    requires after.apps == db.apps && after.events == db.events
    ensures Shape(db) ==> Shape(after)
    ensures AllInStep(db, born) ==> AllInStep(after, born)
    ensures AllRemembered(db, born, history) ==> AllRemembered(after, born, history)
  {
    if Shape(db) {
      forall id | id in after.apps ensures RowShape(after, id) {
        assert RowShape(db, id);
      }
    }
    if AllInStep(db, born) {
      forall id | id in after.apps ensures InStep(after, born, id) {
        assert InStep(db, born, id);
      }
    }
  }

  /** What is deployed is the row as it stands. */
  lemma DeployedNow(db: Database, born: map<Uuid, map<string, Value>>, dep: Deployment)
    requires dep.appId in db.apps && RowShape(db, dep.appId)
    requires dep.appId in born && InStep(db, born, dep.appId)
    requires dep.appEventSeq == |EventsOf(db.events, dep.appId)| - 1
    ensures Reconstructs(db, born, dep, db.apps[dep.appId])
  {
    var es := EventsOf(db.events, dep.appId);
    assert es[..|es|] == es;
  }

  lemma SameTables(db: Database, after: Database, born: map<Uuid, map<string, Value>>, dep: Deployment,
                   dep1: Deployment, deployed: App)
    requires Reconstructs(db, born, dep, deployed)
    requires after.apps == db.apps && after.events == db.events
    requires dep1.appId == dep.appId && dep1.appEventSeq == dep.appEventSeq
    ensures Reconstructs(after, born, dep1, deployed)
  {
  }

  lemma DeployedReconstructs(db: Database, born: map<Uuid, map<string, Value>>, deployed: map<Uuid, App>,
                             dep: Deployment)
    requires Shape(db) && dep.appId in db.apps
    requires dep.appEventSeq == |EventsOf(db.events, dep.appId)| - 1
    ensures AllInStep(db, born) && AllReconstruct(db, born, deployed) ==>
      AllReconstruct(db.(deployments := db.deployments[dep.id := dep]), born,
                     deployed[dep.id := db.apps[dep.appId]])
  {
    hide InStep, Reconstructs;
    if AllInStep(db, born) && AllReconstruct(db, born, deployed) {
      assert RowShape(db, dep.appId) && InStep(db, born, dep.appId);
      var after := db.(deployments := db.deployments[dep.id := dep]);
      var rows := deployed[dep.id := db.apps[dep.appId]];
      forall d | d in after.deployments ensures Reconstructs(after, born, after.deployments[d], rows[d]) {
        if d == dep.id {
          DeployedNow(db, born, dep);
          SameTables(db, after, born, dep, dep, db.apps[dep.appId]);
        } else {
          SameTables(db, after, born, db.deployments[d], db.deployments[d], deployed[d]);
        }
      }
    }
  }

  lemma StateReconstructs(db: Database, born: map<Uuid, map<string, Value>>, deployed: map<Uuid, App>, id: Uuid,
                          dep: Deployment)
    requires id in db.deployments
    requires dep == db.deployments[id].(state := dep.state, promotedAt := dep.promotedAt)
    ensures AllReconstruct(db, born, deployed) ==>
      AllReconstruct(db.(deployments := db.deployments[id := dep]), born, deployed)
  {
    if AllReconstruct(db, born, deployed) {
      var after := db.(deployments := db.deployments[id := dep]);
      hide Reconstructs;
      forall d | d in after.deployments ensures Reconstructs(after, born, after.deployments[d], deployed[d]) {
        SameTables(db, after, born, db.deployments[d], after.deployments[d], deployed[d]);
      }
    }
  }
}
