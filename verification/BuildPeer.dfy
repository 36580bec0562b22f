/** The peer that owns every planner, and the ledger store behind it. */
module BuildPeer {
  import opened Prelude
  import opened BuildPlanner
  import opened Sorting
  import opened Snapshot

  datatype Event =
    | BuildStarted(buildId: Uuid, projectId: string, releasedSkill: string)
    | Decided(buildId: Uuid, projectId: string, decision: Decision)

  datatype PeerError = BuildNotFound(buildId: Uuid) | Planner(error: PlannerError) | SaveFailed | PublishFailed

  const BUILD_ID: Ledger -> Uuid := (l: Ledger) => l.buildId

  /** Most recently updated first. */
  const NEWEST_FIRST: (Ledger, Ledger) -> bool := (a: Ledger, b: Ledger) => a.updatedAt >= b.updatedAt

  lemma EmptyTable(planners: map<Uuid, Ledger>)
    ensures planners + TableOf([], BUILD_ID) == planners
  {
    var empty: map<Uuid, Ledger> := map[];
    assert TableOf([], BUILD_ID) == empty && planners + empty == planners;
  }

  lemma TableNext(ledgers: seq<Ledger>, i: nat)
    requires i < |ledgers|
    ensures TableOf(ledgers[..i + 1], BUILD_ID) == TableOf(ledgers[..i], BUILD_ID)[ledgers[i].buildId := ledgers[i]]
  {
    assert ledgers[..i + 1][..i] == ledgers[..i];
  }

  lemma AddOne(a: map<Uuid, Ledger>, b: map<Uuid, Ledger>, l: Ledger)
    ensures (a + b)[l.buildId := l] == a + b[l.buildId := l]
  {
  }

  function WithLedger(store: Option<map<Uuid, Ledger>>, ledger: Ledger): Option<map<Uuid, Ledger>> {
    if store.Some? then Some(store.value[ledger.buildId := ledger]) else None
  }

  class BuildPlannerPeer {
    var planners: map<Uuid, Ledger>
    var store: Option<map<Uuid, Ledger>>      // what is saved, if a store is attached
    var published: seq<Event>
    ghost var unsaved: set<Uuid>              // builds whose last change did not reach the store

    ghost predicate Valid()
      reads this
    {
      && OwnKeys(planners, BUILD_ID)
      && (forall id :: id in planners && id !in unsaved ==> Saved(id))
    }

    ghost predicate Saved(id: Uuid)
      requires id in planners
      reads `planners, `store
    {
      store.Some? ==> id in store.value && store.value[id] == planners[id]
    }

    ghost predicate AllWellKept()
      reads `planners
    {
      forall id :: id in planners ==> WellKept(planners[id])
    }

    constructor (store: Option<map<Uuid, Ledger>>, ledgers: seq<Ledger>)
      ensures Valid() && this.store == store && published == []
      ensures planners == TableOf(ledgers, BUILD_ID)
    {
      this.store, published, planners := store, [], map[];
      unsaved := {};
      new;
      Hydrate(ledgers);
    }

    method Hydrate(ledgers: seq<Ledger>)
      requires Valid()
      modifies `planners, `unsaved
      ensures Valid()
      ensures planners == old(planners) + TableOf(ledgers, BUILD_ID)
    {
      hide TableOf;
      EmptyTable(planners);
      assert ledgers[..0] == [];
      var i := 0;
      while i < |ledgers|
        invariant 0 <= i <= |ledgers|
        invariant Valid()
        invariant planners == old(planners) + TableOf(ledgers[..i], BUILD_ID)
      {
        TableNext(ledgers, i);
        AddOne(old(planners), TableOf(ledgers[..i], BUILD_ID), ledgers[i]);
        planners := planners[ledgers[i].buildId := ledgers[i]];
        unsaved := unsaved + {ledgers[i].buildId};
        i := i + 1;
      }
      assert ledgers[..i] == ledgers;
    }

    method LedgersSnapshot() returns (r: seq<Ledger>)
      requires Valid()
      ensures ListsAll(r, planners, BUILD_ID) && Sorted(NEWEST_FIRST, r)
      ensures forall i, j :: 0 <= i < j < |r| ==> r[i].updatedAt >= r[j].updatedAt
    {
      r := ValuesOf(planners, BUILD_ID);
      SortedListsAll(NEWEST_FIRST, r, planners, BUILD_ID);
      SortSorts(NEWEST_FIRST, r);
      r := Sort(NEWEST_FIRST, r);
    }

    /** Nothing to do without a store. */
    method SaveLedger(ledger: Ledger, saves: bool) returns (saved: bool)
      modifies `store
      ensures saved == (old(store).None? || saves)
      ensures store == if saved then WithLedger(old(store), ledger) else old(store)
    {
      if store.Some? {
        if !saves {
          return false;
        }
        store := Some(store.value[ledger.buildId := ledger]);
      }
      return true;
    }

    /** Save first, then keep: a failed save leaves the new build nowhere. */
    method StartBuild(projectId: string, buildId: Uuid, now: Time, saves: bool, publishes: bool)
      returns (r: Result<Uuid, PeerError>)
      requires Valid()
      modifies this
      ensures Valid()
      ensures old(store).Some? && !saves ==>
        r == Err(SaveFailed) && planners == old(planners) && store == old(store) && published == old(published)
      ensures old(store).None? || saves ==>
        && planners == old(planners)[buildId := NewLedger(buildId, projectId, now)]
        && Saved(buildId) && store == WithLedger(old(store), planners[buildId])
        && unsaved == old(unsaved) - {buildId}
        && r == (if publishes then Ok(buildId) else Err(PublishFailed))
        && published ==
             old(published) + (if publishes then [BuildStarted(buildId, projectId, Intake.SkillId())] else [])
      ensures old(AllWellKept()) ==> AllWellKept()
    {
      var ledger := NewLedger(buildId, projectId, now);
      var saved := SaveLedger(ledger, saves);
      if !saved {
        return Err(SaveFailed);
      }
      planners := planners[buildId := ledger];
      unsaved := unsaved - {buildId};
      if !publishes {
        return Err(PublishFailed);
      }
      published := published + [BuildStarted(buildId, projectId, ledger.currentStep.SkillId())];
      return Ok(buildId);
    }

    /** Keeps a changed ledger, then saves it; a failed save leaves memory ahead of the store. */
    method Keep(ledger: Ledger, saves: bool) returns (saved: bool)
      requires Valid()
      modifies `planners, `unsaved, `store
      ensures Valid()
      ensures planners == old(planners)[ledger.buildId := ledger]
      ensures saved == (old(store).None? || saves)
      ensures store == if saved then WithLedger(old(store), ledger) else old(store)
      ensures unsaved == if saved then old(unsaved) - {ledger.buildId} else old(unsaved) + {ledger.buildId}
      ensures saved ==> Saved(ledger.buildId)
    {
      planners := planners[ledger.buildId := ledger];
      unsaved := unsaved + {ledger.buildId};
      saved := SaveLedger(ledger, saves);
      if saved {
        unsaved := unsaved - {ledger.buildId};
      }
    }

    /** Change, then save, then publish. A failed save leaves memory ahead of the store until the
        next change of the same build is saved; every success leaves them equal. */
    method HandleGateResult(result: GateResult, now: Time, saves: bool, publishes: bool)
      returns (r: Result<Decision, PeerError>)
      requires Valid()
      modifies this
      ensures Valid()
      ensures old(AllWellKept()) ==> AllWellKept()
      ensures result.buildId !in old(planners) ==> r == Err(BuildNotFound(result.buildId)) && unchanged(this)
      ensures result.buildId in old(planners) ==>
        var judged := Judge(old(planners)[result.buildId], result);
        && (judged.Err? ==> r == Err(Planner(judged.error)) && unchanged(this))
        && (judged.Ok? ==>
             && planners == old(planners)[result.buildId := After(old(planners)[result.buildId], result, now)]
             && (r == Err(SaveFailed) <==> store.Some? && !saves)
             && (if r == Err(SaveFailed)
                 then store == old(store) && unsaved == old(unsaved) + {result.buildId}
                 else unsaved == old(unsaved) - {result.buildId} && Saved(result.buildId)
                      && store == WithLedger(old(store), planners[result.buildId])
                      && r == (if publishes then Ok(judged.value) else Err(PublishFailed))))
      ensures r.Err? ==> published == old(published)
      ensures r.Ok? ==>
        published == old(published) + [Decided(result.buildId, old(planners)[result.buildId].projectId, r.value)]
    {
      var id := result.buildId;
      if id !in planners {
        return Err(BuildNotFound(id));
      }
      hide Judge, After, WellKept, WithLedger, Saved;
      KeptAfter(planners[id], result, now);
      SameBuild(planners[id], result, now);
      var planner := new BuildPlanner(planners[id]);
      var decision := planner.HandleGateResult(result, now);
      if decision.Err? {
        return Err(Planner(decision.error));
      }
      var saved := Keep(planner.ledger, saves);
      if !saved {
        return Err(SaveFailed);
      }
      if !publishes {
        return Err(PublishFailed);
      }
      published := published + [Decided(id, planner.ledger.projectId, decision.value)];
      return Ok(decision.value);
    }
  }

  lemma KeptAfter(l: Ledger, result: GateResult, now: Time)
    ensures WellKept(l) ==> WellKept(After(l, result, now))
  {
    if WellKept(l) {
      StepKeeps(l, result, now);
    }
  }

  lemma SameBuild(l: Ledger, result: GateResult, now: Time)
    ensures After(l, result, now).buildId == l.buildId && After(l, result, now).projectId == l.projectId
  {
  }

  /** A peer hydrated from another peer's snapshot holds the same ledgers. */
  method Rehydrate(peer: BuildPlannerPeer, store: Option<map<Uuid, Ledger>>) returns (again: BuildPlannerPeer)
    requires peer.Valid()
    ensures fresh(again) && again.Valid() && again.planners == peer.planners
  {
    var ledgers := peer.LedgersSnapshot();
    SnapshotRestores(ledgers, peer.planners, BUILD_ID);
    again := new BuildPlannerPeer(store, ledgers);
  }
}
