/** The orchestrator itself: four maps and a log, updated in place. */
module Orchestrator {
  import opened Prelude
  import opened Intents
  import opened Scheduler
  import opened Automation
  import opened Sorting
  import opened Snapshot

  /** A job exists for exactly the enabled specs that may have one. */
  ghost predicate JobsExact(t: Tables) {
    forall a :: a in t.specs ==> (a in t.jobOf <==> t.specs[a].enabled && t.specs[a].Cleared())
  }

  class AutomationOrchestrator {
    var specs: map<Uuid, Spec>
    var jobsByAutomation: map<Uuid, Uuid>
    var automationsByJob: map<Uuid, Uuid>
    const scheduler: JobScheduler
    var eventLog: seq<AutomationEvent>

    ghost function State(): Tables
      reads this, scheduler
    {
      Tables(specs, jobsByAutomation, automationsByJob, scheduler.jobs, eventLog)
    }

    ghost predicate Valid()
      reads this, scheduler
    {
      Consistent(State())
    }

    constructor ()
      ensures Valid() && fresh(scheduler)
      ensures State() == Tables(map[], map[], map[], map[], [])
    {
      specs, jobsByAutomation, automationsByJob, eventLog := map[], map[], map[], [];
      scheduler := new JobScheduler();
    }

    /** Fresh job ids come from the caller, as if drawn from the random generator. */
    method Register(spec: Spec, jobId: Uuid) returns (r: Result<seq<AutomationEvent>, AutomationError>)
      requires Valid() && jobId !in scheduler.jobs
      modifies this, scheduler
      ensures Valid()
      ensures r.Err? ==> State() == old(State())
      ensures SpecProblem(spec).Some? ==> r == Err(Validation(SpecProblem(spec).value))
      ensures SpecProblem(spec).None? && spec.id in old(specs) ==> r == Err(AlreadyExists)
      ensures SpecProblem(spec).None? && spec.id !in old(specs) ==>
        && r.Ok?
        && var before := old(State());
        && State() == (if spec.Cleared() then WithJob(before.(specs := before.specs[spec.id := spec]), spec, jobId)
                       else Parked(before, spec))
        && eventLog == old(eventLog) + r.value
    {
      hide Consistent, SpecProblem, Tasks, JobFor;
      var problem := SpecProblem(spec);
      if problem.Some? {
        return Err(Validation(problem.value));
      }
      if spec.id in specs {
        return Err(AlreadyExists);
      }
      ghost var before := State();
      if !spec.Cleared() {
        var event := ApprovalRequired(spec.id, Risk(spec.intent));
        ParkedConsistent(before, spec);
        eventLog := eventLog + [event];
        specs := specs[spec.id := spec];
        return Ok([event]);
      }
      NoJobYet(before, spec.id);
      SpecWritten(before, spec);
      WithJobConsistent(before.(specs := before.specs[spec.id := spec]), spec, jobId);
      var events := RegisterJobForSpec(spec, jobId);
      specs := specs[spec.id := spec];
      return Ok(events);
    }

    method RegisterJobForSpec(spec: Spec, jobId: Uuid) returns (events: seq<AutomationEvent>)
      modifies `jobsByAutomation, `automationsByJob, `eventLog, scheduler
      ensures State() == WithJob(old(State()), spec, jobId)
      ensures events == [Registered(spec.id, spec.name)]
    {
      hide Tasks, JobFor;
      var event := Registered(spec.id, spec.name);
      if !spec.enabled {
        eventLog := eventLog + [event];
        return [event];
      }
      if spec.id in jobsByAutomation {
        var existing := jobsByAutomation[spec.id];
        jobsByAutomation := jobsByAutomation - {spec.id};
        automationsByJob := automationsByJob - {existing};
        scheduler.Remove(existing);
      }
      JobForStatus(spec, jobId);
      scheduler.Register(JobFor(spec, jobId), Tasks(spec.intent, spec.approval));
      jobsByAutomation := jobsByAutomation[spec.id := jobId];
      automationsByJob := automationsByJob[jobId := spec.id];
      eventLog := eventLog + [event];
      return [event];
    }

    method Approve(a: Uuid, jobId: Uuid, now: Time) returns (r: Result<seq<AutomationEvent>, AutomationError>)
      requires Valid() && jobId !in scheduler.jobs
      modifies this, scheduler
      ensures Valid()
      ensures a !in old(specs) ==> r == Err(NotFound) && State() == old(State())
      ensures a in old(specs) ==>
        && r.Ok?
        && var before := old(State());
        && var spec := Approval(before.specs[a], now);
        && State() == WithJob(before.(specs := before.specs[a := spec]), spec, jobId)
        && eventLog == old(eventLog) + r.value
    {
      if a !in specs {
        return Err(NotFound);
      }
      ghost var before := State();
      var spec := Approval(specs[a], now);
      assert SpecOk(before.specs, a);
      ApprovalKeepsWork(specs[a], now);
      hide Consistent, SpecProblem, Tasks, JobFor, Approval;
      SpecWritten(before, spec);
      WithJobConsistent(before.(specs := before.specs[a := spec]), spec, jobId);
      specs := specs[a := spec];
      var events := RegisterJobForSpec(spec, jobId);
      return Ok(events);
    }

    method Switch(a: Uuid, on: bool, now: Time) returns (r: Result<AutomationEvent, AutomationError>)
      requires Valid()
      modifies this, scheduler
      ensures Valid()
      ensures a !in old(specs) ==> r == Err(NotFound) && State() == old(State())
      ensures a in old(specs) ==>
        r == Ok(if on then SwitchedOn(a) else SwitchedOff(a)) && State() == Switched(old(State()), a, on, now)
    {
      hide Consistent;
      if a !in specs {
        return Err(NotFound);
      }
      SwitchedConsistent(State(), a, on, now);
      specs := specs[a := specs[a].(enabled := on, updatedAt := now)];
      if a in jobsByAutomation {
        scheduler.SetStatus(jobsByAutomation[a], if on then Enabled else Disabled);
      }
      var event := if on then SwitchedOn(a) else SwitchedOff(a);
      eventLog := eventLog + [event];
      return Ok(event);
    }

    method Enable(a: Uuid, now: Time) returns (r: Result<AutomationEvent, AutomationError>)
      requires Valid()
      modifies this, scheduler
      ensures Valid()
      ensures r == (if a in old(specs) then Ok(SwitchedOn(a)) else Err(NotFound))
      ensures State() == if a in old(specs) then Switched(old(State()), a, true, now) else old(State())
    {
      r := Switch(a, true, now);
    }

    method Disable(a: Uuid, now: Time) returns (r: Result<AutomationEvent, AutomationError>)
      requires Valid()
      modifies this, scheduler
      ensures Valid()
      ensures r == (if a in old(specs) then Ok(SwitchedOff(a)) else Err(NotFound))
      ensures State() == if a in old(specs) then Switched(old(State()), a, false, now) else old(State())
    {
      r := Switch(a, false, now);
    }

    method Delete(a: Uuid) returns (r: Result<AutomationEvent, AutomationError>)
      requires Valid()
      modifies this, scheduler
      ensures Valid()
      ensures r == (if a in old(specs) then Ok(Deleted(a)) else Err(NotFound))
      ensures State() == if a in old(specs) then Removed(old(State()), a) else old(State())
    {
      hide Consistent;
      if a !in specs {
        return Err(NotFound);
      }
      RemovedConsistent(State(), a);
      specs := specs - {a};
      if a in jobsByAutomation {
        var jobId := jobsByAutomation[a];
        jobsByAutomation := jobsByAutomation - {a};
        automationsByJob := automationsByJob - {jobId};
        scheduler.Remove(jobId);
      }
      var event := Deleted(a);
      eventLog := eventLog + [event];
      return Ok(event);
    }

    /** `translate_job_event` for every job event, logged as it goes. */
    method Announce(fired: seq<Job>) returns (events: seq<AutomationEvent>)
      modifies `eventLog
      ensures events == TranslateAll(old(State()), fired)
      ensures eventLog == old(eventLog) + events
    {
      ghost var before := State();
      events := [];
      var i := 0;
      while i < |fired|
        invariant 0 <= i <= |fired|
        invariant events == TranslateAll(before, fired[..i])
        invariant eventLog == before.log + events
      {
        assert fired[..i + 1][..i] == fired[..i];
        var id := fired[i].id;
        if id in automationsByJob && automationsByJob[id] in specs {
          var event := Triggered(automationsByJob[id], id, specs[automationsByJob[id]].intent);
          eventLog := eventLog + [event];
          events := events + [event];
        }
        i := i + 1;
      }
      assert fired[..i] == fired;
    }

    /** `tick` and `fire_event`: run the scheduler, translate and log what it fired. */
    method Dispatch(cause: Cause) returns (events: seq<AutomationEvent>)
      requires Valid()
      modifies `eventLog, scheduler
      ensures Valid()
      ensures exists fired :: DispatchedAs(old(State()), State(), cause, fired, events)
    {
      hide Consistent, FireAll, DueIds, TranslateAll, Announces;
      ghost var before := State();
      forall j | j in scheduler.jobs ensures scheduler.jobs[j].job.id == j {
        JobHasOwnId(before, j);
      }
      var fired := scheduler.Run(cause);
      events := Announce(fired);
      TranslateIgnoresStatus(before, before.(jobs := scheduler.jobs), fired);
      FiredConsistent(before, cause, fired);
      assert DispatchedAs(before, State(), cause, fired, events);
    }

    /** All specs, sorted by name, out of a map with no order. */
    method SpecsSnapshot() returns (r: seq<Spec>)
      requires Valid()
      ensures ListsAll(r, specs, ID) && Sorted(BY_NAME, r)
      ensures forall i, j :: 0 <= i < j < |r| ==> StringLe(r[i].name, r[j].name)
    {
      assert forall a :: a in specs ==> SpecOk(specs, a);
      r := ValuesOf(specs, ID);
      NameOrder();
      SortSorts(BY_NAME, r);
      SortedListsAll(BY_NAME, r, specs, ID);
      r := Sort(BY_NAME, r);
    }
  }

  lemma {:induction false} TranslateIgnoresStatus(t: Tables, u: Tables, jobs: seq<Job>)
    requires t.ownerOf == u.ownerOf && t.specs == u.specs
    ensures TranslateAll(t, jobs) == TranslateAll(u, jobs)
    decreases |jobs|
  {
    if jobs != [] {
      TranslateIgnoresStatus(t, u, jobs[..|jobs| - 1]);
    }
  }

  lemma JobHasOwnId(t: Tables, j: Uuid)
    requires Consistent(t) && j in t.jobs
    ensures t.jobs[j].job.id == j
  {
    assert JobOk(t.specs, t.jobs, t.ownerOf[j], t.jobOf[t.ownerOf[j]]);
  }

  function Approval(spec: Spec, now: Time): Spec {
    spec.(metadata := spec.metadata["approved" := "true"], updatedAt := now)
  }

  lemma ApprovalKeepsWork(spec: Spec, now: Time)
    ensures var after := Approval(spec, now);
      && after.id == spec.id && after.Cleared() && SameWork(spec, after) && SpecProblem(after) == SpecProblem(spec)
      && after.updatedAt == now && after.metadata.Keys == spec.metadata.Keys + {"approved"}
      && (forall key :: key in spec.metadata && key != "approved" ==> after.metadata[key] == spec.metadata[key])
  {
  }

  /** One firing round: the due jobs run, each of them once, and their automations are announced in
      that order. */
  ghost predicate DispatchedAs(before: Tables, after: Tables, cause: Cause, fired: seq<Job>,
                               events: seq<AutomationEvent>) {
    && Announces(fired, FireAll(before.jobs, cause), DueIds(before.jobs, cause))
    && after == Fired(before, cause, fired)
    && events == TranslateAll(before, fired)
  }

  // ---- Snapshot and reload ---------------------------------------------------------------------

  const ID: Spec -> Uuid := (s: Spec) => s.id

  const BY_NAME: (Spec, Spec) -> bool := (a: Spec, b: Spec) => StringLe(a.name, b.name)

  lemma NameOrder()
    ensures TotalPreorder(BY_NAME)
  {
    forall a, b ensures BY_NAME(a, b) || BY_NAME(b, a) {
      StringTotal(a.name, b.name);
    }
    forall a, b, c | BY_NAME(a, b) && BY_NAME(b, c) ensures BY_NAME(a, c) {
      StringTransitive(a.name, b.name, c.name);
    }
  }

  predicate Loadable(list: seq<Spec>) {
    && (forall i :: 0 <= i < |list| ==> SpecProblem(list[i]) == None)
    && (forall i, j :: 0 <= i < j < |list| ==> list[i].id != list[j].id)
  }

  lemma RegisteredExact(t: Tables, spec: Spec, jobId: Uuid)
    requires Consistent(t) && JobsExact(t) && spec.id !in t.specs
    ensures JobsExact(Parked(t, spec)) || spec.Cleared()
    ensures spec.Cleared() ==> JobsExact(WithJob(t.(specs := t.specs[spec.id := spec]), spec, jobId))
  {
    hide Consistent;
    NoJobYet(t, spec.id);
  }

  /** What a load has done with the first specs of its list. */
  ghost predicate Loaded(t: Tables, list: seq<Spec>) {
    t.specs == TableOf(list, ID) && JobsExact(t)
  }

  lemma LoadedNext(t: Tables, list: seq<Spec>, spec: Spec, jobId: Uuid)
    requires Consistent(t) && Loaded(t, list) && spec.id !in t.specs
    ensures !spec.Cleared() ==> Loaded(Parked(t, spec), list + [spec])
    ensures spec.Cleared() ==> Loaded(WithJob(t.(specs := t.specs[spec.id := spec]), spec, jobId), list + [spec])
  {
    hide Consistent, JobsExact;
    assert (list + [spec])[..|list|] == list;
    RegisteredExact(t, spec, jobId);
  }

  /** Fresh job ids, as drawn from the random generator: none comes twice. */
  ghost predicate Fresh(jobIds: nat -> Uuid) {
    forall i, j :: i != j ==> jobIds(i) != jobIds(j)
  }

  /** Why `spec` cannot be registered after `earlier`. */
  function RegisterProblem(earlier: seq<Spec>, spec: Spec): Option<AutomationError> {
    match SpecProblem(spec)
    case Some(problem) => Some(Validation(problem))
    case None => if exists k :: 0 <= k < |earlier| && earlier[k].id == spec.id then Some(AlreadyExists) else None
  }

  /** What is wrong with the first spec of a list that cannot be registered. */
  function LoadProblem(list: seq<Spec>): Option<AutomationError> {
    if list == [] then None
    else
      var n := |list| - 1;
      var problem := LoadProblem(list[..n]);
      if problem.Some? then problem else RegisterProblem(list[..n], list[n])
  }

  lemma {:induction false} ProblemStays(list: seq<Spec>, i: nat)
    requires i <= |list| && LoadProblem(list[..i]).Some?
    ensures LoadProblem(list) == LoadProblem(list[..i])
    decreases |list|
  {
    if i < |list| {
      assert list[..|list| - 1][..i] == list[..i];
      ProblemStays(list[..|list| - 1], i);
    } else {
      assert list[..i] == list;
    }
  }

  /** A list can be loaded exactly if it has no such problem. */
  lemma {:induction false} LoadableIff(list: seq<Spec>)
    ensures LoadProblem(list) == None <==> Loadable(list)
    decreases |list|
  {
    if list != [] {
      hide SpecProblem;
      var n := |list| - 1;
      LoadableIff(list[..n]);
      if Loadable(list[..n]) && RegisterProblem(list[..n], list[n]) == None {
        forall i, j | 0 <= i < j < |list| ensures list[i].id != list[j].id {
          assert list[..n][i] == list[i];
        }
      }
      assert forall i :: 0 <= i < n ==> list[..n][i] == list[i];
    }
  }

  lemma ProblemHere(list: seq<Spec>, i: nat, error: AutomationError)
    requires i < |list| && Loadable(list[..i])
    requires match SpecProblem(list[i])
             case Some(problem) => error == Validation(problem)
             case None => error == AlreadyExists && list[i].id in TableOf(list[..i], ID)
    ensures LoadProblem(list) == Some(error)
  {
    LoadableIff(list[..i]);
    if SpecProblem(list[i]).None? {
      TableFrom(list[..i], ID, list[i].id);
    }
    hide SpecProblem, TableOf;
    assert list[..i + 1][..i] == list[..i];
    ProblemStays(list, i + 1);
  }

  /** Registers the specs one by one; the first error ends the load. */
  method FromSpecs(list: seq<Spec>, jobIds: nat -> Uuid) returns (r: Result<AutomationOrchestrator, AutomationError>)
    requires Fresh(jobIds)
    ensures r.Ok? <==> Loadable(list)
    ensures r.Err? ==> LoadProblem(list) == Some(r.error)
    ensures r.Ok? ==> fresh(r.value) && fresh(r.value.scheduler) && r.value.Valid()
    ensures r.Ok? ==> Loaded(r.value.State(), list)
  {
    var o := new AutomationOrchestrator();
    var i := 0;
    while i < |list|
      invariant 0 <= i <= |list| && fresh(o) && fresh(o.scheduler)
      invariant o.Valid() && Loaded(o.State(), list[..i])
      invariant Loadable(list[..i])
      invariant forall k :: k >= i ==> jobIds(k) !in o.scheduler.jobs
    {
      hide Consistent, SpecProblem, JobsExact, TableOf, WithJob, Parked, LoadProblem;
      var spec := list[i];
      ghost var before := o.State();
      assert list[..i + 1] == list[..i] + [spec];
      var registered := o.Register(spec, jobIds(i));
      if registered.Err? {
        ProblemHere(list, i, registered.error);
        LoadableIff(list);
        return Err(registered.error);
      }
      LoadedNext(before, list[..i], spec, jobIds(i));
      JobsAfter(before, spec, jobIds(i));
      if !Loadable(list[..i + 1]) {
        NotLoadable(list[..i], spec);
      }
      i := i + 1;
    }
    assert list[..i] == list;
    return Ok(o);
  }

  lemma JobsAfter(t: Tables, spec: Spec, jobId: Uuid)
    ensures forall j :: j in WithJob(t.(specs := t.specs[spec.id := spec]), spec, jobId).jobs ==>
      j in t.jobs || j == jobId
    ensures Parked(t, spec).jobs == t.jobs
  {
  }

  lemma NotLoadable(list: seq<Spec>, spec: Spec)
    requires Loadable(list) && SpecProblem(spec) == None && spec.id !in TableOf(list, ID)
    ensures Loadable(list + [spec])
  {
    forall i | 0 <= i < |list| ensures list[i].id != spec.id {
      TableHas(list, ID, i);
    }
  }

  /** The text of the store file; printing and parsing lists of specs are parameters. */
  datatype SpecCodec = SpecCodec(encode: seq<Spec> -> string, decode: string -> Option<seq<Spec>>) {
    ghost predicate Lawful() {
      forall list :: decode(encode(list)) == Some(list) && encode(list) != ""
    }
  }

  datatype Stored = Missing | File(text: string)

  datatype StoreError = Io | Malformed | Rejected(error: AutomationError)

  /** What the file stands for: the defaults, if there is none or it is empty. */
  function Specified(codec: SpecCodec, stored: Stored, defaults: seq<Spec>): Option<seq<Spec>> {
    if stored.Missing? || stored.text == "" then Some(defaults) else codec.decode(stored.text)
  }

  method LoadOrSeed(codec: SpecCodec, stored: Stored, readable: bool, defaults: seq<Spec>, jobIds: nat -> Uuid)
    returns (r: Result<AutomationOrchestrator, StoreError>)
    requires Fresh(jobIds)
    ensures stored.File? && !readable ==> r == Err(Io)
    ensures stored.Missing? || readable ==>
      var list := Specified(codec, stored, defaults);
      && (list.None? ==> r == Err(Malformed))
      && (list.Some? && !Loadable(list.value) ==>
           LoadProblem(list.value).Some? && r == Err(Rejected(LoadProblem(list.value).value)))
      && (list.Some? && Loadable(list.value) ==> r.Ok?)
      && (r.Ok? ==> fresh(r.value) && fresh(r.value.scheduler) && r.value.Valid()
                    && Loaded(r.value.State(), list.value))
  {
    hide Consistent, TableOf, JobsExact, LoadProblem, Loadable;
    var list := defaults;
    if stored.File? && !readable {
      return Err(Io);
    }
    if stored.File? && stored.text != "" {
      var decoded := codec.decode(stored.text);
      if decoded.None? {
        return Err(Malformed);
      }
      list := decoded.value;
    }
    var loaded := FromSpecs(list, jobIds);
    if loaded.Err? {
      return Err(Rejected(loaded.error));
    }
    return Ok(loaded.value);
  }

  method SaveToPath(o: AutomationOrchestrator, codec: SpecCodec, writable: bool)
    returns (r: Result<Stored, StoreError>, ghost list: seq<Spec>)
    requires o.Valid()
    ensures ListsAll(list, o.specs, ID) && Sorted(BY_NAME, list)
    ensures r == if writable then Ok(File(codec.encode(list))) else Err(Io)
  {
    var specs := o.SpecsSnapshot();
    r, list := if writable then Ok(File(codec.encode(specs))) else Err(Io), specs;
  }

  /** Saving and loading again: on a healthy file system it never fails, it restores every spec, and
      jobs exist for exactly the enabled specs that need no approval or have it. */
  method Reload(o: AutomationOrchestrator, codec: SpecCodec, defaults: seq<Spec>, jobIds: nat -> Uuid)
    returns (r: Result<AutomationOrchestrator, StoreError>)
    requires o.Valid() && codec.Lawful() && Fresh(jobIds)
    ensures r.Ok? && fresh(r.value) && r.value.Valid()
    ensures r.value.specs == o.specs && JobsExact(r.value.State())
  {
    var stored, list := SaveToPath(o, codec, true);
    SnapshotLoadable(list, o.State());
    SnapshotRestores(list, o.specs, ID);
    hide Consistent, TableOf, JobsExact;
    r := LoadOrSeed(codec, stored.value, true, defaults, jobIds);
  }

  lemma SnapshotLoadable(list: seq<Spec>, t: Tables)
    requires Consistent(t) && ListsAll(list, t.specs, ID)
    ensures Loadable(list)
  {
    forall i | 0 <= i < |list| ensures SpecProblem(list[i]) == None {
      assert SpecOk(t.specs, list[i].id);
    }
  }
}
