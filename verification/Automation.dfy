/** The automation orchestrator: specs, their jobs, and the log of what happened to them. */
module Automation {
  import opened Prelude
  import opened Intents
  import opened Scheduler

  datatype Trigger =
    | Manual
    | AtMoment(at: Time)
    | IntervalSeconds(seconds: nat)
    | Heartbeat(everySeconds: nat, jitterSeconds: nat, resumeThread: Option<string>)
    | Cron(expression: string, timezone: string)
    | EventTopic(topic: string)
    | Webhook(path: string)
    | LocalSignal(signal: string)

  datatype Spec = Spec(
    id: Uuid, name: string, description: string, enabled: bool, trigger: Trigger, intent: Intent,
    approval: ApprovalPolicy, createdAt: Time, updatedAt: Time, metadata: map<string, string>)
  {
    predicate RequiresApproval() { approval.RequiresFor(Risk(intent)) }

    predicate Approved() { "approved" in metadata && metadata["approved"] == "true" }

    /** May have a job. */
    predicate Cleared() { !RequiresApproval() || Approved() }
  }

  datatype AutomationError = Validation(problem: ValidationError) | AlreadyExists | NotFound

  datatype AutomationEvent =
    | Registered(automationId: Uuid, name: string)
    | SwitchedOn(automationId: Uuid)
    | SwitchedOff(automationId: Uuid)
    | Deleted(automationId: Uuid)
    | ApprovalRequired(automationId: Uuid, risk: RiskLevel)
    | Triggered(automationId: Uuid, jobId: Uuid, intent: Intent)

  // ---- Specs and their jobs ------------------------------------------------------------------

  function TriggerProblem(trigger: Trigger): Option<ValidationError> {
    match trigger
    case Manual => None
    case AtMoment(_) => None
    case IntervalSeconds(seconds) => if seconds > 0 then None else Some(EmptyInterval)
    case Heartbeat(every, _, _) => if every > 0 then None else Some(EmptyInterval)
    case Cron(expression, _) => if IsBlank(expression) then Some(EmptyCron) else None
    case EventTopic(topic) => if IsBlank(topic) then Some(EmptyEventTopic) else None
    case Webhook(path) => if IsBlank(path) then Some(EmptyWebhookPath) else None
    case LocalSignal(signal) => if IsBlank(signal) then Some(EmptyLocalSignal) else None
  }

  /** `validate_automation` */
  function SpecProblem(spec: Spec): Option<ValidationError> {
    if IsBlank(spec.name) then Some(MissingName)
    else if TriggerProblem(spec.trigger).Some? then TriggerProblem(spec.trigger)
    else Problem(spec.intent)
  }

  function JobTriggerFor(trigger: Trigger): JobTrigger {
    match trigger
    case Manual => OnEvent("automation.manual")
    case AtMoment(at) => AtTime(at)
    case IntervalSeconds(seconds) => Interval(seconds)
    case Heartbeat(every, _, _) => Interval(every)
    case Cron(expression, timezone) => Condition("cron:" + expression + "@" + timezone)
    case EventTopic(topic) => OnEvent(topic)
    case Webhook(path) => OnEvent("webhook:" + path)
    case LocalSignal(signal) => OnEvent("local:" + signal)
  }

  function JobTypeFor(trigger: Trigger): JobType {
    match trigger
    case Manual => OneShot
    case AtMoment(_) => OneShot
    case IntervalSeconds(_) => Recurring
    case Heartbeat(_, _, _) => Recurring
    case Cron(_, _) => Recurring
    case EventTopic(_) => EventDriven
    case Webhook(_) => EventDriven
    case LocalSignal(_) => EventDriven
  }

  function PolicyFor(risk: RiskLevel): PolicyLevel {
    match risk
    case SafeReadOnly => SafeReadOnlyPolicy
    case LocalRead => LocalReadPolicy
    case LocalWrite => LocalWritePolicy
    case NetworkRead => NetworkReadPolicy
    case NetworkWrite => NetworkWritePolicy
    case PeripheralMaintenance => RequiresApproval
    case CoreMutationDenied => RequiresApproval
  }

  function JobFor(spec: Spec, jobId: Uuid): Job {
    Job(jobId, spec.name, spec.description, JobTypeFor(spec.trigger), JobTriggerFor(spec.trigger), Enabled,
        PolicyFor(Risk(spec.intent)), None, 0)
  }

  // ---- The tables ---------------------------------------------------------------------------

  ghost predicate Inverse(jobOf: map<Uuid, Uuid>, ownerOf: map<Uuid, Uuid>) {
    && (forall a :: a in jobOf ==> jobOf[a] in ownerOf && ownerOf[jobOf[a]] == a)
    && (forall j :: j in ownerOf ==> ownerOf[j] in jobOf && jobOf[ownerOf[j]] == j)
  }

  ghost predicate SpecOk(specs: map<Uuid, Spec>, a: Uuid)
    requires a in specs
  {
    specs[a].id == a && SpecProblem(specs[a]) == None
  }

  /** The job is the one its spec calls for: disabled exactly when the spec is, and cleared. */
  ghost predicate JobOk(specs: map<Uuid, Spec>, jobs: map<Uuid, Entry>, a: Uuid, j: Uuid) {
    && a in specs && j in jobs
    && var (spec, entry) := (specs[a], jobs[j]);
    && entry.job == JobFor(spec, j).(status := entry.job.status)
    && entry.tasks == Tasks(spec.intent, spec.approval)
    && (entry.job.status == Disabled <==> !spec.enabled)
    && spec.Cleared()
  }

  /** How often an automation has fired since it was last armed by a registration or a switch-on. */
  function FiredSinceArmed(log: seq<AutomationEvent>, a: Uuid): nat {
    if log == [] then 0
    else
      var last := log[|log| - 1];
      if last == SwitchedOn(a) || (last.Registered? && last.automationId == a) then 0
      else FiredSinceArmed(log[..|log| - 1], a) + (if last.Triggered? && last.automationId == a then 1 else 0)
  }

  lemma FiredNext(log: seq<AutomationEvent>, e: AutomationEvent, a: Uuid)
    ensures FiredSinceArmed(log + [e], a)
         == if e == SwitchedOn(a) || (e.Registered? && e.automationId == a) then 0
            else FiredSinceArmed(log, a) + (if e.Triggered? && e.automationId == a then 1 else 0)
  {
    assert (log + [e])[..|log|] == log;
  }

  predicate Armed(jobOf: map<Uuid, Uuid>, jobs: map<Uuid, Entry>, a: Uuid) {
    a in jobOf && jobOf[a] in jobs && jobs[jobOf[a]].job.status == Enabled
  }

  /** At most one firing, and none while the job is still waiting. */
  ghost predicate FiredOk(log: seq<AutomationEvent>, jobOf: map<Uuid, Uuid>, jobs: map<Uuid, Entry>, a: Uuid) {
    FiredSinceArmed(log, a) <= (if Armed(jobOf, jobs, a) then 0 else 1)
  }

  datatype Tables = Tables(specs: map<Uuid, Spec>, jobOf: map<Uuid, Uuid>, ownerOf: map<Uuid, Uuid>,
                           jobs: map<Uuid, Entry>, log: seq<AutomationEvent>)

  ghost predicate LinksOk(t: Tables) { Inverse(t.jobOf, t.ownerOf) && t.ownerOf.Keys == t.jobs.Keys }

  ghost predicate SpecsOk(t: Tables) { forall a :: a in t.specs ==> SpecOk(t.specs, a) }

  ghost predicate JobsOk(t: Tables) { forall a :: a in t.jobOf ==> JobOk(t.specs, t.jobs, a, t.jobOf[a]) }

  ghost predicate LogOk(t: Tables) { forall a :: FiredOk(t.log, t.jobOf, t.jobs, a) }

  ghost predicate Consistent(t: Tables) { LinksOk(t) && SpecsOk(t) && JobsOk(t) && LogOk(t) }

  function Without(t: Tables, a: Uuid): Tables {
    if a !in t.jobOf then t
    else t.(jobOf := t.jobOf - {a}, ownerOf := t.ownerOf - {t.jobOf[a]}, jobs := t.jobs - {t.jobOf[a]})
  }

  /** The tables after `register_job_for_spec`. */
  function WithJob(t: Tables, spec: Spec, jobId: Uuid): Tables {
    var logged := t.log + [Registered(spec.id, spec.name)];
    if !spec.enabled then t.(log := logged)
    else
      var rest := Without(t, spec.id);
      rest.(jobOf := rest.jobOf[spec.id := jobId], ownerOf := rest.ownerOf[jobId := spec.id],
            jobs := rest.jobs[jobId := Entry(JobFor(spec, jobId), Tasks(spec.intent, spec.approval))],
            log := logged)
  }

  // ---- What each change keeps ------------------------------------------------------------------

  lemma WithJobLinks(t: Tables, spec: Spec, jobId: Uuid)
    requires LinksOk(t) && jobId !in t.jobs
    ensures LinksOk(WithJob(t, spec, jobId))
  {
  }

  lemma WithJobFired(t: Tables, spec: Spec, jobId: Uuid, a: Uuid)
    requires LinksOk(t) && jobId !in t.jobs
    requires FiredOk(t.log, t.jobOf, t.jobs, a)
    ensures var r := WithJob(t, spec, jobId); FiredOk(r.log, r.jobOf, r.jobs, a)
  {
    FiredNext(t.log, Registered(spec.id, spec.name), a);
  }

  lemma WithJobOk(t: Tables, spec: Spec, jobId: Uuid, a: Uuid)
    requires LinksOk(t) && JobsOk(t) && jobId !in t.jobs
    requires spec.id in t.specs && t.specs[spec.id] == spec && spec.Cleared()
    requires a in WithJob(t, spec, jobId).jobOf
    ensures var r := WithJob(t, spec, jobId); JobOk(r.specs, r.jobs, a, r.jobOf[a])
  {
    hide Tasks, JobFor, JobsOk;
    if spec.enabled && a == spec.id {
      hide Inverse;
      JobForStatus(spec, jobId);
    } else {
      assert JobOk(t.specs, t.jobs, a, t.jobOf[a]) by { JobOkAt(t, a); }
    }
  }

  lemma JobOkAt(t: Tables, a: Uuid)
    requires JobsOk(t) && a in t.jobOf
    ensures JobOk(t.specs, t.jobs, a, t.jobOf[a])
  {
  }

  lemma JobForStatus(spec: Spec, jobId: Uuid)
    ensures JobFor(spec, jobId).status == Enabled && JobFor(spec, jobId).id == jobId
  {
  }

  lemma WithJobConsistent(t: Tables, spec: Spec, jobId: Uuid)
    requires Consistent(t) && jobId !in t.jobs
    requires spec.id in t.specs && t.specs[spec.id] == spec && spec.Cleared()
    ensures Consistent(WithJob(t, spec, jobId))
  {
    var r := WithJob(t, spec, jobId);
    WithJobLinks(t, spec, jobId);
    hide JobOk, FiredOk, LinksOk, SpecOk;
    forall a | a in r.jobOf ensures JobOk(r.specs, r.jobs, a, r.jobOf[a]) {
      WithJobOk(t, spec, jobId, a);
    }
    forall a ensures FiredOk(r.log, r.jobOf, r.jobs, a) {
      WithJobFired(t, spec, jobId, a);
    }
  }

  predicate SameWork(before: Spec, after: Spec) {
    after == before.(metadata := after.metadata, updatedAt := after.updatedAt)
  }

  lemma RespecifiedJobOk(t: Tables, spec: Spec, a: Uuid)
    requires a in t.jobOf && JobOk(t.specs, t.jobs, a, t.jobOf[a]) && spec.Cleared()
    requires spec.id in t.jobOf ==> spec.id in t.specs && SameWork(t.specs[spec.id], spec)
    ensures JobOk(t.specs[spec.id := spec], t.jobs, a, t.jobOf[a])
  {
  }

  lemma SpecAdded(t: Tables, spec: Spec)
    requires SpecsOk(t) && SpecProblem(spec) == None
    ensures SpecsOk(t.(specs := t.specs[spec.id := spec]))
  {
    hide SpecProblem;
    var more := t.specs[spec.id := spec];
    forall a | a in more ensures SpecOk(more, a) {
      assert a != spec.id ==> SpecOk(t.specs, a);
    }
  }

  /** Writing a cleared spec whose job, if it has one, is for the same work. */
  lemma SpecWritten(t: Tables, spec: Spec)
    requires Consistent(t) && SpecProblem(spec) == None && spec.Cleared()
    requires spec.id in t.jobOf ==> spec.id in t.specs && SameWork(t.specs[spec.id], spec)
    ensures Consistent(t.(specs := t.specs[spec.id := spec]))
  {
    hide SpecsOk, JobsOk, Inverse, FiredOk, SpecProblem, SameWork;
    SpecAdded(t, spec);
    SpecJobs(t, spec);
  }

  lemma SpecJobs(t: Tables, spec: Spec)
    requires LinksOk(t) && JobsOk(t) && spec.Cleared()
    requires spec.id in t.jobOf ==> spec.id in t.specs && SameWork(t.specs[spec.id], spec)
    ensures JobsOk(t.(specs := t.specs[spec.id := spec]))
  {
    var r := t.(specs := t.specs[spec.id := spec]);
    hide JobOk, SameWork;
    forall a | a in r.jobOf ensures JobOk(r.specs, r.jobs, a, r.jobOf[a]) {
      RespecifiedJobOk(t, spec, a);
    }
  }

  /** A spec that waits for approval is written without a job. */
  function Parked(t: Tables, spec: Spec): Tables {
    t.(specs := t.specs[spec.id := spec], log := t.log + [ApprovalRequired(spec.id, Risk(spec.intent))])
  }

  lemma NoJobYet(t: Tables, a: Uuid)
    requires Consistent(t) && a !in t.specs
    ensures a !in t.jobOf
  {
    assert a in t.jobOf ==> JobOk(t.specs, t.jobs, a, t.jobOf[a]);
  }

  lemma LoggedFired(t: Tables, event: AutomationEvent, a: Uuid)
    requires FiredOk(t.log, t.jobOf, t.jobs, a) && !event.Triggered?
    ensures FiredOk(t.log + [event], t.jobOf, t.jobs, a)
  {
    FiredNext(t.log, event, a);
  }

  lemma ParkedJobOk(t: Tables, spec: Spec, a: Uuid)
    requires a in t.jobOf && JobOk(t.specs, t.jobs, a, t.jobOf[a]) && spec.id !in t.specs
    ensures JobOk(t.specs[spec.id := spec], t.jobs, a, t.jobOf[a])
  {
  }

  lemma ParkedConsistent(t: Tables, spec: Spec)
    requires Consistent(t) && spec.id !in t.specs && SpecProblem(spec) == None
    ensures Consistent(Parked(t, spec))
  {
    var r := Parked(t, spec);
    forall a | a in r.specs ensures SpecOk(r.specs, a) {
      assert a != spec.id ==> SpecOk(t.specs, a);
    }
    hide JobOk, FiredOk, SpecOk, SpecProblem;
    forall a | a in r.jobOf ensures JobOk(r.specs, r.jobs, a, r.jobOf[a]) {
      ParkedJobOk(t, spec, a);
    }
    forall a ensures FiredOk(r.log, r.jobOf, r.jobs, a) {
      LoggedFired(t, ApprovalRequired(spec.id, Risk(spec.intent)), a);
    }
  }

  /** Enable and disable: the spec's flag and, if there is a job, its status. */
  function Switched(t: Tables, a: Uuid, on: bool, now: Time): Tables
    requires a in t.specs
  {
    var status := if on then Enabled else Disabled;
    var event := if on then SwitchedOn(a) else SwitchedOff(a);
    t.(specs := t.specs[a := t.specs[a].(enabled := on, updatedAt := now)],
       jobs := if a in t.jobOf then WithStatus(t.jobs, t.jobOf[a], status) else t.jobs,
       log := t.log + [event])
  }

  function WithStatus(jobs: map<Uuid, Entry>, j: Uuid, status: JobStatus): map<Uuid, Entry> {
    if j in jobs then jobs[j := jobs[j].(job := jobs[j].job.(status := status))] else jobs
  }

  lemma SwitchedJobOk(t: Tables, a: Uuid, on: bool, now: Time, b: Uuid)
    requires LinksOk(t) && JobsOk(t) && a in t.specs && b in t.jobOf
    ensures var r := Switched(t, a, on, now); JobOk(r.specs, r.jobs, b, r.jobOf[b])
  {
    assert JobOk(t.specs, t.jobs, b, t.jobOf[b]);
  }

  lemma SwitchedFired(t: Tables, a: Uuid, on: bool, now: Time, b: Uuid)
    requires LinksOk(t) && a in t.specs && FiredOk(t.log, t.jobOf, t.jobs, b)
    ensures var r := Switched(t, a, on, now); FiredOk(r.log, r.jobOf, r.jobs, b)
  {
    FiredNext(t.log, if on then SwitchedOn(a) else SwitchedOff(a), b);
  }

  lemma SwitchedSpecs(t: Tables, a: Uuid, on: bool, now: Time)
    requires SpecsOk(t) && a in t.specs
    ensures SpecsOk(Switched(t, a, on, now))
  {
    var r := Switched(t, a, on, now);
    forall b | b in r.specs ensures SpecOk(r.specs, b) {
      assert SpecOk(t.specs, b);
    }
  }

  lemma SwitchedLinks(t: Tables, a: Uuid, on: bool, now: Time)
    requires LinksOk(t) && a in t.specs
    ensures var r := Switched(t, a, on, now); LinksOk(r) && r.jobOf == t.jobOf
  {
    assert Switched(t, a, on, now).jobs.Keys == t.jobs.Keys;
  }

  lemma SwitchedConsistent(t: Tables, a: Uuid, on: bool, now: Time)
    requires Consistent(t) && a in t.specs
    ensures Consistent(Switched(t, a, on, now))
  {
    var r := Switched(t, a, on, now);
    SwitchedSpecs(t, a, on, now);
    SwitchedLinks(t, a, on, now);
    hide JobOk, FiredOk, LinksOk, SpecsOk, Switched;
    forall b | b in r.jobOf ensures JobOk(r.specs, r.jobs, b, r.jobOf[b]) {
      SwitchedJobOk(t, a, on, now, b);
    }
    forall b ensures FiredOk(r.log, r.jobOf, r.jobs, b) {
      SwitchedFired(t, a, on, now, b);
    }
  }

  function Removed(t: Tables, a: Uuid): Tables {
    Without(t, a).(specs := t.specs - {a}, log := t.log + [Deleted(a)])
  }

  lemma RemovedJobOk(t: Tables, a: Uuid, b: Uuid)
    requires LinksOk(t) && JobsOk(t) && b in t.jobOf && b != a
    ensures var r := Removed(t, a); b in r.jobOf && JobOk(r.specs, r.jobs, b, r.jobOf[b])
  {
    assert JobOk(t.specs, t.jobs, b, t.jobOf[b]);
  }

  lemma RemovedFired(t: Tables, a: Uuid, b: Uuid)
    requires LinksOk(t) && FiredOk(t.log, t.jobOf, t.jobs, b)
    ensures var r := Removed(t, a); FiredOk(r.log, r.jobOf, r.jobs, b)
  {
    FiredNext(t.log, Deleted(a), b);
  }

  lemma RemovedLinks(t: Tables, a: Uuid)
    requires LinksOk(t)
    ensures LinksOk(Removed(t, a))
  {
  }

  lemma RemovedConsistent(t: Tables, a: Uuid)
    requires Consistent(t)
    ensures Consistent(Removed(t, a))
  {
    var r := Removed(t, a);
    forall b | b in r.specs ensures SpecOk(r.specs, b) {
      assert SpecOk(t.specs, b);
    }
    RemovedLinks(t, a);
    hide JobOk, FiredOk, SpecOk, LinksOk;
    forall b | b in r.jobOf ensures JobOk(r.specs, r.jobs, b, r.jobOf[b]) {
      RemovedJobOk(t, a, b);
    }
    forall b ensures FiredOk(r.log, r.jobOf, r.jobs, b) {
      RemovedFired(t, a, b);
    }
  }

  // ---- Firing ---------------------------------------------------------------------------------

  /** `translate_job_event` for a triggered job. */
  function Translate(t: Tables, job: Job): seq<AutomationEvent> {
    if job.id in t.ownerOf && t.ownerOf[job.id] in t.specs
    then [Triggered(t.ownerOf[job.id], job.id, t.specs[t.ownerOf[job.id]].intent)]
    else []
  }

  function TranslateBy(t: Tables): Job -> seq<AutomationEvent> { (job: Job) => Translate(t, job) }

  function TranslateAll(t: Tables, jobs: seq<Job>): seq<AutomationEvent> { Collect(TranslateBy(t), jobs) }

  predicate DistinctIds(jobs: seq<Job>) {
    forall i, j :: 0 <= i < j < |jobs| ==> jobs[i].id != jobs[j].id
  }

  lemma OwnerHasSpec(t: Tables, j: Uuid)
    requires LinksOk(t) && JobsOk(t) && j in t.ownerOf
    ensures t.ownerOf[j] in t.specs && t.ownerOf[j] in t.jobOf && t.jobOf[t.ownerOf[j]] == j
  {
    assert JobOk(t.specs, t.jobs, t.ownerOf[j], t.jobOf[t.ownerOf[j]]);
  }

  lemma OwnerIff(t: Tables, j: Uuid, a: Uuid)
    requires LinksOk(t) && j in t.ownerOf
    ensures t.ownerOf[j] == a <==> a in t.jobOf && t.jobOf[a] == j
  {
  }

  lemma LastIsNew(jobs: seq<Job>)
    requires jobs != [] && DistinctIds(jobs)
    ensures DistinctIds(jobs[..|jobs| - 1])
    ensures jobs[|jobs| - 1].id !in Ids(jobs[..|jobs| - 1])
    ensures Ids(jobs) == Ids(jobs[..|jobs| - 1]) + {jobs[|jobs| - 1].id}
  {
    var n := |jobs| - 1;
    assert jobs == jobs[..n] + [jobs[n]];
    IdsNext(jobs[..n], jobs[n]);
  }

  lemma FiringStep(t: Tables, jobs: seq<Job>, job: Job, a: Uuid)
    requires LinksOk(t) && JobsOk(t) && job.id in t.ownerOf
    ensures FiredSinceArmed(t.log + TranslateAll(t, jobs + [job]), a)
         == FiredSinceArmed(t.log + TranslateAll(t, jobs), a) + (if t.ownerOf[job.id] == a then 1 else 0)
  {
    hide JobsOk, FiredSinceArmed, LinksOk, Collect;
    OwnerHasSpec(t, job.id);
    var event := Triggered(t.ownerOf[job.id], job.id, t.specs[t.ownerOf[job.id]].intent);
    CollectNext(TranslateBy(t), jobs, job);
    assert t.log + TranslateAll(t, jobs + [job]) == t.log + TranslateAll(t, jobs) + [event];
    FiredNext(t.log + TranslateAll(t, jobs), event, a);
  }

  /** Firing distinct jobs adds one firing to each of their automations and to no other. */
  lemma {:induction false} FiringsCount(t: Tables, jobs: seq<Job>, a: Uuid)
    requires LinksOk(t) && JobsOk(t) && DistinctIds(jobs)
    requires forall i :: 0 <= i < |jobs| ==> jobs[i].id in t.ownerOf
    ensures FiredSinceArmed(t.log + TranslateAll(t, jobs), a)
         == FiredSinceArmed(t.log, a) + (if a in t.jobOf && t.jobOf[a] in Ids(jobs) then 1 else 0)
    decreases |jobs|
  {
    if jobs == [] {
      assert t.log + TranslateAll(t, jobs) == t.log;
    } else {
      hide JobsOk, FiredSinceArmed, DistinctIds, Ids, LinksOk;
      var n := |jobs| - 1;
      var job := jobs[n];
      LastIsNew(jobs);
      FiringsCount(t, jobs[..n], a);
      OwnerIff(t, job.id, a);
      assert jobs == jobs[..n] + [job];
      hide TranslateAll;
      FiringStep(t, jobs[..n], job, a);
    }
  }

  function Fired(t: Tables, cause: Cause, jobs: seq<Job>): Tables {
    t.(jobs := FireAll(t.jobs, cause), log := t.log + TranslateAll(t, jobs))
  }

  lemma FiredJobOk(t: Tables, cause: Cause, jobs: seq<Job>, a: Uuid)
    requires a in t.jobOf && JobOk(t.specs, t.jobs, a, t.jobOf[a])
    ensures var r := Fired(t, cause, jobs); JobOk(r.specs, r.jobs, a, r.jobOf[a])
  {
  }

  lemma FiredLogOk(t: Tables, cause: Cause, jobs: seq<Job>, a: Uuid)
    requires LinksOk(t) && JobsOk(t) && FiredOk(t.log, t.jobOf, t.jobs, a)
    requires Announces(jobs, FireAll(t.jobs, cause), DueIds(t.jobs, cause))
    ensures var r := Fired(t, cause, jobs); FiredOk(r.log, r.jobOf, r.jobs, a)
  {
    hide JobsOk, FiredSinceArmed, TranslateAll;
    FiringsCount(t, jobs, a);
    if a in t.jobOf {
      var j := t.jobOf[a];
      assert j in t.jobs;
      assert j in Ids(jobs) <==> Due(t.jobs[j].job, cause);
    }
  }

  /** In every run, an automation fires at most once for each time it is armed: a firing leaves its
      job running, nothing here completes it, and only a registration or a switch-on arms it. */
  lemma FiredConsistent(t: Tables, cause: Cause, jobs: seq<Job>)
    requires Consistent(t)
    requires Announces(jobs, FireAll(t.jobs, cause), DueIds(t.jobs, cause))
    ensures Consistent(Fired(t, cause, jobs))
  {
    var r := Fired(t, cause, jobs);
    hide JobOk, FiredOk, SpecOk, Inverse, Announces, TranslateAll, DueIds, Fire;
    assert r.jobs.Keys == t.jobs.Keys;
    hide FireAll;
    forall a | a in r.jobOf ensures JobOk(r.specs, r.jobs, a, r.jobOf[a]) {
      FiredJobOk(t, cause, jobs, a);
    }
    forall a ensures FiredOk(r.log, r.jobOf, r.jobs, a) {
      FiredLogOk(t, cause, jobs, a);
    }
  }

  /** Only enabled automations that need no approval, or have it, ever fire. */
  lemma OnlyEnabledAndClearedFire(t: Tables, cause: Cause, j: Uuid)
    requires Consistent(t) && j in DueIds(t.jobs, cause)
    ensures j in t.ownerOf && t.ownerOf[j] in t.specs
    ensures var spec := t.specs[t.ownerOf[j]]; spec.enabled && spec.Cleared() && SpecProblem(spec) == None
  {
    assert t.ownerOf[j] in t.jobOf && t.jobOf[t.ownerOf[j]] == j;
    assert JobOk(t.specs, t.jobs, t.ownerOf[j], j);
    assert SpecOk(t.specs, t.ownerOf[j]);
  }

  // ---- What fires, and what an operation leaves --------------------------------------------------

  /** What makes an armed automation fire. */
  predicate FiresOn(trigger: Trigger, cause: Cause) {
    match trigger
    case Manual => cause == Named("automation.manual")
    case AtMoment(at) => cause.Tick? && at <= cause.now
    case IntervalSeconds(_) => cause.Tick?
    case Heartbeat(_, _, _) => cause.Tick?
    case Cron(_, _) => false
    case EventTopic(topic) => cause == Named(topic)
    case Webhook(path) => cause == Named("webhook:" + path)
    case LocalSignal(signal) => cause == Named("local:" + signal)
  }

  /** An automation fires exactly if it is armed and its trigger fits the cause: an interval or a
      heartbeat at the first tick, whatever its length, a moment at the first tick from then on, and a
      cron expression never. */
  lemma FiresExactly(t: Tables, a: Uuid, cause: Cause)
    requires Consistent(t) && a in t.jobOf
    ensures Due(t.jobs[t.jobOf[a]].job, cause) <==>
      Armed(t.jobOf, t.jobs, a) && FiresOn(t.specs[a].trigger, cause)
  {
    JobOkAt(t, a);
    hide Consistent, Tasks;
    DueExactly(t.specs[a], t.jobOf[a], t.jobs[t.jobOf[a]].job.status, cause);
  }

  lemma DueExactly(spec: Spec, j: Uuid, status: JobStatus, cause: Cause)
    ensures Due(JobFor(spec, j).(status := status), cause) <==> status == Enabled && FiresOn(spec.trigger, cause)
  {
    hide Risk, PolicyFor, JobTypeFor;
  }

  /** What a round announces: each fired job with its automation and that automation's intent. */
  lemma {:induction false} AnnouncedExactly(t: Tables, jobs: seq<Job>, i: nat)
    requires Consistent(t) && i < |jobs|
    requires forall k :: 0 <= k < |jobs| ==> jobs[k].id in t.ownerOf
    ensures |TranslateAll(t, jobs)| == |jobs|
    ensures t.ownerOf[jobs[i].id] in t.specs
    ensures TranslateAll(t, jobs)[i]
         == Triggered(t.ownerOf[jobs[i].id], jobs[i].id, t.specs[t.ownerOf[jobs[i].id]].intent)
    decreases |jobs|
  {
    hide Consistent, Collect;
    var n := |jobs| - 1;
    OwnerKnown(t, jobs[n].id);
    OwnerKnown(t, jobs[i].id);
    CollectStep(TranslateBy(t), jobs, n);
    assert jobs[..n + 1] == jobs;
    if n == 0 {
      assert TranslateAll(t, jobs[..0]) == [] by { NothingAnnounced(t); }
    } else {
      AnnouncedExactly(t, jobs[..n], if i < n then i else 0);
    }
  }

  lemma NothingAnnounced(t: Tables)
    ensures TranslateAll(t, []) == []
  {
  }

  lemma OwnerKnown(t: Tables, j: Uuid)
    requires Consistent(t) && j in t.ownerOf
    ensures t.ownerOf[j] in t.specs
  {
    JobOkAt(t, t.ownerOf[j]);
  }

  /** Deleting forgets the automation and its job, and leaves all others alone. */
  lemma RemovedForgets(t: Tables, a: Uuid, b: Uuid)
    requires LinksOk(t)
    ensures var r := Removed(t, a);
      && a !in r.specs && a !in r.jobOf && (a in t.jobOf ==> t.jobOf[a] !in r.jobs)
      && (b != a ==>
           && (b in r.specs <==> b in t.specs) && (b in r.jobOf <==> b in t.jobOf)
           && (b in t.specs ==> r.specs[b] == t.specs[b])
           && (b in t.jobOf ==>
                && r.jobOf[b] == t.jobOf[b] && t.jobOf[b] in r.jobs && r.jobs[t.jobOf[b]] == t.jobs[t.jobOf[b]]))
  {
  }

  /** A switch sets the automation's flag and arms or disarms its job, if it has one, and leaves all
      others alone. */
  lemma SwitchedSets(t: Tables, a: Uuid, on: bool, now: Time, b: Uuid)
    requires LinksOk(t) && a in t.specs && b in t.specs
    ensures var r := Switched(t, a, on, now);
      && r.specs[a].enabled == on && r.jobOf == t.jobOf
      && (a in t.jobOf ==> (Armed(r.jobOf, r.jobs, a) <==> on))
      && (b != a ==>
           && r.specs[b] == t.specs[b]
           && (b in t.jobOf ==> t.jobOf[b] in r.jobs && r.jobs[t.jobOf[b]] == t.jobs[t.jobOf[b]]))
  {
  }

  /** The job of a spec carries its name, is ready to run, asks for approval exactly from peripheral
      maintenance on, is one of many runs exactly if the trigger repeats, and waits for an event
      exactly if the trigger is one from outside. */
  lemma JobTells(spec: Spec, jobId: Uuid)
    ensures var job := JobFor(spec, jobId);
      && job.id == jobId && job.name == spec.name && job.description == spec.description
      && job.status == Enabled && job.runCount == 0 && job.nextRun == None
      && (job.policy == RequiresApproval <==> Risk(spec.intent) in {PeripheralMaintenance, CoreMutationDenied})
      && (job.jobType == Recurring <==>
           spec.trigger.IntervalSeconds? || spec.trigger.Heartbeat? || spec.trigger.Cron?)
      && (job.jobType == OneShot <==> spec.trigger.Manual? || spec.trigger.AtMoment?)
      && job.jobType != Watcher
  {
  }

  predicate Complete(trigger: Trigger) {
    match trigger
    case Manual => true
    case AtMoment(_) => true
    case IntervalSeconds(seconds) => seconds != 0
    case Heartbeat(every, _, _) => every != 0
    case Cron(expression, _) => !IsBlank(expression)
    case EventTopic(topic) => !IsBlank(topic)
    case Webhook(path) => !IsBlank(path)
    case LocalSignal(signal) => !IsBlank(signal)
  }

  /** Which specs are accepted. */
  lemma AcceptedExactly(spec: Spec)
    ensures SpecProblem(spec) == None <==>
      && !IsBlank(spec.name) && Complete(spec.trigger)
      && forall leaf :: leaf in Flatten(spec.intent) ==> Proper(leaf)
  {
    hide Problem, IsBlank, Proper;
    ValidExactly(spec.intent);
  }
}
