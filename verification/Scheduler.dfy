/** The job scheduler: a table of jobs, and the two ways a job fires. */
module Scheduler {
  import opened Prelude
  import opened Intents

  type Uuid = nat
  type Time = int

  datatype JobStatus = Enabled | Disabled | Running

  datatype JobType = OneShot | Recurring | EventDriven | Watcher

  datatype JobTrigger =
    | AtTime(at: Time)
    | Interval(seconds: nat)
    | OnEvent(kind: string)
    | Condition(expression: string)

  datatype PolicyLevel =
    SafeReadOnlyPolicy | LocalReadPolicy | LocalWritePolicy | NetworkReadPolicy | NetworkWritePolicy | RequiresApproval

  datatype Job = Job(
    id: Uuid, name: string, description: string, jobType: JobType, trigger: JobTrigger, status: JobStatus,
    policy: PolicyLevel, nextRun: Option<Time>, runCount: nat)

  datatype Entry = Entry(job: Job, tasks: seq<JobTask>)

  /** A clock tick, or a named event. */
  datatype Cause = Tick(now: Time) | Named(kind: string)

  /** What makes a job fire. Only an enabled job does, and a running one is not enabled. */
  predicate Due(job: Job, cause: Cause) {
    && job.status == Enabled
    && match cause
       case Tick(now) =>
         (match job.trigger
          case AtTime(at) => at <= now && job.runCount == 0
          case Interval(_) => job.nextRun.None? || job.nextRun.value <= now
          case OnEvent(_) => false
          case Condition(_) => false)
       case Named(kind) => job.trigger == OnEvent(kind)
  }

  function Fire(entry: Entry, cause: Cause): Entry {
    if Due(entry.job, cause) then entry.(job := entry.job.(status := Running)) else entry
  }

  function FireAll(jobs: map<Uuid, Entry>, cause: Cause): map<Uuid, Entry> {
    map id | id in jobs :: Fire(jobs[id], cause)
  }

  function DueIds(jobs: map<Uuid, Entry>, cause: Cause): set<Uuid> {
    set id | id in jobs && Due(jobs[id].job, cause)
  }

  /** `fired` are copies of the jobs with ids `ids`, as `jobs` has them, each once. */
  ghost predicate Announces(fired: seq<Job>, jobs: map<Uuid, Entry>, ids: set<Uuid>) {
    && (forall i :: 0 <= i < |fired| ==> fired[i].id in ids && fired[i].id in jobs && jobs[fired[i].id].job == fired[i])
    && (forall i, j :: 0 <= i < j < |fired| ==> fired[i].id != fired[j].id)
    && (forall id :: id in ids ==> id in Ids(fired))
  }

  function Ids(jobs: seq<Job>): set<Uuid> {
    set i | 0 <= i < |jobs| :: jobs[i].id
  }

  lemma AnnouncesNext(fired: seq<Job>, jobs: map<Uuid, Entry>, ids: set<Uuid>, job: Job)
    requires Announces(fired, jobs, ids) && job.id !in ids && job.id in jobs && jobs[job.id].job == job
    ensures Announces(fired + [job], jobs, ids + {job.id})
  {
    IdsNext(fired, job);
  }

  lemma IdsNext(jobs: seq<Job>, job: Job)
    ensures Ids(jobs + [job]) == Ids(jobs) + {job.id}
  {
    var more := jobs + [job];
    forall id ensures id in Ids(more) <==> id in Ids(jobs) + {job.id} {
      if id in Ids(jobs) {
        var i :| 0 <= i < |jobs| && jobs[i].id == id;
        assert more[i].id == id;
      }
      assert more[|jobs|].id == job.id;
    }
  }

  class JobScheduler {
    var jobs: map<Uuid, Entry>

    constructor ()
      ensures jobs == map[]
    {
      jobs := map[];
    }

    method Register(job: Job, tasks: seq<JobTask>)
      modifies this
      ensures jobs == old(jobs)[job.id := Entry(job, tasks)]
    {
      jobs := jobs[job.id := Entry(job, tasks)];
    }

    method Remove(id: Uuid)
      modifies this
      ensures jobs == old(jobs) - {id}
    {
      jobs := jobs - {id};
    }

    method SetStatus(id: Uuid, status: JobStatus)
      modifies this
      ensures jobs == if id in old(jobs)
                      then old(jobs)[id := old(jobs)[id].(job := old(jobs)[id].job.(status := status))]
                      else old(jobs)
    {
      if id in jobs {
        jobs := jobs[id := jobs[id].(job := jobs[id].job.(status := status))];
      }
    }

    /** Fires every due job, in whatever order the hash map lists them. */
    method Run(cause: Cause) returns (fired: seq<Job>)
      requires forall id :: id in jobs ==> jobs[id].job.id == id
      modifies this
      ensures jobs == FireAll(old(jobs), cause)
      ensures Announces(fired, jobs, DueIds(old(jobs), cause))
    {
      var pending := DueIds(jobs, cause);
      ghost var due, before, after := pending, jobs, FireAll(jobs, cause);
      ghost var done: set<Uuid> := {};
      fired := [];
      while pending != {}
        invariant pending == due - done && done <= due
        invariant jobs.Keys == before.Keys
        invariant forall id :: id in before ==> jobs[id] == if id in done then Fire(before[id], cause) else before[id]
        invariant Announces(fired, after, done)
      {
        hide Announces;
        var id :| id in pending;
        var entry := Fire(jobs[id], cause);
        AnnouncesNext(fired, after, done, entry.job);
        jobs := jobs[id := entry];
        fired := fired + [entry.job];
        done := done + {id};
        pending := pending - {id};
      }
      assert done == due;
      assert jobs == after;
    }
  }
}
