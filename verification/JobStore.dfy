/** The tables of jobs and of their executions, and a database session over them. */
module JobStore {
  import opened Text
  import opened CronSchedule

  datatype JobStatus = ACTIVE | PAUSED | DISABLED | ERROR
  datatype RunStatus = QUEUED | RUNNING | SUCCESS | FAILED | CANCELLED | TIMED_OUT
  datatype TriggerType = MANUAL | SCHEDULED

  /** One row of `jobs`; the identifiers of rows stand for their UUIDs. */
  datatype Job = Job(
    name: string, description: Option<string>, workspace: Option<nat>, project: Option<nat>, notebook: nat,
    status: JobStatus, scheduleType: string, cron: Option<string>, timezone: string, policy: string,
    maxRetries: int, retryDelay: int, parameters: map<string, string>,
    nextRun: Option<Time>, lastRun: Option<Time>)

  /** One row of `job_executions`. */
  datatype Run = Run(
    job: nat, execution: string, trigger: TriggerType, status: RunStatus, startedAt: Time, finishedAt: Option<Time>)

  datatype Store = Store(jobs: map<nat, Job>, history: seq<Run>)

  /** The arguments of `JobRepository.update`; None keeps the column. */
  datatype Changes = Changes(
    name: Option<string> := None, description: Option<string> := None, scheduleType: Option<string> := None,
    cron: Option<string> := None, timezone: Option<string> := None, policy: Option<string> := None,
    maxRetries: Option<int> := None, retryDelay: Option<int> := None, parameters: Option<map<string, string>> := None,
    status: Option<JobStatus> := None, nextRun: Option<Time> := None, lastRun: Option<Time> := None,
    clearNextRun: bool := false)

  function Or<T>(change: Option<T>, kept: T): T {
    match change case None => kept case Some(v) => v
  }

  function OrElse<T>(change: Option<T>, kept: Option<T>): Option<T> {
    match change case None => kept case Some(v) => change
  }

  /** The row after an update. */
  function Apply(j: Job, c: Changes): Job {
    Job(Or(c.name, j.name), OrElse(c.description, j.description), j.workspace, j.project, j.notebook,
        Or(c.status, j.status), Or(c.scheduleType, j.scheduleType), OrElse(c.cron, j.cron), Or(c.timezone, j.timezone),
        Or(c.policy, j.policy), Or(c.maxRetries, j.maxRetries), Or(c.retryDelay, j.retryDelay),
        Or(c.parameters, j.parameters),
        if c.clearNextRun then None else OrElse(c.nextRun, j.nextRun), OrElse(c.lastRun, j.lastRun))
  }

  /** A job other than `id` has the name; names are unique in the table. */
  predicate NameTaken(s: Store, id: nat, name: string) {
    exists other :: other in s.jobs && other != id && s.jobs[other].name == name
  }

  datatype Written = Written(store: Store) | Missing | NameClash

  /** `JobRepository.update` */
  function Updated(s: Store, id: nat, c: Changes): Written {
    if id !in s.jobs then Missing
    else if c.name.Some? && NameTaken(s, id, c.name.value) then NameClash
    else Written(s.(jobs := s.jobs[id := Apply(s.jobs[id], c)]))
  }

  /** `JobRepository.list_due_jobs`, in no particular order. */
  predicate IsDue(j: Job, now: Time) {
    j.status == ACTIVE && j.nextRun.Some? && j.nextRun.value <= now
  }

  function Due(s: Store, now: Time): set<nat> {
    set id | id in s.jobs && IsDue(s.jobs[id], now)
  }

  /** The executions of one job, in the order in which they were recorded. */
  function RunsOf(history: seq<Run>, id: nat): seq<Run> {
    if history == [] then [] else
    var init, last := history[..|history| - 1], history[|history| - 1];
    if last.job == id then RunsOf(init, id) + [last] else RunsOf(init, id)
  }

  predicate Active(r: Run) {
    r.status == QUEUED || r.status == RUNNING
  }

  predicate HasActive(runs: seq<Run>) {
    exists i :: 0 <= i < |runs| && Active(runs[i])
  }

  lemma RunsOfAppend(history: seq<Run>, r: Run, id: nat)
    ensures RunsOf(history + [r], id) == if r.job == id then RunsOf(history, id) + [r] else RunsOf(history, id)
  {
    assert (history + [r])[..|history|] == history;
  }

  /** A session: what it has written, and what is committed. */
  class Database {
    var store: Store
    var committed: Store

    constructor (s: Store)
      ensures store == committed == s
    {
      store, committed := s, s;
    }

    method Commit()
      modifies this
      ensures store == committed == old(store)
    {
      committed := store;
    }

    method Rollback()
      modifies this
      ensures store == committed == old(committed)
    {
      store := committed;
    }

    method Update(id: nat, c: Changes) returns (r: Written)
      modifies `store
      ensures r == Updated(old(store), id, c)
      ensures store == if r.Written? then r.store else old(store)
    {
      if id !in store.jobs {
        return Missing;
      }
      if c.name.Some? && NameTaken(store, id, c.name.value) {
        return NameClash;
      }
      var j := store.jobs[id];
      var name, description, status, scheduleType := j.name, j.description, j.status, j.scheduleType;
      var cron, timezone, policy, maxRetries := j.cron, j.timezone, j.policy, j.maxRetries;
      var retryDelay, parameters, nextRun, lastRun := j.retryDelay, j.parameters, j.nextRun, j.lastRun;
      if c.name.Some? { name := c.name.value; }
      assert name == Or(c.name, j.name);
      if c.description.Some? { description := c.description; }
      assert description == OrElse(c.description, j.description);
      if c.scheduleType.Some? { scheduleType := c.scheduleType.value; }
      assert scheduleType == Or(c.scheduleType, j.scheduleType);
      if c.cron.Some? { cron := c.cron; }
      assert cron == OrElse(c.cron, j.cron);
      if c.timezone.Some? { timezone := c.timezone.value; }
      assert timezone == Or(c.timezone, j.timezone);
      if c.policy.Some? { policy := c.policy.value; }
      assert policy == Or(c.policy, j.policy);
      if c.maxRetries.Some? { maxRetries := c.maxRetries.value; }
      assert maxRetries == Or(c.maxRetries, j.maxRetries);
      if c.retryDelay.Some? { retryDelay := c.retryDelay.value; }
      assert retryDelay == Or(c.retryDelay, j.retryDelay);
      if c.parameters.Some? { parameters := c.parameters.value; }
      assert parameters == Or(c.parameters, j.parameters);
      if c.status.Some? { status := c.status.value; }
      assert status == Or(c.status, j.status);
      if c.clearNextRun {
        nextRun := None;
      } else if c.nextRun.Some? {
        nextRun := c.nextRun;
      }
      if c.lastRun.Some? { lastRun := c.lastRun; }
      assert lastRun == OrElse(c.lastRun, j.lastRun);
      j := Job(name, description, j.workspace, j.project, j.notebook, status, scheduleType, cron, timezone, policy,
               maxRetries, retryDelay, parameters, nextRun, lastRun);
      assert j == Apply(store.jobs[id], c);
      hide Apply;
      store := store.(jobs := store.jobs[id := j]);
      r := Written(store);
    }

    method AddRun(run: Run)
      modifies `store
      ensures store == old(store).(history := old(store).history + [run])
    {
      store := store.(history := store.history + [run]);
    }

    /** The due jobs, each once, in an order that the query leaves open. */
    method ListDue(now: Time) returns (order: seq<nat>)
      ensures IsOrder(order, Due(store, now))
    {
      order := [];
      var left := Due(store, now);
      while left != {}
        invariant forall i, j :: 0 <= i < j < |order| ==> order[i] != order[j]
        invariant forall id :: id in order <==> id in Due(store, now) && id !in left
        invariant left <= Due(store, now)
        decreases left
      {
        var id :| id in left;
        order := order + [id];
        left := left - {id};
      }
    }
  }

  ghost predicate IsOrder(order: seq<nat>, ids: set<nat>) {
    && (forall i, j :: 0 <= i < j < |order| ==> order[i] != order[j])
    && (forall id :: id in order <==> id in ids)
  }
}
