/** What the job manager does to the tables, request by request. */
module JobManager {
  import opened Text
  import opened CronSchedule
  import opened JobStore

  datatype JobError = NotFound | Validation | Schedule | Concurrency | Cancellation | Execution | Overflowed | Integrity
  datatype Outcome<+T> = Done(value: T) | Raised(error: JobError)

  datatype Notebook = Notebook(workspace: Option<nat>, project: Option<nat>)

  /** What requests find around them and do not change. */
  datatype Site = Site(clock: Clockwork, notebooks: map<nat, Notebook>)

  datatype CreateRequest = CreateRequest(
    name: string, notebook: nat, workspace: Option<nat>, project: Option<nat>, description: Option<string>,
    scheduleType: string, cron: Option<string>, timezone: string, policy: string,
    maxRetries: int, retryDelay: int, parameters: map<string, string>)

  datatype UpdateRequest = UpdateRequest(
    name: Option<string>, description: Option<string>, scheduleType: Option<string>, cron: Option<string>,
    timezone: Option<string>, policy: Option<string>, maxRetries: Option<int>, retryDelay: Option<int>,
    parameters: Option<map<string, string>>)

  /** What starting a job's session and submitting its code cells came to: whether
      the session could be had, and for every submission its execution, or None
      where it raised. Without code cells a placeholder is submitted. */
  datatype Launch = Launch(session: bool, cells: seq<Option<string>>, placeholder: Option<string>, at: Time)

  /** `str.upper` on ASCII letters. */
  function Upper(s: string): (u: string)
    ensures |u| == |s|
  {
    seq(|s|, i requires 0 <= i < |s| => if 'a' <= s[i] <= 'z' then (s[i] as int - 32) as char else s[i])
  }

  /** An absent or empty text, which the program takes for false. */
  predicate Empty(t: Option<string>) {
    t == None || t.value == ""
  }

  function Truthy(change: Option<string>, kept: string): string {
    if Empty(change) then kept else change.value
  }

  /** The next run of a job whose type is exactly "CRON", and none for the others;
      an expression is demanded. */
  function Planned(c: Clockwork, scheduleType: string, cron: Option<string>, tz: string, now: Time):
    Outcome<Option<Time>>
  {
    if scheduleType == "CRON" && Empty(cron) then Raised(Schedule) else Replanned(c, scheduleType, cron, tz, now)
  }

  /** The same without that demand. */
  function Replanned(c: Clockwork, scheduleType: string, cron: Option<string>, tz: string, now: Time):
    Outcome<Option<Time>>
  {
    if scheduleType != "CRON" || Empty(cron) then Done(None)
    else match NextRun(c, cron, tz, now)
      case At(t) => Done(Some(t))
      case NoRun => Done(None)
      case InvalidSchedule => Raised(Schedule)
      case Overflow => Raised(Overflowed)
  }

  // ---------------------------------------------------------------------------
  // What each request makes of the tables
  // ---------------------------------------------------------------------------

  function NewJob(req: CreateRequest, nb: Notebook, next: Option<Time>): Job {
    Job(req.name, req.description, OrElse(req.workspace, nb.workspace), OrElse(req.project, nb.project), req.notebook,
        ACTIVE, Upper(req.scheduleType), req.cron, req.timezone, Upper(req.policy),
        req.maxRetries, req.retryDelay, req.parameters, next, None)
  }

  /** `create_job`; `id` is the new identifier, which must be unused. */
  function Created(w: Site, s: Store, id: nat, req: CreateRequest, now: Time): Outcome<Store> {
    if req.notebook !in w.notebooks then Raised(Validation)
    else if !ValidZone(w.clock, req.timezone) then Raised(Schedule)
    else match Planned(w.clock, req.scheduleType, req.cron, req.timezone, now)
      case Raised(e) => Raised(e)
      case Done(next) =>
        if exists other :: other in s.jobs && s.jobs[other].name == req.name then Raised(Validation)
        else if id in s.jobs then Raised(Integrity)
        else Done(s.(jobs := s.jobs[id := NewJob(req, w.notebooks[req.notebook], next)]))
  }

  function UpdateChanges(j: Job, req: UpdateRequest, next: Option<Time>): Changes {
    Changes(name := req.name, description := req.description,
            scheduleType := Some(Truthy(req.scheduleType, j.scheduleType)),
            cron := OrElse(req.cron, j.cron), timezone := Some(Truthy(req.timezone, j.timezone)), policy := req.policy,
            maxRetries := req.maxRetries, retryDelay := req.retryDelay, parameters := req.parameters, nextRun := next)
  }

  function Write(s: Store, id: nat, c: Changes): Outcome<Store> {
    match Updated(s, id, c)
    case Written(t) => Done(t)
    case Missing => Raised(NotFound)
    case NameClash => Raised(Integrity)
  }

  /** `update_job` */
  function Edited(w: Site, s: Store, id: nat, req: UpdateRequest, now: Time): Outcome<Store> {
    if id !in s.jobs then Raised(NotFound) else
    var j := s.jobs[id];
    var tz := Truthy(req.timezone, j.timezone);
    if !ValidZone(w.clock, tz) then Raised(Schedule)
    else match Planned(w.clock, Truthy(req.scheduleType, j.scheduleType), OrElse(req.cron, j.cron), tz, now)
      case Raised(e) => Raised(e)
      case Done(next) => Write(s, id, UpdateChanges(j, req, next))
  }

  /** `pause_job` */
  function Paused(s: Store, id: nat): Outcome<Store> {
    Write(s, id, Changes(status := Some(PAUSED), clearNextRun := true))
  }

  /** `resume_job` */
  function Resumed(w: Site, s: Store, id: nat, now: Time): Outcome<Store> {
    if id !in s.jobs then Raised(NotFound) else
    match Replanned(w.clock, s.jobs[id].scheduleType, s.jobs[id].cron, s.jobs[id].timezone, now)
    case Raised(e) => Raised(e)
    case Done(next) => Write(s, id, Changes(status := Some(ACTIVE), nextRun := next))
  }

  /** `delete_job`; the executions stay. */
  function Deleted(s: Store, id: nat): Outcome<Store> {
    if id !in s.jobs then Raised(NotFound) else Done(s.(jobs := s.jobs - {id}))
  }

  /** The checks at the start of `trigger_job_execution`. */
  function Refusal(s: Store, id: nat): Option<JobError> {
    if id !in s.jobs then Some(NotFound)
    else if s.jobs[id].status in {PAUSED, DISABLED} then Some(Validation)
    else if s.jobs[id].policy == "PREVENT_OVERLAP" && HasActive(RunsOf(s.history, id)) then Some(Concurrency)
    else None
  }

  /** The execution that is recorded: that of the last code cell. */
  function Launched(l: Launch): Option<string> {
    if !l.session then None
    else if l.cells == [] then l.placeholder
    else if exists i :: 0 <= i < |l.cells| && l.cells[i] == None then None
    else l.cells[|l.cells| - 1]
  }

  /** What a trigger that started `execution` writes. */
  function Recorded(s: Store, id: nat, kind: TriggerType, execution: string, at: Time): Store {
    var t := s.(history := s.history + [Run(id, execution, kind, RUNNING, at, None)]);
    if id !in s.jobs then t else t.(jobs := s.jobs[id := s.jobs[id].(lastRun := Some(at))])
  }

  /** `trigger_job_execution` */
  function Triggered(s: Store, id: nat, kind: TriggerType, l: Launch): Outcome<Store> {
    match Refusal(s, id)
    case Some(e) => Raised(e)
    case None =>
      match Launched(l)
      case None => Raised(Execution)
      case Some(x) => Done(Recorded(s, id, kind, x, l.at))
  }

  predicate OneRun(history: seq<Run>, execution: string, i: nat) {
    && i < |history| && history[i].execution == execution
    && forall k :: 0 <= k < |history| && history[k].execution == execution ==> k == i
  }

  /** `cancel_job_execution`; `live` holds the executions that the manager's own
      ExecutionManager knows and that have not ended. */
  ghost predicate Cancelled(s: Store, id: nat, execution: string, live: set<string>, now: Time, r: Outcome<Store>) {
    if id !in s.jobs then r == Raised(NotFound)
    else if execution !in live then r == Raised(Cancellation)
    else if i: nat :| OneRun(s.history, execution, i) then
      r == Done(s.(history := s.history[i := s.history[i].(status := CANCELLED, finishedAt := Some(now))]))
    else if exists k :: 0 <= k < |s.history| && s.history[k].execution == execution then r == Raised(Integrity)
    else r == Raised(NotFound)
  }

  // ---------------------------------------------------------------------------
  // The manager
  // ---------------------------------------------------------------------------

  /** What is left of the tables after a request of this outcome. */
  function After(r: Outcome<Store>, s: Store): Store {
    match r case Done(t) => t case Raised(_) => s
  }

  class Manager {
    const db: Database
    const site: Site

    constructor (db: Database, site: Site)
      ensures this.db == db && this.site == site
    {
      this.db, this.site := db, site;
    }

    method CreateJob(id: nat, req: CreateRequest, now: Time) returns (r: Outcome<Store>)
      modifies db`store
      ensures r == Created(site, old(db.store), id, req, now)
      ensures db.store == After(r, old(db.store))
    {
      if req.notebook !in site.notebooks {
        return Raised(Validation);
      }
      if !ValidZone(site.clock, req.timezone) {
        return Raised(Schedule);
      }
      var next := None;
      if req.scheduleType == "CRON" {
        if Empty(req.cron) || !ValidCron(req.cron.value) {
          return Raised(Schedule);
        }
        match NextRun(site.clock, req.cron, req.timezone, now) {
          case At(t) => next := Some(t);
          case _ => return Raised(Overflowed);
        }
      }
      if other :| other in db.store.jobs && db.store.jobs[other].name == req.name {
        return Raised(Validation);
      }
      if id in db.store.jobs {
        return Raised(Integrity);
      }
      db.store := db.store.(jobs := db.store.jobs[id := NewJob(req, site.notebooks[req.notebook], next)]);
      r := Done(db.store);
    }

    method UpdateJob(id: nat, req: UpdateRequest, now: Time) returns (r: Outcome<Store>)
      modifies db`store
      ensures r == Edited(site, old(db.store), id, req, now)
      ensures db.store == After(r, old(db.store))
    {
      if id !in db.store.jobs {
        return Raised(NotFound);
      }
      var job := db.store.jobs[id];
      var tz := Truthy(req.timezone, job.timezone);
      if !ValidZone(site.clock, tz) {
        return Raised(Schedule);
      }
      var scheduleType := Truthy(req.scheduleType, job.scheduleType);
      var cron := OrElse(req.cron, job.cron);
      var next := job.nextRun;
      if scheduleType == "CRON" {
        if Empty(cron) || !ValidCron(cron.value) {
          return Raised(Schedule);
        }
        match NextRun(site.clock, cron, tz, now) {
          case At(t) => next := Some(t);
          case _ => return Raised(Overflowed);
        }
      }
      var written := db.Update(id, UpdateChanges(job, req, next));
      r := if written.Written? then Done(written.store) else Raised(Integrity);
    }

    method PauseJob(id: nat) returns (r: Outcome<Store>)
      modifies db`store
      ensures r == Paused(old(db.store), id)
      ensures db.store == After(r, old(db.store))
    {
      if id !in db.store.jobs {
        return Raised(NotFound);
      }
      var written := db.Update(id, Changes(status := Some(PAUSED), clearNextRun := true));
      r := Done(written.store);
    }

    method ResumeJob(id: nat, now: Time) returns (r: Outcome<Store>)
      modifies db`store
      ensures r == Resumed(site, old(db.store), id, now)
      ensures db.store == After(r, old(db.store))
    {
      if id !in db.store.jobs {
        return Raised(NotFound);
      }
      var job := db.store.jobs[id];
      var next := None;
      if job.scheduleType == "CRON" && !Empty(job.cron) {
        match NextRun(site.clock, job.cron, job.timezone, now) {
          case At(t) => next := Some(t);
          case InvalidSchedule => return Raised(Schedule);
          case Overflow => return Raised(Overflowed);
          case NoRun =>
        }
      }
      var written := db.Update(id, Changes(status := Some(ACTIVE), nextRun := next));
      r := Done(written.store);
    }

    method DeleteJob(id: nat) returns (r: Outcome<Store>)
      modifies db`store
      ensures r == Deleted(old(db.store), id)
      ensures db.store == After(r, old(db.store))
    {
      if id !in db.store.jobs {
        return Raised(NotFound);
      }
      db.store := db.store.(jobs := db.store.jobs - {id});
      r := Done(db.store);
    }

    method TriggerJobExecution(id: nat, kind: TriggerType, l: Launch) returns (r: Outcome<Store>)
      modifies db`store
      ensures r == Triggered(old(db.store), id, kind, l)
      ensures db.store == After(r, old(db.store))
    {
      if id !in db.store.jobs {
        return Raised(NotFound);
      }
      var job := db.store.jobs[id];
      if job.status in {PAUSED, DISABLED} {
        return Raised(Validation);
      }
      if job.policy == "PREVENT_OVERLAP" {
        var history := RunsOf(db.store.history, id);
        for i := 0 to |history|
          invariant forall k :: 0 <= k < i ==> !Active(history[k])
        {
          if Active(history[i]) {
            return Raised(Concurrency);
          }
        }
      }
      assert Refusal(db.store, id) == None;
      var execution := SubmitCells(l);
      if execution == None {
        return Raised(Execution);
      }
      db.AddRun(Run(id, execution.value, kind, RUNNING, l.at, None));
      var written := db.Update(id, Changes(lastRun := Some(l.at)));
      r := Done(db.store);
    }

    method SubmitCells(l: Launch) returns (execution: Option<string>)
      ensures execution == Launched(l)
    {
      if !l.session {
        return None;
      }
      if l.cells == [] {
        return l.placeholder;
      }
      execution := None;
      for i := 0 to |l.cells|
        invariant forall k :: 0 <= k < i ==> l.cells[k].Some?
        invariant i > 0 ==> execution == l.cells[i - 1]
      {
        if l.cells[i] == None {
          return None;
        }
        execution := l.cells[i];
      }
    }

    method CancelJobExecution(id: nat, execution: string, live: set<string>, now: Time) returns (r: Outcome<Store>)
      modifies db`store
      ensures Cancelled(old(db.store), id, execution, live, now, r)
      ensures db.store == After(r, old(db.store))
    {
      if id !in db.store.jobs {
        return Raised(NotFound);
      }
      if execution !in live {
        return Raised(Cancellation);
      }
      var history := db.store.history;
      var found := None;
      for i := 0 to |history|
        invariant found == None ==> forall k :: 0 <= k < i ==> history[k].execution != execution
        invariant found.Some? ==> 0 <= found.value < i && history[found.value].execution == execution
        invariant found.Some? ==> forall k :: 0 <= k < i && history[k].execution == execution ==> k == found.value
      {
        if history[i].execution == execution {
          if found.Some? {
            return Raised(Integrity);
          }
          found := Some(i);
        }
      }
      if found == None {
        return Raised(NotFound);
      }
      var i := found.value;
      assert OneRun(history, execution, i);
      db.store := db.store.(history := history[i := history[i].(status := CANCELLED, finishedAt := Some(now))]);
      r := Done(db.store);
    }
  }
}
