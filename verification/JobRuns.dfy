/** Whole runs of requests and ticks over the job tables. */
module JobRuns {
  import opened Text
  import opened CronSchedule
  import opened JobStore
  import opened JobManager
  import opened JobScheduler

  /** One request of its own session, committed when it succeeds and rolled back
      when it raises; or one tick. A trigger is two steps: it passes the checks of
      its start, and much later, when its cells have run, it records the execution. */
  datatype Step =
    | Create(id: nat, create: CreateRequest, now: Time)
    | Update(id: nat, update: UpdateRequest, now: Time)
    | Delete(id: nat)
    | Pause(id: nat)
    | Resume(id: nat, now: Time)
    | Begin(id: nat)
    | Finish(id: nat, launch: Launch)
    | Cancel(id: nat, execution: string, live: set<string>, now: Time, result: Outcome<Store>)
    | Tick(order: seq<nat>, now: Time, launches: Launches)

  /** The tables, and for each job the number of triggers between their two steps. */
  datatype State = State(store: Store, pending: multiset<nat>)

  ghost predicate Possible(a: State, step: Step) {
    match step
    case Finish(id, _) => a.pending[id] > 0
    case Cancel(id, execution, live, now, r) => Cancelled(a.store, id, execution, live, now, r)
    case Tick(order, now, _) => IsOrder(order, Due(a.store, now))
    case _ => true
  }

  function Finished(s: Store, id: nat, l: Launch): Store {
    match Launched(l) case None => s case Some(x) => Recorded(s, id, MANUAL, x, l.at)
  }

  function Stepped(w: Site, a: State, step: Step): State {
    var s := a.store;
    match step
    case Create(id, req, now) => a.(store := After(Created(w, s, id, req, now), s))
    case Update(id, req, now) => a.(store := After(Edited(w, s, id, req, now), s))
    case Delete(id) => a.(store := After(Deleted(s, id), s))
    case Pause(id) => a.(store := After(Paused(s, id), s))
    case Resume(id, now) => a.(store := After(Resumed(w, s, id, now), s))
    case Begin(id) => if Refusal(s, id) == None then a.(pending := a.pending + multiset{id}) else a
    case Finish(id, l) => State(Finished(s, id, l), a.pending - multiset{id})
    case Cancel(_, _, _, _, r) => a.(store := After(r, s))
    case Tick(order, now, ls) => a.(store := TickAll(w, s, order, now, ls))
  }

  function Ran(w: Site, a: State, steps: seq<Step>): State
    decreases |steps|
  {
    if steps == [] then a else Ran(w, Stepped(w, a, steps[0]), steps[1..])
  }

  ghost predicate PossibleRun(w: Site, a: State, steps: seq<Step>)
    decreases |steps|
  {
    steps == [] || (Possible(a, steps[0]) && PossibleRun(w, Stepped(w, a, steps[0]), steps[1..]))
  }

  const EMPTY := State(Store(map[], []), multiset{})

  /** A trigger whose two steps follow each other is `trigger_job_execution`. */
  lemma TriggerIsBothSteps(w: Site, a: State, id: nat, l: Launch)
    ensures Refusal(a.store, id) == None ==>
      Ran(w, a, [Begin(id), Finish(id, l)]) == State(After(Triggered(a.store, id, MANUAL, l), a.store), a.pending)
    ensures Refusal(a.store, id) != None ==>
      Ran(w, a, [Begin(id)]) == State(After(Triggered(a.store, id, MANUAL, l), a.store), a.pending)
  {
    hide Refusal, Launched;
    var b := Stepped(w, a, Begin(id));
    assert [Begin(id), Finish(id, l)][1..] == [Finish(id, l)];
    assert Ran(w, b, [Finish(id, l)]) == Stepped(w, b, Finish(id, l));
    assert a.pending + multiset{id} - multiset{id} == a.pending;
  }

  // ---------------------------------------------------------------------------
  // Schedules stay valid
  // ---------------------------------------------------------------------------

  predicate Scheduled(w: Site, j: Job) {
    j.scheduleType == "CRON" ==> j.cron.Some? && ValidCron(j.cron.value) && ValidZone(w.clock, j.timezone)
  }

  /** Every job of type "CRON" has a valid expression and a valid zone. */
  ghost predicate AllScheduled(w: Site, s: Store) {
    forall id :: id in s.jobs ==> Scheduled(w, s.jobs[id])
  }

  /** A type that is stored as "CRON" is passed as "CRON", or comes with a valid
      expression. */
  predicate ExactType(req: CreateRequest) {
    Upper(req.scheduleType) == "CRON" ==> req.scheduleType == "CRON" || (req.cron.Some? && ValidCron(req.cron.value))
  }

  lemma UpperCron()
    ensures Upper("CRON") == "CRON" && Upper("cron") == "CRON"
  {
  }

  lemma PlannedIsValid(w: Site, scheduleType: string, cron: Option<string>, tz: string, now: Time)
    requires scheduleType == "CRON" && Planned(w.clock, scheduleType, cron, tz, now).Done?
    ensures cron.Some? && ValidCron(cron.value) && ValidZone(w.clock, tz)
  {
    hide ValidCron;
    assert NextRun(w.clock, cron, tz, now) == NextRun(w.clock, Some(cron.value), tz, now);
  }

  /** A creation that succeeds keeps the schedules valid exactly when its type is
      exact. */
  lemma CreateKeepsSchedules(w: Site, s: Store, id: nat, req: CreateRequest, now: Time)
    requires AllScheduled(w, s) && Created(w, s, id, req, now).Done?
    ensures AllScheduled(w, Created(w, s, id, req, now).value) <==> ExactType(req)
  {
    UpperCron();
    hide ValidCron, Planned, Upper;
    var t := Created(w, s, id, req, now).value;
    if req.scheduleType == "CRON" {
      PlannedIsValid(w, req.scheduleType, req.cron, req.timezone, now);
    }
    assert Scheduled(w, t.jobs[id]) <==> ExactType(req);
    assert forall other :: other in s.jobs ==> t.jobs[other] == s.jobs[other];
  }

  lemma WriteKeepsSchedules(w: Site, s: Store, id: nat, c: Changes)
    requires AllScheduled(w, s) && (id in s.jobs ==> Scheduled(w, Apply(s.jobs[id], c)))
    ensures AllScheduled(w, After(Write(s, id, c), s))
  {
    hide Apply, Scheduled;
  }

  lemma EditKeepsSchedules(w: Site, s: Store, id: nat, req: UpdateRequest, now: Time)
    requires AllScheduled(w, s)
    ensures AllScheduled(w, After(Edited(w, s, id, req, now), s))
  {
    hide ValidCron, Planned, AllScheduled, Write;
    if Edited(w, s, id, req, now).Done? {
      var j := s.jobs[id];
      var scheduleType, cron := Truthy(req.scheduleType, j.scheduleType), OrElse(req.cron, j.cron);
      var tz := Truthy(req.timezone, j.timezone);
      var next := Planned(w.clock, scheduleType, cron, tz, now);
      if scheduleType == "CRON" {
        PlannedIsValid(w, scheduleType, cron, tz, now);
      }
      var c := UpdateChanges(j, req, next.value);
      assert Scheduled(w, Apply(j, c));
      WriteKeepsSchedules(w, s, id, c);
    }
  }

  lemma ResumeKeepsSchedules(w: Site, s: Store, id: nat, now: Time)
    requires AllScheduled(w, s)
    ensures AllScheduled(w, After(Resumed(w, s, id, now), s))
  {
    hide ValidCron, Replanned, Write;
    if Resumed(w, s, id, now).Done? {
      var j := s.jobs[id];
      var next := Replanned(w.clock, j.scheduleType, j.cron, j.timezone, now).value;
      WriteKeepsSchedules(w, s, id, Changes(status := Some(ACTIVE), nextRun := next));
    }
  }

  lemma TickKeepsSchedules(w: Site, s: Store, order: seq<nat>, now: Time, ls: Launches)
    requires AllScheduled(w, s) && IsOrder(order, Due(s, now))
    ensures AllScheduled(w, TickAll(w, s, order, now, ls))
  {
    hide ValidCron, TickAll, RunsOf, Replanned, Succeeds;
    forall id | id in TickAll(w, s, order, now, ls).jobs ensures Scheduled(w, TickAll(w, s, order, now, ls).jobs[id]) {
      TickIsTransactions(w, s, order, now, ls, id);
    }
  }

  lemma CancelKeepsJobs(s: Store, id: nat, execution: string, live: set<string>, now: Time, r: Outcome<Store>)
    requires Cancelled(s, id, execution, live, now, r)
    ensures After(r, s).jobs == s.jobs
  {
  }

  lemma FinishKeepsSchedules(w: Site, s: Store, id: nat, l: Launch)
    requires AllScheduled(w, s)
    ensures AllScheduled(w, Finished(s, id, l))
  {
    hide ValidCron, Launched;
  }

  lemma DeleteKeepsSchedules(w: Site, s: Store, id: nat)
    requires AllScheduled(w, s)
    ensures AllScheduled(w, After(Deleted(s, id), s))
  {
    hide Scheduled;
  }

  lemma StepKeepsSchedules(w: Site, a: State, step: Step)
    requires AllScheduled(w, a.store) && Possible(a, step) && (step.Create? ==> ExactType(step.create))
    ensures AllScheduled(w, Stepped(w, a, step).store)
  {
    hide AllScheduled, ExactType, Created, Edited, Resumed, Write;
    hide Deleted, Refusal, Cancelled, TickAll, IsOrder, Finished;
    match step
    case Create(id, req, now) =>
      if Created(w, a.store, id, req, now).Done? { CreateKeepsSchedules(w, a.store, id, req, now); }
    case Update(id, req, now) => EditKeepsSchedules(w, a.store, id, req, now);
    case Delete(id) => DeleteKeepsSchedules(w, a.store, id);
    case Pause(id) => PauseKeepsSchedules(w, a.store, id);
    case Resume(id, now) => ResumeKeepsSchedules(w, a.store, id, now);
    case Begin(id) =>
    case Finish(id, l) => FinishKeepsSchedules(w, a.store, id, l);
    case Cancel(id, execution, live, now, r) => CancelKeepsSchedules(w, a.store, id, execution, live, now, r);
    case Tick(order, now, ls) => TickKeepsSchedules(w, a.store, order, now, ls);
  }

  lemma PauseKeepsSchedules(w: Site, s: Store, id: nat)
    requires AllScheduled(w, s)
    ensures AllScheduled(w, After(Paused(s, id), s))
  {
    hide ValidCron, Write;
    WriteKeepsSchedules(w, s, id, Changes(status := Some(PAUSED), clearNextRun := true));
  }

  lemma CancelKeepsSchedules(w: Site, s: Store, id: nat, execution: string,
      live: set<string>, now: Time, r: Outcome<Store>)
    requires AllScheduled(w, s) && Cancelled(s, id, execution, live, now, r)
    ensures AllScheduled(w, After(r, s))
  {
    hide Scheduled;
    CancelKeepsJobs(s, id, execution, live, now, r);
  }

  /** Over every run whose creations pass exact types, every stored cron job has a
      valid expression and zone. */
  lemma {:induction false} SchedulesStayValid(w: Site, a: State, steps: seq<Step>)
    requires AllScheduled(w, a.store) && PossibleRun(w, a, steps)
    requires forall i :: 0 <= i < |steps| && steps[i].Create? ==> ExactType(steps[i].create)
    ensures AllScheduled(w, Ran(w, a, steps).store)
    decreases |steps|
  {
    hide AllScheduled, Possible, Stepped, ExactType;
    if steps != [] {
      StepKeepsSchedules(w, a, steps[0]);
      SchedulesStayValid(w, Stepped(w, a, steps[0]), steps[1..]);
    }
  }

  /** Where schedules are valid, neither resuming nor a tick can fail on one. */
  lemma ValidSchedulesAreAccepted(w: Site, s: Store, id: nat, now: Time)
    requires AllScheduled(w, s) && id in s.jobs
    ensures Resumed(w, s, id, now) != Raised(Schedule)
    ensures var j := s.jobs[id]; Replanned(w.clock, j.scheduleType, j.cron, j.timezone, now) != Raised(Schedule)
  {
    hide ValidCron;
    assert Scheduled(w, s.jobs[id]);
  }

  /** What a resumption, or a tick for one of its due jobs, makes of a broken schedule. */
  predicate ScheduleError(w: Site, s: Store, step: Step) {
    match step
    case Resume(id, now) => Resumed(w, s, id, now) == Raised(Schedule)
    case Tick(order, now, _) => exists id :: id in order && id in s.jobs && Unplannable(w, s.jobs[id], now)
    case _ => false
  }

  predicate Unplannable(w: Site, j: Job, now: Time) {
    Replanned(w.clock, j.scheduleType, j.cron, j.timezone, now) == Raised(Schedule)
  }

  predicate NoScheduleErrors(w: Site, a: State, steps: seq<Step>)
    decreases |steps|
  {
    steps == [] || (!ScheduleError(w, a.store, steps[0]) && NoScheduleErrors(w, Stepped(w, a, steps[0]), steps[1..]))
  }

  lemma StepWithoutError(w: Site, s: Store, step: Step)
    requires AllScheduled(w, s)
    ensures !ScheduleError(w, s, step)
  {
    hide AllScheduled, Replanned;
    match step
    case Resume(id, now) =>
      if id in s.jobs {
        ValidSchedulesAreAccepted(w, s, id, now);
      }
    case Tick(order, now, _) =>
      forall id | id in order && id in s.jobs ensures !Unplannable(w, s.jobs[id], now) {
        ValidSchedulesAreAccepted(w, s, id, now);
      }
    case _ =>
  }

  /** In every run whose creations pass exact types no resumption raises a schedule
      error, and none breaks the transaction of a tick. */
  lemma {:induction false} SchedulesNeverFail(w: Site, a: State, steps: seq<Step>)
    requires AllScheduled(w, a.store) && PossibleRun(w, a, steps)
    requires forall i :: 0 <= i < |steps| && steps[i].Create? ==> ExactType(steps[i].create)
    ensures NoScheduleErrors(w, a, steps)
    decreases |steps|
  {
    hide AllScheduled, Possible, Stepped, ExactType, ScheduleError;
    if steps != [] {
      StepWithoutError(w, a.store, steps[0]);
      StepKeepsSchedules(w, a, steps[0]);
      SchedulesNeverFail(w, Stepped(w, a, steps[0]), steps[1..]);
    }
  }

  /** A creation with "cron" and a broken expression is accepted and stored as
      "CRON", and the job can then not be resumed. */
  lemma LowerCaseCron(w: Site, req: CreateRequest, now: Time)
    requires req.scheduleType == "cron" && req.cron.Some? && req.cron.value != "" && !ValidCron(req.cron.value)
    requires req.notebook in w.notebooks && ValidZone(w.clock, req.timezone)
    ensures var a := Ran(w, EMPTY, [Create(0, req, now), Pause(0)]);
      && 0 in a.store.jobs && a.store.jobs[0].scheduleType == "CRON" && !AllScheduled(w, a.store)
      && Resumed(w, a.store, 0, now) == Raised(Schedule)
  {
    UpperCron();
    hide ValidCron, Upper;
    var steps := [Create(0, req, now), Pause(0)];
    var b := Stepped(w, EMPTY, steps[0]);
    var c := Stepped(w, b, steps[1]);
    assert steps[1..] == [Pause(0)];
    assert Ran(w, b, [Pause(0)]) == c;
    assert !Scheduled(w, c.store.jobs[0]);
  }

  // ---------------------------------------------------------------------------
  // A job without a schedule is never due
  // ---------------------------------------------------------------------------

  predicate Unscheduled(s: Store, id: nat) {
    id in s.jobs ==> s.jobs[id].scheduleType != "CRON" && s.jobs[id].nextRun == None
  }

  predicate Schedules(step: Step, id: nat) {
    (step.Update? || step.Create?) && step.id == id
  }

  lemma UnscheduledTick(w: Site, s: Store, order: seq<nat>, now: Time, ls: Launches, id: nat)
    requires Unscheduled(s, id) && IsOrder(order, Due(s, now))
    ensures Unscheduled(TickAll(w, s, order, now, ls), id)
  {
    hide TickAll, RunsOf, Succeeds, Ticked;
    TickIsTransactions(w, s, order, now, ls, id);
  }

  lemma UnscheduledStep(w: Site, a: State, step: Step, id: nat)
    requires Unscheduled(a.store, id) && Possible(a, step) && !Schedules(step, id)
    ensures Unscheduled(Stepped(w, a, step).store, id)
  {
    hide Planned, Refusal, RunsOf, Launched, TickAll, IsOrder, NameTaken, Cancelled;
    match step
    case Tick(order, now, ls) => UnscheduledTick(w, a.store, order, now, ls, id);
    case Cancel(target, execution, live, now, r) => CancelKeepsJobs(a.store, target, execution, live, now, r);
    case _ =>
  }

  /** Over every run that does not update it, a job without a cron schedule that has no
      next run, such as one created under another type, is never due, however often it
      is paused, resumed or triggered. */
  lemma {:induction false} NeverDue(w: Site, a: State, steps: seq<Step>, id: nat, time: Time)
    requires Unscheduled(a.store, id) && PossibleRun(w, a, steps)
    requires forall i :: 0 <= i < |steps| ==> !Schedules(steps[i], id)
    ensures id !in Due(Ran(w, a, steps).store, time)
    decreases |steps|
  {
    hide Possible, Stepped, Schedules;
    if steps != [] {
      UnscheduledStep(w, a, steps[0], id);
      NeverDue(w, Stepped(w, a, steps[0]), steps[1..], id, time);
    }
  }

  // ---------------------------------------------------------------------------
  // A paused job does not run
  // ---------------------------------------------------------------------------

  predicate Quiet(a: State, id: nat) {
    id in a.store.jobs ==> a.store.jobs[id].status == PAUSED
  }

  /** The records of a job, and those that triggers on their way may still add. */
  function Ceiling(a: State, id: nat): nat {
    |RunsOf(a.store.history, id)| + a.pending[id]
  }

  predicate Wakes(step: Step, id: nat) {
    (step.Resume? || step.Create?) && step.id == id
  }

  lemma {:induction false} RunsOfReplaced(history: seq<Run>, i: nat, r: Run, id: nat)
    requires i < |history| && r.job == history[i].job
    ensures |RunsOf(history[i := r], id)| == |RunsOf(history, id)|
    decreases |history|
  {
    var n := |history| - 1;
    assert history[i := r][..n] == if i < n then history[..n][i := r] else history[..n];
    if i < n {
      RunsOfReplaced(history[..n], i, r, id);
    }
  }

  lemma CancelKeepsRecords(s: Store, target: nat, execution: string,
      live: set<string>, now: Time, r: Outcome<Store>, id: nat)
    requires Cancelled(s, target, execution, live, now, r)
    ensures |RunsOf(After(r, s).history, id)| == |RunsOf(s.history, id)|
  {
    hide RunsOf;
    if r.Done? && r.value != s {
      var i: nat :| OneRun(s.history, execution, i)
        && r.value.history == s.history[i := s.history[i].(status := CANCELLED, finishedAt := Some(now))];
      RunsOfReplaced(s.history, i, s.history[i].(status := CANCELLED, finishedAt := Some(now)), id);
    }
  }

  lemma FinishRecords(s: Store, target: nat, l: Launch, id: nat)
    ensures RunsOf(Finished(s, target, l).history, id) ==
      if target == id && Launched(l).Some?
      then RunsOf(s.history, id) + [Run(id, Launched(l).value, MANUAL, RUNNING, l.at, None)]
      else RunsOf(s.history, id)
  {
    hide RunsOf, Launched;
    if Launched(l).Some? {
      RunsOfAppend(s.history, Run(target, Launched(l).value, MANUAL, RUNNING, l.at, None), id);
    }
  }

  /** The status of a job changes by pausing and resuming only. */
  lemma StatusKept(w: Site, a: State, step: Step, id: nat)
    requires Possible(a, step) && id in Stepped(w, a, step).store.jobs && id in a.store.jobs
    requires !(step.Pause? && step.id == id) && !Wakes(step, id)
    ensures Stepped(w, a, step).store.jobs[id].status == a.store.jobs[id].status
  {
    hide Planned, Replanned, Refusal, RunsOf, Launched, TickAll, Succeeds, IsOrder, NameTaken, Cancelled;
    match step
    case Tick(order, now, ls) =>
      TickInside(a.store, order, now);
      TickIsTransactions(w, a.store, order, now, ls, id);
    case Cancel(target, execution, live, now, r) => CancelKeepsJobs(a.store, target, execution, live, now, r);
    case _ =>
  }

  lemma TickInside(s: Store, order: seq<nat>, now: Time)
    requires IsOrder(order, Due(s, now))
    ensures forall i, j :: 0 <= i < j < |order| ==> order[i] != order[j]
    ensures forall id :: id in order ==> id in s.jobs && IsDue(s.jobs[id], now)
  {
  }

  /** A step that does not wake a quiet job leaves it quiet and its ceiling where
      it was. */
  lemma QuietStep(w: Site, a: State, step: Step, id: nat)
    requires Quiet(a, id) && Possible(a, step) && !Wakes(step, id)
    ensures Quiet(Stepped(w, a, step), id) && Ceiling(Stepped(w, a, step), id) <= Ceiling(a, id)
  {
    QuietStatus(w, a, step, id);
    hide RunsOf, TickAll, Cancelled, IsOrder, Created, Edited, Resumed, Write, Deleted, Finished, Planned, Succeeds;
    match step
    case Finish(target, l) => FinishRecords(a.store, target, l, id);
    case Cancel(target, execution, live, now, r) => CancelKeepsRecords(a.store, target, execution, live, now, r, id);
    case Tick(order, now, ls) =>
      TickInside(a.store, order, now);
      TickIsTransactions(w, a.store, order, now, ls, id);
    case Create(target, req, now) => CreateKeepsHistory(w, a.store, target, req, now);
    case Update(target, req, now) => RequestsKeepHistory(w, a.store, target, req, now);
    case Delete(target) => RequestsKeepHistory(w, a.store, target, NOTHING, 0);
    case Pause(target) => RequestsKeepHistory(w, a.store, target, NOTHING, 0);
    case Resume(target, now) => RequestsKeepHistory(w, a.store, target, NOTHING, now);
    case Begin(_) =>
  }

  const NOTHING := UpdateRequest(None, None, None, None, None, None, None, None, None)

  lemma CreateKeepsHistory(w: Site, s: Store, id: nat, req: CreateRequest, now: Time)
    ensures After(Created(w, s, id, req, now), s).history == s.history
  {
    hide Planned;
  }

  lemma RequestsKeepHistory(w: Site, s: Store, id: nat, req: UpdateRequest, now: Time)
    ensures After(Edited(w, s, id, req, now), s).history == s.history
    ensures After(Deleted(s, id), s).history == s.history
    ensures After(Paused(s, id), s).history == s.history
    ensures After(Resumed(w, s, id, now), s).history == s.history
  {
    hide Planned, Replanned, NameTaken;
  }

  lemma QuietStatus(w: Site, a: State, step: Step, id: nat)
    requires Quiet(a, id) && Possible(a, step) && !Wakes(step, id)
    ensures Quiet(Stepped(w, a, step), id)
  {
    hide Planned, Replanned, Refusal, RunsOf, Launched, TickAll, Succeeds, IsOrder, NameTaken, Cancelled;
    var b := Stepped(w, a, step);
    if id in b.store.jobs {
      NewOnlyByCreate(w, a, step, id);
      if !(step.Pause? && step.id == id) {
        hide Stepped;
        StatusKept(w, a, step, id);
      }
    }
  }

  lemma NewOnlyByCreate(w: Site, a: State, step: Step, id: nat)
    requires Possible(a, step) && id in Stepped(w, a, step).store.jobs && !(step.Create? && step.id == id)
    ensures id in a.store.jobs
  {
    hide Planned, Replanned, Refusal, RunsOf, Launched, TickAll, Succeeds, IsOrder, NameTaken, Cancelled;
    match step
    case Tick(order, now, ls) =>
      TickInside(a.store, order, now);
      TickIsTransactions(w, a.store, order, now, ls, id);
    case Cancel(target, execution, live, now, r) => CancelKeepsJobs(a.store, target, execution, live, now, r);
    case _ =>
  }

  /** Until it is resumed, a paused job gets no record beyond those of triggers that
      had passed their checks before. */
  lemma {:induction false} PausedStaysPaused(w: Site, a: State, steps: seq<Step>, id: nat)
    requires Quiet(a, id) && PossibleRun(w, a, steps)
    requires forall i :: 0 <= i < |steps| ==> !Wakes(steps[i], id)
    ensures Quiet(Ran(w, a, steps), id)
    ensures |RunsOf(Ran(w, a, steps).store.history, id)| <= |RunsOf(a.store.history, id)| + a.pending[id]
    decreases |steps|
  {
    hide Possible, Stepped, Wakes, RunsOf, Quiet;
    if steps != [] {
      QuietStep(w, a, steps[0], id);
      PausedStaysPaused(w, Stepped(w, a, steps[0]), steps[1..], id);
    }
  }

  // ---------------------------------------------------------------------------
  // Overlap
  // ---------------------------------------------------------------------------

  /** How many executions of a job are recorded as queued or running. */
  function ActiveRuns(history: seq<Run>, id: nat): nat {
    if history == [] then 0 else
    var last := history[|history| - 1];
    ActiveRuns(history[..|history| - 1], id) + if last.job == id && Active(last) then 1 else 0
  }

  lemma ActiveRunsAppend(history: seq<Run>, r: Run, id: nat)
    ensures ActiveRuns(history + [r], id) == ActiveRuns(history, id) + if r.job == id && Active(r) then 1 else 0
  {
    assert (history + [r])[..|history|] == history;
  }

  lemma {:induction false} HasActiveIs(history: seq<Run>, id: nat)
    ensures HasActive(RunsOf(history, id)) <==> ActiveRuns(history, id) > 0
    decreases |history|
  {
    if history != [] {
      var init, last := history[..|history| - 1], history[|history| - 1];
      HasActiveIs(init, id);
      var runs := RunsOf(init, id);
      if last.job == id {
        assert (runs + [last])[|runs|] == last;
        assert forall i :: 0 <= i < |runs| ==> (runs + [last])[i] == runs[i];
      }
    }
  }

  lemma {:induction false} ActiveRunsReplaced(history: seq<Run>, i: nat, r: Run, id: nat)
    requires i < |history| && r.job == history[i].job && !Active(r)
    ensures ActiveRuns(history[i := r], id) <= ActiveRuns(history, id)
    decreases |history|
  {
    var n := |history| - 1;
    assert history[i := r][..n] == if i < n then history[..n][i := r] else history[..n];
    if i < n {
      ActiveRunsReplaced(history[..n], i, r, id);
    }
  }

  lemma CancelFreesOnly(s: Store, target: nat, execution: string,
      live: set<string>, now: Time, r: Outcome<Store>, id: nat)
    requires Cancelled(s, target, execution, live, now, r)
    ensures ActiveRuns(After(r, s).history, id) <= ActiveRuns(s.history, id)
  {
    hide ActiveRuns;
    if r.Done? && r.value != s {
      var i: nat :| OneRun(s.history, execution, i)
        && r.value.history == s.history[i := s.history[i].(status := CANCELLED, finishedAt := Some(now))];
      ActiveRunsReplaced(s.history, i, s.history[i].(status := CANCELLED, finishedAt := Some(now)), id);
    }
  }

  lemma FinishActive(s: Store, target: nat, l: Launch, id: nat)
    ensures ActiveRuns(Finished(s, target, l).history, id) ==
      ActiveRuns(s.history, id) + if target == id && Launched(l).Some? then 1 else 0
  {
    hide ActiveRuns, Launched;
    if Launched(l).Some? {
      ActiveRunsAppend(s.history, Run(target, Launched(l).value, MANUAL, RUNNING, l.at, None), id);
    }
  }

  /** Executions of a job that are recorded as active, and triggers on their way. */
  function Load(a: State, id: nat): nat {
    ActiveRuns(a.store.history, id) + a.pending[id]
  }

  /** The job keeps its policy, and none of its triggers starts while another one
      is on its way. */
  ghost predicate Serial(a: State, step: Step, id: nat) {
    && (id in a.store.jobs ==> a.store.jobs[id].policy == "PREVENT_OVERLAP")
    && ((step.Begin? && step.id == id) || (step.Tick? && id in step.order) ==> a.pending[id] == 0)
  }

  lemma {:induction false} TickLoad(w: Site, s: Store, order: seq<nat>, now: Time, ls: Launches, id: nat)
    requires id !in order || (id in s.jobs && s.jobs[id].policy == "PREVENT_OVERLAP")
    requires forall i, j :: 0 <= i < j < |order| ==> order[i] != order[j]
    requires forall i :: i in order ==> i in s.jobs
    ensures var n, m := ActiveRuns(TickAll(w, s, order, now, ls).history, id), ActiveRuns(s.history, id);
      n == m || (id in order && m == 0 && n == 1)
    decreases |order|
  {
    if order != [] {
      var init, last := order[..|order| - 1], order[|order| - 1];
      var m := TickAll(w, s, init, now, ls);
      assert last !in init && order == init + [last];
      TickLoad(w, s, init, now, ls, id);
      TickIsTransactions(w, s, init, now, ls, last);
      TickJobIs(w, m, last, now, ls(last));
      hide TickJob, RunsOf, ActiveRuns, Ticked, Replanned, Launched;
      HasActiveIs(m.history, id);
      if Succeeds(w, m.jobs[last], RunsOf(m.history, last), ls(last), now) {
        ActiveRunsAppend(m.history, TickRun(last, ls(last)), id);
      }
    }
  }

  /** A serial step keeps the load of a job at one or less. */
  lemma SerialStep(w: Site, a: State, step: Step, id: nat)
    requires Load(a, id) <= 1 && Possible(a, step) && Serial(a, step, id)
    ensures Load(Stepped(w, a, step), id) <= 1
  {
    hide ActiveRuns, RunsOf, TickAll, Cancelled, IsOrder, Created;
    hide Edited, Resumed, Write, Deleted, Finished, Planned, HasActive;
    match step
    case Finish(target, l) => FinishActive(a.store, target, l, id);
    case Cancel(target, execution, live, now, r) => CancelFreesOnly(a.store, target, execution, live, now, r, id);
    case Tick(order, now, ls) =>
      TickInside(a.store, order, now);
      TickLoad(w, a.store, order, now, ls, id);
    case Begin(target) => HasActiveIs(a.store.history, target);
    case Create(target, req, now) => CreateKeepsHistory(w, a.store, target, req, now);
    case Update(target, req, now) => RequestsKeepHistory(w, a.store, target, req, now);
    case Delete(target) => RequestsKeepHistory(w, a.store, target, NOTHING, 0);
    case Pause(target) => RequestsKeepHistory(w, a.store, target, NOTHING, 0);
    case Resume(target, now) => RequestsKeepHistory(w, a.store, target, NOTHING, now);
  }

  ghost predicate SerialRun(w: Site, a: State, steps: seq<Step>, id: nat)
    decreases |steps|
  {
    steps == [] || (Serial(a, steps[0], id) && SerialRun(w, Stepped(w, a, steps[0]), steps[1..], id))
  }

  /** In every serial run, however cancellations go, a job that keeps
      PREVENT_OVERLAP never has two queued or running records. */
  lemma {:induction false} NoOverlap(w: Site, a: State, steps: seq<Step>, id: nat)
    requires Load(a, id) <= 1 && PossibleRun(w, a, steps) && SerialRun(w, a, steps, id)
    ensures ActiveRuns(Ran(w, a, steps).store.history, id) <= 1
    decreases |steps|
  {
    hide Possible, Stepped, Serial, ActiveRuns;
    if steps != [] {
      SerialStep(w, a, steps[0], id);
      NoOverlap(w, Stepped(w, a, steps[0]), steps[1..], id);
    }
  }

  /** The condition is needed: two triggers of a job on their way at once, whatever
      its policy, both record an active execution. */
  lemma OverlapOfTwo(w: Site, a: State, id: nat, l: Launch, m: Launch)
    requires a.pending[id] >= 2 && Launched(l).Some? && Launched(m).Some?
    ensures var steps := [Finish(id, l), Finish(id, m)];
      PossibleRun(w, a, steps) && ActiveRuns(Ran(w, a, steps).store.history, id) == ActiveRuns(a.store.history, id) + 2
  {
    hide ActiveRuns, Launched, Finished;
    var steps := [Finish(id, l), Finish(id, m)];
    var b := Stepped(w, a, steps[0]);
    var c := Stepped(w, b, steps[1]);
    assert steps[1..] == [Finish(id, m)];
    assert Ran(w, b, steps[1..]) == c;
    assert PossibleRun(w, b, steps[1..]);
    FinishActive(a.store, id, l, id);
    FinishActive(b.store, id, m, id);
  }

  /** And from any state where the job may start, two triggers can be on their way. */
  lemma TwoCanBegin(w: Site, a: State, id: nat)
    requires Refusal(a.store, id) == None
    ensures Ran(w, a, [Begin(id), Begin(id)]).pending[id] == a.pending[id] + 2
    ensures PossibleRun(w, a, [Begin(id), Begin(id)])
  {
    hide Refusal;
    var steps := [Begin(id), Begin(id)];
    var b := Stepped(w, a, Begin(id));
    assert steps[1..] == [Begin(id)];
    assert Ran(w, b, steps[1..]) == Stepped(w, b, Begin(id));
    assert PossibleRun(w, b, steps[1..]);
  }

  /** So a job with PREVENT_OVERLAP that may start can end up with two active
      executions, when its second trigger starts before the first one records. */
  lemma OverlapReachable(w: Site, a: State, id: nat, l: Launch, m: Launch)
    requires Refusal(a.store, id) == None && a.store.jobs[id].policy == "PREVENT_OVERLAP"
    requires Launched(l).Some? && Launched(m).Some?
    ensures var steps := [Begin(id), Begin(id)] + [Finish(id, l), Finish(id, m)];
      PossibleRun(w, a, steps) && ActiveRuns(Ran(w, a, steps).store.history, id) == 2
  {
    TwoCanBegin(w, a, id);
    HasActiveIs(a.store.history, id);
    var first, second := [Begin(id), Begin(id)], [Finish(id, l), Finish(id, m)];
    assert Refusal(a.store, id) == None && ActiveRuns(a.store.history, id) == 0;
    BeginsKeepStore(w, a, id);
    hide Refusal, ActiveRuns, RunsOf, Launched, Stepped, Possible;
    var b := Ran(w, a, first);
    OverlapOfTwo(w, b, id, l, m);
    RanAppend(w, a, first, second);
  }

  lemma BeginsKeepStore(w: Site, a: State, id: nat)
    ensures Ran(w, a, [Begin(id), Begin(id)]).store == a.store
  {
    hide Refusal;
    var b := Stepped(w, a, Begin(id));
    assert [Begin(id), Begin(id)][1..] == [Begin(id)];
    assert Ran(w, b, [Begin(id)]) == Stepped(w, b, Begin(id));
  }

  lemma {:induction false} RanAppend(w: Site, a: State, first: seq<Step>, second: seq<Step>)
    ensures Ran(w, a, first + second) == Ran(w, Ran(w, a, first), second)
    ensures PossibleRun(w, a, first + second) <==> PossibleRun(w, a, first) && PossibleRun(w, Ran(w, a, first), second)
    decreases |first|
  {
    hide Stepped, Possible;
    if first == [] {
      assert first + second == second;
    } else {
      assert (first + second)[1..] == first[1..] + second;
      RanAppend(w, Stepped(w, a, first[0]), first[1..], second);
    }
  }

  // ---------------------------------------------------------------------------
  // Nothing ever ends
  // ---------------------------------------------------------------------------

  ghost predicate AllRunning(s: Store) {
    forall i :: 0 <= i < |s.history| ==> s.history[i].status == RUNNING && s.history[i].finishedAt == None
  }

  /** Every cancellation comes through a manager of its own, which knows no
      execution. */
  predicate FreshManager(step: Step) {
    step.Cancel? ==> step.live == {}
  }

  lemma {:induction false} TickKeepsRunning(w: Site, s: Store, order: seq<nat>, now: Time, ls: Launches)
    requires AllRunning(s)
    requires forall i, j :: 0 <= i < j < |order| ==> order[i] != order[j]
    requires forall i :: i in order ==> i in s.jobs
    ensures AllRunning(TickAll(w, s, order, now, ls))
    decreases |order|
  {
    if order != [] {
      var init, last := order[..|order| - 1], order[|order| - 1];
      TickKeepsRunning(w, s, init, now, ls);
      TickIsTransactions(w, s, init, now, ls, last);
      TickJobIs(w, TickAll(w, s, init, now, ls), last, now, ls(last));
      hide TickJob, RunsOf, Ticked, Replanned, Launched, Succeeds, TickedRight;
    }
  }

  lemma StepKeepsRunning(w: Site, a: State, step: Step)
    requires AllRunning(a.store) && Possible(a, step) && FreshManager(step)
    ensures AllRunning(Stepped(w, a, step).store)
  {
    hide TickAll, IsOrder, Created, Edited, Resumed, Write, Deleted, Planned, Refusal, Launched;
    match step
    case Tick(order, now, ls) =>
      TickInside(a.store, order, now);
      TickKeepsRunning(w, a.store, order, now, ls);
    case Create(target, req, now) => CreateKeepsHistory(w, a.store, target, req, now);
    case Update(target, req, now) => RequestsKeepHistory(w, a.store, target, req, now);
    case Delete(target) => RequestsKeepHistory(w, a.store, target, NOTHING, 0);
    case Pause(target) => RequestsKeepHistory(w, a.store, target, NOTHING, 0);
    case Resume(target, now) => RequestsKeepHistory(w, a.store, target, NOTHING, now);
    case _ =>
  }

  /** With a manager for each request no record ever leaves RUNNING. */
  lemma {:induction false} NothingEnds(w: Site, a: State, steps: seq<Step>)
    requires AllRunning(a.store) && PossibleRun(w, a, steps)
    requires forall i :: 0 <= i < |steps| ==> FreshManager(steps[i])
    ensures AllRunning(Ran(w, a, steps).store)
    decreases |steps|
  {
    hide Possible, Stepped, FreshManager, AllRunning;
    if steps != [] {
      StepKeepsRunning(w, a, steps[0]);
      NothingEnds(w, Stepped(w, a, steps[0]), steps[1..]);
    }
  }

  lemma {:induction false} RunningAreActive(history: seq<Run>, id: nat)
    requires forall i :: 0 <= i < |history| ==> history[i].status == RUNNING
    ensures ActiveRuns(history, id) == |RunsOf(history, id)|
    decreases |history|
  {
    if history != [] {
      RunningAreActive(history[..|history| - 1], id);
    }
  }

  /** So in a serial run from empty tables a job that keeps PREVENT_OVERLAP records
      one execution at most, ever, and refuses every trigger after it. */
  lemma OneExecutionEver(w: Site, steps: seq<Step>, id: nat)
    requires PossibleRun(w, EMPTY, steps) && SerialRun(w, EMPTY, steps, id)
    requires forall i :: 0 <= i < |steps| ==> FreshManager(steps[i])
    ensures var b := Ran(w, EMPTY, steps).store;
      && |RunsOf(b.history, id)| <= 1
      && (|RunsOf(b.history, id)| == 1 && id in b.jobs && b.jobs[id].policy == "PREVENT_OVERLAP" ==>
            Refusal(b, id) != None)
  {
    var b := Ran(w, EMPTY, steps).store;
    NoOverlap(w, EMPTY, steps, id);
    NothingEnds(w, EMPTY, steps);
    hide Ran, PossibleRun, SerialRun, RunsOf, ActiveRuns;
    RunningAreActive(b.history, id);
    HasActiveIs(b.history, id);
  }
}
