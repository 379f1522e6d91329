/** What each request and each due transaction comes to, column by column. */
module JobEffects {
  import R = Regex
  import opened Text
  import opened CronSchedule
  import opened JobStore
  import opened JobManager
  import opened JobScheduler

  // ---------------------------------------------------------------------------
  // Triggers
  // ---------------------------------------------------------------------------

  /** The records of a job are those of the history that name it. */
  lemma {:induction false} RunsOfMeans(history: seq<Run>, id: nat, r: Run)
    ensures r in RunsOf(history, id) <==> r in history && r.job == id
  {
    if history != [] {
      var init, last := history[..|history| - 1], history[|history| - 1];
      RunsOfMeans(init, id, r);
      assert history == init + [last];
    }
  }

  /** An execution of the job is queued or running. */
  predicate RunsNow(s: Store, id: nat) {
    exists i :: 0 <= i < |s.history| && s.history[i].job == id && s.history[i].status in {QUEUED, RUNNING}
  }

  lemma HasActiveMeans(s: Store, id: nat)
    ensures HasActive(RunsOf(s.history, id)) <==> RunsNow(s, id)
  {
    hide RunsOf;
    var mine := RunsOf(s.history, id);
    if i :| 0 <= i < |mine| && Active(mine[i]) {
      RunsOfMeans(s.history, id, mine[i]);
    }
    if i :| 0 <= i < |s.history| && s.history[i].job == id && s.history[i].status in {QUEUED, RUNNING} {
      RunsOfMeans(s.history, id, s.history[i]);
      assert s.history[i] in mine;
    }
  }

  /** Why a trigger is refused, in the order of its tests. */
  predicate Refused(s: Store, id: nat, e: JobError) {
    if id !in s.jobs then e == NotFound
    else if s.jobs[id].status == PAUSED || s.jobs[id].status == DISABLED then e == Validation
    else s.jobs[id].policy == "PREVENT_OVERLAP" && RunsNow(s, id) && e == Concurrency
  }

  /** Some submission raised, or there was nothing to submit to. */
  predicate LaunchFails(l: Launch) {
    || !l.session || (exists i :: 0 <= i < |l.cells| && l.cells[i] == None)
    || (l.cells == [] && l.placeholder == None)
  }

  /** The execution of the notebook's last code cell, or the placeholder's. */
  function LastExecution(l: Launch): string
    requires !LaunchFails(l)
  {
    if l.cells == [] then l.placeholder.value else l.cells[|l.cells| - 1].value
  }

  /** A trigger is refused exactly for a missing, paused or disabled job and, under
      PREVENT_OVERLAP, while an execution of it is queued or running; otherwise it fails
      exactly if its launch fails. When it is done there is one record more, RUNNING,
      of the given kind, with the execution of the last code cell, and the job's last
      run is the launch; nothing else changes. */
  lemma TriggerMeans(s: Store, id: nat, kind: TriggerType, l: Launch)
    ensures var r := Triggered(s, id, kind, l);
      && (forall e :: Refused(s, id, e) ==> r == Raised(e))
      && ((forall e :: !Refused(s, id, e)) ==> (r == Raised(Execution) <==> LaunchFails(l)))
      && ((forall e :: !Refused(s, id, e)) && !LaunchFails(l) ==>
            && r.Done?
            && r.value.history == s.history + [Run(id, LastExecution(l), kind, RUNNING, l.at, None)]
            && r.value.jobs == s.jobs[id := s.jobs[id].(lastRun := Some(l.at))])
  {
    HasActiveMeans(s, id);
    hide RunsOf, HasActive, RunsNow;
    assert id !in s.jobs ==> Refused(s, id, NotFound);
    assert id in s.jobs && s.jobs[id].status in {PAUSED, DISABLED} ==> Refused(s, id, Validation);
    if id in s.jobs && s.jobs[id].policy == "PREVENT_OVERLAP" && RunsNow(s, id) {
      assert s.jobs[id].status !in {PAUSED, DISABLED} ==> Refused(s, id, Concurrency);
    }
  }

  // ---------------------------------------------------------------------------
  // Next runs
  // ---------------------------------------------------------------------------

  /** The next run calculated at `now` is the library's, or where that fails as many
      minutes later as the minute field steps: not before `now`, and after it unless that
      step is zero. */
  predicate NextRunFrom(w: Site, cron: string, tz: string, now: Time, next: Option<Time>)
    requires ValidCron(cron)
  {
    && next.Some? && next.value >= now
    && next.value == (match w.clock.croniter(cron, tz, now)
                      case Some(t) => t
                      case None => now + 60_000_000 * StepMinutes(MinuteField(cron)))
    && (next.value > now <==> w.clock.croniter(cron, tz, now).Some? || !SlashThenZeros(MinuteField(cron)))
  }

  /** The field has a "/", and everything behind its first one is zeros. */
  predicate SlashThenZeros(minute: string) {
    exists p :: 0 <= p < |minute| - 1 && ZerosBehind(minute, p)
  }

  predicate ZerosBehind(minute: string, p: nat)
    requires p < |minute|
  {
    && minute[p] == '/'
    && (forall i :: 0 <= i < p ==> minute[i] != '/') && (forall i :: p < i < |minute| ==> minute[i] == '0')
  }

  lemma ZeroStepMeans(minute: string)
    ensures ZeroStep(minute) <==> SlashThenZeros(minute)
  {
    if ZeroStep(minute) {
      var p :| 0 <= p < |minute| - 1 && minute[p] == '/'
        && R.All(NotSlash, minute[..p]) && R.All(IsZero, minute[p + 1..]);
      assert forall i :: 0 <= i < p ==> minute[i] == minute[..p][i];
      assert forall i :: p < i < |minute| ==> minute[i] == minute[p + 1..][i - p - 1];
      assert ZerosBehind(minute, p);
    }
    if p :| 0 <= p < |minute| - 1 && ZerosBehind(minute, p) {
      assert R.All(NotSlash, minute[..p]) && R.All(IsZero, minute[p + 1..]);
    }
  }

  predicate IsZone(w: Site, tz: string) {
    tz != "" && w.clock.isZone(tz)
  }

  /** The schedule that a request leaves: what is wrong with it, if anything. */
  predicate ScheduleRefused(w: Site, scheduleType: string, cron: Option<string>, tz: string) {
    !IsZone(w, tz) || (scheduleType == "CRON" && (cron == None || !ValidCron(cron.value)))
  }

  lemma PlannedMeans(w: Site, scheduleType: string, cron: Option<string>, tz: string, now: Time)
    requires Sound(w.clock) && ValidZone(w.clock, tz)
    ensures var r := Planned(w.clock, scheduleType, cron, tz, now);
      && (r == Raised(Schedule) <==> ScheduleRefused(w, scheduleType, cron, tz))
      && (r.Raised? ==> r.error in {Schedule, Overflowed})
      && (r.Done? && scheduleType == "CRON" ==>
            cron.Some? && ValidCron(cron.value) && NextRunFrom(w, cron.value, tz, now, r.value))
      && (r.Done? && scheduleType != "CRON" ==> r.value == None)
  {
    if scheduleType == "CRON" && !Empty(cron) {
      assert NextRun(w.clock, cron, tz, now) == NextRun(w.clock, Some(cron.value), tz, now);
      RefusalMeans(w.clock, cron.value, tz, now);
      hide NextRun, ValidCron, StepMinutes;
      if NextRun(w.clock, Some(cron.value), tz, now).At? {
        NextRunAdvances(w.clock, cron.value, tz, now);
        NextRunTold(w.clock, cron.value, tz, now);
        hide ZeroStep, SlashThenZeros;
        ZeroStepMeans(MinuteField(cron.value));
      }
    } else if scheduleType == "CRON" && cron.Some? {
      assert !ValidCron("");
    }
  }

  // ---------------------------------------------------------------------------
  // Creation, update, resumption, pause, deletion, cancellation
  // ---------------------------------------------------------------------------

  predicate NameIsFree(s: Store, name: string) {
    forall id :: id in s.jobs ==> s.jobs[id].name != name
  }

  /** A creation fails on a missing notebook, on a schedule, on an overflow of the
      calendar, and on a name that is taken, in this order. Done, it adds one ACTIVE
      row with the columns of the request: a job created as "CRON" has its next run,
      and is due from exactly then on; any other has none, and is never due. */
  lemma CreationMeans(w: Site, s: Store, id: nat, req: CreateRequest, now: Time)
    requires Sound(w.clock)
    ensures var r := Created(w, s, id, req, now);
      var planned := req.notebook in w.notebooks && !ScheduleRefused(w, req.scheduleType, req.cron, req.timezone);
      && (req.notebook !in w.notebooks ==> r == Raised(Validation))
      && (req.notebook in w.notebooks && !planned ==> r == Raised(Schedule))
      && (planned && r != Raised(Overflowed) ==>
            if !NameIsFree(s, req.name) then r == Raised(Validation)
            else if id in s.jobs then r == Raised(Integrity) else r.Done?)
      && (r.Done? ==>
            && planned && id !in s.jobs && r.value.history == s.history
            && id in r.value.jobs && r.value.jobs - {id} == s.jobs
            && var j := r.value.jobs[id];
               && j.status == ACTIVE && j.lastRun == None && ColumnsOf(w, req, j)
               && (if req.scheduleType == "CRON"
                   then NextRunFrom(w, req.cron.value, req.timezone, now, j.nextRun) else j.nextRun == None)
               && forall time :: id in Due(r.value, time) <==> j.nextRun.Some? && j.nextRun.value <= time)
  {
    var planned := Planned(w.clock, req.scheduleType, req.cron, req.timezone, now);
    if ValidZone(w.clock, req.timezone) {
      PlannedMeans(w, req.scheduleType, req.cron, req.timezone, now);
    }
    hide Planned, ValidCron, NextRunFrom;
    if req.notebook in w.notebooks && planned.Done? {
      NewJobMeans(w, req, planned.value);
      hide NewJob, ColumnsOf;
      if id !in s.jobs {
        RowAdded(s, id, NewJob(req, w.notebooks[req.notebook], planned.value));
      }
    }
  }

  lemma NewJobMeans(w: Site, req: CreateRequest, next: Option<Time>)
    requires req.notebook in w.notebooks
    ensures var j := NewJob(req, w.notebooks[req.notebook], next);
      j.status == ACTIVE && j.lastRun == None && j.nextRun == next && ColumnsOf(w, req, j)
  {
  }

  lemma RowAdded(s: Store, id: nat, j: Job)
    requires id !in s.jobs && j.status == ACTIVE
    ensures var t := s.(jobs := s.jobs[id := j]);
      t.jobs - {id} == s.jobs && forall time :: id in Due(t, time) <==> j.nextRun.Some? && j.nextRun.value <= time
  {
  }

  /** The columns that a creation takes from its request, and from the notebook where
      the request is silent. */
  predicate ColumnsOf(w: Site, req: CreateRequest, j: Job) {
    && req.notebook in w.notebooks
    && j.name == req.name && j.description == req.description && j.notebook == req.notebook
    && j.workspace == (if req.workspace.Some? then req.workspace else w.notebooks[req.notebook].workspace)
    && j.project == (if req.project.Some? then req.project else w.notebooks[req.notebook].project)
    && IsUpper(req.scheduleType, j.scheduleType) && j.cron == req.cron && j.timezone == req.timezone
    && IsUpper(req.policy, j.policy) && j.maxRetries == req.maxRetries && j.retryDelay == req.retryDelay
    && j.parameters == req.parameters
  }

  /** `u` is `s` with its small letters made capital. */
  predicate IsUpper(s: string, u: string) {
    |u| == |s| && forall i :: 0 <= i < |s| ==>
      if 'a' <= s[i] <= 'z' then 'A' <= u[i] <= 'Z' && u[i] - 'A' == s[i] - 'a' else u[i] == s[i]
  }

  /** The row `id` alone has changed, to `j`. */
  predicate RowChanged(s: Store, t: Store, id: nat, j: Job) {
    id in s.jobs && t == s.(jobs := s.jobs[id := j])
  }

  /** The schedule that an update leaves: what it gives, else what was there. */
  function NewType(j: Job, req: UpdateRequest): string {
    if req.scheduleType.Some? && req.scheduleType.value != "" then req.scheduleType.value else j.scheduleType
  }

  function NewZone(j: Job, req: UpdateRequest): string {
    if req.timezone.Some? && req.timezone.value != "" then req.timezone.value else j.timezone
  }

  function NewCron(j: Job, req: UpdateRequest): Option<string> {
    if req.cron.Some? then req.cron else j.cron
  }

  predicate Kept<T(==)>(change: Option<T>, was: T, now: T) {
    if change.Some? then now == change.value else now == was
  }

  /** An update fails on a missing job, on the schedule it would leave, on an overflow
      and on a name of another job. Done, it writes the columns it gives and keeps the
      others; a job that it leaves "CRON" gets its next run from the expression and zone
      it leaves, and any other keeps the next run it had, even one of an abandoned
      schedule. */
  lemma UpdateMeans(w: Site, s: Store, id: nat, req: UpdateRequest, now: Time)
    requires Sound(w.clock)
    ensures var r := Edited(w, s, id, req, now);
      && (id !in s.jobs <==> r == Raised(NotFound))
      && (id in s.jobs ==>
            var j := s.jobs[id];
            var refused := ScheduleRefused(w, NewType(j, req), NewCron(j, req), NewZone(j, req));
            var clashes := req.name.Some? && exists k :: k in s.jobs && k != id && s.jobs[k].name == req.name.value;
            && (r == Raised(Schedule) <==> refused)
            && (!refused && r != Raised(Overflowed) && clashes ==> r == Raised(Integrity))
            && (!refused && r != Raised(Overflowed) && !clashes ==> r.Done?)
            && (r.Done? ==>
                  && !refused && id in r.value.jobs && RowChanged(s, r.value, id, r.value.jobs[id])
                  && UpdatedRow(w, j, req, now, r.value.jobs[id])))
  {
    if id in s.jobs {
      var j := s.jobs[id];
      var planned := Planned(w.clock, NewType(j, req), NewCron(j, req), NewZone(j, req), now);
      if ValidZone(w.clock, NewZone(j, req)) {
        PlannedMeans(w, NewType(j, req), NewCron(j, req), NewZone(j, req), now);
        if planned.Done? {
          ChangesMean(w, j, req, now, planned.value);
        }
      }
      hide Planned, ValidCron, NextRunFrom, Apply, UpdateChanges, UpdatedRow, ScheduleRefused;
      EditedIs(w, s, id, req, now);
    }
  }

  /** The order of the tests of an update, and its one write. */
  lemma EditedIs(w: Site, s: Store, id: nat, req: UpdateRequest, now: Time)
    requires id in s.jobs
    ensures var j := s.jobs[id];
      Edited(w, s, id, req, now) ==
        if !ValidZone(w.clock, NewZone(j, req)) then Raised(Schedule)
        else match Planned(w.clock, NewType(j, req), NewCron(j, req), NewZone(j, req), now)
          case Raised(e) => Raised(e)
          case Done(next) =>
            if req.name.Some? && NameTaken(s, id, req.name.value) then Raised(Integrity)
            else Done(s.(jobs := s.jobs[id := Apply(j, UpdateChanges(j, req, next))]))
  {
    hide Planned, Apply;
  }

  lemma ChangesMean(w: Site, j: Job, req: UpdateRequest, now: Time, next: Option<Time>)
    requires !ScheduleRefused(w, NewType(j, req), NewCron(j, req), NewZone(j, req))
    requires NewType(j, req) == "CRON" ==> NextRunFrom(w, NewCron(j, req).value, NewZone(j, req), now, next)
    requires NewType(j, req) != "CRON" ==> next == None
    ensures UpdatedRow(w, j, req, now, Apply(j, UpdateChanges(j, req, next)))
  {
    hide ValidCron;
  }

  predicate UpdatedRow(w: Site, j: Job, req: UpdateRequest, now: Time, t: Job)
    requires !ScheduleRefused(w, NewType(j, req), NewCron(j, req), NewZone(j, req))
  {
    && t.scheduleType == NewType(j, req) && t.cron == NewCron(j, req) && t.timezone == NewZone(j, req)
    && (if NewType(j, req) == "CRON"
        then NextRunFrom(w, NewCron(j, req).value, NewZone(j, req), now, t.nextRun) else t.nextRun == j.nextRun)
    && Kept(req.name, j.name, t.name) && Kept(req.policy, j.policy, t.policy)
    && t.description == (if req.description.Some? then req.description else j.description)
    && Kept(req.maxRetries, j.maxRetries, t.maxRetries) && Kept(req.retryDelay, j.retryDelay, t.retryDelay)
    && Kept(req.parameters, j.parameters, t.parameters)
    && t.status == j.status && t.lastRun == j.lastRun && t.notebook == j.notebook
    && t.workspace == j.workspace && t.project == j.project
  }

  /** A job has a cron schedule that can be calculated. */
  predicate HasCron(j: Job) {
    j.scheduleType == "CRON" && j.cron.Some? && j.cron.value != ""
  }

  /** A resumption fails on a missing job, and on a cron schedule that is broken or
      overflows. Done, the job is ACTIVE and nothing else changes but the next run of a
      job with a cron schedule. */
  lemma ResumptionMeans(w: Site, s: Store, id: nat, now: Time)
    requires Sound(w.clock)
    ensures var r := Resumed(w, s, id, now);
      && (id !in s.jobs <==> r == Raised(NotFound))
      && (id in s.jobs ==>
            var j := s.jobs[id];
            && (r == Raised(Schedule) <==>
                  HasCron(j) && !(IsZone(w, j.timezone) && ValidCron(j.cron.value)))
            && (!HasCron(j) ==> r == Done(s.(jobs := s.jobs[id := j.(status := ACTIVE)])))
            && (r.Raised? ==> r.error in {Schedule, Overflowed})
            && (HasCron(j) && r.Done? ==>
                  && ValidCron(j.cron.value) && id in r.value.jobs
                  && var t := r.value.jobs[id];
                     && RowChanged(s, r.value, id, j.(status := ACTIVE, nextRun := t.nextRun))
                     && NextRunFrom(w, j.cron.value, j.timezone, now, t.nextRun)))
  {
    if id in s.jobs && HasCron(s.jobs[id]) {
      var j := s.jobs[id];
      assert Replanned(w.clock, "CRON", j.cron, j.timezone, now) == Planned(w.clock, "CRON", j.cron, j.timezone, now);
      RefusalMeans(w.clock, j.cron.value, j.timezone, now);
      assert NextRun(w.clock, j.cron, j.timezone, now) == NextRun(w.clock, Some(j.cron.value), j.timezone, now);
      if ValidZone(w.clock, j.timezone) {
        PlannedMeans(w, "CRON", j.cron, j.timezone, now);
      }
      hide NextRun, ValidCron, NextRunFrom;
    }
  }

  /** A pause fails on a missing job only; the job is PAUSED without a next run, so it
      is not due at any time. */
  lemma PauseMeans(s: Store, id: nat, time: Time)
    ensures id !in s.jobs <==> Paused(s, id) == Raised(NotFound)
    ensures id in s.jobs ==>
      var t := s.(jobs := s.jobs[id := s.jobs[id].(status := PAUSED, nextRun := None)]);
      Paused(s, id) == Done(t) && Due(t, time) == Due(s, time) - {id}
  {
  }

  /** A deletion fails on a missing job only; its row goes, the others and all records
      stay. */
  lemma DeletionMeans(s: Store, id: nat, time: Time)
    ensures id !in s.jobs <==> Deleted(s, id) == Raised(NotFound)
    ensures id in s.jobs ==> Deleted(s, id).Done? && var t := Deleted(s, id).value;
      && id !in t.jobs && t.jobs.Keys == s.jobs.Keys - {id} && (forall k :: k in t.jobs ==> t.jobs[k] == s.jobs[k])
      && t.history == s.history && Due(t, time) == Due(s, time) - {id}
  {
  }

  /** A cancellation fails on a missing job, on an execution that its own manager does
      not know, and on one without a record or with several. Done, it changes the one
      record of the execution, to CANCELLED at `now`. */
  lemma CancellationMeans(s: Store, id: nat, execution: string, live: set<string>, now: Time, r: Outcome<Store>)
    requires Cancelled(s, id, execution, live, now, r)
    ensures id !in s.jobs ==> r == Raised(NotFound)
    ensures id in s.jobs ==> (r == Raised(JobError.Cancellation) <==> execution !in live)
    ensures id in s.jobs && execution in live ==>
      && (r == Raised(NotFound) <==> forall i :: 0 <= i < |s.history| ==> s.history[i].execution != execution)
      && (r == Raised(Integrity) <==>
            exists i, j :: 0 <= i < j < |s.history| && s.history[i].execution == s.history[j].execution == execution)
      && (r.Done? || r == Raised(NotFound) || r == Raised(Integrity))
    ensures r.Done? ==>
      && r.value.jobs == s.jobs && |r.value.history| == |s.history|
      && (forall i :: 0 <= i < |s.history| && s.history[i].execution != execution ==>
            r.value.history[i] == s.history[i])
      && (forall i :: 0 <= i < |s.history| && s.history[i].execution == execution ==>
            r.value.history[i] == s.history[i].(status := CANCELLED, finishedAt := Some(now)))
      && (exists i :: 0 <= i < |s.history| && s.history[i].execution == execution)
  {
    if k :| 0 <= k < |s.history| && s.history[k].execution == execution && !OneRun(s.history, execution, k) {
      var m :| 0 <= m < |s.history| && s.history[m].execution == execution && m != k;
      assert s.history[if m < k then m else k].execution == s.history[if m < k then k else m].execution == execution;
    }
  }

  // ---------------------------------------------------------------------------
  // Ticks
  // ---------------------------------------------------------------------------

  /** The next run of the job can be calculated. */
  predicate Plannable(w: Site, j: Job, now: Time) {
    HasCron(j) ==>
      && IsZone(w, j.timezone) && ValidCron(j.cron.value)
      && !NextRun(w.clock, j.cron, j.timezone, now).Overflow?
  }

  /** The row after its transaction. */
  predicate TickedRow(w: Site, j: Job, now: Time, t: Job) {
    && t == j.(lastRun := Some(now), nextRun := t.nextRun)
    && (if HasCron(j)
        then ValidCron(j.cron.value) && NextRunFrom(w, j.cron.value, j.timezone, now, t.nextRun)
        else t.nextRun == j.nextRun)
  }

  lemma TickedRowIs(w: Site, j: Job, now: Time)
    requires Sound(w.clock)
    ensures Replanned(w.clock, j.scheduleType, j.cron, j.timezone, now).Done? <==> Plannable(w, j, now)
    ensures Plannable(w, j, now) ==> TickedRow(w, j, now, Ticked(w, j, now))
  {
    if HasCron(j) {
      assert Replanned(w.clock, "CRON", j.cron, j.timezone, now) == Planned(w.clock, "CRON", j.cron, j.timezone, now);
      RefusalMeans(w.clock, j.cron.value, j.timezone, now);
      assert NextRun(w.clock, j.cron, j.timezone, now) == NextRun(w.clock, Some(j.cron.value), j.timezone, now);
      if ValidZone(w.clock, j.timezone) {
        PlannedMeans(w, "CRON", j.cron, j.timezone, now);
      }
      hide NextRun, ValidCron, NextRunFrom;
    }
  }

  /** A tick runs a job exactly if it is due, is not running under PREVENT_OVERLAP, its
      launch does not fail and its next run can be calculated: then there is one record
      more, SCHEDULED and RUNNING, with the execution of the last code cell, the last
      run is now, and the next run is calculated from now. Otherwise its row and its
      records are as they were. */
  lemma TickMeans(w: Site, s: Store, order: seq<nat>, now: Time, ls: Launches, id: nat)
    requires Sound(w.clock) && IsOrder(order, Due(s, now))
    ensures var t := TickAll(w, s, order, now, ls);
      && (id in t.jobs <==> id in s.jobs)
      && (if id in Due(s, now) && !(s.jobs[id].policy == "PREVENT_OVERLAP" && RunsNow(s, id))
             && !LaunchFails(ls(id)) && Plannable(w, s.jobs[id], now)
          then
            && TickedRow(w, s.jobs[id], now, t.jobs[id])
            && RunsOf(t.history, id) ==
                 RunsOf(s.history, id) + [Run(id, LastExecution(ls(id)), SCHEDULED, RUNNING, ls(id).at, None)]
          else (id in s.jobs ==> t.jobs[id] == s.jobs[id]) && RunsOf(t.history, id) == RunsOf(s.history, id))
  {
    TickIsTransactions(w, s, order, now, ls, id);
    HasActiveMeans(s, id);
    LaunchMeans(ls(id));
    if id in s.jobs {
      TickedRowIs(w, s.jobs[id], now);
    }
    hide TickAll, RunsOf, HasActive, RunsNow, Launched, LaunchFails, LastExecution;
    hide Ticked, TickedRow, Plannable, Replanned;
  }

  lemma LaunchMeans(l: Launch)
    ensures Launched(l).None? <==> LaunchFails(l)
    ensures !LaunchFails(l) ==> Launched(l).value == LastExecution(l)
  {
  }

  /** A job created as "CRON" runs in the first tick at or after its next run, if its
      launch succeeds and its next run can be calculated. */
  lemma CreatedJobRuns(w: Site, s: Store, id: nat, req: CreateRequest, now: Time,
      order: seq<nat>, at: Time, ls: Launches)
    requires Sound(w.clock) && id !in s.jobs && RunsOf(s.history, id) == []
    requires Created(w, s, id, req, now).Done? && req.scheduleType == "CRON"
    requires var t := Created(w, s, id, req, now).value;
      id in t.jobs && IsOrder(order, Due(t, at)) && !LaunchFails(ls(id)) && Plannable(w, t.jobs[id], at)
    ensures var t := Created(w, s, id, req, now).value;
      && t.jobs[id].nextRun.Some?
      && RunsOf(TickAll(w, t, order, at, ls).history, id) ==
           if t.jobs[id].nextRun.value <= at
           then [Run(id, LastExecution(ls(id)), SCHEDULED, RUNNING, ls(id).at, None)] else []
  {
    var t := Created(w, s, id, req, now).value;
    CreationMeans(w, s, id, req, now);
    TickMeans(w, t, order, at, ls, id);
    NoRuns(s.history, id);
    hide TickAll, RunsOf, Created, LaunchFails, LastExecution, Plannable, ValidCron, TickedRow;
  }

  /** A job that is updated to another type than "CRON" keeps the next run of its
      abandoned schedule: once that has come it is due at every tick, and stays so after
      every tick, whether it runs or not. */
  lemma AbandonedStaysDue(w: Site, s: Store, id: nat, req: UpdateRequest, now: Time,
      order: seq<nat>, at: Time, ls: Launches)
    requires Sound(w.clock) && id in s.jobs && Edited(w, s, id, req, now).Done?
    requires NewType(s.jobs[id], req) != "CRON"
    requires s.jobs[id].status == ACTIVE && s.jobs[id].nextRun.Some? && s.jobs[id].nextRun.value <= at
    requires IsOrder(order, Due(Edited(w, s, id, req, now).value, at))
    ensures var t := Edited(w, s, id, req, now).value;
      id in Due(t, at) && id in Due(TickAll(w, t, order, at, ls), at)
  {
    UpdateMeans(w, s, id, req, now);
    var t := Edited(w, s, id, req, now).value;
    TickMeans(w, t, order, at, ls, id);
    hide TickAll, RunsOf, Edited, LaunchFails, LastExecution, Plannable, ValidCron;
  }

  lemma NoRuns(history: seq<Run>, id: nat)
    requires RunsOf(history, id) == []
    ensures forall i :: 0 <= i < |history| ==> history[i].job != id
  {
    forall i | 0 <= i < |history| ensures history[i].job != id {
      RunsOfMeans(history, id, history[i]);
    }
  }
}
