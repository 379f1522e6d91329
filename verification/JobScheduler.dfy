/** One tick of the scheduler: a transaction for every due job. */
module JobScheduler {
  import opened Text
  import opened CronSchedule
  import opened JobStore
  import opened JobManager

  /** How the launches of one tick come out, job by job. */
  type Launches = nat -> Launch

  /** The job's transaction succeeds: its trigger is not refused, its cells are
      submitted, and its next run can be calculated. */
  predicate Succeeds(w: Site, j: Job, runs: seq<Run>, l: Launch, now: Time) {
    && j.status !in {PAUSED, DISABLED} && !(j.policy == "PREVENT_OVERLAP" && HasActive(runs))
    && Launched(l).Some? && Replanned(w.clock, j.scheduleType, j.cron, j.timezone, now).Done?
  }

  /** The job after its transaction; without a next run the old one is kept. */
  function Ticked(w: Site, j: Job, now: Time): Job {
    match Replanned(w.clock, j.scheduleType, j.cron, j.timezone, now)
    case Done(next) => j.(lastRun := Some(now), nextRun := OrElse(next, j.nextRun))
    case Raised(_) => j
  }

  /** The record that the transaction adds. */
  function TickRun(id: nat, l: Launch): Run
    requires Launched(l).Some?
  {
    Run(id, Launched(l).value, SCHEDULED, RUNNING, l.at, None)
  }

  /** The tables after the transaction of one due job: trigger, calculate, update,
      commit; or roll back. */
  function TickJob(w: Site, s: Store, id: nat, now: Time, l: Launch): Store {
    match Triggered(s, id, SCHEDULED, l)
    case Raised(_) => s
    case Done(t) =>
      match Replanned(w.clock, s.jobs[id].scheduleType, s.jobs[id].cron, s.jobs[id].timezone, now)
      case Raised(_) => s
      case Done(next) => After(Write(t, id, Changes(nextRun := next, lastRun := Some(now))), t)
  }

  /** The transactions one after another. */
  function TickAll(w: Site, s: Store, order: seq<nat>, now: Time, ls: Launches): Store
    decreases |order|
  {
    if order == [] then s
    else TickJob(w, TickAll(w, s, order[..|order| - 1], now, ls), order[|order| - 1], now, ls(order[|order| - 1]))
  }

  /** `_evaluate_session_jobs`, in a session that has nothing uncommitted. */
  method EvaluateSessionJobs(db: Database, w: Site, now: Time, ls: Launches) returns (order: seq<nat>)
    requires db.store == db.committed
    modifies db
    ensures IsOrder(order, Due(old(db.store), now))
    ensures db.store == db.committed == TickAll(w, old(db.store), order, now, ls)
  {
    order := db.ListDue(now);
    var manager := new Manager(db, w);
    for i := 0 to |order|
      invariant db.store == db.committed == TickAll(w, old(db.store), order[..i], now, ls)
    {
      assert order[..i + 1][..i] == order[..i];
      var id := order[i];
      ghost var before := db.store;
      var run := manager.TriggerJobExecution(id, SCHEDULED, ls(id));
      if run.Raised? {
        db.Rollback();
      } else {
        var job := db.store.jobs[id];
        var next := None;
        var failed := false;
        if job.scheduleType == "CRON" && !Empty(job.cron) {
          match NextRun(w.clock, job.cron, job.timezone, now) {
            case At(t) => next := Some(t);
            case NoRun =>
            case InvalidSchedule => failed := true;
            case Overflow => failed := true;
          }
        }
        if failed {
          db.Rollback();
        } else {
          var written := db.Update(id, Changes(nextRun := next, lastRun := Some(now)));
          db.Commit();
        }
      }
      assert db.store == TickJob(w, before, id, now, ls(id));
    }
    assert order[..|order|] == order;
  }

  // ---------------------------------------------------------------------------
  // A tick is a transaction for each due job, and nothing else
  // ---------------------------------------------------------------------------

  lemma TickJobIs(w: Site, s: Store, id: nat, now: Time, l: Launch)
    requires id in s.jobs
    ensures var t := TickJob(w, s, id, now, l);
      if Succeeds(w, s.jobs[id], RunsOf(s.history, id), l, now) then
        t == Store(s.jobs[id := Ticked(w, s.jobs[id], now)], s.history + [TickRun(id, l)])
      else t == s
  {
    hide RunsOf, HasActive, Launched, Replanned;
  }

  /** What the tick of `order` makes of the job `id`. */
  ghost predicate TickedRight(w: Site, s: Store, t: Store, order: seq<nat>, now: Time, ls: Launches, id: nat) {
    && (id in t.jobs <==> id in s.jobs)
    && (id in s.jobs ==>
        if id in order && Succeeds(w, s.jobs[id], RunsOf(s.history, id), ls(id), now) then
          && t.jobs[id] == Ticked(w, s.jobs[id], now)
          && RunsOf(t.history, id) == RunsOf(s.history, id) + [TickRun(id, ls(id))]
        else t.jobs[id] == s.jobs[id] && RunsOf(t.history, id) == RunsOf(s.history, id))
    && (id !in s.jobs ==> RunsOf(t.history, id) == RunsOf(s.history, id))
  }

  /** Every due job ends either committed in full, with one new running record, or
      exactly as it was; every other job is untouched. Which of the two depends on
      the job alone, so that the order of the transactions does not matter. */
  lemma {:induction false} TickIsTransactions(w: Site, s: Store, order: seq<nat>, now: Time, ls: Launches, id: nat)
    requires forall i, j :: 0 <= i < j < |order| ==> order[i] != order[j]
    requires forall i :: i in order ==> i in s.jobs
    ensures TickedRight(w, s, TickAll(w, s, order, now, ls), order, now, ls, id)
    decreases |order|
  {
    hide TickedRight, TickJob;
    if order == [] {
      NothingTicked(w, s, now, ls, id);
    } else {
      var init, last := order[..|order| - 1], order[|order| - 1];
      var m := TickAll(w, s, init, now, ls);
      TickIsTransactions(w, s, init, now, ls, id);
      TickIsTransactions(w, s, init, now, ls, last);
      assert last !in init;
      assert order == init + [last];
      TickOneMore(w, s, m, init, last, now, ls, id);
    }
  }

  lemma NothingTicked(w: Site, s: Store, now: Time, ls: Launches, id: nat)
    ensures TickedRight(w, s, s, [], now, ls, id)
  {
  }

  lemma TickOneMore(w: Site, s: Store, m: Store, init: seq<nat>, last: nat, now: Time, ls: Launches, id: nat)
    requires last !in init && last in s.jobs
    requires TickedRight(w, s, m, init, now, ls, id) && TickedRight(w, s, m, init, now, ls, last)
    ensures TickedRight(w, s, TickJob(w, m, last, now, ls(last)), init + [last], now, ls, id)
  {
    hide Succeeds, Ticked, RunsOf, TickJob;
    var l := ls(last);
    TickJobIs(w, m, last, now, l);
    if Succeeds(w, m.jobs[last], RunsOf(m.history, last), l, now) {
      SucceedsLaunched(w, m.jobs[last], RunsOf(m.history, last), l, now);
      RunsOfAppend(m.history, TickRun(last, l), id);
    }
  }

  lemma SucceedsLaunched(w: Site, j: Job, runs: seq<Run>, l: Launch, now: Time)
    requires Succeeds(w, j, runs, l, now)
    ensures Launched(l).Some? && Replanned(w.clock, j.scheduleType, j.cron, j.timezone, now).Done?
  {
  }

  /** Two orders of the same due jobs give every job the same row and records. */
  lemma OrderDoesNotMatter(w: Site, s: Store, order: seq<nat>, other: seq<nat>, now: Time, ls: Launches)
    requires IsOrder(order, Due(s, now)) && IsOrder(other, Due(s, now))
    ensures TickAll(w, s, order, now, ls).jobs == TickAll(w, s, other, now, ls).jobs
    ensures forall id ::
      RunsOf(TickAll(w, s, order, now, ls).history, id) == RunsOf(TickAll(w, s, other, now, ls).history, id)
  {
    var a, b := TickAll(w, s, order, now, ls), TickAll(w, s, other, now, ls);
    hide Succeeds, Ticked, RunsOf, TickAll;
    forall id
      ensures (id in a.jobs <==> id in b.jobs) && (id in a.jobs ==> a.jobs[id] == b.jobs[id])
      ensures RunsOf(a.history, id) == RunsOf(b.history, id)
    {
      TickIsTransactions(w, s, order, now, ls, id);
      TickIsTransactions(w, s, other, now, ls, id);
    }
  }

  /** The job has no cron schedule, or the cron library fails on it and its minute
      field steps by zero. */
  ghost predicate StaysDue(w: Site, j: Job, now: Time) {
    || j.scheduleType != "CRON" || Empty(j.cron)
    || (&& w.clock.croniter(j.cron.value, j.timezone, now).None?
        && ValidCron(j.cron.value) && ZeroStep(MinuteField(j.cron.value)))
  }

  /** After a tick a job is due again at the same time exactly when it was due and
      its transaction failed or its next run does not advance. */
  lemma DueAgain(w: Site, s: Store, order: seq<nat>, now: Time, ls: Launches, id: nat)
    requires Sound(w.clock) && IsOrder(order, Due(s, now))
    ensures id in Due(TickAll(w, s, order, now, ls), now) <==>
      id in Due(s, now) && (var j := s.jobs[id];
        || !Succeeds(w, j, RunsOf(s.history, id), ls(id), now)
        || StaysDue(w, j, now))
  {
    hide TickAll, RunsOf, HasActive, StaysDue, Succeeds, Ticked;
    TickIsTransactions(w, s, order, now, ls, id);
    if id in Due(s, now) && Succeeds(w, s.jobs[id], RunsOf(s.history, id), ls(id), now) {
      SucceedsLaunched(w, s.jobs[id], RunsOf(s.history, id), ls(id), now);
      TickedIsDue(w, s.jobs[id], now);
    }
  }

  /** What a committed transaction makes of the row: only the two times change. A
      cron job's next run is not before `now`, and after it unless the library
      fails and the fallback stands still; any other job keeps its next run. */
  lemma CommittedMeans(w: Site, j: Job, now: Time)
    requires Sound(w.clock) && Replanned(w.clock, j.scheduleType, j.cron, j.timezone, now).Done?
    ensures var t := Ticked(w, j, now);
      && t == j.(lastRun := Some(now), nextRun := t.nextRun)
      && (j.scheduleType != "CRON" || Empty(j.cron) ==> t.nextRun == j.nextRun)
      && (j.scheduleType == "CRON" && !Empty(j.cron) ==>
            && t.nextRun.Some? && t.nextRun.value >= now
            && (t.nextRun.value > now <==> !StaysDue(w, j, now)))
  {
    if j.scheduleType == "CRON" && !Empty(j.cron) {
      assert NextRun(w.clock, j.cron, j.timezone, now) == NextRun(w.clock, Some(j.cron.value), j.timezone, now);
      RefusalMeans(w.clock, j.cron.value, j.timezone, now);
      hide NextRun, ValidCron, ZeroStep, StepMinutes;
      NextRunAdvances(w.clock, j.cron.value, j.timezone, now);
    }
  }

  lemma TickedIsDue(w: Site, j: Job, now: Time)
    requires Sound(w.clock) && IsDue(j, now) && Replanned(w.clock, j.scheduleType, j.cron, j.timezone, now).Done?
    ensures IsDue(Ticked(w, j, now), now) <==> StaysDue(w, j, now)
  {
    hide StaysDue, Ticked;
    CommittedMeans(w, j, now);
    assert j.scheduleType != "CRON" || Empty(j.cron) ==> StaysDue(w, j, now) by { NoCronStaysDue(w, j, now); }
  }

  lemma NoCronStaysDue(w: Site, j: Job, now: Time)
    ensures j.scheduleType != "CRON" || Empty(j.cron) ==> StaysDue(w, j, now)
  {
  }
}
