/**
 The execution manager: `submit_execution` and `cancel_execution` race on one
 task object. Each label is the code one of them runs between two suspension
 points; registry calls never suspend, so they are part of the label.
 */
module ExecutionManager {
  type ExecId = nat
  type CancelId = nat

  datatype TaskStatus = Queued | Validating | Running | Succeeded | Failed | TimedOut | Cancelling | Cancelled {
    predicate Terminal() {
      Succeeded? || Failed? || TimedOut? || Cancelled?
    }

    predicate Cancellable() {
      Queued? || Validating? || Running?
    }
  }

  datatype Task = Task(status: TaskStatus, completed: bool)

  /** How the inner asyncio task ends: with a worker reply, ok or not, with an
      exception, or cancelled. */
  datatype Outcome = Reply(ok: bool) | Raised | WasCancelled
  datatype Progress = Pending | Done(outcome: Outcome)

  /** The inner task, and what may have struck it or the caller waiting for it. */
  datatype Inner = Inner(progress: Progress, cancelAsked: bool, timerFired: bool, interrupted: bool)

  datatype Submit = Waiting | Resetting | Exited
  datatype Cancel = InReset(e: ExecId) | Returned(e: ExecId) | Rejected

  datatype State = State(
    tasks: map<ExecId, Task>,       // the registry
    running: map<ExecId, Inner>,    // `_running_tasks`
    submits: map<ExecId, Submit>,
    cancels: map<CancelId, Cancel>
  )

  const INIT := State(map[], map[], map[], map[])

  datatype Wake = ByResult | ByTimer | ByInterrupt

  datatype Label =
    | SubmitBegins(e: ExecId, sessionActive: bool)
    | InnerEnds(e: ExecId, o: Outcome)
    | TimerFires(e: ExecId)
    | Interrupt(e: ExecId)        // the submitting coroutine itself is cancelled
    | SubmitResumes(e: ExecId, why: Wake)
    | SubmitExits(e: ExecId)      // the reset in its handler returned, raised or was interrupted
    | CancelBegins(k: CancelId, e: ExecId)
    | CancelEnds(k: CancelId)

  predicate Waits(s: State, e: ExecId) {
    e in s.submits && s.submits[e] == Waiting && e in s.running && e in s.tasks
  }

  predicate Enabled(s: State, l: Label) {
    match l
    case SubmitBegins(e, _) => e !in s.tasks && e !in s.submits
    case InnerEnds(e, o) =>
      e in s.running && s.running[e].progress == Pending && (o == WasCancelled <==> s.running[e].cancelAsked)
    case TimerFires(e) => Waits(s, e)
    case Interrupt(e) => Waits(s, e)
    case SubmitResumes(e, why) =>
      && Waits(s, e) && s.running[e].progress.Done?
      && (why == ByTimer ==> s.running[e].timerFired)
      && (why == ByResult && s.running[e].progress.outcome == WasCancelled ==> !s.running[e].timerFired)
      && (why == ByInterrupt ==> s.running[e].interrupted)
    case SubmitExits(e) => e in s.submits && s.submits[e] == Resetting && e in s.tasks
    case CancelBegins(k, e) => k !in s.cancels
    case CancelEnds(k) => k in s.cancels && s.cancels[k].InReset? && s.cancels[k].e in s.tasks
  }

  /** The inner task is asked to stop unless it is already done. */
  function AskToStop(i: Inner): Inner {
    i.(cancelAsked := i.cancelAsked || i.progress == Pending)
  }

  function Next(s: State, l: Label): State
    requires Enabled(s, l)
  {
    match l
    case SubmitBegins(e, sessionActive) =>
      if sessionActive
      then s.(tasks := s.tasks[e := Task(Running, false)],
              running := s.running[e := Inner(Pending, false, false, false)],
              submits := s.submits[e := Waiting])
      else s.(tasks := s.tasks[e := Task(Failed, true)], submits := s.submits[e := Exited])
    case InnerEnds(e, o) => s.(running := s.running[e := s.running[e].(progress := Done(o))])
    case TimerFires(e) => s.(running := s.running[e := AskToStop(s.running[e]).(timerFired := true)])
    case Interrupt(e) => s.(running := s.running[e := AskToStop(s.running[e]).(interrupted := true)])
    case SubmitResumes(e, why) => Resumed(s, e, why)
    case SubmitExits(e) => Exit(s, e, s.tasks[e].status)
    case CancelBegins(k, e) =>
      if e in s.tasks && s.tasks[e].status.Cancellable()
      then s.(tasks := s.tasks[e := s.tasks[e].(status := Cancelling)],
              running := if e in s.running then s.running[e := AskToStop(s.running[e])] else s.running,
              cancels := s.cancels[k := InReset(e)])
      else s.(cancels := s.cancels[k := Rejected])
    case CancelEnds(k) =>
      s.(tasks := s.tasks[s.cancels[k].e := Task(Cancelled, true)], cancels := s.cancels[k := Returned(s.cancels[k].e)])
  }

  /** The `finally` block. */
  function Exit(s: State, e: ExecId, status: TaskStatus): State {
    s.(tasks := s.tasks[e := Task(status, true)], running := s.running - {e}, submits := s.submits[e := Exited])
  }

  /** The handlers for a timeout and for a cancellation go on to reset the session. */
  function Resumed(s: State, e: ExecId, why: Wake): State
    requires Enabled(s, SubmitResumes(e, why))
  {
    match why
    case ByTimer =>
      s.(tasks := s.tasks[e := s.tasks[e].(status := TimedOut)], submits := s.submits[e := Resetting])
    case ByInterrupt =>
      s.(tasks := s.tasks[e := s.tasks[e].(status := Cancelled)], submits := s.submits[e := Resetting])
    case ByResult =>
      match s.running[e].progress.outcome
      case Reply(ok) => Exit(s, e, if ok then Succeeded else Failed)
      case Raised => Exit(s, e, Failed)
      case WasCancelled =>
        s.(tasks := s.tasks[e := s.tasks[e].(status := Cancelled)], submits := s.submits[e := Resetting])
  }

  predicate Run(s: State, ls: seq<Label>)
    decreases |ls|
  {
    ls == [] || (Enabled(s, ls[0]) && Run(Next(s, ls[0]), ls[1..]))
  }

  function After(s: State, ls: seq<Label>): State
    requires Run(s, ls)
    decreases |ls|
  {
    if ls == [] then s else After(Next(s, ls[0]), ls[1..])
  }

  // ---------------------------------------------------------------------------
  // What every interleaving keeps
  // ---------------------------------------------------------------------------

  predicate Passed(s: State, k: CancelId, e: ExecId) {
    k in s.cancels && (s.cancels[k] == InReset(e) || s.cancels[k] == Returned(e))
  }

  /** A submission that has exited has cleaned up after itself; one that has not
      still has its entry, and the task can show RUNNING only while it waits. */
  predicate SubmitOk(s: State, e: ExecId) {
    && (e in s.submits <==> e in s.tasks)
    && (e in s.running <==> e in s.submits && s.submits[e] != Exited)
    && (e in s.submits && s.submits[e] == Exited ==> s.tasks[e].status.Terminal() && s.tasks[e].completed)
    && (e in s.submits && s.submits[e] == Resetting ==> s.tasks[e].status in {TimedOut, Cancelled})
    && (e in s.submits && s.submits[e] == Waiting ==> s.tasks[e].status in {Running, Cancelling, Cancelled})
  }

  /** A cancellation that passed the status check took the task out of RUNNING for
      good, so no other one can pass. While the submission waits, the task shows
      how far that cancellation has come. */
  ghost predicate CancelOk(s: State, e: ExecId) {
    && (forall k :: Passed(s, k, e) ==> e in s.tasks && s.tasks[e].status != Running)
    && (forall j, k :: Passed(s, j, e) && Passed(s, k, e) ==> j == k)
    && (Waits(s, e) && s.tasks[e].status == Cancelling ==> exists k :: Passed(s, k, e) && s.cancels[k].InReset?)
    && (Waits(s, e) && s.tasks[e].status == Cancelled ==> exists k :: Passed(s, k, e) && s.cancels[k].Returned?)
  }

  ghost predicate Inv(s: State) {
    forall e :: SubmitOk(s, e) && CancelOk(s, e)
  }

  lemma SubmitOkStep(s: State, l: Label, e: ExecId)
    requires Inv(s) && Enabled(s, l)
    ensures SubmitOk(Next(s, l), e)
  {
    assert SubmitOk(s, e);
    if l.CancelEnds? {
      assert Passed(s, l.k, s.cancels[l.k].e);
      assert CancelOk(s, s.cancels[l.k].e);
    }
  }

  /** Who had passed before a step, and who passes with it. */
  lemma PassedStep(s: State, l: Label, k: CancelId, e: ExecId)
    requires Enabled(s, l)
    ensures Passed(Next(s, l), k, e)
            <==> Passed(s, k, e) || (l == CancelBegins(k, e) && e in s.tasks && s.tasks[e].status.Cancellable())
    ensures Passed(s, k, e) && l != CancelEnds(k) ==> Next(s, l).cancels[k] == s.cancels[k]
    ensures Passed(s, k, e) && l == CancelEnds(k) ==>
              Next(s, l).cancels[k] == Returned(e) && Next(s, l).tasks[e] == Task(Cancelled, true)
  {
  }

  lemma StatusStep(s: State, l: Label, e: ExecId)
    requires Enabled(s, l) && SubmitOk(s, e) && SubmitOk(Next(s, l), e)
    ensures e in s.tasks ==> e in Next(s, l).tasks
    ensures e in s.tasks && Next(s, l).tasks[e].status == Running ==> Next(s, l).tasks[e] == s.tasks[e]
    ensures Waits(Next(s, l), e) && Next(s, l).tasks[e].status in {Cancelling, Cancelled} ==>
              Waits(s, e) && (Next(s, l).tasks[e] == s.tasks[e] || (l.CancelBegins? && l.e == e)
                              || (l.CancelEnds? && s.cancels[l.k].e == e))
  {
  }

  lemma CancelOkStep(s: State, l: Label, e: ExecId)
    requires Inv(s) && Enabled(s, l)
    ensures CancelOk(Next(s, l), e)
  {
    var t := Next(s, l);
    assert SubmitOk(s, e) && CancelOk(s, e);
    SubmitOkStep(s, l, e);
    StatusStep(s, l, e);
    forall k ensures Passed(t, k, e)
      <==> Passed(s, k, e) || (l == CancelBegins(k, e) && e in s.tasks && s.tasks[e].status.Cancellable())
    {
      PassedStep(s, l, k, e);
    }
    if Waits(t, e) && t.tasks[e].status in {Cancelling, Cancelled} {
      if t.tasks[e] == s.tasks[e] {
        var k :| Passed(s, k, e) && (t.tasks[e].status == Cancelling ==> s.cancels[k].InReset?)
                 && (t.tasks[e].status == Cancelled ==> s.cancels[k].Returned?);
        PassedStep(s, l, k, e);
        assert Passed(t, k, e);
      } else {
        assert Passed(t, l.k, e);
      }
    }
  }

  lemma InvStep(s: State, l: Label)
    requires Inv(s) && Enabled(s, l)
    ensures Inv(Next(s, l))
  {
    forall e ensures SubmitOk(Next(s, l), e) && CancelOk(Next(s, l), e) {
      SubmitOkStep(s, l, e);
      CancelOkStep(s, l, e);
    }
  }

  lemma {:induction false} InvRun(s: State, ls: seq<Label>)
    requires Inv(s) && Run(s, ls)
    ensures Inv(After(s, ls))
    decreases |ls|
  {
    if ls != [] {
      InvStep(s, ls[0]);
      InvRun(Next(s, ls[0]), ls[1..]);
    }
  }

  lemma InvInit()
    ensures Inv(INIT)
  {
  }

  /** In every interleaving a submission that has exited has dropped its entry in
      `_running_tasks`, has set `completed_at` and shows a terminal status; one
      that has not exited still has the entry; and at most one cancellation of an
      execution is ever let through. */
  lemma ExitedIsCleanedUp(ls: seq<Label>, e: ExecId, j: CancelId, k: CancelId)
    requires Run(INIT, ls)
    ensures var s := After(INIT, ls);
      && (e in s.submits && s.submits[e] == Exited ==>
            e !in s.running && e in s.tasks && s.tasks[e].status.Terminal() && s.tasks[e].completed)
      && (e in s.submits && s.submits[e] != Exited ==> e in s.running)
      && (Passed(s, j, e) && Passed(s, k, e) ==> j == k)
  {
    InvInit();
    InvRun(INIT, ls);
    assert SubmitOk(After(INIT, ls), e) && CancelOk(After(INIT, ls), e);
  }

  // ---------------------------------------------------------------------------
  // Terminal statuses
  // ---------------------------------------------------------------------------

  /** A cancellation of `e` returned while the submission still waited. */
  predicate CancelCameFirst(s: State, e: ExecId) {
    Waits(s, e) && s.tasks[e].status == Cancelled
  }

  /** The submission resumes after such a cancellation, and not into its own
      CANCELLED: its timer woke it, or an inner task that was not cancelled. */
  predicate Overwrites(s: State, l: Label, e: ExecId)
    requires Enabled(s, l)
  {
    && l.SubmitResumes? && l.e == e && CancelCameFirst(s, e)
    && (l.why == ByTimer || (l.why == ByResult && s.running[e].progress.outcome != WasCancelled))
  }

  /** Terminal statuses are never left, and change in exactly two ways: a
      cancellation between its check and its write puts CANCELLED over another
      status, or the submission overwrites a CANCELLED. The second is open exactly
      after a cancellation that returned while the submission waited. */
  lemma TerminalChanges(ls: seq<Label>, l: Label, e: ExecId)
    requires Run(INIT, ls) && Enabled(After(INIT, ls), l)
    requires e in After(INIT, ls).tasks && After(INIT, ls).tasks[e].status.Terminal()
    ensures var s := After(INIT, ls);
      var t := Next(s, l);
      && e in t.tasks && t.tasks[e].status.Terminal()
      && (t.tasks[e].status != s.tasks[e].status <==>
            || (l.CancelEnds? && s.cancels[l.k] == InReset(e) && s.tasks[e].status != Cancelled)
            || Overwrites(s, l, e))
      && (t.tasks[e].status != s.tasks[e].status && t.tasks[e].status != Cancelled <==> Overwrites(s, l, e))
      && (CancelCameFirst(s, e) <==> Waits(s, e) && exists k :: Passed(s, k, e) && s.cancels[k].Returned?)
  {
    InvInit();
    InvRun(INIT, ls);
    var s := After(INIT, ls);
    assert SubmitOk(s, e) && CancelOk(s, e);
    SubmitOkStep(s, l, e);
    hide After, Run;
    if l.CancelEnds? && s.cancels[l.k] == InReset(e) {
      assert Passed(s, l.k, e);
    }
    OneCancelShows(s, e);
  }

  /** While the submission waits, a returned cancellation still shows. */
  lemma OneCancelShows(s: State, e: ExecId)
    requires SubmitOk(s, e) && CancelOk(s, e)
    ensures CancelCameFirst(s, e) <==> Waits(s, e) && exists k :: Passed(s, k, e) && s.cancels[k].Returned?
  {
    if k :| Waits(s, e) && Passed(s, k, e) && s.cancels[k].Returned? {
      assert s.tasks[e].status != Running;
      assert forall j :: Passed(s, j, e) ==> j == k;
    }
  }

  /** A step takes a terminal status to one other than CANCELLED. */
  predicate LosesCancel(s: State, l: Label, e: ExecId) {
    && Enabled(s, l) && e in s.tasks && s.tasks[e].status.Terminal() && e in Next(s, l).tasks
    && Next(s, l).tasks[e].status != s.tasks[e].status && Next(s, l).tasks[e].status != Cancelled
  }

  /** In every reachable state, terminal statuses can only turn into CANCELLED
      exactly unless a cancellation has returned to a submission that still waits
      and has its reply, its exception or its timeout. */
  lemma OnlyCancelOverwrites(ls: seq<Label>, e: ExecId)
    requires Run(INIT, ls)
    ensures var s := After(INIT, ls);
      (forall l :: !LosesCancel(s, l, e)) <==>
        !(CancelCameFirst(s, e) && s.running[e].progress.Done?
          && (s.running[e].timerFired || s.running[e].progress.outcome != WasCancelled))
  {
    var s := After(INIT, ls);
    forall l | LosesCancel(s, l, e) ensures Overwrites(s, l, e) {
      TerminalChanges(ls, l, e);
    }
    hide Run, After;
    if CancelCameFirst(s, e) && s.running[e].progress.Done? {
      if s.running[e].timerFired {
        assert LosesCancel(s, SubmitResumes(e, ByTimer), e);
      } else if s.running[e].progress.outcome != WasCancelled {
        assert LosesCancel(s, SubmitResumes(e, ByResult), e);
      }
    }
  }

  /** No cancellation in the run returns before its submission has resumed. */
  predicate CancelsOutlastWaiting(s: State, ls: seq<Label>)
    requires Run(s, ls)
    decreases |ls|
  {
    ls == [] ||
    ((ls[0].CancelEnds? ==> !Waits(s, s.cancels[ls[0].k].e)) && CancelsOutlastWaiting(Next(s, ls[0]), ls[1..]))
  }

  lemma {:induction false} NoneCameFirst(s: State, ls: seq<Label>, e: ExecId)
    requires Inv(s) && Run(s, ls) && CancelsOutlastWaiting(s, ls) && !CancelCameFirst(s, e)
    ensures !CancelCameFirst(After(s, ls), e)
    decreases |ls|
  {
    if ls != [] {
      InvStep(s, ls[0]);
      NoneCameFirst(Next(s, ls[0]), ls[1..], e);
    }
  }

  /** So a run whose cancellations always outlast the wait (their session resets
      suspend until the submission has resumed) never loses a CANCELLED. */
  lemma OutlastingCancels(ls: seq<Label>, l: Label, e: ExecId)
    requires Run(INIT, ls) && CancelsOutlastWaiting(INIT, ls)
    ensures !LosesCancel(After(INIT, ls), l, e)
  {
    InvInit();
    NoneCameFirst(INIT, ls, e);
    OnlyCancelOverwrites(ls, e);
  }

  // ---------------------------------------------------------------------------
  // What a cancellation finds
  // ---------------------------------------------------------------------------

  predicate Passes(s: State, e: ExecId) {
    Waits(s, e) && s.tasks[e].status.Cancellable()
  }

  /** The cancellation found the inner task pending: it will end cancelled. */
  predicate Doomed(s: State, e: ExecId) {
    && e in s.submits && e in s.tasks
    && (s.submits[e] == Waiting ==>
          && e in s.running && s.tasks[e].status in {Cancelling, Cancelled} && !s.running[e].timerFired
          && s.running[e].cancelAsked && s.running[e].progress in {Pending, Done(WasCancelled)})
    && (s.submits[e] != Waiting ==> s.tasks[e].status == Cancelled)
  }

  lemma DoomedStep(s: State, l: Label, e: ExecId)
    requires Doomed(s, e) && Enabled(s, l) && l != TimerFires(e)
    ensures Doomed(Next(s, l), e)
  {
  }

  lemma {:induction false} DoomedRun(s: State, ls: seq<Label>, e: ExecId)
    requires Doomed(s, e) && Run(s, ls) && TimerFires(e) !in ls
    ensures Doomed(After(s, ls), e)
    decreases |ls|
  {
    hide Doomed;
    if ls != [] {
      DoomedStep(s, ls[0], e);
      DoomedRun(Next(s, ls[0]), ls[1..], e);
    }
  }

  /** When a cancellation that passes finds the inner task not done, and the timer
      has not fired and does not fire, then whatever else happens the submission
      goes on to CANCELLED and stays there. */
  lemma CancelOfPending(s: State, k: CancelId, e: ExecId, ls: seq<Label>)
    requires Enabled(s, CancelBegins(k, e)) && Passes(s, e)
    requires s.running[e].progress == Pending && !s.running[e].timerFired
    requires Run(Next(s, CancelBegins(k, e)), ls) && TimerFires(e) !in ls
    ensures var t := After(Next(s, CancelBegins(k, e)), ls);
      e in t.submits && e in t.tasks
      && if t.submits[e] == Waiting then t.tasks[e].status in {Cancelling, Cancelled}
         else t.tasks[e].status == Cancelled
  {
    DoomedRun(Next(s, CancelBegins(k, e)), ls, e);
  }

  /** How far the cancellation `k` and the submission it races with have come. */
  datatype Race = Open | ReturnedFirst | ResumedFirst | ReplyWins | CancelWins

  function Advance(r: Race, l: Label, k: CancelId, e: ExecId): Race {
    match r
    case Open =>
      if l == CancelEnds(k) then ReturnedFirst else if l.SubmitResumes? && l.e == e then ResumedFirst else Open
    case ReturnedFirst => if l.SubmitResumes? && l.e == e then ReplyWins else r
    case ResumedFirst => if l == CancelEnds(k) then CancelWins else r
    case _ => r
  }

  function RaceOf(ls: seq<Label>, k: CancelId, e: ExecId): Race {
    if ls == [] then Open else Advance(RaceOf(ls[..|ls| - 1], k, e), ls[|ls| - 1], k, e)
  }

  /** What the submission makes of an inner task that was not cancelled. */
  function StatusOf(o: Outcome): TaskStatus {
    if o == Reply(true) then Succeeded else Failed
  }

  ghost predicate InRace(s: State, k: CancelId, e: ExecId, o: Outcome, r: Race) {
    && e in s.tasks && e in s.submits && k in s.cancels
    && s.cancels[k] == (if r.Open? || r.ResumedFirst? then InReset(e) else Returned(e))
    && s.submits[e] == (if r.Open? || r.ReturnedFirst? then Waiting else Exited)
    && (s.submits[e] == Waiting ==>
          e in s.running && s.running[e].progress == Done(o) && !s.running[e].timerFired && !s.running[e].interrupted)
    && s.tasks[e].status == match r
         case Open => Cancelling
         case ReturnedFirst => Cancelled
         case CancelWins => Cancelled
         case _ => StatusOf(o)
  }

  predicate Undisturbed(l: Label, e: ExecId) {
    l != TimerFires(e) && l != Interrupt(e)
  }

  lemma RaceStep(s: State, l: Label, k: CancelId, e: ExecId, o: Outcome, r: Race)
    requires Inv(s) && Enabled(s, l) && InRace(s, k, e, o, r) && o != WasCancelled && Undisturbed(l, e)
    ensures InRace(Next(s, l), k, e, o, Advance(r, l, k, e))
  {
    assert Passed(s, k, e) && CancelOk(s, e);
    assert l.CancelEnds? && s.cancels[l.k].e == e ==> Passed(s, l.k, e);
  }

  lemma {:induction false} RaceRun(s: State, ls: seq<Label>, k: CancelId, e: ExecId, o: Outcome)
    requires Inv(s) && InRace(s, k, e, o, Open) && o != WasCancelled && Run(s, ls)
    requires forall i :: 0 <= i < |ls| ==> Undisturbed(ls[i], e)
    ensures InRace(After(s, ls), k, e, o, RaceOf(ls, k, e))
    decreases |ls|
  {
    hide InRace, Inv, Advance;
    if ls != [] {
      var init, l := ls[..|ls| - 1], ls[|ls| - 1];
      RunSnoc(s, ls);
      RaceRun(s, init, k, e, o);
      InvRun(s, init);
      RaceStep(After(s, init), l, k, e, o, RaceOf(init, k, e));
    }
  }

  lemma {:induction false} RunSnoc(s: State, ls: seq<Label>)
    requires ls != [] && Run(s, ls)
    ensures var init, l := ls[..|ls| - 1], ls[|ls| - 1];
      Run(s, init) && Enabled(After(s, init), l) && After(s, ls) == Next(After(s, init), l)
    decreases |ls|
  {
    hide Enabled, Next;
    if |ls| > 1 {
      assert ls[..|ls| - 1][1..] == ls[1..][..|ls| - 2];
      RunSnoc(Next(s, ls[0]), ls[1..]);
    }
  }

  lemma StartRace(s: State, k: CancelId, e: ExecId, o: Outcome)
    requires Enabled(s, CancelBegins(k, e)) && Passes(s, e) && s.running[e].progress == Done(o)
    requires !s.running[e].timerFired && !s.running[e].interrupted
    ensures InRace(Next(s, CancelBegins(k, e)), k, e, o, Open)
  {
  }

  /** When a cancellation that passes finds the inner task done, and nothing but the
      two of them touches the submission, then the last of the two to write decides:
      the task settles on the reply exactly when the cancellation returns first. */
  lemma CancelOfDone(before: seq<Label>, k: CancelId, e: ExecId, o: Outcome, ls: seq<Label>)
    requires Run(INIT, before) && Enabled(After(INIT, before), CancelBegins(k, e)) && Passes(After(INIT, before), e)
    requires After(INIT, before).running[e].progress == Done(o) && o != WasCancelled
    requires !After(INIT, before).running[e].timerFired && !After(INIT, before).running[e].interrupted
    requires Run(Next(After(INIT, before), CancelBegins(k, e)), ls)
    requires forall i :: 0 <= i < |ls| ==> Undisturbed(ls[i], e)
    ensures var t := After(Next(After(INIT, before), CancelBegins(k, e)), ls);
      && e in t.submits && e in t.tasks && k in t.cancels
      && (t.submits[e] == Exited && t.cancels[k] == Returned(e) <==> RaceOf(ls, k, e) in {ReplyWins, CancelWins})
      && (RaceOf(ls, k, e) == ReplyWins ==> t.tasks[e].status == StatusOf(o))
      && (RaceOf(ls, k, e) == CancelWins ==> t.tasks[e].status == Cancelled)
  {
    var s := After(INIT, before);
    InvInit();
    InvRun(INIT, before);
    InvStep(s, CancelBegins(k, e));
    StartRace(s, k, e, o);
    RaceRun(Next(s, CancelBegins(k, e)), ls, k, e, o);
  }

  /** Once the submission has exited and no cancellation is between its check and
      its write, the task never changes again. */
  lemma SettledStays(ls: seq<Label>, l: Label, e: ExecId)
    requires Run(INIT, ls) && Enabled(After(INIT, ls), l)
    requires e in After(INIT, ls).submits && After(INIT, ls).submits[e] == Exited
    requires forall k :: k in After(INIT, ls).cancels ==> After(INIT, ls).cancels[k] != InReset(e)
    ensures var s := After(INIT, ls);
      && e in s.tasks && e in Next(s, l).tasks && Next(s, l).tasks[e] == s.tasks[e]
      && Next(s, l).submits[e] == Exited
      && forall k :: k in Next(s, l).cancels ==> Next(s, l).cancels[k] != InReset(e)
  {
    InvInit();
    InvRun(INIT, ls);
    assert SubmitOk(After(INIT, ls), e);
  }

  /** One label of a run, for following a concrete run. */
  lemma Follow(s: State, ls: seq<Label>, k: nat)
    requires k < |ls| && Enabled(s, ls[k])
    ensures Run(s, ls[k..]) == Run(Next(s, ls[k]), ls[k + 1..])
    ensures Run(s, ls[k..]) ==> After(s, ls[k..]) == After(Next(s, ls[k]), ls[k + 1..])
  {
    assert ls[k..][1..] == ls[k + 1..];
  }

  lemma FollowEnd(s: State)
    ensures Run(s, []) && After(s, []) == s
  {
  }

  const CANCEL_RETURNS_FIRST :=
    [SubmitBegins(0, true), InnerEnds(0, Reply(true)), CancelBegins(0, 0), CancelEnds(0), SubmitResumes(0, ByResult)]

  /** The reply is in but the submission has not resumed; a cancellation passes its
      check, finds the reset impossible and returns CANCELLED; then the submission
      writes SUCCEEDED over it. */
  lemma CancelledThenSucceeded()
    ensures Run(INIT, CANCEL_RETURNS_FIRST)
    ensures Run(INIT, CANCEL_RETURNS_FIRST[..4])
    ensures After(INIT, CANCEL_RETURNS_FIRST[..4]).tasks == map[0 := Task(Cancelled, true)]
    ensures After(INIT, CANCEL_RETURNS_FIRST).tasks == map[0 := Task(Succeeded, true)]
  {
    hide Run, After;
    var ls := CANCEL_RETURNS_FIRST;
    var ms := ls[..4];
    var s1 := Next(INIT, ls[0]);
    var s2 := Next(s1, ls[1]);
    var s3 := Next(s2, ls[2]);
    var s4 := Next(s3, ls[3]);
    Follow(INIT, ls, 0);
    Follow(s1, ls, 1);
    Follow(s2, ls, 2);
    Follow(s3, ls, 3);
    Follow(s4, ls, 4);
    FollowEnd(Next(s4, ls[4]));
    Follow(INIT, ms, 0);
    Follow(s1, ms, 1);
    Follow(s2, ms, 2);
    Follow(s3, ms, 3);
    FollowEnd(s4);
    assert ls[0..] == ls && ls[5..] == [] && ms[0..] == ms && ms[4..] == [];
  }

  // ---------------------------------------------------------------------------
  // What the labels of a run make of a task
  // ---------------------------------------------------------------------------

  predicate Begun(ls: seq<Label>, e: ExecId) {
    SubmitBegins(e, true) in ls || SubmitBegins(e, false) in ls
  }

  predicate Woken(ls: seq<Label>, e: ExecId) {
    SubmitResumes(e, ByResult) in ls || SubmitResumes(e, ByTimer) in ls || SubmitResumes(e, ByInterrupt) in ls
  }

  /** The wait ended with a timeout, or with a cancellation of the submission or of
      its inner task: a reset of the session follows. */
  predicate GoesToReset(ls: seq<Label>, e: ExecId) {
    || SubmitResumes(e, ByTimer) in ls || SubmitResumes(e, ByInterrupt) in ls
    || (SubmitResumes(e, ByResult) in ls && InnerEnds(e, WasCancelled) in ls)
  }

  /** What the submission itself writes as it goes on. */
  predicate Writes(ls: seq<Label>, e: ExecId, status: TaskStatus) {
    match status
    case Succeeded => SubmitResumes(e, ByResult) in ls && InnerEnds(e, Reply(true)) in ls
    case Failed =>
      || SubmitBegins(e, false) in ls
      || (SubmitResumes(e, ByResult) in ls && (InnerEnds(e, Reply(false)) in ls || InnerEnds(e, Raised) in ls))
    case TimedOut => SubmitResumes(e, ByTimer) in ls
    case Cancelled => GoesToReset(ls, e) && SubmitResumes(e, ByTimer) !in ls
    case _ => false
  }

  /** A cancellation was asked for while the submission waited. */
  predicate CancelAsked(ls: seq<Label>, e: ExecId) {
    ls != [] &&
    var init, l := ls[..|ls| - 1], ls[|ls| - 1];
    CancelAsked(init, e) || (l.CancelBegins? && l.e == e && SubmitBegins(e, true) in init && !Woken(init, e))
  }

  /** One returned after the submission had gone on. */
  predicate CancelledLast(ls: seq<Label>, e: ExecId) {
    ls != [] &&
    var init, l := ls[..|ls| - 1], ls[|ls| - 1];
    CancelledLast(init, e) || (l.CancelEnds? && CancelBegins(l.k, e) in init && Woken(init, e))
  }

  predicate CancelOver(ls: seq<Label>, k: CancelId, e: ExecId) {
    CancelBegins(k, e) in ls && CancelEnds(k) in ls
  }

  lemma AskedSnoc(ls: seq<Label>, l: Label, e: ExecId)
    ensures CancelAsked(ls + [l], e) <==>
      CancelAsked(ls, e) || (l.CancelBegins? && l.e == e && SubmitBegins(e, true) in ls && !Woken(ls, e))
    ensures CancelledLast(ls + [l], e) <==>
      CancelledLast(ls, e) || (l.CancelEnds? && CancelBegins(l.k, e) in ls && Woken(ls, e))
  {
    assert (ls + [l])[..|ls|] == ls;
  }

  /** How far the submission has come. */
  predicate SubmitTold(ls: seq<Label>, s: State, e: ExecId) {
    && (e in s.submits <==> Begun(ls, e))
    && (Woken(ls, e) ==> SubmitBegins(e, true) in ls)
    && (SubmitBegins(e, false) in ls ==> SubmitBegins(e, true) !in ls && s.submits[e] == Exited)
    && (SubmitBegins(e, true) in ls ==> (s.submits[e] == Waiting <==> !Woken(ls, e)))
    && (SubmitBegins(e, true) in ls && s.submits[e] == Resetting ==> GoesToReset(ls, e) && SubmitExits(e) !in ls)
    && (SubmitBegins(e, true) in ls && s.submits[e] == Exited ==> !GoesToReset(ls, e) || SubmitExits(e) in ls)
    && (SubmitExits(e) in ls ==> GoesToReset(ls, e))
    && !(SubmitResumes(e, ByResult) in ls && SubmitResumes(e, ByTimer) in ls)
    && !(SubmitResumes(e, ByResult) in ls && SubmitResumes(e, ByInterrupt) in ls)
    && !(SubmitResumes(e, ByTimer) in ls && SubmitResumes(e, ByInterrupt) in ls)
  }

  /** What the inner task has come to. */
  ghost predicate InnerTold(ls: seq<Label>, s: State, e: ExecId) {
    && (forall o, p :: InnerEnds(e, o) in ls && InnerEnds(e, p) in ls ==> o == p)
    && (forall o :: InnerEnds(e, o) in ls ==> SubmitBegins(e, true) in ls)
    && (Woken(ls, e) ==> exists o :: InnerEnds(e, o) in ls)
    && (e in s.running ==> forall o :: InnerEnds(e, o) in ls <==> s.running[e].progress == Done(o))
  }

  predicate Struck(ls: seq<Label>, e: ExecId) {
    TimerFires(e) in ls || Interrupt(e) in ls || CancelAsked(ls, e)
  }

  /** What struck it, or the caller that waits for it. */
  ghost predicate StruckTold(ls: seq<Label>, s: State, e: ExecId) {
    && (e in s.running ==>
          var i := s.running[e];
          && (i.timerFired <==> TimerFires(e) in ls) && (i.interrupted <==> Interrupt(e) in ls)
          && (i.cancelAsked ==> Struck(ls, e))
          && (i.progress == Pending && Struck(ls, e) ==> i.cancelAsked)
          && (i.progress == Done(WasCancelled) ==> i.cancelAsked))
    && (SubmitBegins(e, true) !in ls ==> TimerFires(e) !in ls && Interrupt(e) !in ls)
    && (SubmitResumes(e, ByTimer) in ls ==> TimerFires(e) in ls)
    && (SubmitResumes(e, ByInterrupt) in ls ==> Interrupt(e) in ls)
    && (SubmitResumes(e, ByResult) in ls && InnerEnds(e, WasCancelled) in ls ==>
          Interrupt(e) in ls || CancelAsked(ls, e))
  }

  /** What the cancellations have come to. */
  ghost predicate CancelTold(ls: seq<Label>, s: State, e: ExecId) {
    && (forall k :: CancelBegins(k, e) in ls ==> k in s.cancels && s.cancels[k] in {Rejected, InReset(e), Returned(e)})
    && (forall k :: Passed(s, k, e) ==> CancelBegins(k, e) in ls)
    && (forall k :: CancelEnds(k) in ls <==> k in s.cancels && s.cancels[k].Returned?)
  }

  ghost predicate AskedTold(ls: seq<Label>, s: State, e: ExecId) {
    && (CancelAsked(ls, e) <==> exists k :: Passed(s, k, e))
    && (CancelAsked(ls, e) ==> SubmitBegins(e, true) in ls)
  }

  ghost predicate WaitTold(ls: seq<Label>, s: State, e: ExecId) {
    && (SubmitBegins(e, false) in ls ==> e in s.tasks && s.tasks[e] == Task(Failed, true))
    && (SubmitBegins(e, true) in ls && !Woken(ls, e) ==>
          e in s.tasks && (s.tasks[e].status == Running <==> !CancelAsked(ls, e)))
  }

  ghost predicate WakeTold(ls: seq<Label>, s: State, e: ExecId) {
    Woken(ls, e) && !CancelledLast(ls, e) ==> e in s.tasks && Writes(ls, e, s.tasks[e].status)
  }

  ghost predicate LastTold(ls: seq<Label>, s: State, e: ExecId) {
    CancelledLast(ls, e) ==> Woken(ls, e) && e in s.tasks && s.tasks[e].status == Cancelled
  }

  predicate OverFor(s: State, k: CancelId, e: ExecId) {
    k in s.cancels && s.cancels[k] == Returned(e)
  }

  /** `completed_at` is set by the two who finish. */
  ghost predicate CompletedTold(s: State, e: ExecId) {
    e in s.tasks ==>
      e in s.submits && (s.tasks[e].completed <==> s.submits[e] == Exited || exists k :: OverFor(s, k, e))
  }

  ghost predicate Told(ls: seq<Label>, s: State, e: ExecId) {
    && SubmitTold(ls, s, e) && InnerTold(ls, s, e) && StruckTold(ls, s, e) && CancelTold(ls, s, e)
    && AskedTold(ls, s, e) && WaitTold(ls, s, e) && WakeTold(ls, s, e)
    && LastTold(ls, s, e) && CompletedTold(s, e)
  }

  lemma SubmitToldStep(ls: seq<Label>, s: State, l: Label, e: ExecId)
    requires SubmitOk(s, e) && Enabled(s, l) && SubmitTold(ls, s, e) && InnerTold(ls, s, e)
    ensures SubmitTold(ls + [l], Next(s, l), e)
  {
  }

  lemma InnerToldStep(ls: seq<Label>, s: State, l: Label, e: ExecId)
    requires SubmitOk(s, e) && Enabled(s, l) && SubmitTold(ls, s, e) && InnerTold(ls, s, e)
    ensures InnerTold(ls + [l], Next(s, l), e)
  {
  }

  lemma StruckToldStep(ls: seq<Label>, s: State, l: Label, e: ExecId)
    requires SubmitOk(s, e) && Enabled(s, l) && SubmitTold(ls, s, e) && InnerTold(ls, s, e)
    requires StruckTold(ls, s, e) && AskedTold(ls, s, e) && WaitTold(ls, s, e)
    ensures StruckTold(ls + [l], Next(s, l), e)
  {
    AskedSnoc(ls, l, e);
    hide CancelAsked;
  }

  lemma CancelToldStep(ls: seq<Label>, s: State, l: Label, e: ExecId)
    requires Enabled(s, l) && CancelTold(ls, s, e)
    ensures CancelTold(ls + [l], Next(s, l), e)
  {
  }

  lemma AskedToldStep(ls: seq<Label>, s: State, l: Label, e: ExecId)
    requires SubmitOk(s, e) && Enabled(s, l) && SubmitTold(ls, s, e) && AskedTold(ls, s, e) && WaitTold(ls, s, e)
    ensures AskedTold(ls + [l], Next(s, l), e)
  {
    AskedSnoc(ls, l, e);
    var t := Next(s, l);
    hide CancelAsked;
    if k :| Passed(s, k, e) {
      PassedStep(s, l, k, e);
      assert Passed(t, k, e);
    }
    if l.CancelBegins? && l.e == e && SubmitBegins(e, true) in ls && !Woken(ls, e) && !CancelAsked(ls, e) {
      assert Passed(t, l.k, e);
    }
    if k :| Passed(t, k, e) {
      PassedStep(s, l, k, e);
    }
  }

  lemma WaitToldStep(ls: seq<Label>, s: State, l: Label, e: ExecId)
    requires SubmitOk(s, e) && CancelOk(s, e) && Enabled(s, l) && SubmitTold(ls, s, e)
    requires AskedTold(ls, s, e) && WaitTold(ls, s, e)
    ensures WaitTold(ls + [l], Next(s, l), e)
  {
    AskedSnoc(ls, l, e);
    hide CancelAsked;
    if l.CancelEnds? && s.cancels[l.k].e == e {
      assert Passed(s, l.k, e);
    }
  }

  lemma WakeToldStep(ls: seq<Label>, s: State, l: Label, e: ExecId)
    requires SubmitOk(s, e) && Enabled(s, l) && CancelTold(ls, s, e) && WakeTold(ls, s, e)
    requires SubmitTold(ls, s, e) && InnerTold(ls, s, e)
    ensures WakeTold(ls + [l], Next(s, l), e)
  {
    AskedSnoc(ls, l, e);
    hide CancelledLast;
    if l.CancelEnds? && s.cancels[l.k].e == e {
      assert Passed(s, l.k, e);
    }
  }

  lemma LastToldStep(ls: seq<Label>, s: State, l: Label, e: ExecId)
    requires SubmitOk(s, e) && Enabled(s, l) && CancelTold(ls, s, e) && LastTold(ls, s, e)
    requires SubmitTold(ls, s, e)
    ensures LastTold(ls + [l], Next(s, l), e)
  {
    AskedSnoc(ls, l, e);
    hide CancelledLast;
    if l.CancelEnds? && s.cancels[l.k].e == e {
      assert Passed(s, l.k, e);
    }
  }

  lemma CompletedToldStep(s: State, l: Label, e: ExecId)
    requires SubmitOk(s, e) && CancelOk(s, e) && Enabled(s, l) && CompletedTold(s, e)
    ensures CompletedTold(Next(s, l), e)
  {
    var t := Next(s, l);
    if k :| OverFor(s, k, e) {
      assert OverFor(t, k, e);
    }
    if l.CancelEnds? && s.cancels[l.k].e == e {
      assert OverFor(t, l.k, e);
    }
    forall k | OverFor(t, k, e) ensures OverFor(s, k, e) || (l == CancelEnds(k) && s.cancels[k].e == e) {
    }
    if e !in s.tasks {
      forall k | OverFor(s, k, e) ensures false {
        assert Passed(s, k, e);
      }
    }
  }

  lemma {:induction false} ToldRun(ls: seq<Label>, e: ExecId)
    requires Run(INIT, ls)
    ensures Told(ls, After(INIT, ls), e)
    decreases |ls|
  {
    hide Inv;
    InvInit();
    if ls == [] {
      assert After(INIT, ls) == INIT;
    } else {
      var init, l := ls[..|ls| - 1], ls[|ls| - 1];
      RunSnoc(INIT, ls);
      ToldRun(init, e);
      InvRun(INIT, init);
      assert init + [l] == ls;
      ToldStep(init, After(INIT, init), l, e);
    }
  }

  lemma ToldStep(ls: seq<Label>, s: State, l: Label, e: ExecId)
    requires Inv(s) && Enabled(s, l) && Told(ls, s, e)
    ensures Told(ls + [l], Next(s, l), e)
  {
    assert SubmitOk(s, e) && CancelOk(s, e);
    hide Inv, Enabled, Next, SubmitOk, CancelOk, SubmitTold, InnerTold;
    hide StruckTold, CancelTold, AskedTold, WaitTold, WakeTold, LastTold, CompletedTold;
    SubmitToldStep(ls, s, l, e);
    InnerToldStep(ls, s, l, e);
    StruckToldStep(ls, s, l, e);
    CancelToldStep(ls, s, l, e);
    AskedToldStep(ls, s, l, e);
    WaitToldStep(ls, s, l, e);
    WakeToldStep(ls, s, l, e);
    LastToldStep(ls, s, l, e);
    CompletedToldStep(s, l, e);
  }

  /** A submission to a session that is not ACTIVE is FAILED ever after, and no
      cancellation of it passes. */
  lemma RefusedIsFailed(ls: seq<Label>, e: ExecId, k: CancelId)
    requires Run(INIT, ls) && SubmitBegins(e, false) in ls
    ensures var s := After(INIT, ls);
      && e in s.tasks && s.tasks[e] == Task(Failed, true)
      && e in s.submits && s.submits[e] == Exited && e !in s.running && !Passed(s, k, e)
  {
    ToldRun(ls, e);
    InvInit();
    InvRun(INIT, ls);
    assert SubmitOk(After(INIT, ls), e);
  }

  /** An inner task ends cancelled exactly if something struck it before: the timer, an
      interruption of the submission, or a cancellation. */
  lemma EndsCancelled(ls: seq<Label>, e: ExecId, o: Outcome)
    requires Run(INIT, ls) && Enabled(After(INIT, ls), InnerEnds(e, o))
    ensures o == WasCancelled <==> Struck(ls, e)
  {
    ToldRun(ls, e);
  }

  /** Over every run: while the submission waits, its task is RUNNING until a
      cancellation is asked for, and CANCELLED exactly from the return of one. When
      it has gone on, its status is CANCELLED if a cancellation returned after that,
      and otherwise what its inner task or its waking says: SUCCEEDED for a reply that
      is ok, FAILED for any other reply or exception, TIMED_OUT for the timer,
      CANCELLED for an interruption. `completed_at` is set exactly when the submission
      has exited, after its reset if there is one, or a cancellation has returned. */
  lemma OutcomeOfRun(ls: seq<Label>, e: ExecId)
    requires Run(INIT, ls) && Begun(ls, e)
    ensures var s := After(INIT, ls);
      && e in s.tasks && e in s.submits
      && (s.submits[e] == Waiting <==> SubmitBegins(e, true) in ls && !Woken(ls, e))
      && (s.submits[e] == Waiting ==>
            && (s.tasks[e].status == Running <==> !CancelAsked(ls, e))
            && (s.tasks[e].status == Cancelled <==> exists k :: CancelOver(ls, k, e)))
      && (s.submits[e] != Waiting ==> forall status ::
            s.tasks[e].status == status <==>
              if CancelledLast(ls, e) then status == Cancelled else Writes(ls, e, status))
      && (s.submits[e] == Exited <==>
            || SubmitBegins(e, false) in ls || SubmitExits(e) in ls
            || (Woken(ls, e) && !GoesToReset(ls, e)))
      && (s.tasks[e].completed <==> s.submits[e] == Exited || exists k :: CancelOver(ls, k, e))
  {
    var s := After(INIT, ls);
    ToldRun(ls, e);
    InvInit();
    InvRun(INIT, ls);
    assert SubmitOk(s, e) && CancelOk(s, e);
    hide Run, After, Inv, CancelAsked, CancelledLast;
    OneCancelShows(s, e);
    assert forall k :: Passed(s, k, e) && s.cancels[k].Returned? <==> CancelOver(ls, k, e);
    assert forall k :: OverFor(s, k, e) <==> CancelOver(ls, k, e);
  }

  lemma {:induction false} LastIsOver(ls: seq<Label>, e: ExecId) returns (k: CancelId)
    requires CancelledLast(ls, e)
    ensures CancelOver(ls, k, e)
  {
    var init, l := ls[..|ls| - 1], ls[|ls| - 1];
    if CancelledLast(init, e) {
      k := LastIsOver(init, e);
    } else {
      k := l.k;
    }
    assert init + [l] == ls;
  }

  lemma LastWasAsked(ls: seq<Label>, e: ExecId)
    requires Run(INIT, ls)
    ensures CancelledLast(ls, e) ==> CancelAsked(ls, e)
  {
    ToldRun(ls, e);
    hide Run, After, CancelAsked, CancelledLast;
    if CancelledLast(ls, e) {
      var k := LastIsOver(ls, e);
      assert Passed(After(INIT, ls), k, e);
    }
  }

  /** In particular, without a cancellation while it waits, a submission that has gone
      on is SUCCEEDED exactly for a reply that is ok, FAILED exactly for another reply
      or an exception, TIMED_OUT exactly if its timer woke it, and CANCELLED exactly if
      it was interrupted: it, or the inner task because of it. */
  lemma UncancelledOutcome(ls: seq<Label>, e: ExecId)
    requires Run(INIT, ls) && SubmitBegins(e, true) in ls && Woken(ls, e) && !CancelAsked(ls, e)
    ensures e in After(INIT, ls).tasks
    ensures var status := After(INIT, ls).tasks[e].status;
      && (status == Succeeded <==> SubmitResumes(e, ByResult) in ls && InnerEnds(e, Reply(true)) in ls)
      && (status == Failed <==>
            SubmitResumes(e, ByResult) in ls && (InnerEnds(e, Reply(false)) in ls || InnerEnds(e, Raised) in ls))
      && (status == TimedOut <==> SubmitResumes(e, ByTimer) in ls)
      && (status == Cancelled <==>
            && Interrupt(e) in ls
            && (|| SubmitResumes(e, ByInterrupt) in ls
                || (SubmitResumes(e, ByResult) in ls && InnerEnds(e, WasCancelled) in ls)))
  {
    OutcomeOfRun(ls, e);
    ToldRun(ls, e);
    LastWasAsked(ls, e);
    hide Run, After, CancelAsked, CancelledLast;
  }

  // ---------------------------------------------------------------------------
  // The object
  // ---------------------------------------------------------------------------

  /** The registry and `_running_tasks`, changed in place. Where each coroutine is
      suspended is not a field of the program, so it is ghost here. */
  class Manager {
    var tasks: map<ExecId, Task>
    var running: map<ExecId, Inner>
    ghost var submits: map<ExecId, Submit>
    ghost var cancels: map<CancelId, Cancel>

    ghost function View(): State
      reads this
    {
      State(tasks, running, submits, cancels)
    }

    constructor ()
      ensures View() == INIT
    {
      tasks, running := map[], map[];
      submits, cancels := map[], map[];
    }

    /** `submit_execution` up to its wait: register, validate, start the inner task. */
    method BeginSubmit(e: ExecId, sessionActive: bool)
      requires Enabled(View(), SubmitBegins(e, sessionActive))
      modifies this
      ensures View() == Next(old(View()), SubmitBegins(e, sessionActive))
    {
      tasks := tasks[e := Task(Queued, false)];
      tasks := tasks[e := tasks[e].(status := Validating)];
      if !sessionActive {
        tasks := tasks[e := Task(Failed, true)];
        submits := submits[e := Exited];
        return;
      }
      tasks := tasks[e := tasks[e].(status := Running)];
      running := running[e := Inner(Pending, false, false, false)];
      submits := submits[e := Waiting];
    }

    /** From the end of the wait to the end, or to the reset in a handler. */
    method ResumeSubmit(e: ExecId, why: Wake)
      requires Enabled(View(), SubmitResumes(e, why))
      modifies this
      ensures View() == Next(old(View()), SubmitResumes(e, why))
    {
      var timedOut := why == ByTimer;
      var cancelled := why == ByInterrupt || (why == ByResult && running[e].progress.outcome == WasCancelled);
      if timedOut || cancelled {
        tasks := tasks[e := tasks[e].(status := if timedOut then TimedOut else Cancelled)];
        submits := submits[e := Resetting];
      } else {
        var replied := running[e].progress.outcome;
        tasks := tasks[e := tasks[e].(status := if replied == Reply(true) then Succeeded else Failed)];
        Finally(e);
      }
    }

    method ExitSubmit(e: ExecId)
      requires Enabled(View(), SubmitExits(e))
      modifies this
      ensures View() == Next(old(View()), SubmitExits(e))
    {
      Finally(e);
    }

    method Finally(e: ExecId)
      requires e in tasks
      modifies this
      ensures View() == Exit(old(View()), e, old(tasks[e].status))
    {
      running := running - {e};
      tasks := tasks[e := tasks[e].(completed := true)];
      submits := submits[e := Exited];
    }

    /** `cancel_execution` up to the session reset. */
    method BeginCancel(k: CancelId, e: ExecId) returns (passed: bool)
      requires Enabled(View(), CancelBegins(k, e))
      modifies this
      ensures View() == Next(old(View()), CancelBegins(k, e))
      ensures passed <==> Passed(View(), k, e)
    {
      passed := e in tasks && tasks[e].status.Cancellable();
      if !passed {
        cancels := cancels[k := Rejected];
        return;
      }
      tasks := tasks[e := tasks[e].(status := Cancelling)];
      if e in running && running[e].progress == Pending {
        running := running[e := running[e].(cancelAsked := true)];
      }
      cancels := cancels[k := InReset(e)];
    }

    method EndCancel(k: CancelId, e: ExecId)
      requires k in cancels && cancels[k] == InReset(e) && e in tasks
      modifies this
      ensures View() == Next(old(View()), CancelEnds(k))
    {
      tasks := tasks[e := Task(Cancelled, true)];
      cancels := cancels[k := Returned(e)];
    }
  }
}
