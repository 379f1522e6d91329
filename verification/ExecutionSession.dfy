/**
 The session object and its runtime, changed in place: one method for each stretch
 of code that a call runs between two suspension points, proved to be that label
 of the session protocol.
 */
module ExecutionSession {
  import opened Status
  import opened SessionProtocol
  import opened Text

  class Session {
    var status: SessionStatus
    var runtimeStatus: RuntimeStatus
    var processAlive: bool
    var pipe: Pipe
    // The lock's waiters and holder are kept by asyncio, the namespace by the
    // worker, and the outcome of a call by its caller.
    ghost var queue: seq<Caller>
    ghost var holder: Holder
    ghost var guests: map<CallId, Guest>
    ghost var ns: Namespace
    ghost var results: map<CallId, Result>
    ghost var next: CallId
    ghost var order: seq<Entry>
    ghost var base: nat

    ghost function View(): State
      reads this
    {
      State(status, runtimeStatus, processAlive, ns, pipe, queue, holder, guests, results, next, order, base)
    }

    /** A session that has been started. */
    constructor ()
      ensures View() == INIT
    {
      status, runtimeStatus, processAlive, pipe := Active, Running, true, NEW_PIPE;
      queue, holder, guests, ns, results, next, order, base := [], Free, map[], FRESH_NAMESPACE, map[], 0, [], 0;
    }

    /** The call `c` returns `r` to its caller; the lock is released with it. */
    ghost method Return(c: CallId, r: Result)
      modifies `holder, `guests, `results
      ensures View() == Finish(old(View()), c, r)
    {
      results := results[c := r];
      guests := guests - {c};
      if holder != Free && HolderId(holder) == c {
        holder := Free;
      }
    }

    /** `execute_cell` up to the lock; None when it goes on to wait for the lock. */
    method EnterExecuteCell(w: World, code: string) returns (refused: bool)
      modifies this
      ensures View() == Next(w, old(View()), Arrive(Execute(code)))
      ensures refused <==> old(status) != Active || old(runtimeStatus) != Running
    {
      ghost var c := next;
      next := next + 1;
      refused := true;
      if status != Active {
        results := results[c := NotActive];
        return;
      }
      if runtimeStatus != Running {
        status := Failed;
        results, order := results[c := RuntimeDown], order + [FoundDown];
        return;
      }
      refused := false;
      queue := queue + [Caller(c, Execute(code))];
    }

    /** The cell gets the lock; `execute_code` checks the runtime once more. */
    method LockedExecuteCell(w: World, c: CallId, code: string) returns (raised: bool)
      requires Enabled(w, View(), Acquire) && queue[0] == Caller(c, Execute(code))
      modifies this
      ensures View() == Next(w, old(View()), Acquire)
      ensures raised <==> old(runtimeStatus) != Running
    {
      TakeTurn();
      raised := runtimeStatus != Running;
      if raised {
        results := results[c := RuntimeDown];
        Raised();
      } else {
        holder := Sending(Request(c, Cell(code)));
      }
    }

    ghost method TakeTurn()
      requires queue != []
      modifies `queue, `order, `base
      ensures queue == old(queue)[1..] && order == old(order) + [Turn(old(queue)[0])] && base == |old(order)|
    {
      base, order, queue := |order|, order + [Turn(queue[0])], queue[1..];
    }

    /** The handler of `execute_cell`: a runtime that is down fails the session. */
    method Raised()
      modifies `status
      ensures status == if runtimeStatus != Running then Failed else old(status)
    {
      if runtimeStatus != Running {
        status := Failed;
      }
    }

    /** `verify_packages` or `install_packages` up to the send: no lock is taken. */
    method EnterVisit(w: World, task: Task) returns (raised: bool)
      requires !task.Cell?
      modifies this
      ensures View() == Next(w, old(View()), Visit(task))
      ensures raised <==> old(runtimeStatus) != Running
    {
      raised := runtimeStatus != Running;
      if raised {
        results := results[next := RuntimeDown];
      } else {
        guests := guests[next := Guest(task, false)];
      }
      next := next + 1;
    }

    /** The payload of any of the three goes into the pipe. */
    method SendRequest(w: World, r: Request)
      requires Unsent(View(), r.id) == Some(r)
      modifies this
      ensures View() == Next(w, old(View()), Send(r.id))
    {
      pipe := pipe.Put(r);
      if holder.Sending? && holder.r.id == r.id {
        holder := Awaiting(holder.r);
      }
      if r.id in guests {
        guests := guests[r.id := guests[r.id].(sent := true)];
      }
    }

    /** `recv`: whatever message is next is returned; its `request_id` is not read. */
    method ReceiveReply(w: World, c: CallId) returns (reply: Reply)
      requires Enabled(w, View(), Take(c))
      modifies this
      ensures View() == Next(w, old(View()), Take(c))
      ensures reply == old(pipe.toParent)[0].reply
    {
      var message := pipe.toParent[0];
      Return(c, Got(message.id, message.reply));
      pipe := pipe.Pop();
      reply := message.reply;
    }

    /** The polling loop finds the process dead; for a cell, its handler runs. */
    method FindProcessDead(w: World, r: Request)
      requires Enabled(w, View(), Notice(r.id)) && Awaited(View(), r.id) == Some(r)
      modifies this
      ensures View() == Next(w, old(View()), Notice(r.id))
    {
      Return(r.id, WorkerDied);
      runtimeStatus := Crashed;
      if r.task.Cell? {
        Raised();
      }
    }

    /** The polling loop runs out of time: a cell or an installation terminates the
        process, a verification only raises. */
    method TimeOut(w: World, r: Request)
      requires Enabled(w, View(), Expire(r.id)) && Awaited(View(), r.id) == Some(r)
      modifies this
      ensures View() == Next(w, old(View()), Expire(r.id))
    {
      Return(r.id, TimedOut);
      if !r.task.Verify? {
        runtimeStatus := Crashed;
        processAlive := false;
      }
      if r.task.Cell? {
        Raised();
      }
    }

    /** The start of `reset`, which checks nothing before it waits for the lock. */
    method EnterReset(w: World)
      modifies this
      ensures View() == Next(w, old(View()), Arrive(Reset))
    {
      queue, next := queue + [Caller(next, Reset)], next + 1;
    }

    /** The reset gets the lock and begins to stop the runtime. */
    method LockedReset(w: World, c: CallId) returns (refused: bool)
      requires Enabled(w, View(), Acquire) && queue[0] == Caller(c, Reset)
      modifies this
      ensures View() == Next(w, old(View()), Acquire)
      ensures refused <==> old(status) != Active
    {
      TakeTurn();
      refused := status != Active;
      if refused {
        results := results[c := NotActive];
      } else {
        runtimeStatus := Terminating;
        holder := Restarting(c);
      }
    }

    ghost method ClosePipe(broken: set<CallId>)
      modifies `guests, `results
      ensures View() == Broken(old(View()), broken)
    {
      guests, results := guests - broken, results + map g | g in broken :: PipeClosed;
    }

    /** `PythonRuntime.start`: refused over a live process; else a new pipe and a new
        process, which may exit at once. */
    method StartRuntime(startOk: bool) returns (alreadyRunning: bool)
      modifies `runtimeStatus, `processAlive, `pipe, `ns
      ensures alreadyRunning == old(processAlive)
      ensures alreadyRunning ==>
        processAlive && pipe == old(pipe) && runtimeStatus == old(runtimeStatus) && ns == old(ns)
      ensures !alreadyRunning ==>
        && pipe == NEW_PIPE && processAlive == startOk && runtimeStatus == (if startOk then Running else Crashed)
        && ns == if startOk then FRESH_NAMESPACE else old(ns)
    {
      alreadyRunning := processAlive;
      if alreadyRunning {
        return;
      }
      runtimeStatus := Launching;
      pipe := NEW_PIPE;
      processAlive := startOk;
      if !processAlive {
        runtimeStatus := Crashed;
        return;
      }
      ns := FRESH_NAMESPACE;
      runtimeStatus := Running;
    }

    /** The process has ended and its pipe is closed; a new one is started. */
    method RestartRuntime(w: World, c: CallId, startOk: bool, ghost broken: set<CallId>)
      requires Enabled(w, View(), Restart(broken)) && holder == Restarting(c) && (startOk <==> !w.fate(c).StartFails?)
      modifies this
      ensures View() == Next(w, old(View()), Restart(broken))
    {
      hide Broken, Finish;
      ClosePipe(broken);
      BrokenKeeps(old(View()), broken);
      Return(c, if startOk then Restarted else StartFailed);
      processAlive, runtimeStatus := false, Terminated;
      var refused := StartRuntime(startOk);
    }

    // -------------------------------------------------------------------------
    // What happens around the object
    // -------------------------------------------------------------------------

    /** The worker takes the next request; `o` is what its work comes to. */
    method WorkerServes(w: World, o: Outcome)
      requires Enabled(w, View(), Serve) && o == w.run(ns, pipe.toWorker[0].task)
      modifies this
      ensures View() == Next(w, old(View()), Serve)
    {
      match o
      case Replies(after, reply) =>
        ns := after;
        pipe := pipe.Answer(reply);
      case Dies =>
        processAlive := false;
        pipe := pipe.Drop();
      case Breaks(reply) =>
        processAlive := false;
        pipe := pipe.Answer(reply);
    }

    method ProcessDies(w: World)
      requires Enabled(w, View(), Die)
      modifies this
      ensures View() == Next(w, old(View()), Die)
    {
      processAlive := false;
    }

    ghost method WaiterCancelled(w: World, i: nat)
      requires Enabled(w, View(), Withdraw(i))
      modifies `queue, `results
      ensures View() == Next(w, old(View()), Withdraw(i))
    {
      queue, results := queue[..i] + queue[i + 1..], results[queue[i].id := Cancelled];
    }

    /** A caller with a request is cancelled; its thread goes on sending `unsent`, or
        receiving, on the pipe. */
    method CallerCancelled(w: World, c: CallId, unsent: Option<Request>, midTake: bool)
      requires Enabled(w, View(), Abandon(c, midTake)) && unsent == Unsent(View(), c)
      modifies this
      ensures View() == Next(w, old(View()), Abandon(c, midTake))
    {
      hide Finish;
      Return(c, Cancelled);
      if unsent.Some? {
        pipe := pipe.(lateSends := pipe.lateSends + [unsent.value]);
      } else if midTake {
        pipe := pipe.(lateTakes := pipe.lateTakes + 1);
      }
    }

    method LateThreadSends(w: World, i: nat)
      requires Enabled(w, View(), LateSend(i))
      modifies this
      ensures View() == Next(w, old(View()), LateSend(i))
    {
      pipe := pipe.SendLate(i);
    }

    method LateThreadTakes(w: World)
      requires Enabled(w, View(), LateTake)
      modifies this
      ensures View() == Next(w, old(View()), LateTake)
    {
      pipe := pipe.TakeLate();
    }
  }

  // ---------------------------------------------------------------------------
  // Using the object
  // ---------------------------------------------------------------------------

  /** One call of a method of the object, with what its coroutine or thread knows. */
  datatype Call =
    | EnterCell(code: string)
    | LockCell(c: CallId, code: string)
    | Enter(task: Task)
    | Sends(r: Request)
    | Receives(c: CallId)
    | FindsDead(r: Request)
    | RunsOut(r: Request)
    | EnterForReset
    | LockReset(c: CallId)
    | Restarts(c: CallId, startOk: bool, broken: set<CallId>)
    | Serves(o: Outcome)
    | Ends
    | CancelsWaiter(i: nat)
    | Cancels(c: CallId, unsent: Option<Request>, midTake: bool)
    | SendsLate(i: nat)
    | TakesLate

  function LabelOf(call: Call): Label {
    match call
    case EnterCell(code) => Arrive(Execute(code))
    case LockCell(_, _) => Acquire
    case Enter(task) => Visit(task)
    case Sends(r) => Send(r.id)
    case Receives(c) => Take(c)
    case FindsDead(r) => Notice(r.id)
    case RunsOut(r) => Expire(r.id)
    case EnterForReset => Arrive(Reset)
    case LockReset(_) => Acquire
    case Restarts(_, _, broken) => Restart(broken)
    case Serves(_) => Serve
    case Ends => Die
    case CancelsWaiter(i) => Withdraw(i)
    case Cancels(c, _, midTake) => Abandon(c, midTake)
    case SendsLate(i) => LateSend(i)
    case TakesLate => LateTake
  }

  /** The call can happen now, and its arguments are those of its coroutine. */
  ghost predicate Fits(w: World, s: State, call: Call) {
    && Enabled(w, s, LabelOf(call))
    && match call
       case LockCell(c, code) => s.queue[0] == Caller(c, Execute(code))
       case LockReset(c) => s.queue[0] == Caller(c, Reset)
       case Sends(r) => Unsent(s, r.id) == Some(r)
       case FindsDead(r) => Awaited(s, r.id) == Some(r)
       case RunsOut(r) => Awaited(s, r.id) == Some(r)
       case Restarts(c, startOk, _) => s.holder == Restarting(c) && (startOk <==> !w.fate(c).StartFails?)
       case Serves(o) => o == w.run(s.ns, s.pipe.toWorker[0].task)
       case Cancels(c, unsent, _) => unsent == Unsent(s, c)
       case _ => true
  }

  ghost predicate FitAll(w: World, s: State, calls: seq<Call>)
    decreases |calls|
  {
    calls == [] || (Fits(w, s, calls[0]) && FitAll(w, Next(w, s, LabelOf(calls[0])), calls[1..]))
  }

  function Labels(calls: seq<Call>): seq<Label> {
    if calls == [] then [] else [LabelOf(calls[0])] + Labels(calls[1..])
  }

  lemma {:induction false} FitIsRun(w: World, s: State, calls: seq<Call>)
    requires FitAll(w, s, calls)
    ensures Run(w, s, Labels(calls))
    decreases |calls|
  {
    hide Fits, Enabled, Next;
    if calls != [] {
      assert Labels(calls)[1..] == Labels(calls[1..]);
      assert Enabled(w, s, LabelOf(calls[0])) by { FitIsEnabled(w, s, calls[0]); }
      FitIsRun(w, Next(w, s, LabelOf(calls[0])), calls[1..]);
    }
  }

  lemma FitIsEnabled(w: World, s: State, call: Call)
    requires Fits(w, s, call)
    ensures Enabled(w, s, LabelOf(call))
  {
    hide Enabled;
  }

  method Do(session: Session, w: World, call: Call)
    requires Fits(w, session.View(), call)
    modifies session
    ensures session.View() == Next(w, old(session.View()), LabelOf(call))
  {
    hide Next;
    match call
    case EnterCell(code) => var refused := session.EnterExecuteCell(w, code);
    case LockCell(c, code) => var raised := session.LockedExecuteCell(w, c, code);
    case Enter(task) => var raised := session.EnterVisit(w, task);
    case Sends(r) => session.SendRequest(w, r);
    case Receives(c) => var reply := session.ReceiveReply(w, c);
    case FindsDead(r) => session.FindProcessDead(w, r);
    case RunsOut(r) => session.TimeOut(w, r);
    case EnterForReset => session.EnterReset(w);
    case LockReset(c) => var refused := session.LockedReset(w, c);
    case Restarts(c, startOk, broken) => session.RestartRuntime(w, c, startOk, broken);
    case Serves(o) => session.WorkerServes(w, o);
    case Ends => session.ProcessDies(w);
    case CancelsWaiter(i) => session.WaiterCancelled(w, i);
    case Cancels(c, unsent, midTake) => session.CallerCancelled(w, c, unsent, midTake);
    case SendsLate(i) => session.LateThreadSends(w, i);
    case TakesLate => session.LateThreadTakes(w);
  }

  /** A session object under any sequence of calls is in the state of the protocol's
      run; and if requests are sent one at a time, with a restart after every one that
      is left behind, every caller of it gets its own reply. */
  method Drive(w: World, calls: seq<Call>) returns (session: Session)
    requires FitAll(w, INIT, calls)
    ensures fresh(session) && Run(w, INIT, Labels(calls)) && session.View() == After(w, INIT, Labels(calls))
    ensures RestartsBeforeSending(w, INIT, Labels(calls), false) ==> OwnReplies(session.results)
  {
    FitIsRun(w, INIT, calls);
    session := new Session();
    for i := 0 to |calls|
      invariant fresh(session) && FitAll(w, session.View(), calls[i..])
      invariant Run(w, session.View(), Labels(calls[i..]))
      invariant After(w, session.View(), Labels(calls[i..])) == After(w, INIT, Labels(calls))
    {
      hide Fits, Next, Enabled, Run, After;
      ghost var s := session.View();
      FitAllStep(w, s, calls[i..]);
      assert calls[i..][1..] == calls[i + 1..];
      Do(session, w, calls[i]);
    }
    assert calls[|calls|..] == [];
    if RestartsBeforeSending(w, INIT, Labels(calls), false) {
      ResponseIntegrity(w, Labels(calls));
    }
  }

  lemma FitAllStep(w: World, s: State, calls: seq<Call>)
    requires FitAll(w, s, calls) && calls != [] && Run(w, s, Labels(calls))
    ensures Fits(w, s, calls[0]) && Enabled(w, s, LabelOf(calls[0]))
    ensures var t := Next(w, s, LabelOf(calls[0]));
      && FitAll(w, t, calls[1..]) && Run(w, t, Labels(calls[1..]))
      && After(w, s, Labels(calls)) == After(w, t, Labels(calls[1..]))
  {
    FitIsEnabled(w, s, calls[0]);
    hide Fits, Next, Enabled;
    assert Labels(calls)[1..] == Labels(calls[1..]);
  }
}
