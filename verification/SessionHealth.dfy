/**
 What the labels of a run say about the session, its runtime and its process: who is
 refused, what every call returns, and what a timeout or a dead process leaves.
 */
module SessionHealth {
  import opened Status
  import opened Text
  import opened SessionProtocol

  /** The label takes the runtime down: a caller finds the process dead, a cell or an
      installation times out, or a restart fails. */
  predicate TakesDown(w: World, s: State, l: Label)
    requires Enabled(w, s, l)
  {
    match l
    case Notice(_) => true
    case Expire(c) => !Awaited(s, c).value.task.Verify?
    case Restart(_) => w.fate(s.holder.id).StartFails?
    case _ => false
  }

  /** The label ends the process: it dies, its work kills it, or it is terminated. */
  predicate EndsProcess(w: World, s: State, l: Label)
    requires Enabled(w, s, l)
  {
    match l
    case Die => true
    case Serve => !w.run(s.ns, s.pipe.toWorker[0].task).Replies?
    case Expire(c) => !Awaited(s, c).value.task.Verify?
    case Restart(_) => w.fate(s.holder.id).StartFails?
    case _ => false
  }

  /** The label fails the session: a cell finds the runtime not running, times out,
      or finds the process dead. */
  predicate FailsSession(w: World, s: State, l: Label)
    requires Enabled(w, s, l)
  {
    match l
    case Arrive(op) => op.Execute? && s.session == Active && s.runtime != Running
    case Acquire => s.queue[0].op.Execute? && s.runtime != Running
    case Notice(c) => Awaited(s, c).value.task.Cell?
    case Expire(c) => Awaited(s, c).value.task.Cell?
    case _ => false
  }

  /** What a run has seen: whether the runtime was taken down since the last restart
      that succeeded, whether the process has ended since, and whether the session
      has failed. */
  datatype Health = Health(down: bool, ended: bool, failed: bool)

  const WELL := Health(false, false, false)

  function Seen(w: World, s: State, l: Label, h: Health): Health
    requires Enabled(w, s, l)
  {
    Health(TakesDown(w, s, l) || (h.down && !l.Restart?),
           EndsProcess(w, s, l) || (h.ended && !l.Restart?),
           FailsSession(w, s, l) || h.failed)
  }

  function SeenIn(w: World, s: State, ls: seq<Label>, h: Health): Health
    requires Run(w, s, ls)
    decreases |ls|
  {
    if ls == [] then h else SeenIn(w, Next(w, s, ls[0]), ls[1..], Seen(w, s, ls[0], h))
  }

  /** The statuses are what the run has seen. */
  predicate Shows(s: State, h: Health) {
    && (s.runtime == Running <==> !h.down && !s.holder.Restarting?)
    && (s.alive <==> !h.ended) && (h.down ==> h.ended)
    && (s.session == if h.failed then Failed else Active)
  }

  /** A caller that leaves with a request is not the reset that holds the lock. */
  lemma LeaverShows(s: State, c: CallId)
    requires CallsApart(s) && (Awaited(s, c).Some? || Unsent(s, c).Some?)
    ensures s.holder.Restarting? ==> c != s.holder.id
  {
  }

  lemma ShowsLeaving(w: World, s: State, l: Label, h: Health)
    requires CallsApart(s) && Enabled(w, s, l) && Shows(s, h)
    requires l.Take? || l.Notice? || l.Expire? || l.Abandon?
    ensures Shows(Next(w, s, l), Seen(w, s, l, h))
  {
    LeaverShows(s, l.c);
    hide CallsApart, Unsent;
  }

  lemma ShowsEntering(w: World, s: State, l: Label, h: Health)
    requires Enabled(w, s, l) && Shows(s, h)
    requires l.Arrive? || l.Visit?
    ensures Shows(Next(w, s, l), Seen(w, s, l, h))
  {
    hide Awaited, Unsent;
  }

  /** These leave the statuses and the process alone. */
  lemma ShowsMoving(w: World, s: State, l: Label, h: Health)
    requires Enabled(w, s, l) && Shows(s, h)
    requires l.Send? || l.Withdraw? || l.LateSend? || l.LateTake?
    ensures Shows(Next(w, s, l), Seen(w, s, l, h))
  {
    hide Awaited, Unsent;
  }

  lemma ShowsTurn(w: World, s: State, h: Health)
    requires Enabled(w, s, Acquire) && Shows(s, h)
    ensures Shows(Next(w, s, Acquire), Seen(w, s, Acquire, h))
  {
    hide Awaited, Unsent;
  }

  lemma ShowsWorking(w: World, s: State, l: Label, h: Health)
    requires Enabled(w, s, l) && Shows(s, h)
    requires l.Serve? || l.Die?
    ensures Shows(Next(w, s, l), Seen(w, s, l, h))
  {
    hide Awaited, Unsent;
  }

  lemma ShowsRestart(w: World, s: State, broken: set<CallId>, h: Health)
    requires Enabled(w, s, Restart(broken)) && Shows(s, h)
    ensures Shows(Next(w, s, Restart(broken)), Seen(w, s, Restart(broken), h))
  {
    hide Awaited, Unsent;
  }

  lemma ShowsStep(w: World, s: State, l: Label, h: Health)
    requires CallsApart(s) && Enabled(w, s, l) && Shows(s, h)
    ensures Shows(Next(w, s, l), Seen(w, s, l, h))
  {
    hide CallsApart, Enabled, Next, Shows, Seen;
    if l.Take? || l.Notice? || l.Expire? || l.Abandon? {
      ShowsLeaving(w, s, l, h);
    } else if l.Restart? {
      ShowsRestart(w, s, l.broken, h);
    } else if l.Acquire? {
      ShowsTurn(w, s, h);
    } else if l.Serve? || l.Die? {
      ShowsWorking(w, s, l, h);
    } else if l.Arrive? || l.Visit? {
      ShowsEntering(w, s, l, h);
    } else {
      ShowsMoving(w, s, l, h);
    }
  }

  lemma {:induction false} ShowsRun(w: World, s: State, ls: seq<Label>, h: Health)
    requires CallsApart(s) && Run(w, s, ls) && Shows(s, h)
    ensures CallsApart(After(w, s, ls)) && Shows(After(w, s, ls), SeenIn(w, s, ls, h))
    decreases |ls|
  {
    hide CallsApart, Enabled, Next, Shows, Seen;
    if ls != [] {
      CallsApartStep(w, s, ls[0]);
      ShowsStep(w, s, ls[0], h);
      ShowsRun(w, Next(w, s, ls[0]), ls[1..], Seen(w, s, ls[0], h));
    }
  }

  /** In every run the process is there exactly until something ends it; the runtime is
      RUNNING exactly unless it was taken down, or a reset is restarting it; and the
      session is FAILED exactly once a cell has found the runtime not running, has timed
      out, or has found the process dead. */
  lemma StatusesTold(w: World, ls: seq<Label>)
    requires Run(w, INIT, ls)
    ensures var s, h := After(w, INIT, ls), SeenIn(w, INIT, ls, WELL);
      && (s.alive <==> !h.ended)
      && (s.runtime == Running <==> !h.down && !s.holder.Restarting?)
      && (s.session == Failed <==> h.failed) && (s.session == Active <==> !h.failed)
      && (h.down ==> !s.alive)
  {
    SoundInit();
    ShowsRun(w, INIT, ls, WELL);
  }

  /** A cell is let into the queue exactly if the session has not failed, the runtime is
      not down and no reset is restarting it; a verification or an installation is let
      in whatever the session shows. The others are told why. */
  lemma Admission(w: World, ls: seq<Label>, code: string, task: Task)
    requires Run(w, INIT, ls) && !task.Cell?
    ensures var s, h := After(w, INIT, ls), SeenIn(w, INIT, ls, WELL);
      var up := !h.down && !s.holder.Restarting?;
      var t, v := Next(w, s, Arrive(Execute(code))), Next(w, s, Visit(task));
      && t.queue == (if !h.failed && up then s.queue + [Caller(s.next, Execute(code))] else s.queue)
      && t.results == (if h.failed then s.results[s.next := NotActive]
                       else if !up then s.results[s.next := RuntimeDown] else s.results)
      && v.guests == (if up then s.guests[s.next := Guest(task, false)] else s.guests)
      && v.results == (if up then s.results else s.results[s.next := RuntimeDown])
      && v.session == s.session && s.next !in s.results
  {
    SoundInit();
    ShowsRun(w, INIT, ls, WELL);
  }

  lemma Refusals(w: World, s: State, code: string, task: Task)
    requires s.runtime != Running && !task.Cell?
    ensures var t := Next(w, s, Arrive(Execute(code)));
      s.next in t.results && t.results[s.next] in {NotActive, RuntimeDown} && t.session != Active
    ensures var v := Next(w, s, Visit(task)); s.next in v.results && v.results[s.next] == RuntimeDown
    ensures Enabled(w, s, Acquire) && s.queue[0].op.Execute? ==>
      var t := Next(w, s, Acquire); t.results == s.results[s.queue[0].id := RuntimeDown] && t.holder == Free
  {
  }

  /** When a cell or an installation has timed out, or any caller has found the process
      dead, then until a restart that succeeds no process is there, no cell is let in
      and none that waited runs, and no verification or installation is let in. */
  lemma RefusedWhileDown(w: World, before: seq<Label>, l: Label, since: seq<Label>, code: string, task: Task)
    requires Run(w, INIT, before) && Enabled(w, After(w, INIT, before), l) && TakesDown(w, After(w, INIT, before), l)
    requires Run(w, Next(w, After(w, INIT, before), l), since) && !task.Cell?
    requires forall i :: 0 <= i < |since| ==> !since[i].Restart?
    ensures var s := After(w, Next(w, After(w, INIT, before), l), since);
      && !s.alive && s.runtime != Running
      && (var t := Next(w, s, Arrive(Execute(code)));
          s.next in t.results && t.results[s.next] in {NotActive, RuntimeDown} && t.session != Active)
      && (var v := Next(w, s, Visit(task)); s.next in v.results && v.results[s.next] == RuntimeDown)
      && (Enabled(w, s, Acquire) && s.queue[0].op.Execute? ==>
            var t := Next(w, s, Acquire); t.results == s.results[s.queue[0].id := RuntimeDown] && t.holder == Free)
  {
    var s0 := After(w, INIT, before);
    var h := SeenIn(w, INIT, before, WELL);
    SoundInit();
    assert CallsApart(INIT) && Shows(INIT, WELL);
    assert Seen(w, s0, l, h).down;
    hide CallsApart, Run, After, SeenIn, Seen, TakesDown, Next, Enabled;
    ShowsRun(w, INIT, before, WELL);
    CallsApartStep(w, s0, l);
    ShowsStep(w, s0, l, h);
    ShowsRun(w, Next(w, s0, l), since, Seen(w, s0, l, h));
    StaysDown(w, Next(w, s0, l), since, Seen(w, s0, l, h));
    Refusals(w, After(w, Next(w, s0, l), since), code, task);
  }

  lemma {:induction false} StaysDown(w: World, s: State, ls: seq<Label>, h: Health)
    requires Run(w, s, ls) && h.down && forall i :: 0 <= i < |ls| ==> !ls[i].Restart?
    ensures SeenIn(w, s, ls, h).down
    decreases |ls|
  {
    hide Enabled, Next, TakesDown, EndsProcess, FailsSession;
    if ls != [] {
      StaysDown(w, Next(w, s, ls[0]), ls[1..], Seen(w, s, ls[0], h));
    }
  }

  /** A call that gives up leaves the others as they are. The timeout of a verification
      touches nothing else; that of an installation and of a cell ends the process, and
      that of a cell fails the session. A caller that finds the process dead does the
      same, but for the process. */
  lemma GivingUp(w: World, s: State, c: CallId)
    requires Awaited(s, c).Some? && CallsApart(s)
    ensures Enabled(w, s, Expire(c)) ==>
      var t, task := Next(w, s, Expire(c)), Awaited(s, c).value.task;
      && LeavesOnly(s, t, c, TimedOut)
      && t.alive == (s.alive && task.Verify?) && t.runtime == (if task.Verify? then s.runtime else Crashed)
      && t.session == if task.Cell? then Failed else s.session
    ensures Enabled(w, s, Notice(c)) ==>
      var t, task := Next(w, s, Notice(c)), Awaited(s, c).value.task;
      && LeavesOnly(s, t, c, WorkerDied)
      && !t.alive && t.runtime == Crashed && t.session == if task.Cell? then Failed else s.session
  {
    FinishLeaves(s, c, TimedOut);
    FinishLeaves(s, c, WorkerDied);
    hide Finish, CallsApart;
  }

  /** The call `c` returns `r`, releasing the lock if it holds it; the other calls,
      the pipe and the namespace stay as they are. */
  predicate LeavesOnly(s: State, t: State, c: CallId, r: Result) {
    && t.results == s.results[c := r] && t.guests == s.guests - {c}
    && t.holder == (if c in s.guests then s.holder else Free)
    && t.pipe == s.pipe && t.ns == s.ns && t.queue == s.queue && t.order == s.order && t.next == s.next
  }

  lemma FinishLeaves(s: State, c: CallId, r: Result)
    requires (Awaited(s, c).Some? || Unsent(s, c).Some?) && CallsApart(s)
    ensures LeavesOnly(s, Finish(s, c, r), c, r)
    ensures Finish(s, c, r).alive == s.alive && Finish(s, c, r).runtime == s.runtime
    ensures Finish(s, c, r).session == s.session
  {
  }

  /** What every call returns, and at which label. */
  predicate Answers(w: World, s: State, l: Label, c: CallId, r: Result)
    requires Enabled(w, s, l)
  {
    match l
    case Arrive(op) => c == s.next && op.Execute? && r == if s.session != Active then NotActive else RuntimeDown
    case Visit(_) => c == s.next && r == RuntimeDown
    case Acquire => c == s.queue[0].id && r == if s.queue[0].op.Reset? then NotActive else RuntimeDown
    case Take(d) => c == d && r == Got(s.pipe.toParent[0].id, s.pipe.toParent[0].reply)
    case Notice(d) => c == d && r == WorkerDied
    case Expire(d) => c == d && r == TimedOut
    case Withdraw(i) => c == s.queue[i].id && r == Cancelled
    case Abandon(d, _) => c == d && r == Cancelled
    case Restart(broken) =>
      if c == s.holder.id then r == if w.fate(c).StartFails? then StartFailed else Restarted
      else c in broken && r == PipeClosed
    case _ => false
  }

  lemma ReturnsOnLeaving(w: World, s: State, l: Label, c: CallId)
    requires Enabled(w, s, l) && c !in s.results && (l.Take? || l.Notice? || l.Expire? || l.Abandon?)
    ensures c in Next(w, s, l).results <==> c == l.c
    ensures c == l.c ==> Answers(w, s, l, c, Next(w, s, l).results[c])
  {
    hide Unsent;
  }

  lemma ReturnsOnEntering(w: World, s: State, l: Label, c: CallId)
    requires Enabled(w, s, l) && c !in s.results && (l.Arrive? || l.Visit? || l.Withdraw?)
    ensures c in Next(w, s, l).results ==> Answers(w, s, l, c, Next(w, s, l).results[c])
    ensures l.Withdraw? ==> s.queue[l.i].id in Next(w, s, l).results
  {
    hide Unsent, Awaited;
  }

  lemma ReturnsOnTurn(w: World, s: State, c: CallId)
    requires Enabled(w, s, Acquire) && c !in s.results
    ensures c in Next(w, s, Acquire).results ==> Answers(w, s, Acquire, c, Next(w, s, Acquire).results[c])
  {
    hide Unsent, Awaited;
  }

  lemma ReturnsOnRestart(w: World, s: State, broken: set<CallId>, c: CallId)
    requires CallsApart(s) && Enabled(w, s, Restart(broken)) && c !in s.results
    ensures c in Next(w, s, Restart(broken)).results <==> c == s.holder.id || c in broken
    ensures c == s.holder.id || c in broken ==>
      Answers(w, s, Restart(broken), c, Next(w, s, Restart(broken)).results[c])
  {
  }

  /** Every call that finishes returns what its label says; a caller that takes a
      message, finds the process dead, times out or is cancelled finishes then, and a
      restart finishes its reset and those that were using the old pipe. */
  lemma ReturnsTold(w: World, s: State, l: Label, c: CallId)
    requires CallsApart(s) && Enabled(w, s, l) && c !in s.results
    ensures c in Next(w, s, l).results ==> Answers(w, s, l, c, Next(w, s, l).results[c])
    ensures l.Take? || l.Notice? || l.Expire? || l.Abandon? ==> (c in Next(w, s, l).results <==> c == l.c)
    ensures l.Restart? ==> (c in Next(w, s, l).results <==> c == s.holder.id || c in l.broken)
    ensures l.Withdraw? ==> s.queue[l.i].id in Next(w, s, l).results
  {
    if l.Take? || l.Notice? || l.Expire? || l.Abandon? {
      hide Enabled, Next, Answers;
      ReturnsOnLeaving(w, s, l, c);
    } else if l.Restart? {
      hide Enabled, Next, Answers;
      ReturnsOnRestart(w, s, l.broken, c);
    } else if l.Acquire? {
      hide Enabled, Next, Answers;
      ReturnsOnTurn(w, s, c);
    } else if l.Arrive? || l.Visit? || l.Withdraw? {
      hide Enabled, Next, Answers;
      ReturnsOnEntering(w, s, l, c);
    } else {
      hide Answers, Unsent, Awaited;
    }
  }

  /** Cancelling a caller does not stop its thread: a request that was being sent still
      reaches the worker, behind what has been sent since. */
  lemma SenderOutlives(w: World, s: State, c: CallId)
    requires CallsApart(s) && Unsent(s, c).Some?
    ensures var ls := [Abandon(c, false), LateSend(|s.pipe.lateSends|)];
      && Run(w, s, ls) && After(w, s, ls).pipe == s.pipe.Put(Unsent(s, c).value)
      && After(w, s, ls).results == s.results[c := Cancelled]
  {
    FinishLeaves(s, c, Cancelled);
    hide Run, After, Finish, CallsApart;
    var n := |s.pipe.lateSends|;
    var t := Next(w, s, Abandon(c, false));
    var late := s.pipe.lateSends + [Unsent(s, c).value];
    assert t.pipe.lateSends == late && late[..n] + late[n + 1..] == s.pipe.lateSends;
    TwoLabels(w, s, Abandon(c, false), LateSend(n));
  }

  /** And a reception that had begun still takes the next message off the pipe, which
      nobody gets; one that had not begun leaves it there. */
  lemma ReceiverOutlives(w: World, s: State, c: CallId)
    requires CallsApart(s) && Awaited(s, c).Some?
    ensures Enabled(w, s, Abandon(c, false)) && Next(w, s, Abandon(c, false)).pipe == s.pipe
    ensures s.pipe.toParent != [] ==>
      && Run(w, s, [Abandon(c, true), LateTake])
      && After(w, s, [Abandon(c, true), LateTake]).pipe == s.pipe.Pop()
      && After(w, s, [Abandon(c, true), LateTake]).results == s.results[c := Cancelled]
  {
    FinishLeaves(s, c, Cancelled);
    assert Unsent(s, c) == None;
    hide Run, After, Finish, CallsApart, Unsent, Awaited;
    if s.pipe.toParent != [] {
      TwoLabels(w, s, Abandon(c, true), LateTake);
    }
  }

  lemma TwoLabels(w: World, s: State, l: Label, m: Label)
    requires Enabled(w, s, l) && Enabled(w, Next(w, s, l), m)
    ensures Run(w, s, [l, m]) && After(w, s, [l, m]) == Next(w, Next(w, s, l), m)
  {
    hide Enabled, Next, Run, After;
    var t := Next(w, s, l);
    FollowEnd(w, Next(w, t, m), false);
    Follow(w, t, m, [], false);
    Follow(w, s, l, [m] + [], false);
    assert [l, m] == [l] + ([m] + []);
  }
}
