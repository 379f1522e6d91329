/**
 The life of sessions and their worker processes: who is registered where, and
 which process is alive, while sessions are created, used, reset, stopped and
 swept away in any interleaving. `reset` takes the session's lock; `stop`, the
 stop of a runtime alone, and verifications and installations do not.
 */
module SessionLifecycle {
  import opened Status

  type ObjId = nat      // a session object with the runtime created for it
  type SessionId = string
  type CallId = nat     // a call that waits for a process to end

  /** Who holds the session's lock: a reset, while the old process ends or while it
      polls a new one that does not come up. */
  datatype Lock = Idle | Executing | Resetting | Polling

  /** A stop first waits for the process to end by itself; if it does not, the stop
      terminates it and waits again, before it closes the pipe. */
  datatype Phase = Joining | Closing

  datatype Unit = Unit(
    session: SessionStatus,
    runtime: RuntimeStatus,
    alive: bool,                  // the worker process
    lock: Lock,
    visits: nat,                  // verifications and installations under way
    stops: map<CallId, Phase>,    // stops of the session that wait for the process to end
    halts: map<CallId, Phase>,    // stops of the runtime alone that wait for it
    born: set<CallId>,            // history: those that were closing when the process was started
    overlapped: bool              // history: a stop came while a reset was under way
  )

  /** How far a call of `terminate_all_sessions`, or of the runtimes' `terminate_all`
      alone, has come through the list it took of its registry. */
  datatype Sweep =
    | AtSessions(todo: seq<ObjId>)
    | StoppingSession(o: ObjId, todo: seq<ObjId>)
    | Cleared
    | AtRuntimes(todo: seq<ObjId>)
    | StoppingRuntime(o: ObjId, todo: seq<ObjId>)
    | Over

  datatype State = State(
    units: map<ObjId, Unit>,
    sessions: map<SessionId, ObjId>,   // `SessionManager._sessions`
    runtimes: set<ObjId>,              // the keys of `RuntimeManager._runtimes`
    sweeps: map<CallId, Sweep>
  )

  const INIT := State(map[], map[], {}, map[])

  datatype Event =
    | ExecBegins | ExecRefused | ExecReturns | ExecNoticesDeath | ExecFails | ExecTimesOut
    | VisitBegins | VisitReturns | VisitNoticesDeath | VisitTimesOut
    | WorkerDies
    | ResetBegins(startOk: bool) | ResetEnds(startOk: bool) | ResetFails
    | StopBegins(k: CallId) | StopKills(k: CallId) | StopEnds(k: CallId)
    | HaltBegins(k: CallId) | HaltKills(k: CallId) | HaltEnds(k: CallId)

  datatype Label =
    | Create(sid: SessionId, o: ObjId, startOk: bool)
    | On(o: ObjId, ev: Event)
    | SweepBegins(k: CallId, todo: seq<ObjId>)   // lists the sessions
    | SweepStops(k: CallId)                      // comes to the next session
    | SweepClears(k: CallId)                     // forgets the sessions
    | SweepLists(k: CallId, todo: seq<ObjId>)    // lists the runtimes
    | SweepHalts(k: CallId)                      // comes to the next runtime
    | SweepKills(k: CallId)                      // its stop terminates the process
    | SweepResumes(k: CallId)                    // the stop it waited for has ended
    | SweepForgets(k: CallId)                    // forgets the runtimes

  /** Calls have identifiers of their own, so one that is still remembered is not new. */
  predicate Possible(u: Unit, ev: Event) {
    match ev
    case ExecBegins => u.lock == Idle
    case ExecRefused => u.session == Active && u.runtime != Running
    case ExecReturns => u.lock == Executing
    case ExecNoticesDeath => u.lock == Executing && !u.alive
    case ExecFails => u.lock == Executing && u.runtime in {Terminated, Crashed}
    case ExecTimesOut => u.lock == Executing
    case VisitBegins => true
    case VisitReturns => u.visits > 0
    case VisitNoticesDeath => u.visits > 0 && !u.alive
    case VisitTimesOut => u.visits > 0
    case WorkerDies => u.alive
    case ResetBegins(_) => u.lock == Idle
    case ResetEnds(_) => u.lock == Resetting
    case ResetFails => u.lock == Polling
    case StopBegins(k) => k !in u.stops
    case StopKills(k) => k in u.stops && u.stops[k] == Joining && u.alive
    case StopEnds(k) => k in u.stops && (u.stops[k] == Closing || !u.alive)
    case HaltBegins(k) => k !in u.halts && k !in u.born
    case HaltKills(k) => k in u.halts && u.halts[k] == Joining && u.alive
    case HaltEnds(k) => k in u.halts && (u.halts[k] == Closing || !u.alive)
  }

  function Closings(u: Unit): set<CallId> {
    set k | k in u.halts && u.halts[k] == Closing
  }

  /** A new process; one that does not come up is polled for a second. */
  function Restart(u: Unit, startOk: bool): Unit {
    if startOk then u.(runtime := Running, alive := true, lock := Idle, born := Closings(u))
    else u.(runtime := Launching, alive := false, lock := Polling)
  }

  predicate StopIsNoop(r: RuntimeStatus) {
    r == Terminating || r == Terminated
  }

  /** A stop terminates whatever process is there after its first wait, and none that
      is there after its second. */
  function React(u: Unit, ev: Event): Unit
    requires Possible(u, ev)
  {
    match ev
    case ExecBegins => if u.runtime == Running then u.(lock := Executing) else u.(session := Failed)
    case ExecRefused => u.(session := Failed)
    case ExecReturns => u.(lock := Idle)
    case ExecNoticesDeath => u.(lock := Idle, runtime := Crashed, session := Failed)
    case ExecFails => u.(lock := Idle, session := Failed)
    case ExecTimesOut => u.(lock := Idle, runtime := Crashed, alive := false, session := Failed)
    case VisitBegins => if u.runtime == Running then u.(visits := u.visits + 1) else u
    case VisitReturns => u.(visits := u.visits - 1)
    case VisitNoticesDeath => u.(visits := u.visits - 1, runtime := Crashed)
    case VisitTimesOut => u.(visits := u.visits - 1, runtime := Crashed, alive := false)
    case WorkerDies => u.(alive := false)
    case ResetBegins(startOk) =>
      if u.session != Active then u
      else if StopIsNoop(u.runtime) then if u.alive then u else Restart(u, startOk)
      else if u.alive then u.(runtime := Terminating, lock := Resetting)
      else Restart(u, startOk)
    case ResetEnds(startOk) => Restart(u, startOk)
    case ResetFails => u.(runtime := Crashed, lock := Idle)
    case StopBegins(k) =>
      if u.session == Stopping || u.session == Stopped then u
      else
        var v := u.(overlapped := u.overlapped || u.lock == Resetting);
        if StopIsNoop(u.runtime) then v.(session := Stopped)
        else if u.alive then v.(session := Stopping, runtime := Terminating, stops := u.stops[k := Joining])
        else v.(session := Stopped, runtime := Terminated)
    case StopKills(k) => u.(alive := false, stops := u.stops[k := Closing])
    case StopEnds(k) => u.(session := Stopped, runtime := Terminated, stops := u.stops - {k})
    case HaltBegins(k) =>
      if StopIsNoop(u.runtime) then u
      else if u.alive then u.(runtime := Terminating, halts := u.halts[k := Joining])
      else u.(runtime := Terminated)
    case HaltKills(k) => u.(alive := false, halts := u.halts[k := Closing])
    case HaltEnds(k) => u.(runtime := Terminated, halts := u.halts - {k})
  }

  predicate SessionUp(u: Unit) {
    u.session == Starting || u.session == Active
  }

  predicate RuntimeUp(u: Unit) {
    u.runtime == Launching || u.runtime == Running
  }

  predicate IsStop(ev: Event) {
    ev.StopBegins? || ev.StopKills? || ev.StopEnds? || ev.HaltBegins? || ev.HaltKills? || ev.HaltEnds?
  }

  /** The stops of a sweep are its own. */
  predicate Owned(s: State, ev: Event) {
    IsStop(ev) && ev.k in s.sweeps
  }

  predicate Fresh(u: Unit, k: CallId) {
    k !in u.stops && k !in u.halts && k !in u.born
  }

  predicate Unused(s: State, k: CallId) {
    k !in s.sweeps && forall o :: o in s.units ==> Fresh(s.units[o], k)
  }

  /** The sweep waits for a stop. */
  predicate Waiting(w: Sweep) {
    w.StoppingSession? || w.StoppingRuntime?
  }

  function KillOf(w: Sweep, k: CallId): Event {
    if w.StoppingSession? then StopKills(k) else HaltKills(k)
  }

  function EndOf(w: Sweep, k: CallId): Event {
    if w.StoppingSession? then StopEnds(k) else HaltEnds(k)
  }

  function Resumed(w: Sweep): Sweep
    requires Waiting(w)
  {
    if w.StoppingSession? then AtSessions(w.todo) else AtRuntimes(w.todo)
  }

  ghost predicate Enabled(s: State, l: Label) {
    match l
    case Create(_, o, _) => o !in s.units
    case On(o, ev) => o in s.units && Possible(s.units[o], ev) && !Owned(s, ev)
    case SweepBegins(k, todo) => Unused(s, k) && forall o :: o in todo <==> o in s.sessions.Values
    case SweepStops(k) =>
      && k in s.sweeps && s.sweeps[k].AtSessions? && s.sweeps[k].todo != []
      && s.sweeps[k].todo[0] in s.units && Possible(s.units[s.sweeps[k].todo[0]], StopBegins(k))
    case SweepClears(k) => k in s.sweeps && s.sweeps[k] == AtSessions([])
    case SweepLists(k, todo) =>
      && (if k in s.sweeps then s.sweeps[k] == Cleared else Unused(s, k))
      && forall o :: o in todo <==> o in s.runtimes
    case SweepHalts(k) =>
      && k in s.sweeps && s.sweeps[k].AtRuntimes? && s.sweeps[k].todo != []
      && s.sweeps[k].todo[0] in s.units && Possible(s.units[s.sweeps[k].todo[0]], HaltBegins(k))
    case SweepKills(k) =>
      && k in s.sweeps && Waiting(s.sweeps[k]) && s.sweeps[k].o in s.units
      && Possible(s.units[s.sweeps[k].o], KillOf(s.sweeps[k], k))
    case SweepResumes(k) =>
      && k in s.sweeps && Waiting(s.sweeps[k]) && s.sweeps[k].o in s.units
      && Possible(s.units[s.sweeps[k].o], EndOf(s.sweeps[k], k))
    case SweepForgets(k) => k in s.sweeps && s.sweeps[k] == AtRuntimes([])
  }

  /** A session object as it is when `create_session` returns, or fails. */
  function NewUnit(startOk: bool): Unit {
    if startOk then Unit(Active, Running, true, Idle, 0, map[], map[], {}, false)
    else Unit(Created, Crashed, false, Idle, 0, map[], map[], {}, false)
  }

  /** The state after an event of one unit, and with one sweep come further. */
  function Moved(s: State, k: CallId, o: ObjId, u: Unit, w: Sweep): State {
    s.(units := s.units[o := u], sweeps := s.sweeps[k := w])
  }

  ghost function Next(s: State, l: Label): State
    requires Enabled(s, l)
  {
    match l
    case Create(sid, o, startOk) =>
      s.(units := s.units[o := NewUnit(startOk)], sessions := if startOk then s.sessions[sid := o] else s.sessions,
         runtimes := s.runtimes + {o})
    case On(o, ev) => s.(units := s.units[o := React(s.units[o], ev)])
    case SweepBegins(k, todo) => s.(sweeps := s.sweeps[k := AtSessions(todo)])
    case SweepStops(k) =>
      var o, todo := s.sweeps[k].todo[0], s.sweeps[k].todo[1..];
      if SessionUp(s.units[o]) then
        var u := React(s.units[o], StopBegins(k));
        Moved(s, k, o, u, if k in u.stops then StoppingSession(o, todo) else AtSessions(todo))
      else s.(sweeps := s.sweeps[k := AtSessions(todo)])
    case SweepClears(k) => s.(sessions := map[], sweeps := s.sweeps[k := Cleared])
    case SweepLists(k, todo) => s.(sweeps := s.sweeps[k := AtRuntimes(todo)])
    case SweepHalts(k) =>
      var o, todo := s.sweeps[k].todo[0], s.sweeps[k].todo[1..];
      if RuntimeUp(s.units[o]) then
        var u := React(s.units[o], HaltBegins(k));
        Moved(s, k, o, u, if k in u.halts then StoppingRuntime(o, todo) else AtRuntimes(todo))
      else s.(sweeps := s.sweeps[k := AtRuntimes(todo)])
    case SweepKills(k) =>
      var w := s.sweeps[k];
      Moved(s, k, w.o, React(s.units[w.o], KillOf(w, k)), w)
    case SweepResumes(k) =>
      var w := s.sweeps[k];
      Moved(s, k, w.o, React(s.units[w.o], EndOf(w, k)), Resumed(w))
    case SweepForgets(k) => s.(runtimes := {}, sweeps := s.sweeps[k := Over])
  }

  ghost predicate Run(s: State, ls: seq<Label>)
    decreases |ls|
  {
    ls == [] || (Enabled(s, ls[0]) && Run(Next(s, ls[0]), ls[1..]))
  }

  ghost function After(s: State, ls: seq<Label>): State
    requires Run(s, ls)
    decreases |ls|
  {
    if ls == [] then s else After(Next(s, ls[0]), ls[1..])
  }

  lemma {:induction false} RunAppend(s: State, ls: seq<Label>, l: Label)
    requires Run(s, ls) && Enabled(After(s, ls), l)
    ensures Run(s, ls + [l]) && After(s, ls + [l]) == Next(After(s, ls), l)
    decreases |ls|
  {
    hide Enabled, Next;
    if ls == [] {
      assert ls + [l] == [l];
      assert Run(Next(s, l), []);
    } else {
      assert (ls + [l])[1..] == ls[1..] + [l];
      RunAppend(Next(s, ls[0]), ls[1..], l);
    }
  }

  // ---------------------------------------------------------------------------
  // What every step keeps
  // ---------------------------------------------------------------------------

  /** A stop or a reset of this runtime is waiting for its process to end. */
  predicate Ending(u: Unit) {
    u.lock == Resetting || u.stops != map[] || u.halts != map[]
  }

  /** A stop that had terminated the process before this one has ended since this one
      was started: the pipe is closed, the runtime TERMINATED. */
  predicate CutOff(u: Unit) {
    !(u.born <= u.halts.Keys)
  }

  /** What the statuses say about a live worker. */
  predicate Living(u: Unit) {
    && (u.runtime == Running || u.runtime == Terminating || u.runtime == Terminated)
    && (u.runtime == Terminated <==> CutOff(u))
    && (forall k :: k in u.halts && u.halts[k] == Closing ==> k in u.born)
    && (forall k :: k in u.stops ==> u.stops[k] == Joining)
    && (u.session == Stopped ==> u.overlapped || u.stops != map[] || u.halts != map[] || CutOff(u))
  }

  /** A reset that holds the lock knows that nobody stopped the session before it. */
  predicate UnderReset(u: Unit) {
    && u.runtime != Running && u.stops == map[]
    && (u.lock == Polling ==> !u.alive)
    && (u.lock == Resetting && u.session == Stopped ==> u.overlapped)
  }

  predicate Sound(u: Unit) {
    && (u.alive ==> Living(u))
    && (u.runtime == Terminating ==> Ending(u))
    && (u.lock == Resetting || u.lock == Polling ==> UnderReset(u))
    && (u.stops != map[] ==> u.session != Active && u.runtime != Running)
    && (u.session == Stopping ==> u.stops != map[])
    && (u.overlapped ==> u.session != Active)
  }

  ghost predicate Inv(s: State) {
    && s.runtimes <= s.units.Keys
    && (forall o :: o in s.units ==> Sound(s.units[o]))
    && (forall i :: i in s.sessions ==> s.sessions[i] in s.units)
  }

  lemma SoundReact(u: Unit, ev: Event)
    requires Sound(u) && Possible(u, ev)
    ensures Sound(React(u, ev))
  {
  }

  /** Every step leaves each unit as it is, or makes it new, or is an event of it. */
  lemma UnitStep(s: State, l: Label, o: ObjId) returns (ev: Event)
    requires Enabled(s, l) && o in Next(s, l).units
    ensures o !in s.units ==> l.Create? && l.o == o && Next(s, l).units[o] == NewUnit(l.startOk)
    ensures o in s.units && Next(s, l).units[o] != s.units[o] ==>
      && Possible(s.units[o], ev) && Next(s, l).units[o] == React(s.units[o], ev)
      && (l == On(o, ev) || (!l.On? && IsStop(ev)))
  {
    hide React;
    ev := WorkerDies;
    match l
    case On(_, e) => ev := e;
    case SweepStops(k) => ev := StopBegins(k);
    case SweepHalts(k) => ev := HaltBegins(k);
    case SweepKills(k) => ev := KillOf(s.sweeps[k], k);
    case SweepResumes(k) => ev := EndOf(s.sweeps[k], k);
    case _ =>
  }

  lemma InvStep(s: State, l: Label)
    requires Inv(s) && Enabled(s, l)
    ensures Inv(Next(s, l))
  {
    var t := Next(s, l);
    forall o | o in t.units ensures Sound(t.units[o]) {
      hide React, Enabled, Next, Sound;
      var ev := UnitStep(s, l, o);
      if o !in s.units {
        NewIsSound(l.startOk);
      } else if t.units[o] != s.units[o] {
        SoundReact(s.units[o], ev);
      }
    }
    hide React, Sound;
  }

  lemma NewIsSound(startOk: bool)
    ensures Sound(NewUnit(startOk))
  {
  }

  lemma {:induction false} InvRun(s: State, ls: seq<Label>)
    requires Inv(s) && Run(s, ls)
    ensures Inv(After(s, ls))
    decreases |ls|
  {
    hide Inv, Enabled, Next;
    if ls != [] {
      InvStep(s, ls[0]);
      InvRun(Next(s, ls[0]), ls[1..]);
    }
  }

  lemma InvInit()
    ensures Inv(INIT)
  {
  }

  /** In every run a live worker's runtime is RUNNING, or a stop or reset of it is
      under way, unless it was started between the moment in which a stop terminated
      its predecessor and the end of that stop, and exactly if that end has come since.
      A live worker under a STOPPED session means that the stop overlapped a reset,
      that another stop still waits, or that the worker was cut off like this. */
  lemma NoStrayWorkers(ls: seq<Label>, o: ObjId)
    requires Run(INIT, ls) && o in After(INIT, ls).units && After(INIT, ls).units[o].alive
    ensures var u := After(INIT, ls).units[o];
      && (u.runtime == Running || (u.runtime == Terminating && Ending(u)) <==> !CutOff(u))
      && (CutOff(u) ==> u.runtime == Terminated)
      && (u.session == Stopped ==> u.overlapped || u.stops != map[] || u.halts != map[] || CutOff(u))
  {
    InvInit();
    InvRun(INIT, ls);
  }

  /** A reset under way when its session is stopped brings a worker back to life, and
      every run to that point leaves STOPPED over it. */
  lemma ResetOutlivesStop(u: Unit, k: CallId)
    requires Sound(u) && u.lock == Resetting && u.session != Stopping && u.session != Stopped
    ensures Possible(u, StopBegins(k)) && React(u, StopBegins(k)).session == Stopped
    ensures var v := React(u, StopBegins(k));
      && Possible(v, ResetEnds(true)) && React(v, ResetEnds(true)).alive
      && React(v, ResetEnds(true)).session == Stopped && React(v, ResetEnds(true)).runtime == Running
  {
  }

  /** A sequence of events of one unit, none of them the beginning of a stop of its session. */
  predicate Goes(u: Unit, evs: seq<Event>)
    decreases |evs|
  {
    evs == [] || (Possible(u, evs[0]) && !evs[0].StopBegins? && Goes(React(u, evs[0]), evs[1..]))
  }

  function Gone(u: Unit, evs: seq<Event>): Unit
    requires Goes(u, evs)
    decreases |evs|
  {
    if evs == [] then u else Gone(React(u, evs[0]), evs[1..])
  }

  /** A stop of the session met no reset, and no process that it did not stop itself. */
  predicate Deserted(u: Unit) {
    && Sound(u) && u.lock != Resetting && u.session != Active
    && (u.session == Stopped ==> !u.alive)
  }

  lemma DesertedReact(u: Unit, ev: Event)
    requires Deserted(u) && Possible(u, ev) && !ev.StopBegins?
    ensures Deserted(React(u, ev))
  {
    SoundReact(u, ev);
  }

  lemma {:induction false} DesertedStays(u: Unit, evs: seq<Event>)
    requires Deserted(u) && Goes(u, evs)
    ensures Deserted(Gone(u, evs))
    decreases |evs|
  {
    hide Deserted, Possible, React;
    if evs != [] {
      DesertedReact(u, evs[0]);
      DesertedStays(React(u, evs[0]), evs[1..]);
    }
  }

  lemma NoEvent(u: Unit)
    ensures Goes(u, []) && Gone(u, []) == u
  {
  }

  lemma OneEvent(u: Unit, ev: Event)
    requires Possible(u, ev) && !ev.StopBegins?
    ensures Goes(u, [ev]) && Gone(u, [ev]) == React(u, ev)
  {
    hide Possible, React;
    assert Goes(React(u, ev), []);
  }

  lemma Going(u: Unit, ev: Event, evs: seq<Event>)
    requires Possible(u, ev) && !ev.StopBegins?
    ensures Goes(u, [ev] + evs) == Goes(React(u, ev), evs)
    ensures Goes(u, [ev] + evs) ==> Gone(u, [ev] + evs) == Gone(React(u, ev), evs)
  {
    hide Possible, React;
    assert ([ev] + evs)[1..] == evs;
  }

  /** Over every continuation of a stop, up to the next stop of the session: STOPPED over
      a live worker is possible exactly if the stop met a reset under way, or returned
      early from a runtime with a process (one that another stop is ending, or cut off). */
  lemma StopLeaves(u: Unit, k: CallId)
    requires Sound(u) && Possible(u, StopBegins(k)) && u.session != Stopping && u.session != Stopped
    ensures var v := React(u, StopBegins(k));
      (exists evs :: Goes(v, evs) && Gone(v, evs).session == Stopped && Gone(v, evs).alive) <==>
        u.lock == Resetting || (u.alive && StopIsNoop(u.runtime))
  {
    var v := React(u, StopBegins(k));
    if u.lock == Resetting {
      ResetOutlivesStop(u, k);
      OneEvent(v, ResetEnds(true));
      assert Gone(v, [ResetEnds(true)]).alive;
    } else if u.alive && StopIsNoop(u.runtime) {
      NoEvent(v);
      assert Gone(v, []).alive;
    } else {
      SoundReact(u, StopBegins(k));
      forall evs | Goes(v, evs) ensures !(Gone(v, evs).session == Stopped && Gone(v, evs).alive) {
        DesertedStays(v, evs);
      }
    }
  }

  /** From every state in which a stop of the runtime has terminated the worker and has
      not ended, a reset and then that end leave a live worker under a TERMINATED
      runtime; and from then on nothing that begins to stop it does. */
  lemma LateEnd(u: Unit, k: CallId)
    requires Sound(u) && u.session == Active && u.lock == Idle && !u.alive
    requires k in u.halts && u.halts[k] == Closing
    ensures Possible(u, ResetBegins(true))
    ensures var v := React(u, ResetBegins(true));
      && v.runtime == Running && v.alive && Possible(v, HaltEnds(k))
      && var w := React(v, HaltEnds(k));
         && w.alive && w.runtime == Terminated && CutOff(w)
         && forall ev :: Possible(w, ev) && (ev.StopBegins? || ev.HaltBegins? || ev.ResetBegins?) ==>
              && React(w, ev).alive && CutOff(React(w, ev))
              && React(w, ev).stops == w.stops && React(w, ev).halts == w.halts
  {
  }

  // ---------------------------------------------------------------------------
  // What the events leave
  // ---------------------------------------------------------------------------

  predicate EndsProcess(ev: Event) {
    ev in {ExecTimesOut, VisitTimesOut, WorkerDies, ResetEnds(false)} || ev.StopKills? || ev.HaltKills?
  }

  predicate StartsProcess(u: Unit, ev: Event) {
    ev == ResetEnds(true) || (ev == ResetBegins(true) && u.session == Active && !u.alive)
  }

  /** A process ends by itself, by the timeout of a cell or an installation, by a stop
      that has waited for it, which terminates it once, or by its reset; and only a
      reset starts one. */
  lemma ProcessChanges(u: Unit, ev: Event)
    requires Sound(u) && Possible(u, ev)
    ensures React(u, ev).alive <==> StartsProcess(u, ev) || (u.alive && !EndsProcess(ev))
    ensures ev.StopKills? ==> React(u, ev).stops == u.stops[ev.k := Closing]
    ensures ev.HaltKills? ==> React(u, ev).halts == u.halts[ev.k := Closing]
  {
  }

  /** A caller that fails the session. */
  predicate FailsSession(u: Unit, ev: Event) {
    ev in {ExecRefused, ExecNoticesDeath, ExecFails, ExecTimesOut} || (ev.ExecBegins? && u.runtime != Running)
  }

  /** A session is FAILED by its cells alone: one that finds the runtime down, is
      thrown off its pipe, finds the process dead or times out. It is STOPPING or STOPPED
      by its stops alone, and nothing makes it ACTIVE again. */
  lemma SessionChanges(u: Unit, ev: Event)
    requires Sound(u) && Possible(u, ev)
    ensures var v := React(u, ev);
      && (FailsSession(u, ev) ==> v.session == Failed)
      && (ev.StopBegins? ==> v.session in {Stopping, Stopped})
      && (ev.StopBegins? && u.session !in {Stopping, Stopped} ==>
            (v.session == Stopping <==> ev.k in v.stops) && (ev.k in v.stops <==> u.alive && !StopIsNoop(u.runtime)))
      && (ev.StopEnds? ==> v.session == Stopped)
      && (!FailsSession(u, ev) && !ev.StopBegins? && !ev.StopEnds? ==> v.session == u.session)
  {
  }

  /** The runtime is RUNNING by a restart alone, and FAILED by whoever finds the process
      dead, times out on it, or fails to start it; every stop that does not return early
      leaves it TERMINATING while it waits, and TERMINATED as it ends. */
  lemma RuntimeChanges(u: Unit, ev: Event)
    requires Sound(u) && Possible(u, ev)
    ensures var v := React(u, ev);
      && (v.runtime == Running && u.runtime != Running ==> StartsProcess(u, ev))
      && (StartsProcess(u, ev) ==> v.runtime == Running)
      && (ev in {ExecNoticesDeath, ExecTimesOut, VisitNoticesDeath, VisitTimesOut, ResetFails} ==> v.runtime == Crashed)
      && (ev.StopEnds? || ev.HaltEnds? ==> v.runtime == Terminated)
      && (ev.HaltBegins? ==> if ev.k in v.halts then v.runtime == Terminating else StopIsNoop(v.runtime))
      && (ev == ResetBegins(true) && u.alive && u.session == Active && !StopIsNoop(u.runtime) ==>
            v.runtime == Terminating)
      && (ev == ResetEnds(false) || (ev == ResetBegins(false) && u.session == Active && !u.alive) ==>
            v.runtime == Launching)
      && (ev in {ExecBegins, ExecRefused, ExecReturns, ExecFails, VisitBegins, VisitReturns, WorkerDies} ==>
            v.runtime == u.runtime)
      && (ev.StopKills? || ev.HaltKills? ==> v.runtime == u.runtime)
  {
  }

  /** Who holds the lock, and how many verifications and installations are under way. */
  lemma CallsChange(u: Unit, ev: Event)
    requires Sound(u) && Possible(u, ev)
    ensures var v := React(u, ev);
      && (ev == ResetBegins(true) && u.alive && u.session == Active && !StopIsNoop(u.runtime) ==> v.lock == Resetting)
      && (ev == ResetEnds(false) || (ev == ResetBegins(false) && u.session == Active && !u.alive) ==> v.lock == Polling)
      && (StartsProcess(u, ev) ==> v.lock == Idle)
      && (ev in {ExecReturns, ExecNoticesDeath, ExecFails, ExecTimesOut, ResetFails} ==> v.lock == Idle)
      && (ev.ExecBegins? ==> (v.lock == Executing <==> u.runtime == Running))
      && (ev.VisitBegins? ==> v.visits == u.visits + if u.runtime == Running then 1 else 0)
      && (ev in {VisitReturns, VisitNoticesDeath, VisitTimesOut} ==> v.visits == u.visits - 1)
  {
  }

  // ---------------------------------------------------------------------------
  // Which worker can live, now or later
  // ---------------------------------------------------------------------------

  /** A worker is there, or a reset will start one, or a later reset may. */
  predicate CanLive(u: Unit) {
    u.alive || u.lock == Resetting || u.session == Active
  }

  lemma DeadStaysDead(u: Unit, ev: Event)
    requires !CanLive(u) && Possible(u, ev)
    ensures !CanLive(React(u, ev))
  {
  }

  lemma DeadStep(s: State, l: Label, o: ObjId)
    requires Enabled(s, l) && o in s.units && !CanLive(s.units[o])
    ensures o in Next(s, l).units && !CanLive(Next(s, l).units[o])
  {
    StaysThere(s, l, o);
    var ev := UnitStep(s, l, o);
    hide Next, React, CanLive;
    if Next(s, l).units[o] != s.units[o] {
      DeadStaysDead(s.units[o], ev);
    }
  }

  lemma StaysThere(s: State, l: Label, o: ObjId)
    requires Enabled(s, l) && o in s.units
    ensures o in Next(s, l).units
  {
    hide React;
  }

  lemma {:induction false} DeadRun(s: State, ls: seq<Label>, o: ObjId)
    requires Run(s, ls) && o in s.units && !CanLive(s.units[o])
    ensures o in After(s, ls).units && !CanLive(After(s, ls).units[o])
    decreases |ls|
  {
    hide CanLive, Enabled, Next;
    if ls != [] {
      DeadStep(s, ls[0], o);
      DeadRun(Next(s, ls[0]), ls[1..], o);
    }
  }

  /** The events that bring its worker to life. */
  function Revival(u: Unit): seq<Event> {
    if u.alive then [] else
    match u.lock
    case Idle => [ResetBegins(true)]
    case Executing => [ExecReturns, ResetBegins(true)]
    case Resetting => [ResetEnds(true)]
    case Polling => [ResetFails, ResetBegins(true)]
  }

  function OnAll(o: ObjId, evs: seq<Event>): seq<Label> {
    seq(|evs|, i requires 0 <= i < |evs| => On(o, evs[i]))
  }

  lemma RevivalWorks(s: State, o: ObjId)
    requires o in s.units && CanLive(s.units[o])
    ensures var ls := OnAll(o, Revival(s.units[o]));
      && Run(s, ls) && o in After(s, ls).units && After(s, ls).units[o].alive
      && After(s, ls).runtimes == s.runtimes && After(s, ls).sessions == s.sessions
  {
    RevivalGoes(s.units[o]);
    RunOfEvents(s, o, Revival(s.units[o]));
  }

  /** They are possible one after the other, and no sweep owns any of them. */
  lemma RevivalGoes(u: Unit)
    requires CanLive(u)
    ensures var evs := Revival(u);
      Goes(u, evs) && Gone(u, evs).alive && forall ev :: ev in evs ==> !IsStop(ev)
  {
    var evs := Revival(u);
    NoEvent(u);
    if |evs| == 1 {
      OneEvent(u, evs[0]);
    } else if |evs| == 2 {
      OneEvent(React(u, evs[0]), evs[1]);
      Going(u, evs[0], [evs[1]]);
      assert evs == [evs[0]] + [evs[1]];
    }
  }

  /** A sequence of events of one unit is a run. */
  lemma {:induction false} RunOfEvents(s: State, o: ObjId, evs: seq<Event>)
    requires o in s.units && Goes(s.units[o], evs) && forall ev :: ev in evs ==> !Owned(s, ev)
    ensures Run(s, OnAll(o, evs)) && After(s, OnAll(o, evs)) == s.(units := s.units[o := Gone(s.units[o], evs)])
    decreases |evs|
  {
    hide Possible, React;
    if evs == [] {
      assert s.units[o := s.units[o]] == s.units;
      FollowEnd(s);
    } else {
      var t := Next(s, On(o, evs[0]));
      assert t.sweeps == s.sweeps;
      forall ev | ev in evs[1..] ensures !Owned(t, ev) {
        assert ev in evs;
        assert !Owned(s, ev);
      }
      hide Enabled, Next, Owned;
      RunOfEvents(t, o, evs[1..]);
      assert OnAll(o, evs) == [On(o, evs[0])] + OnAll(o, evs[1..]);
      Follow(s, On(o, evs[0]), OnAll(o, evs[1..]));
    }
  }

  /** One label of a run, for following a concrete run. */
  lemma Follow(s: State, l: Label, ls: seq<Label>)
    requires Enabled(s, l)
    ensures Run(s, [l] + ls) == Run(Next(s, l), ls)
    ensures Run(s, [l] + ls) ==> After(s, [l] + ls) == After(Next(s, l), ls)
  {
    assert ([l] + ls)[1..] == ls;
  }

  lemma FollowEnd(s: State)
    ensures Run(s, []) && After(s, []) == s
  {
  }

  lemma OneLabel(s: State, l: Label)
    requires Enabled(s, l)
    ensures Run(s, [l]) && After(s, [l]) == Next(s, l)
  {
    hide Enabled, Next;
    assert Run(Next(s, l), []);
  }

  /** In every state, over every continuation: a unit can have a live worker, now or
      ever again, exactly when it has one, a reset of it is under way, or its session
      is ACTIVE. */
  lemma CanLiveExact(s: State, o: ObjId)
    requires o in s.units
    ensures (exists ls :: Run(s, ls) && o in After(s, ls).units && After(s, ls).units[o].alive)
      <==> CanLive(s.units[o])
  {
    if CanLive(s.units[o]) {
      RevivalWorks(s, o);
    } else {
      forall ls | Run(s, ls) ensures o in After(s, ls).units && !After(s, ls).units[o].alive {
        DeadRun(s, ls, o);
      }
    }
  }

  // ---------------------------------------------------------------------------
  // Workers and the registry of runtimes
  // ---------------------------------------------------------------------------

  /** Every worker that lives, or can, is registered. */
  ghost predicate Accounted(s: State) {
    forall o :: o in s.units && CanLive(s.units[o]) ==> o in s.runtimes
  }

  /** No worker lives, or can. */
  ghost predicate Quiet(s: State) {
    forall o :: o in s.units ==> !CanLive(s.units[o])
  }

  /** The registry keeps account of the workers in every step but the one that
      empties it, and in that one exactly when no worker lives or can. */
  lemma AccountedStep(s: State, l: Label)
    requires Enabled(s, l) && Accounted(s)
    ensures Accounted(Next(s, l)) <==> (l.SweepForgets? ==> Quiet(s))
  {
    var t := Next(s, l);
    if l.SweepForgets? {
      assert t.units == s.units && t.runtimes == {};
    } else {
      assert s.runtimes <= t.runtimes by { hide React; }
      forall o | o in t.units && CanLive(t.units[o]) ensures o in t.runtimes {
        if o in s.units && !CanLive(s.units[o]) {
          DeadStep(s, l, o);
        }
        var ev := UnitStep(s, l, o);
      }
    }
  }

  /** Every sweep of a run empties the registry when no worker lives or can. */
  ghost predicate ForgetsQuietly(s: State, ls: seq<Label>)
    requires Run(s, ls)
    decreases |ls|
  {
    ls == [] || ((ls[0].SweepForgets? ==> Quiet(s)) && ForgetsQuietly(Next(s, ls[0]), ls[1..]))
  }

  lemma {:induction false} AccountedRun(s: State, ls: seq<Label>)
    requires Accounted(s) && Run(s, ls) && ForgetsQuietly(s, ls)
    ensures Accounted(After(s, ls))
    decreases |ls|
  {
    hide Accounted, Enabled, Next, Quiet;
    if ls != [] {
      AccountedStep(s, ls[0]);
      AccountedRun(Next(s, ls[0]), ls[1..]);
    }
  }

  ghost predicate AllRegistered(s: State) {
    forall o :: o in s.units && s.units[o].alive ==> o in s.runtimes
  }

  /** No sweep empties the registry during these labels. */
  predicate KeepsRegistry(ls: seq<Label>) {
    forall i :: 0 <= i < |ls| ==> !ls[i].SweepForgets?
  }

  lemma KeepingIsQuiet(s: State, ls: seq<Label>)
    requires Run(s, ls) && KeepsRegistry(ls)
    ensures ForgetsQuietly(s, ls)
    decreases |ls|
  {
    hide Enabled, Next, Quiet;
    if ls != [] {
      KeepingIsQuiet(Next(s, ls[0]), ls[1..]);
    }
  }

  /** In every run whose sweeps empty the registry only when no worker lives or can,
      every live worker is registered. */
  lemma LiveIsRegistered(ls: seq<Label>)
    requires Run(INIT, ls) && ForgetsQuietly(INIT, ls)
    ensures AllRegistered(After(INIT, ls))
  {
    AccountedRun(INIT, ls);
  }

  /** And the condition is exact: when a sweep is about to empty the registry, all
      live workers are registered in every continuation, up to the next time it is
      emptied, if and only if no worker lives or can at that moment. */
  lemma RegistryExact(before: seq<Label>, k: CallId)
    requires Run(INIT, before) && ForgetsQuietly(INIT, before) && Enabled(After(INIT, before), SweepForgets(k))
    ensures var s := After(INIT, before);
      var t := Next(s, SweepForgets(k));
      (forall ls :: Run(t, ls) && KeepsRegistry(ls) ==> AllRegistered(After(t, ls))) <==> Quiet(s)
  {
    AccountedRun(INIT, before);
    var s := After(INIT, before);
    var t := Next(s, SweepForgets(k));
    AccountedStep(s, SweepForgets(k));
    if Quiet(s) {
      forall ls | Run(t, ls) && KeepsRegistry(ls) ensures AllRegistered(After(t, ls)) {
        KeepingIsQuiet(t, ls);
        AccountedRun(t, ls);
      }
    } else {
      var o :| o in s.units && CanLive(s.units[o]);
      RevivalWorks(t, o);
      var ls := OnAll(o, Revival(t.units[o]));
      assert KeepsRegistry(ls) && !AllRegistered(After(t, ls));
    }
  }

  /** A session object that was created is ACTIVE over a worker of its own, and nobody
      uses it; one whose worker did not start has failed before it was started, and
      never has a process. */
  lemma CreatedTold(s: State, sid: SessionId, o: ObjId, startOk: bool, ls: seq<Label>)
    requires Enabled(s, Create(sid, o, startOk)) && Run(Next(s, Create(sid, o, startOk)), ls)
    ensures var t := Next(s, Create(sid, o, startOk));
      && o in t.units && t.units - {o} == s.units
      && var u := t.units[o];
         && u.lock == Idle && u.visits == 0 && u.stops == map[] && u.halts == map[] && Sound(u)
         && (if startOk then u.session == Active && u.runtime == Running && u.alive
             else u.session == Created && u.runtime == Crashed && !u.alive)
    ensures !startOk ==>
      var t := After(Next(s, Create(sid, o, startOk)), ls);
      o in t.units && !t.units[o].alive
  {
    var t := Next(s, Create(sid, o, startOk));
    assert t.units - {o} == s.units;
    if !startOk {
      DeadRun(t, ls, o);
    }
    hide Run, After;
  }

  /** What was created since the sessions, or the runtimes, were last forgotten. */
  function SessionsKnown(ls: seq<Label>): map<SessionId, ObjId> {
    if ls == [] then map[]
    else
      var known := SessionsKnown(ls[..|ls| - 1]);
      match ls[|ls| - 1]
      case Create(sid, o, true) => known[sid := o]
      case SweepClears(_) => map[]
      case _ => known
  }

  function RuntimesKnown(ls: seq<Label>): set<ObjId> {
    if ls == [] then {}
    else
      var known := RuntimesKnown(ls[..|ls| - 1]);
      match ls[|ls| - 1]
      case Create(_, o, _) => known + {o}
      case SweepForgets(_) => {}
      case _ => known
  }

  /** Over every run the two registries hold just that: an object whose start failed is
      registered as a runtime alone, an identifier stands for the last object created
      under it, and stopping an object does not take it out. */
  lemma {:induction false} RegistriesTold(ls: seq<Label>)
    requires Run(INIT, ls)
    ensures After(INIT, ls).sessions == SessionsKnown(ls) && After(INIT, ls).runtimes == RuntimesKnown(ls)
    decreases |ls|
  {
    if ls != [] {
      var init, l := ls[..|ls| - 1], ls[|ls| - 1];
      hide Run, After, React;
      RunInit(INIT, ls);
      RegistriesTold(init);
    }
  }

  lemma {:induction false} RunInit(s: State, ls: seq<Label>)
    requires ls != [] && Run(s, ls)
    ensures var init, l := ls[..|ls| - 1], ls[|ls| - 1];
      Run(s, init) && Enabled(After(s, init), l) && After(s, ls) == Next(After(s, init), l)
    decreases |ls|
  {
    hide Enabled, Next;
    if |ls| > 1 {
      assert ls[..|ls| - 1][1..] == ls[1..][..|ls| - 2];
      RunInit(Next(s, ls[0]), ls[1..]);
    }
  }

  // ---------------------------------------------------------------------------
  // A sweep that nothing interferes with
  // ---------------------------------------------------------------------------

  /** What a stop leaves behind when nothing interferes with it. */
  function RuntimeStopped(u: Unit): Unit {
    if StopIsNoop(u.runtime) then u else u.(runtime := Terminated, alive := false)
  }

  function SessionStopped(u: Unit): Unit {
    if u.session == Stopping || u.session == Stopped then u
    else RuntimeStopped(u).(session := Stopped, overlapped := u.overlapped || u.lock == Resetting)
  }

  /** An uninterrupted stop is its events in a row. */
  lemma SessionStoppedIsEvents(u: Unit, k: CallId)
    requires Possible(u, StopBegins(k))
    ensures var v := React(u, StopBegins(k));
      if k in v.stops then
        && Possible(v, StopKills(k)) && Possible(React(v, StopKills(k)), StopEnds(k))
        && SessionStopped(u) == React(React(v, StopKills(k)), StopEnds(k))
      else SessionStopped(u) == v
  {
    assert u.stops[k := Joining][k := Closing] - {k} == u.stops;
  }

  lemma RuntimeStoppedIsEvents(u: Unit, k: CallId)
    requires Possible(u, HaltBegins(k))
    ensures var v := React(u, HaltBegins(k));
      if k in v.halts then
        && Possible(v, HaltKills(k)) && Possible(React(v, HaltKills(k)), HaltEnds(k))
        && RuntimeStopped(u) == React(React(v, HaltKills(k)), HaltEnds(k))
      else RuntimeStopped(u) == v
  {
    assert u.halts[k := Joining][k := Closing] - {k} == u.halts;
  }

  function SessionSwept(u: Unit, visited: bool): Unit {
    if visited && SessionUp(u) then SessionStopped(u) else u
  }

  function RuntimeSwept(u: Unit, visited: bool): Unit {
    if visited && RuntimeUp(u) then RuntimeStopped(u) else u
  }

  function Swept(s: State, o: ObjId): Unit
    requires o in s.units
  {
    RuntimeSwept(SessionSwept(s.units[o], o in s.sessions.Values), o in s.runtimes)
  }

  /** From every reachable state, after an uninterrupted sweep a registered worker
      lives, or can live again, exactly when a reset of it was under way, whether or
      not its old process was dead already, or its session was ACTIVE without being
      registered, or it was alive under a runtime from which a stop returns early:
      somebody else was stopping it, or it was cut off. In the last two cases alone it
      lives as the sweep ends, until that other stop ends it or for good. */
  lemma TerminationLeaves(ls: seq<Label>, o: ObjId)
    requires Run(INIT, ls) && o in After(INIT, ls).units
    ensures var s := After(INIT, ls);
      var u := s.units[o];
      o in s.runtimes ==>
        && (CanLive(Swept(s, o)) <==>
              || u.lock == Resetting || (u.session == Active && o !in s.sessions.Values)
              || (u.alive && StopIsNoop(u.runtime)))
        && (Swept(s, o).alive <==> u.alive && StopIsNoop(u.runtime))
        && Swept(s, o).runtime !in {Launching, Running}
        && (o in s.sessions.Values ==> Swept(s, o).session !in {Starting, Active})
        && (u.alive && StopIsNoop(u.runtime) ==> if CutOff(u) then u.runtime == Terminated else Ending(u))
  {
    InvInit();
    InvRun(INIT, ls);
    var s := After(INIT, ls);
    SweptLives(s.units[o], o in s.sessions.Values);
  }

  lemma SweptLives(u: Unit, visited: bool)
    requires Sound(u)
    ensures var v := RuntimeSwept(SessionSwept(u, visited), true);
      && (CanLive(v) <==>
            u.lock == Resetting || (u.session == Active && !visited) || (u.alive && StopIsNoop(u.runtime)))
      && (v.alive <==> u.alive && StopIsNoop(u.runtime))
      && v.runtime !in {Launching, Running} && (visited ==> v.session !in {Starting, Active})
      && (u.alive && StopIsNoop(u.runtime) ==> if CutOff(u) then u.runtime == Terminated else Ending(u))
  {
  }

  /** Over every continuation of an uninterrupted sweep: which registered worker
      there is, or ever can be again. */
  lemma AfterTermination(ls: seq<Label>, o: ObjId, t: State)
    requires Run(INIT, ls) && o in After(INIT, ls).runtimes && o in After(INIT, ls).units
    requires o in t.units && t.units[o] == Swept(After(INIT, ls), o)
    ensures var s := After(INIT, ls);
      var u := s.units[o];
      (exists more :: Run(t, more) && o in After(t, more).units && After(t, more).units[o].alive) <==>
        || u.lock == Resetting || (u.session == Active && o !in s.sessions.Values)
        || (u.alive && StopIsNoop(u.runtime))
  {
    TerminationLeaves(ls, o);
    CanLiveExact(t, o);
  }

  // ---------------------------------------------------------------------------
  // The managers
  // ---------------------------------------------------------------------------

  /** Steps of sweeps: nobody else does anything. */
  predicate SweepOnly(ls: seq<Label>) {
    forall l :: l in ls ==> !l.On? && !l.Create?
  }

  lemma SweepOnlyAppend(ls: seq<Label>, more: seq<Label>)
    requires SweepOnly(ls) && SweepOnly(more)
    ensures SweepOnly(ls + more)
  {
  }

  /** A stop of a sweep waits to its end. */
  function WaitOut(k: CallId): seq<Label> {
    [SweepKills(k), SweepResumes(k)]
  }

  /** One session, or one runtime, of the list of a sweep: one label, or three. */
  function SessionVisit(u: Unit, k: CallId): seq<Label>
    requires Possible(u, StopBegins(k))
  {
    [SweepStops(k)] + if SessionUp(u) && k in React(u, StopBegins(k)).stops then WaitOut(k) else []
  }

  function RuntimeVisit(u: Unit, k: CallId): seq<Label>
    requires Possible(u, HaltBegins(k))
  {
    [SweepHalts(k)] + if RuntimeUp(u) && k in React(u, HaltBegins(k)).halts then WaitOut(k) else []
  }

  /** Where a loop over a registry is: what was there, what is, and how far it has come. */
  ghost predicate SessionsSwept(was: map<ObjId, Unit>, units: map<ObjId, Unit>, done: seq<ObjId>) {
    units.Keys == was.Keys && forall o :: o in was ==> units[o] == SessionSwept(was[o], o in done)
  }

  ghost predicate RuntimesSwept(was: map<ObjId, Unit>, units: map<ObjId, Unit>, done: seq<ObjId>) {
    units.Keys == was.Keys && forall o :: o in was ==> units[o] == RuntimeSwept(was[o], o in done)
  }

  /** No call of this identifier stops anything. */
  predicate New(units: map<ObjId, Unit>, k: CallId) {
    forall o :: o in units ==> Fresh(units[o], k)
  }

  /** The two registries and what is registered there, changed in place. */
  class SessionManager {
    var units: map<ObjId, Unit>
    var sessions: map<SessionId, ObjId>
    var runtimes: set<ObjId>
    ghost var sweeps: map<CallId, Sweep>

    ghost function View(): State
      reads this
    {
      State(units, sessions, runtimes, sweeps)
    }

    constructor ()
      ensures View() == INIT
    {
      units, sessions, runtimes := map[], map[], {};
      sweeps := map[];
    }

    method CreateSession(sid: SessionId, o: ObjId, startOk: bool)
      requires Enabled(View(), Create(sid, o, startOk))
      modifies this
      ensures View() == Next(old(View()), Create(sid, o, startOk))
    {
      units := units[o := Unit(Created, Launching, false, Idle, 0, map[], map[], {}, false)];
      if !startOk {
        units := units[o := units[o].(runtime := Crashed)];
        runtimes := runtimes + {o};
        return;
      }
      units := units[o := units[o].(runtime := Running, alive := true)];
      runtimes := runtimes + {o};
      units := units[o := units[o].(session := Starting)];
      units := units[o := units[o].(session := Active)];
      sessions := sessions[sid := o];
    }

    /** `PythonRuntime.stop`, when nothing interferes with it. */
    method StopRuntime(o: ObjId)
      requires o in units
      modifies this`units
      ensures units == old(units)[o := RuntimeStopped(old(units)[o])]
    {
      if units[o].runtime == Terminating || units[o].runtime == Terminated {
        return;
      }
      units := units[o := units[o].(runtime := Terminating)];
      if units[o].alive {
        units := units[o := units[o].(alive := false)];
      }
      units := units[o := units[o].(runtime := Terminated)];
    }

    /** `ExecutionSession.stop`, when nothing interferes with it. */
    method StopSession(o: ObjId)
      requires o in units
      modifies this`units
      ensures units == old(units)[o := SessionStopped(old(units)[o])]
    {
      if units[o].session == Stopping || units[o].session == Stopped {
        return;
      }
      var overlapped := units[o].overlapped || units[o].lock == Resetting;
      units := units[o := units[o].(session := Stopping, overlapped := overlapped)];
      StopRuntime(o);
      units := units[o := units[o].(session := Stopped)];
    }

    /** One session of the list, its stop uninterrupted. */
    method VisitSession(k: CallId, o: ObjId, ghost todo: seq<ObjId>) returns (ghost steps: seq<Label>)
      requires k in sweeps && sweeps[k] == AtSessions([o] + todo) && o in units && Fresh(units[o], k)
      modifies this`units, this`sweeps
      ensures Run(old(View()), steps) && View() == After(old(View()), steps) && SweepOnly(steps)
      ensures units == old(units)[o := SessionSwept(old(units)[o], true)]
      ensures sweeps == old(sweeps)[k := AtSessions(todo)]
    {
      ghost var s, u := View(), units[o];
      VisitedSession(s, k, o, todo);
      steps := SessionVisit(u, k);
      if units[o].session == Starting || units[o].session == Active {
        StopSession(o);
      }
      sweeps := sweeps[k := AtSessions(todo)];
      assert u == SessionSwept(u, true) ==> s.units[o := u] == s.units;
    }

    /** One runtime of the list. */
    method VisitRuntime(k: CallId, o: ObjId, ghost todo: seq<ObjId>) returns (ghost steps: seq<Label>)
      requires k in sweeps && sweeps[k] == AtRuntimes([o] + todo) && o in units && Fresh(units[o], k)
      modifies this`units, this`sweeps
      ensures Run(old(View()), steps) && View() == After(old(View()), steps) && SweepOnly(steps)
      ensures units == old(units)[o := RuntimeSwept(old(units)[o], true)]
      ensures sweeps == old(sweeps)[k := AtRuntimes(todo)]
    {
      ghost var s, u := View(), units[o];
      VisitedRuntime(s, k, o, todo);
      steps := RuntimeVisit(u, k);
      if units[o].runtime == Launching || units[o].runtime == Running {
        StopRuntime(o);
      }
      sweeps := sweeps[k := AtRuntimes(todo)];
      assert u == RuntimeSwept(u, true) ==> s.units[o := u] == s.units;
    }

    /** The loop of `RuntimeManager.terminate_all` over the list it took. */
    method StopRuntimes(k: CallId, order: seq<ObjId>) returns (ghost steps: seq<Label>)
      requires k in sweeps && sweeps[k] == AtRuntimes(order) && New(units, k)
      requires forall o :: o in order ==> o in units
      modifies this`units, this`sweeps
      ensures Run(old(View()), steps) && View() == After(old(View()), steps) && SweepOnly(steps)
      ensures sweeps == old(sweeps)[k := AtRuntimes([])]
      ensures RuntimesSwept(old(units), units, order) && New(units, k)
    {
      ghost var s := View();
      steps := [];
      RuntimesNotSwept(units);
      FollowEnd(s);
      Whole(order);
      assert s.sweeps[k := AtRuntimes(order)] == s.sweeps;
      for i := 0 to |order|
        invariant Run(s, steps) && View() == After(s, steps) && SweepOnly(steps)
        invariant sweeps == s.sweeps[k := AtRuntimes(order[i..])]
        invariant RuntimesSwept(s.units, units, order[..i]) && New(units, k)
      {
        hide Run, After, Enabled, RuntimeSwept, RuntimesSwept, SweepOnly, New, Fresh;
        Further(order, i);
        RuntimesKeepKeys(s.units, units, order[..i]);
        NewOne(units, k, order[i]);
        ghost var mid := units;
        ghost var more := VisitRuntime(k, order[i], order[i + 1..]);
        RuntimesFurther(s.units, mid, units, order, i, k);
        RunConcat(s, steps, more);
        SweepOnlyAppend(steps, more);
        steps := steps + more;
      }
    }

    /** `RuntimeManager.terminate_all`, when nothing interferes with it: a run of the
        sweep's own labels. `order` is the order of the registry. */
    method TerminateAllRuntimes(k: CallId, order: seq<ObjId>) returns (ghost steps: seq<Label>)
      requires Inv(View()) && Enabled(View(), SweepLists(k, order)) && New(units, k)
      modifies this`units, this`runtimes, this`sweeps
      ensures Run(old(View()), steps) && View() == After(old(View()), steps) && SweepOnly(steps)
      ensures runtimes == {} && RuntimesSwept(old(units), units, order)
    {
      hide Run, After, Inv, RuntimesSwept, SweepOnly, New;
      ghost var s := View();
      SweepOnlyOne(SweepLists(k, order));
      SweepOnlyOne(SweepForgets(k));
      steps := [SweepLists(k, order)];
      OneLabel(s, SweepLists(k, order));
      sweeps := sweeps[k := AtRuntimes(order)];
      RegisteredAreUnits(s, order);
      ghost var more := StopRuntimes(k, order);
      RunConcat(s, steps, more);
      SweepOnlyAppend(steps, more);
      steps := steps + more;
      RunAppend(s, steps, SweepForgets(k));
      SweepOnlyAppend(steps, [SweepForgets(k)]);
      steps := steps + [SweepForgets(k)];
      runtimes := {};
      sweeps := sweeps[k := Over];
    }

    /** The loop of `terminate_all_sessions` over the list it took. */
    method StopSessions(k: CallId, order: seq<ObjId>) returns (ghost steps: seq<Label>)
      requires k in sweeps && sweeps[k] == AtSessions(order) && New(units, k)
      requires forall o :: o in order ==> o in units
      modifies this`units, this`sweeps
      ensures Run(old(View()), steps) && View() == After(old(View()), steps) && SweepOnly(steps)
      ensures sweeps == old(sweeps)[k := AtSessions([])]
      ensures SessionsSwept(old(units), units, order) && New(units, k)
    {
      ghost var s := View();
      steps := [];
      SessionsNotSwept(units);
      FollowEnd(s);
      Whole(order);
      assert s.sweeps[k := AtSessions(order)] == s.sweeps;
      for i := 0 to |order|
        invariant Run(s, steps) && View() == After(s, steps) && SweepOnly(steps)
        invariant sweeps == s.sweeps[k := AtSessions(order[i..])]
        invariant SessionsSwept(s.units, units, order[..i]) && New(units, k)
      {
        hide Run, After, Enabled, SessionSwept, SessionsSwept, SweepOnly, New, Fresh;
        Further(order, i);
        SessionsKeepKeys(s.units, units, order[..i]);
        NewOne(units, k, order[i]);
        ghost var mid := units;
        ghost var more := VisitSession(k, order[i], order[i + 1..]);
        SessionsFurther(s.units, mid, units, order, i, k);
        RunConcat(s, steps, more);
        SweepOnlyAppend(steps, more);
        steps := steps + more;
      }
    }

    /** `terminate_all_sessions`, when nothing interferes with it. `order` is the order
        of the sessions' registry, `andThen` that of the runtimes'. */
    method TerminateAllSessions(k: CallId, order: seq<ObjId>, andThen: seq<ObjId>) returns (ghost steps: seq<Label>)
      requires Inv(View()) && Enabled(View(), SweepBegins(k, order))
      requires forall o :: o in andThen <==> o in runtimes
      modifies this
      ensures Run(old(View()), steps) && View() == After(old(View()), steps) && SweepOnly(steps)
      ensures sessions == map[] && runtimes == {} && units.Keys == old(units).Keys
      ensures forall o :: o in units ==> units[o] == Swept(old(View()), o)
    {
      hide Run, After, Inv, SweepOnly, Swept, SessionsSwept, RuntimesSwept, New;
      ghost var s := View();
      steps := TerminateSessions(k, order);
      ghost var mid := View();
      InvRun(s, steps);
      ghost var more := TerminateAllRuntimes(k, andThen);
      RunConcat(s, steps, more);
      SweepOnlyAppend(steps, more);
      steps := steps + more;
      SweptInTurn(s, mid.units, units, order, andThen);
    }

    /** Its first half, up to the clearing of the registry. */
    method TerminateSessions(k: CallId, order: seq<ObjId>) returns (ghost steps: seq<Label>)
      requires Inv(View()) && Enabled(View(), SweepBegins(k, order))
      modifies this
      ensures Run(old(View()), steps) && View() == After(old(View()), steps) && SweepOnly(steps)
      ensures sessions == map[] && runtimes == old(runtimes) && SessionsSwept(old(units), units, order)
      ensures sweeps == old(sweeps)[k := Cleared] && New(units, k)
    {
      hide Run, After, Inv, SessionsSwept, SweepOnly;
      ghost var s := View();
      SweepOnlyOne(SweepBegins(k, order));
      SweepOnlyOne(SweepClears(k));
      steps := [SweepBegins(k, order)];
      OneLabel(s, SweepBegins(k, order));
      RegisteredAreUnits(s, order);
      sweeps := sweeps[k := AtSessions(order)];
      ghost var more := StopSessions(k, order);
      RunConcat(s, steps, more);
      SweepOnlyAppend(steps, more);
      steps := steps + more;
      RunAppend(s, steps, SweepClears(k));
      SweepOnlyAppend(steps, [SweepClears(k)]);
      steps := steps + [SweepClears(k)];
      sessions := map[];
      sweeps := sweeps[k := Cleared];
    }
  }

  lemma SweepOnlyOne(l: Label)
    requires !l.On? && !l.Create?
    ensures SweepOnly([l])
  {
  }

  lemma RegisteredAreUnits(s: State, order: seq<ObjId>)
    requires Inv(s) && forall o :: o in order ==> o in s.runtimes || o in s.sessions.Values
    ensures forall o :: o in order ==> o in s.units
  {
  }

  lemma Whole(order: seq<ObjId>)
    ensures order[..0] == [] && order[0..] == order && order[..|order|] == order && order[|order|..] == []
  {
  }

  lemma Further(order: seq<ObjId>, i: nat)
    requires i < |order|
    ensures order[i..] == [order[i]] + order[i + 1..] && order[..i + 1] == order[..i] + [order[i]]
    ensures order[i] in order
  {
  }

  lemma NewOne(units: map<ObjId, Unit>, k: CallId, o: ObjId)
    requires New(units, k) && o in units
    ensures Fresh(units[o], k)
  {
  }

  lemma SessionsNotSwept(units: map<ObjId, Unit>)
    ensures SessionsSwept(units, units, [])
  {
  }

  lemma RuntimesNotSwept(units: map<ObjId, Unit>)
    ensures RuntimesSwept(units, units, [])
  {
  }

  lemma SessionsKeepKeys(was: map<ObjId, Unit>, units: map<ObjId, Unit>, done: seq<ObjId>)
    requires SessionsSwept(was, units, done)
    ensures units.Keys == was.Keys
  {
  }

  lemma RuntimesKeepKeys(was: map<ObjId, Unit>, units: map<ObjId, Unit>, done: seq<ObjId>)
    requires RuntimesSwept(was, units, done)
    ensures units.Keys == was.Keys
  {
  }

  /** A second visit changes nothing, and a visit that is over leaves no stop behind. */
  lemma SweptTwice(u: Unit, visited: bool, k: CallId)
    ensures SessionSwept(SessionSwept(u, visited), true) == SessionSwept(u, true)
    ensures RuntimeSwept(RuntimeSwept(u, visited), true) == RuntimeSwept(u, true)
    ensures Fresh(u, k) ==> Fresh(SessionSwept(u, visited), k) && Fresh(RuntimeSwept(u, visited), k)
  {
  }

  lemma SessionsFurther(was: map<ObjId, Unit>, mid: map<ObjId, Unit>, now: map<ObjId, Unit>,
      order: seq<ObjId>, i: nat, k: CallId)
    requires i < |order| && SessionsSwept(was, mid, order[..i]) && order[i] in mid && New(mid, k)
    requires now == mid[order[i] := SessionSwept(mid[order[i]], true)]
    ensures SessionsSwept(was, now, order[..i + 1]) && New(now, k)
  {
    Further(order, i);
    SweptTwice(was[order[i]], order[i] in order[..i], k);
    SweptTwice(mid[order[i]], true, k);
    hide SessionSwept, Fresh;
  }

  lemma RuntimesFurther(was: map<ObjId, Unit>, mid: map<ObjId, Unit>, now: map<ObjId, Unit>,
      order: seq<ObjId>, i: nat, k: CallId)
    requires i < |order| && RuntimesSwept(was, mid, order[..i]) && order[i] in mid && New(mid, k)
    requires now == mid[order[i] := RuntimeSwept(mid[order[i]], true)]
    ensures RuntimesSwept(was, now, order[..i + 1]) && New(now, k)
  {
    Further(order, i);
    SweptTwice(was[order[i]], order[i] in order[..i], k);
    SweptTwice(mid[order[i]], true, k);
    hide RuntimeSwept, Fresh;
  }

  lemma SweptInTurn(s: State, mid: map<ObjId, Unit>, now: map<ObjId, Unit>, order: seq<ObjId>, andThen: seq<ObjId>)
    requires SessionsSwept(s.units, mid, order) && forall o :: o in order <==> o in s.sessions.Values
    requires RuntimesSwept(mid, now, andThen) && forall o :: o in andThen <==> o in s.runtimes
    ensures now.Keys == s.units.Keys && forall o :: o in s.units ==> now[o] == Swept(s, o)
  {
    hide SessionSwept, RuntimeSwept;
  }

  lemma {:induction false} RunConcat(s: State, ls: seq<Label>, more: seq<Label>)
    requires Run(s, ls) && Run(After(s, ls), more)
    ensures Run(s, ls + more) && After(s, ls + more) == After(After(s, ls), more)
    decreases |ls|
  {
    hide Enabled, Next;
    if ls == [] {
      assert ls + more == more;
    } else {
      assert (ls + more)[1..] == ls[1..] + more;
      RunConcat(Next(s, ls[0]), ls[1..], more);
    }
  }

  lemma WaitedOut(s: State, k: CallId)
    requires k in s.sweeps && Waiting(s.sweeps[k]) && s.sweeps[k].o in s.units
    requires var w, v := s.sweeps[k], s.units[s.sweeps[k].o];
      Possible(v, KillOf(w, k)) && Possible(React(v, KillOf(w, k)), EndOf(w, k))
    ensures var w, v := s.sweeps[k], s.units[s.sweeps[k].o];
      && Run(s, WaitOut(k))
      && After(s, WaitOut(k)) == Moved(s, k, w.o, React(React(v, KillOf(w, k)), EndOf(w, k)), Resumed(w))
  {
    hide Run, After, React, Possible;
    OneLabel(s, SweepKills(k));
    RunAppend(s, [SweepKills(k)], SweepResumes(k));
    assert WaitOut(k) == [SweepKills(k)] + [SweepResumes(k)];
  }

  lemma MovedTwice(s: State, k: CallId, o: ObjId, u: Unit, w: Sweep, v: Unit, x: Sweep)
    ensures Moved(Moved(s, k, o, u, w), k, o, v, x) == Moved(s, k, o, v, x)
  {
  }

  lemma ComesToSession(s: State, k: CallId, o: ObjId, todo: seq<ObjId>)
    requires k in s.sweeps && s.sweeps[k] == AtSessions([o] + todo) && o in s.units && Fresh(s.units[o], k)
    ensures var u := s.units[o];
      var v := if SessionUp(u) then React(u, StopBegins(k)) else u;
      var w := if SessionUp(u) && k in v.stops then StoppingSession(o, todo) else AtSessions(todo);
      Enabled(s, SweepStops(k)) && Next(s, SweepStops(k)) == Moved(s, k, o, v, w)
  {
    assert ([o] + todo)[1..] == todo;
    assert s.units[o := s.units[o]] == s.units;
    hide React;
  }

  lemma ComesToRuntime(s: State, k: CallId, o: ObjId, todo: seq<ObjId>)
    requires k in s.sweeps && s.sweeps[k] == AtRuntimes([o] + todo) && o in s.units && Fresh(s.units[o], k)
    ensures var u := s.units[o];
      var v := if RuntimeUp(u) then React(u, HaltBegins(k)) else u;
      var w := if RuntimeUp(u) && k in v.halts then StoppingRuntime(o, todo) else AtRuntimes(todo);
      Enabled(s, SweepHalts(k)) && Next(s, SweepHalts(k)) == Moved(s, k, o, v, w)
  {
    assert ([o] + todo)[1..] == todo;
    assert s.units[o := s.units[o]] == s.units;
    hide React;
  }

  lemma VisitedSession(s: State, k: CallId, o: ObjId, todo: seq<ObjId>)
    requires k in s.sweeps && s.sweeps[k] == AtSessions([o] + todo) && o in s.units && Fresh(s.units[o], k)
    ensures var steps := SessionVisit(s.units[o], k);
      && Run(s, steps)
      && After(s, steps) == Moved(s, k, o, SessionSwept(s.units[o], true), AtSessions(todo))
  {
    var u := s.units[o];
    assert Possible(u, StopBegins(k)) && s.units[o := u] == s.units;
    SessionStoppedIsEvents(u, k);
    ComesToSession(s, k, o, todo);
    OneLabel(s, SweepStops(k));
    hide Run, After, Enabled, Next, React, Possible, Fresh, SessionStopped;
    if SessionUp(u) && k in React(u, StopBegins(k)).stops {
      var w := StoppingSession(o, todo);
      var t := Moved(s, k, o, React(u, StopBegins(k)), w);
      WaitedOut(t, k);
      MovedTwice(s, k, o, t.units[o], w, SessionStopped(u), Resumed(w));
      RunConcat(s, [SweepStops(k)], WaitOut(k));
    }
  }

  lemma VisitedRuntime(s: State, k: CallId, o: ObjId, todo: seq<ObjId>)
    requires k in s.sweeps && s.sweeps[k] == AtRuntimes([o] + todo) && o in s.units && Fresh(s.units[o], k)
    ensures var steps := RuntimeVisit(s.units[o], k);
      && Run(s, steps)
      && After(s, steps) == Moved(s, k, o, RuntimeSwept(s.units[o], true), AtRuntimes(todo))
  {
    var u := s.units[o];
    assert Possible(u, HaltBegins(k)) && s.units[o := u] == s.units;
    RuntimeStoppedIsEvents(u, k);
    ComesToRuntime(s, k, o, todo);
    OneLabel(s, SweepHalts(k));
    hide Run, After, Enabled, Next, React, Possible, Fresh, RuntimeStopped;
    if RuntimeUp(u) && k in React(u, HaltBegins(k)).halts {
      var w := StoppingRuntime(o, todo);
      var t := Moved(s, k, o, React(u, HaltBegins(k)), w);
      WaitedOut(t, k);
      MovedTwice(s, k, o, t.units[o], w, RuntimeStopped(u), Resumed(w));
      RunConcat(s, [SweepHalts(k)], WaitOut(k));
    }
  }
  // ---------------------------------------------------------------------------
  // A sweep among other calls
  // ---------------------------------------------------------------------------

  /** Nothing is created or reset, and nobody else sweeps. */
  predicate Calm(l: Label, k: CallId) {
    && !l.Create? && !l.SweepBegins? && !(l.On? && l.ev.ResetBegins?)
    && (l.SweepLists? ==> l.k == k)
  }

  /** The unit has left these states for good, as long as nothing is reset. */
  predicate Calmer(u: Unit, v: Unit) {
    && v.lock != Resetting && v.born == u.born
    && (u.session != Active ==> v.session != Active)
    && (u.runtime != Running ==> v.runtime != Running)
  }

  lemma CalmReact(u: Unit, ev: Event)
    requires Possible(u, ev) && !ev.ResetBegins? && u.lock != Resetting
    ensures Calmer(u, React(u, ev))
  {
  }

  ghost predicate NoReset(s: State) {
    forall o :: o in s.units ==> s.units[o].lock != Resetting
  }

  /** How far the sweep has come with the sessions and runtimes it found. */
  ghost predicate Sweeping(s: State, k: CallId, sessions: set<ObjId>, runtimes: set<ObjId>) {
    && sessions <= s.units.Keys && runtimes <= s.units.Keys && k in s.sweeps
    && NoReset(s)
    && (forall j :: j in s.sweeps && j != k ==> s.sweeps[j] == Over)
    && match s.sweeps[k]
       case AtSessions(todo) => s.runtimes == runtimes && SessionsDown(s, sessions, todo)
       case StoppingSession(_, todo) => s.runtimes == runtimes && SessionsDown(s, sessions, todo)
       case Cleared => s.sessions == map[] && s.runtimes == runtimes && SessionsDown(s, sessions, [])
       case AtRuntimes(todo) => AfterSessions(s, sessions, runtimes, todo)
       case StoppingRuntime(_, todo) => AfterSessions(s, sessions, runtimes, todo)
       case Over => s.runtimes == {} && AfterSessions(s, sessions, runtimes, [])
  }

  ghost predicate AfterSessions(s: State, sessions: set<ObjId>, runtimes: set<ObjId>, todo: seq<ObjId>) {
    s.sessions == map[] && SessionsDown(s, sessions, []) && RuntimesDown(s, runtimes, todo)
  }

  ghost predicate SessionsDown(s: State, sessions: set<ObjId>, todo: seq<ObjId>) {
    forall o :: o in sessions && o in s.units && o !in todo ==> s.units[o].session != Active
  }

  ghost predicate RuntimesDown(s: State, runtimes: set<ObjId>, todo: seq<ObjId>) {
    forall o :: o in runtimes && o in s.units && o !in todo ==> s.units[o].runtime != Running
  }

  lemma CalmStep(s: State, l: Label, k: CallId)
    requires Enabled(s, l) && Calm(l, k) && NoReset(s)
    ensures Next(s, l).units.Keys == s.units.Keys && NoReset(Next(s, l))
    ensures forall o :: o in s.units ==> Calmer(s.units[o], Next(s, l).units[o])
  {
    assert Next(s, l).units.Keys == s.units.Keys by { hide React; }
    forall o | o in s.units ensures Calmer(s.units[o], Next(s, l).units[o]) {
      var ev := UnitStep(s, l, o);
      hide React, Next;
      if Next(s, l).units[o] != s.units[o] {
        CalmReact(s.units[o], ev);
      }
    }
    hide React, Next;
  }

  /** Every process is the one it was. */
  lemma {:induction false} CalmRun(s: State, ls: seq<Label>, k: CallId)
    requires Run(s, ls) && NoReset(s) && forall i :: 0 <= i < |ls| ==> Calm(ls[i], k)
    ensures After(s, ls).units.Keys == s.units.Keys
    ensures forall o :: o in s.units ==> After(s, ls).units[o].born == s.units[o].born
    decreases |ls|
  {
    hide Enabled, Next, Calm, NoReset;
    if ls != [] {
      CalmStep(s, ls[0], k);
      CalmRun(Next(s, ls[0]), ls[1..], k);
    }
  }

  lemma DownStays(s: State, l: Label, k: CallId, sessions: set<ObjId>, runtimes: set<ObjId>, todo: seq<ObjId>)
    requires Enabled(s, l) && Calm(l, k) && NoReset(s)
    ensures Next(s, l).units.Keys == s.units.Keys && NoReset(Next(s, l))
    ensures SessionsDown(s, sessions, todo) ==> SessionsDown(Next(s, l), sessions, todo)
    ensures RuntimesDown(s, runtimes, todo) ==> RuntimesDown(Next(s, l), runtimes, todo)
  {
    CalmStep(s, l, k);
    hide Next, Enabled, Calm, NoReset;
  }

  /** What the sweep has come to is down. */
  lemma VisitedIsDown(s: State, k: CallId)
    ensures Enabled(s, SweepStops(k)) ==> Next(s, SweepStops(k)).units[s.sweeps[k].todo[0]].session != Active
    ensures Enabled(s, SweepHalts(k)) ==> Next(s, SweepHalts(k)).units[s.sweeps[k].todo[0]].runtime != Running
  {
  }

  lemma DownShrinks(t: State, sessions: set<ObjId>, runtimes: set<ObjId>, todo: seq<ObjId>)
    requires todo != [] && todo[0] in t.units
    ensures SessionsDown(t, sessions, todo) && t.units[todo[0]].session != Active ==>
      SessionsDown(t, sessions, todo[1..])
    ensures RuntimesDown(t, runtimes, todo) && t.units[todo[0]].runtime != Running ==>
      RuntimesDown(t, runtimes, todo[1..])
  {
    assert todo == [todo[0]] + todo[1..];
  }

  lemma DownLists(t: State, runtimes: set<ObjId>, todo: seq<ObjId>)
    requires forall o :: o in todo <==> o in runtimes
    ensures RuntimesDown(t, runtimes, todo)
  {
  }

  function Todo(w: Sweep): seq<ObjId> {
    match w
    case AtSessions(todo) => todo
    case StoppingSession(_, todo) => todo
    case AtRuntimes(todo) => todo
    case StoppingRuntime(_, todo) => todo
    case _ => []
  }

  /** A step of somebody else. */
  lemma SweepingSame(s: State, t: State, k: CallId, sessions: set<ObjId>, runtimes: set<ObjId>)
    requires Sweeping(s, k, sessions, runtimes) && NoReset(t)
    requires t.units.Keys == s.units.Keys
    requires t.sessions == s.sessions && t.runtimes == s.runtimes && t.sweeps == s.sweeps
    requires SessionsDown(s, sessions, Todo(s.sweeps[k])) ==> SessionsDown(t, sessions, Todo(s.sweeps[k]))
    requires SessionsDown(s, sessions, []) ==> SessionsDown(t, sessions, [])
    requires RuntimesDown(s, runtimes, Todo(s.sweeps[k])) ==> RuntimesDown(t, runtimes, Todo(s.sweeps[k]))
    ensures Sweeping(t, k, sessions, runtimes)
  {
    hide SessionsDown, RuntimesDown, NoReset;
  }

  lemma SweepingOn(s: State, o: ObjId, ev: Event, k: CallId, sessions: set<ObjId>, runtimes: set<ObjId>)
    requires Sweeping(s, k, sessions, runtimes) && Enabled(s, On(o, ev)) && Calm(On(o, ev), k)
    ensures Sweeping(Next(s, On(o, ev)), k, sessions, runtimes)
  {
    DownStays(s, On(o, ev), k, sessions, runtimes, Todo(s.sweeps[k]));
    DownStays(s, On(o, ev), k, sessions, runtimes, []);
    hide React, SessionsDown, RuntimesDown, Unused, NoReset, Owned, Possible;
    SweepingSame(s, Next(s, On(o, ev)), k, sessions, runtimes);
  }

  lemma SweepingSessions(s: State, l: Label, k: CallId, sessions: set<ObjId>, runtimes: set<ObjId>)
    requires Sweeping(s, k, sessions, runtimes) && Enabled(s, l) && Calm(l, k)
    requires l.SweepStops? || l.SweepClears?
    ensures Sweeping(Next(s, l), k, sessions, runtimes)
  {
    DownStays(s, l, k, sessions, runtimes, Todo(s.sweeps[k]));
    VisitedIsDown(s, k);
    if l.SweepStops? {
      DownShrinks(Next(s, l), sessions, runtimes, Todo(s.sweeps[k]));
    }
    hide React, SessionUp, RuntimeUp, SessionsDown, RuntimesDown, Unused;
  }

  lemma SweepingLists(s: State, todo: seq<ObjId>, k: CallId, sessions: set<ObjId>, runtimes: set<ObjId>)
    requires Sweeping(s, k, sessions, runtimes) && Enabled(s, SweepLists(k, todo))
    ensures Sweeping(Next(s, SweepLists(k, todo)), k, sessions, runtimes)
  {
    DownStays(s, SweepLists(k, todo), k, sessions, runtimes, []);
    DownLists(Next(s, SweepLists(k, todo)), s.runtimes, todo);
    hide SessionsDown, RuntimesDown, Unused;
  }

  lemma SweepingHalts(s: State, k: CallId, sessions: set<ObjId>, runtimes: set<ObjId>)
    requires Sweeping(s, k, sessions, runtimes) && Enabled(s, SweepHalts(k))
    ensures Sweeping(Next(s, SweepHalts(k)), k, sessions, runtimes)
  {
    DownStays(s, SweepHalts(k), k, sessions, runtimes, Todo(s.sweeps[k]));
    DownStays(s, SweepHalts(k), k, sessions, runtimes, []);
    VisitedIsDown(s, k);
    DownShrinks(Next(s, SweepHalts(k)), sessions, runtimes, Todo(s.sweeps[k]));
    hide React, RuntimeUp, SessionsDown, RuntimesDown;
  }

  lemma SweepingForgets(s: State, k: CallId, sessions: set<ObjId>, runtimes: set<ObjId>)
    requires Sweeping(s, k, sessions, runtimes) && Enabled(s, SweepForgets(k))
    ensures Sweeping(Next(s, SweepForgets(k)), k, sessions, runtimes)
  {
    DownStays(s, SweepForgets(k), k, sessions, runtimes, []);
    hide SessionsDown, RuntimesDown;
  }

  lemma SweepingWaits(s: State, l: Label, k: CallId, sessions: set<ObjId>, runtimes: set<ObjId>)
    requires Sweeping(s, k, sessions, runtimes) && Enabled(s, l) && Calm(l, k)
    requires l == SweepKills(k) || l == SweepResumes(k)
    ensures Sweeping(Next(s, l), k, sessions, runtimes)
  {
    DownStays(s, l, k, sessions, runtimes, Todo(s.sweeps[k]));
    DownStays(s, l, k, sessions, runtimes, []);
    hide React, SessionsDown, RuntimesDown, NoReset;
  }

  /** Only this sweep takes steps. */
  lemma OwnSteps(s: State, l: Label, k: CallId, sessions: set<ObjId>, runtimes: set<ObjId>)
    requires Sweeping(s, k, sessions, runtimes) && Enabled(s, l) && Calm(l, k)
    ensures l.On? || l.k == k
  {
    hide SessionsDown, RuntimesDown, Unused;
  }

  lemma SweepingStep(s: State, l: Label, k: CallId, sessions: set<ObjId>, runtimes: set<ObjId>)
    requires Sweeping(s, k, sessions, runtimes) && Enabled(s, l) && Calm(l, k)
    ensures Sweeping(Next(s, l), k, sessions, runtimes)
  {
    OwnSteps(s, l, k, sessions, runtimes);
    hide Sweeping, Enabled, Next;
    match l
    case On(o, ev) => SweepingOn(s, o, ev, k, sessions, runtimes);
    case SweepStops(_) => SweepingSessions(s, l, k, sessions, runtimes);
    case SweepClears(_) => SweepingSessions(s, l, k, sessions, runtimes);
    case SweepKills(_) => SweepingWaits(s, l, k, sessions, runtimes);
    case SweepResumes(_) => SweepingWaits(s, l, k, sessions, runtimes);
    case SweepLists(_, todo) => SweepingLists(s, todo, k, sessions, runtimes);
    case SweepHalts(_) => SweepingHalts(s, k, sessions, runtimes);
    case SweepForgets(_) => SweepingForgets(s, k, sessions, runtimes);
    case _ =>
  }

  lemma {:induction false} SweepingRun(s: State, ls: seq<Label>, k: CallId, sessions: set<ObjId>, runtimes: set<ObjId>)
    requires Sweeping(s, k, sessions, runtimes) && Run(s, ls) && forall i :: 0 <= i < |ls| ==> Calm(ls[i], k)
    ensures Sweeping(After(s, ls), k, sessions, runtimes)
    decreases |ls|
  {
    hide Sweeping, Enabled, Next, Calm;
    if ls != [] {
      SweepingStep(s, ls[0], k, sessions, runtimes);
      SweepingRun(Next(s, ls[0]), ls[1..], k, sessions, runtimes);
    }
  }

  lemma SweepStarts(s: State, k: CallId, todo: seq<ObjId>)
    requires Inv(s) && NoReset(s) && Enabled(s, SweepBegins(k, todo))
    requires forall j :: j in s.sweeps ==> s.sweeps[j] == Over
    ensures Sweeping(Next(s, SweepBegins(k, todo)), k, s.sessions.Values, s.runtimes)
  {
    hide Sound, Unused;
    assert s.sessions.Values <= s.units.Keys;
  }

  lemma SweepEnds(t: State, k: CallId, sessions: set<ObjId>, runtimes: set<ObjId>)
    requires Inv(t) && Sweeping(t, k, sessions, runtimes) && t.sweeps[k] == Over
    ensures t.sessions == map[] && t.runtimes == {}
    ensures forall o :: o in sessions ==> o in t.units && t.units[o].session != Active
    ensures forall o :: o in runtimes && o in t.units && t.units[o].alive ==>
      t.units[o].stops != map[] || t.units[o].halts != map[] || t.units[o].born != {}
  {
  }

  /** Over every interleaving with cells, verifications, installations, stops and
      dying processes: when a sweep that began with no reset under way ends, and
      nothing was created or reset meanwhile, both registries are empty, no session
      it found is ACTIVE, and a worker that it found is dead or being ended, unless
      another stop was closing when this worker was started. */
  lemma SweepLeavesNone(before: seq<Label>, k: CallId, todo: seq<ObjId>, ls: seq<Label>)
    requires Run(INIT, before) && Enabled(After(INIT, before), SweepBegins(k, todo))
    requires NoReset(After(INIT, before))
    requires forall j :: j in After(INIT, before).sweeps ==> After(INIT, before).sweeps[j] == Over
    requires Run(Next(After(INIT, before), SweepBegins(k, todo)), ls) && forall i :: 0 <= i < |ls| ==> Calm(ls[i], k)
    ensures var s := After(INIT, before);
      var t := After(Next(s, SweepBegins(k, todo)), ls);
      k in t.sweeps && t.sweeps[k] == Over ==>
        && t.sessions == map[] && t.runtimes == {} && t.units.Keys == s.units.Keys
        && (forall o :: o in s.sessions.Values ==> o in t.units && t.units[o].session != Active)
        && (forall o :: o in s.runtimes && o in t.units && t.units[o].alive ==>
              t.units[o].stops != map[] || t.units[o].halts != map[] || s.units[o].born != {})
  {
    var s := After(INIT, before);
    InvInit();
    InvRun(INIT, before);
    var s0 := Next(s, SweepBegins(k, todo));
    assert s0.units == s.units && NoReset(s0);
    hide Enabled, Next, Sound, NoReset, Inv, Sweeping, Run, After, Calm;
    InvStep(s, SweepBegins(k, todo));
    InvRun(s0, ls);
    SweepStarts(s, k, todo);
    SweepingRun(s0, ls, k, s.sessions.Values, s.runtimes);
    CalmRun(s0, ls, k);
    var t := After(s0, ls);
    if k in t.sweeps && t.sweeps[k] == Over {
      SweepEnds(t, k, s.sessions.Values, s.runtimes);
    }
  }

  // ---------------------------------------------------------------------------
  // Runs in which a worker is lost
  // ---------------------------------------------------------------------------

  const STARTED := State(map[0 := NewUnit(true)], map["s" := 0], {0}, map[])

  /** A worker that a reset started after its session was stopped. */
  const REVIVED := NewUnit(true).(session := Stopped, overlapped := true)

  const IN_RESET := STARTED.(units := map[0 := NewUnit(true).(runtime := Terminating, lock := Resetting)])

  lemma InResetReached(ls: seq<Label>)
    requires Run(IN_RESET, ls)
    ensures var all := [Create("s", 0, true)] + ([On(0, ResetBegins(true))] + ls);
      Run(INIT, all) && After(INIT, all) == After(IN_RESET, ls)
  {
    hide Run, After;
    assert Next(INIT, Create("s", 0, true)) == STARTED;
    assert Next(STARTED, On(0, ResetBegins(true))) == IN_RESET;
    Follow(STARTED, On(0, ResetBegins(true)), ls);
    Follow(INIT, Create("s", 0, true), [On(0, ResetBegins(true))] + ls);
  }

  const STOP_DURING_RESET :=
    [Create("s", 0, true)] + ([On(0, ResetBegins(true))] + ([On(0, StopBegins(0))] + ([On(0, ResetEnds(true))] + [])))

  /** The unlocked stop returns early from the runtime, which is already being
      stopped by the reset; then the reset starts a new worker. */
  lemma StoppedButAlive()
    ensures Run(INIT, STOP_DURING_RESET)
    ensures After(INIT, STOP_DURING_RESET).units == map[0 := REVIVED]
  {
    hide Run, After;
    var s3 := Next(IN_RESET, On(0, StopBegins(0)));
    assert Closings(s3.units[0]) == {};
    FollowEnd(Next(s3, On(0, ResetEnds(true))));
    Follow(s3, On(0, ResetEnds(true)), []);
    Follow(IN_RESET, On(0, StopBegins(0)), [On(0, ResetEnds(true))] + []);
    InResetReached([On(0, StopBegins(0))] + ([On(0, ResetEnds(true))] + []));
  }

  /** A sweep over one session in the middle of its reset, whose old process is dead. */
  function SweepOne(last: Label): seq<Label> {
    [SweepBegins(0, [0])] + ([SweepStops(0)] + ([SweepClears(0)] + AndRuntimes(last)))
  }

  function AndRuntimes(last: Label): seq<Label> {
    [SweepLists(0, [0])] + ([SweepHalts(0)] + ([SweepForgets(0)] + ([last] + [])))
  }

  const OLD_IS_DEAD :=
    STARTED.(units := map[0 := NewUnit(true).(runtime := Terminating, lock := Resetting, alive := false)])

  const SESSION_GONE :=
    State(map[0 := OLD_IS_DEAD.units[0].(session := Stopped, overlapped := true)], map[], {0}, map[0 := Cleared])

  const ALL_GONE := SESSION_GONE.(runtimes := {}, sweeps := map[0 := Over])

  lemma SessionGone(ls: seq<Label>)
    requires Run(SESSION_GONE, ls)
    ensures var all := [SweepBegins(0, [0])] + ([SweepStops(0)] + ([SweepClears(0)] + ls));
      Run(OLD_IS_DEAD, all) && After(OLD_IS_DEAD, all) == After(SESSION_GONE, ls)
  {
    hide Run, After;
    var s1 := OLD_IS_DEAD.(sweeps := map[0 := AtSessions([0])]);
    var s2 := SESSION_GONE.(sessions := OLD_IS_DEAD.sessions, sweeps := map[0 := AtSessions([])]);
    assert OLD_IS_DEAD.sessions["s"] == 0;
    assert forall o :: o in [0] <==> o in OLD_IS_DEAD.sessions.Values;
    assert Enabled(OLD_IS_DEAD, SweepBegins(0, [0]));
    assert Next(OLD_IS_DEAD, SweepBegins(0, [0])) == s1;
    assert [0][1..] == [];
    assert Next(s1, SweepStops(0)) == s2;
    assert Next(s2, SweepClears(0)) == SESSION_GONE;
    Follow(s2, SweepClears(0), ls);
    Follow(s1, SweepStops(0), [SweepClears(0)] + ls);
    Follow(OLD_IS_DEAD, SweepBegins(0, [0]), [SweepStops(0)] + ([SweepClears(0)] + ls));
  }

  lemma RuntimeForgotten(last: Label)
    requires Enabled(ALL_GONE, last)
    ensures Run(SESSION_GONE, AndRuntimes(last)) && After(SESSION_GONE, AndRuntimes(last)) == Next(ALL_GONE, last)
  {
    hide Run, After;
    var s4 := SESSION_GONE.(sweeps := map[0 := AtRuntimes([0])]);
    var s5 := SESSION_GONE.(sweeps := map[0 := AtRuntimes([])]);
    assert Next(SESSION_GONE, SweepLists(0, [0])) == s4;
    assert [0][1..] == [];
    assert Next(s4, SweepHalts(0)) == s5;
    assert Next(s5, SweepForgets(0)) == ALL_GONE;
    FollowEnd(Next(ALL_GONE, last));
    Follow(ALL_GONE, last, []);
    Follow(s5, SweepForgets(0), [last] + []);
    Follow(s4, SweepHalts(0), [SweepForgets(0)] + ([last] + []));
    Follow(SESSION_GONE, SweepLists(0, [0]), [SweepHalts(0)] + ([SweepForgets(0)] + ([last] + [])));
  }

  lemma LastReset()
    ensures Enabled(IN_RESET, On(0, WorkerDies)) && Next(IN_RESET, On(0, WorkerDies)) == OLD_IS_DEAD
    ensures Enabled(ALL_GONE, On(0, ResetEnds(true)))
    ensures Next(ALL_GONE, On(0, ResetEnds(true))) == ALL_GONE.(units := map[0 := REVIVED])
  {
    assert Closings(ALL_GONE.units[0]) == {};
  }

  /** A sweep stops a session whose reset is under way, leaves its runtime to the
      reset and forgets both; then the reset starts a worker that nobody knows. */
  lemma LostInReset()
    ensures var all := [Create("s", 0, true)]
        + ([On(0, ResetBegins(true))] + ([On(0, WorkerDies)] + SweepOne(On(0, ResetEnds(true)))));
      && Run(INIT, all)
      && After(INIT, all) == State(map[0 := REVIVED], map[], {}, map[0 := Over])
  {
    var last := On(0, ResetEnds(true));
    LastReset();
    hide Run, After, AndRuntimes, React, Enabled, Next;
    RuntimeForgotten(last);
    SessionGone(AndRuntimes(last));
    Follow(IN_RESET, On(0, WorkerDies), SweepOne(last));
    InResetReached([On(0, WorkerDies)] + SweepOne(last));
  }

  /** A stop of the runtime terminates the worker; before it ends a reset starts
      another one and a cell keeps that busy; then the stop closes its pipe. */
  const LATE_END := [HaltBegins(1)] + ([HaltKills(1)] + BUSY_AGAIN)

  const BUSY_AGAIN := [ResetBegins(true)] + ([ExecBegins] + ([HaltEnds(1)] + [ExecFails]))

  const CUT_OFF := Unit(Failed, Terminated, true, Idle, 0, map[], map[], {1}, false)

  const KILLED := NewUnit(true).(runtime := Terminating, alive := false, halts := map[1 := Closing])

  lemma BusyAgainGoes()
    ensures Goes(KILLED, BUSY_AGAIN) && Gone(KILLED, BUSY_AGAIN) == CUT_OFF
  {
    assert Closings(KILLED) == {1};
    var u3 := KILLED.(runtime := Running, alive := true, born := {1});
    var u4 := u3.(lock := Executing);
    var u5 := u4.(runtime := Terminated, halts := map[]);
    assert React(KILLED, ResetBegins(true)) == u3;
    assert React(u3, ExecBegins) == u4;
    assert React(u4, HaltEnds(1)) == u5;
    assert React(u5, ExecFails) == CUT_OFF;
    hide React, Goes, Gone;
    OneEvent(u5, ExecFails);
    Going(u4, HaltEnds(1), [ExecFails]);
    Going(u3, ExecBegins, [HaltEnds(1)] + [ExecFails]);
    Going(KILLED, ResetBegins(true), [ExecBegins] + ([HaltEnds(1)] + [ExecFails]));
  }

  lemma LateEndGoes()
    ensures Goes(NewUnit(true), LATE_END) && Gone(NewUnit(true), LATE_END) == CUT_OFF
    ensures forall ev :: ev in LATE_END ==> !Owned(STARTED, ev)
  {
    var u1 := NewUnit(true).(runtime := Terminating, halts := map[1 := Joining]);
    assert React(NewUnit(true), HaltBegins(1)) == u1;
    assert React(u1, HaltKills(1)) == KILLED;
    hide React, Goes, Gone;
    BusyAgainGoes();
    Going(u1, HaltKills(1), BUSY_AGAIN);
    Going(NewUnit(true), HaltBegins(1), [HaltKills(1)] + BUSY_AGAIN);
  }

  /** The run leaves a live worker under a FAILED session and a TERMINATED runtime,
      with nothing under way, and a sweep passes over both. */
  lemma WorkerCutOff()
    ensures var all := [Create("s", 0, true)] + OnAll(0, LATE_END);
      && Run(INIT, all) && After(INIT, all) == STARTED.(units := map[0 := CUT_OFF])
    ensures SessionSwept(CUT_OFF, true) == RuntimeSwept(CUT_OFF, true) == CUT_OFF
  {
    LateEndGoes();
    RunOfEvents(STARTED, 0, LATE_END);
    assert Next(INIT, Create("s", 0, true)) == STARTED;
    hide Run, After, Goes, Gone;
    Follow(INIT, Create("s", 0, true), OnAll(0, LATE_END));
  }
}
