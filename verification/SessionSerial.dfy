/**
 The session runs its calls as if one at a time, in the order in which they took
 the lock: a serial machine without pipe, lock or suspension is the reference,
 and every undisturbed interleaving agrees with it.
 */
module SessionSerial {
  import opened Status
  import opened SessionProtocol
  import opened Text

  /** What one call at a time can see: the session's status, whether the runtime
      is up, and the worker's namespace. */
  datatype Serial = Serial(session: SessionStatus, up: bool, ns: Namespace)

  const START := Serial(Active, true, FRESH_NAMESPACE)

  /** One call, start to end, with nobody else around. */
  function Perform(w: World, q: Serial, e: Entry): (Serial, Result) {
    match e
    case FoundDown => (q.(session := Failed), RuntimeDown)
    case Turn(Caller(c, Reset)) =>
      if q.session != Active then (q, NotActive)
      else if w.fate(c).StartFails? then (q.(up := false), StartFailed)
      else (Serial(Active, true, FRESH_NAMESPACE), Restarted)
    case Turn(Caller(c, Execute(code))) =>
      if !q.up then (q.(session := Failed), RuntimeDown)
      else if w.fate(c).Expires? then (q.(session := Failed, up := false), TimedOut)
      else match w.run(q.ns, Cell(code))
        case Replies(ns, reply) => (q.(ns := ns), Got(c, reply))
        case _ => (q.(session := Failed, up := false), WorkerDied)
  }

  function Replay(w: World, es: seq<Entry>): Serial {
    if es == [] then START else Perform(w, Replay(w, es[..|es| - 1]), es[|es| - 1]).0
  }

  /** What the call of the i-th entry returns when the calls run one at a time. */
  function ResultAt(w: World, es: seq<Entry>, i: nat): Result
    requires i < |es|
  {
    Perform(w, Replay(w, es[..i]), es[i]).1
  }

  lemma ReplayAppend(w: World, es: seq<Entry>, e: Entry)
    ensures Replay(w, es + [e]) == Perform(w, Replay(w, es), e).0
    ensures forall i :: 0 <= i < |es| ==> ResultAt(w, es + [e], i) == ResultAt(w, es, i)
    ensures ResultAt(w, es + [e], |es|) == Perform(w, Replay(w, es), e).1
  {
    assert (es + [e])[..|es|] == es;
    forall i | 0 <= i < |es| ensures ResultAt(w, es + [e], i) == ResultAt(w, es, i) {
      assert (es + [e])[..i] == es[..i];
    }
  }

  /** Callers that only found the runtime down leave a failed session behind. */
  lemma {:induction false} ReplayFoundDown(w: World, es: seq<Entry>, k: nat)
    requires k < |es| && forall i :: k < i < |es| ==> es[i] == FoundDown
    ensures var p := Perform(w, Replay(w, es[..k]), es[k]).0;
      Replay(w, es) == if k + 1 == |es| then p else p.(session := Failed)
  {
    if k + 1 < |es| {
      var shorter := es[..|es| - 1];
      ReplayFoundDown(w, shorter, k);
      assert shorter[..k] == es[..k];
    } else {
      assert es[..|es| - 1] == es[..k];
    }
  }

  // ---------------------------------------------------------------------------
  // The interleaved system agrees with the serial one
  // ---------------------------------------------------------------------------

  /** A call is cancelled once it has the lock, the runtime has a visitor, or the
      process ends while it is idle or with an answer of its outermost handler, so
      that the caller may see either. */
  predicate Disturbs(w: World, s: State, l: Label) {
    || l.Abandon? || l.Visit? || (l.Die? && !s.holder.Restarting?)
    || (l.Serve? && s.pipe.toWorker != [] && w.run(s.ns, s.pipe.toWorker[0].task).Breaks?)
  }

  predicate Undisturbed(w: World, s: State, ls: seq<Label>)
    requires Run(w, s, ls)
    decreases |ls|
  {
    ls == [] || (!Disturbs(w, s, ls[0]) && Undisturbed(w, Next(w, s, ls[0]), ls[1..]))
  }

  /** Between calls the two machines show the same thing. */
  predicate Agrees(s: State, q: Serial) {
    && s.session == q.session
    && (s.runtime == Running <==> q.up)
    && (q.up ==> s.alive && s.ns == q.ns && s.pipe.toParent == [])
    && (s.alive ==> s.pipe.toWorker == [])
  }

  /** The worker has not yet run the holder's request, or has answered it, or has
      died of it. */
  predicate InFlight(w: World, s: State, q: Serial, r: Request) {
    var o := w.run(q.ns, r.task);
    || (s.alive && s.ns == q.ns && s.pipe.toWorker == [r] && s.pipe.toParent == [])
    || (o.Replies? && s.alive && s.ns == o.ns && s.pipe.toWorker == [] && s.pipe.toParent == [Message(r.id, o.reply)])
    || (o.Dies? && !s.alive && s.pipe.toParent == [])
  }

  predicate NothingLate(s: State) {
    s.guests == map[] && s.pipe.lateSends == [] && s.pipe.lateTakes == 0
  }

  /** The turn of a cell that has sent, or will send, the request `r`. */
  function TurnOf(r: Request): Entry {
    Turn(Caller(r.id, Execute(if r.task.Cell? then r.task.code else "")))
  }

  ghost predicate Tracks(w: World, s: State) {
    && NothingLate(s)
    && match s.holder
       case Free => Agrees(s, Replay(w, s.order))
       case Sending(r) =>
         && s.base + 1 == |s.order| && s.order[s.base] == TurnOf(r) && r.task.Cell?
         && Agrees(s, Replay(w, s.order[..s.base])) && s.runtime == Running
       case Awaiting(r) =>
         && s.base + 1 == |s.order| && s.order[s.base] == TurnOf(r) && r.task.Cell?
         && s.session == Replay(w, s.order[..s.base]).session && s.runtime == Running
         && Replay(w, s.order[..s.base]).up
         && InFlight(w, s, Replay(w, s.order[..s.base]), r)
       case Restarting(c) =>
         && s.base < |s.order| && s.order[s.base] == Turn(Caller(c, Reset))
         && (forall i :: s.base < i < |s.order| ==> s.order[i] == FoundDown)
         && Replay(w, s.order[..s.base]).session == Active
         && s.session == (if s.base + 1 == |s.order| then Active else Failed)
         && s.runtime == Terminating && (s.alive ==> s.pipe.toWorker == [])
  }

  /** A caller is turned away because the runtime is down. */
  lemma TracksFoundDown(w: World, s: State, t: State)
    requires Tracks(w, s) && s.runtime != Running
    requires t == s.(next := t.next, results := t.results, session := Failed, order := s.order + [FoundDown])
    ensures Tracks(w, t)
  {
    ReplayAppend(w, s.order, FoundDown);
    if s.holder.Restarting? {
      assert t.order[..s.base] == s.order[..s.base];
    }
  }

  lemma TracksArrive(w: World, s: State, op: Op)
    requires Tracks(w, s)
    ensures Tracks(w, Arrival(s, op))
  {
    var t := Arrival(s, op);
    if t.order != s.order {
      hide Tracks;
      TracksFoundDown(w, s, t);
    }
  }

  lemma TracksGranted(w: World, s: State)
    requires Tracks(w, s) && s.holder == Free && s.queue != [] && Acquisition(s).holder != Free
    ensures Tracks(w, Acquisition(s))
  {
    var t := Acquisition(s);
    assert t.order[..t.base] == s.order;
    hide Perform, Replay;
  }

  lemma TracksRefused(w: World, s: State)
    requires Tracks(w, s) && s.holder == Free && s.queue != [] && Acquisition(s).holder == Free
    ensures Tracks(w, Acquisition(s))
  {
    ReplayAppend(w, s.order, Turn(s.queue[0]));
    hide Replay;
  }

  /** Without guests the caller with a request is the holder. */
  lemma NoGuests(s: State, c: CallId)
    requires s.guests == map[]
    ensures Awaited(s, c).Some? ==> s.holder.Awaiting? && s.holder.r.id == c && Awaited(s, c) == Some(s.holder.r)
    ensures Unsent(s, c).Some? ==> s.holder.Sending? && s.holder.r.id == c && Unsent(s, c) == Some(s.holder.r)
  {
  }

  lemma FinishAlone(s: State, c: CallId, r: Result)
    requires s.guests == map[] && s.holder != Free && HolderId(s.holder) == c
    ensures Finish(s, c, r) == s.(results := s.results[c := r], holder := Free)
  {
    assert s.guests - {c} == map[];
  }

  /** The last turn in the history, performed. */
  lemma LastTurn(w: World, s: State)
    requires s.base + 1 == |s.order|
    ensures Replay(w, s.order) == Perform(w, Replay(w, s.order[..s.base]), s.order[s.base]).0
    ensures ResultAt(w, s.order, s.base) == Perform(w, Replay(w, s.order[..s.base]), s.order[s.base]).1
  {
  }

  lemma TracksSend(w: World, s: State, c: CallId)
    requires Tracks(w, s) && Unsent(s, c).Some?
    ensures Tracks(w, Dispatch(s, c))
  {
    NoGuests(s, c);
    hide Replay, Perform, Unsent, Awaited;
  }

  lemma TracksWork(w: World, s: State)
    requires Tracks(w, s) && s.alive && s.pipe.toWorker != [] && !w.run(s.ns, s.pipe.toWorker[0].task).Breaks?
    ensures Tracks(w, Work(w, s))
  {
    hide Replay, Perform;
  }

  lemma TracksReceipt(w: World, s: State, c: CallId)
    requires Tracks(w, s) && Awaited(s, c).Some? && s.pipe.toParent != [] && !w.fate(c).Expires?
    ensures Tracks(w, Receipt(s, c)) && Receipt(s, c).results[c] == ResultAt(w, s.order, s.base)
  {
    NoGuests(s, c);
    LastTurn(w, s);
    FinishAlone(s, c, Got(s.pipe.toParent[0].id, s.pipe.toParent[0].reply));
    hide Replay, Finish, Awaited, ResultAt;
  }

  lemma TracksDeathNotice(w: World, s: State, c: CallId)
    requires Tracks(w, s) && Awaited(s, c).Some? && !s.alive && !w.fate(c).Expires?
    ensures Tracks(w, DeathNotice(s, c)) && DeathNotice(s, c).results[c] == ResultAt(w, s.order, s.base)
  {
    NoGuests(s, c);
    LastTurn(w, s);
    FinishAlone(s, c, WorkerDied);
    hide Replay, Finish, Awaited, ResultAt;
  }

  lemma TracksExpiry(w: World, s: State, c: CallId)
    requires Tracks(w, s) && Awaited(s, c).Some? && w.fate(c).Expires?
    ensures Tracks(w, Expiry(s, c)) && Expiry(s, c).results[c] == ResultAt(w, s.order, s.base)
  {
    NoGuests(s, c);
    LastTurn(w, s);
    FinishAlone(s, c, TimedOut);
    hide Replay, Finish, Awaited, ResultAt;
  }

  /** What a restart does when there are no guests. */
  lemma NewWorkerAlone(w: World, s: State)
    requires s.guests == map[] && s.holder.Restarting?
    ensures NewWorker(w, s, {}) ==
      if w.fate(s.holder.id).StartFails?
      then s.(results := s.results[s.holder.id := StartFailed], holder := Free, pipe := NEW_PIPE,
              runtime := Crashed, alive := false)
      else s.(results := s.results[s.holder.id := Restarted], holder := Free, pipe := NEW_PIPE,
              runtime := Running, alive := true, ns := FRESH_NAMESPACE)
  {
    assert Broken(s, {}) == s;
    FinishAlone(s, s.holder.id, StartFailed);
    FinishAlone(s, s.holder.id, Restarted);
    hide Finish, Broken;
  }

  lemma TracksNewWorker(w: World, s: State)
    requires Tracks(w, s) && s.holder.Restarting?
    ensures Tracks(w, NewWorker(w, s, {}))
    ensures NewWorker(w, s, {}).results[s.holder.id] == ResultAt(w, s.order, s.base)
  {
    ReplayFoundDown(w, s.order, s.base);
    NewWorkerAlone(w, s);
    hide Replay, NewWorker;
  }

  lemma TracksQuiet(w: World, s: State)
    requires Tracks(w, s)
    ensures forall i: nat :: i < |s.queue| ==> Tracks(w, Withdrawal(s, i))
    ensures s.holder.Restarting? ==> Tracks(w, Death(s))
  {
    hide Replay;
  }

  /** Without guests nothing breaks when the pipe closes. */
  lemma NothingBroken(w: World, s: State, broken: set<CallId>)
    requires Tracks(w, s) && Enabled(w, s, Restart(broken))
    ensures broken == {}
  {
    hide Replay, Agrees, InFlight;
  }

  lemma TracksStep(w: World, s: State, l: Label)
    requires Tracks(w, s) && Enabled(w, s, l) && !Disturbs(w, s, l)
    ensures Tracks(w, Next(w, s, l))
  {
    assert NothingLate(s);
    hide Tracks, Awaited, Unsent;
    hide Arrival, Visiting, Acquisition, Dispatch, Work, Receipt;
    hide DeathNotice, Expiry, Withdrawal, Abandonment, Death, NewWorker;
    match l
    case Arrive(op) => TracksArrive(w, s, op);
    case Acquire => if Acquisition(s).holder == Free { TracksRefused(w, s); } else { TracksGranted(w, s); }
    case Send(c) => TracksSend(w, s, c);
    case Serve => TracksWork(w, s);
    case Take(c) => TracksReceipt(w, s, c);
    case Notice(c) => TracksDeathNotice(w, s, c);
    case Expire(c) => TracksExpiry(w, s, c);
    case Restart(broken) => NothingBroken(w, s, broken); TracksNewWorker(w, s);
    case Withdraw(_) => TracksQuiet(w, s);
    case Die => TracksQuiet(w, s);
    case _ =>
  }

  // ---------------------------------------------------------------------------
  // Every caller sees the serial result
  // ---------------------------------------------------------------------------

  /** Every turn in the history is finished and got the serial result, except the
      turn of the current holder. */
  ghost predicate Recorded(w: World, s: State) {
    && (forall i :: 0 <= i < |s.order| && s.order[i].Turn? ==> TurnRecorded(w, s, i))
    && (s.holder != Free ==>
          s.base < |s.order| && s.order[s.base].Turn? && s.order[s.base].caller.id == HolderId(s.holder))
  }

  ghost predicate TurnRecorded(w: World, s: State, i: nat)
    requires i < |s.order| && s.order[i].Turn?
  {
    var c := s.order[i].caller.id;
    && c < s.next && (forall k :: 0 <= k < |s.queue| ==> s.queue[k].id != c)
    && (if c in s.results then s.results[c] == ResultAt(w, s.order, i)
        else s.holder != Free && i == s.base)
  }

  lemma RecordedArrive(w: World, s: State, op: Op)
    requires Recorded(w, s) && CallsApart(s)
    ensures Recorded(w, Arrival(s, op))
  {
    hide Recorded, CallsApart;
    RecordedArrival(w, s, Arrival(s, op));
  }

  lemma RecordedArrival(w: World, s: State, t: State)
    requires Recorded(w, s) && t.base == s.base && t.holder == s.holder && t.next == s.next + 1
    requires t.order == s.order || t.order == s.order + [FoundDown]
    requires forall c :: c < s.next ==>
      (c in t.results <==> c in s.results) && (c in s.results ==> t.results[c] == s.results[c])
    requires t.queue == s.queue || exists c :: t.queue == s.queue + [c] && c.id == s.next
    ensures Recorded(w, t)
  {
    ReplayAppend(w, s.order, FoundDown);
    hide Perform, Replay, ResultAt;
    forall i | 0 <= i < |t.order| && t.order[i].Turn? ensures TurnRecorded(w, t, i) {
      assert t.order[i] == s.order[i];
      assert TurnRecorded(w, s, i);
    }
  }

  /** A caller that gets the lock and returns at once returns the serial result. */
  lemma RefusedAtOnce(w: World, s: State)
    requires CallsApart(s) && Tracks(w, s) && s.holder == Free && s.queue != []
    ensures var c, results := s.queue[0].id, Acquisition(s).results;
      c in results ==> results[c] == Perform(w, Replay(w, s.order), Turn(s.queue[0])).1
  {
  }

  lemma RecordedAcquire(w: World, s: State)
    requires Recorded(w, s) && CallsApart(s) && Tracks(w, s) && s.holder == Free && s.queue != []
    ensures Recorded(w, Acquisition(s))
  {
    RefusedAtOnce(w, s);
    hide Recorded, Tracks, Perform, Replay;
    RecordedTurn(w, s, Acquisition(s));
  }

  lemma RecordedTurn(w: World, s: State, t: State)
    requires Recorded(w, s) && CallsApart(s) && s.queue != [] && s.holder == Free
    requires t.order == s.order + [Turn(s.queue[0])] && t.base == |s.order|
    requires t.queue == s.queue[1..] && t.next == s.next
    requires forall c :: c in s.results ==> c in t.results && t.results[c] == s.results[c]
    requires var c := s.queue[0].id;
      if t.holder == Free then c in t.results && t.results[c] == Perform(w, Replay(w, s.order), Turn(s.queue[0])).1
      else c !in t.results && HolderId(t.holder) == c
    ensures Recorded(w, t)
  {
    ReplayAppend(w, s.order, Turn(s.queue[0]));
    hide Perform, Replay, ResultAt;
    forall i | 0 <= i < |t.order| && t.order[i].Turn? ensures TurnRecorded(w, t, i) {
      if i < |s.order| {
        assert TurnRecorded(w, s, i);
      }
    }
  }

  /** The holder finishes with the serial result. */
  lemma RecordedFinish(w: World, s: State, t: State)
    requires Recorded(w, s) && CallsApart(s) && s.holder != Free && t.holder == Free
    requires t.order == s.order && t.queue == s.queue && t.next == s.next && s.base < |s.order|
    requires t.results == s.results[HolderId(s.holder) := ResultAt(w, s.order, s.base)]
    ensures Recorded(w, t)
  {
    hide Perform, Replay, ResultAt;
    forall i | 0 <= i < |t.order| && t.order[i].Turn? ensures TurnRecorded(w, t, i) {
      assert TurnRecorded(w, s, i);
    }
  }

  lemma RecordedReceipt(w: World, s: State, c: CallId)
    requires Recorded(w, s) && CallsApart(s) && Tracks(w, s) && Awaited(s, c).Some?
    ensures s.pipe.toParent != [] && !w.fate(c).Expires? ==> Recorded(w, Receipt(s, c))
    ensures !s.alive && !w.fate(c).Expires? ==> Recorded(w, DeathNotice(s, c))
    ensures w.fate(c).Expires? ==> Recorded(w, Expiry(s, c))
  {
    NoGuests(s, c);
    assert s.base < |s.order|;
    if w.fate(c).Expires? {
      TracksExpiry(w, s, c);
      FinishAlone(s, c, TimedOut);
      hide Recorded, Tracks, Awaited, ResultAt, Finish, CallsApart;
      RecordedFinish(w, s, Expiry(s, c));
    } else {
      if s.pipe.toParent != [] {
        TracksReceipt(w, s, c);
        FinishAlone(s, c, Got(s.pipe.toParent[0].id, s.pipe.toParent[0].reply));
        hide Recorded, Tracks, Awaited, ResultAt, Finish, CallsApart;
        RecordedFinish(w, s, Receipt(s, c));
      }
      if !s.alive {
        TracksDeathNotice(w, s, c);
        FinishAlone(s, c, WorkerDied);
        hide Recorded, Tracks, Awaited, ResultAt, Finish, CallsApart;
        RecordedFinish(w, s, DeathNotice(s, c));
      }
    }
  }

  lemma RecordedNewWorker(w: World, s: State)
    requires Recorded(w, s) && CallsApart(s) && Tracks(w, s) && s.holder.Restarting?
    ensures Recorded(w, NewWorker(w, s, {}))
  {
    TracksNewWorker(w, s);
    NewWorkerAlone(w, s);
    hide Recorded, Tracks, ResultAt, CallsApart, NewWorker;
    RecordedFinish(w, s, NewWorker(w, s, {}));
  }

  lemma RecordedWithdraw(w: World, s: State, i: nat)
    requires Recorded(w, s) && CallsApart(s) && i < |s.queue|
    ensures Recorded(w, Withdrawal(s, i))
  {
    hide Perform, Replay, ResultAt;
    var t := Withdrawal(s, i);
    forall k | 0 <= k < |t.order| && t.order[k].Turn? ensures TurnRecorded(w, t, k) {
      assert TurnRecorded(w, s, k);
    }
  }

  lemma RecordedWaits(w: World, s: State, c: CallId)
    requires Recorded(w, s) && s.guests == map[]
    ensures Recorded(w, Death(s))
    ensures s.pipe.toWorker != [] ==> Recorded(w, Work(w, s))
    ensures Unsent(s, c).Some? ==> Recorded(w, Dispatch(s, c))
  {
    NoGuests(s, c);
    hide Recorded, Unsent;
    RecordedKeeps(w, s, Death(s));
    if s.pipe.toWorker != [] {
      RecordedKeeps(w, s, Work(w, s));
    }
    if Unsent(s, c).Some? {
      RecordedKeeps(w, s, Dispatch(s, c));
    }
  }

  lemma RecordedStep(w: World, s: State, l: Label)
    requires Recorded(w, s) && CallsApart(s) && Tracks(w, s) && Enabled(w, s, l) && !Disturbs(w, s, l)
    ensures Recorded(w, Next(w, s, l))
  {
    assert NothingLate(s);
    hide Recorded, CallsApart, Tracks, Awaited, Unsent;
    hide Arrival, Visiting, Acquisition, Dispatch, Work, Receipt;
    hide DeathNotice, Expiry, Withdrawal, Abandonment, Death, NewWorker;
    match l
    case Arrive(op) => RecordedArrive(w, s, op);
    case Acquire => RecordedAcquire(w, s);
    case Withdraw(i) => RecordedWithdraw(w, s, i);
    case Send(c) => RecordedWaits(w, s, c);
    case Serve => RecordedWaits(w, s, 0);
    case Die => RecordedWaits(w, s, 0);
    case Take(c) => RecordedReceipt(w, s, c);
    case Notice(c) => RecordedReceipt(w, s, c);
    case Expire(c) => RecordedReceipt(w, s, c);
    case Restart(broken) => NothingBroken(w, s, broken); RecordedNewWorker(w, s);
    case _ =>
  }

  lemma RecordedKeeps(w: World, s: State, t: State)
    requires Recorded(w, s)
    requires t.order == s.order && t.base == s.base && t.queue == s.queue && t.results == s.results && t.next == s.next
    requires s.holder == Free <==> t.holder == Free
    requires s.holder != Free ==> HolderId(s.holder) == HolderId(t.holder)
    ensures Recorded(w, t)
  {
    forall i | 0 <= i < |t.order| && t.order[i].Turn? ensures TurnRecorded(w, t, i) {
      assert TurnRecorded(w, s, i);
    }
  }

  // ---------------------------------------------------------------------------
  // Every call is in the history, once
  // ---------------------------------------------------------------------------

  /** What a call can return without having had the lock. */
  predicate Outside(r: Result) {
    r == NotActive || r == RuntimeDown || r == Cancelled
  }

  ghost predicate HadTurn(s: State, c: CallId) {
    exists i :: 0 <= i < |s.order| && s.order[i].Turn? && s.order[i].caller.id == c
  }

  /** Every finished call had its turn or returned without one, and nobody had two. */
  ghost predicate Covered(s: State) {
    && (forall c :: c in s.results ==> Outside(s.results[c]) || HadTurn(s, c))
    && (forall i, j :: 0 <= i < j < |s.order| && s.order[i].Turn? && s.order[j].Turn? ==>
          s.order[i].caller.id != s.order[j].caller.id)
  }

  /** A step that adds at most one result, of `c`, and no turn. */
  lemma CoveredSame(s: State, t: State, c: CallId, r: Result)
    requires Covered(s) && (t.order == s.order || t.order == s.order + [FoundDown])
    requires t.results == s.results || (t.results == s.results[c := r] && (Outside(r) || HadTurn(s, c)))
    ensures Covered(t)
  {
    hide Outside;
    assert forall i :: 0 <= i < |s.order| ==> t.order[i] == s.order[i];
    forall x | x in t.results ensures Outside(t.results[x]) || HadTurn(t, x) {
      if HadTurn(s, x) {
        var i :| 0 <= i < |s.order| && s.order[i].Turn? && s.order[i].caller.id == x;
        assert t.order[i].Turn?;
      }
    }
  }

  /** A step that adds a turn of a caller that had none, and perhaps its result. */
  lemma CoveredTurn(s: State, t: State, caller: Caller)
    requires Covered(s) && t.order == s.order + [Turn(caller)]
    requires forall i :: 0 <= i < |s.order| && s.order[i].Turn? ==> s.order[i].caller.id != caller.id
    requires forall x :: x in t.results && x != caller.id ==> x in s.results && t.results[x] == s.results[x]
    ensures Covered(t)
  {
    hide Outside;
    assert t.order[|s.order|] == Turn(caller);
    assert forall i :: 0 <= i < |s.order| ==> t.order[i] == s.order[i];
    forall x | x in t.results ensures Outside(t.results[x]) || HadTurn(t, x) {
      if x != caller.id && HadTurn(s, x) {
        var i :| 0 <= i < |s.order| && s.order[i].Turn? && s.order[i].caller.id == x;
        assert t.order[i].Turn?;
      }
    }
  }

  lemma CoveredArrive(s: State, op: Op)
    requires Covered(s)
    ensures Covered(Arrival(s, op))
  {
    hide Covered;
    CoveredSame(s, Arrival(s, op), s.next, if s.session != Active then NotActive else RuntimeDown);
  }

  lemma CoveredAcquire(w: World, s: State)
    requires Covered(s) && Recorded(w, s) && s.queue != []
    ensures Covered(Acquisition(s))
  {
    forall i | 0 <= i < |s.order| && s.order[i].Turn? ensures s.order[i].caller.id != s.queue[0].id {
      assert TurnRecorded(w, s, i);
    }
    hide Covered, Recorded;
    CoveredTurn(s, Acquisition(s), s.queue[0]);
  }

  lemma HolderHadTurn(w: World, s: State)
    requires Recorded(w, s) && s.holder != Free
    ensures HadTurn(s, HolderId(s.holder))
  {
  }

  lemma CoveredReceipt(w: World, s: State, c: CallId)
    requires Covered(s) && Recorded(w, s) && s.guests == map[] && Awaited(s, c).Some?
    ensures s.pipe.toParent != [] ==> Covered(Receipt(s, c))
    ensures Covered(DeathNotice(s, c)) && Covered(Expiry(s, c))
  {
    NoGuests(s, c);
    HolderHadTurn(w, s);
    FinishAlone(s, c, WorkerDied);
    FinishAlone(s, c, TimedOut);
    hide Covered, Recorded, Awaited, HadTurn, Finish;
    CoveredSame(s, DeathNotice(s, c), c, WorkerDied);
    CoveredSame(s, Expiry(s, c), c, TimedOut);
    if s.pipe.toParent != [] {
      var got := Got(s.pipe.toParent[0].id, s.pipe.toParent[0].reply);
      FinishAlone(s, c, got);
      CoveredSame(s, Receipt(s, c), c, got);
    }
  }

  lemma CoveredNewWorker(w: World, s: State)
    requires Covered(s) && Recorded(w, s) && s.guests == map[] && s.holder.Restarting?
    ensures Covered(NewWorker(w, s, {}))
  {
    HolderHadTurn(w, s);
    NewWorkerAlone(w, s);
    hide Covered, Recorded, HadTurn, NewWorker;
    var result := if w.fate(s.holder.id).StartFails? then StartFailed else Restarted;
    CoveredSame(s, NewWorker(w, s, {}), s.holder.id, result);
  }

  lemma CoveredWaits(w: World, s: State, c: CallId, i: nat)
    requires Covered(s)
    ensures Covered(Death(s)) && (s.pipe.toWorker != [] ==> Covered(Work(w, s)))
    ensures Unsent(s, c).Some? ==> Covered(Dispatch(s, c))
    ensures i < |s.queue| ==> Covered(Withdrawal(s, i))
  {
    hide Covered, Unsent;
    CoveredSame(s, Death(s), c, Cancelled);
    if s.pipe.toWorker != [] {
      CoveredSame(s, Work(w, s), c, Cancelled);
    }
    if Unsent(s, c).Some? {
      CoveredSame(s, Dispatch(s, c), c, Cancelled);
    }
    if i < |s.queue| {
      CoveredSame(s, Withdrawal(s, i), s.queue[i].id, Cancelled);
    }
  }

  lemma CoveredStep(w: World, s: State, l: Label)
    requires Covered(s) && Recorded(w, s) && Tracks(w, s) && Enabled(w, s, l) && !Disturbs(w, s, l)
    ensures Covered(Next(w, s, l))
  {
    assert NothingLate(s);
    hide Covered, Recorded, Tracks, Awaited, Unsent;
    hide Arrival, Visiting, Acquisition, Dispatch, Work, Receipt;
    hide DeathNotice, Expiry, Withdrawal, Abandonment, Death, NewWorker;
    match l
    case Arrive(op) => CoveredArrive(s, op);
    case Acquire => CoveredAcquire(w, s);
    case Withdraw(i) => CoveredWaits(w, s, 0, i);
    case Send(c) => CoveredWaits(w, s, c, 0);
    case Serve => CoveredWaits(w, s, 0, 0);
    case Die => CoveredWaits(w, s, 0, 0);
    case Take(c) => CoveredReceipt(w, s, c);
    case Notice(c) => CoveredReceipt(w, s, c);
    case Expire(c) => CoveredReceipt(w, s, c);
    case Restart(broken) => NothingBroken(w, s, broken); CoveredNewWorker(w, s);
    case _ =>
  }

  lemma {:induction false} SerialRun(w: World, s: State, ls: seq<Label>)
    requires Recorded(w, s) && CallsApart(s) && Tracks(w, s) && Covered(s) && Run(w, s, ls) && Undisturbed(w, s, ls)
    ensures Recorded(w, After(w, s, ls)) && Tracks(w, After(w, s, ls)) && Covered(After(w, s, ls))
    decreases |ls|
  {
    if ls != [] {
      hide Recorded, Tracks, CallsApart, Covered, Enabled, Next, Disturbs;
      RecordedStep(w, s, ls[0]);
      TracksStep(w, s, ls[0]);
      CallsApartStep(w, s, ls[0]);
      CoveredStep(w, s, ls[0]);
      SerialRun(w, Next(w, s, ls[0]), ls[1..]);
    }
  }

  /** The call's result is the one that its only turn gives when the turns run one at
      a time. */
  ghost predicate SerialResult(w: World, s: State, c: CallId)
    requires c in s.results
  {
    exists i :: 0 <= i < |s.order| && s.order[i].Turn? && s.order[i].caller.id == c
      && s.results[c] == ResultAt(w, s.order, i)
      && forall j :: 0 <= j < |s.order| && s.order[j].Turn? && s.order[j].caller.id == c ==> j == i
  }

  /** Linearizability: in every run that leaves no request behind, every finished call
      was refused or withdrawn before it had the lock, or had it exactly once and got
      the result it gets when the calls run one at a time in the order in which they
      took it. A call with a turn and no result is the present holder; and between
      calls the session, the runtime and the namespace are those of the serial run. */
  lemma Linearizable(w: World, ls: seq<Label>)
    requires Run(w, INIT, ls) && Undisturbed(w, INIT, ls)
    ensures var s := After(w, INIT, ls);
      && (forall c :: c in s.results ==> Outside(s.results[c]) || SerialResult(w, s, c))
      && (forall i :: 0 <= i < |s.order| && s.order[i].Turn? ==>
            var c := s.order[i].caller.id;
            if c in s.results then SerialResult(w, s, c) else s.holder != Free && i == s.base)
      && (s.holder == Free ==> Agrees(s, Replay(w, s.order)))
  {
    SerialRun(w, INIT, ls);
    var s := After(w, INIT, ls);
    hide Run, After, Undisturbed, ResultAt, Replay, Agrees;
    forall i | 0 <= i < |s.order| && s.order[i].Turn?
      ensures if s.order[i].caller.id in s.results then SerialResult(w, s, s.order[i].caller.id)
              else s.holder != Free && i == s.base
    {
      assert TurnRecorded(w, s, i);
    }
    forall c | c in s.results && !Outside(s.results[c]) ensures SerialResult(w, s, c) {
      var i :| 0 <= i < |s.order| && s.order[i].Turn? && s.order[i].caller.id == c;
    }
  }

  // ---------------------------------------------------------------------------
  // The namespace
  // ---------------------------------------------------------------------------

  /** The cells of `es` run in a row, the namespace handed from each to the next. */
  function Fold(w: World, ns: Namespace, es: seq<Entry>): Namespace {
    if es == [] then ns
    else
      var before := Fold(w, ns, es[..|es| - 1]);
      match es[|es| - 1]
      case Turn(Caller(_, Execute(code))) =>
        var o := w.run(before, Cell(code));
        if o.Replies? then o.ns else before
      case _ => before
  }

  /** While the runtime is up, the namespace is the fold of the calls since the
      last reset took effect, and right after it the namespace is fresh. */
  lemma {:induction false} NamespaceSinceReset(w: World, es: seq<Entry>, later: seq<Entry>)
    requires es == [] || Perform(w, Replay(w, es[..|es| - 1]), es[|es| - 1]).1 == Restarted
    requires forall e :: e in later ==> e.FoundDown? || e.caller.op != Reset
    requires Replay(w, es + later).up
    ensures Replay(w, es).ns == FRESH_NAMESPACE
    ensures Replay(w, es + later).ns == Fold(w, FRESH_NAMESPACE, later)
  {
    if later == [] {
      assert es + later == es;
    } else {
      var init := later[..|later| - 1];
      var e := later[|later| - 1];
      assert es + later == (es + init) + [e];
      ReplayAppend(w, es + init, e);
      NamespaceSinceReset(w, es, init);
    }
  }

  // ---------------------------------------------------------------------------
  // A caller that does not queue can still change the outcome
  // ---------------------------------------------------------------------------

  const ARRIVES_DURING_RESET :=
    [Arrive(Reset)] + ([Acquire] + ([Arrive(Execute("x = 1"))] + ([Restart({})] + [])))

  /** Before the last of them. */
  const DURING_RESET :=
    INIT.(next := 2, holder := Restarting(0), runtime := Terminating, session := Failed,
          results := map[1 := RuntimeDown], order := [Turn(Caller(0, Reset)), FoundDown])

  lemma DuringResetReached(w: World, ls: seq<Label>)
    requires Run(w, DURING_RESET, ls)
    ensures var all := [Arrive(Reset)] + ([Acquire] + ([Arrive(Execute("x = 1"))] + ls));
      Run(w, INIT, all) && After(w, INIT, all) == After(w, DURING_RESET, ls)
  {
    hide Run, After, RestartsBeforeSending;
    var s1 := INIT.(next := 1, queue := [Caller(0, Reset)]);
    var s2 := INIT.(next := 1, holder := Restarting(0), runtime := Terminating, order := [Turn(Caller(0, Reset))]);
    assert Next(w, INIT, Arrive(Reset)) == s1;
    assert Next(w, s1, Acquire) == s2;
    assert Next(w, s2, Arrive(Execute("x = 1"))) == DURING_RESET;
    Follow(w, s2, Arrive(Execute("x = 1")), ls, false);
    Follow(w, s1, Acquire, [Arrive(Execute("x = 1"))] + ls, false);
    Follow(w, INIT, Arrive(Reset), [Acquire] + ([Arrive(Execute("x = 1"))] + ls), false);
  }

  /** A cell that arrives while a reset restarts the worker marks the session
      failed for good, though the reset succeeds; one at a time, the cell would
      have waited for the reset and run. */
  lemma ArrivalDuringReset(w: World)
    requires w.fate(0) == Runs
    ensures Run(w, INIT, ARRIVES_DURING_RESET)
    ensures var s := After(w, INIT, ARRIVES_DURING_RESET);
      && s.results == map[0 := Restarted, 1 := RuntimeDown]
      && s.session == Failed && s.runtime == Running && s.alive && s.order == [Turn(Caller(0, Reset)), FoundDown]
  {
    NewWorkerAlone(w, DURING_RESET);
    assert Enabled(w, DURING_RESET, Restart({}));
    hide Run, After, RestartsBeforeSending, NewWorker;
    FollowEnd(w, NewWorker(w, DURING_RESET, {}), false);
    Follow(w, DURING_RESET, Restart({}), [], false);
    DuringResetReached(w, [Restart({})] + []);
  }
}
