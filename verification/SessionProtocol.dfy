/**
 One execution session, its runtime and its worker process, as a labelled
 transition system. A label is one uninterrupted stretch of code between two
 suspension points, so a sequence of labels is one interleaving.
 */
module SessionProtocol {
  import opened Status
  import opened Text

  type CallId = nat
  type Namespace = map<string, string>

  const FRESH_NAMESPACE: Namespace := map["__name__" := "__main__", "__doc__" := "None", "__package__" := "None"]

  datatype Task = Cell(code: string) | Verify(packages: string) | Install(requirements: string)
  datatype Reply = Reply(ok: bool, text: string)
  /** What a request does to the worker: it is answered; the process dies of it; or
      the loop's outermost handler answers with an error and ends the process. */
  datatype Outcome = Replies(ns: Namespace, reply: Reply) | Dies | Breaks(reply: Reply)

  /** What the environment decides about a call: it runs, its timeout strikes,
      or the process it tries to start exits at once. */
  datatype Fate = Runs | Expires | StartFails

  /** The worker's work as a function of the namespace, and the environment's choices. */
  datatype World = World(run: (Namespace, Task) -> Outcome, fate: CallId -> Fate)

  /** A call that takes the session's lock: `execute_cell` or `reset`. */
  datatype Op = Execute(code: string) | Reset

  /** `Got` records which request the message answers. The code carries that id
      in the message and never looks at it. */
  datatype Result =
    | Got(answered: CallId, reply: Reply)
    | NotActive | RuntimeDown | WorkerDied | TimedOut | Cancelled | Restarted | StartFailed | PipeClosed

  datatype Caller = Caller(id: CallId, op: Op)
  datatype Request = Request(id: CallId, task: Task)
  datatype Message = Message(id: CallId, reply: Reply)

  /** Who holds the session's lock, and how far it has come. */
  datatype Holder = Free | Sending(r: Request) | Awaiting(r: Request) | Restarting(id: CallId)

  /** A verification or installation on the runtime, which takes no lock. */
  datatype Guest = Guest(task: Task, sent: bool)

  /** One line of the history: a caller took its turn at the lock, or a caller
      found the runtime down before it even queued. */
  datatype Entry = Turn(caller: Caller) | FoundDown

  /** Both directions of the pipe, and the threads of cancelled callers that are
      still sending or receiving on it. `sent`, `taken` and `answers` are history
      and no step reads them. */
  datatype Pipe = Pipe(
    toWorker: seq<Request>,
    toParent: seq<Message>,
    lateSends: seq<Request>,
    lateTakes: nat,
    sent: seq<CallId>,           // every request put on this pipe, in order
    taken: nat,                  // how many replies were taken off it
    answers: map<CallId, Reply>  // what the worker answered to each request
  ) {
    function Put(r: Request): Pipe {
      this.(toWorker := toWorker + [r], sent := sent + [r.id])
    }

    function Answer(reply: Reply): Pipe
      requires toWorker != []
    {
      this.(toWorker := toWorker[1..], toParent := toParent + [Message(toWorker[0].id, reply)],
            answers := answers[toWorker[0].id := reply])
    }

    function Drop(): Pipe
      requires toWorker != []
    {
      this.(toWorker := toWorker[1..])
    }

    function Pop(): Pipe
      requires toParent != []
    {
      this.(toParent := toParent[1..], taken := taken + 1)
    }

    function SendLate(i: nat): Pipe
      requires i < |lateSends|
    {
      Put(lateSends[i]).(lateSends := lateSends[..i] + lateSends[i + 1..])
    }

    function TakeLate(): Pipe
      requires lateTakes > 0 && toParent != []
    {
      Pop().(lateTakes := lateTakes - 1)
    }
  }

  const NEW_PIPE := Pipe([], [], [], 0, [], 0, map[])

  datatype State = State(
    session: SessionStatus,
    runtime: RuntimeStatus,
    alive: bool,                   // the worker process
    ns: Namespace,                 // the worker's globals
    pipe: Pipe,
    queue: seq<Caller>,            // the lock's waiters, first come first served
    holder: Holder,
    guests: map<CallId, Guest>,
    results: map<CallId, Result>,  // what finished calls returned or raised
    next: CallId,                  // every call gets a fresh id
    order: seq<Entry>,             // history, read by no step
    base: nat                      // position in `order` of the latest turn
  )

  const INIT := State(Active, Running, true, FRESH_NAMESPACE, NEW_PIPE, [], Free, map[], map[], 0, [], 0)

  datatype Label =
    | Arrive(op: Op)
    | Visit(task: Task)
    | Acquire
    | Send(c: CallId)
    | Serve
    | Take(c: CallId)
    | Notice(c: CallId)
    | Expire(c: CallId)
    | Withdraw(i: nat)                     // a waiter is cancelled
    | Abandon(c: CallId, midTake: bool)    // a caller with a request is cancelled
    | Die                                  // the process ends by itself, or because it is stopped
    | Restart(broken: set<CallId>)         // the guests whose thread held the old pipe
    | LateSend(i: nat)
    | LateTake

  /** The request that a caller is about to send, or awaits the reply to. */
  function Unsent(s: State, c: CallId): Option<Request> {
    if s.holder.Sending? && s.holder.r.id == c then Some(s.holder.r)
    else if c in s.guests && !s.guests[c].sent then Some(Request(c, s.guests[c].task))
    else None
  }

  function Awaited(s: State, c: CallId): Option<Request> {
    if s.holder.Awaiting? && s.holder.r.id == c then Some(s.holder.r)
    else if c in s.guests && s.guests[c].sent then Some(Request(c, s.guests[c].task))
    else None
  }

  predicate Enabled(w: World, s: State, l: Label) {
    match l
    case Arrive(_) => true
    case Visit(task) => !task.Cell?
    case Acquire => s.holder == Free && s.queue != []
    case Send(c) => Unsent(s, c).Some?
    case Serve => s.alive && s.pipe.toWorker != []
    case Take(c) => Awaited(s, c).Some? && s.pipe.toParent != [] && !w.fate(c).Expires?
    case Notice(c) => Awaited(s, c).Some? && !s.alive && !w.fate(c).Expires?
    case Expire(c) => Awaited(s, c).Some? && w.fate(c).Expires?
    case Withdraw(i) => i < |s.queue|
    case Abandon(c, midTake) =>
      (Unsent(s, c).Some? || Awaited(s, c).Some?) && (midTake ==> Awaited(s, c).Some? && s.pipe.toParent != [])
    case Die => s.alive
    case Restart(broken) =>
      s.holder.Restarting? && broken <= s.guests.Keys && forall c :: c in s.guests && !s.guests[c].sent ==> c in broken
    case LateSend(i) => i < |s.pipe.lateSends|
    case LateTake => s.pipe.lateTakes > 0 && s.pipe.toParent != []
  }

  function Next(w: World, s: State, l: Label): State
    requires Enabled(w, s, l)
  {
    match l
    case Arrive(op) => Arrival(s, op)
    case Visit(task) => Visiting(s, task)
    case Acquire => Acquisition(s)
    case Send(c) => Dispatch(s, c)
    case Serve => Work(w, s)
    case Take(c) => Receipt(s, c)
    case Notice(c) => DeathNotice(s, c)
    case Expire(c) => Expiry(s, c)
    case Withdraw(i) => Withdrawal(s, i)
    case Abandon(c, midTake) => Abandonment(s, c, midTake)
    case Die => Death(s)
    case Restart(broken) => NewWorker(w, s, broken)
    case LateSend(i) => s.(pipe := s.pipe.SendLate(i))
    case LateTake => s.(pipe := s.pipe.TakeLate())
  }

  /** `execute_cell` and `reset` up to the lock. */
  function Arrival(s: State, op: Op): State {
    if op.Execute? && s.session != Active then
      s.(next := s.next + 1, results := s.results[s.next := NotActive])
    else if op.Execute? && s.runtime != Running then
      s.(next := s.next + 1, results := s.results[s.next := RuntimeDown],
         session := Failed, order := s.order + [FoundDown])
    else
      s.(next := s.next + 1, queue := s.queue + [Caller(s.next, op)])
  }

  /** `verify_packages` and `install_packages` up to the send. */
  function Visiting(s: State, task: Task): State {
    if s.runtime != Running then s.(next := s.next + 1, results := s.results[s.next := RuntimeDown])
    else s.(next := s.next + 1, guests := s.guests[s.next := Guest(task, false)])
  }

  function Dispatch(s: State, c: CallId): State
    requires Unsent(s, c).Some?
  {
    s.(pipe := s.pipe.Put(Unsent(s, c).value),
       holder := if s.holder.Sending? && s.holder.r.id == c then Awaiting(s.holder.r) else s.holder,
       guests := if c in s.guests then s.guests[c := s.guests[c].(sent := true)] else s.guests)
  }

  function Work(w: World, s: State): State
    requires s.pipe.toWorker != []
  {
    match w.run(s.ns, s.pipe.toWorker[0].task)
    case Replies(ns, reply) => s.(ns := ns, pipe := s.pipe.Answer(reply))
    case Dies => s.(alive := false, pipe := s.pipe.Drop())
    case Breaks(reply) => s.(alive := false, pipe := s.pipe.Answer(reply))
  }

  function Receipt(s: State, c: CallId): State
    requires s.pipe.toParent != []
  {
    Finish(s, c, Got(s.pipe.toParent[0].id, s.pipe.toParent[0].reply)).(pipe := s.pipe.Pop())
  }

  function DeathNotice(s: State, c: CallId): State
    requires Awaited(s, c).Some?
  {
    Finish(s, c, WorkerDied).(runtime := Crashed,
      session := if Awaited(s, c).value.task.Cell? then Failed else s.session)
  }

  /** A cell or an installation that times out takes the worker down; a verification
      does not. */
  function Expiry(s: State, c: CallId): State
    requires Awaited(s, c).Some?
  {
    match Awaited(s, c).value.task
    case Cell(_) => Finish(s, c, TimedOut).(runtime := Crashed, alive := false, session := Failed)
    case Install(_) => Finish(s, c, TimedOut).(runtime := Crashed, alive := false)
    case Verify(_) => Finish(s, c, TimedOut)
  }

  function Withdrawal(s: State, i: nat): State
    requires i < |s.queue|
  {
    s.(queue := s.queue[..i] + s.queue[i + 1..], results := s.results[s.queue[i].id := Cancelled])
  }

  /** Cancelling a caller does not stop the thread that works for it. */
  function Abandonment(s: State, c: CallId, midTake: bool): State {
    Finish(s, c, Cancelled).(
      pipe := if Unsent(s, c).Some? then s.pipe.(lateSends := s.pipe.lateSends + [Unsent(s, c).value])
              else if midTake then s.pipe.(lateTakes := s.pipe.lateTakes + 1)
              else s.pipe)
  }

  function Death(s: State): State {
    s.(alive := false)
  }

  function NewWorker(w: World, s: State, broken: set<CallId>): State
    requires s.holder.Restarting?
  {
    var t := Broken(s, broken);
    if w.fate(s.holder.id).StartFails?
    then Finish(t, s.holder.id, StartFailed).(pipe := NEW_PIPE, runtime := Crashed, alive := false)
    else Finish(t, s.holder.id, Restarted).(pipe := NEW_PIPE, runtime := Running, alive := true, ns := FRESH_NAMESPACE)
  }

  /** The caller `c` returns `r`; the holder releases the lock. */
  function Finish(s: State, c: CallId, r: Result): State {
    s.(results := s.results[c := r],
       holder := if s.holder != Free && HolderId(s.holder) == c then Free else s.holder,
       guests := s.guests - {c})
  }

  function HolderId(h: Holder): CallId
    requires h != Free
  {
    if h.Restarting? then h.id else h.r.id
  }

  /** Closing the pipe fails the guests that are sending on it or polling it. */
  function Broken(s: State, broken: set<CallId>): State {
    s.(guests := s.guests - broken, results := s.results + map c | c in broken :: PipeClosed)
  }

  /** The first waiter gets the lock and runs up to its first suspension. */
  function Acquisition(s: State): State
    requires s.queue != []
  {
    var caller := s.queue[0];
    var t := s.(queue := s.queue[1..], order := s.order + [Turn(caller)], base := |s.order|);
    match caller.op
    case Reset =>
      if s.session != Active then t.(results := s.results[caller.id := NotActive])
      else t.(holder := Restarting(caller.id), runtime := Terminating)
    case Execute(code) =>
      if s.runtime == Running then t.(holder := Sending(Request(caller.id, Cell(code))))
      else t.(results := s.results[caller.id := RuntimeDown], session := Failed)
  }

  /** `ls` is an interleaving the system can follow from `s`. */
  predicate Run(w: World, s: State, ls: seq<Label>)
    decreases |ls|
  {
    ls == [] || (Enabled(w, s, ls[0]) && Run(w, Next(w, s, ls[0]), ls[1..]))
  }

  function After(w: World, s: State, ls: seq<Label>): State
    requires Run(w, s, ls)
    decreases |ls|
  {
    if ls == [] then s else After(w, Next(w, s, ls[0]), ls[1..])
  }

  // ---------------------------------------------------------------------------
  // What every step keeps
  // ---------------------------------------------------------------------------

  /** A call is queued, holds the lock, is a guest, or is finished, and only one of
      these. */
  ghost predicate CallsApart(s: State) {
    && (forall i, j :: 0 <= i < j < |s.queue| ==> s.queue[i].id != s.queue[j].id)
    && (forall i :: 0 <= i < |s.queue| ==>
          s.queue[i].id < s.next && s.queue[i].id !in s.results && s.queue[i].id !in s.guests)
    && (forall c :: c in s.results ==> c < s.next)
    && (forall c :: c in s.guests ==> c < s.next && c !in s.results)
    && (s.holder != Free ==>
          && HolderId(s.holder) < s.next && HolderId(s.holder) !in s.results && HolderId(s.holder) !in s.guests
          && forall i :: 0 <= i < |s.queue| ==> s.queue[i].id != HolderId(s.holder))
  }

  /** The fields that `CallsApart` looks at. */
  predicate SameCalls(s: State, t: State) {
    s.queue == t.queue && s.holder == t.holder && s.guests == t.guests && s.results == t.results && s.next == t.next
  }

  lemma ApartSame(s: State, t: State)
    requires CallsApart(s) && SameCalls(s, t)
    ensures CallsApart(t)
  {
  }

  lemma ApartFinish(s: State, c: CallId, r: Result)
    requires CallsApart(s) && (c in s.guests || (s.holder != Free && HolderId(s.holder) == c))
    ensures CallsApart(Finish(s, c, r))
  {
  }

  lemma ApartLeave(s: State, t: State, c: CallId, r: Result)
    requires CallsApart(s) && (c in s.guests || (s.holder != Free && HolderId(s.holder) == c))
    requires SameCalls(Finish(s, c, r), t)
    ensures CallsApart(t)
  {
    ApartFinish(s, c, r);
    hide CallsApart, Finish;
    ApartSame(Finish(s, c, r), t);
  }

  lemma ApartBroken(s: State, broken: set<CallId>)
    requires CallsApart(s) && broken <= s.guests.Keys
    ensures CallsApart(Broken(s, broken))
  {
  }

  lemma ApartNew(s: State, t: State, op: Op, g: Guest, r: Result)
    requires CallsApart(s) && t.next == s.next + 1 && t.holder == s.holder
    requires
      || (t.queue == s.queue && t.guests == s.guests && t.results == s.results[s.next := r])
      || (t.queue == s.queue && t.guests == s.guests[s.next := g] && t.results == s.results)
      || (t.queue == s.queue + [Caller(s.next, op)] && t.guests == s.guests && t.results == s.results)
    ensures CallsApart(t)
  {
  }

  lemma ApartWithdraw(s: State, t: State, i: nat)
    requires CallsApart(s) && i < |s.queue| && t.next == s.next && t.holder == s.holder && t.guests == s.guests
    requires t.queue == s.queue[..i] + s.queue[i + 1..] && t.results == s.results[s.queue[i].id := Cancelled]
    ensures CallsApart(t)
  {
  }

  lemma ApartTurn(s: State, t: State, r: Result)
    requires CallsApart(s) && s.holder == Free && s.queue != []
    requires t.queue == s.queue[1..] && t.next == s.next && t.guests == s.guests
    requires
      || (t.holder != Free && HolderId(t.holder) == s.queue[0].id && t.results == s.results)
      || (t.holder == Free && t.results == s.results[s.queue[0].id := r])
    ensures CallsApart(t)
  {
  }

  lemma ApartArrival(s: State, op: Op, task: Task)
    requires CallsApart(s)
    ensures CallsApart(Arrival(s, op)) && CallsApart(Visiting(s, task))
  {
    hide CallsApart;
    var t := Arrival(s, op);
    ApartNew(s, t, op, Guest(task, false), if s.session != Active then NotActive else RuntimeDown);
    ApartNew(s, Visiting(s, task), op, Guest(task, false), RuntimeDown);
  }

  lemma ApartAcquire(s: State)
    requires CallsApart(s) && s.holder == Free && s.queue != []
    ensures CallsApart(Acquisition(s))
  {
    hide CallsApart;
    ApartTurn(s, Acquisition(s), if s.queue[0].op.Reset? then NotActive else RuntimeDown);
  }

  lemma ApartDispatch(s: State, c: CallId)
    requires CallsApart(s) && Unsent(s, c).Some?
    ensures CallsApart(Dispatch(s, c))
  {
  }

  lemma HasCall(s: State, c: CallId)
    requires Awaited(s, c).Some? || Unsent(s, c).Some?
    ensures c in s.guests || (s.holder != Free && HolderId(s.holder) == c)
  {
  }

  lemma ApartReceipt(s: State, c: CallId, midTake: bool)
    requires CallsApart(s) && (Awaited(s, c).Some? || Unsent(s, c).Some?)
    ensures s.pipe.toParent != [] ==> CallsApart(Receipt(s, c))
    ensures CallsApart(Abandonment(s, c, midTake))
  {
    HasCall(s, c);
    hide CallsApart, Finish, Awaited, Unsent;
    if s.pipe.toParent != [] {
      ApartLeave(s, Receipt(s, c), c, Got(s.pipe.toParent[0].id, s.pipe.toParent[0].reply));
    }
    ApartLeave(s, Abandonment(s, c, midTake), c, Cancelled);
  }

  lemma ApartGivesUp(s: State, c: CallId)
    requires CallsApart(s) && Awaited(s, c).Some?
    ensures CallsApart(DeathNotice(s, c)) && CallsApart(Expiry(s, c))
  {
    HasCall(s, c);
    hide CallsApart, Finish, Awaited, Unsent;
    ApartLeave(s, DeathNotice(s, c), c, WorkerDied);
    ApartLeave(s, Expiry(s, c), c, TimedOut);
  }

  lemma ApartNewWorker(w: World, s: State, broken: set<CallId>)
    requires CallsApart(s) && s.holder.Restarting? && broken <= s.guests.Keys
    ensures CallsApart(NewWorker(w, s, broken))
  {
    ApartBroken(s, broken);
    BrokenKeeps(s, broken);
    hide CallsApart, Finish, Broken;
    ApartLeave(Broken(s, broken), NewWorker(w, s, broken), s.holder.id,
               if w.fate(s.holder.id).StartFails? then StartFailed else Restarted);
  }

  lemma CallsApartStep(w: World, s: State, l: Label)
    requires CallsApart(s) && Enabled(w, s, l)
    ensures CallsApart(Next(w, s, l))
  {
    hide CallsApart, Arrival, Visiting, Acquisition, Dispatch, Work;
    hide Receipt, DeathNotice, Expiry, Abandonment, Death, NewWorker;
    match l
    case Arrive(op) => ApartArrival(s, op, Verify(""));
    case Visit(task) => ApartArrival(s, Reset, task);
    case Withdraw(i) => ApartWithdraw(s, Withdrawal(s, i), i);
    case Acquire => ApartAcquire(s);
    case Send(c) => ApartDispatch(s, c);
    case Take(c) => ApartReceipt(s, c, false);
    case Notice(c) => ApartGivesUp(s, c);
    case Expire(c) => ApartGivesUp(s, c);
    case Abandon(c, midTake) => ApartReceipt(s, c, midTake);
    case Restart(broken) => ApartNewWorker(w, s, broken);
    case Serve => WorkKeeps(w, s); ApartSame(s, Work(w, s));
    case Die => WorkKeeps(w, s); ApartSame(s, Death(s));
    case LateSend(_) => ApartSame(s, Next(w, s, l));
    case LateTake => ApartSame(s, Next(w, s, l));
  }

  lemma WorkKeeps(w: World, s: State)
    ensures SameCalls(s, Death(s)) && (s.pipe.toWorker != [] ==> SameCalls(s, Work(w, s)))
  {
  }

  lemma BrokenKeeps(s: State, broken: set<CallId>)
    ensures var t := Broken(s, broken);
      t.holder == s.holder && t == s.(guests := t.guests, results := t.results)
  {
  }

  /** The two queues hold exactly the unanswered and the unread part of what was
      sent on this pipe, in the order it was sent, and every message carries the
      worker's answer to its own request. */
  ghost predicate InOrder(p: Pipe, alive: bool) {
    && p.taken + |p.toParent| <= |p.sent|
    && (forall i :: 0 <= i < |p.toParent| ==> p.toParent[i].id == p.sent[p.taken + i])
    && (forall i :: 0 <= i < |p.toParent| ==>
          p.toParent[i].id in p.answers && p.answers[p.toParent[i].id] == p.toParent[i].reply)
    && (alive ==> p.taken + |p.toParent| + |p.toWorker| == |p.sent|)
    && (alive ==> forall i :: 0 <= i < |p.toWorker| ==> p.toWorker[i].id == p.sent[p.taken + |p.toParent| + i])
  }

  lemma InOrderPut(p: Pipe, alive: bool, r: Request)
    requires InOrder(p, alive)
    ensures InOrder(p.Put(r), alive)
    ensures forall i :: 0 <= i < |p.lateSends| ==> InOrder(p.SendLate(i), alive)
  {
  }

  lemma InOrderSame(p: Pipe, alive: bool, r: Request)
    requires InOrder(p, alive)
    ensures InOrder(p, false)
    ensures InOrder(p.(lateSends := p.lateSends + [r]), alive) && InOrder(p.(lateTakes := p.lateTakes + 1), alive)
    ensures p.toWorker != [] ==> InOrder(p.Drop(), false)
  {
  }

  lemma InOrderAnswer(p: Pipe, reply: Reply)
    requires InOrder(p, true) && DistinctIds(p.sent) && p.toWorker != []
    ensures InOrder(p.Answer(reply), true)
  {
    var k := p.taken + |p.toParent|;
    assert p.toWorker[0].id == p.sent[k];
    forall i | 0 <= i < |p.toParent| ensures p.toParent[i].id != p.sent[k] {
      assert p.toParent[i].id == p.sent[p.taken + i];
    }
  }

  lemma InOrderShrinks(p: Pipe, alive: bool)
    requires InOrder(p, alive) && p.toParent != []
    ensures InOrder(p.Pop(), alive)
    ensures p.lateTakes > 0 ==> InOrder(p.TakeLate(), alive)
  {
  }

  ghost predicate DistinctIds(ids: seq<CallId>) {
    forall i, j :: 0 <= i < j < |ids| ==> ids[i] != ids[j]
  }

  lemma InOrderLeaves(s: State, c: CallId, midTake: bool)
    requires InOrder(s.pipe, s.alive)
    ensures s.pipe.toParent != [] ==> InOrder(Receipt(s, c).pipe, Receipt(s, c).alive)
    ensures Awaited(s, c).Some? ==> InOrder(DeathNotice(s, c).pipe, s.alive) && DeathNotice(s, c).alive == s.alive
    ensures Awaited(s, c).Some? ==> InOrder(Expiry(s, c).pipe, Expiry(s, c).alive)
    ensures InOrder(Abandonment(s, c, midTake).pipe, Abandonment(s, c, midTake).alive)
  {
    hide InOrder, Awaited, Unsent;
    InOrderSame(s.pipe, s.alive, if Unsent(s, c).Some? then Unsent(s, c).value else Request(c, Cell("")));
    if s.pipe.toParent != [] {
      InOrderShrinks(s.pipe, s.alive);
    }
  }

  lemma InOrderWork(w: World, s: State)
    requires InOrder(s.pipe, s.alive) && DistinctIds(s.pipe.sent) && s.alive && s.pipe.toWorker != []
    ensures InOrder(Work(w, s).pipe, Work(w, s).alive)
  {
    hide InOrder, DistinctIds;
    match w.run(s.ns, s.pipe.toWorker[0].task) {
      case Replies(_, reply) => InOrderAnswer(s.pipe, reply);
      case Dies => InOrderSame(s.pipe, s.alive, s.pipe.toWorker[0]);
      case Breaks(reply) =>
        InOrderAnswer(s.pipe, reply);
        InOrderSame(s.pipe.Answer(reply), true, s.pipe.toWorker[0]);
    }
  }

  lemma InOrderStep(w: World, s: State, l: Label)
    requires InOrder(s.pipe, s.alive) && DistinctIds(s.pipe.sent) && Enabled(w, s, l)
    ensures InOrder(Next(w, s, l).pipe, Next(w, s, l).alive)
  {
    hide InOrder, DistinctIds, Awaited, Unsent, Work, Receipt, DeathNotice, Expiry, Abandonment;
    var p := s.pipe;
    match l
    case Send(c) => InOrderPut(p, s.alive, Unsent(s, c).value);
    case LateSend(i) => InOrderPut(p, s.alive, p.lateSends[i]);
    case Serve => InOrderWork(w, s);
    case Abandon(c, midTake) => InOrderLeaves(s, c, midTake);
    case Expire(c) => InOrderLeaves(s, c, false);
    case Notice(c) => InOrderLeaves(s, c, false);
    case Take(c) => InOrderLeaves(s, c, false);
    case Die => InOrderSame(p, s.alive, Request(0, Cell("")));
    case LateTake => InOrderShrinks(p, s.alive);
    case Restart(_) => NewPipeInOrder();
    case _ =>
  }

  lemma NewPipeInOrder()
    ensures InOrder(NEW_PIPE, true) && InOrder(NEW_PIPE, false)
  {
  }

  /** The call has sent its request, or is finished. */
  predicate IsOut(s: State, c: CallId) {
    c in s.results || Awaited(s, c).Some?
  }

  /** Every request is sent at most once, and by a caller that is still awaiting
      its reply or has given up. */
  ghost predicate SendersKnown(s: State) {
    && DistinctIds(s.pipe.sent)
    && (forall c :: c in s.pipe.sent ==> IsOut(s, c))
    && (forall i :: 0 <= i < |s.pipe.lateSends| ==>
          s.pipe.lateSends[i].id in s.results && s.pipe.lateSends[i].id !in s.pipe.sent)
    && (forall i, j :: 0 <= i < j < |s.pipe.lateSends| ==> s.pipe.lateSends[i].id != s.pipe.lateSends[j].id)
  }

  /** Who is out stays out, and what is finished stays finished. */
  ghost predicate OutStays(s: State, t: State) {
    && (forall c :: IsOut(s, c) ==> IsOut(t, c))
    && (forall c :: c in s.results ==> c in t.results)
  }

  lemma OutSame(s: State, t: State)
    requires forall c :: c in s.results ==> c in t.results
    requires t.holder == s.holder || !s.holder.Awaiting?
    requires t.guests == s.guests
    ensures OutStays(s, t)
  {
  }

  lemma OutFinish(s: State, c: CallId, r: Result, t: State)
    requires var u := Finish(s, c, r); t.results == u.results && t.holder == u.holder && t.guests == u.guests
    ensures OutStays(s, t)
  {
  }

  lemma OutLeaves(s: State, c: CallId, midTake: bool)
    ensures s.pipe.toParent != [] ==> OutStays(s, Receipt(s, c))
    ensures Awaited(s, c).Some? ==> OutStays(s, DeathNotice(s, c)) && OutStays(s, Expiry(s, c))
    ensures OutStays(s, Abandonment(s, c, midTake))
  {
    hide OutStays, Finish, Awaited, Unsent;
    if s.pipe.toParent != [] {
      OutFinish(s, c, Got(s.pipe.toParent[0].id, s.pipe.toParent[0].reply), Receipt(s, c));
    }
    if Awaited(s, c).Some? {
      OutFinish(s, c, WorkerDied, DeathNotice(s, c));
      OutFinish(s, c, TimedOut, Expiry(s, c));
    }
    OutFinish(s, c, Cancelled, Abandonment(s, c, midTake));
  }

  lemma OutDispatch(s: State, c: CallId)
    requires Unsent(s, c).Some?
    ensures OutStays(s, Dispatch(s, c)) && IsOut(Dispatch(s, c), c)
  {
  }

  lemma OutVisiting(s: State, task: Task)
    requires s.next !in s.guests
    ensures OutStays(s, Visiting(s, task))
  {
  }

  lemma OutWaits(w: World, s: State, op: Op)
    ensures OutStays(s, Arrival(s, op)) && OutStays(s, Death(s))
    ensures s.pipe.toWorker != [] ==> OutStays(s, Work(w, s))
    ensures s.holder == Free && s.queue != [] ==> OutStays(s, Acquisition(s))
    ensures forall i: nat :: i < |s.queue| ==> OutStays(s, Withdrawal(s, i))
  {
    hide OutStays;
    OutSame(s, Arrival(s, op));
    OutSame(s, Death(s));
    if s.pipe.toWorker != [] {
      OutSame(s, Work(w, s));
    }
    if s.holder == Free && s.queue != [] {
      OutSame(s, Acquisition(s));
    }
    forall i: nat | i < |s.queue| ensures OutStays(s, Withdrawal(s, i)) {
      OutSame(s, Withdrawal(s, i));
    }
  }

  lemma OutStaysStep(w: World, s: State, l: Label)
    requires CallsApart(s) && Enabled(w, s, l) && !l.Restart?
    ensures OutStays(s, Next(w, s, l))
  {
    assert s.next !in s.guests;
    hide OutStays, CallsApart, IsOut, Awaited, Unsent;
    hide Arrival, Visiting, Acquisition, Dispatch, Work, Receipt;
    hide DeathNotice, Expiry, Withdrawal, Abandonment, Death, NewWorker;
    OutWaits(w, s, if l.Arrive? then l.op else Reset);
    match l
    case Take(c) => OutLeaves(s, c, false);
    case Notice(c) => OutLeaves(s, c, false);
    case Expire(c) => OutLeaves(s, c, false);
    case Abandon(c, midTake) => OutLeaves(s, c, midTake);
    case Send(c) => OutDispatch(s, c);
    case Visit(task) => OutVisiting(s, task);
    case LateSend(_) => OutSame(s, Next(w, s, l));
    case LateTake => OutSame(s, Next(w, s, l));
    case _ =>
  }

  lemma UnsentIsNew(s: State, c: CallId)
    requires CallsApart(s) && Unsent(s, c).Some?
    ensures !IsOut(s, c) && Unsent(s, c).value.id == c
  {
  }

  lemma SendersSame(s: State, t: State)
    requires SendersKnown(s) && OutStays(s, t) && t.pipe.sent == s.pipe.sent && t.pipe.lateSends == s.pipe.lateSends
    ensures SendersKnown(t)
  {
    hide IsOut;
  }

  lemma SendersPut(s: State, t: State, r: Request)
    requires SendersKnown(s) && OutStays(s, t) && t.pipe == s.pipe.Put(r) && !IsOut(s, r.id) && IsOut(t, r.id)
    ensures SendersKnown(t)
  {
    assert forall i :: 0 <= i < |s.pipe.lateSends| ==> IsOut(s, s.pipe.lateSends[i].id);
    hide IsOut;
  }

  lemma SendersLater(s: State, t: State, r: Request)
    requires SendersKnown(s) && OutStays(s, t) && t.pipe == s.pipe.(lateSends := s.pipe.lateSends + [r])
    requires !IsOut(s, r.id) && r.id in t.results
    ensures SendersKnown(t)
  {
    assert forall i :: 0 <= i < |s.pipe.lateSends| ==> IsOut(s, s.pipe.lateSends[i].id);
    hide IsOut;
  }

  lemma SendersLate(s: State, t: State, i: nat)
    requires SendersKnown(s) && OutStays(s, t) && i < |s.pipe.lateSends| && t.pipe == s.pipe.SendLate(i)
    ensures SendersKnown(t)
  {
    assert IsOut(t, s.pipe.lateSends[i].id);
    hide IsOut;
  }

  lemma SendersNew(t: State)
    requires t.pipe == NEW_PIPE
    ensures SendersKnown(t)
  {
  }

  /** The other steps leave what was sent, and who is late, as it is. */
  lemma SendsKept(w: World, s: State, l: Label)
    requires Enabled(w, s, l) && !l.Restart? && !l.Send? && !l.LateSend? && !(l.Abandon? && Unsent(s, l.c).Some?)
    ensures Next(w, s, l).pipe.sent == s.pipe.sent && Next(w, s, l).pipe.lateSends == s.pipe.lateSends
  {
    hide Awaited, Unsent;
  }

  lemma SendersKnownStep(w: World, s: State, l: Label)
    requires CallsApart(s) && SendersKnown(s) && Enabled(w, s, l)
    ensures SendersKnown(Next(w, s, l))
  {
    hide SendersKnown, OutStays, CallsApart, IsOut, Unsent, Awaited;
    hide Arrival, Visiting, Acquisition, Work, Receipt, DeathNotice, Expiry, Withdrawal, Death;
    var t := Next(w, s, l);
    if l.Restart? {
      SendersNew(t);
    } else {
      OutStaysStep(w, s, l);
      if l.Send? {
        UnsentIsNew(s, l.c);
        OutDispatch(s, l.c);
        SendersPut(s, t, Unsent(s, l.c).value);
      } else if l.LateSend? {
        SendersLate(s, t, l.i);
      } else if l.Abandon? && Unsent(s, l.c).Some? {
        UnsentIsNew(s, l.c);
        SendersLater(s, t, Unsent(s, l.c).value);
      } else {
        SendsKept(w, s, l);
        SendersSame(s, t);
      }
    }
  }

  ghost predicate Sound(s: State) {
    CallsApart(s) && InOrder(s.pipe, s.alive) && SendersKnown(s)
  }

  lemma SoundStep(w: World, s: State, l: Label)
    requires Sound(s) && Enabled(w, s, l)
    ensures Sound(Next(w, s, l))
  {
    assert DistinctIds(s.pipe.sent);
    hide CallsApart, InOrder, SendersKnown, DistinctIds, Next, Enabled;
    CallsApartStep(w, s, l);
    InOrderStep(w, s, l);
    SendersKnownStep(w, s, l);
  }

  lemma {:induction false} SoundRun(w: World, s: State, ls: seq<Label>)
    requires Sound(s) && Run(w, s, ls)
    ensures Sound(After(w, s, ls))
    decreases |ls|
  {
    hide Sound;
    if ls != [] {
      SoundStep(w, s, ls[0]);
      SoundRun(w, Next(w, s, ls[0]), ls[1..]);
    }
  }

  // ---------------------------------------------------------------------------
  // What a reset leaves of the session
  // ---------------------------------------------------------------------------

  /** Cells wait for the lock, so a guest is a verification or an installation. */
  ghost predicate GuestsVisit(s: State) {
    forall c :: c in s.guests ==> !s.guests[c].task.Cell?
  }

  lemma GuestsVisitStep(w: World, s: State, l: Label)
    requires GuestsVisit(s) && Enabled(w, s, l)
    ensures GuestsVisit(Next(w, s, l))
  {
    hide Awaited, Unsent, HolderId;
  }

  lemma {:induction false} GuestsVisitRun(w: World, s: State, ls: seq<Label>)
    requires GuestsVisit(s) && Run(w, s, ls)
    ensures GuestsVisit(After(w, s, ls))
    decreases |ls|
  {
    hide GuestsVisit, Enabled, Next;
    if ls != [] {
      GuestsVisitStep(w, s, ls[0]);
      GuestsVisitRun(w, Next(w, s, ls[0]), ls[1..]);
    }
  }

  predicate CellArrives(l: Label) {
    l.Arrive? && l.op.Execute?
  }

  /** Leaving callers are guests, who touch neither the lock nor the session. */
  lemma ResetOutlasts(s: State, c: CallId, midTake: bool)
    requires CallsApart(s) && GuestsVisit(s) && s.holder.Restarting? && s.runtime != Running
    requires Awaited(s, c).Some? || Unsent(s, c).Some?
    ensures var t := Abandonment(s, c, midTake);
      t.holder == s.holder && t.session == s.session && t.runtime == s.runtime
    ensures s.pipe.toParent != [] ==>
      var t := Receipt(s, c); t.holder == s.holder && t.session == s.session && t.runtime == s.runtime
    ensures Awaited(s, c).Some? ==>
      var t := DeathNotice(s, c); t.holder == s.holder && t.session == s.session && t.runtime != Running
    ensures Awaited(s, c).Some? ==>
      var t := Expiry(s, c); t.holder == s.holder && t.session == s.session && t.runtime != Running
  {
    assert c in s.guests;
  }

  lemma ResetWaitsStep(w: World, s: State, l: Label)
    requires CallsApart(s) && GuestsVisit(s) && Enabled(w, s, l) && !l.Restart?
    requires s.holder.Restarting? && s.runtime != Running
    ensures var t := Next(w, s, l);
      && t.holder == s.holder && t.runtime != Running
      && (t.session == Active <==> s.session == Active && !CellArrives(l))
  {
    hide CallsApart, GuestsVisit, Awaited, Unsent, Receipt, DeathNotice, Expiry, Abandonment, Finish;
    match l
    case Take(c) => ResetOutlasts(s, c, false);
    case Notice(c) => ResetOutlasts(s, c, false);
    case Expire(c) => ResetOutlasts(s, c, false);
    case Abandon(c, midTake) => ResetOutlasts(s, c, midTake);
    case _ =>
  }

  /** While a reset waits for its process to end, the session stays ACTIVE exactly as
      long as no cell arrives. */
  lemma {:induction false} ResetWaits(w: World, s: State, ls: seq<Label>)
    requires CallsApart(s) && GuestsVisit(s) && Run(w, s, ls) && forall l :: l in ls ==> !l.Restart?
    requires s.holder.Restarting? && s.runtime != Running
    ensures var t := After(w, s, ls);
      && t.holder == s.holder && t.runtime != Running
      && (t.session == Active <==> s.session == Active && forall l :: l in ls ==> !CellArrives(l))
    decreases |ls|
  {
    hide CallsApart, GuestsVisit, Enabled, Next, CellArrives;
    if ls != [] {
      CallsApartStep(w, s, ls[0]);
      GuestsVisitStep(w, s, ls[0]);
      ResetWaitsStep(w, s, ls[0]);
      ResetWaits(w, Next(w, s, ls[0]), ls[1..]);
      assert ls == [ls[0]] + ls[1..];
    }
  }

  /** In every run, a reset that takes its turn under an ACTIVE session and succeeds
      leaves a running worker, and an ACTIVE session exactly if no cell arrived since
      it got the lock. */
  lemma ResetKeepsActive(w: World, before: seq<Label>, during: seq<Label>, broken: set<CallId>)
    requires Run(w, INIT, before) && Enabled(w, After(w, INIT, before), Acquire)
    requires After(w, INIT, before).queue[0].op == Reset && After(w, INIT, before).session == Active
    requires Run(w, Next(w, After(w, INIT, before), Acquire), during) && forall l :: l in during ==> !l.Restart?
    requires Enabled(w, After(w, Next(w, After(w, INIT, before), Acquire), during), Restart(broken))
    requires !w.fate(After(w, INIT, before).queue[0].id).StartFails?
    ensures var t := Next(w, After(w, Next(w, After(w, INIT, before), Acquire), during), Restart(broken));
      && t.runtime == Running && t.alive
      && (t.session == Active <==> forall l :: l in during ==> !CellArrives(l))
  {
    var s := After(w, INIT, before);
    SoundInit();
    SoundRun(w, INIT, before);
    GuestsVisitRun(w, INIT, before);
    CallsApartStep(w, s, Acquire);
    GuestsVisitStep(w, s, Acquire);
    ResetWaits(w, Next(w, s, Acquire), during);
    hide CallsApart, GuestsVisit, Run, After, Broken;
    BrokenKeeps(After(w, Next(w, s, Acquire), during), broken);
  }

  // ---------------------------------------------------------------------------
  // Whose reply a caller gets
  // ---------------------------------------------------------------------------

  /** What was sent on this pipe and not yet read back, oldest first. */
  function Unread(p: Pipe): seq<CallId>
    requires p.taken <= |p.sent|
  {
    p.sent[p.taken..]
  }

  /** In every run, the caller that takes the next message gets the worker's
      answer to the oldest unread request. So it gets its own reply exactly when
      every request sent before its own has been read, and its own has not. */
  lemma TakesOldestUnread(w: World, ls: seq<Label>, c: CallId)
    requires Run(w, INIT, ls) && Enabled(w, After(w, INIT, ls), Take(c))
    ensures
      var s := After(w, INIT, ls);
      var got := Next(w, s, Take(c)).results[c];
      && s.pipe.taken < |s.pipe.sent| && Unread(s.pipe)[0] in s.pipe.answers
      && got == Got(Unread(s.pipe)[0], s.pipe.answers[Unread(s.pipe)[0]])
      && (got.answered == c <==> Unread(s.pipe)[0] == c)
      && forall k :: 0 <= k < |s.pipe.sent| && s.pipe.sent[k] == c ==> (got.answered == c <==> k == s.pipe.taken)
  {
    SoundInit();
    SoundRun(w, INIT, ls);
  }

  lemma SoundInit()
    ensures Sound(INIT)
  {
  }

  /** A request is left behind when its caller is cancelled, gives up, or finds the
      worker dead; opening a new pipe leaves everything behind. */
  predicate LeftBehind(l: Label, before: bool) {
    if l.Restart? then false else before || l.Abandon? || l.Expire? || l.Notice?
  }

  predicate NobodyAwaits(s: State) {
    !s.holder.Awaiting? && forall c :: c in s.guests ==> !s.guests[c].sent
  }

  /** Nothing is sent while a reply is awaited, or while a request has been left
      behind since the last restart; and a restart fails every guest. */
  predicate Orderly(s: State, l: Label, left: bool) {
    && (l.Send? ==> !left && NobodyAwaits(s))
    && (l.Restart? ==> l.broken == s.guests.Keys)
  }

  predicate RestartsBeforeSending(w: World, s: State, ls: seq<Label>, left: bool)
    requires Run(w, s, ls)
    decreases |ls|
  {
    ls == [] ||
    (Orderly(s, ls[0], left) && RestartsBeforeSending(w, Next(w, s, ls[0]), ls[1..], LeftBehind(ls[0], left)))
  }

  ghost predicate OwnReplies(results: map<CallId, Result>) {
    forall c :: c in results && results[c].Got? ==> results[c].answered == c
  }

  /** The next message, or the next to be answered, is the reply to `c`; or the
      worker is dead and there will be none. */
  predicate HeadIs(s: State, c: CallId) {
    if s.pipe.toParent != [] then s.pipe.toParent[0].id == c
    else s.alive ==> s.pipe.toWorker != [] && s.pipe.toWorker[0].id == c
  }

  /** At most one caller awaits a reply, and it is next. With nothing left behind the
      pipe carries that one request or its reply, and nothing else. */
  ghost predicate OneAtATime(s: State, left: bool) {
    && (forall x, y :: Awaited(s, x).Some? && Awaited(s, y).Some? ==> x == y)
    && (forall x :: Awaited(s, x).Some? ==> HeadIs(s, x))
    && (s.pipe.lateTakes > 0 ==> forall x :: Awaited(s, x).None?)
    && (!left ==>
          && s.pipe.lateSends == [] && s.pipe.lateTakes == 0
          && |s.pipe.toParent| + (if s.alive then |s.pipe.toWorker| else 0) <= 1
          && ((forall x :: Awaited(s, x).None?) ==> s.pipe.toParent == [] && (s.alive ==> s.pipe.toWorker == [])))
  }

  lemma NobodyAwaitsMeans(s: State)
    ensures NobodyAwaits(s) <==> forall x :: Awaited(s, x).None?
  {
    assert s.holder.Awaiting? ==> Awaited(s, s.holder.r.id).Some?;
    assert forall c :: c in s.guests && s.guests[c].sent ==> Awaited(s, c).Some?;
  }

  /** The callers awaiting in `t` are those awaiting in `s`, but for `c`. */
  ghost predicate AwaitedBut(s: State, t: State, c: Option<CallId>) {
    forall x: CallId :: Awaited(t, x).Some? <==> Awaited(s, x).Some? && c != Some(x)
  }

  lemma FinishAwaited(s: State, c: CallId, r: Result, t: State)
    requires t.holder == Finish(s, c, r).holder && t.guests == Finish(s, c, r).guests
    ensures AwaitedBut(s, t, Some(c))
  {
  }

  lemma SameAwaited(s: State, t: State)
    requires t.holder == s.holder || (!s.holder.Awaiting? && !t.holder.Awaiting?)
    requires t.guests == s.guests
    ensures AwaitedBut(s, t, None)
  {
  }

  lemma OneStays(s: State, t: State, left: bool)
    requires OneAtATime(s, left) && AwaitedBut(s, t, None) && t.pipe == s.pipe && (t.alive ==> s.alive)
    ensures OneAtATime(t, left)
  {
    hide Awaited;
  }

  lemma OneLeaves(s: State, t: State, c: CallId, left: bool, r: Request)
    requires OneAtATime(s, left) && AwaitedBut(s, t, Some(c)) && (t.alive ==> s.alive)
    requires t.pipe == s.pipe || t.pipe == s.pipe.(lateSends := s.pipe.lateSends + [r])
      || (Awaited(s, c).Some? && t.pipe == s.pipe.(lateTakes := s.pipe.lateTakes + 1))
    ensures OneAtATime(t, true)
  {
    hide Awaited;
  }

  lemma OneSends(s: State, t: State, r: Request)
    requires OneAtATime(s, false) && forall x :: Awaited(s, x).None?
    requires forall x :: Awaited(t, x).Some? <==> x == r.id
    requires t.pipe == s.pipe.Put(r) && t.alive == s.alive
    ensures OneAtATime(t, false)
  {
    assert Awaited(t, r.id).Some?;
    hide Awaited;
  }

  lemma OneTakes(s: State, t: State, c: CallId, left: bool)
    requires OneAtATime(s, left) && Awaited(s, c).Some? && AwaitedBut(s, t, Some(c))
    requires s.pipe.toParent != [] && t.pipe == s.pipe.Pop() && t.alive == s.alive
    ensures OneAtATime(t, left)
  {
    hide Awaited;
  }

  lemma OneServes(s: State, t: State, left: bool, reply: Reply)
    requires OneAtATime(s, left) && AwaitedBut(s, t, None) && s.alive && s.pipe.toWorker != []
    requires t.pipe == s.pipe.Answer(reply) || (!t.alive && t.pipe == s.pipe.Drop())
    ensures OneAtATime(t, left)
  {
    hide Awaited;
  }

  lemma OneLate(s: State, t: State, left: bool)
    requires OneAtATime(s, left) && AwaitedBut(s, t, None) && t.alive == s.alive
    requires (exists i: nat :: i < |s.pipe.lateSends| && t.pipe == s.pipe.SendLate(i))
      || (s.pipe.lateTakes > 0 && s.pipe.toParent != [] && t.pipe == s.pipe.TakeLate())
    ensures OneAtATime(t, left)
  {
    hide Awaited;
  }

  lemma DispatchAwaited(s: State, c: CallId)
    requires Unsent(s, c).Some? && NobodyAwaits(s)
    ensures Unsent(s, c).value.id == c
    ensures forall x :: Awaited(Dispatch(s, c), x).Some? <==> x == c
  {
  }

  lemma OneDispatch(s: State, c: CallId)
    requires OneAtATime(s, false) && Unsent(s, c).Some? && NobodyAwaits(s)
    ensures OneAtATime(Dispatch(s, c), false)
  {
    NobodyAwaitsMeans(s);
    DispatchAwaited(s, c);
    hide OneAtATime, Awaited, NobodyAwaits, Unsent;
    OneSends(s, Dispatch(s, c), Unsent(s, c).value);
  }

  lemma VisitAwaited(s: State, task: Task)
    requires s.next !in s.guests
    ensures AwaitedBut(s, Visiting(s, task), None)
  {
  }

  lemma OneWaits(s: State, left: bool, op: Op, task: Task)
    requires OneAtATime(s, left) && s.next !in s.guests
    ensures OneAtATime(Arrival(s, op), left) && OneAtATime(Visiting(s, task), left) && OneAtATime(Death(s), left)
  {
    VisitAwaited(s, task);
    hide OneAtATime, AwaitedBut;
    SameAwaited(s, Arrival(s, op));
    OneStays(s, Arrival(s, op), left);
    OneStays(s, Visiting(s, task), left);
    SameAwaited(s, Death(s));
    OneStays(s, Death(s), left);
  }

  lemma OneQueue(s: State, left: bool)
    requires OneAtATime(s, left)
    ensures s.holder == Free && s.queue != [] ==> OneAtATime(Acquisition(s), left)
    ensures forall i: nat :: i < |s.queue| ==> OneAtATime(Withdrawal(s, i), left)
  {
    hide OneAtATime, AwaitedBut;
    if s.holder == Free && s.queue != [] {
      SameAwaited(s, Acquisition(s));
      OneStays(s, Acquisition(s), left);
    }
    forall i: nat | i < |s.queue| ensures OneAtATime(Withdrawal(s, i), left) {
      SameAwaited(s, Withdrawal(s, i));
      OneStays(s, Withdrawal(s, i), left);
    }
  }

  lemma OneWork(w: World, s: State, left: bool)
    requires OneAtATime(s, left) && s.alive && s.pipe.toWorker != []
    ensures OneAtATime(Work(w, s), left)
  {
    hide OneAtATime, AwaitedBut;
    var o := w.run(s.ns, s.pipe.toWorker[0].task);
    SameAwaited(s, Work(w, s));
    OneServes(s, Work(w, s), left, if o.Dies? then Reply(true, "") else o.reply);
  }

  lemma OneReceipt(s: State, left: bool, c: CallId)
    requires OneAtATime(s, left) && Awaited(s, c).Some? && s.pipe.toParent != []
    ensures OneAtATime(Receipt(s, c), left)
  {
    hide OneAtATime, AwaitedBut, Awaited;
    FinishAwaited(s, c, Got(s.pipe.toParent[0].id, s.pipe.toParent[0].reply), Receipt(s, c));
    OneTakes(s, Receipt(s, c), c, left);
  }

  lemma OneGivesUp(s: State, left: bool, c: CallId)
    requires OneAtATime(s, left) && Awaited(s, c).Some?
    ensures OneAtATime(DeathNotice(s, c), true) && OneAtATime(Expiry(s, c), true)
  {
    hide OneAtATime, AwaitedBut, Awaited;
    var r := Request(c, Cell(""));
    FinishAwaited(s, c, WorkerDied, DeathNotice(s, c));
    OneLeaves(s, DeathNotice(s, c), c, left, r);
    FinishAwaited(s, c, TimedOut, Expiry(s, c));
    OneLeaves(s, Expiry(s, c), c, left, r);
  }

  lemma OneAbandonment(s: State, left: bool, c: CallId, midTake: bool)
    requires OneAtATime(s, left) && (midTake ==> Awaited(s, c).Some?)
    ensures OneAtATime(Abandonment(s, c, midTake), true)
  {
    hide OneAtATime, AwaitedBut, Awaited, Unsent;
    FinishAwaited(s, c, Cancelled, Abandonment(s, c, midTake));
    var request := if Unsent(s, c).Some? then Unsent(s, c).value else Request(c, Cell(""));
    OneLeaves(s, Abandonment(s, c, midTake), c, left, request);
  }

  lemma NewPipeOne(t: State)
    requires t.pipe == NEW_PIPE && t.guests == map[] && !t.holder.Awaiting?
    ensures OneAtATime(t, false)
  {
  }

  lemma OneNewWorker(w: World, s: State, broken: set<CallId>)
    requires s.holder.Restarting? && broken == s.guests.Keys
    ensures OneAtATime(NewWorker(w, s, broken), false)
  {
    hide OneAtATime;
    assert s.guests - broken - {s.holder.id} == map[];
    NewPipeOne(NewWorker(w, s, broken));
  }

  lemma OneLateSend(s: State, left: bool, i: nat)
    requires OneAtATime(s, left)
    ensures i < |s.pipe.lateSends| ==> OneAtATime(s.(pipe := s.pipe.SendLate(i)), left)
    ensures s.pipe.lateTakes > 0 && s.pipe.toParent != [] ==> OneAtATime(s.(pipe := s.pipe.TakeLate()), left)
  {
    hide OneAtATime, AwaitedBut;
    if i < |s.pipe.lateSends| {
      var t := s.(pipe := s.pipe.SendLate(i));
      SameAwaited(s, t);
      OneLate(s, t, left);
    }
    if s.pipe.lateTakes > 0 && s.pipe.toParent != [] {
      var t := s.(pipe := s.pipe.TakeLate());
      SameAwaited(s, t);
      OneLate(s, t, left);
    }
  }

  lemma OneAtATimeStep(w: World, s: State, l: Label, left: bool)
    requires CallsApart(s) && Enabled(w, s, l) && Orderly(s, l, left) && OneAtATime(s, left)
    ensures OneAtATime(Next(w, s, l), LeftBehind(l, left))
  {
    assert s.next !in s.guests;
    hide CallsApart, OneAtATime, Awaited, Unsent, NobodyAwaits;
    hide Arrival, Visiting, Acquisition, Dispatch, Work, Receipt;
    hide DeathNotice, Expiry, Withdrawal, Abandonment, Death, NewWorker;
    match l
    case Arrive(op) => OneWaits(s, left, op, Verify(""));
    case Visit(task) => OneWaits(s, left, Reset, task);
    case Die => OneWaits(s, left, Reset, Verify(""));
    case Acquire => OneQueue(s, left);
    case Withdraw(_) => OneQueue(s, left);
    case Send(c) => OneDispatch(s, c);
    case Serve => OneWork(w, s, left);
    case Take(c) => OneReceipt(s, left, c);
    case Notice(c) => OneGivesUp(s, left, c);
    case Expire(c) => OneGivesUp(s, left, c);
    case Abandon(c, midTake) => OneAbandonment(s, left, c, midTake);
    case Restart(broken) => OneNewWorker(w, s, broken);
    case LateSend(i) => OneLateSend(s, left, i);
    case LateTake => OneLateSend(s, left, 0);
  }

  lemma OwnMore(s: State, t: State, c: CallId, r: Result)
    requires OwnReplies(s.results) && !r.Got? && (t.results == s.results || t.results == s.results[c := r])
    ensures OwnReplies(t.results)
  {
  }

  lemma OwnWaits(w: World, s: State, op: Op, task: Task)
    requires OwnReplies(s.results)
    ensures OwnReplies(Arrival(s, op).results) && OwnReplies(Visiting(s, task).results) && OwnReplies(Death(s).results)
    ensures s.pipe.toWorker != [] ==> OwnReplies(Work(w, s).results)
  {
    hide OwnReplies;
    OwnMore(s, Arrival(s, op), s.next, if s.session != Active then NotActive else RuntimeDown);
    OwnMore(s, Visiting(s, task), s.next, RuntimeDown);
  }

  lemma OwnQueue(s: State)
    requires OwnReplies(s.results)
    ensures s.queue != [] ==> OwnReplies(Acquisition(s).results)
    ensures forall i: nat :: i < |s.queue| ==> OwnReplies(Withdrawal(s, i).results)
  {
    hide OwnReplies;
    if s.queue != [] {
      OwnMore(s, Acquisition(s), s.queue[0].id, if s.queue[0].op.Reset? then NotActive else RuntimeDown);
    }
    forall i: nat | i < |s.queue| ensures OwnReplies(Withdrawal(s, i).results) {
      OwnMore(s, Withdrawal(s, i), s.queue[i].id, Cancelled);
    }
  }

  lemma OwnNewWorker(w: World, s: State, broken: set<CallId>)
    requires OwnReplies(s.results) && s.holder.Restarting?
    ensures OwnReplies(NewWorker(w, s, broken).results)
  {
    var t := Broken(s, broken);
    assert OwnReplies(t.results);
    hide OwnReplies, Broken;
    var result := if w.fate(s.holder.id).StartFails? then StartFailed else Restarted;
    OwnMore(t, NewWorker(w, s, broken), t.holder.id, result);
  }

  lemma OwnLeaves(s: State, c: CallId, midTake: bool)
    requires OwnReplies(s.results)
    ensures OwnReplies(Abandonment(s, c, midTake).results)
    ensures Awaited(s, c).Some? ==> OwnReplies(DeathNotice(s, c).results) && OwnReplies(Expiry(s, c).results)
    ensures Unsent(s, c).Some? ==> OwnReplies(Dispatch(s, c).results)
    ensures s.pipe.toParent != [] && s.pipe.toParent[0].id == c ==> OwnReplies(Receipt(s, c).results)
  {
    hide Awaited, Unsent;
  }

  lemma OwnRepliesStep(w: World, s: State, l: Label, left: bool)
    requires Enabled(w, s, l) && OwnReplies(s.results) && OneAtATime(s, left)
    ensures OwnReplies(Next(w, s, l).results)
  {
    assert l.Take? ==> HeadIs(s, l.c);
    hide OneAtATime, OwnReplies, Awaited, Unsent;
    hide Arrival, Visiting, Acquisition, Dispatch, Work, Receipt;
    hide DeathNotice, Expiry, Withdrawal, Abandonment, Death, NewWorker;
    match l
    case Arrive(op) => OwnWaits(w, s, op, Verify(""));
    case Visit(task) => OwnWaits(w, s, Reset, task);
    case Die => OwnWaits(w, s, Reset, Verify(""));
    case Serve => OwnWaits(w, s, Reset, Verify(""));
    case Acquire => OwnQueue(s);
    case Withdraw(_) => OwnQueue(s);
    case Restart(broken) => OwnNewWorker(w, s, broken);
    case Send(c) => OwnLeaves(s, c, false);
    case Take(c) => OwnLeaves(s, c, false);
    case Notice(c) => OwnLeaves(s, c, false);
    case Expire(c) => OwnLeaves(s, c, false);
    case Abandon(c, midTake) => OwnLeaves(s, c, midTake);
    case _ =>
  }

  lemma {:induction false} OwnRepliesRun(w: World, s: State, ls: seq<Label>, left: bool)
    requires Run(w, s, ls) && RestartsBeforeSending(w, s, ls, left)
    requires CallsApart(s) && OwnReplies(s.results) && OneAtATime(s, left)
    ensures OwnReplies(After(w, s, ls).results)
    decreases |ls|
  {
    hide OwnReplies, OneAtATime, Orderly, LeftBehind, CallsApart;
    if ls != [] {
      CallsApartStep(w, s, ls[0]);
      OneAtATimeStep(w, s, ls[0], left);
      OwnRepliesStep(w, s, ls[0], left);
      OwnRepliesRun(w, Next(w, s, ls[0]), ls[1..], LeftBehind(ls[0], left));
    }
  }

  /** Response integrity: in every run that sends one request at a time and restarts
      the worker between leaving a request behind and the next send, every reply
      went to the call that asked. */
  lemma ResponseIntegrity(w: World, ls: seq<Label>)
    requires Run(w, INIT, ls) && RestartsBeforeSending(w, INIT, ls, false)
    ensures OwnReplies(After(w, INIT, ls).results)
  {
    OwnRepliesRun(w, INIT, ls, false);
  }

  /** One label of a run, for following a concrete run. */
  lemma Follow(w: World, s: State, l: Label, ls: seq<Label>, left: bool)
    requires Enabled(w, s, l)
    ensures Run(w, s, [l] + ls) == Run(w, Next(w, s, l), ls)
    ensures Run(w, s, [l] + ls) ==>
              && After(w, s, [l] + ls) == After(w, Next(w, s, l), ls)
              && RestartsBeforeSending(w, s, [l] + ls, left)
                 == (Orderly(s, l, left) && RestartsBeforeSending(w, Next(w, s, l), ls, LeftBehind(l, left)))
  {
    assert ([l] + ls)[1..] == ls;
  }

  lemma FollowEnd(w: World, s: State, left: bool)
    ensures Run(w, s, []) && After(w, s, []) == s && RestartsBeforeSending(w, s, [], left)
  {
  }

  /** A cell is being awaited on a running worker, with nothing else on the pipe. */
  predicate CellAwaited(w: World, s: State) {
    && s.holder.Awaiting? && s.holder.r.id < s.next && s.guests == map[]
    && s.alive && s.runtime == Running
    && s.pipe.toWorker == [s.holder.r] && s.pipe.toParent == []
    && w.run(s.ns, s.holder.r.task).Replies?
  }

  /** And another cell is next in the line: ahead, if it is there, of the reset that
      a cancellation asks for. */
  predicate CellThenCell(w: World, s: State) {
    CellAwaited(w, s) && s.queue != [] && s.queue[0].op.Execute? && w.fate(s.queue[0].id) == Runs
  }

  function CancelThenNext(c: CallId, d: CallId): seq<Label> {
    [Abandon(c, false)] + ([Acquire] + ([Serve] + ([Send(d)] + ([Take(d)] + []))))
  }

  /** From every such state a cancellation can hand the reply of the cancelled
      cell to the next caller, because nothing restarts the worker in between. */
  lemma StaleReply(w: World, s: State)
    requires CellThenCell(w, s)
    ensures var ls := CancelThenNext(s.holder.r.id, s.queue[0].id);
      && Run(w, s, ls) && !RestartsBeforeSending(w, s, ls, false)
      && s.queue[0].id in After(w, s, ls).results
      && After(w, s, ls).results[s.queue[0].id] == Got(s.holder.r.id, w.run(s.ns, s.holder.r.task).reply)
  {
    hide Run, After, RestartsBeforeSending;
    var c, d := s.holder.r.id, s.queue[0].id;
    var s1 := Next(w, s, Abandon(c, false));
    var s2 := Next(w, s1, Acquire);
    var s3 := Next(w, s2, Serve);
    var s4 := Next(w, s3, Send(d));
    FollowEnd(w, Next(w, s4, Take(d)), true);
    Follow(w, s4, Take(d), [], true);
    Follow(w, s3, Send(d), [Take(d)] + [], true);
    Follow(w, s2, Serve, [Send(d)] + ([Take(d)] + []), true);
    Follow(w, s1, Acquire, [Serve] + ([Send(d)] + ([Take(d)] + [])), true);
    Follow(w, s, Abandon(c, false), [Acquire] + ([Serve] + ([Send(d)] + ([Take(d)] + []))), false);
  }

  function TwoCellsAndReset(a: string, b: string): seq<Label> {
    [Arrive(Execute(a))] + ([Acquire] + ([Send(0)] + ([Arrive(Execute(b))] + ([Arrive(Reset)] + []))))
  }

  /** The first three of these labels leave the first cell awaited. */
  function FirstCell(a: string): State {
    INIT.(next := 1, holder := Awaiting(Request(0, Cell(a))), order := [Turn(Caller(0, Execute(a)))],
          pipe := NEW_PIPE.Put(Request(0, Cell(a))))
  }

  lemma FirstCellReached(w: World, a: string, ls: seq<Label>)
    requires Run(w, FirstCell(a), ls)
    ensures var all := [Arrive(Execute(a))] + ([Acquire] + ([Send(0)] + ls));
      Run(w, INIT, all) && After(w, INIT, all) == After(w, FirstCell(a), ls)
  {
    hide Run, After, RestartsBeforeSending;
    var s1 := Next(w, INIT, Arrive(Execute(a)));
    var s2 := Next(w, s1, Acquire);
    assert Next(w, s2, Send(0)) == FirstCell(a);
    Follow(w, s2, Send(0), ls, false);
    Follow(w, s1, Acquire, [Send(0)] + ls, false);
    Follow(w, INIT, Arrive(Execute(a)), [Acquire] + ([Send(0)] + ls), false);
  }

  /** The state is reached by two cells, with the reset of the first one's
      cancellation queued third. */
  lemma StaleReplyReachable(w: World, a: string, b: string)
    requires w.fate(1) == Runs && w.run(FRESH_NAMESPACE, Cell(a)).Replies?
    ensures Run(w, INIT, TwoCellsAndReset(a, b)) && CellThenCell(w, After(w, INIT, TwoCellsAndReset(a, b)))
    ensures After(w, INIT, TwoCellsAndReset(a, b)).queue == [Caller(1, Execute(b)), Caller(2, Reset)]
  {
    hide Run, After, RestartsBeforeSending;
    var s3 := FirstCell(a);
    var s4 := Next(w, s3, Arrive(Execute(b)));
    FollowEnd(w, Next(w, s4, Arrive(Reset)), false);
    Follow(w, s4, Arrive(Reset), [], false);
    Follow(w, s3, Arrive(Execute(b)), [Arrive(Reset)] + [], false);
    FirstCellReached(w, a, [Arrive(Execute(b))] + ([Arrive(Reset)] + []));
  }

  function VisitDuringCell(packages: string, g: CallId): seq<Label> {
    [Visit(Verify(packages))] + ([Serve] + ([Send(g)] + ([Take(g)] + [])))
  }

  lemma TakesHead(w: World, s: State, c: CallId)
    requires Awaited(s, c).Some? && s.pipe.toParent != [] && !w.fate(c).Expires?
    ensures Enabled(w, s, Take(c)) && c in Next(w, s, Take(c)).results
    ensures Next(w, s, Take(c)).results[c] == Got(s.pipe.toParent[0].id, s.pipe.toParent[0].reply)
  {
    hide Awaited;
  }

  lemma AwaitsMeanwhile(s: State, c: CallId)
    requires s.holder.Awaiting?
    ensures !Orderly(s, Send(c), false)
  {
  }

  /** Without any cancellation a verification, which does not take the lock, can be
      handed the reply of the cell that runs. */
  lemma VisitorTakesReply(w: World, s: State, packages: string)
    requires CellAwaited(w, s) && !w.fate(s.next).Expires?
    ensures var ls := VisitDuringCell(packages, s.next);
      && Run(w, s, ls) && !RestartsBeforeSending(w, s, ls, false)
      && s.next in After(w, s, ls).results
      && After(w, s, ls).results[s.next] == Got(s.holder.r.id, w.run(s.ns, s.holder.r.task).reply)
  {
    hide Run, After, RestartsBeforeSending;
    var g := s.next;
    var o := w.run(s.ns, s.holder.r.task);
    var s1 := s.(next := g + 1, guests := map[g := Guest(Verify(packages), false)]);
    var s2 := s1.(ns := o.ns, pipe := s.pipe.Answer(o.reply));
    var s3 := s2.(guests := map[g := Guest(Verify(packages), true)], pipe := s2.pipe.Put(Request(g, Verify(packages))));
    assert Next(w, s, Visit(Verify(packages))) == s1;
    assert Next(w, s1, Serve) == s2;
    assert Next(w, s2, Send(g)) == s3;
    TakesHead(w, s3, g);
    hide Next, Enabled, Orderly, Awaited, Unsent;
    FollowEnd(w, Next(w, s3, Take(g)), false);
    Follow(w, s3, Take(g), [], false);
    Follow(w, s2, Send(g), [Take(g)] + [], false);
    Follow(w, s1, Serve, [Send(g)] + ([Take(g)] + []), false);
    Follow(w, s, Visit(Verify(packages)), [Serve] + ([Send(g)] + ([Take(g)] + [])), false);
    assert !Orderly(s2, Send(g), false) by { AwaitsMeanwhile(s2, g); }
  }
}
