/** The in-memory publisher: subscribers' queues by execution, and whole runs of it. */
module Publisher {
  import opened Output

  /** The queues listed for each execution, and what they hold. A queue is known by a
      number of its own. */
  datatype Bus = Bus(subscribers: map<string, seq<nat>>, queues: map<nat, seq<Event>>)

  const NOBODY := Bus(map[], map[])

  function Subscribers(b: Bus, execution: string): seq<nat> {
    if execution in b.subscribers then b.subscribers[execution] else []
  }

  function Queue(b: Bus, q: nat): seq<Event> {
    if q in b.queues then b.queues[q] else []
  }

  /** No list is empty, and every queue is listed at most once, in one list. */
  ghost predicate Tidy(b: Bus) {
    && (forall e :: e in b.subscribers ==> b.subscribers[e] != [])
    && (forall e, i, j :: e in b.subscribers && 0 <= i < j < |b.subscribers[e]| ==>
          b.subscribers[e][i] != b.subscribers[e][j])
    && (forall e, f, q :: e in b.subscribers && f in b.subscribers && q in b.subscribers[e] && q in b.subscribers[f] ==>
          e == f)
    && (forall e, q :: e in b.subscribers && q in b.subscribers[e] ==> q in b.queues)
  }

  // ---------------------------------------------------------------------------
  // The steps, each of which holds the lock throughout
  // ---------------------------------------------------------------------------

  /** The event at the end of every queue listed for its execution. */
  function Published(b: Bus, ev: Event): Bus {
    b.(queues := map q | q in b.queues ::
        if q in Subscribers(b, ev.source.execution) then b.queues[q] + [ev] else b.queues[q])
  }

  function Subscribed(b: Bus, execution: string, q: nat): Bus {
    Bus(b.subscribers[execution := Subscribers(b, execution) + [q]], b.queues[q := []])
  }

  /** `list.remove` of a queue that is listed once. */
  function Without(qs: seq<nat>, q: nat): (r: seq<nat>)
    ensures forall x :: x in r ==> x in qs
    ensures forall x :: x in qs && x != q ==> x in r
  {
    if qs == [] then []
    else if qs[0] == q then assert forall x :: x in qs[1..] ==> x in qs; qs[1..]
    else [qs[0]] + Without(qs[1..], q)
  }

  function Unsubscribed(b: Bus, execution: string, q: nat): Bus {
    var left := Without(Subscribers(b, execution), q);
    if execution !in b.subscribers then b
    else if left == [] then b.(subscribers := b.subscribers - {execution})
    else b.(subscribers := b.subscribers[execution := left])
  }

  function Taken(b: Bus, q: nat): Bus
    requires Queue(b, q) != []
  {
    b.(queues := b.queues[q := b.queues[q][1..]])
  }

  class OutputPublisher {
    var subscribers: map<string, seq<nat>>
    var queues: map<nat, seq<Event>>

    ghost function View(): Bus
      reads this
    {
      Bus(subscribers, queues)
    }

    constructor ()
      ensures View() == NOBODY
    {
      subscribers, queues := map[], map[];
    }

    method Publish(ev: Event)
      requires Tidy(View())
      modifies this
      ensures View() == Published(old(View()), ev)
    {
      var listed := if ev.source.execution in subscribers then subscribers[ev.source.execution] else [];
      for i := 0 to |listed|
        invariant subscribers == old(subscribers) && queues.Keys == old(queues).Keys
        invariant forall q :: q in queues ==>
          queues[q] == if q in listed[..i] then old(queues)[q] + [ev] else old(queues)[q]
      {
        var q := listed[i];
        assert q !in listed[..i];
        queues := queues[q := queues[q] + [ev]];
      }
      assert listed[..|listed|] == listed;
    }

    /** The start of `subscribe`, with a new queue. */
    method Subscribe(execution: string, q: nat)
      requires q !in queues
      modifies this
      ensures View() == Subscribed(old(View()), execution, q)
    {
      queues := queues[q := []];
      if execution !in subscribers {
        subscribers := subscribers[execution := []];
      }
      subscribers := subscribers[execution := subscribers[execution] + [q]];
    }

    /** `q.get()`, which waits until there is an event. */
    method Take(q: nat) returns (ev: Event)
      requires Queue(View(), q) != []
      modifies this
      ensures ev == Queue(old(View()), q)[0] && View() == Taken(old(View()), q)
    {
      ev := queues[q][0];
      queues := queues[q := queues[q][1..]];
    }

    /** The cleanup of `subscribe`. */
    method Unsubscribe(execution: string, q: nat)
      modifies this
      ensures View() == Unsubscribed(old(View()), execution, q)
    {
      if execution in subscribers {
        if q in subscribers[execution] {
          subscribers := subscribers[execution := Without(subscribers[execution], q)];
        } else {
          WithoutNone(subscribers[execution], q);
        }
        if subscribers[execution] == [] {
          subscribers := subscribers - {execution};
        }
      }
    }
  }

  lemma WithoutNone(qs: seq<nat>, q: nat)
    requires q !in qs
    ensures Without(qs, q) == qs
  {
  }

  // ---------------------------------------------------------------------------
  // Runs
  // ---------------------------------------------------------------------------

  datatype Step =
    | Publish(ev: Event)
    | Subscribe(execution: string, q: nat)
    | Take(q: nat)
    | Unsubscribe(execution: string, q: nat)

  /** A subscriber has a queue of its own, takes what is there, and leaves the list
      it joined, once. */
  predicate Possible(b: Bus, step: Step) {
    match step
    case Publish(_) => true
    case Subscribe(_, q) => q !in b.queues
    case Take(q) => Queue(b, q) != []
    case Unsubscribe(e, q) => q in Subscribers(b, e)
  }

  function Next(b: Bus, step: Step): Bus
    requires Possible(b, step)
  {
    match step
    case Publish(ev) => Published(b, ev)
    case Subscribe(e, q) => Subscribed(b, e, q)
    case Take(q) => Taken(b, q)
    case Unsubscribe(e, q) => Unsubscribed(b, e, q)
  }

  ghost predicate Run(steps: seq<Step>, b: Bus)
    decreases |steps|
  {
    if steps == [] then b == NOBODY
    else
      var init, step := steps[..|steps| - 1], steps[|steps| - 1];
      exists a :: Run(init, a) && LastStep(a, step, b)
  }

  ghost predicate LastStep(a: Bus, step: Step, b: Bus) {
    Possible(a, step) && b == Next(a, step)
  }

  /** What a step hands to the subscriber of `q`. */
  function Handed(a: Bus, step: Step, q: nat): seq<Event> {
    if step == Take(q) && Queue(a, q) != [] then [Queue(a, q)[0]] else []
  }

  /** What the subscriber of `q` was yielded: the head of its queue at every take. */
  ghost predicate Yielded(steps: seq<Step>, b: Bus, q: nat, got: seq<Event>)
    decreases |steps|
  {
    if steps == [] then b == NOBODY && got == []
    else
      var init, step := steps[..|steps| - 1], steps[|steps| - 1];
      exists a, before :: Yielded(init, a, q, before) && LastStep(a, step, b)
        && got == before + Handed(a, step, q)
  }

  /** The events published to an execution during the steps, in order. */
  function EventsTo(steps: seq<Step>, execution: string): seq<Event>
    decreases |steps|
  {
    if steps == [] then [] else
    var init, step := steps[..|steps| - 1], steps[|steps| - 1];
    EventsTo(init, execution) + if step.Publish? && step.ev.source.execution == execution then [step.ev] else []
  }

  lemma TidyStep(a: Bus, step: Step)
    requires Tidy(a) && Possible(a, step)
    ensures Tidy(Next(a, step))
  {
    match step
    case Publish(ev) =>
    case Take(q) =>
    case Subscribe(e, q) => TidySubscribe(a, e, q);
    case Unsubscribe(e, q) => TidyUnsubscribe(a, e, q);
  }

  lemma TidySubscribe(a: Bus, e: string, q: nat)
    requires Tidy(a) && q !in a.queues
    ensures Tidy(Subscribed(a, e, q))
  {
    var b := Subscribed(a, e, q);
    var qs := b.subscribers[e];
    assert qs == Subscribers(a, e) + [q];
    assert forall f, x :: f in a.subscribers && x in a.subscribers[f] ==> x != q;
    assert forall f :: f in b.subscribers && f != e ==> f in a.subscribers && b.subscribers[f] == a.subscribers[f];
    assert forall x :: x in qs ==> x == q || (e in a.subscribers && x in a.subscribers[e]);
  }

  lemma WithoutDistinct(qs: seq<nat>, q: nat)
    requires forall i, j :: 0 <= i < j < |qs| ==> qs[i] != qs[j]
    ensures forall i, j :: 0 <= i < j < |Without(qs, q)| ==> Without(qs, q)[i] != Without(qs, q)[j]
    ensures q !in Without(qs, q)
  {
    if qs != [] && qs[0] != q {
      WithoutDistinct(qs[1..], q);
      assert forall x :: x in Without(qs[1..], q) ==> x in qs[1..];
      assert qs[0] !in qs[1..];
    }
  }

  lemma TidyUnsubscribe(a: Bus, e: string, q: nat)
    requires Tidy(a) && q in Subscribers(a, e)
    ensures Tidy(Unsubscribed(a, e, q))
  {
    WithoutDistinct(a.subscribers[e], q);
    var b := Unsubscribed(a, e, q);
    assert forall f :: f in b.subscribers ==>
      f in a.subscribers && forall x :: x in b.subscribers[f] ==> x in a.subscribers[f];
  }

  /** In every reachable state no list is empty, and no queue is listed twice. */
  lemma {:induction false} RegistryStaysTidy(steps: seq<Step>, b: Bus)
    requires Run(steps, b)
    ensures Tidy(b)
    decreases |steps|
  {
    if steps != [] {
      var init, step := steps[..|steps| - 1], steps[|steps| - 1];
      var a :| Run(init, a) && LastStep(a, step, b);
      RegistryStaysTidy(init, a);
      TidyStep(a, step);
    }
  }

  /** Leaving removes the caller's queue and no other, from its own list and from no
      other. */
  lemma UnsubscribeIsLocal(b: Bus, execution: string, q: nat, other: string, r: nat)
    requires Tidy(b) && q in Subscribers(b, execution)
    ensures r in Subscribers(Unsubscribed(b, execution, q), other) <==>
      r in Subscribers(b, other) && !(r == q && other == execution)
    ensures Unsubscribed(b, execution, q).queues == b.queues
  {
    WithoutDistinct(b.subscribers[execution], q);
  }

  lemma YieldedIsRun(steps: seq<Step>, b: Bus, q: nat, got: seq<Event>)
    requires Yielded(steps, b, q, got)
    ensures Run(steps, b)
    decreases |steps|
  {
    if steps != [] {
      var init, step := steps[..|steps| - 1], steps[|steps| - 1];
      var a, before :| Yielded(init, a, q, before) && LastStep(a, step, b);
      YieldedIsRun(init, a, q, before);
    }
  }

  /** Every run yields something to everybody, if only nothing. */
  lemma {:induction false} RunIsYielded(steps: seq<Step>, b: Bus, q: nat) returns (got: seq<Event>)
    requires Run(steps, b)
    ensures Yielded(steps, b, q, got)
    decreases |steps|
  {
    got := [];
    if steps != [] {
      var init, step := steps[..|steps| - 1], steps[|steps| - 1];
      var a :| Run(init, a) && LastStep(a, step, b);
      var before := RunIsYielded(init, a, q);
      got := before + Handed(a, step, q);
      hide LastStep, Handed;
    }
  }

  /** A queue that never existed has yielded nothing. */
  lemma {:induction false} NothingBefore(steps: seq<Step>, b: Bus, q: nat, got: seq<Event>)
    requires Yielded(steps, b, q, got) && q !in b.queues
    ensures got == []
    decreases |steps|
  {
    if steps != [] {
      var init, step := steps[..|steps| - 1], steps[|steps| - 1];
      var a, before :| Yielded(init, a, q, before) && LastStep(a, step, b)
        && got == before + Handed(a, step, q);
      NothingBefore(init, a, q, before);
    }
  }

  /** The queue is listed for the execution, and what was yielded from it, followed
      by what it holds, is `sent`. */
  ghost predicate Delivered(b: Bus, execution: string, q: nat, got: seq<Event>, sent: seq<Event>) {
    q in b.queues && q in Subscribers(b, execution) && got + b.queues[q] == sent
  }

  function SentBy(step: Step, execution: string): seq<Event> {
    if step.Publish? && step.ev.source.execution == execution then [step.ev] else []
  }

  lemma DeliveredStep(a: Bus, step: Step, execution: string, q: nat, got: seq<Event>, sent: seq<Event>)
    requires Tidy(a) && Possible(a, step) && Delivered(a, execution, q, got, sent)
    requires !(step.Unsubscribe? && step.q == q)
    ensures Delivered(Next(a, step), execution, q, got + Handed(a, step, q), sent + SentBy(step, execution))
  {
    assert sent + [] == sent && got + [] == got;
    match step
    case Publish(ev) => PublishDelivers(a, ev, execution, q, got);
    case Subscribe(e, r) =>
    case Take(r) =>
      if r == q {
        assert (got + [a.queues[q][0]]) + a.queues[q][1..] == got + a.queues[q];
      }
    case Unsubscribe(e, r) => UnsubscribeIsLocal(a, e, r, execution, q);
  }

  lemma PublishDelivers(a: Bus, ev: Event, execution: string, q: nat, got: seq<Event>)
    requires Tidy(a) && q in a.queues && q in Subscribers(a, execution)
    ensures got + Published(a, ev).queues[q] == (got + a.queues[q]) + SentBy(Publish(ev), execution)
  {
  }

  lemma JoinDelivers(a: Bus, execution: string, q: nat)
    requires q !in a.queues
    ensures Possible(a, Subscribe(execution, q))
    ensures Delivered(Next(a, Subscribe(execution, q)), execution, q, [], [])
    ensures Handed(a, Subscribe(execution, q), q) == []
  {
  }

  lemma SentSince(steps: seq<Step>, k: nat, execution: string)
    requires k < |steps| - 1
    ensures EventsTo(steps[k + 1..], execution)
            == EventsTo(steps[..|steps| - 1][k + 1..], execution) + SentBy(steps[|steps| - 1], execution)
  {
    var since := steps[k + 1..];
    assert since[..|since| - 1] == steps[..|steps| - 1][k + 1..];
  }

  /** In every run, from the step at which a subscriber joined until it leaves, what
      it was yielded followed by its queue is exactly what was published to its
      execution since, in order. */
  lemma {:induction false} SubscriberSeesAll(steps: seq<Step>, b: Bus, k: nat,
      execution: string, q: nat, got: seq<Event>)
    requires Yielded(steps, b, q, got) && k < |steps| && steps[k] == Subscribe(execution, q)
    requires forall i :: k < i < |steps| ==> !(steps[i].Unsubscribe? && steps[i].q == q)
    ensures Delivered(b, execution, q, got, EventsTo(steps[k + 1..], execution))
    decreases |steps|
  {
    var n := |steps| - 1;
    var init, step := steps[..n], steps[n];
    var a, before :| Yielded(init, a, q, before) && LastStep(a, step, b)
      && got == before + Handed(a, step, q);
    hide Yielded, Delivered, Tidy, EventsTo, Handed, Next, SentBy, Queue, Subscribers, Possible;
    if k == n {
      JoinsNew(a, step, b);
      NothingBefore(init, a, q, before);
      JoinDelivers(a, execution, q);
      NoneSent(steps[k + 1..], execution);
    } else {
      SubscriberSeesAll(init, a, k, execution, q, before);
      YieldedIsRun(init, a, q, before);
      RegistryStaysTidy(init, a);
      DeliveredStep(a, step, execution, q, before, EventsTo(init[k + 1..], execution));
      SentSince(steps, k, execution);
    }
  }

  lemma JoinsNew(a: Bus, step: Step, b: Bus)
    requires LastStep(a, step, b) && step.Subscribe?
    ensures step.q !in a.queues
  {
  }

  lemma NoneSent(steps: seq<Step>, execution: string)
    ensures steps == [] ==> EventsTo(steps, execution) == []
  {
  }
}
