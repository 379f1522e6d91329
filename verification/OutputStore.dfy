/** The table of outputs: events are stored in order and listed by their numbers. */
module OutputStore {
  import opened Text
  import opened Output
  import P = Publisher

  function RowsOf(rows: seq<Event>, execution: string): seq<Event> {
    if rows == [] then [] else
    var last := rows[|rows| - 1];
    RowsOf(rows[..|rows| - 1], execution) + if last.source.execution == execution then [last] else []
  }

  ghost predicate Sorted(events: seq<Event>) {
    forall i, j :: 0 <= i < j < |events| ==> events[i].sequence <= events[j].sequence
  }

  /** `list_by_execution_id`: the rows of the execution, ordered by their numbers and
      by nothing else. */
  ghost predicate Lists(listing: seq<Event>, rows: seq<Event>, execution: string) {
    multiset(listing) == multiset(RowsOf(rows, execution)) && Sorted(listing)
  }

  /** `ExecutionOutputRepository` */
  class OutputRepository {
    var rows: seq<Event>

    constructor ()
      ensures rows == []
    {
      rows := [];
    }

    method BulkCreate(events: seq<Event>) returns (outputs: seq<Event>)
      modifies this
      ensures rows == old(rows) + events && outputs == events
    {
      outputs := [];
      for i := 0 to |events|
        invariant outputs == events[..i] && rows == old(rows) + events[..i]
      {
        rows := rows + [events[i]];
        outputs := outputs + [events[i]];
      }
    }
  }

  /** The events published one after another. */
  function PublishedAll(b: P.Bus, events: seq<Event>): P.Bus
    decreases |events|
  {
    if events == [] then b else P.Published(PublishedAll(b, events[..|events| - 1]), events[|events| - 1])
  }

  lemma {:induction false} PublishedAllTidy(b: P.Bus, events: seq<Event>)
    requires P.Tidy(b)
    ensures P.Tidy(PublishedAll(b, events)) && PublishedAll(b, events).queues.Keys == b.queues.Keys
    ensures PublishedAll(b, events).subscribers == b.subscribers
    decreases |events|
  {
    if events != [] {
      PublishedAllTidy(b, events[..|events| - 1]);
      P.TidyStep(PublishedAll(b, events[..|events| - 1]), P.Publish(events[|events| - 1]));
    }
  }

  /** `process_and_persist_events`: every event is streamed before any is stored. */
  method ProcessAndPersist(publisher: P.OutputPublisher, repository: OutputRepository, events: seq<Event>)
    returns (records: seq<Event>)
    requires P.Tidy(publisher.View())
    modifies publisher, repository
    ensures publisher.View() == PublishedAll(old(publisher.View()), events)
    ensures repository.rows == old(repository.rows) + events && records == events
  {
    for i := 0 to |events|
      invariant repository.rows == old(repository.rows)
      invariant publisher.View() == PublishedAll(old(publisher.View()), events[..i])
    {
      PublishedAllTidy(old(publisher.View()), events[..i]);
      publisher.Publish(events[i]);
      assert events[..i + 1][..i] == events[..i];
    }
    assert events[..|events|] == events;
    records := repository.BulkCreate(events);
  }

  lemma {:induction false} RowsOfAppend(rows: seq<Event>, events: seq<Event>, execution: string)
    ensures RowsOf(rows + events, execution) == RowsOf(rows, execution) + RowsOf(events, execution)
    decreases |events|
  {
    if events == [] {
      assert rows + events == rows;
    } else {
      var n := |events| - 1;
      RowsOfAppend(rows, events[..n], execution);
      assert (rows + events)[..|rows + events| - 1] == rows + events[..n];
    }
  }

  lemma {:induction false} RowsOfAll(events: seq<Event>, execution: string)
    requires forall i :: 0 <= i < |events| ==> events[i].source.execution == execution
    ensures RowsOf(events, execution) == events
    decreases |events|
  {
    if events != [] {
      RowsOfAll(events[..|events| - 1], execution);
      assert events == events[..|events| - 1] + [events[|events| - 1]];
    }
  }

  /** Rows with the same number are the same. */
  ghost predicate Numbered(rows: seq<Event>) {
    forall i, j :: 0 <= i < |rows| && 0 <= j < |rows| && rows[i].sequence == rows[j].sequence ==> rows[i] == rows[j]
  }

  lemma SameMembers(a: seq<Event>, b: seq<Event>)
    requires multiset(a) == multiset(b)
    ensures |a| == |b| && forall e :: e in a <==> e in b
  {
    assert |multiset(a)| == |a| && |multiset(b)| == |b|;
    assert forall e :: e in a <==> e in multiset(a);
    assert forall e :: e in b <==> e in multiset(b);
  }

  lemma LastAgrees(a: seq<Event>, b: seq<Event>)
    requires Sorted(a) && Sorted(b) && Numbered(a) && a != [] && b != []
    requires a[|a| - 1] in b && b[|b| - 1] in a
    ensures a[|a| - 1] == b[|b| - 1]
  {
    var i :| 0 <= i < |a| && a[i] == b[|b| - 1];
    var j :| 0 <= j < |b| && b[j] == a[|a| - 1];
    assert i < |a| - 1 ==> a[i].sequence <= a[|a| - 1].sequence;
    assert j < |b| - 1 ==> b[j].sequence <= b[|b| - 1].sequence;
    assert a[i].sequence == a[|a| - 1].sequence;
  }

  lemma MultisetOfInit(a: seq<Event>)
    requires a != []
    ensures multiset(a[..|a| - 1]) == multiset(a) - multiset{a[|a| - 1]}
    ensures a == a[..|a| - 1] + [a[|a| - 1]]
  {
    assert a == a[..|a| - 1] + [a[|a| - 1]];
  }

  lemma InitKeeps(a: seq<Event>)
    requires a != []
    ensures Sorted(a) ==> Sorted(a[..|a| - 1])
    ensures Numbered(a) ==> Numbered(a[..|a| - 1])
  {
  }

  lemma {:induction false} SortedIsUnique(a: seq<Event>, b: seq<Event>)
    requires Sorted(a) && Sorted(b) && multiset(a) == multiset(b) && Numbered(a)
    ensures a == b
    decreases |a|
  {
    hide Sorted, Numbered;
    SameMembers(a, b);
    if a != [] {
      LastAgrees(a, b);
      MultisetOfInit(a);
      MultisetOfInit(b);
      InitKeeps(a);
      InitKeeps(b);
      SortedIsUnique(a[..|a| - 1], b[..|b| - 1]);
    }
  }

  lemma SwapLists(r: seq<Event>, k: nat, rows: seq<Event>, execution: string) returns (t: seq<Event>)
    requires Lists(r, rows, execution) && k + 1 < |r| && r[k].sequence == r[k + 1].sequence && r[k] != r[k + 1]
    ensures Lists(t, rows, execution) && t != r
  {
    t := r[k := r[k + 1]][k + 1 := r[k]];
    SwapKeeps(r, k);
    assert t[k] != r[k];
    hide RowsOf;
  }

  lemma SwapKeeps(r: seq<Event>, k: nat)
    requires k + 1 < |r|
    ensures var t := r[k := r[k + 1]][k + 1 := r[k]];
      multiset(t) == multiset(r) && (Sorted(r) && r[k].sequence == r[k + 1].sequence ==> Sorted(t))
  {
    var t := r[k := r[k + 1]][k + 1 := r[k]];
    assert multiset(t) == multiset(r);
  }

  lemma DifferingNeighbours(r: seq<Event>, i: nat, j: nat) returns (k: nat)
    requires Sorted(r) && i < j < |r| && r[i].sequence == r[j].sequence && r[i] != r[j]
    ensures k + 1 < |r| && r[k].sequence == r[k + 1].sequence && r[k] != r[k + 1]
    decreases j - i
  {
    if r[i] != r[i + 1] {
      k := i;
    } else {
      k := DifferingNeighbours(r, i + 1, j);
    }
  }

  /** An event put in front of the first that has a greater number. */
  function Placed(e: Event, s: seq<Event>): seq<Event> {
    if s == [] || e.sequence <= s[0].sequence then [e] + s else [s[0]] + Placed(e, s[1..])
  }

  lemma {:induction false} PlacedMembers(e: Event, s: seq<Event>)
    ensures multiset(Placed(e, s)) == multiset(s) + multiset{e}
    ensures forall x :: x in Placed(e, s) ==> x == e || x in s
  {
    if s != [] && e.sequence > s[0].sequence {
      assert s == [s[0]] + s[1..];
      PlacedMembers(e, s[1..]);
    }
  }

  lemma {:induction false} PlacedSorted(e: Event, s: seq<Event>)
    requires Sorted(s)
    ensures Sorted(Placed(e, s))
  {
    if s != [] && e.sequence > s[0].sequence {
      PlacedSorted(e, s[1..]);
      PlacedMembers(e, s[1..]);
      hide Placed;
      FrontSorted(s[0], Placed(e, s[1..]));
      assert Placed(e, s) == [s[0]] + Placed(e, s[1..]) by { PlacedStep(e, s); }
    }
  }

  lemma PlacedStep(e: Event, s: seq<Event>)
    requires s != [] && e.sequence > s[0].sequence
    ensures Placed(e, s) == [s[0]] + Placed(e, s[1..])
  {
  }

  lemma FrontSorted(e: Event, s: seq<Event>)
    requires Sorted(s) && forall x :: x in s ==> e.sequence <= x.sequence
    ensures Sorted([e] + s)
  {
  }

  /** There is always an order in which the rows can be given back. */
  lemma {:induction false} ListingExists(rows: seq<Event>, execution: string)
    ensures exists r :: Lists(r, rows, execution)
  {
    hide Sorted;
    if rows == [] {
      assert Lists([], rows, execution) by { EmptySorted(); }
    } else {
      var init, last := rows[..|rows| - 1], rows[|rows| - 1];
      ListingExists(init, execution);
      var r :| Lists(r, init, execution);
      if last.source.execution == execution {
        PlacedSorted(last, r);
        PlacedMembers(last, r);
        assert Lists(Placed(last, r), rows, execution);
      } else {
        assert Lists(r, rows, execution);
      }
    }
  }

  lemma EmptySorted()
    ensures Sorted([])
  {
  }

  /** The order that is given back is determined exactly when no two different rows
      of the execution have the same number. */
  lemma ListingIsDetermined(r: seq<Event>, rows: seq<Event>, execution: string)
    requires Lists(r, rows, execution)
    ensures (forall t :: Lists(t, rows, execution) ==> t == r) <==> Numbered(RowsOf(rows, execution))
  {
    var mine := RowsOf(rows, execution);
    SameMembers(r, mine);
    assert Numbered(r) <==> Numbered(mine) by {
      NumberedByMembers(r, mine);
      NumberedByMembers(mine, r);
    }
    hide RowsOf;
    if Numbered(r) {
      forall t | Lists(t, rows, execution) ensures t == r {
        SortedIsUnique(r, t);
      }
    } else {
      var i, j :| 0 <= i < |r| && 0 <= j < |r| && r[i].sequence == r[j].sequence && r[i] != r[j];
      var k := DifferingNeighbours(r, if i < j then i else j, if i < j then j else i);
      var t := SwapLists(r, k, rows, execution);
    }
  }

  lemma NumberedByMembers(a: seq<Event>, b: seq<Event>)
    requires forall e :: e in b ==> e in a
    ensures Numbered(a) ==> Numbered(b)
  {
    forall i, j | Numbered(a) && 0 <= i < |b| && 0 <= j < |b| && b[i].sequence == b[j].sequence ensures b[i] == b[j] {
      assert b[i] in a && b[j] in a;
    }
  }

  /** What one execution's events are stored as is what is retrieved, when its
      identifier is fresh. */
  lemma PersistThenRetrieve(rows: seq<Event>, events: seq<Event>, source: Source,
      given: Streams, max: int, listing: seq<Event>)
    requires RightEvents(events, source, given, max) && RowsOf(rows, source.execution) == []
    ensures Lists(listing, rows + events, source.execution) <==> listing == events
  {
    assert forall i :: 0 <= i < |events| ==> RightEvent(events[i], source, given, max, i);
    hide RightEvent, RightEvents;
    NumbersOf(events, source, given, max);
    RowsOfAppend(rows, events, source.execution);
    RowsOfAll(events, source.execution);
    assert RowsOf(rows + events, source.execution) == events;
    hide RowsOf;
    if Lists(listing, rows + events, source.execution) {
      SortedIsUnique(events, listing);
    }
  }

  lemma NumbersOf(events: seq<Event>, source: Source, given: Streams, max: int)
    requires forall i :: 0 <= i < |events| ==> RightEvent(events[i], source, given, max, i)
    ensures forall i :: 0 <= i < |events| ==>
      events[i].sequence == i + 1 && events[i].source.execution == source.execution
    ensures Sorted(events) && Numbered(events)
  {
  }

  /** Two batches under one identifier, as repeated connector tests store them, are
      both numbered from one: unless their first events are equal, the order in
      which they come back is not determined. */
  lemma ReusedIdentifier(a: seq<Event>, b: seq<Event>, source: Source,
      given: Streams, again: Streams, max: int, r: seq<Event>)
    requires RightEvents(a, source, given, max) && RightEvents(b, source, again, max)
    requires a != [] && b != [] && a[0] != b[0] && Lists(r, a + b, source.execution)
    ensures exists t :: Lists(t, a + b, source.execution) && t != r
  {
    assert RightEvent(a[0], source, given, max, 0) && RightEvent(b[0], source, again, max, 0);
    assert a[0].sequence == 1 && b[0].sequence == 1;
    assert (forall i :: 0 <= i < |a| ==> a[i].source == source) && (forall i :: 0 <= i < |b| ==> b[i].source == source);
    hide RightEvents, RightEvent, Lists;
    RowsOfAll(a + b, source.execution);
    assert (a + b)[0] == a[0] && (a + b)[|a|] == b[0];
    assert !Numbered(a + b);
    ListingIsDetermined(r, a + b, source.execution);
  }
}
