/** The events made of one execution's streams: truncation, numbering, metrics, and
    what the table of outputs gives back. */
module Output {
  import opened Text

  // ---------------------------------------------------------------------------
  // Truncation
  // ---------------------------------------------------------------------------

  /** Octets of a character in UTF-8, section 3 of RFC 3629. */
  function CharBytes(c: char): (n: nat)
    ensures 1 <= n <= 4
  {
    if c as int < 0x80 then 1 else if c as int < 0x800 then 2 else if c as int < 0x10000 then 3 else 4
  }

  /** `len(text.encode("utf-8"))` */
  function Bytes(text: string): (n: nat)
    ensures |text| <= n
  {
    if text == "" then 0 else Bytes(text[..|text| - 1]) + CharBytes(text[|text| - 1])
  }

  function Power2(n: nat): nat {
    if n == 0 then 1 else 2 * Power2(n - 1)
  }

  /** What a sequence of n octets can carry, by the table of section 3 of RFC 3629: seven
      bits in one; in more, six in each continuation octet and 7 - n in the first. */
  function Bits(n: nat): nat
    requires 1 <= n <= 4
  {
    if n == 1 then 7 else 6 * (n - 1) + (7 - n)
  }

  /** A character takes the least number of octets that can carry it. */
  lemma LeastOctets(c: char)
    ensures CharBytes(c) < 4 ==> c as int < Power2(Bits(CharBytes(c)))
    ensures forall n :: 1 <= n < CharBytes(c) ==> Power2(Bits(n)) <= c as int
  {
    assert Power2(7) == 0x80;
    assert Power2(11) == 0x800 by { assert Power2(11) == 16 * Power2(7); }
    assert Power2(16) == 0x10000 by { assert Power2(16) == 32 * Power2(11); }
  }

  const MARKER := "\n[OUTPUT TRUNCATED - SIZE LIMIT EXCEEDED]"

  /** `text[:max]`; a negative bound counts from the end. */
  function Prefix(text: string, max: int): string {
    if max >= |text| then text
    else if max >= 0 then text[..max]
    else if -max <= |text| then text[..|text| + max]
    else ""
  }

  datatype Cut = Cut(content: string, truncated: bool)

  /** `_truncate_if_needed` */
  function Truncate(text: string, max: int): Cut {
    if Bytes(text) > max then Cut(Prefix(text, max) + MARKER, true) else Cut(text, false)
  }

  predicate IsAscii(c: char) {
    c as int < 0x80
  }

  predicate AllAscii(text: string) {
    forall i :: 0 <= i < |text| ==> IsAscii(text[i])
  }

  lemma {:induction false} BytesAppend(x: string, y: string)
    ensures Bytes(x + y) == Bytes(x) + Bytes(y)
    decreases |y|
  {
    if y == "" {
      assert x + y == x;
    } else {
      var n := |y| - 1;
      BytesAppend(x, y[..n]);
      assert (x + y)[..|x + y| - 1] == x + y[..n];
    }
  }

  lemma {:induction false} BytesBound(text: string)
    ensures Bytes(text) <= 4 * |text|
    ensures AllAscii(text) ==> Bytes(text) == |text|
    ensures (forall i :: 0 <= i < |text| ==> CharBytes(text[i]) == 4) ==> Bytes(text) == 4 * |text|
    decreases |text|
  {
    if text != "" {
      BytesBound(text[..|text| - 1]);
    }
  }

  lemma MarkerIsAscii()
    ensures AllAscii(MARKER) && Bytes(MARKER) == |MARKER|
  {
    BytesBound(MARKER);
  }

  /** A text is kept exactly when its encoding fits. Otherwise what remains is a
      prefix of it and the marker; the prefix has as many characters as the limit
      has octets, so that the whole text stays when its characters fit. */
  lemma TruncationMeans(text: string, max: nat)
    ensures var r := Truncate(text, max);
      && (r.truncated <==> Bytes(text) > max)
      && (!r.truncated ==> r.content == text)
      && (r.truncated ==>
            exists p :: p <= text && r.content == p + MARKER && |p| == if |text| <= max then |text| else max)
      && (r.truncated && |text| <= max ==> r.content == text + MARKER)
  {
    var p := Prefix(text, max);
    assert p <= text && |p| == if |text| <= max then |text| else max;
  }

  /** Under a negative limit every text is cut: that many characters go from its end, and
      all of them from a shorter one. */
  lemma NegativeLimit(text: string, max: int)
    requires max < 0
    ensures var r := Truncate(text, max);
      && r.truncated
      && exists p :: p <= text && r.content == p + MARKER && |text| - |p| == if -max <= |text| then -max else |text|
  {
    var p := Prefix(text, max);
    assert p <= text && Truncate(text, max).content == p + MARKER;
  }

  /** The size of a truncated text, and of one in ASCII. */
  lemma TruncationBound(text: string, max: nat)
    ensures Bytes(Truncate(text, max).content) <= 4 * max + |MARKER|
    ensures AllAscii(text) ==> Bytes(Truncate(text, max).content) <= max + |MARKER|
  {
    MarkerIsAscii();
    var p := Prefix(text, max);
    BytesAppend(p, MARKER);
    BytesBound(p);
  }

  /** Both bounds are met: by a long text of four-octet characters, and by a long one
      in ASCII. */
  lemma BoundIsTight(text: string, max: nat)
    requires |text| > max
    ensures (forall i :: 0 <= i < |text| ==> CharBytes(text[i]) == 4) ==>
      Bytes(Truncate(text, max).content) == 4 * max + |MARKER|
    ensures AllAscii(text) ==> Bytes(Truncate(text, max).content) == max + |MARKER|
  {
    MarkerIsAscii();
    var p := text[..max];
    BytesAppend(p, MARKER);
    BytesBound(p);
  }

  // ---------------------------------------------------------------------------
  // Events
  // ---------------------------------------------------------------------------

  datatype OutputType = STDOUT | STDERR | RESULT | TRACEBACK

  datatype Metadata =
    | OfStream(truncated: bool, stream: string)
    | OfStatus(truncated: bool, status: string)
    | Plain(truncated: bool)

  /** What one call is about; the events carry it along. */
  datatype Source = Source(execution: string, session: string, notebook: Option<nat>, cell: Option<string>)

  datatype Event = Event(source: Source, kind: OutputType, content: string, sequence: int, metadata: Metadata)

  datatype Metrics = Metrics(
    execution: string, total: nat, stdoutCount: nat, stderrCount: nat,
    resultPresent: bool, tracebackPresent: bool, truncated: bool, timeMs: real)

  datatype Streams = Streams(stdout: string, stderr: string, traceback: Option<string>, status: string)

  predicate HasTraceback(given: Streams) {
    given.traceback.Some? && given.traceback.value != ""
  }

  /** Which streams give an event. */
  predicate Gives(given: Streams, kind: OutputType) {
    match kind
    case STDOUT => given.stdout != ""
    case STDERR => given.stderr != ""
    case TRACEBACK => HasTraceback(given)
    case RESULT => (given.status == "ok" || given.status == "succeeded") && given.stdout == "" && !HasTraceback(given)
  }

  function Rank(kind: OutputType): nat {
    match kind case STDOUT => 0 case STDERR => 1 case TRACEBACK => 2 case RESULT => 3
  }

  /** The text that an event of this kind carries, before truncation. */
  function TextOf(given: Streams, kind: OutputType): string {
    match kind
    case STDOUT => given.stdout
    case STDERR => given.stderr
    case TRACEBACK => if given.traceback.Some? then given.traceback.value else ""
    case RESULT => "Success"
  }

  function MetadataOf(given: Streams, kind: OutputType, truncated: bool): Metadata {
    match kind
    case STDOUT => OfStream(truncated, "stdout")
    case STDERR => OfStream(truncated, "stderr")
    case TRACEBACK => OfStatus(truncated, given.status)
    case RESULT => Plain(truncated)
  }

  /** The event is numbered with its place, and carries its stream, truncated unless
      it is the result tag. */
  predicate RightEvent(e: Event, source: Source, given: Streams, max: int, i: nat) {
    && e.source == source && e.sequence == i + 1 && Gives(given, e.kind)
    && e.metadata == MetadataOf(given, e.kind, e.metadata.truncated)
    && (e.kind == RESULT ==> e.content == "Success" && !e.metadata.truncated)
    && (e.kind != RESULT ==> Cut(e.content, e.metadata.truncated) == Truncate(TextOf(given, e.kind), max))
  }

  function Count(events: seq<Event>, kind: OutputType): nat {
    if events == [] then 0 else Count(events[..|events| - 1], kind) + if events[|events| - 1].kind == kind then 1 else 0
  }

  predicate AnyTruncated(events: seq<Event>) {
    exists i :: 0 <= i < |events| && events[i].metadata.truncated
  }

  /** The metrics recounted from the events. */
  function Recount(execution: string, events: seq<Event>, timeMs: real): Metrics {
    Metrics(execution, |events|, Count(events, STDOUT), Count(events, STDERR),
            Count(events, RESULT) > 0, Count(events, TRACEBACK) > 0, AnyTruncated(events), timeMs)
  }

  /** Numbered from one without gaps, in the order of the kinds, one event for each
      stream that gives one. */
  ghost predicate RightEvents(events: seq<Event>, source: Source, given: Streams, max: int) {
    && (forall i :: 0 <= i < |events| ==> RightEvent(events[i], source, given, max, i))
    && (forall i, j :: 0 <= i < j < |events| ==> Rank(events[i].kind) < Rank(events[j].kind))
    && (forall kind :: Gives(given, kind) ==> exists i :: 0 <= i < |events| && events[i].kind == kind)
  }

  lemma CountAppend(events: seq<Event>, e: Event, kind: OutputType)
    ensures Count(events + [e], kind) == Count(events, kind) + if e.kind == kind then 1 else 0
  {
    assert (events + [e])[..|events|] == events;
  }

  lemma RecountAppend(execution: string, events: seq<Event>, e: Event, timeMs: real)
    ensures var m := Recount(execution, events, timeMs);
      Recount(execution, events + [e], timeMs) == m.(
        total := m.total + 1,
        stdoutCount := m.stdoutCount + if e.kind == STDOUT then 1 else 0,
        stderrCount := m.stderrCount + if e.kind == STDERR then 1 else 0,
        resultPresent := m.resultPresent || e.kind == RESULT,
        tracebackPresent := m.tracebackPresent || e.kind == TRACEBACK,
        truncated := m.truncated || e.metadata.truncated)
  {
    forall kind ensures Count(events + [e], kind) == Count(events, kind) + if e.kind == kind then 1 else 0 {
      CountAppend(events, e, kind);
    }
    hide Count;
    var s := events + [e];
    assert s[|events|] == e;
    assert forall i :: 0 <= i < |events| ==> s[i] == events[i];
  }

  /** The events for kinds below `rank` are in place. */
  ghost predicate RightSoFar(events: seq<Event>, source: Source, given: Streams, max: int, rank: nat) {
    && (forall i :: 0 <= i < |events| ==> RightEvent(events[i], source, given, max, i) && Rank(events[i].kind) < rank)
    && (forall i, j :: 0 <= i < j < |events| ==> Rank(events[i].kind) < Rank(events[j].kind))
    && (forall kind :: Gives(given, kind) && Rank(kind) < rank ==>
          exists i :: 0 <= i < |events| && events[i].kind == kind)
  }

  lemma AppendRight(events: seq<Event>, e: Event, source: Source, given: Streams, max: int)
    requires RightSoFar(events, source, given, max, Rank(e.kind)) && RightEvent(e, source, given, max, |events|)
    ensures RightSoFar(events + [e], source, given, max, Rank(e.kind) + 1)
  {
    hide RightEvent, Gives;
    var s := events + [e];
    assert s[|events|] == e;
    assert forall i :: 0 <= i < |events| ==> s[i] == events[i];
    forall kind | Gives(given, kind) && Rank(kind) < Rank(e.kind) + 1
      ensures exists i :: 0 <= i < |s| && s[i].kind == kind
    {
      if kind != e.kind {
        var i :| 0 <= i < |events| && events[i].kind == kind;
        assert s[i].kind == kind;
      }
    }
  }

  lemma SkipRight(events: seq<Event>, kind: OutputType, source: Source, given: Streams, max: int)
    requires RightSoFar(events, source, given, max, Rank(kind)) && !Gives(given, kind)
    ensures RightSoFar(events, source, given, max, Rank(kind) + 1)
  {
    hide RightEvent, Gives;
    forall other | Gives(given, other) && Rank(other) < Rank(kind) + 1
      ensures exists i :: 0 <= i < |events| && events[i].kind == other
    {
      assert Rank(other) == Rank(kind) ==> other == kind;
    }
  }

  lemma AllRight(events: seq<Event>, source: Source, given: Streams, max: int)
    requires RightSoFar(events, source, given, max, 4)
    ensures RightEvents(events, source, given, max)
  {
    hide RightEvent, Gives;
  }

  /** `create_output_events` */
  method CreateOutputEvents(source: Source, given: Streams, timeMs: real, max: int)
    returns (events: seq<Event>, metrics: Metrics)
    ensures RightEvents(events, source, given, max)
    ensures metrics == Recount(source.execution, events, timeMs)
  {
    hide RightSoFar, RightEvents, Recount, Truncate, Count;
    events := [];
    var seqNo := 1;
    var stdoutCount, stderrCount, resultPresent, tracebackPresent, isTruncated := 0, 0, false, false, false;
    NoEvents(source, given, timeMs, max);
    if given.stdout != "" {
      stdoutCount := stdoutCount + 1;
      var cut := Truncate(given.stdout, max);
      if cut.truncated {
        isTruncated := true;
      }
      var e := Event(source, STDOUT, cut.content, seqNo, OfStream(cut.truncated, "stdout"));
      AppendRight(events, e, source, given, max);
      RecountAppend(source.execution, events, e, timeMs);
      events := events + [e];
      seqNo := seqNo + 1;
    } else {
      SkipRight(events, STDOUT, source, given, max);
    }
    if given.stderr != "" {
      stderrCount := stderrCount + 1;
      var cut := Truncate(given.stderr, max);
      if cut.truncated {
        isTruncated := true;
      }
      var e := Event(source, STDERR, cut.content, seqNo, OfStream(cut.truncated, "stderr"));
      AppendRight(events, e, source, given, max);
      RecountAppend(source.execution, events, e, timeMs);
      events := events + [e];
      seqNo := seqNo + 1;
    } else {
      SkipRight(events, STDERR, source, given, max);
    }
    if HasTraceback(given) {
      tracebackPresent := true;
      var cut := Truncate(given.traceback.value, max);
      if cut.truncated {
        isTruncated := true;
      }
      var e := Event(source, TRACEBACK, cut.content, seqNo, OfStatus(cut.truncated, given.status));
      AppendRight(events, e, source, given, max);
      RecountAppend(source.execution, events, e, timeMs);
      events := events + [e];
      seqNo := seqNo + 1;
    } else {
      SkipRight(events, TRACEBACK, source, given, max);
    }
    if (given.status == "ok" || given.status == "succeeded") && given.stdout == "" && !HasTraceback(given) {
      resultPresent := true;
      var e := Event(source, RESULT, "Success", seqNo, Plain(false));
      AppendRight(events, e, source, given, max);
      RecountAppend(source.execution, events, e, timeMs);
      events := events + [e];
      seqNo := seqNo + 1;
    } else {
      SkipRight(events, RESULT, source, given, max);
    }
    AllRight(events, source, given, max);
    metrics := Metrics(
      source.execution, |events|, stdoutCount, stderrCount, resultPresent, tracebackPresent, isTruncated, timeMs);
  }

  lemma NoEvents(source: Source, given: Streams, timeMs: real, max: int)
    ensures RightSoFar([], source, given, max, 0)
    ensures Recount(source.execution, [], timeMs) == Metrics(source.execution, 0, 0, 0, false, false, false, timeMs)
  {
  }

  // ---------------------------------------------------------------------------
  // What the events say
  // ---------------------------------------------------------------------------

  /** A run that ended well and printed nothing. */
  predicate SilentSuccess(given: Streams) {
    (given.status == "ok" || given.status == "succeeded") && given.stdout == "" && !Traced(given)
  }

  predicate Traced(given: Streams) {
    given.traceback.Some? && given.traceback.value != ""
  }

  ghost predicate HasKind(events: seq<Event>, kind: OutputType) {
    exists i :: 0 <= i < |events| && events[i].kind == kind
  }

  predicate Carries(e: Event, text: string, max: int) {
    e.content == Truncate(text, max).content && e.metadata.truncated == Truncate(text, max).truncated
  }

  /** The events of a call: one for its output, its error output and its traceback if
      these are not empty, in this order, each truncated; and a tag at the end for a
      call that ended well and left neither output nor traceback. Each carries its place,
      counted from one, and what the call is about. */
  lemma EventsMean(events: seq<Event>, source: Source, given: Streams, max: int, i: nat)
    requires RightEvents(events, source, given, max) && i < |events|
    ensures HasKind(events, STDOUT) <==> given.stdout != ""
    ensures HasKind(events, STDERR) <==> given.stderr != ""
    ensures HasKind(events, TRACEBACK) <==> Traced(given)
    ensures HasKind(events, RESULT) <==> SilentSuccess(given)
    ensures events[i].sequence == i + 1 && events[i].source == source
    ensures match events[i].kind
      case STDOUT => i == 0 && Carries(events[i], given.stdout, max)
        && events[i].metadata == OfStream(events[i].metadata.truncated, "stdout")
      case STDERR => Carries(events[i], given.stderr, max) && (i == 0 || (i == 1 && events[0].kind == STDOUT))
        && events[i].metadata == OfStream(events[i].metadata.truncated, "stderr")
      case TRACEBACK => given.traceback.Some? && Carries(events[i], given.traceback.value, max) && i == |events| - 1
        && events[i].metadata == OfStatus(events[i].metadata.truncated, given.status)
      case RESULT => events[i] == Event(source, RESULT, "Success", i + 1, Plain(false)) && i == |events| - 1
  {
    KindsGiven(events, source, given, max);
    var e := events[i];
    assert RightEvent(e, source, given, max, i);
    assert i > 0 ==> Rank(events[i - 1].kind) < Rank(e.kind);
    assert i > 1 ==> Rank(events[i - 2].kind) < Rank(events[i - 1].kind);
    assert i == 1 ==> events[i - 1] == events[0];
    assert i < |events| - 1 ==> Rank(e.kind) < Rank(events[i + 1].kind);
    assert i < |events| - 1 ==> RightEvent(events[i + 1], source, given, max, i + 1);
    hide Truncate, HasKind, RightEvents;
  }

  lemma KindsGiven(events: seq<Event>, source: Source, given: Streams, max: int)
    requires RightEvents(events, source, given, max)
    ensures forall kind :: HasKind(events, kind) <==> Gives(given, kind)
  {
    forall kind ensures HasKind(events, kind) <==> Gives(given, kind) {
      if i :| 0 <= i < |events| && events[i].kind == kind {
        assert RightEvent(events[i], source, given, max, i);
      }
      hide RightEvent, Gives;
    }
  }

  /** How often a stream that is there is counted. */
  function OneIf(there: bool): nat {
    if there then 1 else 0
  }

  predicate TooLong(text: string, max: int) {
    Bytes(text) > max
  }

  /** The metrics, by what the call was given: which streams are there, and whether one
      of them is too long. */
  lemma MetricsMean(events: seq<Event>, source: Source, given: Streams, max: int, timeMs: real)
    requires RightEvents(events, source, given, max)
    ensures Recount(source.execution, events, timeMs) == Metrics(
      source.execution,
      OneIf(given.stdout != "") + OneIf(given.stderr != "") + OneIf(Traced(given)) + OneIf(SilentSuccess(given)),
      OneIf(given.stdout != ""), OneIf(given.stderr != ""), SilentSuccess(given), Traced(given),
      || (given.stdout != "" && TooLong(given.stdout, max)) || (given.stderr != "" && TooLong(given.stderr, max))
      || (Traced(given) && TooLong(given.traceback.value, max)),
      timeMs)
  {
    KindsGiven(events, source, given, max);
    forall kind ensures Count(events, kind) == OneIf(Gives(given, kind)) {
      CountOne(events, kind);
    }
    CountAll(events);
    TruncatedMeans(events, source, given, max);
    hide Count, RightEvents, AnyTruncated, HasKind;
  }

  lemma {:induction false} CountOne(events: seq<Event>, kind: OutputType)
    requires forall i, j :: 0 <= i < j < |events| ==> Rank(events[i].kind) < Rank(events[j].kind)
    ensures Count(events, kind) == OneIf(HasKind(events, kind))
  {
    if events != [] {
      var n := |events| - 1;
      CountOne(events[..n], kind);
      assert events[n].kind == kind ==> forall i :: 0 <= i < n ==> events[i].kind != kind;
      assert HasKind(events, kind) <==> events[n].kind == kind || HasKind(events[..n], kind) by {
        if i :| 0 <= i < n && events[i].kind == kind {
          assert events[..n][i].kind == kind;
        }
      }
    }
  }

  lemma {:induction false} CountAll(events: seq<Event>)
    ensures |events| == Count(events, STDOUT) + Count(events, STDERR) + Count(events, TRACEBACK) + Count(events, RESULT)
  {
    if events != [] {
      CountAll(events[..|events| - 1]);
    }
  }

  lemma TruncatedMeans(events: seq<Event>, source: Source, given: Streams, max: int)
    requires RightEvents(events, source, given, max)
    ensures AnyTruncated(events) <==>
      || (given.stdout != "" && TooLong(given.stdout, max)) || (given.stderr != "" && TooLong(given.stderr, max))
      || (Traced(given) && TooLong(given.traceback.value, max))
  {
    assert forall i :: 0 <= i < |events| ==> RightEvent(events[i], source, given, max, i);
    KindsGiven(events, source, given, max);
    assert Gives(given, STDOUT) ==> HasKind(events, STDOUT);
    assert Gives(given, STDERR) ==> HasKind(events, STDERR);
    assert Gives(given, TRACEBACK) ==> HasKind(events, TRACEBACK);
    hide RightEvents, Bytes, Prefix;
  }
}
