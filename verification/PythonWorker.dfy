/** The worker process: its receive loop, and the loop that verifies packages. */
module PythonWorker {
  import opened Text
  import opened PackageNames
  import opened SessionProtocol

  // ---------------------------------------------------------------------------
  // The receive loop
  // ---------------------------------------------------------------------------

  datatype Service = Service(ns: Namespace, outbox: seq<Message>, alive: bool)

  /** Serving a queue of requests: one namespace handed from each to the next, one
      reply to each, until one of them kills the process. */
  function Served(w: World, ns: Namespace, inbox: seq<Request>): Service
    decreases |inbox|
  {
    if inbox == [] then Service(ns, [], true)
    else
      var before := Served(w, ns, inbox[..|inbox| - 1]);
      if !before.alive then before
      else
        var r := inbox[|inbox| - 1];
        match w.run(before.ns, r.task)
        case Replies(ns', reply) => Service(ns', before.outbox + [Message(r.id, reply)], true)
        case Dies => before.(alive := false)
        case Breaks(reply) => Service(before.ns, before.outbox + [Message(r.id, reply)], false)
  }

  lemma {:induction false} ServedStops(w: World, ns: Namespace, inbox: seq<Request>, n: nat)
    requires n <= |inbox| && !Served(w, ns, inbox[..n]).alive
    ensures Served(w, ns, inbox) == Served(w, ns, inbox[..n])
  {
    if n < |inbox| {
      assert inbox[..|inbox| - 1][..n] == inbox[..n];
      ServedStops(w, ns, inbox[..|inbox| - 1], n);
    } else {
      assert inbox[..n] == inbox;
    }
  }

  /** A message to the worker: a request, or `None` or the stop command. */
  datatype Inbound = Ask(r: Request) | Stop

  /** What is asked of it before it is told to stop. */
  function Asked(inbox: seq<Inbound>): seq<Request> {
    if inbox == [] || inbox[0].Stop? then [] else [inbox[0].r] + Asked(inbox[1..])
  }

  lemma {:induction false} AskedIs(inbox: seq<Inbound>, n: nat)
    requires n <= |inbox| && forall i :: 0 <= i < n ==> inbox[i].Ask?
    ensures Asked(inbox[..n]) <= Asked(inbox) && |Asked(inbox[..n])| == n
    ensures n < |inbox| && inbox[n].Ask? ==> Asked(inbox[..n + 1]) == Asked(inbox[..n]) + [inbox[n].r]
    ensures n == |inbox| || inbox[n].Stop? ==> Asked(inbox) == Asked(inbox[..n])
    decreases n
  {
    if n > 0 {
      AskedIs(inbox[1..], n - 1);
      assert inbox[..n][1..] == inbox[1..][..n - 1];
      if n < |inbox| {
        assert inbox[..n + 1][1..] == inbox[1..][..n];
      }
    }
  }

  lemma ServedMore(w: World, ns: Namespace, inbox: seq<Request>, r: Request)
    ensures var b := Served(w, ns, inbox);
      Served(w, ns, inbox + [r]) ==
        if !b.alive then b else
        match w.run(b.ns, r.task)
        case Replies(ns', reply) => Service(ns', b.outbox + [Message(r.id, reply)], true)
        case Dies => b.(alive := false)
        case Breaks(reply) => Service(b.ns, b.outbox + [Message(r.id, reply)], false)
  {
    assert (inbox + [r])[..|inbox|] == inbox;
  }

  /** `run_python_worker` on the messages it receives: it serves what it is asked
      until it is told to stop, or a request ends it. */
  method RunWorker(w: World, inbox: seq<Inbound>) returns (globals: Namespace, outbox: seq<Message>, running: bool)
    ensures var s := Served(w, FRESH_NAMESPACE, Asked(inbox));
      globals == s.ns && outbox == s.outbox && (running <==> s.alive && Stop !in inbox)
  {
    globals, outbox, running := FRESH_NAMESPACE, [], true;
    for n := 0 to |inbox|
      invariant running && forall i :: 0 <= i < n ==> inbox[i].Ask?
      invariant Service(globals, outbox, true) == Served(w, FRESH_NAMESPACE, Asked(inbox[..n]))
    {
      hide Served, Asked;
      AskedIs(inbox, n);
      if inbox[n].Stop? {
        running := false;
        return;
      }
      var r := inbox[n].r;
      ServedMore(w, FRESH_NAMESPACE, Asked(inbox[..n]), r);
      match w.run(globals, r.task) {
        case Replies(ns, reply) =>
          globals := ns;
          outbox := outbox + [Message(r.id, reply)];
        case Dies =>
          running := false;
          EndsThere(w, inbox, n);
          return;
        case Breaks(reply) =>
          outbox := outbox + [Message(r.id, reply)];
          running := false;
          EndsThere(w, inbox, n);
          return;
      }
    }
    AskedIs(inbox, |inbox|);
    assert inbox[..|inbox|] == inbox;
  }

  lemma EndsThere(w: World, inbox: seq<Inbound>, n: nat)
    requires n < |inbox| && (forall i :: 0 <= i <= n ==> inbox[i].Ask?)
    requires !Served(w, FRESH_NAMESPACE, Asked(inbox[..n + 1])).alive
    ensures Served(w, FRESH_NAMESPACE, Asked(inbox)) == Served(w, FRESH_NAMESPACE, Asked(inbox[..n + 1]))
  {
    AskedIs(inbox, n + 1);
    var all := Asked(inbox);
    assert all[..n + 1] == Asked(inbox[..n + 1]);
    ServedStops(w, FRESH_NAMESPACE, all, n + 1);
  }

  /** Replies come back one for each request, in order. The id of a reply is that of
      the request it answers: the reply of the outermost handler does not carry it, so
      there it is this model's own record. Where the worker ended, the request that
      ended it is answered exactly if the outermost handler did it, and those behind
      it are not. */
  lemma {:induction false} RepliesInOrder(w: World, ns: Namespace, inbox: seq<Request>)
    ensures var s := Served(w, ns, inbox);
      && |s.outbox| <= |inbox| && (s.alive ==> |s.outbox| == |inbox|)
      && (forall i :: 0 <= i < |s.outbox| ==> s.outbox[i].id == inbox[i].id)
      && (!s.alive ==> exists k :: 0 <= k < |inbox| && EndedBy(w, ns, inbox, k, |s.outbox|))
  {
    if inbox != [] {
      var init := inbox[..|inbox| - 1];
      RepliesInOrder(w, ns, init);
      var b := Served(w, ns, init);
      if b.alive {
        assert !Served(w, ns, inbox).alive ==> EndedBy(w, ns, inbox, |inbox| - 1, |Served(w, ns, inbox).outbox|);
      } else {
        var k :| 0 <= k < |init| && EndedBy(w, ns, init, k, |b.outbox|);
        assert init[..k] == inbox[..k];
        assert EndedBy(w, ns, inbox, k, |b.outbox|);
      }
    }
  }

  /** The k-th request is the first that was not simply answered, and `replies` went
      out. */
  predicate EndedBy(w: World, ns: Namespace, inbox: seq<Request>, k: nat, replies: nat)
    requires k < |inbox|
  {
    var before := Served(w, ns, inbox[..k]);
    var o := w.run(before.ns, inbox[k].task);
    before.alive && !o.Replies? && replies == if o.Breaks? then k + 1 else k
  }

  function Serves(n: nat): seq<Label> {
    seq(n, i => Serve)
  }

  /** The loop and the transition system agree: letting the worker of the session
      protocol serve all it has been sent is running the loop on it. */
  lemma {:induction false} LoopIsServe(w: World, s: State, n: nat)
    requires s.alive && n <= |s.pipe.toWorker| && Served(w, s.ns, s.pipe.toWorker[..n]).alive
    ensures Run(w, s, Serves(n))
    ensures var t, v := After(w, s, Serves(n)), Served(w, s.ns, s.pipe.toWorker[..n]);
      && t.alive && t.ns == v.ns
      && t.pipe.toWorker == s.pipe.toWorker[n..] && t.pipe.toParent == s.pipe.toParent + v.outbox
  {
    if n > 0 {
      var sent := s.pipe.toWorker;
      assert sent[..n][..n - 1] == sent[..n - 1];
      LoopIsServe(w, s, n - 1);
      ServesSplit(w, s, n - 1);
    }
  }

  lemma {:induction false} ServesSplit(w: World, s: State, n: nat)
    requires Run(w, s, Serves(n)) && Enabled(w, After(w, s, Serves(n)), Serve)
    ensures Run(w, s, Serves(n + 1))
    ensures After(w, s, Serves(n + 1)) == Next(w, After(w, s, Serves(n)), Serve)
    decreases n
  {
    assert Serves(n + 1)[1..] == Serves(n);
    if n == 0 {
      assert Serves(1) == [Serve];
      assert Run(w, Next(w, s, Serve), []);
    } else {
      assert Serves(n)[1..] == Serves(n - 1);
      ServesSplit(w, Next(w, s, Serve), n - 1);
    }
  }

  // ---------------------------------------------------------------------------
  // Verifying packages
  // ---------------------------------------------------------------------------

  /** What `importlib.metadata.version` knows, by exact name. */
  type Installed = string -> Option<string>

  datatype Package = Package(name: string, spec: string)
  datatype Problem = NotInstalled(name: string) | WrongVersion(name: string, installed: string, required: string)

  function InstalledVersion(installed: Installed, name: string): Option<string> {
    var byCanonical := installed(Canonical(Strip(name)));
    if byCanonical.Some? then byCanonical else installed(Strip(name))
  }

  /** The package is there, and in the very version if its specifier begins with "==". */
  predicate Satisfied(installed: Installed, p: Package) {
    var version, spec := InstalledVersion(installed, p.name), Strip(p.spec);
    version.Some? && ("==" <= spec ==> version.value == Strip(spec[2..]))
  }

  function ProblemOf(installed: Installed, p: Package): seq<Problem> {
    var version := InstalledVersion(installed, p.name);
    if version == None then [NotInstalled(Strip(p.name))]
    else if Satisfied(installed, p) then []
    else [WrongVersion(Strip(p.name), version.value, Strip(p.spec))]
  }

  function Problems(installed: Installed, ps: seq<Package>): seq<Problem> {
    if ps == [] then [] else Problems(installed, ps[..|ps| - 1]) + ProblemOf(installed, ps[|ps| - 1])
  }

  function Versions(installed: Installed, ps: seq<Package>): map<string, string> {
    if ps == [] then map[]
    else
      var before, name := Versions(installed, ps[..|ps| - 1]), Strip(ps[|ps| - 1].name);
      var version := InstalledVersion(installed, name);
      if version == None then before else before[name := version.value]
  }

  lemma LookupIgnoresBlanks(installed: Installed, name: string)
    ensures InstalledVersion(installed, Strip(name)) == InstalledVersion(installed, name)
  {
    StripStripped(name);
    StripStripped(Strip(name));
  }

  /** `verify_packages` */
  method VerifyPackages(installed: Installed, packages: seq<Package>)
    returns (satisfied: bool, resolved: map<string, string>, problems: seq<Problem>)
    ensures satisfied <==> problems == []
    ensures problems == Problems(installed, packages)
    ensures resolved == Versions(installed, packages)
  {
    satisfied, resolved, problems := true, map[], [];
    for i := 0 to |packages|
      invariant satisfied <==> problems == []
      invariant problems == Problems(installed, packages[..i])
      invariant resolved == Versions(installed, packages[..i])
    {
      assert packages[..i + 1][..i] == packages[..i];
      LookupIgnoresBlanks(installed, packages[i].name);
      hide Strip, InstalledVersion;
      var name, spec := Strip(packages[i].name), Strip(packages[i].spec);
      var version := InstalledVersion(installed, name);
      if version == None {
        satisfied := false;
        problems := problems + [NotInstalled(name)];
      } else {
        resolved := resolved[name := version.value];
        if "==" <= spec {
          var target := Strip(spec[2..]);
          if version.value != target {
            satisfied := false;
            problems := problems + [WrongVersion(name, version.value, spec)];
          }
        }
      }
    }
    assert packages[..|packages|] == packages;
  }

  lemma ProblemMeans(installed: Installed, p: Package)
    ensures ProblemOf(installed, p) == [] <==> Satisfied(installed, p)
    ensures forall q :: q in ProblemOf(installed, p) ==> q.name == Strip(p.name) && !Satisfied(installed, p)
  {
    hide Strip, InstalledVersion;
  }

  /** There are no problems exactly when every package is satisfied, and every
      problem is that of a package. */
  lemma {:induction false} ProblemsMean(installed: Installed, ps: seq<Package>)
    ensures Problems(installed, ps) == [] <==> forall i :: 0 <= i < |ps| ==> Satisfied(installed, ps[i])
    ensures forall q :: q in Problems(installed, ps) ==>
              exists i :: 0 <= i < |ps| && !Satisfied(installed, ps[i]) && q.name == Strip(ps[i].name)
  {
    hide Strip, Satisfied, ProblemOf;
    if ps != [] {
      var init := ps[..|ps| - 1];
      ProblemsMean(installed, init);
      ProblemMeans(installed, ps[|ps| - 1]);
      assert forall i :: 0 <= i < |init| ==> init[i] == ps[i];
    }
  }

  /** The problems, in the order of the packages: a package that is not installed, or one
      in another version than its "==" asks for, gives one, and any other none. */
  lemma ProblemsInOrder(installed: Installed, ps: seq<Package>, p: Package)
    ensures var version, spec := InstalledVersion(installed, p.name), Strip(p.spec);
      Problems(installed, []) == [] &&
      Problems(installed, ps + [p]) == Problems(installed, ps) +
        if version == None then [NotInstalled(Strip(p.name))]
        else if "==" <= spec && version.value != Strip(spec[2..])
        then [WrongVersion(Strip(p.name), version.value, spec)]
        else []
  {
    hide Strip, InstalledVersion;
    assert (ps + [p])[..|ps|] == ps;
  }

  /** A name is looked up in small letters with hyphens for underscores, and as it is
      given only if there is nothing under that. */
  lemma LookupMeans(installed: Installed, name: string, canonical: string)
    requires |canonical| == |Strip(name)|
    requires forall i :: 0 <= i < |canonical| ==>
      var c := Strip(name)[i];
      if c == '_' then canonical[i] == '-'
      else if 'A' <= c <= 'Z' then 'a' <= canonical[i] <= 'z' && canonical[i] - 'a' == c - 'A'
      else canonical[i] == c
    ensures installed(canonical).Some? ==> InstalledVersion(installed, name) == installed(canonical)
    ensures installed(canonical).None? ==> InstalledVersion(installed, name) == installed(Strip(name))
  {
    hide Strip;
    assert canonical == Canonical(Strip(name));
  }

  /** A version is recorded for exactly the packages that are installed. */
  lemma {:induction false} VersionsMean(installed: Installed, ps: seq<Package>, n: string)
    ensures n in Versions(installed, ps) <==>
              InstalledVersion(installed, n).Some? && exists i :: 0 <= i < |ps| && Strip(ps[i].name) == n
    ensures n in Versions(installed, ps) ==> InstalledVersion(installed, n) == Some(Versions(installed, ps)[n])
  {
    hide Strip, InstalledVersion;
    if ps != [] {
      var init := ps[..|ps| - 1];
      VersionsMean(installed, init, n);
      assert forall i :: 0 <= i < |init| ==> init[i] == ps[i];
    }
  }

  /** A specifier that begins with "==" and has a second clause can be satisfied by
      no version that has no comma: the rest of the text is compared literally. */
  lemma ExactThenMore(installed: Installed, p: Package, k: nat)
    requires "==" <= Strip(p.spec) && 2 <= k < |Strip(p.spec)| && Strip(p.spec)[k] == ','
    requires InstalledVersion(installed, p.name).Some? && ',' !in InstalledVersion(installed, p.name).value
    ensures !Satisfied(installed, p)
  {
    StripKeeps(Strip(p.spec)[2..], k - 2);
  }
}
