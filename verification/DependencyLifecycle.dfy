/** A dependency operation: the record, the installation that drives it, and the
    cancellations that race with it. */
module DependencyLifecycle {
  import opened Text
  import opened PythonWorker
  import Resolver

  datatype DepStatus = Requested | Validating | Resolving | Installing | Verifying | Ready | Failed | Cancelled {
    predicate Terminal() {
      Ready? || Failed? || Cancelled?
    }

    function Rank(): nat {
      match this
      case Requested => 0 case Validating => 1 case Resolving => 2 case Installing => 3 case Verifying => 4
      case _ => 5
    }
  }

  type Time = int

  /** A stored record: whether an error message is there, not what it says. */
  datatype Operation = Operation(
    status: DepStatus, resolvedVersions: Option<map<string, string>>, failed: bool, completedAt: Option<Time>)

  /** The other entries of a table. */
  ghost function Others<V>(table: map<string, V>, id: string): map<string, V> {
    table - {id}
  }

  const REQUESTED := Operation(Requested, None, false, None)

  /** The stored records, each written only by `update_status`. */
  class OperationRepository {
    var records: map<string, Operation>
    ghost var trails: map<string, seq<DepStatus>>   // what was written to each

    constructor ()
      ensures records == map[] && trails == map[]
    {
      records := map[];
      trails := map[];
    }

    method Create(id: string)
      modifies this
      ensures id in records && records[id] == REQUESTED && Others(records, id) == old(Others(records, id))
      ensures id in trails && trails[id] == [Requested] && Others(trails, id) == old(Others(trails, id))
    {
      records := records[id := REQUESTED];
      trails := trails[id := [Requested]];
    }

    /** A completion time that is given counts; otherwise a terminal status sets one. */
    method UpdateStatus(id: string, newStatus: DepStatus, versions: Option<map<string, string>>, error: bool,
                        completedAt: Option<Time>, now: Time) returns (found: bool)
      modifies this
      ensures found <==> id in old(records)
      ensures !found ==> records == old(records) && trails == old(trails)
      ensures found ==> id in records && records == old(records)[id := records[id]]
      ensures found ==>
        var was, op := old(records)[id], records[id];
        && op.status == newStatus && op.resolvedVersions == (if versions.Some? then versions else was.resolvedVersions)
        && op.failed == (error || was.failed)
        && op.completedAt ==
             if completedAt.Some? then completedAt else if newStatus.Terminal() then Some(now) else was.completedAt
      ensures found && id in old(trails) ==> trails == old(trails)[id := old(trails)[id] + [newStatus]]
    {
      found := id in records;
      if !found {
        return;
      }
      var op := records[id].(status := newStatus);
      if versions.Some? {
        op := op.(resolvedVersions := versions);
      }
      if error {
        op := op.(failed := true);
      }
      if completedAt.Some? {
        op := op.(completedAt := completedAt);
      } else if newStatus == Ready || newStatus == Failed || newStatus == Cancelled {
        op := op.(completedAt := Some(now));
      }
      records := records[id := op];
      if id in trails {
        trails := trails[id := trails[id] + [newStatus]];
      }
    }

    /** The same for a record that is there. */
    method Advance(id: string, newStatus: DepStatus, versions: Option<map<string, string>>, error: bool, now: Time)
      requires id in records && id in trails
      modifies this
      ensures id in records && Others(records, id) == old(Others(records, id))
      ensures id in trails && Others(trails, id) == old(Others(trails, id))
      ensures trails[id] == old(trails[id]) + [newStatus]
      ensures records[id] == Operation(
        newStatus,
        if versions.Some? then versions else old(records[id]).resolvedVersions,
        error || old(records[id]).failed,
        if newStatus.Terminal() then Some(now) else old(records[id]).completedAt)
    {
      var found := UpdateStatus(id, newStatus, versions, error, None, now);
    }

    /** `cancel_operation`, when nothing interferes with it. */
    method CancelOperation(id: string, now: Time) returns (r: Option<Operation>)
      modifies this
      ensures id !in old(records) ==> r == None && records == old(records)
      ensures id in old(records) ==>
        id in records && r == Some(records[id]) && records == old(records)[id := records[id]]
      ensures id in old(records) ==>
        var was := old(records)[id];
        records[id] == if was.status.Terminal() then was else was.(status := Cancelled, completedAt := Some(now))
    {
      if id !in records {
        return None;
      }
      if records[id].status == Ready || records[id].status == Failed || records[id].status == Cancelled {
        assert records[id := records[id]] == records;
        return Some(records[id]);
      }
      var found := UpdateStatus(id, Cancelled, None, false, None, now);
      r := Some(records[id]);
    }
  }

  // ---------------------------------------------------------------------------
  // What the installation meets
  // ---------------------------------------------------------------------------

  datatype Declared = Declared(name: string, spec: Option<string>)

  /** A verification is answered by the worker, who looks at what is installed, or
      the call raises (worker dead, pipe broken, timeout). */
  datatype Answer = Looked(installed: Installed) | CallRaises
  datatype Pip = PipOk | PipFails | PipTimesOut
  datatype InstallAnswer = Ran(pip: Pip, printed: bool) | InstallRaises

  /** `captureWorks` is false when recording printed output raises. */
  datatype Env = Env(before: Answer, install: InstallAnswer, captureWorks: bool, after: Answer, now: Time)

  datatype Outcome = Returned | RaisedResolution(e: Resolver.Error) | RaisedTimeout | RaisedInstallation | RaisedOther

  function SpecText(spec: Option<string>): string {
    if spec == None then "" else spec.value
  }

  function Items(deps: seq<Declared>): seq<Resolver.Item> {
    seq(|deps|, i requires 0 <= i < |deps| => Resolver.Entry(Some(deps[i].name), Some(SpecText(deps[i].spec))))
  }

  function Payload(deps: seq<Declared>): seq<Package> {
    seq(|deps|, i requires 0 <= i < |deps| => Package(deps[i].name, SpecText(deps[i].spec)))
  }

  predicate AllThere(a: Answer, deps: seq<Declared>) {
    a.Looked? && Problems(a.installed, Payload(deps)) == []
  }

  predicate InstallWorks(env: Env) {
    env.install.Ran? && env.install.pip == PipOk && (env.install.printed ==> env.captureWorks)
  }

  const STAGES := [Requested, Validating, Resolving, Installing, Verifying]

  /** How many stages the installation goes through, and how it ends. */
  function Ending(deps: seq<Declared>, env: Env): (r: (nat, DepStatus))
    ensures 1 <= r.0 <= |STAGES| && (r.1 == Ready || r.1 == Failed)
  {
    if deps == [] then (1, Ready)
    else if Resolver.Fold(Items(deps)).Err? then (2, Failed)
    else if env.before.CallRaises? then (3, Failed)
    else if AllThere(env.before, deps) then (3, Ready)
    else if !InstallWorks(env) then (4, Failed)
    else if AllThere(env.after, deps) then (5, Ready)
    else (5, Failed)
  }

  /** The statuses the installation writes, in order: it never reads the record. */
  function Script(deps: seq<Declared>, env: Env): seq<DepStatus> {
    STAGES[..Ending(deps, env).0] + [Ending(deps, env).1]
  }

  /** A verification that found every declared package, each "==" to the letter. */
  predicate Finds(a: Answer, deps: seq<Declared>) {
    a.Looked? && forall i :: 0 <= i < |deps| ==>
      Satisfied(a.installed, Package(deps[i].name, if deps[i].spec == None then "" else deps[i].spec.value))
  }

  lemma AllThereMeans(a: Answer, deps: seq<Declared>)
    ensures AllThere(a, deps) <==> Finds(a, deps)
  {
    hide Problems, Satisfied;
    if a.Looked? {
      ProblemsMean(a.installed, Payload(deps));
      assert forall i :: 0 <= i < |deps| ==> Payload(deps)[i] == Package(deps[i].name, SpecText(deps[i].spec));
    }
  }

  /** What the installation is to answer, by what it meets: it succeeds when nothing is
      declared, when the first verification finds everything, or when pip has worked,
      its output could be recorded and the second verification finds everything. */
  predicate Answers(deps: seq<Declared>, env: Env, r: Outcome) {
    if deps == [] then r == Returned
    else if Resolver.Fold(Items(deps)).Err? then r == RaisedResolution(Resolver.Fold(Items(deps)).error)
    else if env.before.CallRaises? then r == RaisedOther
    else if Finds(env.before, deps) then r == Returned
    else if env.install.InstallRaises? then r == RaisedOther
    else if env.install.printed && !env.captureWorks then r == RaisedOther
    else if env.install.pip == PipTimesOut then r == RaisedTimeout
    else if env.install.pip == PipFails then r == RaisedInstallation
    else if env.after.CallRaises? then r == RaisedOther
    else if Finds(env.after, deps) then r == Returned
    else r == RaisedInstallation
  }

  /** How many of the stages REQUESTED, VALIDATING, RESOLVING, INSTALLING, VERIFYING it
      goes through. */
  function StagesSeen(deps: seq<Declared>, env: Env): nat {
    if deps == [] then 1
    else if Resolver.Fold(Items(deps)).Err? then 2
    else if env.before.CallRaises? || Finds(env.before, deps) then 3
    else if env.install.InstallRaises? || env.install.pip != PipOk || (env.install.printed && !env.captureWorks) then 4
    else 5
  }

  lemma EndingMeans(deps: seq<Declared>, env: Env, r: Outcome)
    requires Answers(deps, env, r)
    ensures Ending(deps, env) == (StagesSeen(deps, env), if r == Returned then Ready else Failed)
  {
    AllThereMeans(env.before, deps);
    AllThereMeans(env.after, deps);
    hide Satisfied, Problems, Resolver.Fold, Items;
  }

  /** It returns exactly when nothing is declared, or the list resolves and either the
      first verification finds every declared package, or it answers, pip works, what
      pip printed could be recorded, and the second verification finds them. It raises a
      timeout exactly when pip, being asked and recorded, timed out. */
  lemma ReturnsExactly(deps: seq<Declared>, env: Env, r: Outcome)
    requires Answers(deps, env, r)
    ensures var asked := deps != [] && Resolver.Fold(Items(deps)).Ok? && env.before.Looked? && !Finds(env.before, deps);
      var ran := asked && env.install.Ran? && (env.install.printed ==> env.captureWorks);
      && (r == Returned <==>
            || deps == []
            || (Resolver.Fold(Items(deps)).Ok? && Finds(env.before, deps))
            || (ran && env.install.pip == PipOk && Finds(env.after, deps)))
      && (r == RaisedTimeout <==> ran && env.install.pip == PipTimesOut)
      && (r == RaisedInstallation <==>
            ran && (env.install.pip == PipFails
                    || (env.install.pip == PipOk && env.after.Looked? && !Finds(env.after, deps))))
      && (r.RaisedResolution? <==> deps != [] && Resolver.Fold(Items(deps)).Err?)
  {
    hide Resolver.Fold, Items;
  }

  /** The installation from the failed verification on. */
  method InstallMissing(repo: OperationRepository, id: string, deps: seq<Declared>, env: Env) returns (r: Outcome)
    requires id in repo.records && id in repo.trails && repo.trails[id] == STAGES[..3]
    requires !repo.records[id].failed && repo.records[id].resolvedVersions == None
    requires deps != [] && Resolver.Fold(Items(deps)).Ok? && env.before.Looked? && !AllThere(env.before, deps)
    modifies repo
    ensures id in repo.records && Others(repo.records, id) == old(Others(repo.records, id))
    ensures id in repo.trails && Others(repo.trails, id) == old(Others(repo.trails, id))
    ensures repo.trails[id] == Script(deps, env)
    ensures var op := repo.records[id];
      && op.status == Ending(deps, env).1 && op.completedAt == Some(env.now)
      && (r == Returned <==> op.status == Ready) && (op.failed <==> op.status == Failed)
    ensures !r.RaisedResolution? && Answers(deps, env, r)
    ensures r != Returned ==> repo.records[id].resolvedVersions == None
    ensures repo.records[id].status == Ready ==>
              && env.after.Looked?
              && repo.records[id].resolvedVersions == Some(Versions(env.after.installed, Payload(deps)))
  {
    AllThereMeans(env.before, deps);
    AllThereMeans(env.after, deps);
    hide Resolver.Fold, Problems, Versions, Items, Payload, Others, Finds;
    repo.Advance(id, Installing, None, false, env.now);
    assert repo.trails[id] == STAGES[..4];
    if env.install.InstallRaises? || (env.install.printed && !env.captureWorks) {
      repo.Advance(id, Failed, None, true, env.now);
      return RaisedOther;
    }
    if env.install.pip != PipOk {
      repo.Advance(id, Failed, None, true, env.now);
      return if env.install.pip == PipTimesOut then RaisedTimeout else RaisedInstallation;
    }
    repo.Advance(id, Verifying, None, false, env.now);
    assert repo.trails[id] == STAGES[..5];
    if env.after.CallRaises? {
      repo.Advance(id, Failed, None, true, env.now);
      return RaisedOther;
    }
    var satisfied, versions, problems := VerifyPackages(env.after.installed, Payload(deps));
    if !satisfied {
      repo.Advance(id, Failed, None, true, env.now);
      return RaisedInstallation;
    }
    repo.Advance(id, Ready, Some(versions), false, env.now);
    r := Returned;
  }

  /** `install_notebook_dependencies` */
  method Install(repo: OperationRepository, id: string, deps: seq<Declared>, env: Env) returns (r: Outcome)
    requires id !in repo.records
    modifies repo
    ensures id in repo.records && Others(repo.records, id) == old(Others(repo.records, id))
    ensures id in repo.trails && Others(repo.trails, id) == old(Others(repo.trails, id))
    ensures repo.trails[id] == Script(deps, env) && Answers(deps, env, r)
    ensures repo.trails[id] == STAGES[..StagesSeen(deps, env)] + [repo.records[id].status]
    ensures var op := repo.records[id];
      && op.status == (if r == Returned then Ready else Failed) && op.completedAt == Some(env.now)
      && (op.failed <==> op.status == Failed) && (r != Returned ==> op.resolvedVersions == None)
    ensures forall e :: r == RaisedResolution(e) ==> Resolver.Fold(Items(deps)) == Resolver.Err(e)
    ensures deps == [] ==> repo.records[id].resolvedVersions == Some(map[])
    ensures repo.records[id].status == Ready && deps != [] ==>
              var last := if Finds(env.before, deps) then env.before else env.after;
              last.Looked? && repo.records[id].resolvedVersions == Some(Versions(last.installed, Payload(deps)))
  {
    AllThereMeans(env.before, deps);
    hide Resolver.Fold, Problems, Versions, Items, Payload, Others, Finds;
    repo.Create(id);
    assert repo.trails[id] == STAGES[..1];
    if deps == [] {
      repo.Advance(id, Ready, Some(map[]), false, env.now);
      return Returned;
    }
    repo.Advance(id, Validating, None, false, env.now);
    assert repo.trails[id] == STAGES[..2];
    var resolved := Resolver.Resolve(Items(deps));
    if resolved.Err? {
      repo.Advance(id, Failed, None, true, env.now);
      return RaisedResolution(resolved.error);
    }
    repo.Advance(id, Resolving, None, false, env.now);
    assert repo.trails[id] == STAGES[..3];
    if env.before.CallRaises? {
      repo.Advance(id, Failed, None, true, env.now);
      return RaisedOther;
    }
    var satisfied, versions, problems := VerifyPackages(env.before.installed, Payload(deps));
    if satisfied {
      repo.Advance(id, Ready, Some(versions), false, env.now);
      return Returned;
    }
    r := InstallMissing(repo, id, deps, env);
  }

  /** Whatever it meets, the operation climbs strictly through the lifecycle from
      REQUESTED to READY or FAILED. */
  lemma ScriptClimbs(deps: seq<Declared>, env: Env)
    ensures var s := Script(deps, env);
      && |s| >= 2 && s[0] == Requested
      && (forall i, j :: 0 <= i < j < |s| ==> s[i].Rank() < s[j].Rank())
      && (forall i :: 0 <= i < |s| - 1 ==> !s[i].Terminal())
      && s[|s| - 1] in {Ready, Failed}
  {
    hide AllThere, InstallWorks, Resolver.Fold, Items;
    assert forall i :: 0 <= i < |STAGES| ==> STAGES[i].Rank() == i && !STAGES[i].Terminal();
  }

  /** READY means that the last verification found every declared package
      installed, each in the very version if it is declared with "==": also where
      the resolver dropped a pin. */
  lemma ReadyMeansVerified(deps: seq<Declared>, env: Env, i: nat)
    requires i < |deps| && Ending(deps, env).1 == Ready
    ensures var last := if AllThere(env.before, deps) then env.before else env.after;
      && last.Looked?
      && Satisfied(last.installed, Package(deps[i].name, SpecText(deps[i].spec)))
  {
    var last := if AllThere(env.before, deps) then env.before else env.after;
    assert AllThere(last, deps);
    ProblemsMean(last.installed, Payload(deps));
    assert Payload(deps)[i] == Package(deps[i].name, SpecText(deps[i].spec));
  }

  // ---------------------------------------------------------------------------
  // Cancellations in between
  // ---------------------------------------------------------------------------

  type CancelId = nat

  /** The installation writes what is left of its script; a cancellation reads the
      status first and writes later. */
  datatype Race = Race(
    status: DepStatus,
    completed: bool,          // `completed_at` is set
    left: seq<DepStatus>,
    asked: set<CancelId>,     // every cancellation that has read the status
    passed: set<CancelId>     // those that found it open and have not written
  )

  datatype Label = Write | CancelReads(k: CancelId) | CancelWrites(k: CancelId)

  predicate Enabled(s: Race, l: Label) {
    match l
    case Write => s.left != []
    case CancelReads(k) => k !in s.asked
    case CancelWrites(k) => k in s.passed
  }

  function Next(s: Race, l: Label): Race
    requires Enabled(s, l)
  {
    match l
    case Write => s.(status := s.left[0], left := s.left[1..], completed := s.completed || s.left[0].Terminal())
    case CancelReads(k) =>
      s.(asked := s.asked + {k}, passed := if s.status.Terminal() then s.passed else s.passed + {k})
    case CancelWrites(k) => s.(status := Cancelled, completed := true, passed := s.passed - {k})
  }

  predicate Run(s: Race, ls: seq<Label>)
    decreases |ls|
  {
    ls == [] || (Enabled(s, ls[0]) && Run(Next(s, ls[0]), ls[1..]))
  }

  function After(s: Race, ls: seq<Label>): Race
    requires Run(s, ls)
    decreases |ls|
  {
    if ls == [] then s else After(Next(s, ls[0]), ls[1..])
  }

  function Begin(deps: seq<Declared>, env: Env): Race {
    Race(Requested, false, Script(deps, env)[1..], {}, {})
  }

  /** A cancellation writes after the installation's last write. */
  predicate CancelWritesLast(s: Race, ls: seq<Label>)
    requires Run(s, ls)
    decreases |ls|
  {
    ls != [] && ((ls[0].CancelWrites? && s.left == []) || CancelWritesLast(Next(s, ls[0]), ls[1..]))
  }

  lemma {:induction false} RaceEnds(s: Race, ls: seq<Label>, last: DepStatus)
    requires Run(s, ls) && After(s, ls).left == []
    requires s.left == [] ==> s.status == last || s.status == Cancelled
    requires s.left != [] ==> s.left[|s.left| - 1] == last
    requires last.Terminal()
    ensures s.left != [] ==> After(s, ls).status == if CancelWritesLast(s, ls) then Cancelled else last
    ensures s.left == [] ==> After(s, ls).status == if CancelWritesLast(s, ls) then Cancelled else s.status
    decreases |ls|
  {
    if ls != [] {
      RaceEnds(Next(s, ls[0]), ls[1..], last);
    }
  }

  /** However many cancellations race with it, a finished installation leaves the
      status of its own last write unless a cancellation writes after that: one
      that writes in between is overwritten. */
  lemma CancelIsOverwritten(deps: seq<Declared>, env: Env, ls: seq<Label>)
    requires Run(Begin(deps, env), ls) && After(Begin(deps, env), ls).left == []
    ensures var script := Script(deps, env);
      After(Begin(deps, env), ls).status
      == if CancelWritesLast(Begin(deps, env), ls) then Cancelled else script[|script| - 1]
  {
    ScriptClimbs(deps, env);
    var script := Script(deps, env);
    assert script[1..][|script| - 2] == script[|script| - 1];
    RaceEnds(Begin(deps, env), ls, script[|script| - 1]);
  }

  ghost predicate RaceInv(s: Race) {
    && (s.status.Terminal() ==> s.completed)
    && (s.left == [] ==> s.status.Terminal())
    && (s.status.Terminal() && s.left != [] ==> s.status == Cancelled)
    && (s.left != [] ==> s.left[|s.left| - 1] in {Ready, Failed})
    && (forall i :: 0 <= i < |s.left| - 1 ==> !s.left[i].Terminal())
  }

  lemma {:induction false} RaceInvRun(s: Race, ls: seq<Label>)
    requires RaceInv(s) && Run(s, ls)
    ensures RaceInv(After(s, ls))
    decreases |ls|
  {
    if ls != [] {
      RaceInvRun(Next(s, ls[0]), ls[1..]);
    }
  }

  /** In every interleaving a terminal status comes with `completed_at`, and it is
      left or changed exactly when the installation goes on writing over a CANCELLED,
      or a cancellation that read an open status writes its CANCELLED over READY or
      FAILED. */
  lemma TerminalChanges(deps: seq<Declared>, env: Env, ls: seq<Label>, l: Label)
    requires Run(Begin(deps, env), ls) && Enabled(After(Begin(deps, env), ls), l)
    ensures var s := After(Begin(deps, env), ls);
      && (s.status.Terminal() ==> s.completed)
      && (s.left == [] ==> s.status.Terminal())
      && (s.status.Terminal() ==>
            (Next(s, l).status != s.status <==>
               || (l == Write && s.status == Cancelled)
               || (l.CancelWrites? && s.status in {Ready, Failed})))
      && (s.left == [] && s.passed == {} ==> Next(s, l).status == s.status && Next(s, l).passed == {})
  {
    ScriptClimbs(deps, env);
    var script := Script(deps, env);
    assert script[1..][|script| - 2] == script[|script| - 1];
    assert RaceInv(Begin(deps, env));
    RaceInvRun(Begin(deps, env), ls);
  }

  /** What the cancellations of a run have done. */
  ghost predicate CancelsTold(s: Race, ls: seq<Label>) {
    && (forall k :: k in s.asked <==> CancelReads(k) in ls)
    && (forall k :: k in s.passed ==> CancelReads(k) in ls && CancelWrites(k) !in ls)
    && (forall k :: CancelWrites(k) in ls ==> CancelReads(k) in ls)
    && (forall i, j :: 0 <= i < j < |ls| && !ls[i].Write? ==> ls[i] != ls[j])
  }

  lemma CancelsToldStep(s: Race, ls: seq<Label>, l: Label)
    requires CancelsTold(s, ls) && Enabled(s, l)
    ensures CancelsTold(Next(s, l), ls + [l])
  {
    var ms := ls + [l];
    forall i, j | 0 <= i < j < |ms| && !ms[i].Write? ensures ms[i] != ms[j] {
      assert ms[i] in ls;
    }
  }

  /** In every run each cancellation reads the status once, and writes once at most,
      after it has read. */
  lemma {:induction false} CancelsOnce(s: Race, ls: seq<Label>, more: seq<Label>)
    requires CancelsTold(s, ls) && Run(s, more)
    ensures CancelsTold(After(s, more), ls + more)
    decreases |more|
  {
    hide CancelsTold, Enabled, Next;
    if more == [] {
      assert ls + more == ls;
    } else {
      CancelsToldStep(s, ls, more[0]);
      CancelsOnce(Next(s, more[0]), ls + [more[0]], more[1..]);
      assert ls + [more[0]] + more[1..] == ls + more;
    }
  }

  /** From the beginning. */
  lemma CancelsOfRun(deps: seq<Declared>, env: Env, ls: seq<Label>)
    requires Run(Begin(deps, env), ls)
    ensures forall k :: CancelWrites(k) in ls ==> CancelReads(k) in ls
    ensures forall i, j :: 0 <= i < j < |ls| && !ls[i].Write? ==> ls[i] != ls[j]
  {
    CancelsOnce(Begin(deps, env), [], ls);
    assert [] + ls == ls;
  }

  lemma {:induction false} DoneStaysDone(s: Race, ls: seq<Label>)
    requires Run(s, ls) && s.left == []
    ensures After(s, ls).left == []
    decreases |ls|
  {
    if ls != [] {
      DoneStaysDone(Next(s, ls[0]), ls[1..]);
    }
  }

  lemma {:induction false} CompletedFrom(s: Race, ls: seq<Label>)
    requires RaceInv(s) && Run(s, ls)
    ensures After(s, ls).completed <==>
      s.completed || After(s, ls).left == [] || exists i :: 0 <= i < |ls| && ls[i].CancelWrites?
    decreases |ls|
  {
    if ls == [] {
    } else {
      var t, rest := Next(s, ls[0]), ls[1..];
      CompletedFrom(t, rest);
      assert forall i :: 0 <= i < |rest| ==> rest[i] == ls[i + 1];
      RaceInvRun(s, [ls[0]]);
      RaceInvRun(s, ls);
      if t.left == [] {
        DoneStaysDone(t, rest);
      }
      assert (exists i :: 0 <= i < |ls| && ls[i].CancelWrites?) <==>
        ls[0].CancelWrites? || exists i :: 0 <= i < |rest| && rest[i].CancelWrites?;
    }
  }

  /** In every interleaving `completed_at` is set exactly when the installation has
      written its last status or a cancellation has written: an operation that goes
      on carries it exactly if one of its cancellations was let through. */
  lemma CompletedExactly(deps: seq<Declared>, env: Env, ls: seq<Label>)
    requires Run(Begin(deps, env), ls)
    ensures var s := After(Begin(deps, env), ls);
      s.completed <==> s.left == [] || exists i :: 0 <= i < |ls| && ls[i].CancelWrites?
  {
    ScriptClimbs(deps, env);
    var script := Script(deps, env);
    assert script[1..][|script| - 2] == script[|script| - 1];
    assert RaceInv(Begin(deps, env));
    CompletedFrom(Begin(deps, env), ls);
  }

  const CANCEL_IN_BETWEEN := [Write, CancelReads(0), CancelWrites(0), Write]

  /** A cancellation between two writes leaves an operation that goes on, with
      `completed_at` set. */
  lemma CompletedButOpen(deps: seq<Declared>, env: Env)
    requires deps != [] && Resolver.Fold(Items(deps)).Ok?
    ensures Run(Begin(deps, env), CANCEL_IN_BETWEEN)
    ensures var s := After(Begin(deps, env), CANCEL_IN_BETWEEN); s.status == Resolving && s.completed
  {
    var ls := CANCEL_IN_BETWEEN;
    var s0 := Begin(deps, env);
    hide AllThere, InstallWorks, Resolver.Fold, Items;
    assert Ending(deps, env).0 >= 3;
    assert Script(deps, env)[1] == STAGES[1] && Script(deps, env)[2] == STAGES[2];
    assert s0.left[0] == Validating && s0.left[1] == Resolving;
    hide Script, Ending;
    var s1 := Next(s0, ls[0]);
    var s2 := Next(s1, ls[1]);
    var s3 := Next(s2, ls[2]);
    assert s3.left == s0.left[1..] && s3.left[0] == Resolving;
    assert ls[1..][1..] == ls[2..] && ls[2..][1..] == ls[3..] && ls[3..][1..] == [];
    assert Run(s3, ls[3..]) && Run(s2, ls[2..]) && Run(s1, ls[1..]);
  }
}
