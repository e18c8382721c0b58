/**
 When the Master's own record of a profiling case changes
 (src/edgeshard/control/master/profiling_controller.py, src/edgeshard/profiling/store/sqlite.py).

 `update_case_state` is unconditional, so a decided case is only as safe as the tasks that could still write
 about it: those that wait for a call about it, and those that listed it before it was decided.
 */
module StoredHistory {
  import opened Options
  import opened Leases
  import opened Ledger
  import opened ProfilingSystem
  import Runner = ProfilingRunner
  import Master

  /** Some Master task still waits for call `t`, which is about case `cid`. */
  predicate AwaitsAbout(x: System, t: nat, cid: string)
  {
    t in x.awaiting && t < |x.issued| && x.issued[t].cid == cid
  }

  ghost predicate Awaited(x: System, cid: string)
  {
    exists t :: AwaitsAbout(x, t, cid)
  }

  predicate ListsIt(x: System, k: nat, cid: string)
  {
    k in x.tasks && cid in x.tasks[k].listed
  }

  ghost predicate Listed(x: System, cid: string)
  {
    exists k :: ListsIt(x, k, cid)
  }

  /** Some task may still write about the case. */
  ghost predicate Engaged(x: System, cid: string)
  {
    Awaited(x, cid) || Listed(x, cid)
  }

  // ---------------------------------------------------------------------------
  // Which steps write
  // ---------------------------------------------------------------------------

  /** The call whose task step `e` resumes, if any. */
  function Resumed(e: Event): Option<nat>
  {
    match e
    case RunReturns(t) => Some(t)
    case CancelReturns(t) => Some(t)
    case FetchReturns(t) => Some(t)
    case CallFails(t) => Some(t)
    case _ => None
  }

  /** The step is a task's that waits for a call about the case or lists it. */
  predicate Concerns(x: System, e: Event, cid: string)
  {
    match e
    case BeginCase(k, c) => c == cid && ListsIt(x, k, cid)
    case DispatchRun(k, c, _) => c == cid && ListsIt(x, k, cid)
    case GiveUpRun(k, cids) => cid in cids && ListsIt(x, k, cid)
    case GiveUpCancel(k) => ListsIt(x, k, cid)
    case _ => Resumed(e).Some? && AwaitsAbout(x, Resumed(e).value, cid)
  }

  /** `_persist_outcome` writes about its own case. */
  lemma PersistWrites(u: Setup, x: System, c: string, outcome: Outcome)
    requires c in u.cases
    ensures var x' := Persist(u, x, c, outcome);
            && x'.store.Keys == x.store.Keys + {c} &&
               (forall cid :: cid in x.store && cid != c ==> x'.store[cid] == x.store[cid])
            && x'.issued == x.issued && x'.awaiting == x.awaiting && x'.tasks == x.tasks
  {
  }

  lemma ReturnedWrites(u: Setup, x: System, t: nat, cid: string)
    requires t in x.replies && t < |x.issued| && x.issued[t].cid in u.cases && cid in x.store && x.issued[t].cid != cid
    ensures cid in Returned(u, x, t).store && Returned(u, x, t).store[cid] == x.store[cid]
  {
    var reply := x.replies[t];
    if reply.GotOutcome? { PersistWrites(u, x.(awaiting := x.awaiting - {t}), x.issued[t].cid, reply.outcome); }
  }

  lemma WorkersWriteNothing(u: Setup, x: System, e: Event)
    requires Enabled(u, x, e) && (e.WorkerHandles? || e.WorkerFinishes? || e.WorkerMoves? || e.WorkerRestarts?)
    ensures Step(u, x, e).store == x.store && Step(u, x, e).issued == x.issued
    ensures Step(u, x, e).awaiting == x.awaiting && Step(u, x, e).tasks == x.tasks
  {
  }

  lemma TasksWriteTheirs(u: Setup, x: System, e: Event, cid: string)
    requires Enabled(u, x, e) && IsTaskStep(e) && cid in x.store && !Concerns(x, e, cid)
    ensures cid in Step(u, x, e).store && Step(u, x, e).store[cid] == x.store[cid]
  {
  }

  /** A stored entry is rewritten only by a task that waits for a call about the case or lists it. */
  lemma OnlyItsOwnTasksRewrite(u: Setup, x: System, e: Event, cid: string)
    requires Enabled(u, x, e) && cid in x.store && !Concerns(x, e, cid)
    ensures cid in Step(u, x, e).store && Step(u, x, e).store[cid] == x.store[cid]
  {
    if IsTaskStep(e) {
      TasksWriteTheirs(u, x, e, cid);
    } else if e.WorkerHandles? || e.WorkerFinishes? || e.WorkerMoves? || e.WorkerRestarts? {
      WorkersWriteNothing(u, x, e);
    } else if e.RunReturns? || e.CancelReturns? || e.FetchReturns? {
      ReturnedWrites(u, x, e.t, cid);
    }
  }

  lemma ConcernsEngaged(x: System, e: Event, cid: string)
    requires Concerns(x, e, cid)
    ensures Engaged(x, cid)
  {
    if Resumed(e).Some? {
      assert AwaitsAbout(x, Resumed(e).value, cid);
    } else {
      assert ListsIt(x, e.k, cid);
    }
  }

  // ---------------------------------------------------------------------------
  // Settled for ever
  // ---------------------------------------------------------------------------

  /** Only issued calls are awaited. */
  ghost predicate AwaitingOk(x: System)
  {
    forall t :: t in x.awaiting ==> t < |x.issued|
  }

  /** The case is decided, and no task waits for a call about it or lists it. */
  ghost predicate Settled(x: System, cid: string)
  {
    AwaitingOk(x) && cid in x.store && Terminal(x.store[cid].state) && !Engaged(x, cid)
  }

  /** What a step does to the calls: it may issue one more, and only that one is newly awaited. */
  ghost predicate GrowsBy(x: System, x': System)
  {
    && x.issued <= x'.issued && |x'.issued| <= |x.issued| + 1
    && forall t :: t in x'.awaiting ==> t in x.awaiting || (t == |x.issued| && t < |x'.issued|)
  }

  lemma ReturnedGrows(u: Setup, x: System, t: nat)
    requires t in x.replies && t < |x.issued| && x.issued[t].cid in u.cases
    ensures GrowsBy(x, Returned(u, x, t)) && Returned(u, x, t).tasks == x.tasks
    ensures |x.issued| < |Returned(u, x, t).issued| ==> Returned(u, x, t).issued[|x.issued|].cid == x.issued[t].cid
  {
    var reply := x.replies[t];
    if reply.GotOutcome? { PersistWrites(u, x.(awaiting := x.awaiting - {t}), x.issued[t].cid, reply.outcome); }
  }

  lemma TasksGrow(u: Setup, x: System, e: Event)
    requires Enabled(u, x, e) && IsTaskStep(e)
    ensures GrowsBy(x, Step(u, x, e))
  {
  }

  lemma CallsGrow(u: Setup, x: System, e: Event)
    requires Enabled(u, x, e)
    ensures GrowsBy(x, Step(u, x, e))
  {
    if IsTaskStep(e) {
      TasksGrow(u, x, e);
    } else if e.RunReturns? || e.CancelReturns? || e.FetchReturns? {
      ReturnedGrows(u, x, e.t);
    } else if e.WorkerHandles? || e.WorkerFinishes? || e.WorkerMoves? || e.WorkerRestarts? {
      WorkersWriteNothing(u, x, e);
    }
  }

  /** A decided case is not listed anew, and a call about it is issued only by a task that is engaged with it. */
  lemma NotEngagedAnew(u: Setup, x: System, e: Event, cid: string)
    requires Enabled(u, x, e) && Settled(x, cid)
    ensures !Listed(Step(u, x, e), cid)
    ensures var x' := Step(u, x, e); |x.issued| < |x'.issued| ==> x'.issued[|x.issued|].cid != cid
  {
    if IsTaskStep(e) {
      TaskListsLess(u, x, e, cid);
    } else if e.RunReturns? || e.CancelReturns? || e.FetchReturns? {
      assert !AwaitsAbout(x, e.t, cid);
      ReturnedGrows(u, x, e.t);
      SameTasks(x, Returned(u, x, e.t), cid);
    } else if e.WorkerHandles? || e.WorkerFinishes? || e.WorkerMoves? || e.WorkerRestarts? {
      WorkersWriteNothing(u, x, e);
      SameTasks(x, Step(u, x, e), cid);
    } else {
      SameTasks(x, Step(u, x, e), cid);
    }
  }

  lemma SameTasks(x: System, x': System, cid: string)
    requires x'.tasks == x.tasks && !Listed(x, cid)
    ensures !Listed(x', cid)
  {
    forall k ensures !ListsIt(x', k, cid) { assert !ListsIt(x, k, cid); }
  }

  lemma TaskListsLess(u: Setup, x: System, e: Event, cid: string)
    requires Enabled(u, x, e) && IsTaskStep(e) && Settled(x, cid)
    ensures !Listed(Step(u, x, e), cid)
    ensures var x' := Step(u, x, e); |x.issued| < |x'.issued| ==> x'.issued[|x.issued|].cid != cid
  {
    var x' := Step(u, x, e);
    forall k ensures !ListsIt(x', k, cid) { assert !ListsIt(x, k, cid); }
    if e.DispatchRun? || e.DispatchCancel? { assert !ListsIt(x, e.k, cid); }
  }

  lemma NotAwaitedAnew(x: System, x': System, cid: string)
    requires AwaitingOk(x) && GrowsBy(x, x') && !Awaited(x, cid)
    requires |x.issued| < |x'.issued| ==> x'.issued[|x.issued|].cid != cid
    ensures AwaitingOk(x') && !Awaited(x', cid)
  {
    forall t: nat ensures !AwaitsAbout(x', t, cid) {
      assert !AwaitsAbout(x, t, cid);
      if t in x.awaiting { assert x'.issued[t] == x.issued[t]; }
    }
  }

  lemma StepStaysSettled(u: Setup, x: System, e: Event, cid: string)
    requires Enabled(u, x, e) && Settled(x, cid)
    ensures Settled(Step(u, x, e), cid) && Step(u, x, e).store[cid] == x.store[cid]
  {
    if Concerns(x, e, cid) { ConcernsEngaged(x, e, cid); }
    OnlyItsOwnTasksRewrite(u, x, e, cid);
    CallsGrow(u, x, e);
    NotEngagedAnew(u, x, e, cid);
    NotAwaitedAnew(x, Step(u, x, e), cid);
  }

  lemma FollowsStaysSettled(u: Setup, x: System, x': System, cid: string)
    requires Follows(u, x, x') && Settled(x, cid)
    ensures Settled(x', cid) && x'.store[cid] == x.store[cid]
  {
    var e :| Enabled(u, x, e) && x' == Step(u, x, e);
    StepStaysSettled(u, x, e, cid);
  }

  lemma FollowsAwaitsIssued(u: Setup, x: System, x': System)
    requires Follows(u, x, x') && AwaitingOk(x)
    ensures AwaitingOk(x')
  {
    var e :| Enabled(u, x, e) && x' == Step(u, x, e);
    CallsGrow(u, x, e);
  }

  lemma {:induction false} EveryRunAwaitsIssued(u: Setup, run: seq<System>, i: nat)
    requires IsRun(u, run) && i < |run|
    ensures AwaitingOk(run[i])
  {
    if i > 0 {
      EveryRunAwaitsIssued(u, run, i - 1);
      assert Consecutive(u, run, i);
      FollowsAwaitsIssued(u, run[i - 1], run[i]);
    }
  }

  /** History is not rewritten once it is settled: in every run, a decided case that no task waits about or lists keeps
      its entry in every later state, whatever is started afterwards. */
  lemma {:induction false} SettledForEver(u: Setup, run: seq<System>, i: nat, j: nat, cid: string)
    requires IsRun(u, run) && i <= j < |run|
    requires cid in run[i].store && Terminal(run[i].store[cid].state) && !Engaged(run[i], cid)
    ensures Settled(run[j], cid) && run[j].store[cid] == run[i].store[cid]
    decreases j
  {
    if i == j {
      EveryRunAwaitsIssued(u, run, i);
    } else {
      SettledForEver(u, run, i, j - 1, cid);
      assert Consecutive(u, run, j);
      FollowsStaysSettled(u, run[j - 1], run[j], cid);
    }
  }

  // ---------------------------------------------------------------------------
  // The exact condition
  // ---------------------------------------------------------------------------

  /** A continuation: each state follows from the one before. */
  ghost predicate IsPath(u: Setup, path: seq<System>)
  {
    path != [] && forall i :: 0 < i < |path| ==> Consecutive(u, path, i)
  }

  /** The COMPLETED entry is still open to change, along some continuation. */
  ghost predicate CanLose(u: Setup, x: System, cid: string)
  {
    exists path :: Loses(u, x, path, cid)
  }

  ghost predicate Loses(u: Setup, x: System, path: seq<System>, cid: string)
  {
    && IsPath(u, path) && path[0] == x
    && var last := path[|path| - 1]; cid !in last.store || last.store[cid].state != COMPLETED
  }

  lemma {:induction false} PathStaysSettled(u: Setup, path: seq<System>, i: nat, cid: string)
    requires IsPath(u, path) && i < |path| && Settled(path[0], cid)
    ensures Settled(path[i], cid) && path[i].store[cid] == path[0].store[cid]
  {
    if i > 0 {
      PathStaysSettled(u, path, i - 1, cid);
      assert Consecutive(u, path, i);
      FollowsStaysSettled(u, path[i - 1], path[i], cid);
    }
  }

  lemma OneStep(u: Setup, x: System, e: Event) returns (path: seq<System>)
    requires Enabled(u, x, e)
    ensures IsPath(u, path) && path == [x, Step(u, x, e)]
  {
    path := [x, Step(u, x, e)];
    assert Consecutive(u, path, 1);
  }

  /** A task that waits for a call about the case loses it when the call fails. */
  lemma AwaitedCanLose(u: Setup, x: System, t: nat, cid: string)
    requires AwaitsAbout(x, t, cid) && cid in u.cases
    ensures CanLose(u, x, cid)
  {
    var path := OneStep(u, x, CallFails(t));
    assert Loses(u, x, path, cid);
  }

  /** A run task that lists it, when its session cannot be prepared. */
  lemma RunCanLose(u: Setup, x: System, k: nat, cid: string)
    requires RunLists(x, k, cid)
    ensures CanLose(u, x, cid)
  {
    var path := OneStep(u, x, GiveUpRun(k, {cid}));
    assert Loses(u, x, path, cid);
  }

  /** A cancel task that lists it, when the call it is going to make fails. */
  lemma CancelCanLose(u: Setup, x: System, k: nat, cid: string)
    requires ListsIt(x, k, cid) && x.tasks[k].CancelTask? && cid in u.cases
    ensures CanLose(u, x, cid)
  {
    var y := Step(u, x, DispatchCancel(k, cid, ""));
    var z := Step(u, y, CallFails(|x.issued|));
    var path := [x, y, z];
    assert Consecutive(u, path, 1) && Consecutive(u, path, 2);
    assert Loses(u, x, path, cid);
  }

  /** In every run, a COMPLETED case can still be rewritten, by whatever comes next, if and only if some task waits
      for a call about it or has listed it. */
  lemma RewritableIff(u: Setup, run: seq<System>, i: nat, cid: string)
    requires SetupOk(u) && IsRun(u, run) && i < |run|
    requires cid in run[i].store && run[i].store[cid].state == COMPLETED
    ensures CanLose(u, run[i], cid) <==> Engaged(run[i], cid)
  {
    var x := run[i];
    EveryRunKeepsInv(u, run, i);
    EveryRunAwaitsIssued(u, run, i);
    assert Backed(u, x.decided, x.measurements, cid, x.store[cid]);
    if t :| AwaitsAbout(x, t, cid) {
      AwaitedCanLose(u, x, t, cid);
    } else if k :| ListsIt(x, k, cid) {
      if x.tasks[k].RunTask? { RunCanLose(u, x, k, cid); } else { CancelCanLose(u, x, k, cid); }
    }
    if !Engaged(x, cid) && CanLose(u, x, cid) {
      var path :| Loses(u, x, path, cid);
      PathStaysSettled(u, path, |path| - 1, cid);
    }
  }

  // ---------------------------------------------------------------------------
  // Both ways of losing a completed case happen
  // ---------------------------------------------------------------------------

  /** A cancellation whose reply is lost replaces COMPLETED, and the case ends CANCELLED at the Master although its
      record is persisted and its Worker decided COMPLETED. */
  lemma LateCancelRewrites(u: Setup, x: System, t: nat, cid: string)
    requires Inv(u, x) && t in x.awaiting && t < |x.issued| && x.issued[t] == Call(CANCEL, cid, x.issued[t].sid)
    requires cid in x.store && x.store[cid].state == COMPLETED
    ensures cid in u.cases && Enabled(u, x, CallFails(t))
    ensures var x' := Step(u, x, CallFails(t));
            x'.store[cid].state == CANCELLED && x'.measurements == x.measurements && x'.decided == x.decided
  {
    assert Backed(u, x.decided, x.measurements, cid, x.store[cid]);
  }

  const PROBE := Runner.Case("c", "w", Runner.NetworkSpec)
  const PROBE_SETUP := Setup(map["c" := PROBE], Policy(5.0, NoFloor))
  const PROBE_RESULT := Measurement("m", "c", Some(Environment("w", None)), [])
  const PROBE_START := System(map["w" := Runner.INITIAL], map[], map[], [], {}, {}, map[], {}, map[])
  const PREPARED := Runner.INITIAL.(sessions := ProbeSessions(None))
  const PROBE_RUNS :=
    PREPARED.(sessions := ProbeSessions(Some(Entry(RUNNING, None))), runs := map[0 := Runner.RunTask("s", PROBE)],
              started := multiset{("s", "c")})
  const PROBE_DECIDED :=
    PROBE_RUNS.(sessions := ProbeSessions(Some(Entry(COMPLETED, Some(Measured(PROBE_RESULT))))), runs := map[],
                answered := {("s", "c", Measured(PROBE_RESULT))})

  /** The Worker's ledger with the case in state `entry`, if it was started. */
  function ProbeSessions(entry: Option<Entry>): Sessions
  {
    map["s" := Record(NETWORK_SESSION, [], if entry.None? then map[] else map["c" := entry.value], false)]
  }

  lemma SessionPrepared(report: Master.WorkerState) returns (run: seq<System>)
    ensures IsRun(PROBE_SETUP, run)
    ensures run[|run| - 1] == PROBE_START.(workers := map["w" := PREPARED])
  {
    var u, request := PROBE_SETUP, Runner.SessionRequest(NETWORK_SESSION, []);
    var s1 := Runner.INITIAL.(prep := Runner.Inspecting("s", request));
    assert s1 == Runner.Next(u.policy, "w", Runner.INITIAL, Runner.PrepareBegins("s", request));
    assert PREPARED == Runner.Next(u.policy, "w", s1, Runner.Inspected(report, true));
    var x1, x2 := PROBE_START.(workers := map["w" := s1]), PROBE_START.(workers := map["w" := PREPARED]);
    assert x1 == Step(u, PROBE_START, WorkerMoves("w", Runner.PrepareBegins("s", request)));
    assert x2 == Step(u, x1, WorkerMoves("w", Runner.Inspected(report, true)));
    run := [PROBE_START, x1, x2];
    assert Consecutive(u, run, 1) && Consecutive(u, run, 2);
  }

  lemma RunGrows(u: Setup, run: seq<System>, e: Event) returns (longer: seq<System>)
    requires IsRun(u, run) && Enabled(u, run[|run| - 1], e)
    ensures IsRun(u, longer) && |longer| == |run| + 1
    ensures longer[|longer| - 1] == Step(u, run[|run| - 1], e) && longer[|longer| - 2] == run[|run| - 1]
  {
    longer := run + [Step(u, run[|run| - 1], e)];
    forall i | 0 < i < |longer| ensures Consecutive(u, longer, i) {
      if i < |run| { assert Consecutive(u, run, i); }
    }
  }

  lemma ProbeStarts()
    ensures Runner.Next(PROBE_SETUP.policy, "w", PREPARED, Runner.RunBegins(0, "s", PROBE)) == PROBE_RUNS
    ensures Runner.BeginRun(PREPARED.leases, PREPARED.sessions, "w", "s", PROBE).1 == Runner.Started
  {
    assert Runner.BeginRun(PREPARED.leases, PREPARED.sessions, "w", "s", PROBE).0 ==
           ProbeSessions(Some(Entry(RUNNING, None)));
  }

  lemma ProbeEnds()
    ensures Runner.Next(PROBE_SETUP.policy, "w", PROBE_RUNS, Runner.RunEnds(0, Measured(PROBE_RESULT))) ==
            PROBE_DECIDED
    ensures Runner.EndRun(PROBE_RUNS.sessions, "s", "c", Measured(PROBE_RESULT)).1 ==
            Runner.Answered(Measured(PROBE_RESULT))
  {
    var entry := Entry(COMPLETED, Some(Measured(PROBE_RESULT)));
    assert PROBE_RUNS.sessions["s"].cases["c" := entry] == map["c" := entry];
    assert WithEntry(PROBE_RUNS.sessions, "s", "c", entry) == ProbeSessions(Some(entry));
  }

  /** Call 0, which runs the case, has been issued, and the Worker is `s`. */
  ghost predicate RunIssued(x: System, s: Runner.State)
  {
    && x.workers == map["w" := s] && |x.issued| > 0 && x.issued[0] == Call(RUN, "c", "s")
    && x.measurements == map[]
  }

  /** The Master's side of two states is the same. */
  predicate SameMaster(x: System, x': System)
  {
    && x'.issued == x.issued && x'.awaiting == x.awaiting && x'.tasks == x.tasks
    && x'.store == x.store && x'.measurements == x.measurements
  }

  lemma ProbeHandled(x: System)
    requires RunIssued(x, PREPARED) && 0 in x.net
    ensures Enabled(PROBE_SETUP, x, WorkerHandles(0))
    ensures var y := Step(PROBE_SETUP, x, WorkerHandles(0));
            RunIssued(y, PROBE_RUNS) && SameMaster(x, y) && y.net == x.net - {0}
  {
    ProbeStarts();
  }

  lemma ProbeFinished(x: System)
    requires RunIssued(x, PROBE_RUNS)
    ensures Enabled(PROBE_SETUP, x, WorkerFinishes(0, Measured(PROBE_RESULT)))
    ensures var y := Step(PROBE_SETUP, x, WorkerFinishes(0, Measured(PROBE_RESULT)));
            && RunIssued(y, PROBE_DECIDED) && SameMaster(x, y) && y.net == x.net
            && y.replies == x.replies[0 := GotOutcome(Measured(PROBE_RESULT))]
  {
    ProbeEnds();
  }

  /** The Worker runs the case to COMPLETED, and its answer is on the way to the Master. */
  lemma WorkerDecides(run: seq<System>) returns (longer: seq<System>)
    requires IsRun(PROBE_SETUP, run) && RunIssued(run[|run| - 1], PREPARED) && 0 in run[|run| - 1].net
    ensures IsRun(PROBE_SETUP, longer)
    ensures var x, x' := run[|run| - 1], longer[|longer| - 1];
            && RunIssued(x', PROBE_DECIDED) && SameMaster(x, x') && x'.net == x.net - {0}
            && 0 in x'.replies && x'.replies[0] == GotOutcome(Measured(PROBE_RESULT))
  {
    ProbeHandled(run[|run| - 1]);
    longer := RunGrows(PROBE_SETUP, run, WorkerHandles(0));
    ProbeFinished(longer[|longer| - 1]);
    longer := RunGrows(PROBE_SETUP, longer, WorkerFinishes(0, Measured(PROBE_RESULT)));
  }

  /** The outcome reaches a task of the Master by call `t`: COMPLETED. */
  lemma ProbePersisted(x: System, t: nat)
    requires t in x.awaiting && t < |x.issued| && x.issued[t] in {Call(RUN, "c", "s"), Call(FETCH, "c", "s")}
    requires t in x.replies && x.replies[t] == GotOutcome(Measured(PROBE_RESULT)) && x.measurements == map[]
    ensures var e := if x.issued[t].kind == RUN then RunReturns(t) else FetchReturns(t);
            && Enabled(PROBE_SETUP, x, e)
            && var x' := Step(PROBE_SETUP, x, e);
               && "c" in x'.store && x'.store["c"].state == COMPLETED
               && x'.issued == x.issued && x'.awaiting == x.awaiting - {t} && x'.tasks == x.tasks
  {
  }

  /** A run has dispatched the case. */
  lemma RunDispatched(report: Master.WorkerState) returns (run: seq<System>)
    ensures IsRun(PROBE_SETUP, run) && RunIssued(run[|run| - 1], PREPARED)
    ensures var x := run[|run| - 1];
            && x.issued == [Call(RUN, "c", "s")] && x.net == x.awaiting == {0} && x.tasks == map[0 := RunTask({})]
            && x.store == map["c" := Stored(RUNNING, None)] && x.replies == map[]
  {
    var u := PROBE_SETUP;
    run := SessionPrepared(report);
    run := RunGrows(u, run, StartRun(0, {"c"}));
    assert run[|run| - 1].tasks == map[0 := RunTask({"c"})];
    run := RunGrows(u, run, DispatchRun(0, "c", "s"));
    assert {"c"} - {"c"} == {};
  }

  /** A cancel task has listed the case and asks the Worker to cancel it. */
  lemma CancelDispatched(run: seq<System>) returns (longer: seq<System>)
    requires IsRun(PROBE_SETUP, run)
    requires var x := run[|run| - 1]; 1 !in x.tasks && x.store == map["c" := Stored(RUNNING, None)]
    ensures IsRun(PROBE_SETUP, longer)
    ensures var x, x' := run[|run| - 1], longer[|longer| - 1];
            && x'.issued == x.issued + [Call(CANCEL, "c", "s")] && x'.tasks == x.tasks[1 := CancelTask({}, true)]
            && x'.net == x.net + {|x.issued|} && x'.awaiting == x.awaiting + {|x.issued|}
            && x'.workers == x.workers && x'.store == x.store && x'.measurements == x.measurements
            && x'.replies == x.replies
  {
    longer := RunGrows(PROBE_SETUP, run, StartCancel(1, {"c"}));
    longer := RunGrows(PROBE_SETUP, longer, DispatchCancel(1, "c", "s"));
    assert {"c"} - {"c"} == {};
  }

  /** A run in which the case is COMPLETED while its cancellation still waits for its reply. */
  lemma LateCancelHappens(report: Master.WorkerState) returns (run: seq<System>)
    ensures IsRun(PROBE_SETUP, run)
    ensures var x := run[|run| - 1];
            && "c" in x.store && x.store["c"].state == COMPLETED
            && 1 in x.awaiting && |x.issued| == 2 && x.issued[1] == Call(CANCEL, "c", "s")
  {
    run := RunDispatched(report);
    run := CancelDispatched(run);
    run := WorkerDecides(run);
    ProbePersisted(run[|run| - 1], 0);
    run := RunGrows(PROBE_SETUP, run, RunReturns(0));
  }

  lemma DecidedStays()
    ensures Runner.Next(PROBE_SETUP.policy, "w", PROBE_DECIDED, Runner.CancelCase("s", "c")) == PROBE_DECIDED
    ensures Runner.Next(PROBE_SETUP.policy, "w", PROBE_DECIDED, Runner.GetCase("s", "c")) == PROBE_DECIDED
  {
    assert Runner.Next(PROBE_SETUP.policy, "w", PROBE_DECIDED, Runner.GetCase("s", "c")).answered ==
           PROBE_DECIDED.answered;
  }

  /** The Worker answers a cancellation of the decided case with its state and a fetch with its outcome. */
  lemma DecidedAnswers(x: System, t: nat)
    requires RunIssued(x, PROBE_DECIDED) && t in x.net && t < |x.issued|
    requires x.issued[t] in {Call(CANCEL, "c", "s"), Call(FETCH, "c", "s")}
    ensures Enabled(PROBE_SETUP, x, WorkerHandles(t))
    ensures var y := Step(PROBE_SETUP, x, WorkerHandles(t));
            && RunIssued(y, PROBE_DECIDED) && SameMaster(x, y) && t in y.replies
            && y.replies[t] ==
               if x.issued[t].kind == CANCEL then GotState(COMPLETED) else GotOutcome(Measured(PROBE_RESULT))
  {
    DecidedStays();
  }

  lemma CancelReturned(x: System)
    requires |x.issued| == 2 && x.issued[1] == Call(CANCEL, "c", "s") && x.awaiting == {1}
    requires 1 in x.replies && x.replies[1] == GotState(COMPLETED)
    ensures Enabled(PROBE_SETUP, x, CancelReturns(1))
    ensures Step(PROBE_SETUP, x, CancelReturns(1)) ==
            x.(issued := x.issued + [Call(FETCH, "c", "s")], net := x.net + {2}, awaiting := {2})
  {
  }

  /** The cancellation comes too late at the Worker, and the Master asks for the outcome. */
  lemma CancelComesLate(run: seq<System>) returns (longer: seq<System>)
    requires IsRun(PROBE_SETUP, run)
    requires var x := run[|run| - 1];
             && RunIssued(x, PROBE_DECIDED) && |x.issued| == 2 && x.issued[1] == Call(CANCEL, "c", "s")
             && 1 in x.net && x.awaiting == {1}
    ensures IsRun(PROBE_SETUP, longer)
    ensures var x, x' := run[|run| - 1], longer[|longer| - 1];
            && RunIssued(x', PROBE_DECIDED) && x'.issued == x.issued + [Call(FETCH, "c", "s")]
            && 2 in x'.net && x'.awaiting == {2} && x'.tasks == x.tasks
  {
    DecidedAnswers(run[|run| - 1], 1);
    longer := RunGrows(PROBE_SETUP, run, WorkerHandles(1));
    CancelReturned(longer[|longer| - 1]);
    longer := RunGrows(PROBE_SETUP, longer, CancelReturns(1));
  }

  /** The fetched outcome is persisted: COMPLETED, and nothing is awaited any more. */
  lemma OutcomeFetched(run: seq<System>) returns (longer: seq<System>)
    requires IsRun(PROBE_SETUP, run)
    requires var x := run[|run| - 1];
             && RunIssued(x, PROBE_DECIDED) && |x.issued| == 3 && x.issued[2] == Call(FETCH, "c", "s")
             && 2 in x.net && x.awaiting == {2}
    ensures IsRun(PROBE_SETUP, longer)
    ensures var x, x' := run[|run| - 1], longer[|longer| - 1];
            "c" in x'.store && x'.store["c"].state == COMPLETED && x'.awaiting == {} && x'.tasks == x.tasks
  {
    DecidedAnswers(run[|run| - 1], 2);
    longer := RunGrows(PROBE_SETUP, run, WorkerHandles(2));
    ProbePersisted(longer[|longer| - 1], 2);
    longer := RunGrows(PROBE_SETUP, longer, FetchReturns(2));
  }

  /** The dispatching run is cancelled after the Worker has decided the case. */
  lemma RunCancelled(report: Master.WorkerState) returns (run: seq<System>)
    ensures IsRun(PROBE_SETUP, run) && RunIssued(run[|run| - 1], PROBE_DECIDED)
    ensures var x := run[|run| - 1];
            && x.issued == [Call(RUN, "c", "s")] && x.awaiting == {} && x.tasks == map[]
            && x.store == map["c" := Stored(RUNNING, None)]
  {
    run := RunDispatched(report);
    run := WorkerDecides(run);
    run := RunGrows(PROBE_SETUP, run, AbandonCall(0));
    run := RunGrows(PROBE_SETUP, run, TaskCancelled(0));
  }

  /** While a cancellation waits for its reply, a new start lists the case. */
  lemma ListedAnew(run: seq<System>) returns (longer: seq<System>)
    requires IsRun(PROBE_SETUP, run)
    requires var x := run[|run| - 1]; 2 !in x.tasks && x.store == map["c" := Stored(RUNNING, None)]
    ensures IsRun(PROBE_SETUP, longer)
    ensures var x := run[|run| - 1]; longer[|longer| - 1] == x.(tasks := x.tasks[2 := RunTask({"c"})])
  {
    longer := RunGrows(PROBE_SETUP, run, StartRun(2, {"c"}));
  }

  lemma PrepareFails(x: System, k: nat, cid: string)
    requires RunLists(x, k, cid)
    ensures Enabled(PROBE_SETUP, x, GiveUpRun(k, {cid}))
    ensures var x' := Step(PROBE_SETUP, x, GiveUpRun(k, {cid}));
            cid in x'.store && x'.store[cid].state == FAILED && x'.measurements == x.measurements
  {
  }

  /** A run in which a new start lists the case while a cancellation of it waits; the cancellation finds it COMPLETED at
      the Worker and persists that; then, with no call about the case awaited, the new run fails to prepare its session
      and records FAILED. */
  lemma LatePrepareFailureRewrites(report: Master.WorkerState) returns (run: seq<System>)
    ensures IsRun(PROBE_SETUP, run) && |run| > 1
    ensures var x, x' := run[|run| - 2], run[|run| - 1];
            && "c" in x.store && x.store["c"].state == COMPLETED && !Awaited(x, "c")
            && "c" in x'.store && x'.store["c"].state == FAILED && x'.measurements == x.measurements
  {
    run := RunCancelled(report);
    run := CancelDispatched(run);
    run := ListedAnew(run);
    run := CancelComesLate(run);
    run := OutcomeFetched(run);
    PrepareFails(run[|run| - 1], 2, "c");
    run := RunGrows(PROBE_SETUP, run, GiveUpRun(2, {"c"}));
  }
}
