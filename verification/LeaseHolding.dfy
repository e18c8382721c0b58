/**
 When a compute session holds the devices it was prepared with
 (src/edgeshard/control/worker/profiling_runner.py, profiling_leases.py).

 A session gets its devices all at once before it exists.  Only the end of a Close for it, or the final
 release of the shutdown, takes them away, also while it is still being prepared, and then all of them.
 */
module LeaseHolding {
  import opened Options
  import opened Leases
  import opened Ledger
  import opened ProfilingRunner
  import Master

  /** All its devices as long as nothing took them, none once something did. */
  ghost predicate HoldsUnlessStripped(leases: LeaseMap, stripped: set<string>, sid: string, devices: seq<string>)
  {
    && devices != []
    && (sid !in stripped ==> forall i :: 0 <= i < |devices| ==> Holds(leases, sid, devices[i]))
    && (sid in stripped ==> forall d :: d in leases ==> leases[d] != sid)
  }

  ghost predicate PreparedOk(leases: LeaseMap, stripped: set<string>, prep: Prep)
  {
    prep.Computing? ==>
      && prep.request.kind != NETWORK_SESSION
      && HoldsUnlessStripped(leases, stripped, prep.sid, prep.request.devices)
  }

  ghost predicate SessionsOk(leases: LeaseMap, stripped: set<string>, sessions: Sessions)
  {
    forall sid :: sid in sessions && sessions[sid].kind != NETWORK_SESSION ==>
      HoldsUnlessStripped(leases, stripped, sid, sessions[sid].devices)
  }

  ghost predicate HoldingInv(s: State)
  {
    PreparedOk(s.leases, s.stripped, s.prep) && SessionsOk(s.leases, s.stripped, s.sessions)
  }

  /** What other sessions hold does not matter to this one. */
  ghost predicate SameFor(sid: string, leases: LeaseMap, leases': LeaseMap)
  {
    forall d :: Holds(leases, sid, d) <==> Holds(leases', sid, d)
  }

  lemma HoldingKept(leases: LeaseMap, leases': LeaseMap, stripped: set<string>, stripped': set<string>, sid: string,
                    devices: seq<string>)
    requires HoldsUnlessStripped(leases, stripped, sid, devices) && SameFor(sid, leases, leases') &&
             (sid in stripped <==> sid in stripped')
    ensures HoldsUnlessStripped(leases', stripped', sid, devices)
  {
    if sid in stripped {
      forall d | d in leases' ensures leases'[d] != sid {
        assert !Holds(leases, sid, d) && !Holds(leases', sid, d);
      }
    }
  }

  /** Handlers that only write into the ledger. */
  lemma LedgerOnly(s: State, sessions': Sessions)
    requires HoldingInv(s) && s.sessions.Keys == sessions'.Keys && Extends(s.sessions, sessions')
    ensures SessionsOk(s.leases, s.stripped, sessions')
  {
    forall sid | sid in sessions' && sessions'[sid].kind != NETWORK_SESSION
      ensures HoldsUnlessStripped(s.leases, s.stripped, sid, sessions'[sid].devices) {
      assert Successor(s.sessions[sid], sessions'[sid]);
    }
  }

  lemma AcquireHolds(policy: Policy, s: State, state: Master.WorkerState, sid: string, request: SessionRequest)
    requires Inv(s) && HoldingInv(s) && s.prep == Inspecting(sid, request) && request.kind != NETWORK_SESSION
    ensures HoldingInv(AfterInspection(policy, s, state, true)) && HoldingInv(AfterInspection(policy, s, state, false))
  {
    RefusedPrepareRestoresLeases(policy, s, state, true);
    AcquireEffect(policy, s.leases, sid, request.devices, state);
    var (leases', r) := Acquire(policy, s.leases, sid, request.devices, state);
    if r.Leased? {
      var stripped' := s.stripped - {sid};
      assert HoldsUnlessStripped(leases', stripped', sid, request.devices);
      forall other | other in s.sessions && s.sessions[other].kind != NETWORK_SESSION
        ensures HoldsUnlessStripped(leases', stripped', other, s.sessions[other].devices)
      {
        AcquireSame(s.leases, leases', sid, other, request.devices);
        HoldingKept(s.leases, leases', s.stripped, stripped', other, s.sessions[other].devices);
      }
    }
  }

  lemma AcquireSame(leases: LeaseMap, leases': LeaseMap, sid: string, other: string, ids: seq<string>)
    requires other != sid && forall d :: d in leases && leases[d] != sid ==> d in leases' && leases'[d] == leases[d]
    requires forall d :: d in leases' <==> d in leases || d in ids
    requires forall d :: d in leases' ==> leases'[d] == if d in ids then sid else leases[d]
    ensures SameFor(other, leases, leases')
  {
  }

  lemma ReleaseSame(leases: LeaseMap, sid: string, other: string)
    requires other != sid
    ensures SameFor(other, leases, WithoutSession(leases, sid))
  {
  }

  lemma ReleaseSessionHolds(s: State, sid: string, other: string, devices: seq<string>, stripped': set<string>)
    requires HoldsUnlessStripped(s.leases, s.stripped, other, devices)
    requires stripped' == s.stripped || stripped' == s.stripped + {sid}
    requires other == sid ==> sid in stripped'
    ensures HoldsUnlessStripped(WithoutSession(s.leases, sid), stripped', other, devices)
  {
    if other != sid {
      ReleaseSame(s.leases, sid, other);
      HoldingKept(s.leases, WithoutSession(s.leases, sid), s.stripped, stripped', other, devices);
    }
  }

  lemma PrepareHolds(policy: Policy, worker: string, s: State, e: Event)
    requires Inv(s) && HoldingInv(s) && Enabled(s, e) &&
             (e.PrepareBegins? || e.Inspected? || e.Prepared? || e.PrepareFails?)
    ensures HoldingInv(Next(policy, worker, s, e))
  {
    match e
    case PrepareBegins(_, _) =>
    case Inspected(state, facts) =>
      if s.prep.request.kind != NETWORK_SESSION { AcquireHolds(policy, s, state, s.prep.sid, s.prep.request); }
    case Prepared =>
    case PrepareFails =>
      if s.prep.Computing? {
        forall other | other in s.sessions && s.sessions[other].kind != NETWORK_SESSION
          ensures HoldsUnlessStripped(WithoutSession(s.leases, s.prep.sid), s.stripped, other,
                                      s.sessions[other].devices)
        {
          ReleaseSessionHolds(s, s.prep.sid, other, s.sessions[other].devices, s.stripped);
        }
      }
  }

  lemma CloseEndsHolds(policy: Policy, worker: string, s: State, e: Event)
    requires HoldingInv(s) && Enabled(s, e) && (e.CloseEnds? || e.CloseCancelled?)
    ensures HoldingInv(Next(policy, worker, s, e))
  {
    var sid, s' := s.closes[e.task].sid, Next(policy, worker, s, e);
    if s.prep.Computing? { ReleaseSessionHolds(s, sid, s.prep.sid, s.prep.request.devices, s'.stripped); }
    forall other | other in s.sessions && s.sessions[other].kind != NETWORK_SESSION
      ensures HoldsUnlessStripped(s'.leases, s'.stripped, other, s.sessions[other].devices)
    {
      ReleaseSessionHolds(s, sid, other, s.sessions[other].devices, s'.stripped);
    }
  }

  lemma ReleaseEverythingHolds(policy: Policy, worker: string, s: State)
    requires HoldingInv(s)
    ensures HoldingInv(Next(policy, worker, s, ReleaseEverything))
  {
  }

  lemma LedgerHolds(policy: Policy, worker: string, s: State, e: Event)
    requires Inv(s) && HoldingInv(s) && Enabled(s, e)
    requires e.RunBegins? || e.RunEnds? || e.RunCancelled? || e.GetCase? || e.CancelCase? || e.CloseBegins? ||
             e.CloseMarks?
    ensures HoldingInv(Next(policy, worker, s, e))
  {
    NextKeepsInv(policy, worker, s, e);
    SameSessions(policy, worker, s, e);
    LedgerOnly(s, Next(policy, worker, s, e).sessions);
  }

  lemma RunsLeaveRest(policy: Policy, worker: string, s: State, e: Event)
    requires Inv(s) && Enabled(s, e) && (e.RunBegins? || e.RunEnds?)
    ensures SameRest(s, Next(policy, worker, s, e))
  {
    if e.RunBegins? {
      BeginRunEffect(s.leases, s.sessions, worker, e.sid, e.case_);
    } else {
      EndRunEffect(s.sessions, s.runs[e.task].sid, s.runs[e.task].case_.id, e.outcome);
    }
  }

  ghost predicate SameRest(s: State, s': State)
  {
    s'.sessions.Keys == s.sessions.Keys && s'.leases == s.leases && s'.prep == s.prep && s'.stripped == s.stripped
  }

  lemma CancelLeavesRest(policy: Policy, worker: string, s: State, sid: string, cid: string)
    requires LedgerOk(s.sessions)
    ensures SameRest(s, Next(policy, worker, s, CancelCase(sid, cid)))
  {
    CancelGrows(s.sessions, sid, cid);
  }

  lemma OthersLeaveRest(policy: Policy, worker: string, s: State, e: Event)
    requires Enabled(s, e) && (e.RunCancelled? || e.GetCase? || e.CloseBegins? || e.CloseMarks?)
    ensures SameRest(s, Next(policy, worker, s, e))
  {
  }

  lemma SameSessions(policy: Policy, worker: string, s: State, e: Event)
    requires Inv(s) && Enabled(s, e)
    requires e.RunBegins? || e.RunEnds? || e.RunCancelled? || e.GetCase? || e.CancelCase? || e.CloseBegins? ||
             e.CloseMarks?
    ensures SameRest(s, Next(policy, worker, s, e))
  {
    if e.RunBegins? || e.RunEnds? {
      RunsLeaveRest(policy, worker, s, e);
    } else if e.CancelCase? {
      CancelLeavesRest(policy, worker, s, e.sid, e.cid);
    } else {
      OthersLeaveRest(policy, worker, s, e);
    }
  }

  lemma NextHolds(policy: Policy, worker: string, s: State, e: Event)
    requires Inv(s) && HoldingInv(s) && Enabled(s, e)
    ensures HoldingInv(Next(policy, worker, s, e))
  {
    if e.PrepareBegins? || e.Inspected? || e.Prepared? || e.PrepareFails? {
      PrepareHolds(policy, worker, s, e);
    } else if e.CloseEnds? || e.CloseCancelled? {
      CloseEndsHolds(policy, worker, s, e);
    } else if e.ReleaseEverything? {
      ReleaseEverythingHolds(policy, worker, s);
    } else {
      LedgerHolds(policy, worker, s, e);
    }
  }

  lemma {:induction false} EveryRunHolds(policy: Policy, worker: string, run: seq<State>, i: nat)
    requires IsRun(policy, worker, run) && i < |run|
    ensures HoldingInv(run[i])
  {
    if i > 0 {
      EveryRunHolds(policy, worker, run, i - 1);
      EveryRunKeepsInv(policy, worker, run, i - 1);
      assert Follows(policy, worker, run[i - 1], run[i]);
      var e :| Enabled(run[i - 1], e) && run[i] == Next(policy, worker, run[i - 1], e);
      NextHolds(policy, worker, run[i - 1], e);
    }
  }

  /** In every run a compute session, open or not, holds all the devices it was prepared with if and only if neither
      a Close of it nor the shutdown has released them since; otherwise it holds no device at all. */
  lemma OpenHoldsLeaseIff(policy: Policy, worker: string, run: seq<State>, i: nat, sid: string)
    requires IsRun(policy, worker, run) && i < |run| && sid in run[i].sessions &&
             run[i].sessions[sid].kind != NETWORK_SESSION
    ensures var s, devices := run[i], run[i].sessions[sid].devices;
            && devices != []
            && (sid !in s.stripped <==> forall k :: 0 <= k < |devices| ==> Holds(s.leases, sid, devices[k]))
            && (sid in s.stripped <==> forall d :: d in s.leases ==> s.leases[d] != sid)
  {
    EveryRunHolds(policy, worker, run, i);
    var s, devices := run[i], run[i].sessions[sid].devices;
    assert HoldsUnlessStripped(s.leases, s.stripped, sid, devices);
    if sid !in s.stripped { assert Holds(s.leases, sid, devices[0]); }
         else { assert !Holds(s.leases, sid, devices[0]); }
  }

  /** The steps that release a session's leases while it has them. */
  predicate Strips(s: State, e: Event, sid: string)
  {
    && (e.ReleaseEverything? || ((e.CloseEnds? || e.CloseCancelled?) && e.task in s.closes &&
                                 s.closes[e.task].sid == sid))
    && sid in Granted(s)
  }

  /** A session that exists is stripped by exactly those steps, and stays so. */
  lemma StrippedExactlyBy(policy: Policy, worker: string, s: State, e: Event, sid: string)
    requires Inv(s) && Enabled(s, e) && sid in Granted(s) && sid in Granted(Next(policy, worker, s, e))
    ensures sid in Next(policy, worker, s, e).stripped <==> sid in s.stripped || Strips(s, e, sid)
  {
    if e.PrepareBegins? || e.Inspected? || e.Prepared? || e.PrepareFails? {
      PrepareStripsNothing(policy, worker, s, e, sid);
    } else if !e.CloseEnds? && !e.CloseCancelled? && !e.ReleaseEverything? {
      SameSessions(policy, worker, s, e);
    }
  }

  lemma PrepareStripsNothing(policy: Policy, worker: string, s: State, e: Event, sid: string)
    requires Inv(s) && Enabled(s, e) && (e.PrepareBegins? || e.Inspected? || e.Prepared? || e.PrepareFails?) &&
             sid in Granted(s)
    ensures sid in Next(policy, worker, s, e).stripped <==> sid in s.stripped
  {
  }

  // ---------------------------------------------------------------------------
  // What a cancelled Close can leave behind
  // ---------------------------------------------------------------------------

  /** Nothing is being prepared, every session is closed, and no Close handler is left, only threads that outlived
      theirs. */
  predicate Quiet(s: State)
  {
    !s.prep.Computing? && s.closes.Keys <= s.dead && forall sid :: sid in s.sessions ==> s.sessions[sid].closed
  }

  /** In every run, when all is quiet, no lease is left if and only if every compute session's devices were released,
      and every lease left belongs to a session that such a thread closed. */
  lemma LeakFreeIff(policy: Policy, worker: string, run: seq<State>, i: nat)
    requires IsRun(policy, worker, run) && i < |run| && Quiet(run[i])
    ensures run[i].leases == map[] <==>
            forall sid :: sid in run[i].sessions && run[i].sessions[sid].kind != NETWORK_SESSION ==>
              sid in run[i].stripped
    ensures forall d :: d in run[i].leases ==> Closing(run[i].closes, run[i].leases[d])
    ensures run[i].dead == {} ==> run[i].leases == map[]
  {
    var s := run[i];
    EveryRunKeepsInv(policy, worker, run, i);
    EveryRunHolds(policy, worker, run, i);
    EveryRunLeasesCompute(policy, worker, run, i);
    forall d | d in s.leases ensures Closing(s.closes, s.leases[d]) && s.leases[d] in s.sessions &&
    s.leases[d] !in s.stripped {
      assert MayHold(s.prep, s.sessions, s.closes, s.leases[d]);
      LeaseholderNotStripped(s, d);
    }
    forall sid | sid in s.sessions && s.sessions[sid].kind != NETWORK_SESSION && sid !in s.stripped
      ensures s.leases != map[] {
      assert HoldsUnlessStripped(s.leases, s.stripped, sid, s.sessions[sid].devices);
      assert Holds(s.leases, sid, s.sessions[sid].devices[0]);
    }
  }

  lemma LeaseholderNotStripped(s: State, d: string)
    requires HoldingInv(s) && d in s.leases && s.leases[d] in s.sessions &&
             s.sessions[s.leases[d]].kind != NETWORK_SESSION
    ensures s.leases[d] !in s.stripped
  {
    assert HoldsUnlessStripped(s.leases, s.stripped, s.leases[d], s.sessions[s.leases[d]].devices);
  }

  /** Network sessions never hold a device. */
  ghost predicate OnlyCompute(s: State)
  {
    forall d :: d in s.leases && s.leases[d] in s.sessions ==> s.sessions[s.leases[d]].kind != NETWORK_SESSION
  }

  lemma NextOnlyCompute(policy: Policy, worker: string, s: State, e: Event)
    requires Inv(s) && HoldingInv(s) && OnlyCompute(s) && Enabled(s, e)
    ensures OnlyCompute(Next(policy, worker, s, e))
  {
    var s' := Next(policy, worker, s, e);
    NextKeepsInv(policy, worker, s, e);
    forall d | d in s'.leases && s'.leases[d] in s'.sessions ensures s'.sessions[s'.leases[d]].kind != NETWORK_SESSION {
      LeaseCame(policy, worker, s, e, d);
      if s'.leases[d] in s.sessions { assert Successor(s.sessions[s'.leases[d]], s'.sessions[s'.leases[d]]); }
    }
  }

  /** A lease after a step was there before, or was just acquired for the session being prepared. */
  lemma LeaseCame(policy: Policy, worker: string, s: State, e: Event, d: string)
    requires Inv(s) && PreparedOk(s.leases, s.stripped, s.prep) && Enabled(s, e)
    requires var s' := Next(policy, worker, s, e); d in s'.leases && s'.leases[d] in s'.sessions
    ensures var s' := Next(policy, worker, s, e);
            && d in s.leases && s.leases[d] == s'.leases[d]
            && (s'.leases[d] !in s.sessions ==> s'.sessions[s'.leases[d]].kind != NETWORK_SESSION)
  {
    if e.Inspected? {
      AcquireEffect(policy, s.leases, s.prep.sid, s.prep.request.devices, e.state);
      RefusedPrepareRestoresLeases(policy, s, e.state, e.factsComplete);
    } else if !e.Prepared? && !e.PrepareBegins? && !e.PrepareFails? && !e.CloseEnds? && !e.CloseCancelled? &&
              !e.ReleaseEverything? {
      SameSessions(policy, worker, s, e);
    }
  }

  lemma {:induction false} EveryRunLeasesCompute(policy: Policy, worker: string, run: seq<State>, i: nat)
    requires IsRun(policy, worker, run) && i < |run|
    ensures OnlyCompute(run[i])
  {
    if i > 0 {
      EveryRunLeasesCompute(policy, worker, run, i - 1);
      EveryRunHolds(policy, worker, run, i - 1);
      EveryRunKeepsInv(policy, worker, run, i - 1);
      assert Follows(policy, worker, run[i - 1], run[i]);
      var e :| Enabled(run[i - 1], e) && run[i] == Next(policy, worker, run[i - 1], e);
      NextOnlyCompute(policy, worker, run[i - 1], e);
    }
  }

  /** The state after a Close of "s" was cancelled with its thread running, before "s" was ever prepared. */
  function AfterCancelledClose(): State
  {
    INITIAL.(closes := map[0 := CloseTask("s", false)], touched := {"s"}, dead := {0})
  }

  lemma CancelledCloseFollows(policy: Policy, s1: State)
    requires s1 == INITIAL.(closes := map[0 := CloseTask("s", false)], touched := {"s"})
    ensures Follows(policy, "w", INITIAL, s1) && Follows(policy, "w", s1, AfterCancelledClose())
  {
    assert s1 == Next(policy, "w", INITIAL, CloseBegins(0, "s"));
    assert WithoutSession(s1.leases, "s") == map[];
    assert AfterCancelledClose() == Next(policy, "w", s1, CloseCancelled(0));
  }

  lemma LatePrepareFollows(policy: Policy, request: SessionRequest, report: Master.WorkerState, s3: State, s4: State)
    requires request == SessionRequest(MODEL_SESSION, ["gpu"])
    requires Acquire(policy, map[], "s", request.devices, report) == (map["gpu" := "s"], Leased(request.devices))
    requires s3 == AfterCancelledClose().(prep := Inspecting("s", request))
    requires s4 == AfterCancelledClose().(prep := Computing("s", request), leases := map["gpu" := "s"])
    ensures Follows(policy, "w", AfterCancelledClose(), s3) && Follows(policy, "w", s3, s4)
  {
    assert s3 == Next(policy, "w", AfterCancelledClose(), PrepareBegins("s", request));
    assert s4 == Next(policy, "w", s3, Inspected(report, true));
  }

  lemma LateMarkFollows(policy: Policy, request: SessionRequest, s4: State, s5: State, s6: State)
    requires request == SessionRequest(MODEL_SESSION, ["gpu"])
    requires s4 == AfterCancelledClose().(prep := Computing("s", request), leases := map["gpu" := "s"])
    requires s5 == s4.(prep := Idle, sessions := map["s" := Record(MODEL_SESSION, ["gpu"], map[], false)])
    requires s6 == s5.(sessions := map["s" := Record(MODEL_SESSION, ["gpu"], map[], true)],
                       closes := map[0 := CloseTask("s", true)])
    ensures Follows(policy, "w", s4, s5) && Follows(policy, "w", s5, s6)
  {
    assert s5 == Next(policy, "w", s4, Prepared);
    assert Close(s5.sessions, "s").0 == s6.sessions;
    assert s6 == Next(policy, "w", s5, CloseMarks(0));
  }

  /** Such a thread can close a session prepared later: all is quiet and a device stays leased. */
  lemma LateMarkLeaks() returns (policy: Policy, run: seq<State>)
    ensures IsRun(policy, "w", run)
    ensures var s := run[|run| - 1]; Quiet(s) && s.leases == map["gpu" := "s"]
  {
    policy := Policy(5.0, NoFloor);
    var request := SessionRequest(MODEL_SESSION, ["gpu"]);
    var report := Master.WorkerState("w", [Master.DeviceState("gpu", None, Master.AVAILABLE, [])], [], []);
    GpuIsLeased(policy, report);
    var s1 := INITIAL.(closes := map[0 := CloseTask("s", false)], touched := {"s"});
    var s2 := AfterCancelledClose();
    var s3 := s2.(prep := Inspecting("s", request));
    var s4 := s2.(prep := Computing("s", request), leases := map["gpu" := "s"]);
    var s5 := s4.(prep := Idle, sessions := map["s" := Record(MODEL_SESSION, ["gpu"], map[], false)]);
    var s6 := s5.(sessions := map["s" := Record(MODEL_SESSION, ["gpu"], map[], true)],
                  closes := map[0 := CloseTask("s", true)]);
    CancelledCloseFollows(policy, s1);
    LatePrepareFollows(policy, request, report, s3, s4);
    LateMarkFollows(policy, request, s4, s5, s6);
    run := [INITIAL];
    RunGrows(policy, "w", run, s1); run := run + [s1];
    RunGrows(policy, "w", run, s2); run := run + [s2];
    RunGrows(policy, "w", run, s3); run := run + [s3];
    RunGrows(policy, "w", run, s4); run := run + [s4];
    RunGrows(policy, "w", run, s5); run := run + [s5];
    RunGrows(policy, "w", run, s6); run := run + [s6];
  }

  // ---------------------------------------------------------------------------
  // A refused acquire that does not restore the map
  // ---------------------------------------------------------------------------

  /** Only device "a" is reported. */
  predicate OnlyA(policy: Policy, state: Master.WorkerState)
  {
    policy.memory.NoFloor? && state.deviceStates == [Master.DeviceState("a", None, Master.AVAILABLE, [])]
  }

  lemma FirstPasses(policy: Policy, state: Master.WorkerState, leased: LeaseMap)
    requires OnlyA(policy, state) && leased == map["a" := "s"]
    ensures Reservable(policy, leased, "s", "a", state) && !Reservable(policy, leased, "s", "b", state)
  {
    assert Reported(state.deviceStates, "a") == Some(state.deviceStates[0]);
    assert Reported(state.deviceStates[..0], "b") == None;
  }

  lemma OneOfTwoPasses(policy: Policy, state: Master.WorkerState, leased: LeaseMap)
    requires OnlyA(policy, state) && leased == map["a" := "s"]
    ensures Passing(policy, leased, "s", ["a", "b"], state) == 1
  {
    FirstPasses(policy, state, leased);
    assert ["a", "b"][1..] == ["b"];
    assert Passing(policy, leased, "s", ["b"], state) == 0;
  }

  lemma TwoDistinct()
    ensures Dedupe(["a", "b"]) == ["a", "b"]
  {
    assert ["a", "b"][..1] == ["a"] && ["a"][..0] == [];
    assert Dedupe(["a"]) == ["a"];
  }

  lemma AcquireRefused(policy: Policy, leased: LeaseMap, session: string, ids: seq<string>, state: Master.WorkerState,
                       devices: seq<string>, n: nat)
    requires session != "" && Dedupe(ids) == devices &&
             Passing(policy, leased, session, devices, state) == n < |devices|
    ensures Acquire(policy, leased, session, ids, state) ==
              (WithoutDevices(leased, devices[..n]), DeviceBusy(devices[n]))
  {
  }

  lemma DropsA(leased: LeaseMap, done: seq<string>)
    requires leased == map["a" := "s"] && done == ["a"]
    ensures WithoutDevices(leased, done) == map[]
  {
    assert "a" in done;
  }

  /** Asking for a device the session holds and one that is not reservable is refused and drops the held one. */
  lemma RefusedDropsHeldLease(policy: Policy, state: Master.WorkerState)
    requires OnlyA(policy, state)
    ensures Acquire(policy, map["a" := "s"], "s", ["a", "b"], state) == (map[], DeviceBusy("b"))
  {
    var leased: LeaseMap, devices := map["a" := "s"], ["a", "b"];
    OneOfTwoPasses(policy, state, leased);
    TwoDistinct();
    AcquireRefused(policy, leased, "s", devices, state, devices, 1);
    DropsA(leased, devices[..1]);
  }
}
