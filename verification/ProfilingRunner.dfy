/**
 The Worker's profiling RPC handlers, each cut at its `await` points and interleaved in every way
 (src/edgeshard/control/worker/profiling_runner.py).

 A Prepare holds the prepare lock and waits twice, for the inspection and for the compute session; a Run
 waits for the benchmark; a Close waits for a thread that marks the session closed.  Any waiting handler
 may be cancelled.  Requests with stale registration tokens are refused before anything is read, so they
 are not steps of the model.
 */
module ProfilingRunner {
  import opened Options
  import opened Leases
  import opened Ledger
  import Master

  datatype CaseSpec = NetworkSpec | ModelSpec(operator: bool, devices: seq<string>)

  datatype Case = Case(id: string, workerId: string, spec: CaseSpec)

  datatype SessionRequest = SessionRequest(kind: SessionKind, devices: seq<string>)

  /** `_kind_mismatch` finds nothing. */
  predicate KindFits(kind: SessionKind, spec: CaseSpec)
  {
    match kind
    case NETWORK_SESSION => spec.NetworkSpec?
    case OPERATOR_SESSION => spec.ModelSpec? && spec.operator
    case MODEL_SESSION => spec.ModelSpec? && !spec.operator
  }

  datatype RunAnswer = Started | Replay(outcome: Outcome) | RunRefused(reason: Rejection) | Misassigned

  /** A Run up to its `await`. */
  function BeginRun(leases: LeaseMap, sessions: Sessions, worker: string, sid: string, case_: Case)
    : (Sessions, RunAnswer)
  {
    var open := RequireOpen(sessions, sid);
    if open.Refused? then (sessions, RunRefused(open.reason))
    else if open.Broken? then (sessions, Misassigned)
    else if case_.workerId != worker then (sessions, Misassigned)
    else if !KindFits(open.value.kind, case_.spec) then (sessions, RunRefused(SESSION_KIND_MISMATCH))
    else if case_.id in open.value.cases then
      var entry := open.value.cases[case_.id];
      if Terminal(entry.state) && entry.outcome.Some? then (sessions, Replay(entry.outcome.value))
      else (sessions, RunRefused(DEVICE_BUSY))
    else if case_.spec.ModelSpec? &&
            exists i :: 0 <= i < |case_.spec.devices| && !Holds(leases, sid, case_.spec.devices[i]) then
      (sessions, RunRefused(DEVICE_BUSY))
    else (MarkRunning(sessions, sid, case_.id).0, Started)
  }

  predicate Holds(leases: LeaseMap, sid: string, device: string)
  {
    device in leases && leases[device] == sid
  }

  datatype EndAnswer = Answered(outcome: Outcome) | Raised

  /** A Run after its benchmark: a decision, the cancellation that came first, or an error. */
  function EndRun(sessions: Sessions, sid: string, cid: string, outcome: Outcome): (Sessions, EndAnswer)
  {
    var (sessions', r) := Decide(sessions, sid, cid, if outcome.Measured? then COMPLETED else FAILED, outcome);
    if r.Ok? then (sessions', Answered(outcome))
    else if r.Broken? && sid in sessions && cid in sessions[sid].cases && sessions[sid].cases[cid].outcome.Some? then
      (sessions', Answered(sessions[sid].cases[cid].outcome.value))
    else (sessions', Raised)
  }

  // ---------------------------------------------------------------------------
  // All handlers together
  // ---------------------------------------------------------------------------

  datatype Prep =
    | Idle
    | Inspecting(sid: string, request: SessionRequest)
    | Computing(sid: string, request: SessionRequest)

  datatype RunTask = RunTask(sid: string, case_: Case)

  /** `marked` once the closing thread has run. */
  datatype CloseTask = CloseTask(sid: string, marked: bool)

  /** `dead` are the Closes whose handler was cancelled while its thread was running: the thread may still mark the
      session, and nobody releases after it.  The four fields before are history: benchmark starts, outcomes answered by
      accepted Runs and Gets, the sessions for which a Close or the shutdown has begun, and those whose leases a Close
      or the shutdown has taken since they were acquired. */
  datatype State = State(
    leases: LeaseMap, sessions: Sessions, prep: Prep, runs: map<nat, RunTask>, closes: map<nat, CloseTask>,
    started: multiset<(string, string)>, answered: set<(string, string, Outcome)>, touched: set<string>,
    stripped: set<string>, dead: set<nat>)

  const INITIAL := State(map[], map[], Idle, map[], map[], multiset{}, {}, {}, {}, {})

  datatype Event =
    | PrepareBegins(sid: string, request: SessionRequest)
    | Inspected(state: Master.WorkerState, factsComplete: bool)
    | Prepared
    | PrepareFails
    | RunBegins(task: nat, sid: string, case_: Case)
    | RunEnds(task: nat, outcome: Outcome)
    | RunCancelled(task: nat)
    | GetCase(sid: string, cid: string)
    | CancelCase(sid: string, cid: string)
    | CloseBegins(task: nat, sid: string)
    | CloseMarks(task: nat)
    | CloseEnds(task: nat)
    | CloseCancelled(task: nat)
    | ReleaseEverything

  predicate Enabled(s: State, e: Event)
  {
    match e
    case PrepareBegins(_, _) => s.prep.Idle?
    case Inspected(_, _) => s.prep.Inspecting?
    case Prepared => s.prep.Computing?
    case PrepareFails => !s.prep.Idle?
    case RunBegins(t, _, _) => t !in s.runs
    case RunEnds(t, _) => t in s.runs
    case RunCancelled(t) => t in s.runs
    case CloseBegins(t, _) => t !in s.closes
    case CloseMarks(t) => t in s.closes && !s.closes[t].marked
    case CloseEnds(t) => t in s.closes && t !in s.dead
    case CloseCancelled(t) => t in s.closes && t !in s.dead && !s.closes[t].marked
    case _ => true
  }

  /** After the inspection: a network session exists at once, a compute session first needs its devices. */
  function AfterInspection(policy: Policy, s: State, state: Master.WorkerState, factsComplete: bool): State
    requires s.prep.Inspecting?
  {
    var sid, request := s.prep.sid, s.prep.request;
    if request.kind == NETWORK_SESSION then
      if !factsComplete then s.(prep := Idle)
      else s.(prep := Idle, sessions := Create(s.sessions, sid, request.kind, request.devices).0)
    else
      var (leases', r) := Acquire(policy, s.leases, sid, request.devices, state);
      s.(leases := leases', prep := if r.Leased? then Computing(sid, request) else Idle,
         stripped := if r.Leased? then s.stripped - {sid} else s.stripped)
  }

  /** The sessions that exist, and the one being prepared once it has its devices. */
  function Granted(s: State): set<string>
  {
    s.sessions.Keys + if s.prep.Computing? then {s.prep.sid} else {}
  }

  function Next(policy: Policy, worker: string, s: State, e: Event): State
    requires Enabled(s, e)
  {
    match e
    case PrepareBegins(sid, request) => if sid in s.sessions then s else s.(prep := Inspecting(sid, request))
    case Inspected(state, factsComplete) => AfterInspection(policy, s, state, factsComplete)
    case Prepared =>
      s.(prep := Idle, sessions := Create(s.sessions, s.prep.sid, s.prep.request.kind, s.prep.request.devices).0)
    case PrepareFails =>
      s.(prep := Idle, leases := if s.prep.Computing? then WithoutSession(s.leases, s.prep.sid) else s.leases)
    case RunBegins(t, sid, case_) =>
      var (sessions', r) := BeginRun(s.leases, s.sessions, worker, sid, case_);
      if r.Started? then s.(sessions := sessions', runs := s.runs[t := RunTask(sid, case_)],
                            started := s.started + multiset{(sid, case_.id)})
      else if r.Replay? then s.(answered := s.answered + {(sid, case_.id, r.outcome)})
      else s
    case RunEnds(t, outcome) =>
      var (sid, cid) := (s.runs[t].sid, s.runs[t].case_.id);
      var (sessions', r) := EndRun(s.sessions, sid, cid, outcome);
      s.(sessions := sessions', runs := s.runs - {t},
         answered := if r.Answered? then s.answered + {(sid, cid, r.outcome)} else s.answered)
    case RunCancelled(t) => s.(runs := s.runs - {t})
    case GetCase(sid, cid) =>
      var open := RequireOpen(s.sessions, sid);
      if open.Ok? && cid in open.value.cases && open.value.cases[cid].outcome.Some? then
        s.(answered := s.answered + {(sid, cid, open.value.cases[cid].outcome.value)})
      else s
    case CancelCase(sid, cid) => s.(sessions := Cancel(s.sessions, sid, cid).0)
    case CloseBegins(t, sid) => s.(closes := s.closes[t := CloseTask(sid, false)], touched := s.touched + {sid})
    case CloseMarks(t) =>
      s.(sessions := Close(s.sessions, s.closes[t].sid).0, closes := s.closes[t := s.closes[t].(marked := true)])
    case CloseEnds(t) =>
      var sid := s.closes[t].sid;
      s.(leases := WithoutSession(s.leases, sid), closes := s.closes - {t},
         stripped := if sid in Granted(s) then s.stripped + {sid} else s.stripped)
    case CloseCancelled(t) =>
      var sid := s.closes[t].sid;
      s.(leases := WithoutSession(s.leases, sid), dead := s.dead + {t},
         stripped := if sid in Granted(s) then s.stripped + {sid} else s.stripped)
    case ReleaseEverything =>
      s.(leases := map[], touched := s.touched + Granted(s), stripped := s.stripped + Granted(s))
  }

  // ---------------------------------------------------------------------------
  // The invariant
  // ---------------------------------------------------------------------------

  /** Who may hold a lease: the session being prepared, an open one, or a closed one whose Close is still in flight. */
  ghost predicate MayHold(prep: Prep, sessions: Sessions, closes: map<nat, CloseTask>, holder: string)
  {
    || (prep.Computing? && prep.sid == holder)
    || (holder in sessions && !sessions[holder].closed)
    || (holder in sessions && Closing(closes, holder))
  }

  ghost predicate Closing(closes: map<nat, CloseTask>, sid: string)
  {
    exists t :: t in closes && closes[t] == CloseTask(sid, true)
  }

  ghost predicate LeasesOk(leases: LeaseMap, prep: Prep, sessions: Sessions, closes: map<nat, CloseTask>)
  {
    forall d :: d in leases ==> MayHold(prep, sessions, closes, leases[d])
  }

  ghost predicate PrepOk(prep: Prep, sessions: Sessions)
  {
    !prep.Idle? ==> prep.sid !in sessions
  }

  predicate HasCase(sessions: Sessions, sid: string, cid: string)
  {
    sid in sessions && cid in sessions[sid].cases
  }

  ghost predicate StartedOk(started: multiset<(string, string)>, sessions: Sessions)
  {
    forall p :: started[p] <= 1 && (p in started ==> HasCase(sessions, p.0, p.1))
  }

  predicate IsDecision(sessions: Sessions, a: (string, string, Outcome))
  {
    HasCase(sessions, a.0, a.1) && Terminal(sessions[a.0].cases[a.1].state) &&
    sessions[a.0].cases[a.1].outcome == Some(a.2)
  }

  ghost predicate AnsweredOk(answered: set<(string, string, Outcome)>, sessions: Sessions)
  {
    forall a :: a in answered ==> IsDecision(sessions, a)
  }

  ghost predicate RunOk(leases: LeaseMap, sessions: Sessions, touched: set<string>, r: RunTask)
  {
    && HasCase(sessions, r.sid, r.case_.id)
    && (r.case_.spec.ModelSpec? && r.sid !in touched ==> forall i :: 0 <= i < |r.case_.spec.devices| ==>
          Holds(leases, r.sid, r.case_.spec.devices[i]))
  }

  ghost predicate RunsOk(runs: map<nat, RunTask>, leases: LeaseMap, sessions: Sessions, touched: set<string>)
  {
    forall t :: t in runs ==> RunOk(leases, sessions, touched, runs[t])
  }

  ghost predicate ClosesOk(closes: map<nat, CloseTask>, touched: set<string>)
  {
    forall t :: t in closes ==> closes[t].sid in touched
  }

  ghost predicate Inv(s: State)
  {
    && PrepOk(s.prep, s.sessions) && LeasesOk(s.leases, s.prep, s.sessions, s.closes) && LedgerOk(s.sessions)
    && StartedOk(s.started, s.sessions) && AnsweredOk(s.answered, s.sessions)
    && RunsOk(s.runs, s.leases, s.sessions, s.touched) && ClosesOk(s.closes, s.touched)
  }

  /** Every open or held fact of `before` survives: leases of untouched sessions that exist are kept. */
  ghost predicate LeasesKept(before: LeaseMap, after: LeaseMap, sessions: Sessions, touched: set<string>)
  {
    forall d :: d in before && before[d] in sessions && before[d] !in touched ==> d in after && after[d] == before[d]
  }

  lemma HistoryKept(s: State, sessions': Sessions, leases': LeaseMap, touched': set<string>)
    requires StartedOk(s.started, s.sessions) && AnsweredOk(s.answered, s.sessions) &&
             RunsOk(s.runs, s.leases, s.sessions, s.touched)
    requires Extends(s.sessions, sessions') && s.touched <= touched' &&
             LeasesKept(s.leases, leases', s.sessions, touched')
    ensures StartedOk(s.started, sessions') && AnsweredOk(s.answered, sessions') &&
            RunsOk(s.runs, leases', sessions', touched')
  {
    forall p | p in s.started ensures HasCase(sessions', p.0, p.1) {
      assert HasCase(s.sessions, p.0, p.1);
      assert Successor(s.sessions[p.0], sessions'[p.0]);
    }
    forall a | a in s.answered ensures IsDecision(sessions', a) {
      assert IsDecision(s.sessions, a);
      assert Successor(s.sessions[a.0], sessions'[a.0]);
    }
    forall t | t in s.runs ensures RunOk(leases', sessions', touched', s.runs[t]) {
      assert RunOk(s.leases, s.sessions, s.touched, s.runs[t]);
      assert Successor(s.sessions[s.runs[t].sid], sessions'[s.runs[t].sid]);
    }
  }

  lemma ExtendsSelf(sessions: Sessions)
    ensures Extends(sessions, sessions)
  {
  }

  /** Holders stay entitled when sessions are only added or written to, and nothing is marked closed. */
  lemma HoldersKept(leases: LeaseMap, prep: Prep, sessions: Sessions, sessions': Sessions, closes: map<nat, CloseTask>)
    requires LeasesOk(leases, prep, sessions, closes)
    requires SameOpen(sessions, sessions')
    ensures LeasesOk(leases, prep, sessions', closes)
  {
    forall d | d in leases ensures MayHold(prep, sessions', closes, leases[d]) {
      assert MayHold(prep, sessions, closes, leases[d]);
    }
  }

  lemma PrepareBeginsStep(s: State, sid: string, request: SessionRequest)
    requires Inv(s) && s.prep.Idle? && sid !in s.sessions
    ensures Inv(s.(prep := Inspecting(sid, request)))
  {
    forall d | d in s.leases ensures MayHold(Inspecting(sid, request), s.sessions, s.closes, s.leases[d]) {
      assert MayHold(s.prep, s.sessions, s.closes, s.leases[d]);
    }
  }

  lemma PreparedStep(s: State, sessions': Sessions)
    requires Inv(s) && s.prep.Computing?
    requires sessions' == Create(s.sessions, s.prep.sid, s.prep.request.kind, s.prep.request.devices).0
    ensures Inv(s.(prep := Idle, sessions := sessions')) && Extends(s.sessions, sessions')
  {
    CreateExtends(s.sessions, s.prep.sid, s.prep.request.kind, s.prep.request.devices);
    HistoryKept(s, sessions', s.leases, s.touched);
    forall d | d in s.leases ensures MayHold(Idle, sessions', s.closes, s.leases[d]) {
      assert MayHold(s.prep, s.sessions, s.closes, s.leases[d]);
    }
  }

  lemma PrepareFailsStep(s: State, leases': LeaseMap)
    requires Inv(s) && !s.prep.Idle?
    requires leases' == if s.prep.Computing? then WithoutSession(s.leases, s.prep.sid) else s.leases
    ensures Inv(s.(prep := Idle, leases := leases'))
  {
    ExtendsSelf(s.sessions);
    HistoryKept(s, s.sessions, leases', s.touched);
    forall d | d in leases' ensures MayHold(Idle, s.sessions, s.closes, leases'[d]) {
      assert MayHold(s.prep, s.sessions, s.closes, s.leases[d]);
    }
  }

  /** A session being prepared holds nothing before its acquire, so a refused acquire changes no lease. */
  lemma RefusedPrepareRestoresLeases(policy: Policy, s: State, state: Master.WorkerState, facts: bool)
    requires Inv(s) && s.prep.Inspecting?
    ensures forall d :: d in s.leases ==> s.leases[d] != s.prep.sid
    ensures !AfterInspection(policy, s, state, facts).prep.Computing? ==>
              AfterInspection(policy, s, state, facts).leases == s.leases
  {
    forall d | d in s.leases ensures s.leases[d] != s.prep.sid {
      assert MayHold(s.prep, s.sessions, s.closes, s.leases[d]);
    }
    AcquireEffect(policy, s.leases, s.prep.sid, s.prep.request.devices, state);
  }

  lemma AcquireKeeps(policy: Policy, s: State, leases': LeaseMap, sid: string, request: SessionRequest,
                     state: Master.WorkerState)
    requires LeasesOk(s.leases, s.prep, s.sessions, s.closes) && s.prep == Inspecting(sid, request) &&
             sid !in s.sessions
    requires Acquire(policy, s.leases, sid, request.devices, state).0 == leases'
    ensures var outcome := Acquire(policy, s.leases, sid, request.devices, state).1;
            var prep' := if outcome.Leased? then Computing(sid, request) else Idle;
            LeasesOk(leases', prep', s.sessions, s.closes)
    ensures LeasesKept(s.leases, leases', s.sessions, s.touched)
  {
    forall d | d in s.leases ensures s.leases[d] != sid {
      assert MayHold(s.prep, s.sessions, s.closes, s.leases[d]);
    }
    AcquireEffect(policy, s.leases, sid, request.devices, state);
    var outcome := Acquire(policy, s.leases, sid, request.devices, state).1;
    var prep' := if outcome.Leased? then Computing(sid, request) else Idle;
    forall d | d in leases' ensures MayHold(prep', s.sessions, s.closes, leases'[d]) {
      if d in s.leases { assert MayHold(s.prep, s.sessions, s.closes, s.leases[d]); }
    }
  }

  /** A network session needs no devices. */
  lemma NetworkStep(s: State, sessions': Sessions)
    requires Inv(s) && s.prep.Inspecting?
    requires sessions' == s.sessions || sessions' ==
               Create(s.sessions, s.prep.sid, s.prep.request.kind, s.prep.request.devices).0
    ensures Inv(s.(prep := Idle, sessions := sessions')) && Extends(s.sessions, sessions')
  {
    ExtendsSelf(s.sessions);
    CreateExtends(s.sessions, s.prep.sid, s.prep.request.kind, s.prep.request.devices);
    HistoryKept(s, sessions', s.leases, s.touched);
    forall d | d in s.leases ensures MayHold(Idle, sessions', s.closes, s.leases[d]) {
      assert MayHold(s.prep, s.sessions, s.closes, s.leases[d]);
    }
  }

  lemma InspectionStep(policy: Policy, s: State, state: Master.WorkerState, facts: bool)
    requires Inv(s) && s.prep.Inspecting?
    ensures var s' := AfterInspection(policy, s, state, facts); Inv(s') && Extends(s.sessions, s'.sessions)
  {
    var s' := AfterInspection(policy, s, state, facts);
    if s.prep.request.kind == NETWORK_SESSION {
      NetworkStep(s, s'.sessions);
    } else {
      ExtendsSelf(s.sessions);
      AcquireKeeps(policy, s, s'.leases, s.prep.sid, s.prep.request, state);
      HistoryKept(s, s.sessions, s'.leases, s.touched);
    }
  }

  lemma BeginRunEffect(leases: LeaseMap, sessions: Sessions, worker: string, sid: string, case_: Case)
    requires LedgerOk(sessions)
    ensures var (sessions', r) := BeginRun(leases, sessions, worker, sid, case_);
            && Grows(sessions, sessions')
            && (!r.Started? ==> sessions' == sessions)
            && (r.Started? ==> !HasCase(sessions, sid, case_.id) && RunOk(leases, sessions', {}, RunTask(sid, case_)))
            && (r.Replay? ==> IsDecision(sessions, (sid, case_.id, r.outcome)))
  {
    MarkGrows(sessions, sid, case_.id);
    NothingGrows(sessions);
  }

  /** The case may run in a session of this kind: network cases in network sessions only, operator cases in operator
      sessions only, all other model cases in model sessions only. */
  predicate MayRunIn(kind: SessionKind, spec: CaseSpec)
  {
    && (spec.NetworkSpec? <==> kind == NETWORK_SESSION)
    && (spec.ModelSpec? ==> (spec.operator <==> kind == OPERATOR_SESSION))
  }

  /** When a Run is started, replayed or refused, and why. */
  lemma RunAnsweredIff(leases: LeaseMap, sessions: Sessions, worker: string, sid: string, case_: Case)
    requires LedgerOk(sessions)
    ensures var r, cid := BeginRun(leases, sessions, worker, sid, case_).1, case_.id;
            var open := sid in sessions && !sessions[sid].closed;
            var fits := open && case_.workerId == worker && MayRunIn(sessions[sid].kind, case_.spec);
            var held := case_.spec.ModelSpec? ==>
                          forall d :: d in case_.spec.devices ==> d in leases && leases[d] == sid;
            && (r == RunRefused(UNKNOWN_SESSION) <==> sid !in sessions)
            && (r == RunRefused(SESSION_CLOSED) <==> sid in sessions && sessions[sid].closed)
            && (r == Misassigned <==> open && case_.workerId != worker)
            && (r == RunRefused(SESSION_KIND_MISMATCH) <==>
                open && case_.workerId == worker && !MayRunIn(sessions[sid].kind, case_.spec))
            && (r == Started <==> fits && cid !in sessions[sid].cases && held)
            && (r.Replay? <==> fits && cid in sessions[sid].cases && sessions[sid].cases[cid].state != RUNNING)
            && (r == RunRefused(DEVICE_BUSY) <==>
                fits && if cid in sessions[sid].cases then sessions[sid].cases[cid].state == RUNNING else !held)
  {
    if sid in sessions && case_.id in sessions[sid].cases { assert EntryOk(sessions[sid].cases[case_.id]); }
    if case_.spec.ModelSpec? {
      assert (forall i :: 0 <= i < |case_.spec.devices| ==> Holds(leases, sid, case_.spec.devices[i])) <==>
             forall d :: d in case_.spec.devices ==> d in leases && leases[d] == sid;
    }
  }

  /** A started Run writes RUNNING for its case and nothing else; any other answer writes nothing. */
  lemma StartedWrites(leases: LeaseMap, sessions: Sessions, worker: string, sid: string, case_: Case)
    ensures var (sessions', r) := BeginRun(leases, sessions, worker, sid, case_);
            && (!r.Started? ==> sessions' == sessions)
            && (r.Started? ==>
                  && sessions'.Keys == sessions.Keys && sessions' - {sid} == sessions - {sid}
                  && sessions'[sid].cases == sessions[sid].cases[case_.id := Entry(RUNNING, None)]
                  && sessions'[sid] == sessions[sid].(cases := sessions'[sid].cases))
  {
  }

  lemma NothingGrows(sessions: Sessions)
    requires LedgerOk(sessions)
    ensures Grows(sessions, sessions)
  {
  }

  lemma RunBeginsStep(s: State, t: nat, sid: string, case_: Case, sessions': Sessions)
    requires Inv(s) && t !in s.runs && Grows(s.sessions, sessions')
    requires !HasCase(s.sessions, sid, case_.id) && RunOk(s.leases, sessions', {}, RunTask(sid, case_))
    ensures Inv(s.(sessions := sessions', runs := s.runs[t := RunTask(sid, case_)],
                   started := s.started + multiset{(sid, case_.id)}))
  {
    LedgerStep(s, sessions');
    assert (sid, case_.id) !in s.started;
    assert RunOk(s.leases, sessions', s.touched, RunTask(sid, case_));
  }

  /** Whatever an ended Run answers is the decision in the ledger, its own or the cancellation that won. */
  lemma EndRunEffect(sessions: Sessions, sid: string, cid: string, outcome: Outcome)
    requires LedgerOk(sessions)
    ensures var (sessions', r) := EndRun(sessions, sid, cid, outcome);
            && Grows(sessions, sessions')
            && (r.Answered? ==> IsDecision(sessions', (sid, cid, r.outcome)))
            && (HasCase(sessions, sid, cid) ==> (r.Raised? <==> sessions[sid].closed))
  {
    DecideGrows(sessions, sid, cid, if outcome.Measured? then COMPLETED else FAILED, outcome);
    if HasCase(sessions, sid, cid) { assert EntryOk(sessions[sid].cases[cid]); }
  }

  /** An undecided case gets the outcome of its benchmark, COMPLETED exactly if it was measured; a decision that came
      first stands, and is what is answered; a closed session or an unknown case is an error that changes nothing. */
  lemma EndRunMeans(sessions: Sessions, sid: string, cid: string, outcome: Outcome)
    requires LedgerOk(sessions)
    ensures var (after, r) := EndRun(sessions, sid, cid, outcome);
            && (CanDecide(sessions, sid, cid) ==>
                  && r == Answered(outcome)
                  && OnlyEntry(sessions, after, sid, cid,
                               Entry(if outcome.Measured? then COMPLETED else FAILED, Some(outcome))))
            && (!CanDecide(sessions, sid, cid) ==> after == sessions)
            && (!IsOpen(sessions, sid) ==> r == Raised)
            && (IsOpen(sessions, sid) && !CanDecide(sessions, sid, cid) ==>
                  sessions[sid].cases[cid].outcome.Some? && r == Answered(sessions[sid].cases[cid].outcome.value))
  {
    if HasCase(sessions, sid, cid) { assert EntryOk(sessions[sid].cases[cid]); }
  }

  /** A Prepare after its inspection: a network session is created if its facts are complete, a compute session goes on
      exactly if all its devices can be reserved, and then it holds them; otherwise it ends and nothing has changed. */
  lemma InspectedMeans(policy: Policy, s: State, state: Master.WorkerState, facts: bool)
    requires Inv(s) && s.prep.Inspecting?
    ensures var s', sid, request := AfterInspection(policy, s, state, facts), s.prep.sid, s.prep.request;
            var reservable := sid != "" && request.devices != [] &&
                forall d :: d in request.devices ==> Reservable(policy, s.leases, sid, d, state);
            if request.kind == NETWORK_SESSION then
              && s'.prep == Idle && s'.leases == s.leases && s'.sessions - {sid} == s.sessions
              && (facts <==> sid in s'.sessions)
              && (facts ==> s'.sessions[sid] == Record(NETWORK_SESSION, request.devices, map[], false))
            else
              && s'.sessions == s.sessions
              && s'.prep == (if reservable then Computing(sid, request) else Idle)
              && (!reservable ==> s'.leases == s.leases)
              && (reservable ==>
                    && (forall d :: d in request.devices ==> Holds(s'.leases, sid, d))
                    && (forall d :: d !in request.devices ==>
                          (d in s'.leases <==> d in s.leases) && (d in s.leases ==> s'.leases[d] == s.leases[d])))
  {
    RefusedPrepareRestoresLeases(policy, s, state, facts);
    AcquireEffect(policy, s.leases, s.prep.sid, s.prep.request.devices, state);
  }

  lemma LedgerStep(s: State, sessions': Sessions)
    requires Inv(s) && Grows(s.sessions, sessions')
    ensures Inv(s.(sessions := sessions'))
  {
    HistoryKept(s, sessions', s.leases, s.touched);
    HoldersKept(s.leases, s.prep, s.sessions, sessions', s.closes);
  }

  lemma CloseBeginsStep(s: State, t: nat, sid: string)
    requires Inv(s) && t !in s.closes
    ensures Inv(s.(closes := s.closes[t := CloseTask(sid, false)], touched := s.touched + {sid}))
  {
    var closes' := s.closes[t := CloseTask(sid, false)];
    ExtendsSelf(s.sessions);
    HistoryKept(s, s.sessions, s.leases, s.touched + {sid});
    forall d | d in s.leases ensures MayHold(s.prep, s.sessions, closes', s.leases[d]) {
      ClosingKept(s.prep, s.sessions, s.closes, closes', s.leases[d]);
    }
  }

  lemma ClosingKept(prep: Prep, sessions: Sessions, closes: map<nat, CloseTask>, closes': map<nat, CloseTask>,
                    holder: string)
    requires MayHold(prep, sessions, closes, holder)
    requires forall t :: t in closes && closes[t] == CloseTask(holder, true) ==> t in closes' && closes'[t] == closes[t]
    ensures MayHold(prep, sessions, closes', holder)
  {
    if Closing(closes, holder) {
      var t :| t in closes && closes[t] == CloseTask(holder, true);
      assert closes'[t] == CloseTask(holder, true);
    }
  }

  lemma CloseMarksStep(s: State, t: nat)
    requires Inv(s) && t in s.closes && !s.closes[t].marked
    ensures var sessions' := Close(s.sessions, s.closes[t].sid).0;
            && Extends(s.sessions, sessions')
            && Inv(s.(sessions := sessions', closes := s.closes[t := s.closes[t].(marked := true)]))
  {
    var sid := s.closes[t].sid;
    var sessions', closes' := Close(s.sessions, sid).0, s.closes[t := CloseTask(sid, true)];
    CloseExtends(s.sessions, sid);
    HistoryKept(s, sessions', s.leases, s.touched);
    assert closes'[t] == CloseTask(sid, true);
    forall d | d in s.leases ensures MayHold(s.prep, sessions', closes', s.leases[d]) {
      ClosingKept(s.prep, s.sessions, s.closes, closes', s.leases[d]);
    }
  }

  lemma CloseEndsStep(s: State, t: nat, stripped': set<string>)
    requires Inv(s) && t in s.closes
    ensures Inv(s.(leases := WithoutSession(s.leases, s.closes[t].sid), closes := s.closes - {t},
                   stripped := stripped'))
  {
    var leases' := WithoutSession(s.leases, s.closes[t].sid);
    ExtendsSelf(s.sessions);
    HistoryKept(s, s.sessions, leases', s.touched);
    forall d | d in leases' ensures MayHold(s.prep, s.sessions, s.closes - {t}, leases'[d]) {
      ClosingKept(s.prep, s.sessions, s.closes, s.closes - {t}, s.leases[d]);
    }
  }

  /** A cancelled Close releases too; its thread lives on. */
  lemma CloseCancelledStep(s: State, t: nat, stripped': set<string>)
    requires Inv(s) && t in s.closes
    ensures Inv(s.(leases := WithoutSession(s.leases, s.closes[t].sid), dead := s.dead + {t}, stripped := stripped'))
  {
    var leases' := WithoutSession(s.leases, s.closes[t].sid);
    ExtendsSelf(s.sessions);
    HistoryKept(s, s.sessions, leases', s.touched);
    forall d | d in leases' ensures MayHold(s.prep, s.sessions, s.closes, leases'[d]) {
      assert MayHold(s.prep, s.sessions, s.closes, s.leases[d]);
    }
  }

  lemma ReleaseStep(s: State, stripped': set<string>)
    requires Inv(s)
    ensures Inv(s.(leases := map[], touched := s.touched + Granted(s), stripped := stripped'))
  {
    ExtendsSelf(s.sessions);
    HistoryKept(s, s.sessions, map[], s.touched + Granted(s));
  }

  lemma AnswerStep(s: State, a: (string, string, Outcome))
    requires Inv(s) && IsDecision(s.sessions, a)
    ensures Inv(s.(answered := s.answered + {a}))
  {
  }

  lemma DropRun(s: State, t: nat)
    requires Inv(s)
    ensures Inv(s.(runs := s.runs - {t}))
  {
  }

  lemma PrepareKeepsInv(policy: Policy, worker: string, s: State, e: Event)
    requires Inv(s) && Enabled(s, e) && (e.PrepareBegins? || e.Inspected? || e.Prepared? || e.PrepareFails?)
    ensures Inv(Next(policy, worker, s, e)) && Extends(s.sessions, Next(policy, worker, s, e).sessions)
  {
    ExtendsSelf(s.sessions);
    match e
    case PrepareBegins(sid, request) => if sid !in s.sessions { PrepareBeginsStep(s, sid, request); }
    case Inspected(state, facts) => InspectionStep(policy, s, state, facts);
    case Prepared => PreparedStep(s, Next(policy, worker, s, e).sessions);
    case PrepareFails => PrepareFailsStep(s, Next(policy, worker, s, e).leases);
  }

  lemma RunKeepsInv(policy: Policy, worker: string, s: State, e: Event)
    requires Inv(s) && Enabled(s, e) && (e.RunBegins? || e.RunEnds? || e.RunCancelled?)
    ensures Inv(Next(policy, worker, s, e)) && Extends(s.sessions, Next(policy, worker, s, e).sessions)
  {
    ExtendsSelf(s.sessions);
    match e
    case RunBegins(t, sid, case_) =>
      BeginRunEffect(s.leases, s.sessions, worker, sid, case_);
      var r := BeginRun(s.leases, s.sessions, worker, sid, case_).1;
      if r.Started? {
        RunBeginsStep(s, t, sid, case_, BeginRun(s.leases, s.sessions, worker, sid, case_).0);
      } else if r.Replay? {
        AnswerStep(s, (sid, case_.id, r.outcome));
      }
    case RunEnds(t, outcome) =>
      var sid, cid := s.runs[t].sid, s.runs[t].case_.id;
      EndRunEffect(s.sessions, sid, cid, outcome);
      var (sessions', r) := EndRun(s.sessions, sid, cid, outcome);
      LedgerStep(s, sessions');
      DropRun(s.(sessions := sessions'), t);
      if r.Answered? { AnswerStep(s.(sessions := sessions', runs := s.runs - {t}), (sid, cid, r.outcome)); }
    case RunCancelled(t) => DropRun(s, t);
  }

  lemma GetIsDecision(sessions: Sessions, sid: string, cid: string)
    requires LedgerOk(sessions) && HasCase(sessions, sid, cid) && sessions[sid].cases[cid].outcome.Some?
    ensures IsDecision(sessions, (sid, cid, sessions[sid].cases[cid].outcome.value))
  {
    assert EntryOk(sessions[sid].cases[cid]);
  }

  lemma CaseKeepsInv(policy: Policy, worker: string, s: State, e: Event)
    requires Inv(s) && Enabled(s, e) && (e.GetCase? || e.CancelCase?)
    ensures Inv(Next(policy, worker, s, e)) && Extends(s.sessions, Next(policy, worker, s, e).sessions)
  {
    if e.CancelCase? {
      CancelGrows(s.sessions, e.sid, e.cid);
      LedgerStep(s, Cancel(s.sessions, e.sid, e.cid).0);
    } else {
      GetStep(policy, worker, s, e);
    }
  }

  lemma GetStep(policy: Policy, worker: string, s: State, e: Event)
    requires Inv(s) && e.GetCase?
    ensures Inv(Next(policy, worker, s, e)) && Extends(s.sessions, Next(policy, worker, s, e).sessions)
  {
    ExtendsSelf(s.sessions);
    if HasCase(s.sessions, e.sid, e.cid) && s.sessions[e.sid].cases[e.cid].outcome.Some? {
      GetIsDecision(s.sessions, e.sid, e.cid);
      AnswerStep(s, (e.sid, e.cid, s.sessions[e.sid].cases[e.cid].outcome.value));
    }
  }

  lemma CloseKeepsInv(policy: Policy, worker: string, s: State, e: Event)
    requires Inv(s) && Enabled(s, e)
    requires e.CloseBegins? || e.CloseMarks? || e.CloseEnds? || e.CloseCancelled? || e.ReleaseEverything?
    ensures Inv(Next(policy, worker, s, e)) && Extends(s.sessions, Next(policy, worker, s, e).sessions)
  {
    ExtendsSelf(s.sessions);
    match e
    case CloseBegins(t, sid) => CloseBeginsStep(s, t, sid);
    case CloseMarks(t) => CloseMarksStep(s, t);
    case CloseEnds(t) => CloseEndsStep(s, t, Next(policy, worker, s, e).stripped);
    case CloseCancelled(t) => CloseCancelledStep(s, t, Next(policy, worker, s, e).stripped);
    case ReleaseEverything => ReleaseStep(s, s.stripped + Granted(s));
  }

  /** Every handler segment keeps the invariant and never rewrites the ledger. */
  lemma NextKeepsInv(policy: Policy, worker: string, s: State, e: Event)
    requires Inv(s) && Enabled(s, e)
    ensures Inv(Next(policy, worker, s, e)) && Extends(s.sessions, Next(policy, worker, s, e).sessions)
  {
    if e.PrepareBegins? || e.Inspected? || e.Prepared? || e.PrepareFails? {
      PrepareKeepsInv(policy, worker, s, e);
    } else if e.RunBegins? || e.RunEnds? || e.RunCancelled? {
      RunKeepsInv(policy, worker, s, e);
    } else if e.GetCase? || e.CancelCase? {
      CaseKeepsInv(policy, worker, s, e);
    } else {
      CloseKeepsInv(policy, worker, s, e);
    }
  }

  /** A cancellation decides its case if that is undecided in an open session, and does nothing else; a cancelled Run
      is gone and leaves its case as it is. */
  lemma CancelReaches(policy: Policy, worker: string, s: State, sid: string, cid: string, t: nat)
    ensures var s' := Next(policy, worker, s, CancelCase(sid, cid));
            && s' == s.(sessions := s'.sessions)
            && (CanDecide(s.sessions, sid, cid) ==> OnlyEntry(s.sessions, s'.sessions, sid, cid, CANCELLED_ENTRY))
            && (!CanDecide(s.sessions, sid, cid) ==> s'.sessions == s.sessions)
    ensures t in s.runs ==>
              var s' := Next(policy, worker, s, RunCancelled(t)); t !in s'.runs && s' == s.(runs := s.runs - {t})
  {
    CancelMeans(s.sessions, sid, cid);
  }

  /** A Close takes the session out of use when its thread marks it, and all its devices back when it ends; the shutdown
      takes back every device. */
  lemma CloseReaches(policy: Policy, worker: string, s: State, t: nat, d: string)
    requires t in s.closes
    ensures var sid := s.closes[t].sid;
            && (!s.closes[t].marked ==>
                  var s' := Next(policy, worker, s, CloseMarks(t));
                  && !IsOpen(s'.sessions, sid) && s'.sessions - {sid} == s.sessions - {sid} && s'.leases == s.leases
                  && t in s'.closes && s'.closes[t] == CloseTask(sid, true))
            && (t !in s.dead ==>
                  var s' := Next(policy, worker, s, CloseEnds(t));
                  && t !in s'.closes && s'.sessions == s.sessions
                  && (d in s'.leases <==> d in s.leases && s.leases[d] != sid)
                  && (d in s'.leases ==> s'.leases[d] == s.leases[d]))
            && Next(policy, worker, s, ReleaseEverything).leases == map[]
  {
    CloseMeans(s.sessions, s.closes[t].sid);
  }

  /** A Run that ends is gone, whatever it answers; its case is decided as `EndRunMeans` says, and no lease moves. */
  lemma EndReaches(policy: Policy, worker: string, s: State, t: nat, outcome: Outcome)
    requires t in s.runs && LedgerOk(s.sessions)
    ensures var s', sid, cid := Next(policy, worker, s, RunEnds(t, outcome)), s.runs[t].sid, s.runs[t].case_.id;
            && t !in s'.runs && s'.runs == s.runs - {t} && s'.leases == s.leases && s'.closes == s.closes
            && (CanDecide(s.sessions, sid, cid) ==>
                  && OnlyEntry(s.sessions, s'.sessions, sid, cid,
                               Entry(if outcome.Measured? then COMPLETED else FAILED, Some(outcome)))
                  && (sid, cid, outcome) in s'.answered)
            && (!CanDecide(s.sessions, sid, cid) ==> s'.sessions == s.sessions)
  {
    EndRunMeans(s.sessions, s.runs[t].sid, s.runs[t].case_.id, outcome);
  }

  // ---------------------------------------------------------------------------
  // Every run
  // ---------------------------------------------------------------------------

  ghost predicate Follows(policy: Policy, worker: string, s: State, s': State)
  {
    exists e :: Enabled(s, e) && s' == Next(policy, worker, s, e)
  }

  ghost predicate IsRun(policy: Policy, worker: string, run: seq<State>)
  {
    run != [] && run[0] == INITIAL && forall i :: 0 < i < |run| ==> Follows(policy, worker, run[i - 1], run[i])
  }

  lemma {:induction false} EveryRunKeepsInv(policy: Policy, worker: string, run: seq<State>, i: nat)
    requires IsRun(policy, worker, run) && i < |run|
    ensures Inv(run[i])
    ensures i > 0 ==> Extends(run[i - 1].sessions, run[i].sessions)
  {
    if i > 0 {
      EveryRunKeepsInv(policy, worker, run, i - 1);
      assert Follows(policy, worker, run[i - 1], run[i]);
      var e :| Enabled(run[i - 1], e) && run[i] == Next(policy, worker, run[i - 1], e);
      NextKeepsInv(policy, worker, run[i - 1], e);
    }
  }

  /** A decided case keeps its entry, and a closed session all of its record, for the rest of the run. */
  lemma {:induction false} LedgerNeverRewritten(policy: Policy, worker: string, run: seq<State>, i: nat, j: nat)
    requires IsRun(policy, worker, run) && i <= j < |run|
    ensures Extends(run[i].sessions, run[j].sessions)
    decreases j
  {
    if i == j {
      ExtendsSelf(run[i].sessions);
    } else {
      LedgerNeverRewritten(policy, worker, run, i, j - 1);
      EveryRunKeepsInv(policy, worker, run, j);
      ExtendsTransitive(run[i].sessions, run[j - 1].sessions, run[j].sessions);
    }
  }

  lemma BenchmarksStartOnce(policy: Policy, worker: string, run: seq<State>, i: nat, sid: string, cid: string)
    requires IsRun(policy, worker, run) && i < |run|
    ensures run[i].started[(sid, cid)] <= 1
  {
    EveryRunKeepsInv(policy, worker, run, i);
  }

  /** What an accepted Run or Get answered is the ledger's decision then and ever after, so all answers agree. */
  lemma AnswersAreTheLedger(policy: Policy, worker: string, run: seq<State>, i: nat, j: nat,
                            a: (string, string, Outcome), b: (string, string, Outcome))
    requires IsRun(policy, worker, run) && i <= j < |run| && a in run[i].answered && b in run[j].answered
    ensures IsDecision(run[i].sessions, a) && IsDecision(run[j].sessions, a)
    ensures a.0 == b.0 && a.1 == b.1 ==> a == b
  {
    EveryRunKeepsInv(policy, worker, run, i);
    EveryRunKeepsInv(policy, worker, run, j);
    LedgerNeverRewritten(policy, worker, run, i, j);
    assert IsDecision(run[i].sessions, a) && IsDecision(run[j].sessions, b);
    assert Successor(run[i].sessions[a.0], run[j].sessions[a.0]);
  }

  /** No lease leaks: once nothing is being prepared, no Close nor its thread is in flight and every session is closed,
      none is left. */
  lemma NoLeaseLeaks(policy: Policy, worker: string, run: seq<State>, i: nat)
    requires IsRun(policy, worker, run) && i < |run|
    ensures forall d :: d in run[i].leases ==> MayHold(run[i].prep, run[i].sessions, run[i].closes, run[i].leases[d])
    ensures !run[i].prep.Computing? && run[i].closes == map[] &&
            (forall sid :: sid in run[i].sessions ==> run[i].sessions[sid].closed)
            ==> run[i].leases == map[]
  {
    EveryRunKeepsInv(policy, worker, run, i);
    var s := run[i];
    if !s.prep.Computing? && s.closes == map[] && forall sid :: sid in s.sessions ==> s.sessions[sid].closed {
      assert forall d :: d in s.leases ==> !MayHold(s.prep, s.sessions, s.closes, s.leases[d]);
    }
  }

  /** Two benchmarks of different sessions share a device only if a Close or the shutdown reached one of them. */
  lemma BenchmarksExclusive(policy: Policy, worker: string, run: seq<State>, i: nat, t: nat, t': nat, device: string)
    requires IsRun(policy, worker, run) && i < |run| && t in run[i].runs && t' in run[i].runs
    requires var (a, b) := (run[i].runs[t], run[i].runs[t']);
             && a.sid != b.sid && a.case_.spec.ModelSpec? && b.case_.spec.ModelSpec?
             && device in a.case_.spec.devices && device in b.case_.spec.devices
    ensures run[i].runs[t].sid in run[i].touched || run[i].runs[t'].sid in run[i].touched
  {
    EveryRunKeepsInv(policy, worker, run, i);
    var s := run[i];
    var a, b := s.runs[t], s.runs[t'];
    assert RunOk(s.leases, s.sessions, s.touched, a) && RunOk(s.leases, s.sessions, s.touched, b);
  }

  /** Closing a session during a run leaves its case RUNNING for ever: the finished run raises and decides nothing. */
  lemma ClosedMidRunStaysRunning(policy: Policy, worker: string, run: seq<State>, i: nat, j: nat, t: nat,
                                 outcome: Outcome)
    requires IsRun(policy, worker, run) && i <= j < |run| && t in run[i].runs
    requires var (sid, cid) := (run[i].runs[t].sid, run[i].runs[t].case_.id);
             sid in run[i].sessions && run[i].sessions[sid].closed && cid in run[i].sessions[sid].cases &&
             run[i].sessions[sid].cases[cid].state == RUNNING
    ensures var (sid, cid) := (run[i].runs[t].sid, run[i].runs[t].case_.id);
            && EndRun(run[i].sessions, sid, cid, outcome) == (run[i].sessions, Raised)
            && HasCase(run[j].sessions, sid, cid) && run[j].sessions[sid].cases[cid].state == RUNNING
  {
    LedgerNeverRewritten(policy, worker, run, i, j);
    EveryRunKeepsInv(policy, worker, run, i);
    assert Successor(run[i].sessions[run[i].runs[t].sid], run[j].sessions[run[i].runs[t].sid]);
  }

  lemma CloseFollows(policy: Policy, s: State, sid: string)
    requires sid !in s.sessions && s.closes == map[] && s.prep.Computing? && s.prep.sid == sid && s.dead == {}
    ensures var s1 := s.(closes := map[0 := CloseTask(sid, false)], touched := s.touched + {sid});
            var s2 := s1.(closes := map[0 := CloseTask(sid, true)]);
            && Follows(policy, "w", s, s1) && Follows(policy, "w", s1, s2)
            && Follows(policy, "w", s2, s2.(closes := map[], leases := WithoutSession(s.leases, sid),
                                            stripped := s.stripped + {sid}))
  {
    var s1 := s.(closes := map[0 := CloseTask(sid, false)], touched := s.touched + {sid});
    var s2 := s1.(closes := map[0 := CloseTask(sid, true)]);
    assert s1 == Next(policy, "w", s, CloseBegins(0, sid));
    assert s2 == Next(policy, "w", s1, CloseMarks(0));
    assert s2.(closes := map[], leases := WithoutSession(s.leases, sid), stripped := s.stripped + {sid}) ==
             Next(policy, "w", s2, CloseEnds(0));
  }

  lemma PrepareFollows(policy: Policy, request: SessionRequest, report: Master.WorkerState, s: State)
    requires request.kind == MODEL_SESSION && s.prep == Computing("s", request) && "s" !in s.sessions
    requires Acquire(policy, map[], "s", request.devices, report) == (map["gpu" := "s"], Leased(request.devices))
    ensures var s1 := INITIAL.(prep := Inspecting("s", request));
            && Follows(policy, "w", INITIAL, s1)
            && Follows(policy, "w", s1, INITIAL.(prep := Computing("s", request), leases := map["gpu" := "s"]))
    ensures
      Follows(policy, "w", s,
              s.(prep := Idle, sessions := s.sessions["s" := Record(MODEL_SESSION, request.devices, map[], false)]))
  {
    var s1 := INITIAL.(prep := Inspecting("s", request));
    assert s1 == Next(policy, "w", INITIAL, PrepareBegins("s", request));
    assert INITIAL.(prep := Computing("s", request), leases := map["gpu" := "s"]) ==
             Next(policy, "w", s1, Inspected(report, true));
    assert s.(prep := Idle, sessions := s.sessions["s" := Record(MODEL_SESSION, request.devices, map[], false)]) ==
             Next(policy, "w", s, Prepared);
  }

  lemma GpuIsLeased(policy: Policy, report: Master.WorkerState)
    requires policy == Policy(5.0, NoFloor)
    requires report == Master.WorkerState("w", [Master.DeviceState("gpu", None, Master.AVAILABLE, [])], [], [])
    ensures Acquire(policy, map[], "s", ["gpu"], report) == (map["gpu" := "s"], Leased(["gpu"]))
  {
    AcquireEffect(policy, map[], "s", ["gpu"], report);
    assert Reported(report.deviceStates, "gpu") == Some(report.deviceStates[0]);
    assert Reservable(policy, map[], "s", "gpu", report);
    assert Dedupe(["gpu"]) == ["gpu"] by { assert ["gpu"][..0] == []; }
    assert Acquire(policy, map[], "s", ["gpu"], report).0 == map["gpu" := "s"];
  }

  lemma RunGrows(policy: Policy, worker: string, run: seq<State>, s': State)
    requires IsRun(policy, worker, run) && Follows(policy, worker, run[|run| - 1], s')
    ensures IsRun(policy, worker, run + [s'])
  {
  }

  /** "Open implies leased" is not an invariant: a Close during a Prepare takes the lease away first. */
  lemma OpenWithoutLease() returns (policy: Policy, run: seq<State>)
    ensures IsRun(policy, "w", run)
    ensures var s := run[|run| - 1];
            && "s" in s.sessions && !s.sessions["s"].closed
            && s.sessions["s"].devices == ["gpu"] && s.leases == map[]
  {
    policy := Policy(5.0, NoFloor);
    var request := SessionRequest(MODEL_SESSION, ["gpu"]);
    var report := Master.WorkerState("w", [Master.DeviceState("gpu", None, Master.AVAILABLE, [])], [], []);
    GpuIsLeased(policy, report);
    var s1 := INITIAL.(prep := Inspecting("s", request));
    var s2 := INITIAL.(prep := Computing("s", request), leases := map["gpu" := "s"]);
    var s3 := s2.(closes := map[0 := CloseTask("s", false)], touched := {} + {"s"});
    var s4 := s3.(closes := map[0 := CloseTask("s", true)]);
    var s5 := s4.(closes := map[], leases := WithoutSession(s2.leases, "s"), stripped := {} + {"s"});
    CloseFollows(policy, s2, "s");
    PrepareFollows(policy, request, report, s5);
    run := [INITIAL];
    RunGrows(policy, "w", run, s1); run := run + [s1];
    RunGrows(policy, "w", run, s2); run := run + [s2];
    RunGrows(policy, "w", run, s3); run := run + [s3];
    RunGrows(policy, "w", run, s4); run := run + [s4];
    RunGrows(policy, "w", run, s5); run := run + [s5];
    var s6 := s5.(prep := Idle, sessions := s5.sessions["s" := Record(MODEL_SESSION, ["gpu"], map[], false)]);
    RunGrows(policy, "w", run, s6); run := run + [s6];
  }

  // ---------------------------------------------------------------------------
  // The runner object
  // ---------------------------------------------------------------------------

  /** The handler segments as they touch the two managers. */
  class Runner {
    const workerId: string
    const leases: DeviceLeaseManager
    const sessions: ProfilingSessionManager

    constructor (workerId: string, policy: Policy)
      ensures this.workerId == workerId && leases.policy == policy && fresh(leases) && fresh(sessions)
      ensures leases.leasedBy == map[] && sessions.sessions == map[]
    {
      this.workerId := workerId;
      leases := new DeviceLeaseManager(policy);
      sessions := new ProfilingSessionManager();
    }

    method StartRun(sid: string, case_: Case) returns (r: RunAnswer)
      modifies sessions
      ensures (sessions.sessions, r) == BeginRun(leases.leasedBy, old(sessions.sessions), workerId, sid, case_)
    {
      var open := RequireOpen(sessions.sessions, sid);
      if open.Refused? { return RunRefused(open.reason); }
      if case_.workerId != workerId { return Misassigned; }
      if !KindFits(open.value.kind, case_.spec) { return RunRefused(SESSION_KIND_MISMATCH); }
      if case_.id in open.value.cases {
        var entry := open.value.cases[case_.id];
        if Terminal(entry.state) && entry.outcome.Some? { return Replay(entry.outcome.value); }
        return RunRefused(DEVICE_BUSY);
      }
      if case_.spec.ModelSpec? {
        for i := 0 to |case_.spec.devices|
          invariant forall j :: 0 <= j < i ==> Holds(leases.leasedBy, sid, case_.spec.devices[j])
        {
          if !Holds(leases.leasedBy, sid, case_.spec.devices[i]) { return RunRefused(DEVICE_BUSY); }
        }
      }
      var marked := sessions.Start(sid, case_.id);
      r := Started;
    }

    method FinishRun(sid: string, cid: string, outcome: Outcome) returns (r: EndAnswer)
      modifies sessions
      ensures (sessions.sessions, r) == EndRun(old(sessions.sessions), sid, cid, outcome)
    {
      var state := if outcome.Measured? then COMPLETED else FAILED;
      var decided := sessions.DecideCase(sid, cid, state, outcome);
      if decided.Ok? { return Answered(outcome); }
      if decided.Refused? { return Raised; }
      if sid in sessions.sessions && cid in sessions.sessions[sid].cases &&
         sessions.sessions[sid].cases[cid].outcome.Some? {
        return Answered(sessions.sessions[sid].cases[cid].outcome.value);
      }
      r := Raised;
    }

    /** A Prepare after its inspection: the answer is the next thing it waits for, if any. */
    method ContinuePrepare(sid: string, request: SessionRequest, state: Master.WorkerState, factsComplete: bool)
      returns (next: Prep)
      modifies leases, sessions
      ensures forall s: State ::
        (&& s.prep == Inspecting(sid, request)
         && s.leases == old(leases.leasedBy) && s.sessions == old(sessions.sessions)) ==>
        AfterInspection(leases.policy, s, state, factsComplete) ==
        s.(leases := leases.leasedBy, sessions := sessions.sessions, prep := next,
           stripped := if next.Computing? then s.stripped - {sid} else s.stripped)
    {
      if request.kind == NETWORK_SESSION {
        if factsComplete {
          var created := sessions.CreateSession(sid, request.kind, request.devices);
        }
        return Idle;
      }
      var acquired := leases.Reserve(sid, request.devices, state);
      next := if acquired.Leased? then Computing(sid, request) else Idle;
    }

    /** A Close once its thread is done, and a Prepare that failed while computing. */
    method Release(sid: string)
      modifies leases
      ensures leases.leasedBy == WithoutSession(old(leases.leasedBy), sid)
    {
      var released := leases.ReleaseSession(sid);
    }
  }
}
