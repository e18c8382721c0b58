/**
 Master and Workers together: dispatching, cancelling and fetching profiling cases
 (src/edgeshard/control/master/profiling_controller.py with
 src/edgeshard/control/worker/profiling_runner.py).

 Every RPC is delivered at most once; requests and replies may be lost or delayed, Workers may restart and
 lose their ledger, and any number of run and cancel tasks may be under way for the same case.  A task is the
 part of `run_experiment` or `cancel_experiment` that deals with one worker: it lists the cases it found
 undecided when it started, and takes them off its list as it dispatches them or gives them up.
 */
module ProfilingSystem {
  import opened Options
  import opened Leases
  import opened Ledger
  import Runner = ProfilingRunner

  datatype Kind = RUN | CANCEL | FETCH

  /** An RPC about case `cid` in profiling session `sid`, addressed to the case's worker. */
  datatype Call = Call(kind: Kind, cid: string, sid: string)

  datatype Reply =
    | GotOutcome(outcome: Outcome)
    | GotState(state: CaseState)
    | Declined
    | Aborted

  /** A case in the profile store: its state and what was recorded with it. */
  datatype Stored = Stored(state: CaseState, outcome: Option<Outcome>)

  /** The cases a task has yet to deal with.  A cancel task that has found its worker's tokens has `started`. */
  datatype Task = RunTask(listed: set<string>) | CancelTask(listed: set<string>, started: bool)

  /** `issued[t]` is the content of call `t`; `net` are undelivered requests and `awaiting` the calls some
      Master task still waits for.  `decided` remembers every decision a Worker ever answered with. */
  datatype System = System(
    workers: map<string, Runner.State>, store: map<string, Stored>, measurements: map<string, Measurement>,
    issued: seq<Call>, net: set<nat>, awaiting: set<nat>, replies: map<nat, Reply>,
    decided: set<(string, string, string, Outcome)>, tasks: map<nat, Task>)

  /** The cases under test and the Workers' reservation policy. */
  datatype Setup = Setup(cases: map<string, Runner.Case>, policy: Policy)

  datatype Event =
    | StartRun(k: nat, cids: set<string>)
    | StartCancel(k: nat, cids: set<string>)
    | BeginCase(k: nat, cid: string)
    | DispatchRun(k: nat, cid: string, sid: string)
    | DispatchCancel(k: nat, cid: string, sid: string)
    | GiveUpRun(k: nat, cids: set<string>)
    | GiveUpCancel(k: nat)
    | TaskCancelled(k: nat)
    | AbandonCall(t: nat)
    | MasterRestarts
    | LoseRequest(t: nat)
    | LoseReply(t: nat)
    | WorkerHandles(t: nat)
    | WorkerFinishes(t: nat, outcome: Outcome)
    | WorkerMoves(w: string, e: Runner.Event)
    | WorkerRestarts(w: string)
    | RunReturns(t: nat)
    | CancelReturns(t: nat)
    | FetchReturns(t: nat)
    | CallFails(t: nat)

  const NOT_DISPATCHED := Failure(OTHER_FAILURE("not dispatched"), "no tokens, no facts, no server or no session")
  const LOST := Failure(WORKER_LOST, "call lost")
  const VIOLATION := Failure(INTERNAL_ERROR, "protocol violation; measurement not persisted")
  const CANCELLED_HERE := Failure(CANCELLED_BY_MASTER, "case cancelled by the Master")

  function WorkerOf(u: Setup, call: Call): string
  {
    if call.cid in u.cases then u.cases[call.cid].workerId else ""
  }

  function ExpectedDevice(c: Runner.Case): Option<string>
  {
    if c.spec.ModelSpec? && c.spec.devices != [] then Some(c.spec.devices[0]) else None
  }

  /** `_persist_outcome`. */
  function Persist(u: Setup, x: System, cid: string, outcome: Outcome): System
    requires cid in u.cases
  {
    var c := u.cases[cid];
    if outcome.Failure? then x.(store := x.store[cid := Stored(FAILED, Some(outcome))])
    else
      var r := outcome.record;
      if r.caseId != cid || r.environment != Some(Environment(c.workerId, ExpectedDevice(c))) then
        x.(store := x.store[cid := Stored(FAILED, Some(VIOLATION))])
      else if r.measurementId in x.measurements && x.measurements[r.measurementId] != r then
        x.(store := x.store[cid := Stored(FAILED, Some(VIOLATION))])
      else
        x.(measurements := x.measurements[r.measurementId := r],
           store := x.store[cid := Stored(COMPLETED, Some(outcome))])
  }

  function Issue(x: System, call: Call): System
  {
    x.(issued := x.issued + [call], net := x.net + {|x.issued|}, awaiting := x.awaiting + {|x.issued|})
  }

  /** The Runner step a request makes. */
  function Handling(u: Setup, t: nat, call: Call): Runner.Event
    requires call.cid in u.cases
  {
    match call.kind
    case RUN => Runner.RunBegins(t, call.sid, u.cases[call.cid])
    case CANCEL => Runner.CancelCase(call.sid, call.cid)
    case FETCH => Runner.GetCase(call.sid, call.cid)
  }

  /** What the handler answers at once; a started run answers later. */
  function Answer(u: Setup, s: Runner.State, call: Call): Option<Reply>
    requires call.cid in u.cases
  {
    match call.kind
    case RUN =>
      (match Runner.BeginRun(s.leases, s.sessions, WorkerOf(u, call), call.sid, u.cases[call.cid]).1
       case Started => None
       case Replay(o) => Some(GotOutcome(o))
       case RunRefused(_) => Some(Declined)
       case Misassigned => Some(Aborted))
    case CANCEL =>
      var r := Cancel(s.sessions, call.sid, call.cid).1;
      if r.Ok? then Some(GotState(r.value.state)) else Some(Declined)
    case FETCH =>
      var open := RequireOpen(s.sessions, call.sid);
      if open.Ok? && call.cid in open.value.cases then
        var entry := open.value.cases[call.cid];
        Some(if entry.outcome.Some? then GotOutcome(entry.outcome.value) else GotState(entry.state))
      else Some(Declined)
  }

  /** Worker `w` moves to `s`; every outcome it has answered with is remembered. */
  function Moved(x: System, w: string, s: Runner.State): System
  {
    x.(workers := x.workers[w := s], decided := x.decided + set a | a in s.answered :: (w, a.0, a.1, a.2))
  }

  predicate CanReturn(u: Setup, x: System, t: nat, kind: Kind)
  {
    && t in x.awaiting && t in x.replies && t < |x.issued|
    && x.issued[t].kind == kind && x.issued[t].cid in u.cases
  }

  /** `get_case` finds the case, in a state that is not terminal: it may be listed. */
  predicate Undecided(u: Setup, x: System, cid: string)
  {
    cid in u.cases && (cid in x.store ==> !Terminal(x.store[cid].state))
  }

  predicate RunLists(x: System, k: nat, cid: string)
  {
    k in x.tasks && x.tasks[k].RunTask? && cid in x.tasks[k].listed
  }

  predicate Enabled(u: Setup, x: System, e: Event)
  {
    match e
    case StartRun(k, cids) => k !in x.tasks && forall cid :: cid in cids ==> Undecided(u, x, cid)
    case StartCancel(k, cids) => k !in x.tasks && forall cid :: cid in cids ==> Undecided(u, x, cid)
    case BeginCase(k, cid) => RunLists(x, k, cid) && cid in u.cases
    case DispatchRun(k, cid, _) => RunLists(x, k, cid) && cid in u.cases
    case DispatchCancel(k, cid, _) =>
      k in x.tasks && x.tasks[k].CancelTask? && cid in x.tasks[k].listed && cid in u.cases
    case GiveUpRun(k, cids) => k in x.tasks && x.tasks[k].RunTask? && cids <= x.tasks[k].listed
    case GiveUpCancel(k) => k in x.tasks && x.tasks[k].CancelTask? && !x.tasks[k].started
    case WorkerHandles(t) =>
      && t in x.net && t < |x.issued| && x.issued[t].cid in u.cases
      && WorkerOf(u, x.issued[t]) in x.workers
      && Runner.Enabled(x.workers[WorkerOf(u, x.issued[t])], Handling(u, t, x.issued[t]))
    case WorkerFinishes(t, _) =>
      t < |x.issued| && WorkerOf(u, x.issued[t]) in x.workers && t in x.workers[WorkerOf(u, x.issued[t])].runs
    case WorkerMoves(w, e) => w in x.workers && Runner.Enabled(x.workers[w], e) && !e.RunBegins? && !e.RunEnds?
    case RunReturns(t) => CanReturn(u, x, t, RUN)
    case CancelReturns(t) => CanReturn(u, x, t, CANCEL)
    case FetchReturns(t) => CanReturn(u, x, t, FETCH)
    case CallFails(t) => t in x.awaiting && t < |x.issued| && x.issued[t].cid in u.cases
    case _ => true
  }

  function Handled(u: Setup, x: System, t: nat): System
    requires Enabled(u, x, WorkerHandles(t))
  {
    var call := x.issued[t];
    var w := WorkerOf(u, call);
    var answer := Answer(u, x.workers[w], call);
    var x' := Moved(x.(net := x.net - {t}), w, Runner.Next(u.policy, w, x.workers[w], Handling(u, t, call)));
    if answer.Some? then x'.(replies := x'.replies[t := answer.value]) else x'
  }

  function Finished(u: Setup, x: System, t: nat, outcome: Outcome): System
    requires Enabled(u, x, WorkerFinishes(t, outcome))
  {
    var w := WorkerOf(u, x.issued[t]);
    var s := x.workers[w];
    var r := Runner.EndRun(s.sessions, s.runs[t].sid, s.runs[t].case_.id, outcome).1;
    var x' := Moved(x, w, Runner.Next(u.policy, w, s, Runner.RunEnds(t, outcome)));
    x'.(replies := x'.replies[t := if r.Answered? then GotOutcome(r.outcome) else Aborted])
  }

  function Cancelled(x: System, cid: string): System
  {
    x.(store := x.store[cid := Stored(CANCELLED, Some(CANCELLED_HERE))])
  }

  /** A Master task resumes with the reply to its call. */
  function Returned(u: Setup, x: System, t: nat): System
    requires t in x.replies && t < |x.issued| && x.issued[t].cid in u.cases
  {
    var call, reply, x' := x.issued[t], x.replies[t], x.(awaiting := x.awaiting - {t});
    match call.kind
    case RUN =>
      if reply.GotOutcome? then Persist(u, x', call.cid, reply.outcome)
      else x'.(store := x'.store[call.cid := Stored(FAILED, Some(LOST))])
    case CANCEL =>
      if reply.GotState? && reply.state != CANCELLED then Issue(x', Call(FETCH, call.cid, call.sid))
      else Cancelled(x', call.cid)
    case FETCH =>
      if reply.GotOutcome? then Persist(u, x', call.cid, reply.outcome) else Cancelled(x', call.cid)
  }

  function RecordAll(store: map<string, Stored>, cids: set<string>, stored: Stored): map<string, Stored>
  {
    map cid | cid in store.Keys + cids :: if cid in cids then stored else store[cid]
  }

  /** What the Master's tasks do: a run task writes RUNNING before it may wait for an iperf server (`BeginCase`) and
      again with the call; without tokens, facts, server or session it records FAILED for the cases concerned; a
      cancel task without tokens records CANCELLED for all of its cases.  A cancelled task, and a restarted Master,
      drop their lists and the calls they wait for and write nothing. */
  function Step(u: Setup, x: System, e: Event): System
    requires Enabled(u, x, e)
  {
    match e
    case StartRun(k, cids) => x.(tasks := x.tasks[k := RunTask(cids)])
    case StartCancel(k, cids) => x.(tasks := x.tasks[k := CancelTask(cids, false)])
    case BeginCase(k, cid) => x.(store := x.store[cid := Stored(RUNNING, None)])
    case DispatchRun(k, cid, sid) =>
      Issue(x.(store := x.store[cid := Stored(RUNNING, None)],
               tasks := x.tasks[k := RunTask(x.tasks[k].listed - {cid})]),
            Call(RUN, cid, sid))
    case DispatchCancel(k, cid, sid) =>
      Issue(x.(tasks := x.tasks[k := CancelTask(x.tasks[k].listed - {cid}, true)]), Call(CANCEL, cid, sid))
    case GiveUpRun(k, cids) =>
      x.(store := RecordAll(x.store, cids, Stored(FAILED, Some(NOT_DISPATCHED))),
         tasks := x.tasks[k := RunTask(x.tasks[k].listed - cids)])
    case GiveUpCancel(k) =>
      x.(store := RecordAll(x.store, x.tasks[k].listed, Stored(CANCELLED, Some(CANCELLED_HERE))),
         tasks := x.tasks[k := CancelTask({}, true)])
    case TaskCancelled(k) => x.(tasks := x.tasks - {k})
    case AbandonCall(t) => x.(awaiting := x.awaiting - {t})
    case MasterRestarts => x.(tasks := map[], awaiting := {})
    case LoseRequest(t) => x.(net := x.net - {t})
    case LoseReply(t) => x.(replies := x.replies - {t})
    case WorkerHandles(t) => Handled(u, x, t)
    case WorkerFinishes(t, outcome) => Finished(u, x, t, outcome)
    case WorkerMoves(w, e') => Moved(x, w, Runner.Next(u.policy, w, x.workers[w], e'))
    case WorkerRestarts(w) => x.(workers := x.workers[w := Runner.INITIAL])
    case RunReturns(t) => Returned(u, x, t)
    case CancelReturns(t) => Returned(u, x, t)
    case FetchReturns(t) => Returned(u, x, t)
    case CallFails(t) =>
      var x' := x.(awaiting := x.awaiting - {t});
      if x.issued[t].kind == RUN then x'.(store := x'.store[x.issued[t].cid := Stored(FAILED, Some(LOST))])
      else Cancelled(x', x.issued[t].cid)
  }

  // ---------------------------------------------------------------------------
  // The invariant
  // ---------------------------------------------------------------------------

  ghost predicate WorkersOk(workers: map<string, Runner.State>)
  {
    forall w :: w in workers ==> Runner.Inv(workers[w])
  }

  /** A run under way at a Worker is the one its call asked for. */
  ghost predicate RunMatches(u: Setup, issued: seq<Call>, t: nat, r: Runner.RunTask)
  {
    t < |issued| && issued[t].cid in u.cases && r == Runner.RunTask(issued[t].sid, u.cases[issued[t].cid])
  }

  ghost predicate AllMatch(u: Setup, issued: seq<Call>, runs: map<nat, Runner.RunTask>)
  {
    forall t :: t in runs ==> RunMatches(u, issued, t, runs[t])
  }

  ghost predicate RunsMatch(u: Setup, issued: seq<Call>, workers: map<string, Runner.State>)
  {
    forall w :: w in workers ==> AllMatch(u, issued, workers[w].runs)
  }

  /** A reply with an outcome is a decision of the addressed Worker about that very case and session. */
  ghost predicate ReplyOk(u: Setup, issued: seq<Call>, decided: set<(string, string, string, Outcome)>, t: nat,
                          reply: Reply)
  {
    reply.GotOutcome? ==>
      t < |issued| && (WorkerOf(u, issued[t]), issued[t].sid, issued[t].cid, reply.outcome) in decided
  }

  ghost predicate RepliesOk(u: Setup, issued: seq<Call>, decided: set<(string, string, string, Outcome)>,
                            replies: map<nat, Reply>)
  {
    forall t :: t in replies ==> ReplyOk(u, issued, decided, t, replies[t])
  }

  /** A completed case: some session's ledger on its own Worker decided exactly this record, which is persisted. */
  ghost predicate Backed(u: Setup, decided: set<(string, string, string, Outcome)>,
                         measurements: map<string, Measurement>, cid: string, stored: Stored)
  {
    stored.state == COMPLETED ==>
      && cid in u.cases && stored.outcome.Some? && stored.outcome.value.Measured?
      && (exists sid :: (u.cases[cid].workerId, sid, cid, stored.outcome.value) in decided)
      && var r := stored.outcome.value.record;
         && r.caseId == cid && r.environment == Some(Environment(u.cases[cid].workerId, ExpectedDevice(u.cases[cid])))
         && r.measurementId in measurements && measurements[r.measurementId] == r
  }

  ghost predicate StoreOk(u: Setup, decided: set<(string, string, string, Outcome)>,
                          measurements: map<string, Measurement>, store: map<string, Stored>)
  {
    forall cid :: cid in store ==> Backed(u, decided, measurements, cid, store[cid])
  }

  /** Cases are stored under their own id. */
  ghost predicate SetupOk(u: Setup)
  {
    forall cid :: cid in u.cases ==> u.cases[cid].id == cid
  }

  ghost predicate Inv(u: Setup, x: System)
  {
    && WorkersOk(x.workers) && RunsMatch(u, x.issued, x.workers)
    && RepliesOk(u, x.issued, x.decided, x.replies) && StoreOk(u, x.decided, x.measurements, x.store)
  }

  lemma RepliesGrow(u: Setup, issued: seq<Call>, issued': seq<Call>, decided: set<(string, string, string, Outcome)>,
                    decided': set<(string, string, string, Outcome)>, replies: map<nat, Reply>)
    requires RepliesOk(u, issued, decided, replies) && issued <= issued' && decided <= decided'
    ensures RepliesOk(u, issued', decided', replies)
  {
    forall t | t in replies ensures ReplyOk(u, issued', decided', t, replies[t]) {
      assert ReplyOk(u, issued, decided, t, replies[t]);
    }
  }

  lemma StoreGrows(u: Setup, decided: set<(string, string, string, Outcome)>,
                   decided': set<(string, string, string, Outcome)>,
                   measurements: map<string, Measurement>, measurements': map<string, Measurement>,
                   store: map<string, Stored>)
    requires StoreOk(u, decided, measurements, store) && decided <= decided'
    requires forall m :: m in measurements ==> m in measurements' && measurements'[m] == measurements[m]
    ensures StoreOk(u, decided', measurements', store)
  {
    forall cid | cid in store ensures Backed(u, decided', measurements', cid, store[cid]) {
      assert Backed(u, decided, measurements, cid, store[cid]);
    }
  }

  lemma RunsShrink(policy: Policy, w: string, s: Runner.State, e: Runner.Event)
    requires Runner.Enabled(s, e) && !e.RunBegins?
    ensures forall t :: t in Runner.Next(policy, w, s, e).runs ==>
              t in s.runs && Runner.Next(policy, w, s, e).runs[t] == s.runs[t]
  {
  }

  /** A Worker step keeps the invariant, whatever its new runs are, as long as they match their calls. */
  lemma MoveKeeps(u: Setup, x: System, w: string, s': Runner.State)
    requires Inv(u, x) && Runner.Inv(s') && AllMatch(u, x.issued, s'.runs)
    ensures Inv(u, Moved(x, w, s'))
  {
    var x' := Moved(x, w, s');
    RepliesGrow(u, x.issued, x.issued, x.decided, x'.decided, x.replies);
    StoreGrows(u, x.decided, x'.decided, x.measurements, x.measurements, x.store);
  }

  lemma ReplyKeeps(u: Setup, x: System, t: nat, reply: Reply)
    requires Inv(u, x) && ReplyOk(u, x.issued, x.decided, t, reply)
    ensures Inv(u, x.(replies := x.replies[t := reply]))
  {
  }

  lemma MovedRemembers(x: System, w: string, s': Runner.State, sid: string, cid: string, outcome: Outcome)
    requires (sid, cid, outcome) in s'.answered
    ensures (w, sid, cid, outcome) in Moved(x, w, s').decided
  {
  }

  lemma OldRunsMatch(u: Setup, x: System, w: string, e: Runner.Event)
    requires RunsMatch(u, x.issued, x.workers) && w in x.workers && Runner.Enabled(x.workers[w], e) && !e.RunBegins?
    ensures AllMatch(u, x.issued, Runner.Next(u.policy, w, x.workers[w], e).runs)
  {
    assert AllMatch(u, x.issued, x.workers[w].runs);
    RunsShrink(u.policy, w, x.workers[w], e);
  }

  /** An outcome answered at once is one the Worker has just added to its answers. */
  lemma AnswerIsRecorded(u: Setup, s: Runner.State, t: nat, call: Call)
    requires call.cid in u.cases && SetupOk(u) && Runner.Enabled(s, Handling(u, t, call))
    ensures var answer := Answer(u, s, call);
            answer.Some? && answer.value.GotOutcome? ==>
              (call.sid, call.cid, answer.value.outcome) in
                Runner.Next(u.policy, WorkerOf(u, call), s, Handling(u, t, call)).answered
  {
  }

  lemma StartedRunMatches(u: Setup, x: System, w: string, t: nat)
    requires RunsMatch(u, x.issued, x.workers) && w in x.workers && t < |x.issued| && x.issued[t].cid in u.cases
    requires x.issued[t].kind == RUN && t !in x.workers[w].runs
    ensures AllMatch(u, x.issued, Runner.Next(u.policy, w, x.workers[w], Handling(u, t, x.issued[t])).runs)
  {
    assert AllMatch(u, x.issued, x.workers[w].runs);
  }

  lemma HandledKeeps(u: Setup, x: System, t: nat)
    requires SetupOk(u) && Inv(u, x) && Enabled(u, x, WorkerHandles(t))
    ensures Inv(u, Handled(u, x, t))
  {
    var call := x.issued[t];
    var w := WorkerOf(u, call);
    var e := Handling(u, t, call);
    if call.kind == RUN { StartedRunMatches(u, x, w, t); } else { OldRunsMatch(u, x, w, e); }
    Runner.NextKeepsInv(u.policy, w, x.workers[w], e);
    var s' := Runner.Next(u.policy, w, x.workers[w], e);
    var sent := x.(net := x.net - {t});
    MoveKeeps(u, sent, w, s');
    AnswerIsRecorded(u, x.workers[w], t, call);
    var answer := Answer(u, x.workers[w], call);
    if answer.Some? {
      if answer.value.GotOutcome? { MovedRemembers(sent, w, s', call.sid, call.cid, answer.value.outcome); }
      ReplyKeeps(u, Moved(sent, w, s'), t, answer.value);
    }
  }

  lemma EndIsRecorded(policy: Policy, w: string, s: Runner.State, t: nat, outcome: Outcome)
    requires t in s.runs
    ensures var r := Runner.EndRun(s.sessions, s.runs[t].sid, s.runs[t].case_.id, outcome).1;
            r.Answered? ==>
              (s.runs[t].sid, s.runs[t].case_.id, r.outcome) in
                Runner.Next(policy, w, s, Runner.RunEnds(t, outcome)).answered
  {
  }

  lemma FinishedKeeps(u: Setup, x: System, t: nat, outcome: Outcome)
    requires SetupOk(u) && Inv(u, x) && Enabled(u, x, WorkerFinishes(t, outcome))
    ensures Inv(u, Finished(u, x, t, outcome))
  {
    var w := WorkerOf(u, x.issued[t]);
    var s, e := x.workers[w], Runner.RunEnds(t, outcome);
    assert AllMatch(u, x.issued, s.runs);
    assert RunMatches(u, x.issued, t, s.runs[t]);
    OldRunsMatch(u, x, w, e);
    Runner.NextKeepsInv(u.policy, w, s, e);
    var s' := Runner.Next(u.policy, w, s, e);
    MoveKeeps(u, x, w, s');
    EndIsRecorded(u.policy, w, s, t, outcome);
    var r := Runner.EndRun(s.sessions, s.runs[t].sid, s.runs[t].case_.id, outcome).1;
    if r.Answered? { MovedRemembers(x, w, s', x.issued[t].sid, x.issued[t].cid, r.outcome); }
    ReplyKeeps(u, Moved(x, w, s'), t, if r.Answered? then GotOutcome(r.outcome) else Aborted);
  }

  lemma CompleteKeeps(u: Setup, x: System, cid: string, sid: string, r: Measurement)
    requires Inv(u, x) && cid in u.cases && (u.cases[cid].workerId, sid, cid, Measured(r)) in x.decided
    requires r.caseId == cid && r.environment == Some(Environment(u.cases[cid].workerId, ExpectedDevice(u.cases[cid])))
    requires r.measurementId in x.measurements ==> x.measurements[r.measurementId] == r
    ensures Inv(u, x.(measurements := x.measurements[r.measurementId := r],
                      store := x.store[cid := Stored(COMPLETED, Some(Measured(r)))]))
  {
    var measurements' := x.measurements[r.measurementId := r];
    StoreGrows(u, x.decided, x.decided, x.measurements, measurements', x.store);
    assert Backed(u, x.decided, measurements', cid, Stored(COMPLETED, Some(Measured(r))));
  }

  /** Persisting an outcome some session of the case's Worker decided. */
  lemma PersistKeeps(u: Setup, x: System, cid: string, sid: string, outcome: Outcome)
    requires Inv(u, x) && cid in u.cases && (u.cases[cid].workerId, sid, cid, outcome) in x.decided
    ensures Inv(u, Persist(u, x, cid, outcome))
  {
    if Persist(u, x, cid, outcome).store[cid].state == COMPLETED {
      CompleteKeeps(u, x, cid, sid, outcome.record);
    } else {
      RecordKeeps(u, x, cid, Persist(u, x, cid, outcome).store[cid]);
    }
  }

  lemma RecordKeeps(u: Setup, x: System, cid: string, stored: Stored)
    requires Inv(u, x) && stored.state != COMPLETED
    ensures Inv(u, x.(store := x.store[cid := stored]))
  {
  }

  lemma IssueKeeps(u: Setup, x: System, call: Call)
    requires Inv(u, x)
    ensures Inv(u, Issue(x, call))
  {
    RepliesGrow(u, x.issued, x.issued + [call], x.decided, x.decided, x.replies);
    forall w | w in x.workers ensures AllMatch(u, x.issued + [call], x.workers[w].runs) {
      assert AllMatch(u, x.issued, x.workers[w].runs);
    }
  }

  lemma ReturnedKeeps(u: Setup, x: System, t: nat)
    requires Inv(u, x) && t in x.replies && t < |x.issued| && x.issued[t].cid in u.cases
    ensures Inv(u, Returned(u, x, t))
  {
    var call, reply, x' := x.issued[t], x.replies[t], x.(awaiting := x.awaiting - {t});
    assert ReplyOk(u, x.issued, x.decided, t, reply);
    if reply.GotOutcome? && call.kind != CANCEL {
      PersistKeeps(u, x', call.cid, call.sid, reply.outcome);
    } else if call.kind == CANCEL && reply.GotState? && reply.state != CANCELLED {
      IssueKeeps(u, x', Call(FETCH, call.cid, call.sid));
    } else {
      RecordKeeps(u, x', call.cid, Stored(FAILED, Some(LOST)));
      RecordKeeps(u, x', call.cid, Stored(CANCELLED, Some(CANCELLED_HERE)));
    }
  }

  lemma RestartKeeps(u: Setup, x: System, w: string)
    requires Inv(u, x)
    ensures Inv(u, x.(workers := x.workers[w := Runner.INITIAL]))
  {
    assert AllMatch(u, x.issued, Runner.INITIAL.runs);
  }

  lemma LossKeeps(u: Setup, x: System, e: Event)
    requires Inv(u, x) && Enabled(u, x, e) && (e.LoseRequest? || e.LoseReply? || e.WorkerRestarts? || e.CallFails?)
    ensures Inv(u, Step(u, x, e))
  {
    match e
    case LoseRequest(t) =>
    case LoseReply(t) =>
    case WorkerRestarts(w) => RestartKeeps(u, x, w);
    case CallFails(t) =>
      RecordKeeps(u, x.(awaiting := x.awaiting - {t}), x.issued[t].cid, Stored(FAILED, Some(LOST)));
      RecordKeeps(u, x.(awaiting := x.awaiting - {t}), x.issued[t].cid, Stored(CANCELLED, Some(CANCELLED_HERE)));
  }

  lemma TasksKeep(u: Setup, x: System, tasks': map<nat, Task>, awaiting': set<nat>)
    requires Inv(u, x)
    ensures Inv(u, x.(tasks := tasks', awaiting := awaiting'))
  {
  }

  lemma RecordAllKeeps(u: Setup, x: System, cids: set<string>, stored: Stored)
    requires Inv(u, x) && stored.state != COMPLETED
    ensures Inv(u, x.(store := RecordAll(x.store, cids, stored)))
  {
  }

  predicate IsTaskStep(e: Event)
  {
    || e.StartRun? || e.StartCancel? || e.BeginCase? || e.DispatchRun? || e.DispatchCancel? || e.GiveUpRun?
    || e.GiveUpCancel? || e.TaskCancelled? || e.AbandonCall? || e.MasterRestarts?
  }

  lemma TaskStepKeeps(u: Setup, x: System, e: Event)
    requires Inv(u, x) && Enabled(u, x, e) && IsTaskStep(e)
    ensures Inv(u, Step(u, x, e))
  {
    var x' := Step(u, x, e);
    match e
    case BeginCase(k, cid) => RecordKeeps(u, x, cid, Stored(RUNNING, None));
    case DispatchRun(k, cid, sid) =>
      RecordKeeps(u, x, cid, Stored(RUNNING, None));
      var y := x.(store := x.store[cid := Stored(RUNNING, None)]);
      TasksKeep(u, y, x'.tasks, y.awaiting);
      IssueKeeps(u, y.(tasks := x'.tasks), Call(RUN, cid, sid));
    case DispatchCancel(k, cid, sid) =>
      TasksKeep(u, x, x'.tasks, x.awaiting);
      IssueKeeps(u, x.(tasks := x'.tasks), Call(CANCEL, cid, sid));
    case GiveUpRun(k, cids) =>
      RecordAllKeeps(u, x, cids, Stored(FAILED, Some(NOT_DISPATCHED)));
      TasksKeep(u, x.(store := x'.store), x'.tasks, x.awaiting);
    case GiveUpCancel(k) =>
      RecordAllKeeps(u, x, x.tasks[k].listed, Stored(CANCELLED, Some(CANCELLED_HERE)));
      TasksKeep(u, x.(store := x'.store), x'.tasks, x.awaiting);
    case _ => TasksKeep(u, x, x'.tasks, x'.awaiting);
  }

  lemma StepKeepsInv(u: Setup, x: System, e: Event)
    requires SetupOk(u) && Inv(u, x) && Enabled(u, x, e)
    ensures Inv(u, Step(u, x, e))
  {
    if IsTaskStep(e) {
      TaskStepKeeps(u, x, e);
    } else {
      CallStepKeeps(u, x, e);
    }
  }

  lemma CallStepKeeps(u: Setup, x: System, e: Event)
    requires SetupOk(u) && Inv(u, x) && Enabled(u, x, e) && !IsTaskStep(e)
    ensures Inv(u, Step(u, x, e))
  {
    match e
    case WorkerHandles(t) => HandledKeeps(u, x, t);
    case WorkerFinishes(t, outcome) => FinishedKeeps(u, x, t, outcome);
    case WorkerMoves(w, e') =>
      OldRunsMatch(u, x, w, e');
      Runner.NextKeepsInv(u.policy, w, x.workers[w], e');
      MoveKeeps(u, x, w, Runner.Next(u.policy, w, x.workers[w], e'));
    case RunReturns(t) => ReturnedKeeps(u, x, t);
    case CancelReturns(t) => ReturnedKeeps(u, x, t);
    case FetchReturns(t) => ReturnedKeeps(u, x, t);
    case _ => LossKeeps(u, x, e);
  }

  // ---------------------------------------------------------------------------
  // Every run
  // ---------------------------------------------------------------------------

  ghost predicate Init(x: System)
  {
    && (forall w :: w in x.workers ==> x.workers[w] == Runner.INITIAL)
    && x.store == map[] && x.replies == map[] && x.decided == {} && x.issued == [] && x.net == {} && x.awaiting == {}
    && x.tasks == map[]
  }

  ghost predicate Follows(u: Setup, x: System, x': System)
  {
    exists e :: Enabled(u, x, e) && x' == Step(u, x, e)
  }

  ghost predicate IsRun(u: Setup, run: seq<System>)
  {
    run != [] && Init(run[0]) && forall i :: 0 < i < |run| ==> Consecutive(u, run, i)
  }

  ghost predicate Consecutive(u: Setup, run: seq<System>, i: nat)
  {
    0 < i < |run| && Follows(u, run[i - 1], run[i])
  }

  lemma FollowsKeepsInv(u: Setup, x: System, x': System)
    requires SetupOk(u) && Inv(u, x) && Follows(u, x, x')
    ensures Inv(u, x')
  {
    var e :| Enabled(u, x, e) && x' == Step(u, x, e);
    StepKeepsInv(u, x, e);
  }

  lemma {:induction false} EveryRunKeepsInv(u: Setup, run: seq<System>, i: nat)
    requires SetupOk(u) && IsRun(u, run) && i < |run|
    ensures Inv(u, run[i])
  {
    if i > 0 {
      EveryRunKeepsInv(u, run, i - 1);
      assert Consecutive(u, run, i);
      FollowsKeepsInv(u, run[i - 1], run[i]);
    }
  }

  lemma MovedDecisions(x: System, w: string, s': Runner.State, d: (string, string, string, Outcome))
    requires d in Moved(x, w, s').decided && d !in x.decided
    ensures d.0 == w && (d.1, d.2, d.3) in s'.answered
  {
  }

  lemma MasterDecidesNothing(u: Setup, x: System, e: Event)
    requires Enabled(u, x, e) && !e.WorkerHandles? && !e.WorkerFinishes? && !e.WorkerMoves?
    ensures Step(u, x, e).decided == x.decided
  {
  }

  /** Only a Worker step adds decisions, and what it adds stands among that Worker's answers right after it. */
  lemma NewDecisions(u: Setup, x: System, e: Event, d: (string, string, string, Outcome))
    requires Enabled(u, x, e) && d in Step(u, x, e).decided && d !in x.decided
    ensures d.0 in Step(u, x, e).workers && (d.1, d.2, d.3) in Step(u, x, e).workers[d.0].answered
  {
    match e
    case WorkerHandles(t) =>
      var w := WorkerOf(u, x.issued[t]);
      MovedDecisions(x.(net := x.net - {t}), w, Runner.Next(u.policy, w, x.workers[w], Handling(u, t, x.issued[t])), d);
    case WorkerFinishes(t, outcome) =>
      var w := WorkerOf(u, x.issued[t]);
      MovedDecisions(x, w, Runner.Next(u.policy, w, x.workers[w], Runner.RunEnds(t, outcome)), d);
    case WorkerMoves(w, e') => MovedDecisions(x, w, Runner.Next(u.policy, w, x.workers[w], e'), d);
    case _ => MasterDecidesNothing(u, x, e);
  }

  lemma FollowsDecisions(u: Setup, x: System, x': System, d: (string, string, string, Outcome))
    requires SetupOk(u) && Inv(u, x) && Follows(u, x, x') && d in x'.decided && d !in x.decided
    ensures DecidedAt(x', d)
  {
    var e :| Enabled(u, x, e) && x' == Step(u, x, e);
    NewDecisions(u, x, e, d);
    StepKeepsInv(u, x, e);
    assert Runner.Inv(x'.workers[d.0]);
  }

  ghost predicate DecidedAt(x: System, d: (string, string, string, Outcome))
  {
    d.0 in x.workers && Runner.IsDecision(x.workers[d.0].sessions, (d.1, d.2, d.3))
  }

  lemma {:induction false} DecisionsHappened(u: Setup, run: seq<System>, n: nat, d: (string, string, string, Outcome))
    requires SetupOk(u) && IsRun(u, run) && n < |run| && d in run[n].decided
    ensures exists i :: 0 <= i <= n && DecidedAt(run[i], d)
  {
    if n > 0 {
      if d in run[n - 1].decided {
        DecisionsHappened(u, run, n - 1, d);
      } else {
        EveryRunKeepsInv(u, run, n - 1);
        assert Consecutive(u, run, n);
        FollowsDecisions(u, run[n - 1], run[n], d);
      }
    }
  }

  /** A case is COMPLETED at the Master only with a record its Worker's ledger had decided COMPLETED, for this
      case and this Worker, and the record is persisted. */
  lemma CompletedWasDecided(u: Setup, run: seq<System>, n: nat, cid: string)
    requires SetupOk(u) && IsRun(u, run) && n < |run|
    requires cid in run[n].store && run[n].store[cid].state == COMPLETED
    ensures cid in u.cases && run[n].store[cid].outcome.Some? && run[n].store[cid].outcome.value.Measured?
    ensures var r := run[n].store[cid].outcome.value.record;
            && r.caseId == cid && r.measurementId in run[n].measurements && run[n].measurements[r.measurementId] == r
            && exists i, sid :: 0 <= i <= n && CompletedAt(run[i], u.cases[cid].workerId, sid, cid, r)
  {
    EveryRunKeepsInv(u, run, n);
    var stored := run[n].store[cid];
    assert Backed(u, run[n].decided, run[n].measurements, cid, stored);
    var sid :| (u.cases[cid].workerId, sid, cid, stored.outcome.value) in run[n].decided;
    DecisionsHappened(u, run, n, (u.cases[cid].workerId, sid, cid, stored.outcome.value));
    var i :| 0 <= i <= n && DecidedAt(run[i], (u.cases[cid].workerId, sid, cid, stored.outcome.value));
    EveryRunKeepsInv(u, run, i);
    DecisionIsCompleted(run[i], u.cases[cid].workerId, sid, cid, stored.outcome.value.record);
  }

  ghost predicate CompletedAt(x: System, w: string, sid: string, cid: string, r: Measurement)
  {
    && w in x.workers && Runner.HasCase(x.workers[w].sessions, sid, cid)
    && x.workers[w].sessions[sid].cases[cid] == Entry(COMPLETED, Some(Measured(r)))
  }

  lemma DecisionIsCompleted(x: System, w: string, sid: string, cid: string, r: Measurement)
    requires WorkersOk(x.workers) && DecidedAt(x, (w, sid, cid, Measured(r)))
    ensures CompletedAt(x, w, sid, cid, r)
  {
    assert Runner.Inv(x.workers[w]);
    assert EntryOk(x.workers[w].sessions[sid].cases[cid]);
  }

  /** No measurement is ever lost or replaced. */
  lemma MeasurementsStay(u: Setup, x: System, e: Event, m: string)
    requires Enabled(u, x, e) && m in x.measurements
    ensures m in Step(u, x, e).measurements && Step(u, x, e).measurements[m] == x.measurements[m]
  {
    if e.RunReturns? || e.CancelReturns? || e.FetchReturns? { ReturnedMeasurements(u, x, e.t, m); }
  }

  lemma ReturnedMeasurements(u: Setup, x: System, t: nat, m: string)
    requires t in x.replies && t < |x.issued| && x.issued[t].cid in u.cases && m in x.measurements
    ensures m in Returned(u, x, t).measurements && Returned(u, x, t).measurements[m] == x.measurements[m]
  {
    var reply := x.replies[t];
    if reply.GotOutcome? {
      PersistAdds(u, x.(awaiting := x.awaiting - {t}), x.issued[t].cid, reply.outcome, m);
    }
  }

  lemma PersistAdds(u: Setup, x: System, cid: string, outcome: Outcome, m: string)
    requires cid in u.cases && m in x.measurements
    ensures m in Persist(u, x, cid, outcome).measurements
    ensures Persist(u, x, cid, outcome).measurements[m] == x.measurements[m]
  {
  }
}
