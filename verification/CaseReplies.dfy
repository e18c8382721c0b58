/**
 One call about a case, end to end: what it does at its Worker, what the Worker answers, and what the Master makes of
 the answer (src/edgeshard/control/master/profiling_controller.py,
 src/edgeshard/control/worker/profiling_runner.py).
 */
module CaseReplies {
  import opened Options
  import opened Leases
  import opened Ledger
  import opened ProfilingSystem
  import Runner = ProfilingRunner

  // ---------------------------------------------------------------------------
  // At the Worker
  // ---------------------------------------------------------------------------

  /** Only the addressed Worker moves; the Master's own records stay. */
  predicate OnlyWorker(x: System, x': System, w: string)
  {
    && x'.workers.Keys == x.workers.Keys && x'.workers - {w} == x.workers - {w}
    && x'.store == x.store && x'.measurements == x.measurements && x'.issued == x.issued
    && x'.awaiting == x.awaiting && x'.tasks == x.tasks
  }

  /** What handling a call comes to, given the Worker's next state and what it answers at once. */
  lemma HandledIs(u: Setup, x: System, t: nat, w: string, s': Runner.State, answer: Option<Reply>)
    requires Enabled(u, x, WorkerHandles(t)) && w == WorkerOf(u, x.issued[t])
    requires s' == Runner.Next(u.policy, w, x.workers[w], Handling(u, t, x.issued[t]))
    requires answer == Answer(u, x.workers[w], x.issued[t])
    ensures var x' := Step(u, x, WorkerHandles(t));
            && OnlyWorker(x, x', w) && x'.workers[w] == s' && t !in x'.net
            && x'.replies == (if answer.Some? then x.replies[t := answer.value] else x.replies)
            && forall a :: a in s'.answered ==> (w, a.0, a.1, a.2) in x'.decided
  {
  }

  /** A CANCEL reaches the case and session it names, and is answered with the state the case then has there. */
  lemma CancelHandled(u: Setup, x: System, t: nat)
    requires Enabled(u, x, WorkerHandles(t)) && x.issued[t].kind == CANCEL
    ensures var x', call, w := Step(u, x, WorkerHandles(t)), x.issued[t], WorkerOf(u, x.issued[t]);
            var before, after := x.workers[w].sessions, x'.workers[w].sessions;
            && OnlyWorker(x, x', w) && t !in x'.net && t in x'.replies
            && (CanDecide(before, call.sid, call.cid) ==>
                  && OnlyEntry(before, after, call.sid, call.cid, CANCELLED_ENTRY)
                  && x'.replies[t] == GotState(CANCELLED))
            && (!CanDecide(before, call.sid, call.cid) ==> after == before)
            && (IsOpen(before, call.sid) && !CanDecide(before, call.sid, call.cid) ==>
                  x'.replies[t] == GotState(before[call.sid].cases[call.cid].state))
            && (!IsOpen(before, call.sid) ==> x'.replies[t] == Declined)
  {
    CancelMeans(x.workers[WorkerOf(u, x.issued[t])].sessions, x.issued[t].sid, x.issued[t].cid);
  }

  /** What the Worker answers to a fetch. */
  function FetchReply(sessions: Sessions, sid: string, cid: string): Reply
  {
    if IsOpen(sessions, sid) && cid in sessions[sid].cases then
      (if sessions[sid].cases[cid].outcome.Some? then GotOutcome(sessions[sid].cases[cid].outcome.value)
       else GotState(sessions[sid].cases[cid].state))
    else Declined
  }

  lemma FetchAnswers(u: Setup, s: Runner.State, call: Call, w: string)
    requires call.cid in u.cases && call.kind == FETCH
    ensures Answer(u, s, call) == Some(FetchReply(s.sessions, call.sid, call.cid))
    ensures var s', reply := Runner.Next(u.policy, w, s, Runner.GetCase(call.sid, call.cid)),
                             FetchReply(s.sessions, call.sid, call.cid);
            s'.sessions == s.sessions && (reply.GotOutcome? ==> (call.sid, call.cid, reply.outcome) in s'.answered)
  {
  }

  /** A FETCH changes nothing in the ledger, and is answered with the outcome or else the state of its case. */
  lemma FetchHandled(u: Setup, x: System, t: nat)
    requires Enabled(u, x, WorkerHandles(t)) && x.issued[t].kind == FETCH
    ensures var x', call, w := Step(u, x, WorkerHandles(t)), x.issued[t], WorkerOf(u, x.issued[t]);
            var reply := FetchReply(x.workers[w].sessions, call.sid, call.cid);
            && OnlyWorker(x, x', w) && x'.workers[w].sessions == x.workers[w].sessions
            && t !in x'.net && x'.replies == x.replies[t := reply]
            && (reply.GotOutcome? ==> (w, call.sid, call.cid, reply.outcome) in x'.decided)
  {
    var call, w := x.issued[t], WorkerOf(u, x.issued[t]);
    var s := x.workers[w];
    var s' := Runner.Next(u.policy, w, s, Runner.GetCase(call.sid, call.cid));
    var reply := FetchReply(s.sessions, call.sid, call.cid);
    FetchAnswers(u, s, call, w);
    HandledIs(u, x, t, w, s', Some(reply));
    if reply.GotOutcome? { assert (call.sid, call.cid, reply.outcome) in s'.answered; }
  }

  lemma RunAnswers(u: Setup, s: Runner.State, call: Call, w: string, t: nat)
    requires call.cid in u.cases && call.kind == RUN && w == WorkerOf(u, call) && t !in s.runs
    ensures var r := Runner.BeginRun(s.leases, s.sessions, w, call.sid, u.cases[call.cid]).1;
            Answer(u, s, call) == (match r case Started => None case Replay(o) => Some(GotOutcome(o))
                                   case Misassigned => Some(Aborted) case _ => Some(Declined))
    ensures var r := Runner.BeginRun(s.leases, s.sessions, w, call.sid, u.cases[call.cid]).1;
            var s' := Runner.Next(u.policy, w, s, Runner.RunBegins(t, call.sid, u.cases[call.cid]));
            if r.Started? then s'.runs == s.runs[t := Runner.RunTask(call.sid, u.cases[call.cid])]
            else s'.sessions == s.sessions && s'.runs == s.runs
  {
    Runner.StartedWrites(s.leases, s.sessions, w, call.sid, u.cases[call.cid]);
  }

  /** A RUN starts its case in the session it names and is answered later, or is answered at once and starts nothing. */
  lemma RunHandled(u: Setup, x: System, t: nat)
    requires Enabled(u, x, WorkerHandles(t)) && x.issued[t].kind == RUN
    ensures var x', call, w := Step(u, x, WorkerHandles(t)), x.issued[t], WorkerOf(u, x.issued[t]);
            var s, s' := x.workers[w], x'.workers[w];
            var r := Runner.BeginRun(s.leases, s.sessions, w, call.sid, u.cases[call.cid]).1;
            && OnlyWorker(x, x', w) && t !in x'.net
            && (r.Started? ==>
                  s'.runs == s.runs[t := Runner.RunTask(call.sid, u.cases[call.cid])] && x'.replies == x.replies)
            && (!r.Started? ==>
                  && s'.sessions == s.sessions && s'.runs == s.runs
                  && x'.replies == x.replies[t := match r case Replay(o) => GotOutcome(o) case Misassigned => Aborted
                                                  case _ => Declined])
  {
    var call, w := x.issued[t], WorkerOf(u, x.issued[t]);
    RunAnswers(u, x.workers[w], call, w, t);
    HandledIs(u, x, t, w, Runner.Next(u.policy, w, x.workers[w], Runner.RunBegins(t, call.sid, u.cases[call.cid])),
              Answer(u, x.workers[w], call));
  }

  /** A benchmark that ends decides its case in the session it ran in, and is answered with that decision or the one
      that came first; in a closed session it is answered with an error. */
  lemma RunFinished(u: Setup, x: System, t: nat, outcome: Outcome)
    requires Enabled(u, x, WorkerFinishes(t, outcome))
    requires LedgerOk(x.workers[WorkerOf(u, x.issued[t])].sessions)
    ensures var x', w := Step(u, x, WorkerFinishes(t, outcome)), WorkerOf(u, x.issued[t]);
            var run, before, after := x.workers[w].runs[t], x.workers[w].sessions, x'.workers[w].sessions;
            var sid, cid := run.sid, run.case_.id;
            && OnlyWorker(x, x', w) && x'.net == x.net && t !in x'.workers[w].runs && t in x'.replies
            && (CanDecide(before, sid, cid) ==>
                  && OnlyEntry(before, after, sid, cid,
                               Entry(if outcome.Measured? then COMPLETED else FAILED, Some(outcome)))
                  && x'.replies[t] == GotOutcome(outcome))
            && (!CanDecide(before, sid, cid) ==> after == before)
            && (!IsOpen(before, sid) ==> x'.replies[t] == Aborted)
            && (IsOpen(before, sid) && !CanDecide(before, sid, cid) ==>
                  && before[sid].cases[cid].outcome.Some?
                  && x'.replies[t] == GotOutcome(before[sid].cases[cid].outcome.value))
  {
    var w := WorkerOf(u, x.issued[t]);
    var run := x.workers[w].runs[t];
    Runner.EndReaches(u.policy, w, x.workers[w], t, outcome);
    Runner.EndRunMeans(x.workers[w].sessions, run.sid, run.case_.id, outcome);
  }

  // ---------------------------------------------------------------------------
  // At the Master
  // ---------------------------------------------------------------------------

  /** Only the entry of the case is written, and the call is no longer awaited. */
  predicate OnlyCase(x: System, x': System, t: nat, cid: string, state: CaseState)
  {
    && cid in x'.store && x'.store[cid].state == state && x'.store - {cid} == x.store - {cid}
    && x'.workers == x.workers && x'.tasks == x.tasks && x'.awaiting == x.awaiting - {t}
  }

  /** The outcome is a measurement of this very case, taken on its Worker's device, and contradicts none stored. */
  predicate Publishable(u: Setup, x: System, cid: string, outcome: Outcome)
    requires cid in u.cases
  {
    && outcome.Measured? && outcome.record.caseId == cid
    && outcome.record.environment == Some(Environment(u.cases[cid].workerId, ExpectedDevice(u.cases[cid])))
    && (outcome.record.measurementId in x.measurements ==>
          x.measurements[outcome.record.measurementId] == outcome.record)
  }

  /** An outcome is published exactly if it is publishable: COMPLETED, with its record stored; any other is FAILED, and
      no record is stored. */
  lemma OutcomeReturned(u: Setup, x: System, t: nat)
    requires t in x.awaiting && t in x.replies && t < |x.issued| && x.issued[t].cid in u.cases
    requires x.issued[t].kind != CANCEL && x.replies[t].GotOutcome?
    ensures var x', cid, outcome := Returned(u, x, t), x.issued[t].cid, x.replies[t].outcome;
            && OnlyCase(x, x', t, cid, if Publishable(u, x, cid, outcome) then COMPLETED else FAILED)
            && (Publishable(u, x, cid, outcome) ==>
                  && x'.store[cid].outcome == Some(outcome)
                  && x'.measurements == x.measurements[outcome.record.measurementId := outcome.record])
            && (!Publishable(u, x, cid, outcome) ==> x'.measurements == x.measurements)
            && (outcome.Failure? ==> x'.store[cid].outcome == Some(outcome))
  {
  }

  /** Any other answer to a RUN is a failure of the case; to a FETCH it leaves only the cancellation to be recorded. */
  lemma NoOutcomeReturned(u: Setup, x: System, t: nat)
    requires t in x.awaiting && t in x.replies && t < |x.issued| && x.issued[t].cid in u.cases
    requires x.issued[t].kind != CANCEL && !x.replies[t].GotOutcome?
    ensures var x', cid := Returned(u, x, t), x.issued[t].cid;
            && OnlyCase(x, x', t, cid, if x.issued[t].kind == RUN then FAILED else CANCELLED)
            && x'.measurements == x.measurements && x'.issued == x.issued
  {
  }

  /** A cancellation is recorded, unless the Worker says that the case had ended another way: then, and only then, its
      outcome is fetched, under the same session, before anything is recorded. */
  lemma CancelReturned(u: Setup, x: System, t: nat)
    requires t in x.awaiting && t in x.replies && t < |x.issued| && x.issued[t].cid in u.cases
    requires x.issued[t].kind == CANCEL
    ensures var x', call, reply := Returned(u, x, t), x.issued[t], x.replies[t];
            var lost := reply.GotState? && reply.state != CANCELLED;
            && x'.measurements == x.measurements
            && (!lost ==> OnlyCase(x, x', t, call.cid, CANCELLED) && x'.issued == x.issued)
            && (lost ==>
                  && x'.store == x.store && x'.tasks == x.tasks && x'.workers == x.workers
                  && x'.issued == x.issued + [Call(FETCH, call.cid, call.sid)]
                  && x'.net == x.net + {|x.issued|} && x'.awaiting == (x.awaiting - {t}) + {|x.issued|})
  {
  }

  /** A failed RUN is a failure of the case; a failed CANCEL or FETCH records the cancellation all the same. */
  lemma FailureReturned(u: Setup, x: System, t: nat)
    requires Enabled(u, x, CallFails(t))
    ensures var x', cid := Step(u, x, CallFails(t)), x.issued[t].cid;
            && OnlyCase(x, x', t, cid, if x.issued[t].kind == RUN then FAILED else CANCELLED)
            && x'.measurements == x.measurements && x'.issued == x.issued
  {
  }

  // ---------------------------------------------------------------------------
  // Dispatching and giving up
  // ---------------------------------------------------------------------------

  /** A dispatch takes the case off its task's list and sends exactly one call about it; a run writes RUNNING first. */
  lemma Dispatches(u: Setup, x: System, k: nat, cid: string, sid: string)
    ensures Enabled(u, x, DispatchRun(k, cid, sid)) ==>
              var x' := Step(u, x, DispatchRun(k, cid, sid));
              && x'.issued == x.issued + [Call(RUN, cid, sid)] && x'.net == x.net + {|x.issued|}
              && x'.awaiting == x.awaiting + {|x.issued|} && cid in x'.store && x'.store[cid].state == RUNNING
              && x'.store - {cid} == x.store - {cid}
              && k in x'.tasks && x'.tasks[k] == RunTask(x.tasks[k].listed - {cid})
              && x'.tasks - {k} == x.tasks - {k}
    ensures Enabled(u, x, DispatchCancel(k, cid, sid)) ==>
              var x' := Step(u, x, DispatchCancel(k, cid, sid));
              && x'.issued == x.issued + [Call(CANCEL, cid, sid)] && x'.net == x.net + {|x.issued|}
              && x'.awaiting == x.awaiting + {|x.issued|} && x'.store == x.store
              && k in x'.tasks && x'.tasks[k] == CancelTask(x.tasks[k].listed - {cid}, true)
              && x'.tasks - {k} == x.tasks - {k}
  {
  }

  /** Giving up writes exactly the cases given up, FAILED by a run and CANCELLED by a cancellation, and drops them. */
  lemma GivesUp(u: Setup, x: System, k: nat, cids: set<string>, cid: string)
    ensures Enabled(u, x, GiveUpRun(k, cids)) ==>
              var x' := Step(u, x, GiveUpRun(k, cids));
              && (cid in cids ==> cid in x'.store && x'.store[cid].state == FAILED)
              && (cid !in cids ==>
                    (cid in x'.store <==> cid in x.store) && (cid in x.store ==> x'.store[cid] == x.store[cid]))
              && k in x'.tasks && x'.tasks[k] == RunTask(x.tasks[k].listed - cids) && x'.issued == x.issued
              && x'.tasks - {k} == x.tasks - {k} && x'.measurements == x.measurements
    ensures Enabled(u, x, GiveUpCancel(k)) ==>
              var x', listed := Step(u, x, GiveUpCancel(k)), x.tasks[k].listed;
              && (cid in listed ==> cid in x'.store && x'.store[cid].state == CANCELLED)
              && (cid !in listed ==>
                    (cid in x'.store <==> cid in x.store) && (cid in x.store ==> x'.store[cid] == x.store[cid]))
              && k in x'.tasks && x'.tasks[k] == CancelTask({}, true) && x'.issued == x.issued
              && x'.tasks - {k} == x.tasks - {k} && x'.measurements == x.measurements
  {
  }
}
