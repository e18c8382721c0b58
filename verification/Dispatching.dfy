/**
 The Master's plans at the Worker: what becomes of a planned case when its Run arrives
 (src/edgeshard/control/master/profiling_controller.py, src/edgeshard/control/worker/profiling_runner.py).
 */
module Dispatching {
  import opened Leases
  import opened Ledger
  import opened SessionPlanning
  import opened LeaseHolding
  import Runner = ProfilingRunner

  /** The case as the Worker sees it. */
  function AtWorker(c: Case): Runner.Case
  {
    Runner.Case(c.id, c.workerId,
                if c.spec.NetworkSpec? then Runner.NetworkSpec
                else Runner.ModelSpec(c.spec.granularity == OPERATOR, c.spec.deviceIds))
  }

  /** The record a successful Prepare of the plan creates. */
  predicate PreparedFrom(record: Record, plan: Plan)
  {
    record.kind == plan.request.kind && record.devices == plan.request.deviceIds
  }

  /** Every case of a plan is of the kind its session accepts, and asks for exactly the session's devices. */
  lemma PlannedFits(digest: Digest, experiment: string, worker: string, cases: seq<Case>, j: nat, c: Case)
    requires CasesOk(cases) && j < |Keys(cases)|
    requires c in PlanFor(digest, experiment, worker, cases, Keys(cases)[j]).cases
    ensures var request := PlanFor(digest, experiment, worker, cases, Keys(cases)[j]).request;
            && Runner.MayRunIn(request.kind, AtWorker(c).spec)
            && (c.spec.NetworkSpec? <==> request.kind == NETWORK_SESSION)
            && (c.spec.ModelSpec? ==> c.spec.deviceIds == request.deviceIds)
  {
    GroupMembers(cases, Keys(cases)[j]);
  }

  /** In every run of a Worker, a Run of a planned case in its prepared session is never refused for its kind. */
  lemma NeverKindMismatch(digest: Digest, experiment: string, cases: seq<Case>, j: nat, c: Case, policy: Policy,
                          worker: string, run: seq<Runner.State>, i: nat)
    requires CasesOk(cases) && j < |Keys(cases)| && Runner.IsRun(policy, worker, run) && i < |run|
    requires var plan := PlanFor(digest, experiment, worker, cases, Keys(cases)[j]);
             && c in plan.cases
             && (plan.sessionId in run[i].sessions ==> PreparedFrom(run[i].sessions[plan.sessionId], plan))
    ensures var sid := PlanFor(digest, experiment, worker, cases, Keys(cases)[j]).sessionId;
            Runner.BeginRun(run[i].leases, run[i].sessions, worker, sid, AtWorker(c)).1 !=
            Runner.RunRefused(SESSION_KIND_MISMATCH)
  {
    var plan := PlanFor(digest, experiment, worker, cases, Keys(cases)[j]);
    PlannedFits(digest, experiment, worker, cases, j, c);
    Runner.EveryRunKeepsInv(policy, worker, run, i);
    Runner.RunAnsweredIff(run[i].leases, run[i].sessions, worker, plan.sessionId, AtWorker(c));
  }

  /** In every run of a Worker, a Run of a planned case of this worker starts its benchmark if and only if the session
      is open, the case has no entry yet, and no Close nor the shutdown has taken the session's devices. */
  lemma PlannedStartsIff(digest: Digest, experiment: string, cases: seq<Case>, j: nat, c: Case, policy: Policy,
                         worker: string, run: seq<Runner.State>, i: nat)
    requires CasesOk(cases) && j < |Keys(cases)| && Runner.IsRun(policy, worker, run) && i < |run|
    requires var plan := PlanFor(digest, experiment, worker, cases, Keys(cases)[j]);
             && c in plan.cases && c.workerId == worker && plan.sessionId in run[i].sessions
             && PreparedFrom(run[i].sessions[plan.sessionId], plan)
    ensures var s, sid := run[i], PlanFor(digest, experiment, worker, cases, Keys(cases)[j]).sessionId;
            Runner.BeginRun(s.leases, s.sessions, worker, sid, AtWorker(c)).1.Started? <==>
            && !s.sessions[sid].closed && c.id !in s.sessions[sid].cases
            && (c.spec.NetworkSpec? || sid !in s.stripped)
  {
    var s, sid := run[i], PlanFor(digest, experiment, worker, cases, Keys(cases)[j]).sessionId;
    PlannedFits(digest, experiment, worker, cases, j, c);
    Runner.EveryRunKeepsInv(policy, worker, run, i);
    Runner.RunAnsweredIff(s.leases, s.sessions, worker, sid, AtWorker(c));
    if c.spec.ModelSpec? { OpenHoldsLeaseIff(policy, worker, run, i, sid); }
  }
}
