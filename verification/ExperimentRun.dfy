/**
 Dispatching an experiment: every case is run or failed exactly once and reported exactly once
 (src/edgeshard/control/master/profiling_controller.py).

 Workers run concurrently in the source.  They are run here one after the other, recording what each writes
 to the store, and every interleaving of these writes is shown to leave the same store.  What the outside
 world answers is a parameter.
 */
module ExperimentRun {
  import opened Options
  import opened Orders
  import opened Ledger
  import opened SessionPlanning
  import opened Interleaving

  datatype ExperimentState = EXP_COMPLETED | EXP_PARTIAL | EXP_CANCELLED | EXP_FAILED

  /** `_terminal_experiment_state`; `None` is its ValueError. */
  function Verdict(states: seq<CaseState>): Option<ExperimentState>
  {
    if forall i :: 0 <= i < |states| ==> states[i] == COMPLETED then Some(EXP_COMPLETED)
    else if forall i :: 0 <= i < |states| ==> states[i] == CANCELLED then Some(EXP_CANCELLED)
    else if forall i :: 0 <= i < |states| ==> states[i] == FAILED then Some(EXP_FAILED)
    else if forall i :: 0 <= i < |states| ==> Terminal(states[i]) then Some(EXP_PARTIAL)
    else None
  }

  datatype Report = Report(caseId: string, state: CaseState)

  /** How the call that runs a case comes back. */
  datatype RunExit =
    | NoIperfServer
    | CallLost
    | CallRaised
    | RefusedByWorker
    | NoOutcome
    | FailedOutcome
    | WrongCase
    | WrongEnvironment
    | StoreError
    | Persisted

  /** Per worker: is it reachable; per worker id: are its network facts known; per session: does its prepare
      succeed; per case: how its run comes back. */
  datatype World = World(resolves: string -> bool, facts: string -> bool, prepares: string -> bool,
                         exit: string -> RunExit)

  function Ids(cases: seq<Case>): set<string>
  {
    set c | c in cases :: c.id
  }

  predicate DistinctIds(cases: seq<Case>)
  {
    forall i, j :: 0 <= i < j < |cases| ==> cases[i].id != cases[j].id
  }

  predicate NoRepeat(ids: seq<string>)
  {
    forall i, j :: 0 <= i < j < |ids| ==> ids[i] != ids[j]
  }

  function ReportIds(reports: seq<Report>): (r: seq<string>)
    ensures |r| == |reports| && forall i :: 0 <= i < |r| ==> r[i] == reports[i].caseId
  {
    seq(|reports|, i requires 0 <= i < |reports| => reports[i].caseId)
  }

  /** How a case ends: COMPLETED exactly if it is one of those `due` for dispatch and its measurement is persisted. */
  function EndOf(world: World, due: set<string>, id: string): CaseState
  {
    if id in due && world.exit(id) == Persisted then COMPLETED else FAILED
  }

  /** One report for each of `ids` and no other, saying how the case ends, and the store saying the same; exactly those
      `due` are dispatched, once each; and no other case is touched. */
  ghost predicate Accounts(world: World, due: set<string>, ids: set<string>, before: Store, after: Store,
                           reports: seq<Report>, dispatched: seq<string>)
  {
    && NoRepeat(ReportIds(reports)) && NoRepeat(dispatched)
    && (forall id :: id in ids <==> id in ReportIds(reports))
    && (forall id :: id in dispatched <==> id in ids && id in due)
    && (forall i :: 0 <= i < |reports| ==> reports[i].state == EndOf(world, due, reports[i].caseId))
    && (forall i :: 0 <= i < |reports| ==> reports[i].caseId in after && after[reports[i].caseId] == reports[i].state)
    && (forall id :: id !in ids ==> (id in after <==> id in before))
    && (forall id :: id !in ids && id in before ==> after[id] == before[id])
  }

  lemma AccountsNothing(world: World, due: set<string>, store: Store)
    ensures Accounts(world, due, {}, store, store, [], [])
  {
  }

  lemma NoRepeatJoin(a: seq<string>, b: seq<string>)
    requires NoRepeat(a) && NoRepeat(b) && forall x :: x in a ==> x !in b
    ensures NoRepeat(a + b)
  {
    forall i, j | 0 <= i < j < |a + b| ensures (a + b)[i] != (a + b)[j] {
      if i < |a| <= j { assert a[i] in a && b[j - |a|] in b; }
    }
  }

  lemma AccountsJoin(world: World, due: set<string>, ids: set<string>, ids': set<string>, s0: Store, s1: Store,
                     s2: Store, r1: seq<Report>, r2: seq<Report>, d1: seq<string>, d2: seq<string>)
    requires Accounts(world, due, ids, s0, s1, r1, d1) && Accounts(world, due, ids', s1, s2, r2, d2) && ids !! ids'
    ensures Accounts(world, due, ids + ids', s0, s2, r1 + r2, d1 + d2)
  {
    assert ReportIds(r1 + r2) == ReportIds(r1) + ReportIds(r2);
    NoRepeatJoin(ReportIds(r1), ReportIds(r2));
    NoRepeatJoin(d1, d2);
    forall i | 0 <= i < |r1 + r2| ensures (r1 + r2)[i].caseId in s2 && s2[(r1 + r2)[i].caseId] == (r1 + r2)[i].state {
      if i < |r1| { assert r1[i].caseId in ReportIds(r1); }
    }
  }

  lemma AccountsOne(world: World, due: set<string>, id: string, before: Store)
    ensures var state := EndOf(world, due, id);
            Accounts(world, due, {id}, before, before[id := state], [Report(id, state)], if id in due then [id] else [])
  {
    assert ReportIds([Report(id, EndOf(world, due, id))]) == [id];
  }

  /** `writes` took the store from `before` to `after`, about cases in `ids` only. */
  ghost predicate Wrote(ids: set<string>, before: Store, after: Store, writes: seq<Write>)
  {
    after == Apply(before, writes) && Within(writes, ids)
  }

  lemma WroteJoin(ids: set<string>, ids': set<string>, s0: Store, s1: Store, s2: Store, w1: seq<Write>, w2: seq<Write>)
    requires Wrote(ids, s0, s1, w1) && Wrote(ids', s1, s2, w2)
    ensures Wrote(ids + ids', s0, s2, w1 + w2)
  {
    ApplyJoins(s0, w1, w2);
  }

  lemma WroteOne(id: string, state: CaseState, before: Store)
    ensures Wrote({id}, before, before[id := state], [Write(id, state)])
  {
    assert [Write(id, state)][..0] == [];
  }

  lemma IdsSnoc(cases: seq<Case>, i: nat)
    requires i < |cases| && DistinctIds(cases)
    ensures Ids(cases[..i + 1]) == Ids(cases[..i]) + {cases[i].id} && cases[i].id !in Ids(cases[..i])
  {
    assert cases[..i + 1] == cases[..i] + [cases[i]];
  }

  // ---------------------------------------------------------------------------
  // One session
  // ---------------------------------------------------------------------------

  /** `_record_failure` for each of the cases. */
  method FailAll(ghost world: World, ghost due: set<string>, cases: seq<Case>, store: Store)
    returns (after: Store, reports: seq<Report>, ghost writes: seq<Write>)
    requires DistinctIds(cases) && Ids(cases) !! due
    ensures Accounts(world, due, Ids(cases), store, after, reports, []) && Wrote(Ids(cases), store, after, writes)
  {
    after, reports, writes := store, [], [];
    AccountsNothing(world, due, store);
    for i := 0 to |cases|
      invariant Accounts(world, due, Ids(cases[..i]), store, after, reports, []) &&
                Wrote(Ids(cases[..i]), store, after, writes)
    {
      var id := cases[i].id;
      IdsSnoc(cases, i);
      assert cases[i] in cases && id in Ids(cases);
      AccountsOne(world, due, id, after);
      WroteOne(id, FAILED, after);
      AccountsJoin(world, due, Ids(cases[..i]), {id}, store, after, after[id := FAILED], reports,
                   [Report(id, FAILED)], [], []);
      WroteJoin(Ids(cases[..i]), {id}, store, after, after[id := FAILED], writes, [Write(id, FAILED)]);
      after, reports, writes := after[id := FAILED], reports + [Report(id, FAILED)], writes + [Write(id, FAILED)];
    }
    assert cases[..|cases|] == cases;
  }

  /** The case needs a temporary iperf server at its destination. */
  predicate NeedsServer(s: Spec)
  {
    s.NetworkSpec? && s.probe == BANDWIDTH
  }

  /** The case needs no iperf server, or gets it. */
  predicate HasServer(world: World, c: Case)
  {
    NeedsServer(c.spec) ==> world.exit(c.id) != NoIperfServer
  }

  /** `_run_case` with `_persist_outcome`: RUNNING while it lasts, then COMPLETED exactly if the measurement was
      persisted and FAILED on every other exit.  A bandwidth probe without its iperf server is not dispatched. */
  method RunCase(world: World, ghost due: set<string>, c: Case, store: Store)
    returns (after: Store, report: Report, ran: bool, ghost writes: seq<Write>)
    requires c.id in due <==> HasServer(world, c)
    ensures Accounts(world, due, {c.id}, store, after, [report], if ran then [c.id] else []) &&
            Wrote({c.id}, store, after, writes)
    ensures report.caseId == c.id && (report.state == COMPLETED <==> ran && world.exit(c.id) == Persisted)
    ensures ran <==> c.id in due
    ensures writes == [Write(c.id, RUNNING), Write(c.id, report.state)]
  {
    var exit := world.exit(c.id);
    after := store[c.id := RUNNING];
    ran := !(NeedsServer(c.spec) && exit == NoIperfServer);
    var state := if exit == Persisted then COMPLETED else FAILED;
    AccountsOne(world, due, c.id, store);
    WroteOne(c.id, RUNNING, store);
    WroteOne(c.id, state, after);
    WroteJoin({c.id}, {c.id}, store, after, after[c.id := state], [Write(c.id, RUNNING)], [Write(c.id, state)]);
    after := after[c.id := state];
    assert after == store[c.id := state] && {c.id} + {c.id} == {c.id};
    report, writes := Report(c.id, state), [Write(c.id, RUNNING)] + [Write(c.id, state)];
  }

  method RunCases(world: World, ghost due: set<string>, cases: seq<Case>, store: Store)
    returns (after: Store, reports: seq<Report>, dispatched: seq<string>, ghost writes: seq<Write>)
    requires DistinctIds(cases) && forall c :: c in cases ==> (c.id in due <==> HasServer(world, c))
    ensures Accounts(world, due, Ids(cases), store, after, reports, dispatched) &&
            Wrote(Ids(cases), store, after, writes)
  {
    after, reports, dispatched, writes := store, [], [], [];
    AccountsNothing(world, due, store);
    for i := 0 to |cases|
      invariant Accounts(world, due, Ids(cases[..i]), store, after, reports, dispatched) &&
                Wrote(Ids(cases[..i]), store, after, writes)
    {
      IdsSnoc(cases, i);
      var next, report, ran, w := RunCase(world, due, cases[i], after);
      var now := if ran then [cases[i].id] else [];
      AccountsJoin(world, due, Ids(cases[..i]), {cases[i].id}, store, after, next, reports, [report], dispatched, now);
      WroteJoin(Ids(cases[..i]), {cases[i].id}, store, after, next, writes, w);
      after, reports, dispatched, writes := next, reports + [report], dispatched + now, writes + w;
    }
    assert cases[..|cases|] == cases;
  }

  /** A network case both of whose peers are in the cluster snapshot. */
  predicate FactsKnown(world: World, c: Case)
  {
    c.spec.NetworkSpec? && world.facts(c.spec.source) && world.facts(c.spec.destination)
  }

  /** `_resolve_network_facts`: the cases that can be dispatched; the others fail here. */
  method ResolveNetworkFacts(world: World, ghost due: set<string>, cases: seq<Case>, store: Store)
    returns (dispatchable: seq<Case>, after: Store, reports: seq<Report>, ghost failed: set<string>,
             ghost writes: seq<Write>)
    requires DistinctIds(cases) && forall c :: c in cases && c.id in due ==> FactsKnown(world, c)
    ensures forall c :: c in dispatchable <==> c in cases && FactsKnown(world, c)
    ensures DistinctIds(dispatchable) && Ids(dispatchable) !! failed && Ids(dispatchable) + failed == Ids(cases)
    ensures Accounts(world, due, failed, store, after, reports, []) && Wrote(failed, store, after, writes)
  {
    dispatchable, after, reports, failed, writes := [], store, [], {}, [];
    AccountsNothing(world, due, store);
    for i := 0 to |cases|
      invariant forall c :: c in dispatchable <==> c in cases[..i] && FactsKnown(world, c)
      invariant DistinctIds(dispatchable) && Ids(dispatchable) !! failed &&
                Ids(dispatchable) + failed == Ids(cases[..i])
      invariant Accounts(world, due, failed, store, after, reports, []) && Wrote(failed, store, after, writes)
    {
      var c := cases[i];
      IdsSnoc(cases, i);
      if c.spec.NetworkSpec? && world.facts(c.spec.source) && world.facts(c.spec.destination) {
        IdsAdd(dispatchable, c);
        dispatchable := dispatchable + [c];
      } else {
        AccountsOne(world, due, c.id, after);
        WroteOne(c.id, FAILED, after);
        AccountsJoin(world, due, failed, {c.id}, store, after, after[c.id := FAILED], reports,
                     [Report(c.id, FAILED)], [], []);
        WroteJoin(failed, {c.id}, store, after, after[c.id := FAILED], writes, [Write(c.id, FAILED)]);
        after, reports, failed := after[c.id := FAILED], reports + [Report(c.id, FAILED)], failed + {c.id};
        writes := writes + [Write(c.id, FAILED)];
      }
    }
    assert cases[..|cases|] == cases;
  }

  lemma IdsAdd(cases: seq<Case>, c: Case)
    requires DistinctIds(cases) && c.id !in Ids(cases)
    ensures DistinctIds(cases + [c]) && Ids(cases + [c]) == Ids(cases) + {c.id}
  {
  }

  /** The case is dispatched in session `sid`: the session is prepared, a network case's facts are known, and a
      bandwidth probe gets its server. */
  predicate DueIn(world: World, sid: string, c: Case)
  {
    && world.prepares(sid)
    && (c.spec.NetworkSpec? ==> world.facts(c.spec.source) && world.facts(c.spec.destination))
    && (c.spec.NetworkSpec? && c.spec.probe == BANDWIDTH ==> world.exit(c.id) != NoIperfServer)
  }

  /** `_run_session`: whatever exit it takes, each of its cases is accounted for once. */
  method RunSession(world: World, ghost due: set<string>, plan: Plan, store: Store)
    returns (after: Store, reports: seq<Report>, dispatched: seq<string>, ghost writes: seq<Write>)
    requires DistinctIds(plan.cases)
    requires forall c :: c in plan.cases ==> (c.spec.NetworkSpec? <==> plan.request.kind == NETWORK_SESSION)
    requires forall c :: c in plan.cases ==> (c.id in due <==> DueIn(world, plan.sessionId, c))
    ensures Accounts(world, due, Ids(plan.cases), store, after, reports, dispatched) &&
            Wrote(Ids(plan.cases), store, after, writes)
  {
    var cases := plan.cases;
    ghost var failed: set<string> := {};
    after, reports, dispatched, writes := store, [], [], [];
    AccountsNothing(world, due, store);
    if plan.request.kind == NETWORK_SESSION {
      cases, after, reports, failed, writes := ResolveNetworkFacts(world, due, cases, store);
      if cases == [] {
        return;
      }
    }
    var next: Store, more: seq<Report>, ran: seq<string> := after, [], [];
    ghost var w: seq<Write>;
    if world.prepares(plan.sessionId) {
      next, more, ran, w := RunCases(world, due, cases, after);
    } else {
      next, more, w := FailAll(world, due, cases, after);
    }
    AccountsJoin(world, due, failed, Ids(cases), store, after, next, reports, more, dispatched, ran);
    WroteJoin(failed, Ids(cases), store, after, next, writes, w);
    after, reports, dispatched, writes := next, reports + more, dispatched + ran, writes + w;
  }

  // ---------------------------------------------------------------------------
  // One worker
  // ---------------------------------------------------------------------------

  lemma {:induction false} GroupDistinct(cases: seq<Case>, k: GroupKey)
    requires CasesOk(cases) && DistinctIds(cases)
    ensures DistinctIds(Group(cases, k)) && Ids(Group(cases, k)) <= Ids(cases)
    decreases |cases|
  {
    if cases != [] {
      var last := |cases| - 1;
      GroupDistinct(cases[..last], k);
      IdsSnoc(cases, last);
      assert cases[..last + 1] == cases;
      if KeyOf(cases[last]) == k { IdsAdd(Group(cases[..last], k), cases[last]); }
    }
  }

  lemma SameIdSameCase(cases: seq<Case>, c: Case, d: Case)
    requires DistinctIds(cases) && c in cases && d in cases && c.id == d.id
    ensures c == d
  {
  }

  lemma GroupsDisjoint(cases: seq<Case>, k: GroupKey, k': GroupKey)
    requires CasesOk(cases) && DistinctIds(cases) && k != k'
    ensures Ids(Group(cases, k)) !! Ids(Group(cases, k'))
  {
    GroupMembers(cases, k);
    GroupMembers(cases, k');
    forall c, d | c in Group(cases, k) && d in Group(cases, k') ensures c.id != d.id {
      if c.id == d.id { SameIdSameCase(cases, c, d); }
    }
  }

  /** The ids of the groups under the first `n` keys. */
  ghost function PlannedIds(cases: seq<Case>, n: nat): set<string>
    requires CasesOk(cases) && n <= |Keys(cases)|
  {
    if n == 0 then {} else PlannedIds(cases, n - 1) + Ids(Group(cases, Keys(cases)[n - 1]))
  }

  lemma {:induction false} PlannedDisjoint(cases: seq<Case>, n: nat, m: nat)
    requires CasesOk(cases) && DistinctIds(cases) && n <= m < |Keys(cases)|
    ensures PlannedIds(cases, n) !! Ids(Group(cases, Keys(cases)[m]))
    decreases n
  {
    if n > 0 {
      PlannedDisjoint(cases, n - 1, m);
      GroupsDisjoint(cases, Keys(cases)[n - 1], Keys(cases)[m]);
    }
  }

  lemma {:induction false} PlannedGrows(cases: seq<Case>, n: nat, m: nat)
    requires CasesOk(cases) && n < m <= |Keys(cases)|
    ensures Ids(Group(cases, Keys(cases)[n])) <= PlannedIds(cases, m)
    decreases m
  {
    if n < m - 1 { PlannedGrows(cases, n, m - 1); }
  }

  lemma {:induction false} PlannedWithin(cases: seq<Case>, n: nat)
    requires CasesOk(cases) && DistinctIds(cases) && n <= |Keys(cases)|
    ensures PlannedIds(cases, n) <= Ids(cases)
    decreases n
  {
    if n > 0 {
      PlannedWithin(cases, n - 1);
      GroupDistinct(cases, Keys(cases)[n - 1]);
    }
  }

  /** All plans together hold all the cases. */
  lemma PlannedAll(cases: seq<Case>)
    requires CasesOk(cases) && DistinctIds(cases)
    ensures PlannedIds(cases, |Keys(cases)|) == Ids(cases)
  {
    PlannedWithin(cases, |Keys(cases)|);
    forall c | c in cases ensures c.id in PlannedIds(cases, |Keys(cases)|) {
      var i :| 0 <= i < |cases| && cases[i] == c;
      KeysComplete(cases, i);
      var n :| 0 <= n < |Keys(cases)| && Keys(cases)[n] == KeyOf(c);
      GroupMembers(cases, KeyOf(c));
      PlannedGrows(cases, n, |Keys(cases)|);
    }
  }

  /** The case is dispatched: its worker is reachable, and it is due in the session of its own key. */
  predicate Due(world: World, digest: Digest, experiment: string, c: Case)
    requires SpecOk(c.spec)
  {
    world.resolves(c.workerId) && DueIn(world, SessionOf(digest, experiment, c.workerId, c), c)
  }

  /** All cases are `worker`'s, and `due` are those of them that are dispatched. */
  ghost predicate DueAmong(world: World, due: set<string>, digest: Digest, experiment: string, worker: string,
                           cases: seq<Case>)
  {
    forall c :: c in cases ==>
      c.workerId == worker && SpecOk(c.spec) && (c.id in due <==> Due(world, digest, experiment, c))
  }

  ghost predicate DueOf(world: World, due: set<string>, digest: Digest, experiment: string,
                        catalog: map<string, Case>)
  {
    forall id :: id in catalog ==>
      SpecOk(catalog[id].spec) && (id in due <==> Due(world, digest, experiment, catalog[id]))
  }

  /** A plan's session is that of each of its cases. */
  lemma PlannedDue(world: World, due: set<string>, digest: Digest, experiment: string, worker: string,
                   cases: seq<Case>, plan: Plan, j: nat)
    requires CasesOk(cases) && j < |Keys(cases)| && world.resolves(worker)
    requires DueAmong(world, due, digest, experiment, worker, cases)
    requires plan == PlanFor(digest, experiment, worker, cases, Keys(cases)[j])
    ensures forall c :: c in plan.cases ==>
              && (c.spec.NetworkSpec? <==> plan.request.kind == NETWORK_SESSION)
              && (c.id in due <==> DueIn(world, plan.sessionId, c))
  {
    GroupMembers(cases, Keys(cases)[j]);
  }

  /** `_run_worker`. */
  method RunWorker(world: World, ghost due: set<string>, digest: Digest, experiment: string, worker: string,
                   cases: seq<Case>, store: Store)
    returns (after: Store, reports: seq<Report>, dispatched: seq<string>, ghost writes: seq<Write>)
    requires CasesOk(cases) && DistinctIds(cases)
    requires DueAmong(world, due, digest, experiment, worker, cases)
    ensures Accounts(world, due, Ids(cases), store, after, reports, dispatched) &&
            Wrote(Ids(cases), store, after, writes)
  {
    dispatched := [];
    if !world.resolves(worker) {
      after, reports, writes := FailAll(world, due, cases, store);
      return;
    }
    var plans := PlanSessions(digest, experiment, worker, cases);
    after, reports, writes := store, [], [];
    AccountsNothing(world, due, store);
    for j := 0 to |plans|
      invariant Accounts(world, due, PlannedIds(cases, j), store, after, reports, dispatched) &&
                Wrote(PlannedIds(cases, j), store, after, writes)
    {
      ghost var group := Group(cases, Keys(cases)[j]);
      GroupDistinct(cases, Keys(cases)[j]);
      PlannedDisjoint(cases, j, j);
      PlannedDue(world, due, digest, experiment, worker, cases, plans[j], j);
      var next, more, ran, w := RunSession(world, due, plans[j], after);
      AccountsJoin(world, due, PlannedIds(cases, j), Ids(group), store, after, next, reports, more, dispatched, ran);
      WroteJoin(PlannedIds(cases, j), Ids(group), store, after, next, writes, w);
      after, reports, dispatched, writes := next, reports + more, dispatched + ran, writes + w;
    }
    PlannedAll(cases);
  }

  // ---------------------------------------------------------------------------
  // The experiment
  // ---------------------------------------------------------------------------

  /** The persisted cases: each stored under its own id, with a valid spec and a state. */
  ghost predicate CatalogOk(catalog: map<string, Case>, store: Store)
  {
    forall id :: id in catalog ==> catalog[id].id == id && SpecOk(catalog[id].spec) && id in store
  }

  /** Cases waiting at their own worker, none twice. */
  ghost predicate PendingOk(catalog: map<string, Case>, pending: map<string, seq<Case>>)
  {
    forall w :: w in pending ==> CasesOk(pending[w]) && DistinctIds(pending[w]) && BelongTo(catalog, pending[w], w)
  }

  ghost predicate BelongTo(catalog: map<string, Case>, cases: seq<Case>, w: string)
  {
    forall i :: 0 <= i < |cases| ==>
      cases[i].workerId == w && cases[i].id in catalog && catalog[cases[i].id] == cases[i]
  }

  ghost predicate IsPending(pending: map<string, seq<Case>>, c: Case)
  {
    c.workerId in pending && c in pending[c.workerId]
  }

  /** The pending cases are those among the first `n` whose stored state is not terminal. */
  ghost predicate Sorted(caseIds: seq<string>, n: nat, catalog: map<string, Case>, store: Store,
                         pending: map<string, seq<Case>>)
    requires n <= |caseIds|
  {
    forall id :: id in catalog && id in store ==>
      (IsPending(pending, catalog[id]) <==> id in caseIds[..n] && !Terminal(store[id]))
  }

  lemma AddToWorker(catalog: map<string, Case>, waiting: seq<Case>, c: Case)
    requires CasesOk(waiting) && DistinctIds(waiting) && BelongTo(catalog, waiting, c.workerId)
    requires SpecOk(c.spec) && c.id in catalog && catalog[c.id] == c && c !in waiting
    ensures CasesOk(waiting + [c]) && DistinctIds(waiting + [c]) && BelongTo(catalog, waiting + [c], c.workerId)
  {
    forall i | 0 <= i < |waiting| ensures waiting[i].id != c.id {
      assert catalog[waiting[i].id] == waiting[i] && waiting[i] in waiting;
    }
  }

  function Waiting(pending: map<string, seq<Case>>, w: string): seq<Case>
  {
    if w in pending then pending[w] else []
  }

  lemma SortedStep(caseIds: seq<string>, n: nat, catalog: map<string, Case>, store: Store,
                   pending: map<string, seq<Case>>)
    requires CatalogOk(catalog, store) && n < |caseIds| && caseIds[n] in catalog &&
             Sorted(caseIds, n, catalog, store, pending)
    ensures var c := catalog[caseIds[n]];
            Sorted(caseIds, n + 1, catalog, store, if Terminal(store[caseIds[n]]) then pending
                   else pending[c.workerId := Waiting(pending, c.workerId) + [c]])
  {
    var c := catalog[caseIds[n]];
    var pending' := if Terminal(store[caseIds[n]]) then pending
                      else pending[c.workerId := Waiting(pending, c.workerId) + [c]];
    assert caseIds[..n + 1] == caseIds[..n] + [caseIds[n]];
    forall id | id in catalog && id in store
      ensures IsPending(pending', catalog[id]) <==> id in caseIds[..n + 1] && !Terminal(store[id])
    {
      assert IsPending(pending, catalog[id]) <==> id in caseIds[..n] && !Terminal(store[id]);
    }
  }

  lemma PendingAdd(catalog: map<string, Case>, store: Store, pending: map<string, seq<Case>>, caseIds: seq<string>,
                   n: nat)
    requires CatalogOk(catalog, store) && PendingOk(catalog, pending) && n < |caseIds| && NoRepeat(caseIds) &&
             caseIds[n] in catalog
    requires Sorted(caseIds, n, catalog, store, pending) && !Terminal(store[caseIds[n]])
    ensures var c := catalog[caseIds[n]]; PendingOk(catalog, pending[c.workerId := Waiting(pending, c.workerId) + [c]])
  {
    var c := catalog[caseIds[n]];
    assert caseIds[n] !in caseIds[..n];
    assert !IsPending(pending, c);
    AddToWorker(catalog, Waiting(pending, c.workerId), c);
  }

  method CollectPending(caseIds: seq<string>, catalog: map<string, Case>, store: Store)
    returns (pending: map<string, seq<Case>>)
    requires CatalogOk(catalog, store) && NoRepeat(caseIds) && forall i :: 0 <= i < |caseIds| ==> caseIds[i] in catalog
    ensures PendingOk(catalog, pending) && Sorted(caseIds, |caseIds|, catalog, store, pending)
  {
    pending := map[];
    for n := 0 to |caseIds|
      invariant PendingOk(catalog, pending) && Sorted(caseIds, n, catalog, store, pending)
    {
      SortedStep(caseIds, n, catalog, store, pending);
      var c := catalog[caseIds[n]];
      if !Terminal(store[caseIds[n]]) {
        PendingAdd(catalog, store, pending, caseIds, n);
        pending := pending[c.workerId := Waiting(pending, c.workerId) + [c]];
      }
    }
  }

  ghost function WaitingIds(pending: map<string, seq<Case>>, workers: seq<string>): set<string>
    requires forall i :: 0 <= i < |workers| ==> workers[i] in pending
  {
    if workers == [] then {}
    else WaitingIds(pending, workers[..|workers| - 1]) + Ids(pending[workers[|workers| - 1]])
  }

  lemma {:induction false} WaitingAt(pending: map<string, seq<Case>>, workers: seq<string>, id: string)
    requires forall i :: 0 <= i < |workers| ==> workers[i] in pending
    ensures id in WaitingIds(pending, workers) <==> exists i :: 0 <= i < |workers| && id in Ids(pending[workers[i]])
    decreases |workers|
  {
    if workers != [] {
      var last := |workers| - 1;
      WaitingAt(pending, workers[..last], id);
      if id in WaitingIds(pending, workers[..last]) {
        var i :| 0 <= i < last && id in Ids(pending[workers[..last][i]]);
        assert id in Ids(pending[workers[i]]);
      }
      if i :| 0 <= i < |workers| && id in Ids(pending[workers[i]]) {
        if i < last { assert id in Ids(pending[workers[..last][i]]); }
      }
    }
  }

  lemma WorkerOfId(catalog: map<string, Case>, pending: map<string, seq<Case>>, w: string, id: string)
    requires PendingOk(catalog, pending) && w in pending && id in Ids(pending[w])
    ensures id in catalog && catalog[id].workerId == w && catalog[id] in pending[w]
  {
    var c :| c in pending[w] && c.id == id;
    assert BelongTo(catalog, pending[w], w);
  }

  lemma WorkersDisjoint(catalog: map<string, Case>, pending: map<string, seq<Case>>, workers: seq<string>, n: nat)
    requires PendingOk(catalog, pending) && StrictlyAscending(workers) && n < |workers|
    requires forall i :: 0 <= i < |workers| ==> workers[i] in pending
    ensures WaitingIds(pending, workers[..n]) !! Ids(pending[workers[n]])
  {
    forall id | id in Ids(pending[workers[n]]) ensures id !in WaitingIds(pending, workers[..n]) {
      WaitingAt(pending, workers[..n], id);
      WorkerOfId(catalog, pending, workers[n], id);
      forall i | 0 <= i < n ensures id !in Ids(pending[workers[..n][i]]) {
        assert StrLt(workers[i], workers[n]);
        if id in Ids(pending[workers[i]]) { WorkerOfId(catalog, pending, workers[i], id); }
      }
    }
  }

  /** What is waiting anywhere is exactly what is not terminal yet. */
  lemma WaitingIsUndecided(caseIds: seq<string>, catalog: map<string, Case>, store: Store, pending: map<string,
                           seq<Case>>, workers: seq<string>, id: string)
    requires CatalogOk(catalog, store) && PendingOk(catalog, pending) &&
             Sorted(caseIds, |caseIds|, catalog, store, pending)
    requires forall w :: w in workers <==> w in pending
    ensures id in WaitingIds(pending, workers) <==> id in catalog && id in caseIds && !Terminal(store[id])
  {
    WaitingAt(pending, workers, id);
    assert caseIds[..|caseIds|] == caseIds;
    if id in WaitingIds(pending, workers) {
      var i :| 0 <= i < |workers| && id in Ids(pending[workers[i]]);
      WorkerOfId(catalog, pending, workers[i], id);
      assert IsPending(pending, catalog[id]);
    }
    if id in catalog && id in caseIds && !Terminal(store[id]) {
      assert IsPending(pending, catalog[id]);
      var i :| 0 <= i < |workers| && workers[i] == catalog[id].workerId;
      assert id in Ids(pending[workers[i]]);
    }
  }

  lemma WorkerJoins(world: World, due: set<string>, catalog: map<string, Case>, pending: map<string, seq<Case>>,
                    workers: seq<string>, n: nat, s0: Store, s1: Store, s2: Store,
                    r1: seq<Report>, r2: seq<Report>, d1: seq<string>, d2: seq<string>)
    requires PendingOk(catalog, pending) && StrictlyAscending(workers) && n < |workers|
    requires forall i :: 0 <= i < |workers| ==> workers[i] in pending
    requires Accounts(world, due, WaitingIds(pending, workers[..n]), s0, s1, r1, d1) &&
             Accounts(world, due, Ids(pending[workers[n]]), s1, s2, r2, d2)
    ensures Accounts(world, due, WaitingIds(pending, workers[..n + 1]), s0, s2, r1 + r2, d1 + d2)
  {
    WorkersDisjoint(catalog, pending, workers, n);
    assert workers[..n + 1][..n] == workers[..n];
    AccountsJoin(world, due, WaitingIds(pending, workers[..n]), Ids(pending[workers[n]]), s0, s1, s2, r1, r2, d1, d2);
  }

  lemma PendingAt(catalog: map<string, Case>, pending: map<string, seq<Case>>, w: string)
    requires PendingOk(catalog, pending) && w in pending
    ensures CasesOk(pending[w]) && DistinctIds(pending[w])
  {
  }

  lemma PendingDue(world: World, due: set<string>, digest: Digest, experiment: string, catalog: map<string, Case>,
                   pending: map<string, seq<Case>>, w: string)
    requires PendingOk(catalog, pending) && w in pending
    requires DueOf(world, due, digest, experiment, catalog)
    ensures DueAmong(world, due, digest, experiment, w, pending[w])
  {
    assert BelongTo(catalog, pending[w], w);
  }

  ghost function OwnersOf(pending: map<string, seq<Case>>, workers: seq<string>): (r: seq<set<string>>)
    requires forall i :: 0 <= i < |workers| ==> workers[i] in pending
    ensures |r| == |workers| && forall i :: 0 <= i < |workers| ==> r[i] == Ids(pending[workers[i]])
  {
    seq(|workers|, i requires 0 <= i < |workers| => Ids(pending[workers[i]]))
  }

  /** What each of the first workers wrote, one after the other. */
  ghost predicate WroteInTurn(pending: map<string, seq<Case>>, workers: seq<string>, n: nat, before: Store,
                              after: Store, parts: seq<seq<Write>>)
    requires n <= |workers| && forall i :: 0 <= i < |workers| ==> workers[i] in pending
  {
    && |parts| == n && after == Apply(before, Interleaving.Joined(parts))
    && forall k :: 0 <= k < n ==> Within(parts[k], Ids(pending[workers[k]]))
  }

  lemma TurnTaken(pending: map<string, seq<Case>>, workers: seq<string>, n: nat, s0: Store, s1: Store, s2: Store,
                  parts: seq<seq<Write>>, w: seq<Write>)
    requires n < |workers| && forall i :: 0 <= i < |workers| ==> workers[i] in pending
    requires WroteInTurn(pending, workers, n, s0, s1, parts) && Wrote(Ids(pending[workers[n]]), s1, s2, w)
    ensures WroteInTurn(pending, workers, n + 1, s0, s2, parts + [w])
  {
    assert s2 == Apply(s0, Interleaving.Joined(parts + [w])) by {
      JoinedSnoc(parts, w);
      ApplyJoins(s0, Interleaving.Joined(parts), w);
    }
    forall k | 0 <= k < n + 1 ensures Within((parts + [w])[k], Ids(pending[workers[k]])) {
      assert (parts + [w])[k] == if k < n then parts[k] else w;
    }
  }

  lemma {:induction false} JoinedSnoc(parts: seq<seq<Write>>, w: seq<Write>)
    ensures Interleaving.Joined(parts + [w]) == Interleaving.Joined(parts) + w
    decreases |parts|
  {
    if parts == [] {
      assert parts + [w] == [w] && [w][1..] == [];
    } else {
      assert (parts + [w])[1..] == parts[1..] + [w];
      JoinedSnoc(parts[1..], w);
    }
  }

  ghost predicate Disjointly(pending: map<string, seq<Case>>, workers: seq<string>)
    requires forall i :: 0 <= i < |workers| ==> workers[i] in pending
  {
    forall k, l :: 0 <= k < l < |workers| ==> Ids(pending[workers[k]]) !! Ids(pending[workers[l]])
  }

  lemma WorkersApart(catalog: map<string, Case>, pending: map<string, seq<Case>>, workers: seq<string>)
    requires PendingOk(catalog, pending) && StrictlyAscending(workers) && forall i :: 0 <= i < |workers| ==>
               workers[i] in pending
    ensures Disjointly(pending, workers)
  {
    forall k, l, id | 0 <= k < l < |workers| && id in Ids(pending[workers[k]]) ensures id !in Ids(pending[workers[l]]) {
      assert StrLt(workers[k], workers[l]);
      WorkerOfId(catalog, pending, workers[k], id);
      if id in Ids(pending[workers[l]]) { WorkerOfId(catalog, pending, workers[l], id); }
    }
  }

  /** However the workers' writes interleave, the store ends as if they had run one after the other. */
  lemma AnyOrderLeaves(pending: map<string, seq<Case>>, workers: seq<string>, before: Store, after: Store,
                       parts: seq<seq<Write>>, whole: seq<Write>)
    requires (forall i :: 0 <= i < |workers| ==> workers[i] in pending) && Disjointly(pending, workers)
    requires WroteInTurn(pending, workers, |workers|, before, after, parts) && Interleaves(parts, whole)
    ensures Apply(before, whole) == after
  {
    SequentialInterleaves(parts, 0);
    assert parts[0..] == parts;
    InterleavingsAgree(before, parts, OwnersOf(pending, workers), whole, Interleaving.Joined(parts));
  }

  method RunWorkers(world: World, ghost due: set<string>, digest: Digest, experiment: string,
                    ghost catalog: map<string, Case>, pending: map<string, seq<Case>>, workers: seq<string>,
                    store: Store)
    returns (after: Store, reports: seq<Report>, dispatched: seq<string>, ghost parts: seq<seq<Write>>)
    requires PendingOk(catalog, pending) && StrictlyAscending(workers) && forall i :: 0 <= i < |workers| ==>
               workers[i] in pending
    requires DueOf(world, due, digest, experiment, catalog)
    ensures Accounts(world, due, WaitingIds(pending, workers), store, after, reports, dispatched)
    ensures WroteInTurn(pending, workers, |workers|, store, after, parts)
  {
    after, reports, dispatched, parts := store, [], [], [];
    AccountsNothing(world, due, store);
    for n := 0 to |workers|
      invariant Accounts(world, due, WaitingIds(pending, workers[..n]), store, after, reports, dispatched)
      invariant WroteInTurn(pending, workers, n, store, after, parts)
    {
      PendingAt(catalog, pending, workers[n]);
      PendingDue(world, due, digest, experiment, catalog, pending, workers[n]);
      var next, more, ran, w := RunWorker(world, due, digest, experiment, workers[n], pending[workers[n]], after);
      WorkerJoins(world, due, catalog, pending, workers, n, store, after, next, reports, more, dispatched, ran);
      TurnTaken(pending, workers, n, store, after, next, parts, w);
      after, reports, dispatched, parts := next, reports + more, dispatched + ran, parts + [w];
    }
    assert workers[..|workers|] == workers;
  }

  function StateOf(reports: seq<Report>, id: string): CaseState
  {
    if reports == [] then PENDING
    else if reports[|reports| - 1].caseId == id then reports[|reports| - 1].state
    else StateOf(reports[..|reports| - 1], id)
  }

  lemma {:induction false} StateOfReported(reports: seq<Report>, after: Store, id: string)
    requires id in ReportIds(reports)
    requires forall i :: 0 <= i < |reports| ==>
               reports[i].caseId in after && after[reports[i].caseId] == reports[i].state
    ensures id in after && StateOf(reports, id) == after[id]
    decreases |reports|
  {
    var last := |reports| - 1;
    if reports[last].caseId != id {
      var i :| 0 <= i < |reports| && reports[i].caseId == id;
      assert ReportIds(reports[..last])[i] == id;
      StateOfReported(reports[..last], after, id);
    }
  }

  datatype Outcome = Finished(state: ExperimentState, reports: seq<Report>) | UnknownCase

  /** What a finished run promises about the cases `ids`: one terminal report each, in order, saying what the store
      says; dispatched exactly what was not terminal and is due, once each; COMPLETED exactly what was so before or was
      dispatched and persisted; and what was terminal kept. */
  ghost predicate Fulfilled(world: World, digest: Digest, experiment: string, catalog: map<string, Case>,
                            ids: seq<string>, before: Store, after: Store, r: Outcome, dispatched: seq<string>)
    requires CatalogOk(catalog, before) && forall i :: 0 <= i < |ids| ==> ids[i] in catalog
  {
    && r.Finished? && ReportIds(r.reports) == ids
    && (forall i :: 0 <= i < |ids| ==>
          Terminal(r.reports[i].state) && ids[i] in after && after[ids[i]] == r.reports[i].state)
    && NoRepeat(dispatched) && (forall id :: id in dispatched ==> id in ids)
    && (forall id :: id in ids ==>
          (id in dispatched <==> !Terminal(before[id]) && Due(world, digest, experiment, catalog[id])))
    && (forall id :: id in ids ==>
          (after[id] == COMPLETED <==> before[id] == COMPLETED || (id in dispatched && world.exit(id) == Persisted)))
    && (forall id :: id in ids && Terminal(before[id]) ==> after[id] == before[id])
    && (forall id :: id in ids && !Terminal(before[id]) && after[id] != COMPLETED ==> after[id] == FAILED)
  }

  /** How the workers leave the cases: what was terminal is untouched, the rest was reported as it ended. */
  ghost predicate Ran(world: World, due: set<string>, caseIds: seq<string>, before: Store, after: Store,
                      ran: seq<Report>, dispatched: seq<string>)
  {
    && (forall i :: 0 <= i < |caseIds| ==> caseIds[i] in before && caseIds[i] in after)
    && (forall i :: 0 <= i < |caseIds| ==> (!Terminal(before[caseIds[i]]) <==> caseIds[i] in ReportIds(ran)))
    && (forall i :: 0 <= i < |caseIds| ==>
          after[caseIds[i]] ==
          if Terminal(before[caseIds[i]]) then before[caseIds[i]] else EndOf(world, due, caseIds[i]))
    && (forall i :: 0 <= i < |ran| ==> ran[i].caseId in after && after[ran[i].caseId] == ran[i].state)
    && NoRepeat(dispatched)
    && forall id :: id in dispatched <==> id in caseIds && id in before && !Terminal(before[id]) && id in due
  }

  lemma WorkersRan(world: World, due: set<string>, caseIds: seq<string>, catalog: map<string, Case>, store: Store,
                   pending: map<string, seq<Case>>, workers: seq<string>, after: Store, ran: seq<Report>,
                   dispatched: seq<string>)
    requires CatalogOk(catalog, store) && PendingOk(catalog, pending) &&
             Sorted(caseIds, |caseIds|, catalog, store, pending)
    requires (forall w :: w in workers <==> w in pending) && forall i :: 0 <= i < |caseIds| ==> caseIds[i] in catalog
    requires Accounts(world, due, WaitingIds(pending, workers), store, after, ran, dispatched)
    ensures Ran(world, due, caseIds, store, after, ran, dispatched)
  {
    var waiting := WaitingIds(pending, workers);
    forall id ensures id in waiting <==> id in catalog && id in caseIds && !Terminal(store[id]) {
      WaitingIsUndecided(caseIds, catalog, store, pending, workers, id);
    }
    RanFromAccounts(world, due, caseIds, catalog, store, waiting, after, ran, dispatched);
  }

  lemma RanFromAccounts(world: World, due: set<string>, caseIds: seq<string>, catalog: map<string, Case>,
                        store: Store, waiting: set<string>, after: Store, ran: seq<Report>, dispatched: seq<string>)
    requires CatalogOk(catalog, store) && forall i :: 0 <= i < |caseIds| ==> caseIds[i] in catalog
    requires forall id :: id in waiting <==> id in catalog && id in caseIds && !Terminal(store[id])
    requires Accounts(world, due, waiting, store, after, ran, dispatched)
    ensures Ran(world, due, caseIds, store, after, ran, dispatched)
  {
    forall i | 0 <= i < |caseIds|
      ensures caseIds[i] in store && caseIds[i] in after
      ensures !Terminal(store[caseIds[i]]) ==> after[caseIds[i]] == EndOf(world, due, caseIds[i])
    {
      if caseIds[i] in waiting {
        var j :| 0 <= j < |ran| && ReportIds(ran)[j] == caseIds[i];
        assert ran[j].caseId == caseIds[i];
      }
    }
  }

  /** A terminal experiment is replayed from the store, whatever states it finds there. */
  ghost predicate Replayed(caseIds: seq<string>, store: Store, state: ExperimentState, r: Outcome)
  {
    && r.Finished? && r.state == state && ReportIds(r.reports) == caseIds
    && forall i :: 0 <= i < |caseIds| ==> caseIds[i] in store && r.reports[i].state == store[caseIds[i]]
  }

  /** `run_experiment`.  A terminal experiment (`finished`) is replayed and nothing is dispatched.  Otherwise every case
      is reported once and ends as `Fulfilled` says; a verdict always exists; and in whatever order the workers' writes
      (`parts`) reach the store, it ends as reported. */
  method RunExperiment(world: World, digest: Digest, experiment: string, finished: Option<ExperimentState>,
                       caseIds: seq<string>, catalog: map<string, Case>, store: Store)
    returns (r: Outcome, after: Store, dispatched: seq<string>, ghost parts: seq<seq<Write>>)
    requires CatalogOk(catalog, store) && NoRepeat(caseIds)
    ensures r.UnknownCase? <==> exists i :: 0 <= i < |caseIds| && caseIds[i] !in catalog
    ensures r.UnknownCase? || finished.Some? ==> after == store && dispatched == [] && parts == []
    ensures r.Finished? && finished.Some? ==> Replayed(caseIds, store, finished.value, r)
    ensures r.Finished? && finished.None? ==>
              Fulfilled(world, digest, experiment, catalog, caseIds, store, after, r, dispatched)
    ensures r.Finished? && finished.None? ==> Verdict(StatesOf(r.reports)) == Some(r.state)
    ensures r.Finished? ==> forall whole :: Interleaves(parts, whole) ==> Apply(store, whole) == after
  {
    after, dispatched, parts := store, [], [];
    for i := 0 to |caseIds|
      invariant forall j :: 0 <= j < i ==> caseIds[j] in catalog
    {
      if caseIds[i] !in catalog {
        return UnknownCase, store, [], [];
      }
    }
    if finished.Some? {
      r := ReplayFromStore(caseIds, store, finished.value);
      forall whole | Interleaves(parts, whole) ensures Apply(store, whole) == after { NothingInterleaves(whole); }
      return;
    }
    r, after, dispatched, parts := RunPending(world, digest, experiment, caseIds, catalog, store);
  }

  /** The experiment once it is found unfinished and its cases are there. */
  method RunPending(world: World, digest: Digest, experiment: string, caseIds: seq<string>,
                    catalog: map<string, Case>, store: Store)
    returns (r: Outcome, after: Store, dispatched: seq<string>, ghost parts: seq<seq<Write>>)
    requires CatalogOk(catalog, store) && NoRepeat(caseIds) && forall i :: 0 <= i < |caseIds| ==> caseIds[i] in catalog
    ensures Fulfilled(world, digest, experiment, catalog, caseIds, store, after, r, dispatched)
    ensures Verdict(StatesOf(r.reports)) == Some(r.state)
    ensures forall whole :: Interleaves(parts, whole) ==> Apply(store, whole) == after
  {
    ghost var due := set id | id in catalog && Due(world, digest, experiment, catalog[id]);
    var ran: seq<Report>;
    after, ran, dispatched, parts := RunAll(world, due, digest, experiment, caseIds, catalog, store);
    r := Conclude(world, due, caseIds, store, after, ran, dispatched);
    RanFulfils(world, due, digest, experiment, catalog, caseIds, store, after, ran, r, dispatched);
  }

  method RunAll(world: World, ghost due: set<string>, digest: Digest, experiment: string, caseIds: seq<string>,
                catalog: map<string, Case>, store: Store)
    returns (after: Store, ran: seq<Report>, dispatched: seq<string>, ghost parts: seq<seq<Write>>)
    requires CatalogOk(catalog, store) && NoRepeat(caseIds) && forall i :: 0 <= i < |caseIds| ==> caseIds[i] in catalog
    requires DueOf(world, due, digest, experiment, catalog)
    ensures Ran(world, due, caseIds, store, after, ran, dispatched)
    ensures forall whole :: Interleaves(parts, whole) ==> Apply(store, whole) == after
  {
    var pending := CollectPending(caseIds, catalog, store);
    var workers := SortedIds(pending.Keys);
    after, ran, dispatched, parts := RunWorkers(world, due, digest, experiment, catalog, pending, workers, store);
    WorkersRan(world, due, caseIds, catalog, store, pending, workers, after, ran, dispatched);
    WorkersApart(catalog, pending, workers);
    forall whole | Interleaves(parts, whole) ensures Apply(store, whole) == after {
      AnyOrderLeaves(pending, workers, store, after, parts, whole);
    }
  }

  lemma RanFulfils(world: World, due: set<string>, digest: Digest, experiment: string, catalog: map<string, Case>,
                   ids: seq<string>, before: Store, after: Store, ran: seq<Report>, r: Outcome,
                   dispatched: seq<string>)
    requires CatalogOk(catalog, before) && forall i :: 0 <= i < |ids| ==> ids[i] in catalog
    requires DueOf(world, due, digest, experiment, catalog) && Ran(world, due, ids, before, after, ran, dispatched)
    requires r.Finished? && ReportIds(r.reports) == ids
    requires forall i :: 0 <= i < |ids| ==>
               Terminal(r.reports[i].state) && ids[i] in after && after[ids[i]] == r.reports[i].state
    ensures Fulfilled(world, digest, experiment, catalog, ids, before, after, r, dispatched)
  {
  }

  lemma NothingInterleaves(whole: seq<Write>)
    requires Interleaves([], whole)
    ensures whole == []
  {
  }

  /** `_report_from_store`. */
  method ReplayFromStore(caseIds: seq<string>, store: Store, state: ExperimentState) returns (r: Outcome)
    requires forall i :: 0 <= i < |caseIds| ==> caseIds[i] in store
    ensures Replayed(caseIds, store, state, r)
  {
    var reports: seq<Report> := [];
    for i := 0 to |caseIds|
      invariant |reports| == i && forall j :: 0 <= j < i ==> reports[j] == Report(caseIds[j], store[caseIds[j]])
    {
      reports := reports + [Report(caseIds[i], store[caseIds[i]])];
    }
    r := Finished(state, reports);
  }

  function StatesOf(reports: seq<Report>): (r: seq<CaseState>)
    ensures |r| == |reports| && forall i :: 0 <= i < |r| ==> r[i] == reports[i].state
  {
    seq(|reports|, i requires 0 <= i < |reports| => reports[i].state)
  }

  method Conclude(ghost world: World, ghost due: set<string>, caseIds: seq<string>, store: Store, ghost after: Store,
                  ran: seq<Report>, ghost dispatched: seq<string>) returns (r: Outcome)
    requires Ran(world, due, caseIds, store, after, ran, dispatched)
    ensures r.Finished? && ReportIds(r.reports) == caseIds && Verdict(StatesOf(r.reports)) == Some(r.state)
    ensures forall i :: 0 <= i < |caseIds| ==>
              Terminal(r.reports[i].state) && caseIds[i] in after && after[caseIds[i]] == r.reports[i].state
  {
    var reports := BuildReports(world, due, caseIds, store, after, ran, dispatched);
    VerdictMeaning(StatesOf(reports));
    r := Finished(Verdict(StatesOf(reports)).value, reports);
  }

  /** The reports in case order: stored states for what was terminal, this run's for the rest. */
  method BuildReports(ghost world: World, ghost due: set<string>, caseIds: seq<string>, store: Store,
                      ghost after: Store, ran: seq<Report>, ghost dispatched: seq<string>)
    returns (reports: seq<Report>)
    requires Ran(world, due, caseIds, store, after, ran, dispatched)
    ensures ReportIds(reports) == caseIds
    ensures forall i :: 0 <= i < |reports| ==>
              Terminal(reports[i].state) && caseIds[i] in after && after[caseIds[i]] == reports[i].state
  {
    reports := [];
    for i := 0 to |caseIds|
      invariant |reports| == i
      invariant forall j :: 0 <= j < i ==>
                  reports[j].caseId == caseIds[j] && Terminal(reports[j].state) && after[caseIds[j]] == reports[j].state
    {
      var id := caseIds[i];
      if Terminal(store[id]) {
        reports := reports + [Report(id, store[id])];
      } else {
        StateOfReported(ran, after, id);
        ghost var j :| 0 <= j < |ran| && ran[j].caseId == id;
        reports := reports + [Report(id, StateOf(ran, id))];
      }
    }
  }

  /** The verdict fails only on a non-terminal state, and names a uniform outcome exactly. */
  lemma VerdictMeaning(states: seq<CaseState>)
    ensures Verdict(states).Some? <==> forall i :: 0 <= i < |states| ==> Terminal(states[i])
    ensures Verdict(states) == Some(EXP_COMPLETED) <==> forall i :: 0 <= i < |states| ==> states[i] == COMPLETED
    ensures Verdict(states) == Some(EXP_CANCELLED) <==>
            states != [] && forall i :: 0 <= i < |states| ==> states[i] == CANCELLED
    ensures Verdict(states) == Some(EXP_FAILED) <==>
            states != [] && forall i :: 0 <= i < |states| ==> states[i] == FAILED
    ensures Verdict(states) == Some(EXP_PARTIAL) <==>
            && (forall i :: 0 <= i < |states| ==> Terminal(states[i]))
            && exists i, j :: 0 <= i < |states| && 0 <= j < |states| && states[i] != states[j]
  {
    if states != [] { assert Terminal(states[0]) <==> states[0] in {COMPLETED, CANCELLED, FAILED}; }
    if Verdict(states) == Some(EXP_PARTIAL) {
      var i :| 0 <= i < |states| && states[i] != COMPLETED;
      var j :| 0 <= j < |states| && states[j] != if states[i] == CANCELLED then CANCELLED else FAILED;
      assert states[i] != states[j];
    }
  }
}
