/**
 Grouping an experiment's cases into Worker sessions with canonical ids
 (src/edgeshard/control/master/profiling_controller.py, src/edgeshard/profiling/domain/session.py,
 experiment.py).  The canonical SHA-256 is a function parameter, assumed injective.
 */
module SessionPlanning {
  import opened Options
  import opened Orders
  import opened Ledger

  datatype Granularity = TRANSFORMER_LAYER | MODULE | OPERATOR

  datatype ModelReference = ModelReference(modelId: string, revision: Option<string>)

  datatype ProbeKind = RTT | BANDWIDTH

  datatype Spec =
    | NetworkSpec(probe: ProbeKind, source: string, destination: string)
    | ModelSpec(granularity: Granularity, deviceIds: seq<string>, dtype: string, backend: string,
                model: Option<ModelReference>, layerIndex: Option<nat>)

  datatype Case = Case(id: string, workerId: string, spec: Spec)

  /** What `ModelCaseSpec` enforces of itself: one device, and a model unless it is an operator case. */
  predicate SpecOk(s: Spec)
  {
    s.ModelSpec? ==> |s.deviceIds| == 1 && (s.granularity != OPERATOR ==> s.model.Some?)
  }

  predicate CasesOk(cases: seq<Case>)
  {
    forall i :: 0 <= i < |cases| ==> SpecOk(cases[i].spec)
  }

  datatype GroupKey =
    | NetworkKey
    | OperatorKey(backend: string, device: string)
    | ModelKey(backend: string, model: Option<ModelReference>, dtype: string, device: string, layer: Option<nat>)

  function TargetLayer(s: Spec): Option<nat>
    requires s.ModelSpec?
  {
    if s.granularity == TRANSFORMER_LAYER then s.layerIndex else Some(0)
  }

  /** `_group_key`. */
  function KeyOf(c: Case): GroupKey
    requires SpecOk(c.spec)
  {
    var s := c.spec;
    if s.NetworkSpec? then NetworkKey
    else if s.granularity == OPERATOR then OperatorKey(s.backend, s.deviceIds[0])
    else ModelKey(s.backend, s.model, s.dtype, s.deviceIds[0], TargetLayer(s))
  }

  datatype Request = Request(
    kind: SessionKind, deviceIds: seq<string>, backend: string, model: Option<ModelReference>,
    dtype: Option<string>, targetLayer: Option<nat>)

  const NETWORK_REQUEST := Request(NETWORK_SESSION, [], "torch", None, None, None)

  function ModelCases(cases: seq<Case>): (r: seq<Case>)
    ensures forall i :: 0 <= i < |r| ==> r[i] in cases && r[i].spec.ModelSpec?
    ensures r == [] <==> forall i :: 0 <= i < |cases| ==> !cases[i].spec.ModelSpec?
  {
    if cases == [] then []
    else (if cases[0].spec.ModelSpec? then [cases[0]] else []) + ModelCases(cases[1..])
  }

  function Devices(cases: seq<Case>): set<string>
  {
    set i, j | 0 <= i < |cases| && cases[i].spec.ModelSpec? &&
    0 <= j < |cases[i].spec.deviceIds| :: cases[i].spec.deviceIds[j]
  }

  /** `_session_request`; `None` is its ValueError. */
  function RequestOf(cases: seq<Case>): Option<Request>
  {
    var specs := ModelCases(cases);
    if specs == [] then Some(NETWORK_REQUEST)
    else
      var devices, first := SortedIds(Devices(specs)), specs[0].spec;
      if |devices| != 1 then None
      else if first.granularity == OPERATOR then
        Some(Request(OPERATOR_SESSION, devices, first.backend, None, None, None))
      else if first.model.None? then None
      else Some(Request(MODEL_SESSION, devices, first.backend, first.model, Some(first.dtype), TargetLayer(first)))
  }

  /** The request a group key stands for. */
  function RequestFor(k: GroupKey): Request
  {
    match k
    case NetworkKey => NETWORK_REQUEST
    case OperatorKey(backend, device) => Request(OPERATOR_SESSION, [device], backend, None, None, None)
    case ModelKey(backend, model, dtype, device, layer) =>
      Request(MODEL_SESSION, [device], backend, model, Some(dtype), layer)
  }

  lemma RequestForInjective(k: GroupKey, k': GroupKey)
    requires RequestFor(k) == RequestFor(k')
    ensures k == k'
  {
    if k.OperatorKey? { assert [k.device][0] == [k'.device][0]; }
    if k.ModelKey? { assert [k.device][0] == [k'.device][0]; }
  }

  // ---------------------------------------------------------------------------
  // Grouping
  // ---------------------------------------------------------------------------

  /** Group keys in the order of their first case. */
  function Keys(cases: seq<Case>): (r: seq<GroupKey>)
    requires CasesOk(cases)
    ensures forall i, j :: 0 <= i < j < |r| ==> r[i] != r[j]
  {
    if cases == [] then []
    else
      var init, k := Keys(cases[..|cases| - 1]), KeyOf(cases[|cases| - 1]);
      if k in init then init else init + [k]
  }

  lemma {:induction false} KeysComplete(cases: seq<Case>, i: nat)
    requires CasesOk(cases) && i < |cases|
    ensures KeyOf(cases[i]) in Keys(cases)
    decreases |cases|
  {
    if i < |cases| - 1 { KeysComplete(cases[..|cases| - 1], i); }
  }

  /** The cases of one group, in order. */
  function Group(cases: seq<Case>, k: GroupKey): (r: seq<Case>)
    requires CasesOk(cases)
  {
    if cases == [] then []
    else
      var init, last := Group(cases[..|cases| - 1], k), cases[|cases| - 1];
      if KeyOf(last) == k then init + [last] else init
  }

  lemma {:induction false} GroupMembers(cases: seq<Case>, k: GroupKey)
    requires CasesOk(cases)
    ensures forall c :: c in Group(cases, k) <==> c in cases && SpecOk(c.spec) && KeyOf(c) == k
    ensures k in Keys(cases) <==> Group(cases, k) != []
    decreases |cases|
  {
    if cases != [] {
      var init, last := cases[..|cases| - 1], cases[|cases| - 1];
      GroupMembers(init, k);
      assert cases == init + [last];
    }
  }

  /** The request of a group is the one its key stands for: the other cases have no say, and neither ValueError
      occurs. */
  lemma GroupRequest(cases: seq<Case>, k: GroupKey)
    requires cases != [] && CasesOk(cases) && forall i :: 0 <= i < |cases| ==> KeyOf(cases[i]) == k
    ensures RequestOf(cases) == Some(RequestFor(k))
  {
    var specs := ModelCases(cases);
    assert SpecOk(cases[0].spec) && KeyOf(cases[0]) == k;
    if k.NetworkKey? {
      assert specs == [];
    } else {
      assert cases[0].spec.ModelSpec?;
      forall i | 0 <= i < |specs| ensures SpecOk(specs[i].spec) && KeyOf(specs[i]) == k {
        var j :| 0 <= j < |cases| && cases[j] == specs[i];
      }
      DevicesOfGroup(specs, k.device);
    }
  }

  lemma DevicesOfGroup(specs: seq<Case>, device: string)
    requires specs != [] && forall i :: 0 <= i < |specs| ==>
               specs[i].spec.ModelSpec? && specs[i].spec.deviceIds == [device]
    ensures SortedIds(Devices(specs)) == [device]
  {
    assert specs[0].spec.deviceIds[0] == device;
    assert device in Devices(specs);
    assert Devices(specs) == {device};
    var ids := SortedIds({device});
    assert |ids| == 1 && ids[0] in {device};
  }

  // ---------------------------------------------------------------------------
  // Plans
  // ---------------------------------------------------------------------------

  datatype Plan = Plan(sessionId: string, request: Request, cases: seq<Case>)

  /** `profiling_session_id`, as a digest of experiment, worker and request. */
  type Digest = (string, string, Request) -> string

  ghost predicate Injective(digest: Digest)
  {
    forall e, w, r, e', w', r' :: digest(e, w, r) == digest(e', w', r') ==> e == e' && w == w' && r == r'
  }

  function PlanFor(digest: Digest, experiment: string, worker: string, cases: seq<Case>, k: GroupKey): Plan
    requires CasesOk(cases)
  {
    Plan(digest(experiment, worker, RequestFor(k)), RequestFor(k), Group(cases, k))
  }

  /** The session a case belongs to: a function of experiment, worker and the case's own key. */
  function SessionOf(digest: Digest, experiment: string, worker: string, c: Case): string
    requires SpecOk(c.spec)
  {
    digest(experiment, worker, RequestFor(KeyOf(c)))
  }

  ghost predicate Grouped(cases: seq<Case>, order: seq<GroupKey>, groups: map<GroupKey, seq<Case>>)
    requires CasesOk(cases)
  {
    && order == Keys(cases)
    && (forall k :: k in groups <==> k in order)
    && forall k :: k in groups ==> groups[k] == Group(cases, k)
  }

  lemma GroupingStep(cases: seq<Case>, i: nat, order: seq<GroupKey>, groups: map<GroupKey, seq<Case>>)
    requires CasesOk(cases) && i < |cases| && Grouped(cases[..i], order, groups)
    ensures var k := KeyOf(cases[i]);
            if k in groups then Grouped(cases[..i + 1], order, groups[k := groups[k] + [cases[i]]])
            else Grouped(cases[..i + 1], order + [k], groups[k := [cases[i]]])
  {
    assert cases[..i + 1][..i] == cases[..i];
    GroupMembers(cases[..i], KeyOf(cases[i]));
  }

  /** The dict that `_plan_sessions` fills, with its insertion order. */
  method GroupCases(cases: seq<Case>) returns (order: seq<GroupKey>, groups: map<GroupKey, seq<Case>>)
    requires CasesOk(cases)
    ensures Grouped(cases, order, groups)
  {
    order, groups := [], map[];
    for i := 0 to |cases|
      invariant Grouped(cases[..i], order, groups)
    {
      GroupingStep(cases, i, order, groups);
      var k := KeyOf(cases[i]);
      if k in groups {
        groups := groups[k := groups[k] + [cases[i]]];
      } else {
        order := order + [k];
        groups := groups[k := [cases[i]]];
      }
    }
    assert cases[..|cases|] == cases;
  }

  lemma GroupRequestOf(cases: seq<Case>, k: GroupKey)
    requires CasesOk(cases) && k in Keys(cases)
    ensures RequestOf(Group(cases, k)) == Some(RequestFor(k))
  {
    GroupMembers(cases, k);
    var group := Group(cases, k);
    forall i | 0 <= i < |group| ensures SpecOk(group[i].spec) && KeyOf(group[i]) == k {
      assert group[i] in group;
    }
    GroupRequest(group, k);
  }

  /** `_plan_sessions`: one plan per group, in the order of first cases. */
  method PlanSessions(digest: Digest, experiment: string, worker: string, cases: seq<Case>) returns (plans: seq<Plan>)
    requires CasesOk(cases)
    ensures |plans| == |Keys(cases)|
    ensures forall j :: 0 <= j < |plans| ==> plans[j] == PlanFor(digest, experiment, worker, cases, Keys(cases)[j])
  {
    var order, groups := GroupCases(cases);
    plans := [];
    for j := 0 to |order|
      invariant |plans| == j
      invariant forall l :: 0 <= l < j ==> plans[l] == PlanFor(digest, experiment, worker, cases, order[l])
    {
      var group := groups[order[j]];
      GroupRequestOf(cases, order[j]);
      var request := RequestOf(group).value;
      plans := plans + [Plan(digest(experiment, worker, request), request, group)];
    }
  }

  // ---------------------------------------------------------------------------
  // What planning promises
  // ---------------------------------------------------------------------------

  /** Planning over any list that contains the case finds the same session for it; distinct groups get distinct
      ids.  So a resumed subset, or all cases as cancellation plans them, agree with the original dispatch. */
  lemma PlansAgree(digest: Digest, experiment: string, worker: string, cases: seq<Case>, j: nat, c: Case)
    requires Injective(digest) && CasesOk(cases) && j < |Keys(cases)| && SpecOk(c.spec)
    ensures var plan := PlanFor(digest, experiment, worker, cases, Keys(cases)[j]);
            c in cases ==> (c in plan.cases <==> plan.sessionId == SessionOf(digest, experiment, worker, c))
  {
    var k := Keys(cases)[j];
    var plan := PlanFor(digest, experiment, worker, cases, k);
    GroupMembers(cases, k);
    if plan.sessionId == SessionOf(digest, experiment, worker, c) {
      RequestForInjective(k, KeyOf(c));
    }
  }

  lemma DistinctSessions(digest: Digest, experiment: string, worker: string, cases: seq<Case>, j: nat, j': nat)
    requires Injective(digest) && CasesOk(cases) && j < j' < |Keys(cases)|
    ensures PlanFor(digest, experiment, worker, cases, Keys(cases)[j]).sessionId !=
            PlanFor(digest, experiment, worker, cases, Keys(cases)[j']).sessionId
  {
    if RequestFor(Keys(cases)[j]) == RequestFor(Keys(cases)[j']) {
      RequestForInjective(Keys(cases)[j], Keys(cases)[j']);
    }
  }

  /** The layer a model session is prepared for. */
  predicate SameLayer(s: Spec, s': Spec)
    requires s.ModelSpec? && s'.ModelSpec?
  {
    if s.granularity == TRANSFORMER_LAYER && s'.granularity == TRANSFORMER_LAYER then s.layerIndex == s'.layerIndex
    else if s.granularity == TRANSFORMER_LAYER then s.layerIndex == Some(0)
    else s'.granularity == TRANSFORMER_LAYER ==> s'.layerIndex == Some(0)
  }

  /** Two cases share a session if and only if they are the same worker's and are both network cases, or operator cases
      of one backend and device, or model cases of one backend, model, dtype, device and target layer. */
  lemma SameSessionIff(digest: Digest, experiment: string, worker: string, worker': string, c: Case, c': Case)
    requires Injective(digest) && SpecOk(c.spec) && SpecOk(c'.spec)
    ensures var s, s' := c.spec, c'.spec;
            SessionOf(digest, experiment, worker, c) == SessionOf(digest, experiment, worker', c') <==>
            && worker == worker' && (s.NetworkSpec? <==> s'.NetworkSpec?)
            && (s.ModelSpec? && s'.ModelSpec? ==>
                  && s.backend == s'.backend && s.deviceIds == s'.deviceIds
                  && (s.granularity == OPERATOR <==> s'.granularity == OPERATOR)
                  && (s.granularity != OPERATOR && s'.granularity != OPERATOR ==>
                        s.model == s'.model && s.dtype == s'.dtype && SameLayer(s, s')))
  {
    if RequestFor(KeyOf(c)) == RequestFor(KeyOf(c')) { RequestForInjective(KeyOf(c), KeyOf(c')); }
    if c.spec.ModelSpec? && c'.spec.ModelSpec? {
      assert c.spec.deviceIds == [c.spec.deviceIds[0]] && c'.spec.deviceIds == [c'.spec.deviceIds[0]];
    }
  }

  /** All groups one after the other. */
  function Joined(cases: seq<Case>, keys: seq<GroupKey>): seq<Case>
    requires CasesOk(cases)
  {
    if keys == [] then [] else Group(cases, keys[0]) + Joined(cases, keys[1..])
  }

  predicate Distinct(keys: seq<GroupKey>)
  {
    forall i, j :: 0 <= i < j < |keys| ==> keys[i] != keys[j]
  }

  predicate AllKeyed(cases: seq<Case>, keys: seq<GroupKey>)
    requires CasesOk(cases)
  {
    forall i :: 0 <= i < |cases| ==> KeyOf(cases[i]) in keys
  }

  lemma KeyedSnoc(cases: seq<Case>, keys: seq<GroupKey>)
    requires CasesOk(cases) && cases != [] && AllKeyed(cases, keys)
    ensures CasesOk(cases[..|cases| - 1]) && AllKeyed(cases[..|cases| - 1], keys)
    ensures SpecOk(cases[|cases| - 1].spec) && KeyOf(cases[|cases| - 1]) in keys
    ensures multiset(cases) == multiset(cases[..|cases| - 1]) + multiset{cases[|cases| - 1]}
  {
    assert cases == cases[..|cases| - 1] + [cases[|cases| - 1]];
  }

  /** Grouping is a partition: every case is planned exactly once. */
  lemma {:induction false} GroupsPartition(cases: seq<Case>, keys: seq<GroupKey>)
    requires CasesOk(cases) && AllKeyed(cases, keys) && Distinct(keys)
    ensures multiset(Joined(cases, keys)) == multiset(cases)
    decreases |cases|
  {
    if cases == [] {
      EmptyGroups(cases, keys);
    } else {
      KeyedSnoc(cases, keys);
      GroupsPartition(cases[..|cases| - 1], keys);
      JoinedSnoc(cases, keys);
    }
  }

  lemma {:induction false} EmptyGroups(cases: seq<Case>, keys: seq<GroupKey>)
    requires cases == []
    ensures Joined(cases, keys) == []
    decreases |keys|
  {
    if keys != [] { EmptyGroups(cases, keys[1..]); }
  }

  lemma {:induction false} JoinedSnoc(cases: seq<Case>, keys: seq<GroupKey>)
    requires cases != [] && CasesOk(cases) && Distinct(keys)
    ensures var init, last := cases[..|cases| - 1], cases[|cases| - 1];
            multiset(Joined(cases, keys)) == multiset(Joined(init, keys)) + if KeyOf(last) in keys then multiset{last}
              else multiset{}
    decreases |keys|
  {
    if keys != [] {
      JoinedSnoc(cases, keys[1..]);
      assert keys == [keys[0]] + keys[1..];
    }
  }

  /** The plans of `_plan_sessions` hold every case exactly once. */
  lemma PlansPartition(cases: seq<Case>)
    requires CasesOk(cases)
    ensures multiset(Joined(cases, Keys(cases))) == multiset(cases)
  {
    forall i | 0 <= i < |cases| ensures KeyOf(cases[i]) in Keys(cases) { KeysComplete(cases, i); }
    GroupsPartition(cases, Keys(cases));
  }

  /** Planning over two lists that both hold a case puts it under one and the same session id. */
  lemma ResumeFindsSession(digest: Digest, experiment: string, worker: string, cases: seq<Case>, others: seq<Case>,
                           c: Case) returns (j: nat, j': nat)
    requires Injective(digest) && CasesOk(cases) && CasesOk(others) && c in cases && c in others
    ensures j < |Keys(cases)| && j' < |Keys(others)|
    ensures var plan := PlanFor(digest, experiment, worker, cases, Keys(cases)[j]);
            var plan' := PlanFor(digest, experiment, worker, others, Keys(others)[j']);
            c in plan.cases && c in plan'.cases && plan.sessionId == plan'.sessionId && plan.request == plan'.request
  {
    var i :| 0 <= i < |cases| && cases[i] == c;
    var i' :| 0 <= i' < |others| && others[i'] == c;
    KeysComplete(cases, i);
    KeysComplete(others, i');
    GroupMembers(cases, KeyOf(c));
    GroupMembers(others, KeyOf(c));
    j :| 0 <= j < |Keys(cases)| && Keys(cases)[j] == KeyOf(c);
    j' :| 0 <= j' < |Keys(others)| && Keys(others)[j'] == KeyOf(c);
  }
}
