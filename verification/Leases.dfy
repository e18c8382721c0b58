/**
 Exclusive device reservations of the Worker's profiling runner
 (src/edgeshard/control/worker/profiling_leases.py).
 */
module Leases {
  import opened Options
  import opened Master

  /** Device id to the session that holds it. */
  type LeaseMap = map<string, string>

  /** `min_available_bytes` with its pool resolver, when configured. */
  datatype MemoryFloor = NoFloor | Floor(bytes: nat, pools: string -> seq<string>)

  datatype Policy = Policy(utilizationFloor: real, memory: MemoryFloor)

  /** The last state reported for a device: later entries overwrite earlier ones. */
  function Reported(states: seq<DeviceState>, device: string): Option<DeviceState>
  {
    if states == [] then None
    else if states[|states| - 1].deviceId == device then Some(states[|states| - 1])
    else Reported(states[..|states| - 1], device)
  }

  function Available(pools: seq<MemoryPoolState>, pool: string): Option<int>
  {
    if pools == [] then None
    else if pools[|pools| - 1].memoryPoolId == pool then pools[|pools| - 1].availableBytes
    else Available(pools[..|pools| - 1], pool)
  }

  lemma {:induction false} ReportedIsLast(states: seq<DeviceState>, device: string)
    ensures Reported(states, device).None? <==> forall i :: 0 <= i < |states| ==> states[i].deviceId != device
    ensures forall i :: LastReport(states, device, i) ==> Reported(states, device) == Some(states[i])
    decreases |states|
  {
    if states != [] {
      var init := states[..|states| - 1];
      ReportedIsLast(init, device);
      assert forall i :: LastReport(states, device, i) && i < |init| ==> LastReport(init, device, i);
    }
  }

  predicate LastReport(states: seq<DeviceState>, device: string, i: int)
  {
    && 0 <= i < |states| && states[i].deviceId == device
    && forall j :: i < j < |states| ==> states[j].deviceId != device
  }

  lemma {:induction false} AvailableIsLast(pools: seq<MemoryPoolState>, pool: string, i: int)
    requires LastFigure(pools, pool, i)
    ensures Available(pools, pool) == pools[i].availableBytes
    decreases |pools|
  {
    if i < |pools| - 1 { AvailableIsLast(pools[..|pools| - 1], pool, i); }
  }

  lemma {:induction false} NotAvailable(pools: seq<MemoryPoolState>, pool: string)
    requires forall i :: 0 <= i < |pools| ==> pools[i].memoryPoolId != pool
    ensures Available(pools, pool).None?
    decreases |pools|
  {
    if pools != [] { NotAvailable(pools[..|pools| - 1], pool); }
  }

  predicate LastFigure(pools: seq<MemoryPoolState>, pool: string, i: int)
  {
    && 0 <= i < |pools| && pools[i].memoryPoolId == pool
    && forall j :: i < j < |pools| ==> pools[j].memoryPoolId != pool
  }

  /** `_check_memory`: a pool without a reported figure is skipped. */
  predicate MemorySuffices(policy: Policy, device: string, state: WorkerState)
  {
    policy.memory.Floor? ==>
      forall i :: 0 <= i < |policy.memory.pools(device)| ==>
        var available := Available(state.memoryStates, policy.memory.pools(device)[i]);
        available.Some? ==> available.value >= policy.memory.bytes
  }

  /** `_check_device` passes. */
  predicate Reservable(policy: Policy, leased: LeaseMap, session: string, device: string, state: WorkerState)
  {
    var d := Reported(state.deviceStates, device);
    && d.Some?
    && (device in leased ==> leased[device] == session)
    && d.value.availability == AVAILABLE
    && d.value.runningRuntimeIds == []
    && (d.value.utilization.Some? ==> d.value.utilization.value <= policy.utilizationFloor)
    && MemorySuffices(policy, device, state)
  }

  /** No pool of the device is last reported with less than the floor. */
  ghost predicate PoolsSuffice(policy: Policy, device: string, state: WorkerState)
  {
    policy.memory.Floor? ==>
      forall pool, i ::
        (&& pool in policy.memory.pools(device) && LastFigure(state.memoryStates, pool, i)
         && state.memoryStates[i].availableBytes.Some?) ==>
        state.memoryStates[i].availableBytes.value >= policy.memory.bytes
  }

  lemma {:induction false} LastFigureOf(pools: seq<MemoryPoolState>, pool: string)
    requires exists i :: 0 <= i < |pools| && pools[i].memoryPoolId == pool
    ensures exists i :: LastFigure(pools, pool, i)
    decreases |pools|
  {
    var last := |pools| - 1;
    if pools[last].memoryPoolId == pool {
      assert LastFigure(pools, pool, last);
    } else {
      LastFigureOf(pools[..last], pool);
      var i :| LastFigure(pools[..last], pool, i);
      assert LastFigure(pools, pool, i);
    }
  }

  lemma SufficesIff(policy: Policy, device: string, state: WorkerState)
    ensures MemorySuffices(policy, device, state) <==> PoolsSuffice(policy, device, state)
  {
    if policy.memory.Floor? {
      var pools := policy.memory.pools(device);
      forall k | 0 <= k < |pools|
        ensures forall i :: LastFigure(state.memoryStates, pools[k], i) ==>
                  Available(state.memoryStates, pools[k]) == state.memoryStates[i].availableBytes
        ensures Available(state.memoryStates, pools[k]).Some? ==>
                  exists i :: LastFigure(state.memoryStates, pools[k], i)
      {
        forall i | LastFigure(state.memoryStates, pools[k], i)
          ensures Available(state.memoryStates, pools[k]) == state.memoryStates[i].availableBytes
        {
          AvailableIsLast(state.memoryStates, pools[k], i);
        }
        if forall i :: 0 <= i < |state.memoryStates| ==> state.memoryStates[i].memoryPoolId != pools[k] {
          NotAvailable(state.memoryStates, pools[k]);
        } else {
          LastFigureOf(state.memoryStates, pools[k]);
        }
      }
    }
  }

  lemma {:induction false} LastReportOf(states: seq<DeviceState>, device: string)
    requires Reported(states, device).Some?
    ensures exists i :: LastReport(states, device, i)
    decreases |states|
  {
    var last := |states| - 1;
    if states[last].deviceId == device {
      assert LastReport(states, device, last);
    } else {
      LastReportOf(states[..last], device);
      var i :| LastReport(states[..last], device, i);
      assert LastReport(states, device, i);
    }
  }

  /** A device can be reserved exactly if it is reported, not leased to another session, and last reported available,
      idle, not above the utilization floor, with enough memory in every pool whose figure is known. */
  lemma ReservableIff(policy: Policy, leased: LeaseMap, session: string, device: string, state: WorkerState)
    ensures Reservable(policy, leased, session, device, state) <==>
            && (device in leased ==> leased[device] == session)
            && PoolsSuffice(policy, device, state)
            && exists i ::
                 && LastReport(state.deviceStates, device, i)
                 && state.deviceStates[i].availability == AVAILABLE
                 && state.deviceStates[i].runningRuntimeIds == []
                 && (state.deviceStates[i].utilization.Some? ==>
                       state.deviceStates[i].utilization.value <= policy.utilizationFloor)
  {
    SufficesIff(policy, device, state);
    ReportedIsLast(state.deviceStates, device);
    if Reported(state.deviceStates, device).Some? { LastReportOf(state.deviceStates, device); }
  }

  /** First occurrences, in order. */
  function Dedupe(ids: seq<string>): (r: seq<string>)
    ensures forall d :: d in r <==> d in ids
    ensures forall i, j :: 0 <= i < j < |r| ==> r[i] != r[j]
  {
    if ids == [] then []
    else
      var rest, last := Dedupe(ids[..|ids| - 1]), ids[|ids| - 1];
      assert ids == ids[..|ids| - 1] + [last];
      if last in rest then rest else rest + [last]
  }

  function WithLeases(leased: LeaseMap, session: string, devices: seq<string>): LeaseMap
  {
    map d | d in leased.Keys + (set i | 0 <= i < |devices| :: devices[i]) :: if d in devices then session else leased[d]
  }

  function WithoutDevices(leased: LeaseMap, devices: seq<string>): LeaseMap
  {
    map d | d in leased && d !in devices :: leased[d]
  }

  function WithoutSession(leased: LeaseMap, session: string): LeaseMap
  {
    map d | d in leased && leased[d] != session :: leased[d]
  }

  /** How many of the requested devices pass before the first one that does not. */
  function Passing(policy: Policy, leased: LeaseMap, session: string, devices: seq<string>,
                   state: WorkerState): (n: nat)
    ensures n <= |devices|
    ensures forall i :: 0 <= i < n ==> Reservable(policy, leased, session, devices[i], state)
    ensures n < |devices| ==> !Reservable(policy, leased, session, devices[n], state)
  {
    if devices == [] || !Reservable(policy, leased, session, devices[0], state) then 0
    else 1 + Passing(policy, leased, session, devices[1..], state)
  }

  datatype Acquired = Leased(devices: seq<string>) | DeviceBusy(device: string) | BadRequest

  /** `acquire`: the lease map it leaves and its answer. */
  function Acquire(policy: Policy, leased: LeaseMap, session: string, ids: seq<string>,
                   state: WorkerState): (LeaseMap, Acquired)
  {
    var devices := Dedupe(ids);
    if session == "" || devices == [] then (leased, BadRequest)
    else
      var n := Passing(policy, leased, session, devices, state);
      if n == |devices| then (WithLeases(leased, session, devices), Leased(devices))
      else (WithoutDevices(leased, devices[..n]), DeviceBusy(devices[n]))
  }

  /** A refused acquire restores the map exactly when the session held none of the devices that passed. */
  lemma RefusedRestoresIff(policy: Policy, leased: LeaseMap, session: string, ids: seq<string>, state: WorkerState)
    requires Acquire(policy, leased, session, ids, state).1.DeviceBusy?
    ensures var devices := Dedupe(ids);
            var n := Passing(policy, leased, session, devices, state);
            Acquire(policy, leased, session, ids, state).0 == leased <==>
            forall i :: 0 <= i < n ==> devices[i] !in leased
  {
    var devices := Dedupe(ids);
    var n := Passing(policy, leased, session, devices, state);
    var after := WithoutDevices(leased, devices[..n]);
    if after == leased {
      forall i | 0 <= i < n ensures devices[i] !in leased {
        assert devices[i] in devices[..n];
        assert devices[i] !in after;
      }
    }
    if forall i :: 0 <= i < n ==> devices[i] !in leased {
      assert forall d :: d in leased ==> d !in devices[..n];
      assert after == leased;
    }
  }

  /** All or nothing, and never another session's device. */
  lemma AcquireEffect(policy: Policy, leased: LeaseMap, session: string, ids: seq<string>, state: WorkerState)
    ensures var (after, r) := Acquire(policy, leased, session, ids, state);
            && (r.Leased? <==> session != "" && ids != [] && forall d :: d in ids ==>
                  Reservable(policy, leased, session, d, state))
            && (forall d :: d in leased && leased[d] != session ==> d in after && after[d] == leased[d])
            && (r.Leased? ==> forall d :: d in after <==> d in leased || d in ids)
            && (r.Leased? ==> forall d :: d in after ==> after[d] == if d in ids then session else leased[d])
            && (!r.Leased? && (forall d :: d in leased ==> leased[d] != session) ==> after == leased)
  {
    var devices := Dedupe(ids);
    assert devices == [] <==> ids == [] by {
      if ids != [] { assert ids[0] in devices; }
      if devices != [] { assert devices[0] in ids; }
    }
    var n := Passing(policy, leased, session, devices, state);
    forall i | 0 <= i < n ensures devices[i] in leased ==> leased[devices[i]] == session {
      assert Reservable(policy, leased, session, devices[i], state);
    }
    if session != "" && devices != [] {
      if n < |devices| {
        assert devices[n] in ids && !Reservable(policy, leased, session, devices[n], state);
        RefusedRestoresIff(policy, leased, session, ids, state);
      } else {
        forall d | d in ids ensures Reservable(policy, leased, session, d, state) {
          var i :| 0 <= i < |devices| && devices[i] == d;
        }
      }
    }
  }

  /** Deduplication keeps first occurrences in their order. */
  lemma {:induction false} DedupePrefix(ids: seq<string>, k: nat)
    requires k <= |ids|
    ensures Dedupe(ids[..k]) <= Dedupe(ids)
    decreases |ids|
  {
    if k < |ids| {
      var init := ids[..|ids| - 1];
      DedupePrefix(init, k);
      assert init[..k] == ids[..k];
    } else {
      assert ids[..k] == ids;
    }
  }

  lemma FirstOccurrence(ids: seq<string>, k: nat)
    requires k < |ids| && ids[k] !in ids[..k]
    ensures Dedupe(ids[..k]) + [ids[k]] <= Dedupe(ids)
  {
    assert ids[..k + 1][..k] == ids[..k];
    DedupePrefix(ids, k + 1);
  }

  /** A refused acquire names the first of the requested devices that cannot be reserved. */
  lemma BusyIsFirst(policy: Policy, leased: LeaseMap, session: string, ids: seq<string>, state: WorkerState, k: nat)
    requires session != "" && k < |ids| && !Reservable(policy, leased, session, ids[k], state)
    requires forall j :: 0 <= j < k ==> Reservable(policy, leased, session, ids[j], state)
    ensures Acquire(policy, leased, session, ids, state).1 == DeviceBusy(ids[k])
  {
    var devices, before := Dedupe(ids), Dedupe(ids[..k]);
    FirstOccurrence(ids, k);
    assert devices[|before|] == (before + [ids[k]])[|before|] == ids[k];
    forall i | 0 <= i < |before| ensures Reservable(policy, leased, session, devices[i], state) {
      assert devices[i] == (before + [ids[k]])[i] == before[i] && before[i] in ids[..k];
    }
    assert Passing(policy, leased, session, devices, state) == |before|;
  }

  /** Marking devices for the session one by one changes none of the session's own later checks. */
  lemma ChecksUnaffected(policy: Policy, leased: LeaseMap, session: string, done: seq<string>, device: string,
                         state: WorkerState)
    requires device !in done
    ensures Reservable(policy, WithLeases(leased, session, done), session, device, state) ==
            Reservable(policy, leased, session, device, state)
  {
  }

  lemma MarkOneMore(leased: LeaseMap, session: string, done: seq<string>, device: string)
    ensures WithLeases(leased, session, done)[device := session] == WithLeases(leased, session, done + [device])
    ensures WithLeases(leased, session, []) == leased
    ensures WithoutDevices(WithLeases(leased, session, done), done) == WithoutDevices(leased, done)
  {
    var more := done + [device];
    assert forall d :: d in more <==> d in done || d == device;
    assert forall d :: d in WithLeases(leased, session, more) <==> d in leased || d in more;
  }

  /** One turn of the acquire loop. */
  lemma MarkStep(policy: Policy, before: LeaseMap, now: LeaseMap, session: string, requested: seq<string>,
                 state: WorkerState, index: nat)
    requires forall i, j :: 0 <= i < j < |requested| ==> requested[i] != requested[j]
    requires index <= Passing(policy, before, session, requested, state) && index < |requested|
    requires now == WithLeases(before, session, requested[..index])
    ensures Reservable(policy, now, session, requested[index], state) ==
              (index < Passing(policy, before, session, requested, state))
    ensures now[requested[index] := session] == WithLeases(before, session, requested[..index + 1])
  {
    ChecksUnaffected(policy, before, session, requested[..index], requested[index], state);
    MarkOneMore(before, session, requested[..index], requested[index]);
    assert requested[..index + 1] == requested[..index] + [requested[index]];
  }

  class DeviceLeaseManager {
    const policy: Policy
    var leasedBy: LeaseMap

    constructor (policy: Policy)
      ensures leasedBy == map[] && this.policy == policy
    {
      this.policy, leasedBy := policy, map[];
    }

    method CheckDevice(session: string, device: string, state: WorkerState) returns (ok: bool)
      ensures ok == Reservable(policy, leasedBy, session, device, state)
    {
      var d := Reported(state.deviceStates, device);
      if d.None? { return false; }
      if device in leasedBy && leasedBy[device] != session { return false; }
      if d.value.availability != AVAILABLE { return false; }
      if d.value.runningRuntimeIds != [] { return false; }
      if d.value.utilization.Some? && d.value.utilization.value > policy.utilizationFloor { return false; }
      if policy.memory.Floor? {
        var pools := policy.memory.pools(device);
        for i := 0 to |pools|
          invariant forall j :: 0 <= j < i ==>
            var available := Available(state.memoryStates, pools[j]);
            available.Some? ==> available.value >= policy.memory.bytes
        {
          var available := Available(state.memoryStates, pools[i]);
          if available.Some? && available.value < policy.memory.bytes { return false; }
        }
      }
      ok := true;
    }

    method Rollback(acquired: seq<string>)
      modifies this
      ensures leasedBy == WithoutDevices(old(leasedBy), acquired)
    {
      for i := 0 to |acquired|
        invariant leasedBy == WithoutDevices(old(leasedBy), acquired[..i])
      {
        leasedBy := leasedBy - {acquired[i]};
      }
    }

    /** Marks devices in order up to the first that is not reservable. */
    method Mark(session: string, requested: seq<string>, state: WorkerState) returns (index: nat)
      requires forall i, j :: 0 <= i < j < |requested| ==> requested[i] != requested[j]
      modifies this
      ensures index <= |requested| && leasedBy == WithLeases(old(leasedBy), session, requested[..index])
      ensures index == Passing(policy, old(leasedBy), session, requested, state)
    {
      ghost var before := leasedBy;
      ghost var passing := Passing(policy, before, session, requested, state);
      index := 0;
      MarkOneMore(before, session, [], "");
      while index < |requested|
        invariant 0 <= index <= passing && before == old(leasedBy)
        invariant leasedBy == WithLeases(before, session, requested[..index])
      {
        var device := requested[index];
        MarkStep(policy, before, leasedBy, session, requested, state, index);
        var ok := CheckDevice(session, device, state);
        if !ok {
          return;
        }
        leasedBy := leasedBy[device := session];
        index := index + 1;
      }
    }

    /** Reserve every device or none, against a fresh state. */
    method Reserve(session: string, ids: seq<string>, state: WorkerState) returns (r: Acquired)
      modifies this
      ensures (leasedBy, r) == Acquire(policy, old(leasedBy), session, ids, state)
    {
      if session == "" { return BadRequest; }
      var requested := Dedupe(ids);
      if requested == [] { return BadRequest; }
      var index := Mark(session, requested, state);
      MarkOneMore(old(leasedBy), session, requested[..index], "");
      if index < |requested| {
        Rollback(requested[..index]);
        return DeviceBusy(requested[index]);
      }
      assert requested[..index] == requested;
      r := Leased(requested);
    }

    /** Idempotent; returns nothing the session did not hold. */
    method ReleaseSession(session: string) returns (released: set<string>)
      modifies this
      ensures leasedBy == WithoutSession(old(leasedBy), session)
      ensures released == set d | d in old(leasedBy) && old(leasedBy)[d] == session
    {
      released := set d | d in leasedBy && leasedBy[d] == session;
      leasedBy := leasedBy - released;
    }

    method ReleaseAll() returns (released: set<string>)
      modifies this
      ensures leasedBy == map[] && released == old(leasedBy).Keys
    {
      released := leasedBy.Keys;
      leasedBy := map[];
    }
  }
}
