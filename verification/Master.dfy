/**
 The Master's registration state: what each handler does to the registry, session and state maps,
 the invariant every run keeps, and the snapshot built from it
 (src/edgeshard/control/master/service.py, sessions.py, registry.py, state_store.py, snapshot.py,
 src/edgeshard/cluster/snapshot.py, state.py).

 Session ids are drawn from a counter: the only thing used about a fresh uuid is that it was never
 issued before.  Receive times are parameters.
 */
module Master {
  import opened Options
  import opened Orders
  import opened Capability

  // ---------------------------------------------------------------------------
  // Reported state and its cross-validation
  // ---------------------------------------------------------------------------

  datatype Availability = AVAILABLE | UNAVAILABLE | UNKNOWN

  datatype DeviceState = DeviceState(
    deviceId: string, utilization: Option<real>, availability: Availability, runningRuntimeIds: seq<string>)

  datatype MemoryPoolState = MemoryPoolState(memoryPoolId: string, availableBytes: Option<int>)

  datatype RuntimeInstance = RuntimeInstance(runtimeId: string, deviceIds: seq<string>)

  datatype WorkerState = WorkerState(
    workerId: string, deviceStates: seq<DeviceState>, memoryStates: seq<MemoryPoolState>,
    runtimeInstances: seq<RuntimeInstance>)

  /** `validate_state_against_capability` accepts: every reference resolves inside the capability. */
  predicate StateConsistent(s: WorkerState, c: WorkerCapability)
  {
    && (forall i :: 0 <= i < |s.deviceStates| ==> s.deviceStates[i].deviceId in DeviceIds(c))
    && (forall i :: 0 <= i < |s.memoryStates| ==> s.memoryStates[i].memoryPoolId in PoolIds(c))
    && (forall i, j :: 0 <= i < |s.runtimeInstances| && 0 <= j < |s.runtimeInstances[i].deviceIds| ==>
          s.runtimeInstances[i].deviceIds[j] in DeviceIds(c))
  }

  // ---------------------------------------------------------------------------
  // The three maps
  // ---------------------------------------------------------------------------

  datatype Identity = Identity(workerId: string, hostname: string, agentVersion: string, protocolVersion: string)

  datatype WorkerRecord = WorkerRecord(identity: Identity, capability: WorkerCapability, endpoint: Option<string>)

  datatype SessionInfo = SessionInfo(instanceId: string, sessionId: nat, lastAccepted: nat)

  datatype StoredState = StoredState(state: WorkerState, receivedAt: real)

  datatype Maps = Maps(
    registry: map<string, WorkerRecord>, sessions: map<string, SessionInfo>, states: map<string, StoredState>)

  const NO_WORKERS := Maps(map[], map[], map[])

  datatype Reason = UNKNOWN_WORKER | STALE_SESSION | INSTANCE_MISMATCH | OUT_OF_ORDER | REREGISTER_REQUIRED

  datatype Request =
    | Register(identity: Identity, instanceId: string, capability: WorkerCapability, state: WorkerState,
               endpoint: Option<string>)
    | Heartbeat(workerId: string, instanceId: string, sessionId: nat, sequence: int, revision: string,
                state: WorkerState)
    | Update(workerId: string, instanceId: string, sessionId: nat, capability: WorkerCapability, state: WorkerState)

  /** `Invalid` is the ControlProtocolError abort; `Granted` answers a registration. */
  datatype Reply = Granted(sessionId: nat) | Accepted | Rejected(reason: Reason) | Invalid

  /** What the wire mapper has already checked: the redundant worker ids agree. */
  predicate IdsAgree(r: Request)
  {
    match r
    case Register(identity, _, _, state, _) => identity.workerId == state.workerId
    case Heartbeat(w, _, _, _, _, state) => w == state.workerId
    case Update(w, _, _, _, state) => w == state.workerId
  }

  function WorkerOf(r: Request): string
  {
    if r.Register? then r.identity.workerId else r.workerId
  }

  // ---------------------------------------------------------------------------
  // Handlers, as functions of the maps
  // ---------------------------------------------------------------------------

  function CheckSession(sessions: map<string, SessionInfo>, w: string, instanceId: string,
                        sessionId: nat): Option<Reason>
  {
    if w !in sessions then Some(UNKNOWN_WORKER)
    else if sessions[w].sessionId != sessionId then Some(STALE_SESSION)
    else if sessions[w].instanceId != instanceId then Some(INSTANCE_MISMATCH)
    else None
  }

  function CheckHeartbeat(sessions: map<string, SessionInfo>, w: string, instanceId: string, sessionId: nat,
                          sequence: int): Option<Reason>
  {
    var refused := CheckSession(sessions, w, instanceId, sessionId);
    if refused.Some? then refused
    else if sequence <= sessions[w].lastAccepted then Some(OUT_OF_ORDER)
    else None
  }

  function CheckRevision(registry: map<string, WorkerRecord>, w: string, revision: string): Option<Reason>
  {
    if w !in registry then Some(UNKNOWN_WORKER)
    else if registry[w].capability.revision != revision then Some(REREGISTER_REQUIRED)
    else None
  }

  function OnRegister(rev: WorkerCapability -> string, m: Maps, r: Request, sid: nat, now: real): (Maps, Reply)
    requires r.Register?
  {
    if r.capability.revision != rev(r.capability) || !StateConsistent(r.state, r.capability) then (m, Invalid)
    else
      var w := r.identity.workerId;
      (Maps(m.registry[w := WorkerRecord(r.identity, r.capability, r.endpoint)],
            m.sessions[w := SessionInfo(r.instanceId, sid, 0)],
            m.states[w := StoredState(r.state, now)]),
       Granted(sid))
  }

  function OnHeartbeat(m: Maps, r: Request, now: real): (Maps, Reply)
    requires r.Heartbeat?
    requires m.registry.Keys == m.sessions.Keys
  {
    var refused := CheckHeartbeat(m.sessions, r.workerId, r.instanceId, r.sessionId, r.sequence);
    var refused' := if refused.None? then CheckRevision(m.registry, r.workerId, r.revision) else refused;
    if refused'.Some? then (m, Rejected(refused'.value))
    else if !StateConsistent(r.state, m.registry[r.workerId].capability) then (m, Invalid)
    else
      var info := m.sessions[r.workerId];
      (m.(sessions := m.sessions[r.workerId := info.(lastAccepted := r.sequence)],
          states := m.states[r.workerId := StoredState(r.state, now)]),
       Accepted)
  }

  function OnUpdate(rev: WorkerCapability -> string, m: Maps, r: Request, now: real): (Maps, Reply)
    requires r.Update?
    requires m.registry.Keys == m.sessions.Keys
  {
    var refused := CheckSession(m.sessions, r.workerId, r.instanceId, r.sessionId);
    if refused.Some? then (m, Rejected(refused.value))
    else if r.capability.revision != rev(r.capability) || !StateConsistent(r.state, r.capability) then (m, Invalid)
    else
      var record := m.registry[r.workerId];
      (m.(registry := m.registry[
            record.identity.workerId := WorkerRecord(record.identity, r.capability, record.endpoint)],
          states := m.states[r.workerId := StoredState(r.state, now)]),
       Accepted)
  }

  function Handle(rev: WorkerCapability -> string, m: Maps, r: Request, sid: nat, now: real): (Maps, Reply)
    requires m.registry.Keys == m.sessions.Keys
  {
    match r
    case Register(_, _, _, _, _) => OnRegister(rev, m, r, sid, now)
    case Heartbeat(_, _, _, _, _, _) => OnHeartbeat(m, r, now)
    case Update(_, _, _, _, _) => OnUpdate(rev, m, r, now)
  }

  // ---------------------------------------------------------------------------
  // What every handler keeps
  // ---------------------------------------------------------------------------

  /** The maps describe the same workers; each stored state fits its stored capability, and the
      stored revision is that capability's fingerprint. */
  ghost predicate Coherent(rev: WorkerCapability -> string, m: Maps)
  {
    && m.registry.Keys == m.sessions.Keys == m.states.Keys
    && forall w :: w in m.registry ==> CoherentEntry(rev, w, m.registry[w], m.states[w].state)
  }

  ghost predicate CoherentEntry(rev: WorkerCapability -> string, w: string, record: WorkerRecord, state: WorkerState)
  {
    && record.identity.workerId == w
    && state.workerId == w
    && record.capability.revision == rev(record.capability)
    && StateConsistent(state, record.capability)
  }

  lemma RegisterKeepsCoherence(rev: WorkerCapability -> string, m: Maps, r: Request, sid: nat, now: real)
    requires Coherent(rev, m) && IdsAgree(r) && r.Register?
    ensures Coherent(rev, OnRegister(rev, m, r, sid, now).0)
  {
    var (m', reply) := OnRegister(rev, m, r, sid, now);
    if reply.Granted? {
      var w := r.identity.workerId;
      assert CoherentEntry(rev, w, m'.registry[w], m'.states[w].state);
      assert m'.registry.Keys == m.registry.Keys + {w};
      assert m'.sessions.Keys == m.sessions.Keys + {w};
      assert m'.states.Keys == m.states.Keys + {w};
    }
  }

  lemma HeartbeatKeepsCoherence(rev: WorkerCapability -> string, m: Maps, r: Request, now: real)
    requires Coherent(rev, m) && IdsAgree(r) && r.Heartbeat?
    ensures Coherent(rev, OnHeartbeat(m, r, now).0)
  {
    var (m', reply) := OnHeartbeat(m, r, now);
    if reply.Accepted? {
      var w := r.workerId;
      assert CoherentEntry(rev, w, m.registry[w], m.states[w].state);
      assert CoherentEntry(rev, w, m.registry[w], r.state);
      assert m'.sessions.Keys == m.sessions.Keys && m'.states.Keys == m.states.Keys;
    }
  }

  lemma UpdateKeepsCoherence(rev: WorkerCapability -> string, m: Maps, r: Request, now: real)
    requires Coherent(rev, m) && IdsAgree(r) && r.Update?
    ensures Coherent(rev, OnUpdate(rev, m, r, now).0)
  {
    var (m', reply) := OnUpdate(rev, m, r, now);
    if reply.Accepted? {
      var w := r.workerId;
      assert CoherentEntry(rev, w, m.registry[w], m.states[w].state);
      assert CoherentEntry(rev, w, m'.registry[w], r.state);
      assert m'.registry.Keys == m.registry.Keys && m'.states.Keys == m.states.Keys;
    }
  }

  /** Every handler keeps the maps coherent, on every request, accepted or not. */
  lemma HandleKeepsCoherence(rev: WorkerCapability -> string, m: Maps, r: Request, sid: nat, now: real)
    requires Coherent(rev, m) && IdsAgree(r)
    ensures Coherent(rev, Handle(rev, m, r, sid, now).0)
  {
    match r
    case Register(_, _, _, _, _) => RegisterKeepsCoherence(rev, m, r, sid, now);
    case Heartbeat(_, _, _, _, _, _) => HeartbeatKeepsCoherence(rev, m, r, now);
    case Update(_, _, _, _, _) => UpdateKeepsCoherence(rev, m, r, now);
  }

  /** What a request can do to one worker's session: nothing, advance its sequence, or open a new one. */
  lemma SessionEffect(rev: WorkerCapability -> string, m: Maps, r: Request, sid: nat, now: real, w: string)
    requires m.registry.Keys == m.sessions.Keys
    ensures var m' := Handle(rev, m, r, sid, now).0;
            && (w in m.sessions ==> w in m'.sessions)
            && (w in m'.sessions ==>
                  || (w in m.sessions && m'.sessions[w] == m.sessions[w])
                  || (r.Register? && m'.sessions[w].sessionId == sid)
                  || (&& w in m.sessions && m'.sessions[w].sessionId == m.sessions[w].sessionId
                      && m.sessions[w].lastAccepted < m'.sessions[w].lastAccepted))
  {
  }

  /** A refused request changes nothing. */
  lemma RefusedChangesNothing(rev: WorkerCapability -> string, m: Maps, r: Request, sid: nat, now: real)
    requires m.registry.Keys == m.sessions.Keys
    ensures Handle(rev, m, r, sid, now).1.Rejected? || Handle(rev, m, r, sid, now).1.Invalid? ==>
            Handle(rev, m, r, sid, now).0 == m
  {
  }

  // ---------------------------------------------------------------------------
  // Runs: any sequence of requests and restarts
  // ---------------------------------------------------------------------------

  datatype Event = Deliver(request: Request, now: real) | Restart

  datatype World = World(maps: Maps, issued: nat)

  const START := World(NO_WORKERS, 0)

  function Step(rev: WorkerCapability -> string, g: World, e: Event): World
    requires g.maps.registry.Keys == g.maps.sessions.Keys
  {
    match e
    case Restart => World(NO_WORKERS, g.issued)
    case Deliver(r, now) => World(Handle(rev, g.maps, r, g.issued, now).0, g.issued + 1)
  }

  ghost predicate WorldInv(rev: WorkerCapability -> string, g: World)
  {
    && Coherent(rev, g.maps)
    && forall w :: w in g.maps.sessions ==> g.maps.sessions[w].sessionId < g.issued
  }

  ghost predicate EventsAgree(events: seq<Event>)
  {
    forall i :: 0 <= i < |events| && events[i].Deliver? ==> IdsAgree(events[i].request)
  }

  lemma StepKeepsInv(rev: WorkerCapability -> string, g: World, e: Event)
    requires WorldInv(rev, g) && (e.Deliver? ==> IdsAgree(e.request))
    ensures WorldInv(rev, Step(rev, g, e))
  {
    if e.Deliver? {
      HandleKeepsCoherence(rev, g.maps, e.request, g.issued, e.now);
      var g' := Step(rev, g, e);
      forall w | w in g'.maps.sessions ensures g'.maps.sessions[w].sessionId < g'.issued {
        SessionEffect(rev, g.maps, e.request, g.issued, e.now, w);
      }
    }
  }

  /** The state after a run that starts in `g`. */
  ghost function After(rev: WorkerCapability -> string, g: World, events: seq<Event>): (r: World)
    requires WorldInv(rev, g) && EventsAgree(events)
    ensures WorldInv(rev, r)
    decreases |events|
  {
    if events == [] then g
    else
      StepKeepsInv(rev, g, events[0]);
      After(rev, Step(rev, g, events[0]), events[1..])
  }

  /** In every run the maps stay coherent. */
  lemma EveryRunCoherent(rev: WorkerCapability -> string, events: seq<Event>)
    requires EventsAgree(events)
    ensures Coherent(rev, After(rev, START, events).maps)
  {
  }

  function SessionOf(r: Request): Option<nat>
  {
    match r
    case Register(_, _, _, _, _) => None
    case Heartbeat(_, _, s, _, _, _) => Some(s)
    case Update(_, _, s, _, _) => Some(s)
  }

  /** The session a worker holds only ever moves to newer ids. */
  lemma {:induction false} SessionsMoveForward(rev: WorkerCapability -> string, g: World, events: seq<Event>,
                                               w: string, s: nat)
    requires WorldInv(rev, g) && EventsAgree(events)
    requires s < g.issued
    requires w in g.maps.sessions ==> s <= g.maps.sessions[w].sessionId
    ensures var g' := After(rev, g, events);
            w in g'.maps.sessions ==> s <= g'.maps.sessions[w].sessionId
    decreases |events|
  {
    if events != [] {
      StepKeepsInv(rev, g, events[0]);
      if events[0].Deliver? {
        SessionEffect(rev, g.maps, events[0].request, g.issued, events[0].now, w);
      }
      SessionsMoveForward(rev, Step(rev, g, events[0]), events[1..], w, s);
    }
  }

  /** Once session `newer` has opened for a worker, no request under an older session of that worker
      ever changes any map again, through any further registrations, updates and restarts. */
  lemma SupersededForEver(rev: WorkerCapability -> string, g: World, w: string, newer: nat,
                          events: seq<Event>, r: Request, sid: nat, now: real)
    requires WorldInv(rev, g) && EventsAgree(events)
    requires w in g.maps.sessions && g.maps.sessions[w].sessionId == newer
    requires WorkerOf(r) == w && SessionOf(r).Some? && SessionOf(r).value < newer
    ensures var m := After(rev, g, events).maps;
            && Handle(rev, m, r, sid, now).0 == m
            && Handle(rev, m, r, sid, now).1 in {Rejected(UNKNOWN_WORKER), Rejected(STALE_SESSION)}
  {
    SessionsMoveForward(rev, g, events, w, newer);
  }

  /** Within one session the last accepted sequence never goes back. */
  lemma {:induction false} SequencesAdvance(rev: WorkerCapability -> string, g: World, events: seq<Event>, w: string,
                                            s: nat, n: nat)
    requires WorldInv(rev, g) && EventsAgree(events)
    requires s < g.issued
    requires w in g.maps.sessions && g.maps.sessions[w].sessionId == s ==> n <= g.maps.sessions[w].lastAccepted
    ensures var m := After(rev, g, events).maps;
            w in m.sessions && m.sessions[w].sessionId == s ==> n <= m.sessions[w].lastAccepted
    decreases |events|
  {
    if events != [] {
      StepKeepsInv(rev, g, events[0]);
      if events[0].Deliver? {
        SessionEffect(rev, g.maps, events[0].request, g.issued, events[0].now, w);
      }
      SequencesAdvance(rev, Step(rev, g, events[0]), events[1..], w, s, n);
    }
  }

  lemma AcceptedAdvances(rev: WorkerCapability -> string, m: Maps, r: Request, sid: nat, now: real)
    requires m.registry.Keys == m.sessions.Keys && r.Heartbeat?
    requires Handle(rev, m, r, sid, now).1.Accepted?
    ensures r.workerId in m.sessions && m.sessions[r.workerId].sessionId == r.sessionId
    ensures m.sessions[r.workerId].lastAccepted < r.sequence
    ensures var m' := Handle(rev, m, r, sid, now).0;
            && r.workerId in m'.sessions
            && m'.sessions[r.workerId] == m.sessions[r.workerId].(lastAccepted := r.sequence)
  {
  }

  /** Two heartbeats accepted under one session, however far apart, carry strictly increasing
      sequences: `g1` is the state the first one leaves, `g2` any state reached from there. */
  lemma AcceptedSequencesIncrease(rev: WorkerCapability -> string, g: World, first: Request, t1: real, g1: World,
                                  between: seq<Event>, g2: World, second: Request, sid: nat, t2: real)
    requires WorldInv(rev, g) && IdsAgree(first) && EventsAgree(between)
    requires first.Heartbeat? && second.Heartbeat?
    requires first.workerId == second.workerId && first.sessionId == second.sessionId
    requires Handle(rev, g.maps, first, g.issued, t1).1.Accepted?
    requires g1 == Step(rev, g, Deliver(first, t1)) && WorldInv(rev, g1)
    requires g2 == After(rev, g1, between)
    requires Handle(rev, g2.maps, second, sid, t2).1.Accepted?
    ensures first.sequence < second.sequence
  {
    AcceptedAdvances(rev, g.maps, first, g.issued, t1);
    SequencesAdvance(rev, g1, between, first.workerId, first.sessionId, first.sequence);
    AcceptedAdvances(rev, g2.maps, second, sid, t2);
  }

  // ---------------------------------------------------------------------------
  // Snapshots
  // ---------------------------------------------------------------------------

  datatype WorkerSnapshot = WorkerSnapshot(
    identity: Identity, capability: WorkerCapability, state: WorkerState, sessionId: Option<nat>, lastSeen: real)

  datatype Outcome<+T> = Ok(value: T) | Raised

  /** `_build_worker`, with the construction checks of WorkerSnapshot. */
  function BuildWorker(m: Maps, record: WorkerRecord): Outcome<WorkerSnapshot>
  {
    var w := record.identity.workerId;
    if w !in m.states then Raised
    else
      var stored := m.states[w];
      var session := if w in m.sessions then Some(m.sessions[w].sessionId) else None;
      if w != stored.state.workerId || !StateConsistent(stored.state, record.capability) then Raised
      else Ok(WorkerSnapshot(record.identity, record.capability, stored.state, session, stored.receivedAt))
  }

  function BuildWorkers(m: Maps, ids: seq<string>): Outcome<seq<WorkerSnapshot>>
    requires forall i :: 0 <= i < |ids| ==> ids[i] in m.registry
  {
    if ids == [] then Ok([])
    else
      match BuildWorker(m, m.registry[ids[0]])
      case Raised => Raised
      case Ok(first) =>
        match BuildWorkers(m, ids[1..])
        case Raised => Raised
        case Ok(rest) => Ok([first] + rest)
  }

  function DistinctWorkers(workers: seq<WorkerSnapshot>): bool
  {
    forall i, j :: 0 <= i < j < |workers| ==> workers[i].identity.workerId != workers[j].identity.workerId
  }

  /** `SnapshotBuilder.build`, workers in ascending id order. */
  function BuildSnapshot(m: Maps): Outcome<seq<WorkerSnapshot>>
  {
    match BuildWorkers(m, SortedIds(m.registry.Keys))
    case Raised => Raised
    case Ok(workers) => if DistinctWorkers(workers) then Ok(workers) else Raised
  }

  predicate Depicts(m: Maps, w: string, s: WorkerSnapshot)
  {
    && w in m.registry && w in m.sessions && w in m.states
    && s == WorkerSnapshot(m.registry[w].identity, m.registry[w].capability, m.states[w].state,
                           Some(m.sessions[w].sessionId), m.states[w].receivedAt)
  }

  lemma {:induction false} BuildWorkersDepicts(rev: WorkerCapability -> string, m: Maps, ids: seq<string>)
    requires Coherent(rev, m)
    requires forall i :: 0 <= i < |ids| ==> ids[i] in m.registry
    ensures var r := BuildWorkers(m, ids);
            && r.Ok? && |r.value| == |ids|
            && forall i :: 0 <= i < |ids| ==> Depicts(m, ids[i], r.value[i])
  {
    if ids != [] {
      assert CoherentEntry(rev, ids[0], m.registry[ids[0]], m.states[ids[0]].state);
      BuildWorkersDepicts(rev, m, ids[1..]);
      var r := BuildWorkers(m, ids);
      forall i | 0 <= i < |ids| ensures Depicts(m, ids[i], r.value[i]) {
        if i > 0 { assert ids[i] == ids[1..][i - 1]; }
      }
    }
  }

  lemma DepictedId(rev: WorkerCapability -> string, m: Maps, w: string, s: WorkerSnapshot)
    requires Coherent(rev, m) && Depicts(m, w, s)
    ensures s.identity.workerId == w
  {
    assert CoherentEntry(rev, w, m.registry[w], m.states[w].state);
  }

  /** Building a snapshot never raises on coherent maps, and shows each worker exactly once. */
  lemma SnapshotTotal(rev: WorkerCapability -> string, m: Maps)
    requires Coherent(rev, m)
    ensures var r := BuildSnapshot(m);
            && r.Ok? && |r.value| == |m.registry|
            && forall i :: 0 <= i < |r.value| ==> Depicts(m, SortedIds(m.registry.Keys)[i], r.value[i])
  {
    var ids := SortedIds(m.registry.Keys);
    BuildWorkersDepicts(rev, m, ids);
    var workers := BuildWorkers(m, ids).value;
    forall i | 0 <= i < |workers| ensures workers[i].identity.workerId == ids[i] {
      DepictedId(rev, m, ids[i], workers[i]);
    }
    AscendingDistinct(ids, workers);
  }

  lemma AscendingDistinct(ids: seq<string>, workers: seq<WorkerSnapshot>)
    requires StrictlyAscending(ids) && |ids| == |workers|
    requires forall i :: 0 <= i < |workers| ==> workers[i].identity.workerId == ids[i]
    ensures DistinctWorkers(workers)
  {
    forall i, j | 0 <= i < j < |workers| ensures workers[i].identity.workerId != workers[j].identity.workerId {
      assert StrLt(ids[i], ids[j]);
    }
  }

  /** In every run `build_snapshot` succeeds. */
  lemma SnapshotNeverRaises(rev: WorkerCapability -> string, events: seq<Event>)
    requires EventsAgree(events)
    ensures BuildSnapshot(After(rev, START, events).maps).Ok?
  {
    SnapshotTotal(rev, After(rev, START, events).maps);
  }
}
