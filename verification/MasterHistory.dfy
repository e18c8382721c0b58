/**
 What the Master's handlers do, request field by request field, and what its maps and snapshots show after any run:
 for every worker the state and receipt time of its last accepted request, the capability of its last accepted
 registration or update, and the identity and session of its last registration
 (src/edgeshard/control/master/service.py, sessions.py, snapshot.py).
 */
module MasterHistory {
  import opened Options
  import opened Orders
  import opened Capability
  import opened Master

  // ---------------------------------------------------------------------------
  // One request
  // ---------------------------------------------------------------------------

  /** The ids a reported state refers to. */
  function DeviceRefs(s: WorkerState): set<string>
  {
    (set d | d in s.deviceStates :: d.deviceId) +
    (set r, id | r in s.runtimeInstances && id in r.deviceIds :: id)
  }

  function PoolRefs(s: WorkerState): set<string>
  {
    set p | p in s.memoryStates :: p.memoryPoolId
  }

  /** Consistent is what refers only to the capability's own devices and pools. */
  lemma ConsistentIff(s: WorkerState, c: WorkerCapability)
    ensures StateConsistent(s, c) <==>
            && (forall id :: id in DeviceRefs(s) ==> exists i :: 0 <= i < |c.devices| && c.devices[i].deviceId == id)
            && (forall id :: id in PoolRefs(s) ==>
                  exists i :: 0 <= i < |c.memoryPools| && c.memoryPools[i].memoryPoolId == id)
  {
    if StateConsistent(s, c) {
      forall id | id in DeviceRefs(s) ensures id in DeviceIds(c) {
        if r :| r in s.runtimeInstances && id in r.deviceIds {
          var i :| 0 <= i < |s.runtimeInstances| && s.runtimeInstances[i] == r;
          var j :| 0 <= j < |r.deviceIds| && r.deviceIds[j] == id;
        }
      }
    } else {
      if i :| 0 <= i < |s.deviceStates| && s.deviceStates[i].deviceId !in DeviceIds(c) {
        assert s.deviceStates[i] in s.deviceStates && s.deviceStates[i].deviceId in DeviceRefs(s);
      } else if i :| 0 <= i < |s.memoryStates| && s.memoryStates[i].memoryPoolId !in PoolIds(c) {
        assert s.memoryStates[i] in s.memoryStates && s.memoryStates[i].memoryPoolId in PoolRefs(s);
      } else {
        var i, j :| 0 <= i < |s.runtimeInstances| && 0 <= j < |s.runtimeInstances[i].deviceIds| &&
          s.runtimeInstances[i].deviceIds[j] !in DeviceIds(c);
        var r := s.runtimeInstances[i];
        var id := r.deviceIds[j];
        assert r in s.runtimeInstances && id in r.deviceIds;
        assert id in DeviceRefs(s) && !exists k :: 0 <= k < |c.devices| && c.devices[k].deviceId == id;
      }
    }
  }

  /** A registration is granted exactly if it is consistent in itself; it replaces all that is stored of its worker. */
  lemma RegisterEffect(rev: WorkerCapability -> string, m: Maps, r: Request, sid: nat, now: real)
    requires m.registry.Keys == m.sessions.Keys && r.Register?
    ensures var (m', reply), w := Handle(rev, m, r, sid, now), r.identity.workerId;
            && (reply == Granted(sid) <==>
                r.capability.revision == rev(r.capability) && StateConsistent(r.state, r.capability))
            && (reply != Granted(sid) ==> reply == Invalid && m' == m)
            && (reply == Granted(sid) ==>
                  && m'.registry == m.registry[w := WorkerRecord(r.identity, r.capability, r.endpoint)]
                  && m'.sessions == m.sessions[w := SessionInfo(r.instanceId, sid, 0)]
                  && m'.states == m.states[w := StoredState(r.state, now)])
  {
  }

  /** A heartbeat is accepted exactly under the worker's current session and instance, with a new sequence, the stored
      revision and a state that fits the stored capability; then its state and sequence are stored, and nothing else. */
  lemma HeartbeatEffect(rev: WorkerCapability -> string, m: Maps, r: Request, sid: nat, now: real)
    requires m.registry.Keys == m.sessions.Keys && r.Heartbeat?
    ensures var (m', reply), w := Handle(rev, m, r, sid, now), r.workerId;
            var known := w in m.sessions;
            var current := known && m.sessions[w].sessionId == r.sessionId;
            var mine := current && m.sessions[w].instanceId == r.instanceId;
            var next := mine && m.sessions[w].lastAccepted < r.sequence;
            var agreed := next && m.registry[w].capability.revision == r.revision;
            && (reply == Rejected(UNKNOWN_WORKER) <==> !known)
            && (reply == Rejected(STALE_SESSION) <==> known && !current)
            && (reply == Rejected(INSTANCE_MISMATCH) <==> current && !mine)
            && (reply == Rejected(OUT_OF_ORDER) <==> mine && !next)
            && (reply == Rejected(REREGISTER_REQUIRED) <==> next && !agreed)
            && (reply == Invalid <==> agreed && !StateConsistent(r.state, m.registry[w].capability))
            && (reply == Accepted <==> agreed && StateConsistent(r.state, m.registry[w].capability))
            && (reply != Accepted ==> m' == m)
            && (reply == Accepted ==>
                  && m'.registry == m.registry
                  && m'.sessions == m.sessions[w := SessionInfo(r.instanceId, r.sessionId, r.sequence)]
                  && m'.states == m.states[w := StoredState(r.state, now)])
  {
  }

  /** A capability update is accepted exactly under the current session and instance if it is consistent in itself; it
      replaces capability and state together and leaves identity, endpoint and session alone. */
  lemma UpdateEffect(rev: WorkerCapability -> string, m: Maps, r: Request, sid: nat, now: real)
    requires Coherent(rev, m) && r.Update?
    ensures var (m', reply), w := Handle(rev, m, r, sid, now), r.workerId;
            var known := w in m.sessions;
            var current := known && m.sessions[w].sessionId == r.sessionId;
            var mine := current && m.sessions[w].instanceId == r.instanceId;
            var sound := r.capability.revision == rev(r.capability) && StateConsistent(r.state, r.capability);
            && (reply == Rejected(UNKNOWN_WORKER) <==> !known)
            && (reply == Rejected(STALE_SESSION) <==> known && !current)
            && (reply == Rejected(INSTANCE_MISMATCH) <==> current && !mine)
            && (reply == Invalid <==> mine && !sound)
            && (reply == Accepted <==> mine && sound)
            && (reply != Accepted ==> m' == m)
            && (reply == Accepted ==>
                  && w in m.registry && m.registry[w].identity.workerId == w
                  && m'.registry == m.registry[w := m.registry[w].(capability := r.capability)]
                  && m'.sessions == m.sessions
                  && m'.states == m.states[w := StoredState(r.state, now)])
  {
    if r.workerId in m.registry {
      assert CoherentEntry(rev, r.workerId, m.registry[r.workerId], m.states[r.workerId].state);
    }
  }

  // ---------------------------------------------------------------------------
  // Runs
  // ---------------------------------------------------------------------------

  predicate Taken(reply: Reply)
  {
    reply.Granted? || reply.Accepted?
  }

  /** The kinds of requests that set a part of what is stored of a worker. */
  datatype Part = STATE | CAPABILITY | IDENTITY

  predicate Sets(r: Request, part: Part)
  {
    match part
    case STATE => true
    case CAPABILITY => !r.Heartbeat?
    case IDENTITY => r.Register?
  }

  ghost predicate TakenAt(rev: WorkerCapability -> string, events: seq<Event>, i: nat)
    requires EventsAgree(events) && i < |events|
  {
    var g := Upto(rev, events, i);
    && events[i].Deliver?
    && Taken(Handle(rev, g.maps, events[i].request, g.issued, events[i].now).1)
  }

  /** The Master after the first `i` events. */
  ghost function Upto(rev: WorkerCapability -> string, events: seq<Event>, i: nat): (g: World)
    requires EventsAgree(events) && i <= |events|
    ensures WorldInv(rev, g)
  {
    After(rev, START, events[..i])
  }

  ghost predicate SetsAt(rev: WorkerCapability -> string, events: seq<Event>, w: string, part: Part, i: nat)
    requires EventsAgree(events) && i < |events|
  {
    TakenAt(rev, events, i) && WorkerOf(events[i].request) == w && Sets(events[i].request, part)
  }

  /** Event `i` is the last accepted request of worker `w` that sets the part, and no restart came after it. */
  ghost predicate LastOf(rev: WorkerCapability -> string, events: seq<Event>, n: nat, w: string, part: Part, i: nat)
    requires EventsAgree(events) && n <= |events|
  {
    && i < n && SetsAt(rev, events, w, part, i)
    && forall j :: i < j < n ==> !events[j].Restart? && !SetsAt(rev, events, w, part, j)
  }

  /** A registration of the worker was accepted since the last restart. */
  ghost predicate Registered(rev: WorkerCapability -> string, events: seq<Event>, n: nat, w: string)
    requires EventsAgree(events) && n <= |events|
  {
    exists d: nat :: LastOf(rev, events, n, w, IDENTITY, d)
  }

  /** The stored state is of request `s`, the capability of `c`, all else of registration `d`, which opened
      session `sid`. */
  predicate HeldFrom(m: Maps, w: string, s: Event, c: Request, d: Request, sid: nat)
    requires s.Deliver? && !c.Heartbeat? && d.Register?
  {
    && w in m.registry && w in m.sessions && w in m.states
    && m.states[w] == StoredState(s.request.state, s.now)
    && m.registry[w] == WorkerRecord(d.identity, c.capability, d.endpoint)
    && m.sessions[w].instanceId == d.instanceId && m.sessions[w].sessionId == sid
  }

  /** What the maps hold of worker `w`: the last of each part. */
  ghost predicate ShowsLast(rev: WorkerCapability -> string, events: seq<Event>, n: nat, w: string, s: nat, c: nat,
                            d: nat)
    requires EventsAgree(events) && n <= |events|
  {
    && LastOf(rev, events, n, w, STATE, s) && LastOf(rev, events, n, w, CAPABILITY, c)
    && LastOf(rev, events, n, w, IDENTITY, d)
    && HeldFrom(Upto(rev, events, n).maps, w, events[s], events[c].request, events[d].request,
                Upto(rev, events, d).issued)
  }

  ghost predicate Shown(rev: WorkerCapability -> string, events: seq<Event>, n: nat, w: string)
    requires EventsAgree(events) && n <= |events|
  {
    exists s, c, d :: ShowsLast(rev, events, n, w, s, c, d)
  }

  lemma {:induction false} AfterSnoc(rev: WorkerCapability -> string, g: World, events: seq<Event>, e: Event)
    requires WorldInv(rev, g) && EventsAgree(events) && (e.Deliver? ==> IdsAgree(e.request))
    ensures EventsAgree(events + [e])
    ensures After(rev, g, events + [e]) == Step(rev, After(rev, g, events), e)
    decreases |events|
  {
    if events == [] {
      assert events + [e] == [e] && [e][1..] == [];
      StepKeepsInv(rev, g, e);
      assert After(rev, Step(rev, g, e), []) == Step(rev, g, e);
    } else {
      StepKeepsInv(rev, g, events[0]);
      assert (events + [e])[1..] == events[1..] + [e];
      AfterSnoc(rev, Step(rev, g, events[0]), events[1..], e);
    }
  }

  lemma UptoNext(rev: WorkerCapability -> string, events: seq<Event>, n: nat)
    requires EventsAgree(events) && n < |events|
    ensures Upto(rev, events, n + 1) == Step(rev, Upto(rev, events, n), events[n])
  {
    AfterSnoc(rev, START, events[..n], events[n]);
    assert events[..n + 1] == events[..n] + [events[n]];
  }

  /** The last of a part stays the last unless event `n` sets it or restarts the Master. */
  lemma LastKept(rev: WorkerCapability -> string, events: seq<Event>, n: nat, w: string, part: Part, i: nat)
    requires EventsAgree(events) && n < |events| && LastOf(rev, events, n, w, part, i)
    requires !events[n].Restart?
    ensures LastOf(rev, events, n + 1, w, part, if SetsAt(rev, events, w, part, n) then n else i)
  {
    if !SetsAt(rev, events, w, part, n) {
      forall j | i < j < n + 1 ensures !events[j].Restart? && !SetsAt(rev, events, w, part, j) {
        assert j < n || j == n;
      }
    }
  }

  /** All but worker `w` are held as before. */
  predicate SameButFor(m: Maps, m': Maps, w: string)
  {
    m'.registry - {w} == m.registry - {w} && m'.sessions - {w} == m.sessions - {w} && m'.states - {w} == m.states - {w}
  }

  /** What an accepted request sets of its own worker. */
  predicate SetBy(m: Maps, m': Maps, r: Request, sid: nat, now: real)
  {
    var w := WorkerOf(r);
    && w in m'.registry && w in m'.sessions && w in m'.states
    && m'.states[w] == StoredState(r.state, now)
    && (r.Register? ==>
          && m'.registry[w] == WorkerRecord(r.identity, r.capability, r.endpoint)
          && m'.sessions[w].instanceId == r.instanceId && m'.sessions[w].sessionId == sid)
    && (!r.Register? ==>
          && w in m.registry && w in m.sessions
          && m'.registry[w] == m.registry[w].(capability := if r.Update? then r.capability
                                              else m.registry[w].capability)
          && m'.sessions[w].instanceId == m.sessions[w].instanceId
          && m'.sessions[w].sessionId == m.sessions[w].sessionId)
  }

  /** What any request does to the maps, accepted or not. */
  predicate Moved(m: Maps, m': Maps, reply: Reply, r: Request, sid: nat, now: real)
  {
    && (!Taken(reply) ==> m' == m) && SameButFor(m, m', WorkerOf(r))
    && (Taken(reply) ==> SetBy(m, m', r, sid, now))
  }

  lemma RegisterMoves(rev: WorkerCapability -> string, m: Maps, r: Request, sid: nat, now: real)
    requires Coherent(rev, m) && r.Register?
    ensures var (m', reply) := Handle(rev, m, r, sid, now); Moved(m, m', reply, r, sid, now)
  {
    RegisterEffect(rev, m, r, sid, now);
  }

  lemma HeartbeatMoves(rev: WorkerCapability -> string, m: Maps, r: Request, sid: nat, now: real)
    requires Coherent(rev, m) && r.Heartbeat?
    ensures var (m', reply) := Handle(rev, m, r, sid, now); Moved(m, m', reply, r, sid, now)
  {
    HeartbeatEffect(rev, m, r, sid, now);
  }

  lemma UpdateMoves(rev: WorkerCapability -> string, m: Maps, r: Request, sid: nat, now: real)
    requires Coherent(rev, m) && r.Update?
    ensures var (m', reply) := Handle(rev, m, r, sid, now); Moved(m, m', reply, r, sid, now)
  {
    UpdateEffect(rev, m, r, sid, now);
  }

  /** The maps after one more request, in the request's own terms. */
  lemma OneMore(rev: WorkerCapability -> string, g: World, r: Request, now: real)
    requires WorldInv(rev, g) && IdsAgree(r)
    ensures var (m', reply) := Handle(rev, g.maps, r, g.issued, now);
            Moved(g.maps, m', reply, r, g.issued, now)
  {
    match r
    case Register(_, _, _, _, _) => RegisterMoves(rev, g.maps, r, g.issued, now);
    case Heartbeat(_, _, _, _, _, _) => HeartbeatMoves(rev, g.maps, r, g.issued, now);
    case Update(_, _, _, _, _) => UpdateMoves(rev, g.maps, r, g.issued, now);
  }

  /** One more request of any worker, in terms of what is held of `w`. */
  lemma HeldKept(rev: WorkerCapability -> string, g: World, e: Event, w: string, s: Event, c: Request, d: Request,
                 sid: nat)
    requires WorldInv(rev, g) && e.Deliver? && IdsAgree(e.request)
    requires s.Deliver? && !c.Heartbeat? && d.Register? && HeldFrom(g.maps, w, s, c, d, sid)
    ensures var (m', reply) := Handle(rev, g.maps, e.request, g.issued, e.now);
            var sets := Taken(reply) && WorkerOf(e.request) == w;
            HeldFrom(m', w, if sets then e else s, if sets && Sets(e.request, CAPABILITY) then e.request else c,
                     if sets && Sets(e.request, IDENTITY) then e.request else d,
                     if sets && Sets(e.request, IDENTITY) then g.issued else sid)
  {
    OneMore(rev, g, e.request, e.now);
  }

  /** A worker that stays in the maps keeps showing the last of each part. */
  lemma ShownKept(rev: WorkerCapability -> string, events: seq<Event>, n: nat, w: string, s: nat, c: nat, d: nat)
    requires EventsAgree(events) && n < |events| && events[n].Deliver? && ShowsLast(rev, events, n, w, s, c, d)
    ensures ShowsLast(rev, events, n + 1, w,
                      if SetsAt(rev, events, w, STATE, n) then n else s,
                      if SetsAt(rev, events, w, CAPABILITY, n) then n else c,
                      if SetsAt(rev, events, w, IDENTITY, n) then n else d)
  {
    UptoNext(rev, events, n);
    HeldKept(rev, Upto(rev, events, n), events[n], w, events[s], events[c].request, events[d].request,
             Upto(rev, events, d).issued);
    LastKept(rev, events, n, w, STATE, s);
    LastKept(rev, events, n, w, CAPABILITY, c);
    LastKept(rev, events, n, w, IDENTITY, d);
  }

  lemma ShownFirst(rev: WorkerCapability -> string, events: seq<Event>, n: nat, w: string)
    requires EventsAgree(events) && n < |events| && events[n].Deliver?
    requires w !in Upto(rev, events, n).maps.registry && w in Upto(rev, events, n + 1).maps.registry
    ensures ShowsLast(rev, events, n + 1, w, n, n, n)
  {
    var g := Upto(rev, events, n);
    UptoNext(rev, events, n);
    OneMore(rev, g, events[n].request, events[n].now);
  }

  /** In every run the Master knows exactly the workers with an accepted registration since its last restart, and
      holds of each the state and receipt time of its last accepted request, the capability of its last accepted
      registration or update, and the identity, endpoint, instance and session of its last registration. */
  lemma {:induction false} MapsShowLast(rev: WorkerCapability -> string, events: seq<Event>, n: nat, w: string)
    requires EventsAgree(events) && n <= |events|
    ensures w in Upto(rev, events, n).maps.registry <==> Shown(rev, events, n, w)
    ensures Shown(rev, events, n, w) <==> Registered(rev, events, n, w)
    decreases n
  {
    if n > 0 {
      MapsShowLast(rev, events, n - 1, w);
      UptoNext(rev, events, n - 1);
      if events[n - 1].Deliver? {
        KnownStep(rev, events, n - 1, w);
      }
    }
  }

  lemma KnownStep(rev: WorkerCapability -> string, events: seq<Event>, n: nat, w: string)
    requires EventsAgree(events) && n < |events| && events[n].Deliver?
    requires w in Upto(rev, events, n).maps.registry <==> Shown(rev, events, n, w)
    requires Shown(rev, events, n, w) <==> Registered(rev, events, n, w)
    ensures w in Upto(rev, events, n + 1).maps.registry <==> Shown(rev, events, n + 1, w)
    ensures Shown(rev, events, n + 1, w) <==> Registered(rev, events, n + 1, w)
  {
    if w in Upto(rev, events, n).maps.registry {
      var s, c, d :| ShowsLast(rev, events, n, w, s, c, d);
      ShownKept(rev, events, n, w, s, c, d);
    } else if w in Upto(rev, events, n + 1).maps.registry {
      ShownFirst(rev, events, n, w);
    } else {
      StaysUnknown(rev, events, n, w);
    }
  }

  lemma StaysUnknown(rev: WorkerCapability -> string, events: seq<Event>, n: nat, w: string)
    requires EventsAgree(events) && n < |events| && events[n].Deliver?
    requires !Registered(rev, events, n, w) && w !in Upto(rev, events, n + 1).maps.registry
    ensures !Registered(rev, events, n + 1, w)
  {
    UptoNext(rev, events, n);
    OneMore(rev, Upto(rev, events, n), events[n].request, events[n].now);
    if Registered(rev, events, n + 1, w) {
      var d: nat :| LastOf(rev, events, n + 1, w, IDENTITY, d);
      if d < n { assert LastOf(rev, events, n, w, IDENTITY, d); }
    }
  }

  /** A snapshot entry in terms of the requests that were accepted. */
  ghost predicate EntryIs(rev: WorkerCapability -> string, events: seq<Event>, entry: WorkerSnapshot, s: nat, c: nat,
                          d: nat)
    requires EventsAgree(events)
  {
    var w, n := entry.identity.workerId, |events|;
    && LastOf(rev, events, n, w, STATE, s) && LastOf(rev, events, n, w, CAPABILITY, c)
    && LastOf(rev, events, n, w, IDENTITY, d)
    && entry.state == events[s].request.state && entry.lastSeen == events[s].now
    && entry.capability == events[c].request.capability
    && entry.identity == events[d].request.identity
    && entry.sessionId == Some(Upto(rev, events, d).issued)
  }

  ghost predicate EntryShows(rev: WorkerCapability -> string, events: seq<Event>, entry: WorkerSnapshot)
    requires EventsAgree(events)
  {
    exists s, c, d :: EntryIs(rev, events, entry, s, c, d)
  }

  lemma EntryFromMaps(rev: WorkerCapability -> string, events: seq<Event>, w: string, entry: WorkerSnapshot)
    requires EventsAgree(events) && Depicts(Upto(rev, events, |events|).maps, w, entry)
    ensures entry.identity.workerId == w && EntryShows(rev, events, entry)
  {
    DepictedId(rev, Upto(rev, events, |events|).maps, w, entry);
    MapsShowLast(rev, events, |events|, w);
    var s, c, d :| ShowsLast(rev, events, |events|, w, s, c, d);
    assert EntryIs(rev, events, entry, s, c, d);
  }

  predicate HasEntry(entries: seq<WorkerSnapshot>, w: string)
  {
    exists k :: 0 <= k < |entries| && entries[k].identity.workerId == w
  }

  lemma EntriesOf(entries: seq<WorkerSnapshot>, ids: seq<string>, w: string)
    requires |entries| == |ids| && forall k :: 0 <= k < |ids| ==> entries[k].identity.workerId == ids[k]
    ensures HasEntry(entries, w) <==> w in ids
  {
    if w in ids {
      var k :| 0 <= k < |ids| && ids[k] == w;
      assert entries[k].identity.workerId == w;
    }
  }

  /** In every run the snapshot has an entry for exactly the workers with an accepted registration since the last
      restart, and each entry carries the state and receipt time of the worker's last accepted request, the capability
      of its last accepted registration or update, and the identity and session of its last registration. */
  lemma SnapshotShowsLast(rev: WorkerCapability -> string, events: seq<Event>)
    requires EventsAgree(events)
    ensures var r := BuildSnapshot(After(rev, START, events).maps);
            && r.Ok?
            && (forall w :: HasEntry(r.value, w) <==> Registered(rev, events, |events|, w))
            && forall k :: 0 <= k < |r.value| ==> EntryShows(rev, events, r.value[k])
  {
    var m := Upto(rev, events, |events|).maps;
    assert events[..|events|] == events;
    SnapshotTotal(rev, m);
    var ids, entries := SortedIds(m.registry.Keys), BuildSnapshot(m).value;
    forall k | 0 <= k < |entries|
      ensures entries[k].identity.workerId == ids[k] && EntryShows(rev, events, entries[k])
    {
      EntryFromMaps(rev, events, ids[k], entries[k]);
    }
    forall w ensures HasEntry(entries, w) <==> Registered(rev, events, |events|, w) {
      EntriesOf(entries, ids, w);
      MapsShowLast(rev, events, |events|, w);
    }
  }

  // ---------------------------------------------------------------------------
  // When a snapshot could not be built
  // ---------------------------------------------------------------------------

  /** The record cannot be shown: its state is missing, another worker's, or does not fit its capability. */
  predicate Unshowable(m: Maps, record: WorkerRecord)
  {
    var w := record.identity.workerId;
    w in m.states ==> m.states[w].state.workerId != w || !StateConsistent(m.states[w].state, record.capability)
  }

  lemma {:induction false} BuildWorkersIff(m: Maps, ids: seq<string>)
    requires forall i :: 0 <= i < |ids| ==> ids[i] in m.registry
    ensures BuildWorkers(m, ids).Raised? <==> exists i :: 0 <= i < |ids| && Unshowable(m, m.registry[ids[i]])
    ensures BuildWorkers(m, ids).Ok? ==>
              && |BuildWorkers(m, ids).value| == |ids|
              && forall i :: 0 <= i < |ids| ==> BuildWorkers(m, ids).value[i].identity == m.registry[ids[i]].identity
  {
    if ids != [] {
      BuildWorkersIff(m, ids[1..]);
      if i :| 0 <= i < |ids| && Unshowable(m, m.registry[ids[i]]) {
        if i > 0 { assert ids[1..][i - 1] == ids[i]; }
      }
    }
  }

  /** Two records carry one worker id. */
  predicate Shared(m: Maps, v: string, w: string)
  {
    v in m.registry && w in m.registry && v != w && m.registry[v].identity.workerId == m.registry[w].identity.workerId
  }

  lemma DistinctIff(m: Maps, ids: seq<string>, entries: seq<WorkerSnapshot>)
    requires StrictlyAscending(ids) && (forall w :: w in ids <==> w in m.registry) && |entries| == |ids|
    requires forall i :: 0 <= i < |ids| ==> entries[i].identity == m.registry[ids[i]].identity
    ensures DistinctWorkers(entries) <==> !exists v, w :: Shared(m, v, w)
  {
    if i, j :| 0 <= i < j < |ids| && entries[i].identity.workerId == entries[j].identity.workerId {
      assert StrLt(ids[i], ids[j]);
      assert Shared(m, ids[i], ids[j]);
    }
    if v, w :| Shared(m, v, w) {
      var i :| 0 <= i < |ids| && ids[i] == v;
      var j :| 0 <= j < |ids| && ids[j] == w;
      assert entries[i].identity.workerId == entries[j].identity.workerId;
    }
  }

  /** On any maps, coherent or not, the snapshot raises exactly if some record cannot be shown or two records carry one
      worker id. */
  lemma SnapshotRaisesIff(m: Maps)
    ensures BuildSnapshot(m).Raised? <==>
            (exists w :: w in m.registry && Unshowable(m, m.registry[w])) || (exists v, w :: Shared(m, v, w))
  {
    var ids := SortedIds(m.registry.Keys);
    BuildWorkersIff(m, ids);
    if w :| w in m.registry && Unshowable(m, m.registry[w]) {
      var i :| 0 <= i < |ids| && ids[i] == w;
    }
    if BuildWorkers(m, ids).Ok? { DistinctIff(m, ids, BuildWorkers(m, ids).value); }
  }
}
