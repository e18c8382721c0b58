/**
 The Master as the source builds it: three in-memory components and a service whose handlers check,
 then update them in place.  Each handler is proved to do exactly what `Master.Handle` says.
 */
module MasterService {
  import opened Options
  import opened Orders
  import opened Capability
  import opened Master

  class WorkerRegistry {
    var records: map<string, WorkerRecord>

    constructor ()
      ensures records == map[]
    {
      records := map[];
    }

    method Upsert(identity: Identity, capability: WorkerCapability, endpoint: Option<string>)
      returns (record: WorkerRecord)
      modifies this
      ensures record == WorkerRecord(identity, capability, endpoint)
      ensures records == old(records)[identity.workerId := record]
    {
      record := WorkerRecord(identity, capability, endpoint);
      records := records[record.identity.workerId := record];
    }

    /** All workers, ascending by id. */
    method ListWorkers() returns (workers: seq<WorkerRecord>)
      ensures |workers| == |records|
      ensures forall i :: 0 <= i < |workers| ==>
        SortedIds(records.Keys)[i] in records && workers[i] == records[SortedIds(records.Keys)[i]]
    {
      var ids := SortedIds(records.Keys);
      workers := [];
      for i := 0 to |ids|
        invariant |workers| == i
        invariant forall j :: 0 <= j < i ==> ids[j] in records && workers[j] == records[ids[j]]
      {
        assert ids[i] in ids;
        workers := workers + [records[ids[i]]];
      }
    }
  }

  class SessionManager {
    var sessions: map<string, SessionInfo>

    /** Ids handed out so far are the numbers below. */
    var issued: nat

    ghost predicate NumbersBelow()
      reads this
    {
      forall w :: w in sessions ==> sessions[w].sessionId < issued
    }

    constructor ()
      ensures sessions == map[] && issued == 0
    {
      sessions, issued := map[], 0;
    }

    /** A fresh id, different from every one handed out before, with nothing accepted under it yet. */
    method OpenSession(workerId: string, instanceId: string) returns (info: SessionInfo)
      requires NumbersBelow()
      modifies this
      ensures info == SessionInfo(instanceId, old(issued), 0) && issued == old(issued) + 1 && NumbersBelow()
      ensures forall w :: w in old(sessions) ==> old(sessions)[w].sessionId != info.sessionId
      ensures sessions == old(sessions)[workerId := info]
    {
      info := SessionInfo(instanceId, issued, 0);
      issued := issued + 1;
      sessions := sessions[workerId := info];
    }

    /** Raises, changing nothing, on an unknown worker or a sequence that does not advance. */
    method RecordAcceptedSequence(workerId: string, sequence: int) returns (raised: bool)
      modifies this`sessions
      ensures raised <==> workerId !in old(sessions) || sequence <= old(sessions)[workerId].lastAccepted
      ensures raised ==> sessions == old(sessions)
      ensures !raised ==>
        sessions == old(sessions)[workerId := old(sessions)[workerId].(lastAccepted := sequence)]
    {
      if workerId !in sessions {
        return true;
      }
      var info := sessions[workerId];
      if sequence <= info.lastAccepted {
        return true;
      }
      sessions := sessions[workerId := info.(lastAccepted := sequence)];
      raised := false;
    }
  }

  class StateStore {
    var entries: map<string, StoredState>

    constructor ()
      ensures entries == map[]
    {
      entries := map[];
    }

    method Record(workerId: string, state: WorkerState, now: real) returns (raised: bool)
      modifies this
      ensures raised <==> state.workerId != workerId
      ensures entries == if raised then old(entries) else old(entries)[workerId := StoredState(state, now)]
    {
      if state.workerId != workerId {
        return true;
      }
      entries := entries[workerId := StoredState(state, now)];
      raised := false;
    }
  }

  class Service {
    const registry: WorkerRegistry
    const sessions: SessionManager
    const states: StateStore
    const rev: WorkerCapability -> string

    ghost function View(): Maps
      reads registry, sessions, states
    {
      Maps(registry.records, sessions.sessions, states.entries)
    }

    ghost predicate Valid()
      reads registry, sessions, states
    {
      Coherent(rev, View()) && sessions.NumbersBelow()
    }

    constructor (rev: WorkerCapability -> string)
      ensures Valid() && View() == NO_WORKERS && this.rev == rev
      ensures fresh(registry) && fresh(sessions) && fresh(states)
    {
      this.rev := rev;
      registry := new WorkerRegistry();
      sessions := new SessionManager();
      states := new StateStore();
    }

    method RegisterWorker(r: Request, now: real) returns (reply: Reply)
      requires Valid() && r.Register? && IdsAgree(r)
      modifies registry, sessions, states
      ensures View() == OnRegister(rev, old(View()), r, old(sessions.issued), now).0
      ensures reply == OnRegister(rev, old(View()), r, old(sessions.issued), now).1
      ensures sessions.issued >= old(sessions.issued) &&
              (reply.Granted? ==> old(sessions.issued) <= reply.sessionId < sessions.issued)
      ensures Valid()
    {
      ghost var before := View();
      RegisterKeepsCoherence(rev, before, r, sessions.issued, now);
      if r.capability.revision != rev(r.capability) || !StateConsistent(r.state, r.capability) {
        return Invalid;
      }
      var workerId := r.identity.workerId;
      var _ := registry.Upsert(r.identity, r.capability, r.endpoint);
      var info := sessions.OpenSession(workerId, r.instanceId);
      var raised := states.Record(workerId, r.state, now);
      reply := Granted(info.sessionId);
    }

    method ApplyHeartbeat(r: Request, now: real) returns (reply: Reply)
      requires View().registry.Keys == View().sessions.Keys && r.Heartbeat? && IdsAgree(r)
      modifies registry, sessions, states
      ensures View() == OnHeartbeat(old(View()), r, now).0
      ensures reply == OnHeartbeat(old(View()), r, now).1
      ensures sessions.issued == old(sessions.issued) && (old(sessions.NumbersBelow()) ==> sessions.NumbersBelow())
    {
      var refused := CheckHeartbeat(sessions.sessions, r.workerId, r.instanceId, r.sessionId, r.sequence);
      if refused.None? {
        refused := CheckRevision(registry.records, r.workerId, r.revision);
      }
      if refused.Some? {
        return Rejected(refused.value);
      }
      if !StateConsistent(r.state, registry.records[r.workerId].capability) {
        return Invalid;
      }
      var raised := sessions.RecordAcceptedSequence(r.workerId, r.sequence);
      raised := states.Record(r.workerId, r.state, now);
      reply := Accepted;
    }

    method HeartbeatWorker(r: Request, now: real) returns (reply: Reply)
      requires Valid() && r.Heartbeat? && IdsAgree(r)
      modifies registry, sessions, states
      ensures View() == OnHeartbeat(old(View()), r, now).0
      ensures reply == OnHeartbeat(old(View()), r, now).1
      ensures Valid()
    {
      ghost var before := View();
      reply := ApplyHeartbeat(r, now);
      HeartbeatKeepsCoherence(rev, before, r, now);
    }

    method ApplyUpdate(r: Request, now: real) returns (reply: Reply)
      requires View().registry.Keys == View().sessions.Keys && r.Update? && IdsAgree(r)
      modifies registry, sessions, states
      ensures View() == OnUpdate(rev, old(View()), r, now).0
      ensures reply == OnUpdate(rev, old(View()), r, now).1
      ensures sessions.issued == old(sessions.issued) && sessions.sessions == old(sessions.sessions)
    {
      var refused := CheckSession(sessions.sessions, r.workerId, r.instanceId, r.sessionId);
      if refused.Some? {
        return Rejected(refused.value);
      }
      if r.capability.revision != rev(r.capability) || !StateConsistent(r.state, r.capability) {
        return Invalid;
      }
      var record := registry.records[r.workerId];
      var _ := registry.Upsert(record.identity, r.capability, record.endpoint);
      var raised := states.Record(r.workerId, r.state, now);
      reply := Accepted;
    }

    method UpdateCapability(r: Request, now: real) returns (reply: Reply)
      requires Valid() && r.Update? && IdsAgree(r)
      modifies registry, sessions, states
      ensures View() == OnUpdate(rev, old(View()), r, now).0
      ensures reply == OnUpdate(rev, old(View()), r, now).1
      ensures Valid()
    {
      ghost var before := View();
      reply := ApplyUpdate(r, now);
      UpdateKeepsCoherence(rev, before, r, now);
    }

    /** `build_snapshot`: in every state the handlers leave, one faithful entry per worker. */
    method BuildClusterSnapshot() returns (workers: seq<WorkerSnapshot>)
      requires Valid()
      ensures BuildSnapshot(View()) == Ok(workers)
      ensures |workers| == |registry.records|
      ensures forall i :: 0 <= i < |workers| ==>
        Depicts(View(), SortedIds(registry.records.Keys)[i], workers[i])
    {
      SnapshotTotal(rev, View());
      var snapshot := BuildSnapshot(Maps(registry.records, sessions.sessions, states.entries));
      workers := snapshot.value;
    }
  }
}
