/**
 What an agent's round trips achieve when nothing comes in between: after each of them the Master shows what the
 agent has just inspected, and the agent goes on
 (src/edgeshard/control/worker/master_client.py, src/edgeshard/control/master/service.py).
 */
module AgentProgress {
  import opened Options
  import opened Capability
  import opened Master
  import opened MasterHistory
  import opened ControlProtocol

  /** The actions can be taken one after the other from `y`, and end in `y'`. */
  ghost predicate Leads(rev: WorkerCapability -> string, y: System, acts: seq<Action>, y': System)
    decreases |acts|
  {
    if acts == [] then y' == y
    else Enabled(rev, y, acts[0]) && Leads(rev, Apply(rev, y, acts[0]), acts[1..], y')
  }

  lemma LeadsThrough(rev: WorkerCapability -> string, y: System, act: Action, acts: seq<Action>, y': System)
    requires Enabled(rev, y, act) && Leads(rev, Apply(rev, y, act), acts, y')
    ensures Leads(rev, y, [act] + acts, y')
  {
    assert ([act] + acts)[1..] == acts;
  }

  /** The Master takes call `c` of agent `a`, and the agent picks up the answer. */
  lemma Answered(rev: WorkerCapability -> string, y: System, a: nat, c: nat, now: real) returns (y': System)
    requires y.world.maps.registry.Keys == y.world.maps.sessions.Keys
    requires a in y.agents && Call(y, a) == Some(c) && c in y.net
    ensures Leads(rev, y, [Process(c, now), Receive(a)], y')
    ensures var (m, reply) := Handle(rev, y.world.maps, y.net[c], y.world.issued, now);
            var g := OnReply(y.agents[a], reply, y.calls);
            && y'.world.maps == m && y'.agents == y.agents[a := g.agent]
            && (g.sends.Some? ==> y.calls in y'.net && y'.net[y.calls] == g.sends.value)
  {
    var y1 := Apply(rev, y, Process(c, now));
    y' := Apply(rev, y1, Receive(a));
    LeadsThrough(rev, y1, Receive(a), [], y');
    LeadsThrough(rev, y, Process(c, now), [Receive(a)], y');
    assert [Process(c, now)] + [Receive(a)] == [Process(c, now), Receive(a)];
    assert [Receive(a)] + [] == [Receive(a)];
  }

  /** A segment that sends its request as the next call. */
  lemma SendsCall(rev: WorkerCapability -> string, y: System, a: nat, act: Action) returns (y1: System)
    requires a in y.agents && Enabled(rev, y, act) && (act.SendRegister? || act.Inspect?) && act.a == a
    ensures y1 == Apply(rev, y, act)
    ensures var sent := SegmentOf(rev, y, act);
            && sent.sends.Some? && Awaited(sent.agent.phase) == Some(y.calls)
            && y1.agents == y.agents[a := sent.agent] && y1.world == y.world && y1.calls == y.calls + 1
            && y.calls in y1.net && y1.net[y.calls] == sent.sends.value
  {
    y1 := Apply(rev, y, act);
  }

  /** A segment that sends, the Master's answer, and the segment that takes it. */
  lemma RoundTrip(rev: WorkerCapability -> string, y: System, a: nat, act: Action, now: real) returns (y': System)
    requires y.world.maps.registry.Keys == y.world.maps.sessions.Keys && a in y.agents && Enabled(rev, y, act)
    requires (act.SendRegister? || act.Inspect?) && act.a == a
    ensures Leads(rev, y, [act, Process(y.calls, now), Receive(a)], y')
    ensures var sent := SegmentOf(rev, y, act);
            && sent.sends.Some? && Awaited(sent.agent.phase).Some?
            && var (m, reply) := Handle(rev, y.world.maps, sent.sends.value, y.world.issued, now);
               var g := OnReply(sent.agent, reply, y.calls + 1);
               && y'.world.maps == m && y'.agents == y.agents[a := g.agent]
               && (g.sends.Some? ==> y.calls + 1 in y'.net && y'.net[y.calls + 1] == g.sends.value)
  {
    var y1 := SendsCall(rev, y, a, act);
    y' := Answered(rev, y1, a, y.calls, now);
    ThreeLead(rev, y, act, Process(y.calls, now), Receive(a), y');
  }

  lemma ThreeLead(rev: WorkerCapability -> string, y: System, act: Action, second: Action, third: Action, y': System)
    requires Enabled(rev, y, act) && Leads(rev, Apply(rev, y, act), [second, third], y')
    ensures Leads(rev, y, [act, second, third], y')
  {
    LeadsThrough(rev, y, act, [second, third], y');
    assert [act] + [second, third] == [act, second, third];
  }

  /** An idle agent that registers, undisturbed, serves the fresh session, and the Master shows its inspection. */
  lemma RegistrationGetsThrough(rev: WorkerCapability -> string, y: System, a: nat, i: Inspection, now: real)
    returns (y': System)
    requires Fingerprint(rev) && Inv(rev, y) && a in y.agents && y.agents[a].phase.Idle?
    requires SelfConsistent(rev, y.agents[a].identity.workerId, i)
    ensures Leads(rev, y, [SendRegister(a, i), Process(y.calls, now), Receive(a)], y')
    ensures var agent, m, m' := y.agents[a], y.world.maps, y'.world.maps;
            var w, sid := agent.identity.workerId, y.world.issued;
            && y'.agents == y.agents[a := agent.(phase := Serving(Session(sid, i.capability.revision, 1)),
                                                 registrations := agent.registrations + 1)]
            && m'.registry == m.registry[w := WorkerRecord(agent.identity, i.capability, agent.endpoint)]
            && m'.sessions == m.sessions[w := SessionInfo(agent.instanceId, sid, 0)]
            && m'.states == m.states[w := StoredState(i.state, now)]
  {
    RegisterEffect(rev, y.world.maps, RegisterRequest(y.agents[a], i), y.world.issued, now);
    y' := RoundTrip(rev, y, a, SendRegister(a, i), now);
  }

  // ---------------------------------------------------------------------------
  // Heartbeats and changes under a current session
  // ---------------------------------------------------------------------------

  /** Session `s` of the agent is the worker's current one at the Master, and both know the same of it. */
  ghost predicate CurrentIn(m: Maps, agent: Agent, s: Session)
  {
    var w := agent.identity.workerId;
    && w in m.sessions && m.sessions[w].sessionId == s.sessionId
    && Agrees(agent, s.sessionId, Find(m.sessions, w), StoredRevision(m, w), s.acknowledged, s.next)
  }

  lemma HeartbeatTaken(rev: WorkerCapability -> string, m: Maps, agent: Agent, s: Session, i: Inspection, sid: nat,
                       now: real)
    requires Fingerprint(rev) && Coherent(rev, m) && SelfConsistent(rev, agent.identity.workerId, i)
    requires CurrentIn(m, agent, s) && s.acknowledged == i.capability.revision
    ensures var w := agent.identity.workerId;
            Handle(rev, m, HeartbeatRequest(agent, s, i), sid, now) ==
            (Maps(m.registry, m.sessions[w := SessionInfo(agent.instanceId, s.sessionId, s.next)],
                  m.states[w := StoredState(i.state, now)]), Accepted)
  {
    var w := agent.identity.workerId;
    assert CoherentEntry(rev, w, m.registry[w], m.states[w].state);
    assert rev(i.capability) == rev(m.registry[w].capability);
    assert StateConsistent(i.state, m.registry[w].capability);
    HeartbeatEffect(rev, m, HeartbeatRequest(agent, s, i), sid, now);
  }

  lemma UpdateTaken(rev: WorkerCapability -> string, m: Maps, agent: Agent, s: Session, i: Inspection, sid: nat,
                    now: real)
    requires Coherent(rev, m) && SelfConsistent(rev, agent.identity.workerId, i) && CurrentIn(m, agent, s)
    ensures var w := agent.identity.workerId;
            && w in m.registry
            && Handle(rev, m, UpdateRequest(agent, s, i), sid, now) ==
               (Maps(m.registry[w := m.registry[w].(capability := i.capability)], m.sessions,
                     m.states[w := StoredState(i.state, now)]), Accepted)
  {
    UpdateEffect(rev, m, UpdateRequest(agent, s, i), sid, now);
  }

  /** The agent serves the worker's current session. */
  ghost predicate ServesCurrent(y: System, a: nat)
  {
    && a in y.agents && y.agents[a].phase.Serving? && y.agents[a].identity.workerId in y.world.maps.sessions
    && y.world.maps.sessions[y.agents[a].identity.workerId].sessionId == y.agents[a].phase.session.sessionId
  }

  lemma ServesAgreed(rev: WorkerCapability -> string, y: System, a: nat)
    requires Inv(rev, y) && ServesCurrent(y, a)
    ensures CurrentIn(y.world.maps, y.agents[a], y.agents[a].phase.session)
  {
    assert OkAt(rev, y, a);
  }

  /** An inspection under the acknowledged revision becomes one heartbeat: it is accepted, the Master shows the new
      state at once, and nothing else of the Master has changed but the accepted sequence. */
  lemma HeartbeatGetsThrough(rev: WorkerCapability -> string, y: System, a: nat, i: Inspection, now: real)
    returns (y': System)
    requires Fingerprint(rev) && Inv(rev, y) && ServesCurrent(y, a)
    requires SelfConsistent(rev, y.agents[a].identity.workerId, i)
    requires i.capability.revision == y.agents[a].phase.session.acknowledged
    ensures Leads(rev, y, [Inspect(a, i), Process(y.calls, now), Receive(a)], y')
    ensures var agent, m, m' := y.agents[a], y.world.maps, y'.world.maps;
            var w, s := agent.identity.workerId, agent.phase.session;
            && y'.agents == y.agents[a := agent.(phase := Serving(s.(next := s.next + 1)))]
            && m'.registry == m.registry
            && m'.sessions == m.sessions[w := SessionInfo(agent.instanceId, s.sessionId, s.next)]
            && m'.states == m.states[w := StoredState(i.state, now)]
  {
    ServesAgreed(rev, y, a);
    HeartbeatTaken(rev, y.world.maps, y.agents[a], y.agents[a].phase.session, i, y.world.issued, now);
    y' := RoundTrip(rev, y, a, Inspect(a, i), now);
  }

  /** An inspection under another revision is first retransmitted whole: it is accepted and acknowledged, the Master
      shows the new capability with the new state, and a heartbeat under the new revision follows. */
  lemma ChangeGetsThrough(rev: WorkerCapability -> string, y: System, a: nat, i: Inspection, now: real)
    returns (y': System)
    requires Fingerprint(rev) && Inv(rev, y) && ServesCurrent(y, a)
    requires SelfConsistent(rev, y.agents[a].identity.workerId, i)
    requires i.capability.revision != y.agents[a].phase.session.acknowledged
    ensures Leads(rev, y, [Inspect(a, i), Process(y.calls, now), Receive(a)], y')
    ensures var agent, m, m' := y.agents[a], y.world.maps, y'.world.maps;
            var w, s := agent.identity.workerId, agent.phase.session;
            && w in m.registry
            && y'.agents == y.agents[a := agent.(phase := Beating(s.(acknowledged := i.capability.revision),
                                                                  y.calls + 1, i))]
            && y.calls + 1 in y'.net
            && y'.net[y.calls + 1] == Heartbeat(w, agent.instanceId, s.sessionId, s.next, i.capability.revision,
                                                i.state)
            && m'.registry == m.registry[w := m.registry[w].(capability := i.capability)]
            && m'.sessions == m.sessions
            && m'.states == m.states[w := StoredState(i.state, now)]
  {
    ServesAgreed(rev, y, a);
    UpdateTaken(rev, y.world.maps, y.agents[a], y.agents[a].phase.session, i, y.world.issued, now);
    y' := RoundTrip(rev, y, a, Inspect(a, i), now);
  }

  /** A stopped agent is stopped, one that gives up its call is idle again, and what is lost never arrives. */
  lemma LeavesOff(rev: WorkerCapability -> string, y: System, a: nat, c: nat)
    ensures Enabled(rev, y, Stop(a)) ==>
              var y' := Apply(rev, y, Stop(a));
              y'.agents == y.agents[a := y.agents[a].(phase := Stopped)] && y'.net == y.net && y'.world == y.world
    ensures Enabled(rev, y, GiveUp(a)) ==>
              var y' := Apply(rev, y, GiveUp(a));
              y'.agents == y.agents[a := y.agents[a].(phase := Idle)] && y'.net == y.net && y'.world == y.world
    ensures Enabled(rev, y, Lose(c)) ==>
              var y' := Apply(rev, y, Lose(c));
              c !in y'.net && y'.agents == y.agents && y'.world == y.world && y'.replies == y.replies
  {
  }

  /** Whoever learns that it is unknown or that it must register again does so; whoever is superseded stops. */
  lemma RefusalLeadsTo(a: Agent, reason: Reason, call: nat)
    requires a.phase.Updating? || a.phase.Beating?
    ensures var g := OnReply(a, Rejected(reason), call);
            && g.sends.None? && g.agent == a.(phase := g.agent.phase)
            && (g.agent.phase.Idle? <==> reason == UNKNOWN_WORKER || reason == REREGISTER_REQUIRED)
            && (g.agent.phase.Stopped? <==> reason == STALE_SESSION)
            && (g.agent.phase.Failed? <==> reason == INSTANCE_MISMATCH || reason == OUT_OF_ORDER)
  {
  }
}
