/**
 When an agent is told that it was superseded, and so stops
 (src/edgeshard/control/worker/master_client.py with src/edgeshard/control/master/sessions.py).
 */
module AgentStops {
  import opened Options
  import opened Capability
  import opened Master
  import opened ControlProtocol

  function WorkerIdOf(y: System, a: nat): string
    requires a in y.agents
  {
    y.agents[a].identity.workerId
  }

  /** The Master knows the worker under another session than the one the agent claims. */
  ghost predicate Displaced(y: System, a: nat)
  {
    && a in y.agents && Claim(y, a).Some?
    && WorkerIdOf(y, a) in y.world.maps.sessions
    && y.world.maps.sessions[WorkerIdOf(y, a)].sessionId != Claim(y, a).value
  }

  /** The Master takes a registration of the agent's worker while the agent claims a session: another agent's, or one
      the agent itself had given up on. */
  ghost predicate Rivals(rev: WorkerCapability -> string, y: System, act: Action, a: nat)
  {
    && a in y.agents && Claim(y, a).Some? && act.Process? && act.call in y.net && Enabled(rev, y, act)
    && y.net[act.call].Register? && WorkerOf(y.net[act.call]) == WorkerIdOf(y, a)
    && Handle(rev, y.world.maps, y.net[act.call], y.world.issued, act.now).1.Granted?
  }

  /** How a Process step moves the session of the worker `w`. */
  lemma ProcessMoves(rev: WorkerCapability -> string, m: Maps, r: Request, issued: nat, now: real, w: string)
    requires m.registry.Keys == m.sessions.Keys
    ensures var (m', reply) := Handle(rev, m, r, issued, now);
            if r.Register? && WorkerOf(r) == w && reply.Granted? then w in m'.sessions &&
               m'.sessions[w].sessionId == issued
            else (w in m'.sessions <==> w in m.sessions) &&
                 (w in m.sessions ==> m'.sessions[w].sessionId == m.sessions[w].sessionId)
  {
  }

  lemma ProcessDisplaces(rev: WorkerCapability -> string, y: System, act: Action, a: nat)
    requires Inv(rev, y) && act.Process? && Enabled(rev, y, act) && a in y.agents
    ensures var y' := Apply(rev, y, act);
            && a in y'.agents
            && (Claim(y', a) == Claim(y, a) ==> (Displaced(y', a) <==> Rivals(rev, y, act, a) || Displaced(y, a)))
            && (Claim(y', a) != Claim(y, a) ==> !Displaced(y', a))
  {
    var w := WorkerIdOf(y, a);
    ProcessMoves(rev, y.world.maps, y.net[act.call], y.world.issued, act.now, w);
    ClaimAfterProcess(rev, y, act.call, act.now, a);
    ClaimBelow(rev, y, a);
    if Call(y, a) == Some(act.call) { OwnCall(rev, y, act, a); }
  }

  lemma ClaimBelow(rev: WorkerCapability -> string, y: System, a: nat)
    requires Inv(rev, y) && a in y.agents
    ensures Claim(y, a).Some? ==> Claim(y, a).value < y.world.issued
  {
  }

  /** The agent's own awaited call: a registration while it claims nothing, or a request under its claim. */
  lemma OwnCall(rev: WorkerCapability -> string, y: System, act: Action, a: nat)
    requires Inv(rev, y) && act.Process? && Enabled(rev, y, act) && a in y.agents && Call(y, a) == Some(act.call)
    ensures WorkerOf(y.net[act.call]) == WorkerIdOf(y, a)
    ensures y.net[act.call].Register? <==> Claim(y, a).None?
    ensures Claim(y, a).None? ==>
      var y' := Apply(rev, y, act); Claim(y', a) == Some(y.world.issued) && !Displaced(y', a)
    ensures Claim(y, a).Some? ==> SessionOf(y.net[act.call]) == Claim(y, a)
  {
    assert OkAt(rev, y, a);
    ReplyNotYet(rev, y, act.call);
  }

  lemma ReplyNotYet(rev: WorkerCapability -> string, y: System, c: nat)
    requires Inv(rev, y) && c in y.net
    ensures c !in y.replies
  {
  }

  /** A segment of another agent, or a loss, leaves what this agent claims and the Master's maps alone. */
  lemma SegmentDisplaces(rev: WorkerCapability -> string, y: System, act: Action, a: nat)
    requires Inv(rev, y) && Enabled(rev, y, act) && !act.Process? && !act.Lose? && !act.RestartMaster? && a in y.agents
    ensures var y' := Apply(rev, y, act);
            && a in y'.agents && y'.world == y.world
            && y'.agents[a].identity == y.agents[a].identity
            && (Claim(y', a) == Claim(y, a) || Claim(y', a).None?)
  {
    SegmentGood(rev, y, act);
    NewCallUnanswered(rev, y);
    SentClaims(rev, y, act.a, SegmentOf(rev, y, act), a);
    SegmentKeepsIdentity(rev, y, act);
  }

  lemma SentClaims(rev: WorkerCapability -> string, y: System, b: nat, g: Segment, a: nat)
    requires GoodSegment(rev, y, b, g) && y.calls !in y.replies && a in y.agents
    ensures Claim(Sent(y, b, g), a) == Claim(y, a) || Claim(Sent(y, b, g), a).None?
  {
  }

  lemma SegmentKeepsIdentity(rev: WorkerCapability -> string, y: System, act: Action)
    requires Enabled(rev, y, act) && !act.Process? && !act.Lose? && !act.RestartMaster?
    ensures act.a in y.agents ==> SegmentOf(rev, y, act).agent.identity == y.agents[act.a].identity
  {
  }

  lemma NewCallUnanswered(rev: WorkerCapability -> string, y: System)
    requires Inv(rev, y)
    ensures y.calls !in y.replies
  {
  }

  /** One step: an agent that keeps its claim is displaced afterwards exactly if a rival was registered or it was
      displaced before and the Master did not restart; a new claim is never displaced. */
  lemma StepDisplaces(rev: WorkerCapability -> string, y: System, act: Action, a: nat)
    requires Inv(rev, y) && Enabled(rev, y, act) && a in y.agents
    ensures var y' := Apply(rev, y, act);
            && a in y'.agents
            && (Claim(y', a) == Claim(y, a) ==>
                  (Displaced(y', a) <==> Rivals(rev, y, act, a) || (!act.RestartMaster? && Displaced(y, a))))
            && (Claim(y', a) != Claim(y, a) ==> !Displaced(y', a))
  {
    if act.Process? {
      ProcessDisplaces(rev, y, act, a);
    } else if !act.Lose? && !act.RestartMaster? {
      SegmentDisplaces(rev, y, act, a);
    }
  }

  lemma StartClaimsNothing(rev: WorkerCapability -> string, y: System, act: Action, a: nat)
    requires Enabled(rev, y, act) && a !in y.agents && a in Apply(rev, y, act).agents
    ensures !Displaced(Apply(rev, y, act), a)
  {
  }

  /** Since the agent got the session it claims, a rival was registered, and the Master has not restarted since then. */
  ghost predicate Superseded(rev: WorkerCapability -> string, trace: seq<System>, acts: seq<Action>, n: nat, a: nat)
    requires n < |trace| == |acts| + 1
    decreases n
  {
    && n > 0 && a in trace[n - 1].agents && a in trace[n].agents
    && Claim(trace[n], a).Some? && Claim(trace[n], a) == Claim(trace[n - 1], a)
    && (Rivals(rev, trace[n - 1], acts[n - 1], a) ||
        (!acts[n - 1].RestartMaster? && Superseded(rev, trace, acts, n - 1, a)))
  }

  lemma {:induction false} DisplacedIffSuperseded(rev: WorkerCapability -> string, trace: seq<System>,
                                                  acts: seq<Action>, n: nat, a: nat)
    requires Fingerprint(rev) && Run(rev, trace, acts) && n < |trace|
    ensures Displaced(trace[n], a) <==> Superseded(rev, trace, acts, n, a)
  {
    if n > 0 {
      DisplacedIffSuperseded(rev, trace, acts, n - 1, a);
      EveryRunKeepsInv(rev, trace, acts, n - 1);
      var y, act := trace[n - 1], acts[n - 1];
      assert Enabled(rev, y, act) && trace[n] == Apply(rev, y, act);
      if a in y.agents {
        StepDisplaces(rev, y, act, a);
      } else if a in trace[n].agents {
        StartClaimsNothing(rev, y, act, a);
      }
    }
  }

  // ---------------------------------------------------------------------------
  // STALE_SESSION
  // ---------------------------------------------------------------------------

  lemma CheckedSession(rev: WorkerCapability -> string, m: Maps, r: Request, issued: nat, now: real, s: nat)
    requires m.registry.Keys == m.sessions.Keys && SessionOf(r) == Some(s)
    ensures Handle(rev, m, r, issued, now).1 == Rejected(STALE_SESSION) <==>
            WorkerOf(r) in m.sessions && m.sessions[WorkerOf(r)].sessionId != s
  {
  }

  /** In every run the Master answers an agent's awaited heartbeat or update with STALE_SESSION exactly if the agent was
      superseded: a registration of its worker was taken since it got its session, and no restart came after. */
  lemma StaleIffSuperseded(rev: WorkerCapability -> string, trace: seq<System>, acts: seq<Action>, n: nat, a: nat,
                           act: Action)
    requires Fingerprint(rev) && Run(rev, trace, acts) && n < |trace| && a in trace[n].agents
    requires act.Process? && Enabled(rev, trace[n], act) && Call(trace[n], a) == Some(act.call)
    ensures Apply(rev, trace[n], act).replies[act.call] == Rejected(STALE_SESSION) <==>
            Superseded(rev, trace, acts, n, a)
  {
    EveryRunKeepsInv(rev, trace, acts, n);
    DisplacedIffSuperseded(rev, trace, acts, n, a);
    var y := trace[n];
    OwnCall(rev, y, act, a);
    if Claim(y, a).Some? {
      CheckedSession(rev, y.world.maps, y.net[act.call], y.world.issued, act.now, Claim(y, a).value);
    } else {
      RegistrationNotStale(rev, y.world.maps, y.net[act.call], y.world.issued, act.now);
    }
  }

  lemma RegistrationNotStale(rev: WorkerCapability -> string, m: Maps, r: Request, issued: nat, now: real)
    requires r.Register? && m.registry.Keys == m.sessions.Keys
    ensures Handle(rev, m, r, issued, now).1 != Rejected(STALE_SESSION)
  {
  }

  ghost predicate ToldStale(y: System, a: nat)
  {
    a in y.agents && At(y.replies, Call(y, a)) == Some(Rejected(STALE_SESSION))
  }

  lemma SegmentTellsNothing(rev: WorkerCapability -> string, y: System, act: Action, a: nat)
    requires Inv(rev, y) && Enabled(rev, y, act) && !act.Process? && ToldStale(Apply(rev, y, act), a)
    ensures ToldStale(y, a)
  {
    if !act.Lose? && !act.RestartMaster? {
      NewCallUnanswered(rev, y);
      SegmentAwaits(rev, y, act);
      SentTellsNothing(y, act.a, SegmentOf(rev, y, act), a);
    }
  }

  lemma SegmentAwaits(rev: WorkerCapability -> string, y: System, act: Action)
    requires Enabled(rev, y, act) && !act.Process? && !act.Lose? && !act.RestartMaster?
    ensures Awaited(SegmentOf(rev, y, act).agent.phase) in {None, Some(y.calls)}
  {
  }

  lemma SentTellsNothing(y: System, b: nat, g: Segment, a: nat)
    requires y.calls !in y.replies && Awaited(g.agent.phase) in {None, Some(y.calls)} && ToldStale(Sent(y, b, g), a)
    ensures ToldStale(y, a)
  {
  }

  lemma OtherCallTellsNothing(rev: WorkerCapability -> string, y: System, act: Action, a: nat)
    requires Inv(rev, y) && Enabled(rev, y, act) && act.Process? && a in y.agents && Call(y, a) != Some(act.call)
    ensures ToldStale(Apply(rev, y, act), a) ==> ToldStale(y, a)
  {
  }

  /** A step that newly tells the agent so is the Master taking the call it awaits. */
  lemma NewlyStale(rev: WorkerCapability -> string, y: System, act: Action, a: nat)
    requires Inv(rev, y) && Enabled(rev, y, act) && ToldStale(Apply(rev, y, act), a) && !ToldStale(y, a)
    ensures a in y.agents && act.Process? && Call(y, a) == Some(act.call)
    ensures Apply(rev, y, act).replies[act.call] == Rejected(STALE_SESSION)
  {
    if !act.Process? {
      SegmentTellsNothing(rev, y, act, a);
    } else if Call(y, a) != Some(act.call) {
      OtherCallTellsNothing(rev, y, act, a);
    }
  }

  lemma RunStep(rev: WorkerCapability -> string, trace: seq<System>, acts: seq<Action>, n: nat)
    requires Run(rev, trace, acts) && 0 < n < |trace|
    ensures Enabled(rev, trace[n - 1], acts[n - 1]) && trace[n] == Apply(rev, trace[n - 1], acts[n - 1])
  {
  }

  lemma NewlyStaleSuperseded(rev: WorkerCapability -> string, trace: seq<System>, acts: seq<Action>, n: nat, a: nat)
    requires Fingerprint(rev) && Run(rev, trace, acts) && 0 < n < |trace| && ToldStale(trace[n], a) &&
             !ToldStale(trace[n - 1], a)
    ensures Superseded(rev, trace, acts, n - 1, a)
  {
    RunStep(rev, trace, acts, n);
    EveryRunKeepsInv(rev, trace, acts, n - 1);
    NewlyStale(rev, trace[n - 1], acts[n - 1], a);
    StaleIffSuperseded(rev, trace, acts, n - 1, a, acts[n - 1]);
  }

  lemma {:induction false} StaleWasSuperseded(rev: WorkerCapability -> string, trace: seq<System>, acts: seq<Action>,
                                              n: nat, a: nat) returns (i: nat)
    requires Fingerprint(rev) && Run(rev, trace, acts) && n < |trace| && ToldStale(trace[n], a)
    ensures i < n && Superseded(rev, trace, acts, i, a)
  {
    if ToldStale(trace[n - 1], a) {
      i := StaleWasSuperseded(rev, trace, acts, n - 1, a);
    } else {
      NewlyStaleSuperseded(rev, trace, acts, n, a);
      i := n - 1;
    }
  }

  lemma NewlyStopped(rev: WorkerCapability -> string, y: System, act: Action, a: nat)
    requires Inv(rev, y) && Enabled(rev, y, act) && a in Apply(rev, y, act).agents &&
             Apply(rev, y, act).agents[a].phase.Stopped?
    requires a in y.agents ==> !y.agents[a].phase.Stopped?
    ensures a in y.agents && (act == Stop(a) || (act == Receive(a) && ToldStale(y, a)))
  {
    if a in y.agents { assert OkAt(rev, y, a); }
  }

  /** In every run an agent is stopped only because it was asked to stop or because it was superseded before. */
  lemma {:induction false} StoppedOnlyIf(rev: WorkerCapability -> string, trace: seq<System>, acts: seq<Action>,
                                         n: nat, a: nat) returns (i: nat)
    requires Fingerprint(rev) && Run(rev, trace, acts) && n < |trace| && a in trace[n].agents &&
             trace[n].agents[a].phase.Stopped?
    ensures i < n && (acts[i] == Stop(a) || Superseded(rev, trace, acts, i, a))
  {
    var y, act := trace[n - 1], acts[n - 1];
    assert Enabled(rev, y, act) && trace[n] == Apply(rev, y, act);
    if a in y.agents && y.agents[a].phase.Stopped? {
      i := StoppedOnlyIf(rev, trace, acts, n - 1, a);
    } else {
      EveryRunKeepsInv(rev, trace, acts, n - 1);
      NewlyStopped(rev, y, act, a);
      if act == Stop(a) {
        i := n - 1;
      } else {
        i := StaleWasSuperseded(rev, trace, acts, n - 1, a);
      }
    }
  }

  // ---------------------------------------------------------------------------
  // No rival agent is needed
  // ---------------------------------------------------------------------------

  lemma RunExtends(rev: WorkerCapability -> string, trace: seq<System>, acts: seq<Action>, act: Action)
    requires Run(rev, trace, acts) && Enabled(rev, trace[|trace| - 1], act)
    ensures Run(rev, trace + [Apply(rev, trace[|trace| - 1], act)], acts + [act])
  {
  }

  /** A run so far, and where it has come to. */
  datatype Story = Story(trace: seq<System>, acts: seq<Action>)

  ghost predicate Tells(rev: WorkerCapability -> string, t: Story)
  {
    Run(rev, t.trace, t.acts)
  }

  function Now(t: Story): System
    requires t.trace != []
  {
    t.trace[|t.trace| - 1]
  }

  ghost function Then(rev: WorkerCapability -> string, t: Story, act: Action): Story
    requires t.trace != [] && Enabled(rev, Now(t), act)
  {
    Story(t.trace + [Apply(rev, Now(t), act)], t.acts + [act])
  }

  lemma ThenTells(rev: WorkerCapability -> string, t: Story, act: Action)
    requires Tells(rev, t) && Enabled(rev, Now(t), act)
    ensures Tells(rev, Then(rev, t, act)) && Now(Then(rev, t, act)) == Apply(rev, Now(t), act)
  {
    RunExtends(rev, t.trace, t.acts, act);
  }

  /** The only agent registers, gives up, and registers again. */
  lemma RegistersTwice(rev: WorkerCapability -> string, ag: Agent, i: Inspection) returns (t: Story)
    requires ag.phase.Idle? && ag.registrations == 0 && SelfConsistent(rev, ag.identity.workerId, i)
    ensures Tells(rev, t)
    ensures Now(t) == System(START, map[0 := ag.(phase := Registering(1, i), registrations := 2)],
                             map[0 := RegisterRequest(ag, i), 1 := RegisterRequest(ag, i)], map[], 2)
  {
    t := Story([ControlProtocol.INITIAL], []);
    ThenTells(rev, t, Start(0, ag));
    t := Then(rev, t, Start(0, ag));
    ThenTells(rev, t, SendRegister(0, i));
    t := Then(rev, t, SendRegister(0, i));
    ThenTells(rev, t, GiveUp(0));
    t := Then(rev, t, GiveUp(0));
    assert Now(t).agents[0] == ag.(registrations := 1);
    ThenTells(rev, t, SendRegister(0, i));
    t := Then(rev, t, SendRegister(0, i));
  }

  lemma RegistrationGranted(rev: WorkerCapability -> string, m: Maps, ag: Agent, i: Inspection, issued: nat, now: real)
    requires SelfConsistent(rev, ag.identity.workerId, i) && m.registry.Keys == m.sessions.Keys
    ensures var (m', reply) := Handle(rev, m, RegisterRequest(ag, i), issued, now);
            var w := ag.identity.workerId;
            && reply == Granted(issued) && w in m'.sessions && m'.sessions[w].sessionId == issued
            && m'.registry.Keys == m'.sessions.Keys
  {
  }

  /** The Master takes the second registration, and the agent serves. */
  lemma Serves(rev: WorkerCapability -> string, ag: Agent, i: Inspection, before: Story) returns (t: Story)
    requires SelfConsistent(rev, ag.identity.workerId, i) && Tells(rev, before)
    requires Now(before) == System(START, map[0 := ag.(phase := Registering(1, i), registrations := 2)],
                                   map[0 := RegisterRequest(ag, i), 1 := RegisterRequest(ag, i)], map[], 2)
    ensures Tells(rev, t)
    ensures var y := Now(t);
            && y.agents == map[0 := ag.(phase := Serving(Session(START.issued, i.capability.revision, 1)),
                                        registrations := 2)]
            && y.calls == 2 && y.net == map[0 := RegisterRequest(ag, i)] && y.world.issued == START.issued + 1
            && y.world.maps.registry.Keys == y.world.maps.sessions.Keys
  {
    t := before;
    RegistrationGranted(rev, START.maps, ag, i, START.issued, 0.0);
    ThenTells(rev, t, Process(1, 0.0));
    t := Then(rev, t, Process(1, 0.0));
    ThenTells(rev, t, Receive(0));
    t := Then(rev, t, Receive(0));
  }

  /** Then the first registration arrives. */
  lemma LateRegistrationArrives(rev: WorkerCapability -> string, ag: Agent, i: Inspection, before: Story)
    returns (t: Story)
    requires SelfConsistent(rev, ag.identity.workerId, i) && Tells(rev, before)
    requires var y := Now(before);
             && y.agents == map[0 := ag.(phase := Serving(Session(START.issued, i.capability.revision, 1)),
                                         registrations := 2)]
             && y.calls == 2 && y.net == map[0 := RegisterRequest(ag, i)] && y.world.issued == START.issued + 1
             && y.world.maps.registry.Keys == y.world.maps.sessions.Keys
    ensures Tells(rev, t) && |Now(t).agents| == 1
    ensures var y, w := Now(t), ag.identity.workerId;
            && 0 in y.agents && y.agents[0] == ag.(phase := Serving(Session(START.issued, i.capability.revision, 1)),
                                                   registrations := 2)
            && y.calls == 2 && 2 !in y.net && y.world.maps.registry.Keys == y.world.maps.sessions.Keys
            && w in y.world.maps.sessions && y.world.maps.sessions[w].sessionId == START.issued + 1
  {
    t := before;
    RegistrationGranted(rev, Now(t).world.maps, ag, i, START.issued + 1, 0.0);
    ThenTells(rev, t, Process(0, 0.0));
    t := Then(rev, t, Process(0, 0.0));
  }

  /** Its next heartbeat is stale, and it stops. */
  lemma StopsItself(rev: WorkerCapability -> string, ag: Agent, i: Inspection, before: Story) returns (t: Story)
    requires SelfConsistent(rev, ag.identity.workerId, i) && Tells(rev, before) && |Now(before).agents| == 1
    requires var y, w := Now(before), ag.identity.workerId;
             && 0 in y.agents && y.agents[0] == ag.(phase := Serving(Session(START.issued, i.capability.revision, 1)),
                                                    registrations := 2)
             && y.calls == 2 && 2 !in y.net && y.world.maps.registry.Keys == y.world.maps.sessions.Keys
             && w in y.world.maps.sessions && y.world.maps.sessions[w].sessionId == START.issued + 1
    ensures Tells(rev, t) && |Now(t).agents| == 1 && 0 in Now(t).agents && Now(t).agents[0].phase.Stopped?
  {
    t := before;
    ThenTells(rev, t, Inspect(0, i));
    t := Then(rev, t, Inspect(0, i));
    var y := Now(t);
    CheckedSession(rev, y.world.maps, y.net[2], y.world.issued, 0.0, START.issued);
    ThenTells(rev, t, Process(2, 0.0));
    t := Then(rev, t, Process(2, 0.0));
    assert Now(t).replies[2] == Rejected(STALE_SESSION);
    ThenTells(rev, t, Receive(0));
    t := Then(rev, t, Receive(0));
    assert Now(t).agents.Keys == y.agents.Keys;
  }

  /** For every agent there is a run in which it is alone and is stopped by its own delayed registration. */
  lemma OwnLateRegistrationStops(rev: WorkerCapability -> string, ag: Agent, i: Inspection) returns (t: Story)
    requires ag.phase.Idle? && ag.registrations == 0 && SelfConsistent(rev, ag.identity.workerId, i)
    ensures Tells(rev, t) && |Now(t).agents| == 1 && 0 in Now(t).agents && Now(t).agents[0].phase.Stopped?
  {
    t := RegistersTwice(rev, ag, i);
    t := Serves(rev, ag, i, t);
    t := LateRegistrationArrives(rev, ag, i, t);
    t := StopsItself(rev, ag, i, t);
  }
}
