/**
 Worker agents against one Master, over a network that delays and loses requests and replies, with
 Master restarts (src/edgeshard/control/worker/master_client.py with the handlers of `Master`).

 Any number of agents may run, and several may claim one worker id.  A request that was sent stays in
 `net` until the Master takes it or it is lost; the Master takes each request at most once; a reply
 waits in `replies` until the agent that still awaits the call picks it up.  An agent gives up on a
 call at any time (transport failure or deadline), and the request may still arrive much later.
 */
module ControlProtocol {
  import opened Options
  import opened Capability
  import opened Master
  import Orders

  /** What one local inspection reports; identity and state come from the same inspection. */
  datatype Inspection = Inspection(capability: WorkerCapability, state: WorkerState)

  datatype Session = Session(sessionId: nat, acknowledged: string, next: nat)

  /** Where `WorkerAgent.run` stands.  `Registering`, `Updating` and `Beating` await the call named. */
  datatype Phase =
    | Idle
    | Registering(call: nat, inspection: Inspection)
    | Serving(session: Session)
    | Updating(session: Session, call: nat, inspection: Inspection)
    | Beating(session: Session, call: nat, inspection: Inspection)
    | Stopped
    | Failed

  datatype Agent = Agent(
    identity: Identity, instanceId: string, endpoint: Option<string>, phase: Phase, registrations: nat)

  datatype System = System(
    world: World, agents: map<nat, Agent>, net: map<nat, Request>, replies: map<nat, Reply>, calls: nat)

  // ---------------------------------------------------------------------------
  // The agent's own code
  // ---------------------------------------------------------------------------

  ghost predicate SelfConsistent(rev: WorkerCapability -> string, workerId: string, i: Inspection)
  {
    && i.capability.revision == rev(i.capability)
    && StateConsistent(i.state, i.capability)
    && i.state.workerId == workerId
  }

  function RegisterRequest(a: Agent, i: Inspection): Request
  {
    Register(a.identity, a.instanceId, i.capability, i.state, a.endpoint)
  }

  function HeartbeatRequest(a: Agent, s: Session, i: Inspection): Request
  {
    Heartbeat(a.identity.workerId, a.instanceId, s.sessionId, s.next, i.capability.revision, i.state)
  }

  function UpdateRequest(a: Agent, s: Session, i: Inspection): Request
  {
    Update(a.identity.workerId, a.instanceId, s.sessionId, i.capability, i.state)
  }

  /** `_raise_for_rejection`: each typed reason has exactly one recovery. */
  function Recovery(reason: Reason): Phase
  {
    match reason
    case UNKNOWN_WORKER => Idle
    case REREGISTER_REQUIRED => Idle
    case STALE_SESSION => Stopped
    case INSTANCE_MISMATCH => Failed
    case OUT_OF_ORDER => Failed
  }

  /** One segment of agent code between two awaits: the agent it leaves and the request it sends. */
  datatype Segment = Segment(agent: Agent, sends: Option<Request>)

  /** `_register` up to its call. */
  function BeginRegister(a: Agent, i: Inspection, call: nat): Segment
  {
    Segment(a.(phase := Registering(call, i), registrations := a.registrations + 1), Some(RegisterRequest(a, i)))
  }

  function BeginHeartbeat(a: Agent, s: Session, i: Inspection, call: nat): Segment
  {
    Segment(a.(phase := Beating(s, call, i)), Some(HeartbeatRequest(a, s, i)))
  }

  /** The heartbeat loop after an inspection: a changed revision is retransmitted first. */
  function OnInspection(a: Agent, i: Inspection, call: nat): Segment
    requires a.phase.Serving?
  {
    var s := a.phase.session;
    if i.capability.revision != s.acknowledged
    then Segment(a.(phase := Updating(s, call, i)), Some(UpdateRequest(a, s, i)))
    else BeginHeartbeat(a, s, i, call)
  }

  /** The code that runs when the awaited call returns. */
  function OnReply(a: Agent, reply: Reply, call: nat): Segment
    requires Awaited(a.phase).Some?
  {
    match a.phase
    case Registering(_, i) =>
      if reply.Granted?
      then Segment(a.(phase := Serving(Session(reply.sessionId, i.capability.revision, 1))), None)
      else Segment(a.(phase := Failed), None)
    case Updating(s, _, i) =>
      (match reply
       case Accepted => BeginHeartbeat(a, s.(acknowledged := i.capability.revision), i, call)
       case Rejected(reason) => Segment(a.(phase := Recovery(reason)), None)
       case _ => Segment(a.(phase := Failed), None))
    case Beating(s, _, i) =>
      (match reply
       case Accepted => Segment(a.(phase := Serving(s.(next := s.next + 1))), None)
       case Rejected(reason) => Segment(a.(phase := Recovery(reason)), None)
       case _ => Segment(a.(phase := Failed), None))
  }

  function Awaited(p: Phase): Option<nat>
  {
    if p.Registering? || p.Updating? || p.Beating? then Some(p.call) else None
  }

  // ---------------------------------------------------------------------------
  // The transition system
  // ---------------------------------------------------------------------------

  datatype Action =
    | Start(a: nat, agent: Agent)
    | SendRegister(a: nat, inspection: Inspection)
    | Inspect(a: nat, inspection: Inspection)
    | Receive(a: nat)
    | GiveUp(a: nat)
    | Stop(a: nat)
    | Process(call: nat, now: real)
    | Lose(call: nat)
    | RestartMaster

  ghost predicate Enabled(rev: WorkerCapability -> string, y: System, act: Action)
  {
    match act
    case Start(a, agent) => a !in y.agents && agent.phase == Idle && agent.registrations == 0
    case SendRegister(a, i) =>
      a in y.agents && y.agents[a].phase.Idle? && SelfConsistent(rev, y.agents[a].identity.workerId, i)
    case Inspect(a, i) =>
      a in y.agents && y.agents[a].phase.Serving? && SelfConsistent(rev, y.agents[a].identity.workerId, i)
    case Receive(a) =>
      a in y.agents && Awaited(y.agents[a].phase).Some? && Awaited(y.agents[a].phase).value in y.replies
    case GiveUp(a) => a in y.agents && Awaited(y.agents[a].phase).Some?
    case Stop(a) => a in y.agents && (y.agents[a].phase.Idle? || y.agents[a].phase.Serving?)
    case Process(c, _) => c in y.net && y.world.maps.registry.Keys == y.world.maps.sessions.Keys
    case Lose(c) => c in y.net
    case RestartMaster => true
  }

  function Sent(y: System, a: nat, g: Segment): System
  {
    y.(agents := y.agents[a := g.agent],
       net := if g.sends.Some? then y.net[y.calls := g.sends.value] else y.net,
       calls := if g.sends.Some? then y.calls + 1 else y.calls)
  }

  /** The segment each agent action runs. */
  ghost function SegmentOf(rev: WorkerCapability -> string, y: System, act: Action): Segment
    requires Enabled(rev, y, act) && !act.Process? && !act.Lose? && !act.RestartMaster?
  {
    match act
    case Start(a, agent) => Segment(agent, None)
    case SendRegister(a, i) => BeginRegister(y.agents[a], i, y.calls)
    case Inspect(a, i) => OnInspection(y.agents[a], i, y.calls)
    case Receive(a) => OnReply(y.agents[a], y.replies[Awaited(y.agents[a].phase).value], y.calls)
    case GiveUp(a) => Segment(y.agents[a].(phase := Idle), None)
    case Stop(a) => Segment(y.agents[a].(phase := Stopped), None)
  }

  ghost function Apply(rev: WorkerCapability -> string, y: System, act: Action): System
    requires Enabled(rev, y, act)
  {
    match act
    case Process(c, now) =>
      var (maps, reply) := Handle(rev, y.world.maps, y.net[c], y.world.issued, now);
      y.(world := World(maps, y.world.issued + 1), net := y.net - {c}, replies := y.replies[c := reply])
    case Lose(c) => y.(net := y.net - {c})
    case RestartMaster => y.(world := World(NO_WORKERS, y.world.issued))
    case _ => Sent(y, act.a, SegmentOf(rev, y, act))
  }

  const INITIAL := System(START, map[], map[], map[], 0)

  /** A finite run of the system. */
  ghost predicate Run(rev: WorkerCapability -> string, trace: seq<System>, acts: seq<Action>)
  {
    && |trace| == |acts| + 1
    && trace[0] == INITIAL
    && forall i :: 0 <= i < |acts| ==> Enabled(rev, trace[i], acts[i]) && trace[i + 1] == Apply(rev, trace[i], acts[i])
  }

  // ---------------------------------------------------------------------------
  // The inductive invariant
  // ---------------------------------------------------------------------------

  function Find<K, T>(m: map<K, T>, k: K): Option<T>
  {
    if k in m then Some(m[k]) else None
  }

  function At<T>(m: map<nat, T>, c: Option<nat>): Option<T>
  {
    if c.Some? then Find(m, c.value) else None
  }

  function StoredRevision(m: Maps, w: string): Option<string>
  {
    if w in m.registry then Some(m.registry[w].capability.revision) else None
  }

  predicate Current(info: Option<SessionInfo>, s: nat)
  {
    info.Some? && info.value.sessionId == s
  }

  /** If `s` is the worker's current session, the Master stores exactly `revision` for it, under this
      agent's instance, and has accepted only sequences below `below`. */
  predicate Agrees(a: Agent, s: nat, info: Option<SessionInfo>, stored: Option<string>, revision: string, below: nat)
  {
    Current(info, s) ==>
      && info.value.instanceId == a.instanceId
      && info.value.lastAccepted < below
      && stored == Some(revision)
  }

  /** An answer to an outstanding call is an acceptance or one of the two recoverable refusals. */
  predicate Benign(reply: Reply, s: nat, info: Option<SessionInfo>)
  {
    reply.Accepted? || (reply in {Rejected(UNKNOWN_WORKER), Rejected(STALE_SESSION)} && !Current(info, s))
  }

  /** What holds of one agent, its outstanding request, the waiting reply, and the Master's entry. */
  ghost predicate AgentOk(rev: WorkerCapability -> string, a: Agent, req: Option<Request>, reply: Option<Reply>,
                          info: Option<SessionInfo>, stored: Option<string>)
  {
    match a.phase
    case Idle => true
    case Stopped => true
    case Failed => false
    case Serving(s) => Agrees(a, s.sessionId, info, stored, s.acknowledged, s.next)
    case Registering(_, i) =>
      && SelfConsistent(rev, a.identity.workerId, i)
      && (req.Some? ==> req.value == RegisterRequest(a, i))
      && (reply.Some? ==>
            reply.value.Granted? && Agrees(a, reply.value.sessionId, info, stored, i.capability.revision, 1))
    case Updating(s, _, i) =>
      && SelfConsistent(rev, a.identity.workerId, i)
      && (req.Some? ==>
            req.value == UpdateRequest(a, s, i) && Agrees(a, s.sessionId, info, stored, s.acknowledged, s.next))
      && (reply.Some? ==> Benign(reply.value, s.sessionId, info))
      && (reply == Some(Accepted) ==> Agrees(a, s.sessionId, info, stored, i.capability.revision, s.next))
    case Beating(s, _, i) =>
      && SelfConsistent(rev, a.identity.workerId, i)
      && s.acknowledged == i.capability.revision
      && (req.Some? ==>
            req.value == HeartbeatRequest(a, s, i) && Agrees(a, s.sessionId, info, stored, s.acknowledged, s.next))
      && (reply.Some? ==> Benign(reply.value, s.sessionId, info))
      && (reply == Some(Accepted) ==> Agrees(a, s.sessionId, info, stored, s.acknowledged, s.next + 1))
  }

  /** The session an agent holds, or has been granted and is about to learn of. */
  function ClaimOf(a: Agent, reply: Option<Reply>): Option<nat>
  {
    match a.phase
    case Serving(s) => Some(s.sessionId)
    case Updating(s, _, _) => Some(s.sessionId)
    case Beating(s, _, _) => Some(s.sessionId)
    case Registering(_, _) =>
      if reply.Some? && reply.value.Granted? then Some(reply.value.sessionId) else None
    case _ => None
  }

  function Call(y: System, a: nat): Option<nat>
    requires a in y.agents
  {
    Awaited(y.agents[a].phase)
  }

  function Claim(y: System, a: nat): Option<nat>
    requires a in y.agents
  {
    ClaimOf(y.agents[a], At(y.replies, Call(y, a)))
  }

  ghost predicate OkAt(rev: WorkerCapability -> string, y: System, a: nat)
    requires a in y.agents
  {
    var w := y.agents[a].identity.workerId;
    AgentOk(rev, y.agents[a], At(y.net, Call(y, a)), At(y.replies, Call(y, a)),
            Find(y.world.maps.sessions, w), StoredRevision(y.world.maps, w))
  }

  ghost predicate CallsOk(y: System)
  {
    && (forall c :: c in y.net ==> c < y.calls)
    && (forall c :: c in y.replies ==> c < y.calls && c !in y.net)
    && (forall a :: a in y.agents && Call(y, a).Some? ==> Call(y, a).value < y.calls)
    && (forall a, b :: a in y.agents && b in y.agents && a != b && Call(y, a).Some? ==> Call(y, a) != Call(y, b))
  }

  ghost predicate ClaimsOk(y: System)
  {
    && (forall a :: a in y.agents && Claim(y, a).Some? ==> Claim(y, a).value < y.world.issued)
    && (forall a, b :: a in y.agents && b in y.agents && a != b && Claim(y, a).Some? ==> Claim(y, a) != Claim(y, b))
  }

  /** A travelling request under a session some agent still claims is that agent's awaited call. */
  ghost predicate NetOk(y: System)
  {
    forall c :: c in y.net ==> RequestOk(y, c)
  }

  ghost predicate RequestOk(y: System, c: nat)
    requires c in y.net
  {
    var r := y.net[c];
    && IdsAgree(r)
    && (SessionOf(r).Some? ==> SessionOf(r).value < y.world.issued)
    && (SessionOf(r).Some? ==> forall a :: a in y.agents && Claim(y, a) == SessionOf(r) ==> Call(y, a) == Some(c))
  }

  ghost predicate Inv(rev: WorkerCapability -> string, y: System)
  {
    && WorldInv(rev, y.world)
    && CallsOk(y) && ClaimsOk(y) && NetOk(y)
    && forall a :: a in y.agents ==> OkAt(rev, y, a)
  }

  /** All that is used about the fingerprint: equal revisions name equal devices and pools. */
  ghost predicate Fingerprint(rev: WorkerCapability -> string)
  {
    forall a, b :: rev(a) == rev(b) ==> DeviceIds(a) == DeviceIds(b) && PoolIds(a) == PoolIds(b)
  }

  lemma RevisionIsFingerprint(key: Canon -> string, digest: Canon -> string, rev: WorkerCapability -> string)
    requires Orders.Injective(key) && Orders.Injective(digest)
    requires forall c {:trigger Revision(key, digest, c)} :: rev(c) == Revision(key, digest, c)
    ensures Fingerprint(rev)
  {
    forall a, b | rev(a) == rev(b) ensures DeviceIds(a) == DeviceIds(b) && PoolIds(a) == PoolIds(b) {
      AgreedIds(key, digest, rev, a, b);
    }
  }

  lemma AgreedIds(key: Canon -> string, digest: Canon -> string, rev: WorkerCapability -> string,
                  a: WorkerCapability, b: WorkerCapability)
    requires Orders.Injective(key) && Orders.Injective(digest)
    requires forall c {:trigger Revision(key, digest, c)} :: rev(c) == Revision(key, digest, c)
    ensures rev(a) == rev(b) ==> DeviceIds(a) == DeviceIds(b) && PoolIds(a) == PoolIds(b)
  {
    if Revision(key, digest, a) == Revision(key, digest, b) { SameRevisionSameIds(key, digest, a, b); }
  }

  // ---------------------------------------------------------------------------
  // Agent segments keep the invariant
  // ---------------------------------------------------------------------------

  /** What a segment of agent `a` must satisfy, given what the agent claimed and awaited before. */
  ghost predicate GoodSegment(rev: WorkerCapability -> string, y: System, a: nat, g: Segment)
  {
    var claim := ClaimOf(g.agent, None);
    var w := g.agent.identity.workerId;
    && Awaited(g.agent.phase) == (if g.sends.Some? then Some(y.calls) else None)
    && (claim.Some? ==> a in y.agents && claim == Claim(y, a) && At(y.net, Call(y, a)) == None)
    && (g.sends.Some? ==> IdsAgree(g.sends.value) && SessionOf(g.sends.value) == claim)
    && AgentOk(rev, g.agent, g.sends, None, Find(y.world.maps.sessions, w), StoredRevision(y.world.maps, w))
  }

  lemma OthersUntouched(y: System, a: nat, g: Segment, b: nat)
    requires CallsOk(y) && b in y.agents && b != a
    ensures var y' := Sent(y, a, g);
            && b in y'.agents && y'.agents[b] == y.agents[b] && Call(y', b) == Call(y, b)
            && Claim(y', b) == Claim(y, b)
            && At(y'.net, Call(y, b)) == At(y.net, Call(y, b))
  {
  }

  lemma SelfAfter(rev: WorkerCapability -> string, y: System, a: nat, g: Segment)
    requires CallsOk(y) && GoodSegment(rev, y, a, g)
    ensures var y' := Sent(y, a, g);
            && Call(y', a) == Awaited(g.agent.phase)
            && At(y'.replies, Call(y', a)) == None
            && At(y'.net, Call(y', a)) == g.sends
            && Claim(y', a) == ClaimOf(g.agent, None)
  {
  }

  lemma SegmentKeepsCalls(rev: WorkerCapability -> string, y: System, a: nat, g: Segment)
    requires CallsOk(y) && GoodSegment(rev, y, a, g)
    ensures CallsOk(Sent(y, a, g))
  {
    var y' := Sent(y, a, g);
    SelfAfter(rev, y, a, g);
    forall b | b in y'.agents ensures Call(y', b).Some? ==> Call(y', b).value < y'.calls {
      if b != a { OthersUntouched(y, a, g, b); }
    }
    forall b, c | b in y'.agents && c in y'.agents && b != c && Call(y', b).Some? ensures Call(y', b) != Call(y', c) {
      if b != a { OthersUntouched(y, a, g, b); }
      if c != a { OthersUntouched(y, a, g, c); }
    }
  }

  lemma SegmentKeepsClaims(rev: WorkerCapability -> string, y: System, a: nat, g: Segment)
    requires CallsOk(y) && ClaimsOk(y) && GoodSegment(rev, y, a, g)
    ensures ClaimsOk(Sent(y, a, g))
  {
    var y' := Sent(y, a, g);
    SelfAfter(rev, y, a, g);
    forall b | b in y'.agents ensures Claim(y', b).Some? ==> Claim(y', b).value < y'.world.issued {
      if b != a { OthersUntouched(y, a, g, b); }
    }
    forall b, c | b in y'.agents && c in y'.agents && b != c && Claim(y', b).Some?
      ensures Claim(y', b) != Claim(y', c) {
      if b != a { OthersUntouched(y, a, g, b); }
      if c != a { OthersUntouched(y, a, g, c); }
    }
  }

  lemma SegmentKeepsNet(rev: WorkerCapability -> string, y: System, a: nat, g: Segment)
    requires CallsOk(y) && ClaimsOk(y) && NetOk(y) && GoodSegment(rev, y, a, g)
    ensures NetOk(Sent(y, a, g))
  {
    var y' := Sent(y, a, g);
    SelfAfter(rev, y, a, g);
    forall c | c in y'.net ensures RequestOk(y', c) {
      var s := SessionOf(y'.net[c]);
      if s.Some? {
        forall b | b in y'.agents && Claim(y', b) == s ensures Call(y', b) == Some(c) {
          if b != a { OthersUntouched(y, a, g, b); }
          if c in y.net && c != y.calls {
            assert RequestOk(y, c);
          }
        }
        if c in y.net && c != y.calls { assert RequestOk(y, c); }
      } else if c != y.calls {
        assert RequestOk(y, c);
      }
    }
  }

  lemma SegmentKeepsInv(rev: WorkerCapability -> string, y: System, a: nat, g: Segment)
    requires Inv(rev, y) && GoodSegment(rev, y, a, g)
    ensures Inv(rev, Sent(y, a, g))
  {
    var y' := Sent(y, a, g);
    SegmentKeepsCalls(rev, y, a, g);
    SegmentKeepsClaims(rev, y, a, g);
    SegmentKeepsNet(rev, y, a, g);
    SelfAfter(rev, y, a, g);
    forall b | b in y'.agents ensures OkAt(rev, y', b) {
      if b != a {
        OthersUntouched(y, a, g, b);
        assert OkAt(rev, y, b);
      }
    }
  }

  /** What a segment keeps, seen from the agent alone: what it still claims it claimed before. */
  ghost predicate LeadsOn(rev: WorkerCapability -> string, claim: Option<nat>, g: Segment, call: nat,
                          info: Option<SessionInfo>, stored: Option<string>)
  {
    var claim' := ClaimOf(g.agent, None);
    && Awaited(g.agent.phase) == (if g.sends.Some? then Some(call) else None)
    && (claim'.Some? ==> claim' == claim)
    && (g.sends.Some? ==> IdsAgree(g.sends.value) && SessionOf(g.sends.value) == claim')
    && AgentOk(rev, g.agent, g.sends, None, info, stored)
  }

  /** The reply an agent picks up leads it on, never into `Failed`; only UNKNOWN_WORKER sends it back. */
  lemma ReplyLeadsOn(rev: WorkerCapability -> string, a: Agent, reply: Reply, call: nat,
                     info: Option<SessionInfo>, stored: Option<string>)
    requires Awaited(a.phase).Some? && AgentOk(rev, a, None, Some(reply), info, stored)
    ensures var g := OnReply(a, reply, call);
            && LeadsOn(rev, ClaimOf(a, Some(reply)), g, call, info, stored)
            && g.agent == a.(phase := g.agent.phase)
            && (g.agent.phase.Idle? ==> reply == Rejected(UNKNOWN_WORKER))
  {
  }

  lemma InspectionLeadsOn(rev: WorkerCapability -> string, a: Agent, i: Inspection, call: nat,
                          info: Option<SessionInfo>, stored: Option<string>)
    requires a.phase.Serving? && AgentOk(rev, a, None, None, info, stored)
    requires SelfConsistent(rev, a.identity.workerId, i)
    ensures LeadsOn(rev, ClaimOf(a, None), OnInspection(a, i, call), call, info, stored)
  {
  }

  lemma ReplySegmentGood(rev: WorkerCapability -> string, y: System, a: nat)
    requires Inv(rev, y) && Enabled(rev, y, Receive(a))
    ensures GoodSegment(rev, y, a, OnReply(y.agents[a], y.replies[Call(y, a).value], y.calls))
  {
    var agent, reply := y.agents[a], y.replies[Call(y, a).value];
    var w := agent.identity.workerId;
    assert OkAt(rev, y, a);
    assert Call(y, a).value !in y.net;
    ReplyLeadsOn(rev, agent, reply, y.calls, Find(y.world.maps.sessions, w), StoredRevision(y.world.maps, w));
  }

  lemma InspectSegmentGood(rev: WorkerCapability -> string, y: System, a: nat, i: Inspection)
    requires Inv(rev, y) && Enabled(rev, y, Inspect(a, i))
    ensures GoodSegment(rev, y, a, OnInspection(y.agents[a], i, y.calls))
  {
    var w := y.agents[a].identity.workerId;
    assert OkAt(rev, y, a);
    InspectionLeadsOn(rev, y.agents[a], i, y.calls, Find(y.world.maps.sessions, w), StoredRevision(y.world.maps, w));
  }

  lemma SegmentGood(rev: WorkerCapability -> string, y: System, act: Action)
    requires Inv(rev, y) && Enabled(rev, y, act)
    requires !act.Process? && !act.Lose? && !act.RestartMaster?
    ensures GoodSegment(rev, y, act.a, SegmentOf(rev, y, act))
  {
    match act
    case Inspect(a, i) => InspectSegmentGood(rev, y, a, i);
    case Receive(a) => ReplySegmentGood(rev, y, a);
    case _ =>
  }

  lemma AgentStepKeepsInv(rev: WorkerCapability -> string, y: System, act: Action)
    requires Inv(rev, y) && Enabled(rev, y, act)
    requires !act.Process? && !act.Lose? && !act.RestartMaster?
    ensures Inv(rev, Apply(rev, y, act))
  {
    SegmentGood(rev, y, act);
    SegmentKeepsInv(rev, y, act.a, SegmentOf(rev, y, act));
  }

  // ---------------------------------------------------------------------------
  // Losses and restarts
  // ---------------------------------------------------------------------------

  lemma LoseKeepsInv(rev: WorkerCapability -> string, y: System, c: nat)
    requires Inv(rev, y) && c in y.net
    ensures Inv(rev, y.(net := y.net - {c}))
  {
    var y' := y.(net := y.net - {c});
    assert forall a :: a in y'.agents ==> Call(y', a) == Call(y, a) && Claim(y', a) == Claim(y, a);
    forall d | d in y'.net ensures RequestOk(y', d) { assert RequestOk(y, d); }
    forall a | a in y'.agents ensures OkAt(rev, y', a) { assert OkAt(rev, y, a); }
  }

  lemma RestartKeepsInv(rev: WorkerCapability -> string, y: System)
    requires Inv(rev, y)
    ensures Inv(rev, Apply(rev, y, RestartMaster))
  {
    var y' := Apply(rev, y, RestartMaster);
    assert forall a :: a in y'.agents ==> Call(y', a) == Call(y, a) && Claim(y', a) == Claim(y, a);
    forall d | d in y'.net ensures RequestOk(y', d) { assert RequestOk(y, d); }
    forall a | a in y'.agents ensures OkAt(rev, y', a) { assert OkAt(rev, y, a); }
  }

  // ---------------------------------------------------------------------------
  // The Master takes a request
  // ---------------------------------------------------------------------------

  /** A request under some other session leaves a worker's entry alone, or supersedes session `s`. */
  lemma OtherSessionEffect(rev: WorkerCapability -> string, m: Maps, r: Request, sid: nat, now: real, w: string, s: nat)
    requires Coherent(rev, m) && s < sid && SessionOf(r) != Some(s)
    ensures var m' := Handle(rev, m, r, sid, now).0;
            || (Find(m'.sessions, w) == Find(m.sessions, w) && StoredRevision(m', w) == StoredRevision(m, w))
            || (!Current(Find(m'.sessions, w), s) && (w in m.sessions ==> w in m'.sessions))
  {
    if r.Update? && r.workerId in m.registry {
      assert CoherentEntry(rev, r.workerId, m.registry[r.workerId], m.states[r.workerId].state);
    }
  }

  /** The Master's answer to a heartbeat the agent is entitled to send. */
  lemma HeartbeatAnswer(rev: WorkerCapability -> string, m: Maps, a: Agent, s: Session, i: Inspection, now: real)
    requires Fingerprint(rev) && Coherent(rev, m) && SelfConsistent(rev, a.identity.workerId, i)
    requires s.acknowledged == i.capability.revision
    requires var w := a.identity.workerId;
             Agrees(a, s.sessionId, Find(m.sessions, w), StoredRevision(m, w), s.acknowledged, s.next)
    ensures var w := a.identity.workerId;
            var (m', reply) := OnHeartbeat(m, HeartbeatRequest(a, s, i), now);
            && Benign(reply, s.sessionId, Find(m'.sessions, w))
            && (reply.Accepted? ==>
                  Agrees(a, s.sessionId, Find(m'.sessions, w), StoredRevision(m', w), s.acknowledged, s.next + 1))
  {
    var w := a.identity.workerId;
    if Current(Find(m.sessions, w), s.sessionId) {
      assert CoherentEntry(rev, w, m.registry[w], m.states[w].state);
      assert rev(i.capability) == rev(m.registry[w].capability);
      assert StateConsistent(i.state, m.registry[w].capability);
    }
  }

  /** The Master's answer to a capability update the agent is entitled to send. */
  lemma UpdateAnswer(rev: WorkerCapability -> string, m: Maps, a: Agent, s: Session, i: Inspection, now: real)
    requires Coherent(rev, m) && SelfConsistent(rev, a.identity.workerId, i)
    requires var w := a.identity.workerId;
             Agrees(a, s.sessionId, Find(m.sessions, w), StoredRevision(m, w), s.acknowledged, s.next)
    ensures var w := a.identity.workerId;
            var (m', reply) := OnUpdate(rev, m, UpdateRequest(a, s, i), now);
            && Benign(reply, s.sessionId, Find(m'.sessions, w))
            && (reply.Accepted? ==>
                  Agrees(a, s.sessionId, Find(m'.sessions, w), StoredRevision(m', w), i.capability.revision, s.next))
  {
    var w := a.identity.workerId;
    if Current(Find(m.sessions, w), s.sessionId) {
      assert CoherentEntry(rev, w, m.registry[w], m.states[w].state);
    }
  }

  /** The agent that awaits the request the Master takes. */
  lemma ProcessKeepsSender(rev: WorkerCapability -> string, y: System, c: nat, now: real, a: nat)
    requires Fingerprint(rev) && Inv(rev, y) && c in y.net
    requires a in y.agents && Call(y, a) == Some(c)
    ensures OkAt(rev, Apply(rev, y, Process(c, now)), a)
    ensures y.agents[a].phase.Registering? <==> y.net[c].Register?
  {
    assert OkAt(rev, y, a);
    var agent, m := y.agents[a], y.world.maps;
    match agent.phase
    case Registering(_, i) =>
    case Updating(s, _, i) => UpdateAnswer(rev, m, agent, s, i, now);
    case Beating(s, _, i) => HeartbeatAnswer(rev, m, agent, s, i, now);
  }

  lemma AgentOkFrame(rev: WorkerCapability -> string, a: Agent, req: Option<Request>, reply: Option<Reply>,
                     info: Option<SessionInfo>, stored: Option<string>,
                     info': Option<SessionInfo>, stored': Option<string>)
    requires AgentOk(rev, a, req, reply, info, stored)
    requires var claim := ClaimOf(a, reply);
             claim.Some? ==> (info' == info && stored' == stored) || !Current(info', claim.value)
    ensures AgentOk(rev, a, req, reply, info', stored')
  {
  }

  lemma UnrelatedRequest(rev: WorkerCapability -> string, y: System, c: nat, b: nat)
    requires Inv(rev, y) && c in y.net && b in y.agents && Call(y, b) != Some(c) && Claim(y, b).Some?
    ensures Claim(y, b).value < y.world.issued && SessionOf(y.net[c]) != Claim(y, b)
  {
    assert RequestOk(y, c);
  }

  /** Every other agent. */
  lemma ProcessKeepsOther(rev: WorkerCapability -> string, y: System, c: nat, now: real, b: nat)
    requires Inv(rev, y) && c in y.net
    requires b in y.agents && Call(y, b) != Some(c)
    ensures OkAt(rev, Apply(rev, y, Process(c, now)), b)
  {
    var m, m', w := y.world.maps, Handle(rev, y.world.maps, y.net[c], y.world.issued,
                                         now).0, y.agents[b].identity.workerId;
    var claim := Claim(y, b);
    if claim.Some? {
      UnrelatedRequest(rev, y, c, b);
      OtherSessionEffect(rev, m, y.net[c], y.world.issued, now, w, claim.value);
    }
    assert OkAt(rev, y, b);
    var req, reply := At(y.net, Call(y, b)), At(y.replies, Call(y, b));
    AgentOkFrame(rev, y.agents[b], req, reply, Find(m.sessions, w), StoredRevision(m, w),
                 Find(m'.sessions, w), StoredRevision(m', w));
  }

  lemma ProcessKeepsCalls(rev: WorkerCapability -> string, y: System, c: nat, now: real)
    requires Inv(rev, y) && c in y.net
    ensures var y' := Apply(rev, y, Process(c, now));
            CallsOk(y') && forall a :: a in y.agents ==> Call(y', a) == Call(y, a)
  {
  }

  lemma ClaimAfterProcess(rev: WorkerCapability -> string, y: System, c: nat, now: real, a: nat)
    requires Inv(rev, y) && c in y.net && a in y.agents
    ensures var y' := Apply(rev, y, Process(c, now));
            Claim(y', a) == Claim(y, a) || (Call(y, a) == Some(c) && Claim(y', a) == Some(y.world.issued))
  {
    if Call(y, a) == Some(c) { assert OkAt(rev, y, a); }
  }

  /** Each agent keeps its claim, or has just been granted the session the Master issued. */
  ghost predicate ClaimsMove(y: System, y': System, c: nat)
  {
    && y'.agents == y.agents && y'.world.issued == y.world.issued + 1
    && forall a :: a in y.agents ==>
         Claim(y', a) == Claim(y, a) || (Call(y, a) == Some(c) && Claim(y', a) == Some(y.world.issued))
  }

  lemma ClaimsStayBelow(y: System, y': System, c: nat)
    requires ClaimsOk(y) && ClaimsMove(y, y', c)
    ensures forall a :: a in y'.agents && Claim(y', a).Some? ==> Claim(y', a).value < y'.world.issued
  {
  }

  lemma ClaimsStayApart(y: System, y': System, c: nat, a: nat, b: nat)
    requires CallsOk(y) && ClaimsOk(y) && ClaimsMove(y, y', c)
    requires a in y.agents && b in y.agents && a != b && Claim(y', a).Some?
    ensures Claim(y', a) != Claim(y', b)
  {
  }

  lemma ProcessKeepsClaims(rev: WorkerCapability -> string, y: System, c: nat, now: real)
    requires Inv(rev, y) && c in y.net
    ensures var y' := Apply(rev, y, Process(c, now));
            && ClaimsOk(y')
            && forall a :: a in y.agents ==>
                 Claim(y', a) == Claim(y, a) || (Call(y, a) == Some(c) && Claim(y', a) == Some(y.world.issued))
  {
    var y' := Apply(rev, y, Process(c, now));
    forall a | a in y.agents { ClaimAfterProcess(rev, y, c, now, a); }
    assert ClaimsMove(y, y', c);
    ClaimsStayBelow(y, y', c);
    forall a, b | a in y.agents && b in y.agents && a != b && Claim(y', a).Some? ensures Claim(y', a) != Claim(y', b) {
      ClaimsStayApart(y, y', c, a, b);
    }
  }

  lemma ProcessKeepsInv(rev: WorkerCapability -> string, y: System, c: nat, now: real)
    requires Fingerprint(rev) && Inv(rev, y) && c in y.net
    ensures Inv(rev, Apply(rev, y, Process(c, now)))
  {
    var y' := Apply(rev, y, Process(c, now));
    assert RequestOk(y, c);
    StepKeepsInv(rev, y.world, Deliver(y.net[c], now));
    ProcessKeepsCalls(rev, y, c, now);
    ProcessKeepsClaims(rev, y, c, now);
    forall d | d in y'.net ensures RequestOk(y', d) {
      assert RequestOk(y, d);
    }
    forall a | a in y'.agents ensures OkAt(rev, y', a) {
      if Call(y, a) == Some(c) {
        ProcessKeepsSender(rev, y, c, now, a);
      } else {
        ProcessKeepsOther(rev, y, c, now, a);
      }
    }
  }

  // ---------------------------------------------------------------------------
  // Theorems over all runs
  // ---------------------------------------------------------------------------

  lemma ApplyKeepsInv(rev: WorkerCapability -> string, y: System, act: Action)
    requires Fingerprint(rev) && Inv(rev, y) && Enabled(rev, y, act)
    ensures Inv(rev, Apply(rev, y, act))
  {
    match act
    case Process(c, now) => ProcessKeepsInv(rev, y, c, now);
    case Lose(c) => LoseKeepsInv(rev, y, c);
    case RestartMaster => RestartKeepsInv(rev, y);
    case _ => AgentStepKeepsInv(rev, y, act);
  }

  lemma {:induction false} EveryRunKeepsInv(rev: WorkerCapability -> string, trace: seq<System>, acts: seq<Action>,
                                            n: nat)
    requires Fingerprint(rev) && Run(rev, trace, acts) && n < |trace|
    ensures Inv(rev, trace[n])
  {
    if n > 0 {
      EveryRunKeepsInv(rev, trace, acts, n - 1);
      ApplyKeepsInv(rev, trace[n - 1], acts[n - 1]);
    }
  }

  /** In every run, an agent that holds the worker's current session with no call outstanding has
      acknowledged exactly the stored revision and will send a sequence above the last accepted one. */
  lemma CurrentAgentInStep(rev: WorkerCapability -> string, trace: seq<System>, acts: seq<Action>, n: nat, a: nat)
    requires Fingerprint(rev) && Run(rev, trace, acts) && n < |trace|
    requires a in trace[n].agents && trace[n].agents[a].phase.Serving?
    requires var w, m := trace[n].agents[a].identity.workerId, trace[n].world.maps;
             w in m.sessions && m.sessions[w].sessionId == trace[n].agents[a].phase.session.sessionId
    ensures var agent, m := trace[n].agents[a], trace[n].world.maps;
            var w, s := agent.identity.workerId, agent.phase.session;
            && w in m.registry && m.registry[w].capability.revision == s.acknowledged
            && m.sessions[w].instanceId == agent.instanceId
            && m.sessions[w].lastAccepted < s.next
  {
    EveryRunKeepsInv(rev, trace, acts, n);
    assert OkAt(rev, trace[n], a);
  }

  /** In every run, the only refusals that ever reach an agent are UNKNOWN_WORKER and STALE_SESSION:
      never a protocol error, OUT_OF_ORDER, INSTANCE_MISMATCH or REREGISTER_REQUIRED. */
  lemma OnlyRecoverableRefusals(rev: WorkerCapability -> string, trace: seq<System>, acts: seq<Action>, n: nat, a: nat)
    requires Fingerprint(rev) && Run(rev, trace, acts) && n < |trace|
    requires Enabled(rev, trace[n], Receive(a))
    ensures var reply := trace[n].replies[Call(trace[n], a).value];
            reply.Granted? || reply.Accepted? || reply in {Rejected(UNKNOWN_WORKER), Rejected(STALE_SESSION)}
  {
    EveryRunKeepsInv(rev, trace, acts, n);
    assert OkAt(rev, trace[n], a);
  }

  /** In every run no agent ever fails: `WorkerAgentError` is never raised. */
  lemma NoAgentEverFails(rev: WorkerCapability -> string, trace: seq<System>, acts: seq<Action>, n: nat, a: nat)
    requires Fingerprint(rev) && Run(rev, trace, acts) && n < |trace| && a in trace[n].agents
    ensures !trace[n].agents[a].phase.Failed?
  {
    EveryRunKeepsInv(rev, trace, acts, n);
    assert OkAt(rev, trace[n], a);
  }

  // ---------------------------------------------------------------------------
  // Without transport failures and restarts nobody registers twice
  // ---------------------------------------------------------------------------

  predicate Calm(act: Action)
  {
    !act.GiveUp? && !act.Lose? && !act.RestartMaster?
  }

  /** In a calm run a worker an agent claims stays known, so no agent is told to register again. */
  predicate Settled(agent: Agent, claim: Option<nat>, reply: Option<Reply>, known: bool)
  {
    && agent.registrations <= 1
    && (agent.phase.Idle? ==> agent.registrations == 0)
    && (claim.Some? ==> known)
    && reply != Some(Rejected(UNKNOWN_WORKER))
  }

  ghost predicate SettledAt(y: System, a: nat)
    requires a in y.agents
  {
    Settled(y.agents[a], Claim(y, a), At(y.replies, Call(y, a)), y.agents[a].identity.workerId in y.world.maps.sessions)
  }

  ghost predicate AllSettled(y: System)
  {
    forall a :: a in y.agents ==> SettledAt(y, a)
  }

  lemma SegmentSettled(rev: WorkerCapability -> string, y: System, a: nat, g: Segment)
    requires CallsOk(y) && AllSettled(y) && GoodSegment(rev, y, a, g)
    requires g.agent.registrations <= 1 && (g.agent.phase.Idle? ==> g.agent.registrations == 0)
    requires a in y.agents ==> g.agent.identity == y.agents[a].identity
    ensures AllSettled(Sent(y, a, g))
  {
    var y' := Sent(y, a, g);
    forall b | b in y'.agents ensures SettledAt(y', b) {
      if b == a {
        SelfAfter(rev, y, a, g);
        if a in y.agents { assert SettledAt(y, a); }
      } else {
        OthersUntouched(y, a, g, b);
        assert SettledAt(y, b);
      }
    }
  }

  lemma ReplyKeepsRegistered(rev: WorkerCapability -> string, y: System, a: nat)
    requires Inv(rev, y) && AllSettled(y) && Enabled(rev, y, Receive(a))
    ensures var g := SegmentOf(rev, y, Receive(a));
            !g.agent.phase.Idle? && g.agent == y.agents[a].(phase := g.agent.phase)
  {
    var agent, reply := y.agents[a], y.replies[Call(y, a).value];
    var w := agent.identity.workerId;
    assert OkAt(rev, y, a) && SettledAt(y, a);
    assert Call(y, a).value !in y.net;
    ReplyLeadsOn(rev, agent, reply, y.calls, Find(y.world.maps.sessions, w), StoredRevision(y.world.maps, w));
  }

  lemma RegistrationsAfter(rev: WorkerCapability -> string, y: System, act: Action)
    requires Enabled(rev, y, act) && Calm(act) && !act.Process?
    requires act.a in y.agents ==> y.agents[act.a].registrations <= 1
    requires act.a in y.agents && y.agents[act.a].phase.Idle? ==> y.agents[act.a].registrations == 0
    requires act.Receive? ==> var g := SegmentOf(rev, y, act);
                              !g.agent.phase.Idle? && g.agent == y.agents[act.a].(phase := g.agent.phase)
    ensures var g := SegmentOf(rev, y, act);
            && g.agent.registrations <= 1 && (g.agent.phase.Idle? ==> g.agent.registrations == 0)
            && (act.a in y.agents ==> g.agent.identity == y.agents[act.a].identity)
  {
  }

  lemma CalmSegmentSettled(rev: WorkerCapability -> string, y: System, act: Action)
    requires Inv(rev, y) && AllSettled(y) && Enabled(rev, y, act) && Calm(act) && !act.Process?
    ensures AllSettled(Apply(rev, y, act))
  {
    var g := SegmentOf(rev, y, act);
    assert g.agent.registrations <= 1 && (g.agent.phase.Idle? ==> g.agent.registrations == 0)
           && (act.a in y.agents ==> g.agent.identity == y.agents[act.a].identity) by {
      if act.a in y.agents { assert SettledAt(y, act.a); }
      if act.Receive? { ReplyKeepsRegistered(rev, y, act.a); }
      RegistrationsAfter(rev, y, act);
    }
    assert GoodSegment(rev, y, act.a, g) by { SegmentGood(rev, y, act); }
    SegmentSettled(rev, y, act.a, g);
  }

  /** A known worker's agents are never answered UNKNOWN_WORKER. */
  lemma KnownWorkerAnswer(rev: WorkerCapability -> string, m: Maps, r: Request, sid: nat, now: real)
    requires m.registry.Keys == m.sessions.Keys && WorkerOf(r) in m.sessions
    ensures Handle(rev, m, r, sid, now).1 != Rejected(UNKNOWN_WORKER)
  {
  }

  lemma CalmOtherSettled(rev: WorkerCapability -> string, y: System, c: nat, now: real, b: nat)
    requires y.world.maps.registry.Keys == y.world.maps.sessions.Keys
    requires c in y.net && b in y.agents && SettledAt(y, b) && Call(y, b) != Some(c)
    ensures SettledAt(Apply(rev, y, Process(c, now)), b)
  {
    SessionEffect(rev, y.world.maps, y.net[c], y.world.issued, now, y.agents[b].identity.workerId);
  }

  lemma CalmProcessSettled(rev: WorkerCapability -> string, y: System, c: nat, now: real, b: nat)
    requires Inv(rev, y) && c in y.net && b in y.agents && SettledAt(y, b)
    ensures SettledAt(Apply(rev, y, Process(c, now)), b)
  {
    if Call(y, b) != Some(c) {
      CalmOtherSettled(rev, y, c, now, b);
    } else {
      var agent, r := y.agents[b], y.net[c];
      SessionEffect(rev, y.world.maps, r, y.world.issued, now, agent.identity.workerId);
      assert OkAt(rev, y, b);
      if !agent.phase.Registering? {
        KnownWorkerAnswer(rev, y.world.maps, r, y.world.issued, now);
      }
    }
  }

  lemma CalmStepSettled(rev: WorkerCapability -> string, y: System, act: Action)
    requires Inv(rev, y) && AllSettled(y) && Enabled(rev, y, act) && Calm(act)
    ensures AllSettled(Apply(rev, y, act))
  {
    if act.Process? {
      var y' := Apply(rev, y, act);
      forall b | b in y'.agents ensures SettledAt(y', b) {
        CalmProcessSettled(rev, y, act.call, act.now, b);
      }
    } else {
      CalmSegmentSettled(rev, y, act);
    }
  }

  lemma {:induction false} CalmRunSettled(rev: WorkerCapability -> string, trace: seq<System>, acts: seq<Action>,
                                          n: nat)
    requires Fingerprint(rev) && Run(rev, trace, acts) && n < |trace|
    requires forall i :: 0 <= i < |acts| ==> Calm(acts[i])
    ensures AllSettled(trace[n])
  {
    if n > 0 {
      CalmRunSettled(rev, trace, acts, n - 1);
      EveryRunKeepsInv(rev, trace, acts, n - 1);
      CalmStepSettled(rev, trace[n - 1], acts[n - 1]);
    }
  }

  /** In runs without transport failure or Master restart each agent registers at most once, so two
      agents claiming one worker never steal the session back and forth. */
  lemma NoPingPong(rev: WorkerCapability -> string, trace: seq<System>, acts: seq<Action>, n: nat, a: nat)
    requires Fingerprint(rev) && Run(rev, trace, acts) && n < |trace| && a in trace[n].agents
    requires forall i :: 0 <= i < |acts| ==> Calm(acts[i])
    ensures trace[n].agents[a].registrations <= 1
  {
    CalmRunSettled(rev, trace, acts, n);
    assert SettledAt(trace[n], a);
  }
}
