/**
 The Worker agent's loops as the source writes them (src/edgeshard/control/worker/master_client.py).

 Everything the agent waits for, inspections, replies and stop requests, comes from a finite script; where
 the script ends the agent is left suspended.  The loops are proved to send exactly the requests of the
 segments that `ControlProtocol` interleaves with other agents, the network and the Master.
 */
module WorkerAgent {
  import opened Options
  import opened Master
  import opened ControlProtocol

  datatype Happening = Inspected(inspection: Inspection) | Replied(reply: Reply) | Unavailable | StopRequested

  /** Whether the agent, where it stands, waits for such a thing. */
  predicate Fits(p: Phase, h: Happening)
  {
    match p
    case Idle => h.Inspected? || h.StopRequested?
    case Serving(_) => h.Inspected? || h.StopRequested?
    case Stopped => false
    case Failed => false
    case _ => h.Replied? || h.Unavailable?
  }

  /** The segment that runs when it happens. */
  function React(a: Agent, h: Happening, call: nat): Segment
    requires Fits(a.phase, h)
  {
    if h.StopRequested? then Segment(a.(phase := Stopped), None)
    else if h.Unavailable? then Segment(a.(phase := ControlProtocol.Idle), None)
    else if h.Replied? then OnReply(a, h.reply, call)
    else if a.phase.Idle? then BeginRegister(a, h.inspection, call)
    else OnInspection(a, h.inspection, call)
  }

  /** All segments of a script, one after the other: the agent they leave and the requests they send. */
  function Play(a: Agent, script: seq<Happening>, call: nat): (Agent, seq<Request>)
    decreases |script|
  {
    if script == [] || !Fits(a.phase, script[0]) then (a, [])
    else
      var g := React(a, script[0], call);
      if g.sends.None? then Play(g.agent, script[1..], call)
      else
        var (a', rest) := Play(g.agent, script[1..], call + 1);
        (a', [g.sends.value] + rest)
  }

  /** From here on, after `sent`, the script leads to `goal`. */
  ghost predicate LeadsTo(a: Agent, script: seq<Happening>, sent: seq<Request>, goal: (Agent, seq<Request>))
  {
    var (a', rest) := Play(a, script, |sent|);
    goal == (a', sent + rest)
  }

  lemma Advance(a: Agent, script: seq<Happening>, sent: seq<Request>, goal: (Agent, seq<Request>))
    requires LeadsTo(a, script, sent, goal) && script != [] && Fits(a.phase, script[0])
    ensures var g := React(a, script[0], |sent|);
            LeadsTo(g.agent, script[1..], if g.sends.Some? then sent + [g.sends.value] else sent, goal)
  {
    var g := React(a, script[0], |sent|);
    if g.sends.Some? {
      var rest := Play(g.agent, script[1..], |sent| + 1).1;
      assert sent + ([g.sends.value] + rest) == (sent + [g.sends.value]) + rest;
    }
  }

  lemma Suspends(a: Agent, script: seq<Happening>, sent: seq<Request>, goal: (Agent, seq<Request>))
    requires LeadsTo(a, script, sent, goal) && (script == [] || !Fits(a.phase, script[0]))
    ensures goal == (a, sent)
  {
    assert sent + [] == sent;
  }

  /** How a piece of the agent's code ends; the last one is a script that stops or does not fit. */
  datatype Exit = Returned | MasterUnavailable | SessionInvalid | Superseded | Fatal | Suspended

  /** Where the outer loop goes on after each exception. */
  function AfterExit(e: Exit): Phase
  {
    match e
    case MasterUnavailable => ControlProtocol.Idle
    case SessionInvalid => ControlProtocol.Idle
    case Fatal => Failed
    case _ => Stopped
  }

  /** `_raise_for_rejection`. */
  method RaiseForRejection(reason: Reason) returns (e: Exit)
    ensures !e.Returned? && !e.Suspended?
    ensures AfterExit(e) == Recovery(reason)
  {
    if reason == UNKNOWN_WORKER || reason == REREGISTER_REQUIRED {
      return SessionInvalid;
    }
    if reason == STALE_SESSION {
      return Superseded;
    }
    e := Fatal;
  }

  class WorkerAgentObject {
    const identity: Identity
    const instanceId: string
    const endpoint: Option<string>
    var currentSession: Option<Session>
    var script: seq<Happening>
    var sent: seq<Request>

    constructor (identity: Identity, instanceId: string, endpoint: Option<string>, script: seq<Happening>)
      ensures this.identity == identity && this.instanceId == instanceId && this.endpoint == endpoint
      ensures currentSession == None && this.script == script && sent == []
    {
      this.identity, this.instanceId, this.endpoint := identity, instanceId, endpoint;
      currentSession, this.script, sent := None, script, [];
    }

    /** The agent of the protocol model that this object is. */
    ghost predicate Is(a: Agent)
    {
      a.identity == identity && a.instanceId == instanceId && a.endpoint == endpoint
    }

    /** `_call`: what comes back, if anything fitting does. */
    method Call() returns (reply: Option<Reply>, e: Exit)
      modifies this`script
      ensures e in {Returned, MasterUnavailable, Suspended}
      ensures e == Suspended ==>
                && script == old(script)
                && (script == [] || !(script[0].Replied? || script[0].Unavailable?))
      ensures e != Suspended ==> old(script) != [] && script == old(script)[1..]
      ensures e == MasterUnavailable ==> old(script)[0] == Unavailable
      ensures e == Returned <==> reply.Some?
      ensures e == Returned ==> old(script)[0] == Replied(reply.value)
    {
      if script == [] || !(script[0].Replied? || script[0].Unavailable?) {
        return None, Suspended;
      }
      var h := script[0];
      script := script[1..];
      if h.Unavailable? {
        return None, MasterUnavailable;
      }
      return Some(h.reply), Returned;
    }

    /** `_register`: one fresh inspection, one request, one fresh session. */
    method Register(i: Inspection, ghost a: Agent, ghost goal: (Agent, seq<Request>))
      returns (session: Option<Session>, e: Exit, ghost a': Agent)
      requires Is(a) && a.phase.Idle?
      requires LeadsTo(BeginRegister(a, i, |sent|).agent, script, sent + [RegisterRequest(a, i)], goal)
      modifies this`script, this`sent
      ensures Is(a') && LeadsTo(a', script, sent, goal) && |script| <= |old(script)|
      ensures e == Returned <==> session.Some?
      ensures e == Returned ==> a'.phase == Serving(session.value)
      ensures e in {Returned, MasterUnavailable, Fatal, Suspended}
      ensures e == MasterUnavailable ==> a'.phase.Idle?
      ensures e == Fatal ==> a'.phase.Failed?
      ensures e == Suspended ==> goal == (a', sent) && !a'.phase.Stopped? && !a'.phase.Failed?
    {
      a' := BeginRegister(a, i, |sent|).agent;
      sent := sent + [RegistrationFor(i)];
      ghost var before := script;
      var reply;
      reply, e := Call();
      if e == Suspended {
        Suspends(a', before, sent, goal);
        return None, Suspended, a';
      }
      Advance(a', before, sent, goal);
      a' := React(a', before[0], |sent|).agent;
      if e == MasterUnavailable {
        return None, MasterUnavailable, a';
      }
      if !reply.value.Granted? {
        return None, Fatal, a';
      }
      session := Some(Session(reply.value.sessionId, i.capability.revision, 1));
    }

    function RegistrationFor(i: Inspection): Request
    {
      Master.Register(identity, instanceId, i.capability, i.state, endpoint)
    }

    /** `_update_capability`. */
    method UpdateCapability(session: Session, i: Inspection, ghost a: Agent, ghost goal: (Agent, seq<Request>))
      returns (e: Exit, ghost a': Agent)
      requires Is(a) && a.phase == Updating(session, |sent|, i)
      requires LeadsTo(a, script, sent + [UpdateRequest(a, session, i)], goal)
      modifies this`script, this`sent
      ensures Is(a') && |script| <= |old(script)|
      ensures e == Returned ==>
        var renewed := session.(acknowledged := i.capability.revision);
        a'.phase == Beating(renewed, |sent|, i) && LeadsTo(a', script, sent + [HeartbeatRequest(a', renewed, i)], goal)
      ensures e != Returned ==> LeadsTo(a', script, sent, goal)
      ensures e != Returned && e != Suspended ==> a'.phase == AfterExit(e)
      ensures e == Suspended ==> goal == (a', sent) && !a'.phase.Stopped? && !a'.phase.Failed?
    {
      a' := a;
      sent := sent + [Update(identity.workerId, instanceId, session.sessionId, i.capability, i.state)];
      ghost var before := script;
      var reply;
      reply, e := Call();
      if e == Suspended {
        Suspends(a', before, sent, goal);
        return;
      }
      Advance(a', before, sent, goal);
      a' := React(a', before[0], |sent|).agent;
      if e == MasterUnavailable || reply.value.Accepted? {
        return;
      }
      if reply.value.Rejected? {
        e := RaiseForRejection(reply.value.reason);
        return;
      }
      e := Fatal;
    }

    /** One heartbeat and its answer. */
    method Beat(session: Session, i: Inspection, ghost a: Agent, ghost goal: (Agent, seq<Request>))
      returns (e: Exit, ghost a': Agent)
      requires Is(a) && a.phase == Beating(session, |sent|, i)
      requires LeadsTo(a, script, sent + [HeartbeatRequest(a, session, i)], goal)
      modifies this`script, this`sent
      ensures Is(a') && LeadsTo(a', script, sent, goal) && |script| <= |old(script)|
      ensures e == Returned ==> a'.phase == Serving(session.(next := session.next + 1))
      ensures e != Returned && e != Suspended ==> a'.phase == AfterExit(e)
      ensures e == Suspended ==> goal == (a', sent) && !a'.phase.Stopped? && !a'.phase.Failed?
    {
      a' := a;
      sent := sent + [Heartbeat(identity.workerId, instanceId, session.sessionId, session.next, i.capability.revision,
                                i.state)];
      ghost var before := script;
      var reply;
      reply, e := Call();
      if e == Suspended {
        Suspends(a', before, sent, goal);
        return;
      }
      Advance(a', before, sent, goal);
      a' := React(a', before[0], |sent|).agent;
      if e == MasterUnavailable || reply.value.Accepted? {
        return;
      }
      if reply.value.Rejected? {
        e := RaiseForRejection(reply.value.reason);
        return;
      }
      e := Fatal;
    }

    /** `_heartbeat_loop`: sequences count from 1, a changed revision is sent first. */
    method HeartbeatLoop(granted: Session, ghost a: Agent, ghost goal: (Agent, seq<Request>))
      returns (e: Exit, ghost a': Agent)
      requires Is(a) && a.phase == Serving(granted) && LeadsTo(a, script, sent, goal)
      modifies this`script, this`sent
      ensures Is(a') && LeadsTo(a', script, sent, goal) && |script| <= |old(script)|
      ensures e == Returned ==> a'.phase == Stopped
      ensures e != Returned && e != Suspended ==> a'.phase == AfterExit(e)
      ensures e == Suspended ==> goal == (a', sent) && !a'.phase.Stopped? && !a'.phase.Failed?
    {
      var session := granted;
      a', e := a, Returned;
      while true
        invariant Is(a') && a'.phase == Serving(session) && LeadsTo(a', script, sent, goal) && |script| <= |old(script)|
        decreases |script|
      {
        if script == [] || !(script[0].Inspected? || script[0].StopRequested?) {
          Suspends(a', script, sent, goal);
          return Suspended, a';
        }
        var h := script[0];
        Advance(a', script, sent, goal);
        script := script[1..];
        a' := React(a', h, |sent|).agent;
        if h.StopRequested? {
          return Returned, a';
        }
        var revision := h.inspection.capability.revision;
        if revision != session.acknowledged {
          e, a' := UpdateCapability(session, h.inspection, a', goal);
          if e != Returned {
            return;
          }
          session := session.(acknowledged := revision);
        }
        e, a' := Beat(session, h.inspection, a', goal);
        if e != Returned {
          return;
        }
        session := session.(next := session.next + 1);
      }
    }

    /** `run`: the requests it sends and where it ends are those of the segments. */
    method Run(ghost start: Agent) returns (e: Exit)
      requires Is(start) && start.phase.Idle? && sent == []
      modifies this
      ensures sent == Play(start, old(script), 0).1
      ensures currentSession == None
      ensures e == Returned <==> Play(start, old(script), 0).0.phase.Stopped?
      ensures e == Fatal <==> Play(start, old(script), 0).0.phase.Failed?
    {
      ghost var goal := Play(start, script, 0);
      ghost var a := start;
      assert sent + goal.1 == goal.1;
      while true
        invariant Is(a) && a.phase.Idle? && LeadsTo(a, script, sent, goal)
        invariant goal == Play(start, old(script), 0)
        decreases |script|
      {
        currentSession := None;
        if script == [] || !(script[0].Inspected? || script[0].StopRequested?) {
          Suspends(a, script, sent, goal);
          return Suspended;
        }
        var h := script[0];
        Advance(a, script, sent, goal);
        script := script[1..];
        if h.StopRequested? {
          Ends(React(a, h, |sent|).agent, script, sent, goal);
          return Returned;
        }
        var session;
        session, e, a := Register(h.inspection, a, goal);
        if e == Returned {
          currentSession := session;
          e, a := HeartbeatLoop(session.value, a, goal);
          currentSession := None;
        }
        if e == Suspended {
          return;
        }
        if e == Returned || e == Superseded || e == Fatal {
          Ends(a, script, sent, goal);
          return if e == Fatal then Fatal else Returned;
        }
      }
    }
  }

  /** A stopped or failed agent does nothing more. */
  lemma Ends(a: Agent, script: seq<Happening>, sent: seq<Request>, goal: (Agent, seq<Request>))
    requires LeadsTo(a, script, sent, goal) && (a.phase.Stopped? || a.phase.Failed?)
    ensures goal == (a, sent)
  {
    assert sent + [] == sent;
  }
}
