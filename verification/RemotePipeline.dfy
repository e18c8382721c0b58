/**
 The driver of a deployed pipeline (src/edgeshard/control/mock/client.py): per session, a clock with the
 next wire step and the tokens consumed so far.  Any number of calls may be in flight, and each of them
 may fail at any time, before or after the stages have executed it.
 */
module RemotePipeline {
  import opened Options
  import opened Decoder
  import opened Pipeline
  import opened ShardNetwork

  datatype Clock = Clock(step: nat, pastLength: nat)

  /** `_token_message`. */
  function TokenMessage(executionId: string, sid: string, ids: seq<int>, phase: Kind, step: nat, mode: LogitsMode,
                        requestId: string): Message
  {
    Message(Header(PROTOCOL_VERSION, executionId, sid, requestId, phase, step, MASTER_STAGE, 0, mode), phase,
            TokenPayload(ids), phase)
  }

  /** The clock once the reply to a call is there: prefill sets it, decode advances it. */
  function Ticked(clock: Option<Clock>, call: Message): Option<Clock>
  {
    if call.rpc == PREFILL then Some(Clock(1, if call.payload.TokenPayload? then |call.payload.ids| else 0))
    else if clock.Some? then Some(Clock(clock.value.step + 1, clock.value.pastLength + 1))
    else None
  }

  function ClockOf(clocks: map<string, Clock>, sid: string): Option<Clock>
  {
    if sid in clocks then Some(clocks[sid]) else None
  }

  /** The facade itself; a call is cut at its `await`. */
  class Driver {
    const executionId: string
    var clocks: map<string, Clock>

    constructor (executionId: string)
      ensures this.executionId == executionId && clocks == map[]
    {
      this.executionId, this.clocks := executionId, map[];
    }

    /** The empty prompt is refused by the payload's own check. */
    method SendPrefill(sid: string, ids: seq<int>, mode: LogitsMode, requestId: string) returns (call: Option<Message>)
      ensures call == if ids == [] then None else Some(TokenMessage(executionId, sid, ids, PREFILL, 0, mode, requestId))
    {
      if ids == [] {
        return None;
      }
      call := Some(TokenMessage(executionId, sid, ids, PREFILL, 0, mode, requestId));
    }

    method SendDecode(sid: string, token: int, requestId: string) returns (call: Option<Message>)
      ensures call ==
              if sid !in clocks then None
              else Some(TokenMessage(executionId, sid, [token], DECODE, clocks[sid].step, FULL, requestId))
    {
      if sid !in clocks {
        return None;
      }
      call := Some(TokenMessage(executionId, sid, [token], DECODE, clocks[sid].step, FULL, requestId));
    }

    method Replied(call: Message)
      requires call.payload.TokenPayload? && (call.rpc == DECODE ==> call.header.sessionId in clocks)
      modifies this
      ensures ClockOf(clocks, call.header.sessionId) == Ticked(ClockOf(old(clocks), call.header.sessionId), call)
      ensures clocks - {call.header.sessionId} == old(clocks) - {call.header.sessionId}
    {
      var sid := call.header.sessionId;
      if call.rpc == PREFILL {
        clocks := clocks[sid := Clock(1, |call.payload.ids|)];
      } else {
        var clock := clocks[sid];
        clocks := clocks[sid := Clock(clock.step + 1, clock.pastLength + 1)];
      }
    }
  }

  // ---------------------------------------------------------------------------
  // The driver and the stages together
  // ---------------------------------------------------------------------------

  /** `waiting` are the calls in flight; `answered` those that got their reply, in order. */
  datatype System = System(w: World, clock: Option<Clock>, waiting: set<Message>, answered: seq<Message>)

  datatype Action =
    | SendPrefill(ids: seq<int>, mode: LogitsMode, requestId: string)
    | SendDecode(token: int, requestId: string)
    | Answer(call: Message)
    | Fail(call: Message)
    | Network(event: Event)

  function ClockStep(clock: Option<Clock>): nat
  {
    if clock.None? then 0 else clock.value.step
  }

  ghost predicate FreshId(w: World, requestId: string)
  {
    forall msg :: msg in w.net ==> msg.header.requestId != requestId
  }

  /** The reply to `call` exists: the last stage has executed the step at which stage 0 executed `call`. */
  ghost predicate Replied(d: Deployment, w: World, call: Message)
  {
    && Shape(d, w) && d.specs != []
    && 0 <= call.header.step < |w.log[|d.specs| - 1]|
    && call.header.step < |w.log[0]| && w.log[0][call.header.step].input == call
  }

  /** The driver is the only one to send for `sid`; request ids are never reused. */
  ghost predicate Possible(d: Deployment, sid: string, x: System, a: Action)
  {
    match a
    case SendPrefill(ids, _, requestId) => ids != [] && FreshId(x.w, requestId)
    case SendDecode(_, requestId) => x.clock.Some? && FreshId(x.w, requestId)
    case Answer(call) => call in x.waiting && Replied(d, x.w, call)
    case Fail(call) => call in x.waiting
    case Network(e) => Enabled(d, sid, x.w, e) && (e.Inject? ==> e.msg.header.sessionId != sid)
  }

  ghost function CallOf(d: Deployment, sid: string, x: System, a: Action): Message
    requires a.SendPrefill? || (a.SendDecode? && x.clock.Some?)
  {
    if a.SendPrefill? then TokenMessage(d.executionId, sid, a.ids, PREFILL, 0, a.mode, a.requestId)
    else TokenMessage(d.executionId, sid, [a.token], DECODE, x.clock.value.step, FULL, a.requestId)
  }

  ghost function Act(d: Deployment, sid: string, x: System, a: Action): System
    requires ValidDeployment(d) && Shape(d, x.w) && Possible(d, sid, x, a)
  {
    if a.SendPrefill? || a.SendDecode? then
      var call := CallOf(d, sid, x, a);
      x.(w := Step(d, sid, x.w, Inject(call)), waiting := x.waiting + {call})
    else if a.Answer? then
      x.(clock := Ticked(x.clock, a.call), waiting := x.waiting - {a.call}, answered := x.answered + [a.call])
    else if a.Fail? then x.(waiting := x.waiting - {a.call})
    else x.(w := Step(d, sid, x.w, a.event))
  }

  /** The tokens of answered calls as steps of a generation. */
  ghost function StepsOf(calls: seq<Message>): (h: seq<StepInput>)
    ensures |h| == |calls|
  {
    seq(|calls|, j requires 0 <= j < |calls| =>
      StepInput(if calls[j].payload.TokenPayload? then calls[j].payload.ids else [], ModeAt(j, calls[j].header.mode)))
  }

  lemma {:induction false} ConsumedSnoc(steps: seq<StepInput>, next: StepInput)
    ensures Consumed(steps + [next]) == Consumed(steps) + |next.tokens|
    decreases |steps|
  {
    if steps == [] {
      assert steps + [next] == [next];
    } else {
      assert (steps + [next])[1..] == steps[1..] + [next];
      ConsumedSnoc(steps[1..], next);
    }
  }

  /** Messages for `sid` sent by the driver carry a step the clock has reached. */
  ghost predicate SentByClock(d: Deployment, sid: string, step: nat, msg: Message)
  {
    msg.header.sessionId == sid && msg.header.executionId == d.executionId && msg.header.source == MASTER_STAGE ==>
      msg.header.step <= step
  }

  ghost predicate ClockOk(clock: Option<Clock>, answered: seq<Message>)
  {
    && ClockStep(clock) == |answered|
    && (clock.Some? ==> |answered| > 0 && clock.value.pastLength == Consumed(StepsOf(answered)))
  }

  /** The answered calls are the first inputs stage 0 executed, and it is at most one ahead of them. */
  ghost predicate Tracks(log: seq<Exchange>, last: seq<Exchange>, answered: seq<Message>)
  {
    && |answered| <= |last| && |answered| <= |log| <= |answered| + 1
    && forall j :: 0 <= j < |answered| ==> log[j].input == answered[j]
  }

  ghost predicate CallsOk(net: set<Message>, log: seq<Exchange>, waiting: set<Message>, answered: seq<Message>)
  {
    && waiting <= net
    && (forall j :: 0 <= j < |log| ==> log[j].input in net)
    && (forall j :: 0 <= j < |answered| ==> answered[j] in net && answered[j] !in waiting)
  }

  ghost predicate DriverInv(d: Deployment, sid: string, x: System)
    requires ValidDeployment(d)
  {
    && Inv(d, sid, x.w)
    && ClockOk(x.clock, x.answered)
    && Tracks(x.w.log[0], x.w.log[|d.specs| - 1], x.answered)
    && CallsOk(x.w.net, x.w.log[0], x.waiting, x.answered)
    && forall msg :: msg in x.w.net ==> SentByClock(d, sid, |x.answered|, msg)
  }

  lemma SendKeeps(d: Deployment, sid: string, x: System, a: Action)
    requires ValidDeployment(d) && DriverInv(d, sid, x) && Possible(d, sid, x, a) && (a.SendPrefill? || a.SendDecode?)
    ensures DriverInv(d, sid, Act(d, sid, x, a))
  {
    var call := CallOf(d, sid, x, a);
    StepKeepsInv(d, sid, x.w, Inject(call));
    assert call !in x.w.net;
  }

  /** Facts about a call whose reply arrives: it is the step the clock stands at. */
  lemma AnswerIsNext(d: Deployment, sid: string, x: System, call: Message)
    requires ValidDeployment(d) && DriverInv(d, sid, x) && Possible(d, sid, x, Answer(call))
    ensures call.header.step == |x.answered| && call.payload.TokenPayload?
    ensures call.rpc == PhaseOf(call.header.step)
    ensures call.rpc == DECODE ==> |call.payload.ids| == 1
  {
    var w, s := x.w, call.header.step;
    assert forall j :: 0 <= j < |x.answered| ==> w.log[0][j].input != call;
    assert StageOk(d, sid, History(w.log[0]), 0, w.tables[0], w.log[0], w.created[0]);
    assert EntryOk(d, sid, History(w.log[0]), 0, s, w.log[0][s]);
  }

  lemma ClockTicks(clock: Option<Clock>, answered: seq<Message>, call: Message)
    requires ClockOk(clock, answered) && call.payload.TokenPayload? && call.rpc == PhaseOf(|answered|)
    requires call.rpc == DECODE ==> |call.payload.ids| == 1
    ensures Ticked(clock, call) == Some(Clock(|answered| + 1, Consumed(StepsOf(answered + [call]))))
  {
    var next := StepInput(call.payload.ids, ModeAt(|answered|, call.header.mode));
    assert StepsOf(answered + [call]) == StepsOf(answered) + [next];
    ConsumedSnoc(StepsOf(answered), next);
    if answered == [] { assert StepsOf(answered) == []; }
  }

  lemma AnswerTracks(net: set<Message>, log: seq<Exchange>, last: seq<Exchange>, waiting: set<Message>,
                     answered: seq<Message>, call: Message)
    requires Tracks(log, last, answered) && CallsOk(net, log, waiting, answered) && call in waiting
    requires |answered| < |log| && |answered| < |last| && log[|answered|].input == call
    ensures Tracks(log, last, answered + [call]) && CallsOk(net, log, waiting - {call}, answered + [call])
  {
  }

  lemma AnswerKeeps(d: Deployment, sid: string, x: System, call: Message)
    requires ValidDeployment(d) && DriverInv(d, sid, x) && Possible(d, sid, x, Answer(call))
    ensures DriverInv(d, sid, Act(d, sid, x, Answer(call)))
  {
    AnswerIsNext(d, sid, x, call);
    ClockTicks(x.clock, x.answered, call);
    AnswerTracks(x.w.net, x.w.log[0], x.w.log[|d.specs| - 1], x.waiting, x.answered, call);
    forall msg | msg in x.w.net ensures SentByClock(d, sid, |x.answered + [call]|, msg) {
      assert SentByClock(d, sid, |x.answered|, msg);
    }
  }

  /** A network step adds to stage 0's log only an input the clock has reached. */
  lemma NetworkTracks(d: Deployment, sid: string, w: World, e: Event, waiting: set<Message>, answered: seq<Message>)
    requires ValidDeployment(d) && Shape(d, w) && d.specs != [] && Enabled(d, sid, w, e)
    requires StageOk(d, sid, History(w.log[0]), 0, w.tables[0], w.log[0], w.created[0])
    requires Tracks(w.log[0], w.log[|d.specs| - 1], answered) && CallsOk(w.net, w.log[0], waiting, answered)
    requires e.Deliver? ==> SentByClock(d, sid, |answered|, e.msg)
    ensures var w' := Step(d, sid, w, e);
            Tracks(w'.log[0], w'.log[|d.specs| - 1], answered) && CallsOk(w'.net, w'.log[0], waiting, answered)
  {
    if e.Deliver? && e.stage == 0 && e.msg.header.sessionId == sid {
      ExecuteMeans(d, 0, w.tables[0], e.msg, e.requestId);
      StageFacts(d, History(w.log[0]), 0, |w.log[0]|);
    }
  }

  lemma NetworkSends(d: Deployment, sid: string, w: World, e: Event, step: nat, msg: Message)
    requires ValidDeployment(d) && Shape(d, w) && Enabled(d, sid, w, e) && (e.Inject? ==> e.msg.header.sessionId != sid)
    requires forall m :: m in w.net ==> SentByClock(d, sid, step, m)
    requires msg in Step(d, sid, w, e).net
    ensures SentByClock(d, sid, step, msg)
  {
    if e.Deliver? { ExecuteMeans(d, e.stage, w.tables[e.stage], e.msg, e.requestId); }
  }

  lemma NetworkKeeps(d: Deployment, sid: string, x: System, e: Event)
    requires ValidDeployment(d) && DriverInv(d, sid, x) && Possible(d, sid, x, Network(e))
    ensures DriverInv(d, sid, Act(d, sid, x, Network(e)))
  {
    StepKeepsInv(d, sid, x.w, e);
    NetworkTracks(d, sid, x.w, e, x.waiting, x.answered);
    var w' := Step(d, sid, x.w, e);
    forall msg | msg in w'.net ensures SentByClock(d, sid, |x.answered|, msg) {
      NetworkSends(d, sid, x.w, e, |x.answered|, msg);
    }
  }

  lemma ActKeepsInv(d: Deployment, sid: string, x: System, a: Action)
    requires ValidDeployment(d) && DriverInv(d, sid, x) && Possible(d, sid, x, a)
    ensures DriverInv(d, sid, Act(d, sid, x, a))
  {
    match a
    case SendPrefill(_, _, _) => SendKeeps(d, sid, x, a);
    case SendDecode(_, _) => SendKeeps(d, sid, x, a);
    case Answer(call) => AnswerKeeps(d, sid, x, call);
    case Fail(_) =>
    case Network(e) => NetworkKeeps(d, sid, x, e);
  }

  ghost predicate Leads(d: Deployment, sid: string, x: System, x': System)
    requires ValidDeployment(d)
  {
    Shape(d, x.w) && exists a :: Possible(d, sid, x, a) && x' == Act(d, sid, x, a)
  }

  ghost predicate IsDrive(d: Deployment, sid: string, run: seq<System>)
    requires ValidDeployment(d)
  {
    && run != [] && Init(d, run[0].w) && run[0].clock == None && run[0].waiting == {} && run[0].answered == []
    && forall i :: 0 < i < |run| ==> Leads(d, sid, run[i - 1], run[i])
  }

  lemma {:induction false} EveryDriveKeepsInv(d: Deployment, sid: string, run: seq<System>, i: nat)
    requires ValidDeployment(d) && IsDrive(d, sid, run) && i < |run|
    ensures DriverInv(d, sid, run[i])
  {
    if i == 0 {
      EveryRunKeepsInv(d, sid, [run[0].w], 0);
    } else {
      EveryDriveKeepsInv(d, sid, run, i - 1);
      assert Leads(d, sid, run[i - 1], run[i]);
      var a :| Possible(d, sid, run[i - 1], a) && run[i] == Act(d, sid, run[i - 1], a);
      ActKeepsInv(d, sid, run[i - 1], a);
    }
  }

  lemma {:induction false} StagesNested(d: Deployment, log: seq<seq<Exchange>>, k: nat, k': nat)
    requires |log| == |d.specs| && k <= k' < |d.specs|
    requires forall i :: 0 < i < |d.specs| ==> Feeds(log[i - 1], log[i])
    ensures |log[k']| <= |log[k]|
    decreases k'
  {
    if k < k' {
      StagesNested(d, log, k, k' - 1);
      assert Feeds(log[k' - 1], log[k']);
    }
  }

  /** clock <= last stage <= ... <= stage 0 <= clock + 1, counted in steps, in every reachable state. */
  lemma ClockBracketsStages(d: Deployment, sid: string, run: seq<System>, i: nat, k: nat, k': nat)
    requires ValidDeployment(d) && IsDrive(d, sid, run) && i < |run| && k <= k' < |d.specs|
    requires Shape(d, run[i].w) && sid in run[i].w.tables[k] && sid in run[i].w.tables[k']
    ensures ClockStep(run[i].clock) <= run[i].w.tables[k'][sid].step
                                    <= run[i].w.tables[k][sid].step <= ClockStep(run[i].clock) + 1
  {
    EveryDriveKeepsInv(d, sid, run, i);
    var w := run[i].w;
    var history := History(w.log[0]);
    assert StageOk(d, sid, history, k, w.tables[k], w.log[k], w.created[k]);
    assert StageOk(d, sid, history, k', w.tables[k'], w.log[k'], w.created[k']);
    StageFacts(d, history, k, |w.log[k]|);
    StageFacts(d, history, k', |w.log[k']|);
    StagesNested(d, w.log, k, k');
    StagesNested(d, w.log, 0, k);
    StagesNested(d, w.log, k', |d.specs| - 1);
  }

  lemma HistoryOfAnswers(log: seq<Exchange>, answered: seq<Message>, call: Message)
    requires |answered| < |log| && log[|answered|].input == call
    requires forall j :: 0 <= j < |answered| ==> log[j].input == answered[j]
    ensures History(log)[..|answered| + 1] == StepsOf(answered + [call])
  {
  }

  lemma LastStageSends(d: Deployment, sid: string, w: World, s: nat)
    requires ValidDeployment(d) && Inv(d, sid, w) && s < |w.log[|d.specs| - 1]| && s < |w.log[0]|
    ensures w.log[|d.specs| - 1][s].output.payload == PayloadOf(ModelLogits(d.m, History(w.log[0])[..s + 1]))
  {
    var history, last := History(w.log[0]), |d.specs| - 1;
    assert StageOk(d, sid, history, last, w.tables[last], w.log[last], w.created[last]);
    assert EntryOk(d, sid, history, last, s, w.log[last][s]);
    StageTakesStep(d, history, last, s);
  }

  lemma ReplyPayload(d: Deployment, sid: string, w: World, answered: seq<Message>, call: Message, s: nat)
    requires ValidDeployment(d) && Inv(d, sid, w) && s == |answered| < |w.log[|d.specs| - 1]|
    requires s < |w.log[0]| && w.log[0][s].input == call && forall j :: 0 <= j < s ==> w.log[0][j].input == answered[j]
    ensures w.log[|d.specs| - 1][s].output.payload == PayloadOf(ModelLogits(d.m, StepsOf(answered + [call])))
  {
    LastStageSends(d, sid, w, s);
    HistoryOfAnswers(w.log[0], answered, call);
  }

  /** Whatever fails in between, each reply is the unsplit model's answer to exactly the calls answered so
      far plus this one, and the clock's past length counts their tokens. */
  lemma AnswersAreModelLogits(d: Deployment, sid: string, run: seq<System>, i: nat, call: Message)
    requires ValidDeployment(d) && IsDrive(d, sid, run) && i < |run|
    requires Possible(d, sid, run[i], Answer(call))
    ensures var answered := run[i].answered + [call];
            && call.header.step == |run[i].answered|
            && run[i].w.log[|d.specs| - 1][call.header.step].output.payload ==
                 PayloadOf(ModelLogits(d.m, StepsOf(answered)))
            && Ticked(run[i].clock, call) == Some(Clock(|answered|, Consumed(StepsOf(answered))))
  {
    EveryDriveKeepsInv(d, sid, run, i);
    AnswerMeans(d, sid, run[i], call);
  }

  lemma AnswerMeans(d: Deployment, sid: string, x: System, call: Message)
    requires ValidDeployment(d) && DriverInv(d, sid, x) && Possible(d, sid, x, Answer(call))
    ensures call.header.step == |x.answered|
    ensures x.w.log[|d.specs| - 1][call.header.step].output.payload ==
              PayloadOf(ModelLogits(d.m, StepsOf(x.answered + [call])))
    ensures Ticked(x.clock, call) == Some(Clock(|x.answered| + 1, Consumed(StepsOf(x.answered + [call]))))
  {
    AnswerIsNext(d, sid, x, call);
    ClockTicks(x.clock, x.answered, call);
    ReplyPayload(d, sid, x.w, x.answered, call, call.header.step);
  }

  // ---------------------------------------------------------------------------
  // A call that nothing disturbs is answered
  // ---------------------------------------------------------------------------

  /** What the driver sends: the given tokens under the given mode, for the step its clock stands at. */
  lemma SentMeans(d: Deployment, sid: string, x: System, a: Action)
    requires Possible(d, sid, x, a) && (a.SendPrefill? || a.SendDecode?)
    ensures var call := CallOf(d, sid, x, a);
            && call.header.sessionId == sid && call.header.executionId == d.executionId
            && call.header.requestId == a.requestId
            && call.header.step == (if a.SendPrefill? then 0 else x.clock.value.step)
            && call.payload == TokenPayload(if a.SendPrefill? then a.ids else [a.token])
            && call.header.mode == (if a.SendPrefill? then a.mode else FULL)
  {
  }

  /** What the driver sends is executed at stage 0 whenever that stage stands at the call's step. */
  lemma SentIsExecuted(d: Deployment, sid: string, x: System, a: Action, table: Sessions, nextId: string)
    requires ValidDeployment(d) && Possible(d, sid, x, a) && (a.SendPrefill? || a.SendDecode?)
    requires d.executionId != "" && sid != "" && a.requestId != ""
    requires sid in table && table[sid].step == CallOf(d, sid, x, a).header.step
    requires a.SendDecode? ==> x.clock.value.step > 0
    ensures WellFormed(d, 0, CallOf(d, sid, x, a), table[sid].step)
    ensures Execute(d, 0, table, CallOf(d, sid, x, a), nextId).1.Done?
  {
    ExecutedIff(d, 0, table, CallOf(d, sid, x, a), nextId);
  }

  /** Stage `i` has the session open and has executed `s` steps of it. */
  ghost predicate StandsAt(w: World, sid: string, i: nat, s: nat)
    requires i < |w.tables| == |w.log|
  {
    sid in w.tables[i] && w.tables[i][sid].step == s && |w.log[i]| == s
  }

  /** Stage `k` has the session open at step `s`. */
  ghost predicate OpenAt(w: World, sid: string, k: nat, s: nat)
    requires k < |w.tables|
  {
    sid in w.tables[k] && w.tables[k][sid].step == s
  }

  /** All stages stand at step `s`. */
  ghost predicate AllStand(d: Deployment, sid: string, w: World, s: nat)
  {
    Shape(d, w) && forall i :: 0 <= i < |d.specs| ==> StandsAt(w, sid, i, s)
  }

  /** Stage `i` has executed step `s` exactly if it comes before stage `k`. */
  ghost predicate PassedAt(w: World, sid: string, i: nat, k: nat, s: nat)
    requires i < |w.tables| == |w.log|
  {
    StandsAt(w, sid, i, if i < k then s + 1 else s)
  }

  /** `call` has been executed before stage `k`, `msg` is what it has become, and the stages from `k` on stand at
      step `s`. */
  ghost predicate Underway(d: Deployment, sid: string, x: System, call: Message, s: nat, k: nat, msg: Message)
  {
    && Shape(d, x.w) && k < |d.specs|
    && (forall i :: 0 <= i < |d.specs| ==> PassedAt(x.w, sid, i, k, s))
    && msg in x.w.net && msg.header.sessionId == sid && WellFormed(d, k, msg, s)
    && call in x.waiting && call.header.step == s
    && if k == 0 then msg == call else |x.w.log[0]| > s && x.w.log[0][s].input == call
  }

  ghost predicate IsPath(d: Deployment, sid: string, path: seq<System>)
    requires ValidDeployment(d)
  {
    path != [] && forall i :: 0 < i < |path| ==> Leads(d, sid, path[i - 1], path[i])
  }

  lemma Delivered(d: Deployment, sid: string, x: System, call: Message, s: nat, k: nat, msg: Message)
    returns (x': System, msg': Message)
    requires ValidDeployment(d) && Underway(d, sid, x, call, s, k, msg)
    ensures Leads(d, sid, x, x') && x'.waiting == x.waiting && x'.clock == x.clock && x'.answered == x.answered
    ensures k + 1 < |d.specs| ==> Underway(d, sid, x', call, s, k + 1, msg')
    ensures k + 1 == |d.specs| ==> Replied(d, x'.w, call) && AllStand(d, sid, x'.w, s + 1)
  {
    var e := Deliver(k, msg, "r");
    assert PassedAt(x.w, sid, k, k, s);
    ExecuteMeans(d, k, x.w.tables[k], msg, "r");
    ExecutedIff(d, k, x.w.tables[k], msg, "r");
    EmittedMeans(d, k, x.w.tables[k], msg, "r");
    assert Possible(d, sid, x, Network(e));
    x' := Act(d, sid, x, Network(e));
    msg' := Execute(d, k, x.w.tables[k], msg, "r").1.value;
    var k', s' := k + 1, s + 1;
    forall i | 0 <= i < |d.specs| ensures PassedAt(x'.w, sid, i, k', s) {
      assert PassedAt(x.w, sid, i, k, s);
    }
    if k' == |d.specs| {
      forall i | 0 <= i < |d.specs| ensures StandsAt(x'.w, sid, i, s') {
        assert PassedAt(x'.w, sid, i, k', s);
      }
    }
  }

  /** The message goes through all stages from `k` on, and the reply arrives. */
  lemma {:induction false} Completes(d: Deployment, sid: string, x: System, call: Message, s: nat, k: nat,
                                     msg: Message)
    returns (path: seq<System>)
    requires ValidDeployment(d) && Underway(d, sid, x, call, s, k, msg)
    ensures IsPath(d, sid, path) && path[0] == x
    ensures path[|path| - 1].answered == x.answered + [call]
    ensures path[|path| - 1].clock == Ticked(x.clock, call) && AllStand(d, sid, path[|path| - 1].w, s + 1)
    decreases |d.specs| - k
  {
    var x', msg' := Delivered(d, sid, x, call, s, k, msg);
    var rest: seq<System>;
    if k + 1 < |d.specs| {
      rest := Completes(d, sid, x', call, s, k + 1, msg');
    } else {
      assert Possible(d, sid, x', Answer(call));
      rest := [x', Act(d, sid, x', Answer(call))];
    }
    path := [x] + rest;
    forall i | 0 < i < |path| ensures Leads(d, sid, path[i - 1], path[i]) {
      if i > 1 { assert Leads(d, sid, rest[i - 2], rest[i - 1]); }
    }
  }

  /** In every reachable state whose stages all stand where the clock stands, a prefill before the first reply and a
      decode after it can be answered: nothing a stage checks is in the way. */
  lemma CallCompletes(d: Deployment, sid: string, run: seq<System>, i: nat, a: Action) returns (path: seq<System>)
    requires ValidDeployment(d) && IsDrive(d, sid, run) && i < |run| && Possible(d, sid, run[i], a)
    requires d.executionId != "" && sid != "" && (a.SendPrefill? || a.SendDecode?) && a.requestId != ""
    requires a.SendPrefill? <==> run[i].clock.None?
    requires Shape(d, run[i].w)
    requires forall k :: 0 <= k < |d.specs| ==> OpenAt(run[i].w, sid, k, ClockStep(run[i].clock))
    ensures IsPath(d, sid, path) && path[0] == run[i]
    ensures path[|path| - 1].answered == run[i].answered + [CallOf(d, sid, run[i], a)]
    ensures path[|path| - 1].clock == Ticked(run[i].clock, CallOf(d, sid, run[i], a))
    ensures AllStand(d, sid, path[|path| - 1].w, ClockStep(run[i].clock) + 1)
  {
    var x := run[i];
    EveryDriveKeepsInv(d, sid, run, i);
    LogsAtStep(d, sid, x, ClockStep(x.clock));
    var x', call := Act(d, sid, x, a), CallOf(d, sid, x, a);
    Sends(d, sid, x, a, ClockStep(x.clock));
    var rest := Completes(d, sid, x', call, ClockStep(x.clock), 0, call);
    path := [x] + rest;
    forall i | 0 < i < |path| ensures Leads(d, sid, path[i - 1], path[i]) {
      if i > 1 { assert Leads(d, sid, rest[i - 2], rest[i - 1]); }
    }
  }

  lemma Sends(d: Deployment, sid: string, x: System, a: Action, s: nat)
    requires ValidDeployment(d) && AllStand(d, sid, x.w, s) && Possible(d, sid, x, a)
    requires d.executionId != "" && sid != "" && (a.SendPrefill? || a.SendDecode?) && a.requestId != ""
    requires (a.SendPrefill? ==> s == 0) && (a.SendDecode? ==> x.clock.value.step == s > 0)
    ensures var x', call := Act(d, sid, x, a), CallOf(d, sid, x, a);
            && Leads(d, sid, x, x') && Underway(d, sid, x', call, s, 0, call)
            && x'.clock == x.clock && x'.answered == x.answered
  {
    var x', call := Act(d, sid, x, a), CallOf(d, sid, x, a);
    assert StandsAt(x.w, sid, 0, s);
    SentIsExecuted(d, sid, x, a, x.w.tables[0], "r");
    forall i | 0 <= i < |d.specs| ensures PassedAt(x'.w, sid, i, 0, s) {
      assert StandsAt(x.w, sid, i, s);
    }
  }

  lemma LogsAtStep(d: Deployment, sid: string, x: System, s: nat)
    requires ValidDeployment(d) && DriverInv(d, sid, x)
    requires forall k :: 0 <= k < |d.specs| ==> OpenAt(x.w, sid, k, s)
    ensures AllStand(d, sid, x.w, s)
  {
    var history := History(x.w.log[0]);
    forall k | 0 <= k < |d.specs| ensures StandsAt(x.w, sid, k, s) {
      assert OpenAt(x.w, sid, k, s);
      assert StageOk(d, sid, history, k, x.w.tables[k], x.w.log[k], x.w.created[k]);
      StageFacts(d, history, k, |x.w.log[k]|);
    }
  }

  // ---------------------------------------------------------------------------
  // A generation that nothing disturbs runs to its end
  // ---------------------------------------------------------------------------

  lemma FollowedBy(d: Deployment, sid: string, run: seq<System>, path: seq<System>) returns (longer: seq<System>)
    requires ValidDeployment(d) && IsDrive(d, sid, run) && IsPath(d, sid, path) && path[0] == run[|run| - 1]
    ensures IsDrive(d, sid, longer) && longer[|longer| - 1] == path[|path| - 1] && longer[0] == run[0]
  {
    longer := run + path[1..];
    forall i | 0 < i < |longer| ensures Leads(d, sid, longer[i - 1], longer[i]) {
      if i < |run| {
        assert Leads(d, sid, run[i - 1], run[i]);
      } else {
        assert Leads(d, sid, path[i - |run|], path[i - |run| + 1]);
      }
    }
  }

  /** The session is opened at one stage after the other, from stage `k` on. */
  lemma {:induction false} Opens(d: Deployment, sid: string, x: System, k: nat) returns (path: seq<System>)
    requires ValidDeployment(d) && Shape(d, x.w) && k <= |d.specs|
    requires forall i :: 0 <= i < k ==> StandsAt(x.w, sid, i, 0)
    requires forall i :: k <= i < |d.specs| ==> sid !in x.w.tables[i] && !x.w.created[i] && x.w.log[i] == []
    ensures IsPath(d, sid, path) && path[0] == x
    ensures path[|path| - 1].clock == x.clock && path[|path| - 1].answered == x.answered
    ensures AllStand(d, sid, path[|path| - 1].w, 0)
    decreases |d.specs| - k
  {
    if k == |d.specs| {
      path := [x];
    } else {
      var e := Create(k, sid);
      assert Possible(d, sid, x, Network(e));
      var x' := Act(d, sid, x, Network(e));
      forall i | 0 <= i < k + 1 ensures StandsAt(x'.w, sid, i, 0) {
        if i < k { assert StandsAt(x.w, sid, i, 0); }
      }
      var rest := Opens(d, sid, x', k + 1);
      path := [x] + rest;
      forall i | 0 < i < |path| ensures Leads(d, sid, path[i - 1], path[i]) {
        if i > 1 { assert Leads(d, sid, rest[i - 2], rest[i - 1]); }
      }
    }
  }

  /** There is always an unused request id. */
  lemma UnusedId(net: set<Message>) returns (id: string)
    ensures id != "" && forall msg :: msg in net ==> msg.header.requestId != id
  {
    id := "r";
    var rest := net;
    while rest != {}
      invariant id != "" && rest <= net
      invariant forall msg :: msg in net && msg !in rest ==> |msg.header.requestId| < |id|
      decreases |rest|
    {
      var msg :| msg in rest;
      rest := rest - {msg};
      while |id| <= |msg.header.requestId|
        invariant id != "" && forall m :: m in net && m !in rest && m != msg ==> |m.header.requestId| < |id|
        decreases |msg.header.requestId| - |id|
      {
        id := id + "r";
      }
    }
  }

  /** A reachable state in which all stages and the clock stand at the same step, `steps` having been answered. */
  ghost predicate Ready(d: Deployment, sid: string, run: seq<System>, steps: seq<StepInput>)
    requires ValidDeployment(d)
  {
    && IsDrive(d, sid, run)
    && var x := run[|run| - 1];
       && AllStand(d, sid, x.w, |steps|) && ClockStep(x.clock) == |steps| && (x.clock.None? <==> steps == [])
       && StepsOf(x.answered) == steps
  }

  lemma OneMoreStep(d: Deployment, sid: string, run: seq<System>, steps: seq<StepInput>, a: Action)
    returns (longer: seq<System>)
    requires ValidDeployment(d) && Ready(d, sid, run, steps) && Possible(d, sid, run[|run| - 1], a)
    requires d.executionId != "" && sid != "" && (a.SendPrefill? || a.SendDecode?) && a.requestId != ""
    requires a.SendPrefill? <==> steps == []
    ensures Ready(d, sid, longer, steps + [if a.SendPrefill? then StepInput(a.ids, a.mode)
                                          else StepInput([a.token], FULL)])
    ensures longer[0] == run[0]
  {
    var i := |run| - 1;
    var x, call := run[i], CallOf(d, sid, run[i], a);
    EveryDriveKeepsInv(d, sid, run, i);
    forall k | 0 <= k < |d.specs| ensures OpenAt(x.w, sid, k, ClockStep(x.clock)) {
      assert StandsAt(x.w, sid, k, |steps|);
    }
    var path := CallCompletes(d, sid, run, i, a);
    longer := FollowedBy(d, sid, run, path);
    assert StepsOf(x.answered + [call]) ==
           StepsOf(x.answered) + [StepInput(call.payload.ids, ModeAt(|x.answered|, call.header.mode))];
  }

  /** The steps of a generation: a prompt, then one token at a time. */
  function Generation(prompt: seq<int>, mode: LogitsMode, tokens: seq<int>): (r: seq<StepInput>)
    ensures |r| == 1 + |tokens|
  {
    [StepInput(prompt, mode)] + seq(|tokens|, i requires 0 <= i < |tokens| => StepInput([tokens[i]], FULL))
  }

  /** For every deployment, prompt and decode tokens there is a run, from stages without any session, in which the
      session is opened and all of the generation's calls are answered. */
  lemma {:induction false} GenerationCompletes(d: Deployment, sid: string, start: System, prompt: seq<int>,
                                               mode: LogitsMode, tokens: seq<int>)
    returns (run: seq<System>)
    requires ValidDeployment(d) && d.executionId != "" && sid != "" && prompt != []
    requires Init(d, start.w) && start.clock == None && start.waiting == {} && start.answered == []
    ensures Ready(d, sid, run, Generation(prompt, mode, tokens)) && run[0] == start
    decreases |tokens|
  {
    if tokens == [] {
      var path := Opens(d, sid, start, 0);
      run := FollowedBy(d, sid, [start], path);
      assert Ready(d, sid, run, []);
      var id := UnusedId(run[|run| - 1].w.net);
      run := OneMoreStep(d, sid, run, [], SendPrefill(prompt, mode, id));
      assert [] + [StepInput(prompt, mode)] == Generation(prompt, mode, []);
    } else {
      var last := |tokens| - 1;
      run := GenerationCompletes(d, sid, start, prompt, mode, tokens[..last]);
      var id := UnusedId(run[|run| - 1].w.net);
      run := OneMoreStep(d, sid, run, Generation(prompt, mode, tokens[..last]), SendDecode(tokens[last], id));
      assert Generation(prompt, mode, tokens[..last]) + [StepInput([tokens[last]], FULL)] ==
             Generation(prompt, mode, tokens);
    }
  }
}
