/**
 Shard stages joined by a network (src/edgeshard/runtime/shard_server.py,
 src/edgeshard/protocol/domain.py, src/edgeshard/control/mock/client.py).

 Every message that was ever sent may be delivered to any stage, at any later time, any number of times
 or never: loss, delay, reordering, duplication and misrouting.  Between two `await`s a stage is atomic.
 */
module ShardNetwork {
  import opened Options
  import opened Decoder
  import opened Pipeline

  const PROTOCOL_VERSION: int := 1
  const MASTER_STAGE: int := -1

  datatype Header = Header(
    version: int, executionId: string, sessionId: string, requestId: string,
    phase: Kind, step: int, source: int, target: int, mode: LogitsMode)

  datatype Payload =
    | TokenPayload(ids: seq<int>)
    | HiddenPayload(hidden: Hidden)
    | LogitsPayload(logits: seq<Vector>)

  /** A message under the RPC it is sent with. */
  datatype Message = Message(header: Header, contextPhase: Kind, payload: Payload, rpc: Kind)

  datatype Expectation = Expectation(executionId: string, stageIndex: nat, nextStep: nat, sessionOpen: bool)

  datatype Refusal =
    | UNSUPPORTED_VERSION | EMPTY_EXECUTION_ID | EMPTY_SESSION_ID | EMPTY_REQUEST_ID | WRONG_EXECUTION_ID
    | CLOSED | WRONG_TARGET | WRONG_SOURCE
    | NEGATIVE_STEP | PHASE_MISMATCH | OUT_OF_ORDER | CONTEXT_MISMATCH
    | WRONG_PAYLOAD | NOT_ONE_TOKEN | WRONG_OUTPUT
    | Module(error: Error)

  datatype Outcome<+T> = Done(value: T) | Refused(why: Refusal)

  /** `validate_forward_message`: the first violation, if any. */
  function Violation(msg: Message, x: Expectation): Option<Refusal>
  {
    var h := msg.header;
    if h.version != PROTOCOL_VERSION then Some(UNSUPPORTED_VERSION)
    else if h.executionId == "" then Some(EMPTY_EXECUTION_ID)
    else if h.sessionId == "" then Some(EMPTY_SESSION_ID)
    else if h.requestId == "" then Some(EMPTY_REQUEST_ID)
    else if h.executionId != x.executionId then Some(WRONG_EXECUTION_ID)
    else if !x.sessionOpen then Some(CLOSED)
    else if h.target != x.stageIndex then Some(WRONG_TARGET)
    else if h.source != x.stageIndex - 1 then Some(WRONG_SOURCE)
    else if h.step < 0 then Some(NEGATIVE_STEP)
    else if h.phase != (if h.step == 0 then PREFILL else DECODE) then Some(PHASE_MISMATCH)
    else if h.step != x.nextStep then Some(OUT_OF_ORDER)
    else if msg.contextPhase != h.phase then Some(CONTEXT_MISMATCH)
    else None
  }

  /** One deployment: a partitioned model under one execution id, one runtime per shard. */
  datatype Deployment = Deployment(m: Model, specs: seq<ShardSpec>, executionId: string)

  function RunLocal(m: Model, s: ShardSpec, table: Sessions, msg: Message): (Sessions, Outcome<Output>)
  {
    var sid, mode := msg.header.sessionId, msg.header.mode;
    if s.input && !msg.payload.TokenPayload? then (table, Refused(WRONG_PAYLOAD))
    else if s.input && msg.rpc == DECODE && |msg.payload.ids| != 1 then (table, Refused(NOT_ONE_TOKEN))
    else if !s.input && !msg.payload.HiddenPayload? then (table, Refused(WRONG_PAYLOAD))
    else
      var input := if s.input then Tokens(msg.payload.ids) else States(msg.payload.hidden);
      var (table', r) := Forward(m, s, table, sid, msg.rpc, input, mode);
      (table', if r.Ok? then Done(r.value) else Refused(Module(r.error)))
  }

  /** `_emit`: the reply of the final stage, or the message for the next one. */
  function Emit(stage: nat, final: bool, msg: Message, out: Output, requestId: string): Outcome<Message>
  {
    var header := Header(PROTOCOL_VERSION, msg.header.executionId, msg.header.sessionId, requestId, msg.header.phase,
                         msg.header.step, stage, if final then MASTER_STAGE else stage + 1, msg.header.mode);
    if final then
      (if out.Logits? then Done(Message(header, msg.rpc, LogitsPayload(out.logits), msg.rpc))
       else Refused(WRONG_OUTPUT))
    else
      (if out.HiddenStates? then Done(Message(header, msg.rpc, HiddenPayload(out.hidden), msg.rpc))
       else Refused(WRONG_OUTPUT))
  }

  /** `_execute` up to its `await`: the session table it leaves and what it sends on. */
  function Execute(d: Deployment, stage: nat, table: Sessions, msg: Message, requestId: string)
    : (Sessions, Outcome<Message>)
    requires stage < |d.specs|
  {
    var sid := msg.header.sessionId;
    if sid !in table then (table, Refused(Module(NO_SUCH_SESSION)))
    else
      var violation := Violation(msg, Expectation(d.executionId, stage, table[sid].step, true));
      if violation.Some? then (table, Refused(violation.value))
      else
        var (table', out) := RunLocal(d.m, d.specs[stage], table, msg);
        if out.Refused? then (table', Refused(out.why))
        else (table', Emit(stage, stage == |d.specs| - 1, msg, out.value, requestId))
  }

  class ShardRuntimeHandler {
    ghost const deployment: Deployment
    const executionId: string
    const stageIndex: nat
    const final: bool
    const shard: ShardModule

    ghost predicate Valid()
    {
      && stageIndex < |deployment.specs| && deployment.executionId == executionId
      && final == (stageIndex == |deployment.specs| - 1)
      && shard.model == deployment.m && shard.spec == deployment.specs[stageIndex]
    }

    constructor (ghost deployment: Deployment, executionId: string, stageIndex: nat, final: bool, shard: ShardModule)
      requires stageIndex < |deployment.specs| && deployment.executionId == executionId
      requires final == (stageIndex == |deployment.specs| - 1)
      requires shard.model == deployment.m && shard.spec == deployment.specs[stageIndex]
      ensures Valid() && this.deployment == deployment && this.shard == shard && this.stageIndex == stageIndex
    {
      this.deployment := deployment;
      this.executionId, this.stageIndex, this.final, this.shard := executionId, stageIndex, final, shard;
    }

    /** `create_session` up to its downstream call: the session is open here. */
    method OpenHere(execution: string, sid: string) returns (r: Outcome<()>)
      requires Valid() && ValidRange(shard.spec)
      modifies shard
      ensures r == if execution != executionId then Refused(WRONG_EXECUTION_ID)
                   else if sid in old(shard.sessions) then Refused(Module(SESSION_EXISTS)) else Done(())
      ensures shard.sessions == if r.Done? then old(shard.sessions)[sid := NewSession(shard.spec)]
                else old(shard.sessions)
    {
      if execution != executionId {
        return Refused(WRONG_EXECUTION_ID);
      }
      var created := shard.CreateSession(sid);
      if created.Err? {
        return Refused(Module(created.error));
      }
      r := Done(());
    }

    /** The downstream call returned: on failure the session is closed here again, whatever happened to it
        meanwhile, and no other session is touched. */
    method DownstreamReturned(sid: string, succeeded: bool) returns (r: Outcome<()>)
      requires Valid()
      modifies shard
      ensures r.Done? <==> final || succeeded
      ensures shard.sessions == if r.Done? then old(shard.sessions) else old(shard.sessions) - {sid}
    {
      if final || succeeded {
        return Done(());
      }
      var closed := shard.CloseSession(sid);
      r := Refused(Module(if closed.Err? then closed.error else BROKEN_PIPELINE));
    }

    method RunLocally(msg: Message) returns (r: Outcome<Output>)
      requires Valid()
      modifies shard
      ensures (shard.sessions, r) == RunLocal(deployment.m, deployment.specs[stageIndex], old(shard.sessions), msg)
    {
      var input: Input;
      if shard.spec.input {
        if !msg.payload.TokenPayload? {
          return Refused(WRONG_PAYLOAD);
        }
        if msg.rpc == DECODE && |msg.payload.ids| != 1 {
          return Refused(NOT_ONE_TOKEN);
        }
        input := Tokens(msg.payload.ids);
      } else {
        if !msg.payload.HiddenPayload? {
          return Refused(WRONG_PAYLOAD);
        }
        input := States(msg.payload.hidden);
      }
      var out := shard.Step(msg.header.sessionId, msg.rpc, input, msg.header.mode);
      r := if out.Ok? then Done(out.value) else Refused(Module(out.error));
    }

    method Handle(msg: Message, requestId: string) returns (r: Outcome<Message>)
      requires Valid()
      modifies shard
      ensures (shard.sessions, r) == Execute(deployment, stageIndex, old(shard.sessions), msg, requestId)
    {
      var sid := msg.header.sessionId;
      if sid !in shard.sessions {
        return Refused(Module(NO_SUCH_SESSION));
      }
      var violation := Violation(msg, Expectation(executionId, stageIndex, shard.sessions[sid].step, true));
      if violation.Some? {
        return Refused(violation.value);
      }
      var out := RunLocally(msg);
      if out.Refused? {
        return Refused(out.why);
      }
      r := Emit(stageIndex, final, msg, out.value, requestId);
    }
  }

  // ---------------------------------------------------------------------------
  // What one executed message is, seen from one session
  // ---------------------------------------------------------------------------

  /** The hidden states that reach stage `k` when the whole chain takes one step from `sessions`. */
  function Entering(m: Model, specs: seq<ShardSpec>, sessions: seq<Session>, h: Hidden, mode: LogitsMode,
                    k: nat): Hidden
    requires |specs| == |sessions| && k < |specs|
  {
    if k == 0 then h
    else
      var out := Advance(m, specs[k - 1], sessions[k - 1], Entering(m, specs, sessions, h, mode, k - 1), mode).1;
      if out.HiddenStates? then out.hidden else out.logits
  }

  lemma ChainUnfolds(m: Model, specs: seq<ShardSpec>, sessions: seq<Session>, h: Hidden, mode: LogitsMode, next: Hidden)
    requires |specs| == |sessions| > 1
    requires var out := Advance(m, specs[0], sessions[0], h, mode).1;
             next == if out.HiddenStates? then out.hidden else out.logits
    ensures var rest := RunChain(m, specs[1..], sessions[1..], next, mode);
            RunChain(m, specs, sessions, h, mode) == ([Advance(m, specs[0], sessions[0], h, mode).0] + rest.0, rest.1)
  {
  }

  /** What `ChainAt` says at stage `k`. */
  ghost predicate StageIs(m: Model, specs: seq<ShardSpec>, sessions: seq<Session>, h: Hidden, mode: LogitsMode,
                          k: nat, enters: Hidden)
    requires |specs| == |sessions| && k < |specs|
  {
    var (sessions', out) := RunChain(m, specs, sessions, h, mode);
    var (s', out') := Advance(m, specs[k], sessions[k], enters, mode);
    sessions'[k] == s' && (k == |specs| - 1 ==> out == out')
  }

  lemma {:induction false} StageOfChain(m: Model, specs: seq<ShardSpec>, sessions: seq<Session>, h: Hidden,
                                        mode: LogitsMode, k: nat)
    requires |specs| == |sessions| && k < |specs|
    ensures StageIs(m, specs, sessions, h, mode, k, Entering(m, specs, sessions, h, mode, k))
    decreases |specs|
  {
    if k > 0 {
      var out := Advance(m, specs[0], sessions[0], h, mode).1;
      var next := if out.HiddenStates? then out.hidden else out.logits;
      StageOfChain(m, specs[1..], sessions[1..], next, mode, k - 1);
      EnteringShift(m, specs, sessions, h, mode, k, next);
      StageShift(m, specs, sessions, h, mode, k, next, Entering(m, specs, sessions, h, mode, k));
    }
  }

  lemma StageShift(m: Model, specs: seq<ShardSpec>, sessions: seq<Session>, h: Hidden, mode: LogitsMode, k: nat,
                   next: Hidden, enters: Hidden)
    requires |specs| == |sessions| && 0 < k < |specs|
    requires var out := Advance(m, specs[0], sessions[0], h, mode).1;
             next == if out.HiddenStates? then out.hidden else out.logits
    requires StageIs(m, specs[1..], sessions[1..], next, mode, k - 1, enters)
    ensures StageIs(m, specs, sessions, h, mode, k, enters)
  {
    ChainUnfolds(m, specs, sessions, h, mode, next);
  }

  /** Stage by stage, `RunChain` is `Advance` on what enters the stage. */
  lemma ChainAt(m: Model, specs: seq<ShardSpec>, sessions: seq<Session>, h: Hidden, mode: LogitsMode, k: nat)
    requires |specs| == |sessions| && k < |specs|
    ensures var (sessions', out) := RunChain(m, specs, sessions, h, mode);
            var (s', out') := Advance(m, specs[k], sessions[k], Entering(m, specs, sessions, h, mode, k), mode);
            sessions'[k] == s' && (k == |specs| - 1 ==> out == out')
  {
    StageOfChain(m, specs, sessions, h, mode, k);
  }

  lemma {:induction false} EnteringShift(m: Model, specs: seq<ShardSpec>, sessions: seq<Session>, h: Hidden,
                                         mode: LogitsMode, k: nat, next: Hidden)
    requires |specs| == |sessions| && 0 < k < |specs|
    requires var out := Advance(m, specs[0], sessions[0], h, mode).1;
             next == if out.HiddenStates? then out.hidden else out.logits
    ensures Entering(m, specs, sessions, h, mode, k) == Entering(m, specs[1..], sessions[1..], next, mode, k - 1)
    decreases k
  {
    if k == 1 {
      assert Entering(m, specs, sessions, h, mode, 0) == h;
    } else {
      EnteringShift(m, specs, sessions, h, mode, k - 1, next);
    }
  }

  ghost predicate ValidDeployment(d: Deployment)
  {
    WellShaped(d.m) && ValidPartition(d.m, d.specs) && d.m.numBlocks > 0
  }

  /** Stage `k`'s session after the first `j` steps of `history`. */
  ghost function StageAt(d: Deployment, history: seq<StepInput>, k: nat, j: nat): Session
    requires ValidDeployment(d) && k < |d.specs| && j <= |history|
  {
    StagesInStep(d.m, d.specs, history[..j]);
    Stages(d.m, d.specs, history[..j])[k]
  }

  /** What enters stage `k` at step `j`. */
  ghost function InputAt(d: Deployment, history: seq<StepInput>, k: nat, j: nat): Hidden
    requires ValidDeployment(d) && k < |d.specs| && j < |history|
  {
    StagesInStep(d.m, d.specs, history[..j]);
    Entering(d.m, d.specs, Stages(d.m, d.specs, history[..j]), EmbedTokens(d.m, history[j].tokens), history[j].mode, k)
  }

  /** What leaves stage `k` at step `j`. */
  ghost function OutputAt(d: Deployment, history: seq<StepInput>, k: nat, j: nat): Output
    requires ValidDeployment(d) && k < |d.specs| && j < |history|
  {
    Advance(d.m, d.specs[k], StageAt(d, history, k, j), InputAt(d, history, k, j), history[j].mode).1
  }

  lemma StageTakesStep(d: Deployment, history: seq<StepInput>, k: nat, j: nat)
    requires ValidDeployment(d) && k < |d.specs| && j < |history|
    ensures Advance(d.m, d.specs[k], StageAt(d, history, k, j), InputAt(d, history, k, j), history[j].mode) ==
            (StageAt(d, history, k, j + 1), OutputAt(d, history, k, j))
    ensures k == |d.specs| - 1 ==> OutputAt(d, history, k, j) == ModelLogits(d.m, history[..j + 1])
  {
    assert history[..j + 1] == history[..j] + [history[j]];
    StagesSnoc(d.m, d.specs, history[..j], history[j]);
    ChainAt(d.m, d.specs, Stages(d.m, d.specs, history[..j]), EmbedTokens(d.m, history[j].tokens), history[j].mode, k);
  }

  lemma OutputIsNextInput(d: Deployment, history: seq<StepInput>, k: nat, j: nat)
    requires ValidDeployment(d) && k + 1 < |d.specs| && j < |history|
    ensures OutputAt(d, history, k, j) == HiddenStates(InputAt(d, history, k + 1, j))
  {
  }

  lemma StageFacts(d: Deployment, history: seq<StepInput>, k: nat, j: nat)
    requires ValidDeployment(d) && k < |d.specs| && j <= |history|
    ensures StageAt(d, history, k, j).step == j && StageAt(d, history, k, j).length == Consumed(history[..j])
    ensures j == 0 ==> StageAt(d, history, k, j) == NewSession(d.specs[k])
  {
    StagesInStep(d.m, d.specs, history[..j]);
    assert InStepAt(d.specs[k], Stages(d.m, d.specs, history[..j])[k], Consumed(history[..j]), j);
  }

  lemma HistoryGrows(d: Deployment, history: seq<StepInput>, next: StepInput, k: nat, j: nat)
    requires ValidDeployment(d) && k < |d.specs| && j <= |history|
    ensures StageAt(d, history + [next], k, j) == StageAt(d, history, k, j)
    ensures j < |history| ==> InputAt(d, history + [next], k, j) == InputAt(d, history, k, j)
    ensures j < |history| ==> OutputAt(d, history + [next], k, j) == OutputAt(d, history, k, j)
  {
    assert (history + [next])[..j] == history[..j];
  }

  function PhaseOf(step: int): Kind
  {
    if step == 0 then PREFILL else DECODE
  }

  ghost function Entered(d: Deployment, k: nat, msg: Message): Hidden
  {
    if k == 0 then (if msg.payload.TokenPayload? then EmbedTokens(d.m, msg.payload.ids) else [])
    else (if msg.payload.HiddenPayload? then msg.payload.hidden else [])
  }

  function PayloadOf(out: Output): Payload
  {
    if out.HiddenStates? then HiddenPayload(out.hidden) else LogitsPayload(out.logits)
  }

  function ModeAt(step: int, mode: LogitsMode): LogitsMode
  {
    if step == 0 then mode else FULL
  }

  /** What the header and shape checks of an executing stage guarantee about the message. */
  ghost predicate Admitted(d: Deployment, k: nat, msg: Message, step: nat)
  {
    && msg.header.executionId == d.executionId && msg.header.step == step
    && msg.header.source == k - 1 && msg.header.target == k
    && msg.header.phase == msg.rpc == PhaseOf(step)
    && (k == 0 ==> msg.payload.TokenPayload? && (step > 0 ==> |msg.payload.ids| == 1))
  }

  /** A message is executed only at its session's next step, and then it is `Advance`; a refusal changes nothing. */
  lemma ExecuteMeans(d: Deployment, k: nat, table: Sessions, msg: Message, requestId: string)
    requires ValidDeployment(d) && k < |d.specs|
    ensures var (table', out) := Execute(d, k, table, msg, requestId);
            var sid := msg.header.sessionId;
            && (out.Refused? ==> table' == table)
            && (out.Done? ==>
                && sid in table && Admitted(d, k, msg, table[sid].step)
                && var (s', o) := Advance(d.m, d.specs[k], table[sid], Entered(d, k, msg),
                                          ModeAt(table[sid].step, msg.header.mode));
                   && table' == table[sid := s']
                   && out == Emit(k, k == |d.specs| - 1, msg, o, requestId)
                   && out.value.payload == PayloadOf(o))
  {
  }

  /** A well-formed call for step `step` of an open session at stage `k`. */
  ghost predicate WellFormed(d: Deployment, k: nat, msg: Message, step: nat)
  {
    && msg.header.version == PROTOCOL_VERSION
    && msg.header.executionId == d.executionId && d.executionId != ""
    && msg.header.sessionId != "" && msg.header.requestId != ""
    && msg.header.target == k && msg.header.source == k - 1
    && msg.header.step == step
    && msg.header.phase == msg.contextPhase == msg.rpc == (if step == 0 then PREFILL else DECODE)
    && (k == 0 ==> msg.payload.TokenPayload? && (step > 0 ==> |msg.payload.ids| == 1))
    && (k > 0 ==> msg.payload.HiddenPayload?)
  }

  /** Executed are exactly the well-formed calls for the next step of an open session. */
  lemma ExecutedIff(d: Deployment, k: nat, table: Sessions, msg: Message, requestId: string)
    requires ValidDeployment(d) && k < |d.specs|
    ensures var sid := msg.header.sessionId;
            Execute(d, k, table, msg, requestId).1.Done? <==>
            sid in table && WellFormed(d, k, msg, table[sid].step)
  {
  }

  /** What an executed call sends: to the next stage, or as the reply to the Master, under the same execution, session
      and step. */
  lemma EmittedMeans(d: Deployment, k: nat, table: Sessions, msg: Message, requestId: string)
    requires ValidDeployment(d) && k < |d.specs| && Execute(d, k, table, msg, requestId).1.Done?
    ensures var sent := Execute(d, k, table, msg, requestId).1.value;
            && sent.header == msg.header.(requestId := requestId, source := k,
                                          target := if k == |d.specs| - 1 then -1 else k + 1)
            && sent.contextPhase == sent.rpc == msg.rpc
            && (if k == |d.specs| - 1 then sent.payload.LogitsPayload? else sent.payload.HiddenPayload?)
  {
    ExecutedIff(d, k, table, msg, requestId);
  }

  /** What a stage sends on is executed at the next stage whenever that stage stands at the same step. */
  lemma ForwardedIsExecuted(d: Deployment, k: nat, table: Sessions, msg: Message, requestId: string, next: Sessions,
                            nextId: string)
    requires ValidDeployment(d) && k + 1 < |d.specs| && requestId != ""
    requires Execute(d, k, table, msg, requestId).1.Done?
    requires msg.header.sessionId in next && next[msg.header.sessionId].step == msg.header.step
    ensures Execute(d, k + 1, next, Execute(d, k, table, msg, requestId).1.value, nextId).1.Done?
  {
    ExecutedIff(d, k, table, msg, requestId);
    EmittedMeans(d, k, table, msg, requestId);
    ExecutedIff(d, k + 1, next, Execute(d, k, table, msg, requestId).1.value, nextId);
  }

  /** A refusal names something that is wrong with the message. */
  ghost predicate Deserved(d: Deployment, k: nat, table: Sessions, msg: Message, why: Refusal)
    requires k < |d.specs|
  {
    var h, input := msg.header, d.specs[k].input;
    match why
    case UNSUPPORTED_VERSION => h.version != PROTOCOL_VERSION
    case EMPTY_EXECUTION_ID => h.executionId == ""
    case EMPTY_SESSION_ID => h.sessionId == ""
    case EMPTY_REQUEST_ID => h.requestId == ""
    case WRONG_EXECUTION_ID => h.executionId != d.executionId
    case WRONG_TARGET => h.target != k
    case WRONG_SOURCE => h.source != k - 1
    case NEGATIVE_STEP => h.step < 0
    case PHASE_MISMATCH => (h.phase == PREFILL) != (h.step == 0)
    case OUT_OF_ORDER => h.sessionId in table && h.step != table[h.sessionId].step
    case CONTEXT_MISMATCH => msg.contextPhase != h.phase
    case WRONG_PAYLOAD => if input then !msg.payload.TokenPayload? else !msg.payload.HiddenPayload?
    case NOT_ONE_TOKEN => input && msg.rpc == DECODE && msg.payload.TokenPayload? && |msg.payload.ids| != 1
    case Module(NO_SUCH_SESSION) => h.sessionId !in table
    case Module(WRONG_PHASE) => h.sessionId in table && (msg.rpc == PREFILL) != (table[h.sessionId].step == 0)
    case _ => false
  }

  lemma RefusedDeservedly(d: Deployment, k: nat, table: Sessions, msg: Message, requestId: string)
    requires ValidDeployment(d) && k < |d.specs|
    ensures var out := Execute(d, k, table, msg, requestId).1;
            out.Refused? ==> Deserved(d, k, table, msg, out.why)
  {
  }

  // ---------------------------------------------------------------------------
  // All runs
  // ---------------------------------------------------------------------------

  /** One executed message and what the stage sent for it. */
  datatype Exchange = Exchange(input: Message, output: Message)

  /** `log[k]` is what stage `k` executed for the session under observation; `created[k]` whether it was ever opened
      there. */
  datatype World = World(tables: seq<Sessions>, net: set<Message>, log: seq<seq<Exchange>>, created: seq<bool>)

  datatype Event =
    | Inject(msg: Message)
    | Deliver(stage: nat, msg: Message, requestId: string)
    | Create(stage: nat, sid: string)
    | Close(stage: nat, sid: string)

  /** Only stages send as stages of this deployment; session `sid` is opened at most once per stage. */
  ghost predicate Enabled(d: Deployment, sid: string, w: World, e: Event)
  {
    match e
    case Inject(msg) => msg.header.source == MASTER_STAGE || msg.header.executionId != d.executionId
    case Deliver(k, msg, _) => k < |d.specs| && msg in w.net
    case Create(k, s) => k < |d.specs| && (s == sid ==> k < |w.created| && !w.created[k])
    case Close(k, _) => k < |d.specs|
  }

  ghost predicate Shape(d: Deployment, w: World)
  {
    |w.tables| == |w.log| == |w.created| == |d.specs|
  }

  ghost function Step(d: Deployment, sid: string, w: World, e: Event): World
    requires ValidDeployment(d) && Shape(d, w) && Enabled(d, sid, w, e)
  {
    match e
    case Inject(msg) => w.(net := w.net + {msg})
    case Deliver(k, msg, requestId) =>
      var (table', out) := Execute(d, k, w.tables[k], msg, requestId);
      if out.Refused? then w.(tables := w.tables[k := table'])
      else World(w.tables[k := table'], w.net + {out.value},
                 if msg.header.sessionId == sid then w.log[k := w.log[k] + [Exchange(msg, out.value)]]
                      else w.log, w.created)
    case Create(k, s) =>
      var table' := if s in w.tables[k] then w.tables[k] else w.tables[k][s := NewSession(d.specs[k])];
      w.(tables := w.tables[k := table'], created := if s == sid then w.created[k := true] else w.created)
    case Close(k, s) => w.(tables := w.tables[k := w.tables[k] - {s}])
  }

  /** Opening adds a new session at that stage unless there is one; closing removes it; nothing else changes. */
  lemma OpenCloseMean(d: Deployment, sid: string, w: World, k: nat, s: string)
    requires ValidDeployment(d) && Shape(d, w) && k < |d.specs|
    ensures Enabled(d, sid, w, Create(k, s)) ==>
              var w' := Step(d, sid, w, Create(k, s));
              && s in w'.tables[k] && w'.tables[k] - {s} == w.tables[k] - {s}
              && w'.tables == w.tables[k := w'.tables[k]]
              && w'.tables[k][s] == (if s in w.tables[k] then w.tables[k][s] else NewSession(d.specs[k]))
              && w'.net == w.net && w'.log == w.log
    ensures var w' := Step(d, sid, w, Close(k, s));
            && s !in w'.tables[k] && w'.tables[k] == w.tables[k] - {s} && w'.tables == w.tables[k := w'.tables[k]]
            && w'.net == w.net && w'.log == w.log && w'.created == w.created
  {
  }

  /** The token inputs stage 0 executed, as steps of a generation. */
  ghost function History(log: seq<Exchange>): (h: seq<StepInput>)
    ensures |h| == |log|
  {
    seq(|log|, j requires 0 <= j < |log| =>
      var msg := log[j].input;
      StepInput(if msg.payload.TokenPayload? then msg.payload.ids else [], ModeAt(j, msg.header.mode)))
  }

  lemma HistorySnoc(log: seq<Exchange>, x: Exchange)
    requires x.input.payload.TokenPayload?
    ensures History(log + [x]) == History(log) + [StepInput(x.input.payload.ids, ModeAt(|log|, x.input.header.mode))]
  {
  }

  /** What stage `k` sent for step `j` is what it computes there in the generation `history`. */
  ghost predicate EntryOk(d: Deployment, sid: string, history: seq<StepInput>, k: nat, j: nat, x: Exchange)
    requires ValidDeployment(d) && k < |d.specs|
  {
    && j < |history|
    && x.input.header.sessionId == x.output.header.sessionId == sid
    && Admitted(d, k, x.input, j)
    && x.output.header.step == j && x.output.header.source == k && x.output.header.executionId == d.executionId
    && ModeAt(j, x.output.header.mode) == history[j].mode
    && x.output.payload == PayloadOf(OutputAt(d, history, k, j))
  }

  ghost predicate StageOk(d: Deployment, sid: string, history: seq<StepInput>, k: nat, table: Sessions,
                          log: seq<Exchange>, created: bool)
    requires ValidDeployment(d) && k < |d.specs|
  {
    && |log| <= |history|
    && (sid in table ==> created && table[sid] == StageAt(d, history, k, |log|))
    && (!created ==> log == [])
    && forall j :: 0 <= j < |log| ==> EntryOk(d, sid, history, k, j, log[j])
  }

  /** A message between stages is the one its sender logged for its step. */
  ghost predicate MessageOk(d: Deployment, sid: string, log: seq<seq<Exchange>>, msg: Message)
  {
    msg.header.sessionId == sid && msg.header.executionId == d.executionId && msg.header.source != MASTER_STAGE ==>
      && 0 <= msg.header.source < |log|
      && 0 <= msg.header.step < |log[msg.header.source]|
      && log[msg.header.source][msg.header.step].output == msg
  }

  /** `next` was fed, in order and without gaps, from a prefix of what `log` sent. */
  ghost predicate Feeds(log: seq<Exchange>, next: seq<Exchange>)
  {
    |next| <= |log| && forall j :: 0 <= j < |next| ==> next[j].input == log[j].output
  }

  ghost predicate Inv(d: Deployment, sid: string, w: World)
    requires ValidDeployment(d)
  {
    && Shape(d, w)
    && (forall k :: 0 <= k < |d.specs| ==> StageOk(d, sid, History(w.log[0]), k, w.tables[k], w.log[k], w.created[k]))
    && (forall msg :: msg in w.net ==> MessageOk(d, sid, w.log, msg))
    && (forall k :: 0 < k < |d.specs| ==> Feeds(w.log[k - 1], w.log[k]))
  }

  lemma EntryGrows(d: Deployment, sid: string, history: seq<StepInput>, next: StepInput, k: nat, j: nat, x: Exchange)
    requires ValidDeployment(d) && k < |d.specs| && EntryOk(d, sid, history, k, j, x)
    ensures EntryOk(d, sid, history + [next], k, j, x)
  {
    HistoryGrows(d, history, next, k, j);
  }

  lemma StageGrows(d: Deployment, sid: string, history: seq<StepInput>, next: StepInput, k: nat, table: Sessions,
                   log: seq<Exchange>, created: bool)
    requires ValidDeployment(d) && k < |d.specs| && StageOk(d, sid, history, k, table, log, created)
    ensures StageOk(d, sid, history + [next], k, table, log, created)
  {
    HistoryGrows(d, history, next, k, |log|);
    forall j | 0 <= j < |log| ensures EntryOk(d, sid, history + [next], k, j, log[j]) {
      EntryGrows(d, sid, history, next, k, j, log[j]);
    }
  }

  /** One executed message, at a stage whose next step is already in `history`. */
  lemma StageExecutes(d: Deployment, sid: string, history: seq<StepInput>, k: nat, table: Sessions,
                      log: seq<Exchange>, created: bool,
                      msg: Message, requestId: string)
    requires ValidDeployment(d) && k < |d.specs| && |log| < |history|
    requires StageOk(d, sid, history, k, table, log, created)
    requires msg.header.sessionId == sid && sid in table
    requires Execute(d, k, table, msg, requestId).1.Done?
    requires Entered(d, k, msg) == InputAt(d, history, k, |log|) &&
             ModeAt(|log|, msg.header.mode) == history[|log|].mode
    ensures var (table', out) := Execute(d, k, table, msg, requestId);
            StageOk(d, sid, history, k, table', log + [Exchange(msg, out.value)], created)
  {
    ExecuteMeans(d, k, table, msg, requestId);
    StageFacts(d, history, k, |log|);
    StageTakesStep(d, history, k, |log|);
    var (table', out) := Execute(d, k, table, msg, requestId);
    var log' := log + [Exchange(msg, out.value)];
    assert EntryOk(d, sid, history, k, |log|, Exchange(msg, out.value));
    assert forall j :: 0 <= j < |log'| ==> EntryOk(d, sid, history, k, j, log'[j]);
  }

  ghost predicate Init(d: Deployment, w: World)
  {
    && Shape(d, w) && w.net == {}
    && forall k :: 0 <= k < |d.specs| ==> w.tables[k] == map[] && w.log[k] == [] && !w.created[k]
  }

  /** Stage 0 extends the history by the message it executes. */
  lemma FirstExecutes(d: Deployment, sid: string, table: Sessions, log: seq<Exchange>, created: bool, msg: Message,
                      requestId: string)
    requires ValidDeployment(d) && StageOk(d, sid, History(log), 0, table, log, created) && msg.header.sessionId == sid
    requires Execute(d, 0, table, msg, requestId).1.Done?
    ensures var (table', out) := Execute(d, 0, table, msg, requestId);
            var log' := log + [Exchange(msg, out.value)];
            && StageOk(d, sid, History(log'), 0, table', log', created)
            && History(log') == History(log) + [History(log')[|log|]]
            && out.value.header.source == 0 && out.value.header.step == |log|
  {
    var history, j := History(log), |log|;
    ExecuteMeans(d, 0, table, msg, requestId);
    StageFacts(d, history, 0, j);
    var out := Execute(d, 0, table, msg, requestId).1;
    var next := StepInput(msg.payload.ids, ModeAt(j, msg.header.mode));
    HistorySnoc(log, Exchange(msg, out.value));
    StageGrows(d, sid, history, next, 0, table, log, created);
    StageExecutes(d, sid, history + [next], 0, table, log, created, msg, requestId);
  }

  /** A message between stages carries what enters the receiver at its step. */
  lemma ReceivedInput(d: Deployment, sid: string, w: World, k: nat, msg: Message)
    requires ValidDeployment(d) && Inv(d, sid, w) && 0 < k < |d.specs| && msg in w.net && msg.header.sessionId == sid
    requires msg.header.executionId == d.executionId && msg.header.source == k - 1
    ensures var j, history := msg.header.step, History(w.log[0]);
            && 0 <= j < |w.log[k - 1]| && w.log[k - 1][j].output == msg && j < |history|
            && Entered(d, k, msg) == InputAt(d, history, k, j) && ModeAt(j, msg.header.mode) == history[j].mode
  {
    var history, j := History(w.log[0]), msg.header.step;
    assert MessageOk(d, sid, w.log, msg);
    assert StageOk(d, sid, history, k - 1, w.tables[k - 1], w.log[k - 1], w.created[k - 1]);
    assert EntryOk(d, sid, history, k - 1, j, w.log[k - 1][j]);
    OutputIsNextInput(d, history, k - 1, j);
  }

  lemma FeedsOneMore(log: seq<Exchange>, next: seq<Exchange>, x: Exchange)
    requires Feeds(log, next) && |next| < |log| && log[|next|].output == x.input
    ensures Feeds(log, next + [x])
  {
  }

  /** A later stage executes exactly what its predecessor sent for its next step. */
  lemma LaterExecutes(d: Deployment, sid: string, w: World, k: nat, msg: Message, requestId: string)
    requires ValidDeployment(d) && Inv(d, sid, w) && 0 < k < |d.specs| && msg in w.net && msg.header.sessionId == sid
    requires Execute(d, k, w.tables[k], msg, requestId).1.Done?
    ensures var (table', out) := Execute(d, k, w.tables[k], msg, requestId);
            var log' := w.log[k] + [Exchange(msg, out.value)];
            && StageOk(d, sid, History(w.log[0]), k, table', log', w.created[k])
            && Feeds(w.log[k - 1], log')
            && out.value.header.source == k && out.value.header.step == |w.log[k]|
  {
    var history := History(w.log[0]);
    assert StageOk(d, sid, history, k, w.tables[k], w.log[k], w.created[k]) && Feeds(w.log[k - 1], w.log[k]);
    ExecuteMeans(d, k, w.tables[k], msg, requestId);
    StageFacts(d, history, k, |w.log[k]|);
    ReceivedInput(d, sid, w, k, msg);
    StageExecutes(d, sid, history, k, w.tables[k], w.log[k], w.created[k], msg, requestId);
    FeedsOneMore(w.log[k - 1], w.log[k], Exchange(msg, Execute(d, k, w.tables[k], msg, requestId).1.value));
  }

  /** What `Deliver` does to `sid`'s part of the world when the message is executed for `sid`. */
  lemma StepExecuted(d: Deployment, sid: string, w: World, k: nat, msg: Message, requestId: string)
    requires ValidDeployment(d) && Inv(d, sid, w) && k < |d.specs| && msg in w.net && msg.header.sessionId == sid
    requires Execute(d, k, w.tables[k], msg, requestId).1.Done?
    ensures var (table', out) := Execute(d, k, w.tables[k], msg, requestId);
            var log' := w.log[k] + [Exchange(msg, out.value)];
            var history' := if k == 0 then History(log') else History(w.log[0]);
            && StageOk(d, sid, history', k, table', log', w.created[k])
            && (k == 0 ==> |history'| > 0 && history' == History(w.log[0]) + [history'[|history'| - 1]])
            && (k > 0 ==> Feeds(w.log[k - 1], log'))
            && out.value.header.source == k && out.value.header.step == |w.log[k]|
  {
    if k == 0 {
      assert StageOk(d, sid, History(w.log[0]), 0, w.tables[0], w.log[0], w.created[0]);
      FirstExecutes(d, sid, w.tables[0], w.log[0], w.created[0], msg, requestId);
    } else {
      LaterExecutes(d, sid, w, k, msg, requestId);
    }
  }

  lemma MessagesKept(d: Deployment, sid: string, log: seq<seq<Exchange>>, k: nat, x: Exchange, msg: Message)
    requires k < |log|
    requires MessageOk(d, sid, log, msg) || (msg == x.output && msg.header.source == k && msg.header.step == |log[k]|)
    ensures MessageOk(d, sid, log[k := log[k] + [x]], msg)
  {
  }

  lemma StagesKept(d: Deployment, sid: string, w: World, k: nat, table': Sessions, log': seq<seq<Exchange>>, i: nat)
    requires ValidDeployment(d) && Shape(d, w) && k < |d.specs| && i < |d.specs| && |log'| == |d.specs|
    requires StageOk(d, sid, History(w.log[0]), i, w.tables[i], w.log[i], w.created[i])
    requires StageOk(d, sid, History(log'[0]), k, table', log'[k], w.created[k])
    requires log'[i] == w.log[i] || i == k
    requires History(log'[0]) == History(w.log[0]) ||
             (|log'[0]| > 0 && History(log'[0]) == History(w.log[0]) + [History(log'[0])[|log'[0]| - 1]])
    ensures StageOk(d, sid, History(log'[0]), i, w.tables[k := table'][i], log'[i], w.created[i])
  {
    if i != k && History(log'[0]) != History(w.log[0]) {
      StageGrows(d, sid, History(w.log[0]), History(log'[0])[|log'[0]| - 1], i, w.tables[i], w.log[i], w.created[i]);
    }
  }

  lemma FeedsKept(log: seq<seq<Exchange>>, k: nat, x: Exchange, i: nat)
    requires k < |log| && 0 < i < |log| && Feeds(log[i - 1], log[i])
    requires k > 0 ==> Feeds(log[k - 1], log[k] + [x])
    ensures Feeds(log[k := log[k] + [x]][i - 1], log[k := log[k] + [x]][i])
  {
  }

  lemma DeliverKeepsInv(d: Deployment, sid: string, w: World, k: nat, msg: Message, requestId: string)
    requires ValidDeployment(d) && Inv(d, sid, w) && Enabled(d, sid, w, Deliver(k, msg, requestId)) &&
             msg.header.sessionId == sid
    requires Execute(d, k, w.tables[k], msg, requestId).1.Done?
    ensures Inv(d, sid, Step(d, sid, w, Deliver(k, msg, requestId)))
  {
    StepExecuted(d, sid, w, k, msg, requestId);
    var (table', out) := Execute(d, k, w.tables[k], msg, requestId);
    var x := Exchange(msg, out.value);
    var log' := w.log[k := w.log[k] + [x]];
    forall i | 0 <= i < |d.specs|
      ensures StageOk(d, sid, History(log'[0]), i, w.tables[k := table'][i], log'[i], w.created[i])
    {
      StagesKept(d, sid, w, k, table', log', i);
    }
    forall msg' | msg' in w.net + {out.value} ensures MessageOk(d, sid, log', msg') {
      MessagesKept(d, sid, w.log, k, x, msg');
    }
    forall i | 0 < i < |d.specs| ensures Feeds(log'[i - 1], log'[i]) {
      FeedsKept(w.log, k, x, i);
    }
    assert Step(d, sid, w, Deliver(k, msg, requestId)) ==
             World(w.tables[k := table'], w.net + {out.value}, log', w.created);
  }

  /** Steps that execute nothing for `sid` only may open or close it, or add harmless messages. */
  lemma OtherKeepsInv(d: Deployment, sid: string, w: World, e: Event)
    requires ValidDeployment(d) && Inv(d, sid, w) && Enabled(d, sid, w, e)
    requires e.Deliver? ==>
               || e.msg.header.sessionId != sid
               || Execute(d, e.stage, w.tables[e.stage], e.msg, e.requestId).1.Refused?
    ensures Inv(d, sid, Step(d, sid, w, e))
  {
    var w' := Step(d, sid, w, e);
    if e.Deliver? { ExecuteMeans(d, e.stage, w.tables[e.stage], e.msg, e.requestId); }
    var history := History(w.log[0]);
    assert w'.log == w.log;
    forall i | 0 <= i < |d.specs| ensures StageOk(d, sid, history, i, w'.tables[i], w'.log[i], w'.created[i]) {
      assert StageOk(d, sid, history, i, w.tables[i], w.log[i], w.created[i]);
      StageFacts(d, history, i, 0);
    }
    forall msg | msg in w'.net ensures MessageOk(d, sid, w'.log, msg) {
      assert msg in w.net || msg.header.sessionId != sid || e.Inject?;
    }
  }

  lemma StepKeepsInv(d: Deployment, sid: string, w: World, e: Event)
    requires ValidDeployment(d) && Inv(d, sid, w) && Enabled(d, sid, w, e)
    ensures Inv(d, sid, Step(d, sid, w, e))
  {
    if e.Deliver? && e.msg.header.sessionId == sid &&
       Execute(d, e.stage, w.tables[e.stage], e.msg, e.requestId).1.Done? {
      DeliverKeepsInv(d, sid, w, e.stage, e.msg, e.requestId);
    } else {
      OtherKeepsInv(d, sid, w, e);
    }
  }

  /** `run` is a run of the deployment: it starts empty and every world follows from the one before. */
  ghost predicate IsRun(d: Deployment, sid: string, run: seq<World>)
    requires ValidDeployment(d)
  {
    && run != [] && Init(d, run[0])
    && forall i :: 0 < i < |run| ==> Follows(d, sid, run[i - 1], run[i])
  }

  ghost predicate Follows(d: Deployment, sid: string, w: World, w': World)
    requires ValidDeployment(d)
  {
    Shape(d, w) && exists e :: Enabled(d, sid, w, e) && w' == Step(d, sid, w, e)
  }

  lemma StartKeepsInv(d: Deployment, sid: string, w: World)
    requires ValidDeployment(d) && Init(d, w)
    ensures Inv(d, sid, w)
  {
    assert forall k :: 0 <= k < |d.specs| ==>
             StageOk(d, sid, History(w.log[0]), k, w.tables[k], w.log[k], w.created[k]);
  }

  lemma {:induction false} EveryRunKeepsInv(d: Deployment, sid: string, run: seq<World>, i: nat)
    requires ValidDeployment(d) && IsRun(d, sid, run) && i < |run|
    ensures Inv(d, sid, run[i])
  {
    if i == 0 {
      StartKeepsInv(d, sid, run[0]);
    } else {
      EveryRunKeepsInv(d, sid, run, i - 1);
      FollowsKeepsInv(d, sid, run[i - 1], run[i]);
    }
  }

  lemma FollowsKeepsInv(d: Deployment, sid: string, w: World, w': World)
    requires ValidDeployment(d) && Inv(d, sid, w) && Follows(d, sid, w, w')
    ensures Inv(d, sid, w')
  {
    var e :| Enabled(d, sid, w, e) && w' == Step(d, sid, w, e);
    StepKeepsInv(d, sid, w, e);
  }

  // ---------------------------------------------------------------------------
  // What it means
  // ---------------------------------------------------------------------------

  /** Stage `k` executed steps 0, 1, 2, ... in this order, each once and none skipped. */
  ghost predicate InOrder(log: seq<Exchange>)
  {
    forall j :: 0 <= j < |log| ==> log[j].input.header.step == j
  }

  /** In every run, what stage `k + 1` executed for a session is a prefix of what stage `k` sent for it. */
  lemma StagesExecutePrefixes(d: Deployment, sid: string, run: seq<World>, i: nat, k: nat)
    requires ValidDeployment(d) && IsRun(d, sid, run) && i < |run| && k < |d.specs|
    ensures Shape(d, run[i]) && InOrder(run[i].log[k])
    ensures k > 0 ==> Feeds(run[i].log[k - 1], run[i].log[k])
    ensures sid in run[i].tables[k] ==> run[i].tables[k][sid].step == |run[i].log[k]|
  {
    EveryRunKeepsInv(d, sid, run, i);
    var w, history := run[i], History(run[i].log[0]);
    assert StageOk(d, sid, history, k, w.tables[k], w.log[k], w.created[k]);
    StageFacts(d, history, k, |w.log[k]|);
    forall j | 0 <= j < |w.log[k]| ensures w.log[k][j].input.header.step == j {
      assert EntryOk(d, sid, history, k, j, w.log[k][j]);
    }
  }

  /** No step rewrites what a stage has executed: a log gets at most one entry longer. */
  lemma LogsOnlyGrow(d: Deployment, sid: string, w: World, w': World, k: nat)
    requires ValidDeployment(d) && Follows(d, sid, w, w') && k < |d.specs|
    ensures Shape(d, w') && |w'.log[k]| <= |w.log[k]| + 1
    ensures w.log[k] <= w'.log[k]
  {
  }

  /** Whatever the network does, a reply for step `j` is the unsplit model's answer to the tokens stage 0
      executed at steps 0 .. `j`, and an open stage holds the cache of exactly the steps it executed. */
  lemma RepliesAreModelLogits(d: Deployment, sid: string, run: seq<World>, i: nat, reply: Message)
    requires ValidDeployment(d) && IsRun(d, sid, run) && i < |run| && reply in run[i].net
    requires reply.header.sessionId == sid && reply.header.executionId == d.executionId
    requires reply.header.source == |d.specs| - 1
    ensures |run[i].log| > 0
    ensures var history := History(run[i].log[0]);
            && 0 <= reply.header.step < |history|
            && reply.payload == PayloadOf(ModelLogits(d.m, history[..reply.header.step + 1]))
  {
    EveryRunKeepsInv(d, sid, run, i);
    var w, history, last := run[i], History(run[i].log[0]), |d.specs| - 1;
    assert MessageOk(d, sid, w.log, reply);
    assert StageOk(d, sid, history, last, w.tables[last], w.log[last], w.created[last]);
    assert EntryOk(d, sid, history, last, reply.header.step, w.log[last][reply.header.step]);
    StageTakesStep(d, history, last, reply.header.step);
  }

  lemma OpenStagesReplayHistory(d: Deployment, sid: string, run: seq<World>, i: nat, k: nat)
    requires ValidDeployment(d) && IsRun(d, sid, run) && i < |run| && k < |d.specs|
    requires Shape(d, run[i]) && sid in run[i].tables[k]
    ensures var history := History(run[i].log[0]);
            && |run[i].log[k]| <= |history|
            && run[i].tables[k][sid] == StageAt(d, history, k, |run[i].log[k]|)
  {
    EveryRunKeepsInv(d, sid, run, i);
    assert StageOk(d, sid, History(run[i].log[0]), k, run[i].tables[k], run[i].log[k], run[i].created[k]);
  }
}
