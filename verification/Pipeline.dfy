/**
 Shards with in-place sessions and the local pipeline that drives them
 (src/edgeshard/inference/shard.py, src/edgeshard/inference/pipeline.py).

 The boundary between stages carries hidden states, tokens and logits unchanged.
 */
module Pipeline {
  import opened Options
  import opened Decoder

  datatype Input = Tokens(ids: seq<int>) | States(hidden: Hidden)

  datatype Error = NO_SUCH_SESSION | SESSION_EXISTS | WRONG_PHASE | WRONG_INPUT | BROKEN_PIPELINE

  datatype Result<+T> = Ok(value: T) | Err(error: Error)

  datatype Kind = PREFILL | DECODE

  type Sessions = map<string, Session>

  /** `_enter`: the input shard takes tokens, every other shard takes hidden states. */
  function Enter(m: Model, s: ShardSpec, input: Input): Result<Hidden>
  {
    if s.input then (if input.Tokens? then Ok(EmbedTokens(m, input.ids)) else Err(WRONG_INPUT))
    else (if input.States? then Ok(input.hidden) else Err(WRONG_INPUT))
  }

  /** `ShardModule.prefill` and `ShardModule.decode`: the session table they leave and what they return. */
  function Forward(m: Model, s: ShardSpec, sessions: Sessions, sid: string, kind: Kind, input: Input,
                   mode: LogitsMode): (Sessions, Result<Output>)
  {
    if sid !in sessions then (sessions, Err(NO_SUCH_SESSION))
    else if (sessions[sid].step == 0) != (kind == PREFILL) then (sessions, Err(WRONG_PHASE))
    else
      var h := Enter(m, s, input);
      if h.Err? then (sessions, Err(h.error))
      else
        var (session, out) := Advance(m, s, sessions[sid], h.value, if kind == PREFILL then mode else FULL);
        (sessions[sid := session], Ok(out))
  }

  /** A call is accepted exactly in the session's phase and with the input of the shard's role; then the session is one
      step on by as many positions as came in, and no other session has changed. */
  lemma ForwardMeans(m: Model, s: ShardSpec, sessions: Sessions, sid: string, kind: Kind, input: Input,
                     mode: LogitsMode)
    ensures var (after, r) := Forward(m, s, sessions, sid, kind, input, mode);
            var inPhase := sid in sessions && (kind == PREFILL <==> sessions[sid].step == 0);
            var count := if input.Tokens? then |input.ids| else |input.hidden|;
            && (r == Err(NO_SUCH_SESSION) <==> sid !in sessions)
            && (r == Err(WRONG_PHASE) <==> sid in sessions && !inPhase)
            && (r == Err(WRONG_INPUT) <==> inPhase && (s.input <==> !input.Tokens?))
            && (r.Ok? <==> inPhase && (s.input <==> input.Tokens?))
            && (r.Err? ==> after == sessions)
            && (r.Ok? ==>
                  && sid in after && after - {sid} == sessions - {sid} && (r.value.Logits? <==> s.output)
                  && after[sid].step == sessions[sid].step + 1 && after[sid].length == sessions[sid].length + count)
  {
  }

  class ShardModule {
    const model: Model
    const spec: ShardSpec
    var sessions: Sessions

    constructor (model: Model, spec: ShardSpec)
      ensures this.model == model && this.spec == spec && sessions == map[]
    {
      this.model, this.spec, this.sessions := model, spec, map[];
    }

    method CreateSession(sid: string) returns (r: Result<Session>)
      requires ValidRange(spec)
      modifies this
      ensures r == if sid in old(sessions) then Err(SESSION_EXISTS) else Ok(NewSession(spec))
      ensures sessions == if r.Ok? then old(sessions)[sid := r.value] else old(sessions)
    {
      if sid in sessions {
        return Err(SESSION_EXISTS);
      }
      var session := NewSession(spec);
      sessions := sessions[sid := session];
      r := Ok(session);
    }

    method CloseSession(sid: string) returns (r: Result<()>)
      modifies this
      ensures r == if sid in old(sessions) then Ok(()) else Err(NO_SUCH_SESSION)
      ensures sessions == old(sessions) - {sid}
    {
      if sid !in sessions {
        return Err(NO_SUCH_SESSION);
      }
      sessions := sessions - {sid};
      r := Ok(());
    }

    method Step(sid: string, kind: Kind, input: Input, mode: LogitsMode) returns (r: Result<Output>)
      modifies this
      ensures (sessions, r) == Forward(model, spec, old(sessions), sid, kind, input, mode)
    {
      if sid !in sessions {
        return Err(NO_SUCH_SESSION);
      }
      var session := sessions[sid];
      if kind == PREFILL {
        if session.step != 0 { return Err(WRONG_PHASE); }
      } else {
        if session.step == 0 { return Err(WRONG_PHASE); }
      }
      var entered := Enter(model, spec, input);
      if entered.Err? {
        return Err(entered.error);
      }
      var hidden := entered.value;
      var past := session.length;
      var run := ForwardBlocks(model, spec, session, hidden);
      session := Session(run.cache, past + |hidden|, session.step + 1);
      sessions := sessions[sid := session];
      if spec.output {
        var kept := Trim(run.hidden, if kind == PREFILL then mode else FULL);
        r := Ok(Logits(MapVectors(model.head, kept)));
      } else {
        r := Ok(HiddenStates(run.hidden));
      }
    }
  }

  // ---------------------------------------------------------------------------
  // The chain, on values
  // ---------------------------------------------------------------------------

  /** One step through all stages; an error leaves the later stages as they were. */
  function ChainForward(m: Model, specs: seq<ShardSpec>, tables: seq<Sessions>, sid: string, kind: Kind, input: Input,
                        mode: LogitsMode): (r: (seq<Sessions>, Result<Output>))
    requires |specs| == |tables| && specs != []
    ensures |r.0| == |tables|
    decreases |specs|
  {
    var (table, result) := Forward(m, specs[0], tables[0], sid, kind, input, mode);
    if result.Err? then ([table] + tables[1..], result)
    else if |specs| == 1 then ([table], if result.value.Logits? then result else Err(BROKEN_PIPELINE))
    else if result.value.Logits? then ([table] + tables[1..], Err(BROKEN_PIPELINE))
    else
      var (rest, last) := ChainForward(m, specs[1..], tables[1..], sid, kind, States(result.value.hidden), mode);
      ([table] + rest, last)
  }

  /** The stage tables hold sessions `sessions` under `sid`. */
  ghost predicate Holds(tables: seq<Sessions>, sid: string, sessions: seq<Session>)
  {
    |tables| == |sessions| && forall i :: 0 <= i < |tables| ==> sid in tables[i] && tables[i][sid] == sessions[i]
  }

  function With(tables: seq<Sessions>, sid: string, sessions: seq<Session>): (r: seq<Sessions>)
    requires |tables| == |sessions|
    ensures |r| == |tables|
  {
    seq(|tables|, i requires 0 <= i < |tables| => tables[i][sid := sessions[i]])
  }

  ghost predicate TailRoles(specs: seq<ShardSpec>)
  {
    && (forall i :: 0 < i < |specs| ==> !specs[i].input)
    && (forall i :: 0 <= i < |specs| ==> (specs[i].output <==> i == |specs| - 1))
  }

  /** On stages in step, a chained call succeeds everywhere and is `RunChain` on their sessions. */
  lemma {:induction false} ChainSucceeds(m: Model, specs: seq<ShardSpec>, tables: seq<Sessions>, sid: string,
                                         kind: Kind, input: Input, mode: LogitsMode,
                      sessions: seq<Session>, step: nat, h: Hidden)
    requires |specs| == |tables| && specs != [] && TailRoles(specs) && Holds(tables, sid, sessions)
    requires forall i :: 0 <= i < |sessions| ==> sessions[i].step == step
    requires (step == 0) == (kind == PREFILL)
    requires Enter(m, specs[0], input) == Ok(h)
    requires kind == DECODE ==> mode == FULL
    ensures var (sessions', out) := RunChain(m, specs, sessions, h, mode);
            && ChainForward(m, specs, tables, sid, kind, input, mode) == (With(tables, sid, sessions'), Ok(out))
            && out.Logits?
    decreases |specs|
  {
    var (s', out) := Advance(m, specs[0], sessions[0], h, mode);
    if |specs| > 1 {
      assert TailRoles(specs[1..]) && Holds(tables[1..], sid, sessions[1..]);
      ChainSucceeds(m, specs[1..], tables[1..], sid, kind, States(out.hidden), mode, sessions[1..], step, out.hidden);
      var (rest, last) := RunChain(m, specs[1..], sessions[1..], out.hidden, mode);
      assert With(tables, sid, [s'] + rest) == [tables[0][sid := s']] + With(tables[1..], sid, rest);
    } else {
      assert With(tables, sid, [s']) == [tables[0][sid := s']];
    }
  }

  function Stages(m: Model, specs: seq<ShardSpec>, history: seq<StepInput>): seq<Session>
    requires ValidPartition(m, specs)
  {
    ChainSteps(m, specs, NewSessions(specs), history).0
  }

  /** The unsplit model's logits for the last step of `history`. */
  function ModelLogits(m: Model, history: seq<StepInput>): Output
    requires m.numBlocks > 0 && history != []
  {
    var outs := WholeSteps(m, NewSession(Whole(m)), history).1;
    WholeStepsLength(m, NewSession(Whole(m)), history);
    outs[|history| - 1]
  }

  lemma {:induction false} WholeStepsLength(m: Model, session: Session, steps: seq<StepInput>)
    ensures |WholeSteps(m, session, steps).1| == |steps|
    decreases |steps|
  {
    if steps != [] {
      var (s', _) := Advance(m, Whole(m), session, EmbedTokens(m, steps[0].tokens), steps[0].mode);
      WholeStepsLength(m, s', steps[1..]);
    }
  }

  /** The stages of a session that has taken the steps in `history`, and nothing else, are in step. */
  lemma StagesInStep(m: Model, specs: seq<ShardSpec>, history: seq<StepInput>)
    requires WellShaped(m) && ValidPartition(m, specs) && m.numBlocks > 0
    ensures InStep(specs, Stages(m, specs, history), Consumed(history), |history|)
    ensures ChainSteps(m, specs, NewSessions(specs), history).1 == WholeSteps(m, NewSession(Whole(m)), history).1
  {
    PipelineEqualsModel(m, specs, history, NewSessions(specs), NewSession(Whole(m)));
  }

  predicate SameElsewhere(tables: seq<Sessions>, tables': seq<Sessions>, sid: string)
  {
    |tables| == |tables'| && forall i :: 0 <= i < |tables| ==> tables'[i] - {sid} == tables[i] - {sid}
  }

  lemma WithHolds(tables: seq<Sessions>, sid: string, sessions: seq<Session>)
    requires |tables| == |sessions|
    ensures Holds(With(tables, sid, sessions), sid, sessions) && SameElsewhere(tables, With(tables, sid, sessions), sid)
  {
  }

  /** One more step: the stages it leaves and the logits it gives are those of the longer history. */
  lemma StagesSnoc(m: Model, specs: seq<ShardSpec>, history: seq<StepInput>, next: StepInput)
    requires WellShaped(m) && ValidPartition(m, specs) && m.numBlocks > 0
    ensures |Stages(m, specs, history)| == |specs|
    ensures RunChain(m, specs, Stages(m, specs, history), EmbedTokens(m, next.tokens), next.mode) ==
            (Stages(m, specs, history + [next]), ModelLogits(m, history + [next]))
  {
    ChainStepsSnoc(m, specs, NewSessions(specs), history, next);
    StagesInStep(m, specs, history);
    StagesInStep(m, specs, history + [next]);
    WholeStepsLength(m, NewSession(Whole(m)), history);
  }

  /** Every pipeline call answers what the unsplit model answers after the same history, leaves the
      stages at that history, and touches no other session. */
  lemma CallIsModelCall(m: Model, specs: seq<ShardSpec>, tables: seq<Sessions>, sid: string, history: seq<StepInput>,
                        kind: Kind, next: StepInput)
    requires WellShaped(m) && ValidPartition(m, specs) && m.numBlocks > 0 && |tables| == |specs|
    requires Holds(tables, sid, Stages(m, specs, history))
    requires (history == []) == (kind == PREFILL) && (kind == DECODE ==> next.mode == FULL)
    ensures var (tables', r) := ChainForward(m, specs, tables, sid, kind, Tokens(next.tokens), next.mode);
            && r == Ok(ModelLogits(m, history + [next]))
            && Holds(tables', sid, Stages(m, specs, history + [next]))
            && SameElsewhere(tables, tables', sid)
  {
    var sessions := Stages(m, specs, history);
    assert forall i :: 0 <= i < |sessions| ==> sessions[i].step == |history| by {
      StagesInStep(m, specs, history);
      assert forall i :: 0 <= i < |sessions| ==> InStepAt(specs[i], sessions[i], Consumed(history), |history|);
    }
    var h := EmbedTokens(m, next.tokens);
    ChainSucceeds(m, specs, tables, sid, kind, Tokens(next.tokens), next.mode, sessions, |history|, h);
    StagesSnoc(m, specs, history, next);
    WithHolds(tables, sid, Stages(m, specs, history + [next]));
  }

  /** What remains of a chained call once the stages in `done` have run and the last one returned `r`. */
  function Finish(m: Model, specs: seq<ShardSpec>, before: seq<Sessions>, done: seq<Sessions>, r: Result<Output>,
                  sid: string, kind: Kind, mode: LogitsMode): (seq<Sessions>, Result<Output>)
    requires 1 <= |done| <= |specs| == |before|
  {
    var target := |done|;
    if r.Err? then (done + before[target..], r)
    else if target == |specs| then (done, if r.value.Logits? then r else Err(BROKEN_PIPELINE))
    else if r.value.Logits? then (done + before[target..], Err(BROKEN_PIPELINE))
    else
      var (rest, last) := ChainForward(m, specs[target..], before[target..], sid, kind, States(r.value.hidden), mode);
      (done + rest, last)
  }

  lemma FinishStep(m: Model, specs: seq<ShardSpec>, before: seq<Sessions>, done: seq<Sessions>, h: Hidden,
                   sid: string, kind: Kind, mode: LogitsMode)
    requires 1 <= |done| < |specs| == |before|
    ensures var (table, r) := Forward(m, specs[|done|], before[|done|], sid, kind, States(h), mode);
            Finish(m, specs, before, done, Ok(HiddenStates(h)), sid, kind, mode) ==
            Finish(m, specs, before, done + [table], r, sid, kind, mode)
  {
    var target := |done|;
    var (table, r) := Forward(m, specs[target], before[target], sid, kind, States(h), mode);
    assert specs[target..][1..] == specs[target + 1..] && before[target..][1..] == before[target + 1..];
    assert done + ([table] + before[target + 1..]) == (done + [table]) + before[target + 1..];
    if r.Ok? && r.value.HiddenStates? && target + 1 < |specs| {
      var (rest, last) := ChainForward(m, specs[target + 1..], before[target + 1..], sid, kind,
                                       States(r.value.hidden), mode);
      assert done + ([table] + rest) == (done + [table]) + rest;
    }
  }

  /** The call so far, `done` and `r`, is on its way to `expected`. */
  predicate OnTrack(m: Model, specs: seq<ShardSpec>, before: seq<Sessions>, done: seq<Sessions>, r: Result<Output>,
                    sid: string, kind: Kind, mode: LogitsMode,
                    expected: (seq<Sessions>, Result<Output>))
  {
    1 <= |done| <= |specs| == |before| && Finish(m, specs, before, done, r, sid, kind, mode) == expected
  }

  lemma TrackStarts(m: Model, specs: seq<ShardSpec>, before: seq<Sessions>, sid: string, kind: Kind, input: Input,
                    mode: LogitsMode)
    requires |specs| == |before| > 0
    ensures var (table, r) := Forward(m, specs[0], before[0], sid, kind, input, mode);
            OnTrack(m, specs, before, [table], r, sid, kind, mode,
                    ChainForward(m, specs, before, sid, kind, input, mode))
  {
  }

  lemma TrackStops(m: Model, specs: seq<ShardSpec>, before: seq<Sessions>, done: seq<Sessions>, r: Result<Output>,
                   sid: string, kind: Kind, mode: LogitsMode,
                   expected: (seq<Sessions>, Result<Output>))
    requires OnTrack(m, specs, before, done, r, sid, kind, mode, expected)
    requires r.Err? || r.value.Logits? || |done| == |specs|
    ensures expected.0 == done + before[|done|..]
    ensures expected.1 == if r.Err? then r else if |done| == |specs| && r.value.Logits? then r else Err(BROKEN_PIPELINE)
  {
  }

  // ---------------------------------------------------------------------------
  // LocalPipeline
  // ---------------------------------------------------------------------------

  datatype Layout = Layout(modelType: string, numBlocks: nat)

  datatype StageInfo = StageInfo(layout: Layout, spec: ShardSpec)

  ghost predicate AcceptedPartition(stages: seq<StageInfo>)
  {
    && stages != []
    && (forall i :: 0 <= i < |stages| ==> stages[i].layout == stages[0].layout)
    && (forall i :: 0 <= i < |stages| ==> (stages[i].spec.input <==> i == 0))
    && (forall i :: 0 <= i < |stages| ==> (stages[i].spec.output <==> i == |stages| - 1))
    && stages[0].spec.start == 0
    && stages[|stages| - 1].spec.end == stages[0].layout.numBlocks
    && (forall i :: 0 <= i < |stages| - 1 ==> stages[i + 1].spec.start == stages[i].spec.end)
  }

  /** `_validate_partition`: accepts exactly the partitions that reassemble one complete model. */
  method ValidatePartition(stages: seq<StageInfo>) returns (ok: bool)
    ensures ok <==> AcceptedPartition(stages)
  {
    if stages == [] {
      return false;
    }
    var first, last := stages[0], stages[|stages| - 1];
    for index := 0 to |stages|
      invariant forall i :: 0 <= i < index ==> stages[i].layout == first.layout
      invariant forall i :: 0 <= i < index ==> (stages[i].spec.input <==> i == 0)
      invariant forall i :: 0 <= i < index ==> (stages[i].spec.output <==> i == |stages| - 1)
    {
      var stage := stages[index];
      if stage.layout.numBlocks != first.layout.numBlocks || stage.layout.modelType != first.layout.modelType {
        return false;
      }
      if index == 0 && !stage.spec.input { return false; }
      if index == |stages| - 1 && !stage.spec.output { return false; }
      if index != 0 && stage.spec.input { return false; }
      if index != |stages| - 1 && stage.spec.output { return false; }
    }
    if first.spec.start != 0 || last.spec.end != first.layout.numBlocks {
      return false;
    }
    for index := 0 to |stages| - 1
      invariant forall i :: 0 <= i < index ==> stages[i + 1].spec.start == stages[i].spec.end
    {
      if stages[index + 1].spec.start != stages[index].spec.end {
        return false;
      }
    }
    ok := true;
  }

  /** What the stages of one model report about themselves. */
  function Reported(m: Model, specs: seq<ShardSpec>): (r: seq<StageInfo>)
    ensures |r| == |specs| && forall i :: 0 <= i < |specs| ==>
              r[i] == StageInfo(Layout(m.modelType, m.numBlocks), specs[i])
  {
    seq(|specs|, i requires 0 <= i < |specs| => StageInfo(Layout(m.modelType, m.numBlocks), specs[i]))
  }

  /** What `_validate_partition` accepts is exactly what the theorems about partitions ask for: block ranges are
      non-empty by construction, and a model's shards report its layout. */
  lemma AcceptedIffValid(m: Model, specs: seq<ShardSpec>)
    requires forall i :: 0 <= i < |specs| ==> ValidRange(specs[i])
    ensures AcceptedPartition(Reported(m, specs)) <==> ValidPartition(m, specs)
  {
    var stages := Reported(m, specs);
    if AcceptedPartition(stages) {
      assert forall i :: 0 <= i < |specs| ==> stages[i].spec == specs[i];
    }
    if ValidPartition(m, specs) {
      assert forall i :: 0 <= i < |specs| ==> stages[i].spec == specs[i];
    }
  }

  /** For every partition that `_validate_partition` accepts, every prompt and every decode tokens, the logits are the
      unsplit model's, and all stages keep one step and one length. */
  lemma AcceptedEqualsModel(m: Model, specs: seq<ShardSpec>, steps: seq<StepInput>)
    requires WellShaped(m) && (forall i :: 0 <= i < |specs| ==> ValidRange(specs[i])) &&
             AcceptedPartition(Reported(m, specs))
    ensures m.numBlocks > 0
    ensures ChainSteps(m, specs, NewSessions(specs), steps).1 == WholeSteps(m, NewSession(Whole(m)), steps).1
    ensures InStep(specs, ChainSteps(m, specs, NewSessions(specs), steps).0, Consumed(steps), |steps|)
  {
    AcceptedIffValid(m, specs);
    NewSessionsJoin(m, specs);
    PipelineEqualsModel(m, specs, steps, NewSessions(specs), NewSession(Whole(m)));
  }

  class LocalPipeline {
    const model: Model
    const stages: seq<ShardModule>

    ghost const specs: seq<ShardSpec>

    /** The partition was validated at construction; the stage objects are distinct. */
    ghost predicate Valid()
    {
      && |specs| == |stages| && ValidPartition(model, specs)
      && (forall i :: 0 <= i < |stages| ==> stages[i].model == model && stages[i].spec == specs[i])
      && (forall i, j :: 0 <= i < j < |stages| ==> stages[i] != stages[j])
    }

    ghost function Tables(): (t: seq<Sessions>)
      reads stages
      ensures |t| == |stages| && forall i :: 0 <= i < |stages| ==> t[i] == stages[i].sessions
    {
      seq(|stages|, i requires 0 <= i < |stages| reads stages => stages[i].sessions)
    }

    /** The shards are distinct objects of one model, and `_validate_partition` accepts them. */
    constructor (model: Model, stages: seq<ShardModule>, ghost specs: seq<ShardSpec>)
      requires |specs| == |stages|
      requires forall i :: 0 <= i < |stages| ==>
                 stages[i].model == model && stages[i].spec == specs[i] && ValidRange(specs[i])
      requires forall i, j :: 0 <= i < j < |stages| ==> stages[i] != stages[j]
      requires AcceptedPartition(Reported(model, specs))
      ensures Valid() && this.stages == stages && this.model == model && this.specs == specs
    {
      this.model := model;
      this.stages := stages;
      this.specs := specs;
      AcceptedIffValid(model, specs);
    }

    ghost predicate Snapshot(before: seq<Sessions>)
      reads stages
    {
      |before| == |stages| && forall i :: 0 <= i < |stages| ==> stages[i].sessions == before[i]
    }

    ghost predicate Shape()
    {
      && 0 < |specs| == |stages|
      && (forall i :: 0 <= i < |stages| ==> stages[i].model == model && stages[i].spec == specs[i])
      && (forall i, j :: 0 <= i < j < |stages| ==> stages[i] != stages[j])
    }

    /** Closes the session on the first `count` stages again. */
    method Rollback(sid: string, count: nat, ghost before: seq<Sessions>)
      requires Shape() && count <= |stages| == |before|
      requires forall i :: 0 <= i < count ==> sid !in before[i] && stages[i].sessions - {sid} == before[i]
      requires forall i :: count <= i < |stages| ==> stages[i].sessions == before[i]
      modifies stages
      ensures Snapshot(before)
    {
      for undo := 0 to count
        invariant forall i :: undo <= i < count ==> stages[i].sessions - {sid} == before[i]
        invariant forall i :: 0 <= i < undo || count <= i < |stages| ==> stages[i].sessions == before[i]
      {
        var closed := stages[undo].CloseSession(sid);
      }
    }

    method OpenEverywhere(sid: string, ghost before: seq<Sessions>) returns (r: Result<()>)
      requires Shape() && Snapshot(before) && forall i :: 0 <= i < |specs| ==> ValidRange(specs[i])
      modifies stages
      ensures r.Ok? ==> forall i :: 0 <= i < |stages| ==> sid !in before[i]
      ensures r.Ok? ==> forall i :: 0 <= i < |stages| ==> stages[i].sessions == before[i][sid := NewSession(specs[i])]
      ensures r.Err? ==> Snapshot(before) && exists i :: 0 <= i < |stages| && sid in before[i]
    {
      for index := 0 to |stages|
        invariant forall i :: 0 <= i < index ==> sid !in before[i]
        invariant forall i :: 0 <= i < index ==> stages[i].sessions == before[i][sid := NewSession(specs[i])]
        invariant forall i :: index <= i < |stages| ==> stages[i].sessions == before[i]
      {
        var created := stages[index].CreateSession(sid);
        if created.Err? {
          assert forall i :: 0 <= i < index ==> before[i][sid := NewSession(specs[i])] - {sid} == before[i];
          Rollback(sid, index, before);
          return Err(SESSION_EXISTS);
        }
      }
      r := Ok(());
    }

    /** Opens the session on every stage, or on none: a failure closes what was opened. */
    method CreateSession(sid: string) returns (r: Result<()>)
      requires Valid()
      modifies stages
      ensures r.Ok? <==> forall i :: 0 <= i < |stages| ==> sid !in old(Tables())[i]
      ensures r.Ok? ==> Tables() == With(old(Tables()), sid, NewSessions(specs))
      ensures r.Err? ==> Tables() == old(Tables())
    {
      r := OpenEverywhere(sid, Tables());
    }

    /** One stage of the chain: only its own sessions change. */
    method RunStage(target: nat, sid: string, kind: Kind, hidden: Hidden, mode: LogitsMode,
                    ghost before: seq<Sessions>, ghost done: seq<Sessions>,
                    ghost expected: (seq<Sessions>, Result<Output>))
      returns (r: Result<Output>)
      requires Shape() && 1 <= target < |stages| && |done| == target
      requires |before| == |stages| && stages[target].sessions == before[target]
      requires OnTrack(model, specs, before, done, Ok(HiddenStates(hidden)), sid, kind, mode, expected)
      modifies stages[target]
      ensures OnTrack(model, specs, before, done + [stages[target].sessions], r, sid, kind, mode, expected)
    {
      FinishStep(model, specs, before, done, hidden, sid, kind, mode);
      r := stages[target].Step(sid, kind, States(hidden), mode);
    }

    method RunFirst(sid: string, kind: Kind, tokens: seq<int>, mode: LogitsMode, ghost before: seq<Sessions>)
      returns (r: Result<Output>)
      requires Shape() && |before| == |stages| && stages[0].sessions == before[0]
      modifies stages[0]
      ensures OnTrack(model, specs, before, [stages[0].sessions], r, sid, kind, mode,
                      ChainForward(model, specs, before, sid, kind, Tokens(tokens), mode))
    {
      TrackStarts(model, specs, before, sid, kind, Tokens(tokens), mode);
      r := stages[0].Step(sid, kind, Tokens(tokens), mode);
    }

    /** The stages as a stopped chain leaves them. */
    lemma LeftAs(done: seq<Sessions>, before: seq<Sessions>, expected: (seq<Sessions>, Result<Output>))
      requires |done| <= |stages| == |before| && expected.0 == done + before[|done|..]
      requires forall i :: 0 <= i < |done| ==> stages[i].sessions == done[i]
      requires forall i :: |done| <= i < |stages| ==> stages[i].sessions == before[i]
      ensures Snapshot(expected.0)
    {
    }

    method Drive(sid: string, kind: Kind, tokens: seq<int>, mode: LogitsMode, ghost before: seq<Sessions>)
      returns (r: Result<Output>)
      requires Shape() && Snapshot(before)
      modifies stages
      ensures Snapshot(ChainForward(model, specs, before, sid, kind, Tokens(tokens), mode).0)
      ensures r == ChainForward(model, specs, before, sid, kind, Tokens(tokens), mode).1
    {
      ghost var expected := ChainForward(model, specs, before, sid, kind, Tokens(tokens), mode);
      r := RunFirst(sid, kind, tokens, mode, before);
      ghost var done := [stages[0].sessions];
      var target := 1;
      while target < |stages| && r.Ok? && r.value.HiddenStates?
        invariant 1 <= target <= |stages|
        invariant |done| == target
        invariant forall i :: 0 <= i < target ==> stages[i].sessions == done[i]
        invariant forall i :: target <= i < |stages| ==> stages[i].sessions == before[i]
        invariant OnTrack(model, specs, before, done, r, sid, kind, mode, expected)
      {
        r := RunStage(target, sid, kind, r.value.hidden, mode, before, done, expected);
        done := done + [stages[target].sessions];
        target := target + 1;
      }
      TrackStops(model, specs, before, done, r, sid, kind, mode, expected);
      LeftAs(done, before, expected);
      if r.Ok? && (target < |stages| || !r.value.Logits?) {
        r := Err(BROKEN_PIPELINE);
      }
    }

    /** `prefill` and `decode`: the stages end up exactly as `ChainForward` says. */
    method Forward(sid: string, kind: Kind, tokens: seq<int>, mode: LogitsMode) returns (r: Result<Output>)
      requires Valid()
      modifies stages
      ensures Tables() == ChainForward(model, specs, old(Tables()), sid, kind, Tokens(tokens), mode).0
      ensures r == ChainForward(model, specs, old(Tables()), sid, kind, Tokens(tokens), mode).1
    {
      r := Drive(sid, kind, tokens, mode, Tables());
    }
  }

  /** Building a pipeline: it succeeds exactly on the partitions of the model. */
  method AssemblePipeline(model: Model, stages: seq<ShardModule>) returns (r: Option<LocalPipeline>)
    requires forall i :: 0 <= i < |stages| ==> stages[i].model == model && ValidRange(stages[i].spec)
    requires forall i, j :: 0 <= i < j < |stages| ==> stages[i] != stages[j]
    ensures r.Some? <==> ValidPartition(model, seq(|stages|, i requires 0 <= i < |stages| => stages[i].spec))
    ensures r.Some? ==> r.value.Valid() && r.value.stages == stages && r.value.model == model
  {
    var specs := seq(|stages|, i requires 0 <= i < |stages| => stages[i].spec);
    AcceptedIffValid(model, specs);
    var accepted := ValidatePartition(Reported(model, specs));
    if !accepted {
      return None;
    }
    var pipeline := new LocalPipeline(model, stages, specs);
    r := Some(pipeline);
  }
}
