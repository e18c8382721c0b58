/**
 Decoder-only inference split into shards (src/edgeshard/inference/shard.py, pipeline.py, state.py,
 session.py, src/edgeshard/model/adapters/base.py, src/edgeshard/model/spec.py).

 Blocks, embedding, norm and head are arbitrary total functions carried by a `Model`; batch size is 1.
 A hidden state is one vector per position.  Each shard keeps one cache slot per block it owns, and a
 block appends one entry per new position to its own slot.
 */
module Decoder {
  type Vector = seq<real>
  type Hidden = seq<Vector>
  type Slot = seq<(Vector, Vector)>

  datatype Pass = Pass(hidden: Hidden, slot: Slot)

  /** `block(g, slot, hidden, positions, cachePositions)` runs global block `g`. */
  datatype Model = Model(
    modelType: string,
    numBlocks: nat,
    embed: int -> Vector,
    block: (nat, Slot, Hidden, seq<nat>, seq<nat>) -> Pass,
    norm: Vector -> Vector,
    head: Vector -> Vector)

  /** Shapes only: a block keeps the number of positions and caches one entry for each. */
  ghost predicate WellShaped(m: Model)
  {
    forall g, slot, h, pos, cpos ::
      && |m.block(g, slot, h, pos, cpos).hidden| == |h|
      && |m.block(g, slot, h, pos, cpos).slot| == |slot| + |h|
  }

  datatype ShardSpec = ShardSpec(start: nat, end: nat, input: bool, output: bool)

  predicate ValidRange(s: ShardSpec)
  {
    s.start < s.end
  }

  datatype Session = Session(cache: seq<Slot>, length: nat, step: nat)

  datatype LogitsMode = FULL | LAST_TOKEN

  datatype Output = HiddenStates(hidden: Hidden) | Logits(logits: seq<Vector>)

  function EmptyCache(blocks: nat): (c: seq<Slot>)
    ensures |c| == blocks && forall i :: 0 <= i < blocks ==> c[i] == []
  {
    seq(blocks, _ => [])
  }

  function NewSession(s: ShardSpec): Session
    requires ValidRange(s)
  {
    Session(EmptyCache(s.end - s.start), 0, 0)
  }

  /** The positions of `count` new tokens after `past` earlier ones. */
  function Positions(past: nat, count: nat): (r: seq<nat>)
    ensures |r| == count && forall i :: 0 <= i < count ==> r[i] == past + i
  {
    seq(count, i requires 0 <= i => past + i)
  }

  /** The native cache's own length: that of its first layer, 0 while it is empty. */
  function CacheLength(cache: seq<Slot>): nat
  {
    if cache == [] then 0 else |cache[0]|
  }

  datatype Run = Run(hidden: Hidden, cache: seq<Slot>)

  /** Blocks `first`, `first + 1`, ... one per cache slot; the slot index is shard-local. */
  function RunBlocks(m: Model, first: nat, cache: seq<Slot>, h: Hidden, pos: seq<nat>, cpos: seq<nat>): (r: Run)
    ensures |r.cache| == |cache|
    decreases |cache|
  {
    if cache == [] then Run(h, [])
    else
      var p := m.block(first, cache[0], h, pos, cpos);
      var rest := RunBlocks(m, first + 1, cache[1..], p.hidden, pos, cpos);
      Run(rest.hidden, [p.slot] + rest.cache)
  }

  function MapVectors(f: Vector -> Vector, h: Hidden): (r: Hidden)
    ensures |r| == |h|
    ensures forall i :: 0 <= i < |h| ==> r[i] == f(h[i])
  {
    seq(|h|, i requires 0 <= i < |h| => f(h[i]))
  }

  function EmbedTokens(m: Model, tokens: seq<int>): (h: Hidden)
    ensures |h| == |tokens| && forall i :: 0 <= i < |tokens| ==> h[i] == m.embed(tokens[i])
  {
    seq(|tokens|, i requires 0 <= i < |tokens| => m.embed(tokens[i]))
  }

  /** `forward_blocks`: the backbone pass, whose last operation is the norm on the output shard only. */
  function ForwardBlocks(m: Model, s: ShardSpec, session: Session, h: Hidden): Run
  {
    var past := CacheLength(session.cache);
    var r := RunBlocks(m, s.start, session.cache, h, Positions(session.length, |h|), Positions(past, |h|));
    if s.output then r.(hidden := MapVectors(m.norm, r.hidden)) else r
  }

  function Trim(h: Hidden, mode: LogitsMode): Hidden
  {
    if mode == LAST_TOKEN && |h| > 1 then h[|h| - 1..] else h
  }

  /** `_advance`. */
  function Advance(m: Model, s: ShardSpec, session: Session, h: Hidden, mode: LogitsMode): (Session, Output)
  {
    var r := ForwardBlocks(m, s, session, h);
    (Session(r.cache, session.length + |h|, session.step + 1),
     if s.output then Logits(MapVectors(m.head, Trim(r.hidden, mode))) else HiddenStates(r.hidden))
  }

  // ---------------------------------------------------------------------------
  // A chain of shards and the whole model
  // ---------------------------------------------------------------------------

  /** What `_validate_partition` accepts. */
  predicate ValidPartition(m: Model, specs: seq<ShardSpec>)
  {
    && specs != []
    && (forall i :: 0 <= i < |specs| ==> ValidRange(specs[i]))
    && (forall i :: 0 <= i < |specs| ==> (specs[i].input <==> i == 0))
    && (forall i :: 0 <= i < |specs| ==> (specs[i].output <==> i == |specs| - 1))
    && specs[0].start == 0
    && specs[|specs| - 1].end == m.numBlocks
    && (forall i :: 0 <= i < |specs| - 1 ==> specs[i + 1].start == specs[i].end)
  }

  /** The unsplit model: one shard owning every block. */
  function Whole(m: Model): ShardSpec
  {
    ShardSpec(0, m.numBlocks, true, true)
  }

  /** One step through stages `specs`, each on its own session. */
  function RunChain(m: Model, specs: seq<ShardSpec>, sessions: seq<Session>, h: Hidden,
                    mode: LogitsMode): (r: (seq<Session>, Output))
    requires |specs| == |sessions| && specs != []
    ensures |r.0| == |sessions|
    decreases |specs|
  {
    var (s', out) := Advance(m, specs[0], sessions[0], h, mode);
    if |specs| == 1 then ([s'], out)
    else
      var next := if out.HiddenStates? then out.hidden else out.logits;
      var (rest, last) := RunChain(m, specs[1..], sessions[1..], next, mode);
      ([s'] + rest, last)
  }

  function Concat(sessions: seq<Session>): seq<Slot>
  {
    if sessions == [] then [] else sessions[0].cache + Concat(sessions[1..])
  }

  lemma {:induction false} RunBlocksSplit(m: Model, first: nat, c1: seq<Slot>, c2: seq<Slot>, h: Hidden,
                                          pos: seq<nat>, cpos: seq<nat>)
    ensures var a := RunBlocks(m, first, c1, h, pos, cpos);
            var b := RunBlocks(m, first + |c1|, c2, a.hidden, pos, cpos);
            RunBlocks(m, first, c1 + c2, h, pos, cpos) == Run(b.hidden, a.cache + b.cache)
    decreases |c1|
  {
    if c1 == [] {
      assert c1 + c2 == c2;
      var b := RunBlocks(m, first, c2, h, pos, cpos);
      assert [] + b.cache == b.cache;
    } else {
      var p := m.block(first, c1[0], h, pos, cpos);
      assert (c1 + c2)[1..] == c1[1..] + c2 && (c1 + c2)[0] == c1[0];
      RunBlocksSplit(m, first + 1, c1[1..], c2, p.hidden, pos, cpos);
      var a := RunBlocks(m, first + 1, c1[1..], p.hidden, pos, cpos);
      var b := RunBlocks(m, first + |c1|, c2, a.hidden, pos, cpos);
      assert [p.slot] + (a.cache + b.cache) == ([p.slot] + a.cache) + b.cache;
    }
  }

  lemma {:induction false} RunBlocksShape(m: Model, first: nat, cache: seq<Slot>, h: Hidden, pos: seq<nat>,
                                          cpos: seq<nat>, n: nat)
    requires WellShaped(m)
    requires forall i :: 0 <= i < |cache| ==> |cache[i]| == n
    ensures var r := RunBlocks(m, first, cache, h, pos, cpos);
            && |r.hidden| == |h|
            && forall i :: 0 <= i < |cache| ==> |r.cache[i]| == n + |h|
    decreases |cache|
  {
    if cache != [] {
      var p := m.block(first, cache[0], h, pos, cpos);
      RunBlocksShape(m, first + 1, cache[1..], p.hidden, pos, cpos, n);
    }
  }

  /** Stage sessions that agree with each other and hold one slot per owned block, all of one length. */
  ghost predicate InStep(specs: seq<ShardSpec>, sessions: seq<Session>, length: nat, step: nat)
  {
    && |specs| == |sessions|
    && forall i :: 0 <= i < |sessions| ==> InStepAt(specs[i], sessions[i], length, step)
  }

  ghost predicate InStepAt(s: ShardSpec, session: Session, length: nat, step: nat)
  {
    && ValidRange(s)
    && session.length == length && session.step == step
    && |session.cache| == s.end - s.start
    && forall j :: 0 <= j < |session.cache| ==> |session.cache[j]| == length
  }

  /** The tail of a valid partition: contiguous, output exactly at the end, finishing the model. */
  ghost predicate ValidTail(m: Model, specs: seq<ShardSpec>)
  {
    && specs != []
    && (forall i :: 0 <= i < |specs| ==> (specs[i].output <==> i == |specs| - 1))
    && specs[|specs| - 1].end == m.numBlocks
    && (forall i :: 0 <= i < |specs| - 1 ==> specs[i + 1].start == specs[i].end)
  }

  /** One stage in step: the cache's own length is the session's, so positions agree, and it stays in step. */
  lemma StageAdvances(m: Model, s: ShardSpec, session: Session, h: Hidden, mode: LogitsMode, length: nat, step: nat)
    requires WellShaped(m) && InStepAt(s, session, length, step)
    ensures var pos := Positions(length, |h|);
            var r := RunBlocks(m, s.start, session.cache, h, pos, pos);
            var (s', out) := Advance(m, s, session, h, mode);
            && |r.hidden| == |h|
            && s' == Session(r.cache, length + |h|, step + 1)
            && InStepAt(s, s', length + |h|, step + 1)
            && out == if s.output then Logits(MapVectors(m.head, Trim(MapVectors(m.norm, r.hidden), mode)))
                      else HiddenStates(r.hidden)
  {
    var pos := Positions(length, |h|);
    RunBlocksShape(m, s.start, session.cache, h, pos, pos, length);
  }

  lemma InStepTail(specs: seq<ShardSpec>, sessions: seq<Session>, length: nat, step: nat)
    requires specs != [] && |specs| == |sessions|
    ensures InStep(specs, sessions, length, step) <==>
            InStepAt(specs[0], sessions[0], length, step) && InStep(specs[1..], sessions[1..], length, step)
  {
    if InStepAt(specs[0], sessions[0], length, step) && InStep(specs[1..], sessions[1..], length, step) {
      forall i | 0 <= i < |specs| ensures InStepAt(specs[i], sessions[i], length, step) {
        if i > 0 { assert InStepAt(specs[1..][i - 1], sessions[1..][i - 1], length, step); }
      }
    }
  }

  lemma ChainCons(m: Model, specs: seq<ShardSpec>, sessions: seq<Session>, h: Hidden, mode: LogitsMode,
                  pos: seq<nat>, s': Session, first: Run, rest: Run)
    requires |specs| == |sessions| > 1
    requires specs[0].start + |sessions[0].cache| == specs[1].start
    requires first == RunBlocks(m, specs[0].start, sessions[0].cache, h, pos, pos)
    requires Advance(m, specs[0], sessions[0], h, mode) == (s', HiddenStates(first.hidden)) && s'.cache == first.cache
    requires rest == RunBlocks(m, specs[1].start, Concat(sessions[1..]), first.hidden, pos, pos)
    requires Concat(RunChain(m, specs[1..], sessions[1..], first.hidden, mode).0) == rest.cache
    ensures RunBlocks(m, specs[0].start, Concat(sessions), h, pos, pos) == Run(rest.hidden, first.cache + rest.cache)
    ensures var tail := RunChain(m, specs[1..], sessions[1..], first.hidden, mode);
            RunChain(m, specs, sessions, h, mode) == ([s'] + tail.0, tail.1)
    ensures Concat(RunChain(m, specs, sessions, h, mode).0) == first.cache + rest.cache
  {
    RunBlocksSplit(m, specs[0].start, sessions[0].cache, Concat(sessions[1..]), h, pos, pos);
    var tail := RunChain(m, specs[1..], sessions[1..], first.hidden, mode);
    assert ([s'] + tail.0)[1..] == tail.0;
  }

  /** What running stages `specs` on `h` must come to: their blocks in one go, then norm and head. */
  ghost predicate ChainMatches(m: Model, specs: seq<ShardSpec>, sessions: seq<Session>, h: Hidden, mode: LogitsMode,
                               length: nat, step: nat)
    requires |specs| == |sessions| && specs != []
  {
    var pos := Positions(length, |h|);
    var whole := RunBlocks(m, specs[0].start, Concat(sessions), h, pos, pos);
    var (sessions', out) := RunChain(m, specs, sessions, h, mode);
    && out == Logits(MapVectors(m.head, Trim(MapVectors(m.norm, whole.hidden), mode)))
    && Concat(sessions') == whole.cache
    && InStep(specs, sessions', length + |h|, step + 1)
  }

  lemma ChainOfOne(m: Model, specs: seq<ShardSpec>, sessions: seq<Session>, h: Hidden, mode: LogitsMode, length: nat,
                   step: nat)
    requires WellShaped(m) && |specs| == |sessions| == 1 && specs[0].output &&
             InStepAt(specs[0], sessions[0], length, step)
    ensures ChainMatches(m, specs, sessions, h, mode, length, step)
  {
    StageAdvances(m, specs[0], sessions[0], h, mode, length, step);
    var (s', out) := Advance(m, specs[0], sessions[0], h, mode);
    assert Concat(sessions) == sessions[0].cache + Concat(sessions[1..]) == sessions[0].cache;
    assert Concat([s']) == s'.cache + Concat([s'][1..]) == s'.cache;
  }

  lemma ChainOfMore(m: Model, specs: seq<ShardSpec>, sessions: seq<Session>, h: Hidden, mode: LogitsMode, length: nat,
                    step: nat, h1: Hidden)
    requires WellShaped(m) && |specs| == |sessions| > 1 && !specs[0].output && specs[1].start == specs[0].end
    requires InStepAt(specs[0], sessions[0], length, step)
    requires Advance(m, specs[0], sessions[0], h, mode).1 == HiddenStates(h1) && |h1| == |h|
    requires ChainMatches(m, specs[1..], sessions[1..], h1, mode, length, step)
    ensures ChainMatches(m, specs, sessions, h, mode, length, step)
  {
    var pos := Positions(length, |h|);
    StageAdvances(m, specs[0], sessions[0], h, mode, length, step);
    var (s', _) := Advance(m, specs[0], sessions[0], h, mode);
    var first := RunBlocks(m, specs[0].start, sessions[0].cache, h, pos, pos);
    var rest := RunBlocks(m, specs[1].start, Concat(sessions[1..]), h1, pos, pos);
    ChainCons(m, specs, sessions, h, mode, pos, s', first, rest);
    var sessions' := RunChain(m, specs, sessions, h, mode).0;
    assert sessions'[1..] == RunChain(m, specs[1..], sessions[1..], h1, mode).0;
    InStepTail(specs, sessions', length + |h|, step + 1);
  }

  /** Running the tail of a partition is running its blocks in one go. */
  lemma {:induction false} ChainIsRun(m: Model, specs: seq<ShardSpec>, sessions: seq<Session>, h: Hidden,
                                      mode: LogitsMode, length: nat, step: nat)
    requires WellShaped(m) && ValidTail(m, specs) && InStep(specs, sessions, length, step)
    ensures ChainMatches(m, specs, sessions, h, mode, length, step)
    decreases |specs|
  {
    InStepTail(specs, sessions, length, step);
    if |specs| == 1 {
      ChainOfOne(m, specs, sessions, h, mode, length, step);
    } else {
      StageAdvances(m, specs[0], sessions[0], h, mode, length, step);
      var h1 := Advance(m, specs[0], sessions[0], h, mode).1.hidden;
      ChainIsRun(m, specs[1..], sessions[1..], h1, mode, length, step);
      ChainOfMore(m, specs, sessions, h, mode, length, step, h1);
    }
  }

  lemma {:induction false} ConcatShape(m: Model, specs: seq<ShardSpec>, sessions: seq<Session>, length: nat, step: nat)
    requires ValidTail(m, specs) && InStep(specs, sessions, length, step)
    ensures |Concat(sessions)| == m.numBlocks - specs[0].start > 0
    ensures forall j :: 0 <= j < |Concat(sessions)| ==> |Concat(sessions)[j]| == length
    decreases |specs|
  {
    assert InStepAt(specs[0], sessions[0], length, step);
    if |specs| == 1 {
      assert Concat(sessions) == sessions[0].cache + Concat(sessions[1..]) == sessions[0].cache;
    } else {
      assert ValidTail(m, specs[1..]) && InStep(specs[1..], sessions[1..], length, step);
      ConcatShape(m, specs[1..], sessions[1..], length, step);
    }
  }

  /** The whole model's session that a chain of stage sessions amounts to. */
  function Joined(sessions: seq<Session>): Session
    requires sessions != []
  {
    Session(Concat(sessions), sessions[0].length, sessions[0].step)
  }

  /** One step of the pipeline is one step of the unsplit model, and the stages stay in step. */
  lemma ChainIsWhole(m: Model, specs: seq<ShardSpec>, sessions: seq<Session>, h: Hidden, mode: LogitsMode,
                     length: nat, step: nat)
    requires WellShaped(m) && ValidPartition(m, specs) && InStep(specs, sessions, length, step)
    ensures var (sessions', out) := RunChain(m, specs, sessions, h, mode);
            && (Joined(sessions'), out) == Advance(m, Whole(m), Joined(sessions), h, mode)
            && InStep(specs, sessions', length + |h|, step + 1)
  {
    ConcatShape(m, specs, sessions, length, step);
    ChainIsRun(m, specs, sessions, h, mode, length, step);
    assert InStepAt(specs[0], sessions[0], length, step);
    var (sessions', out) := RunChain(m, specs, sessions, h, mode);
    assert InStepAt(specs[0], sessions'[0], length + |h|, step + 1);
  }

  // ---------------------------------------------------------------------------
  // Whole generations
  // ---------------------------------------------------------------------------

  /** The logits of a sequence of steps, each given by its token inputs and logits mode. */
  datatype StepInput = StepInput(tokens: seq<int>, mode: LogitsMode)

  function ChainSteps(m: Model, specs: seq<ShardSpec>, sessions: seq<Session>, steps: seq<StepInput>)
    : (seq<Session>, seq<Output>)
    requires |specs| == |sessions| && specs != []
    decreases |steps|
  {
    if steps == [] then (sessions, [])
    else
      var (s', out) := RunChain(m, specs, sessions, EmbedTokens(m, steps[0].tokens), steps[0].mode);
      var (s'', outs) := ChainSteps(m, specs, s', steps[1..]);
      (s'', [out] + outs)
  }

  function WholeSteps(m: Model, session: Session, steps: seq<StepInput>): (Session, seq<Output>)
    decreases |steps|
  {
    if steps == [] then (session, [])
    else
      var (s', out) := Advance(m, Whole(m), session, EmbedTokens(m, steps[0].tokens), steps[0].mode);
      var (s'', outs) := WholeSteps(m, s', steps[1..]);
      (s'', [out] + outs)
  }

  function Consumed(steps: seq<StepInput>): nat
  {
    if steps == [] then 0 else |steps[0].tokens| + Consumed(steps[1..])
  }

  lemma {:induction false} StepsAgree(m: Model, specs: seq<ShardSpec>, sessions: seq<Session>, steps: seq<StepInput>,
                                      length: nat, step: nat)
    requires WellShaped(m) && ValidPartition(m, specs) && InStep(specs, sessions, length, step)
    ensures var (s', outs) := ChainSteps(m, specs, sessions, steps);
            && |s'| == |specs|
            && InStep(specs, s', length + Consumed(steps), step + |steps|)
            && WholeSteps(m, Joined(sessions), steps) == (Joined(s'), outs)
    decreases |steps|
  {
    if steps != [] {
      var h := EmbedTokens(m, steps[0].tokens);
      ChainIsWhole(m, specs, sessions, h, steps[0].mode, length, step);
      var (s', out) := RunChain(m, specs, sessions, h, steps[0].mode);
      StepsAgree(m, specs, s', steps[1..], length + |h|, step + 1);
    }
  }

  function NewSessions(specs: seq<ShardSpec>): (r: seq<Session>)
    requires forall i :: 0 <= i < |specs| ==> ValidRange(specs[i])
    ensures |r| == |specs|
    ensures forall i :: 0 <= i < |specs| ==> r[i] == NewSession(specs[i])
  {
    seq(|specs|, i requires 0 <= i < |specs| => NewSession(specs[i]))
  }

  lemma NewSessionsJoin(m: Model, specs: seq<ShardSpec>)
    requires ValidPartition(m, specs)
    ensures m.numBlocks > 0
    ensures InStep(specs, NewSessions(specs), 0, 0)
    ensures Joined(NewSessions(specs)) == NewSession(Whole(m))
  {
    var all := NewSessions(specs);
    assert forall i :: 0 <= i < |all| ==> InStepAt(specs[i], all[i], 0, 0);
    ConcatShape(m, specs, all, 0, 0);
    assert Concat(all) == EmptyCache(m.numBlocks);
  }

  /** For every accepted partition, every prompt and every decode tokens: the pipeline's logits are
      those of the unsplit model, and all stages keep the same step and sequence length. */
  lemma PipelineEqualsModel(m: Model, specs: seq<ShardSpec>, steps: seq<StepInput>, stages: seq<Session>,
                            whole: Session)
    requires WellShaped(m) && ValidPartition(m, specs)
    requires stages == NewSessions(specs) && ValidRange(Whole(m)) && whole == NewSession(Whole(m))
    ensures ChainSteps(m, specs, stages, steps).1 == WholeSteps(m, whole, steps).1
    ensures InStep(specs, ChainSteps(m, specs, stages, steps).0, Consumed(steps), |steps|)
  {
    NewSessionsJoin(m, specs);
    StepsAgree(m, specs, stages, steps, 0, 0);
  }

  lemma {:induction false} ChainStepsSnoc(m: Model, specs: seq<ShardSpec>, sessions: seq<Session>,
                                          steps: seq<StepInput>, next: StepInput)
    requires |specs| == |sessions| && specs != []
    ensures |ChainSteps(m, specs, sessions, steps).0| == |specs|
    ensures var (s, outs) := ChainSteps(m, specs, sessions, steps);
            var (s', out) := RunChain(m, specs, s, EmbedTokens(m, next.tokens), next.mode);
            ChainSteps(m, specs, sessions, steps + [next]) == (s', outs + [out])
    decreases |steps|
  {
    if steps == [] {
      assert steps + [next] == [next] && [next][1..] == [];
      var (s', out) := RunChain(m, specs, sessions, EmbedTokens(m, next.tokens), next.mode);
      var none: seq<Output> := [];
      assert ChainSteps(m, specs, s', []) == (s', none);
      assert none + [out] == [out] + none == [out];
    } else {
      assert (steps + [next])[1..] == steps[1..] + [next];
      var (s1, out1) := RunChain(m, specs, sessions, EmbedTokens(m, steps[0].tokens), steps[0].mode);
      ChainStepsSnoc(m, specs, s1, steps[1..], next);
      var (s, outs) := ChainSteps(m, specs, s1, steps[1..]);
      var (s', out) := RunChain(m, specs, s, EmbedTokens(m, next.tokens), next.mode);
      assert [out1] + (outs + [out]) == ([out1] + outs) + [out];
    }
  }

  /** LAST_TOKEN logits are the last position of the FULL ones, and leave the same session behind. */
  lemma LastTokenIsLastOfFull(m: Model, s: ShardSpec, session: Session, h: Hidden)
    requires WellShaped(m) && s.output && h != []
    requires forall i :: 0 <= i < |session.cache| ==> |session.cache[i]| == session.length
    ensures var (s1, full) := Advance(m, s, session, h, FULL);
            var (s2, last) := Advance(m, s, session, h, LAST_TOKEN);
            && s1 == s2 && full.Logits? && last.Logits?
            && |full.logits| == |h| && last.logits == [full.logits[|h| - 1]]
  {
    var past := CacheLength(session.cache);
    RunBlocksShape(m, s.start, session.cache, h, Positions(session.length, |h|), Positions(past, |h|), session.length);
  }
}
