/**
 What a generation computes, without caches and without shards (src/edgeshard/inference/shard.py,
 src/edgeshard/inference/pipeline.py).

 For blocks that are causal, feeding the tokens step by step through per-block caches, at any partition and with
 any logits mode, gives the logits of one pass over all the tokens at once, at positions 0, 1, 2, ...
 */
module Causality {
  import opened Decoder
  import opened Pipeline

  /** `n`, `n + 1`, ... up to `count` of them. */
  function From(n: nat, count: nat): (r: seq<nat>)
    ensures |r| == count && forall i :: 0 <= i < count ==> r[i] == n + i
  {
    seq(count, i requires 0 <= i => n + i)
  }

  /** A causal block: one pass over `h1 + h2` is the pass over `h1` and then, on the slot it leaves, the pass over
      `h2`, provided the positions continue those in the slot. */
  ghost predicate CausalAt(m: Model, g: nat, slot: Slot, h1: Hidden, h2: Hidden)
  {
    var n := |slot|;
    var pos, pos1, pos2 := From(n, |h1| + |h2|), From(n, |h1|), From(n + |h1|, |h2|);
    var a := m.block(g, slot, h1, pos1, pos1);
    var b := m.block(g, a.slot, h2, pos2, pos2);
    m.block(g, slot, h1 + h2, pos, pos) == Pass(a.hidden + b.hidden, b.slot)
  }

  ghost predicate Causal(m: Model)
  {
    forall g, slot, h1, h2 :: CausalAt(m, g, slot, h1, h2)
  }

  // ---------------------------------------------------------------------------
  // The reference
  // ---------------------------------------------------------------------------

  /** Blocks `g`, `g + 1`, ... of the model, each on nothing cached. */
  function Blocks(m: Model, g: nat, h: Hidden): Hidden
    decreases m.numBlocks - g
  {
    if g >= m.numBlocks then h
    else Blocks(m, g + 1, m.block(g, [], h, From(0, |h|), From(0, |h|)).hidden)
  }

  /** The logits of every position of `tokens`. */
  function Reference(m: Model, tokens: seq<int>): (r: seq<Vector>)
  {
    var h := Blocks(m, 0, seq(|tokens|, i requires 0 <= i < |tokens| => m.embed(tokens[i])));
    seq(|h|, i requires 0 <= i < |h| => m.head(m.norm(h[i])))
  }

  function TokensOf(steps: seq<StepInput>): (r: seq<int>)
    ensures |r| == Consumed(steps)
  {
    if steps == [] then [] else steps[0].tokens + TokensOf(steps[1..])
  }

  /** What step `j` must answer: the logits of its own positions, or of the last one only. */
  ghost predicate AnswersFrom(logits: seq<Vector>, from: nat, count: nat, mode: LogitsMode, out: Output)
  {
    && from + count <= |logits|
    && out == Logits(if mode == LAST_TOKEN && count > 0 then [logits[from + count - 1]]
                     else logits[from..from + count])
  }

  // ---------------------------------------------------------------------------
  // Stacks of causal blocks
  // ---------------------------------------------------------------------------

  ghost predicate Filled(cache: seq<Slot>, n: nat)
  {
    forall i :: 0 <= i < |cache| ==> |cache[i]| == n
  }

  /** A stack of causal blocks is causal. */
  lemma {:induction false} StackCausal(m: Model, first: nat, cache: seq<Slot>, n: nat, h1: Hidden, h2: Hidden)
    requires WellShaped(m) && Causal(m) && Filled(cache, n)
    ensures var a := RunBlocks(m, first, cache, h1, From(n, |h1|), From(n, |h1|));
            var b := RunBlocks(m, first, a.cache, h2, From(n + |h1|, |h2|), From(n + |h1|, |h2|));
            var pos := From(n, |h1| + |h2|);
            && |a.hidden| == |h1| && Filled(a.cache, n + |h1|)
            && RunBlocks(m, first, cache, h1 + h2, pos, pos) == Run(a.hidden + b.hidden, b.cache)
    decreases |cache|
  {
    if cache != [] {
      var pos1, pos2 := From(n, |h1|), From(n + |h1|, |h2|);
      assert CausalAt(m, first, cache[0], h1, h2);
      var p1 := m.block(first, cache[0], h1, pos1, pos1);
      var p2 := m.block(first, p1.slot, h2, pos2, pos2);
      StackCausal(m, first + 1, cache[1..], n, p1.hidden, p2.hidden);
      var a := RunBlocks(m, first, cache, h1, pos1, pos1);
      assert a.cache[1..] == RunBlocks(m, first + 1, cache[1..], p1.hidden, pos1, pos1).cache;
    }
  }

  /** On empty slots a stack is the cache-free reference. */
  lemma {:induction false} FreshStack(m: Model, first: nat, cache: seq<Slot>, h: Hidden)
    requires WellShaped(m) && first + |cache| == m.numBlocks && Filled(cache, 0)
    ensures RunBlocks(m, first, cache, h, From(0, |h|), From(0, |h|)).hidden == Blocks(m, first, h)
    ensures |Blocks(m, first, h)| == |h|
    decreases |cache|
  {
    if cache != [] {
      var pos := From(0, |h|);
      assert cache[0] == [];
      FreshStack(m, first + 1, cache[1..], m.block(first, [], h, pos, pos).hidden);
    }
  }

  // ---------------------------------------------------------------------------
  // Whole generations
  // ---------------------------------------------------------------------------

  /** The head on the normalised states, position by position. */
  function Finalized(m: Model, h: Hidden): (r: seq<Vector>)
    ensures |r| == |h| && forall i :: 0 <= i < |h| ==> r[i] == m.head(m.norm(h[i]))
  {
    seq(|h|, i requires 0 <= i < |h| => m.head(m.norm(h[i])))
  }

  lemma PositionsAreFrom(n: nat, count: nat)
    ensures Positions(n, count) == From(n, count)
  {
  }

  lemma WholeForwards(m: Model, session: Session, h: Hidden, n: nat)
    requires session.cache != [] && |session.cache[0]| == n && session.length == n
    ensures var r := RunBlocks(m, 0, session.cache, h, From(n, |h|), From(n, |h|));
            ForwardBlocks(m, Whole(m), session, h) == Run(MapVectors(m.norm, r.hidden), r.cache)
  {
    PositionsAreFrom(n, |h|);
  }

  lemma AdvanceIs(m: Model, s: ShardSpec, session: Session, h: Hidden, mode: LogitsMode, f: Run)
    requires s.output && f == ForwardBlocks(m, s, session, h)
    ensures Advance(m, s, session, h, mode) ==
            (Session(f.cache, session.length + |h|, session.step + 1),
             Logits(MapVectors(m.head, Trim(f.hidden, mode))))
  {
  }

  lemma TrimAnswers(m: Model, h: Hidden, mode: LogitsMode)
    ensures AnswersFrom(Finalized(m, h), 0, |h|, mode,
                        Logits(MapVectors(m.head, Trim(MapVectors(m.norm, h), mode))))
  {
    var all := MapVectors(m.head, MapVectors(m.norm, h));
    assert all == Finalized(m, h) == Finalized(m, h)[0..|h|];
    if mode == LAST_TOKEN && |h| > 0 {
      assert MapVectors(m.head, Trim(MapVectors(m.norm, h), mode)) == [all[|h| - 1]];
    }
  }

  lemma StepAnswers(m: Model, session: Session, h: Hidden, mode: LogitsMode, n: nat)
    requires WellShaped(m) && session.cache != [] && Filled(session.cache, n) && session.length == n
    ensures var r := RunBlocks(m, 0, session.cache, h, From(n, |h|), From(n, |h|));
            var (s', out) := Advance(m, Whole(m), session, h, mode);
            && |r.hidden| == |h| && s' == Session(r.cache, n + |h|, session.step + 1)
            && AnswersFrom(Finalized(m, r.hidden), 0, |h|, mode, out)
  {
    var r := RunBlocks(m, 0, session.cache, h, From(n, |h|), From(n, |h|));
    WholeForwards(m, session, h, n);
    AdvanceIs(m, Whole(m), session, h, mode, Run(MapVectors(m.norm, r.hidden), r.cache));
    RunBlocksShape(m, 0, session.cache, h, From(n, |h|), From(n, |h|), n);
    TrimAnswers(m, r.hidden, mode);
  }

  lemma AnswerKept(logits: seq<Vector>, before: seq<Vector>, after: seq<Vector>, from: nat, count: nat,
                   mode: LogitsMode, out: Output)
    requires AnswersFrom(logits, from, count, mode, out)
    ensures AnswersFrom(before + logits + after, |before| + from, count, mode, out)
  {
    assert (before + logits + after)[|before| + from..|before| + from + count] == logits[from..from + count];
  }

  /** The logits of one pass over all tokens of `steps`, after `n` cached ones. */
  ghost function Ahead(m: Model, cache: seq<Slot>, steps: seq<StepInput>, n: nat): seq<Vector>
  {
    var pos := From(n, Consumed(steps));
    Finalized(m, RunBlocks(m, 0, cache, EmbedTokens(m, TokensOf(steps)), pos, pos).hidden)
  }

  lemma AheadSplits(m: Model, cache: seq<Slot>, steps: seq<StepInput>, n: nat)
    requires WellShaped(m) && Causal(m) && Filled(cache, n) && steps != []
    ensures var h, pos := EmbedTokens(m, steps[0].tokens), From(n, |steps[0].tokens|);
            var a := RunBlocks(m, 0, cache, h, pos, pos);
            && |a.hidden| == |h| && Filled(a.cache, n + |h|)
            && Ahead(m, cache, steps, n) == Finalized(m, a.hidden) + Ahead(m, a.cache, steps[1..], n + |h|)
  {
    var h, rest := EmbedTokens(m, steps[0].tokens), EmbedTokens(m, TokensOf(steps[1..]));
    assert EmbedTokens(m, TokensOf(steps)) == h + rest;
    StackCausal(m, 0, cache, n, h, rest);
    var a := RunBlocks(m, 0, cache, h, From(n, |h|), From(n, |h|));
    var b := RunBlocks(m, 0, a.cache, rest, From(n + |h|, |rest|), From(n + |h|, |rest|));
    assert Finalized(m, a.hidden + b.hidden) == Finalized(m, a.hidden) + Finalized(m, b.hidden);
  }

  /** The answers are those of one pass, `logits`, over the tokens of `steps`. */
  ghost predicate AllAnswer(logits: seq<Vector>, steps: seq<StepInput>, outs: seq<Output>)
  {
    && |outs| == |steps|
    && forall j :: 0 <= j < |steps| ==> AnswerAt(logits, steps, outs, j)
  }

  /** Step `j` answers from `logits`. */
  ghost predicate AnswerAt(logits: seq<Vector>, steps: seq<StepInput>, outs: seq<Output>, j: nat)
    requires j < |steps| == |outs|
  {
    AnswersFrom(logits, Consumed(steps[..j]), |steps[j].tokens|, steps[j].mode, outs[j])
  }

  lemma FirstAnswers(now: seq<Vector>, later: seq<Vector>, steps: seq<StepInput>, out: Output, outs: seq<Output>)
    requires steps != [] && |now| == |steps[0].tokens| && AnswersFrom(now, 0, |now|, steps[0].mode, out)
    requires |outs| == |steps| - 1
    ensures AnswerAt(now + later, steps, [out] + outs, 0)
  {
    AnswerKept(now, [], later, 0, |now|, steps[0].mode, out);
    assert [] + now + later == now + later;
  }

  lemma LaterAnswers(now: seq<Vector>, later: seq<Vector>, steps: seq<StepInput>, out: Output, outs: seq<Output>,
                     j: nat)
    requires 0 < j < |steps| == |outs| + 1 && |now| == |steps[0].tokens| && AnswerAt(later, steps[1..], outs, j - 1)
    ensures AnswerAt(now + later, steps, [out] + outs, j)
  {
    assert steps[..j][1..] == steps[1..][..j - 1];
    AnswerKept(later, now, [], Consumed(steps[1..][..j - 1]), |steps[j].tokens|, steps[j].mode, outs[j - 1]);
    assert now + later + [] == now + later;
  }

  lemma AnswersJoin(now: seq<Vector>, later: seq<Vector>, steps: seq<StepInput>, out: Output, outs: seq<Output>)
    requires steps != [] && |now| == |steps[0].tokens| && AnswersFrom(now, 0, |now|, steps[0].mode, out)
    requires AllAnswer(later, steps[1..], outs)
    ensures AllAnswer(now + later, steps, [out] + outs)
  {
    forall j | 0 <= j < |steps| ensures AnswerAt(now + later, steps, [out] + outs, j) {
      if j == 0 {
        FirstAnswers(now, later, steps, out, outs);
      } else {
        assert AnswerAt(later, steps[1..], outs, j - 1);
        LaterAnswers(now, later, steps, out, outs, j);
      }
    }
  }

  /** The first step, and what is left for the others. */
  lemma FirstStep(m: Model, session: Session, steps: seq<StepInput>, n: nat)
    returns (s': Session, out: Output, now: seq<Vector>)
    requires WellShaped(m) && Causal(m) && steps != []
    requires session.cache != [] && Filled(session.cache, n) && session.length == n
    ensures var n' := n + |steps[0].tokens|;
            && s'.cache != [] && Filled(s'.cache, n') && s'.length == n'
            && Ahead(m, session.cache, steps, n) == now + Ahead(m, s'.cache, steps[1..], n')
    ensures |now| == |steps[0].tokens| && AnswersFrom(now, 0, |now|, steps[0].mode, out)
    ensures WholeSteps(m, session, steps).1 == [out] + WholeSteps(m, s', steps[1..]).1
  {
    var h := EmbedTokens(m, steps[0].tokens);
    var pos := From(n, |h|);
    AheadSplits(m, session.cache, steps, n);
    StepAnswers(m, session, h, steps[0].mode, n);
    s', out := Advance(m, Whole(m), session, h, steps[0].mode).0, Advance(m, Whole(m), session, h, steps[0].mode).1;
    now := Finalized(m, RunBlocks(m, 0, session.cache, h, pos, pos).hidden);
  }

  /** From this cached state, every step answers from one pass over all the tokens still to come. */
  ghost predicate AnswersAhead(m: Model, session: Session, steps: seq<StepInput>, n: nat)
  {
    AllAnswer(Ahead(m, session.cache, steps, n), steps, WholeSteps(m, session, steps).1)
  }

  lemma AheadJoins(m: Model, session: Session, s': Session, steps: seq<StepInput>, n: nat, n': nat, out: Output,
                   now: seq<Vector>)
    requires steps != [] && |now| == |steps[0].tokens| && AnswersFrom(now, 0, |now|, steps[0].mode, out)
    requires Ahead(m, session.cache, steps, n) == now + Ahead(m, s'.cache, steps[1..], n')
    requires WholeSteps(m, session, steps).1 == [out] + WholeSteps(m, s', steps[1..]).1
    requires AnswersAhead(m, s', steps[1..], n')
    ensures AnswersAhead(m, session, steps, n)
  {
    AnswersJoin(now, Ahead(m, s'.cache, steps[1..], n'), steps, out, WholeSteps(m, s', steps[1..]).1);
  }

  lemma {:induction false} StepsAnswer(m: Model, session: Session, steps: seq<StepInput>, n: nat)
    requires WellShaped(m) && Causal(m)
    requires session.cache != [] && Filled(session.cache, n) && session.length == n
    ensures AnswersAhead(m, session, steps, n)
    decreases |steps|
  {
    if steps != [] {
      var s', out, now := FirstStep(m, session, steps, n);
      var n' := n + |steps[0].tokens|;
      StepsAnswer(m, s', steps[1..], n');
      AheadJoins(m, session, s', steps, n, n', out, now);
    }
  }

  lemma ReferenceOf(m: Model, tokens: seq<int>)
    requires WellShaped(m)
    ensures var h := EmbedTokens(m, tokens);
            Reference(m, tokens) ==
            Finalized(m, RunBlocks(m, 0, EmptyCache(m.numBlocks), h, From(0, |h|), From(0, |h|)).hidden)
    ensures |Reference(m, tokens)| == |tokens|
  {
    var h := EmbedTokens(m, tokens);
    assert seq(|tokens|, i requires 0 <= i < |tokens| => m.embed(tokens[i])) == h;
    FreshStack(m, 0, EmptyCache(m.numBlocks), h);
  }

  /** The unsplit model, step by step, answers from the reference. */
  lemma WholeAnswersReference(m: Model, steps: seq<StepInput>, j: nat)
    requires WellShaped(m) && Causal(m) && m.numBlocks > 0 && j < |steps|
    ensures |WholeSteps(m, NewSession(Whole(m)), steps).1| == |steps|
    ensures AnswersFrom(Reference(m, TokensOf(steps)), Consumed(steps[..j]), |steps[j].tokens|, steps[j].mode,
                        WholeSteps(m, NewSession(Whole(m)), steps).1[j])
  {
    ReferenceOf(m, TokensOf(steps));
    StepsAnswer(m, NewSession(Whole(m)), steps, 0);
    assert AnswerAt(Ahead(m, NewSession(Whole(m)).cache, steps, 0), steps,
                    WholeSteps(m, NewSession(Whole(m)), steps).1, j);
  }

  /** For every accepted partition, and every prompt and decode tokens: what step `j` of the pipeline answers is, at
      the positions of its own tokens, the logits of one pass of the whole model over all the tokens. */
  lemma IncrementalEqualsFull(m: Model, specs: seq<ShardSpec>, steps: seq<StepInput>, j: nat)
    requires WellShaped(m) && Causal(m) && j < |steps|
    requires ValidPartition(m, specs)
    ensures |ChainSteps(m, specs, NewSessions(specs), steps).1| == |steps|
    ensures AnswersFrom(Reference(m, TokensOf(steps)), Consumed(steps[..j]), |steps[j].tokens|, steps[j].mode,
                        ChainSteps(m, specs, NewSessions(specs), steps).1[j])
  {
    NewSessionsJoin(m, specs);
    PipelineEqualsModel(m, specs, steps, NewSessions(specs), NewSession(Whole(m)));
    WholeAnswersReference(m, steps, j);
  }

  /** In particular a prompt and its decodes answer what one FULL prefill of all their tokens answers, each of the two
      at any partition. */
  lemma IncrementalEqualsPrefill(m: Model, specs: seq<ShardSpec>, others: seq<ShardSpec>, steps: seq<StepInput>,
                                 j: nat)
    requires WellShaped(m) && Causal(m) && j < |steps|
    requires ValidPartition(m, specs) && ValidPartition(m, others)
    ensures |ChainSteps(m, specs, NewSessions(specs), steps).1| == |steps|
    ensures var full := ChainSteps(m, others, NewSessions(others), [StepInput(TokensOf(steps), FULL)]).1;
            && |full| == 1 && full[0].Logits? && full[0].logits == Reference(m, TokensOf(steps))
            && AnswersFrom(full[0].logits, Consumed(steps[..j]), |steps[j].tokens|, steps[j].mode,
                           ChainSteps(m, specs, NewSessions(specs), steps).1[j])
  {
    var prefill := [StepInput(TokensOf(steps), FULL)];
    assert TokensOf(prefill) == TokensOf(steps) + TokensOf(prefill[1..]) == TokensOf(steps);
    IncrementalEqualsFull(m, others, prefill, 0);
    ReferenceOf(m, TokensOf(steps));
    IncrementalEqualsFull(m, specs, steps, j);
  }

  /** What pipeline calls and shard replies are compared with is the reference too. */
  lemma ModelLogitsAreReference(m: Model, history: seq<StepInput>)
    requires WellShaped(m) && Causal(m) && m.numBlocks > 0 && history != []
    ensures var last := |history| - 1;
            AnswersFrom(Reference(m, TokensOf(history)), Consumed(history[..last]), |history[last].tokens|,
                        history[last].mode, ModelLogits(m, history))
  {
    WholeAnswersReference(m, history, |history| - 1);
  }
}
