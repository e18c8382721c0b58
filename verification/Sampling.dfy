/**
 Adaptive warm-up and duration-bounded measurement
 (src/edgeshard/profiling/benchmark/sampling.py, src/edgeshard/profiling/benchmark/harness.py).

 The timer's readings are a stream; a negative reading stands for an invalid one.  Arithmetic is over
 the reals.
 */
module Sampling {

  // ---------------------------------------------------------------------------
  // statistics.median
  // ---------------------------------------------------------------------------

  predicate Ascending(s: seq<real>)
  {
    forall i, j :: 0 <= i < j < |s| ==> s[i] <= s[j]
  }

  function Insert(x: real, s: seq<real>): (r: seq<real>)
    ensures |r| == |s| + 1
    ensures forall y :: y in r ==> y == x || y in s
  {
    if s == [] || x <= s[0] then [x] + s else [s[0]] + Insert(x, s[1..])
  }

  function Sorted(s: seq<real>): (r: seq<real>)
    ensures |r| == |s|
    ensures forall y :: y in r ==> y in s
  {
    if s == [] then [] else Insert(s[0], Sorted(s[1..]))
  }

  lemma {:induction false} InsertAscends(x: real, s: seq<real>)
    requires Ascending(s)
    ensures Ascending(Insert(x, s))
  {
    if s != [] && x > s[0] {
      InsertAscends(x, s[1..]);
      ConsAscends(s[0], Insert(x, s[1..]));
    }
  }

  lemma ConsAscends(x: real, s: seq<real>)
    requires Ascending(s) && forall y :: y in s ==> x <= y
    ensures Ascending([x] + s)
  {
    forall i | 0 <= i < |s| ensures x <= s[i] { assert s[i] in s; }
  }

  lemma {:induction false} InsertKeeps(x: real, s: seq<real>)
    ensures multiset(Insert(x, s)) == multiset(s) + multiset{x}
  {
    if s != [] && x > s[0] {
      InsertKeeps(x, s[1..]);
      assert s == [s[0]] + s[1..];
    }
  }

  /** `Sorted` sorts: ascending, and the same values as often. */
  lemma {:induction false} SortedSorts(s: seq<real>)
    ensures Ascending(Sorted(s)) && multiset(Sorted(s)) == multiset(s)
  {
    if s != [] {
      SortedSorts(s[1..]);
      InsertAscends(s[0], Sorted(s[1..]));
      InsertKeeps(s[0], Sorted(s[1..]));
      assert s == [s[0]] + s[1..];
    }
  }

  lemma HeadIsLeast(s: seq<real>, x: real)
    requires Ascending(s) && x in multiset(s)
    ensures s != [] && s[0] <= x
  {
    var i :| 0 <= i < |s| && s[i] == x;
  }

  lemma TailOf(s: seq<real>)
    requires s != [] && Ascending(s)
    ensures s == [s[0]] + s[1..] && multiset(s[1..]) == multiset(s) - multiset{s[0]} && Ascending(s[1..])
  {
    assert s == [s[0]] + s[1..];
  }

  /** Only one ascending list holds given values. */
  lemma {:induction false} AscendingUnique(a: seq<real>, b: seq<real>)
    requires Ascending(a) && Ascending(b) && multiset(a) == multiset(b)
    ensures a == b
    decreases |a|
  {
    if a == [] {
      assert |b| == |multiset(b)| == |multiset(a)|;
    } else {
      SameHead(a, b);
      TailOf(a);
      TailOf(b);
      AscendingUnique(a[1..], b[1..]);
    }
  }

  lemma SameHead(a: seq<real>, b: seq<real>)
    requires Ascending(a) && Ascending(b) && multiset(a) == multiset(b) && a != []
    ensures b != [] && a[0] == b[0]
  {
    assert a[0] in multiset(a);
    HeadIsLeast(b, a[0]);
    assert b[0] in multiset(b);
    HeadIsLeast(a, b[0]);
  }

  function Median(s: seq<real>): real
    requires s != []
  {
    var r, n := Sorted(s), |s|;
    if n % 2 == 1 then r[n / 2] else (r[n / 2 - 1] + r[n / 2]) / 2.0
  }

  /** The median is the mean of the two middle values, or of the one, of the samples in ascending order. */
  lemma MedianIsMiddle(s: seq<real>, t: seq<real>)
    requires s != [] && Ascending(t) && multiset(t) == multiset(s)
    ensures |t| == |s| && Median(s) == (t[(|t| - 1) / 2] + t[|t| / 2]) / 2.0
  {
    SortedSorts(s);
    AscendingUnique(t, Sorted(s));
  }

  lemma MedianOfConstant(s: seq<real>, c: real)
    requires s != [] && forall i :: 0 <= i < |s| ==> s[i] == c
    ensures Median(s) == c
  {
    var r := Sorted(s);
    forall i | 0 <= i < |r| ensures r[i] == c {
      assert r[i] in r;
    }
  }

  // ---------------------------------------------------------------------------
  // The policy
  // ---------------------------------------------------------------------------

  datatype Policy = Policy(
    minWarmups: nat, maxWarmups: nat, window: nat, tolerance: real, stableWindows: nat, fixed: bool,
    minRuns: nat, maxRuns: nat, target: real)

  /** What the constructor accepts. */
  predicate PolicyOk(p: Policy)
  {
    && p.minWarmups <= p.maxWarmups && p.window >= 1 && p.tolerance >= 0.0 && p.stableWindows >= 1
    && 1 <= p.minRuns <= p.maxRuns && p.target > 0.0
  }

  function Abs(x: real): real
  {
    if x < 0.0 then -x else x
  }

  const EPSILON := 0.000000000001

  /** The relative change of the medians. */
  function MedianDrift(current: seq<real>, previous: seq<real>): real
  {
    if current == [] || previous == [] then 0.0 else RelativeChange(Median(current), Median(previous))
  }

  function RelativeChange(current: real, previous: real): real
  {
    Abs(current - previous) / (if Abs(current) > EPSILON then Abs(current) else EPSILON)
  }

  /** How many samples the rolling-window comparisons reach back over. */
  function Reach(p: Policy): int
  {
    2 * p.window + p.stableWindows - 1
  }

  function Required(p: Policy): int
  {
    if p.minWarmups >= Reach(p) then p.minWarmups else Reach(p)
  }

  /** How two neighbouring windows are compared.  The loops are proved for any comparison and run with `MedianDrift`. */
  type Drift = (seq<real>, seq<real>) -> real

  /** The window that ends at `end` and the one before it are close. */
  predicate StableAt(drift: Drift, p: Policy, samples: seq<real>, end: int)
    requires p.window >= 1 && 2 * p.window <= end <= |samples|
  {
    drift(samples[end - p.window..end], samples[end - 2 * p.window..end - p.window]) <= p.tolerance
  }

  /** The last `stableWindows` comparisons are all stable. */
  predicate Converged(drift: Drift, p: Policy, samples: seq<real>)
    requires PolicyOk(p)
  {
    if p.fixed then |samples| >= p.minWarmups
    else |samples| >= Required(p) && forall end :: |samples| - p.stableWindows < end <= |samples| ==>
           StableAt(drift, p, samples, end)
  }

  /** The larger of |x| and epsilon. */
  function Magnitude(x: real): (m: real)
    ensures m >= x && m >= -x && m >= EPSILON && (m == x || m == -x || m == EPSILON)
  {
    if x >= EPSILON then x else if -x >= EPSILON then -x else EPSILON
  }

  /** Two medians differ by no more than the tolerance times the magnitude of the newer one. */
  predicate Near(now: real, before: real, tolerance: real)
  {
    -(tolerance * Magnitude(now)) <= now - before <= tolerance * Magnitude(now)
  }

  lemma DriftWithin(now: real, before: real, tolerance: real)
    ensures RelativeChange(now, before) <= tolerance <==> Near(now, before, tolerance)
  {
    QuotientWithin(Abs(now - before), Magnitude(now), tolerance);
  }

  lemma QuotientWithin(x: real, m: real, tolerance: real)
    requires m > 0.0
    ensures x / m <= tolerance <==> x <= tolerance * m
  {
    var q := x / m;
    assert q * m == x;
    if q <= tolerance { ProductGrows(q, tolerance, m); } else { ProductGrows(tolerance, q, m); }
    if q > tolerance { assert (q - tolerance) * m > 0.0; }
  }

  lemma ProductGrows(a: real, b: real, m: real)
    requires a <= b && m > 0.0
    ensures a * m <= b * m
  {
    assert (b - a) * m >= 0.0;
  }

  /** The window that ends at `end` and the one before it lie inside the samples. */
  predicate Inside(p: Policy, end: int)
  {
    2 * p.window <= end
  }

  /** The windows of all comparisons lie inside the samples exactly when there are as many as they reach over. */
  lemma ReachExact(p: Policy, count: nat)
    requires PolicyOk(p)
    ensures count >= Reach(p) <==> forall end :: count - p.stableWindows < end <= count ==> Inside(p, end)
  {
    if forall end :: count - p.stableWindows < end <= count ==> Inside(p, end) {
      assert Inside(p, count - p.stableWindows + 1);
    }
  }

  /** The median of the window that ends at `end` is within the tolerance, relative to its own magnitude, of that of
      the window before. */
  ghost predicate WithinAt(p: Policy, samples: seq<real>, end: int)
    requires p.window >= 1 && 2 * p.window <= end <= |samples|
  {
    Near(Median(samples[end - p.window..end]), Median(samples[end - 2 * p.window..end - p.window]), p.tolerance)
  }

  lemma StableIsWithin(p: Policy, samples: seq<real>, end: int)
    requires p.window >= 1 && 2 * p.window <= end <= |samples|
    ensures StableAt(MedianDrift, p, samples, end) <==> WithinAt(p, samples, end)
  {
    var current, previous := samples[end - p.window..end], samples[end - 2 * p.window..end - p.window];
    DriftWithin(Median(current), Median(previous), p.tolerance);
  }

  /** An adaptive policy has converged exactly when there are enough samples and the last windows' medians all stay
      within the tolerance. */
  lemma ConvergedIff(p: Policy, samples: seq<real>)
    requires PolicyOk(p) && !p.fixed
    ensures Converged(MedianDrift, p, samples) <==>
            && |samples| >= p.minWarmups && |samples| >= 2 * p.window + p.stableWindows - 1
            && forall end :: |samples| - p.stableWindows < end <= |samples| ==> WithinAt(p, samples, end)
  {
    if |samples| >= Required(p) {
      forall end | |samples| - p.stableWindows < end <= |samples|
        ensures StableAt(MedianDrift, p, samples, end) <==> WithinAt(p, samples, end)
      {
        StableIsWithin(p, samples, end);
      }
    }
  }

  /** `warmup_converged`: every window it reads lies inside the samples. */
  method WarmupConverged(drift: Drift, p: Policy, samples: seq<real>) returns (r: bool)
    requires PolicyOk(p)
    ensures r == Converged(drift, p, samples)
  {
    var count := |samples|;
    if p.fixed {
      return count >= p.minWarmups;
    }
    if count < Required(p) {
      return false;
    }
    for offset := 0 to p.stableWindows
      invariant forall end :: count - offset < end <= count ==> StableAt(drift, p, samples, end)
    {
      var stable := CompareWindows(drift, p, samples, count - offset);
      if !stable {
        return false;
      }
    }
    r := true;
  }

  method CompareWindows(drift: Drift, p: Policy, samples: seq<real>, end: nat) returns (stable: bool)
    requires p.window >= 1 && 2 * p.window <= end <= |samples|
    ensures stable == StableAt(drift, p, samples, end)
  {
    var current := samples[end - p.window..end];
    var previous := samples[end - 2 * p.window..end - p.window];
    stable := drift(current, previous) <= p.tolerance;
  }

  method ShouldContinueWarmup(drift: Drift, p: Policy, samples: seq<real>) returns (r: bool)
    requires PolicyOk(p)
    ensures r == (|samples| < p.minWarmups || (!Converged(drift, p, samples) && |samples| < p.maxWarmups))
  {
    if |samples| < p.minWarmups {
      return true;
    }
    var converged := WarmupConverged(drift, p, samples);
    if converged {
      return false;
    }
    r := |samples| < p.maxWarmups;
  }

  // ---------------------------------------------------------------------------
  // The loops
  // ---------------------------------------------------------------------------

  function Prefix(stream: nat -> real, n: nat): (s: seq<real>)
    ensures |s| == n && forall i :: 0 <= i < n ==> s[i] == stream(i)
  {
    seq(n, i requires 0 <= i < n => stream(i))
  }

  /** Warm-up may end after `n` samples. */
  predicate WarmEnough(drift: Drift, p: Policy, stream: nat -> real, n: nat)
    requires PolicyOk(p)
  {
    n >= p.minWarmups && (n >= p.maxWarmups || Converged(drift, p, Prefix(stream, n)))
  }

  ghost predicate AllValid(stream: nat -> real, n: nat)
  {
    forall i :: 0 <= i < n ==> stream(i) >= 0.0
  }

  datatype Samples = Taken(samples: seq<real>) | InvalidReading(at: nat)

  /** `_warmup`, adaptive: stops at the first count that is warm enough, in [min, max]; an invalid reading before that
      is the only other way out. */
  method WarmupBy(drift: Drift, p: Policy, stream: nat -> real) returns (r: Samples, converged: bool)
    requires PolicyOk(p)
    ensures r.Taken? ==>
      var n := |r.samples|;
      && r.samples == Prefix(stream, n) && AllValid(stream, n)
      && p.minWarmups <= n <= p.maxWarmups
      && WarmEnough(drift, p, stream, n) && (forall k :: 0 <= k < n ==> !WarmEnough(drift, p, stream, k))
      && converged == Converged(drift, p, r.samples)
    ensures r.InvalidReading? ==>
      AllValid(stream, r.at) && stream(r.at) < 0.0 && forall k :: 0 <= k <= r.at ==> !WarmEnough(drift, p, stream, k)
  {
    var samples: seq<real> := [];
    var going := ShouldContinueWarmup(drift, p, samples);
    assert Prefix(stream, 0) == [];
    while going
      invariant |samples| <= p.maxWarmups && samples == Prefix(stream, |samples|) && AllValid(stream, |samples|)
      invariant going == !WarmEnough(drift, p, stream, |samples|)
      invariant forall k :: 0 <= k < |samples| ==> !WarmEnough(drift, p, stream, k)
      decreases p.maxWarmups - |samples|
    {
      var elapsed := stream(|samples|);
      if elapsed < 0.0 {
        return InvalidReading(|samples|), false;
      }
      assert samples + [elapsed] == Prefix(stream, |samples| + 1);
      samples := samples + [elapsed];
      going := ShouldContinueWarmup(drift, p, samples);
    }
    converged := WarmupConverged(drift, p, samples);
    r := Taken(samples);
  }

  /** Adaptive warm-up ends unconverged exactly when it used up its budget without a stable tail. */
  lemma WarmupVerdict(drift: Drift, p: Policy, stream: nat -> real, n: nat)
    requires PolicyOk(p) && p.minWarmups <= n <= p.maxWarmups && WarmEnough(drift, p, stream, n)
    requires forall k :: 0 <= k < n ==> !WarmEnough(drift, p, stream, k)
    ensures !Converged(drift, p, Prefix(stream, n)) <==>
            n == p.maxWarmups && forall k :: p.minWarmups <= k <= n ==> !Converged(drift, p, Prefix(stream, k))
  {
    forall k | p.minWarmups <= k < n ensures !Converged(drift, p, Prefix(stream, k)) {
      assert !WarmEnough(drift, p, stream, k);
    }
  }

  lemma NoRelativeChange(x: real)
    ensures RelativeChange(x, x) == 0.0
  {
    assert Abs(x - x) == 0.0;
  }

  lemma ConstantsDoNotDrift(current: seq<real>, previous: seq<real>)
    requires current != [] && previous != []
    requires (forall i :: 0 <= i < |current| ==> current[i] == 1.0) && forall i :: 0 <= i < |previous| ==>
               previous[i] == 1.0
    ensures MedianDrift(current, previous) == 0.0
  {
    MedianOfConstant(current, 1.0);
    MedianOfConstant(previous, 1.0);
    NoRelativeChange(1.0);
  }

  /** An adaptive policy can converge at all if and only if its budget reaches over its windows. */
  lemma CanConvergeIff(p: Policy)
    requires PolicyOk(p) && !p.fixed
    ensures (exists samples :: |samples| <= p.maxWarmups && Converged(MedianDrift, p, samples)) <==>
            Reach(p) <= p.maxWarmups
  {
    if Reach(p) <= p.maxWarmups {
      var samples := seq(Required(p), _ => 1.0);
      forall end | |samples| - p.stableWindows < end <= |samples| ensures StableAt(MedianDrift, p, samples, end) {
        ConstantsDoNotDrift(samples[end - p.window..end], samples[end - 2 * p.window..end - p.window]);
      }
      assert Converged(MedianDrift, p, samples);
    }
  }

  /** `_warmup` as it runs: windows are compared by the relative change of their medians. */
  method Warmup(p: Policy, stream: nat -> real) returns (r: Samples, converged: bool)
    requires PolicyOk(p)
    ensures r.Taken? ==>
      var n := |r.samples|;
      && r.samples == Prefix(stream, n) && AllValid(stream, n)
      && p.minWarmups <= n <= p.maxWarmups
      && WarmEnough(MedianDrift, p, stream, n) && (forall k :: 0 <= k < n ==> !WarmEnough(MedianDrift, p, stream, k))
      && converged == Converged(MedianDrift, p, r.samples)
    ensures r.InvalidReading? ==>
      AllValid(stream, r.at) && stream(r.at) < 0.0 && forall k :: 0 <= k <= r.at ==>
        !WarmEnough(MedianDrift, p, stream, k)
  {
    r, converged := WarmupBy(MedianDrift, p, stream);
  }

  function Total(stream: nat -> real, n: nat): real
  {
    if n == 0 then 0.0 else Total(stream, n - 1) + stream(n - 1)
  }

  /** Measurement may end after `n` runs. */
  predicate MeasuredEnough(p: Policy, stream: nat -> real, n: nat)
  {
    n >= p.maxRuns || (n >= p.minRuns && Total(stream, n) >= p.target)
  }

  datatype SamplingState = SamplingState(measuredRuns: nat, accumulated: real)

  predicate ShouldContinue(p: Policy, s: SamplingState)
  {
    if s.measuredRuns >= p.maxRuns then false
    else if s.measuredRuns < p.minRuns then true
    else s.accumulated < p.target
  }

  /** `_measure`: stops at the first count in [min_runs, max_runs] that reaches the target duration, or at max_runs. */
  method Measure(p: Policy, stream: nat -> real) returns (r: Samples)
    requires PolicyOk(p)
    ensures r.Taken? ==>
      var n := |r.samples|;
      && r.samples == Prefix(stream, n) && AllValid(stream, n)
      && p.minRuns <= n <= p.maxRuns
      && MeasuredEnough(p, stream, n) && (forall k :: 0 <= k < n ==> !MeasuredEnough(p, stream, k))
    ensures r.InvalidReading? ==>
      AllValid(stream, r.at) && stream(r.at) < 0.0 && forall k :: 0 <= k <= r.at ==> !MeasuredEnough(p, stream, k)
  {
    var samples: seq<real> := [];
    var state := SamplingState(0, 0.0);
    while ShouldContinue(p, state)
      invariant |samples| == state.measuredRuns <= p.maxRuns && state.accumulated == Total(stream, |samples|)
      invariant samples == Prefix(stream, |samples|) && AllValid(stream, |samples|)
      invariant forall k :: 0 <= k < |samples| ==> !MeasuredEnough(p, stream, k)
      decreases p.maxRuns - |samples|
    {
      var elapsed := stream(|samples|);
      if elapsed < 0.0 {
        return InvalidReading(|samples|);
      }
      assert samples + [elapsed] == Prefix(stream, |samples| + 1);
      samples := samples + [elapsed];
      state := SamplingState(state.measuredRuns + 1, state.accumulated + elapsed);
    }
    r := Taken(samples);
  }

  lemma {:induction false} TotalsGrow(stream: nat -> real, n: nat, m: nat)
    requires n <= m && AllValid(stream, m)
    ensures Total(stream, n) <= Total(stream, m)
    decreases m
  {
    if n < m { TotalsGrow(stream, n, m - 1); }
  }

  /** Once measuring may stop it may stop at every later count, so the count `Measure` takes is a threshold:
      exactly the smaller ones are too few. */
  lemma MeasureThreshold(p: Policy, stream: nat -> real, n: nat, k: nat)
    requires AllValid(stream, k) && AllValid(stream, n)
    requires MeasuredEnough(p, stream, n) && forall j :: 0 <= j < n ==> !MeasuredEnough(p, stream, j)
    ensures MeasuredEnough(p, stream, k) <==> n <= k
  {
    if n <= k { TotalsGrow(stream, n, k); }
  }
}
