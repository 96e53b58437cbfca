/** Scaling decisions from aggregated metrics (internal/autoscaler/evaluator.go). Floats are exact reals. */
module Autoscaler {
  import opened Arithmetic
  import opened Wrappers
  import opened Metrics

  datatype Scaling = Scaling(minReplicas: int, maxReplicas: int, targetLatencyMs: int) {
    predicate Unset() {
      minReplicas == 0 && maxReplicas == 0
    }

    function Min(): int {
      if minReplicas == 0 then 1 else minReplicas
    }

    function Max(): int {
      if maxReplicas == 0 then 10 else maxReplicas
    }
  }

  const MILLISECOND: Time := 1_000_000

  /** A duration in whole milliseconds. */
  function Milliseconds(d: Time): int {
    if d >= 0 then d / MILLISECOND else -((-d) / MILLISECOND)
  }

  /** 80 percent of the target, as Go's integer arithmetic rounds it for a positive target. */
  function LowWater(targetLatencyMs: int): int {
    targetLatencyMs * 80 / 100
  }

  function ByLatency(s: Scaling, stats: Option<LatencyStats>, current: nat): int {
    if s.targetLatencyMs <= 0 || stats == None || stats.value.count <= 0 then current
    else
      var p95 := Milliseconds(stats.value.p95);
      if p95 > s.targetLatencyMs then Truncate(current as real * (p95 as real / s.targetLatencyMs as real))
      else if p95 < LowWater(s.targetLatencyMs) && current > s.Min() then current - 1
      else current
  }

  function ByQueue(depth: int, current: nat): int {
    Truncate(current as real * (1.0 + depth as real / 10.0))
  }

  function ByPressure(depth: Option<int>, current: nat, desired: int): int {
    if depth.Some? && depth.value > 10 && ByQueue(depth.value, current) > desired
    then ByQueue(depth.value, current)
    else desired
  }

  function Clamp(s: Scaling, desired: int): int {
    var raised := if desired < s.Min() then s.Min() else desired;
    if raised > s.Max() then s.Max() else raised
  }

  /** The replica count EvaluateScaling asks for. */
  function Desired(s: Scaling, stats: Option<LatencyStats>, depth: Option<int>, current: nat): int {
    if s.Unset() then (if current == 0 then 1 else current)
    else
      Clamp(s, ByPressure(depth, current, ByLatency(s, stats, current)))
  }

  datatype Action = Stay | Up | Down

  function ActionFor(desired: int, current: int): Action {
    if desired > current then Up else if desired < current then Down else Stay
  }

  class Evaluator {
    const metrics: Collector

    constructor (metrics: Collector)
      ensures this.metrics == metrics
    {
      this.metrics := metrics;
    }

    /** The latency branch of EvaluateScaling. */
    method EvaluateLatency(now: Time, namespace: string, agentspec: string, scaling: Scaling, minReplicas: int,
                           currentReplicas: nat)
      returns (desiredReplicas: int)
      requires minReplicas == scaling.Min()
      modifies metrics
      ensures var key := Key(namespace, agentspec);
              && desiredReplicas == ByLatency(scaling, Stats(old(metrics.Contents()), key), currentReplicas)
              && metrics.Contents()
                 == if scaling.targetLatencyMs > 0 then Touch(old(metrics.Contents()), now, key)
                    else old(metrics.Contents())
    {
      desiredReplicas := currentReplicas;
      if scaling.targetLatencyMs > 0 {
        var latencyStats := metrics.GetLatencyStats(now, namespace, agentspec);
        if latencyStats.Some? && latencyStats.value.count > 0 {
          var p95LatencyMs := Milliseconds(latencyStats.value.p95);
          if p95LatencyMs > scaling.targetLatencyMs {
            var scaleFactor := p95LatencyMs as real / scaling.targetLatencyMs as real;
            desiredReplicas := Truncate(currentReplicas as real * scaleFactor);
          } else if p95LatencyMs < LowWater(scaling.targetLatencyMs) && currentReplicas > minReplicas {
            desiredReplicas := currentReplicas - 1;
          }
        }
      }
    }

    /** The queue branch of EvaluateScaling: it only ever raises the count. */
    method EvaluateQueue(now: Time, namespace: string, agentspec: string, currentReplicas: nat, desiredByLatency: int)
      returns (desiredReplicas: int)
      modifies metrics
      ensures var key := Key(namespace, agentspec);
              && desiredReplicas == ByPressure(Depth(old(metrics.Contents()), key), currentReplicas, desiredByLatency)
              && metrics.Contents() == Touch(old(metrics.Contents()), now, key)
    {
      desiredReplicas := desiredByLatency;
      var queueDepth := metrics.GetQueueDepth(now, namespace, agentspec);
      if queueDepth.Some? && queueDepth.value > 10 {
        var scaleFactor := 1.0 + queueDepth.value as real / 10.0;
        var calculatedReplicas := Truncate(currentReplicas as real * scaleFactor);
        if calculatedReplicas > desiredReplicas {
          desiredReplicas := calculatedReplicas;
        }
      }
    }

    method EvaluateScaling(now: Time, namespace: string, agentspec: string, scaling: Scaling, currentReplicas: nat)
      returns (desiredReplicas: int)
      modifies metrics
      ensures var key := Key(namespace, agentspec);
              var before := old(metrics.Contents());
              && desiredReplicas == Desired(scaling, Stats(before, key), Depth(before, key), currentReplicas)
              && metrics.Contents() == if scaling.Unset() then before else Touch(before, now, key)
    {
      if scaling.minReplicas == 0 && scaling.maxReplicas == 0 {
        if currentReplicas == 0 {
          return 1;
        }
        return currentReplicas;
      }
      var minReplicas := scaling.minReplicas;
      if minReplicas == 0 {
        minReplicas := 1;
      }
      var maxReplicas := scaling.maxReplicas;
      if maxReplicas == 0 {
        maxReplicas := 10;
      }
      desiredReplicas := EvaluateLatency(now, namespace, agentspec, scaling, minReplicas, currentReplicas);
      desiredReplicas := EvaluateQueue(now, namespace, agentspec, currentReplicas, desiredReplicas);
      if desiredReplicas < minReplicas {
        desiredReplicas := minReplicas;
      }
      if desiredReplicas > maxReplicas {
        desiredReplicas := maxReplicas;
      }
    }

    method MakeDecision(now: Time, namespace: string, agentspec: string, scaling: Scaling, currentReplicas: nat)
      returns (action: Action, desiredReplicas: int)
      modifies metrics
      ensures var key := Key(namespace, agentspec);
              var before := old(metrics.Contents());
              desiredReplicas == Desired(scaling, Stats(before, key), Depth(before, key), currentReplicas)
      ensures action == Up <==> desiredReplicas > currentReplicas
      ensures action == Down <==> desiredReplicas < currentReplicas
    {
      desiredReplicas := EvaluateScaling(now, namespace, agentspec, scaling, currentReplicas);
      action := ActionFor(desiredReplicas, currentReplicas);
    }
  }

  // ----- Single decisions -----

  lemma GrowingProduct(current: nat, x: real, y: real)
    requires 0.0 <= x <= y
    ensures Truncate(current as real * x) <= Truncate(current as real * y)
  {
    assert current as real * (y - x) >= 0.0;
    assert current as real * y == current as real * x + current as real * (y - x);
    assert current as real * x >= 0.0;
  }

  /** A recorded depth above ten at least doubles the replicas. */
  lemma QueueDoubles(depth: int, current: nat)
    requires depth > 10
    ensures ByQueue(depth, current) >= 2 * current
  {
    GrowingProduct(current, 2.0, 1.0 + depth as real / 10.0);
    assert current as real * 2.0 == (2 * current) as real;
  }

  lemma AtLeastWhole(current: nat, up: int, down: int)
    requires 0 < down <= up
    ensures Truncate(current as real * (up as real / down as real)) >= current
  {
    var ratio := up as real / down as real;
    assert ratio >= 1.0;
    GrowingProduct(current, 1.0, ratio);
    assert current as real * 1.0 == current as real;
  }

  lemma LatencyScalesUp(s: Scaling, stats: Option<LatencyStats>, current: nat)
    ensures ByLatency(s, stats, current) >= current - 1
    ensures s.targetLatencyMs > 0 && stats.Some? && Milliseconds(stats.value.p95) >= LowWater(s.targetLatencyMs) ==>
              ByLatency(s, stats, current) >= current
  {
    if s.targetLatencyMs > 0 && stats.Some? {
      var p95 := Milliseconds(stats.value.p95);
      if p95 > s.targetLatencyMs {
        AtLeastWhole(current, p95, s.targetLatencyMs);
      }
    }
  }

  /** Under queue pressure every evaluation below the maximum at least doubles the replicas or reaches it. */
  lemma QueueForcesGrowth(s: Scaling, stats: Option<LatencyStats>, depth: Option<int>, current: nat)
    requires !s.Unset() && depth.Some? && depth.value > 10
    ensures Desired(s, stats, depth, current) <= s.Max()
    ensures Desired(s, stats, depth, current) >= if 2 * current < s.Max() then 2 * current else s.Max()
  {
    QueueDoubles(depth.value, current);
  }

  /** Inside its bounds a spec is scaled down exactly when latency is measured, targeted and below 80 percent of
      the target, there is a replica to spare, and the queue is not pressing. */
  lemma DownExactlyWhen(s: Scaling, stats: Option<LatencyStats>, depth: Option<int>, current: nat)
    requires !s.Unset() && 1 <= s.Min() <= current <= s.Max()
    ensures ActionFor(Desired(s, stats, depth, current), current) == Down <==>
              && s.targetLatencyMs > 0
              && stats.Some? && stats.value.count > 0
              && Milliseconds(stats.value.p95) < LowWater(s.targetLatencyMs)
              && current > s.Min()
              && !(depth.Some? && depth.value > 10)
  {
    LatencyScalesUp(s, stats, current);
    if depth.Some? && depth.value > 10 {
      QueueDoubles(depth.value, current);
    }
  }

  // ----- Rounds of recording and scaling -----

  /** Each round lets metrics arrive and then evaluates and applies the decision. */
  datatype Round = Round(arriving: seq<Timed>, now: Time)

  function AfterRound(c: Aggregates, key: string, round: Round): Aggregates {
    Step(Run(c, round.arriving), round.now, Read(key))
  }

  function Replicas(s: Scaling, c: Aggregates, key: string, current: int, rounds: seq<Round>): int
    decreases |rounds|
  {
    if rounds == [] || current < 0 then current
    else
      var c' := Run(c, rounds[0].arriving);
      Replicas(s, AfterRound(c, key, rounds[0]), key, Desired(s, Stats(c', key), Depth(c', key), current), rounds[1..])
  }

  ghost predicate KeptThroughout(c: Aggregates, key: string, rounds: seq<Round>)
    decreases |rounds|
  {
    rounds == [] ||
    (Kept(c, rounds[0].arriving, key) && KeptThroughout(AfterRound(c, key, rounds[0]), key, rounds[1..]))
  }

  function Doubled(n: int, times: nat): int
    decreases times
  {
    if times == 0 then n else Doubled(2 * n, times - 1)
  }

  lemma {:induction false} DoubledGrows(n: int, m: int, times: nat)
    requires 0 <= n <= m
    ensures n <= Doubled(n, times) <= Doubled(m, times)
    decreases times
  {
    if times > 0 {
      DoubledGrows(2 * n, 2 * m, times - 1);
      DoubledGrows(n, 2 * n, 0);
    }
  }

  /** High-water convergence: once a depth above ten has been recorded, k rounds take any count from one upwards to
      at least 2^k times itself or to the maximum, whatever else is recorded, as long as the key is not cleaned up.
      The maximum is reached in logarithmically many rounds and kept. */
  lemma {:induction false} QueuePressureReachesMax(s: Scaling, c: Aggregates, key: string, current: int,
                                                   rounds: seq<Round>)
    requires !s.Unset() && 1 <= current <= s.Max()
    requires CountsPositive(c) && DepthOrZero(c, key) > 10 && KeptThroughout(c, key, rounds)
    ensures var final := Replicas(s, c, key, current, rounds);
            && current <= final <= s.Max()
            && (Doubled(current, |rounds|) >= s.Max() ==> final == s.Max())
            && final >= if Doubled(current, |rounds|) < s.Max() then Doubled(current, |rounds|) else s.Max()
    decreases |rounds|
  {
    if rounds != [] {
      var c' := Run(c, rounds[0].arriving);
      AggregatesAreHighWaterMarks(c, rounds[0].arriving, key);
      MarksOnlyRise(rounds[0].arriving, key, DepthOrZero(c, key), None);
      QueueForcesGrowth(s, Stats(c', key), Depth(c', key), current);
      var next := Desired(s, Stats(c', key), Depth(c', key), current);
      QueuePressureReachesMax(s, AfterRound(c, key, rounds[0]), key, next, rounds[1..]);
      if 2 * current <= next {
        DoubledGrows(2 * current, next, |rounds| - 1);
      }
    }
  }

  /** Once any latency has reached 80 percent of the target, the replicas never go down again while the key is kept. */
  lemma {:induction false} HighLatencyRulesOutDown(s: Scaling, c: Aggregates, key: string, current: int,
                                                   rounds: seq<Round>)
    requires !s.Unset() && 1 <= s.Min() <= current <= s.Max() && s.targetLatencyMs > 0
    requires CountsPositive(c) && KeptThroughout(c, key, rounds)
    requires P95(c, key).Some? && Milliseconds(P95(c, key).value) >= LowWater(s.targetLatencyMs)
    ensures current <= Replicas(s, c, key, current, rounds) <= s.Max()
    decreases |rounds|
  {
    if rounds != [] {
      var c' := Run(c, rounds[0].arriving);
      AggregatesAreHighWaterMarks(c, rounds[0].arriving, key);
      MarksOnlyRise(rounds[0].arriving, key, 0, P95(c, key));
      MillisecondsMonotone(P95(c, key).value, P95(c', key).value);
      DownExactlyWhen(s, Stats(c', key), Depth(c', key), current);
      var next := Desired(s, Stats(c', key), Depth(c', key), current);
      HighLatencyRulesOutDown(s, AfterRound(c, key, rounds[0]), key, next, rounds[1..]);
    }
  }

  lemma MillisecondsMonotone(d: Time, e: Time)
    requires d <= e
    ensures Milliseconds(d) <= Milliseconds(e)
  {}

  // ----- One decision, in its own numbers -----

  /** x is current * up / down, rounded down. */
  predicate IsShare(x: int, current: nat, up: int, down: int) {
    down * x <= current * up < down * (x + 1)
  }

  lemma ShareIsTruncated(x: int, current: nat, up: int, down: int)
    requires down > 0 && up >= 0
    ensures IsShare(x, current, up, down) <==> x == Truncate(current as real * (up as real / down as real))
  {
    var scaled := current as real * (up as real / down as real);
    assert scaled * down as real == (current * up) as real;
    var floor := Truncate(scaled);
    assert current as real * (up as real / down as real) >= 0.0;
    assert floor as real <= scaled < floor as real + 1.0;
    FloorBounds(scaled, floor, current * up, down);
    if IsShare(x, current, up, down) {
      OneFloor(x, floor, current * up, down);
    }
  }

  lemma FloorBounds(scaled: real, floor: int, product: int, down: int)
    requires down > 0 && scaled * down as real == product as real && floor as real <= scaled < floor as real + 1.0
    ensures down * floor <= product < down * (floor + 1)
  {
    AtMostTimes(floor as real, scaled, down as real);
    BelowTimes(scaled, (floor + 1) as real, down as real);
    RealOfProduct(floor, down);
    RealOfProduct(floor + 1, down);
    IntsAsReals(floor * down, product, (floor + 1) * down);
  }

  lemma AtMostTimes(x: real, y: real, d: real)
    requires x <= y && d > 0.0
    ensures x * d <= y * d
  {
    assert (y - x) * d >= 0.0;
    assert (y - x) * d == y * d - x * d;
  }

  lemma BelowTimes(x: real, y: real, d: real)
    requires x < y && d > 0.0
    ensures x * d < y * d
  {
    assert (y - x) * d > 0.0;
    assert (y - x) * d == y * d - x * d;
  }

  lemma RealOfProduct(x: int, d: int)
    ensures (x * d) as real == x as real * d as real
  {}

  lemma IntsAsReals(x: int, y: int, z: int)
    requires x as real <= y as real < z as real
    ensures x <= y < z
  {}

  lemma OneFloor(x: int, y: int, product: int, down: int)
    requires down > 0 && down * x <= product < down * (x + 1) && down * y <= product < down * (y + 1)
    ensures x == y
  {
    Multiples(x + 1, y, down);
    Multiples(y + 1, x, down);
  }

  lemma Multiples(x: int, y: int, down: int)
    requires down > 0
    ensures x <= y ==> down * x <= down * y
  {
    if x <= y {
      assert down * (y - x) >= 0;
      assert down * y == down * x + down * (y - x);
    }
  }

  lemma ByLatencyInNumbers(s: Scaling, stats: LatencyStats, current: nat, p95: nat, share: int)
    requires s.targetLatencyMs > 0 && stats.count > 0 && p95 * 1_000_000 <= stats.p95 < (p95 + 1) * 1_000_000
    requires IsShare(share, current, p95, s.targetLatencyMs)
    ensures var low := if s.minReplicas == 0 then 1 else s.minReplicas;
            ByLatency(s, Some(stats), current)
            == if p95 > s.targetLatencyMs then share
               else if 100 * (p95 + 1) <= 80 * s.targetLatencyMs && current > low then current - 1
               else current
  {
    assert Milliseconds(stats.p95) == p95;
    ShareIsTruncated(share, current, p95, s.targetLatencyMs);
    FourFifths(p95, s.targetLatencyMs);
  }

  lemma FourFifths(p95: int, target: int)
    requires target > 0
    ensures p95 < LowWater(target) <==> 100 * (p95 + 1) <= 80 * target
  {}

  /** With a latency of p95 whole milliseconds measured against a target above zero, and no pressing queue, the count
      asked for is, up to the bounds: current * p95 / target, rounded down, when p95 is above the target; one less when
      it is below four fifths of the target and the minimum allows it; and the current count otherwise. */
  lemma LatencyInNumbers(s: Scaling, stats: LatencyStats, depth: Option<int>, current: nat, p95: nat, share: int)
    requires !s.Unset() && s.targetLatencyMs > 0 && stats.count > 0
    requires p95 * 1_000_000 <= stats.p95 < (p95 + 1) * 1_000_000
    requires depth.Some? ==> depth.value <= 10
    requires IsShare(share, current, p95, s.targetLatencyMs)
    ensures var low := if s.minReplicas == 0 then 1 else s.minReplicas;
            var wanted := if p95 > s.targetLatencyMs then share
                          else if 100 * (p95 + 1) <= 80 * s.targetLatencyMs && current > low then current - 1
                          else current;
            IsBounded(Desired(s, Some(stats), depth, current), s, wanted)
  {
    ByLatencyInNumbers(s, stats, current, p95, share);
  }

  /** The count is the one wanted, brought within the configured bounds (1 and 10 by default); the upper one wins. */
  predicate IsBounded(count: int, s: Scaling, wanted: int) {
    var low, high := if s.minReplicas == 0 then 1 else s.minReplicas, if s.maxReplicas == 0 then 10 else s.maxReplicas;
    && count <= high && (low <= high ==> low <= count)
    && (count != wanted ==> (wanted > high && count == high) || (wanted < low && (count == low || count == high)))
  }

  lemma ByQueueInNumbers(depth: int, current: nat, share: int)
    requires depth > 10 && IsShare(share, current, 10 + depth, 10)
    ensures ByQueue(depth, current) == share
  {
    ShareIsTruncated(share, current, 10 + depth, 10);
    assert (10 + depth) as real / (10 as real) == 1.0 + depth as real / 10.0;
  }

  lemma QueueOutgrows(depth: int, current: nat)
    requires depth > 10
    ensures ByQueue(depth, current) >= current
  {
    QueueDoubles(depth, current);
  }

  /** With no latency to go by, a recorded depth above ten asks for current * (10 + depth) / 10, rounded down, up to the
      bounds; any other depth for the current count. */
  lemma QueueInNumbers(s: Scaling, depth: Option<int>, current: nat, share: int)
    requires !s.Unset() && (depth.Some? && depth.value > 10 ==> IsShare(share, current, 10 + depth.value, 10))
    ensures IsBounded(Desired(s, None, depth, current), s,
                      if depth.Some? && depth.value > 10 then share else current)
  {
    if depth.Some? && depth.value > 10 {
      ByQueueInNumbers(depth.value, current, share);
      QueueOutgrows(depth.value, current);
    }
  }

  /** Together they ask for the larger of the two counts. */
  lemma BothInNumbers(s: Scaling, stats: Option<LatencyStats>, depth: int, current: nat)
    requires !s.Unset() && depth > 10
    ensures Desired(s, stats, Some(depth), current)
            == Max(Desired(s, stats, None, current), Desired(s, None, Some(depth), current))
  {
    QueueOutgrows(depth, current);
  }

  /** Without bounds nothing is scaled, but a spec without replicas gets one. */
  lemma UnsetInNumbers(s: Scaling, stats: Option<LatencyStats>, depth: Option<int>, current: nat)
    requires s.minReplicas == 0 && s.maxReplicas == 0
    ensures Desired(s, stats, depth, current) == if current > 0 then current else 1
  {}
}
