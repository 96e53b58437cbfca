/** Aggregated metrics per AgentSpec (internal/metrics/metrics.go), without their Prometheus counterparts. Each
    call is one atomic step at clock reading `now`. */
module Metrics {
  import opened Arithmetic
  import opened Wrappers
  import Text

  type Time = int // nanoseconds

  datatype LatencyStats = LatencyStats(p50: Time, p95: Time, p99: Time, count: int)

  datatype Aggregates = Aggregates(
    latency: map<string, LatencyStats>, queue: map<string, int>, lastAccess: map<string, Time>, maxIdleTime: Time)

  const DAY: Time := 24 * 3600 * 1_000_000_000

  function Key(namespace: string, agentspec: string): string {
    namespace + "/" + agentspec
  }

  /** Go's integer division by two. */
  function Half(n: int): int {
    if n >= 0 then n / 2 else -((-n) / 2)
  }

  function Observe(stats: Option<LatencyStats>, latency: Time): LatencyStats {
    match stats
    case None => LatencyStats(latency, latency, latency, 1)
    case Some(s) =>
      if s.count + 1 == 1 then LatencyStats(latency, latency, latency, 1)
      else LatencyStats(Half(s.p50 + latency), Max(s.p95, latency), Max(s.p99, latency), s.count + 1)
  }

  function Stats(c: Aggregates, key: string): Option<LatencyStats> {
    if key in c.latency then Some(c.latency[key]) else None
  }

  function Depth(c: Aggregates, key: string): Option<int> {
    if key in c.queue then Some(c.queue[key]) else None
  }

  datatype Call =
    | RecordLatency(key: string, latency: Time)
    | SetQueueDepth(key: string, depth: int)
    | Read(key: string)
    | Cleanup

  predicate Idle(c: Aggregates, now: Time, key: string) {
    key in c.lastAccess && now - c.lastAccess[key] > c.maxIdleTime
  }

  function IdleKeys(c: Aggregates, now: Time): set<string> {
    set k | k in c.lastAccess && Idle(c, now, k)
  }

  function Touch(c: Aggregates, now: Time, key: string): Aggregates {
    c.(lastAccess := c.lastAccess[key := now])
  }

  function Step(c: Aggregates, now: Time, call: Call): Aggregates {
    match call
    case RecordLatency(key, latency) =>
      c.(latency := c.latency[key := Observe(Stats(c, key), latency)], lastAccess := c.lastAccess[key := now])
    case SetQueueDepth(key, depth) =>
      // A missing depth reads as zero, so only a positive first depth creates an entry.
      var previous := if key in c.queue then c.queue[key] else 0;
      c.(queue := if depth > previous then c.queue[key := depth] else c.queue, lastAccess := c.lastAccess[key := now])
    case Read(key) => Touch(c, now, key)
    case Cleanup =>
      var idle := IdleKeys(c, now);
      c.(latency := c.latency - idle, queue := c.queue - idle, lastAccess := c.lastAccess - idle)
  }

  class Collector {
    var aggregatedLatency: map<string, LatencyStats>
    var aggregatedQueue: map<string, int>
    var lastAccess: map<string, Time>
    var maxIdleTime: Time

    ghost function Contents(): Aggregates
      reads this
    {
      Aggregates(aggregatedLatency, aggregatedQueue, lastAccess, maxIdleTime)
    }

    constructor ()
      ensures Contents() == Aggregates(map[], map[], map[], DAY)
    {
      aggregatedLatency, aggregatedQueue, lastAccess, maxIdleTime := map[], map[], map[], DAY;
    }

    method RecordLatency(now: Time, agentspec: string, namespace: string, latency: Time)
      modifies this
      ensures Contents() == Step(old(Contents()), now, Call.RecordLatency(Key(namespace, agentspec), latency))
    {
      var key := Key(namespace, agentspec);
      var stats := LatencyStats(0, 0, 0, 0);
      if key in aggregatedLatency {
        stats := aggregatedLatency[key];
      }
      lastAccess := lastAccess[key := now];
      stats := stats.(count := stats.count + 1);
      if stats.count == 1 {
        stats := stats.(p50 := latency, p95 := latency, p99 := latency);
      } else {
        if latency > stats.p95 {
          stats := stats.(p95 := latency);
        }
        if latency > stats.p99 {
          stats := stats.(p99 := latency);
        }
        stats := stats.(p50 := Half(stats.p50 + latency));
      }
      aggregatedLatency := aggregatedLatency[key := stats];
    }

    method SetQueueDepth(now: Time, agentspec: string, namespace: string, depth: int)
      modifies this
      ensures Contents() == Step(old(Contents()), now, Call.SetQueueDepth(Key(namespace, agentspec), depth))
    {
      var key := Key(namespace, agentspec);
      var current := 0;
      if key in aggregatedQueue {
        current := aggregatedQueue[key];
      }
      if depth > current {
        aggregatedQueue := aggregatedQueue[key := depth];
      }
      lastAccess := lastAccess[key := now];
    }

    method GetLatencyStats(now: Time, namespace: string, agentspec: string) returns (stats: Option<LatencyStats>)
      modifies this
      ensures Contents() == Touch(old(Contents()), now, Key(namespace, agentspec))
      ensures stats == Stats(old(Contents()), Key(namespace, agentspec))
    {
      var key := Key(namespace, agentspec);
      lastAccess := lastAccess[key := now];
      return if key in aggregatedLatency then Some(aggregatedLatency[key]) else None;
    }

    method GetQueueDepth(now: Time, namespace: string, agentspec: string) returns (depth: Option<int>)
      modifies this
      ensures Contents() == Touch(old(Contents()), now, Key(namespace, agentspec))
      ensures depth == Depth(old(Contents()), Key(namespace, agentspec))
    {
      var key := Key(namespace, agentspec);
      lastAccess := lastAccess[key := now];
      return if key in aggregatedQueue then Some(aggregatedQueue[key]) else None;
    }

    method CleanupIdleMetrics(now: Time)
      modifies this
      ensures Contents() == Step(old(Contents()), now, Cleanup)
    {
      var keysToDelete: set<string> := {};
      var rest := lastAccess.Keys;
      while rest != {}
        invariant rest <= lastAccess.Keys
        invariant keysToDelete == set k | k in lastAccess && k !in rest && Idle(Contents(), now, k)
        invariant Contents() == old(Contents())
        decreases rest
      {
        var key :| key in rest;
        if now - lastAccess[key] > maxIdleTime {
          keysToDelete := keysToDelete + {key};
        }
        rest := rest - {key};
      }
      var pending := keysToDelete;
      while pending != {}
        invariant pending <= keysToDelete
        invariant aggregatedLatency == old(aggregatedLatency) - (keysToDelete - pending)
        invariant aggregatedQueue == old(aggregatedQueue) - (keysToDelete - pending)
        invariant lastAccess == old(lastAccess) - (keysToDelete - pending)
        invariant maxIdleTime == old(maxIdleTime)
        decreases pending
      {
        var key :| key in pending;
        aggregatedLatency := aggregatedLatency - {key};
        aggregatedQueue := aggregatedQueue - {key};
        lastAccess := lastAccess - {key};
        pending := pending - {key};
        assert keysToDelete - pending == keysToDelete - (pending + {key}) + {key};
      }
      assert keysToDelete - pending == IdleKeys(old(Contents()), now);
    }
  }

  // ----- Runs -----

  datatype Timed = Timed(now: Time, call: Call)

  function Run(c: Aggregates, run: seq<Timed>): Aggregates
    decreases |run|
  {
    if run == [] then c else Run(Step(c, run[0].now, run[0].call), run[1..])
  }

  /** No cleanup in the run finds the key idle. */
  ghost predicate Kept(c: Aggregates, run: seq<Timed>, key: string)
    decreases |run|
  {
    run == [] ||
    (&& (run[0].call.Cleanup? ==> !Idle(c, run[0].now, key))
     && Kept(Step(c, run[0].now, run[0].call), run[1..], key))
  }

  /** The largest depth and latency recorded for the key during the run, and at least the given ones. */
  function HighestDepth(run: seq<Timed>, key: string, floor: int): int
    decreases |run|
  {
    if run == [] then floor
    else
      HighestDepth(run[1..], key,
                   if run[0].call.SetQueueDepth? && run[0].call.key == key then Max(floor, run[0].call.depth)
                   else floor)
  }

  function HighestLatency(run: seq<Timed>, key: string, floor: Option<Time>): Option<Time>
    decreases |run|
  {
    if run == [] then floor
    else
      HighestLatency(run[1..], key,
                     if run[0].call.RecordLatency? && run[0].call.key == key
                     then Some(if floor.Some? then Max(floor.value, run[0].call.latency) else run[0].call.latency)
                     else floor)
  }

  function DepthOrZero(c: Aggregates, key: string): int {
    if key in c.queue then c.queue[key] else 0
  }

  function P95(c: Aggregates, key: string): Option<Time> {
    if key in c.latency then Some(c.latency[key].p95) else None
  }

  ghost predicate CountsPositive(c: Aggregates) {
    forall k | k in c.latency :: c.latency[k].count >= 1
  }

  /** As long as a key is not cleaned up, its "current" queue depth and its "95th percentile" are high-water marks:
      the largest depth and the largest latency ever recorded. */
  lemma {:induction false} AggregatesAreHighWaterMarks(c: Aggregates, run: seq<Timed>, key: string)
    requires CountsPositive(c) && Kept(c, run, key)
    ensures var end := Run(c, run);
            && CountsPositive(end)
            && DepthOrZero(end, key) == HighestDepth(run, key, DepthOrZero(c, key))
            && P95(end, key) == HighestLatency(run, key, P95(c, key))
    decreases |run|
  {
    if run != [] {
      AggregatesAreHighWaterMarks(Step(c, run[0].now, run[0].call), run[1..], key);
    }
  }

  /** So neither mark ever comes down. */
  lemma {:induction false} MarksOnlyRise(run: seq<Timed>, key: string, depth: int, latency: Option<Time>)
    ensures HighestDepth(run, key, depth) >= depth
    ensures latency.Some? ==>
              HighestLatency(run, key, latency).Some? && HighestLatency(run, key, latency).value >= latency.value
    decreases |run|
  {
    if run != [] {
      var call := run[0].call;
      MarksOnlyRise(run[1..], key,
                    if call.SetQueueDepth? && call.key == key then Max(depth, call.depth) else depth,
                    if call.RecordLatency? && call.key == key
                    then Some(if latency.Some? then Max(latency.value, call.latency) else call.latency)
                    else latency);
    }
  }

  /** A cleanup forgets exactly the keys that nothing has recorded or read for longer than the idle limit. */
  lemma CleanupForgetsExactlyIdleKeys(c: Aggregates, now: Time, key: string)
    ensures var c' := Step(c, now, Cleanup);
            if Idle(c, now, key) then Stats(c', key) == None && Depth(c', key) == None
            else Stats(c', key) == Stats(c, key) && Depth(c', key) == Depth(c, key)
  {}

  /** The time at which a run last recorded or read anything of a key. */
  function LastNamed(run: seq<Timed>, key: string): Option<Time> {
    if run == [] then None
    else
      var last := run[|run| - 1];
      if !last.call.Cleanup? && last.call.key == key then Some(last.now) else LastNamed(run[..|run| - 1], key)
  }

  lemma {:induction false} RunByLast(c: Aggregates, run: seq<Timed>)
    requires run != []
    ensures var n := |run| - 1; Run(c, run) == Step(Run(c, run[..n]), run[n].now, run[n].call)
    decreases |run|
  {
    var n := |run| - 1;
    if n == 0 {
      assert run[1..] == [] && run[..n] == [];
    } else {
      RunByLast(Step(c, run[0].now, run[0].call), run[1..]);
      assert run[1..][..n - 1] == run[..n][1..];
    }
  }

  lemma {:induction false} AccessIsLastNamed(run: seq<Timed>, key: string)
    ensures var c := Run(Aggregates(map[], map[], map[], DAY), run);
            && c.maxIdleTime == DAY
            && (key in c.latency || key in c.queue ==> key in c.lastAccess)
            && (key in c.lastAccess ==> LastNamed(run, key) == Some(c.lastAccess[key]))
  {
    if run != [] {
      AccessIsLastNamed(run[..|run| - 1], key);
      RunByLast(Aggregates(map[], map[], map[], DAY), run);
    }
  }

  /** In every run of a new collector, a cleanup forgets what is known of a key if nothing has been recorded or read of
      it for more than 24 hours, and otherwise leaves it as it is. */
  lemma CleanupForgetsAfterADay(run: seq<Timed>, now: Time, key: string)
    ensures var c := Run(Aggregates(map[], map[], map[], DAY), run);
            var c' := Step(c, now, Cleanup);
            var last := LastNamed(run, key);
            if last.Some? && now - last.value <= 86_400_000_000_000
            then Stats(c', key) == Stats(c, key) && Depth(c', key) == Depth(c, key)
            else Stats(c', key) == None && Depth(c', key) == None
  {
    AccessIsLastNamed(run, key);
  }

  /** How many latencies a run records for a key. */
  function Records(run: seq<Timed>, key: string): nat {
    if run == [] then 0
    else (if run[0].call.RecordLatency? && run[0].call.key == key then 1 else 0) + Records(run[1..], key)
  }

  function Count(c: Aggregates, key: string): int {
    if key in c.latency then c.latency[key].count else 0
  }

  function P99(c: Aggregates, key: string): Option<Time> {
    if key in c.latency then Some(c.latency[key].p99) else None
  }

  /** As long as a key is kept, its count is that of the latencies recorded, and its "99th percentile" is the same
      high-water mark as its 95th. */
  lemma {:induction false} EveryLatencyCounts(c: Aggregates, run: seq<Timed>, key: string)
    requires CountsPositive(c) && Kept(c, run, key)
    ensures Count(Run(c, run), key) == Count(c, key) + Records(run, key)
    ensures P99(Run(c, run), key) == HighestLatency(run, key, P99(c, key))
    decreases |run|
  {
    if run != [] {
      EveryLatencyCounts(Step(c, run[0].now, run[0].call), run[1..], key);
    }
  }

  /** Its "median" moves half way to each latency recorded, rounded towards zero. */
  lemma MedianMovesHalfWay(c: Aggregates, now: Time, key: string, latency: Time)
    requires key in c.latency && c.latency[key].count >= 1
    ensures var c' := Step(c, now, RecordLatency(key, latency));
            var sum, p50 := c.latency[key].p50 + latency, c'.latency[key].p50;
            if sum >= 0 then 2 * p50 <= sum <= 2 * p50 + 1 else 2 * p50 - 1 <= sum <= 2 * p50
  {}

  /** Two AgentSpecs share metrics only if they are one: namespaces have no slash. */
  lemma KeysAreApart(n1: string, a1: string, n2: string, a2: string)
    requires '/' !in n1 && '/' !in n2
    ensures Key(n1, a1) == Key(n2, a2) ==> n1 == n2 && a1 == a2
  {
    Text.JoinedApart(n1, a1, n2, a2, '/');
  }
}
