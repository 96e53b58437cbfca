/** The per-Drone circuit breaker of internal/circuitbreaker/circuitbreaker.go. Clock readings are non-negative
    nanoseconds; 0 stands for Go's zero time. */
module CircuitBreaking {
  type Time = int

  datatype Phase = Closed | Open | HalfOpen

  datatype Breaker = Breaker(
    failureThreshold: int,
    resetTimeout: Time,
    maxFailures: int,
    phase: Phase,
    failureCount: int,
    lastFailure: Time,
    halfOpenStart: Time,
    probe: string // the one request tracked while half-open; "" when none is
  )

  datatype Call = Failure | Success | Ask(requestID: string)

  datatype Answer = Answer(allowed: bool, requestID: string)

  function WithDefaults(threshold: int, timeout: Time, maxFailures: int): Breaker {
    Breaker(if threshold <= 0 then 5 else threshold, if timeout <= 0 then 30_000_000_000 else timeout,
            if maxFailures <= 0 then 10 else maxFailures, Closed, 0, 0, 0, "")
  }

  function FailureStep(b: Breaker, now: Time): Breaker {
    var count := if b.failureCount + 1 > b.maxFailures then b.maxFailures else b.failureCount + 1;
    var b' := b.(failureCount := count, lastFailure := now);
    match b.phase
    case Closed => if count >= b.failureThreshold then b'.(phase := Open) else b'
    case HalfOpen => b'.(phase := Open, probe := "")
    case Open => b'
  }

  function SuccessStep(b: Breaker): Breaker {
    match b.phase
    case Closed => b.(failureCount := 0)
    case HalfOpen => b.(phase := Closed, failureCount := 0, probe := "")
    case Open => b
  }

  function AskStep(b: Breaker, now: Time, requestID: string): (Breaker, Answer) {
    match b.phase
    case Closed => (b, Answer(true, ""))
    case Open =>
      if now - b.lastFailure >= b.resetTimeout
      then (b.(phase := HalfOpen, halfOpenStart := now, probe := requestID), Answer(true, requestID))
      else (b, Answer(false, ""))
    case HalfOpen =>
      if b.probe == "" then (b.(probe := requestID), Answer(true, requestID))
      else if b.probe == requestID then (b, Answer(true, requestID))
      else (b, Answer(false, ""))
  }

  function Step(b: Breaker, now: Time, call: Call): Breaker {
    match call
    case Failure => FailureStep(b, now)
    case Success => SuccessStep(b)
    case Ask(requestID) => AskStep(b, now, requestID).0
  }

  class CircuitBreaker {
    const failureThreshold: int
    const resetTimeout: Time
    const maxFailures: int
    var state: Phase
    var failureCount: int
    var lastFailure: Time
    var halfOpenStart: Time
    var halfOpenRequestID: string

    ghost function Contents(): Breaker
      reads this
    {
      Breaker(failureThreshold, resetTimeout, maxFailures, state, failureCount, lastFailure, halfOpenStart,
              halfOpenRequestID)
    }

    constructor (failureThreshold: int, resetTimeout: Time, maxFailures: int)
      ensures Contents() == WithDefaults(failureThreshold, resetTimeout, maxFailures)
    {
      this.failureThreshold := if failureThreshold <= 0 then 5 else failureThreshold;
      this.resetTimeout := if resetTimeout <= 0 then 30_000_000_000 else resetTimeout;
      this.maxFailures := if maxFailures <= 0 then 10 else maxFailures;
      state, failureCount, lastFailure, halfOpenStart, halfOpenRequestID := Closed, 0, 0, 0, "";
    }

    method RecordFailure(now: Time)
      modifies this
      ensures Contents() == FailureStep(old(Contents()), now)
    {
      failureCount := failureCount + 1;
      if failureCount > maxFailures {
        failureCount := maxFailures;
      }
      lastFailure := now;
      if state == Closed && failureCount >= failureThreshold {
        state := Open;
      } else if state == HalfOpen {
        state := Open;
        halfOpenRequestID := "";
      }
    }

    method RecordSuccess()
      modifies this
      ensures Contents() == SuccessStep(old(Contents()))
    {
      if state == HalfOpen {
        state := Closed;
        failureCount := 0;
        halfOpenRequestID := "";
      } else if state == Closed {
        failureCount := 0;
      }
    }

    method AllowRequest(now: Time, requestID: string) returns (answer: Answer)
      modifies this
      ensures (Contents(), answer) == AskStep(old(Contents()), now, requestID)
    {
      match state {
        case Closed => return Answer(true, "");
        case Open =>
          if now - lastFailure >= resetTimeout {
            state := HalfOpen;
            halfOpenStart := now;
            halfOpenRequestID := requestID;
            return Answer(true, requestID);
          }
          return Answer(false, "");
        case HalfOpen =>
          if halfOpenRequestID == "" {
            halfOpenRequestID := requestID;
            return Answer(true, requestID);
          }
          if halfOpenRequestID == requestID {
            return Answer(true, requestID);
          }
          return Answer(false, "");
      }
    }
  }

  // ----- Runs -----

  datatype Timed = Timed(now: Time, call: Call)

  ghost predicate InOrder(run: seq<Timed>, from: Time, to: Time) {
    if run == [] then from <= to else from <= run[0].now && InOrder(run[1..], run[0].now, to)
  }

  lemma {:induction false} InOrderEnds(run: seq<Timed>, from: Time, to: Time)
    requires InOrder(run, from, to)
    ensures from <= to
  {
    if run != [] {
      InOrderEnds(run[1..], run[0].now, to);
    }
  }

  function Run(b: Breaker, run: seq<Timed>): Breaker
    decreases |run|
  {
    if run == [] then b else Run(Step(b, run[0].now, run[0].call), run[1..])
  }

  /** What every reachable breaker satisfies at time `now`. */
  ghost predicate Coherent(b: Breaker, now: Time) {
    && b.failureThreshold >= 1 && b.resetTimeout >= 1 && b.maxFailures >= 1
    && 0 <= b.failureCount <= b.maxFailures
    && (b.phase == Closed ==> b.failureCount < b.failureThreshold)
    && 0 <= b.halfOpenStart <= now && 0 <= b.lastFailure <= now
    && (b.phase == Open ==> b.halfOpenStart <= b.lastFailure)
    && (b.phase != HalfOpen ==> b.probe == "")
  }

  /** In every run, a closed breaker has recorded fewer failures than its threshold. */
  lemma {:induction false} RunKeepsCoherent(b: Breaker, run: seq<Timed>, from: Time, to: Time)
    requires Coherent(b, from) && InOrder(run, from, to)
    ensures Coherent(Run(b, run), to)
    decreases |run|
  {
    if run != [] {
      RunKeepsCoherent(Step(b, run[0].now, run[0].call), run[1..], run[0].now, to);
    }
  }

  lemma FreshIsCoherent(threshold: int, timeout: Time, maxFailures: int)
    ensures Coherent(WithDefaults(threshold, timeout, maxFailures), 0)
  {}

  /** Half-open periods start at least a reset timeout apart, in every run. */
  lemma HalfOpenPeriodsAreSpaced(b: Breaker, run: seq<Timed>, from: Time, now: Time, call: Call)
    requires Coherent(b, from) && InOrder(run, from, now)
    ensures var before := Run(b, run);
            var after := Step(before, now, call);
            before.phase != HalfOpen && after.phase == HalfOpen ==>
              after.halfOpenStart == now >= before.halfOpenStart + b.resetTimeout
  {
    RunKeepsCoherent(b, run, from, now);
    RunKeepsConfig(b, run);
  }

  lemma {:induction false} RunKeepsConfig(b: Breaker, run: seq<Timed>)
    ensures Run(b, run).resetTimeout == b.resetTimeout
    decreases |run|
  {
    if run != [] {
      RunKeepsConfig(Step(b, run[0].now, run[0].call), run[1..]);
    }
  }

  /** The breaker is closed at no point of the run. */
  ghost predicate NeverClosed(b: Breaker, run: seq<Timed>)
    decreases |run|
  {
    b.phase != Closed && (run == [] || NeverClosed(Step(b, run[0].now, run[0].call), run[1..]))
  }

  /** The distinct non-empty request IDs let through. */
  function Admitted(b: Breaker, run: seq<Timed>): set<string>
    decreases |run|
  {
    if run == [] then {}
    else
      var rest := Admitted(Step(b, run[0].now, run[0].call), run[1..]);
      if run[0].call.Ask? && run[0].call.requestID != "" && AskStep(b, run[0].now, run[0].call.requestID).1.allowed
      then {run[0].call.requestID} + rest
      else rest
  }

  function Tracked(b: Breaker): set<string> {
    if b.probe == "" then {} else {b.probe}
  }

  /** One half-open period, that is, a run of requests with no outcome in between, lets through one non-empty ID. */
  lemma {:induction false} OneProbePerPeriod(b: Breaker, run: seq<Timed>)
    requires b.phase == HalfOpen && forall t | t in run :: t.call.Ask?
    ensures |Admitted(b, run) + Tracked(b)| <= 1
    decreases |run|
  {
    if run != [] {
      assert run[0] in run;
      var b' := Step(b, run[0].now, run[0].call);
      OneProbePerPeriod(b', run[1..]);
      assert Admitted(b, run) + Tracked(b) <= Admitted(b', run[1..]) + Tracked(b');
      SubsetSize(Admitted(b, run) + Tracked(b), Admitted(b', run[1..]) + Tracked(b'));
    }
  }

  /** The probe itself may retry at any point of its half-open period, and its success then restores the breaker to
      closed with a clean count, from any open breaker whose timeout has passed. */
  lemma ProbeRecovers(b: Breaker, now: Time, id: string, others: seq<Timed>, later: Time)
    requires b.phase == Open && now - b.lastFailure >= b.resetTimeout && id != ""
    requires forall t | t in others :: t.call.Ask?
    ensures var half := Run(Step(b, now, Ask(id)), others);
            && AskStep(half, later, id) == (half, Answer(true, id))
            && Step(half, later, Success) == b.(phase := Closed, failureCount := 0, halfOpenStart := now, probe := "")
  {
    AsksLeaveTheProbe(Step(b, now, Ask(id)), others);
  }

  lemma {:induction false} AsksLeaveTheProbe(b: Breaker, others: seq<Timed>)
    requires b.phase == HalfOpen && b.probe != "" && forall t | t in others :: t.call.Ask?
    ensures Run(b, others) == b
    decreases |others|
  {
    if others != [] {
      assert others[0] in others;
      AsksLeaveTheProbe(Step(b, others[0].now, others[0].call), others[1..]);
    }
  }

  lemma {:induction false} SubsetSize(a: set<string>, b: set<string>)
    requires a <= b
    ensures |a| <= |b|
  {
    assert b == a + (b - a);
  }

  /** How many of the points 0, d, 2d, ... are at most n. */
  ghost function Slots(n: int, d: int): nat
    requires d >= 1
  {
    if n < 0 then 0 else 1 + Slots(n - d, d)
  }

  lemma {:induction false} SlotsMonotone(m: int, n: int, d: int)
    requires d >= 1 && m <= n
    ensures Slots(m, d) <= Slots(n, d)
    decreases if n < 0 then 0 else n + 1
  {
    if m >= 0 {
      SlotsMonotone(m - d, n - d, d);
    }
  }

  lemma {:induction false} SlotsByDivision(n: int, d: int)
    requires d >= 1 && n >= 0
    ensures Slots(n, d) == n / d + 1
    decreases n
  {
    OneLess(n, d);
    if n >= d {
      SlotsByDivision(n - d, d);
    } else {
      assert n / d == 0 by { if n / d != 0 { BigMultiple(n / d, d); } }
    }
  }

  lemma BigMultiple(k: int, d: int)
    requires d >= 1 && k != 0
    ensures k * d >= d || k * d <= -d
  {
    if k >= 1 {
      assert (k - 1) * d >= 0;
    } else {
      assert (-k - 1) * d >= 0;
    }
  }

  lemma OneLess(n: int, d: int)
    requires d >= 1
    ensures (n - d) / d == n / d - 1
  {
    var a, b := (n - d) / d, n / d;
    assert n - d == a * d + (n - d) % d;
    assert n == b * d + n % d;
    assert (a + 1 - b) * d == a * d + d - b * d;
    if a + 1 != b {
      BigMultiple(a + 1 - b, d);
    }
  }

  /** The earliest time the breaker can be half-open again. */
  function NextProbe(b: Breaker, from: Time): Time {
    if b.phase == Open && from < b.lastFailure + b.resetTimeout then b.lastFailure + b.resetTimeout else from
  }

  /** Probes that still fit between `from` and `to`. */
  ghost function Room(b: Breaker, from: Time, to: Time): nat
    requires b.resetTimeout >= 1
  {
    Slots(to - NextProbe(b, from), b.resetTimeout)
  }

  /** One step adds nothing to the admitted IDs, past and present, that the rest of the run does not hold already,
      except that a failed probe is forgotten. */
  lemma AdmittedUnfolds(b: Breaker, run: seq<Timed>)
    requires run != [] && b.phase != Closed && (b.phase == Open ==> b.probe == "")
    ensures var b' := Step(b, run[0].now, run[0].call);
            var later := Admitted(b', run[1..]) + Tracked(b');
            b'.phase != Closed ==>
              Admitted(b, run) + Tracked(b)
              <= later + if b.phase == HalfOpen && run[0].call == Failure then Tracked(b) else {}
  {}

  lemma AtMostOneMore(a: set<string>, later: set<string>, tracked: set<string>)
    requires a <= later + tracked && |tracked| <= 1
    ensures |a| <= |later| + |tracked|
  {
    SubsetSize(a, later + tracked);
    assert |later + tracked| == |later| + |tracked| - |later * tracked|;
  }

  lemma {:induction false} ProbesFitTheRoom(b: Breaker, run: seq<Timed>, from: Time, to: Time)
    requires Coherent(b, from) && InOrder(run, from, to) && NeverClosed(b, run)
    ensures |Admitted(b, run) + Tracked(b)| <= Room(b, from, to)
    decreases |run|
  {
    InOrderEnds(run, from, to);
    if run == [] {
      assert Admitted(b, run) + Tracked(b) == Tracked(b);
    } else {
      var now, b' := run[0].now, Step(b, run[0].now, run[0].call);
      ProbesFitTheRoom(b', run[1..], now, to);
      InOrderEnds(run[1..], now, to);
      RoomShrinks(b, run[0], from, to);
      AdmittedUnfolds(b, run);
      AtMostOneMore(Admitted(b, run) + Tracked(b), Admitted(b', run[1..]) + Tracked(b'),
                    if b.phase == HalfOpen && run[0].call == Failure then Tracked(b) else {});
    }
  }

  /** A failed probe costs one place and a whole reset timeout; no other step makes more room. */
  lemma RoomShrinks(b: Breaker, t: Timed, from: Time, to: Time)
    requires Coherent(b, from) && from <= t.now <= to
    requires b.phase != Closed && Step(b, t.now, t.call).phase != Closed
    ensures var b' := Step(b, t.now, t.call);
            Room(b', t.now, to) + (if b.phase == HalfOpen && t.call == Failure then 1 else 0) <= Room(b, from, to)
  {
    var b' := Step(b, t.now, t.call);
    if b.phase == HalfOpen && t.call == Failure {
      assert Room(b', t.now, to) + 1 == Slots(to - t.now, b.resetTimeout);
      SlotsMonotone(to - t.now, to - from, b.resetTimeout);
    } else {
      SlotsMonotone(to - NextProbe(b', t.now), to - NextProbe(b, from), b.resetTimeout);
    }
  }

  /** While a breaker does not re-close, at most (span / reset timeout) + 1 distinct requests reach the failing
      Drone, whatever the mix of requests, failures and successes. */
  lemma ProbesPerSpan(b: Breaker, run: seq<Timed>, from: Time, to: Time)
    requires Coherent(b, from) && InOrder(run, from, to) && NeverClosed(b, run)
    ensures |Admitted(b, run)| <= (to - from) / b.resetTimeout + 1
  {
    InOrderEnds(run, from, to);
    ProbesFitTheRoom(b, run, from, to);
    SubsetSize(Admitted(b, run), Admitted(b, run) + Tracked(b));
    SlotsMonotone(to - NextProbe(b, from), to - from, b.resetTimeout);
    SlotsByDivision(to - from, b.resetTimeout);
  }

  // ----- When does it open? -----

  /** A closed breaker can be driven open if and only if its threshold is within maxFailures: otherwise no run whatever
      opens it. */
  lemma CanOpenExactlyWhen(b: Breaker, now: Time)
    requires Coherent(b, now) && b.phase == Closed
    ensures (exists run :: Run(b, run).phase != Closed) <==> b.failureThreshold <= b.maxFailures
  {
    if b.failureThreshold <= b.maxFailures {
      var run := seq(b.failureThreshold - b.failureCount, _ => Timed(now, Failure));
      EnoughFailuresOpen(b, run);
      assert Run(b, run).phase != Closed;
    } else {
      forall run ensures Run(b, run).phase == Closed {
        StaysClosed(b, run);
      }
    }
  }

  lemma {:induction false} EnoughFailuresOpen(b: Breaker, run: seq<Timed>)
    requires b.phase == Closed && 0 <= b.failureCount < b.failureThreshold <= b.maxFailures
    requires |run| == b.failureThreshold - b.failureCount && forall t | t in run :: t.call == Failure
    ensures Run(b, run).phase == Open
    decreases |run|
  {
    var b' := Step(b, run[0].now, run[0].call);
    assert run[0] in run;
    if |run| == 1 {
      assert run[1..] == [];
    } else {
      EnoughFailuresOpen(b', run[1..]);
    }
  }

  lemma {:induction false} StaysClosed(b: Breaker, run: seq<Timed>)
    requires b.phase == Closed && b.failureThreshold > b.maxFailures
    ensures Run(b, run).phase == Closed
    decreases |run|
  {
    if run != [] {
      StaysClosed(Step(b, run[0].now, run[0].call), run[1..]);
    }
  }

  function Failures(b: Breaker, times: seq<Time>): Breaker {
    if times == [] then b else FailureStep(Failures(b, times[..|times| - 1]), times[|times| - 1])
  }

  /** An unbroken series of failures opens a fresh breaker exactly when it is as long as the threshold and the
      threshold does not exceed maxFailures: the counter is capped there, so a higher threshold is never reached. */
  lemma {:induction false} OpensExactlyWhen(threshold: int, timeout: Time, maxFailures: int, times: seq<Time>)
    ensures var b := WithDefaults(threshold, timeout, maxFailures);
            var b' := Failures(b, times);
            && b'.failureCount == (if |times| < b.maxFailures then |times| else b.maxFailures)
            && b'.(failureCount := 0, lastFailure := 0, phase := Closed) == b
            && b'.phase == if |times| >= b.failureThreshold && b.failureThreshold <= b.maxFailures then Open else Closed
  {
    if times != [] {
      OpensExactlyWhen(threshold, timeout, maxFailures, times[..|times| - 1]);
    }
  }

  // ----- What requests are answered -----

  /** Failures recorded since the last success; requests do not count. */
  function Streak(run: seq<Timed>): nat {
    if run == [] then 0
    else
      var last := run[|run| - 1].call;
      match last
      case Failure => Streak(run[..|run| - 1]) + 1
      case Success => 0
      case Ask(_) => Streak(run[..|run| - 1])
  }

  /** Never so many in a row. */
  ghost predicate FewerInARow(run: seq<Timed>, threshold: int) {
    forall k | 0 <= k <= |run| :: Streak(run[..k]) < threshold
  }

  lemma {:induction false} RunByLast(b: Breaker, run: seq<Timed>)
    requires run != []
    ensures var n := |run| - 1; Run(b, run) == Step(Run(b, run[..n]), run[n].now, run[n].call)
    decreases |run|
  {
    var n := |run| - 1;
    if n == 0 {
      assert run[1..] == [] && run[..n] == [];
    } else {
      RunByLast(Step(b, run[0].now, run[0].call), run[1..]);
      assert run[1..][..n - 1] == run[..n][1..];
    }
  }

  lemma {:induction false} FewFailuresKeepItClosed(threshold: int, timeout: Time, maxFailures: int, run: seq<Timed>)
    requires FewerInARow(run, if threshold > 0 then threshold else 5)
    ensures var b := Run(WithDefaults(threshold, timeout, maxFailures), run);
            var most := if maxFailures > 0 then maxFailures else 10;
            && b.phase == Closed && b.failureThreshold == (if threshold > 0 then threshold else 5)
            && b.maxFailures == most
            && b.failureCount == if Streak(run) < most then Streak(run) else most
  {
    if run != [] {
      var n := |run| - 1;
      assert run[..n + 1] == run;
      assert forall k | 0 <= k <= n :: run[..n][..k] == run[..k];
      FewFailuresKeepItClosed(threshold, timeout, maxFailures, run[..n]);
      RunByLast(WithDefaults(threshold, timeout, maxFailures), run);
    }
  }

  /** In every run, mixed as it may be, in which there were never so many failures in a row as the threshold (five when
      none is configured), every request is let through, and none is tracked. */
  lemma FewFailuresAllowEverything(threshold: int, timeout: Time, maxFailures: int, run: seq<Timed>, now: Time,
                                   requestID: string)
    requires FewerInARow(run, if threshold > 0 then threshold else 5)
    ensures var b := Run(WithDefaults(threshold, timeout, maxFailures), run);
            AskStep(b, now, requestID) == (b, Answer(true, ""))
  {
    FewFailuresKeepItClosed(threshold, timeout, maxFailures, run);
  }

  /** The failure that completes the threshold opens it, if the threshold is within maxFailures (ten when none is
      configured). */
  lemma ThresholdOpens(threshold: int, timeout: Time, maxFailures: int, run: seq<Timed>, now: Time)
    requires FewerInARow(run, if threshold > 0 then threshold else 5)
    requires Streak(run) + 1 == if threshold > 0 then threshold else 5
    ensures var b := Step(Run(WithDefaults(threshold, timeout, maxFailures), run), now, Failure);
            var within := (if threshold > 0 then threshold else 5) <= (if maxFailures > 0 then maxFailures else 10);
            b.phase == (if within then Open else Closed) && b.lastFailure == now
  {
    FewFailuresKeepItClosed(threshold, timeout, maxFailures, run);
  }

  /** The time of the last failure of a run, or the given one. */
  function LastFailure(run: seq<Timed>, before: Time): Time {
    if run == [] then before
    else if run[|run| - 1].call == Failure then run[|run| - 1].now
    else LastFailure(run[..|run| - 1], before)
  }

  /** No request of the run comes a reset timeout or more after the last failure. */
  ghost predicate AsksTooEarly(run: seq<Timed>, before: Time, timeout: Time) {
    forall k | 0 <= k < |run| && run[k].call.Ask? :: run[k].now - LastFailure(run[..k], before) < timeout
  }

  /** An open breaker turns every request away until the reset timeout has passed since the last failure, failures that
      come while it is open included; then it lets one through and tracks it. */
  lemma {:induction false} OpenUntilTheTimeout(b: Breaker, run: seq<Timed>, now: Time, requestID: string)
    requires b.phase == Open && AsksTooEarly(run, b.lastFailure, b.resetTimeout)
    ensures var end := Run(b, run);
            && end.phase == Open && end.lastFailure == LastFailure(run, b.lastFailure)
            && end.resetTimeout == b.resetTimeout
            && AskStep(end, now, requestID)
               == if now - LastFailure(run, b.lastFailure) >= b.resetTimeout
                  then (end.(phase := HalfOpen, halfOpenStart := now, probe := requestID), Answer(true, requestID))
                  else (end, Answer(false, ""))
    decreases |run|
  {
    if run != [] {
      var n := |run| - 1;
      assert forall k | 0 <= k <= n :: run[..n][..k] == run[..k];
      OpenUntilTheTimeout(b, run[..n], now, requestID);
      RunByLast(b, run);
    }
  }

  /** The reset timeout is the one configured, or thirty seconds. */
  lemma ConfiguredTimeout(threshold: int, timeout: Time, maxFailures: int, run: seq<Timed>)
    ensures Run(WithDefaults(threshold, timeout, maxFailures), run).resetTimeout
            == if timeout > 0 then timeout else 30_000_000_000
  {
    RunKeepsConfig(WithDefaults(threshold, timeout, maxFailures), run);
  }

  /** While it is half-open, requests other than the tracked one are turned away. */
  lemma OnlyTheProbePasses(b: Breaker, now: Time, id: string, others: seq<Timed>, later: Time, other: string)
    requires b.phase == Open && now - b.lastFailure >= b.resetTimeout && id != "" && other != id
    requires forall t | t in others :: t.call.Ask?
    ensures var half := Run(Step(b, now, Ask(id)), others); AskStep(half, later, other) == (half, Answer(false, ""))
    ensures var half := Run(Step(b, now, Ask(id)), others);
            Step(half, later, Failure).phase == Open && Step(half, later, Failure).lastFailure == later
  {
    AsksLeaveTheProbe(Step(b, now, Ask(id)), others);
  }

  /** A probe that came without an ID is not tracked: the next request takes its place. */
  lemma UntrackedProbe(b: Breaker, now: Time, later: Time, id: string)
    requires b.phase == Open && now - b.lastFailure >= b.resetTimeout
    ensures var half := Step(b, now, Ask(""));
            half.phase == HalfOpen && AskStep(half, later, id) == (half.(probe := id), Answer(true, id))
  {}
}
