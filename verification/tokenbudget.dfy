/** Token budgets (internal/guardrails/tokenbudget.go). A budget of zero means no limit. */
module TokenBudget {
  import opened Wrappers
  import Decimal

  type Time = int // nanoseconds

  const MINUTE: Time := 60 * 1_000_000_000

  /** `minuteWindow` numbers the clock minute the minute counter belongs to. */
  datatype Tracker = Tracker(
    perRequest: int, perSession: int, perMinute: int,
    sessionTokens: int, minuteTokens: int, minuteWindow: int, lastRequestTokens: int)

  datatype Verdict = Charged | OverRequest | OverMinute | OverSession

  function NewTracker(perRequest: int, perSession: int, perMinute: int, now: Time): Tracker {
    Tracker(perRequest, perSession, perMinute, 0, 0, now / MINUTE, 0)
  }

  /** The minute counter as it stands once the clock has been read. */
  function Roll(t: Tracker, now: Time): Tracker {
    if now / MINUTE > t.minuteWindow then t.(minuteTokens := 0, minuteWindow := now / MINUTE) else t
  }

  function RecordStep(t: Tracker, now: Time, tokens: int): (Tracker, Verdict) {
    if t.perRequest > 0 && tokens > t.perRequest then (t, OverRequest)
    else
      var r := Roll(t, now);
      if r.perMinute > 0 && r.minuteTokens + tokens > r.perMinute then (r, OverMinute)
      else
        var m := if r.perMinute > 0 then r.(minuteTokens := r.minuteTokens + tokens) else r;
        if m.perSession > 0 && m.sessionTokens + tokens > m.perSession then (m, OverSession)
        else
          var s := if m.perSession > 0 then m.(sessionTokens := m.sessionTokens + tokens) else m;
          (s.(lastRequestTokens := tokens), Charged)
  }

  class TokenBudgetTracker {
    const perRequestBudget: int
    const perSessionBudget: int
    const perMinuteBudget: int
    var sessionTokens: int
    var minuteTokens: int
    var minuteWindow: int
    var lastRequestTokens: int

    ghost function Contents(): Tracker
      reads this
    {
      Tracker(perRequestBudget, perSessionBudget, perMinuteBudget,
              sessionTokens, minuteTokens, minuteWindow, lastRequestTokens)
    }

    constructor (perRequest: int, perSession: int, perMinute: int, now: Time)
      ensures Contents() == NewTracker(perRequest, perSession, perMinute, now)
    {
      perRequestBudget, perSessionBudget, perMinuteBudget := perRequest, perSession, perMinute;
      sessionTokens, minuteTokens, minuteWindow, lastRequestTokens := 0, 0, now / MINUTE, 0;
    }

    method RecordUsage(now: Time, tokens: int) returns (verdict: Verdict)
      modifies this
      ensures (Contents(), verdict) == RecordStep(old(Contents()), now, tokens)
    {
      if perRequestBudget > 0 && tokens > perRequestBudget {
        return OverRequest;
      }
      var currentMinute := now / MINUTE;
      if currentMinute > minuteWindow {
        minuteTokens := 0;
        minuteWindow := currentMinute;
      }
      if perMinuteBudget > 0 {
        var newMinuteTokens := minuteTokens + tokens;
        if newMinuteTokens > perMinuteBudget {
          return OverMinute;
        }
        minuteTokens := newMinuteTokens;
      }
      if perSessionBudget > 0 {
        var newSessionTokens := sessionTokens + tokens;
        if newSessionTokens > perSessionBudget {
          return OverSession;
        }
        sessionTokens := newSessionTokens;
      }
      lastRequestTokens := tokens;
      return Charged;
    }

    method ResetSession()
      modifies this`sessionTokens
      ensures Contents() == old(Contents()).(sessionTokens := 0)
    {
      sessionTokens := 0;
    }
  }

  /** The count under "token-count", else the one under "tokens-used", else zero; a value that is not a decimal
      int64 is passed over. */
  function ExtractTokenCount(metadata: map<string, string>): int {
    var primary := if "token-count" in metadata then Decimal.ParseInt(metadata["token-count"]) else None;
    var fallback := if "tokens-used" in metadata then Decimal.ParseInt(metadata["tokens-used"]) else None;
    if primary.Some? then primary.value else if fallback.Some? then fallback.value else 0
  }

  /** A well-formed "token-count" is read back whatever else the metadata holds. */
  lemma TokenCountIsReadBack(metadata: map<string, string>, n: int)
    requires Decimal.IsInt64(n)
    ensures ExtractTokenCount(metadata["token-count" := Decimal.FormatInt(n)]) == n
    ensures "token-count" !in metadata ==> ExtractTokenCount(metadata["tokens-used" := Decimal.FormatInt(n)]) == n
  {
    Decimal.ParseUndoesFormat(n);
  }

  /** Whether the session budget will refuse a request that the other two budgets let through, with a minute budget in
      force: the guards of RecordUsage, read before the call on the counters as the clock has rolled them. */
  predicate ChargesThenRefuses(t: Tracker, now: Time, tokens: int) {
    var r := Roll(t, now);
    && !(t.perRequest > 0 && tokens > t.perRequest)
    && t.perMinute > 0 && r.minuteTokens + tokens <= t.perMinute
    && t.perSession > 0 && t.sessionTokens + tokens > t.perSession
  }

  /** A refusal leaves the tracker as it was, or as the clock has rolled it, except under exactly that guard; and then
      the minute counter has been charged for the tokens refused. */
  lemma RefusalChargesTheMinuteExactlyWhen(t: Tracker, now: Time, tokens: int)
    requires tokens != 0
    ensures var r := Roll(t, now);
            var (t', verdict) := RecordStep(t, now, tokens);
            && (verdict != Charged && t' != t && t' != r <==> ChargesThenRefuses(t, now, tokens))
            && (ChargesThenRefuses(t, now, tokens) ==>
                  verdict == OverSession && t' == r.(minuteTokens := r.minuteTokens + tokens))
  {
    var r := Roll(t, now);
    assert t == r.(minuteTokens := t.minuteTokens, minuteWindow := t.minuteWindow);
  }

  // ----- The minute counter over runs -----

  datatype Request = Request(now: Time, tokens: int)

  function RunRequests(t: Tracker, requests: seq<Request>): Tracker
    decreases |requests|
  {
    if requests == [] then t else RunRequests(RecordStep(t, requests[0].now, requests[0].tokens).0, requests[1..])
  }

  /** Tokens of the requests let through while the counter stood at clock minute `minute`... */
  function AcceptedIn(t: Tracker, requests: seq<Request>, minute: int): int
    decreases |requests|
  {
    if requests == [] then 0
    else
      var step := RecordStep(t, requests[0].now, requests[0].tokens);
      (if step.1 == Charged && step.0.minuteWindow == minute then requests[0].tokens else 0)
      + AcceptedIn(step.0, requests[1..], minute)
  }

  /** ...and of those the session budget refused after the minute counter had been charged. */
  function PhantomIn(t: Tracker, requests: seq<Request>, minute: int): int
    decreases |requests|
  {
    if requests == [] then 0
    else
      var step := RecordStep(t, requests[0].now, requests[0].tokens);
      (if ChargesThenRefuses(t, requests[0].now, requests[0].tokens) && step.0.minuteWindow == minute
       then requests[0].tokens else 0)
      + PhantomIn(step.0, requests[1..], minute)
  }

  /** The minute never runs backwards, and no minute before the tracker's own gets anything. */
  lemma {:induction false} PastMinutesGetNothing(t: Tracker, requests: seq<Request>, minute: int)
    ensures RunRequests(t, requests).minuteWindow >= t.minuteWindow
    ensures minute < t.minuteWindow ==> AcceptedIn(t, requests, minute) == 0 && PhantomIn(t, requests, minute) == 0
    decreases |requests|
  {
    if requests != [] {
      PastMinutesGetNothing(RecordStep(t, requests[0].now, requests[0].tokens).0, requests[1..], minute);
    }
  }

  /** For every run of requests, whatever the clock does: the minute counter holds what was accepted in its minute plus
      what was refused there after being charged, and nothing else. */
  lemma {:induction false} MinuteCounterExactly(t: Tracker, requests: seq<Request>)
    requires t.perMinute > 0
    ensures var t' := RunRequests(t, requests);
            && t'.perMinute == t.perMinute
            && t'.minuteTokens == (if t'.minuteWindow == t.minuteWindow then t.minuteTokens else 0)
                                  + AcceptedIn(t, requests, t'.minuteWindow) + PhantomIn(t, requests, t'.minuteWindow)
    decreases |requests|
  {
    if requests != [] {
      var next := RecordStep(t, requests[0].now, requests[0].tokens).0;
      MinuteCounterExactly(next, requests[1..]);
      PastMinutesGetNothing(next, requests[1..], t.minuteWindow);
    }
  }

  /** When such a charge turns away a later request of the same minute that would otherwise have passed: exactly when
      that request fits the request and session budgets, and fits what is left of the minute only without the charge. */
  lemma PhantomChargeRefusesLater(t: Tracker, now: Time, refused: int, later: Time, tokens: int)
    requires ChargesThenRefuses(t, now, refused) && later / MINUTE <= Roll(t, now).minuteWindow
    ensures var r := Roll(t, now);
            var charged := RecordStep(t, now, refused).0;
            (RecordStep(r, later, tokens).1 == Charged && RecordStep(charged, later, tokens).1 == OverMinute)
            <==> && (t.perRequest > 0 ==> tokens <= t.perRequest)
                 && t.sessionTokens + tokens <= t.perSession
                 && r.minuteTokens + tokens <= t.perMinute < r.minuteTokens + refused + tokens
  {}

  // ----- Which requests are charged -----

  /** Clock readings from `from` to `to`, never going backwards. */
  ghost predicate RequestsInOrder(requests: seq<Request>, from: Time, to: Time)
    decreases |requests|
  {
    if requests == [] then from <= to
    else from <= requests[0].now && RequestsInOrder(requests[1..], requests[0].now, to)
  }

  /** Tokens of the requests made in a clock minute that passed the minute's check, the session's refusals among
      them... */
  function PassedMinute(t: Tracker, requests: seq<Request>, minute: int): int
    decreases |requests|
  {
    if requests == [] then 0
    else
      var (now, tokens) := (requests[0].now, requests[0].tokens);
      var (t', verdict) := RecordStep(t, now, tokens);
      (if now / 60_000_000_000 == minute && (verdict == Charged || verdict == OverSession) then tokens else 0)
      + PassedMinute(t', requests[1..], minute)
  }

  /** ...and of those that were charged. */
  function AllCharged(t: Tracker, requests: seq<Request>): int
    decreases |requests|
  {
    if requests == [] then 0
    else
      var (t', verdict) := RecordStep(t, requests[0].now, requests[0].tokens);
      (if verdict == Charged then requests[0].tokens else 0) + AllCharged(t', requests[1..])
  }

  lemma {:induction false} CountersAddUp(t: Tracker, requests: seq<Request>, from: Time, to: Time)
    requires RequestsInOrder(requests, from, to) && t.minuteWindow <= from / MINUTE
    ensures var t' := RunRequests(t, requests);
            && t'.perRequest == t.perRequest && t'.perSession == t.perSession && t'.perMinute == t.perMinute
            && (t.perSession > 0 ==> t'.sessionTokens == t.sessionTokens + AllCharged(t, requests))
            && t.minuteWindow <= t'.minuteWindow <= to / MINUTE
            && (t.perMinute > 0 ==>
                  && t'.minuteTokens == (if t'.minuteWindow == t.minuteWindow then t.minuteTokens else 0)
                                        + PassedMinute(t, requests, t'.minuteWindow)
                  && forall m | m > t'.minuteWindow :: PassedMinute(t, requests, m) == 0)
    decreases |requests|
  {
    if requests != [] {
      var now := requests[0].now;
      var next := RecordStep(t, now, requests[0].tokens).0;
      CountersAddUp(next, requests[1..], now, to);
      if t.perMinute > 0 && RunRequests(t, requests).minuteWindow == t.minuteWindow {
        assert now / MINUTE >= t.minuteWindow;
      }
    }
  }

  /** After any requests to a new tracker, the answer to the next, in numbers: it is turned down if it exceeds the
      request budget; or else the minute budget, together with what has passed it in the same minute of the clock; or
      else the session budget, together with all that has been charged; a budget of zero or less is none. And otherwise
      it is charged. */
  lemma VerdictInNumbers(perRequest: int, perSession: int, perMinute: int, start: Time, requests: seq<Request>,
                         now: Time, tokens: int)
    requires RequestsInOrder(requests, start, now)
    ensures var t := NewTracker(perRequest, perSession, perMinute, start);
            var thisMinute := PassedMinute(t, requests, now / 60_000_000_000);
            RecordStep(RunRequests(t, requests), now, tokens).1
            == if perRequest > 0 && tokens > perRequest then OverRequest
               else if perMinute > 0 && thisMinute + tokens > perMinute then OverMinute
               else if perSession > 0 && AllCharged(t, requests) + tokens > perSession then OverSession
               else Charged
    ensures var t := RunRequests(NewTracker(perRequest, perSession, perMinute, start), requests);
            var (t', verdict) := RecordStep(t, now, tokens);
            t'.lastRequestTokens == if verdict == Charged then tokens else t.lastRequestTokens
  {
    CountersAddUp(NewTracker(perRequest, perSession, perMinute, start), requests, start, now);
  }

  /** The count of a message: the first of "token-count" and "tokens-used" that holds a base-10 int64; zero if neither
      does. */
  lemma TokenCountExactly(metadata: map<string, string>, n: int)
    ensures (exists m :: Names(metadata, "token-count", m)) ==>
              (ExtractTokenCount(metadata) == n <==> Names(metadata, "token-count", n))
    ensures !(exists m :: Names(metadata, "token-count", m)) && (exists m :: Names(metadata, "tokens-used", m)) ==>
              (ExtractTokenCount(metadata) == n <==> Names(metadata, "tokens-used", n))
    ensures !(exists m :: Names(metadata, "token-count", m)) && !(exists m :: Names(metadata, "tokens-used", m)) ==>
              ExtractTokenCount(metadata) == 0
  {
    forall key, m ensures Names(metadata, key, m)
                          <==> key in metadata && Decimal.ParseInt(metadata[key]) == Some(m)
    {
      if key in metadata {
        Decimal.ParsesExactly(metadata[key], m);
      }
    }
  }

  ghost predicate Names(metadata: map<string, string>, key: string, n: int) {
    key in metadata && Decimal.IsInt64(n) && exists sign, zeros :: Decimal.IsText(metadata[key], n, sign, zeros)
  }
}
