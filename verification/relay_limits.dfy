/** Where the budgets of the outbound relay stop short: when a session reset lets more through than the session budget,
    and what retries over-charge. */
module RelayLimits {
  import opened Wrappers
  import Decimal
  import opened TokenBudget
  import opened Relay
  import opened RelayAccounts

  // ----- Is it safe to reset a session now? -----

  ghost predicate ResetFree(run: seq<Event>) {
    forall e | e in run :: e != Other(SessionReset)
  }

  /** Up to the next reset, no more than `budget` tokens are published, whatever happens. */
  ghost predicate StaysWithin(s: State, budget: int) {
    forall run | ResetFree(run) :: InSession(Run(s, run).books.log, Publishes) <= budget
  }

  lemma StepAppends(s: State, e: Event)
    requires e != Other(SessionReset)
    ensures var log, log' := s.books.log, Step(s, e).books.log;
            log' == log || exists x: LogEntry :: !x.Reset? && log' == log + [x]
  {
    var log' := Step(s, e).books.log;
    if log' != s.books.log {
      assert log' == s.books.log + [Last(log')] && !Last(log').Reset?;
    }
  }

  lemma {:induction false} ResetFreeKeepsPendingAtReset(s: State, run: seq<Event>)
    requires ResetFree(run)
    ensures PendingAtReset(Run(s, run).books.log) == PendingAtReset(s.books.log)
    decreases |run|
  {
    if run != [] {
      assert run[0] in run;
      StepAppends(s, run[0]);
      var log, log' := s.books.log, Step(s, run[0]).books.log;
      if log' != log {
        assert Front(log') == log;
      }
      assert forall e | e in run[1..] :: e in run;
      ResetFreeKeepsPendingAtReset(Step(s, run[0]), run[1..]);
    }
  }

  lemma {:induction false} ResetFreeTwice(a: seq<Event>, b: seq<Event>)
    requires ResetFree(a) && ResetFree(b)
    ensures ResetFree(a + b)
  {
    forall e | e in a + b ensures e != Other(SessionReset) {
      assert e in a || e in b;
    }
  }

  /** In a Keeper in which nothing is under way at the reset, the session budget bounds what is published after
      it; and the other way round: while a charged message is being sent, there is always a way for it and a
      whole budget's worth of further messages to get through after the reset. */
  lemma ResetIsSafeExactlyWhen(s: State)
    requires Sound(s) && Queued(s) && s.maxSize > 0 && s.books.tracker.Some? && s.books.tracker.value.perSession > 0
    ensures StaysWithin(ResetStep(s), s.books.tracker.value.perSession) <==> Pending(s.books.log) == 0
  {
    var budget, s0 := s.books.tracker.value.perSession, ResetStep(s);
    assert s0 == Step(s, Other(SessionReset));
    StepKeepsSound(s, Other(SessionReset));
    assert Front(s0.books.log) == s.books.log && PendingAtReset(s0.books.log) == Pending(s.books.log);
    if Pending(s.books.log) == 0 {
      forall run | ResetFree(run) ensures InSession(Run(s0, run).books.log, Publishes) <= budget {
        RunKeepsSound(s0, run);
        RunKeepsConfiguration(s0, run);
        ResetFreeKeepsPendingAtReset(s0, run);
        SoundIsBounded(Run(s0, run));
      }
    } else {
      var run := Overrun(s0);
    }
  }

  lemma Overrun(s: State) returns (run: seq<Event>)
    requires Sound(s) && Queued(s) && s.maxSize > 0 && s.books.tracker.Some? && s.books.tracker.value.perSession > 0
    requires s.publisher.Sending? && s.publisher.tokens > 0 && s.books.log != [] && Last(s.books.log) == Reset
    requires s.books.tracker.value.sessionTokens == 0
    ensures ResetFree(run)
    ensures InSession(Run(s, run).books.log, Publishes) == s.publisher.tokens + s.books.tracker.value.perSession
  {
    var deliver := Event.Deliver(s.books.clock, true);
    var s1 := Step(s, deliver);
    StepKeepsSound(s, deliver);
    assert Front(s1.books.log) == s.books.log;
    RunOne(s, deliver);
    var drain := Drain(s1);
    var s2 := Run(s1, drain);
    RunTwice(s, [deliver], drain);
    RunKeepsSound(s1, drain);
    ResetFreeTwice([deliver], drain);
    var fill := FillSession(s2, s.books.tracker.value.perSession);
    RunTwice(s, [deliver] + drain, fill);
    ResetFreeTwice([deliver] + drain, fill);
    run := [deliver] + drain + fill;
  }

  /** Messages whose encoding fails leave no trace in the books. */
  lemma {:induction false} Drain(s: State) returns (run: seq<Event>)
    requires s.publisher == Idle && forall q | q in s.queue :: q.attempts == 0
    ensures ResetFree(run) && forall e | e in run :: e.Take? || e == Event.Try(s.books.clock, false, false)
    ensures var s' := Run(s, run);
            s'.publisher == Idle && s'.queue == [] && s'.books == s.books && s'.maxSize == s.maxSize
    decreases |s.queue|
  {
    run := [];
    if s.queue != [] {
      var fail := Event.Try(s.books.clock, false, false);
      var s1 := Step(s, Take);
      var s2 := Step(s1, fail);
      assert s.queue[0] in s.queue && s2.books == s.books;
      var rest := Drain(s2);
      run := [Take, fail] + rest;
      assert run[1..] == [fail] + rest && run[1..][1..] == rest;
      ResetFreeTwice([Take, fail], rest);
    }
  }

  const ONE_TOKEN: Message := Message("", map["token-count" := Decimal.FormatInt(1)])

  function NextMinute(clock: Time): Time {
    (clock / MINUTE + 1) * MINUTE
  }

  /** One token at a time, each in a minute of its own, a session budget can be used up whatever the other budgets. */
  lemma {:induction false} FillSession(s: State, tokens: nat) returns (run: seq<Event>)
    requires Sound(s) && Queued(s) && s.publisher == Idle && s.queue == [] && s.maxSize > 0 && s.books.tracker.Some?
    requires s.books.tracker.value.perSession > 0
    requires s.books.tracker.value.sessionTokens + tokens <= s.books.tracker.value.perSession
    ensures ResetFree(run)
    ensures InSession(Run(s, run).books.log, Publishes) == InSession(s.books.log, Publishes) + tokens
    decreases tokens
  {
    run := [];
    if tokens > 0 {
      var round := OneTokenRound(s);
      var s' := Run(s, round);
      RunKeepsSound(s, round);
      RunKeepsConfiguration(s, round);
      var rest := FillSession(s', tokens - 1);
      RunTwice(s, round, rest);
      ResetFreeTwice(round, rest);
      run := round + rest;
    }
  }

  lemma RunOfFour(s: State, a: Event, b: Event, c: Event, d: Event)
    ensures Run(s, [a, b, c, d]) == Step(Step(Step(Step(s, a), b), c), d)
  {
    RunOne(s, a);
    RunOne(Step(s, a), b);
    RunOne(Step(Step(s, a), b), c);
    RunOne(Step(Step(Step(s, a), b), c), d);
    RunTwice(s, [a], [b]);
    RunTwice(s, [a] + [b], [c]);
    RunTwice(s, [a] + [b] + [c], [d]);
    assert [a] + [b] + [c] + [d] == [a, b, c, d];
  }

  lemma OfferAndTake(s: State, msg: Message)
    requires s.publisher == Idle && s.queue == [] && s.maxSize > 0
    ensures var s' := Step(Step(s, Other(Offered(msg))), Take);
            s' == s.(publisher := Ready(QueuedMessage(msg, 0, 0)),
                     accepted := s.accepted + [msg], taken := s.taken + [msg])
  {}

  lemma OneTokenIsSent(s: State, q: QueuedMessage, now: Time)
    requires s.publisher == Ready(q) && q.attempts == 0 && TokenCount(q) == 1 && now > s.books.clock
    requires s.books.tracker.Some? && RecordStep(s.books.tracker.value, now, 1).1 == Charged
    ensures var s' := Step(Step(s, Event.Try(now, true, true)), Event.Deliver(now, true));
            && s'.publisher == Idle && s'.queue == s.queue && s'.maxSize == s.maxSize
            && s'.books.tracker == Some(RecordStep(s.books.tracker.value, now, 1).0)
            && InSession(s'.books.log, Publishes) == InSession(s.books.log, Publishes) + 1
  {
    var s1 := Step(s, Event.Try(now, true, true));
    var s2 := Step(s1, Event.Deliver(now, true));
    assert Front(s1.books.log) == s.books.log && Front(s2.books.log) == s1.books.log;
  }

  lemma OneTokenRound(s: State) returns (run: seq<Event>)
    requires Sound(s) && s.publisher == Idle && s.queue == [] && s.maxSize > 0 && s.books.tracker.Some?
    requires HasSessionRoom(s.books.tracker.value)
    ensures ResetFree(run)
    ensures var s' := Run(s, run);
            && s'.publisher == Idle && s'.queue == [] && s'.maxSize == s.maxSize && s'.books.tracker.Some?
            && s'.books.tracker.value.sessionTokens == s.books.tracker.value.sessionTokens + 1
            && InSession(s'.books.log, Publishes) == InSession(s.books.log, Publishes) + 1
  {
    var now := NextMinute(s.books.clock);
    run := [Other(Offered(ONE_TOKEN)), Take, Event.Try(now, true, true), Event.Deliver(now, true)];
    RunOfFour(s, run[0], run[1], run[2], run[3]);
    OfferAndTake(s, ONE_TOKEN);
    TokenCountIsReadBack(map[], 1);
    OneTokenPasses(s.books, now);
    OneTokenIsSent(Step(Step(s, run[0]), Take), QueuedMessage(ONE_TOKEN, 0, 0), now);
  }

  predicate HasSessionRoom(t: Tracker) {
    0 < t.perSession && t.sessionTokens < t.perSession
  }

  /** In a fresh minute a single token meets every budget but the session's. */
  lemma OneTokenPasses(b: Books, now: Time)
    requires b.tracker.Some? && Covered(b.tracker.value, b.clock, b.log) && now == NextMinute(b.clock)
    requires HasSessionRoom(b.tracker.value)
    ensures now > b.clock
    ensures var (t, verdict) := RecordStep(b.tracker.value, now, 1);
            verdict == Charged && t.sessionTokens == b.tracker.value.sessionTokens + 1
  {
    assert now / MINUTE == b.clock / MINUTE + 1;
  }

  // ----- What retries over-charge -----

  /** Growth of the books by one message's attempts: `lost` failed deliveries and possibly its publish. */
  ghost predicate Grew(s: State, s': State, id: string, tokens: nat, lost: nat, published: bool) {
    && PublishedIds(s'.books.log) == PublishedIds(s.books.log) + (if published then [id] else [])
    && All(s'.books.log, Publishes) == All(s.books.log, Publishes) + (if published then tokens else 0)
    && All(s'.books.log, Losses) == All(s.books.log, Losses) + tokens * lost
    && s'.books.clock >= s.books.clock
  }

  lemma {:induction false} InterruptsGrowNothing(s: State, interruptions: seq<Interruption>, id: string, tokens: nat)
    ensures var s' := Interrupts(s, interruptions);
            && Grew(s, s', id, tokens, 0, false)
            && s'.publisher == s.publisher && s'.outcomes == s.outcomes && s'.books.clock == s.books.clock
    decreases |interruptions|
  {
    if interruptions != [] {
      var s1 := Interrupt(s, interruptions[0]);
      if s1.books.log != s.books.log {
        assert Front(s1.books.log) == s.books.log;
      }
      InterruptsGrowNothing(s1, interruptions[1..], id, tokens);
    }
  }

  /** How many tokens a message is charged for at each attempt. */
  function Price(q: QueuedMessage): nat {
    if TokenCount(q) > 0 then TokenCount(q) else 0
  }

  lemma TryGrowsNothing(s: State, now: Time, encodes: bool, valid: bool)
    requires s.publisher.Ready?
    ensures var q, s' := s.publisher.q, Step(s, Event.Try(now, encodes, valid));
            && Grew(s, s', q.msg.id, Price(q), 0, false)
            && (s'.publisher.Sending? ==>
                  s'.publisher.q == q && s'.publisher.tokens == TokenCount(q) && s'.outcomes == s.outcomes)
            && (s'.publisher.Idle? ==> exists outcome :: s'.outcomes == s.outcomes + [outcome] && EndsTry(outcome))
            && (now >= q.nextTry ==> !s'.publisher.Ready?)
            && !s'.publisher.Gone? && s'.books.clock >= now
  {
    var q, s' := s.publisher.q, Step(s, Event.Try(now, encodes, valid));
    if s'.books.log != s.books.log {
      assert Front(s'.books.log) == s.books.log;
    }
    if s'.publisher.Idle? {
      assert s'.outcomes == s.outcomes + [s'.outcomes[|s.outcomes|]] && EndsTry(s'.outcomes[|s.outcomes|]);
    }
  }

  predicate EndsTry(outcome: Outcome) {
    outcome == EncodeFailed || outcome == ValidationFailed || outcome.BudgetExceeded?
  }

  lemma DeliverGrowsByOne(s: State, q: QueuedMessage, now: Time, delivered: bool)
    requires s.publisher.Sending? && s.publisher.q == q && s.publisher.tokens == TokenCount(q)
    ensures var s' := Step(s, Event.Deliver(now, delivered));
            && Grew(s, s', q.msg.id, Price(q), if delivered then 0 else 1, delivered)
            && (delivered ==> s'.publisher.Idle? && s'.outcomes == s.outcomes + [Published])
            && (!delivered && q.attempts + 1 >= MAX_RETRIES ==>
                  s'.publisher.Idle? && s'.outcomes == s.outcomes + [MaxRetries])
            && (!delivered && q.attempts + 1 < MAX_RETRIES ==>
                  && s'.outcomes == s.outcomes
                  && s'.publisher == Ready(QueuedMessage(q.msg, q.attempts + 1, s'.books.clock + Backoff(q.attempts))))
  {
    var s' := Step(s, Event.Deliver(now, delivered));
    assert Front(s'.books.log) == s.books.log;
  }

  /** How one attempt ends: without delivering, by publishing, or with one delivery lost. */
  datatype Ending = NotSent(outcome: Outcome) | Sent | LostOne(last: Option<Outcome>)

  /** From `s`, whose publisher holds `q`, an attempt led to `s'`. */
  ghost predicate EndsAs(s: State, s': State, q: QueuedMessage, ending: Ending) {
    match ending
    case NotSent(outcome) =>
      Grew(s, s', q.msg.id, Price(q), 0, false) && s'.publisher.Idle? && s'.outcomes == s.outcomes + [outcome]
      && EndsTry(outcome)
    case Sent =>
      Grew(s, s', q.msg.id, Price(q), 0, true) && s'.publisher.Idle? && s'.outcomes == s.outcomes + [Published]
    case LostOne(Some(outcome)) =>
      Grew(s, s', q.msg.id, Price(q), 1, false) && (s'.publisher.Idle? || s'.publisher.Gone?)
      && s'.outcomes == s.outcomes + [outcome]
      && outcome == (if q.attempts + 1 >= MAX_RETRIES then MaxRetries else Cancelled)
    case LostOne(None) =>
      Grew(s, s', q.msg.id, Price(q), 1, false) && q.attempts + 1 < MAX_RETRIES && s'.outcomes == s.outcomes
      && s'.publisher == Ready(QueuedMessage(q.msg, q.attempts + 1, s'.books.clock + Backoff(q.attempts)))
  }

  lemma GrewTwice(s: State, s1: State, s2: State, id: string, tokens: nat, lost: nat, more: nat, published: bool)
    requires Grew(s, s1, id, tokens, lost, false) && Grew(s1, s2, id, tokens, more, published)
    ensures Grew(s, s2, id, tokens, lost + more, published)
  {
    assert tokens * (lost + more) == tokens * lost + tokens * more;
  }

  lemma AttemptGrows(s: State, a: Attempt) returns (ending: Ending)
    requires s.publisher.Ready? && s.publisher.q.attempts < MAX_RETRIES
    ensures EndsAs(s, AttemptStep(s, a), s.publisher.q, ending)
    ensures AttemptStep(s, a).books.clock >= AwakeAt(s.publisher.q, s.books.clock) || ending.NotSent?
  {
    var q := s.publisher.q;
    var id, price := q.msg.id, Price(q);
    var s1 := Interrupts(s, a.before);
    InterruptsGrowNothing(s, a.before, id, price);
    var now := AwakeAt(q, a.now);
    var s2 := Step(s1, Event.Try(now, a.encodes, a.valid));
    TryGrowsNothing(s1, now, a.encodes, a.valid);
    GrewTwice(s, s1, s2, id, price, 0, 0, false);
    if s2.publisher.Sending? {
      ending := SendingEnds(s2, q, a);
      var s4 := AttemptStep(s, a);
      GrewTwice(s, s2, s4, id, price, 0, if ending.LostOne? then 1 else 0, ending.Sent?);
    } else {
      NoSleepWhenAwake(s1, q, now, a.encodes, a.valid);
      ending := NotSent(s2.outcomes[|s.outcomes|]);
    }
  }

  lemma SendingEnds(s: State, q: QueuedMessage, a: Attempt) returns (ending: Ending)
    requires s.publisher.Sending? && s.publisher.q == q && s.publisher.tokens == TokenCount(q)
    requires q.attempts < MAX_RETRIES
    ensures var sent := Step(Interrupts(s, a.between), Event.Deliver(a.later, a.delivered));
            EndsAs(s, if sent.publisher.Ready? && a.cancelled then QuitStep(sent) else sent, q, ending)
    ensures !ending.NotSent?
  {
    var s3 := Interrupts(s, a.between);
    InterruptsGrowNothing(s, a.between, q.msg.id, Price(q));
    DeliverGrowsByOne(s3, q, a.later, a.delivered);
    var s4 := Step(s3, Event.Deliver(a.later, a.delivered));
    GrewTwice(s, s3, s4, q.msg.id, Price(q), 0, if a.delivered then 0 else 1, a.delivered);
    ending := if a.delivered then Sent
              else if s4.publisher.Idle? then LostOne(Some(MaxRetries))
              else if a.cancelled then LostOne(Some(Cancelled))
              else LostOne(None);
  }

  lemma NoSleepWhenAwake(s: State, q: QueuedMessage, now: Time, encodes: bool, valid: bool)
    requires s.publisher == Ready(q) && (q.attempts > 0 ==> now >= q.nextTry)
    ensures !Step(s, Event.Try(now, encodes, valid)).publisher.Ready?
  {}

  /** Backoff still to come after the given attempt. */
  function Waits(attempts: nat): Time
    decreases MAX_RETRIES - attempts
  {
    if attempts + 1 >= MAX_RETRIES then 0 else Backoff(attempts) + Waits(attempts + 1)
  }

  /** One message, all its attempts, with anything in between: it is published at most once, each failed delivery
      costs its full price again, and it gives up exactly when every attempt it had left was lost, after waiting
      out every backoff. */
  lemma {:induction false} PublishStepGrowsLog(s: State, env: nat -> Attempt) returns (lost: nat)
    requires s.publisher.Ready? && s.publisher.q.attempts < MAX_RETRIES
    ensures var q, s' := s.publisher.q, PublishFrom(s, env);
            && !s'.publisher.Ready? && !s'.publisher.Sending? && |s'.outcomes| == |s.outcomes| + 1
            && s'.outcomes[..|s.outcomes|] == s.outcomes
            && Grew(s, s', q.msg.id, Price(q), lost, s'.outcomes[|s.outcomes|] == Published)
            && lost <= MAX_RETRIES - q.attempts
            && (s'.outcomes[|s.outcomes|] == MaxRetries <==> lost == MAX_RETRIES - q.attempts)
            && (lost == MAX_RETRIES - q.attempts ==>
                  s'.books.clock >= AwakeAt(q, s.books.clock) + Waits(q.attempts))
    decreases MAX_RETRIES - s.publisher.q.attempts
  {
    var q, a := s.publisher.q, env(s.publisher.q.attempts);
    AttemptAdvances(s, a);
    var ending := AttemptGrows(s, a);
    lost := 0;
    if ending.LostOne? {
      lost := 1;
      if ending.last == None {
        var more := PublishStepGrowsLog(AttemptStep(s, a), env);
        lost := 1 + more;
        var s1 := AttemptStep(s, a);
        var s2 := PublishFrom(s1, env);
        GrewTwice(s, s1, s2, q.msg.id, Price(q), 1, more, s2.outcomes[|s.outcomes|] == Published);
      }
    }
  }

  /** The bus fails every time, the message encodes and is valid, and the relay is not cancelled. */
  ghost predicate BusDown(env: nat -> Attempt) {
    forall n :: env(n).encodes && env(n).valid && !env(n).delivered && !env(n).cancelled
  }

  predicate GivenUp(outcomes: seq<Outcome>) {
    outcomes != [] && (outcomes[|outcomes| - 1] == MaxRetries || outcomes[|outcomes| - 1].BudgetExceeded?)
  }

  lemma UndeliveredAttempt(s: State, a: Attempt)
    requires s.publisher.Ready? && s.publisher.q.attempts < MAX_RETRIES
    requires a.encodes && a.valid && !a.delivered && !a.cancelled
    ensures var s' := AttemptStep(s, a);
            s'.publisher.Idle? ==> GivenUp(s'.outcomes)
    ensures !AttemptStep(s, a).publisher.Gone?
  {
    InterruptsLeavePublisher(s, a.before);
    var s1 := Interrupts(s, a.before);
    var s2 := Step(s1, Event.Try(AwakeAt(s1.publisher.q, a.now), a.encodes, a.valid));
    InterruptsLeavePublisher(s2, a.between);
  }

  lemma {:induction false} UndeliveredMessage(s: State, env: nat -> Attempt)
    requires s.publisher.Ready? && s.publisher.q.attempts < MAX_RETRIES && BusDown(env)
    ensures var s' := PublishFrom(s, env);
            GivenUp(s'.outcomes)
    decreases MAX_RETRIES - s.publisher.q.attempts
  {
    var a := env(s.publisher.q.attempts);
    AttemptAdvances(s, a);
    UndeliveredAttempt(s, a);
    var ending := AttemptGrows(s, a);
    if AttemptStep(s, a).publisher.Ready? {
      UndeliveredMessage(AttemptStep(s, a), env);
    }
  }

  /** With the bus down, for any budgets and any interruptions: the message is never published, and is charged once for
      each delivery lost; three times, after both backoff delays, or fewer exactly when a budget stops it. */
  lemma UndeliverableIsChargedThrice(s: State, env: nat -> Attempt) returns (lost: nat)
    requires Sound(s) && Queued(s) && s.books.tracker.Some? && BusDown(env)
    requires s.publisher.Ready? && s.publisher.q.attempts == 0
    ensures var q, s' := s.publisher.q, PublishFrom(s, env);
            && PublishedIds(s'.books.log) == PublishedIds(s.books.log)
            && All(s'.books.log, Charges) == All(s.books.log, Charges) + Price(q) * lost
            && lost <= 3
            && |s'.outcomes| == |s.outcomes| + 1
            && s'.outcomes[|s.outcomes|].BudgetExceeded? == (lost < 3)
            && (lost == 3 ==> s'.books.clock >= s.books.clock + 300_000_000)
  {
    lost := PublishStepGrowsLog(s, env);
    UndeliveredMessage(s, env);
    var s' := PublishFrom(s, env);
    var run := PublishIsARun(s, env);
    RunKeepsSound(s, run);
    RunKeepsConfiguration(s, run);
    PublishedIsCharged(s.books.log, 0);
    PublishedIsCharged(s'.books.log, 0);
    assert Waits(0) == 3 * BASE_DELAY by { assert Backoff(0) == BASE_DELAY && Backoff(1) == 2 * BASE_DELAY; }
  }
}
