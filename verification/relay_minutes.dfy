/** What one clock minute can see delivered by the outbound relay: the minute budget limits what is charged in a minute,
    and a message is delivered after its charge. */
module RelayMinutes {
  import opened Wrappers
  import Decimal
  import opened TokenBudget
  import opened Relay
  import opened RelayAccounts
  import opened RelayLimits

  /** Tokens of the messages published in a clock minute, whenever they were charged... */
  function DeliveredIn(log: seq<LogEntry>, minute: int): nat {
    if log == [] then 0
    else
      DeliveredIn(Front(log), minute)
      + if Last(log).Publish? && Last(log).at / MINUTE == minute then Tokens(Last(log)) else 0
  }

  /** ...and of those that were charged in an earlier one. */
  function LateInto(log: seq<LogEntry>, minute: int): nat {
    if log == [] then 0
    else
      LateInto(Front(log), minute)
      + if Last(log).Publish? && Last(log).at / MINUTE == minute && ChargeMinute(Last(log)) != minute
        then Tokens(Last(log)) else 0
  }

  lemma {:induction false} DeliveredOnTimeOrLate(log: seq<LogEntry>, minute: int)
    ensures DeliveredIn(log, minute) <= InMinute(log, Publishes, minute) + LateInto(log, minute)
  {
    if log != [] {
      DeliveredOnTimeOrLate(Front(log), minute);
    }
  }

  lemma {:induction false} NothingDeliveredAhead(log: seq<LogEntry>, until: Time, minute: int)
    requires InOrder(log, until) && until / MINUTE < minute
    ensures LateInto(log, minute) == 0
  {
    if log != [] {
      NothingDeliveredAhead(Front(log), if Last(log).Reset? then until else Last(log).at, minute);
    }
  }

  lemma {:induction false} NothingLateBeforeOpenCharge(log: seq<LogEntry>, until: Time, minute: int)
    requires InOrder(log, until) && OpenCharge(log).Some? && ChargeMinute(OpenCharge(log).value) < minute
    ensures LateInto(log, minute) == 0
  {
    if Last(log).Reset? {
      NothingLateBeforeOpenCharge(Front(log), until, minute);
    } else {
      NothingDeliveredAhead(Front(log), Last(log).at, minute);
    }
  }

  /** One message at most is delivered late into a minute. */
  lemma {:induction false} LateIsOneMessage(log: seq<LogEntry>, until: Time, minute: int, bound: nat)
    requires WellPaid(log) && InOrder(log, until) && forall e | e in log && e.Charge? :: e.tokens <= bound
    ensures LateInto(log, minute) <= bound
  {
    if log != [] {
      var e := Last(log);
      assert forall x | x in Front(log) :: x in log;
      LateIsOneMessage(Front(log), if e.Reset? then until else e.at, minute, bound);
      if e.Publish? && e.tokens > 0 && e.at / MINUTE == minute && ChargeMinute(e) != minute {
        NothingLateBeforeOpenCharge(Front(log), e.at, minute);
        OpenChargeIsLogged(Front(log));
      }
    }
  }

  /** By the time of delivery, in every interleaving from a fresh Keeper: a clock minute sees no more than the
      minute budget and the tokens of the one message that was charged in an earlier minute; so never more than
      twice the budget. */
  lemma MinuteSeesOneLateMessage(perRequest: int, perSession: int, perMinute: int, maxSize: nat, start: Time,
                                 run: seq<Event>, minute: int)
    requires perMinute > 0
    ensures var tracker := NewTracker(perRequest, perSession, perMinute, start);
            var log := Run(Fresh(Some(tracker), maxSize, start), run).books.log;
            DeliveredIn(log, minute) <= perMinute + LateInto(log, minute) && LateInto(log, minute) <= perMinute
  {
    var s := Fresh(Some(NewTracker(perRequest, perSession, perMinute, start)), maxSize, start);
    assert Sound(s) && Queued(s);
    RunKeepsSound(s, run);
    RunKeepsConfiguration(s, run);
    var end := Run(s, run);
    SoundIsBounded(end);
    DeliveredOnTimeOrLate(end.books.log, minute);
    LateIsOneMessage(end.books.log, end.books.clock, minute, perMinute);
  }

  // ----- Which minutes keep to the budget -----

  /** From here on every clock reading is at `start` or later. */
  ghost predicate ReadsFrom(run: seq<Event>, start: Time) {
    forall e | e in run :: e.Try? || e.Deliver? ==> e.now >= start
  }

  lemma ReadsFromTwice(a: seq<Event>, b: seq<Event>, start: Time)
    requires ReadsFrom(a, start) && ReadsFrom(b, start)
    ensures ReadsFrom(a + b, start)
  {
    forall e | e in a + b ensures e in a || e in b {}
  }

  /** In every continuation in which the minute has begun, its deliveries stay within the budget. */
  ghost predicate KeepsTo(s: State, minute: int, budget: int) {
    forall run | ReadsFrom(run, minute * MINUTE) :: DeliveredIn(Run(s, run).books.log, minute) <= budget
  }

  /** Nothing was delivered late into the minute, and nothing that was charged before it is still under way. */
  ghost predicate OnTime(log: seq<LogEntry>, minute: int) {
    LateInto(log, minute) == 0 && (OpenCharge(log).Some? ==> ChargeMinute(OpenCharge(log).value) >= minute)
  }

  /** A step adds one entry at most, and dates it by its own clock reading or later. */
  lemma EntryIsDated(s: State, e: Event, start: Time)
    requires e.Try? || e.Deliver? ==> e.now >= start
    ensures var log, log' := s.books.log, Step(s, e).books.log;
            log' == log || (log' != [] && Front(log') == log && (Last(log').Reset? || Last(log').at >= start))
  {
    var log, log' := s.books.log, Step(s, e).books.log;
    if log' != log {
      assert Front(log') == log;
    }
  }

  lemma SoundIsWellPaid(s: State)
    requires Sound(s) && s.books.tracker.Some?
    ensures WellPaid(s.books.log) && InOrder(s.books.log, s.books.clock)
  {}

  lemma StepKeepsOnTime(s: State, e: Event, minute: int)
    requires Sound(s) && Queued(s) && s.books.tracker.Some? && OnTime(s.books.log, minute)
    requires e.Try? || e.Deliver? ==> e.now >= minute * MINUTE
    ensures OnTime(Step(s, e).books.log, minute)
  {
    EntryIsDated(s, e, minute * MINUTE);
    StepKeepsSound(s, e);
    StepKeepsConfiguration(s, e);
    SoundIsWellPaid(Step(s, e));
    if Step(s, e).books.log != s.books.log {
      PendingIsOnTime(Step(s, e).books.log, minute);
    }
  }

  lemma PendingIsOnTime(log: seq<LogEntry>, minute: int)
    requires log != [] && WellPaid(log) && OnTime(Front(log), minute)
    requires !Last(log).Reset? ==> Last(log).at >= minute * MINUTE
    requires Last(log).Publish? || Last(log).Lost? ==> Last(log).chargedAt <= Last(log).at
    ensures OnTime(log, minute)
  {}

  lemma {:induction false} RunKeepsOnTime(s: State, run: seq<Event>, minute: int)
    requires Sound(s) && Queued(s) && s.books.tracker.Some? && OnTime(s.books.log, minute)
    requires ReadsFrom(run, minute * MINUTE)
    ensures OnTime(Run(s, run).books.log, minute)
    decreases |run|
  {
    if run != [] {
      assert run[0] in run && forall e | e in run[1..] :: e in run;
      StepKeepsOnTime(s, run[0], minute);
      StepKeepsSound(s, run[0]);
      StepKeepsConfiguration(s, run[0]);
      RunKeepsOnTime(Step(s, run[0]), run[1..], minute);
    }
  }

  /** What the tracker has charged in the minute. */
  function ChargedIn(t: Tracker, minute: int): int {
    if t.minuteWindow < minute then 0 else t.minuteTokens
  }

  /** Between a reset and the next charge the session budget has room for one token. */
  lemma OneTokenFits(t: Tracker, now: Time)
    requires t.sessionTokens == 0 && t.minuteWindow <= now / MINUTE
    requires t.perMinute > 0 && ChargedIn(t, now / MINUTE) < t.perMinute
    ensures var (t', verdict) := RecordStep(t, now, 1);
            verdict == Charged && ChargedIn(t', now / MINUTE) == ChargedIn(t, now / MINUTE) + 1
  {}

  lemma OneMoreIsDelivered(s: State, q: QueuedMessage, now: Time)
    requires s.publisher == Ready(q) && q.attempts == 0 && TokenCount(q) == 1 && now == s.books.clock
    requires s.books.tracker.Some? && RecordStep(s.books.tracker.value, now, 1).1 == Charged
    ensures var s' := Step(Step(s, Event.Try(now, true, true)), Event.Deliver(now, true));
            && s'.publisher == Idle && s'.queue == s.queue && s'.maxSize == s.maxSize && s'.books.clock == now
            && s'.books.tracker == Some(RecordStep(s.books.tracker.value, now, 1).0)
            && DeliveredIn(s'.books.log, now / MINUTE) == DeliveredIn(s.books.log, now / MINUTE) + 1
  {
    var s1 := Step(s, Event.Try(now, true, true));
    var s2 := Step(s1, Event.Deliver(now, true));
    assert Front(s1.books.log) == s.books.log && Front(s2.books.log) == s1.books.log;
  }

  /** A reset, and one token more goes out within the same minute. */
  lemma RoundWithReset(s: State) returns (run: seq<Event>)
    requires Sound(s) && s.publisher == Idle && s.queue == [] && s.maxSize > 0 && s.books.tracker.Some?
    requires var t := s.books.tracker.value; t.perMinute > 0 && ChargedIn(t, s.books.clock / MINUTE) < t.perMinute
    ensures ReadsFrom(run, s.books.clock)
    ensures var s', minute := Run(s, run), s.books.clock / MINUTE;
            && s'.publisher == Idle && s'.queue == [] && s'.books.tracker.Some? && s'.books.clock == s.books.clock
            && ChargedIn(s'.books.tracker.value, minute) == ChargedIn(s.books.tracker.value, minute) + 1
            && DeliveredIn(s'.books.log, minute) == DeliveredIn(s.books.log, minute) + 1
  {
    var now, reset := s.books.clock, Other(SessionReset);
    var s0 := Step(s, reset);
    var round := [Other(Offered(ONE_TOKEN)), Take, Event.Try(now, true, true), Event.Deliver(now, true)];
    assert Front(s0.books.log) == s.books.log;
    RunOne(s, reset);
    RunOfFour(s0, round[0], round[1], round[2], round[3]);
    RunTwice(s, [reset], round);
    run := [reset] + round;
    OfferAndTake(s0, ONE_TOKEN);
    TokenCountIsReadBack(map[], 1);
    OneTokenFits(s0.books.tracker.value, now);
    OneMoreIsDelivered(Step(Step(s0, round[0]), Take), QueuedMessage(ONE_TOKEN, 0, 0), now);
  }

  lemma {:induction false} FillMinute(s: State, tokens: nat) returns (run: seq<Event>)
    requires Sound(s) && Queued(s) && s.publisher == Idle && s.queue == [] && s.maxSize > 0 && s.books.tracker.Some?
    requires var t := s.books.tracker.value;
             t.perMinute > 0 && ChargedIn(t, s.books.clock / MINUTE) + tokens <= t.perMinute
    ensures ReadsFrom(run, s.books.clock)
    ensures var minute := s.books.clock / MINUTE;
            DeliveredIn(Run(s, run).books.log, minute) == DeliveredIn(s.books.log, minute) + tokens
    decreases tokens
  {
    run := [];
    if tokens > 0 {
      var round := RoundWithReset(s);
      var s' := Run(s, round);
      RunKeepsSound(s, round);
      RunKeepsConfiguration(s, round);
      var rest := FillMinute(s', tokens - 1);
      RunTwice(s, round, rest);
      ReadsFromTwice(round, rest, s.books.clock);
      run := round + rest;
    }
  }

  lemma {:induction false} NothingDeliveredYet(log: seq<LogEntry>, until: Time, minute: int)
    requires InOrder(log, until) && until / MINUTE < minute
    ensures DeliveredIn(log, minute) == 0
  {
    if log != [] {
      NothingDeliveredYet(Front(log), if Last(log).Reset? then until else Last(log).at, minute);
    }
  }

  /** Tokens under way are those of the message being sent, and the minute counter is of an earlier minute. */
  lemma UnderWay(s: State, minute: int)
    requires Sound(s) && s.books.tracker.Some? && s.books.clock / MINUTE < minute && Pending(s.books.log) > 0
    ensures s.publisher.Sending? && s.publisher.tokens == Pending(s.books.log)
    ensures ChargedIn(s.books.tracker.value, minute) == 0
  {}

  lemma DeliversAt(s: State, minute: int)
    requires s.publisher.Sending? && s.publisher.tokens > 0 && s.books.clock / MINUTE < minute
    ensures var s' := Step(s, Event.Deliver(minute * MINUTE, true));
            && s'.publisher == Idle && s'.queue == s.queue && s'.maxSize == s.maxSize
            && s'.books.tracker == s.books.tracker && s'.books.clock == minute * MINUTE
            && DeliveredIn(s'.books.log, minute) == DeliveredIn(s.books.log, minute) + s.publisher.tokens
  {
    var s' := Step(s, Event.Deliver(minute * MINUTE, true));
    assert s.books.clock < minute * MINUTE;
    assert Front(s'.books.log) == s.books.log;
  }

  /** The message under way is the first to be delivered in the minute. */
  lemma LateDelivery(s: State, minute: int)
    requires Sound(s) && Queued(s) && s.books.tracker.Some?
    requires s.books.clock / MINUTE < minute && Pending(s.books.log) > 0
    ensures var s' := Step(s, Event.Deliver(minute * MINUTE, true));
            && Sound(s') && Queued(s') && s'.publisher == Idle && s'.queue == s.queue && s'.maxSize == s.maxSize
            && s'.books.tracker == s.books.tracker && s'.books.clock == minute * MINUTE
            && ChargedIn(s'.books.tracker.value, minute) == 0
            && DeliveredIn(s'.books.log, minute) == Pending(s.books.log)
  {
    UnderWay(s, minute);
    DeliversAt(s, minute);
    StepKeepsSound(s, Event.Deliver(minute * MINUTE, true));
    SoundIsWellPaid(s);
    NothingDeliveredYet(s.books.log, s.books.clock, minute);
  }

  /** The queue can be emptied without a charge and at one clock reading. */
  lemma DrainNow(s: State) returns (run: seq<Event>)
    requires Sound(s) && Queued(s) && s.publisher == Idle
    ensures ReadsFrom(run, s.books.clock)
    ensures var s' := Run(s, run);
            && Sound(s') && Queued(s') && s'.publisher == Idle && s'.queue == [] && s'.maxSize == s.maxSize
            && s'.books == s.books
  {
    run := Drain(s);
    RunKeepsSound(s, run);
  }

  lemma LateDeliveryAndDrain(s: State, minute: int) returns (run: seq<Event>)
    requires Sound(s) && Queued(s) && s.books.tracker.Some?
    requires s.books.clock / MINUTE < minute && Pending(s.books.log) > 0
    ensures ReadsFrom(run, minute * MINUTE)
    ensures var s' := Run(s, run);
            && Sound(s') && Queued(s') && s'.publisher == Idle && s'.queue == [] && s'.maxSize == s.maxSize
            && s'.books.tracker == s.books.tracker
            && s'.books.clock == minute * MINUTE && s'.books.clock / MINUTE == minute
            && ChargedIn(s'.books.tracker.value, minute) == 0
            && DeliveredIn(s'.books.log, minute) == Pending(s.books.log)
  {
    var deliver := Event.Deliver(minute * MINUTE, true);
    LateDelivery(s, minute);
    RunOne(s, deliver);
    var drain := DrainNow(Step(s, deliver));
    RunTwice(s, [deliver], drain);
    ReadsFromTwice([deliver], drain, minute * MINUTE);
    run := [deliver] + drain;
  }

  /** With a charged message under way when the minute begins, that message and a whole minute budget can be delivered
      in it. */
  lemma LateAndWholeBudget(s: State, minute: int) returns (run: seq<Event>)
    requires Sound(s) && Queued(s) && s.maxSize > 0 && s.books.tracker.Some? && s.books.tracker.value.perMinute > 0
    requires s.books.clock / MINUTE < minute && Pending(s.books.log) > 0
    ensures ReadsFrom(run, minute * MINUTE)
    ensures DeliveredIn(Run(s, run).books.log, minute) == Pending(s.books.log) + s.books.tracker.value.perMinute
  {
    var late := LateDeliveryAndDrain(s, minute);
    var fill := FillMinute(Run(s, late), s.books.tracker.value.perMinute);
    RunTwice(s, late, fill);
    ReadsFromTwice(late, fill, minute * MINUTE);
    run := late + fill;
  }

  /** A minute that is about to begin keeps to its budget, whatever happens from then on, if and only if no charged
      message is under way at its beginning. */
  lemma MinuteIsSafeExactlyWhen(s: State, minute: int)
    requires Sound(s) && Queued(s) && s.maxSize > 0 && s.books.tracker.Some? && s.books.tracker.value.perMinute > 0
    requires s.books.clock / MINUTE < minute
    ensures KeepsTo(s, minute, s.books.tracker.value.perMinute) <==> Pending(s.books.log) == 0
  {
    var budget := s.books.tracker.value.perMinute;
    if Pending(s.books.log) == 0 {
      forall run | ReadsFrom(run, minute * MINUTE) ensures DeliveredIn(Run(s, run).books.log, minute) <= budget {
        NothingDeliveredAhead(s.books.log, s.books.clock, minute);
        OpenChargeIsLogged(s.books.log);
        RunKeepsOnTime(s, run, minute);
        RunKeepsSound(s, run);
        RunKeepsConfiguration(s, run);
        SoundIsBounded(Run(s, run));
        DeliveredOnTimeOrLate(Run(s, run).books.log, minute);
      }
    } else {
      var run := LateAndWholeBudget(s, minute);
    }
  }

  /** The bound is reached: from a fresh Keeper, for every minute budget that a message can ask for, some run delivers
      twice the budget in the minute after the first. */
  lemma TwiceTheBudgetIsReached(perMinute: int, maxSize: nat, start: Time) returns (run: seq<Event>)
    requires 0 < perMinute <= Decimal.MAX_INT64 && maxSize > 0
    ensures var s := Fresh(Some(NewTracker(0, 0, perMinute, start)), maxSize, start);
            DeliveredIn(Run(s, run).books.log, start / MINUTE + 1) == 2 * perMinute
  {
    var s := Fresh(Some(NewTracker(0, 0, perMinute, start)), maxSize, start);
    var msg := Message("", map["token-count" := Decimal.FormatInt(perMinute)]);
    var (offer, charge) := (Other(Offered(msg)), Event.Try(start, true, true));
    TokenCountIsReadBack(map[], perMinute);
    OfferAndTake(s, msg);
    var s1 := Step(Step(s, offer), Take);
    var s2 := Step(s1, charge);
    assert Last(s2.books.log) == Charge("", perMinute, start);
    RunOne(s, offer);
    RunOne(Step(s, offer), Take);
    RunOne(s1, charge);
    RunTwice(s, [offer], [Take]);
    RunTwice(s, [offer] + [Take], [charge]);
    var begun := [offer] + [Take] + [charge];
    assert Sound(s) && Queued(s);
    RunKeepsSound(s, begun);
    RunKeepsConfiguration(s, begun);
    var rest := LateAndWholeBudget(s2, start / MINUTE + 1);
    RunTwice(s, begun, rest);
    run := begun + rest;
  }
}
