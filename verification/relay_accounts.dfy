/** What every interleaving of the outbound relay keeps: messages and tokens are accounted for, and the budgets
    bound what is published, up to what is under way when a session is reset or a minute ends. */
module RelayAccounts {
  import opened Wrappers
  import opened TokenBudget
  import opened Relay

  // ----- Sums over the log -----

  datatype Kind = Charges | Publishes | Losses

  predicate Is(e: LogEntry, kind: Kind) {
    match kind
    case Charges => e.Charge?
    case Publishes => e.Publish?
    case Losses => e.Lost?
  }

  function Front(log: seq<LogEntry>): seq<LogEntry>
    requires log != []
  {
    log[..|log| - 1]
  }

  function Last(log: seq<LogEntry>): LogEntry
    requires log != []
  {
    log[|log| - 1]
  }

  function Tokens(e: LogEntry): nat {
    if !e.Reset? && e.tokens > 0 then e.tokens else 0
  }

  /** The clock minute in which the tokens of an entry were charged. */
  function ChargeMinute(e: LogEntry): int {
    match e
    case Charge(_, _, at) => at / MINUTE
    case Publish(_, _, _, chargedAt) => chargedAt / MINUTE
    case Lost(_, _, _, chargedAt) => chargedAt / MINUTE
    case Reset => 0
  }

  function All(log: seq<LogEntry>, kind: Kind): nat {
    if log == [] then 0 else All(Front(log), kind) + if Is(Last(log), kind) then Tokens(Last(log)) else 0
  }

  /** Since the last reset. */
  function InSession(log: seq<LogEntry>, kind: Kind): nat {
    if log == [] || Last(log) == Reset then 0
    else InSession(Front(log), kind) + if Is(Last(log), kind) then Tokens(Last(log)) else 0
  }

  /** Of the tokens charged in one clock minute. */
  function InMinute(log: seq<LogEntry>, kind: Kind, minute: int): nat {
    if log == [] then 0
    else
      InMinute(Front(log), kind, minute)
      + if Is(Last(log), kind) && ChargeMinute(Last(log)) == minute then Tokens(Last(log)) else 0
  }

  function Count(log: seq<LogEntry>, kind: Kind): nat {
    if log == [] then 0 else Count(Front(log), kind) + if Is(Last(log), kind) then 1 else 0
  }

  function PublishedIds(log: seq<LogEntry>): seq<string> {
    if log == [] then [] else PublishedIds(Front(log)) + if Last(log).Publish? then [Last(log).id] else []
  }

  /** The charge that no publish or failed delivery has followed yet, if there is one. */
  function OpenCharge(log: seq<LogEntry>): Option<LogEntry> {
    if log == [] then None
    else if Last(log).Reset? then OpenCharge(Front(log))
    else if Last(log).Charge? then Some(Last(log))
    else None
  }

  function Pending(log: seq<LogEntry>): nat {
    if OpenCharge(log).Some? then Tokens(OpenCharge(log).value) else 0
  }

  function PendingIn(log: seq<LogEntry>, minute: int): nat {
    if OpenCharge(log).Some? && ChargeMinute(OpenCharge(log).value) == minute then Pending(log) else 0
  }

  /** Tokens charged but not yet delivered at the moment of the last reset. */
  function PendingAtReset(log: seq<LogEntry>): nat {
    if log == [] then 0 else if Last(log).Reset? then Pending(log) else PendingAtReset(Front(log))
  }

  /** An entry may follow a log: tokens are published or lost only on their own charge, and one charge is open at
      most. */
  predicate Fits(log: seq<LogEntry>, e: LogEntry) {
    match e
    case Reset => true
    case Charge(_, tokens, _) => tokens > 0 && OpenCharge(log) == None
    case Publish(id, tokens, _, chargedAt) =>
      OpenCharge(log) == if tokens > 0 then Some(Charge(id, tokens, chargedAt)) else None
    case Lost(id, tokens, _, chargedAt) =>
      OpenCharge(log) == if tokens > 0 then Some(Charge(id, tokens, chargedAt)) else None
  }

  predicate WellPaid(log: seq<LogEntry>) {
    log == [] || (WellPaid(Front(log)) && Fits(Front(log), Last(log)))
  }

  /** Token conservation: what was charged has been published, lost in a failed delivery, or is still under way; in all,
      by minute of the charge, and since the last reset together with what was under way then. So what is charged beyond
      what is published is exactly what failed deliveries lost. */
  lemma {:induction false} PublishedIsCharged(log: seq<LogEntry>, minute: int)
    requires WellPaid(log)
    ensures All(log, Publishes) + All(log, Losses) + Pending(log) == All(log, Charges)
    ensures InMinute(log, Publishes, minute) + InMinute(log, Losses, minute) + PendingIn(log, minute)
            == InMinute(log, Charges, minute)
    ensures InSession(log, Publishes) + InSession(log, Losses) + Pending(log)
            == InSession(log, Charges) + PendingAtReset(log)
  {
    if log != [] {
      PublishedIsCharged(Front(log), minute);
    }
  }

  /** Every publish of tokens has its charge in the log. */
  lemma {:induction false} PublishHasCharge(log: seq<LogEntry>, e: LogEntry)
    requires WellPaid(log) && e in log && e.Publish? && e.tokens > 0
    ensures Charge(e.id, e.tokens, e.chargedAt) in log
  {
    if e == Last(log) {
      OpenChargeIsLogged(Front(log));
      assert forall x | x in Front(log) :: x in log;
    } else {
      assert e in Front(log);
      PublishHasCharge(Front(log), e);
    }
  }

  lemma {:induction false} OpenChargeIsLogged(log: seq<LogEntry>)
    ensures OpenCharge(log).Some? ==> OpenCharge(log).value in log && OpenCharge(log).value.Charge?
  {
    if log != [] && Last(log).Reset? {
      OpenChargeIsLogged(Front(log));
    }
  }

  // ----- The tracker covers the log -----

  /** The tracker never charges past a budget, and its counters cover what the log says was charged. */
  ghost predicate Covered(t: Tracker, clock: Time, log: seq<LogEntry>) {
    && (t.perSession > 0 ==> InSession(log, Charges) == t.sessionTokens <= t.perSession)
    && (t.perMinute > 0 ==>
          && InMinute(log, Charges, t.minuteWindow) <= t.minuteTokens <= t.perMinute
          && (forall m :: InMinute(log, Charges, m) <= t.perMinute)
          && (forall m | m > t.minuteWindow :: InMinute(log, Charges, m) == 0))
    && t.minuteWindow <= clock / MINUTE
    && (t.perRequest > 0 ==> forall e | e in log && e.Charge? :: e.tokens <= t.perRequest)
    && (t.perSession > 0 ==> forall e | e in log && e.Charge? :: e.tokens <= t.perSession)
    && (t.perMinute > 0 ==> forall e | e in log && e.Charge? :: e.tokens <= t.perMinute)
  }

  /** Times in the log never go back, nor does a delivery precede its charge. */
  predicate InOrder(log: seq<LogEntry>, until: Time) {
    log == [] ||
    if Last(log).Reset? then InOrder(Front(log), until)
    else
      && Last(log).at <= until && InOrder(Front(log), Last(log).at)
      && (Last(log).Charge? || Last(log).chargedAt <= Last(log).at)
  }

  lemma {:induction false} InOrderLater(log: seq<LogEntry>, until: Time, later: Time)
    requires InOrder(log, until) && until <= later
    ensures InOrder(log, later)
  {
    if log != [] && Last(log).Reset? {
      InOrderLater(Front(log), until, later);
    }
  }

  /** The open charge is the publisher's. */
  predicate Tied(log: seq<LogEntry>, publisher: Publisher) {
    OpenCharge(log) == if publisher.Sending? && publisher.tokens > 0
                       then Some(Charge(publisher.q.msg.id, publisher.tokens, publisher.chargedAt)) else None
  }

  ghost predicate Balanced(b: Books, publisher: Publisher) {
    b.tracker.Some? ==>
      && Covered(b.tracker.value, b.clock, b.log) && WellPaid(b.log) && InOrder(b.log, b.clock)
      && Tied(b.log, publisher)
      && (publisher.Sending? ==> publisher.chargedAt <= b.clock)
  }

  function Appended(log: seq<LogEntry>, e: LogEntry): (log': seq<LogEntry>)
    ensures log' != [] && Front(log') == log && Last(log') == e
    ensures forall x :: x in log' <==> x in log || x == e
  {
    log + [e]
  }

  lemma TickKeepsBalance(s: State, now: Time)
    requires Balanced(s.books, s.publisher)
    ensures Balanced(Tick(s, now).books, s.publisher)
  {
    if s.books.tracker.Some? {
      InOrderLater(s.books.log, s.books.clock, Tick(s, now).books.clock);
    }
  }

  /** A verdict other than Charged leaves the books covered; the log is as it was. */
  lemma RecordKeepsCovered(t: Tracker, now: Time, log: seq<LogEntry>, tokens: int)
    requires Covered(t, now, log) && tokens > 0
    ensures RecordStep(t, now, tokens).1 != Charged ==> Covered(RecordStep(t, now, tokens).0, now, log)
  {}

  lemma ChargeIsCovered(t: Tracker, now: Time, log: seq<LogEntry>, id: string, tokens: int)
    requires Covered(t, now, log) && tokens > 0 && RecordStep(t, now, tokens).1 == Charged
    ensures Covered(RecordStep(t, now, tokens).0, now, log + [Charge(id, tokens, now)])
  {
    var log' := Appended(log, Charge(id, tokens, now));
    forall m
      ensures InMinute(log', Charges, m) == InMinute(log, Charges, m) + if now / MINUTE == m then tokens else 0
    {}
  }

  lemma TryKeepsBalance(s: State, q: QueuedMessage, tokens: int, now: Time, encodes: bool, valid: bool)
    requires Balanced(s.books, s.publisher) && !s.publisher.Sending?
    ensures var s' := TryStep(s, q, tokens, now, encodes, valid); Balanced(s'.books, s'.publisher)
  {
    TickKeepsBalance(s, now);
    var s1 := Tick(s, now);
    if s.books.tracker.Some? && tokens > 0 {
      var t, clock, log := s1.books.tracker.value, s1.books.clock, s1.books.log;
      RecordKeepsCovered(t, clock, log, tokens);
      if RecordStep(t, clock, tokens).1 == Charged {
        ChargeIsCovered(t, clock, log, q.msg.id, tokens);
        assert Appended(log, Charge(q.msg.id, tokens, clock)) == log + [Charge(q.msg.id, tokens, clock)];
      }
    }
  }

  lemma OtherEntryIsCovered(t: Tracker, now: Time, log: seq<LogEntry>, e: LogEntry)
    requires Covered(t, now, log) && (e.Publish? || e.Lost?)
    ensures Covered(t, now, log + [e])
  {
    var log' := Appended(log, e);
    forall m ensures InMinute(log', Charges, m) == InMinute(log, Charges, m) {}
  }

  lemma DeliverKeepsBalance(s: State, now: Time, delivered: bool)
    requires Balanced(s.books, s.publisher) && s.publisher.Sending?
    ensures var s' := Step(s, Deliver(now, delivered)); Balanced(s'.books, s'.publisher)
  {
    TickKeepsBalance(s, now);
    var s1, id := Tick(s, now), s.publisher.q.msg.id;
    if s.books.tracker.Some? {
      var tokens, clock, chargedAt := s.publisher.tokens, s1.books.clock, s.publisher.chargedAt;
      var e := if delivered then Publish(id, tokens, clock, chargedAt) else Lost(id, tokens, clock, chargedAt);
      OtherEntryIsCovered(s1.books.tracker.value, clock, s1.books.log, e);
      assert Appended(s1.books.log, e) == s1.books.log + [e];
    }
  }

  lemma ResetKeepsBalance(s: State)
    requires Balanced(s.books, s.publisher)
    ensures Balanced(ResetStep(s).books, s.publisher)
  {
    if s.books.tracker.Some? {
      var log' := Appended(s.books.log, Reset);
      forall m ensures InMinute(log', Charges, m) == InMinute(s.books.log, Charges, m) {}
    }
  }

  // ----- Messages -----

  /** The IDs of the messages that ended as published, in the order they were taken. */
  function Delivered(taken: seq<Message>, outcomes: seq<Outcome>): seq<string>
    requires |outcomes| <= |taken|
    decreases |outcomes|
  {
    if outcomes == [] then []
    else
      var n := |outcomes| - 1;
      Delivered(taken, outcomes[..n]) + if outcomes[n] == Published then [taken[n].id] else []
  }

  function Waiting(queue: seq<QueuedMessage>): seq<Message> {
    seq(|queue|, i requires 0 <= i < |queue| => queue[i].msg)
  }

  function InHand(publisher: Publisher): seq<Message> {
    if publisher.Ready? || publisher.Sending? then [publisher.q.msg] else []
  }

  /** Attempts of the message in hand that have been charged. */
  function Used(publisher: Publisher): nat {
    if publisher.Ready? then publisher.q.attempts else if publisher.Sending? then publisher.q.attempts + 1 else 0
  }

  /** Every message accepted has been dealt with, is in hand, or waits, in that order; those published are those whose
      outcome says so; and no message has been charged more often than it has been attempted. */
  ghost predicate Handled(s: State) {
    && |s.queue| <= s.maxSize
    && |s.outcomes| <= |s.taken|
    && s.taken[|s.outcomes|..] == InHand(s.publisher)
    && s.accepted == s.taken + Waiting(s.queue)
    && PublishedIds(s.books.log) == Delivered(s.taken, s.outcomes)
    && Used(s.publisher) <= MAX_RETRIES
    && Count(s.books.log, Charges) <= MAX_RETRIES * |s.outcomes| + Used(s.publisher)
  }

  ghost predicate Sound(s: State) {
    Balanced(s.books, s.publisher) && Handled(s)
  }

  lemma {:induction false} DeliveredOfLonger(taken: seq<Message>, more: seq<Message>, outcomes: seq<Outcome>)
    requires |outcomes| <= |taken|
    ensures Delivered(taken + more, outcomes) == Delivered(taken, outcomes)
    decreases |outcomes|
  {
    if outcomes != [] {
      DeliveredOfLonger(taken, more, outcomes[..|outcomes| - 1]);
    }
  }

  lemma FinishedMessage(taken: seq<Message>, outcomes: seq<Outcome>, outcome: Outcome)
    requires |outcomes| < |taken|
    ensures Delivered(taken, outcomes + [outcome])
            == Delivered(taken, outcomes) + if outcome == Published then [taken[|outcomes|].id] else []
  {
    assert (outcomes + [outcome])[..|outcomes|] == outcomes;
  }

  lemma TakeKeepsHandled(s: State)
    requires Handled(s) && Queued(s)
    ensures Handled(TakeStep(s))
  {
    if s.publisher == Idle && s.queue != [] {
      var msg := s.queue[0].msg;
      DeliveredOfLonger(s.taken, [msg], s.outcomes);
      assert Waiting(s.queue) == [msg] + Waiting(s.queue[1..]);
      assert s.taken[|s.outcomes|..] == [] && (s.taken + [msg])[|s.outcomes|..] == [msg];
    }
  }

  lemma QuitKeepsHandled(s: State)
    requires Handled(s)
    ensures Handled(QuitStep(s))
  {
    if s.publisher.Ready? {
      FinishedMessage(s.taken, s.outcomes, Cancelled);
    }
  }

  /** Ending the message in hand, with log entries that go with its outcome. */
  lemma FinishKeepsHandled(s: State, s': State, outcome: Outcome)
    requires Handled(s) && (s.publisher.Ready? || s.publisher.Sending?)
    requires s' == s.(books := s'.books, publisher := Idle, outcomes := s.outcomes + [outcome])
    requires PublishedIds(s'.books.log)
             == PublishedIds(s.books.log) + if outcome == Published then [s.publisher.q.msg.id] else []
    requires Count(s'.books.log, Charges) == Count(s.books.log, Charges)
    ensures Handled(s')
  {
    FinishedMessage(s.taken, s.outcomes, outcome);
    assert s.taken[|s.outcomes|..][0] == s.taken[|s.outcomes|];
  }

  /** Going on with the message in hand, with charges that go with its attempts. */
  lemma GoOnKeepsHandled(s: State, s': State)
    requires Handled(s) && s' == s.(books := s'.books, publisher := s'.publisher)
    requires InHand(s'.publisher) == InHand(s.publisher) && Used(s'.publisher) <= MAX_RETRIES
    requires PublishedIds(s'.books.log) == PublishedIds(s.books.log)
    requires Count(s'.books.log, Charges) - Count(s.books.log, Charges) <= Used(s'.publisher) - Used(s.publisher)
    ensures Handled(s')
  {}

  /** An attempt that goes on to publishing has charged at most once, any other not at all. */
  lemma TryCharges(s: State, tokens: int, now: Time, encodes: bool, valid: bool)
    requires s.publisher.Ready?
    ensures var log, s' := s.books.log, TryStep(s, s.publisher.q, tokens, now, encodes, valid);
            && PublishedIds(s'.books.log) == PublishedIds(log)
            && Count(log, Charges) <= Count(s'.books.log, Charges)
               <= Count(log, Charges) + if s'.publisher.Sending? then 1 else 0
  {
    var log' := TryStep(s, s.publisher.q, tokens, now, encodes, valid).books.log;
    if log' != s.books.log {
      assert Appended(s.books.log, Last(log')) == log';
    }
  }

  lemma TryKeepsHandled(s: State, tokens: int, now: Time, encodes: bool, valid: bool)
    requires Handled(s) && s.publisher.Ready? && s.publisher.q.attempts < MAX_RETRIES
    ensures Handled(TryStep(s, s.publisher.q, tokens, now, encodes, valid))
  {
    TryCharges(s, tokens, now, encodes, valid);
    var s' := TryStep(s, s.publisher.q, tokens, now, encodes, valid);
    if s'.publisher.Idle? {
      FinishKeepsHandled(s, s', s'.outcomes[|s.outcomes|]);
    } else {
      GoOnKeepsHandled(s, s');
    }
  }

  lemma DeliverKeepsHandled(s: State, now: Time, delivered: bool)
    requires Handled(s) && s.publisher.Sending?
    ensures Handled(Step(s, Deliver(now, delivered)))
  {
    var s' := Step(s, Deliver(now, delivered));
    assert Appended(s.books.log, Last(s'.books.log)) == s'.books.log;
    if s'.publisher.Idle? {
      FinishKeepsHandled(s, s', s'.outcomes[|s.outcomes|]);
    }
  }

  lemma OfferKeepsHandled(s: State, msg: Message)
    requires Handled(s)
    ensures Handled(Interrupt(s, Offered(msg)))
  {
    assert Waiting(s.queue + [QueuedMessage(msg, 0, 0)]) == Waiting(s.queue) + [msg];
  }

  lemma ResetKeepsHandled(s: State)
    requires Handled(s)
    ensures Handled(Interrupt(s, SessionReset))
  {
    if s.books.tracker.Some? {
      assert Appended(s.books.log, Reset) == s.books.log + [Reset];
    }
  }

  lemma InterruptKeepsHandled(s: State, i: Interruption)
    requires Handled(s)
    ensures Handled(Interrupt(s, i))
  {
    match i
    case Offered(msg) => OfferKeepsHandled(s, msg);
    case SessionReset => ResetKeepsHandled(s);
  }

  /** The publisher never holds a message that is out of attempts. */
  predicate HasAttempts(publisher: Publisher) {
    publisher.Ready? || publisher.Sending? ==> publisher.q.attempts < MAX_RETRIES
  }

  ghost predicate Queued(s: State) {
    HasAttempts(s.publisher) && forall q | q in s.queue :: q.attempts == 0
  }

  lemma StepKeepsSound(s: State, e: Event)
    requires Sound(s) && Queued(s)
    ensures Sound(Step(s, e)) && Queued(Step(s, e))
  {
    match e
    case Other(i) =>
      InterruptKeepsHandled(s, i);
      if i == SessionReset {
        ResetKeepsBalance(s);
      }
    case Take => TakeKeepsHandled(s);
    case Quit => QuitKeepsHandled(s);
    case Try(now, encodes, valid) =>
      if s.publisher.Ready? {
        TryKeepsHandled(s, TokenCount(s.publisher.q), now, encodes, valid);
        TryKeepsBalance(s, s.publisher.q, TokenCount(s.publisher.q), now, encodes, valid);
      }
    case Deliver(now, delivered) =>
      if s.publisher.Sending? {
        DeliverKeepsHandled(s, now, delivered);
        DeliverKeepsBalance(s, now, delivered);
      }
  }

  /** In every interleaving: what was accepted is what was taken followed by what waits; the queue respects its
      bound; each message taken is published at most once, in queue order, and charged at most three times. */
  lemma {:induction false} RunKeepsSound(s: State, run: seq<Event>)
    requires Sound(s) && Queued(s)
    ensures Sound(Run(s, run)) && Queued(Run(s, run))
    decreases |run|
  {
    if run != [] {
      StepKeepsSound(s, run[0]);
      RunKeepsSound(Step(s, run[0]), run[1..]);
    }
  }

  predicate SameBudgets(t: Tracker, t': Tracker) {
    t'.perRequest == t.perRequest && t'.perSession == t.perSession && t'.perMinute == t.perMinute
  }

  predicate SameConfiguration(s: State, s': State) {
    && s'.maxSize == s.maxSize
    && (s'.books.tracker.Some? <==> s.books.tracker.Some?)
    && (s.books.tracker.Some? ==> SameBudgets(s.books.tracker.value, s'.books.tracker.value))
  }

  lemma StepKeepsConfiguration(s: State, e: Event)
    ensures SameConfiguration(s, Step(s, e))
  {}

  lemma {:induction false} RunKeepsConfiguration(s: State, run: seq<Event>)
    ensures SameConfiguration(s, Run(s, run))
    decreases |run|
  {
    if run != [] {
      StepKeepsConfiguration(s, run[0]);
      RunKeepsConfiguration(Step(s, run[0]), run[1..]);
    }
  }

  function Fresh(tracker: Option<Tracker>, maxSize: nat, start: Time): State {
    State(maxSize, [], Books(tracker, start, []), Idle, [], [], [])
  }

  /** What the budgets bound, in every interleaving from a fresh Keeper. Since the last reset no more is published than
      the session budget and what was already charged but not yet delivered at that reset, which is itself within the
      budget; of the tokens charged in one clock minute no more than the minute budget; and every message is within the
      request budget and follows its own charge. */
  lemma BudgetsDominatePublishing(perRequest: int, perSession: int, perMinute: int, maxSize: nat, start: Time,
                                  run: seq<Event>)
    ensures var tracker := NewTracker(perRequest, perSession, perMinute, start);
            var log := Run(Fresh(Some(tracker), maxSize, start), run).books.log;
            && (perSession > 0 ==>
                  InSession(log, Publishes) <= perSession + PendingAtReset(log) && PendingAtReset(log) <= perSession)
            && (perMinute > 0 ==> forall minute :: InMinute(log, Publishes, minute) <= perMinute)
            && (perRequest > 0 ==> forall e | e in log && e.Publish? :: e.tokens <= perRequest)
            && WellPaid(log)
  {
    var tracker := NewTracker(perRequest, perSession, perMinute, start);
    var s := Fresh(Some(tracker), maxSize, start);
    assert Sound(s) && Queued(s);
    RunKeepsSound(s, run);
    RunKeepsConfiguration(s, run);
    SoundIsBounded(Run(s, run));
  }

  lemma SoundIsBounded(s: State)
    requires Sound(s) && s.books.tracker.Some?
    ensures var t, log := s.books.tracker.value, s.books.log;
            && (t.perSession > 0 ==>
                  && InSession(log, Publishes) <= t.perSession + PendingAtReset(log)
                  && PendingAtReset(log) <= t.perSession)
            && (t.perMinute > 0 ==> forall minute :: InMinute(log, Publishes, minute) <= t.perMinute)
            && (t.perRequest > 0 ==> forall e | e in log && e.Publish? :: e.tokens <= t.perRequest)
            && WellPaid(log)
  {
    var t, log := s.books.tracker.value, s.books.log;
    PublishedIsCharged(log, 0);
    if t.perSession > 0 {
      PendingAtResetIsACharge(log, t.perSession);
    }
    forall minute ensures InMinute(log, Publishes, minute) <= InMinute(log, Charges, minute) {
      PublishedIsCharged(log, minute);
    }
    forall e | e in log && e.Publish? && e.tokens > 0 ensures Charge(e.id, e.tokens, e.chargedAt) in log {
      PublishHasCharge(log, e);
    }
  }

  lemma {:induction false} PendingAtResetIsACharge(log: seq<LogEntry>, bound: nat)
    requires forall e | e in log && e.Charge? :: e.tokens <= bound
    ensures PendingAtReset(log) <= bound
  {
    if log != [] {
      assert forall e | e in Front(log) :: e in log;
      if Last(log).Reset? {
        OpenChargeIsLogged(log);
      } else {
        PendingAtResetIsACharge(Front(log), bound);
      }
    }
  }
}
