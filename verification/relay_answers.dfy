/** What becomes of a message offered to the outbound relay (internal/keeper/relay.go), in numbers: when it is accepted,
    when it is tried again, what it costs to fail, and what cancelling the relay ends. */
module RelayAnswers {
  import opened Wrappers
  import opened TokenBudget
  import opened Relay
  import opened RelayAccounts

  /** A message is answered `true` if and only if it has been accepted, as the last in the queue; that is, if there is
      room. */
  lemma OfferAnswers(s: State, msg: Message)
    ensures var (s', ok) := EnqueueStep(s, msg);
            && (ok <==> |s.queue| < s.maxSize) && (ok <==> s' != s)
            && (ok ==> s'.accepted == s.accepted + [msg] && |s'.queue| == |s.queue| + 1
                       && s'.queue[..|s.queue|] == s.queue && s'.queue[|s.queue|].msg == msg)
  {
    assert s.accepted + [msg] != s.accepted by { assert |s.accepted + [msg]| == |s.accepted| + 1; }
  }

  /** A first delivery that is lost is tried again 100 ms later, a second one 200 ms later, and a third one gives the
      message up. */
  lemma RetryTimes(s: State, now: Time)
    requires s.publisher.Sending? && s.publisher.q.attempts <= 2
    ensures var s', clock := Step(s, Deliver(now, false)), if s.books.clock < now then now else s.books.clock;
            && s'.books.clock == clock
            && (s.publisher.q.attempts == 0 ==>
                  s'.publisher == Ready(QueuedMessage(s.publisher.q.msg, 1, clock + 100_000_000)))
            && (s.publisher.q.attempts == 1 ==>
                  s'.publisher == Ready(QueuedMessage(s.publisher.q.msg, 2, clock + 200_000_000)))
            && (s.publisher.q.attempts == 2 ==>
                  s'.publisher == Idle && s'.outcomes == s.outcomes + [MaxRetries])
  {
    assert Backoff(1) == 2 * Backoff(0);
  }

  /** Before its retry time a message waits, uncharged; from then on, and at once for the first time, an attempt goes
      ahead. */
  lemma WaitsForItsTime(s: State, now: Time, encodes: bool, valid: bool)
    requires s.publisher.Ready?
    ensures var s', q := Step(s, Event.Try(now, encodes, valid)), s.publisher.q;
            var clock := if s.books.clock < now then now else s.books.clock;
            && s'.books.clock == clock
            && (q.attempts > 0 && clock < q.nextTry <==> s'.publisher == s.publisher)
            && (s'.publisher == s.publisher ==> s' == s.(books := s.books.(clock := clock)))
  {}

  /** A message that cannot be encoded, or is not valid, is dropped without being charged. */
  lemma InvalidIsNotCharged(s: State, now: Time, encodes: bool, valid: bool)
    requires s.publisher.Ready? && (s.publisher.q.attempts == 0 || now >= s.publisher.q.nextTry)
    requires !encodes || !valid
    ensures var s' := Step(s, Event.Try(now, encodes, valid));
            && s'.publisher == Idle && s'.books.tracker == s.books.tracker && s'.books.log == s.books.log
            && s'.outcomes == s.outcomes + [if encodes then ValidationFailed else EncodeFailed]
  {}

  /** A message with a positive count goes out at the first attempt if and only if the tracker charges it; what the
      tracker turns down is dropped with its verdict. */
  lemma SentIfCharged(s: State, now: Time, later: Time)
    requires s.publisher.Ready? && (s.publisher.q.attempts == 0 || now >= s.publisher.q.nextTry)
    requires s.books.tracker.Some? && TokenCount(s.publisher.q) > 0
    ensures var clock := if s.books.clock < now then now else s.books.clock;
            var verdict := RecordStep(s.books.tracker.value, clock, TokenCount(s.publisher.q)).1;
            var tried := Step(s, Event.Try(now, true, true));
            var sent := Step(tried, Event.Deliver(later, true));
            if verdict == Charged
            then PublishedIds(sent.books.log) == PublishedIds(s.books.log) + [s.publisher.q.msg.id]
            else tried.publisher == Idle && tried.outcomes == s.outcomes + [BudgetExceeded(verdict)]
                 && tried.books.log == s.books.log
  {
    var tried := Step(s, Event.Try(now, true, true));
    if tried.publisher.Sending? {
      assert Front(tried.books.log) == s.books.log;
      assert Front(Step(tried, Event.Deliver(later, true)).books.log) == tried.books.log;
    }
  }

  /** Once the publisher has noticed that the relay is cancelled, nothing is sent any more; a message that is already
      being sent is not stopped. */
  lemma {:induction false} NothingAfterCancellation(s: State, run: seq<Event>)
    requires s.publisher == Gone
    ensures var s' := Run(s, run);
            s'.publisher == Gone && s'.taken == s.taken && s'.outcomes == s.outcomes
            && PublishedIds(s'.books.log) == PublishedIds(s.books.log)
    decreases |run|
  {
    if run != [] {
      var s1 := Step(s, run[0]);
      if s1.books.log != s.books.log {
        assert Front(s1.books.log) == s.books.log;
      }
      NothingAfterCancellation(s1, run[1..]);
    }
  }

  lemma CancellationAnswers(s: State)
    ensures var s' := Step(s, Quit);
            && (s.publisher.Sending? ==> s' == s)
            && (s.publisher.Ready? ==> s'.publisher == Gone && s'.outcomes == s.outcomes + [Cancelled])
            && (s.publisher.Idle? ==> s'.publisher == Gone && s'.outcomes == s.outcomes)
            && s'.books == s.books && s'.queue == s.queue
  {}
}
