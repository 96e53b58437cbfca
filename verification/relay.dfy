/** The outbound half of the Keeper's message relay (internal/keeper/relay.go): a bounded queue drained by one publisher
    goroutine that charges the token budget before every publish attempt. Charging and publishing are separate steps;
    agents offer messages and sessions are reset between any two of them. */
module Relay {
  import opened Wrappers
  import opened TokenBudget

  datatype Message = Message(id: string, metadata: map<string, string>)

  datatype QueuedMessage = QueuedMessage(msg: Message, attempts: nat, nextTry: Time)

  const MAX_RETRIES := 3
  const BASE_DELAY: Time := 100_000_000

  datatype Outcome =
    | Published | EncodeFailed | ValidationFailed | BudgetExceeded(verdict: Verdict) | MaxRetries | Cancelled

  /** What happened, in order. Publish and Lost (a delivery that failed) carry the time of their charge as well. */
  datatype LogEntry =
    | Charge(id: string, tokens: int, at: Time)
    | Publish(id: string, tokens: int, at: Time, chargedAt: Time)
    | Lost(id: string, tokens: int, at: Time, chargedAt: Time)
    | Reset

  datatype Books = Books(tracker: Option<Tracker>, clock: Time, log: seq<LogEntry>)

  /** Where the publisher goroutine stands: before an attempt, between the charge and the publish of one, or
      returned. */
  datatype Publisher =
    | Idle
    | Ready(q: QueuedMessage)
    | Sending(q: QueuedMessage, tokens: int, chargedAt: Time)
    | Gone

  /** `accepted` and `taken` record what entered and left the queue, `outcomes` how each message taken ended. */
  datatype State = State(
    maxSize: nat, queue: seq<QueuedMessage>, books: Books, publisher: Publisher,
    accepted: seq<Message>, taken: seq<Message>, outcomes: seq<Outcome>)

  datatype Interruption = Offered(msg: Message) | SessionReset

  datatype Event =
    | Other(i: Interruption)
    | Take
    | Quit
    | Try(now: Time, encodes: bool, valid: bool)
    | Deliver(now: Time, delivered: bool)

  /** A clock reading never precedes the last one. */
  function Later(a: Time, b: Time): Time {
    if a < b then b else a
  }

  function Backoff(attempts: nat): Time {
    if attempts == 0 then BASE_DELAY else 2 * Backoff(attempts - 1)
  }

  function TokenCount(q: QueuedMessage): int {
    ExtractTokenCount(q.msg.metadata)
  }

  function EnqueueStep(s: State, msg: Message): (State, bool) {
    if |s.queue| >= s.maxSize then (s, false)
    else (s.(queue := s.queue + [QueuedMessage(msg, 0, 0)], accepted := s.accepted + [msg]), true)
  }

  function ResetStep(s: State): State {
    if s.books.tracker == None then s
    else
      s.(books := s.books.(tracker := Some(s.books.tracker.value.(sessionTokens := 0)), log := s.books.log + [Reset]))
  }

  function Interrupt(s: State, i: Interruption): State {
    match i
    case Offered(msg) => EnqueueStep(s, msg).0
    case SessionReset => ResetStep(s)
  }

  function TakeStep(s: State): State {
    if s.publisher != Idle || s.queue == [] then s
    else s.(queue := s.queue[1..], publisher := Ready(s.queue[0]), taken := s.taken + [s.queue[0].msg])
  }

  function Finish(s: State, outcome: Outcome): State {
    s.(publisher := Idle, outcomes := s.outcomes + [outcome])
  }

  /** The context is done: noticed between messages, before a first attempt, and while waiting for a retry. */
  function QuitStep(s: State): State {
    match s.publisher
    case Idle => s.(publisher := Gone)
    case Ready(_) => s.(publisher := Gone, outcomes := s.outcomes + [Cancelled])
    case Sending(_, _, _) => s
    case Gone => s
  }

  function ChargeStep(b: Books, id: string, tokens: int): (Books, Verdict) {
    if b.tracker == None || tokens <= 0 then (b, Charged)
    else
      var recorded := RecordStep(b.tracker.value, b.clock, tokens);
      if recorded.1 != Charged then (b.(tracker := Some(recorded.0)), recorded.1)
      else (b.(tracker := Some(recorded.0), log := b.log + [Charge(id, tokens, b.clock)]), Charged)
  }

  function Tick(s: State, now: Time): State {
    s.(books := s.books.(clock := Later(now, s.books.clock)))
  }

  /** The first half of an attempt: encode, validate, charge. Before its retry time a message only sleeps on. */
  function TryStep(s: State, q: QueuedMessage, tokens: int, now: Time, encodes: bool, valid: bool): State {
    var s1 := Tick(s, now);
    if q.attempts > 0 && s1.books.clock < q.nextTry then s1
    else if !encodes then Finish(s1, EncodeFailed)
    else if !valid then Finish(s1, ValidationFailed)
    else
      var charged := ChargeStep(s1.books, q.msg.id, tokens);
      if charged.1 != Charged then Finish(s1.(books := charged.0), BudgetExceeded(charged.1))
      else s1.(books := charged.0, publisher := Sending(q, tokens, s1.books.clock))
  }

  function Log(s: State, e: LogEntry): State {
    s.(books := s.books.(log := s.books.log + [e]))
  }

  /** The second half: publish, and decide about a retry. */
  function DeliverStep(s: State, q: QueuedMessage, tokens: int, chargedAt: Time, now: Time, delivered: bool): State {
    var s1 := Tick(s, now);
    if delivered then Finish(Log(s1, Publish(q.msg.id, tokens, s1.books.clock, chargedAt)), Published)
    else
      var s2 := Log(s1, Lost(q.msg.id, tokens, s1.books.clock, chargedAt));
      if q.attempts + 1 >= MAX_RETRIES then Finish(s2, MaxRetries)
      else s2.(publisher := Ready(QueuedMessage(q.msg, q.attempts + 1, s1.books.clock + Backoff(q.attempts))))
  }

  function Step(s: State, e: Event): State {
    match e
    case Other(i) => Interrupt(s, i)
    case Take => TakeStep(s)
    case Quit => QuitStep(s)
    case Try(now, encodes, valid) =>
      if s.publisher.Ready? then TryStep(s, s.publisher.q, TokenCount(s.publisher.q), now, encodes, valid) else s
    case Deliver(now, delivered) =>
      if s.publisher.Sending?
      then DeliverStep(s, s.publisher.q, s.publisher.tokens, s.publisher.chargedAt, now, delivered)
      else s
  }

  function Run(s: State, run: seq<Event>): State
    decreases |run|
  {
    if run == [] then s else Run(Step(s, run[0]), run[1..])
  }

  function Interrupts(s: State, interruptions: seq<Interruption>): State
    decreases |interruptions|
  {
    if interruptions == [] then s else Interrupts(Interrupt(s, interruptions[0]), interruptions[1..])
  }

  /** What one attempt meets: the others before it and between its charge and its publish, two clock readings, the
      encoder, the validator, the bus, and whether the relay is cancelled while it waits to retry. */
  datatype Attempt = Attempt(
    before: seq<Interruption>, now: Time, encodes: bool, valid: bool,
    between: seq<Interruption>, later: Time, delivered: bool, cancelled: bool)

  /** The sleep before a retry ends no earlier than its time. */
  function AwakeAt(q: QueuedMessage, now: Time): Time {
    if q.attempts > 0 then Later(now, q.nextTry) else now
  }

  function AttemptStep(s: State, a: Attempt): State {
    var s1 := Interrupts(s, a.before);
    if !s1.publisher.Ready? then s1
    else
      var s2 := Step(s1, Try(AwakeAt(s1.publisher.q, a.now), a.encodes, a.valid));
      if !s2.publisher.Sending? then s2
      else
        var s3 := Step(Interrupts(s2, a.between), Deliver(a.later, a.delivered));
        if s3.publisher.Ready? && a.cancelled then QuitStep(s3) else s3
  }

  function AttemptsLeft(publisher: Publisher): nat {
    if publisher.Ready? && publisher.q.attempts < MAX_RETRIES then MAX_RETRIES - publisher.q.attempts else 0
  }

  /** publishMessageWithRetry, from the message's current attempt on. */
  function PublishFrom(s: State, env: nat -> Attempt): State
    decreases AttemptsLeft(s.publisher)
  {
    if !s.publisher.Ready? || s.publisher.q.attempts >= MAX_RETRIES then s
    else
      AttemptAdvances(s, env(s.publisher.q.attempts));
      PublishFrom(AttemptStep(s, env(s.publisher.q.attempts)), env)
  }

  lemma {:induction false} InterruptsLeavePublisher(s: State, interruptions: seq<Interruption>)
    ensures Interrupts(s, interruptions).publisher == s.publisher
    decreases |interruptions|
  {
    if interruptions != [] {
      InterruptsLeavePublisher(Interrupt(s, interruptions[0]), interruptions[1..]);
    }
  }

  /** A message that is to be tried again after an attempt has one attempt fewer left. */
  lemma AttemptAdvances(s: State, a: Attempt)
    requires s.publisher.Ready? && s.publisher.q.attempts < MAX_RETRIES
    ensures var s' := AttemptStep(s, a);
            s'.publisher.Ready? ==>
              && s'.publisher.q.msg == s.publisher.q.msg
              && s'.publisher.q.attempts == s.publisher.q.attempts + 1 < MAX_RETRIES
  {
    InterruptsLeavePublisher(s, a.before);
    var s1 := Interrupts(s, a.before);
    var s2 := Step(s1, Try(AwakeAt(s1.publisher.q, a.now), a.encodes, a.valid));
    InterruptsLeavePublisher(s2, a.between);
  }

  class OutboundRelay {
    const maxSize: nat
    var queue: seq<QueuedMessage>
    const tokenTracker: TokenBudgetTracker?
    var clock: Time
    var publisher: Publisher
    ghost var log: seq<LogEntry>
    ghost var accepted: seq<Message>
    ghost var taken: seq<Message>
    ghost var outcomes: seq<Outcome>

    ghost function Contents(): State
      reads this, tokenTracker
    {
      var tracker := if tokenTracker == null then None else Some(tokenTracker.Contents());
      State(maxSize, queue, Books(tracker, clock, log), publisher, accepted, taken, outcomes)
    }

    constructor (maxSize: nat, tokenTracker: TokenBudgetTracker?, now: Time)
      ensures this.tokenTracker == tokenTracker
      ensures var tracker := if tokenTracker == null then None else Some(tokenTracker.Contents());
              Contents() == State(maxSize, [], Books(tracker, now, []), Idle, [], [], [])
    {
      this.maxSize, this.queue, this.tokenTracker, this.clock, this.publisher := maxSize, [], tokenTracker, now, Idle;
      log, accepted, taken, outcomes := [], [], [], [];
    }

    /** Non-blocking: a full queue turns the message away. */
    method Enqueue(msg: Message) returns (ok: bool)
      modifies this
      ensures (Contents(), ok) == EnqueueStep(old(Contents()), msg)
    {
      if |queue| >= maxSize {
        return false;
      }
      queue := queue + [QueuedMessage(msg, 0, 0)];
      accepted := accepted + [msg];
      return true;
    }

    method ResetSession()
      modifies this`log, tokenTracker
      ensures Contents() == ResetStep(old(Contents()))
    {
      if tokenTracker != null {
        tokenTracker.ResetSession();
        log := log + [Reset];
      }
    }

    /** Other goroutines have the processor. */
    method Yield(interruptions: seq<Interruption>)
      modifies this, tokenTracker
      ensures Contents() == Interrupts(old(Contents()), interruptions)
    {
      for i := 0 to |interruptions|
        invariant Interrupts(Contents(), interruptions[i..]) == Interrupts(old(Contents()), interruptions)
      {
        assert interruptions[i..][1..] == interruptions[i + 1..];
        match interruptions[i] {
          case Offered(msg) => var _ := Enqueue(msg);
          case SessionReset => ResetSession();
        }
      }
    }

    method Dequeue()
      modifies this
      ensures Contents() == TakeStep(old(Contents()))
    {
      if publisher == Idle && queue != [] {
        publisher, taken, queue := Ready(queue[0]), taken + [queue[0].msg], queue[1..];
      }
    }

    method Cancel()
      modifies this
      ensures Contents() == QuitStep(old(Contents()))
    {
      if publisher.Ready? {
        publisher, outcomes := Gone, outcomes + [Cancelled];
      } else if publisher.Idle? {
        publisher := Gone;
      }
    }

    method Try(now: Time, encodes: bool, valid: bool)
      modifies this, tokenTracker
      ensures Contents() == Step(old(Contents()), Event.Try(now, encodes, valid))
    {
      if !publisher.Ready? {
        return;
      }
      var queuedMsg := publisher.q;
      clock := Later(now, clock);
      if queuedMsg.attempts > 0 && clock < queuedMsg.nextTry {
        return;
      }
      if !encodes {
        publisher, outcomes := Idle, outcomes + [EncodeFailed];
        return;
      }
      if !valid {
        publisher, outcomes := Idle, outcomes + [ValidationFailed];
        return;
      }
      var tokenCount := TokenCount(queuedMsg);
      if tokenTracker != null && tokenCount > 0 {
        var verdict := tokenTracker.RecordUsage(clock, tokenCount);
        if verdict != Charged {
          publisher, outcomes := Idle, outcomes + [BudgetExceeded(verdict)];
          return;
        }
        log := log + [Charge(queuedMsg.msg.id, tokenCount, clock)];
      }
      publisher := Sending(queuedMsg, tokenCount, clock);
    }

    method Deliver(now: Time, delivered: bool)
      modifies this
      ensures Contents() == Step(old(Contents()), Event.Deliver(now, delivered))
    {
      if !publisher.Sending? {
        return;
      }
      var queuedMsg, tokens, chargedAt := publisher.q, publisher.tokens, publisher.chargedAt;
      clock := Later(now, clock);
      if delivered {
        log := log + [Publish(queuedMsg.msg.id, tokens, clock, chargedAt)];
        publisher, outcomes := Idle, outcomes + [Published];
        return;
      }
      log := log + [Lost(queuedMsg.msg.id, tokens, clock, chargedAt)];
      if queuedMsg.attempts + 1 >= MAX_RETRIES {
        publisher, outcomes := Idle, outcomes + [MaxRetries];
        return;
      }
      var delay := Backoff(queuedMsg.attempts);
      publisher := Ready(QueuedMessage(queuedMsg.msg, queuedMsg.attempts + 1, clock + delay));
    }

    method AttemptOnce(a: Attempt)
      modifies this, tokenTracker
      ensures Contents() == AttemptStep(old(Contents()), a)
    {
      Yield(a.before);
      if !publisher.Ready? {
        return;
      }
      Try(AwakeAt(publisher.q, a.now), a.encodes, a.valid);
      if !publisher.Sending? {
        return;
      }
      Yield(a.between);
      Deliver(a.later, a.delivered);
      if publisher.Ready? && a.cancelled {
        Cancel();
      }
    }

    method PublishMessageWithRetry(env: nat -> Attempt)
      modifies this, tokenTracker
      ensures Contents() == PublishFrom(old(Contents()), env)
    {
      while publisher.Ready? && publisher.q.attempts < MAX_RETRIES
        invariant PublishFrom(Contents(), env) == PublishFrom(old(Contents()), env)
        decreases AttemptsLeft(publisher)
      {
        AttemptAdvances(Contents(), env(publisher.q.attempts));
        AttemptOnce(env(publisher.q.attempts));
      }
    }

    /** One turn of publishMessages: take the oldest message, if any, and see it through unless cancelled meanwhile. */
    method PublishNext(cancelled: bool, env: nat -> Attempt)
      modifies this, tokenTracker
      ensures var took := TakeStep(old(Contents()));
              Contents() == if cancelled then QuitStep(took) else PublishFrom(took, env)
    {
      Dequeue();
      if cancelled {
        Cancel();
      } else {
        PublishMessageWithRetry(env);
      }
    }
  }

  // ----- The loop is one of the interleavings -----

  lemma {:induction false} RunTwice(s: State, a: seq<Event>, b: seq<Event>)
    ensures Run(s, a + b) == Run(Run(s, a), b)
    decreases |a|
  {
    if a == [] {
      assert a + b == b;
    } else {
      assert (a + b)[1..] == a[1..] + b;
      RunTwice(Step(s, a[0]), a[1..], b);
    }
  }

  lemma RunOne(s: State, e: Event)
    ensures Run(s, [e]) == Step(s, e)
  {
    assert Run(Step(s, e), [e][1..]) == Step(s, e);
  }

  lemma {:induction false} InterruptsAreARun(s: State, interruptions: seq<Interruption>) returns (events: seq<Event>)
    ensures Run(s, events) == Interrupts(s, interruptions)
    decreases |interruptions|
  {
    events := [];
    if interruptions != [] {
      var rest := InterruptsAreARun(Interrupt(s, interruptions[0]), interruptions[1..]);
      events := [Other(interruptions[0])] + rest;
      assert events[1..] == rest;
    }
  }

  lemma AttemptIsARun(s: State, a: Attempt) returns (events: seq<Event>)
    ensures Run(s, events) == AttemptStep(s, a)
  {
    events := InterruptsAreARun(s, a.before);
    var s1 := Interrupts(s, a.before);
    if s1.publisher.Ready? {
      var try := Event.Try(AwakeAt(s1.publisher.q, a.now), a.encodes, a.valid);
      var s2 := Step(s1, try);
      RunOne(s1, try);
      RunTwice(s, events, [try]);
      events := events + [try];
      if s2.publisher.Sending? {
        var between := InterruptsAreARun(s2, a.between);
        RunTwice(s, events, between);
        events := events + between;
        var s3 := Interrupts(s2, a.between);
        var deliver := Event.Deliver(a.later, a.delivered);
        RunOne(s3, deliver);
        RunTwice(s, events, [deliver]);
        events := events + [deliver];
        var s4 := Step(s3, deliver);
        if s4.publisher.Ready? && a.cancelled {
          RunOne(s4, Quit);
          RunTwice(s, events, [Quit]);
          events := events + [Quit];
        }
      }
    }
  }

  lemma {:induction false} PublishIsARun(s: State, env: nat -> Attempt) returns (events: seq<Event>)
    ensures Run(s, events) == PublishFrom(s, env)
    decreases AttemptsLeft(s.publisher)
  {
    events := [];
    if s.publisher.Ready? && s.publisher.q.attempts < MAX_RETRIES {
      var a := env(s.publisher.q.attempts);
      AttemptAdvances(s, a);
      var first := AttemptIsARun(s, a);
      var rest := PublishIsARun(AttemptStep(s, a), env);
      RunTwice(s, first, rest);
      events := first + rest;
    }
  }
}
