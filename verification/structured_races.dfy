/** TransitionState (internal/comb/structured.go) as it runs: four store calls, each locked by itself, with anything in
    between, another such call among it. */
module StructuredRaces {
  import opened Wrappers
  import opened Comb
  import opened Structured

  /** Where one call of TransitionState stands. `past` is the history it has loaded. */
  datatype Point =
    | Start
    | Checked
    | Moved
    | Loaded(past: seq<Transition>)
    | Refused(outcome: Outcome)
    | Stored(past: seq<Transition>, written: Transition)

  datatype Call = Call(from: string, to: string, at: Point)

  /** The next store call of one TransitionState. */
  ghost function CallStep(c: Codec, s: State, now: Time, sid: string, call: Call): (State, Call) {
    match call.at
    case Start =>
      var (s', reply) := Step(s, now, Request.Get(sid, StateKey(sid)));
      (s', call.(at := if reply == SessionNotFound || reply == KeyExpired then Refused(LookupFailed)
                       else if reply.Value? && reply.value != "" && reply.value != call.from
                       then Refused(InvalidTransition)
                       else Checked))
    case Checked =>
      var (s', reply) := Step(s, now, Request.Set(sid, StateKey(sid), call.to, 0));
      (s', call.(at := if reply == LimitExceeded then Refused(StateNotStored) else Moved))
    case Moved =>
      var (s', reply) := Step(s, now, Request.Get(sid, HistoryKey(sid)));
      (s', call.(at := Loaded(if reply.Value? && reply.value != "" then c.unmarshal(reply.value) else [])))
    case Loaded(past) =>
      var entry := Transition(call.from, call.to, now);
      var (s', reply) := Step(s, now, Request.Set(sid, HistoryKey(sid), c.marshal(past + [entry]), 0));
      (s', call.(at := if reply == LimitExceeded then Refused(HistoryNotStored) else Point.Stored(past, entry)))
    case Refused(_) => (s, call)
    case Stored(_, _) => (s, call)
  }

  /** Before one of its store calls: what other callers do to the store, each at its time, and the clock then. */
  datatype Stamped = Stamped(now: Time, request: Request)

  datatype Pause = Pause(others: seq<Stamped>, now: Time)

  ghost function Meanwhile(s: State, others: seq<Stamped>): State
    decreases |others|
  {
    if others == [] then s else Meanwhile(Step(s, others[0].now, others[0].request).0, others[1..])
  }

  /** How many store calls a transition that was not refused has made. */
  function Made(at: Point): nat {
    match at
    case Start => 0
    case Checked => 1
    case Moved => 2
    case Loaded(_) => 3
    case Stored(_, _) => 4
    case Refused(_) => 0
  }

  /** A transition seen to its end; `env` says what comes before each store call. */
  ghost function Finish(c: Codec, s: State, sid: string, call: Call, env: nat -> Pause): (State, Call)
    decreases if call.at.Refused? then 0 else 4 - Made(call.at)
  {
    if call.at.Refused? || call.at.Stored? then (s, call)
    else
      var pause := env(Made(call.at));
      var next := CallStep(c, Meanwhile(s, pause.others), pause.now, sid, call);
      Finish(c, next.0, sid, next.1, env)
  }

  function OutcomeOf(at: Point): Outcome {
    if at.Refused? then at.outcome else Recorded
  }

  method ServeOne(store: Store, other: Stamped)
    requires store.Valid()
    modifies store
    ensures store.Valid() && store.Contents() == Step(old(store.Contents()), other.now, other.request).0
  {
    match other.request {
      case Get(sid, key) => var _ := store.Get(other.now, sid, key);
      case Set(sid, key, value, ttl) => var _ := store.Set(other.now, sid, key, value, ttl);
      case Delete(sid, key) => var _ := store.Delete(sid, key);
      case Exists(sid, key) => var _ := store.Exists(other.now, sid, key);
      case Incr(sid, key) => var _ := store.Incr(sid, key);
      case Keys(sid, pattern) => var _ := store.Keys(other.now, sid, pattern);
      case Clear(sid) => store.Clear(sid);
      case SetMemoryLimit(sid, limitMB) => store.SetMemoryLimit(sid, limitMB);
      case Expire => store.ExpireKeys(other.now);
    }
  }

  method Serve(store: Store, others: seq<Stamped>)
    requires store.Valid()
    modifies store
    ensures store.Valid() && store.Contents() == Meanwhile(old(store.Contents()), others)
  {
    ghost var end := Meanwhile(store.Contents(), others);
    for i := 0 to |others|
      invariant store.Valid() && Meanwhile(store.Contents(), others[i..]) == end
    {
      assert others[i..][1..] == others[i + 1..];
      ServeOne(store, others[i]);
    }
  }

  lemma FinishFromStart(c: Codec, s: State, sid: string, from: string, to: string, env: nat -> Pause)
    ensures var (s', reply) := Step(Meanwhile(s, env(0).others), env(0).now, Request.Get(sid, StateKey(sid)));
            Finish(c, s, sid, Call(from, to, Start), env)
            == if reply == SessionNotFound || reply == KeyExpired then (s', Call(from, to, Refused(LookupFailed)))
               else if reply.Value? && reply.value != "" && reply.value != from
               then (s', Call(from, to, Refused(InvalidTransition)))
               else Finish(c, s', sid, Call(from, to, Checked), env)
  {}

  lemma FinishFromChecked(c: Codec, s: State, sid: string, from: string, to: string, env: nat -> Pause)
    ensures var (s', reply) := Step(Meanwhile(s, env(1).others), env(1).now, Request.Set(sid, StateKey(sid), to, 0));
            Finish(c, s, sid, Call(from, to, Checked), env)
            == if reply == LimitExceeded then (s', Call(from, to, Refused(StateNotStored)))
               else Finish(c, s', sid, Call(from, to, Moved), env)
  {}

  lemma FinishFromMoved(c: Codec, s: State, sid: string, from: string, to: string, env: nat -> Pause)
    ensures var (s', reply) := Step(Meanwhile(s, env(2).others), env(2).now, Request.Get(sid, HistoryKey(sid)));
            var past := if reply.Value? && reply.value != "" then c.unmarshal(reply.value) else [];
            Finish(c, s, sid, Call(from, to, Moved), env) == Finish(c, s', sid, Call(from, to, Loaded(past)), env)
  {}

  lemma FinishFromLoaded(c: Codec, s: State, sid: string, from: string, to: string, past: seq<Transition>,
                         env: nat -> Pause)
    ensures var entry := Transition(from, to, env(3).now);
            var store := Request.Set(sid, HistoryKey(sid), c.marshal(past + [entry]), 0);
            var (s', reply) := Step(Meanwhile(s, env(3).others), env(3).now, store);
            Finish(c, s, sid, Call(from, to, Loaded(past)), env)
            == (s', Call(from, to, if reply == LimitExceeded then Refused(HistoryNotStored)
                                   else Point.Stored(past, entry)))
  {}

  method TransitionState(store: Store, c: Codec, sid: string, from: string, to: string, env: nat -> Pause)
    returns (outcome: Outcome)
    requires store.Valid()
    modifies store
    ensures store.Valid()
    ensures var (end, call) := Finish(c, old(store.Contents()), sid, Call(from, to, Start), env);
            store.Contents() == end && outcome == OutcomeOf(call.at)
  {
    FinishFromStart(c, store.Contents(), sid, from, to, env);
    Serve(store, env(0).others);
    var currentState := "";
    var reply := store.Get(env(0).now, sid, StateKey(sid));
    match reply {
      case Value(state) => currentState := state;
      case KeyNotFound =>
      case _ => return LookupFailed;
    }
    if currentState != "" && currentState != from {
      return InvalidTransition;
    }
    outcome := MoveAndRecord(store, c, sid, from, to, env);
  }

  /** The rest of it, once the guard has let the call through. */
  method MoveAndRecord(store: Store, c: Codec, sid: string, from: string, to: string, env: nat -> Pause)
    returns (outcome: Outcome)
    requires store.Valid()
    modifies store
    ensures store.Valid()
    ensures var (end, call) := Finish(c, old(store.Contents()), sid, Call(from, to, Checked), env);
            store.Contents() == end && outcome == OutcomeOf(call.at)
  {
    FinishFromChecked(c, store.Contents(), sid, from, to, env);
    Serve(store, env(1).others);
    var reply := store.Set(env(1).now, sid, StateKey(sid), to, 0);
    if reply == LimitExceeded {
      return StateNotStored;
    }
    FinishFromMoved(c, store.Contents(), sid, from, to, env);
    Serve(store, env(2).others);
    var history := [];
    reply := store.Get(env(2).now, sid, HistoryKey(sid));
    if reply.Value? && reply.value != "" {
      history := c.unmarshal(reply.value);
    }
    FinishFromLoaded(c, store.Contents(), sid, from, to, history, env);
    Serve(store, env(3).others);
    history := history + [Transition(from, to, env(3).now)];
    reply := store.Set(env(3).now, sid, HistoryKey(sid), c.marshal(history), 0);
    return if reply == LimitExceeded then HistoryNotStored else Recorded;
  }

  ghost predicate NothingBetween(env: nat -> Pause, now: Time) {
    forall n :: env(n) == Pause([], now)
  }

  /** Left alone, the four calls are TransitionStep. */
  lemma FourCallsAreOneTransition(c: Codec, s: State, now: Time, sid: string, from: string, to: string,
                                  env: nat -> Pause)
    requires NothingBetween(env, now)
    ensures var (s', call) := Finish(c, s, sid, Call(from, to, Start), env);
            (s', OutcomeOf(call.at)) == TransitionStep(c, s, now, sid, from, to)
  {
    assert env(0) == env(1) == env(2) == env(3) == Pause([], now);
    var s1 := Step(s, now, Request.Get(sid, StateKey(sid))).0;
    var s2 := Step(s1, now, Request.Set(sid, StateKey(sid), to, 0)).0;
    var (s3, reply) := Step(s2, now, Request.Get(sid, HistoryKey(sid)));
    var past := if reply.Value? && reply.value != "" then c.unmarshal(reply.value) else [];
    FinishFromStart(c, s, sid, from, to, env);
    FinishFromChecked(c, s1, sid, from, to, env);
    FinishFromMoved(c, s2, sid, from, to, env);
    FinishFromLoaded(c, s3, sid, from, to, past, env);
  }

  // ----- Two transitions at once -----

  datatype Event = First | Second | Traffic(request: Request)

  datatype Timed = Timed(now: Time, event: Event)

  datatype Race = Race(s: State, a: Call, b: Call)

  ghost function RaceStep(c: Codec, r: Race, sid: string, t: Timed): Race {
    match t.event
    case First => var (s, a) := CallStep(c, r.s, t.now, sid, r.a); Race(s, a, r.b)
    case Second => var (s, b) := CallStep(c, r.s, t.now, sid, r.b); Race(s, r.a, b)
    case Traffic(request) => r.(s := Step(r.s, t.now, request).0)
  }

  ghost function Run(c: Codec, r: Race, sid: string, run: seq<Timed>): Race
    decreases |run|
  {
    if run == [] then r else Run(c, RaceStep(c, r, sid, run[0]), sid, run[1..])
  }

  lemma {:induction false} RunTwice(c: Codec, r: Race, sid: string, run: seq<Timed>, more: seq<Timed>)
    ensures Run(c, r, sid, run + more) == Run(c, Run(c, r, sid, run), sid, more)
    decreases |run|
  {
    if run == [] {
      assert run + more == more;
    } else {
      assert (run + more)[1..] == run[1..] + more;
      RunTwice(c, RaceStep(c, r, sid, run[0]), sid, run[1..], more);
    }
  }

  function AsTraffic(others: seq<Stamped>): seq<Timed> {
    if others == [] then [] else [Timed.Timed(others[0].now, Event.Traffic(others[0].request))] + AsTraffic(others[1..])
  }

  lemma {:induction false} TrafficRuns(c: Codec, r: Race, sid: string, others: seq<Stamped>)
    ensures Run(c, r, sid, AsTraffic(others)) == r.(s := Meanwhile(r.s, others))
    decreases |others|
  {
    if others != [] {
      TrafficRuns(c, r.(s := Step(r.s, others[0].now, others[0].request).0), sid, others[1..]);
    }
  }

  /** However it is interrupted, TransitionState is one of the two in some such run. */
  lemma {:induction false} FinishIsARun(c: Codec, s: State, sid: string, call: Call, env: nat -> Pause, b: Call)
    returns (run: seq<Timed>)
    ensures var (end, call') := Finish(c, s, sid, call, env); Run(c, Race(s, call, b), sid, run) == Race(end, call', b)
    decreases if call.at.Refused? then 0 else 4 - Made(call.at)
  {
    run := [];
    if !call.at.Refused? && !call.at.Stored? {
      var pause := env(Made(call.at));
      var (before, first) := (AsTraffic(pause.others), Timed.Timed(pause.now, First));
      var r := Race(Meanwhile(s, pause.others), call, b);
      var next := CallStep(c, r.s, pause.now, sid, call);
      TrafficRuns(c, Race(s, call, b), sid, pause.others);
      var rest := FinishIsARun(c, next.0, sid, next.1, env, b);
      assert ([first] + rest)[1..] == rest;
      RunTwice(c, Race(s, call, b), sid, before, [first] + rest);
      run := before + ([first] + rest);
    }
  }

  ghost predicate OnlyTheseTwo(run: seq<Timed>, sid: string) {
    forall t | t in run :: t.event.Traffic? ==> !Interferes(t.event.request, sid)
  }

  function Front(run: seq<Timed>): seq<Timed>
    requires run != []
  {
    run[..|run| - 1]
  }

  function Last(run: seq<Timed>): Timed
    requires run != []
  {
    run[|run| - 1]
  }

  lemma {:induction false} RunByLast(c: Codec, r: Race, sid: string, run: seq<Timed>)
    requires run != []
    ensures Run(c, r, sid, run) == RaceStep(c, Run(c, r, sid, Front(run)), sid, Last(run))
    decreases |run|
  {
    if |run| == 1 {
      assert run[1..] == [] && Front(run) == [];
    } else {
      RunByLast(c, RaceStep(c, r, sid, run[0]), sid, run[1..]);
      assert Front(run[1..]) == Front(run)[1..];
    }
  }

  // ----- What the schedule alone says -----

  /** Of a schedule: how many store calls each of the two was given, which of them set the state last and stored the
      history last (once both have), and whether at some moment both had made exactly three of their four calls, that
      is, had loaded the history and not yet stored it. */
  datatype Order = Order(
    firsts: nat, seconds: nat, firstMovedLast: bool, firstStoredLast: bool, overlapped: bool)

  function Then(o: Order, event: Event): Order {
    match event
    case First =>
      var n := o.firsts + 1;
      Order(n, o.seconds, if n == 2 then o.seconds >= 2 else o.firstMovedLast,
            if n == 4 then o.seconds >= 4 else o.firstStoredLast, o.overlapped || (n == 3 && o.seconds == 3))
    case Second =>
      var n := o.seconds + 1;
      o.(seconds := n, overlapped := o.overlapped || (n == 3 && o.firsts == 3))
    case Traffic(_) => o
  }

  function OrderOf(run: seq<Timed>): Order {
    if run == [] then Order(0, 0, false, false, false) else Then(OrderOf(Front(run)), Last(run).event)
  }

  lemma {:induction false} OverlappedAtSomeMoment(run: seq<Timed>)
    ensures OrderOf(run).overlapped
            <==> exists k | 0 <= k <= |run| :: OrderOf(run[..k]).firsts == 3 && OrderOf(run[..k]).seconds == 3
  {
    assert run[..|run|] == run;
    if run != [] {
      OverlappedAtSomeMoment(Front(run));
      assert forall k | 0 <= k < |run| :: Front(run)[..k] == run[..k];
    }
  }

  // ----- What one store call does -----

  /** Reading either key, or setting the state, leaves the history alone. */
  lemma HistoryStays(c: Codec, s: State, now: Time, sid: string, request: Request)
    requires Undisturbed(s, sid)
    requires || request == Request.Get(sid, StateKey(sid)) || request == Request.Get(sid, HistoryKey(sid))
             || (request.Set? && request.sid == sid && request.key == StateKey(sid) && request.ttl == 0)
    ensures var (s', reply) := Step(s, now, request);
            && Undisturbed(s', sid) && History(c, s', sid) == History(c, s, sid)
            && Current(s', sid) == (if request.Set? then request.value else Current(s, sid))
            && (request.Set? ==> reply == Done) && (!request.Set? ==> s' == s)
  {
    KeysDiffer(sid);
  }

  lemma HistoryIsStored(c: Codec, s: State, now: Time, sid: string, h: seq<Transition>)
    requires c.Lawful() && Undisturbed(s, sid)
    ensures var (s', reply) := Step(s, now, Request.Set(sid, HistoryKey(sid), c.marshal(h), 0));
            reply == Done && Undisturbed(s', sid) && History(c, s', sid) == h && Current(s', sid) == Current(s, sid)
  {
    KeysDiffer(sid);
  }

  /** What one store call makes of a transition that is not refused, of the history and of the state. */
  predicate Effect(call: Call, call': Call, now: Time,
                   h: seq<Transition>, h': seq<Transition>, x: string, x': string) {
    && call'.from == call.from && call'.to == call.to
    && x' == (if call.at.Checked? then call.to else x)
    && h' == (if call.at.Loaded? then call.at.past + [Transition(call.from, call.to, now)] else h)
    && match call.at
       case Start => call'.at == Checked || call'.at.Refused?
       case Checked => call'.at == Moved
       case Moved => call'.at == Loaded(h)
       case Loaded(past) => call'.at == Point.Stored(past, Transition(call.from, call.to, now))
       case Refused(_) => call' == call
       case Stored(_, _) => call' == call
  }

  /** In an undisturbed session that is what happens, and only the first of the four store calls can refuse. */
  lemma CallEffect(c: Codec, s: State, now: Time, sid: string, call: Call)
    requires c.Lawful() && Undisturbed(s, sid)
    ensures var (s', call') := CallStep(c, s, now, sid, call);
            && Undisturbed(s', sid)
            && Effect(call, call', now, History(c, s, sid), History(c, s', sid), Current(s, sid), Current(s', sid))
            && (call.at.Start? && Accepts(s, sid, call.from) ==> call'.at == Checked)
  {
    match call.at
    case Start => HistoryStays(c, s, now, sid, Request.Get(sid, StateKey(sid)));
    case Checked => HistoryStays(c, s, now, sid, Request.Set(sid, StateKey(sid), call.to, 0));
    case Moved => HistoryStays(c, s, now, sid, Request.Get(sid, HistoryKey(sid)));
    case Loaded(past) => HistoryIsStored(c, s, now, sid, past + [Transition(call.from, call.to, now)]);
    case Refused(_) =>
    case Stored(_, _) =>
  }

  // ----- What the schedule says about the race -----

  predicate HasLoaded(at: Point) {
    at.Loaded? || at.Stored?
  }

  /** Each loaded the history as it was before both, or the other's store in it. */
  predicate PastsFollow(a: Point, b: Point, before: seq<Transition>, o: Order) {
    if HasLoaded(a) && HasLoaded(b) && !o.overlapped then
      if a.Stored? && !(b.Stored? && o.firstStoredLast) then a.past == before && b.past == before + [a.written]
      else b.Stored? && b.past == before && a.past == before + [b.written]
    else (HasLoaded(a) ==> a.past == before) && (HasLoaded(b) ==> b.past == before)
  }

  function HistoryBy(a: Point, b: Point, before: seq<Transition>, o: Order): seq<Transition> {
    if a.Stored? && !(b.Stored? && !o.firstStoredLast) then a.past + [a.written]
    else if b.Stored? then b.past + [b.written]
    else before
  }

  function CurrentBy(a: Call, b: Call, x: string, o: Order): string {
    if o.firsts >= 2 && (o.seconds < 2 || o.firstMovedLast) then a.to
    else if o.seconds >= 2 then b.to
    else x
  }

  predicate Writes(call: Call) {
    call.at.Stored? ==> call.at.written.from == call.from && call.at.written.to == call.to
  }

  /** Calls that were not refused, the history and the state stand where the schedule says. */
  predicate Fits(a: Call, b: Call, h: seq<Transition>, current: string, before: seq<Transition>, x: string, o: Order) {
    && Writes(a) && Writes(b)
    && Made(a.at) == (if o.firsts < 4 then o.firsts else 4)
    && Made(b.at) == (if o.seconds < 4 then o.seconds else 4)
    && PastsFollow(a.at, b.at, before, o)
    && h == HistoryBy(a.at, b.at, before, o)
    && current == CurrentBy(a, b, x, o)
    && (o.firsts == 3 && o.seconds == 3 ==> o.overlapped)
    && (o.overlapped ==> o.firsts >= 3 && o.seconds >= 3)
    && (o.firstMovedLast ==> o.firsts >= 2 && o.seconds >= 2)
    && (o.firstStoredLast ==> o.firsts >= 4 && o.seconds >= 4)
  }

  lemma FirstFits(a: Call, a': Call, b: Call, now: Time, h: seq<Transition>, h': seq<Transition>,
                  current: string, current': string, before: seq<Transition>, x: string, o: Order)
    requires Fits(a, b, h, current, before, x, o) && !a'.at.Refused? && !b.at.Refused?
    requires Effect(a, a', now, h, h', current, current')
    ensures Fits(a', b, h', current', before, x, Then(o, First))
  {}

  lemma SecondFits(a: Call, b: Call, b': Call, now: Time, h: seq<Transition>, h': seq<Transition>,
                   current: string, current': string, before: seq<Transition>, x: string, o: Order)
    requires Fits(a, b, h, current, before, x, o) && !a.at.Refused? && !b'.at.Refused?
    requires Effect(b, b', now, h, h', current, current')
    ensures Fits(a, b', h', current', before, x, Then(o, Second))
  {}

  ghost predicate Follows(c: Codec, r: Race, sid: string, before: seq<Transition>, x: string, o: Order) {
    Undisturbed(r.s, sid) && Fits(r.a, r.b, History(c, r.s, sid), Current(r.s, sid), before, x, o)
  }

  ghost predicate AnyRefused(r: Race) {
    r.a.at.Refused? || r.b.at.Refused?
  }

  lemma StepFollows(c: Codec, r: Race, sid: string, t: Timed, before: seq<Transition>, x: string, o: Order)
    requires c.Lawful() && Follows(c, r, sid, before, x, o) && !AnyRefused(r)
    requires t.event.Traffic? ==> !Interferes(t.event.request, sid)
    ensures var r' := RaceStep(c, r, sid, t); AnyRefused(r') || Follows(c, r', sid, before, x, Then(o, t.event))
  {
    var r' := RaceStep(c, r, sid, t);
    var (h, h') := (History(c, r.s, sid), History(c, r'.s, sid));
    var (y, y') := (Current(r.s, sid), Current(r'.s, sid));
    match t.event {
      case First =>
        CallEffect(c, r.s, t.now, sid, r.a);
        if !AnyRefused(r') { FirstFits(r.a, r'.a, r.b, t.now, h, h', y, y', before, x, o); }
      case Second =>
        CallEffect(c, r.s, t.now, sid, r.b);
        if !AnyRefused(r') { SecondFits(r.a, r.b, r'.b, t.now, h, h', y, y', before, x, o); }
      case Traffic(request) => TrafficLeavesAlone(c, r.s, t.now, request, sid);
    }
  }

  lemma RefusalIsFinal(c: Codec, r: Race, sid: string, t: Timed)
    requires AnyRefused(r)
    ensures AnyRefused(RaceStep(c, r, sid, t))
  {}

  lemma {:induction false} RaceFollowsSchedule(c: Codec, s: State, sid: string, a: Call, b: Call, run: seq<Timed>)
    requires c.Lawful() && Undisturbed(s, sid) && OnlyTheseTwo(run, sid) && a.at == b.at == Start
    ensures var r := Run(c, Race(s, a, b), sid, run);
            && r.a.from == a.from && r.a.to == a.to && r.b.from == b.from && r.b.to == b.to
            && (AnyRefused(r) || Follows(c, r, sid, History(c, s, sid), Current(s, sid), OrderOf(run)))
  {
    if run != [] {
      assert Last(run) in run && forall t | t in Front(run) :: t in run;
      RaceFollowsSchedule(c, s, sid, a, b, Front(run));
      RunByLast(c, Race(s, a, b), sid, run);
      var r := Run(c, Race(s, a, b), sid, Front(run));
      if AnyRefused(r) {
        RefusalIsFinal(c, r, sid, Last(run));
      } else {
        StepFollows(c, r, sid, Last(run), History(c, s, sid), Current(s, sid), OrderOf(Front(run)));
      }
    }
  }

  /** Two transitions in any interleaving, both of which report success: one of them is lost from the history if and
      only if at some moment both had loaded it and neither had stored it; otherwise both are there. */
  lemma RaceLosesATransitionExactlyWhen(c: Codec, s: State, sid: string, a: Call, b: Call, run: seq<Timed>)
    requires c.Lawful() && Undisturbed(s, sid) && OnlyTheseTwo(run, sid) && a.at == b.at == Start
    ensures var r, o := Run(c, Race(s, a, b), sid, run), OrderOf(run);
            var before, h := History(c, s, sid), History(c, r.s, sid);
            r.a.at.Stored? && r.b.at.Stored? ==>
              var (last, first) := if o.firstStoredLast then (r.a.at, r.b.at) else (r.b.at, r.a.at);
              && h == before + (if o.overlapped then [last.written] else [first.written, last.written])
              && (|h| == |before| + 1 <==> o.overlapped)
              && (r.a.at.past == r.b.at.past <==> o.overlapped)
  {
    RaceFollowsSchedule(c, s, sid, a, b, run);
    var r, before := Run(c, Race(s, a, b), sid, run), History(c, s, sid);
    if r.a.at.Stored? && r.b.at.Stored? {
      var x, y := r.a.at.written, r.b.at.written;
      assert before + [x] + [y] == before + [x, y] && before + [y] + [x] == before + [y, x];
      assert |before + [x]| == |before + [y]| == |before| + 1;
    }
  }

  /** Whether state and history still agree after two successful transitions a and b that met in this order, begun in
      state `x` ("" when none was set): the last to set the state must name the same target as the last to store, and
      what was stored must continue the chain. */
  predicate Survives(o: Order, x: string, a: Call, b: Call) {
    var (last, first) := if o.firstStoredLast then (a, b) else (b, a);
    var mover := if o.firstMovedLast then a else b;
    && last.to != "" && mover.to == last.to
    && if o.overlapped then x == "" || x == last.from
       else first.to != "" && (x == "" || x == first.from) && first.to == last.from
  }

  /** For two overlapping transitions that both succeed, from any consistent session: afterwards the history is a chain
      that ends in the current state if and only if order, start and targets say so. */
  lemma RaceStaysConsistentExactlyWhen(c: Codec, s: State, sid: string, a: Call, b: Call, run: seq<Timed>)
    requires c.Lawful() && Undisturbed(s, sid) && Consistent(c, s, sid)
    requires OnlyTheseTwo(run, sid) && a.at == b.at == Start
    ensures var r := Run(c, Race(s, a, b), sid, run);
            r.a.at.Stored? && r.b.at.Stored? ==>
              (Consistent(c, r.s, sid) <==> Survives(OrderOf(run), Current(s, sid), a, b))
  {
    RaceFollowsSchedule(c, s, sid, a, b, run);
    RaceLosesATransitionExactlyWhen(c, s, sid, a, b, run);
    var r, o := Run(c, Race(s, a, b), sid, run), OrderOf(run);
    if r.a.at.Stored? && r.b.at.Stored? {
      var (last, first) := if o.firstStoredLast then (r.a.at.written, r.b.at.written)
                           else (r.b.at.written, r.a.at.written);
      if o.overlapped {
        OneMoreIsConsistent(c, s, r.s, sid, last);
      } else {
        TwoMoreAreConsistent(c, s, r.s, sid, first, last);
      }
    }
  }

  lemma OneMoreIsConsistent(c: Codec, s: State, s': State, sid: string, t: Transition)
    requires Consistent(c, s, sid) && History(c, s', sid) == History(c, s, sid) + [t]
    ensures Consistent(c, s', sid) <==>
            t.to != "" && Current(s', sid) == t.to && (Current(s, sid) == "" || Current(s, sid) == t.from)
  {
    var h := History(c, s, sid);
    assert h != [] ==> h[|h| - 1] in h;
    OneMore(h, t);
  }

  lemma TwoMoreAreConsistent(c: Codec, s: State, s': State, sid: string, t: Transition, u: Transition)
    requires Consistent(c, s, sid) && History(c, s', sid) == History(c, s, sid) + [t, u]
    ensures Consistent(c, s', sid) <==>
            && t.to != "" && u.to != "" && t.to == u.from && Current(s', sid) == u.to
            && (Current(s, sid) == "" || Current(s, sid) == t.from)
  {
    var h := History(c, s, sid);
    assert h != [] ==> h[|h| - 1] in h;
    OneMore(h, t);
    OneMore(h + [t], u);
    assert h + [t] + [u] == h + [t, u];
  }

  lemma OneMore(h: seq<Transition>, t: Transition)
    ensures IsChain(h + [t]) <==> IsChain(h) && (h != [] ==> h[|h| - 1].to == t.from)
    ensures (forall x | x in h + [t] :: x.to != "") <==> (forall x | x in h :: x.to != "") && t.to != ""
    ensures (h + [t])[|h|] == t
  {
    var h' := h + [t];
    if IsChain(h') {
      forall i | 0 < i < |h| ensures h[i - 1].to == h[i].from {
        assert h'[i - 1].to == h'[i].from;
      }
      if h != [] {
        assert h'[|h| - 1].to == h'[|h|].from;
      }
    }
    assert t in h' && forall x | x in h :: x in h';
  }

  /** Past its check a transition in an undisturbed session is not refused any more. */
  lemma {:induction false} NoLaterRefusal(c: Codec, r: Race, sid: string, run: seq<Timed>)
    requires c.Lawful() && Undisturbed(r.s, sid) && OnlyTheseTwo(run, sid)
    requires !AnyRefused(r) && !r.a.at.Start? && !r.b.at.Start?
    ensures !AnyRefused(Run(c, r, sid, run))
    decreases |run|
  {
    if run != [] {
      var t := run[0];
      assert t in run && forall x | x in run[1..] :: x in run;
      match t.event {
        case First => CallEffect(c, r.s, t.now, sid, r.a);
        case Second => CallEffect(c, r.s, t.now, sid, r.b);
        case Traffic(request) => TrafficLeavesAlone(c, r.s, t.now, request, sid);
      }
      NoLaterRefusal(c, RaceStep(c, r, sid, t), sid, run[1..]);
    }
  }

  /** The two take turns until each has set the state; then the first finishes, and then the second. */
  function TakingTurns(now: Time): seq<Timed> {
    var (f, g) := (Timed.Timed(now, First), Timed.Timed(now, Second));
    [f, g, f, g, f, f, g, g]
  }

  lemma OrderWith(run: seq<Timed>, t: Timed)
    ensures OrderOf(run + [t]) == Then(OrderOf(run), t.event)
  {
    assert Front(run + [t]) == run;
  }

  lemma OrderWithFour(run: seq<Timed>, t: Timed, u: Timed, v: Timed, w: Timed)
    ensures OrderOf(run + [t, u, v, w]) == Then(Then(Then(Then(OrderOf(run), t.event), u.event), v.event), w.event)
  {
    OrderWith(run, t);
    OrderWith(run + [t], u);
    OrderWith(run + [t] + [u], v);
    OrderWith(run + [t] + [u] + [v], w);
    assert run + [t] + [u] + [v] + [w] == run + [t, u, v, w];
  }

  lemma OrderOfTurns(now: Time)
    ensures OrderOf(TakingTurns(now)) == Order(4, 4, false, false, false)
  {
    var (f, g) := (Timed.Timed(now, First), Timed.Timed(now, Second));
    OrderWithFour([], f, g, f, g);
    OrderWithFour([] + [f, g, f, g], f, f, g, g);
    assert [] + [f, g, f, g] + [f, f, g, g] == TakingTurns(now);
  }

  /** Out of the same state both are accepted, whatever they do next. */
  lemma BothAreAccepted(c: Codec, s: State, sid: string, now: Time, a: Call, b: Call, run: seq<Timed>)
    requires c.Lawful() && Undisturbed(s, sid) && OnlyTheseTwo(run, sid) && a.at == b.at == Start
    requires Accepts(s, sid, a.from) && Accepts(s, sid, b.from)
    requires |run| >= 2 && run[0] == Timed.Timed(now, First) && run[1] == Timed.Timed(now, Second)
    ensures !AnyRefused(Run(c, Race(s, a, b), sid, run))
  {
    CallEffect(c, s, now, sid, a);
    CallEffect(c, s, now, sid, b);
    HistoryStays(c, s, now, sid, Request.Get(sid, StateKey(sid)));
    var r1 := RaceStep(c, Race(s, a, b), sid, run[0]);
    var r2 := RaceStep(c, r1, sid, run[1]);
    assert run[1..][0] == run[1] && run[1..][1..] == run[2..];
    assert Run(c, Race(s, a, b), sid, run) == Run(c, r2, sid, run[2..]);
    assert forall t | t in run[2..] :: t in run;
    NoLaterRefusal(c, r2, sid, run[2..]);
  }

  /** Two moves out of the same state, in every session that is in it: both succeed and both are kept, and unless the
      first is a no-op they are no chain. */
  lemma BothMovesFromOneState(c: Codec, s: State, sid: string, now: Time, x: string, to1: string, to2: string)
    requires c.Lawful() && Undisturbed(s, sid) && Consistent(c, s, sid)
    requires sid in s.data && Current(s, sid) == x != "" && to1 != "" && to2 != ""
    ensures var r := Run(c, Race(s, Call(x, to1, Start), Call(x, to2, Start)), sid, TakingTurns(now));
            && r.a.at.Stored? && r.b.at.Stored?
            && History(c, r.s, sid) == History(c, s, sid) + [Transition(x, to1, now), Transition(x, to2, now)]
            && (Consistent(c, r.s, sid) <==> to1 == x)
  {
    var a, b, run := Call(x, to1, Start), Call(x, to2, Start), TakingTurns(now);
    OrderOfTurns(now);
    BothAreAccepted(c, s, sid, now, a, b, run);
    RaceFollowsSchedule(c, s, sid, a, b, run);
    RaceLosesATransitionExactlyWhen(c, s, sid, a, b, run);
    RaceStaysConsistentExactlyWhen(c, s, sid, a, b, run);
    WrittenAt(c, Race(s, a, b), sid, run, now);
  }

  /** In a run at one time, that is the time of what is written. */
  lemma {:induction false} WrittenAt(c: Codec, r: Race, sid: string, run: seq<Timed>, now: Time)
    requires forall t | t in run :: t.now == now
    requires (r.a.at.Stored? ==> r.a.at.written.at == now) && (r.b.at.Stored? ==> r.b.at.written.at == now)
    ensures var r' := Run(c, r, sid, run);
            (r'.a.at.Stored? ==> r'.a.at.written.at == now) && (r'.b.at.Stored? ==> r'.b.at.written.at == now)
    decreases |run|
  {
    if run != [] {
      assert run[0] in run;
      WrittenAt(c, RaceStep(c, r, sid, run[0]), sid, run[1..], now);
    }
  }
}
