/** The state machine kept inside a Comb session (internal/comb/structured.go): the current state under one
    key, the JSON list of past transitions under another. */
module Structured {
  import opened Wrappers
  import opened Comb

  datatype Transition = Transition(from: string, to: string, at: Time)

  /** The JSON codec: `unmarshal` is what the target holds after decoding, `readable` whether decoding reports no
      error. Only three facts matter: encodings are readable and decode to what was encoded, and "" is neither. */
  datatype Codec = Codec(
    marshal: seq<Transition> -> string, unmarshal: string -> seq<Transition>, readable: string -> bool)
  {
    ghost predicate Lawful() {
      && (forall h :: unmarshal(marshal(h)) == h && readable(marshal(h)) && marshal(h) != "")
      && !readable("")
    }
  }

  function StateKey(sid: string): string {
    "_state:" + sid
  }

  function HistoryKey(sid: string): string {
    "_state_history:" + sid
  }

  lemma KeysDiffer(sid: string)
    ensures StateKey(sid) != HistoryKey(sid)
  {
    assert StateKey(sid)[6] == ':' && HistoryKey(sid)[6] == '_';
  }

  datatype Outcome =
    | Recorded
    | LookupFailed     // no such session, or the state key has expired
    | InvalidTransition
    | StateNotStored   // the memory limit refused the new state
    | HistoryNotStored // the memory limit refused the longer history, after the state was stored

  /** TransitionState with nothing in between its store calls. */
  ghost function TransitionStep(c: Codec, s: State, now: Time, sid: string, from: string, to: string): (State, Outcome)
  {
    var (s1, current) := Step(s, now, Request.Get(sid, StateKey(sid)));
    if current == SessionNotFound || current == KeyExpired then (s1, LookupFailed)
    else if current.Value? && current.value != "" && current.value != from then (s1, InvalidTransition)
    else
      var (s2, stored) := Step(s1, now, Request.Set(sid, StateKey(sid), to, 0));
      if stored == LimitExceeded then (s2, StateNotStored)
      else
        var (s3, past) := Step(s2, now, Request.Get(sid, HistoryKey(sid)));
        var history := if past.Value? && past.value != "" then c.unmarshal(past.value) else [];
        var json := c.marshal(history + [Transition(from, to, now)]);
        var (s4, recorded) := Step(s3, now, Request.Set(sid, HistoryKey(sid), json, 0));
        (s4, if recorded == LimitExceeded then HistoryNotStored else Recorded)
  }

  // ----- What a session's state machine shows -----

  /** The current state; "" when none was ever set. */
  function Current(s: State, sid: string): string {
    if StateKey(sid) in s.Entries(sid) then s.Entries(sid)[StateKey(sid)].value else ""
  }

  function History(c: Codec, s: State, sid: string): seq<Transition> {
    if HistoryKey(sid) in s.Entries(sid) && s.Entries(sid)[HistoryKey(sid)].value != ""
    then c.unmarshal(s.Entries(sid)[HistoryKey(sid)].value)
    else []
  }

  method SetState(store: Store, now: Time, sid: string, state: string) returns (reply: Reply)
    requires store.Valid()
    modifies store
    ensures store.Valid()
    ensures (store.Contents(), reply) == Step(old(store.Contents()), now, Request.Set(sid, StateKey(sid), state, 0))
    ensures reply == Done ==> Current(store.Contents(), sid) == state
  {
    reply := store.Set(now, sid, StateKey(sid), state, 0);
  }

  method GetState(store: Store, now: Time, sid: string) returns (reply: Reply)
    requires store.Valid()
    modifies store
    ensures store.Valid()
    ensures (store.Contents(), reply) == Step(old(store.Contents()), now, Request.Get(sid, StateKey(sid)))
  {
    reply := store.Get(now, sid, StateKey(sid));
  }

  /** What GetStateHistory answers: no stored history counts as an empty one, an undecodable one is an error. */
  datatype HistoryReply = Past(history: seq<Transition>) | Unreadable

  ghost function HistoryStep(c: Codec, s: State, now: Time, sid: string): (State, HistoryReply) {
    var (s', reply) := Step(s, now, Request.Get(sid, HistoryKey(sid)));
    (s', if !reply.Value? then Past([])
         else if c.readable(reply.value) then Past(c.unmarshal(reply.value))
         else Unreadable)
  }

  method GetStateHistory(store: Store, c: Codec, now: Time, sid: string) returns (result: HistoryReply)
    requires store.Valid()
    modifies store
    ensures store.Valid()
    ensures (store.Contents(), result) == HistoryStep(c, old(store.Contents()), now, sid)
  {
    var reply := store.Get(now, sid, HistoryKey(sid));
    if !reply.Value? {
      return Past([]);
    }
    if !c.readable(reply.value) {
      return Unreadable;
    }
    return Past(c.unmarshal(reply.value));
  }

  /** After an accepted transition both readers show it, at any later time, and change nothing. */
  lemma ReadersShowTheTransition(c: Codec, s: State, now: Time, sid: string, from: string, to: string, later: Time)
    requires c.Lawful() && Undisturbed(s, sid) && Accepts(s, sid, from)
    ensures var s' := TransitionStep(c, s, now, sid, from, to).0;
            && Step(s', later, Request.Get(sid, StateKey(sid))) == (s', Value(to))
            && HistoryStep(c, s', later, sid) == (s', Past(History(c, s, sid) + [Transition(from, to, now)]))
  {
    KeysDiffer(sid);
  }

  ghost predicate IsChain(h: seq<Transition>) {
    forall i | 0 < i < |h| :: h[i - 1].to == h[i].from
  }

  /** The two keys carry no expiry and no limit can get in the way. */
  ghost predicate Undisturbed(s: State, sid: string) {
    && sid !in s.limits
    && (StateKey(sid) in s.Entries(sid) ==> s.Entries(sid)[StateKey(sid)].expiresAt == None)
    && (HistoryKey(sid) in s.Entries(sid) ==> s.Entries(sid)[HistoryKey(sid)].expiresAt == None)
  }

  /** The history is a chain that ends in the current state, and is empty exactly when there is none. */
  ghost predicate Consistent(c: Codec, s: State, sid: string) {
    var h := History(c, s, sid);
    && IsChain(h)
    && (forall t | t in h :: t.to != "")
    && Current(s, sid) == if h == [] then "" else h[|h| - 1].to
  }

  predicate Accepts(s: State, sid: string, from: string) {
    sid in s.data && (Current(s, sid) == "" || Current(s, sid) == from)
  }

  /** A call is accepted exactly when the session exists and is in state `from` or in no state yet. An accepted
      call moves the state and appends itself to the history; a refused one changes nothing at all. */
  lemma TransitionByGuard(c: Codec, s: State, now: Time, sid: string, from: string, to: string)
    requires c.Lawful() && Undisturbed(s, sid)
    ensures var (s', outcome) := TransitionStep(c, s, now, sid, from, to);
            && (outcome == Recorded <==> Accepts(s, sid, from))
            && (outcome == Recorded ==>
                  && Current(s', sid) == to
                  && History(c, s', sid) == History(c, s, sid) + [Transition(from, to, now)]
                  && Undisturbed(s', sid) && sid in s'.data)
            && (outcome != Recorded ==> s' == s)
  {
    KeysDiffer(sid);
  }

  // ----- Runs -----

  /** A run mixes transitions of one session with any other Comb traffic. */
  datatype Event = Move(from: string, to: string) | Traffic(request: Request)

  datatype Timed = Timed(now: Time, event: Event)

  /** Traffic that goes round the state machine: it writes one of its keys, clears it, or limits its session. */
  predicate Interferes(r: Request, sid: string) {
    match r
    case Set(id, key, _, _) => id == sid && (key == StateKey(sid) || key == HistoryKey(sid))
    case Delete(id, key) => id == sid && (key == StateKey(sid) || key == HistoryKey(sid))
    case Incr(id, key) => id == sid && (key == StateKey(sid) || key == HistoryKey(sid))
    case Clear(id) => id == sid
    case SetMemoryLimit(id, _) => id == sid
    case _ => false
  }

  ghost predicate OnlyTransitions(run: seq<Timed>, sid: string) {
    forall t | t in run :: if t.event.Move? then t.event.to != "" else !Interferes(t.event.request, sid)
  }

  ghost function EventStep(c: Codec, s: State, sid: string, t: Timed): State {
    match t.event
    case Move(from, to) => TransitionStep(c, s, t.now, sid, from, to).0
    case Traffic(request) => Step(s, t.now, request).0
  }

  ghost function Run(c: Codec, s: State, sid: string, run: seq<Timed>): State
    decreases |run|
  {
    if run == [] then s else Run(c, EventStep(c, s, sid, run[0]), sid, run[1..])
  }

  /** The transitions of the run whose guard held when they were made, in order. */
  ghost function AcceptedMoves(c: Codec, s: State, sid: string, run: seq<Timed>): seq<Transition>
    decreases |run|
  {
    if run == [] then []
    else AcceptedMove(s, sid, run[0]) + AcceptedMoves(c, EventStep(c, s, sid, run[0]), sid, run[1..])
  }

  lemma TrafficLeavesAlone(c: Codec, s: State, now: Time, request: Request, sid: string)
    requires Undisturbed(s, sid) && !Interferes(request, sid)
    ensures var s' := Step(s, now, request).0;
            && Undisturbed(s', sid)
            && Current(s', sid) == Current(s, sid)
            && History(c, s', sid) == History(c, s, sid)
  {
    EntryFrame(s, now, request, sid, StateKey(sid));
    EntryFrame(s, now, request, sid, HistoryKey(sid));
    LimitsFrame(s, now, request, sid);
  }

  lemma LimitsFrame(s: State, now: Time, request: Request, sid: string)
    requires sid !in s.limits && !(request.SetMemoryLimit? && request.sid == sid)
    ensures sid !in Step(s, now, request).0.limits
  {}

  /** Driven by TransitionState alone with non-empty targets, a session's history is exactly the list of accepted
      calls, in order; it is a chain, and the current state is the last target. */
  lemma {:induction false} TransitionsOnlyRun(c: Codec, s: State, sid: string, run: seq<Timed>)
    requires c.Lawful() && Undisturbed(s, sid) && Consistent(c, s, sid) && OnlyTransitions(run, sid)
    ensures var end := Run(c, s, sid, run);
            && Undisturbed(end, sid)
            && Consistent(c, end, sid)
            && History(c, end, sid) == History(c, s, sid) + AcceptedMoves(c, s, sid, run)
    decreases |run|
  {
    var before, accepted := History(c, s, sid), AcceptedMoves(c, s, sid, run);
    if run == [] {
      assert before + accepted == before;
    } else {
      var next := EventStep(c, s, sid, run[0]);
      EventKeepsConsistent(c, s, sid, run[0]);
      TransitionsOnlyRun(c, next, sid, run[1..]);
      Associate(before, AcceptedMove(s, sid, run[0]), AcceptedMoves(c, next, sid, run[1..]));
    }
  }

  lemma Associate(a: seq<Transition>, b: seq<Transition>, c: seq<Transition>)
    ensures (a + b) + c == a + (b + c)
  {}

  function AcceptedMove(s: State, sid: string, t: Timed): seq<Transition> {
    if t.event.Move? && Accepts(s, sid, t.event.from)
    then [Transition(t.event.from, t.event.to, t.now)]
    else []
  }

  lemma EventKeepsConsistent(c: Codec, s: State, sid: string, t: Timed)
    requires c.Lawful() && Undisturbed(s, sid) && Consistent(c, s, sid)
    requires if t.event.Move? then t.event.to != "" else !Interferes(t.event.request, sid)
    ensures var s' := EventStep(c, s, sid, t);
            && Undisturbed(s', sid) && Consistent(c, s', sid)
            && History(c, s', sid) == History(c, s, sid) + AcceptedMove(s, sid, t)
  {
    match t.event
    case Move(from, to) => MoveKeepsConsistent(c, s, t.now, sid, from, to);
    case Traffic(request) => TrafficLeavesAlone(c, s, t.now, request, sid);
  }

  lemma ConsistentAppend(h: seq<Transition>, current: string, t: Transition)
    requires IsChain(h) && (forall x | x in h :: x.to != "") && current == if h == [] then "" else h[|h| - 1].to
    requires (current == "" || current == t.from) && t.to != ""
    ensures IsChain(h + [t]) && forall x | x in h + [t] :: x.to != ""
  {
    if h != [] {
      assert h[|h| - 1] in h;
    }
  }

  lemma MoveKeepsConsistent(c: Codec, s: State, now: Time, sid: string, from: string, to: string)
    requires c.Lawful() && Undisturbed(s, sid) && Consistent(c, s, sid) && to != ""
    ensures var s' := TransitionStep(c, s, now, sid, from, to).0;
            && Undisturbed(s', sid) && Consistent(c, s', sid)
            && History(c, s', sid)
               == History(c, s, sid) + if Accepts(s, sid, from) then [Transition(from, to, now)] else []
  {
    TransitionByGuard(c, s, now, sid, from, to);
    if Accepts(s, sid, from) {
      ConsistentAppend(History(c, s, sid), Current(s, sid), Transition(from, to, now));
    }
  }

  // ----- What breaks it -----

  /** Setting the state directly breaks consistency unless it repeats the state already current. */
  lemma SetStateBreaksUnlessNoOp(c: Codec, s: State, now: Time, sid: string, state: string)
    requires Undisturbed(s, sid) && Consistent(c, s, sid)
    ensures Consistent(c, Step(s, now, Request.Set(sid, StateKey(sid), state, 0)).0, sid) <==> state == Current(s, sid)
  {
    KeysDiffer(sid);
    var s' := Step(s, now, Request.Set(sid, StateKey(sid), state, 0)).0;
    assert History(c, s', sid) == History(c, s, sid);
  }

  /** The guard of TransitionState on the entries that have not expired. */
  predicate AcceptsAt(s: State, now: Time, sid: string, from: string) {
    && sid in s.data
    && (StateKey(sid) in s.data[sid] ==>
          && !s.data[sid][StateKey(sid)].Expired(now)
          && (s.data[sid][StateKey(sid)].value == "" || s.data[sid][StateKey(sid)].value == from))
  }

  function UsageAfterState(s: State, sid: string, to: string): int {
    s.Usage(sid) - s.Size(sid, StateKey(sid)) + |to|
  }

  /** The history a transition would store. */
  function NextHistory(c: Codec, s: State, now: Time, sid: string, from: string, to: string): string {
    var past := s.Lookup(sid, HistoryKey(sid), now);
    c.marshal((if past.Some? && past.value != "" then c.unmarshal(past.value) else []) + [Transition(from, to, now)])
  }

  /** The limit has room for the new state but not for the longer history. */
  predicate LimitCutsHistory(c: Codec, s: State, now: Time, sid: string, from: string, to: string) {
    && AcceptsAt(s, now, sid, from)
    && sid in s.limits
    && UsageAfterState(s, sid, to) <= s.limits[sid]
    && s.limits[sid]
       < UsageAfterState(s, sid, to) - s.Size(sid, HistoryKey(sid)) + |NextHistory(c, s, now, sid, from, to)|
  }

  ghost predicate NeverExpires(s: State, sid: string) {
    forall k | k in s.Entries(sid) :: s.Entries(sid)[k].expiresAt == None
  }

  /** The history write fails after the state has moved exactly when the limit lies between the two writes. */
  lemma HistoryIsCutExactlyWhen(c: Codec, s: State, now: Time, sid: string, from: string, to: string)
    ensures TransitionStep(c, s, now, sid, from, to).1 == HistoryNotStored
            <==> LimitCutsHistory(c, s, now, sid, from, to)
  {
    KeysDiffer(sid);
  }

  /** Under that guard the state moves and the history does not, so the two agree afterwards exactly when the move was
      a no-op. */
  lemma LostHistoryWriteBreaks(c: Codec, s: State, now: Time, sid: string, from: string, to: string)
    requires c.Lawful() && Consistent(c, s, sid) && NeverExpires(s, sid)
    ensures TransitionStep(c, s, now, sid, from, to).1 == HistoryNotStored
            <==> LimitCutsHistory(c, s, now, sid, from, to)
    ensures LimitCutsHistory(c, s, now, sid, from, to) ==>
              var s' := TransitionStep(c, s, now, sid, from, to).0;
              && Current(s', sid) == to && History(c, s', sid) == History(c, s, sid)
              && (Consistent(c, s', sid) <==> to == Current(s, sid))
  {
    HistoryIsCutExactlyWhen(c, s, now, sid, from, to);
    KeysDiffer(sid);
  }

  /** One call keeps history and state consistent if and only if it is refused or names a non-empty target. */
  lemma ConsistentExactlyWhen(c: Codec, s: State, now: Time, sid: string, from: string, to: string)
    requires c.Lawful() && Undisturbed(s, sid) && Consistent(c, s, sid)
    ensures Consistent(c, TransitionStep(c, s, now, sid, from, to).0, sid) <==> !Accepts(s, sid, from) || to != ""
  {
    TransitionByGuard(c, s, now, sid, from, to);
    if to != "" || !Accepts(s, sid, from) {
      MoveKeepsConsistentWhenNamed(c, s, now, sid, from, to);
    } else {
      var h := History(c, TransitionStep(c, s, now, sid, from, to).0, sid);
      assert h[|h| - 1] in h;
    }
  }

  lemma MoveKeepsConsistentWhenNamed(c: Codec, s: State, now: Time, sid: string, from: string, to: string)
    requires c.Lawful() && Undisturbed(s, sid) && Consistent(c, s, sid) && (to != "" || !Accepts(s, sid, from))
    ensures Consistent(c, TransitionStep(c, s, now, sid, from, to).0, sid)
  {
    if to != "" {
      MoveKeepsConsistent(c, s, now, sid, from, to);
    } else {
      TransitionByGuard(c, s, now, sid, from, to);
    }
  }

  /** An accepted empty target wipes the current state: the next transition is accepted whatever it starts from, and the
      history stays a chain if and only if that is the empty state. */
  lemma EmptyTargetBreaksTheChain(c: Codec, s: State, now: Time, sid: string, from: string,
                                  later: Time, next: string, to: string)
    requires c.Lawful() && Undisturbed(s, sid) && Consistent(c, s, sid) && Accepts(s, sid, from)
    ensures var wiped := TransitionStep(c, s, now, sid, from, "").0;
            var (end, outcome) := TransitionStep(c, wiped, later, sid, next, to);
            && outcome == Recorded
            && (IsChain(History(c, end, sid)) <==> next == "")
  {
    TransitionByGuard(c, s, now, sid, from, "");
    var wiped := TransitionStep(c, s, now, sid, from, "").0;
    TransitionByGuard(c, wiped, later, sid, next, to);
    ChainExtends(History(c, s, sid), Current(s, sid), Transition(from, "", now), Transition(next, to, later));
  }

  lemma ChainExtends(h: seq<Transition>, current: string, a: Transition, b: Transition)
    requires IsChain(h) && (h != [] ==> h[|h| - 1].to == current && current == a.from)
    ensures IsChain(h + [a] + [b]) <==> a.to == b.from
  {
    var all := h + [a] + [b];
    assert all[|h|] == a && all[|h| + 1] == b;
  }

  /** A stored history that does not decode is an error to its reader, and what the decoder leaves of it is the start of
      the next transition's. */
  lemma UnreadableHistory(c: Codec, s: State, now: Time, sid: string, text: string, from: string, to: string)
    requires c.Lawful() && Undisturbed(s, sid) && HistoryKey(sid) in s.Entries(sid)
    requires s.Entries(sid)[HistoryKey(sid)].value == text && text != ""
    ensures HistoryStep(c, s, now, sid) == (s, if c.readable(text) then Past(c.unmarshal(text)) else Unreadable)
    ensures Accepts(s, sid, from) ==>
              HistoryStep(c, TransitionStep(c, s, now, sid, from, to).0, now, sid).1
              == Past(c.unmarshal(text) + [Transition(from, to, now)])
  {
    KeysDiffer(sid);
    if Accepts(s, sid, from) {
      ReadersShowTheTransition(c, s, now, sid, from, to, now);
    }
  }

  /** Which error a refused transition reports, for all states: no session or an expired state; a live state that is
      neither empty nor the one named; a limit without room for the new state. */
  lemma RefusalsAreTold(c: Codec, s: State, now: Time, sid: string, from: string, to: string)
    ensures var outcome := TransitionStep(c, s, now, sid, from, to).1;
            var known := StateKey(sid) in s.Entries(sid);
            && (outcome == LookupFailed <==> sid !in s.data || (known && s.Entries(sid)[StateKey(sid)].Expired(now)))
            && (outcome == InvalidTransition <==>
                  && known && !s.Entries(sid)[StateKey(sid)].Expired(now)
                  && s.Entries(sid)[StateKey(sid)].value != "" && s.Entries(sid)[StateKey(sid)].value != from)
            && (outcome == StateNotStored <==>
                  && AcceptsAt(s, now, sid, from) && sid in s.limits
                  && UsageAfterState(s, sid, to) > s.limits[sid])
  {
    KeysDiffer(sid);
  }
}
