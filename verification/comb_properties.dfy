/** What whole runs of the Comb store guarantee: it answers like a map whose entries vanish the moment they
    expire, and its byte counters account for every byte stored except what Incr changed. */
module CombProperties {
  import opened Arithmetic
  import opened Wrappers
  import Decimal
  import opened Comb

  datatype Timed = Timed(now: Time, request: Request)

  /** Clock readings never go backwards. */
  ghost predicate InOrder(run: seq<Timed>, from: Time) {
    run == [] || (from <= run[0].now && InOrder(run[1..], run[0].now))
  }

  ghost predicate IncrFree(run: seq<Timed>) {
    forall t | t in run :: !t.request.Incr?
  }

  ghost function Run(s: State, run: seq<Timed>): State
    decreases |run|
  {
    if run == [] then s else Run(Step(s, run[0].now, run[0].request).0, run[1..])
  }

  // ----- The reference: a map with eager expiry -----

  /** Sessions with their live entries only. It keeps no byte counters and never holds an expired entry. */
  type Eager = map<string, Session>

  function Purge(e: Eager, now: Time): Eager {
    map sid | sid in e :: Live(e[sid], now)
  }

  function EntriesOf(e: Eager, sid: string): Session {
    if sid in e then e[sid] else map[]
  }

  /** One call on the reference. Limits are not its business: `refused` says whether a Set was turned down. */
  function EagerStep(e: Eager, now: Time, request: Request, refused: bool): (Eager, Reply) {
    match request
    case Get(sid, key) =>
      (e, if sid !in e then SessionNotFound else if key in e[sid] then Value(e[sid][key].value) else KeyNotFound)
    case Set(sid, key, value, ttl) =>
      if refused then (e[sid := EntriesOf(e, sid)], LimitExceeded)
      else (e[sid := EntriesOf(e, sid)[key := Entry(value, Deadline(now, ttl))]], Done)
    case Delete(sid, key) =>
      if sid !in e then (e, SessionNotFound) else (e[sid := e[sid] - {key}], Done)
    case Exists(sid, key) => (e, Found(key in EntriesOf(e, sid)))
    case Incr(sid, key) => EagerIncr(e, sid, key)
    case Keys(sid, pattern) => (e, Listing(set k | k in EntriesOf(e, sid) && Matches(k, pattern)))
    case Clear(sid) => (if sid in e then e[sid := map[]] else e, Done)
    case SetMemoryLimit(_, _) => (e, Done)
    case Expire => (e, Done)
  }

  /** A counter that is not there starts from zero. */
  function EagerIncr(e: Eager, sid: string, key: string): (Eager, Reply) {
    var m := EntriesOf(e, sid);
    var entry := if key in m then m[key] else Entry("0", None);
    match Increment(entry.value)
    case None => (e[sid := m], NotANumber)
    case Some(n) => (e[sid := m[key := entry.(value := Decimal.FormatInt(n))]], Number(n))
  }

  /** The reference cannot tell a key that has expired from one that was never there. */
  function Blur(reply: Reply): Reply {
    if reply == KeyExpired then KeyNotFound else reply
  }

  /** Started in these states and given the same calls, the Comb store and the reference answer alike and hold the same
      live entries after every call. */
  ghost predicate StaysInStep(s: State, e: Eager, run: seq<Timed>)
    decreases |run|
  {
    run == [] ||
    var (now, request) := (run[0].now, run[0].request);
    var (s', reply) := Step(s, now, request);
    var (e', answer) := EagerStep(Purge(e, now), now, request, reply == LimitExceeded);
    answer == Blur(reply) && e' == Purge(s'.data, now) && StaysInStep(s', e', run[1..])
  }

  /** An Incr that finds an entry past its deadline. */
  predicate HitsExpired(s: State, now: Time, request: Request) {
    request.Incr? && request.key in s.Entries(request.sid) && s.Entries(request.sid)[request.key].Expired(now)
  }

  /** No Incr of the run finds an expired entry. */
  ghost predicate IncrsSeeLive(s: State, run: seq<Timed>)
    decreases |run|
  {
    run == [] ||
    (!HitsExpired(s, run[0].now, run[0].request) && IncrsSeeLive(Step(s, run[0].now, run[0].request).0, run[1..]))
  }

  lemma {:induction false} IncrFreeRunsSeeLive(s: State, run: seq<Timed>)
    requires IncrFree(run)
    ensures IncrsSeeLive(s, run)
    decreases |run|
  {
    if run != [] {
      assert run[0] in run;
      IncrFreeRunsSeeLive(Step(s, run[0].now, run[0].request).0, run[1..]);
    }
  }

  lemma PurgeLater(e: Eager, t: Time, now: Time)
    requires t <= now
    ensures Purge(Purge(e, t), now) == Purge(e, now)
  {
    forall sid | sid in e
      ensures Live(Live(e[sid], t), now) == Live(e[sid], now)
    {}
  }

  lemma LiveWith(m: Session, key: string, entry: Entry, now: Time)
    requires !entry.Expired(now)
    ensures Live(m[key := entry], now) == Live(m, now)[key := entry]
  {}

  lemma LiveWithout(m: Session, key: string, now: Time)
    ensures Live(m - {key}, now) == Live(m, now) - {key}
  {}

  lemma PurgeWith(data: map<string, Session>, sid: string, m: Session, now: Time)
    ensures Purge(data[sid := m], now) == Purge(data, now)[sid := Live(m, now)]
  {}

  /** One call keeps the Comb store and the reference in step, with the same answer, unless it is an Incr that finds an
      expired entry, and then it does not. */
  lemma StepRefines(s: State, now: Time, request: Request)
    ensures var (s', reply) := Step(s, now, request);
            EagerStep(Purge(s.data, now), now, request, reply == LimitExceeded) == (Purge(s'.data, now), Blur(reply))
            <==> !HitsExpired(s, now, request)
  {
    match request
    case Get(sid, key) => RemoveRefines(s, now, sid, key);
    case Set(sid, key, value, ttl) => SetRefines(s, now, sid, key, value, ttl);
    case Delete(sid, key) => RemoveRefines(s, now, sid, key);
    case Exists(sid, key) => RemoveRefines(s, now, sid, key);
    case Incr(sid, key) => IncrRefinesExactlyWhen(s, now, sid, key);
    case Clear(sid) => PurgeWith(s.data, sid, map[], now);
    case Expire => PurgeLater(s.data, now, now);
    case Keys(sid, pattern) => assert EntriesOf(Purge(s.data, now), sid) == Live(s.Entries(sid), now);
    case SetMemoryLimit(_, _) =>
  }

  /** Incr answers and stores what the eager map would if and only if the entry it finds has not expired. */
  lemma IncrRefinesExactlyWhen(s: State, now: Time, sid: string, key: string)
    ensures var (s', reply) := IncrStep(s, sid, key);
            EagerIncr(Purge(s.data, now), sid, key) == (Purge(s'.data, now), Blur(reply))
            <==> !(key in s.Entries(sid) && s.Entries(sid)[key].Expired(now))
  {
    if key in s.Entries(sid) && s.Entries(sid)[key].Expired(now) {
      IncrKeepsExpired(s, now, sid, key);
    } else {
      IncrRefinesLive(s, now, sid, key);
    }
  }

  lemma IncrKeepsExpired(s: State, now: Time, sid: string, key: string)
    requires key in s.Entries(sid) && s.Entries(sid)[key].Expired(now)
    ensures key !in EntriesOf(Purge(IncrStep(s, sid, key).0.data, now), sid)
    ensures key in EntriesOf(EagerIncr(Purge(s.data, now), sid, key).0, sid)
  {
    IncrementCounts(0);
  }

  lemma IncrRefinesLive(s: State, now: Time, sid: string, key: string)
    requires key in s.Entries(sid) ==> !s.Entries(sid)[key].Expired(now)
    ensures var (s', reply) := IncrStep(s, sid, key);
            EagerIncr(Purge(s.data, now), sid, key) == (Purge(s'.data, now), Blur(reply))
  {
    var entry := if key in s.Entries(sid) then s.Entries(sid)[key] else Entry("0", None);
    WriteRefines(s, now, sid, key, entry);
    var next := Increment(entry.value);
    if next.Some? {
      WriteRefines(s, now, sid, key, entry.(value := Decimal.FormatInt(next.value)));
    }
  }

  lemma RemoveRefines(s: State, now: Time, sid: string, key: string)
    ensures sid in s.data ==>
              var e := Purge(s.data, now);
              && (key in s.data[sid] ==> Purge(Remove(s, sid, key).data, now) == e[sid := e[sid] - {key}])
              && (key !in s.data[sid] || s.data[sid][key].Expired(now) ==> e[sid := e[sid] - {key}] == e)
  {
    if sid in s.data {
      var e := Purge(s.data, now);
      PurgeWith(s.data, sid, s.data[sid] - {key}, now);
      LiveWithout(s.data[sid], key, now);
      if key !in s.data[sid] || s.data[sid][key].Expired(now) {
        assert e[sid] - {key} == e[sid];
        assert e[sid := e[sid]] == e;
      }
    }
  }

  /** Get and Exists delete an entry they saw expired without looking again (comb.go:128-141). Whatever has happened
      to the store in between, that deletion is invisible if and only if the key is then gone or still expired;
      otherwise a live entry is lost. */
  lemma LateDeletionIsInvisibleExactlyWhen(s: State, now: Time, sid: string, key: string)
    ensures var s' := if key in s.Entries(sid) then Remove(s, sid, key) else s;
            Purge(s'.data, now) == Purge(s.data, now)
            <==> (key in s.Entries(sid) ==> s.Entries(sid)[key].Expired(now))
  {
    RemoveRefines(s, now, sid, key);
    if key in s.Entries(sid) && !s.Entries(sid)[key].Expired(now) {
      assert key in Purge(s.data, now)[sid] && key !in Purge(Remove(s, sid, key).data, now)[sid];
    }
  }

  lemma WriteRefines(s: State, now: Time, sid: string, key: string, entry: Entry)
    requires !entry.Expired(now)
    ensures var e, m := Purge(s.data, now), s.Entries(sid);
            && Open(s, sid).data == s.data[sid := m]
            && Live(m, now) == EntriesOf(e, sid)
            && Purge(s.data[sid := m], now) == e[sid := EntriesOf(e, sid)]
            && Purge(s.data[sid := m][sid := m[key := entry]], now) == e[sid := EntriesOf(e, sid)[key := entry]]
  {
    var m := s.Entries(sid);
    PurgeWith(s.data, sid, m, now);
    LiveWith(m, key, entry, now);
    PurgeWith(s.data, sid, m[key := entry], now);
    assert s.data[sid := m][sid := m[key := entry]] == s.data[sid := m[key := entry]];
  }

  lemma SetRefines(s: State, now: Time, sid: string, key: string, value: string, ttl: Time)
    ensures var (s', reply) := SetStep(s, now, sid, key, value, ttl);
            EagerStep(Purge(s.data, now), now, Request.Set(sid, key, value, ttl), reply == LimitExceeded)
            == (Purge(s'.data, now), Blur(reply))
  {
    WriteRefines(s, now, sid, key, Entry(value, Deadline(now, ttl)));
  }

  /** For every run from every state: the Comb store answers like the eager map and holds what it holds, call by
      call, if and only if no Incr of the run finds an expired entry. Deletion on read and the background sweep
      are therefore invisible. */
  lemma {:induction false} RunRefines(s: State, run: seq<Timed>, from: Time)
    requires InOrder(run, from)
    ensures StaysInStep(s, Purge(s.data, from), run) <==> IncrsSeeLive(s, run)
    decreases |run|
  {
    if run != [] {
      var now := run[0].now;
      PurgeLater(s.data, from, now);
      StepRefines(s, now, run[0].request);
      RunRefines(Step(s, now, run[0].request).0, run[1..], now);
    }
  }

  /** A session without a limit is never turned down, so there the reference needs no verdict from outside. */
  lemma {:induction false} UnlimitedSetsSucceed(s: State, run: seq<Timed>, sid: string)
    requires sid !in s.limits && forall t | t in run :: !(t.request.SetMemoryLimit? && t.request.sid == sid)
    ensures forall i | 0 <= i < |run| && run[i].request.Set? && run[i].request.sid == sid ::
              Step(Run(s, run[..i]), run[i].now, run[i].request).1 == Done
    decreases |run|
  {
    if run != [] {
      var s' := Step(s, run[0].now, run[0].request).0;
      UnlimitedSetsSucceed(s', run[1..], sid);
      forall i | 0 <= i < |run| && run[i].request.Set? && run[i].request.sid == sid
        ensures Step(Run(s, run[..i]), run[i].now, run[i].request).1 == Done
      {
        if i > 0 {
          assert run[..i][1..] == run[1..][..i - 1];
          assert run[i] == run[1..][i - 1];
        }
      }
    }
  }

  // ----- Byte accounting -----

  /** Length changes made by Incr to each session since its last Clear. */
  type Drift = map<string, int>

  function DriftOf(d: Drift, sid: string): int {
    if sid in d then d[sid] else 0
  }

  function DriftOfWrite(d: Drift, s: State, s': State, sid: string, key: string): Drift {
    d[sid := DriftOf(d, sid) + s'.Size(sid, key) - s.Size(sid, key)]
  }

  ghost function DriftStep(d: Drift, s: State, now: Time, request: Request): Drift {
    match request
    case Incr(sid, key) => DriftOfWrite(d, s, IncrStep(s, sid, key).0, sid, key)
    case Clear(sid) => d[sid := 0]
    case _ => d
  }

  ghost function RunDrift(d: Drift, s: State, run: seq<Timed>): Drift
    decreases |run|
  {
    if run == [] then d
    else
      RunDrift(DriftStep(d, s, run[0].now, run[0].request), Step(s, run[0].now, run[0].request).0, run[1..])
  }

  /** The counter of a session plus its drift is the number of bytes it stores. */
  ghost predicate BalancedAt(s: State, d: Drift, sid: string) {
    s.Usage(sid) + DriftOf(d, sid) == Bytes(s.Entries(sid))
  }

  ghost predicate Balanced(s: State, d: Drift) {
    s.WellFormed() && forall sid :: BalancedAt(s, d, sid)
  }

  lemma StepKeepsBalance(s: State, d: Drift, now: Time, request: Request)
    requires Balanced(s, d)
    ensures Balanced(Step(s, now, request).0, DriftStep(d, s, now, request))
  {
    match request
    case Get(sid, key) => RemoveKeepsBalance(s, d, sid, key);
    case Delete(sid, key) => RemoveKeepsBalance(s, d, sid, key);
    case Exists(sid, key) => RemoveKeepsBalance(s, d, sid, key);
    case Set(sid, key, value, ttl) => SetKeepsBalance(s, d, now, sid, key, value, ttl);
    case Incr(sid, key) => IncrKeepsBalance(s, d, sid, key);
    case Clear(sid) => ClearKeepsBalance(s, d, now, sid);
    case Expire => ExpireKeepsBalance(s, d, now);
    case _ =>
      forall sid ensures BalancedAt(Step(s, now, request).0, d, sid) {
        assert BalancedAt(s, d, sid);
      }
  }

  /** Moving one session's bytes and counter (or drift) by the same amount, and no other session's, keeps balance. */
  lemma BalanceElsewhere(s: State, d: Drift, s': State, d': Drift, sid: string)
    requires Balanced(s, d) && s'.WellFormed() && BalancedAt(s', d', sid)
    requires forall other | other != sid ::
               && s'.Entries(other) == s.Entries(other) && s'.Usage(other) == s.Usage(other)
               && DriftOf(d', other) == DriftOf(d, other)
    ensures Balanced(s', d')
  {
    forall other ensures BalancedAt(s', d', other) {
      assert BalancedAt(s, d, other);
    }
  }

  lemma RemoveKeepsBalance(s: State, d: Drift, sid: string, key: string)
    requires Balanced(s, d)
    ensures key in s.Entries(sid) ==> Balanced(Remove(s, sid, key), d)
  {
    if key in s.Entries(sid) {
      assert BalancedAt(s, d, sid);
      BytesWithout(s.data[sid], key);
      BalanceElsewhere(s, d, Remove(s, sid, key), d, sid);
    }
  }

  lemma SetKeepsBalance(s: State, d: Drift, now: Time, sid: string, key: string, value: string, ttl: Time)
    requires Balanced(s, d)
    ensures Balanced(SetStep(s, now, sid, key, value, ttl).0, d)
  {
    assert BalancedAt(s, d, sid);
    BytesWith(s.Entries(sid), key, Entry(value, Deadline(now, ttl)));
    BalanceElsewhere(s, d, SetStep(s, now, sid, key, value, ttl).0, d, sid);
  }

  lemma OpenKeepsBalance(s: State, d: Drift, sid: string)
    requires Balanced(s, d)
    ensures Balanced(Open(s, sid), d)
  {
    assert BalancedAt(s, d, sid);
    BalanceElsewhere(s, d, Open(s, sid), d, sid);
  }

  /** Storing an entry without touching the counter shows up as drift. */
  lemma UncountedWrite(s: State, d: Drift, sid: string, key: string, entry: Entry)
    requires Balanced(s, d) && sid in s.data
    ensures Balanced(s.(data := s.data[sid := s.data[sid][key := entry]]),
                     d[sid := DriftOf(d, sid) + |entry.value| - s.Size(sid, key)])
  {
    assert BalancedAt(s, d, sid);
    BytesWith(s.data[sid], key, entry);
    BalanceElsewhere(s, d, s.(data := s.data[sid := s.data[sid][key := entry]]),
                     d[sid := DriftOf(d, sid) + |entry.value| - s.Size(sid, key)], sid);
  }

  lemma OneEntryKeepsBalance(s: State, d: Drift, s': State, sid: string, key: string)
    requires Balanced(s, d) && OneEntryWritten(s, s', sid, key)
    ensures Balanced(s', DriftOfWrite(d, s, s', sid, key))
  {
    OpenKeepsBalance(s, d, sid);
    if s' == Open(s, sid) {
      ZeroShift(s', d, sid);
    } else {
      UncountedWrite(Open(s, sid), d, sid, key, s'.data[sid][key]);
    }
  }

  lemma IncrKeepsBalance(s: State, d: Drift, sid: string, key: string)
    requires Balanced(s, d)
    ensures Balanced(IncrStep(s, sid, key).0, DriftOfWrite(d, s, IncrStep(s, sid, key).0, sid, key))
  {
    IncrWritesOneEntry(s, sid, key);
    OneEntryKeepsBalance(s, d, IncrStep(s, sid, key).0, sid, key);
  }

  lemma ZeroShift(s: State, d: Drift, sid: string)
    requires Balanced(s, d)
    ensures Balanced(s, d[sid := DriftOf(d, sid)])
  {
    assert BalancedAt(s, d, sid);
    BalanceElsewhere(s, d, s, d[sid := DriftOf(d, sid)], sid);
  }

  lemma ClearKeepsBalance(s: State, d: Drift, now: Time, sid: string)
    requires Balanced(s, d)
    ensures Balanced(Step(s, now, Request.Clear(sid)).0, d[sid := 0])
  {
    assert BalancedAt(s, d, sid);
    BalanceElsewhere(s, d, Step(s, now, Request.Clear(sid)).0, d[sid := 0], sid);
  }

  lemma ExpireKeepsBalance(s: State, d: Drift, now: Time)
    requires Balanced(s, d)
    ensures Balanced(ExpireStep(s, now), d)
  {
    forall sid ensures BalancedAt(ExpireStep(s, now), d, sid) {
      assert BalancedAt(s, d, sid);
    }
  }

  /** Conservation: at the end of every run, each session's counter plus its drift is what it stores. */
  lemma {:induction false} RunKeepsBalance(s: State, d: Drift, run: seq<Timed>)
    requires Balanced(s, d)
    ensures Balanced(Run(s, run), RunDrift(d, s, run))
    decreases |run|
  {
    if run != [] {
      StepKeepsBalance(s, d, run[0].now, run[0].request);
      RunKeepsBalance(Step(s, run[0].now, run[0].request).0, DriftStep(d, s, run[0].now, run[0].request), run[1..]);
    }
  }

  ghost predicate Exact(s: State) {
    Balanced(s, map[])
  }

  lemma {:induction false} ZeroDriftIsExact(s: State, d: Drift)
    requires Balanced(s, d) && forall sid | sid in d :: d[sid] == 0
    ensures Exact(s)
  {
    forall sid ensures BalancedAt(s, map[], sid) {
      assert BalancedAt(s, d, sid);
    }
  }

  /** Without Incr the counters of a fresh store are always exact. */
  lemma {:induction false} IncrFreeRunsAreExact(s: State, run: seq<Timed>)
    requires Exact(s) && IncrFree(run)
    ensures Exact(Run(s, run))
    decreases |run|
  {
    if run != [] {
      var (now, request) := (run[0].now, run[0].request);
      StepKeepsBalance(s, map[], now, request);
      ZeroDriftIsExact(Step(s, now, request).0, DriftStep(map[], s, now, request));
      IncrFreeRunsAreExact(Step(s, now, request).0, run[1..]);
    }
  }

  ghost predicate WithinLimit(s: State, sid: string) {
    sid in s.limits && Bytes(s.Entries(sid)) <= s.limits[sid]
  }

  /** Without Incr, a session at or below its limit stays there for as long as the limit is left alone. */
  lemma {:induction false} LimitHoldsWithoutIncr(s: State, run: seq<Timed>, sid: string)
    requires Exact(s) && WithinLimit(s, sid) && IncrFree(run)
    requires forall t | t in run :: !(t.request.SetMemoryLimit? && t.request.sid == sid)
    ensures WithinLimit(Run(s, run), sid)
    decreases |run|
  {
    if run != [] {
      var (now, request) := (run[0].now, run[0].request);
      var s' := Step(s, now, request).0;
      IncrFreeRunsAreExact(s, [run[0]]);
      assert Run(s, [run[0]]) == s';
      StepKeepsLimit(s, now, request, sid);
      LimitHoldsWithoutIncr(s', run[1..], sid);
    }
  }

  lemma StepKeepsLimit(s: State, now: Time, request: Request, sid: string)
    requires Exact(s) && WithinLimit(s, sid)
    requires !request.Incr? && !(request.SetMemoryLimit? && request.sid == sid)
    requires Exact(Step(s, now, request).0)
    ensures WithinLimit(Step(s, now, request).0, sid)
  {
    var s' := Step(s, now, request).0;
    assert BalancedAt(s, map[], sid) && BalancedAt(s', map[], sid);
    if request.Expire? && sid in s.data {
      LiveIsNoBigger(s.data[sid], now);
    }
  }

  lemma {:induction false} LiveIsNoBigger(m: Session, now: Time)
    ensures Bytes(Live(m, now)) <= Bytes(m)
    decreases |m|
  {
    if m == map[] {
      assert Live(m, now) == m;
    } else {
      var k :| k in m;
      BytesWithout(m, k);
      LiveIsNoBigger(m - {k}, now);
      LiveWithout(m, k, now);
      LiveBytesWithout(m, k, now);
    }
  }

  lemma LiveBytesWithout(m: Session, key: string, now: Time)
    requires key in m
    ensures Bytes(Live(m, now)) <= Bytes(Live(m, now) - {key}) + |m[key].value|
  {
    if key in Live(m, now) {
      BytesWithout(Live(m, now), key);
    } else {
      assert Live(m, now) - {key} == Live(m, now);
    }
  }

  // ----- Incr -----

  ghost function IncrTimes(s: State, sid: string, key: string, n: nat): State {
    if n == 0 then s else IncrStep(IncrTimes(s, sid, key, n - 1), sid, key).0
  }

  /** The key holds the counter value n; a missing key counts as zero. */
  ghost predicate Counts(s: State, sid: string, key: string, n: int) {
    if key in s.Entries(sid) then s.Entries(sid)[key] == Entry(Decimal.FormatInt(n), None) else n == 0
  }

  lemma IncrCountsOneMore(s: State, sid: string, key: string, n: int)
    requires Counts(s, sid, key, n) && 0 <= n < Decimal.MAX_INT64
    ensures IncrStep(s, sid, key).1 == Number(n + 1)
    ensures Counts(IncrStep(s, sid, key).0, sid, key, n + 1)
  {
    IncrementCounts(n);
  }

  /** Starting from a missing key, the n-th increment answers n. */
  lemma {:induction false} IncrCounts(s: State, sid: string, key: string, n: nat)
    requires key !in s.Entries(sid) && 0 < n <= Decimal.MAX_INT64
    ensures IncrStep(IncrTimes(s, sid, key, n - 1), sid, key).1 == Number(n)
    ensures Counts(IncrTimes(s, sid, key, n), sid, key, n)
  {
    if n > 1 {
      IncrCounts(s, sid, key, n - 1);
    }
    IncrCountsOneMore(IncrTimes(s, sid, key, n - 1), sid, key, n - 1);
  }

  /** For every expired counter: Incr answers its successor, where the eager map, in which it is gone, answers 1. */
  lemma IncrSeesExpiredEntries(s: State, now: Time, sid: string, key: string)
    requires key in s.Entries(sid) && s.Entries(sid)[key].Expired(now)
    ensures EagerIncr(Purge(s.data, now), sid, key).1 == Number(1)
    ensures var next := Increment(s.Entries(sid)[key].value);
            IncrStep(s, sid, key).1 == if next.Some? then Number(next.value) else NotANumber
  {
    IncrementCounts(0);
  }

  /** Bytes that an Incr is about to add: the difference in length of the two numbers. */
  function Growth(s: State, sid: string, key: string): int {
    var value := if key in s.Entries(sid) then s.Entries(sid)[key].value else "0";
    var next := Increment(value);
    if next.Some? then |Decimal.FormatInt(next.value)| - s.Size(sid, key) else 0
  }

  /** An Incr leaves a session within its limit if and only if what it adds still fits: nothing checks it. */
  lemma IncrEscapesTheLimit(s: State, sid: string, key: string)
    requires s.WellFormed() && sid in s.limits
    ensures var s' := IncrStep(s, sid, key).0;
            && s'.Usage(sid) == s.Usage(sid) && s'.limits == s.limits
            && Bytes(s'.Entries(sid)) == Bytes(s.Entries(sid)) + Growth(s, sid, key)
            && (WithinLimit(s', sid) <==> Bytes(s.Entries(sid)) + Growth(s, sid, key) <= s.limits[sid])
  {
    var m := s.Entries(sid);
    var entry := if key in m then m[key] else Entry("0", None);
    var next := Increment(entry.value);
    if next.Some? {
      BytesWith(m, key, entry.(value := Decimal.FormatInt(next.value)));
    }
    assert Open(s, sid).Entries(sid) == m;
  }

  /** With Incr allowed, in every run: a counter within its limit stays there while the limit is left alone, so what the
      session stores can pass the limit by the drift and no more. */
  lemma {:induction false} LimitHoldsUpToDrift(s: State, d: Drift, run: seq<Timed>, sid: string)
    requires Balanced(s, d) && sid in s.limits && s.Usage(sid) <= Max(0, s.limits[sid])
    requires forall t | t in run :: !(t.request.SetMemoryLimit? && t.request.sid == sid)
    ensures var s' := Run(s, run);
            && sid in s'.limits && s'.limits[sid] == s.limits[sid]
            && s'.Usage(sid) <= Max(0, s.limits[sid])
            && Bytes(s'.Entries(sid)) <= Max(0, s.limits[sid]) + DriftOf(RunDrift(d, s, run), sid)
    decreases |run|
  {
    if run == [] {
      assert BalancedAt(s, d, sid);
    } else {
      var (now, request) := (run[0].now, run[0].request);
      assert run[0] in run;
      StepKeepsUsage(s, now, request, sid);
      StepKeepsBalance(s, d, now, request);
      LimitHoldsUpToDrift(Step(s, now, request).0, DriftStep(d, s, now, request), run[1..], sid);
    }
  }

  lemma StepKeepsUsage(s: State, now: Time, request: Request, sid: string)
    requires sid in s.limits && s.Usage(sid) <= Max(0, s.limits[sid])
    requires s.WellFormed() && !(request.SetMemoryLimit? && request.sid == sid)
    ensures var s' := Step(s, now, request).0;
            sid in s'.limits && s'.limits[sid] == s.limits[sid] && s'.Usage(sid) <= Max(0, s.limits[sid])
  {
    match request
    case Expire =>
      if sid in s.data {
        LiveIsNoBigger(s.data[sid], now);
      }
    case Set(id, key, value, ttl) => SetKeepsUsage(s, now, id, key, value, ttl, sid);
    case Incr(id, key) => IncrWritesOneEntry(s, id, key);
    case _ =>
  }

  lemma SetKeepsUsage(s: State, now: Time, id: string, key: string, value: string, ttl: Time, sid: string)
    requires sid in s.limits && s.Usage(sid) <= Max(0, s.limits[sid]) && s.WellFormed()
    ensures var s' := SetStep(s, now, id, key, value, ttl).0;
            s'.limits == s.limits && s'.Usage(sid) <= Max(0, s.limits[sid])
  {}

  /** Bytes of a session that its expired entries still hold. */
  ghost function ExpiredBytes(s: State, now: Time, sid: string): int {
    Bytes(s.Entries(sid)) - Bytes(Live(s.Entries(sid), now))
  }

  function LiveSize(s: State, now: Time, sid: string, key: string): nat {
    if key in s.Entries(sid) && !s.Entries(sid)[key].Expired(now) then s.Size(sid, key) else 0
  }

  /** The background sweep changes the verdict on a Set if and only if the session has a limit that the new value
      exceeds with the expired bytes counted and meets without them; and then from refusal to success. */
  lemma SweepIsVisibleUnderLimit(s: State, now: Time, sid: string, key: string, value: string, ttl: Time)
    requires s.WellFormed()
    ensures var before := SetStep(s, now, sid, key, value, ttl).1;
            var after := SetStep(ExpireStep(s, now), now, sid, key, value, ttl).1;
            && (before != after <==>
                  && sid in s.limits
                  && s.Usage(sid) - ExpiredBytes(s, now, sid) - LiveSize(s, now, sid, key) + |value| <= s.limits[sid]
                  && s.limits[sid] < s.Usage(sid) - s.Size(sid, key) + |value|)
            && (before != after ==> before == LimitExceeded && after == Done)
  {
    var swept := ExpireStep(s, now);
    SweptUsage(s, now, sid, key);
    ExpiredBytesCoverTheKey(s, now, sid, key);
    SetVerdict(s, now, sid, key, value, ttl);
    SetVerdict(swept, now, sid, key, value, ttl);
  }

  lemma SetVerdict(s: State, now: Time, sid: string, key: string, value: string, ttl: Time)
    requires s.WellFormed()
    ensures SetStep(s, now, sid, key, value, ttl).1
            == if sid in s.limits && s.Usage(sid) - s.Size(sid, key) + |value| > s.limits[sid] then LimitExceeded
               else Done
  {}

  lemma SweptUsage(s: State, now: Time, sid: string, key: string)
    requires s.WellFormed()
    ensures var swept := ExpireStep(s, now);
            && swept.limits == s.limits
            && swept.Usage(sid) == s.Usage(sid) - ExpiredBytes(s, now, sid)
            && swept.Size(sid, key) == LiveSize(s, now, sid, key)
  {
    if sid !in s.data {
      assert Live(map[], now) == map[];
    }
  }

  lemma ExpiredBytesCoverTheKey(s: State, now: Time, sid: string, key: string)
    ensures ExpiredBytes(s, now, sid) >= s.Size(sid, key) - LiveSize(s, now, sid, key)
  {
    var m := s.Entries(sid);
    LiveIsNoBigger(m, now);
    if key in m && m[key].Expired(now) {
      BytesWithout(m, key);
      LiveIsNoBigger(m - {key}, now);
      assert Live(m - {key}, now) == Live(m, now);
    }
  }
}
