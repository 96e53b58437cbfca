/** What callers of the Comb store are told (internal/comb/comb.go), in terms of what was stored: for how long a value
    is read back, which keys are listed, what an increment answers and when a write is refused. */
module CombAnswers {
  import opened Wrappers
  import Decimal
  import opened Comb
  import opened CombProperties

  // ----- For how long a value is read back -----

  /** The session is open, and the key holds the value with this deadline, or has lost it after the deadline. */
  ghost predicate Holds(s: State, sid: string, key: string, value: string, deadline: Option<Time>, now: Time) {
    && sid in s.data
    && if key in s.data[sid] then s.data[sid][key] == Entry(value, deadline)
       else deadline.Some? && now > deadline.value
  }

  lemma StepKeepsHolding(s: State, now: Time, request: Request, sid: string, key: string, value: string,
                         deadline: Option<Time>, before: Time)
    requires Holds(s, sid, key, value, deadline, before) && before <= now && !MayWrite(request, sid, key)
    ensures Holds(Step(s, now, request).0, sid, key, value, deadline, now)
  {
    match request
    case Incr(id, k) => IncrWritesOneEntry(s, id, k);
    case Set(id, k, v, ttl) => SetWritesOneEntry(s, now, id, k, v, ttl);
    case _ =>
  }

  lemma {:induction false} RunKeepsHolding(s: State, run: seq<Timed>, from: Time, to: Time, sid: string, key: string,
                                           value: string, deadline: Option<Time>)
    requires Holds(s, sid, key, value, deadline, from) && Within(run, from, to)
    requires forall t | t in run :: !MayWrite(t.request, sid, key)
    ensures Holds(Run(s, run), sid, key, value, deadline, to)
    decreases |run|
  {
    if run != [] {
      assert run[0] in run;
      StepKeepsHolding(s, run[0].now, run[0].request, sid, key, value, deadline, from);
      RunKeepsHolding(Step(s, run[0].now, run[0].request).0, run[1..], run[0].now, to, sid, key, value, deadline);
    }
  }

  /** Clock readings from `from` to `to`, never going backwards. */
  ghost predicate Within(run: seq<Timed>, from: Time, to: Time)
    decreases |run|
  {
    if run == [] then from <= to else from <= run[0].now && Within(run[1..], run[0].now, to)
  }

  /** A value that Set has stored is read back by every Get until its lifetime is over, and for good if it has none, as
      long as nothing writes or removes it; after its lifetime it is gone. */
  lemma SetIsReadBack(s: State, t0: Time, sid: string, key: string, value: string, ttl: Time, run: seq<Timed>, t: Time)
    requires Step(s, t0, Request.Set(sid, key, value, ttl)).1 == Done
    requires Within(run, t0, t) && forall x | x in run :: !MayWrite(x.request, sid, key)
    ensures var end := Run(Step(s, t0, Request.Set(sid, key, value, ttl)).0, run);
            var reply := Step(end, t, Request.Get(sid, key)).1;
            if ttl <= 0 || t <= t0 + ttl then reply == Value(value) else reply == KeyExpired || reply == KeyNotFound
  {
    var deadline := if ttl > 0 then Some(t0 + ttl) else None;
    RunKeepsHolding(Step(s, t0, Request.Set(sid, key, value, ttl)).0, run, t0, t, sid, key, value, deadline);
  }

  /** After Delete, and after Clear, a key is not there until it is written again. */
  ghost predicate IsGone(s: State, sid: string, key: string) {
    key !in s.Entries(sid)
  }

  lemma {:induction false} RunKeepsGone(s: State, run: seq<Timed>, sid: string, key: string)
    requires IsGone(s, sid, key) && forall x | x in run :: !MayWrite(x.request, sid, key)
    ensures IsGone(Run(s, run), sid, key)
    decreases |run|
  {
    if run != [] {
      assert run[0] in run;
      EntryFrame(s, run[0].now, run[0].request, sid, key);
      RunKeepsGone(Step(s, run[0].now, run[0].request).0, run[1..], sid, key);
    }
  }

  lemma RemovedIsNotFound(s: State, t0: Time, remover: Request, sid: string, key: string, run: seq<Timed>, t: Time)
    requires remover == Request.Delete(sid, key) || remover == Request.Clear(sid)
    requires forall x | x in run :: !MayWrite(x.request, sid, key)
    ensures var end := Run(Step(s, t0, remover).0, run);
            var reply := Step(end, t, Request.Get(sid, key)).1;
            reply == KeyNotFound || reply == SessionNotFound
  {
    RunKeepsGone(Step(s, t0, remover).0, run, sid, key);
  }

  // ----- Which keys are seen -----

  ghost predicate IsReadable(s: State, now: Time, sid: string, key: string) {
    Step(s, now, Request.Get(sid, key)).1.Value?
  }

  /** Exists and Keys see exactly what a Get would answer: "*" lists every such key, any other pattern is itself a
      key. */
  lemma ListingIsWhatIsReadable(s: State, now: Time, sid: string, pattern: string, key: string)
    ensures Step(s, now, Request.Exists(sid, key)).1 == Found(IsReadable(s, now, sid, key))
    ensures Step(s, now, Request.Keys(sid, pattern)).1.Listing?
    ensures key in Step(s, now, Request.Keys(sid, pattern)).1.keys
            <==> IsReadable(s, now, sid, key) && (pattern == "*" || pattern == key)
  {}

  // ----- What an increment answers -----

  ghost predicate IsNumber(s: string, n: int) {
    Decimal.IsInt64(n) && exists sign, zeros :: Decimal.IsText(s, n, sign, zeros)
  }

  lemma NumberIsParsed(text: string, n: int)
    ensures IsNumber(text, n) <==> Decimal.ParseInt(text) == Some(n)
  {
    Decimal.ParsesExactly(text, n);
  }

  /** The text Incr finds; a missing key counts from zero. */
  function TextAt(s: State, sid: string, key: string): string {
    if key in s.Entries(sid) then s.Entries(sid)[key].value else "0"
  }

  lemma IncrStores(s: State, now: Time, sid: string, key: string, next: int)
    requires Increment(TextAt(s, sid, key)) == Some(next)
    ensures var (s', reply) := Step(s, now, Request.Incr(sid, key));
            reply == Number(next) && key in s'.Entries(sid) && s'.Entries(sid)[key].value == Decimal.FormatInt(next)
  {}

  lemma NextIsStored(n: int, next: int)
    requires Decimal.IsInt64(n) && next == Next(n)
    ensures IsNumber(Decimal.FormatInt(next), next)
  {
    Decimal.ParseUndoesFormat(next);
    NumberIsParsed(Decimal.FormatInt(next), next);
  }

  /** Incr of a base-10 int64 text n answers n + 1, or the least int64 after the greatest, and stores a text of it... */
  lemma IncrOfNumber(s: State, now: Time, sid: string, key: string, n: int)
    requires IsNumber(TextAt(s, sid, key), n)
    ensures var (s', reply) := Step(s, now, Request.Incr(sid, key));
            var next := if n == 0x7FFF_FFFF_FFFF_FFFF then -0x8000_0000_0000_0000 else n + 1;
            reply == Number(next) && key in s'.Entries(sid) && IsNumber(s'.Entries(sid)[key].value, next)
  {
    NumberIsParsed(TextAt(s, sid, key), n);
    IncrStores(s, now, sid, key, Next(n));
    NextIsStored(n, Next(n));
  }

  /** ...and of any other text it answers an error and changes no entry. */
  lemma IncrOfOther(s: State, now: Time, sid: string, key: string)
    requires forall n :: !IsNumber(TextAt(s, sid, key), n)
    ensures var (s', reply) := Step(s, now, Request.Incr(sid, key));
            reply == NotANumber && s'.Entries(sid) == s.Entries(sid)
  {
    var current := Decimal.ParseInt(TextAt(s, sid, key));
    if current.Some? {
      NumberIsParsed(TextAt(s, sid, key), current.value);
    }
  }

  // ----- When a write is refused -----

  /** In every run without Incr, from an empty store: a Set is refused if and only if the session was given a limit, the
      last one of `limitMB` MiB, and would then hold more bytes of values than that. */
  lemma SetIsRefusedExactlyWhen(run: seq<Timed>, later: seq<Timed>, now: Time, sid: string, limitMB: int,
                                key: string, value: string, ttl: Time)
    requires IncrFree(run) && IncrFree(later)
    requires forall x | x in later :: !(x.request.SetMemoryLimit? && x.request.sid == sid)
    ensures var limited := Step(Run(EMPTY, run), now, Request.SetMemoryLimit(sid, limitMB)).0;
            var s := Run(limited, later);
            var (s', reply) := Step(s, now, Request.Set(sid, key, value, ttl));
            && (reply == Done || reply == LimitExceeded)
            && (reply == LimitExceeded <==>
                  Bytes(s.Entries(sid)[key := Entry(value, None)]) > limitMB * 1_048_576)
            && (reply == LimitExceeded ==> s'.Entries(sid) == s.Entries(sid))
  {
    EmptyIsExact();
    IncrFreeRunsAreExact(EMPTY, run);
    var s0 := Run(EMPTY, run);
    var limited := Step(s0, now, Request.SetMemoryLimit(sid, limitMB)).0;
    forall other ensures BalancedAt(limited, map[], other) {
      assert BalancedAt(s0, map[], other);
    }
    IncrFreeRunsAreExact(limited, later);
    LimitStays(limited, later, sid);
    var s := Run(limited, later);
    assert BalancedAt(s, map[], sid);
    BytesWith(s.Entries(sid), key, Entry(value, None));
    SetVerdict(s, now, sid, key, value, ttl);
  }

  lemma EmptyIsExact()
    ensures Exact(EMPTY)
  {
    forall sid ensures BalancedAt(EMPTY, map[], sid) {
      assert EMPTY.Entries(sid) == map[];
    }
  }

  lemma {:induction false} LimitStays(s: State, run: seq<Timed>, sid: string)
    requires sid in s.limits && forall x | x in run :: !(x.request.SetMemoryLimit? && x.request.sid == sid)
    ensures sid in Run(s, run).limits && Run(s, run).limits[sid] == s.limits[sid]
    decreases |run|
  {
    if run != [] {
      assert run[0] in run;
      LimitStays(Step(s, run[0].now, run[0].request).0, run[1..], sid);
    }
  }
}
