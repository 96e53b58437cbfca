/** The Comb session store (internal/comb/comb.go). Every call is one atomic step taken at a clock reading
    `now`; contexts are never cancelled. A string is a sequence of bytes, so |value| is Go's len(value). */
module Comb {
  import opened Wrappers
  import Decimal

  type Time = int // nanoseconds

  datatype Entry = Entry(value: string, expiresAt: Option<Time>) {
    predicate Expired(now: Time) {
      expiresAt.Some? && now > expiresAt.value
    }
  }

  type Session = map<string, Entry>

  /** Contents of a Store: entries per session, bytes charged per session, byte limits. */
  datatype State = State(data: map<string, Session>, usage: map<string, int>, limits: map<string, int>) {
    function Entries(sid: string): Session {
      if sid in data then data[sid] else map[]
    }

    /** Go reads a missing counter as zero. */
    function Usage(sid: string): int {
      if sid in usage then usage[sid] else 0
    }

    function Size(sid: string, key: string): nat {
      if key in Entries(sid) then |Entries(sid)[key].value| else 0
    }

    /** What a direct Get would answer. */
    function Lookup(sid: string, key: string, now: Time): Option<string> {
      if key in Entries(sid) && !Entries(sid)[key].Expired(now) then Some(Entries(sid)[key].value) else None
    }

    predicate WellFormed() {
      usage.Keys == data.Keys
    }
  }

  const EMPTY := State(map[], map[], map[])

  datatype Request =
    | Get(sid: string, key: string)
    | Set(sid: string, key: string, value: string, ttl: Time)
    | Delete(sid: string, key: string)
    | Exists(sid: string, key: string)
    | Incr(sid: string, key: string)
    | Keys(sid: string, pattern: string)
    | Clear(sid: string)
    | SetMemoryLimit(sid: string, limitMB: int)
    | Expire

  datatype Reply =
    | Value(value: string)
    | SessionNotFound
    | KeyNotFound
    | KeyExpired
    | Done
    | LimitExceeded
    | Found(found: bool)
    | Number(n: int)
    | NotANumber
    | Listing(keys: set<string>)

  // ----- What one call does -----

  function Live(m: Session, now: Time): Session {
    map k | k in m && !m[k].Expired(now) :: m[k]
  }

  function Matches(key: string, pattern: string): bool {
    pattern == "*" || key == pattern
  }

  function Open(s: State, sid: string): State {
    if sid in s.data then s else s.(data := s.data[sid := map[]], usage := s.usage[sid := 0])
  }

  function Remove(s: State, sid: string, key: string): State
    requires key in s.Entries(sid)
  {
    s.(data := s.data[sid := s.data[sid] - {key}], usage := s.usage[sid := s.Usage(sid) - s.Size(sid, key)])
  }

  function Deadline(now: Time, ttl: Time): Option<Time> {
    if ttl > 0 then Some(now + ttl) else None
  }

  function SetStep(s: State, now: Time, sid: string, key: string, value: string, ttl: Time): (State, Reply) {
    var o := Open(s, sid);
    var newUsage := o.Usage(sid) - o.Size(sid, key) + |value|;
    if sid in o.limits && newUsage > o.limits[sid] then (o, LimitExceeded)
    else
      var entry := Entry(value, Deadline(now, ttl));
      (o.(data := o.data[sid := o.data[sid][key := entry]], usage := o.usage[sid := newUsage]), Done)
  }

  /** The counter value after one more increment; Go's int64 wraps. */
  function Next(n: int): int {
    if n == Decimal.MAX_INT64 then Decimal.MIN_INT64 else n + 1
  }

  /** The counter that replaces `value`, if it is one. */
  function Increment(value: string): Option<int> {
    var current := Decimal.ParseInt(value);
    if current.Some? then Some(Next(current.value)) else None
  }

  lemma IncrementCounts(n: int)
    requires Decimal.IsInt64(n)
    ensures Increment(Decimal.FormatInt(n)) == Some(Next(n))
    ensures Increment("0") == Some(1)
  {
    Decimal.ParseUndoesFormat(n);
    Decimal.ParseUndoesFormat(0);
    assert Decimal.FormatInt(0) == "0";
  }

  function IncrStep(s: State, sid: string, key: string): (State, Reply) {
    var o := Open(s, sid);
    var entry := if key in o.data[sid] then o.data[sid][key] else Entry("0", None);
    match Increment(entry.value)
    case None => (o, NotANumber)
    case Some(n) => (o.(data := o.data[sid := o.data[sid][key := entry.(value := Decimal.FormatInt(n))]]), Number(n))
  }

  ghost function ExpireStep(s: State, now: Time): State {
    s.(data := map sid | sid in s.data :: Live(s.data[sid], now),
       usage := map sid | sid in s.data :: s.Usage(sid) - Bytes(s.data[sid]) + Bytes(Live(s.data[sid], now)))
  }

  ghost function Step(s: State, now: Time, request: Request): (State, Reply) {
    match request
    case Get(sid, key) =>
      if sid !in s.data then (s, SessionNotFound)
      else if key !in s.data[sid] then (s, KeyNotFound)
      else if s.data[sid][key].Expired(now) then (Remove(s, sid, key), KeyExpired)
      else (s, Value(s.data[sid][key].value))
    case Set(sid, key, value, ttl) => SetStep(s, now, sid, key, value, ttl)
    case Delete(sid, key) =>
      if sid !in s.data then (s, SessionNotFound)
      else if key !in s.data[sid] then (s, Done)
      else (Remove(s, sid, key), Done)
    case Exists(sid, key) =>
      if key !in s.Entries(sid) then (s, Found(false))
      else if s.data[sid][key].Expired(now) then (Remove(s, sid, key), Found(false))
      else (s, Found(true))
    case Incr(sid, key) => IncrStep(s, sid, key)
    case Keys(sid, pattern) =>
      (s, Listing(set k | k in Live(s.Entries(sid), now) && Matches(k, pattern)))
    case Clear(sid) =>
      if sid !in s.data then (s, Done)
      else (s.(data := s.data[sid := map[]], usage := s.usage[sid := 0]), Done)
    case SetMemoryLimit(sid, limitMB) => (s.(limits := s.limits[sid := limitMB * 1024 * 1024]), Done)
    case Expire => (ExpireStep(s, now), Done)
  }

  /** From `s` to `s'` at most the one entry was written, in a session opened if need be. */
  predicate OneEntryWritten(s: State, s': State, sid: string, key: string) {
    var o := Open(s, sid);
    s' == o || (key in s'.Entries(sid) && s' == o.(data := o.data[sid := o.data[sid][key := s'.data[sid][key]]]))
  }

  lemma IncrWritesOneEntry(s: State, sid: string, key: string)
    ensures OneEntryWritten(s, IncrStep(s, sid, key).0, sid, key)
  {}

  lemma SetWritesOneEntry(s: State, now: Time, sid: string, key: string, value: string, ttl: Time)
    ensures var s' := SetStep(s, now, sid, key, value, ttl).0;
            forall id, k | id != sid || k != key ::
              && (k in s'.Entries(id) <==> k in s.Entries(id))
              && (k in s.Entries(id) ==> s'.Entries(id)[k] == s.Entries(id)[k])
  {}

  /** Whether a call may replace or remove one particular entry that carries no expiry. */
  predicate MayWrite(request: Request, sid: string, key: string) {
    match request
    case Set(id, k, _, _) => id == sid && k == key
    case Delete(id, k) => id == sid && k == key
    case Incr(id, k) => id == sid && k == key
    case Clear(id) => id == sid
    case _ => false
  }

  /** Entries without expiry change only through calls that name them. */
  lemma EntryFrame(s: State, now: Time, request: Request, sid: string, key: string)
    requires !MayWrite(request, sid, key)
    requires key in s.Entries(sid) ==> s.Entries(sid)[key].expiresAt == None
    ensures var s' := Step(s, now, request).0;
            && (key in s'.Entries(sid) <==> key in s.Entries(sid))
            && (key in s.Entries(sid) ==> s'.Entries(sid)[key] == s.Entries(sid)[key])
  {
    match request
    case Incr(id, k) =>
      assert key in Open(s, id).Entries(sid) <==> key in s.Entries(sid);
      IncrWritesOneEntry(s, id, k);
    case Set(id, k, value, ttl) => SetWritesOneEntry(s, now, id, k, value, ttl);
    case _ =>
  }

  // ----- Bytes held by a session -----

  ghost function Bytes(m: Session): nat {
    if m == map[] then 0
    else
      var k :| k in m;
      |m[k].value| + Bytes(m - {k})
  }

  lemma {:induction false} BytesWithout(m: Session, key: string)
    requires key in m
    ensures Bytes(m) == |m[key].value| + Bytes(m - {key})
    decreases |m|
  {
    var k :| k in m && Bytes(m) == |m[k].value| + Bytes(m - {k});
    if k != key {
      BytesWithout(m - {k}, key);
      BytesWithout(m - {key}, k);
      assert m - {k} - {key} == m - {key} - {k};
    }
  }

  lemma BytesWith(m: Session, key: string, entry: Entry)
    ensures Bytes(m[key := entry]) == Bytes(m) - (if key in m then |m[key].value| else 0) + |entry.value|
  {
    BytesWithout(m[key := entry], key);
    assert m[key := entry] - {key} == m - {key};
    if key in m {
      BytesWithout(m, key);
    } else {
      assert m - {key} == m;
    }
  }

  // ----- The store -----

  class Store {
    var data: map<string, Session>
    var memoryUsage: map<string, int>
    var memoryLimits: map<string, int>

    ghost predicate Valid()
      reads this
    {
      Contents().WellFormed()
    }

    ghost function Contents(): State
      reads this
    {
      State(data, memoryUsage, memoryLimits)
    }

    constructor ()
      ensures Valid() && Contents() == EMPTY
    {
      data, memoryUsage, memoryLimits := map[], map[], map[];
    }

    /** The locked re-check and delete that Get and Exists perform for an entry found expired. */
    method DeleteExpired(sid: string, key: string)
      requires Valid()
      modifies this
      ensures Valid()
      ensures Contents() == if key in old(Contents()).Entries(sid) then Remove(old(Contents()), sid, key)
                            else old(Contents())
    {
      if sid in data && key in data[sid] {
        memoryUsage := memoryUsage[sid := memoryUsage[sid] - |data[sid][key].value|];
        data := data[sid := data[sid] - {key}];
      }
    }

    method Get(now: Time, sid: string, key: string) returns (reply: Reply)
      requires Valid()
      modifies this
      ensures Valid() && (Contents(), reply) == Step(old(Contents()), now, Request.Get(sid, key))
    {
      if sid !in data {
        return SessionNotFound;
      }
      if key !in data[sid] {
        return KeyNotFound;
      }
      var entry := data[sid][key];
      if entry.Expired(now) {
        DeleteExpired(sid, key);
        return KeyExpired;
      }
      return Value(entry.value);
    }

    method Set(now: Time, sid: string, key: string, value: string, ttl: Time) returns (reply: Reply)
      requires Valid()
      modifies this
      ensures Valid() && (Contents(), reply) == Step(old(Contents()), now, Request.Set(sid, key, value, ttl))
    {
      if sid !in data {
        data := data[sid := map[]];
        memoryUsage := memoryUsage[sid := 0];
      }
      var sessionData := data[sid];
      var oldSize := 0;
      if key in sessionData {
        oldSize := |sessionData[key].value|;
      }
      if sid in memoryLimits {
        var newUsage := memoryUsage[sid] - oldSize + |value|;
        if newUsage > memoryLimits[sid] {
          return LimitExceeded;
        }
        memoryUsage := memoryUsage[sid := newUsage];
      } else {
        memoryUsage := memoryUsage[sid := memoryUsage[sid] - oldSize + |value|];
      }
      var entry := Entry(value, None);
      if ttl > 0 {
        entry := entry.(expiresAt := Some(now + ttl));
      }
      data := data[sid := sessionData[key := entry]];
      return Done;
    }

    method Delete(sid: string, key: string) returns (reply: Reply)
      requires Valid()
      modifies this
      ensures Valid() && forall now :: (Contents(), reply) == Step(old(Contents()), now, Request.Delete(sid, key))
    {
      if sid !in data {
        return SessionNotFound;
      }
      if key !in data[sid] {
        return Done;
      }
      memoryUsage := memoryUsage[sid := memoryUsage[sid] - |data[sid][key].value|];
      data := data[sid := data[sid] - {key}];
      return Done;
    }

    method Exists(now: Time, sid: string, key: string) returns (reply: Reply)
      requires Valid()
      modifies this
      ensures Valid() && (Contents(), reply) == Step(old(Contents()), now, Request.Exists(sid, key))
    {
      if sid !in data || key !in data[sid] {
        return Found(false);
      }
      if data[sid][key].Expired(now) {
        DeleteExpired(sid, key);
        return Found(false);
      }
      return Found(true);
    }

    method Incr(sid: string, key: string) returns (reply: Reply)
      requires Valid()
      modifies this
      ensures Valid() && forall now :: (Contents(), reply) == Step(old(Contents()), now, Request.Incr(sid, key))
    {
      if sid !in data {
        data := data[sid := map[]];
        memoryUsage := memoryUsage[sid := 0];
      }
      var sessionData := data[sid];
      if key !in sessionData {
        sessionData := sessionData[key := Entry("0", None)];
        data := data[sid := sessionData];
        Decimal.ParseUndoesFormat(0);
        assert Decimal.FormatInt(0) == "0";
      }
      var entry := sessionData[key];
      var current := Decimal.ParseInt(entry.value);
      if current.None? {
        return NotANumber;
      }
      var next := Next(current.value);
      sessionData := sessionData[key := entry.(value := Decimal.FormatInt(next))];
      data := data[sid := sessionData];
      ghost var o := Open(old(Contents()), sid);
      assert sessionData == o.data[sid][key := entry.(value := Decimal.FormatInt(next))];
      assert data == o.data[sid := sessionData];
      return Number(next);
    }

    /** The listing order is the map's, hence unspecified; no key is listed twice. */
    method Keys(now: Time, sid: string, pattern: string) returns (keys: seq<string>)
      ensures Step(Contents(), now, Request.Keys(sid, pattern)) == (Contents(), Listing(set k | k in keys))
      ensures forall i, j | 0 <= i < j < |keys| :: keys[i] != keys[j]
    {
      keys := [];
      if sid !in data {
        assert (set k | k in keys) == (set k | k in Live(Contents().Entries(sid), now) && Matches(k, pattern));
        return;
      }
      var sessionData := data[sid];
      var rest := sessionData.Keys;
      while rest != {}
        invariant rest <= sessionData.Keys
        invariant forall k :: k in keys <==>
                    k in sessionData && k !in rest && !sessionData[k].Expired(now) && Matches(k, pattern)
        invariant forall i, j | 0 <= i < j < |keys| :: keys[i] != keys[j]
        decreases rest
      {
        var key :| key in rest;
        if !sessionData[key].Expired(now) && Matches(key, pattern) {
          keys := keys + [key];
        }
        rest := rest - {key};
      }
      assert Contents().Entries(sid) == sessionData;
      assert (set k | k in keys) == (set k | k in Live(sessionData, now) && Matches(k, pattern));
    }

    method Clear(sid: string)
      requires Valid()
      modifies this
      ensures Valid() && forall now :: (Contents(), Done) == Step(old(Contents()), now, Request.Clear(sid))
    {
      if sid in data {
        memoryUsage := memoryUsage[sid := 0];
        while data[sid] != map[]
          invariant sid in data && data == old(data)[sid := data[sid]]
          invariant memoryUsage == old(memoryUsage)[sid := 0] && memoryLimits == old(memoryLimits)
          decreases |data[sid]|
        {
          var k :| k in data[sid];
          data := data[sid := data[sid] - {k}];
        }
      }
    }

    method SetMemoryLimit(sid: string, limitMB: int)
      requires Valid()
      modifies this
      ensures Valid()
      ensures forall now :: (Contents(), Done) == Step(old(Contents()), now, Request.SetMemoryLimit(sid, limitMB))
    {
      memoryLimits := memoryLimits[sid := limitMB * 1024 * 1024];
    }

    /** First half of expireKeys: the expired keys, each once, with the size to refund. */
    method CollectExpired(now: Time) returns (expired: seq<ExpiredKey>)
      ensures ListsExpired(Contents(), now, expired)
    {
      expired := [];
      var sids := data.Keys;
      while sids != {}
        invariant sids <= data.Keys
        invariant forall e | e in expired ::
                    e.0 in data && e.0 !in sids &&
                    e.1 in data[e.0] && data[e.0][e.1].Expired(now) && e.2 == |data[e.0][e.1].value|
        invariant forall sid, key | sid in data && sid !in sids && key in data[sid] && data[sid][key].Expired(now) ::
                    (sid, key, |data[sid][key].value|) in expired
        invariant forall i, j | 0 <= i < j < |expired| :: expired[i] != expired[j]
        decreases sids
      {
        var sid :| sid in sids;
        var before := expired;
        var keys := data[sid].Keys;
        while keys != {}
          invariant keys <= data[sid].Keys
          invariant before <= expired
          invariant forall e | e in expired :: e in before ||
                      (e.0 == sid && e.1 in data[sid] && e.1 !in keys &&
                       data[sid][e.1].Expired(now) && e.2 == |data[sid][e.1].value|)
          invariant forall key | key in data[sid] && key !in keys && data[sid][key].Expired(now) ::
                      (sid, key, |data[sid][key].value|) in expired
          invariant forall i, j | 0 <= i < j < |expired| :: expired[i] != expired[j]
          decreases keys
        {
          var key :| key in keys;
          if data[sid][key].Expired(now) {
            expired := expired + [(sid, key, |data[sid][key].value|)];
          }
          keys := keys - {key};
        }
        sids := sids - {sid};
      }
    }

    method ExpireKeys(now: Time)
      requires Valid()
      modifies this
      ensures Valid() && (Contents(), Done) == Step(old(Contents()), now, Request.Expire)
    {
      var expired := CollectExpired(now);
      ghost var was := Contents();
      PurgeNothing(was, expired);
      for i := 0 to |expired|
        invariant PartlyPurged(was, Contents(), expired, i)
      {
        NextToPurge(was, Contents(), now, expired, i);
        PurgeOne(was, Contents(), expired, i);
        Refund(expired[i].0, expired[i].1, expired[i].2);
      }
      PurgedCompletely(was, Contents(), now, expired);
    }

    method Refund(sid: string, key: string, valueSize: nat)
      requires sid in memoryUsage && key in Contents().Entries(sid) && valueSize == Contents().Size(sid, key)
      modifies this
      ensures Contents() == Remove(old(Contents()), sid, key)
    {
      memoryUsage := memoryUsage[sid := memoryUsage[sid] - valueSize];
      data := data[sid := data[sid] - {key}];
    }
  }

  // ----- The delete loop of expireKeys -----

  type ExpiredKey = (string, string, nat)

  /** `expired` lists the expired entries of `s`, each once, with its size. */
  ghost predicate ListsExpired(s: State, now: Time, expired: seq<ExpiredKey>) {
    && (forall e | e in expired ::
          e.0 in s.data && e.1 in s.data[e.0] && s.data[e.0][e.1].Expired(now) && e.2 == |s.data[e.0][e.1].value|)
    && (forall sid, key | sid in s.data && key in s.data[sid] && s.data[sid][key].Expired(now) ::
          (sid, key, |s.data[sid][key].value|) in expired)
    && (forall i, j | 0 <= i < j < |expired| :: expired[i] != expired[j])
  }

  /** `cur` is `was` with the first i expired entries deleted. */
  ghost predicate PartlyPurged(was: State, cur: State, expired: seq<ExpiredKey>, i: nat) {
    && was.WellFormed() && i <= |expired|
    && cur.data.Keys == cur.usage.Keys == was.data.Keys && cur.limits == was.limits
    && forall sid | sid in was.data ::
         PartlyPurgedSession(was.data[sid], was.usage[sid], cur.data[sid], cur.usage[sid], sid, expired[..i])
  }

  /** Each deletion takes the same amount off the counter as off the stored bytes, so their difference stays put. */
  ghost predicate PartlyPurgedSession(was: Session, wasUsage: int, cur: Session, usage: int,
                                      sid: string, deleted: seq<ExpiredKey>) {
    && (forall k | k in cur :: k in was && cur[k] == was[k])
    && (forall k | k in was :: k in cur <==> (sid, k, |was[k].value|) !in deleted)
    && usage - Bytes(cur) == wasUsage - Bytes(was)
  }

  lemma PurgeNothing(was: State, expired: seq<ExpiredKey>)
    requires was.WellFormed()
    ensures PartlyPurged(was, was, expired, 0)
  {}

  /** Where the next expired entry to delete sits. */
  lemma NextToPurge(was: State, cur: State, now: Time, expired: seq<ExpiredKey>, i: nat)
    requires i < |expired| && ListsExpired(was, now, expired) && PartlyPurged(was, cur, expired, i)
    ensures expired[i].0 in cur.data && expired[i].1 in cur.data[expired[i].0]
    ensures expired[i].2 == |cur.data[expired[i].0][expired[i].1].value|
  {
    var (sid, key, size) := expired[i];
    assert expired[i] in expired && expired[i] !in expired[..i];
    assert PartlyPurgedSession(was.data[sid], was.usage[sid], cur.data[sid], cur.usage[sid], sid, expired[..i]);
  }

  lemma PurgeOneOfSession(was: Session, wasUsage: int, cur: Session, usage: int,
                          sid: string, deleted: seq<ExpiredKey>, next: ExpiredKey)
    requires PartlyPurgedSession(was, wasUsage, cur, usage, sid, deleted)
    requires next.0 == sid ==> next.1 in cur && next.2 == |cur[next.1].value|
    ensures if next.0 == sid
            then PartlyPurgedSession(was, wasUsage, cur - {next.1}, usage - next.2, sid, deleted + [next])
            else PartlyPurgedSession(was, wasUsage, cur, usage, sid, deleted + [next])
  {
    if next.0 == sid {
      BytesWithout(cur, next.1);
    }
  }

  lemma RemovedAt(s: State, sid: string, key: string, at: string)
    requires key in s.Entries(sid) && s.WellFormed() && at in s.data
    ensures var s' := Remove(s, sid, key);
            && s'.data.Keys == s'.usage.Keys == s.data.Keys && s'.limits == s.limits
            && s'.data[at] == (if at == sid then s.data[at] - {key} else s.data[at])
            && s'.usage[at] == s.usage[at] - (if at == sid then |s.data[at][key].value| else 0)
  {}

  lemma PurgeOne(was: State, cur: State, expired: seq<ExpiredKey>, i: nat)
    requires i < |expired| && PartlyPurged(was, cur, expired, i)
    requires expired[i].0 in cur.data && expired[i].1 in cur.data[expired[i].0]
    requires expired[i].2 == |cur.data[expired[i].0][expired[i].1].value|
    ensures PartlyPurged(was, Remove(cur, expired[i].0, expired[i].1), expired, i + 1)
  {
    var next := Remove(cur, expired[i].0, expired[i].1);
    assert expired[..i + 1] == expired[..i] + [expired[i]];
    RemovedAt(cur, expired[i].0, expired[i].1, expired[i].0);
    forall sid | sid in was.data
      ensures PartlyPurgedSession(was.data[sid], was.usage[sid], next.data[sid], next.usage[sid], sid, expired[..i + 1])
    {
      RemovedAt(cur, expired[i].0, expired[i].1, sid);
      PurgeOneOfSession(was.data[sid], was.usage[sid], cur.data[sid], cur.usage[sid], sid, expired[..i], expired[i]);
    }
  }

  lemma PurgedSessionIsLive(was: State, sid: string, cur: Session, usage: int, now: Time, expired: seq<ExpiredKey>)
    requires was.WellFormed() && sid in was.data && ListsExpired(was, now, expired)
    requires PartlyPurgedSession(was.data[sid], was.usage[sid], cur, usage, sid, expired)
    ensures cur == Live(was.data[sid], now)
    ensures usage == was.usage[sid] - Bytes(was.data[sid]) + Bytes(Live(was.data[sid], now))
  {}

  lemma SessionsMakeTheState(was: State, cur: State, now: Time)
    requires was.WellFormed() && cur.data.Keys == cur.usage.Keys == was.data.Keys && cur.limits == was.limits
    requires forall sid | sid in was.data :: cur.data[sid] == Live(was.data[sid], now)
    requires forall sid | sid in was.data ::
               cur.usage[sid] == was.usage[sid] - Bytes(was.data[sid]) + Bytes(Live(was.data[sid], now))
    ensures cur == ExpireStep(was, now)
  {
    assert cur.data == ExpireStep(was, now).data;
    SessionsMakeTheUsage(was, cur, now);
  }

  lemma SessionsMakeTheUsage(was: State, cur: State, now: Time)
    requires was.WellFormed() && cur.usage.Keys == was.data.Keys
    requires forall sid | sid in was.data ::
               cur.usage[sid] == was.usage[sid] - Bytes(was.data[sid]) + Bytes(Live(was.data[sid], now))
    ensures cur.usage == ExpireStep(was, now).usage
  {
    forall sid | sid in was.data ensures cur.usage[sid] == ExpireStep(was, now).usage[sid] {
      assert was.Usage(sid) == was.usage[sid];
    }
  }

  lemma PurgedCompletely(was: State, cur: State, now: Time, expired: seq<ExpiredKey>)
    requires ListsExpired(was, now, expired) && PartlyPurged(was, cur, expired, |expired|)
    ensures cur == ExpireStep(was, now)
  {
    assert expired[..|expired|] == expired;
    forall sid | sid in was.data
      ensures cur.data[sid] == Live(was.data[sid], now)
      ensures cur.usage[sid] == was.usage[sid] - Bytes(was.data[sid]) + Bytes(Live(was.data[sid], now))
    {
      PurgedSessionIsLive(was, sid, cur.data[sid], cur.usage[sid], now, expired);
    }
    SessionsMakeTheState(was, cur, now);
  }
}
