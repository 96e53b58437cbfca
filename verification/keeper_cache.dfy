/** The Keeper's local cache in front of Comb and the GET/PUT/DELETE proxy that uses it
    (internal/keeper/keeper.go). A Keeper serves one session; each request takes one clock reading. */
module KeeperCache {
  import opened Wrappers
  import Comb

  type Time = Comb.Time

  const FIVE_MINUTES: Time := 5 * 60 * 1_000_000_000

  datatype CacheEntry = CacheEntry(value: string, expiresAt: Time, insertedAt: Time)

  /** `order` is the insertion order used for FIFO eviction. */
  datatype Cache = Cache(data: map<string, CacheEntry>, order: seq<string>, maxSize: int)

  function Without(order: seq<string>, key: string): seq<string> {
    if order == [] then []
    else if order[0] == key then order[1..]
    else [order[0]] + Without(order[1..], key)
  }

  function Lookup(c: Cache, now: Time, key: string): (Cache, Option<string>) {
    if key !in c.data then (c, None)
    else if now > c.data[key].expiresAt then (Invalidate(c, key), None)
    else (c, Some(c.data[key].value))
  }

  function Invalidate(c: Cache, key: string): Cache {
    c.(data := c.data - {key}, order := Without(c.order, key))
  }

  function Evict(c: Cache): Cache {
    if c.order == [] then c else c.(data := c.data - {c.order[0]}, order := c.order[1..])
  }

  function NewEntry(now: Time, value: string, ttl: Time): CacheEntry {
    CacheEntry(value, now + (if ttl == 0 then FIVE_MINUTES else ttl), now)
  }

  /** As the source does it: an existing key is taken out of the order and not put back. */
  function Insert(c: Cache, now: Time, key: string, value: string, ttl: Time): Cache {
    if key in c.data then
      c.(data := c.data[key := NewEntry(now, value, ttl)], order := Without(c.order, key))
    else
      var room := if |c.data| >= c.maxSize then Evict(c) else c;
      room.(data := room.data[key := NewEntry(now, value, ttl)], order := room.order + [key])
  }

  class CombCache {
    var data: map<string, CacheEntry>
    const maxSize: int
    var insertOrder: seq<string>

    ghost function Contents(): Cache
      reads this
    {
      Cache(data, insertOrder, maxSize)
    }

    constructor (maxSize: int)
      ensures Contents() == Cache(map[], [], maxSize)
    {
      data, this.maxSize, insertOrder := map[], maxSize, [];
    }

    method RemoveFromOrder(key: string)
      modifies this`insertOrder
      ensures insertOrder == Without(old(insertOrder), key)
    {
      for i := 0 to |insertOrder|
        invariant insertOrder == old(insertOrder) && key !in insertOrder[..i]
      {
        if insertOrder[i] == key {
          WithoutAt(insertOrder, key, i);
          insertOrder := insertOrder[..i] + insertOrder[i + 1..];
          return;
        }
        assert insertOrder[..i + 1] == insertOrder[..i] + [insertOrder[i]];
      }
      assert insertOrder[..|insertOrder|] == insertOrder;
      WithoutMissing(insertOrder, key);
    }

    method Get(now: Time, key: string) returns (value: Option<string>)
      modifies this
      ensures (Contents(), value) == Lookup(old(Contents()), now, key)
    {
      if key !in data {
        return None;
      }
      var entry := data[key];
      if now > entry.expiresAt {
        data := data - {key};
        RemoveFromOrder(key);
        return None;
      }
      return Some(entry.value);
    }

    method Set(now: Time, key: string, value: string, ttl: Time)
      modifies this
      ensures Contents() == Insert(old(Contents()), now, key, value, ttl)
    {
      var expiresAt := now + ttl;
      if ttl == 0 {
        expiresAt := now + FIVE_MINUTES;
      }
      var known := key in data;
      if !known && |data| >= maxSize {
        if |insertOrder| > 0 {
          data := data - {insertOrder[0]};
          insertOrder := insertOrder[1..];
        }
      } else if known {
        RemoveFromOrder(key);
      }
      data := data[key := CacheEntry(value, expiresAt, now)];
      if !known {
        insertOrder := insertOrder + [key];
      }
    }

    method Drop(key: string)
      modifies this
      ensures Contents() == Invalidate(old(Contents()), key)
    {
      data := data - {key};
      RemoveFromOrder(key);
    }

    method Clear()
      modifies this
      ensures Contents() == Cache(map[], [], maxSize)
    {
      data, insertOrder := map[], [];
    }
  }

  // ----- The /comb/{key} proxy -----

  datatype Call = GET | PUT(value: string, ttl: Time) | DELETE | Malformed | OtherMethod

  datatype Response =
    | Ok(value: string)
    | Stored
    | NoContent
    | BadRequest
    | NotFound
    | InternalError
    | MethodNotAllowed

  datatype State = State(comb: Comb.State, cache: Cache)

  ghost function GetStep(s: State, now: Time, sid: string, key: string): (State, Response) {
    var (cache, cached) := Lookup(s.cache, now, key);
    if cached.Some? then (State(s.comb, cache), Ok(cached.value))
    else
      var (comb, reply) := Comb.Step(s.comb, now, Comb.Request.Get(sid, key));
      if reply.Value? then (State(comb, Insert(cache, now, key, reply.value, 0)), Ok(reply.value))
      else (State(comb, cache), NotFound)
  }

  ghost function PutStep(s: State, now: Time, sid: string, key: string, value: string, ttl: Time): (State, Response) {
    var (comb, reply) := Comb.Step(s.comb, now, Comb.Request.Set(sid, key, value, ttl));
    if reply == Comb.Done then (State(comb, Invalidate(s.cache, key)), Stored)
    else (State(comb, s.cache), InternalError)
  }

  ghost function DeleteStep(s: State, now: Time, sid: string, key: string): (State, Response) {
    var (comb, reply) := Comb.Step(s.comb, now, Comb.Request.Delete(sid, key));
    if reply == Comb.Done then (State(comb, Invalidate(s.cache, key)), NoContent)
    else (State(comb, s.cache), NotFound)
  }

  ghost function HandleStep(s: State, now: Time, sid: string, key: string, call: Call): (State, Response) {
    if key == "" then (s, BadRequest)
    else
      match call
      case GET => GetStep(s, now, sid, key)
      case PUT(value, ttl) => PutStep(s, now, sid, key, value, ttl)
      case DELETE => DeleteStep(s, now, sid, key)
      case Malformed => (s, BadRequest)
      case OtherMethod => (s, MethodNotAllowed)
  }

  class Keeper {
    const comb: Comb.Store
    const cache: CombCache
    const namespacedSessionID: string

    ghost function Contents(): State
      reads comb, cache
    {
      State(comb.Contents(), cache.Contents())
    }

    constructor (comb: Comb.Store, namespace: string, sessionID: string)
      ensures this.comb == comb && fresh(cache)
      ensures cache.Contents() == Cache(map[], [], 1000)
      ensures namespacedSessionID == namespace + ":" + sessionID
    {
      this.comb := comb;
      namespacedSessionID := namespace + ":" + sessionID;
      cache := new CombCache(1000);
    }

    method HandleComb(now: Time, key: string, call: Call) returns (response: Response)
      requires comb.Valid()
      modifies comb, cache
      ensures comb.Valid()
      ensures (Contents(), response) == HandleStep(old(Contents()), now, namespacedSessionID, key, call)
    {
      if key == "" {
        return BadRequest;
      }
      match call {
        case GET =>
          var cached := cache.Get(now, key);
          if cached.Some? {
            return Ok(cached.value);
          }
          var reply := comb.Get(now, namespacedSessionID, key);
          if !reply.Value? {
            return NotFound;
          }
          cache.Set(now, key, reply.value, 0);
          return Ok(reply.value);
        case PUT(value, ttl) =>
          var reply := comb.Set(now, namespacedSessionID, key, value, ttl);
          if reply != Comb.Done {
            return InternalError;
          }
          cache.Drop(key);
          return Stored;
        case DELETE =>
          var reply := comb.Delete(namespacedSessionID, key);
          if reply != Comb.Done {
            return NotFound;
          }
          cache.Drop(key);
          return NoContent;
        case Malformed => return BadRequest;
        case OtherMethod => return MethodNotAllowed;
      }
    }
  }

  // ----- FIFO order -----

  function InsertedAt(data: map<string, CacheEntry>, key: string): Time {
    if key in data then data[key].insertedAt else 0
  }

  ghost predicate Distinct(order: seq<string>) {
    forall i, j | 0 <= i < j < |order| :: order[i] != order[j]
  }

  ghost predicate Lists(order: seq<string>, data: map<string, CacheEntry>) {
    forall k :: k in order <==> k in data
  }

  ghost predicate Chronological(order: seq<string>, data: map<string, CacheEntry>) {
    forall i, j | 0 <= i < j < |order| :: InsertedAt(data, order[i]) <= InsertedAt(data, order[j])
  }

  /** `order` lists every cached key once, oldest insertion first. */
  ghost predicate InInsertionOrder(order: seq<string>, data: map<string, CacheEntry>) {
    Distinct(order) && Lists(order, data) && Chronological(order, data)
  }

  /** Every entry was inserted by time `now` and lives for the default five minutes. */
  ghost predicate DefaultLifetimes(data: map<string, CacheEntry>, now: Time) {
    forall k | k in data :: data[k].insertedAt <= now && data[k].expiresAt == data[k].insertedAt + FIVE_MINUTES
  }

  /** A size below one still lets one entry in. */
  function Bound(c: Cache): nat {
    if c.maxSize < 1 then 1 else c.maxSize
  }

  /** The cache keeps FIFO order and its size bound. */
  ghost predicate Fifo(c: Cache, now: Time) {
    InInsertionOrder(c.order, c.data) && DefaultLifetimes(c.data, now) && |c.data| <= Bound(c)
  }

  lemma {:induction false} WithoutMissing(order: seq<string>, key: string)
    requires key !in order
    ensures Without(order, key) == order
  {
    if order != [] {
      WithoutMissing(order[1..], key);
    }
  }

  lemma {:induction false} WithoutAt(order: seq<string>, key: string, p: nat)
    requires p < |order| && order[p] == key && key !in order[..p]
    ensures Without(order, key) == order[..p] + order[p + 1..]
  {
    if p > 0 {
      assert order[0] in order[..p];
      assert order[..p] == [order[0]] + order[1..][..p - 1];
      WithoutAt(order[1..], key, p - 1);
    }
  }

  /** Where the elements of an order come from once its p-th is cut out. */
  lemma CutAt(order: seq<string>, p: nat)
    requires p < |order|
    ensures var cut := order[..p] + order[p + 1..];
            forall i | 0 <= i < |cut| :: cut[i] == order[if i < p then i else i + 1]
  {}

  lemma CutIsDistinct(order: seq<string>, p: nat)
    requires Distinct(order) && p < |order|
    ensures Distinct(order[..p] + order[p + 1..])
  {
    CutAt(order, p);
  }

  lemma CutKeys(order: seq<string>, p: nat)
    requires Distinct(order) && p < |order|
    ensures var cut := order[..p] + order[p + 1..]; forall k :: k in cut <==> k in order && k != order[p]
  {
    CutAt(order, p);
    var cut := order[..p] + order[p + 1..];
    forall k | k in order && k != order[p] ensures k in cut {
      var i :| 0 <= i < |order| && order[i] == k;
      assert cut[if i < p then i else i - 1] == k;
    }
  }

  lemma CutIsChronological(order: seq<string>, data: map<string, CacheEntry>, p: nat)
    requires Distinct(order) && Chronological(order, data) && p < |order|
    ensures Chronological(order[..p] + order[p + 1..], data - {order[p]})
  {
    CutAt(order, p);
    var cut, rest := order[..p] + order[p + 1..], data - {order[p]};
    forall i, j | 0 <= i < j < |cut| ensures InsertedAt(rest, cut[i]) <= InsertedAt(rest, cut[j]) {
      var i', j' := if i < p then i else i + 1, if j < p then j else j + 1;
      assert order[i'] != order[p] && order[j'] != order[p];
      assert InsertedAt(data, order[i']) <= InsertedAt(data, order[j']);
    }
  }

  lemma CutOrder(order: seq<string>, data: map<string, CacheEntry>, p: nat, cut: seq<string>)
    requires InInsertionOrder(order, data) && p < |order| && cut == order[..p] + order[p + 1..]
    ensures InInsertionOrder(cut, data - {order[p]})
  {
    CutIsDistinct(order, p);
    CutKeys(order, p);
    CutIsChronological(order, data, p);
  }

  /** What is left of an order when a key is taken out. */
  lemma OthersRemain(order: seq<string>, key: string)
    requires Distinct(order)
    ensures var rest := Without(order, key);
            && Distinct(rest) && (forall k :: k in rest <==> k in order && k != key)
            && |rest| == |order| - if key in order then 1 else 0
  {
    if key in order {
      var p :| 0 <= p < |order| && order[p] == key;
      WithoutAt(order, key, p);
      CutIsDistinct(order, p);
      CutKeys(order, p);
    } else {
      WithoutMissing(order, key);
    }
  }

  lemma SizeWithout(m: map<string, CacheEntry>, key: string)
    ensures |m - {key}| == if key in m then |m| - 1 else |m|
  {
    assert (m - {key}).Keys == m.Keys - {key};
  }

  lemma InvalidateKeepsOrder(order: seq<string>, data: map<string, CacheEntry>, key: string)
    requires InInsertionOrder(order, data)
    ensures InInsertionOrder(Without(order, key), data - {key})
  {
    if key in order {
      var p :| 0 <= p < |order| && order[p] == key;
      WithoutAt(order, key, p);
      CutOrder(order, data, p, Without(order, key));
    } else {
      WithoutMissing(order, key);
      assert data - {key} == data;
    }
  }

  lemma InvalidateKeepsFifo(c: Cache, now: Time, key: string)
    requires Fifo(c, now)
    ensures Fifo(Invalidate(c, key), now)
  {
    InvalidateKeepsOrder(c.order, c.data, key);
    SizeWithout(c.data, key);
  }

  lemma LookupKeepsFifo(c: Cache, now: Time, key: string)
    requires Fifo(c, now)
    ensures var (c', value) := Lookup(c, now, key);
            Fifo(c', now) && (value == None ==> key !in c'.data)
  {
    InvalidateKeepsFifo(c, now, key);
  }

  lemma Later(c: Cache, t: Time, now: Time)
    requires Fifo(c, t) && t <= now
    ensures Fifo(c, now)
  {}

  lemma HeadIsOldest(order: seq<string>, data: map<string, CacheEntry>)
    requires InInsertionOrder(order, data) && data != map[]
    ensures order != [] && order[0] in data
    ensures forall k | k in data :: data[order[0]].insertedAt <= data[k].insertedAt
  {
    var some :| some in data;
    assert some in order;
    assert order[0] in order;
    forall k | k in data
      ensures data[order[0]].insertedAt <= data[k].insertedAt
    {
      assert k in order;
      var i :| 0 <= i < |order| && order[i] == k;
      assert InsertedAt(data, order[0]) <= InsertedAt(data, order[i]);
    }
  }

  /** Eviction removes the entry that has been in the cache longest, and only that one. */
  lemma EvictsTheOldest(c: Cache, now: Time)
    requires Fifo(c, now) && c.data != map[]
    ensures c.order != [] && c.order[0] in c.data && Evict(c).data == c.data - {c.order[0]}
    ensures forall k | k in c.data :: c.data[c.order[0]].insertedAt <= c.data[k].insertedAt
    ensures Fifo(Evict(c), now) && |Evict(c).data| == |c.data| - 1
  {
    HeadIsOldest(c.order, c.data);
    CutHead(c.order, c.data);
    SizeWithout(c.data, c.order[0]);
  }

  lemma CutHead(order: seq<string>, data: map<string, CacheEntry>)
    requires InInsertionOrder(order, data) && order != []
    ensures InInsertionOrder(order[1..], data - {order[0]})
  {
    assert order[1..] == order[..0] + order[1..];
    CutOrder(order, data, 0, order[1..]);
  }

  lemma AppendToOrder(order: seq<string>, data: map<string, CacheEntry>, now: Time, key: string, entry: CacheEntry)
    requires InInsertionOrder(order, data) && DefaultLifetimes(data, now) && key !in data && entry.insertedAt == now
    ensures InInsertionOrder(order + [key], data[key := entry])
    ensures |data[key := entry]| == |data| + 1
  {
    var order', data' := order + [key], data[key := entry];
    SizeWithout(data', key);
    assert data' - {key} == data;
    assert forall i | 0 <= i < |order| :: order[i] in order;
    assert forall i | 0 <= i < |order| :: InsertedAt(data', order'[i]) == InsertedAt(data, order[i]) <= now;
  }

  /** Inserting with the default lifetime keeps the FIFO order exactly when the key is not cached already: a key
      that is already there drops out of the order. */
  lemma InsertKeepsFifoIffNew(c: Cache, now: Time, key: string, value: string)
    requires Fifo(c, now)
    ensures Fifo(Insert(c, now, key, value, 0), now) <==> key !in c.data
  {
    if key in c.data {
      InvalidateKeepsFifo(c, now, key);
      assert key !in Invalidate(c, key).order;
      assert !InInsertionOrder(Without(c.order, key), c.data[key := NewEntry(now, value, 0)]);
    } else {
      InsertNewKeepsFifo(c, now, key, value);
    }
  }

  lemma OrderedIsCached(order: seq<string>, data: map<string, CacheEntry>)
    requires Lists(order, data)
    ensures order != [] ==> data != map[]
  {
    if order != [] {
      assert order[0] in order;
    }
  }

  lemma NothingInOrder(c: Cache, now: Time)
    requires Fifo(c, now) && c.data == map[]
    ensures c.order == [] && Evict(c) == c
  {
    OrderedIsCached(c.order, c.data);
  }

  lemma InsertNewKeepsFifo(c: Cache, now: Time, key: string, value: string)
    requires Fifo(c, now) && key !in c.data
    ensures Fifo(Insert(c, now, key, value, 0), now)
  {
    if |c.data| < c.maxSize {
      AppendKeepsFifo(c, now, key, value);
    } else if c.data == map[] {
      NothingInOrder(c, now);
      AppendKeepsFifo(c, now, key, value);
    } else {
      EvictsTheOldest(c, now);
      AppendKeepsFifo(Evict(c), now, key, value);
    }
  }

  lemma AppendKeepsFifo(c: Cache, now: Time, key: string, value: string)
    requires Fifo(c, now) && key !in c.data && |c.data| < Bound(c)
    ensures Fifo(c.(data := c.data[key := NewEntry(now, value, 0)], order := c.order + [key]), now)
  {
    AppendToOrder(c.order, c.data, now, key, NewEntry(now, value, 0));
  }

  lemma GetKeepsFifo(s: State, now: Time, sid: string, key: string)
    requires Fifo(s.cache, now)
    ensures Fifo(GetStep(s, now, sid, key).0.cache, now)
  {
    LookupKeepsFifo(s.cache, now, key);
    var cache := Lookup(s.cache, now, key).0;
    var reply := Comb.Step(s.comb, now, Comb.Request.Get(sid, key)).1;
    if key !in cache.data && reply.Value? {
      InsertNewKeepsFifo(cache, now, key, reply.value);
    }
  }

  lemma WriteKeepsFifo(s: State, now: Time, sid: string, key: string, call: Call)
    requires Fifo(s.cache, now) && (call.PUT? || call.DELETE?)
    ensures Fifo(HandleStep(s, now, sid, key, call).0.cache, now)
  {
    var after := HandleStep(s, now, sid, key, call).0.cache;
    if after != s.cache {
      assert after == Invalidate(s.cache, key);
      InvalidateKeepsFifo(s.cache, now, key);
    }
  }

  lemma HandleKeepsFifo(s: State, now: Time, sid: string, key: string, call: Call)
    requires Fifo(s.cache, now)
    ensures Fifo(HandleStep(s, now, sid, key, call).0.cache, now)
  {
    match call
    case GET => GetKeepsFifo(s, now, sid, key);
    case PUT(_, _) => WriteKeepsFifo(s, now, sid, key, call);
    case DELETE => WriteKeepsFifo(s, now, sid, key, call);
    case _ =>
  }

  // ----- Runs: this Keeper's requests among arbitrary Comb traffic -----

  datatype Event = Ask(key: string, call: Call) | Outside(request: Comb.Request)

  datatype Timed = Timed(now: Time, event: Event)

  /** The log keeps, for each event, its time and the Comb contents it found. */
  datatype World = World(s: State, log: seq<(Time, Comb.State)>)

  ghost function WorldStep(w: World, sid: string, t: Timed): (World, Option<Response>) {
    var log := w.log + [(t.now, w.s.comb)];
    match t.event
    case Ask(key, call) =>
      var (s, response) := HandleStep(w.s, t.now, sid, key, call);
      (World(s, log), Some(response))
    case Outside(request) => (World(w.s.(comb := Comb.Step(w.s.comb, t.now, request).0), log), None)
  }

  ghost function Run(w: World, sid: string, run: seq<Timed>): World
    decreases |run|
  {
    if run == [] then w else Run(WorldStep(w, sid, run[0]).0, sid, run[1..])
  }

  ghost predicate InOrder(run: seq<Timed>, from: Time, to: Time)
    decreases |run|
  {
    if run == [] then from <= to else from <= run[0].now && InOrder(run[1..], run[0].now, to)
  }

  /** Some instant in [lo, hi] found `value` live under `key` in Comb. */
  ghost predicate WasLive(log: seq<(Time, Comb.State)>, sid: string, key: string, value: string, lo: Time, hi: Time) {
    exists i :: 0 <= i < |log| && lo <= log[i].0 <= hi && log[i].1.Lookup(sid, key, log[i].0) == Some(value)
  }

  /** Every cached value was live in Comb at the moment it was cached. */
  ghost predicate Sourced(w: World, sid: string, now: Time) {
    && Fifo(w.s.cache, now)
    && forall k | k in w.s.cache.data ::
         var e := w.s.cache.data[k];
         WasLive(w.log, sid, k, e.value, e.insertedAt, e.insertedAt)
  }

  lemma LogOnlyGrows(log: seq<(Time, Comb.State)>, entry: (Time, Comb.State),
                     sid: string, key: string, value: string, lo: Time, hi: Time)
    requires WasLive(log, sid, key, value, lo, hi)
    ensures WasLive(log + [entry], sid, key, value, lo, hi)
  {
    var i :| 0 <= i < |log| && lo <= log[i].0 <= hi && log[i].1.Lookup(sid, key, log[i].0) == Some(value);
    assert (log + [entry])[i] == log[i];
  }

  /** Every entry of `after` was in `before`, or is the one just inserted. */
  ghost predicate OnlyAdds(before: map<string, CacheEntry>, after: map<string, CacheEntry>, key: string,
                           added: CacheEntry)
  {
    forall k | k in after :: (k in before && before[k] == after[k]) || (k == key && after[k] == added)
  }

  lemma InsertOnlyAdds(c: Cache, now: Time, key: string, value: string)
    ensures OnlyAdds(c.data, Insert(c, now, key, value, 0).data, key, NewEntry(now, value, 0))
  {}

  lemma LookupOnlyDrops(c: Cache, now: Time, key: string)
    ensures var (c', found) := Lookup(c, now, key);
            && (forall k | k in c'.data :: k in c.data && c.data[k] == c'.data[k])
            && (found.Some? ==> key in c.data && now <= c.data[key].expiresAt && found.value == c.data[key].value)
  {}

  /** After a GET the cache holds nothing new but what was just read from Comb; what is served comes from an
      unexpired entry or straight from Comb. */
  lemma GetSources(s: State, now: Time, sid: string, key: string)
    ensures var (s', response) := GetStep(s, now, sid, key);
            if s.comb.Lookup(sid, key, now) == None then OnlyAddsNothing(s.cache.data, s'.cache.data)
            else OnlyAdds(s.cache.data, s'.cache.data, key, NewEntry(now, s.comb.Lookup(sid, key, now).value, 0))
    ensures GetStep(s, now, sid, key).1.Ok? ==> ServedFrom(s, now, sid, key, GetStep(s, now, sid, key).1.value)
  {
    LookupOnlyDrops(s.cache, now, key);
    var cache := Lookup(s.cache, now, key).0;
    var reply := Comb.Step(s.comb, now, Comb.Request.Get(sid, key)).1;
    assert reply.Value? <==> s.comb.Lookup(sid, key, now).Some?;
    if reply.Value? {
      InsertOnlyAdds(cache, now, key, reply.value);
    }
  }

  ghost predicate OnlyAddsNothing(before: map<string, CacheEntry>, after: map<string, CacheEntry>) {
    forall k | k in after :: k in before && before[k] == after[k]
  }

  ghost predicate ServedFrom(s: State, now: Time, sid: string, key: string, value: string) {
    || (key in s.cache.data && now <= s.cache.data[key].expiresAt && s.cache.data[key].value == value)
    || s.comb.Lookup(sid, key, now) == Some(value)
  }

  /** The same for every request. */
  lemma HandleSources(s: State, now: Time, sid: string, key: string, call: Call)
    ensures var (s', response) := HandleStep(s, now, sid, key, call);
            && (forall k | k in s'.cache.data ::
                  var e := s'.cache.data[k];
                  || (k in s.cache.data && s.cache.data[k] == e)
                  || (e.insertedAt == now && s.comb.Lookup(sid, k, now) == Some(e.value)))
            && (response.Ok? ==> ServedFrom(s, now, sid, key, response.value))
  {
    match call
    case GET => GetSources(s, now, sid, key);
    case _ =>
  }

  lemma StepKeepsSourced(w: World, sid: string, before: Time, t: Timed)
    requires Sourced(w, sid, before) && before <= t.now
    ensures Sourced(WorldStep(w, sid, t).0, sid, t.now)
  {
    Later(w.s.cache, before, t.now);
    match t.event
    case Ask(key, call) =>
      HandleKeepsFifo(w.s, t.now, sid, key, call);
      HandleSources(w.s, t.now, sid, key, call);
      NewEntriesAreSourced(w, sid, t.now, HandleStep(w.s, t.now, sid, key, call).0.cache);
    case Outside(request) => NewEntriesAreSourced(w, sid, t.now, w.s.cache);
  }

  lemma NewEntriesAreSourced(w: World, sid: string, now: Time, cache: Cache)
    requires forall k | k in w.s.cache.data ::
               var e := w.s.cache.data[k];
               WasLive(w.log, sid, k, e.value, e.insertedAt, e.insertedAt)
    requires forall k | k in cache.data ::
               var e := cache.data[k];
               || (k in w.s.cache.data && w.s.cache.data[k] == e)
               || (e.insertedAt == now && w.s.comb.Lookup(sid, k, now) == Some(e.value))
    ensures forall k | k in cache.data ::
              var e := cache.data[k];
              WasLive(w.log + [(now, w.s.comb)], sid, k, e.value, e.insertedAt, e.insertedAt)
  {
    var log := w.log + [(now, w.s.comb)];
    forall k | k in cache.data
      ensures var e := cache.data[k]; WasLive(log, sid, k, e.value, e.insertedAt, e.insertedAt)
    {
      var e := cache.data[k];
      if k in w.s.cache.data && w.s.cache.data[k] == e {
        LogOnlyGrows(w.log, (now, w.s.comb), sid, k, e.value, e.insertedAt, e.insertedAt);
      } else {
        assert log[|w.log|] == (now, w.s.comb);
      }
    }
  }

  /** After every run of requests and foreign Comb traffic, the cache is in FIFO order, within its bound, and
      every value in it was once live in Comb. */
  lemma {:induction false} RunKeepsSourced(w: World, sid: string, run: seq<Timed>, from: Time, to: Time)
    requires Sourced(w, sid, from) && InOrder(run, from, to)
    ensures Sourced(Run(w, sid, run), sid, to)
    decreases |run|
  {
    if run == [] {
      Later(w.s.cache, from, to);
    } else {
      StepKeepsSourced(w, sid, from, run[0]);
      RunKeepsSourced(WorldStep(w, sid, run[0]).0, sid, run[1..], run[0].now, to);
    }
  }

  /** Bounded staleness: whatever a GET serves at time `now`, in any run and whoever else writes, was Comb's live
      value for that key at some instant of the last five minutes. */
  lemma BoundedStaleness(w: World, sid: string, run: seq<Timed>, from: Time, now: Time, key: string)
    requires Sourced(w, sid, from) && InOrder(run, from, now)
    ensures var (w', response) := WorldStep(Run(w, sid, run), sid, Timed(now, Ask(key, GET)));
            response.value.Ok? ==> WasLive(w'.log, sid, key, response.value.value, now - FIVE_MINUTES, now)
  {
    RunKeepsSourced(w, sid, run, from, now);
    ServedValueWasLive(Run(w, sid, run), sid, now, key);
  }

  lemma ServedValueWasLive(w: World, sid: string, now: Time, key: string)
    requires Sourced(w, sid, now)
    ensures var response := HandleStep(w.s, now, sid, key, GET).1;
            response.Ok? ==> WasLive(w.log + [(now, w.s.comb)], sid, key, response.value, now - FIVE_MINUTES, now)
  {
    var log := w.log + [(now, w.s.comb)];
    assert log[|w.log|] == (now, w.s.comb);
    HandleSources(w.s, now, sid, key, GET);
    if key in w.s.cache.data && now <= w.s.cache.data[key].expiresAt {
      var e := w.s.cache.data[key];
      LogOnlyGrows(w.log, (now, w.s.comb), sid, key, e.value, e.insertedAt, e.insertedAt);
    }
  }

  // ----- A Keeper that is the only writer -----

  ghost predicate WritesSession(r: Comb.Request, sid: string) {
    (r.Set? || r.Delete? || r.Incr? || r.Clear?) && r.sid == sid
  }

  /** Nobody else writes this session and no PUT sets a lifetime. */
  ghost predicate SoleWriter(run: seq<Timed>, sid: string) {
    forall t | t in run ::
      if t.event.Ask? then t.event.call.PUT? ==> t.event.call.ttl <= 0 else !WritesSession(t.event.request, sid)
  }

  /** Nothing in the session expires, and what is cached is what is stored. */
  ghost predicate Mirrors(s: State, sid: string) {
    && (forall k | k in s.comb.Entries(sid) :: s.comb.Entries(sid)[k].expiresAt == None)
    && (forall k | k in s.cache.data ::
          k in s.comb.Entries(sid) && s.comb.Entries(sid)[k].value == s.cache.data[k].value)
  }

  lemma GetLeavesComb(s: State, now: Time, sid: string, key: string)
    requires Mirrors(s, sid)
    ensures GetStep(s, now, sid, key).0.comb == s.comb
  {}

  lemma GetKeepsMirror(s: State, now: Time, sid: string, key: string)
    requires Mirrors(s, sid)
    ensures Mirrors(GetStep(s, now, sid, key).0, sid)
  {
    GetLeavesComb(s, now, sid, key);
    GetSources(s, now, sid, key);
  }

  lemma PutKeepsMirror(s: State, now: Time, sid: string, key: string, value: string, ttl: Time)
    requires Mirrors(s, sid) && ttl <= 0
    ensures Mirrors(PutStep(s, now, sid, key, value, ttl).0, sid)
  {}

  lemma DeleteKeepsMirror(s: State, now: Time, sid: string, key: string)
    requires Mirrors(s, sid)
    ensures Mirrors(DeleteStep(s, now, sid, key).0, sid)
  {}

  lemma HandleKeepsMirror(s: State, now: Time, sid: string, key: string, call: Call)
    requires Mirrors(s, sid) && (call.PUT? ==> call.ttl <= 0)
    ensures Mirrors(HandleStep(s, now, sid, key, call).0, sid)
  {
    match call
    case GET => GetKeepsMirror(s, now, sid, key);
    case PUT(value, ttl) => PutKeepsMirror(s, now, sid, key, value, ttl);
    case DELETE => DeleteKeepsMirror(s, now, sid, key);
    case _ =>
  }

  lemma OutsideKeepsMirror(s: State, now: Time, request: Comb.Request, sid: string)
    requires Mirrors(s, sid) && !WritesSession(request, sid)
    ensures Mirrors(s.(comb := Comb.Step(s.comb, now, request).0), sid)
  {
    forall k ensures Comb.MayWrite(request, sid, k) ==> WritesSession(request, sid) {}
    forall k
      ensures k in Comb.Step(s.comb, now, request).0.Entries(sid) <==> k in s.comb.Entries(sid)
      ensures k in s.comb.Entries(sid) ==> Comb.Step(s.comb, now, request).0.Entries(sid)[k] == s.comb.Entries(sid)[k]
    {
      Comb.EntryFrame(s.comb, now, request, sid, k);
    }
  }

  lemma {:induction false} RunKeepsMirror(w: World, sid: string, run: seq<Timed>)
    requires Mirrors(w.s, sid) && SoleWriter(run, sid)
    ensures Mirrors(Run(w, sid, run).s, sid)
    decreases |run|
  {
    if run != [] {
      assert run[0] in run;
      match run[0].event {
        case Ask(key, call) => HandleKeepsMirror(w.s, run[0].now, sid, key, call);
        case Outside(request) => OutsideKeepsMirror(w.s, run[0].now, request, sid);
      }
      RunKeepsMirror(WorldStep(w, sid, run[0]).0, sid, run[1..]);
    }
  }

  /** The answer a Keeper without a cache would give. */
  ghost function Direct(s: State, now: Time, sid: string, key: string): Response {
    var reply := Comb.Step(s.comb, now, Comb.Request.Get(sid, key)).1;
    if reply.Value? then Ok(reply.value) else NotFound
  }

  /** For a Keeper that is the only writer and uses no lifetimes the cache is invisible: in every run, every GET
      answers what a direct Comb.Get would. */
  lemma SoleWriterReadsDirectly(w: World, sid: string, run: seq<Timed>, now: Time, key: string)
    requires Mirrors(w.s, sid) && SoleWriter(run, sid) && key != ""
    ensures var s := Run(w, sid, run).s;
            HandleStep(s, now, sid, key, GET).1 == Direct(s, now, sid, key)
  {
    RunKeepsMirror(w, sid, run);
  }

  // ----- ... and that may set lifetimes -----

  ghost predicate NobodyElseWrites(run: seq<Timed>, sid: string) {
    forall t | t in run :: t.event.Outside? ==> !WritesSession(t.event.request, sid)
  }

  /** What is both cached and stored is cached as it is stored. */
  ghost predicate CachedAsStored(s: State, sid: string) {
    forall k | k in s.cache.data && k in s.comb.Entries(sid) ::
      s.cache.data[k].value == s.comb.Entries(sid)[k].value
  }

  /** Traffic that writes no entry of a session can only take some away. */
  lemma OthersOnlyDrop(comb: Comb.State, now: Time, request: Comb.Request, sid: string, k: string)
    requires !WritesSession(request, sid)
    ensures var after := Comb.Step(comb, now, request).0;
            k in after.Entries(sid) ==> k in comb.Entries(sid) && after.Entries(sid)[k] == comb.Entries(sid)[k]
  {}

  lemma HandleKeepsAgreement(s: State, now: Time, sid: string, key: string, call: Call)
    requires CachedAsStored(s, sid)
    ensures CachedAsStored(HandleStep(s, now, sid, key, call).0, sid)
  {
    match call
    case GET =>
      GetSources(s, now, sid, key);
      forall k { OthersOnlyDrop(s.comb, now, Comb.Request.Get(sid, key), sid, k); }
    case PUT(_, _) =>
    case DELETE =>
    case _ =>
  }

  lemma {:induction false} RunKeepsAgreement(w: World, sid: string, run: seq<Timed>)
    requires CachedAsStored(w.s, sid) && NobodyElseWrites(run, sid)
    ensures CachedAsStored(Run(w, sid, run).s, sid)
    decreases |run|
  {
    if run != [] {
      assert run[0] in run;
      match run[0].event {
        case Ask(key, call) => HandleKeepsAgreement(w.s, run[0].now, sid, key, call);
        case Outside(request) => forall k { OthersOnlyDrop(w.s.comb, run[0].now, request, sid, k); }
      }
      RunKeepsAgreement(WorldStep(w, sid, run[0]).0, sid, run[1..]);
    }
  }

  /** For a Keeper that is the only writer, whatever lifetimes it sets: after every run a GET answers what a direct
      Comb.Get would if and only if the key, when it is cached and not expired there, is still live in Comb. */
  lemma CachedReadsAreDirectExactlyWhen(w: World, sid: string, run: seq<Timed>, now: Time, key: string)
    requires CachedAsStored(w.s, sid) && NobodyElseWrites(run, sid) && key != ""
    ensures var s := Run(w, sid, run).s;
            HandleStep(s, now, sid, key, GET).1 == Direct(s, now, sid, key)
            <==> (key in s.cache.data && now <= s.cache.data[key].expiresAt ==> s.comb.Lookup(sid, key, now).Some?)
  {
    RunKeepsAgreement(w, sid, run);
  }

  /** A new Keeper starts in every one of these states, whatever Comb already holds (for the last one, as long as
      nothing in its session expires). */
  lemma FreshKeeper(comb: Comb.State, sid: string, now: Time)
    ensures var w := World(State(comb, Cache(map[], [], 1000)), []);
            && Sourced(w, sid, now) && CachedAsStored(w.s, sid)
            && ((forall k | k in comb.Entries(sid) :: comb.Entries(sid)[k].expiresAt == None) <==> Mirrors(w.s, sid))
  {}

  /** The five minutes are used in full: a value overwritten by someone else just after it was cached is still
      served when the five minutes end; and a sole writer's PUT with a lifetime outlives it in the cache, which is the
      case that condition leaves out. */
  lemma StalenessIsReal()
    ensures var s1 := HandleStep(State(Comb.EMPTY, Cache(map[], [], 1000)), 0, "s", "k", PUT("old", 7)).0;
            var s2 := HandleStep(s1, 0, "s", "k", GET).0;
            var s3 := s2.(comb := Comb.Step(s2.comb, 1, Comb.Request.Set("s", "k", "new", 0)).0);
            && HandleStep(s3, FIVE_MINUTES, "s", "k", GET).1 == Ok("old")
            && Direct(s3, FIVE_MINUTES, "s", "k") == Ok("new")
            && HandleStep(s2, FIVE_MINUTES, "s", "k", GET).1 == Ok("old")
            && Direct(s2, FIVE_MINUTES, "s", "k") == NotFound
  {}
}
