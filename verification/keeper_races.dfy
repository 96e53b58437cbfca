/** The Keeper's GET, PUT and DELETE (internal/keeper/keeper.go) with requests overlapping: a GET looks into the
    cache, reads Comb and fills the cache in three steps, a PUT or DELETE writes Comb and invalidates in two,
    each locked by itself. */
module KeeperRaces {
  import opened Wrappers
  import Comb
  import opened KeeperCache

  type RequestID = nat

  /** A request under way: a GET that missed, a GET that has read Comb, a PUT or DELETE that has written it. */
  datatype Pending = Missed(key: string) | Holding(key: string, value: string, readAt: Time) | Written(key: string)

  /** `read` records when each cached value was read from Comb. */
  datatype Scene = Scene(
    s: State, pending: map<RequestID, Pending>, log: seq<(Time, Comb.State)>, read: map<string, Time>)

  datatype Move =
    | LookUp(id: RequestID, key: string)
    | ReadComb(id: RequestID)
    | Fill(id: RequestID)
    | Write(id: RequestID, key: string, value: string, ttl: Time)
    | Remove(id: RequestID, key: string)
    | Drop(id: RequestID)
    | Foreign(request: Comb.Request)

  datatype TimedMove = TimedMove(now: Time, move: Move)

  function Begin(c: Scene, id: RequestID, p: Pending): Scene {
    c.(pending := c.pending[id := p])
  }

  function Finish(c: Scene, id: RequestID): Scene {
    c.(pending := c.pending - {id})
  }

  predicate IsHolding(c: Scene, id: RequestID) {
    id in c.pending && c.pending[id].Holding?
  }

  predicate IsWritten(c: Scene, id: RequestID) {
    id in c.pending && c.pending[id].Written?
  }

  /** The cache once a GET has filled in what it holds. */
  function Filled(c: Scene, id: RequestID, now: Time): Cache
    requires IsHolding(c, id)
  {
    Insert(c.s.cache, now, c.pending[id].key, c.pending[id].value, 0)
  }

  /** A step that its request is not ready for changes nothing but the log. */
  ghost function MoveStep(before: Scene, now: Time, sid: string, move: Move): Scene {
    var c := before.(log := before.log + [(now, before.s.comb)]);
    match move
    case LookUp(id, key) =>
      if id in c.pending then c
      else
        var (cache, cached) := Lookup(c.s.cache, now, key);
        var left := c.(s := c.s.(cache := cache));
        if cached.Some? then left else Begin(left, id, Missed(key))
    case ReadComb(id) =>
      if !(id in c.pending && c.pending[id].Missed?) then c
      else
        var (comb, reply) := Comb.Step(c.s.comb, now, Comb.Request.Get(sid, c.pending[id].key));
        var left := c.(s := c.s.(comb := comb));
        if reply.Value? then Begin(left, id, Holding(c.pending[id].key, reply.value, now)) else Finish(left, id)
    case Fill(id) =>
      if !IsHolding(c, id) then c
      else
        var filled := c.s.(cache := Filled(c, id, now));
        Finish(c.(s := filled, read := c.read[c.pending[id].key := c.pending[id].readAt]), id)
    case Write(id, key, value, ttl) =>
      if id in c.pending then c
      else
        var (comb, reply) := Comb.Step(c.s.comb, now, Comb.Request.Set(sid, key, value, ttl));
        var left := c.(s := c.s.(comb := comb));
        if reply == Comb.Done then Begin(left, id, Written(key)) else left
    case Remove(id, key) =>
      if id in c.pending then c
      else
        var (comb, reply) := Comb.Step(c.s.comb, now, Comb.Request.Delete(sid, key));
        var left := c.(s := c.s.(comb := comb));
        if reply == Comb.Done then Begin(left, id, Written(key)) else left
    case Drop(id) =>
      if !IsWritten(c, id) then c
      else Finish(c.(s := c.s.(cache := Invalidate(c.s.cache, c.pending[id].key))), id)
    case Foreign(request) => c.(s := c.s.(comb := Comb.Step(c.s.comb, now, request).0))
  }

  ghost function Play(c: Scene, sid: string, moves: seq<TimedMove>): Scene
    decreases |moves|
  {
    if moves == [] then c else Play(MoveStep(c, moves[0].now, sid, moves[0].move), sid, moves[1..])
  }

  /** A GET, and likewise a PUT or DELETE, whose moves follow one another at once is the request handled in one step. */
  lemma UninterruptedGet(c: Scene, sid: string, now: Time, id: RequestID, key: string)
    requires id !in c.pending && key != ""
    ensures var one := MoveStep(c, now, sid, LookUp(id, key));
            var two := MoveStep(one, now, sid, ReadComb(id));
            MoveStep(two, now, sid, Fill(id)).s == HandleStep(c.s, now, sid, key, GET).0
  {}

  lemma UninterruptedWrite(c: Scene, sid: string, now: Time, id: RequestID, key: string, value: string, ttl: Time)
    requires id !in c.pending && key != ""
    ensures var put := MoveStep(c, now, sid, Write(id, key, value, ttl));
            MoveStep(put, now, sid, Drop(id)).s == HandleStep(c.s, now, sid, key, PUT(value, ttl)).0
    ensures var deleted := MoveStep(c, now, sid, Remove(id, key));
            MoveStep(deleted, now, sid, Drop(id)).s == HandleStep(c.s, now, sid, key, DELETE).0
  {}

  ghost predicate Ordered(moves: seq<TimedMove>, from: Time, to: Time)
    decreases |moves|
  {
    if moves == [] then from <= to else from <= moves[0].now && Ordered(moves[1..], moves[0].now, to)
  }

  // ----- Staleness -----

  /** Every GET fills the cache within `lag` of reading Comb. */
  ghost predicate Prompt(c: Scene, sid: string, moves: seq<TimedMove>, lag: Time)
    decreases |moves|
  {
    moves == [] ||
    (&& (moves[0].move.Fill? && IsHolding(c, moves[0].move.id) ==>
           moves[0].now - c.pending[moves[0].move.id].readAt <= lag)
     && Prompt(MoveStep(c, moves[0].now, sid, moves[0].move), sid, moves[1..], lag))
  }

  ghost predicate EntrySourced(c: Scene, sid: string, now: Time, lag: Time, key: string) {
    key in c.s.cache.data ==>
      var e := c.s.cache.data[key];
      && key in c.read && WasLive(c.log, sid, key, e.value, c.read[key], c.read[key])
      && c.read[key] <= now && e.expiresAt <= c.read[key] + lag + FIVE_MINUTES
  }

  ghost predicate HeldSourced(c: Scene, sid: string, now: Time, id: RequestID) {
    IsHolding(c, id) ==>
      var p := c.pending[id];
      p.readAt <= now && WasLive(c.log, sid, p.key, p.value, p.readAt, p.readAt)
  }

  /** Every value cached or held was live in Comb when it was read. */
  ghost predicate AllSourced(c: Scene, sid: string, now: Time, lag: Time) {
    && (forall key :: EntrySourced(c, sid, now, lag, key))
    && (forall id :: HeldSourced(c, sid, now, id))
  }

  lemma MoveKeepsSourced(c: Scene, sid: string, before: Time, now: Time, move: Move, lag: Time)
    requires AllSourced(c, sid, before, lag) && before <= now
    requires move.Fill? && IsHolding(c, move.id) ==> now - c.pending[move.id].readAt <= lag
    ensures AllSourced(MoveStep(c, now, sid, move), sid, now, lag)
  {
    var c' := MoveStep(c, now, sid, move);
    forall key ensures EntrySourced(c', sid, now, lag, key) {
      assert EntrySourced(c, sid, before, lag, key);
      CacheAfterMove(c, sid, now, move, key);
      if key in c'.s.cache.data {
        if move.Fill? && IsHolding(c, move.id) && c.pending[move.id].key == key {
          var p := c.pending[move.id];
          assert HeldSourced(c, sid, before, move.id);
          LogOnlyGrows(c.log, (now, c.s.comb), sid, key, p.value, p.readAt, p.readAt);
        } else {
          var e := c.s.cache.data[key];
          LogOnlyGrows(c.log, (now, c.s.comb), sid, key, e.value, c.read[key], c.read[key]);
        }
      }
    }
    forall id ensures HeldSourced(c', sid, now, id) {
      assert HeldSourced(c, sid, before, id);
      HeldAfterMove(c, sid, now, move, id);
      if IsHolding(c', id) {
        var p := c'.pending[id];
        if IsHolding(c, id) && c.pending[id] == p {
          LogOnlyGrows(c.log, (now, c.s.comb), sid, p.key, p.value, p.readAt, p.readAt);
        } else {
          assert c'.log[|c.log|] == (now, c.s.comb);
        }
      }
    }
  }

  /** A cached entry was cached before, and its read time still stands. */
  ghost predicate Carried(c: Scene, c': Scene, key: string) {
    && key in c.s.cache.data && key in c'.s.cache.data && c'.s.cache.data[key] == c.s.cache.data[key]
    && (key in c.read ==> key in c'.read && c'.read[key] == c.read[key])
  }

  /** What is in the cache after a move was there before, or has just been filled in. */
  lemma CacheAfterMove(c: Scene, sid: string, now: Time, move: Move, key: string)
    ensures var c' := MoveStep(c, now, sid, move);
            && c'.log == c.log + [(now, c.s.comb)]
            && (key in c'.s.cache.data ==>
                  if move.Fill? && IsHolding(c, move.id) && c.pending[move.id].key == key
                  then c'.s.cache.data[key] == NewEntry(now, c.pending[move.id].value, 0)
                       && c'.read == c.read[key := c.pending[move.id].readAt]
                  else Carried(c, c', key))
  {
    match move
    case LookUp(id, k) => LookupOnlyDrops(c.s.cache, now, k);
    case Fill(id) => CacheAfterFill(c, sid, now, id, key);
    case _ => CacheAfterOther(c, sid, now, move, key);
  }

  lemma CacheAfterFill(c: Scene, sid: string, now: Time, id: RequestID, key: string)
    ensures var c' := MoveStep(c, now, sid, Fill(id));
            key in c'.s.cache.data ==>
              if IsHolding(c, id) && c.pending[id].key == key
              then c'.s.cache.data[key] == NewEntry(now, c.pending[id].value, 0)
                   && c'.read == c.read[key := c.pending[id].readAt]
              else Carried(c, c', key)
  {
    if IsHolding(c, id) {
      InsertOnlyAdds(c.s.cache, now, c.pending[id].key, c.pending[id].value);
      FilledEntry(c, id, now);
    }
  }

  lemma CacheAfterOther(c: Scene, sid: string, now: Time, move: Move, key: string)
    requires !move.LookUp? && !move.Fill?
    ensures var c' := MoveStep(c, now, sid, move); key in c'.s.cache.data ==> Carried(c, c', key)
  {}

  lemma FilledEntry(c: Scene, id: RequestID, now: Time)
    requires IsHolding(c, id)
    ensures var p := c.pending[id];
            p.key in Filled(c, id, now).data && Filled(c, id, now).data[p.key] == NewEntry(now, p.value, 0)
  {}

  lemma HeldAfterMove(c: Scene, sid: string, now: Time, move: Move, id: RequestID)
    ensures var c' := MoveStep(c, now, sid, move);
            IsHolding(c', id) ==>
              || (IsHolding(c, id) && c'.pending[id] == c.pending[id])
              || (c'.pending[id].readAt == now
                  && c.s.comb.Lookup(sid, c'.pending[id].key, now) == Some(c'.pending[id].value))
  {}

  lemma {:induction false} PlayKeepsSourced(c: Scene, sid: string, moves: seq<TimedMove>, from: Time, to: Time,
                                            lag: Time)
    requires AllSourced(c, sid, from, lag) && Ordered(moves, from, to) && Prompt(c, sid, moves, lag)
    ensures AllSourced(Play(c, sid, moves), sid, to, lag)
    decreases |moves|
  {
    if moves == [] {
      assert forall key :: EntrySourced(c, sid, from, lag, key) ==> EntrySourced(c, sid, to, lag, key);
      assert forall id :: HeldSourced(c, sid, from, id) ==> HeldSourced(c, sid, to, id);
    } else {
      MoveKeepsSourced(c, sid, from, moves[0].now, moves[0].move, lag);
      PlayKeepsSourced(MoveStep(c, moves[0].now, sid, moves[0].move), sid, moves[1..], moves[0].now, to, lag);
    }
  }

  /** Bounded staleness with requests overlapping in any way: if GETs fill the cache within `lag` of their read,
      whatever a GET finds in the cache was Comb's live value at some instant of the last five minutes and `lag`. */
  lemma StalenessWithOverlaps(comb: Comb.State, maxSize: int, sid: string, moves: seq<TimedMove>, from: Time, now: Time,
                              lag: Time, key: string)
    requires lag >= 0 && Ordered(moves, from, now)
    requires Prompt(Scene(State(comb, Cache(map[], [], maxSize)), map[], [], map[]), sid, moves, lag)
    ensures var c := Play(Scene(State(comb, Cache(map[], [], maxSize)), map[], [], map[]), sid, moves);
            var served := Lookup(c.s.cache, now, key).1;
            served.Some? ==> WasLive(c.log, sid, key, served.value, now - FIVE_MINUTES - lag, now)
  {
    var start := Scene(State(comb, Cache(map[], [], maxSize)), map[], [], map[]);
    PlayKeepsSourced(start, sid, moves, from, now, lag);
    var c := Play(start, sid, moves);
    assert EntrySourced(c, sid, now, lag, key);
    if Lookup(c.s.cache, now, key).1.Some? {
      var value, at := c.s.cache.data[key].value, c.read[key];
      var i :| 0 <= i < |c.log| && at <= c.log[i].0 <= at && c.log[i].1.Lookup(sid, key, c.log[i].0) == Some(value);
    }
  }

  // ----- Order -----

  /** A GET's fill keeps the FIFO order if and only if no other GET of the same key has filled it since the miss. */
  lemma FillKeepsOrderExactlyWhen(c: Scene, sid: string, now: Time, id: RequestID)
    requires IsHolding(c, id) && Fifo(c.s.cache, now)
    ensures Fifo(MoveStep(c, now, sid, Fill(id)).s.cache, now) <==> c.pending[id].key !in c.s.cache.data
  {
    InsertKeepsFifoIffNew(c.s.cache, now, c.pending[id].key, c.pending[id].value);
  }

  // ----- Size -----

  predicate IsRefill(c: Scene, move: Move) {
    move.Fill? && IsHolding(c, move.id) && c.pending[move.id].key in c.s.cache.data
  }

  /** Fills of a key that some other GET has filled since the miss; each takes the key out of the order. */
  ghost function Refills(c: Scene, sid: string, moves: seq<TimedMove>): nat
    decreases |moves|
  {
    if moves == [] then 0
    else
      (if IsRefill(c, moves[0].move) then 1 else 0)
      + Refills(MoveStep(c, moves[0].now, sid, moves[0].move), sid, moves[1..])
  }

  /** At most `lost` cached keys are missing from the order, and beyond the bound the order has one key at most. */
  ghost predicate Sized(c: Cache, lost: nat) {
    && Distinct(c.order) && (forall k | k in c.order :: k in c.data)
    && |c.data| <= |c.order| + lost
    && (|c.data| <= Bound(c) || |c.order| <= 1)
  }

  lemma InvalidateKeepsSized(c: Cache, key: string, lost: nat)
    requires Sized(c, lost)
    ensures Sized(Invalidate(c, key), lost)
  {
    OthersRemain(c.order, key);
    SizeWithout(c.data, key);
  }

  lemma AddedSize(m: map<string, CacheEntry>, key: string, entry: CacheEntry)
    ensures |m[key := entry]| == |m| + if key in m then 0 else 1
  {
    assert m[key := entry].Keys == m.Keys + {key};
  }

  lemma RefillKeepsSized(c: Cache, now: Time, key: string, value: string, lost: nat)
    requires Sized(c, lost) && key in c.data
    ensures Sized(Insert(c, now, key, value, 0), lost + 1)
  {
    OthersRemain(c.order, key);
    AddedSize(c.data, key, NewEntry(now, value, 0));
  }

  lemma EvictKeepsSized(c: Cache, lost: nat)
    requires Sized(c, lost) && c.order != []
    ensures Sized(Evict(c), lost) && |Evict(c).data| == |c.data| - 1 && |Evict(c).order| == |c.order| - 1
  {
    assert c.order[0] in c.order;
    SizeWithout(c.data, c.order[0]);
  }

  lemma AppendKeepsSized(c: Cache, key: string, entry: CacheEntry, lost: nat)
    requires Sized(c, lost) && key !in c.data && (|c.data| < Bound(c) || c.order == [])
    ensures Sized(c.(data := c.data[key := entry], order := c.order + [key]), lost)
  {
    AddedSize(c.data, key, entry);
    assert forall i | 0 <= i < |c.order| :: c.order[i] in c.order;
  }

  lemma InsertKeepsSized(c: Cache, now: Time, key: string, value: string, lost: nat)
    requires Sized(c, lost)
    ensures Sized(Insert(c, now, key, value, 0), lost + if key in c.data then 1 else 0)
  {
    if key in c.data {
      RefillKeepsSized(c, now, key, value, lost);
    } else if |c.data| >= c.maxSize && c.order != [] {
      EvictKeepsSized(c, lost);
      AppendKeepsSized(Evict(c), key, NewEntry(now, value, 0), lost);
    } else {
      AppendKeepsSized(c, key, NewEntry(now, value, 0), lost);
    }
  }

  lemma FillKeepsSized(c: Scene, sid: string, now: Time, id: RequestID, lost: nat)
    requires Sized(c.s.cache, lost)
    ensures Sized(MoveStep(c, now, sid, Fill(id)).s.cache, lost + if IsRefill(c, Fill(id)) then 1 else 0)
  {
    if IsHolding(c, id) {
      FillMove(c, sid, now, id);
      InsertKeepsSized(c.s.cache, now, c.pending[id].key, c.pending[id].value, lost);
    }
  }

  lemma OtherKeepsCache(c: Scene, sid: string, now: Time, move: Move)
    requires !move.LookUp? && !move.Fill? && !move.Drop?
    ensures MoveStep(c, now, sid, move).s.cache == c.s.cache
  {}

  lemma MoveKeepsSized(c: Scene, sid: string, now: Time, move: Move, lost: nat)
    requires Sized(c.s.cache, lost)
    ensures Sized(MoveStep(c, now, sid, move).s.cache, lost + if IsRefill(c, move) then 1 else 0)
  {
    match move
    case LookUp(id, key) => LookUpKeepsSized(c, sid, now, id, key, lost);
    case Fill(id) => FillKeepsSized(c, sid, now, id, lost);
    case Drop(id) => DropKeepsSized(c, sid, now, id, lost);
    case _ => OtherKeepsCache(c, sid, now, move);
  }

  lemma LookUpKeepsSized(c: Scene, sid: string, now: Time, id: RequestID, key: string, lost: nat)
    requires Sized(c.s.cache, lost)
    ensures Sized(MoveStep(c, now, sid, LookUp(id, key)).s.cache, lost)
  {
    InvalidateKeepsSized(c.s.cache, key, lost);
  }

  lemma DropKeepsSized(c: Scene, sid: string, now: Time, id: RequestID, lost: nat)
    requires Sized(c.s.cache, lost)
    ensures Sized(MoveStep(c, now, sid, Drop(id)).s.cache, lost)
  {
    if IsWritten(c, id) {
      InvalidateKeepsSized(c.s.cache, c.pending[id].key, lost);
    }
  }

  lemma {:induction false} PlayKeepsSized(c: Scene, sid: string, moves: seq<TimedMove>, lost: nat)
    requires Sized(c.s.cache, lost)
    ensures Sized(Play(c, sid, moves).s.cache, lost + Refills(c, sid, moves))
    decreases |moves|
  {
    if moves != [] {
      var c', again := MoveStep(c, moves[0].now, sid, moves[0].move), if IsRefill(c, moves[0].move) then 1 else 0;
      MoveKeepsSized(c, sid, moves[0].now, moves[0].move, lost);
      PlayKeepsSized(c', sid, moves[1..], lost + again);
    }
  }

  /** However requests overlap, a new Keeper's cache outgrows its bound only while its order has one key at most, and by
      no more than the fills of keys that were cached already; without such fills it stays within the bound. */
  lemma SizeUnderOverlaps(comb: Comb.State, maxSize: int, sid: string, moves: seq<TimedMove>)
    ensures var start := Scene(State(comb, Cache(map[], [], maxSize)), map[], [], map[]);
            var (cache, again) := (Play(start, sid, moves).s.cache, Refills(start, sid, moves));
            && (|cache.data| > Bound(cache) ==> |cache.order| <= 1 && |cache.data| <= 1 + again)
            && (again == 0 ==> |cache.data| <= Bound(cache))
  {
    PlayKeepsSized(Scene(State(comb, Cache(map[], [], maxSize)), map[], [], map[]), sid, moves, 0);
  }

  /** From within the bound a fill stays there if and only if the key is cached, or there is room, or the order still
      has a key to evict. */
  lemma FillKeepsSizeExactlyWhen(c: Scene, sid: string, now: Time, id: RequestID, lost: nat)
    requires IsHolding(c, id) && Sized(c.s.cache, lost) && |c.s.cache.data| <= Bound(c.s.cache)
    ensures var cache, key := c.s.cache, c.pending[id].key;
            |MoveStep(c, now, sid, Fill(id)).s.cache.data| <= Bound(cache)
            <==> key in cache.data || |cache.data| < Bound(cache) || cache.order != []
  {
    var cache, key, entry := c.s.cache, c.pending[id].key, NewEntry(now, c.pending[id].value, 0);
    if |cache.data| >= cache.maxSize && cache.order != [] {
      EvictKeepsSized(cache, lost);
      AddedSize(Evict(cache).data, key, entry);
    }
    AddedSize(cache.data, key, entry);
  }

  // ----- ... and that it has no bound -----

  lemma {:induction false} PlayTwice(c: Scene, sid: string, a: seq<TimedMove>, b: seq<TimedMove>)
    ensures Play(c, sid, a + b) == Play(Play(c, sid, a), sid, b)
    decreases |a|
  {
    if a == [] {
      assert a + b == b;
    } else {
      assert (a + b)[1..] == a[1..] + b;
      PlayTwice(MoveStep(c, a[0].now, sid, a[0].move), sid, a[1..], b);
    }
  }

  lemma PlayOfTwo(c: Scene, sid: string, now: Time, m: Move, n: Move)
    ensures Play(c, sid, [TimedMove(now, m), TimedMove(now, n)]) == MoveStep(MoveStep(c, now, sid, m), now, sid, n)
  {
    var (first, second) := (TimedMove(now, m), TimedMove(now, n));
    var c' := MoveStep(c, now, sid, m);
    assert Play(c', sid, [first][1..]) == c';
    assert Play(MoveStep(c', now, sid, n), sid, [second][1..]) == MoveStep(c', now, sid, n);
    PlayTwice(c, sid, [first], [second]);
    assert [first] + [second] == [first, second];
  }

  lemma BothMiss(c: Scene, sid: string, now: Time, key: string) returns (moves: seq<TimedMove>)
    requires c.pending == map[] && key !in c.s.cache.data
    ensures var c' := Play(c, sid, moves); c'.s == c.s && c'.pending == map[0 := Missed(key), 1 := Missed(key)]
  {
    moves := [TimedMove(now, LookUp(0, key)), TimedMove(now, LookUp(1, key))];
    PlayOfTwo(c, sid, now, LookUp(0, key), LookUp(1, key));
  }

  lemma BothRead(c: Scene, sid: string, now: Time, key: string) returns (moves: seq<TimedMove>)
    requires c.pending == map[0 := Missed(key), 1 := Missed(key)] && c.s.comb.Lookup(sid, key, now).Some?
    ensures var c', held := Play(c, sid, moves), Holding(key, c.s.comb.Lookup(sid, key, now).value, now);
            c'.s == c.s && c'.pending == map[0 := held, 1 := held]
  {
    moves := [TimedMove(now, ReadComb(0)), TimedMove(now, ReadComb(1))];
    PlayOfTwo(c, sid, now, ReadComb(0), ReadComb(1));
  }

  /** The second of two insertions takes the key out of the order again. */
  lemma InsertedTwice(c: Cache, now: Time, key: string, value: string)
    requires key !in c.data && c.order == []
    ensures var once := Insert(c, now, key, value, 0);
            && key in once.data
            && Insert(once, now, key, value, 0) == c.(data := c.data[key := NewEntry(now, value, 0)])
  {
    var entry := NewEntry(now, value, 0);
    var once := c.(data := c.data[key := entry], order := [key]);
    assert Insert(c, now, key, value, 0) == once by { assert [] + [key] == [key]; }
    assert once.data[key := entry] == c.data[key := entry] && Without([key], key) == [];
  }

  lemma FillMove(c: Scene, sid: string, now: Time, id: RequestID)
    requires IsHolding(c, id)
    ensures var c' := MoveStep(c, now, sid, Fill(id));
            c'.s == c.s.(cache := Filled(c, id, now)) && c'.pending == c.pending - {id}
  {}

  lemma BothFill(c: Scene, sid: string, now: Time, key: string, value: string) returns (moves: seq<TimedMove>)
    requires var held := Holding(key, value, now); c.pending == map[0 := held, 1 := held]
    requires key !in c.s.cache.data && c.s.cache.order == []
    ensures var c' := Play(c, sid, moves);
            && c'.s == c.s.(cache := c.s.cache.(data := c.s.cache.data[key := NewEntry(now, value, 0)]))
            && c'.pending == map[]
  {
    moves := [TimedMove(now, Fill(0)), TimedMove(now, Fill(1))];
    PlayOfTwo(c, sid, now, Fill(0), Fill(1));
    FillMove(c, sid, now, 0);
    var c1 := MoveStep(c, now, sid, Fill(0));
    assert c1.pending == map[1 := Holding(key, value, now)];
    FillMove(c1, sid, now, 1);
    InsertedTwice(c.s.cache, now, key, value);
  }

  /** Two GETs of one key, move by move together: the key is cached and in no order. */
  lemma TwoGetsTogether(c: Scene, sid: string, now: Time, key: string) returns (moves: seq<TimedMove>)
    requires c.pending == map[] && c.s.cache.order == [] && key !in c.s.cache.data
    requires c.s.comb.Lookup(sid, key, now).Some?
    ensures var c' := Play(c, sid, moves);
            && c'.pending == map[] && c'.s.comb == c.s.comb && c'.s.cache.order == []
            && c'.s.cache.data.Keys == c.s.cache.data.Keys + {key}
  {
    var missed := BothMiss(c, sid, now, key);
    var c1 := Play(c, sid, missed);
    var read := BothRead(c1, sid, now, key);
    var c2 := Play(c1, sid, read);
    var filled := BothFill(c2, sid, now, key, c.s.comb.Lookup(sid, key, now).value);
    PlayTwice(c, sid, missed, read);
    PlayTwice(c, sid, missed + read, filled);
    moves := missed + read + filled;
  }

  /** Overlapping GETs can bring any number of stored keys into the cache together, whatever its size. */
  lemma {:induction false} OverlapsOutgrowAnySize(c: Scene, sid: string, now: Time, keys: seq<string>)
    returns (moves: seq<TimedMove>)
    requires c.pending == map[] && c.s.cache.order == [] && Distinct(keys)
    requires forall k | k in keys :: k !in c.s.cache.data && c.s.comb.Lookup(sid, k, now).Some?
    ensures |Play(c, sid, moves).s.cache.data| == |c.s.cache.data| + |keys|
    decreases |keys|
  {
    if keys == [] {
      moves := [];
    } else {
      var first := TwoGetsTogether(c, sid, now, keys[0]);
      var c' := Play(c, sid, first);
      assert |c'.s.cache.data.Keys| == |c.s.cache.data.Keys| + 1;
      forall k | k in keys[1..] ensures k !in c'.s.cache.data && c'.s.comb.Lookup(sid, k, now).Some? {
        var i :| 0 < i < |keys| && keys[i] == k;
      }
      var rest := OverlapsOutgrowAnySize(c', sid, now, keys[1..]);
      PlayTwice(c, sid, first, rest);
      moves := first + rest;
    }
  }

  // ----- A Keeper that is the only writer -----

  /** Comb holds this value under this key, for good. */
  predicate Stores(comb: Comb.State, sid: string, key: string, value: string) {
    key in comb.Entries(sid) && comb.Entries(sid)[key] == Comb.Entry(value, None)
  }

  ghost predicate NothingExpires(comb: Comb.State, sid: string) {
    forall k | k in comb.Entries(sid) :: comb.Entries(sid)[k].expiresAt == None
  }

  /** A fill makes a cache that agreed with Comb agree again if and only if Comb still holds what was read. */
  lemma FillKeepsMirrorExactlyWhen(c: Scene, sid: string, now: Time, id: RequestID)
    requires IsHolding(c, id) && Mirrors(c.s, sid)
    ensures Mirrors(MoveStep(c, now, sid, Fill(id)).s, sid)
            <==> Stores(c.s.comb, sid, c.pending[id].key, c.pending[id].value)
  {
    var p := c.pending[id];
    InsertOnlyAdds(c.s.cache, now, p.key, p.value);
    FilledEntry(c, id, now);
  }

  /** A PUT's write keeps the agreement if and only if the key is not cached or cached with the value written. */
  lemma WriteKeepsMirrorExactlyWhen(c: Scene, sid: string, now: Time, id: RequestID, key: string, value: string,
                                    ttl: Time)
    requires id !in c.pending && Mirrors(c.s, sid) && ttl <= 0
    requires Comb.Step(c.s.comb, now, Comb.Request.Set(sid, key, value, ttl)).1 == Comb.Done
    ensures Mirrors(MoveStep(c, now, sid, Write(id, key, value, ttl)).s, sid)
            <==> (key in c.s.cache.data ==> c.s.cache.data[key].value == value)
  {
    var comb' := Comb.Step(c.s.comb, now, Comb.Request.Set(sid, key, value, ttl)).0;
    assert comb'.Entries(sid) == c.s.comb.Entries(sid)[key := Comb.Entry(value, None)];
  }

  /** Some PUT or DELETE has written the key and not invalidated it yet. */
  ghost predicate BeingWritten(c: Scene, key: string) {
    exists id :: id in c.pending && c.pending[id] == Written(key)
  }

  /** No value of the key is on its way into the cache. */
  ghost predicate NobodyHolds(c: Scene, key: string) {
    forall id | IsHolding(c, id) :: c.pending[id].key != key
  }

  /** This Keeper alone writes the session, without lifetimes, and never while one of its GETs holds a value of
      the key. */
  ghost predicate Apart(c: Scene, sid: string, moves: seq<TimedMove>)
    decreases |moves|
  {
    moves == [] ||
    (&& (match moves[0].move
         case Write(id, key, _, ttl) => ttl <= 0 && NobodyHolds(c, key)
         case Remove(id, key) => NobodyHolds(c, key)
         case Foreign(request) => !WritesSession(request, sid)
         case _ => true)
     && Apart(MoveStep(c, moves[0].now, sid, moves[0].move), sid, moves[1..]))
  }

  ghost predicate KeyAgrees(c: Scene, sid: string, key: string) {
    key in c.s.cache.data && !BeingWritten(c, key) ==> Stores(c.s.comb, sid, key, c.s.cache.data[key].value)
  }

  ghost predicate HeldAgrees(c: Scene, sid: string, id: RequestID) {
    IsHolding(c, id) ==> Stores(c.s.comb, sid, c.pending[id].key, c.pending[id].value)
  }

  /** The cache agrees with Comb on every key that is not just being written, and so does every value on its way in. */
  ghost predicate Agrees(c: Scene, sid: string) {
    && NothingExpires(c.s.comb, sid)
    && (forall key :: KeyAgrees(c, sid, key))
    && (forall id :: HeldAgrees(c, sid, id))
  }

  /** What a move of an Apart run does to one key of Comb. */
  lemma CombAfterMove(c: Scene, sid: string, now: Time, move: Move, key: string)
    requires NothingExpires(c.s.comb, sid)
    requires move.Write? ==> move.ttl <= 0
    requires move.Foreign? ==> !WritesSession(move.request, sid)
    ensures var c' := MoveStep(c, now, sid, move);
            && NothingExpires(c'.s.comb, sid)
            && (forall value :: Stores(c.s.comb, sid, key, value) ==>
                  || Stores(c'.s.comb, sid, key, value)
                  || ((move.Write? || move.Remove?) && move.key == key && BeingWritten(c', key)))
  {
    var c' := MoveStep(c, now, sid, move);
    match move
    case Foreign(request) => ForeignLeavesSession(c.s.comb, now, request, sid);
    case Write(id, k, value, ttl) =>
      if id !in c.pending && id in c'.pending {
        assert c'.pending[id] == Written(k);
      }
    case Remove(id, k) =>
      if id !in c.pending && id in c'.pending {
        assert c'.pending[id] == Written(k);
      }
    case _ =>
  }

  lemma ForeignLeavesSession(comb: Comb.State, now: Time, request: Comb.Request, sid: string)
    requires NothingExpires(comb, sid) && !WritesSession(request, sid)
    ensures Comb.Step(comb, now, request).0.Entries(sid) == comb.Entries(sid)
  {
    forall k ensures Comb.MayWrite(request, sid, k) ==> WritesSession(request, sid) {}
    forall k
      ensures k in Comb.Step(comb, now, request).0.Entries(sid) <==> k in comb.Entries(sid)
      ensures k in comb.Entries(sid) ==> Comb.Step(comb, now, request).0.Entries(sid)[k] == comb.Entries(sid)[k]
    {
      Comb.EntryFrame(comb, now, request, sid, k);
    }
  }

  /** A key stops being written only when it is dropped from the cache. */
  lemma WritingEnds(c: Scene, sid: string, now: Time, move: Move, key: string)
    requires BeingWritten(c, key)
    ensures var c' := MoveStep(c, now, sid, move); BeingWritten(c', key) || key !in c'.s.cache.data
  {
    var id :| id in c.pending && c.pending[id] == Written(key);
    var c' := MoveStep(c, now, sid, move);
    if id in c'.pending && c'.pending[id] == Written(key) {
      assert BeingWritten(c', key);
    } else {
      assert move == Drop(id);
    }
  }

  lemma LiveIsStored(comb: Comb.State, sid: string, key: string, value: string, now: Time)
    requires NothingExpires(comb, sid) && comb.Lookup(sid, key, now) == Some(value)
    ensures Stores(comb, sid, key, value)
  {}

  lemma KeyKeepsAgreement(c: Scene, sid: string, now: Time, move: Move, key: string)
    requires Agrees(c, sid) && Apart(c, sid, [TimedMove(now, move)])
    ensures KeyAgrees(MoveStep(c, now, sid, move), sid, key)
  {
    assert KeyAgrees(c, sid, key);
    CombAfterMove(c, sid, now, move, key);
    CacheAfterMove(c, sid, now, move, key);
    if BeingWritten(c, key) {
      WritingEnds(c, sid, now, move, key);
    }
    if move.Fill? && IsHolding(c, move.id) {
      assert HeldAgrees(c, sid, move.id);
    }
  }

  lemma HeldKeepsAgreement(c: Scene, sid: string, now: Time, move: Move, id: RequestID)
    requires Agrees(c, sid) && Apart(c, sid, [TimedMove(now, move)])
    ensures HeldAgrees(MoveStep(c, now, sid, move), sid, id)
  {
    var c' := MoveStep(c, now, sid, move);
    assert HeldAgrees(c, sid, id);
    HeldAfterMove(c, sid, now, move, id);
    if IsHolding(c', id) {
      var p := c'.pending[id];
      CombAfterMove(c, sid, now, move, p.key);
      if !(IsHolding(c, id) && c.pending[id] == p) {
        LiveIsStored(c.s.comb, sid, p.key, p.value, now);
      }
    }
  }

  lemma {:induction false} PlayKeepsAgreement(c: Scene, sid: string, moves: seq<TimedMove>)
    requires Agrees(c, sid) && Apart(c, sid, moves)
    ensures Agrees(Play(c, sid, moves), sid)
    decreases |moves|
  {
    if moves != [] {
      var (now, move) := (moves[0].now, moves[0].move);
      var c' := MoveStep(c, now, sid, move);
      assert Apart(c', sid, [TimedMove(now, move)][1..]);
      CombAfterMove(c, sid, now, move, "");
      forall key ensures KeyAgrees(c', sid, key) {
        KeyKeepsAgreement(c, sid, now, move, key);
      }
      forall id ensures HeldAgrees(c', sid, id) {
        HeldKeepsAgreement(c, sid, now, move, id);
      }
      PlayKeepsAgreement(c', sid, moves[1..]);
    }
  }

  /** Requests of the only writer overlapping in any way, as long as no PUT or DELETE writes a key while a GET
      holds a value of it: whatever the cache serves for a key that is not just being written is what a direct
      Comb.Get would answer. */
  lemma OverlappingReadsAreDirect(c: Scene, sid: string, moves: seq<TimedMove>, now: Time, key: string)
    requires Agrees(c, sid) && Apart(c, sid, moves)
    ensures var end := Play(c, sid, moves);
            var served := Lookup(end.s.cache, now, key).1;
            served.Some? && !BeingWritten(end, key) ==> end.s.comb.Lookup(sid, key, now) == served
  {
    PlayKeepsAgreement(c, sid, moves);
    assert KeyAgrees(Play(c, sid, moves), sid, key);
  }
}
