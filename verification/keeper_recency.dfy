/** The Keeper's cache is documented as a least-recently-used cache (docs/ARCHITECTURE.md); it evicts first in,
    first out. This module keeps a record of uses beside it and says when the two policies pick the same victim. */
module KeeperRecency {
  import opened Wrappers
  import Comb
  import opened KeeperCache

  // ----- Orders of a record of uses -----

  function Front(uses: seq<string>): seq<string>
    requires uses != []
  {
    uses[..|uses| - 1]
  }

  function Last(uses: seq<string>): string
    requires uses != []
  {
    uses[|uses| - 1]
  }

  /** The keys by first use. */
  function FirstOrder(uses: seq<string>): seq<string> {
    if uses == [] then []
    else if Last(uses) in Front(uses) then FirstOrder(Front(uses))
    else FirstOrder(Front(uses)) + [Last(uses)]
  }

  /** The keys as a least-recently-used cache keeps them: every use moves its key to the end. */
  function LastOrder(uses: seq<string>): seq<string> {
    if uses == [] then [] else Without(LastOrder(Front(uses)), Last(uses)) + [Last(uses)]
  }

  /** The record without a key that has left the cache. */
  function Forget(uses: seq<string>, key: string): seq<string> {
    if uses == [] then []
    else if Last(uses) == key then Forget(Front(uses), key)
    else Forget(Front(uses), key) + [Last(uses)]
  }

  /** The position of a key's last use; -1 when it has none. */
  function LastUse(uses: seq<string>, key: string): int {
    if uses == [] then -1 else if Last(uses) == key then |uses| - 1 else LastUse(Front(uses), key)
  }

  lemma InFront(uses: seq<string>, key: string)
    requires uses != []
    ensures key in uses <==> key in Front(uses) || key == Last(uses)
  {
    assert uses == Front(uses) + [Last(uses)];
  }

  lemma {:induction false} ForgetElements(uses: seq<string>, key: string, k: string)
    ensures k in Forget(uses, key) <==> k in uses && k != key
  {
    if uses != [] {
      InFront(uses, k);
      ForgetElements(Front(uses), key, k);
    }
  }

  lemma {:induction false} FirstOrderElements(uses: seq<string>)
    ensures forall k :: k in FirstOrder(uses) <==> k in uses
    ensures Distinct(FirstOrder(uses))
    ensures uses != [] ==> FirstOrder(uses) != [] && FirstOrder(uses)[0] == uses[0]
  {
    if uses != [] {
      FirstOrderElements(Front(uses));
      forall k ensures k in FirstOrder(uses) <==> k in uses {
        InFront(uses, k);
      }
    }
  }

  lemma {:induction false} WithoutAppend(order: seq<string>, last: string, key: string)
    requires Distinct(order) && last !in order
    ensures Without(order + [last], key) == if key == last then order else Without(order, key) + [last]
  {
    if order != [] {
      assert (order + [last])[1..] == order[1..] + [last];
      if order[0] != key {
        WithoutAppend(order[1..], last, key);
      }
    }
  }

  lemma {:induction false} FirstOrderOfForget(uses: seq<string>, key: string)
    ensures FirstOrder(Forget(uses, key)) == Without(FirstOrder(uses), key)
  {
    if uses != [] {
      var front, last := Front(uses), Last(uses);
      FirstOrderOfForget(front, key);
      FirstOrderElements(front);
      ForgetElements(front, key, last);
      if last !in front {
        WithoutAppend(FirstOrder(front), last, key);
        if last == key {
          WithoutMissing(FirstOrder(front), key);
        }
      }
    }
  }

  ghost predicate ByLastUse(order: seq<string>, uses: seq<string>) {
    forall i, j | 0 <= i < j < |order| :: LastUse(uses, order[i]) < LastUse(uses, order[j])
  }

  lemma {:induction false} LastUseIsAnIndex(uses: seq<string>, key: string)
    ensures LastUse(uses, key) < |uses|
  {
    if uses != [] {
      LastUseIsAnIndex(Front(uses), key);
    }
  }

  lemma CutByLastUse(order: seq<string>, uses: seq<string>, p: nat)
    requires ByLastUse(order, uses) && p < |order|
    ensures ByLastUse(order[..p] + order[p + 1..], uses)
  {
    var rest := order[..p] + order[p + 1..];
    forall i, j | 0 <= i < j < |rest| ensures LastUse(uses, rest[i]) < LastUse(uses, rest[j]) {
      var i', j' := if i < p then i else i + 1, if j < p then j else j + 1;
      assert rest[i] == order[i'] && rest[j] == order[j'] && i' < j';
    }
  }

  /** Taking a key out leaves the others in order. */
  lemma WithoutKeepsOrder(order: seq<string>, uses: seq<string>, key: string)
    requires Distinct(order) && ByLastUse(order, uses)
    ensures var rest := Without(order, key);
            (forall k :: k in rest <==> k in order && k != key) && Distinct(rest) && ByLastUse(rest, uses)
  {
    OthersRemain(order, key);
    if key in order {
      var p :| 0 <= p < |order| && order[p] == key;
      WithoutAt(order, key, p);
      CutByLastUse(order, uses, p);
    } else {
      WithoutMissing(order, key);
    }
  }

  /** A further use changes no other key's last use. */
  lemma OneMoreUse(rest: seq<string>, uses: seq<string>)
    requires uses != [] && Last(uses) !in rest && ByLastUse(rest, Front(uses)) && Distinct(rest)
    ensures ByLastUse(rest + [Last(uses)], uses) && Distinct(rest + [Last(uses)])
  {
    var order := rest + [Last(uses)];
    forall i, j | 0 <= i < j < |order|
      ensures LastUse(uses, order[i]) < LastUse(uses, order[j]) && order[i] != order[j]
    {
      assert rest[i] in rest;
      LastUseIsAnIndex(Front(uses), rest[i]);
      if j < |rest| {
        assert rest[j] in rest;
      }
    }
  }

  /** The order a least-recently-used cache keeps is by last use. */
  lemma {:induction false} LastOrderByLastUse(uses: seq<string>)
    ensures forall k :: k in LastOrder(uses) <==> k in uses
    ensures Distinct(LastOrder(uses)) && ByLastUse(LastOrder(uses), uses)
  {
    if uses != [] {
      LastOrderByLastUse(Front(uses));
      WithoutKeepsOrder(LastOrder(Front(uses)), Front(uses), Last(uses));
      OneMoreUse(Without(LastOrder(Front(uses)), Last(uses)), uses);
      forall k ensures k in LastOrder(uses) <==> k in uses {
        InFront(uses, k);
      }
    }
  }

  /** The first key ever used is the least recently used one if and only if every other key has been used since its last
      use. */
  lemma FirstIsLeastRecentExactlyWhen(uses: seq<string>)
    requires uses != []
    ensures LastOrder(uses) != []
    ensures LastOrder(uses)[0] == uses[0]
            <==> forall k | k in uses && k != uses[0] :: LastUse(uses, k) > LastUse(uses, uses[0])
  {
    LastOrderByLastUse(uses);
    var order, first := LastOrder(uses), uses[0];
    assert first in order;
    if order[0] == first {
      forall k | k in uses && k != first ensures LastUse(uses, k) > LastUse(uses, first) {
        assert k in order;
        var i :| 0 <= i < |order| && order[i] == k;
      }
    } else {
      assert order[0] in order;
      var i :| 0 <= i < |order| && order[i] == first;
      assert LastUse(uses, order[0]) < LastUse(uses, order[i]);
    }
  }

  // ----- The record beside the cache -----

  /** A miss that is served from Comb inserts the key, evicting the first when the cache is full. */
  function UsesAfterMiss(uses: seq<string>, full: bool, key: string): seq<string> {
    (if full && uses != [] then Forget(uses, uses[0]) else uses) + [key]
  }

  /** A use is a hit or an insertion; a key that leaves the cache leaves the record. */
  ghost function UsesStep(uses: seq<string>, s: State, now: Time, sid: string, key: string, call: Call): seq<string> {
    if key == "" then uses
    else
      match call
      case GET =>
        var (cache, cached) := Lookup(s.cache, now, key);
        if cached.Some? then uses + [key]
        else
          var left := if key in s.cache.data then Forget(uses, key) else uses;
          if s.comb.Lookup(sid, key, now).Some? then UsesAfterMiss(left, |cache.data| >= cache.maxSize, key) else left
      case PUT(_, _) => if HandleStep(s, now, sid, key, call).1 == Stored then Forget(uses, key) else uses
      case DELETE => if HandleStep(s, now, sid, key, call).1 == NoContent then Forget(uses, key) else uses
      case Malformed => uses
      case OtherMethod => uses
  }

  lemma HitKeepsFirstOrder(uses: seq<string>, key: string)
    requires key in uses
    ensures FirstOrder(uses + [key]) == FirstOrder(uses)
  {
    assert Front(uses + [key]) == uses;
  }

  lemma MissKeepsFirstOrder(uses: seq<string>, c: Cache, now: Time, key: string, value: string)
    requires FirstOrder(uses) == c.order && key !in uses && key !in c.data
    ensures FirstOrder(UsesAfterMiss(uses, |c.data| >= c.maxSize, key)) == Insert(c, now, key, value, 0).order
  {
    var full := |c.data| >= c.maxSize;
    var left := if full && uses != [] then Forget(uses, uses[0]) else uses;
    FirstOrderElements(uses);
    if full && uses != [] {
      FirstOrderOfForget(uses, uses[0]);
      ForgetElements(uses, uses[0], key);
    }
    assert Front(left + [key]) == left && Last(left + [key]) == key;
  }

  /** The cache's order is the order of first uses. */
  lemma UsesExplainOrder(uses: seq<string>, s: State, now: Time, sid: string, key: string, call: Call)
    requires Fifo(s.cache, now) && FirstOrder(uses) == s.cache.order
    ensures FirstOrder(UsesStep(uses, s, now, sid, key, call)) == HandleStep(s, now, sid, key, call).0.cache.order
  {
    match call
    case GET =>
      if key != "" {
        GetKeepsFirstOrder(uses, s, now, sid, key);
      }
    case PUT(_, _) => FirstOrderOfForget(uses, key);
    case DELETE => FirstOrderOfForget(uses, key);
    case _ =>
  }

  /** What the lookup leaves behind. */
  lemma LookupLeaves(uses: seq<string>, c: Cache, now: Time, key: string)
    requires Fifo(c, now) && FirstOrder(uses) == c.order && Lookup(c, now, key).1 == None
    ensures var c', left := Lookup(c, now, key).0, if key in c.data then Forget(uses, key) else uses;
            FirstOrder(left) == c'.order && key !in left && key !in c'.data && c'.maxSize == c.maxSize
  {
    FirstOrderElements(uses);
    FirstOrderOfForget(uses, key);
    ForgetElements(uses, key, key);
  }

  lemma GetKeepsFirstOrder(uses: seq<string>, s: State, now: Time, sid: string, key: string)
    requires Fifo(s.cache, now) && FirstOrder(uses) == s.cache.order && key != ""
    ensures FirstOrder(UsesStep(uses, s, now, sid, key, GET)) == GetStep(s, now, sid, key).0.cache.order
  {
    var (cache, cached) := Lookup(s.cache, now, key);
    if cached.Some? {
      FirstOrderElements(uses);
      HitKeepsFirstOrder(uses, key);
    } else {
      LookupLeaves(uses, s.cache, now, key);
      var left := if key in s.cache.data then Forget(uses, key) else uses;
      var live := s.comb.Lookup(sid, key, now);
      assert Comb.Step(s.comb, now, Comb.Request.Get(sid, key)).1.Value? <==> live.Some?;
      if live.Some? {
        MissKeepsFirstOrder(left, cache, now, key, live.value);
      }
    }
  }

  ghost function RunUses(uses: seq<string>, w: World, sid: string, run: seq<Timed>): seq<string>
    decreases |run|
  {
    if run == [] then uses
    else
      RunUses(match run[0].event
              case Ask(key, call) => UsesStep(uses, w.s, run[0].now, sid, key, call)
              case Outside(_) => uses,
              WorldStep(w, sid, run[0]).0, sid, run[1..])
  }

  lemma {:induction false} RunKeepsUses(uses: seq<string>, w: World, sid: string, run: seq<Timed>, from: Time, to: Time)
    requires Fifo(w.s.cache, from) && FirstOrder(uses) == w.s.cache.order && InOrder(run, from, to)
    ensures Fifo(Run(w, sid, run).s.cache, to)
    ensures FirstOrder(RunUses(uses, w, sid, run)) == Run(w, sid, run).s.cache.order
    decreases |run|
  {
    if run == [] {
      Later(w.s.cache, from, to);
    } else {
      var now := run[0].now;
      Later(w.s.cache, from, now);
      var next := WorldStep(w, sid, run[0]).0;
      match run[0].event {
        case Ask(key, call) =>
          HandleKeepsFifo(w.s, now, sid, key, call);
          UsesExplainOrder(uses, w.s, now, sid, key, call);
          RunKeepsUses(UsesStep(uses, w.s, now, sid, key, call), next, sid, run[1..], now, to);
        case Outside(_) =>
          RunKeepsUses(uses, next, sid, run[1..], now, to);
      }
    }
  }

  /** After every run from an empty cache: the next eviction removes the least recently used key if and only if
      every other cached key has been hit or inserted since the last use of the one inserted first. */
  lemma EvictsLeastRecentExactlyWhen(comb: Comb.State, maxSize: int, sid: string, run: seq<Timed>, from: Time, to: Time)
    requires InOrder(run, from, to)
    ensures var w := World(State(comb, Cache(map[], [], maxSize)), []);
            var c, uses := Run(w, sid, run).s.cache, RunUses([], w, sid, run);
            c.data != map[] ==>
              && c.order != [] && LastOrder(uses) != []
              && (forall k :: k in uses <==> k in c.data)
              && (Evict(c).data == c.data - {LastOrder(uses)[0]}
                  <==> forall k | k in c.data && k != c.order[0] :: LastUse(uses, k) > LastUse(uses, c.order[0]))
  {
    var w := World(State(comb, Cache(map[], [], maxSize)), []);
    RunKeepsUses([], w, sid, run, from, to);
    var c, uses := Run(w, sid, run).s.cache, RunUses([], w, sid, run);
    FirstOrderElements(uses);
    if c.data != map[] {
      EvictsTheOldest(c, to);
      assert c.order[0] in uses;
      FirstIsLeastRecentExactlyWhen(uses);
      LastOrderByLastUse(uses);
      var least := LastOrder(uses)[0];
      assert least in LastOrder(uses) && least in c.data;
      if least != c.order[0] {
        assert c.order[0] !in Evict(c).data && c.order[0] in c.data - {least};
      }
    }
  }

  lemma HitIsServed(s: State, now: Time, sid: string, key: string)
    requires key in s.cache.data && now <= s.cache.data[key].expiresAt
    ensures GetStep(s, now, sid, key) == (s, Ok(s.cache.data[key].value))
  {}

  lemma MissEvictsTheHead(s: State, now: Time, sid: string, other: string)
    requires Fifo(s.cache, now) && s.cache.data != map[] && |s.cache.data| >= s.cache.maxSize
    requires other !in s.cache.data && s.comb.Lookup(sid, other, now).Some?
    ensures var (s', response) := GetStep(s, now, sid, other);
            && s.cache.order != [] && response.Ok?
            && s'.cache.data.Keys == s.cache.data.Keys - {s.cache.order[0]} + {other}
  {
    HeadIsOldest(s.cache.order, s.cache.data);
    assert Comb.Step(s.comb, now, Comb.Request.Get(sid, other)).1.Value?;
  }

  /** In every full cache of two or more: the key inserted first may be served and, on the very next miss,
      evicted, though every other key was used longer ago. */
  lemma JustServedIsEvicted(s: State, now: Time, sid: string, other: string)
    requires Fifo(s.cache, now) && |s.cache.data| >= s.cache.maxSize && |s.cache.data| >= 2 && s.cache.order != []
    requires var head := s.cache.order[0];
             head != "" && head in s.cache.data && now <= s.cache.data[head].expiresAt
    requires other != "" && other !in s.cache.data && s.comb.Lookup(sid, other, now).Some?
    ensures var head := s.cache.order[0];
            var (s1, first) := HandleStep(s, now, sid, head, GET);
            var (s2, second) := HandleStep(s1, now, sid, other, GET);
            && first == Ok(s.cache.data[head].value) && second.Ok?
            && s2.cache.data.Keys == s.cache.data.Keys - {head} + {other}
  {
    HitIsServed(s, now, sid, s.cache.order[0]);
    MissEvictsTheHead(s, now, sid, other);
  }
}
