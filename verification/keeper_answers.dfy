/** What agents are told by the Keeper's /comb/{key} proxy (internal/keeper/keeper.go): when a PUT is acknowledged, what
    a GET answers after it, and for how long a cached value is served. */
module KeeperAnswers {
  import opened Wrappers
  import Comb
  import CombAnswers
  import CombProperties
  import opened KeeperCache
  import Text
  import Topic

  /** A PUT is acknowledged if and only if Comb holds the value from then on: a GET at any time within its lifetime, and
      at any time at all if it has none, then answers it. Otherwise nothing that is stored or cached has changed. */
  lemma PutIsAcknowledgedExactlyWhen(s: State, now: Time, sid: string, key: string, value: string, ttl: Time, t: Time)
    requires key != "" && now <= t
    ensures var (s', response) := HandleStep(s, now, sid, key, PUT(value, ttl));
            && (response == Stored || response == InternalError)
            && (response == Stored ==>
                  && HandleStep(s', t, sid, key, GET).1
                     == (if ttl <= 0 || t <= now + ttl then Ok(value) else NotFound)
                  && Direct(s', t, sid, key) == HandleStep(s', t, sid, key, GET).1)
            && (response == InternalError ==>
                  && s'.cache == s.cache && sid in s.comb.limits
                  && forall id :: s'.comb.Entries(id) == s.comb.Entries(id))
  {
    var (s', response) := HandleStep(s, now, sid, key, PUT(value, ttl));
    if response == Stored {
      CombAnswers.SetIsReadBack(s.comb, now, sid, key, value, ttl, [], t);
      assert CombProperties.Run(s'.comb, []) == s'.comb;
      assert key !in s'.cache.data;
    } else {
      assert s'.comb.Entries(sid) == s.comb.Entries(sid);
    }
  }

  /** After a DELETE that is acknowledged the key is gone, from the cache as well; it is turned down if and only if Comb
      has no such session. */
  lemma DeleteIsAcknowledgedExactlyWhen(s: State, now: Time, sid: string, key: string, t: Time)
    requires key != ""
    ensures var (s', response) := HandleStep(s, now, sid, key, DELETE);
            && (response == NoContent || response == NotFound)
            && (response == NotFound <==> sid !in s.comb.data) && (response == NotFound ==> s' == s)
            && (response == NoContent ==> HandleStep(s', t, sid, key, GET).1 == NotFound)
  {}

  /** Other requests are errors and change nothing. */
  lemma OtherRequestsAreErrors(s: State, now: Time, sid: string, key: string, call: Call)
    ensures key == "" ==> HandleStep(s, now, sid, key, call) == (s, BadRequest)
    ensures key != "" ==> HandleStep(s, now, sid, key, Malformed) == (s, BadRequest)
    ensures key != "" ==> HandleStep(s, now, sid, key, OtherMethod) == (s, MethodNotAllowed)
  {}

  ghost predicate OnlyOutside(run: seq<Timed>) {
    forall t | t in run :: t.event.Outside?
  }

  lemma {:induction false} OutsideLeavesTheCache(w: World, sid: string, run: seq<Timed>)
    requires OnlyOutside(run)
    ensures Run(w, sid, run).s.cache == w.s.cache
    decreases |run|
  {
    if run != [] {
      assert run[0] in run && forall t | t in run[1..] :: t in run;
      OutsideLeavesTheCache(WorldStep(w, sid, run[0]).0, sid, run[1..]);
    }
  }

  /** What a GET has had to fetch from Comb it serves for another five minutes, whatever others do to Comb meanwhile,
      and then no longer. */
  lemma ServedForFiveMinutes(w: World, sid: string, t0: Time, key: string, value: string, run: seq<Timed>, t: Time)
    requires key != "" && key !in w.s.cache.data && Direct(w.s, t0, sid, key) == Ok(value) && OnlyOutside(run)
    ensures var fetched := WorldStep(w, sid, Timed(t0, Ask(key, GET)));
            var s := Run(fetched.0, sid, run).s;
            && fetched.1 == Some(Ok(value))
            && HandleStep(s, t, sid, key, GET).1
               == if t <= t0 + 300_000_000_000 then Ok(value) else Direct(s, t, sid, key)
  {
    OutsideLeavesTheCache(WorldStep(w, sid, Timed(t0, Ask(key, GET))).0, sid, run);
  }

  /** An entry put into the cache with a lifetime is found until that is over; with none, for five minutes. */
  lemma CachedForItsLifetime(c: Cache, now: Time, key: string, value: string, ttl: Time, t: Time)
    ensures Lookup(Insert(c, now, key, value, ttl), t, key).1
            == if t <= now + (if ttl == 0 then 300_000_000_000 else ttl) then Some(value) else None
  {}

  /** Sessions of different Cells never share a Comb session. */
  lemma SessionsAreIsolated(n1: string, s1: string, n2: string, s2: string)
    requires Topic.ValidateNamespace(n1).Accepted? && Topic.ValidateNamespace(n2).Accepted?
    ensures n1 + ":" + s1 == n2 + ":" + s2 ==> n1 == n2 && s1 == s2
  {
    NoColon(n1);
    NoColon(n2);
    Text.JoinedApart(n1, s1, n2, s2, ':');
  }

  lemma NoColon(namespace: string)
    requires Topic.ValidateNamespace(namespace).Accepted?
    ensures ':' !in namespace
  {
    Topic.LabelLanguageByCharacter(namespace);
  }
}
