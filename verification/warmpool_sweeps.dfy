/** What the idle sweep and a refill make of warm pools when they are left alone (internal/warmpool/manager.go), and
    which events count as using a pool. */
module WarmPoolSweeps {
  import opened Arithmetic
  import opened Wrappers
  import opened WarmPools
  import opened WarmPoolOrphans

  // ----- A sweep from its plans on -----

  /** The steps by which a sweeper carries out its plans, without being cancelled. */
  predicate IsCarryOut(e: Event, t: ThreadID) {
    e == ScaleDown(t) || e == StopOne(t) || e == ForgetPool(t) || e == EndSweep(t)
  }

  ghost predicate CarriesOut(events: seq<Event>, t: ThreadID) {
    forall e | e in events :: IsCarryOut(e, t)
  }

  function Removals(plans: seq<Plan>): set<string> {
    set plan | plan in plans && plan.remove :: plan.key
  }

  function ToForget(thread: Thread): set<string>
    requires thread.Sweeping?
  {
    Removals(thread.plans) + if thread.forget.Some? then {thread.forget.value} else {}
  }

  /** Without its first n drones, or without any. */
  function Shortened(p: Pool, n: nat): Pool {
    var drones := p.drones[Min(n, |p.drones|)..];
    p.(drones := drones, currentSize := |drones|)
  }

  lemma DropTwice(drones: seq<ProcessID>, m: nat, n: nat)
    requires m + n <= |drones|
    ensures drones[m..][n..] == drones[m + n..]
  {}

  lemma ShortenedTwice(p: Pool, m: nat, n: nat)
    ensures Shortened(Shortened(p, m), n) == Shortened(p, m + n)
  {
    var first := Min(m, |p.drones|);
    DropTwice(p.drones, first, Min(n, |p.drones| - first));
  }

  lemma ShortenedByNothing(p: Pool)
    requires p.currentSize == |p.drones|
    ensures Shortened(p, 0) == p
  {}

  /** From `s`, where t is sweeping, to `s'`, where it has finished: every pool is shorter by what was planned for it
      and the keys to forget are forgotten... */
  ghost predicate CarriedOut(s: State, s': State, t: ThreadID)
    requires IsSweeping(s, t)
  {
    var thread := s.threads[t];
    && s'.threads == s.threads - {t} && s'.index == s.index - ToForget(thread)
    && s'.pools.Keys == s.pools.Keys
    && (forall q | q in s.pools :: s'.pools[q] == Shortened(s.pools[q], PlannedCut(thread.plans, q)))
  }

  /** ...and the drones cut off are stopped, while nothing else has changed. */
  ghost predicate StopsWhatIsCut(s: State, s': State, t: ThreadID)
    requires IsSweeping(s, t)
  {
    && s' == s.(pools := s'.pools, threads := s'.threads, index := s'.index, stopped := s'.stopped)
    && s.pools.Keys == s'.pools.Keys
    && s.stopped <= s'.stopped && (forall d | d in s.threads[t].pending :: d in s'.stopped)
    && (forall q, d | q in s.pools && d in s.pools[q].drones :: d in s'.pools[q].drones || d in s'.stopped)
  }

  ghost predicate Swept(s: State, s': State, t: ThreadID)
    requires IsSweeping(s, t)
  {
    CarriedOut(s, s', t) && StopsWhatIsCut(s, s', t)
  }

  ghost predicate RealSizes(s: State) {
    forall q | q in s.pools :: s.pools[q].currentSize == |s.pools[q].drones|
  }

  /** However a sweeper's steps are lined up, once it has finished its plans have been carried out, no more and no
      less. */
  lemma {:induction false} SweepFinishes(s: State, t: ThreadID, events: seq<Event>)
    requires IsSweeping(s, t) && RealSizes(s) && CarriesOut(events, t) && Free(Run(s, events), t)
    ensures Swept(s, Run(s, events), t)
    decreases |events|
  {
    var e, rest := events[0], events[1..];
    assert e in events && forall x | x in rest :: x in events;
    var s1 := Step(s, e);
    if Free(s1, t) {
      FreeStaysFree(s1, t, rest);
      LastStep(s, t, e);
    } else {
      StepKeepsSizes(s, t, e);
      SweepFinishes(s1, t, rest);
      StepThenSwept(s, s1, Run(s1, rest), t, e);
    }
  }

  lemma StepKeepsSizes(s: State, t: ThreadID, e: Event)
    requires IsSweeping(s, t) && RealSizes(s) && IsCarryOut(e, t) && !Free(Step(s, e), t)
    ensures RealSizes(Step(s, e)) && IsSweeping(Step(s, e), t)
  {}

  lemma {:induction false} FreeStaysFree(s: State, t: ThreadID, events: seq<Event>)
    requires Free(s, t) && CarriesOut(events, t)
    ensures Run(s, events) == s
    decreases |events|
  {
    if events != [] {
      assert events[0] in events && forall x | x in events[1..] :: x in events;
      FreeStaysFree(s, t, events[1..]);
    }
  }

  lemma LastStep(s: State, t: ThreadID, e: Event)
    requires IsSweeping(s, t) && RealSizes(s) && IsCarryOut(e, t) && Free(Step(s, e), t)
    ensures Swept(s, Step(s, e), t)
  {
    forall q | q in s.pools { ShortenedByNothing(s.pools[q]); }
    assert s.index - {} == s.index;
  }

  lemma StepThenSwept(s: State, s1: State, s': State, t: ThreadID, e: Event)
    requires IsSweeping(s, t) && RealSizes(s) && IsCarryOut(e, t)
    requires s1 == Step(s, e) && IsSweeping(s1, t) && Swept(s1, s', t)
    ensures Swept(s, s', t)
  {
    match e
    case ScaleDown(_) =>
      if CanScaleDown(s, t) {
        CutStep(s, t);
        CutThenSwept(s, s1, s', t);
      }
    case StopOne(_) => StopThenSwept(s, s1, s', t);
    case ForgetPool(_) => ForgetThenSwept(s, s1, s', t);
    case _ =>
  }

  lemma StopThenSwept(s: State, s1: State, s': State, t: ThreadID)
    requires IsSweeping(s, t) && s1 == Step(s, StopOne(t)) && IsSweeping(s1, t) && Swept(s1, s', t)
    ensures Swept(s, s', t)
  {
    assert s1.threads - {t} == s.threads - {t};
    var pending := s.threads[t].pending;
    assert pending != [] ==> pending == [pending[0]] + pending[1..];
  }

  lemma ForgetThenSwept(s: State, s1: State, s': State, t: ThreadID)
    requires IsSweeping(s, t) && RealSizes(s) && s1 == Step(s, ForgetPool(t)) && IsSweeping(s1, t) && Swept(s1, s', t)
    ensures Swept(s, s', t)
  {
    assert s1.threads - {t} == s.threads - {t};
    if s1 != s {
      var key, keys := s.threads[t].forget.value, Removals(s.threads[t].plans);
      assert s.index - {key} - keys == s.index - (keys + {key});
    }
  }

  /** What carrying out the next plan does. */
  ghost predicate CutsNext(s: State, s1: State, t: ThreadID)
    requires IsSweeping(s, t) && s.threads[t].plans != [] && s.threads[t].plans[0].pool in s.pools
  {
    var plan, rest := s.threads[t].plans[0], s.threads[t].plans[1..];
    var p := s.pools[plan.pool];
    && s1 == s.(pools := s1.pools, threads := s1.threads)
    && s1.pools == s.pools[plan.pool := Shortened(p, plan.count)]
    && s1.threads == s.threads[t := Sweeping(rest, p.drones[..Min(plan.count, |p.drones|)],
                                             if plan.remove then Some(plan.key) else None)]
  }

  lemma CutStep(s: State, t: ThreadID)
    requires CanScaleDown(s, t)
    ensures CutsNext(s, Step(s, ScaleDown(t)), t)
  {}

  lemma CutThenSwept(s: State, s1: State, s': State, t: ThreadID)
    requires CanScaleDown(s, t) && CutsNext(s, s1, t) && Swept(s1, s', t)
    ensures Swept(s, s', t)
  {
    CutThenCarriedOut(s, s1, s', t);
    CutThenStops(s, s1, s', t);
  }

  lemma CutThenCarriedOut(s: State, s1: State, s': State, t: ThreadID)
    requires CanScaleDown(s, t) && CutsNext(s, s1, t) && CarriedOut(s1, s', t)
    ensures CarriedOut(s, s', t)
  {
    var plans := s.threads[t].plans;
    OthersAfterCut(s, s1, t);
    forall q | q in s.pools ensures s'.pools[q] == Shortened(s.pools[q], PlannedCut(plans, q)) {
      assert s1.threads[t].plans == plans[1..];
      PoolOfNextCut(s.pools[q], s1.pools[q], s'.pools[q], plans, q);
    }
  }

  lemma OthersAfterCut(s: State, s1: State, t: ThreadID)
    requires CanScaleDown(s, t) && CutsNext(s, s1, t)
    ensures s1.threads - {t} == s.threads - {t} && s1.index == s.index
    ensures ToForget(s1.threads[t]) == ToForget(s.threads[t])
  {
    NextToForget(s.threads[t].plans);
  }

  lemma PoolOfNextCut(p: Pool, p1: Pool, p': Pool, plans: seq<Plan>, q: PoolID)
    requires plans != [] && p1 == (if plans[0].pool == q then Shortened(p, plans[0].count) else p)
    requires p' == Shortened(p1, PlannedCut(plans[1..], q))
    ensures p' == Shortened(p, PlannedCut(plans, q))
  {
    ShortenedTwice(p, plans[0].count, PlannedCut(plans[1..], q));
  }

  lemma CutThenStops(s: State, s1: State, s': State, t: ThreadID)
    requires CanScaleDown(s, t) && CutsNext(s, s1, t) && StopsWhatIsCut(s1, s', t)
    ensures StopsWhatIsCut(s, s', t)
  {
    var plan := s.threads[t].plans[0];
    CutApart(s.pools[plan.pool].drones, plan.count);
    forall q, d | q in s.pools && d in s.pools[q].drones ensures d in s'.pools[q].drones || d in s'.stopped {
      assert d in s1.pools[q].drones || d in s1.threads[t].pending;
    }
  }

  lemma NextToForget(plans: seq<Plan>)
    requires plans != []
    ensures Removals(plans) == (if plans[0].remove then {plans[0].key} else {}) + Removals(plans[1..])
  {
    assert plans == [plans[0]] + plans[1..];
  }

  lemma CutApart(drones: seq<ProcessID>, count: nat)
    ensures var n := Min(count, |drones|); forall d | d in drones :: d in drones[..n] || d in drones[n..]
  {
    var n := Min(count, |drones|);
    assert drones == drones[..n] + drones[n..];
  }

  // ----- A whole sweep -----

  /** The sweeper looks at these keys' pools, one by one... */
  function Planning(t: ThreadID, keys: seq<string>, now: Time): seq<Event> {
    if keys == [] then [StartSweep(t)] else Planning(t, Front(keys), now) + [PlanPool(t, Last(keys), now)]
  }

  function Front(keys: seq<string>): seq<string>
    requires keys != []
  {
    keys[..|keys| - 1]
  }

  function Last(keys: seq<string>): string
    requires keys != []
  {
    keys[|keys| - 1]
  }

  function PlansOfKeys(s: State, keys: seq<string>, now: Time): seq<Plan>
    requires Indexed(s) && forall k | k in keys :: k in s.index
  {
    if keys == [] then []
    else
      assert Last(keys) in keys && forall k | k in Front(keys) :: k in keys;
      var q := s.index[Last(keys)];
      PlansOfKeys(s, Front(keys), now) + PlansFor(Last(keys), q, s.pools[q], now, s.idleTimeout)
  }

  lemma PlanningStep(s: State, t: ThreadID, plans: seq<Plan>, key: string, now: Time)
    requires Free(s, t) && Indexed(s) && key in s.index
    ensures var q := s.index[key];
            Step(Go(s, t, Sweeping(plans, [], None)), PlanPool(t, key, now))
            == Go(s, t, Sweeping(plans + PlansFor(key, q, s.pools[q], now, s.idleTimeout), [], None))
  {}

  lemma {:induction false} PlanningRun(s: State, t: ThreadID, keys: seq<string>, now: Time)
    requires Free(s, t) && Indexed(s) && forall k | k in keys :: k in s.index
    ensures Run(s, Planning(t, keys, now)) == Go(s, t, Sweeping(PlansOfKeys(s, keys, now), [], None))
  {
    if keys == [] {
      RunOne(s, StartSweep(t));
    } else {
      assert Last(keys) in keys && forall k | k in Front(keys) :: k in keys;
      PlanningRun(s, t, Front(keys), now);
      RunTwice(s, Planning(t, Front(keys), now), [PlanPool(t, Last(keys), now)]);
      RunOne(Run(s, Planning(t, Front(keys), now)), PlanPool(t, Last(keys), now));
      PlanningStep(s, t, PlansOfKeys(s, Front(keys), now), Last(keys), now);
    }
  }

  /** What the two verdicts on one pool come to, in its fields. */
  lemma PlansForOne(key: string, q: PoolID, p: Pool, now: Time, idleTimeout: Time)
    requires p.currentSize == |p.drones|
    ensures var plans, idle := PlansFor(key, q, p, now, idleTimeout), now - p.lastUsed;
            && (forall plan | plan in plans :: plan.pool == q && plan.key == key)
            && Removals(plans) == (if idle > 2 * idleTimeout && p.minSize == 0 then {key} else {})
            && Min(PlannedCut(plans, q), |p.drones|)
               == (if idle > idleTimeout || (idle > 2 * idleTimeout && p.minSize == 0)
                   then |p.drones| - Min(|p.drones|, Max(0, p.minSize)) else 0)
  {
    var plans, idle := PlansFor(key, q, p, now, idleTimeout), now - p.lastUsed;
    var shrink := if idle > idleTimeout && p.currentSize > p.minSize
                  then [Plan(key, q, p.currentSize - p.minSize, false)] else [];
    var remove := if idle > idleTimeout * 2 && p.minSize == 0 then [Plan(key, q, p.currentSize, true)] else [];
    assert plans == shrink + remove;
    PlannedTogether(shrink, remove, q);
    RemovalsTogether(shrink, remove);
  }

  lemma RemovalsTogether(a: seq<Plan>, b: seq<Plan>)
    ensures Removals(a + b) == Removals(a) + Removals(b)
  {
    forall k ensures k in Removals(a + b) <==> k in Removals(a) + Removals(b) {}
  }

  ghost predicate DistinctKeys(keys: seq<string>) {
    forall i, j | 0 <= i < j < |keys| :: keys[i] != keys[j]
  }

  /** The plans of one key are its own; no other key's touch its pool. */
  lemma {:induction false} PlansOfOneKey(s: State, keys: seq<string>, now: Time, key: string)
    requires Indexed(s) && DistinctKeys(keys) && (forall k | k in keys :: k in s.index) && key in s.index
    ensures var plans, q := PlansOfKeys(s, keys, now), s.index[key];
            && PlannedCut(plans, q)
               == (if key in keys then PlannedCut(PlansFor(key, q, s.pools[q], now, s.idleTimeout), q) else 0)
            && (key in Removals(plans) <==>
                  key in keys && key in Removals(PlansFor(key, q, s.pools[q], now, s.idleTimeout)))
  {
    if keys != [] {
      var last, front, q := Last(keys), Front(keys), s.index[key];
      assert last in keys && last !in front && forall k :: k in keys <==> k in front || k == last;
      PlansOfOneKey(s, front, now, key);
      var r := s.index[last];
      var own := PlansFor(last, r, s.pools[r], now, s.idleTimeout);
      PlannedTogether(PlansOfKeys(s, front, now), own, q);
      RemovalsTogether(PlansOfKeys(s, front, now), own);
      OwnPlans(last, r, s.pools[r], now, s.idleTimeout);
      if last != key {
        NothingPlanned(own, q);
      }
    }
  }

  lemma OwnPlans(key: string, q: PoolID, p: Pool, now: Time, idleTimeout: Time)
    ensures forall plan | plan in PlansFor(key, q, p, now, idleTimeout) :: plan.pool == q && plan.key == key
  {}

  lemma {:induction false} PlansOfNoKey(s: State, keys: seq<string>, now: Time, q: PoolID)
    requires Indexed(s) && (forall k | k in keys :: k in s.index && s.index[k] != q)
    ensures PlannedCut(PlansOfKeys(s, keys, now), q) == 0
  {
    if keys != [] {
      assert Last(keys) in keys && forall k | k in Front(keys) :: k in keys;
      PlansOfNoKey(s, Front(keys), now, q);
      var r := s.index[Last(keys)];
      var own := PlansFor(Last(keys), r, s.pools[r], now, s.idleTimeout);
      PlannedTogether(PlansOfKeys(s, Front(keys), now), own, q);
      OwnPlans(Last(keys), r, s.pools[r], now, s.idleTimeout);
      NothingPlanned(own, q);
    }
  }

  lemma {:induction false} RemovalsAreOfKeys(s: State, keys: seq<string>, now: Time, key: string)
    requires Indexed(s) && forall k | k in keys :: k in s.index
    ensures key in Removals(PlansOfKeys(s, keys, now)) ==> key in keys
  {
    if keys != [] {
      assert Last(keys) in keys && forall k | k in Front(keys) :: k in keys;
      RemovalsAreOfKeys(s, Front(keys), now, key);
      var r := s.index[Last(keys)];
      var own := PlansFor(Last(keys), r, s.pools[r], now, s.idleTimeout);
      RemovalsTogether(PlansOfKeys(s, Front(keys), now), own);
      OwnPlans(Last(keys), r, s.pools[r], now, s.idleTimeout);
    }
  }

  /** A pool that has been idle for longer than the timeout keeps at most its minimum, the last to have joined; any
      other pool stays as it is. */
  predicate CutToMinimum(p: Pool, p': Pool, now: Time, idleTimeout: Time) {
    var idle, kept := now - p.lastUsed, Min(|p.drones|, Max(0, p.minSize));
    if idle > idleTimeout || (idle > 2 * idleTimeout && p.minSize == 0)
    then p' == p.(drones := p.drones[|p.drones| - kept..], currentSize := kept)
    else p' == p
  }

  /** The key's pool has no minimum and has been idle for more than twice the timeout. */
  predicate IsAbandoned(s: State, key: string, now: Time) {
    && key in s.index && s.index[key] in s.pools && s.pools[s.index[key]].minSize == 0
    && now - s.pools[s.index[key]].lastUsed > 2 * s.idleTimeout
  }

  lemma OnePlannedPool(s: State, p': Pool, keys: seq<string>, now: Time, key: string)
    requires Indexed(s) && RealSizes(s) && DistinctKeys(keys) && key in keys && forall k | k in keys :: k in s.index
    requires p' == Shortened(s.pools[s.index[key]], PlannedCut(PlansOfKeys(s, keys, now), s.index[key]))
    ensures CutToMinimum(s.pools[s.index[key]], p', now, s.idleTimeout)
  {
    PlansOfOneKey(s, keys, now, key);
    PlansForOne(key, s.index[key], s.pools[s.index[key]], now, s.idleTimeout);
  }

  lemma OnePlannedKey(s: State, keys: seq<string>, now: Time, key: string)
    requires Indexed(s) && RealSizes(s) && DistinctKeys(keys) && key in s.index && forall k | k in keys :: k in s.index
    ensures key in Removals(PlansOfKeys(s, keys, now)) <==> key in keys && IsAbandoned(s, key, now)
  {
    PlansOfOneKey(s, keys, now, key);
    PlansForOne(key, s.index[key], s.pools[s.index[key]], now, s.idleTimeout);
  }

  lemma OneUnplannedPool(s: State, p': Pool, keys: seq<string>, now: Time, q: PoolID)
    requires Indexed(s) && RealSizes(s) && q in s.pools && forall k | k in keys :: k in s.index && s.index[k] != q
    requires p' == Shortened(s.pools[q], PlannedCut(PlansOfKeys(s, keys, now), q))
    ensures p' == s.pools[q]
  {
    PlansOfNoKey(s, keys, now, q);
    ShortenedByNothing(s.pools[q]);
  }

  /** Each pool looked at is cut to its minimum if it is idle; no other pool is touched... */
  ghost predicate PoolsAfter(s: State, s': State, keys: seq<string>, now: Time)
    requires Indexed(s) && forall k | k in keys :: k in s.index
  {
    && s'.pools.Keys == s.pools.Keys
    && (forall k | k in keys :: CutToMinimum(s.pools[s.index[k]], s'.pools[s.index[k]], now, s.idleTimeout))
    && (forall q | q in s.pools && (forall k | k in keys :: s.index[k] != q) :: s'.pools[q] == s.pools[q])
  }

  /** ...the keys forgotten are those whose pool is abandoned... */
  ghost predicate KeysAfter(s: State, s': State, keys: seq<string>, now: Time) {
    && (forall k :: k in s'.index <==> k in s.index && !(k in keys && IsAbandoned(s, k, now)))
    && (forall k | k in s'.index :: s'.index[k] == s.index[k])
  }

  /** ...every drone that leaves a pool is stopped, and nothing else has changed. */
  ghost predicate ProcessesAfter(s: State, s': State) {
    && s' == s.(pools := s'.pools, index := s'.index, stopped := s'.stopped)
    && s.pools.Keys == s'.pools.Keys && s.stopped <= s'.stopped
    && (forall q, d | q in s.pools && d in s.pools[q].drones :: d in s'.pools[q].drones || d in s'.stopped)
  }

  lemma PlannedPoolsAfter(s: State, s': State, t: ThreadID, keys: seq<string>, now: Time)
    requires Indexed(s) && RealSizes(s) && DistinctKeys(keys) && forall k | k in keys :: k in s.index
    requires CarriedOut(Go(s, t, Sweeping(PlansOfKeys(s, keys, now), [], None)), s', t)
    ensures PoolsAfter(s, s', keys, now)
  {
    forall k | k in keys ensures CutToMinimum(s.pools[s.index[k]], s'.pools[s.index[k]], now, s.idleTimeout) {
      OnePlannedPool(s, s'.pools[s.index[k]], keys, now, k);
    }
    forall q | q in s.pools && (forall k | k in keys :: s.index[k] != q) ensures s'.pools[q] == s.pools[q] {
      OneUnplannedPool(s, s'.pools[q], keys, now, q);
    }
  }

  lemma PlannedKeysAfter(s: State, s': State, t: ThreadID, keys: seq<string>, now: Time)
    requires Indexed(s) && RealSizes(s) && DistinctKeys(keys) && forall k | k in keys :: k in s.index
    requires CarriedOut(Go(s, t, Sweeping(PlansOfKeys(s, keys, now), [], None)), s', t)
    ensures KeysAfter(s, s', keys, now)
  {
    assert ToForget(Sweeping(PlansOfKeys(s, keys, now), [], None)) == Removals(PlansOfKeys(s, keys, now));
    forall k | k in s.index
      ensures k in Removals(PlansOfKeys(s, keys, now)) <==> k in keys && IsAbandoned(s, k, now)
    {
      OnePlannedKey(s, keys, now, k);
    }
  }

  lemma PlannedProcessesAfter(s: State, s': State, t: ThreadID, plans: seq<Plan>)
    requires Free(s, t) && Swept(Go(s, t, Sweeping(plans, [], None)), s', t)
    ensures ProcessesAfter(s, s')
  {
    assert Go(s, t, Sweeping(plans, [], None)).threads - {t} == s.threads;
  }

  /** A sweep of any pools, left alone, from start to end and whatever other threads are in the middle of: each pool it
      looked at is cut to its minimum if it is idle, and forgotten if and only if it has no minimum and has been idle
      twice as long; every drone that leaves a pool is stopped; no other pool, key or process is touched. */
  lemma SweepLeftAlone(s: State, t: ThreadID, keys: seq<string>, now: Time, events: seq<Event>)
    requires Free(s, t) && Indexed(s) && RealSizes(s)
    requires DistinctKeys(keys) && forall k | k in keys :: k in s.index
    requires CarriesOut(events, t) && Free(Run(s, Planning(t, keys, now) + events), t)
    ensures var s' := Run(s, Planning(t, keys, now) + events);
            PoolsAfter(s, s', keys, now) && KeysAfter(s, s', keys, now) && ProcessesAfter(s, s')
  {
    var s1 := Go(s, t, Sweeping(PlansOfKeys(s, keys, now), [], None));
    PlanningRun(s, t, keys, now);
    RunTwice(s, Planning(t, keys, now), events);
    SweepFinishes(s1, t, events);
    PlannedPoolsAfter(s, Run(s1, events), t, keys, now);
    PlannedKeysAfter(s, Run(s1, events), t, keys, now);
    PlannedProcessesAfter(s, Run(s1, events), t, PlansOfKeys(s, keys, now));
  }

  /** And it can always finish. */
  lemma {:induction false} SweepCanFinish(s: State, t: ThreadID) returns (events: seq<Event>)
    requires IsSweeping(s, t) && Indexed(s)
    ensures CarriesOut(events, t) && Free(Run(s, events), t)
    decreases |s.threads[t].plans|, if s.threads[t].forget.Some? then 1 else 0, |s.threads[t].pending|
  {
    var thread := s.threads[t];
    var e := if thread.pending != [] then StopOne(t)
             else if thread.forget.Some? then ForgetPool(t)
             else if thread.plans != [] then ScaleDown(t)
             else EndSweep(t);
    assert PlansFindPools(s, thread);
    var s1 := Step(s, e);
    events := [e];
    if e == EndSweep(t) {
      RunOne(s, e);
    } else {
      StepKeepsIndexed(s, e);
      if e == ScaleDown(t) {
        assert thread.plans[0] in thread.plans;
      }
      var rest := SweepCanFinish(s1, t);
      RunOne(s, e);
      RunTwice(s, [e], rest);
      events := [e] + rest;
    }
  }

  // ----- What counts as a use -----

  /** EnsurePool reaches the pool, a borrower takes a drone out of it, or a running drone is put back into it. */
  predicate IsUse(s: State, e: Event, q: PoolID) {
    match e
    case EnsurePool(t, key, _, _, newPool) =>
      && t !in s.threads && newPool !in s.pools
      && if key in s.index then s.index[key] == q && q in s.pools else newPool == q
    case Borrow(t, _, _) => t in s.threads && s.threads[t] == Borrowing(q) && q in s.pools && s.pools[q].drones != []
    case FinishReturn(t, _, running) =>
      && t in s.threads && s.threads[t].Returning? && s.threads[t].pool == q && q in s.pools
      && running && s.pools[q].currentSize < s.pools[q].minSize
    case _ => false
  }

  /** The time of the pool's last use in a run, and the last minimum asked for. */
  function LastUse(s: State, events: seq<Event>, q: PoolID): Option<Time>
    decreases |events|
  {
    if events == [] then (if q in s.pools then Some(s.pools[q].lastUsed) else None)
    else
      var n := |events| - 1;
      var before := Run(s, events[..n]);
      if IsUse(before, events[n], q) then Some(events[n].now) else LastUse(s, events[..n], q)
  }

  function LastMinimum(s: State, events: seq<Event>, q: PoolID): Option<int>
    decreases |events|
  {
    if events == [] then (if q in s.pools then Some(s.pools[q].minSize) else None)
    else
      var n := |events| - 1;
      var before := Run(s, events[..n]);
      if events[n].EnsurePool? && IsUse(before, events[n], q) then Some(events[n].minSize)
      else LastMinimum(s, events[..n], q)
  }

  /** The pool's time of use and minimum after a step. */
  ghost predicate MarksUse(s: State, s': State, e: Event, q: PoolID) {
    && (q in s'.pools <==> q in s.pools || IsUse(s, e, q))
    && (q in s'.pools ==>
          && s'.pools[q].lastUsed == (if IsUse(s, e, q) then e.now else s.pools[q].lastUsed)
          && s'.pools[q].minSize == (if e.EnsurePool? && IsUse(s, e, q) then e.minSize else s.pools[q].minSize))
  }

  lemma EnsureMarksUse(s: State, e: Event, q: PoolID)
    requires e.EnsurePool?
    ensures MarksUse(s, Step(s, e), e, q)
  {}

  lemma VisitMarksUse(s: State, e: Event, q: PoolID)
    requires e.Borrow? || e.FinishReturn?
    ensures MarksUse(s, Step(s, e), e, q)
  {}

  lemma SizeChangeIsNoUse(s: State, e: Event, q: PoolID)
    requires e.FillCommit? || e.ScaleDown?
    ensures MarksUse(s, Step(s, e), e, q)
  {}

  lemma OtherIsNoUse(s: State, e: Event, q: PoolID)
    requires !e.EnsurePool? && !e.Borrow? && !e.FinishReturn? && !e.FillCommit? && !e.ScaleDown?
    ensures Step(s, e).pools == s.pools
  {}

  lemma StepMarksUse(s: State, e: Event, q: PoolID)
    ensures MarksUse(s, Step(s, e), e, q)
  {
    match e
    case EnsurePool(_, _, _, _, _) => EnsureMarksUse(s, e, q);
    case Borrow(_, _, _) => VisitMarksUse(s, e, q);
    case FinishReturn(_, _, _) => VisitMarksUse(s, e, q);
    case ScaleDown(_) => SizeChangeIsNoUse(s, e, q);
    case FillCommit(_) => SizeChangeIsNoUse(s, e, q);
    case _ => OtherIsNoUse(s, e, q);
  }

  /** In every run a pool's idle time counts from its last use, and its minimum is the last one asked for: so these are
      what a sweep goes by. */
  lemma {:induction false} RunMarksUse(s: State, events: seq<Event>, q: PoolID)
    ensures var s' := Run(s, events);
            && LastUse(s, events, q) == (if q in s'.pools then Some(s'.pools[q].lastUsed) else None)
            && LastMinimum(s, events, q) == (if q in s'.pools then Some(s'.pools[q].minSize) else None)
    decreases |events|
  {
    if events != [] {
      var n := |events| - 1;
      RunMarksUse(s, events[..n], q);
      assert events == events[..n] + [events[n]];
      RunTwice(s, events[..n], [events[n]]);
      RunOne(Run(s, events[..n]), events[n]);
      StepMarksUse(Run(s, events[..n]), events[n], q);
    }
  }

  // ----- A refill left alone -----

  /** One round of a filler in which nothing fails and d is launched. */
  function OneRound(t: ThreadID, d: ProcessID): seq<Event> {
    [FillCheck(t), FillCheck(t)] + [FillLaunch(t, true, Some(d)), FillStore(t, true)] + [FillCommit(t)]
  }

  function Rounds(t: ThreadID, ids: seq<ProcessID>): seq<Event> {
    if ids == [] then [FillCheck(t)] else OneRound(t, ids[0]) + Rounds(t, ids[1..])
  }

  predicate IsAtTop(s: State, t: ThreadID) {
    IsFilling(s, t) && s.threads[t].at.LoopTop?
  }

  lemma RoundAdds(s: State, t: ThreadID, d: ProcessID)
    requires IsAtTop(s, t) && s.pools[s.threads[t].pool].currentSize < s.threads[t].minSize && d !in s.launched
    ensures var q := s.threads[t].pool;
            Run(s, OneRound(t, d))
            == s.(pools := s.pools[q := Add(s.pools[q], d)], launched := s.launched + {d})
  {
    var thread := s.threads[t];
    RunOfTwo(s, FillCheck(t), FillCheck(t));
    var s1 := Go(s, t, thread.(at := Rechecked));
    assert Run(s, [FillCheck(t), FillCheck(t)]) == s1;
    RunOfTwo(s1, FillLaunch(t, true, Some(d)), FillStore(t, true));
    var s2 := Go(s, t, thread.(at := FillPoint.Stored(d))).(launched := s.launched + {d});
    assert Run(s1, [FillLaunch(t, true, Some(d)), FillStore(t, true)]) == s2;
    RunOne(s2, FillCommit(t));
    assert s2.threads[t := thread] == s.threads;
    RunTwice(s, [FillCheck(t), FillCheck(t)], [FillLaunch(t, true, Some(d)), FillStore(t, true)]);
    RunTwice(s, [FillCheck(t), FillCheck(t)] + [FillLaunch(t, true, Some(d)), FillStore(t, true)], [FillCommit(t)]);
  }

  ghost predicate FreshIDs(s: State, ids: seq<ProcessID>) {
    NoDuplicates(ids) && forall d | d in ids :: d !in s.launched
  }

  /** A filler that has just been started, left alone, brings its pool to the size asked for. */
  lemma {:induction false} FillerReaches(s: State, t: ThreadID, ids: seq<ProcessID>)
    requires IsAtTop(s, t) && FreshIDs(s, ids)
    requires var p := s.pools[s.threads[t].pool];
             p.currentSize == |p.drones| && |ids| == Max(0, s.threads[t].minSize - p.currentSize)
    ensures var q := s.threads[t].pool;
            Run(s, Rounds(t, ids))
            == s.(pools := s.pools[q := Holding(s.pools[q], s.pools[q].drones + ids)],
                  launched := s.launched + (set d | d in ids), threads := s.threads - {t})
    decreases |ids|
  {
    var q := s.threads[t].pool;
    if ids == [] {
      RunOne(s, FillCheck(t));
      assert s.pools[q].drones + ids == s.pools[q].drones;
      assert s.launched + (set d | d in ids) == s.launched;
      assert s.pools[q := s.pools[q]] == s.pools;
    } else {
      var d, rest := ids[0], ids[1..];
      var s1 := Run(s, OneRound(t, d));
      RoundAdds(s, t, d);
      assert forall x | x in rest :: x in ids && x != d;
      FillerReaches(s1, t, rest);
      RunTwice(s, OneRound(t, d), Rounds(t, rest));
      assert s.pools[q].drones + [d] + rest == s.pools[q].drones + ids;
      assert s.launched + {d} + (set x | x in rest) == s.launched + (set x | x in ids);
    }
  }

  /** The maintenance loop's refill of a pool below its minimum, left alone: afterwards the pool holds exactly its
      minimum, the drones it had followed by the new ones. */
  lemma MaintenanceRefills(s: State, t: ThreadID, q: PoolID, ids: seq<ProcessID>)
    requires Free(s, t) && q in s.pools && s.pools[q].currentSize == |s.pools[q].drones| < s.pools[q].minSize
    requires FreshIDs(s, ids) && |ids| == s.pools[q].minSize - |s.pools[q].drones|
    ensures var s' := Run(s, [MaintainPool(t, q)] + Rounds(t, ids));
            && q in s'.pools
            && s'.pools[q] == s.pools[q].(drones := s.pools[q].drones + ids, currentSize := s.pools[q].minSize)
            && s'.pools == s.pools[q := s'.pools[q]] && s'.threads == s.threads && s'.index == s.index
  {
    RunTwice(s, [MaintainPool(t, q)], Rounds(t, ids));
    RunOne(s, MaintainPool(t, q));
    FillerReaches(Step(s, MaintainPool(t, q)), t, ids);
    assert s.threads[t := Filling(q, s.pools[q].minSize, LoopTop)] - {t} == s.threads;
  }

  /** EnsurePool, left alone, for a key with or without a pool: the key leads to a pool with this minimum, used now,
      that holds what it held followed by as many new drones as were missing. */
  lemma EnsureFills(s: State, t: ThreadID, key: string, minSize: int, now: Time, newPool: PoolID, ids: seq<ProcessID>)
    requires Free(s, t) && newPool !in s.pools && RealSizes(s) && (key in s.index ==> s.index[key] in s.pools)
    requires var had := if key in s.index then |s.pools[s.index[key]].drones| else 0;
             FreshIDs(s, ids) && |ids| == Max(0, minSize - had)
    ensures var s' := Run(s, [EnsurePool(t, key, minSize, now, newPool)] + Rounds(t, ids));
            var q := if key in s.index then s.index[key] else newPool;
            var had := if key in s.index then s.pools[q].drones else [];
            && s'.index == s.index[key := q] && q in s'.pools && s'.threads == s.threads
            && s'.pools[q].minSize == minSize && s'.pools[q].lastUsed == now
            && s'.pools[q].drones == had + ids && s'.pools[q].currentSize == |had + ids|
  {
    var ensure := EnsurePool(t, key, minSize, now, newPool);
    RunTwice(s, [ensure], Rounds(t, ids));
    RunOne(s, ensure);
    var s1 := Step(s, ensure);
    FillerReaches(s1, t, ids);
    assert s1.threads - {t} == s.threads;
  }

  /** A filler ends at once, and leaves its pool as it is, when the context is done before a launch, when nothing can be
      scheduled or launched, or when the record of what it launched cannot be stored; that process it stops. */
  lemma FailuresEndTheFiller(s: State, t: ThreadID, e: Event)
    requires IsFilling(s, t) && e.t == t
    requires var at := s.threads[t].at;
             || (e.FillCancel? && (at.LoopTop? || at.Checked?))
             || (e.FillLaunch? && at.Rechecked? && (!e.scheduled || e.process == None))
             || (e.FillStore? && at.Launched? && !e.created)
    ensures var s' := Step(s, e);
            && s'.threads == s.threads - {t} && s'.pools == s.pools && s'.index == s.index && s'.launched == s.launched
            && s'.stopped == if e.FillStore? then s.stopped + {s.threads[t].at.drone} else s.stopped
  {}

  // ----- Borrowing and returning left alone -----

  lemma BorrowTakes(s: State, t: ThreadID, q: PoolID, now: Time, running: bool)
    requires t in s.threads && s.threads[t] == Borrowing(q) && q in s.pools && s.pools[q].drones != []
    ensures var p := s.pools[q];
            var taken := p.(drones := p.drones[1..], currentSize := |p.drones| - 1, lastUsed := now);
            Step(s, Borrow(t, now, running))
            == s.(pools := s.pools[q := taken], threads := s.threads - {t},
                  handedOut := if running then s.handedOut + {p.drones[0]} else s.handedOut,
                  abandoned := if running then s.abandoned else s.abandoned + {p.drones[0]})
  {}

  /** GetWarmDrone, left alone, for a key that leads to a pool: the first drone leaves the pool, into the caller's hands
      when it is running; from an empty pool nothing comes. */
  lemma BorrowLeftAlone(s: State, t: ThreadID, key: string, now: Time, running: bool)
    requires Free(s, t) && key in s.index && s.index[key] in s.pools
    ensures var s', q := Run(s, [BorrowLookup(t, key), Borrow(t, now, running)]), s.index[key];
            var p := s.pools[q];
            if p.drones == [] then s' == s
            else
              var taken := p.(drones := p.drones[1..], currentSize := |p.drones| - 1, lastUsed := now);
              s' == s.(pools := s.pools[q := taken],
                       handedOut := if running then s.handedOut + {p.drones[0]} else s.handedOut,
                       abandoned := if running then s.abandoned else s.abandoned + {p.drones[0]})
  {
    var q := s.index[key];
    var s1 := Step(s, BorrowLookup(t, key));
    RunOfTwo(s, BorrowLookup(t, key), Borrow(t, now, running));
    assert s1 == Go(s, t, Borrowing(q)) && s1.threads - {t} == s.threads;
    if s.pools[q].drones != [] {
      BorrowTakes(s1, t, q, now, running);
    }
  }

  /** ReturnDrone, left alone: a running drone joins a pool below its minimum as the last; any other stays with the
      caller. */
  lemma ReturnLeftAlone(s: State, t: ThreadID, key: string, d: ProcessID, now: Time, running: bool)
    requires Free(s, t) && key in s.index && s.index[key] in s.pools && d in s.handedOut
    ensures var s', q := Run(s, [ReturnLookup(t, key, d), FinishReturn(t, now, running)]), s.index[key];
            var p := s.pools[q];
            if running && p.currentSize < p.minSize then
              var put := p.(drones := p.drones + [d], currentSize := |p.drones| + 1, lastUsed := now);
              s' == s.(pools := s.pools[q := put], handedOut := s.handedOut - {d})
            else s' == s
  {
    RunOfTwo(s, ReturnLookup(t, key, d), FinishReturn(t, now, running));
    assert Step(s, ReturnLookup(t, key, d)).threads - {t} == s.threads;
    assert s.handedOut - {d} + {d} == s.handedOut;
  }

  /** Without a pool for the key both do nothing. */
  lemma NoPoolForTheKey(s: State, t: ThreadID, key: string, d: ProcessID)
    requires key !in s.index
    ensures Step(s, BorrowLookup(t, key)) == s && Step(s, ReturnLookup(t, key, d)) == s
  {}
}
