/** What becomes of the drones in a warm pool whose key the idle sweeper has forgotten (internal/warmpool/manager.go).
    The pool object lives on in whatever threads still hold it. */
module WarmPoolOrphans {
  import opened Wrappers
  import opened WarmPools

  /** Distinct keys have distinct pools, every key's pool exists, and so does every pool a sweeper has plans for. */
  predicate Indexed(s: State) {
    && (forall key | key in s.index :: s.index[key] in s.pools)
    && (forall k, l | k in s.index && l in s.index && s.index[k] == s.index[l] :: k == l)
    && (forall t | t in s.threads :: PlansFindPools(s, s.threads[t]))
  }

  predicate PlansFindPools(s: State, thread: Thread) {
    thread.Sweeping? ==> forall plan | plan in thread.plans :: plan.pool in s.pools
  }

  lemma {:induction false} RunKeepsIndexed(s: State, events: seq<Event>)
    requires Indexed(s)
    ensures Indexed(Run(s, events))
    decreases |events|
  {
    if events != [] {
      StepKeepsIndexed(s, events[0]);
      RunKeepsIndexed(Step(s, events[0]), events[1..]);
    }
  }

  lemma StepKeepsIndexed(s: State, e: Event)
    requires Indexed(s)
    ensures Indexed(Step(s, e))
  {
    StepKeepsIndex(s, e);
    var s' := Step(s, e);
    forall t | t in s'.threads ensures PlansFindPools(s', s'.threads[t]) {
      StepKeepsPlans(s, e, t);
    }
  }

  lemma StepKeepsIndex(s: State, e: Event)
    requires Indexed(s)
    ensures var s' := Step(s, e);
            && s.pools.Keys <= s'.pools.Keys
            && (forall key | key in s'.index :: s'.index[key] in s'.pools)
            && (forall k, l | k in s'.index && l in s'.index && s'.index[k] == s'.index[l] :: k == l)
  {}

  lemma StepKeepsPlans(s: State, e: Event, t: ThreadID)
    requires Indexed(s) && s.pools.Keys <= Step(s, e).pools.Keys && t in Step(s, e).threads
    ensures PlansFindPools(Step(s, e), Step(s, e).threads[t])
  {
    var s' := Step(s, e);
    if s'.threads[t].Sweeping? {
      PlansAfterStep(s, e, t);
      if t in s.threads {
        assert PlansFindPools(s, s.threads[t]);
      }
      if e.PlanPool? && e.key in s.index {
        assert forall plan | plan in s'.threads[t].plans :: plan in PlansOf(s, t) || plan.pool == s.index[e.key];
      }
    }
  }

  function PlansOf(s: State, t: ThreadID): seq<Plan> {
    if IsSweeping(s, t) then s.threads[t].plans else []
  }

  /** A sweeper's plans after a step are some of those it had, and those it has just made. */
  lemma PlansAfterStep(s: State, e: Event, t: ThreadID)
    requires IsSweeping(Step(s, e), t)
    ensures forall plan | plan in Step(s, e).threads[t].plans ::
              plan in PlansOf(s, t) || (e.PlanPool? && e.key in s.index && plan.pool == s.index[e.key])
  {}

  lemma {:induction false} RunTwice(s: State, a: seq<Event>, b: seq<Event>)
    ensures Run(s, a + b) == Run(Run(s, a), b)
    decreases |a|
  {
    if a == [] {
      assert a + b == b;
    } else {
      assert (a + b)[1..] == a[1..] + b;
      RunTwice(Step(s, a[0]), a[1..], b);
    }
  }

  lemma RunOne(s: State, e: Event)
    ensures Run(s, [e]) == Step(s, e)
  {
    assert Run(Step(s, e), [e][1..]) == Step(s, e);
  }

  /** No key leads to the pool any more. */
  predicate Forgotten(s: State, q: PoolID) {
    q in s.pools && forall key | key in s.index :: s.index[key] != q
  }

  // ----- Who can still take drones out -----

  function PlannedCut(plans: seq<Plan>, q: PoolID): nat {
    if plans == [] then 0 else (if plans[0].pool == q then plans[0].count else 0) + PlannedCut(plans[1..], q)
  }

  /** How many drones a thread that already holds the pool may take out of it: one for a borrower, what it has planned
      for a sweeper. */
  function Claim(thread: Thread, q: PoolID): nat {
    match thread
    case Borrowing(pool) => if pool == q then 1 else 0
    case Sweeping(plans, _, _) => PlannedCut(plans, q)
    case Filling(_, _, _) => 0
    case Returning(_, _) => 0
  }

  ghost function Claims(threads: map<ThreadID, Thread>, q: PoolID): nat {
    if threads == map[] then 0
    else
      var t :| t in threads;
      Claim(threads[t], q) + Claims(threads - {t}, q)
  }

  lemma {:induction false} ClaimsWithout(threads: map<ThreadID, Thread>, q: PoolID, t: ThreadID)
    requires t in threads
    ensures Claims(threads, q) == Claim(threads[t], q) + Claims(threads - {t}, q)
    decreases |threads|
  {
    var u :| u in threads && Claims(threads, q) == Claim(threads[u], q) + Claims(threads - {u}, q);
    if u != t {
      ClaimsWithout(threads - {u}, q, t);
      ClaimsWithout(threads - {t}, q, u);
      assert threads - {u} - {t} == threads - {t} - {u};
    }
  }

  function ClaimOf(threads: map<ThreadID, Thread>, q: PoolID, t: ThreadID): nat {
    if t in threads then Claim(threads[t], q) else 0
  }

  /** One thread changing or ending changes the claims by its own. */
  lemma ClaimsElsewhere(threads: map<ThreadID, Thread>, threads': map<ThreadID, Thread>, q: PoolID, t: ThreadID)
    requires threads' - {t} == threads - {t}
    ensures Claims(threads', q) == Claims(threads, q) - ClaimOf(threads, q, t) + ClaimOf(threads', q, t)
  {
    if t in threads {
      ClaimsWithout(threads, q, t);
    } else {
      assert threads - {t} == threads;
    }
    if t in threads' {
      ClaimsWithout(threads', q, t);
    } else {
      assert threads' - {t} == threads';
    }
  }

  lemma {:induction false} SomeClaimant(threads: map<ThreadID, Thread>, q: PoolID) returns (t: ThreadID)
    requires Claims(threads, q) > 0
    ensures t in threads && Claim(threads[t], q) > 0
    decreases |threads|
  {
    t :| t in threads;
    ClaimsWithout(threads, q, t);
    if Claim(threads[t], q) == 0 {
      t := SomeClaimant(threads - {t}, q);
    }
  }

  // ----- At most that many are taken -----

  /** From `s` to `s'` thread t alone moved, `taken` drones left the front of the pool, at the expense of t's claim. */
  ghost predicate Spends(s: State, s': State, q: PoolID, t: ThreadID, taken: nat) {
    && q in s.pools && Forgotten(s', q)
    && s'.threads - {t} == s.threads - {t}
    && taken + ClaimOf(s'.threads, q, t) <= ClaimOf(s.threads, q, t)
    && taken <= |s.pools[q].drones| && s.pools[q].drones[taken..] <= s'.pools[q].drones
  }

  function Taken(s: State, q: PoolID, e: Event): nat {
    match e
    case Borrow(t, _, _) => if CanBorrow(s, t) && s.threads[t].pool == q then 1 else 0
    case ScaleDown(t) =>
      if CanScaleDown(s, t) && s.threads[t].plans[0].pool == q
      then CutSize(s.pools[q], s.threads[t].plans[0].count) else 0
    case _ => 0
  }

  lemma PlansElsewhereAddNothing(key: string, p: PoolID, pool: Pool, now: Time, idle: Time, plans: seq<Plan>, q: PoolID)
    requires p != q
    ensures PlannedCut(plans + PlansFor(key, p, pool, now, idle), q) == PlannedCut(plans, q)
  {
    var more := PlansFor(key, p, pool, now, idle);
    assert forall plan | plan in more :: plan.pool == p;
    PlannedTogether(plans, more, q);
    NothingPlanned(more, q);
  }

  lemma {:induction false} PlannedTogether(a: seq<Plan>, b: seq<Plan>, q: PoolID)
    ensures PlannedCut(a + b, q) == PlannedCut(a, q) + PlannedCut(b, q)
  {
    if a == [] {
      assert a + b == b;
    } else {
      assert (a + b)[1..] == a[1..] + b;
      PlannedTogether(a[1..], b, q);
    }
  }

  lemma {:induction false} NothingPlanned(plans: seq<Plan>, q: PoolID)
    requires forall plan | plan in plans :: plan.pool != q
    ensures PlannedCut(plans, q) == 0
  {
    if plans != [] {
      NothingPlanned(plans[1..], q);
    }
  }

  lemma StepSpends(s: State, q: PoolID, e: Event)
    requires Forgotten(s, q)
    ensures Spends(s, Step(s, e), q, e.t, Taken(s, q, e))
  {
    match e
    case PlanPool(t, key, now) =>
      if IsSweeping(s, t) && key in s.index && s.index[key] in s.pools {
        PlansElsewhereAddNothing(key, s.index[key], s.pools[s.index[key]], now, s.idleTimeout, s.threads[t].plans, q);
      }
    case ScaleDown(t) => SweeperSpends(s, q, e, t);
    case StopOne(t) => SweeperSpends(s, q, e, t);
    case CancelCut(t) => SweeperSpends(s, q, e, t);
    case CancelSweep(t) => SweeperSpends(s, q, e, t);
    case ForgetPool(t) => SweeperSpends(s, q, e, t);
    case EndSweep(t) => SweeperSpends(s, q, e, t);
    case FillCheck(_) => FillerSpends(s, q, e);
    case FillLaunch(_, _, _) => FillerSpends(s, q, e);
    case FillStore(_, _) => FillerSpends(s, q, e);
    case FillCommit(_) => FillerSpends(s, q, e);
    case FillCancel(_) => FillerSpends(s, q, e);
    case _ => OtherSpends(s, q, e);
  }

  lemma SweeperSpends(s: State, q: PoolID, e: Event, t: ThreadID)
    requires Forgotten(s, q)
    requires || e == ScaleDown(t) || e == StopOne(t) || e == CancelCut(t) || e == CancelSweep(t) || e == ForgetPool(t)
             || e == EndSweep(t)
    ensures Spends(s, Step(s, e), q, t, Taken(s, q, e))
  {
    match e
    case ScaleDown(_) => ScaleDownSpends(s, q, t);
    case ForgetPool(_) => ForgetSpends(s, q, t);
    case _ => StoppingSpends(s, q, e, t);
  }

  lemma ScaleDownSpends(s: State, q: PoolID, t: ThreadID)
    requires Forgotten(s, q)
    ensures Spends(s, Step(s, ScaleDown(t)), q, t, Taken(s, q, ScaleDown(t)))
  {
    if CanScaleDown(s, t) {
      CutSpends(s, q, t);
    }
  }

  lemma CutSpends(s: State, q: PoolID, t: ThreadID)
    requires Forgotten(s, q) && CanScaleDown(s, t)
    ensures Spends(s, Step(s, ScaleDown(t)), q, t, Taken(s, q, ScaleDown(t)))
  {
    var s', plan := Step(s, ScaleDown(t)), s.threads[t].plans[0];
    assert s'.threads - {t} == s.threads - {t};
    assert Claim(s.threads[t], q) == (if plan.pool == q then plan.count else 0) + Claim(s'.threads[t], q);
  }

  lemma ForgetSpends(s: State, q: PoolID, t: ThreadID)
    requires Forgotten(s, q)
    ensures Spends(s, Step(s, ForgetPool(t)), q, t, 0)
  {}

  lemma StoppingSpends(s: State, q: PoolID, e: Event, t: ThreadID)
    requires Forgotten(s, q) && (e == StopOne(t) || e == CancelCut(t) || e == CancelSweep(t) || e == EndSweep(t))
    ensures Spends(s, Step(s, e), q, t, 0)
  {}

  lemma FillerSpends(s: State, q: PoolID, e: Event)
    requires Forgotten(s, q)
    requires e.FillCheck? || e.FillLaunch? || e.FillStore? || e.FillCommit? || e.FillCancel?
    ensures Spends(s, Step(s, e), q, e.t, 0)
  {}

  lemma OtherSpends(s: State, q: PoolID, e: Event)
    requires Forgotten(s, q)
    requires || e.EnsurePool? || e.MaintainPool? || e.BorrowLookup? || e.Borrow? || e.ReturnLookup? || e.FinishReturn?
             || e.StartSweep?
    ensures Spends(s, Step(s, e), q, e.t, Taken(s, q, e))
  {
    match e
    case EnsurePool(_, _, _, _, _) => OpeningSpends(s, q, e);
    case MaintainPool(_, _) => OpeningSpends(s, q, e);
    case FinishReturn(_, _, _) => ReturnSpends(s, q, e);
    case Borrow(t, now, running) => BorrowSpends(s, q, t, now, running);
    case _ => VisitSpends(s, q, e);
  }

  lemma OpeningSpends(s: State, q: PoolID, e: Event)
    requires Forgotten(s, q) && (e.EnsurePool? || e.MaintainPool?)
    ensures Spends(s, Step(s, e), q, e.t, 0)
  {}

  lemma ReturnSpends(s: State, q: PoolID, e: Event)
    requires Forgotten(s, q) && e.FinishReturn?
    ensures Spends(s, Step(s, e), q, e.t, 0)
  {}

  lemma BorrowSpends(s: State, q: PoolID, t: ThreadID, now: Time, running: bool)
    requires Forgotten(s, q)
    ensures Spends(s, Step(s, Borrow(t, now, running)), q, t, Taken(s, q, Borrow(t, now, running)))
  {}

  lemma VisitSpends(s: State, q: PoolID, e: Event)
    requires Forgotten(s, q) && (e.BorrowLookup? || e.ReturnLookup? || e.StartSweep?)
    ensures Spends(s, Step(s, e), q, e.t, 0)
  {}

  /** In every continuation a forgotten pool stays forgotten and loses drones at the front only, no more of them than
      there are claims. */
  lemma {:induction false} OrphansStay(s: State, q: PoolID, events: seq<Event>) returns (taken: nat)
    requires Forgotten(s, q)
    ensures var s' := Run(s, events);
            && Forgotten(s', q) && taken + Claims(s'.threads, q) <= Claims(s.threads, q)
            && taken <= |s.pools[q].drones| && s.pools[q].drones[taken..] <= s'.pools[q].drones
    decreases |events|
  {
    taken := 0;
    if events != [] {
      var e := events[0];
      var s1 := Step(s, e);
      StepSpends(s, q, e);
      ClaimsElsewhere(s.threads, s1.threads, q, e.t);
      var more := OrphansStay(s1, q, events[1..]);
      taken := LaterPrefix(s.pools[q].drones, s1.pools[q].drones, Run(s, events).pools[q].drones, Taken(s, q, e), more);
    }
  }

  lemma LaterPrefix(a: seq<ProcessID>, b: seq<ProcessID>, c: seq<ProcessID>, first: nat, more: nat) returns (taken: nat)
    requires first <= |a| && a[first..] <= b && more <= |b| && b[more..] <= c
    ensures taken <= first + more && taken <= |a| && a[taken..] <= c
  {
    if first + more <= |a| {
      taken := first + more;
      assert a[taken..] == a[first..][more..] <= b[more..];
    } else {
      taken := |a|;
    }
  }

  // ----- And that many can be -----

  lemma ClearPending(s: State, t: ThreadID) returns (events: seq<Event>)
    requires IsSweeping(s, t)
    ensures var s' := Run(s, events);
            s'.pools == s.pools && s'.threads == s.threads[t := Sweeping(s.threads[t].plans, [], None)]
    decreases |s.threads[t].pending|
  {
    var thread := s.threads[t];
    if thread.pending != [] {
      var s1 := Step(s, StopOne(t));
      RunOne(s, StopOne(t));
      var rest := ClearPending(s1, t);
      RunTwice(s, [StopOne(t)], rest);
      events := [StopOne(t)] + rest;
    } else if thread.forget.Some? {
      events := [ForgetPool(t)];
      RunOne(s, ForgetPool(t));
    } else {
      events := [];
      assert s.threads[t := thread] == s.threads;
    }
  }

  /** A sweeper with nothing pending carries out its next plan. */
  lemma NextPlan(s: State, t: ThreadID, q: PoolID)
    requires CanScaleDown(s, t) && q in s.pools
    ensures var s', plan := Step(s, ScaleDown(t)), s.threads[t].plans[0];
            && IsSweeping(s', t) && s'.threads[t].plans == s.threads[t].plans[1..]
            && s'.pools.Keys == s.pools.Keys
            && Claims(s'.threads, q) == Claims(s.threads, q) - (if plan.pool == q then plan.count else 0)
            && s'.pools[q].drones
               == s.pools[q].drones[if plan.pool == q then CutSize(s.pools[q], plan.count) else 0..]
  {
    ClaimsElsewhere(s.threads, Step(s, ScaleDown(t)).threads, q, t);
  }

  /** Without the first n drones the others are still distinct, and each is there unless it was among those. */
  lemma WithoutFirst(drones: seq<ProcessID>, n: nat, i: nat)
    requires NoDuplicates(drones) && n <= |drones| && i < |drones|
    ensures NoDuplicates(drones[n..])
    ensures if n <= i then drones[n..][i - n] == drones[i] else drones[i] !in drones[n..]
  {}

  /** A sweeper finishes what it is at and carries out its next plan. */
  lemma CarryOut(s: State, q: PoolID, t: ThreadID) returns (events: seq<Event>)
    requires Indexed(s) && q in s.pools && IsSweeping(s, t) && s.threads[t].plans != []
    ensures var s', plan := Run(s, events), s.threads[t].plans[0];
            && Indexed(s') && q in s'.pools && IsSweeping(s', t) && s'.threads[t].plans == s.threads[t].plans[1..]
            && Claims(s'.threads, q) == Claims(s.threads, q) - (if plan.pool == q then plan.count else 0)
            && s'.pools[q].drones
               == s.pools[q].drones[if plan.pool == q then CutSize(s.pools[q], plan.count) else 0..]
  {
    var clear := ClearPending(s, t);
    var cut := ScaleDown(t);
    var s1 := Run(s, clear);
    RunKeepsIndexed(s, clear);
    ClaimsElsewhere(s.threads, s1.threads, q, t);
    assert s1.threads[t].plans[0] in s1.threads[t].plans;
    NextPlan(s1, t, q);
    StepKeepsIndexed(s1, cut);
    RunOne(s1, cut);
    RunTwice(s, clear, [cut]);
    events := clear + [cut];
  }

  /** From `s` to `s'` n drones were taken out of the pool's front at the expense of as many claims, or so many that
      its i-th drone is out. */
  ghost predicate Reaches(s: State, s': State, q: PoolID, i: nat, n: nat)
    requires q in s.pools && i < |s.pools[q].drones|
  {
    && Indexed(s') && q in s'.pools && NoDuplicates(s'.pools[q].drones)
    && (n > i ==> s.pools[q].drones[i] !in s'.pools[q].drones)
    && (n <= i ==>
          && |s'.pools[q].drones| + n == |s.pools[q].drones| && s'.pools[q].drones[i - n] == s.pools[q].drones[i]
          && Claims(s'.threads, q) == Claims(s.threads, q) - n)
  }

  lemma SweepOn(s: State, q: PoolID, i: nat, t: ThreadID) returns (events: seq<Event>, n: nat)
    requires q in s.pools && NoDuplicates(s.pools[q].drones) && i < |s.pools[q].drones|
    requires Indexed(s) && IsSweeping(s, t) && Claim(s.threads[t], q) > 0
    ensures var s' := Run(s, events);
            && Reaches(s, s', q, i, n) && IsSweeping(s', t) && |s'.threads[t].plans| < |s.threads[t].plans|
            && (n == 0 ==> Claim(s'.threads[t], q) > 0)
  {
    events := CarryOut(s, q, t);
    var plan := s.threads[t].plans[0];
    n := if plan.pool == q then CutSize(s.pools[q], plan.count) else 0;
    WithoutFirst(s.pools[q].drones, n, i);
  }

  lemma ReachesOn(s: State, s1: State, s2: State, q: PoolID, i: nat, n: nat)
    requires q in s.pools && i < |s.pools[q].drones|
    requires Reaches(s, s1, q, i, 0) && Reaches(s1, s2, q, i, n)
    ensures Reaches(s, s2, q, i, n)
  {}

  /** A sweeper with a claim goes on until it takes something out. */
  lemma {:induction false} SweepUntil(s: State, q: PoolID, i: nat, t: ThreadID) returns (events: seq<Event>, n: nat)
    requires q in s.pools && NoDuplicates(s.pools[q].drones) && i < |s.pools[q].drones|
    requires Indexed(s) && IsSweeping(s, t) && Claim(s.threads[t], q) > 0
    ensures n > 0 && Reaches(s, Run(s, events), q, i, n)
    decreases |s.threads[t].plans|
  {
    events, n := SweepOn(s, q, i, t);
    if n == 0 {
      var s1 := Run(s, events);
      var more;
      more, n := SweepUntil(s1, q, i, t);
      RunTwice(s, events, more);
      ReachesOn(s, s1, Run(s1, more), q, i, n);
      events := events + more;
    }
  }

  /** A borrower takes one. */
  lemma BorrowOne(s: State, q: PoolID, i: nat, t: ThreadID) returns (events: seq<Event>)
    requires q in s.pools && NoDuplicates(s.pools[q].drones) && i < |s.pools[q].drones|
    requires Indexed(s) && t in s.threads && s.threads[t] == Borrowing(q)
    ensures Reaches(s, Run(s, events), q, i, 1)
  {
    var borrow := Borrow(t, 0, true);
    ClaimsElsewhere(s.threads, Step(s, borrow).threads, q, t);
    StepKeepsIndexed(s, borrow);
    RunOne(s, borrow);
    WithoutFirst(s.pools[q].drones, 1, i);
    events := [borrow];
  }

  /** Some claimant has its turn. */
  lemma TakeSome(s: State, q: PoolID, i: nat) returns (events: seq<Event>, n: nat)
    requires q in s.pools && NoDuplicates(s.pools[q].drones) && i < |s.pools[q].drones|
    requires Indexed(s) && Claims(s.threads, q) > 0
    ensures n > 0 && Reaches(s, Run(s, events), q, i, n)
  {
    var t := SomeClaimant(s.threads, q);
    n := 1;
    if s.threads[t].Borrowing? {
      events := BorrowOne(s, q, i, t);
    } else {
      events, n := SweepUntil(s, q, i, t);
    }
  }

  ghost predicate IsOut(s: State, q: PoolID, d: ProcessID) {
    q in s.pools && d !in s.pools[q].drones
  }

  /** With more claims than drones before it, a drone can be taken out: let every claimant have its turn. */
  lemma {:induction false} TakeOut(s: State, q: PoolID, i: nat, d: ProcessID) returns (events: seq<Event>)
    requires q in s.pools && NoDuplicates(s.pools[q].drones) && i < |s.pools[q].drones| && s.pools[q].drones[i] == d
    requires Indexed(s) && i < Claims(s.threads, q)
    ensures IsOut(Run(s, events), q, d)
    decreases Claims(s.threads, q)
  {
    var n;
    events, n := TakeSome(s, q, i);
    if n <= i {
      var rest := TakeOut(Run(s, events), q, i - n, d);
      RunTwice(s, events, rest);
      events := events + rest;
    }
  }

  /** Whatever happens, the drone remains in the pool. */
  ghost predicate StaysForever(s: State, q: PoolID, d: ProcessID) {
    forall events :: q in Run(s, events).pools && d in Run(s, events).pools[q].drones
  }

  /** The i-th drone of a forgotten pool runs on for good, out of everyone's reach, if and only if the threads that
      still hold the pool claim no more than the i drones before it. */
  lemma DroneIsLostExactlyWhen(s: State, q: PoolID, i: nat)
    requires Forgotten(s, q) && Indexed(s) && NoDuplicates(s.pools[q].drones) && i < |s.pools[q].drones|
    ensures StaysForever(s, q, s.pools[q].drones[i]) <==> Claims(s.threads, q) <= i
  {
    var drones := s.pools[q].drones;
    if Claims(s.threads, q) <= i {
      forall events ensures q in Run(s, events).pools && drones[i] in Run(s, events).pools[q].drones {
        var taken := OrphansStay(s, q, events);
        assert drones[taken..][i - taken] == drones[i];
      }
    } else {
      var events := TakeOut(s, q, i, drones[i]);
      assert !(q in Run(s, events).pools && drones[i] in Run(s, events).pools[q].drones);
    }
  }

  /** Forgetting a key loses the i-th drone of its pool if and only if borrowers and sweepers claim at most i, and so
      loses some drone if and only if they claim fewer than there are. */
  lemma ForgettingOrphansExactlyWhen(s: State, t: ThreadID)
    requires Indexed(s) && Sound(s) && IsSweeping(s, t) && s.threads[t].pending == []
    requires s.threads[t].forget.Some? && s.threads[t].forget.value in s.index
    ensures var s', q := Step(s, ForgetPool(t)), s.index[s.threads[t].forget.value];
            var drones, claims := s.pools[q].drones, Claims(s.threads, q);
            && Forgotten(s', q) && s'.pools == s.pools
            && (forall i | 0 <= i < |drones| :: StaysForever(s', q, drones[i]) <==> claims <= i)
            && ((exists d | d in drones :: StaysForever(s', q, d)) <==> claims < |drones|)
  {
    var s', q := Step(s, ForgetPool(t)), s.index[s.threads[t].forget.value];
    var drones, claims := s.pools[q].drones, Claims(s.threads, q);
    StepKeepsIndexed(s, ForgetPool(t));
    ClaimsElsewhere(s.threads, s'.threads, q, t);
    assert PoolSound(s.pools[q]);
    forall i | 0 <= i < |drones| ensures StaysForever(s', q, drones[i]) <==> claims <= i {
      DroneIsLostExactlyWhen(s', q, i);
    }
    if claims < |drones| {
      assert drones[|drones| - 1] in drones && StaysForever(s', q, drones[|drones| - 1]);
    }
  }

  /** A removal cancelled on entry to its cut: the sweeper gives up all its plans, the pool is forgotten with all its
      drones, and those beyond what the other threads claim are lost. */
  lemma CancelledRemovalOrphans(s: State, t: ThreadID)
    requires Indexed(s) && Sound(s) && CanScaleDown(s, t) && s.threads[t].plans[0].remove
    requires s.threads[t].plans[0].key in s.index && s.index[s.threads[t].plans[0].key] == s.threads[t].plans[0].pool
    ensures var s', q := Run(s, [CancelCut(t), ForgetPool(t)]), s.threads[t].plans[0].pool;
            var drones, claims := s.pools[q].drones, Claims(s.threads - {t}, q);
            && Forgotten(s', q) && s'.pools == s.pools
            && (forall i | 0 <= i < |drones| :: StaysForever(s', q, drones[i]) <==> claims <= i)
            && ((exists d | d in drones :: StaysForever(s', q, d)) <==> claims < |drones|)
  {
    var s1 := Step(s, CancelCut(t));
    CancelCutGivesUp(s, t);
    ForgettingOrphansExactlyWhen(s1, t);
    RunOfTwo(s, CancelCut(t), ForgetPool(t));
  }

  lemma CancelCutGivesUp(s: State, t: ThreadID)
    requires Indexed(s) && Sound(s) && CanScaleDown(s, t) && s.threads[t].plans[0].remove
    ensures var s', plan := Step(s, CancelCut(t)), s.threads[t].plans[0];
            && Indexed(s') && Sound(s') && s'.pools == s.pools && s'.index == s.index
            && IsSweeping(s', t) && s'.threads[t] == Sweeping([], [], Some(plan.key))
            && Claims(s'.threads, plan.pool) == Claims(s.threads - {t}, plan.pool)
  {
    var s' := Step(s, CancelCut(t));
    StepKeepsIndexed(s, CancelCut(t));
    SweeperKeepsSound(s, CancelCut(t));
    ClaimsWithout(s'.threads, s.threads[t].plans[0].pool, t);
    assert s'.threads - {t} == s.threads - {t};
  }

  lemma RunOfTwo(s: State, first: Event, second: Event)
    ensures Run(s, [first, second]) == Step(Step(s, first), second)
  {
    RunOne(s, first);
    RunOne(Step(s, first), second);
    RunTwice(s, [first], [second]);
    assert [first] + [second] == [first, second];
  }

  // ----- Two runs in which it happens -----

  /** A pool for "k", whose minimum goes from two to none while its second drone is on the way, and which a sweep then
      finds idle: the first plan takes the pooled drone out and stops it. */
  function Prelude(): seq<Event> {
    [EnsurePool(0, "k", 2, 0, 0)] + OneDrone(7) + [FillCommit(0)] + OneDrone(8)
    + [EnsurePool(1, "k", 0, 0, 1), FillCheck(1), StartSweep(2), PlanPool(2, "k", 100)]
    + [ScaleDown(2), StopOne(2)]
  }

  function OneDrone(d: ProcessID): seq<Event> {
    [FillCheck(0), FillCheck(0), FillLaunch(0, true, Some(d)), FillStore(0, true)]
  }

  /** Where a run has come to: the one pool, its filler, the sweeper if there is one, what was launched and stopped. */
  function Scene(minSize: int, drones: seq<ProcessID>, filler: FillPoint, sweeper: Option<Thread>,
                 launched: set<ProcessID>, stopped: set<ProcessID>): State {
    var threads := map[0 := Filling(0, 2, filler)];
    State(map[0 := Pool(minSize, |drones|, drones, 0, 2)], map["k" := 0],
          if sweeper.Some? then threads[2 := sweeper.value] else threads, launched, {}, {}, stopped, 1)
  }

  const START := EMPTY.(idleTimeout := 1)
  const SHRINK := Plan("k", 0, 1, false)
  const REMOVAL := Plan("k", 0, 1, true)

  lemma RunOfThree(s: State, a: Event, b: Event, c: Event)
    ensures Run(s, [a, b, c]) == Step(Step(Step(s, a), b), c)
  {
    RunOfTwo(s, a, b);
    RunOne(Step(Step(s, a), b), c);
    RunTwice(s, [a, b], [c]);
    assert [a, b] + [c] == [a, b, c];
  }

  lemma RunOfFour(s: State, a: Event, b: Event, c: Event, d: Event)
    ensures Run(s, [a, b, c, d]) == Step(Step(Step(Step(s, a), b), c), d)
  {
    RunOfTwo(s, a, b);
    RunOfTwo(Step(Step(s, a), b), c, d);
    RunTwice(s, [a, b], [c, d]);
    assert [a, b] + [c, d] == [a, b, c, d];
  }

  /** One step of the filler, seen on the scene. */
  lemma FillerMoves(minSize: int, drones: seq<ProcessID>, at: FillPoint, e: Event, launched: set<ProcessID>)
    requires |drones| < 2 && e.t == 0
    requires || (e == FillCheck(0) && (at.LoopTop? || at.Checked?))
             || (e.FillLaunch? && at.Rechecked? && e.scheduled && e.process.Some? && e.process.value !in launched)
             || (e.FillStore? && at.Launched? && e.created)
    ensures Step(Scene(minSize, drones, at, None, launched, {}), e)
            == (if e.FillCheck? then
                  Scene(minSize, drones, if at.LoopTop? then Checked else Rechecked, None, launched, {})
                else if e.FillLaunch? then
                  Scene(minSize, drones, Launched(e.process.value), None, launched + {e.process.value}, {})
                else Scene(minSize, drones, FillPoint.Stored(at.drone), None, launched, {}))
  {}

  lemma AfterOneDrone(drones: seq<ProcessID>, d: ProcessID, launched: set<ProcessID>)
    requires |drones| < 2 && d !in launched
    ensures Run(Scene(2, drones, LoopTop, None, launched, {}), OneDrone(d))
            == Scene(2, drones, FillPoint.Stored(d), None, launched + {d}, {})
  {
    RunOfFour(Scene(2, drones, LoopTop, None, launched, {}), FillCheck(0), FillCheck(0),
              FillLaunch(0, true, Some(d)), FillStore(0, true));
    FillerMoves(2, drones, LoopTop, FillCheck(0), launched);
    FillerMoves(2, drones, Checked, FillCheck(0), launched);
    FillerMoves(2, drones, Rechecked, FillLaunch(0, true, Some(d)), launched);
    FillerMoves(2, drones, Launched(d), FillStore(0, true), launched + {d});
  }

  lemma PoolIsMade()
    ensures Run(START, [EnsurePool(0, "k", 2, 0, 0)]) == Scene(2, [], LoopTop, None, {}, {})
  {
    RunOne(START, EnsurePool(0, "k", 2, 0, 0));
  }

  lemma FirstCommit()
    ensures Run(Scene(2, [], FillPoint.Stored(7), None, {7}, {}), [FillCommit(0)])
            == Scene(2, [7], LoopTop, None, {7}, {})
  {
    RunOne(Scene(2, [], FillPoint.Stored(7), None, {7}, {}), FillCommit(0));
    assert [] + [7] == [7];
  }

  lemma MinimumDropped(s: State)
    requires s == Scene(2, [7], FillPoint.Stored(8), None, {7, 8}, {})
    ensures Step(Step(s, EnsurePool(1, "k", 0, 0, 1)), FillCheck(1))
            == Scene(0, [7], FillPoint.Stored(8), None, {7, 8}, {})
  {
    var s1 := Step(s, EnsurePool(1, "k", 0, 0, 1));
    assert s1.pools == map[0 := Pool(0, 1, [7], 0, 2)];
    assert s1.threads - {1} == s.threads;
  }

  lemma Planned(s: State)
    requires s == Scene(0, [7], FillPoint.Stored(8), None, {7, 8}, {})
    ensures Step(Step(s, StartSweep(2)), PlanPool(2, "k", 100))
            == Scene(0, [7], FillPoint.Stored(8), Some(Sweeping([SHRINK, REMOVAL], [], None)), {7, 8}, {})
  {
    var s1 := Step(s, StartSweep(2));
    assert PlansFor("k", 0, s1.pools[0], 100, 1) == [SHRINK, REMOVAL];
    assert [] + [SHRINK, REMOVAL] == [SHRINK, REMOVAL];
  }

  lemma Shrunk(s: State)
    requires s == Scene(0, [7], FillPoint.Stored(8), Some(Sweeping([SHRINK, REMOVAL], [], None)), {7, 8}, {})
    ensures Step(Step(s, ScaleDown(2)), StopOne(2))
            == Scene(0, [], FillPoint.Stored(8), Some(Sweeping([REMOVAL], [], None)), {7, 8}, {7})
  {
    assert [SHRINK, REMOVAL][1..] == [REMOVAL] && [7][1..] == [] && [7][..1] == [7];
    var s1 := Step(s, ScaleDown(2));
    assert s1 == Scene(0, [], FillPoint.Stored(8), Some(Sweeping([REMOVAL], [7], None)), {7, 8}, {});
  }

  lemma AfterPrelude()
    ensures Run(START, Prelude())
            == Scene(0, [], FillPoint.Stored(8), Some(Sweeping([REMOVAL], [], None)), {7, 8}, {7})
  {
    var made := [EnsurePool(0, "k", 2, 0, 0)];
    var sweep := [EnsurePool(1, "k", 0, 0, 1), FillCheck(1), StartSweep(2), PlanPool(2, "k", 100)];
    PoolIsMade();
    AfterOneDrone([], 7, {});
    FirstCommit();
    AfterOneDrone([7], 8, {7});
    assert {} + {7} == {7} && {7} + {8} == {7, 8};
    RunTwice(START, made, OneDrone(7));
    RunTwice(START, made + OneDrone(7), [FillCommit(0)]);
    RunTwice(START, made + OneDrone(7) + [FillCommit(0)], OneDrone(8));
    var s := Scene(2, [7], FillPoint.Stored(8), None, {7, 8}, {});
    var begun := made + OneDrone(7) + [FillCommit(0)] + OneDrone(8);
    RunTwice(START, begun, sweep);
    SweepFrom(s);
    RunTwice(START, begun + sweep, [ScaleDown(2), StopOne(2)]);
  }

  lemma SweepFrom(s: State)
    requires s == Scene(2, [7], FillPoint.Stored(8), None, {7, 8}, {})
    ensures var planned := Run(s, [EnsurePool(1, "k", 0, 0, 1), FillCheck(1), StartSweep(2), PlanPool(2, "k", 100)]);
            Run(planned, [ScaleDown(2), StopOne(2)])
            == Scene(0, [], FillPoint.Stored(8), Some(Sweeping([REMOVAL], [], None)), {7, 8}, {7})
  {
    RunOfFour(s, EnsurePool(1, "k", 0, 0, 1), FillCheck(1), StartSweep(2), PlanPool(2, "k", 100));
    MinimumDropped(s);
    var dropped := Scene(0, [7], FillPoint.Stored(8), None, {7, 8}, {});
    Planned(dropped);
    var planned := Scene(0, [7], FillPoint.Stored(8), Some(Sweeping([SHRINK, REMOVAL], [], None)), {7, 8}, {});
    Shrunk(planned);
    RunOfTwo(planned, ScaleDown(2), StopOne(2));
  }

  /** The second drone in a pool that no key leads to and nobody holds. */
  function Lost(): State {
    Scene(0, [8], LoopTop, Some(Sweeping([], [], None)), {7, 8}, {7}).(index := map[])
  }

  lemma LostForGood()
    ensures StaysForever(Lost(), 0, 8)
  {
    var threads := Lost().threads;
    ClaimsWithout(threads, 0, 0);
    ClaimsWithout(threads - {0}, 0, 2);
    assert threads - {0} - {2} == map[];
    DroneIsLostExactlyWhen(Lost(), 0, 0);
  }

  lemma Committed(sweeper: Thread)
    ensures Step(Scene(0, [], FillPoint.Stored(8), Some(sweeper), {7, 8}, {7}), FillCommit(0))
            == Scene(0, [8], LoopTop, Some(sweeper), {7, 8}, {7})
  {
    assert [] + [8] == [8];
  }

  lemma KeyForgotten()
    ensures Step(Scene(0, [8], LoopTop, Some(Sweeping([], [], Some("k"))), {7, 8}, {7}), ForgetPool(2)) == Lost()
  {
    assert map["k" := 0] - {"k"} == map[];
  }

  lemma RemovalCancelled(s: State)
    requires s == Scene(0, [8], LoopTop, Some(Sweeping([REMOVAL], [], None)), {7, 8}, {7})
    ensures Step(s, CancelCut(2)) == Scene(0, [8], LoopTop, Some(Sweeping([], [], Some("k"))), {7, 8}, {7})
  {}

  /** The second drone is committed, the removal is cancelled on entry to its cut, and the key is forgotten. */
  lemma CancelledRemovalHappens()
    ensures Run(START, Prelude() + [FillCommit(0), CancelCut(2), ForgetPool(2)]) == Lost()
    ensures 8 in Lost().launched && 8 !in Lost().stopped && StaysForever(Lost(), 0, 8)
  {
    var sweeper := Sweeping([REMOVAL], [], None);
    var s := Scene(0, [], FillPoint.Stored(8), Some(sweeper), {7, 8}, {7});
    AfterPrelude();
    RunTwice(START, Prelude(), [FillCommit(0), CancelCut(2), ForgetPool(2)]);
    RunOfThree(s, FillCommit(0), CancelCut(2), ForgetPool(2));
    Committed(sweeper);
    RemovalCancelled(Scene(0, [8], LoopTop, Some(sweeper), {7, 8}, {7}));
    KeyForgotten();
    LostForGood();
  }

  /** Nothing is cancelled, but the filler commits between the removal's cut and its forgetting the key. */
  lemma FillerRaceHappens()
    ensures Run(START, Prelude() + [ScaleDown(2), FillCommit(0), ForgetPool(2)]) == Lost()
    ensures 8 in Lost().launched && 8 !in Lost().stopped && StaysForever(Lost(), 0, 8)
  {
    var sweeper := Sweeping([REMOVAL], [], None);
    var s := Scene(0, [], FillPoint.Stored(8), Some(sweeper), {7, 8}, {7});
    AfterPrelude();
    RunTwice(START, Prelude(), [ScaleDown(2), FillCommit(0), ForgetPool(2)]);
    RunOfThree(s, ScaleDown(2), FillCommit(0), ForgetPool(2));
    NothingToCut(s);
    Committed(Sweeping([], [], Some("k")));
    KeyForgotten();
    LostForGood();
  }

  lemma NothingToCut(s: State)
    requires s == Scene(0, [], FillPoint.Stored(8), Some(Sweeping([REMOVAL], [], None)), {7, 8}, {7})
    ensures Step(s, ScaleDown(2)) == Scene(0, [], FillPoint.Stored(8), Some(Sweeping([], [], Some("k"))), {7, 8}, {7})
  {
    assert [REMOVAL][1..] == [] && s.pools[0].drones[..0] == [] && s.pools[0].drones[0..] == [];
  }
}
