/** Warm pools shared by concurrent fillers, borrowers, returners and the idle sweeper
    (internal/warmpool/manager.go). Locks are dropped around scheduling, launching and storing, so the model is a
    state machine with one step per lock region or outside call, taken by any number of threads in any order. */
module WarmPools {
  import opened Arithmetic
  import opened Wrappers

  type Time = int
  type ProcessID = nat
  type PoolID = nat   // a pool object; it may outlive its entry in the manager's map
  type ThreadID = nat

  /** `peak` is the largest minimum size ever requested for the pool. */
  datatype Pool = Pool(minSize: int, currentSize: int, drones: seq<ProcessID>, lastUsed: Time, peak: int)

  // ----- What one lock region does to a pool -----

  function NewPool(minSize: int, now: Time): Pool {
    Pool(minSize, 0, [], now, minSize)
  }

  function Request(p: Pool, minSize: int, now: Time): Pool {
    p.(minSize := minSize, lastUsed := now, peak := Max(p.peak, minSize))
  }

  function Holding(p: Pool, drones: seq<ProcessID>): Pool {
    p.(drones := drones, currentSize := |drones|)
  }

  /** The filler's commit and the returner's commit, which also marks the pool as used. */
  function Add(p: Pool, drone: ProcessID): Pool {
    Holding(p, p.drones + [drone])
  }

  function Return(p: Pool, drone: ProcessID, now: Time): Pool {
    if p.currentSize < p.minSize then Add(p, drone).(lastUsed := now) else p
  }

  function TakeFirst(p: Pool, now: Time): Pool
    requires p.drones != []
  {
    Holding(p, p.drones[1..]).(lastUsed := now)
  }

  function CutSize(p: Pool, count: nat): nat {
    if count > |p.drones| then |p.drones| else count
  }

  function Cut(p: Pool, count: nat): Pool {
    Holding(p, p.drones[CutSize(p, count)..])
  }

  // ----- The threads -----

  datatype FillPoint = LoopTop | Checked | Rechecked | Launched(drone: ProcessID) | Stored(drone: ProcessID)

  /** One pool the sweeper has decided to shrink, and possibly to forget. */
  datatype Plan = Plan(key: string, pool: PoolID, count: nat, remove: bool)

  datatype Thread =
    | Filling(pool: PoolID, minSize: int, at: FillPoint)
    | Borrowing(pool: PoolID)
    | Returning(pool: PoolID, drone: ProcessID)
    | Sweeping(plans: seq<Plan>, pending: seq<ProcessID>, forget: Option<string>)

  datatype State = State(
    pools: map<PoolID, Pool>,
    index: map<string, PoolID>,
    threads: map<ThreadID, Thread>,
    launched: set<ProcessID>,  // every process ever launched for a pool
    handedOut: set<ProcessID>,
    abandoned: set<ProcessID>, // running, but no longer known to pool, caller or sweeper
    stopped: set<ProcessID>,
    idleTimeout: Time)

  datatype Event =
    | EnsurePool(t: ThreadID, key: string, minSize: int, now: Time, newPool: PoolID)
    | MaintainPool(t: ThreadID, pool: PoolID)
    | FillCheck(t: ThreadID)
    | FillLaunch(t: ThreadID, scheduled: bool, process: Option<ProcessID>)
    | FillStore(t: ThreadID, created: bool)
    | FillCommit(t: ThreadID)
    | FillCancel(t: ThreadID)
    | BorrowLookup(t: ThreadID, key: string)
    | Borrow(t: ThreadID, now: Time, running: bool)
    | ReturnLookup(t: ThreadID, key: string, drone: ProcessID)
    | FinishReturn(t: ThreadID, now: Time, running: bool)
    | StartSweep(t: ThreadID)
    | PlanPool(t: ThreadID, key: string, now: Time)
    | ScaleDown(t: ThreadID)
    | StopOne(t: ThreadID)
    | CancelCut(t: ThreadID)
    | CancelSweep(t: ThreadID)
    | ForgetPool(t: ThreadID)
    | EndSweep(t: ThreadID)

  function Go(s: State, t: ThreadID, thread: Thread): State {
    s.(threads := s.threads[t := thread])
  }

  function End(s: State, t: ThreadID): State {
    s.(threads := s.threads - {t})
  }

  function SetPool(s: State, q: PoolID, p: Pool): State {
    s.(pools := s.pools[q := p])
  }

  predicate Free(s: State, t: ThreadID) {
    t !in s.threads
  }

  predicate IsFilling(s: State, t: ThreadID) {
    t in s.threads && s.threads[t].Filling? && s.threads[t].pool in s.pools
  }

  predicate IsSweeping(s: State, t: ThreadID) {
    t in s.threads && s.threads[t].Sweeping?
  }

  predicate CanScaleDown(s: State, t: ThreadID) {
    && IsSweeping(s, t) && s.threads[t].plans != [] && s.threads[t].pending == [] && s.threads[t].forget == None
    && s.threads[t].plans[0].pool in s.pools
  }

  /** cleanupIdlePools' verdict on one pool: shrink it when idle and above its minimum, empty and forget it when
      idle twice as long with no minimum. */
  function PlansFor(key: string, q: PoolID, p: Pool, now: Time, idleTimeout: Time): seq<Plan> {
    var idle := now - p.lastUsed;
    (if idle > idleTimeout && p.currentSize > p.minSize then [Plan(key, q, p.currentSize - p.minSize, false)] else [])
    + (if idle > idleTimeout * 2 && p.minSize == 0 && p.currentSize >= 0 then [Plan(key, q, p.currentSize, true)]
       else [])
  }

  /** A step that its thread is not ready for changes nothing. */
  function Step(s: State, e: Event): State {
    match e
    case EnsurePool(t, key, minSize, now, q) =>
      if !Free(s, t) || q in s.pools then s
      else if key in s.index then
        if s.index[key] !in s.pools then s
        else
          Go(SetPool(s, s.index[key], Request(s.pools[s.index[key]], minSize, now)), t,
             Filling(s.index[key], minSize, LoopTop))
      else
        Go(SetPool(s, q, NewPool(minSize, now)).(index := s.index[key := q]), t, Filling(q, minSize, LoopTop))
    case MaintainPool(t, q) =>
      if !Free(s, t) || q !in s.pools || s.pools[q].currentSize >= s.pools[q].minSize then s
      else Go(s, t, Filling(q, s.pools[q].minSize, LoopTop))
    case FillCheck(t) =>
      if !IsFilling(s, t) || !(s.threads[t].at.LoopTop? || s.threads[t].at.Checked?) then s
      else if s.pools[s.threads[t].pool].currentSize >= s.threads[t].minSize then End(s, t)
      else Go(s, t, s.threads[t].(at := if s.threads[t].at.LoopTop? then Checked else Rechecked))
    case FillLaunch(t, scheduled, process) =>
      if !IsFilling(s, t) || s.threads[t].at != Rechecked then s
      else if !scheduled || process == None then End(s, t)
      else if process.value in s.launched then s // the launcher never reuses an ID
      else Go(s, t, s.threads[t].(at := Launched(process.value))).(launched := s.launched + {process.value})
    case FillStore(t, created) =>
      if !IsFilling(s, t) || !s.threads[t].at.Launched? then s
      else if created then Go(s, t, s.threads[t].(at := Stored(s.threads[t].at.drone)))
      else End(s, t).(stopped := s.stopped + {s.threads[t].at.drone})
    case FillCommit(t) =>
      if !IsFilling(s, t) || !s.threads[t].at.Stored? then s
      else
        var thread := s.threads[t];
        var p := s.pools[thread.pool];
        if p.currentSize < thread.minSize
        then Go(SetPool(s, thread.pool, Add(p, thread.at.drone)), t, thread.(at := LoopTop))
        else End(s, t).(stopped := s.stopped + {thread.at.drone})
    case FillCancel(t) =>
      if !IsFilling(s, t) || !(s.threads[t].at.LoopTop? || s.threads[t].at.Checked?) then s else End(s, t)
    case BorrowLookup(t, key) =>
      if !Free(s, t) || key !in s.index then s else Go(s, t, Borrowing(s.index[key]))
    case Borrow(t, now, running) =>
      if t !in s.threads || !s.threads[t].Borrowing? || s.threads[t].pool !in s.pools then s
      else if s.pools[s.threads[t].pool].drones == [] then End(s, t)
      else
        var q := s.threads[t].pool;
        var drone := s.pools[q].drones[0];
        var s' := End(SetPool(s, q, TakeFirst(s.pools[q], now)), t);
        if running then s'.(handedOut := s.handedOut + {drone}) else s'.(abandoned := s.abandoned + {drone})
    case ReturnLookup(t, key, drone) =>
      if !Free(s, t) || key !in s.index || drone !in s.handedOut then s
      else Go(s, t, Returning(s.index[key], drone)).(handedOut := s.handedOut - {drone})
    case FinishReturn(t, now, running) =>
      if t !in s.threads || !s.threads[t].Returning? || s.threads[t].pool !in s.pools then s
      else
        var q, drone := s.threads[t].pool, s.threads[t].drone;
        if running && s.pools[q].currentSize < s.pools[q].minSize
        then End(SetPool(s, q, Return(s.pools[q], drone, now)), t)
        else End(s, t).(handedOut := s.handedOut + {drone})
    case StartSweep(t) => if !Free(s, t) then s else Go(s, t, Sweeping([], [], None))
    case PlanPool(t, key, now) =>
      if !IsSweeping(s, t) || key !in s.index || s.index[key] !in s.pools then s
      else
        Go(s, t, s.threads[t].(plans := s.threads[t].plans
                                        + PlansFor(key, s.index[key], s.pools[s.index[key]], now, s.idleTimeout)))
    case ScaleDown(t) =>
      if !CanScaleDown(s, t) then s
      else
        var plan := s.threads[t].plans[0];
        var p := s.pools[plan.pool];
        Go(SetPool(s, plan.pool, Cut(p, plan.count)), t,
           Sweeping(s.threads[t].plans[1..], p.drones[..CutSize(p, plan.count)],
                    if plan.remove then Some(plan.key) else None))
    case StopOne(t) =>
      if !IsSweeping(s, t) || s.threads[t].pending == [] then s
      else
        Go(s, t, s.threads[t].(pending := s.threads[t].pending[1..])).(stopped := s.stopped + {s.threads[t].pending[0]})
    case CancelCut(t) => // cancelled on entry to scaleDownPool: nothing is cut, but the pool is still forgotten
      if !CanScaleDown(s, t) then s
      else
        var plan := s.threads[t].plans[0];
        Go(s, t, Sweeping([], [], if plan.remove then Some(plan.key) else None))
    case CancelSweep(t) =>
      if !IsSweeping(s, t) then s
      else
        Go(s, t, s.threads[t].(plans := [], pending := []))
        .(abandoned := s.abandoned + set d | d in s.threads[t].pending)
    case ForgetPool(t) =>
      if !IsSweeping(s, t) || s.threads[t].pending != [] || s.threads[t].forget == None then s
      else Go(s, t, s.threads[t].(forget := None)).(index := s.index - {s.threads[t].forget.value})
    case EndSweep(t) =>
      if !IsSweeping(s, t) || s.threads[t].plans != [] || s.threads[t].pending != [] || s.threads[t].forget.Some? then s
      else End(s, t)
  }

  // ----- Where each process is -----

  datatype Place =
    | InFlight(t: ThreadID)   // launched by a filler that has not committed it yet
    | Pooled(q: PoolID)
    | HandedOut
    | BeingReturned(t: ThreadID)
    | BeingStopped(t: ThreadID)
    | Abandoned
    | Stopped

  /** Process d is found at this place. */
  predicate At(s: State, d: ProcessID, place: Place) {
    match place
    case InFlight(t) =>
      t in s.threads && s.threads[t].Filling?
      && (s.threads[t].at == Launched(d) || s.threads[t].at == FillPoint.Stored(d))
    case Pooled(q) => q in s.pools && d in s.pools[q].drones
    case HandedOut => d in s.handedOut
    case BeingReturned(t) => t in s.threads && s.threads[t].Returning? && s.threads[t].drone == d
    case BeingStopped(t) => t in s.threads && s.threads[t].Sweeping? && d in s.threads[t].pending
    case Abandoned => d in s.abandoned
    case Stopped => d in s.stopped
  }

  type Places = map<ProcessID, Place>

  /** `where` gives every launched process its one and only place. */
  ghost predicate Located(s: State, where: Places) {
    && where.Keys == s.launched
    && forall d, place :: At(s, d, place) <==> d in where && where[d] == place
  }

  predicate NoDuplicates(drones: seq<ProcessID>) {
    forall i, j | 0 <= i < j < |drones| :: drones[i] != drones[j]
  }

  /** The recorded size is the real one and within the largest minimum ever asked for. */
  predicate PoolSound(p: Pool) {
    && NoDuplicates(p.drones)
    && p.currentSize == |p.drones| <= Max(0, p.peak)
    && p.minSize <= p.peak
  }

  predicate ThreadSound(s: State, thread: Thread) {
    match thread
    case Filling(q, minSize, _) => q in s.pools && minSize <= s.pools[q].peak
    case Sweeping(_, pending, _) => NoDuplicates(pending)
    case _ => true
  }

  ghost predicate Sound(s: State) {
    && (forall q | q in s.pools :: PoolSound(s.pools[q]))
    && (forall t | t in s.threads :: ThreadSound(s, s.threads[t]))
  }

  /** The life of a process, one move at a time. */
  predicate MayMove(from: Place, to: Place) {
    match from
    case InFlight(_) => to.Pooled? || to == Stopped
    case Pooled(_) => to == HandedOut || to == Abandoned || to.BeingStopped?
    case HandedOut => to.BeingReturned?
    case BeingReturned(_) => to.Pooled? || to == HandedOut
    case BeingStopped(_) => to == Stopped || to == Abandoned
    case Abandoned => false
    case Stopped => false
  }

  /** Every process stays where it was or makes one allowed move; new ones start in flight. */
  ghost predicate Moves(where: Places, where': Places) {
    && (forall d | d in where :: d in where' && (where'[d] == where[d] || MayMove(where[d], where'[d])))
    && (forall d | d in where' && d !in where :: where'[d].InFlight?)
  }

  /** Moving one process (or launching it) while every other stays put. */
  lemma Relocate(s: State, s': State, where: Places, d: ProcessID, to: Place)
    requires Located(s, where) && s'.launched == s.launched + {d}
    requires forall x, place | x != d :: At(s', x, place) <==> At(s, x, place)
    requires At(s', d, to)
    requires forall place | place != to && At(s', d, place) :: At(s, d, place)
    requires d in where && where[d] != to ==> !At(s', d, where[d])
    ensures Located(s', where[d := to])
  {}

  lemma SamePlaces(s: State, s': State, where: Places)
    requires Located(s, where) && s'.launched == s.launched
    requires forall d, place :: At(s', d, place) <==> At(s, d, place)
    ensures Located(s', where)
  {}

  /** Steps that move no process. */
  predicate IsIdleStep(e: Event) {
    e.EnsurePool? || e.MaintainPool? || e.FillCheck? || e.FillCancel? || e.BorrowLookup? || e.StartSweep?
    || e.PlanPool? || e.CancelCut? || e.ForgetPool? || e.EndSweep?
  }

  lemma IdleStepKeepsPlaces(s: State, where: Places, e: Event)
    requires Located(s, where) && IsIdleStep(e)
    ensures Located(Step(s, e), where)
  {
    match e
    case EnsurePool(t, key, minSize, now, q) => EnsureKeepsPlaces(s, where, e);
    case PlanPool(_, _, _) => SweepKeepsPlaces(s, where, e);
    case CancelCut(_) => SweepKeepsPlaces(s, where, e);
    case ForgetPool(_) => SweepKeepsPlaces(s, where, e);
    case EndSweep(_) => SweepKeepsPlaces(s, where, e);
    case _ => SamePlaces(s, Step(s, e), where);
  }

  lemma EnsureKeepsPlaces(s: State, where: Places, e: Event)
    requires Located(s, where) && e.EnsurePool?
    ensures Located(Step(s, e), where)
  {
    SamePlaces(s, Step(s, e), where);
  }

  lemma SweepKeepsPlaces(s: State, where: Places, e: Event)
    requires Located(s, where) && (e.PlanPool? || e.CancelCut? || e.ForgetPool? || e.EndSweep?)
    ensures Located(Step(s, e), where)
  {
    SamePlaces(s, Step(s, e), where);
  }

  /** A launched process is in flight in its filler. Storing its record leaves it there, or stops it when that fails. */
  lemma LaunchKeepsLocated(s: State, where: Places, e: Event) returns (where': Places)
    requires Located(s, where) && (e.FillLaunch? || e.FillStore?)
    ensures Located(Step(s, e), where') && Moves(where, where')
    ensures e.FillLaunch? ==>
              where' == if Step(s, e).launched == s.launched then where else where[e.process.value := InFlight(e.t)]
    ensures e.FillStore? ==>
              where' == if Step(s, e) == s || e.created then where else where[s.threads[e.t].at.drone := Stopped]
  {
    var s' := Step(s, e);
    where' := where;
    if e.FillLaunch? && s'.launched != s.launched {
      where' := where[e.process.value := InFlight(e.t)];
      Relocate(s, s', where, e.process.value, InFlight(e.t));
    } else if e.FillStore? && s' != s && !e.created {
      var d := s.threads[e.t].at.drone;
      assert At(s, d, InFlight(e.t));
      where' := where[d := Stopped];
      Relocate(s, s', where, d, Stopped);
    } else {
      SamePlaces(s, s', where);
    }
  }

  /** The commit puts the process into its pool, or stops it when the pool has meanwhile been filled. */
  lemma CommitKeepsLocated(s: State, where: Places, t: ThreadID) returns (where': Places)
    requires Located(s, where)
    ensures Located(Step(s, FillCommit(t)), where') && Moves(where, where')
    ensures if !IsFilling(s, t) || !s.threads[t].at.Stored? then where' == where
            else
              var q := s.threads[t].pool;
              where' == where[s.threads[t].at.drone :=
                                if s.pools[q].currentSize < s.threads[t].minSize then Pooled(q) else Stopped]
  {
    var s' := Step(s, FillCommit(t));
    where' := where;
    if IsFilling(s, t) && s.threads[t].at.Stored? {
      var thread := s.threads[t];
      var d := thread.at.drone;
      assert At(s, d, InFlight(t));
      var to := if s.pools[thread.pool].currentSize < thread.minSize then Pooled(thread.pool) else Stopped;
      where' := where[d := to];
      Relocate(s, s', where, d, to);
    }
  }

  predicate CanBorrow(s: State, t: ThreadID) {
    t in s.threads && s.threads[t].Borrowing? && s.threads[t].pool in s.pools
    && s.pools[s.threads[t].pool].drones != []
  }

  /** The head of the pool goes to the borrower, or is abandoned when it is not running. */
  lemma BorrowKeepsLocated(s: State, where: Places, t: ThreadID, now: Time, running: bool) returns (where': Places)
    requires Located(s, where) && Sound(s)
    ensures Located(Step(s, Borrow(t, now, running)), where') && Moves(where, where')
    ensures where' == if !CanBorrow(s, t) then where
                      else where[s.pools[s.threads[t].pool].drones[0] := if running then HandedOut else Abandoned]
  {
    var s' := Step(s, Borrow(t, now, running));
    where' := where;
    if CanBorrow(s, t) {
      var q := s.threads[t].pool;
      var d := s.pools[q].drones[0];
      var to := if running then HandedOut else Abandoned;
      where' := where[d := to];
      assert PoolSound(s.pools[q]);
      assert At(s, d, Pooled(q));
      HeadLeaves(s.pools[q].drones);
      Relocate(s, s', where, d, to);
    } else {
      SamePlaces(s, s', where);
    }
  }

  lemma HeadLeaves(drones: seq<ProcessID>)
    requires NoDuplicates(drones) && drones != []
    ensures drones[0] !in drones[1..]
    ensures forall x | x != drones[0] :: x in drones <==> x in drones[1..]
  {}

  predicate CanFinishReturn(s: State, t: ThreadID) {
    t in s.threads && s.threads[t].Returning? && s.threads[t].pool in s.pools
  }

  /** A returner takes its process out of the caller's hands, and puts it into the pool when that has room and
      the process runs, and back into the caller's hands otherwise. */
  lemma ReturnKeepsLocated(s: State, where: Places, e: Event) returns (where': Places)
    requires Located(s, where) && (e.ReturnLookup? || e.FinishReturn?)
    ensures Located(Step(s, e), where') && Moves(where, where')
    ensures e.ReturnLookup? ==> where' == if Step(s, e) == s then where else where[e.drone := BeingReturned(e.t)]
    ensures e.FinishReturn? ==>
              if !CanFinishReturn(s, e.t) then where' == where
              else
                var p := s.pools[s.threads[e.t].pool];
                var to := if e.running && p.currentSize < p.minSize then Pooled(s.threads[e.t].pool) else HandedOut;
                where' == where[s.threads[e.t].drone := to]
  {
    var s' := Step(s, e);
    where' := where;
    if e.ReturnLookup? {
      if s' != s {
        assert At(s, e.drone, HandedOut);
        where' := where[e.drone := BeingReturned(e.t)];
        Relocate(s, s', where, e.drone, BeingReturned(e.t));
      }
    } else if CanFinishReturn(s, e.t) {
      var q, d := s.threads[e.t].pool, s.threads[e.t].drone;
      assert At(s, d, BeingReturned(e.t));
      var to := if e.running && s.pools[q].currentSize < s.pools[q].minSize then Pooled(q) else HandedOut;
      where' := where[d := to];
      Relocate(s, s', where, d, to);
    }
  }

  /** The cut moves the first drones of the pool to the sweeper; every other place holds what it held. */
  lemma ScaleDownMoves(s: State, t: ThreadID, d: ProcessID, place: Place)
    requires Sound(s) && CanScaleDown(s, t)
    ensures var s', q := Step(s, ScaleDown(t)), s.threads[t].plans[0].pool;
            var moved := d in s.pools[q].drones[..CutSize(s.pools[q], s.threads[t].plans[0].count)];
            && s'.launched == s.launched
            && (moved ==> At(s, d, Pooled(q)))
            && (At(s', d, place) <==> if place == BeingStopped(t) then moved
                                      else if place == Pooled(q) then At(s, d, place) && !moved
                                      else At(s, d, place))
  {
    var q := s.threads[t].plans[0].pool;
    var drones := s.pools[q].drones;
    var n := CutSize(s.pools[q], s.threads[t].plans[0].count);
    assert PoolSound(s.pools[q]);
    assert drones == drones[..n] + drones[n..];
    assert d in drones[..n] ==> d !in drones[n..];
  }

  /** The drones a sweeper's next cut takes. */
  function NextCut(s: State, t: ThreadID): seq<ProcessID> {
    if !CanScaleDown(s, t) then []
    else
      var plan := s.threads[t].plans[0];
      s.pools[plan.pool].drones[..CutSize(s.pools[plan.pool], plan.count)]
  }

  /** The cut hands exactly the first drones of the pool to the sweeper. */
  lemma ScaleDownKeepsLocated(s: State, where: Places, t: ThreadID) returns (where': Places)
    requires Located(s, where) && Sound(s)
    ensures Located(Step(s, ScaleDown(t)), where') && Moves(where, where')
    ensures where' == map d | d in where :: if d in NextCut(s, t) then BeingStopped(t) else where[d]
  {
    var s' := Step(s, ScaleDown(t));
    where' := where;
    if CanScaleDown(s, t) {
      var q := s.threads[t].plans[0].pool;
      var cut := s.pools[q].drones[..CutSize(s.pools[q], s.threads[t].plans[0].count)];
      where' := map d | d in where :: if d in cut then BeingStopped(t) else where[d];
      assert forall d | d in cut :: At(s, d, Pooled(q));
      forall d, place
        ensures s'.launched == s.launched && (At(s', d, place) <==> d in where' && where'[d] == place)
      {
        ScaleDownMoves(s, t, d, place);
        assert At(s, d, place) <==> d in where && where[d] == place;
        assert At(s, d, Pooled(q)) <==> d in where && where[d] == Pooled(q);
        assert At(s, d, BeingStopped(t)) <==> d in where && where[d] == BeingStopped(t);
      }
      assert s'.launched == s.launched by { ScaleDownMoves(s, t, 0, Stopped); }
    } else {
      SamePlaces(s, s', where);
    }
  }

  predicate HasPending(s: State, t: ThreadID) {
    IsSweeping(s, t) && s.threads[t].pending != []
  }

  /** A stop finishes the sweeper's first process. */
  lemma StopKeepsLocated(s: State, where: Places, t: ThreadID) returns (where': Places)
    requires Located(s, where) && Sound(s)
    ensures Located(Step(s, StopOne(t)), where') && Moves(where, where')
    ensures where' == if HasPending(s, t) then where[s.threads[t].pending[0] := Stopped] else where
  {
    var s' := Step(s, StopOne(t));
    where' := where;
    if HasPending(s, t) {
      var pending := s.threads[t].pending;
      assert ThreadSound(s, s.threads[t]);
      assert At(s, pending[0], BeingStopped(t));
      HeadLeaves(pending);
      where' := where[pending[0] := Stopped];
      Relocate(s, s', where, pending[0], Stopped);
    }
  }

  /** A cancelled sweep abandons exactly the processes it had still to stop. */
  lemma CancelKeepsLocated(s: State, where: Places, t: ThreadID) returns (where': Places)
    requires Located(s, where)
    ensures Located(Step(s, CancelSweep(t)), where') && Moves(where, where')
    ensures where' == map d | d in where ::
                        if IsSweeping(s, t) && d in s.threads[t].pending then Abandoned else where[d]
  {
    var s' := Step(s, CancelSweep(t));
    where' := map d | d in where :: if IsSweeping(s, t) && d in s.threads[t].pending then Abandoned else where[d];
    if IsSweeping(s, t) {
      var pending := s.threads[t].pending;
      assert forall x | x in pending :: At(s, x, BeingStopped(t));
      forall d, place
        ensures At(s', d, place) <==> d in where' && where'[d] == place
      {
        assert At(s, d, place) <==> d in where && where[d] == place;
      }
    } else {
      assert where' == where;
    }
  }

  lemma StepKeepsLocated(s: State, where: Places, e: Event) returns (where': Places)
    requires Located(s, where) && Sound(s)
    ensures Located(Step(s, e), where') && Moves(where, where')
  {
    match e
    case FillLaunch(_, _, _) => where' := LaunchKeepsLocated(s, where, e);
    case FillStore(_, _) => where' := LaunchKeepsLocated(s, where, e);
    case FillCommit(t) => where' := CommitKeepsLocated(s, where, t);
    case Borrow(t, now, running) => where' := BorrowKeepsLocated(s, where, t, now, running);
    case ReturnLookup(_, _, _) => where' := ReturnKeepsLocated(s, where, e);
    case FinishReturn(_, _, _) => where' := ReturnKeepsLocated(s, where, e);
    case ScaleDown(t) => where' := ScaleDownKeepsLocated(s, where, t);
    case StopOne(t) => where' := StopKeepsLocated(s, where, t);
    case CancelSweep(t) => where' := CancelKeepsLocated(s, where, t);
    case _ =>
      IdleStepKeepsPlaces(s, where, e);
      where' := where;
  }

  // ----- Sizes -----

  lemma AddIsSound(p: Pool, drone: ProcessID, minSize: int)
    requires PoolSound(p) && drone !in p.drones && p.currentSize < minSize <= p.peak
    ensures PoolSound(Add(p, drone))
  {}

  lemma CutIsSound(p: Pool, count: nat)
    requires PoolSound(p)
    ensures PoolSound(Cut(p, count)) && NoDuplicates(p.drones[..CutSize(p, count)])
  {}

  /** A pool is replaced by a sound one with no smaller peak; threads that were sound stay so. */
  lemma ReplacePool(s: State, q: PoolID, p: Pool)
    requires Sound(s) && PoolSound(p) && (q in s.pools ==> s.pools[q].peak <= p.peak)
    ensures Sound(SetPool(s, q, p))
  {
    var s' := SetPool(s, q, p);
    forall t | t in s.threads
      ensures ThreadSound(s', s.threads[t])
    {
      assert ThreadSound(s, s.threads[t]);
    }
  }

  lemma SwitchThread(s: State, t: ThreadID, thread: Thread)
    requires Sound(s) && ThreadSound(s, thread)
    ensures Sound(Go(s, t, thread)) && Sound(End(s, t))
  {
    forall u, th | th == thread || (u in s.threads && th == s.threads[u])
      ensures ThreadSound(Go(s, t, thread), th) && ThreadSound(End(s, t), th)
    {
      if u in s.threads && th == s.threads[u] {
        assert ThreadSound(s, s.threads[u]);
      }
    }
  }

  /** A process a thread is about to put into a pool is in no pool yet. */
  lemma NotPooledYet(s: State, where: Places, t: ThreadID, q: PoolID)
    requires Located(s, where) && t in s.threads && q in s.pools
    ensures s.threads[t].Filling? && s.threads[t].at.Stored? ==> s.threads[t].at.drone !in s.pools[q].drones
    ensures s.threads[t].Returning? ==> s.threads[t].drone !in s.pools[q].drones
  {
    if s.threads[t].Filling? && s.threads[t].at.Stored? {
      var d := s.threads[t].at.drone;
      assert At(s, d, InFlight(t)) && (At(s, d, Pooled(q)) <==> d in s.pools[q].drones);
    }
    if s.threads[t].Returning? {
      var d := s.threads[t].drone;
      assert At(s, d, BeingReturned(t)) && (At(s, d, Pooled(q)) <==> d in s.pools[q].drones);
    }
  }

  lemma StepKeepsSound(s: State, where: Places, e: Event)
    requires Located(s, where) && Sound(s)
    ensures Sound(Step(s, e))
  {
    match e
    case EnsurePool(t, key, minSize, now, q) => EnsureKeepsSound(s, t, key, minSize, now, q);
    case MaintainPool(t, q) =>
      if q in s.pools {
        SwitchThread(s, t, Filling(q, s.pools[q].minSize, LoopTop));
      }
    case FillCheck(t) => FillerKeepsSound(s, where, e, t);
    case FillLaunch(t, _, _) => FillerKeepsSound(s, where, e, t);
    case FillStore(t, _) => FillerKeepsSound(s, where, e, t);
    case FillCommit(t) => FillerKeepsSound(s, where, e, t);
    case FillCancel(t) => FillerKeepsSound(s, where, e, t);
    case BorrowLookup(t, key) =>
      if key in s.index {
        SwitchThread(s, t, Borrowing(s.index[key]));
      }
    case Borrow(t, now, running) => BorrowKeepsSound(s, t, now, running);
    case ReturnLookup(t, key, drone) =>
      if key in s.index {
        SwitchThread(s, t, Returning(s.index[key], drone));
      }
    case FinishReturn(t, now, running) => ReturnKeepsSound(s, where, t, now, running);
    case _ => SweeperKeepsSound(s, e);
  }

  lemma EnsureKeepsSound(s: State, t: ThreadID, key: string, minSize: int, now: Time, q: PoolID)
    requires Sound(s)
    ensures Sound(Step(s, EnsurePool(t, key, minSize, now, q)))
  {
    if key in s.index {
      if s.index[key] in s.pools {
        var p := Request(s.pools[s.index[key]], minSize, now);
        ReplacePool(s, s.index[key], p);
        SwitchThread(SetPool(s, s.index[key], p), t, Filling(s.index[key], minSize, LoopTop));
      }
    } else if q !in s.pools {
      ReplacePool(s, q, NewPool(minSize, now));
      SwitchThread(SetPool(s, q, NewPool(minSize, now)), t, Filling(q, minSize, LoopTop));
    }
  }

  lemma FillerKeepsSound(s: State, where: Places, e: Event, t: ThreadID)
    requires Located(s, where) && Sound(s)
    requires e == FillCheck(t) || e == FillCommit(t) || e == FillCancel(t)
             || (e.FillLaunch? && e.t == t) || (e.FillStore? && e.t == t)
    ensures Sound(Step(s, e))
  {
    if IsFilling(s, t) {
      var thread := s.threads[t];
      var q := thread.pool;
      var p := s.pools[q];
      assert ThreadSound(s, thread) && PoolSound(p);
      if e.FillCommit? && thread.at.Stored? && p.currentSize < thread.minSize {
        NotPooledYet(s, where, t, q);
        AddIsSound(p, thread.at.drone, thread.minSize);
        ReplacePool(s, q, Add(p, thread.at.drone));
        SwitchThread(SetPool(s, q, Add(p, thread.at.drone)), t, thread.(at := LoopTop));
      } else {
        SwitchThread(s, t, if e.FillCheck? then thread.(at := if thread.at.LoopTop? then Checked else Rechecked)
                           else if e.FillLaunch? && e.process.Some? then thread.(at := Launched(e.process.value))
                           else if e.FillStore? && thread.at.Launched?
                           then thread.(at := FillPoint.Stored(thread.at.drone))
                           else thread);
      }
    }
  }

  lemma BorrowKeepsSound(s: State, t: ThreadID, now: Time, running: bool)
    requires Sound(s)
    ensures Sound(Step(s, Borrow(t, now, running)))
  {
    if t in s.threads && s.threads[t].Borrowing? && s.threads[t].pool in s.pools {
      var q := s.threads[t].pool;
      assert PoolSound(s.pools[q]);
      if s.pools[q].drones == [] {
        SwitchThread(s, t, s.threads[t]);
      } else {
        ReplacePool(s, q, TakeFirst(s.pools[q], now));
        SwitchThread(SetPool(s, q, TakeFirst(s.pools[q], now)), t, s.threads[t]);
      }
    }
  }

  lemma ReturnKeepsSound(s: State, where: Places, t: ThreadID, now: Time, running: bool)
    requires Located(s, where) && Sound(s)
    ensures Sound(Step(s, FinishReturn(t, now, running)))
  {
    if t in s.threads && s.threads[t].Returning? && s.threads[t].pool in s.pools {
      var q, drone := s.threads[t].pool, s.threads[t].drone;
      var p := s.pools[q];
      assert PoolSound(p);
      if running && p.currentSize < p.minSize {
        NotPooledYet(s, where, t, q);
        AddIsSound(p, drone, p.minSize);
        ReplacePool(s, q, Return(p, drone, now));
        SwitchThread(SetPool(s, q, Return(p, drone, now)), t, s.threads[t]);
      } else {
        SwitchThread(s, t, s.threads[t]);
      }
    }
  }

  lemma ScaleDownKeepsSound(s: State, t: ThreadID)
    requires Sound(s)
    ensures Sound(Step(s, ScaleDown(t)))
  {
    if CanScaleDown(s, t) {
      var plan := s.threads[t].plans[0];
      var p := s.pools[plan.pool];
      CutIsSound(p, plan.count) by { assert PoolSound(p); }
      ReplacePool(s, plan.pool, Cut(p, plan.count));
      SwitchThread(SetPool(s, plan.pool, Cut(p, plan.count)), t,
                   Sweeping(s.threads[t].plans[1..], p.drones[..CutSize(p, plan.count)],
                            if plan.remove then Some(plan.key) else None));
    }
  }

  /** The other steps of a sweeper change no pool, and take nothing on to stop. */
  lemma SweeperSwitches(s: State, e: Event)
    requires IsSweeping(s, e.t) && Sound(s)
    requires e.PlanPool? || e.StopOne? || e.CancelCut? || e.CancelSweep? || e.ForgetPool? || e.EndSweep?
    ensures var s' := Step(s, e);
            && s'.pools == s.pools && s'.threads - {e.t} == s.threads - {e.t}
            && (e.t in s'.threads ==>
                  s'.threads[e.t].Sweeping? && NoDuplicates(s'.threads[e.t].pending))
  {
    assert ThreadSound(s, s.threads[e.t]);
  }

  lemma SweeperKeepsSound(s: State, e: Event)
    requires Sound(s)
    requires e.StartSweep? || e.PlanPool? || e.ScaleDown? || e.StopOne? || e.CancelCut? || e.CancelSweep?
             || e.ForgetPool? || e.EndSweep?
    ensures Sound(Step(s, e))
  {
    if e.StartSweep? {
      SwitchThread(s, e.t, Sweeping([], [], None));
    } else if e.ScaleDown? {
      ScaleDownKeepsSound(s, e.t);
    } else if IsSweeping(s, e.t) {
      var s' := Step(s, e);
      SweeperSwitches(s, e);
      forall t | t in s'.threads ensures ThreadSound(s', s'.threads[t]) {
        if t != e.t {
          assert t in s'.threads - {e.t} && s'.threads[t] == s.threads[t];
          assert ThreadSound(s, s.threads[t]);
        }
      }
    }
  }

  // ----- Runs -----

  const EMPTY := State(map[], map[], map[], {}, {}, {}, {}, 0)

  function Run(s: State, events: seq<Event>): State
    decreases |events|
  {
    if events == [] then s else Run(Step(s, events[0]), events[1..])
  }

  /** For any number of threads and every interleaving of their steps: each launched process is at exactly one place,
      every recorded pool size is the real one, and no pool exceeds the largest minimum ever requested for it. */
  lemma {:induction false} EveryProcessHasOnePlace(s: State, where: Places, events: seq<Event>) returns (where': Places)
    requires Located(s, where) && Sound(s)
    ensures Located(Run(s, events), where') && Sound(Run(s, events))
    decreases |events|
  {
    where' := where;
    if events != [] {
      StepKeepsSound(s, where, events[0]);
      where' := StepKeepsLocated(s, where, events[0]);
      where' := EveryProcessHasOnePlace(Step(s, events[0]), where', events[1..]);
    }
  }

  /** Over every run: from one step to the next each process stays where it is or makes one allowed move, so a process
      that was pooled can only have been in flight or handed back before, a stopped one never returns, and so on. */
  lemma {:induction false} EveryMoveIsAllowed(s: State, where: Places, events: seq<Event>) returns (trace: seq<Places>)
    requires Located(s, where) && Sound(s)
    ensures |trace| == |events| + 1 && trace[0] == where
    ensures forall i | 0 <= i <= |events| :: Located(Run(s, events[..i]), trace[i])
    ensures forall i | 0 <= i < |events| :: Moves(trace[i], trace[i + 1])
    decreases |events|
  {
    trace := [where];
    if events != [] {
      StepKeepsSound(s, where, events[0]);
      var next := StepKeepsLocated(s, where, events[0]);
      var rest := EveryMoveIsAllowed(Step(s, events[0]), next, events[1..]);
      trace := [where] + rest;
      forall i | 0 <= i <= |events| ensures Located(Run(s, events[..i]), trace[i]) {
        if i > 0 {
          assert events[..i][1..] == events[1..][..i - 1];
        }
      }
    }
  }

  /** Stopping and abandoning are final, whatever happens afterwards. */
  lemma {:induction false} FatesAreFinal(s: State, events: seq<Event>)
    ensures s.stopped <= Run(s, events).stopped
    ensures s.abandoned <= Run(s, events).abandoned
    ensures s.launched <= Run(s, events).launched
    decreases |events|
  {
    if events != [] {
      StepKeepsFates(s, events[0]);
      FatesAreFinal(Step(s, events[0]), events[1..]);
    }
  }

  lemma StepKeepsFates(s: State, e: Event)
    ensures var s' := Step(s, e); s.stopped <= s'.stopped && s.abandoned <= s'.abandoned && s.launched <= s'.launched
  {}

  lemma InitialIsLocated(idleTimeout: Time)
    ensures Located(EMPTY.(idleTimeout := idleTimeout), map[]) && Sound(EMPTY.(idleTimeout := idleTimeout))
  {}

  /** What that means for callers: a process in a pool has not been stopped by the manager, is not in anyone's hands
      and is in no second pool; nobody holds a stopped process; and all of them were really launched. */
  lemma NoDroneIsSharedOrStopped(idleTimeout: Time, events: seq<Event>, d: ProcessID)
    ensures var s := Run(EMPTY.(idleTimeout := idleTimeout), events);
            && (forall q | q in s.pools && d in s.pools[q].drones ::
                  && d in s.launched && d !in s.stopped && d !in s.handedOut && d !in s.abandoned
                  && NoDuplicates(s.pools[q].drones)
                  && forall q' | q' in s.pools && d in s.pools[q'].drones :: q' == q)
            && (d in s.handedOut ==> d in s.launched && d !in s.stopped && d !in s.abandoned)
            && (d in s.launched ==> exists place :: At(s, d, place))
  {
    InitialIsLocated(idleTimeout);
    var where := EveryProcessHasOnePlace(EMPTY.(idleTimeout := idleTimeout), map[], events);
    OnePlaceMeansUnshared(Run(EMPTY.(idleTimeout := idleTimeout), events), where, d);
  }

  lemma OnePlaceMeansUnshared(s: State, where: Places, d: ProcessID)
    requires Located(s, where) && Sound(s)
    ensures forall q | q in s.pools && d in s.pools[q].drones ::
              && d in s.launched && d !in s.stopped && d !in s.handedOut && d !in s.abandoned
              && NoDuplicates(s.pools[q].drones)
              && forall q' | q' in s.pools && d in s.pools[q'].drones :: q' == q
    ensures d in s.handedOut ==> d in s.launched && d !in s.stopped && d !in s.abandoned
    ensures d in s.launched ==> exists place :: At(s, d, place)
  {
    assert At(s, d, Stopped) <==> d in s.stopped;
    assert At(s, d, HandedOut) <==> d in s.handedOut;
    assert At(s, d, Abandoned) <==> d in s.abandoned;
    forall q | q in s.pools && d in s.pools[q].drones
      ensures At(s, d, Pooled(q)) && NoDuplicates(s.pools[q].drones)
    {
      assert PoolSound(s.pools[q]);
    }
    if d in s.launched {
      assert At(s, d, where[d]);
    }
  }
}
