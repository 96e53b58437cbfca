/** The warm pool objects and the manager's calls on them (internal/warmpool/manager.go), each call followed from
    start to end. What other goroutines do while a lock is dropped comes in from outside. */
module WarmPoolManager {
  import opened Arithmetic
  import opened Wrappers
  import opened WarmPools

  /** What others do to a pool while it is unlocked: a filler commits, a returner or a borrower comes by. */
  datatype Change = Commits(drone: ProcessID) | Returns(drone: ProcessID, now: Time) | Takes(now: Time)

  /** What one round of filling meets: the context, the scheduler, the launcher, the store, and the other goroutines
      before the size is re-checked (`early`) and before the new drone is committed (`meanwhile`). */
  datatype Round = Round(
    cancelled: bool, early: seq<Change>, cancelledLate: bool, scheduled: bool, process: Option<ProcessID>,
    created: bool, meanwhile: seq<Change>)
  {
    predicate Succeeds() {
      !cancelled && !cancelledLate && scheduled && process.Some? && created
    }

    predicate Undisturbed() {
      early == [] && meanwhile == []
    }
  }

  datatype FillError = Filled | Cancelled | SchedulingFailed | LaunchFailed | StoreFailed

  /** What happened during a fill: the drones it launched and stopped, and those that others put in and took out. */
  datatype Ledger = Ledger(
    launched: seq<ProcessID>, stopped: seq<ProcessID>, joined: seq<ProcessID>, taken: seq<ProcessID>)

  const BLANK := Ledger([], [], [], [])

  /** How a fill stands or ends; `takes` is how many more drones borrowers will take. */
  datatype Fill = Fill(pool: Pool, takes: nat, ledger: Ledger)

  datatype FillResult = FillResult(error: FillError, fill: Fill)

  function OneChange(f: Fill, change: Change): Fill {
    match change
    case Commits(drone) => Fill(Add(f.pool, drone), f.takes, f.ledger.(joined := f.ledger.joined + [drone]))
    case Returns(drone, now) =>
      if f.pool.currentSize < f.pool.minSize
      then Fill(Return(f.pool, drone, now), f.takes, f.ledger.(joined := f.ledger.joined + [drone]))
      else f
    case Takes(now) =>
      if f.takes == 0 || f.pool.drones == [] then f
      else Fill(TakeFirst(f.pool, now), f.takes - 1, f.ledger.(taken := f.ledger.taken + [f.pool.drones[0]]))
  }

  function Others(f: Fill, changes: seq<Change>): (f': Fill)
    requires f.pool.currentSize == |f.pool.drones|
    ensures f'.pool.currentSize == |f'.pool.drones|
    ensures f'.takes <= f.takes && f'.pool.currentSize >= f.pool.currentSize - (f.takes - f'.takes)
    decreases |changes|
  {
    if changes == [] then f else Others(OneChange(f, changes[0]), changes[1..])
  }

  /** fillPool from its n-th round on. */
  function FillFrom(f: Fill, minSize: int, env: nat -> Round, n: nat): FillResult
    requires f.pool.currentSize == |f.pool.drones|
    decreases if f.pool.currentSize >= minSize then 0 else minSize - f.pool.currentSize + f.takes
  {
    var r := env(n);
    if r.cancelled then FillResult(Cancelled, f)
    else if f.pool.currentSize >= minSize then FillResult(Filled, f)
    else
      var f1 := Others(f, r.early);
      if r.cancelledLate then FillResult(Cancelled, f1)
      else if f1.pool.currentSize >= minSize then FillResult(Filled, f1)
      else if !r.scheduled then FillResult(SchedulingFailed, f1)
      else if r.process == None then FillResult(LaunchFailed, f1)
      else
        var drone := r.process.value;
        var f2 := f1.(ledger := f1.ledger.(launched := f1.ledger.launched + [drone]));
        if !r.created then FillResult(StoreFailed, Stop(f2, drone))
        else
          var f3 := Others(f2, r.meanwhile);
          if f3.pool.currentSize < minSize then FillFrom(f3.(pool := Add(f3.pool, drone)), minSize, env, n + 1)
          else FillResult(Filled, Stop(f3, drone))
  }

  function Stop(f: Fill, drone: ProcessID): Fill {
    f.(ledger := f.ledger.(stopped := f.ledger.stopped + [drone]))
  }

  class WarmPool {
    var minSize: int
    var currentSize: int
    var warmDrones: seq<ProcessID>
    var lastUsed: Time
    ghost var peak: int

    ghost function Contents(): Pool
      reads this
    {
      Pool(minSize, currentSize, warmDrones, lastUsed, peak)
    }

    ghost predicate Valid()
      reads this
    {
      currentSize == |warmDrones|
    }

    constructor (minSize: int, now: Time)
      ensures Valid() && Contents() == NewPool(minSize, now)
    {
      this.minSize, currentSize, warmDrones, lastUsed := minSize, 0, [], now;
      peak := minSize;
    }

    method Update(minSize: int, now: Time)
      requires Valid()
      modifies this
      ensures Valid() && Contents() == Request(old(Contents()), minSize, now)
    {
      this.minSize, lastUsed := minSize, now;
      peak := Max(peak, minSize);
    }

    /** The pool is unlocked: others change it. */
    method Unlocked(changes: seq<Change>, takes: nat, ledger: Ledger) returns (takes': nat, ledger': Ledger)
      requires Valid()
      modifies this
      ensures Valid() && Fill(Contents(), takes', ledger') == Others(Fill(old(Contents()), takes, ledger), changes)
    {
      takes', ledger' := takes, ledger;
      ghost var goal := Others(Fill(Contents(), takes, ledger), changes);
      for i := 0 to |changes|
        invariant Valid() && Others(Fill(Contents(), takes', ledger'), changes[i..]) == goal
      {
        assert changes[i..][1..] == changes[i + 1..];
        match changes[i] {
          case Commits(drone) =>
            warmDrones := warmDrones + [drone];
            ledger' := ledger'.(joined := ledger'.joined + [drone]);
          case Returns(drone, now) =>
            if currentSize < minSize {
              warmDrones, lastUsed := warmDrones + [drone], now;
              ledger' := ledger'.(joined := ledger'.joined + [drone]);
            }
          case Takes(now) =>
            if takes' > 0 && warmDrones != [] {
              ledger' := ledger'.(taken := ledger'.taken + [warmDrones[0]]);
              warmDrones, lastUsed, takes' := warmDrones[1..], now, takes' - 1;
            }
        }
        currentSize := |warmDrones|;
      }
    }

    /** fillPool. It terminates because every round that goes on has added a drone, and only finitely many are taken. */
    method FillPool(target: int, env: nat -> Round, takes: nat) returns (error: FillError, left: nat, ledger: Ledger)
      requires Valid()
      modifies this
      ensures Valid()
      ensures FillResult(error, Fill(Contents(), left, ledger))
              == FillFrom(Fill(old(Contents()), takes, BLANK), target, env, 0)
    {
      left, ledger := takes, BLANK;
      var n := 0;
      while true
        invariant Valid()
        invariant FillFrom(Fill(Contents(), left, ledger), target, env, n)
               == FillFrom(Fill(old(Contents()), takes, BLANK), target, env, 0)
        decreases if currentSize >= target then 0 else target - currentSize + left
      {
        var round := env(n);
        n := n + 1;
        if round.cancelled {
          return Cancelled, left, ledger;
        }
        if currentSize >= target {
          return Filled, left, ledger;
        }
        left, ledger := Unlocked(round.early, left, ledger);
        if round.cancelledLate {
          return Cancelled, left, ledger;
        }
        if currentSize >= target {
          return Filled, left, ledger;
        }
        if !round.scheduled {
          return SchedulingFailed, left, ledger;
        }
        if round.process == None {
          return LaunchFailed, left, ledger;
        }
        var drone := round.process.value;
        ledger := ledger.(launched := ledger.launched + [drone]);
        if !round.created {
          ledger := ledger.(stopped := ledger.stopped + [drone]);
          return StoreFailed, left, ledger;
        }
        left, ledger := Unlocked(round.meanwhile, left, ledger);
        if currentSize < target {
          warmDrones := warmDrones + [drone];
          currentSize := |warmDrones|;
        } else {
          ledger := ledger.(stopped := ledger.stopped + [drone]);
          return Filled, left, ledger;
        }
      }
    }

    /** The locked part of GetWarmDrone: a drone that turns out not to be running is dropped. */
    method TakeWarmDrone(now: Time, running: ProcessID -> bool) returns (drone: Option<ProcessID>)
      requires Valid()
      modifies this
      ensures Valid()
      ensures if old(warmDrones) == [] then drone == None && Contents() == old(Contents())
              else Contents() == TakeFirst(old(Contents()), now)
                   && drone == if running(old(warmDrones)[0]) then Some(old(warmDrones)[0]) else None
    {
      if |warmDrones| == 0 {
        return None;
      }
      var first := warmDrones[0];
      warmDrones := warmDrones[1..];
      currentSize := |warmDrones|;
      lastUsed := now;
      if !running(first) {
        return None;
      }
      return Some(first);
    }

    /** The locked part of ReturnDrone. */
    method TakeBack(drone: ProcessID, now: Time)
      requires Valid()
      modifies this
      ensures Valid() && Contents() == Return(old(Contents()), drone, now)
    {
      if currentSize < minSize {
        warmDrones := warmDrones + [drone];
        currentSize := |warmDrones|;
        lastUsed := now;
      }
    }

    /** scaleDownPool: nothing when cancelled on entry; otherwise cut first, then stop one by one unless
        cancelled, which leaves the rest running. */
    method ScaleDown(count: nat, cancelledOnEntry: bool, cancelled: nat -> bool)
      returns (stopped: seq<ProcessID>, abandoned: seq<ProcessID>)
      requires Valid()
      modifies this
      ensures Valid() && Contents() == if cancelledOnEntry then old(Contents()) else Cut(old(Contents()), count)
      ensures stopped + abandoned
              == if cancelledOnEntry then [] else old(warmDrones)[..CutSize(old(Contents()), count)]
      ensures abandoned != [] ==> cancelled(|stopped|)
      ensures forall i | 0 <= i < |stopped| :: !cancelled(i)
    {
      if cancelledOnEntry {
        return [], [];
      }
      var n := count;
      if n > |warmDrones| {
        n := |warmDrones|;
      }
      var dronesToRemove := warmDrones[..n];
      warmDrones := warmDrones[n..];
      currentSize := |warmDrones|;
      stopped := [];
      for i := 0 to |dronesToRemove|
        invariant Contents() == Cut(old(Contents()), count)
        invariant stopped == dronesToRemove[..i]
        invariant forall j | 0 <= j < i :: !cancelled(j)
      {
        if cancelled(i) {
          return stopped, dronesToRemove[i..];
        }
        stopped := stopped + [dronesToRemove[i]];
      }
      return stopped, [];
    }
  }

  /** The error and the pool with which filling `requested` up to `minSize` ends. */
  ghost predicate Ensured(error: FillError, pool: Pool, requested: Pool, minSize: int, env: nat -> Round, takes: nat) {
    requested.currentSize == |requested.drones| &&
    var result := FillFrom(Fill(requested, takes, BLANK), minSize, env, 0);
    error == result.error && pool == result.fill.pool
  }

  class Manager {
    var warmPools: map<string, WarmPool>

    constructor ()
      ensures warmPools == map[]
    {
      warmPools := map[];
    }

    method EnsurePool(key: string, minSize: int, now: Time, env: nat -> Round, takes: nat) returns (error: FillError)
      requires key in warmPools ==> warmPools[key].Valid()
      modifies this, if key in warmPools then {warmPools[key]} else {}
      ensures warmPools.Keys == old(warmPools).Keys + {key}
      ensures forall k | k in old(warmPools) :: warmPools[k] == old(warmPools)[k]
      ensures key !in old(warmPools) ==> fresh(warmPools[key])
      ensures key !in old(warmPools) ==>
                Ensured(error, warmPools[key].Contents(), NewPool(minSize, now), minSize, env, takes)
      ensures key in old(warmPools) ==>
                var requested := Request(old(warmPools[key].Contents()), minSize, now);
                Ensured(error, warmPools[key].Contents(), requested, minSize, env, takes)
    {
      var pool: WarmPool;
      if key !in warmPools {
        pool := new WarmPool(minSize, now);
        warmPools := warmPools[key := pool];
      } else {
        pool := warmPools[key];
        pool.Update(minSize, now);
      }
      var left, ledger;
      error, left, ledger := pool.FillPool(minSize, env, takes);
    }

    method GetWarmDrone(key: string, now: Time, running: ProcessID -> bool) returns (drone: Option<ProcessID>)
      requires key in warmPools ==> warmPools[key].Valid()
      modifies if key in warmPools then {warmPools[key]} else {}
      ensures key !in warmPools ==> drone == None
      ensures key in warmPools ==>
                var before := old(warmPools[key].Contents());
                if before.drones == [] then drone == None && warmPools[key].Contents() == before
                else warmPools[key].Contents() == TakeFirst(before, now)
                     && drone == if running(before.drones[0]) then Some(before.drones[0]) else None
    {
      if key !in warmPools {
        return None;
      }
      drone := warmPools[key].TakeWarmDrone(now, running);
    }

    method ReturnDrone(key: string, drone: ProcessID, now: Time, running: bool)
      requires key in warmPools ==> warmPools[key].Valid()
      modifies if key in warmPools then {warmPools[key]} else {}
      ensures key in warmPools ==>
                warmPools[key].Contents() == if running then Return(old(warmPools[key].Contents()), drone, now)
                                             else old(warmPools[key].Contents())
    {
      if key !in warmPools || !running {
        return;
      }
      warmPools[key].TakeBack(drone, now);
    }
  }

  // ----- What a fill achieves -----

  /** Every drone that was in the pool, was launched or was put in by others is in the pool, stopped or taken out, as
      often as it came in. */
  ghost predicate Conserved(f: Fill, f': Fill) {
    && f'.pool.currentSize == |f'.pool.drones|
    && multiset(f'.pool.drones) + multiset(f'.ledger.stopped) + multiset(f'.ledger.taken)
       + multiset(f.ledger.launched) + multiset(f.ledger.joined)
       == multiset(f.pool.drones) + multiset(f.ledger.stopped) + multiset(f.ledger.taken)
          + multiset(f'.ledger.launched) + multiset(f'.ledger.joined)
  }

  lemma ChangeConserves(f: Fill, change: Change)
    requires f.pool.currentSize == |f.pool.drones|
    ensures Conserved(f, OneChange(f, change))
  {
    if change.Takes? && f.pool.drones != [] {
      assert f.pool.drones == [f.pool.drones[0]] + f.pool.drones[1..];
    }
  }

  lemma {:induction false} OthersConserve(f: Fill, changes: seq<Change>)
    requires f.pool.currentSize == |f.pool.drones|
    ensures Conserved(f, Others(f, changes))
    decreases |changes|
  {
    if changes != [] {
      ChangeConserves(f, changes[0]);
      OthersConserve(OneChange(f, changes[0]), changes[1..]);
      ConservedTwice(f, OneChange(f, changes[0]), Others(f, changes));
    }
  }

  lemma ConservedTwice(f: Fill, g: Fill, h: Fill)
    requires Conserved(f, g) && Conserved(g, h)
    ensures Conserved(f, h)
  {
    forall d: ProcessID
      ensures multiset(h.pool.drones)[d] + multiset(h.ledger.stopped)[d] + multiset(h.ledger.taken)[d]
              + multiset(f.ledger.launched)[d] + multiset(f.ledger.joined)[d]
              == multiset(f.pool.drones)[d] + multiset(f.ledger.stopped)[d] + multiset(f.ledger.taken)[d]
                 + multiset(h.ledger.launched)[d] + multiset(h.ledger.joined)[d]
    {
      CountConserved(f, g, d);
      CountConserved(g, h, d);
    }
  }

  lemma CountConserved(f: Fill, g: Fill, d: ProcessID)
    requires Conserved(f, g)
    ensures multiset(g.pool.drones)[d] + multiset(g.ledger.stopped)[d] + multiset(g.ledger.taken)[d]
            + multiset(f.ledger.launched)[d] + multiset(f.ledger.joined)[d]
            == multiset(f.pool.drones)[d] + multiset(f.ledger.stopped)[d] + multiset(f.ledger.taken)[d]
               + multiset(g.ledger.launched)[d] + multiset(g.ledger.joined)[d]
  {
    var left := multiset(g.pool.drones) + multiset(g.ledger.stopped) + multiset(g.ledger.taken)
                + multiset(f.ledger.launched) + multiset(f.ledger.joined);
    var right := multiset(f.pool.drones) + multiset(f.ledger.stopped) + multiset(f.ledger.taken)
                 + multiset(g.ledger.launched) + multiset(g.ledger.joined);
    assert left[d] == right[d];
  }

  /** Whatever fails or is cancelled, and whoever else adds and takes drones: a fill loses none, and reports
      success only when the pool has reached the target. */
  lemma {:induction false} FillLeaksNothing(f: Fill, minSize: int, env: nat -> Round, n: nat)
    requires f.pool.currentSize == |f.pool.drones|
    ensures var r := FillFrom(f, minSize, env, n);
            Conserved(f, r.fill) && (r.error == Filled ==> r.fill.pool.currentSize >= minSize)
    decreases if f.pool.currentSize >= minSize then 0 else minSize - f.pool.currentSize + f.takes
  {
    var r := env(n);
    if !r.cancelled && f.pool.currentSize < minSize {
      var f1 := Others(f, r.early);
      OthersConserve(f, r.early);
      if !r.cancelledLate && f1.pool.currentSize < minSize && r.scheduled && r.process.Some? {
        LaunchedRoundConserves(f, f1, minSize, env, n);
      }
    }
  }

  lemma LaunchedRoundConserves(f: Fill, f1: Fill, minSize: int, env: nat -> Round, n: nat)
    requires f.pool.currentSize == |f.pool.drones| && f.pool.currentSize < minSize
    requires f1 == Others(f, env(n).early) && Conserved(f, f1) && f1.pool.currentSize < minSize
    requires !env(n).cancelled && !env(n).cancelledLate && env(n).scheduled && env(n).process.Some?
    ensures var r := FillFrom(f, minSize, env, n);
            Conserved(f, r.fill) && (r.error == Filled ==> r.fill.pool.currentSize >= minSize)
    decreases if f.pool.currentSize >= minSize then 0 else minSize - f.pool.currentSize + f.takes, 0
  {
    var r, drone := env(n), env(n).process.value;
    var f2 := f1.(ledger := f1.ledger.(launched := f1.ledger.launched + [drone]));
    if !r.created {
      assert Conserved(f1, Stop(f2, drone));
      ConservedTwice(f, f1, Stop(f2, drone));
    } else {
      var f3 := Others(f2, r.meanwhile);
      OthersConserve(f2, r.meanwhile);
      DroneAccounted(f1, f2, f3, drone);
      if f3.pool.currentSize < minSize {
        var f4 := f3.(pool := Add(f3.pool, drone));
        ConservedTwice(f, f1, f4);
        FillLeaksNothing(f4, minSize, env, n + 1);
        ConservedTwice(f, f4, FillFrom(f4, minSize, env, n + 1).fill);
      } else {
        ConservedTwice(f, f1, Stop(f3, drone));
      }
    }
  }

  /** The launched drone makes up for itself by joining the pool or being stopped. */
  lemma DroneAccounted(f1: Fill, f2: Fill, f3: Fill, drone: ProcessID)
    requires f2 == f1.(ledger := f1.ledger.(launched := f1.ledger.launched + [drone])) && Conserved(f2, f3)
    ensures Conserved(f1, f3.(pool := Add(f3.pool, drone))) && Conserved(f1, Stop(f3, drone))
  {
  }

  /** When scheduler, launcher and store succeed every time and nothing is cancelled, a fill ends without error and the
      target is reached, however many others take part, as long as they take only finitely many drones. */
  lemma {:induction false} FillReachesTarget(f: Fill, minSize: int, env: nat -> Round, n: nat)
    requires f.pool.currentSize == |f.pool.drones| && forall i | i >= n :: env(i).Succeeds()
    ensures var r := FillFrom(f, minSize, env, n);
            r.error == Filled && r.fill.pool.currentSize >= minSize
    decreases if f.pool.currentSize >= minSize then 0 else minSize - f.pool.currentSize + f.takes
  {
    assert env(n).Succeeds();
    if f.pool.currentSize < minSize {
      var f1, drone := Others(f, env(n).early), env(n).process.value;
      if f1.pool.currentSize < minSize {
        var f2 := f1.(ledger := f1.ledger.(launched := f1.ledger.launched + [drone]));
        var f3 := Others(f2, env(n).meanwhile);
        if f3.pool.currentSize < minSize {
          FillReachesTarget(f3.(pool := Add(f3.pool, drone)), minSize, env, n + 1);
        }
      }
    }
  }

  /** The next processes the launcher hands out. */
  function Supply(env: nat -> Round, n: nat, count: nat): seq<ProcessID>
    decreases count
  {
    if count == 0 then []
    else [if env(n).process.Some? then env(n).process.value else 0] + Supply(env, n + 1, count - 1)
  }

  /** Alone, it launches exactly the missing number, pools them in the launcher's order, and stops nothing. */
  lemma {:induction false} LoneFillLaunchesTheDeficit(f: Fill, minSize: int, env: nat -> Round, n: nat)
    requires f.pool.currentSize == |f.pool.drones|
    requires forall i | i >= n :: env(i).Succeeds() && env(i).Undisturbed()
    ensures var r := FillFrom(f, minSize, env, n).fill;
            var missing := Max(0, minSize - f.pool.currentSize);
            && r.pool.drones == f.pool.drones + Supply(env, n, missing)
            && r.ledger == f.ledger.(launched := f.ledger.launched + Supply(env, n, missing))
    decreases minSize - f.pool.currentSize
  {
    assert env(n).Succeeds() && env(n).Undisturbed();
    if f.pool.currentSize < minSize {
      var drone := env(n).process.value;
      var f2 := f.(ledger := f.ledger.(launched := f.ledger.launched + [drone]));
      LoneFillLaunchesTheDeficit(f2.(pool := Add(f2.pool, drone)), minSize, env, n + 1);
    }
  }

  // ----- How a fill fails -----

  /** How a round that launches nothing lasting ends the fill. */
  function FailureOf(r: Round): Option<FillError> {
    if r.cancelled || r.cancelledLate then Some(Cancelled)
    else if !r.scheduled then Some(SchedulingFailed)
    else if r.process == None then Some(LaunchFailed)
    else if !r.created then Some(StoreFailed)
    else None
  }

  /** From `f` to `f'`, in which a fill ended with this error: k drones more in the pool, and a drone that could not be
      stored has been stopped. */
  ghost predicate FailsWith(f: Fill, r: FillResult, error: FillError, env: nat -> Round, n: nat, k: nat) {
    && r.error == error
    && r.fill.pool == f.pool.(drones := f.pool.drones + Supply(env, n, k), currentSize := f.pool.currentSize + k)
    && (error == StoreFailed ==>
          env(n + k).process.Some? && r.fill.ledger.stopped == f.ledger.stopped + [env(n + k).process.value])
    && (error != StoreFailed ==> r.fill.ledger.stopped == f.ledger.stopped)
  }

  lemma FailsAtOnce(f: Fill, minSize: int, env: nat -> Round, n: nat)
    requires f.pool.currentSize == |f.pool.drones| && f.pool.currentSize < minSize
    requires env(n).Undisturbed() && FailureOf(env(n)).Some?
    ensures FailsWith(f, FillFrom(f, minSize, env, n), FailureOf(env(n)).value, env, n, 0)
  {
    assert Others(f, []) == f;
    assert f.pool.drones + Supply(env, n, 0) == f.pool.drones;
  }

  lemma SucceedsOnce(f: Fill, minSize: int, env: nat -> Round, n: nat)
    requires f.pool.currentSize == |f.pool.drones| && f.pool.currentSize < minSize
    requires env(n).Undisturbed() && env(n).Succeeds()
    ensures var drone := env(n).process.value;
            var f' := f.(pool := Add(f.pool, drone), ledger := f.ledger.(launched := f.ledger.launched + [drone]));
            FillFrom(f, minSize, env, n) == FillFrom(f', minSize, env, n + 1)
  {
    assert Others(f, []) == f;
    var f2 := f.(ledger := f.ledger.(launched := f.ledger.launched + [env(n).process.value]));
    assert Others(f2, []) == f2;
  }

  lemma FailsOneLater(f: Fill, f': Fill, r: FillResult, error: FillError, env: nat -> Round, n: nat, k: nat)
    requires k > 0 && f.pool.currentSize == |f.pool.drones| && env(n).process.Some?
    requires f' == f.(pool := Add(f.pool, env(n).process.value), ledger := f'.ledger)
    requires f'.ledger.stopped == f.ledger.stopped && FailsWith(f', r, error, env, n + 1, k - 1)
    ensures FailsWith(f, r, error, env, n, k)
  {
    var drone := env(n).process.value;
    assert f.pool.drones + [drone] + Supply(env, n + 1, k - 1) == f.pool.drones + ([drone] + Supply(env, n + 1, k - 1));
  }

  /** Alone, with k rounds that succeed before one that fails: the fill ends with that round's error and k new drones in
      the pool; and a drone whose record could not be stored has been stopped. */
  lemma {:induction false} FirstFailureEndsTheFill(f: Fill, minSize: int, env: nat -> Round, n: nat, k: nat)
    requires f.pool.currentSize == |f.pool.drones| && f.pool.currentSize + k < minSize
    requires forall i | n <= i < n + k :: env(i).Succeeds() && env(i).Undisturbed()
    requires env(n + k).Undisturbed() && FailureOf(env(n + k)).Some?
    ensures FailsWith(f, FillFrom(f, minSize, env, n), FailureOf(env(n + k)).value, env, n, k)
    decreases k
  {
    if k == 0 {
      FailsAtOnce(f, minSize, env, n);
    } else {
      assert env(n).Succeeds() && env(n).Undisturbed();
      var drone := env(n).process.value;
      var f' := f.(pool := Add(f.pool, drone), ledger := f.ledger.(launched := f.ledger.launched + [drone]));
      SucceedsOnce(f, minSize, env, n);
      FirstFailureEndsTheFill(f', minSize, env, n + 1, k - 1);
      FailsOneLater(f, f', FillFrom(f', minSize, env, n + 1), FailureOf(env(n + k)).value, env, n, k);
    }
  }

  /** While the pool is unlocked a filler's commit adds its drone, a return does so below the minimum, and a borrower
      takes the first drone there is. */
  lemma OthersChangeThePool(f: Fill, d: ProcessID, now: Time)
    requires f.pool.currentSize == |f.pool.drones|
    ensures OneChange(f, Commits(d)).pool.drones == f.pool.drones + [d]
    ensures OneChange(f, Returns(d, now)).pool.drones
            == f.pool.drones + if |f.pool.drones| < f.pool.minSize then [d] else []
    ensures f.takes > 0 && f.pool.drones != [] ==>
              && OneChange(f, Takes(now)).pool.drones == f.pool.drones[1..]
              && OneChange(f, Takes(now)).ledger.taken == f.ledger.taken + [f.pool.drones[0]]
  {
    assert f.pool.drones + [] == f.pool.drones;
  }
}
