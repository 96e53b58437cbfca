/** The Queen's reconciliation (internal/queen/queen.go) without autoscaler and warm pools, as cmd/apiaryd starts
    it. Store, scheduler and launcher may fail at any call; the launcher never reuses a process ID and Stop takes
    effect. */
module Queen {
  import opened Arithmetic

  type ProcessID = nat

  /** A stored Drone. Its name is made of the spec's name and its UID, which is its process's ID. */
  datatype Drone = Drone(namespace: string, agentspec: string, uid: ProcessID)

  datatype AgentSpec = AgentSpec(namespace: string, name: string, minReplicas: int)

  /** `running` and `nextID` are the launcher's; `calls` counts the Queen's attempts to create or delete. */
  datatype State = State(
    drones: set<Drone>, registry: map<ProcessID, ProcessID>, running: set<ProcessID>, nextID: ProcessID, calls: nat)

  /** Which of the outside calls succeed during one attempt. */
  datatype Luck = Luck(
    cellRead: bool, dronesListed: bool, scheduled: bool, launched: bool, created: bool, deleted: bool)

  datatype Outcome = Created | QuotaExceeded | SchedulingFailed | LaunchFailed | StoreFailed

  /** Everything a pass depends on besides its own state: quotas per Cell (zero or none for no quota), the luck of
      each attempt, whether listing a spec's drones succeeds, and the store's listing order. */
  datatype World = World(
    quotas: map<string, int>, luck: nat -> Luck, listed: AgentSpec -> bool, order: set<Drone> -> seq<Drone>)

  function Quota(w: World, namespace: string): int {
    if namespace in w.quotas then w.quotas[namespace] else 0
  }

  function InNamespace(drones: set<Drone>, namespace: string): set<Drone> {
    set d | d in drones && d.namespace == namespace
  }

  predicate Belongs(d: Drone, spec: AgentSpec) {
    d.namespace == spec.namespace && d.agentspec == spec.name
  }

  predicate SameKey(a: AgentSpec, b: AgentSpec) {
    a.namespace == b.namespace && a.name == b.name
  }

  function OfSpec(drones: set<Drone>, spec: AgentSpec): set<Drone> {
    set d | d in drones && Belongs(d, spec)
  }

  function Target(spec: AgentSpec): int {
    if spec.minReplicas > 0 then spec.minReplicas else 1
  }

  /** The store lists every drone of a set once, in some order. */
  ghost predicate Faithful(w: World) {
    forall s: set<Drone> :: Lists(w.order(s), s)
  }

  ghost predicate Lists(listing: seq<Drone>, s: set<Drone>) {
    && (forall d :: d in listing <==> d in s)
    && (forall i, j | 0 <= i < j < |listing| :: listing[i] != listing[j])
    && |listing| == |s|
  }

  predicate QuotaReached(s: State, w: World, namespace: string, luck: Luck) {
    luck.cellRead && luck.dronesListed && Quota(w, namespace) > 0
    && |InNamespace(s.drones, namespace)| >= Quota(w, namespace)
  }

  function CreateStep(s: State, w: World, spec: AgentSpec): (State, Outcome) {
    var luck := w.luck(s.calls);
    var t := s.(calls := s.calls + 1);
    if QuotaReached(s, w, spec.namespace, luck) then (t, QuotaExceeded)
    else if !luck.scheduled then (t, SchedulingFailed)
    else if !luck.launched then (t, LaunchFailed)
    else if !luck.created then (t.(nextID := s.nextID + 1), StoreFailed) // launched, then stopped again
    else
      (t.(nextID := s.nextID + 1, running := s.running + {s.nextID}, registry := s.registry[s.nextID := s.nextID],
          drones := s.drones + {Drone(spec.namespace, spec.name, s.nextID)}), Created)
  }

  function DeleteStep(s: State, w: World, d: Drone): State {
    var stopped :=
      if d.uid in s.registry
      then s.(running := s.running - {s.registry[d.uid]}, registry := s.registry - {d.uid})
      else s;
    stopped.(calls := s.calls + 1, drones := if w.luck(s.calls).deleted then s.drones - {d} else s.drones)
  }

  function CreateMany(s: State, w: World, spec: AgentSpec, n: nat): State {
    if n == 0 then s else CreateStep(CreateMany(s, w, spec, n - 1), w, spec).0
  }

  function DeleteMany(s: State, w: World, victims: seq<Drone>): State {
    if victims == [] then s
    else DeleteStep(DeleteMany(s, w, victims[..|victims| - 1]), w, victims[|victims| - 1])
  }

  function ReconcileSpec(s: State, w: World, spec: AgentSpec): State {
    var listing := w.order(OfSpec(s.drones, spec));
    var current, desired := |listing|, Target(spec);
    if !w.listed(spec) then s
    else if current < desired then CreateMany(s, w, spec, desired - current)
    else if current > desired then DeleteMany(s, w, listing[..current - desired])
    else s
  }

  function Pass(s: State, w: World, specs: seq<AgentSpec>): State
    decreases |specs|
  {
    if specs == [] then s else Pass(ReconcileSpec(s, w, specs[0]), w, specs[1..])
  }

  class Orchestrator {
    const world: World
    var drones: set<Drone>
    var droneReg: map<ProcessID, ProcessID>
    var running: set<ProcessID>
    var nextID: ProcessID
    var calls: nat

    ghost predicate Valid()
      reads this
    {
      forall p | p in running :: p < nextID
    }

    ghost function Contents(): State
      reads this
    {
      State(drones, droneReg, running, nextID, calls)
    }

    constructor (world: World)
      ensures Valid() && this.world == world && Contents() == State({}, map[], {}, 0, 0)
    {
      this.world := world;
      drones, droneReg, running, nextID, calls := {}, map[], {}, 0, 0;
    }

    method CreateDrone(spec: AgentSpec) returns (outcome: Outcome)
      requires Valid()
      modifies this
      ensures Valid() && (Contents(), outcome) == CreateStep(old(Contents()), world, spec)
    {
      var luck := world.luck(calls);
      calls := calls + 1;
      if luck.cellRead {
        var maxTotalDrones := Quota(world, spec.namespace);
        if maxTotalDrones > 0 && luck.dronesListed && |InNamespace(drones, spec.namespace)| >= maxTotalDrones {
          return QuotaExceeded;
        }
      }
      if !luck.scheduled {
        return SchedulingFailed;
      }
      if !luck.launched {
        return LaunchFailed;
      }
      var process := nextID;
      nextID, running := nextID + 1, running + {process};
      if !luck.created {
        running := running - {process};
        assert running == old(running);
        return StoreFailed;
      }
      drones := drones + {Drone(spec.namespace, spec.name, process)};
      droneReg := droneReg[process := process];
      return Created;
    }

    method DeleteDrone(d: Drone)
      requires Valid()
      modifies this
      ensures Valid() && Contents() == DeleteStep(old(Contents()), world, d)
    {
      var luck := world.luck(calls);
      calls := calls + 1;
      if d.uid in droneReg {
        running := running - {droneReg[d.uid]};
        droneReg := droneReg - {d.uid};
      }
      if luck.deleted {
        drones := drones - {d};
      }
    }

    method ReconcileAgentSpec(spec: AgentSpec)
      requires Valid()
      modifies this
      ensures Valid() && Contents() == ReconcileSpec(old(Contents()), world, spec)
    {
      if !world.listed(spec) {
        return;
      }
      var listing := world.order(OfSpec(drones, spec));
      var currentReplicas := |listing|;
      var desiredReplicas := 1;
      if spec.minReplicas > 0 {
        desiredReplicas := spec.minReplicas;
      }
      ghost var before := Contents();
      if currentReplicas < desiredReplicas {
        for i := 0 to desiredReplicas - currentReplicas
          invariant Valid() && Contents() == CreateMany(before, world, spec, i)
        {
          var _ := CreateDrone(spec);
        }
      }
      if currentReplicas > desiredReplicas {
        for i := 0 to currentReplicas - desiredReplicas
          invariant Valid() && Contents() == DeleteMany(before, world, listing[..i])
        {
          assert listing[..i + 1][..i] == listing[..i];
          DeleteDrone(listing[i]);
        }
      }
    }

    method PerformReconciliation(specs: seq<AgentSpec>, specsListed: bool)
      requires Valid()
      modifies this
      ensures Valid()
      ensures Contents() == if specsListed then Pass(old(Contents()), world, specs) else old(Contents())
    {
      if !specsListed {
        return;
      }
      ghost var goal := Pass(Contents(), world, specs);
      for i := 0 to |specs|
        invariant Valid() && Pass(Contents(), world, specs[i..]) == goal
      {
        assert specs[i..][1..] == specs[i + 1..];
        ReconcileAgentSpec(specs[i]);
      }
    }
  }

  // ----- Processes and records, whatever fails -----

  /** The running processes are the registry's entries, each of them has its stored Drone, and IDs are unique. */
  ghost predicate Tracked(s: State) {
    && s.running == s.registry.Keys
    && (forall u | u in s.registry :: s.registry[u] == u && u < s.nextID && HasDrone(s.drones, u))
    && Ahead(s)
    && (forall d, e | d in s.drones && e in s.drones && d.uid == e.uid :: d == e)
  }

  /** The launcher's next ID is above every stored UID. */
  ghost predicate Ahead(s: State) {
    forall d | d in s.drones :: d.uid < s.nextID
  }

  ghost predicate HasDrone(drones: set<Drone>, uid: ProcessID) {
    exists d :: d in drones && d.uid == uid
  }

  lemma HasDroneAmong(drones: set<Drone>, more: set<Drone>, uid: ProcessID, d: Drone)
    requires HasDrone(drones, uid)
    requires (drones - {d} <= more && d.uid != uid) || drones <= more
    ensures HasDrone(more, uid)
  {
    var e :| e in drones && e.uid == uid;
    assert e in more;
  }

  lemma CreateKeepsTracked(s: State, w: World, spec: AgentSpec)
    requires Tracked(s)
    ensures Tracked(CreateStep(s, w, spec).0)
  {
    var (t, outcome) := CreateStep(s, w, spec);
    if outcome == Created {
      var made := Drone(spec.namespace, spec.name, s.nextID);
      forall u | u in t.registry ensures HasDrone(t.drones, u) {
        if u in s.registry {
          HasDroneAmong(s.drones, t.drones, u, made);
        } else {
          assert made in t.drones && made.uid == u;
        }
      }
    }
  }

  lemma DeleteKeepsTracked(s: State, w: World, d: Drone)
    requires Tracked(s)
    ensures Tracked(DeleteStep(s, w, d))
  {
    var t := DeleteStep(s, w, d);
    forall u | u in t.registry ensures HasDrone(t.drones, u) {
      HasDroneAmong(s.drones, t.drones, u, d);
    }
  }

  lemma {:induction false} CreatesKeepTracked(s: State, w: World, spec: AgentSpec, n: nat)
    requires Tracked(s)
    ensures Tracked(CreateMany(s, w, spec, n))
  {
    if n > 0 {
      CreatesKeepTracked(s, w, spec, n - 1);
      CreateKeepsTracked(CreateMany(s, w, spec, n - 1), w, spec);
    }
  }

  lemma {:induction false} DeletesKeepTracked(s: State, w: World, victims: seq<Drone>)
    requires Tracked(s)
    ensures Tracked(DeleteMany(s, w, victims))
  {
    if victims != [] {
      var n := |victims| - 1;
      DeletesKeepTracked(s, w, victims[..n]);
      DeleteKeepsTracked(DeleteMany(s, w, victims[..n]), w, victims[n]);
    }
  }

  lemma ReconcileKeepsTracked(s: State, w: World, spec: AgentSpec)
    requires Tracked(s)
    ensures Tracked(ReconcileSpec(s, w, spec))
  {
    var listing := w.order(OfSpec(s.drones, spec));
    var current, desired := |listing|, Target(spec);
    if current < desired {
      CreatesKeepTracked(s, w, spec, desired - current);
    } else if current > desired {
      DeletesKeepTracked(s, w, listing[..current - desired]);
    }
  }

  lemma {:induction false} PassKeepsTracked(s: State, w: World, specs: seq<AgentSpec>)
    requires Tracked(s)
    ensures Tracked(Pass(s, w, specs))
    decreases |specs|
  {
    if specs != [] {
      ReconcileKeepsTracked(s, w, specs[0]);
      PassKeepsTracked(ReconcileSpec(s, w, specs[0]), w, specs[1..]);
    }
  }

  datatype Round = Round(world: World, specs: seq<AgentSpec>, specsListed: bool)

  function Rounds(s: State, rounds: seq<Round>): State
    decreases |rounds|
  {
    if rounds == [] then s
    else
      var r := rounds[0];
      Rounds(if r.specsListed then Pass(s, r.world, r.specs) else s, rounds[1..])
  }

  /** In every Queen-only run, whatever scheduler, launcher and store do, no process runs untracked. */
  lemma {:induction false} RunKeepsTracked(s: State, rounds: seq<Round>)
    requires Tracked(s)
    ensures Tracked(Rounds(s, rounds))
    decreases |rounds|
  {
    if rounds != [] {
      var r := rounds[0];
      if r.specsListed {
        PassKeepsTracked(s, r.world, r.specs);
      }
      RunKeepsTracked(if r.specsListed then Pass(s, r.world, r.specs) else s, rounds[1..]);
    }
  }

  /** The converse, a running process behind every stored Drone, is what a failed store deletion breaks, and only
      that. */
  ghost predicate Backed(s: State) {
    forall d | d in s.drones :: d.uid in s.running
  }

  lemma CreateKeepsBacked(s: State, w: World, spec: AgentSpec)
    requires Backed(s)
    ensures Backed(CreateStep(s, w, spec).0)
  {
  }

  lemma BackedUnlessDeletionFails(s: State, w: World, d: Drone)
    requires Tracked(s) && Backed(s) && d in s.drones
    ensures Backed(DeleteStep(s, w, d)) <==> w.luck(s.calls).deleted
  {
    var t := DeleteStep(s, w, d);
    if !w.luck(s.calls).deleted {
      assert d in t.drones && d.uid !in t.running;
    }
  }

  // ----- Replica counts, whatever fails -----

  lemma {:induction false} CreatesKeepAhead(s: State, w: World, spec: AgentSpec, n: nat)
    requires Ahead(s)
    ensures Ahead(CreateMany(s, w, spec, n))
  {
    if n > 0 {
      CreatesKeepAhead(s, w, spec, n - 1);
    }
  }

  lemma {:induction false} DeletesKeepAhead(s: State, w: World, victims: seq<Drone>)
    requires Ahead(s)
    ensures Ahead(DeleteMany(s, w, victims))
  {
    if victims != [] {
      DeletesKeepAhead(s, w, victims[..|victims| - 1]);
    }
  }

  lemma ReconcileKeepsAhead(s: State, w: World, spec: AgentSpec)
    requires Ahead(s)
    ensures Ahead(ReconcileSpec(s, w, spec))
  {
    var listing := w.order(OfSpec(s.drones, spec));
    var current, desired := |listing|, Target(spec);
    if current < desired {
      CreatesKeepAhead(s, w, spec, desired - current);
    } else if current > desired {
      DeletesKeepAhead(s, w, listing[..current - desired]);
    }
  }

  lemma {:induction false} PassKeepsAhead(s: State, w: World, specs: seq<AgentSpec>)
    requires Ahead(s)
    ensures Ahead(Pass(s, w, specs))
    decreases |specs|
  {
    if specs != [] {
      ReconcileKeepsAhead(s, w, specs[0]);
      PassKeepsAhead(ReconcileSpec(s, w, specs[0]), w, specs[1..]);
    }
  }

  function Replicas(s: State, spec: AgentSpec): nat {
    |OfSpec(s.drones, spec)|
  }

  function Total(s: State, namespace: string): nat {
    |InNamespace(s.drones, namespace)|
  }

  /** What one step does to the counts: `d` comes or goes or nothing changes. */
  lemma AddedOne(drones: set<Drone>, d: Drone, spec: AgentSpec, namespace: string)
    requires d !in drones
    ensures |OfSpec(drones + {d}, spec)| == |OfSpec(drones, spec)| + if Belongs(d, spec) then 1 else 0
    ensures |InNamespace(drones + {d}, namespace)|
         == |InNamespace(drones, namespace)| + if d.namespace == namespace then 1 else 0
  {
    var more := drones + {d};
    if Belongs(d, spec) {
      assert OfSpec(more, spec) == OfSpec(drones, spec) + {d};
    } else {
      assert OfSpec(more, spec) == OfSpec(drones, spec);
    }
    if d.namespace == namespace {
      assert InNamespace(more, namespace) == InNamespace(drones, namespace) + {d};
    } else {
      assert InNamespace(more, namespace) == InNamespace(drones, namespace);
    }
  }

  lemma RemovedOne(drones: set<Drone>, d: Drone, spec: AgentSpec)
    requires d in drones
    ensures |OfSpec(drones - {d}, spec)| == |OfSpec(drones, spec)| - if Belongs(d, spec) then 1 else 0
  {
    AddedOne(drones - {d}, d, spec, d.namespace);
    assert drones - {d} + {d} == drones;
  }

  lemma CreateCounts(s: State, w: World, spec: AgentSpec, other: AgentSpec, namespace: string)
    requires Ahead(s)
    ensures var (t, outcome) := CreateStep(s, w, spec);
      && Replicas(t, other) == Replicas(s, other) + (if outcome == Created && SameKey(spec, other) then 1 else 0)
      && Total(t, namespace)
         == Total(s, namespace) + (if outcome == Created && spec.namespace == namespace then 1 else 0)
  {
    var made := Drone(spec.namespace, spec.name, s.nextID);
    assert made !in s.drones;
    AddedOne(s.drones, made, other, namespace);
  }

  lemma {:induction false} CreatesStayBelow(s: State, w: World, spec: AgentSpec, n: nat, other: AgentSpec)
    requires Ahead(s)
    ensures var t := CreateMany(s, w, spec, n);
      && (SameKey(spec, other) ==> Replicas(s, other) <= Replicas(t, other) <= Replicas(s, other) + n)
      && (!SameKey(spec, other) ==> Replicas(t, other) == Replicas(s, other))
  {
    if n > 0 {
      CreatesStayBelow(s, w, spec, n - 1, other);
      CreatesKeepAhead(s, w, spec, n - 1);
      CreateCounts(CreateMany(s, w, spec, n - 1), w, spec, other, spec.namespace);
    }
  }

  ghost predicate DistinctDrones(victims: seq<Drone>) {
    forall i, j | 0 <= i < j < |victims| :: victims[i] != victims[j]
  }

  /** Deleting distinct stored drones of one spec takes away at most one each, and exactly one each when the store
      does not fail. Drones not among the victims stay. */
  lemma {:induction false} DeletesTakeAtMost(s: State, w: World, spec: AgentSpec, victims: seq<Drone>, other: AgentSpec)
    requires DistinctDrones(victims)
    requires forall d | d in victims :: d in s.drones && Belongs(d, spec)
    ensures var t := DeleteMany(s, w, victims);
      && t.calls == s.calls + |victims|
      && (SameKey(spec, other) ==> Replicas(s, other) - |victims| <= Replicas(t, other) <= Replicas(s, other))
      && (SameKey(spec, other) && Calm(w) ==> Replicas(t, other) == Replicas(s, other) - |victims|)
      && (!SameKey(spec, other) ==> Replicas(t, other) == Replicas(s, other))
      && (forall d | d in s.drones && d !in victims :: d in t.drones)
  {
    if victims != [] {
      var n := |victims| - 1;
      var d, before := victims[n], victims[..n];
      DeletesTakeAtMost(s, w, spec, before, other);
      assert d !in before;
      var u, t := DeleteMany(s, w, before), DeleteMany(s, w, victims);
      assert t == DeleteStep(u, w, d);
      assert t.drones == if w.luck(u.calls).deleted then u.drones - {d} else u.drones;
      assert d in victims && d in u.drones && Belongs(d, spec);
      RemovedOne(u.drones, d, other);
    }
  }

  /** Nothing fails. */
  ghost predicate Calm(w: World) {
    && (forall n :: w.luck(n) == Luck(true, true, true, true, true, true))
    && (forall spec :: w.listed(spec))
  }

  /** Reconciling moves a spec's count towards its target, never past it, and touches no other spec; without
      failures a spec above its target lands on it. */
  lemma ReconcileApproachesTarget(s: State, w: World, spec: AgentSpec, other: AgentSpec)
    requires Ahead(s) && Faithful(w)
    ensures var t := ReconcileSpec(s, w, spec);
      var count, after, target := Replicas(s, spec), Replicas(t, spec), Target(spec);
      && (count <= target ==> count <= after <= target)
      && (count > target ==> target <= after <= count)
      && (count > target && Calm(w) ==> after == target)
    ensures !SameKey(spec, other) ==> Replicas(ReconcileSpec(s, w, spec), other) == Replicas(s, other)
  {
    var stored := OfSpec(s.drones, spec);
    var listing := w.order(stored);
    assert Lists(listing, stored);
    var current, desired := |listing|, Target(spec);
    if current < desired {
      CreatesStayBelow(s, w, spec, desired - current, spec);
      CreatesStayBelow(s, w, spec, desired - current, other);
    } else if current > desired {
      var victims := listing[..current - desired];
      assert forall d | d in victims :: d in stored;
      DeletesTakeAtMost(s, w, spec, victims, spec);
      DeletesTakeAtMost(s, w, spec, victims, other);
    }
  }

  ghost predicate DistinctSpecs(specs: seq<AgentSpec>) {
    forall i, j | 0 <= i < j < |specs| :: !SameKey(specs[i], specs[j])
  }

  lemma {:induction false} PassLeavesOthersAlone(s: State, w: World, specs: seq<AgentSpec>, other: AgentSpec)
    requires Ahead(s) && Faithful(w)
    requires forall spec | spec in specs :: !SameKey(spec, other)
    ensures Replicas(Pass(s, w, specs), other) == Replicas(s, other)
    decreases |specs|
  {
    if specs != [] {
      ReconcileApproachesTarget(s, w, specs[0], other);
      ReconcileKeepsAhead(s, w, specs[0]);
      PassLeavesOthersAlone(ReconcileSpec(s, w, specs[0]), w, specs[1..], other);
    }
  }

  /** Over a whole pass, with any failures, every spec moves towards its own target and never past it. */
  lemma {:induction false} PassApproachesTargets(s: State, w: World, specs: seq<AgentSpec>, k: nat)
    requires Ahead(s) && Faithful(w) && DistinctSpecs(specs) && k < |specs|
    ensures var count, after, target := Replicas(s, specs[k]), Replicas(Pass(s, w, specs), specs[k]), Target(specs[k]);
      && (count <= target ==> count <= after <= target)
      && (count > target ==> target <= after <= count)
      && (count > target && Calm(w) ==> after == target)
    decreases |specs|
  {
    var t := ReconcileSpec(s, w, specs[0]);
    ReconcileApproachesTarget(s, w, specs[0], specs[k]);
    ReconcileKeepsAhead(s, w, specs[0]);
    if k == 0 {
      PassLeavesOthersAlone(t, w, specs[1..], specs[0]);
    } else {
      PassApproachesTargets(t, w, specs[1..], k - 1);
    }
  }

  // ----- A pass without failures -----

  /** A namespace at `count` drones with quota `quota` that is to get `wanted` more. */
  function Filled(count: int, quota: int, wanted: nat): int {
    if quota <= 0 then count + wanted else Min(count + wanted, Max(count, quota))
  }

  /** Without failures a replica is refused exactly when the namespace is at its quota. */
  lemma CalmCreate(s: State, w: World, spec: AgentSpec)
    requires Ahead(s) && Calm(w)
    ensures var t, ns := CreateStep(s, w, spec).0, spec.namespace;
      if 0 < Quota(w, ns) <= Total(s, ns) then t == s.(calls := s.calls + 1)
      else Total(t, ns) == Total(s, ns) + 1 && Replicas(t, spec) == Replicas(s, spec) + 1
  {
    CreateCounts(s, w, spec, spec, spec.namespace);
  }

  lemma {:induction false} CreatesFill(s: State, w: World, spec: AgentSpec, n: nat)
    requires Ahead(s) && Calm(w)
    ensures var t, ns := CreateMany(s, w, spec, n), spec.namespace;
      && Total(t, ns) == Filled(Total(s, ns), Quota(w, ns), n)
      && Replicas(t, spec) == Replicas(s, spec) + Total(t, ns) - Total(s, ns)
  {
    if n > 0 {
      var u, ns := CreateMany(s, w, spec, n - 1), spec.namespace;
      CreatesFill(s, w, spec, n - 1);
      CreatesKeepAhead(s, w, spec, n - 1);
      CalmCreate(u, w, spec);
      FilledByOne(Total(s, ns), Quota(w, ns), n);
    }
  }

  lemma FilledByOne(count: nat, quota: int, n: nat)
    requires n > 0
    ensures var before := Filled(count, quota, n - 1);
      Filled(count, quota, n) == if 0 < quota <= before then before else before + 1
  {
  }

  lemma {:induction false} RefusalsChangeNothing(s: State, w: World, spec: AgentSpec, n: nat)
    requires Ahead(s) && Calm(w) && 0 < Quota(w, spec.namespace) <= Total(s, spec.namespace)
    ensures CreateMany(s, w, spec, n) == s.(calls := s.calls + n)
  {
    if n > 0 {
      RefusalsChangeNothing(s, w, spec, n - 1);
      CreatesKeepAhead(s, w, spec, n - 1);
      CalmCreate(CreateMany(s, w, spec, n - 1), w, spec);
    }
  }

  lemma {:induction false} CreatesElsewhere(s: State, w: World, spec: AgentSpec, n: nat, namespace: string)
    requires Ahead(s) && spec.namespace != namespace
    ensures Total(CreateMany(s, w, spec, n), namespace) == Total(s, namespace)
  {
    if n > 0 {
      CreatesElsewhere(s, w, spec, n - 1, namespace);
      CreatesKeepAhead(s, w, spec, n - 1);
      CreateCounts(CreateMany(s, w, spec, n - 1), w, spec, spec, namespace);
    }
  }

  function Missing(s: State, spec: AgentSpec): nat {
    Max(0, Target(spec) - Replicas(s, spec))
  }

  /** The namespace's total deficit over the listed specs. */
  function Deficit(s: State, specs: seq<AgentSpec>, namespace: string): nat {
    if specs == [] then 0
    else (if specs[0].namespace == namespace then Missing(s, specs[0]) else 0) + Deficit(s, specs[1..], namespace)
  }

  ghost predicate NoneAbove(s: State, specs: seq<AgentSpec>) {
    forall spec | spec in specs :: Replicas(s, spec) <= Target(spec)
  }

  lemma ReconcileFills(s: State, w: World, spec: AgentSpec, namespace: string)
    requires Ahead(s) && Calm(w) && Faithful(w) && Replicas(s, spec) <= Target(spec)
    ensures var t := ReconcileSpec(s, w, spec);
      && Total(t, namespace)
         == (if spec.namespace == namespace then Filled(Total(s, namespace), Quota(w, namespace), Missing(s, spec))
             else Total(s, namespace))
      && (spec.namespace == namespace ==>
            Replicas(t, spec) == Replicas(s, spec) + Total(t, namespace) - Total(s, namespace))
  {
    assert Lists(w.order(OfSpec(s.drones, spec)), OfSpec(s.drones, spec));
    CreatesFill(s, w, spec, Missing(s, spec));
    if spec.namespace != namespace {
      CreatesElsewhere(s, w, spec, Missing(s, spec), namespace);
    }
  }

  lemma {:induction false} DeficitDependsOnCounts(s: State, t: State, specs: seq<AgentSpec>, namespace: string)
    requires forall spec | spec in specs :: Replicas(s, spec) == Replicas(t, spec)
    ensures Deficit(s, specs, namespace) == Deficit(t, specs, namespace)
  {
    if specs != [] {
      DeficitDependsOnCounts(s, t, specs[1..], namespace);
    }
  }

  /** The rest of the pass sees the counts it would have seen without the first spec. */
  lemma RestSeesItsCounts(s: State, w: World, specs: seq<AgentSpec>)
    requires Ahead(s) && Faithful(w) && DistinctSpecs(specs) && specs != []
    ensures forall spec | spec in specs[1..] :: Replicas(ReconcileSpec(s, w, specs[0]), spec) == Replicas(s, spec)
  {
    forall spec | spec in specs[1..]
      ensures Replicas(ReconcileSpec(s, w, specs[0]), spec) == Replicas(s, spec)
    {
      ReconcileApproachesTarget(s, w, specs[0], spec);
    }
  }

  /** One pass without failures in which no spec is above its target leaves a namespace at `N + deficit`, or at the
      larger of `N` and the quota if that is less. */
  lemma {:induction false} PassFillsToQuota(s: State, w: World, specs: seq<AgentSpec>, namespace: string)
    requires Ahead(s) && Calm(w) && Faithful(w) && DistinctSpecs(specs) && NoneAbove(s, specs)
    ensures Total(Pass(s, w, specs), namespace)
         == Filled(Total(s, namespace), Quota(w, namespace), Deficit(s, specs, namespace))
    decreases |specs|
  {
    if specs != [] {
      var t := ReconcileSpec(s, w, specs[0]);
      ReconcileFills(s, w, specs[0], namespace);
      ReconcileKeepsAhead(s, w, specs[0]);
      RestSeesItsCounts(s, w, specs);
      DeficitDependsOnCounts(s, t, specs[1..], namespace);
      PassFillsToQuota(t, w, specs[1..], namespace);
    }
  }

  /** A pass has nothing to do for a spec that is at its target, or whose namespace has no room. */
  predicate Settled(s: State, w: World, spec: AgentSpec) {
    || Replicas(s, spec) == Target(spec)
    || (Replicas(s, spec) < Target(spec) && 0 < Quota(w, spec.namespace) <= Total(s, spec.namespace))
  }

  lemma {:induction false} PassSettles(s: State, w: World, specs: seq<AgentSpec>, k: nat)
    requires Ahead(s) && Calm(w) && Faithful(w) && DistinctSpecs(specs) && NoneAbove(s, specs) && k < |specs|
    ensures Settled(Pass(s, w, specs), w, specs[k])
    decreases |specs|
  {
    var t := ReconcileSpec(s, w, specs[0]);
    var ns := specs[0].namespace;
    ReconcileFills(s, w, specs[0], ns);
    ReconcileKeepsAhead(s, w, specs[0]);
    RestSeesItsCounts(s, w, specs);
    if k == 0 {
      assert Settled(t, w, specs[0]);
      PassLeavesOthersAlone(t, w, specs[1..], specs[0]);
      PassFillsToQuota(t, w, specs[1..], ns);
    } else {
      PassSettles(t, w, specs[1..], k - 1);
    }
  }

  lemma SettledSpecIsLeftAlone(s: State, w: World, spec: AgentSpec)
    requires Ahead(s) && Calm(w) && Faithful(w) && Settled(s, w, spec)
    ensures var t := ReconcileSpec(s, w, spec); t == s.(calls := t.calls) && Ahead(t)
  {
    assert Lists(w.order(OfSpec(s.drones, spec)), OfSpec(s.drones, spec));
    if Replicas(s, spec) < Target(spec) {
      RefusalsChangeNothing(s, w, spec, Target(spec) - Replicas(s, spec));
    }
    ReconcileKeepsAhead(s, w, spec);
  }

  lemma {:induction false} SettledPassDoesNothing(s: State, w: World, specs: seq<AgentSpec>)
    requires Ahead(s) && Calm(w) && Faithful(w)
    requires forall spec | spec in specs :: Settled(s, w, spec)
    ensures Pass(s, w, specs) == s.(calls := Pass(s, w, specs).calls)
    decreases |specs|
  {
    if specs != [] {
      assert specs[0] in specs;
      SettledSpecIsLeftAlone(s, w, specs[0]);
      var t := ReconcileSpec(s, w, specs[0]);
      forall spec | spec in specs[1..] ensures Settled(t, w, spec) {
        assert spec in specs && t.drones == s.drones;
      }
      SettledPassDoesNothing(t, w, specs[1..]);
    }
  }

  /** An unsettled spec gains or loses a replica, and the rest of the pass does not undo it. */
  lemma {:induction false} UnsettledPassActs(s: State, w: World, specs: seq<AgentSpec>, k: nat)
    requires Ahead(s) && Calm(w) && Faithful(w) && DistinctSpecs(specs) && k < |specs| && !Settled(s, w, specs[k])
    ensures Pass(s, w, specs).drones != s.drones
    decreases |specs|
  {
    var t := ReconcileSpec(s, w, specs[0]);
    ReconcileKeepsAhead(s, w, specs[0]);
    if Settled(s, w, specs[0]) {
      SettledSpecIsLeftAlone(s, w, specs[0]);
      UnsettledPassActs(t, w, specs[1..], k - 1);
    } else {
      ReconcileApproachesTarget(s, w, specs[0], specs[0]);
      if Replicas(s, specs[0]) < Target(specs[0]) {
        ReconcileFills(s, w, specs[0], specs[0].namespace);
      }
      PassLeavesOthersAlone(t, w, specs[1..], specs[0]);
    }
  }

  lemma PassDoesNothingExactlyWhenSettled(s: State, w: World, specs: seq<AgentSpec>)
    requires Ahead(s) && Calm(w) && Faithful(w) && DistinctSpecs(specs)
    ensures Pass(s, w, specs) == s.(calls := Pass(s, w, specs).calls)
            <==> forall spec | spec in specs :: Settled(s, w, spec)
  {
    if forall spec | spec in specs :: Settled(s, w, spec) {
      SettledPassDoesNothing(s, w, specs);
    } else {
      var k :| 0 <= k < |specs| && !Settled(s, w, specs[k]);
      UnsettledPassActs(s, w, specs, k);
    }
  }

  /** A second failure-free pass changes nothing when no spec started above its target. */
  lemma SecondPassDoesNothing(s: State, w: World, specs: seq<AgentSpec>)
    requires Ahead(s) && Calm(w) && Faithful(w) && DistinctSpecs(specs) && NoneAbove(s, specs)
    ensures var t := Pass(s, w, specs); Pass(t, w, specs) == t.(calls := Pass(t, w, specs).calls)
  {
    forall spec | spec in specs ensures Settled(Pass(s, w, specs), w, spec) {
      var k :| 0 <= k < |specs| && specs[k] == spec;
      PassSettles(s, w, specs, k);
    }
    PassKeepsAhead(s, w, specs);
    SettledPassDoesNothing(Pass(s, w, specs), w, specs);
  }

  /** From any state at all, two failure-free passes settle everything: a third changes nothing. */
  lemma ThirdPassDoesNothing(s: State, w: World, specs: seq<AgentSpec>)
    requires Ahead(s) && Calm(w) && Faithful(w) && DistinctSpecs(specs)
    ensures var t := Pass(Pass(s, w, specs), w, specs); Pass(t, w, specs) == t.(calls := Pass(t, w, specs).calls)
  {
    var t := Pass(s, w, specs);
    forall spec | spec in specs ensures Replicas(t, spec) <= Target(spec) {
      var k :| 0 <= k < |specs| && specs[k] == spec;
      PassApproachesTargets(s, w, specs, k);
    }
    PassKeepsAhead(s, w, specs);
    SecondPassDoesNothing(t, w, specs);
  }

  // ----- A failure-free pass from any state, as arithmetic -----

  /** What a pass sees of a spec. */
  datatype Demand = Demand(count: nat, target: int)

  function DemandOf(s: State, spec: AgentSpec): Demand {
    Demand(Replicas(s, spec), Target(spec))
  }

  function DemandsIn(s: State, specs: seq<AgentSpec>, namespace: string): seq<Demand> {
    if specs == [] then []
    else (if specs[0].namespace == namespace then [DemandOf(s, specs[0])] else []) + DemandsIn(s, specs[1..], namespace)
  }

  /** A namespace's total after one of its specs has been reconciled... */
  function AfterSpec(total: int, quota: int, d: Demand): int {
    if d.count >= d.target then total - (d.count - d.target) else Filled(total, quota, d.target - d.count)
  }

  /** ...and after all of them, in order. */
  function AfterAll(total: int, quota: int, demands: seq<Demand>): int
    decreases |demands|
  {
    if demands == [] then total else AfterAll(AfterSpec(total, quota, demands[0]), quota, demands[1..])
  }

  /** The namespace's total when the pass comes to the k-th spec. */
  function TotalBefore(s: State, w: World, specs: seq<AgentSpec>, k: nat): int
    requires k < |specs|
  {
    var namespace := specs[k].namespace;
    AfterAll(Total(s, namespace), Quota(w, namespace), DemandsIn(s, specs[..k], namespace))
  }

  lemma {:induction false} CalmDeletesTotals(s: State, w: World, spec: AgentSpec, victims: seq<Drone>,
                                             namespace: string)
    requires Calm(w) && DistinctDrones(victims)
    requires forall d | d in victims :: d in s.drones && Belongs(d, spec)
    ensures Total(DeleteMany(s, w, victims), namespace)
         == Total(s, namespace) - if spec.namespace == namespace then |victims| else 0
  {
    if victims != [] {
      var n := |victims| - 1;
      var d, before := victims[n], victims[..n];
      CalmDeletesTotals(s, w, spec, before, namespace);
      DeletesTakeAtMost(s, w, spec, before, spec);
      var u := DeleteMany(s, w, before);
      assert d in victims && d in u.drones && DeleteMany(s, w, victims).drones == u.drones - {d};
      AddedOne(u.drones - {d}, d, spec, namespace);
      assert u.drones - {d} + {d} == u.drones;
    }
  }

  lemma ReconcileTotals(s: State, w: World, spec: AgentSpec, namespace: string)
    requires Ahead(s) && Calm(w) && Faithful(w)
    ensures var t := ReconcileSpec(s, w, spec);
      && Total(t, namespace) == (if spec.namespace == namespace
                                 then AfterSpec(Total(s, namespace), Quota(w, namespace), DemandOf(s, spec))
                                 else Total(s, namespace))
      && Replicas(t, spec) == Replicas(s, spec) + Total(t, spec.namespace) - Total(s, spec.namespace)
  {
    var stored := OfSpec(s.drones, spec);
    var listing := w.order(stored);
    assert Lists(listing, stored);
    if |listing| <= Target(spec) {
      ReconcileFills(s, w, spec, namespace);
      ReconcileFills(s, w, spec, spec.namespace);
    } else {
      var victims := listing[..|listing| - Target(spec)];
      assert forall d | d in victims :: d in stored;
      CalmDeletesTotals(s, w, spec, victims, namespace);
      CalmDeletesTotals(s, w, spec, victims, spec.namespace);
      DeletesTakeAtMost(s, w, spec, victims, spec);
    }
  }

  lemma {:induction false} DemandsDependOnCounts(s: State, t: State, specs: seq<AgentSpec>, namespace: string)
    requires forall spec | spec in specs :: Replicas(s, spec) == Replicas(t, spec)
    ensures DemandsIn(s, specs, namespace) == DemandsIn(t, specs, namespace)
  {
    if specs != [] {
      DemandsDependOnCounts(s, t, specs[1..], namespace);
    }
  }

  /** Reconciling the first spec is the first step of the fold. */
  lemma FirstStepOfFold(s: State, w: World, specs: seq<AgentSpec>, some: seq<AgentSpec>, namespace: string)
    requires Ahead(s) && Calm(w) && Faithful(w) && DistinctSpecs(specs) && specs != []
    requires some != [] && some[0] == specs[0] && forall spec | spec in some[1..] :: spec in specs[1..]
    ensures var t, quota := ReconcileSpec(s, w, specs[0]), Quota(w, namespace);
      AfterAll(Total(s, namespace), quota, DemandsIn(s, some, namespace))
      == AfterAll(Total(t, namespace), quota, DemandsIn(t, some[1..], namespace))
  {
    var t := ReconcileSpec(s, w, specs[0]);
    ReconcileTotals(s, w, specs[0], namespace);
    RestSeesItsCounts(s, w, specs);
    DemandsDependOnCounts(s, t, some[1..], namespace);
    var rest := DemandsIn(t, some[1..], namespace);
    if specs[0].namespace == namespace {
      assert ([DemandOf(s, specs[0])] + rest)[1..] == rest;
    } else {
      assert DemandsIn(s, some, namespace) == rest;
    }
  }

  /** From any state, a failure-free pass takes every namespace where the integer fold over its specs' counts does. */
  lemma {:induction false} PassTotals(s: State, w: World, specs: seq<AgentSpec>, namespace: string)
    requires Ahead(s) && Calm(w) && Faithful(w) && DistinctSpecs(specs)
    ensures Total(Pass(s, w, specs), namespace)
         == AfterAll(Total(s, namespace), Quota(w, namespace), DemandsIn(s, specs, namespace))
    decreases |specs|
  {
    if specs != [] {
      FirstStepOfFold(s, w, specs, specs, namespace);
      ReconcileKeepsAhead(s, w, specs[0]);
      PassTotals(ReconcileSpec(s, w, specs[0]), w, specs[1..], namespace);
    }
  }

  /** And each spec gains or loses what its own step of the fold does. */
  lemma {:induction false} PassReplicas(s: State, w: World, specs: seq<AgentSpec>, k: nat)
    requires Ahead(s) && Calm(w) && Faithful(w) && DistinctSpecs(specs) && k < |specs|
    ensures var before := TotalBefore(s, w, specs, k);
      Replicas(Pass(s, w, specs), specs[k])
      == Replicas(s, specs[k]) + AfterSpec(before, Quota(w, specs[k].namespace), DemandOf(s, specs[k])) - before
    decreases |specs|
  {
    var t := ReconcileSpec(s, w, specs[0]);
    ReconcileKeepsAhead(s, w, specs[0]);
    if k == 0 {
      ReconcileTotals(s, w, specs[0], specs[0].namespace);
      PassLeavesOthersAlone(t, w, specs[1..], specs[0]);
      assert specs[..0] == [];
    } else {
      PassReplicas(t, w, specs[1..], k - 1);
      RestSeesItsCounts(s, w, specs);
      assert specs[k] in specs[1..] by { assert specs[1..][k - 1] == specs[k]; }
      assert specs[..k][1..] == specs[1..][..k - 1];
      FirstStepOfFold(s, w, specs, specs[..k], specs[k].namespace);
    }
  }

  /** The first pass refuses the k-th spec a replica, and what later specs give up leaves room for it. */
  predicate StillShort(s: State, w: World, specs: seq<AgentSpec>, k: nat)
    requires k < |specs|
  {
    var namespace, missing := specs[k].namespace, Target(specs[k]) - Replicas(s, specs[k]);
    var quota := Quota(w, namespace);
    && 0 < quota && missing > 0 && TotalBefore(s, w, specs, k) + missing > quota
    && AfterAll(Total(s, namespace), quota, DemandsIn(s, specs, namespace)) < quota
  }

  /** After one failure-free pass from any state, a second one has something to do if and only if, by the counts before
      the first, some spec is refused a replica in a namespace that later shrinks below its quota. */
  lemma SecondPassActsExactlyWhen(s: State, w: World, specs: seq<AgentSpec>)
    requires Ahead(s) && Calm(w) && Faithful(w) && DistinctSpecs(specs)
    ensures var t := Pass(s, w, specs);
      Pass(t, w, specs) != t.(calls := Pass(t, w, specs).calls)
      <==> exists k | 0 <= k < |specs| :: StillShort(s, w, specs, k)
  {
    var t := Pass(s, w, specs);
    forall k | 0 <= k < |specs| ensures Settled(t, w, specs[k]) <==> !StillShort(s, w, specs, k) {
      PassReplicas(s, w, specs, k);
      PassTotals(s, w, specs, specs[k].namespace);
    }
    PassKeepsAhead(s, w, specs);
    PassDoesNothingExactlyWhenSettled(t, w, specs);
    if forall spec | spec in specs :: Settled(t, w, spec) {
      assert forall k | 0 <= k < |specs| :: specs[k] in specs;
    } else {
      var spec :| spec in specs && !Settled(t, w, spec);
      var k :| 0 <= k < |specs| && specs[k] == spec;
      assert StillShort(s, w, specs, k);
    }
  }

  /** It does happen: a refused spec ahead of one that is above its target gets its replica only in the second pass. */
  lemma SecondPassIsNeeded(w: World)
    requires Calm(w) && Faithful(w) && w.quotas == map["cell" := 2]
    ensures var (s, specs) := Crowded(); var t := Pass(s, w, specs);
      Tracked(s) && Replicas(t, specs[0]) == 0 && Replicas(Pass(t, w, specs), specs[0]) == 1
  {
    var (s, specs) := Crowded();
    var t := Pass(s, w, specs);
    CrowdedCounts();
    assert specs[..0] == [] && specs[1..][1..] == [];
    var demands := [Demand(0, 1), Demand(2, 1)];
    assert DemandsIn(s, specs[1..], "cell") == [demands[1]] && DemandsIn(s, specs, "cell") == demands;
    assert demands[1..] == [demands[1]] && demands[1..][1..] == [];
    PassReplicas(s, w, specs, 0);
    PassTotals(s, w, specs, "cell");
    PassKeepsAhead(s, w, specs);
    PassReplicas(t, w, specs, 0);
  }

  /** Two drones of one spec that wants one, in a namespace with room for two, and a spec without any. */
  function Crowded(): (State, seq<AgentSpec>) {
    (State({Drone("cell", "excess", 0), Drone("cell", "excess", 1)}, map[0 := 0, 1 := 1], {0, 1}, 2, 0),
     [AgentSpec("cell", "starved", 1), AgentSpec("cell", "excess", 1)])
  }

  lemma CrowdedCounts()
    ensures var (s, specs) := Crowded();
      && Tracked(s) && Total(s, "cell") == 2 && Replicas(s, specs[0]) == 0 && Replicas(s, specs[1]) == 2
      && OfSpec(s.drones, specs[1]) == s.drones
  {
    var (s, specs) := Crowded();
    var a, b := Drone("cell", "excess", 0), Drone("cell", "excess", 1);
    assert s.drones == {a, b} && a in s.drones && b in s.drones;
    assert HasDrone(s.drones, 0) && HasDrone(s.drones, 1) by { assert a.uid == 0 && b.uid == 1; }
    assert InNamespace(s.drones, "cell") == OfSpec(s.drones, specs[1]) == {a, b} && OfSpec(s.drones, specs[0]) == {};
  }
}
