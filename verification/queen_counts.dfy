/** How many Drones reconciliation leaves (internal/queen/queen.go), in the numbers of the AgentSpecs and of the Cells'
    quotas. */
module QueenCounts {
  import opened Arithmetic
  import opened Queen

  /** Scheduler, launcher and store do what they are asked; whether Cells can be read is left open. */
  ghost predicate NothingFails(w: World) {
    && (forall n :: w.luck(n).scheduled && w.luck(n).launched && w.luck(n).created && w.luck(n).deleted)
    && (forall spec :: w.listed(spec))
  }

  /** The namespace can take n more: it has no quota, the quota can never be looked up, or n more fit it. */
  ghost predicate HasRoom(s: State, w: World, namespace: string, n: nat) {
    || namespace !in w.quotas || w.quotas[namespace] <= 0
    || (forall i :: !(w.luck(i).cellRead && w.luck(i).dronesListed))
    || Total(s, namespace) + n <= w.quotas[namespace]
  }

  // ----- One spec -----

  lemma {:induction false} CreatesSucceed(s: State, w: World, spec: AgentSpec, n: nat)
    requires Ahead(s) && NothingFails(w) && HasRoom(s, w, spec.namespace, n)
    ensures var t := CreateMany(s, w, spec, n);
            && Replicas(t, spec) == Replicas(s, spec) + n
            && Total(t, spec.namespace) == Total(s, spec.namespace) + n
  {
    if n > 0 {
      CreatesSucceed(s, w, spec, n - 1);
      CreatesKeepAhead(s, w, spec, n - 1);
      CreateCounts(CreateMany(s, w, spec, n - 1), w, spec, spec, spec.namespace);
    }
  }

  function AsSet(drones: seq<Drone>): set<Drone> {
    set d | d in drones
  }

  lemma {:induction false} DeletesSucceed(s: State, w: World, victims: seq<Drone>)
    requires NothingFails(w)
    ensures DeleteMany(s, w, victims).drones == s.drones - AsSet(victims)
  {
    if victims != [] {
      var n := |victims| - 1;
      DeletesSucceed(s, w, victims[..n]);
      assert victims == victims[..n] + [victims[n]];
      assert AsSet(victims) == AsSet(victims[..n]) + {victims[n]};
    }
  }

  lemma {:induction false} SubsetSize(a: set<Drone>, b: set<Drone>)
    requires a <= b
    ensures |a| <= |b|
  {
    assert b == a + (b - a);
  }

  lemma FewerInNamespace(s: State, t: State, namespace: string)
    requires t.drones <= s.drones
    ensures Total(t, namespace) <= Total(s, namespace)
  {
    SubsetSize(InNamespace(t.drones, namespace), InNamespace(s.drones, namespace));
  }

  /** Reconciling a spec, from any number of Drones of it, below or above, ends with exactly as many as it asks for: its
      minReplicas, or one if that is less than one. The surplus it deletes is the first Drones of the listing. */
  lemma ReconcileReachesMinReplicas(s: State, w: World, spec: AgentSpec)
    requires Ahead(s) && Faithful(w) && NothingFails(w)
    requires HasRoom(s, w, spec.namespace,
                     Max(0, (if spec.minReplicas >= 1 then spec.minReplicas else 1) - Replicas(s, spec)))
    ensures var t, wanted := ReconcileSpec(s, w, spec), if spec.minReplicas >= 1 then spec.minReplicas else 1;
            var listing := w.order(OfSpec(s.drones, spec));
            && Replicas(t, spec) == wanted
            && Total(t, spec.namespace) <= Total(s, spec.namespace) + Max(0, wanted - Replicas(s, spec))
            && |listing| == Replicas(s, spec)
            && (Replicas(s, spec) >= wanted ==>
                  t.drones == s.drones - AsSet(listing[..Replicas(s, spec) - wanted]))
  {
    var stored, wanted := OfSpec(s.drones, spec), if spec.minReplicas >= 1 then spec.minReplicas else 1;
    var listing := w.order(stored);
    var t := ReconcileSpec(s, w, spec);
    assert Lists(listing, stored);
    if |listing| < wanted {
      CreatesSucceed(s, w, spec, wanted - |listing|);
    } else {
      var surplus := |listing| - wanted;
      var victims := listing[..surplus];
      if surplus == 0 {
        assert victims == [] && t == s;
      } else {
        DeletesSucceed(s, w, victims);
        assert forall d | d in victims :: d in stored;
        DeletesTakeAtMostAll(s, w, spec, victims);
        FewerInNamespace(s, t, spec.namespace);
      }
    }
  }

  lemma DeletesTakeAtMostAll(s: State, w: World, spec: AgentSpec, victims: seq<Drone>)
    requires NothingFails(w) && DistinctDrones(victims) && forall d | d in victims :: d in OfSpec(s.drones, spec)
    ensures Replicas(DeleteMany(s, w, victims), spec) == Replicas(s, spec) - |victims|
  {
    DeletesSucceed(s, w, victims);
    var gone := AsSet(victims);
    SizeOfDistinct(victims);
    assert OfSpec(s.drones - gone, spec) == OfSpec(s.drones, spec) - gone;
    assert OfSpec(s.drones, spec) - gone + gone == OfSpec(s.drones, spec);
  }

  lemma {:induction false} SizeOfDistinct(victims: seq<Drone>)
    requires DistinctDrones(victims)
    ensures |AsSet(victims)| == |victims|
  {
    if victims != [] {
      var n := |victims| - 1;
      SizeOfDistinct(victims[..n]);
      assert victims == victims[..n] + [victims[n]];
      assert AsSet(victims) == AsSet(victims[..n]) + {victims[n]};
    }
  }

  // ----- A whole pass -----

  /** How many Drones the specs of a namespace are short of, in all. */
  function Needed(s: State, specs: seq<AgentSpec>, namespace: string): nat {
    if specs == [] then 0
    else
      (if specs[0].namespace == namespace
       then Max(0, (if specs[0].minReplicas >= 1 then specs[0].minReplicas else 1) - Replicas(s, specs[0]))
       else 0)
      + Needed(s, specs[1..], namespace)
  }

  lemma {:induction false} NeededDependsOnCounts(s: State, t: State, specs: seq<AgentSpec>, namespace: string)
    requires forall spec | spec in specs :: Replicas(s, spec) == Replicas(t, spec)
    ensures Needed(s, specs, namespace) == Needed(t, specs, namespace)
  {
    if specs != [] {
      NeededDependsOnCounts(s, t, specs[1..], namespace);
    }
  }

  /** Reconciling a spec of another namespace leaves this one's Drones alone. */
  lemma ReconcileElsewhere(s: State, w: World, spec: AgentSpec, namespace: string)
    requires Ahead(s) && Faithful(w) && spec.namespace != namespace
    ensures Total(ReconcileSpec(s, w, spec), namespace) == Total(s, namespace)
  {
    var stored := OfSpec(s.drones, spec);
    var listing := w.order(stored);
    assert Lists(listing, stored);
    if |listing| < Target(spec) {
      CreatesElsewhere(s, w, spec, Target(spec) - |listing|, namespace);
    } else if |listing| > Target(spec) {
      var victims := listing[..|listing| - Target(spec)];
      assert forall d | d in victims :: d in stored;
      DeletesElsewhere(s, w, spec, victims, namespace);
    }
  }

  lemma {:induction false} DeletesElsewhere(s: State, w: World, spec: AgentSpec, victims: seq<Drone>, namespace: string)
    requires spec.namespace != namespace && forall d | d in victims :: Belongs(d, spec)
    ensures Total(DeleteMany(s, w, victims), namespace) == Total(s, namespace)
  {
    if victims != [] {
      var n := |victims| - 1;
      assert victims[n] in victims && forall d | d in victims[..n] :: d in victims;
      DeletesElsewhere(s, w, spec, victims[..n], namespace);
      var u, t := DeleteMany(s, w, victims[..n]), DeleteMany(s, w, victims);
      assert InNamespace(t.drones, namespace) == InNamespace(u.drones, namespace);
    }
  }

  lemma RoomForTheRest(s: State, w: World, specs: seq<AgentSpec>, namespace: string)
    requires Ahead(s) && Faithful(w) && NothingFails(w) && DistinctSpecs(specs) && specs != []
    requires HasRoom(s, w, namespace, Needed(s, specs, namespace))
    ensures var t := ReconcileSpec(s, w, specs[0]); HasRoom(t, w, namespace, Needed(t, specs[1..], namespace))
  {
    var t := ReconcileSpec(s, w, specs[0]);
    RestSeesItsCounts(s, w, specs);
    NeededDependsOnCounts(s, t, specs[1..], namespace);
    if specs[0].namespace == namespace {
      ReconcileReachesMinReplicas(s, w, specs[0]);
    } else {
      ReconcileElsewhere(s, w, specs[0], namespace);
    }
  }

  /** After one pass in which nothing fails, every spec whose namespace has room for all that its specs are short of has
      exactly its minReplicas, or one if that is less than one. */
  lemma {:induction false} PassReachesMinReplicas(s: State, w: World, specs: seq<AgentSpec>, k: nat)
    requires Ahead(s) && Faithful(w) && NothingFails(w) && DistinctSpecs(specs) && k < |specs|
    requires HasRoom(s, w, specs[k].namespace, Needed(s, specs, specs[k].namespace))
    ensures Replicas(Pass(s, w, specs), specs[k]) == if specs[k].minReplicas >= 1 then specs[k].minReplicas else 1
    decreases |specs|
  {
    var t := ReconcileSpec(s, w, specs[0]);
    ReconcileKeepsAhead(s, w, specs[0]);
    if k == 0 {
      ReconcileReachesMinReplicas(s, w, specs[0]);
      PassLeavesOthersAlone(t, w, specs[1..], specs[0]);
    } else {
      RoomForTheRest(s, w, specs, specs[k].namespace);
      PassReachesMinReplicas(t, w, specs[1..], k - 1);
    }
  }

  // ----- Quotas -----

  /** The Cell and its Drones can always be looked up. */
  ghost predicate QuotaIsReadable(w: World) {
    forall n :: w.luck(n).cellRead && w.luck(n).dronesListed
  }

  lemma {:induction false} CreatesKeepQuota(s: State, w: World, spec: AgentSpec, n: nat, namespace: string)
    requires Ahead(s) && QuotaIsReadable(w) && namespace in w.quotas && 0 < w.quotas[namespace]
    requires Total(s, namespace) <= w.quotas[namespace]
    ensures Total(CreateMany(s, w, spec, n), namespace) <= w.quotas[namespace]
  {
    if n > 0 {
      CreatesKeepQuota(s, w, spec, n - 1, namespace);
      CreatesKeepAhead(s, w, spec, n - 1);
      CreateCounts(CreateMany(s, w, spec, n - 1), w, spec, spec, namespace);
    }
  }

  lemma {:induction false} DeletesOnlyTakeAway(s: State, w: World, victims: seq<Drone>)
    ensures DeleteMany(s, w, victims).drones <= s.drones
  {
    if victims != [] {
      DeletesOnlyTakeAway(s, w, victims[..|victims| - 1]);
    }
  }

  /** Whatever else fails, a pass never takes a namespace past its quota. */
  lemma {:induction false} PassKeepsQuota(s: State, w: World, specs: seq<AgentSpec>, namespace: string)
    requires Ahead(s) && QuotaIsReadable(w) && namespace in w.quotas && 0 < w.quotas[namespace]
    requires Total(s, namespace) <= w.quotas[namespace]
    ensures Total(Pass(s, w, specs), namespace) <= w.quotas[namespace]
    decreases |specs|
  {
    if specs != [] {
      var spec := specs[0];
      var t, listing := ReconcileSpec(s, w, spec), w.order(OfSpec(s.drones, spec));
      if |listing| < Target(spec) {
        CreatesKeepQuota(s, w, spec, Target(spec) - |listing|, namespace);
      } else if |listing| > Target(spec) {
        DeletesOnlyTakeAway(s, w, listing[..|listing| - Target(spec)]);
        FewerInNamespace(s, DeleteMany(s, w, listing[..|listing| - Target(spec)]), namespace);
      }
      ReconcileKeepsAhead(s, w, spec);
      PassKeepsQuota(t, w, specs[1..], namespace);
    }
  }

  // ----- Why a creation fails -----

  /** A creation either adds exactly one Drone of the spec, with a process of its own, or changes nothing that is stored
      or running; and it fails only for a quota that is used up, or because something outside failed, the first of which
      it names. */
  lemma CreationAnswers(s: State, w: World, spec: AgentSpec)
    requires Tracked(s)
    ensures var (t, outcome) := CreateStep(s, w, spec);
            var luck := w.luck(s.calls);
            var full := && luck.cellRead && luck.dronesListed && spec.namespace in w.quotas
                        && 0 < w.quotas[spec.namespace] <= Total(s, spec.namespace);
            && outcome == (if full then QuotaExceeded else if !luck.scheduled then SchedulingFailed
                           else if !luck.launched then LaunchFailed else if !luck.created then StoreFailed
                           else Created)
            && (outcome != Created ==> t.drones == s.drones && t.running == s.running && t.registry == s.registry)
            && (outcome == Created ==>
                  exists d | d !in s.drones ::
                    && t.drones == s.drones + {d} && d.namespace == spec.namespace && d.agentspec == spec.name
                    && d.uid !in s.running && t.running == s.running + {d.uid})
  {
    var made := Drone(spec.namespace, spec.name, s.nextID);
    assert made !in s.drones && made.uid !in s.running;
  }
}
