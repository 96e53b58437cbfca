/** Resource reservation (internal/scheduler/scheduler.go) with task tiers (internal/scheduler/tier.go).
    CPU is in millicores, memory in bytes; float64 products are exact reals truncated towards zero. */
module Scheduling {
  import opened Arithmetic

  const TOTAL_CPU := 100_000
  const TOTAL_MEMORY := 100 * 1024 * 1024 * 1024
  const MIN_CPU := 100
  const MIN_MEMORY := 128 * 1024 * 1024

  datatype Resources = Resources(cpu: int, memory: int)

  datatype Spec = Spec(tier: string, requests: Resources)

  datatype CostPreference = Minimize | Balance | Maximize

  datatype TierHints = TierHints(tier: string, priority: int, multiplier: real, cost: CostPreference)

  function EvaluateTier(spec: Spec): TierHints {
    var tier := if spec.tier == "" then "standard" else spec.tier;
    match tier
    case "simple" => TierHints(tier, 1, 0.8, Minimize)
    case "complex" => TierHints(tier, 10, 1.5, Maximize)
    case _ => TierHints(tier, 5, 1.0, Balance)
  }

  function Scale(amount: int, multiplier: real): int {
    Truncate(amount as real * multiplier)
  }

  function AtLeast(amount: int, minimum: int): int {
    if amount < minimum then minimum else amount
  }

  /** What a grant for this specification reserves. */
  function Demand(spec: Spec): Resources {
    var hints := EvaluateTier(spec);
    var cpu := if spec.requests.cpu == 0 then 500 else spec.requests.cpu;
    var memory := if spec.requests.memory == 0 then 512 * 1024 * 1024 else spec.requests.memory;
    Resources(AtLeast(Scale(cpu, hints.multiplier), MIN_CPU), AtLeast(Scale(memory, hints.multiplier), MIN_MEMORY))
  }

  predicate Fits(demand: Resources, available: Resources) {
    demand.cpu <= available.cpu && demand.memory <= available.memory
  }

  function Minus(a: Resources, b: Resources): Resources {
    Resources(a.cpu - b.cpu, a.memory - b.memory)
  }

  function Plus(a: Resources, b: Resources): Resources {
    Resources(a.cpu + b.cpu, a.memory + b.memory)
  }

  datatype Decision = Granted(resources: Resources) | InsufficientCPU | InsufficientMemory

  function ScheduleStep(available: Resources, spec: Spec): (Resources, Decision) {
    var demand := Demand(spec);
    if demand.cpu > available.cpu then (available, InsufficientCPU)
    else if demand.memory > available.memory then (available, InsufficientMemory)
    else (Minus(available, demand), Granted(demand))
  }

  method ApplyTierHints(requests: Resources, hints: TierHints) returns (adjusted: Resources)
    ensures adjusted.cpu == AtLeast(Scale(requests.cpu, hints.multiplier), MIN_CPU)
    ensures adjusted.memory == AtLeast(Scale(requests.memory, hints.multiplier), MIN_MEMORY)
  {
    adjusted := Resources(Scale(requests.cpu, hints.multiplier), Scale(requests.memory, hints.multiplier));
    if adjusted.cpu < MIN_CPU {
      adjusted := adjusted.(cpu := MIN_CPU);
    }
    if adjusted.memory < MIN_MEMORY {
      adjusted := adjusted.(memory := MIN_MEMORY);
    }
  }

  class Scheduler {
    var availableCPU: int
    var availableMemory: int

    ghost function Available(): Resources
      reads this
    {
      Resources(availableCPU, availableMemory)
    }

    constructor ()
      ensures Available() == Resources(100_000, 107_374_182_400) // 100 cores and 100 GiB
    {
      availableCPU, availableMemory := TOTAL_CPU, TOTAL_MEMORY;
    }

    method Schedule(spec: Spec) returns (decision: Decision)
      modifies this
      ensures (Available(), decision) == ScheduleStep(old(Available()), spec)
    {
      var tierHints := EvaluateTier(spec);
      var base := spec.requests;
      if base.cpu == 0 {
        base := base.(cpu := 500);
      }
      if base.memory == 0 {
        base := base.(memory := 512 * 1024 * 1024);
      }
      var required := ApplyTierHints(base, tierHints);
      if required.cpu > availableCPU {
        return InsufficientCPU;
      }
      if required.memory > availableMemory {
        return InsufficientMemory;
      }
      availableCPU := availableCPU - required.cpu;
      availableMemory := availableMemory - required.memory;
      return Granted(required);
    }

    method GetResourceAvailability() returns (available: Resources, total: Resources)
      ensures available == Available() && total == Resources(100_000, 107_374_182_400)
    {
      available, total := Resources(availableCPU, availableMemory), Resources(TOTAL_CPU, TOTAL_MEMORY);
    }
  }

  // ----- Runs -----

  function Run(available: Resources, specs: seq<Spec>): Resources
    decreases |specs|
  {
    if specs == [] then available else Run(ScheduleStep(available, specs[0]).0, specs[1..])
  }

  /** The reservations granted, in order. */
  function Grants(available: Resources, specs: seq<Spec>): seq<Resources>
    decreases |specs|
  {
    if specs == [] then []
    else
      var step := ScheduleStep(available, specs[0]);
      (if step.1.Granted? then [step.1.resources] else []) + Grants(step.0, specs[1..])
  }

  function Sum(grants: seq<Resources>): Resources {
    if grants == [] then Resources(0, 0) else Plus(grants[0], Sum(grants[1..]))
  }

  /** Negative, zero and tiny requests are all raised to the minimum. */
  lemma DemandHasAFloor(spec: Spec)
    ensures Demand(spec).cpu >= MIN_CPU && Demand(spec).memory >= MIN_MEMORY
  {}

  /** Nothing is lost or made up: what is available plus everything granted is the initial total, and availability
      never goes negative. */
  lemma {:induction false} Conservation(available: Resources, specs: seq<Spec>)
    requires available.cpu >= 0 && available.memory >= 0
    ensures var end := Run(available, specs);
            && Plus(end, Sum(Grants(available, specs))) == available
            && end.cpu >= 0 && end.memory >= 0
    decreases |specs|
  {
    if specs != [] {
      var step := ScheduleStep(available, specs[0]);
      Conservation(step.0, specs[1..]);
      if step.1.Granted? {
        assert Grants(available, specs)[1..] == Grants(step.0, specs[1..]);
      } else {
        assert Grants(available, specs) == Grants(step.0, specs[1..]);
      }
    }
  }

  lemma {:induction false} GrantsAreCostly(available: Resources, specs: seq<Spec>)
    ensures Sum(Grants(available, specs)).memory >= MIN_MEMORY * |Grants(available, specs)|
    decreases |specs|
  {
    if specs != [] {
      var step := ScheduleStep(available, specs[0]);
      GrantsAreCostly(step.0, specs[1..]);
      DemandHasAFloor(specs[0]);
      if step.1.Granted? {
        assert Grants(available, specs)[1..] == Grants(step.0, specs[1..]);
      } else {
        assert Grants(available, specs) == Grants(step.0, specs[1..]);
      }
    }
  }

  const CAPACITY := 800

  /** No sequence of calls is granted more than 800 reservations... */
  lemma AtMost800Grants(specs: seq<Spec>)
    ensures |Grants(Resources(TOTAL_CPU, TOTAL_MEMORY), specs)| <= CAPACITY
  {
    var total := Resources(TOTAL_CPU, TOTAL_MEMORY);
    Conservation(total, specs);
    GrantsAreCostly(total, specs);
  }

  /** ...and the smallest requests reach that number. */
  lemma {:induction false} MinimalRequestsAllFit(available: Resources, n: nat)
    requires available.cpu >= MIN_CPU * n && available.memory >= MIN_MEMORY * n
    ensures |Grants(available, seq(n, _ => Spec("standard", Resources(MIN_CPU, MIN_MEMORY))))| == n
    decreases n
  {
    var specs := seq(n, _ => Spec("standard", Resources(MIN_CPU, MIN_MEMORY)));
    if n > 0 {
      assert Demand(specs[0]) == Resources(MIN_CPU, MIN_MEMORY);
      assert specs[1..] == seq(n - 1, _ => Spec("standard", Resources(MIN_CPU, MIN_MEMORY)));
      MinimalRequestsAllFit(ScheduleStep(available, specs[0]).0, n - 1);
    }
  }

  lemma Exactly800GrantsArePossible()
    ensures var smallest := seq(CAPACITY, _ => Spec("standard", Resources(MIN_CPU, MIN_MEMORY)));
            |Grants(Resources(TOTAL_CPU, TOTAL_MEMORY), smallest)| == CAPACITY
  {
    MinimalRequestsAllFit(Resources(TOTAL_CPU, TOTAL_MEMORY), CAPACITY);
  }

  /** A call is granted exactly when its demand fits. Since nothing is ever released, a specification turned down
      once is turned down for good, whatever is scheduled in between. */
  lemma {:induction false} RefusalIsPermanent(available: Resources, specs: seq<Spec>, spec: Spec)
    ensures ScheduleStep(available, spec).1.Granted? <==> Fits(Demand(spec), available)
    ensures !Fits(Demand(spec), available) ==> !ScheduleStep(Run(available, specs), spec).1.Granted?
    decreases |specs|
  {
    if specs != [] {
      DemandHasAFloor(specs[0]);
      RefusalIsPermanent(ScheduleStep(available, specs[0]).0, specs[1..], spec);
    }
  }

  /** Tiers order the demand of one and the same request: simple, standard, complex. */
  lemma TiersAreOrdered(requests: Resources)
    ensures var simple, standard := Demand(Spec("simple", requests)), Demand(Spec("standard", requests));
            var complex := Demand(Spec("complex", requests));
            && simple.cpu <= standard.cpu <= complex.cpu
            && simple.memory <= standard.memory <= complex.memory
  {}

  // ----- What a request is granted, in its own numbers -----

  /** d is what a tier makes of a requested amount: four fifths of it for simple tasks, one and a half times it for
      complex ones, rounded down, the amount itself for any other; and never less than the minimum. */
  predicate TierTakes(tier: string, amount: int, minimum: int, d: int) {
    match tier
    case "simple" => if 8 * amount < 10 * minimum then d == minimum else 10 * d <= 8 * amount < 10 * (d + 1)
    case "complex" => if 3 * amount < 2 * minimum then d == minimum else 2 * d <= 3 * amount < 2 * (d + 1)
    case _ => if amount < minimum then d == minimum else d == amount
  }

  lemma TierTakesScaled(tier: string, amount: int, minimum: int)
    requires minimum > 0
    ensures var multiplier := EvaluateTier(Spec(tier, Resources(0, 0))).multiplier;
            forall d :: TierTakes(tier, amount, minimum, d) <==> d == AtLeast(Scale(amount, multiplier), minimum)
  {
    var multiplier := EvaluateTier(Spec(tier, Resources(0, 0))).multiplier;
    var scaled := amount as real * multiplier;
    if amount >= 0 {
      assert scaled >= 0.0;
      assert Scale(amount, multiplier) as real <= scaled < Scale(amount, multiplier) as real + 1.0;
    } else {
      assert scaled < 0.0;
      assert Scale(amount, multiplier) <= 0;
    }
  }

  /** The reply to a request for this much CPU (500m when none is named) and memory (512 MiB): it is refused for CPU, or
      else for memory, if and only if what its tier makes of it, at least 100m and 128 MiB, exceeds what is left; and
      otherwise exactly that is granted and taken off. */
  lemma ScheduleInNumbers(available: Resources, spec: Spec, cpu: int, memory: int)
    requires TierTakes(spec.tier, if spec.requests.cpu == 0 then 500 else spec.requests.cpu, 100, cpu)
    requires TierTakes(spec.tier, if spec.requests.memory == 0 then 536_870_912 else spec.requests.memory,
                       134_217_728, memory)
    ensures ScheduleStep(available, spec)
            == if cpu > available.cpu then (available, InsufficientCPU)
               else if memory > available.memory then (available, InsufficientMemory)
               else (Resources(available.cpu - cpu, available.memory - memory), Granted(Resources(cpu, memory)))
  {
    TierTakesScaled(spec.tier, if spec.requests.cpu == 0 then 500 else spec.requests.cpu, 100);
    TierTakesScaled(spec.tier, if spec.requests.memory == 0 then 536_870_912 else spec.requests.memory, 134_217_728);
  }

  lemma EveryRequestTakesSomething(tier: string, amount: int, minimum: int) returns (d: int)
    requires minimum > 0
    ensures TierTakes(tier, amount, minimum, d) && d >= minimum
  {
    TierTakesScaled(tier, amount, minimum);
    d := AtLeast(Scale(amount, EvaluateTier(Spec(tier, Resources(0, 0))).multiplier), minimum);
  }

  /** Harder tiers come first and may cost more. */
  lemma HintsFollowTheTier(requests: Resources)
    ensures var simple, complex := EvaluateTier(Spec("simple", requests)), EvaluateTier(Spec("complex", requests));
            && simple.priority == 1 && simple.cost == Minimize && complex.priority == 10 && complex.cost == Maximize
            && (forall tier | tier != "simple" && tier != "complex" ::
                  var other := EvaluateTier(Spec(tier, requests));
                  other.priority == 5 && other.cost == Balance && other.multiplier == 1.0)
  {}
}
