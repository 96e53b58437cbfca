/** Which stored Drones have lost their process, after any number of reconciliation passes (internal/queen/queen.go):
    those whose last deletion failed in the store, after the process had been stopped. */
module QueenBacking {
  import opened Queen

  /** Deleting a Drone, and whether the store let it. */
  datatype Attempt = Attempt(d: Drone, deleted: bool)

  // ----- The deletions a run attempts, in order -----

  function DeletionsOf(s: State, w: World, victims: seq<Drone>): seq<Attempt> {
    if victims == [] then []
    else
      var n := |victims| - 1;
      var calls := DeleteMany(s, w, victims[..n]).calls;
      DeletionsOf(s, w, victims[..n]) + [Attempt(victims[n], w.luck(calls).deleted)]
  }

  function SpecDeletions(s: State, w: World, spec: AgentSpec): seq<Attempt> {
    var listing := w.order(OfSpec(s.drones, spec));
    var current, desired := |listing|, Target(spec);
    if w.listed(spec) && current > desired then DeletionsOf(s, w, listing[..current - desired]) else []
  }

  function PassDeletions(s: State, w: World, specs: seq<AgentSpec>): seq<Attempt>
    decreases |specs|
  {
    if specs == [] then []
    else SpecDeletions(s, w, specs[0]) + PassDeletions(ReconcileSpec(s, w, specs[0]), w, specs[1..])
  }

  function AfterRound(s: State, r: Round): State {
    if r.specsListed then Pass(s, r.world, r.specs) else s
  }

  function RunDeletions(s: State, rounds: seq<Round>): seq<Attempt>
    decreases |rounds|
  {
    if rounds == [] then []
    else
      var r := rounds[0];
      (if r.specsListed then PassDeletions(s, r.world, r.specs) else []) + RunDeletions(AfterRound(s, r), rounds[1..])
  }

  /** From a set of Drones, those left over once each attempt has added its Drone or taken it away. */
  function LeftOver(before: set<Drone>, attempts: seq<Attempt>): set<Drone> {
    if attempts == [] then before
    else
      var n := |attempts| - 1;
      var left := LeftOver(before, attempts[..n]);
      if attempts[n].deleted then left - {attempts[n].d} else left + {attempts[n].d}
  }

  lemma {:induction false} LeftOverTwice(before: set<Drone>, a: seq<Attempt>, b: seq<Attempt>)
    ensures LeftOver(before, a + b) == LeftOver(LeftOver(before, a), b)
  {
    if b == [] {
      assert a + b == a;
    } else {
      var n := |b| - 1;
      assert (a + b)[..|a + b| - 1] == a + b[..n];
      LeftOverTwice(before, a, b[..n]);
    }
  }

  ghost predicate LastFailedAt(attempts: seq<Attempt>, d: Drone, i: int) {
    0 <= i < |attempts| && attempts[i] == Attempt(d, false) && forall j | i < j < |attempts| :: attempts[j].d != d
  }

  /** From none, these are the Drones whose last deletion failed. */
  lemma {:induction false} LeftOverExactly(attempts: seq<Attempt>, d: Drone)
    ensures d in LeftOver({}, attempts) <==> exists i :: LastFailedAt(attempts, d, i)
  {
    if attempts != [] {
      var n := |attempts| - 1;
      LeftOverExactly(attempts[..n], d);
      if attempts[n].d == d {
        assert LastFailedAt(attempts, d, n) <==> !attempts[n].deleted;
      } else {
        assert forall i | i != n :: LastFailedAt(attempts, d, i) <==> LastFailedAt(attempts[..n], d, i);
      }
    }
  }

  // ----- What each step does -----

  function Unbacked(s: State): set<Drone> {
    set d | d in s.drones && d.uid !in s.running
  }

  lemma CreateKeepsUnbacked(s: State, w: World, spec: AgentSpec)
    requires Tracked(s)
    ensures Unbacked(CreateStep(s, w, spec).0) == Unbacked(s)
  {
    var t := CreateStep(s, w, spec).0;
    forall d ensures d in Unbacked(t) <==> d in Unbacked(s) {}
  }

  lemma {:induction false} CreatesKeepUnbacked(s: State, w: World, spec: AgentSpec, n: nat)
    requires Tracked(s)
    ensures Unbacked(CreateMany(s, w, spec, n)) == Unbacked(s)
  {
    if n > 0 {
      CreatesKeepUnbacked(s, w, spec, n - 1);
      CreatesKeepTracked(s, w, spec, n - 1);
      CreateKeepsUnbacked(CreateMany(s, w, spec, n - 1), w, spec);
    }
  }

  /** The process is stopped first; so a Drone that stays has lost it, and no other has. */
  lemma DeleteUnbacks(s: State, w: World, d: Drone)
    requires Tracked(s) && d in s.drones
    ensures Unbacked(DeleteStep(s, w, d)) == LeftOver(Unbacked(s), [Attempt(d, w.luck(s.calls).deleted)])
  {
    var t, attempts := DeleteStep(s, w, d), [Attempt(d, w.luck(s.calls).deleted)];
    assert attempts[..0] == [];
    forall e ensures e in Unbacked(t) <==> e in LeftOver(Unbacked(s), attempts) {}
  }

  lemma {:induction false} DeletesUnback(s: State, w: World, victims: seq<Drone>)
    requires Tracked(s) && DistinctDrones(victims) && forall d | d in victims :: d in s.drones
    ensures Unbacked(DeleteMany(s, w, victims)) == LeftOver(Unbacked(s), DeletionsOf(s, w, victims))
    ensures forall d | d in s.drones && d !in victims :: d in DeleteMany(s, w, victims).drones
  {
    if victims != [] {
      var n := |victims| - 1;
      var (before, d) := (victims[..n], victims[n]);
      DeletesUnback(s, w, before);
      DeletesKeepTracked(s, w, before);
      var u := DeleteMany(s, w, before);
      assert d in victims && d !in before && d in u.drones;
      DeleteUnbacks(u, w, d);
      LeftOverTwice(Unbacked(s), DeletionsOf(s, w, before), [Attempt(d, w.luck(u.calls).deleted)]);
    }
  }

  lemma ReconcileUnbacks(s: State, w: World, spec: AgentSpec)
    requires Tracked(s) && Faithful(w)
    ensures Unbacked(ReconcileSpec(s, w, spec)) == LeftOver(Unbacked(s), SpecDeletions(s, w, spec))
  {
    var stored := OfSpec(s.drones, spec);
    var listing := w.order(stored);
    assert Lists(listing, stored);
    var current, desired := |listing|, Target(spec);
    if current < desired {
      CreatesKeepUnbacked(s, w, spec, desired - current);
    } else if current > desired {
      var victims := listing[..current - desired];
      assert forall d | d in victims :: d in stored;
      DeletesUnback(s, w, victims);
    }
  }

  lemma {:induction false} PassUnbacks(s: State, w: World, specs: seq<AgentSpec>)
    requires Tracked(s) && Faithful(w)
    ensures Unbacked(Pass(s, w, specs)) == LeftOver(Unbacked(s), PassDeletions(s, w, specs))
    decreases |specs|
  {
    if specs != [] {
      var t := ReconcileSpec(s, w, specs[0]);
      ReconcileUnbacks(s, w, specs[0]);
      ReconcileKeepsTracked(s, w, specs[0]);
      PassUnbacks(t, w, specs[1..]);
      LeftOverTwice(Unbacked(s), SpecDeletions(s, w, specs[0]), PassDeletions(t, w, specs[1..]));
    }
  }

  lemma {:induction false} RunUnbacks(s: State, rounds: seq<Round>)
    requires Tracked(s) && forall r | r in rounds :: Faithful(r.world)
    ensures Unbacked(Rounds(s, rounds)) == LeftOver(Unbacked(s), RunDeletions(s, rounds))
    decreases |rounds|
  {
    if rounds != [] {
      var r := rounds[0];
      var t := AfterRound(s, r);
      assert r in rounds && forall x | x in rounds[1..] :: x in rounds;
      var first := if r.specsListed then PassDeletions(s, r.world, r.specs) else [];
      if r.specsListed {
        PassUnbacks(s, r.world, r.specs);
        PassKeepsTracked(s, r.world, r.specs);
      }
      RunUnbacks(t, rounds[1..]);
      LeftOverTwice(Unbacked(s), first, RunDeletions(t, rounds[1..]));
    }
  }

  /** After every run from a state in which each stored Drone has its process, whatever fails in it, a stored Drone is
      without one if and only if its last deletion failed; so every Drone has its process if and only if no deletion
      that failed was left at that. */
  lemma BackedExactlyWhen(s: State, rounds: seq<Round>)
    requires Tracked(s) && Backed(s) && forall r | r in rounds :: Faithful(r.world)
    ensures var end, attempts := Rounds(s, rounds), RunDeletions(s, rounds);
            && (forall d :: d in end.drones && d.uid !in end.running <==> exists i :: LastFailedAt(attempts, d, i))
            && (Backed(end) <==> !exists d, i :: LastFailedAt(attempts, d, i))
  {
    var end, attempts := Rounds(s, rounds), RunDeletions(s, rounds);
    assert Unbacked(s) == {};
    RunUnbacks(s, rounds);
    forall d ensures d in end.drones && d.uid !in end.running <==> exists i :: LastFailedAt(attempts, d, i) {
      LeftOverExactly(attempts, d);
      assert d in Unbacked(end) <==> d in end.drones && d.uid !in end.running;
    }
  }
}
