/** The elitist evolution of a population of networks (`evolution.py`):
    score every network, keep the best ones unmutated and refill the
    population with mutated copies.  The networks' construction, their
    mutation, the environment's score and the random choices are
    parameters. */
module Evolution {
  import Policy
  import Model

  datatype Option<T> = None | Some(value: T)

  /** The layer sizes `[2*n_cells, 32, 16, 2]` every network is built with. */
  function Layers(nCells: int): seq<int> {
    [2 * nCells, 32, 16, 2]
  }

  /** Python's `int(x)` on a float: truncation toward zero. */
  function Trunc(x: real): (r: int)
    ensures x >= 0.0 ==> r >= 0 && r as real <= x < r as real + 1.0
    ensures x < 0.0 ==> r <= 0 && r as real - 1.0 < x <= r as real
  {
    if x >= 0.0 then x.Floor else -((-x).Floor)
  }

  /** `n_elite = max(1, int(population_size * elite_fraction))`. */
  function EliteCount(populationSize: int, eliteFraction: real): (n: int)
    ensures n >= 1 && n >= Trunc(populationSize as real * eliteFraction)
    ensures n == 1 || n == Trunc(populationSize as real * eliteFraction)
  {
    Model.Max(1, Trunc(populationSize as real * eliteFraction))
  }

  /** With a fraction between 0 and 1 there are never more elites than
      networks in a non-empty population. */
  lemma EliteCountAtMost(populationSize: int, eliteFraction: real)
    requires populationSize >= 1 && 0.0 <= eliteFraction <= 1.0
    ensures EliteCount(populationSize, eliteFraction) <= populationSize
  {
    var p := populationSize as real;
    assert p * eliteFraction <= p * 1.0;
  }

  /** `order` is `np.argsort(scores)[::-1]`: every index of `scores` once,
      best score first.  The order among equal scores is not specified, as
      `argsort`'s default sort is not stable. */
  ghost predicate Descending(scores: seq<real>, order: seq<nat>) {
    && |order| == |scores|
    && (forall k :: 0 <= k < |order| ==> order[k] < |scores|)
    && (forall j :: 0 <= j < |scores| ==> j in order)
    && (forall a, b :: 0 <= a < b < |order| ==> scores[order[a]] >= scores[order[b]])
  }

  /** Every selected elite scores at least as much as every network left
      out of the selection. */
  lemma EliteBeatsRest(scores: seq<real>, order: seq<nat>, m: nat, i: nat, j: nat)
    requires Descending(scores, order) && m <= |order|
    requires i in order[..m] && j < |scores| && j !in order[..m]
    ensures scores[i] >= scores[j]
  {
    var a :| 0 <= a < m && order[a] == i;
    assert j in order;
    var b :| 0 <= b < |order| && order[b] == j;
    assert a < b;
  }

  /** The first `m` networks in the order of `order`: the elites. */
  function Elites(networks: seq<Policy.Network>, order: seq<nat>, m: nat): (r: seq<Policy.Network>)
    requires m <= |order| && forall k :: 0 <= k < |order| ==> order[k] < |networks|
    ensures |r| == m && forall k :: 0 <= k < m ==> r[k] == networks[order[k]]
  {
    seq(m, k requires 0 <= k < m => networks[order[k]])
  }

  /** `choose(a, j)` is the `j`-th draw of `np.random.choice` from a list
      of length `a`: an index of the list. */
  ghost predicate Chooses(choose: (nat, nat) -> nat) {
    forall a: nat, j: nat :: 0 < a ==> choose(a, j) < a
  }

  /** Entry `k` of `r` is a mutated copy, with draw `k - m`, of an entry
      before it. */
  ghost predicate Copied(r: seq<Policy.Network>, k: nat, m: nat, rate: real,
                         choose: (nat, nat) -> nat, mutate: (Policy.Network, real, nat) -> Policy.Network)
    requires m <= k < |r|
  {
    choose(k, k - m) < k && r[k] == mutate(r[choose(k, k - m)], rate, k - m)
  }

  /** The refill loop of `evolve`: while the list is shorter than `size`,
      append a mutated copy of a randomly chosen entry, the `j`-th such copy
      using draw `j`.  None when the list is empty and must grow, where
      `np.random.choice` raises. */
  function Refill(pool: seq<Policy.Network>, size: int, m: nat, rate: real,
                  choose: (nat, nat) -> nat, mutate: (Policy.Network, real, nat) -> Policy.Network)
    : (r: Option<seq<Policy.Network>>)
    requires m <= |pool| && Chooses(choose)
    ensures r.Some? ==> |r.value| >= size && |r.value| >= |pool|
    decreases Model.Max(size - |pool|, 0)
  {
    if |pool| >= size then Some(pool)
    else if pool == [] then None
    else
      var j := |pool| - m;
      Refill(pool + [mutate(pool[choose(|pool|, j)], rate, j)], size, m, rate, choose, mutate)
  }

  /** The refill fails exactly when it starts from an empty list that must
      grow; otherwise it reaches `size` entries (or keeps a longer list as
      it is). */
  lemma {:induction false} RefillSize(pool: seq<Policy.Network>, size: int, m: nat, rate: real,
                                      choose: (nat, nat) -> nat, mutate: (Policy.Network, real, nat) -> Policy.Network)
    requires m <= |pool| && Chooses(choose)
    ensures Refill(pool, size, m, rate, choose, mutate).None? <==> pool == [] && size > 0
    ensures Refill(pool, size, m, rate, choose, mutate).Some? ==>
      |Refill(pool, size, m, rate, choose, mutate).value| == Model.Max(size, |pool|)
    decreases Model.Max(size - |pool|, 0)
  {
    if |pool| < size && pool != [] {
      var j := |pool| - m;
      RefillSize(pool + [mutate(pool[choose(|pool|, j)], rate, j)], size, m, rate, choose, mutate);
    }
  }

  /** The entries already in the list are kept, unmutated and in place. */
  lemma {:induction false} RefillKeeps(pool: seq<Policy.Network>, size: int, m: nat, rate: real,
                                       choose: (nat, nat) -> nat, mutate: (Policy.Network, real, nat) -> Policy.Network)
    requires m <= |pool| && Chooses(choose)
    requires Refill(pool, size, m, rate, choose, mutate).Some?
    ensures |pool| <= |Refill(pool, size, m, rate, choose, mutate).value|
    ensures Refill(pool, size, m, rate, choose, mutate).value[..|pool|] == pool
    decreases Model.Max(size - |pool|, 0)
  {
    if |pool| < size {
      var j := |pool| - m;
      var next := pool + [mutate(pool[choose(|pool|, j)], rate, j)];
      RefillKeeps(next, size, m, rate, choose, mutate);
      assert next[..|pool|] == pool;
    }
  }

  /** Every appended entry `k` is a mutated copy, with draw `k - m`, of an
      entry before it, which is an elite or an earlier copy. */
  lemma {:induction false} RefillCopies(pool: seq<Policy.Network>, size: int, m: nat, rate: real,
                                        choose: (nat, nat) -> nat, mutate: (Policy.Network, real, nat) -> Policy.Network)
    requires m <= |pool| && Chooses(choose)
    requires Refill(pool, size, m, rate, choose, mutate).Some?
    ensures var r := Refill(pool, size, m, rate, choose, mutate).value;
      forall k :: |pool| <= k < |r| ==> Copied(r, k, m, rate, choose, mutate)
    decreases Model.Max(size - |pool|, 0)
  {
    if |pool| < size {
      var j := |pool| - m;
      var next := pool + [mutate(pool[choose(|pool|, j)], rate, j)];
      RefillCopies(next, size, m, rate, choose, mutate);
      RefillKeeps(next, size, m, rate, choose, mutate);
      var r := Refill(pool, size, m, rate, choose, mutate).value;
      assert r == Refill(next, size, m, rate, choose, mutate).value;
      assert r[..|next|] == next;
      assert r[|pool|] == next[|pool|];
      assert r[choose(|pool|, j)] == next[choose(|pool|, j)] == pool[choose(|pool|, j)];
    }
  }

  /** `Evolution`: a population of networks and its mutation rate. */
  class Evolution {
    var populationSize: int
    var mutationRate: real
    var networks: seq<Policy.Network>

    /** `__init__`: `population_size` fresh networks of the layer sizes
        `Layers(nCells)`; `make(layers, k)` is the `k`-th one built. */
    constructor(nCells: int, populationSize: int, mutationRate: real, make: (seq<int>, nat) -> Policy.Network)
      ensures this.populationSize == populationSize && this.mutationRate == mutationRate
      ensures |networks| == Model.Max(populationSize, 0)
      ensures forall k :: 0 <= k < |networks| ==> networks[k] == make(Layers(nCells), k)
    {
      this.populationSize := populationSize;
      this.mutationRate := mutationRate;
      networks := seq(Model.Max(populationSize, 0), k requires 0 <= k => make(Layers(nCells), k));
    }

    /** `evaluate`: one score per network, in population order; `run(net)`
        is the score of an episode of `nSteps` steps played by `net`. */
    method Evaluate(run: (Policy.Network, int) -> real, nSteps: int) returns (scores: seq<real>)
      ensures |scores| == |networks|
      ensures forall k :: 0 <= k < |networks| ==> scores[k] == run(networks[k], nSteps)
    {
      scores := [];
      var i := 0;
      while i < |networks|
        invariant i <= |networks| && |scores| == i
        invariant forall k :: 0 <= k < i ==> scores[k] == run(networks[k], nSteps)
      {
        scores := scores + [run(networks[i], nSteps)];
        i := i + 1;
      }
    }

    /** `evolve`: the `n_elite` best networks by `scores`, best first and
        unmutated, followed by mutated copies until the population is full
        again.  `order` is the `argsort` of the scores, best first,
        `choose` the random choices and `mutate(net, rate, j)` the `j`-th
        mutation.  Returns false, leaving the population as it was, when
        there is nothing to copy from. */
    method Evolve(scores: seq<real>, eliteFraction: real, order: seq<nat>,
                  choose: (nat, nat) -> nat, mutate: (Policy.Network, real, nat) -> Policy.Network)
      returns (ok: bool)
      requires |scores| <= |networks| && Descending(scores, order) && Chooses(choose)
      modifies this
      ensures populationSize == old(populationSize) && mutationRate == old(mutationRate)
      ensures var m := Model.Min(EliteCount(populationSize, eliteFraction), |scores|);
        var refilled := Refill(Elites(old(networks), order, m), populationSize, m, mutationRate, choose, mutate);
        && ok == refilled.Some?
        && networks == (if ok then refilled.value else old(networks))
    {
      var nElite := EliteCount(populationSize, eliteFraction);
      var m := Model.Min(nElite, |scores|);
      var newNetworks := Elites(networks, order, m);
      ghost var goal := Refill(newNetworks, populationSize, m, mutationRate, choose, mutate);
      while |newNetworks| < populationSize
        invariant m <= |newNetworks|
        invariant Refill(newNetworks, populationSize, m, mutationRate, choose, mutate) == goal
        decreases populationSize - |newNetworks|
      {
        if newNetworks == [] {
          return false;
        }
        var j := |newNetworks| - m;
        var parent := newNetworks[choose(|newNetworks|, j)];
        newNetworks := newNetworks + [mutate(parent, mutationRate, j)];
      }
      networks := newNetworks;
      return true;
    }
  }

  /** After a successful `evolve`, the population has `population_size`
      networks (or the elites alone if there are more of them), the first
      `m` being the elites in order and each later one a mutated copy of an
      entry before it; `evolve` fails only on an empty score list when the
      population must grow. */
  lemma EvolveOutcome(networks: seq<Policy.Network>, scores: seq<real>, order: seq<nat>, size: int, eliteFraction: real,
                      rate: real, choose: (nat, nat) -> nat, mutate: (Policy.Network, real, nat) -> Policy.Network)
    requires |scores| <= |networks| && Descending(scores, order) && Chooses(choose)
    ensures var m := Model.Min(EliteCount(size, eliteFraction), |scores|);
      var refilled := Refill(Elites(networks, order, m), size, m, rate, choose, mutate);
      && (refilled.None? <==> scores == [] && size > 0)
      && (refilled.Some? ==>
        && |refilled.value| == Model.Max(size, m)
        && (forall k :: 0 <= k < m ==> refilled.value[k] == networks[order[k]])
        && (forall k :: m <= k < |refilled.value| ==> Copied(refilled.value, k, m, rate, choose, mutate)))
  {
    var m := Model.Min(EliteCount(size, eliteFraction), |scores|);
    var elites := Elites(networks, order, m);
    RefillSize(elites, size, m, rate, choose, mutate);
    if Refill(elites, size, m, rate, choose, mutate).Some? {
      RefillKeeps(elites, size, m, rate, choose, mutate);
      RefillCopies(elites, size, m, rate, choose, mutate);
      var r := Refill(elites, size, m, rate, choose, mutate).value;
      forall k | 0 <= k < m
        ensures r[k] == networks[order[k]]
      {
        assert r[..m][k] == elites[k];
      }
    }
  }
}
