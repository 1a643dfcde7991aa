/**
 * The random problem generator (ProblemGenerator.cpp): `generate` draws VM
 * demands, initial PMs and PM types with `randomIntBetween`; `generate_ff`
 * then gives every VM the first PM (in index order) whose residual free
 * resources still cover its demand, and finally frees every PM again.
 *
 * `rand()` is an oracle: `rand(k)` is the value of the k-th call, and every
 * draw passes the number of the next call along. The seeding with the clock
 * is not modelled.
 */
module Generator {
  import opened Wrappers
  import opened CInt
  import opened Machines

  /** How often a C++ `for (i = 0; i < n; i++)` loop runs. */
  function Count(n: int): (r: nat)
    ensures n >= 0 ==> r == n
    ensures n < 0 ==> r == 0
  {
    if n < 0 then 0 else n
  }

  /**
   * `randomIntBetween(min, max)` once `rand()` returned `r`: `min` plus
   * `r % (max - min + 1)`, with C++'s remainder. For `min <= max` every
   * value in between is reachable (RandomIntBetweenReaches).
   */
  function RandomIntBetween(min: int, max: int, r: nat): (x: int)
    requires max - min + 1 != 0
    ensures min <= max ==> min <= x <= max
    ensures min <= x
  {
    min + CMod(r, max - min + 1)
  }

  /** Every value from `min` to `max` is what some `rand()` value makes of it. */
  lemma RandomIntBetweenReaches(min: int, max: int, x: int)
    requires min <= x <= max
    ensures exists r: nat :: RandomIntBetween(min, max, r) == x
  {
    var r: nat := x - min;
    assert CMod(r, max - min + 1) == r % (max - min + 1) == r;
    assert RandomIntBetween(min, max, r) == x;
  }

  // ---------------------------------------------------------------------
  // generate

  /** Every entry of `v` lies between `lo` and `hi`. */
  predicate Between(v: seq<int>, lo: int, hi: int)
  {
    forall j :: 0 <= j < |v| ==> lo <= v[j] <= hi
  }

  /**
   * The inner loops of `generate`: `n` values, the j-th drawn with the
   * (k0 + j)-th call of `rand()`.
   */
  method DrawVector(lo: int, hi: int, n: int, rand: nat -> nat, k0: nat) returns (v: seq<int>, k: nat)
    requires Count(n) > 0 ==> hi - lo + 1 != 0
    ensures |v| == Count(n) && k == k0 + |v|
    ensures forall j :: 0 <= j < |v| ==> v[j] == RandomIntBetween(lo, hi, rand(k0 + j))
    ensures lo <= hi ==> Between(v, lo, hi)
  {
    v, k := [], k0;
    var j := 0;
    while j < n
      invariant 0 <= j <= Count(n) && |v| == j && k == k0 + j
      invariant forall t :: 0 <= t < j ==> v[t] == RandomIntBetween(lo, hi, rand(k0 + t))
    {
      var x := RandomIntBetween(lo, hi, rand(k));
      v := v + [x];
      k := k + 1;
      j := j + 1;
    }
  }

  /** A generated VM: id `i`, `dim` demands within bounds, an initial PM among the `numPMs`. */
  predicate GeneratedVM(vm: VM, i: int, dim: int, lo: int, hi: int, numPMs: int)
  {
    vm.id == i && |vm.demand| == Count(dim) && (lo <= hi ==> Between(vm.demand, lo, hi)) &&
    (numPMs > 0 ==> 0 <= vm.initialID < numPMs)
  }

  /** `generate`'s first loop: VM i gets `dim` demands and then an initial PM. */
  method GenerateVMs(n: int, dim: int, lo: int, hi: int, numPMs: int, rand: nat -> nat, k0: nat)
    returns (vms: seq<VM>, k: nat)
    requires Count(n) > 0 && Count(dim) > 0 ==> hi - lo + 1 != 0
    requires Count(n) > 0 ==> numPMs != 0
    ensures |vms| == Count(n) && k >= k0
    ensures forall i :: 0 <= i < |vms| ==> GeneratedVM(vms[i], i, dim, lo, hi, numPMs)
  {
    vms, k := [], k0;
    var i := 0;
    while i < n
      invariant 0 <= i <= Count(n) && |vms| == i && k >= k0
      invariant forall t :: 0 <= t < i ==> GeneratedVM(vms[t], t, dim, lo, hi, numPMs)
    {
      var demand;
      demand, k := DrawVector(lo, hi, dim, rand, k);
      var initial := RandomIntBetween(0, numPMs - 1, rand(k));
      k := k + 1;
      vms := vms + [VM(i, demand, initial)];
      i := i + 1;
    }
  }

  /** A PM type: `dim` capacities within bounds, all free. */
  predicate GeneratedType(pm: PM, dim: int, lo: int, hi: int)
  {
    pm.numAdditionalVMs == 0 && pm.resourcesFree == pm.capacity && |pm.capacity| == Count(dim) &&
    (lo <= hi ==> Between(pm.capacity, lo, hi))
  }

  /**
   * `generate`'s second loop: each type draws its capacities, which are also
   * its free resources. A type's id is never read; it is 0 here.
   */
  method GenerateTypes(n: int, dim: int, lo: int, hi: int, rand: nat -> nat, k0: nat)
    returns (types: seq<PM>, k: nat)
    requires Count(n) > 0 && Count(dim) > 0 ==> hi - lo + 1 != 0
    ensures |types| == Count(n) && k >= k0
    ensures forall t :: 0 <= t < |types| ==> GeneratedType(types[t], dim, lo, hi)
  {
    types, k := [], k0;
    var i := 0;
    while i < n
      invariant 0 <= i <= Count(n) && |types| == i && k >= k0
      invariant forall t :: 0 <= t < i ==> GeneratedType(types[t], dim, lo, hi)
    {
      var cap;
      cap, k := DrawVector(lo, hi, dim, rand, k);
      var pm := NewPM(0).(capacity := cap, resourcesFree := cap);
      types := types + [pm];
      i := i + 1;
    }
  }

  /** PM `pm` is a copy of one of the types, numbered `i`. */
  predicate CopyOfType(pm: PM, i: int, types: seq<PM>)
  {
    exists t :: 0 <= t < |types| && pm == types[t].(id := i)
  }

  /** `generate`'s third loop: PM i is a copy of a drawn type, numbered i. */
  method GeneratePMs(types: seq<PM>, n: int, numTypes: int, rand: nat -> nat, k0: nat)
    returns (pms: seq<PM>, k: nat)
    requires |types| == Count(numTypes)
    requires Count(n) > 0 ==> numTypes > 0
    ensures |pms| == Count(n) && k >= k0
    ensures forall i :: 0 <= i < |pms| ==> CopyOfType(pms[i], i, types)
  {
    pms, k := [], k0;
    var i := 0;
    while i < n
      invariant 0 <= i <= Count(n) && |pms| == i && k >= k0
      invariant forall t :: 0 <= t < i ==> CopyOfType(pms[t], t, types)
    {
      var t := RandomIntBetween(0, numTypes - 1, rand(k));
      k := k + 1;
      var pm := types[t].(id := i);
      pms := pms + [pm];
      i := i + 1;
    }
  }

  // ---------------------------------------------------------------------
  // The first-fit pass of generate_ff

  /** The first PM from index `j` on whose free resources cover `vm`'s demand. */
  function FirstFitting(pms: seq<PM>, vm: VM, j: nat): (r: Option<nat>)
    decreases |pms| - j
    ensures r.Some? ==> j <= r.value < |pms| && Fits(vm, pms[r.value])
    ensures r.Some? ==> forall x :: j <= x < r.value ==> !Fits(vm, pms[x])
    ensures r.None? ==> forall x :: j <= x < |pms| ==> !Fits(vm, pms[x])
  {
    if j >= |pms| then None
    else if Fits(vm, pms[j]) then Some(j)
    else FirstFitting(pms, vm, j + 1)
  }

  /** `free` with `demand` taken off in each of its dimensions. */
  function Deducted(free: seq<int>, demand: seq<int>): (r: seq<int>)
    requires |demand| >= |free|
    ensures |r| == |free| && forall k :: 0 <= k < |r| ==> r[k] == free[k] - demand[k]
  {
    seq(|free|, k requires 0 <= k < |free| => free[k] - demand[k])
  }

  /** The VMs and PMs during the pass, and where each VM handled so far went. */
  datatype PassState = PassState(vms: seq<VM>, pms: seq<PM>, placed: seq<Option<nat>>)

  /** All demands and free vectors have dimension `dim`. */
  predicate Dimension(vms: seq<VM>, pms: seq<PM>, dim: nat)
  {
    (forall i :: 0 <= i < |vms| ==> |vms[i].demand| == dim) &&
    (forall j :: 0 <= j < |pms| ==> |pms[j].resourcesFree| == dim)
  }

  /** The first `n` steps of the pass: each VM goes to the first PM it still fits on, if any. */
  function Pass(vms: seq<VM>, pms: seq<PM>, dim: nat, n: nat): (r: PassState)
    requires n <= |vms| && Dimension(vms, pms, dim)
    ensures |r.vms| == |vms| && |r.pms| == |pms| && |r.placed| == n && Dimension(r.vms, r.pms, dim)
  {
    if n == 0 then PassState(vms, pms, [])
    else
      var s := Pass(vms, pms, dim, n - 1);
      var vm := vms[n - 1];
      var c := FirstFitting(s.pms, vm, 0);
      if c.Some? then
        var pm := s.pms[c.value];
        PassState(s.vms[n - 1 := vm.(initialID := c.value)],
                  s.pms[c.value := pm.(resourcesFree := Deducted(pm.resourcesFree, vm.demand))],
                  s.placed + [c])
      else PassState(s.vms, s.pms, s.placed + [None])
  }

  /** The `fit` loop: whether `free` covers `demand` in every dimension of the demand. */
  method FitsResidual(demand: seq<int>, free: seq<int>) returns (fit: bool)
    requires |free| >= |demand|
    ensures fit == Covers(free, demand)
  {
    fit := true;
    var k := 0;
    while k < |demand|
      invariant k <= |demand|
      invariant fit == forall t :: 0 <= t < k ==> demand[t] <= free[t]
    {
      if demand[k] > free[k] {
        fit := false;
      }
      k := k + 1;
    }
  }

  /** The `while (!found ...)` loop: `j - 1` is the first PM `vm` fits on, when there is one. */
  method FirstFitPM(vm: VM, pms: seq<PM>, dim: nat) returns (found: bool, j: nat)
    requires |vm.demand| == dim && forall x :: 0 <= x < |pms| ==> |pms[x].resourcesFree| == dim
    ensures found <==> FirstFitting(pms, vm, 0).Some?
    ensures found ==> j >= 1 && FirstFitting(pms, vm, 0) == Some(j - 1)
  {
    found, j := false, 0;
    while !found && j < |pms|
      invariant j <= |pms|
      invariant !found ==> FirstFitting(pms, vm, 0) == FirstFitting(pms, vm, j)
      invariant found ==> j >= 1 && FirstFitting(pms, vm, 0) == Some(j - 1)
    {
      var fit := FitsResidual(vm.demand, pms[j].resourcesFree);
      if fit {
        found := true;
      }
      j := j + 1;
    }
  }

  /** The `-=` loop: the demand taken off every free resource. */
  method Deduct(free: seq<int>, demand: seq<int>) returns (r: seq<int>)
    requires |demand| >= |free|
    ensures r == Deducted(free, demand)
  {
    r := free;
    var k := 0;
    while k < |r|
      invariant k <= |r| == |free|
      invariant forall t :: 0 <= t < |free| ==> r[t] == if t < k then free[t] - demand[t] else free[t]
    {
      r := r[k := r[k] - demand[k]];
      k := k + 1;
    }
  }

  /**
   * `generate_ff`'s loop over the VMs, in index order: the pass, with the
   * placement of every VM recorded alongside.
   */
  method FirstFitPass(vms: seq<VM>, pms: seq<PM>, dim: nat)
    returns (vms': seq<VM>, pms': seq<PM>, ghost placed: seq<Option<nat>>)
    requires Dimension(vms, pms, dim)
    ensures PassState(vms', pms', placed) == Pass(vms, pms, dim, |vms|)
  {
    vms', pms', placed := vms, pms, [];
    var i := 0;
    while i < |vms|
      invariant i <= |vms|
      invariant PassState(vms', pms', placed) == Pass(vms, pms, dim, i)
    {
      var found, j := FirstFitPM(vms[i], pms', dim);
      if found {
        vms' := vms'[i := vms'[i].(initialID := j - 1)];
        var r := Deduct(pms'[j - 1].resourcesFree, vms'[i].demand);
        pms' := pms'[j - 1 := pms'[j - 1].(resourcesFree := r)];
        placed := placed + [Some(j - 1)];
      } else {
        placed := placed + [None];
      }
      PassNext(vms, pms, dim, i);
      i := i + 1;
    }
  }

  /** The pass leaves the VMs it has not reached and their demands alone. */
  lemma PassNext(vms: seq<VM>, pms: seq<PM>, dim: nat, i: nat)
    requires i < |vms| && Dimension(vms, pms, dim)
    ensures Pass(vms, pms, dim, i).vms[i] == vms[i]
  {
    PassKeepsVMs(vms, pms, dim, i);
  }

  /** Step by step the pass changes only the `initialID` of the VMs it has reached. */
  lemma {:induction false} PassKeepsVMs(vms: seq<VM>, pms: seq<PM>, dim: nat, n: nat)
    requires n <= |vms| && Dimension(vms, pms, dim)
    ensures forall i :: n <= i < |vms| ==> Pass(vms, pms, dim, n).vms[i] == vms[i]
    ensures forall i :: 0 <= i < n ==>
      Pass(vms, pms, dim, n).vms[i] == vms[i].(initialID := Pass(vms, pms, dim, n).vms[i].initialID)
  {
    if n > 0 {
      PassKeepsVMs(vms, pms, dim, n - 1);
    }
  }

  /** The loops after the pass: every free resource is set back to the capacity. */
  method ResetVector(free: seq<int>, capacity: seq<int>) returns (r: seq<int>)
    requires |capacity| >= |free|
    ensures r == capacity[..|free|]
  {
    r := free;
    var k := 0;
    while k < |r|
      invariant k <= |r| == |free|
      invariant forall t :: 0 <= t < k ==> r[t] == capacity[t]
    {
      r := r[k := capacity[k]];
      k := k + 1;
    }
  }

  /** The reset over all PMs; nothing but `resourcesFree` changes. */
  method ResetFree(pms: seq<PM>) returns (r: seq<PM>)
    requires forall j :: 0 <= j < |pms| ==> |pms[j].resourcesFree| == |pms[j].capacity|
    ensures |r| == |pms|
    ensures forall j :: 0 <= j < |r| ==> r[j] == pms[j].(resourcesFree := pms[j].capacity)
  {
    r := pms;
    var j := 0;
    while j < |r|
      invariant j <= |r| == |pms|
      invariant forall t :: 0 <= t < |r| ==> r[t] == if t < j then pms[t].(resourcesFree := pms[t].capacity) else pms[t]
    {
      var free := ResetVector(r[j].resourcesFree, r[j].capacity);
      r := r[j := r[j].(resourcesFree := free)];
      j := j + 1;
    }
  }

  // ---------------------------------------------------------------------
  // What the pass guarantees

  /** Where the pass put the first `n` VMs: `placed[i]` is VM i's PM, if it got one. */
  function PlacedLoad(vms: seq<VM>, placed: seq<Option<nat>>, j: nat, k: nat, n: nat): int
    requires n <= |vms| && n <= |placed| && forall i :: 0 <= i < n ==> k < |vms[i].demand|
  {
    if n == 0 then 0
    else PlacedLoad(vms, placed, j, k, n - 1) + (if placed[n - 1] == Some(j) then vms[n - 1].demand[k] else 0)
  }

  lemma {:induction false} PlacedLoadPrefix(vms: seq<VM>, placed: seq<Option<nat>>, more: seq<Option<nat>>, j: nat, k: nat, n: nat)
    requires n <= |vms| && n <= |placed| && forall i :: 0 <= i < n ==> k < |vms[i].demand|
    ensures PlacedLoad(vms, placed + more, j, k, n) == PlacedLoad(vms, placed, j, k, n)
  {
    if n > 0 {
      PlacedLoadPrefix(vms, placed, more, j, k, n - 1);
      assert (placed + more)[n - 1] == placed[n - 1];
    }
  }

  /** The initial PM a VM ends up with: the one it was placed on, or its own. */
  function InitialAfter(vm: VM, placed: Option<nat>): int
  {
    match placed
    case Some(j) => j
    case None => vm.initialID
  }

  /** The PM the pass picks for VM `i`: the first that fits in the residual state it meets. */
  function Choice(vms: seq<VM>, pms: seq<PM>, dim: nat, i: nat): Option<nat>
    requires i < |vms| && Dimension(vms, pms, dim)
  {
    FirstFitting(Pass(vms, pms, dim, i).pms, vms[i], 0)
  }

  /**
   * Each VM the pass has handled went to the first PM whose residual free
   * resources, at its turn, covered its demand; a VM that fitted nowhere
   * has no PM.
   */
  lemma {:induction false} PassPlaces(vms: seq<VM>, pms: seq<PM>, dim: nat, n: nat)
    requires n <= |vms| && Dimension(vms, pms, dim)
    ensures forall i :: 0 <= i < n ==> Pass(vms, pms, dim, n).placed[i] == Choice(vms, pms, dim, i)
  {
    if n > 0 {
      PassPlaces(vms, pms, dim, n - 1);
      var s, r := Pass(vms, pms, dim, n - 1), Pass(vms, pms, dim, n);
      assert r.placed == s.placed + [Choice(vms, pms, dim, n - 1)];
    }
  }

  /** The handled VMs take the PM they were placed on as their initial PM, or keep their own. */
  lemma {:induction false} PassSetsInitial(vms: seq<VM>, pms: seq<PM>, dim: nat, n: nat)
    requires n <= |vms| && Dimension(vms, pms, dim)
    ensures forall i :: 0 <= i < n ==>
      Pass(vms, pms, dim, n).vms[i].initialID == InitialAfter(vms[i], Pass(vms, pms, dim, n).placed[i])
  {
    if n > 0 {
      PassSetsInitial(vms, pms, dim, n - 1);
      PassKeepsVMs(vms, pms, dim, n - 1);
      var s := Pass(vms, pms, dim, n - 1);
      var r := Pass(vms, pms, dim, n);
      assert r.placed[..n - 1] == s.placed;
      forall i | 0 <= i < n - 1
        ensures r.vms[i].initialID == InitialAfter(vms[i], r.placed[i])
      {
        assert r.vms[i] == s.vms[i] && r.placed[i] == s.placed[i];
      }
    }
  }

  /**
   * What the pass does to the VMs, in one statement: VM i keeps everything
   * but its initial PM, which becomes the PM the pass chose for it, if any.
   */
  lemma PassOutcome(vms: seq<VM>, pms: seq<PM>, dim: nat)
    requires Dimension(vms, pms, dim)
    ensures forall i :: 0 <= i < |vms| ==>
      Pass(vms, pms, dim, |vms|).vms[i] == vms[i].(initialID := InitialAfter(vms[i], Choice(vms, pms, dim, i)))
  {
    PassKeepsVMs(vms, pms, dim, |vms|);
    PassSetsInitial(vms, pms, dim, |vms|);
    PassPlaces(vms, pms, dim, |vms|);
  }

  /** Every free resource is at least zero. */
  predicate NonNegative(pms: seq<PM>)
  {
    forall j, k :: 0 <= j < |pms| && 0 <= k < |pms[j].resourcesFree| ==> pms[j].resourcesFree[k] >= 0
  }

  /** The pass never takes a free resource below zero. */
  lemma {:induction false} PassNonNegative(vms: seq<VM>, pms: seq<PM>, dim: nat, n: nat)
    requires n <= |vms| && Dimension(vms, pms, dim) && NonNegative(pms)
    ensures NonNegative(Pass(vms, pms, dim, n).pms)
  {
    if n > 0 {
      PassNonNegative(vms, pms, dim, n - 1);
      var s := Pass(vms, pms, dim, n - 1);
      var c := FirstFitting(s.pms, vms[n - 1], 0);
      if c.Some? {
        var free := s.pms[c.value].resourcesFree;
        var d := Deducted(free, vms[n - 1].demand);
        assert forall k :: 0 <= k < |d| ==> d[k] >= 0;
      }
    }
  }

  /**
   * After the first `n` VMs the free resources of every PM are what they
   * were less the demand of the VMs placed on it.
   */
  lemma {:induction false} PassConserves(vms: seq<VM>, pms: seq<PM>, dim: nat, n: nat, j: nat, k: nat)
    requires n <= |vms| && Dimension(vms, pms, dim) && j < |pms| && k < dim
    ensures Pass(vms, pms, dim, n).pms[j].resourcesFree[k] ==
      pms[j].resourcesFree[k] - PlacedLoad(vms, Pass(vms, pms, dim, n).placed, j, k, n)
  {
    if n > 0 {
      PassConserves(vms, pms, dim, n - 1, j, k);
      var s, r := Pass(vms, pms, dim, n - 1), Pass(vms, pms, dim, n);
      var c := FirstFitting(s.pms, vms[n - 1], 0);
      assert r.placed == s.placed + [c];
      PlacedLoadPrefix(vms, s.placed, [c], j, k, n - 1);
      if c == Some(j) {
        assert r.pms[j].resourcesFree[k] == s.pms[j].resourcesFree[k] - vms[n - 1].demand[k];
      } else {
        assert r.pms[j] == s.pms[j];
      }
    }
  }

  /**
   * Started from free resources equal to non-negative capacities, the pass
   * never places more on a PM than its capacity, in any dimension.
   */
  lemma PassRespectsCapacity(vms: seq<VM>, pms: seq<PM>, dim: nat, j: nat, k: nat)
    requires Dimension(vms, pms, dim) && j < |pms| && k < dim
    requires NonNegative(pms) && forall x :: 0 <= x < |pms| ==> pms[x].resourcesFree == pms[x].capacity
    ensures PlacedLoad(vms, Pass(vms, pms, dim, |vms|).placed, j, k, |vms|) <= pms[j].capacity[k]
  {
    PassConserves(vms, pms, dim, |vms|, j, k);
    PassNonNegative(vms, pms, dim, |vms|);
  }

  // ---------------------------------------------------------------------
  // The generator object

  /** A generated PM: id `j`, `dim` capacities within bounds, all of them free, no VMs counted. */
  predicate GeneratedPM(pm: PM, j: int, dim: int, lo: int, hi: int)
  {
    pm.id == j && pm.numAdditionalVMs == 0 && pm.resourcesFree == pm.capacity &&
    |pm.capacity| == Count(dim) && (lo <= hi ==> Between(pm.capacity, lo, hi))
  }

  class ProblemGenerator {
    var dimension: int
    var minResDemand: int
    var maxResDemand: int
    var minResSupply: int
    var maxResSupply: int
    var numPMTypes: int
    var numVMs: int
    var numPMs: int

    /** The constructor; C++ leaves the problem size unset until `setNumVMsNumPMs`, here it starts at 0. */
    constructor (dim: int, minrd: int, maxrd: int, minrs: int, maxrs: int, types: int)
      ensures dimension == dim && minResDemand == minrd && maxResDemand == maxrd
      ensures minResSupply == minrs && maxResSupply == maxrs && numPMTypes == types
      ensures numVMs == 0 && numPMs == 0
    {
      dimension, minResDemand, maxResDemand := dim, minrd, maxrd;
      minResSupply, maxResSupply, numPMTypes := minrs, maxrs, types;
      numVMs, numPMs := 0, 0;
    }

    method SetNumVMsNumPMs(nVMs: int, nPMs: int)
      modifies this`numVMs, this`numPMs
      ensures numVMs == nVMs && numPMs == nPMs
    {
      numVMs := nVMs;
      numPMs := nPMs;
    }

    /**
     * Every `randomIntBetween` call `generate` makes divides by a non-zero
     * range, and a PM type can be drawn whenever there are PMs.
     */
    predicate DrawsDefined()
      reads this
    {
      (Count(numVMs) > 0 && Count(dimension) > 0 ==> maxResDemand - minResDemand + 1 != 0) &&
      (Count(numVMs) > 0 ==> numPMs != 0) &&
      (Count(numPMTypes) > 0 && Count(dimension) > 0 ==> maxResSupply - minResSupply + 1 != 0) &&
      (Count(numPMs) > 0 ==> numPMTypes > 0)
    }

    /**
     * `generate()`: `numVMs` VMs numbered in order with `dimension` demands
     * each within the demand bounds and an initial PM among the `numPMs`;
     * `numPMs` PMs numbered in order, each a copy of one of `numPMTypes`
     * drawn types, with capacities within the supply bounds, all free.
     */
    method Generate(rand: nat -> nat) returns (vms: seq<VM>, pms: seq<PM>)
      requires DrawsDefined()
      ensures |vms| == Count(numVMs) && |pms| == Count(numPMs)
      ensures forall i :: 0 <= i < |vms| ==> GeneratedVM(vms[i], i, dimension, minResDemand, maxResDemand, numPMs)
      ensures forall j :: 0 <= j < |pms| ==> GeneratedPM(pms[j], j, dimension, minResSupply, maxResSupply)
    {
      var k;
      vms, k := GenerateVMs(numVMs, dimension, minResDemand, maxResDemand, numPMs, rand, 0);
      var types;
      types, k := GenerateTypes(numPMTypes, dimension, minResSupply, maxResSupply, rand, k);
      pms, k := GeneratePMs(types, numPMs, numPMTypes, rand, k);
      forall j | 0 <= j < |pms|
        ensures GeneratedPM(pms[j], j, dimension, minResSupply, maxResSupply)
      {
        var t :| 0 <= t < |types| && pms[j] == types[t].(id := j);
        assert GeneratedType(types[t], dimension, minResSupply, maxResSupply);
      }
    }

    /**
     * `generate_ff()`: a generated problem whose VMs then went through the
     * first-fit pass, with every PM's free resources reset to its capacity
     * afterwards. The ghost results are the problem `generate` returned.
     */
    method GenerateFF(rand: nat -> nat) returns (vms: seq<VM>, pms: seq<PM>, ghost vms0: seq<VM>, ghost pms0: seq<PM>)
      requires DrawsDefined()
      ensures |vms0| == Count(numVMs) && |pms0| == Count(numPMs)
      ensures forall i :: 0 <= i < |vms0| ==> GeneratedVM(vms0[i], i, dimension, minResDemand, maxResDemand, numPMs)
      ensures forall j :: 0 <= j < |pms0| ==> GeneratedPM(pms0[j], j, dimension, minResSupply, maxResSupply)
      ensures Dimension(vms0, pms0, Count(dimension))
      ensures vms == Pass(vms0, pms0, Count(dimension), |vms0|).vms
      ensures |pms| == |pms0| && forall j :: 0 <= j < |pms| ==> pms[j] == pms0[j]
    {
      var generatedVMs, generatedPMs := Generate(rand);
      vms0, pms0 := generatedVMs, generatedPMs;
      var dim := Count(dimension);
      assert Dimension(vms0, pms0, dim) by {
        assert forall i :: 0 <= i < |vms0| ==> GeneratedVM(vms0[i], i, dimension, minResDemand, maxResDemand, numPMs);
        assert forall j :: 0 <= j < |pms0| ==> GeneratedPM(pms0[j], j, dimension, minResSupply, maxResSupply);
      }
      var placedPMs;
      ghost var placed;
      vms, placedPMs, placed := FirstFitPass(generatedVMs, generatedPMs, dim);
      PassKeepsPMs(vms0, pms0, dim, |vms0|);
      pms := ResetFree(placedPMs);
    }
  }

  /** The pass changes the free resources of PMs and nothing else about them. */
  lemma {:induction false} PassKeepsPMs(vms: seq<VM>, pms: seq<PM>, dim: nat, n: nat)
    requires n <= |vms| && Dimension(vms, pms, dim)
    ensures forall j :: 0 <= j < |pms| ==>
      Pass(vms, pms, dim, n).pms[j] == pms[j].(resourcesFree := Pass(vms, pms, dim, n).pms[j].resourcesFree)
  {
    if n > 0 {
      PassKeepsPMs(vms, pms, dim, n - 1);
    }
  }
}
