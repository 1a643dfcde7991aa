/**
 * The branch-and-bound allocator itself (BnBAllocator.h, BnBAllocator.cpp):
 * a class whose fields are the engine state, whose methods are the C++
 * member functions with their loops, and whose `Solve` is the depth-first
 * search with its explicit VM stack and undo stack.
 *
 * Each state-changing method is tied to the functions of `BnBSteps` and
 * `BnBSearch` (`State() == Allocated(...)`, `available[v] == ResetList(...)`,
 * ...), and the search loop keeps the invariant of `BnBState` together with
 * the history that makes every undo exact.
 */
module BnB {
  import opened Wrappers
  import opened Params
  import opened CInt
  import opened Machines
  import opened Sorting
  import opened BnBState
  import opened BnBSteps
  import opened BnBSearch

  // ---------------------------------------------------------------------
  // Counting facts the search needs

  /** The indices below `n`. */
  function Range(n: nat): (r: set<nat>)
    ensures forall w: nat :: w in r <==> w < n
  {
    if n == 0 then {} else Range(n - 1) + {n - 1}
  }

  lemma {:induction false} RangeCard(n: nat)
    ensures |Range(n)| == n
  {
    if n > 0 {
      RangeCard(n - 1);
      assert n - 1 !in Range(n - 1);
    }
  }

  lemma SubsetCard(a: set<nat>, b: set<nat>)
    requires a <= b
    ensures |a| <= |b|
  {
    assert b == a + (b - a);
    assert a * (b - a) == {};
  }

  /**
   * A set of indices below `n` has at most `n` members, and when it has
   * exactly `n` it holds every index below `n`.
   */
  lemma IndexSetCard(keys: set<nat>, n: nat)
    requires forall w :: w in keys ==> w < n
    ensures |keys| <= n
    ensures |keys| < n ==> exists w :: 0 <= w < n && w !in keys
    ensures |keys| == n ==> forall w :: 0 <= w < n ==> w in keys
  {
    RangeCard(n);
    SubsetCard(keys, Range(n));
    if |keys| < n {
      if forall w :: 0 <= w < n ==> w in keys {
        SubsetCard(Range(n), keys);
      }
    }
    if |keys| == n {
      forall w | 0 <= w < n
        ensures w in keys
      {
        if w !in keys {
          assert keys <= Range(n) - {w};
          SubsetCard(keys, Range(n) - {w});
        }
      }
    }
  }

  /** Undo entries naming distinct VMs name as many VMs as there are entries. */
  lemma {:induction false} StackCard(cs: seq<Change>)
    requires DistinctVMs(cs)
    ensures |StackVMs(cs)| == |cs|
  {
    if |cs| > 0 {
      var init := cs[..|cs| - 1];
      assert DistinctVMs(init);
      StackCard(init);
      StackVMsMembers(init, cs[|cs| - 1].vmAllocated);
    }
  }

  /** The entries of a list, as a set. */
  function Members(l: seq<nat>): (r: set<nat>)
    ensures forall x :: x in r <==> x in l
  {
    set x | x in l
  }

  /** A list without repetitions has as many distinct members as entries. */
  lemma {:induction false} DistinctCard(l: seq<nat>)
    requires NoDup(l)
    ensures |Members(l)| == |l|
  {
    if |l| > 0 {
      var t := l[1..];
      assert l == [l[0]] + t;
      assert multiset(l) == multiset{l[0]} + multiset(t);
      forall x
        ensures multiset(t)[x] <= 1
      {
        assert multiset(l)[x] == multiset{l[0]}[x] + multiset(t)[x];
      }
      assert multiset(l)[l[0]] == 1 + multiset(t)[l[0]];
      assert l[0] !in multiset(t);
      assert l[0] !in Members(t);
      assert Members(l) == Members(t) + {l[0]};
      DistinctCard(t);
    }
  }

  /** A candidate list has at most one entry per PM. */
  lemma NoDupLength(l: seq<nat>, n: nat)
    requires NoDup(l) && forall i :: 0 <= i < |l| ==> l[i] < n
    ensures |l| <= n
  {
    DistinctCard(l);
    forall x | x in Members(l)
      ensures x < n
    {
      var i :| 0 <= i < |l| && l[i] == x;
    }
    IndexSetCard(Members(l), n);
  }

  /** The placed VMs are as many as the undo entries, and all below `|vms|`. */
  lemma PlacedCount(vms: seq<VM>, ib: bool, s: Engine)
    ensures BnBState.Valid(vms, ib, s) ==>
      |s.allocations.Keys| == |s.changeStack| <= |vms| &&
      (|s.changeStack| < |vms| ==> exists w :: 0 <= w < |vms| && w !in s.allocations) &&
      (|s.changeStack| == |vms| ==> forall w :: 0 <= w < |vms| ==> w in s.allocations)
  {
    if BnBState.Valid(vms, ib, s) {
      StackCard(s.changeStack);
      IndexSetCard(s.allocations.Keys, |vms|);
    }
  }

  // ---------------------------------------------------------------------
  // The state the constructor builds

  /** The PMs among the first `n` that `vm` fits on, in index order: the initial candidate list. */
  function FitList(vm: VM, pms: seq<PM>, n: nat): (r: seq<nat>)
    requires n <= |pms|
    ensures Increasing(r)
    ensures forall i :: 0 <= i < |r| ==> r[i] < n
    ensures forall x :: 0 <= x < n ==> (x in r <==> Fits(vm, pms[x]))
  {
    if n == 0 then []
    else FitList(vm, pms, n - 1) + (if Fits(vm, pms[n - 1]) then [n - 1] else [])
  }

  lemma {:induction false} IncreasingNoDup(l: seq<nat>)
    requires Increasing(l)
    ensures NoDup(l)
  {
    if |l| > 0 {
      var t := l[1..];
      assert l == [l[0]] + t;
      IncreasingNoDup(t);
      assert l[0] !in t;
      assert multiset(l) == multiset{l[0]} + multiset(t);
    }
  }

  /** The problem the engine accepts (the source's undefined cases excluded). */
  ghost predicate ProblemOK(vms: seq<VM>, pms: seq<PM>, ib: bool)
  {
    |vms| > 0 && |pms| < INT_MAX &&
    (ib ==> |pms| > 0) &&
    (forall vm :: vm in vms ==>
      |vm.demand| == |vms[0].demand| &&
      (forall k :: 0 <= k < |vm.demand| ==> vm.demand[k] >= 0) &&
      NeedsSome(vm.demand) &&
      -1 <= vm.initialID < |pms| && (ib ==> vm.initialID >= 0)) &&
    (forall p :: 0 <= p < |pms| ==>
      |pms[p].capacity| == |vms[0].demand| && pms[p].resourcesFree == pms[p].capacity &&
      pms[p].numAdditionalVMs == 0 &&
      forall k :: 0 <= k < |pms[p].capacity| ==> pms[p].capacity[k] >= 0)
  }

  /** The VM comparator of a sort method, as `std::sort` receives it. */
  function VMOrder(m: SortType): (VM, VM) --> bool
  {
    (a: VM, b: VM) requires |a.demand| == |b.demand| => VMLess(m, a, b)
  }

  /** The VM sort of `preprocess`: none for NONE, else a sorted permutation. */
  function SortVMs(m: SortType, vms: seq<VM>): (r: seq<VM>)
    requires forall a, b :: a in vms && b in vms ==> |a.demand| == |b.demand|
    ensures multiset(r) == multiset(vms)
    ensures m == NONE ==> r == vms
    ensures m != NONE ==> Defined(r, VMOrder(m)) && SortedBy(r, VMOrder(m))
  {
    if m == NONE then vms
    else
      forall a, b, c | a in vms && b in vms && c in vms
        ensures !VMOrder(m)(a, a)
        ensures VMOrder(m)(a, b) && VMOrder(m)(b, c) ==> VMOrder(m)(a, c)
      {
        VMLessIsStrictOrder(m, a, b, c);
      }
      SortBy(vms, VMOrder(m))
  }

  lemma SortVMsKeepsProblem(m: SortType, vms: seq<VM>, pms: seq<PM>, ib: bool)
    requires ProblemOK(vms, pms, ib)
    ensures var r := SortVMs(m, vms);
      ProblemOK(r, pms, ib) && |r[0].demand| == |vms[0].demand|
  {
    var r := SortVMs(m, vms);
    forall vm | vm in r
      ensures vm in vms
    {
      assert vm in multiset(r);
    }
    assert |r| == |vms|;
    assert r[0] in r;
  }

  /** The PMs after `preprocess` counted each VM at its initial PM (only with the intelligent bound). */
  function PreprocessedPMs(vms: seq<VM>, pms: seq<PM>, ib: bool): (r: seq<PM>)
    ensures |r| == |pms|
  {
    seq(|pms|, x requires 0 <= x < |pms| =>
      pms[x].(numAdditionalVMs := if ib then WaitCount(vms, map[], x, |vms|) else pms[x].numAdditionalVMs))
  }

  /** `VMFitsInPM`: the PM has the VM's demand free in every dimension. */
  method VMFitsInPM(vm: VM, pm: PM) returns (fits: bool)
    requires |vm.demand| <= |pm.resourcesFree|
    ensures fits <==> Fits(vm, pm)
  {
    var i := 0;
    while i < |vm.demand|
      invariant i <= |vm.demand|
      invariant forall k :: 0 <= k < i ==> vm.demand[k] <= pm.resourcesFree[k]
    {
      if pm.resourcesFree[i] < vm.demand[i] {
        return false;
      }
      i := i + 1;
    }
    return true;
  }

  /** The constructor's double loop: each VM's candidate list holds the PMs it fits on, in index order. */
  method CandidateLists(vms: seq<VM>, pms: seq<PM>) returns (lists: seq<seq<nat>>)
    requires forall w, p :: 0 <= w < |vms| && 0 <= p < |pms| ==> |vms[w].demand| <= |pms[p].resourcesFree|
    ensures |lists| == |vms|
    ensures forall w :: 0 <= w < |vms| ==> lists[w] == FitList(vms[w], pms, |pms|)
  {
    lists := [];
    var w := 0;
    while w < |vms|
      invariant w <= |vms| && |lists| == w
      invariant forall u :: 0 <= u < w ==> ListedFor(lists[u], vms[u], pms)
    {
      var l := FitListOf(vms[w], pms);
      lists := lists + [l];
      w := w + 1;
    }
  }

  /** `l` is the candidate list of `vm`. */
  ghost predicate ListedFor(l: seq<nat>, vm: VM, pms: seq<PM>)
  {
    l == FitList(vm, pms, |pms|)
  }

  /** The constructor's inner loop: the PMs `vm` fits on, in index order. */
  method FitListOf(vm: VM, pms: seq<PM>) returns (l: seq<nat>)
    requires forall p :: 0 <= p < |pms| ==> |vm.demand| <= |pms[p].resourcesFree|
    ensures l == FitList(vm, pms, |pms|)
  {
    l := [];
    var p := 0;
    while p < |pms|
      invariant p <= |pms| && l == FitList(vm, pms, p)
    {
      var fits := VMFitsInPM(vm, pms[p]);
      if fits {
        l := l + [p];
      }
      p := p + 1;
    }
  }

  /** Every PM is empty: nothing of it is in use. */
  ghost predicate AllEmpty(pms: seq<PM>)
  {
    forall x :: 0 <= x < |pms| ==> pms[x].resourcesFree == pms[x].capacity
  }

  /** `preprocess`'s first loop: each VM counted at its initial PM. */
  method CountInitialVMs(vms: seq<VM>, pms: seq<PM>) returns (r: seq<PM>)
    requires forall w :: 0 <= w < |vms| ==> 0 <= vms[w].initialID < |pms|
    requires forall x :: 0 <= x < |pms| ==> pms[x].numAdditionalVMs == 0
    ensures r == PreprocessedPMs(vms, pms, true)
  {
    r := pms;
    var w := 0;
    while w < |vms|
      invariant w <= |vms| && |r| == |pms|
      invariant forall x :: 0 <= x < |pms| ==> r[x] == pms[x].(numAdditionalVMs := WaitCount(vms, map[], x, w))
    {
      var q := vms[w].initialID;
      r := r[q := r[q].(numAdditionalVMs := r[q].numAdditionalVMs + 1)];
      w := w + 1;
    }
  }

  /** `preprocess`'s `count_if`: the PMs with an initial VM, all of them off. */
  method CountAdditionalPMs(pms: seq<PM>) returns (n: int)
    requires AllEmpty(pms)
    ensures n == OffPositiveCount(pms, |pms|)
  {
    n := 0;
    var x := 0;
    while x < |pms|
      invariant x <= |pms| && n == OffPositiveCount(pms, x)
    {
      assert Off(pms[x]);
      if pms[x].numAdditionalVMs > 0 {
        n := n + 1;
      }
      x := x + 1;
    }
  }

  /** `preprocess`'s `max_element`: the largest initial VM count over the (non-empty) PMs. */
  method MaxAdditionalVMs(pms: seq<PM>) returns (m: int)
    requires |pms| > 0
    ensures forall x :: 0 <= x < |pms| ==> pms[x].numAdditionalVMs <= m
    ensures exists x :: 0 <= x < |pms| && pms[x].numAdditionalVMs == m
  {
    var best := 0;
    var x := 1;
    while x < |pms|
      invariant 1 <= x <= |pms| && best < x
      invariant forall y :: 0 <= y < x ==> pms[y].numAdditionalVMs <= pms[best].numAdditionalVMs
    {
      if pms[best].numAdditionalVMs < pms[x].numAdditionalVMs {
        best := x;
      }
      x := x + 1;
    }
    m := pms[best].numAdditionalVMs;
  }

  /** `preprocess`'s last loop: `m_additionalVMCounts[c]` counts the (all off) PMs with counter `c`. */
  method TierCounts(pms: seq<PM>, n: nat) returns (counts: seq<int>)
    requires AllEmpty(pms) && forall x :: 0 <= x < |pms| ==> 0 <= pms[x].numAdditionalVMs <= n
    ensures |counts| == n + 1
    ensures forall c :: 0 <= c <= n ==> counts[c] == OffCount(pms, c, |pms|)
  {
    counts := seq(n + 1, _ => 0);
    var x := 0;
    while x < |pms|
      invariant x <= |pms| && |counts| == n + 1
      invariant forall c :: 0 <= c <= n ==> counts[c] == OffCount(pms, c, x)
    {
      assert Off(pms[x]);
      var c := pms[x].numAdditionalVMs;
      counts := counts[c := counts[c] + 1];
      x := x + 1;
    }
  }

  /** Only free resources decide the candidate lists. */
  lemma {:induction false} FitListSameFree(vm: VM, a: seq<PM>, b: seq<PM>, n: nat)
    requires n <= |a| == |b| && forall x :: 0 <= x < |a| ==> a[x].resourcesFree == b[x].resourcesFree
    ensures FitList(vm, a, n) == FitList(vm, b, n)
  {
    if n > 0 {
      FitListSameFree(vm, a, b, n - 1);
    }
  }

  /**
   * The engine state the constructor and `preprocess` build for the (sorted)
   * VMs `vms`: candidate lists from the constructor's double loop and, with
   * the intelligent bound, the counters of `preprocess`; `maxK` is
   * `m_maxNumVMsOnOnePM`. The state satisfies the invariant.
   */
  method InitialEngine(vms: seq<VM>, machines: seq<PM>, ib: bool) returns (e: Engine, maxK: int)
    requires ProblemOK(vms, machines, ib)
    ensures BnBState.Valid(vms, ib, e) && SameMachines(e.pms, machines)
    ensures e.pms == PreprocessedPMs(vms, machines, ib)
    ensures forall w :: 0 <= w < |vms| ==> e.available[w] == FitList(vms[w], machines, |machines|)
    ensures e.allocations == map[] && e.changeStack == [] && e.numPMsOn == 0 && e.numMigrations == 0
    ensures 0 <= maxK <= |vms|
    ensures ib ==>
      (forall x :: 0 <= x < |e.pms| ==> e.pms[x].numAdditionalVMs <= maxK) &&
      (exists x :: 0 <= x < |e.pms| && e.pms[x].numAdditionalVMs == maxK)
  {
    assert forall w :: 0 <= w < |vms| ==> vms[w] in vms;
    var lists := CandidateLists(vms, machines);
    var prepared, counts, additional, k := Preprocess(vms, machines, ib);
    forall w | 0 <= w < |vms|
      ensures lists[w] == FitList(vms[w], prepared, |prepared|)
    {
      FitListSameFree(vms[w], machines, prepared, |machines|);
    }
    e, maxK := Engine(prepared, lists, seq(|vms|, _ => 0), map[], 0, 0, additional, counts, []), k;
    InitialValid(vms, ib, machines, e);
  }

  /**
   * `preprocess` without the VM sort: with the intelligent bound, every VM
   * counted at its initial PM, the PMs with initial VMs counted, their
   * largest count taken and the PMs grouped by count; without it nothing is
   * counted.
   */
  method Preprocess(vms: seq<VM>, machines: seq<PM>, ib: bool)
    returns (prepared: seq<PM>, counts: seq<int>, additional: int, maxK: int)
    requires ProblemOK(vms, machines, ib)
    ensures prepared == PreprocessedPMs(vms, machines, ib) && |counts| == |vms| + 1
    ensures ib ==> forall c :: 0 <= c <= |vms| ==> counts[c] == OffCount(prepared, c, |prepared|)
    ensures ib ==> additional == OffPositiveCount(prepared, |prepared|)
    ensures 0 <= maxK <= |vms|
    ensures ib ==>
      (forall x :: 0 <= x < |prepared| ==> prepared[x].numAdditionalVMs <= maxK) &&
      (exists x :: 0 <= x < |prepared| && prepared[x].numAdditionalVMs == maxK)
  {
    prepared, counts, additional, maxK := machines, seq(|vms| + 1, _ => 0), 0, 0;
    if ib {
      assert forall w :: 0 <= w < |vms| ==> vms[w] in vms;
      prepared := CountInitialVMs(vms, machines);
      forall x | 0 <= x < |machines|
        ensures prepared[x].numAdditionalVMs <= |vms|
      {
        WaitAtMost(vms, map[], x, |vms|);
      }
      additional := CountAdditionalPMs(prepared);
      maxK := MaxAdditionalVMs(prepared);
      counts := TierCounts(prepared, |vms|);
    } else {
      assert prepared == PreprocessedPMs(vms, machines, false);
    }
  }

  lemma {:induction false} MigCountNone(vms: seq<VM>, n: nat)
    requires n <= |vms|
    ensures MigCount(vms, map[], n) == 0
  {
    if n > 0 {
      MigCountNone(vms, n - 1);
    }
  }

  /** The state the constructor and `preprocess` leave satisfies the invariant. */
  lemma InitialValid(vms: seq<VM>, ib: bool, orig: seq<PM>, s: Engine)
    requires ProblemOK(vms, orig, ib) && s.pms == PreprocessedPMs(vms, orig, ib)
    requires s.allocations == map[] && s.changeStack == [] && s.numPMsOn == 0 && s.numMigrations == 0
    requires |s.available| == |vms| && |s.cursor| == |vms| && |s.additionalVMCounts| == |vms| + 1
    requires forall w :: 0 <= w < |vms| ==> s.available[w] == FitList(vms[w], s.pms, |s.pms|)
    requires ib ==> forall c :: 0 <= c <= |vms| ==> s.additionalVMCounts[c] == OffCount(s.pms, c, |s.pms|)
    requires ib ==> s.numAdditionalPMs == OffPositiveCount(s.pms, |s.pms|)
    ensures BnBState.Valid(vms, ib, s)
  {
    InitialShape(vms, ib, orig, s);
    InitialLoad(vms, ib, orig, s);
    MigCountNone(vms, |vms|);
    assert s.allocations.Values == {};
    forall w | 0 <= w < |vms|
      ensures ListOK(vms, s, w)
    {
      IncreasingNoDup(s.available[w]);
    }
    if ib {
      InitialBound(vms, orig, s);
    }
  }

  lemma InitialShape(vms: seq<VM>, ib: bool, orig: seq<PM>, s: Engine)
    requires ProblemOK(vms, orig, ib) && s.pms == PreprocessedPMs(vms, orig, ib)
    requires |s.available| == |vms| && |s.cursor| == |vms| && |s.additionalVMCounts| == |vms| + 1
    ensures ShapeOK(vms, s) && DemandsOK(vms)
  {
    forall w | 0 <= w < |vms|
      ensures |vms[w].demand| == |vms[0].demand|
      ensures NeedsSome(vms[w].demand)
      ensures forall k :: 0 <= k < |vms[w].demand| ==> vms[w].demand[k] >= 0
    {
      assert vms[w] in vms;
    }
  }

  lemma InitialLoad(vms: seq<VM>, ib: bool, orig: seq<PM>, s: Engine)
    requires ProblemOK(vms, orig, ib) && s.pms == PreprocessedPMs(vms, orig, ib) && s.allocations == map[]
    requires |s.available| == |vms| && |s.cursor| == |vms| && |s.additionalVMCounts| == |vms| + 1
    ensures ShapeOK(vms, s) && LoadOK(vms, s)
  {
    InitialShape(vms, ib, orig, s);
    forall p, k | 0 <= p < |s.pms| && 0 <= k < |vms[0].demand|
      ensures s.pms[p].resourcesFree[k] == s.pms[p].capacity[k] - Load(vms, s.allocations, p, k, |vms|)
    {
      LoadOfUnused(vms, s.allocations, p, k, |vms|);
    }
  }

  lemma InitialBound(vms: seq<VM>, orig: seq<PM>, s: Engine)
    requires ProblemOK(vms, orig, true) && s.pms == PreprocessedPMs(vms, orig, true) && s.allocations == map[]
    requires |s.available| == |vms| && |s.cursor| == |vms| && |s.additionalVMCounts| == |vms| + 1
    requires forall c :: 0 <= c <= |vms| ==> s.additionalVMCounts[c] == OffCount(s.pms, c, |s.pms|)
    requires s.numAdditionalPMs == OffPositiveCount(s.pms, |s.pms|)
    ensures ShapeOK(vms, s) && BoundOK(vms, true, s)
  {
    InitialShape(vms, true, orig, s);
    forall w | 0 <= w < |vms|
      ensures vms[w].initialID >= 0
    {
      assert vms[w] in vms;
    }
    forall p | 0 <= p < |s.pms|
      ensures WaitingOK(vms, s, p)
    {
      WaitAtMost(vms, map[], p, |vms|);
    }
  }

  // ---------------------------------------------------------------------
  // Small search steps stated on engine states

  /** The same machines: ids and capacities agree, only the free resources and counters may differ. */
  ghost predicate SameMachines(a: seq<PM>, b: seq<PM>)
  {
    |a| == |b| && forall x :: 0 <= x < |a| ==> a[x].id == b[x].id && a[x].capacity == b[x].capacity
  }

  /** `allocate` touches neither the machines' ids and capacities nor the cursors. */
  lemma AllocatedFrame(vms: seq<VM>, ib: bool, s: Engine, v: nat, p: nat, orig: seq<PM>)
    requires AllocWF(vms, ib, s, v, p) && SameMachines(s.pms, orig)
    ensures SameMachines(Allocated(vms, ib, s, v, p).pms, orig)
    ensures Allocated(vms, ib, s, v, p).cursor == s.cursor
  {
  }

  /** Nor does `deAllocate`. */
  lemma DeallocatedFrame(vms: seq<VM>, ib: bool, s: Engine, v: nat, orig: seq<PM>)
    requires DeallocWF(vms, ib, s, v) && SameMachines(s.pms, orig)
    ensures SameMachines(Deallocated(vms, ib, s, v).pms, orig)
    ensures Deallocated(vms, ib, s, v).cursor == s.cursor
  {
  }

  /** `allocate` pushes exactly one undo entry, for the VM it placed, and keeps that VM's list. */
  lemma AllocatedPushes(vms: seq<VM>, ib: bool, s: Engine, v: nat, p: nat)
    requires AllocWF(vms, ib, s, v, p) && v !in s.allocations
    ensures var t := Allocated(vms, ib, s, v, p);
      |t.changeStack| == |s.changeStack| + 1 && t.changeStack[..|s.changeStack|] == s.changeStack &&
      t.changeStack[|s.changeStack|].vmAllocated == v && t.available[v] == s.available[v] &&
      |t.available| == |s.available| && t.allocations == s.allocations[v := p]
  {
    var t := Allocated(vms, ib, s, v, p);
    assert !PruneHere(vms, t.allocations, s.available, p, t.pms[p], v);
  }

  /** In a valid state with every VM placed, the allocation is complete and feasible. */
  lemma CompleteIsFeasible(vms: seq<VM>, ib: bool, s: Engine)
    requires BnBState.Valid(vms, ib, s) && forall w :: 0 <= w < |vms| ==> w in s.allocations
    ensures Complete(vms, s.pms, s.allocations)
  {
  }

  /**
   * A complete assignment: every VM, and only VMs, placed on a PM, with the
   * load of every PM within its capacity in every dimension.
   */
  ghost predicate Complete(vms: seq<VM>, pms: seq<PM>, a: map<nat, nat>)
    requires |vms| > 0
  {
    (forall w :: 0 <= w < |vms| ==> w in a) &&
    (forall w :: w in a ==> w < |vms| && a[w] < |pms|) &&
    (forall p, k :: 0 <= p < |pms| && 0 <= k < |vms[0].demand| ==> LoadFits(vms, a, p, k, pms[p]))
  }

  /** PM `pm`, number p, has dimension k and its load there is within its capacity. */
  ghost predicate LoadFits(vms: seq<VM>, a: map<nat, nat>, p: nat, k: nat, pm: PM)
  {
    k < |pm.capacity| && Load(vms, a, p, k, |vms|) <= pm.capacity[k]
  }

  /** The list of VMs the undo entries name, bottom first: `m_VMStack` mirrors it. */
  function StackOrder(cs: seq<Change>): (r: seq<nat>)
    ensures |r| == |cs|
  {
    if cs == [] then [] else StackOrder(cs[..|cs| - 1]) + [cs[|cs| - 1].vmAllocated]
  }

  /** Entry by entry, `m_VMStack` names the VM of the matching undo entry. */
  lemma {:induction false} StackOrderAt(cs: seq<Change>, i: nat)
    requires i < |cs|
    ensures StackOrder(cs)[i] == cs[i].vmAllocated
  {
    if i < |cs| - 1 {
      StackOrderAt(cs[..|cs| - 1], i);
    }
  }

  /** Completeness and feasibility only read capacities. */
  lemma CompleteOnSameMachines(vms: seq<VM>, pms: seq<PM>, pms': seq<PM>, a: map<nat, nat>)
    requires |vms| > 0 && SameMachines(pms, pms') && Complete(vms, pms, a)
    ensures Complete(vms, pms', a)
  {
    forall p, k | 0 <= p < |pms'| && 0 <= k < |vms[0].demand|
      ensures LoadFits(vms, a, p, k, pms'[p])
    {
      assert LoadFits(vms, a, p, k, pms[p]);
    }
  }

  // ---------------------------------------------------------------------
  // The search loop's invariant, on engine states

  /**
   * A state the depth-first search can be in: valid, cursors of placed VMs
   * in range, explained by the history `hist`, and, up to candidate order,
   * the state `start` the search began in once every entry is undone.
   */
  ghost predicate SearchState(vms: seq<VM>, ib: bool, hist: seq<Engine>, start: Engine, s: Engine)
  {
    BnBState.Valid(vms, ib, s) && CursorsOK(s) && History(vms, ib, hist, s.changeStack, s) &&
    (if |hist| == 0 then Similar(start, s) else Similar(start, hist[0]))
  }

  /** The search state at the head of the loop, with `v` the VM being handled. */
  ghost predicate AtLoopHead(vms: seq<VM>, ib: bool, hist: seq<Engine>, start: Engine, s: Engine, v: nat)
  {
    SearchState(vms, ib, hist, start, s) &&
    v < |vms| == |s.available| == |s.cursor| && v !in s.allocations && s.cursor[v] <= |s.available[v]|
  }

  /** Reordering the list of an unplaced VM and setting its cursor keeps the search state. */
  lemma ReorderKeeps(vms: seq<VM>, ib: bool, hist: seq<Engine>, start: Engine, s: Engine, v: nat, l: seq<nat>, c: nat)
    requires SearchState(vms, ib, hist, start, s)
    requires v < |vms| == |s.available| == |s.cursor| && v !in s.allocations
    requires multiset(l) == multiset(s.available[v])
    ensures SearchState(vms, ib, hist, start, s.(available := s.available[v := l], cursor := s.cursor[v := c]))
  {
    var t := s.(available := s.available[v := l], cursor := s.cursor[v := c]);
    ReorderIsSimilar(s, v, l, c);
    SimilarPreservesValid(vms, ib, s, t);
    SimilarKeepsCursors(s, t);
    HistoryRespectsSimilar(vms, ib, hist, s.changeStack, s, t);
    SimilarIsEquivalence(start, s, t);
  }

  /** In a valid state every PM has the VMs' dimensions and every list holds PM indices. */
  lemma ValidShapes(vms: seq<VM>, ib: bool, s: Engine, v: nat)
    ensures BnBState.Valid(vms, ib, s) && v < |vms| ==>
      Shaped(|vms[0].demand|, s.pms) && Wide(|vms[0].demand|, s.pms) && Below(s.available[v], |s.pms|)
  {
    if BnBState.Valid(vms, ib, s) && v < |vms| {
      assert ListOK(vms, s, v);
    }
  }

  /** Moving the cursor of the handled VM within its list keeps the loop head. */
  lemma CursorMoveKeeps(vms: seq<VM>, ib: bool, hist: seq<Engine>, start: Engine, s: Engine, v: nat, c: nat)
    ensures AtLoopHead(vms, ib, hist, start, s, v) && c <= |s.available[v]| ==>
      AtLoopHead(vms, ib, hist, start, s.(cursor := s.cursor[v := c]), v)
  {
    if AtLoopHead(vms, ib, hist, start, s, v) && c <= |s.available[v]| {
      ReorderKeeps(vms, ib, hist, start, s, v, s.available[v], c);
      assert s.available[v := s.available[v]] == s.available;
    }
  }

  /** The state `resetCandidates(v)` leaves: `v`'s list reordered, its iterator at the front. */
  function Reset(b: BnBSettings, dim: nat, vms: seq<VM>, s: Engine, v: nat): (r: Engine)
    requires v < |vms| && v < |s.available| && v < |s.cursor|
    requires Shaped(dim, s.pms) && Below(s.available[v], |s.pms|)
    ensures |r.available| == |s.available| && |r.cursor| == |s.cursor|
    ensures multiset(r.available[v]) == multiset(s.available[v]) && r.cursor[v] == 0
    ensures b.initialPMFirst && vms[v].initialID in s.available[v] ==> r.available[v][0] == vms[v].initialID
  {
    s.(available := s.available[v := ResetList(b, dim, s.pms, s.available[v], vms[v].initialID)],
       cursor := s.cursor[v := 0])
  }

  /** Resetting the list of the next VM to handle puts the search at the head of its loop. */
  lemma ResetKeeps(vms: seq<VM>, ib: bool, hist: seq<Engine>, start: Engine, s: Engine, b: BnBSettings, v: nat)
    requires SearchState(vms, ib, hist, start, s)
    requires v < |vms| == |s.available| == |s.cursor| && v !in s.allocations
    requires Shaped(|vms[0].demand|, s.pms) && Below(s.available[v], |s.pms|)
    ensures AtLoopHead(vms, ib, hist, start, Reset(b, |vms[0].demand|, vms, s, v), v)
  {
    var r := Reset(b, |vms[0].demand|, vms, s, v);
    ReorderKeeps(vms, ib, hist, start, s, v, r.available[v], 0);
    assert r == s.(available := s.available[v := r.available[v]], cursor := s.cursor[v := 0]);
  }

  /** Placing `v` on a PM of its list: allowed, and it pushes the state onto the history. */
  lemma PlaceKeeps(vms: seq<VM>, ib: bool, hist: seq<Engine>, start: Engine, s: Engine, v: nat, p: nat)
    requires AtLoopHead(vms, ib, hist, start, s, v) && p in s.available[v]
    ensures AllocPre(vms, ib, s, v, p)
    ensures var t := Allocated(vms, ib, s, v, p);
      SearchState(vms, ib, hist + [s], start, t) &&
      |t.changeStack| == |s.changeStack| + 1 && t.changeStack[..|s.changeStack|] == s.changeStack &&
      t.changeStack[|s.changeStack|].vmAllocated == v && t.allocations == s.allocations[v := p] &&
      StackOrder(t.changeStack) == StackOrder(s.changeStack) + [v]
  {
    assert ListOK(vms, s, v);
    AllocPreHolds(vms, ib, s, v, p);
    var t := Allocated(vms, ib, s, v, p);
    AllocatedPreservesValid(vms, ib, s, v, p);
    AllocatedKeepsCursors(vms, ib, s, v, p);
    HistoryPush(vms, ib, hist, s, v, p);
    AllocatedPushes(vms, ib, s, v, p);
    StackOrderPushPop(s.changeStack, t.changeStack[|s.changeStack|]);
    assert t.changeStack == s.changeStack + [t.changeStack[|s.changeStack|]];
  }

  /** Undoing the top entry is allowed and lands at a loop head for the VM it names. */
  lemma UndoKeeps(vms: seq<VM>, ib: bool, hist: seq<Engine>, start: Engine, s: Engine)
    requires SearchState(vms, ib, hist, start, s) && |hist| > 0
    ensures var v := s.changeStack[|s.changeStack| - 1].vmAllocated;
      DeallocPre(vms, ib, s, v) &&
      AtLoopHead(vms, ib, hist[..|hist| - 1], start, Deallocated(vms, ib, s, v), v) &&
      Deallocated(vms, ib, s, v).changeStack == s.changeStack[..|s.changeStack| - 1]
  {
    var v := s.changeStack[|s.changeStack| - 1].vmAllocated;
    HistoryPop(vms, ib, hist, s);
    var u := Deallocated(vms, ib, s, v);
    assert EntryOK(vms, s, |s.changeStack| - 1);
    if |hist| == 1 {
      SimilarIsEquivalence(start, hist[0], u);
    } else {
      assert hist[..|hist| - 1][0] == hist[0];
    }
  }

  /** The candidate lists with those of the first `n` VMs pruned. */
  function PrunedUpTo(vms: seq<VM>, alloc: map<nat, nat>, avail: seq<seq<nat>>, p: nat, target: PM, n: nat): (r: seq<seq<nat>>)
    requires |vms| == |avail|
    ensures |r| == |avail|
  {
    seq(|avail|, u requires 0 <= u < |avail| => if u < n then Pruned(vms, alloc, avail, p, target)[u] else avail[u])
  }

  lemma PrunedUpToStep(vms: seq<VM>, alloc: map<nat, nat>, avail: seq<seq<nat>>, p: nat, target: PM, n: nat)
    requires n < |vms| == |avail|
    ensures PrunedUpTo(vms, alloc, avail, p, target, 0) == avail
    ensures PrunedUpTo(vms, alloc, avail, p, target, n + 1) ==
      PrunedUpTo(vms, alloc, avail, p, target, n)[n := Pruned(vms, alloc, avail, p, target)[n]]
    ensures PrunedUpTo(vms, alloc, avail, p, target, |vms|) == Pruned(vms, alloc, avail, p, target)
    ensures PrunedUpTo(vms, alloc, avail, p, target, n)[n] == avail[n]
  {
  }

  /** One turn of `allocate`'s update loop keeps the lists and `doNotFitAnymore` those of the VMs seen. */
  lemma PruneNext(vms: seq<VM>, alloc: map<nat, nat>, avail: seq<seq<nat>>, p: nat, target: PM, w: nat,
                  lists: seq<seq<nat>>, dnf: seq<nat>, prune: bool, found: nat, lists': seq<seq<nat>>, dnf': seq<nat>)
    requires w < |vms| == |avail|
    requires lists == PrunedUpTo(vms, alloc, avail, p, target, w)
    requires dnf == NoLongerFitting(vms, alloc, avail, p, target, w)
    requires prune <==> w !in alloc && p in lists[w] && !Fits(vms[w], target)
    requires prune ==> found == IndexOf(lists[w], p) < |lists[w]|
    requires lists' == if prune then lists[w := EraseAt(lists[w], found)] else lists
    requires dnf' == if prune then dnf + [w] else dnf
    ensures lists' == PrunedUpTo(vms, alloc, avail, p, target, w + 1)
    ensures dnf' == NoLongerFitting(vms, alloc, avail, p, target, w + 1)
  {
    PrunedUpToStep(vms, alloc, avail, p, target, w);
  }

  /** `Allocated`, component by component. */
  lemma AllocatedParts(vms: seq<VM>, ib: bool, s: Engine, v: nat, p: nat)
    requires AllocWF(vms, ib, s, v, p)
    ensures var t := Allocated(vms, ib, s, v, p);
      var pms := PMsAfterAllocate(vms, ib, s, v, p);
      var alloc := s.allocations[v := p];
      var q := vms[v].initialID;
      t == Engine(pms, Pruned(vms, alloc, s.available, p, pms[p]), s.cursor, alloc,
        if On(s.pms[p]) then s.numPMsOn else s.numPMsOn + 1,
        if q != -1 && p != q then s.numMigrations + 1 else s.numMigrations,
        s.numAdditionalPMs
          - (if !On(s.pms[p]) && ib && s.pms[p].numAdditionalVMs > 0 then 1 else 0)
          - (if InitialStaysOff(vms, ib, s, v, p) && s.pms[q].numAdditionalVMs == 1 then 1 else 0),
        CountsAfterAllocate(vms, ib, s, v, p),
        s.changeStack + [Change(v, p, NoLongerFitting(vms, alloc, s.available, p, pms[p], |vms|))])
  {
  }

  /** One step of `deAllocate`'s loop over an increasing `dnf`. */
  lemma ReaddedStep(avail: seq<seq<nat>>, dnf: seq<nat>, p: nat, i: nat)
    requires Increasing(dnf) && i < |dnf| && dnf[i] < |avail|
    ensures Readded(avail, dnf[..i], p)[dnf[i]] == avail[dnf[i]]
    ensures Readded(avail, dnf[..i + 1], p) == Readded(avail, dnf[..i], p)[dnf[i] := avail[dnf[i]] + [p]]
  {
    assert dnf[i] !in dnf[..i];
    assert forall w :: w in dnf[..i + 1] <==> w in dnf[..i] || w == dnf[i] by {
      assert dnf[..i + 1] == dnf[..i] + [dnf[i]];
    }
  }

  /** In a valid state no candidate list reaches `INT_MAX` entries: each holds distinct PMs. */
  lemma ListsShort(vms: seq<VM>, ib: bool, s: Engine)
    ensures BnBState.Valid(vms, ib, s) && |s.pms| < INT_MAX ==>
      forall w :: 0 <= w < |vms| ==> |s.available[w]| < INT_MAX
  {
    if BnBState.Valid(vms, ib, s) && |s.pms| < INT_MAX {
      forall w | 0 <= w < |vms|
        ensures |s.available[w]| < INT_MAX
      {
        assert ListOK(vms, s, w);
        NoDupLength(s.available[w], |s.pms|);
      }
    }
  }

  /** `m_VMStack` follows the undo stack through a push and a pop. */
  lemma StackOrderPushPop(cs: seq<Change>, c: Change)
    ensures StackOrder(cs + [c]) == StackOrder(cs) + [c.vmAllocated]
    ensures |cs| > 0 ==> StackOrder(cs[..|cs| - 1]) == StackOrder(cs)[..|cs| - 1]
  {
    assert (cs + [c])[..|cs|] == cs;
  }

  /**
   * The search ends with an empty `m_VMStack`: every placement is undone
   * and the state is the initial one up to the order of candidate lists.
   */
  lemma SearchEnd(vms: seq<VM>, ib: bool, hist: seq<Engine>, start: Engine, s: Engine, vmStack: seq<nat>, initial: Engine)
    requires SearchState(vms, ib, hist, start, s) && vmStack == StackOrder(s.changeStack) && Similar(initial, start)
    ensures |vmStack| == 0 ==> s.allocations == map[] && s.changeStack == [] && Similar(initial, s)
  {
    if |vmStack| == 0 {
      PlacedCount(vms, ib, s);
      assert s.allocations.Keys == {};
      assert s.allocations == map[];
      SimilarIsEquivalence(initial, start, s);
    }
  }

  /** A cost below `best * threshold`, with a threshold of at most 1, is below a non-negative `best`. */
  lemma BelowScaled(cost: real, best: real, threshold: real)
    requires 0.0 <= best && threshold <= 1.0 && cost < best * threshold
    ensures cost < best
  {
    assert best * (1.0 - threshold) >= 0.0;
  }

  /** The pruning bound of `solve`: the best cost so far scaled by `boundThreshold`. */
  ghost function ScaledBest(best: int, threshold: real): real
  {
    best as real * threshold
  }

  // ---------------------------------------------------------------------
  // std::find

  /** `std::find` over a candidate list: the first position of `x`, or the end. */
  method Find(l: seq<nat>, x: nat) returns (i: nat)
    ensures i == IndexOf(l, x)
  {
    i := 0;
    while i < |l| && l[i] != x
      invariant 0 <= i <= |l|
      invariant forall j :: 0 <= j < i ==> l[j] != x
    {
      i := i + 1;
    }
    IndexOfIsFirst(l, x, i);
  }

  lemma {:induction false} IndexOfIsFirst(l: seq<nat>, x: nat, i: nat)
    requires i <= |l| && (i < |l| ==> l[i] == x) && forall j :: 0 <= j < i ==> l[j] != x
    ensures IndexOf(l, x) == i
  {
  }

  // ---------------------------------------------------------------------
  // The allocator

  /** The best allocation found so far, with its cost and the two counts the cost is made of. */
  datatype Best = Best(allocation: map<nat, nat>, cost: int, numPMsOn: int, numMigrations: int)

  /**
   * The best record: none yet, with every field at `INT_MAX`, or a complete
   * feasible allocation within the migration budget whose cost and
   * components the record holds.
   */
  ghost predicate BestOK(vms: seq<VM>, pms: seq<PM>, maxMigrations: int, b: Best)
    requires |vms| > 0
  {
    if b.allocation == map[] then
      b.cost == INT_MAX && b.numMigrations == INT_MAX && b.numPMsOn == INT_MAX
    else
      Complete(vms, pms, b.allocation) &&
      b.numPMsOn == |b.allocation.Values| &&
      b.numMigrations == MigCount(vms, b.allocation, |vms|) <= maxMigrations &&
      b.cost == COEFF_NR_OF_ACTIVE_HOSTS * b.numPMsOn + COEFF_NR_OF_MIGRATIONS * b.numMigrations
  }

  class BnBAllocator {
    /** The VMs in the order `preprocess` sorted them into. */
    const vms: seq<VM>
    const params: BnBSettings
    /** `m_params.intelligentBound`. */
    const ib: bool
    const dimension: nat
    const numMaxMigrations: int
    /** The most VMs any PM can host: the last tier `computeMinimalExtraCost` considers. */
    const maxNumVMsOnOnePM: int
    /** The PMs of the problem as given: ids and capacities never change. */
    ghost const problemPMs: seq<PM>

    var pms: seq<PM>
    var available: seq<seq<nat>>
    var cursor: seq<nat>
    var allocations: map<nat, nat>
    var numPMsOn: int
    var numMigrations: int
    var numAdditionalPMs: int
    var additionalVMCounts: seq<int>
    var changeStack: seq<Change>
    var vmStack: seq<nat>
    var bestAllocation: map<nat, nat>
    var bestCostSoFar: int
    var bestSoFarNumMigrations: int
    var bestSoFarNumPMsOn: int

    /** The engine state the fields hold. */
    function State(): Engine
      reads this`pms, this`available, this`cursor, this`allocations, this`numPMsOn, this`numMigrations,
        this`numAdditionalPMs, this`additionalVMCounts, this`changeStack
    {
      Engine(pms, available, cursor, allocations, numPMsOn, numMigrations, numAdditionalPMs,
             additionalVMCounts, changeStack)
    }

    /** The constants agree with each other. */
    ghost predicate Wf()
    {
      |vms| > 0 && dimension == |vms[0].demand| && ib == params.intelligentBound &&
      0 <= maxNumVMsOnOnePM <= |vms|
    }

    /** `m_bestAllocation`, `m_bestCostSoFar`, `m_bestSoFarNumPMsOn` and `m_bestSoFarNumMigrations` together. */
    function BestSoFar(): Best
      reads this`bestAllocation, this`bestCostSoFar, this`bestSoFarNumMigrations, this`bestSoFarNumPMsOn
    {
      Best(bestAllocation, bestCostSoFar, bestSoFarNumPMsOn, bestSoFarNumMigrations)
    }

    /** The best fields hold a valid record. */
    ghost predicate BestRecorded()
      reads this`bestAllocation, this`bestCostSoFar, this`bestSoFarNumMigrations, this`bestSoFarNumPMsOn
    {
      |vms| > 0 && BestOK(vms, problemPMs, numMaxMigrations, BestSoFar())
    }

    /** The PMs are those of the problem, up to free resources and counters. */
    ghost predicate Machines()
      reads this`pms
    {
      SameMachines(pms, problemPMs) && |pms| < INT_MAX
    }

    ghost predicate Valid()
      reads this
    {
      Wf() && BestRecorded() && Machines() && BnBState.Valid(vms, ib, State())
    }

    /**
     * The constructor followed by `preprocess`: the VMs sorted by the
     * configured method, each VM's candidate list the PMs it fits on, and,
     * with the intelligent bound, every VM counted at its initial PM, the
     * PMs with initial VMs counted, their largest count taken and the PMs
     * grouped by count. The state is valid, nothing is placed and no best
     * allocation is known.
     */
    constructor (problemVMs: seq<VM>, machines: seq<PM>, pa: AllocatorParams)
      requires pa.variant.BnBVariant? && pa.maxMigrationsRatio != 0
      requires ProblemOK(problemVMs, machines, pa.variant.bnb.intelligentBound)
      ensures Valid() && allocations == map[] && changeStack == [] && vmStack == []
      ensures params == pa.variant.bnb && problemPMs == machines
      ensures vms == SortVMs(params.VMSortMethod, problemVMs)
      ensures numMaxMigrations == CDiv(|machines|, pa.maxMigrationsRatio)
      ensures pms == PreprocessedPMs(vms, machines, ib)
      ensures forall w :: 0 <= w < |vms| ==> available[w] == FitList(vms[w], machines, |machines|)
      ensures numPMsOn == 0 && numMigrations == 0
      ensures BestSoFar() == Best(map[], INT_MAX, INT_MAX, INT_MAX)
      ensures ib ==>
        (forall x :: 0 <= x < |pms| ==> pms[x].numAdditionalVMs <= maxNumVMsOnOnePM) &&
        (exists x :: 0 <= x < |pms| && pms[x].numAdditionalVMs == maxNumVMsOnOnePM)
    {
      var settings := pa.variant.bnb;
      var sorted := SortVMs(settings.VMSortMethod, problemVMs);
      SortVMsKeepsProblem(settings.VMSortMethod, problemVMs, machines, settings.intelligentBound);
      var e, maxK := InitialEngine(sorted, machines, settings.intelligentBound);
      params, ib, vms, dimension := settings, settings.intelligentBound, sorted, |sorted[0].demand|;
      numMaxMigrations, maxNumVMsOnOnePM, problemPMs := CDiv(|machines|, pa.maxMigrationsRatio), maxK, machines;
      pms, available, cursor, allocations := e.pms, e.available, e.cursor, e.allocations;
      numPMsOn, numMigrations, numAdditionalPMs, additionalVMCounts := e.numPMsOn, e.numMigrations, e.numAdditionalPMs, e.additionalVMCounts;
      changeStack, vmStack := e.changeStack, [];
      bestAllocation, bestCostSoFar, bestSoFarNumPMsOn, bestSoFarNumMigrations := map[], INT_MAX, INT_MAX, INT_MAX;
    }

    /** `allocate`'s loop reserving the demand of `vm` in free resources `rf`. */
    method SubtractedDemand(rf: seq<int>, vm: VM) returns (r: seq<int>)
      requires |rf| == dimension == |vm.demand|
      ensures r == SubtractDemand(rf, vm)
    {
      r := rf;
      var i := 0;
      while i < dimension
        invariant i <= dimension && |r| == |rf|
        invariant forall k :: 0 <= k < |r| ==> r[k] == rf[k] - (if k < i then DemandAt(vm, k) else 0)
      {
        r := r[i := r[i] - vm.demand[i]];
        i := i + 1;
      }
    }

    /** `deAllocate`'s loop freeing the demand of `vm` in free resources `rf`. */
    method AddedDemand(rf: seq<int>, vm: VM) returns (r: seq<int>)
      requires |rf| == dimension == |vm.demand|
      ensures r == AddDemand(rf, vm)
    {
      r := rf;
      var i := 0;
      while i < dimension
        invariant i <= dimension && |r| == |rf|
        invariant forall k :: 0 <= k < |r| ==> r[k] == rf[k] + (if k < i then DemandAt(vm, k) else 0)
      {
        r := r[i := r[i] + vm.demand[i]];
        i := i + 1;
      }
    }

    /**
     * `allocate`'s loop over the VMs not placed in `alloc`: where PM `p` is a
     * candidate and the VM no longer fits on it (now `target`), `p` is erased
     * from the list and the VM recorded as no longer fitting.
     */
    method PruneCandidates(alloc: map<nat, nat>, avail: seq<seq<nat>>, p: nat, target: PM)
      returns (lists: seq<seq<nat>>, dnf: seq<nat>)
      requires |avail| == |vms| && dimension <= |target.resourcesFree|
      requires forall w :: 0 <= w < |vms| ==> |vms[w].demand| == dimension
      ensures lists == Pruned(vms, alloc, avail, p, target)
      ensures dnf == NoLongerFitting(vms, alloc, avail, p, target, |vms|)
    {
      dnf := [];
      lists := avail;
      var w := 0;
      while w < |vms|
        invariant w <= |vms|
        invariant lists == PrunedUpTo(vms, alloc, avail, p, target, w)
        invariant dnf == NoLongerFitting(vms, alloc, avail, p, target, w)
      {
        var prune, found := LosesCandidate(alloc, lists[w], p, target, w);
        ghost var before, dnfBefore := lists, dnf;
        if prune {
          dnf := dnf + [w];
          lists := lists[w := EraseAt(lists[w], found)];
        }
        PruneNext(vms, alloc, avail, p, target, w, before, dnfBefore, prune, found, lists, dnf);
        w := w + 1;
      }
    }

    /**
     * The body of `allocate`'s loop for VM `w` with list `l`: whether `p` is
     * to be erased (the VM is not placed, `p` is a candidate and the VM no
     * longer fits on it), and where `std::find` found `p`.
     */
    method LosesCandidate(alloc: map<nat, nat>, l: seq<nat>, p: nat, target: PM, w: nat) returns (prune: bool, found: nat)
      requires w < |vms| && |vms[w].demand| == dimension <= |target.resourcesFree|
      ensures prune <==> w !in alloc && p in l && !Fits(vms[w], target)
      ensures prune ==> found == IndexOf(l, p) < |l|
    {
      prune, found := false, 0;
      if w !in alloc {
        found := Find(l, p);
        if found < |l| {
          var fits := VMFitsInPM(vms[w], target);
          prune := !fits;
        }
      }
    }

    /**
     * `allocate(v, p)` up to the candidate lists: the PMs after turning `p`
     * on, reserving `v`'s demand and updating `v`'s initial PM, and the
     * counters that follow them.
     */
    method Reserved(s: Engine, v: nat, p: nat)
      returns (machines: seq<PM>, counts: seq<int>, additionalPMs: int, pmsOn: int, migrations: int)
      requires Wf() && ShapeOK(vms, s) && AllocWF(vms, ib, s, v, p)
      ensures machines == PMsAfterAllocate(vms, ib, s, v, p)
      ensures counts == CountsAfterAllocate(vms, ib, s, v, p)
      ensures additionalPMs == s.numAdditionalPMs
        - (if !On(s.pms[p]) && ib && s.pms[p].numAdditionalVMs > 0 then 1 else 0)
        - (if InitialStaysOff(vms, ib, s, v, p) && s.pms[vms[v].initialID].numAdditionalVMs == 1 then 1 else 0)
      ensures pmsOn == if On(s.pms[p]) then s.numPMsOn else s.numPMsOn + 1
      ensures migrations == if vms[v].initialID != -1 && p != vms[v].initialID then s.numMigrations + 1 else s.numMigrations
    {
      machines, counts, additionalPMs, pmsOn, migrations :=
        s.pms, s.additionalVMCounts, s.numAdditionalPMs, s.numPMsOn, s.numMigrations;
      // turning on a PM
      var wasOn := IsOn(machines[p]);
      if !wasOn {
        pmsOn := pmsOn + 1;
        if ib {
          var m := machines[p].numAdditionalVMs;
          counts := counts[m := counts[m] - 1];
          if m > 0 {
            additionalPMs := additionalPMs - 1;
          }
        }
      }
      // reserving resources
      var rf := SubtractedDemand(machines[p].resourcesFree, vms[v]);
      machines := machines[p := machines[p].(resourcesFree := rf)];
      // the initial PM of the VM
      if ib {
        var q := vms[v].initialID;
        var initialOn := IsOn(machines[q]);
        if !initialOn {
          var n := machines[q].numAdditionalVMs;
          counts := counts[n := counts[n] - 1];
          counts := counts[n - 1 := counts[n - 1] + 1];
          if n == 1 {
            additionalPMs := additionalPMs - 1;
          }
          machines := machines[q := machines[q].(numAdditionalVMs := n - 1)];
        }
      }
      // migrating a VM
      if vms[v].initialID != -1 && p != vms[v].initialID {
        migrations := migrations + 1;
      }
    }

    /** `allocate(v, p)`: place VM `v` on PM `p` and record the change. */
    method Allocate(v: nat, p: nat)
      requires Wf() && ShapeOK(vms, State()) && AllocWF(vms, ib, State(), v, p)
      modifies this`pms, this`available, this`allocations, this`numPMsOn, this`numMigrations,
        this`numAdditionalPMs, this`additionalVMCounts, this`changeStack
      ensures State() == Allocated(vms, ib, old(State()), v, p)
      ensures BestSoFar() == old(BestSoFar()) && vmStack == old(vmStack)
    {
      var s := State();
      var machines, counts, additionalPMs, pmsOn, migrations := Reserved(s, v, p);
      var alloc := s.allocations[v := p];
      var lists, dnf := PruneCandidates(alloc, s.available, p, machines[p]);
      AllocatedParts(vms, ib, s, v, p);
      Commit(Engine(machines, lists, s.cursor, alloc, pmsOn, migrations, additionalPMs, counts,
                    s.changeStack + [Change(v, p, dnf)]));
    }

    /**
     * `deAllocate(v)`'s first step: when the VM's initial PM is off, it has
     * one more VM to take back, and the tier counts move with it.
     */
    method ReleaseInitial(s: Engine, v: nat) returns (machines: seq<PM>, counts: seq<int>, additionalPMs: int)
      requires Wf() && ShapeOK(vms, s) && DeallocWF(vms, ib, s, v)
      ensures var q := vms[v].initialID;
        machines == if InitialWasOff(vms, ib, s, v) then s.pms[q := s.pms[q].(numAdditionalVMs := s.pms[q].numAdditionalVMs + 1)]
                    else s.pms
      ensures var q := vms[v].initialID;
        counts == if InitialWasOff(vms, ib, s, v) then
                    Bump(Bump(s.additionalVMCounts, s.pms[q].numAdditionalVMs, -1), s.pms[q].numAdditionalVMs + 1, 1)
                  else s.additionalVMCounts
      ensures additionalPMs == s.numAdditionalPMs
        + (if InitialWasOff(vms, ib, s, v) && s.pms[vms[v].initialID].numAdditionalVMs == 0 then 1 else 0)
    {
      machines, counts, additionalPMs := s.pms, s.additionalVMCounts, s.numAdditionalPMs;
      if ib {
        var q := vms[v].initialID;
        var initialOn := IsOn(machines[q]);
        if !initialOn {
          var n := machines[q].numAdditionalVMs;
          counts := counts[n := counts[n] - 1];
          counts := counts[n + 1 := counts[n + 1] + 1];
          if n == 0 {
            additionalPMs := additionalPMs + 1;
          }
          machines := machines[q := machines[q].(numAdditionalVMs := n + 1)];
        }
      }
    }

    /**
     * `deAllocate(v)` up to the candidate lists: the PMs after updating `v`'s
     * initial PM and freeing `v`'s demand, and the counters that follow them.
     */
    method Released(s: Engine, v: nat)
      returns (machines: seq<PM>, counts: seq<int>, additionalPMs: int, pmsOn: int, migrations: int)
      requires Wf() && ShapeOK(vms, s) && DeallocWF(vms, ib, s, v)
      ensures machines == PMsAfterDeallocate(vms, ib, s, v)
      ensures counts == CountsAfterDeallocate(vms, ib, s, v)
      ensures additionalPMs == s.numAdditionalPMs
        + (if InitialWasOff(vms, ib, s, v) && s.pms[vms[v].initialID].numAdditionalVMs == 0 then 1 else 0)
        + (if FreedPMOff(vms, ib, s, v) && ib && s.pms[s.allocations[v]].numAdditionalVMs > 0 then 1 else 0)
      ensures pmsOn == if FreedPMOff(vms, ib, s, v) then s.numPMsOn - 1 else s.numPMsOn
      ensures migrations ==
        if vms[v].initialID != -1 && s.allocations[v] != vms[v].initialID then s.numMigrations - 1 else s.numMigrations
    {
      machines, counts, additionalPMs := ReleaseInitial(s, v);
      pmsOn, migrations := s.numPMsOn, s.numMigrations;
      var p := s.allocations[v];
      // freeing resources
      var rf := AddedDemand(machines[p].resourcesFree, vms[v]);
      machines := machines[p := machines[p].(resourcesFree := rf)];
      // turning off a PM
      var isOn := IsOn(machines[p]);
      if !isOn {
        pmsOn := pmsOn - 1;
        if ib {
          var m := machines[p].numAdditionalVMs;
          counts := counts[m := counts[m] + 1];
          if m > 0 {
            additionalPMs := additionalPMs + 1;
          }
        }
      }
      // migrating a VM
      if vms[v].initialID != -1 && p != vms[v].initialID {
        migrations := migrations - 1;
      }
    }

    /**
     * `deAllocate`'s loop over the VMs of the popped undo entry: `std::find`
     * cannot find `p` in their lists, so `p` is appended to each.
     */
    method ReaddCandidates(avail: seq<seq<nat>>, dnf: seq<nat>, p: nat) returns (lists: seq<seq<nat>>)
      requires Increasing(dnf) && (forall j :: 0 <= j < |dnf| ==> dnf[j] < |avail|) && Erased(avail, dnf, p)
      ensures lists == Readded(avail, dnf, p)
    {
      lists := avail;
      var i := 0;
      while i < |dnf|
        invariant i <= |dnf|
        invariant lists == Readded(avail, dnf[..i], p)
      {
        var w := dnf[i];
        ReaddedStep(avail, dnf, p, i);
        var found := Find(lists[w], p);
        if found == |lists[w]| {
          lists := lists[w := lists[w] + [p]];
        } else {
          assert false;
        }
        i := i + 1;
      }
      assert dnf[..i] == dnf;
    }

    /** `deAllocate(v)`: take VM `v` off its PM and undo the top change. */
    method DeAllocate(v: nat)
      requires Wf() && ShapeOK(vms, State()) && DeallocWF(vms, ib, State(), v)
      requires changeStack[|changeStack| - 1].targetPM == allocations[v]
      requires EntryOK(vms, State(), |changeStack| - 1)
      requires Erased(available, changeStack[|changeStack| - 1].doNotFitAnymore, allocations[v])
      modifies this`pms, this`available, this`allocations, this`numPMsOn, this`numMigrations,
        this`numAdditionalPMs, this`additionalVMCounts, this`changeStack
      ensures State() == Deallocated(vms, ib, old(State()), v)
      ensures BestSoFar() == old(BestSoFar()) && vmStack == old(vmStack)
    {
      var s := State();
      var machines, counts, additionalPMs, pmsOn, migrations := Released(s, v);
      var change := s.changeStack[|s.changeStack| - 1];
      var lists := ReaddCandidates(s.available, change.doNotFitAnymore, change.targetPM);
      Commit(Engine(machines, lists, s.cursor, s.allocations - {v}, pmsOn, migrations, additionalPMs, counts,
                    s.changeStack[..|s.changeStack| - 1]));
    }

    /** Store engine state `e`, whose cursors are the current ones, in the fields; nothing else changes. */
    method Commit(e: Engine)
      requires e.cursor == cursor
      modifies this`pms, this`available, this`allocations, this`numPMsOn, this`numMigrations,
        this`numAdditionalPMs, this`additionalVMCounts, this`changeStack
      ensures State() == e
      ensures BestSoFar() == old(BestSoFar()) && vmStack == old(vmStack)
    {
      pms, available, allocations, numPMsOn, numMigrations, numAdditionalPMs, additionalVMCounts, changeStack :=
        e.pms, e.available, e.allocations, e.numPMsOn, e.numMigrations, e.numAdditionalPMs, e.additionalVMCounts,
        e.changeStack;
    }

    /** `PMsAreTheSame`: both PMs empty and of equal capacity in every dimension. */
    method PMsAreTheSame(a: PM, b: PM) returns (same: bool)
      requires dimension <= |a.capacity| && dimension <= |a.resourcesFree|
      requires dimension <= |b.capacity| && dimension <= |b.resourcesFree|
      ensures same == Interchangeable(dimension, a, b)
    {
      var i := 0;
      while i < dimension
        invariant i <= dimension
        invariant forall k :: 0 <= k < i ==>
          a.capacity[k] == b.capacity[k] && a.resourcesFree[k] == a.capacity[k] && b.resourcesFree[k] == a.capacity[k]
      {
        if !(a.capacity[i] == b.capacity[i] && a.resourcesFree[i] == a.capacity[i] && b.resourcesFree[i] == a.capacity[i]) {
          return false;
        }
        i := i + 1;
      }
      return true;
    }

    /**
     * `getNextVM`: with fail-first the first unplaced VM with the fewest
     * candidates (counted from `INT_MAX` down), otherwise the first unplaced
     * VM; `None` stands for the null pointer.
     */
    method GetNextVM() returns (r: Option<nat>)
      requires |available| == |vms|
      ensures params.failFirst ==>
        (r.None? <==> forall w :: 0 <= w < |vms| && w !in allocations ==> |available[w]| >= INT_MAX) &&
        (r.Some? ==> FailFirstChoice(available, allocations, r.value))
      ensures !params.failFirst ==>
        (r.None? <==> forall w :: 0 <= w < |vms| ==> w in allocations) &&
        (r.Some? ==> FirstUnplaced(|vms|, allocations, r.value))
    {
      if params.failFirst {
        var min := INT_MAX;
        r := None;
        var i := 0;
        while i < |vms|
          invariant i <= |vms|
          invariant r.None? ==> min == INT_MAX && forall u :: 0 <= u < i && u !in allocations ==> |available[u]| >= INT_MAX
          invariant r.Some? ==>
            r.value < i && r.value !in allocations && min == |available[r.value]| < INT_MAX &&
            (forall u :: 0 <= u < r.value && u !in allocations ==> |available[u]| > min) &&
            (forall u :: r.value < u < i && u !in allocations ==> |available[u]| >= min)
        {
          if |available[i]| < min && i !in allocations {
            min := |available[i]|;
            r := Some(i);
          }
          i := i + 1;
        }
      } else {
        var i := 0;
        while i < |vms|
          invariant i <= |vms|
          invariant forall u :: 0 <= u < i ==> u in allocations
        {
          if i !in allocations {
            return Some(i);
          }
          i := i + 1;
        }
        r := None;
      }
    }

    /** `initializePMCandidates`: every VM's iterator at the start of its list. */
    method InitializePMCandidates()
      requires |cursor| == |vms|
      modifies this`cursor
      ensures |cursor| == |vms| && forall w :: 0 <= w < |vms| ==> cursor[w] == 0
      ensures State() == old(State()).(cursor := cursor)
      ensures BestSoFar() == old(BestSoFar()) && vmStack == old(vmStack)
    {
      var c := cursor;
      var i := 0;
      while i < |vms|
        invariant i <= |vms| == |c|
        invariant forall w :: 0 <= w < i ==> c[w] == 0
      {
        c := c[i := 0];
        i := i + 1;
      }
      cursor := c;
    }

    /**
     * `resetCandidates(v)`: sort `v`'s list with the configured comparator,
     * move its initial PM to the front when asked to, and restart its
     * iterator.
     */
    method ResetCandidates(v: nat)
      requires v < |available| && v < |cursor| && v < |vms|
      requires Shaped(dimension, pms) && Below(available[v], |pms|)
      modifies this`available, this`cursor
      ensures State() == Reset(params, dimension, vms, old(State()), v)
      ensures BestSoFar() == old(BestSoFar()) && vmStack == old(vmStack)
    {
      var l := SortCandidates(params, dimension, pms, available[v]);
      ghost var sorted := l;
      var q := vms[v].initialID;
      if params.initialPMFirst {
        var i := 0;
        while i < |l|
          invariant l == sorted && i <= |l|
          invariant forall k :: 0 <= k < i ==> l[k] != q
        {
          if l[i] == q {
            IndexOfIsFirst(l, l[i], i);
            var pm := l[i];
            l := EraseAt(l, i);
            l := [pm] + l;
            break;
          }
          i := i + 1;
        }
        assert q >= 0 && q as nat in sorted ==> l == MoveToFront(sorted, q);
      }
      available := available[v := l];
      cursor := cursor[v := 0];
    }

    /**
     * `setNextPMCandidate(v)`: advance `v`'s iterator; with symmetry
     * breaking keep advancing past PMs interchangeable with the previous
     * one, unless the next one is `v`'s initial PM.
     */
    method SetNextPMCandidate(v: nat)
      requires v < |available| && v < |cursor| && v < |vms| && cursor[v] < |available[v]|
      requires Wide(dimension, pms) && Below(available[v], |pms|)
      modifies this`cursor
      ensures cursor == old(cursor)[v := Advance(params.symmetryBreaking, dimension, pms, available[v], old(cursor[v]), vms[v].initialID)]
      ensures State() == old(State()).(cursor := cursor)
      ensures BestSoFar() == old(BestSoFar()) && vmStack == old(vmStack)
    {
      var c := NextCandidate(available[v], cursor[v], vms[v].initialID);
      cursor := cursor[v := c];
    }

    /** The cursor move of `setNextPMCandidate`: the candidate after position `start` of list `l`. */
    method NextCandidate(l: seq<nat>, start: nat, q: int) returns (c: nat)
      requires start < |l| && Wide(dimension, pms) && Below(l, |pms|)
      ensures c == Advance(params.symmetryBreaking, dimension, pms, l, start, q)
    {
      c := start;
      if params.symmetryBreaking {
        while true
          invariant c < |l| && Advance(true, dimension, pms, l, c, q) == Advance(true, dimension, pms, l, start, q)
          decreases |l| - c
        {
          AdvanceStep(dimension, pms, l, c, q);
          var prev := l[c];
          c := c + 1;
          if c == |l| {
            break;
          }
          var curr := l[c];
          var same := PMsAreTheSame(pms[prev], pms[curr]);
          if !(same && curr != q) {
            break;
          }
        }
      } else {
        c := c + 1;
      }
    }

    /** `computeMinimalExtraCost()`: the intelligent bound's extra cost in the current state. */
    method ComputeMinimalExtraCost() returns (extra: int)
      requires 0 <= maxNumVMsOnOnePM < |additionalVMCounts|
      ensures extra == MinimalExtraCost(State(), maxNumVMsOnOnePM, numMaxMigrations)
    {
      var remaining := numMaxMigrations - numMigrations;
      extra := numAdditionalPMs * COEFF_NR_OF_ACTIVE_HOSTS;
      var done := 0;
      var k := 1;
      while k <= maxNumVMsOnOnePM
        invariant 1 <= k
        invariant ExtraCostLoop(additionalVMCounts, maxNumVMsOnOnePM, remaining, k, done, extra) ==
          MinimalExtraCost(State(), maxNumVMsOnOnePM, numMaxMigrations)
        decreases maxNumVMsOnOnePM + 1 - k
      {
        if k >= CDiv(COEFF_NR_OF_ACTIVE_HOSTS, COEFF_NR_OF_MIGRATIONS) {
          break;
        }
        var emptied := Min(additionalVMCounts[k], CDiv(remaining - done, k));
        done := done + emptied * k;
        extra := extra - (emptied * COEFF_NR_OF_ACTIVE_HOSTS - emptied * k * COEFF_NR_OF_MIGRATIONS);
        k := k + 1;
      }
    }

    /** `isAllocationValid()`: no PM has a negative free resource. */
    method IsAllocationValid() returns (valid: bool)
      requires forall p :: 0 <= p < |pms| ==> dimension <= |pms[p].resourcesFree|
      ensures valid <==> forall p, k :: 0 <= p < |pms| && 0 <= k < dimension ==> pms[p].resourcesFree[k] >= 0
    {
      var p := 0;
      while p < |pms|
        invariant p <= |pms|
        invariant forall x, k :: 0 <= x < p && 0 <= k < dimension ==> pms[x].resourcesFree[k] >= 0
      {
        var i := 0;
        while i < dimension
          invariant i <= dimension
          invariant forall k :: 0 <= k < i ==> pms[p].resourcesFree[k] >= 0
        {
          if pms[p].resourcesFree[i] < 0 {
            return false;
          }
          i := i + 1;
        }
        p := p + 1;
      }
      return true;
    }

    // -------------------------------------------------------------------
    // solve

    /** `solve`'s loop head: a search state for the handled VM `v`, with `m_VMStack` mirroring the undo entries. */
    ghost predicate Searching(hist: seq<Engine>, start: Engine, v: nat)
      reads this
    {
      Wf() && BestRecorded() && Machines() && AtLoopHead(vms, ib, hist, start, State(), v) && vmStack == StackOrder(changeStack)
    }

    /** `deAllocate(v)` as `solve` calls it: `v`'s placement is the top undo entry. */
    method UndoLast(v: nat, ghost hist: seq<Engine>, ghost start: Engine)
      requires Wf() && Machines() && SearchState(vms, ib, hist, start, State()) && |hist| > 0
      requires |changeStack| > 0 && changeStack[|changeStack| - 1].vmAllocated == v
      modifies this`pms, this`available, this`allocations, this`numPMsOn, this`numMigrations,
        this`numAdditionalPMs, this`additionalVMCounts, this`changeStack
      ensures Machines() && AtLoopHead(vms, ib, hist[..|hist| - 1], start, State(), v)
      ensures changeStack == old(changeStack)[..|old(changeStack)| - 1]
      ensures BestSoFar() == old(BestSoFar()) && vmStack == old(vmStack)
    {
      UndoKeeps(vms, ib, hist, start, State());
      assert EntryOK(vms, State(), |changeStack| - 1);
      DeallocatedFrame(vms, ib, State(), v, problemPMs);
      DeAllocate(v);
    }

    /** A step back up the search tree: the last placement, of `v`, is undone. */
    method Retreat(v: nat, ghost hist: seq<Engine>, ghost start: Engine) returns (ghost rest: seq<Engine>)
      requires Wf() && BestRecorded() && Machines() && SearchState(vms, ib, hist, start, State()) && |hist| > 0
      requires |changeStack| > 0 && changeStack[|changeStack| - 1].vmAllocated == v
      requires vmStack + [v] == StackOrder(changeStack)
      modifies this`pms, this`available, this`allocations, this`numPMsOn, this`numMigrations,
        this`numAdditionalPMs, this`additionalVMCounts, this`changeStack
      ensures rest == hist[..|hist| - 1] && Searching(rest, start, v)
      ensures BestSoFar() == old(BestSoFar())
    {
      StackOrderPushPop(changeStack, changeStack[|changeStack| - 1]);
      UndoLast(v, hist, start);
      rest := hist[..|hist| - 1];
    }

    /** `getNextPMCandidate(v)`: the PM under `v`'s iterator, which then moves on. */
    method GetNextPMCandidate(v: nat) returns (p: nat)
      requires v < |available| && v < |cursor| && v < |vms| && cursor[v] < |available[v]|
      requires Wide(dimension, pms) && Below(available[v], |pms|)
      modifies this`cursor
      ensures p == available[v][old(cursor[v])] && p < |pms|
      ensures cursor == old(cursor)[v := Advance(params.symmetryBreaking, dimension, pms, available[v], old(cursor[v]), vms[v].initialID)]
      ensures State() == old(State()).(cursor := cursor)
      ensures BestSoFar() == old(BestSoFar()) && vmStack == old(vmStack)
    {
      p := available[v][cursor[v]];
      SetNextPMCandidate(v);
    }

    method PlaceNext(v: nat, ghost hist: seq<Engine>, ghost start: Engine) returns (p: nat, ghost h: Engine)
      requires Wf() && Machines() && AtLoopHead(vms, ib, hist, start, State(), v) && cursor[v] < |available[v]|
      modifies this`cursor, this`pms, this`available, this`allocations, this`numPMsOn, this`numMigrations,
        this`numAdditionalPMs, this`additionalVMCounts, this`changeStack
      ensures Machines() && SearchState(vms, ib, hist + [h], start, State())
      ensures |changeStack| == |old(changeStack)| + 1 && changeStack[..|old(changeStack)|] == old(changeStack)
      ensures changeStack[|old(changeStack)|].vmAllocated == v && allocations == old(allocations)[v := p]
      ensures StackOrder(changeStack) == StackOrder(old(changeStack)) + [v]
      ensures BestSoFar() == old(BestSoFar()) && vmStack == old(vmStack)
    {
      ValidShapes(vms, ib, State(), v);
      ghost var s := State();
      p := GetNextPMCandidate(v);
      CursorMoveKeeps(vms, ib, hist, start, s, v, cursor[v]);
      h := Place(v, p, hist, start);
    }

    /**
     * `allocate(v, p)` as `solve` calls it, followed by the check
     * `isAllocationValid()`, which never fails: the state `h` before the
     * placement joins the history.
     */
    method Place(v: nat, p: nat, ghost hist: seq<Engine>, ghost start: Engine) returns (ghost h: Engine)
      requires Wf() && Machines() && AtLoopHead(vms, ib, hist, start, State(), v) && p in available[v]
      modifies this`pms, this`available, this`allocations, this`numPMsOn, this`numMigrations,
        this`numAdditionalPMs, this`additionalVMCounts, this`changeStack
      ensures Machines() && SearchState(vms, ib, hist + [h], start, State())
      ensures |changeStack| == |old(changeStack)| + 1 && changeStack[..|old(changeStack)|] == old(changeStack)
      ensures changeStack[|old(changeStack)|].vmAllocated == v && allocations == old(allocations)[v := p]
      ensures StackOrder(changeStack) == StackOrder(old(changeStack)) + [v]
      ensures BestSoFar() == old(BestSoFar()) && vmStack == old(vmStack)
    {
      h := State();
      PlaceKeeps(vms, ib, hist, start, h, v, p);
      AllocatedFrame(vms, ib, h, v, p, problemPMs);
      Allocate(v, p);
    }

    /** Store `b` in the best fields; nothing else changes. */
    method StoreBest(b: Best)
      modifies this`bestAllocation, this`bestCostSoFar, this`bestSoFarNumPMsOn, this`bestSoFarNumMigrations
      ensures BestSoFar() == b
      ensures State() == old(State()) && vmStack == old(vmStack)
    {
      bestAllocation, bestCostSoFar, bestSoFarNumPMsOn, bestSoFarNumMigrations :=
        b.allocation, b.cost, b.numPMsOn, b.numMigrations;
    }

    /**
     * `solve`'s update of the best allocation once every VM is placed: the
     * new best is the current allocation, complete, on the problem's PMs and
     * within the migration budget.
     */
    method RecordBest(cost: int)
      requires Wf() && Machines() && BnBState.Valid(vms, ib, State())
      requires |changeStack| == |vms| && numMigrations <= numMaxMigrations
      requires cost == COEFF_NR_OF_ACTIVE_HOSTS * numPMsOn + COEFF_NR_OF_MIGRATIONS * numMigrations
      modifies this`bestAllocation, this`bestCostSoFar, this`bestSoFarNumPMsOn, this`bestSoFarNumMigrations
      ensures BestRecorded()
      ensures BestSoFar() == Best(allocations, cost, numPMsOn, numMigrations)
      ensures State() == old(State()) && vmStack == old(vmStack)
    {
      PlacedCount(vms, ib, State());
      CompleteIsFeasible(vms, ib, State());
      CompleteOnSameMachines(vms, pms, problemPMs, allocations);
      assert 0 in allocations;
      StoreBest(Best(allocations, cost, numPMsOn, numMigrations));
    }

    /**
     * `isAllocationValid()` right after `allocate` in `solve`: it always
     * holds, since no placement ever overcommits a PM.
     */
    method CheckAllocation() returns (valid: bool)
      requires Wf() && BnBState.Valid(vms, ib, State())
      ensures valid
    {
      valid := IsAllocationValid();
    }

    /** `saveVM(v)`: push `v` onto `m_VMStack`; nothing else changes. */
    method SaveVM(v: nat)
      modifies this`vmStack
      ensures vmStack == old(vmStack) + [v]
      ensures State() == old(State()) && BestSoFar() == old(BestSoFar())
    {
      vmStack := vmStack + [v];
    }

    /** `getNextVM()` while some VM is unplaced: it never answers -1 then, and changes nothing. */
    method ChooseNextVM() returns (next: nat)
      requires |available| == |vms|
      requires forall w :: 0 <= w < |vms| ==> |available[w]| < INT_MAX
      requires exists w :: 0 <= w < |vms| && w !in allocations
      ensures next < |vms| && next !in allocations
      ensures params.failFirst ==> FailFirstChoice(available, allocations, next)
      ensures !params.failFirst ==> FirstUnplaced(|vms|, allocations, next)
      ensures State() == old(State()) && BestSoFar() == old(BestSoFar()) && vmStack == old(vmStack)
    {
      var r := GetNextVM();
      next := r.value;
    }

    /** `saveVM(v)`, `getNextVM()` and `resetCandidates`: one level down the search tree. */
    method MoveDown(v: nat, ghost hist: seq<Engine>, ghost start: Engine) returns (next: nat)
      requires Wf() && BestRecorded() && Machines() && SearchState(vms, ib, hist, start, State())
      requires |changeStack| < |vms| && vmStack + [v] == StackOrder(changeStack)
      modifies this`vmStack, this`available, this`cursor
      ensures Searching(hist, start, next)
      ensures BestSoFar() == old(BestSoFar())
    {
      SaveVM(v);
      ghost var s := State();
      ListsShort(vms, ib, s);
      PlacedCount(vms, ib, s);
      next := ChooseNextVM();
      ValidShapes(vms, ib, s, next);
      ResetKeeps(vms, ib, hist, start, s, params, next);
      ResetCandidates(next);
    }

    /** The start of `solve`: the first VM to handle, with every iterator at the start of its list. */
    method Begin() returns (v: nat)
      requires Valid() && allocations == map[] && changeStack == [] && vmStack == []
      modifies this`cursor
      ensures Searching([], State(), v) && Similar(old(State()), State())
      ensures BestSoFar() == old(BestSoFar())
    {
      ghost var s := State();
      ListsShort(vms, ib, s);
      PlacedCount(vms, ib, s);
      v := ChooseNextVM();
      InitializePMCandidates();
      SimilarPreservesValid(vms, ib, s, State());
      SimilarIsEquivalence(State(), State(), State());
    }

    /** `backtrackToPreviousVM()`: pop the last VM off `m_VMStack`; nothing else changes. */
    method PopVM() returns (v: nat)
      requires |vmStack| > 0
      modifies this`vmStack
      ensures old(vmStack) == vmStack + [v]
      ensures State() == old(State()) && BestSoFar() == old(BestSoFar())
    {
      v := vmStack[|vmStack| - 1];
      vmStack := vmStack[..|vmStack| - 1];
    }

    /** An exhausted branch: `backtrackToPreviousVM()` and `deAllocate` of the VM popped. */
    method Backtrack(ghost hist: seq<Engine>, ghost start: Engine) returns (v: nat, ghost rest: seq<Engine>)
      requires Wf() && BestRecorded() && Machines() && SearchState(vms, ib, hist, start, State())
      requires vmStack == StackOrder(changeStack) && |vmStack| > 0
      modifies this`vmStack, this`pms, this`available, this`allocations, this`numPMsOn, this`numMigrations,
        this`numAdditionalPMs, this`additionalVMCounts, this`changeStack
      ensures Searching(rest, start, v)
      ensures BestSoFar() == old(BestSoFar())
    {
      v := PopVM();
      StackOrderAt(changeStack, |changeStack| - 1);
      rest := Retreat(v, hist, start);
    }

    /** `cost`, plus the intelligent bound's extra cost when it is on. */
    method LowerBound(cost: int) returns (minimal: int)
      requires Wf() && BnBState.Valid(vms, ib, State()) && numMigrations <= numMaxMigrations
      ensures minimal == cost + (if ib then MinimalExtraCost(State(), maxNumVMsOnOnePM, numMaxMigrations) else 0)
      ensures cost <= minimal
    {
      minimal := cost;
      if ib {
        var extra := ComputeMinimalExtraCost();
        MinimalExtraCostRange(vms, State(), maxNumVMsOnOnePM, numMaxMigrations);
        minimal := minimal + extra;
      }
    }

    /**
     * `solve`'s handling of the placement of `v` just made: undo it when it
     * breaks the migration budget or cannot beat the best, record it when it
     * completes the allocation, go one level down otherwise.
     */
    method Evaluate(v: nat, ghost hist: seq<Engine>, ghost start: Engine) returns (next: nat, ghost rest: seq<Engine>)
      requires Wf() && BestRecorded() && Machines() && SearchState(vms, ib, hist, start, State()) && |hist| > 0
      requires |changeStack| > 0 && changeStack[|changeStack| - 1].vmAllocated == v
      requires vmStack + [v] == StackOrder(changeStack)
      modifies this`pms, this`available, this`cursor, this`allocations, this`numPMsOn, this`numMigrations,
        this`numAdditionalPMs, this`additionalVMCounts, this`changeStack, this`vmStack,
        this`bestAllocation, this`bestCostSoFar, this`bestSoFarNumPMsOn, this`bestSoFarNumMigrations
      ensures Searching(rest, start, next)
      ensures BestSoFar() == old(BestSoFar()) ||
        BestSoFar().cost as real < ScaledBest(old(BestSoFar().cost), params.boundThreshold)
      ensures params.boundThreshold <= 1.0 ==> BestSoFar().cost <= old(BestSoFar().cost)
    {
      PlacedCount(vms, ib, State());
      if numMigrations > numMaxMigrations {
        rest := Retreat(v, hist, start);
        return v, rest;
      }
      var cost := COEFF_NR_OF_ACTIVE_HOSTS * numPMsOn + COEFF_NR_OF_MIGRATIONS * numMigrations;
      var minimalTotalCost := LowerBound(cost);
      var prune := CannotBeatBest(minimalTotalCost);
      if prune {
        rest := Retreat(v, hist, start);
        return v, rest;
      }
      assert cost as real < ScaledBest(bestCostSoFar, params.boundThreshold);
      next, rest := Extend(v, hist, start, cost);
    }

    /**
     * The bounding test of `solve`: a lower bound `minimal` of at least the
     * best cost scaled by the threshold prunes the branch. With a threshold
     * of at most 1, a branch that survives is strictly cheaper than the best.
     */
    method CannotBeatBest(minimal: int) returns (prune: bool)
      requires BestRecorded()
      ensures prune <==> minimal as real >= bestCostSoFar as real * params.boundThreshold
      ensures !prune && params.boundThreshold <= 1.0 ==> minimal < bestCostSoFar
      ensures !prune ==> minimal as real < ScaledBest(bestCostSoFar, params.boundThreshold)
    {
      prune := minimal as real >= bestCostSoFar as real * params.boundThreshold;
      if !prune && params.boundThreshold <= 1.0 {
        BelowScaled(minimal as real, bestCostSoFar as real, params.boundThreshold);
      }
    }

    /**
     * A placement of `v` within the budget that may beat the best, of cost
     * `cost`: record it when every VM is placed and undo it, or go one level
     * down.
     */
    method Extend(v: nat, ghost hist: seq<Engine>, ghost start: Engine, cost: int) returns (next: nat, ghost rest: seq<Engine>)
      requires Wf() && BestRecorded() && Machines() && SearchState(vms, ib, hist, start, State()) && |hist| > 0
      requires |changeStack| > 0 && changeStack[|changeStack| - 1].vmAllocated == v
      requires vmStack + [v] == StackOrder(changeStack) && |changeStack| <= |vms|
      requires numMigrations <= numMaxMigrations
      requires cost == COEFF_NR_OF_ACTIVE_HOSTS * numPMsOn + COEFF_NR_OF_MIGRATIONS * numMigrations
      modifies this`pms, this`available, this`cursor, this`allocations, this`numPMsOn, this`numMigrations,
        this`numAdditionalPMs, this`additionalVMCounts, this`changeStack, this`vmStack,
        this`bestAllocation, this`bestCostSoFar, this`bestSoFarNumPMsOn, this`bestSoFarNumMigrations
      ensures Searching(rest, start, next)
      ensures BestSoFar() == old(BestSoFar()) || BestSoFar().cost == cost
    {
      if |vmStack| == |vms| - 1 {
        rest := RecordAndRetreat(v, hist, start, cost);
        next := v;
      } else {
        next := MoveDown(v, hist, start);
        rest := hist;
      }
    }

    /** Every VM is placed: the allocation is recorded as the best so far and `v` is taken back. */
    method RecordAndRetreat(v: nat, ghost hist: seq<Engine>, ghost start: Engine, cost: int) returns (ghost rest: seq<Engine>)
      requires Wf() && BestRecorded() && Machines() && SearchState(vms, ib, hist, start, State()) && |hist| > 0
      requires |changeStack| > 0 && changeStack[|changeStack| - 1].vmAllocated == v
      requires vmStack + [v] == StackOrder(changeStack) && |vmStack| == |vms| - 1
      requires numMigrations <= numMaxMigrations
      requires cost == COEFF_NR_OF_ACTIVE_HOSTS * numPMsOn + COEFF_NR_OF_MIGRATIONS * numMigrations
      modifies this`pms, this`available, this`allocations, this`numPMsOn, this`numMigrations,
        this`numAdditionalPMs, this`additionalVMCounts, this`changeStack,
        this`bestAllocation, this`bestCostSoFar, this`bestSoFarNumPMsOn, this`bestSoFarNumMigrations
      ensures Searching(rest, start, v)
      ensures BestSoFar().cost == cost
    {
      ghost var s := State();
      assert |changeStack| == |vms|;
      RecordBest(cost);
      assert State() == s && SearchState(vms, ib, hist, start, s);
      rest := Retreat(v, hist, start);
    }

    /** One placement: the next candidate PM of `v` is taken and the outcome handled. */
    method Try(v: nat, ghost hist: seq<Engine>, ghost start: Engine) returns (next: nat, ghost rest: seq<Engine>)
      requires Searching(hist, start, v) && cursor[v] < |available[v]|
      modifies this`pms, this`available, this`cursor, this`allocations, this`numPMsOn, this`numMigrations,
        this`numAdditionalPMs, this`additionalVMCounts, this`changeStack, this`vmStack,
        this`bestAllocation, this`bestCostSoFar, this`bestSoFarNumPMsOn, this`bestSoFarNumMigrations
      ensures Searching(rest, start, next)
      ensures BestSoFar() == old(BestSoFar()) ||
        BestSoFar().cost as real < ScaledBest(old(BestSoFar().cost), params.boundThreshold)
      ensures params.boundThreshold <= 1.0 ==> BestSoFar().cost <= old(BestSoFar().cost)
    {
      var p, h := PlaceNext(v, hist, start);
      var valid := CheckAllocation();
      next, rest := Evaluate(v, hist + [h], start);
    }

    /**
     * `solve()`: the depth-first search, with the timer replaced by a budget
     * of `steps` loop iterations. Every state it passes through is valid, the
     * best allocation is always a complete feasible one within the migration
     * budget, with a threshold of at most 1 the best cost never grows, and a
     * search that runs to the end has undone every placement.
     */
    method Solve(steps: nat) returns (timedOut: bool)
      requires Valid() && allocations == map[] && changeStack == [] && vmStack == []
      modifies this`pms, this`available, this`cursor, this`allocations, this`numPMsOn, this`numMigrations,
        this`numAdditionalPMs, this`additionalVMCounts, this`changeStack, this`vmStack,
        this`bestAllocation, this`bestCostSoFar, this`bestSoFarNumPMsOn, this`bestSoFarNumMigrations
      ensures Valid()
      ensures params.boundThreshold <= 1.0 ==> bestCostSoFar <= old(bestCostSoFar)
      ensures !timedOut ==> allocations == map[] && changeStack == [] && vmStack == [] && Similar(old(State()), State())
    {
      ghost var initial := State();
      ghost var initialBest := bestCostSoFar;
      var v := Begin();
      ghost var start := State();
      ghost var hist: seq<Engine> := [];
      var iterations := 0;
      timedOut := false;
      while true
        invariant iterations <= steps && !timedOut
        invariant Searching(hist, start, v) && Similar(initial, start)
        invariant params.boundThreshold <= 1.0 ==> BestSoFar().cost <= initialBest
        decreases steps - iterations
      {
        if iterations == steps {
          timedOut := true;
          break;
        }
        iterations := iterations + 1;
        if cursor[v] == |available[v]| {
          // the branch is exhausted
          if |vmStack| == 0 {
            break;
          }
          v, hist := Backtrack(hist, start);
        } else {
          v, hist := Try(v, hist, start);
        }
      }
      if !timedOut {
        SearchEnd(vms, ib, hist, start, State(), vmStack, initial);
      }
    }

    // -------------------------------------------------------------------
    // Results

    /**
     * `getBestCost()`: -1 when no allocation was found, otherwise the cost
     * of the best one, which is complete, feasible on the problem's PMs and
     * within the migration budget, and weighs active hosts and migrations.
     */
    method GetBestCost() returns (r: int)
      requires Valid()
      ensures r == -1 <==> bestAllocation == map[]
      ensures r != -1 ==>
        Complete(vms, problemPMs, bestAllocation) &&
        MigCount(vms, bestAllocation, |vms|) <= numMaxMigrations &&
        r == COEFF_NR_OF_ACTIVE_HOSTS * |bestAllocation.Values| + COEFF_NR_OF_MIGRATIONS * MigCount(vms, bestAllocation, |vms|)
    {
      if bestAllocation == map[] {
        r := -1;
      } else {
        r := bestCostSoFar;
      }
    }

    /** `getBestAllocation()`: empty, or a complete feasible allocation (VM index to PM index). */
    method GetBestAllocation() returns (r: map<nat, nat>)
      requires Valid()
      ensures r == bestAllocation
      ensures r == map[] || Complete(vms, problemPMs, r)
    {
      r := bestAllocation;
    }

    /** `getActiveHosts()`: the PMs the best allocation uses, `INT_MAX` while there is none. */
    method GetActiveHosts() returns (r: int)
      requires Valid()
      ensures bestAllocation == map[] ==> r == INT_MAX
      ensures bestAllocation != map[] ==> r == |bestAllocation.Values|
    {
      r := bestSoFarNumPMsOn;
    }

    /** `getMigrations()`: the VMs the best allocation moves, `INT_MAX` while there is none. */
    method GetMigrations() returns (r: int)
      requires Valid()
      ensures bestAllocation == map[] ==> r == INT_MAX
      ensures bestAllocation != map[] ==> r == MigCount(vms, bestAllocation, |vms|) <= numMaxMigrations
    {
      r := bestSoFarNumMigrations;
    }

    /**
     * `getLowerBound()`: the intelligent bound's extra cost in the current
     * state; while the migrations are within the budget it lies between 0
     * and the cost of the PMs still to be emptied.
     */
    method GetLowerBound() returns (r: int)
      requires Valid() && ib
      ensures r == MinimalExtraCost(State(), maxNumVMsOnOnePM, numMaxMigrations)
      ensures numMigrations <= numMaxMigrations ==> 0 <= r <= COEFF_NR_OF_ACTIVE_HOSTS * numAdditionalPMs
    {
      r := ComputeMinimalExtraCost();
      if numMigrations <= numMaxMigrations {
        MinimalExtraCostRange(vms, State(), maxNumVMsOnOnePM, numMaxMigrations);
      }
    }
  }
}
