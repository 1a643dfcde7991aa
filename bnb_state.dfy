/**
 * The state of the branch-and-bound engine (BnBAllocator.h, Change.h) and
 * the invariant its bookkeeping keeps.
 *
 * Machines are addressed by index: VM `w` is `vms[w]` (in the order left by
 * the preprocessing sort), PM `p` is `pms[p]`. The C++ `VM` carries its
 * candidate list `availablePMs` and the iterator `PMIterator` into it; here
 * they are `available[w]` and the integer cursor `cursor[w]`. The allocation
 * map `m_allocations` maps VM indices to PM indices.
 */
module BnBState {
  import opened Machines

  /** One entry of the undo stack `m_changeStack`. */
  datatype Change = Change(vmAllocated: nat, targetPM: nat, doNotFitAnymore: seq<nat>)

  /** The mutable part of a `BnBAllocator`. */
  datatype Engine = Engine(
    pms: seq<PM>,
    available: seq<seq<nat>>,
    cursor: seq<nat>,
    allocations: map<nat, nat>,
    numPMsOn: int,
    numMigrations: int,
    numAdditionalPMs: int,
    additionalVMCounts: seq<int>,
    changeStack: seq<Change>
  )

  // ---------------------------------------------------------------------
  // Sequence helpers

  /** `std::find`: the first position of `x`, or `|l|` when absent. */
  function IndexOf(l: seq<nat>, x: nat): (i: nat)
    ensures i <= |l|
    ensures i < |l| <==> x in l
    ensures i < |l| ==> l[i] == x
    ensures forall j :: 0 <= j < i ==> l[j] != x
  {
    if |l| == 0 then 0
    else if l[0] == x then 0
    else 1 + IndexOf(l[1..], x)
  }

  /** `erase` at position `i`. */
  function EraseAt(l: seq<nat>, i: nat): (r: seq<nat>)
    requires i < |l|
    ensures |r| == |l| - 1
    ensures multiset(r) == multiset(l) - multiset{l[i]}
  {
    assert l == l[..i] + [l[i]] + l[i + 1..];
    l[..i] + l[i + 1..]
  }

  /** No PM occurs twice in a candidate list. */
  ghost predicate NoDup(l: seq<nat>)
  {
    forall x :: multiset(l)[x] <= 1
  }

  // ---------------------------------------------------------------------
  // Counting over machine indices

  function DemandAt(vm: VM, k: nat): int
  {
    if k < |vm.demand| then vm.demand[k] else 0
  }

  /** Demand in dimension `k` of the VMs among the first `n` that are placed on `p`. */
  function Load(vms: seq<VM>, alloc: map<nat, nat>, p: nat, k: nat, n: nat): int
    requires n <= |vms|
  {
    if n == 0 then 0
    else Load(vms, alloc, p, k, n - 1) + (if n - 1 in alloc && alloc[n - 1] == p then DemandAt(vms[n - 1], k) else 0)
  }

  /** A VM counts as migrated when it has an initial PM and is placed elsewhere. */
  predicate Migrated(vms: seq<VM>, alloc: map<nat, nat>, w: nat)
    requires w < |vms|
  {
    w in alloc && vms[w].initialID != -1 && alloc[w] != vms[w].initialID
  }

  /** Placed VMs among the first `n` that are migrated. */
  function MigCount(vms: seq<VM>, alloc: map<nat, nat>, n: nat): nat
    requires n <= |vms|
  {
    if n == 0 then 0
    else MigCount(vms, alloc, n - 1) + (if Migrated(vms, alloc, n - 1) then 1 else 0)
  }

  /** VMs among the first `n` not placed yet whose initial PM is `p`. */
  function WaitCount(vms: seq<VM>, alloc: map<nat, nat>, p: nat, n: nat): nat
    requires n <= |vms|
  {
    if n == 0 then 0
    else WaitCount(vms, alloc, p, n - 1) + (if n - 1 !in alloc && vms[n - 1].initialID == p then 1 else 0)
  }

  predicate Off(pm: PM)
  {
    WellShaped(pm) && !On(pm)
  }

  /** PMs among the first `n` that are off and have `numAdditionalVMs == c`. */
  function OffCount(pms: seq<PM>, c: int, n: nat): nat
    requires n <= |pms|
  {
    if n == 0 then 0
    else OffCount(pms, c, n - 1) + (if Off(pms[n - 1]) && pms[n - 1].numAdditionalVMs == c then 1 else 0)
  }

  /** PMs among the first `n` that are off and still have VMs to take back. */
  function OffPositiveCount(pms: seq<PM>, n: nat): nat
    requires n <= |pms|
  {
    if n == 0 then 0
    else OffPositiveCount(pms, n - 1) + (if Off(pms[n - 1]) && pms[n - 1].numAdditionalVMs > 0 then 1 else 0)
  }

  // ---------------------------------------------------------------------
  // The invariant

  /** Vector lengths and index ranges. */
  ghost predicate ShapeOK(vms: seq<VM>, s: Engine)
  {
    |vms| > 0 &&
    (forall w :: 0 <= w < |vms| ==> |vms[w].demand| == |vms[0].demand|) &&
    (forall w :: 0 <= w < |vms| ==> -1 <= vms[w].initialID < |s.pms|) &&
    (forall p :: 0 <= p < |s.pms| ==>
      |s.pms[p].capacity| == |vms[0].demand| && |s.pms[p].resourcesFree| == |vms[0].demand|) &&
    |s.available| == |vms| && |s.cursor| == |vms| &&
    |s.additionalVMCounts| == |vms| + 1
  }

  /** Demands are non-negative and every VM needs some resource. */
  ghost predicate DemandsOK(vms: seq<VM>)
  {
    (forall w, k :: 0 <= w < |vms| && 0 <= k < |vms[w].demand| ==> vms[w].demand[k] >= 0) &&
    (forall w :: 0 <= w < |vms| ==> NeedsSome(vms[w].demand))
  }

  /** Some resource is demanded in a positive amount. */
  predicate NeedsSome(demand: seq<int>)
  {
    exists k :: 0 <= k < |demand| && demand[k] > 0
  }

  /** Free resources are capacity minus what is placed, and never negative. */
  ghost predicate LoadOK(vms: seq<VM>, s: Engine)
    requires ShapeOK(vms, s)
  {
    (forall w :: w in s.allocations ==> w < |vms| && s.allocations[w] < |s.pms|) &&
    (forall p, k :: 0 <= p < |s.pms| && 0 <= k < |vms[0].demand| ==>
      s.pms[p].resourcesFree[k] == s.pms[p].capacity[k] - Load(vms, s.allocations, p, k, |vms|)) &&
    (forall p, k :: 0 <= p < |s.pms| && 0 <= k < |vms[0].demand| ==> s.pms[p].resourcesFree[k] >= 0)
  }

  /** `m_numPMsOn` and `m_numMigrations` count what they say. */
  ghost predicate CountersOK(vms: seq<VM>, s: Engine)
  {
    s.numPMsOn == |s.allocations.Values| &&
    s.numMigrations == MigCount(vms, s.allocations, |vms|)
  }

  /**
   * Candidate lists hold PM indices without repetition, and the list of a VM
   * not yet placed holds only PMs it fits on.
   */
  ghost predicate ListsOK(vms: seq<VM>, s: Engine)
    requires ShapeOK(vms, s)
  {
    forall w :: 0 <= w < |vms| ==> ListOK(vms, s, w)
  }

  ghost predicate ListOK(vms: seq<VM>, s: Engine, w: nat)
    requires w < |vms| == |s.available|
  {
    (forall i :: 0 <= i < |s.available[w]| ==> s.available[w][i] < |s.pms|) &&
    NoDup(s.available[w]) &&
    (w !in s.allocations ==> forall x :: x in s.available[w] ==> x < |s.pms| && Fits(vms[w], s.pms[x]))
  }

  predicate Increasing(l: seq<nat>)
  {
    forall i, j :: 0 <= i < j < |l| ==> l[i] < l[j]
  }

  /** The VMs the undo entries name. */
  function StackVMs(cs: seq<Change>): set<nat>
  {
    if |cs| == 0 then {} else StackVMs(cs[..|cs| - 1]) + {cs[|cs| - 1].vmAllocated}
  }

  lemma {:induction false} StackVMsMembers(cs: seq<Change>, w: nat)
    ensures w in StackVMs(cs) <==> exists i :: 0 <= i < |cs| && cs[i].vmAllocated == w
  {
    if |cs| > 0 {
      var init := cs[..|cs| - 1];
      StackVMsMembers(init, w);
      if w in StackVMs(init) {
        var i :| 0 <= i < |init| && init[i].vmAllocated == w;
        assert cs[i] == init[i];
      }
      if exists i :: 0 <= i < |cs| && cs[i].vmAllocated == w {
        var i :| 0 <= i < |cs| && cs[i].vmAllocated == w;
        if i < |init| {
          assert init[i] == cs[i];
        }
      }
    }
  }

  /** No VM is named by two undo entries. */
  ghost predicate DistinctVMs(cs: seq<Change>)
  {
    forall i, j :: 0 <= i < j < |cs| ==> cs[i].vmAllocated != cs[j].vmAllocated
  }

  /**
   * The placed VMs are exactly those on the undo stack, each once, on the
   * PM its entry names; each entry's list of VMs that stopped fitting is
   * increasing.
   */
  ghost predicate StackOK(vms: seq<VM>, s: Engine)
  {
    s.allocations.Keys == StackVMs(s.changeStack) &&
    DistinctVMs(s.changeStack) &&
    forall i :: 0 <= i < |s.changeStack| ==> EntryOK(vms, s, i)
  }

  ghost predicate EntryOK(vms: seq<VM>, s: Engine, i: nat)
    requires i < |s.changeStack|
  {
    var c := s.changeStack[i];
    c.vmAllocated in s.allocations && s.allocations[c.vmAllocated] == c.targetPM &&
    Increasing(c.doNotFitAnymore) &&
    forall j :: 0 <= j < |c.doNotFitAnymore| ==> c.doNotFitAnymore[j] < |vms|
  }

  /**
   * The intelligent-bound bookkeeping: an off PM's `numAdditionalVMs` counts
   * the unplaced VMs whose initial PM it is, `m_additionalVMCounts[c]` counts
   * the off PMs with that number, and `m_numAdditionalPMs` the off PMs with a
   * positive one.
   */
  ghost predicate BoundOK(vms: seq<VM>, ib: bool, s: Engine)
    requires ShapeOK(vms, s)
  {
    ib ==>
      (forall w :: 0 <= w < |vms| ==> vms[w].initialID >= 0) &&
      (forall p :: 0 <= p < |s.pms| ==> WaitingOK(vms, s, p)) &&
      (forall c :: 0 <= c <= |vms| ==> TierOK(s, c)) &&
      s.numAdditionalPMs == OffPositiveCount(s.pms, |s.pms|)
  }

  /** The counter of PM `p` is in range, and exact while `p` is off. */
  ghost predicate WaitingOK(vms: seq<VM>, s: Engine, p: nat)
    requires p < |s.pms| && WellShaped(s.pms[p])
  {
    0 <= s.pms[p].numAdditionalVMs <= |vms| &&
    (!On(s.pms[p]) ==> s.pms[p].numAdditionalVMs == WaitCount(vms, s.allocations, p, |vms|))
  }

  /** `m_additionalVMCounts[c]` is the number of off PMs whose counter is `c`. */
  ghost predicate TierOK(s: Engine, c: nat)
    requires c < |s.additionalVMCounts|
  {
    s.additionalVMCounts[c] == OffCount(s.pms, c, |s.pms|)
  }

  ghost predicate Valid(vms: seq<VM>, ib: bool, s: Engine)
  {
    ShapeOK(vms, s) && DemandsOK(vms) && LoadOK(vms, s) && CountersOK(vms, s) &&
    ListsOK(vms, s) && StackOK(vms, s) && BoundOK(vms, ib, s)
  }

  // ---------------------------------------------------------------------
  // States that differ only in the order of candidate lists of unplaced VMs

  /**
   * Equal except that the candidate lists of VMs not placed yet may be
   * permuted and their cursors moved. A placed VM's list and cursor are
   * never touched until it is taken off again.
   */
  ghost predicate Similar(s: Engine, t: Engine)
  {
    s.pms == t.pms && s.allocations == t.allocations &&
    s.numPMsOn == t.numPMsOn && s.numMigrations == t.numMigrations &&
    s.numAdditionalPMs == t.numAdditionalPMs && s.additionalVMCounts == t.additionalVMCounts &&
    s.changeStack == t.changeStack &&
    |s.available| == |t.available| && |s.cursor| == |t.cursor| &&
    (forall w :: 0 <= w < |s.available| ==> multiset(s.available[w]) == multiset(t.available[w])) &&
    (forall w :: 0 <= w < |s.available| && w in s.allocations ==> s.available[w] == t.available[w]) &&
    (forall w :: 0 <= w < |s.cursor| && w in s.allocations ==> s.cursor[w] == t.cursor[w])
  }

  lemma SimilarIsEquivalence(s: Engine, t: Engine, u: Engine)
    ensures Similar(s, s)
    ensures Similar(s, t) ==> Similar(t, s)
    ensures Similar(s, t) && Similar(t, u) ==> Similar(s, u)
  {
  }

  /** The invariant does not look at list order or at the cursors. */
  lemma SimilarPreservesValid(vms: seq<VM>, ib: bool, s: Engine, t: Engine)
    requires Valid(vms, ib, s) && Similar(s, t)
    ensures Valid(vms, ib, t)
  {
    forall i | 0 <= i < |t.changeStack|
      ensures EntryOK(vms, t, i)
    {
      assert EntryOK(vms, s, i);
    }
    forall w | 0 <= w < |vms|
      ensures ListOK(vms, t, w)
    {
      assert ListOK(vms, s, w);
      assert multiset(t.available[w]) == multiset(s.available[w]);
      forall i | 0 <= i < |t.available[w]|
        ensures t.available[w][i] < |t.pms|
      {
        assert t.available[w][i] in multiset(t.available[w]);
      }
      forall x | x in t.available[w]
        ensures x in s.available[w]
      {
        assert x in multiset(t.available[w]);
      }
    }
    assert BoundOK(vms, ib, t) by {
      if ib {
        forall q | 0 <= q < |t.pms|
          ensures WaitingOK(vms, t, q)
        {
          assert WaitingOK(vms, s, q);
        }
        forall c | 0 <= c <= |vms|
          ensures TierOK(t, c)
        {
          assert TierOK(s, c);
        }
      }
    }
  }

  // ---------------------------------------------------------------------
  // How the counts change when one VM is placed or one PM is updated

  lemma {:induction false} LoadPlace(vms: seq<VM>, alloc: map<nat, nat>, v: nat, p: nat, q: nat, k: nat, n: nat)
    requires n <= |vms| && v !in alloc
    ensures Load(vms, alloc[v := p], q, k, n) ==
      Load(vms, alloc, q, k, n) + (if v < n && q == p then DemandAt(vms[v], k) else 0)
  {
    if n > 0 {
      LoadPlace(vms, alloc, v, p, q, k, n - 1);
    }
  }

  lemma {:induction false} LoadOfUnused(vms: seq<VM>, alloc: map<nat, nat>, p: nat, k: nat, n: nat)
    requires n <= |vms| && p !in alloc.Values
    ensures Load(vms, alloc, p, k, n) == 0
  {
    if n > 0 {
      LoadOfUnused(vms, alloc, p, k, n - 1);
      assert n - 1 in alloc ==> alloc[n - 1] in alloc.Values;
    }
  }

  /** With non-negative demands the load is at least the demand of any one VM placed there. */
  lemma {:induction false} LoadAtLeast(vms: seq<VM>, alloc: map<nat, nat>, p: nat, k: nat, n: nat, w: nat)
    requires n <= |vms| && DemandsOK(vms)
    requires w < n && w in alloc && alloc[w] == p
    ensures Load(vms, alloc, p, k, n) >= DemandAt(vms[w], k)
    ensures Load(vms, alloc, p, k, n) >= 0
  {
    LoadNonNegative(vms, alloc, p, k, n - 1);
    if w < n - 1 {
      LoadAtLeast(vms, alloc, p, k, n - 1, w);
    }
  }

  lemma {:induction false} LoadNonNegative(vms: seq<VM>, alloc: map<nat, nat>, p: nat, k: nat, n: nat)
    requires n <= |vms| && DemandsOK(vms)
    ensures Load(vms, alloc, p, k, n) >= 0
  {
    if n > 0 {
      LoadNonNegative(vms, alloc, p, k, n - 1);
    }
  }

  lemma {:induction false} MigPlace(vms: seq<VM>, alloc: map<nat, nat>, v: nat, p: nat, n: nat)
    requires n <= |vms| && v < |vms| && v !in alloc
    ensures MigCount(vms, alloc[v := p], n) ==
      MigCount(vms, alloc, n) + (if v < n && vms[v].initialID != -1 && p != vms[v].initialID then 1 else 0)
  {
    if n > 0 {
      MigPlace(vms, alloc, v, p, n - 1);
    }
  }

  lemma {:induction false} WaitPlace(vms: seq<VM>, alloc: map<nat, nat>, v: nat, p: nat, q: nat, n: nat)
    requires n <= |vms| && v < |vms| && v !in alloc
    ensures WaitCount(vms, alloc[v := p], q, n) ==
      WaitCount(vms, alloc, q, n) - (if v < n && vms[v].initialID == q then 1 else 0)
  {
    if n > 0 {
      WaitPlace(vms, alloc, v, p, q, n - 1);
    }
  }

  lemma {:induction false} WaitBounds(vms: seq<VM>, alloc: map<nat, nat>, q: nat, n: nat, v: nat)
    requires n <= |vms| && v < n
    ensures WaitCount(vms, alloc, q, n) <= n
    ensures v in alloc ==> WaitCount(vms, alloc, q, n) <= n - 1
    ensures v !in alloc && vms[v].initialID == q ==> WaitCount(vms, alloc, q, n) >= 1
  {
    if v < n - 1 {
      WaitBounds(vms, alloc, q, n - 1, v);
    } else {
      WaitAtMost(vms, alloc, q, n - 1);
    }
  }

  lemma {:induction false} WaitAtMost(vms: seq<VM>, alloc: map<nat, nat>, q: nat, n: nat)
    requires n <= |vms|
    ensures WaitCount(vms, alloc, q, n) <= n
  {
    if n > 0 {
      WaitAtMost(vms, alloc, q, n - 1);
    }
  }

  /** Changing the PMs at positions `i` and `j` (possibly equal) changes the count only there. */
  lemma {:induction false} OffCountTwo(a: seq<PM>, b: seq<PM>, i: nat, j: nat, c: int, n: nat)
    requires n <= |a| == |b| && i < |a| && j < |a|
    requires forall k :: 0 <= k < |a| && k != i && k != j ==> a[k] == b[k]
    ensures OffCount(b, c, n) ==
      OffCount(a, c, n)
      - (if i < n && Off(a[i]) && a[i].numAdditionalVMs == c then 1 else 0)
      + (if i < n && Off(b[i]) && b[i].numAdditionalVMs == c then 1 else 0)
      - (if j < n && j != i && Off(a[j]) && a[j].numAdditionalVMs == c then 1 else 0)
      + (if j < n && j != i && Off(b[j]) && b[j].numAdditionalVMs == c then 1 else 0)
  {
    if n > 0 {
      OffCountTwo(a, b, i, j, c, n - 1);
    }
  }

  lemma {:induction false} OffPositiveTwo(a: seq<PM>, b: seq<PM>, i: nat, j: nat, n: nat)
    requires n <= |a| == |b| && i < |a| && j < |a|
    requires forall k :: 0 <= k < |a| && k != i && k != j ==> a[k] == b[k]
    ensures OffPositiveCount(b, n) ==
      OffPositiveCount(a, n)
      - (if i < n && Off(a[i]) && a[i].numAdditionalVMs > 0 then 1 else 0)
      + (if i < n && Off(b[i]) && b[i].numAdditionalVMs > 0 then 1 else 0)
      - (if j < n && j != i && Off(a[j]) && a[j].numAdditionalVMs > 0 then 1 else 0)
      + (if j < n && j != i && Off(b[j]) && b[j].numAdditionalVMs > 0 then 1 else 0)
  {
    if n > 0 {
      OffPositiveTwo(a, b, i, j, n - 1);
    }
  }

  /**
   * The sum of `OffCount` over the tiers `lo..hi-1` counts the off PMs whose
   * number lies in that range.
   */
  function OffRangeCount(pms: seq<PM>, lo: int, hi: int, n: nat): nat
    requires n <= |pms|
  {
    if n == 0 then 0
    else
      OffRangeCount(pms, lo, hi, n - 1) +
      (if Off(pms[n - 1]) && lo <= pms[n - 1].numAdditionalVMs < hi then 1 else 0)
  }

  function SumCounts(pms: seq<PM>, lo: int, hi: int, n: nat): int
    requires n <= |pms|
    decreases hi - lo
  {
    if hi <= lo then 0 else SumCounts(pms, lo, hi - 1, n) + OffCount(pms, hi - 1, n)
  }

  lemma {:induction false} SumCountsIsRangeCount(pms: seq<PM>, lo: int, hi: int, n: nat)
    requires n <= |pms|
    ensures SumCounts(pms, lo, hi, n) == OffRangeCount(pms, lo, hi, n)
    decreases hi - lo, n
  {
    if hi <= lo {
      OffRangeEmpty(pms, lo, hi, n);
    } else {
      SumCountsIsRangeCount(pms, lo, hi - 1, n);
      OffRangeSplit(pms, lo, hi, n);
    }
  }

  lemma {:induction false} OffRangeEmpty(pms: seq<PM>, lo: int, hi: int, n: nat)
    requires n <= |pms| && hi <= lo
    ensures OffRangeCount(pms, lo, hi, n) == 0
  {
    if n > 0 {
      OffRangeEmpty(pms, lo, hi, n - 1);
    }
  }

  lemma {:induction false} OffRangeSplit(pms: seq<PM>, lo: int, hi: int, n: nat)
    requires n <= |pms| && lo < hi
    ensures OffRangeCount(pms, lo, hi, n) == OffRangeCount(pms, lo, hi - 1, n) + OffCount(pms, hi - 1, n)
  {
    if n > 0 {
      OffRangeSplit(pms, lo, hi, n - 1);
    }
  }

  /** With every counter in `1..|vms|`, the off PMs with a positive number are those in that range. */
  lemma {:induction false} OffPositiveIsRange(pms: seq<PM>, hi: int, n: nat)
    requires n <= |pms|
    requires forall p :: 0 <= p < |pms| ==> pms[p].numAdditionalVMs < hi
    ensures OffPositiveCount(pms, n) == OffRangeCount(pms, 1, hi, n)
  {
    if n > 0 {
      OffPositiveIsRange(pms, hi, n - 1);
    }
  }
}
