/**
 * Physical and virtual machines (PM.h, VM.h, PM.cpp, VM.cpp) and the cost
 * weights every allocator uses (VMAllocator.h).
 *
 * Resource vectors are `seq<int>`, one entry per resource dimension. The
 * pointer-valued members of the C++ `VM` (its initial PM, its candidate list
 * and the cursor into it) belong to the branch-and-bound engine and live
 * there, as indices.
 */
module Machines {
  import opened Params

  const COEFF_NR_OF_ACTIVE_HOSTS: int := 10
  const COEFF_NR_OF_MIGRATIONS: int := 1
  /** `INT_MAX` of a 32-bit `int`, the starting value of "best cost so far". */
  const INT_MAX: int := 2147483647

  datatype PM = PM(
    id: int,
    numAdditionalVMs: int,  // VMs still to be placed whose initial PM this is
    capacity: seq<int>,
    resourcesFree: seq<int>
  )

  /** `initialID` is the index of the VM's current PM, or -1 for a new VM. */
  datatype VM = VM(id: int, demand: seq<int>, initialID: int)

  /** `PM()`: only `numAdditionalVMs` is set; both vectors start empty. */
  function NewPM(id: int): (pm: PM)
    ensures pm.numAdditionalVMs == 0 && pm.id == id
    ensures pm.capacity == [] && pm.resourcesFree == []
  {
    PM(id, 0, [], [])
  }

  /** `operator==` on PMs. */
  predicate SamePM(a: PM, b: PM)
  {
    a.id == b.id
  }

  /** Equality looks at the id alone: resources and counters do not matter. */
  lemma SamePMIgnoresResources(a: PM, b: PM)
    requires a.id == b.id && (a.capacity != b.capacity || a.resourcesFree != b.resourcesFree)
    ensures SamePM(a, b) && a != b
  {
  }

  /** The vectors `isOn` reads line up (it indexes `capacity` by `resourcesFree`'s length). */
  predicate WellShaped(pm: PM)
  {
    |pm.resourcesFree| <= |pm.capacity|
  }

  /** `isOn`: some resource is in use. */
  predicate On(pm: PM)
    requires WellShaped(pm)
  {
    exists i :: 0 <= i < |pm.resourcesFree| && pm.resourcesFree[i] != pm.capacity[i]
  }

  /** `PM::isOn` as the loop it is. */
  method IsOn(pm: PM) returns (on: bool)
    requires WellShaped(pm)
    ensures on == On(pm)
  {
    var i := 0;
    while i < |pm.resourcesFree|
      invariant 0 <= i <= |pm.resourcesFree|
      invariant forall j :: 0 <= j < i ==> pm.resourcesFree[j] == pm.capacity[j]
    {
      if pm.resourcesFree[i] != pm.capacity[i] {
        return true;
      }
      i := i + 1;
    }
    return false;
  }

  lemma OffMeansFree(pm: PM)
    requires WellShaped(pm) && |pm.resourcesFree| == |pm.capacity|
    ensures !On(pm) <==> pm.resourcesFree == pm.capacity
  {
    if !On(pm) {
      assert forall i :: 0 <= i < |pm.resourcesFree| ==> pm.resourcesFree[i] == pm.capacity[i];
    }
  }

  /** The maximum of `s` and 0, as the comparators compute it (starting from 0). */
  function MaxFrom0(s: seq<int>): (m: int)
    ensures 0 <= m
  {
    if |s| == 0 then 0
    else
      var m := MaxFrom0(s[..|s| - 1]);
      if s[|s| - 1] > m then s[|s| - 1] else m
  }

  /** It is an upper bound of `s` and 0 and is attained, unless it is the 0 itself. */
  lemma {:induction false} MaxFrom0IsMaximum(s: seq<int>)
    ensures forall i :: 0 <= i < |s| ==> s[i] <= MaxFrom0(s)
    ensures MaxFrom0(s) == 0 || exists i :: 0 <= i < |s| && s[i] == MaxFrom0(s)
  {
    if |s| > 0 {
      var init := s[..|s| - 1];
      MaxFrom0IsMaximum(init);
      assert forall i :: 0 <= i < |s| - 1 ==> s[i] == init[i];
      if MaxFrom0(init) != 0 && MaxFrom0(s) == MaxFrom0(init) {
        var i :| 0 <= i < |init| && init[i] == MaxFrom0(init);
        assert s[i] == MaxFrom0(s);
      }
    }
  }

  lemma MaxFrom0Snoc(s: seq<int>, x: int)
    ensures MaxFrom0(s + [x]) == if x > MaxFrom0(s) then x else MaxFrom0(s)
  {
    assert (s + [x])[..|s|] == s;
  }

  function Sum(s: seq<int>): int
  {
    if |s| == 0 then 0 else Sum(s[..|s| - 1]) + s[|s| - 1]
  }

  lemma {:induction false} SumOfZeros(s: seq<int>)
    requires forall i :: 0 <= i < |s| ==> s[i] == 0
    ensures Sum(s) == 0
  {
    if |s| > 0 {
      SumOfZeros(s[..|s| - 1]);
    }
  }

  /** `std::vector<int>::operator<`: lexicographic comparison. */
  predicate LexLess(a: seq<int>, b: seq<int>)
  {
    if |b| == 0 then false
    else if |a| == 0 then true
    else if a[0] < b[0] then true
    else if b[0] < a[0] then false
    else LexLess(a[1..], b[1..])
  }

  lemma {:induction false} LexLessIrreflexive(a: seq<int>)
    ensures !LexLess(a, a)
  {
    if |a| > 0 {
      LexLessIrreflexive(a[1..]);
    }
  }

  lemma {:induction false} LexLessTransitive(a: seq<int>, b: seq<int>, c: seq<int>)
    requires LexLess(a, b) && LexLess(b, c)
    ensures LexLess(a, c)
  {
    if |a| > 0 && a[0] == b[0] && b[0] == c[0] {
      LexLessTransitive(a[1..], b[1..], c[1..]);
    }
  }

  /** Sequences of the same length are ordered one way or the other unless equal. */
  lemma {:induction false} LexLessTotal(a: seq<int>, b: seq<int>)
    requires |a| == |b| && a != b
    ensures LexLess(a, b) || LexLess(b, a)
  {
    if a[0] == b[0] {
      assert a == [a[0]] + a[1..] && b == [b[0]] + b[1..];
      LexLessTotal(a[1..], b[1..]);
    }
  }

  // ---------------------------------------------------------------------
  // PM comparators: PMs that are on come first (best fit), then PMs that
  // are off.

  /** Two PMs the comparators may be applied to: same number of dimensions. */
  predicate Comparable(a: PM, b: PM)
  {
    WellShaped(a) && WellShaped(b) && |a.resourcesFree| == |b.resourcesFree|
  }

  predicate LexicographicPMLess(a: PM, b: PM)
    requires WellShaped(a) && WellShaped(b)
  {
    if On(a) && !On(b) then true
    else if On(b) && !On(a) then false
    else if On(a) && On(b) then LexLess(a.resourcesFree, b.resourcesFree)
    else LexLess(b.resourcesFree, a.resourcesFree)
  }

  predicate MaximumPMLess(a: PM, b: PM)
    requires Comparable(a, b)
  {
    if On(a) && !On(b) then true
    else if On(b) && !On(a) then false
    else if On(a) && On(b) then MaxFrom0(a.resourcesFree) < MaxFrom0(b.resourcesFree)
    else MaxFrom0(b.resourcesFree) > MaxFrom0(a.resourcesFree)
  }

  predicate SumPMLess(a: PM, b: PM)
    requires Comparable(a, b)
  {
    if On(a) && !On(b) then true
    else if On(b) && !On(a) then false
    else if On(a) && On(b) then Sum(a.resourcesFree) < Sum(b.resourcesFree)
    else Sum(a.resourcesFree) > Sum(b.resourcesFree)
  }

  /** The PM comparator a sort method selects (NONE sorts lexicographically). */
  predicate PMLess(m: SortType, a: PM, b: PM)
    requires Comparable(a, b)
  {
    match m
    case NONE => LexicographicPMLess(a, b)
    case LEXICOGRAPHIC => LexicographicPMLess(a, b)
    case MAXIMUM => MaximumPMLess(a, b)
    case SUM => SumPMLess(a, b)
  }

  /** `MaximumPMComparator`, accumulating both maxima in one loop. */
  method MaximumPMComparator(a: PM, b: PM) returns (r: bool)
    requires Comparable(a, b)
    ensures r == MaximumPMLess(a, b)
  {
    var aOn := IsOn(a);
    var bOn := IsOn(b);
    if aOn && !bOn {
      return true;
    }
    if bOn && !aOn {
      return false;
    }
    var aMax, bMax := 0, 0;
    var i := 0;
    while i < |a.resourcesFree|
      invariant 0 <= i <= |a.resourcesFree|
      invariant aMax == MaxFrom0(a.resourcesFree[..i])
      invariant bMax == MaxFrom0(b.resourcesFree[..i])
    {
      assert a.resourcesFree[..i + 1] == a.resourcesFree[..i] + [a.resourcesFree[i]];
      MaxFrom0Snoc(a.resourcesFree[..i], a.resourcesFree[i]);
      assert b.resourcesFree[..i + 1] == b.resourcesFree[..i] + [b.resourcesFree[i]];
      MaxFrom0Snoc(b.resourcesFree[..i], b.resourcesFree[i]);
      if a.resourcesFree[i] > aMax {
        aMax := a.resourcesFree[i];
      }
      if b.resourcesFree[i] > bMax {
        bMax := b.resourcesFree[i];
      }
      i := i + 1;
    }
    assert a.resourcesFree[..i] == a.resourcesFree;
    assert b.resourcesFree[..i] == b.resourcesFree;
    if aOn && bOn {
      return aMax < bMax;
    }
    return bMax > aMax;
  }

  /** `SumPMComparator`, accumulating both sums in one loop. */
  method SumPMComparator(a: PM, b: PM) returns (r: bool)
    requires Comparable(a, b)
    ensures r == SumPMLess(a, b)
  {
    var aOn := IsOn(a);
    var bOn := IsOn(b);
    if aOn && !bOn {
      return true;
    }
    if bOn && !aOn {
      return false;
    }
    var aSum, bSum := 0, 0;
    var i := 0;
    while i < |a.resourcesFree|
      invariant 0 <= i <= |a.resourcesFree|
      invariant aSum == Sum(a.resourcesFree[..i])
      invariant bSum == Sum(b.resourcesFree[..i])
    {
      assert a.resourcesFree[..i + 1][..i] == a.resourcesFree[..i];
      assert b.resourcesFree[..i + 1][..i] == b.resourcesFree[..i];
      aSum := aSum + a.resourcesFree[i];
      bSum := bSum + b.resourcesFree[i];
      i := i + 1;
    }
    assert a.resourcesFree[..i] == a.resourcesFree;
    assert b.resourcesFree[..i] == b.resourcesFree;
    if aOn && bOn {
      return aSum < bSum;
    }
    return aSum > bSum;
  }

  /** Every sort method puts a PM that is on before a PM that is off. */
  lemma OnBeforeOff(m: SortType, a: PM, b: PM)
    requires Comparable(a, b) && On(a) && !On(b)
    ensures PMLess(m, a, b) && !PMLess(m, b, a)
  {
  }

  /**
   * Among PMs that are on, each comparator is ascending in its key; among
   * PMs that are off, lexicographic and sum order are descending, while
   * maximum order is ascending as well (its off/off branch tests
   * `secondMax > firstMax`).
   */
  lemma PMOrderWithinPowerState(a: PM, b: PM)
    requires Comparable(a, b) && On(a) == On(b)
    ensures On(a) ==> (LexicographicPMLess(a, b) <==> LexLess(a.resourcesFree, b.resourcesFree))
    ensures !On(a) ==> (LexicographicPMLess(a, b) <==> LexLess(b.resourcesFree, a.resourcesFree))
    ensures On(a) ==> (SumPMLess(a, b) <==> Sum(a.resourcesFree) < Sum(b.resourcesFree))
    ensures !On(a) ==> (SumPMLess(a, b) <==> Sum(a.resourcesFree) > Sum(b.resourcesFree))
    ensures MaximumPMLess(a, b) <==> MaxFrom0(a.resourcesFree) < MaxFrom0(b.resourcesFree)
  {
  }

  /** Two empty PMs with largest free components 1 and 2: the smaller comes first. */
  lemma MaximumPMOffIsAscending()
    ensures var small, big := PM(0, 0, [1], [1]), PM(1, 0, [2], [2]);
      !On(small) && !On(big) && MaximumPMLess(small, big) && !MaximumPMLess(big, small)
  {
    var small, big := PM(0, 0, [1], [1]), PM(1, 0, [2], [2]);
    assert MaxFrom0(small.resourcesFree) == 1 by {
      assert small.resourcesFree[..0] == [];
    }
    assert MaxFrom0(big.resourcesFree) == 2 by {
      assert big.resourcesFree[..0] == [];
    }
  }

  /**
   * The maximum comparator with the order the comment above the PM
   * comparators promises: among PMs that are off, the one with the larger
   * free maximum comes first, so the biggest PM is turned on first.
   */
  predicate DescendingMaximumPMLess(a: PM, b: PM)
    requires Comparable(a, b)
  {
    if On(a) && !On(b) then true
    else if On(b) && !On(a) then false
    else if On(a) && On(b) then MaxFrom0(a.resourcesFree) < MaxFrom0(b.resourcesFree)
    else MaxFrom0(a.resourcesFree) > MaxFrom0(b.resourcesFree)
  }

  /**
   * It agrees with `MaximumPMLess` unless both PMs are off, is descending
   * between PMs that are off, and is a strict order.
   */
  lemma DescendingMaximumPMOrder(a: PM, b: PM, c: PM)
    requires Comparable(a, b) && Comparable(b, c)
    ensures On(a) || On(b) ==> (DescendingMaximumPMLess(a, b) <==> MaximumPMLess(a, b))
    ensures !On(a) && !On(b) ==>
      (DescendingMaximumPMLess(a, b) <==> MaxFrom0(b.resourcesFree) < MaxFrom0(a.resourcesFree))
    ensures !DescendingMaximumPMLess(a, a)
    ensures DescendingMaximumPMLess(a, b) ==> !DescendingMaximumPMLess(b, a)
    ensures DescendingMaximumPMLess(a, b) && DescendingMaximumPMLess(b, c) ==> DescendingMaximumPMLess(a, c)
  {
  }

  /** The two PMs of `MaximumPMOffIsAscending`: with this comparator the bigger comes first. */
  lemma DescendingMaximumPMOffIsDescending()
    ensures var small, big := PM(0, 0, [1], [1]), PM(1, 0, [2], [2]);
      !On(small) && !On(big) && DescendingMaximumPMLess(big, small) && !DescendingMaximumPMLess(small, big)
  {
    var small, big := PM(0, 0, [1], [1]), PM(1, 0, [2], [2]);
    assert MaxFrom0(small.resourcesFree) == 1 by {
      assert small.resourcesFree[..0] == [];
    }
    assert MaxFrom0(big.resourcesFree) == 2 by {
      assert big.resourcesFree[..0] == [];
    }
  }

  /** Each PM comparator is a strict order, as `std::sort` requires. */
  lemma PMLessIsStrictOrder(m: SortType, a: PM, b: PM, c: PM)
    requires Comparable(a, b) && Comparable(b, c)
    ensures !PMLess(m, a, a)
    ensures PMLess(m, a, b) ==> !PMLess(m, b, a)
    ensures PMLess(m, a, b) && PMLess(m, b, c) ==> PMLess(m, a, c)
  {
    LexLessIrreflexive(a.resourcesFree);
    if PMLess(m, a, b) && PMLess(m, b, a) {
      if m == NONE || m == LEXICOGRAPHIC {
        if On(a) == On(b) {
          LexLessTransitive(a.resourcesFree, b.resourcesFree, a.resourcesFree);
        }
      }
    }
    if PMLess(m, a, b) && PMLess(m, b, c) && (m == NONE || m == LEXICOGRAPHIC) {
      if On(a) && On(b) && On(c) {
        LexLessTransitive(a.resourcesFree, b.resourcesFree, c.resourcesFree);
      } else if !On(a) && !On(b) && !On(c) {
        LexLessTransitive(c.resourcesFree, b.resourcesFree, a.resourcesFree);
      }
    }
  }

  // ---------------------------------------------------------------------
  // VM comparators: all descending.

  predicate LexicographicVMLess(a: VM, b: VM)
  {
    LexLess(b.demand, a.demand)
  }

  predicate MaximumVMLess(a: VM, b: VM)
    requires |a.demand| == |b.demand|
  {
    MaxFrom0(a.demand) > MaxFrom0(b.demand)
  }

  predicate SumVMLess(a: VM, b: VM)
    requires |a.demand| == |b.demand|
  {
    Sum(a.demand) > Sum(b.demand)
  }

  /** The key a VM sort method orders by (only meaningful apart from NONE). */
  function VMKey(m: SortType, v: VM): int
  {
    match m
    case MAXIMUM => MaxFrom0(v.demand)
    case SUM => Sum(v.demand)
    case _ => 0
  }

  /** The VM comparator of a sort method. NONE does not sort; it is never used. */
  predicate VMLess(m: SortType, a: VM, b: VM)
    requires |a.demand| == |b.demand|
  {
    match m
    case NONE => false
    case LEXICOGRAPHIC => LexicographicVMLess(a, b)
    case MAXIMUM => MaximumVMLess(a, b)
    case SUM => SumVMLess(a, b)
  }

  /** `MaximumVMComparator`, accumulating both maxima in one loop. */
  method MaximumVMComparator(a: VM, b: VM) returns (r: bool)
    requires |a.demand| == |b.demand|
    ensures r == MaximumVMLess(a, b)
  {
    var aMax, bMax := 0, 0;
    var i := 0;
    while i < |a.demand|
      invariant 0 <= i <= |a.demand|
      invariant aMax == MaxFrom0(a.demand[..i])
      invariant bMax == MaxFrom0(b.demand[..i])
    {
      assert a.demand[..i + 1] == a.demand[..i] + [a.demand[i]];
      MaxFrom0Snoc(a.demand[..i], a.demand[i]);
      assert b.demand[..i + 1] == b.demand[..i] + [b.demand[i]];
      MaxFrom0Snoc(b.demand[..i], b.demand[i]);
      if a.demand[i] > aMax {
        aMax := a.demand[i];
      }
      if b.demand[i] > bMax {
        bMax := b.demand[i];
      }
      i := i + 1;
    }
    assert a.demand[..i] == a.demand;
    assert b.demand[..i] == b.demand;
    return aMax > bMax;
  }

  /** `SumVMComparator`, accumulating both sums in one loop. */
  method SumVMComparator(a: VM, b: VM) returns (r: bool)
    requires |a.demand| == |b.demand|
    ensures r == SumVMLess(a, b)
  {
    var aSum, bSum := 0, 0;
    var i := 0;
    while i < |a.demand|
      invariant 0 <= i <= |a.demand|
      invariant aSum == Sum(a.demand[..i])
      invariant bSum == Sum(b.demand[..i])
    {
      assert a.demand[..i + 1][..i] == a.demand[..i];
      assert b.demand[..i + 1][..i] == b.demand[..i];
      aSum := aSum + a.demand[i];
      bSum := bSum + b.demand[i];
      i := i + 1;
    }
    assert a.demand[..i] == a.demand;
    assert b.demand[..i] == b.demand;
    return aSum > bSum;
  }

  /**
   * The VM comparators are descending: a VM that comes first has the larger
   * key, and VMs with equal keys (equal demand vectors, for lexicographic
   * order) are unordered.
   */
  lemma VMOrderIsDescending(m: SortType, a: VM, b: VM)
    requires |a.demand| == |b.demand| && m != NONE
    ensures m == LEXICOGRAPHIC ==> (VMLess(m, a, b) <==> LexLess(b.demand, a.demand))
    ensures m != LEXICOGRAPHIC ==> (VMLess(m, a, b) <==> VMKey(m, a) > VMKey(m, b))
    ensures m != LEXICOGRAPHIC && VMKey(m, a) == VMKey(m, b) ==> !VMLess(m, a, b) && !VMLess(m, b, a)
    ensures m == LEXICOGRAPHIC && a.demand == b.demand ==> !VMLess(m, a, b) && !VMLess(m, b, a)
  {
    if m == LEXICOGRAPHIC && a.demand == b.demand {
      LexLessIrreflexive(a.demand);
    }
  }

  /** Each VM comparator is a strict order, as `std::sort` requires. */
  lemma VMLessIsStrictOrder(m: SortType, a: VM, b: VM, c: VM)
    requires |a.demand| == |b.demand| == |c.demand|
    ensures !VMLess(m, a, a)
    ensures VMLess(m, a, b) ==> !VMLess(m, b, a)
    ensures VMLess(m, a, b) && VMLess(m, b, c) ==> VMLess(m, a, c)
  {
    LexLessIrreflexive(a.demand);
    if m == LEXICOGRAPHIC {
      if VMLess(m, a, b) && VMLess(m, b, a) {
        LexLessTransitive(a.demand, b.demand, a.demand);
      }
      if VMLess(m, a, b) && VMLess(m, b, c) {
        LexLessTransitive(c.demand, b.demand, a.demand);
      }
    }
  }

  // ---------------------------------------------------------------------

  /** `VMFitsInPM`: the free resources cover the demand in every dimension. */
  predicate Fits(vm: VM, pm: PM)
  {
    Covers(pm.resourcesFree, vm.demand)
  }

  /** `free` has at least `demand[k]` in every dimension `k` of the demand. */
  predicate Covers(free: seq<int>, demand: seq<int>)
  {
    forall k :: 0 <= k < |demand| ==> k < |free| && demand[k] <= free[k]
  }
}
