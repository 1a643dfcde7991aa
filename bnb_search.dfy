/**
 * The search-level pieces of the branch-and-bound engine (BnBAllocator.cpp)
 * that sit around `allocate` and `deAllocate`: the order in which a VM's
 * candidate PMs are tried (`resetCandidates`, `setNextPMCandidate`), the
 * intelligent bound (`computeMinimalExtraCost`), and the history that
 * explains every state of the depth-first search as a chain of placements
 * applied to earlier states.
 */
module BnBSearch {
  import opened Wrappers
  import opened Params
  import opened Machines
  import opened Sorting
  import opened CInt
  import opened BnBState
  import opened BnBSteps

  // ---------------------------------------------------------------------
  // The order of the candidate lists: resetCandidates

  /** Every PM has `dim` resource dimensions. */
  ghost predicate Shaped(dim: nat, pms: seq<PM>)
  {
    forall p :: 0 <= p < |pms| ==> |pms[p].capacity| == dim && |pms[p].resourcesFree| == dim
  }

  /** Every entry of `l` is below `n`. */
  ghost predicate Below(l: seq<nat>, n: nat)
  {
    forall i :: 0 <= i < |l| ==> l[i] < n
  }

  /** A PM comparator lifted to PM indices, as the engine sorts `PM*` vectors. */
  function IndexLess(m: SortType, pms: seq<PM>): (nat, nat) --> bool
  {
    (a: nat, b: nat) requires a < |pms| && b < |pms| && Comparable(pms[a], pms[b]) => PMLess(m, pms[a], pms[b])
  }

  /** On PMs of one shape the lifted comparator is defined and a strict order. */
  lemma IndexLessIsStrict(m: SortType, dim: nat, pms: seq<PM>, l: seq<nat>)
    requires Shaped(dim, pms) && Below(l, |pms|)
    ensures Defined(l, IndexLess(m, pms)) && StrictOn(l, IndexLess(m, pms))
  {
    var less := IndexLess(m, pms);
    assert Defined(l, less);
    forall x, y, z | x in l && y in l && z in l
      ensures !less(x, x)
      ensures less(x, y) && less(y, z) ==> less(x, z)
    {
      PMLessIsStrictOrder(m, pms[x], pms[y], pms[z]);
    }
  }

  /** The comparator `resetCandidates` sorts with: NONE sorts only for symmetry breaking. */
  function CandidateSort(b: BnBSettings): (r: Option<SortType>)
    ensures r == None <==> b.PMSortMethod == NONE && !b.symmetryBreaking
    ensures r == Some(LEXICOGRAPHIC) <==> b.PMSortMethod == LEXICOGRAPHIC || (b.PMSortMethod == NONE && b.symmetryBreaking)
  {
    match b.PMSortMethod
    case NONE => if b.symmetryBreaking then Some(LEXICOGRAPHIC) else None
    case LEXICOGRAPHIC => Some(LEXICOGRAPHIC)
    case MAXIMUM => Some(MAXIMUM)
    case SUM => Some(SUM)
  }

  /** The `std::sort` step of `resetCandidates`. */
  function SortCandidates(b: BnBSettings, dim: nat, pms: seq<PM>, l: seq<nat>): (r: seq<nat>)
    requires Shaped(dim, pms) && Below(l, |pms|)
    ensures multiset(r) == multiset(l)
    ensures CandidateSort(b) == None ==> r == l
    ensures CandidateSort(b).Some? ==>
      Defined(r, IndexLess(CandidateSort(b).value, pms)) && SortedBy(r, IndexLess(CandidateSort(b).value, pms))
  {
    match CandidateSort(b)
    case None => l
    case Some(m) =>
      IndexLessIsStrict(m, dim, pms, l);
      SortBy(l, IndexLess(m, pms))
  }

  /** Sorted by any PM comparator, the PMs that are on come before those that are off. */
  lemma SortedPutsOnFirst(m: SortType, dim: nat, pms: seq<PM>, r: seq<nat>, i: nat, j: nat)
    requires Shaped(dim, pms) && Below(r, |pms|)
    requires Defined(r, IndexLess(m, pms)) && SortedBy(r, IndexLess(m, pms))
    requires i < j < |r| && On(pms[r[j]])
    ensures On(pms[r[i]])
  {
    assert r[i] in r && r[j] in r;
    assert !IndexLess(m, pms)(r[j], r[i]);
    if !On(pms[r[i]]) {
      OnBeforeOff(m, pms[r[j]], pms[r[i]]);
    }
  }

  /** The "initial PM first" step: the first occurrence of `q` moves to the front. */
  function MoveToFront(l: seq<nat>, q: int): (r: seq<nat>)
    ensures multiset(r) == multiset(l)
    ensures q !in l ==> r == l
    ensures q in l ==> |r| > 0 && r[0] == q
  {
    if q >= 0 && q as nat in l then
      var i := IndexOf(l, q as nat);
      assert l == l[..i] + [l[i]] + l[i + 1..];
      [q as nat] + EraseAt(l, i)
    else l
  }

  /** The list `resetCandidates` leaves behind. */
  function ResetList(b: BnBSettings, dim: nat, pms: seq<PM>, l: seq<nat>, q: int): (r: seq<nat>)
    requires Shaped(dim, pms) && Below(l, |pms|)
    ensures multiset(r) == multiset(l)
    ensures b.initialPMFirst && q in l ==> r[0] == q
    ensures !b.initialPMFirst ==> r == SortCandidates(b, dim, pms, l)
  {
    var sorted := SortCandidates(b, dim, pms, l);
    if b.initialPMFirst then
      assert q in l ==> q in multiset(sorted);
      MoveToFront(sorted, q)
    else sorted
  }

  /** Reordering the list of an unplaced VM, or moving its cursor, changes nothing the invariant sees. */
  lemma ReorderIsSimilar(s: Engine, v: nat, l: seq<nat>, c: nat)
    requires v < |s.available| && v < |s.cursor| && v !in s.allocations
    requires multiset(l) == multiset(s.available[v])
    ensures Similar(s, s.(available := s.available[v := l], cursor := s.cursor[v := c]))
  {
  }

  // ---------------------------------------------------------------------
  // Symmetry breaking: setNextPMCandidate

  /** The PMs have at least `dim` dimensions. */
  ghost predicate Wide(dim: nat, pms: seq<PM>)
  {
    forall p :: 0 <= p < |pms| ==> dim <= |pms[p].capacity| && dim <= |pms[p].resourcesFree|
  }

  /** `PMsAreTheSame`: both PMs are empty and have the same capacity, in each of `dim` dimensions. */
  predicate Interchangeable(dim: nat, a: PM, b: PM)
    requires dim <= |a.capacity| && dim <= |a.resourcesFree| && dim <= |b.capacity| && dim <= |b.resourcesFree|
  {
    forall i :: 0 <= i < dim ==>
      a.capacity[i] == b.capacity[i] && a.resourcesFree[i] == a.capacity[i] && b.resourcesFree[i] == a.capacity[i]
  }

  lemma InterchangeableIsSymmetricTransitive(dim: nat, a: PM, b: PM, c: PM)
    requires dim <= |a.capacity| && dim <= |a.resourcesFree| && dim <= |b.capacity| && dim <= |b.resourcesFree|
    requires dim <= |c.capacity| && dim <= |c.resourcesFree|
    ensures Interchangeable(dim, a, b) ==> Interchangeable(dim, b, a)
    ensures Interchangeable(dim, a, b) && Interchangeable(dim, b, c) ==> Interchangeable(dim, a, c)
  {
  }

  /** Interchangeable PMs of `dim` dimensions differ at most in id and counter: both are off and alike. */
  lemma InterchangeableAreEmptyTwins(dim: nat, a: PM, b: PM)
    requires |a.capacity| == |a.resourcesFree| == |b.capacity| == |b.resourcesFree| == dim
    requires Interchangeable(dim, a, b)
    ensures a.capacity == b.capacity && a.resourcesFree == b.resourcesFree
    ensures !On(a) && !On(b)
  {
    assert a.resourcesFree == a.capacity;
  }

  /**
   * Where `setNextPMCandidate` leaves the cursor `c`: one step on, and with
   * symmetry breaking further past every PM interchangeable with its
   * predecessor, unless that PM is the VM's initial PM `q`.
   */
  function Advance(sb: bool, dim: nat, pms: seq<PM>, l: seq<nat>, c: nat, q: int): (r: nat)
    requires c < |l| && Wide(dim, pms) && Below(l, |pms|)
    ensures c < r <= |l|
    ensures !sb ==> r == c + 1
    ensures sb ==> forall k :: c < k < r ==> l[k] != q && Interchangeable(dim, pms[l[k - 1]], pms[l[k]])
    ensures sb && r < |l| ==> !(Interchangeable(dim, pms[l[r - 1]], pms[l[r]]) && l[r] != q)
    decreases |l| - c
  {
    assert l[c] in l;
    if !sb || c + 1 == |l| then c + 1
    else
      assert l[c + 1] in l;
      if Interchangeable(dim, pms[l[c]], pms[l[c + 1]]) && l[c + 1] != q then Advance(sb, dim, pms, l, c + 1, q)
      else c + 1
  }

  /** One step of `Advance` with symmetry breaking. */
  lemma AdvanceStep(dim: nat, pms: seq<PM>, l: seq<nat>, c: nat, q: int)
    requires c < |l| && Wide(dim, pms) && Below(l, |pms|)
    ensures c + 1 == |l| ==> Advance(true, dim, pms, l, c, q) == c + 1
    ensures c + 1 < |l| ==> l[c] in l && l[c + 1] in l
    ensures c + 1 < |l| ==>
      Advance(true, dim, pms, l, c, q) ==
        (if Interchangeable(dim, pms[l[c]], pms[l[c + 1]]) && l[c + 1] != q then Advance(true, dim, pms, l, c + 1, q)
         else c + 1)
  {
    if c + 1 < |l| {
      assert l[c] in l && l[c + 1] in l;
    }
  }

  /** Symmetry breaking only skips PMs interchangeable with the one just tried. */
  lemma {:induction false} SkippedAreInterchangeable(dim: nat, pms: seq<PM>, l: seq<nat>, c: nat, q: int, k: nat)
    requires c < |l| && Wide(dim, pms) && Below(l, |pms|)
    requires c < k < Advance(true, dim, pms, l, c, q)
    ensures l[k - 1] in l && l[k] in l && l[c] in l
    ensures Interchangeable(dim, pms[l[c]], pms[l[k]])
    decreases k - c
  {
    assert l[k - 1] in l && l[k] in l && l[c] in l;
    if k - 1 > c {
      SkippedAreInterchangeable(dim, pms, l, c, q, k - 1);
      InterchangeableIsSymmetricTransitive(dim, pms[l[c]], pms[l[k - 1]], pms[l[k]]);
    }
  }

  // ---------------------------------------------------------------------
  // getNextVM

  /** Fail-first choice: the first unplaced VM whose candidate list is the shortest (below INT_MAX). */
  ghost predicate FailFirstChoice(avail: seq<seq<nat>>, alloc: map<nat, nat>, w: nat)
  {
    w < |avail| && w !in alloc && |avail[w]| < INT_MAX &&
    (forall u :: 0 <= u < w && u !in alloc ==> |avail[u]| > |avail[w]|) &&
    (forall u :: w < u < |avail| && u !in alloc ==> |avail[u]| >= |avail[w]|)
  }

  /** Plain choice: the first unplaced VM. */
  ghost predicate FirstUnplaced(n: nat, alloc: map<nat, nat>, w: nat)
  {
    w < n && w !in alloc && forall u :: 0 <= u < w ==> u in alloc
  }

  /** Either rule names at most one VM. */
  lemma NextVMIsUnique(avail: seq<seq<nat>>, alloc: map<nat, nat>, w: nat, u: nat)
    ensures FailFirstChoice(avail, alloc, w) && FailFirstChoice(avail, alloc, u) ==> w == u
    ensures FirstUnplaced(|avail|, alloc, w) && FirstUnplaced(|avail|, alloc, u) ==> w == u
  {
  }

  // ---------------------------------------------------------------------
  // The intelligent bound: computeMinimalExtraCost

  function Min(a: int, b: int): int
  {
    if a <= b then a else b
  }

  /**
   * `computeMinimalExtraCost`'s loop from tier `k` on, with `done`
   * migrations planned and `cost` the running bound: as many off PMs with
   * `k` VMs to take back are emptied as the remaining migrations allow, each
   * saving a host and costing `k` migrations; tiers of 10 or more VMs save
   * nothing and end the loop.
   */
  function ExtraCostLoop(counts: seq<int>, maxK: int, remaining: int, k: nat, done: int, cost: int): int
    requires 1 <= k && maxK < |counts|
    decreases maxK + 1 - k
  {
    if k > maxK || k >= CDiv(COEFF_NR_OF_ACTIVE_HOSTS, COEFF_NR_OF_MIGRATIONS) then cost
    else
      var emptied := Min(counts[k], CDiv(remaining - done, k));
      ExtraCostLoop(counts, maxK, remaining, k + 1, done + emptied * k,
        cost - (emptied * COEFF_NR_OF_ACTIVE_HOSTS - emptied * k * COEFF_NR_OF_MIGRATIONS))
  }

  /** `computeMinimalExtraCost()` in state `s`, with `maxK == m_maxNumVMsOnOnePM`. */
  function MinimalExtraCost(s: Engine, maxK: int, maxMigrations: int): int
    requires maxK < |s.additionalVMCounts|
  {
    ExtraCostLoop(s.additionalVMCounts, maxK, maxMigrations - s.numMigrations, 1, 0,
      s.numAdditionalPMs * COEFF_NR_OF_ACTIVE_HOSTS)
  }

  /** `counts[lo] + ... + counts[hi - 1]`. */
  function TierSum(counts: seq<int>, lo: nat, hi: int): int
    requires hi <= |counts|
    decreases hi - lo
  {
    if hi <= lo then 0 else TierSum(counts, lo, hi - 1) + counts[hi - 1]
  }

  lemma {:induction false} TierSumFront(counts: seq<int>, lo: nat, hi: int)
    requires lo < hi <= |counts|
    ensures TierSum(counts, lo, hi) == counts[lo] + TierSum(counts, lo + 1, hi)
    decreases hi - lo
  {
    if lo + 1 < hi {
      TierSumFront(counts, lo, hi - 1);
    }
  }

  lemma MulLeft(a: int, b: int, k: int)
    requires a <= b && k >= 0
    ensures a * k <= b * k
  {
  }

  /** One tier of the loop: the PMs emptied fit the count and the remaining migrations. */
  lemma TierStep(count: int, remaining: int, k: nat, done: int, e: int)
    requires 1 <= k < 10 && 0 <= done <= remaining && count >= 0
    requires e == Min(count, (remaining - done) / k)
    ensures 0 <= e <= count && done + e * k <= remaining
    ensures 0 <= e * (10 - k) <= 10 * e
    ensures e * COEFF_NR_OF_ACTIVE_HOSTS - e * k * COEFF_NR_OF_MIGRATIONS == e * (10 - k)
  {
    var a := remaining - done;
    var quota := a / k;
    assert quota * k <= a;
    MulLeft(e, quota, k);
    MulLeft(0, e, 10 - k);
    MulLeft(10 - k, 10, e);
  }

  /**
   * The loop only lowers the bound, and by at most 10 per PM counted in the
   * tiers it visits, as long as the planned migrations stay within the
   * budget (which the loop itself maintains).
   */
  lemma {:induction false} ExtraCostLoopBounds(counts: seq<int>, maxK: int, remaining: int, k: nat, done: int, cost: int)
    requires 1 <= k && maxK < |counts| && 0 <= done <= remaining
    requires forall c :: k <= c <= maxK ==> counts[c] >= 0
    ensures cost - COEFF_NR_OF_ACTIVE_HOSTS * TierSum(counts, k, Min(maxK + 1, 10)) <= ExtraCostLoop(counts, maxK, remaining, k, done, cost)
    ensures ExtraCostLoop(counts, maxK, remaining, k, done, cost) <= cost
    decreases maxK + 1 - k
  {
    var hi := Min(maxK + 1, 10);
    assert CDiv(COEFF_NR_OF_ACTIVE_HOSTS, COEFF_NR_OF_MIGRATIONS) == 10;
    if k <= maxK && k < 10 {
      NonNegativeAgree(remaining - done, k);
      var e := Min(counts[k], CDiv(remaining - done, k));
      TierStep(counts[k], remaining, k, done, e);
      var saved := e * (10 - k);
      ExtraCostLoopBounds(counts, maxK, remaining, k + 1, done + e * k, cost - saved);
      TierSumFront(counts, k, hi);
    }
  }

  lemma {:induction false} OffRangeMonotone(pms: seq<PM>, lo: int, hi: int, hi': int, n: nat)
    requires n <= |pms| && hi <= hi'
    ensures OffRangeCount(pms, lo, hi, n) <= OffRangeCount(pms, lo, hi', n)
  {
    if n > 0 {
      OffRangeMonotone(pms, lo, hi, hi', n - 1);
    }
  }

  lemma {:induction false} TierSumIsSumCounts(vms: seq<VM>, s: Engine, lo: nat, hi: int)
    requires ShapeOK(vms, s) && hi <= |s.additionalVMCounts|
    requires forall c :: 0 <= c <= |vms| ==> TierOK(s, c)
    ensures TierSum(s.additionalVMCounts, lo, hi) == SumCounts(s.pms, lo, hi, |s.pms|)
    decreases hi - lo
  {
    if lo < hi {
      TierSumIsSumCounts(vms, s, lo, hi - 1);
      assert TierOK(s, hi - 1);
    }
  }

  /**
   * With the intelligent bound on and migrations within the budget, the
   * extra cost is between 0 and 10 per PM that is off and still has VMs to
   * take back: at best each of them is emptied.
   */
  lemma MinimalExtraCostRange(vms: seq<VM>, s: Engine, maxK: int, maxMigrations: int)
    requires Valid(vms, true, s) && 0 <= maxK <= |vms| && s.numMigrations <= maxMigrations
    ensures 0 <= MinimalExtraCost(s, maxK, maxMigrations) <= COEFF_NR_OF_ACTIVE_HOSTS * s.numAdditionalPMs
  {
    var counts := s.additionalVMCounts;
    var hi := Min(maxK + 1, 10);
    forall c | 1 <= c <= maxK
      ensures counts[c] >= 0
    {
      assert TierOK(s, c);
    }
    ExtraCostLoopBounds(counts, maxK, maxMigrations - s.numMigrations, 1, 0, s.numAdditionalPMs * COEFF_NR_OF_ACTIVE_HOSTS);
    TierSumIsSumCounts(vms, s, 1, hi);
    SumCountsIsRangeCount(s.pms, 1, hi, |s.pms|);
    OffRangeMonotone(s.pms, 1, hi, |vms| + 1, |s.pms|);
    forall p | 0 <= p < |s.pms|
      ensures s.pms[p].numAdditionalVMs < |vms| + 1
    {
      assert WaitingOK(vms, s, p);
    }
    OffPositiveIsRange(s.pms, |vms| + 1, |s.pms|);
  }

  // ---------------------------------------------------------------------
  // The search history

  /** The cursor of every placed VM stays within its list. */
  ghost predicate CursorsOK(s: Engine)
  {
    forall w :: w in s.allocations && w < |s.cursor| && w < |s.available| ==> s.cursor[w] <= |s.available[w]|
  }

  /** The undo entry `c` was pushed by `allocate` in the valid state `h` and does not list its own VM. */
  ghost predicate LinkStart(vms: seq<VM>, ib: bool, h: Engine, c: Change)
  {
    Valid(vms, ib, h) && CursorsOK(h) && c.vmAllocated !in c.doNotFitAnymore
  }

  /**
   * `c` is the top undo entry of `next`, undoing it is allowed, and it goes
   * back to `h` up to the order of the candidate lists of unplaced VMs.
   */
  ghost predicate LinkEnd(vms: seq<VM>, ib: bool, h: Engine, c: Change, next: Engine)
  {
    |next.changeStack| > 0 && next.changeStack[|next.changeStack| - 1] == c &&
    DeallocWF(vms, ib, next, c.vmAllocated) && next.allocations[c.vmAllocated] == c.targetPM &&
    Erased(next.available, c.doNotFitAnymore, c.targetPM) &&
    Similar(Deallocated(vms, ib, next, c.vmAllocated), h)
  }

  /**
   * `hist[i]` is the state the search was in just before the undo entry
   * `cs[i]` was pushed; the last entry led to `s`.
   */
  ghost predicate History(vms: seq<VM>, ib: bool, hist: seq<Engine>, cs: seq<Change>, s: Engine)
    decreases |hist|
  {
    |hist| == |cs| &&
    (|hist| > 0 ==>
      LinkStart(vms, ib, hist[|hist| - 1], cs[|cs| - 1]) &&
      LinkEnd(vms, ib, hist[|hist| - 1], cs[|cs| - 1], s) &&
      History(vms, ib, hist[..|hist| - 1], cs[..|cs| - 1], hist[|hist| - 1]))
  }

  lemma SimilarKeepsCursors(s: Engine, t: Engine)
    requires Similar(s, t) && CursorsOK(s)
    ensures CursorsOK(t)
  {
  }

  lemma DeallocWFRespectsSimilar(vms: seq<VM>, ib: bool, s: Engine, t: Engine, v: nat)
    requires DeallocWF(vms, ib, s, v) && Similar(s, t)
    ensures DeallocWF(vms, ib, t, v)
  {
  }

  lemma DeallocatedSameCounters(vms: seq<VM>, ib: bool, s: Engine, t: Engine, v: nat)
    requires DeallocWF(vms, ib, s, v) && DeallocWF(vms, ib, t, v) && Similar(s, t)
    ensures var u, u' := Deallocated(vms, ib, s, v), Deallocated(vms, ib, t, v);
      u.pms == u'.pms && u.allocations == u'.allocations && u.numPMsOn == u'.numPMsOn &&
      u.numMigrations == u'.numMigrations && u.numAdditionalPMs == u'.numAdditionalPMs &&
      u.additionalVMCounts == u'.additionalVMCounts && u.changeStack == u'.changeStack
  {
  }

  lemma DeallocatedSameLists(vms: seq<VM>, ib: bool, s: Engine, t: Engine, v: nat)
    requires DeallocWF(vms, ib, s, v) && DeallocWF(vms, ib, t, v) && Similar(s, t)
    ensures var u, u' := Deallocated(vms, ib, s, v), Deallocated(vms, ib, t, v);
      |u.available| == |u'.available| && |u.cursor| == |u'.cursor| &&
      (forall w :: 0 <= w < |u.available| ==> multiset(u.available[w]) == multiset(u'.available[w])) &&
      (forall w :: 0 <= w < |u.available| && w in u.allocations ==> u.available[w] == u'.available[w]) &&
      (forall w :: 0 <= w < |u.cursor| && w in u.allocations ==> u.cursor[w] == u'.cursor[w])
  {
  }

  /** `deAllocate` does not look at the order of candidate lists either. */
  lemma DeallocatedRespectsSimilar(vms: seq<VM>, ib: bool, s: Engine, t: Engine, v: nat)
    requires DeallocWF(vms, ib, s, v) && Similar(s, t)
    ensures DeallocWF(vms, ib, t, v)
    ensures Similar(Deallocated(vms, ib, s, v), Deallocated(vms, ib, t, v))
  {
    DeallocWFRespectsSimilar(vms, ib, s, t, v);
    DeallocatedSameCounters(vms, ib, s, t, v);
    DeallocatedSameLists(vms, ib, s, t, v);
  }

  /** `allocate` leaves the lists and cursors of placed VMs alone. */
  lemma AllocatedKeepsCursors(vms: seq<VM>, ib: bool, s: Engine, v: nat, p: nat)
    requires AllocWF(vms, ib, s, v, p) && CursorsOK(s) && v < |s.cursor|
    requires s.cursor[v] <= |s.available[v]|
    ensures CursorsOK(Allocated(vms, ib, s, v, p))
  {
    var t := Allocated(vms, ib, s, v, p);
    forall w | w in t.allocations && w < |t.cursor| && w < |t.available|
      ensures t.cursor[w] <= |t.available[w]|
    {
      assert !PruneHere(vms, t.allocations, s.available, p, t.pms[p], w);
    }
  }

  /** Moving within the candidate lists of unplaced VMs keeps a link. */
  lemma LinkEndRespectsSimilar(vms: seq<VM>, ib: bool, h: Engine, c: Change, s: Engine, t: Engine)
    requires LinkEnd(vms, ib, h, c, s) && Similar(s, t)
    ensures LinkEnd(vms, ib, h, c, t)
  {
    forall w | 0 <= w < |t.available| && w in c.doNotFitAnymore
      ensures c.targetPM !in t.available[w]
    {
      assert c.targetPM !in multiset(s.available[w]);
    }
    DeallocatedRespectsSimilar(vms, ib, s, t, c.vmAllocated);
    var us, ut := Deallocated(vms, ib, s, c.vmAllocated), Deallocated(vms, ib, t, c.vmAllocated);
    SimilarIsEquivalence(us, ut, h);
    SimilarIsEquivalence(ut, us, h);
  }

  /** Moving within the candidate lists of unplaced VMs keeps the history. */
  lemma HistoryRespectsSimilar(vms: seq<VM>, ib: bool, hist: seq<Engine>, cs: seq<Change>, s: Engine, t: Engine)
    requires History(vms, ib, hist, cs, s) && Similar(s, t)
    ensures History(vms, ib, hist, cs, t)
  {
    if |hist| > 0 {
      LinkEndRespectsSimilar(vms, ib, hist[|hist| - 1], cs[|hist| - 1], s, t);
    }
  }

  /** `allocate` in a valid state makes a link. */
  lemma AllocatedLinks(vms: seq<VM>, ib: bool, s: Engine, v: nat, p: nat)
    requires AllocPre(vms, ib, s, v, p) && CursorsOK(s)
    ensures var t := Allocated(vms, ib, s, v, p);
      LinkStart(vms, ib, s, t.changeStack[|t.changeStack| - 1]) &&
      LinkEnd(vms, ib, s, t.changeStack[|t.changeStack| - 1], t)
  {
    AllocatedStarts(vms, ib, s, v, p);
    AllocatedEnds(vms, ib, s, v, p);
  }

  /** The entry `allocate` pushes names a placed VM, which is not among the VMs it prunes. */
  lemma AllocatedStarts(vms: seq<VM>, ib: bool, s: Engine, v: nat, p: nat)
    requires AllocPre(vms, ib, s, v, p) && CursorsOK(s)
    ensures var t := Allocated(vms, ib, s, v, p);
      LinkStart(vms, ib, s, t.changeStack[|t.changeStack| - 1])
  {
  }

  /** The entry `allocate` pushes can be undone, and undoing it goes back to the start up to candidate order. */
  lemma AllocatedEnds(vms: seq<VM>, ib: bool, s: Engine, v: nat, p: nat)
    requires AllocPre(vms, ib, s, v, p)
    ensures var t := Allocated(vms, ib, s, v, p);
      LinkEnd(vms, ib, s, t.changeStack[|t.changeStack| - 1], t)
  {
    AllocatedErases(vms, ib, s, v, p);
    RoundTrip(vms, ib, s, v, p);
  }

  /** A new link on top of a history extends it. */
  lemma HistoryCons(vms: seq<VM>, ib: bool, hist: seq<Engine>, cs: seq<Change>, h: Engine, c: Change, s: Engine)
    requires History(vms, ib, hist, cs, h) && LinkStart(vms, ib, h, c) && LinkEnd(vms, ib, h, c, s)
    ensures History(vms, ib, hist + [h], cs + [c], s)
  {
    var hist', cs' := hist + [h], cs + [c];
    assert hist'[|hist'| - 1] == h && cs'[|cs'| - 1] == c;
    assert hist'[..|hist'| - 1] == hist && cs'[..|cs'| - 1] == cs;
  }

  /** `allocate` pushes the state it started from onto the history. */
  lemma HistoryPush(vms: seq<VM>, ib: bool, hist: seq<Engine>, s: Engine, v: nat, p: nat)
    requires History(vms, ib, hist, s.changeStack, s) && AllocPre(vms, ib, s, v, p) && CursorsOK(s)
    ensures History(vms, ib, hist + [s], Allocated(vms, ib, s, v, p).changeStack, Allocated(vms, ib, s, v, p))
  {
    var t := Allocated(vms, ib, s, v, p);
    AllocatedLinks(vms, ib, s, v, p);
    HistoryCons(vms, ib, hist, s.changeStack, s, t.changeStack[|t.changeStack| - 1], t);
    assert t.changeStack == s.changeStack + [t.changeStack[|t.changeStack| - 1]];
  }

  /** The top link of a valid state can be undone. */
  lemma PopAllowed(vms: seq<VM>, ib: bool, h: Engine, c: Change, s: Engine)
    requires Valid(vms, ib, s) && LinkEnd(vms, ib, h, c, s)
    ensures DeallocPre(vms, ib, s, c.vmAllocated)
  {
  }

  /** Undoing a link lands in a valid state similar to where the link started. */
  lemma PopLink(vms: seq<VM>, ib: bool, h: Engine, c: Change, s: Engine)
    requires LinkStart(vms, ib, h, c) && LinkEnd(vms, ib, h, c, s)
    ensures var u := Deallocated(vms, ib, s, c.vmAllocated);
      Similar(h, u) && Valid(vms, ib, u) && CursorsOK(u) &&
      u.available[c.vmAllocated] == s.available[c.vmAllocated] && u.cursor == s.cursor &&
      c.vmAllocated !in u.allocations && u.changeStack == s.changeStack[..|s.changeStack| - 1]
  {
    var u := Deallocated(vms, ib, s, c.vmAllocated);
    SimilarIsEquivalence(u, h, h);
    SimilarPreservesValid(vms, ib, h, u);
    SimilarKeepsCursors(h, u);
  }

  /**
   * Undoing the top entry is allowed and goes back to the state before it,
   * up to candidate order; the list and cursor of the VM taken off are the
   * ones it had while placed.
   */
  lemma HistoryPop(vms: seq<VM>, ib: bool, hist: seq<Engine>, s: Engine)
    requires Valid(vms, ib, s) && History(vms, ib, hist, s.changeStack, s) && |hist| > 0
    ensures var v := s.changeStack[|s.changeStack| - 1].vmAllocated;
      var u := Deallocated(vms, ib, s, v);
      DeallocPre(vms, ib, s, v) &&
      History(vms, ib, hist[..|hist| - 1], u.changeStack, u) && Similar(hist[|hist| - 1], u) &&
      Valid(vms, ib, u) && CursorsOK(u) &&
      u.available[v] == s.available[v] && u.cursor == s.cursor && v !in u.allocations
  {
    var top := |hist| - 1;
    HistoryTop(vms, ib, hist, s.changeStack, s);
    var h := hist[top];
    var c := s.changeStack[top];
    PopAllowed(vms, ib, h, c, s);
    PopLink(vms, ib, h, c, s);
    HistoryBelow(vms, ib, hist, s);
  }

  /** The top link of a history ends in the state it explains. */
  lemma HistoryTop(vms: seq<VM>, ib: bool, hist: seq<Engine>, cs: seq<Change>, s: Engine)
    requires History(vms, ib, hist, cs, s) && |hist| > 0
    ensures |cs| == |hist| && LinkStart(vms, ib, hist[|hist| - 1], cs[|hist| - 1])
    ensures LinkEnd(vms, ib, hist[|hist| - 1], cs[|hist| - 1], s)
  {
  }

  /** Below its top link, a history explains the state the link started from. */
  lemma HistoryUnfold(vms: seq<VM>, ib: bool, hist: seq<Engine>, cs: seq<Change>, s: Engine)
    requires History(vms, ib, hist, cs, s) && |hist| > 0
    ensures History(vms, ib, hist[..|hist| - 1], cs[..|hist| - 1], hist[|hist| - 1])
  {
  }

  /** What is left of the history once its top link is undone explains the state undoing it lands in. */
  lemma HistoryBelow(vms: seq<VM>, ib: bool, hist: seq<Engine>, s: Engine)
    requires History(vms, ib, hist, s.changeStack, s) && |hist| > 0
    ensures var u := Deallocated(vms, ib, s, s.changeStack[|s.changeStack| - 1].vmAllocated);
      History(vms, ib, hist[..|hist| - 1], u.changeStack, u)
  {
    TopUndone(vms, ib, hist, s);
    var u := Deallocated(vms, ib, s, s.changeStack[|hist| - 1].vmAllocated);
    BelowTop(vms, ib, hist, s.changeStack, s, u);
  }

  /** Below its top link, a history also explains any state similar to the one the link started from. */
  lemma BelowTop(vms: seq<VM>, ib: bool, hist: seq<Engine>, cs: seq<Change>, s: Engine, u: Engine)
    requires History(vms, ib, hist, cs, s) && |hist| > 0 && Similar(hist[|hist| - 1], u)
    ensures History(vms, ib, hist[..|hist| - 1], cs[..|hist| - 1], u)
  {
    var top := |hist| - 1;
    HistoryUnfold(vms, ib, hist, cs, s);
    HistoryRespectsSimilar(vms, ib, hist[..top], cs[..top], hist[top], u);
  }

  /** Undoing the top link of a history goes back to the state it started from, up to candidate order. */
  lemma TopUndone(vms: seq<VM>, ib: bool, hist: seq<Engine>, s: Engine)
    requires History(vms, ib, hist, s.changeStack, s) && |hist| > 0
    ensures var top := |hist| - 1;
      var u := Deallocated(vms, ib, s, s.changeStack[top].vmAllocated);
      |s.changeStack| == |hist| && Similar(hist[top], u) &&
      hist[top].changeStack == u.changeStack == s.changeStack[..top]
  {
    var top := |hist| - 1;
    SimilarIsEquivalence(Deallocated(vms, ib, s, s.changeStack[top].vmAllocated), hist[top], hist[top]);
  }
}
