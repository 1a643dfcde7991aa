/**
 * `allocate` and `deAllocate` of the branch-and-bound engine
 * (BnBAllocator.cpp), as functions from engine state to engine state, and
 * what they guarantee: placing a VM keeps the invariant, and taking it off
 * again restores the state up to the order of the candidate lists it
 * pruned.
 */
module BnBSteps {
  import opened Machines
  import opened BnBState

  function SubtractDemand(rf: seq<int>, vm: VM): (r: seq<int>)
    ensures |r| == |rf|
  {
    seq(|rf|, i requires 0 <= i < |rf| => rf[i] - DemandAt(vm, i))
  }

  function AddDemand(rf: seq<int>, vm: VM): (r: seq<int>)
    ensures |r| == |rf|
  {
    seq(|rf|, i requires 0 <= i < |rf| => rf[i] + DemandAt(vm, i))
  }

  /** `pms` after placing `vm` on PM `p`: its demand is reserved there. */
  function Reserve(pms: seq<PM>, vm: VM, p: nat): seq<PM>
    requires p < |pms|
  {
    pms[p := pms[p].(resourcesFree := SubtractDemand(pms[p].resourcesFree, vm))]
  }

  /** `pms` after taking `vm` off PM `p`: its demand is freed again. */
  function Release(pms: seq<PM>, vm: VM, p: nat): seq<PM>
    requires p < |pms|
  {
    pms[p := pms[p].(resourcesFree := AddDemand(pms[p].resourcesFree, vm))]
  }

  // ---------------------------------------------------------------------
  // Pruning the candidate lists

  /** VM `w` is not placed, had `p` as candidate and no longer fits on it. */
  predicate PruneHere(vms: seq<VM>, alloc: map<nat, nat>, avail: seq<seq<nat>>, p: nat, target: PM, w: nat)
    requires w < |vms| == |avail|
  {
    w !in alloc && p in avail[w] && !Fits(vms[w], target)
  }

  /** The candidate lists after `allocate`'s update loop erased `p` where it stopped fitting. */
  function Pruned(vms: seq<VM>, alloc: map<nat, nat>, avail: seq<seq<nat>>, p: nat, target: PM): (r: seq<seq<nat>>)
    requires |vms| == |avail|
    ensures |r| == |avail|
  {
    seq(|avail|, w requires 0 <= w < |avail| =>
      if PruneHere(vms, alloc, avail, p, target, w) then EraseAt(avail[w], IndexOf(avail[w], p)) else avail[w])
  }

  /** `change.doNotFitAnymore`: the pruned VMs among the first `n`, in index order. */
  function NoLongerFitting(vms: seq<VM>, alloc: map<nat, nat>, avail: seq<seq<nat>>, p: nat, target: PM, n: nat): (r: seq<nat>)
    requires n <= |vms| == |avail|
    ensures Increasing(r)
    ensures forall j :: 0 <= j < |r| ==> r[j] < n
    ensures forall w :: 0 <= w < n ==> (w in r <==> PruneHere(vms, alloc, avail, p, target, w))
  {
    if n == 0 then []
    else
      NoLongerFitting(vms, alloc, avail, p, target, n - 1) +
      (if PruneHere(vms, alloc, avail, p, target, n - 1) then [n - 1] else [])
  }

  /** `deAllocate`'s loop: `p` appended to the list of every VM in `dnf`. */
  function Readded(avail: seq<seq<nat>>, dnf: seq<nat>, p: nat): (r: seq<seq<nat>>)
    ensures |r| == |avail|
  {
    seq(|avail|, w requires 0 <= w < |avail| => if w in dnf then avail[w] + [p] else avail[w])
  }

  // ---------------------------------------------------------------------
  // allocate

  /**
   * What the body of `allocate(v, p)` needs to be defined: indices in range,
   * the PM that receives `v` on afterwards, and the counters it touches in
   * range.
   */
  ghost predicate AllocWF(vms: seq<VM>, ib: bool, s: Engine, v: nat, p: nat)
  {
    v < |vms| == |s.available| && p < |s.pms| && |s.additionalVMCounts| == |vms| + 1 &&
    WellShaped(s.pms[p]) && On(Reserve(s.pms, vms[v], p)[p]) &&
    (ib ==>
      0 <= vms[v].initialID < |s.pms| && WellShaped(s.pms[vms[v].initialID]) &&
      0 <= s.pms[p].numAdditionalVMs <= |vms| &&
      (vms[v].initialID != p && !On(s.pms[vms[v].initialID]) ==>
        1 <= s.pms[vms[v].initialID].numAdditionalVMs <= |vms|))
  }

  /** What `allocate(v, p)` needs: a valid state, `v` not placed, and `v` fitting on `p`. */
  ghost predicate AllocPre(vms: seq<VM>, ib: bool, s: Engine, v: nat, p: nat)
  {
    Valid(vms, ib, s) && v < |vms| && v !in s.allocations && p < |s.pms| && Fits(vms[v], s.pms[p]) &&
    AllocWF(vms, ib, s, v, p)
  }

  /** A placed VM with positive demand leaves its PM on, whatever was there before. */
  lemma PlacingTurnsOn(vms: seq<VM>, ib: bool, s: Engine, v: nat, p: nat)
    requires Valid(vms, ib, s) && v < |vms| && p < |s.pms|
    ensures WellShaped(Reserve(s.pms, vms[v], p)[p]) && On(Reserve(s.pms, vms[v], p)[p])
  {
    var k :| 0 <= k < |vms[v].demand| && vms[v].demand[k] > 0;
    LoadNonNegative(vms, s.allocations, p, k, |vms|);
    var pm := Reserve(s.pms, vms[v], p)[p];
    assert pm.resourcesFree[k] != pm.capacity[k];
  }

  /** A PM is on exactly when some VM is placed on it. */
  lemma OnIffHosting(vms: seq<VM>, ib: bool, s: Engine, p: nat)
    requires Valid(vms, ib, s) && p < |s.pms|
    ensures On(s.pms[p]) <==> p in s.allocations.Values
  {
    if p in s.allocations.Values {
      var w :| w in s.allocations && s.allocations[w] == p;
      var k :| 0 <= k < |vms[w].demand| && vms[w].demand[k] > 0;
      LoadAtLeast(vms, s.allocations, p, k, |vms|, w);
      assert s.pms[p].resourcesFree[k] != s.pms[p].capacity[k];
    } else {
      forall k | 0 <= k < |vms[0].demand|
        ensures s.pms[p].resourcesFree[k] == s.pms[p].capacity[k]
      {
        LoadOfUnused(vms, s.allocations, p, k, |vms|);
      }
    }
  }

  /** In a valid state every unplaced VM can be placed on every PM it fits on. */
  lemma AllocPreHolds(vms: seq<VM>, ib: bool, s: Engine, v: nat, p: nat)
    requires Valid(vms, ib, s) && v < |vms| && v !in s.allocations && p < |s.pms| && Fits(vms[v], s.pms[p])
    ensures AllocPre(vms, ib, s, v, p)
  {
    PlacingTurnsOn(vms, ib, s, v, p);
    var q := vms[v].initialID;
    if ib {
      assert WaitingOK(vms, s, p);
      if q != p && !On(s.pms[q]) {
        assert WaitingOK(vms, s, q);
        WaitBounds(vms, s.allocations, q, |vms|, v);
      }
    }
  }

  /**
   * `allocate`'s test `!VMHandled->initialPM->isOn()`, made after reserving
   * the resources: since `p` is on by then, it holds exactly when the
   * initial PM is another PM that is off.
   */
  predicate InitialStaysOff(vms: seq<VM>, ib: bool, s: Engine, v: nat, p: nat)
    requires AllocWF(vms, ib, s, v, p)
    ensures InitialStaysOff(vms, ib, s, v, p) <==>
      ib && vms[v].initialID != p && !On(s.pms[vms[v].initialID])
    ensures InitialStaysOff(vms, ib, s, v, p) ==> 1 <= s.pms[vms[v].initialID].numAdditionalVMs <= |vms|
  {
    ib && !On(Reserve(s.pms, vms[v], p)[vms[v].initialID])
  }

  /** The PMs after `allocate(v, p)`. */
  function PMsAfterAllocate(vms: seq<VM>, ib: bool, s: Engine, v: nat, p: nat): (r: seq<PM>)
    requires AllocWF(vms, ib, s, v, p)
    ensures |r| == |s.pms|
    ensures forall x :: 0 <= x < |r| ==>
      r[x].id == s.pms[x].id && r[x].capacity == s.pms[x].capacity &&
      r[x].resourcesFree == (if x == p then SubtractDemand(s.pms[p].resourcesFree, vms[v]) else s.pms[x].resourcesFree)
    ensures forall x :: 0 <= x < |r| ==>
      r[x].numAdditionalVMs ==
        (if InitialStaysOff(vms, ib, s, v, p) && x == vms[v].initialID then s.pms[x].numAdditionalVMs - 1
         else s.pms[x].numAdditionalVMs)
  {
    var pms1 := Reserve(s.pms, vms[v], p);
    var q := vms[v].initialID;
    if InitialStaysOff(vms, ib, s, v, p) then
      pms1[q := pms1[q].(numAdditionalVMs := pms1[q].numAdditionalVMs - 1)]
    else pms1
  }

  /** `++counts[i]` (`d == 1`) or `--counts[i]` (`d == -1`). */
  function Bump(counts: seq<int>, i: int, d: int): (r: seq<int>)
    requires 0 <= i < |counts|
    ensures |r| == |counts|
    ensures forall c :: 0 <= c < |r| ==> r[c] == counts[c] + (if c == i then d else 0)
  {
    counts[i := counts[i] + d]
  }

  /** `m_additionalVMCounts` after `allocate(v, p)`. */
  function CountsAfterAllocate(vms: seq<VM>, ib: bool, s: Engine, v: nat, p: nat): (r: seq<int>)
    requires AllocWF(vms, ib, s, v, p)
    ensures |r| == |s.additionalVMCounts|
    ensures forall c :: 0 <= c < |r| ==>
      r[c] == s.additionalVMCounts[c]
        - (if ib && !On(s.pms[p]) && s.pms[p].numAdditionalVMs == c then 1 else 0)
        - (if InitialStaysOff(vms, ib, s, v, p) && s.pms[vms[v].initialID].numAdditionalVMs == c then 1 else 0)
        + (if InitialStaysOff(vms, ib, s, v, p) && s.pms[vms[v].initialID].numAdditionalVMs - 1 == c then 1 else 0)
  {
    var m := s.pms[p].numAdditionalVMs;
    var counts1 := if !On(s.pms[p]) && ib then Bump(s.additionalVMCounts, m, -1) else s.additionalVMCounts;
    if InitialStaysOff(vms, ib, s, v, p) then
      var n := s.pms[vms[v].initialID].numAdditionalVMs;
      Bump(Bump(counts1, n, -1), n - 1, 1)
    else counts1
  }

  /** `allocate(v, p)`. */
  function Allocated(vms: seq<VM>, ib: bool, s: Engine, v: nat, p: nat): (t: Engine)
    requires AllocWF(vms, ib, s, v, p)
  {
    var wasOn := On(s.pms[p]);
    var q := vms[v].initialID;
    var alloc := s.allocations[v := p];
    var pms := PMsAfterAllocate(vms, ib, s, v, p);
    var addPMs := s.numAdditionalPMs
      - (if !wasOn && ib && s.pms[p].numAdditionalVMs > 0 then 1 else 0)
      - (if InitialStaysOff(vms, ib, s, v, p) && s.pms[q].numAdditionalVMs == 1 then 1 else 0);
    var migrations := if q != -1 && p != q then s.numMigrations + 1 else s.numMigrations;
    var dnf := NoLongerFitting(vms, alloc, s.available, p, pms[p], |vms|);
    Engine(pms, Pruned(vms, alloc, s.available, p, pms[p]), s.cursor, alloc,
           if wasOn then s.numPMsOn else s.numPMsOn + 1,
           migrations, addPMs, CountsAfterAllocate(vms, ib, s, v, p),
           s.changeStack + [Change(v, p, dnf)])
  }

  // ---------------------------------------------------------------------
  // deAllocate

  /**
   * What the body of `deAllocate(v)` needs to be defined: `v` placed, an
   * undo entry to pop, and the counters it touches in range.
   */
  ghost predicate DeallocWF(vms: seq<VM>, ib: bool, s: Engine, v: nat)
  {
    v < |vms| == |s.available| && v in s.allocations && s.allocations[v] < |s.pms| &&
    |s.changeStack| > 0 && |s.additionalVMCounts| == |vms| + 1 &&
    WellShaped(s.pms[s.allocations[v]]) &&
    (ib ==>
      0 <= vms[v].initialID < |s.pms| && WellShaped(s.pms[vms[v].initialID]) &&
      0 <= s.pms[s.allocations[v]].numAdditionalVMs <= |vms| &&
      (!On(s.pms[vms[v].initialID]) ==>
        vms[v].initialID != s.allocations[v] && 0 <= s.pms[vms[v].initialID].numAdditionalVMs < |vms|))
  }

  /**
   * What `deAllocate(v)` needs: a valid state in which `v` is placed on the
   * PM of the top undo entry, and that PM is missing from the lists the entry
   * says it was erased from.
   */
  ghost predicate DeallocPre(vms: seq<VM>, ib: bool, s: Engine, v: nat)
  {
    Valid(vms, ib, s) && v in s.allocations && |s.changeStack| > 0 &&
    s.changeStack[|s.changeStack| - 1].targetPM == s.allocations[v] &&
    Erased(s.available, s.changeStack[|s.changeStack| - 1].doNotFitAnymore, s.allocations[v]) &&
    DeallocWF(vms, ib, s, v)
  }

  /** `p` is missing from the list of every VM in `dnf`. */
  ghost predicate Erased(avail: seq<seq<nat>>, dnf: seq<nat>, p: nat)
  {
    forall w :: 0 <= w < |avail| && w in dnf ==> p !in avail[w]
  }

  /** The counters `deAllocate` reads are in range in every valid state. */
  lemma DeallocPreHolds(vms: seq<VM>, ib: bool, s: Engine, v: nat)
    requires Valid(vms, ib, s) && v in s.allocations && |s.changeStack| > 0
    requires s.changeStack[|s.changeStack| - 1].targetPM == s.allocations[v]
    requires Erased(s.available, s.changeStack[|s.changeStack| - 1].doNotFitAnymore, s.allocations[v])
    ensures DeallocPre(vms, ib, s, v)
  {
    var p := s.allocations[v];
    var q := vms[v].initialID;
    OnIffHosting(vms, ib, s, p);
    if ib {
      assert WaitingOK(vms, s, p);
      if !On(s.pms[q]) {
        assert WaitingOK(vms, s, q);
        WaitBounds(vms, s.allocations, q, |vms|, v);
      }
    }
  }

  /** `deAllocate`'s test `!VMHandled->initialPM->isOn()`, made before freeing the resources. */
  predicate InitialWasOff(vms: seq<VM>, ib: bool, s: Engine, v: nat)
    requires DeallocWF(vms, ib, s, v)
    ensures InitialWasOff(vms, ib, s, v) ==>
      ib && vms[v].initialID != s.allocations[v] && 0 <= s.pms[vms[v].initialID].numAdditionalVMs < |vms|
  {
    ib && !On(s.pms[vms[v].initialID])
  }

  /** The PMs after `deAllocate(v)`. */
  function PMsAfterDeallocate(vms: seq<VM>, ib: bool, s: Engine, v: nat): (r: seq<PM>)
    requires DeallocWF(vms, ib, s, v)
    ensures |r| == |s.pms|
    ensures forall x :: 0 <= x < |r| ==>
      r[x].id == s.pms[x].id && r[x].capacity == s.pms[x].capacity &&
      r[x].resourcesFree == (if x == s.allocations[v] then AddDemand(s.pms[x].resourcesFree, vms[v]) else s.pms[x].resourcesFree)
    ensures forall x :: 0 <= x < |r| ==>
      r[x].numAdditionalVMs ==
        (if InitialWasOff(vms, ib, s, v) && x == vms[v].initialID then s.pms[x].numAdditionalVMs + 1
         else s.pms[x].numAdditionalVMs)
  {
    var q := vms[v].initialID;
    var pms1 := if InitialWasOff(vms, ib, s, v) then s.pms[q := s.pms[q].(numAdditionalVMs := s.pms[q].numAdditionalVMs + 1)]
                else s.pms;
    Release(pms1, vms[v], s.allocations[v])
  }

  /** `deAllocate`'s test `!PMCandidate->isOn()`, made after freeing the resources. */
  predicate FreedPMOff(vms: seq<VM>, ib: bool, s: Engine, v: nat)
    requires DeallocWF(vms, ib, s, v)
  {
    !On(PMsAfterDeallocate(vms, ib, s, v)[s.allocations[v]])
  }

  /** `m_additionalVMCounts` after `deAllocate(v)`. */
  function CountsAfterDeallocate(vms: seq<VM>, ib: bool, s: Engine, v: nat): (r: seq<int>)
    requires DeallocWF(vms, ib, s, v)
    ensures |r| == |s.additionalVMCounts|
    ensures forall c :: 0 <= c < |r| ==>
      r[c] == s.additionalVMCounts[c]
        - (if InitialWasOff(vms, ib, s, v) && s.pms[vms[v].initialID].numAdditionalVMs == c then 1 else 0)
        + (if InitialWasOff(vms, ib, s, v) && s.pms[vms[v].initialID].numAdditionalVMs + 1 == c then 1 else 0)
        + (if ib && FreedPMOff(vms, ib, s, v) && s.pms[s.allocations[v]].numAdditionalVMs == c then 1 else 0)
  {
    var q := vms[v].initialID;
    var counts1 :=
      if InitialWasOff(vms, ib, s, v) then
        var n := s.pms[q].numAdditionalVMs;
        Bump(Bump(s.additionalVMCounts, n, -1), n + 1, 1)
      else s.additionalVMCounts;
    var m := PMsAfterDeallocate(vms, ib, s, v)[s.allocations[v]].numAdditionalVMs;
    if FreedPMOff(vms, ib, s, v) && ib then Bump(counts1, m, 1) else counts1
  }

  /** `deAllocate(v)`. */
  function Deallocated(vms: seq<VM>, ib: bool, s: Engine, v: nat): (t: Engine)
    requires DeallocWF(vms, ib, s, v)
  {
    var p := s.allocations[v];
    var q := vms[v].initialID;
    var isOff := FreedPMOff(vms, ib, s, v);
    var addPMs := s.numAdditionalPMs
      + (if InitialWasOff(vms, ib, s, v) && s.pms[q].numAdditionalVMs == 0 then 1 else 0)
      + (if isOff && ib && s.pms[p].numAdditionalVMs > 0 then 1 else 0);
    var migrations := if q != -1 && p != q then s.numMigrations - 1 else s.numMigrations;
    var top := s.changeStack[|s.changeStack| - 1];
    Engine(PMsAfterDeallocate(vms, ib, s, v), Readded(s.available, top.doNotFitAnymore, p), s.cursor,
           s.allocations - {v}, if isOff then s.numPMsOn - 1 else s.numPMsOn,
           migrations, addPMs, CountsAfterDeallocate(vms, ib, s, v),
           s.changeStack[..|s.changeStack| - 1])
  }

  // ---------------------------------------------------------------------
  // allocate keeps the invariant

  lemma ValuesOfUpdate(m: map<nat, nat>, k: nat, x: nat)
    requires k !in m
    ensures m[k := x].Values == m.Values + {x}
  {
    forall y | y in m[k := x].Values
      ensures y in m.Values + {x}
    {
      var w :| w in m[k := x] && m[k := x][w] == y;
      if w != k {
        assert m[w] == y;
      }
    }
    forall y | y in m.Values
      ensures y in m[k := x].Values
    {
      var w :| w in m && m[w] == y;
      assert m[k := x][w] == y;
    }
    assert m[k := x][k] == x;
  }

  /** `allocate(v, p)` changes PM `p`, and the counter of the initial PM when that stays off. */
  lemma AllocatedPMs(vms: seq<VM>, ib: bool, s: Engine, v: nat, p: nat)
    requires AllocWF(vms, ib, s, v, p)
    ensures var t := Allocated(vms, ib, s, v, p);
      var q := vms[v].initialID;
      |t.pms| == |s.pms| &&
      t.pms[p] == Reserve(s.pms, vms[v], p)[p] && WellShaped(t.pms[p]) && On(t.pms[p]) &&
      (InitialStaysOff(vms, ib, s, v, p) <==> ib && q != p && !On(s.pms[q])) &&
      (InitialStaysOff(vms, ib, s, v, p) ==> t.pms[q] == s.pms[q].(numAdditionalVMs := s.pms[q].numAdditionalVMs - 1)) &&
      forall r :: 0 <= r < |s.pms| && r != p && !(InitialStaysOff(vms, ib, s, v, p) && r == q) ==> t.pms[r] == s.pms[r]
  {
  }

  lemma AllocatedKeepsShape(vms: seq<VM>, ib: bool, s: Engine, v: nat, p: nat)
    requires AllocPre(vms, ib, s, v, p)
    ensures ShapeOK(vms, Allocated(vms, ib, s, v, p))
  {
    AllocatedPMs(vms, ib, s, v, p);
  }

  lemma AllocatedKeepsLoad(vms: seq<VM>, ib: bool, s: Engine, v: nat, p: nat)
    requires AllocPre(vms, ib, s, v, p)
    ensures ShapeOK(vms, Allocated(vms, ib, s, v, p))
    ensures LoadOK(vms, Allocated(vms, ib, s, v, p))
  {
    var t := Allocated(vms, ib, s, v, p);
    AllocatedKeepsShape(vms, ib, s, v, p);
    AllocatedPMs(vms, ib, s, v, p);
    forall r, k | 0 <= r < |t.pms| && 0 <= k < |vms[0].demand|
      ensures t.pms[r].resourcesFree[k] == t.pms[r].capacity[k] - Load(vms, t.allocations, r, k, |vms|)
      ensures t.pms[r].resourcesFree[k] >= 0
    {
      LoadPlace(vms, s.allocations, v, p, r, k, |vms|);
    }
  }

  lemma AllocatedKeepsCounters(vms: seq<VM>, ib: bool, s: Engine, v: nat, p: nat)
    requires AllocPre(vms, ib, s, v, p)
    ensures CountersOK(vms, Allocated(vms, ib, s, v, p))
  {
    OnIffHosting(vms, ib, s, p);
    ValuesOfUpdate(s.allocations, v, p);
    MigPlace(vms, s.allocations, v, p, |vms|);
  }

  /** Erasing the one occurrence of `p` from a list without repetitions. */
  lemma EraseOnly(l: seq<nat>, p: nat)
    requires NoDup(l) && p in l
    ensures var r := EraseAt(l, IndexOf(l, p));
      NoDup(r) && p !in r && (forall x :: x in r ==> x in l) &&
      multiset(r + [p]) == multiset(l)
  {
    var r := EraseAt(l, IndexOf(l, p));
    assert multiset(l)[p] <= 1;
    assert p !in multiset(r);
    forall x | x in r
      ensures x in l
    {
      assert x in multiset(r);
    }
  }

  /** A PM left in the list of an unplaced VM was there before and still fits it. */
  lemma AllocatedCandidateFits(vms: seq<VM>, ib: bool, s: Engine, v: nat, p: nat, w: nat, x: nat)
    requires AllocPre(vms, ib, s, v, p) && w < |vms| && w != v && w !in s.allocations
    requires x in Allocated(vms, ib, s, v, p).available[w]
    ensures x in s.available[w] && x < |s.pms|
    ensures Fits(vms[w], Allocated(vms, ib, s, v, p).pms[x])
  {
    var t := Allocated(vms, ib, s, v, p);
    AllocatedPMs(vms, ib, s, v, p);
    assert ListOK(vms, s, w);
    var l := s.available[w];
    if PruneHere(vms, t.allocations, s.available, p, t.pms[p], w) {
      EraseOnly(l, p);
    }
    assert t.pms[x].resourcesFree == s.pms[x].resourcesFree || x == p;
  }

  /** Pruning keeps a list of PM indices below `n` free of repetitions. */
  lemma PrunedList(vms: seq<VM>, alloc: map<nat, nat>, avail: seq<seq<nat>>, p: nat, target: PM, w: nat, n: nat)
    requires w < |vms| == |avail|
    requires NoDup(avail[w]) && forall i :: 0 <= i < |avail[w]| ==> avail[w][i] < n
    ensures var r := Pruned(vms, alloc, avail, p, target)[w];
      NoDup(r) && (forall i :: 0 <= i < |r| ==> r[i] < n) && (forall x :: x in r ==> x in avail[w])
  {
    var r := Pruned(vms, alloc, avail, p, target)[w];
    if PruneHere(vms, alloc, avail, p, target, w) {
      EraseOnly(avail[w], p);
    }
    forall i | 0 <= i < |r|
      ensures r[i] < n
    {
      assert r[i] in avail[w];
    }
  }

  lemma AllocatedKeepsListOf(vms: seq<VM>, ib: bool, s: Engine, v: nat, p: nat, w: nat)
    requires AllocPre(vms, ib, s, v, p) && w < |vms|
    ensures ShapeOK(vms, Allocated(vms, ib, s, v, p))
    ensures ListOK(vms, Allocated(vms, ib, s, v, p), w)
  {
    var t := Allocated(vms, ib, s, v, p);
    AllocatedKeepsShape(vms, ib, s, v, p);
    assert ListOK(vms, s, w);
    PrunedList(vms, t.allocations, s.available, p, t.pms[p], w, |s.pms|);
    if w !in t.allocations {
      forall x | x in t.available[w]
        ensures x < |t.pms| && Fits(vms[w], t.pms[x])
      {
        AllocatedCandidateFits(vms, ib, s, v, p, w, x);
      }
    }
  }

  lemma AllocatedKeepsLists(vms: seq<VM>, ib: bool, s: Engine, v: nat, p: nat)
    requires AllocPre(vms, ib, s, v, p)
    ensures ShapeOK(vms, Allocated(vms, ib, s, v, p))
    ensures ListsOK(vms, Allocated(vms, ib, s, v, p))
  {
    AllocatedKeepsShape(vms, ib, s, v, p);
    forall w | 0 <= w < |vms|
      ensures ListOK(vms, Allocated(vms, ib, s, v, p), w)
    {
      AllocatedKeepsListOf(vms, ib, s, v, p, w);
    }
  }

  lemma StackVMsPush(cs: seq<Change>, c: Change)
    ensures StackVMs(cs + [c]) == StackVMs(cs) + {c.vmAllocated}
  {
    assert (cs + [c])[..|cs|] == cs;
  }

  /** Pushing the entry of a newly placed VM keeps the undo stack in step with the allocation. */
  lemma PushKeepsStack(vms: seq<VM>, s: Engine, t: Engine, v: nat, p: nat, dnf: seq<nat>)
    requires StackOK(vms, s) && v !in s.allocations
    requires t.allocations == s.allocations[v := p]
    requires t.changeStack == s.changeStack + [Change(v, p, dnf)]
    requires Increasing(dnf) && forall j :: 0 <= j < |dnf| ==> dnf[j] < |vms|
    ensures StackOK(vms, t)
  {
    var top := |s.changeStack|;
    StackVMsPush(s.changeStack, t.changeStack[top]);
    assert t.allocations.Keys == s.allocations.Keys + {v};
    StackVMsMembers(s.changeStack, v);
    forall i, j | 0 <= i < j < |t.changeStack|
      ensures t.changeStack[i].vmAllocated != t.changeStack[j].vmAllocated
    {
      assert t.changeStack[i] == s.changeStack[i];
      if j < top {
        assert t.changeStack[j] == s.changeStack[j];
      }
    }
    forall i | 0 <= i < |t.changeStack|
      ensures EntryOK(vms, t, i)
    {
      if i < top {
        assert EntryOK(vms, s, i);
        assert t.changeStack[i] == s.changeStack[i];
      }
    }
  }

  lemma AllocatedKeepsStack(vms: seq<VM>, ib: bool, s: Engine, v: nat, p: nat)
    requires AllocWF(vms, ib, s, v, p) && v !in s.allocations && StackOK(vms, s)
    ensures StackOK(vms, Allocated(vms, ib, s, v, p))
  {
    var t := Allocated(vms, ib, s, v, p);
    PushKeepsStack(vms, s, t, v, p, t.changeStack[|s.changeStack|].doNotFitAnymore);
  }

  lemma AllocatedKeepsWaiting(vms: seq<VM>, ib: bool, s: Engine, v: nat, p: nat)
    requires AllocWF(vms, ib, s, v, p) && v !in s.allocations && ib
    requires forall r :: 0 <= r < |s.pms| ==> WellShaped(s.pms[r]) && WaitingOK(vms, s, r)
    ensures var t := Allocated(vms, ib, s, v, p);
      forall r :: 0 <= r < |t.pms| ==> WellShaped(t.pms[r]) && WaitingOK(vms, t, r)
  {
    var t := Allocated(vms, ib, s, v, p);
    AllocatedPMs(vms, ib, s, v, p);
    forall r | 0 <= r < |t.pms|
      ensures WaitingOK(vms, t, r)
    {
      assert WaitingOK(vms, s, r);
      WaitPlace(vms, s.allocations, v, p, r, |vms|);
    }
  }

  lemma AllocatedKeepsOffCounts(vms: seq<VM>, ib: bool, s: Engine, v: nat, p: nat)
    requires AllocWF(vms, ib, s, v, p) && ib
    requires forall c :: 0 <= c <= |vms| ==> TierOK(s, c)
    ensures var t := Allocated(vms, ib, s, v, p);
      |t.additionalVMCounts| == |vms| + 1 && forall c :: 0 <= c <= |vms| ==> TierOK(t, c)
  {
    var t := Allocated(vms, ib, s, v, p);
    AllocatedPMs(vms, ib, s, v, p);
    var q := vms[v].initialID;
    var j := if InitialStaysOff(vms, ib, s, v, p) then q else p;
    forall c | 0 <= c <= |vms|
      ensures TierOK(t, c)
    {
      assert TierOK(s, c);
      AllocatedCountAt(vms, ib, s, v, p, c);
      OffCountTwo(s.pms, t.pms, p, j, c, |s.pms|);
    }
  }

  lemma AllocatedKeepsOffPositive(vms: seq<VM>, ib: bool, s: Engine, v: nat, p: nat)
    requires AllocWF(vms, ib, s, v, p) && ib && s.numAdditionalPMs == OffPositiveCount(s.pms, |s.pms|)
    ensures var t := Allocated(vms, ib, s, v, p);
      |t.pms| == |s.pms| && t.numAdditionalPMs == OffPositiveCount(t.pms, |t.pms|)
  {
    var t := Allocated(vms, ib, s, v, p);
    AllocatedPMs(vms, ib, s, v, p);
    var q := vms[v].initialID;
    var j := if InitialStaysOff(vms, ib, s, v, p) then q else p;
    OffPositiveTwo(s.pms, t.pms, p, j, |s.pms|);
  }

  lemma AllocatedKeepsBound(vms: seq<VM>, ib: bool, s: Engine, v: nat, p: nat)
    requires AllocPre(vms, ib, s, v, p)
    ensures ShapeOK(vms, Allocated(vms, ib, s, v, p))
    ensures BoundOK(vms, ib, Allocated(vms, ib, s, v, p))
  {
    AllocatedKeepsShape(vms, ib, s, v, p);
    if ib {
      AllocatedKeepsWaiting(vms, ib, s, v, p);
      AllocatedKeepsOffCounts(vms, ib, s, v, p);
      AllocatedKeepsOffPositive(vms, ib, s, v, p);
    }
  }

  /**
   * `allocate` keeps the invariant: counters, loads, candidate lists, the
   * undo stack and the intelligent-bound bookkeeping all stay consistent.
   */
  lemma AllocatedPreservesValid(vms: seq<VM>, ib: bool, s: Engine, v: nat, p: nat)
    requires AllocPre(vms, ib, s, v, p)
    ensures Valid(vms, ib, Allocated(vms, ib, s, v, p))
  {
    AllocatedKeepsLoad(vms, ib, s, v, p);
    AllocatedKeepsCounters(vms, ib, s, v, p);
    AllocatedKeepsLists(vms, ib, s, v, p);
    AllocatedKeepsStack(vms, ib, s, v, p);
    AllocatedKeepsBound(vms, ib, s, v, p);
  }

  // ---------------------------------------------------------------------
  // deAllocate undoes allocate

  /** After `allocate(v, p)`, `p` is gone from every list the new undo entry names. */
  lemma AllocatedErases(vms: seq<VM>, ib: bool, s: Engine, v: nat, p: nat)
    requires AllocPre(vms, ib, s, v, p)
    ensures var t := Allocated(vms, ib, s, v, p);
      t.changeStack[|s.changeStack|].targetPM == p &&
      Erased(t.available, t.changeStack[|s.changeStack|].doNotFitAnymore, p)
  {
    var t := Allocated(vms, ib, s, v, p);
    var dnf := t.changeStack[|s.changeStack|].doNotFitAnymore;
    forall w | 0 <= w < |t.available| && w in dnf
      ensures p !in t.available[w]
    {
      assert ListOK(vms, s, w);
      EraseOnly(s.available[w], p);
    }
  }

  /** The body of `deAllocate(v)` is defined right after `allocate(v, p)`. */
  lemma AllocatedDeallocWF(vms: seq<VM>, ib: bool, s: Engine, v: nat, p: nat)
    requires AllocWF(vms, ib, s, v, p) && v !in s.allocations
    ensures DeallocWF(vms, ib, Allocated(vms, ib, s, v, p), v)
  {
    AllocatedPMs(vms, ib, s, v, p);
  }

  /** `deAllocate(v)` may follow `allocate(v, p)`. */
  lemma AllocatedDeallocPre(vms: seq<VM>, ib: bool, s: Engine, v: nat, p: nat)
    requires AllocPre(vms, ib, s, v, p)
    ensures DeallocPre(vms, ib, Allocated(vms, ib, s, v, p), v)
  {
    AllocatedPreservesValid(vms, ib, s, v, p);
    AllocatedErases(vms, ib, s, v, p);
    AllocatedDeallocWF(vms, ib, s, v, p);
  }

  /** `deAllocate` after `allocate` restores every PM, and its two tests see the states `allocate` saw. */
  lemma RoundTripPMs(vms: seq<VM>, ib: bool, s: Engine, v: nat, p: nat)
    requires AllocWF(vms, ib, s, v, p) && v !in s.allocations
    ensures DeallocWF(vms, ib, Allocated(vms, ib, s, v, p), v)
    ensures Deallocated(vms, ib, Allocated(vms, ib, s, v, p), v).pms == s.pms
    ensures InitialWasOff(vms, ib, Allocated(vms, ib, s, v, p), v) == InitialStaysOff(vms, ib, s, v, p)
    ensures FreedPMOff(vms, ib, Allocated(vms, ib, s, v, p), v) == !On(s.pms[p])
  {
    var t := Allocated(vms, ib, s, v, p);
    AllocatedDeallocWF(vms, ib, s, v, p);
    AllocatedPMs(vms, ib, s, v, p);
    var u := Deallocated(vms, ib, t, v);
    forall x | 0 <= x < |s.pms|
      ensures u.pms[x] == s.pms[x]
    {
      if x == p {
        assert AddDemand(SubtractDemand(s.pms[p].resourcesFree, vms[v]), vms[v]) == s.pms[p].resourcesFree;
      }
    }
  }

  /** `deAllocate` after `allocate` restores every counter. */
  lemma RoundTripCounters(vms: seq<VM>, ib: bool, s: Engine, v: nat, p: nat)
    requires AllocWF(vms, ib, s, v, p) && v !in s.allocations
    ensures DeallocWF(vms, ib, Allocated(vms, ib, s, v, p), v)
    ensures var u := Deallocated(vms, ib, Allocated(vms, ib, s, v, p), v);
      u.numPMsOn == s.numPMsOn && u.numMigrations == s.numMigrations &&
      u.numAdditionalPMs == s.numAdditionalPMs
  {
    RoundTripPMs(vms, ib, s, v, p);
    AllocatedPMs(vms, ib, s, v, p);
  }

  lemma AllocatedCountAt(vms: seq<VM>, ib: bool, s: Engine, v: nat, p: nat, c: nat)
    requires AllocWF(vms, ib, s, v, p) && c < |s.additionalVMCounts|
    ensures Allocated(vms, ib, s, v, p).additionalVMCounts[c] == s.additionalVMCounts[c]
      - (if ib && !On(s.pms[p]) && s.pms[p].numAdditionalVMs == c then 1 else 0)
      - (if InitialStaysOff(vms, ib, s, v, p) && s.pms[vms[v].initialID].numAdditionalVMs == c then 1 else 0)
      + (if InitialStaysOff(vms, ib, s, v, p) && s.pms[vms[v].initialID].numAdditionalVMs - 1 == c then 1 else 0)
  {
    assert Allocated(vms, ib, s, v, p).additionalVMCounts == CountsAfterAllocate(vms, ib, s, v, p);
  }

  lemma DeallocatedCountAt(vms: seq<VM>, ib: bool, s: Engine, v: nat, c: nat)
    requires DeallocWF(vms, ib, s, v) && c < |s.additionalVMCounts|
    ensures Deallocated(vms, ib, s, v).additionalVMCounts[c] == s.additionalVMCounts[c]
      - (if InitialWasOff(vms, ib, s, v) && s.pms[vms[v].initialID].numAdditionalVMs == c then 1 else 0)
      + (if InitialWasOff(vms, ib, s, v) && s.pms[vms[v].initialID].numAdditionalVMs + 1 == c then 1 else 0)
      + (if ib && FreedPMOff(vms, ib, s, v) && s.pms[s.allocations[v]].numAdditionalVMs == c then 1 else 0)
  {
    assert Deallocated(vms, ib, s, v).additionalVMCounts == CountsAfterDeallocate(vms, ib, s, v);
  }

  lemma RoundTripCountAt(vms: seq<VM>, ib: bool, s: Engine, v: nat, p: nat, c: nat)
    requires AllocWF(vms, ib, s, v, p) && v !in s.allocations && c < |s.additionalVMCounts|
    ensures DeallocWF(vms, ib, Allocated(vms, ib, s, v, p), v)
    ensures Deallocated(vms, ib, Allocated(vms, ib, s, v, p), v).additionalVMCounts[c] == s.additionalVMCounts[c]
  {
    var t := Allocated(vms, ib, s, v, p);
    RoundTripPMs(vms, ib, s, v, p);
    assert t.pms == PMsAfterAllocate(vms, ib, s, v, p);
    assert t.allocations[v] == p;
    AllocatedCountAt(vms, ib, s, v, p, c);
    DeallocatedCountAt(vms, ib, t, v, c);
  }

  lemma RoundTripVMCounts(vms: seq<VM>, ib: bool, s: Engine, v: nat, p: nat)
    requires AllocWF(vms, ib, s, v, p) && v !in s.allocations
    ensures DeallocWF(vms, ib, Allocated(vms, ib, s, v, p), v)
    ensures Deallocated(vms, ib, Allocated(vms, ib, s, v, p), v).additionalVMCounts == s.additionalVMCounts
  {
    AllocatedDeallocWF(vms, ib, s, v, p);
    var u := Deallocated(vms, ib, Allocated(vms, ib, s, v, p), v);
    forall c | 0 <= c < |s.additionalVMCounts|
      ensures u.additionalVMCounts[c] == s.additionalVMCounts[c]
    {
      RoundTripCountAt(vms, ib, s, v, p, c);
    }
  }

  /** `deAllocate` after `allocate` puts `p` back at the end of each list it was erased from. */
  lemma RoundTripLists(vms: seq<VM>, ib: bool, s: Engine, v: nat, p: nat)
    requires AllocWF(vms, ib, s, v, p) && v !in s.allocations
    ensures DeallocWF(vms, ib, Allocated(vms, ib, s, v, p), v)
    ensures var target := Allocated(vms, ib, s, v, p).pms[p];
      var u := Deallocated(vms, ib, Allocated(vms, ib, s, v, p), v);
      |u.available| == |s.available| && u.cursor == s.cursor &&
      forall w :: 0 <= w < |vms| ==>
        u.available[w] ==
          if PruneHere(vms, s.allocations[v := p], s.available, p, target, w)
          then EraseAt(s.available[w], IndexOf(s.available[w], p)) + [p]
          else s.available[w]
  {
    AllocatedDeallocWF(vms, ib, s, v, p);
  }

  /** `deAllocate` after `allocate` restores the allocation, the undo stack and the cursors. */
  lemma RoundTripStack(vms: seq<VM>, ib: bool, s: Engine, v: nat, p: nat)
    requires AllocWF(vms, ib, s, v, p) && v !in s.allocations
    ensures DeallocWF(vms, ib, Allocated(vms, ib, s, v, p), v)
    ensures var u := Deallocated(vms, ib, Allocated(vms, ib, s, v, p), v);
      u.allocations == s.allocations && u.changeStack == s.changeStack && u.cursor == s.cursor
  {
    AllocatedDeallocWF(vms, ib, s, v, p);
    var t := Allocated(vms, ib, s, v, p);
    assert t.allocations - {v} == s.allocations;
    assert t.changeStack[..|t.changeStack| - 1] == s.changeStack;
  }

  /** Erasing `p` and appending it again leaves the same elements. */
  lemma MoveToEndSameElements(l: seq<nat>, p: nat)
    requires p in l
    ensures multiset(EraseAt(l, IndexOf(l, p)) + [p]) == multiset(l)
  {
    assert l[IndexOf(l, p)] == p;
  }

  /** After the round trip every list holds the PMs it held before, and placed VMs' lists are untouched. */
  lemma RoundTripSameCandidates(vms: seq<VM>, ib: bool, s: Engine, v: nat, p: nat)
    requires AllocWF(vms, ib, s, v, p) && v !in s.allocations
    ensures DeallocWF(vms, ib, Allocated(vms, ib, s, v, p), v)
    ensures var u := Deallocated(vms, ib, Allocated(vms, ib, s, v, p), v);
      |u.available| == |s.available| &&
      (forall w :: 0 <= w < |s.available| ==> multiset(u.available[w]) == multiset(s.available[w])) &&
      (forall w :: 0 <= w < |s.available| && w in s.allocations ==> u.available[w] == s.available[w])
  {
    RoundTripLists(vms, ib, s, v, p);
    var t := Allocated(vms, ib, s, v, p);
    var u := Deallocated(vms, ib, t, v);
    forall w | 0 <= w < |vms|
      ensures multiset(u.available[w]) == multiset(s.available[w])
    {
      if PruneHere(vms, s.allocations[v := p], s.available, p, t.pms[p], w) {
        MoveToEndSameElements(s.available[w], p);
      }
    }
  }

  /**
   * `deAllocate(v)` undoes `allocate(v, p)`: the PMs, the allocation, the
   * counters, the undo stack and the cursors are back to what they were,
   * and each candidate list holds the same PMs as before.
   */
  lemma RoundTrip(vms: seq<VM>, ib: bool, s: Engine, v: nat, p: nat)
    requires AllocWF(vms, ib, s, v, p) && v !in s.allocations
    ensures DeallocWF(vms, ib, Allocated(vms, ib, s, v, p), v)
    ensures var u := Deallocated(vms, ib, Allocated(vms, ib, s, v, p), v);
      u.pms == s.pms && u.allocations == s.allocations &&
      u.numPMsOn == s.numPMsOn && u.numMigrations == s.numMigrations &&
      u.numAdditionalPMs == s.numAdditionalPMs && u.additionalVMCounts == s.additionalVMCounts &&
      u.changeStack == s.changeStack && u.cursor == s.cursor
    ensures Similar(Deallocated(vms, ib, Allocated(vms, ib, s, v, p), v), s)
  {
    RoundTripPMs(vms, ib, s, v, p);
    RoundTripCounters(vms, ib, s, v, p);
    RoundTripVMCounts(vms, ib, s, v, p);
    RoundTripStack(vms, ib, s, v, p);
    RoundTripSameCandidates(vms, ib, s, v, p);
  }
}
