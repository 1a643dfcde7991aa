/**
 * The greedy allocator (GreedyAllocator.h, GreedyAllocator.cpp): every VM
 * starts on its initial PM; overloaded PMs are relieved one VM at a time,
 * then PMs with few VMs are emptied while the migration budget lasts.
 *
 * PMs and VMs are indices. `m_vms_of_pms` and `m_load_of_pms`, maps keyed by
 * PM pointer, are sequences indexed by PM; `m_pms` is a sequence of PM
 * indices re-sorted in place. A `std::set<VM*>` is iterated in address
 * order, which for VMs stored in one vector is index order, so sets of VM
 * indices are walked from the smallest up. The ghost map `host` names, for
 * every VM, the PM whose set holds it.
 */
module Greedy {
  import opened Wrappers
  import opened Params
  import opened CInt
  import opened Machines
  import opened Sorting
  import BnBState

  // ---------------------------------------------------------------------
  // Problem and state

  /**
   * The problem the allocator accepts: VMs of one non-zero dimension, each
   * with an initial PM (the constructor dereferences it), and PMs with
   * non-negative capacity in every dimension (an overloaded PM then hosts a
   * VM, whose `*begin()` the relief loop takes).
   */
  ghost predicate ProblemOK(vms: seq<VM>, pms: seq<PM>)
  {
    |vms| > 0 && |vms[0].demand| > 0 &&
    (forall w :: 0 <= w < |vms| ==> |vms[w].demand| == |vms[0].demand| && 0 <= vms[w].initialID < |pms|) &&
    (forall p :: 0 <= p < |pms| ==> |pms[p].capacity| >= |vms[0].demand|) &&
    (forall p, k :: 0 <= p < |pms| && 0 <= k < |pms[p].capacity| ==> pms[p].capacity[k] >= 0)
  }

  /** The PM indices in order. */
  function Indices(n: nat): (r: seq<nat>)
    ensures |r| == n && forall i :: 0 <= i < n ==> r[i] == i
  {
    seq(n, i requires 0 <= i => i)
  }

  /** Demand in dimension `k` of the VMs `host` places on PM `p`. */
  function LoadOn(vms: seq<VM>, host: map<nat, nat>, p: nat, k: nat): int
  {
    BnBState.Load(vms, host, p, k, |vms|)
  }

  /**
   * `host` places every VM on a PM, `vmsOf[p]` is the set of VMs it places
   * on `p`, and `loadOf[p]` their total demand in every dimension.
   */
  ghost predicate Hosting(vms: seq<VM>, pms: seq<PM>, host: map<nat, nat>, vmsOf: seq<set<nat>>, loadOf: seq<seq<int>>)
    requires |vms| > 0
  {
    |vmsOf| == |pms| && |loadOf| == |pms| &&
    (forall w: nat :: w in host <==> w < |vms|) &&
    (forall w :: w in host ==> host[w] < |pms|) &&
    (forall p: nat, w: nat :: p < |pms| ==> (w in vmsOf[p] <==> w in host && host[w] == p)) &&
    (forall p :: 0 <= p < |pms| ==> |loadOf[p]| == |vms[0].demand|) &&
    (forall p, k :: 0 <= p < |pms| && 0 <= k < |vms[0].demand| ==> loadOf[p][k] == LoadOn(vms, host, p, k))
  }

  /** Sum of `loadOf[p][k]` over the first `n` PMs. */
  function ColumnSum(loadOf: seq<seq<int>>, k: nat, n: nat): int
    requires n <= |loadOf| && forall p :: 0 <= p < |loadOf| ==> k < |loadOf[p]|
  {
    if n == 0 then 0 else ColumnSum(loadOf, k, n - 1) + loadOf[n - 1][k]
  }

  /**
   * Moving demand `d` from PM `p1` to PM `p2` (possibly the same) leaves the
   * total load in dimension `k` unchanged.
   */
  lemma {:induction false} MoveKeepsTotal(a: seq<seq<int>>, b: seq<seq<int>>, p1: nat, p2: nat, k: nat, d: int, n: nat)
    requires |a| == |b| && n <= |a| && p1 < |a| && p2 < |a|
    requires forall p :: 0 <= p < |a| ==> k < |a[p]| && k < |b[p]|
    requires forall p :: 0 <= p < |a| ==>
      b[p][k] == a[p][k] - (if p == p1 then d else 0) + (if p == p2 then d else 0)
    ensures ColumnSum(b, k, n) == ColumnSum(a, k, n) - (if p1 < n then d else 0) + (if p2 < n then d else 0)
  {
    if n > 0 {
      MoveKeepsTotal(a, b, p1, p2, k, d, n - 1);
    }
  }

  /** Moving VM `w` from its PM to `p2` moves its demand and nothing else. */
  lemma LoadMove(vms: seq<VM>, host: map<nat, nat>, w: nat, p2: nat, q: nat, k: nat)
    requires w in host && w < |vms|
    ensures LoadOn(vms, host[w := p2], q, k) ==
      LoadOn(vms, host, q, k) - (if q == host[w] then BnBState.DemandAt(vms[w], k) else 0)
        + (if q == p2 then BnBState.DemandAt(vms[w], k) else 0)
  {
    var rest := host - {w};
    assert rest[w := host[w]] == host;
    assert rest[w := p2] == host[w := p2];
    BnBState.LoadPlace(vms, rest, w, host[w], q, k, |vms|);
    BnBState.LoadPlace(vms, rest, w, p2, q, k, |vms|);
  }

  /** A PM with a non-zero load hosts some VM. */
  lemma LoadedHostsVM(vms: seq<VM>, host: map<nat, nat>, p: nat, k: nat)
    requires forall w :: w in host ==> w < |vms|
    requires LoadOn(vms, host, p, k) != 0
    ensures exists w :: w in host && host[w] == p
  {
    if !exists w :: w in host && host[w] == p {
      assert p !in host.Values;
      BnBState.LoadOfUnused(vms, host, p, k, |vms|);
    }
  }

  // ---------------------------------------------------------------------
  // The two PM orders

  /**
   * `pm_less_guazz(a, b)`: `a` hosts VMs and `b` does not, or both or
   * neither do and `a` has the higher load in dimension 0.
   */
  predicate GuazzBefore(vmsOf: seq<set<nat>>, loadOf: seq<seq<int>>, a: nat, b: nat)
    requires a < |vmsOf| && b < |vmsOf| && a < |loadOf| && b < |loadOf| && |loadOf[a]| > 0 && |loadOf[b]| > 0
  {
    if vmsOf[a] == {} && vmsOf[b] != {} then false
    else if vmsOf[b] == {} && vmsOf[a] != {} then true
    else if loadOf[a][0] < loadOf[b][0] then false
    else if loadOf[a][0] > loadOf[b][0] then true
    else false
  }

  lemma GuazzRanks(vmsOf: seq<set<nat>>, loadOf: seq<seq<int>>, a: nat, b: nat)
    requires a < |vmsOf| && b < |vmsOf| && a < |loadOf| && b < |loadOf| && |loadOf[a]| > 0 && |loadOf[b]| > 0
    ensures GuazzBefore(vmsOf, loadOf, a, b) <==>
      (vmsOf[a] != {} && vmsOf[b] == {}) ||
      ((vmsOf[a] == {}) == (vmsOf[b] == {}) && loadOf[a][0] > loadOf[b][0])
  {
  }

  /** PM indices the comparators can look up. */
  ghost predicate InRange(l: seq<nat>, vmsOf: seq<set<nat>>, loadOf: seq<seq<int>>)
  {
    forall x :: x in l ==> x < |vmsOf| && x < |loadOf| && |loadOf[x]| > 0
  }

  function GuazzLess(vmsOf: seq<set<nat>>, loadOf: seq<seq<int>>): (nat, nat) --> bool
  {
    (a: nat, b: nat) requires a < |vmsOf| && b < |vmsOf| && a < |loadOf| && b < |loadOf| && |loadOf[a]| > 0 && |loadOf[b]| > 0 =>
      GuazzBefore(vmsOf, loadOf, a, b)
  }

  /** `pm_less_guazz` is a strict order, as `std::sort` needs. */
  lemma GuazzIsStrict(vmsOf: seq<set<nat>>, loadOf: seq<seq<int>>, l: seq<nat>)
    requires InRange(l, vmsOf, loadOf)
    ensures Defined(l, GuazzLess(vmsOf, loadOf)) && StrictOn(l, GuazzLess(vmsOf, loadOf))
  {
    var less := GuazzLess(vmsOf, loadOf);
    forall x, y, z | x in l && y in l && z in l
      ensures !less(x, x)
      ensures less(x, y) && less(y, z) ==> less(x, z)
    {
      GuazzRanks(vmsOf, loadOf, x, y);
      GuazzRanks(vmsOf, loadOf, y, z);
      GuazzRanks(vmsOf, loadOf, x, z);
    }
  }

  /** `pm_less_numvm(a, b)`: `a` hosts fewer VMs than `b`. */
  function NumVMLess(vmsOf: seq<set<nat>>): (nat, nat) --> bool
  {
    (a: nat, b: nat) requires a < |vmsOf| && b < |vmsOf| => |vmsOf[a]| < |vmsOf[b]|
  }

  lemma NumVMIsStrict(vmsOf: seq<set<nat>>, l: seq<nat>)
    requires forall x :: x in l ==> x < |vmsOf|
    ensures Defined(l, NumVMLess(vmsOf)) && StrictOn(l, NumVMLess(vmsOf))
  {
  }

  // ---------------------------------------------------------------------
  // First fit over the current order

  /** `vm` fits on `pm` on top of the load `load`, in the first `dim` dimensions. */
  predicate FitsWithLoad(vm: VM, pm: PM, load: seq<int>, dim: nat)
    requires dim <= |vm.demand| && dim <= |pm.capacity| && dim <= |load|
  {
    forall k :: 0 <= k < dim ==> load[k] + vm.demand[k] <= pm.capacity[k]
  }

  /** Every PM index in `order` names a PM with at least `dim` dimensions of capacity and of load. */
  ghost predicate Lookups(order: seq<nat>, pms: seq<PM>, loadOf: seq<seq<int>>, dim: nat)
  {
    |loadOf| == |pms| &&
    forall i :: 0 <= i < |order| ==> order[i] < |pms| && dim <= |pms[order[i]].capacity| && dim <= |loadOf[order[i]]|
  }

  /** The first PM of `order` from position `i` on that `vm` fits on with its current load, if any. */
  function FirstFit(vm: VM, pms: seq<PM>, loadOf: seq<seq<int>>, dim: nat, order: seq<nat>, i: nat): (r: Option<nat>)
    requires dim <= |vm.demand| && |loadOf| == |pms|
    requires Lookups(order, pms, loadOf, dim)
    ensures r.Some? ==> exists j :: (i <= j < |order| && order[j] == r.value && FitsWithLoad(vm, pms[r.value], loadOf[r.value], dim) &&
      forall j' :: i <= j' < j ==> !FitsWithLoad(vm, pms[order[j']], loadOf[order[j']], dim))
    ensures r.None? ==> forall j :: i <= j < |order| ==> !FitsWithLoad(vm, pms[order[j]], loadOf[order[j]], dim)
    decreases |order| - i
  {
    if i >= |order| then None
    else if FitsWithLoad(vm, pms[order[i]], loadOf[order[i]], dim) then Some(order[i])
    else FirstFit(vm, pms, loadOf, dim, order, i + 1)
  }

  /**
   * The same scan skipping `own`, the PM the VM is on: the search as it was
   * evidently meant, which never "migrates" a VM onto its own PM (see
   * `OwnPMChosen`). The allocator below runs the scan as written.
   */
  function FirstFitElsewhere(vm: VM, pms: seq<PM>, loadOf: seq<seq<int>>, dim: nat, order: seq<nat>, own: nat, i: nat): (r: Option<nat>)
    requires dim <= |vm.demand| && Lookups(order, pms, loadOf, dim)
    ensures r.Some? ==> r.value != own && exists j :: (i <= j < |order| && order[j] == r.value && FitsWithLoad(vm, pms[r.value], loadOf[r.value], dim) &&
      forall j' :: i <= j' < j && order[j'] != own ==> !FitsWithLoad(vm, pms[order[j']], loadOf[order[j']], dim))
    ensures r.None? ==> forall j :: i <= j < |order| && order[j] != own ==> !FitsWithLoad(vm, pms[order[j]], loadOf[order[j]], dim)
    decreases |order| - i
  {
    if i >= |order| then None
    else if order[i] != own && FitsWithLoad(vm, pms[order[i]], loadOf[order[i]], dim) then Some(order[i])
    else FirstFitElsewhere(vm, pms, loadOf, dim, order, own, i + 1)
  }

  /**
   * When the VM does not fit on its own PM with that PM's current load (as
   * on an overloaded PM when demands are non-negative), skipping the own PM
   * changes nothing: the correction leaves the relief phase as it is.
   */
  lemma {:induction false} ElsewhereAgrees(vm: VM, pms: seq<PM>, loadOf: seq<seq<int>>, dim: nat, order: seq<nat>, own: nat, i: nat)
    requires dim <= |vm.demand| && Lookups(order, pms, loadOf, dim)
    requires own < |pms| && dim <= |pms[own].capacity| && dim <= |loadOf[own]| && !FitsWithLoad(vm, pms[own], loadOf[own], dim)
    ensures FirstFitElsewhere(vm, pms, loadOf, dim, order, own, i) == FirstFit(vm, pms, loadOf, dim, order, i)
    decreases |order| - i
  {
    if i < |order| {
      ElsewhereAgrees(vm, pms, loadOf, dim, order, own, i + 1);
    }
  }

  /**
   * `find_pm_for_vm` as written can return the PM the VM is already on.
   * PM 0 hosts VM 0 (demand 5), PM 1 hosts VMs 1 and 2 (demand 1 each),
   * both with capacity 100; sorted by `pm_less_guazz` the order is [0, 1],
   * and the scan picks PM 0 for VM 0. Consolidating PM 0 then "migrates" VM
   * 0 onto itself, counting a migration and leaving two PMs on, where
   * moving it to PM 1 would have switched PM 0 off.
   */
  lemma OwnPMChosen()
    ensures var vms := [VM(0, [5], 0), VM(1, [1], 1), VM(2, [1], 1)];
      var pms := [PM(0, 0, [100], [100]), PM(1, 0, [100], [100])];
      var vmsOf := [{0}, {1, 2}];
      var loadOf := [[5], [2]];
      GuazzBefore(vmsOf, loadOf, 0, 1) &&
      LoadOn(vms, map[0 := 0, 1 := 1, 2 := 1], 0, 0) == 5 &&
      LoadOn(vms, map[0 := 0, 1 := 1, 2 := 1], 1, 0) == 2 &&
      FirstFit(vms[0], pms, loadOf, 1, [0, 1], 0) == Some(0) &&
      FirstFitElsewhere(vms[0], pms, loadOf, 1, [0, 1], 0, 0) == Some(1)
  {
    var vms := [VM(0, [5], 0), VM(1, [1], 1), VM(2, [1], 1)];
    var pms := [PM(0, 0, [100], [100]), PM(1, 0, [100], [100])];
    var loadOf := [[5], [2]];
    var host := map[0 := 0, 1 := 1, 2 := 1];
    assert FitsWithLoad(vms[0], pms[0], loadOf[0], 1);
    assert FitsWithLoad(vms[0], pms[1], loadOf[1], 1);
    assert GuazzBefore([{0}, {1, 2}], loadOf, 0, 1);
    assert BnBState.Load(vms, host, 0, 0, 1) == 5;
    assert BnBState.Load(vms, host, 0, 0, 2) == 5;
    assert BnBState.Load(vms, host, 0, 0, 3) == 5;
    assert BnBState.Load(vms, host, 1, 0, 1) == 0;
    assert BnBState.Load(vms, host, 1, 0, 2) == 1;
    assert BnBState.Load(vms, host, 1, 0, 3) == 2;
    assert FirstFit(vms[0], pms, loadOf, 1, [0, 1], 0) == Some(0);
    assert FirstFitElsewhere(vms[0], pms, loadOf, 1, [0, 1], 0, 0) == Some(1);
  }

  /** The VMs `host` places, as `m_bestAllocation` records them. */
  function PMsInUse(vmsOf: seq<set<nat>>): (r: set<nat>)
    ensures forall p: nat :: p in r <==> p < |vmsOf| && vmsOf[p] != {}
  {
    set p | 0 <= p < |vmsOf| && vmsOf[p] != {}
  }

  /** `*s.begin()` for a `std::set` of VMs: the smallest index. */
  method Smallest(s: set<nat>) returns (m: nat)
    requires s != {}
    ensures m in s && forall x :: x in s ==> m <= x
    ensures m == SetMin(s)
  {
    m :| m in s;
    var rest := s - {m};
    while rest != {}
      invariant m in s && rest <= s
      invariant forall x :: x in s && x !in rest ==> m <= x
      decreases |rest|
    {
      var y :| y in rest;
      if y < m {
        m := y;
      }
      rest := rest - {y};
    }
  }

  /**
   * The constructor's loop over the VMs: each is put in the set of its
   * initial PM and its demand added to that PM's load.
   */
  method InitialHosting(vms: seq<VM>, pms: seq<PM>)
    returns (vmsOf: seq<set<nat>>, loadOf: seq<seq<int>>, ghost host: map<nat, nat>)
    requires ProblemOK(vms, pms)
    ensures Hosting(vms, pms, host, vmsOf, loadOf)
    ensures forall w :: 0 <= w < |vms| ==> host[w] == vms[w].initialID
  {
    var dim := |vms[0].demand|;
    vmsOf := seq(|pms|, _ => {});
    loadOf := seq(|pms|, _ => seq(dim, _ => 0));
    host := map[];
    forall p, k | 0 <= p < |pms| && 0 <= k < dim
      ensures loadOf[p][k] == BnBState.Load(vms, host, p, k, |vms|)
    {
      BnBState.LoadOfUnused(vms, host, p, k, |vms|);
    }
    var w := 0;
    while w < |vms|
      invariant w <= |vms| && |vmsOf| == |pms| && |loadOf| == |pms|
      invariant forall u: nat :: u in host <==> u < w
      invariant forall u :: 0 <= u < w ==> host[u] == vms[u].initialID
      invariant forall p, u :: 0 <= p < |pms| ==> (u in vmsOf[p] <==> u in host && host[u] == p)
      invariant forall p :: 0 <= p < |pms| ==> |loadOf[p]| == dim
      invariant forall p, k :: 0 <= p < |pms| && 0 <= k < dim ==> loadOf[p][k] == BnBState.Load(vms, host, p, k, |vms|)
    {
      var q := vms[w].initialID;
      vmsOf := vmsOf[q := vmsOf[q] + {w}];
      var load := loadOf[q];
      var k := 0;
      while k < dim
        invariant k <= dim && |load| == dim
        invariant forall j :: 0 <= j < dim ==> load[j] == loadOf[q][j] + (if j < k then vms[w].demand[j] else 0)
      {
        load := load[k := load[k] + vms[w].demand[k]];
        k := k + 1;
      }
      forall p, j | 0 <= p < |pms| && 0 <= j < dim
        ensures BnBState.Load(vms, host[w := q], p, j, |vms|) ==
          BnBState.Load(vms, host, p, j, |vms|) + (if p == q then vms[w].demand[j] else 0)
      {
        BnBState.LoadPlace(vms, host, w, q, p, j, |vms|);
      }
      loadOf := loadOf[q := load];
      host := host[w := q];
      w := w + 1;
    }
  }

  /**
   * The loop of `migrate` over the dimensions: demand `d` subtracted from
   * row `p1` and added to row `p2`, dimension by dimension.
   */
  method MoveDemand(loadOf: seq<seq<int>>, p1: nat, p2: nat, d: seq<int>, dim: nat) returns (loads: seq<seq<int>>)
    requires p1 < |loadOf| && p2 < |loadOf| && dim <= |d|
    requires forall p :: 0 <= p < |loadOf| ==> |loadOf[p]| == dim
    ensures |loads| == |loadOf| && forall p :: 0 <= p < |loads| ==> |loads[p]| == dim
    ensures forall p, j {:trigger loads[p][j]} :: 0 <= p < |loads| && 0 <= j < dim ==>
      loads[p][j] == loadOf[p][j] - (if p == p1 then d[j] else 0) + (if p == p2 then d[j] else 0)
  {
    loads := loadOf;
    var k := 0;
    while k < dim
      invariant k <= dim && |loads| == |loadOf|
      invariant forall p :: 0 <= p < |loads| ==> |loads[p]| == dim
      invariant forall p, j {:trigger loads[p][j]} :: 0 <= p < |loads| && 0 <= j < dim ==>
        loads[p][j] == loadOf[p][j] - (if j < k && p == p1 then d[j] else 0) + (if j < k && p == p2 then d[j] else 0)
    {
      loads := loads[p1 := loads[p1][k := loads[p1][k] - d[k]]];
      loads := loads[p2 := loads[p2][k := loads[p2][k] + d[k]]];
      k := k + 1;
    }
  }

  /** The inner loop recording a result: every VM of `s` noted as placed on `p`. */
  method RecordSet(alloc: map<nat, nat>, s: set<nat>, p: nat) returns (r: map<nat, nat>)
    ensures forall w :: w in r <==> w in alloc || w in s
    ensures forall w :: w in r ==> r[w] == if w in s then p else alloc[w]
  {
    r := alloc;
    var rest := s;
    while rest != {}
      invariant rest <= s
      invariant forall w :: w in r <==> w in alloc || (w in s && w !in rest)
      invariant forall w :: w in r ==> r[w] == if w in s && w !in rest then p else alloc[w]
      decreases |rest|
    {
      var w :| w in rest;
      r := r[w := p];
      rest := rest - {w};
    }
  }

  // ---------------------------------------------------------------------
  // The run as functions of the state

  /**
   * What `solve` changes: the order of `m_pms`, the PM each VM is on (which
   * fixes `m_vms_of_pms` and `m_load_of_pms`, see `HostingIs`) and
   * `m_numMigrations`.
   */
  datatype Snapshot = Snapshot(order: seq<nat>, host: map<nat, nat>, migrations: int)

  /** `m_vms_of_pms` for the placement `host` of the VMs on `n` PMs. */
  ghost function VmsOf(host: map<nat, nat>, n: nat): (r: seq<set<nat>>)
    ensures |r| == n
    ensures forall p, w :: 0 <= p < n ==> (w in r[p] <==> w in host && host[w] == p)
  {
    seq(n, p requires 0 <= p < n => set w | w in host && host[w] == p)
  }

  /** `m_load_of_pms` for the placement `host`: each PM's load in each of `dim` dimensions. */
  ghost function LoadsOf(vms: seq<VM>, host: map<nat, nat>, n: nat, dim: nat): (r: seq<seq<int>>)
    ensures |r| == n && forall p :: 0 <= p < n ==> |r[p]| == dim
    ensures forall p, k :: 0 <= p < n && 0 <= k < dim ==> r[p][k] == LoadOn(vms, host, p, k)
  {
    seq(n, p requires 0 <= p < n => seq(dim, k requires 0 <= k < dim => LoadOn(vms, host, p, k)))
  }

  /** The sets and loads the allocator keeps are those of its placement. */
  lemma HostingIs(vms: seq<VM>, pms: seq<PM>, host: map<nat, nat>, vmsOf: seq<set<nat>>, loadOf: seq<seq<int>>)
    requires ProblemOK(vms, pms) && Hosting(vms, pms, host, vmsOf, loadOf)
    ensures vmsOf == VmsOf(host, |pms|)
    ensures loadOf == LoadsOf(vms, host, |pms|, |vms[0].demand|)
  {
    var sets := VmsOf(host, |pms|);
    var loads := LoadsOf(vms, host, |pms|, |vms[0].demand|);
    forall p | 0 <= p < |pms|
      ensures vmsOf[p] == sets[p] && loadOf[p] == loads[p]
    {
      assert forall w :: w in vmsOf[p] <==> w in sets[p];
    }
  }

  /** A state the allocator can be in: a permutation of the PMs as `m_pms`, and every VM on a PM. */
  ghost predicate StateOK(vms: seq<VM>, pms: seq<PM>, s: Snapshot)
  {
    ProblemOK(vms, pms) &&
    multiset(s.order) == multiset(Indices(|pms|)) &&
    (forall w: nat :: w in s.host <==> w < |vms|) &&
    (forall w :: w in s.host ==> s.host[w] < |pms|)
  }

  /** A permutation of `m_pms` names PMs that the comparators and the fit test can look up. */
  lemma LookupsOf(vms: seq<VM>, pms: seq<PM>, s: Snapshot, o: seq<nat>)
    requires StateOK(vms, pms, s) && multiset(o) == multiset(s.order)
    ensures Lookups(o, pms, LoadsOf(vms, s.host, |pms|, |vms[0].demand|), |vms[0].demand|)
    ensures InRange(o, VmsOf(s.host, |pms|), LoadsOf(vms, s.host, |pms|, |vms[0].demand|))
  {
    forall x | x in o
      ensures x < |pms|
    {
      assert x in multiset(o);
      InIndices(|pms|, x);
    }
    forall i | 0 <= i < |o|
      ensures o[i] < |pms|
    {
      assert o[i] in o;
    }
  }

  /** The least VM of a non-empty set: where iteration over a `std::set<VM*>` starts. */
  ghost function SetMin(s: set<nat>): (m: nat)
    requires s != {}
    ensures m in s && forall y :: y in s ==> m <= y
    decreases s
  {
    var x :| x in s;
    var rest := s - {x};
    assert forall y :: y in s ==> y == x || y in rest;
    if rest == {} then x
    else
      var m := SetMin(rest);
      if x < m then x else m
  }

  /** `m_pms` after the `std::sort` by `pm_less_guazz` that `find_pm_for_vm` starts with. */
  ghost function GuazzOrder(vms: seq<VM>, pms: seq<PM>, s: Snapshot): (r: seq<nat>)
    requires StateOK(vms, pms, s)
    ensures multiset(r) == multiset(s.order)
    ensures forall i :: 0 <= i < |r| ==> r[i] < |pms|
  {
    var vmsOf := VmsOf(s.host, |pms|);
    var loadOf := LoadsOf(vms, s.host, |pms|, |vms[0].demand|);
    LookupsOf(vms, pms, s, s.order);
    GuazzIsStrict(vmsOf, loadOf, s.order);
    var r := SortBy(s.order, GuazzLess(vmsOf, loadOf));
    LookupsOf(vms, pms, s, r);
    r
  }

  /** `GuazzOrder` is sorted by `pm_less_guazz` over the state's sets and loads. */
  lemma GuazzOrderSorted(vms: seq<VM>, pms: seq<PM>, s: Snapshot)
    requires StateOK(vms, pms, s)
    ensures var less := GuazzLess(VmsOf(s.host, |pms|), LoadsOf(vms, s.host, |pms|, |vms[0].demand|));
      Defined(GuazzOrder(vms, pms, s), less) && SortedBy(GuazzOrder(vms, pms, s), less)
  {
    LookupsOf(vms, pms, s, s.order);
    GuazzIsStrict(VmsOf(s.host, |pms|), LoadsOf(vms, s.host, |pms|, |vms[0].demand|), s.order);
  }

  /**
   * `find_pm_for_vm(w)` in state `s`: the first PM of the re-sorted `m_pms`
   * that `w` fits on with the current loads, its own PM included.
   */
  ghost function Target(vms: seq<VM>, pms: seq<PM>, s: Snapshot, w: nat): (r: Option<nat>)
    requires StateOK(vms, pms, s) && w < |vms|
    ensures r.Some? ==> r.value < |pms|
  {
    var o := GuazzOrder(vms, pms, s);
    LookupsOf(vms, pms, s, o);
    FirstFit(vms[w], pms, LoadsOf(vms, s.host, |pms|, |vms[0].demand|), |vms[0].demand|, o, 0)
  }

  /** `migrate(w, _, t)`: `w` is now on `t`, and one more migration is counted. */
  function Migrated(s: Snapshot, w: nat, t: nat): Snapshot
  {
    Snapshot(s.order, s.host[w := t], s.migrations + 1)
  }

  /**
   * The inner loop of consolidation over the VMs `rest` not handled yet:
   * the smallest goes to `find_pm_for_vm`'s PM, until none is left or one
   * fits nowhere (`m_pms` is still re-sorted for that one).
   */
  ghost function EmptyF(vms: seq<VM>, pms: seq<PM>, s: Snapshot, rest: set<nat>): (r: Snapshot)
    requires StateOK(vms, pms, s) && forall w :: w in rest ==> w < |vms|
    ensures StateOK(vms, pms, r)
    decreases rest
  {
    if rest == {} then s
    else
      var w := SetMin(rest);
      var o := GuazzOrder(vms, pms, s);
      var t := Target(vms, pms, s, w);
      if t.None? then s.(order := o)
      else EmptyF(vms, pms, Migrated(s.(order := o), w, t.value), rest - {w})
  }

  /** PM `p` is over capacity in some dimension under the placement `host`. */
  ghost predicate OverloadedAt(vms: seq<VM>, pms: seq<PM>, host: map<nat, nat>, p: nat)
    requires ProblemOK(vms, pms) && p < |pms|
  {
    exists k :: 0 <= k < |vms[0].demand| && LoadOn(vms, host, p, k) > pms[p].capacity[k]
  }

  /** An overloaded PM hosts a VM, since capacities are non-negative. */
  lemma OverloadedHosts(vms: seq<VM>, pms: seq<PM>, s: Snapshot, p: nat)
    requires StateOK(vms, pms, s) && p < |pms| && OverloadedAt(vms, pms, s.host, p)
    ensures VmsOf(s.host, |pms|)[p] != {}
  {
    var k :| 0 <= k < |vms[0].demand| && LoadOn(vms, s.host, p, k) > pms[p].capacity[k];
    LoadedHostsVM(vms, s.host, p, k);
    var u :| u in s.host && s.host[u] == p;
    assert u in VmsOf(s.host, |pms|)[p];
  }

  /**
   * One pass of the relief loop's body for PM `p`, and whether it moved a
   * VM: when `p` is overloaded, `m_pms` is re-sorted and `p`'s smallest VM
   * migrates to `find_pm_for_vm`'s PM if there is one and the budget `max`
   * is not used up.
   */
  ghost function ReliefStepF(vms: seq<VM>, pms: seq<PM>, max: int, s: Snapshot, p: nat): (r: (Snapshot, bool))
    requires StateOK(vms, pms, s) && p < |pms|
    ensures StateOK(vms, pms, r.0)
    ensures r.1 ==> s.migrations < max && r.0.migrations == s.migrations + 1
    ensures !r.1 ==> r.0.migrations == s.migrations && r.0.host == s.host
  {
    if !OverloadedAt(vms, pms, s.host, p) then (s, false)
    else
      OverloadedHosts(vms, pms, s, p);
      var w := SetMin(VmsOf(s.host, |pms|)[p]);
      var o := GuazzOrder(vms, pms, s);
      var t := Target(vms, pms, s, w);
      if t.Some? && s.migrations < max then (Migrated(s.(order := o), w, t.value), true)
      else (s.(order := o), false)
  }

  /** The `do … while (changed && budget left)` loop of the relief phase for PM `p`. */
  ghost function ReliefLoopF(vms: seq<VM>, pms: seq<PM>, max: int, s: Snapshot, p: nat): (r: Snapshot)
    requires StateOK(vms, pms, s) && p < |pms|
    ensures StateOK(vms, pms, r)
    decreases max - s.migrations
  {
    var step := ReliefStepF(vms, pms, max, s, p);
    if step.1 && step.0.migrations < max then ReliefLoopF(vms, pms, max, step.0, p) else step.0
  }

  /** The relief phase from PM `p` on, in the PMs' index order. */
  ghost function RelieveFrom(vms: seq<VM>, pms: seq<PM>, max: int, s: Snapshot, p: nat): (r: Snapshot)
    requires StateOK(vms, pms, s)
    ensures StateOK(vms, pms, r)
    decreases |pms| - p
  {
    if p >= |pms| then s else RelieveFrom(vms, pms, max, ReliefLoopF(vms, pms, max, s, p), p + 1)
  }

  /**
   * The consolidation loop from position `i` of `m_pms` (which the calls to
   * `find_pm_for_vm` keep re-sorting under the iterator): while the budget
   * lasts, the PM there is emptied, unless it has more VMs than the budget
   * has left, which ends the phase.
   */
  ghost function ConsolidateFrom(vms: seq<VM>, pms: seq<PM>, max: int, s: Snapshot, i: nat): (r: Snapshot)
    requires StateOK(vms, pms, s)
    ensures StateOK(vms, pms, r)
    decreases |pms| - i
  {
    if i >= |s.order| || s.migrations >= max then s
    else
      LookupsOf(vms, pms, s, s.order);
      var toMove := VmsOf(s.host, |pms|)[s.order[i]];
      if |toMove| > max - s.migrations then s
      else ConsolidateFrom(vms, pms, max, EmptyF(vms, pms, s, toMove), i + 1)
  }

  /** One step of the consolidation loop, at a position before the end while budget is left. */
  lemma ConsolidateStep(vms: seq<VM>, pms: seq<PM>, max: int, s: Snapshot, i: nat)
    requires StateOK(vms, pms, s) && i < |s.order| && s.migrations < max
    ensures s.order[i] < |pms|
    ensures var toMove := VmsOf(s.host, |pms|)[s.order[i]];
      ConsolidateFrom(vms, pms, max, s, i) ==
        if |toMove| > max - s.migrations then s else ConsolidateFrom(vms, pms, max, EmptyF(vms, pms, s, toMove), i + 1)
  {
    LookupsOf(vms, pms, s, s.order);
  }

  /** The consolidation phase: `m_pms` sorted by `pm_less_numvm`, then walked from the front. */
  ghost function ConsolidateF(vms: seq<VM>, pms: seq<PM>, max: int, s: Snapshot): (r: Snapshot)
    requires StateOK(vms, pms, s)
    ensures StateOK(vms, pms, r)
  {
    var vmsOf := VmsOf(s.host, |pms|);
    LookupsOf(vms, pms, s, s.order);
    NumVMIsStrict(vmsOf, s.order);
    ConsolidateFrom(vms, pms, max, s.(order := SortBy(s.order, NumVMLess(vmsOf))), 0)
  }

  /** `solve()` up to the counting and recording: relief, then consolidation, from no migrations. */
  ghost function SolveF(vms: seq<VM>, pms: seq<PM>, max: int, s: Snapshot): (r: Snapshot)
    requires StateOK(vms, pms, s)
    ensures StateOK(vms, pms, r)
  {
    ConsolidateF(vms, pms, max, RelieveFrom(vms, pms, max, s.(migrations := 0), 0))
  }

  // ---------------------------------------------------------------------
  // What the run guarantees

  /** The migrations counted stay within the budget `max` (none when it is not positive). */
  ghost predicate WithinBudget(max: int, m: int)
  {
    0 <= m && (max >= 0 ==> m <= max) && (max <= 0 ==> m == 0)
  }

  /** The VMs of `rest` below `cut`. */
  ghost function Below(rest: set<nat>, cut: nat): set<nat>
  {
    set w | w in rest && w < cut
  }

  /**
   * If `r` moved a prefix of `rest - {w}` away from `next`, which is `s`
   * with the smallest VM `w` of `rest` moved, then `r` moved a prefix of
   * `rest` away from `s`.
   */
  lemma PrefixGrows(s: Snapshot, next: Snapshot, r: Snapshot, rest: set<nat>, w: nat, t: nat, cut': nat)
    requires w in rest && forall x :: x in rest ==> w <= x
    requires next.migrations == s.migrations + 1 && next.host == s.host[w := t]
    requires forall u :: u in next.host ==> u in r.host
    requires r.migrations == next.migrations + |Below(rest - {w}, cut')|
    requires forall u :: u in next.host && u !in Below(rest - {w}, cut') ==> r.host[u] == next.host[u]
    ensures exists cut: nat ::
      r.migrations == s.migrations + |Below(rest, cut)| &&
      forall u :: u in s.host && u !in Below(rest, cut) ==> r.host[u] == s.host[u]
  {
    var cut := if cut' <= w then w + 1 else cut';
    assert Below(rest, cut) == Below(rest - {w}, cut') + {w};
    assert w !in Below(rest - {w}, cut');
    assert forall u :: u in s.host && u !in Below(rest, cut) ==> u in next.host && u !in Below(rest - {w}, cut') && u != w;
  }

  /** One step of `EmptyF`: the smallest VM left goes to the PM `find_pm_for_vm` finds, if any. */
  lemma EmptyStep(vms: seq<VM>, pms: seq<PM>, s: Snapshot, rest: set<nat>)
    requires StateOK(vms, pms, s) && (forall w :: w in rest ==> w < |vms|) && rest != {}
    ensures var w := SetMin(rest); var t := Target(vms, pms, s, w);
      EmptyF(vms, pms, s, rest) ==
        if t.None? then s.(order := GuazzOrder(vms, pms, s))
        else EmptyF(vms, pms, Migrated(s.(order := GuazzOrder(vms, pms, s)), w, t.value), rest - {w})
  {
  }

  /**
   * Emptying a PM moves an ascending prefix of its VMs, one migration
   * each, and leaves every other VM where it was.
   */
  lemma {:induction false} EmptyMovesPrefix(vms: seq<VM>, pms: seq<PM>, s: Snapshot, rest: set<nat>)
    requires StateOK(vms, pms, s) && forall w :: w in rest ==> w < |vms|
    ensures exists cut: nat ::
      EmptyF(vms, pms, s, rest).migrations == s.migrations + |Below(rest, cut)| &&
      forall u :: u in s.host && u !in Below(rest, cut) ==> EmptyF(vms, pms, s, rest).host[u] == s.host[u]
    decreases rest
  {
    var r := EmptyF(vms, pms, s, rest);
    assert Below(rest, 0) == {};
    if rest != {} {
      var w := SetMin(rest);
      var t := Target(vms, pms, s, w);
      EmptyStep(vms, pms, s, rest);
      if t.Some? {
        var next := Migrated(s.(order := GuazzOrder(vms, pms, s)), w, t.value);
        EmptyMovesPrefix(vms, pms, next, rest - {w});
        var cut' :| r.migrations == next.migrations + |Below(rest - {w}, cut')| &&
          forall u :: u in next.host && u !in Below(rest - {w}, cut') ==> r.host[u] == next.host[u];
        PrefixGrows(s, next, r, rest, w, t.value, cut');
      }
    }
  }

  /** Emptying a PM counts at most one migration per VM it had. */
  lemma {:induction false} EmptyBudget(vms: seq<VM>, pms: seq<PM>, s: Snapshot, rest: set<nat>)
    requires StateOK(vms, pms, s) && forall w :: w in rest ==> w < |vms|
    ensures s.migrations <= EmptyF(vms, pms, s, rest).migrations <= s.migrations + |rest|
    decreases rest
  {
    if rest != {} && Target(vms, pms, s, SetMin(rest)).Some? {
      var w := SetMin(rest);
      var t := Target(vms, pms, s, w).value;
      EmptyBudget(vms, pms, Migrated(s.(order := GuazzOrder(vms, pms, s)), w, t), rest - {w});
    }
  }

  /**
   * A VM goes only where it fits: on the PM `find_pm_for_vm` finds, the
   * load with the VM added stays within capacity in every dimension, and
   * no PM before it in `m_pms` could take the VM.
   */
  lemma TargetFits(vms: seq<VM>, pms: seq<PM>, s: Snapshot, w: nat)
    requires StateOK(vms, pms, s) && w < |vms| && Target(vms, pms, s, w).Some?
    ensures var t := Target(vms, pms, s, w).value;
      (forall k :: 0 <= k < |vms[0].demand| ==> LoadOn(vms, s.host, t, k) + vms[w].demand[k] <= pms[t].capacity[k]) &&
      (t != s.host[w] ==> forall k :: 0 <= k < |vms[0].demand| ==> LoadOn(vms, Migrated(s, w, t).host, t, k) <= pms[t].capacity[k])
    ensures var o := GuazzOrder(vms, pms, s); var t := Target(vms, pms, s, w).value;
      exists j :: 0 <= j < |o| && o[j] == t &&
        forall i :: 0 <= i < j ==>
          (exists k :: 0 <= k < |vms[0].demand| && LoadOn(vms, s.host, o[i], k) + vms[w].demand[k] > pms[o[i]].capacity[k])
  {
    var t := Target(vms, pms, s, w).value;
    var o := GuazzOrder(vms, pms, s);
    var dim := |vms[0].demand|;
    LookupsOf(vms, pms, s, o);
    assert FitsWithLoad(vms[w], pms[t], LoadsOf(vms, s.host, |pms|, dim)[t], dim);
    if t != s.host[w] {
      forall k | 0 <= k < dim
        ensures LoadOn(vms, Migrated(s, w, t).host, t, k) <= pms[t].capacity[k]
      {
        LoadMove(vms, s.host, w, t, t, k);
      }
    }
  }

  /** The relief loop for one PM keeps the count within budget and never lowers it. */
  lemma {:induction false} ReliefLoopBudget(vms: seq<VM>, pms: seq<PM>, max: int, s: Snapshot, p: nat)
    requires StateOK(vms, pms, s) && p < |pms| && WithinBudget(max, s.migrations)
    ensures var r := ReliefLoopF(vms, pms, max, s, p); WithinBudget(max, r.migrations) && s.migrations <= r.migrations
    decreases max - s.migrations
  {
    var step := ReliefStepF(vms, pms, max, s, p);
    if step.1 && step.0.migrations < max {
      ReliefLoopBudget(vms, pms, max, step.0, p);
    }
  }

  /** The relief phase keeps the count within budget and never lowers it. */
  lemma {:induction false} RelieveBudget(vms: seq<VM>, pms: seq<PM>, max: int, s: Snapshot, p: nat)
    requires StateOK(vms, pms, s) && WithinBudget(max, s.migrations)
    ensures var r := RelieveFrom(vms, pms, max, s, p); WithinBudget(max, r.migrations) && s.migrations <= r.migrations
    decreases |pms| - p
  {
    if p < |pms| {
      ReliefLoopBudget(vms, pms, max, s, p);
      RelieveBudget(vms, pms, max, ReliefLoopF(vms, pms, max, s, p), p + 1);
    }
  }

  /**
   * Consolidation keeps the count within budget: a PM is emptied only when
   * its VMs fit in what is left of the budget.
   */
  lemma {:induction false} ConsolidateBudget(vms: seq<VM>, pms: seq<PM>, max: int, s: Snapshot, i: nat)
    requires StateOK(vms, pms, s) && WithinBudget(max, s.migrations)
    ensures var r := ConsolidateFrom(vms, pms, max, s, i); WithinBudget(max, r.migrations) && s.migrations <= r.migrations
    decreases |pms| - i
  {
    if i < |s.order| && s.migrations < max {
      assert |s.order| == |multiset(s.order)| == |multiset(Indices(|pms|))| == |pms|;
      LookupsOf(vms, pms, s, s.order);
      var toMove := VmsOf(s.host, |pms|)[s.order[i]];
      if |toMove| <= max - s.migrations {
        EmptyBudget(vms, pms, s, toMove);
        ConsolidateBudget(vms, pms, max, EmptyF(vms, pms, s, toMove), i + 1);
      }
    }
  }

  /** `solve` never migrates more VMs than `m_numMaxMigrations`, and none when it is not positive. */
  lemma SolveBudget(vms: seq<VM>, pms: seq<PM>, max: int, s: Snapshot)
    requires StateOK(vms, pms, s)
    ensures WithinBudget(max, SolveF(vms, pms, max, s).migrations)
  {
    var s0 := s.(migrations := 0);
    RelieveBudget(vms, pms, max, s0, 0);
    var s1 := RelieveFrom(vms, pms, max, s0, 0);
    var vmsOf := VmsOf(s1.host, |pms|);
    LookupsOf(vms, pms, s1, s1.order);
    NumVMIsStrict(vmsOf, s1.order);
    ConsolidateBudget(vms, pms, max, s1.(order := SortBy(s1.order, NumVMLess(vmsOf))), 0);
  }

  /**
   * Moving VM `w` from `p1` to `p2` in the sets and the loads keeps them
   * those of the placement with `w` on `p2`; moving it to its own PM changes
   * nothing.
   */
  lemma HostingAfterMove(vms: seq<VM>, pms: seq<PM>, host: map<nat, nat>, vmsOf: seq<set<nat>>, loadOf: seq<seq<int>>,
                         w: nat, p1: nat, p2: nat, sets: seq<set<nat>>, loads: seq<seq<int>>)
    requires ProblemOK(vms, pms) && Hosting(vms, pms, host, vmsOf, loadOf)
    requires w < |vms| && p1 < |pms| && p2 < |pms| && w in vmsOf[p1]
    requires sets == vmsOf[p1 := vmsOf[p1] - {w}][p2 := vmsOf[p1 := vmsOf[p1] - {w}][p2] + {w}]
    requires |loads| == |pms| && forall p :: 0 <= p < |pms| ==> |loads[p]| == |vms[0].demand|
    requires forall p, k {:trigger loads[p][k]} :: 0 <= p < |pms| && 0 <= k < |vms[0].demand| ==>
      loads[p][k] == loadOf[p][k] - (if p == p1 then vms[w].demand[k] else 0) + (if p == p2 then vms[w].demand[k] else 0)
    ensures Hosting(vms, pms, host[w := p2], sets, loads)
    ensures p1 == p2 ==> sets == vmsOf && loads == loadOf && host[w := p2] == host
  {
    assert w in host && host[w] == p1;
    forall p, j | 0 <= p < |pms| && 0 <= j < |vms[0].demand|
      ensures LoadOn(vms, host[w := p2], p, j) ==
        LoadOn(vms, host, p, j) - (if p == p1 then vms[w].demand[j] else 0) + (if p == p2 then vms[w].demand[j] else 0)
    {
      LoadMove(vms, host, w, p2, p, j);
    }
    if p1 == p2 {
      assert sets[p1] == vmsOf[p1];
      assert host[w := p2] == host;
      forall p | 0 <= p < |pms|
        ensures loads[p] == loadOf[p]
      {
        assert forall k :: 0 <= k < |vms[0].demand| ==> loads[p][k] == loadOf[p][k];
      }
    } else {
      forall p: nat, u: nat | p < |pms|
        ensures u in sets[p] <==> u in host[w := p2] && host[w := p2][u] == p
      {
      }
    }
  }

  // ---------------------------------------------------------------------
  // The allocator

  class GreedyAllocator {
    const vms: seq<VM>
    const pms: seq<PM>
    const dimension: nat
    const numMaxMigrations: int

    /** `m_pms`: the PM indices, re-sorted in place. */
    var order: seq<nat>
    /** `m_vms_of_pms`. */
    var vmsOf: seq<set<nat>>
    /** `m_load_of_pms`. */
    var loadOf: seq<seq<int>>
    /** The PM whose set holds each VM. */
    ghost var host: map<nat, nat>
    var numMigrations: int
    var numPMsOn: int
    var bestCost: int
    var bestAllocation: map<nat, nat>

    /** What `solve` changes, as one value. */
    ghost function Snap(): Snapshot
      reads this`order, this`host, this`numMigrations
    {
      Snapshot(order, host, numMigrations)
    }

    ghost predicate Valid()
      reads this`order, this`vmsOf, this`loadOf, this`host, this`numMigrations, this`bestAllocation
    {
      StateOK(vms, pms, Snap()) && dimension == |vms[0].demand| &&
      Hosting(vms, pms, host, vmsOf, loadOf) &&
      (forall w :: w in bestAllocation ==> w < |vms|)
    }

    /**
     * The constructor: every VM on its initial PM, each PM's set and load
     * those of the VMs on it, `m_pms` in index order, and the results unset
     * (-1) until `solve` runs.
     */
    constructor (problemVMs: seq<VM>, problemPMs: seq<PM>, pa: AllocatorParams)
      requires ProblemOK(problemVMs, problemPMs) && pa.maxMigrationsRatio != 0
      ensures Valid() && vms == problemVMs && pms == problemPMs
      ensures forall w :: 0 <= w < |vms| ==> host[w] == vms[w].initialID
      ensures order == Indices(|pms|)
      ensures numMaxMigrations == CDiv(|pms|, pa.maxMigrationsRatio)
      ensures numMigrations == -1 && numPMsOn == -1 && bestCost == -1 && bestAllocation == map[]
    {
      vms, pms, dimension := problemVMs, problemPMs, |problemVMs[0].demand|;
      numMaxMigrations := CDiv(|problemPMs|, pa.maxMigrationsRatio);
      numMigrations, numPMsOn, bestCost, bestAllocation := -1, -1, -1, map[];
      order := Indices(|problemPMs|);
      var sets, loads, hosts := InitialHosting(problemVMs, problemPMs);
      vmsOf, loadOf, host := sets, loads, hosts;
    }

    /** Every PM of `m_pms` can be looked up by the comparators and the fit test. */
    lemma OrderInRange()
      requires Valid()
      ensures InRange(order, vmsOf, loadOf)
      ensures Lookups(order, pms, loadOf, dimension)
    {
      forall x | x in order
        ensures x < |pms|
      {
        InIndices(|pms|, x);
      }
      forall i | 0 <= i < |order|
        ensures order[i] < |pms|
      {
        assert order[i] in order;
      }
    }

    /** The fit test of `find_pm_for_vm` for VM `w` on PM `p`. */
    method FitsOn(w: nat, p: nat) returns (fit: bool)
      requires Valid() && w < |vms| && p < |pms|
      ensures fit == FitsWithLoad(vms[w], pms[p], loadOf[p], dimension)
    {
      fit := true;
      var k := 0;
      while k < dimension
        invariant k <= dimension
        invariant fit == forall j :: 0 <= j < k ==> loadOf[p][j] + vms[w].demand[j] <= pms[p].capacity[j]
      {
        if loadOf[p][k] + vms[w].demand[k] > pms[p].capacity[k] {
          fit := false;
        }
        k := k + 1;
      }
    }

    /**
     * `find_pm_for_vm(w)`: `m_pms` re-sorted by `pm_less_guazz`, then the
     * first PM in it that `w` fits on with the current loads, the PM `w` is
     * on included (see `OwnPMChosen`); `None` is NULL.
     */
    method FindPMForVM(w: nat) returns (r: Option<nat>)
      requires Valid() && w < |vms|
      modifies this`order
      ensures Valid()
      ensures Snap() == old(Snap()).(order := GuazzOrder(vms, pms, old(Snap())))
      ensures r == Target(vms, pms, old(Snap()), w)
      ensures Lookups(order, pms, loadOf, dimension)
      ensures r == FirstFit(vms[w], pms, loadOf, dimension, order, 0)
      ensures r.Some? ==> r.value < |pms|
    {
      OrderInRange();
      HostingIs(vms, pms, host, vmsOf, loadOf);
      GuazzIsStrict(vmsOf, loadOf, order);
      order := SortBy(order, GuazzLess(vmsOf, loadOf));
      r := FirstFitting(w);
    }

    /** The scan of `find_pm_for_vm`: the first PM of `m_pms` that VM `w` fits on. */
    method FirstFitting(w: nat) returns (r: Option<nat>)
      requires Valid() && w < |vms|
      ensures Lookups(order, pms, loadOf, dimension)
      ensures r == FirstFit(vms[w], pms, loadOf, dimension, order, 0)
      ensures r.Some? ==> r.value < |pms|
    {
      OrderInRange();
      var i := 0;
      while i < |order|
        invariant i <= |order|
        invariant FirstFit(vms[w], pms, loadOf, dimension, order, 0) ==
          FirstFit(vms[w], pms, loadOf, dimension, order, i)
      {
        var fit := FitsOn(w, order[i]);
        if fit {
          return Some(order[i]);
        }
        i := i + 1;
      }
      r := None;
    }

    /**
     * `migrate(w, p1, p2)`: `w` leaves `p1`'s set for `p2`'s and its demand
     * moves with it; the migration is counted even when `p2` is `p1`, which
     * then keeps its set and its load.
     */
    method Migrate(w: nat, p1: nat, p2: nat)
      requires Valid() && w < |vms| && p1 < |pms| && p2 < |pms| && w in vmsOf[p1]
      modifies this`vmsOf, this`loadOf, this`host, this`numMigrations
      ensures Valid()
      ensures Snap() == Migrated(old(Snap()), w, p2)
      ensures host == old(host)[w := p2] && numMigrations == old(numMigrations) + 1
      ensures vmsOf == old(vmsOf)[p1 := old(vmsOf)[p1] - {w}][p2 := old(vmsOf)[p1 := old(vmsOf)[p1] - {w}][p2] + {w}]
      ensures forall p, k :: 0 <= p < |pms| && 0 <= k < dimension ==>
        loadOf[p][k] == old(loadOf)[p][k] - (if p == p1 then vms[w].demand[k] else 0) + (if p == p2 then vms[w].demand[k] else 0)
      ensures p1 == p2 ==> vmsOf == old(vmsOf) && loadOf == old(loadOf) && host == old(host)
    {
      var sets := vmsOf[p1 := vmsOf[p1] - {w}];
      sets := sets[p2 := sets[p2] + {w}];
      var loads := MoveDemand(loadOf, p1, p2, vms[w].demand, dimension);
      HostingAfterMove(vms, pms, host, vmsOf, loadOf, w, p1, p2, sets, loads);
      vmsOf, loadOf, host := sets, loads, host[w := p2];
      numMigrations := numMigrations + 1;
    }

    /** The total load per dimension is the same before and after a migration. */
    lemma MigrateKeepsTotal(before: seq<seq<int>>, w: nat, p1: nat, p2: nat, k: nat)
      requires Valid() && w < |vms| && p1 < |pms| && p2 < |pms| && k < dimension
      requires |before| == |pms| && forall p :: 0 <= p < |pms| ==> |before[p]| == dimension
      requires forall p :: 0 <= p < |pms| ==>
        loadOf[p][k] == before[p][k] - (if p == p1 then vms[w].demand[k] else 0) + (if p == p2 then vms[w].demand[k] else 0)
      ensures ColumnSum(loadOf, k, |pms|) == ColumnSum(before, k, |pms|)
    {
      MoveKeepsTotal(before, loadOf, p1, p2, k, vms[w].demand[k], |pms|);
    }

    /** The overload test of the relief loop: PM `p` is over capacity in some dimension. */
    method Overloaded(p: nat) returns (over: bool)
      requires Valid() && p < |pms|
      ensures over <==> exists k :: 0 <= k < dimension && loadOf[p][k] > pms[p].capacity[k]
      ensures over <==> OverloadedAt(vms, pms, host, p)
    {
      over := false;
      var k := 0;
      while k < dimension
        invariant k <= dimension
        invariant over <==> exists j :: 0 <= j < k && loadOf[p][j] > pms[p].capacity[j]
      {
        if loadOf[p][k] > pms[p].capacity[k] {
          over := true;
        }
        k := k + 1;
      }
    }

    /**
     * One pass of the relief loop's body for PM `p`: when `p` is overloaded,
     * its smallest VM moves to the PM `find_pm_for_vm` finds, if there is one
     * and the budget is not used up.
     */
    method ReliefStep(p: nat) returns (changed: bool)
      requires Valid() && p < |pms|
      modifies this`order, this`vmsOf, this`loadOf, this`host, this`numMigrations
      ensures Valid()
      ensures (Snap(), changed) == ReliefStepF(vms, pms, numMaxMigrations, old(Snap()), p)
    {
      changed := false;
      var over := Overloaded(p);
      if over {
        OverloadedHosts(vms, pms, Snap(), p);
        HostingIs(vms, pms, host, vmsOf, loadOf);
        var w := Smallest(vmsOf[p]);
        var target := FindPMForVM(w);
        if target.Some? && numMigrations < numMaxMigrations {
          Migrate(w, p, target.value);
          changed := true;
        }
      }
    }

    /**
     * The inner loop of consolidation: the VMs of `toMove`, smallest first,
     * each moved from `p` to the PM `find_pm_for_vm` finds, stopping at the
     * first VM that fits nowhere.
     */
    method EmptyPM(p: nat, toMove: set<nat>)
      requires Valid() && p < |pms| && toMove <= vmsOf[p] && forall w :: w in toMove ==> w < |vms|
      modifies this`order, this`vmsOf, this`loadOf, this`host, this`numMigrations
      ensures Valid()
      ensures Snap() == EmptyF(vms, pms, old(Snap()), toMove)
    {
      var rest := toMove;
      while rest != {}
        invariant Valid() && rest <= toMove && forall u :: u in rest ==> u in host && host[u] == p
        invariant EmptyF(vms, pms, Snap(), rest) == EmptyF(vms, pms, old(Snap()), toMove)
        decreases |rest|
      {
        var moved, w := MoveSmallest(p, rest);
        if !moved {
          break;
        }
        rest := rest - {w};
      }
    }

    /** One pass of consolidation's inner loop: the smallest VM of `rest` leaves `p` if it fits elsewhere. */
    method MoveSmallest(p: nat, rest: set<nat>) returns (moved: bool, w: nat)
      requires Valid() && p < |pms| && rest != {} && forall u :: u in rest ==> u in host && host[u] == p
      modifies this`order, this`vmsOf, this`loadOf, this`host, this`numMigrations
      ensures Valid() && w == SetMin(rest)
      ensures EmptyF(vms, pms, old(Snap()), rest) == if moved then EmptyF(vms, pms, Snap(), rest - {w}) else Snap()
      ensures moved ==> forall u :: u in rest - {w} ==> u in host && host[u] == p
    {
      w := Smallest(rest);
      assert w in vmsOf[p];
      EmptyStep(vms, pms, Snap(), rest);
      var target := FindPMForVM(w);
      moved := target.Some?;
      if moved {
        Migrate(w, p, target.value);
      }
    }

    /**
     * `solve()`: relieve every overloaded PM, in index order, while the
     * budget lasts; sort `m_pms` by the number of VMs and empty PMs from the
     * front while the budget lasts, stopping at the first PM with more VMs
     * than the remaining budget; then count the PMs in use, price the result
     * and record where every VM ended up.
     */
    method Solve()
      requires Valid()
      modifies this`order, this`vmsOf, this`loadOf, this`host, this`numMigrations,
        this`numPMsOn, this`bestCost, this`bestAllocation
      ensures Valid()
      ensures Snap() == SolveF(vms, pms, numMaxMigrations, old(Snap()))
      ensures 0 <= numMigrations && (numMaxMigrations >= 0 ==> numMigrations <= numMaxMigrations)
      ensures numMaxMigrations <= 0 ==> numMigrations == 0
      ensures numPMsOn == |PMsInUse(vmsOf)|
      ensures bestCost == COEFF_NR_OF_ACTIVE_HOSTS * numPMsOn + COEFF_NR_OF_MIGRATIONS * numMigrations
      ensures bestAllocation == host
    {
      numMigrations := 0;
      ghost var start := Snap();
      assert start == old(Snap()).(migrations := 0);
      Relieve();
      Consolidate();
      assert Snap() == SolveF(vms, pms, numMaxMigrations, old(Snap()));
      SolveBudget(vms, pms, numMaxMigrations, old(Snap()));
      Conclude();
    }

    /** The end of `solve`: count the PMs in use, price the placement, record it. */
    method Conclude()
      requires Valid()
      modifies this`numPMsOn, this`bestCost, this`bestAllocation
      ensures Valid()
      ensures numPMsOn == |PMsInUse(vmsOf)|
      ensures bestCost == COEFF_NR_OF_ACTIVE_HOSTS * numPMsOn + COEFF_NR_OF_MIGRATIONS * numMigrations
      ensures bestAllocation == host
    {
      CountPMsOn();
      bestCost := COEFF_NR_OF_ACTIVE_HOSTS * numPMsOn + COEFF_NR_OF_MIGRATIONS * numMigrations;
      RecordAllocation();
    }

    /** The relief loop of `solve`: a do-while per PM, in the PMs' index order. */
    method Relieve()
      requires Valid()
      modifies this`order, this`vmsOf, this`loadOf, this`host, this`numMigrations
      ensures Valid()
      ensures Snap() == RelieveFrom(vms, pms, numMaxMigrations, old(Snap()), 0)
    {
      var p := 0;
      while p < |pms|
        invariant Valid()
        invariant RelieveFrom(vms, pms, numMaxMigrations, Snap(), p) == RelieveFrom(vms, pms, numMaxMigrations, old(Snap()), 0)
      {
        RelieveOne(p);
        p := p + 1;
      }
    }

    /** The `do … while` of the relief phase for PM `p`: steps while one moves a VM and budget is left. */
    method RelieveOne(p: nat)
      requires Valid() && p < |pms|
      modifies this`order, this`vmsOf, this`loadOf, this`host, this`numMigrations
      ensures Valid()
      ensures Snap() == ReliefLoopF(vms, pms, numMaxMigrations, old(Snap()), p)
    {
      var changed := ReliefStep(p);
      while changed && numMigrations < numMaxMigrations
        invariant Valid()
        invariant ReliefLoopF(vms, pms, numMaxMigrations, old(Snap()), p) ==
          if changed && numMigrations < numMaxMigrations then ReliefLoopF(vms, pms, numMaxMigrations, Snap(), p) else Snap()
        decreases numMaxMigrations - numMigrations + (if changed then 1 else 0)
      {
        changed := ReliefStep(p);
      }
    }

    /** The consolidation loop of `solve`; `i` is the iterator `it_pm` into the re-sorted `m_pms`. */
    method Consolidate()
      requires Valid()
      modifies this`order, this`vmsOf, this`loadOf, this`host, this`numMigrations
      ensures Valid()
      ensures Snap() == ConsolidateF(vms, pms, numMaxMigrations, old(Snap()))
    {
      OrderInRange();
      HostingIs(vms, pms, host, vmsOf, loadOf);
      NumVMIsStrict(vmsOf, order);
      order := SortBy(order, NumVMLess(vmsOf));
      ConsolidateFromFront();
    }

    /** The walk of consolidation along `m_pms` from its first position. */
    method ConsolidateFromFront()
      requires Valid()
      modifies this`order, this`vmsOf, this`loadOf, this`host, this`numMigrations
      ensures Valid()
      ensures Snap() == ConsolidateFrom(vms, pms, numMaxMigrations, old(Snap()), 0)
    {
      var i := 0;
      while i < |order| && numMigrations < numMaxMigrations
        invariant Valid() && i <= |order|
        invariant ConsolidateFrom(vms, pms, numMaxMigrations, Snap(), i) == ConsolidateFrom(vms, pms, numMaxMigrations, old(Snap()), 0)
        decreases |order| - i
      {
        HostingIs(vms, pms, host, vmsOf, loadOf);
        ConsolidateStep(vms, pms, numMaxMigrations, Snap(), i);
        var p := order[i];
        i := i + 1;
        var toMove := vmsOf[p];
        if |toMove| > numMaxMigrations - numMigrations {
          break;
        }
        EmptyPM(p, toMove);
      }
    }

    /** `m_numPMsOn`: the PMs of `m_pms` whose set of VMs is not empty. */
    method CountPMsOn()
      requires Valid()
      modifies this`numPMsOn
      ensures numPMsOn == |PMsInUse(vmsOf)|
    {
      OrderInRange();
      numPMsOn := CountInUse(order, vmsOf);
    }

    /**
     * The last loop of `solve`: each VM in each PM's set recorded as placed
     * on that PM; every VM is in exactly one set, so the record is `host`.
     */
    method RecordAllocation()
      requires Valid()
      modifies this`bestAllocation
      ensures Valid() && bestAllocation == host
    {
      OrderInRange();
      var alloc: map<nat, nat> := bestAllocation;
      var i := 0;
      while i < |order|
        invariant i <= |order|
        invariant forall w :: w in alloc ==> w < |vms|
        invariant forall j, w :: 0 <= j < i && w in vmsOf[order[j]] ==> w in alloc && alloc[w] == order[j]
      {
        var p := order[i];
        assert forall w :: w in vmsOf[p] ==> w in host && host[w] == p;
        alloc := RecordSet(alloc, vmsOf[p], p);
        i := i + 1;
      }
      bestAllocation := alloc;
      RecordedIsHost(alloc);
    }

    /** A record holding, for every PM of `m_pms`, the VMs of its set, and no other VM, is `host`. */
    lemma RecordedIsHost(alloc: map<nat, nat>)
      requires Valid() && Lookups(order, pms, loadOf, dimension)
      requires forall w :: w in alloc ==> w < |vms|
      requires forall j, w :: 0 <= j < |order| && w in vmsOf[order[j]] ==> w in alloc && alloc[w] == order[j]
      ensures alloc == host
    {
      forall w | w in host
        ensures w in alloc && alloc[w] == host[w]
      {
        var p := host[w];
        InIndices(|pms|, p);
        assert p in order;
        var j :| 0 <= j < |order| && order[j] == p;
      }
    }

    /** `getBestCost()`: -1 before `solve`, then the price of the final placement. */
    method GetBestCost() returns (r: int)
      ensures r == bestCost
    {
      r := bestCost;
    }

    /** `getBestAllocation()`: empty before `solve`, then every VM's final PM. */
    method GetBestAllocation() returns (r: map<nat, nat>)
      ensures r == bestAllocation
    {
      r := bestAllocation;
    }

    /** `getActiveHosts()`: -1 before `solve`, then the number of PMs left on. */
    method GetActiveHosts() returns (r: int)
      ensures r == numPMsOn
    {
      r := numPMsOn;
    }

    /** `getMigrations()`: -1 before `solve`, then the number of migrations made. */
    method GetMigrations() returns (r: int)
      ensures r == numMigrations
    {
      r := numMigrations;
    }

    /** `getLowerBound()`: the greedy allocator knows none and answers 0. */
    method GetLowerBound() returns (r: int)
      ensures r == 0
    {
      r := 0;
    }
  }

  /** The counting loop of `solve`: over a permutation `order` of the PMs, those whose set is not empty. */
  method CountInUse(order: seq<nat>, vmsOf: seq<set<nat>>) returns (count: int)
    requires multiset(order) == multiset(Indices(|vmsOf|))
    ensures count == |PMsInUse(vmsOf)|
  {
    forall x | x in order
      ensures x < |vmsOf|
    {
      assert x in multiset(order);
      InIndices(|vmsOf|, x);
    }
    count := 0;
    ghost var seen: set<nat> := {};
    var i := 0;
    while i < |order|
      invariant i <= |order| && count == |seen|
      invariant forall j :: j in order[..i] ==> j < |vmsOf|
      invariant seen == set j | j in order[..i] && vmsOf[j] != {}
    {
      assert order[..i + 1] == order[..i] + [order[i]];
      assert order[i] in order;
      if vmsOf[order[i]] != {} {
        NotSeenYet(order, |vmsOf|, i);
        seen := seen + {order[i]};
        count := count + 1;
      }
      i := i + 1;
    }
    assert order[..i] == order;
    forall x: nat
      ensures x in seen <==> x in PMsInUse(vmsOf)
    {
      assert x in order <==> x in multiset(Indices(|vmsOf|));
      InIndices(|vmsOf|, x);
    }
    assert seen == PMsInUse(vmsOf);
  }

  /** A permutation of the PM indices lists every PM once, so position `i` holds a PM not listed before it. */
  lemma NotSeenYet(order: seq<nat>, n: nat, i: nat)
    requires multiset(order) == multiset(Indices(n)) && i < |order|
    ensures order[i] !in order[..i]
  {
    if order[i] in order[..i] {
      var j :| 0 <= j < i && order[j] == order[i];
      IndicesOnce(n, order[i]);
      TwiceCounted(order, j, i);
      assert false;
    }
  }

  /** A value at two positions of a sequence is counted twice in its multiset. */
  lemma TwiceCounted<T>(s: seq<T>, j: nat, i: nat)
    requires j < i < |s| && s[j] == s[i]
    ensures multiset(s)[s[i]] >= 2
  {
    assert s == s[..j] + [s[j]] + s[j + 1..i] + [s[i]] + s[i + 1..];
  }

  /** The members of `Indices(n)` are the numbers below `n`. */
  lemma InIndices(n: nat, x: nat)
    ensures x in multiset(Indices(n)) <==> x < n
  {
    if x < n {
      assert Indices(n)[x] == x;
    }
  }

  /** Each index appears once in `Indices(n)`. */
  lemma IndicesOnce(n: nat, x: nat)
    ensures multiset(Indices(n))[x] <= 1
  {
    if n > 0 {
      assert Indices(n) == Indices(n - 1) + [n - 1];
      IndicesOnce(n - 1, x);
      if x == n - 1 {
        assert x !in Indices(n - 1);
      }
    }
  }
}
