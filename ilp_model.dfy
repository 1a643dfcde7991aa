/**
 * The integer program `ILPAllocator::create_lp` writes (IlpAllocator.cpp),
 * as a value: binary variables `Active_i` (PM i is on), `Migr_j` (VM j
 * leaves its initial PM) and `Alloc_j_i` (VM j is placed on PM i), the
 * objective, the constraint rows in the order they are written, and the
 * binary declarations. What each family of rows means is proved here; how
 * the rows are printed is in `IlpWriter`.
 */
module IlpModel {
  import opened CInt
  import opened Machines

  datatype Var = Active(i: int) | Migr(j: int) | Alloc(j: int, i: int)

  /** `coeff` times `v`. */
  datatype Term = Term(coeff: int, v: Var)

  datatype Sense = AtMost | Equal

  /**
   * One constraint. `name` is the row label with its colon (only capacity
   * rows have one); `explicit` says the coefficients are written out, as in
   * the capacity rows, rather than implied by the sign between terms.
   */
  datatype Row = Row(name: string, terms: seq<Term>, explicit: bool, sense: Sense, rhs: int)

  /**
   * The program: the objective is the active-host terms followed by the
   * migration terms, and the binary declarations are the `Migr_j` followed by
   * the other variables, each part separated as the writer separates it.
   */
  datatype Lp = Lp(hostCost: seq<Term>, migrationCost: seq<Term>, rows: seq<Row>,
                   binaryHead: seq<Var>, binaryTail: seq<Var>)

  /** The problem `create_lp` can write: at least one VM (it reads `VMs[0]`) and vectors long enough for its dimension. */
  ghost predicate ProblemOK(vms: seq<VM>, pms: seq<PM>)
  {
    |vms| > 0 &&
    (forall j :: 0 <= j < |vms| ==> |vms[j].demand| >= |vms[0].demand|) &&
    (forall i :: 0 <= i < |pms| ==> |pms[i].capacity| >= |vms[0].demand|)
  }

  /** The rows of `m`, one sequence after another. */
  function Flatten<T>(m: seq<seq<T>>): (r: seq<T>)
  {
    if |m| == 0 then [] else Flatten(m[..|m| - 1]) + m[|m| - 1]
  }

  lemma FlattenSnoc<T>(m: seq<seq<T>>, k: nat)
    requires k < |m|
    ensures Flatten(m[..k + 1]) == Flatten(m[..k]) + m[k]
  {
    assert m[..k + 1][..k] == m[..k];
  }

  /** `Flatten` keeps exactly the elements of the rows, and keeps all of them. */
  lemma {:induction false} FlattenMembers<T>(m: seq<seq<T>>, x: T)
    ensures x in Flatten(m) <==> exists k :: 0 <= k < |m| && x in m[k]
  {
    if |m| > 0 {
      var last := |m| - 1;
      FlattenMembers(m[..last], x);
      if x in Flatten(m) && x !in m[last] {
        var k :| 0 <= k < |m[..last]| && x in m[..last][k];
        assert x in m[k];
      }
      if exists k :: 0 <= k < |m| && x in m[k] {
        var k :| 0 <= k < |m| && x in m[k];
        if k < last {
          assert x in m[..last][k];
        }
      }
    }
  }

  lemma {:induction false} FlattenLength<T>(m: seq<seq<T>>, w: nat)
    requires forall k :: 0 <= k < |m| ==> |m[k]| == w
    ensures |Flatten(m)| == |m| * w
  {
    if |m| > 0 {
      FlattenLength(m[..|m| - 1], w);
    }
  }

  // ---------------------------------------------------------------------
  // The rows, family by family

  /** `Alloc_j_0 + … + Alloc_j_{P-1} = 1`: VM j is placed exactly once. */
  function AssignmentRow(j: int, numPMs: nat): Row
  {
    Row("", seq(numPMs, i => Term(1, Alloc(j, i))), false, Equal, 1)
  }

  /** `Alloc_j_i - Active_i <= 0`: a PM hosting a VM is on. */
  function ActivationRow(j: int, i: int): Row
  {
    Row("", [Term(1, Alloc(j, i)), Term(-1, Active(i))], false, AtMost, 0)
  }

  /** `dim_d_PM_i: demand_0[d] Alloc_0_i + … <= capacity_i[d]`. */
  function CapacityRow(vms: seq<VM>, pms: seq<PM>, d: nat, i: nat): Row
    requires ProblemOK(vms, pms) && d < |vms[0].demand| && i < |pms|
  {
    Row(LabelText(d, i), seq(|vms|, j requires 0 <= j < |vms| => Term(vms[j].demand[d], Alloc(j, i))), true, AtMost, pms[i].capacity[d])
  }

  /** `Alloc_j_<initialID> + Migr_j = 1`: `Migr_j` is 1 exactly when VM j is not on its initial PM. */
  function MigrationRow(vm: VM, j: int): Row
  {
    Row("", [Term(1, Alloc(j, vm.initialID)), Term(1, Migr(j))], false, Equal, 1)
  }

  /** `Migr_0 + … <= numPMs / maxMigrationsRatio`, the division as C++ truncates it. */
  function BudgetRow(numVMs: nat, numPMs: nat, ratio: int): Row
    requires ratio != 0
  {
    Row("", seq(numVMs, j => Term(1, Migr(j))), false, AtMost, CDiv(numPMs, ratio))
  }

  /** The capacity-row label `dim_<d>_PM_<i>: `. */
  function LabelText(d: int, i: int): string
  {
    "dim_" + IntText(d) + "_PM_" + IntText(i) + ": "
  }

  /** The decimal digit d. */
  function Digit(d: nat): char
    requires d < 10
  {
    ('0' as int + d) as char
  }

  /** A natural number in decimal, as `operator<<` prints it. */
  function NatText(n: nat): string
  {
    if n < 10 then [Digit(n)] else NatText(n / 10) + [Digit(n % 10)]
  }

  /** One digit exactly for the numbers below 10. */
  lemma NatTextLength(n: nat)
    ensures |NatText(n)| >= 1 && (|NatText(n)| == 1 <==> n < 10)
  {
    if n >= 10 {
      NatTextLength(n / 10);
    }
  }

  lemma {:induction false} NatTextDigits(n: nat)
    ensures forall k :: 0 <= k < |NatText(n)| ==> '0' <= NatText(n)[k] <= '9'
  {
    if n >= 10 {
      NatTextDigits(n / 10);
    }
  }

  /** An integer in decimal, with a leading '-' when negative. */
  function IntText(n: int): string
  {
    if n < 0 then "-" + NatText(-n) else NatText(n)
  }

  /**
   * Printed integers hold a sign and digits only, and start with the sign
   * exactly when negative.
   */
  lemma IntTextChars(n: int)
    ensures |IntText(n)| >= 1 && (IntText(n)[0] == '-' <==> n < 0)
    ensures forall k :: 0 <= k < |IntText(n)| ==> IntText(n)[k] == '-' || '0' <= IntText(n)[k] <= '9'
  {
    NatTextDigits(if n < 0 then -n else n);
    NatTextLength(if n < 0 then -n else n);
  }

  function AssignmentRows(numVMs: nat, numPMs: nat): seq<Row>
  {
    seq(numVMs, j => AssignmentRow(j, numPMs))
  }

  /** The activation rows by VM, then by PM. */
  function ActivationTable(numVMs: nat, numPMs: nat): (t: seq<seq<Row>>)
    ensures |t| == numVMs && forall j :: 0 <= j < numVMs ==> |t[j]| == numPMs
    ensures forall j, i :: 0 <= j < numVMs && 0 <= i < numPMs ==> t[j][i] == ActivationRow(j, i)
  {
    seq(numVMs, j => seq(numPMs, i => ActivationRow(j, i)))
  }

  /** One activation row per (VM, PM), VM-major. */
  function ActivationRows(numVMs: nat, numPMs: nat): seq<Row>
  {
    Flatten(ActivationTable(numVMs, numPMs))
  }

  /** The capacity rows by dimension, then by PM. */
  function CapacityTable(vms: seq<VM>, pms: seq<PM>): (t: seq<seq<Row>>)
    requires ProblemOK(vms, pms)
    ensures |t| == |vms[0].demand| && forall d :: 0 <= d < |t| ==> |t[d]| == |pms|
    ensures forall d, i :: 0 <= d < |t| && 0 <= i < |pms| ==> t[d][i] == CapacityRow(vms, pms, d, i)
  {
    seq(|vms[0].demand|, d requires 0 <= d < |vms[0].demand| =>
      seq(|pms|, i requires 0 <= i < |pms| => CapacityRow(vms, pms, d, i)))
  }

  /** One capacity row per (dimension, PM), dimension-major. */
  function CapacityRows(vms: seq<VM>, pms: seq<PM>): seq<Row>
    requires ProblemOK(vms, pms)
  {
    Flatten(CapacityTable(vms, pms))
  }

  function MigrationRows(vms: seq<VM>): seq<Row>
  {
    seq(|vms|, j requires 0 <= j < |vms| => MigrationRow(vms[j], j))
  }

  /** The `Alloc` variables by VM, then by PM. */
  function AllocTable(numVMs: nat, numPMs: nat): (t: seq<seq<Var>>)
    ensures |t| == numVMs && forall j :: 0 <= j < numVMs ==> |t[j]| == numPMs
    ensures forall j, i :: 0 <= j < numVMs && 0 <= i < numPMs ==> t[j][i] == Alloc(j, i)
  {
    seq(numVMs, j => seq(numPMs, i => Alloc(j, i)))
  }

  /** Every `Alloc_j_i`, VM-major. */
  function AllocVars(numVMs: nat, numPMs: nat): seq<Var>
  {
    Flatten(AllocTable(numVMs, numPMs))
  }

  /** `10 Active_i` for every PM: 10 per PM that is on. */
  function HostCost(numPMs: nat): seq<Term>
  {
    seq(numPMs, i => Term(COEFF_NR_OF_ACTIVE_HOSTS, Active(i)))
  }

  /** `1 Migr_j` for every VM: 1 per migration. */
  function MigrationCost(numVMs: nat): seq<Term>
  {
    seq(numVMs, j => Term(COEFF_NR_OF_MIGRATIONS, Migr(j)))
  }

  function MigrVars(numVMs: nat): seq<Var>
  {
    seq(numVMs, j => Migr(j))
  }

  function ActiveVars(numPMs: nat): seq<Var>
  {
    seq(numPMs, i => Active(i))
  }

  /** The program `create_lp` writes for these VMs and PMs and migration ratio. */
  function BuildLp(vms: seq<VM>, pms: seq<PM>, ratio: int): Lp
    requires ProblemOK(vms, pms) && ratio != 0
  {
    Lp(HostCost(|pms|), MigrationCost(|vms|),
       AssignmentRows(|vms|, |pms|) + ActivationRows(|vms|, |pms|) + CapacityRows(vms, pms) +
         MigrationRows(vms) + [BudgetRow(|vms|, |pms|, ratio)],
       MigrVars(|vms|), ActiveVars(|pms|) + AllocVars(|vms|, |pms|))
  }

  /**
   * The program has one assignment row per VM, one activation row per (VM,
   * PM), one capacity row per (dimension, PM), one migration row per VM and
   * one budget row.
   */
  lemma RowCount(vms: seq<VM>, pms: seq<PM>, ratio: int)
    requires ProblemOK(vms, pms) && ratio != 0
    ensures |BuildLp(vms, pms, ratio).rows| ==
      |vms| + |vms| * |pms| + |vms[0].demand| * |pms| + |vms| + 1
  {
    FlattenLength(ActivationTable(|vms|, |pms|), |pms|);
    FlattenLength(CapacityTable(vms, pms), |pms|);
  }

  /** The variables the program uses: `Active_i`, `Migr_j` and `Alloc_j_i` for every PM i and VM j. */
  ghost predicate Declared(v: Var, numVMs: nat, numPMs: nat)
  {
    match v
    case Active(i) => 0 <= i < numPMs
    case Migr(j) => 0 <= j < numVMs
    case Alloc(j, i) => 0 <= j < numVMs && 0 <= i < numPMs
  }

  /** The binary declarations list every variable of the program once: `Migr_j`, then `Active_i`, then `Alloc_j_i`. */
  lemma BinariesOnce(vms: seq<VM>, pms: seq<PM>, ratio: int)
    requires ProblemOK(vms, pms) && ratio != 0
    ensures var lp := BuildLp(vms, pms, ratio);
      var bin := lp.binaryHead + lp.binaryTail;
      (forall v :: v in bin <==> Declared(v, |vms|, |pms|)) &&
      (forall a, b :: 0 <= a < b < |bin| ==> bin[a] != bin[b])
  {
    var n, p := |vms|, |pms|;
    var lp := BuildLp(vms, pms, ratio);
    var bin := lp.binaryHead + lp.binaryTail;
    AllocPositions(n, p);
    forall v
      ensures v in bin <==> Declared(v, n, p)
    {
      var m := AllocTable(n, p);
      FlattenMembers(m, v);
      if v.Alloc? && Declared(v, n, p) {
        assert m[v.j][v.i] == v;
      }
      if v.Active? && Declared(v, n, p) {
        assert lp.binaryTail[v.i] == v;
      }
      if v.Migr? && Declared(v, n, p) {
        assert bin[v.j] == v;
      }
    }
    forall k | 0 <= k < |bin|
      ensures Position(bin[k], n, p) == k
    {
      if k >= n + p {
        assert bin[k] == AllocVars(n, p)[k - n - p];
      }
    }
  }

  /** Where a variable is declared: `Migr_j` at j, `Active_i` after the VMs, `Alloc_j_i` after the PMs at `j * P + i`. */
  function Position(v: Var, numVMs: nat, numPMs: nat): int
  {
    match v
    case Migr(j) => j
    case Active(i) => numVMs + i
    case Alloc(j, i) => numVMs + numPMs + j * numPMs + i
  }

  /** Each `Alloc_j_i` sits at position `j * P + i` of the `Alloc` declarations. */
  lemma {:induction false} AllocPositions(n: nat, p: nat)
    ensures |AllocVars(n, p)| == n * p
    ensures forall k :: 0 <= k < n * p ==>
      AllocVars(n, p)[k].Alloc? && AllocVars(n, p)[k].j * p + AllocVars(n, p)[k].i == k
  {
    var m := AllocTable(n, p);
    FlattenLength(m, p);
    if n > 0 {
      AllocPositions(n - 1, p);
      assert m[..n - 1] == AllocTable(n - 1, p);
      assert AllocVars(n, p) == AllocVars(n - 1, p) + m[n - 1];
      forall k | (n - 1) * p <= k < n * p
        ensures AllocVars(n, p)[k] == Alloc(n - 1, k - (n - 1) * p)
      {
        assert n * p == (n - 1) * p + p;
      }
    }
  }

  // ---------------------------------------------------------------------
  // What the rows mean

  /** The value of a sum of terms under the assignment `x`. */
  function Eval(ts: seq<Term>, x: Var -> int): int
  {
    if |ts| == 0 then 0 else Eval(ts[..|ts| - 1], x) + ts[|ts| - 1].coeff * x(ts[|ts| - 1].v)
  }

  predicate Holds(r: Row, x: Var -> int)
  {
    match r.sense
    case Equal => Eval(r.terms, x) == r.rhs
    case AtMost => Eval(r.terms, x) <= r.rhs
  }

  ghost predicate Satisfies(lp: Lp, x: Var -> int)
  {
    forall r :: r in lp.rows ==> Holds(r, x)
  }

  function Objective(lp: Lp, x: Var -> int): int
  {
    Eval(lp.hostCost, x) + Eval(lp.migrationCost, x)
  }

  /** `a` puts VM j on PM `a[j]`, one entry per VM, every entry a PM. */
  ghost predicate Placement(a: seq<int>, numVMs: nat, numPMs: nat)
  {
    |a| == numVMs && forall j :: 0 <= j < |a| ==> 0 <= a[j] < numPMs
  }

  /** The 0/1 values of the variables for placement `a`. */
  function Encode(vms: seq<VM>, a: seq<int>): Var -> int
  {
    (v: Var) =>
      match v
      case Alloc(j, i) => if 0 <= j < |a| && a[j] == i then 1 else 0
      case Active(i) => if i in a then 1 else 0
      case Migr(j) => if 0 <= j < |a| && j < |vms| && a[j] != vms[j].initialID then 1 else 0
  }

  /** Demand in dimension `d` of the first `n` VMs that `a` puts on PM `i`. */
  function PlacedDemand(vms: seq<VM>, a: seq<int>, i: int, d: nat, n: nat): int
    requires n <= |a| && n <= |vms| && forall j :: 0 <= j < n ==> d < |vms[j].demand|
  {
    if n == 0 then 0 else PlacedDemand(vms, a, i, d, n - 1) + (if a[n - 1] == i then vms[n - 1].demand[d] else 0)
  }

  /** How many of the first `n` VMs `a` moves off their initial PM. */
  function Moved(vms: seq<VM>, a: seq<int>, n: nat): nat
    requires n <= |a| && n <= |vms|
  {
    if n == 0 then 0 else Moved(vms, a, n - 1) + (if a[n - 1] != vms[n - 1].initialID then 1 else 0)
  }

  /** How many of the PMs below `k` host a VM under `a`. */
  function PMsOn(a: seq<int>, k: nat): nat
  {
    if k == 0 then 0 else PMsOn(a, k - 1) + (if k - 1 in a then 1 else 0)
  }

  /** The assignment row of VM j sums to 1 under a placement: every VM is on one PM. */
  lemma {:induction false} AssignmentHolds(vms: seq<VM>, a: seq<int>, j: nat, p: nat, k: nat)
    requires j < |a| && 0 <= a[j] < p && k <= p
    ensures Eval(AssignmentRow(j, p).terms[..k], Encode(vms, a)) == if a[j] < k then 1 else 0
  {
    if k > 0 {
      assert AssignmentRow(j, p).terms[..k][..k - 1] == AssignmentRow(j, p).terms[..k - 1];
      AssignmentHolds(vms, a, j, p, k - 1);
    }
  }

  /** Under a placement, capacity row (d, i) sums to the demand the placement puts on PM i. */
  lemma {:induction false} CapacityValue(vms: seq<VM>, pms: seq<PM>, a: seq<int>, d: nat, i: nat, n: nat)
    requires ProblemOK(vms, pms) && d < |vms[0].demand| && i < |pms| && |a| == |vms| && n <= |vms|
    ensures Eval(CapacityRow(vms, pms, d, i).terms[..n], Encode(vms, a)) == PlacedDemand(vms, a, i, d, n)
  {
    if n > 0 {
      assert CapacityRow(vms, pms, d, i).terms[..n][..n - 1] == CapacityRow(vms, pms, d, i).terms[..n - 1];
      CapacityValue(vms, pms, a, d, i, n - 1);
    }
  }

  /** Under a placement, the budget row sums to the number of VMs moved. */
  lemma {:induction false} BudgetValue(vms: seq<VM>, a: seq<int>, p: nat, ratio: int, n: nat)
    requires |a| == |vms| && n <= |vms| && ratio != 0
    ensures Eval(BudgetRow(|vms|, p, ratio).terms[..n], Encode(vms, a)) == Moved(vms, a, n)
  {
    if n > 0 {
      assert BudgetRow(|vms|, p, ratio).terms[..n][..n - 1] == BudgetRow(|vms|, p, ratio).terms[..n - 1];
      BudgetValue(vms, a, p, ratio, n - 1);
    }
  }

  /** Under a placement, the host part of the objective is 10 per PM that is on. */
  lemma {:induction false} HostCostValue(vms: seq<VM>, a: seq<int>, k: nat)
    ensures Eval(HostCost(k), Encode(vms, a)) ==
      COEFF_NR_OF_ACTIVE_HOSTS * PMsOn(a, k)
  {
    if k > 0 {
      assert HostCost(k)[..k - 1] == HostCost(k - 1);
      HostCostValue(vms, a, k - 1);
    }
  }

  /** Under a placement, the migration part of the objective is 1 per VM moved. */
  lemma {:induction false} MigrationCostValue(vms: seq<VM>, a: seq<int>, n: nat)
    requires |a| == |vms| && n <= |vms|
    ensures Eval(MigrationCost(n), Encode(vms, a)) ==
      COEFF_NR_OF_MIGRATIONS * Moved(vms, a, n)
  {
    if n > 0 {
      assert MigrationCost(n)[..n - 1] == MigrationCost(n - 1);
      MigrationCostValue(vms, a, n - 1);
    }
  }

  lemma TwoTerms(ts: seq<Term>, x: Var -> int)
    requires |ts| == 2
    ensures Eval(ts, x) == ts[0].coeff * x(ts[0].v) + ts[1].coeff * x(ts[1].v)
  {
    assert ts[..1][..0] == [];
    assert Eval(ts[..1], x) == ts[0].coeff * x(ts[0].v);
  }

  /** Under a placement every assignment, activation and migration row holds. */
  lemma StructuralRowsHold(vms: seq<VM>, a: seq<int>, p: nat)
    requires Placement(a, |vms|, p)
    ensures forall r :: r in AssignmentRows(|vms|, p) + ActivationRows(|vms|, p) + MigrationRows(vms) ==>
      Holds(r, Encode(vms, a))
  {
    var n, x := |vms|, Encode(vms, a);
    var act := ActivationTable(n, p);
    forall r | r in AssignmentRows(n, p) + ActivationRows(n, p) + MigrationRows(vms)
      ensures Holds(r, x)
    {
      if r in AssignmentRows(n, p) {
        var j :| 0 <= j < n && r == AssignmentRow(j, p);
        AssignmentHolds(vms, a, j, p, p);
        assert r.terms[..p] == r.terms;
      } else if r in ActivationRows(n, p) {
        FlattenMembers(act, r);
        var j :| 0 <= j < n && r in act[j];
        var i :| 0 <= i < p && r == ActivationRow(j, i);
        TwoTerms(r.terms, x);
        assert a[j] in a;
      } else {
        var j :| 0 <= j < n && r == MigrationRow(vms[j], j);
        TwoTerms(r.terms, x);
      }
    }
  }

  /** The row of every dimension and PM is among the capacity rows. */
  lemma CapacityRowListed(vms: seq<VM>, pms: seq<PM>, d: nat, i: nat)
    requires ProblemOK(vms, pms) && d < |vms[0].demand| && i < |pms|
    ensures CapacityRow(vms, pms, d, i) in CapacityRows(vms, pms)
  {
    var cap := CapacityTable(vms, pms);
    FlattenMembers(cap, CapacityRow(vms, pms, d, i));
    assert cap[d][i] == CapacityRow(vms, pms, d, i);
  }

  /** Every capacity row is the row of some dimension and PM. */
  lemma CapacityRowOrigin(vms: seq<VM>, pms: seq<PM>, r: Row)
    requires ProblemOK(vms, pms) && r in CapacityRows(vms, pms)
    ensures exists i, d :: 0 <= i < |pms| && 0 <= d < |vms[0].demand| && r == CapacityRow(vms, pms, d, i)
  {
    var cap := CapacityTable(vms, pms);
    FlattenMembers(cap, r);
    var d :| 0 <= d < |cap| && r in cap[d];
    var i :| 0 <= i < |cap[d]| && cap[d][i] == r;
    assert r == CapacityRow(vms, pms, d, i);
  }

  /** Under a placement the capacity rows all hold exactly when no PM is over capacity in any dimension. */
  lemma CapacityRowsMeaning(vms: seq<VM>, pms: seq<PM>, a: seq<int>)
    requires ProblemOK(vms, pms) && Placement(a, |vms|, |pms|)
    ensures (forall r :: r in CapacityRows(vms, pms) ==> Holds(r, Encode(vms, a))) <==>
      forall i, d :: 0 <= i < |pms| && 0 <= d < |vms[0].demand| ==> PlacedDemand(vms, a, i, d, |vms|) <= pms[i].capacity[d]
  {
    var n, p, dim, x := |vms|, |pms|, |vms[0].demand|, Encode(vms, a);
    forall i, d | 0 <= i < p && 0 <= d < dim
      ensures CapacityRow(vms, pms, d, i) in CapacityRows(vms, pms)
      ensures Holds(CapacityRow(vms, pms, d, i), x) <==> PlacedDemand(vms, a, i, d, n) <= pms[i].capacity[d]
    {
      CapacityRowListed(vms, pms, d, i);
      CapacityValue(vms, pms, a, d, i, n);
      assert CapacityRow(vms, pms, d, i).terms[..n] == CapacityRow(vms, pms, d, i).terms;
    }
    forall r | r in CapacityRows(vms, pms)
      ensures exists i, d :: 0 <= i < p && 0 <= d < dim && r == CapacityRow(vms, pms, d, i)
    {
      CapacityRowOrigin(vms, pms, r);
    }
  }

  /** A row list made of five parts holds exactly when each part holds. */
  lemma RowsSplit(a: seq<Row>, b: seq<Row>, c: seq<Row>, d: seq<Row>, e: Row, x: Var -> int)
    ensures (forall r :: r in a + b + c + d + [e] ==> Holds(r, x)) <==>
      (forall r :: r in a + b + d ==> Holds(r, x)) && (forall r :: r in c ==> Holds(r, x)) && Holds(e, x)
  {
    var all := a + b + c + d + [e];
    forall r | r in a + b + d || r in c || r == e
      ensures r in all
    {
    }
    forall r | r in all
      ensures r in a + b + d || r in c || r == e
    {
    }
  }

  /**
   * The program describes the allocation problem: the 0/1 encoding of a
   * placement satisfies every row exactly when no PM is over capacity in any
   * dimension and at most `numPMs / maxMigrationsRatio` VMs are moved.
   */
  lemma EncodingSatisfies(vms: seq<VM>, pms: seq<PM>, ratio: int, a: seq<int>)
    requires ProblemOK(vms, pms) && ratio != 0 && Placement(a, |vms|, |pms|)
    ensures Satisfies(BuildLp(vms, pms, ratio), Encode(vms, a)) <==>
      (forall i, d :: 0 <= i < |pms| && 0 <= d < |vms[0].demand| ==> PlacedDemand(vms, a, i, d, |vms|) <= pms[i].capacity[d]) &&
      Moved(vms, a, |vms|) <= CDiv(|pms|, ratio)
  {
    SatisfiesParts(vms, pms, ratio, Encode(vms, a));
    StructuralRowsHold(vms, a, |pms|);
    CapacityRowsMeaning(vms, pms, a);
    BudgetHolds(vms, a, |pms|, ratio);
  }

  /** The program holds exactly when its structural rows, its capacity rows and its budget row hold. */
  lemma SatisfiesParts(vms: seq<VM>, pms: seq<PM>, ratio: int, x: Var -> int)
    requires ProblemOK(vms, pms) && ratio != 0
    ensures Satisfies(BuildLp(vms, pms, ratio), x) <==>
      (forall r :: r in AssignmentRows(|vms|, |pms|) + ActivationRows(|vms|, |pms|) + MigrationRows(vms) ==> Holds(r, x)) &&
      (forall r :: r in CapacityRows(vms, pms) ==> Holds(r, x)) &&
      Holds(BudgetRow(|vms|, |pms|, ratio), x)
  {
    var n, p := |vms|, |pms|;
    RowsSplit(AssignmentRows(n, p), ActivationRows(n, p), CapacityRows(vms, pms), MigrationRows(vms), BudgetRow(n, p, ratio), x);
  }

  /** The budget row holds at the encoding of a placement exactly when few enough VMs move. */
  lemma BudgetHolds(vms: seq<VM>, a: seq<int>, p: nat, ratio: int)
    requires |a| == |vms| && ratio != 0
    ensures Holds(BudgetRow(|vms|, p, ratio), Encode(vms, a)) <==> Moved(vms, a, |vms|) <= CDiv(p, ratio)
  {
    var budget := BudgetRow(|vms|, p, ratio);
    BudgetValue(vms, a, p, ratio, |vms|);
    assert budget.terms[..|vms|] == budget.terms;
  }

  /**
   * The objective of the program at the encoding of a placement is 10 per
   * PM that is on plus 1 per VM moved, the cost the allocators minimise.
   */
  lemma EncodingObjective(vms: seq<VM>, pms: seq<PM>, ratio: int, a: seq<int>)
    requires ProblemOK(vms, pms) && ratio != 0 && Placement(a, |vms|, |pms|)
    ensures Objective(BuildLp(vms, pms, ratio), Encode(vms, a)) ==
      COEFF_NR_OF_ACTIVE_HOSTS * PMsOn(a, |pms|) + COEFF_NR_OF_MIGRATIONS * Moved(vms, a, |vms|)
  {
    HostCostValue(vms, a, |pms|);
    MigrationCostValue(vms, a, |vms|);
  }
}
