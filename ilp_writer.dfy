/**
 * How `ILPAllocator::create_lp` (IlpAllocator.cpp) prints the program of
 * `IlpModel`, in Gurobi's format ("Minimize … Subject To … Binary … End")
 * or in lp_solve's ("min: …; … bin …;"). `Render` says what the file
 * holds; `CreateLp` writes it piece by piece, loop by loop, as the source
 * does, and is proved to produce exactly `Render` of the program.
 */
module IlpWriter {
  import opened Params
  import opened CInt
  import opened Machines
  import opened IlpModel

  // ---------------------------------------------------------------------
  // What the file holds

  /** The name of a variable in the file. */
  function Name(v: Var): string
  {
    match v
    case Active(i) => "Active_" + IntText(i)
    case Migr(j) => "Migr_" + IntText(j)
    case Alloc(j, i) => "Alloc_" + IntText(j) + "_" + IntText(i)
  }

  /** A term with its coefficient written out: `c name`. */
  function TermText(t: Term): string
  {
    IntText(t.coeff) + " " + Name(t.v)
  }

  /** Terms with their coefficients, separated by ` + `. */
  function ExplicitText(ts: seq<Term>): string
  {
    if |ts| == 0 then ""
    else ExplicitText(ts[..|ts| - 1]) + ((if |ts| > 1 then " + " else "") + TermText(ts[|ts| - 1]))
  }

  /** Terms of unit coefficient: the first by name, each later one after ` + ` or ` - ` by its sign. */
  function ImplicitText(ts: seq<Term>): string
  {
    if |ts| == 0 then ""
    else
      var sign := if |ts| == 1 then "" else if ts[|ts| - 1].coeff < 0 then " - " else " + ";
      ImplicitText(ts[..|ts| - 1]) + (sign + Name(ts[|ts| - 1].v))
  }

  /** Terms each written after ` + `, as the migration part of the objective is. */
  function PrefixedText(ts: seq<Term>): string
  {
    if |ts| == 0 then "" else PrefixedText(ts[..|ts| - 1]) + (" + " + TermText(ts[|ts| - 1]))
  }

  /** Variable names separated by `sep`. */
  function NamesJoined(vs: seq<Var>, sep: string): string
  {
    if |vs| == 0 then ""
    else NamesJoined(vs[..|vs| - 1], sep) + ((if |vs| > 1 then sep else "") + Name(vs[|vs| - 1]))
  }

  /** Variable names each written after `pre`. */
  function NamesPrefixed(vs: seq<Var>, pre: string): string
  {
    if |vs| == 0 then "" else NamesPrefixed(vs[..|vs| - 1], pre) + (pre + Name(vs[|vs| - 1]))
  }

  /** The end of a row: a newline for Gurobi, `;` and a newline for lp_solve. */
  function EndOfRow(solver: SolverType): string
  {
    match solver
    case GUROBI => "\n"
    case LPSOLVE => ";\n"
  }

  function SenseText(sense: Sense): string
  {
    match sense
    case AtMost => " <= "
    case Equal => " = "
  }

  /** One constraint: label, terms, sense, right-hand side, end of row. */
  function RowText(r: Row, solver: SolverType): string
  {
    r.name + (if r.explicit then ExplicitText(r.terms) else ImplicitText(r.terms)) +
      SenseText(r.sense) + IntText(r.rhs) + EndOfRow(solver)
  }

  function RowsText(rows: seq<Row>, solver: SolverType): string
  {
    if |rows| == 0 then "" else RowsText(rows[..|rows| - 1], solver) + RowText(rows[|rows| - 1], solver)
  }

  function ObjectiveOpen(solver: SolverType): string
  {
    match solver
    case GUROBI => "Minimize\n"
    case LPSOLVE => "min: "
  }

  function ObjectiveClose(solver: SolverType): string
  {
    match solver
    case GUROBI => "\n\nSubject To\n"
    case LPSOLVE => ";\n\n"
  }

  /** The objective section, up to the first constraint. */
  function ObjectiveText(hostCost: seq<Term>, migrationCost: seq<Term>, solver: SolverType): string
  {
    ObjectiveOpen(solver) + ExplicitText(hostCost) + PrefixedText(migrationCost) + ObjectiveClose(solver)
  }

  function BinaryOpen(solver: SolverType): string
  {
    match solver
    case GUROBI => "\nBinary\n"
    case LPSOLVE => "\nbin "
  }

  /** What separates the `Migr_j` declarations, and what precedes each later one. */
  function BinarySeparator(solver: SolverType): string
  {
    match solver
    case GUROBI => " "
    case LPSOLVE => ", "
  }

  function BinaryClose(solver: SolverType): string
  {
    match solver
    case GUROBI => "\nEnd\n"
    case LPSOLVE => ";\n"
  }

  /** The binary declarations, to the end of the file. */
  function BinaryText(head: seq<Var>, tail: seq<Var>, solver: SolverType): string
  {
    BinaryOpen(solver) + NamesJoined(head, BinarySeparator(solver)) +
      NamesPrefixed(tail, BinarySeparator(solver)) + BinaryClose(solver)
  }

  /** The whole file for program `lp`. */
  function Render(lp: Lp, solver: SolverType): string
  {
    ObjectiveText(lp.hostCost, lp.migrationCost, solver) + RowsText(lp.rows, solver) +
      BinaryText(lp.binaryHead, lp.binaryTail, solver)
  }

  // ---------------------------------------------------------------------
  // How the texts grow

  lemma Associative(x: string, y: string, z: string)
    ensures (x + y) + z == x + (y + z)
  {
  }

  lemma AppendTwice(x: string, y: string, z: string, w: string)
    ensures ((x + y) + z) + w == x + (y + (z + w))
  {
    Associative(x + y, z, w);
    Associative(x, y, z + w);
  }

  lemma AppendThrice(x: string, a: string, b: string, c: string, d: string)
    ensures (((x + a) + b) + c) + d == x + (((a + b) + c) + d)
  {
    Associative(x, a, b);
    Associative(x, a + b, c);
    Associative(x, (a + b) + c, d);
  }

  lemma {:induction false} RowsTextAppend(a: seq<Row>, b: seq<Row>, solver: SolverType)
    ensures RowsText(a + b, solver) == RowsText(a, solver) + RowsText(b, solver)
  {
    if |b| == 0 {
      assert a + b == a;
    } else {
      var front, last := b[..|b| - 1], b[|b| - 1];
      assert (a + b)[..|a + b| - 1] == a + front;
      assert RowsText(a + b, solver) == RowsText(a + front, solver) + RowText(last, solver);
      RowsTextAppend(a, front, solver);
      Associative(RowsText(a, solver), RowsText(front, solver), RowText(last, solver));
    }
  }

  lemma {:induction false} NamesPrefixedAppend(a: seq<Var>, b: seq<Var>, pre: string)
    ensures NamesPrefixed(a + b, pre) == NamesPrefixed(a, pre) + NamesPrefixed(b, pre)
  {
    if |b| == 0 {
      assert a + b == a;
    } else {
      var front, last := b[..|b| - 1], b[|b| - 1];
      assert (a + b)[..|a + b| - 1] == a + front;
      assert NamesPrefixed(a + b, pre) == NamesPrefixed(a + front, pre) + (pre + Name(last));
      NamesPrefixedAppend(a, front, pre);
      Associative(NamesPrefixed(a, pre), NamesPrefixed(front, pre), pre + Name(last));
    }
  }

  /** The rows of a table, table row after table row. */
  lemma RowsTextFlattenSnoc(t: seq<seq<Row>>, k: nat, solver: SolverType)
    requires k < |t|
    ensures RowsText(Flatten(t[..k + 1]), solver) == RowsText(Flatten(t[..k]), solver) + RowsText(t[k], solver)
  {
    FlattenSnoc(t, k);
    RowsTextAppend(Flatten(t[..k]), t[k], solver);
  }

  lemma NamesPrefixedFlattenSnoc(t: seq<seq<Var>>, k: nat, pre: string)
    requires k < |t|
    ensures NamesPrefixed(Flatten(t[..k + 1]), pre) == NamesPrefixed(Flatten(t[..k]), pre) + NamesPrefixed(t[k], pre)
  {
    FlattenSnoc(t, k);
    NamesPrefixedAppend(Flatten(t[..k]), t[k], pre);
  }

  // One step of each loop: the text after element k is the text before it
  // followed by what the loop body writes for it.

  lemma ExplicitStep(out: string, ts: seq<Term>, k: nat)
    requires k < |ts|
    ensures out + ExplicitText(ts[..k + 1]) ==
      (if k > 0 then out + ExplicitText(ts[..k]) + " + " else out + ExplicitText(ts[..k])) + TermText(ts[k])
  {
    assert ts[..k + 1][..k] == ts[..k];
    var sep := if k > 0 then " + " else "";
    AppendTwice(out, ExplicitText(ts[..k]), sep, TermText(ts[k]));
    if k == 0 {
      assert out + ExplicitText(ts[..k]) + sep == out + ExplicitText(ts[..k]);
    }
  }

  lemma ImplicitStep(out: string, ts: seq<Term>, k: nat)
    requires k < |ts|
    ensures out + ImplicitText(ts[..k + 1]) ==
      (if k == 0 then out + ImplicitText(ts[..k])
       else if ts[k].coeff < 0 then out + ImplicitText(ts[..k]) + " - "
       else out + ImplicitText(ts[..k]) + " + ") + Name(ts[k].v)
  {
    assert ts[..k + 1][..k] == ts[..k];
    var sign := if k == 0 then "" else if ts[k].coeff < 0 then " - " else " + ";
    AppendTwice(out, ImplicitText(ts[..k]), sign, Name(ts[k].v));
    if k == 0 {
      assert out + ImplicitText(ts[..k]) + sign == out + ImplicitText(ts[..k]);
    }
  }

  lemma PrefixedStep(out: string, ts: seq<Term>, k: nat)
    requires k < |ts|
    ensures out + PrefixedText(ts[..k + 1]) == out + PrefixedText(ts[..k]) + " + " + TermText(ts[k])
  {
    assert ts[..k + 1][..k] == ts[..k];
    AppendTwice(out, PrefixedText(ts[..k]), " + ", TermText(ts[k]));
  }

  lemma JoinedStep(out: string, vs: seq<Var>, sep: string, k: nat)
    requires k < |vs|
    ensures out + NamesJoined(vs[..k + 1], sep) ==
      (if k > 0 then out + NamesJoined(vs[..k], sep) + sep else out + NamesJoined(vs[..k], sep)) + Name(vs[k])
  {
    assert vs[..k + 1][..k] == vs[..k];
    var s := if k > 0 then sep else "";
    AppendTwice(out, NamesJoined(vs[..k], sep), s, Name(vs[k]));
    if k == 0 {
      assert out + NamesJoined(vs[..k], sep) + s == out + NamesJoined(vs[..k], sep);
    }
  }

  lemma PrefixedNamesStep(out: string, vs: seq<Var>, pre: string, k: nat)
    requires k < |vs|
    ensures out + NamesPrefixed(vs[..k + 1], pre) == out + NamesPrefixed(vs[..k], pre) + pre + Name(vs[k])
  {
    assert vs[..k + 1][..k] == vs[..k];
    AppendTwice(out, NamesPrefixed(vs[..k], pre), pre, Name(vs[k]));
  }

  lemma PrefixedNamesNext(out: string, r: string, vs: seq<Var>, pre: string, k: nat, next: string)
    requires k < |vs| && r == out + NamesPrefixed(vs[..k], pre) && next == r + pre + Name(vs[k])
    ensures next == out + NamesPrefixed(vs[..k + 1], pre)
  {
    PrefixedNamesStep(out, vs, pre, k);
  }

  lemma RowsStep(out: string, rows: seq<Row>, k: nat, solver: SolverType)
    requires k < |rows|
    ensures out + RowsText(rows[..k + 1], solver) == out + RowsText(rows[..k], solver) + RowText(rows[k], solver)
  {
    assert rows[..k + 1][..k] == rows[..k];
    Associative(out, RowsText(rows[..k], solver), RowText(rows[k], solver));
  }

  /** Two terms of unit coefficient: `a + b` or `a - b`. */
  lemma ImplicitPair(out: string, ts: seq<Term>)
    requires |ts| == 2
    ensures out + ImplicitText(ts) == out + Name(ts[0].v) + (if ts[1].coeff < 0 then " - " else " + ") + Name(ts[1].v)
  {
    var sign := if ts[1].coeff < 0 then " - " else " + ";
    assert ts[..1][..0] == [];
    assert ImplicitText(ts[..1]) == Name(ts[0].v);
    assert ImplicitText(ts) == Name(ts[0].v) + (sign + Name(ts[1].v));
    AppendTwice(out, Name(ts[0].v), sign, Name(ts[1].v));
  }

  /** A row is its label and terms, then its sense and right-hand side (`tail`), then the end of row. */
  lemma RowShape(out: string, r: Row, tail: string, solver: SolverType)
    requires tail == SenseText(r.sense) + IntText(r.rhs)
    ensures out + RowText(r, solver) ==
      out + r.name + (if r.explicit then ExplicitText(r.terms) else ImplicitText(r.terms)) + tail + EndOfRow(solver)
  {
    var terms := if r.explicit then ExplicitText(r.terms) else ImplicitText(r.terms);
    Associative(r.name + terms, SenseText(r.sense), IntText(r.rhs));
    AppendThrice(out, r.name, terms, tail, EndOfRow(solver));
  }

  // ---------------------------------------------------------------------
  // Writing the file, section by section. Each method appends to `out`,
  // the text written so far, as the source appends to the output stream.

  /** `endl` for Gurobi, `;` and `endl` for lp_solve. */
  method WriteEndOfRow(out: string, solver: SolverType) returns (r: string)
    ensures r == out + EndOfRow(solver)
  {
    r := out;
    if solver == GUROBI {
      r := r + "\n";
    }
    if solver == LPSOLVE {
      r := r + ";\n";
    }
  }

  /** `10 Active_i` for each PM, joined by ` + `. */
  method WriteHostCost(out: string, numPMs: nat) returns (r: string)
    ensures r == out + ExplicitText(HostCost(numPMs))
  {
    r := out;
    var i := 0;
    while i < numPMs
      invariant i <= numPMs
      invariant r == out + ExplicitText(HostCost(numPMs)[..i])
    {
      ExplicitStep(out, HostCost(numPMs), i);
      if i > 0 {
        r := r + " + ";
      }
      r := r + TermText(Term(COEFF_NR_OF_ACTIVE_HOSTS, Active(i)));
      i := i + 1;
    }
    assert HostCost(numPMs)[..numPMs] == HostCost(numPMs);
  }

  /** ` + 1 Migr_j` for each VM. */
  method WriteMigrationCost(out: string, numVMs: nat) returns (r: string)
    ensures r == out + PrefixedText(MigrationCost(numVMs))
  {
    r := out;
    var j := 0;
    while j < numVMs
      invariant j <= numVMs
      invariant r == out + PrefixedText(MigrationCost(numVMs)[..j])
    {
      PrefixedStep(out, MigrationCost(numVMs), j);
      r := r + " + " + TermText(Term(COEFF_NR_OF_MIGRATIONS, Migr(j)));
      j := j + 1;
    }
    assert MigrationCost(numVMs)[..numVMs] == MigrationCost(numVMs);
  }

  /** The objective: `10 Active_i` joined by ` + `, then ` + 1 Migr_j` for each VM. */
  method WriteObjective(out: string, numVMs: nat, numPMs: nat, solver: SolverType) returns (r: string)
    ensures r == out + ObjectiveText(HostCost(numPMs), MigrationCost(numVMs), solver)
  {
    r := out;
    if solver == GUROBI {
      r := r + "Minimize\n";
    }
    if solver == LPSOLVE {
      r := r + "min: ";
    }
    ghost var open := r;
    r := WriteHostCost(r, numPMs);
    r := WriteMigrationCost(r, numVMs);
    if solver == GUROBI {
      r := r + "\n\nSubject To\n";
    }
    if solver == LPSOLVE {
      r := r + ";\n\n";
    }
    AppendThrice(out, ObjectiveOpen(solver), ExplicitText(HostCost(numPMs)), PrefixedText(MigrationCost(numVMs)), ObjectiveClose(solver));
  }

  // ---------------------------------------------------------------------
  // The constraint rows

  /** The fixed endings `create_lp` writes after some rows. */
  lemma EqualsOne()
    ensures " = 1" == SenseText(Equal) + IntText(1)
  {
  }

  lemma AtMostZero()
    ensures " <= 0" == SenseText(AtMost) + IntText(0)
  {
  }

  /** `Alloc_j_0 + … + Alloc_j_{P-1} = 1`. */
  method WriteAssignmentRow(out: string, j: nat, numPMs: nat, solver: SolverType) returns (r: string)
    ensures r == out + RowText(AssignmentRow(j, numPMs), solver)
  {
    ghost var row := AssignmentRow(j, numPMs);
    r := out;
    var i := 0;
    while i < numPMs
      invariant i <= numPMs
      invariant r == out + ImplicitText(row.terms[..i])
    {
      ImplicitStep(out, row.terms, i);
      if i > 0 {
        r := r + " + ";
      }
      r := r + Name(Alloc(j, i));
      i := i + 1;
    }
    assert row.terms[..numPMs] == row.terms;
    r := r + " = 1";
    r := WriteEndOfRow(r, solver);
    EqualsOne();
    RowShape(out, row, " = 1", solver);
  }

  /** One assignment row per VM. */
  method WriteAssignmentRows(out: string, numVMs: nat, numPMs: nat, solver: SolverType) returns (r: string)
    ensures r == out + RowsText(AssignmentRows(numVMs, numPMs), solver)
  {
    ghost var rows := AssignmentRows(numVMs, numPMs);
    r := out;
    var j := 0;
    while j < numVMs
      invariant j <= numVMs
      invariant r == out + RowsText(rows[..j], solver)
    {
      RowsStep(out, rows, j, solver);
      r := WriteAssignmentRow(r, j, numPMs, solver);
      j := j + 1;
    }
    assert rows[..numVMs] == rows;
  }

  /** `Alloc_j_i - Active_i <= 0`. */
  method WriteActivationRow(out: string, j: nat, i: nat, solver: SolverType) returns (r: string)
    ensures r == out + RowText(ActivationRow(j, i), solver)
  {
    ghost var row := ActivationRow(j, i);
    ImplicitPair(out, row.terms);
    r := out + Name(Alloc(j, i)) + " - " + Name(Active(i));
    assert r == out + row.name + ImplicitText(row.terms);
    r := r + " <= 0";
    r := WriteEndOfRow(r, solver);
    AtMostZero();
    RowShape(out, row, " <= 0", solver);
  }

  /** The activation rows of VM j, one per PM. */
  method WriteActivationRowsOf(out: string, j: nat, numVMs: nat, numPMs: nat, solver: SolverType) returns (r: string)
    requires j < numVMs
    ensures r == out + RowsText(ActivationTable(numVMs, numPMs)[j], solver)
  {
    ghost var rows := ActivationTable(numVMs, numPMs)[j];
    r := out;
    var i := 0;
    while i < numPMs
      invariant i <= numPMs
      invariant r == out + RowsText(rows[..i], solver)
    {
      RowsStep(out, rows, i, solver);
      r := WriteActivationRow(r, j, i, solver);
      i := i + 1;
    }
    assert rows[..numPMs] == rows;
  }

  /** One activation row per (VM, PM), VM-major. */
  method WriteActivationRows(out: string, numVMs: nat, numPMs: nat, solver: SolverType) returns (r: string)
    ensures r == out + RowsText(ActivationRows(numVMs, numPMs), solver)
  {
    ghost var t := ActivationTable(numVMs, numPMs);
    r := out;
    var j := 0;
    while j < numVMs
      invariant j <= numVMs
      invariant r == out + RowsText(Flatten(t[..j]), solver)
    {
      RowsTextFlattenSnoc(t, j, solver);
      Associative(out, RowsText(Flatten(t[..j]), solver), RowsText(t[j], solver));
      r := WriteActivationRowsOf(r, j, numVMs, numPMs, solver);
      j := j + 1;
    }
    assert t[..numVMs] == t;
  }

  /** `dim_d_PM_i: demand_0[d] Alloc_0_i + … <= capacity_i[d]`. */
  method WriteCapacityRow(out: string, vms: seq<VM>, pms: seq<PM>, d: nat, i: nat, solver: SolverType) returns (r: string)
    requires ProblemOK(vms, pms) && d < |vms[0].demand| && i < |pms|
    ensures r == out + RowText(CapacityRow(vms, pms, d, i), solver)
  {
    ghost var row := CapacityRow(vms, pms, d, i);
    var pmSize := pms[i].capacity[d];
    r := out + ("dim_" + IntText(d) + "_PM_" + IntText(i) + ": ");
    ghost var labelled := r;
    var j := 0;
    while j < |vms|
      invariant j <= |vms|
      invariant r == labelled + ExplicitText(row.terms[..j])
    {
      ExplicitStep(labelled, row.terms, j);
      var vmSize := vms[j].demand[d];
      if j > 0 {
        r := r + " + ";
      }
      r := r + TermText(Term(vmSize, Alloc(j, i)));
      j := j + 1;
    }
    assert row.terms[..|vms|] == row.terms;
    Associative(r, " <= ", IntText(pmSize));
    r := r + " <= " + IntText(pmSize);
    r := WriteEndOfRow(r, solver);
    RowShape(out, row, " <= " + IntText(pmSize), solver);
  }

  /** The capacity rows of dimension d for the first n PMs, as the loop over PMs writes them. */
  function CapacityLines(vms: seq<VM>, pms: seq<PM>, d: nat, n: nat, solver: SolverType): string
    requires ProblemOK(vms, pms) && d < |vms[0].demand| && n <= |pms|
  {
    if n == 0 then "" else CapacityLines(vms, pms, d, n - 1, solver) + RowText(CapacityRow(vms, pms, d, n - 1), solver)
  }

  /** The capacity rows of the first n dimensions, as the loop over dimensions writes them. */
  function CapacityText(vms: seq<VM>, pms: seq<PM>, n: nat, solver: SolverType): string
    requires ProblemOK(vms, pms) && n <= |vms[0].demand|
  {
    if n == 0 then "" else CapacityText(vms, pms, n - 1, solver) + CapacityLines(vms, pms, n - 1, |pms|, solver)
  }

  lemma RowsTextPrefix(rows: seq<Row>, n: nat, solver: SolverType)
    requires 0 < n <= |rows|
    ensures RowsText(rows[..n], solver) == RowsText(rows[..n - 1], solver) + RowText(rows[n - 1], solver)
  {
    assert rows[..n][..n - 1] == rows[..n - 1];
  }

  /** The text of the loop over PMs is the text of the first n rows of the table's dimension d. */
  lemma {:induction false} CapacityLinesAreRows(vms: seq<VM>, pms: seq<PM>, d: nat, n: nat, solver: SolverType)
    requires ProblemOK(vms, pms) && d < |vms[0].demand| && n <= |pms|
    ensures CapacityLines(vms, pms, d, n, solver) == RowsText(CapacityTable(vms, pms)[d][..n], solver)
  {
    if n > 0 {
      var rows := CapacityTable(vms, pms)[d];
      CapacityLinesAreRows(vms, pms, d, n - 1, solver);
      RowsTextPrefix(rows, n, solver);
      assert rows[n - 1] == CapacityRow(vms, pms, d, n - 1);
    }
  }

  /** The text of the loop over dimensions is the text of the first n blocks of the table. */
  lemma {:induction false} CapacityTextIsRows(vms: seq<VM>, pms: seq<PM>, n: nat, solver: SolverType)
    requires ProblemOK(vms, pms) && n <= |vms[0].demand|
    ensures CapacityText(vms, pms, n, solver) == RowsText(Flatten(CapacityTable(vms, pms)[..n]), solver)
  {
    if n > 0 {
      CapacityTextIsRows(vms, pms, n - 1, solver);
      CapacityBlockText(vms, pms, n - 1, solver);
      RowsTextFlattenSnoc(CapacityTable(vms, pms), n - 1, solver);
    }
  }

  /** The text of the loop over PMs is the text of the table's dimension d. */
  lemma CapacityBlockText(vms: seq<VM>, pms: seq<PM>, d: nat, solver: SolverType)
    requires ProblemOK(vms, pms) && d < |vms[0].demand|
    ensures CapacityLines(vms, pms, d, |pms|, solver) == RowsText(CapacityTable(vms, pms)[d], solver)
  {
    CapacityLinesAreRows(vms, pms, d, |pms|, solver);
    assert CapacityTable(vms, pms)[d][..|pms|] == CapacityTable(vms, pms)[d];
  }

  lemma CapacityLinesNext(out: string, r: string, vms: seq<VM>, pms: seq<PM>, d: nat, i: nat, solver: SolverType, next: string)
    requires ProblemOK(vms, pms) && d < |vms[0].demand| && i < |pms|
    requires r == out + CapacityLines(vms, pms, d, i, solver)
    requires next == r + RowText(CapacityRow(vms, pms, d, i), solver)
    ensures next == out + CapacityLines(vms, pms, d, i + 1, solver)
  {
    Associative(out, CapacityLines(vms, pms, d, i, solver), RowText(CapacityRow(vms, pms, d, i), solver));
  }

  /** The capacity rows of dimension d, one per PM. */
  method WriteCapacityRowsOf(out: string, vms: seq<VM>, pms: seq<PM>, d: nat, solver: SolverType) returns (r: string)
    requires ProblemOK(vms, pms) && d < |vms[0].demand|
    ensures r == out + CapacityLines(vms, pms, d, |pms|, solver)
  {
    r := out;
    var i := 0;
    while i < |pms|
      invariant i <= |pms|
      invariant r == out + CapacityLines(vms, pms, d, i, solver)
    {
      var next := WriteCapacityRow(r, vms, pms, d, i, solver);
      CapacityLinesNext(out, r, vms, pms, d, i, solver, next);
      r := next;
      i := i + 1;
    }
  }

  /** One capacity row per (dimension, PM), dimension-major. */
  method WriteCapacityRows(out: string, vms: seq<VM>, pms: seq<PM>, solver: SolverType) returns (r: string)
    requires ProblemOK(vms, pms)
    ensures r == out + CapacityText(vms, pms, |vms[0].demand|, solver)
  {
    var dimension := |vms[0].demand|;
    var rows := "";
    var d := 0;
    while d < dimension
      invariant d <= dimension
      invariant rows == CapacityText(vms, pms, d, solver)
    {
      rows := WriteCapacityRowsOf(rows, vms, pms, d, solver);
      d := d + 1;
    }
    r := out + rows;
  }

  /** What the loops over dimensions and PMs write is the capacity rows of the program. */
  lemma CapacityRowsText(vms: seq<VM>, pms: seq<PM>, solver: SolverType)
    requires ProblemOK(vms, pms)
    ensures CapacityText(vms, pms, |vms[0].demand|, solver) == RowsText(CapacityRows(vms, pms), solver)
  {
    CapacityTextIsRows(vms, pms, |vms[0].demand|, solver);
    assert CapacityTable(vms, pms)[..|vms[0].demand|] == CapacityTable(vms, pms);
  }

  /** `Alloc_j_<initialID> + Migr_j = 1`. */
  method WriteMigrationRow(out: string, vm: VM, j: nat, solver: SolverType) returns (r: string)
    ensures r == out + RowText(MigrationRow(vm, j), solver)
  {
    var initial := vm.initialID;
    ghost var row := MigrationRow(vm, j);
    ImplicitPair(out, row.terms);
    r := out + Name(Alloc(j, initial)) + " + " + Name(Migr(j));
    assert r == out + row.name + ImplicitText(row.terms);
    r := r + " = 1";
    r := WriteEndOfRow(r, solver);
    EqualsOne();
    RowShape(out, row, " = 1", solver);
  }

  /** One migration row per VM. */
  method WriteMigrationRows(out: string, vms: seq<VM>, solver: SolverType) returns (r: string)
    ensures r == out + RowsText(MigrationRows(vms), solver)
  {
    ghost var rows := MigrationRows(vms);
    r := out;
    var j := 0;
    while j < |vms|
      invariant j <= |vms|
      invariant r == out + RowsText(rows[..j], solver)
    {
      var next := WriteMigrationRow(r, vms[j], j, solver);
      MigrationRowsNext(out, r, vms, j, solver, next);
      r := next;
      j := j + 1;
    }
    assert rows[..|vms|] == rows;
  }

  lemma MigrationRowsNext(out: string, r: string, vms: seq<VM>, j: nat, solver: SolverType, next: string)
    requires j < |vms|
    requires r == out + RowsText(MigrationRows(vms)[..j], solver)
    requires next == r + RowText(MigrationRow(vms[j], j), solver)
    ensures next == out + RowsText(MigrationRows(vms)[..j + 1], solver)
  {
    RowsStep(out, MigrationRows(vms), j, solver);
  }

  /** `Migr_0 + … + Migr_{N-1} <= numPMs / maxMigrationsRatio`. */
  method WriteBudgetRow(out: string, numVMs: nat, numPMs: nat, ratio: int, solver: SolverType) returns (r: string)
    requires ratio != 0
    ensures r == out + RowText(BudgetRow(numVMs, numPMs, ratio), solver)
  {
    ghost var row := BudgetRow(numVMs, numPMs, ratio);
    r := out;
    var j := 0;
    while j < numVMs
      invariant j <= numVMs
      invariant r == out + ImplicitText(row.terms[..j])
    {
      ImplicitStep(out, row.terms, j);
      if j > 0 {
        r := r + " + ";
      }
      r := r + Name(Migr(j));
      j := j + 1;
    }
    assert row.terms[..numVMs] == row.terms;
    var bound := CDiv(numPMs, ratio);
    Associative(r, " <= ", IntText(bound));
    r := r + " <= " + IntText(bound);
    r := WriteEndOfRow(r, solver);
    RowShape(out, row, " <= " + IntText(bound), solver);
  }

  // ---------------------------------------------------------------------
  // The binary declarations

  /** `Migr_0`, `Migr_1`, … separated by a space (Gurobi) or `, ` (lp_solve). */
  method WriteMigrDeclarations(out: string, numVMs: nat, solver: SolverType) returns (r: string)
    ensures r == out + NamesJoined(MigrVars(numVMs), BinarySeparator(solver))
  {
    ghost var sep := BinarySeparator(solver);
    r := out;
    var j := 0;
    while j < numVMs
      invariant j <= numVMs
      invariant r == out + NamesJoined(MigrVars(numVMs)[..j], sep)
    {
      JoinedStep(out, MigrVars(numVMs), sep, j);
      if j > 0 {
        r := WriteSeparator(r, solver);
      }
      r := r + Name(Migr(j));
      j := j + 1;
    }
    assert MigrVars(numVMs)[..numVMs] == MigrVars(numVMs);
  }

  /** A space between `Migr` declarations for Gurobi, `, ` for lp_solve. */
  method WriteSeparator(out: string, solver: SolverType) returns (r: string)
    ensures r == out + BinarySeparator(solver)
  {
    r := out;
    if solver == GUROBI {
      r := r + " ";
    }
    if solver == LPSOLVE {
      r := r + ", ";
    }
  }

  /** What the source writes before each later declaration: `,` for lp_solve, then a space. */
  lemma SeparatorPieces(x: string, solver: SolverType)
    ensures (if solver == LPSOLVE then x + "," else x) + " " == x + BinarySeparator(solver)
  {
    if solver == LPSOLVE {
      Associative(x, ",", " ");
      assert "," + " " == ", ";
    }
  }

  /** A declaration of `v` after an earlier one. */
  method WriteLaterDeclaration(out: string, v: Var, solver: SolverType) returns (r: string)
    ensures r == out + BinarySeparator(solver) + Name(v)
  {
    r := out;
    if solver == LPSOLVE {
      r := r + ",";
    }
    SeparatorPieces(out, solver);
    r := r + " " + Name(v);
  }

  /** ` Active_i` for each PM, each after `,` for lp_solve. */
  method WriteActiveDeclarations(out: string, numPMs: nat, solver: SolverType) returns (r: string)
    ensures r == out + NamesPrefixed(ActiveVars(numPMs), BinarySeparator(solver))
  {
    ghost var pre := BinarySeparator(solver);
    r := out;
    var i := 0;
    while i < numPMs
      invariant i <= numPMs
      invariant r == out + NamesPrefixed(ActiveVars(numPMs)[..i], pre)
    {
      PrefixedNamesStep(out, ActiveVars(numPMs), pre, i);
      r := WriteLaterDeclaration(r, Active(i), solver);
      i := i + 1;
    }
    assert ActiveVars(numPMs)[..numPMs] == ActiveVars(numPMs);
  }

  /** ` Alloc_j_i` for each PM i, each after `,` for lp_solve. */
  method WriteAllocDeclarationsOf(out: string, j: nat, numVMs: nat, numPMs: nat, solver: SolverType) returns (r: string)
    requires j < numVMs
    ensures r == out + NamesPrefixed(AllocTable(numVMs, numPMs)[j], BinarySeparator(solver))
  {
    ghost var pre := BinarySeparator(solver);
    ghost var vs := AllocTable(numVMs, numPMs)[j];
    r := out;
    var i := 0;
    while i < numPMs
      invariant i <= numPMs
      invariant r == out + NamesPrefixed(vs[..i], pre)
    {
      var next := WriteLaterDeclaration(r, Alloc(j, i), solver);
      PrefixedNamesNext(out, r, vs, pre, i, next);
      r := next;
      i := i + 1;
    }
    assert vs[..numPMs] == vs;
  }

  /** ` Alloc_j_i` for every VM and PM, VM-major. */
  method WriteAllocDeclarations(out: string, numVMs: nat, numPMs: nat, solver: SolverType) returns (r: string)
    ensures r == out + NamesPrefixed(AllocVars(numVMs, numPMs), BinarySeparator(solver))
  {
    ghost var pre := BinarySeparator(solver);
    ghost var t := AllocTable(numVMs, numPMs);
    r := out;
    var j := 0;
    while j < numVMs
      invariant j <= numVMs
      invariant r == out + NamesPrefixed(Flatten(t[..j]), pre)
    {
      NamesPrefixedFlattenSnoc(t, j, pre);
      Associative(out, NamesPrefixed(Flatten(t[..j]), pre), NamesPrefixed(t[j], pre));
      r := WriteAllocDeclarationsOf(r, j, numVMs, numPMs, solver);
      j := j + 1;
    }
    assert t[..numVMs] == t;
  }

  /** The binary section: every `Migr_j`, then every `Active_i`, then every `Alloc_j_i`. */
  method WriteBinaries(out: string, numVMs: nat, numPMs: nat, solver: SolverType) returns (r: string)
    ensures r == out + BinaryText(MigrVars(numVMs), ActiveVars(numPMs) + AllocVars(numVMs, numPMs), solver)
  {
    ghost var pre := BinarySeparator(solver);
    r := out;
    if solver == GUROBI {
      r := r + "\nBinary\n";
    }
    if solver == LPSOLVE {
      r := r + "\nbin ";
    }
    r := WriteMigrDeclarations(r, numVMs, solver);
    ghost var declared := r;
    r := WriteActiveDeclarations(r, numPMs, solver);
    r := WriteAllocDeclarations(r, numVMs, numPMs, solver);
    NamesPrefixedAppend(ActiveVars(numPMs), AllocVars(numVMs, numPMs), pre);
    Associative(declared, NamesPrefixed(ActiveVars(numPMs), pre), NamesPrefixed(AllocVars(numVMs, numPMs), pre));
    if solver == GUROBI {
      r := r + "\nEnd\n";
    }
    if solver == LPSOLVE {
      r := r + ";\n";
    }
    AppendThrice(out, BinaryOpen(solver), NamesJoined(MigrVars(numVMs), pre),
      NamesPrefixed(ActiveVars(numPMs) + AllocVars(numVMs, numPMs), pre), BinaryClose(solver));
  }

  // ---------------------------------------------------------------------
  // The whole file

  /** The rows of the program are its five families one after another. */
  lemma RowsOfProgram(vms: seq<VM>, pms: seq<PM>, ratio: int, solver: SolverType)
    requires ProblemOK(vms, pms) && ratio != 0
    ensures RowsText(BuildLp(vms, pms, ratio).rows, solver) ==
      RowsText(AssignmentRows(|vms|, |pms|), solver) + RowsText(ActivationRows(|vms|, |pms|), solver) +
      CapacityText(vms, pms, |vms[0].demand|, solver) + RowsText(MigrationRows(vms), solver) +
      RowText(BudgetRow(|vms|, |pms|, ratio), solver)
  {
    CapacityRowsText(vms, pms, solver);
    var a, b, c, d := AssignmentRows(|vms|, |pms|), ActivationRows(|vms|, |pms|), CapacityRows(vms, pms), MigrationRows(vms);
    var e := BudgetRow(|vms|, |pms|, ratio);
    RowsTextAppend(a + b + c + d, [e], solver);
    RowsTextAppend(a + b + c, d, solver);
    RowsTextAppend(a + b, c, solver);
    RowsTextAppend(a, b, solver);
    assert [e][..0] == [];
  }

  /**
   * `create_lp`: the objective, the assignment, activation, capacity and
   * migration rows, the migration budget and the binary declarations, in
   * that order, for the given solver's format. The text is exactly the
   * program `BuildLp` printed by `Render`.
   */
  method CreateLp(vms: seq<VM>, pms: seq<PM>, ratio: int, solver: SolverType) returns (text: string)
    requires ProblemOK(vms, pms) && ratio != 0
    ensures text == Render(BuildLp(vms, pms, ratio), solver)
  {
    var numVMs, numPMs := |vms|, |pms|;
    text := WriteObjective("", numVMs, numPMs, solver);
    ghost var objective := text;
    text := WriteAssignmentRows(text, numVMs, numPMs, solver);
    text := WriteActivationRows(text, numVMs, numPMs, solver);
    text := WriteCapacityRows(text, vms, pms, solver);
    text := WriteMigrationRows(text, vms, solver);
    text := WriteBudgetRow(text, numVMs, numPMs, ratio, solver);
    ghost var constrained := text;
    text := WriteBinaries(text, numVMs, numPMs, solver);
    ghost var lp := BuildLp(vms, pms, ratio);
    RowsOfProgram(vms, pms, ratio, solver);
    ConstraintsAppended(objective, RowsText(AssignmentRows(numVMs, numPMs), solver),
      RowsText(ActivationRows(numVMs, numPMs), solver), CapacityText(vms, pms, |vms[0].demand|, solver),
      RowsText(MigrationRows(vms), solver), RowText(BudgetRow(numVMs, numPMs, ratio), solver));
    assert objective == ObjectiveText(lp.hostCost, lp.migrationCost, solver);
    assert constrained == objective + RowsText(lp.rows, solver);
    assert text == constrained + BinaryText(lp.binaryHead, lp.binaryTail, solver);
  }

  lemma ConstraintsAppended(x: string, a: string, b: string, c: string, d: string, e: string)
    ensures x + a + b + c + d + e == x + (a + b + c + d + e)
  {
    AppendThrice(x, a, b, c, d);
    Associative(x, a + b + c + d, e);
  }

  // ---------------------------------------------------------------------
  // Properties of the text

  lemma DigitInjective(a: nat, b: nat)
    requires a < 10 && b < 10 && Digit(a) == Digit(b)
    ensures a == b
  {
  }

  /** Different numbers are printed differently. */
  lemma {:induction false} NatTextInjective(n: nat, m: nat)
    requires NatText(n) == NatText(m)
    ensures n == m
  {
    NatTextLength(n);
    NatTextLength(m);
    if n >= 10 && m >= 10 {
      var s := NatText(n);
      assert s == NatText(n / 10) + [Digit(n % 10)] && s == NatText(m / 10) + [Digit(m % 10)];
      assert s[..|s| - 1] == NatText(n / 10) && s[..|s| - 1] == NatText(m / 10);
      DigitInjective(n % 10, m % 10);
      NatTextInjective(n / 10, m / 10);
    } else if n < 10 && m < 10 {
      DigitInjective(n, m);
    }
  }

  lemma IntTextInjective(n: int, m: int)
    requires IntText(n) == IntText(m)
    ensures n == m
  {
    IntTextChars(n);
    IntTextChars(m);
    if n < 0 && m < 0 {
      assert IntText(n)[1..] == NatText(-n) && IntText(m)[1..] == NatText(-m);
      NatTextInjective(-n, -m);
    } else if n >= 0 && m >= 0 {
      NatTextInjective(n, m);
    }
  }

  /** Two texts split at their first `_` agree on both sides of it. */
  lemma SplitAtUnderscore(a: string, b: string, c: string, d: string)
    requires a + ("_" + b) == c + ("_" + d)
    requires forall k :: 0 <= k < |a| ==> a[k] != '_'
    requires forall k :: 0 <= k < |c| ==> c[k] != '_'
    ensures a == c && b == d
  {
    var s := a + ("_" + b);
    UnderscoreAfter(a, b);
    UnderscoreAfter(c, d);
    assert a == s[..|a|] == c;
    assert b == s[|a| + 1..] == d;
  }

  /** The position of the first `_` of a text, or its length when it has none. */
  function UnderscoreAt(s: string): nat
  {
    if |s| == 0 || s[0] == '_' then 0 else 1 + UnderscoreAt(s[1..])
  }

  lemma {:induction false} UnderscoreAfter(a: string, b: string)
    requires forall k :: 0 <= k < |a| ==> a[k] != '_'
    ensures UnderscoreAt(a + ("_" + b)) == |a|
  {
    if |a| > 0 {
      assert (a + ("_" + b))[1..] == a[1..] + ("_" + b);
      UnderscoreAfter(a[1..], b);
    }
  }

  /** The first two letters of a name tell its kind of variable. */
  lemma NameKind(v: Var)
    ensures |Name(v)| >= 2
    ensures Name(v)[0] == (if v.Migr? then 'M' else 'A')
    ensures Name(v)[1] == (match v case Active(_) => 'c' case Alloc(_, _) => 'l' case Migr(_) => 'i')
  {
  }

  lemma DropPrefix(prefix: string, x: string, y: string)
    requires prefix + x == prefix + y
    ensures x == y
  {
    assert x == (prefix + x)[|prefix|..];
  }

  lemma IndexedNameInjective(prefix: string, n: int, m: int)
    requires prefix + IntText(n) == prefix + IntText(m)
    ensures n == m
  {
    DropPrefix(prefix, IntText(n), IntText(m));
    IntTextInjective(n, m);
  }

  lemma AllocNameInjective(j: int, i: int, j': int, i': int)
    requires Name(Alloc(j, i)) == Name(Alloc(j', i'))
    ensures j == j' && i == i'
  {
    AppendTwice("Alloc_", IntText(j), "_", IntText(i));
    AppendTwice("Alloc_", IntText(j'), "_", IntText(i'));
    DropPrefix("Alloc_", IntText(j) + ("_" + IntText(i)), IntText(j') + ("_" + IntText(i')));
    IntTextChars(j);
    IntTextChars(j');
    SplitAtUnderscore(IntText(j), IntText(i), IntText(j'), IntText(i'));
    IntTextInjective(j, j');
    IntTextInjective(i, i');
  }

  /** Different variables have different names, so the file never confuses two of them. */
  lemma NameInjective(v: Var, w: Var)
    requires Name(v) == Name(w)
    ensures v == w
  {
    NameKind(v);
    NameKind(w);
    match v
    case Active(i) =>
      IndexedNameInjective("Active_", i, w.i);
    case Migr(j) =>
      IndexedNameInjective("Migr_", j, w.j);
    case Alloc(j, i) =>
      AllocNameInjective(j, i, w.j, w.i);
  }

  /** The binary section declares each variable of the program under its own name, once. */
  lemma BinaryNamesOnce(vms: seq<VM>, pms: seq<PM>, ratio: int)
    requires ProblemOK(vms, pms) && ratio != 0
    ensures var lp := BuildLp(vms, pms, ratio);
      var bin := lp.binaryHead + lp.binaryTail;
      (forall v :: Declared(v, |vms|, |pms|) <==> exists k :: 0 <= k < |bin| && Name(bin[k]) == Name(v)) &&
      (forall a, b :: 0 <= a < b < |bin| ==> Name(bin[a]) != Name(bin[b]))
  {
    var lp := BuildLp(vms, pms, ratio);
    var bin := lp.binaryHead + lp.binaryTail;
    BinariesOnce(vms, pms, ratio);
    forall v
      ensures Declared(v, |vms|, |pms|) <==> exists k :: 0 <= k < |bin| && Name(bin[k]) == Name(v)
    {
      if exists k :: 0 <= k < |bin| && Name(bin[k]) == Name(v) {
        var k :| 0 <= k < |bin| && Name(bin[k]) == Name(v);
        NameInjective(bin[k], v);
      }
      if Declared(v, |vms|, |pms|) {
        var k :| 0 <= k < |bin| && bin[k] == v;
      }
    }
    forall a, b | 0 <= a < b < |bin|
      ensures Name(bin[a]) != Name(bin[b])
    {
      if Name(bin[a]) == Name(bin[b]) {
        NameInjective(bin[a], bin[b]);
      }
    }
  }

  /** Text with no line break and no `;`: part of one row, or of one lp_solve statement. */
  ghost predicate Plain(s: string)
  {
    forall k :: 0 <= k < |s| ==> s[k] != '\n' && s[k] != ';'
  }

  lemma PlainAppend(a: string, b: string)
    requires Plain(a) && Plain(b)
    ensures Plain(a + b)
  {
  }

  lemma PlainNumber(n: int)
    ensures Plain(IntText(n))
  {
    IntTextChars(n);
  }

  lemma PlainTerm(t: Term)
    ensures Plain(Name(t.v)) && Plain(TermText(t))
  {
    PlainNumber(t.coeff);
    match t.v
    case Active(i) =>
      PlainNumber(i);
    case Migr(j) =>
      PlainNumber(j);
    case Alloc(j, i) =>
      PlainNumber(j);
      PlainNumber(i);
  }

  lemma {:induction false} PlainExplicit(ts: seq<Term>)
    ensures Plain(ExplicitText(ts))
  {
    if |ts| > 0 {
      var last := ts[|ts| - 1];
      PlainExplicit(ts[..|ts| - 1]);
      PlainTerm(last);
      PlainAppend(if |ts| > 1 then " + " else "", TermText(last));
      PlainAppend(ExplicitText(ts[..|ts| - 1]), (if |ts| > 1 then " + " else "") + TermText(last));
    }
  }

  lemma {:induction false} PlainImplicit(ts: seq<Term>)
    ensures Plain(ImplicitText(ts))
  {
    if |ts| > 0 {
      var last := ts[|ts| - 1];
      var sign := if |ts| == 1 then "" else if last.coeff < 0 then " - " else " + ";
      PlainImplicit(ts[..|ts| - 1]);
      PlainTerm(last);
      PlainAppend(sign, Name(last.v));
      PlainAppend(ImplicitText(ts[..|ts| - 1]), sign + Name(last.v));
    }
  }

  /**
   * A row whose label is plain is exactly one line, ended by the end of
   * row; for lp_solve it is exactly one statement, ended by its only `;`.
   */
  lemma RowIsOneLine(r: Row, solver: SolverType)
    requires Plain(r.name)
    ensures var t := RowText(r, solver);
      |t| >= 2 && t[|t| - 1] == '\n' && (t[|t| - 2] == ';' <==> solver == LPSOLVE) &&
      forall k :: 0 <= k < |t| - 2 ==> t[k] != '\n' && t[k] != ';'
  {
    PlainExplicit(r.terms);
    PlainImplicit(r.terms);
    var terms := if r.explicit then ExplicitText(r.terms) else ImplicitText(r.terms);
    var body := r.name + terms + SenseText(r.sense) + IntText(r.rhs);
    PlainNumber(r.rhs);
    assert Plain(body);
    assert RowText(r, solver) == body + EndOfRow(solver);
  }

  lemma PlainLabel(d: int, i: int)
    ensures Plain(LabelText(d, i))
  {
    PlainNumber(d);
    PlainNumber(i);
  }

  /** Every row of the program has a plain label (none, or `dim_d_PM_i: `). */
  lemma ProgramLabelsPlain(vms: seq<VM>, pms: seq<PM>, ratio: int)
    requires ProblemOK(vms, pms) && ratio != 0
    ensures forall r :: r in BuildLp(vms, pms, ratio).rows ==> Plain(r.name)
  {
    var n, p := |vms|, |pms|;
    forall r | r in BuildLp(vms, pms, ratio).rows
      ensures Plain(r.name)
    {
      if r in CapacityRows(vms, pms) {
        CapacityRowOrigin(vms, pms, r);
        var i, d :| 0 <= i < p && 0 <= d < |vms[0].demand| && r == CapacityRow(vms, pms, d, i);
        PlainLabel(d, i);
      } else if r in ActivationRows(n, p) {
        FlattenMembers(ActivationTable(n, p), r);
      }
    }
  }
}
