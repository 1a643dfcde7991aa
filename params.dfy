/**
 * The parameter records shared by all allocators and the three
 * string-to-enumeration converters of the configuration format
 * (AllocatorParams.h, BnBParams.h, ILPParams.h).
 *
 * A configuration string that names no enumerator falls back to a default
 * (BnB, NONE, LPSOLVE); the warning printed on the way is not modelled.
 */
module Params {

  datatype AllocatorType = BnB | ILP | Greedy

  datatype SortType = NONE | LEXICOGRAPHIC | MAXIMUM | SUM

  datatype SolverType = LPSOLVE | GUROBI

  /** The options only the branch-and-bound allocator reads. */
  datatype BnBSettings = BnBSettings(
    failFirst: bool,
    intelligentBound: bool,
    PMSortMethod: SortType,
    VMSortMethod: SortType,
    initialPMFirst: bool,
    symmetryBreaking: bool,  // loses optimality
    boundThreshold: real     // prune also when cost >= bestSoFar * boundThreshold
  )

  /** The options only the ILP allocator reads. */
  datatype ILPSettings = ILPSettings(solverType: SolverType, solver: string)

  /**
   * The dynamic type of a parameter object: `BnBParams`, `ILPParams` or the
   * plain base record. A `dynamic_pointer_cast` succeeds exactly on the
   * matching variant.
   */
  datatype Variant =
    | BnBVariant(bnb: BnBSettings)
    | ILPVariant(ilp: ILPSettings)
    | BaseVariant

  datatype AllocatorParams = AllocatorParams(
    allocatorType: AllocatorType,
    name: string,
    timeout: real,  // seconds
    maxMigrationsRatio: int,
    variant: Variant
  )

  // ---------------------------------------------------------------------
  // Converters

  function StringToAllocatorType(s: string): (r: AllocatorType)
    ensures r == ILP <==> s == "ILP"
    ensures r == Greedy <==> s == "Greedy"
    ensures r == BnB <==> s != "ILP" && s != "Greedy"
  {
    if s == "BnB" then BnB
    else if s == "ILP" then ILP
    else if s == "Greedy" then Greedy
    else BnB
  }

  function StringToSortType(s: string): (r: SortType)
    ensures r == LEXICOGRAPHIC <==> s == "LEXICOGRAPHIC"
    ensures r == MAXIMUM <==> s == "MAXIMUM"
    ensures r == SUM <==> s == "SUM"
    ensures r == NONE <==> s != "LEXICOGRAPHIC" && s != "MAXIMUM" && s != "SUM"
  {
    if s == "NONE" then NONE
    else if s == "LEXICOGRAPHIC" then LEXICOGRAPHIC
    else if s == "MAXIMUM" then MAXIMUM
    else if s == "SUM" then SUM
    else NONE
  }

  function StringToSolverType(s: string): (r: SolverType)
    ensures r == GUROBI <==> s == "GUROBI"
    ensures r == LPSOLVE <==> s != "GUROBI"
  {
    if s == "LPSOLVE" then LPSOLVE
    else if s == "GUROBI" then GUROBI
    else LPSOLVE
  }

  // ---------------------------------------------------------------------
  // The spelling of each enumerator in a configuration file

  function AllocatorTypeName(t: AllocatorType): string
  {
    match t
    case BnB => "BnB"
    case ILP => "ILP"
    case Greedy => "Greedy"
  }

  function SortTypeName(t: SortType): string
  {
    match t
    case NONE => "NONE"
    case LEXICOGRAPHIC => "LEXICOGRAPHIC"
    case MAXIMUM => "MAXIMUM"
    case SUM => "SUM"
  }

  function SolverTypeName(t: SolverType): string
  {
    match t
    case LPSOLVE => "LPSOLVE"
    case GUROBI => "GUROBI"
  }

  /** Every enumerator is read back from its own spelling. */
  lemma ConvertersRoundTrip(a: AllocatorType, t: SortType, v: SolverType)
    ensures StringToAllocatorType(AllocatorTypeName(a)) == a
    ensures StringToSortType(SortTypeName(t)) == t
    ensures StringToSolverType(SolverTypeName(v)) == v
  {
    match a {
      case BnB => assert AllocatorTypeName(a) != "ILP" && AllocatorTypeName(a) != "Greedy";
      case ILP =>
      case Greedy =>
    }
    match t {
      case NONE =>
        assert SortTypeName(t) != "LEXICOGRAPHIC" && SortTypeName(t) != "MAXIMUM" && SortTypeName(t) != "SUM";
      case LEXICOGRAPHIC =>
      case MAXIMUM =>
      case SUM =>
    }
    match v {
      case LPSOLVE => assert SolverTypeName(v) != "GUROBI";
      case GUROBI =>
    }
  }

  /** Comparison is exact: a name in another letter case selects the default. */
  lemma ConvertersAreCaseSensitive()
    ensures StringToAllocatorType("ilp") == BnB
    ensures StringToAllocatorType("greedy") == BnB
    ensures StringToSortType("sum") == NONE
    ensures StringToSolverType("gurobi") == LPSOLVE
  {
    assert "ilp"[0] != "ILP"[0];
    assert "greedy"[0] != "Greedy"[0];
    assert "sum"[0] != "SUM"[0];
    assert "gurobi"[0] != "GUROBI"[0];
  }
}
