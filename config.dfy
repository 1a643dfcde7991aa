/**
 * The line-based configuration parser (ConfigParser.h, ConfigParser.cpp).
 *
 * A configuration is a sequence of lines. Outside a block, a line
 * `key=value` sets one of the general settings; an unknown key ends the
 * program (`exit(1)`). A line `Allocator{` opens a block that runs up to a
 * line `}` or the end of the input; inside it, `key=value` lines set the
 * pending allocator settings (unknown keys are ignored), and closing the
 * block appends one parameter record built from them. The pending settings
 * are never reset, so a block inherits every setting it does not mention.
 *
 * The file itself is not opened: the model reads the lines `getline`
 * delivered, which therefore contain no newline. `std::stoi` and
 * `std::stod` are the functions of a `Numbers` value; their exceptions are
 * not modelled.
 */
module Config {
  import opened Wrappers
  import opened Params
  import opened Generator

  datatype Steps = Steps(from: int, to: int, step: int)

  /** The settings read outside allocator blocks. */
  datatype GeneralSettings = GeneralSettings(
    showDetailedCost: bool,
    numTests: int,
    dimensions: int,
    VMs: Steps,
    PMs: Steps,
    VMmin: int,
    VMmax: int,
    PMmin: int,
    PMmax: int,
    numPMtypes: int
  )

  /** The settings read inside allocator blocks, kept from block to block. */
  datatype AllocatorSettings = AllocatorSettings(
    allocatorType: AllocatorType,
    name: string,
    timeout: real,
    solverType: SolverType,
    solver: string,
    boundThreshold: real,
    maxMigrationsRatio: int,
    failFirst: bool,
    intelligentBound: bool,
    VMSortMethod: SortType,
    PMSortMethod: SortType,
    symmetryBreaking: bool,
    initialPMFirst: bool
  )

  /** `std::stoi` and `std::stod`. */
  datatype Numbers = Numbers(stoi: string -> int, stod: string -> real)

  /**
   * A line as `getline` delivers it. The newline that ends it is not part
   * of it; nothing here depends on that, so any string is a line.
   */
  type Line = string

  // ---------------------------------------------------------------------
  // getKeyValue and stringToBool

  /** Where `getline(stream, key, '=')` stops: the first '=', or the end. */
  function FirstEquals(line: string): (i: nat)
    ensures i <= |line| && (i < |line| ==> line[i] == '=')
    ensures forall j :: 0 <= j < i ==> line[j] != '='
  {
    if line == [] || line[0] == '=' then 0 else 1 + FirstEquals(line[1..])
  }

  /**
   * `getKeyValue`: the key is the text before the first '=', the value the
   * rest of the line (which may hold more '='). The first `getline` fails on
   * an empty line; the second fails when nothing follows the first '=',
   * which includes a line without any '='. So a line splits exactly when
   * some '=' comes before its last character.
   */
  function KeyValue(line: Line): (r: Option<(string, string)>)
    ensures r.Some? <==> exists j :: 0 <= j < |line| - 1 && line[j] == '='
    ensures r.Some? ==> line == r.value.0 + "=" + r.value.1 && '=' !in r.value.0 && r.value.1 != ""
  {
    var i := FirstEquals(line);
    if i + 1 < |line| then
      assert line == line[..i] + "=" + line[i + 1..];
      Some((line[..i], line[i + 1..]))
    else None
  }

  /** Writing a key and a value with '=' between them reads back as that key and value. */
  lemma KeyValueOf(key: string, value: string)
    requires '=' !in key && value != ""
    ensures KeyValue(key + "=" + value) == Some((key, value))
  {
    var line := key + "=" + value;
    var i := FirstEquals(line);
    assert line[|key|] == '=';
    assert i == |key|;
    assert line[..i] == key && line[i + 1..] == value;
  }

  /** The lines that open and close a block carry no setting. */
  lemma MarkersHaveNoKey()
    ensures KeyValue("Allocator{") == None
    ensures KeyValue("}") == None
  {
  }

  /** `stringToBool`: exactly "true" is true. */
  function StringToBool(s: string): bool
  {
    s == "true"
  }

  function BoolName(b: bool): string
  {
    if b then "true" else "false"
  }

  /** A truth value reads back from its spelling; other spellings of true do not count. */
  lemma BoolRoundTrip(b: bool)
    ensures StringToBool(BoolName(b)) == b
    ensures !StringToBool("True") && !StringToBool("1") && !StringToBool("")
  {
    if !b {
      assert BoolName(b)[0] != "true"[0];
    }
  }

  // ---------------------------------------------------------------------
  // Settings as fields named by keys

  /** The keys `processGeneralParameter` knows. */
  datatype GeneralKey =
    | ShowDetailedCost | NumTests | Dimensions
    | VMsFrom | VMsTo | VMsStep | PMsFrom | PMsTo | PMsStep
    | VMMin | VMMax | PMMin | PMMax | NumPMTypes

  /** The keys `processAllocatorParameter` knows. */
  datatype AllocatorKey =
    | Name | TypeOfAllocator | Timeout | TypeOfSolver | Solver | BoundThreshold
    | MaxMigrationsRatio | FailFirst | IntelligentBound | VMSort | PMSort
    | SymmetryBreaking | InitialPMFirst

  /** How a general key is spelled in a configuration file. */
  function GeneralKeyName(k: GeneralKey): string
  {
    match k
    case ShowDetailedCost => "showDetailedCost"
    case NumTests => "numTests"
    case Dimensions => "dimensions"
    case VMsFrom => "VMsFrom"
    case VMsTo => "VMsTo"
    case VMsStep => "VMsStep"
    case PMsFrom => "PMsFrom"
    case PMsTo => "PMsTo"
    case PMsStep => "PMsStep"
    case VMMin => "VMmin"
    case VMMax => "VMmax"
    case PMMin => "PMmin"
    case PMMax => "PMmax"
    case NumPMTypes => "numPMtypes"
  }

  /** How an allocator key is spelled in a configuration file. */
  function AllocatorKeyName(k: AllocatorKey): string
  {
    match k
    case Name => "name"
    case TypeOfAllocator => "allocatorType"
    case Timeout => "timeout"
    case TypeOfSolver => "solverType"
    case Solver => "solver"
    case BoundThreshold => "boundThreshold"
    case MaxMigrationsRatio => "maxMigrationsRatio"
    case FailFirst => "failFirst"
    case IntelligentBound => "intelligentBound"
    case VMSort => "VMSortMethod"
    case PMSort => "PMSortMethod"
    case SymmetryBreaking => "symmetryBreaking"
    case InitialPMFirst => "initialPMFirst"
  }

  /** The general keys in the order `processGeneralParameter` compares against them. */
  const GeneralKeyOrder: seq<GeneralKey> := [
    ShowDetailedCost, NumTests, Dimensions, VMsFrom, VMsTo, VMsStep,
    PMsFrom, PMsTo, PMsStep, VMMin, VMMax, PMMin, PMMax, NumPMTypes]

  /** The allocator keys in the order `processAllocatorParameter` compares against them. */
  const AllocatorKeyOrder: seq<AllocatorKey> := [
    Name, TypeOfAllocator, Timeout, TypeOfSolver, Solver, BoundThreshold, MaxMigrationsRatio,
    FailFirst, IntelligentBound, VMSort, PMSort, SymmetryBreaking, InitialPMFirst]

  /** Where a general key comes in that order. */
  function GeneralKeyIndex(k: GeneralKey): (i: nat)
    ensures i < |GeneralKeyOrder| && GeneralKeyOrder[i] == k
  {
    match k
    case ShowDetailedCost => 0
    case NumTests => 1
    case Dimensions => 2
    case VMsFrom => 3
    case VMsTo => 4
    case VMsStep => 5
    case PMsFrom => 6
    case PMsTo => 7
    case PMsStep => 8
    case VMMin => 9
    case VMMax => 10
    case PMMin => 11
    case PMMax => 12
    case NumPMTypes => 13
  }

  /** Where an allocator key comes in that order. */
  function AllocatorKeyIndex(k: AllocatorKey): (i: nat)
    ensures i < |AllocatorKeyOrder| && AllocatorKeyOrder[i] == k
  {
    match k
    case Name => 0
    case TypeOfAllocator => 1
    case Timeout => 2
    case TypeOfSolver => 3
    case Solver => 4
    case BoundThreshold => 5
    case MaxMigrationsRatio => 6
    case FailFirst => 7
    case IntelligentBound => 8
    case VMSort => 9
    case PMSort => 10
    case SymmetryBreaking => 11
    case InitialPMFirst => 12
  }

  /** The comparisons of `processGeneralParameter` from the `i`-th key on. */
  function FindGeneralKey(key: string, i: nat): (r: Option<GeneralKey>)
    requires i <= |GeneralKeyOrder|
    decreases |GeneralKeyOrder| - i
    ensures r.Some? ==> GeneralKeyName(r.value) == key
    ensures r.None? ==> forall k :: GeneralKeyIndex(k) >= i ==> GeneralKeyName(k) != key
  {
    if i == |GeneralKeyOrder| then None
    else if GeneralKeyName(GeneralKeyOrder[i]) == key then Some(GeneralKeyOrder[i])
    else FindGeneralKey(key, i + 1)
  }

  /** The comparisons of `processAllocatorParameter` from the `i`-th key on. */
  function FindAllocatorKey(key: string, i: nat): (r: Option<AllocatorKey>)
    requires i <= |AllocatorKeyOrder|
    decreases |AllocatorKeyOrder| - i
    ensures r.Some? ==> AllocatorKeyName(r.value) == key
    ensures r.None? ==> forall k :: AllocatorKeyIndex(k) >= i ==> AllocatorKeyName(k) != key
  {
    if i == |AllocatorKeyOrder| then None
    else if AllocatorKeyName(AllocatorKeyOrder[i]) == key then Some(AllocatorKeyOrder[i])
    else FindAllocatorKey(key, i + 1)
  }

  /** The `if (key == ...)` chain of `processGeneralParameter`: which key, if any, the text spells. */
  function ParseGeneralKey(key: string): (r: Option<GeneralKey>)
    ensures r.Some? ==> GeneralKeyName(r.value) == key
    ensures r.None? ==> forall k :: GeneralKeyName(k) != key
  {
    FindGeneralKey(key, 0)
  }

  /** The `if (key == ...)` chain of `processAllocatorParameter`: which key, if any, the text spells. */
  function ParseAllocatorKey(key: string): (r: Option<AllocatorKey>)
    ensures r.Some? ==> AllocatorKeyName(r.value) == key
    ensures r.None? ==> forall k :: AllocatorKeyName(k) != key
  {
    FindAllocatorKey(key, 0)
  }

  /** No two keys share a spelling. */
  lemma KeyNamesDistinct(g1: GeneralKey, g2: GeneralKey, a1: AllocatorKey, a2: AllocatorKey)
    ensures GeneralKeyName(g1) == GeneralKeyName(g2) ==> g1 == g2
    ensures AllocatorKeyName(a1) == AllocatorKeyName(a2) ==> a1 == a2
  {
  }

  /** Every key is recognised from its own spelling. */
  lemma KeyNamesRoundTrip(g: GeneralKey, a: AllocatorKey)
    ensures ParseGeneralKey(GeneralKeyName(g)) == Some(g)
    ensures ParseAllocatorKey(AllocatorKeyName(a)) == Some(a)
  {
    var r := ParseGeneralKey(GeneralKeyName(g));
    var q := ParseAllocatorKey(AllocatorKeyName(a));
    KeyNamesDistinct(g, r.value, a, q.value);
  }

  /** One setting's value, whatever its type. */
  datatype Value =
    | BoolValue(b: bool)
    | IntValue(i: int)
    | RealValue(x: real)
    | TextValue(s: string)
    | TypeValue(t: AllocatorType)
    | SortValue(m: SortType)
    | SolverValue(v: SolverType)

  /** The general setting a key names. */
  function GeneralField(g: GeneralSettings, k: GeneralKey): Value
  {
    match k
    case ShowDetailedCost => BoolValue(g.showDetailedCost)
    case NumTests => IntValue(g.numTests)
    case Dimensions => IntValue(g.dimensions)
    case VMsFrom => IntValue(g.VMs.from)
    case VMsTo => IntValue(g.VMs.to)
    case VMsStep => IntValue(g.VMs.step)
    case PMsFrom => IntValue(g.PMs.from)
    case PMsTo => IntValue(g.PMs.to)
    case PMsStep => IntValue(g.PMs.step)
    case VMMin => IntValue(g.VMmin)
    case VMMax => IntValue(g.VMmax)
    case PMMin => IntValue(g.PMmin)
    case PMMax => IntValue(g.PMmax)
    case NumPMTypes => IntValue(g.numPMtypes)
  }

  /** The value a general line stores: a truth value or an `std::stoi` number. */
  function GeneralValue(k: GeneralKey, value: string, num: Numbers): Value
  {
    if k == ShowDetailedCost then BoolValue(StringToBool(value)) else IntValue(num.stoi(value))
  }

  /** The allocator setting a key names. */
  function AllocatorField(a: AllocatorSettings, k: AllocatorKey): Value
  {
    match k
    case Name => TextValue(a.name)
    case TypeOfAllocator => TypeValue(a.allocatorType)
    case Timeout => RealValue(a.timeout)
    case TypeOfSolver => SolverValue(a.solverType)
    case Solver => TextValue(a.solver)
    case BoundThreshold => RealValue(a.boundThreshold)
    case MaxMigrationsRatio => IntValue(a.maxMigrationsRatio)
    case FailFirst => BoolValue(a.failFirst)
    case IntelligentBound => BoolValue(a.intelligentBound)
    case VMSort => SortValue(a.VMSortMethod)
    case PMSort => SortValue(a.PMSortMethod)
    case SymmetryBreaking => BoolValue(a.symmetryBreaking)
    case InitialPMFirst => BoolValue(a.initialPMFirst)
  }

  /**
   * The value an allocator line stores: the text itself, a converted
   * enumerator, a truth value, or a number. `timeout` is read with
   * `std::stoi` into a `double`, `boundThreshold` with `std::stod`.
   */
  function AllocatorValue(k: AllocatorKey, value: string, num: Numbers): Value
  {
    match k
    case Name => TextValue(value)
    case TypeOfAllocator => TypeValue(StringToAllocatorType(value))
    case Timeout => RealValue(num.stoi(value) as real)
    case TypeOfSolver => SolverValue(StringToSolverType(value))
    case Solver => TextValue(value)
    case BoundThreshold => RealValue(num.stod(value))
    case MaxMigrationsRatio => IntValue(num.stoi(value))
    case VMSort => SortValue(StringToSortType(value))
    case PMSort => SortValue(StringToSortType(value))
    case _ => BoolValue(StringToBool(value))
  }

  /** The named fields determine the general settings completely. */
  lemma GeneralFieldsDetermine(a: GeneralSettings, b: GeneralSettings)
    requires forall k :: GeneralField(a, k) == GeneralField(b, k)
    ensures a == b
  {
    assert GeneralField(a, ShowDetailedCost) == GeneralField(b, ShowDetailedCost);
    assert GeneralField(a, NumTests) == GeneralField(b, NumTests);
    assert GeneralField(a, Dimensions) == GeneralField(b, Dimensions);
    assert GeneralField(a, VMsFrom) == GeneralField(b, VMsFrom);
    assert GeneralField(a, VMsTo) == GeneralField(b, VMsTo);
    assert GeneralField(a, VMsStep) == GeneralField(b, VMsStep);
    assert GeneralField(a, PMsFrom) == GeneralField(b, PMsFrom);
    assert GeneralField(a, PMsTo) == GeneralField(b, PMsTo);
    assert GeneralField(a, PMsStep) == GeneralField(b, PMsStep);
    assert GeneralField(a, VMMin) == GeneralField(b, VMMin);
    assert GeneralField(a, VMMax) == GeneralField(b, VMMax);
    assert GeneralField(a, PMMin) == GeneralField(b, PMMin);
    assert GeneralField(a, PMMax) == GeneralField(b, PMMax);
    assert GeneralField(a, NumPMTypes) == GeneralField(b, NumPMTypes);
  }

  /** The named fields determine the allocator settings completely. */
  lemma AllocatorFieldsDetermine(a: AllocatorSettings, b: AllocatorSettings)
    requires forall k :: AllocatorField(a, k) == AllocatorField(b, k)
    ensures a == b
  {
    assert AllocatorField(a, Name) == AllocatorField(b, Name);
    assert AllocatorField(a, TypeOfAllocator) == AllocatorField(b, TypeOfAllocator);
    assert AllocatorField(a, Timeout) == AllocatorField(b, Timeout);
    assert AllocatorField(a, TypeOfSolver) == AllocatorField(b, TypeOfSolver);
    assert AllocatorField(a, Solver) == AllocatorField(b, Solver);
    assert AllocatorField(a, BoundThreshold) == AllocatorField(b, BoundThreshold);
    assert AllocatorField(a, MaxMigrationsRatio) == AllocatorField(b, MaxMigrationsRatio);
    assert AllocatorField(a, FailFirst) == AllocatorField(b, FailFirst);
    assert AllocatorField(a, IntelligentBound) == AllocatorField(b, IntelligentBound);
    assert AllocatorField(a, VMSort) == AllocatorField(b, VMSort);
    assert AllocatorField(a, PMSort) == AllocatorField(b, PMSort);
    assert AllocatorField(a, SymmetryBreaking) == AllocatorField(b, SymmetryBreaking);
    assert AllocatorField(a, InitialPMFirst) == AllocatorField(b, InitialPMFirst);
  }

  // ---------------------------------------------------------------------
  // processGeneralParameter and processAllocatorParameter

  /** The assignment a known general key makes. */
  function SetGeneral(g: GeneralSettings, k: GeneralKey, value: string, num: Numbers): GeneralSettings
  {
    var n := num.stoi(value);
    match k
    case ShowDetailedCost => g.(showDetailedCost := StringToBool(value))
    case NumTests => g.(numTests := n)
    case Dimensions => g.(dimensions := n)
    case VMsFrom => g.(VMs := g.VMs.(from := n))
    case VMsTo => g.(VMs := g.VMs.(to := n))
    case VMsStep => g.(VMs := g.VMs.(step := n))
    case PMsFrom => g.(PMs := g.PMs.(from := n))
    case PMsTo => g.(PMs := g.PMs.(to := n))
    case PMsStep => g.(PMs := g.PMs.(step := n))
    case VMMin => g.(VMmin := n)
    case VMMax => g.(VMmax := n)
    case PMMin => g.(PMmin := n)
    case PMMax => g.(PMmax := n)
    case NumPMTypes => g.(numPMtypes := n)
  }

  /** The assignment a known allocator key makes. */
  function SetAllocator(a: AllocatorSettings, k: AllocatorKey, value: string, num: Numbers): AllocatorSettings
  {
    match k
    case Name => a.(name := value)
    case TypeOfAllocator => a.(allocatorType := StringToAllocatorType(value))
    case Timeout => a.(timeout := num.stoi(value) as real)
    case TypeOfSolver => a.(solverType := StringToSolverType(value))
    case Solver => a.(solver := value)
    case BoundThreshold => a.(boundThreshold := num.stod(value))
    case MaxMigrationsRatio => a.(maxMigrationsRatio := num.stoi(value))
    case FailFirst => a.(failFirst := StringToBool(value))
    case IntelligentBound => a.(intelligentBound := StringToBool(value))
    case VMSort => a.(VMSortMethod := StringToSortType(value))
    case PMSort => a.(PMSortMethod := StringToSortType(value))
    case SymmetryBreaking => a.(symmetryBreaking := StringToBool(value))
    case InitialPMFirst => a.(initialPMFirst := StringToBool(value))
  }

  /**
   * A general line sets the setting its key names to the converted value
   * and leaves every other setting as it was.
   */
  lemma SetGeneralSets(g: GeneralSettings, k: GeneralKey, value: string, num: Numbers)
    ensures GeneralField(SetGeneral(g, k, value, num), k) == GeneralValue(k, value, num)
    ensures forall k' :: k' != k ==> GeneralField(SetGeneral(g, k, value, num), k') == GeneralField(g, k')
  {
  }

  /**
   * An allocator line sets the setting its key names to the converted value
   * and leaves every other setting as it was.
   */
  lemma SetAllocatorSets(p: AllocatorSettings, k: AllocatorKey, value: string, num: Numbers)
    ensures AllocatorField(SetAllocator(p, k, value, num), k) == AllocatorValue(k, value, num)
    ensures forall k' :: k' != k ==> AllocatorField(SetAllocator(p, k, value, num), k') == AllocatorField(p, k')
  {
  }

  /**
   * `processGeneralParameter`: a known key makes its assignment; an unknown
   * key ends the program, which is `None` here.
   */
  function ApplyGeneral(g: GeneralSettings, key: string, value: string, num: Numbers): (r: Option<GeneralSettings>)
    ensures r.None? <==> ParseGeneralKey(key).None?
  {
    match ParseGeneralKey(key)
    case None => None
    case Some(k) => Some(SetGeneral(g, k, value, num))
  }

  /**
   * `processAllocatorParameter`: a known key makes its assignment; an
   * unknown key changes nothing.
   */
  function ApplyAllocator(a: AllocatorSettings, key: string, value: string, num: Numbers): (r: AllocatorSettings)
    ensures ParseAllocatorKey(key).None? ==> r == a
  {
    match ParseAllocatorKey(key)
    case None => a
    case Some(k) => SetAllocator(a, k, value, num)
  }

  /** Of two lines with the same general key, the later one wins. */
  lemma GeneralLastWriteWins(g: GeneralSettings, k: GeneralKey, v1: string, v2: string, num: Numbers)
    ensures SetGeneral(SetGeneral(g, k, v1, num), k, v2, num) == SetGeneral(g, k, v2, num)
  {
    var g1 := SetGeneral(g, k, v1, num);
    var a, b := SetGeneral(g1, k, v2, num), SetGeneral(g, k, v2, num);
    SetGeneralSets(g, k, v1, num);
    SetGeneralSets(g1, k, v2, num);
    SetGeneralSets(g, k, v2, num);
    GeneralFieldsDetermine(a, b);
  }

  /** General lines with different keys can come in either order. */
  lemma GeneralKeysCommute(g: GeneralSettings, k1: GeneralKey, v1: string, k2: GeneralKey, v2: string, num: Numbers)
    requires k1 != k2
    ensures SetGeneral(SetGeneral(g, k1, v1, num), k2, v2, num) ==
            SetGeneral(SetGeneral(g, k2, v2, num), k1, v1, num)
  {
    var g1, g2 := SetGeneral(g, k1, v1, num), SetGeneral(g, k2, v2, num);
    var a, b := SetGeneral(g1, k2, v2, num), SetGeneral(g2, k1, v1, num);
    SetGeneralSets(g, k1, v1, num);
    SetGeneralSets(g, k2, v2, num);
    SetGeneralSets(g1, k2, v2, num);
    SetGeneralSets(g2, k1, v1, num);
    GeneralFieldsDetermine(a, b);
  }

  /** Of two lines with the same allocator key, the later one wins. */
  lemma AllocatorLastWriteWins(p: AllocatorSettings, k: AllocatorKey, v1: string, v2: string, num: Numbers)
    ensures SetAllocator(SetAllocator(p, k, v1, num), k, v2, num) == SetAllocator(p, k, v2, num)
  {
  }

  // ---------------------------------------------------------------------
  // The parameter record a block produces

  /**
   * The record appended when a block closes: its class follows
   * `allocatorType` (BnB, ILP, or the base record for Greedy); name, timeout
   * and migration ratio are copied into every one, the branch-and-bound
   * settings only into a BnB record and the solver settings only into an
   * ILP record.
   */
  function MakeParams(p: AllocatorSettings): (r: AllocatorParams)
    ensures r.allocatorType == p.allocatorType && r.name == p.name
    ensures r.timeout == p.timeout && r.maxMigrationsRatio == p.maxMigrationsRatio
    ensures r.variant.BnBVariant? <==> p.allocatorType == BnB
    ensures r.variant.ILPVariant? <==> p.allocatorType == ILP
    ensures r.variant.BnBVariant? ==>
      r.variant.bnb == BnBSettings(p.failFirst, p.intelligentBound, p.PMSortMethod, p.VMSortMethod,
                                   p.initialPMFirst, p.symmetryBreaking, p.boundThreshold)
    ensures r.variant.ILPVariant? ==> r.variant.ilp == ILPSettings(p.solverType, p.solver)
  {
    var variant :=
      if p.allocatorType == BnB then
        BnBVariant(BnBSettings(p.failFirst, p.intelligentBound, p.PMSortMethod, p.VMSortMethod,
                               p.initialPMFirst, p.symmetryBreaking, p.boundThreshold))
      else if p.allocatorType == ILP then ILPVariant(ILPSettings(p.solverType, p.solver))
      else BaseVariant;
    AllocatorParams(p.allocatorType, p.name, p.timeout, p.maxMigrationsRatio, variant)
  }

  /** The settings a record of the other classes would hold. */
  predicate SameForType(p: AllocatorSettings, q: AllocatorSettings)
  {
    p.allocatorType == q.allocatorType && p.name == q.name && p.timeout == q.timeout &&
    p.maxMigrationsRatio == q.maxMigrationsRatio &&
    (p.allocatorType == BnB ==>
      p.failFirst == q.failFirst && p.intelligentBound == q.intelligentBound &&
      p.PMSortMethod == q.PMSortMethod && p.VMSortMethod == q.VMSortMethod &&
      p.initialPMFirst == q.initialPMFirst && p.symmetryBreaking == q.symmetryBreaking &&
      p.boundThreshold == q.boundThreshold) &&
    (p.allocatorType == ILP ==> p.solverType == q.solverType && p.solver == q.solver)
  }

  /**
   * A record depends on the settings of its own class and nothing else: the
   * same record comes out exactly when those settings agree.
   */
  lemma MakeParamsReadsItsOwnSettings(p: AllocatorSettings, q: AllocatorSettings)
    ensures MakeParams(p) == MakeParams(q) <==> SameForType(p, q)
  {
  }

  // ---------------------------------------------------------------------
  // The line loop of parse and processAllocator

  datatype Mode = Top | InBlock

  /** Where the parser is and what it has read. */
  datatype ParserState = ParserState(
    mode: Mode,
    general: GeneralSettings,
    pending: AllocatorSettings,
    paramsList: seq<AllocatorParams>
  )

  /** Closing a block: one record from the pending settings is appended. */
  function Close(s: ParserState): (r: ParserState)
    ensures r.mode == Top && r.general == s.general && r.pending == s.pending
    ensures r.paramsList == s.paramsList + [MakeParams(s.pending)]
  {
    s.(mode := Top, paramsList := s.paramsList + [MakeParams(s.pending)])
  }

  /** At the end of the input a block still open is closed as by `}`. */
  function Finish(s: ParserState): (r: ParserState)
    ensures r.mode == Top
    ensures s.mode == Top ==> r == s
    ensures s.mode == InBlock ==> r == Close(s)
  {
    match s.mode
    case InBlock => Close(s)
    case Top => s
  }

  /**
   * One line. Outside a block: `Allocator{` opens one (the key-value
   * reading `parse` then does on that line finds nothing,
   * MarkersHaveNoKey), a `key=value` line is a general setting, an unknown
   * key ends the program (`None`), any other line is skipped. Inside a
   * block: `}` closes it, a `key=value` line is an allocator setting, any
   * other line is skipped.
   */
  function Step(s: ParserState, line: Line, num: Numbers): (r: Option<ParserState>)
    ensures r.None? <==>
      s.mode == Top && line != "Allocator{" && KeyValue(line).Some? && ParseGeneralKey(KeyValue(line).value.0).None?
    ensures r.Some? ==>
      r.value.paramsList == s.paramsList + if s.mode == InBlock && line == "}" then [MakeParams(s.pending)] else []
    ensures r.Some? ==> (r.value.mode == InBlock <==>
      if s.mode == Top then line == "Allocator{" else line != "}")
    ensures r.Some? && s.mode == Top ==> r.value.pending == s.pending
    ensures r.Some? && s.mode == InBlock ==> r.value.general == s.general
  {
    if s.mode == Top then
      if line == "Allocator{" then Some(s.(mode := InBlock))
      else
        match KeyValue(line)
        case None => Some(s)
        case Some((k, v)) =>
          match ApplyGeneral(s.general, k, v, num)
          case None => None
          case Some(g) => Some(s.(general := g))
    else
      if line == "}" then Some(Close(s))
      else Some(s.(pending := BlockLine(s.pending, line, num)))
  }

  /** A line inside a block: a setting, or nothing. */
  function BlockLine(p: AllocatorSettings, line: Line, num: Numbers): AllocatorSettings
  {
    match KeyValue(line)
    case None => p
    case Some((k, v)) => ApplyAllocator(p, k, v, num)
  }

  /** The lines one after another, from state `s`; `None` once the program has ended. */
  function Run(s: ParserState, lines: seq<Line>, num: Numbers): (r: Option<ParserState>)
    ensures r.Some? ==> |s.paramsList| <= |r.value.paramsList| && r.value.paramsList[..|s.paramsList|] == s.paramsList
    ensures r.Some? && s.mode == InBlock && (forall i :: 0 <= i < |lines| ==> lines[i] != "}") ==>
      r.value.mode == InBlock && r.value.general == s.general && r.value.paramsList == s.paramsList
  {
    if lines == [] then Some(s)
    else
      match Run(s, lines[..|lines| - 1], num)
      case None => None
      case Some(t) => Step(t, lines[|lines| - 1], num)
  }

  /** Running two pieces of input one after the other is running them joined. */
  lemma {:induction false} RunAppend(s: ParserState, a: seq<Line>, b: seq<Line>, num: Numbers)
    ensures Run(s, a + b, num) == if Run(s, a, num).None? then None else Run(Run(s, a, num).value, b, num)
  {
    if b != [] {
      var b' := b[..|b| - 1];
      assert (a + b)[..|a + b| - 1] == a + b';
      RunAppend(s, a, b', num);
    } else {
      assert a + b == a;
    }
  }

  /** One more line of a prefix of the input. */
  lemma RunPrefixNext(s: ParserState, lines: seq<Line>, i: nat, num: Numbers)
    requires i < |lines|
    ensures Run(s, lines[..i + 1], num) ==
      if Run(s, lines[..i], num).None? then None else Step(Run(s, lines[..i], num).value, lines[i], num)
  {
    assert lines[..i + 1][..i] == lines[..i];
  }

  /** One more line read inside a block. */
  lemma BlockNext(s: ParserState, lines: seq<Line>, j: nat, t: ParserState, num: Numbers)
    requires j < |lines| && Run(s, lines[..j], num) == Some(t) && t.mode == InBlock
    ensures Run(s, lines[..j + 1], num) ==
      Some(if lines[j] == "}" then Close(t) else t.(pending := BlockLine(t.pending, lines[j], num)))
  {
    RunPrefixNext(s, lines, j, num);
  }

  /** Once the program has ended, later lines change nothing about that. */
  lemma {:induction false} RunEnded(s: ParserState, lines: seq<Line>, i: nat, num: Numbers)
    requires i <= |lines| && Run(s, lines[..i], num).None?
    ensures Run(s, lines, num).None?
    decreases |lines| - i
  {
    if i < |lines| {
      RunPrefixNext(s, lines, i, num);
      RunEnded(s, lines, i + 1, num);
    } else {
      assert lines[..i] == lines;
    }
  }

  /** The settings a block's lines leave pending, from `p` on. */
  function Fill(p: AllocatorSettings, body: seq<Line>, num: Numbers): AllocatorSettings
  {
    if body == [] then p
    else BlockLine(Fill(p, body[..|body| - 1], num), body[|body| - 1], num)
  }

  /** Inside a block the lines only fill in the pending settings. */
  lemma {:induction false} RunInBlock(s: ParserState, body: seq<Line>, num: Numbers)
    requires s.mode == InBlock && forall i :: 0 <= i < |body| ==> body[i] != "}"
    ensures Run(s, body, num) == Some(s.(pending := Fill(s.pending, body, num)))
  {
    if body != [] {
      RunInBlock(s, body[..|body| - 1], num);
    }
  }

  /**
   * A block closed by `}` appends exactly one record, built from the pending
   * settings as the block's lines left them, and changes nothing else.
   */
  lemma BlockAppendsOne(s: ParserState, body: seq<Line>, num: Numbers)
    requires s.mode == Top && forall i :: 0 <= i < |body| ==> body[i] != "}"
    ensures Run(s, ["Allocator{"] + body + ["}"], num) ==
      Some(s.(pending := Fill(s.pending, body, num),
              paramsList := s.paramsList + [MakeParams(Fill(s.pending, body, num))]))
  {
    RunAppend(s, ["Allocator{"], body, num);
    RunInBlock(s.(mode := InBlock), body, num);
    RunAppend(s, ["Allocator{"] + body, ["}"], num);
  }

  /** A block the input ends in appends its one record all the same. */
  lemma BlockAtEndAppendsOne(s: ParserState, body: seq<Line>, num: Numbers)
    requires s.mode == Top && forall i :: 0 <= i < |body| ==> body[i] != "}"
    ensures Run(s, ["Allocator{"] + body, num).Some?
    ensures Finish(Run(s, ["Allocator{"] + body, num).value) ==
      s.(pending := Fill(s.pending, body, num),
         paramsList := s.paramsList + [MakeParams(Fill(s.pending, body, num))])
  {
    RunAppend(s, ["Allocator{"], body, num);
    RunInBlock(s.(mode := InBlock), body, num);
  }

  /** No line of `body` sets the setting `k`. */
  predicate Omits(body: seq<Line>, k: AllocatorKey)
  {
    forall i :: 0 <= i < |body| ==> KeyValue(body[i]).None? || ParseAllocatorKey(KeyValue(body[i]).value.0) != Some(k)
  }

  /**
   * A setting the block does not mention keeps the value the previous
   * blocks (or the parser's initial state) left: blocks inherit.
   */
  lemma {:induction false} BlockInherits(p: AllocatorSettings, body: seq<Line>, k: AllocatorKey, num: Numbers)
    requires Omits(body, k)
    ensures AllocatorField(Fill(p, body, num), k) == AllocatorField(p, k)
  {
    if body != [] {
      var front := body[..|body| - 1];
      BlockInherits(p, front, k, num);
      var kv := KeyValue(body[|body| - 1]);
      if kv.Some? {
        var key := ParseAllocatorKey(kv.value.0);
        if key.Some? {
          SetAllocatorSets(Fill(p, front, num), key.value, kv.value.1, num);
        }
      }
    }
  }

  // ---------------------------------------------------------------------
  // The parser object

  /** The generator `parse` builds from the general settings. */
  predicate GeneratorFrom(gen: ProblemGenerator, g: GeneralSettings)
    reads gen
  {
    gen.dimension == g.dimensions && gen.minResDemand == g.VMmin && gen.maxResDemand == g.VMmax &&
    gen.minResSupply == g.PMmin && gen.maxResSupply == g.PMmax && gen.numPMTypes == g.numPMtypes
  }

  class ConfigParser {
    var general: GeneralSettings
    var pending: AllocatorSettings
    var paramsList: seq<AllocatorParams>
    var generator: ProblemGenerator?

    /**
     * The constructor stores only the file path; the settings are left
     * uninitialised in C++, so their starting values are parameters here.
     */
    constructor (general0: GeneralSettings, pending0: AllocatorSettings)
      ensures general == general0 && pending == pending0 && paramsList == [] && generator == null
    {
      general, pending, paramsList, generator := general0, pending0, [], null;
    }

    /** The parser between lines outside a block. */
    function State(): ParserState
      reads this
    {
      ParserState(Top, general, pending, paramsList)
    }

    method ProcessGeneralParameter(key: string, value: string, num: Numbers) returns (exited: bool)
      modifies this`general
      ensures exited <==> ApplyGeneral(old(general), key, value, num).None?
      ensures !exited ==> general == ApplyGeneral(old(general), key, value, num).value
    {
      var r := ApplyGeneral(general, key, value, num);
      exited := r.None?;
      if !exited {
        general := r.value;
      }
    }

    method ProcessAllocatorParameter(key: string, value: string, num: Numbers)
      modifies this`pending
      ensures pending == ApplyAllocator(old(pending), key, value, num)
    {
      pending := ApplyAllocator(pending, key, value, num);
    }

    /**
     * One line inside a block: `}` closes it and appends its record, any
     * other line goes to ProcessAllocatorParameter when it is a key-value
     * pair and is skipped otherwise.
     */
    method ReadBlockLine(lines: seq<Line>, j: nat, num: Numbers, ghost s0: ParserState) returns (closed: bool)
      requires j < |lines| && Run(s0, lines[..j], num) == Some(State().(mode := InBlock))
      modifies this`pending, this`paramsList
      ensures closed <==> lines[j] == "}"
      ensures Run(s0, lines[..j + 1], num) == Some(State().(mode := if closed then Top else InBlock))
    {
      var line := lines[j];
      BlockNext(s0, lines, j, State().(mode := InBlock), num);
      closed := line == "}";
      if closed {
        paramsList := paramsList + [MakeParams(pending)];
      } else {
        var kv := KeyValue(line);
        if kv.Some? {
          ProcessAllocatorParameter(kv.value.0, kv.value.1, num);
        }
      }
    }

    /**
     * `processAllocator`, called when the lines before `i0` end with
     * `Allocator{`: it reads up to and including `}` (or to the end) and
     * appends the block's record. The state it leaves is what the line
     * steps give, a block still open at the end closed.
     */
    method ProcessAllocator(lines: seq<Line>, i0: nat, num: Numbers, ghost s0: ParserState) returns (j: nat)
      requires i0 <= |lines| && Run(s0, lines[..i0], num) == Some(State().(mode := InBlock))
      modifies this`pending, this`paramsList
      ensures i0 <= j <= |lines| && Run(s0, lines[..j], num).Some?
      ensures Finish(Run(s0, lines[..j], num).value) == State()
      ensures j < |lines| ==> Run(s0, lines[..j], num).value.mode == Top
    {
      j := i0;
      var closed := false;
      while j < |lines| && !closed
        invariant i0 <= j <= |lines|
        invariant Run(s0, lines[..j], num) == Some(State().(mode := if closed then Top else InBlock))
      {
        closed := ReadBlockLine(lines, j, num, s0);
        j := j + 1;
      }
      if !closed {
        ghost var t := State().(mode := InBlock);
        paramsList := paramsList + [MakeParams(pending)];
        assert State() == Close(t);
      }
    }

    /**
     * One round of `parse`'s loop, at line `i`: a block is handed to
     * ProcessAllocator, and then the line itself is read as a general
     * setting. `next` is the first line not yet read.
     */
    method ReadLine(lines: seq<Line>, i: nat, num: Numbers, ghost s0: ParserState) returns (next: nat, exited: bool)
      requires i < |lines| && Run(s0, lines[..i], num) == Some(State())
      modifies this`general, this`pending, this`paramsList
      ensures i < next <= |lines|
      ensures exited ==> Run(s0, lines[..i + 1], num).None?
      ensures !exited ==> Run(s0, lines[..next], num).Some?
      ensures !exited ==> Finish(Run(s0, lines[..next], num).value) == State()
      ensures !exited && next < |lines| ==> Run(s0, lines[..next], num).value.mode == Top
    {
      var line := lines[i];
      RunPrefixNext(s0, lines, i, num);
      next := i + 1;
      if line == "Allocator{" {
        next := ProcessAllocator(lines, i + 1, num, s0);
        MarkersHaveNoKey();
      }
      exited := false;
      var kv := KeyValue(line);
      if kv.Some? {
        exited := ProcessGeneralParameter(kv.value.0, kv.value.1, num);
      }
    }

    /**
     * `parse`: the lines one by one, blocks handed to ProcessAllocator.
     * The program ends (`exited`) exactly when the line steps do; otherwise
     * the parser holds what they give, a block still open at the end closed,
     * and a fresh generator built from the general settings.
     */
    method Parse(lines: seq<Line>, num: Numbers) returns (exited: bool)
      modifies this
      ensures exited <==> Run(old(State()), lines, num).None?
      ensures !exited ==> State() == Finish(Run(old(State()), lines, num).value)
      ensures !exited ==> generator != null && fresh(generator) && GeneratorFrom(generator, general)
      ensures !exited ==> generator.numVMs == 0 && generator.numPMs == 0
    {
      ghost var s0 := State();
      var i := 0;
      while i < |lines|
        invariant i <= |lines|
        invariant Run(s0, lines[..i], num).Some?
        invariant Finish(Run(s0, lines[..i], num).value) == State()
        invariant i < |lines| ==> Run(s0, lines[..i], num).value.mode == Top
      {
        var next;
        next, exited := ReadLine(lines, i, num, s0);
        if exited {
          RunEnded(s0, lines, i + 1, num);
          return;
        }
        i := next;
      }
      assert lines[..i] == lines;
      generator := new ProblemGenerator(general.dimensions, general.VMmin, general.VMmax,
                                        general.PMmin, general.PMmax, general.numPMtypes);
      exited := false;
    }
  }
}
