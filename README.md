# VM allocation: a Dafny model

This project models the core of a virtual-machine placement benchmark. The
benchmark is a set of C++ programs that place VMs onto physical machines (PMs)
and compare placement algorithms. Every VM has a demand vector. Every PM has a
capacity vector and a vector of free resources. A VM may start on an initial
PM. A placement costs 10 per PM that is on plus 1 per VM that leaves its
initial PM (`COEFF_NR_OF_ACTIVE_HOSTS`, `COEFF_NR_OF_MIGRATIONS`). At most
`numPMs / maxMigrationsRatio` VMs may move.

The model covers these parts:

- **The exact allocator (`BnBAllocator`).** It is a depth-first branch and
  bound over candidate lists. It keeps an undo stack (`m_changeStack`),
  optional fail-first VM choice, and PM sorting by three comparators. It
  also supports initial-PM-first ordering, symmetry breaking, an
  intelligent lower bound (`computeMinimalExtraCost`) and a bound
  threshold.
- **The greedy allocator (`GreedyAllocator`).** It first relieves overloaded
  PMs. Then it consolidates lightly loaded ones within the migration budget.
- **The integer program (`ILPAllocator::create_lp`).** It writes the
  placement problem as an integer program in Gurobi or lp_solve syntax.
- **The random problem generator (`ProblemGenerator`).** It has a
  first-fit variant, `generate_ff`.
- **The configuration reader (`ConfigParser`).** It reads general settings
  and `Allocator{ … }` blocks into a list of allocator parameter records.
- **Machines and parameters.** This covers PMs and VMs with their
  comparators, and the string-to-enum converters of the parameter headers.

The files:

| File | Module | Contents |
|---|---|---|
| `wrappers.dfy` | `Wrappers` | Option |
| `cint.dfy` | `CInt` | C++ integer `/` and `%` (truncation toward zero) |
| `params.dfy` | `Params` | `AllocatorParams.h`, `BnBParams.h`, `ILPParams.h` |
| `machines.dfy` | `Machines` | `PM.cpp`, `VM.cpp` |
| `sorting.dfy` | `Sorting` | `std::sort`, specified as "a permutation sorted by the comparator" |
| `bnb_state.dfy` | `BnBState` | the engine state, its invariant `Valid` and the `Similar` relation |
| `bnb_steps.dfy` | `BnBSteps` | `allocate` and `deAllocate` as functions on the state, and their round trip |
| `bnb_search.dfy` | `BnBSearch` | candidate ordering, symmetry breaking, the lower bound, and the search history |
| `bnb_allocator.dfy` | `BnB` | class `BnBAllocator` |
| `greedy.dfy` | `Greedy` | class `GreedyAllocator` |
| `ilp_model.dfy` | `IlpModel` | the integer program as data, and what it means |
| `ilp_writer.dfy` | `IlpWriter` | `create_lp` as loops that append text |
| `generator.dfy` | `Generator` | class `ProblemGenerator` |
| `config.dfy` | `Config` | class `ConfigParser` |

Machines are addressed by index. The C++ VM's `availablePMs` and `PMIterator`
become `available[w]` and an integer cursor. The allocation maps VM index to PM
index.

Each state-changing method of a class is tied by its `ensures` to a function
on values:

- `Allocate` to `Allocated`;
- `DeAllocate` to `Deallocated`;
- `ResetCandidates` to `Reset`;
- `CreateLp` to `Render(BuildLp(…))`;
- `GenerateFF` to `Pass`;
- `Parse` to `Run`;
- the greedy allocator's `ReliefStep`, `Relieve`, `EmptyPM`, `Consolidate` and `Solve` to `ReliefStepF`, `RelieveFrom`, `EmptyF`, `ConsolidateF` and `SolveF`, over a `Snapshot` of `m_pms`, the placement and `m_numMigrations`.

The properties are proved about those functions. The branch-and-bound search
carries a ghost history of the states before each live allocation. Its
invariant says that undoing the allocations restores each earlier state, up
to the order of the candidate lists of unplaced VMs.

## Model

| member | source | states |
|---|---|---|
| CInt.CDiv | vm-alloc-vmbb2-4/src/BnBAllocator.cpp:508 | integer division rounds toward zero: the quotient of the magnitudes, negated when the signs differ |
| CInt.CMod | vm-alloc-vmbb2-4/src/ProblemGenerator.cpp:43 | the remainder has the dividend's sign and is smaller in magnitude than the divisor |
| CInt.DivModIdentity | vm-alloc-vmbb2-4/src/ProblemGenerator.cpp:43 | `(a / b) * b + a % b == a`, the identity C++ guarantees |
| CInt.NonNegativeAgree | vm-alloc-vmbb2-4/src/BnBAllocator.cpp:508 | on non-negative operands the C++ and Euclidean operators agree |
| Params.StringToAllocatorType | vm-alloc-vmbb2-4/src/AllocatorParams.h:47-66 | "ILP" and "Greedy" select those allocators; every other text selects BnB, in both directions |
| Params.StringToSortType | vm-alloc-vmbb2-4/src/BnBParams.h:50-72 | each of the three sort names selects its order; any other text, "NONE" included, selects NONE |
| Params.StringToSolverType | vm-alloc-vmbb2-4/src/ILPParams.h:39-54 | "GUROBI" selects Gurobi; any other text selects lp_solve |
| Params.ConvertersRoundTrip | vm-alloc-vmbb2-4/src/AllocatorParams.h:47-66 | every enumerator is read back from its own spelling |
| Params.ConvertersAreCaseSensitive | vm-alloc-vmbb2-4/src/BnBParams.h:50-72 | names in another letter case fall back to the default |
| Machines.NewPM | vm-alloc-vmbb2-4/src/PM.cpp:106-109 | a new PM has no initial VMs counted and empty vectors |
| Machines.SamePMIgnoresResources | vm-alloc-vmbb2-4/src/PM.cpp:22-30 | PM equality looks at the id alone, so PMs with different resources can be equal |
| Machines.IsOn | vm-alloc-vmbb2-4/src/PM.cpp:111-120 | the loop answers whether some free resource differs from its capacity |
| Machines.OffMeansFree | vm-alloc-vmbb2-4/src/PM.cpp:111-120 | a PM is off exactly when all its resources are free |
| Machines.MaxFrom0IsMaximum | vm-alloc-vmbb2-4/src/PM.cpp:62-71 | the running maximum from 0 bounds every entry and is attained unless it is 0 |
| Machines.LexLessTotal | vm-alloc-vmbb2-4/src/PM.cpp:44-48 | vector `<` orders any two different vectors of equal length |
| Machines.LexLessTransitive | vm-alloc-vmbb2-4/src/PM.cpp:44-48 | vector `<` is transitive |
| Machines.MaximumPMComparator | vm-alloc-vmbb2-4/src/PM.cpp:52-78 | the comparator loop computes the maximum order: on PMs first, then by largest free component |
| Machines.SumPMComparator | vm-alloc-vmbb2-4/src/PM.cpp:81-104 | the comparator loop computes the sum order: on PMs first, ascending sums among on PMs, descending among off PMs |
| Machines.OnBeforeOff | vm-alloc-vmbb2-4/src/PM.cpp:35-43 | every PM order puts a PM that is on before one that is off, and never the reverse |
| Machines.PMOrderWithinPowerState | vm-alloc-vmbb2-4/src/PM.cpp:35-104 | lexicographic and sum orders ascend among on PMs and descend among off PMs; maximum order ascends in both |
| Machines.MaximumPMOffIsAscending | vm-alloc-vmbb2-4/src/PM.cpp:73-77 | two off PMs with largest free components 1 and 2 are ordered smaller first, against the header comment's "descending for PMs turned off" |
| Machines.DescendingMaximumPMOrder | vm-alloc-vmbb2-4/src/PM.cpp:32 | the maximum comparator as that comment describes it: it agrees with the code unless both PMs are off, is descending in the free maximum between off PMs, and is a strict order |
| Machines.DescendingMaximumPMOffIsDescending | vm-alloc-vmbb2-4/src/PM.cpp:32 | on the two off PMs of `MaximumPMOffIsAscending` the corrected comparator puts the bigger one first |
| Machines.PMLessIsStrictOrder | vm-alloc-vmbb2-4/src/PM.cpp:35-104 | every PM comparator is irreflexive, asymmetric and transitive on PMs of one dimension, as `std::sort` requires |
| Machines.MaximumVMComparator | vm-alloc-vmbb2-4/src/VM.cpp:31-45 | the loop compares the largest demand components, larger first |
| Machines.SumVMComparator | vm-alloc-vmbb2-4/src/VM.cpp:48-59 | the loop compares demand sums, larger first |
| Machines.VMOrderIsDescending | vm-alloc-vmbb2-4/src/VM.cpp:22-59 | each VM order is descending in its key, and VMs with equal keys are unordered |
| Machines.VMLessIsStrictOrder | vm-alloc-vmbb2-4/src/VM.cpp:25-59 | every VM comparator is a strict order |
| Sorting.SortBy | vm-alloc-vmbb2-4/src/BnBAllocator.cpp:375-393 | sorting returns a permutation of its input that is sorted by the strict order |
| Sorting.SortByKeepsElements | vm-alloc-vmbb2-4/src/BnBAllocator.cpp:375-393 | sorting keeps exactly the input's elements |
| Sorting.Insert | vm-alloc-vmbb2-4/src/BnBAllocator.cpp:375-393 | inserting into a sorted list keeps it sorted and adds exactly that element |
| BnBState.IndexOf | vm-alloc-vmbb2-4/src/BnBAllocator.cpp:182 | `std::find`: the first position of the element, or the end exactly when it is absent |
| BnBState.EraseAt | vm-alloc-vmbb2-4/src/BnBAllocator.cpp:187 | erasing removes exactly one occurrence of the element at that position |
| BnBState.SimilarPreservesValid | vm-alloc-vmbb2-4/src/BnBAllocator.cpp:371-411 | reordering unplaced VMs' candidate lists keeps the engine invariant |
| BnBState.SimilarIsEquivalence | vm-alloc-vmbb2-4/src/BnBAllocator.cpp:371-411 | "equal up to the order of unplaced VMs' lists" is an equivalence |
| BnBSteps.PlacingTurnsOn | vm-alloc-vmbb2-4/src/BnBAllocator.cpp:106-127 | reserving a VM's demand on a PM leaves that PM on |
| BnBSteps.OnIffHosting | vm-alloc-vmbb2-4/src/BnBAllocator.cpp:107-109 | under the invariant a PM is on exactly when some VM is placed on it, which is what `m_numPMsOn` counts |
| BnBSteps.AllocPreHolds | vm-alloc-vmbb2-4/src/BnBAllocator.cpp:102-104 | an unplaced VM can be allocated to any PM it fits on in a valid state |
| BnBSteps.DeallocPreHolds | vm-alloc-vmbb2-4/src/BnBAllocator.cpp:196-271 | the top VM of the undo stack can be deallocated from its PM in a valid state |
| BnBSteps.AllocatedPreservesValid | vm-alloc-vmbb2-4/src/BnBAllocator.cpp:102-193 | `allocate` keeps the whole invariant: loads, counters, candidate lists, undo stack and bound bookkeeping |
| BnBSteps.AllocatedCandidateFits | vm-alloc-vmbb2-4/src/BnBAllocator.cpp:174-189 | after `allocate`, every PM left in an unplaced VM's list was there before and still fits that VM |
| BnBSteps.PrunedList | vm-alloc-vmbb2-4/src/BnBAllocator.cpp:174-189 | pruning keeps lists free of duplicates, in range, and within their old contents |
| BnBSteps.AllocatedErases | vm-alloc-vmbb2-4/src/BnBAllocator.cpp:169-191 | the pushed undo entry names the target PM, and it is gone from the list of every VM recorded as no longer fitting |
| BnBSteps.RoundTrip | vm-alloc-vmbb2-4/src/BnBAllocator.cpp:196-287 | `deAllocate` after `allocate` restores PMs, allocation, counters, undo stack and cursors, and restores the candidate lists up to order |
| BnBSearch.IndexLessIsStrict | vm-alloc-vmbb2-4/src/BnBAllocator.cpp:375-393 | the candidate orders are strict orders on the candidate list |
| BnBSearch.CandidateSort | vm-alloc-vmbb2-4/src/BnBAllocator.cpp:375-393 | the list is left unsorted exactly with NONE and no symmetry breaking; lexicographic order is used for LEXICOGRAPHIC or for NONE with symmetry breaking |
| BnBSearch.SortCandidates | vm-alloc-vmbb2-4/src/BnBAllocator.cpp:375-393 | the candidate list is permuted and sorted by the chosen comparator, or untouched |
| BnBSearch.SortedPutsOnFirst | vm-alloc-vmbb2-4/src/BnBAllocator.cpp:375-393 | in a sorted candidate list every PM before an on PM is on |
| BnBSearch.MoveToFront | vm-alloc-vmbb2-4/src/BnBAllocator.cpp:396-408 | the initial PM, when listed, comes first and the list stays a permutation |
| BnBSearch.ResetList | vm-alloc-vmbb2-4/src/BnBAllocator.cpp:371-411 | `resetCandidates` permutes the list, puts the initial PM first when asked, and otherwise leaves it sorted |
| BnBSearch.ReorderIsSimilar | vm-alloc-vmbb2-4/src/BnBAllocator.cpp:371-411 | permuting an unplaced VM's list and moving its cursor changes nothing else |
| BnBSearch.InterchangeableAreEmptyTwins | vm-alloc-vmbb2-4/src/BnBAllocator.cpp:296-305 | PMs treated as the same have equal capacities and are both empty |
| BnBSearch.InterchangeableIsSymmetricTransitive | vm-alloc-vmbb2-4/src/BnBAllocator.cpp:296-305 | PMs treated as the same form classes: the relation is symmetric and transitive |
| BnBSearch.Advance | vm-alloc-vmbb2-4/src/BnBAllocator.cpp:444-472 | the cursor moves forward by one, or with symmetry breaking past every run of interchangeable PMs, stopping at the initial PM |
| BnBSearch.AdvanceStep | vm-alloc-vmbb2-4/src/BnBAllocator.cpp:449-466 | one round of the `do … while` loop of `setNextPMCandidate` |
| BnBSearch.SkippedAreInterchangeable | vm-alloc-vmbb2-4/src/BnBAllocator.cpp:449-466 | every skipped PM is interchangeable with the one just tried |
| BnBSearch.NextVMIsUnique | vm-alloc-vmbb2-4/src/BnBAllocator.cpp:322-353 | the fail-first choice and the first-unplaced choice each name one VM |
| BnBSearch.ExtraCostLoopBounds | vm-alloc-vmbb2-4/src/BnBAllocator.cpp:481-488 | the loop of `computeMinimalExtraCost` never raises the cost and lowers it by at most 10 per emptiable PM of the tiers it visits |
| BnBSearch.TierSumIsSumCounts | vm-alloc-vmbb2-4/src/BnBAllocator.cpp:48-51 | the tier counts add up to the number of off PMs with those numbers of initial VMs |
| BnBSearch.MinimalExtraCostRange | vm-alloc-vmbb2-4/src/BnBAllocator.cpp:474-491 | the extra cost bound lies between 0 and 10 times the number of emptiable PMs |
| BnBSearch.DeallocatedRespectsSimilar | vm-alloc-vmbb2-4/src/BnBAllocator.cpp:196-287 | deallocating states that differ only in list order gives states that differ only in list order |
| BnBSearch.HistoryPop | vm-alloc-vmbb2-4/src/BnBAllocator.cpp:580-584 | backtracking undoes the top allocation: the result is valid and similar to the state saved before it |
| BnBSearch.TopUndone | vm-alloc-vmbb2-4/src/BnBAllocator.cpp:268-271 | the undo stack and the history have the same depth, and undoing the top entry gives the saved stack |
| BnB.SortVMs | vm-alloc-vmbb2-4/src/BnBAllocator.cpp:67-83 | the VMs are permuted, sorted descending by the VM order, or unchanged for NONE |
| BnB.SortVMsKeepsProblem | vm-alloc-vmbb2-4/src/BnBAllocator.cpp:67-83 | sorting the VMs keeps the problem well formed |
| BnB.VMFitsInPM | vm-alloc-vmbb2-4/src/BnBAllocator.cpp:308-319 | the VM fits exactly when every free resource covers its demand |
| BnB.FitListOf | vm-alloc-vmbb2-4/src/BnBAllocator.cpp:519-525 | a VM's candidate list is the PMs it fits on, in index order |
| BnB.FitList | vm-alloc-vmbb2-4/src/BnBAllocator.cpp:519-525 | the PMs the VM fits on, in increasing order, each exactly when it fits |
| BnB.CandidateLists | vm-alloc-vmbb2-4/src/BnBAllocator.cpp:517-526 | every VM starts with the list of PMs it fits on |
| BnB.FitListSameFree | vm-alloc-vmbb2-4/src/BnBAllocator.cpp:517-526 | candidate lists depend only on free resources, so counting initial VMs does not change them |
| BnB.CountInitialVMs | vm-alloc-vmbb2-4/src/BnBAllocator.cpp:36-39 | each PM counts the VMs that start on it |
| BnB.CountAdditionalPMs | vm-alloc-vmbb2-4/src/BnBAllocator.cpp:40 | the number of off PMs with initial VMs |
| BnB.MaxAdditionalVMs | vm-alloc-vmbb2-4/src/BnBAllocator.cpp:41-45 | the largest count of initial VMs on one PM, attained by some PM |
| BnB.TierCounts | vm-alloc-vmbb2-4/src/BnBAllocator.cpp:48-51 | entry c is the number of off PMs with c initial VMs |
| BnB.Preprocess | vm-alloc-vmbb2-4/src/BnBAllocator.cpp:31-51 | with the intelligent bound, the counters, tiers, emptiable count and maximum described above |
| BnB.InitialEngine | vm-alloc-vmbb2-4/src/BnBAllocator.cpp:493-544 | the starting state is valid: nothing placed, counters zero, fit lists, preprocessed PMs |
| BnB.InitialValid | vm-alloc-vmbb2-4/src/BnBAllocator.cpp:493-544 | the constructor's state satisfies the engine invariant |
| BnB.CompleteIsFeasible | vm-alloc-vmbb2-4/src/BnBAllocator.cpp:648-653 | when every VM is placed in a valid state, no PM is over capacity |
| BnB.SearchEnd | vm-alloc-vmbb2-4/src/BnBAllocator.cpp:573-578 | when the VM stack is empty, nothing is placed and the state is the starting one up to list order |
| BnB.Find | vm-alloc-vmbb2-4/src/BnBAllocator.cpp:182 | the search loop finds the first position of the PM |
| BnB.BnBAllocator.constructor | vm-alloc-vmbb2-4/src/BnBAllocator.cpp:493-544 | the allocator starts valid: sorted VMs, fit lists, `numPMs / ratio` migrations allowed, best cost INT_MAX, and the counts and maximum of the preprocessing |
| BnB.BnBAllocator.SubtractedDemand | vm-alloc-vmbb2-4/src/BnBAllocator.cpp:126-127 | free resources less the VM's demand |
| BnB.BnBAllocator.AddedDemand | vm-alloc-vmbb2-4/src/BnBAllocator.cpp:226-227 | free resources plus the VM's demand |
| BnB.BnBAllocator.LosesCandidate | vm-alloc-vmbb2-4/src/BnBAllocator.cpp:176-188 | a VM loses the PM exactly when it is unplaced, had the PM listed, and no longer fits |
| BnB.BnBAllocator.PruneCandidates | vm-alloc-vmbb2-4/src/BnBAllocator.cpp:174-189 | the pruned lists and the VMs recorded as no longer fitting |
| BnB.BnBAllocator.Reserved | vm-alloc-vmbb2-4/src/BnBAllocator.cpp:106-167 | the PMs and counters after placing: one more PM on if it was off, the emptiable and tier counts adjusted, one more migration if the VM leaves its initial PM |
| BnB.BnBAllocator.Allocate | vm-alloc-vmbb2-4/src/BnBAllocator.cpp:102-193 | the new state is `Allocated` of the old one; the best record and the VM stack are unchanged |
| BnB.BnBAllocator.ReleaseInitial | vm-alloc-vmbb2-4/src/BnBAllocator.cpp:202-222 | with the intelligent bound and an initial PM that is off, that PM gets one more VM to take back, its tier moves up by one, and it becomes emptiable if it had none |
| BnB.BnBAllocator.Released | vm-alloc-vmbb2-4/src/BnBAllocator.cpp:200-265 | the PMs and counters after freeing: the inverse adjustments of `Reserved` |
| BnB.BnBAllocator.ReaddCandidates | vm-alloc-vmbb2-4/src/BnBAllocator.cpp:268-285 | the freed PM is appended back to the list of every VM that had lost it |
| BnB.BnBAllocator.DeAllocate | vm-alloc-vmbb2-4/src/BnBAllocator.cpp:196-287 | the new state is `Deallocated` of the old one, the inverse of `Allocate` by `BnBSteps.RoundTrip` |
| BnB.BnBAllocator.PMsAreTheSame | vm-alloc-vmbb2-4/src/BnBAllocator.cpp:296-305 | two PMs count as the same exactly when capacities agree and both are fully free |
| BnB.BnBAllocator.GetNextVM | vm-alloc-vmbb2-4/src/BnBAllocator.cpp:322-353 | fail-first: the unplaced VM with fewest candidates, earliest on ties; otherwise the first unplaced VM; none exactly when there is no such VM |
| BnB.BnBAllocator.ChooseNextVM | vm-alloc-vmbb2-4/src/BnBAllocator.cpp:322-353 | while some VM is unplaced, the choice is an unplaced VM by the same rule |
| BnB.BnBAllocator.InitializePMCandidates | vm-alloc-vmbb2-4/src/BnBAllocator.cpp:356-362 | every cursor is at the start of its list, and nothing else changes |
| BnB.BnBAllocator.ResetCandidates | vm-alloc-vmbb2-4/src/BnBAllocator.cpp:371-411 | the VM's list becomes `ResetList` of it and its cursor 0 |
| BnB.Reset | vm-alloc-vmbb2-4/src/BnBAllocator.cpp:371-411 | the VM's list is permuted, its cursor 0, and its initial PM first when asked and listed |
| BnB.BnBAllocator.NextCandidate | vm-alloc-vmbb2-4/src/BnBAllocator.cpp:449-466 | the loop computes `Advance` |
| BnB.BnBAllocator.SetNextPMCandidate | vm-alloc-vmbb2-4/src/BnBAllocator.cpp:444-472 | the VM's cursor moves to `Advance` of its old value; nothing else changes |
| BnB.BnBAllocator.GetNextPMCandidate | vm-alloc-vmbb2-4/src/BnBAllocator.cpp:436-441 | returns the PM under the cursor and then advances it |
| BnB.BnBAllocator.ComputeMinimalExtraCost | vm-alloc-vmbb2-4/src/BnBAllocator.cpp:474-491 | the loop computes `MinimalExtraCost` of the state |
| BnB.BnBAllocator.IsAllocationValid | vm-alloc-vmbb2-4/src/BnBAllocator.cpp:88-99 | valid exactly when no free resource of any PM is negative |
| BnB.BnBAllocator.CheckAllocation | vm-alloc-vmbb2-4/src/BnBAllocator.cpp:604 | the assertion after each allocation always holds under the invariant |
| BnB.BnBAllocator.SaveVM | vm-alloc-vmbb2-4/src/BnBAllocator.cpp:413-416 | the VM is pushed and nothing else changes |
| BnB.BnBAllocator.PopVM | vm-alloc-vmbb2-4/src/BnBAllocator.cpp:419-427 | the top VM is popped and returned; nothing else changes |
| BnB.BnBAllocator.Begin | vm-alloc-vmbb2-4/src/BnBAllocator.cpp:549-552 | the first VM is chosen and the cursors reset; the search invariant holds with an empty history |
| BnB.BnBAllocator.Place | vm-alloc-vmbb2-4/src/BnBAllocator.cpp:596 | placing extends the history by one saved state and the undo stack by one entry for this VM |
| BnB.BnBAllocator.PlaceNext | vm-alloc-vmbb2-4/src/BnBAllocator.cpp:595-596 | the next candidate is taken and placed, with the same effect on history and stack |
| BnB.BnBAllocator.UndoLast | vm-alloc-vmbb2-4/src/BnBAllocator.cpp:606-616 | undoing the top allocation drops one history entry and one undo entry and returns to the loop head for that VM |
| BnB.BnBAllocator.Retreat | vm-alloc-vmbb2-4/src/BnBAllocator.cpp:635-645 | after undoing, the search invariant holds for the shorter history |
| BnB.BnBAllocator.Backtrack | vm-alloc-vmbb2-4/src/BnBAllocator.cpp:568-592 | an exhausted branch pops the previous VM and undoes it; the best record is unchanged |
| BnB.BnBAllocator.LowerBound | vm-alloc-vmbb2-4/src/BnBAllocator.cpp:619-633 | the bound is the cost plus, with the intelligent bound, the minimal extra cost; it is at least the cost |
| BnB.BnBAllocator.CannotBeatBest | vm-alloc-vmbb2-4/src/BnBAllocator.cpp:635 | prune exactly when bound >= best × threshold; a bound that is kept lies strictly below `ScaledBest(best, threshold)`; with a threshold of at most 1 it is also below the best |
| BnB.BnBAllocator.RecordBest | vm-alloc-vmbb2-4/src/BnBAllocator.cpp:650-653 | the best record becomes the current complete allocation, cost, hosts and migrations |
| BnB.BnBAllocator.RecordAndRetreat | vm-alloc-vmbb2-4/src/BnBAllocator.cpp:648-668 | a complete allocation is recorded as best and then undone |
| BnB.BnBAllocator.MoveDown | vm-alloc-vmbb2-4/src/BnBAllocator.cpp:669-677 | the VM is saved, the next VM chosen and its candidates reset; the invariant holds |
| BnB.BnBAllocator.Extend | vm-alloc-vmbb2-4/src/BnBAllocator.cpp:648-677 | either the best is unchanged or it is the current cost |
| BnB.BnBAllocator.Evaluate | vm-alloc-vmbb2-4/src/BnBAllocator.cpp:606-677 | over budget or bounded: undo; otherwise record or move down; a new best costs strictly less than the old best × `boundThreshold`, for any threshold; with threshold ≤ 1 the best cost never rises |
| BnB.BnBAllocator.Try | vm-alloc-vmbb2-4/src/BnBAllocator.cpp:595-677 | one round of the loop with a candidate left keeps the search invariant; a new best costs strictly less than the old best × `boundThreshold`; with threshold ≤ 1 the best cost never rises |
| BnB.BnBAllocator.Solve | vm-alloc-vmbb2-4/src/BnBAllocator.cpp:547-679 | the state stays valid and the best cost never rises (threshold ≤ 1); a search that finishes leaves nothing placed and the state as it started, up to list order |
| BnB.BnBAllocator.GetBestCost | vm-alloc-vmbb2-4/src/BnBAllocator.cpp:682-702 | -1 exactly when nothing was found; otherwise the best allocation is complete, within capacity and budget, and costs 10 per host plus 1 per migration |
| BnB.BnBAllocator.GetBestAllocation | vm-alloc-vmbb2-4/src/BnBAllocator.cpp:722-725 | the best allocation, empty or complete and within capacity |
| BnB.BnBAllocator.GetActiveHosts | vm-alloc-vmbb2-4/src/BnBAllocator.cpp:712-715 | INT_MAX before any allocation is found, then the number of PMs it uses |
| BnB.BnBAllocator.GetMigrations | vm-alloc-vmbb2-4/src/BnBAllocator.cpp:717-720 | INT_MAX before any allocation is found, then its migrations, which are within budget |
| BnB.BnBAllocator.GetLowerBound | vm-alloc-vmbb2-4/src/BnBAllocator.cpp:706-709 | the minimal extra cost, between 0 and 10 per emptiable PM |
| Greedy.MoveKeepsTotal | vm-alloc-vmbb2-4/src/GreedyAllocator.cpp:94-98 | moving a demand between two PMs keeps the column total |
| Greedy.LoadedHostsVM | vm-alloc-vmbb2-4/src/GreedyAllocator.cpp:124-127 | a PM with load hosts some VM, so an overloaded PM has a VM to move |
| Greedy.GuazzRanks | vm-alloc-vmbb2-4/src/GreedyAllocator.cpp:35-49 | a non-empty PM comes before an empty one; otherwise a higher first-dimension load comes first |
| Greedy.GuazzIsStrict | vm-alloc-vmbb2-4/src/GreedyAllocator.cpp:35-49 | `pm_less_guazz` is a strict order |
| Greedy.NumVMIsStrict | vm-alloc-vmbb2-4/src/GreedyAllocator.cpp:52-55 | `pm_less_numvm` is a strict order |
| Greedy.FirstFit | vm-alloc-vmbb2-4/src/GreedyAllocator.cpp:72-85 | as written: the first PM in the order whose load plus the demand stays within capacity, or none |
| Greedy.FirstFitElsewhere | vm-alloc-vmbb2-4/src/GreedyAllocator.cpp:72-85 | corrected: the first such PM other than the VM's own, so never the own PM, or none |
| Greedy.ElsewhereAgrees | vm-alloc-vmbb2-4/src/GreedyAllocator.cpp:124-131 | when the own PM cannot take the VM (the relief case), both searches agree |
| Greedy.OwnPMChosen | vm-alloc-vmbb2-4/src/GreedyAllocator.cpp:150-155 | a concrete input on which the search as written picks the VM's own PM and the corrected one another PM |
| Greedy.PMsInUse | vm-alloc-vmbb2-4/src/GreedyAllocator.cpp:161-167 | the PMs whose VM set is non-empty |
| Greedy.Smallest | vm-alloc-vmbb2-4/src/GreedyAllocator.cpp:126-127 | the first VM of an ordered set is its least element, `SetMin` |
| Greedy.SetMin | vm-alloc-vmbb2-4/src/GreedyAllocator.cpp:149-150 | `*begin()` of a non-empty set of VMs: a member no larger than any other |
| Greedy.InitialHosting | vm-alloc-vmbb2-4/src/GreedyAllocator.cpp:17-31 | every VM sits in its initial PM's set, and each PM's load is the sum of its VMs' demands |
| Greedy.MoveDemand | vm-alloc-vmbb2-4/src/GreedyAllocator.cpp:94-98 | one PM's loads drop by the demand and the other's rise by it |
| Greedy.RecordSet | vm-alloc-vmbb2-4/src/GreedyAllocator.cpp:172-176 | the VMs of the set are recorded on the PM; other entries stay |
| Greedy.VmsOf | vm-alloc-vmbb2-4/src/GreedyAllocator.cpp:28 | a PM's set holds exactly the VMs placed on it |
| Greedy.LoadsOf | vm-alloc-vmbb2-4/src/GreedyAllocator.cpp:29-30 | a PM's load in each dimension is the total demand of the VMs placed on it |
| Greedy.HostingIs | vm-alloc-vmbb2-4/src/GreedyAllocator.cpp:90-100 | the sets and loads the allocator keeps are exactly those of its placement |
| Greedy.HostingAfterMove | vm-alloc-vmbb2-4/src/GreedyAllocator.cpp:90-100 | after `migrate` the sets and loads are those of the placement with the VM moved; a migration onto the own PM changes neither |
| Greedy.GuazzOrder | vm-alloc-vmbb2-4/src/GreedyAllocator.cpp:71 | `m_pms` after the sort: a permutation of the PMs |
| Greedy.GuazzOrderSorted | vm-alloc-vmbb2-4/src/GreedyAllocator.cpp:71 | that permutation is sorted by `pm_less_guazz` over the current sets and loads |
| Greedy.Target | vm-alloc-vmbb2-4/src/GreedyAllocator.cpp:66-87 | `find_pm_for_vm` in a state: a PM index or none |
| Greedy.TargetFits | vm-alloc-vmbb2-4/src/GreedyAllocator.cpp:72-85 | the PM found can take the VM in every dimension (also after the move, when it is another PM), and no PM before it in the sorted order can |
| Greedy.EmptyF | vm-alloc-vmbb2-4/src/GreedyAllocator.cpp:149-158 | emptying a PM leaves a state the allocator can be in |
| Greedy.EmptyMovesPrefix | vm-alloc-vmbb2-4/src/GreedyAllocator.cpp:149-158 | emptying a PM migrates an ascending prefix of its VMs, one migration each, and leaves every other VM where it was |
| Greedy.EmptyBudget | vm-alloc-vmbb2-4/src/GreedyAllocator.cpp:149-158 | emptying a PM counts at most one migration per VM it had |
| Greedy.OverloadedHosts | vm-alloc-vmbb2-4/src/GreedyAllocator.cpp:118-127 | an overloaded PM hosts a VM, so `*begin()` is defined |
| Greedy.ReliefStepF | vm-alloc-vmbb2-4/src/GreedyAllocator.cpp:116-134 | a step that moves a VM spends one unit of budget that was left; one that does not leaves placement and count alone |
| Greedy.ReliefLoopF | vm-alloc-vmbb2-4/src/GreedyAllocator.cpp:115-135 | the do-while for one PM ends in a state the allocator can be in |
| Greedy.RelieveFrom | vm-alloc-vmbb2-4/src/GreedyAllocator.cpp:112-136 | the relief phase, PM by PM in index order, ends in a state the allocator can be in |
| Greedy.ConsolidateFrom | vm-alloc-vmbb2-4/src/GreedyAllocator.cpp:141-159 | the consolidation walk from a position ends in a state the allocator can be in |
| Greedy.ConsolidateF | vm-alloc-vmbb2-4/src/GreedyAllocator.cpp:140-159 | consolidation: sort by `pm_less_numvm`, then the walk from the front |
| Greedy.SolveF | vm-alloc-vmbb2-4/src/GreedyAllocator.cpp:110-159 | relief from zero migrations, then consolidation |
| Greedy.ReliefLoopBudget | vm-alloc-vmbb2-4/src/GreedyAllocator.cpp:129-135 | the do-while for one PM keeps the count within budget and never lowers it |
| Greedy.RelieveBudget | vm-alloc-vmbb2-4/src/GreedyAllocator.cpp:112-136 | the relief phase keeps the count within budget and never lowers it |
| Greedy.ConsolidateBudget | vm-alloc-vmbb2-4/src/GreedyAllocator.cpp:142-148 | consolidation empties a PM only when its VMs fit in the budget left, so the count stays within budget |
| Greedy.SolveBudget | vm-alloc-vmbb2-4/src/GreedyAllocator.cpp:110-159 | `solve` migrates at most `m_numMaxMigrations` VMs, and none when that is 0 or less |
| Greedy.CountInUse | vm-alloc-vmbb2-4/src/GreedyAllocator.cpp:161-167 | counting over a permutation of the PMs gives the number of PMs with a non-empty set |
| Greedy.NotSeenYet | vm-alloc-vmbb2-4/src/GreedyAllocator.cpp:162-166 | a permutation of the PMs lists each once, so no PM is counted twice |
| Greedy.GreedyAllocator.constructor | vm-alloc-vmbb2-4/src/GreedyAllocator.cpp:5-32 | every VM on its initial PM, the PM order the index order, `numPMs / ratio` migrations allowed, results -1 |
| Greedy.GreedyAllocator.FitsOn | vm-alloc-vmbb2-4/src/GreedyAllocator.cpp:76-79 | load plus demand within capacity in every dimension |
| Greedy.GreedyAllocator.FirstFitting | vm-alloc-vmbb2-4/src/GreedyAllocator.cpp:72-85 | the scan finds `FirstFit`, the VM's own PM included |
| Greedy.GreedyAllocator.FindPMForVM | vm-alloc-vmbb2-4/src/GreedyAllocator.cpp:66-87 | `m_pms` becomes `GuazzOrder` of the state and the result is `Target`: the first PM in it that can take the VM, the own PM included |
| Greedy.GreedyAllocator.Migrate | vm-alloc-vmbb2-4/src/GreedyAllocator.cpp:90-100 | the VM moves between the two sets, the loads move with it, one more migration; onto its own PM only the count changes |
| Greedy.GreedyAllocator.MigrateKeepsTotal | vm-alloc-vmbb2-4/src/GreedyAllocator.cpp:90-100 | a migration keeps the total load in every dimension |
| Greedy.GreedyAllocator.Overloaded | vm-alloc-vmbb2-4/src/GreedyAllocator.cpp:118-123 | some dimension's load exceeds capacity, `OverloadedAt` |
| Greedy.GreedyAllocator.ReliefStep | vm-alloc-vmbb2-4/src/GreedyAllocator.cpp:116-134 | the new state and `changed` are `ReliefStepF` of the old state |
| Greedy.GreedyAllocator.RelieveOne | vm-alloc-vmbb2-4/src/GreedyAllocator.cpp:115-135 | the new state is `ReliefLoopF` of the old state |
| Greedy.GreedyAllocator.Relieve | vm-alloc-vmbb2-4/src/GreedyAllocator.cpp:112-136 | the new state is `RelieveFrom` of the old state, from PM 0 |
| Greedy.GreedyAllocator.MoveSmallest | vm-alloc-vmbb2-4/src/GreedyAllocator.cpp:150-157 | the least VM left goes to `find_pm_for_vm`'s PM if there is one, as `EmptyF` takes it |
| Greedy.GreedyAllocator.EmptyPM | vm-alloc-vmbb2-4/src/GreedyAllocator.cpp:146-158 | the new state is `EmptyF` of the old state and the PM's VMs |
| Greedy.GreedyAllocator.Consolidate | vm-alloc-vmbb2-4/src/GreedyAllocator.cpp:140-159 | the new state is `ConsolidateF` of the old state |
| Greedy.GreedyAllocator.ConsolidateFromFront | vm-alloc-vmbb2-4/src/GreedyAllocator.cpp:141-159 | the new state is `ConsolidateFrom` of the old state, from position 0 |
| Greedy.GreedyAllocator.CountPMsOn | vm-alloc-vmbb2-4/src/GreedyAllocator.cpp:161-167 | the number of PMs with a non-empty VM set |
| Greedy.GreedyAllocator.RecordAllocation | vm-alloc-vmbb2-4/src/GreedyAllocator.cpp:169-177 | the recorded allocation is exactly where every VM now is |
| Greedy.GreedyAllocator.RecordedIsHost | vm-alloc-vmbb2-4/src/GreedyAllocator.cpp:169-177 | recording every PM's set gives each VM its host |
| Greedy.GreedyAllocator.Conclude | vm-alloc-vmbb2-4/src/GreedyAllocator.cpp:160-177 | PMs on counted, cost 10 per PM on plus 1 per migration, allocation recorded |
| Greedy.GreedyAllocator.Solve | vm-alloc-vmbb2-4/src/GreedyAllocator.cpp:103-178 | the new state is `SolveF` of the old one; migrations within budget (none when it is 0 or less), PMs on counted, cost 10 per PM on plus 1 per migration, allocation recorded |
| Greedy.GreedyAllocator.GetBestCost | vm-alloc-vmbb2-4/src/GreedyAllocator.cpp:181-184 | the recorded cost |
| Greedy.GreedyAllocator.GetBestAllocation | vm-alloc-vmbb2-4/src/GreedyAllocator.cpp:187-190 | the recorded allocation |
| Greedy.GreedyAllocator.GetActiveHosts | vm-alloc-vmbb2-4/src/GreedyAllocator.cpp:193-196 | the counted PMs on |
| Greedy.GreedyAllocator.GetMigrations | vm-alloc-vmbb2-4/src/GreedyAllocator.cpp:199-202 | the migrations made |
| Greedy.GreedyAllocator.GetLowerBound | vm-alloc-vmbb2-4/src/GreedyAllocator.cpp:205-208 | always 0 |
| IlpModel.FlattenMembers | vm-alloc-vmbb2-4/src/IlpAllocator.cpp:72-96 | the rows of nested loops are exactly the rows of the inner loops |
| IlpModel.FlattenLength | vm-alloc-vmbb2-4/src/IlpAllocator.cpp:86-96 | nested loops of equal width write outer × inner rows |
| IlpModel.NatTextLength | vm-alloc-vmbb2-4/src/IlpAllocator.cpp:59 | a number prints as one digit exactly when it is below 10 |
| IlpModel.NatTextDigits | vm-alloc-vmbb2-4/src/IlpAllocator.cpp:59 | printed naturals are digits only |
| IlpModel.IntTextChars | vm-alloc-vmbb2-4/src/IlpAllocator.cpp:109-111 | printed integers are a sign and digits, the sign exactly for negatives |
| IlpModel.ActivationTable | vm-alloc-vmbb2-4/src/IlpAllocator.cpp:86-96 | the activation row of every VM and PM, VM-major |
| IlpModel.CapacityTable | vm-alloc-vmbb2-4/src/IlpAllocator.cpp:99-117 | the capacity row of every dimension and PM, dimension-major |
| IlpModel.AllocTable | vm-alloc-vmbb2-4/src/IlpAllocator.cpp:162-170 | the `Alloc` variable of every VM and PM, VM-major |
| IlpModel.RowCount | vm-alloc-vmbb2-4/src/IlpAllocator.cpp:71-138 | N assignment, N·P activation, D·P capacity, N migration and 1 budget rows |
| IlpModel.BinariesOnce | vm-alloc-vmbb2-4/src/IlpAllocator.cpp:140-170 | the binary section declares every variable of the program once and nothing else |
| IlpModel.AllocPositions | vm-alloc-vmbb2-4/src/IlpAllocator.cpp:162-170 | `Alloc_j_i` is declared at position j·P + i |
| IlpModel.AssignmentHolds | vm-alloc-vmbb2-4/src/IlpAllocator.cpp:71-83 | under a placement each VM's assignment row sums to 1 |
| IlpModel.CapacityValue | vm-alloc-vmbb2-4/src/IlpAllocator.cpp:99-117 | a capacity row evaluates to the demand the placement puts on that PM |
| IlpModel.BudgetValue | vm-alloc-vmbb2-4/src/IlpAllocator.cpp:129-134 | the budget row evaluates to the number of VMs moved |
| IlpModel.HostCostValue | vm-alloc-vmbb2-4/src/IlpAllocator.cpp:56-60 | the host part of the objective is 10 per PM on |
| IlpModel.MigrationCostValue | vm-alloc-vmbb2-4/src/IlpAllocator.cpp:61-64 | the migration part of the objective is 1 per VM moved |
| IlpModel.StructuralRowsHold | vm-alloc-vmbb2-4/src/IlpAllocator.cpp:71-128 | under a placement every assignment, activation and migration row holds |
| IlpModel.CapacityRowListed | vm-alloc-vmbb2-4/src/IlpAllocator.cpp:99-117 | every (dimension, PM) row is written |
| IlpModel.CapacityRowOrigin | vm-alloc-vmbb2-4/src/IlpAllocator.cpp:99-117 | every capacity row written is some (dimension, PM) row |
| IlpModel.CapacityRowsMeaning | vm-alloc-vmbb2-4/src/IlpAllocator.cpp:99-117 | the capacity rows hold exactly when no PM is over capacity |
| IlpModel.RowsSplit | vm-alloc-vmbb2-4/src/IlpAllocator.cpp:71-138 | the program holds exactly when each row family holds |
| IlpModel.SatisfiesParts | vm-alloc-vmbb2-4/src/IlpAllocator.cpp:71-138 | the program holds exactly when the structural, capacity and budget rows hold |
| IlpModel.BudgetHolds | vm-alloc-vmbb2-4/src/IlpAllocator.cpp:129-134 | the budget row holds exactly when at most `numPMs / ratio` VMs move |
| IlpModel.EncodingSatisfies | vm-alloc-vmbb2-4/src/IlpAllocator.cpp:71-138 | a placement's 0/1 encoding satisfies the program exactly when it respects capacities and the migration budget |
| IlpModel.EncodingObjective | vm-alloc-vmbb2-4/src/IlpAllocator.cpp:51-64 | the objective at a placement's encoding is 10 per PM on plus 1 per VM moved |
| IlpWriter.RowShape | vm-alloc-vmbb2-4/src/IlpAllocator.cpp:104-115 | a row is written as label, terms, sense and bound, then the end of row |
| IlpWriter.WriteEndOfRow | vm-alloc-vmbb2-4/src/IlpAllocator.cpp:112-115 | a newline for Gurobi, `;` and a newline for lp_solve |
| IlpWriter.WriteHostCost | vm-alloc-vmbb2-4/src/IlpAllocator.cpp:56-60 | the text of the host cost terms |
| IlpWriter.WriteMigrationCost | vm-alloc-vmbb2-4/src/IlpAllocator.cpp:61-64 | the text of the migration cost terms |
| IlpWriter.WriteObjective | vm-alloc-vmbb2-4/src/IlpAllocator.cpp:51-69 | the objective section in the solver's syntax |
| IlpWriter.WriteAssignmentRow | vm-alloc-vmbb2-4/src/IlpAllocator.cpp:74-82 | one VM's assignment row |
| IlpWriter.WriteAssignmentRows | vm-alloc-vmbb2-4/src/IlpAllocator.cpp:71-83 | the text of all assignment rows |
| IlpWriter.WriteActivationRow | vm-alloc-vmbb2-4/src/IlpAllocator.cpp:90-94 | one activation row |
| IlpWriter.WriteActivationRowsOf | vm-alloc-vmbb2-4/src/IlpAllocator.cpp:88-95 | one VM's activation rows |
| IlpWriter.WriteActivationRows | vm-alloc-vmbb2-4/src/IlpAllocator.cpp:85-96 | the text of all activation rows |
| IlpWriter.WriteCapacityRow | vm-alloc-vmbb2-4/src/IlpAllocator.cpp:103-115 | one capacity row |
| IlpWriter.WriteCapacityRowsOf | vm-alloc-vmbb2-4/src/IlpAllocator.cpp:101-116 | one dimension's capacity rows |
| IlpWriter.WriteCapacityRows | vm-alloc-vmbb2-4/src/IlpAllocator.cpp:98-117 | the text of the dimension and PM loops |
| IlpWriter.CapacityRowsText | vm-alloc-vmbb2-4/src/IlpAllocator.cpp:98-117 | that text is the program's capacity rows |
| IlpWriter.WriteMigrationRow | vm-alloc-vmbb2-4/src/IlpAllocator.cpp:122-127 | one migration row, tied to the VM's initial PM |
| IlpWriter.WriteMigrationRows | vm-alloc-vmbb2-4/src/IlpAllocator.cpp:119-128 | the text of all migration rows |
| IlpWriter.WriteBudgetRow | vm-alloc-vmbb2-4/src/IlpAllocator.cpp:129-138 | the budget row, with bound `numPMs / ratio` rounded toward zero |
| IlpWriter.WriteMigrDeclarations | vm-alloc-vmbb2-4/src/IlpAllocator.cpp:145-155 | the `Migr` declarations with the solver's separator |
| IlpWriter.WriteSeparator | vm-alloc-vmbb2-4/src/IlpAllocator.cpp:147-153 | the separator between declarations in the solver's syntax |
| IlpWriter.WriteActiveDeclarations | vm-alloc-vmbb2-4/src/IlpAllocator.cpp:156-161 | the `Active` declarations |
| IlpWriter.WriteAllocDeclarationsOf | vm-alloc-vmbb2-4/src/IlpAllocator.cpp:164-169 | one VM's `Alloc` declarations |
| IlpWriter.WriteAllocDeclarations | vm-alloc-vmbb2-4/src/IlpAllocator.cpp:162-170 | all `Alloc` declarations |
| IlpWriter.WriteBinaries | vm-alloc-vmbb2-4/src/IlpAllocator.cpp:140-174 | the binary section |
| IlpWriter.RowsOfProgram | vm-alloc-vmbb2-4/src/IlpAllocator.cpp:71-138 | the rows of the file are the five families in order |
| IlpWriter.CreateLp | vm-alloc-vmbb2-4/src/IlpAllocator.cpp:47-177 | the file is the rendering of the program `BuildLp` describes, whose meaning the `IlpModel` lemmas give |
| IlpWriter.NatTextInjective | vm-alloc-vmbb2-4/src/IlpAllocator.cpp:59 | different naturals print differently |
| IlpWriter.IntTextInjective | vm-alloc-vmbb2-4/src/IlpAllocator.cpp:109-111 | different integers print differently |
| IlpWriter.NameInjective | vm-alloc-vmbb2-4/src/IlpAllocator.cpp:59-77 | different variables get different names |
| IlpWriter.BinaryNamesOnce | vm-alloc-vmbb2-4/src/IlpAllocator.cpp:140-170 | the binary section names every program variable once and nothing else |
| IlpWriter.RowIsOneLine | vm-alloc-vmbb2-4/src/IlpAllocator.cpp:104-115 | a row is one line, and for lp_solve one statement ended by its only `;` |
| IlpWriter.ProgramLabelsPlain | vm-alloc-vmbb2-4/src/IlpAllocator.cpp:104 | every row label is empty or `dim_d_PM_i: ` |
| Generator.Count | vm-alloc-vmbb2-4/src/ProblemGenerator.cpp:58 | a `for (i = 0; i < n; i++)` loop runs n times, or none for negative n |
| Generator.RandomIntBetween | vm-alloc-vmbb2-4/src/ProblemGenerator.cpp:41-45 | with min ≤ max the drawn value lies between them; never below min |
| Generator.RandomIntBetweenReaches | vm-alloc-vmbb2-4/src/ProblemGenerator.cpp:41-45 | every value between min and max can be drawn |
| Generator.DrawVector | vm-alloc-vmbb2-4/src/ProblemGenerator.cpp:61-62 | n successive draws, each within bounds |
| Generator.GenerateVMs | vm-alloc-vmbb2-4/src/ProblemGenerator.cpp:57-67 | VM i is numbered i, with demands within bounds and an initial PM among the PMs |
| Generator.GenerateTypes | vm-alloc-vmbb2-4/src/ProblemGenerator.cpp:72-85 | each type's capacities are within bounds and equal its free resources |
| Generator.GeneratePMs | vm-alloc-vmbb2-4/src/ProblemGenerator.cpp:87-94 | PM i is a copy of some type, numbered i |
| Generator.FirstFitting | vm-alloc-vmbb2-4/src/ProblemGenerator.cpp:109-120 | the first PM whose free resources cover the demand, or none |
| Generator.Deducted | vm-alloc-vmbb2-4/src/ProblemGenerator.cpp:124-125 | the free resources less the demand |
| Generator.Pass | vm-alloc-vmbb2-4/src/ProblemGenerator.cpp:105-127 | the pass keeps the numbers of VMs and PMs and the dimension |
| Generator.FitsResidual | vm-alloc-vmbb2-4/src/ProblemGenerator.cpp:111-116 | the `fit` loop answers whether the free resources cover the demand |
| Generator.FirstFitPM | vm-alloc-vmbb2-4/src/ProblemGenerator.cpp:107-120 | found exactly when some PM fits, and then `j - 1` is the first |
| Generator.Deduct | vm-alloc-vmbb2-4/src/ProblemGenerator.cpp:124-125 | the loop computes `Deducted` |
| Generator.FirstFitPass | vm-alloc-vmbb2-4/src/ProblemGenerator.cpp:105-127 | the loop over VMs computes `Pass` |
| Generator.PassNext | vm-alloc-vmbb2-4/src/ProblemGenerator.cpp:105-127 | a VM not reached yet is unchanged |
| Generator.PassKeepsVMs | vm-alloc-vmbb2-4/src/ProblemGenerator.cpp:105-127 | the pass changes only the initial PM of VMs it reached |
| Generator.PassPlaces | vm-alloc-vmbb2-4/src/ProblemGenerator.cpp:109-120 | each handled VM went to the first PM that still fit it |
| Generator.PassSetsInitial | vm-alloc-vmbb2-4/src/ProblemGenerator.cpp:121-123 | a placed VM takes its PM as initial PM; an unplaced one keeps its own |
| Generator.PassOutcome | vm-alloc-vmbb2-4/src/ProblemGenerator.cpp:105-127 | VM i keeps everything but its initial PM, which the pass chose |
| Generator.PassNonNegative | vm-alloc-vmbb2-4/src/ProblemGenerator.cpp:121-126 | free resources never go below zero |
| Generator.PassConserves | vm-alloc-vmbb2-4/src/ProblemGenerator.cpp:121-126 | each PM's free resources drop by exactly the demand of the VMs placed on it |
| Generator.PassRespectsCapacity | vm-alloc-vmbb2-4/src/ProblemGenerator.cpp:102-127 | no PM receives more than its capacity in any dimension |
| Generator.PassKeepsPMs | vm-alloc-vmbb2-4/src/ProblemGenerator.cpp:105-127 | the pass changes only PMs' free resources |
| Generator.ResetVector | vm-alloc-vmbb2-4/src/ProblemGenerator.cpp:131-134 | every free resource is set back to capacity |
| Generator.ResetFree | vm-alloc-vmbb2-4/src/ProblemGenerator.cpp:129-135 | every PM gets its free resources back and nothing else changes |
| Generator.ProblemGenerator.constructor | vm-alloc-vmbb2-4/src/ProblemGenerator.cpp:31-39 | the six bounds are stored |
| Generator.ProblemGenerator.SetNumVMsNumPMs | vm-alloc-vmbb2-4/src/ProblemGenerator.cpp:47-51 | the problem size is stored |
| Generator.ProblemGenerator.Generate | vm-alloc-vmbb2-4/src/ProblemGenerator.cpp:53-100 | numVMs VMs with demands within bounds and initial PMs in range; numPMs PMs, each a copy of a type with capacities within bounds |
| Generator.ProblemGenerator.GenerateFF | vm-alloc-vmbb2-4/src/ProblemGenerator.cpp:102-138 | a generated problem whose VMs went through the first-fit pass, with PMs as generated |
| Config.FirstEquals | vm-alloc-vmbb2-4/src/ConfigParser.cpp:77 | the position of the first '=', or the end |
| Config.KeyValue | vm-alloc-vmbb2-4/src/ConfigParser.cpp:74-86 | a pair exactly when some '=' is followed by text; the line is key '=' value, with no '=' in the key |
| Config.KeyValueOf | vm-alloc-vmbb2-4/src/ConfigParser.cpp:74-86 | writing key '=' value reads back as that key and value |
| Config.MarkersHaveNoKey | vm-alloc-vmbb2-4/src/ConfigParser.cpp:51-61 | the block markers carry no setting |
| Config.BoolRoundTrip | vm-alloc-vmbb2-4/src/ConfigParser.cpp:268-273 | only "true" reads as true |
| Config.FindGeneralKey | vm-alloc-vmbb2-4/src/ConfigParser.cpp:90-150 | the key found has the text as its name; none means no later key has it |
| Config.FindAllocatorKey | vm-alloc-vmbb2-4/src/ConfigParser.cpp:214-265 | the same for allocator keys |
| Config.ParseGeneralKey | vm-alloc-vmbb2-4/src/ConfigParser.cpp:90-150 | the general key spelled by the text, none exactly when no key is |
| Config.ParseAllocatorKey | vm-alloc-vmbb2-4/src/ConfigParser.cpp:214-265 | the allocator key spelled by the text, none exactly when no key is |
| Config.KeyNamesRoundTrip | vm-alloc-vmbb2-4/src/ConfigParser.cpp:90-265 | every key is recognised from its own name |
| Config.SetGeneralSets | vm-alloc-vmbb2-4/src/ConfigParser.cpp:88-145 | a general line sets its key's field to the converted value and leaves the others |
| Config.SetAllocatorSets | vm-alloc-vmbb2-4/src/ConfigParser.cpp:212-266 | an allocator line sets its key's field and leaves the others |
| Config.ApplyGeneral | vm-alloc-vmbb2-4/src/ConfigParser.cpp:146-150 | an unknown general key ends the program, exactly then |
| Config.ApplyAllocator | vm-alloc-vmbb2-4/src/ConfigParser.cpp:212-266 | an unknown allocator key changes nothing |
| Config.GeneralLastWriteWins | vm-alloc-vmbb2-4/src/ConfigParser.cpp:88-145 | of two lines with the same general key the later wins |
| Config.GeneralKeysCommute | vm-alloc-vmbb2-4/src/ConfigParser.cpp:88-145 | general lines with different keys commute |
| Config.AllocatorLastWriteWins | vm-alloc-vmbb2-4/src/ConfigParser.cpp:212-266 | of two lines with the same allocator key the later wins |
| Config.MakeParams | vm-alloc-vmbb2-4/src/ConfigParser.cpp:169-207 | the record's class follows the allocator type; common fields always, BnB or ILP fields exactly for that class |
| Config.MakeParamsReadsItsOwnSettings | vm-alloc-vmbb2-4/src/ConfigParser.cpp:169-207 | two records are equal exactly when the settings their class reads agree |
| Config.Close | vm-alloc-vmbb2-4/src/ConfigParser.cpp:209 | closing a block appends one record and changes nothing else |
| Config.Finish | vm-alloc-vmbb2-4/src/ConfigParser.cpp:156-209 | input ending inside a block closes it as `}` would |
| Config.Step | vm-alloc-vmbb2-4/src/ConfigParser.cpp:44-62 | one line: the program ends exactly on an unknown general key; records are added only by `}`; block lines touch only pending settings, top-level lines only general ones |
| Config.Run | vm-alloc-vmbb2-4/src/ConfigParser.cpp:44-72 | reading lines only appends records; inside a block, lines without `}` leave the general settings and records alone |
| Config.RunAppend | vm-alloc-vmbb2-4/src/ConfigParser.cpp:49-62 | reading two pieces of input in turn is reading them joined |
| Config.RunPrefixNext | vm-alloc-vmbb2-4/src/ConfigParser.cpp:49-62 | reading one more line is one more step |
| Config.BlockNext | vm-alloc-vmbb2-4/src/ConfigParser.cpp:156-167 | inside a block `}` closes it and any other line fills in a pending setting |
| Config.RunEnded | vm-alloc-vmbb2-4/src/ConfigParser.cpp:146-150 | once the program has ended, later lines cannot revive it |
| Config.RunInBlock | vm-alloc-vmbb2-4/src/ConfigParser.cpp:156-167 | inside a block, lines only fill in the pending settings |
| Config.BlockAppendsOne | vm-alloc-vmbb2-4/src/ConfigParser.cpp:153-210 | a block appends exactly one record, built from the settings its lines leave |
| Config.BlockAtEndAppendsOne | vm-alloc-vmbb2-4/src/ConfigParser.cpp:156-210 | an unclosed block at the end appends its record all the same |
| Config.BlockInherits | vm-alloc-vmbb2-4/src/ConfigParser.cpp:212-266 | a setting a block omits keeps the previous block's value |
| Config.ConfigParser.constructor | vm-alloc-vmbb2-4/src/ConfigParser.cpp:8-11 | no records and no generator yet; starting settings as given |
| Config.ConfigParser.ProcessGeneralParameter | vm-alloc-vmbb2-4/src/ConfigParser.cpp:88-151 | exits exactly on an unknown key; otherwise applies the line |
| Config.ConfigParser.ProcessAllocatorParameter | vm-alloc-vmbb2-4/src/ConfigParser.cpp:212-266 | the pending settings become `ApplyAllocator` of them |
| Config.ConfigParser.ReadBlockLine | vm-alloc-vmbb2-4/src/ConfigParser.cpp:156-167 | closes exactly on `}`, and the state matches `Run` over one more line |
| Config.ConfigParser.ProcessAllocator | vm-alloc-vmbb2-4/src/ConfigParser.cpp:153-210 | reads through `}` or the end, and the state is `Run` of those lines, finished |
| Config.ConfigParser.ReadLine | vm-alloc-vmbb2-4/src/ConfigParser.cpp:49-61 | one round of the loop agrees with `Run`, exiting exactly when it ends |
| Config.ConfigParser.Parse | vm-alloc-vmbb2-4/src/ConfigParser.cpp:44-72 | exits exactly when `Run` ends; otherwise the state is `Run` of the whole file, finished, and a fresh generator holds the general settings |

## Left out

- File and console I/O: opening and reading files, `testFromFile`, logging (`m_log`, `VERBOSE_*`), warnings printed by the converters. The configuration file is a sequence of lines, and `create_lp` returns its text.
- `ILPAllocator` beyond `create_lp`: running the solver (`system`) and reading its result files. `main.cpp` is not part of this model.
- `srand(time(NULL))`: the seeding is left out, and the sequence of `rand()` values is a parameter.
- `std::stoi` and `std::stod` are a parameter (`Numbers`). Their exceptions on malformed text are not modelled.
- `int` overflow is not modelled. Costs and counters are unbounded integers, and `double` costs are integers or reals.
- `BnB.BnBAllocator.Solve`: the wall-clock timeout is a step budget (`steps`). A run that uses it up reports `timedOut`.
- `BnB.BnBAllocator.GetLowerBound`: stated only with the intelligent bound on. Without it, the C++ reads `m_numAdditionalPMs` and `m_maxNumVMsOnOnePM` before any assignment.
- `BnB.BnBAllocator.constructor`: requires (through `BnB.ProblemOK` and `BnBState.DemandsOK`) that every demand entry is non-negative and that some entry of each VM is positive; the C++ accepts any demand. The engine invariant needs both. With a zero demand, or with demands that cancel, a PM can host VMs and still be "off" by `isOn`: two VMs demanding [1, -1] and [-1, 1] on one PM leave `resourcesFree == capacity`. Then `m_numPMsOn` loses track of the PMs in use, and the model does not cover such problems.
- `dynamic_pointer_cast` between parameter classes is a variant datatype. Type ids are not modelled.
- `std::sort` is an insertion sort. Only its contract is relied on: a permutation sorted by a strict order. The relative order of equivalent elements may differ from the library's.
- Uninitialised fields of `ConfigParser` are constructor parameters. The generator's unset problem size starts at 0.
- `Config.AllocatorLastWriteWins`: only the same-key law is stated for allocator keys. Lines with different allocator keys commuting is not stated; the general-key version is `Config.GeneralKeysCommute`.
- Line values do not exclude newline characters; `getline` would never produce one.
- `Generator.ProblemGenerator.GenerateFF`: the first-fit pass works on values (sequences of VMs and PMs), not on the problem's vectors in place.
- That the relief phase leaves no PM overloaded is not stated, because the source does not guarantee it: a VM that fits nowhere, or a used-up budget, ends the loop for that PM.

## Findings

| source | as written | input that shows it | evidently intended | confidence | as-written member | corrected member |
|---|---|---|---|---|---|---|
| vm-alloc-vmbb2-4/src/GreedyAllocator.cpp:66-87 | `find_pm_for_vm` does not skip the VM's own PM. During consolidation (lines 150-155) a VM can be "migrated" onto the PM it is on: a migration is counted and nothing moves. | 2 PMs with capacity [100], budget 2 (ratio 1). PM0 hosts VM0 (demand 5); PM1 hosts VMs 1 and 2 (demand 1 each). Consolidation takes PM0 first (fewest VMs). Ranked by load, PM0 comes first, and VM0 fits there. Cost 21 (2 PMs on, 1 migration) instead of 11. | search only PMs other than the VM's own, so VM0 moves to PM1 | not executed | Greedy.FirstFit, Greedy.GreedyAllocator.FindPMForVM, Greedy.OwnPMChosen | Greedy.FirstFitElsewhere, Greedy.ElsewhereAgrees |
| vm-alloc-vmbb2-4/src/PM.cpp:76-77 | In `MaximumPMComparator`, the branch for two PMs that are off returns `secondMax > firstMax`, the same test as the on/on branch. Off PMs are therefore sorted ascending by their largest free component, while the comment at line 32 says PMs turned off are sorted descending, so that the biggest is turned on first (the lexicographic and sum comparators do so). | Two empty PMs with free resources and capacity [1] and [2]: the comparator puts the PM with [1] first. | `firstMax > secondMax` in the off/off branch, so the PM with [2] comes first | not executed | Machines.MaximumPMComparator, Machines.MaximumPMOffIsAscending | Machines.DescendingMaximumPMOrder, Machines.DescendingMaximumPMOffIsDescending |
