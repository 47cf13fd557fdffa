# Verified model of a first-order transition-system verifier

The verifier takes a transition system written in many-sorted first-order logic (initial states,
a two-state step formula with primes, axioms, a safety formula) and either searches it in bounded
universes or infers an inductive invariant for it. This project models the parts that compute in
process and proves what they promise. A solver is a function that returns any correct answer, and a
parallel map is any interleaving of its threads.

## Bounded checking, three ways

One ground form is shared by the three checkers. `Prime.dfy` normalises primes, `QuantEnum.dfy` and
`QuantEnumSound.dfy` enumerate quantifiers over a bounded universe and show that the ground formula has
the truth value of the original one; `EnumErrors.dfy` says when enumeration fails and `EnumShape.dfy` what its results
look like. `Indices.dfy` numbers the ground applications, copy by copy.

* **Explicit states.** `Guarded.dfy` compiles two-state formulas to guarded updates, `CompileShape.dfy` says on their shape
  which of them compile, `Translate.dfy` and `TranslateTransitions.dfy` expand the open bits, drop no-ops and filter by
  the axioms, `GuardTrie.dfy` indexes transitions by their guards, and `Search.dfy` is the breadth-first search that inserts
  whole orbits of isomorphic states. `Permutations.dfy`, `Isomorphism.dfy` and `Orbits.dfy` show that the orbits are what
  they should be, and `SetChecker.dfy` puts everything together: its `Check` speaks about executions of the
  system only. That steps and safety are symmetric is not assumed but follows from the invariance of closed
  formulas under isomorphism.
* **SAT.** `Tseytin.dfy` translates to clauses imperatively and shows that every valuation extends uniquely;
  `Unrolling.dfy` and `SatChecker.dfy` decode satisfying valuations to runs of exactly the given depth.
* **Diagrams.** A binary decision diagram is the set of valuations it accepts. `Symbolic.dfy` has images,
  preimages and renaming, `SymbolicSearch.dfy` the forward and backward search with the reconstruction of a run,
  `BddChecker.dfy` the checker.

`Agreement.dfy` says when the three agree: on every system with a transition formula whose executions cannot leave the
axioms over mutable symbols for an unsafe state. Each answers exactly when there is no reason against it, and stops exactly when
nothing new is reached.

## Subsumption and lemma sets

`Subsume.dfy` has nested conjunctions and disjunctions with their order and subsumption, on canonical forms;
`SubsumeTrie.dfy`, `SubsumeMap.dfy` and `SubsumePair.dfy` the tries and maps over them, which answer exactly
what a linear scan answers after every history of insertions and removals, and `NestedIndex.dfy` the same structures
nested in each other as the forms are. `Quant.dfy` has quantifier prefixes
and permutations of their blocks, `LemmaSets.dfy` sets of quantified lemmas, `LemmaQf.dfy` the weakening of the
three kinds of bodies, `BodyForms.dfy` the bodies as nested forms, and `Weaken.dfy` evaluates and weakens
all lemmas of a set at once. `AtomTerms.dfy` meets the hypotheses of these with atoms that are terms, and
`NaiveWeakening.dfy` has the weakening that trips an assertion.

What weakening must not lose is in three files: `FirstWeakening.dfy` for any conjunctive bodies and one model,
`SingleClause.dfy` for single clauses and any number of models and steps (the set always implies every clause of the language
that the models satisfy and the steps preserve), and `AtomOrbits.dfy`, over the group of `BlockPerms.dfy`, which shows that
atoms that are terms meet all hypotheses of that.

## Loops around a solver

`Marco.dfy` enumerates maximal satisfiable and minimal unsatisfiable subsets, `Core.dfy` keeps a locally
minimal hitting set of the counter-models seen so far and answers implication and transition queries with it,
`Houdini.dfy` computes the largest inductive subset of a set of candidates.

## Terms and models

`Semantics.dfy` gives formulas their meaning over traces. `Models.dfy` has finite models with tabulated symbols
and the evaluator, `TermEnum.dfy` the enumeration of terms by depth, `CharSentence.dfy` the characteristic
sentence and the diagram of a model, `SortInfer.dfy` the two-phase inference of sorts, and `SortCheck.dfy` the
ordinary sort check it is compared with. `Collections.dfy` and `Decimals.dfy` are shared helpers.

## Form

Code that changes state is modelled by classes and loops: the guard trie, the set of seen states, the search
loops, the Tseytin translation with its output vector and counter, the index, the subsumption map, the lemma
sets, MARCO's array passes, the core, the candidates of Houdini, the unification table. Each method is tied to
a specification whose properties are proved beside it. Recursive code is functions and lemmas.

## What callers must provide

* Terms are well-sorted, the branches of a conditional are boolean, and no binder reuses the name of a relation,
  because nullary identifiers are replaced without regard to scope (bounded/src/quant_enum.rs:68-71).
* Declared names do not end in a prime. The bounded checkers fail on relations that are not boolean.
* For SAT and diagrams, initial states, axioms and safety speak about one state and transitions about two
  (`SatChecker.Extracted`); the explicit-state checker answers with an error where they do not.
* Prime normalisation is for terms without past operators below a prime.
* Implication between quantified lemmas is over models with nonempty sorts, with an atom set closed under the
  permutations of the quantifier blocks (`AtomOrbits.ClosedAtoms`; the original panics otherwise, inference/src/weaken.rs:200).
* The characteristic sentence needs a signature without boolean arguments, whose sort names are
  nonempty and without blanks, and whose symbols do not clash with the generated variable names.

A panic of the original is an explicit result here (`Failure(Panic)`, `None`) or the precondition that rules it out.

## Findings

* The step formula built for SAT and for diagrams constrains axioms over mutable symbols before the step only
  (bounded/src/sat.rs:39-43, bounded/src/bdd.rs:63-67), while the explicit-state checker filters the states after
  it. The last state of a reported violation may break an axiom: `SatChecker.SpuriousViolation` is such a system.
  All violations of a depth are real if and only if no execution can leave the axioms for an unsafe state
  (`SatChecker.BuiltViolationsReal`), in particular when no axiom speaks about a mutable symbol.
* The explicit-state checker takes no step when there is no transition formula (bounded/src/set.rs:267), while the
  other two let every mutable symbol change. `SatChecker.IdleViolations` says exactly when that gives violations,
  `SatChecker.IdleSpuriousViolation` is a system where it does, and `CheckerAgreement.CheckersAgree` has the guard under
  which the three checkers agree.
* Normalisation changes the meaning of a term with a past operator under a prime: `Primes.NormalizeUnsoundOnPast`. It
  is sound on all other terms, and `Primes.PreviousBelowPrimes` and `Primes.SinceBelowPrimes` say at which times the
  value is lost.
* Weakening a lemma set from its initial lemma never inserts a body twice, so the assertion in the trie
  is never tripped, for CNF, for pDNF, and for the naive pDNF when `non_unit` is 0. Otherwise the first branch of the naive
  `weaken` does not screen its candidates (inference/src/lemma.rs:460-461), and `NaiveWeakenings.NaiveTrips` is a set of
  two lemmas whose weakening always trips it.
* Weakening conjunctive bodies is complete for one clause (`SingleClauses.NothingMissed`, `AtomOrbits.ClausesNotMissed`) but not for
  more: the false body is replaced by as many unit clauses as allowed at once (inference/src/lemma.rs:135-143), and
  `LemmaBodies.WeakenCnfLoses` has two cubes after which nothing is left of it, though one unit clause agrees with both. With one
  tuple in each universal block and one model nothing is lost for any number of clauses (`FirstWeakenings.FirstComplete`).
* A transition formula may set a bit with `p' = f`, but `f = p'` is rejected, because only the left side of an equation is tried
  as the bit that is set (bounded/src/set.rs:638-648): `CompiledShapes.CompilesExactly` says exactly what compiles.
* Comparing prefixes, `QuantifierPrefix::subsumes` asks whether the other prefix has no blocks at all instead
  of whether the current block is empty (inference/src/quant.rs:331). The comparison is still sound.

## Model

| member | source | states |
|---|---|---|
| `SetChecker.Check` | bounded/src/set.rs:18-51 | The explicit-state checker end to end. A counterexample is an execution of the system, of least length, to an unsafe state and within the depth. Without one, the answer is `Unknown` exactly when the depth is given and is 0 or some state is first reached, up to isomorphism, after exactly that many steps; then no execution within the depth is unsafe. Otherwise it is `Convergence`, and no execution of any length is unsafe. The checker answers if and only if there is no reason against it, stated on the shape of the ground formulas: a non-boolean relation, a formula that cannot be enumerated, a prime in a formula over one state, several transition formulas, a disjunct that does not compile, or an expansion that is not sane or not decided by the axioms; an error is one of the reasons. No symmetry, closure or meaning preservation is taken as a precondition |
| `SetChecker.FirstReachedCoincides` | bounded/src/set.rs:827-868 | A state of the program is first reached up to isomorphism after a number of steps exactly when a state of the system is |
| `BddChecker.Check` | bounded/src/bdd.rs:38-180 | The symbolic checker end to end, in either direction. About the built system: a found run is a violation that no other undercuts, and exhaustion and convergence exclude violations within the depth and at all. Without a violation the answer is exhaustion exactly when the depth is given and in the direction of the search some state is first met after each number of steps up to it. About the system itself: exhaustion and convergence exclude its violations likewise, no violation is shorter than a found run, and that run is a violation of the system when there is a transition formula and no execution of its length can leave the mutable axioms for an unsafe state. The checker answers if and only if all relations are boolean and the formulas can be enumerated; no lookup of an index fails |
| `BddChecker.FirstFound` | bounded/src/bdd.rs:157-168 | A state is first met after k steps in the graph that is searched exactly when it ends a sequence of built steps, from the initial or the unsafe states, that no shorter one reaches |
| `SatChecker.Check` | bounded/src/sat.rs:15-105 | Whatever model the solver returns, a counterexample decodes to a violation of the built system after exactly `depth` steps, and "unknown" means there is none. About the system itself: "unknown" excludes its violations of that depth, and a counterexample is one of them when there is a transition formula and no execution of that length can leave the mutable axioms for an unsafe state. The checker answers if and only if all relations are boolean and the formulas can be enumerated: no lookup of an index fails |
| `SatChecker.ProgramIndexed` | bounded/src/sat.rs:60-64 | Every application of the unrolled formula has an index, since formulas over one state have no primes and steps at most one |
| `SatChecker.BuiltViolationIsReal` | bounded/src/sat.rs:37-43 | The step formula built for SAT and BDD constrains axioms over mutable symbols before the step only. A run is a violation of the system if and only if it is one of the built system and its last state has those axioms, for every number of transition formulas but none |
| `SatChecker.BuiltViolationsReal` | bounded/src/sat.rs:37-43 | All built violations of a depth are violations of the system if and only if no execution with that many states has a built step to an unsafe state without the mutable axioms |
| `SatChecker.NoMutableAxioms` | bounded/src/sat.rs:37-43 | When no axiom speaks about a mutable symbol that condition holds, and the violations of the built system and of the system are the same runs |
| `SatChecker.SpuriousViolation` | bounded/src/sat.rs:37-43 | A concrete system whose built form has a violation and which itself has none, so the condition above is needed |
| `SatChecker.IdleViolations` | bounded/src/sat.rs:37-43 | Without a transition formula the system does not step (bounded/src/set.rs:267), while the built system has a violation of every positive depth if and only if the mutable symbols can change from an initial to an unsafe state |
| `SatChecker.IdleSpuriousViolation` | bounded/src/sat.rs:37-43 | A concrete system without a transition formula and without axioms: the built form has a violation of depth 1, the system has none |
| `CheckerAgreement.CheckersAgree` | bounded/src/set.rs:18-51 | The guard under which the three checkers agree: with a transition formula, and no execution that can leave the mutable axioms for an unsafe state, any answers of the explicit-state and the symbolic checker for a depth agree on whether there is a counterexample and on its least length, and the fixed-depth checker finds one at that depth and none below |
| `CheckerAgreement.VerdictsAgree` | bounded/src/set.rs:827-869 | When there is a transition formula and no axiom speaks about a mutable symbol, the explicit-state and the forward symbolic checker also stop for the same reason: both find a violation, both run out of depth, or both converge |
| `CheckerAgreement.ComparableWithoutMutableAxioms` | bounded/src/set.rs:265-275 | The guard holds whenever there is a transition formula and no axiom speaks about a mutable symbol |
| `QuantEnumSound.EnumerationSound` | bounded/src/quant_enum.rs:58-66 | When enumeration succeeds, the ground formula holds at a time of a trace exactly when the original formula evaluates to true there; past operators may occur, but not below a prime |
| `QuantEnumErrors.EnumerationFails` | bounded/src/quant_enum.rs:39-66 | When enumeration fails, the error names a subterm of the normalised formula that is what the error says: a temporal operator, an application with several primes, or a compound argument; identifiers are never unknown. Formulas without these succeed, and a temporal operator or second prime that is not in the conclusion of an implication always fails |
| `QuantEnumSound.TermSound` | bounded/src/quant_enum.rs:191-278 | The translation of every formula under an assignment has the truth value of the formula: operators, quantifiers over all tuples, statically evaluated equalities and implications, conditionals |
| `QuantEnumSound.NullarySound` | bounded/src/quant_enum.rs:68-96 | Replacing identifiers of nullary relations by applications keeps the value of a term whose binders do not reuse relation names |
| `QuantEnum.MkAndHolds` | bounded/src/quant_enum.rs:110-126 | The simplifying conjunction (flattening, sorting, removing duplicates, constants) is true exactly when all its parts are |
| `QuantEnum.MkOrHolds` | bounded/src/quant_enum.rs:128-144 | The simplifying disjunction is false exactly when none of its parts is true |
| `QuantEnum.MkNotHolds` | bounded/src/quant_enum.rs:146-154 | Negation pushed through conjunctions and disjunctions is negation |
| `QuantEnum.PrimeByHolds` | bounded/src/quant_enum.rs:172-188 | Priming a ground formula shifts it in time |
| `EnumeratedShapes.EnumerationShape` | bounded/src/quant_enum.rs:99-188 | What enumeration returns negates applications and equations only, and applies declared relations to tuples in range with at most one prime |
| `EnumeratedShapes.UnprimedShape` | bounded/src/quant_enum.rs:191-278 | A term without primes has a ground formula without primes |
| `Indexing.IndicesDistinct` | bounded/src/indices.rs:44-109 | Different (relation, primes, elements) have different indices, except copies of immutable symbols, and all are below the variable count |
| `Indexing.IndicesOnto` | bounded/src/indices.rs:44-94 | Every number below the number of variables of the numbering is the index of some application |
| `Indexing.IndexedKeys` | bounded/src/indices.rs:44-109 | A lookup succeeds exactly for declared relations on tuples in range |
| `Indexing.Indices.constructor` | bounded/src/indices.rs:44-94 | The constructed tables are exactly the intended numbering: mutable applications copy by copy, then the immutable ones |
| `Indexing.Indices.Var` | bounded/src/indices.rs:107-110 | A new variable is the old count, the count grows by one, and no application has the new variable as its index, also after earlier calls |
| `Diagrams.AcceptsSound` | bounded/src/indices.rs:136-145 | A diagram built from a ground formula accepts the valuation read off a trace exactly when the formula holds in the trace |
| `Guarded.FormulaSound` | bounded/src/set.rs:685-700 | The propositional formula of a one-state ground formula has its truth value in every state |
| `Guarded.TransitionSound` | bounded/src/set.rs:607-683 | A compiled transition allows exactly the pairs of states that satisfy the two-state formula |
| `Guarded.FromConjunctionSound` | bounded/src/set.rs:164-198 | The conjunction of transitions allows exactly the pairs that all of them allow |
| `Guarded.NegateSound` | bounded/src/set.rs:618-637 | The negation of a compiled guard or update allows exactly the pairs the original does not |
| `CompiledShapes.CompilesExactly` | bounded/src/set.rs:607-683 | On the shape of the formula, without naming the compiler: it compiles if and only if each of its conjuncts is an update (a primed application or its negation, or an equation of one with a formula over one state, negated or not) or a formula over one state, and no two of the guards or updates clash. The result then has exactly the guards and updates the conjuncts ask for, and an error blames a conjunct of the kind it names |
| `CompiledShapes.FormulaCompiles` | bounded/src/set.rs:685-700 | A formula compiles to a guard if and only if all its applications have an index and no prime; an error names one that has not |
| `CompiledShapes.DisjunctsCompile` | bounded/src/set.rs:265-275 | A transition formula compiles if and only if every disjunct does; the error says which of the two causes a disjunct has |
| `Translation.ExpandAllows` | bounded/src/set.rs:302-321 | Splitting on bits a transition leaves open does not change which pairs of states are allowed |
| `Translation.SameExpansion` | bounded/src/set.rs:302-321 | Whatever the order of the split bits, the expanded transitions have the same guards and updates after no-ops are dropped |
| `Translation.SplitOn` | bounded/src/set.rs:307-320 | One round of the expansion loop: every transition once with the bit cleared and once with it set |
| `Translation.StepIffAllows` | bounded/src/set.rs:322-342 | When every mutable bit is mentioned, "allowed" (unmentioned means any) and "enabled and mapped to" (unmentioned means unchanged) coincide |
| `Translation.NoOpKeeps` | bounded/src/set.rs:323-341 | A removed no-op update changes no bit in a state where the guards hold |
| `Translation.PartialSound` | bounded/src/set.rs:565-591 | A partial evaluation returns a value only if every state with the known bits has it |
| `Translation.PartialAndExact` | bounded/src/set.rs:565-591 | A partial conjunction is true exactly when all its parts are, and false exactly when a part is false and all before it are decided true |
| `Translation.PartialOrExact` | bounded/src/set.rs:565-591 | A partial disjunction is false exactly when all its parts are, and true exactly when a part is true and all before it are decided false |
| `Translation.PartialTotal` | bounded/src/set.rs:565-591 | With all its bits known a formula has a value |
| `Translation.SameBits` | bounded/src/set.rs:593-602 | A formula looks only at the bits listed as its guard indices |
| `Translation.ShouldKeepSound` | bounded/src/set.rs:350-393 | A kept transition leads from states with the axioms to states with the axioms, a dropped one leads to a state without them |
| `Translation.ShouldKeepDecides` | bounded/src/set.rs:350-393 | When the transition touches no bit of the axioms, or leaves each of their bits certain, the decision is made |
| `TransitionTranslation.FilterByAxioms` | bounded/src/set.rs:347-399 | The loop keeps exactly the transitions that are decided to preserve the axioms, and fails if one is undecided |
| `TransitionTranslation.ExpandTransition` | bounded/src/set.rs:302-345 | The expanded transitions step exactly between the pairs that the compiled one allows |
| `TransitionTranslation.TranslateTransitions` | bounded/src/set.rs:265-399 | On states with the axioms, the steps of the resulting transitions are exactly the pairs that satisfy the transition formula and keep the axioms. It succeeds if and only if every disjunct compiles, stated on its shape, and every expanded transition, in whatever order bits are split, passes the sanity checks and is decided by the axioms; an error is one of these causes |
| `SetChecker.Translate` | bounded/src/set.rs:208-471 | On success the program has exactly the initial states, the steps between states with the axioms, and the safe states of the system, and no cause of rejection holds; an error is one of the causes |
| `SetChecker.InitStatesExact` | bounded/src/set.rs:243-263 | The enumerated initial states are exactly those with the initial formulas and the axioms |
| `SetChecker.StepsCoincide` | bounded/src/set.rs:265-399 | From a state with the axioms, steps of the program are steps of the system |
| `SetChecker.BugsCoincide` | bounded/src/set.rs:208-471 | Unsafe runs of the program are exactly the violating executions of the system |
| `GuardTries.Transitions.GetSubsets` | bounded/src/set.rs:915-930 | The trie lookup returns exactly the inserted transitions that are enabled in the state |
| `GuardTries.Transitions.Insert` | bounded/src/set.rs:892-912 | Inserting adds the transition and keeps the others |
| `GuardTries.StoredIsFound` | bounded/src/set.rs:923-930 | What is stored under guards that hold is reached when only children with true guards are visited |
| `Search.Interpret` | bounded/src/set.rs:796-869 | Breadth-first search with orbits, for a program whose steps and safety are invariant: a counterexample has least depth; without an unsafe run within the bound the answer is `Unknown` exactly when the bound is 0 or some run of exactly that many steps ends in a state whose orbit no shorter run reaches, and otherwise `Convergence`, which means that no run of any length is unsafe. The unbounded search terminates |
| `Search.IsoStateSet.Insert` | bounded/src/set.rs:986-999 | Inserting a new state adds its whole orbit, a seen one changes nothing, and the answer says which |
| `Search.ExpandState` | bounded/src/set.rs:847-861 | Expanding a state keeps the invariant that orbits are seen at the depth of their first state and that successors of expanded orbits are seen |
| `Search.Start` | bounded/src/set.rs:803-813 | Queueing the initial states establishes that invariant |
| `Search.RunSeen` | bounded/src/set.rs:827-868 | Every state that a run reaches within the expanded depths has its orbit seen, no later than the run reaches it |
| `Search.NoShorterBug` | bounded/src/set.rs:827-845 | When a trace of some depth is taken off the queue, no shorter run is unsafe |
| `Search.AllStatesComplete` | bounded/src/set.rs:60-89 | There are finitely many states of a width, which bounds the unbounded search |
| `Permutations.FamiliesMembers` | bounded/src/set.rs:941-953 | The listed families are exactly the ways to permute the elements of every sort |
| `Orbits.ActPermutes` | bounded/src/set.rs:955-977 | The copy instructions of a permutation turn a state into the permuted state, and no lookup fails |
| `Orbits.OrbitMember` | bounded/src/set.rs:986-999 | The orbit inserted for a state is exactly the set of isomorphic states |
| `Orbits.OrbitsPartition` | bounded/src/set.rs:934-999 | Orbits partition every set of states that is closed under isomorphism |
| `Orbits.PermutedTruth` | bounded/src/set.rs:934-999 | A closed two-state formula does not tell permuted pairs of states apart |
| `SetChecker.FaithfulSymmetric` | bounded/src/set.rs:796-1000 | Steps and safety of a translated program are invariant under the orderings: the precondition of the search, derived |
| `Isomorphism.ClosedTermInvariant` | fly/src/semantics.rs:139-251 | Isomorphic models agree on every closed formula, at every time of a trace |
| `Tseytin.TseytinExact` | bounded/src/sat.rs:124-175 | A valuation of the old variables extends to one that satisfies the clauses exactly when it satisfies the formula |
| `Tseytin.EncodeExact` | bounded/src/sat.rs:125-171 | The definition clauses hold exactly when every new variable has the value of its subformula, so the extension is unique |
| `Tseytin.Inner` | bounded/src/sat.rs:125-171 | The imperative translation pushes exactly the clauses of the encoding and returns the variable that stands for the formula |
| `Tseytin.TranslateToCnf` | bounded/src/sat.rs:124-175 | The produced clauses are those of the encoding with the root asserted |
| `SatChecker.UnrolledMeans` | bounded/src/sat.rs:60-64 | The unrolled formula holds along a sequence of states exactly when it is a violation of the built system of that depth |
| `SatChecker.AcceptedViolation` | bounded/src/sat.rs:60-105 | A satisfying valuation read copy by copy is such a violation |
| `SatChecker.ViolationAccepted` | bounded/src/sat.rs:60-105 | Every violation is read off some satisfying valuation |
| `Unrollings.EvalSuffix` | bounded/src/sat.rs:60-64 | A future-time term at a later time has the value it has at the start of the later part of the trace |
| `Unrollings.ValuationReads` | bounded/src/indices.rs:97-105 | Reading a valuation of several copies gives the trace of its states |
| `Symbolic.ImagePrimed` | bounded/src/bdd.rs:107-123 | Conjoining with the steps and quantifying the unprimed variables represents the image |
| `Symbolic.PreimageUnprimed` | bounded/src/bdd.rs:130-146 | Quantifying the primed variables instead represents the preimage |
| `Symbolic.ToUnprimed` | bounded/src/bdd.rs:115-122 | The renaming loop moves a set from the primed to the unprimed variables and never meets a forbidden renaming |
| `Symbolic.ToPrimed` | bounded/src/bdd.rs:131-139 | The same in the other direction |
| `SymbolicSearch.SearchLayers` | bounded/src/bdd.rs:94-180 | Forward or backward, a result is a path of least length to the target within the depth, or there is none within the depth, or none at all. Without a path it is exhaustion exactly when the depth is given and every layer up to it has a state that no earlier layer has, and a converged answer carries the reachable states |
| `SymbolicSearch.GrowthIsFirst` | bounded/src/bdd.rs:157-168 | Every layer up to a depth has something new exactly when some state is first met by a path of that many steps |
| `SymbolicSearch.WalkBack` | bounded/src/bdd.rs:200-226 | After a forward search the reconstruction finds a witness at every layer and yields a path from the start |
| `SymbolicSearch.WalkForward` | bounded/src/bdd.rs:227-273 | After a backward search likewise |
| `SymbolicSearch.Models` | bounded/src/bdd.rs:182-290 | In either direction the reconstructed states are a run from the start to the target, as long as the trace |
| `SymbolicSearch.SearchesAgree` | bounded/src/bdd.rs:17-36 | Any two sound answers for the same depth agree on whether there is a counterexample, and on its length |
| `SymbolicSearch.TurnedHit` | bounded/src/bdd.rs:125-147 | Turning the transition graph around turns its paths around |
| `SymbolicSearch.ClosedUnder` | bounded/src/bdd.rs:157-168 | When a layer adds nothing to the reached states, no later one does |
| `BddChecker.HitsAreViolations` | bounded/src/bdd.rs:61-82 | Paths of the symbolic graph to its target are the violations of the built system |
| `BddChecker.StepDiagram` | bounded/src/bdd.rs:63-82 | The diagram of the transition formulas relates exactly the states of each built step |
| `Primes.NormalizeSound` | fly/src/term/prime.rs:103-106 | Normalising a term without past operators below a prime keeps its value at every time of every trace with constant immutable symbols |
| `Primes.WithNextSound` | fly/src/term/prime.rs:18-62 | Pushing `next` primes to the symbols is a shift by `next` |
| `Primes.NormalizeUnsoundOnPast` | fly/src/term/prime.rs:18-62 | Over a declared mutable symbol: priming "previously p" and normalising makes a true term false at time 0 |
| `Primes.PreviousBelowPrimes` | fly/src/term/prime.rs:18-62 | With "previously" below n primes, pushing them inwards changes the value exactly at time 0, when the operand holds in the state just before the primes are over |
| `Primes.SinceBelowPrimes` | fly/src/term/prime.rs:18-62 | With "since" below n primes the value changes exactly where it is true and the second operand held only among the first n states |
| `Primes.PrimeTermSound` | fly/src/term/prime.rs:103-111 | Priming a term without past operators evaluates it one state later |
| `Primes.NormalizeIdempotent` | fly/src/term/prime.rs:101-111 | The normal form has primes on unbound mutable symbols only, and normalising it changes nothing |
| `Primes.UnrollingLocality` | fly/src/term/fo.rs:55-77 | The value of a first-order term at time k depends only on the states from k to k plus its unrolling |
| `Primes.UnrollingExact` | fly/src/term/fo.rs:55-77 | The unrolling is infinite exactly when a term has an unbounded temporal operator, and otherwise it is the farthest the term looks ahead |
| `Primes.MaxUnrollingBounds` | fly/src/term/fo.rs:55-58 | The fold over a list bounds the unrolling of every member |
| `FiniteModels.TabulateThenGet` | fly/src/semantics.rs:41-73 | Looking up what was tabulated gives the function back, for every shape and tuple |
| `FiniteModels.GetThenTabulate` | fly/src/semantics.rs:41-73 | Tabulating what a full table says gives the table back |
| `FiniteModels.Get` | fly/src/semantics.rs:41-50 | The index loop finds the value at the rank of the tuple among all tuples, and fails on a wrong arity or an element out of range |
| `FiniteModels.ProductAt` | fly/src/semantics.rs:54-73 | A tuple stands at its rank in the enumeration of all tuples |
| `FiniteModels.EvalAssignSound` | fly/src/semantics.rs:139-251 | What the evaluator computes is the value of the term in the model; short-circuiting included |
| `FiniteModels.EvalAssignTotal` | fly/src/semantics.rs:139-251 | On a well-sorted term without temporal operators or primes, in a model as the constructors build it, evaluation does not panic and yields an element of the sort |
| `TermEnumeration.TermsBySort` | fly/src/syntax.rs:611-697 | Exactly the well-sorted terms of nesting at most the depth, each once, with the variables first; with equalities, one for every two terms of a sort, each listed once. Without a depth: all terms, whenever the depth of the terms is bounded |
| `TermEnumeration.EndsWhenBounded` | fly/src/syntax.rs:641-645 | The loop without a depth ends in a round if and only if all terms are less deep than the round |
| `TermEnumeration.Round` | fly/src/syntax.rs:642-693 | A round makes exactly the terms with one more level, each once |
| `TermEnumeration.RoundExact` | fly/src/syntax.rs:647-687 | Applying symbols to old and new terms with at least one new one gives the terms of the next depth |
| `TermEnumeration.AddApplications` | fly/src/syntax.rs:653-685 | The patterns of old and new arguments produce every application once |
| `TermEnumeration.Subterm` | fly/src/syntax.rs:641-645 | A term has subterms of every smaller depth, so stopping at an empty round loses nothing |
| `CharacteristicSentences.ToTerm` | fly/src/semantics.rs:264-266 | A model of the signature satisfies the sentence if and only if the described model is isomorphic to it |
| `CharacteristicSentences.ToDiagram` | fly/src/semantics.rs:270-272 | A model of the signature satisfies the diagram if and only if the described model embeds in it |
| `CharacteristicSentences.ToTermInternal` | fly/src/semantics.rs:275-355 | Both of the above, from the loops that collect the conjuncts |
| `CharacteristicSentences.SentenceModelsAgree` | fly/src/semantics.rs:264-355 | A model of the sentence agrees with the described model on every closed formula |
| `CharacteristicSentences.DescribedExact` | fly/src/semantics.rs:301-345 | Under a mapping the flipped truths, inequalities and equalities say exactly that it is an embedding |
| `CharacteristicSentences.TermMapped` | fly/src/semantics.rs:301-345 | A mapping that respects the symbols respects the value of every listed term |
| `CharacteristicSentences.FlipToSat` | fly/src/semantics.rs:255-261 | Exactly the terms that are false are negated |
| `CharacteristicSentences.SizeTrue` | fly/src/semantics.rs:324-345 | The size constraint of a sort is true exactly when the mapping is onto |
| `CharacteristicSentences.VarNameInjective` | fly/src/semantics.rs:285-290 | The generated variable names of different elements differ |
| `SortInference.InternalContext.SortCheckTerm` | fly/src/sorts.rs:757-796 | Success returns the only completion of the missing annotations that passes the ordinary sort check, with its sort; an unsolved sort means that two different completions pass (given a declared sort); any other error means that none does |
| `SortInference.InternalContext.CollectTerm` | fly/src/sorts.rs:609-681 | The marked term under the solutions of the table is exactly the set of completions that pass; on an error no completion does |
| `SortInference.InternalContext.AnnotateSolved` | fly/src/sorts.rs:685-753 | The written annotations are those of every solution; an error means that nothing is known of some marked binder |
| `SortInference.InternalContext.AddBindersForInference` | fly/src/sorts.rs:545-567 | Binders get fresh variables for missing sorts, covering every completion of the binders |
| `SortInference.InternalContext.UnifyVarValue` | fly/src/sorts.rs:571-583 | The solutions left are those that give the sort; on an error there is none |
| `SortInference.InternalContext.UnifyVarVar` | fly/src/sorts.rs:585-603 | The solutions left are those that make both sorts equal; on an error there is none |
| `SortInference.UnificationTable.UnifyVarVar` | fly/src/sorts.rs:217-227 | Merging two classes keeps exactly the solutions that agree on them, unless their values clash |
| `Subsumption.CoversImpliesLeq` | inference/src/subsume.rs:169-237 | On canonical forms subsumption implies the order |
| `Subsumption.SubsumesExact` | inference/src/subsume.rs:208-220 | The scan with early exit computes subsumption as it is defined |
| `Subsumption.LeqTransitive` | inference/src/subsume.rs:169-206 | The order is transitive |
| `Subsumption.LeqTotal` | inference/src/subsume.rs:169-206 | The order is total on forms of the same kind |
| `Subsumption.LeqAntisymmetric` | inference/src/subsume.rs:169-206 | The order is antisymmetric |
| `Subsumption.CoversTransitive` | inference/src/subsume.rs:208-220 | Subsumption is transitive |
| `Subsumption.CoversImplies` | inference/src/subsume.rs:208-220 | What subsumes implies, under every valuation of the atoms |
| `Subsumption.FromBase` | inference/src/subsume.rs:226-236 | The canonical form is canonical and equivalent to the base, with no new atoms, and is the function the model of weakening uses |
| `Subsumption.PrunedExact` | inference/src/subsume.rs:226-236 | Pruning a sorted list of canonical forms keeps an irredundant sorted part of it that covers everything that was there |
| `SubsumptionTries.GetInsert` | inference/src/subsume.rs:261-276 | After an insertion a lookup finds the new value, and all others as before |
| `SubsumptionTries.GetMutate` | inference/src/subsume.rs:278-294 | After a mutation a lookup finds the changed value, and all others as before |
| `SubsumptionTries.GetRemove` | inference/src/subsume.rs:296-311 | After a removal the key is gone and all others are as before |
| `SubsumptionTries.RemoveAlive` | inference/src/subsume.rs:296-311 | A removal leaves no dead branches |
| `SubsumptionTries.SubsumingAndPaths` | inference/src/subsume.rs:327-345 | The conjunctive search finds exactly the stored paths it can take |
| `SubsumptionTries.CoveringPath` | inference/src/subsume.rs:327-345 | A list that covers the query has a subsequence the search takes: the prune loses nothing |
| `SubsumptionTries.OrPathExact` | inference/src/subsume.rs:348-365 | The disjunctive search takes a sorted path exactly when each of its elements subsumes one of the query |
| `SubsumptionMaps.AndSubsumptionMap.Insert` | inference/src/subsume.rs:402-422 | Inserting adds the key with its value and changes nothing else, and keeps both tries exact |
| `SubsumptionMaps.AndSubsumptionMap.Remove` | inference/src/subsume.rs:424-443 | Removing returns the value, drops the key only, and keeps both tries exact and without dead branches |
| `SubsumptionMaps.AndSubsumptionMap.Get` | inference/src/subsume.rs:445-452 | A lookup agrees with the contents |
| `SubsumptionMaps.AndSubsumptionMap.GetSubsuming` | inference/src/subsume.rs:463-469 | Exactly the stored keys that subsume the query, with their values |
| `SubsumptionMaps.AndSubsumptionMap.GetSubsumed` | inference/src/subsume.rs:471-485 | Exactly the stored keys that the query subsumes, with their values |
| `SubsumptionMaps.ReversedSearch` | inference/src/subsume.rs:147-162 | Searching reversed keys finds what the query subsumes |
| `SubsumptionPairs.PairSubsumptionMap.Find` | inference/src/subsume.rs:607-631 | The two-level map returns exactly the stored pairs related to the query |
| `SubsumptionPairs.PairSubsumptionMap.Insert` | inference/src/subsume.rs:571-579 | Inserting adds the pair with its value and changes nothing else |
| `SubsumptionPairs.PairSubsumptionMap.Remove` | inference/src/subsume.rs:581-589 | Removing drops the pair only, and an emptied inner map with it |
| `NestedIndexes.FindExact` | inference/src/subsume.rs:147-162 | The index structures as they are nested, tries of conjunctions whose edges are found with an index of the conjuncts, pairs of indexes, and reversed ones: by induction on the form a search in an index that holds a set of keys returns exactly the keys that subsume the query, or that it subsumes |
| `NestedIndexes.InsertHolds` | inference/src/subsume.rs:402-422 | Inserting through all levels (every subset of a conjunction into one trie, its reverse into the other, an inner index made where there is none) gives an index that holds one key more |
| `NestedIndexes.InsertedFound` | inference/src/subsume.rs:327-485 | After any insertions into an empty index of any form, a search answers what a scan of the inserted keys answers |
| `Quantifiers.PermutationsExact` | inference/src/quant.rs:142-177 | The listed substitutions are exactly the block-wise injections of the given variables |
| `Quantifiers.LinkedTruth` | inference/src/quant.rs:326-335 | Two quantified bodies linked block by block: truth of the first gives truth of the second |
| `Quantifiers.PrefixSubsumesExact` | inference/src/quant.rs:326-335 | A prefix subsumes exactly those that are gotten from it by dropping variables of its blocks and turning universal blocks into existential ones |
| `Quantifiers.RestrictTruth` | inference/src/quant.rs:103-115 | In nonempty sorts dropping the variables that a body does not depend on changes nothing |
| `LemmaSets.SubstituteTruth` | inference/src/lemma.rs:69-84 | A substituted body is true under an assignment exactly when the body is under the renamed one |
| `LemmaSets.SubsumptionSound` | inference/src/weaken.rs:706-724 | A stored lemma whose body subsumes a permutation of the query, with a prefix that subsumes the query's, implies the query in every model with nonempty sorts |
| `LemmaSets.SubsumedSound` | inference/src/weaken.rs:745-762 | A query one of whose permutations subsumes a stored body, with the prefixes related, implies the stored lemma |
| `AtomTerms.SubstituteEval` | fly/src/term/subst.rs:14-55 | Substituting variables in a quantifier-free term and evaluating it gives the value of the term under the renamed assignment, in every finite model |
| `AtomTerms.TermsModel` | inference/src/atoms.rs:105-137 | Atoms that are terms, evaluated in a finite model, depend on their variables only and respect substitution: they are a model of the lemma language |
| `AtomTerms.SettingSound` | inference/src/weaken.rs:191-263 | With atoms that are terms, permutations listed from the prefix and subsumption up to permutation as the test to ignore a body, everything the results about weakening ask for holds: permuted bodies stay in the lemma language, stored bodies are ignored, and implication in every model with nonempty sorts is a preorder in which a body is above what it subsumes |
| `LemmaSets.LemmaSet.Subsumes` | inference/src/weaken.rs:706-724 | True exactly when some stored lemma subsumes a permutation of the query with a subsuming prefix; then some stored lemma implies the query |
| `LemmaSets.LemmaSet.GetSubsumed` | inference/src/weaken.rs:745-762 | Exactly the stored lemmas subsumed up to a permutation; the query implies each of them |
| `LemmaSets.LemmaSet.InsertMinimized` | inference/src/weaken.rs:779-789 | No number is returned exactly when a stored lemma subsumes a permutation of the new one with a subsuming prefix, and then nothing changes; otherwise the tables are the old ones without exactly the lemmas that the new one subsumes, plus the new one under the next number. If no stored lemma subsumes another, that stays so. The set is equivalent, in every model with nonempty sorts, to the old set with the new lemma |
| `LemmaSets.LemmaSet.Insert` | inference/src/weaken.rs:764-777 | The lemma is stored under a new number and indexed by its body |
| `LemmaSets.LemmaSet.Remove` | inference/src/weaken.rs:791-799 | Exactly the numbered lemma goes, from the table and the index |
| `LemmaBodies.WeakenCnfSound` | inference/src/lemma.rs:129-179 | Every weakening of a conjunctive body agrees with the cube, follows from the old body and uses its literals and the cube's |
| `LemmaBodies.WeakenCnfExact` | inference/src/lemma.rs:129-179 | The weakenings are exactly these: of the empty clause, the lists of as many unit clauses as allowed, at most all, over literals of the cube in order; of another body, the bodies that are not ignored whose clauses each have a literal of the cube, or get one, if there is room, that does not make them trivial and is no inequality |
| `LemmaBodies.WeakenCnfLoses` | inference/src/lemma.rs:134-143 | With two clauses allowed a body can be lost: after two cubes nothing is left, though one unit clause agrees with both |
| `FirstWeakenings.AssertionsHold` | inference/src/lemma.rs:133-147 | A stored conjunctive body that is false in a model has a clause, and no empty one unless it is the only one, so the two assertions of the weakening hold |
| `LemmaBodies.WeakenCnfLeast` | inference/src/lemma.rs:146-179 | From the empty clause any body with few enough clauses that agree with the cube, and from another body any body whose clauses can be reached from those of the old one in their place, is refined by a result or, in the second case, by an ignored body |
| `LemmaBodies.WeakenCnfWithin` | inference/src/lemma.rs:129-179 | Weakening a conjunctive body stays within the limits on clauses and clause size |
| `LemmaBodies.WeakenPDnf` | inference/src/lemma.rs:655-734 | The weakenings of a disjunctive body are exactly these, less the ignored ones: with room, one more unit that is no inequality, with the larger cubes absorbed; a larger cube reduced to what it shares with the given one; with room, one more cube as stated for new cubes. Each agrees with the cube and follows from the old body |
| `LemmaBodies.NewCubesExact` | inference/src/lemma.rs:708-733 | With room for another larger cube, the new cubes are exactly the lists, in order and of at least two literals, of as many literals as allowed, at most all, out of those of the cube that mention a variable that is not universal and whose negation is no unit |
| `LemmaBodies.WeakeningWithin` | inference/src/lemma.rs:655-734 | Weakening a disjunctive body stays within the limits, and its cubes keep more than one literal |
| `LemmaBodies.AddUnit` | inference/src/lemma.rs:240-275 | Unit propagation to the end gives a body equivalent to the old one or the literal, with no more large cubes, and fewer if the literal was in one. It gives up only when a negative equality follows from the body and the literal, the two together are trivially true, or too many cubes are left; the result is the propagated body otherwise |
| `LemmaBodies.AddCombinations` | inference/src/lemma.rs:277-317 | The results are exactly these: the body itself when it shares a unit with the cube; else, with one free literal, the body with it propagated; else the body with each combination of free literals as a new cube, while there is room. Each agrees with the cube, follows from the old body and keeps its limits |
| `LemmaBodies.IntersectCubes` | inference/src/lemma.rs:319-357 | The results are exactly the body itself when it shares a unit with the cube, else the body with one larger cube shrunk to two or more literals of the given cube. Each agrees with the cube and follows from the old body |
| `LemmaBodies.WeakenNaive` | inference/src/lemma.rs:447-493 | The weakenings of a plain list of cubes are exactly the combinations while there is room for a large cube, else the screened units, the screened reductions of the large cubes and the screened intersections. Each agrees with the cube, follows from the old body, and stays within the limits on cubes, large cubes and cube size |
| `LemmaBodies.NaiveScreened` | inference/src/lemma.rs:447-493 | Without large cubes (`non_unit` 0) no weakening is an ignored body |
| `BodyForms.ToElemTrue` | inference/src/lemma.rs:96-104 | The nested form of a base has its meaning |
| `BodyForms.NegCubeExact` | inference/src/weaken.rs:266-276 | A body is false under a valuation exactly when it subsumes the body made of the false literals |
| `Weakening.Unsat` | inference/src/weaken.rs:265-312 | Exactly the stored lemmas that are false in the model from the given block on |
| `Weakening.PrefixLemmaSet.Init` | inference/src/weaken.rs:150-155 | The strongest body, false in every model, is stored alone; for CNF it is the body with the empty clause |
| `Weakening.WeakenLeaf` | inference/src/weaken.rs:329-367 | Under a full assignment the bodies to weaken are replaced by what follows from them and is true, and nothing else is lost; the result is one of the possible outcomes, and there is one for screened kinds of bodies (CNF, pDNF, naive without large cubes) when the two stores fit |
| `Weakening.WeakenBody` | inference/src/weaken.rs:336-347 | Every weakening is within the language, follows from the body and is true under the valuation |
| `Weakening.Minimized` | inference/src/weaken.rs:349-352 | The kept bodies are among the new ones, and below each new one stands a kept one, in every preorder that contains subsumption up to permutations of the blocks from the given one on |
| `Weakening.Merge` | inference/src/weaken.rs:354-367 | The store afterwards has what survives the replacement and the new bodies, and an insertion trips the assertion exactly when a new body is already there; with replacement it does not where bodies are screened |
| `Weakening.WeakenAdd` | inference/src/weaken.rs:315-443 | Every stored body afterwards was stored before, or is true from the block on and follows from a body to weaken; every stored body is still there or below a stored one. The result, a tripped assertion included, is one of the outcomes of the relation that says which bodies each block weakens, minimises and merges; and for screened kinds of bodies there is always a store when the two stores fit |
| `Weakening.WeakenForall` | inference/src/weaken.rs:388-429 | The same for a universal block: after all tuples the bodies are true under each of them |
| `Weakening.PrefixLemmaSet.Weaken` | inference/src/weaken.rs:445-460 | The answer says whether a lemma was violated. Afterwards none is, each new one follows from a violated one, and everything that held is still there or below something stored. The new set, or a tripped assertion, is one of the outcomes of weakening block by block. No assertion is tripped when the false lemma is stored alone if at all and bodies are screened (CNF, pDNF, naive with `non_unit` 0), and that stays so |
| `Weakening.PrefixLemmaSet.WeakenCti` | inference/src/weaken.rs:462-489 | The same for lemmas true before a step and false after it |
| `NaiveWeakenings.NaiveTrips` | inference/src/lemma.rs:459-461 | The guard on `non_unit` is needed: for every value of at least 1 there are a prefix, a model and a set of two lemmas whose weakening always trips the assertion, whatever the order |
| `Weakening.ImplicationCovers` | inference/src/weaken.rs:191-263 | Implication in every model with nonempty sorts is a preorder in which a body is above what it subsumes up to a permutation |
| `Weakening.NothingLost` | inference/src/weaken.rs:445-460 | With implication of quantified lemmas as the relation: in every model with nonempty sorts where the lemmas after weakening hold, so do all earlier ones that the model satisfied |
| `FirstWeakenings.FirstComplete` | inference/src/weaken.rs:445-460 | From the initial CNF set, after one model whose universal blocks have one tuple: the set is not empty, and every conjunctive body of the language within the number of clauses that the model satisfies follows from a stored one |
| `SingleClauses.NothingMissed` | inference/src/weaken.rs:315-489 | With one clause allowed, after any weakenings for models and steps from the initial set: every clause that weakening can make (within the size, not trivial, without inequalities), that the models satisfy and the steps preserve, follows from a stored one. Blocks, tuples, permutations, minimising and ignoring are all taken into account |
| `SingleClauses.OutcomeReaches` | inference/src/weaken.rs:315-443 | Block by block: when a body to weaken covers a true permuted clause, the resulting set covers a permuted clause too, or one of the sets passed on the way does |
| `AtomOrbits.ClausesNotMissed` | inference/src/weaken.rs:315-489 | The same with nothing left abstract but the models: over atoms that are terms, closed under permutations of the blocks, such a clause is implied by a stored one in every model with nonempty sorts |
| `AtomOrbits.SourceSymmetric` | inference/src/quant.rs:142-177 | Over a closed set of atoms permutations act as a group on bodies: what a permuted body covers the body covers up to a permutation, and permuting twice is permuting once |
| `AtomOrbits.SourceFair` | inference/src/quant.rs:142-177 | In every model of the language permuting the variables of later blocks keeps the truth of a body from there on |
| `BlockPermutations.Extend` | inference/src/quant.rs:142-177 | An injection of some variables within their blocks extends to a permutation of all variables within the blocks |
| `Marco.MarcoIterator.Next` | inference/src/marco.rs:56-72 | A genuine MSS or MUS that was not returned before, or nothing when every one has been |
| `Marco.Collect` | inference/src/marco.rs:18-25 | Run to the end, the iterator terminates with every MSS and every MUS, each once, and nothing else |
| `Marco.Grow` | inference/src/marco.rs:98-108 | One pass over the inputs gives a maximal satisfiable superset of the seed |
| `Marco.Shrink` | inference/src/marco.rs:109-119 | One pass gives a minimal unsatisfiable subset of the seed |
| `Marco.BlockDownMeans` | inference/src/marco.rs:121-126 | The clause excludes exactly the subsets |
| `Marco.BlockUpMeans` | inference/src/marco.rs:127-132 | The clause excludes exactly the supersets |
| `Cores.Core.AddCounterModel` | inference/src/basics.rs:89-128 | The two maps stay converses of "formula i is false in model j", every model is blocked, in minimal mode each participant alone blocks some model; the answer is false exactly when nothing blocks the model |
| `Cores.Core.Reduce` | inference/src/basics.rs:134-156 | A participant is dropped only if every model stays blocked; without one to drop the core is locally minimal |
| `Cores.FindCex` | inference/src/basics.rs:353-383 | A counterexample satisfies all hypotheses, a core rules every counterexample out, and the loop ends within 2^n rounds |
| `Cores.ModelBound` | inference/src/basics.rs:89-128 | Distinct nonempty sets of falsified formulas: fewer than 2^n counter-models |
| `Cores.DisjTransExact` | inference/src/basics.rs:203-217 | Some choice of disjuncts is satisfied exactly when all transition formulas are |
| `Cores.TransCex` | inference/src/basics.rs:228-351 | The verdict over all choices of disjuncts is the verdict for the unsplit transitions |
| `HoudiniInference.Infer` | inference/src/houdini.rs:167-199 | If no query stays unknown, the survivors are the largest inductive subset of the candidates, whatever models the solver returns, and inference succeeds exactly when that subset contains the assertion |
| `HoudiniInference.Houdini.InductiveIteration` | inference/src/houdini.rs:99-160 | Whatever the interleaving of the parallel checks, no inductive subset loses a member, and the answer says whether all candidates are preserved |
| `HoudiniInference.Houdini.InitiationFilter` | inference/src/houdini.rs:62-97 | Exactly candidates that hold initially remain, and no inductive subset loses a member |
| `HoudiniInference.GreatestUnique` | inference/src/houdini.rs:167-199 | There is only one largest inductive subset |
| `HoudiniInference.ThreadStep` | inference/src/houdini.rs:101-141 | Whichever thread goes next, the invariant is kept and less work is left |

## Left out

Weaker than they could be:

- SingleClauses.NothingMissed: for one clause, and not for clauses with inequalities, which the source deliberately does not make (inference/src/lemma.rs:161-162); for more clauses it is false. For the disjunctive kinds completeness is not stated; which bodies are made is what the relation on outcomes says.
- QuantEnumErrors.EnumerationFails: between the formulas that always succeed and those that always fail, compound arguments and conclusions of implications are decided by whether subformulas simplify to constants, which is not characterised further.
- SetChecker.Check: does not model the assertion on the 128-bit width of a state; a bit outside the state reads as false.
- LemmaBodies.WeakenNaive: does not model the assertion that `non_unit` is at most 1 (inference/src/lemma.rs:453); what is proved holds for every value.
- NestedIndexes.InsertHolds: insertion only; removal is proved of each structure in its own module.

Modelled otherwise than written:

- Tries, stores of one prefix and terms are values that the operations return, so aliasing and update in place inside them are not modelled; the annotated term of sort inference is returned rather than written in place.
- The two index structures inside the lemma sets are used through what they answer, a linear scan, which is proved of them in their own modules.
- A nested index holds keys without values, and a trie of it whether a list ends there.
- The order of hash maps and sets is arbitrary; the numbers of lemmas are not observable beyond equality.
- The unification table keeps a representative for each variable, without ranks or path compression.
- `extract` is a predicate on its result: which formulas are axioms, initial conditions, steps and safety.
- The errors for an unknown sort and for a failed SAT solver do not occur in the model.

Not modelled:

- Solver processes, timeouts, cancellation and the translation to SMT-LIB (solver/, smtlib/).
- Model minimisation by the solver (solver/src/imp.rs:290-295), where the new indicator is not part of the query.
- The parser, the printer and s-expressions.
- CNF clauses of terms (fly/src/term/cnf.rs), inlining of definitions and function-to-relation rewriting.
- UPDR and the frames of invariant inference, with their logging (inference/src/updr.rs, inference/src/lemma.rs:800-1250).
- `vars`, `distribute`, `quantify` and the order of prefixes in quant.rs, and the terms that lemma bodies print as.
- The construction of scopes and the checking of modules in sorts.rs; inference is modelled for one term in a scope.
- Timing, the command line, benchmarks and examples.
