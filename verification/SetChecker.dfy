/** The explicit-state checker from end to end: translate a transition system to guarded
    updates, search them up to symmetry, and what the answer says about the system. */
module SetChecker {
  import opened Collections
  import opened Syntax
  import opened Semantics
  import opened SortCheck
  import opened QuantEnum
  import opened QuantEnumSound
  import opened Diagrams
  import opened EnumeratedShapes
  import opened CompiledShapes
  import opened Indexing
  import opened Guarded
  import opened Translation
  import opened TransitionTranslation
  import opened Permutations
  import opened Orbits
  import opened Search
  import opened Systems

  // What a translated program has to do with the system.

  ghost predicate InitsExact(b: Bounds, sys: System, inits: seq<State>) {
    forall s :: s in inits <==> |s| == Width(b) && AllTrueAt(b, sys.inits, s) && AllTrueAt(b, sys.axioms, s)
  }

  ghost predicate FormulaExact(b: Bounds, ts: seq<Term>, f: Formula) {
    forall s | |s| == Width(b) :: Evaluate(f, s) <==> AllTrueAt(b, ts, s)
  }

  ghost predicate StepsExact(b: Bounds, sys: System, axioms: Formula, trs: seq<Transition>) {
    && |sys.transitions| <= 1
    && forall s, s' | |s| == Width(b) && Evaluate(axioms, s) ::
      SomeSteps(trs, s, s')
      <==> |sys.transitions| == 1 && Agreeing(b.ix.numMutables, s, s') && TrueStep(b, sys.transitions[0], s, s')
           && Evaluate(axioms, s')
  }

  /** The program has exactly the initial states, steps and safe states of the system. */
  ghost predicate Faithful(b: Bounds, sys: System, axioms: Formula, p: Program) {
    && InitsExact(b, sys, p.inits)
    && FormulaExact(b, MutableAxioms(sys.axioms, b.sig.relations), axioms)
    && StepsExact(b, sys, axioms, p.trs)
    && FormulaExact(b, sys.safeties, p.safe)
  }

  lemma StateReads(b: Bounds, s: State)
    requires b.ix.copies == 1
    ensures Reads(b.ix, s, PairTrace(b.ix, b.universe, s, s))
  {
    var tr := PairTrace(b.ix, b.universe, s, s);
    forall name, p: nat, es | b.ix.Get(name, p, es).Some?
      ensures tr.at(p)(name, es) == ToElement(Bit(s, b.ix.Get(name, p, es).value))
    {
      assert p == 0 && tr.at(p) == InterpOf(b.ix, s);
    }
  }

  /** A ground formula has the truth value of the terms it was enumerated from. */
  lemma EnumeratedTruth(b: Bounds, ts: seq<Term>, e: Enumerated, s: State)
    requires Proper(b) && |s| == Width(b)
    requires forall t | t in ts :: Enumerable(t, b.sig)
    requires EnumerateQuantifiers(TermAnd(ts), b.sig, b.universe) == Ok(e)
    ensures EnumHolds(e, PairTrace(b.ix, b.universe, s, s), 0) <==> AllTrueAt(b, ts, s)
  {
    hide EnumHolds, EnumerateQuantifiers, Exact, Eval, Enumerable, TermAnd, InterpOf, WellFormedTrace;
    TermAndEnumerable(ts, b.sig);
    PairTraceWellFormed(b, s, s);
    var tr := PairTrace(b.ix, b.universe, s, s);
    EnumerationSound(TermAnd(ts), b.sig, tr, 0, e);
    TermAndTrue(ts, tr, 0);
  }

  /** Initial states as satisfying valuations. */
  function InitStates(e: Enumerated, ix: IndexMap, n: nat): (r: seq<State>)
    ensures forall s :: s in r <==> |s| == n && Accepts(e, ix, s)
  {
    Filter((s: State) => Accepts(e, ix, s), Valuations(n))
  }

  lemma InitStatesExact(b: Bounds, sys: System, e: Enumerated)
    requires Proper(b) && Lookups(e, b.ix)
    requires forall t | t in sys.inits + sys.axioms :: Enumerable(t, b.sig)
    requires EnumerateQuantifiers(TermAnd(sys.inits + sys.axioms), b.sig, b.universe) == Ok(e)
    ensures InitsExact(b, sys, InitStates(e, b.ix, Width(b)))
  {
    hide EnumHolds, EnumerateQuantifiers, Exact, Enumerable, TermAnd, PairTrace, Accepts, Lookups, TrueAt, Reads;
    forall s: State | |s| == Width(b)
      ensures Accepts(e, b.ix, s) <==> AllTrueAt(b, sys.inits, s) && AllTrueAt(b, sys.axioms, s)
    {
      EnumeratedTruth(b, sys.inits + sys.axioms, e, s);
      StateReads(b, s);
      AcceptsSound(e, b.ix, s, PairTrace(b.ix, b.universe, s, s));
      SplitTruth(b, sys.inits, sys.axioms, s);
    }
  }

  lemma SplitTruth(b: Bounds, xs: seq<Term>, ys: seq<Term>, s: State)
    ensures AllTrueAt(b, xs + ys, s) <==> AllTrueAt(b, xs, s) && AllTrueAt(b, ys, s)
  {
    hide TrueAt;
    assert forall x | x in xs :: x in xs + ys;
    assert forall y | y in ys :: y in xs + ys;
  }

  /** Compile terms to a formula over one state. */
  function CompileFormula(ts: seq<Term>, b: Bounds): Outcome<Formula> {
    match EnumerateQuantifiers(TermAnd(ts), b.sig, b.universe)
    case Err(e) => Failure(Enumeration(e))
    case Ok(e) => EnumeratedToFormula(e, b.ix)
  }

  lemma CompileFormulaExact(b: Bounds, ts: seq<Term>, f: Formula)
    requires Proper(b) && CompileFormula(ts, b) == Success(f)
    requires forall t | t in ts :: Enumerable(t, b.sig)
    ensures FormulaExact(b, ts, f)
  {
    hide EnumHolds, EnumerateQuantifiers, Exact, Enumerable, TermAnd, Evaluate, TrueAt, EnumeratedToFormula;
    var e := EnumerateQuantifiers(TermAnd(ts), b.sig, b.universe).value;
    forall s: State | |s| == Width(b) ensures Evaluate(f, s) <==> AllTrueAt(b, ts, s) {
      EnumeratedTruth(b, ts, e, s);
      FormulaSound(e, b.ix, f, s, PairTrace(b.ix, b.universe, s, s));
    }
  }

  /** Checked transitions only write mutable bits. */
  lemma SaneAgrees(trs: seq<Transition>, numMutables: nat, s: State, s': State)
    requires forall t | t in trs :: Sane(t, numMutables)
    requires SomeSteps(trs, s, s')
    ensures Agreeing(numMutables, s, s')
  {
    hide Evaluate;
    var t :| t in trs && Steps(t, s, s');
    forall i | numMutables <= i < |s| ensures s[i] == s'[i] { ApplyBit(t.updates, s, s, i); }
  }

  lemma TransitionStepsExact(b: Bounds, sys: System, axioms: Formula, e: Enumerated, trs: seq<Transition>)
    requires Proper(b) && |sys.transitions| == 1 && Enumerable(sys.transitions[0], b.sig)
    requires EnumerateQuantifiers(sys.transitions[0], b.sig, b.universe) == Ok(e)
    requires TranslationExact(trs, e, axioms, b.ix, b.universe, Width(b))
    requires forall t | t in trs :: Sane(t, b.ix.numMutables)
    ensures StepsExact(b, sys, axioms, trs)
  {
    hide EnumHolds, EnumerateQuantifiers, Proper, Width, Enumerable, Evaluate, Eval, SomeSteps, Sane, InterpOf, WellFormedTrace;
    forall s, s' | |s| == Width(b) && Evaluate(axioms, s)
      ensures SomeSteps(trs, s, s')
        <==> Agreeing(b.ix.numMutables, s, s') && TrueStep(b, sys.transitions[0], s, s') && Evaluate(axioms, s')
    {
      if SomeSteps(trs, s, s') { SaneAgrees(trs, b.ix.numMutables, s, s'); }
      if Agreeing(b.ix.numMutables, s, s') {
        PairTraceWellFormed(b, s, s');
        EnumerationSound(sys.transitions[0], b.sig, PairTrace(b.ix, b.universe, s, s'), 0, e);
      }
    }
  }

  lemma NoStepsExact(b: Bounds, sys: System, axioms: Formula)
    requires sys.transitions == []
    ensures StepsExact(b, sys, axioms, [])
  {
  }

  // Faithful programs are symmetric and have the executions of the system.

  function SpaceOf(n: nat, axioms: Formula): Space {
    Space(n, (s: State) => Evaluate(axioms, s))
  }

  lemma FaithfulClosed(b: Bounds, sys: System, axioms: Formula, p: Program)
    requires Faithful(b, sys, axioms, p)
    ensures Closed(p, SpaceOf(Width(b), axioms))
  {
    hide Evaluate, TrueAt, SomeSteps, Width, TrueStep;
  }

  lemma FormulaSymmetric(b: Bounds, ts: seq<Term>, f: Formula, x: State, y: State)
    requires Proper(b) && FormulaExact(b, ts, f) && Isomorphic(b, x, y)
    requires forall t | t in ts :: Enumerable(t, b.sig)
    ensures Evaluate(f, x) == Evaluate(f, y)
  {
    hide Evaluate, Eval, Permuted, IsFamily, Proper, PairTrace;
    IsomorphicWidth(b, x, y);
    var g :| IsFamily(g, b.sorts, b.universe) && Permuted(b, g, x, y);
    forall t | t in ts ensures TrueAt(b, t, x) <==> TrueAt(b, t, y) { PermutedTruth(b, t, g, x, x, y, y); }
  }

  lemma EnumerableMutable(sys: System, b: Bounds)
    requires Proper(b) && WellFormed(sys, b.sig)
    ensures forall t | t in MutableAxioms(sys.axioms, b.sig.relations) :: Enumerable(t, b.sig)
    ensures forall t | t in sys.safeties :: Enumerable(t, b.sig)
    ensures forall t | t in sys.transitions :: Enumerable(t, b.sig)
    ensures forall t | t in sys.inits + sys.axioms :: Enumerable(t, b.sig)
  {
    hide Enumerable, ContainsMutable;
    var all := sys.inits + sys.transitions + sys.axioms + sys.safeties;
    assert forall t | t in sys.safeties :: t in all;
    assert forall t | t in sys.axioms :: t in all;
    assert forall t | t in sys.transitions :: t in all;
    assert forall t | t in sys.inits :: t in all;
  }

  lemma FaithfulPartition(b: Bounds, sys: System, axioms: Formula, p: Program)
    requires Proper(b) && WellFormed(sys, b.sig) && Faithful(b, sys, axioms, p)
    ensures Partition(AllOrderings(b), SpaceOf(Width(b), axioms))
  {
    hide Evaluate, Isomorphic, Proper, WellFormed, Width, AllOrderings, Partition, Enumerable, FormulaExact, StepsExact, InitsExact;
    var space := SpaceOf(Width(b), axioms);
    EnumerableMutable(sys, b);
    forall x, y | space.Has(x) && Isomorphic(b, x, y) ensures space.Has(y) {
      IsomorphicWidth(b, x, y);
      FormulaSymmetric(b, MutableAxioms(sys.axioms, b.sig.relations), axioms, x, y);
    }
    OrbitsPartition(b, space);
  }

  /** A step from a permuted state is the permutation of a step. */
  lemma StepSymmetric(b: Bounds, sys: System, axioms: Formula, trs: seq<Transition>, x: State, y: State, y': State)
    returns (x': State)
    requires Proper(b) && WellFormed(sys, b.sig) && StepsExact(b, sys, axioms, trs)
    requires FormulaExact(b, MutableAxioms(sys.axioms, b.sig.relations), axioms)
    requires |x| == Width(b) && Evaluate(axioms, x) && Isomorphic(b, x, y) && SomeSteps(trs, y, y')
    ensures SomeSteps(trs, x, x') && Isomorphic(b, x', y')
  {
    hide Evaluate, Proper, WellFormed, Width, SortOf, IteBool, NoCapture, FutureOnly, SomeSteps, Eval, Permuted, IsFamily, Inverses, Act, PairTrace;
    hide FormulaExact, OrderingOf;
    EnumerableMutable(sys, b);
    IsomorphicWidth(b, x, y);
    var mutable := MutableAxioms(sys.axioms, b.sig.relations);
    FormulaSymmetric(b, mutable, axioms, x, y);
    var f :| IsFamily(f, b.sorts, b.universe) && Permuted(b, f, x, y);
    var g := InverseFamily(f, b.sorts, b.universe);
    x' := Act(OrderingOf(g, AllKeys(b), b.sig.relations, b.ix), y');
    InversesSymmetric(f, g);
    ActPermutes(b, g, f, y');
    PermutedInverse(b, g, f, y', x');
    PermutedInverse(b, f, g, x, y);
    PermutedAgree(b, g, f, y, y', x, x');
    assert sys.transitions[0] in sys.transitions;
    PermutedTruth(b, sys.transitions[0], g, y, y', x, x');
    FormulaSymmetric(b, mutable, axioms, x', y');
  }

  lemma FaithfulSymmetric(b: Bounds, sys: System, axioms: Formula, p: Program)
    requires Proper(b) && WellFormed(sys, b.sig) && Faithful(b, sys, axioms, p)
    ensures Symmetric(p, AllOrderings(b), SpaceOf(Width(b), axioms))
  {
    hide Evaluate, Isomorphic, Proper, WellFormed, Width, AllOrderings, Enumerable, FormulaExact, StepsExact, InitsExact;
    hide SomeSteps, Orbit;
    var space, os := SpaceOf(Width(b), axioms), AllOrderings(b);
    EnumerableMutable(sys, b);
    forall x, y | space.Has(x) && y in Orbit(os, x) ensures Evaluate(p.safe, x) == Evaluate(p.safe, y) {
      OrbitMember(b, x, y);
      FormulaSymmetric(b, sys.safeties, p.safe, x, y);
    }
    forall x, y, y' | space.Has(x) && y in Orbit(os, x) && ProgramStep(p, y, y')
      ensures exists x' :: ProgramStep(p, x, x') && y' in Orbit(os, x')
    {
      OrbitMember(b, x, y);
      var x' := StepSymmetric(b, sys, axioms, p.trs, x, y, y');
      IsomorphicWidth(b, x', y');
      OrbitMember(b, x', y');
      assert ProgramStep(p, x, x');
    }
  }

  /** A step of the program from a state with the axioms is a step of the system. */
  lemma StepsCoincide(b: Bounds, sys: System, axioms: Formula, p: Program, s: State, s': State)
    requires Proper(b) && Faithful(b, sys, axioms, p) && |s| == Width(b) && AllTrueAt(b, sys.axioms, s)
    ensures ProgramStep(p, s, s') <==> SystemStep(b, sys, s, s')
  {
    hide Evaluate, Proper, Width, SomeSteps, TrueAt, TrueStep, AllTrueStep, ContainsMutable, InitsExact;
    assert Evaluate(axioms, s);
    if |sys.transitions| == 1 { OneTrueStep(b, sys.transitions, s, s'); }
    if Agreeing(b.ix.numMutables, s, s') {
      forall t | t in sys.axioms && !ContainsMutable(t, b.sig.relations) ensures TrueAt(b, t, s') {
        ImmutableAxiom(b, t, s, s');
      }
      assert Evaluate(axioms, s') <==> AllTrueAt(b, sys.axioms, s');
    }
  }

  lemma {:induction false} RunsCoincide(b: Bounds, sys: System, axioms: Formula, p: Program, run: seq<State>)
    requires Proper(b) && Faithful(b, sys, axioms, p)
    ensures IsRun(p, run) <==> Execution(b, sys, run)
    ensures IsRun(p, run) ==> |run[|run| - 1]| == Width(b) && AllTrueAt(b, sys.axioms, run[|run| - 1])
    decreases |run|
  {
    hide Proper, Width, ProgramStep, AllTrueAt, FormulaExact, StepsExact;
    if |run| > 1 {
      var front := run[..|run| - 1];
      RunsCoincide(b, sys, axioms, p, front);
      var last, s' := front[|front| - 1], run[|run| - 1];
      assert run == front + [s'];
      RunFront(p, front, s');
      ExecutionFront(b, sys, front, s');
      if IsRun(p, front) {
        StepsCoincide(b, sys, axioms, p, last, s');
        if SystemStep(b, sys, last, s') { assert |s'| == |last|; }
      }
    }
  }

  lemma RunFront(p: Program, front: seq<State>, s': State)
    requires front != []
    ensures IsRun(p, front + [s']) <==> IsRun(p, front) && ProgramStep(p, front[|front| - 1], s')
  {
    hide ProgramStep;
    var run := front + [s'];
    assert forall i | 0 <= i < |front| :: run[i] == front[i];
    if IsRun(p, run) { assert ProgramStep(p, run[|front| - 1], run[|front|]); }
  }

  lemma BugsCoincide(b: Bounds, sys: System, axioms: Formula, p: Program)
    requires Proper(b) && Faithful(b, sys, axioms, p)
    ensures forall run :: Bug(p, run) <==> Violation(b, sys, run)
  {
    hide Proper, Execution, IsRun, Evaluate, AllTrueAt;
    forall run ensures Bug(p, run) <==> Violation(b, sys, run) {
      RunsCoincide(b, sys, axioms, p, run);
      ExecutionNonEmpty(b, sys, run);
    }
  }

  lemma ExecutionNonEmpty(b: Bounds, sys: System, run: seq<State>)
    ensures Execution(b, sys, run) ==> run != []
  {
  }

  // The checker.

  /** A run in whose place no shorter one ends in the same orbit is an execution in whose place no shorter
      one ends in the same state. */
  lemma FirstReachedCoincides(b: Bounds, sys: System, axioms: Formula, p: Program, d: nat)
    requires Proper(b) && WellFormed(sys, b.sig) && Faithful(b, sys, axioms, p)
    ensures FirstReachedAt(p, AllOrderings(b), d) <==> StateFirstAt(b, sys, d)
  {
    forall run: seq<State> | run != [] ensures Last(run) == run[|run| - 1] {}
    hide *;
    forall run | run != [] ensures IsRun(p, run) <==> Execution(b, sys, run) { RunsCoincide(b, sys, axioms, p, run); }
    if FirstReachedAt(p, AllOrderings(b), d) {
      var run := FirstRun(p, AllOrderings(b), d);
      forall other | other != [] && Execution(b, sys, other) && Last(other) == Last(run) ensures |run| <= |other| {
        ExecutionWidth(b, sys, other);
        IsomorphicSelf(b, Last(other));
        OrbitMember(b, Last(other), Last(run));
        OrbitBefore(p, AllOrderings(b), run, other);
      }
      FoldStateFirst(b, sys, run, d);
    }
    if StateFirstAt(b, sys, d) {
      var run := FirstExecution(b, sys, d);
      forall other | other != [] && IsRun(p, other) && |other| < |run| ensures Last(run) !in Orbit(AllOrderings(b), Last(other)) {
        ExecutionWidth(b, sys, other);
        OrbitMember(b, Last(other), Last(run));
        if Isomorphic(b, Last(other), Last(run)) {
          var moved := PermutedExecution(b, sys, other, Last(run));
          FirstTimeLeast(b, sys, run, moved);
        }
      }
      FoldUnreached(p, AllOrderings(b), run);
      FoldFirst(p, AllOrderings(b), run, d);
    }
  }

  /** There was no round, or some state was found for the first time with the last step allowed. */
  ghost predicate Unsettled(b: Bounds, sys: System, depth: Option<nat>) {
    depth.Some? && (depth.value == 0 || StateFirstAt(b, sys, depth.value))
  }

  /** What an answer says about the system; without a counterexample it is `Unknown` exactly when
      the states were still growing at the depth. */
  ghost predicate Answers(r: InterpreterResult, b: Bounds, sys: System, depth: Option<nat>) {
    match r
    case Counterexample(trace) =>
      exists run :: Violation(b, sys, run) && Traces(trace, run) && (depth.Some? ==> |run| - 1 <= depth.value)
        && forall other | Violation(b, sys, other) :: |run| <= |other|
    case Unknown => Unsettled(b, sys, depth) && forall run | Violation(b, sys, run) :: |run| - 1 > depth.value
    case Convergence => !Unsettled(b, sys, depth) && forall run :: !Violation(b, sys, run)
  }

  lemma CorrectAnswers(r: InterpreterResult, b: Bounds, sys: System, axioms: Formula, p: Program, depth: Option<nat>, compress: bool)
    requires Proper(b) && WellFormed(sys, b.sig) && Faithful(b, sys, axioms, p) && Correct(r, p, depth, compress, AllOrderings(b))
    ensures Answers(r, b, sys, depth)
  {
    hide Proper, WellFormed, Faithful, Bug, Violation, Traces, FirstReachedAt, StateFirstAt, AllOrderings;
    if depth.Some? { FirstReachedCoincides(b, sys, axioms, p, depth.value); }
    BugsCoincide(b, sys, axioms, p);
    if r.Counterexample? {
      var run :| LeastBug(p, depth, r.trace, run);
      assert Violation(b, sys, run);
    }
  }

  // Why a system is rejected.

  /** Terms over one state that cannot be enumerated, or that have a prime. */
  ghost predicate FormulaRejected(b: Bounds, ts: seq<Term>, error: CheckerError) {
    match EnumerateQuantifiers(TermAnd(ts), b.sig, b.universe)
    case Err(e) => error == Enumeration(e)
    case Ok(e) => error == PrimeInFormula && Primed(e)
  }

  /** The same for initial states, where a prime is a failed lookup. */
  ghost predicate InitsRejected(b: Bounds, sys: System, error: CheckerError) {
    match EnumerateQuantifiers(TermAnd(sys.inits + sys.axioms), b.sig, b.universe)
    case Err(e) => error == Enumeration(e)
    case Ok(e) => error == Panic && Primed(e)
  }

  /** The transition formula cannot be enumerated, does not compile, or has an expansion that is
      not decided by the axioms or not sane. */
  ghost predicate TransitionRejected(b: Bounds, sys: System, t: Term, error: CheckerError) {
    match EnumerateQuantifiers(t, b.sig, b.universe)
    case Err(e) => error == Enumeration(e)
    case Ok(e) => StepsUnsupported(error, e, b.ix) || UndecidedOrInsane(b, sys, e, error)
  }

  ghost predicate UndecidedOrInsane(b: Bounds, sys: System, e: Enumerated, error: CheckerError) {
    exists axioms: Formula ::
      CompileFormula(MutableAxioms(sys.axioms, b.sig.relations), b) == Success(axioms) && ExpansionRejected(e, axioms, b.ix, error)
  }

  ghost predicate StepsRejected(b: Bounds, sys: System, error: CheckerError) {
    || (|sys.transitions| > 1 && error == MultipleTrs)
    || FormulaRejected(b, MutableAxioms(sys.axioms, b.sig.relations), error)
    || (|sys.transitions| == 1 && TransitionRejected(b, sys, sys.transitions[0], error))
  }

  /** The reasons to reject a system. */
  ghost predicate Rejected(b: Bounds, sys: System, error: CheckerError) {
    || (error == Panic && !AllBool(b.sig.relations))
    || InitsRejected(b, sys, error)
    || StepsRejected(b, sys, error)
    || FormulaRejected(b, sys.safeties, error)
  }

  lemma EnumeratedShape(b: Bounds, ts: seq<Term>, e: Enumerated)
    requires Proper(b) && (forall t | t in ts :: Enumerable(t, b.sig))
    requires EnumerateQuantifiers(TermAnd(ts), b.sig, b.universe) == Ok(e)
    ensures Indexed(e, b.ix)
  {
    hide EnumerateQuantifiers, Enumerable, Exact, TermAnd, Known, NegatesAtoms, Indexed;
    TermAndEnumerable(ts, b.sig);
    EnumerationShape(TermAnd(ts), b.sig, b.universe, e);
    KnownIndexed(e, b.ix, b.sig.relations, b.universe);
  }

  /** Terms compile to a formula exactly when there is no reason against it. */
  lemma CompileFormulaRejected(b: Bounds, ts: seq<Term>)
    requires Proper(b) && forall t | t in ts :: Enumerable(t, b.sig)
    ensures CompileFormula(ts, b).Success? <==> forall error :: !FormulaRejected(b, ts, error)
    ensures CompileFormula(ts, b).Failure? ==> FormulaRejected(b, ts, CompileFormula(ts, b).error)
  {
    hide EnumerateQuantifiers, Enumerable, Proper, TermAnd, Primed, Indexed, OneState, Blames, EnumeratedToFormula;
    var enumerated := EnumerateQuantifiers(TermAnd(ts), b.sig, b.universe);
    match enumerated {
      case Err(e) => assert FormulaRejected(b, ts, Enumeration(e));
      case Ok(e) =>
        EnumeratedShape(b, ts, e);
        OneStateUnprimed(e, b.ix);
        FormulaCompiles(e, b.ix);
        if EnumeratedToFormula(e, b.ix).Failure? { OnlyPrimes(EnumeratedToFormula(e, b.ix).error, e, b.ix); }
        assert Primed(e) ==> FormulaRejected(b, ts, PrimeInFormula);
    }
  }

  lemma {:induction false} LookupsOneState(e: Enumerated, ix: IndexMap)
    requires ix.copies == 1
    ensures Lookups(e, ix) <==> OneState(e, ix)
  {
    match e
    case EAnd(xs) => forall x | x in xs ensures Lookups(x, ix) <==> OneState(x, ix) { LookupsOneState(x, ix); }
    case EOr(xs) => forall x | x in xs ensures Lookups(x, ix) <==> OneState(x, ix) { LookupsOneState(x, ix); }
    case ENot(x) => LookupsOneState(x, ix);
    case EEq(x, y) => LookupsOneState(x, ix); LookupsOneState(y, ix);
    case EApp(_, _, _) =>
  }

  lemma InitsLookups(b: Bounds, sys: System, e: Enumerated)
    requires Proper(b) && WellFormed(sys, b.sig)
    requires EnumerateQuantifiers(TermAnd(sys.inits + sys.axioms), b.sig, b.universe) == Ok(e)
    ensures Lookups(e, b.ix) <==> !Primed(e)
  {
    hide EnumerateQuantifiers, Enumerable, TermAnd, Primed, Indexed, OneState, Lookups, Exact;
    EnumerableMutable(sys, b);
    EnumeratedShape(b, sys.inits + sys.axioms, e);
    OneStateUnprimed(e, b.ix);
    LookupsOneState(e, b.ix);
  }

  lemma NoMoreReasons(b: Bounds, sys: System, e: Enumerated, axioms: Formula)
    requires |sys.transitions| == 1 && EnumerateQuantifiers(sys.transitions[0], b.sig, b.universe) == Ok(e)
    requires CompileFormula(MutableAxioms(sys.axioms, b.sig.relations), b) == Success(axioms)
    requires forall error :: !TransitionsRejected(e, axioms, b.ix, error)
    requires forall error :: !FormulaRejected(b, MutableAxioms(sys.axioms, b.sig.relations), error)
    ensures forall error :: !StepsRejected(b, sys, error)
  {
    hide EnumerateQuantifiers, CompileFormula, FormulaRejected, StepsUnsupported, ExpansionRejected, MutableAxioms;
    forall error ensures !StepsRejected(b, sys, error) {
      assert !TransitionsRejected(e, axioms, b.ix, error);
    }
  }

  lemma NoStepsNoReasons(b: Bounds, sys: System)
    requires sys.transitions == [] && forall error :: !FormulaRejected(b, MutableAxioms(sys.axioms, b.sig.relations), error)
    ensures forall error :: !StepsRejected(b, sys, error)
  {
    hide FormulaRejected, MutableAxioms;
  }

  lemma FoldTransitionRejected(b: Bounds, sys: System, e: Enumerated, error: CheckerError)
    requires |sys.transitions| == 1 && EnumerateQuantifiers(sys.transitions[0], b.sig, b.universe) == Ok(e)
    requires StepsUnsupported(error, e, b.ix)
      || (CompileFormula(MutableAxioms(sys.axioms, b.sig.relations), b).Success?
          && TransitionsRejected(e, CompileFormula(MutableAxioms(sys.axioms, b.sig.relations), b).value, b.ix, error))
    ensures StepsRejected(b, sys, error)
  {
    hide EnumerateQuantifiers, CompileFormula, FormulaRejected, StepsUnsupported, ExpansionRejected, MutableAxioms;
  }

  lemma FoldStepsRejected(b: Bounds, sys: System, error: CheckerError)
    requires
      || (|sys.transitions| > 1 && error == MultipleTrs)
      || FormulaRejected(b, MutableAxioms(sys.axioms, b.sig.relations), error)
      || (|sys.transitions| == 1 && EnumerateQuantifiers(sys.transitions[0], b.sig, b.universe).Err?
          && error == Enumeration(EnumerateQuantifiers(sys.transitions[0], b.sig, b.universe).error))
    ensures StepsRejected(b, sys, error)
  {
    hide EnumerateQuantifiers, FormulaRejected, MutableAxioms;
  }

  /** The transition formula of a system is shaped as enumeration leaves it. */
  lemma TransitionShape(b: Bounds, sys: System, e: Enumerated)
    requires Proper(b) && WellFormed(sys, b.sig) && |sys.transitions| == 1
    requires EnumerateQuantifiers(sys.transitions[0], b.sig, b.universe) == Ok(e)
    ensures NegatesAtoms(e) && Known(e, b.sig.relations, b.universe) && Indexed(e, b.ix)
  {
    hide EnumerateQuantifiers, Enumerable, Exact, Known, NegatesAtoms, Indexed;
    EnumerableMutable(sys, b);
    assert sys.transitions[0] in sys.transitions;
    EnumerationShape(sys.transitions[0], b.sig, b.universe, e);
    KnownIndexed(e, b.ix, b.sig.relations, b.universe);
  }

  /** The steps of the system, as guarded updates, if there is no reason to reject them. */
  method TranslateSteps(sys: System, b: Bounds) returns (r: Outcome<(seq<Transition>, Formula)>)
    requires Proper(b) && WellFormed(sys, b.sig)
    ensures r.Success? ==> StepsExact(b, sys, r.value.1, r.value.0)
    ensures r.Success? ==> FormulaExact(b, MutableAxioms(sys.axioms, b.sig.relations), r.value.1)
    ensures r.Failure? ==> StepsRejected(b, sys, r.error)
    ensures r.Success? ==> forall error :: !StepsRejected(b, sys, error)
  {
    hide *;
    EnumerableMutable(sys, b);
    CompileFormulaRejected(b, MutableAxioms(sys.axioms, b.sig.relations));
    var enumerated := [];
    if |sys.transitions| > 1 {
      FoldStepsRejected(b, sys, MultipleTrs);
      return Failure(MultipleTrs);
    }
    if |sys.transitions| == 1 {
      match EnumerateQuantifiers(sys.transitions[0], b.sig, b.universe) {
        case Err(e) =>
          FoldStepsRejected(b, sys, Enumeration(e));
          return Failure(Enumeration(e));
        case Ok(e) =>
          enumerated := [e];
          TransitionShape(b, sys, e);
          DisjunctsCompile(e, b.ix);
          match TransitionsOf(GetOr(e), b.ix) {
            case Failure(error) =>
              FoldTransitionRejected(b, sys, e, error);
              return Failure(error);
            case Success(_) =>
          }
      }
    }
    match CompileFormula(MutableAxioms(sys.axioms, b.sig.relations), b) {
      case Failure(error) =>
        FoldStepsRejected(b, sys, error);
        return Failure(error);
      case Success(axioms) =>
        CompileFormulaExact(b, MutableAxioms(sys.axioms, b.sig.relations), axioms);
        if |sys.transitions| == 0 {
          NoStepsExact(b, sys, axioms);
          NoStepsNoReasons(b, sys);
          return Success(([], axioms));
        }
        ProperNumbering(b);
        var trs := TranslateTransitions(enumerated[0], axioms, b.ix, b.sig.relations, b.universe);
        match trs {
          case Failure(error) =>
            FoldTransitionRejected(b, sys, enumerated[0], error);
            return Failure(error);
          case Success(trs) =>
            assert sys.transitions[0] in sys.transitions;
            TransitionStepsExact(b, sys, axioms, enumerated[0], trs);
            NoMoreReasons(b, sys, enumerated[0], axioms);
            r := Success((trs, axioms));
        }
    }
  }

  lemma ProperNumbering(b: Bounds)
    requires Proper(b)
    ensures ProperNames(b.sig.relations) && Exact(b.ix, b.sig.relations, b.universe) && b.ix.copies == 1
    ensures Width(b) == NumVars(b.ix, b.sig.relations, b.universe)
  {
  }

  ghost predicate Translates(b: Bounds, sys: System, p: Program)
    requires Proper(b)
  {
    exists axioms :: Faithful(b, sys, axioms, p)
  }

  lemma FoldTranslates(b: Bounds, sys: System, axioms: Formula, p: Program)
    requires Proper(b) && InitsExact(b, sys, p.inits) && FormulaExact(b, MutableAxioms(sys.axioms, b.sig.relations), axioms)
    requires StepsExact(b, sys, axioms, p.trs) && FormulaExact(b, sys.safeties, p.safe)
    ensures Translates(b, sys, p)
  {
    hide InitsExact, FormulaExact, StepsExact, Proper;
    assert Faithful(b, sys, axioms, p);
  }

  lemma FoldRejected(b: Bounds, sys: System, error: CheckerError)
    requires InitsRejected(b, sys, error) || StepsRejected(b, sys, error) || FormulaRejected(b, sys.safeties, error)
    ensures Rejected(b, sys, error)
  {
    hide InitsRejected, StepsRejected, FormulaRejected;
  }

  lemma NotRejected(b: Bounds, sys: System)
    requires Proper(b)
    requires forall error :: !InitsRejected(b, sys, error) && !StepsRejected(b, sys, error) && !FormulaRejected(b, sys.safeties, error)
    ensures forall error :: !Rejected(b, sys, error)
  {
    hide InitsRejected, StepsRejected, FormulaRejected, Exact;
  }

  lemma InitsReasons(b: Bounds, sys: System)
    requires Proper(b) && WellFormed(sys, b.sig)
    ensures match EnumerateQuantifiers(TermAnd(sys.inits + sys.axioms), b.sig, b.universe)
            case Err(e) => InitsRejected(b, sys, Enumeration(e))
            case Ok(e) => forall error :: InitsRejected(b, sys, error) <==> error == Panic && !Lookups(e, b.ix)
  {
    hide Proper, EnumerateQuantifiers, TermAnd, Lookups, Primed;
    match EnumerateQuantifiers(TermAnd(sys.inits + sys.axioms), b.sig, b.universe) {
      case Err(e) =>
      case Ok(e) => InitsLookups(b, sys, e);
    }
  }

  /** Translate a system to a program with exactly its initial states, steps and safe states, if there is no
      reason to reject it. */
  method Translate(sys: System, b: Bounds, n: nat) returns (r: Outcome<Program>)
    requires Proper(b) && WellFormed(sys, b.sig) && n == Width(b)
    ensures r.Success? ==> Translates(b, sys, r.value)
    ensures r.Failure? ==> Rejected(b, sys, r.error)
    ensures r.Success? ==> forall error :: !Rejected(b, sys, error)
  {
    hide *;
    EnumerableMutable(sys, b);
    CompileFormulaRejected(b, sys.safeties);
    InitsReasons(b, sys);
    match EnumerateQuantifiers(TermAnd(sys.inits + sys.axioms), b.sig, b.universe) {
      case Err(e) =>
        FoldRejected(b, sys, Enumeration(e));
        r := Failure(Enumeration(e));
      case Ok(e) =>
        if !Lookups(e, b.ix) {
          FoldRejected(b, sys, Panic);
          return Failure(Panic);
        }
        InitStatesExact(b, sys, e);
        var steps := TranslateSteps(sys, b);
        match steps {
          case Failure(error) =>
            FoldRejected(b, sys, error);
            r := Failure(error);
          case Success(translated) =>
            match CompileFormula(sys.safeties, b) {
              case Failure(error) =>
                FoldRejected(b, sys, error);
                r := Failure(error);
              case Success(safe) =>
                CompileFormulaExact(b, sys.safeties, safe);
                r := Success(Program(InitStates(e, b.ix, n), translated.0, safe));
                FoldTranslates(b, sys, translated.1, r.value);
                NotRejected(b, sys);
            }
        }
    }
  }

  /** Check a system.  A counterexample is an execution of least length to an unsafe state;
      `Unknown` means that no execution within the depth is unsafe but a state is first reached at the
      depth, and `Convergence` that none is.  The states are those of the bounds that are returned. */
  method Check(sys: System, sig: Signature, sorts: seq<string>, universe: Universe, depth: Option<nat>, compress: bool)
    returns (r: Outcome<InterpreterResult>, b: Bounds)
    requires ProperNames(sig.relations) && NoDuplicates(sorts) && universe(Bool) == 2 && WellFormed(sys, sig)
    ensures b.sig == sig && b.universe == universe
    ensures r.Success? ==> Proper(b) && Answers(r.value, b, sys, depth)
    ensures r.Success? <==> forall error :: !Rejected(b, sys, error)
    ensures r.Failure? ==> Rejected(b, sys, r.error)
  {
    hide FormulaRejected, WellFormed, Faithful, Exact, Answers, Correct, InitsRejected, StepsRejected, CompileFormula, Partition, Closed, Symmetric, AllOrderings, NumVars;
    var indices := new Indices(sig.relations, universe, 1);
    b := Bounds(sig, sorts, universe, indices.ix);
    if !AllBool(sig.relations) {
      assert Rejected(b, sys, Panic);
      return Failure(Panic), b;
    }
    var translated := Translate(sys, b, indices.numVars);
    match translated {
      case Failure(error) => r := Failure(error);
      case Success(p) =>
        ghost var axioms :| Faithful(b, sys, axioms, p);
        ghost var space := SpaceOf(Width(b), axioms);
        FaithfulPartition(b, sys, axioms, p);
        FaithfulClosed(b, sys, axioms, p);
        FaithfulSymmetric(b, sys, axioms, p);
        var answer := Interpret(p, depth, compress, AllOrderings(b), space);
        CorrectAnswers(answer, b, sys, axioms, p, depth, compress);
        r := Success(answer);
    }
  }
}
