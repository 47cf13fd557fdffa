/** When the three bounded checkers agree about a system. */
module CheckerAgreement {
  import opened Collections
  import opened Syntax
  import opened Semantics
  import opened Guarded
  import opened Search
  import opened Orbits
  import opened Systems
  import opened Unrollings
  import opened SymbolicSearch
  import SetChecker
  import SatChecker
  import BddChecker

  /** The guard: there is a transition formula, and no execution has a last step of the built system to
      an unsafe state without the axioms; for instance because no axiom speaks about a mutable symbol. */
  ghost predicate Comparable(b: Bounds, sys: System) {
    sys.transitions != [] && forall d: nat :: SatChecker.NoUnsafeExit(b, sys, d)
  }

  lemma ComparableWithoutMutableAxioms(b: Bounds, sys: System)
    requires Proper(b) && sys.transitions != [] && MutableAxioms(sys.axioms, b.sig.relations) == []
    ensures Comparable(b, sys)
  {
    hide SatChecker.NoUnsafeExit, Proper, MutableAxioms;
    forall d: nat ensures SatChecker.NoUnsafeExit(b, sys, d) { SatChecker.NoMutableAxioms(b, sys, d); }
  }

  /** There is a violation with exactly, or with at most, so many steps. */
  ghost predicate ViolatedAt(b: Bounds, sys: System, d: nat) {
    exists run :: Violation(b, sys, run) && |run| == d + 1
  }

  ghost predicate ViolatedWithin(b: Bounds, sys: System, depth: Option<nat>) {
    exists d: nat :: ViolatedAt(b, sys, d) && (depth.Some? ==> d <= depth.value)
  }

  ghost predicate LeastViolated(b: Bounds, sys: System, d: nat) {
    ViolatedAt(b, sys, d) && forall c: nat | ViolatedAt(b, sys, c) :: d <= c
  }

  lemma ViolationAt(b: Bounds, sys: System, run: seq<State>)
    requires Violation(b, sys, run)
    ensures run != [] && ViolatedAt(b, sys, |run| - 1)
  {
    hide AllTrueAt, SystemStep, Width;
  }

  /** The explicit-state checker finds the least depth there is, within the bound. */
  lemma SetAnswer(r: InterpreterResult, b: Bounds, sys: System, depth: Option<nat>)
    requires SetChecker.Answers(r, b, sys, depth)
    ensures r.Counterexample? <==> ViolatedWithin(b, sys, depth)
    ensures r.Counterexample? ==> Depth(r.trace) >= 0 && LeastViolated(b, sys, Depth(r.trace))
  {
    assert r.Unknown? ==> depth.Some?;
    hide Violation, SetChecker.Unsettled;
    forall run | Violation(b, sys, run) ensures run != [] && ViolatedAt(b, sys, |run| - 1) { ViolationAt(b, sys, run); }
  }

  /** So does the symbolic checker, in either direction, when the answers are comparable. */
  lemma SymbolicAnswer(r: SymbolicAnswer, b: Bounds, sys: System, depth: Option<nat>)
    requires BddChecker.AnswersForSystem(r, b, sys, depth) && Comparable(b, sys)
    ensures r.Found? <==> ViolatedWithin(b, sys, depth)
    ensures r.Found? ==> r.run != [] && LeastViolated(b, sys, |r.run| - 1)
  {
    hide Violation, SatChecker.NoUnsafeExit;
    forall run | Violation(b, sys, run) ensures run != [] && ViolatedAt(b, sys, |run| - 1) { ViolationAt(b, sys, run); }
  }

  /** The fixed-depth checker finds a violation at exactly its depth. */
  lemma DepthAnswer(r: Option<seq<Interp>>, b: Bounds, sys: System, depth: nat)
    requires SatChecker.SystemDepthAnswer(r, b, sys, depth) && Comparable(b, sys)
    ensures r.Some? <==> ViolatedAt(b, sys, depth)
  {
    hide Violation, SatChecker.NoUnsafeExit, SatChecker.ModelsOf;
  }

  /** The three checkers agree on whether there is a counterexample and on its least depth: where the
      explicit-state checker has one, the symbolic checker has one of that length, and the fixed-depth checker
      has one at that depth and none below. */
  lemma CheckersAgree(explicit: InterpreterResult, symbolic: SymbolicAnswer, fixed: nat -> Option<seq<Interp>>,
                      b: Bounds, sys: System, depth: Option<nat>)
    requires Comparable(b, sys)
    requires SetChecker.Answers(explicit, b, sys, depth) && BddChecker.AnswersForSystem(symbolic, b, sys, depth)
    requires forall d: nat :: SatChecker.SystemDepthAnswer(fixed(d), b, sys, d)
    ensures explicit.Counterexample? <==> symbolic.Found?
    ensures explicit.Counterexample? <==> exists d: nat :: fixed(d).Some? && (depth.Some? ==> d <= depth.value)
    ensures explicit.Counterexample? ==>
      && Depth(explicit.trace) >= 0 && |symbolic.run| == Depth(explicit.trace) + 1
      && fixed(Depth(explicit.trace)).Some? && forall d: nat | d < Depth(explicit.trace) :: fixed(d).None?
  {
    hide SetChecker.Answers, BddChecker.AnswersForSystem, SatChecker.SystemDepthAnswer, Comparable, ViolatedAt;
    SetAnswer(explicit, b, sys, depth);
    SymbolicAnswer(symbolic, b, sys, depth);
    forall d: nat ensures fixed(d).Some? <==> ViolatedAt(b, sys, d) { DepthAnswer(fixed(d), b, sys, d); }
  }

  // The rounds of the searches.

  /** Without axioms over mutable symbols the built system has the executions of the system. */
  lemma BuiltRunsAreExecutions(b: Bounds, sys: System, run: seq<State>)
    requires Proper(b) && sys.transitions != [] && MutableAxioms(sys.axioms, b.sig.relations) == [] && run != []
    ensures SatChecker.BuiltRun(b, sys, run) <==> Execution(b, sys, run)
  {
    hide Proper, Execution, SatChecker.BuiltRun, TrueAt, MutableAxioms;
    if Execution(b, sys, run) { SatChecker.ExecutionBuilt(b, sys, run); }
    if SatChecker.BuiltRun(b, sys, run) { SatChecker.BuiltExecution(b, sys, run); }
  }

  lemma SameFirst(b: Bounds, sys: System, k: nat)
    requires Proper(b) && sys.transitions != [] && MutableAxioms(sys.axioms, b.sig.relations) == []
    ensures BddChecker.FoundFirstAt(b, sys, false, k) <==> StateFirstAt(b, sys, k)
  {
    hide Proper, Execution, SatChecker.BuiltRun, MutableAxioms;
    forall run: seq<State> | run != [] ensures BddChecker.GoneAlong(b, sys, false, run) <==> Execution(b, sys, run) {
      BuiltRunsAreExecutions(b, sys, run);
    }
    hide BddChecker.GoneAlong;
    if run: seq<State> :| run != [] && BddChecker.GoneAlong(b, sys, false, run) && |run| == k + 1 && BddChecker.FirstSearched(b, sys, false, run) {
      assert FirstTime(b, sys, run);
    }
    if run :| Execution(b, sys, run) && |run| == k + 1 && FirstTime(b, sys, run) {
      assert BddChecker.FirstSearched(b, sys, false, run);
    }
  }

  /** Explicit and forward symbolic search also stop for the same reason: both run out of depth, or both
      converge. */
  lemma VerdictsAgree(explicit: InterpreterResult, symbolic: SymbolicAnswer, b: Bounds, sys: System, depth: Option<nat>)
    requires Proper(b) && sys.transitions != [] && MutableAxioms(sys.axioms, b.sig.relations) == []
    requires SetChecker.Answers(explicit, b, sys, depth)
    requires BddChecker.AnswersForSystem(symbolic, b, sys, depth) && BddChecker.GrowthAnswers(symbolic, b, sys, depth, false)
    ensures (explicit.Counterexample? <==> symbolic.Found?) && (explicit.Unknown? <==> symbolic.Exhausted?)
    ensures explicit.Convergence? <==> symbolic.Converged?
  {
    ComparableWithoutMutableAxioms(b, sys);
    hide Proper, MutableAxioms, Comparable, ViolatedWithin, LeastViolated, Violation, StateFirstAt, BddChecker.FoundFirstAt;
    SetAnswer(explicit, b, sys, depth);
    SymbolicAnswer(symbolic, b, sys, depth);
    if depth.Some? && depth.value > 0 {
      SameFirst(b, sys, depth.value);
      GrowingIsFirst(b, sys, depth.value);
    }
  }

  lemma GrowingIsFirst(b: Bounds, sys: System, depth: nat)
    requires depth > 0
    ensures BddChecker.Growing(b, sys, false, depth) <==> BddChecker.FoundFirstAt(b, sys, false, depth)
  {
    hide BddChecker.FoundFirstAt, BddChecker.SystemGraph, FirstAt, Direction;
    var h := Direction(BddChecker.SystemGraph(b, sys), false);
    forall k: nat ensures FirstAt(h, k) <==> BddChecker.FoundFirstAt(b, sys, false, k) { BddChecker.FirstFound(b, sys, false, k); }
    GrowthIsFirst(h, depth);
  }
}
