/** The symbolic checker from end to end, in both directions. */
module BddChecker {
  import opened Collections
  import opened Syntax
  import opened Semantics
  import Primes
  import opened QuantEnum
  import opened QuantEnumSound
  import EnumeratedShapes
  import opened Indexing
  import opened Guarded
  import opened Translation
  import opened Diagrams
  import opened Orbits
  import opened Systems
  import opened Unrollings
  import opened SatChecker
  import opened Symbolic
  import opened SymbolicSearch

  /** The transition graph of the formulas the symbolic checkers build. */
  ghost function SystemGraph(b: Bounds, sys: System): Graph {
    Graph(iset s | |s| == Width(b) && AllTrueAt(b, sys.inits + sys.axioms, s),
          iset s, s' | |s| == Width(b) && BuiltStep(b, sys, s, s') :: (s, s'),
          iset s | |s| == Width(b) && !AllTrueAt(b, sys.safeties, s))
  }

  function VarsOf(ix: IndexMap, size: nat): Vars {
    Vars(ix.numMutables, size)
  }

  lemma GraphWide(b: Bounds, ix: IndexMap, sys: System)
    requires Proper(b) && Exact(ix, b.sig.relations, b.universe) && ix.copies == 2
    ensures Wide(VarsOf(ix, NumVars(ix, b.sig.relations, b.universe)), SystemGraph(b, sys))
  {
    NumMutablesBelow(b, ix);
    hide Proper, Exact, NumVars, AllTrueAt;
    assert b.ix.numMutables * ix.copies == 2 * b.ix.numMutables;
  }

  /** The diagram of a ground formula. */
  function BddFromEnumerated(e: Enumerated, ix: IndexMap, size: nat): (r: Bdd)
    ensures forall v :: v in r <==> |v| == size && Accepts(e, ix, v)
  {
    set v | v in Valuations(size) && Accepts(e, ix, v)
  }

  /** The two copies of a valuation are its states before and after a step. */
  lemma CopiesAreStates(vars: Vars, v: State)
    requires Sized(vars) && |v| == vars.size
    ensures StateOf(v, 0, vars.m, 2, vars.size - vars.m) == St(vars, v)
    ensures StateOf(v, 1, vars.m, 2, vars.size - vars.m) == Pr(vars, v)
  {
  }

  ghost predicate Numbered(b: Bounds, ix: IndexMap, vars: Vars) {
    && Proper(b) && Exact(ix, b.sig.relations, b.universe) && ix.copies == 2
    && Sized(vars) && vars.m == ix.numMutables == b.ix.numMutables && vars.size - vars.m == Width(b)
    && vars.size == NumVars(ix, b.sig.relations, b.universe)
  }

  lemma NumberedVars(b: Bounds, ix: IndexMap)
    requires Proper(b) && Exact(ix, b.sig.relations, b.universe) && ix.copies == 2
    ensures Numbered(b, ix, VarsOf(ix, NumVars(ix, b.sig.relations, b.universe)))
  {
    NumMutablesBelow(b, ix);
    hide Proper, Exact, NumVars;
    assert b.ix.numMutables * ix.copies == 2 * b.ix.numMutables;
  }

  /** Whether a valuation is accepted, in terms of the pair of states it describes. */
  lemma AcceptedTruth(b: Bounds, ix: IndexMap, vars: Vars, ts: seq<Term>, e: Enumerated, v: State)
    requires Numbered(b, ix, vars) && |v| == vars.size && Lookups(e, ix)
    requires forall t | t in ts :: Enumerable(t, b.sig)
    requires EnumerateQuantifiers(TermAnd(ts), b.sig, b.universe) == Ok(e)
    ensures StateSequence(b, [St(vars, v), Pr(vars, v)])
    ensures Accepts(e, ix, v) <==> AllTrue(ts, RunTrace(b, [St(vars, v), Pr(vars, v)]), 0)
  {
    hide Proper, Exact, NumVars, Accepts, Lookups, EnumerateQuantifiers, TermAnd, Enumerable, AllTrue, RunTrace, StateOf, Reads, EnumHolds;
    hide St, Pr;
    var run := [St(vars, v), Pr(vars, v)];
    CopiesAreStates(vars, v);
    StatesOfSequence(b, v, 2);
    assert StatesOf(v, b.ix.numMutables, 2, Width(b)) == run;
    ValuationReads(b, ix, v, run);
    AcceptsSound(e, ix, v, RunTrace(b, run));
    EnumeratedAt(b, ts, e, run, 0);
  }

  /** The diagram of one-state formulas represents the states they are true in. */
  lemma StateDiagram(b: Bounds, ix: IndexMap, vars: Vars, ts: seq<Term>, e: Enumerated)
    requires Numbered(b, ix, vars) && Lookups(e, ix)
    requires forall t | t in ts :: Enumerable(t, b.sig) && FutureOnly(t) && Primes.UnrollingOf(t) == Primes.Finite(0)
    requires EnumerateQuantifiers(TermAnd(ts), b.sig, b.universe) == Ok(e)
    ensures Unprimed(vars, BddFromEnumerated(e, ix, vars.size), iset s | |s| == Width(b) && AllTrueAt(b, ts, s))
    ensures Unprimed(vars, BddNot(vars, BddFromEnumerated(e, ix, vars.size)), iset s | |s| == Width(b) && !AllTrueAt(b, ts, s))
  {
    hide Numbered, Accepts, Lookups, EnumerateQuantifiers, TermAnd, Enumerable, AllTrue, RunTrace, AllTrueAt, FutureOnly;
    hide Primes.UnrollingOf, St, StateSequence;
    NumberedSizes(b, ix, vars);
    forall v: State | |v| == vars.size ensures |St(vars, v)| == Width(b) && (Accepts(e, ix, v) <==> AllTrueAt(b, ts, St(vars, v))) {
      AcceptedTruth(b, ix, vars, ts, e, v);
      StWidth(vars, v);
      StatesTruth(b, ts, [St(vars, v), Pr(vars, v)], 0);
    }
  }

  lemma NumberedProper(b: Bounds, ix: IndexMap, vars: Vars)
    requires Numbered(b, ix, vars)
    ensures AllBool(b.sig.relations)
  {
  }

  lemma NumberedSizes(b: Bounds, ix: IndexMap, vars: Vars)
    requires Numbered(b, ix, vars)
    ensures Sized(vars) && vars.size - vars.m == Width(b)
  {
  }

  lemma StWidth(vars: Vars, v: State)
    requires Sized(vars) && |v| == vars.size
    ensures |St(vars, v)| == |Pr(vars, v)| == vars.size - vars.m
  {
  }

  /** The diagram of the transition formulas relates the states of each step. */
  lemma StepDiagram(b: Bounds, ix: IndexMap, vars: Vars, sys: System, e: Enumerated)
    requires Numbered(b, ix, vars) && Lookups(e, ix) && Extracted(sys, b.sig)
    requires EnumerateQuantifiers(TermAnd(sys.transitions + MutableAxioms(sys.axioms, b.sig.relations)), b.sig, b.universe) == Ok(e)
    ensures Relates(vars, BddFromEnumerated(e, ix, vars.size), SystemGraph(b, sys).step)
  {
    hide Numbered, Accepts, Lookups, EnumerateQuantifiers, TermAnd, Enumerable, AllTrue, RunTrace, BuiltStep, Extracted;
    hide St, Pr, StateSequence;
    NumberedSizes(b, ix, vars);
    NumberedProper(b, ix, vars);
    PartsEnumerable(sys, b);
    var ts := sys.transitions + MutableAxioms(sys.axioms, b.sig.relations);
    forall v: State | |v| == vars.size
      ensures |St(vars, v)| == Width(b) && (Accepts(e, ix, v) <==> BuiltStep(b, sys, St(vars, v), Pr(vars, v)))
    {
      AcceptedTruth(b, ix, vars, ts, e, v);
      StWidth(vars, v);
      StepsTruth(b, sys, [St(vars, v), Pr(vars, v)], 0);
    }
  }

  /** Paths of the graph are runs of the built system. */
  lemma PathsAreRuns(b: Bounds, sys: System, run: seq<State>)
    ensures Path(SystemGraph(b, sys), run) <==> BuiltRun(b, sys, run)
  {
    hide AllTrueAt, BuiltStep, Width, StateSequence;
    var g := SystemGraph(b, sys);
    if run != [] { SplitAt(b, sys.inits, sys.axioms, run[0]); }
    if Path(g, run) {
      forall i | 0 <= i < |run| - 1 ensures BuiltStep(b, sys, run[i], run[i + 1]) { assert (run[i], run[i + 1]) in g.step; }
    }
    if BuiltRun(b, sys, run) {
      BuiltRunSequence(b, sys, run);
      SequenceWidths(b, run);
      forall i | 0 <= i < |run| - 1 ensures (run[i], run[i + 1]) in g.step {}
    }
  }

  /** A hit of the graph is a violation of the built system. */
  lemma HitsAreViolations(b: Bounds, sys: System, run: seq<State>)
    ensures Hit(SystemGraph(b, sys), run) <==> run != [] && BuiltViolation(b, sys, run, |run| - 1)
  {
    hide AllTrueAt, BuiltStep, Width, Path;
    PathsAreRuns(b, sys, run);
    if BuiltRun(b, sys, run) {
      BuiltRunSequence(b, sys, run);
      SequenceWidths(b, run);
    }
  }

  lemma SequenceWidths(b: Bounds, run: seq<State>)
    requires StateSequence(b, run)
    ensures forall i | 0 <= i < |run| :: |run[i]| == Width(b)
  {
  }

  /** What an answer says about the system. */
  ghost predicate SymbolicallyAnswers(r: SymbolicAnswer, b: Bounds, sys: System, depth: Option<nat>) {
    match r
    case Found(run) =>
      && run != [] && BuiltViolation(b, sys, run, |run| - 1) && (depth.Some? ==> |run| - 1 <= depth.value)
      && forall d: nat, other | BuiltViolation(b, sys, other, d) :: |run| - 1 <= d
    case Exhausted => depth.Some? && forall d: nat, run | BuiltViolation(b, sys, run, d) :: d > depth.value
    case Converged(_) => forall d: nat, run :: !BuiltViolation(b, sys, run, d)
  }

  /** What an answer says about the system itself: no violation is missed, none is shorter than a
      reported run, and the run is one unless its last step can leave the axioms. */
  ghost predicate AnswersForSystem(r: SymbolicAnswer, b: Bounds, sys: System, depth: Option<nat>) {
    match r
    case Found(run) =>
      && run != [] && (depth.Some? ==> |run| - 1 <= depth.value)
      && (forall other | Violation(b, sys, other) :: |run| <= |other|)
      && ((sys.transitions != [] || |run| == 1) && NoUnsafeExit(b, sys, |run| - 1) ==> Violation(b, sys, run))
    case Exhausted => depth.Some? && forall run | Violation(b, sys, run) :: |run| - 1 > depth.value
    case Converged(_) => forall run :: !Violation(b, sys, run)
  }

  // How the states of the built system grow.

  /** A run of the built system from anywhere to an unsafe state. */
  ghost predicate BuiltExit(b: Bounds, sys: System, run: seq<State>) {
    run != [] && |run[0]| == Width(b) && BuiltSteps(b, sys, run) && !AllTrueAt(b, sys.safeties, run[|run| - 1])
  }

  /** The runs that a forward search, or a backward one, goes along. */
  ghost predicate GoneAlong(b: Bounds, sys: System, reversed: bool, run: seq<State>) {
    if reversed then BuiltExit(b, sys, run) else BuiltRun(b, sys, run)
  }

  /** The state that the search gets to along a run. */
  function EndOf(reversed: bool, run: seq<State>): State
    requires run != []
  {
    if reversed then run[0] else run[|run| - 1]
  }

  ghost predicate FirstSearched(b: Bounds, sys: System, reversed: bool, run: seq<State>)
    requires run != []
  {
    forall other | other != [] && GoneAlong(b, sys, reversed, other) && EndOf(reversed, other) == EndOf(reversed, run) :: |run| <= |other|
  }

  /** Some state is found in the round and in none before. */
  ghost predicate FoundFirstAt(b: Bounds, sys: System, reversed: bool, k: nat) {
    exists run :: run != [] && GoneAlong(b, sys, reversed, run) && |run| == k + 1 && FirstSearched(b, sys, reversed, run)
  }

  ghost predicate Growing(b: Bounds, sys: System, reversed: bool, depth: nat) {
    forall k: nat | 1 <= k <= depth :: FoundFirstAt(b, sys, reversed, k)
  }

  /** Without a found run, the depth is exhausted exactly when every round found a state for the first time. */
  ghost predicate GrowthAnswers(r: SymbolicAnswer, b: Bounds, sys: System, depth: Option<nat>, reversed: bool) {
    match r
    case Found(_) => true
    case Exhausted => depth.Some? && Growing(b, sys, reversed, depth.value)
    case Converged(_) => depth.Some? ==> !Growing(b, sys, reversed, depth.value)
  }

  lemma {:induction false} StepWidths(b: Bounds, sys: System, run: seq<State>, i: nat)
    requires run != [] && |run[0]| == Width(b) && BuiltSteps(b, sys, run) && i < |run|
    ensures |run[i]| == Width(b)
  {
    hide AllTrueAt, AllTrueStep, Width;
    if i > 0 {
      StepWidths(b, sys, run, i - 1);
      assert BuiltStep(b, sys, run[i - 1], run[i]);
    }
  }

  lemma TurnedPathsAreExits(b: Bounds, sys: System, run: seq<State>)
    ensures Path(Turned(SystemGraph(b, sys)), run) <==> run != [] && BuiltExit(b, sys, Reverse(run))
  {
    hide AllTrueAt, BuiltStep, Width;
    var g := SystemGraph(b, sys);
    var h, turned := Turned(g), Reverse(run);
    if Path(h, run) {
      forall i | 0 <= i < |turned| - 1 ensures BuiltStep(b, sys, turned[i], turned[i + 1]) && |turned[i]| == Width(b) {
        var j := |run| - 2 - i;
        assert (run[j], run[j + 1]) in h.step;
        assert (run[j + 1], run[j]) in g.step;
      }
    }
    if run != [] && BuiltExit(b, sys, turned) {
      forall i | 0 <= i < |turned| ensures |turned[i]| == Width(b) { StepWidths(b, sys, turned, i); }
      forall i | 0 <= i < |run| - 1 ensures (run[i], run[i + 1]) in h.step {
        var j := |run| - 2 - i;
        assert turned[j] == run[i + 1] && turned[j + 1] == run[i] && BuiltStep(b, sys, turned[j], turned[j + 1]);
        assert (run[i + 1], run[i]) in g.step;
      }
      assert run[0] == turned[|run| - 1];
    }
  }

  /** The run of the built system along a path in the direction of the search. */
  function Along(reversed: bool, run: seq<State>): (r: seq<State>)
    ensures |r| == |run| && (run != [] ==> EndOf(reversed, r) == run[|run| - 1])
  {
    if reversed then Reverse(run) else run
  }

  lemma AlongTwice(reversed: bool, run: seq<State>)
    ensures Along(reversed, Along(reversed, run)) == run
  {
  }

  lemma SearchedPaths(b: Bounds, sys: System, reversed: bool, run: seq<State>)
    requires run != []
    ensures Path(Direction(SystemGraph(b, sys), reversed), run) <==> GoneAlong(b, sys, reversed, Along(reversed, run))
  {
    hide SystemGraph, Path, BuiltExit, BuiltRun, Turned;
    if reversed { TurnedPathsAreExits(b, sys, run); } else { PathsAreRuns(b, sys, run); }
  }

  lemma FirstFound(b: Bounds, sys: System, reversed: bool, k: nat)
    ensures FirstAt(Direction(SystemGraph(b, sys), reversed), k) <==> FoundFirstAt(b, sys, reversed, k)
  {
    hide SystemGraph, Path, GoneAlong, Direction, Along, EndOf, FirstPath, FirstSearched;
    var h := Direction(SystemGraph(b, sys), reversed);
    if run :| Path(h, run) && |run| == k + 1 && FirstPath(h, run) {
      SearchedPaths(b, sys, reversed, run);
      PathFirst(b, sys, reversed, run);
    }
    if r :| r != [] && GoneAlong(b, sys, reversed, r) && |r| == k + 1 && FirstSearched(b, sys, reversed, r) {
      AlongTwice(reversed, r);
      SearchedPaths(b, sys, reversed, Along(reversed, r));
      PathFirst(b, sys, reversed, Along(reversed, r));
    }
  }

  lemma PathFirst(b: Bounds, sys: System, reversed: bool, run: seq<State>)
    requires run != []
    ensures FirstPath(Direction(SystemGraph(b, sys), reversed), run) <==> FirstSearched(b, sys, reversed, Along(reversed, run))
  {
    hide SystemGraph, Path, GoneAlong, Direction, Along, EndOf;
    var h, r := Direction(SystemGraph(b, sys), reversed), Along(reversed, run);
    if FirstPath(h, run) {
      forall other | other != [] && GoneAlong(b, sys, reversed, other) && EndOf(reversed, other) == EndOf(reversed, r) ensures |r| <= |other| {
        AlongTwice(reversed, other);
        SearchedPaths(b, sys, reversed, Along(reversed, other));
      }
    }
    if FirstSearched(b, sys, reversed, r) {
      forall other | other != [] && Path(h, other) && other[|other| - 1] == run[|run| - 1] ensures |run| <= |other| {
        SearchedPaths(b, sys, reversed, other);
      }
    }
  }

  lemma GrownAnswers(r: SymbolicAnswer, b: Bounds, sys: System, depth: Option<nat>, reversed: bool)
    requires Grown(r, Direction(SystemGraph(b, sys), reversed), depth)
    ensures GrowthAnswers(r, b, sys, depth, reversed)
  {
    hide SystemGraph, FirstAt, FoundFirstAt, Direction;
    forall k: nat ensures FirstAt(Direction(SystemGraph(b, sys), reversed), k) <==> FoundFirstAt(b, sys, reversed, k) { FirstFound(b, sys, reversed, k); }
  }

  lemma SystemAnswers(r: SymbolicAnswer, b: Bounds, sys: System, depth: Option<nat>)
    requires Proper(b) && SymbolicallyAnswers(r, b, sys, depth)
    ensures AnswersForSystem(r, b, sys, depth)
  {
    hide Proper, Execution, BuiltRun, AllTrueAt, NoUnsafeExit;
    ExecutionsNonEmpty(b, sys);
    forall other | Violation(b, sys, other) ensures BuiltViolation(b, sys, other, |other| - 1) { ViolationBuilt(b, sys, other); }
    if r.Found? && (sys.transitions != [] || |r.run| == 1) && NoUnsafeExit(b, sys, |r.run| - 1) {
      BuiltViolationsReal(b, sys, |r.run| - 1);
    }
  }

  lemma SoundAnswers(r: SymbolicAnswer, b: Bounds, sys: System, depth: Option<nat>)
    requires Sound(r, SystemGraph(b, sys), depth)
    ensures SymbolicallyAnswers(r, b, sys, depth)
  {
    hide Hit, BuiltViolation, SystemGraph;
    var g := SystemGraph(b, sys);
    forall d: nat, run | BuiltViolation(b, sys, run, d) ensures Hit(g, run) && |run| == d + 1 {
      ViolationLength(b, sys, run, d);
      HitsAreViolations(b, sys, run);
    }
    if r.Found? { HitsAreViolations(b, sys, r.run); }
  }

  lemma ViolationLength(b: Bounds, sys: System, run: seq<State>, d: nat)
    requires BuiltViolation(b, sys, run, d)
    ensures |run| == d + 1
  {
  }

  lemma PartsIndexed(b: Bounds, sys: System, ix: IndexMap, init: Enumerated, step: Enumerated, safe: Enumerated)
    requires Proper(b) && Extracted(sys, b.sig) && Enumerates(sys, b, init, step, safe)
    requires Exact(ix, b.sig.relations, b.universe) && ix.copies == 2
    ensures Lookups(init, ix) && Lookups(step, ix) && Lookups(safe, ix)
  {
    PartsKnown(b, sys, init, step, safe);
    hide Extracted, Enumerates, EnumeratedShapes.Known, EnumeratedShapes.Unprimed, Exact, PrimeBy, Lookups;
    PrimedIndexed(init, ix, b.sig.relations, b.universe, 0);
    PrimedIndexed(step, ix, b.sig.relations, b.universe, 0);
    PrimedIndexed(safe, ix, b.sig.relations, b.universe, 0);
    PrimeByNone(init);
    PrimeByNone(step);
    PrimeByNone(safe);
  }

  /** Check a system symbolically, forward or backward. */
  method Check(sys: System, sig: Signature, universe: Universe, depth: Option<nat>, reversed: bool, ghost b: Bounds)
    returns (r: Outcome<SymbolicAnswer>)
    requires OneCopy(b) && b.sig == sig && b.universe == universe && Extracted(sys, sig)
    ensures r.Success? ==> Proper(b) && SymbolicallyAnswers(r.value, b, sys, depth) && AnswersForSystem(r.value, b, sys, depth)
    ensures r.Success? ==> GrowthAnswers(r.value, b, sys, depth, reversed)
    ensures r.Success? <==> forall error :: !BuildRejected(b, sys, error)
    ensures r.Failure? ==> BuildRejected(b, sys, r.error)
  {
    hide *;
    if !AllBool(sig.relations) {
      FoldRejected(b, sys, Panic);
      return Failure(Panic);
    }
    FoldProper(b);
    ProperDecls(b);
    var indices := new Indices(sig.relations, universe, 2);
    var ix, size := indices.ix, indices.numVars;
    var init := EnumerateQuantifiers(TermAnd(sys.inits + sys.axioms), sig, universe);
    if init.Err? {
      FailsWithItsError(init);
      FoldRejected(b, sys, Enumeration(init.error));
      return Failure(Enumeration(init.error));
    }
    var step := EnumerateQuantifiers(TermAnd(sys.transitions + MutableAxioms(sys.axioms, sig.relations)), sig, universe);
    if step.Err? {
      FailsWithItsError(step);
      FoldRejected(b, sys, Enumeration(step.error));
      return Failure(Enumeration(step.error));
    }
    var safe := EnumerateQuantifiers(TermAnd(sys.safeties), sig, universe);
    if safe.Err? {
      FailsWithItsError(safe);
      FoldRejected(b, sys, Enumeration(safe.error));
      return Failure(Enumeration(safe.error));
    }
    FoldEnumerates(sys, b, init.value, step.value, safe.value);
    NotRejected(b, sys, init.value, step.value, safe.value);
    PartsIndexed(b, sys, ix, init.value, step.value, safe.value);
    var vars := VarsOf(ix, size);
    ghost var g := SystemGraph(b, sys);
    SystemDiagrams(b, ix, sys, init.value, step.value, safe.value);
    var answer := SearchLayers(vars, BddFromEnumerated(init.value, ix, size), BddFromEnumerated(step.value, ix, size),
                         BddNot(vars, BddFromEnumerated(safe.value, ix, size)), depth, reversed, g);
    SoundAnswers(answer, b, sys, depth);
    SystemAnswers(answer, b, sys, depth);
    GrownAnswers(answer, b, sys, depth, reversed);
    r := Success(answer);
  }

  lemma SystemDiagrams(b: Bounds, ix: IndexMap, sys: System, init: Enumerated, step: Enumerated, safe: Enumerated)
    requires Proper(b) && Exact(ix, b.sig.relations, b.universe) && ix.copies == 2 && Extracted(sys, b.sig)
    requires EnumerateQuantifiers(TermAnd(sys.inits + sys.axioms), b.sig, b.universe) == Ok(init)
    requires EnumerateQuantifiers(TermAnd(sys.transitions + MutableAxioms(sys.axioms, b.sig.relations)), b.sig, b.universe) == Ok(step)
    requires EnumerateQuantifiers(TermAnd(sys.safeties), b.sig, b.universe) == Ok(safe)
    requires Lookups(init, ix) && Lookups(step, ix) && Lookups(safe, ix)
    ensures var size := NumVars(ix, b.sig.relations, b.universe); var vars := VarsOf(ix, size); var g := SystemGraph(b, sys);
            && Wide(vars, g)
            && Unprimed(vars, BddFromEnumerated(init, ix, size), g.start)
            && Relates(vars, BddFromEnumerated(step, ix, size), g.step)
            && Unprimed(vars, BddNot(vars, BddFromEnumerated(safe, ix, size)), g.target)
  {
    var size := NumVars(ix, b.sig.relations, b.universe);
    var vars := VarsOf(ix, size);
    NumberedVars(b, ix);
    GraphWide(b, ix, sys);
    hide Numbered, Proper, Exact, NumVars, Lookups, EnumerateQuantifiers, TermAnd, Enumerable, Extracted, Unprimed, Relates;
    hide BddFromEnumerated, Primes.UnrollingOf, FutureOnly, AllTrueAt, BuiltStep, Width;
    ProperDecls(b);
    PartsEnumerable(sys, b);
    StateDiagram(b, ix, vars, sys.inits + sys.axioms, init);
    StateDiagram(b, ix, vars, sys.safeties, safe);
    StepDiagram(b, ix, vars, sys, step);
  }
}
