/** The fixed-depth checker: unroll the system, translate to clauses, ask a solver. */
module SatChecker {
  import opened Collections
  import opened Syntax
  import opened Semantics
  import opened SortCheck
  import opened Primes
  import opened QuantEnum
  import opened QuantEnumSound
  import opened EnumeratedShapes
  import opened Indexing
  import opened Guarded
  import opened Translation
  import opened Diagrams
  import opened Tseytin
  import opened Orbits
  import opened Systems
  import opened Unrollings

  /** How the extraction sorts the statements of a module: only transitions look one step ahead. */
  ghost predicate Extracted(sys: System, sig: Signature) {
    && WellFormed(sys, sig)
    && (forall t | t in sys.inits + sys.axioms + sys.safeties :: FutureOnly(t) && UnrollingOf(t) == Finite(0))
    && (forall t | t in sys.transitions :: FutureOnly(t) && UnrollingOf(t) == Finite(1))
  }

  /** A step of the formula the symbolic checkers build: the axioms over mutable symbols are
      only required of the state before the step. */
  ghost predicate BuiltStep(b: Bounds, sys: System, s: State, s': State) {
    && Agreeing(b.ix.numMutables, s, s')
    && AllTrueStep(b, sys.transitions, s, s')
    && AllTrueAt(b, MutableAxioms(sys.axioms, b.sig.relations), s)
  }

  ghost predicate BuiltRun(b: Bounds, sys: System, run: seq<State>) {
    && run != [] && |run[0]| == Width(b)
    && AllTrueAt(b, sys.inits, run[0]) && AllTrueAt(b, sys.axioms, run[0])
    && forall i | 0 <= i < |run| - 1 :: BuiltStep(b, sys, run[i], run[i + 1])
  }

  ghost predicate BuiltViolation(b: Bounds, sys: System, run: seq<State>, depth: nat) {
    BuiltRun(b, sys, run) && |run| == depth + 1 && !AllTrueAt(b, sys.safeties, run[depth])
  }

  // The unrolled formula.

  function PrimedSteps(tr: Enumerated, depth: nat): (r: seq<Enumerated>)
    ensures |r| == depth && forall i | 0 <= i < depth :: r[i] == PrimeBy(tr, i)
  {
    seq(depth, i requires 0 <= i < depth => PrimeBy(tr, i))
  }

  function Unrolled(init: Enumerated, tr: Enumerated, safe: Enumerated, depth: nat): Enumerated {
    EAnd([init] + PrimedSteps(tr, depth) + [PrimeBy(ENot(safe), depth)])
  }

  ghost predicate StepsHold(step: Enumerated, tr: Trace, depth: nat) {
    forall i | 0 <= i < depth :: EnumHolds(step, tr, i)
  }

  lemma UnrolledHolds(init: Enumerated, step: Enumerated, safe: Enumerated, depth: nat, tr: Trace)
    ensures EnumHolds(Unrolled(init, step, safe, depth), tr, 0)
      <==> EnumHolds(init, tr, 0) && StepsHold(step, tr, depth) && !EnumHolds(safe, tr, depth)
  {
    hide EnumHolds, PrimeBy, AllHold;
    var steps, last := PrimedSteps(step, depth), PrimeBy(ENot(safe), depth);
    AndHolds([init] + steps + [last], tr, 0);
    AllHoldParts(init, steps, last, tr);
    PrimedHold(step, depth, tr);
    PrimeByHolds(ENot(safe), depth, tr, 0);
    NotHolds(safe, tr, depth);
  }

  lemma PrimedHold(step: Enumerated, depth: nat, tr: Trace)
    ensures AllHold(PrimedSteps(step, depth), tr, 0) <==> StepsHold(step, tr, depth)
  {
    hide EnumHolds, PrimeBy;
    var steps := PrimedSteps(step, depth);
    if AllHold(steps, tr, 0) {
      forall i | 0 <= i < depth ensures EnumHolds(step, tr, i) {
        assert steps[i] in steps;
        PrimeByHolds(step, i, tr, 0);
      }
    }
    if StepsHold(step, tr, depth) {
      forall x | x in steps ensures EnumHolds(x, tr, 0) {
        var i :| 0 <= i < depth && steps[i] == x;
        PrimeByHolds(step, i, tr, 0);
      }
    }
  }

  lemma AllHoldParts(first: Enumerated, middle: seq<Enumerated>, last: Enumerated, tr: Trace)
    ensures AllHold([first] + middle + [last], tr, 0)
      <==> EnumHolds(first, tr, 0) && AllHold(middle, tr, 0) && EnumHolds(last, tr, 0)
  {
    hide EnumHolds;
    var all := [first] + middle + [last];
    assert first in all && last in all && forall x | x in middle :: x in all;
    assert forall x | x in all :: x == first || x in middle || x == last;
  }

  lemma NotHolds(x: Enumerated, tr: Trace, k: nat)
    ensures EnumHolds(ENot(x), tr, k) <==> !EnumHolds(x, tr, k)
  {
  }

  // Its meaning over sequences of states.

  /** The ground formula of some terms, at a time of a run. */
  lemma EnumeratedAt(b: Bounds, ts: seq<Term>, e: Enumerated, run: seq<State>, k: nat)
    requires Proper(b) && StateSequence(b, run)
    requires forall t | t in ts :: Enumerable(t, b.sig)
    requires EnumerateQuantifiers(TermAnd(ts), b.sig, b.universe) == Ok(e)
    ensures EnumHolds(e, RunTrace(b, run), k) <==> AllTrue(ts, RunTrace(b, run), k)
  {
    hide EnumHolds, EnumerateQuantifiers, Proper, Eval, Enumerable, TermAnd, InterpOf, WellFormedTrace, Width;
    RunTraceWellFormed(b, run);
    ProperBool(b);
    TermAndEnumerable(ts, b.sig);
    EnumerationSound(TermAnd(ts), b.sig, RunTrace(b, run), k, e);
    TermAndTrue(ts, RunTrace(b, run), k);
  }

  lemma ProperBool(b: Bounds)
    requires Proper(b)
    ensures AllBool(b.sig.relations)
  {
  }

  lemma StatesTruth(b: Bounds, ts: seq<Term>, run: seq<State>, k: nat)
    requires k < |run| && forall t | t in ts :: FutureOnly(t) && UnrollingOf(t) == Finite(0)
    ensures AllTrue(ts, RunTrace(b, run), k) <==> AllTrueAt(b, ts, run[k])
  {
    hide Holds, TrueAt, FutureOnly, UnrollingOf, RunTrace;
    forall t | t in ts ensures Holds(t, RunTrace(b, run), k, map[]) <==> TrueAt(b, t, run[k]) {
      StateTruth(b, t, run, k);
    }
  }

  lemma StepsTruth(b: Bounds, sys: System, run: seq<State>, k: nat)
    requires k + 1 < |run| && Extracted(sys, b.sig) && StateSequence(b, run)
    ensures AllTrue(sys.transitions + MutableAxioms(sys.axioms, b.sig.relations), RunTrace(b, run), k)
      <==> BuiltStep(b, sys, run[k], run[k + 1])
  {
    hide Holds, TrueAt, TrueStep, FutureOnly, UnrollingOf, RunTrace, WellFormed, ContainsMutable, Width;
    var axioms := MutableAxioms(sys.axioms, b.sig.relations);
    assert forall t | t in sys.axioms :: t in sys.inits + sys.axioms + sys.safeties;
    StatesTruth(b, axioms, run, k);
    forall t | t in sys.transitions
      ensures Holds(t, RunTrace(b, run), k, map[]) <==> TrueStep(b, t, run[k], run[k + 1])
    {
      StepTruth(b, t, run, k);
    }
    assert forall t | t in sys.transitions :: t in sys.transitions + axioms;
    assert forall t | t in axioms :: t in sys.transitions + axioms;
    assert Agreeing(b.ix.numMutables, run[k], run[k + 1]);
  }

  /** The three ground formulas the unrolling is made of. */
  ghost predicate Enumerates(sys: System, b: Bounds, init: Enumerated, step: Enumerated, safe: Enumerated) {
    && EnumerateQuantifiers(TermAnd(sys.inits + sys.axioms), b.sig, b.universe) == Ok(init)
    && EnumerateQuantifiers(TermAnd(sys.transitions + MutableAxioms(sys.axioms, b.sig.relations)), b.sig, b.universe) == Ok(step)
    && EnumerateQuantifiers(TermAnd(sys.safeties), b.sig, b.universe) == Ok(safe)
  }

  /** Why the system cannot be built: one of its three formulas cannot be enumerated. */
  predicate EnumerationFails(sys: System, sig: Signature, universe: Universe, error: CheckerError) {
    || FailsWith(EnumerateQuantifiers(TermAnd(sys.inits + sys.axioms), sig, universe), error)
    || FailsWith(EnumerateQuantifiers(TermAnd(sys.transitions + MutableAxioms(sys.axioms, sig.relations)), sig, universe), error)
    || FailsWith(EnumerateQuantifiers(TermAnd(sys.safeties), sig, universe), error)
  }

  predicate FailsWith(r: Result<Enumerated>, error: CheckerError) {
    r.Err? && error == Enumeration(r.error)
  }

  /** The reasons not to check: a relation that is not boolean, or a formula that cannot be enumerated. */
  ghost predicate BuildRejected(b: Bounds, sys: System, error: CheckerError) {
    (error == Panic && !AllBool(b.sig.relations)) || EnumerationFails(sys, b.sig, b.universe, error)
  }

  lemma PartsEnumerable(sys: System, b: Bounds)
    requires Extracted(sys, b.sig) && AllBool(b.sig.relations)
    ensures forall t | t in sys.inits + sys.axioms :: Enumerable(t, b.sig)
    ensures forall t | t in sys.transitions + MutableAxioms(sys.axioms, b.sig.relations) :: Enumerable(t, b.sig)
    ensures forall t | t in sys.safeties :: Enumerable(t, b.sig)
    ensures forall t | t in sys.inits + sys.axioms :: FutureOnly(t) && UnrollingOf(t) == Finite(0)
    ensures forall t | t in sys.safeties :: FutureOnly(t) && UnrollingOf(t) == Finite(0)
  {
    hide Enumerable, ContainsMutable, FutureOnly, UnrollingOf;
    var all := sys.inits + sys.transitions + sys.axioms + sys.safeties;
    assert forall t | t in sys.safeties :: t in all && t in sys.inits + sys.axioms + sys.safeties;
    assert forall t | t in sys.axioms :: t in all && t in sys.inits + sys.axioms + sys.safeties;
    assert forall t | t in sys.transitions :: t in all;
    assert forall t | t in sys.inits :: t in all && t in sys.inits + sys.axioms + sys.safeties;
  }

  /** The unrolled formula holds along a sequence of states exactly when the sequence is a
      violation of the built system. */
  lemma UnrolledMeans(b: Bounds, sys: System, init: Enumerated, step: Enumerated, safe: Enumerated, depth: nat, run: seq<State>)
    requires Proper(b) && Extracted(sys, b.sig) && Enumerates(sys, b, init, step, safe)
    requires StateSequence(b, run) && |run| == depth + 1
    ensures EnumHolds(Unrolled(init, step, safe, depth), RunTrace(b, run), 0) <==> BuiltViolation(b, sys, run, depth)
  {
    hide EnumHolds, EnumerateQuantifiers, Proper, Extracted, Enumerable, TermAnd, RunTrace, BuiltStep, AllTrue;
    hide Width, AllTrueAt, FutureOnly, UnrollingOf, Unrolled, PrimeBy;
    var tr := RunTrace(b, run);
    ProperDecls(b);
    PartsEnumerable(sys, b);
    UnrolledHolds(init, step, safe, depth, tr);
    EnumeratedAt(b, sys.inits + sys.axioms, init, run, 0);
    StatesTruth(b, sys.inits + sys.axioms, run, 0);
    SplitAt(b, sys.inits, sys.axioms, run[0]);
    EnumeratedAt(b, sys.safeties, safe, run, depth);
    StatesTruth(b, sys.safeties, run, depth);
    StepsMean(b, sys, init, step, safe, run, depth);
    BuiltParts(b, sys, run, depth);
  }

  lemma StepMeans(b: Bounds, sys: System, init: Enumerated, step: Enumerated, safe: Enumerated, run: seq<State>, i: nat)
    requires Proper(b) && Extracted(sys, b.sig) && Enumerates(sys, b, init, step, safe)
    requires StateSequence(b, run) && i + 1 < |run|
    ensures EnumHolds(step, RunTrace(b, run), i) <==> BuiltStep(b, sys, run[i], run[i + 1])
  {
    hide EnumHolds, EnumerateQuantifiers, Proper, Extracted, Enumerable, TermAnd, RunTrace, BuiltStep, AllTrue, Width;
    hide FutureOnly, UnrollingOf;
    ProperDecls(b);
    PartsEnumerable(sys, b);
    EnumeratedAt(b, sys.transitions + MutableAxioms(sys.axioms, b.sig.relations), step, run, i);
    StepsTruth(b, sys, run, i);
  }

  lemma StepsMean(b: Bounds, sys: System, init: Enumerated, step: Enumerated, safe: Enumerated, run: seq<State>, depth: nat)
    requires Proper(b) && Extracted(sys, b.sig) && Enumerates(sys, b, init, step, safe)
    requires StateSequence(b, run) && |run| == depth + 1
    ensures StepsHold(step, RunTrace(b, run), depth) <==> BuiltSteps(b, sys, run)
  {
    hide EnumHolds, Enumerates, Proper, Extracted, RunTrace, BuiltStep, StateSequence;
    var tr := RunTrace(b, run);
    if StepsHold(step, tr, depth) {
      forall i | 0 <= i < |run| - 1 ensures BuiltStep(b, sys, run[i], run[i + 1]) {
        StepMeans(b, sys, init, step, safe, run, i);
        assert EnumHolds(step, tr, i);
      }
    }
    if BuiltSteps(b, sys, run) {
      forall i | 0 <= i < depth ensures EnumHolds(step, tr, i) {
        StepMeans(b, sys, init, step, safe, run, i);
        assert BuiltStep(b, sys, run[i], run[i + 1]);
      }
    }
  }

  ghost predicate BuiltSteps(b: Bounds, sys: System, run: seq<State>) {
    forall i | 0 <= i < |run| - 1 :: BuiltStep(b, sys, run[i], run[i + 1])
  }

  lemma BuiltParts(b: Bounds, sys: System, run: seq<State>, depth: nat)
    requires |run| == depth + 1 && |run[0]| == Width(b)
    ensures BuiltViolation(b, sys, run, depth)
      <==> AllTrueAt(b, sys.inits, run[0]) && AllTrueAt(b, sys.axioms, run[0]) && BuiltSteps(b, sys, run)
           && !AllTrueAt(b, sys.safeties, run[depth])
  {
    hide BuiltStep, AllTrueAt, Width;
  }

  lemma SplitAt(b: Bounds, xs: seq<Term>, ys: seq<Term>, s: State)
    ensures AllTrueAt(b, xs + ys, s) <==> AllTrueAt(b, xs, s) && AllTrueAt(b, ys, s)
  {
    hide TrueAt;
    assert forall x | x in xs :: x in xs + ys;
    assert forall y | y in ys :: y in xs + ys;
  }

  lemma {:induction false} BuiltRunSequence(b: Bounds, sys: System, run: seq<State>)
    requires BuiltRun(b, sys, run)
    ensures StateSequence(b, run)
    decreases |run|
  {
    hide Width, TrueStep, TrueAt;
    if |run| > 1 {
      var front := run[..|run| - 1];
      assert forall i | 0 <= i < |front| :: front[i] == run[i];
      BuiltRunSequence(b, sys, front);
      assert BuiltStep(b, sys, run[|run| - 2], run[|run| - 1]);
    }
  }

  // Valuations.

  lemma LookupsAreBelow(e: Enumerated, ix: IndexMap, relations: seq<RelationDecl>, universe: Universe)
    requires Exact(ix, relations, universe) && Lookups(e, ix)
    ensures LookupsBelow(e, ix, NumVars(ix, relations, universe))
    decreases e
  {
    hide Exact, NumVars, IndexMap.Get;
    match e
    case EAnd(xs) => forall x | x in xs { LookupsAreBelow(x, ix, relations, universe); }
    case EOr(xs) => forall x | x in xs { LookupsAreBelow(x, ix, relations, universe); }
    case ENot(x) => LookupsAreBelow(x, ix, relations, universe);
    case EEq(x, y) => LookupsAreBelow(x, ix, relations, universe); LookupsAreBelow(y, ix, relations, universe);
    case EApp(name, p, args) => IndexBelow(ix, relations, universe, (name, args), p);
  }

  // No lookup fails.

  lemma TermAndNoPrimes(ts: seq<Term>)
    requires forall t | t in ts :: NoPrimes(t)
    ensures NoPrimes(TermAnd(ts))
  {
    if |ts| == 1 {
      assert ts[0] in ts;
    } else {
      var parts := FlatConjuncts(ts);
      forall y | y in Flatten(parts) ensures NoPrimes(y) {
        FlattenMembers(parts, y);
        var i :| 0 <= i < |parts| && y in parts[i];
        assert ts[i] in ts;
      }
      var flat := Flatten(parts);
      assert forall i | 0 <= i < |flat| :: flat[i] in flat;
    }
  }

  lemma {:induction false} PrimedIndexed(e: Enumerated, ix: IndexMap, relations: seq<RelationDecl>, universe: Universe, k: nat)
    requires ProperNames(relations) && Exact(ix, relations, universe) && Known(e, relations, universe)
    requires k + 1 < ix.copies || (k < ix.copies && Unprimed(e))
    ensures Lookups(PrimeBy(e, k), ix)
    decreases e
  {
    hide Exact;
    match e
    case EAnd(xs) => forall i | 0 <= i < |xs| ensures Lookups(PrimeBy(xs[i], k), ix) { PrimedIndexed(xs[i], ix, relations, universe, k); }
    case EOr(xs) => forall i | 0 <= i < |xs| ensures Lookups(PrimeBy(xs[i], k), ix) { PrimedIndexed(xs[i], ix, relations, universe, k); }
    case ENot(x) => PrimedIndexed(x, ix, relations, universe, k);
    case EEq(x, y) => PrimedIndexed(x, ix, relations, universe, k); PrimedIndexed(y, ix, relations, universe, k);
    case EApp(name, _, args) => IndexedKeys(ix, relations, universe, name, args);
  }

  lemma {:induction false} PrimeByNone(e: Enumerated)
    ensures PrimeBy(e, 0) == e
    decreases e
  {
    match e
    case EAnd(xs) => forall i | 0 <= i < |xs| ensures PrimeBy(xs[i], 0) == xs[i] { PrimeByNone(xs[i]); }
    case EOr(xs) => forall i | 0 <= i < |xs| ensures PrimeBy(xs[i], 0) == xs[i] { PrimeByNone(xs[i]); }
    case ENot(x) => PrimeByNone(x);
    case EEq(x, y) => PrimeByNone(x); PrimeByNone(y);
    case EApp(_, _, _) =>
  }

  /** The formulas of the system are about declared symbols, and those of one state have no primes. */
  lemma PartsKnown(b: Bounds, sys: System, init: Enumerated, step: Enumerated, safe: Enumerated)
    requires Proper(b) && Extracted(sys, b.sig) && Enumerates(sys, b, init, step, safe)
    ensures Known(init, b.sig.relations, b.universe) && Known(step, b.sig.relations, b.universe) && Known(safe, b.sig.relations, b.universe)
    ensures Unprimed(init) && Unprimed(safe)
  {
    ProperDecls(b);
    PartsEnumerable(sys, b);
    hide Extracted, Enumerable, EnumerateQuantifiers, TermAnd, Known, Unprimed, NoPrimes, NegatesAtoms, UnrollingOf, FutureOnly, Exact;
    var inits, steps := sys.inits + sys.axioms, sys.transitions + MutableAxioms(sys.axioms, b.sig.relations);
    TermAndEnumerable(inits, b.sig);
    TermAndEnumerable(steps, b.sig);
    TermAndEnumerable(sys.safeties, b.sig);
    EnumerationShape(TermAnd(inits), b.sig, b.universe, init);
    EnumerationShape(TermAnd(steps), b.sig, b.universe, step);
    EnumerationShape(TermAnd(sys.safeties), b.sig, b.universe, safe);
    forall t | t in inits ensures NoPrimes(t) { NoUnrolling(t); }
    forall t | t in sys.safeties ensures NoPrimes(t) { NoUnrolling(t); }
    TermAndNoPrimes(inits);
    TermAndNoPrimes(sys.safeties);
    UnprimedShape(TermAnd(inits), b.sig, b.universe, init);
    UnprimedShape(TermAnd(sys.safeties), b.sig, b.universe, safe);
  }

  /** Every application of the unrolled formula has an index. */
  lemma ProgramIndexed(b: Bounds, sys: System, ix: IndexMap, init: Enumerated, step: Enumerated, safe: Enumerated, depth: nat)
    requires Proper(b) && Extracted(sys, b.sig) && Enumerates(sys, b, init, step, safe)
    requires Exact(ix, b.sig.relations, b.universe) && ix.copies == depth + 1
    ensures Lookups(Unrolled(init, step, safe, depth), ix)
  {
    PartsKnown(b, sys, init, step, safe);
    ProperDecls(b);
    hide *;
    PrimedIndexed(init, ix, b.sig.relations, b.universe, 0);
    PrimeByNone(init);
    forall i | 0 <= i < depth ensures Lookups(PrimeBy(step, i), ix) { PrimedIndexed(step, ix, b.sig.relations, b.universe, i); }
    PrimedIndexed(safe, ix, b.sig.relations, b.universe, depth);
    UnrolledIndexed(init, step, safe, depth, ix);
  }

  lemma UnrolledIndexed(init: Enumerated, step: Enumerated, safe: Enumerated, depth: nat, ix: IndexMap)
    requires Lookups(init, ix) && Lookups(PrimeBy(safe, depth), ix) && forall i | 0 <= i < depth :: Lookups(PrimeBy(step, i), ix)
    ensures Lookups(Unrolled(init, step, safe, depth), ix)
  {
    NotIndexed(safe, depth, ix);
    var parts := [init] + PrimedSteps(step, depth) + [PrimeBy(ENot(safe), depth)];
    AndIndexed(parts, ix);
    hide Lookups, PrimeBy;
    forall x | x in parts ensures Lookups(x, ix) {
      var j :| 0 <= j < |parts| && parts[j] == x;
    }
  }

  lemma AndIndexed(parts: seq<Enumerated>, ix: IndexMap)
    ensures Lookups(EAnd(parts), ix) <==> forall x | x in parts :: Lookups(x, ix)
  {
  }

  lemma NotIndexed(safe: Enumerated, depth: nat, ix: IndexMap)
    requires Lookups(PrimeBy(safe, depth), ix)
    ensures Lookups(PrimeBy(ENot(safe), depth), ix)
  {
  }

  /** A valuation accepted by the unrolled formula is a violation, state by state. */
  lemma AcceptedViolation(b: Bounds, ix: IndexMap, sys: System, init: Enumerated, step: Enumerated, safe: Enumerated,
                          depth: nat, v: State)
    requires Proper(b) && Extracted(sys, b.sig) && Enumerates(sys, b, init, step, safe)
    requires Exact(ix, b.sig.relations, b.universe) && ix.copies == depth + 1
    requires Lookups(Unrolled(init, step, safe, depth), ix)
    ensures Accepts(Unrolled(init, step, safe, depth), ix, v)
      <==> BuiltViolation(b, sys, StatesOf(v, b.ix.numMutables, depth + 1, Width(b)), depth)
  {
    hide *;
    var run := StatesOf(v, b.ix.numMutables, depth + 1, Width(b));
    StatesOfSequence(b, v, depth + 1);
    ValuationReads(b, ix, v, run);
    AcceptsSound(Unrolled(init, step, safe, depth), ix, v, RunTrace(b, run));
    UnrolledMeans(b, sys, init, step, safe, depth, run);
  }

  /** Every violation is the one of some valuation. */
  lemma ViolationAccepted(b: Bounds, ix: IndexMap, sys: System, init: Enumerated, step: Enumerated, safe: Enumerated,
                          depth: nat, run: seq<State>) returns (v: State)
    requires Proper(b) && Extracted(sys, b.sig) && Enumerates(sys, b, init, step, safe)
    requires Exact(ix, b.sig.relations, b.universe) && ix.copies == depth + 1
    requires Lookups(Unrolled(init, step, safe, depth), ix)
    requires BuiltViolation(b, sys, run, depth)
    ensures |v| == NumVars(ix, b.sig.relations, b.universe) && Accepts(Unrolled(init, step, safe, depth), ix, v)
  {
    hide Exact, Accepts, Lookups, Unrolled, Extracted, Enumerates, AllTrueAt, BuiltStep, KeysOf, WithMutability, StateOf, ValuationOf;
    var m, n := b.ix.numMutables, Width(b);
    BuiltRunSequence(b, sys, run);
    NumMutablesBelow(b, ix);
    v := ValuationOf(run, m, n);
    forall p | 0 <= p < |run| ensures StateOf(v, p, m, |run|, n) == run[p] { ValuationStates(b, run, p); }
    assert StatesOf(v, m, depth + 1, n) == run;
    AcceptedViolation(b, ix, sys, init, step, safe, depth, v);
  }

  lemma NumMutablesBelow(b: Bounds, ix: IndexMap)
    requires Proper(b) && Exact(ix, b.sig.relations, b.universe)
    ensures b.ix.numMutables <= Width(b) && ix.numMutables == b.ix.numMutables
    ensures NumVars(ix, b.sig.relations, b.universe) == b.ix.numMutables * ix.copies + Width(b) - b.ix.numMutables
  {
    hide KeysOf, WithMutability;
  }

  // The solver.

  /** Any model of the clauses, or none when there is none. */
  method Solve(cnf: Cnf, vars: nat) returns (model: Option<State>)
    ensures model.Some? ==> |model.value| == vars && CnfHolds(cnf, model.value)
    ensures model.None? ==> forall v | |v| == vars :: !CnfHolds(cnf, v)
  {
    var all := Valuations(vars);
    if v :| v in all && CnfHolds(cnf, v) { return Some(v); }
    model := None;
  }

  /** The model in copy `p` of the symbols. */
  function ModelAt(ix: IndexMap, v: State, p: nat): Interp {
    (name, es) => match ix.Get(name, p, es) case Some(i) => ToElement(Bit(v, i)) case None => 0
  }

  ghost predicate ModelsOf(b: Bounds, models: seq<Interp>, run: seq<State>) {
    |models| == |run|
    && forall p, name, es | 0 <= p < |run| :: models[p](name, es) == InterpOf(b.ix, run[p])(name, es)
  }

  lemma DecodedModels(b: Bounds, ix: IndexMap, v: State, models: seq<Interp>)
    requires Proper(b) && Exact(ix, b.sig.relations, b.universe) && |models| == ix.copies > 0
    requires forall p | 0 <= p < |models| :: models[p] == ModelAt(ix, v, p)
    ensures ModelsOf(b, models, StatesOf(v, b.ix.numMutables, ix.copies, Width(b)))
  {
    hide Exact, NumVars, StateOf;
    var run := StatesOf(v, b.ix.numMutables, ix.copies, Width(b));
    forall p, name, es | 0 <= p < |run| ensures models[p](name, es) == InterpOf(b.ix, run[p])(name, es) {
      DecodedBit(b, ix, v, p, name, es);
    }
  }

  lemma DecodedBit(b: Bounds, ix: IndexMap, v: State, p: nat, name: string, es: seq<Element>)
    requires Proper(b) && Exact(ix, b.sig.relations, b.universe) && p < ix.copies
    ensures ModelAt(ix, v, p)(name, es) == InterpOf(b.ix, StateOf(v, p, b.ix.numMutables, ix.copies, Width(b)))(name, es)
  {
    hide Exact, NumVars;
    CopyIndex(b, ix, (name, es), p);
    TableKeys(b, (name, es));
    if (name, es) in b.ix.table { IndexBelow(b.ix, b.sig.relations, b.universe, (name, es), 0); }
  }

  /** What an answer of the fixed-depth checker says. */
  ghost predicate DepthAnswer(r: Option<seq<Interp>>, b: Bounds, sys: System, depth: nat) {
    match r
    case Some(models) => exists run :: BuiltViolation(b, sys, run, depth) && ModelsOf(b, models, run)
    case None => forall run :: !BuiltViolation(b, sys, run, depth)
  }

  /** Whatever model the solver returns: the answer is a violation of the built system after
      exactly `depth` steps, or that there is none. */
  method Check(sys: System, sig: Signature, universe: Universe, depth: nat, ghost b: Bounds)
    returns (r: Outcome<Option<seq<Interp>>>)
    requires OneCopy(b) && b.sig == sig && b.universe == universe && Extracted(sys, sig)
    ensures r.Success? ==> Proper(b) && DepthAnswer(r.value, b, sys, depth) && SystemDepthAnswer(r.value, b, sys, depth)
    ensures r.Success? <==> forall error :: !BuildRejected(b, sys, error)
    ensures r.Failure? ==> BuildRejected(b, sys, r.error)
  {
    hide *;
    if !AllBool(sig.relations) {
      FoldRejected(b, sys, Panic);
      return Failure(Panic);
    }
    FoldProper(b);
    ProperDecls(b);
    var indices := new Indices(sig.relations, universe, depth + 1);
    var ix := indices.ix;
    var init := EnumerateQuantifiers(TermAnd(sys.inits + sys.axioms), sig, universe);
    if init.Err? {
      FailsWithItsError(init);
      FoldRejected(b, sys, Enumeration(init.error));
      return Failure(Enumeration(init.error));
    }
    var step := EnumerateQuantifiers(TermAnd(sys.transitions + MutableAxioms(sys.axioms, sig.relations)), sig, universe);
    if step.Err? {
      FailsWithItsError(step);
      FoldRejected(b, sys, Enumeration(step.error));
      return Failure(Enumeration(step.error));
    }
    var safe := EnumerateQuantifiers(TermAnd(sys.safeties), sig, universe);
    if safe.Err? {
      FailsWithItsError(safe);
      FoldRejected(b, sys, Enumeration(safe.error));
      return Failure(Enumeration(safe.error));
    }
    var program := Unrolled(init.value, step.value, safe.value, depth);
    FoldEnumerates(sys, b, init.value, step.value, safe.value);
    NotRejected(b, sys, init.value, step.value, safe.value);
    ProgramIndexed(b, sys, ix, init.value, step.value, safe.value, depth);
    LookupsAreBelow(program, ix, sig.relations, universe);
    var cnf := TranslateToCnf(program, indices);
    var model := Solve(cnf, indices.numVars);
    match model {
      case Some(v) =>
        var models := seq(depth + 1, (p: nat) => ModelAt(ix, v, p));
        FoundViolation(b, ix, sys, init.value, step.value, safe.value, depth, v, models);
        AnswersSystem(Some(models), b, sys, depth);
        r := Success(Some(models));
      case None =>
        NoViolation(b, ix, sys, init.value, step.value, safe.value, depth);
        AnswersSystem(None, b, sys, depth);
        r := Success(None);
    }
  }

  lemma FailsWithItsError(r: Result<Enumerated>)
    requires r.Err?
    ensures FailsWith(r, Enumeration(r.error))
  {
  }

  lemma FoldRejected(b: Bounds, sys: System, error: CheckerError)
    requires
      || (error == Panic && !AllBool(b.sig.relations))
      || FailsWith(EnumerateQuantifiers(TermAnd(sys.inits + sys.axioms), b.sig, b.universe), error)
      || FailsWith(EnumerateQuantifiers(TermAnd(sys.transitions + MutableAxioms(sys.axioms, b.sig.relations)), b.sig, b.universe), error)
      || FailsWith(EnumerateQuantifiers(TermAnd(sys.safeties), b.sig, b.universe), error)
    ensures BuildRejected(b, sys, error)
  {
    hide FailsWith, EnumerateQuantifiers, AllBool;
  }

  lemma NotRejected(b: Bounds, sys: System, init: Enumerated, step: Enumerated, safe: Enumerated)
    requires AllBool(b.sig.relations) && Enumerates(sys, b, init, step, safe)
    ensures forall error :: !BuildRejected(b, sys, error)
  {
    hide EnumerateQuantifiers, AllBool;
  }

  lemma FoldProper(b: Bounds)
    requires OneCopy(b) && AllBool(b.sig.relations)
    ensures Proper(b)
  {
    hide OneCopy, AllBool;
  }

  lemma ProperDecls(b: Bounds)
    requires Proper(b)
    ensures ProperNames(b.sig.relations) && AllBool(b.sig.relations)
  {
  }

  lemma FoldEnumerates(sys: System, b: Bounds, init: Enumerated, step: Enumerated, safe: Enumerated)
    requires EnumerateQuantifiers(TermAnd(sys.inits + sys.axioms), b.sig, b.universe) == Ok(init)
    requires EnumerateQuantifiers(TermAnd(sys.transitions + MutableAxioms(sys.axioms, b.sig.relations)), b.sig, b.universe) == Ok(step)
    requires EnumerateQuantifiers(TermAnd(sys.safeties), b.sig, b.universe) == Ok(safe)
    ensures Enumerates(sys, b, init, step, safe)
  {
  }

  lemma FoundViolation(b: Bounds, ix: IndexMap, sys: System, init: Enumerated, step: Enumerated, safe: Enumerated,
                       depth: nat, v: State, models: seq<Interp>)
    requires Proper(b) && Extracted(sys, b.sig) && Enumerates(sys, b, init, step, safe)
    requires Exact(ix, b.sig.relations, b.universe) && ix.copies == depth + 1
    requires Lookups(Unrolled(init, step, safe, depth), ix)
    requires LookupsBelow(Unrolled(init, step, safe, depth), ix, NumVars(ix, b.sig.relations, b.universe))
    requires |v| == Encode(Unrolled(init, step, safe, depth), ix, NumVars(ix, b.sig.relations, b.universe)).next
    requires CnfHolds(TseytinCnf(Unrolled(init, step, safe, depth), ix, NumVars(ix, b.sig.relations, b.universe)), v)
    requires |models| == depth + 1 && forall p | 0 <= p < |models| :: models[p] == ModelAt(ix, v, p)
    ensures DepthAnswer(Some(models), b, sys, depth)
  {
    hide Proper, Extracted, Enumerates, Exact, Lookups, LookupsBelow, CnfHolds, TseytinCnf, Encode, NumVars, Unrolled, Accepts, ModelAt;
    hide BuiltViolation, ModelsOf, StateOf;
    var n := NumVars(ix, b.sig.relations, b.universe);
    var program := Unrolled(init, step, safe, depth);
    TseytinExact(program, ix, n, v);
    AcceptsPrefix(program, ix, n, v);
    AcceptedViolation(b, ix, sys, init, step, safe, depth, v);
    DecodedModels(b, ix, v, models);
  }

  lemma NoViolation(b: Bounds, ix: IndexMap, sys: System, init: Enumerated, step: Enumerated, safe: Enumerated, depth: nat)
    requires Proper(b) && Extracted(sys, b.sig) && Enumerates(sys, b, init, step, safe)
    requires Exact(ix, b.sig.relations, b.universe) && ix.copies == depth + 1
    requires Lookups(Unrolled(init, step, safe, depth), ix)
    requires LookupsBelow(Unrolled(init, step, safe, depth), ix, NumVars(ix, b.sig.relations, b.universe))
    requires forall v | |v| == Encode(Unrolled(init, step, safe, depth), ix, NumVars(ix, b.sig.relations, b.universe)).next ::
      !CnfHolds(TseytinCnf(Unrolled(init, step, safe, depth), ix, NumVars(ix, b.sig.relations, b.universe)), v)
    ensures DepthAnswer(None, b, sys, depth)
  {
    hide Proper, Extracted, Enumerates, Exact, Lookups, LookupsBelow, CnfHolds, TseytinCnf, Encode, NumVars, Unrolled, Accepts;
    hide BuiltViolation, NewBits;
    var n := NumVars(ix, b.sig.relations, b.universe);
    var program := Unrolled(init, step, safe, depth);
    forall run | BuiltViolation(b, sys, run, depth) ensures false {
      var v := ViolationAccepted(b, ix, sys, init, step, safe, depth, run);
      var w := v + NewBits(program, ix, v);
      BitCount(program, ix, n, v);
      assert w[..n] == v;
      TseytinExact(program, ix, n, w);
    }
  }

  // How the built system relates to the system itself.

  /** A violation of the built system is one of the system exactly when its last state has the
      axioms over mutable symbols. */
  lemma BuiltViolationIsReal(b: Bounds, sys: System, run: seq<State>, depth: nat)
    requires Proper(b) && (sys.transitions != [] || depth == 0)
    ensures Violation(b, sys, run) && |run| == depth + 1
      <==> BuiltViolation(b, sys, run, depth) && AllTrueAt(b, MutableAxioms(sys.axioms, b.sig.relations), run[depth])
  {
    hide Proper, TrueAt, TrueStep, ContainsMutable, Width;
    if Violation(b, sys, run) && |run| == depth + 1 {
      ExecutionBuilt(b, sys, run);
    }
    if BuiltViolation(b, sys, run, depth) && AllTrueAt(b, MutableAxioms(sys.axioms, b.sig.relations), run[depth]) {
      BuiltExecution(b, sys, run);
    }
  }

  /** No execution with `depth` states has a step of the built system to an unsafe state that lacks
      an axiom. */
  ghost predicate NoUnsafeExit(b: Bounds, sys: System, depth: nat) {
    forall run, s' | Execution(b, sys, run) && |run| == depth && BuiltStep(b, sys, run[|run| - 1], s') && !AllTrueAt(b, sys.safeties, s') ::
      AllTrueAt(b, MutableAxioms(sys.axioms, b.sig.relations), s')
  }

  /** All violations of the built system of a depth are real exactly when no execution before has such
      an exit. */
  lemma BuiltViolationsReal(b: Bounds, sys: System, depth: nat)
    requires Proper(b) && (sys.transitions != [] || depth == 0)
    ensures (forall run | BuiltViolation(b, sys, run, depth) :: Violation(b, sys, run)) <==> NoUnsafeExit(b, sys, depth)
  {
    hide Proper, Execution, BuiltRun, BuiltStep, AllTrueAt;
    if NoUnsafeExit(b, sys, depth) {
      forall run | BuiltViolation(b, sys, run, depth) ensures Violation(b, sys, run) {
        if depth > 0 { ExitBeforeLast(b, sys, run, depth); } else { StartHasAxioms(b, sys, run); }
        BuiltViolationIsReal(b, sys, run, depth);
      }
    }
    if forall run | BuiltViolation(b, sys, run, depth) :: Violation(b, sys, run) {
      forall run, s' | Execution(b, sys, run) && run != [] && |run| == depth && BuiltStep(b, sys, run[|run| - 1], s')
                       && !AllTrueAt(b, sys.safeties, s')
        ensures AllTrueAt(b, MutableAxioms(sys.axioms, b.sig.relations), s')
      {
        ExitIsViolation(b, sys, run, s');
        BuiltViolationIsReal(b, sys, run + [s'], depth);
      }
      assert NoUnsafeExit(b, sys, depth) by { ExecutionsNonEmpty(b, sys); }
    }
  }

  lemma ExecutionsNonEmpty(b: Bounds, sys: System)
    ensures forall run | Execution(b, sys, run) :: run != []
  {
  }

  lemma StartHasAxioms(b: Bounds, sys: System, run: seq<State>)
    requires BuiltRun(b, sys, run)
    ensures AllTrueAt(b, MutableAxioms(sys.axioms, b.sig.relations), run[0])
  {
    hide TrueAt, ContainsMutable, BuiltStep, Width;
  }

  lemma BuiltFront(b: Bounds, sys: System, run: seq<State>)
    requires |run| > 1 && BuiltRun(b, sys, run)
    ensures BuiltRun(b, sys, run[..|run| - 1]) && BuiltStep(b, sys, run[|run| - 2], run[|run| - 1])
    ensures AllTrueAt(b, MutableAxioms(sys.axioms, b.sig.relations), run[|run| - 2])
  {
    hide AllTrueAt, AllTrueStep, Width;
    var front := run[..|run| - 1];
    assert forall i | 0 <= i < |front| :: front[i] == run[i];
    assert BuiltStep(b, sys, run[|run| - 2], run[|run| - 1]);
  }

  /** Up to its last state a violation of the built system is an execution. */
  lemma ExitBeforeLast(b: Bounds, sys: System, run: seq<State>, depth: nat)
    requires Proper(b) && depth > 0 && sys.transitions != [] && BuiltViolation(b, sys, run, depth) && NoUnsafeExit(b, sys, depth)
    ensures AllTrueAt(b, MutableAxioms(sys.axioms, b.sig.relations), run[depth])
  {
    hide Proper, Execution, BuiltRun, BuiltStep, AllTrueAt;
    var front := run[..depth];
    BuiltFront(b, sys, run);
    assert front == run[..|run| - 1] && front[depth - 1] == run[depth - 1];
    BuiltExecution(b, sys, front);
  }

  lemma ExitIsViolation(b: Bounds, sys: System, run: seq<State>, s': State)
    requires Execution(b, sys, run) && BuiltStep(b, sys, run[|run| - 1], s') && !AllTrueAt(b, sys.safeties, s')
    ensures BuiltViolation(b, sys, run + [s'], |run|)
  {
    ExecutionBuilt(b, sys, run);
    hide AllTrueAt, BuiltStep, Execution, Width;
    var longer := run + [s'];
    assert forall i | 0 <= i < |run| :: longer[i] == run[i];
    forall i | 0 <= i < |longer| - 1 ensures BuiltStep(b, sys, longer[i], longer[i + 1]) {
      assert i < |run| - 1 ==> BuiltStep(b, sys, run[i], run[i + 1]);
    }
  }

  /** Without axioms over mutable symbols nothing is lost: the violations are the same. */
  lemma NoMutableAxioms(b: Bounds, sys: System, depth: nat)
    requires Proper(b) && (sys.transitions != [] || depth == 0) && MutableAxioms(sys.axioms, b.sig.relations) == []
    ensures NoUnsafeExit(b, sys, depth)
    ensures forall run :: BuiltViolation(b, sys, run, depth) <==> Violation(b, sys, run) && |run| == depth + 1
  {
    hide Proper, Execution, BuiltRun, BuiltStep, TrueAt, MutableAxioms;
    forall run ensures BuiltViolation(b, sys, run, depth) <==> Violation(b, sys, run) && |run| == depth + 1 {
      BuiltViolationIsReal(b, sys, run, depth);
    }
  }

  /** A violation of the system is always one of the built system. */
  lemma ViolationBuilt(b: Bounds, sys: System, run: seq<State>)
    requires Violation(b, sys, run)
    ensures BuiltViolation(b, sys, run, |run| - 1)
  {
    hide Execution, BuiltRun, AllTrueAt;
    ExecutionsNonEmpty(b, sys);
    ExecutionBuilt(b, sys, run);
  }

  // Systems without a transition formula.

  /** From an initial state the mutable symbols can change to an unsafe state. */
  ghost predicate Jumps(b: Bounds, sys: System) {
    exists s, s' :: BuiltRun(b, sys, [s]) && Agreeing(b.ix.numMutables, s, s') && !AllTrueAt(b, sys.safeties, s')
  }

  /** Without a transition formula the built system steps anywhere the immutable symbols allow, and the
      system not at all. */
  lemma IdleViolations(b: Bounds, sys: System, depth: nat)
    requires sys.transitions == [] && depth > 0
    ensures (exists run :: BuiltViolation(b, sys, run, depth)) <==> Jumps(b, sys)
    ensures forall run :: !(Violation(b, sys, run) && |run| == depth + 1)
  {
    hide AllTrueAt, BuiltRun, Width;
    if run :| BuiltViolation(b, sys, run, depth) {
      IdleStart(b, sys, run);
      assert Agreeing(b.ix.numMutables, run[0], run[depth]);
    }
    if Jumps(b, sys) {
      var s, s' :| BuiltRun(b, sys, [s]) && Agreeing(b.ix.numMutables, s, s') && !AllTrueAt(b, sys.safeties, s');
      IdleJump(b, sys, s, s', depth);
    }
    forall run | Violation(b, sys, run) ensures |run| < 2 { IdleLength(b, sys, run); }
  }

  lemma IdleLength(b: Bounds, sys: System, run: seq<State>)
    requires sys.transitions == [] && Execution(b, sys, run)
    ensures |run| == 1
  {
    hide AllTrueAt, Width;
    assert |run| > 1 ==> SystemStep(b, sys, run[0], run[1]);
  }

  lemma {:induction false} IdleStart(b: Bounds, sys: System, run: seq<State>)
    requires BuiltRun(b, sys, run)
    ensures BuiltRun(b, sys, [run[0]]) && Agreeing(b.ix.numMutables, run[0], run[|run| - 1])
    decreases |run|
  {
    hide AllTrueAt, AllTrueStep, Width;
    if |run| > 1 {
      BuiltFront(b, sys, run);
      IdleStart(b, sys, run[..|run| - 1]);
    }
  }

  lemma IdleJump(b: Bounds, sys: System, s: State, s': State, depth: nat)
    requires sys.transitions == [] && depth > 0
    requires BuiltRun(b, sys, [s]) && Agreeing(b.ix.numMutables, s, s') && !AllTrueAt(b, sys.safeties, s')
    ensures exists run :: BuiltViolation(b, sys, run, depth)
  {
    hide AllTrueAt, Width;
    var run := seq(depth, _ => s) + [s'];
    StartHasAxioms(b, sys, [s]);
    forall i | 0 <= i < depth ensures BuiltStep(b, sys, run[i], run[i + 1]) {
      assert run[i] == s && (run[i + 1] == s || run[i + 1] == s');
    }
    assert BuiltViolation(b, sys, run, depth);
  }

  // What the answers say about the system itself.

  /** No answer misses a violation of the system, and a reported run is one unless it can leave the axioms
      with its last step. */
  ghost predicate SystemDepthAnswer(r: Option<seq<Interp>>, b: Bounds, sys: System, depth: nat) {
    match r
    case Some(models) =>
      (sys.transitions != [] || depth == 0) && NoUnsafeExit(b, sys, depth) ==>
        exists run :: Violation(b, sys, run) && |run| == depth + 1 && ModelsOf(b, models, run)
    case None => forall run | Violation(b, sys, run) :: |run| != depth + 1
  }

  lemma AnswersSystem(r: Option<seq<Interp>>, b: Bounds, sys: System, depth: nat)
    requires Proper(b) && DepthAnswer(r, b, sys, depth)
    ensures SystemDepthAnswer(r, b, sys, depth)
  {
    hide Proper, Execution, BuiltRun, AllTrueAt, NoUnsafeExit, ModelsOf;
    match r {
      case Some(models) =>
        var run :| BuiltViolation(b, sys, run, depth) && ModelsOf(b, models, run);
        if (sys.transitions != [] || depth == 0) && NoUnsafeExit(b, sys, depth) { BuiltViolationsReal(b, sys, depth); }
      case None =>
        forall run | Violation(b, sys, run) ensures |run| != depth + 1 { ViolationBuilt(b, sys, run); }
    }
  }

  lemma ExecutionBuilt(b: Bounds, sys: System, run: seq<State>)
    requires Execution(b, sys, run)
    ensures BuiltRun(b, sys, run) && AllTrueAt(b, MutableAxioms(sys.axioms, b.sig.relations), run[|run| - 1])
  {
    hide Width, TrueAt, TrueStep, ContainsMutable;
    forall i | 0 <= i < |run| ensures AllTrueAt(b, sys.axioms, run[i]) {
      if i > 0 { assert SystemStep(b, sys, run[i - 1], run[i]); }
    }
    forall i | 0 <= i < |run| - 1 ensures BuiltStep(b, sys, run[i], run[i + 1]) {
      assert SystemStep(b, sys, run[i], run[i + 1]);
      assert AllTrueAt(b, sys.axioms, run[i]);
    }
    assert AllTrueAt(b, sys.axioms, run[|run| - 1]);
  }

  lemma BuiltExecution(b: Bounds, sys: System, run: seq<State>)
    requires Proper(b) && BuiltRun(b, sys, run) && (sys.transitions != [] || |run| == 1)
    requires AllTrueAt(b, MutableAxioms(sys.axioms, b.sig.relations), run[|run| - 1])
    ensures Execution(b, sys, run)
  {
    hide Proper, Width, TrueAt, TrueStep, ContainsMutable;
    BuiltRunSequence(b, sys, run);
    forall i | 0 <= i < |run| ensures AllTrueAt(b, sys.axioms, run[i]) {
      assert i < |run| - 1 ==> BuiltStep(b, sys, run[i], run[i + 1]);
      forall t | t in sys.axioms ensures TrueAt(b, t, run[i]) {
        if ContainsMutable(t, b.sig.relations) {
          assert t in MutableAxioms(sys.axioms, b.sig.relations);
        } else {
          ImmutableAxiom(b, t, run[0], run[i]);
        }
      }
    }
    forall i | 0 <= i < |run| - 1 ensures SystemStep(b, sys, run[i], run[i + 1]) {
      assert BuiltStep(b, sys, run[i], run[i + 1]);
    }
  }

  /** The condition is needed: one mutable flag that the axiom forbids and the step sets is a
      violation of the built system, while the system itself has none. */
  lemma SpuriousViolation() returns (b: Bounds, sys: System, run: seq<State>)
    ensures Proper(b) && Extracted(sys, b.sig) && |sys.transitions| == 1
    ensures BuiltViolation(b, sys, run, 1)
    ensures forall other :: !Violation(b, sys, other)
  {
    var flag := RelationDecl(true, "p", [], Bool);
    var off := UnaryOp(Not, Id("p"));
    b := Bounds(Signature([], [flag]), [], (s: Sort) => 2, IndexMap(1, 1, map[("p", []) := (0, true)]));
    sys := System([], [UnaryOp(Prime, Id("p"))], [off], [off]);
    run := [[false], [true]];
    FlagProper(b, flag);
    FlagExtracted(b, sys, flag, off);
    FlagSteps(b, sys, flag, off, run);
    forall other ensures !Violation(b, sys, other) {
      if Execution(b, sys, other) { LastHasAxioms(b, sys, other); }
    }
  }

  /** Without a transition formula the built system may set the flag, and the system does not step. */
  lemma IdleSpuriousViolation() returns (b: Bounds, sys: System, run: seq<State>)
    ensures Proper(b) && Extracted(sys, b.sig) && sys.transitions == [] && MutableAxioms(sys.axioms, b.sig.relations) == []
    ensures BuiltViolation(b, sys, run, 1)
    ensures forall other :: !Violation(b, sys, other)
  {
    var flag := RelationDecl(true, "p", [], Bool);
    var off := UnaryOp(Not, Id("p"));
    b := Bounds(Signature([], [flag]), [], (s: Sort) => 2, IndexMap(1, 1, map[("p", []) := (0, true)]));
    sys := System([off], [], [], [off]);
    run := [[false], [true]];
    FlagProper(b, flag);
    IdleExtracted(b, sys, flag, off);
    FlagValue(b, run[0], run[0], off);
    FlagValue(b, run[1], run[1], off);
    assert off in sys.safeties;
    assert BuiltStep(b, sys, run[0], run[1]);
    forall other ensures !Violation(b, sys, other) {
      if Execution(b, sys, other) {
        IdleLength(b, sys, other);
        assert AllTrueAt(b, sys.safeties, other[0]);
      }
    }
  }

  lemma IdleExtracted(b: Bounds, sys: System, flag: RelationDecl, off: Term)
    requires flag == RelationDecl(true, "p", [], Bool) && off == UnaryOp(Not, Id("p"))
    requires b.sig == Signature([], [flag]) && sys == System([off], [], [], [off])
    ensures Extracted(sys, b.sig)
  {
    assert sys.inits + sys.transitions + sys.axioms + sys.safeties == [off, off];
    assert sys.inits + sys.axioms + sys.safeties == [off, off];
    assert UnrollingOf(Id("p")) == Finite(0);
    FlagEnumerable(b.sig, flag, off);
    assert forall t | t in [off, off] :: t == off;
  }

  lemma FlagProper(b: Bounds, flag: RelationDecl)
    requires flag == RelationDecl(true, "p", [], Bool)
    requires b.sig.relations == [flag] && b.sorts == [] && b.universe(Bool) == 2
    requires b.ix == IndexMap(1, 1, map[("p", []) := (0, true)])
    ensures Proper(b) && Width(b) == 1
  {
    assert WithMutability([flag], true) == [flag] + WithMutability([], true);
    assert WithMutability([flag], false) == [] + WithMutability([], false);
    assert ArgShape(b.universe, flag) == [];
    assert Product([]) == [[]];
    assert KeysOf([flag], b.universe) == KeysOfDecl("p", [[]]) + KeysOf([], b.universe);
    assert KeysOfDecl("p", [[]]) == [("p", [])];
    assert KeysOf([], b.universe) == [];
    assert TrimPrimes("p") == "p";
  }

  lemma FlagExtracted(b: Bounds, sys: System, flag: RelationDecl, off: Term)
    requires flag == RelationDecl(true, "p", [], Bool) && off == UnaryOp(Not, Id("p"))
    requires b.sig == Signature([], [flag])
    requires sys == System([], [UnaryOp(Prime, Id("p"))], [off], [off])
    ensures Extracted(sys, b.sig)
  {
    var scope := ScopeOf(b.sig.relations);
    assert FindDecl([flag], "p") == Some(flag);
    assert SortOf(Id("p"), scope) == Some(Bool);
    assert sys.inits + sys.transitions + sys.axioms + sys.safeties == [UnaryOp(Prime, Id("p")), off, off];
    assert sys.inits + sys.axioms + sys.safeties == [off, off];
    assert UnrollingOf(Id("p")) == Finite(0);
    FlagEnumerable(b.sig, flag, off);
    assert forall t | t in [UnaryOp(Prime, Id("p")), off, off] :: t == off || t == UnaryOp(Prime, Id("p"));
  }

  lemma FlagEnumerable(sig: Signature, flag: RelationDecl, off: Term)
    requires flag == RelationDecl(true, "p", [], Bool) && off == UnaryOp(Not, Id("p")) && sig == Signature([], [flag])
    ensures Enumerable(off, sig) && Enumerable(UnaryOp(Prime, Id("p")), sig)
  {
    var scope := ScopeOf(sig.relations);
    assert FindDecl([flag], "p") == Some(flag);
    assert SortOf(Id("p"), scope) == Some(Bool);
    assert IteBool(Id("p"), scope) && NoCapture(Id("p"), RelationNames(sig.relations)) && PastUnprimed(Id("p"), 0);
  }

  lemma FlagSteps(b: Bounds, sys: System, flag: RelationDecl, off: Term, run: seq<State>)
    requires flag == RelationDecl(true, "p", [], Bool) && off == UnaryOp(Not, Id("p"))
    requires b.sig.relations == [flag] && b.ix == IndexMap(1, 1, map[("p", []) := (0, true)]) && Width(b) == 1
    requires sys == System([], [UnaryOp(Prime, Id("p"))], [off], [off]) && run == [[false], [true]]
    ensures BuiltViolation(b, sys, run, 1)
  {
    FlagValue(b, run[0], run[0], off);
    FlagValue(b, run[1], run[1], off);
    FlagValue(b, run[0], run[1], off);
    assert off in sys.safeties;
    assert AllTrueAt(b, MutableAxioms(sys.axioms, b.sig.relations), run[0]);
    assert BuiltStep(b, sys, run[0], run[1]);
  }

  lemma FlagValue(b: Bounds, s: State, s': State, off: Term)
    requires off == UnaryOp(Not, Id("p")) && b.ix == IndexMap(1, 1, map[("p", []) := (0, true)])
    ensures Holds(off, PairTrace(b.ix, b.universe, s, s'), 0, map[]) <==> !Bit(s, 0)
    ensures Holds(UnaryOp(Prime, Id("p")), PairTrace(b.ix, b.universe, s, s'), 0, map[]) <==> Bit(s', 0)
  {
    var tr := PairTrace(b.ix, b.universe, s, s');
    FlagBit(b, s);
    FlagBit(b, s');
    hide PairTrace, InterpOf, IndexMap.Get;
    PairStates(b, s, s');
    IdValue("p", tr, 0);
    IdValue("p", tr, 1);
    UnaryEval(Not, Id("p"), tr, 0, map[]);
    UnaryEval(Prime, Id("p"), tr, 0, map[]);
  }

  lemma PairStates(b: Bounds, s: State, s': State)
    ensures PairTrace(b.ix, b.universe, s, s').at(0) == InterpOf(b.ix, s)
    ensures PairTrace(b.ix, b.universe, s, s').at(1) == InterpOf(b.ix, s')
  {
  }

  lemma IdValue(name: string, tr: Trace, k: nat)
    ensures Eval(Id(name), tr, k, map[]) == tr.at(k)(name, [])
  {
  }

  lemma FlagBit(b: Bounds, s: State)
    requires b.ix == IndexMap(1, 1, map[("p", []) := (0, true)])
    ensures InterpOf(b.ix, s)("p", []) == ToElement(Bit(s, 0))
  {
    var none: seq<Element> := [];
    assert ("p", none) in b.ix.table && b.ix.table[("p", none)] == (0, true);
    assert b.ix.Get("p", 0, none) == Some(0);
  }

  lemma LastHasAxioms(b: Bounds, sys: System, run: seq<State>)
    requires Execution(b, sys, run)
    ensures AllTrueAt(b, sys.axioms, run[|run| - 1])
  {
    hide Width, TrueAt, TrueStep;
    if |run| > 1 { assert SystemStep(b, sys, run[|run| - 2], run[|run| - 1]); }
  }
}
