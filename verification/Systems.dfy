/** First-order transition systems over a bounded universe: their parts, and what an
    execution is. */
module Systems {
  import opened Collections
  import opened Syntax
  import opened Semantics
  import opened SortCheck
  import opened Indexing
  import opened Guarded
  import opened Translation
  import opened QuantEnumSound
  import opened Orbits
  import opened Permutations
  import Search

  datatype System = System(inits: seq<Term>, transitions: seq<Term>, axioms: seq<Term>, safeties: seq<Term>)

  // Conjunction.

  function FlatConjuncts(ts: seq<Term>): seq<seq<Term>> {
    seq(|ts|, i requires 0 <= i < |ts| => if ts[i].NAryOp? && ts[i].nop == And then ts[i].args else [ts[i]])
  }

  /** None and one conjunct are special, and conjuncts that are conjunctions are flattened. */
  function TermAnd(ts: seq<Term>): Term {
    if ts == [] then Literal(true)
    else if |ts| == 1 then ts[0]
    else NAryOp(And, Flatten(FlatConjuncts(ts)))
  }

  ghost predicate AllTrue(ts: seq<Term>, tr: Trace, k: nat) {
    forall t | t in ts :: Holds(t, tr, k, map[])
  }

  lemma ConjunctionTrue(args: seq<Term>, tr: Trace, k: nat)
    ensures Holds(NAryOp(And, args), tr, k, map[]) <==> AllTrue(args, tr, k)
  {
    var vs := EvalAll(args, tr, k, map[]);
    assert Holds(NAryOp(And, args), tr, k, map[]) <==> forall v | v in vs :: v == 1;
    assert forall i | 0 <= i < |args| :: args[i] in args && vs[i] in vs;
  }

  lemma FlatTrue(ts: seq<Term>, tr: Trace, k: nat)
    ensures AllTrue(Flatten(FlatConjuncts(ts)), tr, k) <==> AllTrue(ts, tr, k)
  {
    hide Holds;
    var parts := FlatConjuncts(ts);
    forall i | 0 <= i < |ts| ensures Holds(ts[i], tr, k, map[]) <==> AllTrue(parts[i], tr, k) {
      if ts[i].NAryOp? && ts[i].nop == And { ConjunctionTrue(ts[i].args, tr, k); }
    }
    if AllTrue(Flatten(parts), tr, k) {
      forall t | t in ts ensures Holds(t, tr, k, map[]) {
        var i :| 0 <= i < |ts| && t == ts[i];
        forall y | y in parts[i] ensures Holds(y, tr, k, map[]) { FlattenMembers(parts, y); }
      }
    }
    if AllTrue(ts, tr, k) {
      forall y | y in Flatten(parts) ensures Holds(y, tr, k, map[]) {
        FlattenMembers(parts, y);
        var i :| 0 <= i < |parts| && y in parts[i];
        assert ts[i] in ts;
      }
    }
  }

  /** The conjunction is true when all its conjuncts are. */
  lemma TermAndTrue(ts: seq<Term>, tr: Trace, k: nat)
    ensures Holds(TermAnd(ts), tr, k, map[]) <==> AllTrue(ts, tr, k)
  {
    if ts == [] {
    } else if |ts| == 1 {
      hide Holds;
      assert ts[0] in ts;
    } else {
      hide Holds;
      FlatTrue(ts, tr, k);
      ConjunctionTrue(Flatten(FlatConjuncts(ts)), tr, k);
    }
  }

  lemma EnumerableAnd(args: seq<Term>, sig: Signature)
    ensures Enumerable(NAryOp(And, args), sig) && AllBool(sig.relations)
      <==> AllBool(sig.relations) && forall t | t in args :: Enumerable(t, sig)
  {
    assert forall i | 0 <= i < |args| :: args[i] in args;
  }

  lemma TermAndEnumerable(ts: seq<Term>, sig: Signature)
    requires AllBool(sig.relations)
    requires forall t | t in ts :: Enumerable(t, sig)
    ensures Enumerable(TermAnd(ts), sig)
  {
    if ts == [] {
    } else if |ts| == 1 {
      assert ts[0] in ts;
    } else {
      hide Enumerable;
      var parts := FlatConjuncts(ts);
      forall y | y in Flatten(parts) ensures Enumerable(y, sig) {
        FlattenMembers(parts, y);
        var i :| 0 <= i < |parts| && y in parts[i];
        assert ts[i] in ts;
        if ts[i].NAryOp? && ts[i].nop == And { EnumerableAnd(ts[i].args, sig); }
      }
      EnumerableAnd(Flatten(parts), sig);
    }
  }

  // Axioms over immutable symbols.

  predicate MutableName(name: string, relations: seq<RelationDecl>) {
    exists d | d in relations :: d.name == name && d.mutable
  }

  predicate ContainsMutable(t: Term, relations: seq<RelationDecl>) {
    match t
    case Literal(_) => false
    case Id(name) => MutableName(name, relations)
    case App(f, _, args) => MutableName(f, relations) || exists i | 0 <= i < |args| :: ContainsMutable(args[i], relations)
    case UnaryOp(_, x) => ContainsMutable(x, relations)
    case BinOp(_, x, y) => ContainsMutable(x, relations) || ContainsMutable(y, relations)
    case NAryOp(_, args) => exists i | 0 <= i < |args| :: ContainsMutable(args[i], relations)
    case Ite(c, x, y) => ContainsMutable(c, relations) || ContainsMutable(x, relations) || ContainsMutable(y, relations)
    case Quantified(_, _, body) => ContainsMutable(body, relations)
  }

  function MutableAxioms(axioms: seq<Term>, relations: seq<RelationDecl>): (r: seq<Term>)
    ensures forall t :: t in r <==> t in axioms && ContainsMutable(t, relations)
  {
    if axioms == [] then []
    else (if ContainsMutable(axioms[0], relations) then [axioms[0]] else []) + MutableAxioms(axioms[1..], relations)
  }

  /** The traces have the same universe and the same immutable symbols. */
  ghost predicate SameImmutables(relations: seq<RelationDecl>, tr: Trace, tr': Trace) {
    && tr.universe == tr'.universe
    && forall j: nat, name, es | !MutableName(name, relations) :: tr.at(j)(name, es) == tr'.at(j)(name, es)
  }

  /** The value of a term without mutable relations depends on the immutable symbols only. */
  lemma {:induction false} ImmutableValue(t: Term, relations: seq<RelationDecl>, tr: Trace, tr': Trace, k: nat, asg: Assignment)
    requires !ContainsMutable(t, relations) && SameImmutables(relations, tr, tr')
    ensures Eval(t, tr, k, asg) == Eval(t, tr', k, asg)
    decreases t, 1
  {
    match t
    case Literal(_) =>
    case Id(name) =>
    case App(_, _, args) => ImmutableValues(args, relations, tr, tr', k, asg);
    case UnaryOp(op, x) =>
      ImmutableAlways(x, relations, tr, tr', asg);
      UnaryShift(op, x, tr, asg, x, tr', asg, 0, k);
    case BinOp(op, x, y) =>
      ImmutableAlways(x, relations, tr, tr', asg);
      ImmutableAlways(y, relations, tr, tr', asg);
      BinaryShift(op, x, y, tr, asg, x, y, tr', asg, 0, k);
    case NAryOp(_, args) => ImmutableValues(args, relations, tr, tr', k, asg);
    case Ite(c, x, y) =>
      ImmutableValue(c, relations, tr, tr', k, asg);
      ImmutableValue(x, relations, tr, tr', k, asg);
      ImmutableValue(y, relations, tr, tr', k, asg);
    case Quantified(q, binders, body) => ImmutableQuantified(q, binders, body, relations, tr, tr', k, asg);
  }

  lemma {:induction false} ImmutableAlways(t: Term, relations: seq<RelationDecl>, tr: Trace, tr': Trace, asg: Assignment)
    requires !ContainsMutable(t, relations) && SameImmutables(relations, tr, tr')
    ensures Shifted(t, tr, asg, t, tr', asg, 0)
    decreases t, 2
  {
    forall j: nat ensures Eval(t, tr, j, asg) == Eval(t, tr', j, asg) {
      ImmutableValue(t, relations, tr, tr', j, asg);
    }
  }

  lemma {:induction false} ImmutableValues(ts: seq<Term>, relations: seq<RelationDecl>, tr: Trace, tr': Trace, k: nat, asg: Assignment)
    requires forall i | 0 <= i < |ts| :: !ContainsMutable(ts[i], relations)
    requires SameImmutables(relations, tr, tr')
    ensures EvalAll(ts, tr, k, asg) == EvalAll(ts, tr', k, asg)
    decreases ts
  {
    forall i | 0 <= i < |ts| ensures Eval(ts[i], tr, k, asg) == Eval(ts[i], tr', k, asg) {
      ImmutableValue(ts[i], relations, tr, tr', k, asg);
    }
  }

  lemma {:induction false} ImmutableQuantified(q: Quantifier, binders: seq<Binder>, body: Term, relations: seq<RelationDecl>,
                                               tr: Trace, tr': Trace, k: nat, asg: Assignment)
    requires !ContainsMutable(body, relations) && SameImmutables(relations, tr, tr')
    ensures Eval(Quantified(q, binders, body), tr, k, asg) == Eval(Quantified(q, binders, body), tr', k, asg)
    decreases body, 3
  {
    hide Eval, EvalQuantified, ContainsMutable;
    forall es | InShape(es, Shape(tr.universe, binders))
      ensures Eval(body, tr, k, Bind(asg, binders, es)) == Eval(body, tr', k, Bind(asg, binders, es))
    {
      ImmutableValue(body, relations, tr, tr', k, Bind(asg, binders, es));
    }
    QuantifiedCong(q, binders, body, tr, k, asg, body, tr', k, asg);
  }

  // Executions.

  /** With boolean relations, all terms can be translated to ground formulas or to errors. */
  ghost predicate WellFormed(sys: System, sig: Signature) {
    AllBool(sig.relations) ==> forall t | t in sys.inits + sys.transitions + sys.axioms + sys.safeties :: Enumerable(t, sig)
  }

  ghost predicate TrueAt(b: Bounds, t: Term, s: State) {
    Holds(t, PairTrace(b.ix, b.universe, s, s), 0, map[])
  }

  ghost predicate AllTrueAt(b: Bounds, ts: seq<Term>, s: State) {
    forall t | t in ts :: TrueAt(b, t, s)
  }

  ghost predicate TrueStep(b: Bounds, t: Term, s: State, s': State) {
    Holds(t, PairTrace(b.ix, b.universe, s, s'), 0, map[])
  }

  /** A step of the system satisfies all transition formulas; a system without one takes no step. */
  ghost predicate SystemStep(b: Bounds, sys: System, s: State, s': State) {
    && sys.transitions != [] && Agreeing(b.ix.numMutables, s, s')
    && AllTrueStep(b, sys.transitions, s, s') && AllTrueAt(b, sys.axioms, s')
  }

  ghost predicate AllTrueStep(b: Bounds, ts: seq<Term>, s: State, s': State) {
    forall t | t in ts :: TrueStep(b, t, s, s')
  }

  lemma OneTrueStep(b: Bounds, ts: seq<Term>, s: State, s': State)
    requires |ts| == 1
    ensures AllTrueStep(b, ts, s, s') <==> TrueStep(b, ts[0], s, s')
  {
    hide TrueStep;
  }

  /** A nonempty sequence of states, all with the axioms, that starts in an initial state. */
  ghost predicate Execution(b: Bounds, sys: System, run: seq<State>) {
    && run != [] && |run[0]| == Width(b)
    && AllTrueAt(b, sys.inits, run[0]) && AllTrueAt(b, sys.axioms, run[0])
    && forall i | 0 <= i < |run| - 1 :: SystemStep(b, sys, run[i], run[i + 1])
  }

  /** An execution whose last state is unsafe. */
  ghost predicate Violation(b: Bounds, sys: System, run: seq<State>) {
    Execution(b, sys, run) && !AllTrueAt(b, sys.safeties, run[|run| - 1])
  }

  // Executions and the states they end in.

  lemma ExecutionFront(b: Bounds, sys: System, front: seq<State>, s': State)
    requires front != []
    ensures Execution(b, sys, front + [s']) <==> Execution(b, sys, front) && SystemStep(b, sys, front[|front| - 1], s')
  {
    hide SystemStep, AllTrueAt, Width;
    var run := front + [s'];
    assert forall i | 0 <= i < |front| :: run[i] == front[i];
    if Execution(b, sys, run) { assert SystemStep(b, sys, run[|front| - 1], run[|front|]); }
  }

  lemma {:induction false} ExecutionWidth(b: Bounds, sys: System, run: seq<State>)
    requires Execution(b, sys, run)
    ensures |run[|run| - 1]| == Width(b)
    decreases |run|
  {
    hide AllTrueAt, AllTrueStep, Width;
    if |run| > 1 {
      assert Execution(b, sys, run[..|run| - 1]);
      ExecutionWidth(b, sys, run[..|run| - 1]);
      assert SystemStep(b, sys, run[|run| - 2], run[|run| - 1]);
    }
  }

  /** Some state is reached after so many steps and not before. */
  ghost predicate StateFirstAt(b: Bounds, sys: System, d: nat) {
    exists run :: Execution(b, sys, run) && |run| == d + 1 && FirstTime(b, sys, run)
  }

  ghost predicate FirstTime(b: Bounds, sys: System, run: seq<State>)
    requires run != []
  {
    forall other | other != [] && Execution(b, sys, other) && other[|other| - 1] == run[|run| - 1] :: |run| <= |other|
  }

  lemma FirstTimeLeast(b: Bounds, sys: System, run: seq<State>, other: seq<State>)
    requires run != [] && FirstTime(b, sys, run)
    requires other != [] && Execution(b, sys, other) && other[|other| - 1] == run[|run| - 1]
    ensures |run| <= |other|
  {
    hide Execution;
  }

  lemma FirstExecution(b: Bounds, sys: System, d: nat) returns (run: seq<State>)
    requires StateFirstAt(b, sys, d)
    ensures Execution(b, sys, run) && |run| == d + 1 && FirstTime(b, sys, run)
  {
    hide Execution, FirstTime;
    run :| Execution(b, sys, run) && |run| == d + 1 && FirstTime(b, sys, run);
  }

  lemma FoldStateFirst(b: Bounds, sys: System, run: seq<State>, d: nat)
    requires Execution(b, sys, run) && |run| == d + 1
    requires forall other | other != [] && Execution(b, sys, other) && other[|other| - 1] == run[|run| - 1] :: |run| <= |other|
    ensures StateFirstAt(b, sys, d)
  {
    hide Execution;
    assert FirstTime(b, sys, run);
  }

  lemma AllPermutedTruth(b: Bounds, ts: seq<Term>, f: Family, x: State, y: State)
    requires Proper(b) && IsFamily(f, b.sorts, b.universe) && Permuted(b, f, x, y) && forall t | t in ts :: Enumerable(t, b.sig)
    ensures AllTrueAt(b, ts, x) ==> AllTrueAt(b, ts, y)
  {
    hide Proper, IsFamily, Permuted, Eval, PairTrace;
    forall t | t in ts ensures TrueAt(b, t, x) <==> TrueAt(b, t, y) { PermutedTruth(b, t, f, x, x, y, y); }
  }

  /** A step between permuted states. */
  lemma PermutedStep(b: Bounds, sys: System, f: Family, x: State, x': State, y: State, y': State)
    requires Proper(b) && WellFormed(sys, b.sig) && IsFamily(f, b.sorts, b.universe)
    requires Permuted(b, f, x, y) && Permuted(b, f, x', y') && SystemStep(b, sys, x, x')
    ensures SystemStep(b, sys, y, y')
  {
    assert AllBool(b.sig.relations);
    hide Proper, AllBool, IsFamily, Permuted, Eval, PairTrace, AllTrueAt, Enumerable, Agreeing;
    var all := sys.inits + sys.transitions + sys.axioms + sys.safeties;
    assert forall t | t in sys.axioms :: t in all;
    assert forall t | t in sys.transitions :: t in all;
    AllPermutedTruth(b, sys.axioms, f, x', y');
    forall t | t in sys.transitions ensures TrueStep(b, t, y, y') {
      assert Enumerable(t, b.sig) && TrueStep(b, t, x, x');
      EnumerableSort(t, b.sig);
      PermutedTruth(b, t, f, x, x', y, y');
    }
    PermutedAgree(b, f, InverseFamily(f, b.sorts, b.universe), x, x', y, y');
  }

  lemma EnumerableSort(t: Term, sig: Signature)
    requires Enumerable(t, sig)
    ensures SortOf(t, ScopeOf(sig.relations)) == Some(Bool)
  {
    hide SortOf;
  }

  /** An execution to an isomorphic state. */
  lemma PermutedExecution(b: Bounds, sys: System, run: seq<State>, y: State) returns (moved: seq<State>)
    requires Proper(b) && WellFormed(sys, b.sig) && run != [] && Execution(b, sys, run) && Isomorphic(b, run[|run| - 1], y)
    ensures Execution(b, sys, moved) && |moved| == |run| && moved[|moved| - 1] == y
  {
    hide *;
    var f := IsomorphicFamily(b, run[|run| - 1], y);
    moved := MovedExecution(b, sys, f, run, y);
  }

  lemma IsomorphicFamily(b: Bounds, x: State, y: State) returns (f: Family)
    requires Isomorphic(b, x, y)
    ensures IsFamily(f, b.sorts, b.universe) && Permuted(b, f, x, y)
  {
    hide IsFamily, Permuted;
    f :| IsFamily(f, b.sorts, b.universe) && Permuted(b, f, x, y);
  }

  lemma {:induction false} MovedExecution(b: Bounds, sys: System, f: Family, run: seq<State>, y: State) returns (moved: seq<State>)
    requires Proper(b) && WellFormed(sys, b.sig) && run != [] && Execution(b, sys, run)
    requires IsFamily(f, b.sorts, b.universe) && Permuted(b, f, run[|run| - 1], y)
    ensures Execution(b, sys, moved) && |moved| == |run| && moved[|moved| - 1] == y
    decreases |run|
  {
    hide *;
    if |run| == 1 {
      moved := [y];
      MovedStart(b, sys, f, run, y);
    } else {
      var front := run[..|run| - 1];
      assert run == front + [run[|run| - 1]];
      ExecutionFront(b, sys, front, run[|run| - 1]);
      ExecutionWidth(b, sys, front);
      var x := Search.Act(OrderingOf(f, AllKeys(b), b.sig.relations, b.ix), front[|front| - 1]);
      ActPermutes(b, f, InverseFamily(f, b.sorts, b.universe), front[|front| - 1]);
      var before := MovedExecution(b, sys, f, front, x);
      PermutedStep(b, sys, f, front[|front| - 1], run[|run| - 1], x, y);
      ExecutionFront(b, sys, before, y);
      moved := before + [y];
    }
  }

  lemma MovedStart(b: Bounds, sys: System, f: Family, run: seq<State>, y: State)
    requires Proper(b) && WellFormed(sys, b.sig) && Execution(b, sys, run) && |run| == 1
    requires IsFamily(f, b.sorts, b.universe) && Permuted(b, f, run[0], y)
    ensures Execution(b, sys, [y])
  {
    assert AllBool(b.sig.relations);
    hide Proper, AllBool, IsFamily, AllTrueAt, Enumerable, SystemStep;
    var all := sys.inits + sys.transitions + sys.axioms + sys.safeties;
    assert forall t | t in sys.axioms :: t in all;
    assert forall t | t in sys.inits :: t in all;
    AllPermutedTruth(b, sys.inits, f, run[0], y);
    AllPermutedTruth(b, sys.axioms, f, run[0], y);
  }

  // States as traces.

  lemma AgreeingImmutables(b: Bounds, s: State, s': State)
    requires Proper(b) && |s| == Width(b) && Agreeing(b.ix.numMutables, s, s')
    ensures SameImmutables(b.sig.relations, PairTrace(b.ix, b.universe, s, s), PairTrace(b.ix, b.universe, s', s'))
  {
    hide Exact, NumVars, MutableName;
    forall name, es | !MutableName(name, b.sig.relations) ensures InterpOf(b.ix, s)(name, es) == InterpOf(b.ix, s')(name, es) {
      ImmutableBit(b, s, s', name, es);
    }
  }

  lemma ImmutableBit(b: Bounds, s: State, s': State, name: string, es: seq<Element>)
    requires Proper(b) && |s| == Width(b) && Agreeing(b.ix.numMutables, s, s')
    requires !MutableName(name, b.sig.relations)
    ensures InterpOf(b.ix, s)(name, es) == InterpOf(b.ix, s')(name, es)
  {
    hide Exact, NumVars;
    if (name, es) in b.ix.table {
      IndexedKeys(b.ix, b.sig.relations, b.universe, name, es);
      IndexBelow(b.ix, b.sig.relations, b.universe, (name, es), 0);
    }
  }

  /** An axiom over immutable symbols stays as it is when a step is taken. */
  lemma ImmutableAxiom(b: Bounds, t: Term, s: State, s': State)
    requires Proper(b) && |s| == Width(b) && Agreeing(b.ix.numMutables, s, s')
    requires !ContainsMutable(t, b.sig.relations)
    ensures TrueAt(b, t, s) <==> TrueAt(b, t, s')
  {
    hide Eval, PairTrace, ContainsMutable, Proper;
    AgreeingImmutables(b, s, s');
    ImmutableValue(t, b.sig.relations, PairTrace(b.ix, b.universe, s, s), PairTrace(b.ix, b.universe, s', s'), 0, map[]);
  }

  lemma PairTraceImmutables(b: Bounds, s: State, s': State)
    requires Proper(b) && |s| == Width(b) && Agreeing(b.ix.numMutables, s, s')
    ensures ConstantImmutables(b.sig, PairTrace(b.ix, b.universe, s, s'))
  {
    hide Exact, NumVars, InterpOf;
    forall name, es | IsImmutable(b.sig, name) ensures InterpOf(b.ix, s)(name, es) == InterpOf(b.ix, s')(name, es) {
      if (name, es) in b.ix.table {
        ImmutableName(b, name, es);
        ImmutableBit(b, s, s', name, es);
      } else {
        NoBit(b, s, name, es);
        NoBit(b, s', name, es);
      }
    }
  }

  lemma NoBit(b: Bounds, s: State, name: string, es: seq<Element>)
    requires (name, es) !in b.ix.table
    ensures InterpOf(b.ix, s)(name, es) == 0
  {
  }

  lemma ImmutableName(b: Bounds, name: string, es: seq<Element>)
    requires Proper(b) && IsImmutable(b.sig, name) && (name, es) in b.ix.table
    ensures !MutableName(name, b.sig.relations)
  {
    hide Exact;
    IndexedKeys(b.ix, b.sig.relations, b.universe, name, es);
    var d := FindDecl(b.sig.relations, name).value;
    assert TrimPrimes(name) == name;
    forall d' | d' in b.sig.relations && d'.name == name ensures d' == d { OneDecl(b.sig.relations, d'); }
  }

  /** A pair of states is a trace the enumeration of quantifiers is sound for. */
  lemma PairTraceWellFormed(b: Bounds, s: State, s': State)
    requires Proper(b) && |s| == Width(b) && Agreeing(b.ix.numMutables, s, s')
    ensures WellFormedTrace(b.sig, PairTrace(b.ix, b.universe, s, s'))
  {
    hide *;
    PairTraceFits(b, s, s');
    PairTraceImmutables(b, s, s');
    FoldWellFormed(b.sig, PairTrace(b.ix, b.universe, s, s'));
  }

  lemma FoldWellFormed(sig: Signature, tr: Trace)
    requires ConstantImmutables(sig, tr) && TraceFits(ScopeOf(sig.relations), tr)
    ensures WellFormedTrace(sig, tr)
  {
  }
}
