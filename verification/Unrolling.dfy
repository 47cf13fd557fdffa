/** Unrolling a transition system: sequences of states as traces and as valuations of several
    copies of the mutable symbols. */
module Unrollings {
  import opened Collections
  import opened Syntax
  import opened Semantics
  import opened SortCheck
  import opened Primes
  import opened QuantEnum
  import opened QuantEnumSound
  import opened Indexing
  import opened Guarded
  import opened Translation
  import opened Diagrams
  import opened Orbits
  import opened Systems

  // Shifting a trace in time.

  ghost function Suffix(tr: Trace, d: nat): Trace {
    Trace(tr.universe, (k: nat) => tr.at(k + d))
  }

  /** The value of a future-time term at a later time is its value in the suffix. */
  lemma {:induction false} EvalSuffix(t: Term, tr: Trace, d: nat, k: nat, asg: Assignment)
    requires FutureOnly(t)
    ensures Eval(t, Suffix(tr, d), k, asg) == Eval(t, tr, k + d, asg)
    decreases t, 1
  {
    match t
    case Literal(_) =>
    case Id(_) =>
    case App(_, p, args) =>
      SuffixArgs(args, tr, d, k, asg);
      assert k + p + d == k + d + p;
    case UnaryOp(op, x) =>
      SuffixAlways(x, tr, d, asg);
      UnaryShift(op, x, Suffix(tr, d), asg, x, tr, asg, d, k);
    case BinOp(op, x, y) =>
      SuffixAlways(x, tr, d, asg);
      SuffixAlways(y, tr, d, asg);
      BinaryShift(op, x, y, Suffix(tr, d), asg, x, y, tr, asg, d, k);
    case NAryOp(_, args) => SuffixArgs(args, tr, d, k, asg);
    case Ite(c, x, y) =>
      EvalSuffix(c, tr, d, k, asg);
      EvalSuffix(x, tr, d, k, asg);
      EvalSuffix(y, tr, d, k, asg);
    case Quantified(q, binders, body) => SuffixQuantified(q, binders, body, tr, d, k, asg);
  }

  lemma {:induction false} SuffixAlways(t: Term, tr: Trace, d: nat, asg: Assignment)
    requires FutureOnly(t)
    ensures Shifted(t, Suffix(tr, d), asg, t, tr, asg, d)
    decreases t, 2
  {
    forall j: nat ensures Eval(t, Suffix(tr, d), j, asg) == Eval(t, tr, j + d, asg) {
      EvalSuffix(t, tr, d, j, asg);
    }
  }

  lemma {:induction false} SuffixArgs(args: seq<Term>, tr: Trace, d: nat, k: nat, asg: Assignment)
    requires forall i | 0 <= i < |args| :: FutureOnly(args[i])
    ensures EvalAll(args, Suffix(tr, d), k, asg) == EvalAll(args, tr, k + d, asg)
    decreases args
  {
    forall i | 0 <= i < |args| ensures Eval(args[i], Suffix(tr, d), k, asg) == Eval(args[i], tr, k + d, asg) {
      EvalSuffix(args[i], tr, d, k, asg);
    }
  }

  lemma {:induction false} SuffixQuantified(q: Quantifier, binders: seq<Binder>, body: Term, tr: Trace, d: nat, k: nat,
                                            asg: Assignment)
    requires FutureOnly(body)
    ensures Eval(Quantified(q, binders, body), Suffix(tr, d), k, asg) == Eval(Quantified(q, binders, body), tr, k + d, asg)
    decreases body, 3
  {
    hide Eval, EvalQuantified;
    forall es | InShape(es, Shape(tr.universe, binders))
      ensures Eval(body, Suffix(tr, d), k, Bind(asg, binders, es)) == Eval(body, tr, k + d, Bind(asg, binders, es))
    {
      EvalSuffix(body, tr, d, k, Bind(asg, binders, es));
    }
    QuantifiedCong(q, binders, body, Suffix(tr, d), k, asg, body, tr, k + d, asg);
  }

  // Sequences of states as traces.

  ghost predicate StateSequence(b: Bounds, run: seq<State>) {
    && run != []
    && (forall i | 0 <= i < |run| :: |run[i]| == Width(b) && Agreeing(b.ix.numMutables, run[0], run[i]))
  }

  function Clamp(run: seq<State>, k: nat): State
    requires run != []
  {
    if k < |run| then run[k] else run[|run| - 1]
  }

  /** The trace that goes through the states and stays in the last one. */
  ghost function RunTrace(b: Bounds, run: seq<State>): Trace
    requires run != []
  {
    Trace(b.universe, (k: nat) => InterpOf(b.ix, Clamp(run, k)))
  }

  lemma RunTraceWellFormed(b: Bounds, run: seq<State>)
    requires Proper(b) && StateSequence(b, run)
    ensures WellFormedTrace(b.sig, RunTrace(b, run))
  {
    hide Proper, InterpOf, ScopeOf, Width;
    var tr := RunTrace(b, run);
    forall k: nat ensures Clamp(run, k) in run && |Clamp(run, k)| == Width(b) && Agreeing(b.ix.numMutables, run[0], Clamp(run, k)) {}
    forall name, es, j: nat, k: nat | IsImmutable(b.sig, name) ensures tr.at(j)(name, es) == tr.at(k)(name, es) {
      RunImmutable(b, run[0], Clamp(run, j), name, es);
      RunImmutable(b, run[0], Clamp(run, k), name, es);
    }
    RunTraceFits(b, run);
  }

  lemma RunImmutable(b: Bounds, s: State, s': State, name: string, es: seq<Element>)
    requires Proper(b) && |s| == Width(b) && Agreeing(b.ix.numMutables, s, s') && IsImmutable(b.sig, name)
    ensures InterpOf(b.ix, s)(name, es) == InterpOf(b.ix, s')(name, es)
  {
    hide Proper, InterpOf, IsImmutable;
    PairTraceImmutables(b, s, s');
    var tr := PairTrace(b.ix, b.universe, s, s');
    assert tr.at(0)(name, es) == tr.at(1)(name, es);
  }

  lemma RunTraceFits(b: Bounds, run: seq<State>)
    requires Proper(b) && run != []
    ensures TraceFits(ScopeOf(b.sig.relations), RunTrace(b, run))
  {
    hide InterpOf, Exact;
    forall s: State, name, es ensures InterpOf(b.ix, s)(name, es) < 2 { InterpAt(b, s, name, es); }
    forall name | name in ScopeOf(b.sig.relations)
      ensures var e := ScopeOf(b.sig.relations)[name]; (if e.Relation? then e.ret else e.sort) == Bool
    {
      assert FindDecl(b.sig.relations, name).value in b.sig.relations;
    }
  }

  /** A two-state formula at a step of the run. */
  lemma StepTruth(b: Bounds, t: Term, run: seq<State>, k: nat)
    requires k + 1 < |run|
    requires FutureOnly(t) && UnrollingOf(t).Finite? && UnrollingOf(t).n <= 1
    ensures Holds(t, RunTrace(b, run), k, map[]) <==> TrueStep(b, t, run[k], run[k + 1])
  {
    hide Eval, InterpOf;
    EvalSuffix(t, RunTrace(b, run), k, 0, map[]);
    UnrollingLocality(t, Suffix(RunTrace(b, run), k), PairTrace(b.ix, b.universe, run[k], run[k + 1]), 0, 1, map[]);
  }

  /** A one-state formula at a state of the run. */
  lemma StateTruth(b: Bounds, t: Term, run: seq<State>, k: nat)
    requires k < |run|
    requires FutureOnly(t) && UnrollingOf(t) == Finite(0)
    ensures Holds(t, RunTrace(b, run), k, map[]) <==> TrueAt(b, t, run[k])
  {
    hide Eval, InterpOf;
    EvalSuffix(t, RunTrace(b, run), k, 0, map[]);
    UnrollingLocality(t, Suffix(RunTrace(b, run), k), PairTrace(b.ix, b.universe, run[k], run[k]), 0, 0, map[]);
  }

  // Sequences of states as valuations.

  /** The index in copy `p` of `copies` of what has index `i` in a single copy. */
  function CopyOf(i: nat, p: nat, m: nat, copies: nat): nat {
    if i < m then i + p * m else i - m + m * copies
  }

  lemma SameEntry(b: Bounds, ix: IndexMap, k: Key)
    requires Proper(b) && Exact(ix, b.sig.relations, b.universe)
    ensures ix.numMutables == b.ix.numMutables
    ensures k in ix.table <==> k in b.ix.table
    ensures k in ix.table ==> ix.table[k].1 == b.ix.table[k].1
    ensures k in ix.table ==> ix.table[k].0 == CopyOf(b.ix.table[k].0, 0, ix.numMutables, ix.copies)
  {
    hide KeysOf, WithMutability;
    IndexedKeys(ix, b.sig.relations, b.universe, k.0, k.1);
    IndexedKeys(b.ix, b.sig.relations, b.universe, k.0, k.1);
    assert k == (k.0, k.1);
    if k in ix.table {
      var n1 := EntryOf(b.ix, b.sig.relations, b.universe, k);
      var n2 := EntryOf(ix, b.sig.relations, b.universe, k);
      SeparateKeys(b.sig.relations, b.universe);
    }
  }

  /** The index of a primed application, from its index in a single copy. */
  lemma CopyIndex(b: Bounds, ix: IndexMap, k: Key, p: nat)
    requires Proper(b) && Exact(ix, b.sig.relations, b.universe)
    ensures ix.numMutables == b.ix.numMutables
    ensures ix.Get(k.0, p, k.1).Some? <==> p < ix.copies && IndexOf(b.ix, k).Some?
    ensures ix.Get(k.0, p, k.1).Some? ==>
      ix.Get(k.0, p, k.1).value == CopyOf(IndexOf(b.ix, k).value, p, ix.numMutables, ix.copies)
  {
    hide Exact;
    SameEntry(b, ix, k);
    assert k == (k.0, k.1);
    if k in b.ix.table { IndexBelow(b.ix, b.sig.relations, b.universe, k, 0); }
  }

  /** The state that copy `p` of a valuation gives. */
  function StateOf(v: State, p: nat, m: nat, copies: nat, n: nat): (s: State)
    ensures |s| == n
  {
    seq<bool>(n, i requires 0 <= i < n => Bit(v, CopyOf(i, p, m, copies)))
  }

  function StatesOf(v: State, m: nat, copies: nat, n: nat): (run: seq<State>)
    ensures |run| == copies
    ensures forall p | 0 <= p < copies :: run[p] == StateOf(v, p, m, copies, n)
  {
    seq(copies, p requires 0 <= p < copies => StateOf(v, p, m, copies, n))
  }

  lemma StatesOfSequence(b: Bounds, v: State, copies: nat)
    requires copies > 0
    ensures StateSequence(b, StatesOf(v, b.ix.numMutables, copies, Width(b)))
  {
    hide Width;
  }

  /** The valuation that lists the states, one copy after the other. */
  function ValuationOf(run: seq<State>, m: nat, n: nat): (v: State)
    requires run != [] && m <= n
    ensures |v| == m * |run| + n - m
  {
    seq<bool>(m * |run| + n - m, j requires 0 <= j < m * |run| + n - m =>
      if j < m * |run| then m > 0 && j / m < |run| && Bit(run[j / m], j % m) else Bit(run[0], j - m * |run| + m))
  }

  lemma CopyArithmetic(i: nat, p: nat, m: nat, copies: nat)
    requires i < m && p < copies
    ensures (i + p * m) / m == p && (i + p * m) % m == i && i + p * m < m * copies
  {
    CopyBelow(i, p, m, copies);
    var j := i + p * m;
    assert j == (j / m) * m + j % m;
    CopyUnique(i, p, j % m, j / m, m);
  }

  lemma ValuationStates(b: Bounds, run: seq<State>, p: nat)
    requires Proper(b) && StateSequence(b, run) && p < |run| && b.ix.numMutables <= Width(b)
    ensures StateOf(ValuationOf(run, b.ix.numMutables, Width(b)), p, b.ix.numMutables, |run|, Width(b)) == run[p]
  {
    hide Proper;
    var m, n := b.ix.numMutables, Width(b);
    var v := ValuationOf(run, m, n);
    forall i | 0 <= i < n ensures Bit(v, CopyOf(i, p, m, |run|)) == run[p][i] {
      if i < m {
        MutableBit(run, m, n, i, p);
      } else {
        ImmutableCopy(run, m, n, i, p);
        assert run[p][i] == run[0][i];
      }
    }
  }

  lemma MutableBit(run: seq<State>, m: nat, n: nat, i: nat, p: nat)
    requires run != [] && i < m <= n && p < |run|
    ensures Bit(ValuationOf(run, m, n), CopyOf(i, p, m, |run|)) == Bit(run[p], i)
  {
    CopyArithmetic(i, p, m, |run|);
    var j := i + p * m;
    assert j < |ValuationOf(run, m, n)|;
    assert ValuationOf(run, m, n)[j] == Bit(run[j / m], j % m);
  }

  lemma ImmutableCopy(run: seq<State>, m: nat, n: nat, i: nat, p: nat)
    requires run != [] && m <= i < n && p < |run|
    ensures Bit(ValuationOf(run, m, n), CopyOf(i, p, m, |run|)) == Bit(run[0], i)
  {
    var base := m * |run|;
    var j := i - m + base;
    assert base <= j < |ValuationOf(run, m, n)|;
    assert ValuationOf(run, m, n)[j] == Bit(run[0], j - base + m);
  }

  /** A valuation is read off the trace of its states. */
  lemma ValuationReads(b: Bounds, ix: IndexMap, v: State, run: seq<State>)
    requires Proper(b) && Exact(ix, b.sig.relations, b.universe) && run != [] && |run| == ix.copies
    requires forall p | 0 <= p < |run| :: run[p] == StateOf(v, p, b.ix.numMutables, ix.copies, Width(b))
    ensures Reads(ix, v, RunTrace(b, run))
  {
    hide Exact, NumVars;
    forall name, p: nat, es | ix.Get(name, p, es).Some?
      ensures RunTrace(b, run).at(p)(name, es) == ToElement(Bit(v, ix.Get(name, p, es).value))
    {
      CopyIndex(b, ix, (name, es), p);
      TableKeys(b, (name, es));
      IndexBelow(b.ix, b.sig.relations, b.universe, (name, es), 0);
      assert Clamp(run, p) == run[p];
      assert InterpOf(b.ix, run[p])(name, es) == ToElement(Bit(run[p], IndexOf(b.ix, (name, es)).value));
    }
  }
}
