/** The translation of a transition relation to a list of guarded updates. */
module TransitionTranslation {
  import opened Collections
  import opened Syntax
  import opened Semantics
  import opened QuantEnum
  import opened Indexing
  import opened Guarded
  import opened Translation
  import opened EnumeratedShapes
  import opened CompiledShapes

  predicate SomeSteps(ts: seq<Transition>, s: State, s': State) {
    exists t | t in ts :: Steps(t, s, s')
  }

  function MutableIndices(ix: IndexMap): set<nat> {
    set k | k in ix.table && ix.table[k].1 :: ix.table[k].0
  }

  lemma MutableIndicesBelow(ix: IndexMap, relations: seq<RelationDecl>, universe: Universe)
    requires Exact(ix, relations, universe)
    ensures MutableIndices(ix) == Below(ix.numMutables)
  {
    var mutables := KeysOf(WithMutability(relations, true), universe);
    forall i | i in MutableIndices(ix) ensures i in Below(ix.numMutables) {
      var k :| k in ix.table && ix.table[k].1 && ix.table[k].0 == i;
      var n := EntryOf(ix, relations, universe, k);
    }
    forall i | i in Below(ix.numMutables) ensures i in MutableIndices(ix) {
      assert ix.table[mutables[i]] == (i, true);
    }
  }

  // Compiled transitions have no conflicting updates and stay within the state.

  predicate Sound(t: Transition, n: nat) {
    !UpdateConflict(t.updates) && UpdatesBelow(t.updates, n)
  }

  lemma {:induction false} CompiledSound(e: Enumerated, ix: IndexMap, relations: seq<RelationDecl>, universe: Universe,
                                         t: Transition)
    requires Exact(ix, relations, universe) && EnumeratedToTransition(e, ix) == Success(t)
    ensures Sound(t, NumVars(ix, relations, universe))
    decreases e, 1
  {
    hide Exact, NumVars;
    match e
    case EAnd(xs) =>
      var ts := TransitionsOf(xs, ix).value;
      AllCompiledSound(xs, ix, relations, universe, ts);
      ConjunctionBelow(ts, t, NumVars(ix, relations, universe));
    case ENot(x) =>
      CompiledSound(x, ix, relations, universe, EnumeratedToTransition(x, ix).value);
    case EEq(x, _) =>
      if x.EApp? && x.primes == 1 { IndexBelow(ix, relations, universe, (x.name, x.args), 0); }
    case EApp(name, p, args) =>
      if p == 1 { IndexBelow(ix, relations, universe, (name, args), 0); }
    case EOr(_) =>
  }

  lemma ConjunctionBelow(ts: seq<Transition>, t: Transition, n: nat)
    requires FromConjunction(ts) == Success(t)
    requires forall x | x in ts :: UpdatesBelow(x.updates, n)
    ensures Sound(t, n)
  {
    SortDedupMembers(UpdateLeq, AllUpdates(ts));
    var parts := seq(|ts|, i requires 0 <= i < |ts| => ts[i].updates);
    forall u | u in t.updates ensures u.index < n {
      FlattenMembers(parts, u);
      var i :| 0 <= i < |parts| && u in parts[i];
      assert ts[i] in ts;
    }
  }

  lemma {:induction false} AllCompiledSound(es: seq<Enumerated>, ix: IndexMap, relations: seq<RelationDecl>, universe: Universe,
                                            ts: seq<Transition>)
    requires Exact(ix, relations, universe) && TransitionsOf(es, ix) == Success(ts)
    ensures forall t | t in ts :: Sound(t, NumVars(ix, relations, universe))
    decreases es, 0
  {
    hide Exact, NumVars, Sound;
    if es != [] {
      CompiledSound(es[0], ix, relations, universe, ts[0]);
      AllCompiledSound(es[1..], ix, relations, universe, ts[1..]);
      assert ts == [ts[0]] + ts[1..];
    }
  }

  // Expanding one compiled transition.

  /** The mutable indices the transition does not mention, in any order. */
  method Unconstrained(t: Transition, ix: IndexMap) returns (r: seq<nat>)
    ensures NoDuplicates(r)
    ensures forall i :: i in r <==> i in MutableIndices(ix) && !Mentions(t.updates, i)
  {
    var todo := set i | i in MutableIndices(ix) && !Mentions(t.updates, i);
    ghost var all := todo;
    r := [];
    while todo != {}
      invariant todo <= all && NoDuplicates(r)
      invariant forall i :: i in r <==> i in all && i !in todo
      decreases todo
    {
      var i :| i in todo;
      todo := todo - {i};
      r := r + [i];
    }
  }

  function RemoveAllNoOps(ts: seq<Transition>): (r: seq<Transition>)
    ensures |r| == |ts|
    ensures forall i | 0 <= i < |ts| :: r[i] == RemoveNoOps(ts[i])
  {
    seq(|ts|, i requires 0 <= i < |ts| => RemoveNoOps(ts[i]))
  }

  /** The steps of `trs` are the pairs of states that `t` allows. */
  ghost predicate Refines(trs: seq<Transition>, t: Transition, numMutables: nat, n: nat) {
    forall s, s' | |s| == n && Agreeing(numMutables, s, s') :: SomeSteps(trs, s, s') <==> Allows(t, s, s')
  }

  lemma ExpandedRefines(t: Transition, unconstrained: seq<nat>, numMutables: nat, n: nat)
    requires Sound(t, n) && NoDuplicates(unconstrained) && numMutables <= n
    requires forall i :: i in unconstrained <==> i in Below(numMutables) && !Mentions(t.updates, i)
    ensures Refines(RemoveAllNoOps(Expand([t], unconstrained)), t, numMutables, n)
    ensures forall x | x in RemoveAllNoOps(Expand([t], unconstrained)) :: Sound(x, n)
  {
    hide Allows, Steps, Determined, Sound;
    var ts := Expand([t], unconstrained);
    var rs := RemoveAllNoOps(ts);
    forall x | x in ts ensures Determined(x, Below(numMutables)) && UpdatesBelow(x.updates, n) {
      ExpandedOne(t, unconstrained, numMutables, n, x);
    }
    forall x | x in rs ensures Sound(x, n) {
      var i :| 0 <= i < |rs| && rs[i] == x;
      assert ts[i] in ts;
      NoOpsSound(ts[i], Below(numMutables), n);
    }
    forall s, s' | |s| == n && Agreeing(numMutables, s, s') ensures SomeSteps(rs, s, s') <==> Allows(t, s, s') {
      ExpandAllows([t], unconstrained, s, s');
      assert t in [t];
      assert SomeAllows([t], s, s') <==> Allows(t, s, s');
      forall i | 0 <= i < |ts| ensures Steps(rs[i], s, s') <==> Allows(ts[i], s, s') {
        assert ts[i] in ts;
        StepIffAllows(ts[i], numMutables, s, s');
      }
      SameSome(ts, rs, s, s');
    }
  }

  lemma SameSome(ts: seq<Transition>, rs: seq<Transition>, s: State, s': State)
    requires |rs| == |ts| && forall i | 0 <= i < |ts| :: Steps(rs[i], s, s') <==> Allows(ts[i], s, s')
    ensures SomeSteps(rs, s, s') <==> SomeAllows(ts, s, s')
  {
    hide Steps, Allows;
    assert forall i | 0 <= i < |ts| :: ts[i] in ts && rs[i] in rs;
  }

  lemma NoOpsSound(t: Transition, covered: set<nat>, n: nat)
    requires Determined(t, covered) && UpdatesBelow(t.updates, n)
    ensures Sound(RemoveNoOps(t), n)
  {
  }

  lemma ExpandedOne(t: Transition, unconstrained: seq<nat>, numMutables: nat, n: nat, x: Transition)
    requires Sound(t, n) && NoDuplicates(unconstrained) && numMutables <= n
    requires forall i :: i in unconstrained <==> i in Below(numMutables) && !Mentions(t.updates, i)
    requires x in Expand([t], unconstrained)
    ensures Determined(x, Below(numMutables)) && UpdatesBelow(x.updates, n)
  {
    var mentioned := set i | i in Below(numMutables) && Mentions(t.updates, i);
    ExpandDetermined([t], unconstrained, mentioned, t.guards, x);
    assert mentioned + (set i | i in unconstrained) == Below(numMutables);
    ExpandBelow([t], unconstrained, n, x);
  }

  lemma {:induction false} ExpandBelow(ts: seq<Transition>, indices: seq<nat>, n: nat, x: Transition)
    requires forall t | t in ts :: UpdatesBelow(t.updates, n)
    requires (forall i | i in indices :: i < n) && x in Expand(ts, indices)
    ensures UpdatesBelow(x.updates, n)
    decreases |indices|
  {
    hide Constant;
    if indices != [] {
      var both := WithUpdate(ts, indices[0], false) + WithUpdate(ts, indices[0], true);
      forall t | t in both ensures UpdatesBelow(t.updates, n) {
        var k :| 0 <= k < |both| && both[k] == t;
        var t0 := ts[if k < |ts| then k else k - |ts|];
        assert t0 in ts && indices[0] in indices;
        assert t == AddUpdate(t0, indices[0], k >= |ts|);
      }
      assert forall i | i in indices[1..] :: i in indices;
      assert x in Expand(both, indices[1..]);
      ExpandBelow(both, indices[1..], n, x);
    }
  }

  /** What the expansion of `t` can contain: the unmentioned bits may come in any order. */
  ghost predicate ExpandedFrom(x: Transition, t: Transition, ix: IndexMap) {
    exists order: seq<nat> :: Unmentioned(order, t, ix) && x in RemoveAllNoOps(Expand([t], order))
  }

  ghost predicate Unmentioned(order: seq<nat>, t: Transition, ix: IndexMap) {
    NoDuplicates(order) && forall i :: i in order <==> i in MutableIndices(ix) && !Mentions(t.updates, i)
  }

  ghost predicate ExpandedFromSome(x: Transition, ts: seq<Transition>, ix: IndexMap) {
    exists t | t in ts :: ExpandedFrom(x, t, ix)
  }

  /** One of them is that transition, up to the order of its updates. */
  ghost predicate Lists(trs: seq<Transition>, x: Transition) {
    exists y :: y in trs && SameTransition(x, y)
  }

  /** The expansion in one order has what the expansion in any other order has. */
  lemma EveryOrder(t: Transition, ix: IndexMap, order: seq<nat>, x: Transition)
    requires Unmentioned(order, t, ix) && ExpandedFrom(x, t, ix)
    ensures Lists(RemoveAllNoOps(Expand([t], order)), x)
  {
    hide Expand, SameTransition, NoDuplicates;
    var other :| Unmentioned(other, t, ix) && x in RemoveAllNoOps(Expand([t], other));
    var k :| 0 <= k < |Expand([t], other)| && RemoveNoOps(Expand([t], other)[k]) == x;
    assert Expand([t], other)[k] in Expand([t], other);
    var y := SameExpansion(t, other, order, Expand([t], other)[k]);
    var j :| 0 <= j < |Expand([t], order)| && Expand([t], order)[j] == y;
    assert RemoveAllNoOps(Expand([t], order))[j] == RemoveNoOps(y);
  }

  method ExpandTransition(t: Transition, ix: IndexMap, ghost relations: seq<RelationDecl>, ghost universe: Universe)
    returns (trs: seq<Transition>)
    requires Exact(ix, relations, universe) && ix.copies == 1
    requires Sound(t, NumVars(ix, relations, universe))
    ensures Refines(trs, t, ix.numMutables, NumVars(ix, relations, universe))
    ensures forall x | x in trs :: Sound(x, NumVars(ix, relations, universe)) && ExpandedFrom(x, t, ix)
    ensures forall x | ExpandedFrom(x, t, ix) :: Lists(trs, x)
  {
    hide Refines, Sound, Lists;
    var unconstrained := Unconstrained(t, ix);
    MutableIndicesBelow(ix, relations, universe);
    var expanded := ExpandUnconstrained(t, unconstrained);
    ExpandedRefines(t, unconstrained, ix.numMutables, NumVars(ix, relations, universe));
    assert Unmentioned(unconstrained, t, ix);
    trs := RemoveAllNoOps(expanded);
    forall x | ExpandedFrom(x, t, ix) ensures Lists(trs, x) { EveryOrder(t, ix, unconstrained, x); }
  }

  // The whole list.

  function WithoutNever(ts: seq<Transition>): (r: seq<Transition>)
    ensures forall t :: t in r <==> t in ts && t.slowGuard != AlwaysFalse
  {
    if ts == [] then []
    else (if ts[0].slowGuard != AlwaysFalse then [ts[0]] else []) + WithoutNever(ts[1..])
  }

  /** The steps of `trs` are the pairs of states that some member of `ts` allows. */
  ghost predicate RefinesAll(trs: seq<Transition>, ts: seq<Transition>, numMutables: nat, n: nat) {
    forall s, s' | |s| == n && Agreeing(numMutables, s, s') :: SomeSteps(trs, s, s') <==> SomeAllows(ts, s, s')
  }

  lemma RefinesAppend(trs: seq<Transition>, ts: seq<Transition>, more: seq<Transition>, t: Transition, numMutables: nat, n: nat)
    requires RefinesAll(trs, ts, numMutables, n) && Refines(more, t, numMutables, n)
    ensures RefinesAll(trs + more, ts + [t], numMutables, n)
  {
    hide Steps, Allows;
    forall s, s' | |s| == n && Agreeing(numMutables, s, s')
      ensures SomeSteps(trs + more, s, s') <==> SomeAllows(ts + [t], s, s')
    {
      assert SomeSteps(trs + more, s, s') <==> SomeSteps(trs, s, s') || SomeSteps(more, s, s');
      assert SomeAllows(ts + [t], s, s') <==> SomeAllows(ts, s, s') || Allows(t, s, s');
    }
  }

  lemma ListsMore(trs: seq<Transition>, more: seq<Transition>, x: Transition)
    requires Lists(trs, x) || Lists(more, x)
    ensures Lists(trs + more, x)
  {
    hide SameTransition;
  }

  method ExpandAll(ts: seq<Transition>, ix: IndexMap, ghost relations: seq<RelationDecl>, ghost universe: Universe)
    returns (trs: seq<Transition>)
    requires Exact(ix, relations, universe) && ix.copies == 1
    requires forall t | t in ts :: Sound(t, NumVars(ix, relations, universe))
    ensures RefinesAll(trs, ts, ix.numMutables, NumVars(ix, relations, universe))
    ensures forall x | x in trs :: Sound(x, NumVars(ix, relations, universe)) && ExpandedFromSome(x, ts, ix)
    ensures forall x | ExpandedFromSome(x, ts, ix) :: Lists(trs, x)
  {
    hide Refines, Sound, Lists, Steps, Allows, Exact, NumVars, ExpandedFrom;
    trs := [];
    var i := 0;
    while i < |ts|
      invariant i <= |ts|
      invariant RefinesAll(trs, ts[..i], ix.numMutables, NumVars(ix, relations, universe))
      invariant forall x | x in trs :: Sound(x, NumVars(ix, relations, universe)) && ExpandedFromSome(x, ts, ix)
      invariant forall x, j | 0 <= j < i && ExpandedFrom(x, ts[j], ix) :: Lists(trs, x)
    {
      assert ts[i] in ts;
      var more := ExpandTransition(ts[i], ix, relations, universe);
      RefinesAppend(trs, ts[..i], more, ts[i], ix.numMutables, NumVars(ix, relations, universe));
      assert ts[..i] + [ts[i]] == ts[..i + 1];
      forall x | Lists(trs, x) || Lists(more, x) ensures Lists(trs + more, x) { ListsMore(trs, more, x); }
      trs := trs + more;
      i := i + 1;
    }
    assert ts[..i] == ts;
  }

  /** Keep the transitions that preserve the axioms; fail when one cannot be decided. */
  method FilterByAxioms(trs: seq<Transition>, axioms: Formula) returns (r: Outcome<seq<Transition>>)
    ensures r.Success? ==>
      forall t :: t in r.value <==> t in trs && ShouldKeep(t, axioms) == Success(true)
    ensures r.Success? ==> forall t | t in trs :: ShouldKeep(t, axioms).Success?
    ensures r.Failure? ==> r.error == UnprovenMutableAxiom && exists t | t in trs :: ShouldKeep(t, axioms).Failure?
  {
    var kept := [];
    var i := 0;
    while i < |trs|
      invariant i <= |trs|
      invariant forall t :: t in kept <==> t in trs[..i] && ShouldKeep(t, axioms) == Success(true)
      invariant forall t | t in trs[..i] :: ShouldKeep(t, axioms).Success?
    {
      match ShouldKeep(trs[i], axioms) {
        case Failure(error) =>
          assert trs[i] in trs;
          return Failure(error);
        case Success(b) =>
          if b { kept := kept + [trs[i]]; }
      }
      assert trs[..i + 1] == trs[..i] + [trs[i]];
      i := i + 1;
    }
    assert trs[..i] == trs;
    r := Success(kept);
  }

  /** The checks on the finished transitions that end in a panic. */
  predicate Sane(t: Transition, numMutables: nat) {
    && UpdatesBelow(t.updates, numMutables)
    && !GuardConflict(t.guards) && !UpdateConflict(t.updates)
    && (forall g | g in t.guards :: Update(g.index, Constant(g.value)) !in t.updates)
    && (forall u | u in t.updates :: u.formula != FLit(Guard(u.index, true)))
    && t.slowGuard != AlwaysFalse
  }

  /** On states with the axioms, the steps of the translated transitions are exactly the
      pairs that satisfy the formula and lead to a state with the axioms. */
  ghost predicate TranslationExact(trs: seq<Transition>, e: Enumerated, axioms: Formula, ix: IndexMap, universe: Universe, n: nat) {
    forall s, s' | |s| == n && Agreeing(ix.numMutables, s, s') && Evaluate(axioms, s) ::
      SomeSteps(trs, s, s') <==> EnumHolds(e, PairTrace(ix, universe, s, s'), 0) && Evaluate(axioms, s')
  }

  lemma DisjunctsAllow(e: Enumerated, ix: IndexMap, universe: Universe, ts: seq<Transition>, s: State, s': State)
    requires 1 <= ix.copies && TransitionsOf(GetOr(e), ix) == Success(ts)
    ensures SomeAllows(ts, s, s') <==> EnumHolds(e, PairTrace(ix, universe, s, s'), 0)
  {
    hide EnumHolds, Allows, TransitionsOf;
    var es, tr := GetOr(e), PairTrace(ix, universe, s, s');
    TransitionsSound(es, ix, universe, ts, s, s');
    assert SomeAllows(ts, s, s') <==> !NoneHolds(es, tr, 0) by {
      assert forall i | 0 <= i < |es| :: es[i] in es && ts[i] in ts;
    }
    if e.EOr? { OrHolds(es, tr, 0); }
  }

  lemma NeverEnabled(ts: seq<Transition>, s: State, s': State)
    ensures SomeAllows(WithoutNever(ts), s, s') <==> SomeAllows(ts, s, s')
  {
    FOrHolds([], s);
  }

  lemma FilterExact(kept: seq<Transition>, trs: seq<Transition>, axioms: Formula, n: nat, s: State, s': State)
    requires forall t :: t in kept <==> t in trs && ShouldKeep(t, axioms) == Success(true)
    requires forall t | t in trs :: ShouldKeep(t, axioms).Success? && Sound(t, n)
    requires |s| == n && Evaluate(axioms, s)
    ensures SomeSteps(kept, s, s') <==> SomeSteps(trs, s, s') && Evaluate(axioms, s')
  {
    hide Evaluate, ShouldKeep;
    if SomeSteps(kept, s, s') {
      var t :| t in kept && Steps(t, s, s');
      ShouldKeepSound(t, axioms, s);
    }
    if SomeSteps(trs, s, s') && Evaluate(axioms, s') {
      var t :| t in trs && Steps(t, s, s');
      ShouldKeepSound(t, axioms, s);
      assert t in kept;
    }
  }

  /** Why a transition relation is rejected: a disjunct has a prime beside the bits it sets, or clashes, or an expanded
      transition leaves the axioms undecided, or is kept and ends in a panic. */
  ghost predicate TransitionsRejected(e: Enumerated, axioms: Formula, ix: IndexMap, error: CheckerError) {
    StepsUnsupported(error, e, ix) || ExpansionRejected(e, axioms, ix, error)
  }

  ghost predicate ExpansionRejected(e: Enumerated, axioms: Formula, ix: IndexMap, error: CheckerError) {
    TransitionsOf(GetOr(e), ix).Success?
    && exists x | ExpandedFromSome(x, WithoutNever(TransitionsOf(GetOr(e), ix).value), ix) :: BadTransition(x, axioms, ix, error)
  }

  predicate BadTransition(x: Transition, axioms: Formula, ix: IndexMap, error: CheckerError) {
    || (error == UnprovenMutableAxiom && ShouldKeep(x, axioms).Failure?)
    || (error == Panic && ShouldKeep(x, axioms) == Success(true) && !Sane(x, ix.numMutables))
  }

  lemma BadSame(x: Transition, y: Transition, axioms: Formula, ix: IndexMap, error: CheckerError)
    requires SameTransition(x, y) && !UpdateConflict(y.updates)
    ensures BadTransition(x, axioms, ix, error) <==> BadTransition(y, axioms, ix, error)
  {
    ShouldKeepSame(y, x, axioms);
    hide ShouldKeep;
  }

  /** When everything in the list is fine, no expansion is rejected. */
  lemma NoneRejected(e: Enumerated, axioms: Formula, ix: IndexMap, trs: seq<Transition>, n: nat, error: CheckerError)
    requires TransitionsOf(GetOr(e), ix).Success?
    requires forall x | ExpandedFromSome(x, WithoutNever(TransitionsOf(GetOr(e), ix).value), ix) :: Lists(trs, x)
    requires forall y | y in trs :: Sound(y, n) && !BadTransition(y, axioms, ix, error)
    ensures !ExpansionRejected(e, axioms, ix, error)
  {
    hide ExpandedFromSome, TransitionsOf, SameTransition, BadTransition;
    forall x | ExpandedFromSome(x, WithoutNever(TransitionsOf(GetOr(e), ix).value), ix) ensures !BadTransition(x, axioms, ix, error) {
      var y :| y in trs && SameTransition(x, y);
      BadSame(x, y, axioms, ix, error);
    }
  }

  /** Translate an enumerated transition relation.  On success the result is exact and there was no reason
      to reject; a failure has one. */
  method TranslateTransitions(e: Enumerated, axioms: Formula, ix: IndexMap, ghost relations: seq<RelationDecl>, ghost universe: Universe)
    returns (r: Outcome<seq<Transition>>)
    requires ProperNames(relations) && Exact(ix, relations, universe) && ix.copies == 1
    requires NegatesAtoms(e) && Known(e, relations, universe)
    ensures r.Success? ==> TranslationExact(r.value, e, axioms, ix, universe, NumVars(ix, relations, universe))
    ensures r.Success? ==> forall t | t in r.value :: Sane(t, ix.numMutables)
    ensures r.Failure? ==> TransitionsRejected(e, axioms, ix, r.error)
    ensures r.Success? ==> forall error :: !TransitionsRejected(e, axioms, ix, error)
  {
    hide StepsUnsupported, NegatesAtoms, Known, Indexed, Lists;
    hide EnumHolds, ExpandedFromSome, Sane, Evaluate, Allows, Steps, Sound, Exact, NumVars, TransitionsOf, ShouldKeep;
    ghost var n := NumVars(ix, relations, universe);
    KnownIndexed(e, ix, relations, universe);
    DisjunctsCompile(e, ix);
    match TransitionsOf(GetOr(e), ix) {
      case Failure(error) => return Failure(error);
      case Success(compiled) =>
        AllCompiledSound(GetOr(e), ix, relations, universe, compiled);
        var trs := ExpandAll(WithoutNever(compiled), ix, relations, universe);
        var filtered := FilterByAxioms(trs, axioms);
        if filtered.Failure? {
          ghost var x :| x in trs && ShouldKeep(x, axioms).Failure?;
          assert BadTransition(x, axioms, ix, UnprovenMutableAxiom);
          return filtered;
        }
        forall s, s' | |s| == n && Agreeing(ix.numMutables, s, s') && Evaluate(axioms, s)
          ensures SomeSteps(filtered.value, s, s')
            <==> EnumHolds(e, PairTrace(ix, universe, s, s'), 0) && Evaluate(axioms, s')
        {
          DisjunctsAllow(e, ix, universe, compiled, s, s');
          NeverEnabled(compiled, s, s');
          FilterExact(filtered.value, trs, axioms, n, s, s');
        }
        var i := 0;
        while i < |filtered.value|
          invariant i <= |filtered.value|
          invariant forall t | t in filtered.value[..i] :: Sane(t, ix.numMutables)
        {
          if !Sane(filtered.value[i], ix.numMutables) {
            assert filtered.value[i] in filtered.value && filtered.value[i] in trs;
            assert BadTransition(filtered.value[i], axioms, ix, Panic);
            return Failure(Panic);
          }
          assert filtered.value[..i + 1] == filtered.value[..i] + [filtered.value[i]];
          i := i + 1;
        }
        assert filtered.value[..i] == filtered.value;
        forall error ensures !TransitionsRejected(e, axioms, ix, error) {
          NoneRejected(e, axioms, ix, trs, n, error);
        }
        r := filtered;
    }
  }
}
