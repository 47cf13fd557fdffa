/** Renaming the elements of every sort does not change the truth of a well-sorted term. */
module Isomorphism {
  import opened Collections
  import opened Syntax
  import opened Semantics
  import opened SortCheck

  /** A bijection on the elements of each sort, given with its inverse. */
  datatype Renaming = Renaming(to: (Sort, Element) -> Element, from: (Sort, Element) -> Element)

  ghost predicate IsRenaming(pi: Renaming, universe: Universe) {
    && (forall x: nat | x < 2 :: pi.to(Bool, x) == x)
    && (forall s, x: nat | x < universe(s) :: pi.to(s, x) < universe(s) && pi.from(s, pi.to(s, x)) == x)
    && (forall s, x: nat | x < universe(s) :: pi.from(s, x) < universe(s) && pi.to(s, pi.from(s, x)) == x)
  }

  function RenameTuple(to: (Sort, Element) -> Element, sorts: seq<Sort>, es: seq<Element>): (r: seq<Element>)
    requires |sorts| == |es|
    ensures |r| == |es|
    ensures forall i | 0 <= i < |es| :: r[i] == to(sorts[i], es[i])
  {
    seq<Element>(|es|, i requires 0 <= i < |es| => to(sorts[i], es[i]))
  }

  /** The symbols of the scope have corresponding values in both traces, at all times. */
  ghost predicate IsomorphicTraces(scope: Scope, tr1: Trace, tr2: Trace, pi: Renaming) {
    && (forall s :: tr1.universe(s) == tr2.universe(s))
    && IsRenaming(pi, tr1.universe)
    && (forall k: nat, name | name in scope && scope[name].Individual? ::
          tr2.at(k)(name, []) == pi.to(scope[name].sort, tr1.at(k)(name, [])))
    && (forall k: nat, name, es | name in scope && scope[name].Relation? && TupleOf(es, scope[name].args, tr1.universe) ::
          tr2.at(k)(name, RenameTuple(pi.to, scope[name].args, es)) == pi.to(scope[name].ret, tr1.at(k)(name, es)))
  }

  ghost predicate RenamedAssignment(scope: Scope, asg1: Assignment, asg2: Assignment, pi: Renaming) {
    && asg1.Keys == asg2.Keys
    && forall name | name in asg1 ::
         name in scope && scope[name].Individual? && asg2[name] == pi.to(scope[name].sort, asg1[name])
  }

  /** Everything the two evaluations of a term are compared under. */
  ghost predicate Related(base: Scope, scope: Scope, tr1: Trace, tr2: Trace, pi: Renaming,
                          asg1: Assignment, asg2: Assignment) {
    && TraceFits(base, tr1) && IsomorphicTraces(base, tr1, tr2, pi)
    && AssignmentFits(base, scope, asg1, tr1.universe) && RenamedAssignment(scope, asg1, asg2, pi)
  }

  ghost predicate Corresponds(t: Term, s: Sort, tr1: Trace, tr2: Trace, pi: Renaming, k: nat,
                              asg1: Assignment, asg2: Assignment) {
    && Eval(t, tr1, k, asg1) < tr1.universe(s)
    && Eval(t, tr2, k, asg2) == pi.to(s, Eval(t, tr1, k, asg1))
  }

  lemma {:induction false} IsoEval(t: Term, base: Scope, scope: Scope, tr1: Trace, tr2: Trace, pi: Renaming, k: nat,
                                   asg1: Assignment, asg2: Assignment)
    requires Related(base, scope, tr1, tr2, pi, asg1, asg2)
    requires SortOf(t, scope).Some?
    ensures Corresponds(t, SortOf(t, scope).value, tr1, tr2, pi, k, asg1, asg2)
    decreases t, 1
  {
    match t
    case Literal(b) =>
    case Id(name) => assert name in scope && (name in asg1 || name in base);
    case App(f, p, args) => IsoApp(f, p, args, base, scope, tr1, tr2, pi, k, asg1, asg2);
    case UnaryOp(op, x) =>
      IsoAlways(x, base, scope, tr1, tr2, pi, asg1, asg2);
      IsoUnary(op, x, scope, tr1, tr2, pi, k, asg1, asg2);
    case BinOp(op, x, y) =>
      IsoAlways(x, base, scope, tr1, tr2, pi, asg1, asg2);
      IsoAlways(y, base, scope, tr1, tr2, pi, asg1, asg2);
      IsoBinary(op, x, y, scope, tr1, tr2, pi, k, asg1, asg2);
    case NAryOp(op, args) => IsoNAry(op, args, base, scope, tr1, tr2, pi, k, asg1, asg2);
    case Ite(c, x, y) =>
      IsoEval(c, base, scope, tr1, tr2, pi, k, asg1, asg2);
      IsoEval(x, base, scope, tr1, tr2, pi, k, asg1, asg2);
      IsoEval(y, base, scope, tr1, tr2, pi, k, asg1, asg2);
      IsoIte(c, x, y, SortOf(x, scope).value, tr1, tr2, pi, k, asg1, asg2);
    case Quantified(q, binders, body) =>
      IsoQuantified(q, binders, body, base, scope, tr1, tr2, pi, k, asg1, asg2);
  }

  lemma {:induction false} IsoNAry(op: NOp, args: seq<Term>, base: Scope, scope: Scope, tr1: Trace, tr2: Trace,
                                   pi: Renaming, k: nat, asg1: Assignment, asg2: Assignment)
    requires Related(base, scope, tr1, tr2, pi, asg1, asg2)
    requires SortOf(NAryOp(op, args), scope).Some?
    ensures Corresponds(NAryOp(op, args), Bool, tr1, tr2, pi, k, asg1, asg2)
    decreases NAryOp(op, args), 0
  {
    forall i | 0 <= i < |args| ensures Eval(args[i], tr2, k, asg2) == Eval(args[i], tr1, k, asg1) {
      IsoEval(args[i], base, scope, tr1, tr2, pi, k, asg1, asg2);
      assert Corresponds(args[i], Bool, tr1, tr2, pi, k, asg1, asg2);
    }
    assert EvalAll(args, tr1, k, asg1) == EvalAll(args, tr2, k, asg2);
  }

  lemma IsoIte(c: Term, x: Term, y: Term, s: Sort, tr1: Trace, tr2: Trace, pi: Renaming, k: nat,
               asg1: Assignment, asg2: Assignment)
    requires IsRenaming(pi, tr1.universe) && tr1.universe(Bool) == 2
    requires Corresponds(c, Bool, tr1, tr2, pi, k, asg1, asg2)
    requires Corresponds(x, s, tr1, tr2, pi, k, asg1, asg2) && Corresponds(y, s, tr1, tr2, pi, k, asg1, asg2)
    ensures Corresponds(Ite(c, x, y), s, tr1, tr2, pi, k, asg1, asg2)
  {
  }

  lemma {:induction false} IsoAlways(t: Term, base: Scope, scope: Scope, tr1: Trace, tr2: Trace, pi: Renaming,
                                     asg1: Assignment, asg2: Assignment)
    requires Related(base, scope, tr1, tr2, pi, asg1, asg2)
    requires SortOf(t, scope).Some?
    ensures forall j: nat :: Corresponds(t, SortOf(t, scope).value, tr1, tr2, pi, j, asg1, asg2)
    ensures IsRenaming(pi, tr1.universe) && tr1.universe(Bool) == 2
    decreases t, 2
  {
    hide Corresponds, IsRenaming, SortOf;
    assert IsRenaming(pi, tr1.universe);
    forall j: nat ensures Corresponds(t, SortOf(t, scope).value, tr1, tr2, pi, j, asg1, asg2) {
      IsoEval(t, base, scope, tr1, tr2, pi, j, asg1, asg2);
    }
  }

  /** A truth value is not renamed. */
  lemma SameTruth(t: Term, tr1: Trace, tr2: Trace, pi: Renaming, asg1: Assignment, asg2: Assignment)
    requires IsRenaming(pi, tr1.universe) && tr1.universe(Bool) == 2
    requires forall j: nat :: Corresponds(t, Bool, tr1, tr2, pi, j, asg1, asg2)
    ensures Shifted(t, tr2, asg2, t, tr1, asg1, 0)
  {
    hide Eval;
    forall j: nat ensures Eval(t, tr2, j, asg2) == Eval(t, tr1, j, asg1) {
      assert Corresponds(t, Bool, tr1, tr2, pi, j, asg1, asg2);
    }
  }

  lemma IsoUnary(op: UOp, x: Term, scope: Scope, tr1: Trace, tr2: Trace, pi: Renaming, k: nat,
                 asg1: Assignment, asg2: Assignment)
    requires SortOf(UnaryOp(op, x), scope).Some?
    requires IsRenaming(pi, tr1.universe) && tr1.universe(Bool) == 2
    requires forall j: nat :: Corresponds(x, SortOf(x, scope).value, tr1, tr2, pi, j, asg1, asg2)
    ensures Corresponds(UnaryOp(op, x), SortOf(UnaryOp(op, x), scope).value, tr1, tr2, pi, k, asg1, asg2)
  {
    if op == Prime {
      hide Corresponds;
      assert Corresponds(x, SortOf(x, scope).value, tr1, tr2, pi, k + 1, asg1, asg2);
      PrimeCorresponds(x, SortOf(x, scope).value, tr1, tr2, pi, k, asg1, asg2);
    } else {
      SameTruth(x, tr1, tr2, pi, asg1, asg2);
      UnaryShift(op, x, tr2, asg2, x, tr1, asg1, 0, k);
      UnaryIsTruth(op, x, tr1, tr2, pi, k, asg1, asg2);
    }
  }

  lemma PrimeCorresponds(x: Term, s: Sort, tr1: Trace, tr2: Trace, pi: Renaming, k: nat, asg1: Assignment, asg2: Assignment)
    requires Corresponds(x, s, tr1, tr2, pi, k + 1, asg1, asg2)
    ensures Corresponds(UnaryOp(Prime, x), s, tr1, tr2, pi, k, asg1, asg2)
  {
  }

  lemma UnaryIsTruth(op: UOp, x: Term, tr1: Trace, tr2: Trace, pi: Renaming, k: nat, asg1: Assignment, asg2: Assignment)
    requires op != Prime
    requires IsRenaming(pi, tr1.universe) && tr1.universe(Bool) == 2
    requires EvalUnary(op, x, tr2, k, asg2) == EvalUnary(op, x, tr1, k, asg1)
    requires Corresponds(x, Bool, tr1, tr2, pi, k + 1, asg1, asg2)
    ensures Corresponds(UnaryOp(op, x), Bool, tr1, tr2, pi, k, asg1, asg2)
  {
    hide HoldsFrom, NeverFrom;
    assert EvalUnary(op, x, tr1, k, asg1) < 2;
  }

  lemma IsoBinary(op: BOp, x: Term, y: Term, scope: Scope, tr1: Trace, tr2: Trace, pi: Renaming, k: nat,
                  asg1: Assignment, asg2: Assignment)
    requires SortOf(BinOp(op, x, y), scope).Some?
    requires IsRenaming(pi, tr1.universe) && tr1.universe(Bool) == 2
    requires forall j: nat :: Corresponds(x, SortOf(x, scope).value, tr1, tr2, pi, j, asg1, asg2)
    requires forall j: nat :: Corresponds(y, SortOf(y, scope).value, tr1, tr2, pi, j, asg1, asg2)
    ensures Corresponds(BinOp(op, x, y), SortOf(BinOp(op, x, y), scope).value, tr1, tr2, pi, k, asg1, asg2)
  {
    if op == Until || op == Since {
      SameTruth(x, tr1, tr2, pi, asg1, asg2);
      SameTruth(y, tr1, tr2, pi, asg1, asg2);
      BinaryShift(op, x, y, tr2, asg2, x, y, tr1, asg1, 0, k);
    } else {
      SameState(op, x, y, SortOf(x, scope).value, tr1, tr2, pi, k, asg1, asg2);
    }
    BinaryIsTruth(op, x, y, tr1, tr2, pi, k, asg1, asg2);
  }

  lemma SameState(op: BOp, x: Term, y: Term, s: Sort, tr1: Trace, tr2: Trace, pi: Renaming, k: nat,
                  asg1: Assignment, asg2: Assignment)
    requires op != Until && op != Since
    requires op != Equals && op != NotEquals ==> s == Bool
    requires IsRenaming(pi, tr1.universe) && tr1.universe(Bool) == 2
    requires Corresponds(x, s, tr1, tr2, pi, k, asg1, asg2)
    requires Corresponds(y, s, tr1, tr2, pi, k, asg1, asg2)
    ensures EvalBinary(op, x, y, tr2, k, asg2) == EvalBinary(op, x, y, tr1, k, asg1)
  {
    hide Eval;
    var a, b := Eval(x, tr1, k, asg1), Eval(y, tr1, k, asg1);
    assert pi.from(s, pi.to(s, a)) == a && pi.from(s, pi.to(s, b)) == b;
  }

  lemma BinaryIsTruth(op: BOp, x: Term, y: Term, tr1: Trace, tr2: Trace, pi: Renaming, k: nat,
                      asg1: Assignment, asg2: Assignment)
    requires IsRenaming(pi, tr1.universe) && tr1.universe(Bool) == 2
    requires EvalBinary(op, x, y, tr2, k, asg2) == EvalBinary(op, x, y, tr1, k, asg1)
    ensures Corresponds(BinOp(op, x, y), Bool, tr1, tr2, pi, k, asg1, asg2)
  {
    hide SomeUntil, SomeSince;
    assert EvalBinary(op, x, y, tr1, k, asg1) < 2;
  }

  lemma {:induction false} IsoApp(f: string, p: nat, args: seq<Term>, base: Scope, scope: Scope, tr1: Trace, tr2: Trace,
                                  pi: Renaming, k: nat, asg1: Assignment, asg2: Assignment)
    requires Related(base, scope, tr1, tr2, pi, asg1, asg2)
    requires SortOf(App(f, p, args), scope).Some?
    ensures Corresponds(App(f, p, args), SortOf(App(f, p, args), scope).value, tr1, tr2, pi, k, asg1, asg2)
    decreases App(f, p, args), 0
  {
    var sorts := scope[f].args;
    var es := EvalAll(args, tr1, k, asg1);
    forall i | 0 <= i < |args| ensures Corresponds(args[i], sorts[i], tr1, tr2, pi, k, asg1, asg2) {
      IsoEval(args[i], base, scope, tr1, tr2, pi, k, asg1, asg2);
    }
    assert f in base && base[f] == scope[f];
    forall i | 0 <= i < |args| ensures es[i] < tr1.universe(sorts[i]) {
      assert Corresponds(args[i], sorts[i], tr1, tr2, pi, k, asg1, asg2);
    }
    assert TupleOf(es, sorts, tr1.universe);
    forall i | 0 <= i < |args| ensures EvalAll(args, tr2, k, asg2)[i] == pi.to(sorts[i], es[i]) {
      assert Corresponds(args[i], sorts[i], tr1, tr2, pi, k, asg1, asg2);
    }
    assert EvalAll(args, tr2, k, asg2) == RenameTuple(pi.to, sorts, es);
  }

  function Sorts(binders: seq<Binder>): (r: seq<Sort>)
    ensures |r| == |binders|
  {
    seq(|binders|, i requires 0 <= i < |binders| => binders[i].sort)
  }

  lemma BindOneRelated(b: Binder, base: Scope, scope: Scope, universe: Universe, pi: Renaming,
                       asg1: Assignment, asg2: Assignment, e: Element)
    requires AssignmentFits(base, scope, asg1, universe) && RenamedAssignment(scope, asg1, asg2, pi)
    requires e < universe(b.sort)
    ensures AssignmentFits(base, scope[b.name := Individual(b.sort)], asg1[b.name := e], universe)
    ensures RenamedAssignment(scope[b.name := Individual(b.sort)], asg1[b.name := e], asg2[b.name := pi.to(b.sort, e)], pi)
  {
  }

  lemma {:induction false} BindRelated(binders: seq<Binder>, base: Scope, scope: Scope, universe: Universe, pi: Renaming,
                                       asg1: Assignment, asg2: Assignment, es: seq<Element>)
    requires AssignmentFits(base, scope, asg1, universe) && RenamedAssignment(scope, asg1, asg2, pi)
    requires InShape(es, Shape(universe, binders))
    ensures AssignmentFits(base, AddBinders(scope, binders), Bind(asg1, binders, es), universe)
    ensures RenamedAssignment(AddBinders(scope, binders), Bind(asg1, binders, es),
                              Bind(asg2, binders, RenameTuple(pi.to, Sorts(binders), es)), pi)
    decreases |binders|
  {
    hide AssignmentFits, RenamedAssignment;
    if binders != [] {
      var b := binders[0];
      var es2 := RenameTuple(pi.to, Sorts(binders), es);
      assert es2[1..] == RenameTuple(pi.to, Sorts(binders[1..]), es[1..]);
      assert es[0] < Shape(universe, binders)[0];
      assert Shape(universe, binders)[1..] == Shape(universe, binders[1..]);
      forall i | 0 <= i < |es[1..]| ensures es[1..][i] < Shape(universe, binders[1..])[i] {
        assert es[i + 1] < Shape(universe, binders)[i + 1];
      }
      BindOneRelated(b, base, scope, universe, pi, asg1, asg2, es[0]);
      BindRelated(binders[1..], base, scope[b.name := Individual(b.sort)], universe, pi,
                  asg1[b.name := es[0]], asg2[b.name := es2[0]], es[1..]);
    }
  }

  lemma {:induction false} IsoQuantified(q: Quantifier, binders: seq<Binder>, body: Term, base: Scope, scope: Scope,
                                         tr1: Trace, tr2: Trace, pi: Renaming, k: nat, asg1: Assignment, asg2: Assignment)
    requires Related(base, scope, tr1, tr2, pi, asg1, asg2)
    requires SortOf(Quantified(q, binders, body), scope).Some?
    ensures Corresponds(Quantified(q, binders, body), Bool, tr1, tr2, pi, k, asg1, asg2)
    decreases body, 3
  {
    hide Eval, OnAllTuples;
    assert SortOf(body, AddBinders(scope, binders)) == Some(Bool);
    forall es | InShape(es, Shape(tr1.universe, binders))
      ensures Corresponds(body, Bool, tr1, tr2, pi, k, Bind(asg1, binders, es),
                          Bind(asg2, binders, RenameTuple(pi.to, Sorts(binders), es)))
    {
      BindRelated(binders, base, scope, tr1.universe, pi, asg1, asg2, es);
      IsoEval(body, base, AddBinders(scope, binders), tr1, tr2, pi, k, Bind(asg1, binders, es),
              Bind(asg2, binders, RenameTuple(pi.to, Sorts(binders), es)));
    }
    SameQuantified(q, binders, body, tr1, tr2, pi, k, asg1, asg2);
  }

  lemma SameQuantified(q: Quantifier, binders: seq<Binder>, body: Term, tr1: Trace, tr2: Trace, pi: Renaming, k: nat,
                       asg1: Assignment, asg2: Assignment)
    requires IsRenaming(pi, tr1.universe) && tr1.universe(Bool) == 2
    requires forall s :: tr1.universe(s) == tr2.universe(s)
    requires forall es | InShape(es, Shape(tr1.universe, binders)) ::
      Corresponds(body, Bool, tr1, tr2, pi, k, Bind(asg1, binders, es),
                  Bind(asg2, binders, RenameTuple(pi.to, Sorts(binders), es)))
    ensures Corresponds(Quantified(q, binders, body), Bool, tr1, tr2, pi, k, asg1, asg2)
  {
    if binders == [] {
      SameUnquantified(q, binders, body, tr1, tr2, pi, k, asg1, asg2);
    } else {
      hide *;
      SameOnAll(q == Forall, binders, body, tr1, tr2, pi, k, asg1, asg2);
      QuantifiedValue(q, binders, body, tr1, tr2, pi, k, asg1, asg2);
    }
  }

  lemma SameUnquantified(q: Quantifier, binders: seq<Binder>, body: Term, tr1: Trace, tr2: Trace, pi: Renaming, k: nat,
                         asg1: Assignment, asg2: Assignment)
    requires binders == []
    requires forall es | InShape(es, Shape(tr1.universe, binders)) ::
      Corresponds(body, Bool, tr1, tr2, pi, k, Bind(asg1, binders, es),
                  Bind(asg2, binders, RenameTuple(pi.to, Sorts(binders), es)))
    ensures Corresponds(Quantified(q, binders, body), Bool, tr1, tr2, pi, k, asg1, asg2)
  {
    hide EvalQuantified;
    assert InShape([], Shape(tr1.universe, binders));
    assert Corresponds(body, Bool, tr1, tr2, pi, k, asg1, asg2);
  }

  lemma QuantifiedValue(q: Quantifier, binders: seq<Binder>, body: Term, tr1: Trace, tr2: Trace, pi: Renaming, k: nat,
                        asg1: Assignment, asg2: Assignment)
    requires binders != [] && IsRenaming(pi, tr1.universe) && tr1.universe(Bool) == 2
    requires OnAllTuples(q == Forall, binders, body, tr1, k, asg1) == OnAllTuples(q == Forall, binders, body, tr2, k, asg2)
    ensures Corresponds(Quantified(q, binders, body), Bool, tr1, tr2, pi, k, asg1, asg2)
  {
    hide OnAllTuples;
    var v := EvalQuantified(q, binders, body, tr1, k, asg1);
    assert v == EvalQuantified(q, binders, body, tr2, k, asg2) && v < 2;
    assert pi.to(Bool, v) == v;
  }

  lemma OnAllForward(value: bool, binders: seq<Binder>, body: Term, tr1: Trace, tr2: Trace, pi: Renaming, k: nat,
                     asg1: Assignment, asg2: Assignment)
    requires IsRenaming(pi, tr1.universe) && tr1.universe(Bool) == 2
    requires forall s :: tr1.universe(s) == tr2.universe(s)
    requires forall es | InShape(es, Shape(tr1.universe, binders)) ::
      Corresponds(body, Bool, tr1, tr2, pi, k, Bind(asg1, binders, es),
                  Bind(asg2, binders, RenameTuple(pi.to, Sorts(binders), es)))
    requires OnAllTuples(value, binders, body, tr1, k, asg1)
    ensures OnAllTuples(value, binders, body, tr2, k, asg2)
  {
    hide Eval;
    var sorts := Sorts(binders);
    assert Shape(tr1.universe, binders) == Shape(tr2.universe, binders);
    forall es | InShape(es, Shape(tr2.universe, binders))
      ensures (Eval(body, tr2, k, Bind(asg2, binders, es)) == 1) == value
    {
      var es1 := RenameTuple(pi.from, sorts, es);
      assert InShape(es1, Shape(tr1.universe, binders));
      assert RenameTuple(pi.to, sorts, es1) == es;
      assert Corresponds(body, Bool, tr1, tr2, pi, k, Bind(asg1, binders, es1), Bind(asg2, binders, es));
    }
  }

  lemma OnAllBackward(value: bool, binders: seq<Binder>, body: Term, tr1: Trace, tr2: Trace, pi: Renaming, k: nat,
                      asg1: Assignment, asg2: Assignment)
    requires IsRenaming(pi, tr1.universe) && tr1.universe(Bool) == 2
    requires forall s :: tr1.universe(s) == tr2.universe(s)
    requires forall es | InShape(es, Shape(tr1.universe, binders)) ::
      Corresponds(body, Bool, tr1, tr2, pi, k, Bind(asg1, binders, es),
                  Bind(asg2, binders, RenameTuple(pi.to, Sorts(binders), es)))
    requires OnAllTuples(value, binders, body, tr2, k, asg2)
    ensures OnAllTuples(value, binders, body, tr1, k, asg1)
  {
    hide Eval;
    forall es | InShape(es, Shape(tr1.universe, binders))
      ensures (Eval(body, tr1, k, Bind(asg1, binders, es)) == 1) == value
    {
      var es2 := RenameTuple(pi.to, Sorts(binders), es);
      assert InShape(es2, Shape(tr2.universe, binders));
      assert Corresponds(body, Bool, tr1, tr2, pi, k, Bind(asg1, binders, es), Bind(asg2, binders, es2));
    }
  }

  lemma SameOnAll(value: bool, binders: seq<Binder>, body: Term, tr1: Trace, tr2: Trace, pi: Renaming, k: nat,
                  asg1: Assignment, asg2: Assignment)
    requires IsRenaming(pi, tr1.universe) && tr1.universe(Bool) == 2
    requires forall s :: tr1.universe(s) == tr2.universe(s)
    requires forall es | InShape(es, Shape(tr1.universe, binders)) ::
      Corresponds(body, Bool, tr1, tr2, pi, k, Bind(asg1, binders, es),
                  Bind(asg2, binders, RenameTuple(pi.to, Sorts(binders), es)))
    ensures OnAllTuples(value, binders, body, tr1, k, asg1) == OnAllTuples(value, binders, body, tr2, k, asg2)
  {
    hide *;
    if OnAllTuples(value, binders, body, tr1, k, asg1) {
      OnAllForward(value, binders, body, tr1, tr2, pi, k, asg1, asg2);
    } else if OnAllTuples(value, binders, body, tr2, k, asg2) {
      OnAllBackward(value, binders, body, tr1, tr2, pi, k, asg1, asg2);
    }
  }

  /** Isomorphic traces agree on every closed formula at every time. */
  lemma ClosedTermInvariant(t: Term, scope: Scope, tr1: Trace, tr2: Trace, pi: Renaming, k: nat)
    requires TraceFits(scope, tr1) && IsomorphicTraces(scope, tr1, tr2, pi)
    requires SortOf(t, scope) == Some(Bool)
    ensures Eval(t, tr1, k, map[]) == Eval(t, tr2, k, map[]) < 2
  {
    hide Eval, SortOf;
    IsoEval(t, scope, scope, tr1, tr2, pi, k, map[], map[]);
    assert Corresponds(t, Bool, tr1, tr2, pi, k, map[], map[]);
  }
}
