/** The meaning of terms over infinite traces of finite models.  On terms without temporal
    operators and primes this is the evaluation of a term in one finite model. */
module Semantics {
  import opened Collections
  import opened Syntax

  type Element = nat

  /** One model of the trace: the value of every symbol at every argument tuple. */
  type Interp = (string, seq<Element>) -> Element

  /** The number of elements of each sort, the same at all times. */
  type Universe = Sort -> nat

  datatype Trace = Trace(universe: Universe, at: nat -> Interp)

  type Assignment = map<string, Element>

  function Shape(universe: Universe, binders: seq<Binder>): seq<nat> {
    seq<nat>(|binders|, i requires 0 <= i < |binders| => universe(binders[i].sort))
  }

  /** Extend an assignment by the binders, one after the other. */
  function Bind(asg: Assignment, binders: seq<Binder>, es: seq<Element>): (r: Assignment)
    ensures asg.Keys <= r.Keys
    ensures |binders| == |es| ==> r.Keys == asg.Keys + BinderNames(binders)
    decreases |binders|
  {
    if binders == [] || es == [] then asg
    else
      assert binders == [binders[0]] + binders[1..];
      Bind(asg[binders[0].name := es[0]], binders[1..], es[1..])
  }

  function ToElement(b: bool): Element {
    if b then 1 else 0
  }

  predicate NotBefore(k: nat, j: nat) {
    k <= j
  }

  /** The value of `t` at time `k` of the trace. */
  ghost function Eval(t: Term, tr: Trace, k: nat, asg: Assignment): Element
    decreases t, 4
  {
    match t
    case Literal(b) => ToElement(b)
    case Id(name) => if name in asg then asg[name] else tr.at(k)(name, [])
    case App(f, p, args) => tr.at(k + p)(f, EvalAll(args, tr, k, asg))
    case UnaryOp(op, x) => EvalUnary(op, x, tr, k, asg)
    case BinOp(op, x, y) => EvalBinary(op, x, y, tr, k, asg)
    case NAryOp(op, args) => NAryValue(op, EvalAll(args, tr, k, asg))
    case Ite(c, x, y) =>
      if Eval(c, tr, k, asg) == 1 then Eval(x, tr, k, asg) else Eval(y, tr, k, asg)
    case Quantified(q, binders, body) =>
      if binders == [] then Eval(body, tr, k, asg) else EvalQuantified(q, binders, body, tr, k, asg)
  }

  ghost function EvalAll(ts: seq<Term>, tr: Trace, k: nat, asg: Assignment): (r: seq<Element>)
    ensures |r| == |ts|
    ensures forall i | 0 <= i < |ts| :: r[i] == Eval(ts[i], tr, k, asg)
    decreases ts, 0
  {
    seq(|ts|, i requires 0 <= i < |ts| => Eval(ts[i], tr, k, asg))
  }

  ghost function EvalUnary(op: UOp, x: Term, tr: Trace, k: nat, asg: Assignment): Element
    decreases UnaryOp(op, x), 2
  {
    match op
    case Not => ToElement(Eval(x, tr, k, asg) == 0)
    case Prime => Eval(x, tr, k + 1, asg)
    case Next => Eval(x, tr, k + 1, asg)
    case Always => ToElement(HoldsFrom(x, tr, k, asg))
    case Eventually => ToElement(!NeverFrom(x, tr, k, asg))
    case Previous => ToElement(k > 0 && Eval(x, tr, k - 1, asg) == 1)
  }

  ghost predicate HoldsFrom(x: Term, tr: Trace, k: nat, asg: Assignment)
    decreases UnaryOp(Always, x), 1
  {
    forall j: nat | k <= j :: Eval(x, tr, j, asg) == 1
  }

  ghost predicate NeverFrom(x: Term, tr: Trace, k: nat, asg: Assignment)
    decreases UnaryOp(Eventually, x), 1
  {
    forall j: nat | k <= j :: Eval(x, tr, j, asg) != 1
  }

  ghost predicate UntilAt(x: Term, y: Term, tr: Trace, k: nat, j: nat, asg: Assignment)
    decreases BinOp(Until, x, y), 1
  {
    && Eval(y, tr, j, asg) == 1
    && forall i: nat | k <= i < j :: Eval(x, tr, i, asg) == 1
  }

  ghost predicate SinceAt(x: Term, y: Term, tr: Trace, k: nat, j: nat, asg: Assignment)
    decreases BinOp(Since, x, y), 1
  {
    && Eval(y, tr, j, asg) == 1
    && forall i: nat | j < i <= k :: Eval(x, tr, i, asg) == 1
  }

  ghost predicate SomeUntil(x: Term, y: Term, tr: Trace, k: nat, asg: Assignment)
    decreases BinOp(Until, x, y), 2
  {
    exists j: nat :: NotBefore(k, j) && UntilAt(x, y, tr, k, j, asg)
  }

  ghost predicate SomeSince(x: Term, y: Term, tr: Trace, k: nat, asg: Assignment)
    decreases BinOp(Since, x, y), 2
  {
    exists j: nat :: NotBefore(j, k) && SinceAt(x, y, tr, k, j, asg)
  }

  ghost function EvalBinary(op: BOp, x: Term, y: Term, tr: Trace, k: nat, asg: Assignment): Element
    decreases BinOp(op, x, y), 3
  {
    match op
    case Equals => ToElement(Eval(x, tr, k, asg) == Eval(y, tr, k, asg))
    case Iff => ToElement(Eval(x, tr, k, asg) == Eval(y, tr, k, asg))
    case NotEquals => ToElement(Eval(x, tr, k, asg) != Eval(y, tr, k, asg))
    case Implies => ToElement(Eval(x, tr, k, asg) <= Eval(y, tr, k, asg))
    case Until => ToElement(SomeUntil(x, y, tr, k, asg))
    case Since => ToElement(SomeSince(x, y, tr, k, asg))
  }

  function NAryValue(op: NOp, vs: seq<Element>): Element {
    match op
    case And => ToElement(forall v <- vs :: v == 1)
    case Or => ToElement(exists v <- vs :: v == 1)
  }

  /** A quantifier ranges over all element tuples of the shape of its binders. */
  ghost function EvalQuantified(q: Quantifier, binders: seq<Binder>, body: Term, tr: Trace, k: nat,
                                asg: Assignment): Element
    decreases body, 6
  {
    match q
    case Forall => ToElement(OnAllTuples(true, binders, body, tr, k, asg))
    case Exists => ToElement(!OnAllTuples(false, binders, body, tr, k, asg))
  }

  /** The body has the given truth value on all element tuples of the shape of the binders. */
  ghost predicate OnAllTuples(value: bool, binders: seq<Binder>, body: Term, tr: Trace, k: nat, asg: Assignment)
    decreases body, 5
  {
    forall es | InShape(es, Shape(tr.universe, binders)) ::
      (Eval(body, tr, k, Bind(asg, binders, es)) == 1) == value
  }

  // One step of evaluation.

  lemma UnaryEval(op: UOp, x: Term, tr: Trace, k: nat, asg: Assignment)
    ensures Eval(UnaryOp(op, x), tr, k, asg) == EvalUnary(op, x, tr, k, asg)
    ensures op == Not ==> Eval(UnaryOp(op, x), tr, k, asg) == ToElement(Eval(x, tr, k, asg) == 0)
    ensures op != Prime && op != Next ==> Eval(UnaryOp(op, x), tr, k, asg) < 2
  {
    hide HoldsFrom, NeverFrom;
  }

  lemma BinaryEval(op: BOp, x: Term, y: Term, tr: Trace, k: nat, asg: Assignment)
    ensures Eval(BinOp(op, x, y), tr, k, asg) == EvalBinary(op, x, y, tr, k, asg) < 2
    ensures op == Implies ==> Eval(BinOp(op, x, y), tr, k, asg) == ToElement(Eval(x, tr, k, asg) <= Eval(y, tr, k, asg))
  {
    hide SomeUntil, SomeSince;
  }

  lemma QuantifiedEval(q: Quantifier, binders: seq<Binder>, body: Term, tr: Trace, k: nat, asg: Assignment)
    ensures binders != [] ==>
      Eval(Quantified(q, binders, body), tr, k, asg)
        == ToElement(OnAllTuples(q == Forall, binders, body, tr, k, asg) == (q == Forall))
    ensures binders == [] ==> Eval(Quantified(q, binders, body), tr, k, asg) == Eval(body, tr, k, asg)
  {
    hide OnAllTuples;
  }

  /** At every time the first term has, in its trace, the value the second has `next` steps later. */
  ghost predicate Shifted(x': Term, tr': Trace, asg': Assignment, x: Term, tr: Trace, asg: Assignment, next: nat) {
    forall j: nat :: Eval(x', tr', j, asg') == Eval(x, tr, j + next, asg)
  }

  lemma AlwaysShift(x': Term, tr': Trace, asg': Assignment, x: Term, tr: Trace, asg: Assignment, next: nat, k: nat)
    requires Shifted(x', tr', asg', x, tr, asg, next)
    ensures HoldsFrom(x', tr', k, asg') == HoldsFrom(x, tr, k + next, asg)
  {
    hide Eval;
    forall j: nat | k + next <= j ensures Eval(x, tr, j, asg) == Eval(x', tr', j - next, asg') {}
  }

  lemma EventuallyShift(x': Term, tr': Trace, asg': Assignment, x: Term, tr: Trace, asg: Assignment, next: nat, k: nat)
    requires Shifted(x', tr', asg', x, tr, asg, next)
    ensures NeverFrom(x', tr', k, asg') == NeverFrom(x, tr, k + next, asg)
  {
    hide Eval;
    forall j: nat | k + next <= j ensures Eval(x, tr, j, asg) == Eval(x', tr', j - next, asg') {}
  }

  lemma UnaryNowShift(op: UOp, x': Term, tr': Trace, asg': Assignment, x: Term, tr: Trace, asg: Assignment, next: nat, k: nat)
    requires op != Always && op != Eventually
    requires op == Previous ==> next == 0
    requires Shifted(x', tr', asg', x, tr, asg, next)
    ensures EvalUnary(op, x', tr', k, asg') == EvalUnary(op, x, tr, k + next, asg)
  {
    hide Eval, HoldsFrom, NeverFrom;
  }

  lemma UnarySpanShift(op: UOp, x': Term, tr': Trace, asg': Assignment, x: Term, tr: Trace, asg: Assignment, next: nat, k: nat)
    requires op == Always || op == Eventually
    requires HoldsFrom(x', tr', k, asg') == HoldsFrom(x, tr, k + next, asg)
    requires NeverFrom(x', tr', k, asg') == NeverFrom(x, tr, k + next, asg)
    ensures EvalUnary(op, x', tr', k, asg') == EvalUnary(op, x, tr, k + next, asg)
  {
    hide Eval, HoldsFrom, NeverFrom;
  }

  /** A future operator commutes with a shift of time. */
  lemma UnaryShift(op: UOp, x': Term, tr': Trace, asg': Assignment, x: Term, tr: Trace, asg: Assignment, next: nat, k: nat)
    requires op == Previous ==> next == 0
    requires Shifted(x', tr', asg', x, tr, asg, next)
    ensures EvalUnary(op, x', tr', k, asg') == EvalUnary(op, x, tr, k + next, asg)
  {
    hide *;
    if op == Always || op == Eventually {
      AlwaysShift(x', tr', asg', x, tr, asg, next, k);
      EventuallyShift(x', tr', asg', x, tr, asg, next, k);
      UnarySpanShift(op, x', tr', asg', x, tr, asg, next, k);
    } else {
      UnaryNowShift(op, x', tr', asg', x, tr, asg, next, k);
    }
  }

  lemma UntilShift(x': Term, y': Term, tr': Trace, asg': Assignment,
                    x: Term, y: Term, tr: Trace, asg: Assignment, next: nat, k: nat, j: nat)
    requires Shifted(x', tr', asg', x, tr, asg, next)
    requires Shifted(y', tr', asg', y, tr, asg, next)
    ensures UntilAt(x', y', tr', k, j, asg') <==> UntilAt(x, y, tr, k + next, j + next, asg)
  {
    hide Eval;
    forall i: nat | k + next <= i ensures Eval(x, tr, i, asg) == Eval(x', tr', i - next, asg') {}
  }

  lemma UntilLater(x': Term, y': Term, tr': Trace, asg': Assignment,
                    x: Term, y: Term, tr: Trace, asg: Assignment, next: nat, k: nat)
    requires Shifted(x', tr', asg', x, tr, asg, next)
    requires Shifted(y', tr', asg', y, tr, asg, next)
    requires SomeUntil(x', y', tr', k, asg')
    ensures SomeUntil(x, y, tr, k + next, asg)
  {
    hide Eval, UntilAt, Shifted;
    var j: nat :| NotBefore(k, j) && UntilAt(x', y', tr', k, j, asg');
    UntilShift(x', y', tr', asg', x, y, tr, asg, next, k, j);
    assert NotBefore(k + next, j + next);
  }

  lemma UntilEarlier(x': Term, y': Term, tr': Trace, asg': Assignment,
                    x: Term, y: Term, tr: Trace, asg: Assignment, next: nat, k: nat)
    requires Shifted(x', tr', asg', x, tr, asg, next)
    requires Shifted(y', tr', asg', y, tr, asg, next)
    requires SomeUntil(x, y, tr, k + next, asg)
    ensures SomeUntil(x', y', tr', k, asg')
  {
    hide Eval, UntilAt, Shifted;
    var kn := k + next;
    var j: nat :| NotBefore(kn, j) && UntilAt(x, y, tr, kn, j, asg);
    UntilShift(x', y', tr', asg', x, y, tr, asg, next, k, j - next);
    assert NotBefore(k, j - next);
  }

  lemma SomeUntilShift(x': Term, y': Term, tr': Trace, asg': Assignment,
                    x: Term, y: Term, tr: Trace, asg: Assignment, next: nat, k: nat)
    requires Shifted(x', tr', asg', x, tr, asg, next)
    requires Shifted(y', tr', asg', y, tr, asg, next)
    ensures SomeUntil(x', y', tr', k, asg') == SomeUntil(x, y, tr, k + next, asg)
  {
    hide Eval, UntilAt, Shifted, SomeUntil;
    if SomeUntil(x', y', tr', k, asg') {
      UntilLater(x', y', tr', asg', x, y, tr, asg, next, k);
    }
    if SomeUntil(x, y, tr, k + next, asg) {
      UntilEarlier(x', y', tr', asg', x, y, tr, asg, next, k);
    }
  }

  lemma SinceAtSame(x': Term, y': Term, tr': Trace, asg': Assignment, x: Term, y: Term, tr: Trace, asg: Assignment,
                    k: nat, j: nat)
    requires Shifted(x', tr', asg', x, tr, asg, 0) && Shifted(y', tr', asg', y, tr, asg, 0)
    requires SinceAt(x', y', tr', k, j, asg')
    ensures SinceAt(x, y, tr, k, j, asg)
  {
    hide Eval;
    forall i: nat ensures Eval(x, tr, i, asg) == Eval(x', tr', i, asg') {}
  }

  lemma SinceSame(x': Term, y': Term, tr': Trace, asg': Assignment, x: Term, y: Term, tr: Trace, asg: Assignment, k: nat)
    requires Shifted(x', tr', asg', x, tr, asg, 0) && Shifted(y', tr', asg', y, tr, asg, 0)
    requires SomeSince(x', y', tr', k, asg')
    ensures SomeSince(x, y, tr, k, asg)
  {
    hide Eval, SinceAt, Shifted;
    var j: nat :| NotBefore(j, k) && SinceAt(x', y', tr', k, j, asg');
    SinceAtSame(x', y', tr', asg', x, y, tr, asg, k, j);
  }

  lemma ShiftedBack(x': Term, tr': Trace, asg': Assignment, x: Term, tr: Trace, asg: Assignment)
    requires Shifted(x', tr', asg', x, tr, asg, 0)
    ensures Shifted(x, tr, asg, x', tr', asg', 0)
  {
    hide Eval;
  }

  lemma StateShift(op: BOp, x': Term, y': Term, tr': Trace, asg': Assignment,
                    x: Term, y: Term, tr: Trace, asg: Assignment, next: nat, k: nat)
    requires op != Since && op != Until
    requires Shifted(x', tr', asg', x, tr, asg, next)
    requires Shifted(y', tr', asg', y, tr, asg, next)
    ensures EvalBinary(op, x', y', tr', k, asg') == EvalBinary(op, x, y, tr, k + next, asg)
  {
    hide Eval;
  }

  lemma SpanShift(op: BOp, x': Term, y': Term, tr': Trace, asg': Assignment,
                    x: Term, y: Term, tr: Trace, asg: Assignment, next: nat, k: nat)
    requires op == Until ==> SomeUntil(x', y', tr', k, asg') == SomeUntil(x, y, tr, k + next, asg)
    requires op == Since ==> SomeSince(x', y', tr', k, asg') == SomeSince(x, y, tr, k + next, asg)
    requires op == Until || op == Since
    ensures EvalBinary(op, x', y', tr', k, asg') == EvalBinary(op, x, y, tr, k + next, asg)
  {
    hide Eval, UntilAt, SomeUntil, SomeSince;
  }

  lemma BinaryShift(op: BOp, x': Term, y': Term, tr': Trace, asg': Assignment,
                    x: Term, y: Term, tr: Trace, asg: Assignment, next: nat, k: nat)
    requires op == Since ==> next == 0
    requires Shifted(x', tr', asg', x, tr, asg, next)
    requires Shifted(y', tr', asg', y, tr, asg, next)
    ensures EvalBinary(op, x', y', tr', k, asg') == EvalBinary(op, x, y, tr, k + next, asg)
  {
    hide *;
    if op == Until {
      SomeUntilShift(x', y', tr', asg', x, y, tr, asg, next, k);
      SpanShift(op, x', y', tr', asg', x, y, tr, asg, next, k);
    } else if op == Since {
      ShiftedBack(x', tr', asg', x, tr, asg);
      ShiftedBack(y', tr', asg', y, tr, asg);
      if SomeSince(x', y', tr', k, asg') {
        SinceSame(x', y', tr', asg', x, y, tr, asg, k);
      } else if SomeSince(x, y, tr, k, asg) {
        SinceSame(x, y, tr, asg, x', y', tr', asg', k);
      }
      SpanShift(op, x', y', tr', asg', x, y, tr, asg, next, k);
    } else {
      StateShift(op, x', y', tr', asg', x, y, tr, asg, next, k);
    }
  }

  lemma QuantCong(q: Quantifier, binders: seq<Binder>, body: Term, tr: Trace, k: nat, asg: Assignment,
                  body': Term, tr': Trace, k': nat, asg': Assignment)
    requires Shape(tr.universe, binders) == Shape(tr'.universe, binders)
    requires forall es | InShape(es, Shape(tr.universe, binders)) ::
      Eval(body, tr, k, Bind(asg, binders, es)) == Eval(body', tr', k', Bind(asg', binders, es))
    ensures EvalQuantified(q, binders, body, tr, k, asg) == EvalQuantified(q, binders, body', tr', k', asg')
  {
    hide Eval;
    var value := q == Forall;
    assert OnAllTuples(value, binders, body, tr, k, asg) == OnAllTuples(value, binders, body', tr', k', asg');
  }

  /** Two quantified terms have the same value if their bodies have on every tuple. */
  lemma QuantifiedCong(q: Quantifier, binders: seq<Binder>, body: Term, tr: Trace, k: nat, asg: Assignment,
                       body': Term, tr': Trace, k': nat, asg': Assignment)
    requires Shape(tr.universe, binders) == Shape(tr'.universe, binders)
    requires forall es | InShape(es, Shape(tr.universe, binders)) ::
      Eval(body, tr, k, Bind(asg, binders, es)) == Eval(body', tr', k', Bind(asg', binders, es))
    ensures Eval(Quantified(q, binders, body), tr, k, asg) == Eval(Quantified(q, binders, body'), tr', k', asg')
  {
    hide EvalQuantified;
    if binders == [] {
      assert InShape([], Shape(tr.universe, binders));
    } else {
      QuantCong(q, binders, body, tr, k, asg, body', tr', k', asg');
    }
  }

  /** A formula holds when it evaluates to 1. */
  ghost predicate Holds(t: Term, tr: Trace, k: nat, asg: Assignment) {
    Eval(t, tr, k, asg) == 1
  }

  /** Immutable symbols have the same meaning at all times. */
  ghost predicate ConstantImmutables(sig: Signature, tr: Trace) {
    forall name, es, j: nat, k: nat | IsImmutable(sig, name) ::
      tr.at(j)(name, es) == tr.at(k)(name, es)
  }
}
