/** Finite models as they are stored, with a table of values for every symbol, and the evaluation
    of terms in them. */
module FiniteModels {
  import opened Collections
  import opened Syntax
  import opened Semantics
  import opened SortCheck

  // Tables.

  /** The numbers of values of the arguments and of the result, and a result for every tuple. */
  datatype Interpretation = Interpretation(shape: seq<nat>, data: seq<Element>)

  /** The number of tuples of a shape. */
  function Volume(shape: seq<nat>): nat {
    if shape == [] then 1 else shape[0] * Volume(shape[1..])
  }

  /** The place of a tuple among those of its shape, the leftmost entry counting most. */
  function Rank(es: seq<Element>, shape: seq<nat>): nat
    requires |es| == |shape|
  {
    if es == [] then 0 else es[0] * Volume(shape[1..]) + Rank(es[1..], shape[1..])
  }

  /** The value at a tuple.  Without a result an assertion failed or an index was out of range. */
  function Value(i: Interpretation, es: seq<Element>): Option<Element> {
    if i.shape == [] || !InShape(es, i.shape[..|i.shape| - 1]) then None
    else
      var place := Rank(es, i.shape[..|i.shape| - 1]);
      if place < |i.data| && i.data[place] < i.shape[|i.shape| - 1] then Some(i.data[place]) else None
  }

  lemma RankUnfold(es: seq<Element>, shape: seq<nat>, k: nat)
    requires |es| == |shape| && k < |es|
    ensures Rank(es[..k + 1], shape[..k + 1]) == es[0] * Volume(shape[1..][..k]) + Rank(es[1..][..k], shape[1..][..k])
  {
    assert es[..k + 1][1..] == es[1..][..k] && shape[..k + 1][1..] == shape[1..][..k];
  }

  /** One more argument. */
  lemma {:induction false} RankSplit(es: seq<Element>, shape: seq<nat>, k: nat)
    requires |es| == |shape| && k < |es|
    ensures Rank(es[..k + 1], shape[..k + 1]) == Rank(es[..k], shape[..k]) * shape[k] + es[k]
    decreases k
  {
    RankUnfold(es, shape, k);
    if k > 0 {
      RankUnfold(es, shape, k - 1);
      RankSplit(es[1..], shape[1..], k - 1);
      VolumeSplit(shape[1..], k - 1);
      hide Rank, Volume;
      Distribute(es[0], Volume(shape[1..][..k - 1]), Rank(es[1..][..k - 1], shape[1..][..k - 1]), shape[k]);
    }
  }

  lemma Distribute(a: nat, v: nat, r: nat, c: nat)
    ensures a * (v * c) + r * c == (a * v + r) * c
  {
  }

  lemma VolumeSplit(shape: seq<nat>, k: nat)
    requires k < |shape|
    ensures Volume(shape[..k + 1]) == Volume(shape[..k]) * shape[k]
    decreases k
  {
    if k == 0 {
      assert shape[..1][1..] == [];
    } else {
      VolumeSplit(shape[1..], k - 1);
      assert shape[..k + 1][1..] == shape[1..][..k] && shape[..k][1..] == shape[1..][..k - 1];
      Distribute(shape[0], Volume(shape[1..][..k - 1]), 0, shape[k]);
    }
  }

  /** Look a tuple up in the table. */
  method Get(i: Interpretation, es: seq<Element>) returns (r: Option<Element>)
    ensures r == Value(i, es)
  {
    if i.shape == [] || |i.shape| - 1 != |es| { return None; }
    ghost var args := i.shape[..|i.shape| - 1];
    var index, k := 0, 0;
    while k < |es|
      invariant k <= |es| && index == Rank(es[..k], args[..k])
      invariant forall j | 0 <= j < k :: es[j] < args[j]
    {
      if es[k] >= i.shape[k] { return None; }
      RankSplit(es, args, k);
      index := index * i.shape[k] + es[k];
      k := k + 1;
    }
    assert es[..k] == es && args[..k] == args;
    if index >= |i.data| || i.data[index] >= i.shape[|i.shape| - 1] { return None; }
    return Some(i.data[index]);
  }

  /** The table of a function; a value out of bounds trips an assertion. */
  function Tabulate(shape: seq<nat>, f: seq<Element> -> Element): Option<Interpretation> {
    if shape == [] then None
    else
      var tuples := Product(shape[..|shape| - 1]);
      if forall es <- tuples :: f(es) < shape[|shape| - 1] then Some(Interpretation(shape, Values(tuples, f))) else None
  }

  function Values(tuples: seq<seq<Element>>, f: seq<Element> -> Element): (r: seq<Element>)
    ensures |r| == |tuples| && forall k | 0 <= k < |r| :: r[k] == f(tuples[k])
  {
    seq(|tuples|, k requires 0 <= k < |tuples| => f(tuples[k]))
  }

  lemma {:induction false} PrefixedAt(n: nat, rest: seq<seq<nat>>, a: nat, k: nat)
    requires a < n && k < |rest|
    ensures |Prefixed(n, rest)| == n * |rest| && a * |rest| + k < n * |rest|
    ensures Prefixed(n, rest)[a * |rest| + k] == [a] + rest[k]
    decreases n
  {
    PrefixedLength(n, rest);
    PrefixedLength(n - 1, rest);
    if a < n - 1 {
      PrefixedAt(n - 1, rest, a, k);
      assert a * |rest| + k < (n - 1) * |rest| <= n * |rest|;
    } else {
      assert n * |rest| == (n - 1) * |rest| + |rest|;
    }
  }

  lemma {:induction false} PrefixedLength(n: nat, rest: seq<seq<nat>>)
    ensures |Prefixed(n, rest)| == n * |rest|
    decreases n
  {
    if n > 0 {
      PrefixedLength(n - 1, rest);
      assert n * |rest| == (n - 1) * |rest| + |rest|;
    }
  }

  /** A tuple stands at its rank. */
  lemma {:induction false} ProductAt(shape: seq<nat>, es: seq<nat>)
    requires InShape(es, shape)
    ensures |Product(shape)| == Volume(shape) && Rank(es, shape) < Volume(shape) && Product(shape)[Rank(es, shape)] == es
    decreases |shape|
  {
    if shape != [] {
      assert InShape(es[1..], shape[1..]);
      ProductAt(shape[1..], es[1..]);
      PrefixedAt(shape[0], Product(shape[1..]), es[0], Rank(es[1..], shape[1..]));
      assert es == [es[0]] + es[1..];
    }
  }

  lemma {:induction false} ProductLength(shape: seq<nat>)
    ensures |Product(shape)| == Volume(shape)
    decreases |shape|
  {
    if shape != [] {
      ProductLength(shape[1..]);
      PrefixedLength(shape[0], Product(shape[1..]));
    }
  }

  /** Looking up what was tabulated gives the function back. */
  lemma TabulateThenGet(shape: seq<nat>, f: seq<Element> -> Element, es: seq<Element>)
    requires Tabulate(shape, f).Some? && InShape(es, shape[..|shape| - 1])
    ensures Value(Tabulate(shape, f).value, es) == Some(f(es))
  {
    var args := shape[..|shape| - 1];
    ProductAt(args, es);
    assert Product(args)[Rank(es, args)] in Product(args);
  }

  /** Tabulating what a full table says gives the table back. */
  lemma GetThenTabulate(i: Interpretation, f: seq<Element> -> Element)
    requires i.shape != [] && |i.data| == Volume(i.shape[..|i.shape| - 1])
    requires forall es | InShape(es, i.shape[..|i.shape| - 1]) :: Value(i, es) == Some(f(es))
    ensures Tabulate(i.shape, f) == Some(i)
  {
    var args := i.shape[..|i.shape| - 1];
    var tuples := Product(args);
    ProductLength(args);
    forall k | 0 <= k < |tuples| ensures f(tuples[k]) == i.data[k] && f(tuples[k]) < i.shape[|i.shape| - 1] {
      assert tuples[k] in tuples;
      ProductMembers(args, tuples[k]);
      ProductAt(args, tuples[k]);
      ProductNoDuplicates(args);
      var place := Rank(tuples[k], args);
      assert tuples[place] == tuples[k];
      assert place == k;
      assert Value(i, tuples[k]) == Some(f(tuples[k]));
    }
    assert forall es <- tuples :: f(es) < i.shape[|i.shape| - 1];
    assert Values(tuples, f) == i.data;
  }

  // Models.

  datatype Model = Model(signature: Signature, universe: seq<nat>, interp: seq<Interpretation>)

  function Place<T(==)>(xs: seq<T>, x: T): (r: Option<nat>)
    ensures r.Some? ==> r.value < |xs| && xs[r.value] == x && x !in xs[..r.value]
    ensures r.None? <==> x !in xs
  {
    if xs == [] then None
    else if xs[0] == x then Some(0)
    else
      var rest := Place(xs[1..], x);
      assert xs == [xs[0]] + xs[1..];
      if rest.Some? then assert xs[..rest.value + 1] == [xs[0]] + xs[1..][..rest.value]; Some(rest.value + 1) else None
  }

  function Names(relations: seq<RelationDecl>): (r: seq<string>)
    ensures |r| == |relations| && forall i | 0 <= i < |r| :: r[i] == relations[i].name
  {
    seq(|relations|, i requires 0 <= i < |relations| => relations[i].name)
  }

  function Cardinality(m: Model, s: Sort): Option<nat> {
    match s
    case Bool => Some(2)
    case Uninterpreted(name) =>
      var i := Place(m.signature.sorts, name);
      if i.Some? && i.value < |m.universe| then Some(m.universe[i.value]) else None
  }

  /** The assertions on a new model. */
  predicate WellFormed(m: Model) {
    && |m.universe| == |m.signature.sorts| && |m.interp| == |m.signature.relations|
    && forall i | 0 <= i < |m.interp| :: Fits(m, m.signature.relations[i], m.interp[i])
  }

  predicate Fits(m: Model, d: RelationDecl, i: Interpretation) {
    && |i.shape| == |d.args| + 1
    && Cardinality(m, d.sort) == Some(i.shape[|d.args|])
    && forall j | 0 <= j < |d.args| :: Cardinality(m, d.args[j]) == Some(i.shape[j])
  }

  /** A table has a proper value for every tuple, as every tabulated one does. */
  predicate Full(i: Interpretation) {
    i.shape != [] && |i.data| == Volume(i.shape[..|i.shape| - 1]) && forall x <- i.data :: x < i.shape[|i.shape| - 1]
  }

  function ValueOf(m: Model, name: string, es: seq<Element>): Option<Element> {
    var i := Place(Names(m.signature.relations), name);
    if i.Some? && i.value < |m.interp| then Value(m.interp[i.value], es) else None
  }

  predicate IsNullary(sig: Signature, name: string) {
    var i := Place(Names(sig.relations), name);
    i.Some? && sig.relations[i.value].args == []
  }

  function ShapeIn(m: Model, binders: seq<Binder>): Option<seq<nat>> {
    if binders == [] then Some([])
    else
      var first, rest := Cardinality(m, binders[0].sort), ShapeIn(m, binders[1..]);
      if first.Some? && rest.Some? then Some([first.value] + rest.value) else None
  }

  // Evaluation.

  /** The value of a term.  Without a result evaluation panicked. */
  function EvalAssign(t: Term, m: Model, asg: Assignment): Option<Element>
    decreases t, 2, 0
  {
    match t
    case Literal(b) => Some(ToElement(b))
    case Id(name) =>
      if name in asg then Some(asg[name])
      else if IsNullary(m.signature, name) then ValueOf(m, name, [])
      else None
    case App(f, p, args) =>
      var es := EvalArgs(args, m, asg);
      if es.None? || p != 0 then None else ValueOf(m, f, es.value)
    case UnaryOp(op, x) =>
      if op != Not then None
      else
        var v := EvalAssign(x, m, asg);
        if v.Some? && v.value < 2 then Some(1 - v.value) else None
    case BinOp(op, x, y) =>
      if op == Until || op == Since then None
      else
        var v, w := EvalAssign(x, m, asg), EvalAssign(y, m, asg);
        if v.None? || w.None? then None else Some(ToElement(Compare(op, v.value, w.value)))
    case NAryOp(op, args) =>
      var all := EvalMany(args, op == And, m, asg);
      if all.Some? then Some(ToElement(all.value == (op == And))) else None
    case Ite(c, x, y) =>
      var v := EvalAssign(c, m, asg);
      if v.None? then None else if v.value == 1 then EvalAssign(x, m, asg) else EvalAssign(y, m, asg)
    case Quantified(q, binders, body) =>
      if binders == [] then EvalAssign(body, m, asg)
      else
        var shape := ShapeIn(m, binders);
        if shape.None? then None
        else
          var all := EvalTuples(body, q == Forall, binders, Product(shape.value), m, asg);
          if all.Some? then Some(ToElement(all.value == (q == Forall))) else None
  }

  predicate Compare(op: BOp, v: Element, w: Element)
    requires op != Until && op != Since
  {
    match op case Equals => v == w case Iff => v == w case NotEquals => v != w case Implies => v <= w
  }

  function EvalArgs(ts: seq<Term>, m: Model, asg: Assignment): Option<seq<Element>>
    decreases ts, 0, |ts|
  {
    if ts == [] then Some([])
    else
      var v, rest := EvalAssign(ts[0], m, asg), EvalArgs(ts[1..], m, asg);
      if v.Some? && rest.Some? then Some([v.value] + rest.value) else None
  }

  /** Whether all terms have the given truth value; later ones are not looked at once one has not. */
  function EvalMany(ts: seq<Term>, truth: bool, m: Model, asg: Assignment): Option<bool>
    decreases ts, 0, |ts|
  {
    if ts == [] then Some(true)
    else
      var v := EvalAssign(ts[0], m, asg);
      if v.None? then None
      else if (v.value == 1) != truth then Some(false)
      else EvalMany(ts[1..], truth, m, asg)
  }

  function EvalTuples(body: Term, truth: bool, binders: seq<Binder>, tuples: seq<seq<Element>>, m: Model, asg: Assignment): Option<bool>
    decreases body, 3, |tuples|
  {
    if tuples == [] then Some(true)
    else
      var v := EvalAssign(body, m, Bind(asg, binders, tuples[0]));
      if v.None? then None
      else if (v.value == 1) != truth then Some(false)
      else EvalTuples(body, truth, binders, tuples[1..], m, asg)
  }

  /** The model at all times. */
  function TraceOf(m: Model): Trace {
    Trace(s => if Cardinality(m, s).Some? then Cardinality(m, s).value else 0,
          (_: nat) => (name: string, es: seq<Element>) => if ValueOf(m, name, es).Some? then ValueOf(m, name, es).value else 0)
  }

  lemma {:induction false} ShapeInShape(m: Model, binders: seq<Binder>)
    requires ShapeIn(m, binders).Some?
    ensures ShapeIn(m, binders).value == Shape(TraceOf(m).universe, binders)
    decreases |binders|
  {
    if binders != [] {
      ShapeInShape(m, binders[1..]);
      var tr := TraceOf(m);
      assert Shape(tr.universe, binders) == [tr.universe(binders[0].sort)] + Shape(tr.universe, binders[1..]);
    }
  }

  /** A computed value is the value of the term in the model. */
  lemma {:induction false} EvalAssignSound(t: Term, m: Model, k: nat, asg: Assignment)
    requires EvalAssign(t, m, asg).Some?
    ensures EvalAssign(t, m, asg).value == Eval(t, TraceOf(m), k, asg)
    decreases t, 2, 0
  {
    hide ValueOf, IsNullary, ShapeIn, OnAllTuples, HoldsFrom, NeverFrom, SomeUntil, SomeSince;
    var tr := TraceOf(m);
    match t
    case Literal(_) =>
    case Id(_) =>
    case App(_, _, args) => EvalArgsSound(args, m, k, asg);
    case UnaryOp(op, x) => EvalAssignSound(x, m, k, asg); UnaryEval(op, x, tr, k, asg);
    case BinOp(op, x, y) =>
      EvalAssignSound(x, m, k, asg);
      EvalAssignSound(y, m, k, asg);
      BinaryEval(op, x, y, tr, k, asg);
    case NAryOp(op, args) =>
      EvalManySound(args, op == And, m, k, asg);
      NAryTruth(op, args, m, k, asg, EvalMany(args, op == And, m, asg).value);
    case Ite(c, x, y) =>
      EvalAssignSound(c, m, k, asg);
      if EvalAssign(c, m, asg).value == 1 { EvalAssignSound(x, m, k, asg); } else { EvalAssignSound(y, m, k, asg); }
    case Quantified(q, binders, body) =>
      QuantifiedEval(q, binders, body, tr, k, asg);
      if binders == [] {
        EvalAssignSound(body, m, k, asg);
      } else {
        ShapeInShape(m, binders);
        var shape := Shape(tr.universe, binders);
        EvalTuplesSound(body, q == Forall, binders, Product(shape), m, k, asg);
        SameTuples(q == Forall, binders, body, m, k, asg);
      }
  }

  lemma {:induction false} EvalArgsSound(ts: seq<Term>, m: Model, k: nat, asg: Assignment)
    requires EvalArgs(ts, m, asg).Some?
    ensures EvalArgs(ts, m, asg).value == EvalAll(ts, TraceOf(m), k, asg)
    decreases ts, 0, |ts|
  {
    hide EvalAssign, Eval;
    if ts != [] {
      EvalAssignSound(ts[0], m, k, asg);
      EvalArgsSound(ts[1..], m, k, asg);
    }
  }

  lemma {:induction false} EvalManySound(ts: seq<Term>, truth: bool, m: Model, k: nat, asg: Assignment)
    requires EvalMany(ts, truth, m, asg).Some?
    ensures EvalMany(ts, truth, m, asg).value <==> forall t <- ts :: TermTruth(t, truth, m, k, asg)
    decreases ts, 0, |ts|
  {
    hide EvalAssign, Eval;
    if ts != [] {
      EvalAssignSound(ts[0], m, k, asg);
      assert ts == [ts[0]] + ts[1..] && ts[0] in ts;
      if TermTruth(ts[0], truth, m, k, asg) { EvalManySound(ts[1..], truth, m, k, asg); }
    }
  }

  ghost predicate TermTruth(t: Term, truth: bool, m: Model, k: nat, asg: Assignment) {
    (Eval(t, TraceOf(m), k, asg) == 1) == truth
  }

  lemma NAryTruth(op: NOp, ts: seq<Term>, m: Model, k: nat, asg: Assignment, all: bool)
    requires all <==> forall t <- ts :: TermTruth(t, op == And, m, k, asg)
    ensures NAryValue(op, EvalAll(ts, TraceOf(m), k, asg)) == ToElement(all == (op == And))
  {
    hide Eval;
    var vs := EvalAll(ts, TraceOf(m), k, asg);
    forall i | 0 <= i < |ts| ensures (vs[i] == 1) == (op == And) <==> TermTruth(ts[i], op == And, m, k, asg) {
    }
    if t :| t in ts && !TermTruth(t, op == And, m, k, asg) {
      var i :| 0 <= i < |ts| && ts[i] == t;
      assert vs[i] in vs;
    } else {
      forall v <- vs ensures (v == 1) == (op == And) {
        var i :| 0 <= i < |vs| && vs[i] == v;
        assert ts[i] in ts;
      }
    }
  }

  ghost predicate TruthOn(body: Term, truth: bool, binders: seq<Binder>, m: Model, k: nat, asg: Assignment, es: seq<Element>) {
    (Eval(body, TraceOf(m), k, Bind(asg, binders, es)) == 1) == truth
  }

  lemma {:induction false} EvalTuplesSound(body: Term, truth: bool, binders: seq<Binder>, tuples: seq<seq<Element>>, m: Model, k: nat,
                                           asg: Assignment)
    requires EvalTuples(body, truth, binders, tuples, m, asg).Some?
    ensures EvalTuples(body, truth, binders, tuples, m, asg).value <==> forall es <- tuples :: TruthOn(body, truth, binders, m, k, asg, es)
    decreases body, 3, |tuples|
  {
    hide EvalAssign, Eval, Bind;
    if tuples != [] {
      EvalAssignSound(body, m, k, Bind(asg, binders, tuples[0]));
      assert tuples == [tuples[0]] + tuples[1..] && tuples[0] in tuples;
      if TruthOn(body, truth, binders, m, k, asg, tuples[0]) { EvalTuplesSound(body, truth, binders, tuples[1..], m, k, asg); }
    }
  }

  lemma SameTuples(truth: bool, binders: seq<Binder>, body: Term, m: Model, k: nat, asg: Assignment)
    ensures OnAllTuples(truth, binders, body, TraceOf(m), k, asg) <==>
      forall es <- Product(Shape(TraceOf(m).universe, binders)) :: TruthOn(body, truth, binders, m, k, asg, es)
  {
    hide Eval, Bind;
    var shape := Shape(TraceOf(m).universe, binders);
    forall es ensures es in Product(shape) <==> InShape(es, shape) { ProductMembers(shape, es); }
    assert forall es | InShape(es, shape) :: TruthOn(body, truth, binders, m, k, asg, es) <==>
      (Eval(body, TraceOf(m), k, Bind(asg, binders, es)) == 1) == truth;
  }

  // Where evaluation does not panic.

  /** No temporal operators or primes, and only binders of declared sorts. */
  predicate Evaluable(t: Term, sorts: seq<string>) {
    match t
    case Literal(_) => true
    case Id(_) => true
    case App(_, p, args) => p == 0 && forall i | 0 <= i < |args| :: Evaluable(args[i], sorts)
    case UnaryOp(op, x) => op == Not && Evaluable(x, sorts)
    case BinOp(op, x, y) => op != Until && op != Since && Evaluable(x, sorts) && Evaluable(y, sorts)
    case NAryOp(_, args) => forall i | 0 <= i < |args| :: Evaluable(args[i], sorts)
    case Ite(c, x, y) => Evaluable(c, sorts) && Evaluable(x, sorts) && Evaluable(y, sorts)
    case Quantified(_, binders, body) =>
      (forall b <- binders :: b.sort.Uninterpreted? ==> b.sort.name in sorts) && Evaluable(body, sorts)
  }

  /** A model as the constructors build it. */
  ghost predicate Proper(m: Model) {
    && WellFormed(m) && NoDuplicates(Names(m.signature.relations))
    && forall i <- m.interp :: Full(i)
  }

  lemma {:induction false} FullHasValue(i: Interpretation, es: seq<Element>)
    requires Full(i) && InShape(es, i.shape[..|i.shape| - 1])
    ensures Value(i, es).Some? && Value(i, es).value < i.shape[|i.shape| - 1]
  {
    ProductAt(i.shape[..|i.shape| - 1], es);
    var place := Rank(es, i.shape[..|i.shape| - 1]);
    assert i.data[place] in i.data;
  }

  lemma {:induction false} PlaceOfDecl(relations: seq<RelationDecl>, name: string)
    ensures FindDecl(relations, name).Some? <==> Place(Names(relations), name).Some?
    ensures FindDecl(relations, name).Some? ==> relations[Place(Names(relations), name).value] == FindDecl(relations, name).value
    decreases |relations|
  {
    if relations != [] {
      assert Names(relations)[1..] == Names(relations[1..]);
      PlaceOfDecl(relations[1..], name);
    }
  }

  /** A declared symbol has a value of its sort at every tuple of its arguments. */
  lemma SymbolValue(m: Model, d: RelationDecl, es: seq<Element>)
    requires Proper(m) && FindDecl(m.signature.relations, d.name) == Some(d) && TupleOf(es, d.args, TraceOf(m).universe)
    ensures ValueOf(m, d.name, es).Some? && ValueOf(m, d.name, es).value < TraceOf(m).universe(d.sort)
  {
    hide Full, Value;
    PlaceOfDecl(m.signature.relations, d.name);
    var i := Place(Names(m.signature.relations), d.name).value;
    assert m.interp[i] in m.interp && Fits(m, d, m.interp[i]);
    FullHasValue(m.interp[i], es);
  }

  lemma {:induction false} BindFits(binders: seq<Binder>, base: Scope, scope: Scope, asg: Assignment, universe: Universe, es: seq<Element>)
    requires AssignmentFits(base, scope, asg, universe) && InShape(es, Shape(universe, binders))
    ensures AssignmentFits(base, AddBinders(scope, binders), Bind(asg, binders, es), universe)
    decreases |binders|
  {
    if binders != [] {
      var b := binders[0];
      assert Shape(universe, binders)[0] == universe(b.sort);
      forall i | 0 <= i < |es[1..]| ensures es[1..][i] < Shape(universe, binders[1..])[i] {
        assert es[i + 1] < Shape(universe, binders)[i + 1];
      }
      BindFits(binders[1..], base, scope[b.name := Individual(b.sort)], asg[b.name := es[0]], universe, es[1..]);
    }
  }

  lemma {:induction false} ShapeDeclared(m: Model, binders: seq<Binder>)
    requires WellFormed(m) && forall b <- binders :: b.sort.Uninterpreted? ==> b.sort.name in m.signature.sorts
    ensures ShapeIn(m, binders).Some?
    decreases |binders|
  {
    hide Fits;
    if binders != [] {
      assert binders[0] in binders && forall b <- binders[1..] :: b in binders;
      ShapeDeclared(m, binders[1..]);
    }
  }

  ghost predicate HasValue(t: Term, s: Sort, m: Model, asg: Assignment) {
    EvalAssign(t, m, asg).Some? && EvalAssign(t, m, asg).value < TraceOf(m).universe(s)
  }

  /** Evaluating a well-sorted term does not panic and gives an element of its sort. */
  lemma {:induction false} EvalAssignTotal(t: Term, m: Model, scope: Scope, asg: Assignment)
    requires Proper(m) && AssignmentFits(ScopeOf(m.signature.relations), scope, asg, TraceOf(m).universe)
    requires SortOf(t, scope).Some? && Evaluable(t, m.signature.sorts)
    ensures HasValue(t, SortOf(t, scope).value, m, asg)
    decreases t, 2, 0
  {
    hide *;
    BoolSize(m);
    match t
    case Literal(b) => LiteralTotal(b, m, scope, asg);
    case Id(name) => IdTotal(name, m, scope, asg);
    case App(f, p, args) => AppTotal(f, p, args, m, scope, asg);
    case UnaryOp(op, x) => UnaryTotal(op, x, m, scope, asg);
    case BinOp(op, x, y) => BinaryTotal(op, x, y, m, scope, asg);
    case NAryOp(op, args) => NAryTotal(op, args, m, scope, asg);
    case Ite(c, x, y) => IteTotal(c, x, y, m, scope, asg);
    case Quantified(q, binders, body) => QuantifiedTotal(q, binders, body, m, scope, asg);
  }

  lemma LiteralTotal(b: bool, m: Model, scope: Scope, asg: Assignment)
    ensures SortOf(Literal(b), scope) == Some(Bool) && HasValue(Literal(b), Bool, m, asg)
  {
    BoolSize(m);
  }

  lemma {:induction false} UnaryTotal(op: UOp, x: Term, m: Model, scope: Scope, asg: Assignment)
    requires Proper(m) && AssignmentFits(ScopeOf(m.signature.relations), scope, asg, TraceOf(m).universe)
    requires SortOf(UnaryOp(op, x), scope).Some? && Evaluable(UnaryOp(op, x), m.signature.sorts)
    ensures HasValue(UnaryOp(op, x), SortOf(UnaryOp(op, x), scope).value, m, asg)
    decreases UnaryOp(op, x), 1, 0
  {
    hide Proper, TraceOf, AssignmentFits, ScopeOf;
    BoolSize(m);
    EvalAssignTotal(x, m, scope, asg);
  }

  lemma {:induction false} BinaryTotal(op: BOp, x: Term, y: Term, m: Model, scope: Scope, asg: Assignment)
    requires Proper(m) && AssignmentFits(ScopeOf(m.signature.relations), scope, asg, TraceOf(m).universe)
    requires SortOf(BinOp(op, x, y), scope).Some? && Evaluable(BinOp(op, x, y), m.signature.sorts)
    ensures HasValue(BinOp(op, x, y), SortOf(BinOp(op, x, y), scope).value, m, asg)
    decreases BinOp(op, x, y), 1, 0
  {
    hide Proper, TraceOf, AssignmentFits, ScopeOf;
    BoolSize(m);
    EvalAssignTotal(x, m, scope, asg);
    EvalAssignTotal(y, m, scope, asg);
  }

  lemma {:induction false} IteTotal(c: Term, x: Term, y: Term, m: Model, scope: Scope, asg: Assignment)
    requires Proper(m) && AssignmentFits(ScopeOf(m.signature.relations), scope, asg, TraceOf(m).universe)
    requires SortOf(Ite(c, x, y), scope).Some? && Evaluable(Ite(c, x, y), m.signature.sorts)
    ensures HasValue(Ite(c, x, y), SortOf(Ite(c, x, y), scope).value, m, asg)
    decreases Ite(c, x, y), 1, 0
  {
    hide Proper, TraceOf, AssignmentFits, ScopeOf;
    EvalAssignTotal(c, m, scope, asg);
    EvalAssignTotal(x, m, scope, asg);
    EvalAssignTotal(y, m, scope, asg);
  }

  lemma {:induction false} NAryTotal(op: NOp, args: seq<Term>, m: Model, scope: Scope, asg: Assignment)
    requires Proper(m) && AssignmentFits(ScopeOf(m.signature.relations), scope, asg, TraceOf(m).universe)
    requires SortOf(NAryOp(op, args), scope).Some? && Evaluable(NAryOp(op, args), m.signature.sorts)
    ensures SortOf(NAryOp(op, args), scope).value == Bool && HasValue(NAryOp(op, args), Bool, m, asg)
    decreases NAryOp(op, args), 1, 0
  {
    hide Proper, TraceOf, AssignmentFits, ScopeOf;
    forall x <- args ensures HasValue(x, Bool, m, asg) {
      var i :| 0 <= i < |args| && args[i] == x;
      EvalAssignTotal(x, m, scope, asg);
    }
    EvalManyTotal(args, op == And, m, asg);
    BoolSize(m);
  }

  lemma IdTotal(name: string, m: Model, scope: Scope, asg: Assignment)
    requires Proper(m) && AssignmentFits(ScopeOf(m.signature.relations), scope, asg, TraceOf(m).universe)
    requires SortOf(Id(name), scope).Some?
    ensures HasValue(Id(name), SortOf(Id(name), scope).value, m, asg)
  {
    hide ValueOf, Proper, TraceOf;
    if name !in asg {
      PlaceOfDecl(m.signature.relations, name);
      SymbolValue(m, FindDecl(m.signature.relations, name).value, []);
    }
  }

  lemma {:induction false} AppTotal(f: string, p: nat, args: seq<Term>, m: Model, scope: Scope, asg: Assignment)
    requires Proper(m) && AssignmentFits(ScopeOf(m.signature.relations), scope, asg, TraceOf(m).universe)
    requires SortOf(App(f, p, args), scope).Some? && Evaluable(App(f, p, args), m.signature.sorts)
    ensures HasValue(App(f, p, args), SortOf(App(f, p, args), scope).value, m, asg)
    decreases App(f, p, args), 1, 0
  {
    hide ValueOf, Proper, TraceOf, AssignmentFits;
    var sorts := scope[f].args;
    forall i | 0 <= i < |args| ensures HasValue(args[i], sorts[i], m, asg) { EvalAssignTotal(args[i], m, scope, asg); }
    EvalArgsTotal(args, sorts, m, asg);
    RelationInScope(f, m, scope, asg);
    SymbolValue(m, FindDecl(m.signature.relations, f).value, EvalArgs(args, m, asg).value);
  }

  /** Names of relations are not assigned. */
  lemma RelationInScope(f: string, m: Model, scope: Scope, asg: Assignment)
    requires AssignmentFits(ScopeOf(m.signature.relations), scope, asg, TraceOf(m).universe) && f in scope && scope[f].Relation?
    ensures FindDecl(m.signature.relations, f).Some?
    ensures scope[f] == Relation(FindDecl(m.signature.relations, f).value.args, FindDecl(m.signature.relations, f).value.sort)
  {
  }

  lemma {:induction false} EvalArgsTotal(ts: seq<Term>, sorts: seq<Sort>, m: Model, asg: Assignment)
    requires |ts| == |sorts| && forall i | 0 <= i < |ts| :: HasValue(ts[i], sorts[i], m, asg)
    ensures EvalArgs(ts, m, asg).Some? && TupleOf(EvalArgs(ts, m, asg).value, sorts, TraceOf(m).universe)
    decreases |ts|
  {
    hide EvalAssign, TraceOf;
    if ts != [] {
      forall i | 0 <= i < |ts[1..]| ensures HasValue(ts[1..][i], sorts[1..][i], m, asg) { assert HasValue(ts[i + 1], sorts[i + 1], m, asg); }
      EvalArgsTotal(ts[1..], sorts[1..], m, asg);
    }
  }

  lemma {:induction false} EvalManyTotal(ts: seq<Term>, truth: bool, m: Model, asg: Assignment)
    requires forall t <- ts :: HasValue(t, Bool, m, asg)
    ensures EvalMany(ts, truth, m, asg).Some?
    decreases |ts|
  {
    hide EvalAssign, TraceOf;
    if ts != [] {
      assert ts[0] in ts && forall t <- ts[1..] :: t in ts;
      EvalManyTotal(ts[1..], truth, m, asg);
    }
  }

  lemma {:induction false} QuantifiedTotal(q: Quantifier, binders: seq<Binder>, body: Term, m: Model, scope: Scope, asg: Assignment)
    requires Proper(m) && AssignmentFits(ScopeOf(m.signature.relations), scope, asg, TraceOf(m).universe)
    requires SortOf(Quantified(q, binders, body), scope).Some? && Evaluable(Quantified(q, binders, body), m.signature.sorts)
    ensures SortOf(Quantified(q, binders, body), scope).value == Bool && HasValue(Quantified(q, binders, body), Bool, m, asg)
    decreases body, 4, 0
  {
    hide ValueOf, Proper, TraceOf, AssignmentFits, ShapeIn, Bind, AddBinders;
    if binders == [] {
      SameScope(scope);
      EvalAssignTotal(body, m, scope, asg);
    } else {
      ProperFits(m);
      ShapeDeclared(m, binders);
      ShapeInShape(m, binders);
      var shape := Shape(TraceOf(m).universe, binders);
      forall es <- Product(shape) ensures HasValue(body, Bool, m, Bind(asg, binders, es)) {
        ProductMembers(shape, es);
        BindFits(binders, ScopeOf(m.signature.relations), scope, asg, TraceOf(m).universe, es);
        EvalAssignTotal(body, m, AddBinders(scope, binders), Bind(asg, binders, es));
      }
      EvalTuplesTotal(body, q == Forall, binders, Product(shape), m, asg);
      BoolSize(m);
    }
  }

  lemma SameScope(scope: Scope)
    ensures AddBinders(scope, []) == scope
  {
  }

  lemma BoolSize(m: Model)
    ensures TraceOf(m).universe(Bool) == 2
  {
  }

  lemma ProperFits(m: Model)
    requires Proper(m)
    ensures WellFormed(m)
  {
  }

  lemma {:induction false} EvalTuplesTotal(body: Term, truth: bool, binders: seq<Binder>, tuples: seq<seq<Element>>, m: Model, asg: Assignment)
    requires forall es <- tuples :: HasValue(body, Bool, m, Bind(asg, binders, es))
    ensures EvalTuples(body, truth, binders, tuples, m, asg).Some?
    decreases |tuples|
  {
    hide EvalAssign, TraceOf, Bind;
    if tuples != [] {
      assert tuples[0] in tuples && forall es <- tuples[1..] :: es in tuples;
      EvalTuplesTotal(body, truth, binders, tuples[1..], m, asg);
    }
  }
}
