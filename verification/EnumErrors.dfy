/** When enumeration fails: every error names an offending subterm of the normalized formula, and
    an offence that cannot be skipped makes it fail. */
module QuantEnumErrors {
  import opened Collections
  import opened Syntax
  import opened Semantics
  import opened Primes
  import opened SortCheck
  import opened QuantEnum
  import opened QuantEnumSound

  predicate Within(s: Term, t: Term)
    decreases t
  {
    s == t
    || match t
       case Literal(_) => false
       case Id(_) => false
       case App(_, _, args) => exists i | 0 <= i < |args| :: Within(s, args[i])
       case UnaryOp(_, x) => Within(s, x)
       case BinOp(_, x, y) => Within(s, x) || Within(s, y)
       case NAryOp(_, args) => exists i | 0 <= i < |args| :: Within(s, args[i])
       case Ite(c, x, y) => Within(s, c) || Within(s, x) || Within(s, y)
       case Quantified(_, _, body) => Within(s, body)
  }

  predicate Temporal(t: Term) {
    (t.UnaryOp? && t.uop != Not && t.uop != Prime) || (t.BinOp? && (t.bop == Until || t.bop == Since))
  }

  predicate Compound(t: Term) {
    !t.Id? && !t.Literal?
  }

  /** The subterm of an error stands in the formula and is what the error says. */
  ghost predicate Names(e: EnumerationError, t: Term) {
    match e
    case TemporalOperator(s) => Temporal(s) && Within(s, t)
    case TooManyPrimes(s) => s.App? && s.primes > 1 && Within(s, t)
    case NotAnElement(s) => Compound(s) && exists a :: Within(a, t) && a.App? && s in a.args
    case UnknownId(_) => false
    case Unreachable(_) => false
  }

  /** No temporal operator, no second prime, and arguments that are variables or literals. */
  predicate Supported(t: Term) {
    match t
    case Literal(_) => true
    case Id(_) => true
    case App(_, p, args) => p <= 1 && forall x | x in args :: !Compound(x)
    case UnaryOp(op, x) => !Temporal(t) && Supported(x)
    case BinOp(_, x, y) => !Temporal(t) && Supported(x) && Supported(y)
    case NAryOp(_, args) => forall i | 0 <= i < |args| :: Supported(args[i])
    case Ite(c, x, y) => Supported(c) && Supported(x) && Supported(y)
    case Quantified(_, _, body) => Supported(body)
  }

  /** A temporal operator or a second prime outside the conclusions of implications, which are
      not translated when their premise is false. */
  predicate Doomed(t: Term) {
    match t
    case Literal(_) => false
    case Id(_) => false
    case App(_, p, args) => p > 1 || exists i | 0 <= i < |args| :: Doomed(args[i])
    case UnaryOp(_, x) => Temporal(t) || Doomed(x)
    case BinOp(op, x, y) => Temporal(t) || Doomed(x) || (op != Implies && Doomed(y))
    case NAryOp(_, args) => exists i | 0 <= i < |args| :: Doomed(args[i])
    case Ite(c, x, y) => Doomed(c) || Doomed(x) || Doomed(y)
    case Quantified(_, _, body) => Doomed(body)
  }

  predicate VarsBound(sig: Signature, scope: Scope, bound: set<string>) {
    forall name | name in scope && FindDecl(sig.relations, name).None? :: name in bound
  }

  ghost predicate Scoped(sig: Signature, scope: Scope, bound: set<string>, asg: Assignment, universe: Universe) {
    && VarsFit(scope, sig.relations, asg, universe) && universe(Bool) == 2
    && VarsBound(sig, scope, bound)
  }

  /** A normalized formula: its primes are on symbols, and its identifiers are variables. */
  ghost predicate NormalForm(t: Term, sig: Signature, scope: Scope, bound: set<string>) {
    GroundForm(t, scope, sig.relations) && PrimesAtSymbols(sig, t, bound)
  }

  // Every error names an offence.

  lemma NamesWithin(e: EnumerationError, s: Term, t: Term)
    requires Names(e, s) && forall x | Within(x, s) :: Within(x, t)
    ensures Names(e, t)
  {
    hide Within;
  }

  lemma {:induction false} PrimedNotVar(sig: Signature, x: Term, s: Sort, scope: Scope, bound: set<string>)
    requires PrimedId(sig, x, bound) && VarsBound(sig, scope, bound)
    ensures !VarForm(x, s, scope, sig.relations) && !GroundForm(x, scope, sig.relations)
    decreases x
  {
    if x.UnaryOp? { PrimedNotVar(sig, x.arg, s, scope, bound); }
  }

  /** An argument other than a variable is a formula. */
  lemma ArgGround(t: Term, s: Sort, sig: Signature, scope: Scope, bound: set<string>)
    requires ArgForm(t, s, scope, sig.relations) && PrimesAtSymbols(sig, t, bound) && VarsBound(sig, scope, bound) && !t.Id?
    ensures s == Bool && GroundForm(t, scope, sig.relations)
  {
    if t.UnaryOp? && t.uop == Prime { PrimedNotVar(sig, t.arg, s, scope, bound); }
  }

  lemma VarElement(t: Term, s: Sort, sig: Signature, scope: Scope, universe: Universe, asg: Assignment)
    requires ArgForm(t, s, scope, sig.relations) && VarsFit(scope, sig.relations, asg, universe) && universe(Bool) == 2 && t.Id?
    ensures ElementOf(t, universe, asg).Ok? && (s == Bool ==> TermToEnumerated(t, universe, asg).Ok?)
  {
  }

  lemma LiteralElement(t: Term, universe: Universe, asg: Assignment)
    requires t.Literal?
    ensures ElementOf(t, universe, asg).Ok?
  {
    assert TermToEnumerated(t, universe, asg) == Ok(if t.value then True else False);
  }

  lemma {:induction false} ElementsErrors(ts: seq<Term>, sorts: seq<Sort>, sig: Signature, scope: Scope, universe: Universe,
                                          asg: Assignment, e: EnumerationError)
    requires |ts| == |sorts| && forall i | 0 <= i < |ts| :: ArgForm(ts[i], sorts[i], scope, sig.relations)
    requires VarsFit(scope, sig.relations, asg, universe) && universe(Bool) == 2
    requires ElementsOf(ts, universe, asg) == Err(e)
    ensures e.NotAnElement? && Compound(e.t) && e.t in ts
    decreases |ts|
  {
    hide ArgForm, VarsFit;
    if ElementOf(ts[0], universe, asg).Ok? {
      ElementsErrors(ts[1..], sorts[1..], sig, scope, universe, asg, e);
    } else {
      if ts[0].Id? { VarElement(ts[0], sorts[0], sig, scope, universe, asg); }
      if ts[0].Literal? { LiteralElement(ts[0], universe, asg); }
    }
  }

  lemma {:induction false} TermErrors(t: Term, sig: Signature, scope: Scope, bound: set<string>, universe: Universe,
                                      asg: Assignment, e: EnumerationError)
    requires NormalForm(t, sig, scope, bound) && Scoped(sig, scope, bound, asg, universe)
    requires TermToEnumerated(t, universe, asg) == Err(e)
    ensures Names(e, t)
    decreases t, 2
  {
    assert GroundForm(t, scope, sig.relations);
    match t
    case Literal(_) =>
    case Id(name) => VarElement(t, Bool, sig, scope, universe, asg);
    case App(f, p, args) =>
      if p <= 1 { ElementsErrors(args, FindDecl(sig.relations, f).value.args, sig, scope, universe, asg, e); }
    case UnaryOp(op, x) =>
      if op == Prime { PrimedNotVar(sig, x, Bool, scope, bound); }
      if op == Not {
        TermErrors(x, sig, scope, bound, universe, asg, e);
        NamesWithin(e, x, t);
      }
    case BinOp(op, x, y) =>
      if op == Implies {
        ImpliesErrors(x, y, sig, scope, bound, universe, asg, e);
      } else if op == Equals || op == Iff || op == NotEquals {
        EqualsErrors(op, x, y, sig, scope, bound, universe, asg, e);
      }
    case NAryOp(op, args) =>
      var i := TermsErrors(args, sig, scope, bound, universe, asg, e);
      NamesWithin(e, args[i], t);
    case Ite(c, x, y) =>
      var s := if TermToEnumerated(c, universe, asg).Err? then c else if TermToEnumerated(x, universe, asg).Err? then x else y;
      TermErrors(s, sig, scope, bound, universe, asg, e);
      NamesWithin(e, s, t);
    case Quantified(_, binders, body) =>
      var tuples := Product(Shape(universe, binders));
      forall es | es in tuples ensures InShape(es, Shape(universe, binders)) { ProductMembers(Shape(universe, binders), es); }
      InstancesErrors(binders, body, tuples, sig, scope, bound, universe, asg, e);
      NamesWithin(e, body, t);
  }

  lemma {:induction false} TermsErrors(ts: seq<Term>, sig: Signature, scope: Scope, bound: set<string>, universe: Universe,
                                       asg: Assignment, e: EnumerationError) returns (i: nat)
    requires forall i | 0 <= i < |ts| :: NormalForm(ts[i], sig, scope, bound)
    requires Scoped(sig, scope, bound, asg, universe)
    requires TermsToEnumerated(ts, universe, asg) == Err(e)
    ensures i < |ts| && Names(e, ts[i])
    decreases ts, 1
  {
    if TermToEnumerated(ts[0], universe, asg).Err? {
      TermErrors(ts[0], sig, scope, bound, universe, asg, e);
      i := 0;
    } else {
      i := TermsErrors(ts[1..], sig, scope, bound, universe, asg, e);
      i := i + 1;
    }
  }

  lemma {:induction false} ImpliesErrors(x: Term, y: Term, sig: Signature, scope: Scope, bound: set<string>, universe: Universe,
                                         asg: Assignment, e: EnumerationError)
    requires NormalForm(BinOp(Implies, x, y), sig, scope, bound) && Scoped(sig, scope, bound, asg, universe)
    requires ImpliesToEnumerated(x, y, universe, asg) == Err(e)
    ensures Names(e, BinOp(Implies, x, y))
    decreases BinOp(Implies, x, y), 1
  {
    if x.Id? { VarElement(x, Bool, sig, scope, universe, asg); }
    var s := if TermToEnumerated(x, universe, asg).Err? then x else y;
    TermErrors(s, sig, scope, bound, universe, asg, e);
    NamesWithin(e, s, BinOp(Implies, x, y));
  }

  lemma {:induction false} EqualsErrors(op: BOp, x: Term, y: Term, sig: Signature, scope: Scope, bound: set<string>,
                                        universe: Universe, asg: Assignment, e: EnumerationError)
    requires op == Equals || op == NotEquals || op == Iff
    requires NormalForm(BinOp(op, x, y), sig, scope, bound) && Scoped(sig, scope, bound, asg, universe)
    requires EqualsToEnumerated(op, x, y, universe, asg) == Err(e)
    ensures Names(e, BinOp(op, x, y))
    decreases BinOp(op, x, y), 1
  {
    var sort: Sort;
    assert GroundForm(BinOp(op, x, y), scope, sig.relations);
    if op == Iff { sort := Bool; } else { sort :| ArgForm(x, sort, scope, sig.relations) && ArgForm(y, sort, scope, sig.relations); }
    if x.Id? { VarElement(x, sort, sig, scope, universe, asg); } else { ArgGround(x, sort, sig, scope, bound); }
    if y.Id? { VarElement(y, sort, sig, scope, universe, asg); } else { ArgGround(y, sort, sig, scope, bound); }
    var s := if TermToEnumerated(x, universe, asg).Err? then x else y;
    TermErrors(s, sig, scope, bound, universe, asg, e);
    NamesWithin(e, s, BinOp(op, x, y));
  }

  lemma {:induction false} InstancesErrors(binders: seq<Binder>, body: Term, tuples: seq<seq<Element>>, sig: Signature, scope: Scope,
                                           bound: set<string>, universe: Universe, asg: Assignment, e: EnumerationError)
    requires NormalForm(body, sig, AddBinders(scope, binders), bound + BinderNames(binders))
    requires Scoped(sig, scope, bound, asg, universe) && forall es | es in tuples :: InShape(es, Shape(universe, binders))
    requires InstancesOf(body, binders, tuples, universe, asg) == Err(e)
    ensures Names(e, body)
    decreases body, 3, |tuples|
  {
    if TermToEnumerated(body, universe, Bind(asg, binders, tuples[0])).Err? {
      BindVarsFit(scope, binders, sig.relations, asg, universe, tuples[0]);
      TermErrors(body, sig, AddBinders(scope, binders), bound + BinderNames(binders), universe, Bind(asg, binders, tuples[0]), e);
    } else {
      InstancesErrors(binders, body, tuples[1..], sig, scope, bound, universe, asg, e);
    }
  }

  lemma {:induction false} NamesUnsupported(e: EnumerationError, t: Term)
    requires Names(e, t)
    ensures !Supported(t)
  {
    if Supported(t) {
      if e.NotAnElement? {
        var a :| Within(a, t) && a.App? && e.t in a.args;
        SupportedWithin(a, t);
      } else {
        SupportedWithin(e.t, t);
      }
    }
  }

  /** What stands in a supported formula is supported, apart from the arguments. */
  lemma {:induction false} SupportedWithin(s: Term, t: Term)
    requires Supported(t) && Within(s, t)
    ensures Supported(s)
    decreases t
  {
    match t
    case Literal(_) =>
    case Id(_) =>
    case App(_, _, args) =>
      if s != t {
        var i :| 0 <= i < |args| && Within(s, args[i]);
        assert args[i] in args;
      }
    case UnaryOp(_, x) => if s != t { SupportedWithin(s, x); }
    case BinOp(_, x, y) => if s != t { SupportedWithin(s, if Within(s, x) then x else y); }
    case NAryOp(_, args) =>
      if s != t {
        var i :| 0 <= i < |args| && Within(s, args[i]);
        SupportedWithin(s, args[i]);
      }
    case Ite(c, x, y) => if s != t { SupportedWithin(s, if Within(s, c) then c else if Within(s, x) then x else y); }
    case Quantified(_, _, body) => if s != t { SupportedWithin(s, body); }
  }

  // What cannot be skipped fails.

  /** Every quantifier has an instance. */
  predicate Inhabited(universe: Universe, t: Term) {
    match t
    case Literal(_) => true
    case Id(_) => true
    case App(_, _, args) => forall i | 0 <= i < |args| :: Inhabited(universe, args[i])
    case UnaryOp(_, x) => Inhabited(universe, x)
    case BinOp(_, x, y) => Inhabited(universe, x) && Inhabited(universe, y)
    case NAryOp(_, args) => forall i | 0 <= i < |args| :: Inhabited(universe, args[i])
    case Ite(c, x, y) => Inhabited(universe, c) && Inhabited(universe, x) && Inhabited(universe, y)
    case Quantified(_, binders, body) =>
      (forall b | b in binders :: universe(b.sort) > 0) && Inhabited(universe, body)
  }

  lemma {:induction false} DoomedFails(t: Term, universe: Universe, asg: Assignment)
    requires Doomed(t) && Inhabited(universe, t)
    ensures TermToEnumerated(t, universe, asg).Err?
    decreases t, 1
  {
    match t
    case Literal(_) =>
    case Id(_) =>
    case App(_, p, args) =>
      if p <= 1 {
        var i :| 0 <= i < |args| && Doomed(args[i]);
        DoomedFails(args[i], universe, asg);
        ElementsFail(args, i, universe, asg);
      }
    case UnaryOp(_, x) => if !Temporal(t) { DoomedFails(x, universe, asg); }
    case BinOp(op, x, y) =>
      if !Temporal(t) {
        if Doomed(x) { DoomedFails(x, universe, asg); }
        if op != Implies && Doomed(y) { DoomedFails(y, universe, asg); }
        OperandFails(op, x, y, universe, asg);
      }
    case NAryOp(_, args) =>
      var i :| 0 <= i < |args| && Doomed(args[i]);
      DoomedFails(args[i], universe, asg);
      TermsFail(args, i, universe, asg);
    case Ite(c, x, y) =>
      DoomedFails(if Doomed(c) then c else if Doomed(x) then x else y, universe, asg);
    case Quantified(_, binders, body) =>
      var shape := Shape(universe, binders);
      var least := seq(|binders|, i => 0);
      assert InShape(least, shape);
      ProductMembers(shape, least);
      DoomedFails(body, universe, Bind(asg, binders, Product(shape)[0]));
  }

  lemma OperandFails(op: BOp, x: Term, y: Term, universe: Universe, asg: Assignment)
    requires op != Until && op != Since
    requires (Doomed(x) && TermToEnumerated(x, universe, asg).Err?)
             || (op != Implies && Doomed(y) && TermToEnumerated(y, universe, asg).Err?)
    ensures TermToEnumerated(BinOp(op, x, y), universe, asg).Err?
  {
    assert Doomed(x) && TermToEnumerated(x, universe, asg).Err? ==> ElementOf(x, universe, asg).Err?;
    assert Doomed(y) && TermToEnumerated(y, universe, asg).Err? ==> ElementOf(y, universe, asg).Err?;
  }

  lemma {:induction false} ElementsFail(ts: seq<Term>, i: nat, universe: Universe, asg: Assignment)
    requires i < |ts| && Doomed(ts[i]) && TermToEnumerated(ts[i], universe, asg).Err?
    ensures ElementsOf(ts, universe, asg).Err?
    decreases i
  {
    if i > 0 { ElementsFail(ts[1..], i - 1, universe, asg); }
  }

  lemma {:induction false} TermsFail(ts: seq<Term>, i: nat, universe: Universe, asg: Assignment)
    requires i < |ts| && TermToEnumerated(ts[i], universe, asg).Err?
    ensures TermsToEnumerated(ts, universe, asg).Err?
    decreases i
  {
    if i > 0 { TermsFail(ts[1..], i - 1, universe, asg); }
  }

  // The whole pipeline.

  /** An error names an offence in the normalized formula, so a supported formula has none.  A
      temporal operator or a second prime outside the conclusions of implications is an error. */
  lemma EnumerationFails(t: Term, sig: Signature, universe: Universe)
    requires Enumerable(t, sig) && universe(Bool) == 2
    ensures
      var formula := Normalize(sig, NullaryIdToApp(t, sig.relations));
      var result := EnumerateQuantifiers(t, sig, universe);
      && (result.Err? ==> Names(result.error, formula))
      && (Supported(formula) ==> result.Ok?)
      && (Doomed(formula) && Inhabited(universe, formula) ==> result.Err?)
  {
    hide WithNext, NullaryIdToApp, TermToEnumerated, GroundForm, PrimesAtSymbols, Names, Supported, Doomed, Inhabited;
    var rs := sig.relations;
    var scope := ScopeOf(rs);
    var formula := Normalize(sig, NullaryIdToApp(t, rs));
    NullaryGround(t, scope, rs);
    WithNextGround(sig, NullaryIdToApp(t, rs), {}, 0, scope);
    NormalizeIdempotent(sig, NullaryIdToApp(t, rs));
    var result := EnumerateQuantifiers(t, sig, universe);
    if result.Err? {
      TermErrors(formula, sig, scope, {}, universe, map[], result.error);
      NamesUnsupported(result.error, formula);
    }
    if Doomed(formula) && Inhabited(universe, formula) { DoomedFails(formula, universe, map[]); }
  }
}
