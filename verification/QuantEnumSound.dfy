/** The enumerated formula has the truth value of the original one. */
module QuantEnumSound {
  import opened Collections
  import opened Syntax
  import opened Semantics
  import opened Primes
  import opened SortCheck
  import opened QuantEnum

  /** A variable: an individual in scope that is no symbol of the signature. */
  predicate IsVar(name: string, scope: Scope, relations: seq<RelationDecl>) {
    name in scope && scope[name].Individual? && FindDecl(relations, name).None?
  }

  /** A variable of sort `s`, possibly primed. */
  predicate VarForm(t: Term, s: Sort, scope: Scope, relations: seq<RelationDecl>) {
    match t
    case Id(name) => IsVar(name, scope, relations) && scope[name].sort == s
    case UnaryOp(op, x) => op == Prime && VarForm(x, s, scope, relations)
    case _ => false
  }

  /** A formula over boolean relations whose identifiers are all variables. */
  ghost predicate GroundForm(t: Term, scope: Scope, relations: seq<RelationDecl>)
    decreases t, 1
  {
    match t
    case Literal(_) => true
    case Id(name) => VarForm(t, Bool, scope, relations)
    case App(f, _, args) =>
      && FindDecl(relations, f).Some?
      && ArgForms(args, FindDecl(relations, f).value, scope, relations)
    case UnaryOp(_, x) => GroundForm(x, scope, relations)
    case BinOp(op, x, y) =>
      if op == Equals || op == NotEquals then
        exists s {:trigger ArgForm(x, s, scope, relations)} ::
          ArgForm(x, s, scope, relations) && ArgForm(y, s, scope, relations)
      else GroundForm(x, scope, relations) && GroundForm(y, scope, relations)
    case NAryOp(_, args) => forall i | 0 <= i < |args| :: GroundForm(args[i], scope, relations)
    case Ite(c, x, y) =>
      GroundForm(c, scope, relations) && GroundForm(x, scope, relations) && GroundForm(y, scope, relations)
    case Quantified(_, binders, body) => GroundForm(body, AddBinders(scope, binders), relations)
  }

  ghost predicate ArgForm(t: Term, s: Sort, scope: Scope, relations: seq<RelationDecl>)
    decreases t, 2
  {
    VarForm(t, s, scope, relations) || (s == Bool && GroundForm(t, scope, relations))
  }

  ghost predicate ArgForms(args: seq<Term>, decl: RelationDecl, scope: Scope, relations: seq<RelationDecl>)
    decreases args, 0
  {
    && decl.sort == Bool
    && |args| == |decl.args|
    && forall i | 0 <= i < |args| :: ArgForm(args[i], decl.args[i], scope, relations)
  }

  /** Both branches of every if-then-else are boolean. */
  predicate IteBool(t: Term, scope: Scope)
    decreases t
  {
    match t
    case Literal(_) => true
    case Id(_) => true
    case App(_, _, args) => forall i | 0 <= i < |args| :: IteBool(args[i], scope)
    case UnaryOp(_, x) => IteBool(x, scope)
    case BinOp(_, x, y) => IteBool(x, scope) && IteBool(y, scope)
    case NAryOp(_, args) => forall i | 0 <= i < |args| :: IteBool(args[i], scope)
    case Ite(c, x, y) =>
      IteBool(c, scope) && IteBool(x, scope) && IteBool(y, scope) && SortOf(x, scope) == Some(Bool)
    case Quantified(_, binders, body) => IteBool(body, AddBinders(scope, binders))
  }

  predicate AllBool(relations: seq<RelationDecl>) {
    forall d | d in relations :: d.sort == Bool
  }

  function RelationNames(relations: seq<RelationDecl>): set<string> {
    set d | d in relations :: d.name
  }

  /** Names outside the signature are individuals, the others mean what the signature says. */
  predicate ScopeExtends(scope: Scope, relations: seq<RelationDecl>) {
    forall name | name in scope ::
      if FindDecl(relations, name).Some? then scope[name] == DeclEntry(FindDecl(relations, name).value)
      else scope[name].Individual?
  }

  lemma {:induction false} AddBindersExtends(scope: Scope, binders: seq<Binder>, relations: seq<RelationDecl>)
    requires ScopeExtends(scope, relations) && BinderNames(binders) !! RelationNames(relations)
    ensures ScopeExtends(AddBinders(scope, binders), relations)
    decreases |binders|
  {
    if binders != [] {
      assert binders[0].name in BinderNames(binders);
      assert BinderNames(binders[1..]) <= BinderNames(binders);
      AddBindersExtends(scope[binders[0].name := Individual(binders[0].sort)], binders[1..], relations);
    }
  }

  /** A well-sorted boolean term is a formula once nullary relations are applications. */
  lemma {:induction false} NullaryGround(t: Term, scope: Scope, relations: seq<RelationDecl>)
    requires ScopeExtends(scope, relations) && AllBool(relations)
    requires IteBool(t, scope) && NoCapture(t, RelationNames(relations))
    requires SortOf(t, scope).Some?
    ensures ArgForm(NullaryIdToApp(t, relations), SortOf(t, scope).value, scope, relations)
    ensures SortOf(t, scope) == Some(Bool) ==> GroundForm(NullaryIdToApp(t, relations), scope, relations)
    decreases t
  {
    match t
    case Literal(_) =>
    case Id(name) =>
    case App(f, p, args) =>
      var decl := FindDecl(relations, f).value;
      forall i | 0 <= i < |args| ensures ArgForm(NullaryIdToApp(args[i], relations), decl.args[i], scope, relations) {
        NullaryGround(args[i], scope, relations);
      }
    case UnaryOp(op, x) => NullaryGround(x, scope, relations);
    case BinOp(op, x, y) => NullaryGround(x, scope, relations); NullaryGround(y, scope, relations);
    case NAryOp(_, args) =>
      forall i | 0 <= i < |args| ensures GroundForm(NullaryIdToApp(args[i], relations), scope, relations) {
        NullaryGround(args[i], scope, relations);
      }
    case Ite(c, x, y) =>
      NullaryGround(c, scope, relations);
      NullaryGround(x, scope, relations);
      NullaryGround(y, scope, relations);
    case Quantified(_, binders, body) =>
      AddBindersExtends(scope, binders, relations);
      NullaryGround(body, AddBinders(scope, binders), relations);
  }

  lemma {:induction false} WithPrimesGround(t: Term, n: nat, s: Sort, scope: Scope, relations: seq<RelationDecl>)
    requires VarForm(t, s, scope, relations)
    ensures VarForm(WithPrimes(t, n), s, scope, relations)
    ensures s == Bool && GroundForm(t, scope, relations) ==> GroundForm(WithPrimes(t, n), scope, relations)
  {
    if n > 0 { WithPrimesGround(t, n - 1, s, scope, relations); }
  }

  lemma {:induction false} WithNextVar(sig: Signature, t: Term, bound: set<string>, next: nat, s: Sort, scope: Scope)
    requires VarForm(t, s, scope, sig.relations)
    ensures VarForm(WithNext(sig, t, bound, next), s, scope, sig.relations)
    decreases t
  {
    match t
    case Id(name) =>
      WithPrimesGround(t, if name in bound || IsImmutable(sig, name) then 0 else next, s, scope, sig.relations);
    case UnaryOp(_, x) => WithNextVar(sig, x, bound, next + 1, s, scope);
  }

  /** Normalizing primes keeps the form. */
  lemma {:induction false} WithNextGround(sig: Signature, t: Term, bound: set<string>, next: nat, scope: Scope)
    requires GroundForm(t, scope, sig.relations)
    ensures GroundForm(WithNext(sig, t, bound, next), scope, sig.relations)
    decreases t, 1
  {
    match t
    case Literal(_) =>
    case Id(name) =>
      WithPrimesGround(t, if name in bound || IsImmutable(sig, name) then 0 else next, Bool, scope, sig.relations);
    case App(f, p, args) =>
      var decl := FindDecl(sig.relations, f).value;
      forall i | 0 <= i < |args|
        ensures ArgForm(WithNext(sig, args[i], bound, next), decl.args[i], scope, sig.relations)
      {
        WithNextArg(sig, args[i], bound, next, decl.args[i], scope);
      }
    case UnaryOp(op, x) => WithNextGround(sig, x, bound, if op == Prime then next + 1 else next, scope);
    case BinOp(op, x, y) =>
      if op == Equals || op == NotEquals {
        var s :| ArgForm(x, s, scope, sig.relations) && ArgForm(y, s, scope, sig.relations);
        WithNextArg(sig, x, bound, next, s, scope);
        WithNextArg(sig, y, bound, next, s, scope);
      } else {
        WithNextGround(sig, x, bound, next, scope);
        WithNextGround(sig, y, bound, next, scope);
      }
    case NAryOp(_, args) =>
      forall i | 0 <= i < |args| ensures GroundForm(WithNext(sig, args[i], bound, next), scope, sig.relations) {
        WithNextGround(sig, args[i], bound, next, scope);
      }
    case Ite(c, x, y) =>
      WithNextGround(sig, c, bound, next, scope);
      WithNextGround(sig, x, bound, next, scope);
      WithNextGround(sig, y, bound, next, scope);
    case Quantified(_, binders, body) =>
      WithNextGround(sig, body, bound + BinderNames(binders), next, AddBinders(scope, binders));
  }

  lemma {:induction false} WithNextArg(sig: Signature, t: Term, bound: set<string>, next: nat, s: Sort, scope: Scope)
    requires ArgForm(t, s, scope, sig.relations)
    ensures ArgForm(WithNext(sig, t, bound, next), s, scope, sig.relations)
    decreases t, 2
  {
    if VarForm(t, s, scope, sig.relations) {
      WithNextVar(sig, t, bound, next, s, scope);
    } else {
      WithNextGround(sig, t, bound, next, scope);
    }
  }

  // Values of formulas.

  ghost predicate VarsFit(scope: Scope, relations: seq<RelationDecl>, asg: Assignment, universe: Universe) {
    forall name | IsVar(name, scope, relations) :: name in asg && asg[name] < universe(scope[name].sort)
  }

  /** The relations of the trace have truth values. */
  ghost predicate TruthTrace(relations: seq<RelationDecl>, tr: Trace) {
    && tr.universe(Bool) == 2
    && forall k: nat, name, es |
         FindDecl(relations, name).Some? && FindDecl(relations, name).value.sort == Bool
         && TupleOf(es, FindDecl(relations, name).value.args, tr.universe) ::
           tr.at(k)(name, es) < 2
  }

  lemma FitsTruth(relations: seq<RelationDecl>, tr: Trace)
    requires TraceFits(ScopeOf(relations), tr)
    ensures TruthTrace(relations, tr)
  {
    forall k: nat, name, es |
      FindDecl(relations, name).Some? && FindDecl(relations, name).value.sort == Bool
      && TupleOf(es, FindDecl(relations, name).value.args, tr.universe)
      ensures tr.at(k)(name, es) < 2
    {
      assert name in ScopeOf(relations);
      if FindDecl(relations, name).value.args == [] { assert es == []; }
    }
  }

  lemma {:induction false} BindVarsFit(scope: Scope, binders: seq<Binder>, relations: seq<RelationDecl>, asg: Assignment,
                                       universe: Universe, es: seq<Element>)
    requires VarsFit(scope, relations, asg, universe) && InShape(es, Shape(universe, binders))
    ensures VarsFit(AddBinders(scope, binders), relations, Bind(asg, binders, es), universe)
    decreases |binders|
  {
    if binders != [] {
      assert es[0] < Shape(universe, binders)[0];
      assert Shape(universe, binders)[1..] == Shape(universe, binders[1..]);
      BindVarsFit(scope[binders[0].name := Individual(binders[0].sort)], binders[1..], relations,
                  asg[binders[0].name := es[0]], universe, es[1..]);
    }
  }

  lemma {:induction false} VarValue(t: Term, s: Sort, scope: Scope, relations: seq<RelationDecl>, tr: Trace, k: nat, asg: Assignment)
    requires VarForm(t, s, scope, relations) && VarsFit(scope, relations, asg, tr.universe)
    ensures Eval(t, tr, k, asg) < tr.universe(s)
    decreases t
  {
    if t.UnaryOp? { VarValue(t.arg, s, scope, relations, tr, k + 1, asg); }
  }

  /** A formula evaluates to 0 or 1. */
  lemma {:induction false} TruthValue(t: Term, scope: Scope, relations: seq<RelationDecl>, tr: Trace, k: nat, asg: Assignment)
    requires GroundForm(t, scope, relations) && VarsFit(scope, relations, asg, tr.universe) && TruthTrace(relations, tr)
    ensures Eval(t, tr, k, asg) < 2
    decreases t, 1
  {
    hide EvalUnary, EvalBinary, EvalQuantified;
    match t
    case Literal(_) =>
    case Id(name) => VarValue(t, Bool, scope, relations, tr, k, asg);
    case App(f, p, args) => ArgValues(args, FindDecl(relations, f).value, scope, relations, tr, k, asg);
    case UnaryOp(op, x) =>
      TruthValue(x, scope, relations, tr, k + 1, asg);
      UnaryTruth(op, x, tr, k, asg);
    case BinOp(op, x, y) => BinaryEval(op, x, y, tr, k, asg);
    case NAryOp(_, _) =>
    case Ite(c, x, y) =>
      TruthValue(x, scope, relations, tr, k, asg);
      TruthValue(y, scope, relations, tr, k, asg);
    case Quantified(_, binders, body) =>
      if binders == [] { TruthValue(body, scope, relations, tr, k, asg); }
      QuantifiedEval(t.quantifier, binders, body, tr, k, asg);
  }

  lemma UnaryTruth(op: UOp, x: Term, tr: Trace, k: nat, asg: Assignment)
    requires Eval(x, tr, k + 1, asg) < 2
    ensures Eval(UnaryOp(op, x), tr, k, asg) < 2
  {
    hide HoldsFrom, NeverFrom;
    UnaryEval(op, x, tr, k, asg);
  }

  lemma {:induction false} ArgValues(args: seq<Term>, decl: RelationDecl, scope: Scope, relations: seq<RelationDecl>,
                                     tr: Trace, k: nat, asg: Assignment)
    requires ArgForms(args, decl, scope, relations) && VarsFit(scope, relations, asg, tr.universe)
    requires TruthTrace(relations, tr)
    ensures TupleOf(EvalAll(args, tr, k, asg), decl.args, tr.universe)
    decreases args
  {
    forall i | 0 <= i < |args| ensures Eval(args[i], tr, k, asg) < tr.universe(decl.args[i]) {
      if VarForm(args[i], decl.args[i], scope, relations) {
        VarValue(args[i], decl.args[i], scope, relations, tr, k, asg);
      } else {
        TruthValue(args[i], scope, relations, tr, k, asg);
      }
    }
  }

  // Soundness of the translation.

  /** Everything a translation step is judged under. */
  ghost predicate Setting(scope: Scope, relations: seq<RelationDecl>, tr: Trace, asg: Assignment) {
    VarsFit(scope, relations, asg, tr.universe) && TruthTrace(relations, tr)
  }

  ghost predicate Means(e: Enumerated, t: Term, tr: Trace, k: nat, asg: Assignment) {
    EnumHolds(e, tr, k) <==> Eval(t, tr, k, asg) == 1
  }

  ghost predicate AllMean(es: seq<Enumerated>, ts: seq<Term>, tr: Trace, k: nat, asg: Assignment) {
    |es| == |ts| && forall i | 0 <= i < |es| :: Means(es[i], ts[i], tr, k, asg)
  }

  lemma {:induction false} TermSound(t: Term, scope: Scope, relations: seq<RelationDecl>, tr: Trace, k: nat,
                                     asg: Assignment, e: Enumerated)
    requires GroundForm(t, scope, relations) && Setting(scope, relations, tr, asg)
    requires TermToEnumerated(t, tr.universe, asg) == Ok(e)
    ensures Means(e, t, tr, k, asg)
    decreases t, 2
  {
    match t
    case Literal(_) =>
    case Id(_) =>
    case App(f, p, args) =>
      var es := ElementsOf(args, tr.universe, asg).value;
      ElementsSound(args, FindDecl(relations, f).value.args, scope, relations, tr, k, asg, es);
    case UnaryOp(_, x) =>
      var ex := TermToEnumerated(x, tr.universe, asg).value;
      TermSound(x, scope, relations, tr, k, asg, ex);
      NotSound(x, ex, scope, relations, tr, k, asg);
    case BinOp(op, x, y) =>
      if op == Implies {
        ImpliesSound(x, y, scope, relations, tr, k, asg, e);
      } else {
        var eq := EqualsToEnumerated(op, x, y, tr.universe, asg).value;
        EqualsSound(op, x, y, scope, relations, tr, k, asg, eq);
        if op == NotEquals { MkNotHolds(eq, tr, k); }
      }
    case NAryOp(op, args) =>
      var es := TermsToEnumerated(args, tr.universe, asg).value;
      TermsSound(args, scope, relations, tr, k, asg, es);
      NArySound(op, args, es, tr, k, asg);
    case Ite(c, x, y) => IteSound(c, x, y, scope, relations, tr, k, asg, e);
    case Quantified(q, binders, body) =>
      var tuples := Product(Shape(tr.universe, binders));
      var es := InstancesOf(body, binders, tuples, tr.universe, asg).value;
      forall es' | es' in tuples ensures InShape(es', Shape(tr.universe, binders)) {
        ProductMembers(Shape(tr.universe, binders), es');
      }
      InstancesSound(body, binders, tuples, scope, relations, tr, k, asg, es);
      QuantifierSound(q, binders, body, tr, k, asg, es);
  }

  lemma NotSound(x: Term, ex: Enumerated, scope: Scope, relations: seq<RelationDecl>, tr: Trace, k: nat, asg: Assignment)
    requires GroundForm(x, scope, relations) && Setting(scope, relations, tr, asg)
    requires Means(ex, x, tr, k, asg)
    ensures Means(MkNot(ex), UnaryOp(Not, x), tr, k, asg)
  {
    hide EnumHolds, GroundForm, Eval;
    MkNotHolds(ex, tr, k);
    TruthValue(x, scope, relations, tr, k, asg);
    UnaryEval(Not, x, tr, k, asg);
  }

  lemma NArySound(op: NOp, args: seq<Term>, es: seq<Enumerated>, tr: Trace, k: nat, asg: Assignment)
    requires AllMean(es, args, tr, k, asg)
    ensures Means(if op == And then MkAnd(es) else MkOr(es), NAryOp(op, args), tr, k, asg)
  {
    hide EnumHolds, AllHold, NoneHolds;
    MkAndHolds(es, tr, k);
    MkOrHolds(es, tr, k);
    AllValues(args, es, tr, k, asg);
    assert Eval(NAryOp(op, args), tr, k, asg) == NAryValue(op, EvalAll(args, tr, k, asg));
  }

  lemma AllValues(args: seq<Term>, es: seq<Enumerated>, tr: Trace, k: nat, asg: Assignment)
    requires AllMean(es, args, tr, k, asg)
    ensures AllHold(es, tr, k) <==> NAryValue(And, EvalAll(args, tr, k, asg)) == 1
    ensures !NoneHolds(es, tr, k) <==> NAryValue(Or, EvalAll(args, tr, k, asg)) == 1
  {
    hide EnumHolds, Eval;
    var vs := EvalAll(args, tr, k, asg);
    forall i | 0 <= i < |es| ensures EnumHolds(es[i], tr, k) <==> vs[i] == 1 {
      assert Means(es[i], args[i], tr, k, asg);
    }
    if AllHold(es, tr, k) {
      forall v | v in vs ensures v == 1 {
        var i :| 0 <= i < |vs| && vs[i] == v;
        assert es[i] in es;
      }
    } else {
      var e :| e in es && !EnumHolds(e, tr, k);
      var i :| 0 <= i < |es| && es[i] == e;
      assert vs[i] in vs;
    }
    if NoneHolds(es, tr, k) {
      forall v | v in vs ensures v != 1 {
        var i :| 0 <= i < |vs| && vs[i] == v;
        assert es[i] in es;
      }
    } else {
      var e :| e in es && EnumHolds(e, tr, k);
      var i :| 0 <= i < |es| && es[i] == e;
      assert vs[i] in vs;
    }
  }

  lemma {:induction false} ElementSound(t: Term, s: Sort, scope: Scope, relations: seq<RelationDecl>, tr: Trace, k: nat,
                                        asg: Assignment, v: Element)
    requires ArgForm(t, s, scope, relations) && Setting(scope, relations, tr, asg)
    requires ElementOf(t, tr.universe, asg) == Ok(v)
    ensures Eval(t, tr, k, asg) == v
    decreases t, 3
  {
    if !t.Id? {
      var e := TermToEnumerated(t, tr.universe, asg).value;
      TermSound(t, scope, relations, tr, k, asg, e);
      TruthValue(t, scope, relations, tr, k, asg);
      AndHolds([], tr, k);
      OrHolds([], tr, k);
    }
  }

  lemma {:induction false} ElementsSound(ts: seq<Term>, sorts: seq<Sort>, scope: Scope, relations: seq<RelationDecl>,
                                         tr: Trace, k: nat, asg: Assignment, es: seq<Element>)
    requires |ts| == |sorts| && forall i | 0 <= i < |ts| :: ArgForm(ts[i], sorts[i], scope, relations)
    requires Setting(scope, relations, tr, asg)
    requires ElementsOf(ts, tr.universe, asg) == Ok(es)
    ensures EvalAll(ts, tr, k, asg) == es
    decreases ts, 4
  {
    if ts != [] {
      ElementSound(ts[0], sorts[0], scope, relations, tr, k, asg, es[0]);
      ElementsSound(ts[1..], sorts[1..], scope, relations, tr, k, asg, es[1..]);
      assert EvalAll(ts, tr, k, asg) == [Eval(ts[0], tr, k, asg)] + EvalAll(ts[1..], tr, k, asg);
    }
  }

  lemma {:induction false} TermsSound(ts: seq<Term>, scope: Scope, relations: seq<RelationDecl>, tr: Trace, k: nat,
                                      asg: Assignment, es: seq<Enumerated>)
    requires forall i | 0 <= i < |ts| :: GroundForm(ts[i], scope, relations)
    requires Setting(scope, relations, tr, asg)
    requires TermsToEnumerated(ts, tr.universe, asg) == Ok(es)
    ensures AllMean(es, ts, tr, k, asg)
    decreases ts, 1
  {
    if ts != [] {
      TermSound(ts[0], scope, relations, tr, k, asg, es[0]);
      TermsSound(ts[1..], scope, relations, tr, k, asg, es[1..]);
      forall i | 0 <= i < |es| ensures Means(es[i], ts[i], tr, k, asg) {
        if i > 0 { assert Means(es[1..][i - 1], ts[1..][i - 1], tr, k, asg); }
      }
    }
  }

  ghost predicate InstancesMean(es: seq<Enumerated>, body: Term, binders: seq<Binder>, tuples: seq<seq<Element>>,
                                tr: Trace, k: nat, asg: Assignment) {
    |es| == |tuples| && forall i | 0 <= i < |es| :: Means(es[i], body, tr, k, Bind(asg, binders, tuples[i]))
  }

  lemma {:induction false} InstancesSound(body: Term, binders: seq<Binder>, tuples: seq<seq<Element>>, scope: Scope,
                                          relations: seq<RelationDecl>, tr: Trace, k: nat, asg: Assignment,
                                          es: seq<Enumerated>)
    requires GroundForm(body, AddBinders(scope, binders), relations) && Setting(scope, relations, tr, asg)
    requires forall t | t in tuples :: InShape(t, Shape(tr.universe, binders))
    requires InstancesOf(body, binders, tuples, tr.universe, asg) == Ok(es)
    ensures InstancesMean(es, body, binders, tuples, tr, k, asg)
    decreases body, 3, |tuples|
  {
    if tuples != [] {
      BindVarsFit(scope, binders, relations, asg, tr.universe, tuples[0]);
      TermSound(body, AddBinders(scope, binders), relations, tr, k, Bind(asg, binders, tuples[0]), es[0]);
      InstancesSound(body, binders, tuples[1..], scope, relations, tr, k, asg, es[1..]);
      forall i | 0 <= i < |es| ensures Means(es[i], body, tr, k, Bind(asg, binders, tuples[i])) {
        if i > 0 { assert Means(es[1..][i - 1], body, tr, k, Bind(asg, binders, tuples[1..][i - 1])); }
      }
    }
  }

  lemma QuantifierSound(q: Quantifier, binders: seq<Binder>, body: Term, tr: Trace, k: nat, asg: Assignment,
                        es: seq<Enumerated>)
    requires InstancesMean(es, body, binders, Product(Shape(tr.universe, binders)), tr, k, asg)
    ensures Means(if q == Forall then MkAnd(es) else MkOr(es), Quantified(q, binders, body), tr, k, asg)
  {
    hide Eval, EnumHolds, OnAllTuples;
    MkAndHolds(es, tr, k);
    MkOrHolds(es, tr, k);
    AllInstances(binders, body, tr, k, asg, es);
    QuantifiedEval(q, binders, body, tr, k, asg);
    if binders == [] { NoBinders(binders, body, tr, k, asg); }
  }

  lemma NoBinders(binders: seq<Binder>, body: Term, tr: Trace, k: nat, asg: Assignment)
    requires binders == []
    ensures OnAllTuples(true, binders, body, tr, k, asg) == (Eval(body, tr, k, asg) == 1)
    ensures OnAllTuples(false, binders, body, tr, k, asg) == (Eval(body, tr, k, asg) != 1)
  {
    hide Eval;
    assert InShape([], Shape(tr.universe, binders));
    assert forall es | InShape(es, Shape(tr.universe, binders)) :: es == [];
  }

  lemma AllInstances(binders: seq<Binder>, body: Term, tr: Trace, k: nat, asg: Assignment, es: seq<Enumerated>)
    requires InstancesMean(es, body, binders, Product(Shape(tr.universe, binders)), tr, k, asg)
    ensures AllHold(es, tr, k) == OnAllTuples(true, binders, body, tr, k, asg)
    ensures NoneHolds(es, tr, k) == OnAllTuples(false, binders, body, tr, k, asg)
  {
    hide *;
    if AllHold(es, tr, k) { HoldOnTuples(true, binders, body, tr, k, asg, es); }
    if NoneHolds(es, tr, k) { HoldOnTuples(false, binders, body, tr, k, asg, es); }
    if OnAllTuples(true, binders, body, tr, k, asg) { TuplesHold(true, binders, body, tr, k, asg, es); }
    if OnAllTuples(false, binders, body, tr, k, asg) { TuplesHold(false, binders, body, tr, k, asg, es); }
  }

  lemma HoldOnTuples(value: bool, binders: seq<Binder>, body: Term, tr: Trace, k: nat, asg: Assignment, es: seq<Enumerated>)
    requires InstancesMean(es, body, binders, Product(Shape(tr.universe, binders)), tr, k, asg)
    requires if value then AllHold(es, tr, k) else NoneHolds(es, tr, k)
    ensures OnAllTuples(value, binders, body, tr, k, asg)
  {
    hide Eval, EnumHolds;
    var shape := Shape(tr.universe, binders);
    forall es' | InShape(es', shape) ensures (Eval(body, tr, k, Bind(asg, binders, es')) == 1) == value {
      ProductMembers(shape, es');
      var i :| 0 <= i < |Product(shape)| && Product(shape)[i] == es';
      assert Means(es[i], body, tr, k, Bind(asg, binders, es')) && es[i] in es;
    }
  }

  lemma TuplesHold(value: bool, binders: seq<Binder>, body: Term, tr: Trace, k: nat, asg: Assignment, es: seq<Enumerated>)
    requires InstancesMean(es, body, binders, Product(Shape(tr.universe, binders)), tr, k, asg)
    requires OnAllTuples(value, binders, body, tr, k, asg)
    ensures if value then AllHold(es, tr, k) else NoneHolds(es, tr, k)
  {
    hide Eval, EnumHolds;
    var tuples := Product(Shape(tr.universe, binders));
    forall e | e in es ensures EnumHolds(e, tr, k) == value {
      var i :| 0 <= i < |es| && es[i] == e;
      ProductMembers(Shape(tr.universe, binders), tuples[i]);
      assert Means(es[i], body, tr, k, Bind(asg, binders, tuples[i]));
    }
  }

  lemma {:induction false} EqualsSound(op: BOp, x: Term, y: Term, scope: Scope, relations: seq<RelationDecl>, tr: Trace,
                                       k: nat, asg: Assignment, e: Enumerated)
    requires GroundForm(BinOp(op, x, y), scope, relations) && Setting(scope, relations, tr, asg)
    requires op == Equals || op == NotEquals || op == Iff
    requires EqualsToEnumerated(op, x, y, tr.universe, asg) == Ok(e)
    ensures EnumHolds(e, tr, k) <==> Eval(x, tr, k, asg) == Eval(y, tr, k, asg)
    decreases BinOp(op, x, y), 1
  {
    var s: Sort;
    if op == Iff { s := Bool; }
    else { s :| ArgForm(x, s, scope, relations) && ArgForm(y, s, scope, relations); }
    var a, b := ElementOf(x, tr.universe, asg), ElementOf(y, tr.universe, asg);
    if a.Ok? && b.Ok? {
      ElementSound(x, s, scope, relations, tr, k, asg, a.value);
      ElementSound(y, s, scope, relations, tr, k, asg, b.value);
    } else {
      var ex, ey := TermToEnumerated(x, tr.universe, asg).value, TermToEnumerated(y, tr.universe, asg).value;
      BothGround(x, y, s, scope, relations, tr, asg);
      TermSound(x, scope, relations, tr, k, asg, ex);
      TermSound(y, scope, relations, tr, k, asg, ey);
      TruthValue(x, scope, relations, tr, k, asg);
      TruthValue(y, scope, relations, tr, k, asg);
    }
  }

  /** When not both sides are elements and both translate, both are formulas. */
  lemma BothGround(x: Term, y: Term, s: Sort, scope: Scope, relations: seq<RelationDecl>, tr: Trace, asg: Assignment)
    requires ArgForm(x, s, scope, relations) && ArgForm(y, s, scope, relations) && Setting(scope, relations, tr, asg)
    requires !(ElementOf(x, tr.universe, asg).Ok? && ElementOf(y, tr.universe, asg).Ok?)
    requires TermToEnumerated(x, tr.universe, asg).Ok? && TermToEnumerated(y, tr.universe, asg).Ok?
    ensures GroundForm(x, scope, relations) && GroundForm(y, scope, relations)
  {
    VarTranslates(x, s, scope, relations, tr, asg);
    VarTranslates(y, s, scope, relations, tr, asg);
  }

  lemma VarTranslates(x: Term, s: Sort, scope: Scope, relations: seq<RelationDecl>, tr: Trace, asg: Assignment)
    requires ArgForm(x, s, scope, relations) && Setting(scope, relations, tr, asg)
    requires TermToEnumerated(x, tr.universe, asg).Ok?
    ensures ElementOf(x, tr.universe, asg).Ok? || (s == Bool && GroundForm(x, scope, relations))
    ensures s == Bool ==> GroundForm(x, scope, relations)
  {
    if VarForm(x, s, scope, relations) && !x.Id? {
      assert false;
    }
  }

  lemma {:induction false} ImpliesSound(x: Term, y: Term, scope: Scope, relations: seq<RelationDecl>, tr: Trace,
                                        k: nat, asg: Assignment, e: Enumerated)
    requires GroundForm(x, scope, relations) && GroundForm(y, scope, relations) && Setting(scope, relations, tr, asg)
    requires ImpliesToEnumerated(x, y, tr.universe, asg) == Ok(e)
    ensures Means(e, BinOp(Implies, x, y), tr, k, asg)
    decreases BinOp(Implies, x, y), 1
  {
    hide Eval, EnumHolds, GroundForm;
    TruthValue(x, scope, relations, tr, k, asg);
    TruthValue(y, scope, relations, tr, k, asg);
    BinaryEval(Implies, x, y, tr, k, asg);
    var a := ElementOf(x, tr.universe, asg);
    if a == Ok(1) {
      FormulaElement(x, scope, relations, tr, asg);
      ElementSound(x, Bool, scope, relations, tr, k, asg, 1);
      TermSound(y, scope, relations, tr, k, asg, e);
    } else if a == Ok(0) {
      FormulaElement(x, scope, relations, tr, asg);
      ElementSound(x, Bool, scope, relations, tr, k, asg, 0);
      AndHolds([], tr, k);
    } else {
      var ex, ey := TermToEnumerated(x, tr.universe, asg).value, TermToEnumerated(y, tr.universe, asg).value;
      TermSound(x, scope, relations, tr, k, asg, ex);
      TermSound(y, scope, relations, tr, k, asg, ey);
      MkOrTwo(MkNot(ex), ey, tr, k);
      MkNotHolds(ex, tr, k);
    }
  }

  lemma FormulaElement(x: Term, scope: Scope, relations: seq<RelationDecl>, tr: Trace, asg: Assignment)
    requires GroundForm(x, scope, relations)
    ensures ArgForm(x, Bool, scope, relations)
  {
  }

  lemma MkOrTwo(a: Enumerated, b: Enumerated, tr: Trace, k: nat)
    ensures EnumHolds(MkOr([a, b]), tr, k) <==> EnumHolds(a, tr, k) || EnumHolds(b, tr, k)
  {
    hide EnumHolds;
    MkOrHolds([a, b], tr, k);
    assert a in [a, b] && b in [a, b];
  }

  lemma MkAndTwo(a: Enumerated, b: Enumerated, tr: Trace, k: nat)
    ensures EnumHolds(MkAnd([a, b]), tr, k) <==> EnumHolds(a, tr, k) && EnumHolds(b, tr, k)
  {
    hide EnumHolds;
    MkAndHolds([a, b], tr, k);
    assert a in [a, b] && b in [a, b];
  }

  lemma {:induction false} IteSound(c: Term, x: Term, y: Term, scope: Scope, relations: seq<RelationDecl>, tr: Trace,
                                    k: nat, asg: Assignment, e: Enumerated)
    requires GroundForm(Ite(c, x, y), scope, relations) && Setting(scope, relations, tr, asg)
    requires IteToEnumerated(c, x, y, tr.universe, asg) == Ok(e)
    ensures Means(e, Ite(c, x, y), tr, k, asg)
    decreases Ite(c, x, y), 1
  {
    var ec := TermToEnumerated(c, tr.universe, asg).value;
    var ex, ey := TermToEnumerated(x, tr.universe, asg).value, TermToEnumerated(y, tr.universe, asg).value;
    TermSound(c, scope, relations, tr, k, asg, ec);
    TermSound(x, scope, relations, tr, k, asg, ex);
    TermSound(y, scope, relations, tr, k, asg, ey);
    MkNotHolds(ec, tr, k);
    MkAndTwo(ec, ex, tr, k);
    MkAndTwo(MkNot(ec), ey, tr, k);
    MkOrTwo(MkAnd([ec, ex]), MkAnd([MkNot(ec), ey]), tr, k);
  }

  // The whole pipeline.

  /** Turning nullary relations into applications does not change the meaning, as long as no
      binder reuses the name of a relation. */
  lemma {:induction false} NullarySound(t: Term, relations: seq<RelationDecl>, tr: Trace, k: nat, asg: Assignment)
    requires NoCapture(t, RelationNames(relations)) && asg.Keys !! RelationNames(relations)
    ensures Eval(NullaryIdToApp(t, relations), tr, k, asg) == Eval(t, tr, k, asg)
    decreases t, 1
  {
    match t
    case Literal(_) =>
    case Id(name) => assert EvalAll([], tr, k, asg) == [];
    case App(_, _, args) => NullaryAllSound(args, relations, tr, k, asg);
    case UnaryOp(op, x) =>
      NullaryAlways(x, relations, tr, asg);
      UnaryShift(op, NullaryIdToApp(x, relations), tr, asg, x, tr, asg, 0, k);
    case BinOp(op, x, y) =>
      NullaryAlways(x, relations, tr, asg);
      NullaryAlways(y, relations, tr, asg);
      BinaryShift(op, NullaryIdToApp(x, relations), NullaryIdToApp(y, relations), tr, asg, x, y, tr, asg, 0, k);
    case NAryOp(_, args) => NullaryAllSound(args, relations, tr, k, asg);
    case Ite(c, x, y) =>
      NullarySound(c, relations, tr, k, asg);
      NullarySound(x, relations, tr, k, asg);
      NullarySound(y, relations, tr, k, asg);
    case Quantified(q, binders, body) => NullaryQuantified(q, binders, body, relations, tr, k, asg);
  }

  lemma {:induction false} NullaryAlways(t: Term, relations: seq<RelationDecl>, tr: Trace, asg: Assignment)
    requires NoCapture(t, RelationNames(relations)) && asg.Keys !! RelationNames(relations)
    ensures Shifted(NullaryIdToApp(t, relations), tr, asg, t, tr, asg, 0)
    decreases t, 2
  {
    forall j: nat ensures Eval(NullaryIdToApp(t, relations), tr, j, asg) == Eval(t, tr, j, asg) {
      NullarySound(t, relations, tr, j, asg);
    }
  }

  lemma {:induction false} NullaryAllSound(ts: seq<Term>, relations: seq<RelationDecl>, tr: Trace, k: nat, asg: Assignment)
    requires forall i | 0 <= i < |ts| :: NoCapture(ts[i], RelationNames(relations))
    requires asg.Keys !! RelationNames(relations)
    ensures EvalAll(NullaryAll(ts, relations), tr, k, asg) == EvalAll(ts, tr, k, asg)
    decreases ts
  {
    forall i | 0 <= i < |ts| ensures Eval(NullaryAll(ts, relations)[i], tr, k, asg) == Eval(ts[i], tr, k, asg) {
      NullarySound(ts[i], relations, tr, k, asg);
    }
  }

  lemma {:induction false} NullaryQuantified(q: Quantifier, binders: seq<Binder>, body: Term, relations: seq<RelationDecl>,
                                             tr: Trace, k: nat, asg: Assignment)
    requires NoCapture(Quantified(q, binders, body), RelationNames(relations)) && asg.Keys !! RelationNames(relations)
    ensures Eval(NullaryIdToApp(Quantified(q, binders, body), relations), tr, k, asg)
         == Eval(Quantified(q, binders, body), tr, k, asg)
    decreases body, 3
  {
    hide Eval, EvalQuantified;
    forall es | InShape(es, Shape(tr.universe, binders))
      ensures Eval(NullaryIdToApp(body, relations), tr, k, Bind(asg, binders, es)) == Eval(body, tr, k, Bind(asg, binders, es))
    {
      NullarySound(body, relations, tr, k, Bind(asg, binders, es));
    }
    QuantifiedCong(q, binders, NullaryIdToApp(body, relations), tr, k, asg, body, tr, k, asg);
  }

  lemma {:induction false} NullaryPast(t: Term, relations: seq<RelationDecl>, next: nat)
    requires PastUnprimed(t, next)
    ensures PastUnprimed(NullaryIdToApp(t, relations), next)
    decreases t
  {
    match t
    case Literal(_) =>
    case Id(_) =>
    case App(_, _, args) => forall i | 0 <= i < |args| { NullaryPast(args[i], relations, next); }
    case UnaryOp(op, x) => NullaryPast(x, relations, if op == Prime then next + 1 else next);
    case BinOp(_, x, y) => NullaryPast(x, relations, next); NullaryPast(y, relations, next);
    case NAryOp(_, args) => forall i | 0 <= i < |args| { NullaryPast(args[i], relations, next); }
    case Ite(c, x, y) => NullaryPast(c, relations, next); NullaryPast(x, relations, next); NullaryPast(y, relations, next);
    case Quantified(_, _, body) => NullaryPast(body, relations, next);
  }

  /** The closed formulas the enumeration is for. */
  predicate Enumerable(t: Term, sig: Signature) {
    && AllBool(sig.relations) && PastUnprimed(t, 0)
    && SortOf(t, ScopeOf(sig.relations)) == Some(Bool)
    && IteBool(t, ScopeOf(sig.relations))
    && NoCapture(t, RelationNames(sig.relations))
  }

  ghost predicate WellFormedTrace(sig: Signature, tr: Trace) {
    ConstantImmutables(sig, tr) && TraceFits(ScopeOf(sig.relations), tr)
  }

  /** Whenever enumeration succeeds, the result holds in a trace exactly when the original
      closed formula does. */
  lemma EnumerationSound(t: Term, sig: Signature, tr: Trace, k: nat, e: Enumerated)
    requires Enumerable(t, sig) && WellFormedTrace(sig, tr)
    requires EnumerateQuantifiers(t, sig, tr.universe) == Ok(e)
    ensures EnumHolds(e, tr, k) <==> Eval(t, tr, k, map[]) == 1
  {
    hide Eval, EnumHolds, WithNext, NullaryIdToApp, TermToEnumerated, GroundForm;
    var rs := sig.relations;
    var scope := ScopeOf(rs);
    var t1 := NullaryIdToApp(t, rs);
    var t2 := Normalize(sig, t1);
    NullaryGround(t, scope, rs);
    WithNextGround(sig, t1, {}, 0, scope);
    FitsTruth(rs, tr);
    TermSound(t2, scope, rs, tr, k, map[], e);
    assert Means(e, t2, tr, k, map[]);
    NullaryPast(t, rs, 0);
    NormalizeSound(sig, t1, tr, k, map[]);
    NullarySound(t, rs, tr, k, map[]);
  }
}
