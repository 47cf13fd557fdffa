/** What ground formulas look like after enumeration: where negations stand, and which applications
    are left. */
module EnumeratedShapes {
  import opened Collections
  import opened Syntax
  import opened Semantics
  import opened SortCheck
  import opened Primes
  import opened Indexing
  import opened QuantEnum
  import opened QuantEnumSound

  /** Negations stand on applications and equations only. */
  ghost predicate NegatesAtoms(e: Enumerated) {
    match e
    case EAnd(xs) => forall x | x in xs :: NegatesAtoms(x)
    case EOr(xs) => forall x | x in xs :: NegatesAtoms(x)
    case ENot(x) => (x.EApp? || x.EEq?) && NegatesAtoms(x)
    case EEq(x, y) => NegatesAtoms(x) && NegatesAtoms(y)
    case EApp(_, _, _) => true
  }

  /** Applications are of declared relations to elements of the right sorts, with at most one prime. */
  ghost predicate Known(e: Enumerated, relations: seq<RelationDecl>, universe: Universe) {
    match e
    case EAnd(xs) => forall x | x in xs :: Known(x, relations, universe)
    case EOr(xs) => forall x | x in xs :: Known(x, relations, universe)
    case ENot(x) => Known(x, relations, universe)
    case EEq(x, y) => Known(x, relations, universe) && Known(y, relations, universe)
    case EApp(name, p, args) =>
      p <= 1 && FindDecl(relations, name).Some? && InShape(args, ArgShape(universe, FindDecl(relations, name).value))
  }

  /** No application is primed. */
  ghost predicate Unprimed(e: Enumerated) {
    match e
    case EAnd(xs) => forall x | x in xs :: Unprimed(x)
    case EOr(xs) => forall x | x in xs :: Unprimed(x)
    case ENot(x) => Unprimed(x)
    case EEq(x, y) => Unprimed(x) && Unprimed(y)
    case EApp(_, p, _) => p == 0
  }

  /** Nor is one in a term. */
  ghost predicate NoPrimes(t: Term) {
    match t
    case Literal(_) => true
    case Id(_) => true
    case App(_, p, args) => p == 0 && forall i | 0 <= i < |args| :: NoPrimes(args[i])
    case UnaryOp(op, x) => op != Prime && NoPrimes(x)
    case BinOp(_, x, y) => NoPrimes(x) && NoPrimes(y)
    case NAryOp(_, args) => forall i | 0 <= i < |args| :: NoPrimes(args[i])
    case Ite(c, x, y) => NoPrimes(c) && NoPrimes(x) && NoPrimes(y)
    case Quantified(_, _, body) => NoPrimes(body)
  }

  /** Properties that the simplifying constructors keep. */
  ghost predicate Kept(e: Enumerated, relations: seq<RelationDecl>, universe: Universe, plain: bool) {
    NegatesAtoms(e) && Known(e, relations, universe) && (plain ==> Unprimed(e))
  }

  ghost predicate AllKept(es: seq<Enumerated>, relations: seq<RelationDecl>, universe: Universe, plain: bool) {
    forall x | x in es :: Kept(x, relations, universe, plain)
  }

  lemma AndKept(es: seq<Enumerated>, relations: seq<RelationDecl>, universe: Universe, plain: bool)
    ensures Kept(EAnd(es), relations, universe, plain) <==> AllKept(es, relations, universe, plain)
  {
  }

  lemma OrKept(es: seq<Enumerated>, relations: seq<RelationDecl>, universe: Universe, plain: bool)
    ensures Kept(EOr(es), relations, universe, plain) <==> AllKept(es, relations, universe, plain)
  {
  }

  lemma MkAndKept(es: seq<Enumerated>, relations: seq<RelationDecl>, universe: Universe, plain: bool)
    requires AllKept(es, relations, universe, plain)
    ensures Kept(MkAnd(es), relations, universe, plain)
  {
    hide Kept;
    var parts := GetAnds(es);
    var flat := Flatten(parts);
    forall y | y in flat ensures Kept(y, relations, universe, plain) {
      FlattenMembers(parts, y);
      var i :| 0 <= i < |parts| && y in parts[i];
      assert es[i] in es;
      if es[i].EAnd? { AndKept(es[i].terms, relations, universe, plain); }
    }
    SortDedupMembers(QuantEnum.Leq, flat);
    AndKept(Dedup(Sorted(QuantEnum.Leq, flat)), relations, universe, plain);
  }

  lemma MkOrKept(es: seq<Enumerated>, relations: seq<RelationDecl>, universe: Universe, plain: bool)
    requires AllKept(es, relations, universe, plain)
    ensures Kept(MkOr(es), relations, universe, plain)
  {
    hide Kept;
    var parts := GetOrs(es);
    var flat := Flatten(parts);
    forall y | y in flat ensures Kept(y, relations, universe, plain) {
      FlattenMembers(parts, y);
      var i :| 0 <= i < |parts| && y in parts[i];
      assert es[i] in es;
      if es[i].EOr? { OrKept(es[i].terms, relations, universe, plain); }
    }
    SortDedupMembers(QuantEnum.Leq, flat);
    OrKept(Dedup(Sorted(QuantEnum.Leq, flat)), relations, universe, plain);
  }

  lemma {:induction false} MkNotKept(e: Enumerated, relations: seq<RelationDecl>, universe: Universe, plain: bool)
    requires Kept(e, relations, universe, plain)
    ensures Kept(MkNot(e), relations, universe, plain)
    decreases e
  {
    match e
    case EAnd(terms) =>
      var nots := seq(|terms|, i requires 0 <= i < |terms| => MkNot(terms[i]));
      forall i | 0 <= i < |terms| ensures Kept(nots[i], relations, universe, plain) { MkNotKept(terms[i], relations, universe, plain); }
      MkOrKept(nots, relations, universe, plain);
    case EOr(terms) =>
      var nots := seq(|terms|, i requires 0 <= i < |terms| => MkNot(terms[i]));
      forall i | 0 <= i < |terms| ensures Kept(nots[i], relations, universe, plain) { MkNotKept(terms[i], relations, universe, plain); }
      MkAndKept(nots, relations, universe, plain);
    case _ =>
  }

  // The enumeration.

  ghost predicate Bound(scope: Scope, relations: seq<RelationDecl>, asg: Assignment, universe: Universe) {
    VarsFit(scope, relations, asg, universe) && universe(Bool) == 2
  }

  lemma {:induction false} TermKept(t: Term, scope: Scope, relations: seq<RelationDecl>, universe: Universe, plain: bool,
                                    asg: Assignment, e: Enumerated)
    requires plain ==> NoPrimes(t)
    requires GroundForm(t, scope, relations) && Bound(scope, relations, asg, universe) && TermToEnumerated(t, universe, asg) == Ok(e)
    ensures Kept(e, relations, universe, plain)
    decreases t, 2
  {
    match t
    case Literal(_) =>
    case Id(_) =>
    case App(f, p, args) =>
      var es := ElementsOf(args, universe, asg).value;
      assert GroundForm(t, scope, relations);
      ElementsInShape(args, FindDecl(relations, f).value.args, scope, relations, universe, asg, es);
    case UnaryOp(_, x) =>
      var ex := TermToEnumerated(x, universe, asg).value;
      TermKept(x, scope, relations, universe, plain, asg, ex);
      MkNotKept(ex, relations, universe, plain);
    case BinOp(op, x, y) =>
      if op == Implies {
        ImpliesKept(x, y, scope, relations, universe, plain, asg, e);
      } else {
        var eq := EqualsToEnumerated(op, x, y, universe, asg).value;
        EqualsKept(op, x, y, scope, relations, universe, plain, asg, eq);
        if op == NotEquals { MkNotKept(eq, relations, universe, plain); }
      }
    case NAryOp(op, args) =>
      var es := TermsToEnumerated(args, universe, asg).value;
      TermsKept(args, scope, relations, universe, plain, asg, es);
      if op == And { MkAndKept(es, relations, universe, plain); } else { MkOrKept(es, relations, universe, plain); }
    case Ite(c, x, y) => IteKept(c, x, y, scope, relations, universe, plain, asg, e);
    case Quantified(q, binders, body) =>
      var tuples := Product(Shape(universe, binders));
      var es := InstancesOf(body, binders, tuples, universe, asg).value;
      forall es' | es' in tuples ensures InShape(es', Shape(universe, binders)) { ProductMembers(Shape(universe, binders), es'); }
      InstancesKept(body, binders, tuples, scope, relations, universe, plain, asg, es);
      if q == Forall { MkAndKept(es, relations, universe, plain); } else { MkOrKept(es, relations, universe, plain); }
  }

  lemma {:induction false} TermsKept(ts: seq<Term>, scope: Scope, relations: seq<RelationDecl>, universe: Universe, plain: bool,
                                     asg: Assignment, es: seq<Enumerated>)
    requires plain ==> forall i | 0 <= i < |ts| :: NoPrimes(ts[i])
    requires forall i | 0 <= i < |ts| :: GroundForm(ts[i], scope, relations)
    requires Bound(scope, relations, asg, universe) && TermsToEnumerated(ts, universe, asg) == Ok(es)
    ensures AllKept(es, relations, universe, plain)
    decreases ts, 1
  {
    if ts != [] {
      TermKept(ts[0], scope, relations, universe, plain, asg, es[0]);
      TermsKept(ts[1..], scope, relations, universe, plain, asg, es[1..]);
      assert es == [es[0]] + es[1..];
    }
  }

  lemma {:induction false} InstancesKept(body: Term, binders: seq<Binder>, tuples: seq<seq<Element>>, scope: Scope, relations: seq<RelationDecl>,
                                         universe: Universe, plain: bool, asg: Assignment, es: seq<Enumerated>)
    requires plain ==> NoPrimes(body)
    requires GroundForm(body, AddBinders(scope, binders), relations) && Bound(scope, relations, asg, universe)
    requires (forall es' | es' in tuples :: InShape(es', Shape(universe, binders))) && InstancesOf(body, binders, tuples, universe, asg) == Ok(es)
    ensures AllKept(es, relations, universe, plain)
    decreases body, 3, |tuples|
  {
    if tuples != [] {
      BindVarsFit(scope, binders, relations, asg, universe, tuples[0]);
      TermKept(body, AddBinders(scope, binders), relations, universe, plain, Bind(asg, binders, tuples[0]), es[0]);
      InstancesKept(body, binders, tuples[1..], scope, relations, universe, plain, asg, es[1..]);
      assert es == [es[0]] + es[1..];
    }
  }

  lemma {:induction false} ImpliesKept(x: Term, y: Term, scope: Scope, relations: seq<RelationDecl>, universe: Universe, plain: bool,
                                       asg: Assignment, e: Enumerated)
    requires plain ==> NoPrimes(x) && NoPrimes(y)
    requires GroundForm(BinOp(Implies, x, y), scope, relations) && Bound(scope, relations, asg, universe)
    requires ImpliesToEnumerated(x, y, universe, asg) == Ok(e)
    ensures Kept(e, relations, universe, plain)
    decreases BinOp(Implies, x, y), 1
  {
    var a := ElementOf(x, universe, asg);
    if a == Ok(1) {
      TermKept(y, scope, relations, universe, plain, asg, e);
    } else if a != Ok(0) {
      var ex, ey := TermToEnumerated(x, universe, asg).value, TermToEnumerated(y, universe, asg).value;
      TermKept(x, scope, relations, universe, plain, asg, ex);
      TermKept(y, scope, relations, universe, plain, asg, ey);
      MkNotKept(ex, relations, universe, plain);
      MkOrKept([MkNot(ex), ey], relations, universe, plain);
    }
  }

  /** Both sides that are no elements are formulas. */
  lemma {:induction false} EqualsKept(op: BOp, x: Term, y: Term, scope: Scope, relations: seq<RelationDecl>, universe: Universe, plain: bool,
                                      asg: Assignment, e: Enumerated)
    requires plain ==> NoPrimes(x) && NoPrimes(y)
    requires op == Equals || op == NotEquals || op == Iff
    requires GroundForm(BinOp(op, x, y), scope, relations) && Bound(scope, relations, asg, universe)
    requires EqualsToEnumerated(op, x, y, universe, asg) == Ok(e)
    ensures Kept(e, relations, universe, plain)
    decreases BinOp(op, x, y), 1
  {
    assert GroundForm(BinOp(op, x, y), scope, relations);
    var s: Sort;
    if op == Iff { s := Bool; } else { s :| ArgForm(x, s, scope, relations) && ArgForm(y, s, scope, relations); }
    if !(ElementOf(x, universe, asg).Ok? && ElementOf(y, universe, asg).Ok?) {
      var ex, ey := TermToEnumerated(x, universe, asg).value, TermToEnumerated(y, universe, asg).value;
      if x.Id? { VarKept(x, relations, universe, plain, asg, ex); } else { TermKept(x, scope, relations, universe, plain, asg, ex); }
      if y.Id? { VarKept(y, relations, universe, plain, asg, ey); } else { TermKept(y, scope, relations, universe, plain, asg, ey); }
    }
  }

  lemma VarKept(x: Term, relations: seq<RelationDecl>, universe: Universe, plain: bool, asg: Assignment, e: Enumerated)
    requires x.Id? && TermToEnumerated(x, universe, asg) == Ok(e)
    ensures Kept(e, relations, universe, plain)
  {
  }

  lemma {:induction false} IteKept(c: Term, x: Term, y: Term, scope: Scope, relations: seq<RelationDecl>, universe: Universe, plain: bool,
                                   asg: Assignment, e: Enumerated)
    requires plain ==> NoPrimes(c) && NoPrimes(x) && NoPrimes(y)
    requires GroundForm(Ite(c, x, y), scope, relations) && Bound(scope, relations, asg, universe)
    requires IteToEnumerated(c, x, y, universe, asg) == Ok(e)
    ensures Kept(e, relations, universe, plain)
    decreases Ite(c, x, y), 1
  {
    hide Kept, MkAnd, MkOr, MkNot;
    var ec := TermToEnumerated(c, universe, asg).value;
    var ex, ey := TermToEnumerated(x, universe, asg).value, TermToEnumerated(y, universe, asg).value;
    TermKept(c, scope, relations, universe, plain, asg, ec);
    TermKept(x, scope, relations, universe, plain, asg, ex);
    TermKept(y, scope, relations, universe, plain, asg, ey);
    MkNotKept(ec, relations, universe, plain);
    MkAndKept([ec, ex], relations, universe, plain);
    MkAndKept([MkNot(ec), ey], relations, universe, plain);
    MkOrKept([MkAnd([ec, ex]), MkAnd([MkNot(ec), ey])], relations, universe, plain);
  }

  lemma ElementInSort(t: Term, s: Sort, scope: Scope, relations: seq<RelationDecl>, universe: Universe, asg: Assignment, v: Element)
    requires ArgForm(t, s, scope, relations) && Bound(scope, relations, asg, universe) && ElementOf(t, universe, asg) == Ok(v)
    ensures v < universe(s)
  {
  }

  lemma {:induction false} ElementsInShape(ts: seq<Term>, sorts: seq<Sort>, scope: Scope, relations: seq<RelationDecl>, universe: Universe,
                                           asg: Assignment, es: seq<Element>)
    requires |ts| == |sorts| && forall i | 0 <= i < |ts| :: ArgForm(ts[i], sorts[i], scope, relations)
    requires Bound(scope, relations, asg, universe) && ElementsOf(ts, universe, asg) == Ok(es)
    ensures |es| == |sorts| && forall i | 0 <= i < |es| :: es[i] < universe(sorts[i])
    decreases |ts|
  {
    hide ArgForm, Bound;
    if ts != [] {
      ElementInSort(ts[0], sorts[0], scope, relations, universe, asg, es[0]);
      ElementsInShape(ts[1..], sorts[1..], scope, relations, universe, asg, es[1..]);
    }
  }

  /** Whatever is enumerated negates atoms only, and its applications are of declared relations to
      elements of their sorts. */
  lemma EnumerationShape(t: Term, sig: Signature, universe: Universe, e: Enumerated)
    requires Enumerable(t, sig) && universe(Bool) == 2 && EnumerateQuantifiers(t, sig, universe) == Ok(e)
    ensures NegatesAtoms(e) && Known(e, sig.relations, universe)
  {
    hide WithNext, NullaryIdToApp, TermToEnumerated, GroundForm, NegatesAtoms, Known;
    var scope := ScopeOf(sig.relations);
    NullaryGround(t, scope, sig.relations);
    WithNextGround(sig, NullaryIdToApp(t, sig.relations), {}, 0, scope);
    TermKept(Normalize(sig, NullaryIdToApp(t, sig.relations)), scope, sig.relations, universe, false, map[], e);
  }

  lemma {:induction false} NoUnrolling(t: Term)
    requires FutureOnly(t) && UnrollingOf(t) == Finite(0)
    ensures NoPrimes(t)
    decreases t
  {
    match t
    case Literal(_) =>
    case Id(_) =>
    case App(_, p, args) => forall i | 0 <= i < |args| ensures NoPrimes(args[i]) { MaxUnrollingBounds(args, i); NoUnrolling(args[i]); }
    case UnaryOp(_, x) => NoUnrolling(x);
    case BinOp(_, x, y) => NoUnrolling(x); NoUnrolling(y);
    case NAryOp(_, args) => forall i | 0 <= i < |args| ensures NoPrimes(args[i]) { MaxUnrollingBounds(args, i); NoUnrolling(args[i]); }
    case Ite(c, x, y) => NoUnrolling(c); NoUnrolling(x); NoUnrolling(y);
    case Quantified(_, _, body) => NoUnrolling(body);
  }

  lemma {:induction false} NullaryNoPrimes(t: Term, relations: seq<RelationDecl>)
    requires NoPrimes(t)
    ensures NoPrimes(NullaryIdToApp(t, relations))
    decreases t
  {
    match t
    case Literal(_) =>
    case Id(_) =>
    case App(_, _, args) => forall i | 0 <= i < |args| { NullaryNoPrimes(args[i], relations); }
    case UnaryOp(_, x) => NullaryNoPrimes(x, relations);
    case BinOp(_, x, y) => NullaryNoPrimes(x, relations); NullaryNoPrimes(y, relations);
    case NAryOp(_, args) => forall i | 0 <= i < |args| { NullaryNoPrimes(args[i], relations); }
    case Ite(c, x, y) => NullaryNoPrimes(c, relations); NullaryNoPrimes(x, relations); NullaryNoPrimes(y, relations);
    case Quantified(_, _, body) => NullaryNoPrimes(body, relations);
  }

  lemma {:induction false} NormalNoPrimes(sig: Signature, t: Term, bound: set<string>)
    requires NoPrimes(t)
    ensures NoPrimes(WithNext(sig, t, bound, 0))
    decreases t
  {
    match t
    case Literal(_) =>
    case Id(_) =>
    case App(_, _, args) => forall i | 0 <= i < |args| { NormalNoPrimes(sig, args[i], bound); }
    case UnaryOp(_, x) => NormalNoPrimes(sig, x, bound);
    case BinOp(_, x, y) => NormalNoPrimes(sig, x, bound); NormalNoPrimes(sig, y, bound);
    case NAryOp(_, args) => forall i | 0 <= i < |args| { NormalNoPrimes(sig, args[i], bound); }
    case Ite(c, x, y) => NormalNoPrimes(sig, c, bound); NormalNoPrimes(sig, x, bound); NormalNoPrimes(sig, y, bound);
    case Quantified(_, binders, body) => NormalNoPrimes(sig, body, bound + BinderNames(binders));
  }

  /** A term without primes has a ground formula without primes. */
  lemma UnprimedShape(t: Term, sig: Signature, universe: Universe, e: Enumerated)
    requires Enumerable(t, sig) && universe(Bool) == 2 && EnumerateQuantifiers(t, sig, universe) == Ok(e) && NoPrimes(t)
    ensures Unprimed(e)
  {
    hide WithNext, NullaryIdToApp, TermToEnumerated, GroundForm, NegatesAtoms, Known, NoPrimes, Unprimed;
    var scope, nullary := ScopeOf(sig.relations), NullaryIdToApp(t, sig.relations);
    NullaryGround(t, scope, sig.relations);
    WithNextGround(sig, nullary, {}, 0, scope);
    NullaryNoPrimes(t, sig.relations);
    NormalNoPrimes(sig, nullary, {});
    TermKept(Normalize(sig, nullary), scope, sig.relations, universe, true, map[], e);
  }
}
