/** Weakening a set of single clauses from the false one: no clause of the language is lost that the models satisfy
    and the steps preserve. */
module SingleClauses {
  import opened Collections
  import opened Syntax
  import opened Semantics
  import opened Subsumption
  import opened LemmaBodies
  import opened BodyForms
  import opened Weakening
  import opened FirstWeakenings
  import LS = LemmaSets
  import Q = Quantifiers

  // The clauses that weakening can make.

  /** Small enough, not trivial, and without inequalities. */
  predicate Makeable(env: Setting, c: seq<Literal>) {
    && |c| <= env.limits.clauseSize && (forall l | l in c && env.isEq(l.atom) :: l.positive)
    && forall l, k | l in c && k in c :: k != Negated(l)
  }

  ghost predicate Goal(env: Setting, x: Elem) {
    env.kind == Cnf && BodyOk(env, x) && Has(x, FormOf(Cnf)) && |ToBase(Cnf, x).lists| == 1 && Makeable(env, ToBase(Cnf, x).lists[0])
  }

  /** Bodies of the language with at most one clause. */
  ghost predicate Single(env: Setting, e: Elem) {
    env.kind == Cnf && BodyOk(env, e) && Has(e, FormOf(Cnf)) && |ToBase(Cnf, e).lists| <= 1
  }

  ghost predicate AllSingle(env: Setting, es: set<Elem>) {
    forall e | e in es :: Single(env, e)
  }

  // What reaches a clause.

  /** A clause under the permutations of the blocks from one on. */
  ghost function Orbit(env: Setting, i: nat, g: Elem): set<Elem> {
    set x | x in env.permuted(i, g)
  }

  ghost predicate ReachedBy(orbit: set<Elem>, e: Elem) {
    exists x | x in orbit :: Covers(e, x)
  }

  /** One of the bodies covers a permuted clause. */
  ghost predicate Reaches(orbit: set<Elem>, es: set<Elem>) {
    exists e | e in es :: ReachedBy(orbit, e)
  }

  ghost function Towards(orbit: set<Elem>): (Elem, Elem) -> bool {
    (a, b) => ReachedBy(orbit, b) ==> ReachedBy(orbit, a)
  }

  /** Permutations make groups: what a permuted body covers, the body covers up to a permutation; permuted clauses
      are clauses, and permuting them again gives no others. */
  ghost predicate Symmetric(env: Setting) {
    && (forall i, g | Goal(env, g) :: g in Orbit(env, i, g) && CoveringAt(env, i, Towards(Orbit(env, i, g))))
    && (forall i, g, y | Goal(env, g) && y in Orbit(env, i, g) :: Goal(env, y) && g in Orbit(env, i, y))
    && forall i, j, g, y | i <= j && Goal(env, g) && y in Orbit(env, i, g) :: Orbit(env, j, y) <= Orbit(env, i, g)
  }

  /** Permuting blocks from one on does not change the truth from that block on. */
  ghost predicate SymmetricTruth(env: Setting, m: LS.Model)
    requires ModelFits(env, m)
  {
    forall i: nat, asg: Assignment, g, y | i <= |env.prefix.names| && Q.VarsBefore(env.prefix, i) <= asg.Keys && Goal(env, g) && y in Orbit(env, i, g)
      && TrueFrom(env, m, g, i, asg) :: TrueFrom(env, m, y, i, asg)
  }

  ghost predicate SubsumesSome(env: Setting, x: (set<Elem>, nat), form: Elem) {
    exists e | e in x.0 :: exists p | p in env.permuted(x.1, form) :: Subsumes(e, p)
  }

  /** What is ignored is subsumed, up to a permutation, by something that was passed. */
  ghost predicate IgnoresSubsumed(env: Setting) {
    forall ignore, b | BaseFits(env.kind, b) && env.ignored(ignore, b) ::
      exists k: nat :: k < |ignore| && SubsumesSome(env, ignore[k], CanonicalForm(ToElem(env.kind, b)))
  }

  /** One clause is allowed, and the setting is as it should be. */
  ghost predicate OneClause(env: Setting) {
    env.kind == Cnf && env.limits.clauses == 1 && Plain(env) && Symmetric(env) && IgnoresSubsumed(env)
  }

  // A clause covers another when it is part of it.

  lemma {:induction false} ClauseWithin(c: seq<Literal>, d: seq<Literal>)
    requires Covers(CnfElem([c]), CnfElem([d]))
    ensures Within(c, d)
  {
    var xs, ys := RevEach(LitElems(d)), RevEach(LitElems(c));
    assert ClauseElems([c]) == [ClauseElem(c)] && ClauseElems([d]) == [ClauseElem(d)];
    CoversAnd([ClauseElem(c)], [ClauseElem(d)]);
    assert CoversSome([ClauseElem(c)], [ClauseElem(d)][0]);
    assert Covers(AndOf(xs), AndOf(ys));
    CoversAnd(xs, ys);
    forall l | l in c ensures l in d {
      var j :| 0 <= j < |c| && c[j] == l;
      assert CoversSome(xs, ys[j]);
      var i :| 0 <= i < |xs| && Covers(xs[i], ys[j]);
      assert xs[i] == Rev(ELit(d[i].atom, d[i].positive)) && ys[j] == Rev(ELit(c[j].atom, c[j].positive));
      assert Covers(ELit(c[j].atom, c[j].positive), ELit(d[i].atom, d[i].positive));
      assert d[i] == c[j] && d[i] in d;
    }
  }

  lemma NoClauseCovers(d: seq<Literal>)
    ensures !Covers(CnfElem([]), CnfElem([d]))
  {
    CoversAnd(ClauseElems([]), ClauseElems([d]));
    assert ClauseElems([]) == [];
    assert !CoversSome([], ClauseElems([d])[0]);
  }

  /** The literals of a canonical clause are different. */
  lemma ClauseDistinct(c: seq<Literal>)
    requires Canonical(ClauseElem(c))
    ensures NoDuplicates(c)
  {
    var xs := RevEach(LitElems(c));
    assert Canonical(AndOf(xs));
    hide Leq;
    forall i, j | 0 <= i < j < |c| ensures c[i] != c[j] {
      assert xs[i] == Rev(ELit(c[i].atom, c[i].positive)) && xs[j] == Rev(ELit(c[j].atom, c[j].positive));
      assert xs[i] != xs[j];
    }
  }

  lemma {:induction false} DistinctSize<T>(xs: seq<T>)
    requires NoDuplicates(xs)
    ensures |(set x | x in xs)| == |xs|
  {
    if xs == [] {
      assert (set x | x in xs) == {};
    } else {
      DistinctTail(xs);
      hide NoDuplicates;
      DistinctSize(xs[1..]);
      var rest := set x | x in xs[1..];
      assert xs == [xs[0]] + xs[1..];
      assert (set x | x in xs) == rest + {xs[0]};
      assert xs[0] !in rest;
    }
  }

  lemma DistinctTail<T>(xs: seq<T>)
    requires NoDuplicates(xs) && xs != []
    ensures NoDuplicates(xs[1..]) && xs[0] !in xs[1..]
  {
  }

  lemma {:induction false} MembersAtMost<T>(xs: seq<T>)
    ensures |(set x | x in xs)| <= |xs|
  {
    if xs != [] {
      MembersAtMost(xs[1..]);
      assert (set x | x in xs) == (set x | x in xs[1..]) + {xs[0]};
    } else {
      assert (set x | x in xs) == {};
    }
  }

  lemma ShorterPart(c: seq<Literal>, d: seq<Literal>, l: Literal)
    requires NoDuplicates(c) && Within(c, d) && l in d && l !in c
    ensures |c| < |d|
  {
    DistinctSize(c);
    MembersAtMost(d);
    var small, large := (set x | x in c), (set x | x in d);
    assert small + {l} <= large;
    SubsetSize(small + {l}, large);
  }

  lemma SingleLists(env: Setting, e: Elem)
    requires Single(env, e)
    ensures BodyOk(env, e) && Has(e, FormOf(Cnf)) && Canonical(e) && ToElem(Cnf, ToBase(Cnf, e)) == e && ToBase(Cnf, e).Lists?
    ensures e == CnfElem(ToBase(Cnf, e).lists) && |ToBase(Cnf, e).lists| <= 1
  {
  }

  lemma GoalParts(env: Setting, x: Elem) returns (d: seq<Literal>)
    requires Goal(env, x)
    ensures env.kind == Cnf && BodyOk(env, x) && Has(x, FormOf(Cnf)) && ToBase(Cnf, x) == Base.Lists([d]) && Makeable(env, d)
    ensures x == CnfElem([d]) && Single(env, x)
  {
    hide BodyOk, Makeable, Has;
    d := ToBase(Cnf, x).lists[0];
    assert ToBase(Cnf, x).lists == [d];
    assert ToElem(Cnf, ToBase(Cnf, x)) == x;
  }

  lemma ClauseCanonical(e: Elem, c: seq<Literal>)
    requires e == CnfElem([c]) && Canonical(e)
    ensures Canonical(ClauseElem(c))
  {
    assert ClauseElems([c])[0] == ClauseElem(c) && ClauseElem(c) in ClauseElems([c]);
  }

  /** A single clause that covers a makeable one can be weakened towards it. */
  lemma TowardsGoal(env: Setting, e: Elem, x: Elem, v: nat -> bool)
    requires Single(env, e) && Goal(env, x) && Covers(e, x) && Truth(x, v) && env.limits.clauses == 1
    ensures Attainable(ToBase(Cnf, e).lists, TrueCube(env.allowed, v), 1, env.limits.clauseSize, env.isEq, ToBase(Cnf, x).lists)
  {
    SingleLists(env, e);
    var d := GoalParts(env, x);
    TrueMeets(env, x, v);
    var lists, cube := ToBase(Cnf, e).lists, TrueCube(env.allowed, v);
    assert d in [d];
    hide Has, BodyOk, Truth, Covers, Canonical, ToBase, Goal, Single, ClauseElem;
    if lists == [] {
      NoClauseCovers(d);
    } else {
      var c := lists[0];
      assert lists == [c];
      ClauseCanonical(e, c);
      ClauseDistinct(c);
      ClauseWithin(c, d);
      ClauseReachable(env, c, d, cube);
    }
  }

  lemma ClauseReachable(env: Setting, c: seq<Literal>, d: seq<Literal>, cube: seq<Literal>)
    requires NoDuplicates(c) && Within(c, d) && Makeable(env, d) && Meets(d, cube)
    ensures Reachable(c, cube, env.limits.clauseSize, env.isEq, d)
  {
    if !Meets(c, cube) {
      var l :| l in cube && l in d;
      assert l !in c;
      ShorterPart(c, d, l);
      assert Addable(c, cube, env.isEq, l);
    }
  }

  // Under a full assignment.

  /** The sets passed on the way, with a clause whose orbit each is to reach. */
  ghost predicate Nested(env: Setting, i: nat, g: Elem, gs: seq<Elem>, ignore: seq<(set<Elem>, nat)>) {
    |gs| == |ignore| && forall k | 0 <= k < |gs| :: Wider(env, i, g, ignore[k].1, gs[k])
  }

  ghost predicate Wider(env: Setting, i: nat, g: Elem, j: nat, h: Elem) {
    Goal(env, h) && Orbit(env, i, g) <= Orbit(env, j, h)
  }

  ghost predicate SomePassed(env: Setting, gs: seq<Elem>, ignore: seq<(set<Elem>, nat)>) {
    exists k: nat :: k < |gs| && k < |ignore| && Reaches(Orbit(env, ignore[k].1, gs[k]), ignore[k].0)
  }

  lemma OrbitAt(env: Setting, i: nat, g: Elem)
    requires Symmetric(env) && Goal(env, g)
    ensures CoveringAt(env, i, Towards(Orbit(env, i, g))) && g in Orbit(env, i, g)
    ensures forall y | y in Orbit(env, i, g) :: Goal(env, y) && Has(y, FormOf(Cnf))
  {
    hide Goal, CoveringAt, Towards;
    forall y | y in Orbit(env, i, g) ensures Goal(env, y) && Has(y, FormOf(Cnf)) {
      var _ := GoalParts(env, y);
    }
  }

  lemma TowardsReached(env: Setting, orbit: set<Elem>, a: Elem, b: Elem)
    requires Towards(orbit)(a, b) && ReachedBy(orbit, b)
    ensures ReachedBy(orbit, a)
  {
  }

  lemma DropsTowards(env: Setting, orbit: set<Elem>, b: Elem, permIndex: nat, e: Elem)
    requires CoveringAt(env, permIndex, Towards(orbit)) && BodyOk(env, b) && BodyOk(env, e) && DropsOne(env, b, permIndex, e)
    ensures Towards(orbit)(b, e)
  {
    hide BodyOk, Subsumes, Towards;
  }

  lemma SubsumedTowards(env: Setting, orbit: set<Elem>, e: Elem, i: nat, p: Elem, b: Elem)
    requires CoveringAt(env, i, Towards(orbit)) && BodyOk(env, e) && BodyOk(env, b) && p in env.permuted(i, b) && Subsumes(e, p)
    ensures Towards(orbit)(e, b)
  {
    hide BodyOk, Subsumes, Towards;
  }

  /** Merging loses nothing that reaches an orbit. */
  lemma MergedReaches(env: Setting, orbit: set<Elem>, s: set<Elem>, es: set<Elem>, permIndex: nat, replace: bool, r: set<Elem>)
    requires CoveringAt(env, permIndex, Towards(orbit)) && AllSingle(env, s) && AllSingle(env, es)
    requires Some(r) == Merged(env, s, es, permIndex, replace)
    ensures AllSingle(env, r) && (Reaches(orbit, s) || Reaches(orbit, es) ==> Reaches(orbit, r))
  {
    hide CoveringAt, Towards, Single, ReachedBy;
    if Reaches(orbit, es) {
      var e :| e in es && ReachedBy(orbit, e);
      assert e in r;
    }
    if Reaches(orbit, s) {
      var e :| e in s && ReachedBy(orbit, e);
      if e !in r {
        var b :| b in es && DropsOne(env, b, permIndex, e);
        SingleLists(env, b);
        SingleLists(env, e);
        DropsTowards(env, orbit, b, permIndex, e);
        TowardsReached(env, orbit, b, e);
        assert b in r;
      }
    }
  }

  lemma MinimalReaches(env: Setting, orbit: set<Elem>, es: set<Elem>, kept: set<Elem>, permIndex: nat)
    requires CoveringAt(env, permIndex, Towards(orbit)) && Minimal(env, es, kept, permIndex) && AllSingle(env, es)
    ensures AllSingle(env, kept) && (Reaches(orbit, es) ==> Reaches(orbit, kept))
  {
    hide CoveringAt, Towards, Single, ReachedBy;
    if Reaches(orbit, es) {
      var e :| e in es && ReachedBy(orbit, e);
      assert Below(Towards(orbit), kept, e);
      var b :| b in kept && Towards(orbit)(b, e);
      TowardsReached(env, orbit, b, e);
    }
  }

  /** The canonical form of one clause is one clause. */
  lemma FormSingle(lists: Lists)
    requires |lists| <= 1 && Has(CanonicalForm(CnfElem(lists)), FormOf(Cnf))
    ensures |ToBase(Cnf, CanonicalForm(CnfElem(lists))).lists| <= 1
  {
    var e := CanonicalForm(CnfElem(lists));
    hide CanonicalForm, ClauseElem, Leq, SomeSubsumes;
    FewForms(ClauseElems(lists));
    assert ClauseElems(ToBase(Cnf, e).lists) == e.elems by { CnfParts(e); }
  }

  lemma CnfParts(e: Elem)
    requires Has(e, FormOf(Cnf))
    ensures e.AndOf? && ClauseElems(ToBase(Cnf, e).lists) == e.elems
  {
    assert CnfElem(ToBase(Cnf, e).lists) == e;
  }

  lemma FewForms(es: seq<Elem>)
    requires |es| <= 1
    ensures CanonicalForm(AndOf(es)).AndOf? && |CanonicalForm(AndOf(es)).elems| <= 1
  {
    var forms := CanonicalForms(es);
    hide Leq, Subsumes;
    if forms != [] {
      assert forms[1..] == [] && Sorted(Leq, forms[1..]) == [];
      assert Sorted(Leq, forms) == [forms[0]];
      assert [forms[0]][1..] == [];
      assert Pruned([], [forms[0]]) == [] + [forms[0]];
    }
  }

  lemma WeakenedSingle(env: Setting, o: Elem, v: nat -> bool, ignore: Base -> bool, e: Elem)
    requires OneClause(env) && Single(env, o) && BodyWeakening(env, o, v, ignore, e)
    ensures Single(env, e)
  {
    SingleLists(env, o);
    hide BodyOk, Has, Canonical, CanonicalForm, BodyWeakening, Single, ToBase, WeakenCnf;
    var lists := WeakeningOk(env, o, v, ignore, e);
    WeakenedFew(ToBase(Cnf, o).lists, TrueCube(env.allowed, v), env.limits.clauseSize, env.isEq, (l: Lists) => ignore(Base.Lists(l)), lists);
    OkHas(env, e);
    FormSingle(lists);
    FoldSingle(env, e);
  }

  lemma FoldSingle(env: Setting, e: Elem)
    requires env.kind == Cnf && BodyOk(env, e) && Has(e, FormOf(Cnf)) && |ToBase(Cnf, e).lists| <= 1
    ensures Single(env, e)
  {
  }

  lemma OkHas(env: Setting, e: Elem)
    requires BodyOk(env, e)
    ensures Has(e, FormOf(env.kind)) && Canonical(e)
  {
  }

  lemma WeakenedFew(base: Lists, cube: seq<Literal>, clauseSize: nat, isEq: nat -> bool, ignore: Lists -> bool, r: Lists)
    requires |base| <= 1 && r in WeakenCnf(base, cube, 1, clauseSize, isEq, ignore)
    ensures |r| <= 1
  {
    WeakenCnfExact(base, cube, 1, clauseSize, isEq, ignore, r);
    hide ClauseWeakening, Picked, WeakenCnf;
  }

  /** A weakening of a body that covers a clause covers it too, or it is ignored. */
  lemma LeafStep(env: Setting, o: Elem, x: Elem, v: nat -> bool, ignore: Base -> bool) returns (r: Elem, b: Base)
    requires OneClause(env) && Single(env, o) && Goal(env, x) && Covers(o, x) && Truth(x, v)
    ensures BaseFits(env.kind, b) && r == CanonicalForm(ToElem(env.kind, b)) && Covers(r, x) && BodyOk(env, r)
    ensures Has(o, FormOf(env.kind)) && (BodyWeakening(env, o, v, ignore, r) || ignore(b))
  {
    SingleLists(env, o);
    TowardsGoal(env, o, x, v);
    var d := GoalParts(env, x);
    hide *;
    OneClauseSymmetric(env);
    var base, cube, never := ToBase(Cnf, o).lists, TrueCube(env.allowed, v), (b: Base) => false;
    var lists := WeakenCnfLeast(base, cube, 1, env.limits.clauseSize, env.isEq, (l: Lists) => false, [d]);
    WeakenCnfExact(base, cube, 1, env.limits.clauseSize, env.isEq, (l: Lists) => false, lists);
    b := Base.Lists(lists);
    CnfFits(b);
    ToElemTrue(env.kind, b, v);
    r := CanonicalForm(ToElem(env.kind, b));
    CanonicalFormExact(ToElem(env.kind, b), FormOf(env.kind));
    FoldForm(env, b, r);
    NeverIgnored(env, ToBase(Cnf, o), v, b, ignore);
    FoldWeakening(env, o, v, never, b, r);
    var _ := WeakeningOk(env, o, v, never, r);
    if !ignore(b) { FoldWeakening(env, o, v, ignore, b, r); }
    RefinesCovers(lists, [d]);
    CnfForms(lists, [d]);
    EquivalentParts(ToElem(env.kind, b), r);
    CoversTransitive(r, ToElem(env.kind, b), x, FormOf(env.kind));
  }

  lemma CnfFits(b: Base)
    requires b.Lists?
    ensures BaseFits(Cnf, b)
  {
  }

  lemma FoldForm(env: Setting, b: Base, r: Elem)
    requires BaseFits(env.kind, b) && Has(r, FormOf(env.kind)) && Canonical(r) && Equivalent(ToElem(env.kind, b), r)
    ensures FormOfBase(env, b, r)
  {
  }

  lemma FoldWeakening(env: Setting, o: Elem, v: nat -> bool, ignore: Base -> bool, b: Base, r: Elem)
    requires Has(o, FormOf(env.kind)) && BaseWeakening(env, ToBase(env.kind, o), v, ignore, b) && FormOfBase(env, b, r)
    ensures BodyWeakening(env, o, v, ignore, r)
  {
    hide BaseWeakening, FormOfBase, Has;
  }

  /** What is made when nothing is ignored is made unless it is ignored. */
  lemma NeverIgnored(env: Setting, base: Base, v: nat -> bool, b: Base, ignore: Base -> bool)
    requires env.kind == Cnf && base.Lists? && b.Lists?
    requires CnfWeakening(base.lists, TrueCube(env.allowed, v), env.limits.clauses, env.limits.clauseSize, env.isEq, (l: Lists) => false, b.lists)
    ensures BaseFits(env.kind, base) && BaseWeakening(env, base, v, (b: Base) => false, b)
    ensures ignore(b) || BaseWeakening(env, base, v, ignore, b)
  {
    hide ClauseWeakening, UnitsPicked, Picked;
  }

  ghost predicate PassedReach(env: Setting, g: Elem, permIndex: nat, gs: seq<Elem>, ignore: seq<(set<Elem>, nat)>, s: set<Elem>) {
    Reaches(Orbit(env, permIndex, g), s) || SomePassed(env, gs, ignore)
  }

  /** Where a weakening towards a clause is ignored, something that was passed reaches its orbit. */
  lemma IgnoredReaches(env: Setting, x: Elem, permIndex: nat, g: Elem, gs: seq<Elem>, ignore: seq<(set<Elem>, nat)>, s: set<Elem>, b: Base, r: Elem)
    requires OneClause(env) && Goal(env, g) && x in Orbit(env, permIndex, g) && Nested(env, permIndex, g, gs, ignore)
    requires BodyOk(env, r) && AllSingle(env, s) && forall y | y in ignore :: AllSingle(env, y.0)
    requires BaseFits(env.kind, b) && r == CanonicalForm(ToElem(env.kind, b)) && Covers(r, x)
    requires env.ignored(ignore + [(s, permIndex)], b)
    ensures PassedReach(env, g, permIndex, gs, ignore, s)
  {
    var all := ignore + [(s, permIndex)];
    hide BodyOk, CanonicalForm, Covers, Goal, Plain, Symmetric, Subsumes, ToElem, Single;
    var k: nat :| k < |all| && SubsumesSome(env, all[k], r);
    var e, p :| e in all[k].0 && p in env.permuted(all[k].1, r) && Subsumes(e, p);
    if k == |ignore| {
      OrbitAt(env, permIndex, g);
      PassedOne(env, Orbit(env, permIndex, g), permIndex, e, p, r, x);
    } else {
      assert all[k] == ignore[k] && ignore[k] in ignore && Wider(env, permIndex, g, ignore[k].1, gs[k]);
      OrbitAt(env, ignore[k].1, gs[k]);
      PassedOne(env, Orbit(env, ignore[k].1, gs[k]), ignore[k].1, e, p, r, x);
      assert Reaches(Orbit(env, ignore[k].1, gs[k]), ignore[k].0);
    }
  }

  lemma PassedOne(env: Setting, orbit: set<Elem>, i: nat, e: Elem, p: Elem, r: Elem, x: Elem)
    requires CoveringAt(env, i, Towards(orbit)) && Single(env, e) && BodyOk(env, r) && p in env.permuted(i, r) && Subsumes(e, p)
    requires x in orbit && Covers(r, x)
    ensures ReachedBy(orbit, e)
  {
    hide BodyOk, Subsumes, CoveringAt, Covers, Towards;
    SingleOk(env, e);
    SubsumedTowards(env, orbit, e, i, p, r);
    TowardsReached(env, orbit, e, r);
  }

  lemma SingleOk(env: Setting, e: Elem)
    requires Single(env, e)
    ensures BodyOk(env, e)
  {
  }

  /** Some body to weaken covers a permuted clause that is true. */
  ghost predicate SomeTrue(env: Setting, m: LS.Model, orbit: set<Elem>, w: set<Elem>, i: nat, asg: Assignment)
    requires ModelFits(env, m)
  {
    exists o, x :: CoversTrue(env, m, orbit, w, i, asg, o, x)
  }

  ghost predicate CoversTrue(env: Setting, m: LS.Model, orbit: set<Elem>, w: set<Elem>, i: nat, asg: Assignment, o: Elem, x: Elem)
    requires ModelFits(env, m)
  {
    o in w && x in orbit && Covers(o, x) && TrueFrom(env, m, x, i, asg)
  }

  lemma LeafReaches(env: Setting, m: LS.Model, g: Elem, gs: seq<Elem>, s: set<Elem>, w: set<Elem>, asg: Assignment, permIndex: nat,
                    prevExists: bool, ignore: seq<(set<Elem>, nat)>, r: set<Elem>)
    requires OneClause(env) && ModelFits(env, m) && Goal(env, g) && Nested(env, permIndex, g, gs, ignore)
    requires AllSingle(env, s) && AllSingle(env, w) && forall y | y in ignore :: AllSingle(env, y.0)
    requires LeafOutcome(env, s, w, LS.Valuation(m, asg), permIndex, prevExists, ignore, Some(r))
    ensures AllSingle(env, r)
    ensures Reaches(Orbit(env, permIndex, g), s) || SomeTrue(env, m, Orbit(env, permIndex, g), w, |env.prefix.names|, asg) ==>
      PassedReach(env, g, permIndex, gs, ignore, r)
  {
    hide OneClause, ModelFits, Goal, Single, BodyWeakening, Minimal, Merged, Covers, TrueFrom, Truth, BodyOk, Has;
    var v, passed, orbit := LS.Valuation(m, asg), ignore + [(s, permIndex)], Orbit(env, permIndex, g);
    var es, kept: set<Elem> :| AllWeakenings(env, w, v, passed, es) && Minimal(env, es, kept, permIndex)
      && Some(r) == Merged(env, s, kept, permIndex, prevExists && s != {});
    forall e | e in es ensures Single(env, e) {
      assert SomeWeakening(env, w, v, passed, e);
      var o :| o in w && LeafWeakening(env, o, v, passed, e);
      WeakenedSingle(env, o, v, (b: Base) => env.ignored(passed, b), e);
    }
    OneClauseSymmetric(env);
    OrbitAt(env, permIndex, g);
    MinimalReaches(env, orbit, es, kept, permIndex);
    MergedReaches(env, orbit, s, kept, permIndex, prevExists && s != {}, r);
    if SomeTrue(env, m, orbit, w, |env.prefix.names|, asg) {
      var o, x :| CoversTrue(env, m, orbit, w, |env.prefix.names|, asg, o, x);
      LeafTrue(env, m, x, asg);
      var e, b := LeafStep(env, o, x, v, (b: Base) => env.ignored(passed, b));
      if env.ignored(passed, b) {
        IgnoredReaches(env, x, permIndex, g, gs, ignore, s, b, e);
      } else {
        assert LeafWeakening(env, o, v, passed, e);
        assert SomeWeakening(env, w, v, passed, e);
        ReachesOne(orbit, es, e, x);
      }
    }
  }

  lemma OneClauseSymmetric(env: Setting)
    requires OneClause(env)
    ensures env.kind == Cnf && env.limits.clauses == 1 && Plain(env) && Symmetric(env) && IgnoresSubsumed(env)
  {
  }

  lemma ReachesOne(orbit: set<Elem>, es: set<Elem>, e: Elem, x: Elem)
    requires e in es && x in orbit && Covers(e, x)
    ensures Reaches(orbit, es)
  {
    hide Covers;
    assert ReachedBy(orbit, e);
  }

  // Through the blocks.

  /** Something stored reaches the orbit already, or a body to weaken covers a true clause of it; all of them are true
      after universal blocks. */
  ghost predicate Ready(env: Setting, m: LS.Model, orbit: set<Elem>, s: set<Elem>, w: set<Elem>, i: nat, asg: Assignment, prevExists: bool)
    requires ModelFits(env, m)
  {
    || Reaches(orbit, s)
    || (SomeTrue(env, m, orbit, w, i, asg) && (!prevExists ==> AllTrue(env, m, orbit, i, asg)))
  }

  ghost predicate AllTrue(env: Setting, m: LS.Model, orbit: set<Elem>, i: nat, asg: Assignment)
    requires ModelFits(env, m)
  {
    forall x | x in orbit :: TrueFrom(env, m, x, i, asg)
  }

  ghost predicate AllPassedSingle(env: Setting, ignore: seq<(set<Elem>, nat)>) {
    forall y | y in ignore :: AllSingle(env, y.0)
  }

  /** The model fits, and its truth is symmetric. */
  ghost predicate Fair(env: Setting, m: LS.Model) {
    ModelFits(env, m) && SymmetricTruth(env, m) && |env.prefix.quantifiers| == |env.prefix.names| == |m.sizes|
  }

  ghost predicate Covered(env: Setting, index: nat, asg: Assignment) {
    index <= |env.prefix.names| && Q.VarsBefore(env.prefix, index) <= asg.Keys
  }

  lemma {:induction false} OutcomeReaches(env: Setting, m: LS.Model, g: Elem, gs: seq<Elem>, s: set<Elem>, w: set<Elem>, asg: Assignment,
                                          index: nat, permIndex: nat, prevExists: bool, ignore: seq<(set<Elem>, nat)>, r: set<Elem>)
    requires OneClause(env) && Fair(env, m) && Goal(env, g) && Nested(env, permIndex, g, gs, ignore)
    requires AllSingle(env, s) && AllSingle(env, w) && AllPassedSingle(env, ignore)
    requires Covered(env, index, asg) && permIndex <= index
    requires Outcome(env, m, s, w, asg, index, permIndex, prevExists, ignore, Some(r))
    ensures AllSingle(env, r)
    ensures Ready(env, m, Orbit(env, permIndex, g), s, w, index, asg, prevExists) ==> PassedReach(env, g, permIndex, gs, ignore, r)
    decreases |env.prefix.names| - index, 2, 0
  {
    assert index <= |env.prefix.names|;
    hide *;
    FairFits(env, m);
    var orbit := Orbit(env, permIndex, g);
    if w == {} {
      OutcomeNothing(env, m, s, asg, index, permIndex, prevExists, ignore, r);
      NoneTrue(env, m, orbit, index, asg);
      NotReady(env, m, g, s, asg, index, permIndex, prevExists, gs, ignore);
    } else if index == |env.prefix.names| {
      OutcomeLeaf(env, m, s, w, asg, permIndex, prevExists, ignore, r);
      UnfoldPassed(env, ignore);
      LeafReaches(env, m, g, gs, s, w, asg, permIndex, prevExists, ignore, r);
      ReadySome(env, m, orbit, s, w, index, asg, prevExists);
    } else if env.prefix.names[index] == [] {
      OutcomeEmpty(env, m, s, w, asg, index, permIndex, prevExists, ignore, r);
      CoveredEmpty(env, index, asg);
      OutcomeReaches(env, m, g, gs, s, w, asg, index + 1, permIndex, prevExists, ignore, r);
      EmptyReady(env, m, orbit, s, w, index, asg, prevExists);
    } else if env.prefix.quantifiers[index] == Forall {
      var t := OutcomeForall(env, m, s, w, asg, index, permIndex, prevExists, ignore, r);
      ForallBlock(env, m, g, gs, s, w, asg, index, permIndex, prevExists, ignore, t, r);
    } else {
      OutcomeExists(env, m, s, w, asg, index, permIndex, prevExists, ignore, r);
      BlockFits(env, m, index);
      ExistsReaches(env, m, g, gs, s, w, asg, index, 0, permIndex, ignore, r);
      if SomeTrue(env, m, orbit, w, index, asg) { SomeTupleTrue(env, m, orbit, w, index, asg); }
      ReadySome(env, m, orbit, s, w, index, asg, prevExists);
    }
  }

  lemma ReadySome(env: Setting, m: LS.Model, orbit: set<Elem>, s: set<Elem>, w: set<Elem>, i: nat, asg: Assignment, prevExists: bool)
    requires ModelFits(env, m)
    ensures Ready(env, m, orbit, s, w, i, asg, prevExists) ==> Reaches(orbit, s) || SomeTrue(env, m, orbit, w, i, asg)
  {
    hide ModelFits, Reaches, SomeTrue, AllTrue;
  }

  lemma NotReady(env: Setting, m: LS.Model, g: Elem, s: set<Elem>, asg: Assignment, i: nat, permIndex: nat, prevExists: bool, gs: seq<Elem>,
                 ignore: seq<(set<Elem>, nat)>)
    requires ModelFits(env, m) && !SomeTrue(env, m, Orbit(env, permIndex, g), {}, i, asg)
    ensures Ready(env, m, Orbit(env, permIndex, g), s, {}, i, asg, prevExists) ==> PassedReach(env, g, permIndex, gs, ignore, s)
  {
    hide ModelFits, Reaches, SomeTrue, AllTrue, SomePassed;
  }

  // The cases of an outcome.

  lemma OutcomeNothing(env: Setting, m: LS.Model, s: set<Elem>, asg: Assignment, index: nat, permIndex: nat, prevExists: bool,
                       ignore: seq<(set<Elem>, nat)>, r: set<Elem>)
    requires ModelFits(env, m) && |env.prefix.quantifiers| == |env.prefix.names| && index <= |env.prefix.names|
    requires Outcome(env, m, s, {}, asg, index, permIndex, prevExists, ignore, Some(r))
    ensures r == s
  {
    hide ModelFits;
  }

  lemma OutcomeLeaf(env: Setting, m: LS.Model, s: set<Elem>, w: set<Elem>, asg: Assignment, permIndex: nat, prevExists: bool,
                    ignore: seq<(set<Elem>, nat)>, r: set<Elem>)
    requires ModelFits(env, m) && |env.prefix.quantifiers| == |env.prefix.names| && w != {}
    requires Outcome(env, m, s, w, asg, |env.prefix.names|, permIndex, prevExists, ignore, Some(r))
    ensures LeafOutcome(env, s, w, LS.Valuation(m, asg), permIndex, prevExists, ignore, Some(r))
  {
    hide ModelFits, LeafOutcome;
  }

  lemma OutcomeEmpty(env: Setting, m: LS.Model, s: set<Elem>, w: set<Elem>, asg: Assignment, index: nat, permIndex: nat, prevExists: bool,
                     ignore: seq<(set<Elem>, nat)>, r: set<Elem>)
    requires ModelFits(env, m) && |env.prefix.quantifiers| == |env.prefix.names| && index < |env.prefix.names| && w != {}
    requires env.prefix.names[index] == [] && Outcome(env, m, s, w, asg, index, permIndex, prevExists, ignore, Some(r))
    ensures Outcome(env, m, s, w, asg, index + 1, permIndex, prevExists, ignore, Some(r))
  {
    hide ModelFits;
  }

  lemma OutcomeForall(env: Setting, m: LS.Model, s: set<Elem>, w: set<Elem>, asg: Assignment, index: nat, permIndex: nat, prevExists: bool,
                      ignore: seq<(set<Elem>, nat)>, r: set<Elem>) returns (t: set<Elem>)
    requires ModelFits(env, m) && |env.prefix.quantifiers| == |env.prefix.names| && index < |env.prefix.names| && w != {}
    requires env.prefix.names[index] != [] && env.prefix.quantifiers[index] == Forall
    requires Outcome(env, m, s, w, asg, index, permIndex, prevExists, ignore, Some(r))
    ensures ForallOutcome(env, m, w, asg, index, 0, if prevExists then index else permIndex, ignore + [(s, permIndex)], Some(t))
    ensures MergeOutcome(env, s, Some(t), permIndex, prevExists, Some(r))
  {
    hide ModelFits, ForallOutcome, MergeOutcome;
    var some :| ForallOutcome(env, m, w, asg, index, 0, if prevExists then index else permIndex, ignore + [(s, permIndex)], some)
                && MergeOutcome(env, s, some, permIndex, prevExists, Some(r));
    MergedSome(env, s, some, permIndex, prevExists, r);
    t := some.value;
  }

  lemma OutcomeExists(env: Setting, m: LS.Model, s: set<Elem>, w: set<Elem>, asg: Assignment, index: nat, permIndex: nat, prevExists: bool,
                      ignore: seq<(set<Elem>, nat)>, r: set<Elem>)
    requires ModelFits(env, m) && |env.prefix.quantifiers| == |env.prefix.names| && index < |env.prefix.names| && w != {}
    requires env.prefix.names[index] != [] && env.prefix.quantifiers[index] == Exists
    requires Outcome(env, m, s, w, asg, index, permIndex, prevExists, ignore, Some(r))
    ensures ExistsOutcome(env, m, s, w, asg, index, 0, permIndex, ignore, Some(r))
  {
    hide ModelFits, ExistsOutcome;
  }

  lemma NoneTrue(env: Setting, m: LS.Model, orbit: set<Elem>, i: nat, asg: Assignment)
    requires ModelFits(env, m)
    ensures !SomeTrue(env, m, orbit, {}, i, asg)
  {
    hide ModelFits, TrueFrom, Covers;
  }

  lemma UnfoldPassed(env: Setting, ignore: seq<(set<Elem>, nat)>)
    requires AllPassedSingle(env, ignore)
    ensures forall y | y in ignore :: AllSingle(env, y.0)
  {
    hide AllSingle;
  }

  lemma FoldPassed(env: Setting, ignore: seq<(set<Elem>, nat)>, s: set<Elem>, permIndex: nat)
    requires AllPassedSingle(env, ignore) && AllSingle(env, s)
    ensures AllPassedSingle(env, ignore + [(s, permIndex)])
  {
    hide AllSingle;
  }

  lemma CoveredEmpty(env: Setting, i: nat, asg: Assignment)
    requires Covered(env, i, asg) && i < |env.prefix.names| && env.prefix.names[i] == []
    ensures Covered(env, i + 1, asg)
  {
  }

  lemma CoveredNext(env: Setting, m: LS.Model, i: nat, asg: Assignment, k: nat)
    requires Covered(env, i, asg) && i < |env.prefix.names| && i < |m.sizes| && k < |Tuples(env, m, i)|
    requires |Tuples(env, m, i)[k]| == |env.prefix.names[i]|
    ensures Covered(env, i + 1, Extended(env, m, i, asg, k))
  {
    hide Tuples;
  }

  lemma EmptyReady(env: Setting, m: LS.Model, orbit: set<Elem>, s: set<Elem>, w: set<Elem>, i: nat, asg: Assignment, prevExists: bool)
    requires ModelFits(env, m) && i < |env.prefix.names| && env.prefix.names[i] == []
    ensures Ready(env, m, orbit, s, w, i, asg, prevExists) ==> Ready(env, m, orbit, s, w, i + 1, asg, prevExists)
  {
    hide ModelFits, TrueFrom, Covers, Reaches;
    forall x ensures TrueFrom(env, m, x, i, asg) <==> TrueFrom(env, m, x, i + 1, asg) { EmptyBlock(env, m, x, i, asg); }
    if SomeTrue(env, m, orbit, w, i, asg) {
      var o, x :| CoversTrue(env, m, orbit, w, i, asg, o, x);
      assert CoversTrue(env, m, orbit, w, i + 1, asg, o, x);
    }
  }

  /** An existential block: some tuple makes the covered clause true. */
  ghost predicate SomeTrueFrom(env: Setting, m: LS.Model, orbit: set<Elem>, w: set<Elem>, i: nat, asg: Assignment, k: nat)
    requires ModelFits(env, m) && InBlock(env, m, i, 0)
  {
    BlockOpen(env, m, i);
    exists j :: k <= j < |Tuples(env, m, i)| && SomeTrue(env, m, orbit, w, i + 1, Extended(env, m, i, asg, j))
  }

  lemma SomeTupleTrue(env: Setting, m: LS.Model, orbit: set<Elem>, w: set<Elem>, i: nat, asg: Assignment)
    requires ModelFits(env, m) && InBlock(env, m, i, 0) && |env.prefix.quantifiers| == |env.prefix.names| && env.prefix.quantifiers[i] == Exists
    requires SomeTrue(env, m, orbit, w, i, asg)
    ensures SomeTrueFrom(env, m, orbit, w, i, asg, 0)
  {
    hide ModelFits, TrueFrom, Covers, Tuples, Extended, InBlock;
    BlockOpen(env, m, i);
    var o, x :| CoversTrue(env, m, orbit, w, i, asg, o, x);
    BlockByIndex(env, m, x, i, asg);
    var j :| 0 <= j < |Tuples(env, m, i)| && TrueFrom(env, m, x, i + 1, Extended(env, m, i, asg, j));
    assert CoversTrue(env, m, orbit, w, i + 1, Extended(env, m, i, asg, j), o, x);
  }

  lemma {:induction false} ExistsReaches(env: Setting, m: LS.Model, g: Elem, gs: seq<Elem>, s: set<Elem>, w: set<Elem>, asg: Assignment,
                                         index: nat, k: nat, permIndex: nat, ignore: seq<(set<Elem>, nat)>, r: set<Elem>)
    requires OneClause(env) && Fair(env, m) && Goal(env, g) && Nested(env, permIndex, g, gs, ignore)
    requires AllSingle(env, s) && AllSingle(env, w) && AllPassedSingle(env, ignore)
    requires Covered(env, index, asg) && permIndex <= index < |env.prefix.names| && InBlock(env, m, index, 0) && index < |m.sizes|
    requires k <= |Tuples(env, m, index)| && ExistsOutcome(env, m, s, w, asg, index, k, permIndex, ignore, Some(r))
    ensures AllSingle(env, r)
    ensures var orbit := Orbit(env, permIndex, g);
            Reaches(orbit, s) || SomeTrueFrom(env, m, orbit, w, index, asg, k) ==> PassedReach(env, g, permIndex, gs, ignore, r)
    decreases |env.prefix.names| - index, 1, |Tuples(env, m, index)| - k
  {
    hide *;
    var orbit := Orbit(env, permIndex, g);
    FairFits(env, m);
    BlockOpen(env, m, index);
    if k == |Tuples(env, m, index)| {
      ExistsAll(env, m, s, w, asg, index, k, permIndex, ignore, r);
      NoTuple(env, m, orbit, w, index, asg, k);
      FoldReach(env, g, permIndex, gs, ignore, s);
    } else {
      var asg' := Extended(env, m, index, asg, k);
      var more := ExistsFirst(env, m, s, w, asg, index, k, permIndex, ignore, r);
      CoveredNext(env, m, index, asg, k);
      OutcomeReaches(env, m, g, gs, s, w, asg', index + 1, permIndex, true, ignore, more);
      ExistsReaches(env, m, g, gs, more, w, asg, index, k + 1, permIndex, ignore, r);
      TupleReady(env, m, orbit, s, w, index, asg, k);
      PassedAfter(env, g, permIndex, gs, ignore, more, r);
    }
  }

  lemma FairFits(env: Setting, m: LS.Model)
    requires Fair(env, m)
    ensures ModelFits(env, m) && |env.prefix.quantifiers| == |env.prefix.names| == |m.sizes|
  {
    hide ModelFits, SymmetricTruth;
  }

  lemma NoTuple(env: Setting, m: LS.Model, orbit: set<Elem>, w: set<Elem>, i: nat, asg: Assignment, k: nat)
    requires ModelFits(env, m) && InBlock(env, m, i, 0) && i < |m.sizes| && k == |Tuples(env, m, i)|
    ensures !SomeTrueFrom(env, m, orbit, w, i, asg, k)
  {
    hide ModelFits, SomeTrue, Tuples, InBlock, Extended;
  }

  /** Either the first of the remaining tuples will do or a later one. */
  lemma TupleReady(env: Setting, m: LS.Model, orbit: set<Elem>, s: set<Elem>, w: set<Elem>, i: nat, asg: Assignment, k: nat)
    requires ModelFits(env, m) && InBlock(env, m, i, 0) && i < |env.prefix.names| && i < |m.sizes| && k < |Tuples(env, m, i)|
    requires |Tuples(env, m, i)[k]| == |env.prefix.names[i]|
    ensures Reaches(orbit, s) || SomeTrueFrom(env, m, orbit, w, i, asg, k) ==>
      Ready(env, m, orbit, s, w, i + 1, Extended(env, m, i, asg, k), true) || SomeTrueFrom(env, m, orbit, w, i, asg, k + 1)
  {
    hide ModelFits, SomeTrue, Tuples, InBlock, Extended, Reaches, AllTrue;
    if SomeTrueFrom(env, m, orbit, w, i, asg, k) {
      BlockOpen(env, m, i);
      var j :| k <= j < |Tuples(env, m, i)| && SomeTrue(env, m, orbit, w, i + 1, Extended(env, m, i, asg, j));
    }
  }

  lemma FoldReach(env: Setting, g: Elem, permIndex: nat, gs: seq<Elem>, ignore: seq<(set<Elem>, nat)>, s: set<Elem>)
    ensures Reaches(Orbit(env, permIndex, g), s) ==> PassedReach(env, g, permIndex, gs, ignore, s)
  {
    hide Reaches, SomePassed;
  }

  lemma PassedAfter(env: Setting, g: Elem, permIndex: nat, gs: seq<Elem>, ignore: seq<(set<Elem>, nat)>, t: set<Elem>, r: set<Elem>)
    ensures PassedReach(env, g, permIndex, gs, ignore, t) && (Reaches(Orbit(env, permIndex, g), t) ==> PassedReach(env, g, permIndex, gs, ignore, r))
      ==> PassedReach(env, g, permIndex, gs, ignore, r)
  {
    hide Reaches, SomePassed;
  }

  lemma ExistsAll(env: Setting, m: LS.Model, s: set<Elem>, w: set<Elem>, asg: Assignment, index: nat, k: nat, permIndex: nat,
                  ignore: seq<(set<Elem>, nat)>, r: set<Elem>)
    requires ModelFits(env, m) && |env.prefix.quantifiers| == |env.prefix.names| && index < |env.prefix.names| && index < |m.sizes|
    requires k >= |Tuples(env, m, index)| && ExistsOutcome(env, m, s, w, asg, index, k, permIndex, ignore, Some(r))
    ensures r == s
  {
    hide ModelFits, Outcome, Tuples;
  }

  lemma ExistsFirst(env: Setting, m: LS.Model, s: set<Elem>, w: set<Elem>, asg: Assignment, index: nat, k: nat, permIndex: nat,
                    ignore: seq<(set<Elem>, nat)>, r: set<Elem>) returns (more: set<Elem>)
    requires ModelFits(env, m) && |env.prefix.quantifiers| == |env.prefix.names| && index < |env.prefix.names| && index < |m.sizes|
    requires k < |Tuples(env, m, index)| && |Tuples(env, m, index)[k]| == |env.prefix.names[index]|
    requires ExistsOutcome(env, m, s, w, asg, index, k, permIndex, ignore, Some(r))
    ensures Outcome(env, m, s, w, Extended(env, m, index, asg, k), index + 1, permIndex, true, ignore, Some(more))
    ensures ExistsOutcome(env, m, more, w, asg, index, k + 1, permIndex, ignore, Some(r))
  {
    hide ModelFits, Outcome, Tuples, Extended;
    var some :| Outcome(env, m, s, w, Extended(env, m, index, asg, k), index + 1, permIndex, true, ignore, some)
      && if some.None? then Some(r) == None else ExistsOutcome(env, m, some.value, w, asg, index, k + 1, permIndex, ignore, Some(r));
    more := some.value;
  }

  // A universal block.

  /** The clause to follow under the tuples of a universal block: after an existential one, the permuted clause that is true
      under the tuple at hand. */
  lemma Followed(env: Setting, m: LS.Model, g: Elem, s: set<Elem>, w: set<Elem>, asg: Assignment, index: nat, permIndex: nat, prevExists: bool)
    returns (h: Elem)
    requires OneClause(env) && Fair(env, m) && Goal(env, g) && Covered(env, index, asg) && permIndex <= index
    ensures var newIndex := if prevExists then index else permIndex;
            && Goal(env, h) && Orbit(env, newIndex, h) <= Orbit(env, permIndex, g)
            && (Ready(env, m, Orbit(env, permIndex, g), s, w, index, asg, prevExists) ==>
                  Reaches(Orbit(env, permIndex, g), s)
                  || (Reaches(Orbit(env, newIndex, h), w) && AllTrue(env, m, Orbit(env, newIndex, h), index, asg)))
  {
    hide CoveringAt, Towards, Goal, Covers, TrueFrom, ModelFits, Plain, IgnoresSubsumed;
    var orbit := Orbit(env, permIndex, g);
    OneClauseSymmetric(env);
    OrbitAt(env, permIndex, g);
    h := g;
    if SomeTrue(env, m, orbit, w, index, asg) {
      var o, x :| CoversTrue(env, m, orbit, w, index, asg, o, x);
      if prevExists {
        h := x;
        OrbitAt(env, index, x);
        assert AllTrue(env, m, Orbit(env, index, x), index, asg);
        ReachesOne(Orbit(env, index, x), w, o, x);
      } else {
        ReachesOne(orbit, w, o, x);
      }
    }
  }

  lemma {:induction false} ForallBlock(env: Setting, m: LS.Model, g: Elem, gs: seq<Elem>, s: set<Elem>, w: set<Elem>, asg: Assignment,
                                       index: nat, permIndex: nat, prevExists: bool, ignore: seq<(set<Elem>, nat)>, t: set<Elem>, r: set<Elem>)
    requires OneClause(env) && Fair(env, m) && Goal(env, g) && Nested(env, permIndex, g, gs, ignore)
    requires AllSingle(env, s) && AllSingle(env, w) && AllPassedSingle(env, ignore)
    requires Covered(env, index, asg) && permIndex <= index < |env.prefix.names| && env.prefix.quantifiers[index] == Forall
    requires ForallOutcome(env, m, w, asg, index, 0, if prevExists then index else permIndex, ignore + [(s, permIndex)], Some(t))
    requires MergeOutcome(env, s, Some(t), permIndex, prevExists, Some(r))
    ensures AllSingle(env, r)
    ensures Ready(env, m, Orbit(env, permIndex, g), s, w, index, asg, prevExists) ==> PassedReach(env, g, permIndex, gs, ignore, r)
    decreases |env.prefix.names| - index, 1, |Tuples(env, m, index)| + 1
  {
    FairFits(env, m);
    BlockFits(env, m, index);
    hide *;
    var newIndex, passed := if prevExists then index else permIndex, ignore + [(s, permIndex)];
    var h := Followed(env, m, g, s, w, asg, index, permIndex, prevExists);
    NestedMore(env, permIndex, g, gs, ignore, s, newIndex, h);
    FoldPassed(env, ignore, s, permIndex);
    ForallReaches(env, m, h, gs + [g], w, asg, index, 0, newIndex, passed, t);
    MergeBlock(env, g, gs, s, t, permIndex, prevExists, ignore, newIndex, h, r);
  }

  lemma NestedMore(env: Setting, i: nat, g: Elem, gs: seq<Elem>, ignore: seq<(set<Elem>, nat)>, s: set<Elem>, j: nat, h: Elem)
    requires Nested(env, i, g, gs, ignore) && Goal(env, g) && Orbit(env, j, h) <= Orbit(env, i, g)
    ensures Nested(env, j, h, gs + [g], ignore + [(s, i)])
  {
    hide Goal, Orbit;
    var all, more := ignore + [(s, i)], gs + [g];
    forall k | 0 <= k < |more| ensures Wider(env, j, h, all[k].1, more[k]) {
      if k < |gs| { assert all[k] == ignore[k] && Wider(env, i, g, ignore[k].1, gs[k]); }
    }
  }

  /** After a universal block: what the followed clause reached reaches the old one, and so does what was passed. */
  lemma MergeBlock(env: Setting, g: Elem, gs: seq<Elem>, s: set<Elem>, t: set<Elem>, permIndex: nat, prevExists: bool,
                   ignore: seq<(set<Elem>, nat)>, newIndex: nat, h: Elem, r: set<Elem>)
    requires OneClause(env) && Goal(env, g) && |gs| == |ignore| && Orbit(env, newIndex, h) <= Orbit(env, permIndex, g)
    requires AllSingle(env, s) && AllSingle(env, t) && MergeOutcome(env, s, Some(t), permIndex, prevExists, Some(r))
    ensures AllSingle(env, r)
    ensures Reaches(Orbit(env, permIndex, g), s) ==> PassedReach(env, g, permIndex, gs, ignore, r)
    ensures PassedReach(env, h, newIndex, gs + [g], ignore + [(s, permIndex)], t) ==> PassedReach(env, g, permIndex, gs, ignore, r)
  {
    hide OneClause, Goal, AllSingle, Minimal, Merged, CoveringAt, Towards, Orbit;
    var orbit := Orbit(env, permIndex, g);
    OneClauseSymmetric(env);
    OrbitAt(env, permIndex, g);
    if Reaches(Orbit(env, newIndex, h), t) { MoreReached(Orbit(env, newIndex, h), orbit, t); }
    hide Reaches;
    if prevExists {
      var kept: set<Elem> :| Minimal(env, t, kept, permIndex) && Some(r) == Merged(env, s, kept, permIndex, true);
      MinimalReaches(env, orbit, t, kept, permIndex);
      MergedReaches(env, orbit, s, kept, permIndex, true, r);
    } else {
      MergedReaches(env, orbit, s, t, permIndex, false, r);
    }
    var all, more := ignore + [(s, permIndex)], gs + [g];
    if SomePassed(env, more, all) {
      var k: nat :| k < |more| && k < |all| && Reaches(Orbit(env, all[k].1, more[k]), all[k].0);
      if k < |gs| { assert all[k] == ignore[k] && more[k] == gs[k]; }
    }
  }

  lemma MoreReached(small: set<Elem>, large: set<Elem>, es: set<Elem>)
    requires small <= large && Reaches(small, es)
    ensures Reaches(large, es)
  {
    hide Covers;
    var e :| e in es && ReachedBy(small, e);
    assert ReachedBy(large, e);
  }

  lemma {:induction false} ForallReaches(env: Setting, m: LS.Model, g: Elem, gs: seq<Elem>, t: set<Elem>, asg: Assignment, index: nat, k: nat,
                                         permIndex: nat, ignore: seq<(set<Elem>, nat)>, r: set<Elem>)
    requires OneClause(env) && Fair(env, m) && Goal(env, g) && Nested(env, permIndex, g, gs, ignore)
    requires AllSingle(env, t) && AllPassedSingle(env, ignore)
    requires Covered(env, index, asg) && permIndex <= index < |env.prefix.names| && env.prefix.quantifiers[index] == Forall
    requires InBlock(env, m, index, 0) && k <= |Tuples(env, m, index)|
    requires ForallOutcome(env, m, t, asg, index, k, permIndex, ignore, Some(r))
    ensures AllSingle(env, r)
    ensures Reaches(Orbit(env, permIndex, g), t) && AllTrue(env, m, Orbit(env, permIndex, g), index, asg) ==>
      PassedReach(env, g, permIndex, gs, ignore, r)
    decreases |env.prefix.names| - index, 1, |Tuples(env, m, index)| - k
  {
    hide *;
    FairFits(env, m);
    BlockOpen(env, m, index);
    if k == |Tuples(env, m, index)| {
      ForallAll(env, m, t, asg, index, k, permIndex, ignore, r);
      FoldReach(env, g, permIndex, gs, ignore, t);
    } else {
      var orbit, asg' := Orbit(env, permIndex, g), Extended(env, m, index, asg, k);
      var wrong := FalseOf(env, m, t, index + 1, asg');
      var more := ForallFirst(env, m, t, asg, index, k, permIndex, ignore, r);
      SplitSingle(env, m, t, index + 1, asg');
      CoveredNext(env, m, index, asg, k);
      OutcomeReaches(env, m, g, gs, t - wrong, wrong, asg', index + 1, permIndex, false, ignore, more);
      ForallReaches(env, m, g, gs, more, asg, index, k + 1, permIndex, ignore, r);
      if Reaches(orbit, t) && AllTrue(env, m, orbit, index, asg) {
        AllTrueNext(env, m, orbit, index, asg, k);
        SplitReady(env, m, orbit, t, index + 1, asg');
      }
      PassedAfter(env, g, permIndex, gs, ignore, more, r);
    }
  }

  lemma SplitSingle(env: Setting, m: LS.Model, t: set<Elem>, i: nat, asg: Assignment)
    requires ModelFits(env, m) && AllSingle(env, t)
    ensures AllSingle(env, t - FalseOf(env, m, t, i, asg)) && AllSingle(env, FalseOf(env, m, t, i, asg))
  {
    hide ModelFits, Single, TrueFrom;
  }

  /** A body that reaches the orbit is kept, or is among those to weaken and covers a true clause. */
  lemma SplitReady(env: Setting, m: LS.Model, orbit: set<Elem>, t: set<Elem>, i: nat, asg: Assignment)
    requires ModelFits(env, m) && Reaches(orbit, t) && AllTrue(env, m, orbit, i, asg)
    ensures var wrong := FalseOf(env, m, t, i, asg); Ready(env, m, orbit, t - wrong, wrong, i, asg, false)
  {
    SplitOrbit(env, m, orbit, t, FalseOf(env, m, t, i, asg), i, asg);
  }

  lemma SplitOrbit(env: Setting, m: LS.Model, orbit: set<Elem>, t: set<Elem>, wrong: set<Elem>, i: nat, asg: Assignment)
    requires ModelFits(env, m) && Reaches(orbit, t) && AllTrue(env, m, orbit, i, asg)
    ensures Ready(env, m, orbit, t - wrong, wrong, i, asg, false)
  {
    hide ModelFits, TrueFrom, Covers;
    var e :| e in t && ReachedBy(orbit, e);
    var x :| x in orbit && Covers(e, x);
    if e in wrong { assert CoversTrue(env, m, orbit, wrong, i, asg, e, x); }
  }

  lemma AllTrueNext(env: Setting, m: LS.Model, orbit: set<Elem>, i: nat, asg: Assignment, k: nat)
    requires ModelFits(env, m) && InBlock(env, m, i, 0) && |env.prefix.quantifiers| == |env.prefix.names| && i < |m.sizes|
    requires env.prefix.quantifiers[i] == Forall && k < |Tuples(env, m, i)| && |Tuples(env, m, i)[k]| == |env.prefix.names[i]|
    requires AllTrue(env, m, orbit, i, asg)
    ensures AllTrue(env, m, orbit, i + 1, Extended(env, m, i, asg, k))
  {
    assert InBlock(env, m, i, |Tuples(env, m, i)|);
    hide ModelFits, TrueFrom, Tuples, Extended, InBlock;
    forall x | x in orbit ensures TrueFrom(env, m, x, i + 1, Extended(env, m, i, asg, k)) { AllTuples(env, m, x, i, asg); }
  }

  lemma ForallAll(env: Setting, m: LS.Model, t: set<Elem>, asg: Assignment, index: nat, k: nat, permIndex: nat,
                  ignore: seq<(set<Elem>, nat)>, r: set<Elem>)
    requires ModelFits(env, m) && |env.prefix.quantifiers| == |env.prefix.names| && index < |env.prefix.names| && index < |m.sizes|
    requires k >= |Tuples(env, m, index)| && ForallOutcome(env, m, t, asg, index, k, permIndex, ignore, Some(r))
    ensures r == t
  {
    hide ModelFits, Outcome, Tuples;
  }

  lemma ForallFirst(env: Setting, m: LS.Model, t: set<Elem>, asg: Assignment, index: nat, k: nat, permIndex: nat,
                    ignore: seq<(set<Elem>, nat)>, r: set<Elem>) returns (more: set<Elem>)
    requires ModelFits(env, m) && |env.prefix.quantifiers| == |env.prefix.names| && index < |env.prefix.names| && index < |m.sizes|
    requires k < |Tuples(env, m, index)| && |Tuples(env, m, index)[k]| == |env.prefix.names[index]|
    requires ForallOutcome(env, m, t, asg, index, k, permIndex, ignore, Some(r))
    ensures var asg' := Extended(env, m, index, asg, k); var wrong := FalseOf(env, m, t, index + 1, asg');
            Outcome(env, m, t - wrong, wrong, asg', index + 1, permIndex, false, ignore, Some(more))
    ensures ForallOutcome(env, m, more, asg, index, k + 1, permIndex, ignore, Some(r))
  {
    hide ModelFits, Outcome, Tuples, Extended, FalseOf;
    var asg' := Extended(env, m, index, asg, k);
    var wrong := FalseOf(env, m, t, index + 1, asg');
    var some :| Outcome(env, m, t - wrong, wrong, asg', index + 1, permIndex, false, ignore, some)
      && if some.None? then Some(r) == None else ForallOutcome(env, m, some.value, asg, index, k + 1, permIndex, ignore, Some(r));
    more := some.value;
  }

  // One weakening, and any number of them.

  lemma TrueOrbit(env: Setting, m: LS.Model, g: Elem)
    requires Fair(env, m) && Goal(env, g) && !Violated(env, m, g)
    ensures AllTrue(env, m, Orbit(env, 0, g), 0, map[])
  {
    hide ModelFits, TrueFrom, Goal, Orbit;
    var asg: Assignment := map[];
    assert Q.VarsBefore(env.prefix, 0) <= asg.Keys;
  }

  lemma NoneNested(env: Setting, g: Elem)
    ensures Nested(env, 0, g, [], []) && AllPassedSingle(env, []) && Covered(env, 0, map[])
    ensures forall s :: PassedReach(env, g, 0, [], [], s) <==> Reaches(Orbit(env, 0, g), s)
  {
    hide Reaches;
  }

  lemma RepairReaches(env: Setting, m: LS.Model, g: Elem, before: set<Elem>, wrong: set<Elem>, after: set<Elem>)
    requires OneClause(env) && Fair(env, m) && Goal(env, g) && AllSingle(env, before) && wrong <= before
    requires Ready(env, m, Orbit(env, 0, g), before - wrong, wrong, 0, map[], false)
    requires |env.prefix.quantifiers| == |env.prefix.names| && ModelFits(env, m)
    requires Outcome(env, m, before - wrong, wrong, map[], 0, 0, false, [], Some(after))
    ensures AllSingle(env, after) && Reaches(Orbit(env, 0, g), after)
  {
    NoneNested(env, g);
    assert AllSingle(env, before - wrong) && AllSingle(env, wrong) by { hide Single; }
    hide *;
    OutcomeReaches(env, m, g, [], before - wrong, wrong, map[], 0, 0, false, [], after);
  }

  /** Weakening for a model keeps reaching a clause that the model satisfies. */
  lemma WeakenReaches(env: Setting, m: LS.Model, g: Elem, before: set<Elem>, after: set<Elem>)
    requires OneClause(env) && Fair(env, m) && Goal(env, g) && ModelFits(env, m) && !Violated(env, m, g)
    requires AllSingle(env, before) && Reaches(Orbit(env, 0, g), before) && WeakenOutcome(env, m, before, Some(after))
    ensures AllSingle(env, after) && Reaches(Orbit(env, 0, g), after)
  {
    FairFits(env, m);
    hide OneClause, Fair, Goal, ModelFits, AllSingle, Outcome, TrueFrom, Reaches, AllTrue, Orbit;
    TrueOrbit(env, m, g);
    var wrong := FalseOf(env, m, before, 0, map[]);
    if wrong != {} {
      SplitReady(env, m, Orbit(env, 0, g), before, 0, map[]);
      RepairReaches(env, m, g, before, wrong, after);
    }
  }

  /** A body that covers a permuted clause implies the clause. */
  lemma CoversOrbit(env: Setting, pre: LS.Model, g: Elem, e: Elem, x: Elem)
    requires OneClause(env) && Fair(env, pre) && Goal(env, g) && ModelFits(env, pre)
    requires Single(env, e) && x in Orbit(env, 0, g) && Covers(e, x)
    ensures TrueFrom(env, pre, e, 0, map[]) ==> TrueFrom(env, pre, g, 0, map[])
  {
    OneClauseSymmetric(env);
    SingleLists(env, e);
    OrbitAt(env, 0, g);
    hide OneClause, ModelFits, TrueFrom, Goal, Covers, Truth, Has, Single, Orbit, CoveringAt;
    if TrueFrom(env, pre, e, 0, map[]) {
      forall v: nat -> bool | Truth(e, v) ensures Truth(x, v) { CoversImplies(e, x, FormOf(Cnf), v); }
      EntailsTruth(env, pre, e, x, 0, map[]);
      var asg: Assignment := map[];
      assert Q.VarsBefore(env.prefix, 0) <= asg.Keys;
      assert TrueFrom(env, pre, g, 0, asg);
    }
  }

  /** Weakening for a step keeps reaching a clause that the step preserves. */
  lemma WeakenCtiReaches(env: Setting, pre: LS.Model, post: LS.Model, g: Elem, before: set<Elem>, after: set<Elem>)
    requires OneClause(env) && Fair(env, pre) && Fair(env, post) && Goal(env, g)
    requires ModelFits(env, pre) && ModelFits(env, post) && !NotInductive(env, pre, post, g)
    requires AllSingle(env, before) && Reaches(Orbit(env, 0, g), before) && WeakenCtiOutcome(env, pre, post, before, Some(after))
    ensures AllSingle(env, after) && Reaches(Orbit(env, 0, g), after)
  {
    FairFits(env, post);
    hide OneClause, Fair, Goal, ModelFits, Outcome, TrueFrom, AllTrue, Orbit, Single, Covers;
    var orbit := Orbit(env, 0, g);
    var wrong := FalseOf(env, post, before, 0, map[]) - FalseOf(env, pre, before, 0, map[]);
    if wrong != {} {
      if Violated(env, post, g) {
        var e :| e in before && ReachedBy(orbit, e);
        var x :| x in orbit && Covers(e, x);
        CoversOrbit(env, pre, g, e, x);
        assert e in before - wrong;
        ReachesOne(orbit, before - wrong, e, x);
      } else {
        TrueOrbit(env, post, g);
        SplitOrbit(env, post, orbit, before, wrong, 0, map[]);
      }
      RepairReaches(env, post, g, before, wrong, after);
    }
  }

  /** What a set is weakened for: an initial model, or a step. */
  datatype Event = Initial(m: LS.Model) | Step(pre: LS.Model, post: LS.Model)

  ghost predicate FairEvent(env: Setting, ev: Event) {
    match ev case Initial(m) => Fair(env, m) case Step(pre, post) => Fair(env, pre) && Fair(env, post)
  }

  ghost predicate Weakens(env: Setting, ev: Event, before: set<Elem>, after: set<Elem>) {
    match ev
    case Initial(m) => ModelFits(env, m) && WeakenOutcome(env, m, before, Some(after))
    case Step(pre, post) => ModelFits(env, pre) && ModelFits(env, post) && WeakenCtiOutcome(env, pre, post, before, Some(after))
  }

  /** Initial models satisfy the clause, and steps preserve it. */
  ghost predicate Respects(env: Setting, ev: Event, g: Elem) {
    match ev
    case Initial(m) => ModelFits(env, m) && !Violated(env, m, g)
    case Step(pre, post) => ModelFits(env, pre) && ModelFits(env, post) && !NotInductive(env, pre, post, g)
  }

  ghost predicate History(env: Setting, events: seq<Event>, sets: seq<set<Elem>>) {
    && |sets| == |events| + 1 && HasBottom(env, sets[0]) && BottomAlone(env, sets[0]) && AllOk(env, sets[0])
    && forall k | 0 <= k < |events| :: FairEvent(env, events[k]) && Weakens(env, events[k], sets[k], sets[k + 1])
  }

  lemma BottomSingle(env: Setting, es: set<Elem>)
    requires env.kind == Cnf && HasBottom(env, es) && BottomAlone(env, es) && AllOk(env, es)
    ensures AllSingle(env, es)
  {
    var o :| o in es && Bottom(env, o);
    BottomParts(env, o);
    hide Bottom, BodyOk;
    FoldSingle(env, o);
  }

  lemma BottomReaches(env: Setting, g: Elem, es: set<Elem>)
    requires OneClause(env) && Goal(env, g) && HasBottom(env, es)
    ensures Reaches(Orbit(env, 0, g), es)
  {
    OneClauseSymmetric(env);
    OrbitAt(env, 0, g);
    var d := GoalParts(env, g);
    var o :| o in es && Bottom(env, o);
    BottomParts(env, o);
    CnfForms([[]], [d]);
    hide OneClause, Goal, Bottom, CnfElem, Covers, Orbit, CoveringAt, Towards;
    var empty: seq<Literal> := [];
    assert empty in [empty] && Within(empty, d);
    RefinesCovers([empty], [d]);
    ReachesOne(Orbit(env, 0, g), es, o, g);
  }

  lemma {:induction false} HistoryReaches(env: Setting, events: seq<Event>, sets: seq<set<Elem>>, g: Elem, n: nat)
    requires OneClause(env) && Goal(env, g) && History(env, events, sets) && n <= |events|
    requires forall k | 0 <= k < n :: Respects(env, events[k], g)
    ensures AllSingle(env, sets[n]) && Reaches(Orbit(env, 0, g), sets[n])
    decreases n
  {
    OneClauseSymmetric(env);
    hide OneClause, Goal, AllSingle, Reaches, Orbit, FairEvent, Weakens, Respects, HasBottom, BottomAlone, AllOk;
    if n == 0 {
      BottomSingle(env, sets[0]);
      BottomReaches(env, g, sets[0]);
    } else {
      HistoryReaches(env, events, sets, g, n - 1);
      assert FairEvent(env, events[n - 1]) && Weakens(env, events[n - 1], sets[n - 1], sets[n - 1 + 1]);
      EventReaches(env, events[n - 1], sets[n - 1], sets[n], g);
    }
  }

  lemma EventReaches(env: Setting, ev: Event, before: set<Elem>, after: set<Elem>, g: Elem)
    requires OneClause(env) && Goal(env, g) && FairEvent(env, ev) && Weakens(env, ev, before, after) && Respects(env, ev, g)
    requires AllSingle(env, before) && Reaches(Orbit(env, 0, g), before)
    ensures AllSingle(env, after) && Reaches(Orbit(env, 0, g), after)
  {
    hide OneClause, Goal, AllSingle, Reaches, Orbit, Fair, ModelFits, WeakenOutcome, WeakenCtiOutcome, Violated, NotInductive;
    match ev
    case Initial(m) => WeakenReaches(env, m, g, before, after);
    case Step(pre, post) => WeakenCtiReaches(env, pre, post, g, before, after);
  }

  /** No clause is missed: after any weakenings of the false lemma, a clause that weakening can make, that every initial
      model satisfies and every step preserves, follows from a stored one. */
  lemma NothingMissed(env: Setting, stronger: (Elem, Elem) -> bool, events: seq<Event>, sets: seq<set<Elem>>, g: Elem)
    requires OneClause(env) && Goal(env, g) && Covering(env, stronger) && History(env, events, sets)
    requires forall k | 0 <= k < |events| :: Respects(env, events[k], g)
    ensures Below(stronger, sets[|events|], g)
  {
    HistoryReaches(env, events, sets, g, |events|);
    OneClauseSymmetric(env);
    OrbitAt(env, 0, g);
    var d := GoalParts(env, g);
    var last := sets[|events|];
    hide OneClause, Goal, History, Covers, Single, CoveringAt, Towards, Covering, Subsumes, Has;
    var e :| e in last && ReachedBy(Orbit(env, 0, g), e);
    var x :| x in Orbit(env, 0, g) && Covers(e, x);
    SingleLists(env, e);
    SubsumesExact(e, x, FormOf(Cnf));
    OrbitBelow(env, stronger, e, x, g);
    BelowOne(stronger, last, e, g);
  }

  lemma OrbitBelow(env: Setting, stronger: (Elem, Elem) -> bool, e: Elem, x: Elem, g: Elem)
    requires Covering(env, stronger) && BodyOk(env, e) && BodyOk(env, g) && x in Orbit(env, 0, g) && Subsumes(e, x)
    ensures stronger(e, g)
  {
    hide BodyOk, Subsumes;
  }
}
