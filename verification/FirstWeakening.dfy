/** The first weakening of a set of conjunctive lemmas: what becomes of the false body under one model. */
module FirstWeakenings {
  import opened Collections
  import opened Syntax
  import opened Semantics
  import opened Subsumption
  import opened LemmaBodies
  import opened BodyForms
  import opened Weakening
  import LS = LemmaSets
  import Q = Quantifiers

  // Subsumption of conjunctive bodies, on lists.

  lemma ClauseCovers(c: seq<Literal>, d: seq<Literal>)
    requires Within(c, d)
    ensures Covers(ClauseElem(c), ClauseElem(d))
  {
    var xs, ys := RevEach(LitElems(d)), RevEach(LitElems(c));
    forall j | 0 <= j < |ys| ensures CoversSome(xs, ys[j]) {
      assert c[j] in c;
      var i :| 0 <= i < |d| && d[i] == c[j];
      assert xs[i] == Rev(ELit(d[i].atom, d[i].positive)) && ys[j] == Rev(ELit(c[j].atom, c[j].positive));
      assert Covers(xs[i], ys[j]);
    }
    CoversAnd(xs, ys);
    assert Covers(AndOf(xs), AndOf(ys));
  }

  lemma RefinesCovers(stronger: Lists, weaker: Lists)
    requires Refines(stronger, weaker)
    ensures Covers(CnfElem(stronger), CnfElem(weaker))
  {
    hide ClauseElem, Within;
    var xs, ys := ClauseElems(stronger), ClauseElems(weaker);
    forall j | 0 <= j < |ys| ensures CoversSome(xs, ys[j]) {
      assert weaker[j] in weaker;
      var c :| c in stronger && Within(c, weaker[j]);
      var i :| 0 <= i < |stronger| && stronger[i] == c;
      ClauseCovers(c, weaker[j]);
      assert Covers(xs[i], ys[j]);
    }
    CoversAnd(xs, ys);
  }

  // What weakening keeps.

  /** A body of the language with no more clauses than allowed. */
  ghost predicate FewClauses(env: Setting, e: Elem) {
    env.kind == Cnf && BodyOk(env, e) && Has(e, FormOf(Cnf)) && |ToBase(Cnf, e).lists| <= env.limits.clauses
  }

  /** Every such body that is true from a block on follows from one of the bodies. */
  ghost predicate Complete(env: Setting, m: LS.Model, stronger: (Elem, Elem) -> bool, es: set<Elem>, i: nat, asg: Assignment)
    requires ModelFits(env, m)
  {
    forall e | FewClauses(env, e) && TrueFrom(env, m, e, i, asg) :: Below(stronger, es, e)
  }

  /** Nothing is lost of the old bodies. */
  ghost predicate KeptBelow(stronger: (Elem, Elem) -> bool, s: set<Elem>, r: set<Elem>) {
    forall e | e in s :: Below(stronger, r, e)
  }

  ghost predicate Grows(env: Setting, m: LS.Model, stronger: (Elem, Elem) -> bool, s: set<Elem>, i: nat, asg: Assignment, r: set<Elem>)
    requires ModelFits(env, m)
  {
    AllOk(env, r) && KeptBelow(stronger, s, r) && Complete(env, m, stronger, r, i, asg)
  }

  /** A universal block stands for one tuple. */
  ghost predicate OneTuple(env: Setting, m: LS.Model)
    requires ModelFits(env, m)
  {
    forall i | 0 <= i < |env.prefix.names| && i < |m.sizes| && i < |env.prefix.quantifiers| && env.prefix.quantifiers[i] == Forall ::
      |Tuples(env, m, i)| == 1
  }

  lemma BelowTrans(env: Setting, stronger: (Elem, Elem) -> bool, s: set<Elem>, r: set<Elem>, e: Elem)
    requires Covering(env, stronger) && KeptBelow(stronger, s, r) && Below(stronger, s, e)
    ensures Below(stronger, r, e)
  {
    hide Covering;
    var b :| b in s && stronger(b, e);
    var c :| c in r && stronger(c, b);
    CoveringTransitive(env, stronger, c, b, e);
  }

  lemma KeptBelowTrans(env: Setting, stronger: (Elem, Elem) -> bool, s: set<Elem>, t: set<Elem>, r: set<Elem>)
    requires Covering(env, stronger) && KeptBelow(stronger, s, t) && KeptBelow(stronger, t, r)
    ensures KeptBelow(stronger, s, r)
  {
    hide Covering, Below;
    forall e | e in s ensures Below(stronger, r, e) { BelowTrans(env, stronger, t, r, e); }
  }

  lemma KeptItself(env: Setting, stronger: (Elem, Elem) -> bool, s: set<Elem>, r: set<Elem>)
    requires Covering(env, stronger) && s <= r
    ensures KeptBelow(stronger, s, r)
  {
    hide Covering;
    forall e | e in s ensures Below(stronger, r, e) { CoveringReflexive(env, stronger, e); }
  }

  lemma CompleteKept(env: Setting, m: LS.Model, stronger: (Elem, Elem) -> bool, t: set<Elem>, r: set<Elem>, i: nat, asg: Assignment)
    requires ModelFits(env, m) && Covering(env, stronger) && Complete(env, m, stronger, t, i, asg) && KeptBelow(stronger, t, r)
    ensures Complete(env, m, stronger, r, i, asg)
  {
    hide Covering, Below, TrueFrom, FewClauses, KeptBelow, ModelFits;
    forall e | FewClauses(env, e) && TrueFrom(env, m, e, i, asg) ensures Below(stronger, r, e) { BelowTrans(env, stronger, t, r, e); }
  }

  /** New bodies in place of what they subsume. */
  lemma MergedKeeps(env: Setting, stronger: (Elem, Elem) -> bool, s: set<Elem>, es: set<Elem>, permIndex: nat, replace: bool)
    requires Covering(env, stronger) && AllOk(env, s) && AllOk(env, es) && Merged(env, s, es, permIndex, replace).Some?
    ensures var r := Merged(env, s, es, permIndex, replace).value; AllOk(env, r) && KeptBelow(stronger, s, r) && KeptBelow(stronger, es, r)
  {
    var r := Merged(env, s, es, permIndex, replace).value;
    hide Covering, BodyOk, Subsumes;
    KeptItself(env, stronger, es, r);
    forall e | e in s ensures Below(stronger, r, e) {
      if e in r {
        CoveringReflexive(env, stronger, e);
      } else {
        var b :| b in es && DropsOne(env, b, permIndex, e);
        DropsBelow(env, stronger, b, permIndex, e);
        assert b in r;
      }
    }
  }

  lemma DropsBelow(env: Setting, stronger: (Elem, Elem) -> bool, b: Elem, permIndex: nat, e: Elem)
    requires Covering(env, stronger) && BodyOk(env, b) && BodyOk(env, e) && DropsOne(env, b, permIndex, e)
    ensures stronger(b, e)
  {
    hide BodyOk, Subsumes;
  }

  lemma MinimalKeeps(env: Setting, stronger: (Elem, Elem) -> bool, es: set<Elem>, kept: set<Elem>, permIndex: nat)
    requires Covering(env, stronger) && AllOk(env, es) && Minimal(env, es, kept, permIndex)
    ensures AllOk(env, kept) && KeptBelow(stronger, es, kept)
  {
    hide BodyOk, Covering, CoveringAt, Below;
    CoversAt(env, permIndex, stronger);
  }

  // Under one full assignment.

  lemma BottomParts(env: Setting, o: Elem)
    requires Bottom(env, o)
    ensures env.kind == Cnf && Has(o, FormOf(Cnf)) && ToBase(Cnf, o) == Base.Lists([[]]) && ToElem(Cnf, Base.Lists([[]])) == o
  {
  }

  /** What weakening makes of a conjunctive body is in the language, and the canonical form of a base. */
  lemma WeakeningOk(env: Setting, o: Elem, v: nat -> bool, ignore: Base -> bool, e: Elem) returns (lists: Lists)
    requires env.kind == Cnf && BodyOk(env, o) && Has(o, FormOf(env.kind)) && BodyWeakening(env, o, v, ignore, e)
    ensures BodyOk(env, e) && e == CanonicalForm(CnfElem(lists))
    ensures lists in WeakenCnf(ToBase(Cnf, o).lists, TrueCube(env.allowed, v), env.limits.clauses, env.limits.clauseSize, env.isEq,
                               (l: Lists) => ignore(Base.Lists(l)))
  {
    hide BodyOk, ToElem, BaseWeaker, Has, Canonical, Equivalent, CnfWeakening, ToBase, Bottom, Truth, BaseWeakening, WeakenCnf;
    var base := ToBase(Cnf, o);
    var b :| BaseWeakening(env, base, v, ignore, b) && FormOfBase(env, b, e);
    ListsWeakening(env, base, v, ignore, b);
    CnfWeaker(env, base, v, (l: Lists) => ignore(Base.Lists(l)), b.lists);
    ToElemTrue(env.kind, b, v);
    var raw := ToElem(env.kind, b);
    CanonicalFormExact(raw, FormOf(env.kind));
    assert FormOfBase(env, b, CanonicalForm(raw));
    OneForm(env, b, e, CanonicalForm(raw));
    WeakerForm(env, o, base, v, b, raw, e);
    lists := b.lists;
    CnfForms(lists, lists);
  }

  lemma ListsWeakening(env: Setting, base: Base, v: nat -> bool, ignore: Base -> bool, b: Base)
    requires env.kind == Cnf && base.Lists? && BaseWeakening(env, base, v, ignore, b)
    ensures b.Lists? && b.lists in WeakenCnf(base.lists, TrueCube(env.allowed, v), env.limits.clauses, env.limits.clauseSize, env.isEq,
                                             (l: Lists) => ignore(Base.Lists(l)))
  {
    WeakenCnfExact(base.lists, TrueCube(env.allowed, v), env.limits.clauses, env.limits.clauseSize, env.isEq, (l: Lists) => ignore(Base.Lists(l)), b.lists);
    hide CnfWeakening, WeakenCnf;
  }

  /** Each clause of a true body has a literal of the cube. */
  lemma TrueMeets(env: Setting, e: Elem, v: nat -> bool)
    requires BodyOk(env, e) && env.kind == Cnf && Has(e, FormOf(Cnf)) && Truth(e, v)
    ensures forall d | d in ToBase(Cnf, e).lists :: Meets(d, TrueCube(env.allowed, v))
  {
    assert ToBase(Cnf, e).Lists?;
    hide *;
    var base, cube := ToBase(Cnf, e), TrueCube(env.allowed, v);
    ToElemTrue(Cnf, base, v);
    OkAtoms(env, e);
    BaseAtoms(Cnf, base, set x | x in env.allowed);
    forall d | d in base.lists ensures Meets(d, cube) { ClauseMeets(env, base, d, v); }
  }

  lemma OkAtoms(env: Setting, e: Elem)
    requires BodyOk(env, e)
    ensures AtomsOf(e) <= set x | x in env.allowed
  {
    hide Has, Canonical;
  }

  lemma ClauseMeets(env: Setting, base: Base, d: seq<Literal>, v: nat -> bool)
    requires base.Lists? && BaseTrue(Cnf, base, v) && d in base.lists && forall l | InBase(l, base) :: l.atom in env.allowed
    ensures Meets(d, TrueCube(env.allowed, v))
  {
    var cube := TrueCube(env.allowed, v);
    var l :| l in d && LitTrue(l, v);
    assert Occurs(l, base.lists) && InBase(l, base);
    var i :| 0 <= i < |env.allowed| && env.allowed[i] == l.atom;
    assert cube[i] == l && cube[i] in cube;
  }

  /** One of the weakenings of the false body is at least as strong as any body that is true. */
  lemma LeafLeast(env: Setting, stronger: (Elem, Elem) -> bool, o: Elem, v: nat -> bool, ignore: Base -> bool, e: Elem) returns (r: Elem)
    requires Plain(env) && Covering(env, stronger) && BodyOk(env, o) && Bottom(env, o) && Has(o, FormOf(env.kind))
    requires FewClauses(env, e) && Truth(e, v)
    ensures BodyWeakening(env, o, v, ignore, r) && stronger(r, e)
  {
    BottomParts(env, o);
    FewParts(env, e);
    TrueMeets(env, e, v);
    hide BodyOk, ToElem, Has, Canonical, Equivalent, CnfWeakening, ToBase, Bottom, Truth, WeakenCnf, Plain, Covering, FewClauses, Covers, Meets, Refines;
    var weaker, cube := ToBase(Cnf, e).lists, TrueCube(env.allowed, v);
    var lists := WeakenCnfLeast([[]], cube, env.limits.clauses, env.limits.clauseSize, env.isEq, (l: Lists) => ignore(Base.Lists(l)), weaker);
    WeakenCnfExact([[]], cube, env.limits.clauses, env.limits.clauseSize, env.isEq, (l: Lists) => ignore(Base.Lists(l)), lists);
    var b := Base.Lists(lists);
    ToElemTrue(env.kind, b, v);
    r := CanonicalForm(ToElem(env.kind, b));
    CanonicalFormExact(ToElem(env.kind, b), FormOf(env.kind));
    assert FormOfBase(env, b, r);
    assert BodyWeakening(env, o, v, ignore, r);
    var _ := WeakeningOk(env, o, v, ignore, r);
    RefinesCovers(lists, weaker);
    CnfForms(lists, weaker);
    EquivalentParts(ToElem(env.kind, b), r);
    CoversTransitive(r, ToElem(env.kind, b), e, FormOf(env.kind));
    CoversBelow(env, stronger, r, e);
  }

  lemma CnfForms(a: Lists, b: Lists)
    ensures ToElem(Cnf, Base.Lists(a)) == CnfElem(a) && ToElem(Cnf, Base.Lists(b)) == CnfElem(b)
  {
  }

  lemma EquivalentParts(a: Elem, b: Elem)
    requires Equivalent(a, b)
    ensures Covers(a, b) && Covers(b, a)
  {
    hide Covers;
  }

  lemma FewParts(env: Setting, e: Elem)
    requires FewClauses(env, e)
    ensures env.kind == Cnf && BodyOk(env, e) && Has(e, FormOf(Cnf)) && |ToBase(Cnf, e).lists| <= env.limits.clauses
    ensures ToElem(Cnf, ToBase(Cnf, e)) == e && ToBase(Cnf, e).Lists?
  {
    hide BodyOk;
  }

  lemma CoversBelow(env: Setting, stronger: (Elem, Elem) -> bool, a: Elem, b: Elem)
    requires Plain(env) && Covering(env, stronger) && BodyOk(env, a) && BodyOk(env, b) && Covers(a, b)
    ensures stronger(a, b)
  {
    hide Covers;
    SubsumesExact(a, b, FormOf(env.kind));
    assert a in env.permuted(0, a);
  }

  lemma LeafGrows(env: Setting, m: LS.Model, stronger: (Elem, Elem) -> bool, s: set<Elem>, o: Elem, asg: Assignment, permIndex: nat,
                  prevExists: bool, ignore: seq<(set<Elem>, nat)>, r: set<Elem>)
    requires ModelFits(env, m) && Plain(env) && Covering(env, stronger) && AllOk(env, s) && BodyOk(env, o) && Bottom(env, o)
    requires LeafOutcome(env, s, {o}, LS.Valuation(m, asg), permIndex, prevExists, ignore, Some(r))
    ensures Grows(env, m, stronger, s, |env.prefix.names|, asg, r)
  {
    BottomParts(env, o);
    hide Plain, Covering, BodyOk, Bottom, TrueFrom, Minimal, Merged, BodyWeakening, Has, FewClauses, ModelFits, Below, Truth;
    var v, passed := LS.Valuation(m, asg), ignore + [(s, permIndex)];
    var es, kept: set<Elem> :| AllWeakenings(env, {o}, v, passed, es) && Minimal(env, es, kept, permIndex)
      && Some(r) == Merged(env, s, kept, permIndex, prevExists && s != {});
    forall e | e in es ensures BodyOk(env, e) {
      assert SomeWeakening(env, {o}, v, passed, e);
      var _ := WeakeningOk(env, o, v, (b: Base) => env.ignored(passed, b), e);
    }
    forall e | FewClauses(env, e) && TrueFrom(env, m, e, |env.prefix.names|, asg) ensures Below(stronger, es, e) {
      LeafTrue(env, m, e, asg);
      var w := LeafLeast(env, stronger, o, v, (b: Base) => env.ignored(passed, b), e);
      assert o in {o} && LeafWeakening(env, o, v, passed, w);
      assert SomeWeakening(env, {o}, v, passed, w);
      BelowOne(stronger, es, w, e);
    }
    MinimalKeeps(env, stronger, es, kept, permIndex);
    MergedKeeps(env, stronger, s, kept, permIndex, prevExists && s != {});
    KeptBelowTrans(env, stronger, es, kept, r);
    CompleteKept(env, m, stronger, es, r, |env.prefix.names|, asg);
  }

  lemma BelowOne(stronger: (Elem, Elem) -> bool, es: set<Elem>, w: Elem, e: Elem)
    requires w in es && stronger(w, e)
    ensures Below(stronger, es, e)
  {
  }

  // Through the blocks.

  lemma {:induction false} OutcomeGrows(env: Setting, m: LS.Model, stronger: (Elem, Elem) -> bool, s: set<Elem>, o: Elem, asg: Assignment,
                                        index: nat, permIndex: nat, prevExists: bool, ignore: seq<(set<Elem>, nat)>, r: set<Elem>)
    requires ModelFits(env, m) && |env.prefix.quantifiers| == |env.prefix.names| && index <= |env.prefix.names| && OneTuple(env, m)
    requires Plain(env) && Covering(env, stronger) && AllOk(env, s) && BodyOk(env, o) && Bottom(env, o)
    requires Outcome(env, m, s, {o}, asg, index, permIndex, prevExists, ignore, Some(r))
    ensures Grows(env, m, stronger, s, index, asg, r)
    decreases |env.prefix.names| - index, 2, 0
  {
    hide Plain, Covering, BodyOk, Bottom, TrueFrom, LeafOutcome, ForallOutcome, ExistsOutcome, ModelFits, Complete, KeptBelow, AllOk, MergeOutcome;
    hide OneTuple, Tuples;
    assert o in {o};
    if index == |env.prefix.names| {
      LeafGrows(env, m, stronger, s, o, asg, permIndex, prevExists, ignore, r);
    } else if env.prefix.names[index] == [] {
      OutcomeGrows(env, m, stronger, s, o, asg, index + 1, permIndex, prevExists, ignore, r);
      EmptyComplete(env, m, stronger, r, index, asg);
    } else if env.prefix.quantifiers[index] == Forall {
      var t :| ForallOutcome(env, m, {o}, asg, index, 0, if prevExists then index else permIndex, ignore + [(s, permIndex)], t)
               && MergeOutcome(env, s, t, permIndex, prevExists, Some(r));
      MergedSome(env, s, t, permIndex, prevExists, r);
      ForallGrows(env, m, stronger, o, asg, index, if prevExists then index else permIndex, ignore + [(s, permIndex)], t.value);
      MergeGrows(env, m, stronger, s, t.value, index, asg, permIndex, prevExists, r);
    } else {
      BlockFits(env, m, index);
      BlockOpen(env, m, index);
      ExistsGrows(env, m, stronger, s, o, asg, index, 0, permIndex, ignore, r);
      ExistsComplete(env, m, stronger, r, index, asg);
    }
  }

  lemma MergedSome(env: Setting, s: set<Elem>, t: Option<set<Elem>>, permIndex: nat, prevExists: bool, r: set<Elem>)
    requires MergeOutcome(env, s, t, permIndex, prevExists, Some(r))
    ensures t.Some?
  {
    hide Merged, Minimal;
  }

  lemma MergeGrows(env: Setting, m: LS.Model, stronger: (Elem, Elem) -> bool, s: set<Elem>, t: set<Elem>, index: nat, asg: Assignment,
                   permIndex: nat, prevExists: bool, r: set<Elem>)
    requires ModelFits(env, m) && Covering(env, stronger) && AllOk(env, s) && Grows(env, m, stronger, {}, index, asg, t)
    requires MergeOutcome(env, s, Some(t), permIndex, prevExists, Some(r))
    ensures Grows(env, m, stronger, s, index, asg, r)
  {
    hide Covering, AllOk, Minimal, Merged, ModelFits, Complete, KeptBelow;
    if prevExists {
      var kept: set<Elem> :| Minimal(env, t, kept, permIndex) && Some(r) == Merged(env, s, kept, permIndex, true);
      MinimalKeeps(env, stronger, t, kept, permIndex);
      MergedKeeps(env, stronger, s, kept, permIndex, true);
      KeptBelowTrans(env, stronger, t, kept, r);
    } else {
      MergedKeeps(env, stronger, s, t, permIndex, false);
    }
    CompleteKept(env, m, stronger, t, r, index, asg);
  }

  lemma EmptyComplete(env: Setting, m: LS.Model, stronger: (Elem, Elem) -> bool, es: set<Elem>, i: nat, asg: Assignment)
    requires ModelFits(env, m) && i < |env.prefix.names| && env.prefix.names[i] == [] && Complete(env, m, stronger, es, i + 1, asg)
    ensures Complete(env, m, stronger, es, i, asg)
  {
    hide TrueFrom, ModelFits, FewClauses, Below;
    forall e | FewClauses(env, e) && TrueFrom(env, m, e, i, asg) ensures Below(stronger, es, e) { EmptyBlock(env, m, e, i, asg); }
  }

  /** The single tuple of a universal block. */
  lemma {:induction false} ForallGrows(env: Setting, m: LS.Model, stronger: (Elem, Elem) -> bool, o: Elem, asg: Assignment, index: nat,
                                       permIndex: nat, ignore: seq<(set<Elem>, nat)>, r: set<Elem>)
    requires ModelFits(env, m) && |env.prefix.quantifiers| == |env.prefix.names| && index < |env.prefix.names| && OneTuple(env, m)
    requires env.prefix.quantifiers[index] == Forall
    requires Plain(env) && Covering(env, stronger) && BodyOk(env, o) && Bottom(env, o)
    requires ForallOutcome(env, m, {o}, asg, index, 0, permIndex, ignore, Some(r))
    ensures Grows(env, m, stronger, {}, index, asg, r)
    decreases |env.prefix.names| - index, 1, 0
  {
    PrefixFits(env, m);
    assert |Tuples(env, m, index)| == 1;
    BlockFits(env, m, index);
    BlockOpen(env, m, index);
    InBlockNext(env, m, index, 0);
    hide Plain, Covering, BodyOk, Bottom, TrueFrom, Outcome, ModelFits, Complete, KeptBelow, Tuples, InBlock, Extended, FalseOf, OneTuple;
    var asg' := Extended(env, m, index, asg, 0);
    BottomWrong(env, m, o, index + 1, asg');
    assert Outcome(env, m, {}, {o}, asg', index + 1, permIndex, false, ignore, Some(r)) by {
      ForallOnce(env, m, o, asg, index, permIndex, ignore, r);
    }
    OutcomeGrows(env, m, stronger, {}, o, asg', index + 1, permIndex, false, ignore, r);
    ForallComplete(env, m, stronger, r, index, asg);
  }

  lemma BottomWrong(env: Setting, m: LS.Model, o: Elem, i: nat, asg: Assignment)
    requires ModelFits(env, m) && Bottom(env, o)
    ensures FalseOf(env, m, {o}, i, asg) == {o} && {o} - {o} == {}
  {
    hide TrueFrom, ModelFits, Bottom;
    BottomFalse(env, m, o, i, asg);
  }

  lemma ForallOnce(env: Setting, m: LS.Model, o: Elem, asg: Assignment, index: nat, permIndex: nat, ignore: seq<(set<Elem>, nat)>, r: set<Elem>)
    requires ModelFits(env, m) && |env.prefix.quantifiers| == |env.prefix.names| && index < |env.prefix.names| && index < |m.sizes|
    requires |Tuples(env, m, index)| == 1 && InBlock(env, m, index, 0) && |Tuples(env, m, index)[0]| == |env.prefix.names[index]|
    requires FalseOf(env, m, {o}, index + 1, Extended(env, m, index, asg, 0)) == {o}
    requires ForallOutcome(env, m, {o}, asg, index, 0, permIndex, ignore, Some(r))
    ensures Outcome(env, m, {}, {o}, Extended(env, m, index, asg, 0), index + 1, permIndex, false, ignore, Some(r))
  {
    hide Outcome, FalseOf, Tuples, ModelFits, Extended, InBlock;
    assert {o} - {o} == {};
    var more :| Outcome(env, m, {}, {o}, Extended(env, m, index, asg, 0), index + 1, permIndex, false, ignore, more)
      && if more.None? then Some(r) == None else ForallOutcome(env, m, more.value, asg, index, 1, permIndex, ignore, Some(r));
  }

  lemma ForallComplete(env: Setting, m: LS.Model, stronger: (Elem, Elem) -> bool, es: set<Elem>, i: nat, asg: Assignment)
    requires InBlock(env, m, i, 1) && |env.prefix.quantifiers| == |env.prefix.names| && env.prefix.quantifiers[i] == Forall
    requires i < |m.sizes| && |Tuples(env, m, i)| == 1 && Complete(env, m, stronger, es, i + 1, Extended(env, m, i, asg, 0))
    ensures Complete(env, m, stronger, es, i, asg)
  {
    hide TrueFrom, FewClauses, Below, Tuples, Extended, ModelFits;
    forall e | FewClauses(env, e) && TrueFrom(env, m, e, i, asg) ensures Below(stronger, es, e) {
      AllTuples(env, m, e, i, asg);
      assert AllFirst(env, m, e, i, asg, 1);
    }
  }

  /** Under the tuples of an existential block from one on. */
  ghost predicate CompleteAfter(env: Setting, m: LS.Model, stronger: (Elem, Elem) -> bool, es: set<Elem>, i: nat, asg: Assignment, k: nat)
    requires ModelFits(env, m) && InBlock(env, m, i, 0)
  {
    BlockOpen(env, m, i);
    forall j | k <= j < |Tuples(env, m, i)| :: Complete(env, m, stronger, es, i + 1, Extended(env, m, i, asg, j))
  }

  lemma {:induction false} ExistsGrows(env: Setting, m: LS.Model, stronger: (Elem, Elem) -> bool, s: set<Elem>, o: Elem, asg: Assignment,
                                       index: nat, k: nat, permIndex: nat, ignore: seq<(set<Elem>, nat)>, r: set<Elem>)
    requires ModelFits(env, m) && |env.prefix.quantifiers| == |env.prefix.names| && index < |env.prefix.names| && OneTuple(env, m)
    requires InBlock(env, m, index, 0) && index < |m.sizes| && k <= |Tuples(env, m, index)|
    requires Plain(env) && Covering(env, stronger) && AllOk(env, s) && BodyOk(env, o) && Bottom(env, o)
    requires ExistsOutcome(env, m, s, {o}, asg, index, k, permIndex, ignore, Some(r))
    ensures AllOk(env, r) && KeptBelow(stronger, s, r) && CompleteAfter(env, m, stronger, r, index, asg, k)
    decreases |env.prefix.names| - index, 1, |Tuples(env, m, index)| - k
  {
    if k == |Tuples(env, m, index)| {
      ExistsDone(env, m, s, o, asg, index, k, permIndex, ignore, r);
      KeptItself(env, stronger, s, s);
    } else {
      BlockOpen(env, m, index);
      var asg' := Extended(env, m, index, asg, k);
      var more := ExistsOne(env, m, s, o, asg, index, k, permIndex, ignore, r);
      hide *;
      OutcomeGrows(env, m, stronger, s, o, asg', index + 1, permIndex, true, ignore, more);
      GrowsParts(env, m, stronger, s, index + 1, asg', more);
      ExistsGrows(env, m, stronger, more, o, asg, index, k + 1, permIndex, ignore, r);
      KeptBelowTrans(env, stronger, s, more, r);
      CompleteKept(env, m, stronger, more, r, index + 1, asg');
      CompleteOneMore(env, m, stronger, r, index, asg, k);
    }
  }

  lemma GrowsParts(env: Setting, m: LS.Model, stronger: (Elem, Elem) -> bool, s: set<Elem>, i: nat, asg: Assignment, r: set<Elem>)
    requires ModelFits(env, m) && Grows(env, m, stronger, s, i, asg, r)
    ensures AllOk(env, r) && KeptBelow(stronger, s, r) && Complete(env, m, stronger, r, i, asg)
  {
    hide ModelFits, AllOk, KeptBelow, Complete;
  }

  lemma CompleteOneMore(env: Setting, m: LS.Model, stronger: (Elem, Elem) -> bool, es: set<Elem>, i: nat, asg: Assignment, k: nat)
    requires ModelFits(env, m) && InBlock(env, m, i, 0) && i < |m.sizes| && k < |Tuples(env, m, i)|
    requires |Tuples(env, m, i)[k]| == |env.prefix.names[i]|
    requires CompleteAfter(env, m, stronger, es, i, asg, k + 1) && Complete(env, m, stronger, es, i + 1, Extended(env, m, i, asg, k))
    ensures CompleteAfter(env, m, stronger, es, i, asg, k)
  {
    hide ModelFits, Complete, Tuples, Extended;
  }

  lemma ExistsDone(env: Setting, m: LS.Model, s: set<Elem>, o: Elem, asg: Assignment, index: nat, k: nat, permIndex: nat,
                   ignore: seq<(set<Elem>, nat)>, r: set<Elem>)
    requires ModelFits(env, m) && |env.prefix.quantifiers| == |env.prefix.names| && index < |env.prefix.names|
    requires k >= |Tuples(env, m, index)| && ExistsOutcome(env, m, s, {o}, asg, index, k, permIndex, ignore, Some(r))
    ensures r == s
  {
    hide ModelFits, Outcome, Tuples;
  }

  lemma ExistsOne(env: Setting, m: LS.Model, s: set<Elem>, o: Elem, asg: Assignment, index: nat, k: nat, permIndex: nat,
                  ignore: seq<(set<Elem>, nat)>, r: set<Elem>) returns (more: set<Elem>)
    requires ModelFits(env, m) && |env.prefix.quantifiers| == |env.prefix.names| && index < |env.prefix.names| && index < |m.sizes|
    requires k < |Tuples(env, m, index)| && |Tuples(env, m, index)[k]| == |env.prefix.names[index]|
    requires ExistsOutcome(env, m, s, {o}, asg, index, k, permIndex, ignore, Some(r))
    ensures Outcome(env, m, s, {o}, Extended(env, m, index, asg, k), index + 1, permIndex, true, ignore, Some(more))
    ensures ExistsOutcome(env, m, more, {o}, asg, index, k + 1, permIndex, ignore, Some(r))
  {
    hide ModelFits, Outcome, Tuples, Extended;
    var some :| Outcome(env, m, s, {o}, Extended(env, m, index, asg, k), index + 1, permIndex, true, ignore, some)
      && if some.None? then Some(r) == None else ExistsOutcome(env, m, some.value, {o}, asg, index, k + 1, permIndex, ignore, Some(r));
    more := some.value;
  }

  lemma ExistsComplete(env: Setting, m: LS.Model, stronger: (Elem, Elem) -> bool, es: set<Elem>, i: nat, asg: Assignment)
    requires InBlock(env, m, i, 0) && |env.prefix.quantifiers| == |env.prefix.names| && env.prefix.quantifiers[i] == Exists && i < |m.sizes|
    requires ModelFits(env, m) && CompleteAfter(env, m, stronger, es, i, asg, 0)
    ensures Complete(env, m, stronger, es, i, asg)
  {
    hide TrueFrom, FewClauses, Below, Tuples, Extended, ModelFits;
    forall e | FewClauses(env, e) && TrueFrom(env, m, e, i, asg) ensures Below(stronger, es, e) {
      BlockByIndex(env, m, e, i, asg);
      var j :| 0 <= j < |Tuples(env, m, i)| && TrueFrom(env, m, e, i + 1, Extended(env, m, i, asg, j));
    }
  }

  lemma EverywhereTrue(env: Setting, m: LS.Model, e: Elem, i: nat, asg: Assignment)
    requires ModelFits(env, m) && forall v :: Truth(e, v)
    ensures TrueFrom(env, m, e, i, asg)
    decreases |env.prefix.names| - i
  {
    hide Truth;
    if i >= |env.prefix.names| {
      LeafTrue(env, m, e, asg);
      assert Truth(e, LS.Valuation(m, asg));
    } else {
      PrefixFits(env, m);
      TuplesLength(env, m, i);
      BlockTruth(env, m, e, i, asg);
      hide TrueFrom, Tuples;
      forall es | es in Tuples(env, m, i) ensures TrueFrom(env, m, e, i + 1, Q.Assign(asg, env.prefix.names[i], es)) {
        EverywhereTrue(env, m, e, i + 1, Q.Assign(asg, env.prefix.names[i], es));
      }
      assert Tuples(env, m, i)[0] in Tuples(env, m, i);
    }
  }

  /** The body without clauses. */
  lemma NoClauses(env: Setting)
    requires env.kind == Cnf
    ensures FewClauses(env, AndOf([])) && forall v :: Truth(AndOf([]), v)
  {
    var e := AndOf([]);
    assert Has(e, FormOf(Cnf)) && Canonical(e) && AtomsOf(e) == {};
  }

  lemma EmptyCovers(d: seq<Literal>)
    ensures Covers(ClauseElem([]), ClauseElem(d))
  {
    assert LitElems([]) == [] && RevEach([]) == [];
    CoversAnd(RevEach(LitElems(d)), []);
    assert Covers(AndOf(RevEach(LitElems(d))), AndOf([]));
  }

  /** An empty clause stands alone in a canonical body. */
  lemma EmptyAlone(lists: Lists)
    requires Has(CnfElem(lists), FormOf(Cnf)) && Canonical(CnfElem(lists)) && [] in lists
    ensures lists == [[]]
  {
    hide ClauseElem, Leq;
    var xs, k :| xs == ClauseElems(lists) && 0 <= k < |lists| && lists[k] == [];
    assert forall j | 0 <= j < |xs| :: xs[j] in xs && Has(xs[j], ClauseForm) && Canonical(xs[j]);
    if |lists| > 1 {
      var j := if k == 0 then 1 else 0;
      EmptyCovers(lists[j]);
      if k > 0 {
        CoversImpliesLeq(xs[k], xs[j], ClauseForm);
        LeqAntisymmetric(xs[j], xs[k], ClauseForm);
      }
    } else {
      assert lists == [lists[0]];
    }
  }

  /** A body that is false somewhere, which is what gets weakened, has a clause, and no empty one but alone: the assertions
      in the weakening of conjunctive bodies hold. */
  lemma AssertionsHold(env: Setting, m: LS.Model, e: Elem, i: nat, asg: Assignment)
    requires ModelFits(env, m) && env.kind == Cnf && BodyOk(env, e) && !TrueFrom(env, m, e, i, asg)
    ensures Has(e, FormOf(Cnf)) && ToBase(Cnf, e).lists != [] && (ToBase(Cnf, e).lists == [[]] || [] !in ToBase(Cnf, e).lists)
  {
    var lists := ToBase(Cnf, e).lists;
    assert e == CnfElem(lists) by { assert ToElem(Cnf, ToBase(Cnf, e)) == e; }
    if lists == [] {
      NoClauses(env);
      assert e == AndOf([]);
      EverywhereTrue(env, m, e, i, asg);
    }
    if [] in lists { EmptyAlone(lists); }
  }

  /** From the false body, one model leaves no gap: every conjunctive body of the language, within the number of
      clauses, that the model satisfies follows from a stored one, if a universal block of the model is one tuple. */
  lemma FirstComplete(env: Setting, m: LS.Model, stronger: (Elem, Elem) -> bool, before: set<Elem>, after: set<Elem>)
    requires ModelFits(env, m) && OneTuple(env, m) && Plain(env) && Covering(env, stronger) && AllOk(env, before)
    requires HasBottom(env, before) && BottomAlone(env, before) && WeakenOutcome(env, m, before, Some(after))
    ensures forall e | FewClauses(env, e) && !Violated(env, m, e) :: Below(stronger, after, e)
    ensures after != {}
  {
    PrefixFits(env, m);
    var o :| o in before && Bottom(env, o);
    assert before == {o};
    BottomWrong(env, m, o, 0, map[]);
    BottomParts(env, o);
    hide Plain, Covering, BodyOk, Bottom, TrueFrom, Outcome, ModelFits, FalseOf, OneTuple, FewClauses, Below;
    assert AllOk(env, {});
    OutcomeGrows(env, m, stronger, {}, o, map[], 0, 0, false, [], after);
    NoClauses(env);
    EverywhereTrue(env, m, AndOf([]), 0, map[]);
    assert Below(stronger, after, AndOf([]));
    BelowSome(stronger, after, AndOf([]));
  }

  lemma BelowSome(stronger: (Elem, Elem) -> bool, es: set<Elem>, e: Elem)
    requires Below(stronger, es, e)
    ensures es != {}
  {
  }
}
