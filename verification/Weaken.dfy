/** Lemmas with one quantifier prefix, evaluated in a model and weakened all at once. */
module Weakening {
  import opened Collections
  import opened Syntax
  import opened Semantics
  import opened Subsumption
  import opened LemmaBodies
  import opened BodyForms
  import LS = LemmaSets
  import Q = Quantifiers

  datatype Limits = Limits(clauses: nat, clauseSize: nat, cubes: nat, cubeSize: nat, nonUnit: nat)

  /** The lemmas by number. */
  datatype Store = Store(byId: map<nat, Elem>, next: nat)

  /** What the lemmas have in common, with the permutations of a body from a block on, and what
      to ignore given the sets that were passed on the way. */
  datatype Setting = Setting(prefix: Q.Prefix, kind: Kind, limits: Limits, allowed: seq<nat>, isEq: nat -> bool, mentions: nat -> bool,
                             permuted: (nat, Elem) -> seq<Elem>, ignored: (seq<(set<Elem>, nat)>, Base) -> bool)

  ghost predicate BodyOk(env: Setting, e: Elem) {
    Has(e, FormOf(env.kind)) && Canonical(e) && forall x | x in AtomsOf(e) :: x in env.allowed
  }

  ghost predicate StoreOk(env: Setting, s: Store) {
    && (forall id | id in s.byId :: id < s.next && BodyOk(env, s.byId[id]))
    && forall i, j | i in s.byId && j in s.byId && s.byId[i] == s.byId[j] :: i == j
  }

  const EmptyStore := Store(map[], 0)

  predicate Stored(s: Store, e: Elem) {
    exists id | id in s.byId :: s.byId[id] == e
  }

  /** Inserting a body twice trips an assertion. */
  function Insert(s: Store, e: Elem): Option<Store> {
    if Stored(s, e) then None else Some(Store(s.byId[s.next := e], s.next + 1))
  }

  function Without(s: Store, ids: set<nat>): Store {
    Store(s.byId - ids, s.next)
  }

  function OnlyIds(s: Store, ids: set<nat>): Store {
    Store(map id | id in s.byId && id in ids :: s.byId[id], s.next)
  }

  predicate IsSubsumed(env: Setting, s: Store, e: Elem, permIndex: nat) {
    exists p | p in env.permuted(permIndex, e) :: exists id | id in s.byId :: Subsumes(s.byId[id], p)
  }

  function SubsumedIds(env: Setting, s: Store, e: Elem, permIndex: nat): set<nat> {
    set id | id in s.byId && exists p | p in env.permuted(permIndex, e) :: Subsumes(p, s.byId[id])
  }

  function InsertMinimized(env: Setting, s: Store, e: Elem, permIndex: nat): Option<Store> {
    if IsSubsumed(env, s, e, permIndex) then Some(s) else Insert(Without(s, SubsumedIds(env, s, e, permIndex)), e)
  }

  // Truth in a model.

  ghost predicate ModelFits(env: Setting, m: LS.Model) {
    Q.Proper(env.prefix) && |m.sizes| == |env.prefix.names| && forall k | 0 <= k < |m.sizes| :: m.sizes[k] > 0
  }

  ghost predicate TrueFrom(env: Setting, m: LS.Model, e: Elem, i: nat, asg: Assignment)
    requires ModelFits(env, m)
  {
    Q.QTrue(env.prefix, m.sizes, LS.BodyOf(e, m), i, asg)
  }

  ghost predicate Entails(a: Elem, b: Elem) {
    forall v :: Truth(a, v) ==> Truth(b, v)
  }

  lemma EntailsTruth(env: Setting, m: LS.Model, a: Elem, b: Elem, i: nat, asg: Assignment)
    requires ModelFits(env, m) && Entails(a, b) && TrueFrom(env, m, a, i, asg)
    ensures TrueFrom(env, m, b, i, asg)
  {
    hide Truth, Q.QTrue;
    forall x | LS.BodyOf(a, m)(x) ensures LS.BodyOf(b, m)(x) {
      assert Truth(a, LS.Valuation(m, x));
    }
    Q.WeakerBody(env.prefix, m.sizes, LS.BodyOf(a, m), LS.BodyOf(b, m), i, asg);
  }

  function Tuples(env: Setting, m: LS.Model, i: nat): seq<seq<Element>>
    requires i < |env.prefix.names| && i < |m.sizes|
  {
    Product(Q.BlockShape(env.prefix.names[i], m.sizes[i]))
  }

  lemma TuplesShape(env: Setting, m: LS.Model, i: nat)
    requires ModelFits(env, m) && i < |env.prefix.names|
    ensures forall es :: es in Tuples(env, m, i) <==> InShape(es, Q.BlockShape(env.prefix.names[i], m.sizes[i]))
    ensures forall es | es in Tuples(env, m, i) :: |es| == |env.prefix.names[i]|
    ensures Tuples(env, m, i) != []
  {
    forall es ensures es in Tuples(env, m, i) <==> InShape(es, Q.BlockShape(env.prefix.names[i], m.sizes[i])) {
      ProductMembers(Q.BlockShape(env.prefix.names[i], m.sizes[i]), es);
    }
    var zeros := seq<Element>(|env.prefix.names[i]|, j => 0);
    assert InShape(zeros, Q.BlockShape(env.prefix.names[i], m.sizes[i]));
    assert zeros in Tuples(env, m, i);
  }

  /** The truth of a block, tuple by tuple. */
  lemma BlockTruth(env: Setting, m: LS.Model, e: Elem, i: nat, asg: Assignment)
    requires ModelFits(env, m) && i < |env.prefix.names|
    requires forall es | es in Tuples(env, m, i) :: |es| == |env.prefix.names[i]|
    ensures env.prefix.quantifiers[i] == Forall ==>
      (TrueFrom(env, m, e, i, asg) <==>
        forall es | es in Tuples(env, m, i) :: TrueFrom(env, m, e, i + 1, Q.Assign(asg, env.prefix.names[i], es)))
    ensures env.prefix.quantifiers[i] == Exists ==>
      (TrueFrom(env, m, e, i, asg) <==>
        exists es :: es in Tuples(env, m, i) && TrueFrom(env, m, e, i + 1, Q.Assign(asg, env.prefix.names[i], es)))
  {
    TuplesShape(env, m, i);
  }

  lemma EmptyBlock(env: Setting, m: LS.Model, e: Elem, i: nat, asg: Assignment)
    requires ModelFits(env, m) && i < |env.prefix.names| && env.prefix.names[i] == []
    ensures TrueFrom(env, m, e, i, asg) <==> TrueFrom(env, m, e, i + 1, asg)
  {
    TuplesShape(env, m, i);
    BlockTruth(env, m, e, i, asg);
    hide Q.QTrue;
    var none: seq<Element> := [];
    assert Q.Assign(asg, [], none) == asg;
    assert forall es :: es in Tuples(env, m, i) <==> es == none;
  }

  // Evaluating all lemmas at once.

  /** The stored lemmas that are false from a block on. */
  ghost predicate FalseIds(env: Setting, m: LS.Model, s: Store, i: nat, asg: Assignment, ids: set<nat>)
    requires ModelFits(env, m)
  {
    forall id :: id in ids <==> id in s.byId && !TrueFrom(env, m, s.byId[id], i, asg)
  }

  lemma LeafFalse(env: Setting, m: LS.Model, e: Elem, asg: Assignment, neg: Elem)
    requires BodyOk(env, e) && ModelFits(env, m) && Has(neg, FormOf(env.kind)) && Canonical(neg)
    requires Equivalent(ToElem(env.kind, BaseFromClause(env.kind, NegCube(env.allowed, LS.Valuation(m, asg)))), neg)
    ensures Subsumes(e, neg) <==> !TrueFrom(env, m, e, |env.prefix.names|, asg)
  {
    hide Covers, Subsumes, Truth, Has, Canonical, AtomsOf, ToElem, BaseFromClause, Q.Proper;
    var raw := ToElem(env.kind, BaseFromClause(env.kind, NegCube(env.allowed, LS.Valuation(m, asg))));
    var v := LS.Valuation(m, asg);
    NegCubeExact(env.kind, e, env.allowed, v);
    ToElemTrue(env.kind, BaseFromClause(env.kind, NegCube(env.allowed, v)), v);
    LS.CanonicalAnswers(e, raw, neg, FormOf(env.kind));
    LeafTrue(env, m, e, asg);
  }

  lemma LeafTrue(env: Setting, m: LS.Model, e: Elem, asg: Assignment)
    requires ModelFits(env, m)
    ensures TrueFrom(env, m, e, |env.prefix.names|, asg) <==> Truth(e, LS.Valuation(m, asg))
  {
    hide Truth;
  }

  /** The lemmas that the negated cube of the model is weaker than. */
  method UnsatLeaf(env: Setting, s: Store, m: LS.Model, asg: Assignment) returns (ids: set<nat>)
    requires ModelFits(env, m) && StoreOk(env, s)
    ensures FalseIds(env, m, s, |env.prefix.names|, asg, ids)
  {
    hide Subsumes, Covers, Truth, Has, Canonical, AtomsOf, TrueFrom, ToElem, BaseFromClause, Equivalent, Q.Proper;
    var v := LS.Valuation(m, asg);
    var base := BaseFromClause(env.kind, NegCube(env.allowed, v));
    ToElemTrue(env.kind, base, v);
    var neg := FromBase(ToElem(env.kind, base), FormOf(env.kind));
    forall id | id in s.byId ensures Subsumes(s.byId[id], neg) <==> !TrueFrom(env, m, s.byId[id], |env.prefix.names|, asg) {
      LeafFalse(env, m, s.byId[id], asg, neg);
    }
    ids := set id | id in s.byId && Subsumes(s.byId[id], neg);
  }

  /** Exactly the stored lemmas that are false in the model. */
  method Unsat(env: Setting, s: Store, m: LS.Model, asg: Assignment, index: nat) returns (ids: set<nat>)
    requires ModelFits(env, m) && StoreOk(env, s) && index <= |env.prefix.names|
    ensures FalseIds(env, m, s, index, asg, ids)
    decreases |env.prefix.names| - index
  {
    hide FalseIds, FalseFirst, StoreOk, TrueFrom, Tuples, Q.Proper;
    if index >= |env.prefix.names| {
      ids := UnsatLeaf(env, s, m, asg);
      return;
    }
    PrefixFits(env, m);
    if env.prefix.names[index] == [] {
      ids := Unsat(env, s, m, asg, index + 1);
      EmptyFalse(env, m, s, index, asg, ids);
      return;
    }
    TuplesLength(env, m, index);
    var names, tuples := env.prefix.names[index], Tuples(env, m, index);
    ids := Unsat(env, s, m, Q.Assign(asg, names, tuples[0]), index + 1);
    FirstFalse(env, m, s, index, asg, ids);
    var isForall, k := env.prefix.quantifiers[index] == Forall, 1;
    while k < |tuples| && (isForall || ids != {})
      invariant 0 < k <= |tuples|
      invariant FalseFirst(env, m, s, index, asg, k, ids)
    {
      var more := Unsat(env, s, m, Q.Assign(asg, names, tuples[k]), index + 1);
      MoreFalse(env, m, s, index, asg, k, ids, more);
      ids := if isForall then ids + more else ids * more;
      k := k + 1;
    }
    BlockFalse(env, m, s, index, asg, k, ids);
  }

  lemma PrefixFits(env: Setting, m: LS.Model)
    requires ModelFits(env, m)
    ensures |env.prefix.names| == |env.prefix.quantifiers| == |m.sizes|
  {
  }

  lemma TuplesLength(env: Setting, m: LS.Model, i: nat)
    requires ModelFits(env, m) && i < |env.prefix.names|
    ensures |Tuples(env, m, i)| > 0
    ensures forall k | 0 <= k < |Tuples(env, m, i)| :: |Tuples(env, m, i)[k]| == |env.prefix.names[i]|
  {
    TuplesShape(env, m, i);
    hide Tuples;
    forall k | 0 <= k < |Tuples(env, m, i)| ensures |Tuples(env, m, i)[k]| == |env.prefix.names[i]| {
      assert Tuples(env, m, i)[k] in Tuples(env, m, i);
    }
  }

  ghost predicate InBlock(env: Setting, m: LS.Model, i: nat, k: nat) {
    && ModelFits(env, m) && i < |env.prefix.names| && k <= |Tuples(env, m, i)|
    && forall j | 0 <= j < |Tuples(env, m, i)| :: |Tuples(env, m, i)[j]| == |env.prefix.names[i]|
  }

  function Extended(env: Setting, m: LS.Model, i: nat, asg: Assignment, j: nat): Assignment
    requires i < |env.prefix.names| && i < |m.sizes| && j < |Tuples(env, m, i)| && |Tuples(env, m, i)[j]| == |env.prefix.names[i]|
  {
    Q.Assign(asg, env.prefix.names[i], Tuples(env, m, i)[j])
  }

  /** True under the first `k` tuples of a block. */
  ghost predicate AllFirst(env: Setting, m: LS.Model, e: Elem, i: nat, asg: Assignment, k: nat)
    requires InBlock(env, m, i, k)
  {
    forall j | 0 <= j < k :: TrueFrom(env, m, e, i + 1, Extended(env, m, i, asg, j))
  }

  ghost predicate NoneFirst(env: Setting, m: LS.Model, e: Elem, i: nat, asg: Assignment, k: nat)
    requires InBlock(env, m, i, k)
  {
    forall j | 0 <= j < k :: !TrueFrom(env, m, e, i + 1, Extended(env, m, i, asg, j))
  }

  lemma AllTuples(env: Setting, m: LS.Model, e: Elem, i: nat, asg: Assignment)
    requires InBlock(env, m, i, 0) && InBlock(env, m, i, |Tuples(env, m, i)|) && |env.prefix.quantifiers| == |env.prefix.names|
    requires env.prefix.quantifiers[i] == Forall
    ensures AllFirst(env, m, e, i, asg, |Tuples(env, m, i)|) <==> TrueFrom(env, m, e, i, asg)
  {
    TuplesShape(env, m, i);
    BlockTruth(env, m, e, i, asg);
    hide TrueFrom, Tuples;
    var tuples := Tuples(env, m, i);
    assert forall j | 0 <= j < |tuples| :: tuples[j] in tuples && Extended(env, m, i, asg, j) == Q.Assign(asg, env.prefix.names[i], tuples[j]);
  }

  /** An existential block is true exactly when one of the tuples makes the rest true. */
  lemma BlockByIndex(env: Setting, m: LS.Model, e: Elem, i: nat, asg: Assignment)
    requires InBlock(env, m, i, 0) && |env.prefix.quantifiers| == |env.prefix.names|
    requires env.prefix.quantifiers[i] == Exists
    ensures TrueFrom(env, m, e, i, asg)
      <==> exists j :: 0 <= j < |Tuples(env, m, i)| && TrueFrom(env, m, e, i + 1, Extended(env, m, i, asg, j))
  {
    TuplesShape(env, m, i);
    BlockTruth(env, m, e, i, asg);
    hide TrueFrom, Tuples;
    var tuples := Tuples(env, m, i);
    forall j | 0 <= j < |tuples| ensures Extended(env, m, i, asg, j) == Q.Assign(asg, env.prefix.names[i], tuples[j]) && tuples[j] in tuples {}
  }

  lemma SomeTuple(env: Setting, m: LS.Model, e: Elem, i: nat, asg: Assignment, k: nat)
    requires InBlock(env, m, i, k) && |env.prefix.quantifiers| == |env.prefix.names|
    requires env.prefix.quantifiers[i] == Exists
    ensures !NoneFirst(env, m, e, i, asg, k) ==> TrueFrom(env, m, e, i, asg)
    ensures k == |Tuples(env, m, i)| && NoneFirst(env, m, e, i, asg, k) ==> !TrueFrom(env, m, e, i, asg)
  {
    BlockByIndex(env, m, e, i, asg);
    hide TrueFrom, Tuples, Extended, Q.Proper;
  }

  ghost predicate FalseFirst(env: Setting, m: LS.Model, s: Store, i: nat, asg: Assignment, k: nat, ids: set<nat>)
    requires InBlock(env, m, i, k) && |env.prefix.quantifiers| == |env.prefix.names|
  {
    if env.prefix.quantifiers[i] == Forall then
      forall id :: id in ids <==> id in s.byId && !AllFirst(env, m, s.byId[id], i, asg, k)
    else
      forall id :: id in ids <==> id in s.byId && NoneFirst(env, m, s.byId[id], i, asg, k)
  }

  lemma FirstFalse(env: Setting, m: LS.Model, s: Store, i: nat, asg: Assignment, ids: set<nat>)
    requires InBlock(env, m, i, 1) && |env.prefix.quantifiers| == |env.prefix.names|
    requires FalseIds(env, m, s, i + 1, Extended(env, m, i, asg, 0), ids)
    ensures FalseFirst(env, m, s, i, asg, 1, ids)
  {
    hide TrueFrom, Tuples, Q.Proper, Extended;
  }

  lemma MoreFalse(env: Setting, m: LS.Model, s: Store, i: nat, asg: Assignment, k: nat, ids: set<nat>, more: set<nat>)
    requires InBlock(env, m, i, k + 1) && |env.prefix.quantifiers| == |env.prefix.names|
    requires FalseFirst(env, m, s, i, asg, k, ids)
    requires FalseIds(env, m, s, i + 1, Extended(env, m, i, asg, k), more)
    ensures FalseFirst(env, m, s, i, asg, k + 1, if env.prefix.quantifiers[i] == Forall then ids + more else ids * more)
  {
    hide TrueFrom, Tuples, Q.Proper, Extended;
  }

  lemma BlockFalse(env: Setting, m: LS.Model, s: Store, i: nat, asg: Assignment, k: nat, ids: set<nat>)
    requires InBlock(env, m, i, k) && |env.prefix.quantifiers| == |env.prefix.names|
    requires FalseFirst(env, m, s, i, asg, k, ids)
    requires k == |Tuples(env, m, i)| || (env.prefix.quantifiers[i] == Exists && ids == {})
    ensures FalseIds(env, m, s, i, asg, ids)
  {
    hide TrueFrom, Tuples, Q.Proper, Extended, AllFirst, NoneFirst;
    forall id | id in s.byId ensures id in ids <==> !TrueFrom(env, m, s.byId[id], i, asg) {
      if env.prefix.quantifiers[i] == Forall {
        AllTuples(env, m, s.byId[id], i, asg);
      } else {
        SomeTuple(env, m, s.byId[id], i, asg, k);
      }
    }
  }

  lemma EmptyFalse(env: Setting, m: LS.Model, s: Store, i: nat, asg: Assignment, ids: set<nat>)
    requires ModelFits(env, m) && i < |env.prefix.names| && env.prefix.names[i] == []
    requires FalseIds(env, m, s, i + 1, asg, ids)
    ensures FalseIds(env, m, s, i, asg, ids)
  {
    hide TrueFrom, Q.Proper;
    forall id | id in s.byId ensures TrueFrom(env, m, s.byId[id], i, asg) <==> TrueFrom(env, m, s.byId[id], i + 1, asg) {
      EmptyBlock(env, m, s.byId[id], i, asg);
    }
  }

  // When no assertion is tripped.

  /** The false body, whose weakenings are not screened. */
  predicate Bottom(env: Setting, e: Elem) {
    env.kind == Cnf && Has(e, FormOf(Cnf)) && ToBase(Cnf, e) == Base.Lists([[]])
  }

  /** The kinds whose weakenings are screened, but for those of the false body. */
  predicate Screens(env: Setting) {
    env.kind != Dnf || env.limits.nonUnit == 0
  }

  predicate HasBottom(env: Setting, es: set<Elem>) {
    exists e | e in es :: Bottom(env, e)
  }

  /** The false body is stored alone, if at all. */
  predicate BottomAlone(env: Setting, es: set<Elem>) {
    forall e | e in es && Bottom(env, e) :: es == {e}
  }

  ghost predicate IgnoredIn(env: Setting, ignore: seq<(set<Elem>, nat)>, b: Base)
    requires BaseFits(env.kind, b)
  {
    exists x, e :: x in ignore && e in x.0 && BodyOk(env, e) && Equivalent(ToElem(env.kind, b), e)
  }

  /** What a set to ignore stores is ignored, and leaving a body as it is is one of its permutations. */
  ghost predicate Plain(env: Setting) {
    && (forall ignore, b | BaseFits(env.kind, b) && IgnoredIn(env, ignore, b) :: env.ignored(ignore, b))
    && forall i, e | BodyOk(env, e) :: e in env.permuted(i, e)
  }

  ghost predicate Safe(env: Setting) {
    Screens(env) && Plain(env)
  }

  predicate NotIgnored(ignore: seq<(set<Elem>, nat)>, e: Elem) {
    forall x | x in ignore :: e !in x.0
  }

  /** Without an existential block before, the bodies to weaken are not in the store. */
  predicate Fitting(env: Setting, s: set<Elem>, toWeaken: set<Elem>, prevExists: bool) {
    BottomAlone(env, toWeaken) && (!prevExists ==> s !! toWeaken && (HasBottom(env, toWeaken) ==> s == {}))
  }

  /** A body is an old one or none of the ignored. */
  predicate NewOnes(env: Setting, s: set<Elem>, origin: set<Elem>, ignore: seq<(set<Elem>, nat)>, r: set<Elem>) {
    HasBottom(env, origin) || forall e | e in r :: e in s || e in origin || NotIgnored(ignore, e)
  }

  lemma BottomFalse(env: Setting, m: LS.Model, e: Elem, i: nat, asg: Assignment)
    requires ModelFits(env, m) && Bottom(env, e)
    ensures !TrueFrom(env, m, e, i, asg)
    decreases |env.prefix.names| - i
  {
    hide Truth, ToBase, ToElem, Has;
    if i >= |env.prefix.names| {
      ToElemTrue(Cnf, ToBase(Cnf, e), LS.Valuation(m, asg));
      assert [] in ToBase(Cnf, e).lists;
    } else {
      PrefixFits(env, m);
      TuplesLength(env, m, i);
      BlockTruth(env, m, e, i, asg);
      forall es | es in Tuples(env, m, i) ensures !TrueFrom(env, m, e, i + 1, Q.Assign(asg, env.prefix.names[i], es)) {
        BottomFalse(env, m, e, i + 1, Q.Assign(asg, env.prefix.names[i], es));
      }
      assert Tuples(env, m, i)[0] in Tuples(env, m, i);
    }
  }

  // Weakening one body.

  /** A base that follows from another, is true under the valuation, and has no new atoms but the
      allowed ones. */
  ghost predicate BaseWeaker(env: Setting, base: Base, v: nat -> bool, r: Base)
    requires BaseFits(env.kind, base)
  {
    && BaseFits(env.kind, r)
    && (forall w :: BaseTrue(env.kind, base, w) ==> BaseTrue(env.kind, r, w))
    && BaseTrue(env.kind, r, v)
    && forall l | InBase(l, r) :: l.atom in env.allowed || InBase(l, base)
  }

  lemma TrueCubeFits(allowed: seq<nat>, v: nat -> bool)
    ensures CubeTrue(TrueCube(allowed, v), v) && forall l | l in TrueCube(allowed, v) :: l.atom in allowed
  {
    var cube := TrueCube(allowed, v);
    forall l | l in cube ensures LitTrue(l, v) && l.atom in allowed {
      var i :| 0 <= i < |cube| && cube[i] == l;
    }
  }

  /** The weakenings of a base, by kind. */
  ghost predicate BaseWeakening(env: Setting, base: Base, v: nat -> bool, ignore: Base -> bool, r: Base)
    requires BaseFits(env.kind, base)
  {
    match env.kind
    case Cnf =>
      r.Lists? && CnfWeakening(base.lists, TrueCube(env.allowed, v), env.limits.clauses, env.limits.clauseSize, env.isEq,
                               (b: Lists) => ignore(Base.Lists(b)), r.lists)
    case Dnf =>
      r.Lists? && NaiveWeakening(base.lists, TrueCube(env.allowed, v), env.limits.cubes, env.limits.cubeSize, env.limits.nonUnit, env.isEq,
                                 (b: Lists) => ignore(Base.Lists(b)), r.lists)
    case PDnf =>
      r.Split? && Weakening(base.split, TrueCube(env.allowed, v), PDnfLimitsOf(env), env.isEq, env.mentions, r.split) && !ignore(r)
  }

  method WeakenBase(env: Setting, base: Base, v: nat -> bool, ignore: Base -> bool) returns (rs: seq<Base>)
    requires BaseFits(env.kind, base)
    ensures forall r :: r in rs <==> BaseWeakening(env, base, v, ignore, r)
    ensures forall r | r in rs :: BaseWeaker(env, base, v, r)
  {
    hide BaseWeaker, CnfTrue, DnfTrue, PDnfTrue, CubeTrue, Occurs, WeakenCnf, CnfWeakening, PDnfSound, DnfSound, Weakening, NaiveWeakening, NaiveWithin;
    var cube, limits := TrueCube(env.allowed, v), env.limits;
    match env.kind {
      case Cnf =>
        var weakened := CnfWeakenings(env, base, v, ignore);
        rs := AsLists(weakened);
        forall r | r in weakened ensures BaseWeaker(env, base, v, Base.Lists(r)) {
          CnfWeaker(env, base, v, (b: Lists) => ignore(Base.Lists(b)), r);
        }
        forall r ensures r in weakened <==> BaseWeakening(env, base, v, ignore, Base.Lists(r)) {
          WeakenCnfExact(base.lists, cube, limits.clauses, limits.clauseSize, env.isEq, (b: Lists) => ignore(Base.Lists(b)), r);
        }
      case Dnf =>
        var weakened := WeakenNaive(base.lists, cube, limits.cubes, limits.cubeSize, limits.nonUnit, env.isEq, (b: Lists) => ignore(Base.Lists(b)));
        rs := AsLists(weakened);
        forall r | r in weakened ensures BaseWeaker(env, base, v, Base.Lists(r)) {
          DnfWeaker(env, base, v, r);
        }
      case PDnf =>
        var weakened := WeakenPDnf(base.split, cube, PDnfLimitsOf(env), env.isEq, env.mentions,
                                   (b: PDnfBase) => ignore(Split(b)));
        rs := AsSplits(weakened);
        forall r | r in weakened ensures BaseWeaker(env, base, v, Split(r)) {
          PDnfWeaker(env, base, v, r);
        }
    }
  }

  /** The screened kinds return nothing ignored, but for the false body. */
  lemma ScreenedBase(env: Setting, base: Base, v: nat -> bool, ignore: Base -> bool, r: Base)
    requires BaseFits(env.kind, base) && BaseWeakening(env, base, v, ignore, r)
    requires Screens(env) && (env.kind == Cnf ==> base != Base.Lists([[]]))
    ensures !ignore(r)
  {
    hide NaiveWeakening, Weakening;
    match env.kind
    case Cnf =>
    case Dnf =>
      NaiveScreened(base.lists, TrueCube(env.allowed, v), env.limits.cubes, env.limits.cubeSize, env.isEq,
                    (b: Lists) => ignore(Base.Lists(b)), r.lists);
    case PDnf =>
  }

  function CnfWeakenings(env: Setting, base: Base, v: nat -> bool, ignore: Base -> bool): seq<Lists>
    requires base.Lists?
  {
    WeakenCnf(base.lists, TrueCube(env.allowed, v), env.limits.clauses, env.limits.clauseSize, env.isEq, (b: Lists) => ignore(Base.Lists(b)))
  }

  function PDnfLimitsOf(env: Setting): PDnfLimits {
    PDnfLimits(env.limits.cubes, env.limits.cubeSize, env.limits.nonUnit)
  }

  function AsLists(bs: seq<Lists>): (r: seq<Base>)
    ensures forall x :: x in r <==> x.Lists? && x.lists in bs
  {
    if bs == [] then [] else [Base.Lists(bs[0])] + AsLists(bs[1..])
  }

  function AsSplits(bs: seq<PDnfBase>): (r: seq<Base>)
    ensures forall x :: x in r <==> x.Split? && x.split in bs
  {
    if bs == [] then [] else [Split(bs[0])] + AsSplits(bs[1..])
  }

  lemma CnfWeaker(env: Setting, base: Base, v: nat -> bool, ignore: Lists -> bool, r: Lists)
    requires env.kind == Cnf && base.Lists?
    requires r in WeakenCnf(base.lists, TrueCube(env.allowed, v), env.limits.clauses, env.limits.clauseSize, env.isEq, ignore)
    ensures BaseWeaker(env, base, v, Base.Lists(r))
  {
    hide CnfTrue, CubeTrue, Occurs, WeakenCnf;
    TrueCubeFits(env.allowed, v);
    forall w: nat -> bool ensures CnfTrue(base.lists, w) ==> CnfTrue(r, w) {
      WeakenCnfSound(base.lists, TrueCube(env.allowed, v), env.limits.clauses, env.limits.clauseSize, env.isEq, ignore, r, w);
    }
    WeakenCnfSound(base.lists, TrueCube(env.allowed, v), env.limits.clauses, env.limits.clauseSize, env.isEq, ignore, r, v);
  }

  lemma DnfWeaker(env: Setting, base: Base, v: nat -> bool, r: Lists)
    requires env.kind == Dnf && base.Lists? && DnfSound(base.lists, TrueCube(env.allowed, v), r)
    ensures BaseWeaker(env, base, v, Base.Lists(r))
  {
    hide DnfTrue, CubeTrue, Occurs;
    TrueCubeFits(env.allowed, v);
  }

  lemma PDnfWeaker(env: Setting, base: Base, v: nat -> bool, r: PDnfBase)
    requires env.kind == PDnf && base.Split? && PDnfSound(base.split, TrueCube(env.allowed, v), r)
    ensures BaseWeaker(env, base, v, Split(r))
  {
    hide PDnfTrue, CubeTrue, Occurs;
    TrueCubeFits(env.allowed, v);
  }

  /** A stored form for a weaker base. */
  lemma WeakerForm(env: Setting, e: Elem, base: Base, v: nat -> bool, r: Base, raw: Elem, out: Elem)
    requires BodyOk(env, e) && BaseFits(env.kind, base) && ToElem(env.kind, base) == e && BaseWeaker(env, base, v, r)
    requires raw == ToElem(env.kind, r) && Has(raw, FormOf(env.kind)) && Has(out, FormOf(env.kind)) && Canonical(out)
    requires Equivalent(raw, out) && AtomsOf(out) <= AtomsOf(raw)
    ensures BodyOk(env, out) && Entails(e, out) && Truth(out, v)
  {
    hide Has, Canonical, Covers, Truth, ToElem, AtomsOf, BaseTrue, InBase;
    forall w | Truth(e, w) || w == v ensures Truth(out, w) {
      ToElemTrue(env.kind, base, w);
      ToElemTrue(env.kind, r, w);
      CoversImplies(raw, out, FormOf(env.kind), w);
    }
    var s := set x | x in env.allowed;
    assert AtomsOf(e) <= s;
    BaseAtoms(env.kind, base, s);
    BaseAtoms(env.kind, r, s);
  }

  ghost predicate Unignored(env: Setting, ignore: Base -> bool, e: Elem) {
    exists b :: BaseFits(env.kind, b) && !ignore(b) && Equivalent(ToElem(env.kind, b), e)
  }

  /** The canonical form of a base. */
  ghost predicate FormOfBase(env: Setting, b: Base, e: Elem) {
    BaseFits(env.kind, b) && Has(e, FormOf(env.kind)) && Canonical(e) && Equivalent(ToElem(env.kind, b), e)
  }

  ghost predicate BodyWeakening(env: Setting, o: Elem, v: nat -> bool, ignore: Base -> bool, e: Elem)
    requires Has(o, FormOf(env.kind))
  {
    exists b :: BaseWeakening(env, ToBase(env.kind, o), v, ignore, b) && FormOfBase(env, b, e)
  }

  lemma OneForm(env: Setting, b: Base, e: Elem, f: Elem)
    requires FormOfBase(env, b, e) && FormOfBase(env, b, f)
    ensures e == f
  {
    hide Has, Canonical, Covers, ToElem, Leq;
    var raw := ToElem(env.kind, b);
    ToElemTrue(env.kind, b, _ => true);
    CoversTransitive(e, raw, f, FormOf(env.kind));
    CoversTransitive(f, raw, e, FormOf(env.kind));
    CoversImpliesLeq(e, f, FormOf(env.kind));
    CoversImpliesLeq(f, e, FormOf(env.kind));
    LeqAntisymmetric(e, f, FormOf(env.kind));
  }

  /** The weakenings of a body: each follows from it and is true under the valuation. */
  method WeakenBody(env: Setting, e: Elem, v: nat -> bool, ignore: Base -> bool) returns (rs: set<Elem>)
    requires BodyOk(env, e)
    ensures Has(e, FormOf(env.kind)) && forall r :: r in rs <==> BodyWeakening(env, e, v, ignore, r)
    ensures forall r | r in rs :: BodyOk(env, r) && Entails(e, r) && Truth(r, v)
    ensures Screens(env) && !Bottom(env, e) ==> forall r | r in rs :: Unignored(env, ignore, r)
  {
    hide BodyOk, Entails, Truth, ToElem, BaseWeaker, Has, Canonical, Equivalent, BaseWeakening, Screens;
    BodyFits(env, e);
    var base := ToBase(env.kind, e);
    var weakened := WeakenBase(env, base, v, ignore);
    rs := {};
    for k := 0 to |weakened|
      invariant forall r | r in rs :: BodyOk(env, r) && Entails(e, r) && Truth(r, v)
      invariant Screens(env) && !Bottom(env, e) ==> forall r | r in rs :: Unignored(env, ignore, r)
      invariant forall r | r in rs :: BodyWeakening(env, e, v, ignore, r)
      invariant forall i | 0 <= i < k :: exists r :: r in rs && FormOfBase(env, weakened[i], r)
    {
      var r := weakened[k];
      assert r in weakened;
      assert BaseWeaker(env, base, v, r);
      WeakerFits(env, base, v, r);
      var raw := ToElem(env.kind, r);
      ToElemTrue(env.kind, r, v);
      var out := FromBase(raw, FormOf(env.kind));
      WeakerForm(env, e, base, v, r, raw, out);
      assert FormOfBase(env, r, out);
      if Screens(env) && !Bottom(env, e) {
        NotBottomBase(env, e);
        ScreenedBase(env, base, v, ignore, r);
        assert Unignored(env, ignore, out);
      }
      rs := rs + {out};
    }
    forall r | BodyWeakening(env, e, v, ignore, r) ensures r in rs {
      var b :| BaseWeakening(env, base, v, ignore, b) && FormOfBase(env, b, r);
      var i :| 0 <= i < |weakened| && weakened[i] == b;
      var out :| out in rs && FormOfBase(env, weakened[i], out);
      OneForm(env, b, r, out);
    }
  }

  lemma NotBottomBase(env: Setting, e: Elem)
    requires Has(e, FormOf(env.kind)) && !Bottom(env, e)
    ensures env.kind == Cnf ==> ToBase(env.kind, e) != Base.Lists([[]])
  {
    hide Has, ToBase;
  }

  lemma BodyFits(env: Setting, e: Elem)
    requires BodyOk(env, e)
    ensures Has(e, FormOf(env.kind))
  {
  }

  lemma WeakerFits(env: Setting, base: Base, v: nat -> bool, r: Base)
    requires BaseFits(env.kind, base) && BaseWeaker(env, base, v, r)
    ensures BaseFits(env.kind, r)
  {
  }

  // Changing a store.

  function Bodies(s: Store): set<Elem> {
    set id | id in s.byId :: s.byId[id]
  }

  /** A preorder in which a body is above all it subsumes, after a permutation of either. */
  ghost predicate Covering(env: Setting, stronger: (Elem, Elem) -> bool) {
    && (forall a :: stronger(a, a))
    && (forall a, b, c | stronger(a, b) && stronger(b, c) :: stronger(a, c))
    && (forall i, a, p, b | BodyOk(env, a) && BodyOk(env, b) && p in env.permuted(i, a) && Subsumes(p, b) :: stronger(a, b))
    && forall i, a, p, b | BodyOk(env, a) && BodyOk(env, b) && p in env.permuted(i, b) && Subsumes(a, p) :: stronger(a, b)
  }

  /** The same for the permutations of the blocks from one on. */
  ghost predicate CoveringAt(env: Setting, i: nat, stronger: (Elem, Elem) -> bool) {
    && (forall a :: stronger(a, a))
    && (forall a, b, c | stronger(a, b) && stronger(b, c) :: stronger(a, c))
    && (forall a, p, b | BodyOk(env, a) && BodyOk(env, b) && p in env.permuted(i, a) && Subsumes(p, b) :: stronger(a, b))
    && forall a, p, b | BodyOk(env, a) && BodyOk(env, b) && p in env.permuted(i, b) && Subsumes(a, p) :: stronger(a, b)
  }

  lemma CoversAt(env: Setting, i: nat, stronger: (Elem, Elem) -> bool)
    requires Covering(env, stronger)
    ensures CoveringAt(env, i, stronger)
  {
    hide BodyOk, Subsumes;
  }

  /** Something at least as strong is still stored. */
  ghost predicate Kept(stronger: (Elem, Elem) -> bool, s: Store, r: Store) {
    forall e | e in Bodies(s) :: Above(stronger, r, e)
  }

  ghost predicate Above(stronger: (Elem, Elem) -> bool, r: Store, e: Elem) {
    Below(stronger, Bodies(r), e)
  }

  /** One of the bodies is at least as strong. */
  ghost predicate Below(stronger: (Elem, Elem) -> bool, es: set<Elem>, e: Elem) {
    exists b | b in es :: stronger(b, e)
  }

  lemma KeptTrans(env: Setting, stronger: (Elem, Elem) -> bool, s: Store, t: Store, r: Store)
    requires Covering(env, stronger) && Kept(stronger, s, t) && Kept(stronger, t, r)
    ensures Kept(stronger, s, r)
  {
    hide Bodies, BodyOk, Subsumes;
    forall e | e in Bodies(s) ensures Above(stronger, r, e) {
      assert Above(stronger, t, e);
      var b :| b in Bodies(t) && stronger(b, e);
      assert Above(stronger, r, b);
      var c :| c in Bodies(r) && stronger(c, b);
      assert stronger(c, e);
    }
  }

  lemma InsertOk(env: Setting, s: Store, e: Elem)
    requires StoreOk(env, s) && BodyOk(env, e)
    ensures Insert(s, e).Some? <==> e !in Bodies(s)
    ensures Insert(s, e).Some? ==> StoreOk(env, Insert(s, e).value) && Bodies(Insert(s, e).value) == Bodies(s) + {e}
  {
    hide BodyOk;
    if Insert(s, e).Some? {
      var r := Insert(s, e).value;
      assert forall id | id in s.byId :: id in r.byId && r.byId[id] == s.byId[id];
      assert s.next in r.byId;
    }
  }

  lemma WithoutOk(env: Setting, s: Store, ids: set<nat>)
    requires StoreOk(env, s)
    ensures StoreOk(env, Without(s, ids)) && Bodies(Without(s, ids)) <= Bodies(s)
    ensures forall id | id in s.byId && id !in ids :: s.byId[id] in Bodies(Without(s, ids))
  {
    hide BodyOk;
    var r := Without(s, ids);
    assert forall id | id in r.byId :: r.byId[id] == s.byId[id];
    assert forall id | id in s.byId && id !in ids :: id in r.byId;
  }

  lemma OnlyOk(env: Setting, s: Store, ids: set<nat>)
    requires StoreOk(env, s)
    ensures StoreOk(env, OnlyIds(s, ids)) && Bodies(OnlyIds(s, ids)) <= Bodies(s)
  {
    hide BodyOk;
  }

  lemma BodiesOk(env: Setting, s: Store)
    requires StoreOk(env, s)
    ensures forall e | e in Bodies(s) :: BodyOk(env, e)
  {
    hide BodyOk;
  }

  ghost predicate AllOk(env: Setting, es: set<Elem>) {
    forall e | e in es :: BodyOk(env, e)
  }

  /** Some of the bodies, with one at least as strong as each, up to permutations of the blocks from one on. */
  ghost predicate Minimal(env: Setting, es: set<Elem>, kept: set<Elem>, permIndex: nat) {
    kept <= es && forall stronger, e | CoveringAt(env, permIndex, stronger) && e in es :: Below(stronger, kept, e)
  }

  /** Keep the bodies that no kept one subsumes. */
  method Minimized(env: Setting, es: set<Elem>, permIndex: nat) returns (r: Store)
    requires AllOk(env, es)
    ensures StoreOk(env, r) && Bodies(r) <= es && Minimal(env, es, Bodies(r), permIndex)
  {
    hide StoreOk, BodyOk, Bodies, Without, Insert, IsSubsumed, SubsumedIds, Minimal;
    r := EmptyStore;
    EmptyOk(env);
    NothingMinimal(env, permIndex);
    var todo := es;
    assert es - todo == {};
    while todo != {}
      invariant todo <= es && StoreOk(env, r) && Bodies(r) <= es - todo && Minimal(env, es - todo, Bodies(r), permIndex)
      decreases |todo|
    {
      var e :| e in todo;
      ghost var done := es - todo;
      todo := todo - {e};
      assert es - todo == done + {e};
      var ids := SubsumedIds(env, r, e, permIndex);
      WithoutOk(env, r, ids);
      InsertOk(env, Without(r, ids), e);
      assert InsertMinimized(env, r, e, permIndex).Some?;
      if IsSubsumed(env, r, e, permIndex) {
        MinimalSubsumed(env, r, done, e, permIndex);
      } else {
        MinimalInserted(env, r, done, e, permIndex);
      }
      r := InsertMinimized(env, r, e, permIndex).value;
    }
    assert es - todo == es;
  }

  lemma NothingMinimal(env: Setting, permIndex: nat)
    ensures Minimal(env, {}, {}, permIndex)
  {
    hide CoveringAt;
  }

  lemma MinimalSubsumed(env: Setting, r: Store, es: set<Elem>, e: Elem, permIndex: nat)
    requires StoreOk(env, r) && BodyOk(env, e) && Minimal(env, es, Bodies(r), permIndex) && Bodies(r) <= es && IsSubsumed(env, r, e, permIndex)
    ensures Minimal(env, es + {e}, Bodies(r), permIndex)
  {
    hide Bodies, BodyOk, Subsumes;
    var p, id :| p in env.permuted(permIndex, e) && id in r.byId && Subsumes(r.byId[id], p);
    HasBody(r, id);
    forall stronger: (Elem, Elem) -> bool, f | CoveringAt(env, permIndex, stronger) && f in es + {e} ensures Below(stronger, Bodies(r), f) {
      if f == e { assert stronger(r.byId[id], e); }
    }
  }

  lemma HasBody(s: Store, id: nat)
    requires id in s.byId
    ensures s.byId[id] in Bodies(s)
  {
  }

  lemma MinimalInserted(env: Setting, r: Store, es: set<Elem>, e: Elem, permIndex: nat)
    requires StoreOk(env, r) && BodyOk(env, e) && Minimal(env, es, Bodies(r), permIndex)
    ensures Minimal(env, es + {e}, Bodies(Without(r, SubsumedIds(env, r, e, permIndex))) + {e}, permIndex)
  {
    hide Bodies, BodyOk, Subsumes, Without, SubsumedIds, CoveringAt, StoreOk;
    var left := Bodies(Without(r, SubsumedIds(env, r, e, permIndex)));
    WithoutOk(env, r, SubsumedIds(env, r, e, permIndex));
    forall stronger: (Elem, Elem) -> bool, f | CoveringAt(env, permIndex, stronger) && f in es + {e} ensures Below(stronger, left + {e}, f) {
      if f == e {
        ReflexiveAt(env, permIndex, stronger, e);
        assert e in left + {e};
      } else {
        assert Below(stronger, Bodies(r), f);
        var b :| b in Bodies(r) && stronger(b, f);
        DroppedBelow(env, stronger, r, e, permIndex, b);
        if b in left {
          assert b in left + {e};
        } else {
          TransitiveAt(env, permIndex, stronger, e, b, f);
          assert e in left + {e};
        }
      }
    }
  }

  lemma ReflexiveAt(env: Setting, i: nat, stronger: (Elem, Elem) -> bool, a: Elem)
    requires CoveringAt(env, i, stronger)
    ensures stronger(a, a)
  {
    hide BodyOk, Subsumes;
  }

  lemma TransitiveAt(env: Setting, i: nat, stronger: (Elem, Elem) -> bool, a: Elem, b: Elem, c: Elem)
    requires CoveringAt(env, i, stronger) && stronger(a, b) && stronger(b, c)
    ensures stronger(a, c)
  {
    hide BodyOk, Subsumes;
  }

  lemma CoveringReflexive(env: Setting, stronger: (Elem, Elem) -> bool, a: Elem)
    requires Covering(env, stronger)
    ensures stronger(a, a)
  {
    hide BodyOk, Subsumes;
  }

  lemma CoveringTransitive(env: Setting, stronger: (Elem, Elem) -> bool, a: Elem, b: Elem, c: Elem)
    requires Covering(env, stronger) && stronger(a, b) && stronger(b, c)
    ensures stronger(a, c)
  {
    hide BodyOk, Subsumes;
  }

  lemma EmptyOk(env: Setting)
    ensures StoreOk(env, EmptyStore) && Bodies(EmptyStore) == {}
  {
  }

  /** Still stored, or below one of the bodies. */
  ghost predicate Replaced(stronger: (Elem, Elem) -> bool, r: Store, es: set<Elem>, e: Elem) {
    e in Bodies(r) || exists b | b in es :: stronger(b, e)
  }

  lemma DroppedBelow(env: Setting, stronger: (Elem, Elem) -> bool, s: Store, b: Elem, permIndex: nat, e: Elem)
    requires CoveringAt(env, permIndex, stronger) && StoreOk(env, s) && BodyOk(env, b) && e in Bodies(s)
    ensures stronger(b, e) || e in Bodies(Without(s, SubsumedIds(env, s, b, permIndex)))
  {
    hide Subsumes, Without;
    var ids := SubsumedIds(env, s, b, permIndex);
    WithoutOk(env, s, ids);
    hide BodyOk;
    var id :| id in s.byId && s.byId[id] == e;
    if id in ids {
      var p :| p in env.permuted(permIndex, b) && Subsumes(p, e);
      assert stronger(b, e);
    }
  }

  lemma DropsItself(env: Setting, s: Store, b: Elem, permIndex: nat)
    requires Safe(env) && StoreOk(env, s) && BodyOk(env, b)
    ensures b !in Bodies(Without(s, SubsumedIds(env, s, b, permIndex)))
  {
    hide Subsumes, IgnoredIn;
    SubsumesItself(env, b);
    hide BodyOk;
    assert b in env.permuted(permIndex, b);
  }

  lemma SubsumesItself(env: Setting, b: Elem)
    requires BodyOk(env, b)
    ensures Subsumes(b, b)
  {
    SubsumesExact(b, b, FormOf(env.kind));
    CoversReflexive(b);
  }

  /** What one of the bodies subsumes under a permutation. */
  predicate Dropped(env: Setting, es: set<Elem>, permIndex: nat, e: Elem) {
    exists b | b in es :: DropsOne(env, b, permIndex, e)
  }

  predicate DropsOne(env: Setting, b: Elem, permIndex: nat, e: Elem) {
    exists p | p in env.permuted(permIndex, b) :: Subsumes(p, e)
  }

  function Surviving(env: Setting, s: set<Elem>, es: set<Elem>, permIndex: nat): set<Elem> {
    set e | e in s && !Dropped(env, es, permIndex, e)
  }

  lemma WithoutSurvives(env: Setting, s: Store, b: Elem, permIndex: nat)
    requires StoreOk(env, s)
    ensures Bodies(Without(s, SubsumedIds(env, s, b, permIndex))) == Surviving(env, Bodies(s), {b}, permIndex)
  {
    hide Subsumes, BodyOk;
    var ids := SubsumedIds(env, s, b, permIndex);
    var r := Without(s, ids);
    forall id | id in s.byId ensures id in ids <==> Dropped(env, {b}, permIndex, s.byId[id]) {}
    assert forall id | id in r.byId :: id in s.byId && r.byId[id] == s.byId[id];
    assert forall id | id in s.byId && id !in ids :: id in r.byId;
  }

  lemma SurvivingMore(env: Setting, s: set<Elem>, es: set<Elem>, b: Elem, permIndex: nat)
    ensures Surviving(env, Surviving(env, s, es, permIndex), {b}, permIndex) == Surviving(env, s, es + {b}, permIndex)
  {
    hide DropsOne;
    forall e ensures Dropped(env, es + {b}, permIndex, e) <==> Dropped(env, es, permIndex, e) || Dropped(env, {b}, permIndex, e) {
      assert b in es + {b} && b in {b};
    }
  }

  lemma NoneDropped(env: Setting, s: set<Elem>, permIndex: nat)
    ensures Surviving(env, s, {}, permIndex) == s
  {
    hide DropsOne;
  }

  method RemoveSubsumed(env: Setting, s: Store, es: set<Elem>, permIndex: nat, ghost stronger: (Elem, Elem) -> bool) returns (r: Store)
    requires Covering(env, stronger) && StoreOk(env, s) && AllOk(env, es)
    ensures StoreOk(env, r) && Bodies(r) == Surviving(env, Bodies(s), es, permIndex) <= Bodies(s)
    ensures forall e | e in Bodies(s) :: Replaced(stronger, r, es, e)
    ensures Safe(env) ==> Bodies(r) !! es
  {
    hide StoreOk, BodyOk, Bodies, Without, SubsumedIds, Covering, Safe, Surviving;
    r := s;
    var todo := es;
    NoneDropped(env, Bodies(s), permIndex);
    assert es - todo == {};
    while todo != {}
      invariant todo <= es && StoreOk(env, r) && Bodies(r) <= Bodies(s)
      invariant Bodies(r) == Surviving(env, Bodies(s), es - todo, permIndex)
      invariant Safe(env) ==> Bodies(r) !! es - todo
      invariant forall e | e in Bodies(s) :: Replaced(stronger, r, es, e)
      decreases |todo|
    {
      var b :| b in todo;
      WithoutSurvives(env, r, b, permIndex);
      SurvivingMore(env, Bodies(s), es - todo, b, permIndex);
      assert es - (todo - {b}) == (es - todo) + {b};
      todo := todo - {b};
      var next := Without(r, SubsumedIds(env, r, b, permIndex));
      WithoutOk(env, r, SubsumedIds(env, r, b, permIndex));
      forall e | e in Bodies(s) ensures Replaced(stronger, next, es, e) {
        assert Replaced(stronger, r, es, e);
        if e in Bodies(r) { CoversAt(env, permIndex, stronger); DroppedBelow(env, stronger, r, b, permIndex, e); }
      }
      if Safe(env) { DropsItself(env, r, b, permIndex); }
      r := next;
    }
    assert es - todo == es;
  }

  method InsertAll(env: Setting, s: Store, es: set<Elem>) returns (r: Option<Store>)
    requires StoreOk(env, s) && AllOk(env, es)
    ensures r.Some? ==> StoreOk(env, r.value) && Bodies(r.value) == Bodies(s) + es
    ensures r.None? <==> !(Bodies(s) !! es)
  {
    hide StoreOk, BodyOk, Bodies, Insert;
    var t, todo := s, es;
    while todo != {}
      invariant todo <= es && StoreOk(env, t) && Bodies(t) == Bodies(s) + (es - todo) && Bodies(s) !! es - todo
      decreases |todo|
    {
      var e :| e in todo;
      InsertOk(env, t, e);
      if Insert(t, e).None? { return None; }
      t := Insert(t, e).value;
      todo := todo - {e};
    }
    return Some(t);
  }

  lemma KeptByInsertion(env: Setting, stronger: (Elem, Elem) -> bool, s: Store, t: Store, es: set<Elem>, r: Store)
    requires Covering(env, stronger) && forall e | e in Bodies(s) :: Replaced(stronger, t, es, e)
    requires Bodies(r) == Bodies(t) + es
    ensures Kept(stronger, s, r)
  {
    hide Bodies, BodyOk, Subsumes;
    forall e | e in Bodies(s) ensures Above(stronger, r, e) {
      assert Replaced(stronger, t, es, e);
      if e in Bodies(t) { assert stronger(e, e); }
    }
  }

  lemma KeptAll(env: Setting, stronger: (Elem, Elem) -> bool, s: Store, r: Store)
    requires Covering(env, stronger) && Bodies(s) <= Bodies(r)
    ensures Kept(stronger, s, r)
  {
    hide Bodies, BodyOk, Subsumes;
    forall e | e in Bodies(s) ensures Above(stronger, r, e) { assert stronger(e, e); }
  }

  // What weakening can come to, on the sets of stored bodies.  Where bodies subsume each other, which one
  // is kept depends on the order they are taken in.

  ghost predicate AllWeakenings(env: Setting, w: set<Elem>, v: nat -> bool, ignore: seq<(set<Elem>, nat)>, es: set<Elem>) {
    forall e :: e in es <==> SomeWeakening(env, w, v, ignore, e)
  }

  ghost predicate SomeWeakening(env: Setting, w: set<Elem>, v: nat -> bool, ignore: seq<(set<Elem>, nat)>, e: Elem) {
    exists o | o in w :: LeafWeakening(env, o, v, ignore, e)
  }

  ghost predicate LeafWeakening(env: Setting, o: Elem, v: nat -> bool, ignore: seq<(set<Elem>, nat)>, e: Elem) {
    Has(o, FormOf(env.kind)) && BodyWeakening(env, o, v, (b: Base) => env.ignored(ignore, b), e)
  }

  /** Under a full assignment. */
  ghost predicate LeafOutcome(env: Setting, s: set<Elem>, w: set<Elem>, v: nat -> bool, permIndex: nat, prevExists: bool,
                              ignore: seq<(set<Elem>, nat)>, r: Option<set<Elem>>) {
    exists es, kept: set<Elem> ::
      AllWeakenings(env, w, v, ignore + [(s, permIndex)], es) && Minimal(env, es, kept, permIndex) && r == Merged(env, s, kept, permIndex, prevExists && s != {})
  }

  /** The bodies that are false from a block on. */
  ghost function FalseOf(env: Setting, m: LS.Model, es: set<Elem>, i: nat, asg: Assignment): set<Elem>
    requires ModelFits(env, m)
  {
    set e | e in es && !TrueFrom(env, m, e, i, asg)
  }

  ghost predicate Outcome(env: Setting, m: LS.Model, s: set<Elem>, w: set<Elem>, asg: Assignment, index: nat, permIndex: nat, prevExists: bool,
                          ignore: seq<(set<Elem>, nat)>, r: Option<set<Elem>>)
    requires ModelFits(env, m) && |env.prefix.quantifiers| == |env.prefix.names| && index <= |env.prefix.names|
    decreases |env.prefix.names| - index, 2, 0
  {
    if w == {} then r == Some(s)
    else if index == |env.prefix.names| then LeafOutcome(env, s, w, LS.Valuation(m, asg), permIndex, prevExists, ignore, r)
    else if env.prefix.names[index] == [] then Outcome(env, m, s, w, asg, index + 1, permIndex, prevExists, ignore, r)
    else if env.prefix.quantifiers[index] == Forall then
      exists t ::
        ForallOutcome(env, m, w, asg, index, 0, if prevExists then index else permIndex, ignore + [(s, permIndex)], t)
        && MergeOutcome(env, s, t, permIndex, prevExists, r)
    else ExistsOutcome(env, m, s, w, asg, index, 0, permIndex, ignore, r)
  }

  /** The rest of the tuples of a universal block, each of which weakens what it falsifies. */
  ghost predicate ForallOutcome(env: Setting, m: LS.Model, t: set<Elem>, asg: Assignment, index: nat, k: nat, permIndex: nat,
                                ignore: seq<(set<Elem>, nat)>, r: Option<set<Elem>>)
    requires ModelFits(env, m) && |env.prefix.quantifiers| == |env.prefix.names| && index < |env.prefix.names|
    decreases |env.prefix.names| - index, 1, |Tuples(env, m, index)| - k
  {
    if k >= |Tuples(env, m, index)| then r == Some(t)
    else
      TuplesLength(env, m, index);
      var asg' := Extended(env, m, index, asg, k);
      var wrong := FalseOf(env, m, t, index + 1, asg');
      exists more ::
        && Outcome(env, m, t - wrong, wrong, asg', index + 1, permIndex, false, ignore, more)
        && if more.None? then r == None else ForallOutcome(env, m, more.value, asg, index, k + 1, permIndex, ignore, r)
  }

  /** The rest of the tuples of an existential block, each of which weakens everything. */
  ghost predicate ExistsOutcome(env: Setting, m: LS.Model, s: set<Elem>, w: set<Elem>, asg: Assignment, index: nat, k: nat, permIndex: nat,
                                ignore: seq<(set<Elem>, nat)>, r: Option<set<Elem>>)
    requires ModelFits(env, m) && |env.prefix.quantifiers| == |env.prefix.names| && index < |env.prefix.names|
    decreases |env.prefix.names| - index, 1, |Tuples(env, m, index)| - k
  {
    if k >= |Tuples(env, m, index)| then r == Some(s)
    else
      TuplesLength(env, m, index);
      exists more ::
        && Outcome(env, m, s, w, Extended(env, m, index, asg, k), index + 1, permIndex, true, ignore, more)
        && if more.None? then r == None else ExistsOutcome(env, m, more.value, w, asg, index, k + 1, permIndex, ignore, r)
  }

  /** After a universal block. */
  ghost predicate MergeOutcome(env: Setting, s: set<Elem>, t: Option<set<Elem>>, permIndex: nat, prevExists: bool, r: Option<set<Elem>>) {
    if t.None? then r == None
    else if prevExists then exists kept: set<Elem> :: Minimal(env, t.value, kept, permIndex) && r == Merged(env, s, kept, permIndex, true)
    else r == Merged(env, s, t.value, permIndex, false)
  }

  lemma SplitBodies(env: Setting, m: LS.Model, s: Store, ids: set<nat>, i: nat, asg: Assignment)
    requires ModelFits(env, m) && StoreOk(env, s) && FalseIds(env, m, s, i, asg, ids)
    ensures Bodies(OnlyIds(s, ids)) == FalseOf(env, m, Bodies(s), i, asg)
    ensures Bodies(Without(s, ids)) == Bodies(s) - FalseOf(env, m, Bodies(s), i, asg)
  {
    hide TrueFrom, BodyOk, ModelFits;
    assert forall id | id in s.byId && id in ids :: OnlyIds(s, ids).byId[id] == s.byId[id];
    assert forall id | id in s.byId && id !in ids :: Without(s, ids).byId[id] == s.byId[id];
  }

  lemma FoldLeaf(env: Setting, m: LS.Model, s: set<Elem>, w: set<Elem>, asg: Assignment, permIndex: nat, prevExists: bool,
                 ignore: seq<(set<Elem>, nat)>, es: set<Elem>, kept: set<Elem>, r: Option<set<Elem>>)
    requires ModelFits(env, m) && |env.prefix.quantifiers| == |env.prefix.names| && w != {}
    requires AllWeakenings(env, w, LS.Valuation(m, asg), ignore + [(s, permIndex)], es) && Minimal(env, es, kept, permIndex)
    requires r == Merged(env, s, kept, permIndex, prevExists && s != {})
    ensures Outcome(env, m, s, w, asg, |env.prefix.names|, permIndex, prevExists, ignore, r)
  {
    hide AllWeakenings, Minimal, Merged, ModelFits;
    assert LeafOutcome(env, s, w, LS.Valuation(m, asg), permIndex, prevExists, ignore, r);
  }

  lemma FoldForall(env: Setting, m: LS.Model, s: set<Elem>, w: set<Elem>, asg: Assignment, index: nat, permIndex: nat, prevExists: bool,
                   ignore: seq<(set<Elem>, nat)>, t: Option<set<Elem>>, r: Option<set<Elem>>)
    requires ModelFits(env, m) && |env.prefix.quantifiers| == |env.prefix.names| && index < |env.prefix.names| && w != {}
    requires env.prefix.names[index] != [] && env.prefix.quantifiers[index] == Forall
    requires ForallOutcome(env, m, w, asg, index, 0, if prevExists then index else permIndex, ignore + [(s, permIndex)], t)
    requires MergeOutcome(env, s, t, permIndex, prevExists, r)
    ensures Outcome(env, m, s, w, asg, index, permIndex, prevExists, ignore, r)
  {
    hide ForallOutcome, MergeOutcome, ModelFits;
  }

  lemma FoldExists(env: Setting, m: LS.Model, s: set<Elem>, w: set<Elem>, asg: Assignment, index: nat, permIndex: nat, prevExists: bool,
                   ignore: seq<(set<Elem>, nat)>, r: Option<set<Elem>>)
    requires ModelFits(env, m) && |env.prefix.quantifiers| == |env.prefix.names| && index < |env.prefix.names| && w != {}
    requires env.prefix.names[index] != [] && env.prefix.quantifiers[index] == Exists
    requires ExistsOutcome(env, m, s, w, asg, index, 0, permIndex, ignore, r)
    ensures Outcome(env, m, s, w, asg, index, permIndex, prevExists, ignore, r)
  {
    hide ExistsOutcome, ModelFits;
  }

  lemma FoldEmpty(env: Setting, m: LS.Model, s: set<Elem>, w: set<Elem>, asg: Assignment, index: nat, permIndex: nat, prevExists: bool,
                  ignore: seq<(set<Elem>, nat)>, r: Option<set<Elem>>)
    requires ModelFits(env, m) && |env.prefix.quantifiers| == |env.prefix.names| && index < |env.prefix.names| && w != {}
    requires env.prefix.names[index] == [] && Outcome(env, m, s, w, asg, index + 1, permIndex, prevExists, ignore, r)
    ensures Outcome(env, m, s, w, asg, index, permIndex, prevExists, ignore, r)
  {
    hide ModelFits;
  }

  lemma FoldNothing(env: Setting, m: LS.Model, s: set<Elem>, asg: Assignment, index: nat, permIndex: nat, prevExists: bool,
                    ignore: seq<(set<Elem>, nat)>)
    requires ModelFits(env, m) && |env.prefix.quantifiers| == |env.prefix.names| && index <= |env.prefix.names|
    ensures Outcome(env, m, s, {}, asg, index, permIndex, prevExists, ignore, Some(s))
  {
    hide ModelFits;
  }

  /** One more tuple of a universal block, towards any end of the rest. */
  lemma ForallContinues(env: Setting, m: LS.Model, t: set<Elem>, asg: Assignment, index: nat, k: nat, permIndex: nat,
                        ignore: seq<(set<Elem>, nat)>, more: Option<set<Elem>>)
    requires InBlock(env, m, index, k + 1) && |env.prefix.quantifiers| == |env.prefix.names| && index < |m.sizes| && k < |Tuples(env, m, index)|
    requires var asg' := Extended(env, m, index, asg, k); var wrong := FalseOf(env, m, t, index + 1, asg');
             Outcome(env, m, t - wrong, wrong, asg', index + 1, permIndex, false, ignore, more)
    ensures more.None? ==> ForallOutcome(env, m, t, asg, index, k, permIndex, ignore, None)
    ensures more.Some? ==> forall r | ForallOutcome(env, m, more.value, asg, index, k + 1, permIndex, ignore, r) ::
      ForallOutcome(env, m, t, asg, index, k, permIndex, ignore, r)
  {
    hide Outcome, FalseOf, Tuples, ModelFits, Extended;
  }

  lemma ExistsContinues(env: Setting, m: LS.Model, s: set<Elem>, w: set<Elem>, asg: Assignment, index: nat, k: nat, permIndex: nat,
                        ignore: seq<(set<Elem>, nat)>, more: Option<set<Elem>>)
    requires InBlock(env, m, index, k + 1) && |env.prefix.quantifiers| == |env.prefix.names| && index < |m.sizes| && k < |Tuples(env, m, index)|
    requires Outcome(env, m, s, w, Extended(env, m, index, asg, k), index + 1, permIndex, true, ignore, more)
    ensures more.None? ==> ExistsOutcome(env, m, s, w, asg, index, k, permIndex, ignore, None)
    ensures more.Some? ==> forall r | ExistsOutcome(env, m, more.value, w, asg, index, k + 1, permIndex, ignore, r) ::
      ExistsOutcome(env, m, s, w, asg, index, k, permIndex, ignore, r)
  {
    hide Outcome, Tuples, ModelFits, Extended;
  }

  lemma BlockEnds(env: Setting, m: LS.Model, t: set<Elem>, w: set<Elem>, asg: Assignment, index: nat, permIndex: nat, ignore: seq<(set<Elem>, nat)>)
    requires InBlock(env, m, index, 0) && |env.prefix.quantifiers| == |env.prefix.names|
    ensures ForallOutcome(env, m, t, asg, index, |Tuples(env, m, index)|, permIndex, ignore, Some(t))
    ensures ExistsOutcome(env, m, t, w, asg, index, |Tuples(env, m, index)|, permIndex, ignore, Some(t))
  {
    hide Outcome, Tuples, ModelFits;
  }

  lemma FoldMinimal(env: Setting, s: set<Elem>, t: set<Elem>, kept: set<Elem>, permIndex: nat)
    requires Minimal(env, t, kept, permIndex)
    ensures MergeOutcome(env, s, Some(t), permIndex, true, Merged(env, s, kept, permIndex, true))
  {
    hide Minimal, Merged;
  }

  lemma FoldMerged(env: Setting, s: set<Elem>, t: set<Elem>, permIndex: nat)
    ensures MergeOutcome(env, s, Some(t), permIndex, false, Merged(env, s, t, permIndex, false))
    ensures forall prevExists :: MergeOutcome(env, s, None, permIndex, prevExists, None)
  {
    hide Minimal, Merged;
  }

  lemma FoldWeakenings(env: Setting, w: set<Elem>, v: nat -> bool, ignore: seq<(set<Elem>, nat)>, es: set<Elem>)
    requires forall e | e in es :: SomeWeakening(env, w, v, ignore, e)
    requires forall e | SomeWeakening(env, w, v, ignore, e) :: e in es
    ensures AllWeakenings(env, w, v, ignore, es)
  {
    hide SomeWeakening;
  }

  // Weakening a set of lemmas.

  /** Follows from one of the bodies, and is true from a block on. */
  ghost predicate Weakened(env: Setting, m: LS.Model, origin: set<Elem>, i: nat, asg: Assignment, e: Elem)
    requires ModelFits(env, m)
  {
    TrueFrom(env, m, e, i, asg) && Follows(origin, e)
  }

  ghost predicate Follows(origin: set<Elem>, e: Elem) {
    exists o | o in origin :: Entails(o, e)
  }

  /** The new store has the old bodies and weakenings, and nothing is lost of the old store. */
  ghost predicate Added(env: Setting, stronger: (Elem, Elem) -> bool, m: LS.Model, s: Store, origin: set<Elem>, i: nat, asg: Assignment,
                        r: Store)
    requires ModelFits(env, m)
  {
    && StoreOk(env, r) && Kept(stronger, s, r)
    && forall e | e in Bodies(r) :: e in Bodies(s) || Weakened(env, m, origin, i, asg, e)
  }

  function OptionalBodies(r: Option<Store>): Option<set<Elem>> {
    if r.Some? then Some(Bodies(r.value)) else None
  }

  /** New bodies in place of what they subsume, or beside it; nothing when one is stored already. */
  function Merged(env: Setting, s: set<Elem>, es: set<Elem>, permIndex: nat, replace: bool): Option<set<Elem>> {
    var left := if replace then Surviving(env, s, es, permIndex) else s;
    if left !! es then Some(left + es) else None
  }

  /** Replace what new bodies subsume, if asked to, and insert them. */
  method Merge(env: Setting, s: Store, es: set<Elem>, permIndex: nat, replace: bool, m: LS.Model, asg: Assignment, index: nat,
               ghost origin: set<Elem>, ghost stronger: (Elem, Elem) -> bool) returns (r: Option<Store>)
    requires ModelFits(env, m) && Covering(env, stronger) && StoreOk(env, s) && AllOk(env, es)
    requires forall e | e in es :: Weakened(env, m, origin, index, asg, e)
    ensures r.Some? ==> Added(env, stronger, m, s, origin, index, asg, r.value) && Bodies(r.value) <= Bodies(s) + es
    ensures Bodies(s) !! es || (replace && Safe(env)) ==> r.Some?
    ensures OptionalBodies(r) == Merged(env, Bodies(s), es, permIndex, replace)
  {
    hide StoreOk, BodyOk, Bodies, Weakened, Covering, ModelFits, Kept, AllOk, Replaced, Safe, Surviving;
    var t := s;
    if replace { t := RemoveSubsumed(env, s, es, permIndex, stronger); }
    r := InsertAll(env, t, es);
    if r.Some? {
      if replace { KeptByInsertion(env, stronger, s, t, es, r.value); } else { KeptAll(env, stronger, s, r.value); }
    }
  }

  method WeakenLeaf(env: Setting, s: Store, toWeaken: Store, m: LS.Model, asg: Assignment, permIndex: nat, prevExists: bool,
                    ignore: seq<(set<Elem>, nat)>, ghost stronger: (Elem, Elem) -> bool) returns (r: Option<Store>)
    requires ModelFits(env, m) && Covering(env, stronger) && StoreOk(env, s) && StoreOk(env, toWeaken)
    ensures r.Some? ==> Added(env, stronger, m, s, Bodies(toWeaken), |env.prefix.names|, asg, r.value)
    ensures |env.prefix.quantifiers| == |env.prefix.names|
    ensures Bodies(toWeaken) != {} ==>
      Outcome(env, m, Bodies(s), Bodies(toWeaken), asg, |env.prefix.names|, permIndex, prevExists, ignore, OptionalBodies(r))
    ensures Safe(env) && Fitting(env, Bodies(s), Bodies(toWeaken), prevExists) ==>
      r.Some? && NewOnes(env, Bodies(s), Bodies(toWeaken), ignore, Bodies(r.value))
  {
    hide StoreOk, BodyOk, Bodies, Covering, ModelFits, Entails, Truth, TrueFrom, Added, Safe, Bottom, Unignored, NotIgnored, Screens, BodyWeakening;
    hide Outcome, Minimal, Merged, AllWeakenings;
    PrefixFits(env, m);
    var newIgnore := ignore + [(Bodies(s), permIndex)];
    var v, origin := LS.Valuation(m, asg), Bodies(toWeaken);
    BodiesOk(env, toWeaken);
    var weakened, todo := {}, origin;
    while todo != {}
      invariant todo <= origin
      invariant AllOk(env, weakened) && forall e | e in weakened :: Weakened(env, m, origin, |env.prefix.names|, asg, e)
      invariant Safe(env) && !HasBottom(env, origin) ==> forall e | e in weakened :: NotIgnored(newIgnore, e)
      invariant forall e | e in weakened :: SomeWeakening(env, origin, v, newIgnore, e)
      invariant forall o, e | o in origin && o !in todo && LeafWeakening(env, o, v, newIgnore, e) :: e in weakened
      decreases |todo|
    {
      var o :| o in todo;
      todo := todo - {o};
      var more := WeakenBody(env, o, v, (b: Base) => env.ignored(newIgnore, b));
      forall e | e in more ensures Weakened(env, m, origin, |env.prefix.names|, asg, e) { LeafTrue(env, m, e, asg); }
      forall e | LeafWeakening(env, o, v, newIgnore, e) ensures e in more {}
      forall e | e in more ensures SomeWeakening(env, origin, v, newIgnore, e) { assert o in origin; }
      if Safe(env) && !HasBottom(env, origin) {
        SafeScreens(env);
        assert !Bottom(env, o);
        forall e | e in more ensures NotIgnored(newIgnore, e) { ScreenedNew(env, newIgnore, e); }
      }
      weakened := weakened + more;
    }
    forall e | SomeWeakening(env, origin, v, newIgnore, e) ensures e in weakened {
      var o :| o in origin && LeafWeakening(env, o, v, newIgnore, e);
    }
    FoldWeakenings(env, origin, v, newIgnore, weakened);
    var minimal := Minimized(env, weakened, permIndex);
    BodiesOk(env, minimal);
    NoneStored(s);
    if Safe(env) && !HasBottom(env, origin) { NotIgnoredLast(ignore, Bodies(s), permIndex, Bodies(minimal)); }
    r := Merge(env, s, Bodies(minimal), permIndex, prevExists && s.byId != map[], m, asg, |env.prefix.names|, origin, stronger);
    if origin != {} {
      FoldLeaf(env, m, Bodies(s), origin, asg, permIndex, prevExists, ignore, weakened, Bodies(minimal), OptionalBodies(r));
    }
  }

  lemma SafeScreens(env: Setting)
    requires Safe(env)
    ensures Screens(env)
  {
  }

  lemma NoneStored(s: Store)
    ensures s.byId == map[] <==> Bodies(s) == {}
  {
    if s.byId != map[] {
      var id :| id in s.byId;
      assert s.byId[id] in Bodies(s);
    }
  }

  lemma ScreenedNew(env: Setting, ignore: seq<(set<Elem>, nat)>, e: Elem)
    requires Safe(env) && BodyOk(env, e) && Unignored(env, (b: Base) => env.ignored(ignore, b), e)
    ensures NotIgnored(ignore, e)
  {
    hide Equivalent, ToElem, Bodies, BodyOk, Safe;
    var b :| BaseFits(env.kind, b) && !env.ignored(ignore, b) && Equivalent(ToElem(env.kind, b), e);
    forall x | x in ignore ensures e !in x.0 {
      if e in x.0 { StoredIgnored(env, ignore, b, x, e); }
    }
  }

  lemma StoredIgnored(env: Setting, ignore: seq<(set<Elem>, nat)>, b: Base, x: (set<Elem>, nat), e: Elem)
    requires Safe(env) && BaseFits(env.kind, b) && x in ignore && e in x.0 && BodyOk(env, e) && Equivalent(ToElem(env.kind, b), e)
    ensures env.ignored(ignore, b)
  {
    hide Equivalent, ToElem, Bodies, BodyOk;
    assert IgnoredIn(env, ignore, b);
  }

  lemma NotIgnoredLast(ignore: seq<(set<Elem>, nat)>, s: set<Elem>, permIndex: nat, es: set<Elem>)
    requires forall e | e in es :: NotIgnored(ignore + [(s, permIndex)], e)
    ensures s !! es && forall e | e in es :: NotIgnored(ignore, e)
  {
    var all := ignore + [(s, permIndex)];
    assert all[|ignore|] == (s, permIndex) && (s, permIndex) in all;
    assert forall x | x in ignore :: x in all;
  }

  /** While a universal block is run through: bodies that follow from the original ones and are true
      under the tuples so far. */
  ghost predicate Progress(env: Setting, m: LS.Model, origin: set<Elem>, i: nat, asg: Assignment, k: nat, t: Store)
    requires InBlock(env, m, i, k)
  {
    StoreOk(env, t) && forall e | e in Bodies(t) :: AllFirst(env, m, e, i, asg, k) && Follows(origin, e)
  }

  lemma FollowsTrue(env: Setting, m: LS.Model, o: Elem, e: Elem, i: nat, asg: Assignment, k: nat)
    requires InBlock(env, m, i, k) && Entails(o, e) && AllFirst(env, m, o, i, asg, k)
    ensures AllFirst(env, m, e, i, asg, k)
  {
    PrefixFits(env, m);
    hide Entails, TrueFrom, ModelFits, Tuples, Extended;
    forall j | 0 <= j < k ensures TrueFrom(env, m, e, i + 1, Extended(env, m, i, asg, j)) {
      EntailsTruth(env, m, o, e, i + 1, Extended(env, m, i, asg, j));
    }
  }

  lemma EntailsTrans(a: Elem, b: Elem, c: Elem)
    requires Entails(a, b) && Entails(b, c)
    ensures Entails(a, c)
  {
    hide Truth;
  }

  lemma ProgressStep(env: Setting, m: LS.Model, origin: set<Elem>, i: nat, asg: Assignment, k: nat, t: Store, ids: set<nat>,
                     stronger: (Elem, Elem) -> bool, r: Store)
    requires InBlock(env, m, i, k + 1) && Progress(env, m, origin, i, asg, k, t)
    requires FalseIds(env, m, t, i + 1, Extended(env, m, i, asg, k), ids)
    requires Added(env, stronger, m, Without(t, ids), Bodies(OnlyIds(t, ids)), i + 1, Extended(env, m, i, asg, k), r)
    ensures Progress(env, m, origin, i, asg, k + 1, r)
  {
    PrefixFits(env, m);
    hide Entails, TrueFrom, ModelFits, Tuples, Extended, BodyOk, Kept;
    WithoutOk(env, t, ids);
    OnlyOk(env, t, ids);
    forall e | e in Bodies(r) ensures AllFirst(env, m, e, i, asg, k + 1) && Follows(origin, e) {
      if e in Bodies(Without(t, ids)) {
        var id :| id in Without(t, ids).byId && Without(t, ids).byId[id] == e;
        assert id in t.byId && id !in ids;
      } else {
        assert Weakened(env, m, Bodies(OnlyIds(t, ids)), i + 1, Extended(env, m, i, asg, k), e);
        var o :| o in Bodies(OnlyIds(t, ids)) && Entails(o, e);
        FollowsTrue(env, m, o, e, i, asg, k);
        var first :| first in origin && Entails(first, o);
        EntailsTrans(first, o, e);
      }
    }
  }

  lemma ProgressDone(env: Setting, m: LS.Model, origin: set<Elem>, i: nat, asg: Assignment, t: Store)
    requires InBlock(env, m, i, 0) && InBlock(env, m, i, |Tuples(env, m, i)|) && |env.prefix.quantifiers| == |env.prefix.names|
    requires env.prefix.quantifiers[i] == Forall && Progress(env, m, origin, i, asg, |Tuples(env, m, i)|, t)
    ensures AllOk(env, Bodies(t)) && forall e | e in Bodies(t) :: Weakened(env, m, origin, i, asg, e)
  {
    hide TrueFrom, Tuples, AllFirst, Follows, BodyOk, Extended;
    BodiesOk(env, t);
    forall e | e in Bodies(t) ensures Weakened(env, m, origin, i, asg, e) { AllTuples(env, m, e, i, asg); }
  }

  lemma ProgressStart(env: Setting, m: LS.Model, i: nat, asg: Assignment, t: Store)
    requires InBlock(env, m, i, 0) && StoreOk(env, t)
    ensures Progress(env, m, Bodies(t), i, asg, 0, t)
  {
    hide TrueFrom, Tuples, BodyOk, Extended, Truth, ModelFits;
    forall e | e in Bodies(t) ensures Follows(Bodies(t), e) { assert Entails(e, e); }
  }

  /** What the store while a universal block is run through can hold: the bodies to weaken, without
      the false one after the first tuple, and none of the ignored. */
  ghost predicate Screening(env: Setting, origin: set<Elem>, ignore: seq<(set<Elem>, nat)>, k: nat, t: set<Elem>) {
    && (HasBottom(env, t) ==> k == 0 && t == origin)
    && (!HasBottom(env, origin) ==> forall e | e in t :: e in origin || NotIgnored(ignore, e))
    && BottomAlone(env, t)
  }

  lemma SplitFits(env: Setting, m: LS.Model, s: Store, ids: set<nat>, i: nat, asg: Assignment)
    requires ModelFits(env, m) && StoreOk(env, s) && FalseIds(env, m, s, i, asg, ids) && BottomAlone(env, Bodies(s))
    ensures Fitting(env, Bodies(Without(s, ids)), Bodies(OnlyIds(s, ids)), false)
    ensures Bodies(Without(s, ids)) + Bodies(OnlyIds(s, ids)) <= Bodies(s)
    ensures HasBottom(env, Bodies(OnlyIds(s, ids))) <==> HasBottom(env, Bodies(s))
    ensures !HasBottom(env, Bodies(Without(s, ids)))
  {
    hide TrueFrom, BodyOk, Bottom, ModelFits;
    WithoutOk(env, s, ids);
    OnlyOk(env, s, ids);
    forall e | e in Bodies(s) && Bottom(env, e) ensures e in Bodies(OnlyIds(s, ids)) && e !in Bodies(Without(s, ids)) {
      BottomFalse(env, m, e, i, asg);
      var id :| id in s.byId && s.byId[id] == e;
      assert OnlyIds(s, ids).byId[id] == e;
    }
  }

  lemma ScreeningStep(env: Setting, m: LS.Model, s: Store, ids: set<nat>, i: nat, asg: Assignment, origin: set<Elem>,
                      ignore: seq<(set<Elem>, nat)>, k: nat, stronger: (Elem, Elem) -> bool, r: Store)
    requires ModelFits(env, m) && StoreOk(env, s) && FalseIds(env, m, s, i, asg, ids) && Screening(env, origin, ignore, k, Bodies(s))
    requires Added(env, stronger, m, Without(s, ids), Bodies(OnlyIds(s, ids)), i, asg, r)
    requires NewOnes(env, Bodies(Without(s, ids)), Bodies(OnlyIds(s, ids)), ignore, Bodies(r))
    ensures Screening(env, origin, ignore, k + 1, Bodies(r))
  {
    hide TrueFrom, StoreOk, Bottom, ModelFits, Bodies, Follows, Kept, NotIgnored, Without, OnlyIds;
    SplitFits(env, m, s, ids, i, asg);
    forall e | e in Bodies(r) ensures !Bottom(env, e) {
      if Bottom(env, e) { BottomFalse(env, m, e, i, asg); }
    }
  }

  lemma ScreenedFits(env: Setting, s: set<Elem>, permIndex: nat, origin: set<Elem>, ignore: seq<(set<Elem>, nat)>, k: nat, es: set<Elem>,
                     t: set<Elem>, prevExists: bool)
    requires k > 0 && Screening(env, origin, ignore + [(s, permIndex)], k, t) && es <= t
    requires Fitting(env, s, origin, prevExists)
    ensures !prevExists ==> s !! es
    ensures forall r: set<Elem> | r <= s + es :: NewOnes(env, s, origin, ignore, r)
  {
    hide Bottom;
    var all := ignore + [(s, permIndex)];
    assert all[|ignore|] == (s, permIndex) && (s, permIndex) in all;
    assert forall x | x in ignore :: x in all;
  }

  /** A universal block: the bodies are weakened under one tuple after the other, then merged. */
  method WeakenForall(env: Setting, s: Store, toWeaken: Store, m: LS.Model, asg: Assignment, index: nat, permIndex: nat, prevExists: bool,
                      ignore: seq<(set<Elem>, nat)>, ghost stronger: (Elem, Elem) -> bool) returns (r: Option<Store>)
    requires ModelFits(env, m) && Covering(env, stronger) && StoreOk(env, s) && StoreOk(env, toWeaken)
    requires InBlock(env, m, index, 0) && |env.prefix.quantifiers| == |env.prefix.names| && env.prefix.quantifiers[index] == Forall
    requires env.prefix.names[index] != [] && Bodies(toWeaken) != {}
    ensures r.Some? ==> Added(env, stronger, m, s, Bodies(toWeaken), index, asg, r.value)
    ensures Outcome(env, m, Bodies(s), Bodies(toWeaken), asg, index, permIndex, prevExists, ignore, OptionalBodies(r))
    ensures Safe(env) && Fitting(env, Bodies(s), Bodies(toWeaken), prevExists) ==>
      r.Some? && NewOnes(env, Bodies(s), Bodies(toWeaken), ignore, Bodies(r.value))
    decreases |env.prefix.names| - index, 0
  {
    hide *;
    BlockOpen(env, m, index);
    var t, k, origin, tuples := toWeaken, 0, Bodies(toWeaken), Tuples(env, m, index);
    ProgressStart(env, m, index, asg, toWeaken);
    SomeTuples(env, m, index);
    ghost var safe := Safe(env) && Fitting(env, Bodies(s), origin, prevExists);
    var newIgnore, newIndex := ignore + [(Bodies(s), permIndex)], if prevExists then index else permIndex;
    if safe { ScreeningStart(env, Bodies(s), origin, prevExists, newIgnore); }
    while k < |tuples|
      invariant k <= |tuples| && InBlock(env, m, index, k) && StoreOk(env, t) && Progress(env, m, origin, index, asg, k, t)
      invariant safe ==> Screening(env, origin, newIgnore, k, Bodies(t))
      invariant forall end | ForallOutcome(env, m, Bodies(t), asg, index, k, newIndex, newIgnore, end) ::
        ForallOutcome(env, m, origin, asg, index, 0, newIndex, newIgnore, end)
    {
      var extended := Extended(env, m, index, asg, k);
      var ids := Unsat(env, t, m, extended, index + 1);
      WithoutOk(env, t, ids);
      OnlyOk(env, t, ids);
      InBlockNext(env, m, index, k);
      if safe {
        ScreeningAlone(env, origin, newIgnore, k, Bodies(t));
        SplitFits(env, m, t, ids, index + 1, extended);
      }
      SplitBodies(env, m, t, ids, index + 1, extended);
      var more := WeakenAdd(env, Without(t, ids), OnlyIds(t, ids), m, extended, index + 1, newIndex, false, newIgnore, stronger);
      ForallContinues(env, m, Bodies(t), asg, index, k, newIndex, newIgnore, OptionalBodies(more));
      NoneBodies(more);
      if more.None? {
        FoldMerged(env, Bodies(s), origin, permIndex);
        FoldForall(env, m, Bodies(s), origin, asg, index, permIndex, prevExists, ignore, None, None);
        NoneBodies(None);
        return None;
      }
      ProgressStep(env, m, origin, index, asg, k, t, ids, stronger, more.value);
      ProgressOk(env, m, origin, index, asg, k + 1, more.value);
      if safe { ScreeningStep(env, m, t, ids, index + 1, extended, origin, newIgnore, k, stronger, more.value); }
      t, k := more.value, k + 1;
    }
    ProgressDone(env, m, origin, index, asg, t);
    BlockEnds(env, m, Bodies(t), origin, asg, index, newIndex, newIgnore);
    var es := Bodies(t);
    FoldMerged(env, Bodies(s), es, permIndex);
    if prevExists {
      var minimal := Minimized(env, es, permIndex);
      AllOkSubset(env, Bodies(minimal), es);
      FoldMinimal(env, Bodies(s), es, Bodies(minimal), permIndex);
      es := Bodies(minimal);
    }
    if safe { ScreenedFits(env, Bodies(s), permIndex, origin, ignore, k, es, Bodies(t), prevExists); }
    r := Merge(env, s, es, permIndex, prevExists, m, asg, index, origin, stronger);
    FoldForall(env, m, Bodies(s), origin, asg, index, permIndex, prevExists, ignore, Some(Bodies(t)), OptionalBodies(r));
  }

  lemma NoneBodies(r: Option<Store>)
    ensures OptionalBodies(r) == if r.Some? then Some(Bodies(r.value)) else None
  {
  }

  /** Replace violated bodies by weaker ones that are true in the model, and add them to a store. */
  method WeakenAdd(env: Setting, s: Store, toWeaken: Store, m: LS.Model, asg: Assignment, index: nat, permIndex: nat, prevExists: bool,
                   ignore: seq<(set<Elem>, nat)>, ghost stronger: (Elem, Elem) -> bool) returns (r: Option<Store>)
    requires ModelFits(env, m) && Covering(env, stronger) && StoreOk(env, s) && StoreOk(env, toWeaken) && index <= |env.prefix.names|
    ensures r.Some? ==> Added(env, stronger, m, s, Bodies(toWeaken), index, asg, r.value)
    ensures |env.prefix.quantifiers| == |env.prefix.names|
    ensures Outcome(env, m, Bodies(s), Bodies(toWeaken), asg, index, permIndex, prevExists, ignore, OptionalBodies(r))
    ensures Safe(env) && Fitting(env, Bodies(s), Bodies(toWeaken), prevExists) ==>
      r.Some? && NewOnes(env, Bodies(s), Bodies(toWeaken), ignore, Bodies(r.value))
    decreases |env.prefix.names| - index, 1
  {
    hide *;
    var origin := Bodies(toWeaken);
    NothingAdded(env, stronger, m, s, origin, index, asg);
    NothingNew(env, Bodies(s), origin, ignore);
    PrefixFits(env, m);
    NoneStored(toWeaken);
    NoneBodies(Some(s));
    FoldNothing(env, m, Bodies(s), asg, index, permIndex, prevExists, ignore);
    if toWeaken.byId == map[] { return Some(s); }
    if index >= |env.prefix.names| {
      r := WeakenLeaf(env, s, toWeaken, m, asg, permIndex, prevExists, ignore, stronger);
      return;
    }
    if env.prefix.names[index] == [] {
      r := WeakenAdd(env, s, toWeaken, m, asg, index + 1, permIndex, prevExists, ignore, stronger);
      FoldEmpty(env, m, Bodies(s), origin, asg, index, permIndex, prevExists, ignore, OptionalBodies(r));
      if r.Some? { EmptyAdded(env, stronger, m, s, origin, index, asg, r.value); }
      return;
    }
    BlockFits(env, m, index);
    if env.prefix.quantifiers[index] == Forall {
      r := WeakenForall(env, s, toWeaken, m, asg, index, permIndex, prevExists, ignore, stronger);
    } else {
      var t, k, tuples := s, 0, Tuples(env, m, index);
      ghost var safe := Safe(env) && Fitting(env, Bodies(s), origin, prevExists);
      while k < |tuples|
        invariant k <= |tuples| && InBlock(env, m, index, k) && Added(env, stronger, m, s, origin, index, asg, t) && StoreOk(env, t)
        invariant safe ==> NewOnes(env, Bodies(s), origin, ignore, Bodies(t))
        invariant forall end | ExistsOutcome(env, m, Bodies(t), origin, asg, index, k, permIndex, ignore, end) ::
          ExistsOutcome(env, m, Bodies(s), origin, asg, index, 0, permIndex, ignore, end)
      {
        if safe { FitsAfterExists(env, Bodies(s), Bodies(t), origin, prevExists); }
        var extended := Extended(env, m, index, asg, k);
        InBlockNext(env, m, index, k);
        var more := WeakenAdd(env, t, toWeaken, m, extended, index + 1, permIndex, true, ignore, stronger);
        ExistsContinues(env, m, Bodies(t), origin, asg, index, k, permIndex, ignore, OptionalBodies(more));
        NoneBodies(more);
        if more.None? {
          FoldExists(env, m, Bodies(s), origin, asg, index, permIndex, prevExists, ignore, None);
          NoneBodies(None);
          return None;
        }
        SomeAdded(env, stronger, m, s, origin, index, asg, k, t, more.value);
        AddedOk(env, stronger, m, s, origin, index, asg, more.value);
        if safe { NewTrans(env, Bodies(s), Bodies(t), origin, ignore, Bodies(more.value)); }
        t, k := more.value, k + 1;
      }
      BlockEnds(env, m, Bodies(t), origin, asg, index, permIndex, ignore);
      FoldExists(env, m, Bodies(s), origin, asg, index, permIndex, prevExists, ignore, Some(Bodies(t)));
      NoneBodies(Some(t));
      r := Some(t);
    }
  }

  lemma NothingNew(env: Setting, s: set<Elem>, origin: set<Elem>, ignore: seq<(set<Elem>, nat)>)
    ensures NewOnes(env, s, origin, ignore, s)
  {
  }

  lemma FitsAfterExists(env: Setting, s: set<Elem>, t: set<Elem>, origin: set<Elem>, prevExists: bool)
    requires Fitting(env, s, origin, prevExists)
    ensures Fitting(env, t, origin, true)
  {
  }

  lemma NewTrans(env: Setting, s: set<Elem>, t: set<Elem>, origin: set<Elem>, ignore: seq<(set<Elem>, nat)>, r: set<Elem>)
    requires NewOnes(env, s, origin, ignore, t) && NewOnes(env, t, origin, ignore, r)
    ensures NewOnes(env, s, origin, ignore, r)
  {
    hide Bottom, NotIgnored;
  }

  lemma SomeTuples(env: Setting, m: LS.Model, i: nat)
    requires InBlock(env, m, i, 0)
    ensures |Tuples(env, m, i)| > 0
  {
    TuplesLength(env, m, i);
  }

  lemma ScreeningStart(env: Setting, s: set<Elem>, origin: set<Elem>, prevExists: bool, ignore: seq<(set<Elem>, nat)>)
    requires Fitting(env, s, origin, prevExists)
    ensures Screening(env, origin, ignore, 0, origin)
  {
    hide Bottom;
  }

  lemma ScreeningAlone(env: Setting, origin: set<Elem>, ignore: seq<(set<Elem>, nat)>, k: nat, t: set<Elem>)
    requires Screening(env, origin, ignore, k, t)
    ensures BottomAlone(env, t)
  {
    hide Bottom;
  }

  lemma BlockOpen(env: Setting, m: LS.Model, i: nat)
    requires InBlock(env, m, i, 0)
    ensures i < |env.prefix.names| && i < |m.sizes|
    ensures forall j | 0 <= j < |Tuples(env, m, i)| :: |Tuples(env, m, i)[j]| == |env.prefix.names[i]|
  {
  }

  lemma BlockFits(env: Setting, m: LS.Model, i: nat)
    requires ModelFits(env, m) && i < |env.prefix.names|
    ensures InBlock(env, m, i, 0)
  {
    TuplesLength(env, m, i);
  }

  lemma InBlockNext(env: Setting, m: LS.Model, i: nat, k: nat)
    requires InBlock(env, m, i, k) && i < |m.sizes| && i < |env.prefix.names| && k < |Tuples(env, m, i)|
    ensures InBlock(env, m, i, k + 1)
  {
  }

  lemma ProgressOk(env: Setting, m: LS.Model, origin: set<Elem>, i: nat, asg: Assignment, k: nat, t: Store)
    requires InBlock(env, m, i, k) && Progress(env, m, origin, i, asg, k, t)
    ensures StoreOk(env, t)
  {
  }

  lemma AllOkSubset(env: Setting, es: set<Elem>, fs: set<Elem>)
    requires AllOk(env, fs) && es <= fs
    ensures AllOk(env, es)
  {
    hide BodyOk;
  }

  lemma AddedOk(env: Setting, stronger: (Elem, Elem) -> bool, m: LS.Model, s: Store, origin: set<Elem>, i: nat, asg: Assignment, r: Store)
    requires ModelFits(env, m) && Added(env, stronger, m, s, origin, i, asg, r)
    ensures StoreOk(env, r)
  {
  }

  lemma NothingAdded(env: Setting, stronger: (Elem, Elem) -> bool, m: LS.Model, s: Store, origin: set<Elem>, i: nat, asg: Assignment)
    requires ModelFits(env, m) && Covering(env, stronger) && StoreOk(env, s)
    ensures Added(env, stronger, m, s, origin, i, asg, s)
  {
    KeptAll(env, stronger, s, s);
  }

  lemma EmptyAdded(env: Setting, stronger: (Elem, Elem) -> bool, m: LS.Model, s: Store, origin: set<Elem>, i: nat, asg: Assignment, r: Store)
    requires ModelFits(env, m) && i < |env.prefix.names| && env.prefix.names[i] == []
    requires Added(env, stronger, m, s, origin, i + 1, asg, r)
    ensures Added(env, stronger, m, s, origin, i, asg, r)
  {
    hide TrueFrom, ModelFits, StoreOk, Follows, Kept, Bodies;
    forall e | e in Bodies(r) ensures e in Bodies(s) || Weakened(env, m, origin, i, asg, e) { EmptyBlock(env, m, e, i, asg); }
  }

  lemma SomeAdded(env: Setting, stronger: (Elem, Elem) -> bool, m: LS.Model, s: Store, origin: set<Elem>, i: nat, asg: Assignment, k: nat,
                  t: Store, r: Store)
    requires InBlock(env, m, i, k + 1) && |env.prefix.quantifiers| == |env.prefix.names| && env.prefix.quantifiers[i] == Exists
    requires Covering(env, stronger) && Added(env, stronger, m, s, origin, i, asg, t)
    requires Added(env, stronger, m, t, origin, i + 1, Extended(env, m, i, asg, k), r)
    ensures Added(env, stronger, m, s, origin, i, asg, r)
  {
    hide TrueFrom, ModelFits, StoreOk, Follows, Kept, Bodies, Extended, Tuples, Covering;
    KeptTrans(env, stronger, s, t, r);
    forall e | e in Bodies(r) ensures e in Bodies(s) || Weakened(env, m, origin, i, asg, e) {
      if e !in Bodies(t) { SomeTuple(env, m, e, i, asg, k + 1); }
    }
  }

  /** Some stored lemma is false in the model. */
  ghost predicate Violated(env: Setting, m: LS.Model, e: Elem)
    requires ModelFits(env, m)
  {
    !TrueFrom(env, m, e, 0, map[])
  }

  /** The lemmas after weakening: none is violated, a new one follows from one that was, and every
      lemma that was not is still there or below one that is. */
  ghost predicate Repaired(env: Setting, stronger: (Elem, Elem) -> bool, m: LS.Model, before: set<Elem>, after: Store)
    requires ModelFits(env, m)
  {
    && (forall e | e in Bodies(after) :: !Violated(env, m, e))
    && (forall e | e in Bodies(after) && e !in before :: exists o | o in before :: Violated(env, m, o) && Entails(o, e))
    && forall e | e in before && !Violated(env, m, e) :: Above(stronger, after, e)
  }

  lemma RepairedBy(env: Setting, stronger: (Elem, Elem) -> bool, m: LS.Model, s: Store, ids: set<nat>, r: Store)
    requires ModelFits(env, m) && StoreOk(env, s) && FalseIds(env, m, s, 0, map[], ids)
    requires Added(env, stronger, m, Without(s, ids), Bodies(OnlyIds(s, ids)), 0, map[], r)
    ensures Repaired(env, stronger, m, Bodies(s), r)
  {
    hide TrueFrom, ModelFits, BodyOk, Entails;
    WithoutOk(env, s, ids);
    forall e | e in Bodies(r) && e !in Bodies(Without(s, ids)) ensures !Violated(env, m, e) && exists o | o in Bodies(s) :: Violated(env, m, o) && Entails(o, e) {
      assert Weakened(env, m, Bodies(OnlyIds(s, ids)), 0, map[], e);
      var o :| o in Bodies(OnlyIds(s, ids)) && Entails(o, e);
      assert Violated(env, m, o) && o in Bodies(s);
    }
    forall e | e in Bodies(Without(s, ids)) ensures !Violated(env, m, e) {
      var id :| id in Without(s, ids).byId && Without(s, ids).byId[id] == e;
    }
    forall e | e in Bodies(s) && !Violated(env, m, e) ensures Above(stronger, r, e) {
      var id :| id in s.byId && s.byId[id] == e;
      assert e in Bodies(Without(s, ids));
    }
  }

  /** The lemmas after weakening for a step from a state in which they may hold: one that is still
      violated was so before the step, and new ones come from those that were not. */
  ghost predicate RepairedStep(env: Setting, stronger: (Elem, Elem) -> bool, pre: LS.Model, post: LS.Model, before: set<Elem>, after: Store)
    requires ModelFits(env, pre) && ModelFits(env, post)
  {
    && (forall e | e in Bodies(after) && Violated(env, post, e) :: e in before && Violated(env, pre, e))
    && (forall e | e in Bodies(after) && e !in before :: exists o | o in before :: NotInductive(env, pre, post, o) && Entails(o, e))
    && forall e | e in before && !NotInductive(env, pre, post, e) :: Above(stronger, after, e)
  }

  /** True before the step and false after it. */
  ghost predicate NotInductive(env: Setting, pre: LS.Model, post: LS.Model, e: Elem)
    requires ModelFits(env, pre) && ModelFits(env, post)
  {
    !Violated(env, pre, e) && Violated(env, post, e)
  }

  lemma RepairedStepBy(env: Setting, stronger: (Elem, Elem) -> bool, pre: LS.Model, post: LS.Model, s: Store, falsePre: set<nat>,
                       falsePost: set<nat>, r: Store)
    requires ModelFits(env, pre) && ModelFits(env, post) && StoreOk(env, s)
    requires FalseIds(env, pre, s, 0, map[], falsePre) && FalseIds(env, post, s, 0, map[], falsePost)
    requires Added(env, stronger, post, Without(s, falsePost - falsePre), Bodies(OnlyIds(s, falsePost - falsePre)), 0, map[], r)
    ensures RepairedStep(env, stronger, pre, post, Bodies(s), r)
  {
    hide TrueFrom, ModelFits, BodyOk, Entails;
    var ids := falsePost - falsePre;
    WithoutOk(env, s, ids);
    forall e | e in Bodies(r) && e !in Bodies(Without(s, ids))
      ensures !Violated(env, post, e) && exists o | o in Bodies(s) :: NotInductive(env, pre, post, o) && Entails(o, e)
    {
      assert Weakened(env, post, Bodies(OnlyIds(s, ids)), 0, map[], e);
      var o :| o in Bodies(OnlyIds(s, ids)) && Entails(o, e);
      assert NotInductive(env, pre, post, o) && o in Bodies(s);
    }
    forall e | e in Bodies(Without(s, ids)) && Violated(env, post, e) ensures Violated(env, pre, e) {
      var id :| id in Without(s, ids).byId && Without(s, ids).byId[id] == e;
    }
    forall e | e in Bodies(s) && !NotInductive(env, pre, post, e) ensures Above(stronger, r, e) {
      var id :| id in s.byId && s.byId[id] == e;
      assert e in Bodies(Without(s, ids));
    }
  }

  lemma RepairedNoBottom(env: Setting, stronger: (Elem, Elem) -> bool, m: LS.Model, before: set<Elem>, after: Store)
    requires ModelFits(env, m) && Repaired(env, stronger, m, before, after)
    ensures BottomAlone(env, Bodies(after))
  {
    hide Bottom, TrueFrom, ModelFits, Bodies, Entails;
    forall e | e in Bodies(after) ensures !Bottom(env, e) {
      if Bottom(env, e) { BottomFalse(env, m, e, 0, map[]); }
    }
  }

  /** The false body is false before the step as well, so it is not weakened, nor is anything else. */
  lemma SplitStepFits(env: Setting, pre: LS.Model, post: LS.Model, s: Store, falsePre: set<nat>, falsePost: set<nat>)
    requires ModelFits(env, pre) && ModelFits(env, post) && StoreOk(env, s) && BottomAlone(env, Bodies(s))
    requires FalseIds(env, pre, s, 0, map[], falsePre) && FalseIds(env, post, s, 0, map[], falsePost)
    ensures var ids := falsePost - falsePre; Fitting(env, Bodies(Without(s, ids)), Bodies(OnlyIds(s, ids)), false)
    ensures falsePost - falsePre != {} ==> !HasBottom(env, Bodies(s))
  {
    hide TrueFrom, BodyOk, Bottom, ModelFits;
    var ids := falsePost - falsePre;
    WithoutOk(env, s, ids);
    OnlyOk(env, s, ids);
    if e :| e in Bodies(s) && Bottom(env, e) {
      BottomFalse(env, pre, e, 0, map[]);
      forall id | id in s.byId ensures id in falsePre { assert s.byId[id] in Bodies(s); }
    }
  }

  lemma RepairedStepNoBottom(env: Setting, stronger: (Elem, Elem) -> bool, pre: LS.Model, post: LS.Model, s: Store, falsePre: set<nat>,
                             falsePost: set<nat>, after: Store)
    requires ModelFits(env, pre) && ModelFits(env, post) && StoreOk(env, s) && BottomAlone(env, Bodies(s))
    requires FalseIds(env, pre, s, 0, map[], falsePre) && FalseIds(env, post, s, 0, map[], falsePost) && falsePost - falsePre != {}
    requires RepairedStep(env, stronger, pre, post, Bodies(s), after)
    ensures BottomAlone(env, Bodies(after))
  {
    hide Bottom, TrueFrom, ModelFits, Bodies, Entails, StoreOk, FalseIds;
    SplitStepFits(env, pre, post, s, falsePre, falsePost);
    forall e | e in Bodies(after) ensures !Bottom(env, e) {
      if Bottom(env, e) { BottomFalse(env, post, e, 0, map[]); }
    }
  }

  function Strongest(k: Kind): Base {
    match k case Cnf => Base.Lists([[]]) case Dnf => Base.Lists([]) case PDnf => Split(PDnfBase([], []))
  }

  lemma StrongestFits(k: Kind)
    ensures BaseFits(k, Strongest(k))
  {
  }

  lemma StrongestForm(k: Kind)
    requires BaseFits(k, Strongest(k))
    ensures Has(ToElem(k, Strongest(k)), FormOf(k))
    ensures forall v: nat -> bool :: !Truth(ToElem(k, Strongest(k)), v)
  {
    hide Truth, ToElem, Has;
    forall v: nat -> bool ensures Has(ToElem(k, Strongest(k)), FormOf(k)) && !Truth(ToElem(k, Strongest(k)), v) {
      ToElemTrue(k, Strongest(k), v);
      assert k == Cnf ==> [] in Strongest(k).lists;
    }
    ToElemTrue(k, Strongest(k), _ => true);
  }

  lemma StrongestOk(env: Setting, body: Elem)
    requires BaseFits(env.kind, Strongest(env.kind))
    requires var raw := ToElem(env.kind, Strongest(env.kind));
             Has(raw, FormOf(env.kind)) && Equivalent(raw, body) && AtomsOf(body) <= AtomsOf(raw) && forall v: nat -> bool :: !Truth(raw, v)
    requires Has(body, FormOf(env.kind)) && Canonical(body)
    ensures BodyOk(env, body) && forall v: nat -> bool :: !Truth(body, v)
  {
    hide Truth, ToElem, Has, Canonical, Covers, AtomsOf;
    var raw := ToElem(env.kind, Strongest(env.kind));
    BaseAtoms(env.kind, Strongest(env.kind), {});
    forall v: nat -> bool ensures !Truth(body, v) {
      if Truth(body, v) { CoversImplies(body, raw, FormOf(env.kind), v); }
    }
  }

  /** For conjunctive bodies it is the one with the empty clause only. */
  lemma StrongestBottom(env: Setting, body: Elem)
    requires env.kind == Cnf && BaseFits(Cnf, Strongest(Cnf)) && Has(body, FormOf(Cnf)) && Canonical(body)
    requires Equivalent(ToElem(Cnf, Strongest(Cnf)), body)
    ensures Bottom(env, body)
  {
    var raw := AndOf([Rev(AndOf([]))]);
    assert LitElems([]) == [] && RevEach([]) == [] && ClauseElem([]) == Rev(AndOf([]));
    assert ClauseElems([[]]) == [Rev(AndOf([]))] && ToElem(Cnf, Strongest(Cnf)) == raw;
    assert Has(raw, FormOf(Cnf)) && Canonical(raw);
    hide Has, Canonical, Covers, ToElem;
    CoversReflexive(raw);
    OneForm(env, Strongest(Cnf), raw, body);
    EmptyClause(raw);
  }

  lemma EmptyClause(raw: Elem)
    requires raw == AndOf([Rev(AndOf([]))]) && Has(raw, FormOf(Cnf))
    ensures ToBase(Cnf, raw) == Base.Lists([[]])
  {
    var lists := CnfOf(raw);
    assert ClauseElems(lists) == [Rev(AndOf([]))];
    assert ClauseElems(lists)[0] == Rev(AndOf([]));
    assert RevEach(LitElems(lists[0])) == [];
    assert |lists[0]| == 0;
    assert lists == [[]];
  }

  lemma EmptyStoreOk(env: Setting, s: Store)
    requires s.byId == map[]
    ensures StoreOk(env, s) && Bodies(s) == {}
    ensures forall e :: Insert(s, e).Some?
  {
  }

  lemma OneBottom(env: Setting, es: set<Elem>, e: Elem)
    requires es == {} + {e}
    ensures BottomAlone(env, es) && es == {e}
  {
  }

  lemma SomeBottom(env: Setting, es: set<Elem>, e: Elem)
    requires e in es && Bottom(env, e)
    ensures HasBottom(env, es)
  {
    hide Bottom;
  }

  /** What weakening for a model can make of the stored bodies. */
  ghost predicate WeakenOutcome(env: Setting, m: LS.Model, before: set<Elem>, after: Option<set<Elem>>)
    requires ModelFits(env, m)
  {
    PrefixFits(env, m);
    var wrong := FalseOf(env, m, before, 0, map[]);
    if wrong == {} then after == Some(before) else Outcome(env, m, before - wrong, wrong, map[], 0, 0, false, [], after)
  }

  /** And weakening for a step. */
  ghost predicate WeakenCtiOutcome(env: Setting, pre: LS.Model, post: LS.Model, before: set<Elem>, after: Option<set<Elem>>)
    requires ModelFits(env, pre) && ModelFits(env, post)
  {
    PrefixFits(env, post);
    var wrong := FalseOf(env, post, before, 0, map[]) - FalseOf(env, pre, before, 0, map[]);
    if wrong == {} then after == Some(before) else Outcome(env, post, before - wrong, wrong, map[], 0, 0, false, [], after)
  }

  lemma FoldWeakenOutcome(env: Setting, m: LS.Model, s: Store, ids: set<nat>, after: Option<set<Elem>>)
    requires ModelFits(env, m) && |env.prefix.quantifiers| == |env.prefix.names| && StoreOk(env, s) && FalseIds(env, m, s, 0, map[], ids)
    requires if ids == {} then after == Some(Bodies(s))
             else Outcome(env, m, Bodies(Without(s, ids)), Bodies(OnlyIds(s, ids)), map[], 0, 0, false, [], after)
    ensures WeakenOutcome(env, m, Bodies(s), after)
  {
    hide TrueFrom, BodyOk, ModelFits, Outcome;
    hide FalseOf;
    SplitBodies(env, m, s, ids, 0, map[]);
    SomeOnly(env, m, s, ids);
  }

  lemma SomeOnly(env: Setting, m: LS.Model, s: Store, ids: set<nat>)
    requires ModelFits(env, m) && FalseIds(env, m, s, 0, map[], ids)
    ensures Bodies(OnlyIds(s, ids)) == {} <==> ids == {}
  {
    hide TrueFrom, ModelFits;
    if id :| id in ids { HasBody(OnlyIds(s, ids), id); }
  }

  lemma FoldWeakenCtiOutcome(env: Setting, pre: LS.Model, post: LS.Model, s: Store, falsePre: set<nat>, falsePost: set<nat>, after: Option<set<Elem>>)
    requires ModelFits(env, pre) && ModelFits(env, post) && |env.prefix.quantifiers| == |env.prefix.names| && StoreOk(env, s)
    requires FalseIds(env, pre, s, 0, map[], falsePre) && FalseIds(env, post, s, 0, map[], falsePost)
    requires var ids := falsePost - falsePre;
             if ids == {} then after == Some(Bodies(s))
             else Outcome(env, post, Bodies(Without(s, ids)), Bodies(OnlyIds(s, ids)), map[], 0, 0, false, [], after)
    ensures WeakenCtiOutcome(env, pre, post, Bodies(s), after)
  {
    hide TrueFrom, BodyOk, ModelFits, Outcome;
    var ids := falsePost - falsePre;
    var wrong := FalseOf(env, post, Bodies(s), 0, map[]) - FalseOf(env, pre, Bodies(s), 0, map[]);
    forall id | id in s.byId ensures id in ids <==> s.byId[id] in wrong { HasBody(s, id); }
    SplitByIds(s, ids, wrong);
    if ids != {} {
      var id :| id in ids;
      HasBody(s, id);
    }
  }

  lemma SplitByIds(s: Store, ids: set<nat>, es: set<Elem>)
    requires es <= Bodies(s) && forall id | id in s.byId :: id in ids <==> s.byId[id] in es
    ensures Bodies(OnlyIds(s, ids)) == es && Bodies(Without(s, ids)) == Bodies(s) - es
  {
    assert forall id | id in s.byId && id in ids :: OnlyIds(s, ids).byId[id] == s.byId[id];
    assert forall id | id in s.byId && id !in ids :: Without(s, ids).byId[id] == s.byId[id];
  }

  lemma NoneWrong(env: Setting, m: LS.Model, s: Store, ids: set<nat>)
    requires ModelFits(env, m) && FalseIds(env, m, s, 0, map[], ids) && ids == {}
    ensures forall e | e in Bodies(s) :: !Violated(env, m, e)
  {
    hide TrueFrom, ModelFits;
  }

  lemma NoneNotInductive(env: Setting, pre: LS.Model, post: LS.Model, s: Store, falsePre: set<nat>, falsePost: set<nat>)
    requires ModelFits(env, pre) && ModelFits(env, post) && falsePost - falsePre == {}
    requires FalseIds(env, pre, s, 0, map[], falsePre) && FalseIds(env, post, s, 0, map[], falsePost)
    ensures forall e | e in Bodies(s) :: !NotInductive(env, pre, post, e)
  {
    hide TrueFrom, ModelFits;
    forall id | id in s.byId ensures !NotInductive(env, pre, post, s.byId[id]) { assert id !in falsePost - falsePre; }
  }

  lemma SomeWrong(env: Setting, m: LS.Model, s: Store, ids: set<nat>)
    requires ModelFits(env, m) && FalseIds(env, m, s, 0, map[], ids) && ids != {}
    ensures exists e | e in Bodies(s) :: Violated(env, m, e)
  {
    hide TrueFrom, ModelFits;
    var id :| id in ids;
    HasBody(s, id);
  }

  lemma SomeNotInductive(env: Setting, pre: LS.Model, post: LS.Model, s: Store, falsePre: set<nat>, falsePost: set<nat>)
    requires ModelFits(env, pre) && ModelFits(env, post) && falsePost - falsePre != {}
    requires FalseIds(env, pre, s, 0, map[], falsePre) && FalseIds(env, post, s, 0, map[], falsePost)
    ensures exists e | e in Bodies(s) :: NotInductive(env, pre, post, e)
  {
    hide TrueFrom, ModelFits;
    var id :| id in falsePost - falsePre;
    HasBody(s, id);
  }

  class PrefixLemmaSet {
    const env: Setting
    var lemmas: Store

    constructor (env: Setting)
      ensures this.env == env && lemmas == EmptyStore && StoreOk(env, lemmas)
    {
      this.env := env;
      lemmas := EmptyStore;
    }

    /** Start with the strongest body, which is false in every model. */
    method Init()
      requires lemmas.byId == map[]
      modifies this
      ensures StoreOk(env, lemmas) && BottomAlone(env, Bodies(lemmas))
      ensures exists e | Bodies(lemmas) == {e} :: forall v :: !Truth(e, v)
      ensures env.kind == Cnf ==> HasBottom(env, Bodies(lemmas))
    {
      hide *;
      var base := Strongest(env.kind);
      StrongestFits(env.kind);
      var raw := ToElem(env.kind, base);
      StrongestForm(env.kind);
      var body := FromBase(raw, FormOf(env.kind));
      StrongestOk(env, body);
      EmptyStoreOk(env, lemmas);
      InsertOk(env, lemmas, body);
      assert Insert(lemmas, body).Some?;
      lemmas := Insert(lemmas, body).value;
      OneBottom(env, Bodies(lemmas), body);
      if env.kind == Cnf {
        StrongestBottom(env, body);
        SomeBottom(env, Bodies(lemmas), body);
      }
    }

    /** Weaken the lemmas that a model violates.  Without a result an assertion failed. */
    method Weaken(m: LS.Model, ghost stronger: (Elem, Elem) -> bool) returns (changed: Option<bool>)
      requires ModelFits(env, m) && StoreOk(env, lemmas) && Covering(env, stronger)
      modifies this
      ensures changed.Some? ==> StoreOk(env, lemmas)
      ensures changed.Some? ==> (changed.value <==> exists e | e in Bodies(old(lemmas)) :: Violated(env, m, e))
      ensures changed == Some(false) ==> lemmas == old(lemmas)
      ensures changed == Some(true) ==> Repaired(env, stronger, m, Bodies(old(lemmas)), lemmas)
      ensures Safe(env) && BottomAlone(env, Bodies(old(lemmas))) ==> changed.Some? && BottomAlone(env, Bodies(lemmas))
      ensures WeakenOutcome(env, m, Bodies(old(lemmas)), if changed.None? then None else Some(Bodies(lemmas)))
    {
      hide *;
      PrefixFits(env, m);
      var ids := Unsat(env, lemmas, m, map[], 0);
      if BottomAlone(env, Bodies(lemmas)) { SplitFits(env, m, lemmas, ids, 0, map[]); }
      if ids == {} {
        FoldWeakenOutcome(env, m, lemmas, ids, Some(Bodies(lemmas)));
        NoneWrong(env, m, lemmas, ids);
        return Some(false);
      }
      WithoutOk(env, lemmas, ids);
      OnlyOk(env, lemmas, ids);
      var r := WeakenAdd(env, Without(lemmas, ids), OnlyIds(lemmas, ids), m, map[], 0, 0, false, [], stronger);
      NoneBodies(r);
      FoldWeakenOutcome(env, m, lemmas, ids, OptionalBodies(r));
      if r.None? { return None; }
      RepairedBy(env, stronger, m, lemmas, ids, r.value);
      RepairedNoBottom(env, stronger, m, Bodies(lemmas), r.value);
      AddedOk(env, stronger, m, Without(lemmas, ids), Bodies(OnlyIds(lemmas, ids)), 0, map[], r.value);
      SomeWrong(env, m, lemmas, ids);
      lemmas := r.value;
      changed := Some(true);
    }

    /** Weaken the lemmas that are true before a step and false after it. */
    method WeakenCti(pre: LS.Model, post: LS.Model, ghost stronger: (Elem, Elem) -> bool) returns (changed: Option<bool>)
      requires ModelFits(env, pre) && ModelFits(env, post) && StoreOk(env, lemmas) && Covering(env, stronger)
      modifies this
      ensures changed.Some? ==> StoreOk(env, lemmas)
      ensures changed.Some? ==> (changed.value <==> exists e | e in Bodies(old(lemmas)) :: NotInductive(env, pre, post, e))
      ensures changed == Some(false) ==> lemmas == old(lemmas)
      ensures changed == Some(true) ==> RepairedStep(env, stronger, pre, post, Bodies(old(lemmas)), lemmas)
      ensures Safe(env) && BottomAlone(env, Bodies(old(lemmas))) ==> changed.Some? && BottomAlone(env, Bodies(lemmas))
      ensures WeakenCtiOutcome(env, pre, post, Bodies(old(lemmas)), if changed.None? then None else Some(Bodies(lemmas)))
    {
      hide *;
      PrefixFits(env, post);
      var falsePost := Unsat(env, lemmas, post, map[], 0);
      var falsePre := Unsat(env, lemmas, pre, map[], 0);
      var ids := falsePost - falsePre;
      if ids == {} {
        FoldWeakenCtiOutcome(env, pre, post, lemmas, falsePre, falsePost, Some(Bodies(lemmas)));
        NoneNotInductive(env, pre, post, lemmas, falsePre, falsePost);
        return Some(false);
      }
      WithoutOk(env, lemmas, ids);
      OnlyOk(env, lemmas, ids);
      if BottomAlone(env, Bodies(lemmas)) { SplitStepFits(env, pre, post, lemmas, falsePre, falsePost); }
      var r := WeakenAdd(env, Without(lemmas, ids), OnlyIds(lemmas, ids), post, map[], 0, 0, false, [], stronger);
      NoneBodies(r);
      FoldWeakenCtiOutcome(env, pre, post, lemmas, falsePre, falsePost, OptionalBodies(r));
      if r.None? { return None; }
      RepairedStepBy(env, stronger, pre, post, lemmas, falsePre, falsePost, r.value);
      if BottomAlone(env, Bodies(lemmas)) { RepairedStepNoBottom(env, stronger, pre, post, lemmas, falsePre, falsePost, r.value); }
      AddedOk(env, stronger, post, Without(lemmas, ids), Bodies(OnlyIds(lemmas, ids)), 0, map[], r.value);
      SomeNotInductive(env, pre, post, lemmas, falsePre, falsePost);
      lemmas := r.value;
      changed := Some(true);
    }
  }

  // What the quantified lemmas say, in every model.

  /** The bodies are those of lemmas with the prefix, and permuting one renames variables within
      the blocks. */
  ghost predicate InLanguage(env: Setting, l: LS.Language) {
    && LS.ProperLanguage(l)
    && (forall e | BodyOk(env, e) :: LS.IsLemma(l, env.prefix, e))
    && forall i, e, p | BodyOk(env, e) && p in env.permuted(i, e) :: exists s :: IsPermuted(l, e, s, p)
  }

  ghost predicate IsPermuted(l: LS.Language, e: Elem, s: map<string, string>, p: Elem) {
    && Q.BlockInjection(l.names, LS.Vars(e, l.atoms), s) && LS.Substitute(e, l.atoms, s).Some?
    && Has(p, l.form) && Canonical(p) && Equivalent(LS.Substitute(e, l.atoms, s).value, p)
  }

  /** One quantified lemma implies another in every model with nonempty sorts. */
  ghost predicate Implies(env: Setting, l: LS.Language, a: Elem, b: Elem) {
    LS.IsLemma(l, env.prefix, a) && LS.IsLemma(l, env.prefix, b) && LS.LemmaImplies(l, env.prefix, a, env.prefix, b)
  }

  ghost function Implication(env: Setting, l: LS.Language): (Elem, Elem) -> bool {
    (a, b) => a == b || Implies(env, l, a, b)
  }

  lemma PermutedImplies(env: Setting, l: LS.Language, i: nat, a: Elem, p: Elem, b: Elem)
    requires InLanguage(env, l) && BodyOk(env, a) && BodyOk(env, b) && p in env.permuted(i, a) && Subsumes(p, b)
    ensures Implies(env, l, a, b)
  {
    hide BodyOk, Has, Canonical, Subsumes, Covers, Equivalent, LS.ProperLanguage, LS.LemmaImplies, Q.BlockInjection;
    var s :| IsPermuted(l, a, s, p);
    SubsumesExact(p, b, l.form);
    LS.SubsumedSound(l, env.prefix, a, env.prefix, b, s, p);
  }

  lemma ImpliedByPermuted(env: Setting, l: LS.Language, i: nat, a: Elem, p: Elem, b: Elem)
    requires InLanguage(env, l) && BodyOk(env, a) && BodyOk(env, b) && p in env.permuted(i, b) && Subsumes(a, p)
    ensures Implies(env, l, a, b)
  {
    hide BodyOk, Has, Canonical, Subsumes, Covers, Equivalent, LS.ProperLanguage, LS.LemmaImplies, Q.BlockInjection;
    var s :| IsPermuted(l, b, s, p);
    SubsumesExact(a, p, l.form);
    LS.SubsumptionSound(l, env.prefix, a, env.prefix, b, s, p);
  }

  /** Implication in every model with nonempty sorts is such a preorder. */
  lemma ImplicationCovers(env: Setting, l: LS.Language)
    requires InLanguage(env, l)
    ensures Covering(env, Implication(env, l))
  {
    hide BodyOk, Subsumes, LS.IsLemma, LS.LemmaTrue, InLanguage;
    forall a, b, c | Implication(env, l)(a, b) && Implication(env, l)(b, c) ensures Implication(env, l)(a, c) {
    }
    forall i, a, p, b | BodyOk(env, a) && BodyOk(env, b) && p in env.permuted(i, a) && Subsumes(p, b) ensures Implication(env, l)(a, b) {
      PermutedImplies(env, l, i, a, p, b);
    }
    forall i, a, p, b | BodyOk(env, a) && BodyOk(env, b) && p in env.permuted(i, b) && Subsumes(a, p) ensures Implication(env, l)(a, b) {
      ImpliedByPermuted(env, l, i, a, p, b);
    }
  }

  /** Nothing is lost: where the lemmas after weakening hold, so do all earlier ones that the model
      satisfied. */
  lemma NothingLost(env: Setting, l: LS.Language, m: LS.Model, before: set<Elem>, after: Store, e: Elem, n: LS.Model)
    requires InLanguage(env, l) && ModelFits(env, m) && Repaired(env, Implication(env, l), m, before, after)
    requires AllOk(env, before) && AllOk(env, Bodies(after)) && LS.IsModel(n, l.atoms, |l.names|)
    requires forall b | b in Bodies(after) :: LS.IsLemma(l, env.prefix, b) && LS.LemmaTrue(l, env.prefix, b, n)
    requires e in before && !Violated(env, m, e)
    ensures LS.IsLemma(l, env.prefix, e) && LS.LemmaTrue(l, env.prefix, e, n)
  {
    hide BodyOk, Bodies, Violated, Entails, LS.IsLemma, LS.LemmaTrue, LS.IsModel, ModelFits;
    assert Above(Implication(env, l), after, e);
    var b :| b in Bodies(after) && Implication(env, l)(b, e);
  }
}
