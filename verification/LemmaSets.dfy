/** Sets of quantified lemmas: subsumption up to a permutation of the variables of each block,
    and insertion that keeps the set small. */
module LemmaSets {
  import opened Collections
  import opened Syntax
  import opened Semantics
  import opened Subsumption
  import Q = Quantifiers
  import opened Permutations

  /** The atoms of a lemma language: the variables of each, and the atom that a substitution
      turns it into, if there is one. */
  datatype Atoms = Atoms(vars: nat -> set<string>, substitute: (nat, map<string, string>) -> Option<nat>)

  /** The number of elements of each block's sort, and which atoms hold under an assignment. */
  datatype Model = Model(sizes: seq<nat>, holds: (nat, Assignment) -> bool)

  function Target(s: map<string, string>, x: string): string {
    if x in s then s[x] else x
  }

  /** `b` gives every variable the value `a` gives to what the substitution makes of it. */
  ghost predicate Renamed(vars: set<string>, s: map<string, string>, a: Assignment, b: Assignment) {
    forall x | x in vars :: x in b && Target(s, x) in a && a[Target(s, x)] == b[x]
  }

  ghost predicate SameOn(vars: set<string>, a: Assignment, b: Assignment) {
    forall x | x in vars :: x in a && x in b && a[x] == b[x]
  }

  /** A model with elements in every sort whose atoms depend on their variables only, and
      respect substitution. */
  ghost predicate IsModel(m: Model, atoms: Atoms, blocks: nat) {
    && |m.sizes| == blocks && (forall k | 0 <= k < |m.sizes| :: m.sizes[k] > 0)
    && (forall x: nat, a: Assignment, b: Assignment | SameOn(atoms.vars(x), a, b) :: m.holds(x, a) == m.holds(x, b))
    && (forall x: nat, s, a: Assignment, b: Assignment | atoms.substitute(x, s).Some? && Renamed(atoms.vars(x), s, a, b) ::
          m.holds(atoms.substitute(x, s).value, a) == m.holds(x, b))
  }

  // Bodies.

  function Vars(e: Elem, atoms: Atoms): set<string> {
    match e
    case ELit(i, _) => atoms.vars(i)
    case AndOf(es) => VarsAll(es, atoms)
    case Rev(x) => Vars(x, atoms)
    case PairOf(x, y) => Vars(x, atoms) + Vars(y, atoms)
  }

  function VarsAll(es: seq<Elem>, atoms: Atoms): (r: set<string>)
    ensures forall x | x in es :: Vars(x, atoms) <= r
  {
    if es == [] then {} else Vars(es[0], atoms) + VarsAll(es[1..], atoms)
  }

  /** Substitute in every atom; `None` where the result is not an atom. */
  function Substitute(e: Elem, atoms: Atoms, s: map<string, string>): Option<Elem> {
    match e
    case ELit(i, p) => (match atoms.substitute(i, s) case Some(j) => Some(ELit(j, p)) case None => None)
    case AndOf(es) => (match SubstituteAll(es, atoms, s) case Some(rs) => Some(AndOf(rs)) case None => None)
    case Rev(x) => (match Substitute(x, atoms, s) case Some(r) => Some(Rev(r)) case None => None)
    case PairOf(x, y) =>
      match Substitute(x, atoms, s)
      case None => None
      case Some(r1) => match Substitute(y, atoms, s) case Some(r2) => Some(PairOf(r1, r2)) case None => None
  }

  function SubstituteAll(es: seq<Elem>, atoms: Atoms, s: map<string, string>): Option<seq<Elem>> {
    if es == [] then Some([])
    else
      match Substitute(es[0], atoms, s)
      case None => None
      case Some(r) => match SubstituteAll(es[1..], atoms, s) case Some(rs) => Some([r] + rs) case None => None
  }

  lemma {:induction false} SubstituteHas(e: Elem, atoms: Atoms, s: map<string, string>, f: Form)
    requires Has(e, f) && Substitute(e, atoms, s).Some?
    ensures Has(Substitute(e, atoms, s).value, f)
    decreases e, 1
  {
    match e
    case ELit(_, _) =>
    case AndOf(es) => SubstituteAllHave(es, atoms, s, f.elem);
    case Rev(x) => SubstituteHas(x, atoms, s, f.inner);
    case PairOf(x, y) => SubstituteHas(x, atoms, s, f.first); SubstituteHas(y, atoms, s, f.second);
  }

  lemma {:induction false} SubstituteAllHave(es: seq<Elem>, atoms: Atoms, s: map<string, string>, f: Form)
    requires AllHave(es, f) && SubstituteAll(es, atoms, s).Some?
    ensures AllHave(SubstituteAll(es, atoms, s).value, f) && |SubstituteAll(es, atoms, s).value| == |es|
    decreases es, 0
  {
    if es != [] {
      SubstituteHas(es[0], atoms, s, f);
      SubstituteAllHave(es[1..], atoms, s, f);
    }
  }

  function Valuation(m: Model, a: Assignment): nat -> bool {
    (x: nat) => m.holds(x, a)
  }

  function BodyOf(e: Elem, m: Model): Assignment -> bool {
    (a: Assignment) => Truth(e, Valuation(m, a))
  }

  /** The substituted body under one assignment is the body under the renamed one. */
  lemma {:induction false} SubstituteTruth(e: Elem, atoms: Atoms, s: map<string, string>, m: Model, blocks: nat, a: Assignment, b: Assignment)
    requires IsModel(m, atoms, blocks) && Substitute(e, atoms, s).Some? && Renamed(Vars(e, atoms), s, a, b)
    ensures Truth(Substitute(e, atoms, s).value, Valuation(m, a)) <==> Truth(e, Valuation(m, b))
    decreases e, 1
  {
    match e
    case ELit(i, _) =>
    case AndOf(es) => SubstituteAllTruth(es, atoms, s, m, blocks, a, b);
    case Rev(x) => SubstituteTruth(x, atoms, s, m, blocks, a, b);
    case PairOf(x, y) => SubstituteTruth(x, atoms, s, m, blocks, a, b); SubstituteTruth(y, atoms, s, m, blocks, a, b);
  }

  lemma {:induction false} SubstituteAllTruth(es: seq<Elem>, atoms: Atoms, s: map<string, string>, m: Model, blocks: nat, a: Assignment, b: Assignment)
    requires IsModel(m, atoms, blocks) && SubstituteAll(es, atoms, s).Some? && Renamed(VarsAll(es, atoms), s, a, b)
    ensures |SubstituteAll(es, atoms, s).value| == |es|
    ensures forall i | 0 <= i < |es| :: Truth(SubstituteAll(es, atoms, s).value[i], Valuation(m, a)) <==> Truth(es[i], Valuation(m, b))
    decreases es, 0
  {
    if es != [] {
      SubstituteTruth(es[0], atoms, s, m, blocks, a, b);
      SubstituteAllTruth(es[1..], atoms, s, m, blocks, a, b);
    }
  }

  /** A body depends on its variables only. */
  lemma {:induction false} LocalTruth(e: Elem, atoms: Atoms, m: Model, blocks: nat, a: Assignment, b: Assignment)
    requires IsModel(m, atoms, blocks) && SameOn(Vars(e, atoms), a, b)
    ensures Truth(e, Valuation(m, a)) <==> Truth(e, Valuation(m, b))
    decreases e
  {
    match e
    case ELit(i, _) =>
    case AndOf(es) =>
      forall i | 0 <= i < |es| ensures Truth(es[i], Valuation(m, a)) <==> Truth(es[i], Valuation(m, b)) {
        assert es[i] in es;
        LocalTruth(es[i], atoms, m, blocks, a, b);
      }
    case Rev(x) => LocalTruth(x, atoms, m, blocks, a, b);
    case PairOf(x, y) => LocalTruth(x, atoms, m, blocks, a, b); LocalTruth(y, atoms, m, blocks, a, b);
  }

  // Lemmas.

  /** The blocks of variables, and the form of the bodies. */
  datatype Language = Language(names: seq<seq<string>>, atoms: Atoms, form: Form)

  ghost predicate ProperLanguage(l: Language) {
    Q.DistinctBlocks(l.names)
  }

  /** A prefix over some of the variables of the language, with a canonical body over them. */
  ghost predicate IsLemma(l: Language, p: Q.Prefix, body: Elem) {
    && Q.Proper(p) && |p.names| == |l.names|
    && (forall i, x | 0 <= i < |p.names| && x in p.names[i] :: x in l.names[i])
    && Has(body, l.form) && Canonical(body) && Vars(body, l.atoms) <= Q.AllVars(p)
  }

  /** Every permutation of the variables turns the atoms of the body into atoms. */
  ghost predicate ClosedBody(l: Language, body: Elem) {
    forall s | Q.BlockInjection(l.names, Vars(body, l.atoms), s) :: Substitute(body, l.atoms, s).Some?
  }

  ghost predicate LemmaTrue(l: Language, p: Q.Prefix, body: Elem, m: Model)
    requires IsLemma(l, p, body) && |m.sizes| == |l.names|
  {
    Q.Holds(p, m.sizes, BodyOf(body, m))
  }

  /** One lemma implies another in every model with nonempty sorts. */
  ghost predicate LemmaImplies(l: Language, p1: Q.Prefix, body1: Elem, p2: Q.Prefix, body2: Elem)
    requires IsLemma(l, p1, body1) && IsLemma(l, p2, body2)
  {
    forall m | IsModel(m, l.atoms, |l.names|) && LemmaTrue(l, p1, body1, m) :: LemmaTrue(l, p2, body2, m)
  }

  /** Pairs of a variable of `p1` and what a permutation makes of it, where that is in `p2`. */
  ghost function ForwardLinks(p1: Q.Prefix, p2: Q.Prefix, s: map<string, string>): (r: Q.Links)
    requires |p1.names| == |p2.names|
    ensures |r| == |p1.names|
    ensures forall i, x | 0 <= i < |r| :: x in r[i] <==> x in p1.names[i] && x in s && s[x] in p2.names[i]
    ensures forall i, x | 0 <= i < |r| && x in r[i] :: r[i][x] == s[x]
  {
    seq(|p1.names|, i requires 0 <= i < |p1.names| => map x | x in p1.names[i] && x in s && s[x] in p2.names[i] :: s[x])
  }

  ghost function BackwardLinks(p1: Q.Prefix, p2: Q.Prefix, names: seq<seq<string>>, ids: set<string>, s: map<string, string>): (r: Q.Links)
    requires |p1.names| == |p2.names| == |names| && Q.BlockInjection(names, ids, s)
    requires forall i, x | 0 <= i < |p2.names| && x in p2.names[i] :: x in names[i]
    ensures |r| == |p1.names|
    ensures forall i, y | 0 <= i < |r| :: y in r[i] <==> y in p1.names[i] && exists x :: x in p2.names[i] && x in s && s[x] == y
    ensures forall i, y | 0 <= i < |r| && y in r[i] :: r[i][y] in p2.names[i] && r[i][y] in s && s[r[i][y]] == y
  {
    seq(|p1.names|, i requires 0 <= i < |p1.names| =>
      map y | y in p1.names[i] && exists x :: x in p2.names[i] && x in s && s[x] == y ::
        (var x :| x in p2.names[i] && x in s && s[x] == y; x))
  }

  lemma ForwardProper(l: Language, p1: Q.Prefix, p2: Q.Prefix, ids: set<string>, s: map<string, string>)
    requires Q.BlockInjection(l.names, ids, s) && |p1.names| == |p2.names| == |l.names|
    requires forall i, x | 0 <= i < |p1.names| && x in p1.names[i] :: x in l.names[i]
    ensures Q.ProperLinks(ForwardLinks(p1, p2, s), p1, p2)
  {
    var links := ForwardLinks(p1, p2, s);
    forall i, x, y | 0 <= i < |links| && x in links[i] && y in links[i] && links[i][x] == links[i][y] ensures x == y {
      assert x in l.names[i] && y in l.names[i];
    }
  }

  lemma BackwardProper(l: Language, p1: Q.Prefix, p2: Q.Prefix, ids: set<string>, s: map<string, string>)
    requires Q.BlockInjection(l.names, ids, s) && |p1.names| == |p2.names| == |l.names|
    requires forall i, x | 0 <= i < |p2.names| && x in p2.names[i] :: x in l.names[i]
    ensures Q.ProperLinks(BackwardLinks(p1, p2, l.names, ids, s), p1, p2)
  {
  }

  lemma VarBlock(p: Q.Prefix, x: string) returns (i: nat)
    requires x in Q.AllVars(p)
    ensures i < |p.names| && x in p.names[i]
  {
    i :| 0 <= i < |p.names| && x in p.names[i];
  }

  /** Where the blocks of the language are different, a variable is in one block only. */
  lemma SameBlock(l: Language, x: string, i: nat, j: nat)
    requires ProperLanguage(l) && i < |l.names| && j < |l.names| && x in l.names[i] && x in l.names[j]
    ensures i == j
  {
  }

  // A stored lemma that subsumes a permutation of the query.

  /** An assignment for the stored lemma that also fits the permuted query. */
  ghost function Pushed(a: Assignment, s: map<string, string>, vars: set<string>, b: Assignment): (r: Assignment)
    requires forall x | x in vars :: x in s && x in b
    requires forall x, y | x in vars && y in vars && s[x] == s[y] :: x == y
    ensures forall x | x in vars :: s[x] in r && r[s[x]] == b[x]
    ensures forall y | y in a && (forall x | x in vars :: s[x] != y) :: y in r && r[y] == a[y]
  {
    a + map x | x in vars :: s[x] := b[x]
  }

  lemma PermutedVars(l: Language, p: Q.Prefix, body: Elem, s: map<string, string>)
    requires ProperLanguage(l) && IsLemma(l, p, body) && Q.BlockInjection(l.names, Vars(body, l.atoms), s)
    ensures forall x | x in Vars(body, l.atoms) :: x in s
    ensures forall x, y | x in Vars(body, l.atoms) && y in Vars(body, l.atoms) && s[x] == s[y] :: x == y
  {
    forall x | x in Vars(body, l.atoms) ensures x in s && exists i :: 0 <= i < |l.names| && x in l.names[i] && s[x] in l.names[i] {
      var i := VarBlock(p, x);
      assert x in l.names[i] && Q.InSomeBlock(l.names, x);
    }
    forall x, y | x in Vars(body, l.atoms) && y in Vars(body, l.atoms) && s[x] == s[y] ensures x == y {
      var i :| 0 <= i < |l.names| && x in l.names[i] && s[x] in l.names[i];
      var j :| 0 <= j < |l.names| && y in l.names[j] && s[y] in l.names[j];
      SameBlock(l, s[x], i, j);
    }
  }

  lemma BackwardBodies(l: Language, p1: Q.Prefix, body1: Elem, p2: Q.Prefix, body2: Elem, s: map<string, string>, permuted: Elem, m: Model)
    requires ProperLanguage(l) && IsLemma(l, p1, body1) && IsLemma(l, p2, body2) && IsModel(m, l.atoms, |l.names|)
    requires Q.BlockInjection(l.names, Vars(body2, l.atoms), s) && Substitute(body2, l.atoms, s).Some?
    requires Has(permuted, l.form) && Equivalent(Substitute(body2, l.atoms, s).value, permuted) && Covers(body1, permuted)
    ensures Q.LinkedBodies(BackwardLinks(p1, p2, l.names, Vars(body2, l.atoms), s), p1, p2, BodyOf(body1, m), BodyOf(body2, m))
  {
    hide Q.BlockInjection, Covers, Has, Canonical, Truth, IsModel, Q.Proper, ProperLanguage;
    var links := BackwardLinks(p1, p2, l.names, Vars(body2, l.atoms), s);
    forall a: Assignment, b: Assignment | Q.AllVars(p1) <= a.Keys && Q.AllVars(p2) <= b.Keys && Q.Linked(links, |links|, a, b) && BodyOf(body1, m)(a)
      ensures BodyOf(body2, m)(b)
    {
      PermutedVars(l, p2, body2, s);
      var vars := Vars(body2, l.atoms);
      var a' := Pushed(a, s, vars, b);
      forall x | x in Vars(body1, l.atoms) ensures x in a && x in a' && a[x] == a'[x] {
        PushedSame(l, p1, p2, vars, s, a, b, x);
      }
      LocalTruth(body1, l.atoms, m, |l.names|, a, a');
      SubstituteHas(body2, l.atoms, s, l.form);
      CoversImplies(body1, permuted, l.form, Valuation(m, a'));
      CoversImplies(permuted, Substitute(body2, l.atoms, s).value, l.form, Valuation(m, a'));
      SubstituteTruth(body2, l.atoms, s, m, |l.names|, a', b);
    }
  }

  /** Pushing values does not change the variables of the stored lemma. */
  lemma PushedSame(l: Language, p1: Q.Prefix, p2: Q.Prefix, vars: set<string>, s: map<string, string>, a: Assignment, b: Assignment, x: string)
    requires ProperLanguage(l) && |p1.names| == |p2.names| == |l.names| && Q.BlockInjection(l.names, vars, s)
    requires forall i, y | 0 <= i < |p1.names| && y in p1.names[i] :: y in l.names[i]
    requires forall i, y | 0 <= i < |p2.names| && y in p2.names[i] :: y in l.names[i]
    requires vars <= Q.AllVars(p2) && Q.AllVars(p1) <= a.Keys && Q.AllVars(p2) <= b.Keys
    requires Q.Linked(BackwardLinks(p1, p2, l.names, vars, s), |p1.names|, a, b)
    requires forall y | y in vars :: y in s && y in b
    requires forall y, z | y in vars && z in vars && s[y] == s[z] :: y == z
    requires x in Q.AllVars(p1)
    ensures x in a && x in Pushed(a, s, vars, b) && a[x] == Pushed(a, s, vars, b)[x]
  {
    hide ProperLanguage, Q.Linked;
    if y :| y in vars && s[y] == x {
      var i := VarBlock(p1, x);
      var j := VarBlock(p2, y);
      assert s[y] in l.names[j];
      SameBlock(l, x, i, j);
      var links := BackwardLinks(p1, p2, l.names, vars, s);
      assert x in links[i];
      assert links[i][x] in l.names[i] && s[links[i][x]] == s[y];
      Q.LinkedAt(links, a, b, i, x);
    }
  }

  /** A stored lemma whose body subsumes a permutation of the query's body, and whose prefix
      subsumes the query's, implies the query. */
  lemma SubsumptionSound(l: Language, p1: Q.Prefix, body1: Elem, p2: Q.Prefix, body2: Elem, s: map<string, string>, permuted: Elem)
    requires ProperLanguage(l) && IsLemma(l, p1, body1) && IsLemma(l, p2, body2)
    requires Q.BlockInjection(l.names, Vars(body2, l.atoms), s) && Substitute(body2, l.atoms, s).Some?
    requires Has(permuted, l.form) && Equivalent(Substitute(body2, l.atoms, s).value, permuted)
    requires Covers(body1, permuted) && Q.PrefixSubsumes(p1, p2)
    ensures LemmaImplies(l, p1, body1, p2, body2)
  {
    hide Covers, Has, Canonical, Q.BlockInjection, Q.QTrue, Q.LinkedBodies, Q.ProperLinks, ProperLanguage, Equivalent, BodyOf;
    var links := BackwardLinks(p1, p2, l.names, Vars(body2, l.atoms), s);
    BackwardProper(l, p1, p2, Vars(body2, l.atoms), s);
    Q.NothingLinked(links);
    forall m | IsModel(m, l.atoms, |l.names|) && LemmaTrue(l, p1, body1, m) ensures LemmaTrue(l, p2, body2, m) {
      BackwardBodies(l, p1, body1, p2, body2, s, permuted, m);
      Q.LinkedTruth(p1, p2, m.sizes, BodyOf(body1, m), BodyOf(body2, m), links, 0, map[], map[]);
    }
  }

  // A query one of whose permutations subsumes a stored lemma.

  lemma ForwardBodies(l: Language, p1: Q.Prefix, body1: Elem, p2: Q.Prefix, body2: Elem, s: map<string, string>, permuted: Elem, m: Model)
    requires ProperLanguage(l) && IsLemma(l, p1, body1) && IsLemma(l, p2, body2) && IsModel(m, l.atoms, |l.names|)
    requires Q.BlockInjection(l.names, Vars(body1, l.atoms), s) && Substitute(body1, l.atoms, s).Some?
    requires Has(permuted, l.form) && Equivalent(Substitute(body1, l.atoms, s).value, permuted) && Covers(permuted, body2)
    ensures Q.LinkedBodies(ForwardLinks(p1, p2, s), p1, p2, BodyOf(body1, m), BodyOf(body2, m))
  {
    hide Q.BlockInjection, Covers, Has, Canonical, Truth, IsModel, Q.Proper, ProperLanguage;
    var links := ForwardLinks(p1, p2, s);
    forall a: Assignment, b: Assignment | Q.AllVars(p1) <= a.Keys && Q.AllVars(p2) <= b.Keys && Q.Linked(links, |links|, a, b) && BodyOf(body1, m)(a)
      ensures BodyOf(body2, m)(b)
    {
      PermutedVars(l, p1, body1, s);
      var vars := Vars(body1, l.atoms);
      var b' := Pushed(b, s, vars, a);
      SubstituteTruth(body1, l.atoms, s, m, |l.names|, b', a);
      SubstituteHas(body1, l.atoms, s, l.form);
      CoversImplies(Substitute(body1, l.atoms, s).value, permuted, l.form, Valuation(m, b'));
      CoversImplies(permuted, body2, l.form, Valuation(m, b'));
      forall x | x in Vars(body2, l.atoms) ensures x in b && x in b' && b[x] == b'[x] {
        PushedForward(l, p1, p2, vars, s, a, b, x);
      }
      LocalTruth(body2, l.atoms, m, |l.names|, b, b');
    }
  }

  lemma PushedForward(l: Language, p1: Q.Prefix, p2: Q.Prefix, vars: set<string>, s: map<string, string>, a: Assignment, b: Assignment, x: string)
    requires ProperLanguage(l) && |p1.names| == |p2.names| == |l.names| && Q.BlockInjection(l.names, vars, s)
    requires forall i, y | 0 <= i < |p1.names| && y in p1.names[i] :: y in l.names[i]
    requires forall i, y | 0 <= i < |p2.names| && y in p2.names[i] :: y in l.names[i]
    requires vars <= Q.AllVars(p1) && Q.AllVars(p1) <= a.Keys && Q.AllVars(p2) <= b.Keys
    requires Q.Linked(ForwardLinks(p1, p2, s), |p1.names|, a, b)
    requires forall y | y in vars :: y in s && y in a
    requires forall y, z | y in vars && z in vars && s[y] == s[z] :: y == z
    requires x in Q.AllVars(p2)
    ensures x in b && x in Pushed(b, s, vars, a) && b[x] == Pushed(b, s, vars, a)[x]
  {
    hide ProperLanguage, Q.Linked;
    if y :| y in vars && s[y] == x {
      var i := VarBlock(p2, x);
      var j := VarBlock(p1, y);
      assert s[y] in l.names[j];
      SameBlock(l, x, i, j);
      var links := ForwardLinks(p1, p2, s);
      assert y in links[j];
      Q.LinkedAt(links, a, b, j, y);
    }
  }

  lemma SubsumedSound(l: Language, p1: Q.Prefix, body1: Elem, p2: Q.Prefix, body2: Elem, s: map<string, string>, permuted: Elem)
    requires ProperLanguage(l) && IsLemma(l, p1, body1) && IsLemma(l, p2, body2)
    requires Q.BlockInjection(l.names, Vars(body1, l.atoms), s) && Substitute(body1, l.atoms, s).Some?
    requires Has(permuted, l.form) && Equivalent(Substitute(body1, l.atoms, s).value, permuted)
    requires Covers(permuted, body2) && Q.PrefixSubsumes(p1, p2)
    ensures LemmaImplies(l, p1, body1, p2, body2)
  {
    hide Covers, Has, Canonical, Q.BlockInjection, Q.QTrue, Q.LinkedBodies, Q.ProperLinks, ProperLanguage, Equivalent, BodyOf;
    var links := ForwardLinks(p1, p2, s);
    ForwardProper(l, p1, p2, Vars(body1, l.atoms), s);
    Q.NothingLinked(links);
    forall m | IsModel(m, l.atoms, |l.names|) && LemmaTrue(l, p1, body1, m) ensures LemmaTrue(l, p2, body2, m) {
      ForwardBodies(l, p1, body1, p2, body2, s, permuted, m);
      Q.LinkedTruth(p1, p2, m.sizes, BodyOf(body1, m), BodyOf(body2, m), links, 0, map[], map[]);
    }
  }

  // The set.

  /** Some permutation of the query is subsumed by the stored body. */
  ghost predicate BodySubsumes(l: Language, stored: Elem, body: Elem) {
    exists s :: SubsumesUnder(l, stored, body, s)
  }

  ghost predicate SubsumesUnder(l: Language, stored: Elem, body: Elem, s: map<string, string>) {
    && Q.BlockInjection(l.names, Vars(body, l.atoms), s) && Substitute(body, l.atoms, s).Some?
    && Covers(stored, Substitute(body, l.atoms, s).value)
  }

  /** Some permutation of the query subsumes the stored body. */
  ghost predicate BodySubsumed(l: Language, body: Elem, stored: Elem) {
    exists s :: SubsumedUnder(l, body, stored, s)
  }

  ghost predicate SubsumedUnder(l: Language, body: Elem, stored: Elem, s: map<string, string>) {
    && Q.BlockInjection(l.names, Vars(body, l.atoms), s) && Substitute(body, l.atoms, s).Some?
    && Covers(Substitute(body, l.atoms, s).value, stored)
  }

  ghost predicate AllLemmas(l: Language, prefixes: map<nat, Q.Prefix>, bodies: map<nat, Elem>) {
    prefixes.Keys == bodies.Keys && forall id | id in prefixes :: IsLemma(l, prefixes[id], bodies[id])
  }

  /** Every stored lemma is true. */
  ghost predicate SetTrue(l: Language, prefixes: map<nat, Q.Prefix>, bodies: map<nat, Elem>, m: Model)
    requires AllLemmas(l, prefixes, bodies) && |m.sizes| == |l.names|
  {
    forall id | id in prefixes :: LemmaTrue(l, prefixes[id], bodies[id], m)
  }

  /** The index lists for every body the lemmas that have it. */
  ghost predicate Indexed(bodies: map<nat, Elem>, index: map<Elem, set<nat>>) {
    && (forall b | b in index :: index[b] != {} && forall id | id in index[b] :: id in bodies && bodies[id] == b)
    && (forall id | id in bodies :: bodies[id] in index && id in index[bodies[id]])
  }

  lemma SubsumesImplies(l: Language, p1: Q.Prefix, body1: Elem, p2: Q.Prefix, body2: Elem)
    requires ProperLanguage(l) && IsLemma(l, p1, body1) && IsLemma(l, p2, body2)
    requires BodySubsumes(l, body1, body2) && Q.PrefixSubsumes(p1, p2)
    ensures LemmaImplies(l, p1, body1, p2, body2)
  {
    hide Covers, Has, Canonical, Q.BlockInjection, LemmaImplies, Q.PrefixSubsumes, ProperLanguage;
    var s :| SubsumesUnder(l, body1, body2, s);
    var permuted := Substitute(body2, l.atoms, s).value;
    SubstituteHas(body2, l.atoms, s, l.form);
    CoversReflexive(permuted);
    SubsumptionSound(l, p1, body1, p2, body2, s, permuted);
  }

  lemma SubsumedImplies(l: Language, p1: Q.Prefix, body1: Elem, p2: Q.Prefix, body2: Elem)
    requires ProperLanguage(l) && IsLemma(l, p1, body1) && IsLemma(l, p2, body2)
    requires BodySubsumed(l, body1, body2) && Q.PrefixSubsumes(p1, p2)
    ensures LemmaImplies(l, p1, body1, p2, body2)
  {
    hide Covers, Has, Canonical, Q.BlockInjection, LemmaImplies, Q.PrefixSubsumes, ProperLanguage;
    var s :| SubsumedUnder(l, body1, body2, s);
    var permuted := Substitute(body1, l.atoms, s).value;
    SubstituteHas(body1, l.atoms, s, l.form);
    CoversReflexive(permuted);
    SubsumedSound(l, p1, body1, p2, body2, s, permuted);
  }

  /** The canonical form of a permuted body is related to exactly what the body is. */
  lemma CanonicalAnswers(stored: Elem, raw: Elem, canonical: Elem, f: Form)
    requires Has(stored, f) && Has(raw, f) && Has(canonical, f) && Canonical(stored) && Canonical(canonical)
    requires Equivalent(raw, canonical)
    ensures Subsumes(stored, canonical) <==> Covers(stored, raw)
    ensures Subsumes(canonical, stored) <==> Covers(raw, stored)
  {
    hide Covers, Has, Canonical, Subsumes;
    SubsumesExact(stored, canonical, f);
    SubsumesExact(canonical, stored, f);
    if Covers(stored, canonical) { CoversTransitive(stored, canonical, raw, f); }
    if Covers(stored, raw) { CoversTransitive(stored, raw, canonical, f); }
    if Covers(canonical, stored) { CoversTransitive(raw, canonical, stored, f); }
    if Covers(raw, stored) { CoversTransitive(canonical, raw, stored, f); }
  }

  /** How a stored lemma relates to a query. */
  predicate Relates(p: Q.Prefix, stored: Elem, prefix: Q.Prefix, canonical: Elem, subsuming: bool) {
    if subsuming then Subsumes(stored, canonical) && Q.PrefixSubsumes(p, prefix)
    else Subsumes(canonical, stored) && Q.PrefixSubsumes(prefix, p)
  }

  lemma RelatedAnswers(l: Language, p: Q.Prefix, stored: Elem, prefix: Q.Prefix, body: Elem, s: map<string, string>, canonical: Elem,
                       subsuming: bool)
    requires IsLemma(l, p, stored) && IsLemma(l, prefix, body) && Q.BlockInjection(l.names, Vars(body, l.atoms), s)
    requires Substitute(body, l.atoms, s).Some? && Has(canonical, l.form) && Canonical(canonical)
    requires Equivalent(Substitute(body, l.atoms, s).value, canonical)
    ensures subsuming ==> (Relates(p, stored, prefix, canonical, true) <==> SubsumesUnder(l, stored, body, s) && Q.PrefixSubsumes(p, prefix))
    ensures !subsuming ==> (Relates(p, stored, prefix, canonical, false) <==> SubsumedUnder(l, body, stored, s) && Q.PrefixSubsumes(prefix, p))
  {
    hide Covers, Has, Canonical, Subsumes, Q.BlockInjection, Q.PrefixSubsumes, Q.AllVars, Equivalent;
    SubstituteHas(body, l.atoms, s, l.form);
    CanonicalAnswers(stored, Substitute(body, l.atoms, s).value, canonical, l.form);
  }

  ghost predicate SubsumedBefore(l: Language, body: Elem, stored: Elem, perms: seq<map<string, string>>, i: nat)
    requires i <= |perms|
  {
    exists k :: 0 <= k < i && SubsumedUnder(l, body, stored, perms[k])
  }

  function WithId(index: map<Elem, set<nat>>, body: Elem, id: nat): map<Elem, set<nat>> {
    index[body := (if body in index then index[body] else {}) + {id}]
  }

  function WithoutId(index: map<Elem, set<nat>>, body: Elem, id: nat): map<Elem, set<nat>>
    requires body in index
  {
    if index[body] - {id} == {} then index - {body} else index[body := index[body] - {id}]
  }

  lemma IndexAdded(bodies: map<nat, Elem>, index: map<Elem, set<nat>>, id: nat, body: Elem)
    requires Indexed(bodies, index) && id !in bodies
    ensures Indexed(bodies[id := body], WithId(index, body, id))
  {
    var index' := WithId(index, body, id);
    assert id in index'[body];
  }

  lemma IndexRemoved(bodies: map<nat, Elem>, index: map<Elem, set<nat>>, id: nat)
    requires Indexed(bodies, index) && id in bodies
    ensures bodies[id] in index && Indexed(bodies - {id}, WithoutId(index, bodies[id], id))
  {
    var body := bodies[id];
    forall k | k in bodies - {id} ensures bodies[k] in WithoutId(index, body, id) && k in WithoutId(index, body, id)[bodies[k]] {
      if bodies[k] == body { assert k in index[body] - {id}; }
    }
  }

  /** A stored lemma that subsumes the query, and the stored lemmas that the query subsumes. */
  ghost predicate SubsumedByStored(l: Language, prefixes: map<nat, Q.Prefix>, bodies: map<nat, Elem>, prefix: Q.Prefix, body: Elem)
    requires prefixes.Keys == bodies.Keys
  {
    exists k :: k in prefixes && BodySubsumes(l, bodies[k], body) && Q.PrefixSubsumes(prefixes[k], prefix)
  }

  ghost function StoredSubsumed(l: Language, prefixes: map<nat, Q.Prefix>, bodies: map<nat, Elem>, prefix: Q.Prefix, body: Elem): set<nat>
    requires prefixes.Keys == bodies.Keys
  {
    set k | k in prefixes && BodySubsumed(l, body, bodies[k]) && Q.PrefixSubsumes(prefix, prefixes[k])
  }

  /** No stored lemma subsumes another, whichever of the two came first. */
  ghost predicate NoneSubsumed(l: Language, prefixes: map<nat, Q.Prefix>, bodies: map<nat, Elem>)
    requires prefixes.Keys == bodies.Keys
  {
    forall i, j | i in prefixes && j in prefixes && i < j :: Unrelated(l, prefixes[i], bodies[i], prefixes[j], bodies[j])
  }

  /** Neither the older lemma subsumes the newer one, nor the other way around. */
  ghost predicate Unrelated(l: Language, p1: Q.Prefix, body1: Elem, p2: Q.Prefix, body2: Elem) {
    && !(BodySubsumes(l, body1, body2) && Q.PrefixSubsumes(p1, p2))
    && !(BodySubsumed(l, body2, body1) && Q.PrefixSubsumes(p2, p1))
  }

  /** The newest lemma is kept only if none subsumes it, and what it subsumes goes. */
  lemma NoneSubsumedAdded(l: Language, prefixes: map<nat, Q.Prefix>, bodies: map<nat, Elem>, prefix: Q.Prefix, body: Elem, id: nat)
    requires prefixes.Keys == bodies.Keys && NoneSubsumed(l, prefixes, bodies) && forall k | k in prefixes :: k < id
    requires !SubsumedByStored(l, prefixes, bodies, prefix, body)
    ensures var ids := StoredSubsumed(l, prefixes, bodies, prefix, body); NoneSubsumed(l, (prefixes - ids)[id := prefix], (bodies - ids)[id := body])
  {
    hide BodySubsumes, BodySubsumed, Q.PrefixSubsumes;
    var ids := StoredSubsumed(l, prefixes, bodies, prefix, body);
    forall k | k in prefixes - ids ensures Unrelated(l, prefixes[k], bodies[k], prefix, body) {}
  }

  class LemmaSet {
    const language: Language
    var toPrefixes: map<nat, Q.Prefix>
    var toBodies: map<nat, Elem>
    var bodies: map<Elem, set<nat>>
    var next: nat

    ghost predicate Valid()
      reads this
    {
      && ProperLanguage(language) && AllLemmas(language, toPrefixes, toBodies) && Indexed(toBodies, bodies)
      && forall id | id in toPrefixes :: id < next
    }

    /** No stored lemma subsumes another. */
    ghost predicate Minimal()
      requires Valid()
      reads this
    {
      NoneSubsumed(language, toPrefixes, toBodies)
    }

    constructor (language: Language)
      requires ProperLanguage(language)
      ensures Valid() && Minimal() && toPrefixes == map[] && this.language == language
    {
      this.language := language;
      toPrefixes, toBodies, bodies, next := map[], map[], map[], 0;
    }

    /** The canonical form of a permutation of a body. */
    method Permuted(body: Elem, s: map<string, string>) returns (r: Elem)
      requires Has(body, language.form) && Substitute(body, language.atoms, s).Some?
      ensures Has(r, language.form) && Canonical(r) && Equivalent(Substitute(body, language.atoms, s).value, r)
    {
      hide Covers, Has, Canonical;
      SubstituteHas(body, language.atoms, s, language.form);
      r := FromBase(Substitute(body, language.atoms, s).value, language.form);
    }

    /** The stored lemmas related to a canonical body and a prefix. */
    method Related(prefix: Q.Prefix, canonical: Elem, subsuming: bool) returns (ids: set<nat>)
      requires Valid()
      ensures forall id :: id in ids <==> id in toPrefixes && Relates(toPrefixes[id], toBodies[id], prefix, canonical, subsuming)
    {
      hide Subsumption.Subsumes, Q.PrefixSubsumes, IsLemma, ProperLanguage;
      ids := set b, id | b in bodies && id in bodies[b] && Relates(toPrefixes[id], b, prefix, canonical, subsuming) :: id;
    }

    /** Whether the body of some stored lemma subsumes a permutation of the query, with a
        prefix that subsumes the query's. */
    method Subsumes(prefix: Q.Prefix, body: Elem) returns (r: bool)
      requires Valid() && IsLemma(language, prefix, body) && ClosedBody(language, body)
      ensures r <==> SubsumedByStored(language, toPrefixes, toBodies, prefix, body)
    {
      hide Covers, Has, Canonical, Subsumption.Subsumes, Q.BlockInjection, Q.PrefixSubsumes, Q.PermutationsOf, ProperLanguage, Q.AllVars;
      hide Indexed, Relates;
      LanguageBlocks(language);
      var perms := Q.PermutationsOf(language.names, Vars(body, language.atoms));
      var i := 0;
      while i < |perms|
        invariant i <= |perms|
        invariant forall k, id | 0 <= k < i && id in toPrefixes && Q.PrefixSubsumes(toPrefixes[id], prefix) ::
          !SubsumesUnder(language, toBodies[id], body, perms[k])
      {
        assert perms[i] in perms;
        Q.PermutationsExact(language.names, Vars(body, language.atoms), perms[i]);
        var canonical := Permuted(body, perms[i]);
        var found := Related(prefix, canonical, true);
        forall id | id in toPrefixes
          ensures id in found <==> SubsumesUnder(language, toBodies[id], body, perms[i]) && Q.PrefixSubsumes(toPrefixes[id], prefix)
        {
          RelatedAnswers(language, toPrefixes[id], toBodies[id], prefix, body, perms[i], canonical, true);
        }
        if found != {} {
          ghost var id :| id in found;
          assert SubsumesUnder(language, toBodies[id], body, perms[i]);
          return true;
        }
        i := i + 1;
      }
      forall id | id in toPrefixes && Q.PrefixSubsumes(toPrefixes[id], prefix) ensures !BodySubsumes(language, toBodies[id], body) {
        NoPermutation(language, toBodies[id], body, perms);
      }
      r := false;
    }

    /** The stored lemmas whose bodies a permutation of the query subsumes, with prefixes that
        the query's subsumes. */
    method GetSubsumed(prefix: Q.Prefix, body: Elem) returns (ids: set<nat>)
      requires Valid() && IsLemma(language, prefix, body) && ClosedBody(language, body)
      ensures ids == StoredSubsumed(language, toPrefixes, toBodies, prefix, body)
    {
      hide Covers, Has, Canonical, Subsumption.Subsumes, Q.BlockInjection, Q.PrefixSubsumes, Q.PermutationsOf, ProperLanguage, Q.AllVars;
      hide Indexed, Relates, SubsumedUnder;
      LanguageBlocks(language);
      var perms := Q.PermutationsOf(language.names, Vars(body, language.atoms));
      ids := {};
      var i := 0;
      while i < |perms|
        invariant i <= |perms|
        invariant forall id :: id in ids <==>
          id in toPrefixes && Q.PrefixSubsumes(prefix, toPrefixes[id]) && SubsumedBefore(language, body, toBodies[id], perms, i)
      {
        assert perms[i] in perms;
        Q.PermutationsExact(language.names, Vars(body, language.atoms), perms[i]);
        var canonical := Permuted(body, perms[i]);
        var found := Related(prefix, canonical, false);
        forall id | id in toPrefixes
          ensures id in found <==> SubsumedUnder(language, body, toBodies[id], perms[i]) && Q.PrefixSubsumes(prefix, toPrefixes[id])
        {
          RelatedAnswers(language, toPrefixes[id], toBodies[id], prefix, body, perms[i], canonical, false);
        }
        ids := ids + found;
        i := i + 1;
      }
      forall id | id in toPrefixes
        ensures BodySubsumed(language, body, toBodies[id]) <==> SubsumedBefore(language, body, toBodies[id], perms, |perms|)
      {
        SomePermutation(language, body, toBodies[id], perms);
      }
    }

    method Insert(prefix: Q.Prefix, body: Elem) returns (id: nat)
      requires Valid() && IsLemma(language, prefix, body)
      modifies this
      ensures Valid() && id == old(next) && id !in old(toPrefixes)
      ensures toPrefixes == old(toPrefixes)[id := prefix] && toBodies == old(toBodies)[id := body]
    {
      hide IsLemma, Indexed, ProperLanguage;
      id := next;
      next := next + 1;
      IndexAdded(toBodies, bodies, id, body);
      toPrefixes := toPrefixes[id := prefix];
      toBodies := toBodies[id := body];
      bodies := WithId(bodies, body, id);
    }

    method Remove(id: nat)
      requires Valid() && id in toPrefixes
      modifies this
      ensures Valid() && toPrefixes == old(toPrefixes) - {id} && toBodies == old(toBodies) - {id} && next == old(next)
      ensures old(Minimal()) ==> Minimal()
    {
      hide IsLemma, Indexed, ProperLanguage, Unrelated;
      IndexRemoved(toBodies, bodies, id);
      var body := toBodies[id];
      toPrefixes := toPrefixes - {id};
      toBodies := toBodies - {id};
      bodies := WithoutId(bodies, body, id);
    }

    /** Insert unless subsumed, and drop what the new lemma subsumes.  In every model with nonempty sorts
        the set then says what it said before together with the new lemma. */
    method InsertMinimized(prefix: Q.Prefix, body: Elem) returns (id: Option<nat>)
      requires Valid() && IsLemma(language, prefix, body) && ClosedBody(language, body)
      modifies this
      ensures Valid() && (old(Minimal()) ==> Minimal())
      ensures id.None? <==> SubsumedByStored(language, old(toPrefixes), old(toBodies), prefix, body)
      ensures id.None? ==> unchanged(this)
      ensures id.Some? ==>
        var ids := StoredSubsumed(language, old(toPrefixes), old(toBodies), prefix, body);
        && id.value == old(next)
        && toPrefixes == (old(toPrefixes) - ids)[id.value := prefix] && toBodies == (old(toBodies) - ids)[id.value := body]
      ensures forall m | IsModel(m, language.atoms, |language.names|) ::
        SetTrue(language, toPrefixes, toBodies, m) <==>
          SetTrue(language, old(toPrefixes), old(toBodies), m) && LemmaTrue(language, prefix, body, m)
    {
      hide IsLemma, ProperLanguage, Indexed, LemmaTrue, BodySubsumes, BodySubsumed, Q.PrefixSubsumes, ClosedBody, IsModel, NoneSubsumed;
      ghost var prefixes, known := toPrefixes, toBodies;
      ModelSizes(language);
      var subsumed := Subsumes(prefix, body);
      if subsumed {
        ghost var k :| k in toPrefixes && BodySubsumes(language, toBodies[k], body) && Q.PrefixSubsumes(toPrefixes[k], prefix);
        SubsumesImplies(language, toPrefixes[k], toBodies[k], prefix, body);
        return None;
      }
      var ids := GetSubsumed(prefix, body);
      forall k | k in ids ensures LemmaImplies(language, prefix, body, toPrefixes[k], toBodies[k]) {
        SubsumedImplies(language, prefix, body, toPrefixes[k], toBodies[k]);
      }
      if NoneSubsumed(language, prefixes, known) { NoneSubsumedAdded(language, prefixes, known, prefix, body, next); }
      var todo := ids;
      while todo != {}
        invariant Valid() && todo <= ids && todo <= toPrefixes.Keys && next == old(next)
        invariant toPrefixes == prefixes - (ids - todo) && toBodies == known - (ids - todo)
        decreases todo
      {
        var k :| k in todo;
        Remove(k);
        todo := todo - {k};
        assert prefixes - (ids - todo) == toPrefixes;
        assert known - (ids - todo) == toBodies;
      }
      assert ids - todo == ids;
      var new_ := Insert(prefix, body);
      assert toPrefixes == (prefixes - ids)[new_ := prefix] && toBodies == (known - ids)[new_ := body];
      Minimized(language, prefixes, known, ids, prefix, body, new_);
      id := Some(new_);
    }
  }

  lemma LanguageBlocks(l: Language)
    requires ProperLanguage(l)
    ensures Q.DistinctBlocks(l.names)
  {
  }

  lemma ModelSizes(l: Language)
    ensures forall m | IsModel(m, l.atoms, |l.names|) :: |m.sizes| == |l.names|
  {
  }

  lemma NoPermutation(l: Language, stored: Elem, body: Elem, perms: seq<map<string, string>>)
    requires ProperLanguage(l) && perms == Q.PermutationsOf(l.names, Vars(body, l.atoms))
    requires forall k | 0 <= k < |perms| :: !SubsumesUnder(l, stored, body, perms[k])
    ensures !BodySubsumes(l, stored, body)
  {
    hide Covers, Q.BlockInjection, Q.PermutationsOf;
    forall s ensures !SubsumesUnder(l, stored, body, s) {
      Q.PermutationsExact(l.names, Vars(body, l.atoms), s);
      if s in perms {
        var k :| 0 <= k < |perms| && perms[k] == s;
      }
    }
  }

  lemma SomePermutation(l: Language, body: Elem, stored: Elem, perms: seq<map<string, string>>)
    requires ProperLanguage(l) && perms == Q.PermutationsOf(l.names, Vars(body, l.atoms))
    ensures BodySubsumed(l, body, stored) <==> SubsumedBefore(l, body, stored, perms, |perms|)
  {
    hide Covers, Q.BlockInjection, Q.PermutationsOf;
    if s :| SubsumedUnder(l, body, stored, s) {
      Q.PermutationsExact(l.names, Vars(body, l.atoms), s);
      var k :| 0 <= k < |perms| && perms[k] == s;
    }
  }

  /** Replacing implied lemmas by the one that implies them. */
  lemma Minimized(l: Language, prefixes: map<nat, Q.Prefix>, bodies: map<nat, Elem>, ids: set<nat>, prefix: Q.Prefix, body: Elem, id: nat)
    requires AllLemmas(l, prefixes, bodies) && ids <= prefixes.Keys && id !in prefixes - ids && IsLemma(l, prefix, body)
    requires forall k | k in ids :: LemmaImplies(l, prefix, body, prefixes[k], bodies[k])
    ensures AllLemmas(l, (prefixes - ids)[id := prefix], (bodies - ids)[id := body])
    ensures forall m | IsModel(m, l.atoms, |l.names|) ::
      SetTrue(l, (prefixes - ids)[id := prefix], (bodies - ids)[id := body], m)
      <==> SetTrue(l, prefixes, bodies, m) && LemmaTrue(l, prefix, body, m)
  {
    hide IsLemma, LemmaTrue;
    var prefixes', bodies' := (prefixes - ids)[id := prefix], (bodies - ids)[id := body];
    forall m | IsModel(m, l.atoms, |l.names|)
      ensures SetTrue(l, prefixes', bodies', m) <==> SetTrue(l, prefixes, bodies, m) && LemmaTrue(l, prefix, body, m)
    {
      if SetTrue(l, prefixes', bodies', m) {
        assert id in prefixes';
        forall k | k in prefixes ensures LemmaTrue(l, prefixes[k], bodies[k], m) {
          if k !in ids { assert k in prefixes' && prefixes'[k] == (if k == id then prefix else prefixes[k]); }
        }
      }
      if SetTrue(l, prefixes, bodies, m) && LemmaTrue(l, prefix, body, m) {
        forall k | k in prefixes' ensures LemmaTrue(l, prefixes'[k], bodies'[k], m) {
          if k != id { assert k in prefixes; }
        }
      }
    }
  }
}
