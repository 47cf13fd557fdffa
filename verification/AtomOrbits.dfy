/** Bodies over atoms that are terms, permuted within the blocks: the permutations act as a group, so weakening single
    clauses over a closed set of atoms misses none. */
module AtomOrbits {
  import opened Collections
  import opened Syntax
  import opened Semantics
  import opened Subsumption
  import opened LemmaBodies
  import opened BodyForms
  import opened Weakening
  import opened FirstWeakenings
  import opened SingleClauses
  import opened AtomTerms
  import opened BlockPermutations
  import FM = FiniteModels
  import LS = LemmaSets
  import Q = Quantifiers

  /** What a setting of conjunctive lemmas is made of. */
  datatype Source = Source(prefix: Q.Prefix, limits: Limits, terms: seq<Term>, allowed: seq<nat>, nonUniversal: set<string>)

  function AllowedSet(c: Source): set<nat> {
    set i | i in c.allowed
  }

  function AtomsIn(c: Source): LS.Atoms {
    AtomsFor(c.terms, AllowedSet(c), Q.AllVars(c.prefix))
  }

  function EnvOf(c: Source): Setting
    requires Q.Proper(c.prefix)
  {
    SettingOf(c.prefix, Cnf, c.limits, c.terms, c.allowed, c.nonUniversal)
  }

  function Image(c: Source, i: nat, p: map<string, string>): Option<nat> {
    SubstituteAtom(c.terms, AllowedSet(c), Q.AllVars(c.prefix), i, p)
  }

  /** Permuting the variables within the blocks turns atoms into atoms. */
  ghost predicate ClosedAtoms(c: Source) {
    forall i, p | i in c.allowed && BlockPermutation(c.prefix, 0, p) :: Image(c, i, p).Some?
  }

  ghost predicate ProperSource(c: Source) {
    && Q.Proper(c.prefix) && ProperTerms(c.terms) && (forall i | i in c.allowed :: i < |c.terms|)
    && ClosedAtoms(c)
  }

  // Atoms under permutations.

  predicate IsEquality(t: Term) {
    t.BinOp? && t.bop == Equals
  }

  function Turned(t: Term): Term
    requires IsEquality(t)
  {
    BinOp(Equals, t.rhs, t.lhs)
  }

  /** The atom is the term, or the equality turned around. */
  predicate StandsFor(terms: seq<Term>, j: nat, t: Term) {
    j < |terms| && (terms[j] == t || (IsEquality(t) && terms[j] == Turned(t)))
  }

  lemma PlaceExact(terms: seq<Term>, t: Term, j: nat)
    requires NoDuplicates(terms)
    ensures FM.Place(terms, t) == Some(j) <==> j < |terms| && terms[j] == t
  {
    if j < |terms| && terms[j] == t { PlaceOf(terms, j); }
  }

  lemma StandsOnce(terms: seq<Term>, t: Term, j: nat, k: nat)
    requires ProperTerms(terms) && StandsFor(terms, j, t) && StandsFor(terms, k, t)
    ensures j == k
  {
    hide QuantifierFree;
    assert terms[j] in terms && terms[k] in terms;
    if IsEquality(t) && t in terms && Turned(t) in terms { assert t.lhs == t.rhs; }
    PlaceExact(terms, terms[j], j);
    PlaceExact(terms, terms[j], k);
  }

  /** The image of an atom is the allowed atom that stands for the renamed term. */
  lemma ImageExact(terms: seq<Term>, allowed: set<nat>, vars: set<string>, i: nat, s: map<string, string>, j: nat)
    requires ProperTerms(terms)
    ensures SubstituteAtom(terms, allowed, vars, i, s) == Some(j)
      <==> i < |terms| && s.Keys <= vars && s.Values <= vars && j in allowed && StandsFor(terms, j, SubstituteQf(terms[i], s))
  {
    hide SubstituteQf, QuantifierFree;
    if i < |terms| && s.Keys <= vars && s.Values <= vars {
      var t := SubstituteQf(terms[i], s);
      PlaceExact(terms, t, j);
      if IsEquality(t) {
        PlaceExact(terms, Turned(t), j);
        var other := FM.Place(terms, Turned(t));
        if other.Some? && StandsFor(terms, j, t) { StandsOnce(terms, t, other.value, j); }
      }
    }
  }

  lemma {:induction false} SubstituteTwice(t: Term, p: map<string, string>, q: map<string, string>, r: map<string, string>)
    requires forall x :: LS.Target(q, LS.Target(p, x)) == LS.Target(r, x)
    ensures SubstituteQf(SubstituteQf(t, p), q) == SubstituteQf(t, r)
    decreases t
  {
    hide LS.Target;
    match t
    case Literal(_) =>
    case Id(name) =>
    case App(_, _, args) =>
      forall i | 0 <= i < |args| ensures SubstituteQf(SubstituteQf(args[i], p), q) == SubstituteQf(args[i], r) { SubstituteTwice(args[i], p, q, r); }
      assert SubstituteEach(SubstituteEach(args, p), q) == SubstituteEach(args, r);
    case UnaryOp(_, x) => SubstituteTwice(x, p, q, r);
    case BinOp(_, x, y) => SubstituteTwice(x, p, q, r); SubstituteTwice(y, p, q, r);
    case NAryOp(_, args) =>
      forall i | 0 <= i < |args| ensures SubstituteQf(SubstituteQf(args[i], p), q) == SubstituteQf(args[i], r) { SubstituteTwice(args[i], p, q, r); }
      assert SubstituteEach(SubstituteEach(args, p), q) == SubstituteEach(args, r);
    case Ite(a, x, y) => SubstituteTwice(a, p, q, r); SubstituteTwice(x, p, q, r); SubstituteTwice(y, p, q, r);
    case Quantified(_, _, _) =>
  }

  /** Equal, or an equality turned around. */
  predicate SameAtom(t: Term, u: Term) {
    t == u || (IsEquality(u) && t == Turned(u))
  }

  lemma SameStands(terms: seq<Term>, k: nat, t: Term, u: Term)
    requires SameAtom(t, u)
    ensures StandsFor(terms, k, t) <==> StandsFor(terms, k, u)
  {
  }

  lemma SourceParts(c: Source)
    requires ProperSource(c)
    ensures Q.Proper(c.prefix) && ProperTerms(c.terms) && forall i | i in c.allowed :: i < |c.terms|
  {
  }

  lemma ImageMeans(c: Source, i: nat, p: map<string, string>, j: nat)
    requires ProperTerms(c.terms) && BlockPermutation(c.prefix, 0, p)
    ensures Image(c, i, p) == Some(j) <==> i < |c.terms| && j in c.allowed && StandsFor(c.terms, j, SubstituteQf(c.terms[i], p))
  {
    PermutationSpan(c.prefix, 0, p);
    hide Q.AllVars, BlockPermutation, SubstituteAtom, ProperTerms, StandsFor, SubstituteQf;
    ImageExact(c.terms, AllowedSet(c), Q.AllVars(c.prefix), i, p, j);
  }

  /** Two permutations one after the other. */
  lemma ImageTwice(c: Source, i: nat, j: nat, p: map<string, string>, q: map<string, string>)
    requires ProperSource(c) && BlockPermutation(c.prefix, 0, p) && BlockPermutation(c.prefix, 0, q) && Image(c, i, p) == Some(j)
    ensures Composable(p, q) && Image(c, j, q) == Image(c, i, Then(p, q))
  {
    hide *;
    SourceParts(c);
    ThenPermutes(c.prefix, 0, p, q);
    PermutationSpan(c.prefix, 0, p);
    PermutationSpan(c.prefix, 0, q);
    ThenTargets(p, q);
    ImageMeans(c, i, p, j);
    SubstituteTwice(c.terms[i], p, q, Then(p, q));
    StandsIndex(c.terms, j, SubstituteQf(c.terms[i], p));
    RenamedTurned(c.terms, i, j, p, q);
    forall k: nat ensures Image(c, j, q) == Some(k) <==> Image(c, i, Then(p, q)) == Some(k) {
      ImageMeans(c, j, q, k);
      ImageMeans(c, i, Then(p, q), k);
      SameStands(c.terms, k, SubstituteQf(c.terms[j], q), SubstituteQf(SubstituteQf(c.terms[i], p), q));
    }
    SameOption(Image(c, j, q), Image(c, i, Then(p, q)));
  }

  lemma StandsIndex(terms: seq<Term>, j: nat, t: Term)
    requires StandsFor(terms, j, t)
    ensures j < |terms|
  {
  }

  lemma SameOption(a: Option<nat>, b: Option<nat>)
    requires forall k: nat :: a == Some(k) <==> b == Some(k)
    ensures a == b
  {
    if a.Some? { assert b == Some(a.value); }
    if b.Some? { assert a == Some(b.value); }
  }

  lemma RenamedTurned(terms: seq<Term>, i: nat, j: nat, p: map<string, string>, q: map<string, string>)
    requires i < |terms| && StandsFor(terms, j, SubstituteQf(terms[i], p))
    ensures SameAtom(SubstituteQf(terms[j], q), SubstituteQf(SubstituteQf(terms[i], p), q))
  {
  }

  lemma ImageAllowed(c: Source, i: nat, p: map<string, string>)
    requires ProperSource(c) && i in c.allowed && BlockPermutation(c.prefix, 0, p)
    ensures Image(c, i, p).Some? && Image(c, i, p).value in c.allowed && Image(c, i, p).value < |c.terms|
  {
    hide Q.Proper, BlockPermutation, ProperTerms, SubstituteQf;
    var j := Image(c, i, p).value;
    ImageExact(c.terms, AllowedSet(c), Q.AllVars(c.prefix), i, p, j);
  }

  /** And back. */
  lemma ImageBack(c: Source, i: nat, p: map<string, string>)
    requires ProperSource(c) && i in c.allowed && BlockPermutation(c.prefix, 0, p)
    ensures Image(c, i, p).Some? && InjectiveMap(p) && Image(c, Image(c, i, p).value, Back(p)) == Some(i)
  {
    hide *;
    SourceParts(c);
    ImageAllowed(c, i, p);
    ThenBack(c.prefix, 0, p);
    ImageTwice(c, i, Image(c, i, p).value, p, Back(p));
    NothingImage(c, i, Then(p, Back(p)));
  }

  lemma NothingImage(c: Source, i: nat, p: map<string, string>)
    requires ProperSource(c) && i in c.allowed && BlockPermutation(c.prefix, 0, p) && forall x | x in p :: p[x] == x
    ensures Image(c, i, p) == Some(i)
  {
    PermutationSpan(c.prefix, 0, p);
    hide Q.AllVars, SubstituteAtom, ClosedAtoms, BlockPermutation, ProperTerms, Q.Proper;
    SubstituteAtomNothing(c.terms, AllowedSet(c), Q.AllVars(c.prefix), i, p);
  }

  // Bodies under permutations.

  function Moved(c: Source, e: Elem, p: map<string, string>): Option<Elem> {
    LS.Substitute(e, AtomsIn(c), p)
  }

  function MovedAll(c: Source, es: seq<Elem>, p: map<string, string>): Option<seq<Elem>> {
    LS.SubstituteAll(es, AtomsIn(c), p)
  }

  ghost predicate Over(c: Source, e: Elem) {
    forall i | i in AtomsOf(e) :: i in c.allowed
  }

  ghost predicate AllOver(c: Source, es: seq<Elem>) {
    forall i | i in AtomsOfAll(es) :: i in c.allowed
  }

  /** A body over the atoms has an image over the atoms, in as many parts. */
  lemma {:induction false} MovedOver(c: Source, e: Elem, p: map<string, string>)
    requires ProperSource(c) && Over(c, e) && BlockPermutation(c.prefix, 0, p)
    ensures Moved(c, e, p).Some? && Over(c, Moved(c, e, p).value)
    decreases e, 1
  {
    hide ProperSource, BlockPermutation, SubstituteAtom;
    match e
    case ELit(i, _) =>
      assert i in AtomsOf(e);
      ImageAllowed(c, i, p);
    case AndOf(es) => MovedAllOver(c, es, p);
    case Rev(x) => MovedOver(c, x, p);
    case PairOf(x, y) => MovedOver(c, x, p); MovedOver(c, y, p);
  }

  lemma {:induction false} MovedAllOver(c: Source, es: seq<Elem>, p: map<string, string>)
    requires ProperSource(c) && AllOver(c, es) && BlockPermutation(c.prefix, 0, p)
    ensures MovedAll(c, es, p).Some? && |MovedAll(c, es, p).value| == |es| && AllOver(c, MovedAll(c, es, p).value)
    ensures forall i | 0 <= i < |es| :: Moved(c, es[i], p) == Some(MovedAll(c, es, p).value[i])
    decreases es, 0
  {
    hide ProperSource, BlockPermutation;
    if es != [] {
      MovedOver(c, es[0], p);
      MovedAllOver(c, es[1..], p);
      var r, rs := Moved(c, es[0], p).value, MovedAll(c, es[1..], p).value;
      assert MovedAll(c, es, p) == Some([r] + rs);
      assert ([r] + rs)[1..] == rs;
      forall i | 0 <= i < |es| ensures Moved(c, es[i], p) == Some(([r] + rs)[i]) { if i > 0 { assert es[i] == es[1..][i - 1]; } }
    }
  }

  /** Images of two permutations, one after the other. */
  lemma {:induction false} MovedTwice(c: Source, e: Elem, p: map<string, string>, q: map<string, string>)
    requires ProperSource(c) && Over(c, e) && BlockPermutation(c.prefix, 0, p) && BlockPermutation(c.prefix, 0, q)
    ensures Composable(p, q) && Moved(c, e, p).Some? && Moved(c, Moved(c, e, p).value, q) == Moved(c, e, Then(p, q))
    decreases e, 1
  {
    hide ProperSource, BlockPermutation, SubstituteAtom, Then, Composable;
    MovedOver(c, e, p);
    ThenPermutes(c.prefix, 0, p, q);
    match e
    case ELit(i, _) =>
      assert i in AtomsOf(e);
      ImageAllowed(c, i, p);
      ImageTwice(c, i, Image(c, i, p).value, p, q);
    case AndOf(es) => MovedAllTwice(c, es, p, q);
    case Rev(x) => MovedTwice(c, x, p, q);
    case PairOf(x, y) => MovedTwice(c, x, p, q); MovedTwice(c, y, p, q);
  }

  lemma {:induction false} MovedAllTwice(c: Source, es: seq<Elem>, p: map<string, string>, q: map<string, string>)
    requires ProperSource(c) && AllOver(c, es) && BlockPermutation(c.prefix, 0, p) && BlockPermutation(c.prefix, 0, q)
    ensures Composable(p, q) && MovedAll(c, es, p).Some?
    ensures MovedAll(c, MovedAll(c, es, p).value, q) == MovedAll(c, es, Then(p, q))
    decreases es, 0
  {
    hide ProperSource, BlockPermutation, Then, Composable;
    MovedAllOver(c, es, p);
    ThenPermutes(c.prefix, 0, p, q);
    if es != [] {
      MovedTwice(c, es[0], p, q);
      MovedAllTwice(c, es[1..], p, q);
      var r, rs := Moved(c, es[0], p).value, MovedAll(c, es[1..], p).value;
      assert MovedAll(c, es, p) == Some([r] + rs);
      assert ([r] + rs)[1..] == rs;
    }
  }

  lemma MovedBack(c: Source, e: Elem, p: map<string, string>)
    requires ProperSource(c) && Over(c, e) && BlockPermutation(c.prefix, 0, p)
    ensures Moved(c, e, p).Some? && InjectiveMap(p) && Moved(c, Moved(c, e, p).value, Back(p)) == Some(e)
  {
    hide ProperSource, BlockPermutation, Q.Proper, ProperTerms, LS.Substitute, Then, Composable, InjectiveMap, Back, SubstituteAtom;
    SourceParts(c);
    MovedOver(c, e, p);
    ThenBack(c.prefix, 0, p);
    ThenPermutes(c.prefix, 0, p, Back(p));
    MovedTwice(c, e, p, Back(p));
    forall i | i in AtomsOf(e) ensures AtomsIn(c).substitute(i, Then(p, Back(p))) == Some(i) { NothingImage(c, i, Then(p, Back(p))); }
    BodyNothing(e, AtomsIn(c), Then(p, Back(p)));
  }

  /** What covers a body covers its image with the image. */
  lemma {:induction false} MovedCovers(c: Source, a: Elem, b: Elem, p: map<string, string>)
    requires ProperSource(c) && Over(c, a) && Over(c, b) && BlockPermutation(c.prefix, 0, p) && Covers(a, b)
    ensures Moved(c, a, p).Some? && Moved(c, b, p).Some? && Covers(Moved(c, a, p).value, Moved(c, b, p).value)
    decreases Weight(a) + Weight(b)
  {
    MovedOver(c, a, p);
    MovedOver(c, b, p);
    hide ProperSource, BlockPermutation, SubstituteAtom;
    match (a, b)
    case (ELit(_, _), ELit(_, _)) =>
    case (AndOf(xs), AndOf(ys)) => MovedCoversAll(c, xs, ys, p);
    case (Rev(x), Rev(y)) => MovedCovers(c, y, x, p);
    case (PairOf(x1, x2), PairOf(y1, y2)) => MovedCovers(c, x1, y1, p); MovedCovers(c, x2, y2, p);
    case _ =>
  }

  lemma PartOver(c: Source, es: seq<Elem>, i: nat)
    requires AllOver(c, es) && i < |es|
    ensures Over(c, es[i])
  {
    assert es[i] in es;
  }

  lemma {:induction false} MovedCoversAll(c: Source, xs: seq<Elem>, ys: seq<Elem>, p: map<string, string>)
    requires ProperSource(c) && AllOver(c, xs) && AllOver(c, ys) && BlockPermutation(c.prefix, 0, p) && CoversAll(xs, ys)
    ensures MovedAll(c, xs, p).Some? && MovedAll(c, ys, p).Some? && CoversAll(MovedAll(c, xs, p).value, MovedAll(c, ys, p).value)
    decreases Weights(xs) + Weights(ys)
  {
    MovedAllOver(c, xs, p);
    MovedAllOver(c, ys, p);
    hide ProperSource, BlockPermutation, Covers, LS.Substitute, LS.SubstituteAll, Over, AllOver;
    var us, vs := MovedAll(c, xs, p).value, MovedAll(c, ys, p).value;
    forall j | 0 <= j < |vs| ensures CoversSome(us, vs[j]) {
      assert CoversSome(xs, ys[j]);
      var i :| 0 <= i < |xs| && Covers(xs[i], ys[j]);
      WeightIn(xs, xs[i]);
      WeightIn(ys, ys[j]);
      PartOver(c, xs, i);
      PartOver(c, ys, j);
      MovedCovers(c, xs[i], ys[j], p);
      assert Covers(us[i], vs[j]);
    }
  }

  // The permuted forms of a body are its images under the permutations.

  ghost predicate FormOfMoved(c: Source, e: Elem, i: nat, p: map<string, string>, x: Elem) {
    BlockPermutation(c.prefix, i, p) && Moved(c, e, p).Some? && x == CanonicalForm(Moved(c, e, p).value)
  }

  lemma OkOver(c: Source, e: Elem)
    requires ProperSource(c) && BodyOk(EnvOf(c), e)
    ensures Over(c, e) && Has(e, FormOf(Cnf)) && Canonical(e) && LS.Vars(e, AtomsIn(c)) <= Q.AllVars(c.prefix)
    ensures forall i | i in AtomsOf(e) :: i < |c.terms| && IdsOf(c.terms[i]) * Q.AllVars(c.prefix) <= LS.Vars(e, AtomsIn(c))
  {
    SourceParts(c);
    BodyTerms(c.prefix, Cnf, c.limits, c.terms, c.allowed, c.nonUniversal, e);
    hide BodyOk, SettingOf, LS.Vars, Q.AllVars, Q.Proper, ProperSource, Has, Canonical;
  }

  lemma OverOk(c: Source, e: Elem)
    requires ProperSource(c) && Over(c, e) && Has(e, FormOf(Cnf)) && Canonical(e)
    ensures BodyOk(EnvOf(c), e)
  {
    hide Has, Canonical, ProperTerms, ClosedAtoms, Q.Proper;
  }

  /** A renaming that agrees with a permutation on the variables of a body has the same image. */
  lemma SameMoved(c: Source, e: Elem, s: map<string, string>, p: map<string, string>)
    requires ProperSource(c) && BodyOk(EnvOf(c), e) && AtomTerms.Within(s, Q.AllVars(c.prefix)) && AtomTerms.Within(p, Q.AllVars(c.prefix))
    requires SameTargets(LS.Vars(e, AtomsIn(c)), s, p)
    ensures Moved(c, e, s) == Moved(c, e, p)
  {
    OkOver(c, e);
    hide BodyOk, SettingOf, LS.Vars, Q.AllVars, Q.Proper, ProperSource, Has, Canonical, AtomTerms.Within, SubstituteAtom, LS.Target;
    forall i | i in AtomsOf(e) ensures AtomsIn(c).substitute(i, s) == AtomsIn(c).substitute(i, p) {
      SubstituteAtomSame(c.terms, AllowedSet(c), Q.AllVars(c.prefix), i, s, p);
    }
    BodySame(e, AtomsIn(c), s, p);
  }

  lemma TriedInjects(prefix: Q.Prefix, i: nat, ids: set<string>, s: map<string, string>)
    requires Q.Proper(prefix)
    ensures var n := if i < |prefix.names| then i else |prefix.names|;
            s in PermutationsFrom(prefix, i, ids) <==> Q.BlockInjection(prefix.names[n..], ids, s)
  {
    if i < |prefix.names| {
      DistinctNames(prefix, i);
      hide Q.BlockInjection, Q.PermutationsOf, Q.Proper;
      Q.PermutationsExact(prefix.names[i..], ids, s);
    } else {
      assert prefix.names[|prefix.names|..] == [];
      NothingInjects(ids);
      assert Q.BlockInjection([], ids, s) ==> s == map[];
    }
  }

  lemma CappedPermutation(prefix: Q.Prefix, i: nat, p: map<string, string>)
    ensures BlockPermutation(prefix, i, p) <==> BlockPermutation(prefix, if i < |prefix.names| then i else |prefix.names|, p)
  {
    hide Q.AllVars, InjectiveMap;
  }

  lemma PermutedMoved(c: Source, i: nat, e: Elem, x: Elem) returns (p: map<string, string>)
    requires ProperSource(c) && BodyOk(EnvOf(c), e) && x in EnvOf(c).permuted(i, e)
    ensures FormOfMoved(c, e, i, p, x)
  {
    hide BodyOk, LS.Vars, Q.AllVars, Q.Proper, ClosedAtoms, ProperTerms, Has, Canonical, AtomTerms.Within, LS.Substitute, CanonicalForm, PermutationsFrom;
    hide Q.BlockInjection, BlockPermutation, SameTargets;
    SourceParts(c);
    OkOver(c, e);
    var ids, n := LS.Vars(e, AtomsIn(c)), if i < |c.prefix.names| then i else |c.prefix.names|;
    FormsMembers(e, AtomsIn(c), PermutationsFrom(c.prefix, i, ids), x);
    var s :| s in PermutationsFrom(c.prefix, i, ids) && FormUnder(e, AtomsIn(c), s, x);
    TriedInjects(c.prefix, i, ids, s);
    PermutationWithin(c.prefix, i, ids, s);
    p := InjectionExtends(c.prefix, n, ids, s);
    CappedPermutation(c.prefix, i, p);
    AgreesMoved(c, e, i, s, p);
  }

  lemma AgreesMoved(c: Source, e: Elem, i: nat, s: map<string, string>, p: map<string, string>)
    requires ProperSource(c) && BodyOk(EnvOf(c), e) && AtomTerms.Within(s, Q.AllVars(c.prefix)) && BlockPermutation(c.prefix, i, p)
    requires forall x | x in LS.Vars(e, AtomsIn(c)) :: x in p && LS.Target(s, x) == p[x]
    ensures Moved(c, e, s) == Moved(c, e, p)
  {
    PermutationSpan(c.prefix, i, p);
    hide BodyOk, LS.Vars, Q.AllVars, ProperSource, BlockPermutation, SettingOf, LS.Substitute;
    SameMoved(c, e, s, p);
  }

  lemma MovedPermuted(c: Source, i: nat, e: Elem, p: map<string, string>, x: Elem)
    requires ProperSource(c) && BodyOk(EnvOf(c), e) && FormOfMoved(c, e, i, p, x)
    ensures x in EnvOf(c).permuted(i, e)
  {
    hide BodyOk, LS.Vars, Q.AllVars, Q.Proper, ClosedAtoms, ProperTerms, Has, Canonical, AtomTerms.Within, LS.Substitute, CanonicalForm, PermutationsFrom;
    hide Q.BlockInjection, BlockPermutation, SameTargets;
    SourceParts(c);
    OkOver(c, e);
    var ids, n := LS.Vars(e, AtomsIn(c)), if i < |c.prefix.names| then i else |c.prefix.names|;
    CappedPermutation(c.prefix, i, p);
    var s := Restricted(c.prefix.names[n..], ids, p);
    RestrictedInjection(c.prefix, n, ids, p);
    PermutationSpan(c.prefix, i, p);
    TriedInjects(c.prefix, i, ids, s);
    PermutationWithin(c.prefix, i, ids, s);
    AgreesMoved(c, e, i, s, p);
    assert FormUnder(e, AtomsIn(c), s, x);
    FormsMembers(e, AtomsIn(c), PermutationsFrom(c.prefix, i, ids), x);
  }

  // Orbits.

  lemma FormParts(c: Source, e: Elem, i: nat, p: map<string, string>, x: Elem) returns (raw: Elem)
    requires ProperSource(c) && BodyOk(EnvOf(c), e) && FormOfMoved(c, e, i, p, x)
    ensures Moved(c, e, p) == Some(raw) && Over(c, raw) && Has(raw, FormOf(Cnf)) && BlockPermutation(c.prefix, 0, p)
    ensures BodyOk(EnvOf(c), x) && Has(x, FormOf(Cnf)) && Canonical(x) && Covers(raw, x) && Covers(x, raw) && x == CanonicalForm(raw)
  {
    hide BodyOk, ProperSource, Has, Canonical, CanonicalForm, LS.Substitute, SettingOf, BlockPermutation, Over, Covers;
    OkOver(c, e);
    LaterPermutes(c.prefix, 0, i, p);
    MovedOver(c, e, p);
    raw := Moved(c, e, p).value;
    LS.SubstituteHas(e, AtomsIn(c), p, FormOf(Cnf));
    CanonicalFormExact(raw, FormOf(Cnf));
    EquivalentParts(raw, x);
    FewerAtoms(c, raw, x);
    OverOk(c, x);
  }

  lemma FewerAtoms(c: Source, raw: Elem, x: Elem)
    requires Over(c, raw) && AtomsOf(x) <= AtomsOf(raw)
    ensures Over(c, x)
  {
  }

  /** What covers an image of a clause: its own images cover permuted clauses. */
  lemma ImageReaches(c: Source, i: nat, g: Elem, p: map<string, string>, v: Elem, u: Elem, q: map<string, string>)
    requires ProperSource(c) && BodyOk(EnvOf(c), g) && BlockPermutation(c.prefix, i, p) && BlockPermutation(c.prefix, i, q)
    requires Moved(c, g, p) == Some(v) && Over(c, u) && Has(u, FormOf(Cnf)) && Covers(u, v)
    ensures Moved(c, u, q).Some? && Has(Moved(c, u, q).value, FormOf(Cnf)) && ReachedBy(Orbit(EnvOf(c), i, g), Moved(c, u, q).value)
  {
    hide BodyOk, ProperSource, Has, Canonical, CanonicalForm, LS.Substitute, SettingOf, BlockPermutation, Over, Covers, Then, Composable;
    SourceParts(c);
    LaterPermutes(c.prefix, 0, i, p);
    LaterPermutes(c.prefix, 0, i, q);
    OkOver(c, g);
    MovedOver(c, g, p);
    MovedOver(c, u, q);
    MovedCovers(c, u, v, q);
    MovedTwice(c, g, p, q);
    ThenPermutes(c.prefix, i, p, q);
    var pq := Then(p, q);
    var x := CanonicalForm(Moved(c, g, pq).value);
    assert FormOfMoved(c, g, i, pq, x);
    var raw := FormParts(c, g, i, pq, x);
    MovedPermuted(c, i, g, pq, x);
    LS.SubstituteHas(u, AtomsIn(c), q, FormOf(Cnf));
    CoversTransitive(Moved(c, u, q).value, raw, x, FormOf(Cnf));
    InOrbit(EnvOf(c), i, g, x, Moved(c, u, q).value);
  }

  lemma InOrbit(env: Setting, i: nat, g: Elem, x: Elem, e: Elem)
    requires x in env.permuted(i, g) && Covers(e, x)
    ensures x in Orbit(env, i, g) && ReachedBy(Orbit(env, i, g), e)
  {
    hide Covers;
    assert x in Orbit(env, i, g);
  }

  lemma OutOfOrbit(env: Setting, i: nat, g: Elem, e: Elem) returns (x: Elem)
    requires ReachedBy(Orbit(env, i, g), e)
    ensures x in env.permuted(i, g) && Covers(e, x)
  {
    hide Covers;
    x :| x in Orbit(env, i, g) && Covers(e, x);
  }

  /** A body subsumed by a permuted body: the permuted one covers what it covers. */
  lemma PermutedReaches(c: Source, i: nat, g: Elem, a: Elem, p: Elem, b: Elem)
    requires ProperSource(c) && BodyOk(EnvOf(c), g) && BodyOk(EnvOf(c), a) && BodyOk(EnvOf(c), b)
    requires p in EnvOf(c).permuted(i, a) && Subsumes(p, b) && ReachedBy(Orbit(EnvOf(c), i, g), b)
    ensures ReachedBy(Orbit(EnvOf(c), i, g), a)
  {
    hide *;
    SourceParts(c);
    var env := EnvOf(c);
    var x := OutOfOrbit(env, i, g, b);
    var s := PermutedMoved(c, i, g, x);
    var mg := FormParts(c, g, i, s, x);
    var t := PermutedMoved(c, i, a, p);
    var ma := FormParts(c, a, i, t, p);
    OkOver(c, a);
    OkOver(c, b);
    SubsumesExact(p, b, FormOf(Cnf));
    CoversTransitive(ma, p, b, FormOf(Cnf));
    CoversTransitive(ma, b, x, FormOf(Cnf));
    CoversTransitive(ma, x, mg, FormOf(Cnf));
    FormPermutes(c, g, i, s, x);
    FormPermutes(c, a, i, t, p);
    ThenBack(c.prefix, i, t);
    MovedBack(c, a, t);
    ImageReaches(c, i, g, s, mg, ma, Back(t));
  }

  lemma FormPermutes(c: Source, e: Elem, i: nat, p: map<string, string>, x: Elem)
    requires FormOfMoved(c, e, i, p, x)
    ensures BlockPermutation(c.prefix, i, p)
  {
    hide BlockPermutation, CanonicalForm, LS.Substitute;
  }

  /** A body that subsumes a permuted body covers what that body covers. */
  lemma SubsumesPermuted(c: Source, i: nat, g: Elem, a: Elem, p: Elem, b: Elem)
    requires ProperSource(c) && BodyOk(EnvOf(c), g) && BodyOk(EnvOf(c), a) && BodyOk(EnvOf(c), b)
    requires p in EnvOf(c).permuted(i, b) && Subsumes(a, p) && ReachedBy(Orbit(EnvOf(c), i, g), b)
    ensures ReachedBy(Orbit(EnvOf(c), i, g), a)
  {
    hide *;
    SourceParts(c);
    var env := EnvOf(c);
    var x := OutOfOrbit(env, i, g, b);
    var s := PermutedMoved(c, i, g, x);
    var mg := FormParts(c, g, i, s, x);
    var t := PermutedMoved(c, i, b, p);
    var mb := FormParts(c, b, i, t, p);
    OkOver(c, a);
    OkOver(c, b);
    SubsumesExact(a, p, FormOf(Cnf));
    CoversTransitive(b, x, mg, FormOf(Cnf));
    FormPermutes(c, g, i, s, x);
    FormPermutes(c, b, i, t, p);
    ImageReaches(c, i, g, s, mg, b, t);
    var y := OutOfOrbit(env, i, g, mb);
    var w := PermutedMoved(c, i, g, y);
    var _ := FormParts(c, g, i, w, y);
    CoversTransitive(a, p, mb, FormOf(Cnf));
    CoversTransitive(a, mb, y, FormOf(Cnf));
    InOrbit(env, i, g, y, a);
  }

  lemma OrbitCovering(c: Source, i: nat, g: Elem)
    requires ProperSource(c) && BodyOk(EnvOf(c), g)
    ensures CoveringAt(EnvOf(c), i, Towards(Orbit(EnvOf(c), i, g)))
  {
    hide ProperSource, BodyOk, SettingOf, ReachedBy, Orbit, Subsumes;
    SourceParts(c);
    var env := EnvOf(c);
    var orbit := Orbit(env, i, g);
    forall a, p, b | BodyOk(env, a) && BodyOk(env, b) && p in env.permuted(i, a) && Subsumes(p, b) ensures Towards(orbit)(a, b) {
      if ReachedBy(orbit, b) { PermutedReaches(c, i, g, a, p, b); }
    }
    forall a, p, b | BodyOk(env, a) && BodyOk(env, b) && p in env.permuted(i, b) && Subsumes(a, p) ensures Towards(orbit)(a, b) {
      if ReachedBy(orbit, b) { SubsumesPermuted(c, i, g, a, p, b); }
    }
  }

  /** Permuting a permuted body gives a permuted body. */
  lemma OrbitTwice(c: Source, i: nat, j: nat, g: Elem, y: Elem, z: Elem)
    requires ProperSource(c) && BodyOk(EnvOf(c), g) && i <= j && y in EnvOf(c).permuted(i, g) && z in EnvOf(c).permuted(j, y)
    ensures z in EnvOf(c).permuted(i, g)
  {
    hide *;
    SourceParts(c);
    var s := PermutedMoved(c, i, g, y);
    var mg := FormParts(c, g, i, s, y);
    var t := PermutedMoved(c, j, y, z);
    var my := FormParts(c, y, j, t, z);
    FormPermutes(c, g, i, s, y);
    FormPermutes(c, y, j, t, z);
    LaterPermutes(c.prefix, i, j, t);
    LaterPermutes(c.prefix, 0, i, s);
    OkOver(c, g);
    OkOver(c, y);
    MovedCovers(c, y, mg, t);
    MovedCovers(c, mg, y, t);
    MovedTwice(c, g, s, t);
    ThenPermutes(c.prefix, i, s, t);
    FoldMoved(c, g, i, Then(s, t), my, z);
    MovedPermuted(c, i, g, Then(s, t), z);
  }

  lemma FoldMoved(c: Source, e: Elem, i: nat, p: map<string, string>, raw: Elem, x: Elem)
    requires ProperSource(c) && BodyOk(EnvOf(c), e) && BlockPermutation(c.prefix, i, p) && Moved(c, e, p).Some?
    requires Covers(raw, Moved(c, e, p).value) && Covers(Moved(c, e, p).value, raw) && Has(raw, FormOf(Cnf))
    requires Has(x, FormOf(Cnf)) && Canonical(x) && Covers(raw, x) && Covers(x, raw)
    ensures FormOfMoved(c, e, i, p, x)
  {
    OkOver(c, e);
    hide BodyOk, ProperSource, Has, Canonical, CanonicalForm, LS.Substitute, SettingOf, BlockPermutation, Over, Covers;
    var m := Moved(c, e, p).value;
    LS.SubstituteHas(e, AtomsIn(c), p, FormOf(Cnf));
    CoversTransitive(m, raw, x, FormOf(Cnf));
    CoversTransitive(x, raw, m, FormOf(Cnf));
    FoldEquivalent(m, x);
    CanonicalFixed(x, m, FormOf(Cnf));
  }

  lemma FoldEquivalent(a: Elem, b: Elem)
    requires Covers(a, b) && Covers(b, a)
    ensures Equivalent(a, b)
  {
    hide Covers;
  }

  /** And the body itself is one of the permuted ones of each of them. */
  lemma OrbitBack(c: Source, i: nat, g: Elem, y: Elem)
    requires ProperSource(c) && BodyOk(EnvOf(c), g) && y in EnvOf(c).permuted(i, g)
    ensures BodyOk(EnvOf(c), y) && g in EnvOf(c).permuted(i, y)
  {
    hide *;
    SourceParts(c);
    var s := PermutedMoved(c, i, g, y);
    var mg := FormParts(c, g, i, s, y);
    FormPermutes(c, g, i, s, y);
    OkOver(c, g);
    OkOver(c, y);
    ThenBack(c.prefix, i, s);
    ThenBack(c.prefix, 0, s);
    var back := Back(s);
    LaterPermutes(c.prefix, 0, i, back);
    MovedBack(c, g, s);
    MovedCovers(c, y, mg, back);
    MovedCovers(c, mg, y, back);
    CoversReflexive(g);
    FoldMoved(c, y, i, back, g, g);
    MovedPermuted(c, i, y, back, g);
  }

  // Permuted clauses are clauses.

  /** The literals of a clause with their atoms replaced. */
  function MovedLits(c: Source, d: seq<LemmaBodies.Literal>, p: map<string, string>): (r: seq<LemmaBodies.Literal>)
    requires forall l | l in d :: Image(c, l.atom, p).Some?
    ensures |r| == |d| && forall i | 0 <= i < |d| :: d[i] in d && r[i] == LemmaBodies.Literal.Literal(Image(c, d[i].atom, p).value, d[i].positive)
  {
    seq(|d|, i requires 0 <= i < |d| => assert d[i] in d; LemmaBodies.Literal.Literal(Image(c, d[i].atom, p).value, d[i].positive))
  }

  lemma ClauseOver(c: Source, d: seq<LemmaBodies.Literal>)
    ensures Over(c, CnfElem([d])) ==> AllOver(c, RevEach(LitElems(d))) && forall l | l in d :: l.atom in c.allowed
  {
    var es := RevEach(LitElems(d));
    assert ClauseElems([d]) == [ClauseElem(d)];
    assert ClauseElem(d) in ClauseElems([d]);
    assert AtomsOf(ClauseElem(d)) <= AtomsOf(CnfElem([d]));
    assert AtomsOf(AndOf(es)) == AtomsOfAll(es);
    forall l | l in d ensures Over(c, CnfElem([d])) ==> l.atom in c.allowed {
      var i :| 0 <= i < |d| && d[i] == l;
      assert es[i] == Rev(ELit(l.atom, l.positive)) && es[i] in es;
      assert l.atom in AtomsOf(es[i]);
    }
  }

  lemma MovedClause(c: Source, d: seq<LemmaBodies.Literal>, p: map<string, string>)
    requires ProperSource(c) && Over(c, CnfElem([d])) && BlockPermutation(c.prefix, 0, p)
    ensures (forall l | l in d :: Image(c, l.atom, p).Some?) && Moved(c, CnfElem([d]), p) == Some(CnfElem([MovedLits(c, d, p)]))
  {
    hide ProperSource, BlockPermutation, SubstituteAtom, Over, AllOver;
    ClauseOver(c, d);
    forall l | l in d ensures Image(c, l.atom, p).Some? { ImageAllowed(c, l.atom, p); }
    var es, d' := RevEach(LitElems(d)), MovedLits(c, d, p);
    MovedAllOver(c, es, p);
    var rs := MovedAll(c, es, p).value;
    forall i | 0 <= i < |d| ensures rs[i] == RevEach(LitElems(d'))[i] {
      assert es[i] == Rev(ELit(d[i].atom, d[i].positive));
      assert Moved(c, es[i], p) == Some(rs[i]);
      LiteralMoved(c, d[i].atom, d[i].positive, p);
    }
    assert rs == RevEach(LitElems(d'));
    AndMoved(c, es, p, rs);
    assert ClauseElems([d]) == [ClauseElem(d)] && ClauseElems([d']) == [ClauseElem(d')];
    OneMoved(c, ClauseElem(d), p, ClauseElem(d'));
  }

  lemma LiteralMoved(c: Source, i: nat, positive: bool, p: map<string, string>)
    requires Image(c, i, p).Some?
    ensures Moved(c, Rev(ELit(i, positive)), p) == Some(Rev(ELit(Image(c, i, p).value, positive)))
  {
    hide SubstituteAtom;
    assert Moved(c, ELit(i, positive), p) == Some(ELit(Image(c, i, p).value, positive));
  }

  lemma AndMoved(c: Source, es: seq<Elem>, p: map<string, string>, rs: seq<Elem>)
    requires MovedAll(c, es, p) == Some(rs)
    ensures Moved(c, Rev(AndOf(es)), p) == Some(Rev(AndOf(rs)))
  {
    assert Moved(c, AndOf(es), p) == Some(AndOf(rs));
  }

  lemma OneMoved(c: Source, e: Elem, p: map<string, string>, r: Elem)
    requires Moved(c, e, p) == Some(r)
    ensures Moved(c, AndOf([e]), p) == Some(AndOf([r]))
  {
    assert [e][1..] == [] && MovedAll(c, [e][1..], p) == Some([]);
    assert [r] + [] == [r];
    assert MovedAll(c, [e], p) == Some([r]);
  }

  lemma ImageEquality(c: Source, i: nat, p: map<string, string>, j: nat)
    requires ProperSource(c) && BlockPermutation(c.prefix, 0, p) && Image(c, i, p) == Some(j)
    ensures EnvOf(c).isEq(i) == EnvOf(c).isEq(j)
  {
    SourceParts(c);
    ImageMeans(c, i, p, j);
    hide ProperSource, BlockPermutation, ProperTerms, Q.Proper, SubstituteAtom;
  }

  lemma ImageInjective(c: Source, i: nat, j: nat, p: map<string, string>)
    requires ProperSource(c) && i in c.allowed && j in c.allowed && BlockPermutation(c.prefix, 0, p) && Image(c, i, p) == Image(c, j, p)
    ensures i == j
  {
    hide *;
    ImageBack(c, i, p);
    ImageBack(c, j, p);
  }

  /** Moving a clause keeps it makeable. */
  lemma MovedMakeable(c: Source, d: seq<LemmaBodies.Literal>, p: map<string, string>)
    requires ProperSource(c) && Over(c, CnfElem([d])) && BlockPermutation(c.prefix, 0, p) && Makeable(EnvOf(c), d)
    requires forall l | l in d :: Image(c, l.atom, p).Some?
    ensures Makeable(EnvOf(c), MovedLits(c, d, p))
  {
    SourceParts(c);
    ClauseOver(c, d);
    PrefixLimits(c);
    hide ProperSource, BlockPermutation, Image, Over, AllOver, EnvOf, ClauseElem, Q.Proper, ProperTerms;
    var env, d' := EnvOf(c), MovedLits(c, d, p);
    forall l | l in d' && env.isEq(l.atom) ensures l.positive {
      var i :| 0 <= i < |d| && d'[i] == l;
      ImageEquality(c, d[i].atom, p, l.atom);
    }
    forall l, k | l in d' && k in d' ensures k != Negated(l) {
      var i :| 0 <= i < |d| && d'[i] == l;
      var j :| 0 <= j < |d| && d'[j] == k;
      assert d[j] != Negated(d[i]);
      if Image(c, d[j].atom, p) == Image(c, d[i].atom, p) { ImageInjective(c, d[i].atom, d[j].atom, p); }
    }
  }

  lemma PrefixLimits(c: Source)
    requires Q.Proper(c.prefix)
    ensures EnvOf(c).limits == c.limits && EnvOf(c).kind == Cnf && EnvOf(c).prefix == c.prefix && EnvOf(c).allowed == c.allowed
  {
  }

  lemma PermutedGoal(c: Source, i: nat, g: Elem, y: Elem)
    requires ProperSource(c) && Goal(EnvOf(c), g) && y in EnvOf(c).permuted(i, g)
    ensures Goal(EnvOf(c), y)
  {
    hide *;
    SourceParts(c);
    PrefixLimits(c);
    var d := GoalParts(EnvOf(c), g);
    var p := PermutedMoved(c, i, g, y);
    var raw := FormParts(c, g, i, p, y);
    OkOver(c, g);
    MovedClause(c, d, p);
    MovedMakeable(c, d, p);
    FormGoal(c, MovedLits(c, d, p), raw, y);
  }

  /** The canonical form of a makeable clause is one. */
  lemma FormGoal(c: Source, d: seq<LemmaBodies.Literal>, raw: Elem, y: Elem)
    requires ProperSource(c) && Makeable(EnvOf(c), d) && raw == CnfElem([d]) && BodyOk(EnvOf(c), y)
    requires Has(y, FormOf(Cnf)) && Canonical(y) && y == CanonicalForm(raw) && Covers(raw, y) && Covers(y, raw)
    ensures Goal(EnvOf(c), y)
  {
    hide ProperSource, BodyOk, Has, Canonical, CanonicalForm, SettingOf, ClauseElem, Makeable, Covers, ToBase;
    SourceParts(c);
    PrefixLimits(c);
    FormSingle([d]);
    var lists := ToBase(Cnf, y).lists;
    CnfParts(y);
    assert y == CnfElem(lists);
    if lists == [] { NoClauseCovers(d); }
    var d' := lists[0];
    assert lists == [d'];
    ClauseWithin(d', d);
    ClauseCanonical(y, d');
    ClauseDistinct(d');
    PartMakeable(EnvOf(c), d', d);
    FoldGoal(EnvOf(c), y, d');
  }

  lemma PartMakeable(env: Setting, part: seq<LemmaBodies.Literal>, d: seq<LemmaBodies.Literal>)
    requires LemmaBodies.Within(part, d) && NoDuplicates(part) && Makeable(env, d)
    ensures Makeable(env, part)
  {
    DistinctSize(part);
    MembersAtMost(d);
    assert (set l | l in part) <= set l | l in d;
    SubsetSize((set l | l in part), (set l | l in d));
  }

  lemma FoldGoal(env: Setting, y: Elem, d: seq<LemmaBodies.Literal>)
    requires env.kind == Cnf && BodyOk(env, y) && Has(y, FormOf(Cnf)) && ToBase(Cnf, y).Lists? && ToBase(Cnf, y).lists == [d] && Makeable(env, d)
    ensures Goal(env, y)
  {
    hide BodyOk, Has, Makeable;
  }

  // The setting is symmetric.

  lemma GoalOk(env: Setting, g: Elem)
    requires Goal(env, g)
    ensures BodyOk(env, g)
  {
    hide BodyOk, Has, Makeable;
  }

  lemma OwnOrbit(c: Source, i: nat, g: Elem)
    requires ProperSource(c) && Goal(EnvOf(c), g)
    ensures g in Orbit(EnvOf(c), i, g) && CoveringAt(EnvOf(c), i, Towards(Orbit(EnvOf(c), i, g)))
  {
    hide ProperSource, Goal, SettingOf, CoveringAt, Towards, BodyOk, Q.Proper, ProperTerms;
    SourceParts(c);
    GoalOk(EnvOf(c), g);
    OrbitCovering(c, i, g);
    OwnPermutation(c.prefix, Cnf, c.limits, c.terms, c.allowed, c.nonUniversal, i, g);
  }

  lemma InOwnOrbit(c: Source, i: nat, g: Elem, y: Elem)
    requires ProperSource(c) && Goal(EnvOf(c), g) && y in Orbit(EnvOf(c), i, g)
    ensures Goal(EnvOf(c), y) && g in Orbit(EnvOf(c), i, y)
  {
    hide ProperSource, Goal, SettingOf, BodyOk;
    SourceParts(c);
    GoalOk(EnvOf(c), g);
    PermutedGoal(c, i, g, y);
    OrbitBack(c, i, g, y);
  }

  lemma SmallerOrbit(c: Source, i: nat, j: nat, g: Elem, y: Elem)
    requires ProperSource(c) && Goal(EnvOf(c), g) && y in Orbit(EnvOf(c), i, g) && i <= j
    ensures Orbit(EnvOf(c), j, y) <= Orbit(EnvOf(c), i, g)
  {
    hide ProperSource, Goal, SettingOf, BodyOk;
    SourceParts(c);
    GoalOk(EnvOf(c), g);
    forall z | z in Orbit(EnvOf(c), j, y) ensures z in Orbit(EnvOf(c), i, g) { OrbitTwice(c, i, j, g, y, z); }
  }

  lemma SourceSymmetric(c: Source)
    requires ProperSource(c)
    ensures Symmetric(EnvOf(c))
  {
    hide ProperSource, Goal, SettingOf, CoveringAt, Towards, BodyOk, Orbit, EnvOf;
    SourceParts(c);
    var env := EnvOf(c);
    forall i: nat, g | Goal(env, g) ensures g in Orbit(env, i, g) && CoveringAt(env, i, Towards(Orbit(env, i, g))) { OwnOrbit(c, i, g); }
    forall i: nat, g, y | Goal(env, g) && y in Orbit(env, i, g) ensures Goal(env, y) && g in Orbit(env, i, y) { InOwnOrbit(c, i, g, y); }
    forall i: nat, j: nat, g, y | i <= j && Goal(env, g) && y in Orbit(env, i, g) ensures Orbit(env, j, y) <= Orbit(env, i, g) {
      SmallerOrbit(c, i, j, g, y);
    }
  }

  lemma SourceIgnores(c: Source)
    requires Q.Proper(c.prefix)
    ensures IgnoresSubsumed(EnvOf(c))
  {
    var env := EnvOf(c);
    hide CanonicalForm, ToElem, FormsUnder, Subsumes, Q.Proper;
    forall ignore: seq<(set<Elem>, nat)>, b: Base | BaseFits(env.kind, b) && env.ignored(ignore, b)
      ensures exists k: nat :: k < |ignore| && SubsumesSome(env, ignore[k], CanonicalForm(ToElem(env.kind, b)))
    {
      var x: (set<Elem>, nat) :| x in ignore && SomeStoredSubsumes(x.0, env.permuted(x.1, CanonicalForm(ToElem(Cnf, b))));
      var k :| 0 <= k < |ignore| && ignore[k] == x;
      assert SubsumesSome(env, ignore[k], CanonicalForm(ToElem(env.kind, b)));
    }
  }

  /** Everything that the result about single clauses asks of the setting holds. */
  lemma SourceOneClause(c: Source)
    requires ProperSource(c) && c.limits.clauses == 1
    ensures OneClause(EnvOf(c))
  {
    SourceParts(c);
    PrefixLimits(c);
    SourceSymmetric(c);
    SourceIgnores(c);
    hide ProperSource, SettingOf, Symmetric, IgnoresSubsumed, Plain, InLanguage, Covering, Implication, Q.Proper, ProperTerms;
    SettingSound(c.prefix, Cnf, c.limits, c.terms, c.allowed, c.nonUniversal);
  }

  // Truth.

  /** Each variable with what the permutation makes of it, block by block. */
  ghost function LinksOf(prefix: Q.Prefix, p: map<string, string>): (r: Q.Links)
    requires p.Keys == Q.AllVars(prefix)
    ensures |r| == |prefix.names|
    ensures forall k, x | 0 <= k < |r| :: x in r[k] <==> x in prefix.names[k] && x in p
    ensures forall k, x | 0 <= k < |r| && x in r[k] :: r[k][x] == p[x]
  {
    seq(|prefix.names|, k requires 0 <= k < |prefix.names| => map x | x in prefix.names[k] && x in p :: p[x])
  }

  lemma LinksProper(prefix: Q.Prefix, i: nat, p: map<string, string>)
    requires p.Keys == Q.AllVars(prefix) && KeepsBlocks(prefix, i, p) && InjectiveMap(p)
    ensures Q.ProperLinks(LinksOf(prefix, p), prefix, prefix)
  {
    hide Q.AllVars;
  }

  lemma LinksStart(prefix: Q.Prefix, i: nat, p: map<string, string>, asg: Assignment)
    requires p.Keys == Q.AllVars(prefix) && KeepsBlocks(prefix, i, p) && i <= |prefix.names| && Q.VarsBefore(prefix, i) <= asg.Keys
    ensures Q.Linked(LinksOf(prefix, p), i, asg, asg)
  {
    hide Q.AllVars;
    var links := LinksOf(prefix, p);
    forall k, x | 0 <= k < i && x in links[k] ensures x in asg && links[k][x] in asg && asg[x] == asg[links[k][x]] {
      assert x in Q.VarsBefore(prefix, i);
    }
  }

  lemma LinksRenamed(prefix: Q.Prefix, p: map<string, string>, vars: set<string>, a: Assignment, b: Assignment)
    requires p.Keys == Q.AllVars(prefix) && vars <= Q.AllVars(prefix)
    requires Q.Linked(LinksOf(prefix, p), |prefix.names|, a, b)
    ensures LS.Renamed(vars, p, b, a)
  {
    hide Q.AllVars;
    var links := LinksOf(prefix, p);
    forall x | x in vars ensures x in a && LS.Target(p, x) in b && b[LS.Target(p, x)] == a[x] {
      var k := VarOf(prefix, x);
      assert x in links[k];
      LinkedOne(links, |prefix.names|, a, b, k, x);
    }
  }

  lemma LinkedOne(links: Q.Links, n: nat, a: Assignment, b: Assignment, k: nat, x: string)
    requires n <= |links| && Q.Linked(links, n, a, b) && k < n && x in links[k]
    ensures x in a && links[k][x] in b && a[x] == b[links[k][x]]
  {
  }

  lemma LinksBodies(c: Source, m: LS.Model, p: map<string, string>, g: Elem, raw: Elem, y: Elem)
    requires LS.IsModel(m, AtomsIn(c), |c.prefix.names|) && p.Keys == Q.AllVars(c.prefix) && LS.Vars(g, AtomsIn(c)) <= Q.AllVars(c.prefix)
    requires Moved(c, g, p) == Some(raw) && Has(raw, FormOf(Cnf)) && Has(y, FormOf(Cnf)) && Covers(raw, y)
    ensures Q.LinkedBodies(LinksOf(c.prefix, p), c.prefix, c.prefix, LS.BodyOf(g, m), LS.BodyOf(y, m))
  {
    hide Q.AllVars, LS.IsModel, LS.Vars, LS.Substitute, LS.Renamed, Q.Linked, Has, Covers, Truth;
    var links := LinksOf(c.prefix, p);
    forall a: Assignment, b: Assignment | Q.AllVars(c.prefix) <= a.Keys && Q.AllVars(c.prefix) <= b.Keys && Q.Linked(links, |links|, a, b)
      && LS.BodyOf(g, m)(a) ensures LS.BodyOf(y, m)(b)
    {
      LinksRenamed(c.prefix, p, LS.Vars(g, AtomsIn(c)), a, b);
      LS.SubstituteTruth(g, AtomsIn(c), p, m, |c.prefix.names|, b, a);
      CoversImplies(raw, y, FormOf(Cnf), LS.Valuation(m, b));
    }
  }

  /** In a model of the language a permuted body is true from a block on where the body is. */
  lemma PermutedTrue(c: Source, m: LS.Model, i: nat, asg: Assignment, g: Elem, y: Elem)
    requires ProperSource(c) && LS.IsModel(m, AtomsIn(c), |c.prefix.names|) && BodyOk(EnvOf(c), g) && y in EnvOf(c).permuted(i, g)
    requires i <= |c.prefix.names| && Q.VarsBefore(c.prefix, i) <= asg.Keys
    requires ModelFits(EnvOf(c), m) && TrueFrom(EnvOf(c), m, g, i, asg)
    ensures TrueFrom(EnvOf(c), m, y, i, asg)
  {
    SourceParts(c);
    PrefixLimits(c);
    ModelSizes(c, m);
    hide ProperSource, BodyOk, SettingOf, LS.IsModel, Has, Canonical, CanonicalForm, BlockPermutation, Q.QTrue, Q.Proper, Q.AllVars, Covers;
    hide LS.Vars, LS.Substitute, Q.ProperLinks, Q.LinkedBodies, Q.Linked, LS.BodyOf, ModelFits;
    var p := PermutedMoved(c, i, g, y);
    var raw := FormParts(c, g, i, p, y);
    OkOver(c, g);
    FormPermutes(c, g, i, p, y);
    PermutationParts(c.prefix, i, p);
    LinksProper(c.prefix, i, p);
    LinksStart(c.prefix, i, p, asg);
    LinksBodies(c, m, p, g, raw, y);
    Q.LinkedTruth(c.prefix, c.prefix, m.sizes, LS.BodyOf(g, m), LS.BodyOf(y, m), LinksOf(c.prefix, p), i, asg, asg);
  }

  lemma ModelSizes(c: Source, m: LS.Model)
    requires Q.Proper(c.prefix) && LS.IsModel(m, AtomsIn(c), |c.prefix.names|)
    ensures ModelFits(EnvOf(c), m) && |m.sizes| == |c.prefix.names| && forall k | 0 <= k < |m.sizes| :: m.sizes[k] > 0
    ensures Q.WeakerQuantifiers(c.prefix, c.prefix) && |c.prefix.quantifiers| == |c.prefix.names|
  {
  }

  lemma SourceFair(c: Source, m: LS.Model)
    requires ProperSource(c) && LS.IsModel(m, AtomsIn(c), |c.prefix.names|)
    ensures Fair(EnvOf(c), m)
  {
    SourceParts(c);
    PrefixLimits(c);
    ModelSizes(c, m);
    hide ProperSource, Goal, SettingOf, LS.IsModel, TrueFrom, ModelFits, Q.Proper, Q.VarsBefore, BodyOk;
    var env := EnvOf(c);
    forall i: nat, asg: Assignment, g, y | i <= |env.prefix.names| && Q.VarsBefore(env.prefix, i) <= asg.Keys && Goal(env, g)
      && y in Orbit(env, i, g) && TrueFrom(env, m, g, i, asg) ensures TrueFrom(env, m, y, i, asg)
    {
      GoalOk(env, g);
      PermutedTrue(c, m, i, asg, g, y);
    }
  }

  // The result.

  ghost predicate EventOver(c: Source, ev: Event) {
    match ev
    case Initial(m) => LS.IsModel(m, AtomsIn(c), |c.prefix.names|)
    case Step(pre, post) => LS.IsModel(pre, AtomsIn(c), |c.prefix.names|) && LS.IsModel(post, AtomsIn(c), |c.prefix.names|)
  }

  ghost predicate HistoryOver(c: Source, events: seq<Event>, sets: seq<set<Elem>>)
    requires Q.Proper(c.prefix)
  {
    && |sets| == |events| + 1 && HasBottom(EnvOf(c), sets[0]) && BottomAlone(EnvOf(c), sets[0]) && AllOk(EnvOf(c), sets[0])
    && forall k | 0 <= k < |events| :: EventOver(c, events[k]) && Weakens(EnvOf(c), events[k], sets[k], sets[k + 1])
  }

  /** Over a closed set of atoms, whatever models and steps the set of single clauses was weakened for: a makeable clause
      that the models satisfy and the steps preserve is implied by one of the set, in every model with nonempty sorts. */
  lemma ClausesNotMissed(c: Source, events: seq<Event>, sets: seq<set<Elem>>, g: Elem)
    requires ProperSource(c) && c.limits.clauses == 1 && HistoryOver(c, events, sets) && Goal(EnvOf(c), g)
    requires forall k | 0 <= k < |events| :: Respects(EnvOf(c), events[k], g)
    ensures exists e | e in sets[|events|] ::
      Implication(EnvOf(c), LanguageOf(c.prefix, Cnf, c.terms, c.allowed))(e, g)
  {
    hide ProperSource, Goal, SettingOf, LanguageOf, OneClause, Covering, Implication, InLanguage, Plain, Respects, Weakens, HasBottom, BottomAlone, AllOk, Fair;
    hide Q.Proper, ProperTerms, LS.IsModel, EnvOf;
    SourceParts(c);
    SourceOneClause(c);
    var env, l := EnvOf(c), LanguageOf(c.prefix, Cnf, c.terms, c.allowed);
    SourceCovering(c);
    forall k | 0 <= k < |events| ensures FairEvent(env, events[k]) {
      assert EventOver(c, events[k]);
      match events[k]
      case Initial(m) => SourceFair(c, m);
      case Step(pre, post) => SourceFair(c, pre); SourceFair(c, post);
    }
    NothingMissed(env, Implication(env, l), events, sets, g);
  }

  lemma SourceCovering(c: Source)
    requires ProperSource(c)
    ensures Q.Proper(c.prefix) && Covering(EnvOf(c), Implication(EnvOf(c), LanguageOf(c.prefix, Cnf, c.terms, c.allowed)))
  {
    SourceParts(c);
    hide SettingOf, LanguageOf, Covering, Implication, InLanguage, Plain, Q.Proper, ProperTerms;
    SettingSound(c.prefix, Cnf, c.limits, c.terms, c.allowed, c.nonUniversal);
  }
}
