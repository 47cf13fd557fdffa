/** Nested conjunctive and disjunctive forms: a total order in which an element that subsumes
    another comes before it, and what subsumption means. */
module Subsumption {
  import opened Collections

  /** A literal, a conjunction-like list, an element with its order reversed, or a pair.  A
      disjunction is a reversed conjunction of reversed elements. */
  datatype Elem = ELit(atom: nat, positive: bool) | AndOf(elems: seq<Elem>) | Rev(inner: Elem) | PairOf(first: Elem, second: Elem)

  datatype Form = LitForm | AndForm(elem: Form) | RevForm(inner: Form) | PairForm(first: Form, second: Form)

  predicate Has(e: Elem, f: Form) {
    match f
    case LitForm => e.ELit?
    case AndForm(g) => e.AndOf? && forall x | x in e.elems :: Has(x, g)
    case RevForm(g) => e.Rev? && Has(e.inner, g)
    case PairForm(g, h) => e.PairOf? && Has(e.first, g) && Has(e.second, h)
  }

  predicate AllHave(es: seq<Elem>, f: Form) {
    forall x | x in es :: Has(x, f)
  }

  // The order.

  function Weight(e: Elem): nat {
    match e
    case ELit(_, _) => 1
    case AndOf(es) => 1 + Weights(es)
    case Rev(x) => 1 + Weight(x)
    case PairOf(x, y) => 1 + Weight(x) + Weight(y)
  }

  function Weights(es: seq<Elem>): nat {
    if es == [] then 0 else 1 + Weight(es[0]) + Weights(es[1..])
  }

  predicate Leq(a: Elem, b: Elem)
    decreases Weight(a) + Weight(b)
  {
    match (a, b)
    case (ELit(i, p), ELit(j, q)) => i < j || (i == j && (p ==> q))
    case (AndOf(xs), AndOf(ys)) => LeqSlices(xs, ys)
    case (Rev(x), Rev(y)) => Leq(y, x)
    case (PairOf(x1, x2), PairOf(y1, y2)) => if x1 == y1 then Leq(x2, y2) else Leq(x1, y1)
    case _ => false
  }

  predicate LeqSlices(xs: seq<Elem>, ys: seq<Elem>)
    decreases Weights(xs) + Weights(ys)
  {
    if ys == [] then true
    else if xs == [] then false
    else if xs[0] == ys[0] then LeqSlices(xs[1..], ys[1..])
    else Leq(xs[0], ys[0])
  }

  lemma {:induction false} LeqReflexive(a: Elem)
    ensures Leq(a, a)
    decreases Weight(a)
  {
    match a
    case ELit(_, _) =>
    case AndOf(xs) => SlicesReflexive(xs);
    case Rev(x) => LeqReflexive(x);
    case PairOf(_, y) => LeqReflexive(y);
  }

  lemma {:induction false} SlicesReflexive(xs: seq<Elem>)
    ensures LeqSlices(xs, xs)
    decreases Weights(xs)
  {
    if xs != [] { SlicesReflexive(xs[1..]); }
  }

  lemma {:induction false} LeqTotal(a: Elem, b: Elem, f: Form)
    requires Has(a, f) && Has(b, f)
    ensures Leq(a, b) || Leq(b, a)
    decreases f, 1
  {
    match f
    case LitForm =>
    case AndForm(g) => SlicesTotal(a.elems, b.elems, g);
    case RevForm(g) => LeqTotal(a.inner, b.inner, g);
    case PairForm(g, h) => LeqTotal(a.first, b.first, g); LeqTotal(a.second, b.second, h);
  }

  lemma {:induction false} SlicesTotal(xs: seq<Elem>, ys: seq<Elem>, f: Form)
    requires AllHave(xs, f) && AllHave(ys, f)
    ensures LeqSlices(xs, ys) || LeqSlices(ys, xs)
    decreases f, 2, |xs|
  {
    if xs != [] && ys != [] {
      if xs[0] == ys[0] { SlicesTotal(xs[1..], ys[1..], f); } else { LeqTotal(xs[0], ys[0], f); }
    }
  }

  lemma {:induction false} LeqAntisymmetric(a: Elem, b: Elem, f: Form)
    requires Has(a, f) && Has(b, f) && Leq(a, b) && Leq(b, a)
    ensures a == b
    decreases f, 1
  {
    match f
    case LitForm =>
    case AndForm(g) => SlicesAntisymmetric(a.elems, b.elems, g);
    case RevForm(g) => LeqAntisymmetric(b.inner, a.inner, g);
    case PairForm(g, h) =>
      if a.first == b.first { LeqAntisymmetric(a.second, b.second, h); } else { LeqAntisymmetric(a.first, b.first, g); }
  }

  lemma {:induction false} SlicesAntisymmetric(xs: seq<Elem>, ys: seq<Elem>, f: Form)
    requires AllHave(xs, f) && AllHave(ys, f) && LeqSlices(xs, ys) && LeqSlices(ys, xs)
    ensures xs == ys
    decreases f, 2, |xs|
  {
    if xs != [] && ys != [] {
      if xs[0] == ys[0] {
        SlicesAntisymmetric(xs[1..], ys[1..], f);
        assert xs == [xs[0]] + xs[1..] && ys == [ys[0]] + ys[1..];
      } else {
        LeqAntisymmetric(xs[0], ys[0], f);
      }
    }
  }

  lemma {:induction false} LeqTransitive(a: Elem, b: Elem, c: Elem, f: Form)
    requires Has(a, f) && Has(b, f) && Has(c, f) && Leq(a, b) && Leq(b, c)
    ensures Leq(a, c)
    decreases f, 1
  {
    match f
    case LitForm =>
    case AndForm(g) => SlicesTransitive(a.elems, b.elems, c.elems, g);
    case RevForm(g) => LeqTransitive(c.inner, b.inner, a.inner, g);
    case PairForm(g, h) =>
      if a.first == b.first && b.first == c.first {
        LeqTransitive(a.second, b.second, c.second, h);
      } else {
        LeqReflexive(b.first);
        LeqTransitive(a.first, b.first, c.first, g);
        if a.first == c.first { LeqAntisymmetric(a.first, b.first, g); }
      }
  }

  lemma {:induction false} SlicesTransitive(xs: seq<Elem>, ys: seq<Elem>, zs: seq<Elem>, f: Form)
    requires AllHave(xs, f) && AllHave(ys, f) && AllHave(zs, f) && LeqSlices(xs, ys) && LeqSlices(ys, zs)
    ensures LeqSlices(xs, zs)
    decreases f, 2, |xs|
  {
    if zs != [] {
      var x, y, z := xs[0], ys[0], zs[0];
      if x == y && y == z {
        SlicesTransitive(xs[1..], ys[1..], zs[1..], f);
      } else {
        LeqReflexive(y);
        LeqTransitive(x, y, z, f);
        if x == z { LeqAntisymmetric(x, y, f); }
      }
    }
  }

  // Subsumption.

  /** Scan the sorted list until an element is no longer at most `y`. */
  predicate ScanSubsumes(xs: seq<Elem>, y: Elem)
    decreases Weights(xs) + Weight(y)
  {
    if xs == [] then false
    else if !Leq(xs[0], y) then false
    else if Subsumes(xs[0], y) then true
    else ScanSubsumes(xs[1..], y)
  }

  predicate ScanAll(xs: seq<Elem>, ys: seq<Elem>)
    decreases Weights(xs) + Weights(ys)
  {
    if ys == [] then true else ScanSubsumes(xs, ys[0]) && ScanAll(xs, ys[1..])
  }

  /** Subsumption as it is computed, with the early exit. */
  predicate Subsumes(a: Elem, b: Elem)
    decreases Weight(a) + Weight(b)
  {
    match (a, b)
    case (ELit(_, _), ELit(_, _)) => a == b
    case (AndOf(xs), AndOf(ys)) => ScanAll(xs, ys)
    case (Rev(x), Rev(y)) => Subsumes(y, x)
    case (PairOf(x1, x2), PairOf(y1, y2)) => Subsumes(x1, y1) && Subsumes(x2, y2)
    case _ => false
  }

  /** Subsumption by definition: a conjunction subsumes another when each conjunct of the
      other is subsumed by one of its own. */
  ghost predicate Covers(a: Elem, b: Elem)
    decreases Weight(a) + Weight(b), 0
  {
    match (a, b)
    case (ELit(_, _), ELit(_, _)) => a == b
    case (AndOf(xs), AndOf(ys)) => CoversAll(xs, ys)
    case (Rev(x), Rev(y)) => Covers(y, x)
    case (PairOf(x1, x2), PairOf(y1, y2)) => Covers(x1, y1) && Covers(x2, y2)
    case _ => false
  }

  lemma {:induction false} WeightIn(xs: seq<Elem>, x: Elem)
    requires x in xs
    ensures Weight(x) < Weights(xs)
  {
    if x != xs[0] { WeightIn(xs[1..], x); }
  }

  ghost predicate CoversSome(xs: seq<Elem>, y: Elem)
    decreases Weights(xs) + Weight(y), 1
  {
    exists i :: 0 <= i < |xs| && (WeightIn(xs, xs[i]); Covers(xs[i], y))
  }

  ghost predicate CoversAll(xs: seq<Elem>, ys: seq<Elem>)
    decreases Weights(xs) + Weights(ys), 2
  {
    forall j | 0 <= j < |ys| :: (WeightIn(ys, ys[j]); CoversSome(xs, ys[j]))
  }

  // Canonical forms.

  ghost predicate SortedList(xs: seq<Elem>) {
    forall i, j | 0 <= i < j < |xs| :: Leq(xs[i], xs[j]) && xs[i] != xs[j]
  }

  ghost predicate Irredundant(xs: seq<Elem>) {
    forall i, j | 0 <= i < j < |xs| :: !Covers(xs[i], xs[j])
  }

  /** Conjuncts are sorted, canonical, and no earlier one subsumes a later one. */
  ghost predicate Canonical(e: Elem) {
    match e
    case ELit(_, _) => true
    case AndOf(xs) => SortedList(xs) && Irredundant(xs) && forall x | x in xs :: Canonical(x)
    case Rev(x) => Canonical(x)
    case PairOf(x, y) => Canonical(x) && Canonical(y)
  }

  ghost predicate CanonicalList(xs: seq<Elem>) {
    SortedList(xs) && Irredundant(xs) && forall x | x in xs :: Canonical(x)
  }

  lemma CanonicalTail(xs: seq<Elem>)
    requires CanonicalList(xs) && xs != []
    ensures CanonicalList(xs[1..])
  {
  }

  /** The order was chosen so that what subsumes comes first. */
  lemma {:induction false} CoversImpliesLeq(a: Elem, b: Elem, f: Form)
    requires Has(a, f) && Has(b, f) && Canonical(a) && Canonical(b) && Covers(a, b)
    ensures Leq(a, b)
    decreases f, 1
  {
    match f
    case LitForm =>
    case AndForm(g) => CoversImpliesSlices(a.elems, b.elems, g);
    case RevForm(g) => CoversImpliesLeq(b.inner, a.inner, g);
    case PairForm(g, h) => CoversImpliesLeq(a.first, b.first, g); CoversImpliesLeq(a.second, b.second, h);
  }

  lemma {:induction false} CoversImpliesSlices(xs: seq<Elem>, ys: seq<Elem>, f: Form)
    requires AllHave(xs, f) && AllHave(ys, f) && CanonicalList(xs) && CanonicalList(ys) && CoversAll(xs, ys)
    ensures LeqSlices(xs, ys)
    decreases f, 2, |xs|
  {
    hide Covers, Leq, Canonical;
    if ys != [] {
      assert CoversSome(xs, ys[0]);
      var i :| 0 <= i < |xs| && Covers(xs[i], ys[0]);
      if xs[0] == ys[0] {
        DropFirst(xs, ys);
        CanonicalTail(xs);
        CanonicalTail(ys);
        CoversImpliesSlices(xs[1..], ys[1..], f);
      } else {
        CoversImpliesLeq(xs[i], ys[0], f);
        if i > 0 { LeqTransitive(xs[0], xs[i], ys[0], f); }
      }
    }
  }

  /** A common first element covers none of the later ones. */
  lemma DropFirst(xs: seq<Elem>, ys: seq<Elem>)
    requires xs != [] && ys != [] && xs[0] == ys[0] && Irredundant(ys) && CoversAll(xs, ys)
    ensures CoversAll(xs[1..], ys[1..])
  {
    hide Covers;
    forall j | 0 <= j < |ys[1..]| ensures CoversSome(xs[1..], ys[1..][j]) {
      assert CoversSome(xs, ys[j + 1]);
      var i :| 0 <= i < |xs| && Covers(xs[i], ys[j + 1]);
      assert i != 0;
      assert xs[1..][i - 1] == xs[i];
    }
  }

  /** The early exit loses nothing: on canonical forms what is computed is the definition. */
  lemma {:induction false} SubsumesExact(a: Elem, b: Elem, f: Form)
    requires Has(a, f) && Has(b, f) && Canonical(a) && Canonical(b)
    ensures Subsumes(a, b) <==> Covers(a, b)
    decreases f, 1
  {
    match f
    case LitForm =>
    case AndForm(g) => ScanAllExact(a.elems, b.elems, g);
    case RevForm(g) => SubsumesExact(b.inner, a.inner, g);
    case PairForm(g, h) => SubsumesExact(a.first, b.first, g); SubsumesExact(a.second, b.second, h);
  }

  lemma {:induction false} ScanAllExact(xs: seq<Elem>, ys: seq<Elem>, f: Form)
    requires AllHave(xs, f) && AllHave(ys, f) && CanonicalList(xs) && forall y | y in ys :: Canonical(y)
    ensures ScanAll(xs, ys) <==> CoversAll(xs, ys)
    decreases f, 3, |ys|
  {
    hide Covers, Canonical, ScanSubsumes, CoversSome;
    if ys != [] {
      ScanExact(xs, ys[0], f);
      ScanAllExact(xs, ys[1..], f);
      CoversAllCons(xs, ys);
    }
  }

  lemma CoversAllCons(xs: seq<Elem>, ys: seq<Elem>)
    requires ys != []
    ensures CoversAll(xs, ys) <==> CoversSome(xs, ys[0]) && CoversAll(xs, ys[1..])
  {
    hide CoversSome;
    if CoversAll(xs, ys) {
      forall j | 0 <= j < |ys[1..]| ensures CoversSome(xs, ys[1..][j]) { assert CoversSome(xs, ys[j + 1]); }
    }
    if CoversSome(xs, ys[0]) && CoversAll(xs, ys[1..]) {
      forall j | 0 <= j < |ys| ensures CoversSome(xs, ys[j]) {
        if j > 0 { assert CoversSome(xs, ys[1..][j - 1]); }
      }
    }
  }

  lemma {:induction false} ScanExact(xs: seq<Elem>, y: Elem, f: Form)
    requires AllHave(xs, f) && Has(y, f) && CanonicalList(xs) && Canonical(y)
    ensures ScanSubsumes(xs, y) <==> CoversSome(xs, y)
    decreases f, 2, |xs|
  {
    hide Covers, Canonical, Leq, Subsumes;
    if xs != [] {
      SubsumesExact(xs[0], y, f);
      if Covers(xs[0], y) {
        CoversImpliesLeq(xs[0], y, f);
      } else if !Leq(xs[0], y) {
        forall i | 0 <= i < |xs| ensures !Covers(xs[i], y) { LaterNotCovers(xs, y, f, i); }
      } else {
        CanonicalTail(xs);
        ScanExact(xs[1..], y, f);
        CoversSomeTail(xs, y);
      }
    }
  }

  lemma LaterNotCovers(xs: seq<Elem>, y: Elem, f: Form, i: nat)
    requires AllHave(xs, f) && Has(y, f) && CanonicalList(xs) && Canonical(y) && i < |xs| && !Leq(xs[0], y)
    ensures !Covers(xs[i], y)
  {
    hide Canonical, Leq;
    if Covers(xs[i], y) {
      CoversImpliesLeq(xs[i], y, f);
      if i > 0 { LeqTransitive(xs[0], xs[i], y, f); }
    }
  }

  lemma CoversSomeTail(xs: seq<Elem>, y: Elem)
    requires xs != [] && !Covers(xs[0], y)
    ensures CoversSome(xs, y) <==> CoversSome(xs[1..], y)
  {
    hide Covers;
    if CoversSome(xs, y) {
      var i :| 0 <= i < |xs| && Covers(xs[i], y);
      assert xs[1..][i - 1] == xs[i];
    }
    if CoversSome(xs[1..], y) {
      var i :| 0 <= i < |xs[1..]| && Covers(xs[1..][i], y);
      assert xs[i + 1] == xs[1..][i];
    }
  }

  // Subsumption is a preorder, and means implication.

  lemma {:induction false} CoversReflexive(a: Elem)
    ensures Covers(a, a)
    decreases a
  {
    match a
    case ELit(_, _) =>
    case AndOf(xs) =>
      forall j | 0 <= j < |xs| ensures CoversSome(xs, xs[j]) { CoversReflexive(xs[j]); }
    case Rev(x) => CoversReflexive(x);
    case PairOf(x, y) => CoversReflexive(x); CoversReflexive(y);
  }

  lemma {:induction false} CoversTransitive(a: Elem, b: Elem, c: Elem, f: Form)
    requires Has(a, f) && Has(b, f) && Has(c, f) && Covers(a, b) && Covers(b, c)
    ensures Covers(a, c)
    decreases f
  {
    match f
    case LitForm =>
    case AndForm(g) =>
      forall j | 0 <= j < |c.elems| ensures CoversSome(a.elems, c.elems[j]) {
        assert CoversSome(b.elems, c.elems[j]);
        var i :| 0 <= i < |b.elems| && Covers(b.elems[i], c.elems[j]);
        assert CoversSome(a.elems, b.elems[i]);
        var k :| 0 <= k < |a.elems| && Covers(a.elems[k], b.elems[i]);
        CoversTransitive(a.elems[k], b.elems[i], c.elems[j], g);
      }
    case RevForm(g) => CoversTransitive(c.inner, b.inner, a.inner, g);
    case PairForm(g, h) =>
      CoversTransitive(a.first, b.first, c.first, g);
      CoversTransitive(a.second, b.second, c.second, h);
  }

  /** The truth of a form: a list is a conjunction, reversing negates, and a pair is a
      disjunction. */
  predicate Truth(e: Elem, v: nat -> bool) {
    match e
    case ELit(i, p) => v(i) == p
    case AndOf(xs) => forall i | 0 <= i < |xs| :: Truth(xs[i], v)
    case Rev(x) => !Truth(x, v)
    case PairOf(x, y) => Truth(x, v) || Truth(y, v)
  }

  /** What subsumes implies. */
  lemma {:induction false} CoversImplies(a: Elem, b: Elem, f: Form, v: nat -> bool)
    requires Has(a, f) && Has(b, f) && Covers(a, b) && Truth(a, v)
    ensures Truth(b, v)
    decreases f
  {
    match f
    case LitForm =>
    case AndForm(g) =>
      forall j | 0 <= j < |b.elems| ensures Truth(b.elems[j], v) {
        assert CoversSome(a.elems, b.elems[j]);
        var i :| 0 <= i < |a.elems| && Covers(a.elems[i], b.elems[j]);
        CoversImplies(a.elems[i], b.elems[j], g, v);
      }
    case RevForm(g) => if Truth(b.inner, v) { CoversImplies(b.inner, a.inner, g, v); }
    case PairForm(g, h) =>
      if Truth(a.first, v) { CoversImplies(a.first, b.first, g, v); } else { CoversImplies(a.second, b.second, h, v); }
  }

  // Building canonical forms.

  ghost function AtomsOf(e: Elem): set<nat> {
    match e
    case ELit(i, _) => {i}
    case AndOf(es) => AtomsOfAll(es)
    case Rev(x) => AtomsOf(x)
    case PairOf(x, y) => AtomsOf(x) + AtomsOf(y)
  }

  ghost function AtomsOfAll(es: seq<Elem>): (r: set<nat>)
    ensures forall x | x in es :: AtomsOf(x) <= r
  {
    if es == [] then {} else AtomsOf(es[0]) + AtomsOfAll(es[1..])
  }

  lemma {:induction false} AtomsWithin(es: seq<Elem>, s: set<nat>)
    requires forall x | x in es :: AtomsOf(x) <= s
    ensures AtomsOfAll(es) <= s
  {
    if es != [] { AtomsWithin(es[1..], s); }
  }

  ghost predicate Ascending(xs: seq<Elem>) {
    forall i, j | 0 <= i < j < |xs| :: Leq(xs[i], xs[j])
  }

  lemma {:induction false} InsertAscending(x: Elem, xs: seq<Elem>, f: Form)
    requires Has(x, f) && AllHave(xs, f) && Ascending(xs)
    ensures Ascending(InsertSorted(Leq, x, xs))
    decreases |xs|
  {
    hide Leq, Has;
    if xs != [] {
      if Leq(x, xs[0]) {
        forall j | 0 <= j < |xs| ensures Leq(x, xs[j]) {
          if j > 0 { LeqTransitive(x, xs[0], xs[j], f); }
        }
      } else {
        LeqTotal(x, xs[0], f);
        InsertAscending(x, xs[1..], f);
        var rest := InsertSorted(Leq, x, xs[1..]);
        InsertSortedMembers(Leq, x, xs[1..]);
        forall j | 0 <= j < |rest| ensures Leq(xs[0], rest[j]) {
          assert rest[j] in rest;
          if rest[j] != x {
            var k :| 0 <= k < |xs[1..]| && xs[1..][k] == rest[j];
            assert xs[k + 1] == rest[j];
          }
        }
      }
    }
  }

  lemma {:induction false} SortAscending(xs: seq<Elem>, f: Form)
    requires AllHave(xs, f)
    ensures Ascending(Sorted(Leq, xs))
    decreases |xs|
  {
    hide Leq, Has;
    if xs != [] {
      SortAscending(xs[1..], f);
      SortMembers(Leq, xs[1..]);
      InsertAscending(xs[0], Sorted(Leq, xs[1..]), f);
    }
  }

  /** The two forms subsume each other. */
  ghost predicate Equivalent(a: Elem, b: Elem) {
    Covers(a, b) && Covers(b, a)
  }

  /** Keep the elements that no kept element subsumes, one after the other. */
  function Pruned(kept: seq<Elem>, xs: seq<Elem>): seq<Elem>
    decreases |xs|
  {
    if xs == [] then kept else Pruned(if SomeSubsumes(kept, xs[0]) then kept else kept + [xs[0]], xs[1..])
  }

  predicate SomeSubsumes(kept: seq<Elem>, x: Elem) {
    exists i :: 0 <= i < |kept| && Subsumes(kept[i], x)
  }

  method Prune(xs: seq<Elem>) returns (kept: seq<Elem>)
    ensures kept == Pruned([], xs)
  {
    hide Subsumes;
    kept := [];
    var n := 0;
    while n < |xs|
      invariant n <= |xs| && Pruned(kept, xs[n..]) == Pruned([], xs)
    {
      var x, i := xs[n], 0;
      while i < |kept| && !Subsumes(kept[i], x)
        invariant i <= |kept| && forall j | 0 <= j < i :: !Subsumes(kept[j], x)
      {
        i := i + 1;
      }
      assert xs[n..][1..] == xs[n + 1..];
      if i == |kept| { kept := kept + [x]; }
      n := n + 1;
    }
    assert xs[n..] == [];
  }

  /** What is kept is irredundant and covers everything. */
  lemma {:induction false} PrunedExact(kept: seq<Elem>, xs: seq<Elem>, n: nat, f: Form)
    requires AllHave(xs, f) && Ascending(xs) && (forall x | x in xs :: Canonical(x)) && n <= |xs|
    requires CanonicalList(kept) && (forall y | y in kept :: y in xs[..n]) && forall x | x in xs[..n] :: CoversSome(kept, x)
    ensures CanonicalList(Pruned(kept, xs[n..])) && (forall y | y in Pruned(kept, xs[n..]) :: y in xs)
    ensures forall x | x in xs :: CoversSome(Pruned(kept, xs[n..]), x)
    decreases |xs| - n
  {
    hide Leq, Has, Covers, Canonical, Subsumes, CoversSome;
    if n == |xs| {
      assert xs[..n] == xs;
    } else {
      var x := xs[n];
      assert xs[..n + 1] == xs[..n] + [x] && xs[n..][1..] == xs[n + 1..] && xs[n..][0] == x && x in xs;
      if SomeSubsumes(kept, x) {
        var i :| 0 <= i < |kept| && Subsumes(kept[i], x);
        assert forall y | y in kept :: y in xs;
        DropOne(kept, x, i, xs, f);
        PrunedExact(kept, xs, n + 1, f);
      } else {
        assert forall j | 0 <= j < |kept| :: !Subsumes(kept[j], x);
        KeepOne(kept, x, xs, n, f);
        PrunedExact(kept + [x], xs, n + 1, f);
      }
    }
  }

  lemma KeepOne(kept: seq<Elem>, x: Elem, xs: seq<Elem>, n: nat, f: Form)
    requires AllHave(xs, f) && Ascending(xs) && (forall y | y in xs :: Canonical(y)) && n < |xs| && xs[n] == x
    requires CanonicalList(kept) && (forall y | y in kept :: y in xs[..n])
    requires forall j | 0 <= j < |kept| :: !Subsumes(kept[j], x)
    ensures CanonicalList(kept + [x])
    ensures CoversSome(kept + [x], x)
    ensures forall y | CoversSome(kept, y) :: CoversSome(kept + [x], y)
  {
    hide Leq, Has, Covers, Canonical, Subsumes;
    forall j | 0 <= j < |kept| ensures Leq(kept[j], x) && kept[j] != x && !Covers(kept[j], x) {
      assert kept[j] in kept;
      var k :| 0 <= k < n && xs[..n][k] == kept[j];
      assert xs[k] == kept[j] && xs[k] in xs;
      SubsumesExact(kept[j], x, f);
      CoversReflexive(x);
    }
    CoversReflexive(x);
    assert (kept + [x])[|kept|] == x;
    forall y | CoversSome(kept, y) ensures CoversSome(kept + [x], y) {
      var i :| 0 <= i < |kept| && Covers(kept[i], y);
      assert (kept + [x])[i] == kept[i];
    }
  }

  lemma DropOne(kept: seq<Elem>, x: Elem, i: nat, xs: seq<Elem>, f: Form)
    requires AllHave(xs, f) && (forall y | y in xs :: Canonical(y)) && x in xs && (forall y | y in kept :: y in xs)
    requires i < |kept| && Subsumes(kept[i], x)
    ensures CoversSome(kept, x)
  {
    hide Leq, Has, Canonical, Subsumes, Covers;
    assert kept[i] in kept;
    SubsumesExact(kept[i], x, f);
  }

  /** The canonical form of a nested form. */
  function CanonicalForm(base: Elem): Elem
    decreases base, 1
  {
    match base
    case ELit(_, _) => base
    case AndOf(es) => AndOf(Pruned([], Sorted(Leq, CanonicalForms(es))))
    case Rev(x) => Rev(CanonicalForm(x))
    case PairOf(x1, x2) => PairOf(CanonicalForm(x1), CanonicalForm(x2))
  }

  function CanonicalForms(bases: seq<Elem>): (rs: seq<Elem>)
    ensures |rs| == |bases| && forall i | 0 <= i < |bases| :: rs[i] == CanonicalForm(bases[i])
    decreases bases, 0
  {
    seq(|bases|, i requires 0 <= i < |bases| => CanonicalForm(bases[i]))
  }

  lemma {:induction false} CanonicalFormExact(base: Elem, f: Form)
    requires Has(base, f)
    ensures var r := CanonicalForm(base); Has(r, f) && Canonical(r) && Equivalent(base, r) && AtomsOf(r) <= AtomsOf(base)
    decreases base
  {
    match base {
      case ELit(_, _) =>
      case AndOf(es) =>
        var parts := CanonicalForms(es);
        forall i | 0 <= i < |es|
          ensures Has(parts[i], f.elem) && Canonical(parts[i]) && Equivalent(es[i], parts[i]) && AtomsOf(parts[i]) <= AtomsOf(es[i])
        {
          CanonicalFormExact(es[i], f.elem);
        }
        ListForm(es, parts, f.elem);
      case Rev(x) => CanonicalFormExact(x, f.inner);
      case PairOf(x1, x2) =>
        CanonicalFormExact(x1, f.first);
        CanonicalFormExact(x2, f.second);
    }
  }

  lemma ListForm(es: seq<Elem>, parts: seq<Elem>, f: Form)
    requires |parts| == |es| && AllHave(es, f)
    requires forall i | 0 <= i < |es| ::
      Has(parts[i], f) && Canonical(parts[i]) && Equivalent(es[i], parts[i]) && AtomsOf(parts[i]) <= AtomsOf(es[i])
    ensures var r := AndOf(Pruned([], Sorted(Leq, parts)));
            Has(r, AndForm(f)) && Canonical(r) && Equivalent(AndOf(es), r) && AtomsOf(r) <= AtomsOf(AndOf(es))
  {
    hide Covers, Canonical, Leq, Has, AtomsOf;
    var sorted := Sorted(Leq, parts);
    var kept := Pruned([], sorted);
    SortMembers(Leq, parts);
    SortAscending(parts, f);
    assert sorted[0..] == sorted;
    PrunedExact([], sorted, 0, f);
    AndEquivalent(es, parts, kept, f);
    forall x | x in kept ensures AtomsOf(x) <= AtomsOfAll(es) {
      var i :| 0 <= i < |parts| && parts[i] == x;
      assert es[i] in es;
    }
    AtomsWithin(kept, AtomsOfAll(es));
    AndShape(kept, es, f);
  }

  lemma AndShape(kept: seq<Elem>, es: seq<Elem>, f: Form)
    requires AllHave(kept, f) && CanonicalList(kept) && AtomsOfAll(kept) <= AtomsOfAll(es)
    ensures Has(AndOf(kept), AndForm(f)) && Canonical(AndOf(kept)) && AtomsOf(AndOf(kept)) <= AtomsOf(AndOf(es))
  {
  }

  method FromBase(base: Elem, ghost f: Form) returns (r: Elem)
    requires Has(base, f)
    ensures r == CanonicalForm(base)
    ensures Has(r, f) && Canonical(r) && Equivalent(base, r) && AtomsOf(r) <= AtomsOf(base)
    decreases base, 1
  {
    hide Covers, Canonical, Leq, Pruned, AtomsOf;
    CanonicalFormExact(base, f);
    match base {
      case ELit(_, _) => r := base;
      case AndOf(es) =>
        var parts := FromBases(es, f.elem);
        var kept := Prune(Sorted(Leq, parts));
        r := AndOf(kept);
      case Rev(x) =>
        var y := FromBase(x, f.inner);
        r := Rev(y);
      case PairOf(x1, x2) =>
        var y1 := FromBase(x1, f.first);
        var y2 := FromBase(x2, f.second);
        r := PairOf(y1, y2);
    }
  }

  method FromBases(bases: seq<Elem>, ghost f: Form) returns (rs: seq<Elem>)
    requires AllHave(bases, f)
    ensures rs == CanonicalForms(bases)
    decreases bases, 0
  {
    hide Covers, Canonical, CanonicalForm;
    if bases == [] { return []; }
    var first := FromBase(bases[0], f);
    var rest := FromBases(bases[1..], f);
    rs := [first] + rest;
    assert forall i | 0 < i < |bases| :: bases[i] == bases[1..][i - 1];
  }

  lemma CoversAnd(xs: seq<Elem>, ys: seq<Elem>)
    ensures Covers(AndOf(xs), AndOf(ys)) <==> CoversAll(xs, ys)
  {
  }

  lemma AndEquivalent(es: seq<Elem>, parts: seq<Elem>, kept: seq<Elem>, f: Form)
    requires AllHave(es, f) && AllHave(parts, f) && |parts| == |es|
    requires forall i | 0 <= i < |es| :: Equivalent(es[i], parts[i])
    requires forall y | y in kept :: y in parts
    requires forall x | x in parts :: CoversSome(kept, x)
    ensures Equivalent(AndOf(es), AndOf(kept))
  {
    hide Covers;
    CoversAnd(es, kept);
    CoversAnd(kept, es);
    forall j | 0 <= j < |kept| ensures CoversSome(es, kept[j]) {
      assert kept[j] in kept;
      var i :| 0 <= i < |parts| && parts[i] == kept[j];
      assert Equivalent(es[i], parts[i]);
    }
    forall j | 0 <= j < |es| ensures CoversSome(kept, es[j]) {
      assert CoversSome(kept, parts[j]);
      var i :| 0 <= i < |kept| && Covers(kept[i], parts[j]);
      assert kept[i] in kept;
      CoversTransitive(kept[i], parts[j], es[j], f);
    }
  }
}
