/** Weakening a set of naive disjunctive bodies can insert a body twice, as soon as one cube with several
    literals is allowed: two lemmas are weakened to the same body under different elements, and the second
    time it is not screened. */
module NaiveWeakenings {
  import opened Collections
  import opened Syntax
  import opened Semantics
  import opened Subsumption
  import opened LemmaBodies
  import opened BodyForms
  import opened Weakening
  import LS = LemmaSets
  import Q = Quantifiers

  const A := LemmaBodies.Literal.Literal(0, true)
  const B := LemmaBodies.Literal.Literal(1, true)
  const C := LemmaBodies.Literal.Literal(2, true)

  /** There is an element `x` such that for all elements `y`, one of the cubes. */
  const TwoBlocks := Q.Prefix([Exists, Forall], [["x"], ["y"]])

  ghost function Plainly(n: nat): Setting {
    var env := Setting(TwoBlocks, Dnf, Limits(0, 0, 3, 2, n), [0, 1, 2], _ => false, _ => true, (i, e) => [e], (ignore, b) => false);
    env.(ignored := (ignore, b) => BaseFits(Dnf, b) && IgnoredIn(env, ignore, b))
  }

  function YOf(asg: Assignment): Element {
    if "y" in asg then asg["y"] else 0
  }

  /** One element for `x` and two for `y`; the first atom is true, the second of one, the third of the other. */
  function OneByTwo(): LS.Model {
    LS.Model([1, 2], (x: nat, asg: Assignment) => x == 0 || (x == 1 && YOf(asg) == 0) || (x == 2 && YOf(asg) != 0))
  }

  function NotAOr(l: Literal): Lists {
    [[l], [Negated(A)]]
  }

  const AllThree: Lists := [[C], [B], [Negated(A)]]

  function BodyNotAOr(l: Literal): Elem {
    DnfElem(NotAOr(l))
  }

  const BodyAllThree := DnfElem(AllThree)

  // The bodies are canonical forms.

  lemma UnitsApart(i: Literal, j: Literal)
    requires i.atom < j.atom
    ensures Leq(Rev(CubeElem([j])), Rev(CubeElem([i]))) && !Covers(Rev(CubeElem([j])), Rev(CubeElem([i])))
  {
    var x, y := ELit(i.atom, i.positive), ELit(j.atom, j.positive);
    assert LitElems([i]) == [x] && LitElems([j]) == [y];
    assert Leq(AndOf([x]), AndOf([y]));
    assert !Covers(x, y) && !CoversSome([x], y);
    assert [y][0] == y && !CoversSome([x], [y][0]);
    assert !CoversAll([x], [y]);
    assert !Covers(AndOf([x]), AndOf([y]));
  }

  lemma UnitCanonical(l: Literal)
    ensures Has(CubeElem([l]), CubeForm) && Canonical(Rev(CubeElem([l]))) && AtomsOf(CubeElem([l])) == {l.atom}
  {
    var x := ELit(l.atom, l.positive);
    assert LitElems([l]) == [x];
    assert SortedList([x]) && Irredundant([x]);
    assert AtomsOfAll([x]) == AtomsOf(x) + AtomsOfAll([]);
  }

  lemma BodyCanonical(l: Literal)
    requires l == B || l == C
    ensures Has(BodyNotAOr(l), DnfForm) && Canonical(BodyNotAOr(l))
  {
    var es := RevEach(CubeElems(NotAOr(l)));
    UnitCanonical(l);
    UnitCanonical(Negated(A));
    UnitsApart(Negated(A), l);
    ToElemTrue(Dnf, Base.Lists(NotAOr(l)), _ => true);
    hide Covers, Leq, CubeElem, Has;
    assert es == [Rev(CubeElem([l])), Rev(CubeElem([Negated(A)]))];
    assert SortedList(es) && Irredundant(es);
  }

  lemma AllThreeCanonical()
    ensures Has(BodyAllThree, DnfForm) && Canonical(BodyAllThree)
  {
    var es := RevEach(CubeElems(AllThree));
    UnitCanonical(B);
    UnitCanonical(C);
    UnitCanonical(Negated(A));
    UnitsApart(Negated(A), B);
    UnitsApart(Negated(A), C);
    UnitsApart(B, C);
    ToElemTrue(Dnf, Base.Lists(AllThree), _ => true);
    hide Covers, Leq, CubeElem, Has;
    assert es == [Rev(CubeElem([C])), Rev(CubeElem([B])), Rev(CubeElem([Negated(A)]))];
    assert SortedList(es) && Irredundant(es);
  }

  lemma AtomsAllowed(lists: Lists)
    requires forall c | c in lists :: forall l | l in c :: l.atom < 3
    ensures forall x | x in AtomsOf(DnfElem(lists)) :: x in [0, 1, 2]
  {
    BaseAtoms(Dnf, Base.Lists(lists), {0, 1, 2});
  }

  lemma BodiesFit(n: nat)
    ensures forall l | l == B || l == C :: BodyOk(Plainly(n), BodyNotAOr(l))
    ensures BodyOk(Plainly(n), BodyAllThree)
    ensures BodyNotAOr(B) != BodyNotAOr(C) && BodyAllThree != BodyNotAOr(B) && BodyAllThree != BodyNotAOr(C)
  {
    hide Has, Canonical, AtomsOf;
    forall l | l == B || l == C ensures BodyOk(Plainly(n), BodyNotAOr(l)) {
      BodyCanonical(l);
      AtomsAllowed(NotAOr(l));
    }
    AllThreeCanonical();
    AtomsAllowed(AllThree);
    OneBase(NotAOr(B), NotAOr(C));
    OneBase(AllThree, NotAOr(B));
    OneBase(AllThree, NotAOr(C));
  }

  // A form has one base, and two bases with the same cubes have the same canonical form.

  lemma SameCube(c: seq<Literal>, d: seq<Literal>)
    requires CubeElem(c) == CubeElem(d)
    ensures c == d
  {
    assert LitElems(c) == LitElems(d);
    forall i | 0 <= i < |c| ensures c[i] == d[i] { assert LitElems(c)[i] == LitElems(d)[i]; }
  }

  lemma OneBase(xs: Lists, ys: Lists)
    ensures DnfElem(xs) == DnfElem(ys) ==> xs == ys
  {
    if DnfElem(xs) == DnfElem(ys) {
      var es, fs := RevEach(CubeElems(xs)), RevEach(CubeElems(ys));
      assert es == fs;
      forall i | 0 <= i < |xs| ensures xs[i] == ys[i] {
        assert es[i] == fs[i];
        SameCube(xs[i], ys[i]);
      }
    }
  }

  lemma BaseOfBody(lists: Lists)
    requires Has(DnfElem(lists), DnfForm)
    ensures ToBase(Dnf, DnfElem(lists)) == Base.Lists(lists)
  {
    OneBase(ToBase(Dnf, DnfElem(lists)).lists, lists);
  }

  lemma CubesCovered(xs: Lists, ys: Lists)
    requires forall c | c in xs :: c in ys
    ensures Covers(DnfElem(xs), DnfElem(ys))
  {
    var es, fs := RevEach(CubeElems(xs)), RevEach(CubeElems(ys));
    forall j | 0 <= j < |es| ensures CoversSome(fs, es[j]) {
      assert xs[j] in xs;
      var i :| 0 <= i < |ys| && ys[i] == xs[j];
      CoversReflexive(es[j]);
      assert fs[i] == es[j];
    }
    hide CubeElems;
    assert CoversAll(fs, es);
    assert Covers(AndOf(fs), AndOf(es));
  }

  lemma FormIsAllThree(n: nat, lists: Lists, e: Elem)
    requires (forall c | c in lists :: c in AllThree) && (forall c | c in AllThree :: c in lists)
    ensures FormOfBase(Plainly(n), Base.Lists(lists), e) <==> e == BodyAllThree
  {
    CubesCovered(lists, AllThree);
    CubesCovered(AllThree, lists);
    AllThreeCanonical();
    hide Has, Canonical, Covers, DnfElem;
    assert ToElem(Dnf, Base.Lists(lists)) == DnfElem(lists) by { ElemOfBase(lists); }
    assert FormOfBase(Plainly(n), Base.Lists(lists), BodyAllThree);
    if FormOfBase(Plainly(n), Base.Lists(lists), e) { OneForm(Plainly(n), Base.Lists(lists), e, BodyAllThree); }
  }

  lemma ElemOfBase(lists: Lists)
    ensures ToElem(Dnf, Base.Lists(lists)) == DnfElem(lists)
  {
  }

  // Both bodies are weakened to the third.

  /** Under one of the elements, the atoms of the model but `l` and `A`'s. */
  predicate Reads(v: nat -> bool, own: Literal, other: Literal) {
    v(0) && v(own.atom) && !v(other.atom)
  }

  lemma CubeIs(v: nat -> bool, own: Literal, other: Literal)
    requires (own == B && other == C) || (own == C && other == B)
    requires Reads(v, own, other)
    ensures TrueCube([0, 1, 2], v) == if own == B then [A, B, Negated(C)] else [A, Negated(B), C]
  {
  }

  lemma TwoCubes(x: seq<Literal>, y: seq<Literal>, l: Literal)
    requires l !in x && l !in y && Negated(l) !in x && Negated(l) !in y
    ensures Absorb([x, y], l) == [x, y] && Absorb([x], l) == [x] && Absorb([], l) == []
  {
    KeepsAll((z: Literal) => z != Negated(l), x);
    KeepsAll((z: Literal) => z != Negated(l), y);
    assert [x, y][1..] == [y] && [x][1..] == [] && [y][1..] == [];
    assert Absorb([y], l) == [y];
  }

  lemma {:induction false} KeepsAll(keep: Literal -> bool, xs: seq<Literal>)
    requires forall x | x in xs :: keep(x)
    ensures Filter(keep, xs) == xs
    decreases |xs|
  {
    if xs != [] { KeepsAll(keep, xs[1..]); }
  }

  lemma UnitsPropagated(own: Literal, other: Literal, last: Literal, isEq: nat -> bool)
    requires own != other && own != last && other != last
    requires Negated(own) != other && Negated(own) != last && Negated(other) != last && isEq == (_ => false)
    ensures Propagate([], own, [[other], [last]], isEq) == Some(([own, other, last], []))
  {
    FirstUnitPropagated(own, other, last, isEq);
    SecondUnitPropagated(own, other, last, isEq);
    LastUnitPropagated(own, other, last, isEq);
  }

  lemma FirstUnitPropagated(own: Literal, other: Literal, last: Literal, isEq: nat -> bool)
    requires own != other && own != last && Negated(own) != other && Negated(own) != last && isEq == (_ => false)
    ensures Propagate([], own, [[other], [last]], isEq) == Propagate([own], other, [[last]], isEq)
  {
    TwoCubes([other], [last], own);
    hide *;
    var more: Lists := [[last]];
    var none: seq<Literal> := [];
    assert [[other]] + more == [[other], [last]];
    PropagateNext(none, own, other, more, isEq);
    assert none + [own] == [own];
  }

  lemma SecondUnitPropagated(own: Literal, other: Literal, last: Literal, isEq: nat -> bool)
    requires own != other && other != last && Negated(other) != last && isEq == (_ => false)
    ensures Propagate([own], other, [[last]], isEq) == Propagate([own, other], last, [], isEq)
  {
    TwoCubes([last], [], other);
    hide *;
    var more: Lists := [];
    assert [[last]] + more == [[last]];
    PropagateNext([own], other, last, more, isEq);
    assert [own] + [other] == [own, other];
  }

  lemma LastUnitPropagated(own: Literal, other: Literal, last: Literal, isEq: nat -> bool)
    requires own != last && other != last && isEq == (_ => false)
    ensures Propagate([own, other], last, [], isEq) == Some(([own, other, last], []))
  {
    hide *;
    PropagateLast([own, other], last, isEq);
    assert [own, other] + [last] == [own, other, last];
  }

  /** Adding `own` to the body of `other` gives all three units. */
  lemma UnitAdded(own: Literal, other: Literal, isEq: nat -> bool)
    requires (own == B && other == C) || (own == C && other == B)
    requires isEq == (_ => false)
    ensures AddedUnit(NotAOr(other), own, 3, isEq) == Some([[own], [other], [Negated(A)]])
  {
    hide Propagate;
    UnitsPropagated(own, other, Negated(A), isEq);
    var units: Lists := [[own], [other], [Negated(A)]];
    assert UnitClauses([own, other, Negated(A)]) == units;
    var none: Lists := [];
    assert none + units == units;
  }

  lemma PropagateNext(units: seq<Literal>, pending: Literal, next: Literal, more: Lists, isEq: nat -> bool)
    requires isEq == (_ => false) && pending !in units
    requires Absorb([[next]] + more, pending) == [[next]] + more && forall c | c in more :: |c| > 0
    ensures Propagate(units, pending, [[next]] + more, isEq) == Propagate(units + [pending], next, more, isEq)
  {
    hide Absorb;
    var rest := [[next]] + more;
    assert FirstUnit(rest, 0) == 0;
    assert WithoutAt(rest, 0) == more;
    assert !Empties(rest, pending);
  }

  lemma PropagateLast(units: seq<Literal>, pending: Literal, isEq: nat -> bool)
    requires isEq == (_ => false) && pending !in units
    ensures Propagate(units, pending, [], isEq) == Some((units + [pending], []))
  {
    assert Absorb([], pending) == [];
  }

  lemma FilterStep(keep: Literal -> bool, x: Literal, rest: seq<Literal>)
    ensures Filter(keep, [x] + rest) == (if keep(x) then [x] else []) + Filter(keep, rest)
  {
    assert ([x] + rest)[1..] == rest;
  }

  lemma FreeIs(v: nat -> bool, own: Literal, other: Literal)
    requires (own == B && other == C) || (own == C && other == B)
    requires Reads(v, own, other)
    ensures !SharesUnit(NotAOr(other), TrueCube([0, 1, 2], v)) && FreeLiterals(NotAOr(other), TrueCube([0, 1, 2], v)) == [own]
  {
    CubeIs(v, own, other);
    var base := NotAOr(other);
    var free := (l: Literal) => [Negated(l)] !in base;
    var cube := if own == B then [A, B, Negated(C)] else [A, Negated(B), C];
    assert !free(A) && free(own) && !free(Negated(other));
    hide Filter, Absorb;
    assert cube == [A] + ([cube[1]] + ([cube[2]] + []));
    FilterStep(free, A, [cube[1]] + ([cube[2]] + []));
    FilterStep(free, cube[1], [cube[2]] + []);
    FilterStep(free, cube[2], []);
    NoneKept(free);
  }

  lemma NoneKept(keep: Literal -> bool)
    ensures Filter(keep, []) == []
  {
  }

  lemma NaiveWeakeningIs(v: nat -> bool, own: Literal, other: Literal, n: nat, isEq: nat -> bool, ignore: Lists -> bool, r: Lists)
    requires n > 0 && ((own == B && other == C) || (own == C && other == B)) && isEq == (_ => false)
    requires Reads(v, own, other)
    ensures NaiveWeakening(NotAOr(other), TrueCube([0, 1, 2], v), 3, 2, n, isEq, ignore, r) <==> r == [[own], [other], [Negated(A)]]
  {
    FreeIs(v, own, other);
    UnitAdded(own, other, isEq);
    hide AddedUnit, FreeLiterals, SharesUnit, TrueCube;
    assert NotAOr(other)[1..] == [[Negated(A)]] && NotAOr(other)[1..][1..] == [];
    assert Large([]) == 0 && Large([[Negated(A)]]) == 0 && Large(NotAOr(other)) == 0;
  }

  lemma WeakenedToAllThree(n: nat, v: nat -> bool, own: Literal, other: Literal, ignore: Base -> bool, e: Elem)
    requires n > 0 && ((own == B && other == C) || (own == C && other == B))
    requires Reads(v, own, other)
    ensures Has(BodyNotAOr(other), DnfForm)
    ensures BodyWeakening(Plainly(n), BodyNotAOr(other), v, ignore, e) <==> e == BodyAllThree
  {
    var env := Plainly(n);
    BodyCanonical(other);
    BaseOfBody(NotAOr(other));
    var result: Lists := [[own], [other], [Negated(A)]];
    hide Has, NaiveWeakening, FormOfBase, ToBase, DnfElem, TrueCube, Canonical;
    forall b ensures BaseWeakening(env, Base.Lists(NotAOr(other)), v, ignore, b) <==> b == Base.Lists(result) {
      if b.Lists? { NaiveWeakeningIs(v, own, other, n, env.isEq, (x: Lists) => ignore(Base.Lists(x)), b.lists); }
    }
    FormIsAllThree(n, result, e);
  }

  // The run.

  lemma Fits(n: nat)
    ensures ModelFits(Plainly(n), OneByTwo()) && |TwoBlocks.quantifiers| == |TwoBlocks.names| == 2
  {
    assert NoDuplicates(TwoBlocks.names[0]) && NoDuplicates(TwoBlocks.names[1]);
  }

  lemma PlainlyPlain(n: nat)
    ensures Plain(Plainly(n))
  {
    hide Has, Canonical, AtomsOf, ToElem, Equivalent;
    var env := Plainly(n);
    forall ignore: seq<(set<Elem>, nat)>, b: Base | BaseFits(env.kind, b) && IgnoredIn(env, ignore, b) ensures env.ignored(ignore, b) {
      var x: (set<Elem>, nat), e: Elem :| x in ignore && e in x.0 && BodyOk(env, e) && Equivalent(ToElem(env.kind, b), e);
    }
  }

  /** What is left of one body under a full assignment. */
  lemma LeafOf(n: nat, s: set<Elem>, own: Literal, other: Literal, asg: Assignment, permIndex: nat, ignore: seq<(set<Elem>, nat)>,
               r: Option<set<Elem>>)
    requires n > 0 && ((own == B && other == C) || (own == C && other == B)) && ModelFits(Plainly(n), OneByTwo())
    requires Reads(LS.Valuation(OneByTwo(), asg), own, other)
    requires Outcome(Plainly(n), OneByTwo(), s, {BodyNotAOr(other)}, asg, 2, permIndex, false, ignore, r)
    ensures r == if BodyAllThree in s then None else Some(s + {BodyAllThree})
  {
    var env, v := Plainly(n), LS.Valuation(OneByTwo(), asg);
    UnfoldLeaf(n, s, BodyNotAOr(other), asg, permIndex, ignore, r);
    hide *;
    var es, kept: set<Elem> := UnfoldLeafOutcome(env, s, {BodyNotAOr(other)}, v, permIndex, ignore, r);
    LeafWeakenings(n, v, own, other, ignore + [(s, permIndex)], es);
    OneKept(env, es, kept, permIndex);
    MergedOne(env, s, permIndex);
  }

  lemma UnfoldLeaf(n: nat, s: set<Elem>, o: Elem, asg: Assignment, permIndex: nat, ignore: seq<(set<Elem>, nat)>, r: Option<set<Elem>>)
    requires ModelFits(Plainly(n), OneByTwo()) && Outcome(Plainly(n), OneByTwo(), s, {o}, asg, 2, permIndex, false, ignore, r)
    ensures LeafOutcome(Plainly(n), s, {o}, LS.Valuation(OneByTwo(), asg), permIndex, false, ignore, r)
  {
    hide LeafOutcome, ModelFits;
    assert o in {o};
  }

  lemma UnfoldLeafOutcome(env: Setting, s: set<Elem>, w: set<Elem>, v: nat -> bool, permIndex: nat, ignore: seq<(set<Elem>, nat)>,
                          r: Option<set<Elem>>)
    returns (es: set<Elem>, kept: set<Elem>)
    requires LeafOutcome(env, s, w, v, permIndex, false, ignore, r)
    ensures AllWeakenings(env, w, v, ignore + [(s, permIndex)], es) && Minimal(env, es, kept, permIndex) && r == Merged(env, s, kept, permIndex, false)
  {
    hide AllWeakenings, Minimal, Merged;
    es, kept :| AllWeakenings(env, w, v, ignore + [(s, permIndex)], es) && Minimal(env, es, kept, permIndex) && r == Merged(env, s, kept, permIndex, false && s != {});
  }

  lemma LeafWeakenings(n: nat, v: nat -> bool, own: Literal, other: Literal, ignore: seq<(set<Elem>, nat)>, es: set<Elem>)
    requires n > 0 && ((own == B && other == C) || (own == C && other == B))
    requires Reads(v, own, other) && AllWeakenings(Plainly(n), {BodyNotAOr(other)}, v, ignore, es)
    ensures es == {BodyAllThree}
  {
    hide Has, BodyWeakening, Reads;
    var env := Plainly(n);
    forall e ensures LeafWeakening(env, BodyNotAOr(other), v, ignore, e) <==> e == BodyAllThree {
      WeakenedToAllThree(n, v, own, other, (b: Base) => env.ignored(ignore, b), e);
    }
    hide LeafWeakening;
    forall e ensures SomeWeakening(env, {BodyNotAOr(other)}, v, ignore, e) <==> LeafWeakening(env, BodyNotAOr(other), v, ignore, e) {
      assert BodyNotAOr(other) in {BodyNotAOr(other)};
    }
  }

  lemma OneKept(env: Setting, es: set<Elem>, kept: set<Elem>, permIndex: nat)
    requires Minimal(env, es, kept, permIndex) && es == {BodyAllThree}
    ensures kept == {BodyAllThree}
  {
    hide BodyOk, Subsumes, DnfElem;
    var any: (Elem, Elem) -> bool := (a, b) => true;
    assert CoveringAt(env, permIndex, any);
    assert BodyAllThree in es && Below(any, kept, BodyAllThree);
  }

  lemma MergedOne(env: Setting, s: set<Elem>, permIndex: nat)
    ensures Merged(env, s, {BodyAllThree}, permIndex, false) == if BodyAllThree in s then None else Some(s + {BodyAllThree})
  {
    hide Surviving, DnfElem;
  }

  lemma LeafTruth(n: nat, asg: Assignment)
    requires ModelFits(Plainly(n), OneByTwo())
    ensures TrueFrom(Plainly(n), OneByTwo(), BodyNotAOr(B), 2, asg) <==> YOf(asg) == 0
    ensures TrueFrom(Plainly(n), OneByTwo(), BodyNotAOr(C), 2, asg) <==> YOf(asg) != 0
    ensures TrueFrom(Plainly(n), OneByTwo(), BodyAllThree, 2, asg)
    ensures YOf(asg) == 0 ==> Reads(LS.Valuation(OneByTwo(), asg), B, C)
    ensures YOf(asg) != 0 ==> Reads(LS.Valuation(OneByTwo(), asg), C, B)
  {
    var env, m := Plainly(n), OneByTwo();
    var v := LS.Valuation(m, asg);
    LeafTrue(env, m, BodyNotAOr(B), asg);
    LeafTrue(env, m, BodyNotAOr(C), asg);
    LeafTrue(env, m, BodyAllThree, asg);
    hide TrueFrom, Truth, ModelFits;
    UnitsTruth(NotAOr(B), v);
    UnitsTruth(NotAOr(C), v);
    UnitsTruth(AllThree, v);
    assert [B] in NotAOr(B) && [C] in NotAOr(C) && [B] in AllThree && [C] in AllThree;
  }

  lemma UnitsTruth(lists: Lists, v: nat -> bool)
    requires forall c | c in lists :: |c| == 1
    ensures Truth(DnfElem(lists), v) <==> exists c | c in lists :: LitTrue(c[0], v)
  {
    ToElemTrue(Dnf, Base.Lists(lists), v);
    ElemOfBase(lists);
    hide Truth, DnfElem, ToElem;
    forall c | c in lists ensures CubeTrue(c, v) <==> LitTrue(c[0], v) { UnitCube(c, v); }
  }

  lemma OneTuples(k: nat)
    ensures Product([k]) == Prefixed(k, [[]])
    ensures Prefixed(1, [[]]) == [[0]] && Prefixed(2, [[]]) == [[0], [1]]
  {
    assert [k][1..] == [] && Product([]) == [[]];
    PrefixedStep(0);
    PrefixedStep(1);
    hide Product;
    assert Prefixed(1, [[]]) == [[0]] && Prefixed(2, [[]]) == [[0], [1]];
  }

  lemma BlockTuples(n: nat)
    ensures Tuples(Plainly(n), OneByTwo(), 0) == [[0]] && Tuples(Plainly(n), OneByTwo(), 1) == [[0], [1]]
  {
    assert Q.BlockShape(["x"], 1) == [1] && Q.BlockShape(["y"], 2) == [2];
    OneTuples(1);
    OneTuples(2);
    hide Product, Prefixed, Q.BlockShape;
  }

  lemma AssignOne(asg: Assignment, name: string, e: Element)
    ensures Q.Assign(asg, [name], [e]) == asg[name := e]
  {
    assert [name][1..] == [] && [e][1..] == [];
  }

  lemma Blocks(n: nat)
    ensures Tuples(Plainly(n), OneByTwo(), 0) == [[0]] && Tuples(Plainly(n), OneByTwo(), 1) == [[0], [1]]
    ensures forall asg :: Extended(Plainly(n), OneByTwo(), 0, asg, 0) == asg["x" := 0]
    ensures forall asg, k: nat | k < 2 :: Extended(Plainly(n), OneByTwo(), 1, asg, k) == asg["y" := k]
  {
    BlockTuples(n);
    hide Tuples, Q.Assign;
    forall asg ensures Extended(Plainly(n), OneByTwo(), 0, asg, 0) == asg["x" := 0] { AssignOne(asg, "x", 0); }
    forall asg, k: nat | k < 2 ensures Extended(Plainly(n), OneByTwo(), 1, asg, k) == asg["y" := k] { AssignOne(asg, "y", k); }
  }

  lemma PrefixedStep(k: nat)
    ensures Prefixed(k + 1, [[]]) == Prefixed(k, [[]]) + [[k]]
  {
    var empty: seq<seq<nat>> := [[]];
    assert [k] + empty[0] == [k];
  }

  /** Under the first element the second body is replaced by the third one, and under the second element the
      first body would be, a second time. */
  lemma ForallTrips(n: nat, asg: Assignment, permIndex: nat, ignore: seq<(set<Elem>, nat)>, r: Option<set<Elem>>)
    requires n > 0 && ModelFits(Plainly(n), OneByTwo())
    requires ForallOutcome(Plainly(n), OneByTwo(), {BodyNotAOr(B), BodyNotAOr(C)}, asg, 1, 0, permIndex, ignore, r)
    ensures r == None
  {
    var both := {BodyNotAOr(B), BodyNotAOr(C)};
    var first, second: Assignment := asg["y" := 0], asg["y" := 1];
    var more := FirstTuple(n, both, asg, permIndex, ignore, r);
    WrongFirst(n, first);
    LeafTruth(n, first);
    LeafTruth(n, second);
    hide *;
    LeafOf(n, {BodyNotAOr(B)}, B, C, first, permIndex, ignore, more);
    BodiesFit(n);
    var now := {BodyNotAOr(B)} + {BodyAllThree};
    var last := SecondTuple(n, now, asg, permIndex, ignore, r);
    WrongSecond(n, second);
    LeafOf(n, {BodyAllThree}, C, B, second, permIndex, ignore, last);
  }

  lemma WrongFirst(n: nat, asg: Assignment)
    requires ModelFits(Plainly(n), OneByTwo()) && YOf(asg) == 0
    ensures var both := {BodyNotAOr(B), BodyNotAOr(C)}; var wrong := FalseOf(Plainly(n), OneByTwo(), both, 2, asg);
            wrong == {BodyNotAOr(C)} && both - wrong == {BodyNotAOr(B)}
  {
    LeafTruth(n, asg);
    BodiesFit(n);
    hide TrueFrom, BodyOk, ModelFits, Reads, BodyNotAOr;
  }

  lemma WrongSecond(n: nat, asg: Assignment)
    requires ModelFits(Plainly(n), OneByTwo()) && YOf(asg) != 0
    ensures var now := {BodyNotAOr(B)} + {BodyAllThree}; var wrong := FalseOf(Plainly(n), OneByTwo(), now, 2, asg);
            wrong == {BodyNotAOr(B)} && now - wrong == {BodyAllThree}
  {
    LeafTruth(n, asg);
    BodiesFit(n);
    hide TrueFrom, BodyOk, ModelFits, Reads, BodyNotAOr;
  }

  lemma FirstTuple(n: nat, t: set<Elem>, asg: Assignment, permIndex: nat, ignore: seq<(set<Elem>, nat)>, r: Option<set<Elem>>)
    returns (more: Option<set<Elem>>)
    requires ModelFits(Plainly(n), OneByTwo()) && ForallOutcome(Plainly(n), OneByTwo(), t, asg, 1, 0, permIndex, ignore, r)
    ensures var asg' := asg["y" := 0]; var wrong := FalseOf(Plainly(n), OneByTwo(), t, 2, asg');
            Outcome(Plainly(n), OneByTwo(), t - wrong, wrong, asg', 2, permIndex, false, ignore, more)
    ensures if more.None? then r == None else ForallOutcome(Plainly(n), OneByTwo(), more.value, asg, 1, 1, permIndex, ignore, r)
  {
    Blocks(n);
    hide Outcome, ModelFits, FalseOf, Tuples, Extended;
    var asg' := asg["y" := 0];
    var wrong := FalseOf(Plainly(n), OneByTwo(), t, 2, asg');
    more :| Outcome(Plainly(n), OneByTwo(), t - wrong, wrong, asg', 2, permIndex, false, ignore, more)
            && if more.None? then r == None else ForallOutcome(Plainly(n), OneByTwo(), more.value, asg, 1, 1, permIndex, ignore, r);
  }

  lemma SecondTuple(n: nat, t: set<Elem>, asg: Assignment, permIndex: nat, ignore: seq<(set<Elem>, nat)>, r: Option<set<Elem>>)
    returns (more: Option<set<Elem>>)
    requires ModelFits(Plainly(n), OneByTwo()) && ForallOutcome(Plainly(n), OneByTwo(), t, asg, 1, 1, permIndex, ignore, r)
    ensures var asg' := asg["y" := 1]; var wrong := FalseOf(Plainly(n), OneByTwo(), t, 2, asg');
            Outcome(Plainly(n), OneByTwo(), t - wrong, wrong, asg', 2, permIndex, false, ignore, more)
    ensures more.None? ==> r == None
  {
    Blocks(n);
    hide Outcome, ModelFits, FalseOf, Tuples, Extended;
    var asg' := asg["y" := 1];
    var wrong := FalseOf(Plainly(n), OneByTwo(), t, 2, asg');
    more :| Outcome(Plainly(n), OneByTwo(), t - wrong, wrong, asg', 2, permIndex, false, ignore, more)
            && if more.None? then r == None else ForallOutcome(Plainly(n), OneByTwo(), more.value, asg, 1, 2, permIndex, ignore, r);
  }

  lemma ExistsTrips(n: nat, r: Option<set<Elem>>)
    requires n > 0 && ModelFits(Plainly(n), OneByTwo()) && |TwoBlocks.quantifiers| == |TwoBlocks.names|
    requires Outcome(Plainly(n), OneByTwo(), {}, {BodyNotAOr(B), BodyNotAOr(C)}, map[], 0, 0, false, [], r)
    ensures r == None
  {
    var both, asg: Assignment := {BodyNotAOr(B), BodyNotAOr(C)}, map["x" := 0];
    assert BodyNotAOr(B) in both;
    Blocks(n);
    var empty: Assignment := map[];
    assert empty["x" := 0] == asg;
    hide ModelFits, Tuples, Extended, BodyNotAOr, ForallOutcome, LeafOutcome, MergeOutcome;
    var more :| Outcome(Plainly(n), OneByTwo(), {}, both, asg, 1, 0, true, [], more)
                && if more.None? then r == None else ExistsOutcome(Plainly(n), OneByTwo(), more.value, both, empty, 0, 1, 0, [], r);
    InnerTrips(n, asg, more);
  }

  lemma InnerTrips(n: nat, asg: Assignment, r: Option<set<Elem>>)
    requires n > 0 && ModelFits(Plainly(n), OneByTwo()) && |TwoBlocks.quantifiers| == |TwoBlocks.names|
    requires Outcome(Plainly(n), OneByTwo(), {}, {BodyNotAOr(B), BodyNotAOr(C)}, asg, 1, 0, true, [], r)
    ensures r == None
  {
    var both, ignore: seq<(set<Elem>, nat)> := {BodyNotAOr(B), BodyNotAOr(C)}, [] + [({}, 0)];
    assert BodyNotAOr(B) in both;
    hide ModelFits, BodyNotAOr, ForallOutcome, LeafOutcome;
    var t :| ForallOutcome(Plainly(n), OneByTwo(), both, asg, 1, 0, 1, ignore, t) && MergeOutcome(Plainly(n), {}, t, 0, true, r);
    ForallTrips(n, asg, 1, ignore, t);
  }

  lemma InnerFalse(n: nat, l: Literal, asg: Assignment)
    requires (l == B || l == C) && ModelFits(Plainly(n), OneByTwo()) && |TwoBlocks.quantifiers| == |TwoBlocks.names|
    ensures !TrueFrom(Plainly(n), OneByTwo(), BodyNotAOr(l), 1, asg)
  {
    var env, m, k: nat := Plainly(n), OneByTwo(), if l == B then 1 else 0;
    Blocks(n);
    BlockFits(env, m, 1);
    InBlockNext(env, m, 1, 0);
    InBlockNext(env, m, 1, 1);
    LeafTruth(n, asg["y" := k]);
    hide TrueFrom, ModelFits, BodyNotAOr, Tuples, Extended, Reads;
    AllTuples(env, m, BodyNotAOr(l), 1, asg);
    assert !TrueFrom(env, m, BodyNotAOr(l), 2, Extended(env, m, 1, asg, k));
  }

  /** Both bodies are false in the model. */
  lemma BothFalse(n: nat, l: Literal)
    requires (l == B || l == C) && ModelFits(Plainly(n), OneByTwo()) && |TwoBlocks.quantifiers| == |TwoBlocks.names|
    ensures !TrueFrom(Plainly(n), OneByTwo(), BodyNotAOr(l), 0, map[])
  {
    var empty: Assignment := map[];
    Blocks(n);
    BlockFits(Plainly(n), OneByTwo(), 0);
    InnerFalse(n, l, empty["x" := 0]);
    hide TrueFrom, ModelFits, BodyNotAOr, Tuples, Extended, InBlock;
    OnlyTuple(Plainly(n), OneByTwo(), BodyNotAOr(l), 0, empty);
  }

  lemma OnlyTuple(env: Setting, m: LS.Model, e: Elem, i: nat, asg: Assignment)
    requires InBlock(env, m, i, 0) && |env.prefix.quantifiers| == |env.prefix.names| && i < |m.sizes|
    requires env.prefix.quantifiers[i] == Exists && |Tuples(env, m, i)| == 1
    requires !TrueFrom(env, m, e, i + 1, Extended(env, m, i, asg, 0))
    ensures !TrueFrom(env, m, e, i, asg)
  {
    InBlockNext(env, m, i, 0);
    SomeTuple(env, m, e, i, asg, 1);
    hide TrueFrom, ModelFits, Tuples, Extended, InBlock;
    assert NoneFirst(env, m, e, i, asg, 1);
  }

  /** Weakening naive bodies with room for a cube of several literals, on a store of two lemmas that a model
      falsifies, always ends in the assertion. */
  lemma NaiveTrips(n: nat) returns (env: Setting, m: LS.Model, before: set<Elem>)
    requires n > 0
    ensures env.kind == Dnf && env.limits == Limits(0, 0, 3, 2, n) && Plain(env)
    ensures ModelFits(env, m) && AllOk(env, before) && BottomAlone(env, before)
    ensures forall after | WeakenOutcome(env, m, before, after) :: after == None
  {
    env, m, before := Plainly(n), OneByTwo(), {BodyNotAOr(B), BodyNotAOr(C)};
    Fits(n);
    PlainlyPlain(n);
    BodiesFit(n);
    BothFalse(n, B);
    BothFalse(n, C);
    hide Outcome, TrueFrom, ModelFits, Plain, BodyOk, BodyNotAOr;
    assert FalseOf(env, m, before, 0, map[]) == before;
    assert BodyNotAOr(B) in before && before - before == {};
    forall after | WeakenOutcome(env, m, before, after) ensures after == None { ExistsTrips(n, after); }
  }
}
