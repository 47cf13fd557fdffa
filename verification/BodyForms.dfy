/** The bodies of lemmas as nested forms: conversions, their meaning, and when a body is
    falsified by the literals that are false in a model. */
module BodyForms {
  import opened Collections
  import opened Subsumption
  import opened LemmaBodies

  const ClauseForm := RevForm(AndForm(RevForm(LitForm)))
  const CubeForm := AndForm(LitForm)
  const CnfForm := AndForm(ClauseForm)
  const DnfForm := RevForm(AndForm(RevForm(CubeForm)))

  datatype Base = Lists(lists: Lists) | Split(split: PDnfBase)

  datatype Kind = Cnf | Dnf | PDnf

  function FormOf(k: Kind): Form {
    match k case Cnf => CnfForm case Dnf => DnfForm case PDnf => PairForm(ClauseForm, DnfForm)
  }

  // From lists to forms.

  function LitElems(c: seq<Literal>): (r: seq<Elem>)
    ensures |r| == |c| && forall i | 0 <= i < |c| :: r[i] == ELit(c[i].atom, c[i].positive)
  {
    seq(|c|, i requires 0 <= i < |c| => ELit(c[i].atom, c[i].positive))
  }

  function RevEach(es: seq<Elem>): (r: seq<Elem>)
    ensures |r| == |es| && forall i | 0 <= i < |es| :: r[i] == Rev(es[i])
  {
    seq(|es|, i requires 0 <= i < |es| => Rev(es[i]))
  }

  function CubeElem(c: seq<Literal>): Elem { AndOf(LitElems(c)) }

  function ClauseElem(c: seq<Literal>): Elem { Rev(AndOf(RevEach(LitElems(c)))) }

  function CubeElems(cs: Lists): (r: seq<Elem>)
    ensures |r| == |cs| && forall i | 0 <= i < |cs| :: r[i] == CubeElem(cs[i])
  {
    seq(|cs|, i requires 0 <= i < |cs| => CubeElem(cs[i]))
  }

  function ClauseElems(cs: Lists): (r: seq<Elem>)
    ensures |r| == |cs| && forall i | 0 <= i < |cs| :: r[i] == ClauseElem(cs[i])
  {
    seq(|cs|, i requires 0 <= i < |cs| => ClauseElem(cs[i]))
  }

  function CnfElem(cs: Lists): Elem { AndOf(ClauseElems(cs)) }

  function DnfElem(cs: Lists): Elem { Rev(AndOf(RevEach(CubeElems(cs)))) }

  predicate BaseFits(k: Kind, b: Base) {
    k == PDnf <==> b.Split?
  }

  function ToElem(k: Kind, b: Base): Elem
    requires BaseFits(k, b)
  {
    match k
    case Cnf => CnfElem(b.lists)
    case Dnf => DnfElem(b.lists)
    case PDnf => PairOf(ClauseElem(b.split.units), DnfElem(b.split.nonUnits))
  }

  predicate BaseTrue(k: Kind, b: Base, v: nat -> bool)
    requires BaseFits(k, b)
  {
    match k case Cnf => CnfTrue(b.lists, v) case Dnf => DnfTrue(b.lists, v) case PDnf => PDnfTrue(b.split, v)
  }

  ghost predicate InBase(l: Literal, b: Base) {
    match b case Lists(lists) => Occurs(l, lists) case Split(p) => l in p.units || Occurs(l, p.nonUnits)
  }

  lemma CubeElemTrue(c: seq<Literal>, v: nat -> bool)
    ensures Has(CubeElem(c), CubeForm) && (Truth(CubeElem(c), v) <==> CubeTrue(c, v))
  {
    var es := LitElems(c);
    assert forall i | 0 <= i < |c| :: c[i] in c && (Truth(es[i], v) <==> LitTrue(c[i], v));
  }

  lemma ClauseElemTrue(c: seq<Literal>, v: nat -> bool)
    ensures Has(ClauseElem(c), ClauseForm) && (Truth(ClauseElem(c), v) <==> ClauseTrue(c, v))
  {
    var es := RevEach(LitElems(c));
    forall i | 0 <= i < |c| ensures Has(es[i], RevForm(LitForm)) && (Truth(es[i], v) <==> !LitTrue(c[i], v)) {
      assert es[i] == Rev(ELit(c[i].atom, c[i].positive));
    }
    assert forall i | 0 <= i < |c| :: c[i] in c;
    assert Truth(AndOf(es), v) <==> !ClauseTrue(c, v);
  }

  lemma CnfElemTrue(cs: Lists, v: nat -> bool)
    ensures Has(CnfElem(cs), CnfForm) && (Truth(CnfElem(cs), v) <==> CnfTrue(cs, v))
  {
    hide ClauseTrue, ClauseElem;
    var es := ClauseElems(cs);
    forall i | 0 <= i < |cs| ensures Has(es[i], ClauseForm) && (Truth(es[i], v) <==> ClauseTrue(cs[i], v)) { ClauseElemTrue(cs[i], v); }
    AndTruth(es, v);
    AndHas(es, ClauseForm);
    if CnfTrue(cs, v) {
      forall i | 0 <= i < |es| ensures Truth(es[i], v) { assert cs[i] in cs; }
    }
    if forall i | 0 <= i < |es| :: Truth(es[i], v) {
      forall c | c in cs ensures ClauseTrue(c, v) {
        var i :| 0 <= i < |cs| && cs[i] == c;
        assert Truth(es[i], v);
      }
    }
  }

  lemma AndTruth(es: seq<Elem>, v: nat -> bool)
    ensures Truth(AndOf(es), v) <==> forall i | 0 <= i < |es| :: Truth(es[i], v)
  {
  }

  lemma AndHas(es: seq<Elem>, f: Form)
    requires forall i | 0 <= i < |es| :: Has(es[i], f)
    ensures Has(AndOf(es), AndForm(f))
  {
  }

  lemma RevTruth(e: Elem, f: Form, v: nat -> bool)
    ensures Truth(Rev(e), v) <==> !Truth(e, v)
    ensures Has(Rev(e), RevForm(f)) <==> Has(e, f)
  {
  }

  lemma DnfElemTrue(cs: Lists, v: nat -> bool)
    ensures Has(DnfElem(cs), DnfForm) && (Truth(DnfElem(cs), v) <==> DnfTrue(cs, v))
  {
    hide CubeTrue, CubeElem;
    var es := RevEach(CubeElems(cs));
    forall i | 0 <= i < |cs| ensures Has(es[i], RevForm(CubeForm)) && (Truth(es[i], v) <==> !CubeTrue(cs[i], v)) {
      CubeElemTrue(cs[i], v);
      RevTruth(CubeElem(cs[i]), CubeForm, v);
    }
    AndTruth(es, v);
    AndHas(es, RevForm(CubeForm));
    RevTruth(AndOf(es), AndForm(RevForm(CubeForm)), v);
    if DnfTrue(cs, v) {
      var c :| c in cs && CubeTrue(c, v);
      var i :| 0 <= i < |cs| && cs[i] == c;
      assert !Truth(es[i], v);
    }
    if i :| 0 <= i < |es| && !Truth(es[i], v) { assert cs[i] in cs && CubeTrue(cs[i], v); }
  }

  /** The form of a base has its meaning. */
  lemma ToElemTrue(k: Kind, b: Base, v: nat -> bool)
    requires BaseFits(k, b)
    ensures Has(ToElem(k, b), FormOf(k)) && (Truth(ToElem(k, b), v) <==> BaseTrue(k, b, v))
  {
    hide CnfElem, DnfElem, ClauseElem, CnfTrue, DnfTrue, ClauseTrue;
    match k
    case Cnf => CnfElemTrue(b.lists, v);
    case Dnf => DnfElemTrue(b.lists, v);
    case PDnf => ClauseElemTrue(b.split.units, v); DnfElemTrue(b.split.nonUnits, v);
  }

  // From forms to lists.

  function LiteralsOf(es: seq<Elem>): (r: seq<Literal>)
    requires AllHave(es, LitForm)
    ensures |r| == |es| && LitElems(r) == es
  {
    assert forall i | 0 <= i < |es| :: es[i] in es;
    seq(|es|, i requires 0 <= i < |es| && es[i].ELit? => Literal(es[i].atom, es[i].positive))
  }

  function Inners(es: seq<Elem>, f: Form): (r: seq<Elem>)
    requires AllHave(es, RevForm(f))
    ensures |r| == |es| && RevEach(r) == es && AllHave(r, f)
  {
    assert forall i | 0 <= i < |es| :: es[i] in es;
    seq(|es|, i requires 0 <= i < |es| && es[i].Rev? => es[i].inner)
  }

  lemma RevAndShape(e: Elem, f: Form)
    requires Has(e, RevForm(AndForm(f)))
    ensures e.Rev? && e.inner.AndOf? && AllHave(e.inner.elems, f)
  {
    assert Has(e.inner, AndForm(f));
  }

  function CubeOf(e: Elem): (r: seq<Literal>)
    requires Has(e, CubeForm)
    ensures CubeElem(r) == e
  {
    LiteralsOf(e.elems)
  }

  function ClauseOf(e: Elem): (r: seq<Literal>)
    requires Has(e, ClauseForm)
    ensures ClauseElem(r) == e
  {
    RevAndShape(e, RevForm(LitForm));
    LiteralsOf(Inners(e.inner.elems, LitForm))
  }

  function ListsOf(es: seq<Elem>, clauses: bool): (r: Lists)
    requires AllHave(es, if clauses then ClauseForm else CubeForm)
    ensures |r| == |es| && (if clauses then ClauseElems(r) else CubeElems(r)) == es
  {
    assert forall i | 0 <= i < |es| :: es[i] in es;
    seq(|es|, i requires 0 <= i < |es| && Has(es[i], if clauses then ClauseForm else CubeForm) => if clauses then ClauseOf(es[i]) else CubeOf(es[i]))
  }

  function CnfOf(e: Elem): (r: Lists)
    requires Has(e, CnfForm)
    ensures CnfElem(r) == e
  {
    ListsOf(e.elems, true)
  }

  function DnfOf(e: Elem): (r: Lists)
    requires Has(e, DnfForm)
    ensures DnfElem(r) == e
  {
    RevAndShape(e, RevForm(CubeForm));
    ListsOf(Inners(e.inner.elems, CubeForm), false)
  }

  /** The base a form was made from. */
  function ToBase(k: Kind, e: Elem): (b: Base)
    requires Has(e, FormOf(k))
    ensures BaseFits(k, b) && ToElem(k, b) == e
  {
    match k
    case Cnf => Lists(CnfOf(e))
    case Dnf => Lists(DnfOf(e))
    case PDnf => Split(PDnfBase(ClauseOf(e.first), DnfOf(e.second)))
  }

  // Atoms.

  lemma RevAtoms(es: seq<Elem>, s: set<nat>)
    ensures AtomsOfAll(RevEach(es)) <= s <==> AtomsOfAll(es) <= s
  {
    AtomsEach(es, s);
    AtomsEach(RevEach(es), s);
    assert forall i | 0 <= i < |es| :: AtomsOf(RevEach(es)[i]) == AtomsOf(es[i]);
  }

  lemma AtomsEach(es: seq<Elem>, s: set<nat>)
    ensures AtomsOfAll(es) <= s <==> forall i | 0 <= i < |es| :: AtomsOf(es[i]) <= s
  {
    assert forall i | 0 <= i < |es| :: es[i] in es;
    if forall i | 0 <= i < |es| :: AtomsOf(es[i]) <= s { AtomsWithin(es, s); }
  }

  lemma LitAtoms(c: seq<Literal>, s: set<nat>)
    ensures AtomsOfAll(LitElems(c)) <= s <==> forall l | l in c :: l.atom in s
  {
    AtomsEach(LitElems(c), s);
    assert forall i | 0 <= i < |c| :: c[i] in c && AtomsOf(LitElems(c)[i]) == {c[i].atom};
  }

  lemma ListAtoms(cs: Lists, s: set<nat>)
    ensures AtomsOfAll(CubeElems(cs)) <= s <==> forall l | Occurs(l, cs) :: l.atom in s
    ensures AtomsOfAll(ClauseElems(cs)) <= s <==> forall l | Occurs(l, cs) :: l.atom in s
  {
    AtomsEach(CubeElems(cs), s);
    AtomsEach(ClauseElems(cs), s);
    forall i | 0 <= i < |cs|
      ensures AtomsOf(CubeElems(cs)[i]) <= s <==> forall l | l in cs[i] :: l.atom in s
      ensures AtomsOf(ClauseElems(cs)[i]) <= s <==> forall l | l in cs[i] :: l.atom in s
    {
      LitAtoms(cs[i], s);
      RevAtoms(LitElems(cs[i]), s);
    }
    if forall i | 0 <= i < |cs| :: forall l | l in cs[i] :: l.atom in s {
      forall l | Occurs(l, cs) ensures l.atom in s {
        var c :| c in cs && l in c;
        var i :| 0 <= i < |cs| && cs[i] == c;
      }
    }
    if forall l | Occurs(l, cs) :: l.atom in s {
      forall i, l | 0 <= i < |cs| && l in cs[i] ensures l.atom in s { assert cs[i] in cs && Occurs(l, cs); }
    }
  }

  lemma AtomsShape(c: seq<Literal>, cs: Lists)
    ensures AtomsOf(ClauseElem(c)) == AtomsOfAll(RevEach(LitElems(c)))
    ensures AtomsOf(CnfElem(cs)) == AtomsOfAll(ClauseElems(cs))
    ensures AtomsOf(DnfElem(cs)) == AtomsOfAll(RevEach(CubeElems(cs)))
  {
    assert AtomsOf(AndOf(RevEach(LitElems(c)))) == AtomsOfAll(RevEach(LitElems(c)));
    assert AtomsOf(AndOf(RevEach(CubeElems(cs)))) == AtomsOfAll(RevEach(CubeElems(cs)));
  }

  /** The atoms of a form are those of the literals of its base. */
  lemma BaseAtoms(k: Kind, b: Base, s: set<nat>)
    requires BaseFits(k, b)
    ensures AtomsOf(ToElem(k, b)) <= s <==> forall l | InBase(l, b) :: l.atom in s
  {
    hide Occurs;
    match k
    case Cnf => AtomsShape([], b.lists); ListAtoms(b.lists, s);
    case Dnf => AtomsShape([], b.lists); ListAtoms(b.lists, s); RevAtoms(CubeElems(b.lists), s);
    case PDnf =>
      AtomsShape(b.split.units, b.split.nonUnits);
      LitAtoms(b.split.units, s);
      RevAtoms(LitElems(b.split.units), s);
      ListAtoms(b.split.nonUnits, s);
      RevAtoms(CubeElems(b.split.nonUnits), s);
  }

  // What the literals that are false in a model falsify.

  /** The body made of the literals of a clause. */
  function BaseFromClause(k: Kind, lits: seq<Literal>): (b: Base)
    ensures BaseFits(k, b)
  {
    match k
    case Cnf => Lists([lits])
    case Dnf => Lists(UnitClauses(lits))
    case PDnf => Split(PDnfBase(lits, UnitClauses(lits)))
  }

  /** The literals of the allowed atoms that are false. */
  function NegCube(allowed: seq<nat>, v: nat -> bool): (r: seq<Literal>)
    ensures |r| == |allowed| && forall i | 0 <= i < |r| :: r[i] == Literal(allowed[i], !v(allowed[i]))
  {
    seq(|allowed|, i requires 0 <= i < |allowed| => Literal(allowed[i], !v(allowed[i])))
  }

  /** The literals of the allowed atoms that are true. */
  function TrueCube(allowed: seq<nat>, v: nat -> bool): (r: seq<Literal>)
    ensures |r| == |allowed| && forall i | 0 <= i < |r| :: r[i] == Literal(allowed[i], v(allowed[i]))
  {
    seq(|allowed|, i requires 0 <= i < |allowed| => Literal(allowed[i], v(allowed[i])))
  }

  lemma FalseLiteral(allowed: seq<nat>, v: nat -> bool, l: Literal)
    requires l.atom in allowed
    ensures l in NegCube(allowed, v) <==> !LitTrue(l, v)
  {
    var i :| 0 <= i < |allowed| && allowed[i] == l.atom;
    assert NegCube(allowed, v)[i] == Literal(l.atom, !v(l.atom));
  }

  lemma CoversLit(a: Literal, b: Literal)
    ensures Covers(Rev(ELit(a.atom, a.positive)), Rev(ELit(b.atom, b.positive))) <==> a == b
    ensures Covers(ELit(a.atom, a.positive), ELit(b.atom, b.positive)) <==> a == b
  {
  }

  /** A clause covers another when all its literals are in the other. */
  lemma CoversClause(c: seq<Literal>, d: seq<Literal>)
    ensures Covers(ClauseElem(c), ClauseElem(d)) <==> forall l | l in c :: l in d
  {
    var xs, ys := RevEach(LitElems(d)), RevEach(LitElems(c));
    RevCovers(AndOf(ys), AndOf(xs));
    CoversAnd(xs, ys);
    hide Covers;
    forall j | 0 <= j < |c| ensures CoversSome(xs, ys[j]) <==> c[j] in d {
      forall i | 0 <= i < |d| ensures Covers(xs[i], ys[j]) <==> d[i] == c[j] { CoversLit(d[i], c[j]); }
    }
    CoversAllEach(xs, ys);
    assert forall j | 0 <= j < |c| :: c[j] in c;
  }

  lemma CoversAllEach(xs: seq<Elem>, ys: seq<Elem>)
    ensures CoversAll(xs, ys) <==> forall j | 0 <= j < |ys| :: CoversSome(xs, ys[j])
  {
  }

  lemma RevCovers(x: Elem, y: Elem)
    ensures Covers(Rev(x), Rev(y)) <==> Covers(y, x)
  {
  }

  /** A cube covers a single literal when it has it. */
  lemma CoversUnit(c: seq<Literal>, l: Literal)
    ensures Covers(CubeElem(c), CubeElem([l])) <==> l in c
  {
    var xs, ys := LitElems(c), LitElems([l]);
    CoversAnd(xs, ys);
    CoversAllEach(xs, ys);
    hide Covers;
    forall i | 0 <= i < |c| ensures Covers(xs[i], ys[0]) <==> c[i] == l { CoversLit(c[i], l); }
    assert |ys| == 1;
    if l in c {
      var i :| 0 <= i < |c| && c[i] == l;
      assert Covers(xs[i], ys[0]);
    }
    assert CoversSome(xs, ys[0]) <==> l in c;
  }

  /** A disjunction of cubes covers a disjunction of literals when each cube has one. */
  lemma CoversUnits(cs: Lists, lits: seq<Literal>)
    ensures Covers(DnfElem(cs), DnfElem(UnitClauses(lits))) <==> forall c | c in cs :: exists l :: l in lits && l in c
  {
    var xs, ys := RevEach(CubeElems(UnitClauses(lits))), RevEach(CubeElems(cs));
    RevCovers(AndOf(ys), AndOf(xs));
    CoversAnd(xs, ys);
    CoversAllEach(xs, ys);
    hide Covers;
    forall j | 0 <= j < |cs| ensures CoversSome(xs, ys[j]) <==> exists l :: l in lits && l in cs[j] {
      forall i | 0 <= i < |lits| ensures Covers(xs[i], ys[j]) <==> lits[i] in cs[j] {
        RevCovers(CubeElem([lits[i]]), CubeElem(cs[j]));
        CoversUnit(cs[j], lits[i]);
      }
      if i :| 0 <= i < |lits| && Covers(xs[i], ys[j]) { assert lits[i] in lits; }
    }
    assert forall j | 0 <= j < |cs| :: cs[j] in cs;
  }

  lemma ClauseFalse(allowed: seq<nat>, v: nat -> bool, c: seq<Literal>)
    requires forall l | l in c :: l.atom in allowed
    ensures (forall l | l in c :: l in NegCube(allowed, v)) <==> !ClauseTrue(c, v)
  {
    forall l | l in c ensures l in NegCube(allowed, v) <==> !LitTrue(l, v) { FalseLiteral(allowed, v, l); }
  }

  lemma DnfFalse(allowed: seq<nat>, v: nat -> bool, cs: Lists)
    requires forall l | Occurs(l, cs) :: l.atom in allowed
    ensures (forall c | c in cs :: exists l :: l in NegCube(allowed, v) && l in c) <==> !DnfTrue(cs, v)
  {
    forall c | c in cs ensures (exists l :: l in NegCube(allowed, v) && l in c) <==> !CubeTrue(c, v) {
      forall l | l in c ensures l in NegCube(allowed, v) <==> !LitTrue(l, v) {
        assert Occurs(l, cs);
        FalseLiteral(allowed, v, l);
      }
    }
  }

  lemma CoversOneClause(cs: Lists, d: seq<Literal>)
    ensures Covers(CnfElem(cs), CnfElem([d])) <==> exists c :: c in cs && forall l | l in c :: l in d
  {
    var xs, ys := ClauseElems(cs), ClauseElems([d]);
    CoversAnd(xs, ys);
    CoversAllEach(xs, ys);
    hide Covers, ClauseElem;
    forall i | 0 <= i < |cs| ensures Covers(xs[i], ys[0]) <==> forall l | l in cs[i] :: l in d { CoversClause(cs[i], d); }
    assert |ys| == 1;
    if i :| 0 <= i < |cs| && Covers(xs[i], ys[0]) { assert cs[i] in cs; }
    if c :| c in cs && forall l | l in c :: l in d {
      var i :| 0 <= i < |cs| && cs[i] == c;
      assert Covers(xs[i], ys[0]);
    }
  }

  /** A body subsumes the false literals exactly when it is false. */
  lemma NegCubeExact(k: Kind, e: Elem, allowed: seq<nat>, v: nat -> bool)
    requires Has(e, FormOf(k)) && forall x | x in AtomsOf(e) :: x in allowed
    ensures Covers(e, ToElem(k, BaseFromClause(k, NegCube(allowed, v)))) <==> !Truth(e, v)
  {
    hide Covers, Truth, ClauseElem, DnfElem, CnfElem, ClauseTrue, DnfTrue, ClauseOf, DnfOf, CnfOf, Occurs, AtomsOf;
    var b, lits := ToBase(k, e), NegCube(allowed, v);
    ToElemTrue(k, b, v);
    BaseAtoms(k, b, AtomsOf(e));
    match k
    case Cnf =>
      CoversOneClause(b.lists, lits);
      CnfFalse(allowed, v, b.lists);
    case Dnf =>
      CoversUnits(b.lists, lits);
      DnfFalse(allowed, v, b.lists);
    case PDnf =>
      PairCovers(ClauseElem(b.split.units), DnfElem(b.split.nonUnits), ClauseElem(lits), DnfElem(UnitClauses(lits)));
      CoversClause(b.split.units, lits);
      ClauseFalse(allowed, v, b.split.units);
      CoversUnits(b.split.nonUnits, lits);
      DnfFalse(allowed, v, b.split.nonUnits);
  }

  lemma PairCovers(x1: Elem, x2: Elem, y1: Elem, y2: Elem)
    ensures Covers(PairOf(x1, x2), PairOf(y1, y2)) <==> Covers(x1, y1) && Covers(x2, y2)
  {
  }

  lemma CnfFalse(allowed: seq<nat>, v: nat -> bool, cs: Lists)
    requires forall l | Occurs(l, cs) :: l.atom in allowed
    ensures (exists c :: c in cs && forall l | l in c :: l in NegCube(allowed, v)) <==> !CnfTrue(cs, v)
  {
    hide ClauseTrue;
    forall c | c in cs ensures (forall l | l in c :: l in NegCube(allowed, v)) <==> !ClauseTrue(c, v) {
      forall l | l in c ensures Occurs(l, cs) {}
      ClauseFalse(allowed, v, c);
    }
  }
}
