/** The quantifier-free bodies of lemmas, and how each kind is weakened to agree with a cube of
    literals that are true in a model. */
module LemmaBodies {
  import opened Collections

  datatype Literal = Literal(atom: nat, positive: bool)

  /** Clauses of a conjunctive body, or cubes of a disjunctive one. */
  type Lists = seq<seq<Literal>>

  /** A disjunction of literals together with cubes. */
  datatype PDnfBase = PDnfBase(units: seq<Literal>, nonUnits: Lists)

  function Negated(l: Literal): Literal {
    Literal(l.atom, !l.positive)
  }

  predicate LitTrue(l: Literal, v: nat -> bool) {
    v(l.atom) == l.positive
  }

  predicate ClauseTrue(c: seq<Literal>, v: nat -> bool) {
    exists l | l in c :: LitTrue(l, v)
  }

  predicate CubeTrue(c: seq<Literal>, v: nat -> bool) {
    forall l | l in c :: LitTrue(l, v)
  }

  predicate CnfTrue(base: Lists, v: nat -> bool) {
    forall c | c in base :: ClauseTrue(c, v)
  }

  predicate DnfTrue(base: Lists, v: nat -> bool) {
    exists c | c in base :: CubeTrue(c, v)
  }

  predicate PDnfTrue(base: PDnfBase, v: nat -> bool) {
    ClauseTrue(base.units, v) || DnfTrue(base.nonUnits, v)
  }

  /** The literal stands in some list. */
  ghost predicate Occurs(l: Literal, lists: Lists) {
    exists c :: c in lists && l in c
  }

  // Conjunctive bodies.

  /** A clause without a literal of the cube gets one, if there is room; never one that makes it
      trivial, and no inequality. */
  function WeakenClause(clause: seq<Literal>, cube: seq<Literal>, clauseSize: nat, isEq: nat -> bool): Lists {
    if exists l :: l in cube && l in clause then [clause]
    else if |clause| >= clauseSize then []
    else AddEach(clause, Filter((l: Literal) => Negated(l) !in clause && (!isEq(l.atom) || l.positive), cube))
  }

  function AddEach(clause: seq<Literal>, lits: seq<Literal>): (r: Lists)
    ensures |r| == |lits| && forall i | 0 <= i < |lits| :: r[i] == clause + [lits[i]]
  {
    seq(|lits|, i requires 0 <= i < |lits| => clause + [lits[i]])
  }

  function WeakenClauses(base: Lists, cube: seq<Literal>, clauseSize: nat, isEq: nat -> bool): (r: seq<Lists>)
    ensures |r| == |base| && forall i | 0 <= i < |base| :: r[i] == WeakenClause(base[i], cube, clauseSize, isEq)
  {
    seq(|base|, i requires 0 <= i < |base| => WeakenClause(base[i], cube, clauseSize, isEq))
  }

  function UnitClauses(lits: seq<Literal>): (r: Lists)
    ensures |r| == |lits| && forall i | 0 <= i < |lits| :: r[i] == [lits[i]]
  {
    seq(|lits|, i requires 0 <= i < |lits| => [lits[i]])
  }

  function UnitsOf(combinations: seq<seq<Literal>>): (r: seq<Lists>)
    ensures |r| == |combinations| && forall i | 0 <= i < |r| :: r[i] == UnitClauses(combinations[i])
  {
    seq(|combinations|, i requires 0 <= i < |combinations| => UnitClauses(combinations[i]))
  }

  /** The weakenings of a conjunctive body.  The body that is the empty clause is special. */
  function WeakenCnf(base: Lists, cube: seq<Literal>, clauses: nat, clauseSize: nat, isEq: nat -> bool, ignore: Lists -> bool): seq<Lists> {
    if base == [[]] then UnitsOf(Combinations(cube, if clauses <= |cube| then clauses else |cube|))
    else Filter((b: Lists) => !ignore(b), Choices(WeakenClauses(base, cube, clauseSize, isEq)))
  }

  // Which bodies these are.

  /** A clause that has a literal of the cube stays; another one gets a literal of the cube, if there
      is room, that does not make it trivial and is no inequality. */
  ghost predicate ClauseWeakening(clause: seq<Literal>, cube: seq<Literal>, clauseSize: nat, isEq: nat -> bool, r: seq<Literal>) {
    if Meets(clause, cube) then r == clause
    else |clause| < clauseSize && exists l :: Addable(clause, cube, isEq, l) && r == clause + [l]
  }

  predicate Meets(clause: seq<Literal>, cube: seq<Literal>) {
    exists l :: l in cube && l in clause
  }

  predicate Addable(clause: seq<Literal>, cube: seq<Literal>, isEq: nat -> bool, l: Literal) {
    l in cube && Negated(l) !in clause && (!isEq(l.atom) || l.positive)
  }

  /** The empty clause becomes as many units of the cube as clauses are allowed; another body has
      every clause weakened, in every way, less the ignored results. */
  ghost predicate CnfWeakening(base: Lists, cube: seq<Literal>, clauses: nat, clauseSize: nat, isEq: nat -> bool, ignore: Lists -> bool, r: Lists) {
    if base == [[]] then exists lits :: UnitsPicked(cube, clauses, lits) && r == UnitClauses(lits)
    else !ignore(r) && |r| == |base| && forall i | 0 <= i < |base| :: ClauseWeakening(base[i], cube, clauseSize, isEq, r[i])
  }

  ghost predicate UnitsPicked(cube: seq<Literal>, clauses: nat, lits: seq<Literal>) {
    |lits| == (if clauses <= |cube| then clauses else |cube|) && Picked(lits, cube)
  }

  lemma WeakenClauseExact(clause: seq<Literal>, cube: seq<Literal>, clauseSize: nat, isEq: nat -> bool, r: seq<Literal>)
    ensures r in WeakenClause(clause, cube, clauseSize, isEq) <==> ClauseWeakening(clause, cube, clauseSize, isEq, r)
  {
    if !Meets(clause, cube) && |clause| < clauseSize {
      var lits := Filter((l: Literal) => Negated(l) !in clause && (!isEq(l.atom) || l.positive), cube);
      if r in AddEach(clause, lits) {
        var i :| 0 <= i < |lits| && AddEach(clause, lits)[i] == r;
        assert lits[i] in lits && Addable(clause, cube, isEq, lits[i]);
      }
      if l :| Addable(clause, cube, isEq, l) && r == clause + [l] {
        assert l in lits;
        var i :| 0 <= i < |lits| && lits[i] == l;
        assert AddEach(clause, lits)[i] == r;
      }
    }
  }

  lemma UnitsOfMembers(combinations: seq<seq<Literal>>, r: Lists)
    ensures r in UnitsOf(combinations) <==> exists lits :: lits in combinations && r == UnitClauses(lits)
  {
    if r in UnitsOf(combinations) {
      var i :| 0 <= i < |combinations| && UnitsOf(combinations)[i] == r;
      assert combinations[i] in combinations;
    }
    if lits :| lits in combinations && r == UnitClauses(lits) {
      var i :| 0 <= i < |combinations| && combinations[i] == lits;
      assert UnitsOf(combinations)[i] == r;
    }
  }

  /** The weakenings of a conjunctive body are exactly these. */
  lemma WeakenCnfExact(base: Lists, cube: seq<Literal>, clauses: nat, clauseSize: nat, isEq: nat -> bool, ignore: Lists -> bool, r: Lists)
    ensures r in WeakenCnf(base, cube, clauses, clauseSize, isEq, ignore) <==> CnfWeakening(base, cube, clauses, clauseSize, isEq, ignore, r)
  {
    hide WeakenClause, ClauseWeakening, Picked;
    if base == [[]] {
      var k := if clauses <= |cube| then clauses else |cube|;
      UnitsOfMembers(Combinations(cube, k), r);
      forall lits: seq<Literal> ensures lits in Combinations(cube, k) <==> UnitsPicked(cube, clauses, lits) { CombinationsExact(cube, k, lits); }
    } else {
      ChoicesMembers(WeakenClauses(base, cube, clauseSize, isEq), r);
      forall i | 0 <= i < |base| && i < |r|
        ensures r[i] in WeakenClauses(base, cube, clauseSize, isEq)[i] <==> ClauseWeakening(base[i], cube, clauseSize, isEq, r[i])
      {
        WeakenClauseExact(base[i], cube, clauseSize, isEq, r[i]);
      }
    }
  }

  lemma WeakenedClause(clause: seq<Literal>, cube: seq<Literal>, clauseSize: nat, isEq: nat -> bool, r: seq<Literal>)
    requires r in WeakenClause(clause, cube, clauseSize, isEq)
    ensures (forall l | l in clause :: l in r) && exists l :: l in r && l in cube
    ensures forall l | l in r :: l in clause || l in cube
  {
    if exists l :: l in cube && l in clause {
    } else {
      var lits := Filter((l: Literal) => Negated(l) !in clause && (!isEq(l.atom) || l.positive), cube);
      var i :| 0 <= i < |lits| && AddEach(clause, lits)[i] == r;
      assert lits[i] in lits && lits[i] in r;
    }
  }

  /** A weakened conjunctive body agrees with the cube and follows from the old body. */
  lemma WeakenCnfSound(base: Lists, cube: seq<Literal>, clauses: nat, clauseSize: nat, isEq: nat -> bool, ignore: Lists -> bool,
                       r: Lists, v: nat -> bool)
    requires r in WeakenCnf(base, cube, clauses, clauseSize, isEq, ignore)
    ensures CubeTrue(cube, v) ==> CnfTrue(r, v)
    ensures CnfTrue(base, v) ==> CnfTrue(r, v)
    ensures forall l | Occurs(l, r) :: l in cube || Occurs(l, base)
  {
    if base == [[]] {
      var k := if clauses <= |cube| then clauses else |cube|;
      var all := Combinations(cube, k);
      var i :| 0 <= i < |all| && UnitsOf(all)[i] == r;
      assert all[i] in all;
      CombinationsFrom(cube, k, all[i]);
      assert !ClauseTrue([], v) && [] in base;
      forall c | c in r ensures (CubeTrue(cube, v) ==> ClauseTrue(c, v)) && forall l | l in c :: l in cube {
        var j :| 0 <= j < |all[i]| && r[j] == c;
        assert all[i][j] in all[i] && all[i][j] in c;
      }
    } else {
      var lists := WeakenClauses(base, cube, clauseSize, isEq);
      ChoicesMembers(lists, r);
      forall c | c in r
        ensures CubeTrue(cube, v) || CnfTrue(base, v) ==> ClauseTrue(c, v)
        ensures forall l | l in c :: l in cube || Occurs(l, base)
      {
        var j :| 0 <= j < |r| && r[j] == c;
        WeakenedClause(base[j], cube, clauseSize, isEq, c);
        assert base[j] in base;
      }
    }
  }

  predicate Within(c: seq<Literal>, d: seq<Literal>) {
    forall l | l in c :: l in d
  }

  /** Somewhere between a clause and a larger one lies a weakening. */
  predicate Reachable(clause: seq<Literal>, cube: seq<Literal>, clauseSize: nat, isEq: nat -> bool, larger: seq<Literal>) {
    Within(clause, larger)
    && (Meets(clause, cube) || (|clause| < clauseSize && exists l :: Addable(clause, cube, isEq, l) && l in larger))
  }

  lemma ClauseLeast(clause: seq<Literal>, cube: seq<Literal>, clauseSize: nat, isEq: nat -> bool, larger: seq<Literal>)
    ensures Reachable(clause, cube, clauseSize, isEq, larger)
      <==> exists r :: ClauseWeakening(clause, cube, clauseSize, isEq, r) && Within(r, larger)
  {
    if Reachable(clause, cube, clauseSize, isEq, larger) {
      if Meets(clause, cube) {
        assert ClauseWeakening(clause, cube, clauseSize, isEq, clause);
      } else {
        var l :| Addable(clause, cube, isEq, l) && l in larger;
        assert ClauseWeakening(clause, cube, clauseSize, isEq, clause + [l]);
      }
    }
    if r :| ClauseWeakening(clause, cube, clauseSize, isEq, r) && Within(r, larger) {
      assert forall l | l in clause :: l in r;
      if !Meets(clause, cube) {
        var l :| Addable(clause, cube, isEq, l) && r == clause + [l];
        assert l in r;
      }
    }
  }

  /** Every clause of the weaker body contains one of the stronger body. */
  predicate Refines(stronger: Lists, weaker: Lists) {
    forall d | d in weaker :: exists c :: c in stronger && Within(c, d)
  }

  lemma RefinesTrue(stronger: Lists, weaker: Lists, v: nat -> bool)
    requires Refines(stronger, weaker) && CnfTrue(stronger, v)
    ensures CnfTrue(weaker, v)
  {
    forall d | d in weaker ensures ClauseTrue(d, v) {
      var c :| c in stronger && Within(c, d);
    }
  }

  /** The clauses of the weaker body agree with the cube, and there are not too many; or each of them can be
      reached from the clause in its place. */
  ghost predicate Attainable(base: Lists, cube: seq<Literal>, clauses: nat, clauseSize: nat, isEq: nat -> bool, weaker: Lists) {
    if base == [[]] then |weaker| <= clauses && forall d | d in weaker :: Meets(d, cube)
    else |weaker| == |base| && forall i | 0 <= i < |base| :: Reachable(base[i], cube, clauseSize, isEq, weaker[i])
  }

  /** No weaker conjunctive body of this kind is missed: it follows from one of the results, or from one that is
      ignored. */
  lemma WeakenCnfLeast(base: Lists, cube: seq<Literal>, clauses: nat, clauseSize: nat, isEq: nat -> bool, ignore: Lists -> bool, weaker: Lists)
    returns (r: Lists)
    requires Attainable(base, cube, clauses, clauseSize, isEq, weaker)
    ensures r in WeakenCnf(base, cube, clauses, clauseSize, isEq, ignore) || (base != [[]] && ignore(r))
    ensures Refines(r, weaker)
  {
    hide Reachable, ClauseWeakening, Within, Meets, WeakenCnf;
    if base == [[]] {
      r := UnitsLeast(cube, clauses, weaker);
    } else {
      r := [];
      for i := 0 to |base|
        invariant |r| == i
        invariant forall j | 0 <= j < i :: ClauseWeakening(base[j], cube, clauseSize, isEq, r[j]) && Within(r[j], weaker[j])
      {
        ClauseLeast(base[i], cube, clauseSize, isEq, weaker[i]);
        var next :| ClauseWeakening(base[i], cube, clauseSize, isEq, next) && Within(next, weaker[i]);
        r := r + [next];
      }
      forall d | d in weaker ensures exists c :: c in r && Within(c, d) {
        var i :| 0 <= i < |weaker| && weaker[i] == d;
        assert r[i] in r;
      }
    }
    WeakenCnfExact(base, cube, clauses, clauseSize, isEq, ignore, r);
  }

  /** Choose a literal for every clause, and others until there are enough. */
  lemma UnitsLeast(cube: seq<Literal>, clauses: nat, weaker: Lists) returns (r: Lists)
    requires |weaker| <= clauses && forall d | d in weaker :: Meets(d, cube)
    ensures exists lits :: UnitsPicked(cube, clauses, lits) && r == UnitClauses(lits)
    ensures Refines(r, weaker)
  {
    hide Picked;
    var chosen: set<nat> := {};
    for i := 0 to |weaker|
      invariant |chosen| <= i && forall p | p in chosen :: p < |cube|
      invariant forall j | 0 <= j < i :: exists p :: p in chosen && p < |cube| && cube[p] in weaker[j]
    {
      assert weaker[i] in weaker;
      var l :| l in cube && l in weaker[i];
      var p :| 0 <= p < |cube| && cube[p] == l;
      chosen := chosen + {p};
      assert p in chosen && cube[p] in weaker[i];
    }
    var k := if clauses <= |cube| then clauses else |cube|;
    BelowCount(chosen, |cube|);
    var at := WithPositions(chosen, |cube|, k);
    var lits := seq<Literal>(k, i requires 0 <= i < k => cube[at[i]]);
    PickedHere(lits, cube, at);
    r := UnitClauses(lits);
    forall d | d in weaker ensures exists c :: c in r && Within(c, d) {
      var j :| 0 <= j < |weaker| && weaker[j] == d;
      var p :| p in chosen && p < |cube| && cube[p] in weaker[j];
      var i :| 0 <= i < |at| && at[i] == p;
      assert r[i] == [cube[p]] && r[i] in r;
    }
    assert UnitsPicked(cube, clauses, lits);
  }

  lemma PickedHere(c: seq<Literal>, xs: seq<Literal>, at: seq<nat>)
    requires PickedAt(c, xs, at)
    ensures Picked(c, xs)
  {
  }

  /** With several clauses a body with fewer of them can be lost: from the empty clause the first cube leaves one
      body only, the second cube leaves nothing of it, and the first literal alone agrees with both. */
  lemma WeakenCnfLoses(isEq: nat -> bool, ignore: Lists -> bool)
    ensures var a, b := Literal(0, true), Literal(1, true); var first, second := [a, Negated(b)], [a, b];
            && CnfWithin([[a]], 2, 1) && Meets([a], first) && Meets([a], second)
            && (forall r :: r in WeakenCnf([[]], first, 2, 1, isEq, ignore) <==> r == [[a], [Negated(b)]])
            && forall r :: r !in WeakenCnf([[a], [Negated(b)]], second, 2, 1, isEq, ignore)
  {
    var a, b := Literal(0, true), Literal(1, true);
    OnlyUnits([a, Negated(b)], isEq, ignore);
    NothingLeft([a], b, [a, b], isEq, ignore);
    hide WeakenCnf;
    assert a in [a, Negated(b)] && a in [a, b] && a in [a];
    assert UnitClauses([a, Negated(b)]) == [[a], [Negated(b)]];
  }

  lemma OnlyUnits(cube: seq<Literal>, isEq: nat -> bool, ignore: Lists -> bool)
    ensures forall r :: r in WeakenCnf([[]], cube, |cube|, 1, isEq, ignore) <==> r == UnitClauses(cube)
  {
    hide WeakenCnf, Picked;
    forall r ensures r in WeakenCnf([[]], cube, |cube|, 1, isEq, ignore) <==> r == UnitClauses(cube) {
      WeakenCnfExact([[]], cube, |cube|, 1, isEq, ignore, r);
      forall lits ensures UnitsPicked(cube, |cube|, lits) <==> lits == cube { AllPicked(lits, cube); }
    }
  }

  /** A full clause that the cube contradicts leaves no weakening. */
  lemma NothingLeft(other: seq<Literal>, b: Literal, cube: seq<Literal>, isEq: nat -> bool, ignore: Lists -> bool)
    requires Negated(b) !in cube
    ensures forall r :: r !in WeakenCnf([other, [Negated(b)]], cube, 2, 1, isEq, ignore)
  {
    var left := [other, [Negated(b)]];
    hide WeakenCnf;
    forall r ensures r !in WeakenCnf(left, cube, 2, 1, isEq, ignore) {
      WeakenCnfExact(left, cube, 2, 1, isEq, ignore, r);
      assert left[1] == [Negated(b)] && !Meets(left[1], cube);
    }
  }

  predicate CnfWithin(base: Lists, clauses: nat, clauseSize: nat) {
    |base| <= clauses && forall c | c in base :: |c| <= clauseSize
  }

  lemma WeakenedClauseSize(clause: seq<Literal>, cube: seq<Literal>, clauseSize: nat, isEq: nat -> bool, r: seq<Literal>)
    requires r in WeakenClause(clause, cube, clauseSize, isEq) && |clause| <= clauseSize
    ensures |r| <= clauseSize
  {
  }

  /** Weakening stays within the limits of the language. */
  lemma WeakenCnfWithin(base: Lists, cube: seq<Literal>, clauses: nat, clauseSize: nat, isEq: nat -> bool, ignore: Lists -> bool, r: Lists)
    requires CnfWithin(base, clauses, clauseSize) && clauseSize > 0 && r in WeakenCnf(base, cube, clauses, clauseSize, isEq, ignore)
    ensures CnfWithin(r, clauses, clauseSize)
  {
    hide WeakenClause;
    if base == [[]] {
      var k := if clauses <= |cube| then clauses else |cube|;
      var all := Combinations(cube, k);
      var i :| 0 <= i < |all| && UnitsOf(all)[i] == r;
      assert all[i] in all;
      CombinationsFrom(cube, k, all[i]);
    } else {
      var lists := WeakenClauses(base, cube, clauseSize, isEq);
      ChoicesMembers(lists, r);
      forall c | c in r ensures |c| <= clauseSize {
        var i :| 0 <= i < |r| && r[i] == c;
        assert base[i] in base;
        WeakenedClauseSize(base[i], cube, clauseSize, isEq, c);
      }
    }
  }

  // Disjunctive bodies with separate units.

  /** The cubes without a literal that becomes a unit: those with the literal go, and its
      negation is dropped from the others. */
  function Absorb(cubes: Lists, l: Literal): (r: Lists)
    ensures forall c :: c in r <==> exists d :: d in cubes && l !in d && c == Filter((x: Literal) => x != Negated(l), d)
  {
    if cubes == [] then []
    else
      assert cubes == [cubes[0]] + cubes[1..];
      (if l in cubes[0] then [] else [Filter((x: Literal) => x != Negated(l), cubes[0])]) + Absorb(cubes[1..], l)
  }

  /** Absorbing a literal that stands beside the cubes does not change their meaning. */
  lemma AbsorbTrue(cubes: Lists, l: Literal, v: nat -> bool)
    ensures DnfTrue(Absorb(cubes, l), v) || LitTrue(l, v) <==> DnfTrue(cubes, v) || LitTrue(l, v)
  {
    if !LitTrue(l, v) {
      forall d | d in cubes && l !in d
        ensures CubeTrue(Filter((x: Literal) => x != Negated(l), d), v) <==> CubeTrue(d, v)
      {
        assert LitTrue(Negated(l), v);
      }
      if DnfTrue(cubes, v) {
        var d :| d in cubes && CubeTrue(d, v);
        assert l !in d;
        assert Filter((x: Literal) => x != Negated(l), d) in Absorb(cubes, l);
      }
      if DnfTrue(Absorb(cubes, l), v) {
        var c :| c in Absorb(cubes, l) && CubeTrue(c, v);
        var d :| d in cubes && l !in d && c == Filter((x: Literal) => x != Negated(l), d);
      }
    }
  }

  /** The literals of a cube that the model agrees with. */
  function Agreeing(c: seq<Literal>, cube: seq<Literal>): seq<Literal> {
    Filter((l: Literal) => l in cube, c)
  }

  datatype PDnfLimits = PDnfLimits(cubes: nat, cubeSize: nat, nonUnit: nat)

  /** A weakening agrees with the cube and follows from the old body. */
  ghost predicate PDnfSound(base: PDnfBase, cube: seq<Literal>, r: PDnfBase) {
    && (forall v :: (CubeTrue(cube, v) ==> PDnfTrue(r, v)) && (PDnfTrue(base, v) ==> PDnfTrue(r, v)))
    && forall l | l in r.units || Occurs(l, r.nonUnits) :: l in cube || l in base.units || Occurs(l, base.nonUnits)
  }

  lemma NewUnit(base: PDnfBase, cube: seq<Literal>, l: Literal)
    requires l in cube
    ensures PDnfSound(base, cube, PDnfBase(base.units + [l], Absorb(base.nonUnits, l)))
  {
    var r := PDnfBase(base.units + [l], Absorb(base.nonUnits, l));
    forall v: nat -> bool ensures (CubeTrue(cube, v) ==> PDnfTrue(r, v)) && (PDnfTrue(base, v) ==> PDnfTrue(r, v)) {
      AbsorbTrue(base.nonUnits, l, v);
      assert l in r.units && forall x | x in base.units :: x in r.units;
    }
  }

  lemma Intersected(base: PDnfBase, cube: seq<Literal>, i: nat)
    requires i < |base.nonUnits|
    ensures PDnfSound(base, cube, PDnfBase(base.units, base.nonUnits[i := Agreeing(base.nonUnits[i], cube)]))
  {
    var c := Agreeing(base.nonUnits[i], cube);
    var r := PDnfBase(base.units, base.nonUnits[i := c]);
    assert r.nonUnits[i] == c && c in r.nonUnits;
    forall v: nat -> bool ensures (CubeTrue(cube, v) ==> PDnfTrue(r, v)) && (PDnfTrue(base, v) ==> PDnfTrue(r, v)) {
      assert CubeTrue(cube, v) ==> CubeTrue(c, v);
      if DnfTrue(base.nonUnits, v) {
        var d :| d in base.nonUnits && CubeTrue(d, v);
        var j :| 0 <= j < |base.nonUnits| && base.nonUnits[j] == d;
        assert r.nonUnits[j] in r.nonUnits;
      }
    }
  }

  lemma NewCube(base: PDnfBase, cube: seq<Literal>, c: seq<Literal>)
    requires forall l | l in c :: l in cube
    ensures PDnfSound(base, cube, PDnfBase(base.units, base.nonUnits + [c]))
  {
    var r := PDnfBase(base.units, base.nonUnits + [c]);
    assert c in r.nonUnits && forall d | d in base.nonUnits :: d in r.nonUnits;
  }

  /** A literal of the cube becomes a unit, if that leaves no cube too small. */
  predicate AddsUnit(base: PDnfBase, l: Literal, isEq: nat -> bool, r: PDnfBase) {
    && (!isEq(l.atom) || l.positive) && Negated(l) !in base.units
    && r == PDnfBase(base.units + [l], Absorb(base.nonUnits, l)) && forall c | c in r.nonUnits :: |c| > 1
  }

  /** A cube keeps the literals that agree, if there are several. */
  predicate Intersects(base: PDnfBase, cube: seq<Literal>, i: nat, r: PDnfBase) {
    i < |base.nonUnits| && |Agreeing(base.nonUnits[i], cube)| > 1
    && r == PDnfBase(base.units, base.nonUnits[i := Agreeing(base.nonUnits[i], cube)])
  }

  /** The cubes that may be added: all the literals that can stand in one, or the largest allowed
      number of them. */
  function NewCubes(base: PDnfBase, cube: seq<Literal>, limits: PDnfLimits, mentions: nat -> bool): seq<seq<Literal>> {
    var rest := Filter((l: Literal) => Negated(l) !in base.units && mentions(l.atom), cube);
    var size := if limits.cubeSize <= |rest| then limits.cubeSize else |rest|;
    if |base.nonUnits| < limits.nonUnit && limits.cubeSize > 1 && size > 1 then Combinations(rest, size) else []
  }

  /** Which cubes these are: so many of the literals that can stand in one, in order, if there is room for
      a large cube and at least two of them. */
  ghost predicate IsNewCube(base: PDnfBase, cube: seq<Literal>, limits: PDnfLimits, mentions: nat -> bool, c: seq<Literal>) {
    var rest := Filter((l: Literal) => Negated(l) !in base.units && mentions(l.atom), cube);
    && |base.nonUnits| < limits.nonUnit && 1 < |c| && (|c| == limits.cubeSize <= |rest| || |c| == |rest| < limits.cubeSize)
    && Picked(c, rest)
  }

  lemma NewCubesExact(base: PDnfBase, cube: seq<Literal>, limits: PDnfLimits, mentions: nat -> bool, c: seq<Literal>)
    ensures c in NewCubes(base, cube, limits, mentions) <==> IsNewCube(base, cube, limits, mentions, c)
  {
    hide Picked;
    var rest := Filter((l: Literal) => Negated(l) !in base.units && mentions(l.atom), cube);
    CombinationsExact(rest, if limits.cubeSize <= |rest| then limits.cubeSize else |rest|, c);
  }

  predicate AddsCube(base: PDnfBase, c: seq<Literal>, r: PDnfBase) {
    r == PDnfBase(base.units, base.nonUnits + [c])
  }

  /** What is made with the first elements of each of the three kinds of candidates. */
  ghost predicate Candidate(base: PDnfBase, cube: seq<Literal>, isEq: nat -> bool, cubes: seq<seq<Literal>>, units: nat, parts: nat, more: nat,
                            r: PDnfBase)
    requires units <= |cube| && parts <= |base.nonUnits| && more <= |cubes|
  {
    || (exists k :: 0 <= k < units && AddsUnit(base, cube[k], isEq, r))
    || (exists i :: 0 <= i < parts && Intersects(base, cube, i, r))
    || (exists j :: 0 <= j < more && AddsCube(base, cubes[j], r))
  }

  lemma NextPart(base: PDnfBase, cube: seq<Literal>, isEq: nat -> bool, cubes: seq<seq<Literal>>, units: nat, i: nat)
    requires units <= |cube| && i < |base.nonUnits|
    ensures forall r :: Candidate(base, cube, isEq, cubes, units, i + 1, 0, r) <==>
      Candidate(base, cube, isEq, cubes, units, i, 0, r) || Intersects(base, cube, i, r)
  {
    hide AddsUnit, Intersects;
  }

  ghost predicate Room(base: PDnfBase, limits: PDnfLimits) {
    |base.units| + |base.nonUnits| < limits.cubes
  }

  ghost predicate Weakening(base: PDnfBase, cube: seq<Literal>, limits: PDnfLimits, isEq: nat -> bool, mentions: nat -> bool, r: PDnfBase) {
    || (Room(base, limits) && exists l :: l in cube && AddsUnit(base, l, isEq, r))
    || (exists i: nat :: Intersects(base, cube, i, r))
    || (Room(base, limits) && exists c :: IsNewCube(base, cube, limits, mentions, c) && AddsCube(base, c, r))
  }

  lemma CandidatesAreWeakenings(base: PDnfBase, cube: seq<Literal>, limits: PDnfLimits, isEq: nat -> bool, mentions: nat -> bool, r: PDnfBase)
    ensures var cubes := NewCubes(base, cube, limits, mentions);
            Candidate(base, cube, isEq, cubes, if Room(base, limits) then |cube| else 0, |base.nonUnits|, if Room(base, limits) then |cubes| else 0, r)
            <==> Weakening(base, cube, limits, isEq, mentions, r)
  {
    hide AddsUnit, AddsCube, NewCubes, IsNewCube;
    var cubes := NewCubes(base, cube, limits, mentions);
    forall c ensures c in cubes <==> IsNewCube(base, cube, limits, mentions, c) { NewCubesExact(base, cube, limits, mentions, c); }
    if l :| l in cube && AddsUnit(base, l, isEq, r) {
      var k :| 0 <= k < |cube| && cube[k] == l;
    }
    if c :| IsNewCube(base, cube, limits, mentions, c) && AddsCube(base, c, r) {
      var j :| 0 <= j < |cubes| && cubes[j] == c;
    }
  }

  lemma WeakeningSound(base: PDnfBase, cube: seq<Literal>, limits: PDnfLimits, isEq: nat -> bool, mentions: nat -> bool, r: PDnfBase)
    requires Weakening(base, cube, limits, isEq, mentions, r)
    ensures PDnfSound(base, cube, r)
  {
    hide PDnfSound, Absorb, Agreeing;
    if l :| l in cube && AddsUnit(base, l, isEq, r) {
      NewUnit(base, cube, l);
    } else if i: nat :| Intersects(base, cube, i, r) {
      Intersected(base, cube, i);
    } else {
      var c :| IsNewCube(base, cube, limits, mentions, c) && AddsCube(base, c, r);
      PickedFrom(c, Filter((l: Literal) => Negated(l) !in base.units && mentions(l.atom), cube));
      NewCube(base, cube, c);
    }
  }

  ghost predicate PDnfWithin(base: PDnfBase, limits: PDnfLimits) {
    && |base.units| + |base.nonUnits| <= limits.cubes && |base.nonUnits| <= limits.nonUnit
    && forall c | c in base.nonUnits :: 1 < |c| <= limits.cubeSize
  }

  /** Weakening stays within the limits of the language, and its cubes stay proper ones. */
  lemma WeakeningWithin(base: PDnfBase, cube: seq<Literal>, limits: PDnfLimits, isEq: nat -> bool, mentions: nat -> bool, r: PDnfBase)
    requires PDnfWithin(base, limits) && Weakening(base, cube, limits, isEq, mentions, r)
    ensures PDnfWithin(r, limits)
  {
    if l :| Room(base, limits) && l in cube && AddsUnit(base, l, isEq, r) {
      AbsorbShorter(base.nonUnits, l);
      forall c | c in r.nonUnits ensures 1 < |c| <= limits.cubeSize {
        var d :| d in base.nonUnits && l !in d && c == Filter((x: Literal) => x != Negated(l), d);
        FilterShorter((x: Literal) => x != Negated(l), d);
      }
    } else if i: nat :| Intersects(base, cube, i, r) {
      FilterShorter((l: Literal) => l in cube, base.nonUnits[i]);
      assert base.nonUnits[i] in base.nonUnits;
    } else {
      assert Room(base, limits);
    }
  }

  lemma {:induction false} FilterShorter<T(!new)>(keep: T -> bool, xs: seq<T>)
    ensures |Filter(keep, xs)| <= |xs|
    decreases |xs|
  {
    if xs != [] { FilterShorter(keep, xs[1..]); }
  }

  /** The weakenings of a disjunctive body: a new literal, a cube reduced to the literals that
      agree, or a new cube.  Exactly those, less the ignored ones. */
  method WeakenPDnf(base: PDnfBase, cube: seq<Literal>, limits: PDnfLimits, isEq: nat -> bool, mentions: nat -> bool,
                    ignore: PDnfBase -> bool) returns (weakened: seq<PDnfBase>)
    ensures forall r :: r in weakened <==> Weakening(base, cube, limits, isEq, mentions, r) && !ignore(r)
    ensures forall r | r in weakened :: PDnfSound(base, cube, r)
  {
    hide PDnfSound, Absorb, Agreeing, NewCubes, Weakening;
    weakened := [];
    var room := |base.units| + |base.nonUnits| < limits.cubes;
    ghost var cubes := NewCubes(base, cube, limits, mentions);
    var k := 0;
    while room && k < |cube|
      invariant k <= |cube| && (!room ==> k == 0)
      invariant forall r :: r in weakened <==> !ignore(r) && Candidate(base, cube, isEq, cubes, k, 0, 0, r)
    {
      var l := cube[k];
      var r := PDnfBase(base.units + [l], Absorb(base.nonUnits, l));
      if (!isEq(l.atom) || l.positive) && Negated(l) !in base.units {
        if (forall c | c in r.nonUnits :: |c| > 1) && !ignore(r) { weakened := weakened + [r]; }
      }
      k := k + 1;
    }
    var i := 0;
    while i < |base.nonUnits|
      invariant i <= |base.nonUnits|
      invariant forall r :: r in weakened <==> !ignore(r) && Candidate(base, cube, isEq, cubes, k, i, 0, r)
    {
      var c := Agreeing(base.nonUnits[i], cube);
      var r := PDnfBase(base.units, base.nonUnits[i := c]);
      NextPart(base, cube, isEq, cubes, k, i);
      assert forall x :: Intersects(base, cube, i, x) <==> |c| > 1 && x == r;
      if |c| > 1 && !ignore(r) { weakened := weakened + [r]; }
      i := i + 1;
    }
    var combinations, j := NewCubes(base, cube, limits, mentions), 0;
    while room && j < |combinations|
      invariant j <= |combinations| && (!room ==> j == 0)
      invariant forall r :: r in weakened <==> !ignore(r) && Candidate(base, cube, isEq, cubes, k, i, j, r)
    {
      var r := PDnfBase(base.units, base.nonUnits + [combinations[j]]);
      if !ignore(r) { weakened := weakened + [r]; }
      j := j + 1;
    }
    forall r ensures r in weakened <==> Weakening(base, cube, limits, isEq, mentions, r) && !ignore(r) {
      CandidatesAreWeakenings(base, cube, limits, isEq, mentions, r);
    }
    forall r | r in weakened ensures PDnfSound(base, cube, r) {
      WeakeningSound(base, cube, limits, isEq, mentions, r);
    }
  }

  // Disjunctive bodies whose units are cubes of one literal.

  /** A weakening of a plain list of cubes. */
  ghost predicate DnfSound(base: Lists, cube: seq<Literal>, r: Lists) {
    && (forall v :: (CubeTrue(cube, v) ==> DnfTrue(r, v)) && (DnfTrue(base, v) ==> DnfTrue(r, v)))
    && forall l | Occurs(l, r) :: l in cube || Occurs(l, base)
  }

  /** The cubes with a literal added: true when the old ones or the literal are. */
  ghost predicate AddedLiteral(base: Lists, l: Literal, r: Lists) {
    && (forall v :: DnfTrue(r, v) <==> DnfTrue(base, v) || LitTrue(l, v))
    && forall x | Occurs(x, r) :: x == l || Occurs(x, base)
  }

  /** While units are being propagated: the units collected, the pending one and the remaining
      cubes stand for the base with the literal added. */
  ghost predicate Pending(base: Lists, l: Literal, units: seq<Literal>, pending: Literal, rest: Lists) {
    && (forall v :: ClauseTrue(units, v) || LitTrue(pending, v) || DnfTrue(rest, v) <==> DnfTrue(base, v) || LitTrue(l, v))
    && forall x | x in units || x == pending || Occurs(x, rest) :: x == l || Occurs(x, base)
  }

  function WithoutAt(cubes: Lists, i: nat): Lists
    requires i < |cubes|
  {
    cubes[..i] + cubes[i + 1..]
  }

  lemma AbsorbPending(base: Lists, l: Literal, units: seq<Literal>, pending: Literal, rest: Lists)
    requires Pending(base, l, units, pending, rest)
    ensures Pending(base, l, units + [pending], pending, Absorb(rest, pending))
  {
    forall v: nat -> bool
      ensures ClauseTrue(units + [pending], v) || LitTrue(pending, v) || DnfTrue(Absorb(rest, pending), v)
        <==> DnfTrue(base, v) || LitTrue(l, v)
    {
      AbsorbTrue(rest, pending, v);
      assert pending in units + [pending] && forall x | x in units :: x in units + [pending];
    }
  }

  lemma NextPending(base: Lists, l: Literal, units: seq<Literal>, pending: Literal, rest: Lists, i: nat)
    requires Pending(base, l, units, pending, rest) && pending in units
    requires i < |rest| && |rest[i]| == 1
    ensures Pending(base, l, units, rest[i][0], WithoutAt(rest, i))
  {
    var left, next := WithoutAt(rest, i), rest[i][0];
    assert rest[i] in rest && next in rest[i] && Occurs(next, rest);
    forall x | Occurs(x, left) ensures Occurs(x, rest) {
      var c :| c in left && x in c;
      assert c in rest;
    }
    forall v: nat -> bool
      ensures ClauseTrue(units, v) || LitTrue(next, v) || DnfTrue(left, v) <==> DnfTrue(base, v) || LitTrue(l, v)
    {
      UnitCube(rest[i], v);
      RemovedCube(rest, i, v);
    }
  }

  lemma UnitCube(c: seq<Literal>, v: nat -> bool)
    requires |c| == 1
    ensures CubeTrue(c, v) <==> LitTrue(c[0], v)
  {
    assert c[0] in c;
  }

  lemma RemovedCube(cubes: Lists, i: nat, v: nat -> bool)
    requires i < |cubes|
    ensures DnfTrue(cubes, v) <==> CubeTrue(cubes[i], v) || DnfTrue(WithoutAt(cubes, i), v)
  {
    hide CubeTrue;
    var left := WithoutAt(cubes, i);
    assert cubes[i] in cubes && forall c | c in left :: c in cubes;
    forall c | c in cubes ensures c == cubes[i] || c in left {
      var j :| 0 <= j < |cubes| && cubes[j] == c;
      if j < i { assert left[j] == c; } else if j > i { assert left[j - 1] == c; }
    }
  }

  lemma UnitsTrue(units: seq<Literal>, rest: Lists, v: nat -> bool)
    ensures DnfTrue(rest + UnitClauses(units), v) <==> DnfTrue(rest, v) || ClauseTrue(units, v)
  {
    var cubes := UnitClauses(units);
    forall i | 0 <= i < |units| ensures CubeTrue(cubes[i], v) <==> LitTrue(units[i], v) { UnitCube(cubes[i], v); }
    hide CubeTrue;
    assert forall c | c in cubes :: c in rest + cubes;
    assert forall c | c in rest :: c in rest + cubes;
    if ClauseTrue(units, v) {
      var l :| l in units && LitTrue(l, v);
      var i :| 0 <= i < |units| && units[i] == l;
      assert cubes[i] in cubes;
    }
    if DnfTrue(cubes, v) {
      var c :| c in cubes && CubeTrue(c, v);
      var i :| 0 <= i < |cubes| && cubes[i] == c;
      assert units[i] in units;
    }
  }

  lemma UnitsAdded(base: Lists, l: Literal, units: seq<Literal>, pending: Literal, rest: Lists)
    requires Pending(base, l, units, pending, rest) && pending in units
    ensures AddedLiteral(base, l, rest + UnitClauses(units))
  {
    forall v: nat -> bool ensures DnfTrue(rest + UnitClauses(units), v) <==> DnfTrue(base, v) || LitTrue(l, v) {
      UnitsTrue(units, rest, v);
    }
  }

  // The limits of such a body.

  function Large(cubes: Lists): nat {
    if cubes == [] then 0 else (if |cubes[0]| > 1 then 1 else 0) + Large(cubes[1..])
  }

  predicate InLarge(l: Literal, cubes: Lists) {
    exists c :: c in cubes && l in c && |c| > 1
  }

  predicate SizesWithin(cubes: Lists, cubeSize: nat) {
    forall c | c in cubes :: |c| <= 1 || |c| <= cubeSize
  }

  predicate NaiveWithin(base: Lists, cubes: nat, cubeSize: nat, nonUnit: nat) {
    |base| <= cubes && Large(base) <= nonUnit && SizesWithin(base, cubeSize)
  }

  lemma {:induction false} LargeAppend(a: Lists, b: Lists)
    ensures Large(a + b) == Large(a) + Large(b)
    decreases |a|
  {
    if a == [] {
      assert a + b == b;
    } else {
      assert (a + b)[1..] == a[1..] + b;
      LargeAppend(a[1..], b);
    }
  }

  /** Absorbing a literal makes no cube large, and drops the large ones that have it. */
  lemma {:induction false} AbsorbLarge(cubes: Lists, l: Literal)
    ensures Large(Absorb(cubes, l)) <= Large(cubes)
    ensures InLarge(l, cubes) ==> Large(Absorb(cubes, l)) < Large(cubes)
    decreases |cubes|
  {
    if cubes != [] {
      AbsorbLarge(cubes[1..], l);
      var c := Filter((x: Literal) => x != Negated(l), cubes[0]);
      FilterShorter((x: Literal) => x != Negated(l), cubes[0]);
      assert Absorb(cubes, l) == (if l in cubes[0] then [] else [c]) + Absorb(cubes[1..], l);
      if l in cubes[0] {
        assert Absorb(cubes, l) == Absorb(cubes[1..], l);
      } else {
        LargeAppend([c], Absorb(cubes[1..], l));
      }
      if InLarge(l, cubes) {
        var d :| d in cubes && l in d && |d| > 1;
        assert d == cubes[0] || d in cubes[1..];
      }
    }
  }

  lemma AbsorbSizes(cubes: Lists, l: Literal, cubeSize: nat)
    requires SizesWithin(cubes, cubeSize)
    ensures SizesWithin(Absorb(cubes, l), cubeSize)
  {
    forall c | c in Absorb(cubes, l) ensures |c| <= 1 || |c| <= cubeSize {
      var d :| d in cubes && l !in d && c == Filter((x: Literal) => x != Negated(l), d);
      FilterShorter((x: Literal) => x != Negated(l), d);
    }
  }

  lemma WithoutAtLarge(cubes: Lists, i: nat)
    requires i < |cubes| && |cubes[i]| == 1
    ensures Large(WithoutAt(cubes, i)) == Large(cubes)
  {
    assert cubes == cubes[..i] + ([cubes[i]] + cubes[i + 1..]);
    LargeAppend(cubes[..i], [cubes[i]] + cubes[i + 1..]);
    LargeAppend([cubes[i]], cubes[i + 1..]);
    LargeAppend(cubes[..i], cubes[i + 1..]);
  }

  lemma ReplacedLarge(cubes: Lists, i: nat, c: seq<Literal>)
    requires i < |cubes| && 1 < |c| <= |cubes[i]|
    ensures Large(cubes[i := c]) == Large(cubes)
  {
    assert cubes == cubes[..i] + ([cubes[i]] + cubes[i + 1..]);
    assert cubes[i := c] == cubes[..i] + ([c] + cubes[i + 1..]);
    LargeAppend(cubes[..i], [cubes[i]] + cubes[i + 1..]);
    LargeAppend([cubes[i]], cubes[i + 1..]);
    LargeAppend(cubes[..i], [c] + cubes[i + 1..]);
    LargeAppend([c], cubes[i + 1..]);
  }

  lemma {:induction false} UnitsSmall(units: seq<Literal>)
    ensures Large(UnitClauses(units)) == 0 && forall c | c in UnitClauses(units) :: |c| == 1
    decreases |units|
  {
    if units != [] {
      assert UnitClauses(units)[1..] == UnitClauses(units[1..]);
      UnitsSmall(units[1..]);
    }
  }

  /** How the cubes that remain while units are propagated compare to those at the start. */
  ghost predicate Smaller(base: Lists, l: Literal, pending: Literal, rest: Lists) {
    && Large(rest) <= Large(base) && |rest| <= |base|
    && (InLarge(l, base) ==> Large(rest) < Large(base) || (rest == base && pending == l))
    && forall n: nat | SizesWithin(base, n) :: SizesWithin(rest, n)
  }

  ghost predicate SmallerAfter(base: Lists, l: Literal, rest: Lists) {
    && Large(rest) <= Large(base) && |rest| <= |base|
    && (InLarge(l, base) ==> Large(rest) < Large(base))
    && forall n: nat | SizesWithin(base, n) :: SizesWithin(rest, n)
  }

  lemma SmallerAbsorb(base: Lists, l: Literal, pending: Literal, rest: Lists)
    requires Smaller(base, l, pending, rest)
    ensures SmallerAfter(base, l, Absorb(rest, pending))
  {
    hide Absorb, SizesWithin, InLarge, Large;
    AbsorbLarge(rest, pending);
    AbsorbShorter(rest, pending);
    forall n: nat | SizesWithin(base, n) ensures SizesWithin(Absorb(rest, pending), n) { AbsorbSizes(rest, pending, n); }
  }

  lemma SmallerNext(base: Lists, l: Literal, rest: Lists, i: nat, pending: Literal)
    requires SmallerAfter(base, l, rest) && i < |rest| && |rest[i]| == 1
    ensures Smaller(base, l, pending, WithoutAt(rest, i))
  {
    hide InLarge, Large;
    WithoutAtLarge(rest, i);
  }

  lemma SmallerUnits(base: Lists, l: Literal, rest: Lists, units: seq<Literal>)
    requires SmallerAfter(base, l, rest)
    ensures SmallUnits(base, l, rest + UnitClauses(units))
  {
    hide InLarge;
    UnitsSmall(units);
    LargeAppend(rest, UnitClauses(units));
  }

  /** The limits of a body with a literal added. */
  ghost predicate SmallUnits(base: Lists, l: Literal, r: Lists) {
    && Large(r) <= Large(base) && (InLarge(l, base) ==> Large(r) < Large(base))
    && forall n: nat | SizesWithin(base, n) :: SizesWithin(r, n)
  }

  // Unit propagation.

  function FirstUnit(cubes: Lists, i: nat): (r: nat)
    requires i <= |cubes|
    ensures i <= r <= |cubes| && (r < |cubes| ==> |cubes[r]| == 1)
    decreases |cubes| - i
  {
    if i == |cubes| || |cubes[i]| == 1 then i else FirstUnit(cubes, i + 1)
  }

  predicate Empties(cubes: Lists, l: Literal) {
    exists c :: c in Absorb(cubes, l) && c == []
  }

  function WithUnit(units: seq<Literal>, l: Literal): seq<Literal> {
    if l in units then units else units + [l]
  }

  /** Propagate a pending unit to the end: the units found, and the cubes left.  Nothing when an
      inequality would become a unit or a cube becomes empty. */
  function Propagate(units: seq<Literal>, pending: Literal, rest: Lists, isEq: nat -> bool): Option<(seq<Literal>, Lists)>
    decreases |rest|
  {
    if (isEq(pending.atom) && !pending.positive) || Empties(rest, pending) then None
    else
      var left := Absorb(rest, pending);
      var i := FirstUnit(left, 0);
      AbsorbShorter(rest, pending);
      if i == |left| then Some((WithUnit(units, pending), left))
      else Propagate(WithUnit(units, pending), left[i][0], WithoutAt(left, i), isEq)
  }

  /** The cubes with a literal added and its consequences propagated, if there are not too many. */
  function AddedUnit(base: Lists, l: Literal, cubes: nat, isEq: nat -> bool): Option<Lists> {
    match Propagate([], l, base, isEq)
    case None => None
    case Some(found) => if |found.0| + |found.1| <= cubes then Some(found.1 + UnitClauses(found.0)) else None
  }

  /** Adding the literal fails only for a reason: an inequality follows, the body becomes trivial,
      or too many cubes are left when all units are propagated. */
  ghost predicate GivesUp(base: Lists, l: Literal, cubes: nat, isEq: nat -> bool) {
    || (exists x: Literal :: isEq(x.atom) && !x.positive && forall v | LitTrue(x, v) :: DnfTrue(base, v) || LitTrue(l, v))
    || (forall v :: DnfTrue(base, v) || LitTrue(l, v))
    || (Propagate([], l, base, isEq).Some? && TooMany(Propagate([], l, base, isEq).value, cubes))
  }

  predicate TooMany(found: (seq<Literal>, Lists), cubes: nat) {
    |found.0| + |found.1| > cubes
  }

  lemma InequalityFollows(base: Lists, l: Literal, units: seq<Literal>, pending: Literal, rest: Lists, cubes: nat, isEq: nat -> bool)
    requires Pending(base, l, units, pending, rest) && isEq(pending.atom) && !pending.positive
    ensures GivesUp(base, l, cubes, isEq)
  {
    hide DnfTrue, Propagate, Occurs;
    assert forall v: nat -> bool | LitTrue(pending, v) :: DnfTrue(base, v) || LitTrue(l, v);
  }

  lemma BecomesTrivial(base: Lists, l: Literal, units: seq<Literal>, pending: Literal, rest: Lists, cubes: nat, isEq: nat -> bool)
    requires Pending(base, l, units, pending, Absorb(rest, pending)) && Empties(rest, pending)
    ensures GivesUp(base, l, cubes, isEq)
  {
    hide Propagate, Occurs, Absorb;
    var c :| c in Absorb(rest, pending) && c == [];
    forall v: nat -> bool ensures DnfTrue(base, v) || LitTrue(l, v) {
      assert CubeTrue(c, v);
      assert DnfTrue(Absorb(rest, pending), v);
    }
  }

  /** Add a literal to the cubes and propagate the units this creates. */
  method AddUnit(base: Lists, l: Literal, cubes: nat, isEq: nat -> bool) returns (r: Option<Lists>)
    ensures r == AddedUnit(base, l, cubes, isEq)
    ensures r.None? ==> GivesUp(base, l, cubes, isEq)
    ensures r.Some? ==> AddedLiteral(base, l, r.value) && |r.value| <= cubes && SmallUnits(base, l, r.value)
  {
    hide Pending, AddedLiteral, Absorb, Smaller, SmallerAfter, SmallUnits, GivesUp, Empties;
    var pending, rest := l, base;
    var units: seq<Literal> := [];
    StartPending(base, l);
    StartSmaller(base, l);
    while true
      invariant Pending(base, l, units, pending, rest) && Smaller(base, l, pending, rest)
      invariant Propagate(units, pending, rest, isEq) == Propagate([], l, base, isEq)
      decreases |rest|
    {
      if isEq(pending.atom) && !pending.positive {
        InequalityFollows(base, l, units, pending, rest, cubes, isEq);
        return None;
      }
      AbsorbPending(base, l, units, pending, rest);
      AbsorbShorter(rest, pending);
      SmallerAbsorb(base, l, pending, rest);
      if Empties(rest, pending) {
        BecomesTrivial(base, l, units + [pending], pending, rest, cubes, isEq);
        return None;
      }
      rest := Absorb(rest, pending);
      if pending !in units {
        units := units + [pending];
      } else {
        SameUnits(base, l, units, pending, rest);
      }
      var i := 0;
      while i < |rest| && |rest[i]| != 1
        invariant i <= |rest| && FirstUnit(rest, i) == FirstUnit(rest, 0)
      {
        i := i + 1;
      }
      if i == |rest| { break; }
      NextPending(base, l, units, pending, rest, i);
      SmallerNext(base, l, rest, i, rest[i][0]);
      pending, rest := rest[i][0], WithoutAt(rest, i);
    }
    UnitsAdded(base, l, units, pending, rest);
    SmallerUnits(base, l, rest, units);
    r := if |units| + |rest| <= cubes then Some(rest + UnitClauses(units)) else None;
    if r.None? { ManyLeft(base, l, cubes, isEq); }
  }

  lemma ManyLeft(base: Lists, l: Literal, cubes: nat, isEq: nat -> bool)
    requires Propagate([], l, base, isEq).Some? && TooMany(Propagate([], l, base, isEq).value, cubes)
    ensures GivesUp(base, l, cubes, isEq)
  {
    hide Propagate, DnfTrue;
  }

  lemma StartSmaller(base: Lists, l: Literal)
    ensures Smaller(base, l, l, base)
  {
  }

  lemma StartPending(base: Lists, l: Literal)
    ensures Pending(base, l, [], l, base)
  {
  }

  lemma SameUnits(base: Lists, l: Literal, units: seq<Literal>, pending: Literal, rest: Lists)
    requires Pending(base, l, units + [pending], pending, rest) && pending in units
    ensures Pending(base, l, units, pending, rest)
  {
    forall v: nat -> bool ensures ClauseTrue(units + [pending], v) <==> ClauseTrue(units, v) {
      assert forall x | x in units :: x in units + [pending];
    }
  }

  lemma {:induction false} AbsorbShorter(cubes: Lists, l: Literal)
    ensures |Absorb(cubes, l)| <= |cubes|
    decreases |cubes|
  {
    if cubes != [] { AbsorbShorter(cubes[1..], l); }
  }

  function UnitLiterals(base: Lists): (r: seq<Literal>)
    ensures forall l :: l in r <==> [l] in base
  {
    if base == [] then []
    else
      assert base == [base[0]] + base[1..];
      assert forall l :: [l] == base[0] <==> |base[0]| == 1 && base[0][0] == l;
      (if |base[0]| == 1 then [base[0][0]] else []) + UnitLiterals(base[1..])
  }

  lemma AddedSound(base: Lists, l: Literal, r: Lists, cube: seq<Literal>)
    requires AddedLiteral(base, l, r) && l in cube
    ensures DnfSound(base, cube, r)
  {
  }

  lemma WithCube(base: Lists, c: seq<Literal>, cube: seq<Literal>)
    requires forall l | l in c :: l in cube
    ensures DnfSound(base, cube, base + [c])
  {
    assert c in base + [c] && forall d | d in base :: d in base + [c];
  }

  lemma UnitAgrees(base: Lists, l: Literal, cube: seq<Literal>)
    requires [l] in base && l in cube
    ensures DnfSound(base, cube, base)
  {
    forall v: nat -> bool | CubeTrue(cube, v) ensures DnfTrue(base, v) { UnitCube([l], v); }
  }

  /** Some unit of the body is a literal of the cube. */
  predicate SharesUnit(base: Lists, cube: seq<Literal>) {
    exists l :: l in cube && [l] in base
  }

  /** The literals of the cube whose negations are not units. */
  function FreeLiterals(base: Lists, cube: seq<Literal>): seq<Literal> {
    Filter((l: Literal) => [Negated(l)] !in base, cube)
  }

  function AtMost(a: nat, b: nat): nat {
    if a <= b then a else b
  }

  /** The body itself if it has a unit of the cube, and otherwise the body with a new cube of
      literals whose negations are not units. */
  ghost predicate Combination(base: Lists, cube: seq<Literal>, cubes: nat, cubeSize: nat, isEq: nat -> bool, r: Lists) {
    if SharesUnit(base, cube) then r == base
    else
      var rest := FreeLiterals(base, cube);
      if |rest| == 1 then AddedUnit(base, rest[0], cubes, isEq) == Some(r)
      else |rest| > 1 && |base| < cubes && r in ExtendEach(base, Combinations(rest, AtMost(cubeSize, |rest|)))
  }

  /** The body with each of the combinations as a new cube. */
  function ExtendEach(base: Lists, combinations: seq<seq<Literal>>): (r: seq<Lists>)
    ensures |r| == |combinations| && forall j | 0 <= j < |r| :: r[j] == base + [combinations[j]]
  {
    seq(|combinations|, j requires 0 <= j < |combinations| => base + [combinations[j]])
  }

  /** With room for one more large cube the limits are kept. */
  ghost predicate KeepsRoom(base: Lists, cubes: nat, cubeSize: nat, r: Lists) {
    forall nonUnit: nat | NaiveWithin(base, cubes, cubeSize, nonUnit) && Large(base) < nonUnit :: NaiveWithin(r, cubes, cubeSize, nonUnit)
  }

  /** Exactly those bodies. */
  method AddCombinations(base: Lists, cube: seq<Literal>, cubes: nat, cubeSize: nat, isEq: nat -> bool) returns (rs: seq<Lists>)
    ensures forall r :: r in rs <==> Combination(base, cube, cubes, cubeSize, isEq, r)
    ensures forall r | r in rs :: DnfSound(base, cube, r) && KeepsRoom(base, cubes, cubeSize, r)
  {
    hide *;
    CombinationMeans(base, cube, cubes, cubeSize, isEq);
    if SharesUnit(base, cube) {
      SharedAgrees(base, cube, cubes, cubeSize);
      return [base];
    }
    var rest := FreeLiterals(base, cube);
    FreeFrom(base, cube);
    rs := [];
    if |rest| == 1 {
      var added := AddUnit(base, rest[0], cubes, isEq);
      if added.Some? {
        AddedSound(base, rest[0], added.value, cube);
        UnitLimits(base, rest[0], added.value, cubes, cubeSize);
        rs := [added.value];
      }
    } else if |rest| > 1 && |base| < cubes {
      rs := ExtendEach(base, Combinations(rest, AtMost(cubeSize, |rest|)));
      forall r | r in rs ensures DnfSound(base, cube, r) && KeepsRoom(base, cubes, cubeSize, r) {
        CombinationSound(base, cube, rest, cubes, cubeSize, r);
      }
    }
  }

  lemma SharedAgrees(base: Lists, cube: seq<Literal>, cubes: nat, cubeSize: nat)
    requires SharesUnit(base, cube)
    ensures DnfSound(base, cube, base) && KeepsRoom(base, cubes, cubeSize, base)
  {
    hide DnfSound, NaiveWithin;
    var l :| l in cube && [l] in base;
    UnitAgrees(base, l, cube);
  }

  lemma CombinationSound(base: Lists, cube: seq<Literal>, rest: seq<Literal>, cubes: nat, cubeSize: nat, r: Lists)
    requires r in ExtendEach(base, Combinations(rest, AtMost(cubeSize, |rest|))) && |base| < cubes
    requires forall l | l in rest :: l in cube
    ensures DnfSound(base, cube, r) && KeepsRoom(base, cubes, cubeSize, r)
  {
    hide DnfSound, Large, SizesWithin;
    var combinations := Combinations(rest, AtMost(cubeSize, |rest|));
    var j :| 0 <= j < |combinations| && r == base + [combinations[j]];
    assert combinations[j] in combinations;
    CombinationsFrom(rest, AtMost(cubeSize, |rest|), combinations[j]);
    WithCube(base, combinations[j], cube);
    OneMore(base, cubeSize, combinations[j]);
  }

  lemma CombinationMeans(base: Lists, cube: seq<Literal>, cubes: nat, cubeSize: nat, isEq: nat -> bool)
    ensures SharesUnit(base, cube) ==> forall r :: Combination(base, cube, cubes, cubeSize, isEq, r) <==> r == base
    ensures var rest := FreeLiterals(base, cube);
            !SharesUnit(base, cube) ==>
              && (|rest| == 1 ==> forall r :: Combination(base, cube, cubes, cubeSize, isEq, r) <==> AddedUnit(base, rest[0], cubes, isEq) == Some(r))
              && (|rest| != 1 ==> forall r :: (Combination(base, cube, cubes, cubeSize, isEq, r)
                  <==> |rest| > 1 && |base| < cubes && r in ExtendEach(base, Combinations(rest, AtMost(cubeSize, |rest|)))))
  {
    hide AddedUnit, ExtendEach, FreeLiterals, SharesUnit;
  }

  lemma FreeFrom(base: Lists, cube: seq<Literal>)
    ensures forall l | l in FreeLiterals(base, cube) :: l in cube
  {
  }

  lemma UnitLimits(base: Lists, l: Literal, r: Lists, cubes: nat, cubeSize: nat)
    requires SmallUnits(base, l, r) && |r| <= cubes
    ensures KeepsRoom(base, cubes, cubeSize, r)
  {
    hide Large, SizesWithin, InLarge;
  }

  /** At most one more large cube, of the allowed size. */
  ghost predicate OneLarger(base: Lists, cubeSize: nat, r: Lists) {
    Large(r) <= Large(base) + 1 && (SizesWithin(base, cubeSize) ==> SizesWithin(r, cubeSize))
  }

  lemma OneMore(base: Lists, cubeSize: nat, c: seq<Literal>)
    requires |c| <= cubeSize
    ensures OneLarger(base, cubeSize, base + [c])
  {
    LargeAppend(base, [c]);
  }

  lemma IntersectedCube(base: Lists, cube: seq<Literal>, i: nat, c: seq<Literal>)
    requires i < |base| && forall l | l in c :: l in base[i] && l in cube
    ensures DnfSound(base, cube, base[i := c])
  {
    var r := base[i := c];
    assert r[i] == c && c in r;
    forall v: nat -> bool ensures (CubeTrue(cube, v) ==> DnfTrue(r, v)) && (DnfTrue(base, v) ==> DnfTrue(r, v)) {
      if DnfTrue(base, v) {
        var d :| d in base && CubeTrue(d, v);
        var j :| 0 <= j < |base| && base[j] == d;
        assert r[j] in r;
      }
    }
  }

  ghost predicate SameLimits(base: Lists, r: Lists) {
    forall cubes, cubeSize, nonUnit | NaiveWithin(base, cubes, cubeSize, nonUnit) :: NaiveWithin(r, cubes, cubeSize, nonUnit)
  }

  lemma KeepsLimits(base: Lists)
    ensures SameLimits(base, base)
  {
  }

  lemma ReducedLimits(base: Lists, i: nat, c: seq<Literal>)
    requires i < |base| && 1 < |c| <= |base[i]|
    ensures SameLimits(base, base[i := c])
  {
    ReplacedLarge(base, i, c);
    hide Large;
    assert base[i] in base;
  }

  /** Go through the units: nothing is left when one of them is still in the cube, and otherwise its
      negation is dropped from the cube. */
  function RemainingCube(base: Lists, cube: seq<Literal>): Option<seq<Literal>> {
    if base == [] then Some(cube)
    else if |base[0]| != 1 then RemainingCube(base[1..], cube)
    else if base[0][0] in cube then None
    else RemainingCube(base[1..], Filter((l: Literal) => l != Negated(base[0][0]), cube))
  }

  lemma {:induction false} RemainingFrom(base: Lists, cube: seq<Literal>)
    ensures RemainingCube(base, cube).None? ==> SharesUnit(base, cube)
    ensures RemainingCube(base, cube).Some? ==> forall l | l in RemainingCube(base, cube).value :: l in cube
    decreases |base|
  {
    if base != [] {
      var left := if |base[0]| != 1 then cube else Filter((l: Literal) => l != Negated(base[0][0]), cube);
      RemainingFrom(base[1..], left);
      assert |base[0]| == 1 ==> base[0] == [base[0][0]];
      if SharesUnit(base[1..], left) {
        var l :| l in left && [l] in base[1..];
        assert l in cube && [l] in base;
      }
    }
  }

  /** The body with one of the first `n` larger cubes reduced to what it shares with the cube, if that
      is more than one literal. */
  function ShrunkEach(base: Lists, rest: seq<Literal>, n: nat): seq<Lists>
    requires n <= |base|
  {
    if n == 0 then []
    else
      var c := Filter((l: Literal) => l in rest, base[n - 1]);
      ShrunkEach(base, rest, n - 1) + if |base[n - 1]| != 1 && |c| > 1 then [base[n - 1 := c]] else []
  }

  /** The body itself if it has a unit of the cube, and otherwise the body with one larger cube
      reduced. */
  predicate Intersection(base: Lists, cube: seq<Literal>, r: Lists) {
    match RemainingCube(base, cube) case None => r == base case Some(rest) => r in ShrunkEach(base, rest, |base|)
  }

  /** Exactly those bodies. */
  method IntersectCubes(base: Lists, cube: seq<Literal>) returns (rs: seq<Lists>)
    ensures forall r :: r in rs <==> Intersection(base, cube, r)
    ensures forall r | r in rs :: DnfSound(base, cube, r) && SameLimits(base, r)
  {
    hide DnfSound, SameLimits;
    KeepsLimits(base);
    rs := [];
    var left, k := cube, 0;
    RemainingFrom(base, cube);
    while k < |base|
      invariant k <= |base| && RemainingCube(base[k..], left) == RemainingCube(base, cube)
    {
      if |base[k]| == 1 {
        if base[k][0] in left {
          ghost var l :| l in cube && [l] in base;
          UnitAgrees(base, l, cube);
          return [base];
        }
        left := Filter((l: Literal) => l != Negated(base[k][0]), left);
      }
      k := k + 1;
    }
    var rest, i := left, 0;
    while i < |base|
      invariant i <= |base| && rs == ShrunkEach(base, rest, i)
      invariant forall r | r in rs :: DnfSound(base, cube, r) && SameLimits(base, r)
    {
      if |base[i]| != 1 {
        var c := Filter((l: Literal) => l in rest, base[i]);
        IntersectedCube(base, cube, i, c);
        if |c| > 1 {
          FilterShorter((l: Literal) => l in rest, base[i]);
          ReducedLimits(base, i, c);
          rs := rs + [base[i := c]];
        }
      }
      i := i + 1;
    }
  }

  function LargeLiterals(base: Lists): (r: seq<Literal>)
    ensures forall l :: l in r <==> InLarge(l, base)
  {
    if base == [] then []
    else
      assert base == [base[0]] + base[1..];
      assert forall l :: InLarge(l, base) <==> (|base[0]| > 1 && l in base[0]) || InLarge(l, base[1..]) by {
        forall l | InLarge(l, base[1..]) ensures InLarge(l, base) { var c :| c in base[1..] && l in c && |c| > 1; }
      }
      (if |base[0]| > 1 then base[0] else []) + LargeLiterals(base[1..])
  }

  lemma ThroughReduced(base: Lists, l: Literal, reduced: Lists, cube: seq<Literal>, r: Lists)
    requires AddedLiteral(base, l, reduced) && DnfSound(reduced, cube, r) && Occurs(l, base)
    ensures DnfSound(base, cube, r)
  {
  }

  /** The weakenings when at most one cube may have several literals: with room for another large cube a
      new cube, and otherwise a new unit, the large cube reduced to a unit and a new cube, or the large cube
      reduced.  Those of the first kind are not screened. */
  ghost predicate NaiveWeakening(base: Lists, cube: seq<Literal>, cubes: nat, cubeSize: nat, nonUnit: nat, isEq: nat -> bool,
                                 ignore: Lists -> bool, r: Lists) {
    if Large(base) < nonUnit then Combination(base, cube, cubes, cubeSize, isEq, r)
    else
      && !ignore(r)
      && (|| AddsOne(base, cube, |cube|, cubes, isEq, r)
          || ReducesOne(base, cube, LargeLiterals(base), cubes, cubeSize, isEq, ignore, r)
          || Intersection(base, cube, r))
  }

  predicate AddsOne(base: Lists, cube: seq<Literal>, n: nat, cubes: nat, isEq: nat -> bool, r: Lists)
    requires n <= |cube|
  {
    exists k: nat :: k < n && AddedUnit(base, cube[k], cubes, isEq) == Some(r)
  }

  ghost predicate ReducesOne(base: Lists, cube: seq<Literal>, literals: seq<Literal>, cubes: nat, cubeSize: nat, isEq: nat -> bool,
                             ignore: Lists -> bool, r: Lists) {
    exists j: nat :: j < |literals| && ReducesBy(base, cube, literals[j], cubes, cubeSize, isEq, ignore, r)
  }

  ghost predicate ReducesBy(base: Lists, cube: seq<Literal>, l: Literal, cubes: nat, cubeSize: nat, isEq: nat -> bool,
                            ignore: Lists -> bool, r: Lists) {
    var reduced := AddedUnit(base, l, cubes, isEq);
    reduced.Some? && !ignore(reduced.value) && Combination(reduced.value, cube, cubes, cubeSize, isEq, r)
  }

  /** Exactly those. */
  method WeakenNaive(base: Lists, cube: seq<Literal>, cubes: nat, cubeSize: nat, nonUnit: nat, isEq: nat -> bool, ignore: Lists -> bool)
    returns (weakened: seq<Lists>)
    ensures forall r :: r in weakened <==> NaiveWeakening(base, cube, cubes, cubeSize, nonUnit, isEq, ignore, r)
    ensures forall r | r in weakened :: DnfSound(base, cube, r)
    ensures NaiveWithin(base, cubes, cubeSize, nonUnit) ==> forall r | r in weakened :: NaiveWithin(r, cubes, cubeSize, nonUnit)
  {
    hide DnfSound, AddedLiteral, Large, SizesWithin, AddedUnit, Combination, Intersection, GivesUp, NaiveWithin, SmallUnits, SameLimits;
    hide KeepsRoom;
    weakened := [];
    ghost var within := NaiveWithin(base, cubes, cubeSize, nonUnit);
    if Large(base) < nonUnit {
      weakened := AddCombinations(base, cube, cubes, cubeSize, isEq);
      if within { forall r | r in weakened ensures NaiveWithin(r, cubes, cubeSize, nonUnit) { RoomKept(base, r, cubes, cubeSize, nonUnit); } }
      return;
    }
    var k := 0;
    while k < |cube|
      invariant k <= |cube| && forall r :: r in weakened <==> !ignore(r) && AddsOne(base, cube, k, cubes, isEq, r)
      invariant forall r | r in weakened :: DnfSound(base, cube, r) && (within ==> NaiveWithin(r, cubes, cubeSize, nonUnit))
    {
      var added := AddUnit(base, cube[k], cubes, isEq);
      assert forall r :: AddsOne(base, cube, k + 1, cubes, isEq, r) <==> AddsOne(base, cube, k, cubes, isEq, r) || added == Some(r);
      if added.Some? {
        AddedSound(base, cube[k], added.value, cube);
        if within { AddedWithin(base, cube[k], added.value, cubes, cubeSize, nonUnit); }
        if !ignore(added.value) { weakened := weakened + [added.value]; }
      }
      k := k + 1;
    }
    var literals, j := LargeLiterals(base), 0;
    while j < |literals|
      invariant j <= |literals|
      invariant forall r :: (r in weakened
        <==> !ignore(r) && (AddsOne(base, cube, k, cubes, isEq, r) || ReducesOne(base, cube, literals[..j], cubes, cubeSize, isEq, ignore, r)))
      invariant forall r | r in weakened :: DnfSound(base, cube, r) && (within ==> NaiveWithin(r, cubes, cubeSize, nonUnit))
    {
      var l := literals[j];
      assert l in literals && Occurs(l, base);
      var reduced := AddUnit(base, l, cubes, isEq);
      ReducesOneMore(base, cube, literals, j, cubes, cubeSize, isEq, ignore);
      if reduced.Some? && !ignore(reduced.value) {
        if within { ReducedWithin(base, l, reduced.value, cubes, cubeSize, nonUnit); }
        var more := AddCombinations(reduced.value, cube, cubes, cubeSize, isEq);
        forall r | r in more ensures DnfSound(base, cube, r) && (within ==> NaiveWithin(r, cubes, cubeSize, nonUnit)) {
          ThroughReduced(base, l, reduced.value, cube, r);
          if within { RoomKept(reduced.value, r, cubes, cubeSize, nonUnit); }
        }
        weakened := weakened + Filter((r: Lists) => !ignore(r), more);
      }
      j := j + 1;
    }
    assert literals[..j] == literals;
    var intersected := IntersectCubes(base, cube);
    if within { forall r | r in intersected ensures NaiveWithin(r, cubes, cubeSize, nonUnit) { SameWithin(base, r, cubes, cubeSize, nonUnit); } }
    weakened := weakened + Filter((r: Lists) => !ignore(r), intersected);
  }

  lemma AddedWithin(base: Lists, l: Literal, r: Lists, cubes: nat, cubeSize: nat, nonUnit: nat)
    requires SmallUnits(base, l, r) && |r| <= cubes && NaiveWithin(base, cubes, cubeSize, nonUnit)
    ensures NaiveWithin(r, cubes, cubeSize, nonUnit)
  {
    hide Large, SizesWithin, InLarge;
  }

  lemma ReducedWithin(base: Lists, l: Literal, r: Lists, cubes: nat, cubeSize: nat, nonUnit: nat)
    requires SmallUnits(base, l, r) && |r| <= cubes && NaiveWithin(base, cubes, cubeSize, nonUnit) && InLarge(l, base)
    ensures NaiveWithin(r, cubes, cubeSize, nonUnit) && Large(r) < nonUnit
  {
    hide Large, SizesWithin, InLarge;
  }

  lemma RoomKept(base: Lists, r: Lists, cubes: nat, cubeSize: nat, nonUnit: nat)
    requires KeepsRoom(base, cubes, cubeSize, r) && NaiveWithin(base, cubes, cubeSize, nonUnit) && Large(base) < nonUnit
    ensures NaiveWithin(r, cubes, cubeSize, nonUnit)
  {
    hide NaiveWithin;
  }

  lemma SameWithin(base: Lists, r: Lists, cubes: nat, cubeSize: nat, nonUnit: nat)
    requires SameLimits(base, r) && NaiveWithin(base, cubes, cubeSize, nonUnit)
    ensures NaiveWithin(r, cubes, cubeSize, nonUnit)
  {
    hide NaiveWithin;
  }

  lemma ReducesOneMore(base: Lists, cube: seq<Literal>, literals: seq<Literal>, j: nat, cubes: nat, cubeSize: nat, isEq: nat -> bool,
                       ignore: Lists -> bool)
    requires j < |literals|
    ensures forall r ::
      (ReducesOne(base, cube, literals[..j + 1], cubes, cubeSize, isEq, ignore, r)
       <==> ReducesOne(base, cube, literals[..j], cubes, cubeSize, isEq, ignore, r)
            || ReducesBy(base, cube, literals[j], cubes, cubeSize, isEq, ignore, r))
  {
    hide ReducesBy;
    var front, longer := literals[..j], literals[..j + 1];
    assert longer[j] == literals[j] && forall k | 0 <= k < j :: front[k] == longer[k];
  }

  /** Without large cubes at all every result is screened. */
  lemma NaiveScreened(base: Lists, cube: seq<Literal>, cubes: nat, cubeSize: nat, isEq: nat -> bool, ignore: Lists -> bool, r: Lists)
    requires NaiveWeakening(base, cube, cubes, cubeSize, 0, isEq, ignore, r)
    ensures !ignore(r)
  {
  }
}
