/** The linear-size translation of a ground formula to clauses. */
module Tseytin {
  import opened Collections
  import opened QuantEnum
  import opened Indexing
  import opened Guarded
  import opened Diagrams

  datatype Lit = Lit(var_: nat, pos: bool)
  type Clause = seq<Lit>
  type Cnf = seq<Clause>

  function T(v: nat): Lit { Lit(v, true) }

  function F(v: nat): Lit { Lit(v, false) }

  function Lits(vs: seq<nat>, pos: bool): (r: seq<Lit>)
    ensures |r| == |vs| && forall i | 0 <= i < |vs| :: r[i] == Lit(vs[i], pos)
  {
    seq(|vs|, i requires 0 <= i < |vs| => Lit(vs[i], pos))
  }

  predicate LitHolds(l: Lit, v: State) {
    Bit(v, l.var_) == l.pos
  }

  predicate ClauseHolds(c: Clause, v: State) {
    exists l | l in c :: LitHolds(l, v)
  }

  predicate CnfHolds(cnf: Cnf, v: State) {
    forall c | c in cnf :: ClauseHolds(c, v)
  }

  // The clauses of a formula, with the variable that stands for it and the next free variable.

  datatype Encoded = Encoded(root: nat, clauses: Cnf, next: nat)
  datatype EncodedAll = EncodedAll(roots: seq<nat>, clauses: Cnf, next: nat)

  function PairClauses(olds: seq<nat>, new_: nat, pos: bool): (r: Cnf)
    ensures |r| == |olds| && forall i | 0 <= i < |olds| :: r[i] == [Lit(olds[i], pos), Lit(new_, !pos)]
  {
    seq(|olds|, i requires 0 <= i < |olds| => [Lit(olds[i], pos), Lit(new_, !pos)])
  }

  /** The clauses that define a conjunction (`pos`) or a disjunction of variables. */
  function NAryClauses(olds: seq<nat>, new_: nat, pos: bool): Cnf {
    PairClauses(olds, new_, pos) + [Lits(olds, !pos) + [Lit(new_, pos)]]
  }

  function NotClauses(old_: nat, new_: nat): Cnf {
    [[T(old_), T(new_)], [F(old_), F(new_)]]
  }

  function EqClauses(a: nat, b: nat, c: nat): Cnf {
    [[F(a), F(b), T(c)], [F(a), T(b), F(c)], [T(a), F(b), F(c)], [T(a), T(b), T(c)]]
  }

  function Encode(e: Enumerated, ix: IndexMap, next: nat): (r: Encoded)
    ensures r.next >= next
    decreases e, 1
  {
    match e
    case EAnd(xs) =>
      var all := EncodeAll(xs, ix, next);
      Encoded(all.next, all.clauses + NAryClauses(all.roots, all.next, true), all.next + 1)
    case EOr(xs) =>
      var all := EncodeAll(xs, ix, next);
      Encoded(all.next, all.clauses + NAryClauses(all.roots, all.next, false), all.next + 1)
    case ENot(x) =>
      var sub := Encode(x, ix, next);
      Encoded(sub.next, sub.clauses + NotClauses(sub.root, sub.next), sub.next + 1)
    case EEq(x, y) =>
      var left := Encode(x, ix, next);
      var right := Encode(y, ix, left.next);
      Encoded(right.next, left.clauses + right.clauses + EqClauses(left.root, right.root, right.next), right.next + 1)
    case EApp(name, p, args) =>
      Encoded(match ix.Get(name, p, args) case Some(i) => i case None => 0, [], next)
  }

  function EncodeAll(es: seq<Enumerated>, ix: IndexMap, next: nat): (r: EncodedAll)
    ensures r.next >= next && |r.roots| == |es|
    decreases es, 0
  {
    if es == [] then EncodedAll([], [], next)
    else
      var first := Encode(es[0], ix, next);
      var rest := EncodeAll(es[1..], ix, first.next);
      EncodedAll([first.root] + rest.roots, first.clauses + rest.clauses, rest.next)
  }

  // What the new variables stand for.

  /** Every application has an index below `n`. */
  predicate LookupsBelow(e: Enumerated, ix: IndexMap, n: nat) {
    match e
    case EAnd(xs) => forall x | x in xs :: LookupsBelow(x, ix, n)
    case EOr(xs) => forall x | x in xs :: LookupsBelow(x, ix, n)
    case ENot(x) => LookupsBelow(x, ix, n)
    case EEq(x, y) => LookupsBelow(x, ix, n) && LookupsBelow(y, ix, n)
    case EApp(name, p, args) => ix.Get(name, p, args).Some? && ix.Get(name, p, args).value < n
  }

  /** The truth values of the subformulas, in the order in which they get variables. */
  function NewBits(e: Enumerated, ix: IndexMap, v: State): seq<bool>
    decreases e, 1
  {
    match e
    case EAnd(xs) => NewBitsAll(xs, ix, v) + [Accepts(e, ix, v)]
    case EOr(xs) => NewBitsAll(xs, ix, v) + [Accepts(e, ix, v)]
    case ENot(x) => NewBits(x, ix, v) + [Accepts(e, ix, v)]
    case EEq(x, y) => NewBits(x, ix, v) + NewBits(y, ix, v) + [Accepts(e, ix, v)]
    case EApp(_, _, _) => []
  }

  function NewBitsAll(es: seq<Enumerated>, ix: IndexMap, v: State): seq<bool>
    decreases es, 0
  {
    if es == [] then [] else NewBits(es[0], ix, v) + NewBitsAll(es[1..], ix, v)
  }

  lemma {:induction false} BitCount(e: Enumerated, ix: IndexMap, next: nat, v: State)
    ensures Encode(e, ix, next).next == next + |NewBits(e, ix, v)|
    decreases e, 1
  {
    match e
    case EAnd(xs) => BitCountAll(xs, ix, next, v);
    case EOr(xs) => BitCountAll(xs, ix, next, v);
    case ENot(x) => BitCount(x, ix, next, v);
    case EEq(x, y) => BitCount(x, ix, next, v); BitCount(y, ix, Encode(x, ix, next).next, v);
    case EApp(_, _, _) =>
  }

  lemma {:induction false} BitCountAll(es: seq<Enumerated>, ix: IndexMap, next: nat, v: State)
    ensures EncodeAll(es, ix, next).next == next + |NewBitsAll(es, ix, v)|
    decreases es, 0
  {
    if es != [] {
      BitCount(es[0], ix, next, v);
      BitCountAll(es[1..], ix, Encode(es[0], ix, next).next, v);
    }
  }

  /** The variables of `v` from `next` on have the values `bits`. */
  predicate Stretch(v: State, next: nat, bits: seq<bool>) {
    next + |bits| <= |v| && v[next..next + |bits|] == bits
  }

  lemma StretchAppend(v: State, next: nat, a: seq<bool>, b: seq<bool>)
    requires next + |a + b| <= |v|
    ensures Stretch(v, next, a + b) <==> Stretch(v, next, a) && Stretch(v, next + |a|, b)
  {
    if Stretch(v, next, a) && Stretch(v, next + |a|, b) {
      assert v[next..next + |a + b|] == v[next..next + |a|] + v[next + |a|..next + |a| + |b|];
    }
    if Stretch(v, next, a + b) {
      assert v[next..next + |a|] == v[next..next + |a + b|][..|a|];
      assert v[next + |a|..next + |a| + |b|] == v[next..next + |a + b|][|a|..];
    }
  }

  lemma CnfAppend(a: Cnf, b: Cnf, v: State)
    ensures CnfHolds(a + b, v) <==> CnfHolds(a, v) && CnfHolds(b, v)
  {
    hide ClauseHolds;
    assert forall c | c in a :: c in a + b;
    assert forall c | c in b :: c in a + b;
  }

  // Each group of clauses defines its new variable.

  lemma NotDefines(x: nat, c: nat, v: State)
    ensures CnfHolds(NotClauses(x, c), v) <==> Bit(v, c) == !Bit(v, x)
  {
    var c1, c2 := [T(x), T(c)], [F(x), F(c)];
    assert NotClauses(x, c) == [c1, c2];
    assert ClauseHolds(c1, v) <==> Bit(v, x) || Bit(v, c) by { TwoLits(T(x), T(c), v); }
    assert ClauseHolds(c2, v) <==> !Bit(v, x) || !Bit(v, c) by { TwoLits(F(x), F(c), v); }
    assert c1 in [c1, c2] && c2 in [c1, c2];
  }

  lemma TwoLits(a: Lit, b: Lit, v: State)
    ensures ClauseHolds([a, b], v) <==> LitHolds(a, v) || LitHolds(b, v)
  {
    assert a in [a, b] && b in [a, b];
  }

  lemma ThreeLits(a: Lit, b: Lit, c: Lit, v: State)
    ensures ClauseHolds([a, b, c], v) <==> LitHolds(a, v) || LitHolds(b, v) || LitHolds(c, v)
  {
    assert a in [a, b, c] && b in [a, b, c] && c in [a, b, c];
  }

  lemma EqDefines(a: nat, b: nat, c: nat, v: State)
    ensures CnfHolds(EqClauses(a, b, c), v) <==> (Bit(v, c) <==> (Bit(v, a) <==> Bit(v, b)))
  {
    var cs := EqClauses(a, b, c);
    ThreeLits(F(a), F(b), T(c), v);
    ThreeLits(F(a), T(b), F(c), v);
    ThreeLits(T(a), F(b), F(c), v);
    ThreeLits(T(a), T(b), T(c), v);
    hide ClauseHolds;
    assert cs[0] in cs && cs[1] in cs && cs[2] in cs && cs[3] in cs;
  }

  predicate AllBits(vs: seq<nat>, v: State, value: bool) {
    forall i | 0 <= i < |vs| :: Bit(v, vs[i]) == value
  }

  lemma NAryDefines(olds: seq<nat>, c: nat, pos: bool, v: State)
    ensures CnfHolds(NAryClauses(olds, c, pos), v) <==> (Bit(v, c) == pos <==> AllBits(olds, v, pos))
  {
    var pairs, long := PairClauses(olds, c, pos), Lits(olds, !pos) + [Lit(c, pos)];
    CnfAppend(pairs, [long], v);
    LongClause(olds, c, pos, v);
    forall i | 0 <= i < |olds| ensures ClauseHolds(pairs[i], v) <==> Bit(v, olds[i]) == pos || Bit(v, c) != pos {
      TwoLits(Lit(olds[i], pos), Lit(c, !pos), v);
    }
    hide ClauseHolds;
    assert forall i | 0 <= i < |olds| :: pairs[i] in pairs;
    assert CnfHolds(pairs, v) <==> forall i | 0 <= i < |olds| :: ClauseHolds(pairs[i], v);
    assert CnfHolds([long], v) <==> ClauseHolds(long, v) by { assert long in [long]; }
  }

  lemma LongClause(olds: seq<nat>, c: nat, pos: bool, v: State)
    ensures ClauseHolds(Lits(olds, !pos) + [Lit(c, pos)], v) <==> Bit(v, c) == pos || !AllBits(olds, v, pos)
  {
    var lits := Lits(olds, !pos);
    var long := lits + [Lit(c, pos)];
    assert forall i | 0 <= i < |olds| :: lits[i] in long;
    assert Lit(c, pos) in long;
    forall l | l in long && LitHolds(l, v) ensures Bit(v, c) == pos || !AllBits(olds, v, pos) {
      var i :| 0 <= i < |long| && long[i] == l;
      if i < |olds| { assert l == lits[i]; }
    }
    if !AllBits(olds, v, pos) {
      var i :| 0 <= i < |olds| && Bit(v, olds[i]) != pos;
      assert LitHolds(lits[i], v);
    }
  }

  // The new variables are forced, and their forced values satisfy the clauses.

  /** The root of a compound formula is its last new variable. */
  lemma RootShape(e: Enumerated, ix: IndexMap, next: nat, v: State)
    requires !e.EApp?
    ensures Encode(e, ix, next).root + 1 == Encode(e, ix, next).next
    ensures NewBits(e, ix, v) != [] && NewBits(e, ix, v)[|NewBits(e, ix, v)| - 1] == Accepts(e, ix, v)
  {
    hide Accepts, EncodeAll, NewBitsAll;
  }

  /** When the new variables have their values, the root has the value of the formula. */
  lemma RootValue(e: Enumerated, ix: IndexMap, next: nat, v: State)
    requires LookupsBelow(e, ix, next)
    requires Stretch(v, next, NewBits(e, ix, v))
    ensures Bit(v, Encode(e, ix, next).root) == Accepts(e, ix, v)
  {
    if e.EApp? {
      hide Accepts;
      AppAccepts(e, ix, v);
    } else {
      hide Accepts, NewBits, Encode;
      var bits := NewBits(e, ix, v);
      BitCount(e, ix, next, v);
      RootShape(e, ix, next, v);
      assert v[next..next + |bits|][|bits| - 1] == bits[|bits| - 1];
    }
  }

  lemma AppAccepts(e: Enumerated, ix: IndexMap, v: State)
    requires e.EApp? && ix.Get(e.name, e.primes, e.args).Some?
    ensures Accepts(e, ix, v) == Bit(v, ix.Get(e.name, e.primes, e.args).value)
  {
  }

  /** The definition clauses hold exactly when every new variable has the value of the
      subformula it stands for. */
  lemma {:induction false} EncodeExact(e: Enumerated, ix: IndexMap, next: nat, v: State)
    requires LookupsBelow(e, ix, next) && Encode(e, ix, next).next <= |v|
    ensures CnfHolds(Encode(e, ix, next).clauses, v) <==> Stretch(v, next, NewBits(e, ix, v))
    decreases e, 1
  {
    hide Accepts, ClauseHolds, Stretch, NAryClauses;
    BitCount(e, ix, next, v);
    match e
    case EAnd(xs) =>
      NAryExact(e, xs, true, ix, next, v);
    case EOr(xs) =>
      NAryExact(e, xs, false, ix, next, v);
    case ENot(x) =>
      var sub := Encode(x, ix, next);
      EncodeExact(x, ix, next, v);
      BitCount(x, ix, next, v);
      CnfAppend(sub.clauses, NotClauses(sub.root, sub.next), v);
      NotDefines(sub.root, sub.next, v);
      StretchAppend(v, next, NewBits(x, ix, v), [Accepts(e, ix, v)]);
      OneBit(v, sub.next, Accepts(e, ix, v));
      if Stretch(v, next, NewBits(x, ix, v)) {
        RootValue(x, ix, next, v);
        NotAccepts(x, ix, v);
      }
    case EEq(x, y) => EqExact(x, y, ix, next, v);
    case EApp(_, _, _) => EmptyStretch(v, next);
  }

  lemma EmptyStretch(v: State, next: nat)
    requires next <= |v|
    ensures CnfHolds([], v) && Stretch(v, next, [])
  {
  }

  lemma NotAccepts(x: Enumerated, ix: IndexMap, v: State)
    ensures Accepts(ENot(x), ix, v) == !Accepts(x, ix, v)
  {
  }

  lemma EqAccepts(x: Enumerated, y: Enumerated, ix: IndexMap, v: State)
    ensures Accepts(EEq(x, y), ix, v) == (Accepts(x, ix, v) == Accepts(y, ix, v))
  {
  }

  lemma NAryAccepts(xs: seq<Enumerated>, ix: IndexMap, v: State)
    ensures Accepts(EAnd(xs), ix, v) <==> forall i | 0 <= i < |xs| :: Accepts(xs[i], ix, v)
    ensures !Accepts(EOr(xs), ix, v) <==> forall i | 0 <= i < |xs| :: !Accepts(xs[i], ix, v)
  {
    assert forall i | 0 <= i < |xs| :: xs[i] in xs;
  }

  lemma OneBit(v: State, i: nat, b: bool)
    requires i < |v|
    ensures Stretch(v, i, [b]) <==> Bit(v, i) == b
  {
    assert v[i..i + 1] == [v[i]];
  }

  /** The clauses of an equality: those of the two sides and the four that define its value. */
  lemma EqClausesHold(x: Enumerated, y: Enumerated, ix: IndexMap, next: nat, v: State)
    ensures var left := Encode(x, ix, next); var right := Encode(y, ix, left.next);
            CnfHolds(Encode(EEq(x, y), ix, next).clauses, v)
            <==> CnfHolds(left.clauses, v) && CnfHolds(right.clauses, v) && (Bit(v, right.next) <==> Bit(v, left.root) == Bit(v, right.root))
  {
    hide ClauseHolds, EqClauses;
    var left := Encode(x, ix, next);
    var right := Encode(y, ix, left.next);
    CnfAppend(left.clauses, right.clauses, v);
    CnfAppend(left.clauses + right.clauses, EqClauses(left.root, right.root, right.next), v);
    EqDefines(left.root, right.root, right.next, v);
  }

  lemma EqUnfolds(x: Enumerated, y: Enumerated, ix: IndexMap, next: nat, v: State)
    ensures var left := Encode(x, ix, next); var right := Encode(y, ix, left.next);
            Encode(EEq(x, y), ix, next).next == right.next + 1
    ensures NewBits(EEq(x, y), ix, v) == NewBits(x, ix, v) + NewBits(y, ix, v) + [Accepts(EEq(x, y), ix, v)]
  {
    hide Accepts;
  }

  lemma ThreeStretches(v: State, next: nat, a: seq<bool>, b: seq<bool>, c: bool)
    requires next + |a| + |b| < |v|
    ensures Stretch(v, next, a + b + [c]) <==> Stretch(v, next, a) && Stretch(v, next + |a|, b) && Bit(v, next + |a| + |b|) == c
  {
    hide Stretch;
    StretchAppend(v, next, a, b);
    StretchAppend(v, next, a + b, [c]);
    OneBit(v, next + |a| + |b|, c);
  }

  /** The new bits of an equality: those of the two sides and its value. */
  lemma EqStretch(x: Enumerated, y: Enumerated, ix: IndexMap, next: nat, v: State)
    requires Encode(EEq(x, y), ix, next).next <= |v|
    ensures var left := Encode(x, ix, next); var right := Encode(y, ix, left.next);
            left.next <= right.next < |v|
            && (Stretch(v, next, NewBits(EEq(x, y), ix, v))
                <==> Stretch(v, next, NewBits(x, ix, v)) && Stretch(v, left.next, NewBits(y, ix, v))
                     && Bit(v, right.next) == (Accepts(x, ix, v) == Accepts(y, ix, v)))
  {
    hide *;
    var left := Encode(x, ix, next);
    EqUnfolds(x, y, ix, next, v);
    BitCount(x, ix, next, v);
    BitCount(y, ix, left.next, v);
    ThreeStretches(v, next, NewBits(x, ix, v), NewBits(y, ix, v), Accepts(EEq(x, y), ix, v));
    EqAccepts(x, y, ix, v);
  }

  lemma {:induction false} EqExact(x: Enumerated, y: Enumerated, ix: IndexMap, next: nat, v: State)
    requires LookupsBelow(EEq(x, y), ix, next) && Encode(EEq(x, y), ix, next).next <= |v|
    ensures CnfHolds(Encode(EEq(x, y), ix, next).clauses, v) <==> Stretch(v, next, NewBits(EEq(x, y), ix, v))
    decreases EEq(x, y), 0
  {
    hide Accepts, CnfHolds, Stretch, EqClauses, LookupsBelow, Encode, NewBits;
    var left := Encode(x, ix, next);
    var right := Encode(y, ix, left.next);
    EqClausesHold(x, y, ix, next, v);
    EqStretch(x, y, ix, next, v);
    EqLookups(x, y, ix, next, left.next);
    EncodeExact(x, ix, next, v);
    EncodeExact(y, ix, left.next, v);
    if Stretch(v, next, NewBits(x, ix, v)) && Stretch(v, left.next, NewBits(y, ix, v)) {
      RootValue(x, ix, next, v);
      RootValue(y, ix, left.next, v);
    }
  }

  lemma EqLookups(x: Enumerated, y: Enumerated, ix: IndexMap, n: nat, m: nat)
    requires LookupsBelow(EEq(x, y), ix, n) && n <= m
    ensures LookupsBelow(x, ix, n) && LookupsBelow(y, ix, m)
  {
    LookupsMono(y, ix, n, m);
  }

  lemma {:induction false} LookupsMono(e: Enumerated, ix: IndexMap, n: nat, m: nat)
    requires LookupsBelow(e, ix, n) && n <= m
    ensures LookupsBelow(e, ix, m)
    decreases e
  {
    match e
    case EAnd(xs) => forall x | x in xs { LookupsMono(x, ix, n, m); }
    case EOr(xs) => forall x | x in xs { LookupsMono(x, ix, n, m); }
    case ENot(x) => LookupsMono(x, ix, n, m);
    case EEq(x, y) => LookupsMono(x, ix, n, m); LookupsMono(y, ix, n, m);
    case EApp(_, _, _) =>
  }

  /** The roots of a list have the values of its formulas. */
  ghost predicate RootsMatch(es: seq<Enumerated>, roots: seq<nat>, ix: IndexMap, v: State) {
    |roots| == |es| && forall i | 0 <= i < |es| :: Bit(v, roots[i]) == Accepts(es[i], ix, v)
  }

  lemma {:induction false} EncodeAllExact(es: seq<Enumerated>, ix: IndexMap, next: nat, v: State)
    requires forall x | x in es :: LookupsBelow(x, ix, next)
    requires EncodeAll(es, ix, next).next <= |v|
    ensures CnfHolds(EncodeAll(es, ix, next).clauses, v) <==> Stretch(v, next, NewBitsAll(es, ix, v))
    ensures Stretch(v, next, NewBitsAll(es, ix, v)) ==> RootsMatch(es, EncodeAll(es, ix, next).roots, ix, v)
    decreases es, 0
  {
    hide Accepts, ClauseHolds, Stretch, LookupsBelow;
    BitCountAll(es, ix, next, v);
    if es == [] {
      EmptyStretch(v, next);
    } else {
      var first := Encode(es[0], ix, next);
      var rest := EncodeAll(es[1..], ix, first.next);
      assert es[0] in es;
      forall x | x in es[1..] ensures LookupsBelow(x, ix, first.next) {
        assert x in es;
        LookupsMono(x, ix, next, first.next);
      }
      EncodeExact(es[0], ix, next, v);
      EncodeAllExact(es[1..], ix, first.next, v);
      BitCount(es[0], ix, next, v);
      CnfAppend(first.clauses, rest.clauses, v);
      var l, r := NewBits(es[0], ix, v), NewBitsAll(es[1..], ix, v);
      StretchAppend(v, next, l, r);
      if Stretch(v, next, l) && Stretch(v, first.next, r) {
        RootValue(es[0], ix, next, v);
      }
    }
  }

  lemma {:induction false} NAryExact(e: Enumerated, xs: seq<Enumerated>, pos: bool, ix: IndexMap, next: nat, v: State)
    requires e == (if pos then EAnd(xs) else EOr(xs))
    requires LookupsBelow(e, ix, next) && Encode(e, ix, next).next <= |v|
    ensures CnfHolds(Encode(e, ix, next).clauses, v) <==> Stretch(v, next, NewBits(e, ix, v))
    decreases e, 0
  {
    var all := EncodeAll(xs, ix, next);
    var bits, value := NewBitsAll(xs, ix, v), Accepts(e, ix, v);
    hide Accepts, ClauseHolds, Stretch, NAryClauses, LookupsBelow, Encode, EncodeAll, NewBits, NewBitsAll;
    NAryUnfold(e, xs, pos, ix, next, v);
    EncodeAllExact(xs, ix, next, v);
    BitCountAll(xs, ix, next, v);
    CnfAppend(all.clauses, NAryClauses(all.roots, all.next, pos), v);
    NAryDefines(all.roots, all.next, pos, v);
    StretchAppend(v, next, bits, [value]);
    OneBit(v, all.next, value);
    NAryAccepts(xs, ix, v);
  }

  lemma NAryUnfold(e: Enumerated, xs: seq<Enumerated>, pos: bool, ix: IndexMap, next: nat, v: State)
    requires e == (if pos then EAnd(xs) else EOr(xs)) && LookupsBelow(e, ix, next)
    ensures var all := EncodeAll(xs, ix, next);
            Encode(e, ix, next) == Encoded(all.next, all.clauses + NAryClauses(all.roots, all.next, pos), all.next + 1)
    ensures NewBits(e, ix, v) == NewBitsAll(xs, ix, v) + [Accepts(e, ix, v)]
    ensures forall x | x in xs :: LookupsBelow(x, ix, next)
  {
    hide Accepts, EncodeAll, NewBitsAll, NAryClauses;
  }

  /** The value of a formula does not depend on the new variables. */
  lemma {:induction false} AcceptsPrefix(e: Enumerated, ix: IndexMap, n: nat, v: State)
    requires LookupsBelow(e, ix, n) && n <= |v|
    ensures Accepts(e, ix, v) == Accepts(e, ix, v[..n])
    decreases e
  {
    match e
    case EAnd(xs) => forall x | x in xs { AcceptsPrefix(x, ix, n, v); }
    case EOr(xs) => forall x | x in xs { AcceptsPrefix(x, ix, n, v); }
    case ENot(x) => AcceptsPrefix(x, ix, n, v);
    case EEq(x, y) => AcceptsPrefix(x, ix, n, v); AcceptsPrefix(y, ix, n, v);
    case EApp(_, _, _) =>
  }

  lemma {:induction false} NewBitsPrefix(e: Enumerated, ix: IndexMap, n: nat, v: State)
    requires LookupsBelow(e, ix, n) && n <= |v|
    ensures NewBits(e, ix, v) == NewBits(e, ix, v[..n])
    decreases e, 1
  {
    hide Accepts;
    AcceptsPrefix(e, ix, n, v);
    match e
    case EAnd(xs) => NewBitsAllPrefix(xs, ix, n, v);
    case EOr(xs) => NewBitsAllPrefix(xs, ix, n, v);
    case ENot(x) => NewBitsPrefix(x, ix, n, v);
    case EEq(x, y) => NewBitsPrefix(x, ix, n, v); NewBitsPrefix(y, ix, n, v);
    case EApp(_, _, _) =>
  }

  lemma {:induction false} NewBitsAllPrefix(es: seq<Enumerated>, ix: IndexMap, n: nat, v: State)
    requires n <= |v| && forall x | x in es :: LookupsBelow(x, ix, n)
    ensures NewBitsAll(es, ix, v) == NewBitsAll(es, ix, v[..n])
    decreases es, 0
  {
    if es != [] {
      NewBitsPrefix(es[0], ix, n, v);
      NewBitsAllPrefix(es[1..], ix, n, v);
    }
  }

  function TseytinCnf(e: Enumerated, ix: IndexMap, next: nat): Cnf {
    var r := Encode(e, ix, next);
    r.clauses + [[T(r.root)]]
  }

  /** A valuation of the old variables extends to one that satisfies the clauses exactly when
      the formula accepts it, and then in exactly one way. */
  lemma TseytinExact(e: Enumerated, ix: IndexMap, next: nat, v: State)
    requires LookupsBelow(e, ix, next) && |v| == Encode(e, ix, next).next
    ensures CnfHolds(TseytinCnf(e, ix, next), v)
      <==> Accepts(e, ix, v[..next]) && v == v[..next] + NewBits(e, ix, v[..next])
  {
    hide Accepts, NewBits, Encode, ClauseHolds;
    var r := Encode(e, ix, next);
    CnfAppend(r.clauses, [[T(r.root)]], v);
    EncodeExact(e, ix, next, v);
    BitCount(e, ix, next, v);
    AcceptsPrefix(e, ix, next, v);
    NewBitsPrefix(e, ix, next, v);
    UnitClause(r.root, v);
    if Stretch(v, next, NewBits(e, ix, v)) { RootValue(e, ix, next, v); }
    assert v == v[..next] + v[next..];
  }

  lemma UnitClause(x: nat, v: State)
    ensures CnfHolds([[T(x)]], v) <==> Bit(v, x)
  {
    assert [T(x)] in [[T(x)]] && T(x) in [T(x)];
  }

  // The imperative translation.

  /** The clauses produced so far. */
  class Output {
    var clauses: Cnf

    constructor ()
      ensures clauses == []
    {
      clauses := [];
    }

    method Push(c: Clause)
      modifies this
      ensures clauses == old(clauses) + [c]
    {
      clauses := clauses + [c];
    }
  }

  /** Push the clauses of a formula and return the variable that stands for it. */
  method Inner(e: Enumerated, indices: Indices, out: Output) returns (v: nat)
    requires LookupsBelow(e, indices.ix, indices.numVars)
    modifies indices`numVars, out
    ensures var r := Encode(e, indices.ix, old(indices.numVars));
            v == r.root && indices.numVars == r.next && out.clauses == old(out.clauses) + r.clauses
    decreases e, 1
  {
    hide LookupsBelow, NAryClauses, NotClauses, EqClauses, EncodeAll;
    InnerLookups(e, indices.ix, indices.numVars);
    match e {
      case EAnd(xs) =>
        var olds := InnerAll(xs, indices, out);
        v := indices.Var();
        PushNAry(olds, v, true, out);
      case EOr(xs) =>
        var olds := InnerAll(xs, indices, out);
        v := indices.Var();
        PushNAry(olds, v, false, out);
      case ENot(x) =>
        var old_ := Inner(x, indices, out);
        v := indices.Var();
        PushAll(NotClauses(old_, v), out);
      case EEq(x, y) =>
        ghost var before := indices.numVars;
        var a := Inner(x, indices, out);
        LookupsMono(y, indices.ix, before, indices.numVars);
        var b := Inner(y, indices, out);
        v := indices.Var();
        PushAll(EqClauses(a, b, v), out);
      case EApp(name, p, args) =>
        v := indices.ix.Get(name, p, args).value;
    }
  }

  lemma InnerLookups(e: Enumerated, ix: IndexMap, n: nat)
    requires LookupsBelow(e, ix, n)
    ensures e.EAnd? ==> forall x | x in e.terms :: LookupsBelow(x, ix, n)
    ensures e.EOr? ==> forall x | x in e.terms :: LookupsBelow(x, ix, n)
    ensures e.ENot? ==> LookupsBelow(e.term, ix, n)
    ensures e.EEq? ==> LookupsBelow(e.lhs, ix, n) && LookupsBelow(e.rhs, ix, n)
    ensures e.EApp? ==> ix.Get(e.name, e.primes, e.args).Some?
  {
  }

  method InnerAll(es: seq<Enumerated>, indices: Indices, out: Output) returns (vs: seq<nat>)
    requires forall x | x in es :: LookupsBelow(x, indices.ix, indices.numVars)
    modifies indices`numVars, out
    ensures var r := EncodeAll(es, indices.ix, old(indices.numVars));
            vs == r.roots && indices.numVars == r.next && out.clauses == old(out.clauses) + r.clauses
    decreases es, 0
  {
    hide LookupsBelow;
    if es == [] { return []; }
    ghost var before := indices.numVars;
    var first := Inner(es[0], indices, out);
    forall x | x in es[1..] ensures LookupsBelow(x, indices.ix, indices.numVars) {
      LookupsMono(x, indices.ix, before, indices.numVars);
    }
    var rest := InnerAll(es[1..], indices, out);
    vs := [first] + rest;
  }

  method PushAll(clauses: Cnf, out: Output)
    modifies out
    ensures out.clauses == old(out.clauses) + clauses
  {
    var i := 0;
    while i < |clauses|
      invariant i <= |clauses| && out.clauses == old(out.clauses) + clauses[..i]
    {
      out.Push(clauses[i]);
      i := i + 1;
    }
  }

  method PushNAry(olds: seq<nat>, new_: nat, pos: bool, out: Output)
    modifies out
    ensures out.clauses == old(out.clauses) + NAryClauses(olds, new_, pos)
  {
    var i := 0;
    while i < |olds|
      invariant i <= |olds|
      invariant out.clauses == old(out.clauses) + PairClauses(olds, new_, pos)[..i]
    {
      out.Push([Lit(olds[i], pos), Lit(new_, !pos)]);
      i := i + 1;
    }
    out.Push(Lits(olds, !pos) + [Lit(new_, pos)]);
  }

  /** The clauses of a formula, with its root asserted. */
  method TranslateToCnf(e: Enumerated, indices: Indices) returns (cnf: Cnf)
    requires LookupsBelow(e, indices.ix, indices.numVars)
    modifies indices`numVars
    ensures cnf == TseytinCnf(e, indices.ix, old(indices.numVars))
    ensures indices.numVars == Encode(e, indices.ix, old(indices.numVars)).next
  {
    var out := new Output();
    var v := Inner(e, indices, out);
    out.Push([T(v)]);
    cnf := out.clauses;
  }
}
