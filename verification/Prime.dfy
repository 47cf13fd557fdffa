/** Pushing primes inwards to the symbols, and how far into the future a term looks. */
module Primes {
  import opened Collections
  import opened Syntax
  import opened Semantics

  /** Wrap `t` in `n` primes. */
  function WithPrimes(t: Term, n: nat): Term {
    if n == 0 then t else UnaryOp(Prime, WithPrimes(t, n - 1))
  }

  /** Push every prime of `t` inwards, adding `next` primes at the bottom.  Names in
      `bound` and immutable symbols are not primed. */
  function WithNext(sig: Signature, t: Term, bound: set<string>, next: nat): Term
    decreases t, 1
  {
    match t
    case UnaryOp(op, x) =>
      if op == Prime then WithNext(sig, x, bound, next + 1)
      else UnaryOp(op, WithNext(sig, x, bound, next))
    case Id(s) => WithPrimes(t, if s in bound || IsImmutable(sig, s) then 0 else next)
    case App(f, p, args) =>
      App(f, if IsImmutable(sig, f) then 0 else p + next, WithNextAll(sig, args, bound, next))
    case Literal(_) => t
    case BinOp(op, x, y) => BinOp(op, WithNext(sig, x, bound, next), WithNext(sig, y, bound, next))
    case NAryOp(op, args) => NAryOp(op, WithNextAll(sig, args, bound, next))
    case Ite(c, x, y) =>
      Ite(WithNext(sig, c, bound, next), WithNext(sig, x, bound, next), WithNext(sig, y, bound, next))
    case Quantified(q, binders, body) =>
      Quantified(q, binders, WithNext(sig, body, bound + BinderNames(binders), next))
  }

  function WithNextAll(sig: Signature, args: seq<Term>, bound: set<string>, next: nat): (r: seq<Term>)
    ensures |r| == |args|
    ensures forall i | 0 <= i < |args| :: r[i] == WithNext(sig, args[i], bound, next)
    decreases args, 0
  {
    seq(|args|, i requires 0 <= i < |args| => WithNext(sig, args[i], bound, next))
  }

  function Normalize(sig: Signature, t: Term): Term {
    WithNext(sig, t, {}, 0)
  }

  /** Prime a whole term and normalize the result. */
  function PrimeTerm(sig: Signature, t: Term): Term {
    Normalize(sig, UnaryOp(Prime, t))
  }

  /** No past operator stands below one of `next` primes outside or a prime in the term. */
  predicate PastUnprimed(t: Term, next: nat) {
    match t
    case Literal(_) => true
    case Id(_) => true
    case App(_, _, args) => forall i | 0 <= i < |args| :: PastUnprimed(args[i], next)
    case UnaryOp(op, x) =>
      (op == Previous ==> next == 0) && PastUnprimed(x, if op == Prime then next + 1 else next)
    case BinOp(op, x, y) => (op == Since ==> next == 0) && PastUnprimed(x, next) && PastUnprimed(y, next)
    case NAryOp(_, args) => forall i | 0 <= i < |args| :: PastUnprimed(args[i], next)
    case Ite(c, x, y) => PastUnprimed(c, next) && PastUnprimed(x, next) && PastUnprimed(y, next)
    case Quantified(_, _, body) => PastUnprimed(body, next)
  }

  lemma {:induction false} FuturePastUnprimed(t: Term, next: nat)
    requires FutureOnly(t)
    ensures PastUnprimed(t, next)
    decreases t
  {
    match t
    case Literal(_) =>
    case Id(_) =>
    case App(_, _, args) => forall i | 0 <= i < |args| { FuturePastUnprimed(args[i], next); }
    case UnaryOp(op, x) => FuturePastUnprimed(x, if op == Prime then next + 1 else next);
    case BinOp(_, x, y) => FuturePastUnprimed(x, next); FuturePastUnprimed(y, next);
    case NAryOp(_, args) => forall i | 0 <= i < |args| { FuturePastUnprimed(args[i], next); }
    case Ite(c, x, y) => FuturePastUnprimed(c, next); FuturePastUnprimed(x, next); FuturePastUnprimed(y, next);
    case Quantified(_, _, body) => FuturePastUnprimed(body, next);
  }

  lemma {:induction false} WithPrimesEval(t: Term, n: nat, tr: Trace, k: nat, asg: Assignment)
    ensures Eval(WithPrimes(t, n), tr, k, asg) == Eval(t, tr, k + n, asg)
  {
    if n > 0 { WithPrimesEval(t, n - 1, tr, k + 1, asg); }
  }

  /** Shifting time by `next` is the same as adding `next` primes at the symbols. */
  lemma {:induction false} WithNextSound(sig: Signature, t: Term, bound: set<string>, next: nat,
                                         tr: Trace, k: nat, asg: Assignment)
    requires PastUnprimed(t, next) && ConstantImmutables(sig, tr) && bound <= asg.Keys
    ensures Eval(WithNext(sig, t, bound, next), tr, k, asg) == Eval(t, tr, k + next, asg)
    decreases t, 1
  {
    match t
    case Literal(_) =>
    case Id(s) =>
      WithPrimesEval(t, if s in bound || IsImmutable(sig, s) then 0 else next, tr, k, asg);
    case App(f, p, args) =>
      WithNextAllSound(sig, args, bound, next, tr, k, asg);
    case UnaryOp(op, x) =>
      if op == Prime {
        WithNextSound(sig, x, bound, next + 1, tr, k, asg);
      } else {
        WithNextSoundAlways(sig, x, bound, next, tr, asg);
        UnaryShift(op, WithNext(sig, x, bound, next), tr, asg, x, tr, asg, next, k);
      }
    case BinOp(op, x, y) =>
      WithNextSoundAlways(sig, x, bound, next, tr, asg);
      WithNextSoundAlways(sig, y, bound, next, tr, asg);
      BinaryShift(op, WithNext(sig, x, bound, next), WithNext(sig, y, bound, next), tr, asg, x, y, tr, asg, next, k);
    case NAryOp(op, args) =>
      WithNextAllSound(sig, args, bound, next, tr, k, asg);
    case Ite(c, x, y) =>
      WithNextSound(sig, c, bound, next, tr, k, asg);
      WithNextSound(sig, x, bound, next, tr, k, asg);
      WithNextSound(sig, y, bound, next, tr, k, asg);
    case Quantified(q, binders, body) =>
      WithNextQuantified(sig, q, binders, body, bound, next, tr, k, asg);
  }

  lemma {:induction false} WithNextSoundAlways(sig: Signature, t: Term, bound: set<string>, next: nat,
                                               tr: Trace, asg: Assignment)
    requires PastUnprimed(t, next) && ConstantImmutables(sig, tr) && bound <= asg.Keys
    ensures Shifted(WithNext(sig, t, bound, next), tr, asg, t, tr, asg, next)
    decreases t, 2
  {
    forall j: nat ensures Eval(WithNext(sig, t, bound, next), tr, j, asg) == Eval(t, tr, j + next, asg) {
      WithNextSound(sig, t, bound, next, tr, j, asg);
    }
  }

  lemma {:induction false} WithNextQuantified(sig: Signature, q: Quantifier, binders: seq<Binder>, body: Term,
                                              bound: set<string>, next: nat, tr: Trace, k: nat, asg: Assignment)
    requires PastUnprimed(body, next) && ConstantImmutables(sig, tr) && bound <= asg.Keys
    ensures Eval(WithNext(sig, Quantified(q, binders, body), bound, next), tr, k, asg)
         == Eval(Quantified(q, binders, body), tr, k + next, asg)
    decreases body, 3
  {
    hide Eval, EvalQuantified;
    var inner := bound + BinderNames(binders);
    var body' := WithNext(sig, body, inner, next);
    forall es | InShape(es, Shape(tr.universe, binders))
      ensures Eval(body', tr, k, Bind(asg, binders, es)) == Eval(body, tr, k + next, Bind(asg, binders, es))
    {
      WithNextSound(sig, body, inner, next, tr, k, Bind(asg, binders, es));
    }
    QuantifiedCong(q, binders, body', tr, k, asg, body, tr, k + next, asg);
  }

  lemma {:induction false} WithNextAllSound(sig: Signature, ts: seq<Term>, bound: set<string>, next: nat,
                                            tr: Trace, k: nat, asg: Assignment)
    requires ConstantImmutables(sig, tr) && bound <= asg.Keys
    requires forall i | 0 <= i < |ts| :: PastUnprimed(ts[i], next)
    ensures EvalAll(WithNextAll(sig, ts, bound, next), tr, k, asg) == EvalAll(ts, tr, k + next, asg)
    decreases ts
  {
    forall i | 0 <= i < |ts|
      ensures Eval(WithNextAll(sig, ts, bound, next)[i], tr, k, asg) == Eval(ts[i], tr, k + next, asg)
    {
      WithNextSound(sig, ts[i], bound, next, tr, k, asg);
    }
  }

  /** Normalizing a term without past operators below a prime keeps its value at every time of every
      trace whose immutable symbols are constant. */
  lemma NormalizeSound(sig: Signature, t: Term, tr: Trace, k: nat, asg: Assignment)
    requires PastUnprimed(t, 0) && ConstantImmutables(sig, tr)
    ensures Eval(Normalize(sig, t), tr, k, asg) == Eval(t, tr, k, asg)
  {
    hide Eval;
    WithNextSound(sig, t, {}, 0, tr, k, asg);
  }

  /** Priming a term without past operators at all evaluates it one state later. */
  lemma PrimeTermSound(sig: Signature, t: Term, tr: Trace, k: nat, asg: Assignment)
    requires PastUnprimed(t, 1) && ConstantImmutables(sig, tr)
    ensures Eval(PrimeTerm(sig, t), tr, k, asg) == Eval(t, tr, k + 1, asg)
  {
    hide Eval;
    WithNextSound(sig, t, {}, 1, tr, k, asg);
    assert PrimeTerm(sig, t) == WithNext(sig, t, {}, 1);
  }

  /** With `previous` below primes the value is lost exactly at time 0, where the state just before the
      primes are over satisfies the operand. */
  lemma PreviousBelowPrimes(sig: Signature, x: Term, n: nat, tr: Trace, k: nat, asg: Assignment)
    requires n > 0 && PastUnprimed(x, n) && ConstantImmutables(sig, tr)
    ensures Eval(WithNext(sig, UnaryOp(Previous, x), {}, n), tr, k, asg) != Eval(UnaryOp(Previous, x), tr, k + n, asg)
      <==> k == 0 && Eval(x, tr, n - 1, asg) == 1
  {
    hide WithNext;
    var x' := WithNext(sig, x, {}, n);
    assert WithNext(sig, UnaryOp(Previous, x), {}, n) == UnaryOp(Previous, x') by { PreviousInside(sig, x, n); }
    if k > 0 { WithNextSound(sig, x, {}, n, tr, k - 1, asg); }
  }

  lemma PreviousInside(sig: Signature, x: Term, n: nat)
    ensures WithNext(sig, UnaryOp(Previous, x), {}, n) == UnaryOp(Previous, WithNext(sig, x, {}, n))
  {
  }

  lemma SinceInside(sig: Signature, x: Term, y: Term, n: nat)
    ensures WithNext(sig, BinOp(Since, x, y), {}, n) == BinOp(Since, WithNext(sig, x, {}, n), WithNext(sig, y, {}, n))
  {
  }

  /** Where the second operand was true and the first has been since, from a time on. */
  ghost predicate SinceFrom(x: Term, y: Term, tr: Trace, k: nat, from: nat, asg: Assignment) {
    exists j: nat :: NotBefore(from, j) && NotBefore(j, k) && SinceAt(x, y, tr, k, j, asg)
  }

  /** With `since` below primes the value is lost exactly where the second operand held among the first
      `n` states only. */
  lemma SinceBelowPrimes(sig: Signature, x: Term, y: Term, n: nat, tr: Trace, k: nat, asg: Assignment)
    requires PastUnprimed(x, n) && PastUnprimed(y, n) && ConstantImmutables(sig, tr)
    ensures Eval(WithNext(sig, BinOp(Since, x, y), {}, n), tr, k, asg) != Eval(BinOp(Since, x, y), tr, k + n, asg)
      <==> SomeSince(x, y, tr, k + n, asg) && !SinceFrom(x, y, tr, k + n, n, asg)
  {
    hide WithNext, PastUnprimed;
    var x', y' := WithNext(sig, x, {}, n), WithNext(sig, y, {}, n);
    assert WithNext(sig, BinOp(Since, x, y), {}, n) == BinOp(Since, x', y') by { SinceInside(sig, x, y, n); }
    WithNextSoundAlways(sig, x, {}, n, tr, asg);
    WithNextSoundAlways(sig, y, {}, n, tr, asg);
    SinceShifted(x', y', x, y, tr, asg, n, k);
    if SinceFrom(x, y, tr, k + n, n, asg) { SinceFromStart(x, y, tr, k + n, asg); }
  }

  lemma SinceShifted(x': Term, y': Term, x: Term, y: Term, tr: Trace, asg: Assignment, n: nat, k: nat)
    requires Shifted(x', tr, asg, x, tr, asg, n) && Shifted(y', tr, asg, y, tr, asg, n)
    ensures SomeSince(x', y', tr, k, asg) <==> SinceFrom(x, y, tr, k + n, n, asg)
  {
    hide *;
    if SomeSince(x', y', tr, k, asg) {
      var j := SinceWitness(x', y', tr, k, asg);
      SinceAtShifted(x', y', x, y, tr, asg, n, k, j);
      SinceFromAt(x, y, tr, k + n, n, j + n, asg);
    } else if SinceFrom(x, y, tr, k + n, n, asg) {
      var i := SinceFromWitness(x, y, tr, k + n, n, asg);
      SinceAtShifted(x', y', x, y, tr, asg, n, k, i - n);
      SinceFromAt(x', y', tr, k, 0, i - n, asg);
      SinceFromStart(x', y', tr, k, asg);
    }
  }

  lemma SinceWitness(x: Term, y: Term, tr: Trace, k: nat, asg: Assignment) returns (j: nat)
    requires SomeSince(x, y, tr, k, asg)
    ensures j <= k && SinceAt(x, y, tr, k, j, asg)
  {
    hide Eval, SinceAt;
    j :| NotBefore(j, k) && SinceAt(x, y, tr, k, j, asg);
  }

  lemma SinceFromWitness(x: Term, y: Term, tr: Trace, k: nat, from: nat, asg: Assignment) returns (j: nat)
    requires SinceFrom(x, y, tr, k, from, asg)
    ensures from <= j <= k && SinceAt(x, y, tr, k, j, asg)
  {
    hide Eval, SinceAt;
    j :| NotBefore(from, j) && NotBefore(j, k) && SinceAt(x, y, tr, k, j, asg);
  }

  lemma SinceFromAt(x: Term, y: Term, tr: Trace, k: nat, from: nat, j: nat, asg: Assignment)
    requires from <= j <= k && SinceAt(x, y, tr, k, j, asg)
    ensures SinceFrom(x, y, tr, k, from, asg)
  {
    hide Eval, SinceAt;
    assert NotBefore(from, j) && NotBefore(j, k);
  }

  lemma SinceFromStart(x: Term, y: Term, tr: Trace, k: nat, asg: Assignment)
    requires exists from: nat :: SinceFrom(x, y, tr, k, from, asg)
    ensures SomeSince(x, y, tr, k, asg)
  {
    hide Eval, SinceAt;
  }

  lemma SinceAtShifted(x': Term, y': Term, x: Term, y: Term, tr: Trace, asg: Assignment, n: nat, k: nat, j: nat)
    requires Shifted(x', tr, asg, x, tr, asg, n) && Shifted(y', tr, asg, y, tr, asg, n)
    ensures SinceAt(x', y', tr, k, j, asg) <==> SinceAt(x, y, tr, k + n, j + n, asg)
  {
    hide Eval;
    forall i: nat | j + n < i ensures Eval(x, tr, i, asg) == Eval(x', tr, i - n, asg) {}
  }

  /** Below a prime a past operator makes normalization wrong, over a declared mutable symbol: `(previous p)'`
      has the value of `p`, and its normal form `previous (p')` is false at time 0. */
  lemma NormalizeUnsoundOnPast(tr: Trace)
    requires tr.at(0)("p", []) == 1
    ensures var sig := Signature([], [RelationDecl(true, "p", [], Bool)]); var t := UnaryOp(Prime, UnaryOp(Previous, Id("p")));
            ConstantImmutables(sig, tr) && Eval(t, tr, 0, map[]) == 1 && Eval(Normalize(sig, t), tr, 0, map[]) == 0
  {
    var p, sig := Id("p"), Signature([], [RelationDecl(true, "p", [], Bool)]);
    forall name ensures !IsImmutable(sig, name) { OnlyMutable(name); }
    PreviousBelowPrimes(sig, p, 1, tr, 0, map[]);
    assert Normalize(sig, UnaryOp(Prime, UnaryOp(Previous, p))) == WithNext(sig, UnaryOp(Previous, p), {}, 1);
    assert Eval(UnaryOp(Prime, UnaryOp(Previous, p)), tr, 0, map[]) == Eval(UnaryOp(Previous, p), tr, 1, map[]) == 1;
    PreviousInside(sig, p, 1);
  }

  lemma OnlyMutable(name: string)
    ensures !IsImmutable(Signature([], [RelationDecl(true, "p", [], Bool)]), name)
  {
    var relations := [RelationDecl(true, "p", [], Bool)];
    assert relations[1..] == [];
    assert FindDecl(relations, TrimPrimes(name)).Some? ==> FindDecl(relations, TrimPrimes(name)).value in relations;
  }

  /** Primes are left only on symbols that are neither bound nor immutable. */
  predicate PrimesAtSymbols(sig: Signature, t: Term, bound: set<string>) {
    match t
    case Literal(_) => true
    case Id(_) => true
    case App(f, p, args) =>
      && (IsImmutable(sig, f) ==> p == 0)
      && forall i | 0 <= i < |args| :: PrimesAtSymbols(sig, args[i], bound)
    case UnaryOp(op, x) => if op == Prime then PrimedId(sig, x, bound) else PrimesAtSymbols(sig, x, bound)
    case BinOp(_, x, y) => PrimesAtSymbols(sig, x, bound) && PrimesAtSymbols(sig, y, bound)
    case NAryOp(_, args) => forall i | 0 <= i < |args| :: PrimesAtSymbols(sig, args[i], bound)
    case Ite(c, x, y) =>
      PrimesAtSymbols(sig, c, bound) && PrimesAtSymbols(sig, x, bound) && PrimesAtSymbols(sig, y, bound)
    case Quantified(_, binders, body) => PrimesAtSymbols(sig, body, bound + BinderNames(binders))
  }

  predicate PrimedId(sig: Signature, t: Term, bound: set<string>) {
    match t
    case Id(s) => s !in bound && !IsImmutable(sig, s)
    case UnaryOp(op, x) => op == Prime && PrimedId(sig, x, bound)
    case _ => false
  }

  lemma {:induction false} WithPrimesShape(sig: Signature, s: string, n: nat, bound: set<string>)
    requires n > 0 ==> s !in bound && !IsImmutable(sig, s)
    ensures PrimesAtSymbols(sig, WithPrimes(Id(s), n), bound)
    ensures s !in bound && !IsImmutable(sig, s) ==> PrimedId(sig, WithPrimes(Id(s), n), bound)
  {
    if n > 0 { WithPrimesShape(sig, s, n - 1, bound); }
  }

  lemma {:induction false} WithNextShape(sig: Signature, t: Term, bound: set<string>, next: nat)
    ensures PrimesAtSymbols(sig, WithNext(sig, t, bound, next), bound)
    decreases t
  {
    match t
    case Literal(_) =>
    case Id(s) => WithPrimesShape(sig, s, if s in bound || IsImmutable(sig, s) then 0 else next, bound);
    case App(f, p, args) =>
      forall i | 0 <= i < |args| { WithNextShape(sig, args[i], bound, next); }
    case UnaryOp(op, x) => WithNextShape(sig, x, bound, if op == Prime then next + 1 else next);
    case BinOp(_, x, y) => WithNextShape(sig, x, bound, next); WithNextShape(sig, y, bound, next);
    case NAryOp(_, args) =>
      forall i | 0 <= i < |args| { WithNextShape(sig, args[i], bound, next); }
    case Ite(c, x, y) =>
      WithNextShape(sig, c, bound, next); WithNextShape(sig, x, bound, next); WithNextShape(sig, y, bound, next);
    case Quantified(_, binders, body) => WithNextShape(sig, body, bound + BinderNames(binders), next);
  }

  lemma {:induction false} PrimedIdFixed(sig: Signature, t: Term, bound: set<string>, n: nat)
    requires PrimedId(sig, t, bound)
    ensures WithNext(sig, t, bound, n) == WithPrimes(t, n)
    decreases t
  {
    match t
    case Id(_) =>
    case UnaryOp(_, x) =>
      PrimedIdFixed(sig, x, bound, n + 1);
      WithPrimesComm(x, n);
  }

  lemma {:induction false} WithPrimesComm(t: Term, n: nat)
    ensures WithPrimes(t, n + 1) == WithPrimes(UnaryOp(Prime, t), n)
  {
    if n > 0 { WithPrimesComm(t, n - 1); }
  }

  /** A term whose primes sit at the symbols is left as it is. */
  lemma {:induction false} NormalFixed(sig: Signature, t: Term, bound: set<string>)
    requires PrimesAtSymbols(sig, t, bound)
    ensures WithNext(sig, t, bound, 0) == t
    decreases t
  {
    match t
    case Literal(_) =>
    case Id(_) =>
    case App(f, p, args) =>
      forall i | 0 <= i < |args| { NormalFixed(sig, args[i], bound); }
      assert WithNextAll(sig, args, bound, 0) == args;
    case UnaryOp(op, x) =>
      if op == Prime { PrimedIdFixed(sig, x, bound, 1); assert WithPrimes(x, 1) == UnaryOp(Prime, WithPrimes(x, 0)); }
      else { NormalFixed(sig, x, bound); }
    case BinOp(_, x, y) => NormalFixed(sig, x, bound); NormalFixed(sig, y, bound);
    case NAryOp(_, args) =>
      forall i | 0 <= i < |args| { NormalFixed(sig, args[i], bound); }
      assert WithNextAll(sig, args, bound, 0) == args;
    case Ite(c, x, y) => NormalFixed(sig, c, bound); NormalFixed(sig, x, bound); NormalFixed(sig, y, bound);
    case Quantified(_, binders, body) => NormalFixed(sig, body, bound + BinderNames(binders));
  }

  /** The normal form has its primes at the mutable symbols, and normalizing again changes
      nothing. */
  lemma NormalizeIdempotent(sig: Signature, t: Term)
    ensures PrimesAtSymbols(sig, Normalize(sig, t), {})
    ensures Normalize(sig, Normalize(sig, t)) == Normalize(sig, t)
  {
    WithNextShape(sig, t, {}, 0);
    NormalFixed(sig, Normalize(sig, t), {});
  }

  // How many states into the future a term looks.

  datatype Unrolling = Finite(n: nat) | Infinite

  function Add(a: Unrolling, b: Unrolling): Unrolling {
    if a.Infinite? || b.Infinite? then Infinite else Finite(a.n + b.n)
  }

  function Join(a: Unrolling, b: Unrolling): Unrolling {
    if a.Infinite? || b.Infinite? then Infinite else Finite(if a.n < b.n then b.n else a.n)
  }

  /** The fold that joins the unrollings of a list of terms from the left. */
  function MaxUnrolling(ts: seq<Term>): Unrolling
    requires forall i | 0 <= i < |ts| :: FutureOnly(ts[i])
    decreases ts, 0
  {
    if ts == [] then Finite(0) else Join(MaxUnrolling(ts[..|ts| - 1]), UnrollingOf(ts[|ts| - 1]))
  }

  function UnrollingOf(t: Term): Unrolling
    requires FutureOnly(t)
    decreases t, 1
  {
    match t
    case Literal(_) => Finite(0)
    case Id(_) => Finite(0)
    case App(_, p, args) => Join(Finite(p), MaxUnrolling(args))
    case UnaryOp(op, x) =>
      (match op
       case Always => Infinite
       case Eventually => Infinite
       case Not => UnrollingOf(x)
       case Prime => Add(Finite(1), UnrollingOf(x))
       case Next => Add(Finite(1), UnrollingOf(x)))
    case BinOp(op, x, y) =>
      if op == Until then Infinite else Join(UnrollingOf(x), UnrollingOf(y))
    case NAryOp(_, args) => MaxUnrolling(args)
    case Ite(c, x, y) => Join(Join(UnrollingOf(c), UnrollingOf(x)), UnrollingOf(y))
    case Quantified(_, _, body) => UnrollingOf(body)
  }

  lemma {:induction false} MaxUnrollingBounds(ts: seq<Term>, i: nat)
    requires forall j | 0 <= j < |ts| :: FutureOnly(ts[j])
    requires i < |ts| && MaxUnrolling(ts).Finite?
    ensures UnrollingOf(ts[i]).Finite? && UnrollingOf(ts[i]).n <= MaxUnrolling(ts).n
    decreases |ts|
  {
    if i < |ts| - 1 {
      assert ts[..|ts| - 1][i] == ts[i];
      MaxUnrollingBounds(ts[..|ts| - 1], i);
    }
  }

  /** Some symbol of the term is read so many states ahead. */
  ghost predicate LooksAhead(t: Term, d: nat)
    decreases t
  {
    match t
    case Literal(_) => d == 0
    case Id(_) => d == 0
    case App(_, p, args) => d == p || exists i :: 0 <= i < |args| && LooksAhead(args[i], d)
    case UnaryOp(op, x) => if op == Prime || op == Next then d > 0 && LooksAhead(x, d - 1) else LooksAhead(x, d)
    case BinOp(_, x, y) => LooksAhead(x, d) || LooksAhead(y, d)
    case NAryOp(_, args) => d == 0 || exists i :: 0 <= i < |args| && LooksAhead(args[i], d)
    case Ite(c, x, y) => LooksAhead(c, d) || LooksAhead(x, d) || LooksAhead(y, d)
    case Quantified(_, _, body) => LooksAhead(body, d)
  }

  /** The term has an operator without a last state to look at. */
  predicate Unbounded(t: Term) {
    match t
    case Literal(_) => false
    case Id(_) => false
    case App(_, _, args) => exists i | 0 <= i < |args| :: Unbounded(args[i])
    case UnaryOp(op, x) => op == Always || op == Eventually || Unbounded(x)
    case BinOp(op, x, y) => op == Until || Unbounded(x) || Unbounded(y)
    case NAryOp(_, args) => exists i | 0 <= i < |args| :: Unbounded(args[i])
    case Ite(c, x, y) => Unbounded(c) || Unbounded(x) || Unbounded(y)
    case Quantified(_, _, body) => Unbounded(body)
  }

  ghost predicate Farthest(t: Term, n: nat) {
    LooksAhead(t, n) && forall d: nat | LooksAhead(t, d) :: d <= n
  }

  /** The unrolling is exactly how far the term looks ahead, and infinite exactly when that is unbounded. */
  lemma {:induction false} UnrollingExact(t: Term)
    requires FutureOnly(t)
    ensures UnrollingOf(t).Infinite? <==> Unbounded(t)
    ensures UnrollingOf(t).Finite? ==> Farthest(t, UnrollingOf(t).n)
    decreases t, 1
  {
    match t
    case Literal(_) =>
    case Id(_) =>
    case App(_, _, args) => MaxExact(args);
    case UnaryOp(op, x) =>
      UnrollingExact(x);
      if (op == Prime || op == Next) && UnrollingOf(x).Finite? {
        var n := UnrollingOf(x).n;
        forall d: nat | LooksAhead(t, d) ensures d <= n + 1 { assert LooksAhead(x, d - 1); }
      }
    case BinOp(_, x, y) => UnrollingExact(x); UnrollingExact(y);
    case NAryOp(_, args) => MaxExact(args);
    case Ite(c, x, y) => UnrollingExact(c); UnrollingExact(x); UnrollingExact(y);
    case Quantified(_, _, body) => UnrollingExact(body);
  }

  lemma {:induction false} MaxExact(ts: seq<Term>)
    requires forall i | 0 <= i < |ts| :: FutureOnly(ts[i])
    ensures MaxUnrolling(ts).Infinite? <==> exists i :: 0 <= i < |ts| && Unbounded(ts[i])
    ensures MaxUnrolling(ts).Finite? ==> (forall i, d: nat | 0 <= i < |ts| && LooksAhead(ts[i], d) :: d <= MaxUnrolling(ts).n)
    ensures MaxUnrolling(ts).Finite? ==> MaxUnrolling(ts).n == 0 || exists i :: 0 <= i < |ts| && LooksAhead(ts[i], MaxUnrolling(ts).n)
    decreases ts, 0, |ts|
  {
    if ts != [] {
      var front, last := ts[..|ts| - 1], ts[|ts| - 1];
      UnrollingExact(last);
      MaxExact(front);
      hide LooksAhead, Unbounded, UnrollingOf;
      assert forall i | 0 <= i < |front| :: ts[i] == front[i];
    }
  }

  ghost predicate Agree(tr1: Trace, tr2: Trace, from: nat, to: nat) {
    && tr1.universe == tr2.universe
    && forall k: nat, name, es | from <= k <= to :: tr1.at(k)(name, es) == tr2.at(k)(name, es)
  }

  /** The value of a first-order term at time `k` depends only on the states from `k` to
      `k` plus its unrolling. */
  lemma {:induction false} UnrollingLocality(t: Term, tr1: Trace, tr2: Trace, k: nat, n: nat, asg: Assignment)
    requires FutureOnly(t) && UnrollingOf(t).Finite? && UnrollingOf(t).n <= n
    requires Agree(tr1, tr2, k, k + n)
    ensures Eval(t, tr1, k, asg) == Eval(t, tr2, k, asg)
    decreases t, 1
  {
    match t
    case Literal(_) =>
    case Id(s) =>
    case App(f, p, args) =>
      ArgsLocality(args, tr1, tr2, k, n, asg);
    case UnaryOp(op, x) =>
      assert UnrollingOf(t) == if op == Not then UnrollingOf(x) else Add(Finite(1), UnrollingOf(x));
      if op == Not {
        UnrollingLocality(x, tr1, tr2, k, n, asg);
      } else {
        UnrollingLocality(x, tr1, tr2, k + 1, n - 1, asg);
      }
    case BinOp(op, x, y) =>
      UnrollingLocality(x, tr1, tr2, k, n, asg);
      UnrollingLocality(y, tr1, tr2, k, n, asg);
    case NAryOp(_, args) =>
      ArgsLocality(args, tr1, tr2, k, n, asg);
    case Ite(c, x, y) =>
      UnrollingLocality(c, tr1, tr2, k, n, asg);
      UnrollingLocality(x, tr1, tr2, k, n, asg);
      UnrollingLocality(y, tr1, tr2, k, n, asg);
    case Quantified(q, binders, body) =>
      QuantifiedLocality(q, binders, body, tr1, tr2, k, n, asg);
  }

  lemma {:induction false} QuantifiedLocality(q: Quantifier, binders: seq<Binder>, body: Term,
                                              tr1: Trace, tr2: Trace, k: nat, n: nat, asg: Assignment)
    requires FutureOnly(body) && UnrollingOf(body).Finite? && UnrollingOf(body).n <= n
    requires Agree(tr1, tr2, k, k + n)
    ensures Eval(Quantified(q, binders, body), tr1, k, asg) == Eval(Quantified(q, binders, body), tr2, k, asg)
    decreases body, 2
  {
    hide Eval, EvalQuantified;
    forall es | InShape(es, Shape(tr1.universe, binders))
      ensures Eval(body, tr1, k, Bind(asg, binders, es)) == Eval(body, tr2, k, Bind(asg, binders, es))
    {
      UnrollingLocality(body, tr1, tr2, k, n, Bind(asg, binders, es));
    }
    QuantifiedCong(q, binders, body, tr1, k, asg, body, tr2, k, asg);
  }

  lemma {:induction false} ArgsLocality(args: seq<Term>, tr1: Trace, tr2: Trace, k: nat, n: nat, asg: Assignment)
    requires forall i | 0 <= i < |args| :: FutureOnly(args[i])
    requires MaxUnrolling(args).Finite? && MaxUnrolling(args).n <= n
    requires Agree(tr1, tr2, k, k + n)
    ensures EvalAll(args, tr1, k, asg) == EvalAll(args, tr2, k, asg)
    decreases args
  {
    forall i | 0 <= i < |args| ensures Eval(args[i], tr1, k, asg) == Eval(args[i], tr2, k, asg) {
      MaxUnrollingBounds(args, i);
      UnrollingLocality(args[i], tr1, tr2, k, n, asg);
    }
  }
}
