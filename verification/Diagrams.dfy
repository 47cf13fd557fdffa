/** Decision diagrams of ground formulas, as the sets of valuations they accept. */
module Diagrams {
  import opened Collections
  import opened Semantics
  import opened QuantEnum
  import opened Indexing
  import opened Guarded

  /** Every application the formula looks up has an index. */
  predicate Lookups(e: Enumerated, ix: IndexMap) {
    match e
    case EAnd(xs) => forall x | x in xs :: Lookups(x, ix)
    case EOr(xs) => forall x | x in xs :: Lookups(x, ix)
    case ENot(x) => Lookups(x, ix)
    case EEq(x, y) => Lookups(x, ix) && Lookups(y, ix)
    case EApp(name, p, args) => ix.Get(name, p, args).Some?
  }

  /** Whether the decision diagram built from a formula accepts a valuation of its variables. */
  predicate Accepts(e: Enumerated, ix: IndexMap, v: State) {
    match e
    case EAnd(xs) => forall x | x in xs :: Accepts(x, ix, v)
    case EOr(xs) => exists x | x in xs :: Accepts(x, ix, v)
    case ENot(x) => !Accepts(x, ix, v)
    case EEq(x, y) => Accepts(x, ix, v) == Accepts(y, ix, v)
    case EApp(name, p, args) => ix.Get(name, p, args).Some? && Bit(v, ix.Get(name, p, args).value)
  }

  /** A valuation is read off a trace, copy by copy. */
  ghost predicate Reads(ix: IndexMap, v: State, tr: Trace) {
    forall name, p: nat, es | ix.Get(name, p, es).Some? ::
      tr.at(p)(name, es) == ToElement(Bit(v, ix.Get(name, p, es).value))
  }

  lemma {:induction false} AcceptsSound(e: Enumerated, ix: IndexMap, v: State, tr: Trace)
    requires Lookups(e, ix) && Reads(ix, v, tr)
    ensures Accepts(e, ix, v) <==> EnumHolds(e, tr, 0)
    decreases e
  {
    hide IndexMap.Get;
    match e
    case EAnd(xs) =>
      forall x | x in xs ensures Accepts(x, ix, v) <==> EnumHolds(x, tr, 0) { AcceptsSound(x, ix, v, tr); }
      AndHolds(xs, tr, 0);
    case EOr(xs) =>
      forall x | x in xs ensures Accepts(x, ix, v) <==> EnumHolds(x, tr, 0) { AcceptsSound(x, ix, v, tr); }
      OrHolds(xs, tr, 0);
    case ENot(x) => AcceptsSound(x, ix, v, tr);
    case EEq(x, y) =>
      AcceptsSound(x, ix, v, tr);
      AcceptsSound(y, ix, v, tr);
    case EApp(name, p, args) =>
  }

  /** All sequences of `n` bits. */
  function Valuations(n: nat): (r: seq<State>)
    ensures forall v :: v in r <==> |v| == n
  {
    if n == 0 then [[]]
    else
      var rest := Valuations(n - 1);
      var zeros := seq<State>(|rest|, i requires 0 <= i < |rest| => [false] + rest[i]);
      var ones := seq<State>(|rest|, i requires 0 <= i < |rest| => [true] + rest[i]);
      ExtendValuations(rest, n, zeros, ones);
      zeros + ones
  }

  lemma ExtendValuations(rest: seq<State>, n: nat, zeros: seq<State>, ones: seq<State>)
    requires n > 0 && forall v :: v in rest <==> |v| == n - 1
    requires |zeros| == |ones| == |rest|
    requires forall i | 0 <= i < |rest| :: zeros[i] == [false] + rest[i] && ones[i] == [true] + rest[i]
    ensures forall v :: v in zeros + ones <==> |v| == n
  {
    forall v: State | |v| == n ensures v in zeros + ones {
      var i := RestIndex(rest, n, v);
      if v[0] { assert v == ones[i]; } else { assert v == zeros[i]; }
    }
    forall i | 0 <= i < |rest| ensures |zeros[i]| == n && |ones[i]| == n { assert rest[i] in rest; }
  }

  lemma RestIndex(rest: seq<State>, n: nat, v: State) returns (i: nat)
    requires n > 0 && (forall v :: v in rest <==> |v| == n - 1) && |v| == n
    ensures i < |rest| && v == [v[0]] + rest[i]
  {
    assert v[1..] in rest;
    i :| 0 <= i < |rest| && rest[i] == v[1..];
  }
}
