/** Turning a quantified two-state formula into a propositional one over a finite universe. */
module QuantEnum {
  import opened Collections
  import opened Syntax
  import opened Semantics
  import opened Primes
  import opened SortCheck

  datatype Enumerated =
    | EAnd(terms: seq<Enumerated>)
    | EOr(terms: seq<Enumerated>)
    | ENot(term: Enumerated)
    | EEq(lhs: Enumerated, rhs: Enumerated)
    | EApp(name: string, primes: nat, args: seq<Element>)

  datatype EnumerationError =
    | TemporalOperator(t: Term)
    | TooManyPrimes(t: Term)
    | UnknownId(t: Term)
    | NotAnElement(t: Term)
    | Unreachable(t: Term)

  datatype Result<+T> = Ok(value: T) | Err(error: EnumerationError)

  const True := EAnd([])
  const False := EOr([])

  /** Truth in a trace: an application with `p` primes looks `p` states ahead. */
  ghost predicate EnumHolds(e: Enumerated, tr: Trace, k: nat) {
    match e
    case EAnd(terms) => forall x | x in terms :: EnumHolds(x, tr, k)
    case EOr(terms) => exists x | x in terms :: EnumHolds(x, tr, k)
    case ENot(x) => !EnumHolds(x, tr, k)
    case EEq(x, y) => EnumHolds(x, tr, k) == EnumHolds(y, tr, k)
    case EApp(name, p, args) => tr.at(k + p)(name, args) == 1
  }

  // The structural order on enumerated terms.

  function Rank(e: Enumerated): nat {
    match e case EAnd(_) => 0 case EOr(_) => 1 case ENot(_) => 2 case EEq(_, _) => 3 case EApp(_, _, _) => 4
  }

  predicate LeqString(a: string, b: string) {
    a == [] || (b != [] && (if a[0] == b[0] then LeqString(a[1..], b[1..]) else a[0] < b[0]))
  }

  predicate LeqElements(a: seq<Element>, b: seq<Element>) {
    a == [] || (b != [] && (if a[0] == b[0] then LeqElements(a[1..], b[1..]) else a[0] < b[0]))
  }

  predicate Leq(a: Enumerated, b: Enumerated)
    decreases a, 1
  {
    if Rank(a) != Rank(b) then Rank(a) < Rank(b)
    else
      match a
      case EAnd(xs) => LeqAll(xs, b.terms)
      case EOr(xs) => LeqAll(xs, b.terms)
      case ENot(x) => Leq(x, b.term)
      case EEq(x, y) => if x == b.lhs then Leq(y, b.rhs) else Leq(x, b.lhs)
      case EApp(name, p, args) =>
        if name != b.name then LeqString(name, b.name)
        else if p != b.primes then p < b.primes
        else LeqElements(args, b.args)
  }

  predicate LeqAll(a: seq<Enumerated>, b: seq<Enumerated>)
    decreases a, 0
  {
    a == [] || (b != [] && (if a[0] == b[0] then LeqAll(a[1..], b[1..]) else Leq(a[0], b[0])))
  }

  // Simplifying constructors.

  function GetAnd(e: Enumerated): seq<Enumerated> {
    if e.EAnd? then e.terms else [e]
  }

  function GetOr(e: Enumerated): seq<Enumerated> {
    if e.EOr? then e.terms else [e]
  }

  function GetAnds(terms: seq<Enumerated>): seq<seq<Enumerated>> {
    seq(|terms|, i requires 0 <= i < |terms| => GetAnd(terms[i]))
  }

  function GetOrs(terms: seq<Enumerated>): seq<seq<Enumerated>> {
    seq(|terms|, i requires 0 <= i < |terms| => GetOr(terms[i]))
  }

  function MkAnd(terms: seq<Enumerated>): Enumerated {
    var ts := Dedup(Sorted(Leq, Flatten(GetAnds(terms))));
    if False in ts then False else if |ts| == 1 then ts[0] else EAnd(ts)
  }

  function MkOr(terms: seq<Enumerated>): Enumerated {
    var ts := Dedup(Sorted(Leq, Flatten(GetOrs(terms))));
    if True in ts then True else if |ts| == 1 then ts[0] else EOr(ts)
  }

  function MkNot(e: Enumerated): Enumerated {
    match e
    case EAnd(terms) => MkOr(seq(|terms|, i requires 0 <= i < |terms| => MkNot(terms[i])))
    case EOr(terms) => MkAnd(seq(|terms|, i requires 0 <= i < |terms| => MkNot(terms[i])))
    case ENot(x) => x
    case _ => ENot(e)
  }

  /** Add `n` primes to every application. */
  function PrimeBy(e: Enumerated, n: nat): Enumerated {
    match e
    case EAnd(terms) => EAnd(seq(|terms|, i requires 0 <= i < |terms| => PrimeBy(terms[i], n)))
    case EOr(terms) => EOr(seq(|terms|, i requires 0 <= i < |terms| => PrimeBy(terms[i], n)))
    case ENot(x) => ENot(PrimeBy(x, n))
    case EEq(x, y) => EEq(PrimeBy(x, n), PrimeBy(y, n))
    case EApp(name, p, args) => EApp(name, p + n, args)
  }

  ghost predicate AllHold(terms: seq<Enumerated>, tr: Trace, k: nat) {
    forall x | x in terms :: EnumHolds(x, tr, k)
  }

  ghost predicate NoneHolds(terms: seq<Enumerated>, tr: Trace, k: nat) {
    forall x | x in terms :: !EnumHolds(x, tr, k)
  }

  lemma AndHolds(terms: seq<Enumerated>, tr: Trace, k: nat)
    ensures EnumHolds(EAnd(terms), tr, k) <==> AllHold(terms, tr, k)
  {
  }

  lemma OrHolds(terms: seq<Enumerated>, tr: Trace, k: nat)
    ensures EnumHolds(EOr(terms), tr, k) <==> !NoneHolds(terms, tr, k)
  {
  }

  /** `MkAnd` is conjunction. */
  lemma MkAndHolds(terms: seq<Enumerated>, tr: Trace, k: nat)
    ensures EnumHolds(MkAnd(terms), tr, k) <==> AllHold(terms, tr, k)
  {
    hide EnumHolds;
    var flat := Flatten(GetAnds(terms));
    var ts := Dedup(Sorted(Leq, flat));
    SortDedupMembers(Leq, flat);
    assert AllHold(ts, tr, k) <==> AllHold(flat, tr, k);
    FlattenAllHold(terms, tr, k);
    if False in ts {
      OrHolds([], tr, k);
    } else if |ts| != 1 {
      AndHolds(ts, tr, k);
    }
  }

  lemma FlattenAllHold(terms: seq<Enumerated>, tr: Trace, k: nat)
    ensures AllHold(Flatten(GetAnds(terms)), tr, k) <==> AllHold(terms, tr, k)
  {
    hide EnumHolds;
    var parts := GetAnds(terms);
    forall i | 0 <= i < |terms| ensures EnumHolds(terms[i], tr, k) <==> AllHold(parts[i], tr, k) {
      if terms[i].EAnd? { AndHolds(terms[i].terms, tr, k); }
    }
    if AllHold(Flatten(parts), tr, k) {
      forall x | x in terms ensures EnumHolds(x, tr, k) {
        var i :| 0 <= i < |terms| && x == terms[i];
        forall y | y in parts[i] ensures EnumHolds(y, tr, k) { FlattenMembers(parts, y); }
      }
    }
    if AllHold(terms, tr, k) {
      forall y | y in Flatten(parts) ensures EnumHolds(y, tr, k) {
        FlattenMembers(parts, y);
        var i :| 0 <= i < |parts| && y in parts[i];
        assert terms[i] in terms;
      }
    }
  }

  /** `MkOr` is disjunction. */
  lemma MkOrHolds(terms: seq<Enumerated>, tr: Trace, k: nat)
    ensures EnumHolds(MkOr(terms), tr, k) <==> !NoneHolds(terms, tr, k)
  {
    hide EnumHolds;
    var flat := Flatten(GetOrs(terms));
    var ts := Dedup(Sorted(Leq, flat));
    SortDedupMembers(Leq, flat);
    assert NoneHolds(ts, tr, k) <==> NoneHolds(flat, tr, k);
    FlattenNoneHolds(terms, tr, k);
    if True in ts {
      AndHolds([], tr, k);
    } else if |ts| != 1 {
      OrHolds(ts, tr, k);
    }
  }

  lemma FlattenNoneHolds(terms: seq<Enumerated>, tr: Trace, k: nat)
    ensures NoneHolds(Flatten(GetOrs(terms)), tr, k) <==> NoneHolds(terms, tr, k)
  {
    hide EnumHolds;
    var parts := GetOrs(terms);
    forall i | 0 <= i < |terms| ensures !EnumHolds(terms[i], tr, k) <==> NoneHolds(parts[i], tr, k) {
      if terms[i].EOr? { OrHolds(terms[i].terms, tr, k); }
    }
    if NoneHolds(Flatten(parts), tr, k) {
      forall x | x in terms ensures !EnumHolds(x, tr, k) {
        var i :| 0 <= i < |terms| && x == terms[i];
        forall y | y in parts[i] ensures !EnumHolds(y, tr, k) { FlattenMembers(parts, y); }
      }
    }
    if NoneHolds(terms, tr, k) {
      forall y | y in Flatten(parts) ensures !EnumHolds(y, tr, k) {
        FlattenMembers(parts, y);
        var i :| 0 <= i < |parts| && y in parts[i];
        assert terms[i] in terms;
      }
    }
  }

  /** `MkNot` is negation, pushed through conjunctions and disjunctions. */
  lemma {:induction false} MkNotHolds(e: Enumerated, tr: Trace, k: nat)
    ensures EnumHolds(MkNot(e), tr, k) <==> !EnumHolds(e, tr, k)
    decreases e
  {
    match e
    case EAnd(terms) =>
      var nots := seq(|terms|, i requires 0 <= i < |terms| => MkNot(terms[i]));
      forall i | 0 <= i < |terms| ensures EnumHolds(nots[i], tr, k) <==> !EnumHolds(terms[i], tr, k) {
        MkNotHolds(terms[i], tr, k);
      }
      NotsHold(terms, nots, tr, k);
      MkOrHolds(nots, tr, k);
      AndHolds(terms, tr, k);
    case EOr(terms) =>
      var nots := seq(|terms|, i requires 0 <= i < |terms| => MkNot(terms[i]));
      forall i | 0 <= i < |terms| ensures EnumHolds(nots[i], tr, k) <==> !EnumHolds(terms[i], tr, k) {
        MkNotHolds(terms[i], tr, k);
      }
      NotsHold(terms, nots, tr, k);
      MkAndHolds(nots, tr, k);
      OrHolds(terms, tr, k);
    case _ =>
  }

  lemma NotsHold(terms: seq<Enumerated>, nots: seq<Enumerated>, tr: Trace, k: nat)
    requires |terms| == |nots|
    requires forall i | 0 <= i < |terms| :: EnumHolds(nots[i], tr, k) <==> !EnumHolds(terms[i], tr, k)
    ensures NoneHolds(nots, tr, k) <==> AllHold(terms, tr, k)
    ensures AllHold(nots, tr, k) <==> NoneHolds(terms, tr, k)
  {
    hide EnumHolds;
    assert forall i | 0 <= i < |terms| :: terms[i] in terms && nots[i] in nots;
  }

  /** Priming an enumerated term shifts it in time. */
  lemma {:induction false} PrimeByHolds(e: Enumerated, n: nat, tr: Trace, k: nat)
    ensures EnumHolds(PrimeBy(e, n), tr, k) <==> EnumHolds(e, tr, k + n)
    decreases e
  {
    match e
    case EAnd(terms) => PrimeAllBy(terms, n, tr, k); AndHolds(terms, tr, k + n); AndHolds(PrimeBy(e, n).terms, tr, k);
    case EOr(terms) => PrimeAllBy(terms, n, tr, k); OrHolds(terms, tr, k + n); OrHolds(PrimeBy(e, n).terms, tr, k);
    case ENot(x) => PrimeByHolds(x, n, tr, k);
    case EEq(x, y) => PrimeByHolds(x, n, tr, k); PrimeByHolds(y, n, tr, k);
    case EApp(_, _, _) =>
  }

  lemma {:induction false} PrimeAllBy(terms: seq<Enumerated>, n: nat, tr: Trace, k: nat)
    ensures var ps := seq(|terms|, i requires 0 <= i < |terms| => PrimeBy(terms[i], n));
            && (AllHold(ps, tr, k) <==> AllHold(terms, tr, k + n))
            && (NoneHolds(ps, tr, k) <==> NoneHolds(terms, tr, k + n))
    decreases terms
  {
    var ps := seq(|terms|, i requires 0 <= i < |terms| => PrimeBy(terms[i], n));
    forall i | 0 <= i < |terms| ensures EnumHolds(ps[i], tr, k) <==> EnumHolds(terms[i], tr, k + n) {
      PrimeByHolds(terms[i], n, tr, k);
    }
    hide EnumHolds;
    assert forall i | 0 <= i < |terms| :: terms[i] in terms && ps[i] in ps;
  }

  // The translation.

  /** Replace the nullary relations by applications to no arguments. */
  function NullaryIdToApp(t: Term, relations: seq<RelationDecl>): Term
    decreases t, 1
  {
    match t
    case Id(name) => if FindDecl(relations, name).Some? then App(name, 0, []) else t
    case Literal(_) => t
    case App(f, p, args) => App(f, p, NullaryAll(args, relations))
    case UnaryOp(op, x) => UnaryOp(op, NullaryIdToApp(x, relations))
    case BinOp(op, x, y) => BinOp(op, NullaryIdToApp(x, relations), NullaryIdToApp(y, relations))
    case NAryOp(op, args) => NAryOp(op, NullaryAll(args, relations))
    case Ite(c, x, y) =>
      Ite(NullaryIdToApp(c, relations), NullaryIdToApp(x, relations), NullaryIdToApp(y, relations))
    case Quantified(q, binders, body) => Quantified(q, binders, NullaryIdToApp(body, relations))
  }

  function NullaryAll(ts: seq<Term>, relations: seq<RelationDecl>): (r: seq<Term>)
    ensures |r| == |ts|
    ensures forall i | 0 <= i < |ts| :: r[i] == NullaryIdToApp(ts[i], relations)
    decreases ts, 0
  {
    seq(|ts|, i requires 0 <= i < |ts| => NullaryIdToApp(ts[i], relations))
  }

  function EnumerateQuantifiers(t: Term, sig: Signature, universe: Universe): Result<Enumerated> {
    TermToEnumerated(Normalize(sig, NullaryIdToApp(t, sig.relations)), universe, map[])
  }

  /** Statically evaluate an argument to an element. */
  function ElementOf(t: Term, universe: Universe, asg: Assignment): Result<Element>
    decreases t, 2
  {
    if t.Id? then
      if t.name in asg then Ok(asg[t.name]) else Err(UnknownId(t))
    else
      match TermToEnumerated(t, universe, asg)
      case Ok(e) => if e == True then Ok(1) else if e == False then Ok(0) else Err(NotAnElement(t))
      case Err(_) => Err(NotAnElement(t))
  }

  function ElementsOf(ts: seq<Term>, universe: Universe, asg: Assignment): Result<seq<Element>>
    decreases ts, 3
  {
    if ts == [] then Ok([])
    else
      match ElementOf(ts[0], universe, asg)
      case Err(e) => Err(e)
      case Ok(x) =>
        match ElementsOf(ts[1..], universe, asg)
        case Err(e) => Err(e)
        case Ok(xs) => Ok([x] + xs)
  }

  function TermsToEnumerated(ts: seq<Term>, universe: Universe, asg: Assignment): Result<seq<Enumerated>>
    decreases ts, 0
  {
    if ts == [] then Ok([])
    else
      match TermToEnumerated(ts[0], universe, asg)
      case Err(e) => Err(e)
      case Ok(x) =>
        match TermsToEnumerated(ts[1..], universe, asg)
        case Err(e) => Err(e)
        case Ok(xs) => Ok([x] + xs)
  }

  /** The instances of a body for each tuple of elements. */
  function InstancesOf(body: Term, binders: seq<Binder>, tuples: seq<seq<Element>>, universe: Universe,
                       asg: Assignment): Result<seq<Enumerated>>
    decreases body, 2, |tuples|
  {
    if tuples == [] then Ok([])
    else
      match TermToEnumerated(body, universe, Bind(asg, binders, tuples[0]))
      case Err(e) => Err(e)
      case Ok(x) =>
        match InstancesOf(body, binders, tuples[1..], universe, asg)
        case Err(e) => Err(e)
        case Ok(xs) => Ok([x] + xs)
  }

  function EqualsToEnumerated(op: BOp, x: Term, y: Term, universe: Universe, asg: Assignment): Result<Enumerated>
    decreases BinOp(op, x, y), 0
  {
    var a, b := ElementOf(x, universe, asg), ElementOf(y, universe, asg);
    if a.Ok? && b.Ok? then Ok(if a.value == b.value then True else False)
    else
      match TermToEnumerated(x, universe, asg)
      case Err(e) => Err(e)
      case Ok(ex) =>
        match TermToEnumerated(y, universe, asg)
        case Err(e) => Err(e)
        case Ok(ey) => Ok(EEq(ex, ey))
  }

  function ImpliesToEnumerated(x: Term, y: Term, universe: Universe, asg: Assignment): Result<Enumerated>
    decreases BinOp(Implies, x, y), 0
  {
    var a := ElementOf(x, universe, asg);
    if a == Ok(1) then TermToEnumerated(y, universe, asg)
    else if a == Ok(0) then Ok(True)
    else
      match TermToEnumerated(x, universe, asg)
      case Err(e) => Err(e)
      case Ok(ex) =>
        match TermToEnumerated(y, universe, asg)
        case Err(e) => Err(e)
        case Ok(ey) => Ok(MkOr([MkNot(ex), ey]))
  }

  function IteToEnumerated(c: Term, x: Term, y: Term, universe: Universe, asg: Assignment): Result<Enumerated>
    decreases Ite(c, x, y), 0
  {
    match TermToEnumerated(c, universe, asg)
    case Err(e) => Err(e)
    case Ok(ec) =>
      match TermToEnumerated(x, universe, asg)
      case Err(e) => Err(e)
      case Ok(ex) =>
        match TermToEnumerated(y, universe, asg)
        case Err(e) => Err(e)
        case Ok(ey) => Ok(MkOr([MkAnd([ec, ex]), MkAnd([MkNot(ec), ey])]))
  }

  function TermToEnumerated(t: Term, universe: Universe, asg: Assignment): Result<Enumerated>
    decreases t, 1
  {
    match t
    case Literal(b) => Ok(if b then True else False)
    case Id(name) =>
      if name !in asg then Err(UnknownId(t))
      else if asg[name] == 1 then Ok(True)
      else if asg[name] == 0 then Ok(False)
      else Err(Unreachable(t))
    case App(f, p, args) =>
      if p > 1 then Err(TooManyPrimes(t))
      else
        (match ElementsOf(args, universe, asg)
         case Err(e) => Err(e)
         case Ok(es) => Ok(EApp(f, p, es)))
    case UnaryOp(op, x) =>
      if op != Not then Err(TemporalOperator(t))
      else
        (match TermToEnumerated(x, universe, asg)
         case Err(e) => Err(e)
         case Ok(ex) => Ok(MkNot(ex)))
    case BinOp(op, x, y) =>
      (match op
       case Equals => EqualsToEnumerated(op, x, y, universe, asg)
       case Iff => EqualsToEnumerated(op, x, y, universe, asg)
       case NotEquals =>
         (match EqualsToEnumerated(op, x, y, universe, asg)
          case Err(e) => Err(e)
          case Ok(e) => Ok(MkNot(e)))
       case Implies => ImpliesToEnumerated(x, y, universe, asg)
       case Until => Err(TemporalOperator(t))
       case Since => Err(TemporalOperator(t)))
    case NAryOp(op, args) =>
      (match TermsToEnumerated(args, universe, asg)
       case Err(e) => Err(e)
       case Ok(es) => Ok(if op == And then MkAnd(es) else MkOr(es)))
    case Ite(c, x, y) => IteToEnumerated(c, x, y, universe, asg)
    case Quantified(q, binders, body) =>
      (match InstancesOf(body, binders, Product(Shape(universe, binders)), universe, asg)
       case Err(e) => Err(e)
       case Ok(es) => Ok(if q == Forall then MkAnd(es) else MkOr(es)))
  }
}
