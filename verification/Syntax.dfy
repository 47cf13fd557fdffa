/** The term language of fly: first-order linear temporal logic over a signature. */
module Syntax {
  import opened Collections

  datatype Sort = Bool | Uninterpreted(name: string)

  datatype Binder = Binder(name: string, sort: Sort)

  datatype UOp = Not | Prime | Always | Eventually | Next | Previous
  datatype BOp = Equals | NotEquals | Implies | Iff | Until | Since
  datatype NOp = And | Or
  datatype Quantifier = Forall | Exists

  datatype Term =
    | Literal(value: bool)
    | Id(name: string)
    | App(f: string, primes: nat, args: seq<Term>)
    | UnaryOp(uop: UOp, arg: Term)
    | BinOp(bop: BOp, lhs: Term, rhs: Term)
    | NAryOp(nop: NOp, args: seq<Term>)
    | Ite(cond: Term, then_: Term, else_: Term)
    | Quantified(quantifier: Quantifier, binders: seq<Binder>, body: Term)

  datatype RelationDecl = RelationDecl(mutable: bool, name: string, args: seq<Sort>, sort: Sort)

  datatype Signature = Signature(sorts: seq<string>, relations: seq<RelationDecl>)

  /** `name` without its trailing primes. */
  function TrimPrimes(name: string): string {
    if name != [] && name[|name| - 1] == '\'' then TrimPrimes(name[..|name| - 1]) else name
  }

  /** The first declaration with the given name. */
  function FindDecl(relations: seq<RelationDecl>, name: string): (r: Option<RelationDecl>)
    ensures r.Some? ==> r.value in relations && r.value.name == name
    ensures r.None? ==> forall d <- relations :: d.name != name
  {
    if relations == [] then None
    else if relations[0].name == name then Some(relations[0])
    else FindDecl(relations[1..], name)
  }

  /** Whether `name` is an immutable relation, or a primed version of one. */
  predicate IsImmutable(sig: Signature, name: string) {
    match FindDecl(sig.relations, TrimPrimes(name))
    case Some(decl) => !decl.mutable
    case None => false
  }

  /** The names introduced by a list of binders. */
  function BinderNames(binders: seq<Binder>): set<string> {
    set b <- binders :: b.name
  }

  /** Terms without past operators, the ones a finite unrolling is defined for. */
  predicate FutureOnly(t: Term) {
    match t
    case Literal(_) => true
    case Id(_) => true
    case App(_, _, args) => forall i | 0 <= i < |args| :: FutureOnly(args[i])
    case UnaryOp(op, x) => op != Previous && FutureOnly(x)
    case BinOp(op, x, y) => op != Since && FutureOnly(x) && FutureOnly(y)
    case NAryOp(_, args) => forall i | 0 <= i < |args| :: FutureOnly(args[i])
    case Ite(c, x, y) => FutureOnly(c) && FutureOnly(x) && FutureOnly(y)
    case Quantified(_, _, body) => FutureOnly(body)
  }
}
