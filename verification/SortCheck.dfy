/** The ordinary sort check of fully annotated terms, and that isomorphic traces agree on
    well-sorted terms. */
module SortCheck {
  import opened Collections
  import opened Syntax
  import opened Semantics

  /** What a name in scope stands for; relations take at least one argument. */
  datatype Entry = Relation(args: seq<Sort>, ret: Sort) | Individual(sort: Sort)

  type Scope = map<string, Entry>

  function DeclEntry(decl: RelationDecl): Entry {
    if decl.args == [] then Individual(decl.sort) else Relation(decl.args, decl.sort)
  }

  /** The scope that binds exactly the symbols of a signature. */
  function ScopeOf(relations: seq<RelationDecl>): (scope: Scope)
    ensures forall name :: name in scope <==> FindDecl(relations, name).Some?
    ensures forall name | name in scope :: scope[name] == DeclEntry(FindDecl(relations, name).value)
  {
    if relations == [] then map[]
    else ScopeOf(relations[1..])[relations[0].name := DeclEntry(relations[0])]
  }

  predicate DistinctNames(binders: seq<Binder>) {
    forall i, j | 0 <= i < j < |binders| :: binders[i].name != binders[j].name
  }

  /** Binders may shadow names of outer scopes. */
  function AddBinders(scope: Scope, binders: seq<Binder>): (r: Scope)
    ensures r.Keys == scope.Keys + BinderNames(binders)
    decreases |binders|
  {
    if binders == [] then scope
    else
      assert binders == [binders[0]] + binders[1..];
      AddBinders(scope[binders[0].name := Individual(binders[0].sort)], binders[1..])
  }

  /** The sort of an annotated term, or `None` when it is not well sorted. */
  function SortOf(t: Term, scope: Scope): Option<Sort>
    decreases t, 1
  {
    match t
    case Literal(_) => Some(Bool)
    case Id(name) =>
      if name in scope && scope[name].Individual? then Some(scope[name].sort) else None
    case App(f, _, args) =>
      if f in scope && scope[f].Relation? && |scope[f].args| == |args| && HaveSorts(args, scope[f].args, scope)
      then Some(scope[f].ret) else None
    case UnaryOp(op, x) =>
      if op == Prime then SortOf(x, scope)
      else if SortOf(x, scope) == Some(Bool) then Some(Bool) else None
    case BinOp(op, x, y) =>
      if op == Equals || op == NotEquals then
        if SortOf(x, scope).Some? && SortOf(x, scope) == SortOf(y, scope) then Some(Bool) else None
      else if SortOf(x, scope) == Some(Bool) && SortOf(y, scope) == Some(Bool) then Some(Bool) else None
    case NAryOp(_, args) =>
      if forall i | 0 <= i < |args| :: SortOf(args[i], scope) == Some(Bool) then Some(Bool) else None
    case Ite(c, x, y) =>
      if SortOf(c, scope) == Some(Bool) && SortOf(x, scope) == SortOf(y, scope) then SortOf(x, scope) else None
    case Quantified(_, binders, body) =>
      if DistinctNames(binders) && SortOf(body, AddBinders(scope, binders)) == Some(Bool)
      then Some(Bool) else None
  }

  predicate HaveSorts(args: seq<Term>, sorts: seq<Sort>, scope: Scope)
    requires |args| == |sorts|
    decreases args, 0
  {
    forall i | 0 <= i < |args| :: SortOf(args[i], scope) == Some(sorts[i])
  }

  // Values of well-sorted terms.

  ghost predicate TupleOf(es: seq<Element>, sorts: seq<Sort>, universe: Universe) {
    && |es| == |sorts|
    && forall i | 0 <= i < |es| :: es[i] < universe(sorts[i])
  }

  /** The symbols of the trace respect the sorts of the scope, and truth values are 0 and 1. */
  ghost predicate TraceFits(scope: Scope, tr: Trace) {
    && tr.universe(Bool) == 2
    && (forall k: nat, name | name in scope && scope[name].Individual? ::
          tr.at(k)(name, []) < tr.universe(scope[name].sort))
    && (forall k: nat, name, es | name in scope && scope[name].Relation? && TupleOf(es, scope[name].args, tr.universe) ::
          tr.at(k)(name, es) < tr.universe(scope[name].ret))
  }

  /** `scope` extends `base` by individuals whose values the assignment gives. */
  ghost predicate AssignmentFits(base: Scope, scope: Scope, asg: Assignment, universe: Universe) {
    && scope.Keys == base.Keys + asg.Keys
    && (forall name | name in scope && name !in asg :: name in base && scope[name] == base[name])
    && (forall name | name in asg :: scope[name].Individual? && asg[name] < universe(scope[name].sort))
  }

  /** Application and truth looks up symbols of the signature that no binder hides. */
  predicate NoCapture(t: Term, names: set<string>) {
    match t
    case Literal(_) => true
    case Id(_) => true
    case App(_, _, args) => forall i | 0 <= i < |args| :: NoCapture(args[i], names)
    case UnaryOp(_, x) => NoCapture(x, names)
    case BinOp(_, x, y) => NoCapture(x, names) && NoCapture(y, names)
    case NAryOp(_, args) => forall i | 0 <= i < |args| :: NoCapture(args[i], names)
    case Ite(c, x, y) => NoCapture(c, names) && NoCapture(x, names) && NoCapture(y, names)
    case Quantified(_, binders, body) => BinderNames(binders) !! names && NoCapture(body, names)
  }
}
