/** Inferring the sorts of bound variables: collecting constraints with unification variables,
    then writing the solutions into the term. */
module SortInference {
  import opened Collections
  import opened Syntax
  import opened SortCheck
  import opened Decimals

  // Unification.

  /** The variables in classes, each with a representative, whose value is that of the class. */
  datatype Table = Table(rep: seq<nat>, values: seq<Option<Sort>>)

  type Solution = nat -> Sort

  ghost predicate Valid(tb: Table) {
    |tb.rep| == |tb.values| && forall i | 0 <= i < |tb.rep| :: tb.rep[i] < |tb.rep| && tb.rep[tb.rep[i]] == tb.rep[i]
  }

  ghost predicate SolvesAt(tb: Table, f: Solution, i: nat)
    requires Valid(tb) && i < |tb.rep|
  {
    f(i) == f(tb.rep[i]) && (tb.values[tb.rep[i]].Some? ==> f(i) == tb.values[tb.rep[i]].value)
  }

  ghost predicate Solves(tb: Table, f: Solution) {
    Valid(tb) && forall i | 0 <= i < |tb.rep| :: SolvesAt(tb, f, i)
  }

  ghost predicate DeclaredValues(tb: Table, sorts: seq<string>) {
    forall i | 0 <= i < |tb.values| && tb.values[i].Some? :: DeclaredIn(tb.values[i].value, sorts)
  }

  predicate DeclaredIn(s: Sort, sorts: seq<string>) {
    s.Bool? || s.name in sorts
  }

  function ValueIn(tb: Table, v: nat): Option<Sort> {
    if v < |tb.rep| && tb.rep[v] < |tb.values| then tb.values[tb.rep[v]] else None
  }

  /** Every table has a solution. */
  lemma Solvable(tb: Table) returns (f: Solution)
    requires Valid(tb)
    ensures Solves(tb, f)
  {
    f := (i: nat) => if ValueIn(tb, i).Some? then ValueIn(tb, i).value else Bool;
  }

  datatype SortError =
    | UnknownSort(name: string)
    | UnknownVariable(name: string)
    | UnknownFunction(name: string)
    | RedeclaredName(name: string)
    | UnificationFail(a: Sort, b: Sort)
    | ExpectedButFoundSorts(expected: Sort, found: Sort)
    | ExpectedButFoundArity(name: string, expectedArity: nat, foundArity: nat)
    | Uncalled(name: string)
    | Uncallable(name: string)
    | UnsolvedSort(name: string)

  datatype Result<+T> = Ok(value: T) | Err(error: SortError)

  function Redirected(rep: seq<nat>, from: nat, to: nat): (r: seq<nat>)
    ensures |r| == |rep| && forall i | 0 <= i < |r| :: r[i] == if rep[i] == from then to else rep[i]
  {
    seq<nat>(|rep|, i requires 0 <= i < |rep| => if rep[i] == from then to else rep[i])
  }

  lemma ValueAdded(tb: Table, v: nat, s: Sort)
    requires Valid(tb) && v < |tb.rep|
    ensures Valid(tb.(values := tb.values[tb.rep[v] := Some(s)]))
    ensures (tb.values[tb.rep[v]].None? || tb.values[tb.rep[v]] == Some(s)) ==>
      forall f: Solution :: Solves(tb.(values := tb.values[tb.rep[v] := Some(s)]), f) <==> Solves(tb, f) && f(v) == s
    ensures tb.values[tb.rep[v]].Some? && tb.values[tb.rep[v]] != Some(s) ==> forall f: Solution | Solves(tb, f) :: f(v) != s
  {
    var r := tb.(values := tb.values[tb.rep[v] := Some(s)]);
    if tb.values[tb.rep[v]].None? || tb.values[tb.rep[v]] == Some(s) {
      forall f: Solution ensures Solves(r, f) <==> Solves(tb, f) && f(v) == s {
        if Solves(r, f) {
          forall i | 0 <= i < |tb.rep| ensures SolvesAt(tb, f, i) { assert SolvesAt(r, f, i); }
          assert SolvesAt(r, f, v);
        }
        if Solves(tb, f) && f(v) == s {
          assert SolvesAt(tb, f, v);
          forall i | 0 <= i < |tb.rep| ensures SolvesAt(r, f, i) { assert SolvesAt(tb, f, i); }
        }
      }
    }
    if tb.values[tb.rep[v]].Some? && tb.values[tb.rep[v]] != Some(s) {
      forall f: Solution | Solves(tb, f) ensures f(v) != s { assert SolvesAt(tb, f, v); }
    }
  }

  predicate Clash(a: Option<Sort>, b: Option<Sort>) {
    a.Some? && b.Some? && a != b
  }

  function Merged(tb: Table, v: nat, w: nat): Table
    requires Valid(tb) && v < |tb.rep| && w < |tb.rep|
  {
    var p, q := tb.rep[v], tb.rep[w];
    var value := if tb.values[p].Some? then tb.values[p] else tb.values[q];
    Table(Redirected(tb.rep, q, p), tb.values[p := value])
  }

  lemma MergedForward(tb: Table, v: nat, w: nat, f: Solution)
    requires Valid(tb) && v < |tb.rep| && w < |tb.rep| && !Clash(tb.values[tb.rep[v]], tb.values[tb.rep[w]])
    requires Solves(Merged(tb, v, w), f)
    ensures Solves(tb, f) && f(v) == f(w)
  {
    var r, p, q := Merged(tb, v, w), tb.rep[v], tb.rep[w];
    assert SolvesAt(r, f, v) && SolvesAt(r, f, w) && SolvesAt(r, f, p) && SolvesAt(r, f, q);
    forall i | 0 <= i < |tb.rep| ensures SolvesAt(tb, f, i) {
      assert SolvesAt(r, f, i) && SolvesAt(r, f, tb.rep[i]);
    }
  }

  lemma MergedBackward(tb: Table, v: nat, w: nat, f: Solution)
    requires Valid(tb) && v < |tb.rep| && w < |tb.rep| && Solves(tb, f) && f(v) == f(w)
    ensures !Clash(tb.values[tb.rep[v]], tb.values[tb.rep[w]]) && Solves(Merged(tb, v, w), f)
  {
    var r, p, q := Merged(tb, v, w), tb.rep[v], tb.rep[w];
    assert SolvesAt(tb, f, v) && SolvesAt(tb, f, w) && SolvesAt(tb, f, p) && SolvesAt(tb, f, q);
    forall i | 0 <= i < |tb.rep| ensures SolvesAt(r, f, i) {
      assert SolvesAt(tb, f, i);
    }
  }

  lemma MergedValid(tb: Table, v: nat, w: nat)
    requires Valid(tb) && v < |tb.rep| && w < |tb.rep|
    ensures Valid(Merged(tb, v, w))
  {
  }

  class UnificationTable {
    var table: Table

    constructor ()
      ensures table == Table([], []) && Valid(table)
    {
      table := Table([], []);
    }

    /** A new variable of which nothing is known. */
    method NewKey() returns (v: nat)
      requires Valid(table)
      modifies this
      ensures v == |old(table).rep| && table == Table(old(table).rep + [v], old(table).values + [None])
    {
      v := |table.rep|;
      table := Table(table.rep + [v], table.values + [None]);
    }

    /** Succeeds unless the variable has another value; then the solutions are those that give it the value. */
    method UnifyVarValue(v: nat, s: Sort) returns (r: Result<()>)
      requires Valid(table) && v < |table.rep|
      modifies this
      ensures Valid(table) && |table.rep| == |old(table).rep|
      ensures r.Ok? ==> forall f: Solution :: Solves(table, f) <==> Solves(old(table), f) && f(v) == s
      ensures r.Ok? ==> forall i | 0 <= i < |table.values| :: table.values[i] == old(table).values[i] || table.values[i] == Some(s)
      ensures r.Err? ==> table == old(table) && forall f: Solution | Solves(table, f) :: f(v) != s
      ensures r.Err? ==> !r.error.UnsolvedSort?
    {
      hide Solves;
      ValueAdded(table, v, s);
      var known := table.values[table.rep[v]];
      if Clash(known, Some(s)) { return Err(UnificationFail(known.value, s)); }
      table := table.(values := table.values[table.rep[v] := Some(s)]);
      r := Ok(());
    }

    /** Succeeds unless the variables have different values; then the solutions are those that make them equal. */
    method UnifyVarVar(v: nat, w: nat) returns (r: Result<()>)
      requires Valid(table) && v < |table.rep| && w < |table.rep|
      modifies this
      ensures Valid(table) && |table.rep| == |old(table).rep|
      ensures r.Ok? ==> forall f: Solution :: Solves(table, f) <==> Solves(old(table), f) && f(v) == f(w)
      ensures r.Ok? ==> forall i | 0 <= i < |table.values| :: table.values[i] in old(table).values
      ensures r.Err? ==> table == old(table) && forall f: Solution | Solves(table, f) :: f(v) != f(w)
      ensures r.Err? ==> !r.error.UnsolvedSort?
    {
      hide Solves, Valid;
      assert TableShape(table, v, w) by { ShapeOf(table, v, w); }
      var a, b := table.values[table.rep[v]], table.values[table.rep[w]];
      if Clash(a, b) {
        forall f: Solution | Solves(table, f) ensures f(v) != f(w) { NoMerge(table, v, w, f); }
        return Err(UnificationFail(a.value, b.value));
      }
      MergedValid(table, v, w);
      forall f: Solution ensures Solves(Merged(table, v, w), f) <==> Solves(table, f) && f(v) == f(w) {
        if Solves(Merged(table, v, w), f) { MergedForward(table, v, w, f); }
        if Solves(table, f) && f(v) == f(w) { MergedBackward(table, v, w, f); }
      }
      table := Merged(table, v, w);
      r := Ok(());
    }

    /** The value of the class of a variable. */
    method Probe(v: nat) returns (s: Option<Sort>)
      ensures s == ValueIn(table, v)
    {
      s := ValueIn(table, v);
    }
  }

  predicate TableShape(tb: Table, v: nat, w: nat) {
    |tb.rep| == |tb.values| && v < |tb.rep| && w < |tb.rep| && tb.rep[v] < |tb.rep| && tb.rep[w] < |tb.rep|
  }

  lemma ShapeOf(tb: Table, v: nat, w: nat)
    requires Valid(tb) && v < |tb.rep| && w < |tb.rep|
    ensures TableShape(tb, v, w)
  {
  }

  lemma NoMerge(tb: Table, v: nat, w: nat, f: Solution)
    requires Valid(tb) && v < |tb.rep| && w < |tb.rep| && Clash(tb.values[tb.rep[v]], tb.values[tb.rep[w]]) && Solves(tb, f)
    ensures f(v) != f(w)
  {
    assert SolvesAt(tb, f, v) && SolvesAt(tb, f, w);
  }

  // Terms with missing sorts.

  datatype MaybeSort = Known(sort: Sort) | Unknown(v: nat)

  datatype NameEntry = Function(args: seq<Sort>, ret: Sort) | Single(sort: MaybeSort)

  type Names = map<string, NameEntry>

  const NoSort := Uninterpreted("")

  /** How a binder records the unification variable of its sort. */
  function Mark(v: nat): string {
    "var " + Decimal(v)
  }

  function MarkOf(s: Sort): Option<nat> {
    if s.Uninterpreted? && |s.name| > 4 && s.name[..4] == "var " then Parsed(s.name[4..]) else None
  }

  lemma MarkRead(v: nat)
    ensures MarkOf(Uninterpreted(Mark(v))) == Some(v)
  {
    DecimalParsed(v);
    assert Mark(v)[..4] == "var " && Mark(v)[4..] == Decimal(v);
  }

  /** No sort is called by the empty string or has a blank in its name. */
  predicate PlainSorts(sorts: seq<string>) {
    forall s <- sorts :: s != "" && ' ' !in s
  }

  lemma PlainUnmarked(s: Sort, sorts: seq<string>)
    requires PlainSorts(sorts) && DeclaredIn(s, sorts)
    ensures MarkOf(s).None? && s != NoSort
  {
    if s.Uninterpreted? && |s.name| > 4 {
      assert s.name[3] in s.name;
      assert s.name[..4][3] == s.name[3];
    }
  }

  function SortUnder(s: MaybeSort, f: Solution): Sort {
    match s case Known(k) => k case Unknown(v) => f(v)
  }

  function EntryUnder(e: NameEntry, f: Solution): Entry {
    match e case Function(args, ret) => Relation(args, ret) case Single(s) => Individual(SortUnder(s, f))
  }

  function Under(names: Names, f: Solution): Scope {
    map x | x in names :: EntryUnder(names[x], f)
  }

  /** The sort of a binder when the marks are solved. */
  function SolvedSort(s: Sort, f: Solution): Sort {
    if MarkOf(s).Some? then f(MarkOf(s).value) else s
  }

  function SolvedBinders(binders: seq<Binder>, f: Solution): (r: seq<Binder>)
    ensures |r| == |binders| && forall i | 0 <= i < |r| :: r[i] == Binder(binders[i].name, SolvedSort(binders[i].sort, f))
  {
    seq(|binders|, i requires 0 <= i < |binders| => Binder(binders[i].name, SolvedSort(binders[i].sort, f)))
  }

  function Solved(t: Term, f: Solution): Term
    decreases t, 1
  {
    match t
    case Literal(_) => t
    case Id(_) => t
    case App(g, p, args) => App(g, p, SolvedAll(args, f))
    case UnaryOp(op, x) => UnaryOp(op, Solved(x, f))
    case BinOp(op, x, y) => BinOp(op, Solved(x, f), Solved(y, f))
    case NAryOp(op, args) => NAryOp(op, SolvedAll(args, f))
    case Ite(c, x, y) => Ite(Solved(c, f), Solved(x, f), Solved(y, f))
    case Quantified(q, binders, body) => Quantified(q, SolvedBinders(binders, f), Solved(body, f))
  }

  function SolvedAll(ts: seq<Term>, f: Solution): (r: seq<Term>)
    ensures |r| == |ts| && forall i | 0 <= i < |r| :: r[i] == Solved(ts[i], f)
    decreases ts, 0
  {
    seq(|ts|, i requires 0 <= i < |ts| => Solved(ts[i], f))
  }

  /** Every binder has a declared sort. */
  predicate Annotated(t: Term, sorts: seq<string>)
    decreases t, 1
  {
    match t
    case Literal(_) => true
    case Id(_) => true
    case App(_, _, args) => AllAnnotated(args, sorts)
    case UnaryOp(_, x) => Annotated(x, sorts)
    case BinOp(_, x, y) => Annotated(x, sorts) && Annotated(y, sorts)
    case NAryOp(_, args) => AllAnnotated(args, sorts)
    case Ite(c, x, y) => Annotated(c, sorts) && Annotated(x, sorts) && Annotated(y, sorts)
    case Quantified(_, binders, body) => (forall i | 0 <= i < |binders| :: DeclaredIn(binders[i].sort, sorts)) && Annotated(body, sorts)
  }

  predicate AllAnnotated(ts: seq<Term>, sorts: seq<string>)
    decreases ts, 0
  {
    forall i | 0 <= i < |ts| :: Annotated(ts[i], sorts)
  }

  predicate CompletesBinders(bs: seq<Binder>, cs: seq<Binder>) {
    |bs| == |cs| && forall i | 0 <= i < |bs| :: bs[i].name == cs[i].name && (bs[i].sort == NoSort || bs[i].sort == cs[i].sort)
  }

  /** The second term is the first with sorts for the binders without one. */
  predicate Completes(t: Term, u: Term)
    decreases t, 1
  {
    match t
    case Literal(_) => u == t
    case Id(_) => u == t
    case App(g, p, args) => u.App? && u.f == g && u.primes == p && CompletesAll(args, u.args)
    case UnaryOp(op, x) => u.UnaryOp? && u.uop == op && Completes(x, u.arg)
    case BinOp(op, x, y) => u.BinOp? && u.bop == op && Completes(x, u.lhs) && Completes(y, u.rhs)
    case NAryOp(op, args) => u.NAryOp? && u.nop == op && CompletesAll(args, u.args)
    case Ite(c, x, y) => u.Ite? && Completes(c, u.cond) && Completes(x, u.then_) && Completes(y, u.else_)
    case Quantified(q, binders, body) => u.Quantified? && u.quantifier == q && CompletesBinders(binders, u.binders) && Completes(body, u.body)
  }

  predicate CompletesAll(ts: seq<Term>, us: seq<Term>)
    decreases ts, 0
  {
    |ts| == |us| && forall i | 0 <= i < |ts| :: Completes(ts[i], us[i])
  }

  /** The marks of a term are below `n`, and its other binders have declared sorts. */
  predicate Marked(t: Term, n: nat, sorts: seq<string>)
    decreases t, 1
  {
    match t
    case Literal(_) => true
    case Id(_) => true
    case App(_, _, args) => AllMarked(args, n, sorts)
    case UnaryOp(_, x) => Marked(x, n, sorts)
    case BinOp(_, x, y) => Marked(x, n, sorts) && Marked(y, n, sorts)
    case NAryOp(_, args) => AllMarked(args, n, sorts)
    case Ite(c, x, y) => Marked(c, n, sorts) && Marked(x, n, sorts) && Marked(y, n, sorts)
    case Quantified(_, binders, body) => MarkedBinders(binders, n, sorts) && Marked(body, n, sorts)
  }

  predicate MarkedBinders(binders: seq<Binder>, n: nat, sorts: seq<string>) {
    forall i | 0 <= i < |binders| :: MarkedSort(binders[i].sort, n, sorts)
  }

  predicate MarkedSort(s: Sort, n: nat, sorts: seq<string>) {
    if MarkOf(s).Some? then MarkOf(s).value < n else DeclaredIn(s, sorts)
  }

  predicate AllMarked(ts: seq<Term>, n: nat, sorts: seq<string>)
    decreases ts, 0
  {
    forall i | 0 <= i < |ts| :: Marked(ts[i], n, sorts)
  }

  ghost predicate AgreeBelow(f: Solution, g: Solution, n: nat) {
    forall i: nat | i < n :: f(i) == g(i)
  }

  lemma {:induction false} MarkedMore(t: Term, n: nat, m: nat, sorts: seq<string>)
    requires Marked(t, n, sorts) && n <= m
    ensures Marked(t, m, sorts)
    decreases t
  {
    match t
    case Literal(_) =>
    case Id(_) =>
    case App(_, _, args) => forall i | 0 <= i < |args| ensures Marked(args[i], m, sorts) { MarkedMore(args[i], n, m, sorts); }
    case UnaryOp(_, x) => MarkedMore(x, n, m, sorts);
    case BinOp(_, x, y) => MarkedMore(x, n, m, sorts); MarkedMore(y, n, m, sorts);
    case NAryOp(_, args) => forall i | 0 <= i < |args| ensures Marked(args[i], m, sorts) { MarkedMore(args[i], n, m, sorts); }
    case Ite(c, x, y) => MarkedMore(c, n, m, sorts); MarkedMore(x, n, m, sorts); MarkedMore(y, n, m, sorts);
    case Quantified(_, binders, body) => MarkedMore(body, n, m, sorts);
  }

  lemma {:induction false} SolvedSame(t: Term, n: nat, sorts: seq<string>, f: Solution, g: Solution)
    requires Marked(t, n, sorts) && AgreeBelow(f, g, n)
    ensures Solved(t, f) == Solved(t, g)
    decreases t
  {
    hide AgreeBelow, MarkOf;
    match t
    case Literal(_) =>
    case Id(_) =>
    case App(_, _, args) => SolvedAllSame(args, n, sorts, f, g);
    case UnaryOp(_, x) => SolvedSame(x, n, sorts, f, g);
    case BinOp(_, x, y) => SolvedSame(x, n, sorts, f, g); SolvedSame(y, n, sorts, f, g);
    case NAryOp(_, args) => SolvedAllSame(args, n, sorts, f, g);
    case Ite(c, x, y) => SolvedSame(c, n, sorts, f, g); SolvedSame(x, n, sorts, f, g); SolvedSame(y, n, sorts, f, g);
    case Quantified(_, binders, body) => SolvedSame(body, n, sorts, f, g); BindersSame(binders, n, sorts, f, g);
  }

  lemma BindersSame(binders: seq<Binder>, n: nat, sorts: seq<string>, f: Solution, g: Solution)
    requires MarkedBinders(binders, n, sorts) && AgreeBelow(f, g, n)
    ensures SolvedBinders(binders, f) == SolvedBinders(binders, g)
  {
    hide MarkOf;
    forall i | 0 <= i < |binders| ensures SolvedSort(binders[i].sort, f) == SolvedSort(binders[i].sort, g) {
      assert MarkedSort(binders[i].sort, n, sorts);
    }
  }

  lemma {:induction false} SolvedAllSame(ts: seq<Term>, n: nat, sorts: seq<string>, f: Solution, g: Solution)
    requires AllMarked(ts, n, sorts) && AgreeBelow(f, g, n)
    ensures SolvedAll(ts, f) == SolvedAll(ts, g)
    decreases ts
  {
    hide AgreeBelow, Marked, Solved;
    forall i | 0 <= i < |ts| ensures Solved(ts[i], f) == Solved(ts[i], g) { SolvedSame(ts[i], n, sorts, f, g); }
  }

  // What collecting the constraints of a term promises.

  ghost predicate SortOk(s: MaybeSort, n: nat, sorts: seq<string>) {
    match s case Known(k) => DeclaredIn(k, sorts) case Unknown(v) => v < n
  }

  ghost predicate NamesDeclared(names: Names, sorts: seq<string>) {
    && (forall x, i | x in names && names[x].Function? && 0 <= i < |names[x].args| :: DeclaredIn(names[x].args[i], sorts))
    && (forall x | x in names && names[x].Function? :: DeclaredIn(names[x].ret, sorts))
    && forall x | x in names && names[x].Single? && names[x].sort.Known? :: DeclaredIn(names[x].sort.sort, sorts)
  }

  ghost predicate NamesBelow(names: Names, n: nat) {
    forall x | x in names && names[x].Single? && names[x].sort.Unknown? :: names[x].sort.v < n
  }

  lemma UnderSame(names: Names, n: nat, f: Solution, g: Solution)
    requires NamesBelow(names, n) && AgreeBelow(f, g, n)
    ensures Under(names, f) == Under(names, g)
  {
    forall x | x in names ensures EntryUnder(names[x], f) == EntryUnder(names[x], g) {
    }
  }

  /** A completion with declared sorts that passes the sort check, with the sort that is wanted, if
      one is. */
  ghost predicate Passes(t: Term, u: Term, scope: Scope, sorts: seq<string>, want: Option<Sort>) {
    && Completes(t, u) && Annotated(u, sorts)
    && if want.Some? then SortOf(u, scope) == want else SortOf(u, scope).Some?
  }

  /** Some solution of the later table extends a solution and gives the completion and its sort. */
  ghost predicate Reaches(f: Solution, n: nat, after: Table, t1: Term, s: MaybeSort, u: Term, sort: Sort) {
    exists g: Solution :: Extends(f, g, n, after) && Solved(t1, g) == u && SortUnder(s, g) == sort
  }

  ghost predicate Extends(f: Solution, g: Solution, n: nat, after: Table) {
    AgreeBelow(f, g, n) && Solves(after, g)
  }

  /** Later tables have more variables and fewer solutions. */
  ghost predicate Refines(before: Table, after: Table, sorts: seq<string>) {
    && Valid(before) && Valid(after) && |before.rep| <= |after.rep| && DeclaredValues(after, sorts)
    && forall f: Solution | Solves(after, f) :: Solves(before, f)
  }

  ghost predicate Sound(t: Term, names: Names, t1: Term, s: MaybeSort, after: Table) {
    forall f: Solution | Solves(after, f) :: Completes(t, Solved(t1, f)) && SortOf(Solved(t1, f), Under(names, f)) == Some(SortUnder(s, f))
  }

  ghost predicate Complete(before: Table, t: Term, names: Names, sorts: seq<string>, t1: Term, s: MaybeSort, after: Table, want: Option<Sort>) {
    forall f: Solution, u | Solves(before, f) && Passes(t, u, Under(names, f), sorts, want) ::
      Reaches(f, |before.rep|, after, t1, s, u, SortOf(u, Under(names, f)).value)
  }

  /** The marked term and its sort, under the solutions of the later table, are exactly the
      completions that pass, under the solutions of the earlier one. */
  ghost predicate Collected(before: Table, t: Term, names: Names, sorts: seq<string>, t1: Term, s: MaybeSort, after: Table, want: Option<Sort>) {
    && Refines(before, after, sorts) && Marked(t1, |after.rep|, sorts) && SortOk(s, |after.rep|, sorts)
    && Sound(t, names, t1, s, after) && Complete(before, t, names, sorts, t1, s, after, want)
    && (want.Some? ==> forall f: Solution | Solves(after, f) :: SortUnder(s, f) == want.value)
  }

  /** No completion passes. */
  ghost predicate Refuted(before: Table, t: Term, names: Names, sorts: seq<string>, want: Option<Sort>) {
    forall f: Solution, u | Solves(before, f) :: !Passes(t, u, Under(names, f), sorts, want)
  }

  lemma PassesFree(t: Term, u: Term, scope: Scope, sorts: seq<string>, want: Option<Sort>)
    requires Passes(t, u, scope, sorts, want)
    ensures Passes(t, u, scope, sorts, None) && (want.Some? ==> SortOf(u, scope) == want)
  {
    hide SortOf, Completes, Annotated;
  }

  lemma ReachesOne(f: Solution, n: nat, after: Table, t1: Term, s: MaybeSort, u: Term, sort: Sort) returns (g: Solution)
    requires Reaches(f, n, after, t1, s, u, sort)
    ensures AgreeBelow(f, g, n) && Solves(after, g) && Solved(t1, g) == u && SortUnder(s, g) == sort
  {
    hide Solved, Solves, AgreeBelow;
    g :| Extends(f, g, n, after) && Solved(t1, g) == u && SortUnder(s, g) == sort;
  }

  lemma ReachesBy(f: Solution, n: nat, after: Table, t1: Term, s: MaybeSort, u: Term, sort: Sort, g: Solution)
    requires AgreeBelow(f, g, n) && Solves(after, g) && Solved(t1, g) == u && SortUnder(s, g) == sort
    ensures Reaches(f, n, after, t1, s, u, sort)
  {
    hide Solved, Solves, AgreeBelow;
    assert Extends(f, g, n, after);
  }

  /** Using a collected term under a solution. */
  lemma Completion(before: Table, t: Term, names: Names, sorts: seq<string>, t1: Term, s: MaybeSort, after: Table, want: Option<Sort>, f: Solution,
                   u: Term) returns (g: Solution)
    requires Collected(before, t, names, sorts, t1, s, after, want) && Solves(before, f) && Passes(t, u, Under(names, f), sorts, want)
    ensures AgreeBelow(f, g, |before.rep|) && Solves(after, g) && Solved(t1, g) == u && Some(SortUnder(s, g)) == SortOf(u, Under(names, f))
  {
    hide Solved, Solves, AgreeBelow, Reaches, Under, Sound, Refines, SortOf, Marked;
    PassesFree(t, u, Under(names, f), sorts, want);
    assert Reaches(f, |before.rep|, after, t1, s, u, SortOf(u, Under(names, f)).value);
    g := ReachesOne(f, |before.rep|, after, t1, s, u, SortOf(u, Under(names, f)).value);
  }

  // Wanting a sort.

  lemma ExpectedReaches(before: Table, t: Term, names: Names, sorts: seq<string>, t1: Term, s: MaybeSort, mid: Table, want: Sort, after: Table,
                        f: Solution, u: Term)
    requires Collected(before, t, names, sorts, t1, s, mid, None)
    requires forall f: Solution :: Solves(after, f) <==> Solves(mid, f) && SortUnder(s, f) == want
    requires Solves(before, f) && Passes(t, u, Under(names, f), sorts, Some(want))
    ensures SortOf(u, Under(names, f)) == Some(want) && Reaches(f, |before.rep|, after, t1, s, u, want)
  {
    hide *;
    PassesFree(t, u, Under(names, f), sorts, Some(want));
    var g := Completion(before, t, names, sorts, t1, s, mid, None, f, u);
    ReachesBy(f, |before.rep|, after, t1, s, u, want, g);
  }

  lemma FoldComplete(before: Table, t: Term, names: Names, sorts: seq<string>, t1: Term, s: MaybeSort, after: Table, want: Option<Sort>)
    requires forall f: Solution, u | Solves(before, f) && Passes(t, u, Under(names, f), sorts, want) ::
      SortOf(u, Under(names, f)).Some? && Reaches(f, |before.rep|, after, t1, s, u, SortOf(u, Under(names, f)).value)
    ensures Complete(before, t, names, sorts, t1, s, after, want)
  {
    hide Solves, Under, Reaches, SortOf, Completes, Annotated;
  }

  lemma Expected(before: Table, t: Term, names: Names, sorts: seq<string>, t1: Term, s: MaybeSort, mid: Table, want: Sort, after: Table)
    requires Collected(before, t, names, sorts, t1, s, mid, None)
    requires Valid(after) && |after.rep| == |mid.rep| && DeclaredValues(after, sorts)
    requires forall f: Solution :: Solves(after, f) <==> Solves(mid, f) && SortUnder(s, f) == want
    ensures Collected(before, t, names, sorts, t1, s, after, Some(want))
  {
    assert Complete(before, t, names, sorts, t1, s, after, Some(want)) by {
      hide *;
      forall f: Solution, u | Solves(before, f) && Passes(t, u, Under(names, f), sorts, Some(want))
        ensures SortOf(u, Under(names, f)).Some? && Reaches(f, |before.rep|, after, t1, s, u, SortOf(u, Under(names, f)).value)
      {
        ExpectedReaches(before, t, names, sorts, t1, s, mid, want, after, f, u);
      }
      FoldComplete(before, t, names, sorts, t1, s, after, Some(want));
    }
    hide Solved, Solves, Under, SortOf, Marked, Valid, DeclaredValues, Complete, Completes;
  }

  lemma Unexpected(before: Table, t: Term, names: Names, sorts: seq<string>, t1: Term, s: MaybeSort, mid: Table, want: Sort)
    requires Collected(before, t, names, sorts, t1, s, mid, None)
    requires forall f: Solution | Solves(mid, f) :: SortUnder(s, f) != want
    ensures Refuted(before, t, names, sorts, Some(want))
  {
    hide Solved, Solves, AgreeBelow, Reaches, Under, SortOf, Marked, Valid, DeclaredValues, Passes, Collected;
    forall f: Solution, u | Solves(before, f) ensures !Passes(t, u, Under(names, f), sorts, Some(want)) {
      if Passes(t, u, Under(names, f), sorts, Some(want)) {
        PassesFree(t, u, Under(names, f), sorts, Some(want));
        var g := Completion(before, t, names, sorts, t1, s, mid, None, f, u);
      }
    }
  }

  lemma RefutedFree(before: Table, t: Term, names: Names, sorts: seq<string>, want: Option<Sort>)
    requires Refuted(before, t, names, sorts, None)
    ensures Refuted(before, t, names, sorts, want)
  {
    hide Passes, Under, Solves;
    forall f: Solution, u | Solves(before, f) ensures !Passes(t, u, Under(names, f), sorts, want) {
      if Passes(t, u, Under(names, f), sorts, want) { PassesFree(t, u, Under(names, f), sorts, want); }
    }
  }

  // Lists of terms with wanted sorts.

  ghost predicate AllPass(ts: seq<Term>, us: seq<Term>, scope: Scope, sorts: seq<string>, wants: seq<Sort>) {
    |ts| == |us| == |wants| && forall i | 0 <= i < |ts| :: Passes(ts[i], us[i], scope, sorts, Some(wants[i]))
  }

  ghost predicate ListReaches(f: Solution, n: nat, after: Table, t1s: seq<Term>, us: seq<Term>) {
    exists g: Solution :: Extends(f, g, n, after) && SolvedAll(t1s, g) == us
  }

  ghost predicate ListSound(ts: seq<Term>, names: Names, t1s: seq<Term>, after: Table, wants: seq<Sort>) {
    |t1s| == |ts| == |wants| &&
    forall f: Solution | Solves(after, f) :: forall i | 0 <= i < |ts| ::
      Completes(ts[i], Solved(t1s[i], f)) && SortOf(Solved(t1s[i], f), Under(names, f)) == Some(wants[i])
  }

  ghost predicate ListComplete(before: Table, ts: seq<Term>, names: Names, sorts: seq<string>, t1s: seq<Term>, after: Table, wants: seq<Sort>) {
    forall f: Solution, us | Solves(before, f) && AllPass(ts, us, Under(names, f), sorts, wants) :: ListReaches(f, |before.rep|, after, t1s, us)
  }

  ghost predicate ListCollected(before: Table, ts: seq<Term>, names: Names, sorts: seq<string>, t1s: seq<Term>, after: Table, wants: seq<Sort>) {
    && Refines(before, after, sorts) && AllMarked(t1s, |after.rep|, sorts)
    && ListSound(ts, names, t1s, after, wants) && ListComplete(before, ts, names, sorts, t1s, after, wants)
  }

  ghost predicate ListRefuted(before: Table, ts: seq<Term>, names: Names, sorts: seq<string>, wants: seq<Sort>) {
    forall f: Solution, us | Solves(before, f) :: !AllPass(ts, us, Under(names, f), sorts, wants)
  }

  lemma ListStart(before: Table, names: Names, sorts: seq<string>)
    requires Valid(before) && DeclaredValues(before, sorts)
    ensures ListCollected(before, [], names, sorts, [], before, [])
  {
    hide Solves, Valid, DeclaredValues;
    forall f: Solution, us: seq<Term> | Solves(before, f) && us == [] ensures ListReaches(f, |before.rep|, before, [], us) {
      assert Extends(f, f, |before.rep|, before);
    }
  }

  lemma ListCompletion(before: Table, ts: seq<Term>, names: Names, sorts: seq<string>, t1s: seq<Term>, after: Table, wants: seq<Sort>, f: Solution,
                       us: seq<Term>) returns (g: Solution)
    requires ListCollected(before, ts, names, sorts, t1s, after, wants) && Solves(before, f) && AllPass(ts, us, Under(names, f), sorts, wants)
    ensures AgreeBelow(f, g, |before.rep|) && Solves(after, g) && SolvedAll(t1s, g) == us
  {
    hide SolvedAll, Solves, AgreeBelow, Under, ListSound, Refines, AllPass, AllMarked;
    assert ListReaches(f, |before.rep|, after, t1s, us);
    g :| Extends(f, g, |before.rep|, after) && SolvedAll(t1s, g) == us;
  }

  lemma AgreeTrans(f: Solution, g: Solution, h: Solution, n: nat, m: nat)
    requires AgreeBelow(f, g, n) && AgreeBelow(g, h, m) && n <= m
    ensures AgreeBelow(f, h, n)
  {
  }

  lemma RefinesTrans(a: Table, b: Table, c: Table, sorts: seq<string>)
    requires Refines(a, b, sorts) && Refines(b, c, sorts)
    ensures Refines(a, c, sorts)
  {
    hide Solves, Valid, DeclaredValues;
  }

  lemma AllMarkedMore(ts: seq<Term>, n: nat, m: nat, sorts: seq<string>)
    requires AllMarked(ts, n, sorts) && n <= m
    ensures AllMarked(ts, m, sorts)
  {
    hide Marked;
    forall i | 0 <= i < |ts| ensures Marked(ts[i], m, sorts) { MarkedMore(ts[i], n, m, sorts); }
  }

  lemma PassPrefix(ts: seq<Term>, us: seq<Term>, scope: Scope, sorts: seq<string>, wants: seq<Sort>, k: nat)
    requires AllPass(ts, us, scope, sorts, wants) && k <= |ts|
    ensures |us| == |ts| == |wants|
    ensures AllPass(ts[..k], us[..k], scope, sorts, wants[..k])
    ensures k < |ts| ==> Passes(ts[k], us[k], scope, sorts, Some(wants[k]))
  {
    hide Passes;
  }

  lemma ListNextSound(ts: seq<Term>, names: Names, sorts: seq<string>, t1s: seq<Term>, mid: Table, wants: seq<Sort>, t: Term, t1: Term, s: MaybeSort,
                      want: Sort, after: Table)
    requires ListSound(ts, names, t1s, mid, wants) && Collected(mid, t, names, sorts, t1, s, after, Some(want))
    ensures ListSound(ts + [t], names, t1s + [t1], after, wants + [want])
  {
    hide Solves, Solved, SortOf, Completes, Under, Complete, Marked, Valid, DeclaredValues;
    forall f: Solution | Solves(after, f)
      ensures forall i | 0 <= i < |ts + [t]| :: Completes((ts + [t])[i], Solved((t1s + [t1])[i], f)) && SortOf(Solved((t1s + [t1])[i], f), Under(names, f)) == Some((wants + [want])[i])
    {
      assert Solves(mid, f);
    }
  }

  lemma ListNextReaches(before: Table, ts: seq<Term>, names: Names, sorts: seq<string>, t1s: seq<Term>, mid: Table, wants: seq<Sort>, t: Term, t1: Term,
                        s: MaybeSort, want: Sort, after: Table, f: Solution, us: seq<Term>)
    requires NamesBelow(names, |before.rep|) && |ts| == |wants| == |t1s| && |before.rep| <= |mid.rep| && AllMarked(t1s, |mid.rep|, sorts)
    requires ListCollected(before, ts, names, sorts, t1s, mid, wants) && Collected(mid, t, names, sorts, t1, s, after, Some(want))
    requires Solves(before, f) && AllPass(ts + [t], us, Under(names, f), sorts, wants + [want])
    ensures ListReaches(f, |before.rep|, after, t1s + [t1], us)
  {
    hide *;
    SplitPass(ts, t, us, Under(names, f), sorts, wants, want);
    var g := ListCompletion(before, ts, names, sorts, t1s, mid, wants, f, us[..|ts|]);
    UnderSame(names, |before.rep|, f, g);
    var h := Completion(mid, t, names, sorts, t1, s, after, Some(want), g, us[|ts|]);
    AgreeTrans(f, g, h, |before.rep|, |mid.rep|);
    SolvedAllSame(t1s, |mid.rep|, sorts, g, h);
    SolvedAppend(t1s, t1, h);
    assert us == us[..|ts|] + [us[|ts|]];
    ListReachesBy(f, |before.rep|, after, t1s + [t1], us, h);
  }

  lemma SolvedAppend(ts: seq<Term>, t: Term, f: Solution)
    ensures SolvedAll(ts + [t], f) == SolvedAll(ts, f) + [Solved(t, f)]
  {
    hide Solved;
  }

  lemma ListNextComplete(before: Table, ts: seq<Term>, names: Names, sorts: seq<string>, t1s: seq<Term>, mid: Table, wants: seq<Sort>, t: Term, t1: Term,
                         s: MaybeSort, want: Sort, after: Table)
    requires NamesBelow(names, |before.rep|)
    requires ListCollected(before, ts, names, sorts, t1s, mid, wants) && Collected(mid, t, names, sorts, t1, s, after, Some(want))
    ensures ListComplete(before, ts + [t], names, sorts, t1s + [t1], after, wants + [want])
  {
    assert |ts| == |wants| == |t1s| && |before.rep| <= |mid.rep| && AllMarked(t1s, |mid.rep|, sorts);
    hide *;
    forall f: Solution, us | Solves(before, f) && AllPass(ts + [t], us, Under(names, f), sorts, wants + [want])
      ensures ListReaches(f, |before.rep|, after, t1s + [t1], us)
    {
      ListNextReaches(before, ts, names, sorts, t1s, mid, wants, t, t1, s, want, after, f, us);
    }
    FoldListComplete(before, ts + [t], names, sorts, t1s + [t1], after, wants + [want]);
  }

  lemma SplitPass(ts: seq<Term>, t: Term, us: seq<Term>, scope: Scope, sorts: seq<string>, wants: seq<Sort>, want: Sort)
    requires |ts| == |wants| && AllPass(ts + [t], us, scope, sorts, wants + [want])
    ensures |us| == |ts| + 1 && AllPass(ts, us[..|ts|], scope, sorts, wants) && Passes(t, us[|ts|], scope, sorts, Some(want))
  {
    hide Passes;
    PassPrefix(ts + [t], us, scope, sorts, wants + [want], |ts|);
    assert (ts + [t])[..|ts|] == ts && (wants + [want])[..|ts|] == wants;
  }

  lemma ListReachesBy(f: Solution, n: nat, after: Table, t1s: seq<Term>, us: seq<Term>, g: Solution)
    requires AgreeBelow(f, g, n) && Solves(after, g) && SolvedAll(t1s, g) == us
    ensures ListReaches(f, n, after, t1s, us)
  {
    hide SolvedAll, Solves, AgreeBelow;
    assert Extends(f, g, n, after);
  }

  lemma FoldListComplete(before: Table, ts: seq<Term>, names: Names, sorts: seq<string>, t1s: seq<Term>, after: Table, wants: seq<Sort>)
    requires forall f: Solution, us | Solves(before, f) && AllPass(ts, us, Under(names, f), sorts, wants) :: ListReaches(f, |before.rep|, after, t1s, us)
    ensures ListComplete(before, ts, names, sorts, t1s, after, wants)
  {
    hide Solves, AllPass, Under, ListReaches;
  }

  lemma ListNext(before: Table, ts: seq<Term>, names: Names, sorts: seq<string>, t1s: seq<Term>, mid: Table, wants: seq<Sort>, t: Term, t1: Term,
                 s: MaybeSort, want: Sort, after: Table)
    requires NamesBelow(names, |before.rep|)
    requires ListCollected(before, ts, names, sorts, t1s, mid, wants) && Collected(mid, t, names, sorts, t1, s, after, Some(want))
    ensures ListCollected(before, ts + [t], names, sorts, t1s + [t1], after, wants + [want])
  {
    ListNextComplete(before, ts, names, sorts, t1s, mid, wants, t, t1, s, want, after);
    ListNextSound(ts, names, sorts, t1s, mid, wants, t, t1, s, want, after);
    hide ListComplete, ListSound, Complete, Sound, Marked;
    AllMarkedMore(t1s, |mid.rep|, |after.rep|, sorts);
    RefinesTrans(before, mid, after, sorts);
  }

  lemma NoListPass(before: Table, ts: seq<Term>, names: Names, sorts: seq<string>, t1s: seq<Term>, mid: Table, wants: seq<Sort>, k: nat, f: Solution,
                   us: seq<Term>)
    requires NamesBelow(names, |before.rep|) && k < |ts| == |wants|
    requires ListCollected(before, ts[..k], names, sorts, t1s, mid, wants[..k]) && Refuted(mid, ts[k], names, sorts, Some(wants[k]))
    requires Solves(before, f)
    ensures !AllPass(ts, us, Under(names, f), sorts, wants)
  {
    if AllPass(ts, us, Under(names, f), sorts, wants) {
      hide Solves, AllPass, Under, ListCollected, Passes, NamesBelow, AgreeBelow, SolvedAll;
      PassPrefix(ts, us, Under(names, f), sorts, wants, k);
      var g := ListCompletion(before, ts[..k], names, sorts, t1s, mid, wants[..k], f, us[..k]);
      UnderSame(names, |before.rep|, f, g);
    }
  }

  lemma ListFails(before: Table, ts: seq<Term>, names: Names, sorts: seq<string>, t1s: seq<Term>, mid: Table, wants: seq<Sort>, k: nat)
    requires NamesBelow(names, |before.rep|) && k < |ts| == |wants|
    requires ListCollected(before, ts[..k], names, sorts, t1s, mid, wants[..k]) && Refuted(mid, ts[k], names, sorts, Some(wants[k]))
    ensures ListRefuted(before, ts, names, sorts, wants)
  {
    hide Solves, AllPass, Under, ListCollected, Refuted, NamesBelow;
    forall f: Solution, us | Solves(before, f) ensures !AllPass(ts, us, Under(names, f), sorts, wants) {
      NoListPass(before, ts, names, sorts, t1s, mid, wants, k, f, us);
    }
  }

  // Leaves.

  lemma RefinesSelf(before: Table, sorts: seq<string>)
    requires Valid(before) && DeclaredValues(before, sorts)
    ensures Refines(before, before, sorts)
  {
    hide Valid, Solves, DeclaredValues;
  }

  lemma LeafCollected(before: Table, t: Term, names: Names, sorts: seq<string>, s: MaybeSort)
    requires Valid(before) && DeclaredValues(before, sorts) && SortOk(s, |before.rep|, sorts)
    requires t.Literal? || t.Id?
    requires t.Literal? ==> s == Known(Bool)
    requires t.Id? ==> t.name in names && names[t.name] == Single(s)
    ensures Collected(before, t, names, sorts, t, s, before, None)
  {
    RefinesSelf(before, sorts);
    hide Valid, Solves, DeclaredValues, AgreeBelow, Refines, SortOk;
    forall f: Solution ensures Solved(t, f) == t && SortOf(t, Under(names, f)) == Some(SortUnder(s, f)) {
      if t.Id? { assert Under(names, f)[t.name] == EntryUnder(names[t.name], f); }
    }
    forall f: Solution, u | Solves(before, f) && Passes(t, u, Under(names, f), sorts, None)
      ensures SortOf(u, Under(names, f)).Some? && Reaches(f, |before.rep|, before, t, s, u, SortOf(u, Under(names, f)).value)
    {
      assert AgreeBelow(f, f, |before.rep|) by { Self(f, |before.rep|); }
      ReachesBy(f, |before.rep|, before, t, s, u, SortUnder(s, f), f);
    }
    FoldComplete(before, t, names, sorts, t, s, before, None);
  }

  lemma Self(f: Solution, n: nat)
    ensures AgreeBelow(f, f, n)
  {
  }

  lemma IdRefuted(before: Table, name: string, names: Names, sorts: seq<string>)
    requires name !in names || names[name].Function?
    ensures Refuted(before, Id(name), names, sorts, None)
  {
    hide Solves;
    forall f: Solution, u ensures !Passes(Id(name), u, Under(names, f), sorts, None) {
      assert name in names ==> Under(names, f)[name] == EntryUnder(names[name], f);
    }
  }

  // Operators whose arguments have known sorts.

  datatype Shape = AppShape(f: string, p: nat) | UnaryShape(uop: UOp) | BinaryShape(bop: BOp) | NAryShape(nop: NOp)

  predicate Fits(shape: Shape, names: Names, n: nat) {
    match shape
    case AppShape(f, _) => f in names && names[f].Function? && |names[f].args| == n
    case UnaryShape(op) => op != Prime && n == 1
    case BinaryShape(op) => op != Equals && op != NotEquals && n == 2
    case NAryShape(_) => true
  }

  function Build(shape: Shape, ts: seq<Term>): Term
    requires shape.UnaryShape? ==> |ts| == 1
    requires shape.BinaryShape? ==> |ts| == 2
  {
    match shape
    case AppShape(f, p) => App(f, p, ts)
    case UnaryShape(op) => UnaryOp(op, ts[0])
    case BinaryShape(op) => BinOp(op, ts[0], ts[1])
    case NAryShape(op) => NAryOp(op, ts)
  }

  function Bools(n: nat): (r: seq<Sort>)
    ensures |r| == n && forall i | 0 <= i < n :: r[i] == Bool
  {
    seq(n, i => Bool)
  }

  function Wants(shape: Shape, names: Names, n: nat): (r: seq<Sort>)
    requires Fits(shape, names, n)
    ensures |r| == n
  {
    if shape.AppShape? then names[shape.f].args else Bools(n)
  }

  function ReturnOf(shape: Shape, names: Names, n: nat): Sort
    requires Fits(shape, names, n)
  {
    if shape.AppShape? then names[shape.f].ret else Bool
  }

  function Parts(u: Term): seq<Term> {
    match u
    case App(_, _, args) => args
    case UnaryOp(_, x) => [x]
    case BinOp(_, x, y) => [x, y]
    case NAryOp(_, args) => args
    case _ => []
  }

  lemma ScopeFunction(names: Names, f: Solution, g: string)
    requires g in names && names[g].Function?
    ensures g in Under(names, f) && Under(names, f)[g] == Relation(names[g].args, names[g].ret)
  {
  }

  /** A passing completion is built from passing completions of the parts. */
  lemma PartsPass(shape: Shape, ts: seq<Term>, names: Names, f: Solution, sorts: seq<string>, u: Term)
    requires Fits(shape, names, |ts|) && Passes(Build(shape, ts), u, Under(names, f), sorts, None)
    ensures |Parts(u)| == |ts| && u == Build(shape, Parts(u)) && AllPass(ts, Parts(u), Under(names, f), sorts, Wants(shape, names, |ts|))
    ensures SortOf(u, Under(names, f)) == Some(ReturnOf(shape, names, |ts|))
  {
    var us, scope, wants := Parts(u), Under(names, f), Wants(shape, names, |ts|);
    if shape.AppShape? { ScopeFunction(names, f, shape.f); }
    hide Under;
    match shape
    case AppShape(_, _) => assert CompletesAll(ts, us) && AllAnnotated(us, sorts) && HaveSorts(us, wants, scope);
    case UnaryShape(_) => assert Completes(ts[0], us[0]) && Annotated(us[0], sorts) && SortOf(us[0], scope) == Some(Bool);
    case BinaryShape(_) =>
      assert Completes(ts[0], us[0]) && Annotated(us[0], sorts) && SortOf(us[0], scope) == Some(Bool);
      assert Completes(ts[1], us[1]) && Annotated(us[1], sorts) && SortOf(us[1], scope) == Some(Bool);
    case NAryShape(_) =>
      assert CompletesAll(ts, us) && AllAnnotated(us, sorts);
      assert forall i | 0 <= i < |us| :: SortOf(us[i], scope) == Some(Bool);
  }

  /** What is built from completions of the parts with the wanted sorts passes. */
  lemma BuildPasses(shape: Shape, ts: seq<Term>, names: Names, f: Solution, us: seq<Term>)
    requires Fits(shape, names, |ts|) && |us| == |ts|
    requires forall i | 0 <= i < |ts| :: Completes(ts[i], us[i]) && SortOf(us[i], Under(names, f)) == Some(Wants(shape, names, |ts|)[i])
    ensures Completes(Build(shape, ts), Build(shape, us)) && SortOf(Build(shape, us), Under(names, f)) == Some(ReturnOf(shape, names, |ts|))
  {
    var scope, wants := Under(names, f), Wants(shape, names, |ts|);
    if shape.AppShape? { ScopeFunction(names, f, shape.f); }
    hide Under;
    match shape
    case AppShape(_, _) => assert HaveSorts(us, wants, scope);
    case UnaryShape(_) => assert SortOf(us[0], scope) == Some(Bool);
    case BinaryShape(_) => assert SortOf(us[0], scope) == SortOf(us[1], scope) == Some(Bool);
    case NAryShape(_) => assert forall i | 0 <= i < |us| :: SortOf(us[i], scope) == Some(Bool);
  }

  lemma BuildSolved(shape: Shape, ts: seq<Term>, names: Names, f: Solution, n: nat, sorts: seq<string>)
    requires Fits(shape, names, |ts|)
    ensures Solved(Build(shape, ts), f) == Build(shape, SolvedAll(ts, f))
    ensures AllMarked(ts, n, sorts) ==> Marked(Build(shape, ts), n, sorts)
  {
  }

  lemma ShapeReaches(shape: Shape, before: Table, ts: seq<Term>, names: Names, sorts: seq<string>, t1s: seq<Term>, after: Table, f: Solution, u: Term)
    requires Fits(shape, names, |ts|) && |t1s| == |ts| && ListCollected(before, ts, names, sorts, t1s, after, Wants(shape, names, |ts|))
    requires Solves(before, f) && Passes(Build(shape, ts), u, Under(names, f), sorts, None)
    ensures SortOf(u, Under(names, f)) == Some(ReturnOf(shape, names, |ts|))
    ensures Reaches(f, |before.rep|, after, Build(shape, t1s), Known(ReturnOf(shape, names, |ts|)), u, ReturnOf(shape, names, |ts|))
  {
    hide Solved, SolvedAll, Solves, Under, Passes, ListCollected, AgreeBelow, Reaches, SortOf, AllPass, Parts, Wants, ReturnOf;
    PartsPass(shape, ts, names, f, sorts, u);
    var g := ListCompletion(before, ts, names, sorts, t1s, after, Wants(shape, names, |ts|), f, Parts(u));
    BuildSolved(shape, t1s, names, g, 0, sorts);
    ReachesBy(f, |before.rep|, after, Build(shape, t1s), Known(ReturnOf(shape, names, |ts|)), u, ReturnOf(shape, names, |ts|), g);
  }

  lemma ShapeSound(shape: Shape, ts: seq<Term>, names: Names, t1s: seq<Term>, after: Table, sorts: seq<string>)
    requires Fits(shape, names, |ts|) && |t1s| == |ts| && ListSound(ts, names, t1s, after, Wants(shape, names, |ts|))
    ensures Sound(Build(shape, ts), names, Build(shape, t1s), Known(ReturnOf(shape, names, |ts|)), after)
  {
    hide Solves, Under, Solved, SortOf, Completes, Wants, ReturnOf, Build, Marked;
    forall f: Solution | Solves(after, f)
      ensures Completes(Build(shape, ts), Solved(Build(shape, t1s), f))
      ensures SortOf(Solved(Build(shape, t1s), f), Under(names, f)) == Some(ReturnOf(shape, names, |ts|))
    {
      BuildSolved(shape, t1s, names, f, 0, sorts);
      BuildPasses(shape, ts, names, f, SolvedAll(t1s, f));
    }
  }

  lemma ShapeCollected(shape: Shape, before: Table, ts: seq<Term>, names: Names, sorts: seq<string>, t1s: seq<Term>, after: Table)
    requires Fits(shape, names, |ts|) && |t1s| == |ts| && NamesDeclared(names, sorts)
    requires ListCollected(before, ts, names, sorts, t1s, after, Wants(shape, names, |ts|))
    ensures Collected(before, Build(shape, ts), names, sorts, Build(shape, t1s), Known(ReturnOf(shape, names, |ts|)), after, None)
  {
    ShapeSound(shape, ts, names, t1s, after, sorts);
    BuildSolved(shape, t1s, names, (i: nat) => Bool, |after.rep|, sorts);
    assert Complete(before, Build(shape, ts), names, sorts, Build(shape, t1s), Known(ReturnOf(shape, names, |ts|)), after, None) by {
      hide *;
      forall f: Solution, u | Solves(before, f) && Passes(Build(shape, ts), u, Under(names, f), sorts, None)
        ensures SortOf(u, Under(names, f)).Some?
        ensures Reaches(f, |before.rep|, after, Build(shape, t1s), Known(ReturnOf(shape, names, |ts|)), u, SortOf(u, Under(names, f)).value)
      {
        ShapeReaches(shape, before, ts, names, sorts, t1s, after, f, u);
      }
      FoldComplete(before, Build(shape, ts), names, sorts, Build(shape, t1s), Known(ReturnOf(shape, names, |ts|)), after, None);
    }
    hide Build, Refines, Complete, Sound, Marked, ListSound, ListComplete, Wants;
  }

  lemma ShapeRefuted(shape: Shape, before: Table, ts: seq<Term>, names: Names, sorts: seq<string>)
    requires Fits(shape, names, |ts|) && ListRefuted(before, ts, names, sorts, Wants(shape, names, |ts|))
    ensures Refuted(before, Build(shape, ts), names, sorts, None)
  {
    hide Solves, Under, Passes, AllPass, Build, Wants, SortOf, Parts;
    forall f: Solution, u | Solves(before, f) ensures !Passes(Build(shape, ts), u, Under(names, f), sorts, None) {
      if Passes(Build(shape, ts), u, Under(names, f), sorts, None) { PartsPass(shape, ts, names, f, sorts, u); }
    }
  }

  // Primes.

  lemma PrimePasses(x: Term, u: Term, scope: Scope, sorts: seq<string>)
    requires Passes(UnaryOp(Prime, x), u, scope, sorts, None)
    ensures u.UnaryOp? && u.uop == Prime && Passes(x, u.arg, scope, sorts, None) && SortOf(u, scope) == SortOf(u.arg, scope)
  {
  }

  lemma PrimeCollected(before: Table, x: Term, names: Names, sorts: seq<string>, x1: Term, s: MaybeSort, after: Table)
    requires Collected(before, x, names, sorts, x1, s, after, None)
    ensures Collected(before, UnaryOp(Prime, x), names, sorts, UnaryOp(Prime, x1), s, after, None)
  {
    var t, t1 := UnaryOp(Prime, x), UnaryOp(Prime, x1);
    assert Marked(t1, |after.rep|, sorts);
    assert Sound(t, names, t1, s, after) by {
      hide Solves, Under;
      forall f: Solution | Solves(after, f) ensures Completes(t, Solved(t1, f)) && SortOf(Solved(t1, f), Under(names, f)) == Some(SortUnder(s, f)) {
      }
    }
    assert Complete(before, t, names, sorts, t1, s, after, None) by {
      hide Solves, Under, Passes, Collected, Reaches, AgreeBelow, Completes;
      forall f: Solution, u | Solves(before, f) && Passes(t, u, Under(names, f), sorts, None)
        ensures SortOf(u, Under(names, f)).Some? && Reaches(f, |before.rep|, after, t1, s, u, SortOf(u, Under(names, f)).value)
      {
        PrimePasses(x, u, Under(names, f), sorts);
        var g := Completion(before, x, names, sorts, x1, s, after, None, f, u.arg);
        ReachesBy(f, |before.rep|, after, t1, s, u, SortUnder(s, g), g);
      }
      FoldComplete(before, t, names, sorts, t1, s, after, None);
    }
    hide Complete, Sound, Marked, Refines, SortOk;
  }

  lemma PrimeRefuted(before: Table, x: Term, names: Names, sorts: seq<string>)
    requires Refuted(before, x, names, sorts, None)
    ensures Refuted(before, UnaryOp(Prime, x), names, sorts, None)
  {
    hide Solves, Under, Passes;
    forall f: Solution, u | Solves(before, f) ensures !Passes(UnaryOp(Prime, x), u, Under(names, f), sorts, None) {
      if Passes(UnaryOp(Prime, x), u, Under(names, f), sorts, None) { PrimePasses(x, u, Under(names, f), sorts); }
    }
  }

  // Two terms of the same sort.

  ghost predicate PairPass(x: Term, y: Term, a: Term, b: Term, scope: Scope, sorts: seq<string>) {
    Passes(x, a, scope, sorts, None) && Passes(y, b, scope, sorts, None) && SortOf(a, scope) == SortOf(b, scope)
  }

  ghost predicate PairReaches(f: Solution, n: nat, after: Table, x1: Term, y1: Term, s: MaybeSort, a: Term, b: Term, sort: Sort) {
    exists g: Solution :: Extends(f, g, n, after) && Solved(x1, g) == a && Solved(y1, g) == b && SortUnder(s, g) == sort
  }

  ghost predicate PairSound(x: Term, y: Term, names: Names, x1: Term, y1: Term, s: MaybeSort, after: Table) {
    forall f: Solution | Solves(after, f) ::
      && Completes(x, Solved(x1, f)) && Completes(y, Solved(y1, f))
      && SortOf(Solved(x1, f), Under(names, f)) == SortOf(Solved(y1, f), Under(names, f)) == Some(SortUnder(s, f))
  }

  ghost predicate PairComplete(before: Table, x: Term, y: Term, names: Names, sorts: seq<string>, x1: Term, y1: Term, s: MaybeSort, after: Table) {
    forall f: Solution, a, b | Solves(before, f) && PairPass(x, y, a, b, Under(names, f), sorts) ::
      PairReaches(f, |before.rep|, after, x1, y1, s, a, b, SortOf(a, Under(names, f)).value)
  }

  ghost predicate PairCollected(before: Table, x: Term, y: Term, names: Names, sorts: seq<string>, x1: Term, y1: Term, s: MaybeSort, after: Table) {
    && Refines(before, after, sorts) && Marked(x1, |after.rep|, sorts) && Marked(y1, |after.rep|, sorts) && SortOk(s, |after.rep|, sorts)
    && PairSound(x, y, names, x1, y1, s, after) && PairComplete(before, x, y, names, sorts, x1, y1, s, after)
  }

  ghost predicate PairRefuted(before: Table, x: Term, y: Term, names: Names, sorts: seq<string>) {
    forall f: Solution, a, b | Solves(before, f) :: !PairPass(x, y, a, b, Under(names, f), sorts)
  }

  /** Both terms collected, one after the other. */
  ghost predicate BothCollected(before: Table, x: Term, y: Term, names: Names, sorts: seq<string>, x1: Term, sx: MaybeSort, mid: Table, y1: Term,
                                sy: MaybeSort, last: Table) {
    && NamesBelow(names, |before.rep|)
    && Collected(before, x, names, sorts, x1, sx, mid, None) && Collected(mid, y, names, sorts, y1, sy, last, None)
  }

  lemma SortSame(s: MaybeSort, n: nat, sorts: seq<string>, f: Solution, g: Solution)
    requires SortOk(s, n, sorts) && AgreeBelow(f, g, n)
    ensures SortUnder(s, f) == SortUnder(s, g)
  {
  }

  lemma CollectedParts(before: Table, x: Term, names: Names, sorts: seq<string>, x1: Term, s: MaybeSort, after: Table, want: Option<Sort>)
    requires Collected(before, x, names, sorts, x1, s, after, want)
    ensures |before.rep| <= |after.rep| && Marked(x1, |after.rep|, sorts) && SortOk(s, |after.rep|, sorts) && Refines(before, after, sorts)
    ensures Sound(x, names, x1, s, after) && Valid(after) && DeclaredValues(after, sorts)
  {
    hide Marked, SortOk, Sound, Complete, Valid, DeclaredValues;
  }

  /** A solution of the last table for a pair of completions. */
  lemma PairCompletion(before: Table, x: Term, y: Term, names: Names, sorts: seq<string>, x1: Term, sx: MaybeSort, mid: Table, y1: Term,
                       sy: MaybeSort, last: Table, f: Solution, a: Term, b: Term) returns (g: Solution)
    requires BothCollected(before, x, y, names, sorts, x1, sx, mid, y1, sy, last)
    requires Solves(before, f) && PairPass(x, y, a, b, Under(names, f), sorts)
    ensures AgreeBelow(f, g, |before.rep|) && Solves(last, g) && Solved(x1, g) == a && Solved(y1, g) == b
    ensures Some(SortUnder(sx, g)) == Some(SortUnder(sy, g)) == SortOf(a, Under(names, f))
  {
    hide Solves, Solved, SortUnder, Under, Passes, Collected, AgreeBelow, SortOf, NamesBelow;
    var h := Completion(before, x, names, sorts, x1, sx, mid, None, f, a);
    UnderSame(names, |before.rep|, f, h);
    g := Completion(mid, y, names, sorts, y1, sy, last, None, h, b);
    CollectedParts(before, x, names, sorts, x1, sx, mid, None);
    AgreeTrans(f, h, g, |before.rep|, |mid.rep|);
    SolvedSame(x1, |mid.rep|, sorts, h, g);
    SortSame(sx, |mid.rep|, sorts, h, g);
  }

  lemma PairReachesBy(f: Solution, n: nat, after: Table, x1: Term, y1: Term, s: MaybeSort, a: Term, b: Term, sort: Sort, g: Solution)
    requires AgreeBelow(f, g, n) && Solves(after, g) && Solved(x1, g) == a && Solved(y1, g) == b && SortUnder(s, g) == sort
    ensures PairReaches(f, n, after, x1, y1, s, a, b, sort)
  {
    hide Solved, Solves, AgreeBelow;
    assert Extends(f, g, n, after);
  }

  ghost predicate Unified(last: Table, sx: MaybeSort, sy: MaybeSort, after: Table, sorts: seq<string>) {
    && Valid(after) && |after.rep| == |last.rep| && DeclaredValues(after, sorts)
    && forall f: Solution :: Solves(after, f) <==> Solves(last, f) && SortUnder(sx, f) == SortUnder(sy, f)
  }

  lemma PairFromComplete(before: Table, x: Term, y: Term, names: Names, sorts: seq<string>, x1: Term, sx: MaybeSort, mid: Table, y1: Term,
                         sy: MaybeSort, last: Table, after: Table)
    requires BothCollected(before, x, y, names, sorts, x1, sx, mid, y1, sy, last)
    requires forall f: Solution :: Solves(after, f) <==> Solves(last, f) && SortUnder(sx, f) == SortUnder(sy, f)
    ensures PairComplete(before, x, y, names, sorts, x1, y1, sx, after)
  {
    hide *;
    forall f: Solution, a, b | Solves(before, f) && PairPass(x, y, a, b, Under(names, f), sorts)
      ensures SortOf(a, Under(names, f)).Some? && PairReaches(f, |before.rep|, after, x1, y1, sx, a, b, SortOf(a, Under(names, f)).value)
    {
      var g := PairCompletion(before, x, y, names, sorts, x1, sx, mid, y1, sy, last, f, a, b);
      PairReachesBy(f, |before.rep|, after, x1, y1, sx, a, b, SortUnder(sx, g), g);
    }
    FoldPairComplete(before, x, y, names, sorts, x1, y1, sx, after);
  }

  lemma PairFromSound(x: Term, y: Term, names: Names, sorts: seq<string>, x1: Term, sx: MaybeSort, mid: Table, y1: Term, sy: MaybeSort, last: Table,
                      after: Table)
    requires Sound(x, names, x1, sx, mid) && Sound(y, names, y1, sy, last) && Refines(mid, last, sorts)
    requires forall f: Solution :: Solves(after, f) <==> Solves(last, f) && SortUnder(sx, f) == SortUnder(sy, f)
    ensures PairSound(x, y, names, x1, y1, sx, after)
  {
    hide Solves, Solved, Under, SortOf, Completes, Valid, DeclaredValues, SortUnder;
  }

  lemma UnifiedRefines(last: Table, sx: MaybeSort, sy: MaybeSort, after: Table, before: Table, sorts: seq<string>)
    requires Refines(before, last, sorts) && Unified(last, sx, sy, after, sorts)
    ensures Refines(before, after, sorts) && |after.rep| == |last.rep|
    ensures forall f: Solution :: Solves(after, f) <==> Solves(last, f) && SortUnder(sx, f) == SortUnder(sy, f)
  {
    hide Solves, SortUnder, Valid, DeclaredValues;
  }

  lemma PairFrom(before: Table, x: Term, y: Term, names: Names, sorts: seq<string>, x1: Term, sx: MaybeSort, mid: Table, y1: Term,
                 sy: MaybeSort, last: Table, after: Table)
    requires BothCollected(before, x, y, names, sorts, x1, sx, mid, y1, sy, last) && Unified(last, sx, sy, after, sorts)
    ensures PairCollected(before, x, y, names, sorts, x1, y1, sx, after)
  {
    CollectedParts(before, x, names, sorts, x1, sx, mid, None);
    CollectedParts(mid, y, names, sorts, y1, sy, last, None);
    assert SortOk(sx, |last.rep|, sorts);
    hide *;
    MarkedMore(x1, |mid.rep|, |last.rep|, sorts);
    RefinesTrans(before, mid, last, sorts);
    UnifiedRefines(last, sx, sy, after, before, sorts);
    PairFromComplete(before, x, y, names, sorts, x1, sx, mid, y1, sy, last, after);
    PairFromSound(x, y, names, sorts, x1, sx, mid, y1, sy, last, after);
    FoldPair(before, x, y, names, sorts, x1, y1, sx, after);
  }

  lemma FoldPair(before: Table, x: Term, y: Term, names: Names, sorts: seq<string>, x1: Term, y1: Term, s: MaybeSort, after: Table)
    requires Refines(before, after, sorts) && Marked(x1, |after.rep|, sorts) && Marked(y1, |after.rep|, sorts) && SortOk(s, |after.rep|, sorts)
    requires PairSound(x, y, names, x1, y1, s, after) && PairComplete(before, x, y, names, sorts, x1, y1, s, after)
    ensures PairCollected(before, x, y, names, sorts, x1, y1, s, after)
  {
    hide Refines, Marked, SortOk, PairSound, PairComplete;
  }

  lemma FoldPairComplete(before: Table, x: Term, y: Term, names: Names, sorts: seq<string>, x1: Term, y1: Term, s: MaybeSort, after: Table)
    requires forall f: Solution, a, b | Solves(before, f) && PairPass(x, y, a, b, Under(names, f), sorts) ::
      SortOf(a, Under(names, f)).Some? && PairReaches(f, |before.rep|, after, x1, y1, s, a, b, SortOf(a, Under(names, f)).value)
    ensures PairComplete(before, x, y, names, sorts, x1, y1, s, after)
  {
    hide Solves, Under, PairReaches, SortOf, Completes, Annotated;
  }

  lemma PairClash(before: Table, x: Term, y: Term, names: Names, sorts: seq<string>, x1: Term, sx: MaybeSort, mid: Table, y1: Term,
                  sy: MaybeSort, last: Table)
    requires BothCollected(before, x, y, names, sorts, x1, sx, mid, y1, sy, last)
    requires forall f: Solution | Solves(last, f) :: SortUnder(sx, f) != SortUnder(sy, f)
    ensures PairRefuted(before, x, y, names, sorts)
  {
    hide Solved, Under, Passes, Collected, AgreeBelow, SortOf, NamesBelow, PairPass, BothCollected, Solves;
    forall f: Solution, a, b | Solves(before, f) ensures !PairPass(x, y, a, b, Under(names, f), sorts) {
      if PairPass(x, y, a, b, Under(names, f), sorts) {
        var g := PairCompletion(before, x, y, names, sorts, x1, sx, mid, y1, sy, last, f, a, b);
      }
    }
  }

  lemma FirstRefuted(before: Table, x: Term, y: Term, names: Names, sorts: seq<string>)
    requires Refuted(before, x, names, sorts, None)
    ensures PairRefuted(before, x, y, names, sorts)
  {
    hide Solves, Under, Passes, SortOf;
  }

  lemma SecondRefuted(before: Table, x: Term, y: Term, names: Names, sorts: seq<string>, x1: Term, sx: MaybeSort, mid: Table)
    requires NamesBelow(names, |before.rep|) && Collected(before, x, names, sorts, x1, sx, mid, None) && Refuted(mid, y, names, sorts, None)
    ensures PairRefuted(before, x, y, names, sorts)
  {
    hide Solved, Under, Passes, Collected, AgreeBelow, SortOf, NamesBelow, Solves;
    forall f: Solution, a, b | Solves(before, f) ensures !PairPass(x, y, a, b, Under(names, f), sorts) {
      if PairPass(x, y, a, b, Under(names, f), sorts) {
        var g := Completion(before, x, names, sorts, x1, sx, mid, None, f, a);
        UnderSame(names, |before.rep|, f, g);
      }
    }
  }

  // Equations.

  lemma EquationPasses(op: BOp, x: Term, y: Term, u: Term, scope: Scope, sorts: seq<string>)
    requires (op == Equals || op == NotEquals) && Passes(BinOp(op, x, y), u, scope, sorts, None)
    ensures u.BinOp? && u.bop == op && PairPass(x, y, u.lhs, u.rhs, scope, sorts) && SortOf(u, scope) == Some(Bool)
  {
  }

  lemma EquationReaches(op: BOp, before: Table, x: Term, y: Term, names: Names, sorts: seq<string>, x1: Term, y1: Term, s: MaybeSort, after: Table,
                        f: Solution, u: Term)
    requires (op == Equals || op == NotEquals) && PairComplete(before, x, y, names, sorts, x1, y1, s, after)
    requires Solves(before, f) && Passes(BinOp(op, x, y), u, Under(names, f), sorts, None)
    ensures SortOf(u, Under(names, f)) == Some(Bool) && Reaches(f, |before.rep|, after, BinOp(op, x1, y1), Known(Bool), u, Bool)
  {
    hide *;
    EquationPasses(op, x, y, u, Under(names, f), sorts);
    var g := PairSolution(before, x, y, names, sorts, x1, y1, s, after, f, u.lhs, u.rhs);
    SolvedEquation(op, x1, y1, g);
    ReachesBy(f, |before.rep|, after, BinOp(op, x1, y1), Known(Bool), u, Bool, g);
  }

  lemma PairSolution(before: Table, x: Term, y: Term, names: Names, sorts: seq<string>, x1: Term, y1: Term, s: MaybeSort, after: Table, f: Solution,
                     a: Term, b: Term) returns (g: Solution)
    requires PairComplete(before, x, y, names, sorts, x1, y1, s, after) && Solves(before, f) && PairPass(x, y, a, b, Under(names, f), sorts)
    ensures AgreeBelow(f, g, |before.rep|) && Solves(after, g) && Solved(x1, g) == a && Solved(y1, g) == b
    ensures SortOf(a, Under(names, f)) == Some(SortUnder(s, g))
  {
    PairSorts(x, y, a, b, Under(names, f), sorts);
    hide Solves, Under, Passes, AgreeBelow, PairPass, SortOf, Solved;
    assert PairReaches(f, |before.rep|, after, x1, y1, s, a, b, SortOf(a, Under(names, f)).value);
    g :| Extends(f, g, |before.rep|, after) && Solved(x1, g) == a && Solved(y1, g) == b && SortUnder(s, g) == SortOf(a, Under(names, f)).value;
  }

  lemma SolvedEquation(op: BOp, x: Term, y: Term, f: Solution)
    ensures Solved(BinOp(op, x, y), f) == BinOp(op, Solved(x, f), Solved(y, f))
    ensures SortUnder(Known(Bool), f) == Bool
  {
  }

  lemma SolvedIte(c: Term, x: Term, y: Term, f: Solution)
    ensures Solved(Ite(c, x, y), f) == Ite(Solved(c, f), Solved(x, f), Solved(y, f))
  {
  }

  lemma PairSorts(x: Term, y: Term, a: Term, b: Term, scope: Scope, sorts: seq<string>)
    requires PairPass(x, y, a, b, scope, sorts)
    ensures SortOf(a, scope).Some? && SortOf(a, scope) == SortOf(b, scope)
  {
    hide SortOf, Completes, Annotated;
  }

  lemma EquationSound(op: BOp, x: Term, y: Term, names: Names, x1: Term, y1: Term, s: MaybeSort, after: Table)
    requires (op == Equals || op == NotEquals) && PairSound(x, y, names, x1, y1, s, after)
    ensures Sound(BinOp(op, x, y), names, BinOp(op, x1, y1), Known(Bool), after)
  {
    hide Solves, Under;
    forall f: Solution | Solves(after, f)
      ensures Completes(BinOp(op, x, y), Solved(BinOp(op, x1, y1), f))
      ensures SortOf(Solved(BinOp(op, x1, y1), f), Under(names, f)) == Some(Bool)
    {
    }
  }

  lemma FoldCollected(before: Table, t: Term, names: Names, sorts: seq<string>, t1: Term, s: MaybeSort, after: Table)
    requires Refines(before, after, sorts) && Marked(t1, |after.rep|, sorts) && SortOk(s, |after.rep|, sorts)
    requires Sound(t, names, t1, s, after) && Complete(before, t, names, sorts, t1, s, after, None)
    ensures Collected(before, t, names, sorts, t1, s, after, None)
  {
    hide Refines, Marked, SortOk, Sound, Complete;
  }

  lemma PairParts(before: Table, x: Term, y: Term, names: Names, sorts: seq<string>, x1: Term, y1: Term, s: MaybeSort, after: Table)
    requires PairCollected(before, x, y, names, sorts, x1, y1, s, after)
    ensures Refines(before, after, sorts) && Marked(x1, |after.rep|, sorts) && Marked(y1, |after.rep|, sorts) && SortOk(s, |after.rep|, sorts)
    ensures PairSound(x, y, names, x1, y1, s, after) && PairComplete(before, x, y, names, sorts, x1, y1, s, after)
    ensures |before.rep| <= |after.rep|
  {
    hide Marked, SortOk, PairSound, PairComplete, Valid, DeclaredValues, Solves;
  }

  lemma EquationCollected(op: BOp, before: Table, x: Term, y: Term, names: Names, sorts: seq<string>, x1: Term, y1: Term, s: MaybeSort, after: Table)
    requires (op == Equals || op == NotEquals) && PairCollected(before, x, y, names, sorts, x1, y1, s, after)
    ensures Collected(before, BinOp(op, x, y), names, sorts, BinOp(op, x1, y1), Known(Bool), after, None)
  {
    PairParts(before, x, y, names, sorts, x1, y1, s, after);
    assert Marked(BinOp(op, x1, y1), |after.rep|, sorts) && SortOk(Known(Bool), |after.rep|, sorts);
    hide *;
    EquationSound(op, x, y, names, x1, y1, s, after);
    forall f: Solution, u | Solves(before, f) && Passes(BinOp(op, x, y), u, Under(names, f), sorts, None)
      ensures SortOf(u, Under(names, f)).Some?
      ensures Reaches(f, |before.rep|, after, BinOp(op, x1, y1), Known(Bool), u, SortOf(u, Under(names, f)).value)
    {
      EquationReaches(op, before, x, y, names, sorts, x1, y1, s, after, f, u);
    }
    FoldComplete(before, BinOp(op, x, y), names, sorts, BinOp(op, x1, y1), Known(Bool), after, None);
    FoldCollected(before, BinOp(op, x, y), names, sorts, BinOp(op, x1, y1), Known(Bool), after);
  }

  lemma EquationRefuted(op: BOp, before: Table, x: Term, y: Term, names: Names, sorts: seq<string>)
    requires (op == Equals || op == NotEquals) && PairRefuted(before, x, y, names, sorts)
    ensures Refuted(before, BinOp(op, x, y), names, sorts, None)
  {
    hide Solves, Under, Passes, PairPass;
    forall f: Solution, u | Solves(before, f) ensures !Passes(BinOp(op, x, y), u, Under(names, f), sorts, None) {
      if Passes(BinOp(op, x, y), u, Under(names, f), sorts, None) { EquationPasses(op, x, y, u, Under(names, f), sorts); }
    }
  }

  // Conditionals.

  lemma ItePasses(c: Term, x: Term, y: Term, u: Term, scope: Scope, sorts: seq<string>)
    requires Passes(Ite(c, x, y), u, scope, sorts, None)
    ensures u.Ite? && Passes(c, u.cond, scope, sorts, Some(Bool)) && PairPass(x, y, u.then_, u.else_, scope, sorts)
    ensures SortOf(u, scope) == SortOf(u.then_, scope)
  {
  }

  lemma IteReaches(before: Table, c: Term, x: Term, y: Term, names: Names, sorts: seq<string>, c1: Term, sc: MaybeSort, mid: Table, x1: Term, y1: Term,
                   s: MaybeSort, after: Table, f: Solution, u: Term)
    requires NamesBelow(names, |before.rep|) && Collected(before, c, names, sorts, c1, sc, mid, Some(Bool))
    requires Marked(c1, |mid.rep|, sorts) && |before.rep| <= |mid.rep| && PairComplete(mid, x, y, names, sorts, x1, y1, s, after)
    requires Solves(before, f) && Passes(Ite(c, x, y), u, Under(names, f), sorts, None)
    ensures SortOf(u, Under(names, f)).Some?
    ensures Reaches(f, |before.rep|, after, Ite(c1, x1, y1), s, u, SortOf(u, Under(names, f)).value)
  {
    hide *;
    ItePasses(c, x, y, u, Under(names, f), sorts);
    var h := Completion(before, c, names, sorts, c1, sc, mid, Some(Bool), f, u.cond);
    UnderSame(names, |before.rep|, f, h);
    var g := PairSolution(mid, x, y, names, sorts, x1, y1, s, after, h, u.then_, u.else_);
    AgreeTrans(f, h, g, |before.rep|, |mid.rep|);
    SolvedSame(c1, |mid.rep|, sorts, h, g);
    SolvedIte(c1, x1, y1, g);
    ReachesBy(f, |before.rep|, after, Ite(c1, x1, y1), s, u, SortUnder(s, g), g);
  }

  lemma SoundUse(t: Term, names: Names, t1: Term, s: MaybeSort, after: Table, f: Solution)
    requires Sound(t, names, t1, s, after) && Solves(after, f)
    ensures Completes(t, Solved(t1, f)) && SortOf(Solved(t1, f), Under(names, f)) == Some(SortUnder(s, f))
  {
    hide Completes, Solved, SortOf, Under, Solves, SortUnder;
  }

  lemma PairSoundUse(x: Term, y: Term, names: Names, x1: Term, y1: Term, s: MaybeSort, after: Table, f: Solution)
    requires PairSound(x, y, names, x1, y1, s, after) && Solves(after, f)
    ensures Completes(x, Solved(x1, f)) && Completes(y, Solved(y1, f))
    ensures SortOf(Solved(x1, f), Under(names, f)) == SortOf(Solved(y1, f), Under(names, f)) == Some(SortUnder(s, f))
  {
    hide Completes, Solved, SortOf, Under, Solves, SortUnder;
  }

  lemma RefinesAt(before: Table, after: Table, sorts: seq<string>, f: Solution)
    requires Refines(before, after, sorts) && Solves(after, f)
    ensures Solves(before, f)
  {
    hide Solves, Valid, DeclaredValues;
  }

  lemma IteSort(c: Term, x: Term, y: Term, c2: Term, x2: Term, y2: Term, scope: Scope, s: Sort)
    requires Completes(c, c2) && Completes(x, x2) && Completes(y, y2)
    requires SortOf(c2, scope) == Some(Bool) && SortOf(x2, scope) == SortOf(y2, scope) == Some(s)
    ensures Completes(Ite(c, x, y), Ite(c2, x2, y2)) && SortOf(Ite(c2, x2, y2), scope) == Some(s)
  {
  }

  lemma FoldSound(t: Term, names: Names, t1: Term, s: MaybeSort, after: Table)
    requires forall f: Solution | Solves(after, f) :: Completes(t, Solved(t1, f)) && SortOf(Solved(t1, f), Under(names, f)) == Some(SortUnder(s, f))
    ensures Sound(t, names, t1, s, after)
  {
    hide Completes, Solved, SortOf, Under, Solves, SortUnder;
  }

  lemma IteSound(c: Term, x: Term, y: Term, names: Names, sorts: seq<string>, c1: Term, sc: MaybeSort, mid: Table, x1: Term, y1: Term,
                 s: MaybeSort, after: Table)
    requires Sound(c, names, c1, sc, mid) && PairSound(x, y, names, x1, y1, s, after) && Refines(mid, after, sorts)
    requires forall f: Solution | Solves(mid, f) :: SortUnder(sc, f) == Bool
    ensures Sound(Ite(c, x, y), names, Ite(c1, x1, y1), s, after)
  {
    hide *;
    forall f: Solution | Solves(after, f)
      ensures Completes(Ite(c, x, y), Solved(Ite(c1, x1, y1), f))
      ensures SortOf(Solved(Ite(c1, x1, y1), f), Under(names, f)) == Some(SortUnder(s, f))
    {
      RefinesAt(mid, after, sorts, f);
      SoundUse(c, names, c1, sc, mid, f);
      PairSoundUse(x, y, names, x1, y1, s, after, f);
      IteSort(c, x, y, Solved(c1, f), Solved(x1, f), Solved(y1, f), Under(names, f), SortUnder(s, f));
      SolvedIte(c1, x1, y1, f);
    }
    FoldSound(Ite(c, x, y), names, Ite(c1, x1, y1), s, after);
  }

  lemma WantedSort(before: Table, c: Term, names: Names, sorts: seq<string>, c1: Term, sc: MaybeSort, mid: Table, want: Sort)
    requires Collected(before, c, names, sorts, c1, sc, mid, Some(want))
    ensures forall f: Solution | Solves(mid, f) :: SortUnder(sc, f) == want
  {
    hide Solves, SortUnder, Refines, Sound, Complete, Marked, SortOk;
  }

  lemma IteCollected(before: Table, c: Term, x: Term, y: Term, names: Names, sorts: seq<string>, c1: Term, sc: MaybeSort, mid: Table, x1: Term, y1: Term,
                     s: MaybeSort, after: Table)
    requires NamesBelow(names, |before.rep|) && Collected(before, c, names, sorts, c1, sc, mid, Some(Bool))
    requires PairCollected(mid, x, y, names, sorts, x1, y1, s, after)
    ensures Collected(before, Ite(c, x, y), names, sorts, Ite(c1, x1, y1), s, after, None)
  {
    CollectedParts(before, c, names, sorts, c1, sc, mid, Some(Bool));
    PairParts(mid, x, y, names, sorts, x1, y1, s, after);
    WantedSort(before, c, names, sorts, c1, sc, mid, Bool);
    MarkedMore(c1, |mid.rep|, |after.rep|, sorts);
    assert Marked(Ite(c1, x1, y1), |after.rep|, sorts);
    hide *;
    RefinesTrans(before, mid, after, sorts);
    IteSound(c, x, y, names, sorts, c1, sc, mid, x1, y1, s, after);
    forall f: Solution, u | Solves(before, f) && Passes(Ite(c, x, y), u, Under(names, f), sorts, None)
      ensures SortOf(u, Under(names, f)).Some?
      ensures Reaches(f, |before.rep|, after, Ite(c1, x1, y1), s, u, SortOf(u, Under(names, f)).value)
    {
      IteReaches(before, c, x, y, names, sorts, c1, sc, mid, x1, y1, s, after, f, u);
    }
    FoldComplete(before, Ite(c, x, y), names, sorts, Ite(c1, x1, y1), s, after, None);
    FoldCollected(before, Ite(c, x, y), names, sorts, Ite(c1, x1, y1), s, after);
  }

  lemma ConditionRefuted(before: Table, c: Term, x: Term, y: Term, names: Names, sorts: seq<string>)
    requires Refuted(before, c, names, sorts, Some(Bool))
    ensures Refuted(before, Ite(c, x, y), names, sorts, None)
  {
    hide Solves, Under, Passes, PairPass;
    forall f: Solution, u | Solves(before, f) ensures !Passes(Ite(c, x, y), u, Under(names, f), sorts, None) {
      if Passes(Ite(c, x, y), u, Under(names, f), sorts, None) { ItePasses(c, x, y, u, Under(names, f), sorts); }
    }
  }

  lemma BranchesRefuted(before: Table, c: Term, x: Term, y: Term, names: Names, sorts: seq<string>, c1: Term, sc: MaybeSort, mid: Table)
    requires NamesBelow(names, |before.rep|) && Collected(before, c, names, sorts, c1, sc, mid, Some(Bool)) && PairRefuted(mid, x, y, names, sorts)
    ensures Refuted(before, Ite(c, x, y), names, sorts, None)
  {
    hide Solves, Under, Passes, PairPass, Collected, NamesBelow, AgreeBelow, SortOf, Solved;
    forall f: Solution, u | Solves(before, f) ensures !Passes(Ite(c, x, y), u, Under(names, f), sorts, None) {
      if Passes(Ite(c, x, y), u, Under(names, f), sorts, None) {
        ItePasses(c, x, y, u, Under(names, f), sorts);
        var h := Completion(before, c, names, sorts, c1, sc, mid, Some(Bool), f, u.cond);
        UnderSame(names, |before.rep|, f, h);
      }
    }
  }

  // Quantifiers.

  lemma {:induction false} AddBindersSnoc(scope: Scope, bs: seq<Binder>, b: Binder)
    ensures AddBinders(scope, bs + [b]) == AddBinders(scope, bs)[b.name := Individual(b.sort)]
    decreases |bs|
  {
    if bs == [] {
      assert [b][1..] == [];
      assert [] + [b] == [b];
    } else {
      assert (bs + [b])[1..] == bs[1..] + [b];
      AddBindersSnoc(scope[bs[0].name := Individual(bs[0].sort)], bs[1..], b);
    }
  }

  ghost predicate BindersAnnotated(cs: seq<Binder>, sorts: seq<string>) {
    forall i | 0 <= i < |cs| :: DeclaredIn(cs[i].sort, sorts)
  }

  ghost predicate BindersReach(f: Solution, n: nat, after: Table, bs1: seq<Binder>, cs: seq<Binder>) {
    exists g: Solution :: Extends(f, g, n, after) && SolvedBinders(bs1, g) == cs
  }

  ghost predicate BindersSound(bs: seq<Binder>, names: Names, bs1: seq<Binder>, inner: Names, after: Table) {
    forall f: Solution | Solves(after, f) ::
      CompletesBinders(bs, SolvedBinders(bs1, f)) && Under(inner, f) == AddBinders(Under(names, f), SolvedBinders(bs1, f))
  }

  ghost predicate BindersComplete(before: Table, bs: seq<Binder>, sorts: seq<string>, bs1: seq<Binder>, after: Table) {
    forall f: Solution, cs | Solves(before, f) && CompletesBinders(bs, cs) && BindersAnnotated(cs, sorts) :: BindersReach(f, |before.rep|, after, bs1, cs)
  }

  /** The binders with marks for the missing sorts, and the names they bring into scope. */
  ghost predicate BindersCollected(before: Table, bs: seq<Binder>, names: Names, sorts: seq<string>, bs1: seq<Binder>, inner: Names, after: Table) {
    && Refines(before, after, sorts) && MarkedBinders(bs1, |after.rep|, sorts) && NamesBelow(inner, |after.rep|) && NamesDeclared(inner, sorts)
    && DistinctNames(bs) && BindersSound(bs, names, bs1, inner, after) && BindersComplete(before, bs, sorts, bs1, after)
  }

  lemma BindersStart(before: Table, names: Names, sorts: seq<string>)
    requires Valid(before) && DeclaredValues(before, sorts) && NamesBelow(names, |before.rep|) && NamesDeclared(names, sorts)
    ensures BindersCollected(before, [], names, sorts, [], names, before)
  {
    RefinesSelf(before, sorts);
    hide Solves, Valid, DeclaredValues, Under, Refines, NamesBelow, NamesDeclared;
    forall f: Solution, cs: seq<Binder> | Solves(before, f) && cs == [] ensures BindersReach(f, |before.rep|, before, [], cs) {
      Self(f, |before.rep|);
      assert Extends(f, f, |before.rep|, before);
    }
    forall f: Solution ensures SolvedBinders([], f) == [] && AddBinders(Under(names, f), []) == Under(names, f) {
    }
  }

  function WithKey(tb: Table): Table {
    Table(tb.rep + [|tb.rep|], tb.values + [None])
  }

  lemma WithKeyRefines(tb: Table, sorts: seq<string>)
    requires Valid(tb) && DeclaredValues(tb, sorts)
    ensures Refines(tb, WithKey(tb), sorts)
    ensures forall f: Solution :: Solves(WithKey(tb), f) <==> Solves(tb, f)
  {
    var r := WithKey(tb);
    assert Valid(r);
    forall f: Solution ensures Solves(r, f) <==> Solves(tb, f) {
      if Solves(r, f) {
        forall i | 0 <= i < |tb.rep| ensures SolvesAt(tb, f, i) { assert SolvesAt(r, f, i); }
      }
      if Solves(tb, f) {
        forall i | 0 <= i < |r.rep| ensures SolvesAt(r, f, i) { if i < |tb.rep| { assert SolvesAt(tb, f, i); } }
      }
    }
  }

  /** What one binder becomes. */
  ghost predicate BinderStep(mid: Table, b: Binder, sorts: seq<string>, b1: Binder, e: NameEntry, after: Table) {
    && b1.name == b.name
    && if b.sort == NoSort then
         after == WithKey(mid) && b1.sort == Uninterpreted(Mark(|mid.rep|)) && e == Single(Unknown(|mid.rep|))
       else
         after == mid && b1 == b && e == Single(Known(b.sort)) && DeclaredIn(b.sort, sorts)
  }

  lemma StepFacts(mid: Table, b: Binder, sorts: seq<string>, b1: Binder, e: NameEntry, after: Table)
    requires BinderStep(mid, b, sorts, b1, e, after) && PlainSorts(sorts) && Valid(mid) && DeclaredValues(mid, sorts)
    ensures Refines(mid, after, sorts) && |mid.rep| <= |after.rep| && MarkedSort(b1.sort, |after.rep|, sorts) && e.Single? && SortOk(e.sort, |after.rep|, sorts)
    ensures forall f: Solution :: Solves(after, f) <==> Solves(mid, f)
    ensures forall f: Solution :: Individual(SolvedSort(b1.sort, f)) == EntryUnder(e, f) && (b.sort == NoSort || SolvedSort(b1.sort, f) == b.sort)
  {
    hide Solves;
    if b.sort == NoSort {
      WithKeyRefines(mid, sorts);
      MarkRead(|mid.rep|);
    } else {
      RefinesSelf(mid, sorts);
      PlainUnmarked(b.sort, sorts);
    }
  }

  lemma StepAt(mid: Table, b: Binder, sorts: seq<string>, b1: Binder, e: NameEntry, after: Table, f: Solution)
    requires BinderStep(mid, b, sorts, b1, e, after) && PlainSorts(sorts) && Valid(mid) && DeclaredValues(mid, sorts)
    ensures Solves(after, f) <==> Solves(mid, f)
    ensures EntryUnder(e, f) == Individual(SolvedSort(b1.sort, f)) && (b.sort == NoSort || SolvedSort(b1.sort, f) == b.sort) && b1.name == b.name
  {
    hide Solves, SolvedSort, EntryUnder, DeclaredValues, Valid, MarkOf, PlainSorts;
    StepFacts(mid, b, sorts, b1, e, after);
  }

  ghost function Updated(f: Solution, v: nat, s: Sort): Solution {
    (i: nat) => if i == v then s else f(i)
  }

  lemma FrontBinders(bs: seq<Binder>, b: Binder, cs: seq<Binder>, sorts: seq<string>)
    requires CompletesBinders(bs + [b], cs) && BindersAnnotated(cs, sorts)
    ensures |cs| == |bs| + 1 && cs == cs[..|bs|] + [cs[|bs|]] && CompletesBinders(bs, cs[..|bs|]) && BindersAnnotated(cs[..|bs|], sorts)
    ensures cs[|bs|].name == b.name && (b.sort == NoSort || b.sort == cs[|bs|].sort)
  {
    assert forall i | 0 <= i < |bs| :: (bs + [b])[i] == bs[i];
    assert (bs + [b])[|bs|] == b;
  }

  lemma SolvedBindersAppend(bs: seq<Binder>, b: Binder, f: Solution)
    ensures SolvedBinders(bs + [b], f) == SolvedBinders(bs, f) + [Binder(b.name, SolvedSort(b.sort, f))]
  {
    hide SolvedSort;
  }

  lemma BindersReachBy(f: Solution, n: nat, after: Table, bs1: seq<Binder>, cs: seq<Binder>, g: Solution)
    requires AgreeBelow(f, g, n) && Solves(after, g) && SolvedBinders(bs1, g) == cs
    ensures BindersReach(f, n, after, bs1, cs)
  {
    hide AgreeBelow, Solves, SolvedBinders;
    assert Extends(f, g, n, after);
  }

  lemma BindersNextReaches(before: Table, bs: seq<Binder>, sorts: seq<string>, bs1: seq<Binder>, mid: Table, b: Binder,
                           b1: Binder, e: NameEntry, after: Table, f: Solution, cs: seq<Binder>)
    requires BindersComplete(before, bs, sorts, bs1, mid) && MarkedBinders(bs1, |mid.rep|, sorts) && |before.rep| <= |mid.rep|
    requires Valid(mid) && DeclaredValues(mid, sorts) && BinderStep(mid, b, sorts, b1, e, after) && PlainSorts(sorts)
    requires Solves(before, f) && CompletesBinders(bs + [b], cs) && BindersAnnotated(cs, sorts)
    ensures BindersReach(f, |before.rep|, after, bs1 + [b1], cs)
  {
    hide *;
    FrontBinders(bs, b, cs, sorts);
    var front, last := cs[..|bs|], cs[|bs|];
    var g := BindersSolution(before, bs, sorts, bs1, mid, f, front);
    var h := if b.sort == NoSort then Updated(g, |mid.rep|, last.sort) else g;
    UpdatedAgrees(mid, g, h, |mid.rep|, last.sort, b.sort == NoSort);
    AgreeTrans(f, g, h, |before.rep|, |mid.rep|);
    BindersSame(bs1, |mid.rep|, sorts, g, h);
    LastSolved(mid, b, sorts, b1, e, after, h, last);
    SolvedBindersAppend(bs1, b1, h);
    StepAt(mid, b, sorts, b1, e, after, h);
    BindersReachBy(f, |before.rep|, after, bs1 + [b1], cs, h);
  }

  lemma LastSolved(mid: Table, b: Binder, sorts: seq<string>, b1: Binder, e: NameEntry, after: Table, h: Solution, last: Binder)
    requires BinderStep(mid, b, sorts, b1, e, after) && PlainSorts(sorts)
    requires last.name == b.name && (b.sort == NoSort || b.sort == last.sort)
    requires b.sort == NoSort ==> h(|mid.rep|) == last.sort
    ensures Binder(b1.name, SolvedSort(b1.sort, h)) == last
  {
    if b.sort == NoSort { MarkRead(|mid.rep|); } else { PlainUnmarked(b.sort, sorts); }
  }

  /** Changing a solution at a new variable. */
  lemma UpdatedAgrees(mid: Table, g: Solution, h: Solution, v: nat, s: Sort, update: bool)
    requires Solves(mid, g) && v == |mid.rep| && h == if update then Updated(g, v, s) else g
    ensures AgreeBelow(g, h, v) && Solves(mid, h) && (update ==> h(v) == s)
  {
    forall i | 0 <= i < |mid.rep| ensures SolvesAt(mid, h, i) { assert SolvesAt(mid, g, i); }
  }

  lemma UnderAdded(inner: Names, x: string, e: NameEntry, f: Solution)
    ensures Under(inner[x := e], f) == Under(inner, f)[x := EntryUnder(e, f)]
  {
    hide EntryUnder;
  }

  lemma CompletesNext(bs: seq<Binder>, b: Binder, cs: seq<Binder>, c: Binder)
    requires CompletesBinders(bs, cs) && b.name == c.name && (b.sort == NoSort || b.sort == c.sort)
    ensures CompletesBinders(bs + [b], cs + [c])
  {
  }

  lemma BindersNextSound(bs: seq<Binder>, names: Names, sorts: seq<string>, bs1: seq<Binder>, inner: Names, mid: Table, b: Binder, b1: Binder, e: NameEntry,
                         after: Table)
    requires BindersSound(bs, names, bs1, inner, mid) && BinderStep(mid, b, sorts, b1, e, after) && PlainSorts(sorts)
    requires Valid(mid) && DeclaredValues(mid, sorts)
    ensures BindersSound(bs + [b], names, bs1 + [b1], inner[b.name := e], after)
  {
    hide *;
    forall f: Solution | Solves(after, f)
      ensures CompletesBinders(bs + [b], SolvedBinders(bs1 + [b1], f))
      ensures Under(inner[b.name := e], f) == AddBinders(Under(names, f), SolvedBinders(bs1 + [b1], f))
    {
      StepAt(mid, b, sorts, b1, e, after, f);
      InnerScope(bs, names, bs1, inner, mid, f);
      var solved := Binder(b1.name, SolvedSort(b1.sort, f));
      SolvedBindersAppend(bs1, b1, f);
      AddBindersSnoc(Under(names, f), SolvedBinders(bs1, f), solved);
      UnderAdded(inner, b.name, e, f);
      CompletesNext(bs, b, SolvedBinders(bs1, f), solved);
    }
    FoldBindersSound(bs + [b], names, bs1 + [b1], inner[b.name := e], after);
  }

  lemma FoldBindersSound(bs: seq<Binder>, names: Names, bs1: seq<Binder>, inner: Names, after: Table)
    requires forall f: Solution | Solves(after, f) ::
      CompletesBinders(bs, SolvedBinders(bs1, f)) && Under(inner, f) == AddBinders(Under(names, f), SolvedBinders(bs1, f))
    ensures BindersSound(bs, names, bs1, inner, after)
  {
    hide Solves, CompletesBinders, SolvedBinders, Under, AddBinders;
  }

  lemma NamesNext(inner: Names, sorts: seq<string>, n: nat, m: nat, x: string, e: NameEntry)
    requires NamesBelow(inner, n) && NamesDeclared(inner, sorts) && n <= m && e.Single? && SortOk(e.sort, m, sorts)
    ensures NamesBelow(inner[x := e], m) && NamesDeclared(inner[x := e], sorts)
  {
  }

  lemma BindersNext(before: Table, bs: seq<Binder>, names: Names, sorts: seq<string>, bs1: seq<Binder>, inner: Names, mid: Table, b: Binder,
                    b1: Binder, e: NameEntry, after: Table)
    requires BindersCollected(before, bs, names, sorts, bs1, inner, mid) && BinderStep(mid, b, sorts, b1, e, after) && PlainSorts(sorts)
    requires forall i | 0 <= i < |bs| :: bs[i].name != b.name
    ensures BindersCollected(before, bs + [b], names, sorts, bs1 + [b1], inner[b.name := e], after)
  {
    assert Valid(mid) && DeclaredValues(mid, sorts);
    BindersParts(before, bs, names, sorts, bs1, inner, mid);
    StepFacts(mid, b, sorts, b1, e, after);
    BindersNextSound(bs, names, sorts, bs1, inner, mid, b, b1, e, after);
    assert BindersComplete(before, bs + [b], sorts, bs1 + [b1], after) by {
      hide Solves, Valid, DeclaredValues, Under, NamesBelow, NamesDeclared, BindersSound, SolvedSort, MarkOf, AgreeBelow, MarkedBinders, PlainSorts, CompletesBinders,
           BindersAnnotated, BindersReach, BindersCollected, BinderStep;
      forall f: Solution, cs | Solves(before, f) && CompletesBinders(bs + [b], cs) && BindersAnnotated(cs, sorts)
        ensures BindersReach(f, |before.rep|, after, bs1 + [b1], cs)
      {
        BindersNextReaches(before, bs, sorts, bs1, mid, b, b1, e, after, f, cs);
      }
    }
    RefinesTrans(before, mid, after, sorts);
    NamesNext(inner, sorts, |mid.rep|, |after.rep|, b.name, e);
    hide BindersComplete, BindersSound, Refines, Solves, Valid, DeclaredValues, Under, NamesBelow, NamesDeclared, MarkOf, BinderStep, PlainSorts;
  }

  lemma QuantifierPasses(q: Quantifier, bs: seq<Binder>, body: Term, u: Term, scope: Scope, sorts: seq<string>)
    requires Passes(Quantified(q, bs, body), u, scope, sorts, None)
    ensures u.Quantified? && u.quantifier == q && CompletesBinders(bs, u.binders) && BindersAnnotated(u.binders, sorts)
    ensures DistinctNames(bs) && SortOf(u, scope) == Some(Bool) && Passes(body, u.body, AddBinders(scope, u.binders), sorts, Some(Bool))
  {
    assert DistinctNames(u.binders);
  }

  lemma BindersSolution(before: Table, bs: seq<Binder>, sorts: seq<string>, bs1: seq<Binder>, after: Table, f: Solution, cs: seq<Binder>) returns (g: Solution)
    requires BindersComplete(before, bs, sorts, bs1, after) && Solves(before, f) && CompletesBinders(bs, cs) && BindersAnnotated(cs, sorts)
    ensures AgreeBelow(f, g, |before.rep|) && Solves(after, g) && SolvedBinders(bs1, g) == cs
  {
    hide Solves, CompletesBinders, BindersAnnotated, AgreeBelow, SolvedBinders;
    assert BindersReach(f, |before.rep|, after, bs1, cs);
    g :| Extends(f, g, |before.rep|, after) && SolvedBinders(bs1, g) == cs;
  }

  lemma InnerScope(bs: seq<Binder>, names: Names, bs1: seq<Binder>, inner: Names, after: Table, f: Solution)
    requires BindersSound(bs, names, bs1, inner, after) && Solves(after, f)
    ensures CompletesBinders(bs, SolvedBinders(bs1, f)) && Under(inner, f) == AddBinders(Under(names, f), SolvedBinders(bs1, f))
  {
    hide Solves, CompletesBinders, Under, SolvedBinders;
  }

  lemma QuantifierReaches(q: Quantifier, before: Table, bs: seq<Binder>, body: Term, names: Names, sorts: seq<string>, bs1: seq<Binder>, inner: Names, mid: Table,
                          body1: Term, s: MaybeSort, after: Table, f: Solution, u: Term)
    requires NamesBelow(names, |before.rep|) && |before.rep| <= |mid.rep| && MarkedBinders(bs1, |mid.rep|, sorts)
    requires BindersSound(bs, names, bs1, inner, mid) && BindersComplete(before, bs, sorts, bs1, mid)
    requires Collected(mid, body, inner, sorts, body1, s, after, Some(Bool))
    requires Solves(before, f) && Passes(Quantified(q, bs, body), u, Under(names, f), sorts, None)
    ensures SortOf(u, Under(names, f)) == Some(Bool) && Reaches(f, |before.rep|, after, Quantified(q, bs1, body1), Known(Bool), u, Bool)
  {
    hide *;
    QuantifierPasses(q, bs, body, u, Under(names, f), sorts);
    var g := BindersSolution(before, bs, sorts, bs1, mid, f, u.binders);
    InnerScope(bs, names, bs1, inner, mid, g);
    UnderSame(names, |before.rep|, f, g);
    var h := Completion(mid, body, inner, sorts, body1, s, after, Some(Bool), g, u.body);
    AgreeTrans(f, g, h, |before.rep|, |mid.rep|);
    BindersSame(bs1, |mid.rep|, sorts, g, h);
    SolvedQuantifier(q, bs1, body1, h);
    ReachesBy(f, |before.rep|, after, Quantified(q, bs1, body1), Known(Bool), u, Bool, h);
  }

  lemma SolvedQuantifier(q: Quantifier, bs: seq<Binder>, body: Term, f: Solution)
    ensures Solved(Quantified(q, bs, body), f) == Quantified(q, SolvedBinders(bs, f), Solved(body, f))
    ensures SortUnder(Known(Bool), f) == Bool
  {
  }

  lemma QuantifierSound(q: Quantifier, bs: seq<Binder>, body: Term, names: Names, sorts: seq<string>, bs1: seq<Binder>, inner: Names, mid: Table,
                        body1: Term, s: MaybeSort, after: Table)
    requires BindersSound(bs, names, bs1, inner, mid) && DistinctNames(bs) && Sound(body, inner, body1, s, after) && Refines(mid, after, sorts)
    requires forall f: Solution | Solves(after, f) :: SortUnder(s, f) == Bool
    ensures Sound(Quantified(q, bs, body), names, Quantified(q, bs1, body1), Known(Bool), after)
  {
    hide Solves, Under, Valid, DeclaredValues;
    forall f: Solution | Solves(after, f)
      ensures Completes(Quantified(q, bs, body), Solved(Quantified(q, bs1, body1), f))
      ensures SortOf(Solved(Quantified(q, bs1, body1), f), Under(names, f)) == Some(Bool)
    {
      assert Solves(mid, f);
      InnerScope(bs, names, bs1, inner, mid, f);
      var cs := SolvedBinders(bs1, f);
      assert DistinctNames(cs);
    }
  }

  lemma MarkedBindersMore(bs: seq<Binder>, n: nat, m: nat, sorts: seq<string>)
    requires MarkedBinders(bs, n, sorts) && n <= m
    ensures MarkedBinders(bs, m, sorts)
  {
  }

  lemma QuantifierCollected(q: Quantifier, before: Table, bs: seq<Binder>, body: Term, names: Names, sorts: seq<string>, bs1: seq<Binder>, inner: Names,
                            mid: Table, body1: Term, s: MaybeSort, after: Table)
    requires NamesBelow(names, |before.rep|) && BindersCollected(before, bs, names, sorts, bs1, inner, mid)
    requires Collected(mid, body, inner, sorts, body1, s, after, Some(Bool))
    ensures Collected(before, Quantified(q, bs, body), names, sorts, Quantified(q, bs1, body1), Known(Bool), after, None)
  {
    CollectedParts(mid, body, inner, sorts, body1, s, after, Some(Bool));
    WantedSort(mid, body, inner, sorts, body1, s, after, Bool);
    BindersParts(before, bs, names, sorts, bs1, inner, mid);
    hide *;
    MarkedBindersMore(bs1, |mid.rep|, |after.rep|, sorts);
    RefinesTrans(before, mid, after, sorts);
    QuantifierSound(q, bs, body, names, sorts, bs1, inner, mid, body1, s, after);
    forall f: Solution, u | Solves(before, f) && Passes(Quantified(q, bs, body), u, Under(names, f), sorts, None)
      ensures SortOf(u, Under(names, f)).Some?
      ensures Reaches(f, |before.rep|, after, Quantified(q, bs1, body1), Known(Bool), u, SortOf(u, Under(names, f)).value)
    {
      QuantifierReaches(q, before, bs, body, names, sorts, bs1, inner, mid, body1, s, after, f, u);
    }
    FoldComplete(before, Quantified(q, bs, body), names, sorts, Quantified(q, bs1, body1), Known(Bool), after, None);
    MarkedQuantifier(q, bs1, body1, |after.rep|, sorts);
    FoldCollected(before, Quantified(q, bs, body), names, sorts, Quantified(q, bs1, body1), Known(Bool), after);
  }

  lemma BindersParts(before: Table, bs: seq<Binder>, names: Names, sorts: seq<string>, bs1: seq<Binder>, inner: Names, mid: Table)
    requires BindersCollected(before, bs, names, sorts, bs1, inner, mid)
    ensures Refines(before, mid, sorts) && |before.rep| <= |mid.rep| && MarkedBinders(bs1, |mid.rep|, sorts) && DistinctNames(bs)
    ensures NamesBelow(inner, |mid.rep|) && NamesDeclared(inner, sorts) && Valid(mid) && DeclaredValues(mid, sorts)
    ensures BindersSound(bs, names, bs1, inner, mid) && BindersComplete(before, bs, sorts, bs1, mid)
  {
    hide Solves, Valid, DeclaredValues, NamesBelow, NamesDeclared, BindersSound, BindersComplete, MarkedBinders;
  }

  lemma MarkedQuantifier(q: Quantifier, bs: seq<Binder>, body: Term, n: nat, sorts: seq<string>)
    requires MarkedBinders(bs, n, sorts) && Marked(body, n, sorts)
    ensures Marked(Quantified(q, bs, body), n, sorts) && SortOk(Known(Bool), n, sorts)
  {
  }

  lemma BodyRefuted(q: Quantifier, before: Table, bs: seq<Binder>, body: Term, names: Names, sorts: seq<string>, bs1: seq<Binder>, inner: Names, mid: Table)
    requires NamesBelow(names, |before.rep|) && BindersCollected(before, bs, names, sorts, bs1, inner, mid) && Refuted(mid, body, inner, sorts, Some(Bool))
    ensures Refuted(before, Quantified(q, bs, body), names, sorts, None)
  {
    BindersParts(before, bs, names, sorts, bs1, inner, mid);
    hide Solves, Under, Passes, NamesBelow, AgreeBelow, SortOf, Solved, BindersCollected, BindersSound, BindersComplete, CompletesBinders, BindersAnnotated, SolvedBinders,
         AddBinders, Refines, NamesDeclared, MarkedBinders, Valid, DeclaredValues;
    forall f: Solution, u | Solves(before, f) ensures !Passes(Quantified(q, bs, body), u, Under(names, f), sorts, None) {
      if Passes(Quantified(q, bs, body), u, Under(names, f), sorts, None) {
        QuantifierPasses(q, bs, body, u, Under(names, f), sorts);
        var g := BindersSolution(before, bs, sorts, bs1, mid, f, u.binders);
        InnerScope(bs, names, bs1, inner, mid, g);
        UnderSame(names, |before.rep|, f, g);
      }
    }
  }

  lemma BindersRefuted(q: Quantifier, before: Table, bs: seq<Binder>, body: Term, names: Names, sorts: seq<string>, i: nat)
    requires i < |bs|
    requires !DistinctNames(bs) || (bs[i].sort != NoSort && !DeclaredIn(bs[i].sort, sorts))
    ensures Refuted(before, Quantified(q, bs, body), names, sorts, None)
  {
    hide Solves, Under, Passes, SortOf, DistinctNames;
    forall f: Solution, u | Solves(before, f) ensures !Passes(Quantified(q, bs, body), u, Under(names, f), sorts, None) {
      if Passes(Quantified(q, bs, body), u, Under(names, f), sorts, None) { QuantifierPasses(q, bs, body, u, Under(names, f), sorts); }
    }
  }

  // Writing the solutions.

  /** Some binder of the term is marked with the variable. */
  ghost predicate HasMark(t: Term, v: nat)
    decreases t, 1
  {
    match t
    case Literal(_) => false
    case Id(_) => false
    case App(_, _, args) => SomeMark(args, v)
    case UnaryOp(_, x) => HasMark(x, v)
    case BinOp(_, x, y) => HasMark(x, v) || HasMark(y, v)
    case NAryOp(_, args) => SomeMark(args, v)
    case Ite(c, x, y) => HasMark(c, v) || HasMark(x, v) || HasMark(y, v)
    case Quantified(_, bs, body) => BinderMark(bs, v) || HasMark(body, v)
  }

  ghost predicate SomeMark(ts: seq<Term>, v: nat)
    decreases ts, 0
  {
    exists i :: 0 <= i < |ts| && HasMark(ts[i], v)
  }

  ghost predicate BinderMark(bs: seq<Binder>, v: nat) {
    exists i :: 0 <= i < |bs| && MarkOf(bs[i].sort) == Some(v)
  }

  /** Different values of a marked variable give different terms. */
  lemma {:induction false} MarkShows(t: Term, v: nat, f: Solution, g: Solution)
    requires HasMark(t, v) && Solved(t, f) == Solved(t, g)
    ensures f(v) == g(v)
    decreases t, 1
  {
    hide MarkOf;
    match t
    case App(_, _, args) => SomeMarkShows(args, v, f, g);
    case UnaryOp(_, x) => MarkShows(x, v, f, g);
    case BinOp(_, x, y) => if HasMark(x, v) { MarkShows(x, v, f, g); } else { MarkShows(y, v, f, g); }
    case NAryOp(_, args) => SomeMarkShows(args, v, f, g);
    case Ite(c, x, y) =>
      if HasMark(c, v) { MarkShows(c, v, f, g); } else if HasMark(x, v) { MarkShows(x, v, f, g); } else { MarkShows(y, v, f, g); }
    case Quantified(_, bs, body) =>
      if i :| 0 <= i < |bs| && MarkOf(bs[i].sort) == Some(v) {
        assert SolvedBinders(bs, f)[i] == SolvedBinders(bs, g)[i];
      } else {
        MarkShows(body, v, f, g);
      }
  }

  lemma {:induction false} SomeMarkShows(ts: seq<Term>, v: nat, f: Solution, g: Solution)
    requires SomeMark(ts, v) && SolvedAll(ts, f) == SolvedAll(ts, g)
    ensures f(v) == g(v)
    decreases ts, 0
  {
    hide HasMark, Solved;
    var i :| 0 <= i < |ts| && HasMark(ts[i], v);
    assert SolvedAll(ts, f)[i] == SolvedAll(ts, g)[i];
    MarkShows(ts[i], v, f, g);
  }

  /** All solutions give the term, and its binders have declared sorts. */
  ghost predicate Written(tb: Table, t1: Term, u: Term, sorts: seq<string>) {
    Annotated(u, sorts) && forall f: Solution | Solves(tb, f) :: u == Solved(t1, f)
  }

  ghost predicate AllWritten(tb: Table, ts: seq<Term>, us: seq<Term>, sorts: seq<string>) {
    |us| == |ts| && forall i | 0 <= i < |ts| :: Written(tb, ts[i], us[i], sorts)
  }

  /** Nothing is known of the sort of some marked binder. */
  ghost predicate Open(tb: Table, t1: Term) {
    exists v: nat :: v < |tb.rep| && ValueIn(tb, v).None? && HasMark(t1, v)
  }

  ghost predicate SomeOpen(tb: Table, ts: seq<Term>) {
    exists i :: 0 <= i < |ts| && Open(tb, ts[i])
  }

  lemma WrittenApp(tb: Table, g: string, p: nat, ts: seq<Term>, us: seq<Term>, sorts: seq<string>)
    requires AllWritten(tb, ts, us, sorts)
    ensures Written(tb, App(g, p, ts), App(g, p, us), sorts)
  {
    WrittenAll(tb, ts, us, sorts);
    hide Solves, AllWritten, SolvedAll, AllAnnotated;
  }

  lemma WrittenNAry(tb: Table, op: NOp, ts: seq<Term>, us: seq<Term>, sorts: seq<string>)
    requires AllWritten(tb, ts, us, sorts)
    ensures Written(tb, NAryOp(op, ts), NAryOp(op, us), sorts)
  {
    WrittenAll(tb, ts, us, sorts);
    hide Solves, AllWritten, SolvedAll, AllAnnotated;
  }

  lemma WrittenAll(tb: Table, ts: seq<Term>, us: seq<Term>, sorts: seq<string>)
    requires AllWritten(tb, ts, us, sorts)
    ensures AllAnnotated(us, sorts) && forall f: Solution | Solves(tb, f) :: us == SolvedAll(ts, f)
  {
    hide Solves, Annotated, Solved;
    forall f: Solution | Solves(tb, f) ensures us == SolvedAll(ts, f) {
      forall i | 0 <= i < |ts| ensures us[i] == Solved(ts[i], f) { assert Written(tb, ts[i], us[i], sorts); }
    }
    forall i | 0 <= i < |ts| ensures Annotated(us[i], sorts) { assert Written(tb, ts[i], us[i], sorts); }
  }

  lemma WrittenOp(tb: Table, op: UOp, x: Term, u: Term, sorts: seq<string>)
    requires Written(tb, x, u, sorts)
    ensures Written(tb, UnaryOp(op, x), UnaryOp(op, u), sorts)
  {
    hide Solves;
  }

  lemma WrittenBinary(tb: Table, op: BOp, x: Term, u: Term, y: Term, w: Term, sorts: seq<string>)
    requires Written(tb, x, u, sorts) && Written(tb, y, w, sorts)
    ensures Written(tb, BinOp(op, x, y), BinOp(op, u, w), sorts)
  {
    hide Solves;
  }

  lemma WrittenIte(tb: Table, c: Term, d: Term, x: Term, u: Term, y: Term, w: Term, sorts: seq<string>)
    requires Written(tb, c, d, sorts) && Written(tb, x, u, sorts) && Written(tb, y, w, sorts)
    ensures Written(tb, Ite(c, x, y), Ite(d, u, w), sorts)
  {
    hide Solves;
  }

  ghost predicate BindersWritten(tb: Table, bs: seq<Binder>, cs: seq<Binder>, sorts: seq<string>) {
    |cs| == |bs| && forall i | 0 <= i < |bs| :: BinderWritten(tb, bs[i], cs[i], sorts)
  }

  ghost predicate BinderWritten(tb: Table, b: Binder, c: Binder, sorts: seq<string>) {
    c.name == b.name && DeclaredIn(c.sort, sorts) && forall f: Solution | Solves(tb, f) :: c.sort == SolvedSort(b.sort, f)
  }

  lemma WrittenQuantifier(tb: Table, q: Quantifier, bs: seq<Binder>, cs: seq<Binder>, x: Term, u: Term, sorts: seq<string>)
    requires BindersWritten(tb, bs, cs, sorts) && Written(tb, x, u, sorts)
    ensures Written(tb, Quantified(q, bs, x), Quantified(q, cs, u), sorts)
  {
    hide Solves, SolvedSort;
    forall i | 0 <= i < |bs| ensures DeclaredIn(cs[i].sort, sorts) && cs[i].name == bs[i].name { assert BinderWritten(tb, bs[i], cs[i], sorts); }
    forall f: Solution | Solves(tb, f) ensures cs == SolvedBinders(bs, f) {
      forall i | 0 <= i < |bs| ensures cs[i] == Binder(bs[i].name, SolvedSort(bs[i].sort, f)) { assert BinderWritten(tb, bs[i], cs[i], sorts); }
    }
  }

  /** A marked binder gets the value of its class. */
  lemma BinderSolved(tb: Table, b: Binder, sorts: seq<string>, v: nat, s: Sort)
    requires Valid(tb) && DeclaredValues(tb, sorts) && MarkOf(b.sort) == Some(v) && ValueIn(tb, v) == Some(s) && v < |tb.rep|
    ensures BinderWritten(tb, b, Binder(b.name, s), sorts)
  {
    forall f: Solution | Solves(tb, f) ensures s == SolvedSort(b.sort, f) { assert SolvesAt(tb, f, v); }
  }

  lemma BinderPlain(tb: Table, b: Binder, sorts: seq<string>)
    requires MarkedSort(b.sort, |tb.rep|, sorts) && MarkOf(b.sort).None?
    ensures BinderWritten(tb, b, b, sorts)
  {
  }

  // Collecting.

  ghost predicate Ready(tb: Table, names: Names, sorts: seq<string>) {
    PlainSorts(sorts) && Valid(tb) && DeclaredValues(tb, sorts) && NamesBelow(names, |tb.rep|) && NamesDeclared(names, sorts)
  }

  lemma ReadyParts(tb: Table, names: Names, sorts: seq<string>)
    requires Ready(tb, names, sorts)
    ensures PlainSorts(sorts) && Valid(tb) && DeclaredValues(tb, sorts) && NamesBelow(names, |tb.rep|) && NamesDeclared(names, sorts)
  {
  }

  lemma ReadyLater(before: Table, after: Table, names: Names, sorts: seq<string>)
    requires Ready(before, names, sorts) && Refines(before, after, sorts)
    ensures Ready(after, names, sorts)
  {
    hide Solves, Valid, DeclaredValues, NamesDeclared, PlainSorts;
  }

  lemma ReadyAfter(before: Table, t: Term, names: Names, sorts: seq<string>, t1: Term, s: MaybeSort, after: Table, want: Option<Sort>)
    requires Ready(before, names, sorts) && Collected(before, t, names, sorts, t1, s, after, want)
    ensures Ready(after, names, sorts) && SortOk(s, |after.rep|, sorts)
  {
    hide *;
    CollectedParts(before, t, names, sorts, t1, s, after, want);
    ReadyLater(before, after, names, sorts);
  }

  lemma SameValues(before: Table, after: Table, sorts: seq<string>)
    requires DeclaredValues(before, sorts) && forall i | 0 <= i < |after.values| :: after.values[i] in before.values
    ensures DeclaredValues(after, sorts)
  {
    forall i | 0 <= i < |after.values| && after.values[i].Some? ensures DeclaredIn(after.values[i].value, sorts) {
      var j :| 0 <= j < |before.values| && before.values[j] == after.values[i];
    }
  }

  lemma MoreValues(before: Table, after: Table, sorts: seq<string>, s: Sort)
    requires DeclaredValues(before, sorts) && DeclaredIn(s, sorts) && |after.values| == |before.values|
    requires forall i | 0 <= i < |after.values| :: after.values[i] == before.values[i] || after.values[i] == Some(s)
    ensures DeclaredValues(after, sorts)
  {
  }

  lemma ValidLengths(tb: Table)
    requires Valid(tb)
    ensures |tb.rep| == |tb.values|
  {
  }

  class InternalContext {
    const sorts: seq<string>
    const unification: UnificationTable

    constructor (sorts: seq<string>)
      ensures this.sorts == sorts && fresh(unification) && unification.table == Table([], []) && Valid(unification.table)
    {
      this.sorts := sorts;
      unification := new UnificationTable();
    }

    /** Require a sort: the solutions left are those that give it. */
    method UnifyVarValue(want: Sort, s: MaybeSort) returns (r: Result<()>)
      requires Valid(unification.table) && DeclaredValues(unification.table, sorts) && DeclaredIn(want, sorts)
      requires SortOk(s, |unification.table.rep|, sorts)
      modifies unification
      ensures Valid(unification.table) && DeclaredValues(unification.table, sorts) && |unification.table.rep| == |old(unification.table).rep|
      ensures r.Ok? ==> forall f: Solution :: Solves(unification.table, f) <==> Solves(old(unification.table), f) && SortUnder(s, f) == want
      ensures r.Err? ==> forall f: Solution | Solves(old(unification.table), f) :: SortUnder(s, f) != want
      ensures r.Err? ==> !r.error.UnsolvedSort?
    {
      match s {
        case Known(k) =>
          if k != want { return Err(ExpectedButFoundSorts(want, k)); }
          r := Ok(());
        case Unknown(v) =>
          hide Solves, Valid, DeclaredValues;
          ghost var before := unification.table;
          ValidLengths(before);
          r := unification.UnifyVarValue(v, want);
          ValidLengths(unification.table);
          if r.Ok? { MoreValues(before, unification.table, sorts, want); }
      }
    }

    /** Require the same sort. */
    method UnifyVarVar(a: MaybeSort, b: MaybeSort) returns (r: Result<()>)
      requires Valid(unification.table) && DeclaredValues(unification.table, sorts)
      requires SortOk(a, |unification.table.rep|, sorts) && SortOk(b, |unification.table.rep|, sorts)
      modifies unification
      ensures r.Ok? ==> Unified(old(unification.table), a, b, unification.table, sorts)
      ensures r.Err? ==> forall f: Solution | Solves(old(unification.table), f) :: SortUnder(a, f) != SortUnder(b, f)
      ensures r.Err? ==> !r.error.UnsolvedSort?
    {
      hide Solves, Valid, DeclaredValues;
      ghost var before := unification.table;
      ValidLengths(before);
      match (a, b) {
        case (Known(k), Known(l)) =>
          if k != l { return Err(UnificationFail(k, l)); }
          r := Ok(());
        case (Unknown(v), Unknown(w)) =>
          r := unification.UnifyVarVar(v, w);
          ValidLengths(unification.table);
          if r.Ok? { SameValues(before, unification.table, sorts); }
        case (Known(k), Unknown(w)) =>
          r := unification.UnifyVarValue(w, k);
          ValidLengths(unification.table);
          if r.Ok? { MoreValues(before, unification.table, sorts, k); }
        case (Unknown(v), Known(l)) =>
          r := unification.UnifyVarValue(v, l);
          ValidLengths(unification.table);
          if r.Ok? { MoreValues(before, unification.table, sorts, l); }
      }
    }

    /** Bring binders into scope, with a new variable for each missing sort. */
    method AddBindersForInference(bs: seq<Binder>, names: Names) returns (r: Result<(seq<Binder>, Names)>)
      requires Ready(unification.table, names, sorts)
      modifies unification
      ensures r.Ok? ==> BindersCollected(old(unification.table), bs, names, sorts, r.value.0, r.value.1, unification.table)
      ensures r.Err? ==> BindersWrong(bs, sorts) && !r.error.UnsolvedSort?
    {
      ReadyParts(unification.table, names, sorts);
      hide Solves, Valid, DeclaredValues, BindersCollected, Ready, PlainSorts, Mark;
      BindersStart(unification.table, names, sorts);
      var bs1, inner, k := [], names, 0;
      assert bs[..0] == [];
      while k < |bs|
        invariant k <= |bs| && BindersCollected(old(unification.table), bs[..k], names, sorts, bs1, inner, unification.table)
      {
        var b := bs[k];
        if exists i :: 0 <= i < k && bs[i].name == b.name { return Err(RedeclaredName(b.name)); }
        if b.sort != NoSort && !DeclaredIn(b.sort, sorts) { return Err(UnknownSort(b.sort.name)); }
        ghost var mid := unification.table;
        BindersParts(old(unification.table), bs[..k], names, sorts, bs1, inner, mid);
        var b1, e := b, Single(Known(b.sort));
        if b.sort == NoSort {
          var v := unification.NewKey();
          b1 := Binder(b.name, Uninterpreted(Mark(v)));
          e := Single(Unknown(v));
        }
        assert BinderStep(mid, b, sorts, b1, e, unification.table);
        BindersNext(old(unification.table), bs[..k], names, sorts, bs1, inner, mid, b, b1, e, unification.table);
        bs1, inner := bs1 + [b1], inner[b.name := e];
        assert bs[..k + 1] == bs[..k] + [b];
        k := k + 1;
      }
      assert bs[..k] == bs;
      r := Ok((bs1, inner));
    }

    /** Collect the constraints of a term: its sort, and marks for the missing sorts of its binders. */
    method CollectTerm(t: Term, names: Names) returns (r: Result<(Term, MaybeSort)>)
      requires Ready(unification.table, names, sorts)
      modifies unification
      ensures r.Ok? ==> Collected(old(unification.table), t, names, sorts, r.value.0, r.value.1, unification.table, None)
      ensures r.Err? ==> Refuted(old(unification.table), t, names, sorts, None) && !r.error.UnsolvedSort?
      decreases t, 1
    {
      ghost var before := unification.table;
      ReadyParts(before, names, sorts);
      hide *;
      match t {
        case Literal(_) =>
          assert SortOk(Known(Bool), |before.rep|, sorts) by { BoolOk(|before.rep|, sorts); }
          LeafCollected(before, t, names, sorts, Known(Bool));
          r := Ok((t, Known(Bool)));
        case Id(name) =>
          if name !in names { IdRefuted(before, name, names, sorts); return Err(UnknownVariable(name)); }
          if names[name].Function? { IdRefuted(before, name, names, sorts); return Err(Uncalled(name)); }
          NameOk(names, name, |before.rep|, sorts);
          LeafCollected(before, t, names, sorts, names[name].sort);
          r := Ok((t, names[name].sort));
        case App(f, p, args) =>
          if f !in names { NoFunction(before, t, names, sorts); return Err(UnknownFunction(f)); }
          if names[f].Single? { NoFunction(before, t, names, sorts); return Err(Uncallable(f)); }
          if |names[f].args| != |args| {
            NoFunction(before, t, names, sorts);
            return Err(ExpectedButFoundArity(f, |names[f].args|, |args|));
          }
          var shape := AppShape(f, p);
          AppFits(f, p, args, names, sorts);
          var all := CollectAll(args, names, names[f].args);
          if all.Err? { ShapeRefuted(shape, before, args, names, sorts); return Err(all.error); }
          ShapeCollected(shape, before, args, names, sorts, all.value, unification.table);
          BuildIs(shape, all.value, names, |args|);
          r := Ok((App(f, p, all.value), Known(names[f].ret)));
        case UnaryOp(op, x) =>
          if op == Prime {
            var inner := CollectTerm(x, names);
            if inner.Err? { PrimeRefuted(before, x, names, sorts); return Err(inner.error); }
            PrimeCollected(before, x, names, sorts, inner.value.0, inner.value.1, unification.table);
            r := Ok((UnaryOp(Prime, inner.value.0), inner.value.1));
          } else {
            var shape := UnaryShape(op);
            OperatorFits(shape, [x], names);
            var inner := CollectExpect(x, names, Bool);
            OneTerm(before, names, sorts);
            if inner.Err? {
              ListFails(before, [x], names, sorts, [], before, [Bool], 0);
              ShapeRefuted(shape, before, [x], names, sorts);
              return Err(inner.error);
            }
            ListNext(before, [], names, sorts, [], before, [], x, inner.value.0, inner.value.1, Bool, unification.table);
            Singles(x, inner.value.0, Bool);
            ShapeCollected(shape, before, [x], names, sorts, [inner.value.0], unification.table);
            BuildIs(shape, [inner.value.0], names, 1);
            r := Ok((UnaryOp(op, inner.value.0), Known(Bool)));
          }
        case BinOp(op, x, y) =>
          if op == Equals || op == NotEquals {
            var pair := CollectPair(x, y, names, t);
            if pair.Err? { EquationRefuted(op, before, x, y, names, sorts); return Err(pair.error); }
            EquationCollected(op, before, x, y, names, sorts, pair.value.0, pair.value.1, pair.value.2, unification.table);
            r := Ok((BinOp(op, pair.value.0, pair.value.1), Known(Bool)));
          } else {
            r := CollectConnective(op, x, y, names);
          }
        case NAryOp(op, args) =>
          var shape := NAryShape(op);
          OperatorFits(shape, args, names);
          var all := CollectAll(args, names, Bools(|args|));
          if all.Err? { ShapeRefuted(shape, before, args, names, sorts); return Err(all.error); }
          ShapeCollected(shape, before, args, names, sorts, all.value, unification.table);
          BuildIs(shape, all.value, names, |args|);
          r := Ok((NAryOp(op, all.value), Known(Bool)));
        case Ite(c, x, y) =>
          var cond := CollectExpect(c, names, Bool);
          if cond.Err? { ConditionRefuted(before, c, x, y, names, sorts); return Err(cond.error); }
          ghost var mid := unification.table;
          ReadyAfter(before, c, names, sorts, cond.value.0, cond.value.1, mid, Some(Bool));
          var pair := CollectPair(x, y, names, t);
          if pair.Err? {
            BranchesRefuted(before, c, x, y, names, sorts, cond.value.0, cond.value.1, mid);
            return Err(pair.error);
          }
          IteCollected(before, c, x, y, names, sorts, cond.value.0, cond.value.1, mid, pair.value.0, pair.value.1, pair.value.2, unification.table);
          r := Ok((Ite(cond.value.0, pair.value.0, pair.value.1), pair.value.2));
        case Quantified(q, bs, body) =>
          var bound := AddBindersForInference(bs, names);
          if bound.Err? { WrongBinders(q, before, bs, body, names, sorts); return Err(bound.error); }
          ghost var mid := unification.table;
          BindersParts(before, bs, names, sorts, bound.value.0, bound.value.1, mid);
          ReadyInner(mid, bound.value.1, sorts);
          var inner := CollectExpect(body, bound.value.1, Bool);
          if inner.Err? {
            BodyRefuted(q, before, bs, body, names, sorts, bound.value.0, bound.value.1, mid);
            return Err(inner.error);
          }
          QuantifierCollected(q, before, bs, body, names, sorts, bound.value.0, bound.value.1, mid, inner.value.0, inner.value.1, unification.table);
          r := Ok((Quantified(q, bound.value.0, inner.value.0), Known(Bool)));
      }
    }

    method CollectConnective(op: BOp, x: Term, y: Term, names: Names) returns (r: Result<(Term, MaybeSort)>)
      requires Ready(unification.table, names, sorts) && op != Equals && op != NotEquals
      modifies unification
      ensures r.Ok? ==> Collected(old(unification.table), BinOp(op, x, y), names, sorts, r.value.0, r.value.1, unification.table, None)
      ensures r.Err? ==> Refuted(old(unification.table), BinOp(op, x, y), names, sorts, None) && !r.error.UnsolvedSort?
      decreases BinOp(op, x, y), 0
    {
      ghost var before := unification.table;
      ReadyParts(before, names, sorts);
      hide *;
      var shape := BinaryShape(op);
      OperatorFits(shape, [x, y], names);
      OneTerm(before, names, sorts);
      var first := CollectExpect(x, names, Bool);
      if first.Err? {
        Twos(x, y, Bool);
        ListFails(before, [x, y], names, sorts, [], before, [Bool, Bool], 0);
        ShapeRefuted(shape, before, [x, y], names, sorts);
        return Err(first.error);
      }
      ghost var mid := unification.table;
      ListNext(before, [], names, sorts, [], before, [], x, first.value.0, first.value.1, Bool, mid);
      Singles(x, first.value.0, Bool);
      ReadyAfter(before, x, names, sorts, first.value.0, first.value.1, mid, Some(Bool));
      var second := CollectExpect(y, names, Bool);
      if second.Err? {
        Twos(x, y, Bool);
        ListFails(before, [x, y], names, sorts, [first.value.0], mid, [Bool, Bool], 1);
        ShapeRefuted(shape, before, [x, y], names, sorts);
        return Err(second.error);
      }
      ListNext(before, [x], names, sorts, [first.value.0], mid, [Bool], y, second.value.0, second.value.1, Bool, unification.table);
      Twos(x, y, Bool);
      assert [first.value.0] + [second.value.0] == [first.value.0, second.value.0];
      ShapeCollected(shape, before, [x, y], names, sorts, [first.value.0, second.value.0], unification.table);
      BuildIs(shape, [first.value.0, second.value.0], names, 2);
      r := Ok((BinOp(op, first.value.0, second.value.0), Known(Bool)));
    }

    /** Collect a term and require a sort of it. */
    method CollectExpect(t: Term, names: Names, want: Sort) returns (r: Result<(Term, MaybeSort)>)
      requires Ready(unification.table, names, sorts) && DeclaredIn(want, sorts)
      modifies unification
      ensures r.Ok? ==> Collected(old(unification.table), t, names, sorts, r.value.0, r.value.1, unification.table, Some(want))
      ensures r.Err? ==> Refuted(old(unification.table), t, names, sorts, Some(want)) && !r.error.UnsolvedSort?
      decreases t, 2
    {
      ghost var before := unification.table;
      hide *;
      r := CollectTerm(t, names);
      if r.Err? { RefutedFree(before, t, names, sorts, Some(want)); return; }
      ghost var mid := unification.table;
      ReadyAfter(before, t, names, sorts, r.value.0, r.value.1, mid, None);
      ReadyParts(mid, names, sorts);
      var unified := UnifyVarValue(want, r.value.1);
      if unified.Err? {
        Unexpected(before, t, names, sorts, r.value.0, r.value.1, mid, want);
        return Err(unified.error);
      }
      Expected(before, t, names, sorts, r.value.0, r.value.1, mid, want, unification.table);
    }

    /** Collect two terms and require the same sort of them. */
    method CollectPair(x: Term, y: Term, names: Names, ghost whole: Term) returns (r: Result<(Term, Term, MaybeSort)>)
      requires Ready(unification.table, names, sorts)
      requires (whole.BinOp? && whole.lhs == x && whole.rhs == y) || (whole.Ite? && whole.then_ == x && whole.else_ == y)
      modifies unification
      ensures r.Ok? ==> PairCollected(old(unification.table), x, y, names, sorts, r.value.0, r.value.1, r.value.2, unification.table)
      ensures r.Err? ==> PairRefuted(old(unification.table), x, y, names, sorts) && !r.error.UnsolvedSort?
      decreases whole, 0
    {
      ghost var before := unification.table;
      ReadyParts(before, names, sorts);
      hide *;
      var first := CollectTerm(x, names);
      if first.Err? { FirstRefuted(before, x, y, names, sorts); return Err(first.error); }
      ghost var mid := unification.table;
      ReadyAfter(before, x, names, sorts, first.value.0, first.value.1, mid, None);
      var second := CollectTerm(y, names);
      if second.Err? {
        SecondRefuted(before, x, y, names, sorts, first.value.0, first.value.1, mid);
        return Err(second.error);
      }
      ghost var last := unification.table;
      ReadyAfter(mid, y, names, sorts, second.value.0, second.value.1, last, None);
      ReadyParts(last, names, sorts);
      CollectedParts(mid, y, names, sorts, second.value.0, second.value.1, last, None);
      CollectedParts(before, x, names, sorts, first.value.0, first.value.1, mid, None);
      SortOkMore(first.value.1, |mid.rep|, |last.rep|, sorts);
      Both(before, x, y, names, sorts, first.value.0, first.value.1, mid, second.value.0, second.value.1, last);
      var unified := UnifyVarVar(first.value.1, second.value.1);
      if unified.Err? {
        PairClash(before, x, y, names, sorts, first.value.0, first.value.1, mid, second.value.0, second.value.1, last);
        return Err(unified.error);
      }
      PairFrom(before, x, y, names, sorts, first.value.0, first.value.1, mid, second.value.0, second.value.1, last, unification.table);
      r := Ok((first.value.0, second.value.0, first.value.1));
    }

    /** Collect a list of terms and require a sort of each. */
    method CollectAll(ts: seq<Term>, names: Names, wants: seq<Sort>) returns (r: Result<seq<Term>>)
      requires Ready(unification.table, names, sorts) && |wants| == |ts| && forall i | 0 <= i < |wants| :: DeclaredIn(wants[i], sorts)
      modifies unification
      ensures r.Ok? ==> |r.value| == |ts| && ListCollected(old(unification.table), ts, names, sorts, r.value, unification.table, wants)
      ensures r.Err? ==> ListRefuted(old(unification.table), ts, names, sorts, wants) && !r.error.UnsolvedSort?
      decreases ts, 0
    {
      ghost var before := unification.table;
      ReadyParts(before, names, sorts);
      hide *;
      OneTerm(before, names, sorts);
      var t1s, k := [], 0;
      assert ts[..0] == [] && wants[..0] == [];
      while k < |ts|
        invariant k <= |ts| && |t1s| == k && Ready(unification.table, names, sorts)
        invariant ListCollected(before, ts[..k], names, sorts, t1s, unification.table, wants[..k])
      {
        ghost var mid := unification.table;
        var next := CollectExpect(ts[k], names, wants[k]);
        if next.Err? {
          ListFails(before, ts, names, sorts, t1s, mid, wants, k);
          return Err(next.error);
        }
        ReadyAfter(mid, ts[k], names, sorts, next.value.0, next.value.1, unification.table, Some(wants[k]));
        ListNext(before, ts[..k], names, sorts, t1s, mid, wants[..k], ts[k], next.value.0, next.value.1, wants[k], unification.table);
        t1s := t1s + [next.value.0];
        assert ts[..k + 1] == ts[..k] + [ts[k]] && wants[..k + 1] == wants[..k] + [wants[k]];
        k := k + 1;
      }
      assert ts[..k] == ts && wants[..k] == wants;
      r := Ok(t1s);
    }

    /** Replace the marks by the solutions; a variable without one is an error. */
    method AnnotateSolved(t: Term) returns (r: Result<Term>)
      requires Valid(unification.table) && DeclaredValues(unification.table, sorts) && Marked(t, |unification.table.rep|, sorts)
      ensures r.Ok? ==> Written(unification.table, t, r.value, sorts)
      ensures r.Err? ==> Open(unification.table, t) && r.error.UnsolvedSort?
      decreases t, 1
    {
      hide Valid, DeclaredValues, Solves, MarkOf, Written, AllWritten, BindersWritten;
      match t {
        case Literal(_) => LeafWritten(unification.table, t, sorts); r := Ok(t);
        case Id(_) => LeafWritten(unification.table, t, sorts); r := Ok(t);
        case App(g, p, args) =>
          var us := AnnotateAll(args);
          if us.Err? { OpenArgument(unification.table, args, t); return Err(us.error); }
          WrittenApp(unification.table, g, p, args, us.value, sorts);
          r := Ok(App(g, p, us.value));
        case UnaryOp(op, x) =>
          var u := AnnotateSolved(x);
          if u.Err? { return Err(u.error); }
          WrittenOp(unification.table, op, x, u.value, sorts);
          r := Ok(UnaryOp(op, u.value));
        case BinOp(op, x, y) =>
          var u := AnnotateSolved(x);
          if u.Err? { return Err(u.error); }
          var w := AnnotateSolved(y);
          if w.Err? { return Err(w.error); }
          WrittenBinary(unification.table, op, x, u.value, y, w.value, sorts);
          r := Ok(BinOp(op, u.value, w.value));
        case NAryOp(op, args) =>
          var us := AnnotateAll(args);
          if us.Err? { OpenArgument(unification.table, args, t); return Err(us.error); }
          WrittenNAry(unification.table, op, args, us.value, sorts);
          r := Ok(NAryOp(op, us.value));
        case Ite(c, x, y) =>
          var d := AnnotateSolved(c);
          if d.Err? { return Err(d.error); }
          var u := AnnotateSolved(x);
          if u.Err? { return Err(u.error); }
          var w := AnnotateSolved(y);
          if w.Err? { return Err(w.error); }
          WrittenIte(unification.table, c, d.value, x, u.value, y, w.value, sorts);
          r := Ok(Ite(d.value, u.value, w.value));
        case Quantified(q, bs, body) =>
          var cs := AnnotateBinders(bs);
          if cs.Err? {
            OpenBinder(unification.table, q, bs, body);
            return Err(cs.error);
          }
          var u := AnnotateSolved(body);
          if u.Err? { return Err(u.error); }
          WrittenQuantifier(unification.table, q, bs, cs.value, body, u.value, sorts);
          r := Ok(Quantified(q, cs.value, u.value));
      }
    }

    method AnnotateBinders(bs: seq<Binder>) returns (r: Result<seq<Binder>>)
      requires Valid(unification.table) && DeclaredValues(unification.table, sorts) && MarkedBinders(bs, |unification.table.rep|, sorts)
      ensures r.Ok? ==> BindersWritten(unification.table, bs, r.value, sorts)
      ensures r.Err? ==> OpenBinders(unification.table, bs) && r.error.UnsolvedSort?
    {
      hide Valid, DeclaredValues, Solves, MarkOf, BinderWritten;
      var cs, k := [], 0;
      while k < |bs|
        invariant k <= |bs| && |cs| == k
        invariant forall i | 0 <= i < k :: BinderWritten(unification.table, bs[i], cs[i], sorts)
      {
        var b := bs[k];
        assert MarkedSort(b.sort, |unification.table.rep|, sorts);
        match MarkOf(b.sort) {
          case None => BinderPlain(unification.table, b, sorts); cs := cs + [b];
          case Some(v) =>
            var value := unification.Probe(v);
            if value.None? { return Err(UnsolvedSort(b.name)); }
            BinderSolved(unification.table, b, sorts, v, value.value);
            cs := cs + [Binder(b.name, value.value)];
        }
        k := k + 1;
      }
      r := Ok(cs);
    }

    method AnnotateAll(ts: seq<Term>) returns (r: Result<seq<Term>>)
      requires Valid(unification.table) && DeclaredValues(unification.table, sorts) && AllMarked(ts, |unification.table.rep|, sorts)
      ensures r.Ok? ==> AllWritten(unification.table, ts, r.value, sorts)
      ensures r.Err? ==> SomeOpen(unification.table, ts) && r.error.UnsolvedSort?
      decreases ts, 0
    {
      hide Valid, DeclaredValues, Solves, Marked, Written, Open;
      var us, k := [], 0;
      while k < |ts|
        invariant k <= |ts| && |us| == k
        invariant forall i | 0 <= i < k :: Written(unification.table, ts[i], us[i], sorts)
      {
        var u := AnnotateSolved(ts[k]);
        if u.Err? { return Err(u.error); }
        us := us + [u.value];
        k := k + 1;
      }
      r := Ok(us);
    }

    /** Infer the missing sorts of a term and find its sort. */
    method SortCheckTerm(t: Term, scope: Scope) returns (r: Result<(Term, Sort)>)
      requires PlainSorts(sorts) && ScopeDeclared(scope, sorts) && unification.table == Table([], [])
      modifies unification
      ensures r.Ok? ==> Forced(t, r.value.0, r.value.1, scope, sorts)
      ensures r.Err? && r.error.UnsolvedSort? ==> sorts != [] ==> Ambiguous(t, scope, sorts)
      ensures r.Err? && !r.error.UnsolvedSort? ==> forall u :: !Passes(t, u, scope, sorts, None)
    {
      var names := NamesFrom(scope);
      StartReady(scope, sorts);
      ReadyParts(unification.table, names, sorts);
      ghost var before := unification.table;
      hide *;
      var collected := CollectTerm(t, names);
      if collected.Err? {
        NonePass(before, t, scope, sorts);
        return Err(collected.error);
      }
      ghost var after := unification.table;
      var t1, s := collected.value.0, collected.value.1;
      ReadyAfter(before, t, names, sorts, t1, s, after, None);
      ReadyParts(after, names, sorts);
      CollectedParts(before, t, names, sorts, t1, s, after, None);
      var sort := GetMaybeUnknownSort(s);
      if sort.None? {
        UnknownSortAmbiguous(before, t, scope, sorts, t1, s, after);
        return Err(UnsolvedSort("the term given to get_term_sort"));
      }
      var annotated := AnnotateSolved(t1);
      if annotated.Err? {
        OpenAmbiguous(before, t, scope, sorts, t1, s, after);
        return Err(annotated.error);
      }
      ForcedBy(before, t, scope, sorts, t1, s, after, annotated.value, sort.value);
      r := Ok((annotated.value, sort.value));
    }

    method GetMaybeUnknownSort(s: MaybeSort) returns (r: Option<Sort>)
      ensures r == if s.Known? then Some(s.sort) else ValueIn(unification.table, s.v)
    {
      match s {
        case Known(k) => r := Some(k);
        case Unknown(v) => r := unification.Probe(v);
      }
    }
  }

  ghost predicate OpenBinders(tb: Table, bs: seq<Binder>) {
    exists i, v: nat :: 0 <= i < |bs| && v < |tb.rep| && MarkOf(bs[i].sort) == Some(v) && ValueIn(tb, v).None?
  }

  lemma OpenBinder(tb: Table, q: Quantifier, bs: seq<Binder>, body: Term)
    requires OpenBinders(tb, bs)
    ensures Open(tb, Quantified(q, bs, body))
  {
    hide MarkOf, ValueIn;
    var i, v: nat :| 0 <= i < |bs| && v < |tb.rep| && MarkOf(bs[i].sort) == Some(v) && ValueIn(tb, v).None?;
    assert BinderMark(bs, v);
  }

  lemma OpenArgument(tb: Table, ts: seq<Term>, t: Term)
    requires SomeOpen(tb, ts) && ((t.App? && t.args == ts) || (t.NAryOp? && t.args == ts))
    ensures Open(tb, t)
  {
    hide ValueIn;
    var i :| 0 <= i < |ts| && Open(tb, ts[i]);
    var v: nat :| v < |tb.rep| && ValueIn(tb, v).None? && HasMark(ts[i], v);
    assert SomeMark(ts, v);
  }

  lemma LeafWritten(tb: Table, t: Term, sorts: seq<string>)
    requires t.Literal? || t.Id?
    ensures Written(tb, t, t, sorts)
  {
    hide Solves;
  }

  // The result.

  ghost predicate ScopeDeclared(scope: Scope, sorts: seq<string>) {
    forall x | x in scope ::
      match scope[x]
      case Relation(args, ret) => DeclaredIn(ret, sorts) && forall i | 0 <= i < |args| :: DeclaredIn(args[i], sorts)
      case Individual(s) => DeclaredIn(s, sorts)
  }

  function NamesFrom(scope: Scope): Names {
    map x | x in scope :: match scope[x] case Relation(args, ret) => Function(args, ret) case Individual(s) => Single(Known(s))
  }

  lemma UnderFrom(scope: Scope, f: Solution)
    ensures Under(NamesFrom(scope), f) == scope
  {
  }

  lemma StartReady(scope: Scope, sorts: seq<string>)
    requires PlainSorts(sorts) && ScopeDeclared(scope, sorts)
    ensures Ready(Table([], []), NamesFrom(scope), sorts)
  {
  }

  /** The only completion that passes, with its sort. */
  ghost predicate Forced(t: Term, u: Term, s: Sort, scope: Scope, sorts: seq<string>) {
    Passes(t, u, scope, sorts, Some(s)) && forall w | Passes(t, w, scope, sorts, None) :: w == u
  }

  /** Two different completions pass. */
  ghost predicate Ambiguous(t: Term, scope: Scope, sorts: seq<string>) {
    exists u, w :: u != w && Passes(t, u, scope, sorts, None) && Passes(t, w, scope, sorts, None)
  }

  lemma NonePass(before: Table, t: Term, scope: Scope, sorts: seq<string>)
    requires before == Table([], []) && Refuted(before, t, NamesFrom(scope), sorts, None)
    ensures forall u :: !Passes(t, u, scope, sorts, None)
  {
    hide Passes, Under, NamesFrom;
    var f := Solvable(before);
    UnderFrom(scope, f);
  }

  lemma CompleteParts(before: Table, t: Term, names: Names, sorts: seq<string>, t1: Term, s: MaybeSort, after: Table)
    requires Collected(before, t, names, sorts, t1, s, after, None) && before == Table([], [])
    ensures forall f: Solution, u | Passes(t, u, Under(names, f), sorts, None) :: exists g: Solution :: Solves(after, g) && Solved(t1, g) == u
  {
    hide Passes, Under, Solved, SortOf;
    forall f: Solution, u | Passes(t, u, Under(names, f), sorts, None) ensures exists g: Solution :: Solves(after, g) && Solved(t1, g) == u {
      assert Solves(before, f);
      hide Collected, Solves;
      var g := Completion(before, t, names, sorts, t1, s, after, None, f, u);
    }
  }

  lemma SoundAt(t: Term, scope: Scope, t1: Term, s: MaybeSort, after: Table, f: Solution)
    requires Sound(t, NamesFrom(scope), t1, s, after) && Solves(after, f)
    ensures Completes(t, Solved(t1, f)) && SortOf(Solved(t1, f), scope) == Some(SortUnder(s, f))
  {
    hide Solves, Completes, SortOf, Solved, Under, NamesFrom;
    UnderFrom(scope, f);
  }

  lemma ForcedBy(before: Table, t: Term, scope: Scope, sorts: seq<string>, t1: Term, s: MaybeSort, after: Table, u: Term, sort: Sort)
    requires before == Table([], []) && Collected(before, t, NamesFrom(scope), sorts, t1, s, after, None) && Sound(t, NamesFrom(scope), t1, s, after)
    requires Valid(after) && SortOk(s, |after.rep|, sorts) && Written(after, t1, u, sorts)
    requires Some(sort) == if s.Known? then Some(s.sort) else ValueIn(after, s.v)
    ensures Forced(t, u, sort, scope, sorts)
  {
    var f := Solvable(after);
    if s.Unknown? { assert SolvesAt(after, f, s.v); }
    assert SortUnder(s, f) == sort;
    assert u == Solved(t1, f);
    SoundAt(t, scope, t1, s, after, f);
    CompleteParts(before, t, NamesFrom(scope), sorts, t1, s, after);
    UnderFrom(scope, f);
    hide Collected, Sound, Solves, Completes, SortOf, Solved, Under, NamesFrom, Annotated, Valid, SortOk;
    forall w | Passes(t, w, scope, sorts, None) ensures w == u {
      var g: Solution :| Solves(after, g) && Solved(t1, g) == w;
    }
  }

  /** Variables without a value may have any sort. */
  lemma FreeSolution(tb: Table, v: nat, s: Sort, sorts: seq<string>) returns (f: Solution)
    requires Valid(tb) && DeclaredValues(tb, sorts) && v < |tb.rep| && ValueIn(tb, v).None? && DeclaredIn(s, sorts)
    ensures Solves(tb, f) && f(v) == s && forall i: nat :: DeclaredIn(f(i), sorts)
  {
    f := (i: nat) =>
      if ValueIn(tb, i).Some? then ValueIn(tb, i).value else if i < |tb.rep| && tb.rep[i] == tb.rep[v] then s else Bool;
    forall i: nat ensures DeclaredIn(f(i), sorts) {
    }
  }

  lemma {:induction false} SolvedAnnotated(t: Term, f: Solution, n: nat, sorts: seq<string>)
    requires Marked(t, n, sorts) && forall i: nat :: DeclaredIn(f(i), sorts)
    ensures Annotated(Solved(t, f), sorts)
    decreases t
  {
    hide MarkOf, DeclaredIn;
    match t
    case Literal(_) =>
    case Id(_) =>
    case App(_, _, args) => AllSolvedAnnotated(args, f, n, sorts);
    case UnaryOp(_, x) => SolvedAnnotated(x, f, n, sorts);
    case BinOp(_, x, y) => SolvedAnnotated(x, f, n, sorts); SolvedAnnotated(y, f, n, sorts);
    case NAryOp(_, args) => AllSolvedAnnotated(args, f, n, sorts);
    case Ite(c, x, y) => SolvedAnnotated(c, f, n, sorts); SolvedAnnotated(x, f, n, sorts); SolvedAnnotated(y, f, n, sorts);
    case Quantified(_, bs, body) =>
      SolvedAnnotated(body, f, n, sorts);
      forall i | 0 <= i < |bs| ensures DeclaredIn(SolvedBinders(bs, f)[i].sort, sorts) { assert MarkedSort(bs[i].sort, n, sorts); }
  }

  lemma {:induction false} AllSolvedAnnotated(ts: seq<Term>, f: Solution, n: nat, sorts: seq<string>)
    requires AllMarked(ts, n, sorts) && forall i: nat :: DeclaredIn(f(i), sorts)
    ensures AllAnnotated(SolvedAll(ts, f), sorts)
    decreases ts
  {
    hide Marked, Annotated, DeclaredIn;
    forall i | 0 <= i < |ts| ensures Annotated(SolvedAll(ts, f)[i], sorts) { SolvedAnnotated(ts[i], f, n, sorts); }
  }

  lemma SolutionPasses(t: Term, scope: Scope, sorts: seq<string>, t1: Term, s: MaybeSort, after: Table, f: Solution)
    requires Sound(t, NamesFrom(scope), t1, s, after) && Marked(t1, |after.rep|, sorts) && Solves(after, f) && forall i: nat :: DeclaredIn(f(i), sorts)
    ensures Passes(t, Solved(t1, f), scope, sorts, None) && SortOf(Solved(t1, f), scope) == Some(SortUnder(s, f))
  {
    SoundAt(t, scope, t1, s, after, f);
    SolvedAnnotated(t1, f, |after.rep|, sorts);
    hide Sound, Marked, Solves, Completes, SortOf, Annotated, Solved, DeclaredIn, NamesFrom;
  }

  lemma OpenAmbiguous(before: Table, t: Term, scope: Scope, sorts: seq<string>, t1: Term, s: MaybeSort, after: Table)
    requires Sound(t, NamesFrom(scope), t1, s, after) && Marked(t1, |after.rep|, sorts) && Valid(after) && DeclaredValues(after, sorts) && Open(after, t1)
    ensures sorts != [] ==> Ambiguous(t, scope, sorts)
  {
    if sorts != [] {
      var v: nat :| v < |after.rep| && ValueIn(after, v).None? && HasMark(t1, v);
      assert sorts[0] in sorts;
      hide Sound, Marked, Solves, Passes, Solved, NamesFrom, HasMark, Valid, DeclaredValues, ValueIn;
      var f := FreeSolution(after, v, Bool, sorts);
      var g := FreeSolution(after, v, Uninterpreted(sorts[0]), sorts);
      SolutionPasses(t, scope, sorts, t1, s, after, f);
      SolutionPasses(t, scope, sorts, t1, s, after, g);
      if Solved(t1, f) == Solved(t1, g) { MarkShows(t1, v, f, g); }
    }
  }

  lemma UnknownSortAmbiguous(before: Table, t: Term, scope: Scope, sorts: seq<string>, t1: Term, s: MaybeSort, after: Table)
    requires Sound(t, NamesFrom(scope), t1, s, after) && Marked(t1, |after.rep|, sorts) && Valid(after) && DeclaredValues(after, sorts)
    requires SortOk(s, |after.rep|, sorts) && s.Unknown? && ValueIn(after, s.v).None?
    ensures sorts != [] ==> Ambiguous(t, scope, sorts)
  {
    if sorts != [] {
      assert sorts[0] in sorts;
      hide Sound, Marked, Solves, Passes, Solved, NamesFrom, Valid, DeclaredValues, ValueIn, SortOf;
      var f := FreeSolution(after, s.v, Bool, sorts);
      var g := FreeSolution(after, s.v, Uninterpreted(sorts[0]), sorts);
      SolutionPasses(t, scope, sorts, t1, s, after, f);
      SolutionPasses(t, scope, sorts, t1, s, after, g);
    }
  }

  ghost predicate BindersWrong(bs: seq<Binder>, sorts: seq<string>) {
    !DistinctNames(bs) || exists i :: 0 <= i < |bs| && bs[i].sort != NoSort && !DeclaredIn(bs[i].sort, sorts)
  }

  lemma WrongBinders(q: Quantifier, before: Table, bs: seq<Binder>, body: Term, names: Names, sorts: seq<string>)
    requires BindersWrong(bs, sorts)
    ensures Refuted(before, Quantified(q, bs, body), names, sorts, None)
  {
    hide Refuted;
    if DistinctNames(bs) {
      var i :| 0 <= i < |bs| && bs[i].sort != NoSort && !DeclaredIn(bs[i].sort, sorts);
      BindersRefuted(q, before, bs, body, names, sorts, i);
    } else {
      BindersRefuted(q, before, bs, body, names, sorts, 0);
    }
  }

  lemma ReadyInner(mid: Table, inner: Names, sorts: seq<string>)
    requires PlainSorts(sorts) && Valid(mid) && DeclaredValues(mid, sorts) && NamesBelow(inner, |mid.rep|) && NamesDeclared(inner, sorts)
    ensures Ready(mid, inner, sorts) && DeclaredIn(Bool, sorts)
  {
  }

  lemma BoolOk(n: nat, sorts: seq<string>)
    ensures SortOk(Known(Bool), n, sorts) && DeclaredIn(Bool, sorts)
  {
  }

  lemma NameOk(names: Names, name: string, n: nat, sorts: seq<string>)
    requires NamesBelow(names, n) && NamesDeclared(names, sorts) && name in names && names[name].Single?
    ensures SortOk(names[name].sort, n, sorts)
  {
  }

  lemma SortOkMore(s: MaybeSort, n: nat, m: nat, sorts: seq<string>)
    requires SortOk(s, n, sorts) && n <= m
    ensures SortOk(s, m, sorts)
  {
  }

  lemma NoFunction(before: Table, t: Term, names: Names, sorts: seq<string>)
    requires t.App? && (t.f !in names || names[t.f].Single? || |names[t.f].args| != |t.args|)
    ensures Refuted(before, t, names, sorts, None)
  {
    hide Solves;
    forall f: Solution, u ensures !Passes(t, u, Under(names, f), sorts, None) {
      assert t.f in names ==> Under(names, f)[t.f] == EntryUnder(names[t.f], f);
      assert Completes(t, u) ==> u.App? && u.f == t.f && CompletesAll(t.args, u.args);
      hide Under, Completes, Annotated;
      assert t.f in names && names[t.f].Single? ==> EntryUnder(names[t.f], f).Individual?;
      assert t.f in names && names[t.f].Function? ==> EntryUnder(names[t.f], f) == Relation(names[t.f].args, names[t.f].ret);
    }
  }

  lemma AppFits(f: string, p: nat, args: seq<Term>, names: Names, sorts: seq<string>)
    requires f in names && names[f].Function? && |names[f].args| == |args| && NamesDeclared(names, sorts)
    ensures Fits(AppShape(f, p), names, |args|) && Wants(AppShape(f, p), names, |args|) == names[f].args
    ensures Build(AppShape(f, p), args) == App(f, p, args)
    ensures forall i | 0 <= i < |args| :: DeclaredIn(names[f].args[i], sorts)
  {
  }

  lemma OperatorFits(shape: Shape, ts: seq<Term>, names: Names)
    requires shape.UnaryShape? ==> shape.uop != Prime && |ts| == 1
    requires shape.BinaryShape? ==> shape.bop != Equals && shape.bop != NotEquals && |ts| == 2
    requires !shape.AppShape?
    ensures Fits(shape, names, |ts|) && Wants(shape, names, |ts|) == Bools(|ts|)
    ensures forall i | 0 <= i < |ts| :: Bools(|ts|)[i] == Bool
    ensures Bools(1) == [Bool] && Bools(2) == [Bool, Bool]
    ensures shape.UnaryShape? ==> Build(shape, ts) == UnaryOp(shape.uop, ts[0])
    ensures shape.BinaryShape? ==> Build(shape, ts) == BinOp(shape.bop, ts[0], ts[1])
    ensures shape.NAryShape? ==> Build(shape, ts) == NAryOp(shape.nop, ts)
    ensures forall sorts: seq<string> :: DeclaredIn(Bool, sorts)
  {
  }

  lemma BuildIs(shape: Shape, ts: seq<Term>, names: Names, n: nat)
    requires Fits(shape, names, n) && |ts| == n
    ensures shape.AppShape? ==> Build(shape, ts) == App(shape.f, shape.p, ts)
    ensures shape.UnaryShape? ==> Build(shape, ts) == UnaryOp(shape.uop, ts[0])
    ensures shape.BinaryShape? ==> Build(shape, ts) == BinOp(shape.bop, ts[0], ts[1])
    ensures shape.NAryShape? ==> Build(shape, ts) == NAryOp(shape.nop, ts)
    ensures ReturnOf(shape, names, n) == if shape.AppShape? then names[shape.f].ret else Bool
  {
  }

  lemma OneTerm(before: Table, names: Names, sorts: seq<string>)
    requires Valid(before) && DeclaredValues(before, sorts)
    ensures ListCollected(before, [], names, sorts, [], before, [])
    ensures forall ts: seq<Term> :: ts[..0] == []
    ensures forall ss: seq<Sort> :: ss[..0] == []
  {
    ListStart(before, names, sorts);
  }

  lemma Singles(x: Term, x1: Term, want: Sort)
    ensures [] + [x] == [x] && [] + [x1] == [x1] && [] + [want] == [want]
  {
  }

  lemma Twos(x: Term, y: Term, want: Sort)
    ensures [x, y][..0] == [] && [want, want][..0] == [] && [x, y][..1] == [x] && [want, want][..1] == [want]
    ensures [x] + [y] == [x, y] && [want] + [want] == [want, want]
  {
  }

  lemma Both(before: Table, x: Term, y: Term, names: Names, sorts: seq<string>, x1: Term, sx: MaybeSort, mid: Table, y1: Term, sy: MaybeSort, last: Table)
    requires NamesBelow(names, |before.rep|)
    requires Collected(before, x, names, sorts, x1, sx, mid, None) && Collected(mid, y, names, sorts, y1, sy, last, None)
    ensures BothCollected(before, x, y, names, sorts, x1, sx, mid, y1, sy, last)
  {
    hide NamesBelow, Collected;
  }
}
