/** The sentence that describes a finite model: its models are the isomorphic ones, and without the
    size constraints those it embeds in. */
module CharacteristicSentences {
  import opened Collections
  import opened Syntax
  import opened Semantics
  import opened SortCheck
  import opened FiniteModels
  import opened TermEnumeration
  import Iso = Isomorphism
  import opened Decimals
  import opened Permutations

  // Names of the variables.

  function VarName(sort: string, j: nat): string {
    sort + "_" + Decimal(j)
  }

  /** A name determines the sort and the number. */
  lemma VarNameInjective(s: string, i: nat, t: string, j: nat)
    requires VarName(s, i) == VarName(t, j)
    ensures s == t && i == j
  {
    var x, a, b := VarName(s, i), Decimal(i), Decimal(j);
    assert x[|s|] == '_' && x[|t|] == '_';
    assert x[|s| + 1..] == a && x[|t| + 1..] == b;
    if |s| < |t| {
      DecimalDigits(i, |t| - |s| - 1);
    } else if |t| < |s| {
      DecimalDigits(j, |s| - |t| - 1);
    } else {
      assert s == x[..|s|] && t == x[..|t|];
      DecimalInjective(i, j);
    }
  }

  /** What the construction asks of the signature and the model. */
  ghost predicate Describable(m: Model) {
    && Proper(m) && ProperSorts(m.signature) && NoDuplicates(m.signature.sorts)
    && (forall d <- m.signature.relations :: Bool !in d.args)
    && forall d, s, j: nat | d in m.signature.relations && s in m.signature.sorts :: d.name != VarName(s, j)
  }

  function VarsFrom(sort: string, n: nat): (r: seq<string>)
    ensures |r| == n && forall j | 0 <= j < n :: r[j] == VarName(sort, j)
  {
    seq(n, j requires 0 <= j < n => VarName(sort, j))
  }

  /** The variables that stand for the elements of each sort. */
  function ExistsVars(m: Model): (r: seq<seq<string>>)
    ensures |r| == |m.signature.sorts|
    ensures forall i | 0 <= i < |r| && i < |m.universe| :: r[i] == VarsFrom(m.signature.sorts[i], m.universe[i])
  {
    seq(|m.signature.sorts|, i requires 0 <= i < |m.signature.sorts| =>
      VarsFrom(m.signature.sorts[i], if i < |m.universe| then m.universe[i] else 0))
  }

  lemma VarsDistinct(m: Model)
    requires Describable(m)
    ensures |m.universe| == |m.signature.sorts| && DistinctSymbols(m.signature, ExistsVars(m))
  {
    var sorts := m.signature.sorts;
    var vars := ExistsVars(m);
    forall i | 0 <= i < |vars| ensures NoDuplicates(vars[i]) {
      forall a, b | 0 <= a < b < |vars[i]| ensures vars[i][a] != vars[i][b] {
        if vars[i][a] == vars[i][b] { VarNameInjective(sorts[i], a, sorts[i], b); }
      }
    }
    forall i, d | 0 <= i < |vars| && d in m.signature.relations ensures d.name !in vars[i] {
      assert sorts[i] in sorts;
      assert forall j | 0 <= j < |vars[i]| :: vars[i][j] == VarName(sorts[i], j) != d.name;
    }
  }

  // Mapping one model into another.

  type Mapping = (nat, Element) -> Element

  function MapTo(sig: Signature, h: Mapping, s: Sort, x: Element): Element {
    if s.Bool? then x else h(Slot(sig, s), x)
  }

  function MapTuple(sig: Signature, h: Mapping, sorts: seq<Sort>, es: seq<Element>): (r: seq<Element>)
    requires |sorts| == |es|
    ensures |r| == |es| && forall i | 0 <= i < |r| :: r[i] == MapTo(sig, h, sorts[i], es[i])
  {
    seq<Element>(|es|, i requires 0 <= i < |es| => MapTo(sig, h, sorts[i], es[i]))
  }

  function SymbolAt(m: Model, name: string, es: seq<Element>): Element {
    TraceOf(m).at(0)(name, es)
  }

  ghost predicate Into(m: Model, n: Model, h: Mapping) {
    forall i, x: nat | 0 <= i < |m.universe| && x < m.universe[i] :: i < |n.universe| && h(i, x) < n.universe[i]
  }

  ghost predicate Injective(m: Model, h: Mapping) {
    forall i, x: nat, y: nat | 0 <= i < |m.universe| && x < m.universe[i] && y < m.universe[i] && h(i, x) == h(i, y) :: x == y
  }

  ghost predicate PreservesAt(m: Model, n: Model, h: Mapping, d: RelationDecl, es: seq<Element>) {
    |es| == |d.args| &&
    SymbolAt(n, d.name, MapTuple(m.signature, h, d.args, es)) == MapTo(m.signature, h, d.sort, SymbolAt(m, d.name, es))
  }

  ghost predicate Preserves(m: Model, n: Model, h: Mapping, d: RelationDecl) {
    forall es | TupleOf(es, d.args, TraceOf(m).universe) :: PreservesAt(m, n, h, d, es)
  }

  /** An injection that respects all symbols, both ways for relations. */
  ghost predicate Embeds(m: Model, n: Model, h: Mapping) {
    Into(m, n, h) && Injective(m, h) && forall d <- m.signature.relations :: Preserves(m, n, h, d)
  }

  ghost predicate Hits(m: Model, h: Mapping, i: nat, y: Element) {
    i < |m.universe| && exists x :: 0 <= x < m.universe[i] && h(i, x) == y
  }

  ghost predicate Onto(m: Model, n: Model, h: Mapping) {
    forall i, y | 0 <= i < |n.universe| && 0 <= y < n.universe[i] :: Hits(m, h, i, y)
  }

  // Assignments of the variables.

  /** Exactly the variables of the model are assigned, to elements of the other model. */
  ghost predicate Assigns(m: Model, n: Model, h: Mapping, a: Assignment) {
    && (forall x | x in a :: exists i, j :: 0 <= i < |m.universe| && 0 <= j < m.universe[i] && i < |m.signature.sorts| && x == VarName(m.signature.sorts[i], j))
    && forall i, j: nat | 0 <= i < |m.universe| && j < m.universe[i] && i < |m.signature.sorts| ::
         VarName(m.signature.sorts[i], j) in a && a[VarName(m.signature.sorts[i], j)] == h(i, j)
  }

  ghost predicate SameSignature(m: Model, n: Model) {
    Describable(m) && Proper(n) && n.signature == m.signature
  }

  lemma SlotOf(m: Model, s: Sort)
    requires WellFormed(m) && Declared(m.signature, s) && s != Bool
    ensures Slot(m.signature, s) < |m.universe| && TraceOf(m).universe(s) == m.universe[Slot(m.signature, s)]
    ensures m.signature.sorts[Slot(m.signature, s)] == s.name
  {
  }

  /** The size of what the terms of a list stand for. */
  function SizeAt(m: Model, slot: nat): nat {
    if slot < |m.universe| then m.universe[slot] else 2
  }

  lemma SizeOf(m: Model, s: Sort)
    requires WellFormed(m) && Declared(m.signature, s)
    ensures TraceOf(m).universe(s) == SizeAt(m, Slot(m.signature, s))
  {
    if s != Bool { SlotOf(m, s); }
  }

  function MapAt(m: Model, h: Mapping, slot: nat, x: Element): Element {
    if slot < |m.universe| then h(slot, x) else x
  }

  lemma MapSort(m: Model, h: Mapping, s: Sort, x: Element)
    requires WellFormed(m) && Declared(m.signature, s)
    ensures MapTo(m.signature, h, s, x) == MapAt(m, h, Slot(m.signature, s), x)
  {
    if s != Bool { SlotOf(m, s); }
  }

  function Identity(): Mapping {
    (i: nat, x: Element) => x
  }

  function ValueIn(n: Model, t: Term, a: Assignment): Element {
    if EvalAssign(t, n, a).Some? then EvalAssign(t, n, a).value else 0
  }

  // Values of the listed terms.

  lemma {:induction false} UniqueDecl(relations: seq<RelationDecl>, d: RelationDecl)
    requires NoDuplicates(Names(relations)) && d in relations
    ensures FindDecl(relations, d.name) == Some(d)
    decreases |relations|
  {
    if relations[0] != d {
      var i :| 0 <= i < |relations| && relations[i] == d;
      assert Names(relations)[0] != Names(relations)[i];
      assert Names(relations)[1..] == Names(relations[1..]);
      assert d == relations[1..][i - 1];
      UniqueDecl(relations[1..], d);
    }
  }

  ghost predicate DefinedAt(n: Model, t: Term, a: Assignment, slot: nat) {
    EvalAssign(t, n, a).Some? && EvalAssign(t, n, a).value < SizeAt(n, slot)
  }

  lemma NotAssigned(m: Model, n: Model, h: Mapping, a: Assignment, d: RelationDecl)
    requires Describable(m) && Assigns(m, n, h, a) && d in m.signature.relations
    ensures d.name !in a
  {
    hide VarName, Proper, ProperSorts;
    forall x | x in a ensures x != d.name {
      var i, j :| 0 <= i < |m.universe| && 0 <= j < m.universe[i] && i < |m.signature.sorts| && x == VarName(m.signature.sorts[i], j);
      InSorts(m, i);
    }
  }

  lemma InSorts(m: Model, i: nat)
    ensures i < |m.signature.sorts| ==> m.signature.sorts[i] in m.signature.sorts
  {
  }

  lemma VarValue(m: Model, n: Model, h: Mapping, a: Assignment, name: string, slot: nat) returns (j: nat)
    requires WellFormed(m) && Assigns(m, n, h, a) && name in At(ExistsVars(m), slot)
    ensures slot < |m.universe| && j < m.universe[slot] && name in a && a[name] == h(slot, j) && name == VarName(m.signature.sorts[slot], j)
  {
    hide VarName, Fits;
    j :| 0 <= j < |ExistsVars(m)[slot]| && ExistsVars(m)[slot][j] == name;
  }

  /** The value of a constant or an application is what its table says. */
  lemma SymbolEval(m: Model, n: Model, h: Mapping, a: Assignment, d: RelationDecl, es: seq<Element>)
    requires SameSignature(m, n) && Assigns(m, n, h, a) && d in m.signature.relations && TupleOf(es, d.args, TraceOf(n).universe)
    ensures d.name !in a && ValueOf(n, d.name, es) == Some(SymbolAt(n, d.name, es))
    ensures SymbolAt(n, d.name, es) < SizeAt(n, Slot(m.signature, d.sort))
    ensures d.args == [] ==> IsNullary(n.signature, d.name)
  {
    NotAssigned(m, n, h, a, d);
    UniqueDecl(m.signature.relations, d);
    SymbolValue(n, d, es);
    PlaceOfDecl(m.signature.relations, d.name);
    SizeOf(n, d.sort);
  }

  ghost predicate Compared(m: Model, n: Model, h: Mapping, a: Assignment) {
    SameSignature(m, n) && Into(m, n, h) && Assigns(m, n, h, a)
  }

  /** Every listed term has a value of its sort. */
  lemma {:induction false} TermDefined(m: Model, n: Model, h: Mapping, a: Assignment, t: Term, slot: nat)
    requires Compared(m, n, h, a) && TermAt(m.signature, ExistsVars(m), t, slot)
    ensures DefinedAt(n, t, a, slot)
    decreases t
  {
    hide TraceOf, ValueOf, Slot, IsNullary, ExistsVars, Describable, Proper;
    if t.Id? {
      if t.name in At(ExistsVars(m), slot) {
        WellFormedOf(m);
        var j := VarValue(m, n, h, a, t.name, slot);
      } else {
        var d :| Constant(m.signature, d, t.name, slot);
        SymbolEval(m, n, h, a, d, []);
      }
    } else {
      var d :| Applies(m.signature, d, t, slot) && ArgsAt(m.signature, ExistsVars(m), d, t.args);
      ArgsDefined(m, n, h, a, d, t.args);
      SymbolEval(m, n, h, a, d, EvalArgs(t.args, n, a).value);
    }
  }

  lemma WellFormedOf(m: Model)
    requires Describable(m)
    ensures WellFormed(m) && Proper(m)
  {
  }

  lemma DeclSorts(m: Model, d: RelationDecl, i: nat)
    requires Describable(m) && d in m.signature.relations && i < |d.args|
    ensures Declared(m.signature, d.args[i]) && Declared(m.signature, d.sort) && d.args[i] != Bool
  {
    assert d.args[i] in d.args;
  }

  lemma {:induction false} ArgsDefined(m: Model, n: Model, h: Mapping, a: Assignment, d: RelationDecl, args: seq<Term>)
    requires Compared(m, n, h, a) && d in m.signature.relations && |args| == |d.args| && ArgsAt(m.signature, ExistsVars(m), d, args)
    ensures EvalArgs(args, n, a).Some? && TupleOf(EvalArgs(args, n, a).value, d.args, TraceOf(n).universe)
    ensures forall i | 0 <= i < |args| :: DefinedAt(n, args[i], a, ArgSlot(m.signature, d, i))
    decreases args
  {
    hide TraceOf, Slot, ExistsVars, Describable, TermAt, EvalAssign, EvalArgs;
    forall i | 0 <= i < |args| ensures HasValue(args[i], d.args[i], n, a) && DefinedAt(n, args[i], a, ArgSlot(m.signature, d, i)) {
      DeclSorts(m, d, i);
      TermDefined(m, n, h, a, args[i], ArgSlot(m.signature, d, i));
      SizeOf(n, d.args[i]);
    }
    EvalArgsTotal(args, d.args, n, a);
  }

  /** A mapping that respects the symbols respects the values of all listed terms. */
  lemma {:induction false} TermMapped(m: Model, n: Model, h: Mapping, a: Assignment, b: Assignment, t: Term, slot: nat)
    requires Compared(m, n, h, a) && Compared(m, m, Identity(), b) && TermAt(m.signature, ExistsVars(m), t, slot)
    requires forall d <- m.signature.relations :: Preserves(m, n, h, d)
    ensures ValueIn(n, t, a) == MapAt(m, h, slot, ValueIn(m, t, b))
    decreases t
  {
    hide *;
    TermDefined(m, n, h, a, t, slot);
    TermDefined(m, m, Identity(), b, t, slot);
    if t.Id? {
      IdMapped(m, n, h, a, b, t.name, slot);
    } else {
      var d := DeclOf(m, t, slot);
      ArgsDefined(m, n, h, a, d, t.args);
      ArgsDefined(m, m, Identity(), b, d, t.args);
      ArgsMapped(m, n, h, a, b, d, t.args);
      SymbolMapped(m, n, h, a, b, d, EvalArgs(t.args, m, b).value);
      AppValue(n, t, a);
      AppValue(m, t, b);
    }
  }

  lemma DeclOf(m: Model, t: Term, slot: nat) returns (d: RelationDecl)
    requires TermAt(m.signature, ExistsVars(m), t, slot) && !t.Id?
    ensures t.App? && t.primes == 0 && d.name == t.f && d in m.signature.relations && |t.args| == |d.args| && slot == Slot(m.signature, d.sort)
    ensures ArgsAt(m.signature, ExistsVars(m), d, t.args) && d.args != []
  {
    hide ArgsAt, Slot;
    d :| Applies(m.signature, d, t, slot) && ArgsAt(m.signature, ExistsVars(m), d, t.args);
  }

  lemma AppValue(m: Model, t: Term, a: Assignment)
    requires t.App? && t.primes == 0 && EvalArgs(t.args, m, a).Some?
    ensures EvalAssign(t, m, a) == ValueOf(m, t.f, EvalArgs(t.args, m, a).value)
    ensures ValueIn(m, t, a) == if EvalAssign(t, m, a).Some? then EvalAssign(t, m, a).value else 0
  {
  }

  lemma IdMapped(m: Model, n: Model, h: Mapping, a: Assignment, b: Assignment, name: string, slot: nat)
    requires Compared(m, n, h, a) && Compared(m, m, Identity(), b) && TermAt(m.signature, ExistsVars(m), Id(name), slot)
    requires forall d <- m.signature.relations :: Preserves(m, n, h, d)
    ensures ValueIn(n, Id(name), a) == MapAt(m, h, slot, ValueIn(m, Id(name), b))
  {
    hide TraceOf, ValueOf, Slot, IsNullary, ExistsVars, Describable, Proper, SymbolAt, Preserves;
    WellFormedOf(m);
    if name in At(ExistsVars(m), slot) {
      var j := VarValue(m, n, h, a, name, slot);
      var k := VarValue(m, m, Identity(), b, name, slot);
      VarNameInjective(m.signature.sorts[slot], j, m.signature.sorts[slot], k);
    } else {
      var d :| Constant(m.signature, d, name, slot);
      assert MapTuple(m.signature, h, [], []) == [];
      SymbolMapped(m, n, h, a, b, d, []);
    }
  }

  lemma SymbolMapped(m: Model, n: Model, h: Mapping, a: Assignment, b: Assignment, d: RelationDecl, es: seq<Element>)
    requires Compared(m, n, h, a) && Compared(m, m, Identity(), b) && d in m.signature.relations && Preserves(m, n, h, d)
    requires TupleOf(es, d.args, TraceOf(m).universe)
    requires TupleOf(MapTuple(m.signature, h, d.args, es), d.args, TraceOf(n).universe)
    ensures d.name !in a && d.name !in b && (d.args == [] ==> IsNullary(m.signature, d.name))
    ensures ValueOf(m, d.name, es).Some? && ValueOf(n, d.name, MapTuple(m.signature, h, d.args, es)).Some?
    ensures ValueOf(n, d.name, MapTuple(m.signature, h, d.args, es)).value ==
      MapAt(m, h, Slot(m.signature, d.sort), ValueOf(m, d.name, es).value)
  {
    hide TraceOf, ValueOf, Slot, IsNullary, Proper, SymbolAt, MapTo, MapAt, MapTuple;
    SymbolEval(m, n, h, a, d, MapTuple(m.signature, h, d.args, es));
    SymbolEval(m, m, Identity(), b, d, es);
    assert PreservesAt(m, n, h, d, es);
    WellFormedOf(m);
    MapSort(m, h, d.sort, SymbolAt(m, d.name, es));
  }

  lemma {:induction false} ArgsMapped(m: Model, n: Model, h: Mapping, a: Assignment, b: Assignment, d: RelationDecl, args: seq<Term>)
    requires Compared(m, n, h, a) && Compared(m, m, Identity(), b) && d in m.signature.relations
    requires forall r <- m.signature.relations :: Preserves(m, n, h, r)
    requires |args| == |d.args| && ArgsAt(m.signature, ExistsVars(m), d, args) && EvalArgs(args, n, a).Some? && EvalArgs(args, m, b).Some?
    ensures |EvalArgs(args, m, b).value| == |args|
    ensures EvalArgs(args, n, a).value == MapTuple(m.signature, h, d.args, EvalArgs(args, m, b).value)
    decreases args
  {
    hide TraceOf, Slot, ExistsVars, Describable, TermAt, EvalAssign, EvalArgs, Preserves, MapAt, MapTo;
    ArgValues(args, n, a);
    ArgValues(args, m, b);
    forall i | 0 <= i < |args| ensures ValueIn(n, args[i], a) == MapTo(m.signature, h, d.args[i], ValueIn(m, args[i], b)) {
      DeclSorts(m, d, i);
      WellFormedOf(m);
      TermMapped(m, n, h, a, b, args[i], ArgSlot(m.signature, d, i));
      MapSort(m, h, d.args[i], ValueIn(m, args[i], b));
    }
  }

  lemma {:induction false} ArgValues(ts: seq<Term>, m: Model, a: Assignment)
    requires EvalArgs(ts, m, a).Some?
    ensures |EvalArgs(ts, m, a).value| == |ts|
    ensures forall i | 0 <= i < |ts| :: EvalArgs(ts, m, a).value[i] == ValueIn(m, ts[i], a)
    decreases |ts|
  {
    hide EvalAssign;
    if ts != [] { ArgValues(ts[1..], m, a); }
  }

  // Embeddings, term by term.

  /** The listed terms of a positive place after the variables. */
  ghost predicate Listed(m: Model, terms: seq<seq<Term>>) {
    Lists(m.signature, ExistsVars(m), terms, 0, 2) && VarsFirst(ExistsVars(m), terms)
  }

  ghost predicate TruthsAgree(m: Model, n: Model, a: Assignment, b: Assignment, ts: seq<Term>) {
    forall t <- ts :: ValueIn(n, t, a) == ValueIn(m, t, b)
  }

  ghost predicate ValuesAgree(m: Model, n: Model, h: Mapping, a: Assignment, b: Assignment, i: nat, ts: seq<Term>) {
    forall t <- ts :: ValueIn(n, t, a) == h(i, ValueIn(m, t, b))
  }

  /** The terms of a sort that are no variables. */
  function Others(m: Model, terms: seq<seq<Term>>, i: nat): seq<Term> {
    if i < |terms| && i < |m.universe| && m.universe[i] <= |terms[i]| then terms[i][m.universe[i]..] else []
  }

  ghost predicate Described(m: Model, n: Model, h: Mapping, a: Assignment, b: Assignment, terms: seq<seq<Term>>) {
    && Injective(m, h) && TruthsAgree(m, n, a, b, At(terms, |m.signature.sorts|))
    && forall i: nat | i < |m.universe| :: ValuesAgree(m, n, h, a, b, i, Others(m, terms, i))
  }

  lemma EmbeddingDescribed(m: Model, n: Model, h: Mapping, a: Assignment, b: Assignment, terms: seq<seq<Term>>)
    requires Compared(m, n, h, a) && Compared(m, m, Identity(), b) && Listed(m, terms) && Embeds(m, n, h)
    ensures Described(m, n, h, a, b, terms)
  {
    hide ValueIn, TermAt, DepthOf, Compared, Preserves, VarsFirst;
    Sizes(m, n, h, a);
    forall t <- At(terms, |m.signature.sorts|) ensures ValueIn(n, t, a) == ValueIn(m, t, b) {
      TermMapped(m, n, h, a, b, t, |m.signature.sorts|);
    }
    forall i: nat, t | i < |m.universe| && t in Others(m, terms, i) ensures ValueIn(n, t, a) == h(i, ValueIn(m, t, b)) {
      assert t in At(terms, i);
      TermMapped(m, n, h, a, b, t, i);
    }
  }

  lemma Sizes(m: Model, n: Model, h: Mapping, a: Assignment)
    requires Compared(m, n, h, a)
    ensures |m.universe| == |n.universe| == |m.signature.sorts|
  {
  }

  /** The term that applies a symbol to the variables of a tuple. */
  function TermFor(m: Model, d: RelationDecl, es: seq<Element>): Term {
    if d.args == [] then Id(d.name) else App(d.name, 0, VarTerms(m, d.args, es))
  }

  function VarTerms(m: Model, sorts: seq<Sort>, es: seq<Element>): (r: seq<Term>)
    ensures |r| == |es|
    ensures forall k | 0 <= k < |es| && k < |sorts| && sorts[k].Uninterpreted? :: r[k] == Id(VarName(sorts[k].name, es[k]))
  {
    seq(|es|, k requires 0 <= k < |es| =>
      if k < |sorts| && sorts[k].Uninterpreted? then Id(VarName(sorts[k].name, es[k])) else Literal(false))
  }

  lemma VarIn(m: Model, s: Sort, x: Element)
    requires Describable(m) && Declared(m.signature, s) && s != Bool && x < TraceOf(m).universe(s)
    ensures VarName(s.name, x) in At(ExistsVars(m), Slot(m.signature, s))
  {
    SlotOf(m, s);
    var slot := Slot(m.signature, s);
    assert ExistsVars(m)[slot][x] == VarName(s.name, x);
  }

  lemma TermForListed(m: Model, d: RelationDecl, es: seq<Element>)
    requires Describable(m) && d in m.signature.relations && TupleOf(es, d.args, TraceOf(m).universe)
    ensures TermAt(m.signature, ExistsVars(m), TermFor(m, d, es), Slot(m.signature, d.sort)) && DepthOf(TermFor(m, d, es)) < 2
  {
    hide TraceOf, Slot, ExistsVars, VarName, Describable;
    var t, slot := TermFor(m, d, es), Slot(m.signature, d.sort);
    if d.args == [] {
      assert Constant(m.signature, d, d.name, slot);
    } else {
      forall k | 0 <= k < |es| ensures TermAt(m.signature, ExistsVars(m), t.args[k], ArgSlot(m.signature, d, k)) && DepthOf(t.args[k]) == 0 {
        DeclSorts(m, d, k);
        VarIn(m, d.args[k], es[k]);
      }
      assert Applies(m.signature, d, t, slot) && ArgsAt(m.signature, ExistsVars(m), d, t.args);
      ShallowArgs(t.args);
    }
  }

  lemma ShallowArgs(ts: seq<Term>)
    requires forall k | 0 <= k < |ts| :: DepthOf(ts[k]) == 0
    ensures MaxDepth(ts) == 0
  {
  }

  lemma VarTermsValue(m: Model, n: Model, h: Mapping, a: Assignment, d: RelationDecl, es: seq<Element>)
    requires Compared(m, n, h, a) && d in m.signature.relations && TupleOf(es, d.args, TraceOf(m).universe)
    ensures EvalArgs(VarTerms(m, d.args, es), n, a) == Some(MapTuple(m.signature, h, d.args, es))
  {
    hide TraceOf, Slot, Describable, EvalArgs, VarName;
    var ts := VarTerms(m, d.args, es);
    forall k | 0 <= k < |es| ensures EvalAssign(ts[k], n, a) == Some(MapTo(m.signature, h, d.args[k], es[k])) {
      DeclSorts(m, d, k);
      WellFormedOf(m);
      SlotOf(m, d.args[k]);
    }
    ArgsAre(ts, n, a, MapTuple(m.signature, h, d.args, es));
  }

  lemma {:induction false} ArgsAre(ts: seq<Term>, n: Model, a: Assignment, es: seq<Element>)
    requires |ts| == |es| && forall k | 0 <= k < |ts| :: EvalAssign(ts[k], n, a) == Some(es[k])
    ensures EvalArgs(ts, n, a) == Some(es)
    decreases |ts|
  {
    hide EvalAssign;
    if ts != [] {
      ArgsAre(ts[1..], n, a, es[1..]);
      assert es == [es[0]] + es[1..];
    }
  }

  lemma MappedTuple(m: Model, n: Model, h: Mapping, a: Assignment, d: RelationDecl, es: seq<Element>)
    requires Compared(m, n, h, a) && d in m.signature.relations && TupleOf(es, d.args, TraceOf(m).universe)
    ensures TupleOf(MapTuple(m.signature, h, d.args, es), d.args, TraceOf(n).universe)
  {
    hide TraceOf, Slot, Describable;
    forall k | 0 <= k < |es| ensures MapTo(m.signature, h, d.args[k], es[k]) < TraceOf(n).universe(d.args[k]) {
      DeclSorts(m, d, k);
      WellFormedOf(m);
      SlotOf(m, d.args[k]);
      SlotOf(n, d.args[k]);
    }
  }

  /** The term of a tuple stands for the symbol's value at the mapped tuple. */
  lemma TermForValue(m: Model, n: Model, h: Mapping, a: Assignment, d: RelationDecl, es: seq<Element>)
    requires Compared(m, n, h, a) && d in m.signature.relations && TupleOf(es, d.args, TraceOf(m).universe)
    ensures ValueIn(n, TermFor(m, d, es), a) == SymbolAt(n, d.name, MapTuple(m.signature, h, d.args, es))
  {
    hide TraceOf, Slot, Describable, SymbolAt, ValueOf, IsNullary, VarTerms, MapTo;
    MappedTuple(m, n, h, a, d, es);
    SymbolEval(m, n, h, a, d, MapTuple(m.signature, h, d.args, es));
    if d.args == [] {
      assert MapTuple(m.signature, h, d.args, es) == [];
    } else {
      VarTermsValue(m, n, h, a, d, es);
      AppValue(n, TermFor(m, d, es), a);
    }
  }

  lemma InOthers(m: Model, terms: seq<seq<Term>>, slot: nat, t: Term)
    requires Listed(m, terms) && slot < |terms| && slot < |m.universe| && |m.universe| == |m.signature.sorts|
    requires t in terms[slot] && t !in Ids(ExistsVars(m)[slot])
    ensures t in Others(m, terms, slot)
  {
    hide Lists, VarName;
    assert |ExistsVars(m)[slot]| == m.universe[slot];
    hide ExistsVars;
    assert Ids(ExistsVars(m)[slot]) <= At(terms, slot);
    var p :| 0 <= p < |terms[slot]| && terms[slot][p] == t;
    AfterPrefix(Ids(ExistsVars(m)[slot]), terms[slot], p);
    assert Others(m, terms, slot)[p - m.universe[slot]] == t;
  }

  lemma OtherTerm(m: Model, terms: seq<seq<Term>>, d: RelationDecl, es: seq<Element>)
    requires Describable(m) && Listed(m, terms) && d in m.signature.relations && d.sort != Bool && TupleOf(es, d.args, TraceOf(m).universe)
    ensures Slot(m.signature, d.sort) < |m.universe| && TermFor(m, d, es) in Others(m, terms, Slot(m.signature, d.sort))
  {
    WellFormedOf(m);
    DeclaredSort(m, d);
    SlotOf(m, d.sort);
    var slot := Slot(m.signature, d.sort);
    assert |m.universe| == |m.signature.sorts|;
    hide *;
    TermForListed(m, d, es);
    ListedLength(m, terms, TermFor(m, d, es), slot);
    NotVariable(m, d, es, slot);
    InOthers(m, terms, slot, TermFor(m, d, es));
  }

  lemma DeclaredSort(m: Model, d: RelationDecl)
    requires Describable(m) && d in m.signature.relations
    ensures Declared(m.signature, d.sort)
  {
  }

  lemma AfterPrefix<T>(xs: seq<T>, ys: seq<T>, p: nat)
    requires xs <= ys && p < |ys| && ys[p] !in xs
    ensures p >= |xs|
  {
    assert forall q | 0 <= q < |xs| :: ys[q] == xs[q] && xs[q] in xs;
  }

  lemma ListedLength(m: Model, terms: seq<seq<Term>>, t: Term, slot: nat)
    requires Listed(m, terms) && TermAt(m.signature, ExistsVars(m), t, slot) && DepthOf(t) < 2 && slot <= |m.signature.sorts|
    ensures slot < |terms| && t in terms[slot]
  {
    hide TermAt, DepthOf;
    assert t in At(terms, slot);
  }

  lemma NotVariable(m: Model, d: RelationDecl, es: seq<Element>, slot: nat)
    requires Describable(m) && d in m.signature.relations && slot < |m.signature.sorts|
    ensures TermFor(m, d, es) !in Ids(ExistsVars(m)[slot])
  {
    hide VarName, Proper, ProperSorts;
    InSorts(m, slot);
    forall p | 0 <= p < |ExistsVars(m)[slot]| ensures Ids(ExistsVars(m)[slot])[p] != TermFor(m, d, es) {
      assert ExistsVars(m)[slot][p] == VarName(m.signature.sorts[slot], p);
    }
  }

  lemma IdentityTuple(m: Model, sorts: seq<Sort>, es: seq<Element>)
    requires |sorts| == |es|
    ensures MapTuple(m.signature, Identity(), sorts, es) == es
  {
  }

  lemma DescribedPreserves(m: Model, n: Model, h: Mapping, a: Assignment, b: Assignment, terms: seq<seq<Term>>, d: RelationDecl, es: seq<Element>)
    requires Compared(m, n, h, a) && Compared(m, m, Identity(), b) && Listed(m, terms) && Described(m, n, h, a, b, terms)
    requires d in m.signature.relations && TupleOf(es, d.args, TraceOf(m).universe)
    ensures PreservesAt(m, n, h, d, es)
  {
    TermForValue(m, n, h, a, d, es);
    TermForValue(m, m, Identity(), b, d, es);
    IdentityTuple(m, d.args, es);
    hide ValueIn, TermAt, DepthOf, VarsFirst, Lists, TermFor, TraceOf, SymbolAt, Describable;
    if d.sort == Bool {
      TermForListed(m, d, es);
      ListedLength(m, terms, TermFor(m, d, es), |m.signature.sorts|);
      assert TermFor(m, d, es) in At(terms, |m.signature.sorts|);
    } else {
      OtherTerm(m, terms, d, es);
    }
  }

  /** The listed terms describe the mapping exactly. */
  lemma DescribedExact(m: Model, n: Model, h: Mapping, a: Assignment, b: Assignment, terms: seq<seq<Term>>)
    requires Compared(m, n, h, a) && Compared(m, m, Identity(), b) && Listed(m, terms)
    ensures Described(m, n, h, a, b, terms) <==> Embeds(m, n, h)
  {
    if Embeds(m, n, h) { EmbeddingDescribed(m, n, h, a, b, terms); }
    if Described(m, n, h, a, b, terms) {
      hide Described, PreservesAt, Listed, Injective, Describable, TraceOf;
      forall d, es | d in m.signature.relations && TupleOf(es, d.args, TraceOf(m).universe) ensures PreservesAt(m, n, h, d, es) {
        DescribedPreserves(m, n, h, a, b, terms, d, es);
      }
      DescribedInjective(m, n, h, a, b, terms);
    }
  }

  lemma DescribedInjective(m: Model, n: Model, h: Mapping, a: Assignment, b: Assignment, terms: seq<seq<Term>>)
    requires Described(m, n, h, a, b, terms)
    ensures Injective(m, h)
  {
  }

  // The conjuncts.

  ghost predicate TrueIn(n: Model, a: Assignment, c: Term) {
    Eval(c, TraceOf(n), 0, a) == 1
  }

  ghost predicate AllTrue(n: Model, a: Assignment, cs: seq<Term>) {
    forall c <- cs :: TrueIn(n, a, c)
  }

  lemma AllTrueAppend(n: Model, a: Assignment, cs: seq<Term>, ds: seq<Term>)
    ensures AllTrue(n, a, cs + ds) <==> AllTrue(n, a, cs) && AllTrue(n, a, ds)
  {
    hide TrueIn;
    if AllTrue(n, a, cs + ds) {
      assert forall c <- cs :: c in cs + ds;
      assert forall c <- ds :: c in cs + ds;
    }
  }

  lemma ValueIsEval(n: Model, t: Term, a: Assignment)
    requires EvalAssign(t, n, a).Some?
    ensures Eval(t, TraceOf(n), 0, a) == ValueIn(n, t, a)
  {
    EvalAssignSound(t, n, 0, a);
  }

  /** Negate the terms that are false. */
  method FlipToSat(ts: seq<Term>, m: Model, b: Assignment) returns (r: Option<seq<Term>>)
    ensures (forall t <- ts :: EvalAssign(t, m, b).Some?) ==> r.Some?
    ensures r.Some? ==> |r.value| == |ts|
    ensures r.Some? ==> forall k | 0 <= k < |ts| :: r.value[k] == Flipped(ts[k], m, b)
  {
    var flipped, k := ts, 0;
    while k < |ts|
      invariant k <= |ts| && |flipped| == |ts|
      invariant forall j | 0 <= j < |ts| :: flipped[j] == if j < k then Flipped(ts[j], m, b) else ts[j]
    {
      assert ts[k] in ts;
      var v := EvalAssign(ts[k], m, b);
      if v.None? { return None; }
      if v.value == 0 { flipped := flipped[k := UnaryOp(Not, ts[k])]; }
      k := k + 1;
    }
    return Some(flipped);
  }

  ghost function Flipped(t: Term, m: Model, b: Assignment): Term {
    if EvalAssign(t, m, b) == Some(0) then UnaryOp(Not, t) else t
  }

  lemma FlippedTrue(m: Model, n: Model, a: Assignment, b: Assignment, t: Term)
    requires DefinedAt(m, t, b, |m.universe|) && DefinedAt(n, t, a, |n.universe|)
    ensures TrueIn(n, a, Flipped(t, m, b)) <==> ValueIn(n, t, a) == ValueIn(m, t, b)
  {
    hide EvalAssign, TraceOf;
    ValueIsEval(n, t, a);
    UnaryEval(Not, t, TraceOf(n), 0, a);
  }

  lemma FlippedAllTrue(m: Model, n: Model, h: Mapping, a: Assignment, b: Assignment, ts: seq<Term>, cs: seq<Term>)
    requires |cs| == |ts| && forall k | 0 <= k < |ts| :: cs[k] == Flipped(ts[k], m, b)
    requires forall t <- ts :: DefinedAt(m, t, b, |m.universe|) && DefinedAt(n, t, a, |n.universe|)
    ensures AllTrue(n, a, cs) <==> TruthsAgree(m, n, a, b, ts)
  {
    hide TrueIn, ValueIn, Flipped, DefinedAt;
    forall k | 0 <= k < |ts| ensures TrueIn(n, a, cs[k]) <==> ValueIn(n, ts[k], a) == ValueIn(m, ts[k], b) {
      assert ts[k] in ts;
      FlippedTrue(m, n, a, b, ts[k]);
    }
    if AllTrue(n, a, cs) {
      forall t <- ts ensures ValueIn(n, t, a) == ValueIn(m, t, b) {
        var k :| 0 <= k < |ts| && ts[k] == t;
        assert cs[k] in cs;
      }
    }
    if TruthsAgree(m, n, a, b, ts) {
      forall c <- cs ensures TrueIn(n, a, c) {
        var k :| 0 <= k < |cs| && cs[k] == c;
        assert ts[k] in ts;
      }
    }
  }

  // The conjuncts for one sort.

  ghost predicate InjectiveAt(m: Model, h: Mapping, i: nat) {
    i < |m.universe| && forall x: nat, y: nat | x < y < m.universe[i] :: h(i, x) != h(i, y)
  }

  ghost predicate OntoAt(m: Model, n: Model, h: Mapping, i: nat) {
    i < |n.universe| && forall y: nat | y < n.universe[i] :: Hits(m, h, i, y)
  }

  lemma VarEval(m: Model, n: Model, h: Mapping, a: Assignment, i: nat, x: nat)
    requires Compared(m, n, h, a) && i < |m.universe| && x < m.universe[i]
    ensures i < |m.signature.sorts| && VarName(m.signature.sorts[i], x) in a
    ensures Eval(Id(VarName(m.signature.sorts[i], x)), TraceOf(n), 0, a) == h(i, x)
  {
    Sizes(m, n, h, a);
    hide VarName, TraceOf, Proper, ProperSorts;
  }

  lemma Inequality(m: Model, n: Model, h: Mapping, a: Assignment, i: nat, x: nat, y: nat)
    requires Compared(m, n, h, a) && i < |m.universe| && x < m.universe[i] && y < m.universe[i]
    ensures i < |m.signature.sorts|
    ensures TrueIn(n, a, BinOp(NotEquals, Id(VarName(m.signature.sorts[i], x)), Id(VarName(m.signature.sorts[i], y)))) <==> h(i, x) != h(i, y)
  {
    VarEval(m, n, h, a, i, x);
    VarEval(m, n, h, a, i, y);
    hide Compared, VarName, TraceOf;
    BinaryEval(NotEquals, Id(VarName(m.signature.sorts[i], x)), Id(VarName(m.signature.sorts[i], y)), TraceOf(n), 0, a);
  }

  lemma InequalitiesTrue(m: Model, n: Model, h: Mapping, a: Assignment, i: nat)
    requires Compared(m, n, h, a) && i < |m.universe|
    ensures i < |m.signature.sorts|
    ensures AllTrue(n, a, Pairs(NotEquals, Ids(ExistsVars(m)[i]))) <==> InjectiveAt(m, h, i)
  {
    Sizes(m, n, h, a);
    var xs := Ids(ExistsVars(m)[i]);
    assert |xs| == m.universe[i];
    hide *;
    VariableTerms(m, i);
    if AllTrue(n, a, Pairs(NotEquals, xs)) {
      forall x: nat, y: nat | x < y < m.universe[i] ensures h(i, x) != h(i, y) {
        PairIn(xs, x, y);
        TrueOne(n, a, Pairs(NotEquals, xs), BinOp(NotEquals, xs[x], xs[y]));
        Inequality(m, n, h, a, i, x, y);
      }
      InjectiveFrom(m, h, i);
    }
    if InjectiveAt(m, h, i) {
      InjectiveTo(m, h, i);
      forall c <- Pairs(NotEquals, xs) ensures TrueIn(n, a, c) {
        var x, y := PairOf(xs, c);
        Inequality(m, n, h, a, i, x, y);
      }
      AllTrueFrom(n, a, Pairs(NotEquals, xs));
    }
  }

  lemma VariableTerms(m: Model, i: nat)
    requires i < |m.universe| && i < |m.signature.sorts|
    ensures |Ids(ExistsVars(m)[i])| == m.universe[i]
    ensures forall x | 0 <= x < m.universe[i] :: Ids(ExistsVars(m)[i])[x] == Id(VarName(m.signature.sorts[i], x))
  {
  }

  lemma PairIn(xs: seq<Term>, x: nat, y: nat)
    requires x < y < |xs|
    ensures BinOp(NotEquals, xs[x], xs[y]) in Pairs(NotEquals, xs)
  {
    assert Compares(NotEquals, xs, BinOp(NotEquals, xs[x], xs[y]));
    PairsMembers(NotEquals, xs, BinOp(NotEquals, xs[x], xs[y]));
  }

  lemma PairOf(xs: seq<Term>, c: Term) returns (x: nat, y: nat)
    requires c in Pairs(NotEquals, xs)
    ensures x < y < |xs| && c == BinOp(NotEquals, xs[x], xs[y])
  {
    PairsMembers(NotEquals, xs, c);
    x, y :| 0 <= x < y < |xs| && c == BinOp(NotEquals, xs[x], xs[y]);
  }

  lemma TrueOne(n: Model, a: Assignment, cs: seq<Term>, c: Term)
    requires AllTrue(n, a, cs) && c in cs
    ensures TrueIn(n, a, c)
  {
    hide TrueIn;
  }

  lemma AllTrueFrom(n: Model, a: Assignment, cs: seq<Term>)
    requires forall c <- cs :: TrueIn(n, a, c)
    ensures AllTrue(n, a, cs)
  {
    hide TrueIn;
  }

  lemma InjectiveFrom(m: Model, h: Mapping, i: nat)
    requires i < |m.universe| && forall x: nat, y: nat | x < y < m.universe[i] :: h(i, x) != h(i, y)
    ensures InjectiveAt(m, h, i)
  {
  }

  lemma InjectiveTo(m: Model, h: Mapping, i: nat)
    requires InjectiveAt(m, h, i)
    ensures i < |m.universe| && forall x: nat, y: nat | x < y < m.universe[i] :: h(i, x) != h(i, y)
  {
  }

  ghost function Equality(m: Model, b: Assignment, i: nat, t: Term): Term
    requires i < |m.signature.sorts|
  {
    BinOp(Equals, t, Id(VarName(m.signature.sorts[i], ValueIn(m, t, b))))
  }

  ghost function Equalities(m: Model, b: Assignment, i: nat, ts: seq<Term>): (r: seq<Term>)
    requires i < |m.signature.sorts|
    ensures |r| == |ts| && forall k | 0 <= k < |ts| :: r[k] == Equality(m, b, i, ts[k])
  {
    seq(|ts|, k requires 0 <= k < |ts| => Equality(m, b, i, ts[k]))
  }

  lemma EqualityTrue(m: Model, n: Model, h: Mapping, a: Assignment, b: Assignment, i: nat, t: Term)
    requires Compared(m, n, h, a) && i < |m.universe| && i < |m.signature.sorts| && DefinedAt(m, t, b, i) && DefinedAt(n, t, a, i)
    ensures TrueIn(n, a, Equality(m, b, i, t)) <==> ValueIn(n, t, a) == h(i, ValueIn(m, t, b))
  {
    VarEval(m, n, h, a, i, ValueIn(m, t, b));
    ValueIsEval(n, t, a);
    hide Compared, VarName, TraceOf, EvalAssign;
    BinaryEval(Equals, t, Id(VarName(m.signature.sorts[i], ValueIn(m, t, b))), TraceOf(n), 0, a);
  }

  lemma EqualitiesTrue(m: Model, n: Model, h: Mapping, a: Assignment, b: Assignment, i: nat, ts: seq<Term>)
    requires Compared(m, n, h, a) && i < |m.universe| && i < |m.signature.sorts|
    requires forall t <- ts :: DefinedAt(m, t, b, i) && DefinedAt(n, t, a, i)
    ensures AllTrue(n, a, Equalities(m, b, i, ts)) <==> ValuesAgree(m, n, h, a, b, i, ts)
  {
    hide TrueIn, ValueIn, Equality, DefinedAt, Compared;
    var cs := Equalities(m, b, i, ts);
    forall k | 0 <= k < |ts| ensures TrueIn(n, a, cs[k]) <==> ValueIn(n, ts[k], a) == h(i, ValueIn(m, ts[k], b)) {
      assert ts[k] in ts;
      EqualityTrue(m, n, h, a, b, i, ts[k]);
    }
    if AllTrue(n, a, cs) {
      forall t <- ts ensures ValueIn(n, t, a) == h(i, ValueIn(m, t, b)) {
        var k :| 0 <= k < |ts| && ts[k] == t;
        assert cs[k] in cs;
      }
    }
    if ValuesAgree(m, n, h, a, b, i, ts) {
      forall c <- cs ensures TrueIn(n, a, c) {
        var k :| 0 <= k < |cs| && cs[k] == c;
        assert ts[k] in ts;
      }
    }
  }

  /** Every element of a sort is one of the variables. */
  function SizeConstraint(m: Model, i: nat): Term
    requires i < |m.universe| && i < |m.signature.sorts|
  {
    var x := VarName(m.signature.sorts[i], m.universe[i]);
    Quantified(Forall, [Binder(x, Uninterpreted(m.signature.sorts[i]))], NAryOp(Or, SizeComparisons(m, i)))
  }

  /** The constraint compares the bound variable with each variable of the sort. */
  function SizeComparisons(m: Model, i: nat): (r: seq<Term>)
    requires i < |m.universe| && i < |m.signature.sorts|
    ensures |r| == m.universe[i]
  {
    Comparisons(Equals, Id(VarName(m.signature.sorts[i], m.universe[i])), Ids(ExistsVars(m)[i]))
  }

  lemma SizeComparisonAt(m: Model, i: nat, x: nat)
    requires i < |m.universe| && i < |m.signature.sorts| && x < m.universe[i]
    ensures SizeComparisons(m, i)[x]
      == BinOp(Equals, Id(VarName(m.signature.sorts[i], m.universe[i])), Id(VarName(m.signature.sorts[i], x)))
  {
    hide VarName;
  }

  /** Each comparison is true exactly when the variable stands for the element. */
  lemma SizeComparisonValue(m: Model, n: Model, h: Mapping, a: Assignment, i: nat, y: nat, x: nat)
    requires Compared(m, n, h, a) && i < |m.universe| && i < |m.signature.sorts| && x < m.universe[i]
    ensures var a' := a[VarName(m.signature.sorts[i], m.universe[i]) := y];
            Eval(SizeComparisons(m, i)[x], TraceOf(n), 0, a') == ToElement(y == h(i, x))
  {
    hide Compared, VarName, TraceOf, SizeComparisons;
    var name, tr := VarName(m.signature.sorts[i], m.universe[i]), TraceOf(n);
    var a' := a[name := y];
    if VarName(m.signature.sorts[i], x) == name { VarNameInjective(m.signature.sorts[i], x, m.signature.sorts[i], m.universe[i]); }
    VarEval(m, n, h, a, i, x);
    SizeComparisonAt(m, i, x);
    BinaryEval(Equals, Id(name), Id(VarName(m.signature.sorts[i], x)), tr, 0, a');
  }

  lemma SizeBody(m: Model, n: Model, h: Mapping, a: Assignment, i: nat, y: nat)
    requires Compared(m, n, h, a) && i < |m.universe| && i < |m.signature.sorts|
    ensures TrueIn(n, a[VarName(m.signature.sorts[i], m.universe[i]) := y], SizeConstraint(m, i).body) <==> Hits(m, h, i, y)
  {
    hide Compared, VarName, TraceOf, SizeComparisons;
    var a' := a[VarName(m.signature.sorts[i], m.universe[i]) := y];
    var vs := EvalAll(SizeComparisons(m, i), TraceOf(n), 0, a');
    forall x: nat | x < m.universe[i] ensures vs[x] == ToElement(y == h(i, x)) { SizeComparisonValue(m, n, h, a, i, y, x); }
    if Hits(m, h, i, y) {
      var x :| 0 <= x < m.universe[i] && h(i, x) == y;
      assert vs[x] in vs;
    }
  }

  ghost predicate TrueWith(n: Model, a: Assignment, x: string, y: nat, body: Term) {
    TrueIn(n, a[x := y], body)
  }

  lemma SingleBinder(n: Model, b: Binder, body: Term, a: Assignment, size: nat)
    requires TraceOf(n).universe(b.sort) == size
    ensures TrueIn(n, a, Quantified(Forall, [b], body)) <==> forall y: nat | y < size :: TrueWith(n, a, b.name, y, body)
  {
    var binders, tr := [b], TraceOf(n);
    QuantifiedEval(Forall, binders, body, tr, 0, a);
    assert Shape(tr.universe, binders) == [size];
    forall y: nat ensures Bind(a, binders, [y]) == a[b.name := y] {
      assert Bind(a, binders, [y]) == Bind(a[b.name := y], [], []);
    }
    hide TraceOf, Bind, Eval;
    if OnAllTuples(true, binders, body, tr, 0, a) {
      forall y: nat | y < size ensures TrueWith(n, a, b.name, y, body) {
        assert InShape([y], [size]);
        assert Eval(body, tr, 0, Bind(a, binders, [y])) == 1;
      }
    }
    if forall y: nat | y < size :: TrueWith(n, a, b.name, y, body) {
      forall es | InShape(es, [size]) ensures (Eval(body, tr, 0, Bind(a, binders, es)) == 1) == true {
        assert es == [es[0]];
        assert TrueWith(n, a, b.name, es[0], body);
      }
    }
  }

  lemma SizeTrue(m: Model, n: Model, h: Mapping, a: Assignment, i: nat)
    requires Compared(m, n, h, a) && i < |m.universe| && i < |m.signature.sorts|
    ensures TrueIn(n, a, SizeConstraint(m, i)) <==> OntoAt(m, n, h, i)
  {
    Sizes(m, n, h, a);
    var x := VarName(m.signature.sorts[i], m.universe[i]);
    var body := SizeConstraint(m, i).body;
    SortSize(m, n, i);
    SingleBinder(n, Binder(x, Uninterpreted(m.signature.sorts[i])), body, a, n.universe[i]);
    hide Hits, Compared, TraceOf, VarName, TrueIn;
    forall y: nat ensures TrueWith(n, a, x, y, body) <==> Hits(m, h, i, y) { SizeBody(m, n, h, a, i, y); }
  }

  lemma {:induction false} FirstPlace<T>(xs: seq<T>, i: nat)
    requires NoDuplicates(xs) && i < |xs|
    ensures Place(xs, xs[i]) == Some(i)
  {
    var p := Place(xs, xs[i]).value;
  }

  lemma SortSize(m: Model, n: Model, i: nat)
    requires SameSignature(m, n) && i < |n.universe|
    ensures i < |m.signature.sorts| && TraceOf(n).universe(Uninterpreted(m.signature.sorts[i])) == n.universe[i]
  {
    FirstPlace(m.signature.sorts, i);
  }

  // The sentence.

  ghost function SortConjuncts(m: Model, b: Assignment, terms: seq<seq<Term>>, i: nat, sizes: bool): seq<Term>
    requires i < |m.universe| && i < |m.signature.sorts|
  {
    Pairs(NotEquals, Ids(ExistsVars(m)[i])) + Equalities(m, b, i, Others(m, terms, i)) + (if sizes then [SizeConstraint(m, i)] else [])
  }

  ghost predicate SortDescribed(m: Model, n: Model, h: Mapping, a: Assignment, b: Assignment, terms: seq<seq<Term>>, i: nat, sizes: bool) {
    InjectiveAt(m, h, i) && ValuesAgree(m, n, h, a, b, i, Others(m, terms, i)) && (sizes ==> OntoAt(m, n, h, i))
  }

  lemma OthersDefined(m: Model, n: Model, h: Mapping, a: Assignment, terms: seq<seq<Term>>, i: nat)
    requires Compared(m, n, h, a) && Listed(m, terms) && i < |m.universe|
    ensures forall t <- Others(m, terms, i) :: DefinedAt(n, t, a, i)
  {
    hide TermAt, DepthOf, DefinedAt, Compared, VarsFirst;
    forall t <- Others(m, terms, i) ensures DefinedAt(n, t, a, i) {
      assert t in At(terms, i);
      TermDefined(m, n, h, a, t, i);
    }
  }

  lemma TruthsDefined(m: Model, n: Model, h: Mapping, a: Assignment, terms: seq<seq<Term>>)
    requires Compared(m, n, h, a) && Listed(m, terms)
    ensures forall t <- At(terms, |m.signature.sorts|) :: DefinedAt(n, t, a, |m.signature.sorts|)
  {
    hide TermAt, DepthOf, DefinedAt, Compared, VarsFirst;
    forall t <- At(terms, |m.signature.sorts|) ensures DefinedAt(n, t, a, |m.signature.sorts|) {
      TermDefined(m, n, h, a, t, |m.signature.sorts|);
    }
  }

  lemma SortTrue(m: Model, n: Model, h: Mapping, a: Assignment, b: Assignment, terms: seq<seq<Term>>, i: nat, sizes: bool)
    requires Compared(m, n, h, a) && Compared(m, m, Identity(), b) && Listed(m, terms) && i < |m.universe| && i < |m.signature.sorts|
    ensures AllTrue(n, a, SortConjuncts(m, b, terms, i, sizes)) <==> SortDescribed(m, n, h, a, b, terms, i, sizes)
  {
    hide AllTrue, Compared, Listed, InjectiveAt, OntoAt, ValuesAgree, Pairs, SizeConstraint, DefinedAt, Others, Equalities, ExistsVars;
    var p, q := Pairs(NotEquals, Ids(ExistsVars(m)[i])), Equalities(m, b, i, Others(m, terms, i));
    var r := if sizes then [SizeConstraint(m, i)] else [];
    InequalitiesTrue(m, n, h, a, i);
    OthersDefined(m, n, h, a, terms, i);
    OthersDefined(m, m, Identity(), b, terms, i);
    EqualitiesTrue(m, n, h, a, b, i, Others(m, terms, i));
    SizeTrue(m, n, h, a, i);
    OneTrue(n, a, SizeConstraint(m, i));
    AllTrueAppend(n, a, p, q);
    AllTrueAppend(n, a, p + q, r);
  }

  lemma OneTrue(n: Model, a: Assignment, c: Term)
    ensures AllTrue(n, a, [c]) <==> TrueIn(n, a, c)
    ensures AllTrue(n, a, [])
  {
    hide TrueIn;
    assert c in [c];
  }

  /** Equate terms with the variables of their values. */
  method EqualityTerms(m: Model, b: Assignment, i: nat, first: seq<Term>, ts: seq<Term>) returns (r: seq<Term>)
    requires i < |m.universe| && i < |m.signature.sorts| && |first| == m.universe[i]
    requires forall v | 0 <= v < |first| :: first[v] == Id(VarName(m.signature.sorts[i], v))
    requires forall t <- ts :: DefinedAt(m, t, b, i)
    ensures r == Equalities(m, b, i, ts)
  {
    hide DefinedAt, ValueIn, EvalAssign, VarName;
    r := [];
    var j := 0;
    while j < |ts|
      invariant j <= |ts| && |r| == j
      invariant forall k | 0 <= k < j :: r[k] == Equality(m, b, i, ts[k])
    {
      assert ts[j] in ts;
      ElementOf(m, ts[j], b, i);
      var v := EvalAssign(ts[j], m, b).value;
      r := r + [BinOp(Equals, ts[j], first[v])];
      j := j + 1;
    }
  }

  /** The conjuncts for one sort: the variables differ, every other term equals the variable of its
      value, and if asked for there is nothing else. */
  method SortTerms(m: Model, b: Assignment, terms: seq<seq<Term>>, i: nat, sizes: bool) returns (r: seq<Term>)
    requires Compared(m, m, Identity(), b) && Listed(m, terms) && i < |m.universe| && i < |m.signature.sorts|
    ensures r == SortConjuncts(m, b, terms, i, sizes)
  {
    hide *;
    VariablesFirst(m, b, terms, i);
    OthersAre(m, b, terms, i, sizes);
    OthersDefined(m, m, Identity(), b, terms, i);
    var first := terms[i][..m.universe[i]];
    r := Pairs(NotEquals, first);
    var equalities := EqualityTerms(m, b, i, first, terms[i][m.universe[i]..]);
    r := r + equalities;
    if sizes { r := r + [SizeConstraint(m, i)]; }
  }

  lemma OthersAre(m: Model, b: Assignment, terms: seq<seq<Term>>, i: nat, sizes: bool)
    requires i < |m.universe| && i < |m.signature.sorts| && i < |terms| && m.universe[i] <= |terms[i]|
    requires terms[i][..m.universe[i]] == Ids(ExistsVars(m)[i])
    ensures Others(m, terms, i) == terms[i][m.universe[i]..]
    ensures !sizes ==> SortConjuncts(m, b, terms, i, sizes) == Pairs(NotEquals, terms[i][..m.universe[i]]) + Equalities(m, b, i, Others(m, terms, i))
    ensures SortConjuncts(m, b, terms, i, true) ==
      Pairs(NotEquals, terms[i][..m.universe[i]]) + Equalities(m, b, i, Others(m, terms, i)) + [SizeConstraint(m, i)]
  {
    hide Pairs, SizeConstraint, Equalities, Ids, ExistsVars;
  }

  lemma ElementOf(m: Model, t: Term, b: Assignment, i: nat)
    requires DefinedAt(m, t, b, i) && i < |m.universe|
    ensures EvalAssign(t, m, b).Some? && EvalAssign(t, m, b).value < m.universe[i] && ValueIn(m, t, b) == EvalAssign(t, m, b).value
  {
    hide EvalAssign;
  }

  lemma VariablesFirst(m: Model, b: Assignment, terms: seq<seq<Term>>, i: nat)
    requires Compared(m, m, Identity(), b) && Listed(m, terms) && i < |m.universe|
    ensures i < |m.signature.sorts| && i < |terms| && m.universe[i] <= |terms[i]|
    ensures terms[i][..m.universe[i]] == Ids(ExistsVars(m)[i])
    ensures forall v | 0 <= v < m.universe[i] :: terms[i][..m.universe[i]][v] == Id(VarName(m.signature.sorts[i], v))
  {
    Sizes(m, m, Identity(), b);
    hide Compared, TermAt, DepthOf, VarName;
    assert Ids(ExistsVars(m)[i]) <= At(terms, i);
  }

  ghost predicate DescribedUpTo(m: Model, n: Model, h: Mapping, a: Assignment, b: Assignment, terms: seq<seq<Term>>, i: nat, sizes: bool) {
    && TruthsAgree(m, n, a, b, At(terms, |m.signature.sorts|))
    && forall k | 0 <= k < i :: SortDescribed(m, n, h, a, b, terms, k, sizes)
  }

  /** The conjuncts say, of every mapping into every model, what the terms of the first sorts say. */
  ghost predicate Means(m: Model, b: Assignment, terms: seq<seq<Term>>, i: nat, sizes: bool, cs: seq<Term>) {
    forall n, h, a | Compared(m, n, h, a) :: AllTrue(n, a, cs) <==> DescribedUpTo(m, n, h, a, b, terms, i, sizes)
  }

  lemma MeansFlipped(m: Model, b: Assignment, terms: seq<seq<Term>>, sizes: bool, ts: seq<Term>, cs: seq<Term>)
    requires Compared(m, m, Identity(), b) && Listed(m, terms) && ts == At(terms, |m.signature.sorts|)
    requires |cs| == |ts| && forall k | 0 <= k < |ts| :: cs[k] == Flipped(ts[k], m, b)
    ensures Means(m, b, terms, 0, sizes, cs)
  {
    hide AllTrue, Compared, Listed, TruthsAgree, Flipped, DefinedAt, SortDescribed;
    forall n, h, a | Compared(m, n, h, a) ensures AllTrue(n, a, cs) <==> DescribedUpTo(m, n, h, a, b, terms, 0, sizes) {
      Sizes(m, n, h, a);
      TruthsDefined(m, n, h, a, terms);
      TruthsDefined(m, m, Identity(), b, terms);
      FlippedAllTrue(m, n, h, a, b, ts, cs);
    }
  }

  lemma MeansMore(m: Model, b: Assignment, terms: seq<seq<Term>>, i: nat, sizes: bool, cs: seq<Term>)
    requires Compared(m, m, Identity(), b) && Listed(m, terms) && i < |m.universe| && i < |m.signature.sorts| && Means(m, b, terms, i, sizes, cs)
    ensures Means(m, b, terms, i + 1, sizes, cs + SortConjuncts(m, b, terms, i, sizes))
  {
    hide AllTrue, Compared, Listed, TruthsAgree, SortDescribed, SortConjuncts;
    forall n, h, a | Compared(m, n, h, a)
      ensures AllTrue(n, a, cs + SortConjuncts(m, b, terms, i, sizes)) <==> DescribedUpTo(m, n, h, a, b, terms, i + 1, sizes)
    {
      AllTrueAppend(n, a, cs, SortConjuncts(m, b, terms, i, sizes));
      SortTrue(m, n, h, a, b, terms, i, sizes);
    }
  }

  ghost predicate Realizes(m: Model, n: Model, h: Mapping, sizes: bool) {
    Embeds(m, n, h) && (sizes ==> Onto(m, n, h))
  }

  lemma InjectiveAll(m: Model, h: Mapping)
    requires forall i | 0 <= i < |m.universe| :: InjectiveAt(m, h, i)
    ensures Injective(m, h)
  {
    forall i, x: nat, y: nat | 0 <= i < |m.universe| && x < m.universe[i] && y < m.universe[i] && h(i, x) == h(i, y) ensures x == y {
      assert InjectiveAt(m, h, i);
    }
  }

  lemma DescribedFrom(m: Model, n: Model, h: Mapping, a: Assignment, b: Assignment, terms: seq<seq<Term>>)
    requires Injective(m, h) && TruthsAgree(m, n, a, b, At(terms, |m.signature.sorts|))
    requires forall i | 0 <= i < |m.universe| :: ValuesAgree(m, n, h, a, b, i, Others(m, terms, i))
    ensures Described(m, n, h, a, b, terms)
  {
    hide ValuesAgree, TruthsAgree, Injective;
  }

  lemma RealizesFrom(m: Model, n: Model, h: Mapping, sizes: bool)
    requires Embeds(m, n, h) && |n.universe| == |m.universe|
    requires sizes ==> forall i | 0 <= i < |m.universe| :: OntoAt(m, n, h, i)
    ensures Realizes(m, n, h, sizes)
  {
    hide Embeds, Hits;
    forall i, y | 0 <= i < |n.universe| && 0 <= y < n.universe[i] && sizes ensures Hits(m, h, i, y) { assert OntoAt(m, n, h, i); }
  }

  lemma SortParts(m: Model, n: Model, h: Mapping, a: Assignment, b: Assignment, terms: seq<seq<Term>>, sizes: bool, i: nat)
    requires DescribedUpTo(m, n, h, a, b, terms, |m.universe|, sizes)
    ensures TruthsAgree(m, n, a, b, At(terms, |m.signature.sorts|))
    ensures i < |m.universe| ==> InjectiveAt(m, h, i) && ValuesAgree(m, n, h, a, b, i, Others(m, terms, i)) && (sizes ==> OntoAt(m, n, h, i))
  {
    hide ValuesAgree, TruthsAgree, InjectiveAt, OntoAt, Others;
    assert i < |m.universe| ==> SortDescribed(m, n, h, a, b, terms, i, sizes);
  }

  /** A mapping under which all conjuncts are true is an embedding, onto if sizes are constrained. */
  lemma DescribedRealizes(m: Model, n: Model, h: Mapping, a: Assignment, b: Assignment, terms: seq<seq<Term>>, sizes: bool)
    requires Compared(m, n, h, a) && Compared(m, m, Identity(), b) && Listed(m, terms)
    requires DescribedUpTo(m, n, h, a, b, terms, |m.universe|, sizes)
    ensures Realizes(m, n, h, sizes)
  {
    hide *;
    Sizes(m, n, h, a);
    SortParts(m, n, h, a, b, terms, sizes, |m.universe|);
    forall i | 0 <= i < |m.universe| ensures InjectiveAt(m, h, i) && ValuesAgree(m, n, h, a, b, i, Others(m, terms, i)) && (sizes ==> OntoAt(m, n, h, i)) {
      SortParts(m, n, h, a, b, terms, sizes, i);
    }
    InjectiveAll(m, h);
    DescribedFrom(m, n, h, a, b, terms);
    DescribedExact(m, n, h, a, b, terms);
    RealizesFrom(m, n, h, sizes);
  }

  lemma RealizesDescribed(m: Model, n: Model, h: Mapping, a: Assignment, b: Assignment, terms: seq<seq<Term>>, sizes: bool)
    requires Compared(m, n, h, a) && Compared(m, m, Identity(), b) && Listed(m, terms)
    requires Realizes(m, n, h, sizes)
    ensures DescribedUpTo(m, n, h, a, b, terms, |m.universe|, sizes)
  {
    Sizes(m, n, h, a);
    DescribedExact(m, n, h, a, b, terms);
    hide Embeds, ValuesAgree, TruthsAgree, Compared, Listed, Hits;
    forall i | 0 <= i < |m.universe| ensures SortDescribed(m, n, h, a, b, terms, i, sizes) {
      assert ValuesAgree(m, n, h, a, b, i, Others(m, terms, i));
      assert InjectiveAt(m, h, i) by {
        forall x: nat, y: nat | x < y < m.universe[i] ensures h(i, x) != h(i, y) {
        }
      }
    }
  }

  // The variables.

  type Key = (nat, nat)

  ghost predicate InModel(m: Model, k: Key) {
    k.0 < |m.universe| && k.0 < |m.signature.sorts| && k.1 < m.universe[k.0]
  }

  ghost predicate Before(k: Key, i: nat, j: nat) {
    k.0 < i || (k.0 == i && k.1 < j)
  }

  ghost predicate KeysTo(m: Model, keys: seq<Key>, i: nat, j: nat) {
    NoDuplicates(keys) && forall k :: k in keys <==> InModel(m, k) && Before(k, i, j)
  }

  function NameOf(m: Model, k: Key): string {
    if k.0 < |m.signature.sorts| then VarName(m.signature.sorts[k.0], k.1) else ""
  }

  function BinderOf(m: Model, k: Key): Binder {
    Binder(NameOf(m, k), Uninterpreted(if k.0 < |m.signature.sorts| then m.signature.sorts[k.0] else ""))
  }

  function BindersOf(m: Model, keys: seq<Key>): (r: seq<Binder>)
    ensures |r| == |keys| && forall p | 0 <= p < |keys| :: r[p] == BinderOf(m, keys[p])
  {
    seq(|keys|, p requires 0 <= p < |keys| => BinderOf(m, keys[p]))
  }

  /** The assignment gives exactly the variables of the keys their numbers. */
  ghost predicate Numbers(m: Model, keys: seq<Key>, b: Assignment) {
    && (forall x | x in b :: exists k :: k in keys && x == NameOf(m, k))
    && forall k <- keys :: NameOf(m, k) in b && b[NameOf(m, k)] == k.1
  }

  lemma NameInjective(m: Model, k: Key, l: Key)
    requires Describable(m) && InModel(m, k) && InModel(m, l) && NameOf(m, k) == NameOf(m, l)
    ensures k == l
  {
    hide VarName, Proper, ProperSorts;
    VarNameInjective(m.signature.sorts[k.0], k.1, m.signature.sorts[l.0], l.1);
  }

  lemma NextKey(m: Model, keys: seq<Key>, i: nat, j: nat, b: Assignment)
    requires Describable(m) && KeysTo(m, keys, i, j) && InModel(m, (i, j)) && Numbers(m, keys, b)
    ensures KeysTo(m, keys + [(i, j)], i, j + 1) && Numbers(m, keys + [(i, j)], b[NameOf(m, (i, j)) := j])
  {
    hide NameOf, Describable;
    var more, b' := keys + [(i, j)], b[NameOf(m, (i, j)) := j];
    AppendNoDuplicates(keys, [(i, j)]);
    assert forall k :: k in more <==> k in keys || k == (i, j);
    forall k <- more ensures NameOf(m, k) in b' && b'[NameOf(m, k)] == k.1 {
      if NameOf(m, k) == NameOf(m, (i, j)) { NameInjective(m, k, (i, j)); }
    }
    assert (i, j) in more;
  }

  lemma NextSort(m: Model, keys: seq<Key>, i: nat)
    requires KeysTo(m, keys, i, if i < |m.universe| then m.universe[i] else 0)
    ensures KeysTo(m, keys, i + 1, 0)
  {
  }

  lemma NumbersAssign(m: Model, keys: seq<Key>, b: Assignment)
    requires Describable(m) && KeysTo(m, keys, |m.universe|, 0) && Numbers(m, keys, b)
    ensures Compared(m, m, Identity(), b)
  {
    hide VarName, Proper, ProperSorts;
    assert |m.universe| == |m.signature.sorts| by { WellFormedOf(m); }
    forall x | x in b ensures exists i, j :: 0 <= i < |m.universe| && 0 <= j < m.universe[i] && i < |m.signature.sorts| && x == VarName(m.signature.sorts[i], j) {
      var k :| k in keys && x == NameOf(m, k);
      assert x == VarName(m.signature.sorts[k.0], k.1);
    }
    forall i, j: nat | 0 <= i < |m.universe| && j < m.universe[i] && i < |m.signature.sorts|
      ensures VarName(m.signature.sorts[i], j) in b && b[VarName(m.signature.sorts[i], j)] == j
    {
      assert InModel(m, (i, j)) && (i, j) in keys;
      assert NameOf(m, (i, j)) == VarName(m.signature.sorts[i], j);
    }
    assert Proper(m) by { WellFormedOf(m); }
  }

  /** A variable for every element, with the assignment that gives it that element. */
  method Variables(m: Model) returns (binders: seq<Binder>, b: Assignment, ghost keys: seq<Key>)
    requires Describable(m)
    ensures KeysTo(m, keys, |m.universe|, 0) && binders == BindersOf(m, keys) && Compared(m, m, Identity(), b)
  {
    WellFormedOf(m);
    assert |m.universe| == |m.signature.sorts|;
    hide Describable, Numbers, NameOf, Compared, WellFormed, KeysTo;
    binders, b, keys := [], map[], [];
    NoKeys(m);
    var i := 0;
    while i < |m.universe|
      invariant i <= |m.universe| && KeysTo(m, keys, i, 0) && Numbers(m, keys, b) && binders == BindersOf(m, keys)
    {
      var j := 0;
      while j < m.universe[i]
        invariant j <= m.universe[i] && KeysTo(m, keys, i, j) && Numbers(m, keys, b) && binders == BindersOf(m, keys)
      {
        NextKey(m, keys, i, j, b);
        binders := binders + [BinderOf(m, (i, j))];
        b := b[NameOf(m, (i, j)) := j];
        keys := keys + [(i, j)];
        j := j + 1;
      }
      NextSort(m, keys, i);
      i := i + 1;
    }
    NumbersAssign(m, keys, b);
  }

  lemma NoKeys(m: Model)
    ensures KeysTo(m, [], 0, 0) && Numbers(m, [], map[])
  {
  }

  // The sentence.

  lemma {:induction false} BindAt(asg: Assignment, binders: seq<Binder>, es: seq<Element>, x: string)
    requires |binders| == |es|
    ensures x in Bind(asg, binders, es) <==> x in asg || exists q :: 0 <= q < |binders| && binders[q].name == x
    ensures (forall q | 0 <= q < |binders| :: binders[q].name != x) ==> (x in asg ==> Bind(asg, binders, es)[x] == asg[x])
    decreases |binders|
  {
    if binders != [] {
      BindAt(asg[binders[0].name := es[0]], binders[1..], es[1..], x);
      if q :| 0 <= q < |binders| && binders[q].name == x {
        assert q > 0 ==> binders[1..][q - 1].name == x;
      }
    }
  }

  lemma {:induction false} BindValue(asg: Assignment, binders: seq<Binder>, es: seq<Element>, p: nat)
    requires |binders| == |es| && p < |binders| && DistinctNames(binders)
    ensures binders[p].name in Bind(asg, binders, es) && Bind(asg, binders, es)[binders[p].name] == es[p]
    decreases |binders|
  {
    var rest := asg[binders[0].name := es[0]];
    if p == 0 {
      forall q | 0 <= q < |binders[1..]| ensures binders[1..][q].name != binders[0].name { assert binders[q + 1].name != binders[0].name; }
      BindAt(rest, binders[1..], es[1..], binders[0].name);
    } else {
      assert binders[1..][p - 1] == binders[p];
      BindValue(rest, binders[1..], es[1..], p - 1);
    }
  }

  lemma KeysDistinct(m: Model, keys: seq<Key>)
    requires Describable(m) && KeysTo(m, keys, |m.universe|, 0)
    ensures DistinctNames(BindersOf(m, keys))
  {
    hide NameOf, Describable;
    forall p, q | 0 <= p < q < |keys| ensures BindersOf(m, keys)[p].name != BindersOf(m, keys)[q].name {
      assert keys[p] in keys && keys[q] in keys;
      if NameOf(m, keys[p]) == NameOf(m, keys[q]) { NameInjective(m, keys[p], keys[q]); }
    }
  }

  /** Whatever the values of the binders, they are those of a mapping. */
  ghost predicate Matches(m: Model, keys: seq<Key>, es: seq<Element>, h: Mapping) {
    |es| == |keys| && forall p | 0 <= p < |keys| :: es[p] == h(keys[p].0, keys[p].1)
  }

  lemma KeyIn(m: Model, keys: seq<Key>, i: nat, j: nat)
    requires KeysTo(m, keys, |m.universe|, 0) && InModel(m, (i, j))
    ensures exists p :: 0 <= p < |keys| && keys[p] == (i, j)
  {
    assert (i, j) in keys;
  }

  lemma MatchAssigns(m: Model, n: Model, keys: seq<Key>, es: seq<Element>, h: Mapping)
    requires SameSignature(m, n) && KeysTo(m, keys, |m.universe|, 0) && Matches(m, keys, es, h)
    ensures Assigns(m, n, h, Bind(map[], BindersOf(m, keys), es))
  {
    var binders := BindersOf(m, keys);
    var a := Bind(map[], binders, es);
    KeysDistinct(m, keys);
    hide VarName, SameSignature, Bind;
    forall x | x in a ensures exists i, j :: 0 <= i < |m.universe| && 0 <= j < m.universe[i] && i < |m.signature.sorts| && x == VarName(m.signature.sorts[i], j) {
      BindAt(map[], binders, es, x);
      var q :| 0 <= q < |binders| && binders[q].name == x;
      assert keys[q] in keys;
      assert x == VarName(m.signature.sorts[keys[q].0], keys[q].1);
    }
    forall i, j: nat | 0 <= i < |m.universe| && j < m.universe[i] && i < |m.signature.sorts|
      ensures VarName(m.signature.sorts[i], j) in a && a[VarName(m.signature.sorts[i], j)] == h(i, j)
    {
      KeyIn(m, keys, i, j);
      var p :| 0 <= p < |keys| && keys[p] == (i, j);
      assert binders[p].name == VarName(m.signature.sorts[i], j);
      BindValue(map[], binders, es, p);
    }
  }

  /** The tuple is in range exactly when the mapping is. */
  lemma MatchInto(m: Model, n: Model, keys: seq<Key>, es: seq<Element>, h: Mapping)
    requires SameSignature(m, n) && KeysTo(m, keys, |m.universe|, 0) && Matches(m, keys, es, h)
    ensures InShape(es, Shape(TraceOf(n).universe, BindersOf(m, keys))) <==> Into(m, n, h)
  {
    var shape := Shape(TraceOf(n).universe, BindersOf(m, keys));
    assert |n.universe| == |m.universe| == |m.signature.sorts| by { WellFormedOf(m); }
    forall p | 0 <= p < |keys| ensures InModel(m, keys[p]) && shape[p] == n.universe[keys[p].0] {
      assert keys[p] in keys;
      SortSize(m, n, keys[p].0);
    }
    hide SameSignature, TraceOf, NameOf, BindersOf;
    if InShape(es, shape) {
      forall i, x: nat | 0 <= i < |m.universe| && x < m.universe[i] ensures i < |n.universe| && h(i, x) < n.universe[i] {
        KeyIn(m, keys, i, x);
        var p :| 0 <= p < |keys| && keys[p] == (i, x);
        assert es[p] < shape[p];
      }
    }
  }

  lemma AndTrue(n: Model, a: Assignment, cs: seq<Term>)
    ensures TrueIn(n, a, NAryOp(And, cs)) <==> AllTrue(n, a, cs)
  {
    var vs := EvalAll(cs, TraceOf(n), 0, a);
    assert Eval(NAryOp(And, cs), TraceOf(n), 0, a) == NAryValue(And, vs);
    hide Eval, TraceOf;
    if AllTrue(n, a, cs) {
      forall v <- vs ensures v == 1 {
        var k :| 0 <= k < |vs| && vs[k] == v;
        assert cs[k] in cs && TrueIn(n, a, cs[k]);
      }
    }
    if TrueIn(n, a, NAryOp(And, cs)) {
      forall c <- cs ensures TrueIn(n, a, c) {
        var k :| 0 <= k < |cs| && cs[k] == c;
        assert vs[k] in vs;
      }
    }
  }

  ghost predicate TupleTrue(n: Model, binders: seq<Binder>, body: Term, es: seq<Element>) {
    InShape(es, Shape(TraceOf(n).universe, binders)) && TrueIn(n, Bind(map[], binders, es), body)
  }

  lemma ExistsTrue(n: Model, binders: seq<Binder>, body: Term)
    ensures TrueIn(n, map[], Quantified(Exists, binders, body)) <==> exists es :: TupleTrue(n, binders, body, es)
  {
    QuantifiedEval(Exists, binders, body, TraceOf(n), 0, map[]);
    hide TraceOf, Eval;
    if binders == [] {
      var none: seq<Element> := [];
      assert Bind(map[], binders, none) == map[];
      assert TrueIn(n, map[], body) <==> TupleTrue(n, binders, body, none);
      assert forall es :: TupleTrue(n, binders, body, es) ==> es == none;
    } else {
      forall es ensures TupleTrue(n, binders, body, es) <==>
        InShape(es, Shape(TraceOf(n).universe, binders)) && Eval(body, TraceOf(n), 0, Bind(map[], binders, es)) == 1 {
      }
    }
  }

  function Lookup(keys: seq<Key>, es: seq<Element>, k: Key): Element {
    if keys == [] || es == [] then 0 else if keys[0] == k then es[0] else Lookup(keys[1..], es[1..], k)
  }

  lemma {:induction false} LookupAt(keys: seq<Key>, es: seq<Element>, p: nat)
    requires NoDuplicates(keys) && |es| == |keys| && p < |keys|
    ensures Lookup(keys, es, keys[p]) == es[p]
    decreases |keys|
  {
    if p > 0 {
      assert keys[0] != keys[p];
      LookupAt(keys[1..], es[1..], p - 1);
    }
  }

  ghost function MappingOf(keys: seq<Key>, es: seq<Element>): Mapping {
    (i: nat, x: Element) => Lookup(keys, es, (i, x))
  }

  lemma MappingMatches(m: Model, keys: seq<Key>, es: seq<Element>)
    requires NoDuplicates(keys) && |es| == |keys|
    ensures Matches(m, keys, es, MappingOf(keys, es))
  {
    forall p | 0 <= p < |keys| ensures es[p] == MappingOf(keys, es)(keys[p].0, keys[p].1) { LookupAt(keys, es, p); }
  }

  ghost function Values(keys: seq<Key>, h: Mapping): (r: seq<Element>)
    ensures |r| == |keys| && forall p | 0 <= p < |keys| :: r[p] == h(keys[p].0, keys[p].1)
  {
    seq<Element>(|keys|, p requires 0 <= p < |keys| => h(keys[p].0, keys[p].1))
  }

  /** Some mapping into the model is an embedding, and onto if sizes are constrained. */
  ghost predicate Realizable(m: Model, n: Model, sizes: bool) {
    exists h :: Realizes(m, n, h, sizes)
  }

  lemma TupleRealizes(m: Model, n: Model, b: Assignment, terms: seq<seq<Term>>, keys: seq<Key>, cs: seq<Term>, sizes: bool, es: seq<Element>, h: Mapping)
    requires SameSignature(m, n) && KeysTo(m, keys, |m.universe|, 0) && Compared(m, m, Identity(), b) && Listed(m, terms)
    requires Means(m, b, terms, |m.universe|, sizes, cs) && Matches(m, keys, es, h) && Into(m, n, h)
    ensures TrueIn(n, Bind(map[], BindersOf(m, keys), es), NAryOp(And, cs)) <==> Realizes(m, n, h, sizes)
  {
    var a := Bind(map[], BindersOf(m, keys), es);
    MatchAssigns(m, n, keys, es, h);
    assert Compared(m, n, h, a);
    AndTrue(n, a, cs);
    assert AllTrue(n, a, cs) <==> DescribedUpTo(m, n, h, a, b, terms, |m.universe|, sizes);
    hide *;
    if DescribedUpTo(m, n, h, a, b, terms, |m.universe|, sizes) { DescribedRealizes(m, n, h, a, b, terms, sizes); }
    if Realizes(m, n, h, sizes) { RealizesDescribed(m, n, h, a, b, terms, sizes); }
  }

  lemma RealizesInto(m: Model, n: Model, h: Mapping, sizes: bool)
    requires Realizes(m, n, h, sizes)
    ensures Into(m, n, h)
  {
  }

  /** The sentence is true in the models that the described one embeds in; with the size constraints,
      in those that it embeds onto. */
  lemma SentenceExact(m: Model, n: Model, b: Assignment, terms: seq<seq<Term>>, keys: seq<Key>, cs: seq<Term>, sizes: bool)
    requires SameSignature(m, n) && KeysTo(m, keys, |m.universe|, 0) && Compared(m, m, Identity(), b) && Listed(m, terms)
    requires Means(m, b, terms, |m.universe|, sizes, cs)
    ensures TrueIn(n, map[], Quantified(Exists, BindersOf(m, keys), NAryOp(And, cs))) <==> Realizable(m, n, sizes)
  {
    var binders, body := BindersOf(m, keys), NAryOp(And, cs);
    ExistsTrue(n, binders, body);
    assert NoDuplicates(keys);
    hide Means, Listed, KeysTo, Compared, SameSignature, Matches, TrueIn, Bind, Realizes, Into, TraceOf;
    if es :| TupleTrue(n, binders, body, es) {
      var h := MappingOf(keys, es);
      MappingMatches(m, keys, es);
      MatchInto(m, n, keys, es, h);
      TupleRealizes(m, n, b, terms, keys, cs, sizes, es, h);
    }
    if h :| Realizes(m, n, h, sizes) {
      var es := Values(keys, h);
      assert Matches(m, keys, es, h) by { MatchValues(m, keys, h); }
      RealizesInto(m, n, h, sizes);
      MatchInto(m, n, keys, es, h);
      TupleRealizes(m, n, b, terms, keys, cs, sizes, es, h);
      assert TupleTrue(n, binders, body, es);
    }
  }

  lemma MatchValues(m: Model, keys: seq<Key>, h: Mapping)
    ensures Matches(m, keys, Values(keys, h), h)
  {
  }

  ghost predicate DescribesExactly(m: Model, t: Term, sizes: bool) {
    forall n | SameSignature(m, n) :: TrueIn(n, map[], t) <==> Realizable(m, n, sizes)
  }

  /** The terms of depth at most one over the symbols and the variables of the elements. */
  method ListedTerms(m: Model) returns (terms: seq<seq<Term>>)
    requires Describable(m)
    ensures Listed(m, terms) && |terms| == |m.signature.sorts| + 1 && |m.universe| == |m.signature.sorts|
  {
    WellFormedOf(m);
    VarsDistinct(m);
    assert ProperSorts(m.signature);
    hide NoDuplicates, TermAt, DepthOf, WellFormed, VarsFirst, DistinctSymbols;
    terms := TermsBySort(m.signature, ExistsVars(m), Some(1), false, 1);
  }

  /** The sentence of a model, with or without the size constraints. */
  method ToTermInternal(m: Model, sizes: bool) returns (t: Term)
    requires Describable(m)
    ensures DescribesExactly(m, t, sizes)
  {
    hide Describable, Compared, Listed, Means, SortConjuncts, Lists, KeysTo, WellFormed, EvalAssign;
    ghost var keys;
    var binders, b;
    binders, b, keys := Variables(m);
    var terms := ListedTerms(m);
    TruthsDefined(m, m, Identity(), b, terms);
    var truths := terms[|m.signature.sorts|];
    assert At(terms, |m.signature.sorts|) == truths;
    var flipped := FlipToSat(truths, m, b);
    assert flipped.Some? by { assert forall x <- truths :: DefinedAt(m, x, b, |m.signature.sorts|); }
    var cs, i := flipped.value, 0;
    MeansFlipped(m, b, terms, sizes, truths, cs);
    while i < |m.signature.sorts|
      invariant i <= |m.signature.sorts| && Means(m, b, terms, i, sizes, cs)
    {
      MeansMore(m, b, terms, i, sizes, cs);
      var more := SortTerms(m, b, terms, i, sizes);
      cs := cs + more;
      i := i + 1;
    }
    t := Quantified(Exists, binders, NAryOp(And, cs));
    hide *;
    Conclude(m, b, terms, keys, cs, sizes);
  }

  lemma Conclude(m: Model, b: Assignment, terms: seq<seq<Term>>, keys: seq<Key>, cs: seq<Term>, sizes: bool)
    requires KeysTo(m, keys, |m.universe|, 0) && Compared(m, m, Identity(), b) && Listed(m, terms)
    requires Means(m, b, terms, |m.universe|, sizes, cs)
    ensures DescribesExactly(m, Quantified(Exists, BindersOf(m, keys), NAryOp(And, cs)), sizes)
  {
    hide KeysTo, Compared, Listed, Means, SameSignature, TrueIn, Realizable;
    forall n | SameSignature(m, n)
      ensures TrueIn(n, map[], Quantified(Exists, BindersOf(m, keys), NAryOp(And, cs))) <==> Realizable(m, n, sizes)
    {
      SentenceExact(m, n, b, terms, keys, cs, sizes);
    }
  }

  /** The sentence that is true in exactly the isomorphic models. */
  method ToTerm(m: Model) returns (t: Term)
    requires Describable(m)
    ensures DescribesExactly(m, t, true)
  {
    t := ToTermInternal(m, true);
  }

  /** The sentence that is true in exactly the models that this one embeds in. */
  method ToDiagram(m: Model) returns (t: Term)
    requires Describable(m)
    ensures DescribesExactly(m, t, false)
  {
    t := ToTermInternal(m, false);
  }

  // Isomorphic models.

  /** What the elements of a sort are mapped to. */
  ghost function Targets(m: Model, h: Mapping, i: nat): (r: seq<nat>)
    requires i < |m.universe|
    ensures |r| == m.universe[i] && forall x | 0 <= x < |r| :: r[x] == h(i, x)
  {
    seq<nat>(m.universe[i], x requires 0 <= x < m.universe[i] => h(i, x))
  }

  lemma TargetsDistinct(m: Model, h: Mapping, i: nat)
    requires Injective(m, h) && i < |m.universe|
    ensures NoDuplicates(Targets(m, h, i))
  {
  }

  lemma TargetsOnto(m: Model, n: Model, h: Mapping, i: nat, y: nat)
    requires Into(m, n, h) && Onto(m, n, h) && i < |m.universe| && i < |n.universe|
    ensures y in Targets(m, h, i) <==> y < n.universe[i]
  {
    if y < n.universe[i] {
      assert Hits(m, h, i, y);
      var x :| 0 <= x < m.universe[i] && h(i, x) == y;
      assert Targets(m, h, i)[x] == y;
    }
  }

  lemma SameSize(m: Model, n: Model, h: Mapping, i: nat)
    requires Realizes(m, n, h, true) && i < |m.universe| && i < |n.universe|
    ensures m.universe[i] == n.universe[i]
  {
    assert Injective(m, h) && Into(m, n, h) && Onto(m, n, h);
    hide *;
    TargetsDistinct(m, h, i);
    DistinctCount(Targets(m, h, i));
    forall y: nat ensures y in Targets(m, h, i) <==> y in NumbersBelow(n.universe[i]) { TargetsOnto(m, n, h, i, y); }
    EntriesAre(Targets(m, h, i), n.universe[i]);
  }

  lemma EntriesAre(xs: seq<nat>, k: nat)
    requires forall y: nat :: y in xs <==> y in NumbersBelow(k)
    ensures Entries(xs) == NumbersBelow(k)
  {
  }

  ghost function Preimage(m: Model, h: Mapping, i: nat, y: Element): Element {
    if Hits(m, h, i, y) then var x :| 0 <= x < m.universe[i] && h(i, x) == y; x else 0
  }

  ghost function RenamingOf(m: Model, h: Mapping): Iso.Renaming {
    Iso.Renaming((s: Sort, x: Element) => MapTo(m.signature, h, s, x),
                 (s: Sort, y: Element) => if s.Bool? then y else Preimage(m, h, Slot(m.signature, s), y))
  }

  lemma SameUniverse(m: Model, n: Model, h: Mapping, s: Sort)
    requires SameSignature(m, n) && Realizes(m, n, h, true)
    ensures TraceOf(m).universe(s) == TraceOf(n).universe(s)
    ensures !s.Bool? && TraceOf(m).universe(s) > 0 ==>
      Slot(m.signature, s) < |m.universe| && TraceOf(m).universe(s) == m.universe[Slot(m.signature, s)] == n.universe[Slot(m.signature, s)]
  {
    hide Realizes, Describable;
    WellFormedOf(m);
    if Declared(m.signature, s) && s != Bool {
      SlotOf(m, s);
      SlotOf(n, s);
      SameSize(m, n, h, Slot(m.signature, s));
    }
  }

  lemma RenamesSort(m: Model, n: Model, h: Mapping, s: Sort, x: Element)
    requires SameSignature(m, n) && Realizes(m, n, h, true) && x < TraceOf(m).universe(s)
    ensures RenamingOf(m, h).to(s, x) < TraceOf(m).universe(s) && RenamingOf(m, h).from(s, RenamingOf(m, h).to(s, x)) == x
    ensures RenamingOf(m, h).from(s, x) < TraceOf(m).universe(s) && RenamingOf(m, h).to(s, RenamingOf(m, h).from(s, x)) == x
  {
    SameUniverse(m, n, h, s);
    if s != Bool {
      var i := Slot(m.signature, s);
      hide TraceOf, Slot, Preserves, SameSignature;
      assert Hits(m, h, i, h(i, x));
      assert Hits(m, h, i, x);
    }
  }

  lemma IsomorphicTo(m: Model, n: Model, h: Mapping)
    requires SameSignature(m, n) && Realizes(m, n, h, true)
    ensures TraceFits(ScopeOf(m.signature.relations), TraceOf(m))
    ensures Iso.IsomorphicTraces(ScopeOf(m.signature.relations), TraceOf(m), TraceOf(n), RenamingOf(m, h))
  {
    var tr1, tr2, pi, scope := TraceOf(m), TraceOf(n), RenamingOf(m, h), ScopeOf(m.signature.relations);
    forall s ensures tr1.universe(s) == tr2.universe(s) { SameUniverse(m, n, h, s); }
    forall s, x: nat | x < tr1.universe(s)
      ensures pi.to(s, x) < tr1.universe(s) && pi.from(s, pi.to(s, x)) == x
      ensures pi.from(s, x) < tr1.universe(s) && pi.to(s, pi.from(s, x)) == x
    {
      RenamesSort(m, n, h, s, x);
    }
    assert Iso.IsRenaming(pi, tr1.universe);
    BoolSize(m);
    forall k: nat, name, es | name in scope && TupleOf(es, FindDecl(m.signature.relations, name).value.args, tr1.universe)
      ensures SymbolRenamed(m, n, h, k, name, es)
    {
      RenamedSymbol(m, n, h, k, name, es);
    }
    hide Realizes, SameSignature, TraceOf, RenamingOf;
    SymbolsRenamed(m, n, h);
  }

  ghost predicate SymbolRenamed(m: Model, n: Model, h: Mapping, k: nat, name: string, es: seq<Element>) {
    var d := FindDecl(m.signature.relations, name);
    && d.Some? && |es| == |d.value.args|
    && TraceOf(m).at(k)(name, es) < TraceOf(m).universe(d.value.sort)
    && TraceOf(n).at(k)(name, Iso.RenameTuple(RenamingOf(m, h).to, d.value.args, es)) == RenamingOf(m, h).to(d.value.sort, TraceOf(m).at(k)(name, es))
  }

  lemma RenamedSymbol(m: Model, n: Model, h: Mapping, k: nat, name: string, es: seq<Element>)
    requires SameSignature(m, n) && Realizes(m, n, h, true) && FindDecl(m.signature.relations, name).Some?
    requires TupleOf(es, FindDecl(m.signature.relations, name).value.args, TraceOf(m).universe)
    ensures SymbolRenamed(m, n, h, k, name, es)
  {
    var d := FindDecl(m.signature.relations, name).value;
    WellFormedOf(m);
    SymbolValue(m, d, es);
    assert Preserves(m, n, h, d);
    assert PreservesAt(m, n, h, d, es);
    assert Iso.RenameTuple(RenamingOf(m, h).to, d.args, es) == MapTuple(m.signature, h, d.args, es);
  }

  lemma SymbolsRenamed(m: Model, n: Model, h: Mapping)
    requires forall k: nat, name, es | name in ScopeOf(m.signature.relations) && TupleOf(es, FindDecl(m.signature.relations, name).value.args, TraceOf(m).universe) ::
      SymbolRenamed(m, n, h, k, name, es)
    requires TraceOf(m).universe(Bool) == 2 && Iso.IsRenaming(RenamingOf(m, h), TraceOf(m).universe)
    requires forall s :: TraceOf(m).universe(s) == TraceOf(n).universe(s)
    ensures TraceFits(ScopeOf(m.signature.relations), TraceOf(m))
    ensures Iso.IsomorphicTraces(ScopeOf(m.signature.relations), TraceOf(m), TraceOf(n), RenamingOf(m, h))
  {
    hide TraceOf, RenamingOf, ScopeOf, Iso.IsRenaming;
    var tr1, tr2, pi, scope := TraceOf(m), TraceOf(n), RenamingOf(m, h), ScopeOf(m.signature.relations);
    forall k: nat, name | name in scope && scope[name].Individual?
      ensures tr1.at(k)(name, []) < tr1.universe(scope[name].sort) && tr2.at(k)(name, []) == pi.to(scope[name].sort, tr1.at(k)(name, []))
    {
      assert SymbolRenamed(m, n, h, k, name, []);
      assert Iso.RenameTuple(pi.to, [], []) == [];
    }
    forall k: nat, name, es | name in scope && scope[name].Relation? && TupleOf(es, scope[name].args, tr1.universe)
      ensures tr1.at(k)(name, es) < tr1.universe(scope[name].ret)
      ensures tr2.at(k)(name, Iso.RenameTuple(pi.to, scope[name].args, es)) == pi.to(scope[name].ret, tr1.at(k)(name, es))
    {
      assert SymbolRenamed(m, n, h, k, name, es);
    }
  }

  /** A model of the sentence agrees with the described model on every closed formula. */
  lemma SentenceModelsAgree(m: Model, n: Model, t: Term, formula: Term)
    requires SameSignature(m, n) && DescribesExactly(m, t, true) && TrueIn(n, map[], t)
    requires SortOf(formula, ScopeOf(m.signature.relations)) == Some(Bool)
    ensures TrueIn(n, map[], formula) <==> TrueIn(m, map[], formula)
  {
    assert Realizable(m, n, true);
    var h :| Realizes(m, n, h, true);
    IsomorphicTo(m, n, h);
    Iso.ClosedTermInvariant(formula, ScopeOf(m.signature.relations), TraceOf(m), TraceOf(n), RenamingOf(m, h), 0);
  }
}
