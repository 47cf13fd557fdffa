/** Which ground formulas compile to guarded updates, said on their shape, and what an error of the
    compilation blames. */
module CompiledShapes {
  import opened Collections
  import opened Syntax
  import opened Semantics
  import opened QuantEnum
  import opened EnumeratedShapes
  import opened Indexing
  import opened Guarded

  // Formulas over one state.

  ghost predicate Inside(a: Enumerated, e: Enumerated)
    decreases e
  {
    a == e
    || match e
       case EAnd(xs) => exists x | x in xs :: Inside(a, x)
       case EOr(xs) => exists x | x in xs :: Inside(a, x)
       case ENot(x) => Inside(a, x)
       case EEq(x, y) => Inside(a, x) || Inside(a, y)
       case EApp(_, _, _) => false
  }

  /** Every application is unprimed and has an index. */
  ghost predicate OneState(e: Enumerated, ix: IndexMap) {
    match e
    case EAnd(xs) => forall x | x in xs :: OneState(x, ix)
    case EOr(xs) => forall x | x in xs :: OneState(x, ix)
    case ENot(x) => OneState(x, ix)
    case EEq(x, y) => OneState(x, ix) && OneState(y, ix)
    case EApp(name, p, args) => p == 0 && ix.Get(name, 0, args).Some?
  }

  /** A prime that is not allowed, or an application without an index. */
  predicate BadApplication(error: CheckerError, a: Enumerated, ix: IndexMap) {
    && a.EApp?
    && ((error == PrimeInFormula && a.primes > 0) || (error == Panic && a.primes == 0 && ix.Get(a.name, 0, a.args).None?))
  }

  ghost predicate Blames(error: CheckerError, e: Enumerated, ix: IndexMap) {
    exists a :: BadApplication(error, a, ix) && Inside(a, e)
  }

  lemma BlamesWithin(error: CheckerError, x: Enumerated, e: Enumerated, ix: IndexMap)
    requires Blames(error, x, ix) && forall a | Inside(a, x) :: Inside(a, e)
    ensures Blames(error, e, ix)
  {
    hide Inside, BadApplication;
  }

  lemma {:induction false} OneStateInside(a: Enumerated, e: Enumerated, ix: IndexMap)
    requires OneState(e, ix) && Inside(a, e)
    ensures OneState(a, ix)
    decreases e
  {
    if a != e {
      match e
      case EAnd(xs) => var x :| x in xs && Inside(a, x); OneStateInside(a, x, ix);
      case EOr(xs) => var x :| x in xs && Inside(a, x); OneStateInside(a, x, ix);
      case ENot(x) => OneStateInside(a, x, ix);
      case EEq(x, y) => OneStateInside(a, if Inside(a, x) then x else y, ix);
      case EApp(_, _, _) =>
    }
  }

  /** A formula over one state compiles exactly when it is one; otherwise the error blames an
      application in it. */
  lemma {:induction false} FormulaCompiles(e: Enumerated, ix: IndexMap)
    ensures EnumeratedToFormula(e, ix).Success? <==> OneState(e, ix)
    ensures EnumeratedToFormula(e, ix).Failure? ==> Blames(EnumeratedToFormula(e, ix).error, e, ix)
    decreases e, 1
  {
    match e
    case EAnd(xs) =>
      FormulasCompile(xs, ix);
      if FormulasOf(xs, ix).Failure? {
        var x :| x in xs && Blames(FormulasOf(xs, ix).error, x, ix);
        BlamesWithin(FormulasOf(xs, ix).error, x, e, ix);
      }
    case EOr(xs) =>
      FormulasCompile(xs, ix);
      if FormulasOf(xs, ix).Failure? {
        var x :| x in xs && Blames(FormulasOf(xs, ix).error, x, ix);
        BlamesWithin(FormulasOf(xs, ix).error, x, e, ix);
      }
    case ENot(x) =>
      FormulaCompiles(x, ix);
      if EnumeratedToFormula(x, ix).Failure? { BlamesWithin(EnumeratedToFormula(x, ix).error, x, e, ix); }
    case EEq(x, y) =>
      FormulaCompiles(x, ix);
      FormulaCompiles(y, ix);
      if EnumeratedToFormula(x, ix).Failure? {
        BlamesWithin(EnumeratedToFormula(x, ix).error, x, e, ix);
      } else if EnumeratedToFormula(y, ix).Failure? {
        BlamesWithin(EnumeratedToFormula(y, ix).error, y, e, ix);
      }
    case EApp(_, _, _) => assert Inside(e, e);
  }

  lemma {:induction false} FormulasCompile(es: seq<Enumerated>, ix: IndexMap)
    ensures FormulasOf(es, ix).Success? <==> forall x | x in es :: OneState(x, ix)
    ensures FormulasOf(es, ix).Failure? ==> exists x | x in es :: Blames(FormulasOf(es, ix).error, x, ix)
    decreases es, 0
  {
    hide OneState, Blames;
    if es != [] {
      FormulaCompiles(es[0], ix);
      FormulasCompile(es[1..], ix);
      assert es == [es[0]] + es[1..];
    }
  }

  // Conjuncts of a two-state formula.

  /** The parts of nested conjunctions. */
  ghost predicate IsConjunct(l: Enumerated, e: Enumerated)
    decreases e
  {
    if e.EAnd? then exists x | x in e.terms :: IsConjunct(l, x) else l == e
  }

  function Atom(l: Enumerated): Enumerated {
    if l.ENot? then l.term else l
  }

  /** The bit that a conjunct `p'`, `p' = f`, or the negation of one is about. */
  function Target(l: Enumerated): Option<Enumerated> {
    match Atom(l)
    case EApp(_, p, _) => if p == 1 then Some(Atom(l)) else None
    case EEq(x, _) => if x.EApp? && x.primes == 1 then Some(x) else None
    case _ => None
  }

  predicate TargetIndexed(l: Enumerated, ix: IndexMap) {
    Target(l).Some? && ix.Get(Target(l).value.name, 0, Target(l).value.args).Some?
  }

  /** `p'` and `p' = f` with `f` over one state, negated or not. */
  ghost predicate IsUpdate(l: Enumerated, ix: IndexMap) {
    TargetIndexed(l, ix) && (Atom(l).EEq? ==> OneState(Atom(l).rhs, ix))
  }

  ghost predicate ConjunctCompiles(l: Enumerated, ix: IndexMap) {
    if Target(l).Some? then IsUpdate(l, ix) else OneState(l, ix)
  }

  /** What is wrong with a conjunct that does not compile. */
  ghost predicate ConjunctBlamed(error: CheckerError, l: Enumerated, ix: IndexMap) {
    if Target(l).Some? then
      || (error == Panic && !TargetIndexed(l, ix))
      || (TargetIndexed(l, ix) && Atom(l).EEq? && Blames(error, Atom(l).rhs, ix))
    else Blames(error, l, ix)
  }

  /** The literals a formula consists of, if it is a cube. */
  function CubeOf(f: Formula): set<Guard> {
    if AllLits(FGetAnd(f)) then (set x | x in FGetAnd(f) && x.FLit? :: x.guard) else {}
  }

  function Flipped(g: Guard): Guard {
    Guard(g.index, !g.value)
  }

  /** The guards of a conjunct over one state: its literals; of a negation, the flipped literal when it
      negates exactly one. */
  ghost function ConjunctGuards(l: Enumerated, ix: IndexMap): set<Guard>
    requires ConjunctCompiles(l, ix)
  {
    FormulaCompiles(Atom(l), ix);
    if Target(l).Some? then {}
    else
      var f := EnumeratedToFormula(Atom(l), ix).value;
      if !l.ENot? then CubeOf(f)
      else if |FGetAnd(f)| == 1 && FGetAnd(f)[0].FLit? then {Flipped(FGetAnd(f)[0].guard)}
      else {}
  }

  /** The update of a conjunct about a bit of the next state. */
  ghost function ConjunctUpdates(l: Enumerated, ix: IndexMap): set<Update>
    requires ConjunctCompiles(l, ix)
  {
    if Target(l).None? then {}
    else
      FormulaCompiles(if Atom(l).EEq? then Atom(l).rhs else Atom(l), ix);
      var f := if Atom(l).EEq? then EnumeratedToFormula(Atom(l).rhs, ix).value else AlwaysTrue;
      {Update(ix.Get(Target(l).value.name, 0, Target(l).value.args).value, if l.ENot? then FMkNot(f) else f)}
  }

  /** Two conjuncts ask for different values of a bit before the step, or for different updates of one. */
  ghost predicate Clash(l: Enumerated, m: Enumerated, ix: IndexMap) {
    && ConjunctCompiles(l, ix) && ConjunctCompiles(m, ix)
    && (|| (exists g, h :: g in ConjunctGuards(l, ix) && h in ConjunctGuards(m, ix) && g != h && g.index == h.index)
        || (exists u, v :: u in ConjunctUpdates(l, ix) && v in ConjunctUpdates(m, ix) && u != v && u.index == v.index))
  }

  ghost predicate SomeClash(e: Enumerated, ix: IndexMap) {
    e.EAnd? && exists l, m :: IsConjunct(l, e) && IsConjunct(m, e) && Clash(l, m, ix)
  }

  /** The shape of what compiles. */
  ghost predicate Compilable(e: Enumerated, ix: IndexMap) {
    (forall l | IsConjunct(l, e) :: ConjunctCompiles(l, ix)) && !SomeClash(e, ix)
  }

  /** A conjunct that does not compile, or conjuncts that clash. */
  ghost predicate CompileBlamed(error: CheckerError, e: Enumerated, ix: IndexMap) {
    || (exists l :: IsConjunct(l, e) && ConjunctBlamed(error, l, ix))
    || (error == Panic && SomeClash(e, ix))
  }

  // The compilation does what the shape says.

  /** The result of a conjunct on its own. */
  ghost predicate ConjunctResult(l: Enumerated, ix: IndexMap, r: Outcome<Transition>) {
    match r
    case Success(t) =>
      && ConjunctCompiles(l, ix)
      && (forall g :: g in t.guards <==> g in ConjunctGuards(l, ix)) && (forall u :: u in t.updates <==> u in ConjunctUpdates(l, ix))
    case Failure(error) => !ConjunctCompiles(l, ix) && ConjunctBlamed(error, l, ix)
  }

  lemma CubeGuards(f: Formula)
    requires AllLits(FGetAnd(f))
    ensures forall g :: g in GuardsOf(FGetAnd(f)) <==> g in CubeOf(f)
  {
    var terms := FGetAnd(f);
    var guards := GuardsOf(terms);
    forall g ensures g in guards <==> g in CubeOf(f) {
      if g in guards {
        var i :| 0 <= i < |guards| && guards[i] == g;
        assert terms[i] in terms;
      }
      if g in CubeOf(f) {
        var x :| x in terms && x.FLit? && x.guard == g;
        var i :| 0 <= i < |terms| && terms[i] == x;
        assert guards[i] == g;
      }
    }
  }

  lemma StateResult(l: Enumerated, ix: IndexMap)
    requires Target(l).None? && !l.ENot?
    ensures ConjunctResult(l, ix, OverOneState(l, ix))
  {
    FormulaCompiles(l, ix);
    hide OneState, Blames, GuardsOf, EnumeratedToFormula;
    if EnumeratedToFormula(l, ix).Success? {
      var f := EnumeratedToFormula(l, ix).value;
      if AllLits(FGetAnd(f)) { CubeGuards(f); }
    }
  }

  lemma TargetResult(l: Enumerated, ix: IndexMap)
    requires Target(l).Some? && !l.ENot?
    ensures ConjunctResult(l, ix, EnumeratedToTransition(l, ix))
  {
    if l.EEq? { FormulaCompiles(l.rhs, ix); }
    hide OneState, Blames;
  }

  lemma PositiveResult(l: Enumerated, ix: IndexMap)
    requires !l.EAnd? && !l.ENot?
    ensures ConjunctResult(l, ix, EnumeratedToTransition(l, ix))
  {
    hide ConjunctResult, OverOneState;
    if Target(l).Some? { TargetResult(l, ix); } else { StateResult(l, ix); }
  }

  /** Negating the transition of an update negates its formula. */
  lemma NegatedUpdate(l: Enumerated, ix: IndexMap)
    requires l.ENot? && Target(l).Some?
    ensures ConjunctResult(l, ix, EnumeratedToTransition(l, ix))
  {
    var x := l.term;
    TargetResult(x, ix);
    if x.EEq? { FormulaCompiles(x.rhs, ix); }
    hide OneState, Blames, ConjunctResult;
    if EnumeratedToTransition(x, ix).Success? {
      var t := EnumeratedToTransition(x, ix).value;
      var f := if x.EEq? then EnumeratedToFormula(x.rhs, ix).value else AlwaysTrue;
      assert t == Transition([], [Update(ix.Get(Target(x).value.name, 0, Target(x).value.args).value, f)], AlwaysTrue);
      assert EnumeratedToTransition(l, ix) == Success(t.(updates := [Update(t.updates[0].index, FMkNot(f))]));
    }
    NegatedUpdateResult(l, ix);
  }

  lemma NegatedUpdateResult(l: Enumerated, ix: IndexMap)
    requires l.ENot? && Target(l).Some?
    requires ConjunctResult(l.term, ix, EnumeratedToTransition(l.term, ix))
    requires EnumeratedToTransition(l, ix).Success? <==> EnumeratedToTransition(l.term, ix).Success?
    requires EnumeratedToTransition(l, ix).Failure? ==> EnumeratedToTransition(l, ix) == EnumeratedToTransition(l.term, ix)
    requires EnumeratedToTransition(l, ix).Success? ==>
      var f := if l.term.EEq? then EnumeratedToFormula(l.term.rhs, ix) else Success(AlwaysTrue);
      f.Success? && ix.Get(Target(l).value.name, 0, Target(l).value.args).Some?
      && EnumeratedToTransition(l, ix).value
         == Transition([], [Update(ix.Get(Target(l).value.name, 0, Target(l).value.args).value, FMkNot(f.value))], AlwaysTrue)
    ensures ConjunctResult(l, ix, EnumeratedToTransition(l, ix))
  {
    hide OneState, Blames, EnumeratedToTransition, EnumeratedToFormula, FMkNot;
  }

  /** Negating a single literal flips it; everything else becomes a slow guard. */
  lemma NegatedState(l: Enumerated, ix: IndexMap)
    requires l.ENot? && (l.term.EApp? || l.term.EEq?) && Target(l).None?
    ensures ConjunctResult(l, ix, EnumeratedToTransition(l, ix))
  {
    var x := l.term;
    assert EnumeratedToTransition(x, ix) == OverOneState(x, ix);
    FormulaCompiles(x, ix);
    assert OneState(l, ix) == OneState(x, ix);
    if EnumeratedToFormula(x, ix).Failure? {
      BlamesWithin(EnumeratedToFormula(x, ix).error, x, l, ix);
    } else {
      var f := EnumeratedToFormula(x, ix).value;
      var t := StateTransition(f);
      assert EnumeratedToFormula(l, ix) == Success(FMkNot(f));
      assert EnumeratedToTransition(l, ix) == NegateTransition(l, t, ix);
      NegatedGuards(l, f, ix);
      hide OneState, Blames, EnumeratedToTransition, EnumeratedToFormula, FMkNot, StateTransition, NegateTransition;
      var flipped := NegateTransition(l, t, ix).value;
      assert ConjunctUpdates(l, ix) == {};
    }
  }

  lemma NegatedGuards(l: Enumerated, f: Formula, ix: IndexMap)
    requires EnumeratedToFormula(l, ix) == Success(FMkNot(f))
    ensures NegateTransition(l, StateTransition(f), ix).Success?
    ensures var t, terms := NegateTransition(l, StateTransition(f), ix).value, FGetAnd(f);
            t.updates == [] && forall g :: g in t.guards <==> |terms| == 1 && terms[0].FLit? && g == Flipped(terms[0].guard)
  {
    hide EnumeratedToFormula, FMkNot;
    var terms := FGetAnd(f);
    if AllLits(terms) {
      if |terms| == 1 { assert terms[0] in terms; }
    }
  }

  lemma ConjunctCompilation(l: Enumerated, ix: IndexMap)
    requires !l.EAnd? && (l.ENot? ==> l.term.EApp? || l.term.EEq?)
    ensures ConjunctResult(l, ix, EnumeratedToTransition(l, ix))
  {
    hide ConjunctResult, EnumeratedToTransition;
    if l.ENot? {
      if Target(l).Some? { NegatedUpdate(l, ix); } else { NegatedState(l, ix); }
    } else {
      PositiveResult(l, ix);
    }
  }

  // Conjunctions.

  ghost predicate SomeGuard(e: Enumerated, ix: IndexMap, g: Guard) {
    exists l :: IsConjunct(l, e) && ConjunctCompiles(l, ix) && g in ConjunctGuards(l, ix)
  }

  ghost predicate SomeUpdate(e: Enumerated, ix: IndexMap, u: Update) {
    exists l :: IsConjunct(l, e) && ConjunctCompiles(l, ix) && u in ConjunctUpdates(l, ix)
  }

  /** What the compilation of a formula gives: the guards and updates of its conjuncts, or an error with
      something to blame. */
  ghost predicate Compilation(e: Enumerated, ix: IndexMap, r: Outcome<Transition>) {
    match r
    case Success(t) =>
      && Compilable(e, ix)
      && (forall g :: g in t.guards <==> SomeGuard(e, ix, g)) && (forall u :: u in t.updates <==> SomeUpdate(e, ix, u))
    case Failure(error) => !Compilable(e, ix) && CompileBlamed(error, e, ix)
  }

  lemma OnlyConjunct(e: Enumerated, ix: IndexMap, r: Outcome<Transition>)
    requires !e.EAnd? && ConjunctResult(e, ix, r)
    ensures Compilation(e, ix, r)
  {
    hide ConjunctCompiles, ConjunctGuards, ConjunctUpdates, ConjunctBlamed, Clash;
    assert IsConjunct(e, e);
  }

  /** What the compilation of each part gives. */
  ghost predicate AllCompiled(xs: seq<Enumerated>, ix: IndexMap, ts: seq<Transition>) {
    |ts| == |xs| && forall i | 0 <= i < |xs| :: Compilation(xs[i], ix, Success(ts[i]))
  }

  lemma ConjunctionResult(xs: seq<Enumerated>, ix: IndexMap, ts: seq<Transition>)
    requires AllCompiled(xs, ix, ts)
    ensures Compilation(EAnd(xs), ix, FromConjunction(ts))
  {
    var e, guards, updates := EAnd(xs), Dedup(Sorted(GuardLeq, AllGuards(ts))), Dedup(Sorted(UpdateLeq, AllUpdates(ts)));
    PartsOf(xs, ix, ts);
    SortDedupMembers(GuardLeq, AllGuards(ts));
    SortDedupMembers(UpdateLeq, AllUpdates(ts));
    hide Compilable, SomeGuard, SomeUpdate, ConjunctCompiles, AllGuards, AllUpdates, JoinSlow;
    AllConjunctsCompile(xs, ix, ts);
    ConflictsClash(e, ix, guards, updates);
    CompilableWithout(e, ix);
  }

  lemma CompilableWithout(e: Enumerated, ix: IndexMap)
    ensures Compilable(e, ix) <==> (forall l | IsConjunct(l, e) :: ConjunctCompiles(l, ix)) && !SomeClash(e, ix)
  {
    hide IsConjunct, ConjunctCompiles, SomeClash;
  }

  lemma AllConjunctsCompile(xs: seq<Enumerated>, ix: IndexMap, ts: seq<Transition>)
    requires AllCompiled(xs, ix, ts)
    ensures forall l | IsConjunct(l, EAnd(xs)) :: ConjunctCompiles(l, ix)
  {
    hide ConjunctCompiles, SomeGuard, SomeUpdate, SomeClash;
    forall l | IsConjunct(l, EAnd(xs)) ensures ConjunctCompiles(l, ix) {
      var x :| x in xs && IsConjunct(l, x);
      var i :| 0 <= i < |xs| && xs[i] == x;
      assert Compilation(xs[i], ix, Success(ts[i]));
    }
  }

  lemma PartsOf(xs: seq<Enumerated>, ix: IndexMap, ts: seq<Transition>)
    requires AllCompiled(xs, ix, ts)
    ensures forall g :: g in AllGuards(ts) <==> SomeGuard(EAnd(xs), ix, g)
    ensures forall u :: u in AllUpdates(ts) <==> SomeUpdate(EAnd(xs), ix, u)
  {
    hide SomeGuard, SomeUpdate, Compilation;
    var guards, updates := seq(|ts|, i requires 0 <= i < |ts| => ts[i].guards), seq(|ts|, i requires 0 <= i < |ts| => ts[i].updates);
    assert AllGuards(ts) == Flatten(guards) && AllUpdates(ts) == Flatten(updates);
    forall g ensures g in AllGuards(ts) <==> SomeGuard(EAnd(xs), ix, g) {
      FlattenMembers(guards, g);
      GuardInPart(xs, ix, ts, g);
      if i :| 0 <= i < |ts| && g in ts[i].guards { assert g in guards[i]; }
    }
    forall u ensures u in AllUpdates(ts) <==> SomeUpdate(EAnd(xs), ix, u) {
      FlattenMembers(updates, u);
      UpdateInPart(xs, ix, ts, u);
      if i :| 0 <= i < |ts| && u in ts[i].updates { assert u in updates[i]; }
    }
  }

  lemma GuardInPart(xs: seq<Enumerated>, ix: IndexMap, ts: seq<Transition>, g: Guard)
    requires AllCompiled(xs, ix, ts)
    ensures SomeGuard(EAnd(xs), ix, g) <==> exists i :: 0 <= i < |ts| && g in ts[i].guards
  {
    hide ConjunctCompiles, ConjunctGuards, ConjunctUpdates, Compilable, SomeUpdate;
    if l :| IsConjunct(l, EAnd(xs)) && ConjunctCompiles(l, ix) && g in ConjunctGuards(l, ix) {
      var x :| x in xs && IsConjunct(l, x);
      var i :| 0 <= i < |xs| && xs[i] == x;
      assert Compilation(xs[i], ix, Success(ts[i])) && SomeGuard(xs[i], ix, g);
    }
    if i :| 0 <= i < |ts| && g in ts[i].guards {
      assert Compilation(xs[i], ix, Success(ts[i]));
      var l :| IsConjunct(l, xs[i]) && ConjunctCompiles(l, ix) && g in ConjunctGuards(l, ix);
      assert xs[i] in xs && IsConjunct(l, EAnd(xs));
    }
  }

  lemma UpdateInPart(xs: seq<Enumerated>, ix: IndexMap, ts: seq<Transition>, u: Update)
    requires AllCompiled(xs, ix, ts)
    ensures SomeUpdate(EAnd(xs), ix, u) <==> exists i :: 0 <= i < |ts| && u in ts[i].updates
  {
    hide ConjunctCompiles, ConjunctGuards, ConjunctUpdates, Compilable, SomeGuard;
    if l :| IsConjunct(l, EAnd(xs)) && ConjunctCompiles(l, ix) && u in ConjunctUpdates(l, ix) {
      var x :| x in xs && IsConjunct(l, x);
      var i :| 0 <= i < |xs| && xs[i] == x;
      assert Compilation(xs[i], ix, Success(ts[i])) && SomeUpdate(xs[i], ix, u);
    }
    if i :| 0 <= i < |ts| && u in ts[i].updates {
      assert Compilation(xs[i], ix, Success(ts[i]));
      var l :| IsConjunct(l, xs[i]) && ConjunctCompiles(l, ix) && u in ConjunctUpdates(l, ix);
      assert xs[i] in xs && IsConjunct(l, EAnd(xs));
    }
  }

  /** The checks for conflicts find exactly the clashes of conjuncts. */
  lemma ConflictsClash(e: Enumerated, ix: IndexMap, guards: seq<Guard>, updates: seq<Update>)
    requires e.EAnd? && (forall g :: g in guards <==> SomeGuard(e, ix, g)) && (forall u :: u in updates <==> SomeUpdate(e, ix, u))
    ensures GuardConflict(guards) || UpdateConflict(updates) <==> SomeClash(e, ix)
  {
    hide IsConjunct, ConjunctCompiles, ConjunctGuards, ConjunctUpdates;
    if g, h :| g in guards && h in guards && g != h && g.index == h.index {
      var l :| IsConjunct(l, e) && ConjunctCompiles(l, ix) && g in ConjunctGuards(l, ix);
      var m :| IsConjunct(m, e) && ConjunctCompiles(m, ix) && h in ConjunctGuards(m, ix);
      assert Clash(l, m, ix);
    }
    if u, v :| u in updates && v in updates && u != v && u.index == v.index {
      var l :| IsConjunct(l, e) && ConjunctCompiles(l, ix) && u in ConjunctUpdates(l, ix);
      var m :| IsConjunct(m, e) && ConjunctCompiles(m, ix) && v in ConjunctUpdates(m, ix);
      assert Clash(l, m, ix);
    }
    if l, m :| IsConjunct(l, e) && IsConjunct(m, e) && Clash(l, m, ix) {
      if g, h :| g in ConjunctGuards(l, ix) && h in ConjunctGuards(m, ix) && g != h && g.index == h.index {
        assert SomeGuard(e, ix, g) && SomeGuard(e, ix, h);
      } else {
        var u, v :| u in ConjunctUpdates(l, ix) && v in ConjunctUpdates(m, ix) && u != v && u.index == v.index;
        assert SomeUpdate(e, ix, u) && SomeUpdate(e, ix, v);
      }
    }
  }

  /** A conjunction with a part that does not compile. */
  lemma PartBlamed(error: CheckerError, x: Enumerated, xs: seq<Enumerated>, ix: IndexMap)
    requires x in xs && !Compilable(x, ix) && CompileBlamed(error, x, ix)
    ensures !Compilable(EAnd(xs), ix) && CompileBlamed(error, EAnd(xs), ix)
  {
    hide ConjunctCompiles, ConjunctBlamed, Clash;
    assert forall l | IsConjunct(l, x) :: IsConjunct(l, EAnd(xs));
  }

  /** A formula compiles exactly when it has the shape; the guards and updates are those of its conjuncts, and an
      error has something to blame. */
  lemma {:induction false} CompilesExactly(e: Enumerated, ix: IndexMap)
    requires NegatesAtoms(e)
    ensures Compilation(e, ix, EnumeratedToTransition(e, ix))
    decreases e, 1
  {
    if e.EAnd? {
      var xs := e.terms;
      PartsCompile(xs, ix);
      hide Compilation, NegatesAtoms, FromConjunction;
      if TransitionsOf(xs, ix).Success? {
        ConjunctionResult(xs, ix, TransitionsOf(xs, ix).value);
      } else {
        var error := TransitionsOf(xs, ix).error;
        var x :| x in xs && !Compilable(x, ix) && CompileBlamed(error, x, ix);
        PartBlamed(error, x, xs, ix);
        FoldFailure(e, ix, error);
      }
    } else {
      ConjunctCompilation(e, ix);
      OnlyConjunct(e, ix, EnumeratedToTransition(e, ix));
    }
  }

  lemma FoldFailure(e: Enumerated, ix: IndexMap, error: CheckerError)
    requires !Compilable(e, ix) && CompileBlamed(error, e, ix)
    ensures Compilation(e, ix, Failure(error))
  {
    hide Compilable, CompileBlamed;
  }

  lemma UnfoldCompilation(e: Enumerated, ix: IndexMap, r: Outcome<Transition>)
    requires Compilation(e, ix, r)
    ensures r.Success? <==> Compilable(e, ix)
    ensures r.Failure? ==> CompileBlamed(r.error, e, ix)
  {
    hide Compilable, CompileBlamed, SomeGuard, SomeUpdate;
  }

  lemma {:induction false} PartsCompile(es: seq<Enumerated>, ix: IndexMap)
    requires forall x | x in es :: NegatesAtoms(x)
    ensures TransitionsOf(es, ix).Success? <==> forall x | x in es :: Compilable(x, ix)
    ensures TransitionsOf(es, ix).Success? ==> AllCompiled(es, ix, TransitionsOf(es, ix).value)
    ensures TransitionsOf(es, ix).Failure? ==> exists x | x in es :: !Compilable(x, ix) && CompileBlamed(TransitionsOf(es, ix).error, x, ix)
    decreases es, 0
  {
    hide Compilation, NegatesAtoms, EnumeratedToTransition, Compilable, CompileBlamed;
    if es != [] {
      CompilesExactly(es[0], ix);
      UnfoldCompilation(es[0], ix, EnumeratedToTransition(es[0], ix));
      PartsCompile(es[1..], ix);
      assert es == [es[0]] + es[1..];
      if TransitionsOf(es, ix).Success? {
        var ts := TransitionsOf(es, ix).value;
        assert ts == [EnumeratedToTransition(es[0], ix).value] + TransitionsOf(es[1..], ix).value;
        forall i | 0 <= i < |es| ensures Compilation(es[i], ix, Success(ts[i])) {
          if i > 0 { assert Compilation(es[1..][i - 1], ix, Success(ts[1..][i - 1])); }
        }
      }
    }
  }

  // Formulas whose applications all have an index: only primes and clashes are left to blame.

  ghost predicate Indexed(e: Enumerated, ix: IndexMap) {
    forall a | Inside(a, e) && a.EApp? :: ix.Get(a.name, 0, a.args).Some?
  }

  ghost predicate Primed(e: Enumerated) {
    exists a :: Inside(a, e) && a.EApp? && a.primes > 0
  }

  lemma IndexedWithin(x: Enumerated, e: Enumerated, ix: IndexMap)
    requires Indexed(e, ix) && forall a | Inside(a, x) :: Inside(a, e)
    ensures Indexed(x, ix) && (Primed(x) ==> Primed(e))
  {
    hide Inside;
  }

  lemma {:induction false} KnownIndexed(e: Enumerated, ix: IndexMap, relations: seq<RelationDecl>, universe: Universe)
    requires ProperNames(relations) && Exact(ix, relations, universe) && 1 <= ix.copies && Known(e, relations, universe)
    ensures Indexed(e, ix)
    decreases e
  {
    hide Exact;
    match e
    case EAnd(xs) => forall x | x in xs { KnownIndexed(x, ix, relations, universe); }
    case EOr(xs) => forall x | x in xs { KnownIndexed(x, ix, relations, universe); }
    case ENot(x) => KnownIndexed(x, ix, relations, universe);
    case EEq(x, y) => KnownIndexed(x, ix, relations, universe); KnownIndexed(y, ix, relations, universe);
    case EApp(name, _, args) => IndexedKeys(ix, relations, universe, name, args);
  }

  /** An indexed formula is one over one state exactly when nothing is primed. */
  lemma {:induction false} OneStateUnprimed(e: Enumerated, ix: IndexMap)
    requires Indexed(e, ix)
    ensures OneState(e, ix) <==> !Primed(e)
    decreases e
  {
    match e
    case EAnd(xs) =>
      forall x | x in xs ensures OneState(x, ix) <==> !Primed(x) { IndexedWithin(x, e, ix); OneStateUnprimed(x, ix); }
      PrimedPart(e, xs);
    case EOr(xs) =>
      forall x | x in xs ensures OneState(x, ix) <==> !Primed(x) { IndexedWithin(x, e, ix); OneStateUnprimed(x, ix); }
      PrimedPart(e, xs);
    case ENot(x) => IndexedWithin(x, e, ix); OneStateUnprimed(x, ix); PrimedPart(e, [x]);
    case EEq(x, y) =>
      IndexedWithin(x, e, ix);
      IndexedWithin(y, e, ix);
      OneStateUnprimed(x, ix);
      OneStateUnprimed(y, ix);
      PrimedPart(e, [x, y]);
    case EApp(_, _, _) => assert Inside(e, e);
  }

  lemma PrimedPart(e: Enumerated, parts: seq<Enumerated>)
    requires !e.EApp?
    requires match e case EAnd(xs) => parts == xs case EOr(xs) => parts == xs case ENot(x) => parts == [x] case EEq(x, y) => parts == [x, y]
    ensures Primed(e) <==> exists x :: x in parts && Primed(x)
  {
    if a :| Inside(a, e) && a.EApp? && a.primes > 0 {
      match e {
        case EAnd(xs) => var x :| x in xs && Inside(a, x); assert Primed(x);
        case EOr(xs) => var x :| x in xs && Inside(a, x); assert Primed(x);
        case ENot(x) => assert x in parts && Primed(x);
        case EEq(x, y) => assert x in parts && y in parts && (Primed(x) || Primed(y));
        case EApp(_, _, _) =>
      }
    }
    if x :| x in parts && Primed(x) {
      var a :| Inside(a, x) && a.EApp? && a.primes > 0;
      assert Inside(a, e);
    }
  }

  /** A prime beside the bit that a conjunct sets. */
  ghost predicate Misprimed(l: Enumerated) {
    if Target(l).Some? then Atom(l).EEq? && Primed(Atom(l).rhs) else Primed(l)
  }

  lemma {:induction false} ConjunctInside(l: Enumerated, e: Enumerated, a: Enumerated)
    requires IsConjunct(l, e) && Inside(a, l)
    ensures Inside(a, e)
    decreases e
  {
    if e.EAnd? {
      var x :| x in e.terms && IsConjunct(l, x);
      ConjunctInside(l, x, a);
    }
  }

  lemma TargetInside(l: Enumerated)
    requires Target(l).Some?
    ensures Inside(Target(l).value, l)
    ensures Atom(l).EEq? ==> forall a | Inside(a, Atom(l).rhs) :: Inside(a, l)
  {
  }

  lemma ConjunctUnprimed(l: Enumerated, ix: IndexMap)
    requires Indexed(l, ix)
    ensures ConjunctCompiles(l, ix) <==> !Misprimed(l)
    ensures forall error | ConjunctBlamed(error, l, ix) :: error == PrimeInFormula && Misprimed(l)
  {
    hide OneState, Primed;
    if Target(l).Some? {
      TargetInside(l);
      if Atom(l).EEq? {
        IndexedWithin(Atom(l).rhs, l, ix);
        OneStateUnprimed(Atom(l).rhs, ix);
        forall error | Blames(error, Atom(l).rhs, ix) ensures error == PrimeInFormula && Primed(Atom(l).rhs) { OnlyPrimes(error, Atom(l).rhs, ix); }
      }
    } else {
      OneStateUnprimed(l, ix);
      forall error | Blames(error, l, ix) ensures error == PrimeInFormula && Primed(l) { OnlyPrimes(error, l, ix); }
    }
  }

  lemma OnlyPrimes(error: CheckerError, e: Enumerated, ix: IndexMap)
    requires Indexed(e, ix) && Blames(error, e, ix)
    ensures error == PrimeInFormula && Primed(e)
  {
    hide Inside;
  }

  /** What is not supported in a disjunct of the transition formula. */
  ghost predicate Unsupported(error: CheckerError, d: Enumerated, ix: IndexMap) {
    || (error == PrimeInFormula && exists l :: IsConjunct(l, d) && Misprimed(l))
    || (error == Panic && SomeClash(d, ix))
  }

  lemma IndexedShape(d: Enumerated, ix: IndexMap)
    requires Indexed(d, ix)
    ensures Compilable(d, ix) <==> forall error :: !Unsupported(error, d, ix)
    ensures forall error | CompileBlamed(error, d, ix) :: Unsupported(error, d, ix)
  {
    hide ConjunctCompiles, ConjunctBlamed, Misprimed, SomeClash, Inside;
    forall l | IsConjunct(l, d)
      ensures ConjunctCompiles(l, ix) <==> !Misprimed(l)
      ensures forall error | ConjunctBlamed(error, l, ix) :: error == PrimeInFormula && Misprimed(l)
    {
      forall a | Inside(a, l) ensures Inside(a, d) { ConjunctInside(l, d, a); }
      IndexedWithin(l, d, ix);
      ConjunctUnprimed(l, ix);
    }
    if Compilable(d, ix) {
      assert forall error :: !Unsupported(error, d, ix);
    } else {
      assert Unsupported(PrimeInFormula, d, ix) || Unsupported(Panic, d, ix);
    }
  }

  lemma DisjunctIndexed(e: Enumerated, d: Enumerated, ix: IndexMap)
    requires Indexed(e, ix) && NegatesAtoms(e) && d in GetOr(e)
    ensures Indexed(d, ix) && NegatesAtoms(d)
  {
    IndexedWithin(d, e, ix);
  }

  ghost predicate StepsUnsupported(error: CheckerError, e: Enumerated, ix: IndexMap) {
    exists d :: d in GetOr(e) && Unsupported(error, d, ix)
  }

  /** A transition formula compiles exactly when no disjunct has a prime beside the bits it sets, or conjuncts that
      clash; the error says which of the two. */
  lemma DisjunctsCompile(e: Enumerated, ix: IndexMap)
    requires Indexed(e, ix) && NegatesAtoms(e)
    ensures TransitionsOf(GetOr(e), ix).Success? <==> forall error :: !StepsUnsupported(error, e, ix)
    ensures TransitionsOf(GetOr(e), ix).Failure? ==> StepsUnsupported(TransitionsOf(GetOr(e), ix).error, e, ix)
  {
    hide Compilable, CompileBlamed, Unsupported, Indexed, NegatesAtoms, TransitionsOf, GetOr;
    forall d | d in GetOr(e)
      ensures NegatesAtoms(d) && (Compilable(d, ix) <==> forall error :: !Unsupported(error, d, ix))
      ensures forall error | CompileBlamed(error, d, ix) :: Unsupported(error, d, ix)
    {
      DisjunctIndexed(e, d, ix);
      IndexedShape(d, ix);
    }
    PartsCompile(GetOr(e), ix);
    if d :| d in GetOr(e) && !Compilable(d, ix) {
      var error :| Unsupported(error, d, ix);
      assert StepsUnsupported(error, e, ix);
    }
  }
}
