/** Compiling a ground two-state formula to guarded updates of bit vectors. */
module Guarded {
  import opened Collections
  import opened Syntax
  import opened Semantics
  import opened QuantEnum
  import opened Indexing

  /** One bit for each application of a relation. */
  type State = seq<bool>

  datatype Guard = Guard(index: nat, value: bool)

  datatype Formula = FAnd(terms: seq<Formula>) | FOr(terms: seq<Formula>) | FLit(guard: Guard)

  datatype Update = Update(index: nat, formula: Formula)

  /** A partial function on states: when all guards hold it assigns every update at once. */
  datatype Transition = Transition(guards: seq<Guard>, updates: seq<Update>, slowGuard: Formula)

  datatype CheckerError = PrimeInFormula | UnprovenMutableAxiom | MultipleTrs | Enumeration(e: EnumerationError) | Panic

  datatype Outcome<+T> = Success(value: T) | Failure(error: CheckerError)

  const AlwaysTrue := FAnd([])
  const AlwaysFalse := FOr([])

  predicate Bit(s: State, i: nat) {
    i < |s| && s[i]
  }

  predicate GuardHolds(g: Guard, s: State) {
    Bit(s, g.index) == g.value
  }

  predicate Evaluate(f: Formula, s: State) {
    match f
    case FAnd(terms) => forall x | x in terms :: Evaluate(x, s)
    case FOr(terms) => exists x | x in terms :: Evaluate(x, s)
    case FLit(g) => GuardHolds(g, s)
  }

  // The structural order on formulas, guards and updates.

  predicate GuardLeq(a: Guard, b: Guard) {
    a.index < b.index || (a.index == b.index && (a.value ==> b.value))
  }

  function FRank(f: Formula): nat {
    match f case FAnd(_) => 0 case FOr(_) => 1 case FLit(_) => 2
  }

  predicate FLeq(a: Formula, b: Formula)
    decreases a, 1
  {
    if FRank(a) != FRank(b) then FRank(a) < FRank(b)
    else
      match a
      case FAnd(xs) => FLeqAll(xs, b.terms)
      case FOr(xs) => FLeqAll(xs, b.terms)
      case FLit(g) => GuardLeq(g, b.guard)
  }

  predicate FLeqAll(a: seq<Formula>, b: seq<Formula>)
    decreases a, 0
  {
    a == [] || (b != [] && (if a[0] == b[0] then FLeqAll(a[1..], b[1..]) else FLeq(a[0], b[0])))
  }

  predicate UpdateLeq(a: Update, b: Update) {
    a.index < b.index || (a.index == b.index && FLeq(a.formula, b.formula))
  }

  // Simplifying constructors.

  function FGetAnd(f: Formula): seq<Formula> {
    if f.FAnd? then f.terms else [f]
  }

  function FGetOr(f: Formula): seq<Formula> {
    if f.FOr? then f.terms else [f]
  }

  function FGetAnds(fs: seq<Formula>): seq<seq<Formula>> {
    seq(|fs|, i requires 0 <= i < |fs| => FGetAnd(fs[i]))
  }

  function FGetOrs(fs: seq<Formula>): seq<seq<Formula>> {
    seq(|fs|, i requires 0 <= i < |fs| => FGetOr(fs[i]))
  }

  function FMkAnd(fs: seq<Formula>): Formula {
    var ts := Dedup(Sorted(FLeq, Flatten(FGetAnds(fs))));
    if AlwaysFalse in ts then AlwaysFalse else if |ts| == 1 then ts[0] else FAnd(ts)
  }

  function FMkOr(fs: seq<Formula>): Formula {
    var ts := Dedup(Sorted(FLeq, Flatten(FGetOrs(fs))));
    if AlwaysTrue in ts then AlwaysTrue else if |ts| == 1 then ts[0] else FOr(ts)
  }

  function FMkNot(f: Formula): Formula {
    match f
    case FAnd(terms) => FMkOr(seq(|terms|, i requires 0 <= i < |terms| => FMkNot(terms[i])))
    case FOr(terms) => FMkAnd(seq(|terms|, i requires 0 <= i < |terms| => FMkNot(terms[i])))
    case FLit(g) => FLit(Guard(g.index, !g.value))
  }

  function FMkIff(a: Formula, b: Formula): Formula {
    FMkOr([FMkAnd([a, b]), FMkAnd([FMkNot(a), FMkNot(b)])])
  }

  predicate AllEvaluate(fs: seq<Formula>, s: State) {
    forall x | x in fs :: Evaluate(x, s)
  }

  predicate NoneEvaluates(fs: seq<Formula>, s: State) {
    forall x | x in fs :: !Evaluate(x, s)
  }

  lemma FAndHolds(fs: seq<Formula>, s: State)
    ensures Evaluate(FAnd(fs), s) <==> AllEvaluate(fs, s)
  {
  }

  lemma FOrHolds(fs: seq<Formula>, s: State)
    ensures Evaluate(FOr(fs), s) <==> !NoneEvaluates(fs, s)
  {
  }

  lemma FFlattenAnd(fs: seq<Formula>, s: State)
    ensures AllEvaluate(Flatten(FGetAnds(fs)), s) <==> AllEvaluate(fs, s)
  {
    hide Evaluate;
    var parts := FGetAnds(fs);
    forall i | 0 <= i < |fs| ensures Evaluate(fs[i], s) <==> AllEvaluate(parts[i], s) {
      if fs[i].FAnd? { FAndHolds(fs[i].terms, s); }
    }
    if AllEvaluate(Flatten(parts), s) {
      forall x | x in fs ensures Evaluate(x, s) {
        var i :| 0 <= i < |fs| && x == fs[i];
        forall y | y in parts[i] ensures Evaluate(y, s) { FlattenMembers(parts, y); }
      }
    }
    if AllEvaluate(fs, s) {
      forall y | y in Flatten(parts) ensures Evaluate(y, s) {
        FlattenMembers(parts, y);
        var i :| 0 <= i < |parts| && y in parts[i];
        assert fs[i] in fs;
      }
    }
  }

  lemma FMkAndHolds(fs: seq<Formula>, s: State)
    ensures Evaluate(FMkAnd(fs), s) <==> AllEvaluate(fs, s)
  {
    hide Evaluate;
    var flat := Flatten(FGetAnds(fs));
    var ts := Dedup(Sorted(FLeq, flat));
    SortDedupMembers(FLeq, flat);
    assert AllEvaluate(ts, s) <==> AllEvaluate(flat, s);
    FFlattenAnd(fs, s);
    if AlwaysFalse in ts { FOrHolds([], s); } else if |ts| != 1 { FAndHolds(ts, s); }
  }

  lemma FFlattenOr(fs: seq<Formula>, s: State)
    ensures NoneEvaluates(Flatten(FGetOrs(fs)), s) <==> NoneEvaluates(fs, s)
  {
    hide Evaluate;
    var parts := FGetOrs(fs);
    forall i | 0 <= i < |fs| ensures !Evaluate(fs[i], s) <==> NoneEvaluates(parts[i], s) {
      if fs[i].FOr? { FOrHolds(fs[i].terms, s); }
    }
    if NoneEvaluates(Flatten(parts), s) {
      forall x | x in fs ensures !Evaluate(x, s) {
        var i :| 0 <= i < |fs| && x == fs[i];
        forall y | y in parts[i] ensures !Evaluate(y, s) { FlattenMembers(parts, y); }
      }
    }
    if NoneEvaluates(fs, s) {
      forall y | y in Flatten(parts) ensures !Evaluate(y, s) {
        FlattenMembers(parts, y);
        var i :| 0 <= i < |parts| && y in parts[i];
        assert fs[i] in fs;
      }
    }
  }

  lemma FMkOrHolds(fs: seq<Formula>, s: State)
    ensures Evaluate(FMkOr(fs), s) <==> !NoneEvaluates(fs, s)
  {
    hide Evaluate;
    var flat := Flatten(FGetOrs(fs));
    var ts := Dedup(Sorted(FLeq, flat));
    SortDedupMembers(FLeq, flat);
    assert NoneEvaluates(ts, s) <==> NoneEvaluates(flat, s);
    FFlattenOr(fs, s);
    if AlwaysTrue in ts { FAndHolds([], s); } else if |ts| != 1 { FOrHolds(ts, s); }
  }

  lemma {:induction false} FMkNotHolds(f: Formula, s: State)
    ensures Evaluate(FMkNot(f), s) <==> !Evaluate(f, s)
    decreases f
  {
    match f
    case FLit(_) =>
    case FAnd(terms) =>
      var nots := seq(|terms|, i requires 0 <= i < |terms| => FMkNot(terms[i]));
      forall i | 0 <= i < |terms| ensures Evaluate(nots[i], s) <==> !Evaluate(terms[i], s) { FMkNotHolds(terms[i], s); }
      FNotsHold(terms, nots, s);
      FMkOrHolds(nots, s);
      FAndHolds(terms, s);
    case FOr(terms) =>
      var nots := seq(|terms|, i requires 0 <= i < |terms| => FMkNot(terms[i]));
      forall i | 0 <= i < |terms| ensures Evaluate(nots[i], s) <==> !Evaluate(terms[i], s) { FMkNotHolds(terms[i], s); }
      FNotsHold(terms, nots, s);
      FMkAndHolds(nots, s);
      FOrHolds(terms, s);
  }

  lemma FNotsHold(terms: seq<Formula>, nots: seq<Formula>, s: State)
    requires |terms| == |nots|
    requires forall i | 0 <= i < |terms| :: Evaluate(nots[i], s) <==> !Evaluate(terms[i], s)
    ensures NoneEvaluates(nots, s) <==> AllEvaluate(terms, s)
    ensures AllEvaluate(nots, s) <==> NoneEvaluates(terms, s)
  {
    hide Evaluate;
    assert forall i | 0 <= i < |terms| :: terms[i] in terms && nots[i] in nots;
  }

  lemma FMkIffHolds(a: Formula, b: Formula, s: State)
    ensures Evaluate(FMkIff(a, b), s) <==> (Evaluate(a, s) <==> Evaluate(b, s))
  {
    hide Evaluate, FMkAnd, FMkOr;
    var both, neither := FMkAnd([a, b]), FMkAnd([FMkNot(a), FMkNot(b)]);
    FMkNotHolds(a, s);
    FMkNotHolds(b, s);
    FMkAndHolds([a, b], s);
    FMkAndHolds([FMkNot(a), FMkNot(b)], s);
    FMkOrHolds([both, neither], s);
    assert both in [both, neither] && neither in [both, neither];
    assert a in [a, b] && b in [a, b];
    assert FMkNot(a) in [FMkNot(a), FMkNot(b)] && FMkNot(b) in [FMkNot(a), FMkNot(b)];
  }

  // States and traces.

  /** The interpretation a state stands for. */
  function InterpOf(ix: IndexMap, s: State): Interp {
    (name, es) =>
      match ix.Get(name, 0, es)
      case Some(i) => ToElement(Bit(s, i))
      case None => 0
  }

  /** The trace that starts in `s` and then stays in `s'`. */
  function PairTrace(ix: IndexMap, universe: Universe, s: State, s': State): Trace {
    Trace(universe, (k: nat) => InterpOf(ix, if k == 0 then s else s'))
  }

  // Compilation.

  /** A formula over one state. */
  function EnumeratedToFormula(e: Enumerated, ix: IndexMap): Outcome<Formula>
    decreases e, 1
  {
    match e
    case EAnd(xs) =>
      (match FormulasOf(xs, ix) case Failure(err) => Failure(err) case Success(fs) => Success(FMkAnd(fs)))
    case EOr(xs) =>
      (match FormulasOf(xs, ix) case Failure(err) => Failure(err) case Success(fs) => Success(FMkOr(fs)))
    case ENot(x) =>
      (match EnumeratedToFormula(x, ix) case Failure(err) => Failure(err) case Success(f) => Success(FMkNot(f)))
    case EEq(x, y) =>
      (match EnumeratedToFormula(x, ix)
       case Failure(err) => Failure(err)
       case Success(f) =>
         match EnumeratedToFormula(y, ix)
         case Failure(err) => Failure(err)
         case Success(g) => Success(FMkIff(f, g)))
    case EApp(name, p, args) =>
      if p != 0 then Failure(PrimeInFormula)
      else
        (match ix.Get(name, 0, args)
         case None => Failure(Panic)
         case Some(i) => Success(FLit(Guard(i, true))))
  }

  function FormulasOf(es: seq<Enumerated>, ix: IndexMap): Outcome<seq<Formula>>
    decreases es, 0
  {
    if es == [] then Success([])
    else
      match EnumeratedToFormula(es[0], ix)
      case Failure(err) => Failure(err)
      case Success(f) =>
        match FormulasOf(es[1..], ix)
        case Failure(err) => Failure(err)
        case Success(fs) => Success([f] + fs)
  }

  lemma {:induction false} FormulaSound(e: Enumerated, ix: IndexMap, f: Formula, s: State, tr: Trace)
    requires EnumeratedToFormula(e, ix) == Success(f)
    requires tr.at(0) == InterpOf(ix, s)
    ensures Evaluate(f, s) <==> EnumHolds(e, tr, 0)
    decreases e, 1
  {
    match e
    case EAnd(xs) =>
      var fs := FormulasOf(xs, ix).value;
      FormulasSound(xs, ix, fs, s, tr);
      FMkAndHolds(fs, s);
      AndHolds(xs, tr, 0);
    case EOr(xs) =>
      var fs := FormulasOf(xs, ix).value;
      FormulasSound(xs, ix, fs, s, tr);
      FMkOrHolds(fs, s);
      OrHolds(xs, tr, 0);
    case ENot(x) =>
      var g := EnumeratedToFormula(x, ix).value;
      FormulaSound(x, ix, g, s, tr);
      FMkNotHolds(g, s);
    case EEq(x, y) =>
      var g, h := EnumeratedToFormula(x, ix).value, EnumeratedToFormula(y, ix).value;
      FormulaSound(x, ix, g, s, tr);
      FormulaSound(y, ix, h, s, tr);
      FMkIffHolds(g, h, s);
    case EApp(_, _, _) =>
  }

  lemma {:induction false} FormulasSound(es: seq<Enumerated>, ix: IndexMap, fs: seq<Formula>, s: State, tr: Trace)
    requires FormulasOf(es, ix) == Success(fs)
    requires tr.at(0) == InterpOf(ix, s)
    ensures AllEvaluate(fs, s) <==> AllHold(es, tr, 0)
    ensures NoneEvaluates(fs, s) <==> NoneHolds(es, tr, 0)
    decreases es, 0
  {
    if es != [] {
      FormulaSound(es[0], ix, fs[0], s, tr);
      FormulasSound(es[1..], ix, fs[1..], s, tr);
      SplitHead(es, fs, s, tr);
    }
  }

  lemma SplitHead(es: seq<Enumerated>, fs: seq<Formula>, s: State, tr: Trace)
    requires es != [] && fs != []
    ensures AllHold(es, tr, 0) <==> EnumHolds(es[0], tr, 0) && AllHold(es[1..], tr, 0)
    ensures NoneHolds(es, tr, 0) <==> !EnumHolds(es[0], tr, 0) && NoneHolds(es[1..], tr, 0)
    ensures AllEvaluate(fs, s) <==> Evaluate(fs[0], s) && AllEvaluate(fs[1..], s)
    ensures NoneEvaluates(fs, s) <==> !Evaluate(fs[0], s) && NoneEvaluates(fs[1..], s)
  {
    hide EnumHolds, Evaluate;
    assert es == [es[0]] + es[1..] && fs == [fs[0]] + fs[1..];
  }

  // Transitions.

  predicate GuardsHold(guards: seq<Guard>, s: State) {
    forall g | g in guards :: GuardHolds(g, s)
  }

  predicate UpdatesHold(updates: seq<Update>, s: State, s': State) {
    forall u | u in updates :: Bit(s', u.index) == Evaluate(u.formula, s)
  }

  predicate Enabled(t: Transition, s: State) {
    GuardsHold(t.guards, s) && Evaluate(t.slowGuard, s)
  }

  /** The pairs of states the transition allows before the unmentioned bits are pinned down. */
  predicate Allows(t: Transition, s: State, s': State) {
    Enabled(t, s) && UpdatesHold(t.updates, s, s')
  }

  predicate GuardConflict(guards: seq<Guard>) {
    exists g, h | g in guards && h in guards :: g != h && g.index == h.index
  }

  predicate UpdateConflict(updates: seq<Update>) {
    exists u, v | u in updates && v in updates :: u != v && u.index == v.index
  }

  function AllGuards(ts: seq<Transition>): seq<Guard> {
    Flatten(seq(|ts|, i requires 0 <= i < |ts| => ts[i].guards))
  }

  function AllUpdates(ts: seq<Transition>): seq<Update> {
    Flatten(seq(|ts|, i requires 0 <= i < |ts| => ts[i].updates))
  }

  /** The slow guards are joined from the left. */
  function JoinSlow(ts: seq<Transition>): Formula {
    if ts == [] then AlwaysTrue else FMkAnd([JoinSlow(ts[..|ts| - 1]), ts[|ts| - 1].slowGuard])
  }

  /** All the transitions at the same time; conflicting guards or updates panic. */
  function FromConjunction(ts: seq<Transition>): Outcome<Transition> {
    var guards := Dedup(Sorted(GuardLeq, AllGuards(ts)));
    var updates := Dedup(Sorted(UpdateLeq, AllUpdates(ts)));
    if GuardConflict(guards) || UpdateConflict(updates) then Failure(Panic)
    else Success(Transition(guards, updates, JoinSlow(ts)))
  }

  predicate AllLits(fs: seq<Formula>) {
    forall f | f in fs :: f.FLit?
  }

  function GuardsOf(fs: seq<Formula>): (r: seq<Guard>)
    requires AllLits(fs)
    ensures |r| == |fs| && forall i | 0 <= i < |fs| :: fs[i] == FLit(r[i])
  {
    assert forall i | 0 <= i < |fs| :: fs[i] in fs;
    seq(|fs|, i requires 0 <= i < |fs| && fs[i].FLit? => fs[i].guard)
  }

  /** A formula over one state becomes guards when it is a cube, and a slow guard otherwise. */
  function StateTransition(f: Formula): Transition {
    var terms := FGetAnd(f);
    if AllLits(terms) then Transition(GuardsOf(terms), [], AlwaysTrue)
    else Transition([], [], FMkAnd(terms))
  }

  function EnumeratedToTransition(e: Enumerated, ix: IndexMap): Outcome<Transition>
    decreases e, 1
  {
    match e
    case EAnd(xs) =>
      (match TransitionsOf(xs, ix) case Failure(err) => Failure(err) case Success(ts) => FromConjunction(ts))
    case ENot(x) =>
      (match EnumeratedToTransition(x, ix) case Failure(err) => Failure(err) case Success(t) => NegateTransition(e, t, ix))
    case EEq(x, y) =>
      if x.EApp? && x.primes == 1 then
        match ix.Get(x.name, 0, x.args)
        case None => Failure(Panic)
        case Some(i) =>
          match EnumeratedToFormula(y, ix)
          case Failure(err) => Failure(err)
          case Success(f) => Success(Transition([], [Update(i, f)], AlwaysTrue))
      else OverOneState(e, ix)
    case EApp(name, p, args) =>
      if p == 1 then
        match ix.Get(name, 0, args)
        case None => Failure(Panic)
        case Some(i) => Success(Transition([], [Update(i, AlwaysTrue)], AlwaysTrue))
      else OverOneState(e, ix)
    case EOr(_) => OverOneState(e, ix)
  }

  function OverOneState(e: Enumerated, ix: IndexMap): Outcome<Transition> {
    match EnumeratedToFormula(e, ix)
    case Failure(err) => Failure(err)
    case Success(f) => Success(StateTransition(f))
  }

  function NegateTransition(e: Enumerated, t: Transition, ix: IndexMap): Outcome<Transition> {
    if |t.guards| == 1 && t.updates == [] && t.slowGuard == AlwaysTrue then
      Success(t.(guards := [Guard(t.guards[0].index, !t.guards[0].value)]))
    else if t.guards == [] && |t.updates| == 1 && t.slowGuard == AlwaysTrue then
      Success(t.(updates := [Update(t.updates[0].index, FMkNot(t.updates[0].formula))]))
    else if t.guards == [] && t.updates == [] then Success(t.(slowGuard := FMkNot(t.slowGuard)))
    else
      match EnumeratedToFormula(e, ix)
      case Failure(err) => Failure(err)
      case Success(f) => Success(Transition([], [], f))
  }

  function TransitionsOf(es: seq<Enumerated>, ix: IndexMap): Outcome<seq<Transition>>
    decreases es, 0
  {
    if es == [] then Success([])
    else
      match EnumeratedToTransition(es[0], ix)
      case Failure(err) => Failure(err)
      case Success(t) =>
        match TransitionsOf(es[1..], ix)
        case Failure(err) => Failure(err)
        case Success(ts) => Success([t] + ts)
  }

  predicate AllAllow(ts: seq<Transition>, s: State, s': State) {
    forall t | t in ts :: Allows(t, s, s')
  }

  lemma {:induction false} JoinSlowHolds(ts: seq<Transition>, s: State)
    ensures Evaluate(JoinSlow(ts), s) <==> forall t | t in ts :: Evaluate(t.slowGuard, s)
    decreases |ts|
  {
    if ts == [] {
      FAndHolds([], s);
    } else {
      hide Evaluate, FMkAnd;
      var front, last := ts[..|ts| - 1], ts[|ts| - 1];
      JoinSlowHolds(front, s);
      var pair := [JoinSlow(front), last.slowGuard];
      FMkAndHolds(pair, s);
      assert pair[0] in pair && pair[1] in pair;
      assert ts == front + [last];
    }
  }

  lemma GuardsFlatten(ts: seq<Transition>, s: State)
    ensures GuardsHold(AllGuards(ts), s) <==> forall t | t in ts :: GuardsHold(t.guards, s)
  {
    var parts := seq(|ts|, i requires 0 <= i < |ts| => ts[i].guards);
    if GuardsHold(AllGuards(ts), s) {
      forall t, g | t in ts && g in t.guards ensures GuardHolds(g, s) {
        var i :| 0 <= i < |ts| && ts[i] == t;
        assert g in parts[i];
        FlattenMembers(parts, g);
      }
    }
    if forall t | t in ts :: GuardsHold(t.guards, s) {
      forall g | g in AllGuards(ts) ensures GuardHolds(g, s) {
        FlattenMembers(parts, g);
        var i :| 0 <= i < |parts| && g in parts[i];
        assert ts[i] in ts;
      }
    }
  }

  lemma UpdatesFlatten(ts: seq<Transition>, s: State, s': State)
    ensures UpdatesHold(AllUpdates(ts), s, s') <==> forall t | t in ts :: UpdatesHold(t.updates, s, s')
  {
    hide Evaluate;
    var parts := seq(|ts|, i requires 0 <= i < |ts| => ts[i].updates);
    if UpdatesHold(AllUpdates(ts), s, s') {
      forall t, u | t in ts && u in t.updates ensures Bit(s', u.index) == Evaluate(u.formula, s) {
        var i :| 0 <= i < |ts| && ts[i] == t;
        assert u in parts[i];
        FlattenMembers(parts, u);
      }
    }
    if forall t | t in ts :: UpdatesHold(t.updates, s, s') {
      forall u | u in AllUpdates(ts) ensures Bit(s', u.index) == Evaluate(u.formula, s) {
        FlattenMembers(parts, u);
        var i :| 0 <= i < |parts| && u in parts[i];
        assert ts[i] in ts;
      }
    }
  }

  /** The conjunction allows exactly the pairs all its parts allow. */
  lemma FromConjunctionSound(ts: seq<Transition>, t: Transition, s: State, s': State)
    requires FromConjunction(ts) == Success(t)
    ensures Allows(t, s, s') <==> AllAllow(ts, s, s')
  {
    hide Evaluate, GuardHolds;
    SortDedupMembers(GuardLeq, AllGuards(ts));
    SortDedupMembers(UpdateLeq, AllUpdates(ts));
    assert GuardsHold(t.guards, s) <==> GuardsHold(AllGuards(ts), s);
    assert UpdatesHold(t.updates, s, s') <==> UpdatesHold(AllUpdates(ts), s, s');
    GuardsFlatten(ts, s);
    UpdatesFlatten(ts, s, s');
    JoinSlowHolds(ts, s);
  }

  lemma StateTransitionSound(f: Formula, s: State, s': State)
    ensures Allows(StateTransition(f), s, s') <==> Evaluate(f, s)
  {
    hide Evaluate;
    var terms := FGetAnd(f);
    FAndHolds([], s);
    if f.FAnd? { FAndHolds(terms, s); }
    assert Evaluate(f, s) <==> AllEvaluate(terms, s);
    if AllLits(terms) {
      LitsHold(terms, s);
    } else {
      FMkAndHolds(terms, s);
    }
  }

  lemma LitsHold(terms: seq<Formula>, s: State)
    requires AllLits(terms)
    ensures GuardsHold(GuardsOf(terms), s) <==> AllEvaluate(terms, s)
  {
    var guards := GuardsOf(terms);
    forall i | 0 <= i < |terms| ensures Evaluate(terms[i], s) <==> GuardHolds(guards[i], s) {}
    assert forall i | 0 <= i < |terms| :: terms[i] in terms && guards[i] in guards;
  }

  /** A compiled transition allows exactly the pairs of states that satisfy the formula. */
  lemma {:induction false} TransitionSound(e: Enumerated, ix: IndexMap, universe: Universe, t: Transition, s: State, s': State)
    requires 1 <= ix.copies
    requires EnumeratedToTransition(e, ix) == Success(t)
    ensures Allows(t, s, s') <==> EnumHolds(e, PairTrace(ix, universe, s, s'), 0)
    decreases e, 1
  {
    var tr := PairTrace(ix, universe, s, s');
    match e
    case EAnd(xs) =>
      var ts := TransitionsOf(xs, ix).value;
      TransitionsSound(xs, ix, universe, ts, s, s');
      FromConjunctionSound(ts, t, s, s');
      AndHolds(xs, tr, 0);
    case ENot(x) =>
      var tx := EnumeratedToTransition(x, ix).value;
      TransitionSound(x, ix, universe, tx, s, s');
      NegateSound(e, tx, ix, universe, t, s, s');
    case EEq(x, y) =>
      if x.EApp? && x.primes == 1 {
        var f := EnumeratedToFormula(y, ix).value;
        FormulaSound(y, ix, f, s, tr);
        UpdateSound(x, f, ix, universe, s, s');
      } else {
        OverOneStateSound(e, ix, t, s, s', tr);
      }
    case EApp(_, p, _) =>
      if p == 1 {
        FAndHolds([], s);
        UpdateSound(e, AlwaysTrue, ix, universe, s, s');
      } else {
        OverOneStateSound(e, ix, t, s, s', tr);
      }
    case EOr(_) => OverOneStateSound(e, ix, t, s, s', tr);
  }

  lemma UpdateSound(x: Enumerated, f: Formula, ix: IndexMap, universe: Universe, s: State, s': State)
    requires x.EApp? && x.primes == 1 && ix.Get(x.name, 0, x.args).Some?
    ensures Allows(Transition([], [Update(ix.Get(x.name, 0, x.args).value, f)], AlwaysTrue), s, s')
      <==> (EnumHolds(x, PairTrace(ix, universe, s, s'), 0) <==> Evaluate(f, s))
  {
    FAndHolds([], s);
    var u := Update(ix.Get(x.name, 0, x.args).value, f);
    assert UpdatesHold([u], s, s') <==> Bit(s', u.index) == Evaluate(f, s) by { assert u in [u]; }
    assert EnumHolds(x, PairTrace(ix, universe, s, s'), 0) <==> InterpOf(ix, s')(x.name, x.args) == 1;
  }

  lemma OverOneStateSound(e: Enumerated, ix: IndexMap, t: Transition, s: State, s': State, tr: Trace)
    requires OverOneState(e, ix) == Success(t) && tr.at(0) == InterpOf(ix, s)
    ensures Allows(t, s, s') <==> EnumHolds(e, tr, 0)
  {
    var f := EnumeratedToFormula(e, ix).value;
    FormulaSound(e, ix, f, s, tr);
    StateTransitionSound(f, s, s');
  }

  lemma NegateSound(e: Enumerated, tx: Transition, ix: IndexMap, universe: Universe, t: Transition, s: State, s': State)
    requires e.ENot? && NegateTransition(e, tx, ix) == Success(t)
    requires Allows(tx, s, s') <==> EnumHolds(e.term, PairTrace(ix, universe, s, s'), 0)
    ensures Allows(t, s, s') <==> EnumHolds(e, PairTrace(ix, universe, s, s'), 0)
  {
    hide Evaluate;
    FAndHolds([], s);
    if |tx.guards| == 1 && tx.updates == [] && tx.slowGuard == AlwaysTrue {
      assert tx.guards[0] in tx.guards && t.guards[0] in t.guards;
    } else if tx.guards == [] && |tx.updates| == 1 && tx.slowGuard == AlwaysTrue {
      assert tx.updates[0] in tx.updates && t.updates[0] in t.updates;
      FMkNotHolds(tx.updates[0].formula, s);
    } else if tx.guards == [] && tx.updates == [] {
      FMkNotHolds(tx.slowGuard, s);
    } else {
      FormulaSound(e, ix, EnumeratedToFormula(e, ix).value, s, PairTrace(ix, universe, s, s'));
    }
  }

  lemma {:induction false} TransitionsSound(es: seq<Enumerated>, ix: IndexMap, universe: Universe, ts: seq<Transition>,
                                            s: State, s': State)
    requires 1 <= ix.copies
    requires TransitionsOf(es, ix) == Success(ts)
    ensures AllAllow(ts, s, s') <==> AllHold(es, PairTrace(ix, universe, s, s'), 0)
    ensures |ts| == |es|
    ensures forall i | 0 <= i < |es| :: Allows(ts[i], s, s') <==> EnumHolds(es[i], PairTrace(ix, universe, s, s'), 0)
    decreases es, 0
  {
    if es != [] {
      var tr := PairTrace(ix, universe, s, s');
      TransitionSound(es[0], ix, universe, ts[0], s, s');
      TransitionsSound(es[1..], ix, universe, ts[1..], s, s');
      forall i | 0 <= i < |es| ensures Allows(ts[i], s, s') <==> EnumHolds(es[i], tr, 0) {
        if i > 0 { assert ts[1..][i - 1] == ts[i] && es[1..][i - 1] == es[i]; }
      }
      PairwiseAll(es, ts, tr, s, s');
    }
  }

  lemma PairwiseAll(es: seq<Enumerated>, ts: seq<Transition>, tr: Trace, s: State, s': State)
    requires |ts| == |es|
    requires forall i | 0 <= i < |es| :: Allows(ts[i], s, s') <==> EnumHolds(es[i], tr, 0)
    ensures AllAllow(ts, s, s') <==> AllHold(es, tr, 0)
  {
    hide Allows, EnumHolds;
    assert forall i | 0 <= i < |es| :: es[i] in es && ts[i] in ts;
  }
}
