/** Growing an unsatisfiable core from counter-models, and the query loops built on it. */
module Cores {
  import opened Collections
  import opened Syntax

  function Indices(n: nat): (r: set<nat>)
    ensures |r| == n && forall i: nat :: i in r <==> i < n
  {
    if n == 0 then {} else Indices(n - 1) + {n - 1}
  }

  // The two maps of a core.

  /** The maps are converse to each other: both say which participant is false in which model. */
  ghost predicate Converse<M>(formulas: seq<Term>, eval: (Term, M) -> bool, participants: set<nat>, models: seq<M>,
                              toParticipants: map<nat, set<nat>>, toCounterModels: map<nat, set<nat>>) {
    && (forall p | p in participants :: p < |formulas|)
    && toCounterModels.Keys == participants
    && (forall j: nat :: j in toParticipants <==> j < |models|)
    && (forall p | p in participants :: toCounterModels[p] == FalseIn(formulas[p], eval, models))
    && (forall j | 0 <= j < |models| :: toParticipants[j] == FalseAt(formulas, eval, participants, models[j]))
  }

  /** The models the formula is false in. */
  function FalseIn<M>(f: Term, eval: (Term, M) -> bool, models: seq<M>): set<nat> {
    set j | 0 <= j < |models| && !eval(f, models[j])
  }

  /** The participants that are false in the model. */
  function FalseAt<M>(formulas: seq<Term>, eval: (Term, M) -> bool, participants: set<nat>, m: M): set<nat> {
    set p | p in participants && p < |formulas| && !eval(formulas[p], m)
  }

  /** Every recorded model is blocked by some participant. */
  ghost predicate Blocked(toParticipants: map<nat, set<nat>>) {
    forall j | j in toParticipants :: toParticipants[j] != {}
  }

  /** Every participant is the only one that blocks some model. */
  ghost predicate LocallyMinimal(participants: set<nat>, toParticipants: map<nat, set<nat>>) {
    forall p | p in participants :: exists j :: j in toParticipants && toParticipants[j] == {p}
  }

  predicate Removable(p: nat, toParticipants: map<nat, set<nat>>, toCounterModels: map<nat, set<nat>>) {
    p in toCounterModels && forall j | j in toCounterModels[p] :: j in toParticipants && |toParticipants[j]| > 1
  }

  lemma OneOrMore(s: set<nat>, p: nat)
    requires p in s && |s| <= 1
    ensures s == {p}
  {
    assert |s - {p}| == 0;
  }

  lemma MoreThanOne(s: set<nat>, p: nat)
    requires |s| > 1
    ensures s - {p} != {}
  {
    if s - {p} == {} { assert s <= {p}; assert |s| <= |{p}| by { SubsetSize(s, {p}); } }
  }

  /** A core none of whose members can go is locally minimal. */
  lemma NothingRemovable<M>(formulas: seq<Term>, eval: (Term, M) -> bool, participants: set<nat>, models: seq<M>,
                            toParticipants: map<nat, set<nat>>, toCounterModels: map<nat, set<nat>>)
    requires Converse(formulas, eval, participants, models, toParticipants, toCounterModels)
    requires forall p | p in participants :: !Removable(p, toParticipants, toCounterModels)
    ensures LocallyMinimal(participants, toParticipants)
  {
    forall p | p in participants ensures exists j :: j in toParticipants && toParticipants[j] == {p} {
      var j :| j in toCounterModels[p] && !(j in toParticipants && |toParticipants[j]| > 1);
      assert j < |models| && j in toParticipants;
      OneOrMore(toParticipants[j], p);
    }
  }

  // Falsified sets.

  ghost function FalsifiedSet<M>(formulas: seq<Term>, eval: (Term, M) -> bool, m: M): set<nat> {
    set i | 0 <= i < |formulas| && !eval(formulas[i], m)
  }

  ghost function FalsifiedSets<M>(formulas: seq<Term>, eval: (Term, M) -> bool, models: seq<M>): (r: seq<set<nat>>)
    ensures |r| == |models| && forall j | 0 <= j < |models| :: r[j] == FalsifiedSet(formulas, eval, models[j])
  {
    seq(|models|, j requires 0 <= j < |models| => FalsifiedSet(formulas, eval, models[j]))
  }

  ghost function Entries(ss: seq<set<nat>>): set<set<nat>> {
    set s | s in ss
  }

  lemma {:induction false} DistinctCount(ss: seq<set<nat>>)
    requires NoDuplicates(ss)
    ensures |Entries(ss)| == |ss|
    decreases |ss|
  {
    if ss != [] {
      var front, last := ss[..|ss| - 1], ss[|ss| - 1];
      DistinctCount(front);
      assert ss == front + [last];
      assert Entries(ss) == Entries(front) + {last} && last !in Entries(front);
    } else {
      assert Entries(ss) == {};
    }
  }

  function Pow2(n: nat): (r: nat)
    ensures r > 0
  {
    if n == 0 then 1 else 2 * Pow2(n - 1)
  }

  lemma {:induction false} SubsetsSize(all: set<set<nat>>, n: nat)
    requires AllBelow(all, n)
    ensures |all| <= Pow2(n)
    decreases n
  {
    hide AllBelow, Indices, Shrunk, Avoiding;
    if n == 0 {
      OnlyEmpty(all);
    } else {
      var without := Avoiding(all, n - 1);
      var within := all - without;
      SmallerSubsets(all, n);
      SubsetsSize(without, n - 1);
      SubsetsSize(Shrunk(within, n - 1), n - 1);
      ShrunkSize(within, n - 1);
      SplitSize(all, without);
    }
  }

  lemma OnlyEmpty(all: set<set<nat>>)
    requires AllBelow(all, 0)
    ensures |all| <= 1
  {
    forall s | s in all ensures s == {} {}
    SubsetSize(all, {{}});
  }

  ghost function Avoiding(all: set<set<nat>>, x: nat): set<set<nat>> {
    set s | s in all && x !in s
  }

  lemma SplitSize(all: set<set<nat>>, part: set<set<nat>>)
    requires part <= all
    ensures |all| == |part| + |all - part|
  {
    assert all == part + (all - part);
  }

  ghost function Shrunk(within: set<set<nat>>, x: nat): set<set<nat>> {
    set s | s in within :: s - {x}
  }

  ghost predicate AllBelow(all: set<set<nat>>, n: nat) {
    forall s | s in all :: s <= Indices(n)
  }

  lemma SmallerSubsets(all: set<set<nat>>, n: nat)
    requires n > 0 && AllBelow(all, n)
    ensures var without := Avoiding(all, n - 1);
            without <= all && AllBelow(without, n - 1)
            && AllBelow(Shrunk(all - without, n - 1), n - 1)
            && (forall s | s in all - without :: n - 1 in s)
  {
  }

  lemma {:induction false} ShrunkSize(within: set<set<nat>>, x: nat)
    requires forall s | s in within :: x in s
    ensures |Shrunk(within, x)| == |within|
    decreases within
  {
    var shrunk := Shrunk(within, x);
    if t :| t in within {
      var rest := within - {t};
      ShrunkSize(rest, x);
      var less := Shrunk(rest, x);
      forall s | s in rest ensures s - {x} != t - {x} { assert s == (s - {x}) + {x} && t == (t - {x}) + {x}; }
      assert t - {x} !in less;
      assert shrunk == less + {t - {x}};
    } else {
      assert shrunk == {};
    }
  }

  /** Distinct nonempty sets of falsified formulas: fewer than 2^n models. */
  lemma ModelBound<M>(formulas: seq<Term>, eval: (Term, M) -> bool, models: seq<M>)
    requires NoDuplicates(FalsifiedSets(formulas, eval, models))
    requires forall j | 0 <= j < |models| :: FalsifiedSet(formulas, eval, models[j]) != {}
    ensures |models| < Pow2(|formulas|)
  {
    hide FalsifiedSet, NoDuplicates, Pow2;
    var ss := FalsifiedSets(formulas, eval, models);
    DistinctCount(ss);
    forall s | s in ss ensures s <= Indices(|formulas|) && s != {} {
      var j :| 0 <= j < |ss| && ss[j] == s;
      FalsifiedIndices(formulas, eval, models[j]);
    }
    NonEmptySubsets(Entries(ss), |formulas|);
  }

  lemma FalsifiedIndices<M>(formulas: seq<Term>, eval: (Term, M) -> bool, m: M)
    ensures FalsifiedSet(formulas, eval, m) <= Indices(|formulas|)
  {
  }

  lemma NonEmptySubsets(all: set<set<nat>>, n: nat)
    requires forall s | s in all :: s <= Indices(n) && s != {}
    ensures |all| < Pow2(n)
  {
    hide Pow2;
    assert {} !in all;
    SubsetsSize(all + {{}}, n);
  }

  /** The maps without a participant. */
  function WithoutParticipant(toParticipants: map<nat, set<nat>>, models: set<nat>, p: nat): (r: map<nat, set<nat>>)
    ensures r.Keys == toParticipants.Keys
    ensures forall j | j in toParticipants :: r[j] == if j in models then toParticipants[j] - {p} else toParticipants[j]
  {
    map j | j in toParticipants :: if j in models then toParticipants[j] - {p} else toParticipants[j]
  }

  /** The maps with one more participant. */
  function WithParticipant(toParticipants: map<nat, set<nat>>, models: set<nat>, p: nat): (r: map<nat, set<nat>>)
    ensures r.Keys == toParticipants.Keys
    ensures forall j | j in toParticipants :: r[j] == if j in models then toParticipants[j] + {p} else toParticipants[j]
  {
    map j | j in toParticipants :: if j in models then toParticipants[j] + {p} else toParticipants[j]
  }

  // The core.

  class Core<M> {
    const formulas: seq<Term>
    const eval: (Term, M) -> bool
    const minimal: bool
    var participants: set<nat>
    var counterModels: seq<M>
    var toParticipants: map<nat, set<nat>>
    var toCounterModels: map<nat, set<nat>>

    /** A core starts with no participants and grows, or has all formulas from the start. */
    ghost predicate Valid()
      reads this
    {
      || (counterModels == [] && participants == Indices(|formulas|))
      || (Converse(formulas, eval, participants, counterModels, toParticipants, toCounterModels) && Blocked(toParticipants)
          && (minimal ==> LocallyMinimal(participants, toParticipants)))
    }

    constructor (formulas: seq<Term>, eval: (Term, M) -> bool, participants: set<nat>, minimal: bool)
      requires participants == {} || participants == Indices(|formulas|)
      ensures Valid() && counterModels == [] && this.participants == participants
      ensures this.formulas == formulas && this.eval == eval && this.minimal == minimal
    {
      this.formulas, this.eval, this.minimal := formulas, eval, minimal;
      this.participants, counterModels := participants, [];
      toParticipants, toCounterModels := map[], map[];
    }

    /** The removable participant with the highest index, if there is one. */
    method FindRemovable() returns (found: Option<nat>)
      requires forall p | p in participants :: p < |formulas|
      ensures found.Some? ==> found.value in participants && Removable(found.value, toParticipants, toCounterModels)
      ensures found.None? ==> forall p | p in participants :: !Removable(p, toParticipants, toCounterModels)
    {
      hide Removable;
      var i := |formulas|;
      while i > 0
        invariant 0 <= i <= |formulas|
        invariant forall p | p in participants && i <= p :: !Removable(p, toParticipants, toCounterModels)
      {
        i := i - 1;
        if i in participants && Removable(i, toParticipants, toCounterModels) { return Some(i); }
      }
      found := None;
    }

    /** Drop the removable participant with the highest index, if there is one. */
    method Reduce() returns (reduced: bool)
      requires Converse(formulas, eval, participants, counterModels, toParticipants, toCounterModels) && Blocked(toParticipants)
      modifies this
      ensures Converse(formulas, eval, participants, counterModels, toParticipants, toCounterModels) && Blocked(toParticipants)
      ensures counterModels == old(counterModels) && participants <= old(participants)
      ensures reduced ==> |participants| < |old(participants)|
      ensures !reduced ==> participants == old(participants) && LocallyMinimal(participants, toParticipants)
    {
      hide Converse, Blocked, LocallyMinimal, Removable, WithoutParticipant;
      ParticipantsBelow(formulas, eval, participants, counterModels, toParticipants, toCounterModels);
      var found := FindRemovable();
      match found {
        case Some(p) =>
          RemovedConverse(formulas, eval, participants, counterModels, toParticipants, toCounterModels, p);
          participants := participants - {p};
          toParticipants := WithoutParticipant(toParticipants, toCounterModels[p], p);
          toCounterModels := toCounterModels - {p};
          reduced := true;
        case None =>
          NothingRemovable(formulas, eval, participants, counterModels, toParticipants, toCounterModels);
          reduced := false;
      }
    }

    /** Make the core block one more model.  `false` means that the model satisfies every formula. */
    method AddCounterModel(m: M) returns (blocked: bool)
      requires Valid() && forall p | p in participants && p < |formulas| :: eval(formulas[p], m)
      modifies this
      ensures Valid()
      ensures blocked ==> counterModels == old(counterModels) + [m]
      ensures blocked ==> Converse(formulas, eval, participants, counterModels, toParticipants, toCounterModels)
      ensures blocked ==> Blocked(toParticipants) && (minimal ==> LocallyMinimal(participants, toParticipants))
      ensures !blocked ==> counterModels == old(counterModels) && participants == old(participants)
      ensures !blocked ==> forall i | 0 <= i < |formulas| :: eval(formulas[i], m)
    {
      var p := 0;
      while p < |formulas| && (p in participants || eval(formulas[p], m))
        invariant p <= |formulas|
        invariant forall i | 0 <= i < p :: eval(formulas[i], m)
      {
        p := p + 1;
      }
      hide Converse, Blocked, LocallyMinimal;
      if p == |formulas| { return false; }
      var index := |counterModels|;
      var falsified := FalseIn(formulas[p], eval, counterModels);
      AddedConverse(formulas, eval, participants, counterModels, toParticipants, toCounterModels, p, m, falsified);
      participants := participants + {p};
      toParticipants := WithParticipant(toParticipants, falsified, p)[index := {p}];
      counterModels := counterModels + [m];
      toCounterModels := toCounterModels[p := falsified + {index}];
      if minimal {
        var more := true;
        while more
          invariant Converse(formulas, eval, participants, counterModels, toParticipants, toCounterModels) && Blocked(toParticipants)
          invariant counterModels == old(counterModels) + [m]
          invariant !more ==> LocallyMinimal(participants, toParticipants)
          decreases more, |participants|
        {
          more := Reduce();
        }
      }
      blocked := true;
    }
  }

  lemma ParticipantsBelow<M>(formulas: seq<Term>, eval: (Term, M) -> bool, participants: set<nat>, models: seq<M>,
                             toParticipants: map<nat, set<nat>>, toCounterModels: map<nat, set<nat>>)
    requires Converse(formulas, eval, participants, models, toParticipants, toCounterModels)
    ensures (forall p | p in participants :: p < |formulas|) && toCounterModels.Keys == participants
  {
  }

  lemma RemovedConverse<M>(formulas: seq<Term>, eval: (Term, M) -> bool, participants: set<nat>, models: seq<M>,
                           toParticipants: map<nat, set<nat>>, toCounterModels: map<nat, set<nat>>, p: nat)
    requires Converse(formulas, eval, participants, models, toParticipants, toCounterModels) && Blocked(toParticipants)
    requires p in participants && Removable(p, toParticipants, toCounterModels)
    ensures var toP := WithoutParticipant(toParticipants, toCounterModels[p], p);
            Converse(formulas, eval, participants - {p}, models, toP, toCounterModels - {p}) && Blocked(toP)
    ensures |participants - {p}| < |participants|
  {
    forall j | j in toParticipants ensures j in toCounterModels[p] ==> toParticipants[j] - {p} != {} {
      if j in toCounterModels[p] { MoreThanOne(toParticipants[j], p); }
    }
  }

  lemma AddedConverse<M>(formulas: seq<Term>, eval: (Term, M) -> bool, participants: set<nat>, models: seq<M>,
                         toParticipants: map<nat, set<nat>>, toCounterModels: map<nat, set<nat>>, p: nat, m: M, falsified: set<nat>)
    requires Converse(formulas, eval, participants, models, toParticipants, toCounterModels) && Blocked(toParticipants)
    requires p < |formulas| && p !in participants && !eval(formulas[p], m)
    requires forall q | q in participants :: eval(formulas[q], m)
    requires falsified == FalseIn(formulas[p], eval, models)
    ensures var toP := WithParticipant(toParticipants, falsified, p)[|models| := {p}];
            Converse(formulas, eval, participants + {p}, models + [m], toP, toCounterModels[p := falsified + {|models|}]) && Blocked(toP)
  {
    hide FalseAt, FalseIn, WithParticipant;
    var toP := WithParticipant(toParticipants, falsified, p)[|models| := {p}];
    var toC, more := toCounterModels[p := falsified + {|models|}], models + [m];
    forall j | 0 <= j < |more| ensures toP[j] == FalseAt(formulas, eval, participants + {p}, more[j]) && toP[j] != {} {
      OneMoreFalse(formulas, eval, participants, more[j], p);
      if j < |models| { InFalseIn(formulas[p], eval, models, j); } else { NoneFalse(formulas, eval, participants, m); }
    }
    forall q | q in participants + {p} ensures toC[q] == FalseIn(formulas[q], eval, more) {
      FalseInMore(formulas[q], eval, models, m);
    }
  }

  lemma OneMoreFalse<M>(formulas: seq<Term>, eval: (Term, M) -> bool, participants: set<nat>, m: M, p: nat)
    requires p < |formulas|
    ensures FalseAt(formulas, eval, participants + {p}, m)
      == FalseAt(formulas, eval, participants, m) + (if eval(formulas[p], m) then {} else {p})
  {
  }

  lemma InFalseIn<M>(f: Term, eval: (Term, M) -> bool, models: seq<M>, j: nat)
    requires j < |models|
    ensures j in FalseIn(f, eval, models) <==> !eval(f, models[j])
  {
  }

  lemma FalseInMore<M>(f: Term, eval: (Term, M) -> bool, models: seq<M>, m: M)
    ensures FalseIn(f, eval, models + [m]) == FalseIn(f, eval, models) + (if eval(f, m) then {} else {|models|})
  {
  }

  lemma NoneFalse<M>(formulas: seq<Term>, eval: (Term, M) -> bool, participants: set<nat>, m: M)
    requires forall q | q in participants && q < |formulas| :: eval(formulas[q], m)
    ensures FalseAt(formulas, eval, participants, m) == {}
  {
  }

  // The query loop.

  datatype SolverResp<+M> = Sat(model: M) | Unsat(core: set<nat>) | GaveUp | Killed

  datatype CexResult<+M> = Cex(model: M) | UnsatCore(core: set<nat>) | Canceled | Unknown

  predicate Satisfies<M>(formulas: seq<Term>, eval: (Term, M) -> bool, chosen: set<nat>, m: M) {
    forall i | i in chosen && i < |formulas| :: eval(formulas[i], m)
  }

  /** Whatever was asked before: a model satisfies the assertions and the chosen formulas, and a
      core is a subset of the chosen formulas that no model of the assertions satisfies. */
  ghost predicate CorrectSolver<M(!new)>(formulas: seq<Term>, eval: (Term, M) -> bool, assertions: M -> bool,
                                   query: (nat, set<nat>) -> SolverResp<M>) {
    forall n, chosen ::
      match query(n, chosen)
      case Sat(m) => assertions(m) && Satisfies(formulas, eval, chosen, m)
      case Unsat(core) => core <= chosen && forall m | assertions(m) :: !Satisfies(formulas, eval, core, m)
      case GaveUp => true
      case Killed => true
  }

  /** Some query is left undecided, or killed. */
  ghost predicate GivesUp<M(!new)>(query: (nat, set<nat>) -> SolverResp<M>) {
    exists n, chosen :: query(n, chosen).GaveUp?
  }

  ghost predicate IsKilled<M(!new)>(query: (nat, set<nat>) -> SolverResp<M>) {
    exists n, chosen :: query(n, chosen).Killed?
  }

  /** A counterexample satisfies all formulas; a core rules every counterexample out. */
  ghost predicate Justified<M(!new)>(formulas: seq<Term>, eval: (Term, M) -> bool, assertions: M -> bool, r: CexResult<M>) {
    match r
    case Cex(m) => assertions(m) && Satisfies(formulas, eval, Indices(|formulas|), m)
    case UnsatCore(core) => core <= Indices(|formulas|) && forall m | assertions(m) :: !Satisfies(formulas, eval, core, m)
    case Canceled => true
    case Unknown => true
  }

  lemma NewFalsified<M>(core: Core<M>, m: M)
    requires core.Valid() && Satisfies(core.formulas, core.eval, core.participants, m)
    requires NoDuplicates(FalsifiedSets(core.formulas, core.eval, core.counterModels))
    ensures NoDuplicates(FalsifiedSets(core.formulas, core.eval, core.counterModels + [m]))
  {
    var models := core.counterModels;
    var ss, more := FalsifiedSets(core.formulas, core.eval, models), FalsifiedSets(core.formulas, core.eval, models + [m]);
    assert more == ss + [FalsifiedSet(core.formulas, core.eval, m)];
    forall j | 0 <= j < |models| ensures ss[j] != FalsifiedSet(core.formulas, core.eval, m) {
      assert j in core.toParticipants;
      var p :| p in core.toParticipants[j];
      assert p in core.participants && !core.eval(core.formulas[p], models[j]);
      assert p in ss[j] && p !in FalsifiedSet(core.formulas, core.eval, m);
    }
  }

  /** Query until the solver reports a core or a model that satisfies everything.  The loop
      ends within 2^n rounds because every new model falsifies a new set of formulas. */
  method FindCex<M(!new)>(formulas: seq<Term>, eval: (Term, M) -> bool, query: (nat, set<nat>) -> SolverResp<M>,
                    gradual: bool, minimal: bool, ghost assertions: M -> bool)
    returns (r: CexResult<M>, rounds: nat)
    requires CorrectSolver(formulas, eval, assertions, query)
    ensures Justified(formulas, eval, assertions, r)
    ensures r.Unknown? ==> GivesUp(query)
    ensures r.Canceled? ==> IsKilled(query)
    ensures rounds <= Pow2(|formulas|)
  {
    hide NoDuplicates, FalsifiedSets, FalsifiedSet, Pow2, Converse, Blocked, LocallyMinimal, GivesUp, IsKilled, CorrectSolver, Justified;
    var core := new Core(formulas, eval, if gradual then {} else Indices(|formulas|), minimal);
    rounds := 0;
    EmptyModels(formulas, eval);
    while true
      invariant core.Valid() && fresh(core)
      invariant core.formulas == formulas && core.eval == eval
      invariant forall p | p in core.participants :: p < |formulas|
      invariant rounds == |core.counterModels|
      invariant NoDuplicates(FalsifiedSets(formulas, eval, core.counterModels))
      invariant forall j | 0 <= j < |core.counterModels| :: FalsifiedSet(formulas, eval, core.counterModels[j]) != {}
      decreases Pow2(|formulas|) - rounds
    {
      ModelBound(formulas, eval, core.counterModels);
      rounds := rounds + 1;
      AnswerJustified(formulas, eval, assertions, query, rounds, core.participants, query(rounds, core.participants));
      match query(rounds, core.participants) {
        case Sat(m) =>
          NewFalsified(core, m);
          var blocked := core.AddCounterModel(m);
          if !blocked { return Cex(m), rounds; }
          LastFalsified(core, m);
        case Unsat(found) => return UnsatCore(found), rounds;
        case GaveUp => return Unknown, rounds;
        case Killed => return Canceled, rounds;
      }
    }
  }

  /** What one answer justifies. */
  lemma AnswerJustified<M(!new)>(formulas: seq<Term>, eval: (Term, M) -> bool, assertions: M -> bool,
                                 query: (nat, set<nat>) -> SolverResp<M>, n: nat, chosen: set<nat>, r: SolverResp<M>)
    requires CorrectSolver(formulas, eval, assertions, query) && (forall p | p in chosen :: p < |formulas|) && r == query(n, chosen)
    ensures r.Sat? ==> Satisfies(formulas, eval, chosen, r.model)
    ensures r.Sat? && Satisfies(formulas, eval, Indices(|formulas|), r.model) ==> Justified(formulas, eval, assertions, CexResult.Cex(r.model))
    ensures r.Unsat? ==> Justified(formulas, eval, assertions, UnsatCore(r.core))
    ensures r.GaveUp? ==> GivesUp(query) && Justified(formulas, eval, assertions, CexResult<M>.Unknown)
    ensures r.Killed? ==> IsKilled(query) && Justified(formulas, eval, assertions, CexResult<M>.Canceled)
  {
    match r
    case Sat(m) => assert assertions(m);
    case Unsat(core) => assert core <= chosen;
    case GaveUp =>
    case Killed =>
  }

  lemma EmptyModels<M>(formulas: seq<Term>, eval: (Term, M) -> bool)
    ensures NoDuplicates(FalsifiedSets(formulas, eval, []))
  {
  }

  lemma LastFalsified<M>(core: Core<M>, m: M)
    requires Converse(core.formulas, core.eval, core.participants, core.counterModels, core.toParticipants, core.toCounterModels)
    requires Blocked(core.toParticipants) && core.counterModels != [] && core.counterModels[|core.counterModels| - 1] == m
    ensures FalsifiedSet(core.formulas, core.eval, m) != {}
    ensures forall p | p in core.participants :: p < |core.formulas|
  {
    var p :| p in core.toParticipants[|core.counterModels| - 1];
    assert p in FalsifiedSet(core.formulas, core.eval, m);
  }

  // Splitting the transitions into disjuncts.

  function DisjunctsOf(t: Term): seq<Term> {
    if t.NAryOp? && t.nop == Or then t.args else [t]
  }

  function AllDisjuncts(transitions: seq<Term>): (r: seq<seq<Term>>)
    ensures |r| == |transitions| && forall i | 0 <= i < |r| :: r[i] == DisjunctsOf(transitions[i])
  {
    seq(|transitions|, i requires 0 <= i < |transitions| => DisjunctsOf(transitions[i]))
  }

  /** With splitting, all ways to pick one disjunct of each transition formula. */
  function DisjTrans(transitions: seq<Term>, disj: bool): seq<seq<Term>> {
    if disj then Choices(AllDisjuncts(transitions)) else [transitions]
  }

  predicate AllTrue<M>(ts: seq<Term>, eval: (Term, M) -> bool, m: M) {
    forall t | t in ts :: eval(t, m)
  }

  /** A disjunction is true when one of its disjuncts is. */
  ghost predicate RespectsOr<M(!new)>(eval: (Term, M) -> bool) {
    forall args, m :: eval(NAryOp(Or, args), m) <==> exists t :: t in args && eval(t, m)
  }

  ghost predicate SomeTrue<M>(picks: seq<seq<Term>>, eval: (Term, M) -> bool, m: M) {
    exists i :: 0 <= i < |picks| && AllTrue(picks[i], eval, m)
  }

  /** Splitting does not change which steps satisfy all transition formulas. */
  lemma PicksExact<M(!new)>(transitions: seq<Term>, eval: (Term, M) -> bool, m: M)
    requires RespectsOr(eval)
    ensures SomeTrue(Choices(AllDisjuncts(transitions)), eval, m) <==> AllTrue(transitions, eval, m)
  {
    hide DisjunctsOf, RespectsOr;
    var lists := AllDisjuncts(transitions);
    var picks := Choices(lists);
    if SomeTrue(picks, eval, m) {
      var k :| 0 <= k < |picks| && AllTrue(picks[k], eval, m);
      assert picks[k] in picks;
      ChoicesMembers(lists, picks[k]);
      forall t | t in transitions ensures eval(t, m) {
        var i :| 0 <= i < |transitions| && transitions[i] == t;
        assert picks[k][i] in lists[i] && picks[k][i] in picks[k];
        DisjunctsTrue(t, eval, m);
      }
    }
    if AllTrue(transitions, eval, m) {
      forall i | 0 <= i < |transitions| ensures exists d :: d in lists[i] && eval(d, m) {
        assert transitions[i] in transitions;
        DisjunctsTrue(transitions[i], eval, m);
      }
      ghost var pick: seq<Term> := seq(|transitions|, i requires 0 <= i < |transitions| => (var d :| d in lists[i] && eval(d, m); d));
      ChoicesMembers(lists, pick);
      var k :| 0 <= k < |picks| && picks[k] == pick;
      assert AllTrue(picks[k], eval, m);
    }
  }

  lemma DisjunctsTrue<M(!new)>(t: Term, eval: (Term, M) -> bool, m: M)
    requires RespectsOr(eval)
    ensures (exists d :: d in DisjunctsOf(t) && eval(d, m)) <==> eval(t, m)
  {
    if t.NAryOp? && t.nop == Or {
      assert t == NAryOp(Or, t.args);
    } else {
      assert t in DisjunctsOf(t);
    }
  }

  lemma DisjTransExact<M(!new)>(transitions: seq<Term>, disj: bool, eval: (Term, M) -> bool, m: M)
    requires RespectsOr(eval)
    ensures SomeTrue(DisjTrans(transitions, disj), eval, m) <==> AllTrue(transitions, eval, m)
  {
    if disj {
      PicksExact(transitions, eval, m);
    } else {
      hide AllTrue;
      assert DisjTrans(transitions, disj)[0] == transitions;
    }
  }

  // Counterexamples to a transition.

  /** The hypotheses are evaluated before the step. */
  function Before<S>(eval: (Term, S) -> bool): (Term, (S, S)) -> bool {
    (t: Term, m: (S, S)) => eval(t, m.0)
  }

  function Locally<M>(assertions: M -> bool, picked: seq<Term>, evalStep: (Term, M) -> bool): M -> bool {
    (m: M) => assertions(m) && AllTrue(picked, evalStep, m)
  }

  function QueryOf<M>(query: (nat, nat, set<nat>) -> SolverResp<M>, i: nat): (nat, set<nat>) -> SolverResp<M> {
    (n: nat, chosen: set<nat>) => query(i, n, chosen)
  }

  /** A solver that is correct for every choice of disjuncts. */
  ghost predicate CorrectSolvers<S(!new)>(hyp: seq<Term>, eval: (Term, S) -> bool, picks: seq<seq<Term>>, evalStep: (Term, (S, S)) -> bool,
                                    assertions: ((S, S)) -> bool, query: (nat, nat, set<nat>) -> SolverResp<(S, S)>) {
    forall i | 0 <= i < |picks| ::
      CorrectSolver(hyp, Before(eval), Locally(assertions, picks[i], evalStep), QueryOf(query, i))
  }

  ghost predicate Ruled<S(!new)>(hyp: seq<Term>, eval: (Term, S) -> bool, assertions: ((S, S)) -> bool, picked: seq<Term>,
                                 evalStep: (Term, (S, S)) -> bool, core: set<nat>) {
    forall m | assertions(m) && AllTrue(picked, evalStep, m) :: !Satisfies(hyp, Before(eval), core, m)
  }

  ghost predicate TransJustified<S(!new)>(hyp: seq<Term>, eval: (Term, S) -> bool, transitions: seq<Term>, evalStep: (Term, (S, S)) -> bool,
                                    assertions: ((S, S)) -> bool, r: CexResult<(S, S)>) {
    match r
    case Cex(m) => assertions(m) && AllTrue(transitions, evalStep, m) && Satisfies(hyp, Before(eval), Indices(|hyp|), m)
    case UnsatCore(core) => core <= Indices(|hyp|) && Ruled(hyp, eval, assertions, transitions, evalStep, core)
    case Canceled => true
    case Unknown => true
  }

  /** A core may be enlarged. */
  lemma LargerCore<S(!new)>(hyp: seq<Term>, eval: (Term, S) -> bool, assertions: ((S, S)) -> bool, picked: seq<Term>,
                            evalStep: (Term, (S, S)) -> bool, core: set<nat>, larger: set<nat>)
    requires Ruled(hyp, eval, assertions, picked, evalStep, core) && core <= larger
    ensures Ruled(hyp, eval, assertions, picked, evalStep, larger)
  {
    forall m | assertions(m) && AllTrue(picked, evalStep, m) ensures !Satisfies(hyp, Before(eval), larger, m) {
      assert Satisfies(hyp, Before(eval), larger, m) ==> Satisfies(hyp, Before(eval), core, m);
    }
  }

  lemma PickCex<S(!new)>(hyp: seq<Term>, eval: (Term, S) -> bool, transitions: seq<Term>, disj: bool, i: nat,
                         evalStep: (Term, (S, S)) -> bool, assertions: ((S, S)) -> bool, r: CexResult<(S, S)>)
    requires RespectsOr(evalStep) && i < |DisjTrans(transitions, disj)|
    requires Justified(hyp, Before(eval), Locally(assertions, DisjTrans(transitions, disj)[i], evalStep), r)
    ensures r.Cex? ==> TransJustified(hyp, eval, transitions, evalStep, assertions, r)
    ensures r.UnsatCore? ==> r.core <= Indices(|hyp|) && Ruled(hyp, eval, assertions, DisjTrans(transitions, disj)[i], evalStep, r.core)
  {
    hide AllTrue, Satisfies, DisjTrans, RespectsOr;
    if r.Cex? {
      DisjTransExact(transitions, disj, evalStep, r.model);
    }
  }

  lemma AllRuled<S(!new)>(hyp: seq<Term>, eval: (Term, S) -> bool, transitions: seq<Term>, disj: bool,
                          evalStep: (Term, (S, S)) -> bool, assertions: ((S, S)) -> bool, core: set<nat>)
    requires RespectsOr(evalStep)
    requires forall i | 0 <= i < |DisjTrans(transitions, disj)| :: Ruled(hyp, eval, assertions, DisjTrans(transitions, disj)[i], evalStep, core)
    ensures Ruled(hyp, eval, assertions, transitions, evalStep, core)
  {
    hide AllTrue, Satisfies, DisjTrans, RespectsOr;
    forall m | assertions(m) && AllTrue(transitions, evalStep, m) ensures !Satisfies(hyp, Before(eval), core, m) {
      DisjTransExact(transitions, disj, evalStep, m);
    }
  }

  /** Query every choice of disjuncts and combine the results: a counterexample wins, then a
      cancellation, then an unknown; otherwise the cores are joined. */
  method TransCex<S(!new)>(hyp: seq<Term>, eval: (Term, S) -> bool, transitions: seq<Term>, disj: bool, evalStep: (Term, (S, S)) -> bool,
                     query: (nat, nat, set<nat>) -> SolverResp<(S, S)>, gradual: bool, minimal: bool,
                     ghost assertions: ((S, S)) -> bool)
    returns (r: CexResult<(S, S)>)
    requires RespectsOr(evalStep)
    requires CorrectSolvers(hyp, eval, DisjTrans(transitions, disj), evalStep, assertions, query)
    ensures TransJustified(hyp, eval, transitions, evalStep, assertions, r)
    ensures r.Unknown? ==> exists i :: 0 <= i < |DisjTrans(transitions, disj)| && GivesUp(QueryOf(query, i))
    ensures r.Canceled? ==> exists i :: 0 <= i < |DisjTrans(transitions, disj)| && IsKilled(QueryOf(query, i))
  {
    hide RespectsOr, CorrectSolver, Ruled, Justified, DisjTrans, TransJustified, Before, Locally, QueryOf, Indices, GivesUp, IsKilled;
    var picks := DisjTrans(transitions, disj);
    var results: seq<CexResult<(S, S)>> := [];
    while |results| < |picks|
      invariant |results| <= |picks|
      invariant forall i | 0 <= i < |results| :: Justified(hyp, Before(eval), Locally(assertions, picks[i], evalStep), results[i])
      invariant forall i | 0 <= i < |results| ::
        (results[i].Unknown? ==> GivesUp(QueryOf(query, i))) && (results[i].Canceled? ==> IsKilled(QueryOf(query, i)))
    {
      var i := |results|;
      var result, rounds := FindCex(hyp, Before(eval), QueryOf(query, i), gradual, minimal, Locally(assertions, picks[i], evalStep));
      results := results + [result];
    }
    forall i | 0 <= i < |results|
      ensures results[i].Cex? ==> TransJustified(hyp, eval, transitions, evalStep, assertions, results[i])
      ensures results[i].UnsatCore? ==>
        results[i].core <= Indices(|hyp|) && Ruled(hyp, eval, assertions, picks[i], evalStep, results[i].core)
    {
      PickCex(hyp, eval, transitions, disj, i, evalStep, assertions, results[i]);
    }
    var core: set<nat>, canceled, unknown, k := {}, false, false, 0;
    while k < |results|
      invariant k <= |results| && core <= Indices(|hyp|)
      invariant canceled ==> exists i :: 0 <= i < |picks| && IsKilled(QueryOf(query, i))
      invariant unknown ==> exists i :: 0 <= i < |picks| && GivesUp(QueryOf(query, i))
      invariant !canceled && !unknown ==> forall i | 0 <= i < k :: Ruled(hyp, eval, assertions, picks[i], evalStep, core)
    {
      match results[k] {
        case Cex(_) => return results[k];
        case UnsatCore(one) =>
          forall i | 0 <= i <= k && !canceled && !unknown ensures Ruled(hyp, eval, assertions, picks[i], evalStep, core + one) {
            LargerCore(hyp, eval, assertions, picks[i], evalStep, if i < k then core else one, core + one);
          }
          core := core + one;
        case Canceled => canceled := true;
        case Unknown => unknown := true;
      }
      k := k + 1;
    }
    r := if canceled then Canceled else if unknown then Unknown else UnsatCore(core);
    if r.UnsatCore? { AllRuled(hyp, eval, transitions, disj, evalStep, assertions, core); }
    FoldJustified(hyp, eval, transitions, evalStep, assertions, r);
  }

  lemma FoldJustified<S(!new)>(hyp: seq<Term>, eval: (Term, S) -> bool, transitions: seq<Term>, evalStep: (Term, (S, S)) -> bool,
                               assertions: ((S, S)) -> bool, r: CexResult<(S, S)>)
    requires !r.Cex?
    requires r.UnsatCore? ==> r.core <= Indices(|hyp|) && Ruled(hyp, eval, assertions, transitions, evalStep, r.core)
    ensures TransJustified(hyp, eval, transitions, evalStep, assertions, r)
  {
  }
}
