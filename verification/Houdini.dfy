/** Houdini: pruning candidate invariants to the largest inductive subset. */
module HoudiniInference {
  import opened Syntax

  /** A transition system as models: initial models, steps, and the truth of a term in a model. */
  datatype Semantics<!M> = Semantics(init: M -> bool, next: (M, M) -> bool, eval: (Term, M) -> bool)

  datatype Response<+T> = Sat(model: T) | Unsat | Unknown

  /** The answer to a query may depend on how many queries were made before it. */
  datatype Solver<!M> = Solver(ofInit: (nat, Term) -> Response<M>, ofStep: (nat, seq<Term>, Term) -> Response<(M, M)>)

  predicate AllHold<M>(sys: Semantics<M>, invs: seq<Term>, m: M) {
    forall q | q in invs :: sys.eval(q, m)
  }

  ghost predicate HoldsInitially<M(!new)>(sys: Semantics<M>, q: Term) {
    forall m | sys.init(m) :: sys.eval(q, m)
  }

  /** Every step from a model of the invariants leads to a model of `q`. */
  ghost predicate Preserved<M(!new)>(sys: Semantics<M>, invs: seq<Term>, q: Term) {
    forall m, m' | AllHold(sys, invs, m) && sys.next(m, m') :: sys.eval(q, m')
  }

  /** A satisfiable query is answered by any model of it, an unsatisfiable one by `Unsat`, and
      either may remain unknown. */
  ghost predicate CorrectSolver<M(!new)>(sys: Semantics<M>, solver: Solver<M>) {
    && (forall n, q :: match solver.ofInit(n, q)
                       case Sat(m) => sys.init(m) && !sys.eval(q, m)
                       case Unsat => HoldsInitially(sys, q)
                       case Unknown => true)
    && (forall n, invs, q :: match solver.ofStep(n, invs, q)
                             case Sat(step) => AllHold(sys, invs, step.0) && sys.next(step.0, step.1) && !sys.eval(q, step.1)
                             case Unsat => Preserved(sys, invs, q)
                             case Unknown => true)
  }

  /** Some query about an initial state, or about a step, stays unknown. */
  ghost predicate GivesUpOnInit<M(!new)>(solver: Solver<M>) {
    exists n, q :: solver.ofInit(n, q).Unknown?
  }

  ghost predicate GivesUpOnStep<M(!new)>(solver: Solver<M>) {
    exists n, invs, q :: solver.ofStep(n, invs, q).Unknown?
  }

  // Inductive sets of candidates.

  ghost predicate Inductive<M(!new)>(sys: Semantics<M>, s: set<Term>) {
    && (forall q | q in s :: HoldsInitially(sys, q))
    && (forall m, m' | (forall q | q in s :: sys.eval(q, m)) && sys.next(m, m') :: forall q | q in s :: sys.eval(q, m'))
  }

  /** The largest inductive subset of the candidates. */
  ghost predicate Greatest<M(!new)>(sys: Semantics<M>, candidates: set<Term>, s: set<Term>) {
    s <= candidates && Inductive(sys, s) && forall t | t <= candidates && Inductive(sys, t) :: t <= s
  }

  /** There is only one. */
  lemma GreatestUnique<M(!new)>(sys: Semantics<M>, candidates: set<Term>, s: set<Term>, t: set<Term>)
    requires Greatest(sys, candidates, s) && Greatest(sys, candidates, t)
    ensures s == t
  {
  }

  function Elements(invs: seq<Term>): (r: set<Term>)
    ensures forall q :: q in r <==> q in invs
  {
    set q | q in invs
  }

  /** Every inductive subset of the candidates is still contained in what is left. */
  ghost predicate KeepsInductive<M(!new)>(sys: Semantics<M>, candidates: set<Term>, invs: seq<Term>) {
    Elements(invs) <= candidates && forall t | t <= candidates && Inductive(sys, t) :: t <= Elements(invs)
  }

  function Retain(invs: seq<Term>, dropped: set<Term>): (r: seq<Term>)
    ensures forall q :: q in r <==> q in invs && q !in dropped
    ensures |r| <= |invs|
    ensures (exists q :: q in invs && q in dropped) ==> |r| < |invs|
    ensures invs != [] && invs[0] !in dropped ==> r != [] && r[0] == invs[0]
  {
    if invs == [] then [] else (if invs[0] in dropped then [] else [invs[0]]) + Retain(invs[1..], dropped)
  }

  /** Some step from a model of the invariants falsifies `q`. */
  ghost predicate Falsified<M(!new)>(sys: Semantics<M>, invs: seq<Term>, q: Term) {
    exists m, m' :: AllHold(sys, invs, m) && sys.next(m, m') && !sys.eval(q, m')
  }

  /** A falsified candidate is in no inductive subset of what is left. */
  lemma FalsifiedDropped<M(!new)>(sys: Semantics<M>, candidates: set<Term>, invs: seq<Term>, dropped: set<Term>)
    requires KeepsInductive(sys, candidates, invs)
    requires forall q | q in dropped :: Falsified(sys, invs, q)
    ensures KeepsInductive(sys, candidates, Retain(invs, dropped))
  {
    hide Inductive, Falsified;
    forall t, q | t <= candidates && Inductive(sys, t) && q in dropped ensures q !in t {
      FalsifiedOutside(sys, invs, t, q);
    }
  }

  lemma FalsifiedOutside<M(!new)>(sys: Semantics<M>, invs: seq<Term>, t: set<Term>, q: Term)
    requires Inductive(sys, t) && t <= Elements(invs) && Falsified(sys, invs, q)
    ensures q !in t
  {
    var m, m' :| AllHold(sys, invs, m) && sys.next(m, m') && !sys.eval(q, m');
    assert forall p | p in t :: sys.eval(p, m);
  }

  lemma UninitialDropped<M(!new)>(sys: Semantics<M>, candidates: set<Term>, invs: seq<Term>, dropped: set<Term>)
    requires KeepsInductive(sys, candidates, invs)
    requires forall q | q in dropped :: !HoldsInitially(sys, q)
    ensures KeepsInductive(sys, candidates, Retain(invs, dropped))
  {
    hide HoldsInitially;
    forall t, q | t <= candidates && Inductive(sys, t) && q in t ensures q !in dropped {}
  }

  /** At the fixed point what is left is the largest inductive subset. */
  lemma FixedPoint<M(!new)>(sys: Semantics<M>, candidates: set<Term>, invs: seq<Term>)
    requires KeepsInductive(sys, candidates, invs)
    requires forall q | q in invs :: HoldsInitially(sys, q) && Preserved(sys, invs, q)
    ensures Greatest(sys, candidates, Elements(invs))
  {
    var s := Elements(invs);
    forall m, m' | (forall q | q in s :: sys.eval(q, m)) && sys.next(m, m') ensures forall q | q in s :: sys.eval(q, m') {
      forall q | q in s ensures sys.eval(q, m') { assert AllHold(sys, invs, m); }
    }
  }

  // One iteration: the candidates are checked in parallel.

  /** Where the check of one candidate is. */
  datatype Thread<+M> = Waiting | Asking | Pruning(before: M, after: M, position: nat) | Finished

  function Work<M>(t: Thread<M>, n: nat): nat {
    match t
    case Waiting => n + 4
    case Asking => n + 3
    case Pruning(_, _, k) => if k <= n then n + 1 - k + 1 else 1
    case Finished => 0
  }

  function TotalWork<M>(ts: seq<Thread<M>>, n: nat): nat {
    if ts == [] then 0 else Work(ts[0], n) + TotalWork(ts[1..], n)
  }

  lemma {:induction false} WorkDone<M>(ts: seq<Thread<M>>, n: nat, i: nat, t: Thread<M>)
    requires i < |ts| && Work(t, n) < Work(ts[i], n)
    ensures TotalWork(ts[i := t], n) < TotalWork(ts, n)
    decreases i
  {
    if i > 0 {
      assert ts[i := t][1..] == ts[1..][i - 1 := t];
      WorkDone(ts[1..], n, i - 1, t);
    } else {
      assert ts[i := t][1..] == ts[1..];
    }
  }

  /** What is known when the check of `q` is at `t`. */
  ghost predicate ThreadInv<M(!new)>(sys: Semantics<M>, invs: seq<Term>, notImplied: set<Term>, unknown: bool, q: Term, t: Thread<M>) {
    match t
    case Waiting => true
    case Asking => true
    case Pruning(m, m', k) =>
      && AllHold(sys, invs, m) && sys.next(m, m') && !sys.eval(q, m') && k <= |invs|
      && forall j | 0 <= j < k :: !sys.eval(invs[j], m') ==> invs[j] in notImplied
    case Finished => q in notImplied || Preserved(sys, invs, q) || unknown
  }

  ghost predicate ThreadsInv<M(!new)>(sys: Semantics<M>, invs: seq<Term>, notImplied: set<Term>, unknown: bool, ts: seq<Thread<M>>) {
    && |ts| == |invs|
    && (forall i | 0 <= i < |ts| :: ThreadInv(sys, invs, notImplied, unknown, invs[i], ts[i]))
    && (forall q | q in notImplied :: q in invs && Falsified(sys, invs, q))
  }

  datatype HoudiniError = InitInvUnknown | InductiveInvUnknown | NotInductive

  datatype Outcome<+T> = Ok(value: T) | Err(error: HoudiniError)

  class Houdini<M(!new)> {
    const sys: Semantics<M>
    const solver: Solver<M>
    var invs: seq<Term>
    var queries: nat

    constructor (sys: Semantics<M>, solver: Solver<M>, assertion: Term, proofInvs: seq<Term>)
      ensures this.sys == sys && this.solver == solver && invs == [assertion] + proofInvs
    {
      this.sys := sys;
      this.solver := solver;
      invs := [assertion] + proofInvs;
      queries := 0;
    }

    /** Drop the candidates that some initial model falsifies. */
    method InitiationFilter(ghost candidates: set<Term>) returns (r: Outcome<()>)
      requires CorrectSolver(sys, solver) && KeepsInductive(sys, candidates, invs)
      modifies this
      ensures KeepsInductive(sys, candidates, invs)
      ensures r.Ok? ==> forall q | q in invs :: HoldsInitially(sys, q)
      ensures r.Err? ==> r.error == InitInvUnknown && GivesUpOnInit(solver)
      ensures forall q | q in invs :: q in old(invs)
      ensures old(invs) != [] && old(invs)[0] in invs ==> invs[0] == old(invs)[0]
    {
      hide KeepsInductive, HoldsInitially;
      var notImplied: set<Term> := {};
      var i := 0;
      while i < |invs|
        invariant i <= |invs| && invs == old(invs)
        invariant forall q | q in notImplied :: !HoldsInitially(sys, q)
        invariant forall j | 0 <= j < i :: invs[j] in notImplied || HoldsInitially(sys, invs[j])
      {
        if invs[i] !in notImplied {
          queries := queries + 1;
          match solver.ofInit(queries, invs[i]) {
            case Sat(model) =>
              var falsified := set q | q in invs && !sys.eval(q, model);
              FalsifiedInitially(sys, model);
              notImplied := notImplied + falsified;
            case Unsat =>
            case Unknown => return Err(InitInvUnknown);
          }
        }
        i := i + 1;
      }
      UninitialDropped(sys, candidates, invs, notImplied);
      invs := Retain(invs, notImplied);
      r := Ok(());
    }

    /** Check every candidate against the current ones, with the checks interleaved in any way,
        and drop the falsified ones.  The result says whether none was. */
    method InductiveIteration(ghost candidates: set<Term>) returns (r: Outcome<bool>)
      requires CorrectSolver(sys, solver) && KeepsInductive(sys, candidates, invs)
      requires forall q | q in invs :: HoldsInitially(sys, q)
      modifies this
      ensures KeepsInductive(sys, candidates, invs)
      ensures forall q | q in invs :: HoldsInitially(sys, q)
      ensures r == Ok(true) ==> forall q | q in invs :: Preserved(sys, invs, q)
      ensures r == Ok(false) ==> |invs| < |old(invs)|
      ensures r.Err? ==> r.error == InductiveInvUnknown && GivesUpOnStep(solver)
      ensures forall q | q in invs :: q in old(invs)
      ensures old(invs) != [] && old(invs)[0] in invs ==> invs[0] == old(invs)[0]
    {
      hide KeepsInductive, HoldsInitially, Preserved, Falsified, ThreadInv, AllHold;
      var notImplied: set<Term>, unknown := {}, false;
      var threads: seq<Thread<M>> := seq(|invs|, i => Waiting);
      AllWaiting(sys, invs, threads);
      while exists i :: 0 <= i < |threads| && threads[i] != Finished
        invariant invs == old(invs)
        invariant ThreadsInv(sys, invs, notImplied, unknown, threads) && (unknown ==> GivesUpOnStep(solver))
        decreases TotalWork(threads, |invs|)
      {
        var i :| 0 <= i < |threads| && threads[i] != Finished;
        var next, pruned, gaveUp := Finished, notImplied, unknown;
        match threads[i] {
          case Waiting => next := if invs[i] in notImplied then Finished else Asking;
          case Asking =>
            queries := queries + 1;
            match solver.ofStep(queries, invs, invs[i]) {
              case Sat(step) => next := Pruning(step.0, step.1, 0);
              case Unsat => next := Finished;
              case Unknown => gaveUp := true;
            }
          case Pruning(m, m', k) =>
            if k < |invs| {
              if !sys.eval(invs[k], m') { pruned := notImplied + {invs[k]}; }
              next := Pruning(m, m', k + 1);
            }
        }
        ThreadStep(sys, solver, invs, queries, notImplied, unknown, threads, i, next, pruned, gaveUp);
        WorkDone(threads, |invs|, i, next);
        threads, notImplied, unknown := threads[i := next], pruned, gaveUp;
      }
      AllFinished(sys, invs, notImplied, unknown, threads);
      if unknown { return Err(InductiveInvUnknown); }
      if notImplied == {} { return Ok(true); }
      FalsifiedDropped(sys, candidates, invs, notImplied);
      var q :| q in notImplied;
      invs := Retain(invs, notImplied);
      r := Ok(false);
    }
  }

  lemma FalsifiedInitially<M(!new)>(sys: Semantics<M>, m: M)
    requires sys.init(m)
    ensures forall q | !sys.eval(q, m) :: !HoldsInitially(sys, q)
  {
  }

  lemma AllWaiting<M(!new)>(sys: Semantics<M>, invs: seq<Term>, ts: seq<Thread<M>>)
    requires |ts| == |invs| && forall i | 0 <= i < |ts| :: ts[i] == Waiting
    ensures ThreadsInv(sys, invs, {}, false, ts)
  {
  }

  lemma AllFinished<M(!new)>(sys: Semantics<M>, invs: seq<Term>, notImplied: set<Term>, unknown: bool, ts: seq<Thread<M>>)
    requires ThreadsInv(sys, invs, notImplied, unknown, ts)
    requires forall i | 0 <= i < |ts| :: ts[i] == Finished
    ensures !unknown ==> forall q | q in invs :: q in notImplied || Preserved(sys, invs, q)
    ensures forall q | q in notImplied :: q in invs && Falsified(sys, invs, q)
  {
    hide Preserved, Falsified;
    forall q | q in invs && !unknown ensures q in notImplied || Preserved(sys, invs, q) {
      var i :| 0 <= i < |invs| && invs[i] == q;
      assert ThreadInv(sys, invs, notImplied, unknown, invs[i], ts[i]);
    }
  }

  /** What a thread may do next: exactly the steps the method takes. */
  ghost predicate MayStep<M(!new)>(sys: Semantics<M>, solver: Solver<M>, invs: seq<Term>, queries: nat, notImplied: set<Term>, unknown: bool,
                             q: Term, t: Thread<M>, next: Thread<M>, pruned: set<Term>, gaveUp: bool) {
    match t
    case Waiting => next == (if q in notImplied then Finished else Asking) && pruned == notImplied && gaveUp == unknown
    case Asking =>
      && pruned == notImplied
      && (match solver.ofStep(queries, invs, q)
          case Sat(step) => next == Pruning(step.0, step.1, 0) && gaveUp == unknown
          case Unsat => next == Finished && gaveUp == unknown
          case Unknown => next == Finished && gaveUp)
    case Pruning(m, m', k) =>
      && gaveUp == unknown
      && if k < |invs| then
           next == Pruning(m, m', k + 1) && pruned == (if sys.eval(invs[k], m') then notImplied else notImplied + {invs[k]})
         else next == Finished && pruned == notImplied
    case Finished => false
  }

  /** Whichever thread goes next, the invariant is kept and there is less work left. */
  lemma ThreadStep<M(!new)>(sys: Semantics<M>, solver: Solver<M>, invs: seq<Term>, queries: nat, notImplied: set<Term>, unknown: bool,
                      ts: seq<Thread<M>>, i: nat, next: Thread<M>, pruned: set<Term>, gaveUp: bool)
    requires CorrectSolver(sys, solver) && ThreadsInv(sys, invs, notImplied, unknown, ts) && i < |ts|
    requires MayStep(sys, solver, invs, queries, notImplied, unknown, invs[i], ts[i], next, pruned, gaveUp)
    ensures ThreadsInv(sys, invs, pruned, gaveUp, ts[i := next])
    ensures Work(next, |invs|) < Work(ts[i], |invs|)
  {
    OneThread(sys, solver, invs, queries, notImplied, unknown, i, ts[i], next, pruned, gaveUp);
    forall j | 0 <= j < |ts| ensures ThreadInv(sys, invs, pruned, gaveUp, invs[j], ts[i := next][j]) {
      if j != i { MoreImplied(sys, invs, notImplied, pruned, unknown, gaveUp, invs[j], ts[j]); }
    }
  }

  lemma MoreImplied<M(!new)>(sys: Semantics<M>, invs: seq<Term>, notImplied: set<Term>, pruned: set<Term>, unknown: bool, gaveUp: bool,
                       q: Term, t: Thread<M>)
    requires ThreadInv(sys, invs, notImplied, unknown, q, t) && notImplied <= pruned && (unknown ==> gaveUp)
    ensures ThreadInv(sys, invs, pruned, gaveUp, q, t)
  {
  }

  lemma OneThread<M(!new)>(sys: Semantics<M>, solver: Solver<M>, invs: seq<Term>, queries: nat, notImplied: set<Term>, unknown: bool,
                     i: nat, t: Thread<M>, next: Thread<M>, pruned: set<Term>, gaveUp: bool)
    requires CorrectSolver(sys, solver) && i < |invs| && ThreadInv(sys, invs, notImplied, unknown, invs[i], t)
    requires MayStep(sys, solver, invs, queries, notImplied, unknown, invs[i], t, next, pruned, gaveUp)
    requires forall q | q in notImplied :: q in invs && Falsified(sys, invs, q)
    ensures ThreadInv(sys, invs, pruned, gaveUp, invs[i], next)
    ensures notImplied <= pruned && (unknown ==> gaveUp)
    ensures forall q | q in pruned :: q in invs && Falsified(sys, invs, q)
    ensures Work(next, |invs|) < Work(t, |invs|)
  {
    hide Preserved;
    match t
    case Waiting =>
    case Asking =>
    case Pruning(m, m', k) =>
      if k < |invs| {
        if !sys.eval(invs[k], m') {
          assert Falsified(sys, invs, invs[k]);
        }
      }
    case Finished =>
  }

  /** Infer invariants for an assertion.  If no query stays unknown the survivors are the
      largest inductive subset of the candidates, whatever models the solver returns, and the
      inference succeeds exactly when that subset contains the assertion. */
  method Infer<M(!new)>(sys: Semantics<M>, solver: Solver<M>, assertion: Term, proofInvs: seq<Term>) returns (r: Outcome<seq<Term>>)
    requires CorrectSolver(sys, solver)
    ensures r.Ok? ==> Greatest(sys, Elements([assertion] + proofInvs), Elements(r.value)) && assertion in r.value
    ensures r == Err(NotInductive) ==>
      exists s :: Greatest(sys, Elements([assertion] + proofInvs), s) && assertion !in s
    ensures r == Err(InitInvUnknown) ==> GivesUpOnInit(solver)
    ensures r == Err(InductiveInvUnknown) ==> GivesUpOnStep(solver)
  {
    hide KeepsInductive, HoldsInitially, Preserved, CorrectSolver, Greatest;
    ghost var candidates := Elements([assertion] + proofInvs);
    var state := new Houdini(sys, solver, assertion, proofInvs);
    KeepsAll(sys, state.invs);
    var init := state.InitiationFilter(candidates);
    if init.Err? { return Err(init.error); }
    var done := false;
    while !done
      invariant state.sys == sys && state.solver == solver && fresh(state)
      invariant KeepsInductive(sys, candidates, state.invs)
      invariant forall q | q in state.invs :: HoldsInitially(sys, q)
      invariant assertion in state.invs ==> state.invs[0] == assertion
      invariant done ==> forall q | q in state.invs :: Preserved(sys, state.invs, q)
      decreases !done, |state.invs|
    {
      var result := state.InductiveIteration(candidates);
      if result.Err? { return Err(result.error); }
      done := result.value;
    }
    FixedPoint(sys, candidates, state.invs);
    if state.invs == [] || state.invs[0] != assertion {
      assert assertion !in Elements(state.invs);
      return Err(NotInductive);
    }
    r := Ok(state.invs);
  }

  lemma KeepsAll<M(!new)>(sys: Semantics<M>, invs: seq<Term>)
    ensures KeepsInductive(sys, Elements(invs), invs)
  {
    hide Inductive;
  }
}
