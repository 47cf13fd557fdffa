/** Breadth-first search over bit-vector states that visits one state of every orbit of
    isomorphic states. */
module Search {
  import opened Collections
  import opened Guarded
  import opened Translation
  import opened TransitionTranslation
  import opened GuardTries

  datatype Program = Program(inits: seq<State>, trs: seq<Transition>, safe: Formula)

  /** Copy instructions from one index to another. */
  type Ordering = seq<(nat, nat)>

  function CopyBits(ordering: Ordering, x: State, y: State): (r: State)
    ensures |r| == |y|
    decreases |ordering|
  {
    if ordering == [] then y
    else CopyBits(ordering[1..], x, SetBit(y, ordering[0].1, Bit(x, ordering[0].0)))
  }

  /** The state isomorphic to `x` under an ordering. */
  function Act(ordering: Ordering, x: State): (r: State)
    ensures |r| == |x|
  {
    CopyBits(ordering, x, x)
  }

  function Orbit(orderings: seq<Ordering>, x: State): (r: set<State>)
    ensures forall y | y in r :: |y| == |x|
  {
    set o | o in orderings :: Act(o, x)
  }

  /** Answers whether a state isomorphic to a given one was seen before. */
  class IsoStateSet {
    var set_: set<State>
    const orderings: seq<Ordering>

    constructor (orderings: seq<Ordering>)
      ensures set_ == {} && this.orderings == orderings
    {
      set_ := {};
      this.orderings := orderings;
    }

    /** Adds the whole orbit of a new state. */
    method Insert(x: State) returns (isNew: bool)
      modifies this
      ensures isNew <==> x !in old(set_)
      ensures set_ == if isNew then old(set_) + Orbit(orderings, x) else old(set_)
    {
      if x in set_ { return false; }
      var i := 0;
      while i < |orderings|
        invariant i <= |orderings|
        invariant set_ == old(set_) + Orbit(orderings[..i], x)
      {
        var y, j := x, 0;
        while j < |orderings[i]|
          invariant j <= |orderings[i]|
          invariant CopyBits(orderings[i][j..], x, y) == Act(orderings[i], x)
        {
          var (src, dst) := orderings[i][j];
          y := SetBit(y, dst, Bit(x, src));
          assert orderings[i][j..][1..] == orderings[i][j + 1..];
          j := j + 1;
        }
        set_ := set_ + {y};
        assert orderings[..i + 1] == orderings[..i] + [orderings[i]];
        i := i + 1;
      }
      assert orderings[..i] == orderings;
      isNew := true;
    }
  }

  // Runs.

  predicate ProgramStep(p: Program, s: State, s': State) {
    SomeSteps(p.trs, s, s')
  }

  ghost predicate IsRun(p: Program, run: seq<State>) {
    && run != [] && run[0] in p.inits
    && forall i | 0 <= i < |run| - 1 :: ProgramStep(p, run[i], run[i + 1])
  }

  function Last(run: seq<State>): State
    requires run != []
  {
    run[|run| - 1]
  }

  /** A run whose last state is unsafe. */
  ghost predicate Bug(p: Program, run: seq<State>) {
    IsRun(p, run) && !Evaluate(p.safe, Last(run))
  }

  /** The states a search stays in: of the same length, and with a property of the caller's. */
  datatype Space = Space(n: nat, legal: State -> bool) {
    predicate Has(x: State) {
      |x| == n && legal(x)
    }
  }

  /** The orbits partition the states of a space. */
  ghost predicate Partition(orderings: seq<Ordering>, space: Space) {
    && (forall x | space.Has(x) :: x in Orbit(orderings, x))
    && (forall x, y | space.Has(x) && y in Orbit(orderings, x) :: space.Has(y) && Orbit(orderings, y) == Orbit(orderings, x))
  }

  /** Steps stay in the space. */
  ghost predicate Closed(p: Program, space: Space) {
    && (forall x | x in p.inits :: space.Has(x))
    && (forall x, y | space.Has(x) && ProgramStep(p, x, y) :: space.Has(y))
  }

  /** Safety and steps do not tell the states of an orbit apart. */
  ghost predicate Symmetric(p: Program, orderings: seq<Ordering>, space: Space) {
    && (forall x, y | space.Has(x) && y in Orbit(orderings, x) :: Evaluate(p.safe, x) == Evaluate(p.safe, y))
    && (forall x, y, y' | space.Has(x) && y in Orbit(orderings, x) && ProgramStep(p, y, y') ::
          exists x' :: ProgramStep(p, x, x') && y' in Orbit(orderings, x'))
  }

  predicate Within(depth: nat, bound: Option<nat>) {
    bound.Some? ==> depth < bound.value
  }

  // Traces.

  datatype Trace = Full(states: seq<State>) | Compressed(state: State, depth: nat)

  function NewTrace(s: State, compress: bool): Trace {
    if compress then Compressed(s, 0) else Full([s])
  }

  function Depth(t: Trace): int {
    match t case Compressed(_, n) => n case Full(states) => |states| - 1
  }

  predicate Traces(t: Trace, run: seq<State>) {
    run != [] && match t case Compressed(s, n) => s == Last(run) && n == |run| - 1 case Full(states) => states == run
  }

  function LastState(t: Trace): State
    requires t.Full? ==> t.states != []
  {
    match t case Compressed(s, _) => s case Full(states) => Last(states)
  }

  function Push(t: Trace, s: State): Trace {
    match t case Compressed(_, n) => Compressed(s, n + 1) case Full(states) => Full(states + [s])
  }

  datatype InterpreterResult = Counterexample(trace: Trace) | Unknown | Convergence

  // The invariant of the search.

  /** What the search knows: the seen states with the depth at which their orbit was reached,
      those whose successors are all seen, and a run for every trace in the queue. */
  datatype Frontier = Frontier(seen: set<State>, dist: State -> nat, expanded: set<State>, runs: seq<seq<State>>)

  /** The orbit of `s` is seen, at the depth of `s`. */
  ghost predicate OrbitSeen(f: Frontier, orderings: seq<Ordering>, s: State) {
    forall y | y in Orbit(orderings, s) :: y in f.seen && f.dist(y) == f.dist(s)
  }

  ghost predicate SeenInv(f: Frontier, orderings: seq<Ordering>, space: Space) {
    forall s | s in f.seen :: space.Has(s) && OrbitSeen(f, orderings, s)
  }

  ghost predicate QueueInv(f: Frontier, p: Program, d: nat, bound: Option<nat>) {
    && (forall i | 0 <= i < |f.runs| ::
          IsRun(p, f.runs[i]) && Last(f.runs[i]) in f.seen
          && f.dist(Last(f.runs[i])) == |f.runs[i]| - 1
          && d <= |f.runs[i]| - 1 <= d + 1 && (bound.Some? ==> |f.runs[i]| - 1 <= bound.value))
    && (forall i, j | 0 <= i < j < |f.runs| :: |f.runs[i]| <= |f.runs[j]|)
  }

  ghost predicate Queued(f: Frontier, orderings: seq<Ordering>, s: State) {
    exists i :: 0 <= i < |f.runs| && f.runs[i] != [] && s in Orbit(orderings, Last(f.runs[i]))
  }

  ghost predicate CoverInv(f: Frontier, orderings: seq<Ordering>, pending: set<State>) {
    forall s | s in f.seen :: s in f.expanded || s in pending || Queued(f, orderings, s)
  }

  ghost predicate SuccessorsSeen(f: Frontier, p: Program, s: State) {
    s in f.seen
    && forall s' | ProgramStep(p, s, s') :: s' in f.seen && f.dist(s') <= f.dist(s) + 1
  }

  ghost predicate ExpandedInv(f: Frontier, p: Program, d: nat, bound: Option<nat>) {
    && forall s | s in f.expanded ::
         s in f.seen && f.dist(s) <= d && Evaluate(p.safe, s) && (Within(f.dist(s), bound) ==> SuccessorsSeen(f, p, s))
  }

  ghost predicate InitsInv(f: Frontier, p: Program) {
    forall s | s in p.inits :: s in f.seen && f.dist(s) == 0
  }

  ghost predicate Inv(f: Frontier, p: Program, orderings: seq<Ordering>, space: Space, d: nat, bound: Option<nat>, pending: set<State>) {
    && SeenInv(f, orderings, space) && QueueInv(f, p, d, bound) && CoverInv(f, orderings, pending)
    && ExpandedInv(f, p, d, bound)
  }

  ghost function DistWith(f: Frontier, orbit: set<State>, depth: nat, y: State): nat {
    if y in orbit then depth else f.dist(y)
  }

  ghost function AddOrbit(f: Frontier, orderings: seq<Ordering>, s: State, depth: nat): Frontier {
    var orbit := Orbit(orderings, s);
    f.(seen := f.seen + orbit, dist := (y: State) => DistWith(f, orbit, depth, y))
  }

  ghost function Pushed(f: Frontier, orderings: seq<Ordering>, run: seq<State>): Frontier
    requires run != []
  {
    AddOrbit(f, orderings, Last(run), |run| - 1).(runs := f.runs + [run])
  }

  lemma PartitionSelf(orderings: seq<Ordering>, space: Space, x: State)
    requires Partition(orderings, space) && space.Has(x)
    ensures x in Orbit(orderings, x)
  {
    hide Orbit;
  }

  lemma PartitionSame(orderings: seq<Ordering>, space: Space, x: State, y: State)
    requires Partition(orderings, space) && space.Has(x) && y in Orbit(orderings, x)
    ensures space.Has(y) && Orbit(orderings, y) == Orbit(orderings, x)
  {
    hide Orbit;
  }

  lemma OrbitFresh(f: Frontier, orderings: seq<Ordering>, space: Space, s: State, y: State)
    requires SeenInv(f, orderings, space) && Partition(orderings, space)
    requires s !in f.seen && space.Has(s) && y in Orbit(orderings, s)
    ensures y !in f.seen && space.Has(y) && Orbit(orderings, y) == Orbit(orderings, s)
  {
    hide Orbit, Partition;
    PartitionSelf(orderings, space, s);
    PartitionSame(orderings, space, s, y);
  }

  lemma SeenAt(f: Frontier, orderings: seq<Ordering>, space: Space, s: State, y: State)
    requires SeenInv(f, orderings, space) && s in f.seen && y in Orbit(orderings, s)
    ensures space.Has(s) && y in f.seen && f.dist(y) == f.dist(s)
  {
    hide Orbit;
  }

  lemma NotInOrbit(f: Frontier, orderings: seq<Ordering>, space: Space, s: State, x: State)
    requires SeenInv(f, orderings, space) && Partition(orderings, space)
    requires s !in f.seen && space.Has(s) && x in f.seen
    ensures x !in Orbit(orderings, s)
  {
    hide Orbit, Partition, SeenInv;
    if x in Orbit(orderings, s) { OrbitFresh(f, orderings, space, s, x); }
  }

  lemma PushedSets(f: Frontier, orderings: seq<Ordering>, run: seq<State>)
    requires run != []
    ensures var g := Pushed(f, orderings, run);
            g.seen == f.seen + Orbit(orderings, Last(run))
  {
    hide Orbit;
  }

  lemma PushedOld(f: Frontier, orderings: seq<Ordering>, run: seq<State>, x: State)
    requires run != [] && x in f.seen && x !in Orbit(orderings, Last(run))
    ensures var g := Pushed(f, orderings, run); g.dist(x) == f.dist(x)
  {
    hide Orbit;
  }

  lemma PushedNew(f: Frontier, orderings: seq<Ordering>, run: seq<State>, x: State)
    requires run != [] && x in Orbit(orderings, Last(run))
    ensures var g := Pushed(f, orderings, run); g.dist(x) == |run| - 1
  {
    hide Orbit;
  }

  lemma PushedAt(f: Frontier, orderings: seq<Ordering>, space: Space, run: seq<State>, x: State, y: State)
    requires SeenInv(f, orderings, space) && Partition(orderings, space)
    requires run != [] && Last(run) !in f.seen && space.Has(Last(run))
    requires x in f.seen + Orbit(orderings, Last(run)) && y in Orbit(orderings, x)
    ensures var g := Pushed(f, orderings, run);
            y in g.seen && g.dist(y) == g.dist(x)
  {
    hide *;
    PushedSets(f, orderings, run);
    if x in f.seen {
      SeenAt(f, orderings, space, x, y);
      NotInOrbit(f, orderings, space, Last(run), x);
      NotInOrbit(f, orderings, space, Last(run), y);
      PushedOld(f, orderings, run, x);
      PushedOld(f, orderings, run, y);
    } else {
      OrbitFresh(f, orderings, space, Last(run), x);
      PushedNew(f, orderings, run, x);
      PushedNew(f, orderings, run, y);
    }
  }

  lemma PushSeen(f: Frontier, orderings: seq<Ordering>, space: Space, run: seq<State>)
    requires SeenInv(f, orderings, space) && Partition(orderings, space)
    requires run != [] && Last(run) !in f.seen && space.Has(Last(run))
    ensures SeenInv(Pushed(f, orderings, run), orderings, space)
  {
    var g := Pushed(f, orderings, run);
    PushedSets(f, orderings, run);
    forall x | x in g.seen ensures space.Has(x) && OrbitSeen(g, orderings, x) {
      assert x in f.seen ==> space.Has(x);
      hide Orbit, Pushed, Partition, SeenInv;
      forall y | y in Orbit(orderings, x) ensures y in g.seen && g.dist(y) == g.dist(x) {
        PushedAt(f, orderings, space, run, x, y);
      }
    }
  }

  lemma PushKeeps(f: Frontier, orderings: seq<Ordering>, space: Space, run: seq<State>)
    requires SeenInv(f, orderings, space) && Partition(orderings, space)
    requires run != [] && Last(run) !in f.seen && space.Has(Last(run))
    ensures var g := Pushed(f, orderings, run);
            && Last(run) in g.seen && g.dist(Last(run)) == |run| - 1
            && f.seen <= g.seen && forall x | x in f.seen :: g.dist(x) == f.dist(x)
  {
    hide *;
    var g := Pushed(f, orderings, run);
    PushedSets(f, orderings, run);
    PartitionSelf(orderings, space, Last(run));
    PushedNew(f, orderings, run, Last(run));
    forall x | x in f.seen ensures g.dist(x) == f.dist(x) {
      NotInOrbit(f, orderings, space, Last(run), x);
      PushedOld(f, orderings, run, x);
    }
  }

  lemma SameSeen(f: Frontier, g: Frontier, orderings: seq<Ordering>, space: Space)
    requires SeenInv(f, orderings, space) && g.seen == f.seen && g.dist == f.dist
    ensures SeenInv(g, orderings, space)
  {
    hide Orbit;
  }

  lemma PushQueue(f: Frontier, g: Frontier, p: Program, d: nat, bound: Option<nat>, run: seq<State>)
    requires QueueInv(f, p, d, bound)
    requires f.seen <= g.seen && forall x | x in f.seen :: g.dist(x) == f.dist(x)
    requires g.runs == f.runs + [run]
    requires IsRun(p, run) && Last(run) in g.seen && g.dist(Last(run)) == |run| - 1
    requires d <= |run| - 1 <= d + 1 && (bound.Some? ==> |run| - 1 <= bound.value)
    requires forall i | 0 <= i < |f.runs| :: |f.runs[i]| <= |run|
    ensures QueueInv(g, p, d, bound)
  {
    hide ProgramStep;
    forall i | 0 <= i < |g.runs| ensures i < |f.runs| ==> g.runs[i] == f.runs[i] {}
  }

  lemma PushCover(f: Frontier, orderings: seq<Ordering>, pending: set<State>, run: seq<State>)
    requires run != [] && CoverInv(f, orderings, pending)
    ensures CoverInv(Pushed(f, orderings, run), orderings, pending)
  {
    var g := Pushed(f, orderings, run);
    forall y | y in g.seen ensures y in g.expanded || y in pending || Queued(g, orderings, y) {
      if y in Orbit(orderings, Last(run)) {
        assert g.runs[|f.runs|] == run;
      } else if Queued(f, orderings, y) {
        var i :| 0 <= i < |f.runs| && f.runs[i] != [] && y in Orbit(orderings, Last(f.runs[i]));
        assert g.runs[i] == f.runs[i];
      }
    }
  }

  lemma GrowExpanded(f: Frontier, g: Frontier, p: Program, d: nat, d': nat, bound: Option<nat>)
    requires ExpandedInv(f, p, d, bound) && f.seen <= g.seen && d <= d'
    requires g.expanded == f.expanded && forall x | x in f.seen :: g.dist(x) == f.dist(x)
    ensures ExpandedInv(g, p, d', bound)
  {
    hide ProgramStep;
    forall x | x in g.expanded && Within(g.dist(x), bound) ensures SuccessorsSeen(g, p, x) {
      assert SuccessorsSeen(f, p, x);
    }
  }

  /** Putting a new state with its orbit at the end of the queue. */
  lemma PushInv(f: Frontier, p: Program, orderings: seq<Ordering>, space: Space, d: nat, bound: Option<nat>, pending: set<State>,
                run: seq<State>)
    requires Inv(f, p, orderings, space, d, bound, pending) && Partition(orderings, space)
    requires IsRun(p, run) && Last(run) !in f.seen && space.Has(Last(run))
    requires d <= |run| - 1 <= d + 1 && (bound.Some? ==> |run| - 1 <= bound.value)
    requires forall i | 0 <= i < |f.runs| :: |f.runs[i]| <= |run|
    ensures Inv(Pushed(f, orderings, run), p, orderings, space, d, bound, pending)
    ensures var g := Pushed(f, orderings, run); f.seen <= g.seen && forall x | x in f.seen :: g.dist(x) == f.dist(x)
  {
    hide IsRun, QueueInv, CoverInv, Partition;
    PushSeen(f, orderings, space, run);
    PushKeeps(f, orderings, space, run);
    PushQueue(f, Pushed(f, orderings, run), p, d, bound, run);
    PushCover(f, orderings, pending, run);
    GrowExpanded(f, Pushed(f, orderings, run), p, d, d, bound);
  }

  lemma PopQueue(f: Frontier, p: Program, d: nat, bound: Option<nat>)
    requires QueueInv(f, p, d, bound) && f.runs != []
    ensures f.runs[0] != [] && d <= |f.runs[0]| - 1 <= d + 1
    ensures QueueInv(f.(runs := f.runs[1..]), p, |f.runs[0]| - 1, bound)
  {
    hide ProgramStep;
    var g := f.(runs := f.runs[1..]);
    assert IsRun(p, f.runs[0]);
    forall i | 0 <= i < |g.runs| ensures g.runs[i] == f.runs[i + 1] && |f.runs[0]| <= |g.runs[i]| {}
  }

  lemma PopCover(f: Frontier, orderings: seq<Ordering>)
    requires CoverInv(f, orderings, {}) && f.runs != [] && f.runs[0] != []
    ensures CoverInv(f.(runs := f.runs[1..]), orderings, Orbit(orderings, Last(f.runs[0])))
  {
    var g := f.(runs := f.runs[1..]);
    forall s | s in g.seen
      ensures s in g.expanded || s in Orbit(orderings, Last(f.runs[0])) || Queued(g, orderings, s)
    {
      if Queued(f, orderings, s) {
        var i :| 0 <= i < |f.runs| && f.runs[i] != [] && s in Orbit(orderings, Last(f.runs[i]));
        if i > 0 { assert g.runs[i - 1] == f.runs[i]; }
      }
    }
  }

  /** Taking the first trace off the queue. */
  lemma PopInv(f: Frontier, p: Program, orderings: seq<Ordering>, space: Space, d: nat, bound: Option<nat>)
    requires Inv(f, p, orderings, space, d, bound, {}) && f.runs != []
    ensures f.runs[0] != [] && d <= |f.runs[0]| - 1 <= d + 1
    ensures Inv(f.(runs := f.runs[1..]), p, orderings, space, |f.runs[0]| - 1, bound, Orbit(orderings, Last(f.runs[0])))
  {
    hide QueueInv, CoverInv;
    PopQueue(f, p, d, bound);
    PopCover(f, orderings);
    GrowExpanded(f, f.(runs := f.runs[1..]), p, d, |f.runs[0]| - 1, bound);
  }

  lemma FinishCover(f: Frontier, orderings: seq<Ordering>, x: State)
    requires CoverInv(f, orderings, Orbit(orderings, x))
    ensures CoverInv(f.(expanded := f.expanded + Orbit(orderings, x)), orderings, {})
  {
    var g := f.(expanded := f.expanded + Orbit(orderings, x));
    forall s | s in g.seen ensures s in g.expanded || Queued(g, orderings, s) {
      if Queued(f, orderings, s) {
        var i :| 0 <= i < |f.runs| && f.runs[i] != [] && s in Orbit(orderings, Last(f.runs[i]));
        assert g.runs[i] == f.runs[i];
      }
    }
  }

  lemma OrbitSuccessors(f: Frontier, p: Program, orderings: seq<Ordering>, space: Space, x: State, y: State)
    requires SeenInv(f, orderings, space) && Symmetric(p, orderings, space)
    requires x in f.seen && y in Orbit(orderings, x) && SuccessorsSeen(f, p, x)
    ensures SuccessorsSeen(f, p, y)
  {
    hide ProgramStep;
    assert y in f.seen && f.dist(y) == f.dist(x);
    forall y' | ProgramStep(p, y, y') ensures y' in f.seen && f.dist(y') <= f.dist(y) + 1 {
      var x' :| ProgramStep(p, x, x') && y' in Orbit(orderings, x');
      assert x' in f.seen;
    }
  }

  /** When the successors of one state are seen, so are those of its orbit. */
  lemma FinishInv(f: Frontier, p: Program, orderings: seq<Ordering>, space: Space, d: nat, bound: Option<nat>, x: State)
    requires Inv(f, p, orderings, space, d, bound, Orbit(orderings, x)) && Symmetric(p, orderings, space)
    requires x in f.seen && f.dist(x) == d && Evaluate(p.safe, x)
    requires Within(d, bound) ==> SuccessorsSeen(f, p, x)
    ensures Inv(f.(expanded := f.expanded + Orbit(orderings, x)), p, orderings, space, d, bound, {})
  {
    hide ProgramStep, CoverInv, QueueInv, SeenInv, ExpandedInv, SuccessorsSeen, Symmetric, Orbit;
    var g := f.(expanded := f.expanded + Orbit(orderings, x));
    SameSeen(f, g, orderings, space);
    FinishCover(f, orderings, x);
    FinishQueue(f, g, p, d, bound);
    FinishExpanded(f, p, orderings, space, d, bound, x);
  }

  lemma FinishExpanded(f: Frontier, p: Program, orderings: seq<Ordering>, space: Space, d: nat, bound: Option<nat>, x: State)
    requires SeenInv(f, orderings, space) && ExpandedInv(f, p, d, bound) && Symmetric(p, orderings, space)
    requires x in f.seen && f.dist(x) == d && Evaluate(p.safe, x)
    requires Within(d, bound) ==> SuccessorsSeen(f, p, x)
    ensures ExpandedInv(f.(expanded := f.expanded + Orbit(orderings, x)), p, d, bound)
  {
    hide ProgramStep;
    var g := f.(expanded := f.expanded + Orbit(orderings, x));
    forall y | y in Orbit(orderings, x)
      ensures y in f.seen && f.dist(y) == d && Evaluate(p.safe, y)
      ensures Within(d, bound) ==> SuccessorsSeen(f, p, y)
    {
      if Within(d, bound) { OrbitSuccessors(f, p, orderings, space, x, y); }
    }
    forall y | y in g.expanded && Within(g.dist(y), bound) ensures SuccessorsSeen(g, p, y) {
      assert SuccessorsSeen(f, p, y);
    }
  }

  lemma FinishQueue(f: Frontier, g: Frontier, p: Program, d: nat, bound: Option<nat>)
    requires QueueInv(f, p, d, bound) && g.seen == f.seen && g.dist == f.dist && g.runs == f.runs
    ensures QueueInv(g, p, d, bound)
  {
    hide IsRun;
    forall i | 0 <= i < |g.runs| ensures g.runs[i] == f.runs[i] {}
  }

  /** Every state a run reaches within the expanded depths has been seen, no later than the
      run reaches it. */
  lemma {:induction false} RunSeen(f: Frontier, p: Program, run: seq<State>, limit: nat)
    requires InitsInv(f, p) && IsRun(p, run) && |run| - 1 <= limit
    requires forall s | s in f.seen && f.dist(s) < limit :: SuccessorsSeen(f, p, s)
    ensures Last(run) in f.seen && f.dist(Last(run)) <= |run| - 1
    decreases |run|
  {
    if |run| > 1 {
      var front := run[..|run| - 1];
      assert IsRun(p, front);
      RunSeen(f, p, front, limit);
      assert ProgramStep(p, run[|run| - 2], run[|run| - 1]);
      assert SuccessorsSeen(f, p, Last(front));
    }
  }

  /** All runs of up to `limit` steps end in safe states. */
  ghost predicate SafeUpTo(p: Program, limit: nat) {
    forall run | Bug(p, run) :: |run| - 1 > limit
  }

  ghost predicate SafeForever(p: Program) {
    forall run :: !Bug(p, run)
  }

  /** When a trace of depth `d` is taken off the queue, no shorter run is unsafe. */
  lemma NoShorterBug(f: Frontier, p: Program, orderings: seq<Ordering>, space: Space, d: nat, bound: Option<nat>, pending: set<State>,
                     run: seq<State>)
    requires Inv(f, p, orderings, space, d, bound, pending) && InitsInv(f, p)
    requires forall s | s in pending && s in f.seen :: f.dist(s) == d
    requires bound.Some? ==> d <= bound.value
    requires |run| - 1 < d
    ensures !Bug(p, run)
  {
    hide ProgramStep, IsRun;
    forall s | s in f.seen && f.dist(s) < d ensures s in f.expanded && SuccessorsSeen(f, p, s) {
      assert !Queued(f, orderings, s);
    }
    if Bug(p, run) {
      NonEmptyRun(p, run);
      RunSeen(f, p, run, |run| - 1);
    }
  }

  /** When the queue is empty the expanded states are all there is up to the bound. */
  lemma NothingLeft(f: Frontier, p: Program, orderings: seq<Ordering>, space: Space, d: nat, bound: Option<nat>, run: seq<State>)
    requires Inv(f, p, orderings, space, d, bound, {}) && InitsInv(f, p) && f.runs == []
    requires Within(d, bound) || |run| - 1 <= bound.value
    ensures !Bug(p, run)
  {
    hide ProgramStep, IsRun;
    if Bug(p, run) {
      NonEmptyRun(p, run);
      var limit := |run| - 1;
      forall s | s in f.seen && f.dist(s) < limit ensures s in f.expanded && SuccessorsSeen(f, p, s) {}
      forall s | s in f.seen ensures s in f.expanded {}
      RunSeen(f, p, run, limit);
    }
  }

  lemma NonEmptyRun(p: Program, run: seq<State>)
    requires IsRun(p, run)
    ensures run != []
  {
  }

  ghost function AllStates(n: nat): set<State> {
    if n == 0 then {[]}
    else (set s | s in AllStates(n - 1) :: s + [false]) + (set s | s in AllStates(n - 1) :: s + [true])
  }

  lemma {:induction false} AllStatesComplete(s: State)
    ensures s in AllStates(|s|)
  {
    if s != [] {
      var front := s[..|s| - 1];
      AllStatesComplete(front);
      var last := s[|s| - 1];
      assert s == front + [last];
      assert s in (set t | t in AllStates(|front|) :: t + [last]);
      assert last ==> s in (set t | t in AllStates(|front|) :: t + [true]);
      assert !last ==> s in (set t | t in AllStates(|front|) :: t + [false]);
    }
  }

  // How deep the seen states are.

  /** Every seen state is in the orbit of one that a run reaches at its depth. */
  ghost predicate Reached(f: Frontier, p: Program, orderings: seq<Ordering>) {
    forall s | s in f.seen :: ReachedAt(f, p, orderings, s)
  }

  ghost predicate ReachedAt(f: Frontier, p: Program, orderings: seq<Ordering>, s: State) {
    exists run :: run != [] && IsRun(p, run) && |run| - 1 == f.dist(s) && s in Orbit(orderings, Last(run))
  }

  lemma PushReached(f: Frontier, p: Program, orderings: seq<Ordering>, space: Space, run: seq<State>)
    requires Reached(f, p, orderings) && SeenInv(f, orderings, space) && Partition(orderings, space)
    requires run != [] && IsRun(p, run) && Last(run) !in f.seen && space.Has(Last(run))
    ensures Reached(Pushed(f, orderings, run), p, orderings)
  {
    hide *;
    var g := Pushed(f, orderings, run);
    PushedSets(f, orderings, run);
    PushKeeps(f, orderings, space, run);
    forall s | s in g.seen ensures ReachedAt(g, p, orderings, s) {
      if s in f.seen {
        ReachedSame(f, g, p, orderings, s);
      } else {
        PushedNew(f, orderings, run, s);
        FoldReached(g, p, orderings, run, s);
      }
    }
    FoldAllReached(g, p, orderings);
  }

  lemma ReachedSame(f: Frontier, g: Frontier, p: Program, orderings: seq<Ordering>, s: State)
    requires Reached(f, p, orderings) && s in f.seen && g.dist(s) == f.dist(s)
    ensures ReachedAt(g, p, orderings, s)
  {
    hide IsRun, Orbit;
    assert ReachedAt(f, p, orderings, s);
  }

  lemma FoldReached(f: Frontier, p: Program, orderings: seq<Ordering>, run: seq<State>, s: State)
    requires run != [] && IsRun(p, run) && |run| - 1 == f.dist(s) && s in Orbit(orderings, Last(run))
    ensures ReachedAt(f, p, orderings, s)
  {
    hide IsRun, Orbit;
  }

  lemma FoldAllReached(f: Frontier, p: Program, orderings: seq<Ordering>)
    requires forall s | s in f.seen :: ReachedAt(f, p, orderings, s)
    ensures Reached(f, p, orderings)
  {
    hide ReachedAt;
  }

  lemma SameReached(f: Frontier, g: Frontier, p: Program, orderings: seq<Ordering>)
    requires Reached(f, p, orderings) && InitsInv(f, p) && g.seen == f.seen && g.dist == f.dist
    ensures Reached(g, p, orderings) && InitsInv(g, p)
  {
    hide IsRun, Orbit;
    forall s | s in g.seen ensures ReachedAt(g, p, orderings, s) { ReachedSame(f, g, p, orderings, s); }
  }

  /** When the queue is empty, a run whose orbit is first reached with its last step ends at the
      depth it has, and the other way around. */
  lemma NewestDepth(f: Frontier, p: Program, orderings: seq<Ordering>, space: Space, d: nat, bound: nat, deepest: State)
    requires Inv(f, p, orderings, space, d, Some(bound), {}) && InitsInv(f, p) && f.runs == [] && Reached(f, p, orderings)
    requires 0 < bound && d <= bound && (d > 0 ==> deepest in f.seen && f.dist(deepest) == d)
    ensures FirstReachedAt(p, orderings, bound) <==> d == bound
  {
    hide *;
    AllExpanded(f, p, orderings, space, d, bound);
    SeenPart(f, p, orderings, space, d, Some(bound), {});
    if d == bound {
      ReachedRun(f, p, orderings, deepest);
      var run :| run != [] && IsRun(p, run) && |run| - 1 == d && deepest in Orbit(orderings, Last(run));
      DeepestNew(f, p, orderings, space, bound, deepest, run);
      FoldFirst(p, orderings, run, bound);
    }
    if FirstReachedAt(p, orderings, bound) {
      var run := FirstRun(p, orderings, bound);
      RunSeen(f, p, run, bound);
      ReachedRun(f, p, orderings, Last(run));
      var other :| other != [] && IsRun(p, other) && |other| - 1 == f.dist(Last(run)) && Last(run) in Orbit(orderings, Last(other));
      OrbitBefore(p, orderings, run, other);
    }
  }

  lemma ReachedRun(f: Frontier, p: Program, orderings: seq<Ordering>, s: State)
    requires Reached(f, p, orderings) && s in f.seen
    ensures exists run :: run != [] && IsRun(p, run) && |run| - 1 == f.dist(s) && s in Orbit(orderings, Last(run))
  {
    hide IsRun, Orbit;
    assert ReachedAt(f, p, orderings, s);
  }

  lemma FirstRun(p: Program, orderings: seq<Ordering>, d: nat) returns (run: seq<State>)
    requires FirstReachedAt(p, orderings, d)
    ensures IsRun(p, run) && |run| == d + 1 && UnreachedBefore(p, orderings, run)
  {
    hide IsRun, UnreachedBefore;
    run :| IsRun(p, run) && |run| == d + 1 && UnreachedBefore(p, orderings, run);
  }

  lemma FoldFirst(p: Program, orderings: seq<Ordering>, run: seq<State>, d: nat)
    requires IsRun(p, run) && |run| == d + 1 && UnreachedBefore(p, orderings, run)
    ensures FirstReachedAt(p, orderings, d)
  {
    hide IsRun, UnreachedBefore;
  }

  lemma OrbitBefore(p: Program, orderings: seq<Ordering>, run: seq<State>, other: seq<State>)
    requires run != [] && UnreachedBefore(p, orderings, run)
    requires other != [] && IsRun(p, other) && Last(run) in Orbit(orderings, Last(other))
    ensures |run| <= |other|
  {
    hide IsRun, Orbit;
  }

  lemma AllExpanded(f: Frontier, p: Program, orderings: seq<Ordering>, space: Space, d: nat, bound: nat)
    requires Inv(f, p, orderings, space, d, Some(bound), {}) && f.runs == []
    ensures forall s | s in f.seen :: f.dist(s) <= d && (f.dist(s) < bound ==> SuccessorsSeen(f, p, s))
  {
    hide SuccessorsSeen, Orbit, OrbitSeen, Evaluate;
  }

  /** What a run of least depth reaches is in no orbit of a shorter run. */
  lemma DeepestNew(f: Frontier, p: Program, orderings: seq<Ordering>, space: Space, d: nat, s: State, run: seq<State>)
    requires SeenInv(f, orderings, space) && InitsInv(f, p) && s in f.seen && f.dist(s) == d
    requires forall x | x in f.seen && f.dist(x) < d :: SuccessorsSeen(f, p, x)
    requires run != [] && IsRun(p, run) && |run| - 1 == d && s in Orbit(orderings, Last(run))
    ensures UnreachedBefore(p, orderings, run)
  {
    hide *;
    RunSeen(f, p, run, d);
    SeenAt(f, orderings, space, Last(run), s);
    forall other | other != [] && IsRun(p, other) && |other| < |run| ensures Last(run) !in Orbit(orderings, Last(other)) {
      RunSeen(f, p, other, d);
      if Last(run) in Orbit(orderings, Last(other)) { SeenAt(f, orderings, space, Last(other), Last(run)); }
    }
    FoldUnreached(p, orderings, run);
  }

  lemma FoldUnreached(p: Program, orderings: seq<Ordering>, run: seq<State>)
    requires run != []
    requires forall other | other != [] && IsRun(p, other) && |other| < |run| :: Last(run) !in Orbit(orderings, Last(other))
    ensures UnreachedBefore(p, orderings, run)
  {
    hide IsRun, Orbit, Last;
  }

  // The search.

  /** A bug the trace describes, within the bound, that no run undercuts. */
  ghost predicate LeastBug(p: Program, bound: Option<nat>, trace: Trace, run: seq<State>) {
    && Bug(p, run) && Traces(trace, run)
    && (bound.Some? ==> |run| - 1 <= bound.value)
    && forall other | Bug(p, other) :: |run| <= |other|
  }

  /** A run of so many steps ends in an orbit that no shorter run reaches. */
  ghost predicate FirstReachedAt(p: Program, orderings: seq<Ordering>, d: nat) {
    exists run :: IsRun(p, run) && |run| == d + 1 && UnreachedBefore(p, orderings, run)
  }

  ghost predicate UnreachedBefore(p: Program, orderings: seq<Ordering>, run: seq<State>)
    requires run != []
  {
    forall other | other != [] && IsRun(p, other) && |other| < |run| :: Last(run) !in Orbit(orderings, Last(other))
  }

  /** Something new was still found in the last round before the bound, or there was no round. */
  ghost predicate StillGrowing(p: Program, orderings: seq<Ordering>, bound: Option<nat>) {
    bound.Some? && (bound.value == 0 || FirstReachedAt(p, orderings, bound.value))
  }

  /** What each answer promises; without an unsafe run it is `Unknown` exactly when there was
      still something new at the bound. */
  ghost predicate Correct(r: InterpreterResult, p: Program, bound: Option<nat>, compress: bool, orderings: seq<Ordering>) {
    match r
    case Counterexample(trace) =>
      trace.Compressed? == compress && exists run :: LeastBug(p, bound, trace, run)
    case Unknown => StillGrowing(p, orderings, bound) && SafeUpTo(p, bound.value)
    case Convergence => !StillGrowing(p, orderings, bound) && SafeForever(p)
  }

  lemma ExtendRun(p: Program, run: seq<State>, s: State)
    requires IsRun(p, run) && ProgramStep(p, Last(run), s)
    ensures IsRun(p, run + [s]) && Last(run + [s]) == s
  {
    hide ProgramStep;
    forall i | 0 <= i < |run + [s]| - 1 ensures ProgramStep(p, (run + [s])[i], (run + [s])[i + 1]) {}
  }

  /** The queue holds a trace for each run of the frontier. */
  ghost predicate QueueTraces(queue: seq<Trace>, runs: seq<seq<State>>, compress: bool) {
    && |queue| == |runs|
    && forall i | 0 <= i < |queue| :: Traces(queue[i], runs[i]) && queue[i].Compressed? == compress
  }

  lemma SeenDepth(f: Frontier, p: Program, orderings: seq<Ordering>, space: Space, d: nat, bound: Option<nat>, x: State, s: State)
    requires Inv(f, p, orderings, space, d, bound, Orbit(orderings, x)) && x in f.seen && f.dist(x) == d
    requires s in f.seen
    ensures f.dist(s) <= d + 1
  {
    hide ProgramStep, IsRun, Orbit;
    if Queued(f, orderings, s) {
      var i :| 0 <= i < |f.runs| && f.runs[i] != [] && s in Orbit(orderings, Last(f.runs[i]));
      assert OrbitSeen(f, orderings, Last(f.runs[i]));
    } else if s !in f.expanded {
      assert OrbitSeen(f, orderings, x);
    }
  }

  lemma SeenAreStates(f: Frontier, orderings: seq<Ordering>, space: Space)
    requires SeenInv(f, orderings, space)
    ensures f.seen <= AllStates(space.n)
  {
    forall s | s in f.seen ensures s in AllStates(space.n) { AllStatesComplete(s); }
  }

  /** Put the unseen successors of `state` on the queue. */
  method ExpandState(p: Program, trs: seq<Transition>, state: State, trace: Trace, compress: bool, seen: IsoStateSet,
                     queue: seq<Trace>, ghost f: Frontier, ghost run: seq<State>, ghost space: Space, ghost bound: Option<nat>)
    returns (queue': seq<Trace>, ghost f': Frontier)
    requires Partition(seen.orderings, space) && Closed(p, space)
    requires IsRun(p, run) && Last(run) == state && Traces(trace, run) && space.Has(state)
    requires trace.Compressed? == compress && Within(|run| - 1, bound)
    requires forall t :: t in trs <==> t in p.trs && Enabled(t, state)
    requires Inv(f, p, seen.orderings, space, |run| - 1, bound, Orbit(seen.orderings, state))
    requires InitsInv(f, p) && state in f.seen && f.dist(state) == |run| - 1 && Reached(f, p, seen.orderings)
    requires seen.set_ == f.seen && QueueTraces(queue, f.runs, compress)
    modifies seen
    ensures Inv(f', p, seen.orderings, space, |run| - 1, bound, Orbit(seen.orderings, state))
    ensures InitsInv(f', p) && state in f'.seen && f'.dist(state) == |run| - 1 && Reached(f', p, seen.orderings)
    ensures forall s | s in f.seen :: f'.dist(s) == f.dist(s)
    ensures seen.set_ == f'.seen && QueueTraces(queue', f'.runs, compress)
    ensures SuccessorsSeen(f', p, state)
    ensures f.seen <= f'.seen && (f.seen == f'.seen ==> |queue'| == |queue|)
  {
    hide Inv, IsRun, Partition, Orbit, Enabled, Apply, OrbitSeen, Pushed, Reached;
    queue', f' := queue, f;
    ghost var d := |run| - 1;
    var i := 0;
    while i < |trs|
      invariant i <= |trs|
      invariant Inv(f', p, seen.orderings, space, d, bound, Orbit(seen.orderings, state))
      invariant InitsInv(f', p) && state in f'.seen && f'.dist(state) == d && Reached(f', p, seen.orderings)
      invariant forall s | s in f.seen :: f'.dist(s) == f.dist(s)
      invariant seen.set_ == f'.seen && QueueTraces(queue', f'.runs, compress)
      invariant f.seen <= f'.seen && (f.seen == f'.seen ==> |queue'| == |queue|)
      invariant forall j | 0 <= j < i :: Apply(trs[j], state) in f'.seen && f'.dist(Apply(trs[j], state)) <= d + 1
    {
      var next := Apply(trs[i], state);
      var isNew := seen.Insert(next);
      if isNew {
        assert ProgramStep(p, state, next) by { assert trs[i] in trs && Steps(trs[i], state, next); }
        assert space.Has(next);
        ExtendRun(p, run, next);
        QueueShort(f', p, seen.orderings, space, d, bound, Orbit(seen.orderings, state), run + [next]);
        PushInv(f', p, seen.orderings, space, d, bound, Orbit(seen.orderings, state), run + [next]);
        PushedSets(f', seen.orderings, run + [next]);
        NewState(f', p, seen.orderings, space, d, bound, Orbit(seen.orderings, state), run + [next]);
        SeenPart(f', p, seen.orderings, space, d, bound, Orbit(seen.orderings, state));
        PushReached(f', p, seen.orderings, space, run + [next]);
        var trace' := Push(trace, next);
        queue' := queue' + [trace'];
        f' := Pushed(f', seen.orderings, run + [next]);
      } else {
        SeenDepth(f', p, seen.orderings, space, d, bound, state, next);
      }
      i := i + 1;
    }
    forall s' | ProgramStep(p, state, s') ensures s' in f'.seen && f'.dist(s') <= d + 1 {
      var t :| t in p.trs && Steps(t, state, s');
      assert t in trs;
      var j :| 0 <= j < |trs| && trs[j] == t;
      assert s' == Apply(trs[j], state);
    }
  }

  lemma SeenPart(f: Frontier, p: Program, orderings: seq<Ordering>, space: Space, d: nat, bound: Option<nat>, pending: set<State>)
    requires Inv(f, p, orderings, space, d, bound, pending)
    ensures SeenInv(f, orderings, space)
  {
    hide SeenInv, QueueInv, CoverInv, ExpandedInv;
  }

  lemma QueueShort(f: Frontier, p: Program, orderings: seq<Ordering>, space: Space, d: nat, bound: Option<nat>, pending: set<State>,
                   run: seq<State>)
    requires Inv(f, p, orderings, space, d, bound, pending) && |run| - 1 == d + 1
    ensures forall i | 0 <= i < |f.runs| :: |f.runs[i]| <= |run|
  {
    hide IsRun, Orbit;
  }

  lemma NewState(f: Frontier, p: Program, orderings: seq<Ordering>, space: Space, d: nat, bound: Option<nat>, pending: set<State>,
                 run: seq<State>)
    requires Inv(f, p, orderings, space, d, bound, pending) && Partition(orderings, space)
    requires run != [] && Last(run) !in f.seen && space.Has(Last(run))
    ensures var g := Pushed(f, orderings, run);
            Last(run) in g.seen && g.dist(Last(run)) == |run| - 1 && g.runs == f.runs + [run]
  {
    PushKeeps(f, orderings, space, run);
  }

  lemma EmptyInv(p: Program, orderings: seq<Ordering>, space: Space, bound: Option<nat>)
    ensures Inv(Frontier({}, (y: State) => 0, {}, []), p, orderings, space, 0, bound, {})
  {
  }

  /** Put the initial states on the queue. */
  method Start(p: Program, compress: bool, seen: IsoStateSet, ghost space: Space, ghost bound: Option<nat>)
    returns (queue: seq<Trace>, ghost f: Frontier)
    requires Partition(seen.orderings, space) && Closed(p, space) && seen.set_ == {}
    modifies seen
    ensures Inv(f, p, seen.orderings, space, 0, bound, {}) && InitsInv(f, p) && Reached(f, p, seen.orderings)
    ensures seen.set_ == f.seen && QueueTraces(queue, f.runs, compress)
  {
    hide Inv, Partition, Orbit, OrbitSeen, Pushed, ReachedAt;
    queue, f := [], Frontier({}, (y: State) => 0, {}, []);
    EmptyInv(p, seen.orderings, space, bound);
    var i := 0;
    while i < |p.inits|
      invariant i <= |p.inits|
      invariant Inv(f, p, seen.orderings, space, 0, bound, {}) && Reached(f, p, seen.orderings)
      invariant seen.set_ == f.seen && QueueTraces(queue, f.runs, compress)
      invariant forall k | 0 <= k < |f.runs| :: |f.runs[k]| == 1
      invariant forall s | s in f.seen :: f.dist(s) == 0
      invariant forall k | 0 <= k < i :: p.inits[k] in f.seen
    {
      var init := p.inits[i];
      assert init in p.inits && space.Has(init);
      var isNew := seen.Insert(init);
      if isNew {
        PushInv(f, p, seen.orderings, space, 0, bound, {}, [init]);
        PushedSets(f, seen.orderings, [init]);
        NewState(f, p, seen.orderings, space, 0, bound, {}, [init]);
        SeenPart(f, p, seen.orderings, space, 0, bound, {});
        PushReached(f, p, seen.orderings, space, [init]);
        forall s | s in Pushed(f, seen.orderings, [init]).seen ensures Pushed(f, seen.orderings, [init]).dist(s) == 0 {
          if s !in f.seen { PushedNew(f, seen.orderings, [init], s); }
        }
        queue := queue + [NewTrace(init, compress)];
        f := Pushed(f, seen.orderings, [init]);
      }
      i := i + 1;
    }
  }

  lemma FoundBug(f: Frontier, p: Program, orderings: seq<Ordering>, space: Space, d: nat, bound: Option<nat>, x: State,
                 run: seq<State>, trace: Trace)
    requires Inv(f, p, orderings, space, d, bound, Orbit(orderings, x)) && InitsInv(f, p)
    requires x in f.seen && f.dist(x) == d && IsRun(p, run) && Last(run) == x && |run| - 1 == d
    requires bound.Some? ==> d <= bound.value
    requires Traces(trace, run) && !Evaluate(p.safe, x)
    ensures Correct(Counterexample(trace), p, bound, trace.Compressed?, orderings)
  {
    hide ProgramStep, IsRun, Orbit, Evaluate, QueueInv, CoverInv, ExpandedInv, InitsInv, Traces;
    PendingDepth(f, p, orderings, space, d, bound, x);
    forall other | Bug(p, other) ensures |run| <= |other| {
      if |other| - 1 < d { NoShorterBug(f, p, orderings, space, d, bound, Orbit(orderings, x), other); }
    }
    assert LeastBug(p, bound, trace, run);
  }

  lemma PendingDepth(f: Frontier, p: Program, orderings: seq<Ordering>, space: Space, d: nat, bound: Option<nat>, x: State)
    requires SeenInv(f, orderings, space) && x in f.seen && f.dist(x) == d
    ensures forall s | s in Orbit(orderings, x) && s in f.seen :: f.dist(s) == d
  {
    hide Orbit;
    assert OrbitSeen(f, orderings, x);
  }

  /** The depth of the search when the queue is empty tells whether there is more. */
  lemma Exhausted(f: Frontier, p: Program, orderings: seq<Ordering>, space: Space, d: nat, bound: Option<nat>, deepest: State)
    requires Inv(f, p, orderings, space, d, bound, {}) && InitsInv(f, p) && f.runs == [] && Reached(f, p, orderings)
    requires (bound.Some? ==> d <= bound.value) && (d > 0 ==> deepest in f.seen && f.dist(deepest) == d)
    ensures Within(d, bound) ==> SafeForever(p)
    ensures bound.Some? ==> SafeUpTo(p, bound.value)
    ensures StillGrowing(p, orderings, bound) <==> !Within(d, bound)
  {
    hide Inv, InitsInv, ProgramStep, IsRun, Evaluate, FirstReachedAt, Reached;
    if bound.Some? && bound.value > 0 { NewestDepth(f, p, orderings, space, d, bound.value, deepest); }
    forall run | Bug(p, run) ensures !Within(d, bound) && (bound.Some? ==> |run| - 1 > bound.value) {
      if Within(d, bound) || |run| - 1 <= bound.value {
        NothingLeft(f, p, orderings, space, d, bound, run);
      }
    }
  }

  lemma PoppedFacts(f: Frontier, p: Program, orderings: seq<Ordering>, space: Space, d: nat, bound: Option<nat>)
    requires Inv(f, p, orderings, space, d, bound, {}) && f.runs != []
    ensures var run := f.runs[0];
            && IsRun(p, run) && Last(run) in f.seen && f.dist(Last(run)) == |run| - 1 && space.Has(Last(run))
            && (bound.Some? ==> |run| - 1 <= bound.value)
  {
    hide ProgramStep, Orbit;
  }

  lemma FirstTrace(queue: seq<Trace>, runs: seq<seq<State>>, compress: bool)
    requires QueueTraces(queue, runs, compress) && queue != []
    ensures runs != [] && Traces(queue[0], runs[0]) && queue[0].Compressed? == compress
    ensures runs[0] != [] && Depth(queue[0]) == |runs[0]| - 1
    ensures queue[0].Full? ==> queue[0].states != []
    ensures LastState(queue[0]) == Last(runs[0])
    ensures QueueTraces(queue[1..], runs[1..], compress)
  {
  }

  lemma NoTraces(runs: seq<seq<State>>, compress: bool)
    requires QueueTraces([], runs, compress)
    ensures runs == []
  {
  }

  lemma WithinDepth(depth: nat, bound: Option<nat>)
    ensures Within(depth, bound) <==> bound.None? || depth < bound.value
  {
  }

  lemma FoldCorrect(r: InterpreterResult, p: Program, bound: Option<nat>, compress: bool, orderings: seq<Ordering>)
    requires match r case Counterexample(_) => false
             case Unknown => bound.Some? && SafeUpTo(p, bound.value) case Convergence => SafeForever(p)
    requires StillGrowing(p, orderings, bound) <==> r == Unknown
    ensures Correct(r, p, bound, compress, orderings)
  {
    hide StillGrowing, SafeUpTo, SafeForever;
  }

  /** Explore the reachable states breadth first, up to a depth when one is given.  A
      counterexample is a run of least depth to an unsafe state; `Unknown` means there is none
      within the bound but something new was found at the bound, and `Convergence` that there is none at all. */
  method Interpret(p: Program, maxDepth: Option<nat>, compress: bool, orderings: seq<Ordering>, ghost space: Space)
    returns (r: InterpreterResult)
    requires Partition(orderings, space) && Closed(p, space) && Symmetric(p, orderings, space)
    ensures Correct(r, p, maxDepth, compress, orderings)
  {
    hide *;
    var seen := new IsoStateSet(orderings);
    ghost var f;
    var queue;
    queue, f := Start(p, compress, seen, space, maxDepth);
    var transitions := new Transitions();
    var k := 0;
    while k < |p.trs|
      invariant k <= |p.trs| && transitions.Valid()
      invariant fresh(transitions) && transitions.inserted == set t | t in p.trs[..k]
      invariant seen.set_ == f.seen
    {
      transitions.Insert(p.trs[k]);
      assert p.trs[..k + 1] == p.trs[..k] + [p.trs[k]];
      k := k + 1;
    }
    assert p.trs[..k] == p.trs;
    var currentDepth := 0;
    ghost var deepest: State := [];
    while queue != []
      invariant Inv(f, p, orderings, space, currentDepth, maxDepth, {}) && InitsInv(f, p)
      invariant seen.set_ == f.seen && seen.orderings == orderings && QueueTraces(queue, f.runs, compress)
      invariant Reached(f, p, orderings) && (maxDepth.Some? ==> currentDepth <= maxDepth.value)
      invariant currentDepth > 0 ==> deepest in f.seen && f.dist(deepest) == currentDepth
      invariant transitions.Valid() && transitions.inserted == set t | t in p.trs
      decreases AllStates(space.n) - f.seen, |queue|
    {
      FirstTrace(queue, f.runs, compress);
      var trace := queue[0];
      ghost var run, before := f.runs[0], f;
      PoppedFacts(f, p, orderings, space, currentDepth, maxDepth);
      PopInv(f, p, orderings, space, currentDepth, maxDepth);
      ghost var sizeBefore := |queue|;
      queue := queue[1..];
      f := f.(runs := f.runs[1..]);
      SameReached(before, f, p, orderings);
      var depth := Depth(trace);
      if depth > currentDepth {
        currentDepth := currentDepth + 1;
        deepest := Last(run);
      }
      var state := LastState(trace);
      if !Evaluate(p.safe, state) {
        FoundBug(f, p, orderings, space, currentDepth, maxDepth, state, run, trace);
        return Counterexample(trace);
      }
      WithinDepth(currentDepth, maxDepth);
      if maxDepth.None? || depth < maxDepth.value {
        var trs := transitions.GetSubsets(state);
        queue, f := ExpandState(p, trs, state, trace, compress, seen, queue, f, run, space, maxDepth);
      }
      FinishInv(f, p, orderings, space, currentDepth, maxDepth, state);
      ghost var unfinished := f;
      f := f.(expanded := f.expanded + Orbit(orderings, state));
      SameReached(unfinished, f, p, orderings);
      SeenSubset(before, f, p, orderings, space, currentDepth, maxDepth);
    }
    NoTraces(f.runs, compress);
    WithinDepth(currentDepth, maxDepth);
    Exhausted(f, p, orderings, space, currentDepth, maxDepth, deepest);
    r := if maxDepth.None? || currentDepth < maxDepth.value then Convergence else Unknown;
    FoldCorrect(r, p, maxDepth, compress, orderings);
  }

  lemma SeenSubset(f: Frontier, g: Frontier, p: Program, orderings: seq<Ordering>, space: Space, d: nat, bound: Option<nat>)
    requires Inv(g, p, orderings, space, d, bound, {}) && f.seen <= g.seen
    ensures f.seen < g.seen ==> AllStates(space.n) - g.seen < AllStates(space.n) - f.seen
    ensures f.seen == g.seen ==> AllStates(space.n) - g.seen == AllStates(space.n) - f.seen
  {
    SeenAreStates(g, orderings, space);
    if f.seen < g.seen {
      var s :| s in g.seen && s !in f.seen;
      assert s in AllStates(space.n) - f.seen && s !in AllStates(space.n) - g.seen;
    }
  }
}
