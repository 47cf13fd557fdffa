/** Forward and backward symbolic search, and the reconstruction of a counterexample from the
    layers of the search. */
module SymbolicSearch {
  import opened Collections
  import opened Guarded
  import opened Diagrams
  import opened Symbolic

  /** States where searching starts, the steps, and the states looked for. */
  datatype Graph = Graph(start: iset<State>, step: iset<(State, State)>, target: iset<State>)

  ghost predicate Wide(vars: Vars, g: Graph) {
    && Sized(vars) && Fits(vars, g.step)
    && (forall s | s in g.start :: |s| == vars.size - vars.m)
    && (forall s | s in g.target :: |s| == vars.size - vars.m)
  }

  ghost predicate Path(g: Graph, run: seq<State>) {
    run != [] && run[0] in g.start && forall i | 0 <= i < |run| - 1 :: (run[i], run[i + 1]) in g.step
  }

  /** A path to a state that is looked for. */
  ghost predicate Hit(g: Graph, run: seq<State>) {
    Path(g, run) && run[|run| - 1] in g.target
  }

  /** The states at the end of the paths with `k` steps. */
  ghost function Layer(g: Graph, k: nat): iset<State> {
    if k == 0 then g.start else Post(Layer(g, k - 1), g.step)
  }

  ghost function UpTo(g: Graph, k: nat): iset<State> {
    if k == 0 then g.start else UpTo(g, k - 1) + Layer(g, k)
  }

  ghost function Turned(g: Graph): Graph {
    Graph(g.target, iset x, y | (x, y) in g.step :: (y, x), g.start)
  }

  lemma {:induction false} PathInLayer(g: Graph, run: seq<State>)
    requires Path(g, run)
    ensures run[|run| - 1] in Layer(g, |run| - 1)
    decreases |run|
  {
    if |run| > 1 {
      var front := run[..|run| - 1];
      PathInLayer(g, front);
      assert (run[|run| - 2], run[|run| - 1]) in g.step;
    }
  }

  lemma {:induction false} LayerHasPath(g: Graph, k: nat, s: State) returns (run: seq<State>)
    requires s in Layer(g, k)
    ensures Path(g, run) && |run| == k + 1 && run[k] == s
    decreases k
  {
    if k == 0 { return [s]; }
    var x :| x in Layer(g, k - 1) && (x, s) in g.step;
    var front := LayerHasPath(g, k - 1, x);
    run := front + [s];
    forall i | 0 <= i < k ensures (run[i], run[i + 1]) in g.step {
      if i < k - 1 { assert (front[i], front[i + 1]) in g.step; }
    }
  }

  function Reverse(run: seq<State>): (r: seq<State>)
    ensures |r| == |run| && forall i | 0 <= i < |run| :: r[i] == run[|run| - 1 - i]
  {
    seq(|run|, i requires 0 <= i < |run| => run[|run| - 1 - i])
  }

  /** Turning the graph around turns its hits around. */
  lemma TurnedHit(g: Graph, run: seq<State>)
    requires Hit(g, run)
    ensures Hit(Turned(g), Reverse(run))
  {
    var r := Reverse(run);
    forall i | 0 <= i < |r| - 1 ensures (r[i], r[i + 1]) in Turned(g).step {
      var j := |run| - 2 - i;
      assert (run[j], run[j + 1]) in g.step;
    }
  }

  /** The layers of the direction of the search that meet the target are the lengths of hits. */
  lemma NoHitOf(g: Graph, h: Graph, k: nat)
    requires h == g || h == Turned(g)
    requires Layer(h, k) !! h.target
    ensures forall run | Hit(g, run) :: |run| != k + 1
  {
    forall run | Hit(g, run) ensures |run| != k + 1 {
      var r := if h == g then run else Reverse(run);
      if h != g { TurnedHit(g, run); }
      PathInLayer(h, r);
    }
  }

  // Closure.

  lemma {:induction false} InUpTo(g: Graph, j: nat, k: nat)
    requires j <= k
    ensures Layer(g, j) <= UpTo(g, k)
    decreases k
  {
    if j < k { InUpTo(g, j, k - 1); }
  }

  lemma {:induction false} UpToLayer(g: Graph, k: nat, s: State)
    requires s in UpTo(g, k)
    ensures exists j: nat :: j <= k && s in Layer(g, j)
    decreases k
  {
    if k > 0 && s !in Layer(g, k) {
      UpToLayer(g, k - 1, s);
      var j: nat :| j <= k - 1 && s in Layer(g, j);
      assert j <= k;
    } else if k > 0 {
      assert k <= k && s in Layer(g, k);
    } else {
      assert 0 <= k && s in Layer(g, 0);
    }
  }

  /** When a layer adds nothing, no later layer does. */
  lemma {:induction false} ClosedUnder(g: Graph, i: nat, k: nat)
    requires Layer(g, i + 1) <= UpTo(g, i)
    ensures Layer(g, k) <= UpTo(g, i)
    decreases k
  {
    if k <= i {
      InUpTo(g, k, i);
    } else {
      ClosedUnder(g, i, k - 1);
      forall s | s in Layer(g, k) ensures s in UpTo(g, i) {
        var x :| x in Layer(g, k - 1) && (x, s) in g.step;
        UpToLayer(g, i, x);
        var j: nat :| j <= i && x in Layer(g, j);
        assert s in Layer(g, j + 1);
        if j < i { InUpTo(g, j + 1, i); }
      }
    }
  }

  lemma {:induction false} LayerWidth(vars: Vars, g: Graph, k: nat)
    requires Wide(vars, g)
    ensures forall s | s in Layer(g, k) :: |s| == vars.size - vars.m
    decreases k
  {
    if k > 0 { LayerWidth(vars, g, k - 1); }
  }

  // States first reached after so many steps.

  /** No shorter path ends in the same state. */
  ghost predicate FirstPath(g: Graph, run: seq<State>)
    requires run != []
  {
    forall other | other != [] && Path(g, other) && other[|other| - 1] == run[|run| - 1] :: |run| <= |other|
  }

  ghost predicate FirstAt(g: Graph, k: nat) {
    exists run :: Path(g, run) && |run| == k + 1 && FirstPath(g, run)
  }

  /** Every round up to the depth finds something new. */
  ghost predicate GrowsTo(g: Graph, depth: nat) {
    forall k: nat | 1 <= k <= depth :: FirstAt(g, k)
  }

  /** A layer with a state that is in no layer before. */
  lemma NewLayer(g: Graph, k: nat, s: State)
    requires s in Layer(g, k + 1) && s !in UpTo(g, k)
    ensures FirstAt(g, k + 1)
  {
    hide Layer, UpTo, Path;
    var run := LayerHasPath(g, k + 1, s);
    forall other | other != [] && Path(g, other) && other[|other| - 1] == run[|run| - 1] ensures |run| <= |other| {
      PathInLayer(g, other);
      if |other| <= k + 1 { InUpTo(g, |other| - 1, k); }
    }
    assert FirstPath(g, run);
  }

  /** A layer without one. */
  lemma OldLayer(g: Graph, k: nat)
    requires Layer(g, k + 1) <= UpTo(g, k)
    ensures !FirstAt(g, k + 1)
  {
    hide Layer, UpTo, Path;
    if run :| Path(g, run) && |run| == k + 2 && FirstPath(g, run) {
      PathInLayer(g, run);
      UpToLayer(g, k, run[k + 1]);
      var j: nat :| j <= k && run[k + 1] in Layer(g, j);
      var other := LayerHasPath(g, j, run[k + 1]);
      assert |run| <= |other|;
    }
  }

  /** Once a round finds nothing new, no later one does. */
  lemma GrowthIsFirst(g: Graph, depth: nat)
    requires depth > 0
    ensures GrowsTo(g, depth) <==> FirstAt(g, depth)
  {
    hide Layer, UpTo, FirstAt;
    if FirstAt(g, depth) {
      forall k: nat | 1 <= k <= depth ensures FirstAt(g, k) {
        if s :| s in Layer(g, k) && s !in UpTo(g, k - 1) {
          NewLayer(g, k - 1, s);
        } else {
          ClosedUnder(g, k - 1, depth);
          UpToGrows(g, k - 1, depth - 1);
          OldLayer(g, depth - 1);
        }
      }
    }
  }

  lemma {:induction false} UpToGrows(g: Graph, j: nat, k: nat)
    requires j <= k
    ensures UpTo(g, j) <= UpTo(g, k)
    decreases k
  {
    if j < k { UpToGrows(g, j, k - 1); }
  }

  // Diagrams of layers.

  lemma OrUnprimed(vars: Vars, a: Bdd, b: Bdd, s: iset<State>, t: iset<State>)
    requires Sized(vars) && Unprimed(vars, a, s) && Unprimed(vars, b, t)
    ensures Unprimed(vars, BddOr(a, b), s + t)
  {
    hide St;
  }

  /** Equal diagrams represent the same states. */
  lemma SameStates(vars: Vars, a: Bdd, s: iset<State>, t: iset<State>, x: State)
    requires Sized(vars) && Unprimed(vars, a, s) && Unprimed(vars, a, t)
    requires |x| == vars.size - vars.m && x in t
    ensures x in s
  {
    hide St;
    var v := PairOf(vars, x, x);
    assert v in a;
  }

  /** Any accepted valuation, if there is one. */
  method SatWitness(a: Bdd) returns (v: Option<State>)
    ensures v.Some? ==> v.value in a
    ensures v.None? ==> a == {}
  {
    if w :| w in a { return Some(w); }
    v := None;
  }

  /** One layer further in the direction of the search. */
  method Update(vars: Vars, current: Bdd, tr: Bdd, reversed: bool, ghost g: Graph, ghost s: iset<State>) returns (next: Bdd)
    requires Wide(vars, g) && Relates(vars, tr, g.step) && Unprimed(vars, current, s)
    ensures Unprimed(vars, next, Post(s, if reversed then Turned(g).step else g.step))
  {
    hide Unprimed, Primed, Relates, Fits, BddExists;
    if !reversed {
      ImagePrimed(vars, current, tr, s, g.step);
      next := ToUnprimed(vars, BddExists(vars, BddAnd(current, tr), 0, vars.m), Post(s, g.step));
    } else {
      var primed := ToPrimed(vars, current, s);
      PreimageUnprimed(vars, primed, tr, s, g.step);
      next := BddExists(vars, BddAnd(primed, tr), vars.m, 2 * vars.m);
      TurnedPost(s, g);
    }
  }

  lemma TurnedPost(s: iset<State>, g: Graph)
    ensures Post(s, Turned(g).step) == Pre(s, g.step)
  {
    forall x | x in Pre(s, g.step) ensures x in Post(s, Turned(g).step) {
      var y :| y in s && (x, y) in g.step;
      assert (y, x) in Turned(g).step;
    }
  }

  // Reconstruction.

  /** The conjunction of a literal for every bit of a state, on one of the copies. */
  function Pin(vars: Vars, s: State, primed: bool): Bdd
    requires Sized(vars)
  {
    set v | v in Valuations(vars.size) && (if primed then Pr(vars, v) else St(vars, v)) == s
  }

  ghost function Before(s: iset<State>, r: iset<(State, State)>, s': State): iset<State> {
    iset x | x in s && (x, s') in r
  }

  ghost function After(t: iset<State>, r: iset<(State, State)>, s: State): iset<State> {
    iset y | y in t && (s, y) in r
  }

  /** The states before a step to `s'` out of a layer. */
  lemma PinnedBefore(vars: Vars, layer: Bdd, tr: Bdd, s: iset<State>, r: iset<(State, State)>, s': State)
    requires Sized(vars) && Unprimed(vars, layer, s) && Relates(vars, tr, r) && Fits(vars, r)
    ensures var bdd := BddExists(vars, BddAnd(BddAnd(layer, tr), Pin(vars, s', true)), vars.m, 2 * vars.m);
            Unprimed(vars, bdd, Before(s, r, s'))
  {
    hide St, Pr, BddExists, AgreeOff, Within;
    var conj := BddAnd(BddAnd(layer, tr), Pin(vars, s', true));
    ExistsWithin(vars, conj, vars.m, 2 * vars.m);
    forall v: State | |v| == vars.size
      ensures v in BddExists(vars, conj, vars.m, 2 * vars.m) <==> St(vars, v) in s && (St(vars, v), s') in r
    {
      PinnedBeforeMember(vars, layer, tr, s, r, s', v);
    }
  }

  lemma PinnedBeforeMember(vars: Vars, layer: Bdd, tr: Bdd, s: iset<State>, r: iset<(State, State)>, s': State, v: State)
    requires Sized(vars) && Unprimed(vars, layer, s) && Relates(vars, tr, r) && Fits(vars, r) && |v| == vars.size
    ensures v in BddExists(vars, BddAnd(BddAnd(layer, tr), Pin(vars, s', true)), vars.m, 2 * vars.m)
      <==> St(vars, v) in s && (St(vars, v), s') in r
  {
    hide St, Pr, BddExists, AgreeOff;
    var conj := BddAnd(BddAnd(layer, tr), Pin(vars, s', true));
    ExistsMember(vars, conj, vars.m, 2 * vars.m, v);
    if w :| w in conj && AgreeOff(v, w, vars.m, 2 * vars.m) {
      SameUnprimed(vars, v, w);
    }
    if St(vars, v) in s && (St(vars, v), s') in r {
      var w := PairOf(vars, St(vars, v), s');
      SameUnprimed(vars, v, w);
      assert w in conj;
    }
  }

  /** The states after a step from `s` into a layer, still in the primed variables. */
  lemma PinnedAfter(vars: Vars, layer: Bdd, tr: Bdd, t: iset<State>, r: iset<(State, State)>, s: State)
    requires Sized(vars) && Primed(vars, layer, t) && Relates(vars, tr, r) && Fits(vars, r)
    ensures var bdd := BddExists(vars, BddAnd(BddAnd(Pin(vars, s, false), tr), layer), 0, vars.m);
            Primed(vars, bdd, After(t, r, s))
  {
    hide St, Pr, BddExists, AgreeOff, Within;
    var conj := BddAnd(BddAnd(Pin(vars, s, false), tr), layer);
    ExistsWithin(vars, conj, 0, vars.m);
    forall v: State | |v| == vars.size
      ensures v in BddExists(vars, conj, 0, vars.m) <==> Pr(vars, v) in t && (s, Pr(vars, v)) in r
    {
      PinnedAfterMember(vars, layer, tr, t, r, s, v);
    }
  }

  lemma PinnedAfterMember(vars: Vars, layer: Bdd, tr: Bdd, t: iset<State>, r: iset<(State, State)>, s: State, v: State)
    requires Sized(vars) && Primed(vars, layer, t) && Relates(vars, tr, r) && Fits(vars, r) && |v| == vars.size
    ensures v in BddExists(vars, BddAnd(BddAnd(Pin(vars, s, false), tr), layer), 0, vars.m)
      <==> Pr(vars, v) in t && (s, Pr(vars, v)) in r
  {
    hide St, Pr, BddExists, AgreeOff;
    var conj := BddAnd(BddAnd(Pin(vars, s, false), tr), layer);
    ExistsMember(vars, conj, 0, vars.m, v);
    if w :| w in conj && AgreeOff(v, w, 0, vars.m) {
      SamePrimed(vars, v, w);
    }
    if Pr(vars, v) in t && (s, Pr(vars, v)) in r {
      var w := PairOf(vars, s, Pr(vars, v));
      SamePrimed(vars, v, w);
      assert w in conj;
    }
  }

  /** An unprimed diagram of a state set with a member accepts something. */
  lemma NotEmpty(vars: Vars, a: Bdd, s: iset<State>, x: State)
    requires Sized(vars) && Unprimed(vars, a, s) && x in s && |x| == vars.size - vars.m
    ensures a != {}
  {
    hide St;
    assert PairOf(vars, x, x) in a;
  }

  ghost predicate LayersOf(vars: Vars, trace: seq<Bdd>, h: Graph)
    requires Sized(vars)
  {
    forall j | 0 <= j < |trace| :: Unprimed(vars, trace[j], Layer(h, j))
  }

  /** After a forward search: walk back from the last layer to the first. */
  method WalkBack(vars: Vars, trace: seq<Bdd>, tr: Bdd, valuation: State, ghost g: Graph) returns (run: seq<State>)
    requires Wide(vars, g) && Relates(vars, tr, g.step) && trace != [] && LayersOf(vars, trace, g)
    requires |valuation| == vars.size
    requires St(vars, valuation) in Layer(g, |trace| - 1) && St(vars, valuation) in g.target
    ensures Hit(g, run) && |run| == |trace|
  {
    hide St, Unprimed, Relates, BddExists, Pin, Layer, Within, Fits;
    run := [St(vars, valuation)];
    var i := |trace| - 1;
    while i != 0
      invariant 0 <= i < |trace| && |run| == |trace| - i
      invariant run[0] in Layer(g, i) && run[|run| - 1] in g.target
      invariant forall j | 0 <= j < |run| - 1 :: (run[j], run[j + 1]) in g.step
    {
      PinnedBefore(vars, trace[i - 1], tr, Layer(g, i - 1), g.step, run[0]);
      var bdd := BddExists(vars, BddAnd(BddAnd(trace[i - 1], tr), Pin(vars, run[0], true)), vars.m, 2 * vars.m);
      StepInto(vars, g, i, run[0], bdd);
      var w := SatWitness(bdd);
      WitnessState(vars, bdd, Before(Layer(g, i - 1), g.step, run[0]), w.value);
      run := [St(vars, w.value)] + run;
      i := i - 1;
    }
    LayerStart(g);
  }

  lemma LayerStart(g: Graph)
    ensures Layer(g, 0) == g.start
  {
  }

  lemma WitnessState(vars: Vars, a: Bdd, s: iset<State>, v: State)
    requires Sized(vars) && Unprimed(vars, a, s) && v in a
    ensures |v| == vars.size && St(vars, v) in s
  {
  }

  /** A state of a layer has a predecessor in the layer before. */
  lemma StepInto(vars: Vars, g: Graph, i: nat, s': State, a: Bdd)
    requires Wide(vars, g) && i > 0 && s' in Layer(g, i)
    requires Unprimed(vars, a, Before(Layer(g, i - 1), g.step, s'))
    ensures a != {}
  {
    hide Unprimed;
    var x :| x in Layer(g, i - 1) && (x, s') in g.step;
    LayerWidth(vars, g, i - 1);
    NotEmpty(vars, a, Before(Layer(g, i - 1), g.step, s'), x);
  }

  /** After a backward search: walk forward through the layers, last to first. */
  method WalkForward(vars: Vars, trace: seq<Bdd>, tr: Bdd, valuation: State, ghost g: Graph) returns (run: seq<State>)
    requires Wide(vars, g) && Relates(vars, tr, g.step) && trace != [] && LayersOf(vars, trace, Turned(g))
    requires |valuation| == vars.size
    requires St(vars, valuation) in Layer(Turned(g), |trace| - 1) && St(vars, valuation) in g.start
    ensures Hit(g, run) && |run| == |trace|
  {
    hide St, Unprimed, Primed, Relates, BddExists, Pin, Layer, Within, Fits, Turned;
    ghost var h := Turned(g);
    run := [St(vars, valuation)];
    var i := 0;
    while i != |trace| - 1
      invariant 0 <= i < |trace| && |run| == i + 1
      invariant run[0] in g.start && run[i] in Layer(h, |trace| - 1 - i)
      invariant forall j | 0 <= j < |run| - 1 :: (run[j], run[j + 1]) in g.step
      decreases |trace| - i
    {
      var k := |trace| - 1 - (i + 1);
      var primed := ToPrimed(vars, trace[k], Layer(h, k));
      PinnedAfter(vars, primed, tr, Layer(h, k), g.step, run[i]);
      ghost var after := After(Layer(h, k), g.step, run[i]);
      var bdd := BddExists(vars, BddAnd(BddAnd(Pin(vars, run[i], false), tr), primed), 0, vars.m);
      bdd := ToUnprimed(vars, bdd, after);
      StepOut(vars, g, k, run[i], bdd);
      var w := SatWitness(bdd);
      WitnessState(vars, bdd, after, w.value);
      run := run + [St(vars, w.value)];
      i := i + 1;
    }
    TurnedStart(g);
  }

  lemma TurnedStart(g: Graph)
    ensures Layer(Turned(g), 0) == g.target
  {
  }

  lemma TurnedWide(vars: Vars, g: Graph)
    requires Wide(vars, g)
    ensures Wide(vars, Turned(g))
  {
  }

  lemma StepOut(vars: Vars, g: Graph, k: nat, s: State, a: Bdd)
    requires Wide(vars, g) && s in Layer(Turned(g), k + 1)
    requires Unprimed(vars, a, After(Layer(Turned(g), k), g.step, s))
    ensures a != {}
  {
    hide Unprimed;
    var y :| y in Layer(Turned(g), k) && (y, s) in Turned(g).step;
    TurnedWide(vars, g);
    LayerWidth(vars, Turned(g), k);
    NotEmpty(vars, a, After(Layer(Turned(g), k), g.step, s), y);
  }

  // The search.

  datatype SymbolicAnswer = Found(run: seq<State>) | Exhausted | Converged(reachable: Bdd)

  ghost predicate LeastHit(g: Graph, depth: Option<nat>, run: seq<State>) {
    && Hit(g, run) && (depth.Some? ==> |run| - 1 <= depth.value)
    && forall other | Hit(g, other) :: |run| <= |other|
  }

  /** A found run is a least hit; otherwise there is none within the depth, or none at all. */
  ghost predicate Sound(r: SymbolicAnswer, g: Graph, depth: Option<nat>) {
    match r
    case Found(run) => LeastHit(g, depth, run)
    case Exhausted => depth.Some? && forall run | Hit(g, run) :: |run| - 1 > depth.value
    case Converged(_) => forall run :: !Hit(g, run)
  }

  /** An exhausted depth was reached with something new in every round; a search that converges
      within a depth has a round that found nothing new. */
  ghost predicate Grown(r: SymbolicAnswer, h: Graph, depth: Option<nat>) {
    match r
    case Found(_) => true
    case Exhausted => depth.Some? && GrowsTo(h, depth.value)
    case Converged(_) => depth.Some? ==> !GrowsTo(h, depth.value)
  }

  ghost function Direction(g: Graph, reversed: bool): Graph {
    if reversed then Turned(g) else g
  }

  /** What the search knows after `i` updates. */
  ghost predicate Searched(vars: Vars, h: Graph, trace: seq<Bdd>, reachable: Bdd, i: nat)
    requires Sized(vars)
  {
    && |trace| == i + 1 && LayersOf(vars, trace, h)
    && Unprimed(vars, reachable, UpTo(h, i))
  }

  lemma NoneBefore(g: Graph, h: Graph, i: nat)
    requires h == g || h == Turned(g)
    requires forall j: nat | j < i :: Layer(h, j) !! h.target
    ensures forall run | Hit(g, run) :: |run| > i
  {
    hide Hit, Layer;
    forall run | Hit(g, run) ensures |run| > i {
      if |run| <= i {
        HitNotEmpty(g, run);
        NoHitOf(g, h, |run| - 1);
      }
    }
  }

  lemma HitNotEmpty(g: Graph, run: seq<State>)
    requires Hit(g, run)
    ensures run != []
  {
  }

  lemma ConvergedSound(vars: Vars, g: Graph, h: Graph, i: nat, reachable: Bdd, current: Bdd)
    requires Wide(vars, h) && (h == g || h == Turned(g))
    requires forall j: nat | j <= i :: Layer(h, j) !! h.target
    requires Unprimed(vars, reachable, UpTo(h, i)) && Unprimed(vars, current, Layer(h, i + 1))
    requires BddOr(reachable, current) == reachable
    ensures forall run :: !Hit(g, run)
    ensures forall k: nat :: Layer(h, k) <= UpTo(h, i)
    ensures !FirstAt(h, i + 1)
  {
    hide Unprimed, Hit, Layer, UpTo, Fits, FirstAt;
    OrUnprimed(vars, reachable, current, UpTo(h, i), Layer(h, i + 1));
    LayerWidth(vars, h, i + 1);
    forall x | x in Layer(h, i + 1) ensures x in UpTo(h, i) {
      SameStates(vars, reachable, UpTo(h, i), UpTo(h, i) + Layer(h, i + 1), x);
    }
    OldLayer(h, i);
    forall k: nat ensures Layer(h, k) <= UpTo(h, i) && Layer(h, k) !! h.target {
      ClosedUnder(h, i, k);
      forall x | x in Layer(h, k) ensures x !in h.target { UpToLayer(h, i, x); }
    }
    forall run ensures !Hit(g, run) {
      if Hit(g, run) {
        HitNotEmpty(g, run);
        NoHitOf(g, h, |run| - 1);
      }
    }
  }

  /** No state of the layer is looked for. */
  lemma LayerMisses(vars: Vars, h: Graph, i: nat, current: Bdd, goal: Bdd)
    requires Wide(vars, h) && Unprimed(vars, current, Layer(h, i)) && Unprimed(vars, goal, h.target)
    requires BddAnd(current, goal) == {}
    ensures Layer(h, i) !! h.target
  {
    hide St, Unprimed, BddAnd;
    LayerWidth(vars, h, i);
    forall x | x in Layer(h, i) ensures x !in h.target {
      if x in h.target { CommonState(vars, current, goal, Layer(h, i), h.target, x); }
    }
  }

  lemma CommonState(vars: Vars, a: Bdd, b: Bdd, s: iset<State>, t: iset<State>, x: State)
    requires Sized(vars) && Unprimed(vars, a, s) && Unprimed(vars, b, t)
    requires x in s && x in t && |x| == vars.size - vars.m
    ensures BddAnd(a, b) != {}
  {
    hide St;
    assert PairOf(vars, x, x) in BddAnd(a, b);
  }

  method Models(vars: Vars, trace: seq<Bdd>, tr: Bdd, valuation: State, reversed: bool, ghost g: Graph) returns (run: seq<State>)
    requires Wide(vars, g) && Relates(vars, tr, g.step) && trace != [] && LayersOf(vars, trace, Direction(g, reversed))
    requires |valuation| == vars.size
    requires St(vars, valuation) in Layer(Direction(g, reversed), |trace| - 1)
    requires St(vars, valuation) in Direction(g, reversed).target
    ensures Hit(g, run) && |run| == |trace|
  {
    hide St, Unprimed, Relates, Layer, Fits, Hit;
    if reversed {
      run := WalkForward(vars, trace, tr, valuation, g);
    } else {
      run := WalkBack(vars, trace, tr, valuation, g);
    }
  }

  lemma NextLayer(h: Graph, i: nat)
    ensures Post(Layer(h, i), h.step) == Layer(h, i + 1)
    ensures UpTo(h, i + 1) == UpTo(h, i) + Layer(h, i + 1)
  {
  }

  /** Search forward from the initial states or backward from the unsafe ones.  Both report a
      run of least length when there is one within the depth. */
  method SearchLayers(vars: Vars, init: Bdd, tr: Bdd, notSafe: Bdd, depth: Option<nat>, reversed: bool, ghost g: Graph)
    returns (r: SymbolicAnswer)
    requires Wide(vars, g) && Relates(vars, tr, g.step)
    requires Unprimed(vars, init, g.start) && Unprimed(vars, notSafe, g.target)
    ensures Sound(r, g, depth) && Grown(r, Direction(g, reversed), depth)
    ensures r.Converged? ==> exists i: nat ::
      Unprimed(vars, r.reachable, UpTo(Direction(g, reversed), i))
      && forall k: nat :: Layer(Direction(g, reversed), k) <= UpTo(Direction(g, reversed), i)
  {
    hide Unprimed, Relates, Layer, UpTo, Fits, Hit, St, Within, Path, Turned, FirstAt;
    ghost var h := Direction(g, reversed);
    DirectionWide(vars, g, reversed);
    var current := if reversed then notSafe else init;
    var goal := if reversed then init else notSafe;
    var trace, reachable := [current], current;
    FirstLayer(vars, h, current);
    var i := 0;
    var found := SatWitness(BddAnd(current, goal));
    if found.Some? {
      r := Report(vars, trace, tr, goal, found.value, depth, reversed, g);
      return;
    }
    LayerMisses(vars, h, 0, current, goal);
    while depth.None? || i < depth.value
      invariant Searched(vars, h, trace, reachable, i) && current == trace[i]
      invariant forall j: nat | j <= i :: Layer(h, j) !! h.target
      invariant GrowsTo(h, i)
      invariant depth.Some? ==> i <= depth.value
      invariant Unprimed(vars, goal, h.target)
      decreases AllValuations(vars) - reachable
    {
      current := Update(vars, current, tr, reversed, g, Layer(h, i));
      NextLayer(h, i);
      OrUnprimed(vars, reachable, current, UpTo(h, i), Layer(h, i + 1));
      var newReachable := BddOr(reachable, current);
      if reachable == newReachable {
        ConvergedSound(vars, g, h, i, reachable, current);
        return Converged(reachable);
      }
      MoreReachable(vars, reachable, newReachable, UpTo(h, i + 1));
      NewStates(vars, h, i, reachable, newReachable);
      reachable := newReachable;
      trace := trace + [current];
      found := SatWitness(BddAnd(current, goal));
      if found.Some? {
        r := Report(vars, trace, tr, goal, found.value, depth, reversed, g);
        return;
      }
      LayerMisses(vars, h, i + 1, current, goal);
      i := i + 1;
    }
    NoneBefore(g, h, i + 1);
    r := Exhausted;
  }

  ghost function AllValuations(vars: Vars): Bdd {
    set v | v in Valuations(vars.size)
  }

  lemma MoreReachable(vars: Vars, old_: Bdd, new_: Bdd, s: iset<State>)
    requires Sized(vars) && Unprimed(vars, new_, s) && old_ <= new_ && old_ != new_
    ensures AllValuations(vars) - new_ < AllValuations(vars) - old_
  {
    hide St;
    var v :| v in new_ && v !in old_;
    assert v in AllValuations(vars);
  }

  lemma NewStates(vars: Vars, h: Graph, i: nat, old_: Bdd, new_: Bdd)
    requires Sized(vars) && Unprimed(vars, old_, UpTo(h, i)) && Unprimed(vars, new_, UpTo(h, i + 1))
    requires old_ <= new_ && old_ != new_
    ensures FirstAt(h, i + 1)
  {
    hide St, FirstAt;
    var v :| v in new_ && v !in old_;
    assert St(vars, v) in UpTo(h, i + 1) && St(vars, v) !in UpTo(h, i);
    NewLayer(h, i, St(vars, v));
  }

  lemma DirectionWide(vars: Vars, g: Graph, reversed: bool)
    requires Wide(vars, g)
    ensures Wide(vars, Direction(g, reversed))
    ensures Direction(g, reversed).start == if reversed then g.target else g.start
    ensures Direction(g, reversed).target == if reversed then g.start else g.target
    ensures Direction(g, reversed).step == if reversed then Turned(g).step else g.step
  {
  }

  lemma FirstLayer(vars: Vars, h: Graph, current: Bdd)
    requires Wide(vars, h) && Unprimed(vars, current, h.start)
    ensures Searched(vars, h, [current], current, 0)
  {
  }

  /** The counterexample when the newest layer meets the goal. */
  method Report(vars: Vars, trace: seq<Bdd>, tr: Bdd, goal: Bdd, valuation: State, depth: Option<nat>, reversed: bool, ghost g: Graph)
    returns (r: SymbolicAnswer)
    requires Wide(vars, g) && Wide(vars, Direction(g, reversed)) && Relates(vars, tr, g.step) && trace != []
    requires LayersOf(vars, trace, Direction(g, reversed)) && Unprimed(vars, goal, Direction(g, reversed).target)
    requires valuation in BddAnd(trace[|trace| - 1], goal)
    requires forall j: nat | j < |trace| - 1 :: Layer(Direction(g, reversed), j) !! Direction(g, reversed).target
    requires depth.Some? ==> |trace| - 1 <= depth.value
    ensures r.Found? && Sound(r, g, depth)
  {
    hide Unprimed, Relates, Layer, Fits, Hit, St, Within, Path, Turned;
    ghost var h := Direction(g, reversed);
    WitnessState(vars, trace[|trace| - 1], Layer(h, |trace| - 1), valuation);
    WitnessState(vars, goal, h.target, valuation);
    var run := Models(vars, trace, tr, valuation, reversed, g);
    NoneBefore(g, h, |trace| - 1);
    r := Found(run);
  }

  /** Whatever the directions and the witnesses, two sound answers agree on whether there is a
      counterexample and on its length. */
  lemma SearchesAgree(a: SymbolicAnswer, b: SymbolicAnswer, g: Graph, depth: Option<nat>)
    requires Sound(a, g, depth) && Sound(b, g, depth)
    ensures a.Found? <==> b.Found?
    ensures a.Found? ==> |a.run| == |b.run|
  {
    hide Hit;
    if a.Found? { assert Hit(g, a.run); }
    if b.Found? { assert Hit(g, b.run); }
  }
}
