/** Decision diagrams over one primed and one unprimed copy of the mutable variables, and the
    images and preimages the symbolic search computes with them.  A diagram is the set of
    valuations it accepts. */
module Symbolic {
  import opened Collections
  import opened Guarded
  import opened Diagrams

  type Bdd = set<State>

  /** Variables 0..m are the mutable ones, m..2m their primed copies, 2m..size the immutable ones. */
  datatype Vars = Vars(m: nat, size: nat)

  ghost predicate Sized(vars: Vars) {
    2 * vars.m <= vars.size
  }

  /** The state before the step, and the state after it, that a valuation describes. */
  function St(vars: Vars, v: State): State
    requires Sized(vars) && |v| == vars.size
  {
    v[..vars.m] + v[2 * vars.m..]
  }

  function Pr(vars: Vars, v: State): State
    requires Sized(vars) && |v| == vars.size
  {
    v[vars.m..]
  }

  // Operations.

  function BddAnd(a: Bdd, b: Bdd): Bdd { a * b }

  function BddOr(a: Bdd, b: Bdd): Bdd { a + b }

  function BddNot(vars: Vars, a: Bdd): Bdd {
    (set v | v in Valuations(vars.size)) - a
  }

  /** The valuations that differ at most on the variables lo..hi. */
  predicate AgreeOff(v: State, w: State, lo: nat, hi: nat) {
    |v| == |w| && forall i | 0 <= i < |v| && !(lo <= i < hi) :: v[i] == w[i]
  }

  function BddExists(vars: Vars, a: Bdd, lo: nat, hi: nat): Bdd {
    set v | v in Valuations(vars.size) && exists w | w in a :: AgreeOff(v, w, lo, hi)
  }

  function Flip(v: State, i: nat): (r: State)
    ensures |r| == |v|
  {
    if i < |v| then v[i := !v[i]] else v
  }

  /** The diagram does not test the variable. */
  ghost predicate Ignores(vars: Vars, a: Bdd, i: nat) {
    forall v | |v| == vars.size :: v in a <==> Flip(v, i) in a
  }

  /** Renaming keeps the variable order: no variable the diagram depends on lies between the two names, and
      the new name is free. */
  ghost predicate CanRename(vars: Vars, a: Bdd, from: nat, to: nat) {
    && from < vars.size && to < vars.size
    && forall i | (to <= i < from) || (from < i <= to) :: Ignores(vars, a, i)
  }

  function RenameVariable(vars: Vars, a: Bdd, from: nat, to: nat): Bdd
    requires CanRename(vars, a, from, to)
  {
    set v | v in Valuations(vars.size) && v[from := v[to]] in a
  }

  lemma RenameMember(vars: Vars, a: Bdd, from: nat, to: nat, v: State)
    requires CanRename(vars, a, from, to)
    ensures v in RenameVariable(vars, a, from, to) <==> |v| == vars.size && v[from := v[to]] in a
  {
  }

  // What a diagram represents.

  ghost predicate Within(vars: Vars, a: Bdd) {
    forall v | v in a :: |v| == vars.size
  }

  /** The diagram accepts the valuations whose unprimed state is in `s`. */
  ghost predicate Unprimed(vars: Vars, a: Bdd, s: iset<State>)
    requires Sized(vars)
  {
    Within(vars, a) && forall v | |v| == vars.size :: v in a <==> St(vars, v) in s
  }

  ghost predicate Primed(vars: Vars, a: Bdd, s: iset<State>)
    requires Sized(vars)
  {
    Within(vars, a) && forall v | |v| == vars.size :: v in a <==> Pr(vars, v) in s
  }

  ghost predicate Relates(vars: Vars, a: Bdd, r: iset<(State, State)>)
    requires Sized(vars)
  {
    Within(vars, a) && forall v | |v| == vars.size :: v in a <==> (St(vars, v), Pr(vars, v)) in r
  }

  /** Related states have a bit for every variable and the same immutable part. */
  ghost predicate Fits(vars: Vars, r: iset<(State, State)>)
    requires Sized(vars)
  {
    forall s, s' | (s, s') in r :: |s| == |s'| == vars.size - vars.m && s[vars.m..] == s'[vars.m..]
  }

  ghost function Post(s: iset<State>, r: iset<(State, State)>): iset<State> {
    iset y, x | x in s && (x, y) in r :: y
  }

  ghost function Pre(s: iset<State>, r: iset<(State, State)>): iset<State> {
    iset x, y | y in s && (x, y) in r :: x
  }

  /** The valuation of a step. */
  ghost function PairOf(vars: Vars, s: State, s': State): (v: State)
    requires Sized(vars) && |s| == |s'| == vars.size - vars.m && s[vars.m..] == s'[vars.m..]
    ensures |v| == vars.size && St(vars, v) == s && Pr(vars, v) == s'
  {
    var v := s[..vars.m] + s';
    assert v[2 * vars.m..] == s'[vars.m..];
    assert v[..vars.m] == s[..vars.m];
    assert s == s[..vars.m] + s[vars.m..];
    v
  }

  // Renaming all primed variables to unprimed ones, lowest first.

  /** `v` with its first `k` primed bits replaced by the unprimed ones. */
  ghost function Raised(vars: Vars, v: State, k: nat): (r: State)
    requires Sized(vars) && |v| == vars.size && k <= vars.m
    ensures |r| == |v|
    ensures forall j | 0 <= j < |v| :: r[j] == if vars.m <= j < vars.m + k then v[j - vars.m] else v[j]
  {
    seq<bool>(|v|, j requires 0 <= j < |v| => if vars.m <= j < vars.m + k then v[j - vars.m] else v[j])
  }

  /** What the diagram accepts after `k` renamings to unprimed variables. */
  ghost predicate RaisedTo(vars: Vars, a: Bdd, s: iset<State>, k: nat)
    requires Sized(vars) && k <= vars.m
  {
    Within(vars, a) && forall v | |v| == vars.size :: v in a <==> Pr(vars, Raised(vars, v, k)) in s
  }

  lemma RaisedFlip(vars: Vars, v: State, k: nat, i: nat)
    requires Sized(vars) && |v| == vars.size && k < vars.m && k <= i < vars.m + k
    ensures Pr(vars, Raised(vars, Flip(v, i), k)) == Pr(vars, Raised(vars, v, k))
  {
  }

  lemma RaisedIgnores(vars: Vars, a: Bdd, s: iset<State>, k: nat, i: nat)
    requires Sized(vars) && k < vars.m && RaisedTo(vars, a, s, k) && k <= i < vars.m + k
    ensures Ignores(vars, a, i)
  {
    hide Pr, Flip, Raised;
    forall v: State | |v| == vars.size ensures v in a <==> Flip(v, i) in a { RaisedFlip(vars, v, k, i); }
  }

  lemma RaisedUpdate(vars: Vars, v: State, k: nat)
    requires Sized(vars) && |v| == vars.size && k < vars.m
    ensures Raised(vars, v[vars.m + k := v[k]], k) == Raised(vars, v, k + 1)
  {
  }

  lemma RaisedMember(vars: Vars, a: Bdd, s: iset<State>, k: nat, v: State)
    requires Sized(vars) && k < vars.m && RaisedTo(vars, a, s, k) && CanRename(vars, a, vars.m + k, k)
    requires |v| == vars.size
    ensures v in RenameVariable(vars, a, vars.m + k, k) <==> Pr(vars, Raised(vars, v, k + 1)) in s
  {
    hide Pr, Raised, CanRename, RenameVariable;
    RenameMember(vars, a, vars.m + k, k, v);
    RaisedUpdate(vars, v, k);
    var w := v[vars.m + k := v[k]];
    assert w in a <==> Pr(vars, Raised(vars, w, k)) in s;
  }

  lemma RenameWithin(vars: Vars, a: Bdd, from: nat, to: nat)
    requires CanRename(vars, a, from, to)
    ensures Within(vars, RenameVariable(vars, a, from, to))
  {
  }

  lemma RaisedCan(vars: Vars, a: Bdd, s: iset<State>, k: nat)
    requires Sized(vars) && k < vars.m && RaisedTo(vars, a, s, k)
    ensures CanRename(vars, a, vars.m + k, k)
  {
    hide Ignores, RaisedTo;
    forall i | k <= i < vars.m + k ensures Ignores(vars, a, i) { RaisedIgnores(vars, a, s, k, i); }
  }

  lemma RaisedStep(vars: Vars, a: Bdd, s: iset<State>, k: nat)
    requires Sized(vars) && k < vars.m && RaisedTo(vars, a, s, k) && CanRename(vars, a, vars.m + k, k)
    ensures RaisedTo(vars, RenameVariable(vars, a, vars.m + k, k), s, k + 1)
  {
    hide *;
    RenameWithin(vars, a, vars.m + k, k);
    forall v: State | |v| == vars.size
      ensures v in RenameVariable(vars, a, vars.m + k, k) <==> Pr(vars, Raised(vars, v, k + 1)) in s
    {
      RaisedMember(vars, a, s, k, v);
    }
    FoldRaised(vars, RenameVariable(vars, a, vars.m + k, k), s, k + 1);
  }

  lemma FoldRaised(vars: Vars, a: Bdd, s: iset<State>, k: nat)
    requires Sized(vars) && k <= vars.m && Within(vars, a)
    requires forall v: State | |v| == vars.size :: v in a <==> Pr(vars, Raised(vars, v, k)) in s
    ensures RaisedTo(vars, a, s, k)
  {
    hide Pr, Raised, Within;
  }

  /** Rename every primed variable to its unprimed one. */
  method ToUnprimed(vars: Vars, a: Bdd, ghost s: iset<State>) returns (r: Bdd)
    requires Sized(vars) && Primed(vars, a, s)
    ensures Unprimed(vars, r, s)
  {
    hide RaisedTo, RenameVariable, CanRename;
    r := a;
    RaisedNone(vars, a, s);
    var i := 0;
    while i < vars.m
      invariant i <= vars.m && RaisedTo(vars, r, s, i)
    {
      RaisedCan(vars, r, s, i);
      RaisedStep(vars, r, s, i);
      r := RenameVariable(vars, r, vars.m + i, i);
      i := i + 1;
    }
    RaisedAll(vars, r, s);
  }

  lemma RaisedNone(vars: Vars, a: Bdd, s: iset<State>)
    requires Sized(vars) && Primed(vars, a, s)
    ensures RaisedTo(vars, a, s, 0)
  {
    forall v: State | |v| == vars.size ensures Raised(vars, v, 0) == v {}
  }

  lemma RaisedAll(vars: Vars, a: Bdd, s: iset<State>)
    requires Sized(vars) && RaisedTo(vars, a, s, vars.m)
    ensures Unprimed(vars, a, s)
  {
    hide Pr, St, Raised;
    forall v: State | |v| == vars.size ensures Pr(vars, Raised(vars, v, vars.m)) == St(vars, v) { FullyRaised(vars, v); }
  }

  lemma FullyRaised(vars: Vars, v: State)
    requires Sized(vars) && |v| == vars.size
    ensures Pr(vars, Raised(vars, v, vars.m)) == St(vars, v)
  {
  }

  // Renaming all unprimed variables to primed ones, highest first.

  /** `v` with its unprimed bits from `k` on replaced by the primed ones. */
  ghost function Lowered(vars: Vars, v: State, k: nat): (r: State)
    requires Sized(vars) && |v| == vars.size && k <= vars.m
    ensures |r| == |v|
    ensures forall j | 0 <= j < |v| :: r[j] == if k <= j < vars.m then v[j + vars.m] else v[j]
  {
    seq<bool>(|v|, j requires 0 <= j < |v| => if k <= j < vars.m then v[j + vars.m] else v[j])
  }

  ghost predicate LoweredTo(vars: Vars, a: Bdd, s: iset<State>, k: nat)
    requires Sized(vars) && k <= vars.m
  {
    Within(vars, a) && forall v | |v| == vars.size :: v in a <==> St(vars, Lowered(vars, v, k)) in s
  }

  lemma LoweredFlip(vars: Vars, v: State, k: nat, i: nat)
    requires Sized(vars) && |v| == vars.size && 0 < k <= vars.m && k <= i < vars.m + k
    ensures St(vars, Lowered(vars, Flip(v, i), k)) == St(vars, Lowered(vars, v, k))
  {
    var a, b := Lowered(vars, Flip(v, i), k), Lowered(vars, v, k);
    assert a[..vars.m] == b[..vars.m];
    assert a[2 * vars.m..] == b[2 * vars.m..];
  }

  lemma LoweredIgnores(vars: Vars, a: Bdd, s: iset<State>, k: nat, i: nat)
    requires Sized(vars) && 0 < k <= vars.m && LoweredTo(vars, a, s, k) && k <= i < vars.m + k
    ensures Ignores(vars, a, i)
  {
    hide St, Flip, Lowered;
    forall v: State | |v| == vars.size ensures v in a <==> Flip(v, i) in a { LoweredFlip(vars, v, k, i); }
  }

  lemma LoweredUpdate(vars: Vars, v: State, k: nat)
    requires Sized(vars) && |v| == vars.size && 0 < k <= vars.m
    ensures Lowered(vars, v[k - 1 := v[vars.m + k - 1]], k) == Lowered(vars, v, k - 1)
  {
  }

  lemma LoweredMember(vars: Vars, a: Bdd, s: iset<State>, k: nat, v: State)
    requires Sized(vars) && 0 < k <= vars.m && LoweredTo(vars, a, s, k) && CanRename(vars, a, k - 1, vars.m + k - 1)
    requires |v| == vars.size
    ensures v in RenameVariable(vars, a, k - 1, vars.m + k - 1) <==> St(vars, Lowered(vars, v, k - 1)) in s
  {
    hide St, Lowered, CanRename, RenameVariable;
    RenameMember(vars, a, k - 1, vars.m + k - 1, v);
    LoweredUpdate(vars, v, k);
    var w := v[k - 1 := v[vars.m + k - 1]];
    assert w in a <==> St(vars, Lowered(vars, w, k)) in s;
  }

  lemma LoweredCan(vars: Vars, a: Bdd, s: iset<State>, k: nat)
    requires Sized(vars) && 0 < k <= vars.m && LoweredTo(vars, a, s, k)
    ensures CanRename(vars, a, k - 1, vars.m + k - 1)
  {
    hide Ignores, LoweredTo;
    forall i | k - 1 < i <= vars.m + k - 1 ensures Ignores(vars, a, i) { LoweredIgnores(vars, a, s, k, i); }
  }

  lemma LoweredStep(vars: Vars, a: Bdd, s: iset<State>, k: nat)
    requires Sized(vars) && 0 < k <= vars.m && LoweredTo(vars, a, s, k) && CanRename(vars, a, k - 1, vars.m + k - 1)
    ensures LoweredTo(vars, RenameVariable(vars, a, k - 1, vars.m + k - 1), s, k - 1)
  {
    hide *;
    RenameWithin(vars, a, k - 1, vars.m + k - 1);
    forall v: State | |v| == vars.size
      ensures v in RenameVariable(vars, a, k - 1, vars.m + k - 1) <==> St(vars, Lowered(vars, v, k - 1)) in s
    {
      LoweredMember(vars, a, s, k, v);
    }
    FoldLowered(vars, RenameVariable(vars, a, k - 1, vars.m + k - 1), s, k - 1);
  }

  lemma FoldLowered(vars: Vars, a: Bdd, s: iset<State>, k: nat)
    requires Sized(vars) && k <= vars.m && Within(vars, a)
    requires forall v: State | |v| == vars.size :: v in a <==> St(vars, Lowered(vars, v, k)) in s
    ensures LoweredTo(vars, a, s, k)
  {
    hide St, Lowered, Within;
  }

  /** Rename every unprimed variable to its primed one. */
  method ToPrimed(vars: Vars, a: Bdd, ghost s: iset<State>) returns (r: Bdd)
    requires Sized(vars) && Unprimed(vars, a, s)
    ensures Primed(vars, r, s)
  {
    hide LoweredTo, RenameVariable, CanRename;
    r := a;
    LoweredNone(vars, a, s);
    var i := vars.m;
    while i > 0
      invariant 0 <= i <= vars.m && LoweredTo(vars, r, s, i)
    {
      LoweredCan(vars, r, s, i);
      LoweredStep(vars, r, s, i);
      r := RenameVariable(vars, r, i - 1, vars.m + i - 1);
      i := i - 1;
    }
    LoweredAll(vars, r, s);
  }

  lemma LoweredNone(vars: Vars, a: Bdd, s: iset<State>)
    requires Sized(vars) && Unprimed(vars, a, s)
    ensures LoweredTo(vars, a, s, vars.m)
  {
    forall v: State | |v| == vars.size ensures Lowered(vars, v, vars.m) == v {}
  }

  lemma LoweredAll(vars: Vars, a: Bdd, s: iset<State>)
    requires Sized(vars) && LoweredTo(vars, a, s, 0)
    ensures Primed(vars, a, s)
  {
    hide Pr, St, Lowered;
    forall v: State | |v| == vars.size ensures St(vars, Lowered(vars, v, 0)) == Pr(vars, v) { FullyLowered(vars, v); }
  }

  lemma FullyLowered(vars: Vars, v: State)
    requires Sized(vars) && |v| == vars.size
    ensures St(vars, Lowered(vars, v, 0)) == Pr(vars, v)
  {
    var a := Lowered(vars, v, 0);
    assert a[..vars.m] == v[vars.m..2 * vars.m];
    assert a[2 * vars.m..] == v[2 * vars.m..];
    assert v[vars.m..] == v[vars.m..2 * vars.m] + v[2 * vars.m..];
  }

  // Images.

  lemma ExistsMember(vars: Vars, a: Bdd, lo: nat, hi: nat, v: State)
    ensures v in BddExists(vars, a, lo, hi) <==> |v| == vars.size && exists w | w in a :: AgreeOff(v, w, lo, hi)
  {
  }

  lemma SamePrimed(vars: Vars, v: State, w: State)
    requires Sized(vars) && |v| == |w| == vars.size
    ensures AgreeOff(v, w, 0, vars.m) <==> Pr(vars, v) == Pr(vars, w)
  {
    if Pr(vars, v) == Pr(vars, w) {
      forall i | vars.m <= i < |v| ensures v[i] == w[i] { assert Pr(vars, v)[i - vars.m] == Pr(vars, w)[i - vars.m]; }
    }
  }

  lemma SameUnprimed(vars: Vars, v: State, w: State)
    requires Sized(vars) && |v| == |w| == vars.size
    ensures AgreeOff(v, w, vars.m, 2 * vars.m) <==> St(vars, v) == St(vars, w)
  {
    if St(vars, v) == St(vars, w) {
      forall i | 0 <= i < |v| && !(vars.m <= i < 2 * vars.m) ensures v[i] == w[i] {
        var j := if i < vars.m then i else i - vars.m;
        assert St(vars, v)[j] == v[i] && St(vars, w)[j] == w[i];
      }
    }
  }

  lemma ImageMember(vars: Vars, current: Bdd, tr: Bdd, s: iset<State>, r: iset<(State, State)>, v: State)
    requires Sized(vars) && Unprimed(vars, current, s) && Relates(vars, tr, r) && Fits(vars, r) && |v| == vars.size
    ensures v in BddExists(vars, BddAnd(current, tr), 0, vars.m) <==> Pr(vars, v) in Post(s, r)
  {
    hide Pr, St, BddExists, AgreeOff;
    ExistsMember(vars, BddAnd(current, tr), 0, vars.m, v);
    if w :| w in BddAnd(current, tr) && AgreeOff(v, w, 0, vars.m) {
      SamePrimed(vars, v, w);
    }
    if Pr(vars, v) in Post(s, r) {
      var x :| x in s && (x, Pr(vars, v)) in r;
      var w := PairOf(vars, x, Pr(vars, v));
      SamePrimed(vars, v, w);
      assert w in BddAnd(current, tr);
    }
  }

  lemma PreimageMember(vars: Vars, current: Bdd, tr: Bdd, s: iset<State>, r: iset<(State, State)>, v: State)
    requires Sized(vars) && Primed(vars, current, s) && Relates(vars, tr, r) && Fits(vars, r) && |v| == vars.size
    ensures v in BddExists(vars, BddAnd(current, tr), vars.m, 2 * vars.m) <==> St(vars, v) in Pre(s, r)
  {
    hide Pr, St, BddExists, AgreeOff;
    ExistsMember(vars, BddAnd(current, tr), vars.m, 2 * vars.m, v);
    if w :| w in BddAnd(current, tr) && AgreeOff(v, w, vars.m, 2 * vars.m) {
      SameUnprimed(vars, v, w);
    }
    if St(vars, v) in Pre(s, r) {
      var y :| y in s && (St(vars, v), y) in r;
      var w := PairOf(vars, St(vars, v), y);
      SameUnprimed(vars, v, w);
      assert w in BddAnd(current, tr);
    }
  }

  lemma ExistsWithin(vars: Vars, a: Bdd, lo: nat, hi: nat)
    ensures Within(vars, BddExists(vars, a, lo, hi))
  {
  }

  /** Quantifying the unprimed variables of a conjunction with the steps is taking the image. */
  lemma ImagePrimed(vars: Vars, current: Bdd, tr: Bdd, s: iset<State>, r: iset<(State, State)>)
    requires Sized(vars) && Unprimed(vars, current, s) && Relates(vars, tr, r) && Fits(vars, r)
    ensures Primed(vars, BddExists(vars, BddAnd(current, tr), 0, vars.m), Post(s, r))
  {
    hide Pr, St, BddExists, Within, Unprimed, Relates, Fits, Post;
    ExistsWithin(vars, BddAnd(current, tr), 0, vars.m);
    forall v: State | |v| == vars.size
      ensures v in BddExists(vars, BddAnd(current, tr), 0, vars.m) <==> Pr(vars, v) in Post(s, r)
    {
      ImageMember(vars, current, tr, s, r, v);
    }
  }

  /** Quantifying the primed variables instead is taking the preimage. */
  lemma PreimageUnprimed(vars: Vars, current: Bdd, tr: Bdd, s: iset<State>, r: iset<(State, State)>)
    requires Sized(vars) && Primed(vars, current, s) && Relates(vars, tr, r) && Fits(vars, r)
    ensures Unprimed(vars, BddExists(vars, BddAnd(current, tr), vars.m, 2 * vars.m), Pre(s, r))
  {
    hide Pr, St, BddExists, Within, Primed, Relates, Fits, Pre;
    ExistsWithin(vars, BddAnd(current, tr), vars.m, 2 * vars.m);
    forall v: State | |v| == vars.size
      ensures v in BddExists(vars, BddAnd(current, tr), vars.m, 2 * vars.m) <==> St(vars, v) in Pre(s, r)
    {
      PreimageMember(vars, current, tr, s, r, v);
    }
  }
}
