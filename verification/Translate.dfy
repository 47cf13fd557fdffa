/** From compiled transitions to the guarded updates the search runs: expanding unmentioned
    bits, dropping updates that change nothing, and the static filter by mutable axioms. */
module Translation {
  import opened Collections
  import opened Semantics
  import opened QuantEnum
  import opened Indexing
  import opened Guarded

  // Running a transition.

  function SetBit(s: State, i: nat, v: bool): (r: State)
    ensures |r| == |s|
  {
    if i < |s| then s[i := v] else s
  }

  /** Perform the updates on `next`, evaluating every formula in `s`. */
  function ApplyUpdates(updates: seq<Update>, s: State, next: State): (r: State)
    ensures |r| == |next|
    decreases |updates|
  {
    if updates == [] then next
    else ApplyUpdates(updates[1..], s, SetBit(next, updates[0].index, Evaluate(updates[0].formula, s)))
  }

  function Apply(t: Transition, s: State): (r: State)
    ensures |r| == |s|
  {
    ApplyUpdates(t.updates, s, s)
  }

  predicate Steps(t: Transition, s: State, s': State) {
    Enabled(t, s) && s' == Apply(t, s)
  }

  predicate Mentions(updates: seq<Update>, i: nat) {
    exists u | u in updates :: u.index == i
  }

  lemma {:induction false} ApplyBit(updates: seq<Update>, s: State, next: State, i: nat)
    requires !UpdateConflict(updates) && i < |next|
    ensures !Mentions(updates, i) ==> ApplyUpdates(updates, s, next)[i] == next[i]
    ensures forall u | u in updates && u.index == i :: ApplyUpdates(updates, s, next)[i] == Evaluate(u.formula, s)
    decreases |updates|
  {
    hide Evaluate;
    if updates != [] {
      var first, rest := updates[0], updates[1..];
      var next' := SetBit(next, first.index, Evaluate(first.formula, s));
      assert forall u | u in rest :: u in updates;
      assert first in updates;
      ApplyBit(rest, s, next', i);
      forall u | u in updates && u.index == i
        ensures ApplyUpdates(updates, s, next)[i] == Evaluate(u.formula, s)
      {
        if u !in rest { assert u == first; }
        if exists v | v in rest :: v.index == i {
          var v :| v in rest && v.index == i;
          assert v == u;
        }
      }
    }
  }

  // Expansion of the unconstrained bits.

  function Constant(value: bool): Formula {
    if value then AlwaysTrue else AlwaysFalse
  }

  function AddUpdate(t: Transition, i: nat, value: bool): Transition {
    t.(updates := t.updates + [Update(i, Constant(value))])
  }

  function WithUpdate(ts: seq<Transition>, i: nat, value: bool): (r: seq<Transition>)
    ensures |r| == |ts|
    ensures forall k | 0 <= k < |ts| :: r[k] == AddUpdate(ts[k], i, value)
  {
    seq(|ts|, k requires 0 <= k < |ts| => AddUpdate(ts[k], i, value))
  }

  function Expand(ts: seq<Transition>, indices: seq<nat>): seq<Transition>
    decreases |indices|
  {
    if indices == [] then ts
    else Expand(WithUpdate(ts, indices[0], false) + WithUpdate(ts, indices[0], true), indices[1..])
  }

  /** One round of expansion: every transition once with the bit cleared and once with it set. */
  method SplitOn(before: seq<Transition>, index: nat) returns (trs: seq<Transition>)
    ensures trs == WithUpdate(before, index, false) + WithUpdate(before, index, true)
  {
    trs := before;
    var len := |trs|;
    var i := 0;
    while i < len
      invariant i <= len == |before| && |trs| == len + i
      invariant forall k | 0 <= k < i :: trs[k] == AddUpdate(before[k], index, false)
      invariant forall k | i <= k < len :: trs[k] == before[k]
      invariant forall k | 0 <= k < i :: trs[len + k] == AddUpdate(before[k], index, true)
    {
      var withUnconstrained := AddUpdate(trs[i], index, true);
      trs := trs + [withUnconstrained];
      trs := trs[i := AddUpdate(trs[i], index, false)];
      i := i + 1;
    }
    assert trs[..len] == WithUpdate(before, index, false);
    assert trs[len..] == WithUpdate(before, index, true);
  }

  /** The loop that doubles the list of transitions for every unconstrained index. */
  method ExpandUnconstrained(t: Transition, unconstrained: seq<nat>) returns (trs: seq<Transition>)
    ensures trs == Expand([t], unconstrained)
  {
    hide WithUpdate;
    trs := [t];
    var n := 0;
    while n < |unconstrained|
      invariant n <= |unconstrained|
      invariant Expand(trs, unconstrained[n..]) == Expand([t], unconstrained)
    {
      assert unconstrained[n..][1..] == unconstrained[n + 1..];
      trs := SplitOn(trs, unconstrained[n]);
      n := n + 1;
    }
  }

  predicate SomeAllows(ts: seq<Transition>, s: State, s': State) {
    exists t | t in ts :: Allows(t, s, s')
  }

  lemma WithUpdateAllows(t: Transition, i: nat, value: bool, s: State, s': State)
    ensures Allows(AddUpdate(t, i, value), s, s')
      <==> Allows(t, s, s') && Bit(s', i) == value
  {
    hide Evaluate;
    FAndHolds([], s);
    FOrHolds([], s);
    var u := Update(i, Constant(value));
    assert u in t.updates + [u];
    assert forall v :: v in t.updates + [u] <==> v in t.updates || v == u;
  }

  lemma BothValuesAllow(ts: seq<Transition>, i: nat, s: State, s': State)
    ensures SomeAllows(WithUpdate(ts, i, false) + WithUpdate(ts, i, true), s, s') <==> SomeAllows(ts, s, s')
  {
    hide Allows;
    var fs, us := WithUpdate(ts, i, false), WithUpdate(ts, i, true);
    if SomeAllows(ts, s, s') {
      var t :| t in ts && Allows(t, s, s');
      var k :| 0 <= k < |ts| && ts[k] == t;
      WithUpdateAllows(t, i, Bit(s', i), s, s');
      assert (if Bit(s', i) then us[k] else fs[k]) in fs + us;
    }
    if SomeAllows(fs + us, s, s') {
      var t :| t in fs + us && Allows(t, s, s');
      var k :| 0 <= k < |fs + us| && (fs + us)[k] == t;
      var j := if k < |fs| then k else k - |fs|;
      WithUpdateAllows(ts[j], i, k >= |fs|, s, s');
      assert ts[j] in ts;
    }
  }

  /** Expansion does not change which pairs are allowed. */
  lemma {:induction false} ExpandAllows(ts: seq<Transition>, indices: seq<nat>, s: State, s': State)
    ensures SomeAllows(Expand(ts, indices), s, s') <==> SomeAllows(ts, s, s')
    decreases |indices|
  {
    if indices != [] {
      BothValuesAllow(ts, indices[0], s, s');
      ExpandAllows(WithUpdate(ts, indices[0], false) + WithUpdate(ts, indices[0], true), indices[1..], s, s');
    }
  }

  /** No conflicting updates, and every index of `covered` updated. */
  predicate Determined(t: Transition, covered: set<nat>) {
    && !UpdateConflict(t.updates)
    && forall i | i in covered :: Mentions(t.updates, i)
  }

  predicate FreshIndices(t: Transition, indices: seq<nat>) {
    forall i | i in indices :: !Mentions(t.updates, i)
  }

  lemma ExtendDetermined(t: Transition, i: nat, value: bool, covered: set<nat>, rest: seq<nat>)
    requires Determined(t, covered) && !Mentions(t.updates, i) && FreshIndices(t, rest) && i !in rest
    ensures Determined(AddUpdate(t, i, value), covered + {i})
    ensures FreshIndices(AddUpdate(t, i, value), rest)
  {
    var u := Update(i, Constant(value));
    var us := t.updates + [u];
    assert u in us;
    assert forall v :: v in us <==> v in t.updates || v == u;
    forall j | j in covered + {i} ensures Mentions(us, j) {
      if j in covered {
        var v :| v in t.updates && v.index == j;
        assert v in us;
      }
    }
  }

  lemma BothDetermined(ts: seq<Transition>, i: nat, rest: seq<nat>, covered: set<nat>, guards: seq<Guard>, x: Transition)
    requires forall t | t in ts :: Determined(t, covered) && FreshIndices(t, [i] + rest) && t.guards == guards
    requires i !in rest && x in WithUpdate(ts, i, false) + WithUpdate(ts, i, true)
    ensures Determined(x, covered + {i}) && FreshIndices(x, rest) && x.guards == guards
  {
    hide Determined;
    var both := WithUpdate(ts, i, false) + WithUpdate(ts, i, true);
    var k :| 0 <= k < |both| && both[k] == x;
    var j := if k < |ts| then k else k - |ts|;
    assert ts[j] in ts;
    assert i in [i] + rest;
    forall m | m in rest ensures !Mentions(ts[j].updates, m) { assert m in [i] + rest; }
    ExtendDetermined(ts[j], i, k >= |ts|, covered, rest);
  }

  lemma TailNoDuplicates(xs: seq<nat>)
    requires NoDuplicates(xs) && xs != []
    ensures NoDuplicates(xs[1..]) && xs[0] !in xs[1..]
  {
  }

  /** After expansion every listed index is updated, without conflicts, and guards are kept. */
  lemma {:induction false} ExpandDetermined(ts: seq<Transition>, indices: seq<nat>, covered: set<nat>, guards: seq<Guard>,
                                            t: Transition)
    requires NoDuplicates(indices) && t in Expand(ts, indices)
    requires forall x | x in ts :: Determined(x, covered) && FreshIndices(x, indices) && x.guards == guards
    ensures Determined(t, covered + (set i | i in indices)) && t.guards == guards
    decreases |indices|
  {
    hide Determined, FreshIndices, WithUpdate, NoDuplicates;
    if indices == [] {
      assert covered + (set i | i in indices) == covered;
    } else {
      var i, rest := indices[0], indices[1..];
      assert indices == [i] + rest;
      TailNoDuplicates(indices);
      var both := WithUpdate(ts, i, false) + WithUpdate(ts, i, true);
      forall x | x in both ensures Determined(x, covered + {i}) && FreshIndices(x, rest) && x.guards == guards {
        BothDetermined(ts, i, rest, covered, guards, x);
      }
      ExpandDetermined(both, rest, covered + {i}, guards, t);
      assert covered + {i} + (set m | m in rest) == covered + (set m | m in indices);
    }
  }

  // Dropping updates that change nothing.

  predicate ChangesSomething(guards: seq<Guard>, u: Update) {
    && u.formula != FLit(Guard(u.index, true))
    && !(u.formula == AlwaysTrue && Guard(u.index, true) in guards)
    && !(u.formula == AlwaysFalse && Guard(u.index, false) in guards)
  }

  function Effective(guards: seq<Guard>, updates: seq<Update>): (r: seq<Update>)
    ensures forall u :: u in r <==> u in updates && ChangesSomething(guards, u)
  {
    if updates == [] then []
    else (if ChangesSomething(guards, updates[0]) then [updates[0]] else []) + Effective(guards, updates[1..])
  }

  function RemoveNoOps(t: Transition): Transition {
    t.(updates := Effective(t.guards, t.updates))
  }

  lemma NoOpKeeps(guards: seq<Guard>, u: Update, s: State)
    requires GuardsHold(guards, s) && !ChangesSomething(guards, u)
    ensures Evaluate(u.formula, s) == Bit(s, u.index)
  {
    FAndHolds([], s);
    FOrHolds([], s);
    if u.formula == AlwaysTrue {
      assert GuardHolds(Guard(u.index, true), s);
    } else if u.formula == AlwaysFalse {
      assert GuardHolds(Guard(u.index, false), s);
    }
  }

  predicate UpdatesBelow(updates: seq<Update>, n: nat) {
    forall u | u in updates :: u.index < n
  }

  function Below(n: nat): (r: set<nat>)
    ensures forall i: nat :: i in r <==> i < n
  {
    if n == 0 then {} else Below(n - 1) + {n - 1}
  }

  /** The states a step relates: same length, and equal from `numMutables` on. */
  predicate Agreeing(numMutables: nat, s: State, s': State) {
    |s| == |s'| && forall i | numMutables <= i < |s| :: s[i] == s'[i]
  }

  /** When every mutable index is mentioned, allowing a pair is stepping from one to the
      other: unmentioned means unchanged once the updates that change nothing are gone. */
  lemma StepIffAllows(t: Transition, numMutables: nat, s: State, s': State)
    requires Determined(t, Below(numMutables))
    requires Agreeing(numMutables, s, s') && UpdatesBelow(t.updates, |s|)
    ensures Steps(RemoveNoOps(t), s, s') <==> Allows(t, s, s')
  {
    hide Evaluate, ChangesSomething;
    var r := RemoveNoOps(t);
    assert !UpdateConflict(r.updates);
    if Enabled(t, s) {
      forall i | 0 <= i < |s|
        ensures forall u | u in t.updates && u.index == i :: Apply(r, s)[i] == Evaluate(u.formula, s)
        ensures !Mentions(t.updates, i) ==> Apply(r, s)[i] == s[i]
      {
        ApplyBit(r.updates, s, s, i);
        forall u | u in t.updates && u.index == i ensures Apply(r, s)[i] == Evaluate(u.formula, s) {
          if u !in r.updates {
            NoOpKeeps(t.guards, u, s);
          }
        }
      }
      if UpdatesHold(t.updates, s, s') {
        forall i | 0 <= i < |s| ensures s'[i] == Apply(r, s)[i] {
          if i < numMutables {
            assert Mentions(t.updates, i);
            var u :| u in t.updates && u.index == i;
            assert Bit(s', u.index) == Evaluate(u.formula, s);
          } else if Mentions(t.updates, i) {
            var u :| u in t.updates && u.index == i;
            assert Bit(s', u.index) == Evaluate(u.formula, s);
          }
        }
        assert s' == Apply(r, s);
      }
      if s' == Apply(r, s) {
        forall u | u in t.updates ensures Bit(s', u.index) == Evaluate(u.formula, s) {
          assert Apply(r, s)[u.index] == Evaluate(u.formula, s);
        }
      }
    }
  }

  // The static filter by mutable axioms.

  /** The value of a formula when only some bits are known; the folds give up at the first
      subformula they cannot decide. */
  function EvaluatePartial(f: Formula, known: map<nat, bool>): Option<bool>
    decreases f, 1
  {
    match f
    case FAnd(terms) => PartialAnd(terms, true, known)
    case FOr(terms) => PartialOr(terms, false, known)
    case FLit(g) => if g.index in known then Some(known[g.index] == g.value) else None
  }

  function PartialAnd(terms: seq<Formula>, b: bool, known: map<nat, bool>): Option<bool>
    decreases terms, 0
  {
    if terms == [] then Some(b)
    else
      var v := EvaluatePartial(terms[0], known);
      if !b || v == Some(false) then PartialAnd(terms[1..], false, known)
      else if v == Some(true) then PartialAnd(terms[1..], true, known)
      else None
  }

  function PartialOr(terms: seq<Formula>, b: bool, known: map<nat, bool>): Option<bool>
    decreases terms, 0
  {
    if terms == [] then Some(b)
    else
      var v := EvaluatePartial(terms[0], known);
      if b || v == Some(true) then PartialOr(terms[1..], true, known)
      else if v == Some(false) then PartialOr(terms[1..], false, known)
      else None
  }

  predicate Completes(s: State, known: map<nat, bool>) {
    forall i | i in known :: Bit(s, i) == known[i]
  }

  /** A partial value is the value in every state with the known bits. */
  lemma {:induction false} PartialSound(f: Formula, known: map<nat, bool>, s: State)
    requires EvaluatePartial(f, known).Some? && Completes(s, known)
    ensures Evaluate(f, s) == EvaluatePartial(f, known).value
    decreases f, 1
  {
    match f
    case FLit(_) =>
    case FAnd(terms) => PartialAndSound(terms, true, known, s); FAndHolds(terms, s);
    case FOr(terms) => PartialOrSound(terms, false, known, s); FOrHolds(terms, s);
  }

  lemma {:induction false} PartialAndSound(terms: seq<Formula>, b: bool, known: map<nat, bool>, s: State)
    requires PartialAnd(terms, b, known).Some? && Completes(s, known)
    ensures PartialAnd(terms, b, known).value == (b && AllEvaluate(terms, s))
    decreases terms, 0
  {
    if terms != [] {
      assert terms == [terms[0]] + terms[1..];
      var v := EvaluatePartial(terms[0], known);
      if v.Some? { PartialSound(terms[0], known, s); }
      PartialAndSound(terms[1..], b && v != Some(false), known, s);
    }
  }

  lemma {:induction false} PartialOrSound(terms: seq<Formula>, b: bool, known: map<nat, bool>, s: State)
    requires PartialOr(terms, b, known).Some? && Completes(s, known)
    ensures PartialOr(terms, b, known).value == (b || !NoneEvaluates(terms, s))
    decreases terms, 0
  {
    if terms != [] {
      assert terms == [terms[0]] + terms[1..];
      var v := EvaluatePartial(terms[0], known);
      if v.Some? { PartialSound(terms[0], known, s); }
      PartialOrSound(terms[1..], b || v == Some(true), known, s);
    }
  }

  function GuardIndices(f: Formula): set<nat>
    decreases f, 1
  {
    match f
    case FAnd(terms) => AllGuardIndices(terms)
    case FOr(terms) => AllGuardIndices(terms)
    case FLit(g) => {g.index}
  }

  function AllGuardIndices(fs: seq<Formula>): set<nat>
    decreases fs, 0
  {
    if fs == [] then {} else GuardIndices(fs[0]) + AllGuardIndices(fs[1..])
  }

  /** A formula only looks at the bits of its guards. */
  lemma {:induction false} SameBits(f: Formula, s: State, s': State)
    requires forall i | i in GuardIndices(f) :: Bit(s, i) == Bit(s', i)
    ensures Evaluate(f, s) == Evaluate(f, s')
    decreases f
  {
    match f
    case FLit(_) =>
    case FAnd(terms) =>
      forall x | x in terms ensures Evaluate(x, s) == Evaluate(x, s') { MemberIndices(terms, x); SameBits(x, s, s'); }
    case FOr(terms) =>
      forall x | x in terms ensures Evaluate(x, s) == Evaluate(x, s') { MemberIndices(terms, x); SameBits(x, s, s'); }
  }

  lemma {:induction false} MemberIndices(fs: seq<Formula>, f: Formula)
    requires f in fs
    ensures GuardIndices(f) <= AllGuardIndices(fs)
  {
    if f != fs[0] { MemberIndices(fs[1..], f); }
  }

  /** Later entries replace earlier ones. */
  function KnownGuards(guards: seq<Guard>, updates: seq<Update>): (r: map<nat, bool>)
    ensures forall i | i in r :: !Mentions(updates, i) && Guard(i, r[i]) in guards
  {
    if guards == [] then map[]
    else
      var g := guards[|guards| - 1];
      var rest := KnownGuards(guards[..|guards| - 1], updates);
      if Mentions(updates, g.index) then rest else rest[g.index := g.value]
  }

  function KnownUpdates(updates: seq<Update>): (r: map<nat, bool>)
    ensures forall i | i in r :: Update(i, Constant(r[i])) in updates
  {
    if updates == [] then map[]
    else
      var u := updates[|updates| - 1];
      var rest := KnownUpdates(updates[..|updates| - 1]);
      if u.formula == AlwaysTrue then rest[u.index := true]
      else if u.formula == AlwaysFalse then rest[u.index := false]
      else rest
  }

  /** What is known after the transition: guards on bits it does not update, then constants. */
  function PostKnown(t: Transition): map<nat, bool> {
    KnownGuards(t.guards, t.updates) + KnownUpdates(t.updates)
  }

  lemma PostKnownHolds(t: Transition, s: State)
    requires Enabled(t, s) && !UpdateConflict(t.updates) && UpdatesBelow(t.updates, |s|)
    ensures Completes(Apply(t, s), PostKnown(t))
  {
    hide Evaluate;
    FAndHolds([], s);
    FOrHolds([], s);
    forall i | i in PostKnown(t) ensures Bit(Apply(t, s), i) == PostKnown(t)[i] {
      if i in KnownUpdates(t.updates) {
        var u := Update(i, Constant(KnownUpdates(t.updates)[i]));
        assert u in t.updates;
        ApplyBit(t.updates, s, s, i);
      } else {
        assert GuardHolds(Guard(i, KnownGuards(t.guards, t.updates)[i]), s);
        if i < |s| { ApplyBit(t.updates, s, s, i); }
      }
    }
  }

  predicate Untouched(t: Transition, axioms: Formula) {
    forall i | i in GuardIndices(axioms) :: !Mentions(t.updates, i)
  }

  function ShouldKeep(t: Transition, axioms: Formula): Outcome<bool> {
    if Untouched(t, axioms) then Success(true)
    else
      match EvaluatePartial(axioms, PostKnown(t))
      case Some(b) => Success(b)
      case None => Failure(UnprovenMutableAxiom)
  }

  /** A kept transition leads from states with the axioms to states with the axioms, and a
      dropped one never does. */
  lemma ShouldKeepSound(t: Transition, axioms: Formula, s: State)
    requires ShouldKeep(t, axioms).Success?
    requires Enabled(t, s) && Evaluate(axioms, s)
    requires !UpdateConflict(t.updates) && UpdatesBelow(t.updates, |s|)
    ensures Evaluate(axioms, Apply(t, s)) == ShouldKeep(t, axioms).value
  {
    if Untouched(t, axioms) {
      forall i | i in GuardIndices(axioms) ensures Bit(s, i) == Bit(Apply(t, s), i) {
        if i < |s| { ApplyBit(t.updates, s, s, i); }
      }
      SameBits(axioms, s, Apply(t, s));
    } else {
      PostKnownHolds(t, s);
      PartialSound(axioms, PostKnown(t), Apply(t, s));
    }
  }

  // Which transitions the expansion has, whatever the order of the bits.

  /** The transition with constants for the listed bits. */
  function WithConstants(t: Transition, order: seq<nat>, values: seq<bool>): Transition
    requires |values| == |order|
  {
    t.(updates := t.updates + seq(|order|, i requires 0 <= i < |order| => Update(order[i], Constant(values[i]))))
  }

  ghost predicate ConstantsOfSome(ts: seq<Transition>, order: seq<nat>, x: Transition) {
    exists t, values: seq<bool> :: t in ts && |values| == |order| && x == WithConstants(t, order, values)
  }

  /** The expansion has every choice of constants, once for each transition. */
  lemma {:induction false} ExpandMembers(ts: seq<Transition>, order: seq<nat>, x: Transition)
    ensures x in Expand(ts, order) <==> ConstantsOfSome(ts, order, x)
    decreases |order|
  {
    hide ConstantsOfSome, WithUpdate;
    if order == [] {
      OnlyThemselves(ts, x);
    } else {
      ExpandMembers(WithUpdate(ts, order[0], false) + WithUpdate(ts, order[0], true), order[1..], x);
      FirstConstant(ts, order, x);
    }
  }

  lemma OnlyThemselves(ts: seq<Transition>, x: Transition)
    ensures x in ts <==> ConstantsOfSome(ts, [], x)
  {
    forall t: Transition ensures WithConstants(t, [], []) == t { NoConstants(t); }
    hide WithConstants;
    var none: seq<bool>, nothing: seq<nat> := [], [];
    if x in ts { assert |none| == |nothing| && x == WithConstants(x, nothing, none); }
    if t, values: seq<bool> :| t in ts && |values| == 0 && x == WithConstants(t, [], values) { assert values == none; }
  }

  lemma FirstConstant(ts: seq<Transition>, order: seq<nat>, x: Transition)
    requires order != []
    ensures ConstantsOfSome(WithUpdate(ts, order[0], false) + WithUpdate(ts, order[0], true), order[1..], x) <==> ConstantsOfSome(ts, order, x)
  {
    hide WithConstants, AddUpdate, WithUpdate;
    var both := WithUpdate(ts, order[0], false) + WithUpdate(ts, order[0], true);
    if t, values: seq<bool> :| t in both && |values| == |order[1..]| && x == WithConstants(t, order[1..], values) {
      var t0, value := SplitFrom(ts, order[0], t);
      MoreConstants(t0, order, [value] + values);
      assert ([value] + values)[1..] == values;
    }
    if t, values: seq<bool> :| t in ts && |values| == |order| && x == WithConstants(t, order, values) {
      MoreConstants(t, order, values);
      SplitInto(ts, order[0], t, values[0]);
    }
  }

  lemma SplitFrom(ts: seq<Transition>, i: nat, x: Transition) returns (t: Transition, value: bool)
    requires x in WithUpdate(ts, i, false) + WithUpdate(ts, i, true)
    ensures t in ts && x == AddUpdate(t, i, value)
  {
    hide AddUpdate;
    var both := WithUpdate(ts, i, false) + WithUpdate(ts, i, true);
    var k :| 0 <= k < |both| && both[k] == x;
    t, value := ts[if k < |ts| then k else k - |ts|], k >= |ts|;
  }

  lemma SplitInto(ts: seq<Transition>, i: nat, t: Transition, value: bool)
    requires t in ts
    ensures AddUpdate(t, i, value) in WithUpdate(ts, i, false) + WithUpdate(ts, i, true)
  {
    hide AddUpdate;
    var k :| 0 <= k < |ts| && ts[k] == t;
    assert WithUpdate(ts, i, value)[k] == AddUpdate(t, i, value);
  }

  lemma NoConstants(t: Transition)
    ensures WithConstants(t, [], []) == t
  {
    assert t.updates + [] == t.updates;
  }

  lemma MoreConstants(t: Transition, order: seq<nat>, values: seq<bool>)
    requires order != [] && |values| == |order|
    ensures WithConstants(t, order, values) == WithConstants(AddUpdate(t, order[0], values[0]), order[1..], values[1..])
  {
    assert WithConstants(t, order, values).updates == WithConstants(AddUpdate(t, order[0], values[0]), order[1..], values[1..]).updates;
  }

  /** The same transition but for the order of its updates. */
  ghost predicate SameTransition(x: Transition, y: Transition) {
    x.guards == y.guards && x.slowGuard == y.slowGuard && forall u :: u in x.updates <==> u in y.updates
  }

  /** Expanding bits in another order gives the same transitions. */
  lemma SameExpansion(t: Transition, order: seq<nat>, other: seq<nat>, x: Transition) returns (y: Transition)
    requires x in Expand([t], order) && NoDuplicates(order) && NoDuplicates(other) && forall i :: i in order <==> i in other
    ensures y in Expand([t], other) && SameTransition(RemoveNoOps(x), RemoveNoOps(y))
  {
    hide Constant, WithConstants, ChangesSomething;
    ExpandMembers([t], order, x);
    var values: seq<bool> :| |values| == |order| && x == WithConstants(t, order, values);
    var ones := set i | 0 <= i < |order| && values[i] :: order[i];
    var back := seq<bool>(|other|, i requires 0 <= i < |other| => other[i] in ones);
    y := WithConstants(t, other, back);
    assert t in [t];
    ExpandMembers([t], other, y);
    forall u ensures u in x.updates <==> u in y.updates {
      ConstantUpdates(t, order, values, u);
      ConstantUpdates(t, other, back, u);
      SameConstants(order, values, other, back, ones, u);
    }
    SameGuards(t, order, values);
    SameGuards(t, other, back);
  }

  lemma SameGuards(t: Transition, order: seq<nat>, values: seq<bool>)
    requires |values| == |order|
    ensures WithConstants(t, order, values).guards == t.guards && WithConstants(t, order, values).slowGuard == t.slowGuard
  {
  }

  lemma ConstantUpdates(t: Transition, order: seq<nat>, values: seq<bool>, u: Update)
    requires |values| == |order|
    ensures u in WithConstants(t, order, values).updates
      <==> u in t.updates || exists i :: 0 <= i < |order| && u == Update(order[i], Constant(values[i]))
  {
    hide Constant;
    var more := seq(|order|, i requires 0 <= i < |order| => Update(order[i], Constant(values[i])));
    assert WithConstants(t, order, values).updates == t.updates + more;
    if i :| 0 <= i < |order| && u == Update(order[i], Constant(values[i])) { assert more[i] == u; }
  }

  lemma SameConstants(order: seq<nat>, values: seq<bool>, other: seq<nat>, back: seq<bool>, ones: set<nat>, u: Update)
    requires |values| == |order| && |back| == |other| && NoDuplicates(order) && forall i :: i in order <==> i in other
    requires ones == (set i | 0 <= i < |order| && values[i] :: order[i]) && forall i | 0 <= i < |other| :: back[i] == (other[i] in ones)
    ensures (exists i :: 0 <= i < |order| && u == Update(order[i], Constant(values[i])))
      <==> exists i :: 0 <= i < |other| && u == Update(other[i], Constant(back[i]))
  {
    hide Constant;
    forall i | 0 <= i < |order| ensures values[i] == (order[i] in ones) {
      if order[i] in ones { var j :| 0 <= j < |order| && values[j] && order[j] == order[i]; }
    }
    if i :| 0 <= i < |order| && u == Update(order[i], Constant(values[i])) {
      assert order[i] in other;
      var j :| 0 <= j < |other| && other[j] == order[i];
    }
    if i :| 0 <= i < |other| && u == Update(other[i], Constant(back[i])) {
      assert other[i] in order;
      var j :| 0 <= j < |order| && order[j] == other[i];
    }
  }

  // What the filter decides depends on the updates only, not on their order.

  lemma {:induction false} KnownGuardsSame(guards: seq<Guard>, us: seq<Update>, vs: seq<Update>)
    requires forall i :: Mentions(us, i) <==> Mentions(vs, i)
    ensures KnownGuards(guards, us) == KnownGuards(guards, vs)
    decreases |guards|
  {
    if guards != [] { KnownGuardsSame(guards[..|guards| - 1], us, vs); }
  }

  /** Without conflicts the known bits are those with a constant update. */
  lemma {:induction false} KnownUpdatesExact(updates: seq<Update>, i: nat)
    requires !UpdateConflict(updates)
    ensures i in KnownUpdates(updates) <==> exists b :: Update(i, Constant(b)) in updates
    ensures forall b | Update(i, Constant(b)) in updates :: i in KnownUpdates(updates) && KnownUpdates(updates)[i] == b
    decreases |updates|
  {
    if updates != [] {
      var u, front := updates[|updates| - 1], updates[..|updates| - 1];
      assert updates == front + [u];
      assert forall v :: v in updates <==> v in front || v == u;
      KnownUpdatesExact(front, i);
      assert Constant(true) != Constant(false);
      forall b | Update(i, Constant(b)) in updates ensures i in KnownUpdates(updates) && KnownUpdates(updates)[i] == b {
        if u.index == i {
          assert u == Update(i, Constant(b));
        }
      }
    }
  }

  lemma ShouldKeepSame(x: Transition, y: Transition, axioms: Formula)
    requires SameTransition(x, y) && !UpdateConflict(x.updates)
    ensures ShouldKeep(x, axioms) == ShouldKeep(y, axioms)
  {
    hide EvaluatePartial, Constant;
    assert forall i :: Mentions(x.updates, i) <==> Mentions(y.updates, i);
    KnownGuardsSame(x.guards, x.updates, y.updates);
    forall i ensures i in KnownUpdates(x.updates) <==> i in KnownUpdates(y.updates) {
      KnownUpdatesExact(x.updates, i);
      KnownUpdatesExact(y.updates, i);
    }
    forall i | i in KnownUpdates(x.updates) ensures KnownUpdates(x.updates)[i] == KnownUpdates(y.updates)[i] {
      KnownUpdatesExact(x.updates, i);
      KnownUpdatesExact(y.updates, i);
      var b :| Update(i, Constant(b)) in x.updates;
    }
    assert KnownUpdates(x.updates) == KnownUpdates(y.updates);
  }

  // When the filter decides.

  /** A conjunction is decided when its terms are, up to the first one that is false. */
  lemma {:induction false} PartialAndExact(terms: seq<Formula>, b: bool, known: map<nat, bool>)
    ensures b ==> (PartialAnd(terms, b, known) == Some(true) <==> forall i | 0 <= i < |terms| :: EvaluatePartial(terms[i], known) == Some(true))
    ensures b ==> (PartialAnd(terms, b, known) == Some(false) <==>
      exists i :: 0 <= i < |terms| && EvaluatePartial(terms[i], known) == Some(false) && AllDecided(terms, i, true, known))
    ensures !b ==> PartialAnd(terms, b, known) == Some(false)
    decreases |terms|
  {
    hide EvaluatePartial;
    if terms != [] {
      var v := EvaluatePartial(terms[0], known);
      PartialAndExact(terms[1..], b && v != Some(false), known);
      if b && v == Some(true) { DecidedTail(terms, Some(false), true, known); }
      if b && v == Some(false) { assert AllDecided(terms, 0, true, known); }
    }
  }

  lemma {:induction false} PartialOrExact(terms: seq<Formula>, b: bool, known: map<nat, bool>)
    ensures !b ==> (PartialOr(terms, b, known) == Some(false) <==> forall i | 0 <= i < |terms| :: EvaluatePartial(terms[i], known) == Some(false))
    ensures !b ==> (PartialOr(terms, b, known) == Some(true) <==>
      exists i :: 0 <= i < |terms| && EvaluatePartial(terms[i], known) == Some(true) && AllDecided(terms, i, false, known))
    ensures b ==> PartialOr(terms, b, known) == Some(true)
    decreases |terms|
  {
    hide EvaluatePartial;
    if terms != [] {
      var v := EvaluatePartial(terms[0], known);
      PartialOrExact(terms[1..], b || v == Some(true), known);
      if !b && v == Some(false) { DecidedTail(terms, Some(true), false, known); }
      if !b && v == Some(true) { assert AllDecided(terms, 0, false, known); }
    }
  }

  predicate AllDecided(terms: seq<Formula>, n: nat, b: bool, known: map<nat, bool>)
    requires n <= |terms|
  {
    forall i | 0 <= i < n :: EvaluatePartial(terms[i], known) == Some(b)
  }

  lemma DecidedTail(terms: seq<Formula>, v: Option<bool>, b: bool, known: map<nat, bool>)
    requires terms != [] && EvaluatePartial(terms[0], known) == Some(b) && v != Some(b)
    ensures (exists i :: 0 <= i < |terms| && EvaluatePartial(terms[i], known) == v && AllDecided(terms, i, b, known))
      <==> exists i :: 0 <= i < |terms[1..]| && EvaluatePartial(terms[1..][i], known) == v && AllDecided(terms[1..], i, b, known)
  {
    hide EvaluatePartial;
    if i :| 0 <= i < |terms| && EvaluatePartial(terms[i], known) == v && AllDecided(terms, i, b, known) {
      assert terms[1..][i - 1] == terms[i];
      assert AllDecided(terms[1..], i - 1, b, known);
    }
    if i :| 0 <= i < |terms[1..]| && EvaluatePartial(terms[1..][i], known) == v && AllDecided(terms[1..], i, b, known) {
      forall j | 0 <= j < i + 1 ensures EvaluatePartial(terms[j], known) == Some(b) {
        if j > 0 { assert terms[1..][j - 1] == terms[j]; }
      }
      assert AllDecided(terms, i + 1, b, known);
    }
  }

  /** When every bit of the formula is known, it is decided. */
  lemma {:induction false} PartialTotal(f: Formula, known: map<nat, bool>)
    requires GuardIndices(f) <= known.Keys
    ensures EvaluatePartial(f, known).Some?
    decreases f, 1
  {
    match f
    case FLit(_) =>
    case FAnd(terms) => PartialAndTotal(terms, true, known);
    case FOr(terms) => PartialOrTotal(terms, false, known);
  }

  lemma EitherValue(v: Option<bool>)
    requires v.Some?
    ensures v == Some(true) || v == Some(false)
  {
    var b: bool := v.value;
    assert v == Some(b);
    if b { assert v == Some(true); } else { assert v == Some(false); }
  }

  lemma {:induction false} PartialAndTotal(terms: seq<Formula>, b: bool, known: map<nat, bool>)
    requires AllGuardIndices(terms) <= known.Keys
    ensures PartialAnd(terms, b, known).Some?
    decreases terms, 0
  {
    if terms != [] {
      assert GuardIndices(terms[0]) <= AllGuardIndices(terms) && AllGuardIndices(terms[1..]) <= AllGuardIndices(terms);
      PartialTotal(terms[0], known);
      EitherValue(EvaluatePartial(terms[0], known));
      PartialAndTotal(terms[1..], true, known);
      PartialAndTotal(terms[1..], false, known);
    }
  }

  lemma {:induction false} PartialOrTotal(terms: seq<Formula>, b: bool, known: map<nat, bool>)
    requires AllGuardIndices(terms) <= known.Keys
    ensures PartialOr(terms, b, known).Some?
    decreases terms, 0
  {
    if terms != [] {
      assert GuardIndices(terms[0]) <= AllGuardIndices(terms) && AllGuardIndices(terms[1..]) <= AllGuardIndices(terms);
      PartialTotal(terms[0], known);
      EitherValue(EvaluatePartial(terms[0], known));
      PartialOrTotal(terms[1..], true, known);
      PartialOrTotal(terms[1..], false, known);
    }
  }

  /** The bits that are certain after the transition: guarded and not updated, or updated to a constant. */
  predicate Certain(t: Transition, i: nat) {
    || (!Mentions(t.updates, i) && exists g :: g in t.guards && g.index == i)
    || exists b :: Update(i, Constant(b)) in t.updates
  }

  lemma {:induction false} KnownGuardsExact(guards: seq<Guard>, updates: seq<Update>, i: nat)
    ensures i in KnownGuards(guards, updates) <==> !Mentions(updates, i) && exists g :: g in guards && g.index == i
    decreases |guards|
  {
    if guards != [] {
      var g, front := guards[|guards| - 1], guards[..|guards| - 1];
      KnownGuardsExact(front, updates, i);
      assert guards == front + [g];
      assert forall h :: h in guards <==> h in front || h == g;
    }
  }

  /** The filter never gives up on a transition that leaves the axioms alone, or makes all their bits certain. */
  lemma ShouldKeepDecides(t: Transition, axioms: Formula)
    requires !UpdateConflict(t.updates)
    requires Untouched(t, axioms) || forall i | i in GuardIndices(axioms) :: Certain(t, i)
    ensures ShouldKeep(t, axioms).Success?
  {
    if !Untouched(t, axioms) {
      forall i | i in GuardIndices(axioms) ensures i in PostKnown(t) {
        KnownGuardsExact(t.guards, t.updates, i);
        KnownUpdatesExact(t.updates, i);
        assert Certain(t, i);
      }
      PartialTotal(axioms, PostKnown(t));
    }
  }
}
