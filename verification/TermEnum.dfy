/** Listing the terms over a signature and some variables, up to a nesting depth. */
module TermEnumeration {
  import opened Collections
  import opened Syntax
  import opened FiniteModels

  /** The place of a sort in the lists; the last place is for truth values. */
  function Slot(sig: Signature, s: Sort): nat {
    match s
    case Bool => |sig.sorts|
    case Uninterpreted(name) => if name in sig.sorts then Place(sig.sorts, name).value else 0
  }

  predicate Declared(sig: Signature, s: Sort) {
    s.Bool? || s.name in sig.sorts
  }

  /** Every sort of a declaration is a sort of the signature. */
  ghost predicate ProperSorts(sig: Signature) {
    forall d <- sig.relations :: Declared(sig, d.sort) && forall s <- d.args :: Declared(sig, s)
  }

  /** Variables and symbols have different names. */
  ghost predicate DistinctSymbols(sig: Signature, vars: seq<seq<string>>) {
    && NoDuplicates(Names(sig.relations))
    && (forall i | 0 <= i < |vars| :: NoDuplicates(vars[i]))
    && forall i, d | 0 <= i < |vars| && d in sig.relations :: d.name !in vars[i]
  }

  function ArgSlot(sig: Signature, d: RelationDecl, i: nat): nat {
    if i < |d.args| then Slot(sig, d.args[i]) else 0
  }

  function Arg(args: seq<Term>, i: nat): Term {
    if i < |args| then args[i] else Literal(false)
  }

  function At<T>(lists: seq<seq<T>>, slot: nat): seq<T> {
    if slot < |lists| then lists[slot] else []
  }

  // The terms there are.

  ghost predicate Constant(sig: Signature, d: RelationDecl, name: string, slot: nat) {
    d in sig.relations && d.args == [] && d.name == name && Slot(sig, d.sort) == slot
  }

  ghost predicate Leaf(sig: Signature, vars: seq<seq<string>>, name: string, slot: nat) {
    name in At(vars, slot) || exists d :: Constant(sig, d, name, slot)
  }

  /** The declaration makes a term of the sort from arguments of its sorts. */
  ghost predicate Applies(sig: Signature, d: RelationDecl, t: Term, slot: nat) {
    && d in sig.relations && d.args != [] && Slot(sig, d.sort) == slot
    && t.App? && t.f == d.name && t.primes == 0 && |t.args| == |d.args|
  }

  /** A well-sorted term of the sort, made of variables, constants and applications. */
  ghost predicate TermAt(sig: Signature, vars: seq<seq<string>>, t: Term, slot: nat)
    decreases t, 1
  {
    match t
    case Id(name) => Leaf(sig, vars, name, slot)
    case App(_, _, args) => exists d :: Applies(sig, d, t, slot) && ArgsAt(sig, vars, d, args)
    case _ => false
  }

  ghost predicate ArgsAt(sig: Signature, vars: seq<seq<string>>, d: RelationDecl, args: seq<Term>)
    decreases args, 0
  {
    forall i | 0 <= i < |args| :: TermAt(sig, vars, args[i], ArgSlot(sig, d, i))
  }

  function DepthOf(t: Term): nat
    decreases t, 0
  {
    match t case App(_, _, args) => 1 + MaxDepth(args) case _ => 0
  }

  function MaxDepth(ts: seq<Term>): (r: nat)
    ensures forall i | 0 <= i < |ts| :: DepthOf(ts[i]) <= r
    ensures ts != [] ==> exists i :: 0 <= i < |ts| && DepthOf(ts[i]) == r
    decreases ts, 1, |ts|
  {
    if ts == [] then 0
    else
      var first, rest := DepthOf(ts[0]), MaxDepth(ts[1..]);
      assert forall i | 0 < i < |ts| :: ts[i] == ts[1..][i - 1];
      if |ts| == 1 || first >= rest then first
      else
        assert exists i :: 0 <= i < |ts[1..]| && DepthOf(ts[1..][i]) == rest by { assert ts[1..] != []; }
        assert forall i | 0 <= i < |ts[1..]| :: ts[1..][i] == ts[i + 1];
        rest
  }

  /** The lists hold exactly the terms with a depth in the range, each once. */
  ghost predicate Lists(sig: Signature, vars: seq<seq<string>>, lists: seq<seq<Term>>, lo: nat, hi: nat) {
    && |lists| == |sig.sorts| + 1
    && (forall slot: nat, t :: t in At(lists, slot) <==> slot < |lists| && TermAt(sig, vars, t, slot) && lo <= DepthOf(t) < hi)
    && forall slot: nat :: NoDuplicates(At(lists, slot))
  }

  lemma ListsFrom(sig: Signature, vars: seq<seq<string>>, lists: seq<seq<Term>>, lo: nat, hi: nat)
    requires |lists| == |sig.sorts| + 1
    requires forall slot: nat, t | slot < |lists| :: t in lists[slot] <==> TermAt(sig, vars, t, slot) && lo <= DepthOf(t) < hi
    requires forall slot: nat | slot < |lists| :: NoDuplicates(lists[slot])
    ensures Lists(sig, vars, lists, lo, hi)
  {
    hide TermAt, DepthOf;
    forall slot: nat ensures NoDuplicates(At(lists, slot)) {
    }
  }

  // One declaration and one choice of old and new arguments.

  /** The lists the arguments are taken from. */
  function ArgLists(sig: Signature, d: RelationDecl, pattern: seq<bool>, olds: seq<seq<Term>>, news: seq<seq<Term>>): (r: seq<seq<Term>>)
    ensures |r| == |pattern| && forall i | 0 <= i < |r| :: r[i] == At(if pattern[i] then news else olds, ArgSlot(sig, d, i))
  {
    seq(|pattern|, i requires 0 <= i < |pattern| => At(if pattern[i] then news else olds, ArgSlot(sig, d, i)))
  }

  function Apps(f: string, argLists: seq<seq<Term>>): (r: seq<Term>)
    ensures |r| == |argLists| && forall i | 0 <= i < |r| :: r[i] == App(f, 0, argLists[i])
  {
    seq(|argLists|, i requires 0 <= i < |argLists| => App(f, 0, argLists[i]))
  }

  function Patterns(n: nat): seq<seq<bool>> {
    Choices(seq<seq<bool>>(n, i => [false, true]))
  }

  lemma PatternsMembers(n: nat, p: seq<bool>)
    ensures p in Patterns(n) <==> |p| == n
  {
    var lists := seq<seq<bool>>(n, i => [false, true]);
    ChoicesMembers(lists, p);
    forall b: bool ensures b in [false, true] { assert [false, true][if b then 1 else 0] == b; }
  }

  lemma PatternsOnce(n: nat)
    ensures NoDuplicates(Patterns(n))
  {
    ChoicesNoDuplicates(seq<seq<bool>>(n, i => [false, true]));
  }

  /** The argument is new, if the pattern says so, and old otherwise. */
  ghost predicate Follows(sig: Signature, d: RelationDecl, pattern: seq<bool>, olds: seq<seq<Term>>, news: seq<seq<Term>>, args: seq<Term>) {
    |args| == |pattern| && forall i | 0 <= i < |args| :: args[i] in At(if pattern[i] then news else olds, ArgSlot(sig, d, i))
  }

  predicate HasNew(pattern: seq<bool>) {
    exists i :: 0 <= i < |pattern| && pattern[i]
  }

  ghost predicate IsApp(t: Term, f: string) {
    t.App? && t.f == f && t.primes == 0
  }

  ghost predicate Apart(olds: seq<seq<Term>>, news: seq<seq<Term>>) {
    && (forall i: nat :: NoDuplicates(At(olds, i)) && NoDuplicates(At(news, i)))
    && forall i: nat, t | t in At(olds, i) :: t !in At(news, i)
  }

  lemma BatchMembers(sig: Signature, d: RelationDecl, pattern: seq<bool>, olds: seq<seq<Term>>, news: seq<seq<Term>>)
    requires Apart(olds, news)
    ensures forall t :: t in Apps(d.name, Choices(ArgLists(sig, d, pattern, olds, news))) <==>
      IsApp(t, d.name) && Follows(sig, d, pattern, olds, news, t.args)
    ensures NoDuplicates(Apps(d.name, Choices(ArgLists(sig, d, pattern, olds, news))))
  {
    hide At;
    var lists := ArgLists(sig, d, pattern, olds, news);
    var batch := Apps(d.name, Choices(lists));
    ChoicesNoDuplicates(lists);
    forall t ensures t in batch <==> IsApp(t, d.name) && Follows(sig, d, pattern, olds, news, t.args) {
      if t in batch {
        var i :| 0 <= i < |batch| && batch[i] == t;
        assert Choices(lists)[i] in Choices(lists);
        ChoicesMembers(lists, t.args);
      }
      if IsApp(t, d.name) && Follows(sig, d, pattern, olds, news, t.args) {
        ChoicesMembers(lists, t.args);
        var i :| 0 <= i < |Choices(lists)| && Choices(lists)[i] == t.args;
        assert batch[i] == t;
      }
    }
  }

  ghost predicate New(sig: Signature, d: RelationDecl, news: seq<seq<Term>>, args: seq<Term>, i: nat) {
    Arg(args, i) in At(news, ArgSlot(sig, d, i))
  }

  ghost predicate Known(sig: Signature, d: RelationDecl, olds: seq<seq<Term>>, news: seq<seq<Term>>, args: seq<Term>, i: nat) {
    Arg(args, i) in At(olds, ArgSlot(sig, d, i)) || New(sig, d, news, args, i)
  }

  /** Made by a declaration from old and new arguments, at least one of them new. */
  ghost predicate Made(sig: Signature, d: RelationDecl, olds: seq<seq<Term>>, news: seq<seq<Term>>, t: Term) {
    IsApp(t, d.name) && |t.args| == |d.args| && AllKnown(sig, d, olds, news, t.args) && SomeNew(sig, d, news, t.args)
  }

  ghost predicate AllKnown(sig: Signature, d: RelationDecl, olds: seq<seq<Term>>, news: seq<seq<Term>>, args: seq<Term>) {
    forall i | 0 <= i < |args| :: Known(sig, d, olds, news, args, i)
  }

  ghost predicate SomeNew(sig: Signature, d: RelationDecl, news: seq<seq<Term>>, args: seq<Term>) {
    exists i :: 0 <= i < |args| && New(sig, d, news, args, i)
  }

  /** Made with one of the first patterns that have something new. */
  ghost predicate MadeFirst(sig: Signature, d: RelationDecl, patterns: seq<seq<bool>>, k: nat, olds: seq<seq<Term>>, news: seq<seq<Term>>, t: Term)
    requires k <= |patterns|
  {
    IsApp(t, d.name) && exists j :: 0 <= j < k && HasNew(patterns[j]) && Follows(sig, d, patterns[j], olds, news, t.args)
  }

  /** Arguments follow one pattern only. */
  lemma OnePattern(sig: Signature, d: RelationDecl, p: seq<bool>, q: seq<bool>, olds: seq<seq<Term>>, news: seq<seq<Term>>, args: seq<Term>)
    requires Apart(olds, news)
    requires Follows(sig, d, p, olds, news, args) && Follows(sig, d, q, olds, news, args)
    ensures p == q
  {
    hide At, ArgSlot;
  }

  /** Which arguments are new. */
  ghost function PatternOf(sig: Signature, d: RelationDecl, news: seq<seq<Term>>, args: seq<Term>): (p: seq<bool>)
    ensures |p| == |args| && forall i | 0 <= i < |p| :: p[i] == New(sig, d, news, args, i)
  {
    seq(|args|, i requires 0 <= i < |args| => New(sig, d, news, args, i))
  }

  lemma MadeFollows(sig: Signature, d: RelationDecl, olds: seq<seq<Term>>, news: seq<seq<Term>>, args: seq<Term>)
    requires AllKnown(sig, d, olds, news, args) && SomeNew(sig, d, news, args)
    ensures HasNew(PatternOf(sig, d, news, args)) && Follows(sig, d, PatternOf(sig, d, news, args), olds, news, args)
  {
    hide At, ArgSlot;
    var p := PatternOf(sig, d, news, args);
    var i :| 0 <= i < |args| && New(sig, d, news, args, i);
    assert p[i];
    forall i | 0 <= i < |args| ensures args[i] in At(if p[i] then news else olds, ArgSlot(sig, d, i)) {
      assert Known(sig, d, olds, news, args, i);
    }
  }

  lemma FollowsMade(sig: Signature, d: RelationDecl, p: seq<bool>, olds: seq<seq<Term>>, news: seq<seq<Term>>, args: seq<Term>)
    requires HasNew(p) && Follows(sig, d, p, olds, news, args)
    ensures AllKnown(sig, d, olds, news, args) && SomeNew(sig, d, news, args)
  {
    hide At, ArgSlot;
    var i :| 0 <= i < |p| && p[i];
    assert New(sig, d, news, args, i);
  }

  lemma MadeWithAll(sig: Signature, d: RelationDecl, olds: seq<seq<Term>>, news: seq<seq<Term>>, t: Term)
    ensures MadeFirst(sig, d, Patterns(|d.args|), |Patterns(|d.args|)|, olds, news, t) <==> Made(sig, d, olds, news, t)
  {
    hide Patterns, HasNew, Follows, AllKnown, SomeNew;
    var patterns := Patterns(|d.args|);
    if Made(sig, d, olds, news, t) {
      var p := PatternOf(sig, d, news, t.args);
      PatternsMembers(|d.args|, p);
      MadeFollows(sig, d, olds, news, t.args);
      var j :| 0 <= j < |patterns| && patterns[j] == p;
    }
    if MadeFirst(sig, d, patterns, |patterns|, olds, news, t) {
      var j :| 0 <= j < |patterns| && HasNew(patterns[j]) && Follows(sig, d, patterns[j], olds, news, t.args);
      assert patterns[j] in patterns;
      PatternsMembers(|d.args|, patterns[j]);
      FollowsMade(sig, d, patterns[j], olds, news, t.args);
      FollowsLength(sig, d, patterns[j], olds, news, t.args);
    }
  }

  lemma FollowsLength(sig: Signature, d: RelationDecl, p: seq<bool>, olds: seq<seq<Term>>, news: seq<seq<Term>>, args: seq<Term>)
    requires Follows(sig, d, p, olds, news, args)
    ensures |args| == |p|
  {
  }

  /** The new terms of one declaration: every pattern of old and new arguments is run through. */
  method AddApplications(sig: Signature, d: RelationDecl, olds: seq<seq<Term>>, news: seq<seq<Term>>, before: seq<Term>) returns (r: seq<Term>)
    requires Apart(olds, news) && NoDuplicates(before) && forall t <- before :: t.App? && t.f != d.name
    ensures forall t :: t in r <==> t in before || Made(sig, d, olds, news, t)
    ensures NoDuplicates(r)
  {
    hide Follows, Made, Patterns, HasNew, ArgLists, Apart;
    r := before;
    var patterns, k := Patterns(|d.args|), 0;
    PatternsOnce(|d.args|);
    while k < |patterns|
      invariant k <= |patterns| && NoDuplicates(r)
      invariant forall t :: t in r <==> t in before || MadeFirst(sig, d, patterns, k, olds, news, t)
    {
      var pattern := patterns[k];
      if HasNew(pattern) {
        var batch := Apps(d.name, Choices(ArgLists(sig, d, pattern, olds, news)));
        BatchMembers(sig, d, pattern, olds, news);
        forall t | t in batch ensures t !in r {
          if t in r {
            var j :| 0 <= j < k && Follows(sig, d, patterns[j], olds, news, t.args);
            OnePattern(sig, d, patterns[j], pattern, olds, news, t.args);
            assert false;
          }
        }
        AppendNoDuplicates(r, batch);
        r := r + batch;
      }
      k := k + 1;
    }
    forall t ensures MadeFirst(sig, d, patterns, k, olds, news, t) <==> Made(sig, d, olds, news, t) { MadeWithAll(sig, d, olds, news, t); }
  }

  // One round.

  ghost predicate MadeByFirst(sig: Signature, k: nat, olds: seq<seq<Term>>, news: seq<seq<Term>>, t: Term, slot: nat)
    requires k <= |sig.relations|
  {
    exists j :: 0 <= j < k && Applies(sig, sig.relations[j], t, slot) && Made(sig, sig.relations[j], olds, news, t)
  }

  lemma OldOrNew(sig: Signature, vars: seq<seq<string>>, olds: seq<seq<Term>>, news: seq<seq<Term>>, k: nat, d: RelationDecl, args: seq<Term>, i: nat)
    requires Lists(sig, vars, olds, 0, k) && Lists(sig, vars, news, k, k + 1) && ArgSlot(sig, d, i) <= |sig.sorts|
    ensures New(sig, d, news, args, i) <==> TermAt(sig, vars, Arg(args, i), ArgSlot(sig, d, i)) && DepthOf(Arg(args, i)) == k
    ensures Known(sig, d, olds, news, args, i) <==> TermAt(sig, vars, Arg(args, i), ArgSlot(sig, d, i)) && DepthOf(Arg(args, i)) <= k
  {
    hide TermAt, DepthOf, ArgSlot, At, Arg;
  }

  lemma SlotBound(sig: Signature, d: RelationDecl, i: nat)
    ensures ArgSlot(sig, d, i) <= |sig.sorts| && Slot(sig, d.sort) <= |sig.sorts|
  {
  }

  lemma MadeAt(sig: Signature, vars: seq<seq<string>>, olds: seq<seq<Term>>, news: seq<seq<Term>>, k: nat, d: RelationDecl, t: Term)
    requires Lists(sig, vars, olds, 0, k) && Lists(sig, vars, news, k, k + 1) && Made(sig, d, olds, news, t)
    ensures DepthOf(t) == k + 1 && ArgsAt(sig, vars, d, t.args)
  {
    DepthIs(t);
    hide TermAt, Lists, New, Known, DepthOf, MaxDepth, ArgSlot;
    var n :| 0 <= n < |t.args| && New(sig, d, news, t.args, n);
    var deep :| 0 <= deep < |t.args| && DepthOf(t.args[deep]) == DepthOf(t) - 1;
    forall i | 0 <= i < |t.args|
      ensures TermAt(sig, vars, t.args[i], ArgSlot(sig, d, i)) && DepthOf(t.args[i]) <= k && (i == n ==> DepthOf(t.args[i]) == k)
    {
      SlotBound(sig, d, i);
      assert Known(sig, d, olds, news, t.args, i);
      OldOrNew(sig, vars, olds, news, k, d, t.args, i);
    }
    assert DepthOf(t.args[n]) == k && DepthOf(t.args[deep]) <= k;
  }

  lemma AtMade(sig: Signature, vars: seq<seq<string>>, olds: seq<seq<Term>>, news: seq<seq<Term>>, k: nat, d: RelationDecl, t: Term)
    requires Lists(sig, vars, olds, 0, k) && Lists(sig, vars, news, k, k + 1)
    requires IsApp(t, d.name) && d.args != [] && |t.args| == |d.args| && DepthOf(t) == k + 1 && ArgsAt(sig, vars, d, t.args)
    ensures Made(sig, d, olds, news, t)
  {
    DepthIs(t);
    hide TermAt, Lists, New, Known, DepthOf, MaxDepth, ArgSlot;
    var deep :| 0 <= deep < |t.args| && DepthOf(t.args[deep]) == DepthOf(t) - 1;
    forall i | 0 <= i < |t.args| ensures Known(sig, d, olds, news, t.args, i) && (i == deep ==> New(sig, d, news, t.args, i)) {
      SlotBound(sig, d, i);
      OldOrNew(sig, vars, olds, news, k, d, t.args, i);
    }
    assert New(sig, d, news, t.args, deep);
  }

  lemma DepthIs(t: Term)
    ensures t.App? && t.args != [] ==> exists i :: 0 <= i < |t.args| && DepthOf(t.args[i]) == DepthOf(t) - 1
    ensures t.App? ==> forall i | 0 <= i < |t.args| :: DepthOf(t.args[i]) < DepthOf(t)
    ensures DepthOf(t) > 0 ==> t.App?
  {
    if t.App? && t.args != [] {
      var i :| 0 <= i < |t.args| && DepthOf(t.args[i]) == MaxDepth(t.args);
    }
  }

  /** The new terms of a round are those with one more level. */
  lemma RoundExact(sig: Signature, vars: seq<seq<string>>, olds: seq<seq<Term>>, news: seq<seq<Term>>, k: nat, t: Term, slot: nat)
    requires Lists(sig, vars, olds, 0, k) && Lists(sig, vars, news, k, k + 1)
    ensures MadeByFirst(sig, |sig.relations|, olds, news, t, slot) <==> TermAt(sig, vars, t, slot) && DepthOf(t) == k + 1
  {
    hide Made, Lists, ArgsAt, DepthOf, Slot;
    if MadeByFirst(sig, |sig.relations|, olds, news, t, slot) {
      var j :| 0 <= j < |sig.relations| && Applies(sig, sig.relations[j], t, slot) && Made(sig, sig.relations[j], olds, news, t);
      MadeAt(sig, vars, olds, news, k, sig.relations[j], t);
    }
    if TermAt(sig, vars, t, slot) && DepthOf(t) == k + 1 {
      DepthIs(t);
      var d :| Applies(sig, d, t, slot) && ArgsAt(sig, vars, d, t.args);
      AtMade(sig, vars, olds, news, k, d, t);
      var j :| 0 <= j < |sig.relations| && sig.relations[j] == d;
    }
  }

  lemma ListsApart(sig: Signature, vars: seq<seq<string>>, olds: seq<seq<Term>>, news: seq<seq<Term>>, k: nat)
    requires Lists(sig, vars, olds, 0, k) && Lists(sig, vars, news, k, k + 1)
    ensures Apart(olds, news)
  {
    hide TermAt, DepthOf, At;
    forall i: nat, t | t in At(olds, i) ensures t !in At(news, i) {
      assert DepthOf(t) < k;
    }
  }

  /** The relations that were run through have made exactly what the lists hold. */
  ghost predicate RoundSoFar(sig: Signature, j: nat, olds: seq<seq<Term>>, news: seq<seq<Term>>, next: seq<seq<Term>>)
    requires j <= |sig.relations|
  {
    && |next| == |sig.sorts| + 1
    && (forall slot, t | 0 <= slot < |next| :: t in next[slot] <==> MadeByFirst(sig, j, olds, news, t, slot))
    && forall slot | 0 <= slot < |next| :: NoDuplicates(next[slot])
  }

  lemma OtherName(sig: Signature, j: nat, olds: seq<seq<Term>>, news: seq<seq<Term>>, t: Term, slot: nat)
    requires NoDuplicates(Names(sig.relations)) && j < |sig.relations| && MadeByFirst(sig, j, olds, news, t, slot)
    ensures t.App? && t.f != sig.relations[j].name
  {
    hide Slot, Made;
    var i :| 0 <= i < j && Applies(sig, sig.relations[i], t, slot) && Made(sig, sig.relations[i], olds, news, t);
    assert Names(sig.relations)[i] != Names(sig.relations)[j];
  }

  lemma NextDeclaration(sig: Signature, j: nat, olds: seq<seq<Term>>, news: seq<seq<Term>>, t: Term, slot: nat)
    requires j < |sig.relations|
    ensures MadeByFirst(sig, j + 1, olds, news, t, slot) <==>
      || MadeByFirst(sig, j, olds, news, t, slot)
      || (Made(sig, sig.relations[j], olds, news, t) && sig.relations[j].args != [] && slot == Slot(sig, sig.relations[j].sort))
  {
    hide Slot, AllKnown, SomeNew;
  }

  lemma MoreMade(sig: Signature, j: nat, olds: seq<seq<Term>>, news: seq<seq<Term>>, next: seq<seq<Term>>, more: seq<Term>)
    requires j < |sig.relations| && sig.relations[j].args != [] && RoundSoFar(sig, j, olds, news, next)
    requires Slot(sig, sig.relations[j].sort) < |next| && NoDuplicates(more)
    requires forall t :: t in more <==> t in next[Slot(sig, sig.relations[j].sort)] || Made(sig, sig.relations[j], olds, news, t)
    ensures RoundSoFar(sig, j + 1, olds, news, next[Slot(sig, sig.relations[j].sort) := more])
  {
    hide Slot, Made, NoDuplicates, MadeByFirst;
    var grown := next[Slot(sig, sig.relations[j].sort) := more];
    forall slot, t | 0 <= slot < |grown| ensures t in grown[slot] <==> MadeByFirst(sig, j + 1, olds, news, t, slot) {
      NextDeclaration(sig, j, olds, news, t, slot);
    }
  }

  lemma NoneMade(sig: Signature, j: nat, olds: seq<seq<Term>>, news: seq<seq<Term>>, next: seq<seq<Term>>)
    requires j < |sig.relations| && sig.relations[j].args == [] && RoundSoFar(sig, j, olds, news, next)
    ensures RoundSoFar(sig, j + 1, olds, news, next)
  {
    hide Slot, Made, NoDuplicates, MadeByFirst;
    forall slot, t | 0 <= slot < |next| ensures t in next[slot] <==> MadeByFirst(sig, j + 1, olds, news, t, slot) {
      NextDeclaration(sig, j, olds, news, t, slot);
    }
  }

  lemma RoundDone(sig: Signature, vars: seq<seq<string>>, olds: seq<seq<Term>>, news: seq<seq<Term>>, next: seq<seq<Term>>, k: nat)
    requires Lists(sig, vars, olds, 0, k) && Lists(sig, vars, news, k, k + 1) && RoundSoFar(sig, |sig.relations|, olds, news, next)
    ensures Lists(sig, vars, next, k + 1, k + 2)
  {
    hide TermAt, DepthOf, NoDuplicates, MadeByFirst, Lists;
    forall slot: nat, t | slot < |next| ensures t in next[slot] <==> TermAt(sig, vars, t, slot) && k + 1 <= DepthOf(t) < k + 2 {
      RoundExact(sig, vars, olds, news, k, t, slot);
    }
    ListsFrom(sig, vars, next, k + 1, k + 2);
  }

  lemma NoTerms(sig: Signature, olds: seq<seq<Term>>, news: seq<seq<Term>>)
    ensures RoundSoFar(sig, 0, olds, news, seq(|sig.sorts| + 1, i => []))
  {
  }

  /** All terms of the next depth. */
  method Round(sig: Signature, ghost vars: seq<seq<string>>, olds: seq<seq<Term>>, news: seq<seq<Term>>, ghost k: nat) returns (next: seq<seq<Term>>)
    requires ProperSorts(sig) && NoDuplicates(Names(sig.relations))
    requires Lists(sig, vars, olds, 0, k) && Lists(sig, vars, news, k, k + 1)
    ensures Lists(sig, vars, next, k + 1, k + 2)
  {
    hide *;
    ListsApart(sig, vars, olds, news, k);
    next := seq(|sig.sorts| + 1, i => []);
    NoTerms(sig, olds, news);
    var j := 0;
    while j < |sig.relations|
      invariant j <= |sig.relations| && RoundSoFar(sig, j, olds, news, next)
    {
      var d := sig.relations[j];
      if d.args != [] {
        var slot := Slot(sig, d.sort);
        SlotBound(sig, d, 0);
        ListOf(sig, j, olds, news, next, slot);
        var more := AddApplications(sig, d, olds, news, next[slot]);
        MoreMade(sig, j, olds, news, next, more);
        next := next[slot := more];
      } else {
        NoneMade(sig, j, olds, news, next);
      }
      j := j + 1;
    }
    RoundDone(sig, vars, olds, news, next, k);
  }

  lemma ListOf(sig: Signature, j: nat, olds: seq<seq<Term>>, news: seq<seq<Term>>, next: seq<seq<Term>>, slot: nat)
    requires NoDuplicates(Names(sig.relations)) && j < |sig.relations| && RoundSoFar(sig, j, olds, news, next) && slot <= |sig.sorts|
    ensures |next| == |sig.sorts| + 1 && NoDuplicates(next[slot]) && forall t <- next[slot] :: t.App? && t.f != sig.relations[j].name
  {
    hide MadeByFirst, NoDuplicates;
    forall t <- next[slot] ensures t.App? && t.f != sig.relations[j].name { OtherName(sig, j, olds, news, t, slot); }
  }

  // Variables and constants.

  function Ids(names: seq<string>): (r: seq<Term>)
    ensures |r| == |names| && forall i | 0 <= i < |r| :: r[i] == Id(names[i])
  {
    seq(|names|, i requires 0 <= i < |names| => Id(names[i]))
  }

  ghost predicate LeafSoFar(sig: Signature, vars: seq<seq<string>>, j: nat, t: Term, slot: nat)
    requires j <= |sig.relations|
  {
    t.Id? && (t.name in At(vars, slot) || exists i :: 0 <= i < j && Constant(sig, sig.relations[i], t.name, slot))
  }

  ghost predicate LeavesSoFar(sig: Signature, vars: seq<seq<string>>, j: nat, lists: seq<seq<Term>>)
    requires j <= |sig.relations|
  {
    && |lists| == |sig.sorts| + 1
    && (forall slot, t | 0 <= slot < |lists| :: t in lists[slot] <==> LeafSoFar(sig, vars, j, t, slot))
    && forall slot | 0 <= slot < |lists| :: NoDuplicates(lists[slot])
  }

  /** Each list starts with the variables of its sort, in their order. */
  ghost predicate VarsFirst(vars: seq<seq<string>>, lists: seq<seq<Term>>) {
    forall slot: nat | slot < |vars| :: Ids(vars[slot]) <= At(lists, slot)
  }

  lemma IdsMembers(names: seq<string>, t: Term)
    ensures t in Ids(names) <==> t.Id? && t.name in names
    ensures NoDuplicates(names) ==> NoDuplicates(Ids(names))
  {
    if t in Ids(names) { var i :| 0 <= i < |names| && Ids(names)[i] == t; }
    if t.Id? && t.name in names {
      var i :| 0 <= i < |names| && names[i] == t.name;
      assert Ids(names)[i] == t;
    }
  }

  lemma NextLeaf(sig: Signature, vars: seq<seq<string>>, j: nat, t: Term, slot: nat)
    requires j < |sig.relations|
    ensures LeafSoFar(sig, vars, j + 1, t, slot) <==>
      || LeafSoFar(sig, vars, j, t, slot)
      || (t == Id(sig.relations[j].name) && sig.relations[j].args == [] && slot == Slot(sig, sig.relations[j].sort))
  {
    hide Slot, At;
    assert sig.relations[j] in sig.relations;
  }

  lemma NewLeaf(sig: Signature, vars: seq<seq<string>>, j: nat, slot: nat)
    requires j < |sig.relations| && DistinctSymbols(sig, vars) && |vars| == |sig.sorts|
    ensures !LeafSoFar(sig, vars, j, Id(sig.relations[j].name), slot)
  {
    var d := sig.relations[j];
    assert d in sig.relations;
    forall i | 0 <= i < j ensures sig.relations[i].name != d.name { assert Names(sig.relations)[i] != Names(sig.relations)[j]; }
  }

  lemma MoreLeaves(sig: Signature, vars: seq<seq<string>>, j: nat, lists: seq<seq<Term>>)
    requires j < |sig.relations| && sig.relations[j].args == [] && DistinctSymbols(sig, vars) && |vars| == |sig.sorts| && LeavesSoFar(sig, vars, j, lists)
    ensures Slot(sig, sig.relations[j].sort) < |lists|
    ensures LeavesSoFar(sig, vars, j + 1, lists[Slot(sig, sig.relations[j].sort) := lists[Slot(sig, sig.relations[j].sort)] + [Id(sig.relations[j].name)]])
  {
    SlotBound(sig, sig.relations[j], 0);
    var d, slot := sig.relations[j], Slot(sig, sig.relations[j].sort);
    NewLeaf(sig, vars, j, slot);
    hide Slot, LeafSoFar, DistinctSymbols;
    AppendNoDuplicates(lists[slot], [Id(d.name)]);
    var grown := lists[slot := lists[slot] + [Id(d.name)]];
    forall s, t | 0 <= s < |grown| ensures t in grown[s] <==> LeafSoFar(sig, vars, j + 1, t, s) { NextLeaf(sig, vars, j, t, s); }
  }

  lemma SameLeaves(sig: Signature, vars: seq<seq<string>>, j: nat, lists: seq<seq<Term>>)
    requires j < |sig.relations| && sig.relations[j].args != [] && LeavesSoFar(sig, vars, j, lists)
    ensures LeavesSoFar(sig, vars, j + 1, lists)
  {
    hide Slot, LeafSoFar;
    forall s, t | 0 <= s < |lists| ensures t in lists[s] <==> LeafSoFar(sig, vars, j + 1, t, s) { NextLeaf(sig, vars, j, t, s); }
  }

  lemma FirstLeaves(sig: Signature, vars: seq<seq<string>>, lists: seq<seq<Term>>)
    requires DistinctSymbols(sig, vars) && |vars| == |sig.sorts| && |lists| == |sig.sorts| + 1
    requires forall slot | 0 <= slot < |lists| :: lists[slot] == Ids(At(vars, slot))
    ensures LeavesSoFar(sig, vars, 0, lists)
  {
    forall slot, t | 0 <= slot < |lists|
      ensures t in lists[slot] <==> LeafSoFar(sig, vars, 0, t, slot)
      ensures NoDuplicates(lists[slot])
    {
      IdsMembers(At(vars, slot), t);
    }
    forall slot | 0 <= slot < |lists| ensures NoDuplicates(lists[slot]) { IdsMembers(At(vars, slot), Literal(true)); }
  }

  lemma LeavesDone(sig: Signature, vars: seq<seq<string>>, lists: seq<seq<Term>>)
    requires LeavesSoFar(sig, vars, |sig.relations|, lists)
    ensures Lists(sig, vars, lists, 0, 1)
  {
    hide NoDuplicates, LeafSoFar, TermAt, DepthOf;
    forall slot: nat, t | slot < |lists| ensures t in lists[slot] <==> TermAt(sig, vars, t, slot) && 0 <= DepthOf(t) < 1 {
      LeafTerm(sig, vars, t, slot);
    }
    ListsFrom(sig, vars, lists, 0, 1);
  }

  lemma LeafTerm(sig: Signature, vars: seq<seq<string>>, t: Term, slot: nat)
    ensures LeafSoFar(sig, vars, |sig.relations|, t, slot) <==> TermAt(sig, vars, t, slot) && DepthOf(t) == 0
  {
    hide Slot, At;
    if t.Id? {
      if d :| Constant(sig, d, t.name, slot) {
        var i :| 0 <= i < |sig.relations| && sig.relations[i] == d;
      }
    }
  }

  /** The terms of depth 0. */
  method Leaves(sig: Signature, vars: seq<seq<string>>) returns (news: seq<seq<Term>>)
    requires DistinctSymbols(sig, vars) && |vars| == |sig.sorts|
    ensures Lists(sig, vars, news, 0, 1) && VarsFirst(vars, news)
  {
    hide LeavesSoFar, DistinctSymbols, Slot, Lists;
    news := seq(|sig.sorts| + 1, i => []);
    var i := 0;
    while i < |vars|
      invariant i <= |vars| && |news| == |sig.sorts| + 1
      invariant forall slot | 0 <= slot < |news| :: news[slot] == if slot < i then Ids(vars[slot]) else []
    {
      news := news[i := Ids(vars[i])];
      i := i + 1;
    }
    FirstLeaves(sig, vars, news);
    var j := 0;
    while j < |sig.relations|
      invariant j <= |sig.relations| && |news| == |sig.sorts| + 1 && LeavesSoFar(sig, vars, j, news) && VarsFirst(vars, news)
    {
      var d := sig.relations[j];
      if d.args == [] {
        MoreLeaves(sig, vars, j, news);
        var slot := Slot(sig, d.sort);
        news := news[slot := news[slot] + [Id(d.name)]];
      } else {
        SameLeaves(sig, vars, j, news);
      }
      j := j + 1;
    }
    LeavesDone(sig, vars, news);
  }

  // All rounds.

  function Joined(a: seq<seq<Term>>, b: seq<seq<Term>>): (r: seq<seq<Term>>)
    requires |a| == |b|
    ensures |r| == |a| && forall i | 0 <= i < |r| :: r[i] == a[i] + b[i]
  {
    seq(|a|, i requires 0 <= i < |a| => a[i] + b[i])
  }

  lemma JoinedLists(sig: Signature, vars: seq<seq<string>>, olds: seq<seq<Term>>, news: seq<seq<Term>>, k: nat)
    requires Lists(sig, vars, olds, 0, k) && Lists(sig, vars, news, k, k + 1)
    ensures |olds| == |news| && Lists(sig, vars, Joined(olds, news), 0, k + 1)
  {
    hide TermAt, DepthOf;
    ListsApart(sig, vars, olds, news, k);
    var all := Joined(olds, news);
    forall slot: nat ensures NoDuplicates(At(all, slot)) {
      if slot < |all| {
        assert all[slot] == At(olds, slot) + At(news, slot);
        AppendNoDuplicates(At(olds, slot), At(news, slot));
      }
    }
    forall slot: nat, t ensures t in At(all, slot) <==> slot < |all| && TermAt(sig, vars, t, slot) && 0 <= DepthOf(t) < k + 1 {
      if slot < |all| { assert all[slot] == At(olds, slot) + At(news, slot); }
    }
  }

  /** A term has subterms of every smaller depth. */
  lemma {:induction false} Subterm(sig: Signature, vars: seq<seq<string>>, t: Term, slot: nat, k: nat) returns (u: Term, s: nat)
    requires TermAt(sig, vars, t, slot) && slot <= |sig.sorts| && k <= DepthOf(t)
    ensures TermAt(sig, vars, u, s) && s <= |sig.sorts| && DepthOf(u) == k
    decreases t
  {
    if DepthOf(t) == k {
      u, s := t, slot;
    } else {
      DepthIs(t);
      var d :| Applies(sig, d, t, slot) && ArgsAt(sig, vars, d, t.args);
      var i :| 0 <= i < |t.args| && DepthOf(t.args[i]) == DepthOf(t) - 1;
      hide DepthOf, Slot;
      SlotBound(sig, d, i);
      u, s := Subterm(sig, vars, t.args[i], ArgSlot(sig, d, i), k);
    }
  }

  ghost predicate AllEmpty(lists: seq<seq<Term>>) {
    forall l <- lists :: l == []
  }

  lemma EmptyList(lists: seq<seq<Term>>, slot: nat)
    requires AllEmpty(lists)
    ensures At(lists, slot) == []
  {
    if slot < |lists| { assert lists[slot] in lists; }
  }

  lemma NothingThere(sig: Signature, vars: seq<seq<string>>, news: seq<seq<Term>>, k: nat, t: Term, slot: nat)
    requires Lists(sig, vars, news, k, k + 1) && AllEmpty(news) && TermAt(sig, vars, t, slot) && slot <= |sig.sorts|
    ensures DepthOf(t) < k
  {
    hide TermAt, DepthOf, At, NoDuplicates;
    if DepthOf(t) >= k {
      var u, s := Subterm(sig, vars, t, slot, k);
      EmptyList(news, s);
    }
  }

  lemma NothingDeeper(sig: Signature, vars: seq<seq<string>>, terms: seq<seq<Term>>, news: seq<seq<Term>>, k: nat, depth: nat)
    requires Lists(sig, vars, news, k, k + 1) && AllEmpty(news) && Lists(sig, vars, terms, 0, k + 1) && k <= depth
    ensures Lists(sig, vars, terms, 0, depth + 1)
  {
    hide NoDuplicates, TermAt, DepthOf;
    forall slot: nat, t | slot < |terms| ensures t in terms[slot] <==> TermAt(sig, vars, t, slot) && 0 <= DepthOf(t) < depth + 1 {
      assert t in At(terms, slot) <==> TermAt(sig, vars, t, slot) && DepthOf(t) < k + 1;
      if TermAt(sig, vars, t, slot) { NothingThere(sig, vars, news, k, t, slot); }
    }
    forall slot: nat | slot < |terms| ensures NoDuplicates(terms[slot]) { assert NoDuplicates(At(terms, slot)); }
    ListsFrom(sig, vars, terms, 0, depth + 1);
  }

  lemma JoinedVars(vars: seq<seq<string>>, olds: seq<seq<Term>>, news: seq<seq<Term>>)
    requires |olds| == |news| && |vars| <= |olds|
    ensures VarsFirst(vars, olds) || (VarsFirst(vars, news) && AllEmpty(olds)) ==> VarsFirst(vars, Joined(olds, news))
  {
    forall slot: nat | slot < |vars| && AllEmpty(olds) ensures At(Joined(olds, news), slot) == At(news, slot) {
      assert olds[slot] in olds;
    }
  }

  /** After `k` rounds. */
  ghost predicate Rounds(sig: Signature, vars: seq<seq<string>>, terms: seq<seq<Term>>, news: seq<seq<Term>>, k: nat) {
    && |terms| == |news| == |sig.sorts| + 1
    && Lists(sig, vars, terms, 0, k) && Lists(sig, vars, news, k, k + 1)
    && (VarsFirst(vars, terms) || (VarsFirst(vars, news) && AllEmpty(terms)))
  }

  lemma OneMoreRound(sig: Signature, vars: seq<seq<string>>, terms: seq<seq<Term>>, news: seq<seq<Term>>, k: nat)
    requires Rounds(sig, vars, terms, news, k) && |vars| == |sig.sorts|
    ensures |terms| == |news| && Lists(sig, vars, Joined(terms, news), 0, k + 1) && VarsFirst(vars, Joined(terms, news))
  {
    hide Lists, VarsFirst;
    JoinedLists(sig, vars, terms, news, k);
    JoinedVars(vars, terms, news);
  }

  lemma NoLists(sig: Signature, vars: seq<seq<string>>, lists: seq<seq<Term>>)
    requires |lists| == |sig.sorts| + 1 && forall i | 0 <= i < |lists| :: lists[i] == []
    ensures Lists(sig, vars, lists, 0, 0) && AllEmpty(lists)
  {
    hide TermAt, DepthOf;
    ListsFrom(sig, vars, lists, 0, 0);
  }

  lemma ListsLength(sig: Signature, vars: seq<seq<string>>, lists: seq<seq<Term>>, lo: nat, hi: nat)
    requires Lists(sig, vars, lists, lo, hi)
    ensures |lists| == |sig.sorts| + 1
  {
  }

  /** No term is nested deeper. */
  ghost predicate Bounded(sig: Signature, vars: seq<seq<string>>, bound: nat) {
    forall slot: nat, t | slot <= |sig.sorts| && TermAt(sig, vars, t, slot) :: DepthOf(t) <= bound
  }

  ghost predicate Shallower(sig: Signature, vars: seq<seq<string>>, k: nat) {
    forall slot: nat, t | slot <= |sig.sorts| && TermAt(sig, vars, t, slot) :: DepthOf(t) < k
  }

  /** The loop without a depth ends in a round exactly when all terms are less deep: it ends at all exactly
      when the depth of the terms is bounded. */
  lemma EndsWhenBounded(sig: Signature, vars: seq<seq<string>>, news: seq<seq<Term>>, k: nat)
    requires Lists(sig, vars, news, k, k + 1)
    ensures AllEmpty(news) <==> Shallower(sig, vars, k)
  {
    hide TermAt, DepthOf, NoDuplicates;
    if AllEmpty(news) {
      forall slot: nat, t | slot <= |sig.sorts| && TermAt(sig, vars, t, slot) ensures DepthOf(t) < k { NothingThere(sig, vars, news, k, t, slot); }
    }
    if !AllEmpty(news) {
      var l :| l in news && l != [];
      var slot: nat :| slot < |news| && news[slot] == l;
      assert l[0] in At(news, slot) && TermAt(sig, vars, l[0], slot) && DepthOf(l[0]) >= k;
    }
  }

  lemma BoundedRounds(sig: Signature, vars: seq<seq<string>>, news: seq<seq<Term>>, k: nat, bound: nat)
    requires Lists(sig, vars, news, k, k + 1) && Bounded(sig, vars, bound) && !AllEmpty(news)
    ensures k <= bound
  {
    hide TermAt, DepthOf, NoDuplicates;
    EndsWhenBounded(sig, vars, news, k);
  }

  lemma EverythingListed(sig: Signature, vars: seq<seq<string>>, terms: seq<seq<Term>>, news: seq<seq<Term>>, k: nat, bound: nat)
    requires Lists(sig, vars, news, k, k + 1) && AllEmpty(news) && Lists(sig, vars, terms, 0, k + 1) && Bounded(sig, vars, bound)
    ensures Lists(sig, vars, terms, 0, bound + 1)
  {
    hide TermAt, DepthOf, NoDuplicates;
    EndsWhenBounded(sig, vars, news, k);
    forall slot: nat, t | slot < |terms| ensures t in terms[slot] <==> TermAt(sig, vars, t, slot) && 0 <= DepthOf(t) < bound + 1 {
      assert t in At(terms, slot) <==> TermAt(sig, vars, t, slot) && DepthOf(t) < k + 1;
    }
    forall slot: nat | slot < |terms| ensures NoDuplicates(terms[slot]) { assert NoDuplicates(At(terms, slot)); }
    ListsFrom(sig, vars, terms, 0, bound + 1);
  }

  /** Exactly the well-sorted terms of nesting at most `depth`, each once; the variables of each
      sort come first.  Without a depth all terms, if their depth is bounded. */
  method TermsUpTo(sig: Signature, vars: seq<seq<string>>, depth: Option<nat>, ghost bound: nat) returns (terms: seq<seq<Term>>)
    requires ProperSorts(sig) && DistinctSymbols(sig, vars) && |vars| == |sig.sorts|
    requires if depth.Some? then bound == depth.value else Bounded(sig, vars, bound)
    ensures Lists(sig, vars, terms, 0, bound + 1) && VarsFirst(vars, terms)
  {
    assert NoDuplicates(Names(sig.relations));
    hide Lists, VarsFirst, ProperSorts, DistinctSymbols, NoDuplicates, Joined, Bounded;
    terms := seq(|sig.sorts| + 1, i => []);
    NoLists(sig, vars, terms);
    var news := Leaves(sig, vars);
    ListsLength(sig, vars, news, 0, 1);
    var left := depth;
    ghost var k := 0;
    while (exists l <- news :: l != []) && (left.None? || left.value > 0)
      invariant left.Some? <==> depth.Some?
      invariant Rounds(sig, vars, terms, news, k) && (left.Some? ==> k + left.value == bound)
      decreases bound + 1 - k
    {
      if left.Some? { left := Some(left.value - 1); } else { BoundedRounds(sig, vars, news, k, bound); }
      var next := Round(sig, vars, terms, news, k);
      ListsLength(sig, vars, next, k + 1, k + 2);
      OneMoreRound(sig, vars, terms, news, k);
      terms := Joined(terms, news);
      ListsLength(sig, vars, terms, 0, k + 1);
      news := next;
      k := k + 1;
    }
    OneMoreRound(sig, vars, terms, news, k);
    terms := Joined(terms, news);
    if left.None? {
      EverythingListed(sig, vars, terms, news, k, bound);
    } else if left.value > 0 {
      NothingDeeper(sig, vars, terms, news, k, bound);
    }
  }

  // Equalities.

  function Comparisons(op: BOp, x: Term, ys: seq<Term>): (r: seq<Term>)
    ensures |r| == |ys| && forall i | 0 <= i < |r| :: r[i] == BinOp(op, x, ys[i])
  {
    seq(|ys|, i requires 0 <= i < |ys| => BinOp(op, x, ys[i]))
  }

  /** A comparison of every two terms, the earlier one on the left. */
  function Pairs(op: BOp, xs: seq<Term>): seq<Term> {
    if xs == [] then [] else Comparisons(op, xs[0], xs[1..]) + Pairs(op, xs[1..])
  }

  ghost predicate Compares(op: BOp, xs: seq<Term>, t: Term) {
    exists i, j :: 0 <= i < j < |xs| && t == BinOp(op, xs[i], xs[j])
  }

  /** A comparison is with the first term or among the others. */
  lemma ComparesStep(op: BOp, xs: seq<Term>, t: Term)
    requires xs != []
    ensures Compares(op, xs, t) <==> t in Comparisons(op, xs[0], xs[1..]) || Compares(op, xs[1..], t)
  {
    var first, rest := Comparisons(op, xs[0], xs[1..]), xs[1..];
    if Compares(op, xs, t) {
      var i, j :| 0 <= i < j < |xs| && t == BinOp(op, xs[i], xs[j]);
      if i == 0 { assert first[j - 1] == t; } else { assert t == BinOp(op, rest[i - 1], rest[j - 1]); }
    }
    if t in first {
      var j :| 0 <= j < |rest| && first[j] == t;
      assert t == BinOp(op, xs[0], xs[j + 1]);
    }
    if Compares(op, rest, t) {
      var i, j :| 0 <= i < j < |rest| && t == BinOp(op, rest[i], rest[j]);
      assert t == BinOp(op, xs[i + 1], xs[j + 1]);
    }
  }

  lemma {:induction false} PairsMembers(op: BOp, xs: seq<Term>, t: Term)
    ensures t in Pairs(op, xs) <==> Compares(op, xs, t)
    decreases |xs|
  {
    if xs != [] {
      PairsMembers(op, xs[1..], t);
      ComparesStep(op, xs, t);
    }
  }

  lemma {:induction false} PairsOnce(op: BOp, xs: seq<Term>)
    requires NoDuplicates(xs)
    ensures NoDuplicates(Pairs(op, xs))
    decreases |xs|
  {
    if xs != [] {
      var first, rest := Comparisons(op, xs[0], xs[1..]), Pairs(op, xs[1..]);
      assert forall i, j | 0 <= i < j < |xs[1..]| :: xs[1..][i] == xs[i + 1] && xs[1..][j] == xs[j + 1];
      PairsOnce(op, xs[1..]);
      forall t | t in rest ensures t !in first {
        PairsMembers(op, xs[1..], t);
        var i, j :| 0 <= i < j < |xs[1..]| && t == BinOp(op, xs[1..][i], xs[1..][j]);
        assert t.lhs != xs[0];
      }
      AppendNoDuplicates(first, rest);
    }
  }

  /** Variables of different sorts have different names. */
  ghost predicate DistinctVars(vars: seq<seq<string>>) {
    forall i, j | 0 <= i < j < |vars| :: forall x | x in vars[i] :: x !in vars[j]
  }

  lemma OneDeclaration(sig: Signature, d: RelationDecl, e: RelationDecl)
    requires NoDuplicates(Names(sig.relations)) && d in sig.relations && e in sig.relations && d.name == e.name
    ensures d == e
  {
    var i :| 0 <= i < |sig.relations| && sig.relations[i] == d;
    var j :| 0 <= j < |sig.relations| && sig.relations[j] == e;
    assert Names(sig.relations)[i] == Names(sig.relations)[j];
  }

  lemma OneSlot(sig: Signature, vars: seq<seq<string>>, t: Term, i: nat, j: nat)
    requires DistinctSymbols(sig, vars) && DistinctVars(vars) && TermAt(sig, vars, t, i) && TermAt(sig, vars, t, j)
    ensures i == j
  {
    hide ArgsAt, Slot, NoDuplicates;
    match t {
      case Id(name) =>
        if d :| Constant(sig, d, name, i) { if e :| Constant(sig, e, name, j) { OneDeclaration(sig, d, e); } }
      case App(_, _, args) =>
        var d :| Applies(sig, d, t, i) && ArgsAt(sig, vars, d, args);
        var e :| Applies(sig, e, t, j) && ArgsAt(sig, vars, e, args);
        OneDeclaration(sig, d, e);
      case _ =>
    }
  }

  /** While the equations are collected. */
  ghost predicate EquationsOf(terms: seq<seq<Term>>, n: nat, equations: seq<Term>)
    requires n <= |terms|
  {
    forall t :: t in equations <==> exists slot :: 0 <= slot < n && Compares(Equals, terms[slot], t)
  }

  lemma MoreEquations(sig: Signature, vars: seq<seq<string>>, terms: seq<seq<Term>>, n: nat, equations: seq<Term>)
    requires DistinctSymbols(sig, vars) && DistinctVars(vars) && n < |terms| && EquationsOf(terms, n, equations)
    requires forall slot: nat, t | slot < |terms| && t in terms[slot] :: TermAt(sig, vars, t, slot)
    requires NoDuplicates(equations) && NoDuplicates(terms[n])
    ensures NoDuplicates(equations + Pairs(Equals, terms[n]))
  {
    hide DistinctSymbols, DistinctVars, TermAt, NoDuplicates;
    PairsOnce(Equals, terms[n]);
    forall t | t in Pairs(Equals, terms[n]) ensures t !in equations {
      PairsMembers(Equals, terms[n], t);
      var i, j :| 0 <= i < j < |terms[n]| && t == BinOp(Equals, terms[n][i], terms[n][j]);
      if t in equations {
        var slot :| 0 <= slot < n && Compares(Equals, terms[slot], t);
        var k, l :| 0 <= k < l < |terms[slot]| && t == BinOp(Equals, terms[slot][k], terms[slot][l]);
        assert terms[slot][k] in terms[slot] && terms[n][i] in terms[n];
        OneSlot(sig, vars, terms[n][i], n, slot);
      }
    }
    AppendNoDuplicates(equations, Pairs(Equals, terms[n]));
  }

  lemma EquationsApart(sig: Signature, vars: seq<seq<string>>, terms: seq<seq<Term>>, n: nat, equations: seq<Term>, truths: seq<Term>)
    requires n <= |terms| && EquationsOf(terms, n, equations) && NoDuplicates(equations) && NoDuplicates(truths)
    requires forall t | t in truths :: TermAt(sig, vars, t, |sig.sorts|)
    ensures NoDuplicates(truths + equations)
  {
    forall t | t in equations ensures t !in truths {
      var slot :| 0 <= slot < n && Compares(Equals, terms[slot], t);
      assert t.BinOp?;
    }
    hide TermAt, NoDuplicates;
    AppendNoDuplicates(truths, equations);
  }

  /** All terms, and the equations between different terms of a sort if asked for; each equation once, if the
      variables of different sorts have different names. */
  method TermsBySort(sig: Signature, vars: seq<seq<string>>, depth: Option<nat>, includeEq: bool, ghost bound: nat) returns (terms: seq<seq<Term>>)
    requires ProperSorts(sig) && DistinctSymbols(sig, vars) && |vars| == |sig.sorts|
    requires if depth.Some? then bound == depth.value else Bounded(sig, vars, bound)
    ensures |terms| == |sig.sorts| + 1 && VarsFirst(vars, terms)
    ensures forall slot: nat, t | slot < |sig.sorts| :: t in terms[slot] <==> TermAt(sig, vars, t, slot) && DepthOf(t) <= bound
    ensures forall slot: nat | slot < |sig.sorts| :: NoDuplicates(terms[slot])
    ensures forall t :: t in terms[|sig.sorts|] <==>
      || (TermAt(sig, vars, t, |sig.sorts|) && DepthOf(t) <= bound)
      || (includeEq && exists slot :: 0 <= slot < |sig.sorts| && Compares(Equals, terms[slot], t))
    ensures DistinctVars(vars) ==> NoDuplicates(terms[|sig.sorts|])
    ensures !includeEq ==> Lists(sig, vars, terms, 0, bound + 1)
  {
    hide TermAt, DepthOf, VarsFirst, ProperSorts, DistinctSymbols, DistinctVars, NoDuplicates, Compares, Bounded;
    terms := TermsUpTo(sig, vars, depth, bound);
    forall slot: nat, t | slot <= |sig.sorts| ensures t in terms[slot] <==> TermAt(sig, vars, t, slot) && DepthOf(t) <= bound {
      assert At(terms, slot) == terms[slot];
    }
    forall slot: nat | slot <= |sig.sorts| ensures NoDuplicates(terms[slot]) { assert At(terms, slot) == terms[slot]; }
    if includeEq {
      var equations, i := [], 0;
      NoEquations();
      while i < |sig.sorts|
        invariant i <= |sig.sorts| && EquationsOf(terms, i, equations)
        invariant DistinctVars(vars) ==> NoDuplicates(equations)
      {
        forall t ensures t in Pairs(Equals, terms[i]) <==> Compares(Equals, terms[i], t) { PairsMembers(Equals, terms[i], t); }
        if DistinctVars(vars) { MoreEquations(sig, vars, terms, i, equations); }
        equations := equations + Pairs(Equals, terms[i]);
        i := i + 1;
      }
      if DistinctVars(vars) { EquationsApart(sig, vars, terms, i, equations, terms[|sig.sorts|]); }
      OtherVars(vars, terms, |sig.sorts|, terms[|sig.sorts|] + equations);
      ghost var plain := terms;
      terms := terms[|sig.sorts| := terms[|sig.sorts|] + equations];
      assert forall slot | 0 <= slot < |sig.sorts| :: terms[slot] == plain[slot];
    }
  }

  lemma NoEquations()
    ensures NoDuplicates<Term>([])
  {
  }

  lemma OtherVars(vars: seq<seq<string>>, lists: seq<seq<Term>>, slot: nat, more: seq<Term>)
    requires |vars| <= slot < |lists| && VarsFirst(vars, lists)
    ensures VarsFirst(vars, lists[slot := more])
  {
    forall s: nat | s < |vars| ensures Ids(vars[s]) <= At(lists[slot := more], s) { assert Ids(vars[s]) <= At(lists, s); }
  }
}
