/** Sequence helpers shared by the other modules: sorting and removing adjacent
    duplicates as the simplifying constructors do, and cartesian products. */
module Collections {

  datatype Option<+T> = None | Some(value: T)

  /** Insert `x` before the first element it is not above. */
  function InsertSorted<T>(leq: (T, T) -> bool, x: T, xs: seq<T>): seq<T> {
    if xs == [] then [x]
    else if leq(x, xs[0]) then [x] + xs
    else [xs[0]] + InsertSorted(leq, x, xs[1..])
  }

  function Sorted<T>(leq: (T, T) -> bool, xs: seq<T>): seq<T> {
    if xs == [] then [] else InsertSorted(leq, xs[0], Sorted(leq, xs[1..]))
  }

  /** Drop every element equal to its predecessor. */
  function Dedup<T(==)>(xs: seq<T>): seq<T> {
    if |xs| < 2 then xs
    else if xs[0] == xs[1] then Dedup(xs[1..])
    else [xs[0]] + Dedup(xs[1..])
  }

  lemma {:induction false} InsertSortedMembers<T>(leq: (T, T) -> bool, x: T, xs: seq<T>)
    ensures forall y :: y in InsertSorted(leq, x, xs) <==> y == x || y in xs
  {
    if xs != [] && !leq(x, xs[0]) {
      InsertSortedMembers(leq, x, xs[1..]);
    }
  }

  lemma {:induction false} SortMembers<T>(leq: (T, T) -> bool, xs: seq<T>)
    ensures forall y :: y in Sorted(leq, xs) <==> y in xs
  {
    if xs != [] {
      SortMembers(leq, xs[1..]);
      InsertSortedMembers(leq, xs[0], Sorted(leq, xs[1..]));
    }
  }

  lemma {:induction false} DedupMembers<T>(xs: seq<T>)
    ensures forall y :: y in Dedup(xs) <==> y in xs
  {
    if |xs| >= 2 {
      DedupMembers(xs[1..]);
    }
  }

  /** Sorting and removing duplicates keeps exactly the same elements. */
  lemma SortDedupMembers<T>(leq: (T, T) -> bool, xs: seq<T>)
    ensures forall y :: y in Dedup(Sorted(leq, xs)) <==> y in xs
  {
    SortMembers(leq, xs);
    DedupMembers(Sorted(leq, xs));
  }

  function Flatten<T>(xss: seq<seq<T>>): seq<T> {
    if xss == [] then [] else xss[0] + Flatten(xss[1..])
  }

  lemma {:induction false} FlattenMembers<T>(xss: seq<seq<T>>, y: T)
    ensures y in Flatten(xss) <==> exists i :: 0 <= i < |xss| && y in xss[i]
  {
    if xss != [] {
      FlattenMembers(xss[1..], y);
      if y in Flatten(xss[1..]) {
        var i :| 0 <= i < |xss[1..]| && y in xss[1..][i];
        assert y in xss[i + 1];
      }
      if i :| 0 <= i < |xss| && y in xss[i] {
        assert i > 0 ==> y in xss[1..][i - 1];
      }
    }
  }

  /** Prefix every tuple of `rest` with every number below `n`. */
  function Prefixed(n: nat, rest: seq<seq<nat>>): seq<seq<nat>> {
    if n == 0 then []
    else Prefixed(n - 1, rest) + seq(|rest|, i requires 0 <= i < |rest| => [n - 1 as nat] + rest[i])
  }

  /** All tuples of numbers below the entries of `shape`, the leftmost entry slowest.
      The product of no factors is the one empty tuple. */
  function Product(shape: seq<nat>): seq<seq<nat>> {
    if shape == [] then [[]] else Prefixed(shape[0], Product(shape[1..]))
  }

  /** `es` is a tuple of numbers below the entries of `shape`. */
  predicate InShape(es: seq<nat>, shape: seq<nat>) {
    && |es| == |shape|
    && forall i | 0 <= i < |es| :: es[i] < shape[i]
  }

  lemma {:induction false} PrefixedMembers(n: nat, rest: seq<seq<nat>>, es: seq<nat>)
    ensures es in Prefixed(n, rest) <==> es != [] && es[0] < n && es[1..] in rest
  {
    if n != 0 {
      PrefixedMembers(n - 1, rest, es);
      var last := seq(|rest|, i requires 0 <= i < |rest| => [n - 1 as nat] + rest[i]);
      if es in last {
        var i :| 0 <= i < |last| && es == last[i];
        assert es[1..] == rest[i];
      }
      if es != [] && es[0] == n - 1 && es[1..] in rest {
        var i :| 0 <= i < |rest| && es[1..] == rest[i];
        assert es == last[i];
      }
    }
  }

  /** The product lists exactly the tuples that fit the shape. */
  lemma {:induction false} ProductMembers(shape: seq<nat>, es: seq<nat>)
    ensures es in Product(shape) <==> InShape(es, shape)
  {
    if shape != [] {
      PrefixedMembers(shape[0], Product(shape[1..]), es);
      if es != [] {
        ProductMembers(shape[1..], es[1..]);
        if InShape(es[1..], shape[1..]) && es[0] < shape[0] {
          forall i | 0 <= i < |es| ensures es[i] < shape[i] {
            if i > 0 { assert es[1..][i - 1] < shape[1..][i - 1]; }
          }
        }
      }
    }
  }

  predicate NoDuplicates<T(==)>(xs: seq<T>) {
    forall i, j | 0 <= i < j < |xs| :: xs[i] != xs[j]
  }

  lemma {:induction false} PrefixedNoDuplicates(n: nat, rest: seq<seq<nat>>)
    requires NoDuplicates(rest)
    ensures NoDuplicates(Prefixed(n, rest))
  {
    if n != 0 {
      PrefixedNoDuplicates(n - 1, rest);
      var front := Prefixed(n - 1, rest);
      var whole := Prefixed(n, rest);
      forall i, j | 0 <= i < j < |whole| ensures whole[i] != whole[j] {
        if i < |front| {
          PrefixedMembers(n - 1, rest, whole[i]);
          assert whole[i] in front;
          if j >= |front| { assert whole[j][0] == n - 1; }
        } else {
          assert whole[i][1..] == rest[i - |front|] && whole[j][1..] == rest[j - |front|];
        }
      }
    }
  }

  /** No tuple is listed twice. */
  lemma {:induction false} ProductNoDuplicates(shape: seq<nat>)
    ensures NoDuplicates(Product(shape))
  {
    if shape != [] {
      ProductNoDuplicates(shape[1..]);
      PrefixedNoDuplicates(shape[0], Product(shape[1..]));
    }
  }

  function Filter<T(!new)>(keep: T -> bool, xs: seq<T>): (r: seq<T>)
    ensures forall x :: x in r <==> x in xs && keep(x)
  {
    if xs == [] then [] else (if keep(xs[0]) then [xs[0]] else []) + Filter(keep, xs[1..])
  }

  // Choosing one element of each list.

  function ConsEach<T>(x: T, rests: seq<seq<T>>): (r: seq<seq<T>>)
    ensures |r| == |rests| && forall i | 0 <= i < |rests| :: r[i] == [x] + rests[i]
  {
    seq(|rests|, i requires 0 <= i < |rests| => [x] + rests[i])
  }

  lemma ConsEachMembers<T>(x: T, rests: seq<seq<T>>, r: seq<T>)
    ensures r in ConsEach(x, rests) <==> r != [] && r[0] == x && r[1..] in rests
  {
    var all := ConsEach(x, rests);
    if r in all {
      var i :| 0 <= i < |all| && all[i] == r;
      assert r[1..] == rests[i];
    }
    if r != [] && r[0] == x && r[1..] in rests {
      var i :| 0 <= i < |rests| && rests[i] == r[1..];
      assert all[i] == r;
    }
  }

  function ChoicesFrom<T>(firsts: seq<T>, rests: seq<seq<T>>): seq<seq<T>> {
    if firsts == [] then [] else ConsEach(firsts[0], rests) + ChoicesFrom(firsts[1..], rests)
  }

  /** All ways to choose one element of each list, the choice from the first list slowest. */
  function Choices<T>(lists: seq<seq<T>>): seq<seq<T>> {
    if lists == [] then [[]] else ChoicesFrom(lists[0], Choices(lists[1..]))
  }

  lemma {:induction false} ChoicesFromMembers<T>(firsts: seq<T>, rests: seq<seq<T>>, r: seq<T>)
    ensures r in ChoicesFrom(firsts, rests) <==> r != [] && r[0] in firsts && r[1..] in rests
    decreases |firsts|
  {
    if firsts != [] {
      assert firsts == [firsts[0]] + firsts[1..];
      ConsEachMembers(firsts[0], rests, r);
      ChoicesFromMembers(firsts[1..], rests, r);
    }
  }

  lemma {:induction false} ChoicesMembers<T>(lists: seq<seq<T>>, r: seq<T>)
    ensures r in Choices(lists) <==> |r| == |lists| && forall i | 0 <= i < |r| :: r[i] in lists[i]
    decreases |lists|
  {
    if lists != [] {
      ChoicesFromMembers(lists[0], Choices(lists[1..]), r);
      if r != [] {
        ChoicesMembers(lists[1..], r[1..]);
        assert r == [r[0]] + r[1..];
        assert forall i | 0 <= i < |r[1..]| :: r[1..][i] == r[i + 1];
        if |r| == |lists| && r[0] in lists[0] && forall i | 0 <= i < |r[1..]| :: r[1..][i] in lists[1..][i] {
          forall i | 0 <= i < |r| ensures r[i] in lists[i] {
            if i > 0 { assert r[1..][i - 1] in lists[1..][i - 1]; }
          }
        }
      }
    }
  }

  lemma AppendNoDuplicates<T>(a: seq<T>, b: seq<T>)
    requires NoDuplicates(a) && NoDuplicates(b) && forall x | x in b :: x !in a
    ensures NoDuplicates(a + b)
  {
    var c := a + b;
    forall i, j | 0 <= i < j < |c| ensures c[i] != c[j] {
      if i < |a| && j >= |a| { assert c[j] in b && c[i] in a; }
    }
  }

  lemma {:induction false} ChoicesFromNoDuplicates<T>(firsts: seq<T>, rests: seq<seq<T>>)
    requires NoDuplicates(firsts) && NoDuplicates(rests)
    ensures NoDuplicates(ChoicesFrom(firsts, rests))
    decreases |firsts|
  {
    if firsts != [] {
      var head := ConsEach(firsts[0], rests);
      ChoicesFromNoDuplicates(firsts[1..], rests);
      forall i, j | 0 <= i < j < |head| ensures head[i] != head[j] { assert head[i][1..] == rests[i] && head[j][1..] == rests[j]; }
      forall r | r in ChoicesFrom(firsts[1..], rests) ensures r !in head {
        ChoicesFromMembers(firsts[1..], rests, r);
        ConsEachMembers(firsts[0], rests, r);
      }
      AppendNoDuplicates(head, ChoicesFrom(firsts[1..], rests));
    }
  }

  /** No choice is listed twice. */
  lemma {:induction false} ChoicesNoDuplicates<T>(lists: seq<seq<T>>)
    requires forall i | 0 <= i < |lists| :: NoDuplicates(lists[i])
    ensures NoDuplicates(Choices(lists))
    decreases |lists|
  {
    if lists != [] {
      ChoicesNoDuplicates(lists[1..]);
      ChoicesFromNoDuplicates(lists[0], Choices(lists[1..]));
    }
  }

  /** All ways to choose `k` elements, in the order of the list. */
  function Combinations<T>(xs: seq<T>, k: nat): seq<seq<T>> {
    if k == 0 then [[]]
    else if xs == [] then []
    else ConsEach(xs[0], Combinations(xs[1..], k - 1)) + Combinations(xs[1..], k)
  }

  lemma {:induction false} CombinationsFrom<T>(xs: seq<T>, k: nat, c: seq<T>)
    requires c in Combinations(xs, k)
    ensures |c| == k && forall x | x in c :: x in xs
    decreases |xs|
  {
    if k > 0 {
      ConsEachMembers(xs[0], Combinations(xs[1..], k - 1), c);
      if c in Combinations(xs[1..], k) {
        CombinationsFrom(xs[1..], k, c);
      } else {
        CombinationsFrom(xs[1..], k - 1, c[1..]);
        assert c == [c[0]] + c[1..];
      }
    }
  }

  /** Positions of a list, in order. */
  ghost predicate Ascends(at: seq<nat>, n: nat) {
    && (forall i | 0 <= i < |at| :: at[i] < n)
    && forall i, j | 0 <= i < j < |at| :: at[i] < at[j]
  }

  /** Some elements of a list, in the order of the list. */
  ghost predicate PickedAt<T>(c: seq<T>, xs: seq<T>, at: seq<nat>) {
    |at| == |c| && Ascends(at, |xs|) && forall i | 0 <= i < |c| :: c[i] == xs[at[i]]
  }

  ghost predicate Picked<T>(c: seq<T>, xs: seq<T>) {
    exists at :: PickedAt(c, xs, at)
  }

  lemma PositionsUp<T>(c: seq<T>, xs: seq<T>, at: seq<nat>) returns (up: seq<nat>)
    requires xs != [] && PickedAt(c, xs[1..], at)
    ensures PickedAt(c, xs, up) && forall i | 0 <= i < |up| :: up[i] > 0
  {
    up := seq<nat>(|at|, i requires 0 <= i < |at| => at[i] + 1);
  }

  lemma PositionsDown<T>(c: seq<T>, xs: seq<T>, at: seq<nat>) returns (down: seq<nat>)
    requires PickedAt(c, xs, at) && xs != [] && forall i | 0 <= i < |at| :: at[i] > 0
    ensures PickedAt(c, xs[1..], down)
  {
    down := seq<nat>(|at|, i requires 0 <= i < |at| => at[i] - 1);
  }

  lemma PickedTail<T>(c: seq<T>, xs: seq<T>, at: seq<nat>)
    requires PickedAt(c, xs, at) && c != []
    ensures PickedAt(c[1..], xs, at[1..]) && forall i | 0 <= i < |at[1..]| :: at[1..][i] > at[0]
  {
  }

  lemma PickedCons<T>(x: T, c: seq<T>, xs: seq<T>, at: seq<nat>)
    requires PickedAt(c, xs, at) && xs != [] && x == xs[0] && forall i | 0 <= i < |at| :: at[i] > 0
    ensures PickedAt([x] + c, xs, [0] + at)
  {
  }

  /** The combinations are exactly the selections of so many elements. */
  lemma {:induction false} CombinationsExact<T>(xs: seq<T>, k: nat, c: seq<T>)
    ensures c in Combinations(xs, k) <==> |c| == k && Picked(c, xs)
    decreases |xs|
  {
    hide Combinations, Picked;
    CombinationsUnfold(xs, k, c);
    if k == 0 {
      NonePicked(xs);
    } else if xs != [] {
      CombinationsExact(xs[1..], k, c);
      if c != [] { CombinationsExact(xs[1..], k - 1, c[1..]); }
      CombinationsStep(xs, k, c);
    } else if Picked(c, xs) {
      PickedShort(c, xs);
    }
  }

  lemma NonePicked<T>(xs: seq<T>)
    ensures Picked([], xs)
  {
    assert PickedAt([], xs, []);
  }

  lemma {:induction false} AscendsAtLeast(at: seq<nat>, n: nat, i: nat)
    requires Ascends(at, n) && i < |at|
    ensures i <= at[i]
  {
    if i > 0 { AscendsAtLeast(at, n, i - 1); }
  }

  lemma AscendsShort(at: seq<nat>, n: nat)
    requires Ascends(at, n)
    ensures |at| <= n
  {
    if at != [] { AscendsAtLeast(at, n, |at| - 1); }
  }

  lemma PickedShort<T>(c: seq<T>, xs: seq<T>)
    requires Picked(c, xs)
    ensures |c| <= |xs|
  {
    var at :| PickedAt(c, xs, at);
    AscendsShort(at, |xs|);
  }

  lemma PickedFrom<T>(c: seq<T>, xs: seq<T>)
    requires Picked(c, xs)
    ensures forall x | x in c :: x in xs
  {
  }

  lemma CombinationsUnfold<T>(xs: seq<T>, k: nat, c: seq<T>)
    ensures k == 0 ==> (c in Combinations(xs, k) <==> c == [])
    ensures k > 0 && xs == [] ==> c !in Combinations(xs, k)
    ensures k > 0 && xs != [] ==>
      (c in Combinations(xs, k) <==>
        c in Combinations(xs[1..], k) || (c != [] && c[0] == xs[0] && c[1..] in Combinations(xs[1..], k - 1)))
  {
    if k > 0 && xs != [] { ConsEachMembers(xs[0], Combinations(xs[1..], k - 1), c); }
  }

  lemma BelowCount(chosen: set<nat>, n: nat)
    requires forall p | p in chosen :: p < n
    ensures |chosen| <= n
    decreases n
  {
    if n == 0 {
      assert chosen == {};
    } else {
      BelowCount(chosen - {n - 1}, n - 1);
    }
  }

  /** So many positions that contain the given ones. */
  lemma {:induction false} WithPositions(chosen: set<nat>, n: nat, k: nat) returns (at: seq<nat>)
    requires (forall p | p in chosen :: p < n) && |chosen| <= k <= n
    ensures Ascends(at, n) && |at| == k && forall p | p in chosen :: p in at
    decreases n
  {
    if n == 0 {
      at := [];
    } else if n - 1 in chosen || k == n {
      BelowCount(chosen - {n - 1}, n - 1);
      var front := WithPositions(chosen - {n - 1}, n - 1, k - 1);
      at := front + [n - 1];
      assert forall p | p in chosen :: p == n - 1 || p in front;
    } else {
      at := WithPositions(chosen, n - 1, k);
    }
  }

  /** All of a list is the only selection of that length. */
  lemma {:induction false} AscendsAll(at: seq<nat>, n: nat, i: nat)
    requires Ascends(at, n) && |at| == n && i < n
    ensures at[i] == i
    decreases n - i
  {
    AscendsAtLeast(at, n, i);
    if i < n - 1 { AscendsAll(at, n, i + 1); }
  }

  lemma AllPicked<T>(c: seq<T>, xs: seq<T>)
    ensures |c| == |xs| && Picked(c, xs) <==> c == xs
  {
    if c == xs {
      var at := seq<nat>(|xs|, i requires 0 <= i < |xs| => i);
      assert PickedAt(c, xs, at);
    }
    if |c| == |xs| && Picked(c, xs) {
      var at :| PickedAt(c, xs, at);
      forall i | 0 <= i < |xs| ensures c[i] == xs[i] { AscendsAll(at, |xs|, i); }
    }
  }

  lemma CombinationsStep<T>(xs: seq<T>, k: nat, c: seq<T>)
    requires k > 0 && xs != []
    ensures |c| == k && Picked(c, xs) <==>
      (|c| == k && Picked(c, xs[1..])) || (c != [] && c[0] == xs[0] && |c[1..]| == k - 1 && Picked(c[1..], xs[1..]))
  {
    hide PickedAt;
    if at :| PickedAt(c, xs[1..], at) { var up := PositionsUp(c, xs, at); }
    if c != [] && c[0] == xs[0] {
      if at :| PickedAt(c[1..], xs[1..], at) {
        var up := PositionsUp(c[1..], xs, at);
        PickedCons(xs[0], c[1..], xs, up);
        assert c == [c[0]] + c[1..];
      }
    }
    if at :| PickedAt(c, xs, at) {
      if |c| == k { PickedSplit(c, xs, at); }
    }
  }

  lemma PickedSplit<T>(c: seq<T>, xs: seq<T>, at: seq<nat>)
    requires PickedAt(c, xs, at) && c != [] && xs != []
    ensures Picked(c, xs[1..]) || (c[0] == xs[0] && Picked(c[1..], xs[1..]))
  {
    PickedTail(c, xs, at);
    if at[0] > 0 {
      var down := PositionsDown(c, xs, at);
    } else {
      var down := PositionsDown(c[1..], xs, at[1..]);
    }
  }

  // Sizes of sets.

  lemma SubsetSize<T>(a: set<T>, b: set<T>)
    requires a <= b
    ensures |a| <= |b|
  {
    assert b == a + (b - a);
  }

  lemma SameSizeSubset<T>(a: set<T>, b: set<T>)
    requires a <= b && |a| == |b|
    ensures a == b
  {
    assert b == a + (b - a);
  }
}
