/** Quantifier prefixes in blocks: the truth of a quantified body, the permutations of the
    variables of each block, and when one quantified lemma implies another. */
module Quantifiers {
  import opened Collections
  import opened Syntax
  import opened Semantics
  import opened Permutations

  /** One quantifier and a list of variables for each block. */
  datatype Prefix = Prefix(quantifiers: seq<Quantifier>, names: seq<seq<string>>)

  /** Blocks have a quantifier each, and all variables are different. */
  predicate Proper(p: Prefix) {
    && |p.quantifiers| == |p.names|
    && (forall i | 0 <= i < |p.names| :: NoDuplicates(p.names[i]))
    && forall i, j | 0 <= i < j < |p.names| :: forall x | x in p.names[i] :: x !in p.names[j]
  }

  function Members(names: seq<string>): set<string> {
    set x | x in names
  }

  /** The variables of the blocks before `n`. */
  function VarsBefore(p: Prefix, n: nat): (r: set<string>)
    requires n <= |p.names|
    ensures forall x :: x in r <==> exists i :: 0 <= i < n && x in p.names[i]
  {
    if n == 0 then {} else VarsBefore(p, n - 1) + Members(p.names[n - 1])
  }

  function AllVars(p: Prefix): set<string> {
    VarsBefore(p, |p.names|)
  }

  /** Extend an assignment by values for the variables of a block. */
  function Assign(asg: Assignment, names: seq<string>, es: seq<Element>): (r: Assignment)
    requires |names| == |es|
    ensures r.Keys == asg.Keys + set x | x in names
    ensures forall x | x in asg && x !in names :: r[x] == asg[x]
    decreases |names|
  {
    if names == [] then asg
    else
      assert names == [names[0]] + names[1..];
      Assign(asg[names[0] := es[0]], names[1..], es[1..])
  }

  lemma {:induction false} AssignAt(asg: Assignment, names: seq<string>, es: seq<Element>, j: nat)
    requires |names| == |es| && NoDuplicates(names) && j < |names|
    ensures Assign(asg, names, es)[names[j]] == es[j]
    decreases |names|
  {
    if j == 0 {
      assert names[0] !in names[1..];
    } else {
      assert names[j] == names[1..][j - 1] && es[j] == es[1..][j - 1];
      AssignAt(asg[names[0] := es[0]], names[1..], es[1..], j - 1);
    }
  }

  function BlockShape(names: seq<string>, size: nat): (r: seq<nat>)
    ensures |r| == |names| && forall j | 0 <= j < |names| :: r[j] == size
  {
    seq<nat>(|names|, j => size)
  }

  /** The truth of a body under the blocks of a prefix from `i` on, in a model with the given
      numbers of elements. */
  ghost predicate QTrue(p: Prefix, sizes: seq<nat>, body: Assignment -> bool, i: nat, asg: Assignment)
    requires Proper(p) && |sizes| == |p.names|
    decreases |p.names| - i
  {
    if i >= |p.names| then body(asg)
    else if p.quantifiers[i] == Forall then
      forall es | InShape(es, BlockShape(p.names[i], sizes[i])) :: QTrue(p, sizes, body, i + 1, Assign(asg, p.names[i], es))
    else
      exists es :: InShape(es, BlockShape(p.names[i], sizes[i])) && QTrue(p, sizes, body, i + 1, Assign(asg, p.names[i], es))
  }

  ghost predicate Holds(p: Prefix, sizes: seq<nat>, body: Assignment -> bool)
    requires Proper(p) && |sizes| == |p.names|
  {
    QTrue(p, sizes, body, 0, map[])
  }

  /** A weaker body is true wherever a stronger one is. */
  lemma {:induction false} WeakerBody(p: Prefix, sizes: seq<nat>, strong: Assignment -> bool, weak: Assignment -> bool, i: nat, asg: Assignment)
    requires Proper(p) && |sizes| == |p.names|
    requires forall a | strong(a) :: weak(a)
    requires QTrue(p, sizes, strong, i, asg)
    ensures QTrue(p, sizes, weak, i, asg)
    decreases |p.names| - i
  {
    if i < |p.names| {
      var shape := BlockShape(p.names[i], sizes[i]);
      if p.quantifiers[i] == Forall {
        forall es | InShape(es, shape) ensures QTrue(p, sizes, weak, i + 1, Assign(asg, p.names[i], es)) {
          WeakerBody(p, sizes, strong, weak, i + 1, Assign(asg, p.names[i], es));
        }
      } else {
        var es :| InShape(es, shape) && QTrue(p, sizes, strong, i + 1, Assign(asg, p.names[i], es));
        WeakerBody(p, sizes, strong, weak, i + 1, Assign(asg, p.names[i], es));
      }
    }
  }

  // Linked lemmas.

  /** For each block, variables of one lemma paired with variables of the other. */
  type Links = seq<map<string, string>>

  ghost predicate ProperLinks(links: Links, p1: Prefix, p2: Prefix) {
    && |links| == |p1.names| == |p2.names|
    && (forall i, x | 0 <= i < |links| && x in links[i] :: x in p1.names[i] && links[i][x] in p2.names[i])
    && forall i, x, y | 0 <= i < |links| && x in links[i] && y in links[i] && links[i][x] == links[i][y] :: x == y
  }

  /** The two assignments give paired variables of the first blocks the same value. */
  ghost predicate Linked(links: Links, n: nat, a: Assignment, b: Assignment)
    requires n <= |links|
  {
    forall i, x | 0 <= i < n && x in links[i] :: x in a && links[i][x] in b && a[x] == b[links[i][x]]
  }

  /** Whatever the other variables are, the first body implies the second. */
  ghost predicate LinkedBodies(links: Links, p1: Prefix, p2: Prefix, body1: Assignment -> bool, body2: Assignment -> bool)
    requires |links| == |p1.names| == |p2.names|
  {
    forall a: Assignment, b: Assignment | AllVars(p1) <= a.Keys && AllVars(p2) <= b.Keys && Linked(links, |links|, a, b) && body1(a) :: body2(b)
  }

  /** Each block of the second prefix is weaker, or they are the same kind. */
  predicate WeakerQuantifiers(p1: Prefix, p2: Prefix) {
    && |p1.quantifiers| == |p2.quantifiers|
    && forall i | 0 <= i < |p1.quantifiers| :: p1.quantifiers[i] == Forall || p2.quantifiers[i] == Exists
  }

  /** Values for the variables of a block, those of the paired variables where there are any. */
  function PulledBack(names: seq<string>, link: map<string, string>, b: Assignment): (r: seq<Element>)
    ensures |r| == |names|
    ensures forall j | 0 <= j < |names| :: r[j] == if names[j] in link && link[names[j]] in b then b[link[names[j]]] else 0
  {
    seq<Element>(|names|, j requires 0 <= j < |names| => if names[j] in link && link[names[j]] in b then b[link[names[j]]] else 0)
  }

  ghost function Inverse(link: map<string, string>): (r: map<string, string>)
    requires forall x, y | x in link && y in link && link[x] == link[y] :: x == y
    ensures forall y :: y in r <==> exists x :: x in link && link[x] == y
    ensures forall y | y in r :: r[y] in link && link[r[y]] == y
  {
    map y | y in link.Values :: (var x :| x in link && link[x] == y; x)
  }

  /** The values of a block of an assignment are below the size of its sort. */
  ghost predicate InRange(names: seq<string>, size: nat, a: Assignment) {
    forall x | x in names :: x in a && a[x] < size
  }

  lemma AssignedInRange(asg: Assignment, names: seq<string>, es: seq<Element>, size: nat)
    requires |names| == |es| && NoDuplicates(names) && InShape(es, BlockShape(names, size))
    ensures InRange(names, size, Assign(asg, names, es))
  {
    forall x | x in names ensures Assign(asg, names, es)[x] < size {
      var j :| 0 <= j < |names| && names[j] == x;
      AssignAt(asg, names, es, j);
      assert es[j] < BlockShape(names, size)[j];
    }
  }

  /** One more block linked. */
  lemma LinkBlock(links: Links, p1: Prefix, p2: Prefix, i: nat, a: Assignment, b: Assignment, es1: seq<Element>, es2: seq<Element>)
    requires Proper(p1) && Proper(p2) && ProperLinks(links, p1, p2) && i < |links| && Linked(links, i, a, b)
    requires |es1| == |p1.names[i]| && |es2| == |p2.names[i]|
    requires VarsBefore(p1, i) <= a.Keys && VarsBefore(p2, i) <= b.Keys
    requires var a', b' := Assign(a, p1.names[i], es1), Assign(b, p2.names[i], es2);
             forall x | x in links[i] :: a'[x] == b'[links[i][x]]
    ensures Linked(links, i + 1, Assign(a, p1.names[i], es1), Assign(b, p2.names[i], es2))
  {
    var a', b' := Assign(a, p1.names[i], es1), Assign(b, p2.names[i], es2);
    forall k, x | 0 <= k < i + 1 && x in links[k] ensures x in a' && links[k][x] in b' && a'[x] == b'[links[k][x]] {
      if k < i {
        assert x in p1.names[k] && links[k][x] in p2.names[k];
        assert x !in p1.names[i] && links[k][x] !in p2.names[i];
      }
    }
  }

  /** Values for a block of the first lemma that match given values for the second. */
  lemma MatchFirst(links: Links, p1: Prefix, p2: Prefix, i: nat, size: nat, a: Assignment, b: Assignment, es2: seq<Element>)
    returns (es1: seq<Element>)
    requires Proper(p1) && Proper(p2) && ProperLinks(links, p1, p2) && i < |links| && Linked(links, i, a, b) && size > 0
    requires InShape(es2, BlockShape(p2.names[i], size))
    requires VarsBefore(p1, i) <= a.Keys && VarsBefore(p2, i) <= b.Keys
    ensures InShape(es1, BlockShape(p1.names[i], size))
    ensures Linked(links, i + 1, Assign(a, p1.names[i], es1), Assign(b, p2.names[i], es2))
  {
    hide Linked;
    var b' := Assign(b, p2.names[i], es2);
    AssignedInRange(b, p2.names[i], es2, size);
    es1 := PulledBack(p1.names[i], links[i], b');
    var a' := Assign(a, p1.names[i], es1);
    forall x | x in links[i] ensures a'[x] == b'[links[i][x]] {
      var j :| 0 <= j < |p1.names[i]| && p1.names[i][j] == x;
      AssignAt(a, p1.names[i], es1, j);
    }
    LinkBlock(links, p1, p2, i, a, b, es1, es2);
  }

  lemma MatchSecond(links: Links, p1: Prefix, p2: Prefix, i: nat, size: nat, a: Assignment, b: Assignment, es1: seq<Element>)
    returns (es2: seq<Element>)
    requires Proper(p1) && Proper(p2) && ProperLinks(links, p1, p2) && i < |links| && Linked(links, i, a, b) && size > 0
    requires InShape(es1, BlockShape(p1.names[i], size))
    requires VarsBefore(p1, i) <= a.Keys && VarsBefore(p2, i) <= b.Keys
    ensures InShape(es2, BlockShape(p2.names[i], size))
    ensures Linked(links, i + 1, Assign(a, p1.names[i], es1), Assign(b, p2.names[i], es2))
  {
    hide Linked;
    var back := Inverse(links[i]);
    var a' := Assign(a, p1.names[i], es1);
    AssignedInRange(a, p1.names[i], es1, size);
    es2 := PulledBack(p2.names[i], back, a');
    var b' := Assign(b, p2.names[i], es2);
    forall x | x in links[i] ensures a'[x] == b'[links[i][x]] {
      var y := links[i][x];
      var j :| 0 <= j < |p2.names[i]| && p2.names[i][j] == y;
      AssignAt(b, p2.names[i], es2, j);
      assert y in back && back[y] == x;
    }
    LinkBlock(links, p1, p2, i, a, b, es1, es2);
  }

  /** The blocks are played one after the other, in both lemmas at once. */
  lemma {:induction false} LinkedTruth(p1: Prefix, p2: Prefix, sizes: seq<nat>, body1: Assignment -> bool, body2: Assignment -> bool,
                                       links: Links, i: nat, a: Assignment, b: Assignment)
    requires Proper(p1) && Proper(p2) && ProperLinks(links, p1, p2) && |sizes| == |links| && WeakerQuantifiers(p1, p2)
    requires LinkedBodies(links, p1, p2, body1, body2) && forall k | 0 <= k < |sizes| :: sizes[k] > 0
    requires i <= |links| && VarsBefore(p1, i) <= a.Keys && VarsBefore(p2, i) <= b.Keys && Linked(links, i, a, b)
    requires QTrue(p1, sizes, body1, i, a)
    ensures QTrue(p2, sizes, body2, i, b)
    decreases |links| - i
  {
    hide Linked, ProperLinks, LinkedBodies, NoDuplicates;
    LinksLength(links, p1, p2);
    if i == |links| {
      LastBlock(links, p1, p2, body1, body2, a, b);
    } else {
      var shape1, shape2 := BlockShape(p1.names[i], sizes[i]), BlockShape(p2.names[i], sizes[i]);
      if p2.quantifiers[i] == Forall {
        forall es2 | InShape(es2, shape2) ensures QTrue(p2, sizes, body2, i + 1, Assign(b, p2.names[i], es2)) {
          ShapeLength(es2, p2.names[i], sizes[i]);
          var es1 := MatchFirst(links, p1, p2, i, sizes[i], a, b, es2);
          ShapeLength(es1, p1.names[i], sizes[i]);
          LinkedTruth(p1, p2, sizes, body1, body2, links, i + 1, Assign(a, p1.names[i], es1), Assign(b, p2.names[i], es2));
        }
      } else {
        var es1 := SomeValues(p1, sizes, body1, i, a);
        ShapeLength(es1, p1.names[i], sizes[i]);
        var es2 := MatchSecond(links, p1, p2, i, sizes[i], a, b, es1);
        ShapeLength(es2, p2.names[i], sizes[i]);
        LinkedTruth(p1, p2, sizes, body1, body2, links, i + 1, Assign(a, p1.names[i], es1), Assign(b, p2.names[i], es2));
      }
    }
  }

  lemma LinksLength(links: Links, p1: Prefix, p2: Prefix)
    requires ProperLinks(links, p1, p2)
    ensures |links| == |p1.names| == |p2.names|
  {
  }

  lemma ShapeLength(es: seq<Element>, names: seq<string>, size: nat)
    requires InShape(es, BlockShape(names, size))
    ensures |es| == |names|
  {
  }

  lemma LastBlock(links: Links, p1: Prefix, p2: Prefix, body1: Assignment -> bool, body2: Assignment -> bool, a: Assignment, b: Assignment)
    requires ProperLinks(links, p1, p2) && LinkedBodies(links, p1, p2, body1, body2)
    requires AllVars(p1) <= a.Keys && AllVars(p2) <= b.Keys && Linked(links, |links|, a, b) && body1(a)
    ensures body2(b)
  {
  }

  /** A true quantified body has values for its first block, as long as the sort has elements. */
  lemma SomeValues(p: Prefix, sizes: seq<nat>, body: Assignment -> bool, i: nat, a: Assignment) returns (es: seq<Element>)
    requires Proper(p) && |sizes| == |p.names| && i < |p.names| && sizes[i] > 0 && QTrue(p, sizes, body, i, a)
    ensures InShape(es, BlockShape(p.names[i], sizes[i])) && QTrue(p, sizes, body, i + 1, Assign(a, p.names[i], es))
  {
    if p.quantifiers[i] == Forall {
      es := seq<Element>(|p.names[i]|, j => 0);
      assert InShape(es, BlockShape(p.names[i], sizes[i]));
    } else {
      es :| InShape(es, BlockShape(p.names[i], sizes[i])) && QTrue(p, sizes, body, i + 1, Assign(a, p.names[i], es));
    }
  }

  // Permutations of the variables of each block.

  function WithoutName(names: seq<string>, x: string): (r: seq<string>)
    ensures forall y :: y in r <==> y in names && y != x
  {
    if names == [] then [] else (if names[0] == x then [] else [names[0]]) + WithoutName(names[1..], x)
  }

  /** All lists of `k` different names out of `names`. */
  function Arrangements(names: seq<string>, k: nat): seq<seq<string>>
    decreases k, 1, 0
  {
    if k == 0 then [[]] else ArrangementsFrom(names, names, k)
  }

  function ArrangementsFrom(firsts: seq<string>, names: seq<string>, k: nat): seq<seq<string>>
    requires k > 0
    decreases k, 0, |firsts|
  {
    if firsts == [] then []
    else ConsEach(firsts[0], Arrangements(WithoutName(names, firsts[0]), k - 1)) + ArrangementsFrom(firsts[1..], names, k)
  }

  lemma {:induction false} ArrangementsMembers(names: seq<string>, k: nat, r: seq<string>)
    ensures r in Arrangements(names, k) <==> |r| == k && NoDuplicates(r) && forall x | x in r :: x in names
    decreases k, 1, 0
  {
    if k > 0 { ArrangementsFromMembers(names, names, k, r); }
  }

  lemma {:induction false} ArrangementsFromMembers(firsts: seq<string>, names: seq<string>, k: nat, r: seq<string>)
    requires k > 0 && forall x | x in firsts :: x in names
    ensures r in ArrangementsFrom(firsts, names, k)
      <==> |r| == k && NoDuplicates(r) && r[0] in firsts && forall x | x in r :: x in names
    decreases k, 0, |firsts|
  {
    hide NoDuplicates;
    if firsts != [] {
      var x, rests := firsts[0], Arrangements(WithoutName(names, firsts[0]), k - 1);
      ArrangementsFromMembers(firsts[1..], names, k, r);
      ConsEachMembers(x, rests, r);
      if r != [] {
        ArrangementsMembers(WithoutName(names, x), k - 1, r[1..]);
        assert r == [r[0]] + r[1..];
        DistinctCons(r);
      }
    }
  }

  lemma DistinctCons(r: seq<string>)
    requires r != []
    ensures NoDuplicates(r) <==> r[0] !in r[1..] && NoDuplicates(r[1..])
  {
    if r[0] !in r[1..] && NoDuplicates(r[1..]) {
      forall i, j | 0 <= i < j < |r| ensures r[i] != r[j] {
        assert r[j] == r[1..][j - 1];
        if i > 0 { assert r[i] == r[1..][i - 1]; }
      }
    }
  }

  function Only(names: seq<string>, ids: set<string>): (r: seq<string>)
    ensures forall x :: x in r <==> x in names && x in ids
    ensures NoDuplicates(names) ==> NoDuplicates(r)
  {
    if names == [] then [] else
      assert NoDuplicates(names) ==> names[0] !in names[1..];
      (if names[0] in ids then [names[0]] else []) + Only(names[1..], ids)
  }

  function Zip(from: seq<string>, to: seq<string>): (r: map<string, string>)
    requires |from| == |to| && NoDuplicates(from)
    ensures forall x :: x in r <==> x in from
    ensures forall i | 0 <= i < |from| :: r[from[i]] == to[i]
  {
    map i | 0 <= i < |from| :: from[i] := to[i]
  }

  /** A substitution that sends the given variables of each block to different variables of the
      same block, and does nothing else. */
  ghost predicate BlockInjection(names: seq<seq<string>>, ids: set<string>, s: map<string, string>) {
    OnBlocks(names, ids, s) && WithinBlocks(names, s) && InjectiveOnBlocks(names, s)
  }

  ghost predicate InSomeBlock(names: seq<seq<string>>, x: string) {
    exists i :: 0 <= i < |names| && x in names[i]
  }

  ghost predicate OnBlocks(names: seq<seq<string>>, ids: set<string>, s: map<string, string>) {
    forall x :: x in s <==> x in ids && InSomeBlock(names, x)
  }

  ghost predicate WithinBlocks(names: seq<seq<string>>, s: map<string, string>) {
    forall i, x | 0 <= i < |names| && x in names[i] && x in s :: s[x] in names[i]
  }

  ghost predicate InjectiveOnBlocks(names: seq<seq<string>>, s: map<string, string>) {
    forall i, x, y | 0 <= i < |names| && x in names[i] && y in names[i] && x in s && y in s && s[x] == s[y] :: x == y
  }

  function JoinEach(first: map<string, string>, rests: seq<map<string, string>>): (r: seq<map<string, string>>)
    ensures |r| == |rests| && forall i | 0 <= i < |rests| :: r[i] == first + rests[i]
  {
    seq(|rests|, i requires 0 <= i < |rests| => first + rests[i])
  }

  function JoinAll(from: seq<string>, arrangements: seq<seq<string>>, rests: seq<map<string, string>>): seq<map<string, string>>
    requires NoDuplicates(from) && forall r | r in arrangements :: |r| == |from|
  {
    if arrangements == [] then []
    else JoinEach(Zip(from, arrangements[0]), rests) + JoinAll(from, arrangements[1..], rests)
  }

  /** The substitutions tried when looking for subsuming or subsumed lemmas. */
  function PermutationsOf(names: seq<seq<string>>, ids: set<string>): seq<map<string, string>>
    requires forall i | 0 <= i < |names| :: NoDuplicates(names[i])
    decreases |names|
  {
    if names == [] then [map[]]
    else
      var from := Only(names[0], ids);
      var arrangements := Arrangements(names[0], |from|);
      assert forall r | r in arrangements :: |r| == |from| by {
        forall r | r in arrangements ensures |r| == |from| { ArrangementsMembers(names[0], |from|, r); }
      }
      JoinAll(from, arrangements, PermutationsOf(names[1..], ids))
  }

  lemma {:induction false} JoinMembers(from: seq<string>, arrangements: seq<seq<string>>, rests: seq<map<string, string>>, s: map<string, string>)
    requires NoDuplicates(from) && forall r | r in arrangements :: |r| == |from|
    ensures s in JoinAll(from, arrangements, rests)
      <==> exists r, rest :: r in arrangements && rest in rests && s == Zip(from, r) + rest
    decreases |arrangements|
  {
    hide NoDuplicates;
    if arrangements != [] {
      var first := JoinEach(Zip(from, arrangements[0]), rests);
      assert arrangements == [arrangements[0]] + arrangements[1..];
      JoinMembers(from, arrangements[1..], rests, s);
      if s in first {
        var i :| 0 <= i < |first| && first[i] == s;
        assert arrangements[0] in arrangements && rests[i] in rests;
      }
      if r, rest :| r in arrangements && rest in rests && s == Zip(from, r) + rest {
        if r == arrangements[0] {
          var i :| 0 <= i < |rests| && rests[i] == rest;
          assert first[i] == s;
        }
      }
    }
  }

  predicate DistinctBlocks(names: seq<seq<string>>) {
    && (forall i | 0 <= i < |names| :: NoDuplicates(names[i]))
    && forall i, j | 0 <= i < j < |names| :: forall x | x in names[i] :: x !in names[j]
  }

  lemma TailBlocks(names: seq<seq<string>>)
    requires DistinctBlocks(names) && names != []
    ensures DistinctBlocks(names[1..])
    ensures forall i, x | 0 <= i < |names[1..]| && x in names[1..][i] :: x !in names[0]
  {
    forall i, j | 0 <= i < j < |names[1..]| ensures forall x | x in names[1..][i] :: x !in names[1..][j] {
      assert names[1..][i] == names[i + 1] && names[1..][j] == names[j + 1];
    }
    forall i, x | 0 <= i < |names[1..]| && x in names[1..][i] ensures x !in names[0] {
      assert names[1..][i] == names[i + 1];
    }
  }

  lemma HeadOrTail(names: seq<seq<string>>, x: string)
    requires names != []
    ensures InSomeBlock(names, x) <==> x in names[0] || InSomeBlock(names[1..], x)
  {
    if i :| 0 <= i < |names| && x in names[i] {
      if i > 0 { assert x in names[1..][i - 1]; }
    }
    if i :| 0 <= i < |names[1..]| && x in names[1..][i] { assert x in names[i + 1]; }
  }

  /** On the later blocks the joined substitution is the rest, on the first block the zip. */
  lemma JoinedParts(names: seq<seq<string>>, ids: set<string>, r: seq<string>, rest: map<string, string>)
    requires DistinctBlocks(names) && names != []
    requires |r| == |Only(names[0], ids)| && NoDuplicates(r) && forall x | x in r :: x in names[0]
    requires BlockInjection(names[1..], ids, rest)
    ensures NoDuplicates(Only(names[0], ids))
    ensures var s := Zip(Only(names[0], ids), r) + rest;
            && (forall x | x in names[0] && x in s :: x in Zip(Only(names[0], ids), r) && s[x] == Zip(Only(names[0], ids), r)[x] && s[x] in names[0])
            && (forall x | x !in names[0] && x in s :: x in rest && s[x] == rest[x])
    ensures forall x | x in rest :: x !in names[0]
  {
    hide NoDuplicates;
    TailBlocks(names);
    OnlyDistinct(names[0], ids);
    var from := Only(names[0], ids);
    forall x | x in rest ensures x !in names[0] {
      assert InSomeBlock(names[1..], x);
      var i :| 0 <= i < |names[1..]| && x in names[1..][i];
    }
    forall x | x in from ensures Zip(from, r)[x] in names[0] {
      var k :| 0 <= k < |from| && from[k] == x;
      assert r[k] in r;
    }
  }

  lemma OnlyDistinct(names: seq<string>, ids: set<string>)
    requires NoDuplicates(names)
    ensures NoDuplicates(Only(names, ids))
  {
  }

  /** The first block of a substitution and the rest. */
  lemma JoinedInjection(names: seq<seq<string>>, ids: set<string>, r: seq<string>, rest: map<string, string>)
    requires DistinctBlocks(names) && names != []
    requires |r| == |Only(names[0], ids)| && NoDuplicates(r) && forall x | x in r :: x in names[0]
    requires BlockInjection(names[1..], ids, rest)
    ensures NoDuplicates(Only(names[0], ids))
    ensures BlockInjection(names, ids, Zip(Only(names[0], ids), r) + rest)
  {
    hide NoDuplicates, InSomeBlock, Zip, Only;
    var from := Only(names[0], ids);
    JoinedParts(names, ids, r, rest);
    TailBlocks(names);
    var s := Zip(from, r) + rest;
    forall x ensures x in s <==> x in ids && InSomeBlock(names, x) { HeadOrTail(names, x); }
    forall i, x | 0 <= i < |names| && x in names[i] && x in s ensures s[x] in names[i] {
      if i > 0 { assert x in names[1..][i - 1]; }
    }
    forall i, x, y | 0 <= i < |names| && x in names[i] && y in names[i] && x in s && y in s && s[x] == s[y] ensures x == y {
      if i == 0 {
        ZipInjective(from, r, x, y);
      } else {
        assert x in names[1..][i - 1] && y in names[1..][i - 1];
      }
    }
  }

  lemma ZipInjective(from: seq<string>, r: seq<string>, x: string, y: string)
    requires |from| == |r| && NoDuplicates(from) && NoDuplicates(r) && x in from && y in from && Zip(from, r)[x] == Zip(from, r)[y]
    ensures x == y
  {
    var i :| 0 <= i < |from| && from[i] == x;
    var j :| 0 <= j < |from| && from[j] == y;
    assert r[i] == r[j];
  }

  /** The values of a substitution on the first block. */
  lemma SplitHead(names: seq<seq<string>>, ids: set<string>, s: map<string, string>) returns (r: seq<string>)
    requires DistinctBlocks(names) && names != [] && BlockInjection(names, ids, s)
    ensures |r| == |Only(names[0], ids)| && NoDuplicates(r) && forall x | x in r :: x in names[0]
    ensures forall k | 0 <= k < |r| :: Only(names[0], ids)[k] in s && s[Only(names[0], ids)[k]] == r[k]
  {
    hide InSomeBlock;
    var from := Only(names[0], ids);
    forall k | 0 <= k < |from| ensures from[k] in names[0] && from[k] in s && s[from[k]] in names[0] {
      assert from[k] in from;
      HeadOrTail(names, from[k]);
    }
    r := seq(|from|, k requires 0 <= k < |from| => s[from[k]]);
    forall x | x in r ensures x in names[0] {
      var k :| 0 <= k < |r| && r[k] == x;
    }
  }

  lemma SplitTail(names: seq<seq<string>>, ids: set<string>, s: map<string, string>) returns (rest: map<string, string>)
    requires DistinctBlocks(names) && names != [] && BlockInjection(names, ids, s)
    ensures BlockInjection(names[1..], ids, rest)
    ensures rest == map x | x in s && x !in names[0] :: s[x]
  {
    hide NoDuplicates, InSomeBlock;
    TailBlocks(names);
    rest := map x | x in s && x !in names[0] :: s[x];
    forall x ensures x in rest <==> x in ids && InSomeBlock(names[1..], x) {
      HeadOrTail(names, x);
      InTail(names, x);
    }
    forall i, x | 0 <= i < |names[1..]| && x in names[1..][i] ensures x in names[i + 1] {}
  }

  lemma InTail(names: seq<seq<string>>, x: string)
    requires DistinctBlocks(names) && names != []
    ensures InSomeBlock(names[1..], x) ==> x !in names[0]
  {
    TailBlocks(names);
  }

  lemma SplitInjection(names: seq<seq<string>>, ids: set<string>, s: map<string, string>) returns (r: seq<string>, rest: map<string, string>)
    requires DistinctBlocks(names) && names != [] && BlockInjection(names, ids, s)
    ensures |r| == |Only(names[0], ids)| && NoDuplicates(r) && forall x | x in r :: x in names[0]
    ensures BlockInjection(names[1..], ids, rest)
    ensures NoDuplicates(Only(names[0], ids)) && s == Zip(Only(names[0], ids), r) + rest
  {
    hide NoDuplicates, WithinBlocks, InjectiveOnBlocks, InSomeBlock, Only, BlockInjection;
    r := SplitHead(names, ids, s);
    rest := SplitTail(names, ids, s);
    OnlyDistinct(names[0], ids);
    KnownIds(names, ids, s);
    JoinedMap(names[0], Only(names[0], ids), r, rest, s);
  }

  lemma KnownIds(names: seq<seq<string>>, ids: set<string>, s: map<string, string>)
    requires BlockInjection(names, ids, s)
    ensures forall x | x in s :: x in ids
  {
  }

  lemma JoinedMap(head: seq<string>, from: seq<string>, r: seq<string>, rest: map<string, string>, s: map<string, string>)
    requires |r| == |from| && NoDuplicates(from)
    requires forall k | 0 <= k < |from| :: from[k] in s && s[from[k]] == r[k]
    requires forall x | x in s && x in head :: x in from
    requires forall x | x in from :: x in head
    requires rest == map x | x in s && x !in head :: s[x]
    ensures s == Zip(from, r) + rest
  {
    hide NoDuplicates, Zip;
    var first := Zip(from, r);
    forall x | x in first ensures x in s && first[x] == s[x] {
      var k :| 0 <= k < |from| && from[k] == x;
    }
    assert forall x | x in s :: x in first + rest && (first + rest)[x] == s[x];
    assert forall x | x in first + rest :: x in s;
  }

  /** The permutations are exactly the block-wise injections. */
  lemma {:induction false} PermutationsExact(names: seq<seq<string>>, ids: set<string>, s: map<string, string>)
    requires DistinctBlocks(names)
    ensures s in PermutationsOf(names, ids) <==> BlockInjection(names, ids, s)
    decreases |names|
  {
    if names == [] {
      assert BlockInjection(names, ids, s) <==> s == map[];
    } else {
      hide BlockInjection, PermutationsOf, NoDuplicates, Arrangements;
      var from := Only(names[0], ids);
      var arrangements, rests := Arrangements(names[0], |from|), PermutationsOf(names[1..], ids);
      TailBlocks(names);
      forall r ensures r in arrangements <==> |r| == |from| && NoDuplicates(r) && forall x | x in r :: x in names[0] {
        ArrangementsMembers(names[0], |from|, r);
      }
      JoinMembers(from, arrangements, rests, s);
      PermutationsUnfold(names, ids);
      if s in PermutationsOf(names, ids) {
        var r, rest :| r in arrangements && rest in rests && s == Zip(from, r) + rest;
        PermutationsExact(names[1..], ids, rest);
        JoinedInjection(names, ids, r, rest);
      }
      if BlockInjection(names, ids, s) {
        var r, rest := SplitInjection(names, ids, s);
        PermutationsExact(names[1..], ids, rest);
      }
    }
  }

  lemma PermutationsUnfold(names: seq<seq<string>>, ids: set<string>)
    requires DistinctBlocks(names) && names != []
    ensures NoDuplicates(Only(names[0], ids))
    ensures forall r | r in Arrangements(names[0], |Only(names[0], ids)|) :: |r| == |Only(names[0], ids)|
    ensures PermutationsOf(names, ids)
      == JoinAll(Only(names[0], ids), Arrangements(names[0], |Only(names[0], ids)|), PermutationsOf(names[1..], ids))
  {
    var from := Only(names[0], ids);
    forall r | r in Arrangements(names[0], |from|) ensures |r| == |from| { ArrangementsMembers(names[0], |from|, r); }
  }

  // Comparing prefixes.

  /** Fewer variables, and universal blocks may become existential. */
  predicate PrefixSubsumes(p1: Prefix, p2: Prefix) {
    && |p1.names| == |p2.names| == |p1.quantifiers| == |p2.quantifiers|
    && forall i | 0 <= i < |p1.names| ::
         p2.names == [] || (|p1.names[i]| >= |p2.names[i]| && (p1.quantifiers[i] == Forall || p2.quantifiers[i] == Exists))
  }

  /** The second prefix is gotten from the first one: some variables of every block are kept, in order and up to
      renaming, and universal blocks may become existential. */
  ghost predicate GottenBy(p1: Prefix, p2: Prefix, kept: seq<seq<string>>)
    requires |p1.names| == |p2.names| == |p1.quantifiers| == |p2.quantifiers|
  {
    |kept| == |p1.names| && forall i | 0 <= i < |kept| ::
      Picked(kept[i], p1.names[i]) && |kept[i]| == |p2.names[i]|
      && (p1.quantifiers[i] == p2.quantifiers[i] || (p1.quantifiers[i] == Forall && p2.quantifiers[i] == Exists))
  }

  /** A prefix subsumes exactly those that can be gotten by dropping variables and weakening quantifiers. */
  lemma PrefixSubsumesExact(p1: Prefix, p2: Prefix)
    requires |p1.names| == |p2.names| == |p1.quantifiers| == |p2.quantifiers|
    ensures PrefixSubsumes(p1, p2) <==> exists kept :: GottenBy(p1, p2, kept)
  {
    if PrefixSubsumes(p1, p2) {
      var kept := seq<seq<string>>(|p1.names|, i requires 0 <= i < |p1.names| && |p1.names[i]| >= |p2.names[i]| => p1.names[i][..|p2.names[i]|]);
      forall i | 0 <= i < |kept| ensures Picked(kept[i], p1.names[i]) { PickedPrefix(p1.names[i], |p2.names[i]|); }
      assert GottenBy(p1, p2, kept);
    }
    if kept :| GottenBy(p1, p2, kept) {
      forall i | 0 <= i < |p1.names| ensures |p1.names[i]| >= |p2.names[i]| { PickedShort(kept[i], p1.names[i]); }
    }
  }

  lemma PickedPrefix(xs: seq<string>, n: nat)
    requires n <= |xs|
    ensures Picked(xs[..n], xs)
  {
    var at := seq<nat>(n, i requires 0 <= i < n => i);
    assert PickedAt(xs[..n], xs, at);
  }

  function RestrictNames(names: seq<seq<string>>, ids: set<string>): (r: seq<seq<string>>)
    ensures |r| == |names| && forall i | 0 <= i < |names| :: r[i] == Only(names[i], ids)
  {
    seq(|names|, i requires 0 <= i < |names| => Only(names[i], ids))
  }

  /** The prefix with only the given variables. */
  function Restrict(p: Prefix, ids: set<string>): Prefix {
    p.(names := RestrictNames(p.names, ids))
  }

  lemma RestrictProper(p: Prefix, ids: set<string>)
    requires Proper(p)
    ensures Proper(Restrict(p, ids))
    ensures forall x :: x in AllVars(Restrict(p, ids)) <==> x in AllVars(p) && x in ids
  {
    hide NoDuplicates;
    var r := Restrict(p, ids);
    forall x ensures x in AllVars(r) <==> x in AllVars(p) && x in ids {
      if x in AllVars(r) {
        var i :| 0 <= i < |r.names| && x in r.names[i];
        assert x in p.names[i];
      }
      if x in AllVars(p) && x in ids {
        var i :| 0 <= i < |p.names| && x in p.names[i];
        assert x in r.names[i];
      }
    }
  }

  /** A body that depends on some variables only. */
  ghost predicate DependsOn(body: Assignment -> bool, ids: set<string>) {
    forall a: Assignment, b: Assignment | ids <= a.Keys && ids <= b.Keys && (forall x | x in ids :: a[x] == b[x]) :: body(a) == body(b)
  }

  function IdentityLinks(p: Prefix, ids: set<string>): (r: Links)
    ensures |r| == |p.names|
    ensures forall i, x | 0 <= i < |r| :: x in r[i] <==> x in p.names[i] && x in ids
    ensures forall i, x | 0 <= i < |r| && x in r[i] :: r[i][x] == x
  {
    seq(|p.names|, i requires 0 <= i < |p.names| => map x | x in p.names[i] && x in ids :: x)
  }

  lemma LinkedSame(p: Prefix, ids: set<string>, a: Assignment, b: Assignment)
    requires Proper(p) && ids <= AllVars(p) && Linked(IdentityLinks(p, ids), |p.names|, a, b)
    ensures forall x | x in ids :: x in a && x in b && a[x] == b[x]
  {
    hide NoDuplicates, IdentityLinks, Linked;
    forall x | x in ids ensures x in a && x in b && a[x] == b[x] {
      var i :| 0 <= i < |p.names| && x in p.names[i];
      LinkedAt(IdentityLinks(p, ids), a, b, i, x);
    }
  }

  lemma LinkedAt(links: Links, a: Assignment, b: Assignment, i: nat, x: string)
    requires Linked(links, |links|, a, b) && i < |links| && x in links[i]
    ensures x in a && links[i][x] in b && a[x] == b[links[i][x]]
  {
  }

  /** In nonempty sorts, dropping the variables a body does not depend on changes nothing. */
  lemma RestrictTruth(p: Prefix, sizes: seq<nat>, body: Assignment -> bool, ids: set<string>)
    requires Proper(p) && |sizes| == |p.names| && forall k | 0 <= k < |sizes| :: sizes[k] > 0
    requires ids <= AllVars(p) && DependsOn(body, ids)
    ensures Proper(Restrict(p, ids))
    ensures Holds(p, sizes, body) <==> Holds(Restrict(p, ids), sizes, body)
  {
    hide QTrue, NoDuplicates, Linked;
    RestrictProper(p, ids);
    var r, links := Restrict(p, ids), IdentityLinks(p, ids);
    RestrictLinks(p, ids);
    forall a, b | Linked(links, |links|, a, b) ensures body(a) == body(b) { LinkedSame(p, ids, a, b); }
    NothingLinked(links);
    if Holds(p, sizes, body) { LinkedTruth(p, r, sizes, body, body, links, 0, map[], map[]); }
    if Holds(r, sizes, body) { LinkedTruth(r, p, sizes, body, body, links, 0, map[], map[]); }
  }

  lemma RestrictLinks(p: Prefix, ids: set<string>)
    requires Proper(p)
    ensures ProperLinks(IdentityLinks(p, ids), p, Restrict(p, ids)) && ProperLinks(IdentityLinks(p, ids), Restrict(p, ids), p)
  {
    hide NoDuplicates;
  }

  lemma NothingLinked(links: Links)
    ensures Linked(links, 0, map[], map[])
  {
  }
}
