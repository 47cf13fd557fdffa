/** Tries over lists of elements: a map from lists to values, searched for the lists that
    subsume a query. */
module SubsumptionTries {
  import opened Collections
  import opened Subsumption

  /** Each edge leads to a trie of the remaining elements. */
  datatype Trie<+V> = Trie(value: Option<V>, edges: map<Elem, Trie<V>>)

  function EmptyTrie<V>(): Trie<V> {
    Trie(None, map[])
  }

  predicate IsBare<V>(t: Trie<V>) {
    t.value.None? && t.edges == map[]
  }

  function Get<V>(t: Trie<V>, key: seq<Elem>): Option<V>
    decreases |key|
  {
    if key == [] then t.value
    else if key[0] in t.edges then Get(t.edges[key[0]], key[1..])
    else None
  }

  function Insert<V>(t: Trie<V>, key: seq<Elem>, v: V): Trie<V>
    decreases |key|
  {
    if key == [] then Trie(Some(v), t.edges)
    else
      var sub := if key[0] in t.edges then t.edges[key[0]] else EmptyTrie();
      Trie(t.value, t.edges[key[0] := Insert(sub, key[1..], v)])
  }

  /** Replace the value of a key, or drop it when the function gives none. */
  function Mutate<V>(t: Trie<V>, key: seq<Elem>, f: V -> Option<V>): Trie<V>
    requires Get(t, key).Some?
    decreases |key|
  {
    if key == [] then Trie(f(t.value.value), t.edges)
    else
      var sub := Mutate(t.edges[key[0]], key[1..], f);
      Trie(t.value, if IsBare(sub) then t.edges - {key[0]} else t.edges[key[0] := sub])
  }

  /** The trie without a key; an edge that leads to nothing goes with it. */
  function Remove<V>(t: Trie<V>, key: seq<Elem>): Trie<V>
    requires Get(t, key).Some?
    decreases |key|
  {
    if key == [] then Trie(None, t.edges)
    else
      var sub := Remove(t.edges[key[0]], key[1..]);
      Trie(t.value, if IsBare(sub) then t.edges - {key[0]} else t.edges[key[0] := sub])
  }

  /** No edge leads to a trie without values. */
  ghost predicate Alive<V>(t: Trie<V>) {
    forall k | k in t.edges :: !IsBare(t.edges[k]) && Alive(t.edges[k])
  }

  lemma {:induction false} GetInsert<V>(t: Trie<V>, key: seq<Elem>, v: V, other: seq<Elem>)
    ensures Get(Insert(t, key, v), other) == if other == key then Some(v) else Get(t, other)
    decreases |key|
  {
    if key != [] && other != [] && key[0] == other[0] {
      var sub := if key[0] in t.edges then t.edges[key[0]] else EmptyTrie();
      GetInsert(sub, key[1..], v, other[1..]);
      assert key == [key[0]] + key[1..] && other == [other[0]] + other[1..];
    }
  }

  lemma {:induction false} InsertAlive<V>(t: Trie<V>, key: seq<Elem>, v: V)
    requires Alive(t)
    ensures Alive(Insert(t, key, v)) && !IsBare(Insert(t, key, v))
    decreases |key|
  {
    if key != [] {
      InsertAlive(if key[0] in t.edges then t.edges[key[0]] else EmptyTrie(), key[1..], v);
      assert key[0] in Insert(t, key, v).edges;
    }
  }

  lemma BareGet<V>(t: Trie<V>, key: seq<Elem>)
    requires IsBare(t)
    ensures Get(t, key).None?
  {
  }

  lemma {:induction false} GetMutate<V>(t: Trie<V>, key: seq<Elem>, f: V -> Option<V>, other: seq<Elem>)
    requires Get(t, key).Some?
    ensures Get(Mutate(t, key, f), other) == if other == key then f(Get(t, key).value) else Get(t, other)
    decreases |key|
  {
    if key != [] {
      var sub := Mutate(t.edges[key[0]], key[1..], f);
      if other != [] && key[0] == other[0] {
        GetMutate(t.edges[key[0]], key[1..], f, other[1..]);
        if IsBare(sub) { BareGet(sub, other[1..]); }
        assert key == [key[0]] + key[1..] && other == [other[0]] + other[1..];
      }
    }
  }

  lemma {:induction false} MutateAlive<V>(t: Trie<V>, key: seq<Elem>, f: V -> Option<V>)
    requires Alive(t) && Get(t, key).Some?
    ensures Alive(Mutate(t, key, f))
    decreases |key|
  {
    if key != [] { MutateAlive(t.edges[key[0]], key[1..], f); }
  }

  lemma {:induction false} GetRemove<V>(t: Trie<V>, key: seq<Elem>, other: seq<Elem>)
    requires Get(t, key).Some?
    ensures Get(Remove(t, key), other) == if other == key then None else Get(t, other)
    decreases |key|
  {
    if key != [] {
      var sub := Remove(t.edges[key[0]], key[1..]);
      if other != [] && key[0] == other[0] {
        GetRemove(t.edges[key[0]], key[1..], other[1..]);
        if IsBare(sub) { BareGet(sub, other[1..]); }
        assert key == [key[0]] + key[1..] && other == [other[0]] + other[1..];
      }
    }
  }

  lemma {:induction false} RemoveAlive<V>(t: Trie<V>, key: seq<Elem>)
    requires Alive(t) && Get(t, key).Some?
    ensures Alive(Remove(t, key))
    decreases |key|
  {
    if key != [] { RemoveAlive(t.edges[key[0]], key[1..]); }
  }

  /** Without dead branches, a trie with no values has no edges either. */
  lemma {:induction false} AliveValue<V>(t: Trie<V>) returns (key: seq<Elem>)
    requires Alive(t) && !IsBare(t)
    ensures Get(t, key).Some?
    decreases t
  {
    if t.value.Some? { return []; }
    var k :| k in t.edges;
    var rest := AliveValue(t.edges[k]);
    key := [k] + rest;
  }

  // Searching for lists whose conjunction subsumes the query.

  /** What is left of the query once `k` is on the path. */
  function NotSubsumed(key: seq<Elem>, k: Elem): (r: seq<Elem>)
    ensures forall x :: x in r <==> x in key && !Subsumes(k, x)
    ensures |r| <= |key|
  {
    if key == [] then [] else (if Subsumes(k, key[0]) then [] else [key[0]]) + NotSubsumed(key[1..], k)
  }

  predicate SubsumesSome(k: Elem, key: seq<Elem>) {
    exists o | o in key :: Subsumes(k, o)
  }

  /** The paths found when the stored lists are read as conjunctions. */
  function SubsumingAnd<V>(t: Trie<V>, key: seq<Elem>): set<seq<Elem>>
    decreases t
  {
    if key == [] then (if t.value.Some? then {[]} else {})
    else
      set k, p | k in t.edges && SubsumesSome(k, key) && Leq(k, key[0]) && p in SubsumingAnd(t.edges[k], NotSubsumed(key, k)) :: [k] + p
  }

  /** A path the search can take. */
  ghost predicate AndPath(p: seq<Elem>, key: seq<Elem>)
    decreases |p|
  {
    if key == [] then p == []
    else p != [] && SubsumesSome(p[0], key) && Leq(p[0], key[0]) && AndPath(p[1..], NotSubsumed(key, p[0]))
  }

  lemma {:induction false} SubsumingAndPaths<V>(t: Trie<V>, key: seq<Elem>, p: seq<Elem>)
    ensures p in SubsumingAnd(t, key) <==> Get(t, p).Some? && AndPath(p, key)
    decreases t
  {
    hide Subsumes, Leq;
    if key != [] {
      if p in SubsumingAnd(t, key) {
        var k, q :| k in t.edges && SubsumesSome(k, key) && Leq(k, key[0]) && q in SubsumingAnd(t.edges[k], NotSubsumed(key, k)) && p == [k] + q;
        SubsumingAndPaths(t.edges[k], NotSubsumed(key, k), q);
        assert p[1..] == q;
      }
      if Get(t, p).Some? && AndPath(p, key) {
        SubsumingAndPaths(t.edges[p[0]], NotSubsumed(key, p[0]), p[1..]);
        assert p == [p[0]] + p[1..];
      }
    }
  }

  ghost predicate SubsumedBySome(xs: seq<Elem>, y: Elem) {
    exists k :: k in xs && Subsumes(k, y)
  }

  lemma TailSubsumes(xs: seq<Elem>, y: Elem)
    requires xs != [] && SubsumedBySome(xs, y) && !Subsumes(xs[0], y)
    ensures SubsumedBySome(xs[1..], y)
  {
    hide Subsumes;
    var k :| k in xs && Subsumes(k, y);
    assert xs == [xs[0]] + xs[1..];
  }

  /** The whole query is subsumed along a path. */
  lemma {:induction false} AndPathSubsumes(p: seq<Elem>, key: seq<Elem>)
    requires AndPath(p, key)
    ensures forall x | x in key :: SubsumedBySome(p, x)
    decreases |p|
  {
    hide Subsumes, Leq;
    if key != [] {
      AndPathSubsumes(p[1..], NotSubsumed(key, p[0]));
      forall x | x in key ensures SubsumedBySome(p, x) {
        if Subsumes(p[0], x) {
          assert p[0] in p;
        } else {
          var k :| k in p[1..] && Subsumes(k, x);
          assert k in p;
        }
      }
    }
  }

  predicate Subsequence(p: seq<Elem>, xs: seq<Elem>)
    decreases |xs|
  {
    if p == [] then true
    else if xs == [] then false
    else (p[0] == xs[0] && Subsequence(p[1..], xs[1..])) || Subsequence(p, xs[1..])
  }

  lemma {:induction false} SubsequenceMembers(p: seq<Elem>, xs: seq<Elem>)
    requires Subsequence(p, xs)
    ensures forall x | x in p :: x in xs
    decreases |xs|
  {
    if p != [] {
      assert p == [p[0]] + p[1..];
      if p[0] == xs[0] && Subsequence(p[1..], xs[1..]) {
        SubsequenceMembers(p[1..], xs[1..]);
      } else {
        SubsequenceMembers(p, xs[1..]);
      }
    }
  }

  /** A list that covers the query has a subsequence the search can take: always continue with
      the first element that subsumes something of what is left. */
  lemma {:induction false} CoveringPath(xs: seq<Elem>, key: seq<Elem>, f: Form) returns (p: seq<Elem>)
    requires AllHave(xs, f) && AllHave(key, f) && CanonicalList(xs) && (forall x | x in key :: Canonical(x))
    requires forall x | x in key :: SubsumedBySome(xs, x)
    ensures Subsequence(p, xs) && AndPath(p, key)
    decreases |xs|
  {
    hide Subsumes, Leq, Canonical, Covers, Has;
    if key == [] { return []; }
    assert key[0] in key;
    CanonicalTail(xs);
    if SubsumesSome(xs[0], key) {
      FirstIsLeq(xs, key[0], f);
      forall x | x in NotSubsumed(key, xs[0]) ensures SubsumedBySome(xs[1..], x) { TailSubsumes(xs, x); }
      var rest := CoveringPath(xs[1..], NotSubsumed(key, xs[0]), f);
      p := [xs[0]] + rest;
    } else {
      forall x | x in key ensures SubsumedBySome(xs[1..], x) { TailSubsumes(xs, x); }
      p := CoveringPath(xs[1..], key, f);
    }
  }

  lemma FirstIsLeq(xs: seq<Elem>, y: Elem, f: Form)
    requires xs != [] && AllHave(xs, f) && Has(y, f) && CanonicalList(xs) && Canonical(y)
    requires SubsumedBySome(xs, y)
    ensures Leq(xs[0], y)
  {
    hide Subsumes, Leq, Canonical, Covers, Has;
    var k :| k in xs && Subsumes(k, y);
    SubsumesExact(k, y, f);
    CoversImpliesLeq(k, y, f);
    var i :| 0 <= i < |xs| && xs[i] == k;
    assert xs[0] in xs;
    if i > 0 { LeqTransitive(xs[0], k, y, f); }
  }

  // Searching for lists whose disjunction subsumes the query.

  /** What is left of the query once `k` is on the path. */
  function NotBelow(key: seq<Elem>, k: Elem): (r: seq<Elem>)
    ensures forall x :: x in r <==> x in key && !Leq(x, k)
  {
    if key == [] then [] else (if Leq(key[0], k) then [] else [key[0]]) + NotBelow(key[1..], k)
  }

  /** The paths found when the stored lists are read as disjunctions. */
  function SubsumingOr<V>(t: Trie<V>, key: seq<Elem>): set<seq<Elem>>
    decreases t
  {
    (set k, p | k in t.edges && SubsumesSome(k, key) && p in SubsumingOr(t.edges[k], NotBelow(key, k)) :: [k] + p)
    + (if t.value.Some? then {[]} else {})
  }

  ghost predicate OrPath(p: seq<Elem>, key: seq<Elem>)
    decreases |p|
  {
    p != [] ==> SubsumesSome(p[0], key) && OrPath(p[1..], NotBelow(key, p[0]))
  }

  lemma {:induction false} SubsumingOrPaths<V>(t: Trie<V>, key: seq<Elem>, p: seq<Elem>)
    ensures p in SubsumingOr(t, key) <==> Get(t, p).Some? && OrPath(p, key)
    decreases t
  {
    hide Subsumes, Leq;
    if p in SubsumingOr(t, key) && p != [] {
      var k, q :| k in t.edges && SubsumesSome(k, key) && q in SubsumingOr(t.edges[k], NotBelow(key, k)) && p == [k] + q;
      SubsumingOrPaths(t.edges[k], NotBelow(key, k), q);
      assert p[1..] == q;
    }
    if Get(t, p).Some? && OrPath(p, key) && p != [] {
      SubsumingOrPaths(t.edges[p[0]], NotBelow(key, p[0]), p[1..]);
      assert p == [p[0]] + p[1..];
    }
  }

  /** On a sorted path the order prunes nothing: the search takes it exactly when each of its
      elements subsumes something of the query. */
  lemma {:induction false} OrPathExact(p: seq<Elem>, key: seq<Elem>, f: Form)
    requires AllHave(p, f) && AllHave(key, f) && SortedList(p)
    requires (forall x | x in p :: Canonical(x)) && forall x | x in key :: Canonical(x)
    ensures OrPath(p, key) <==> forall k | k in p :: SubsumesSome(k, key)
    decreases |p|
  {
    hide Subsumes, Leq, Canonical, Has;
    if p != [] {
      OrPathExact(p[1..], NotBelow(key, p[0]), f);
      if forall k | k in p :: SubsumesSome(k, key) {
        forall k | k in p[1..] ensures SubsumesSome(k, NotBelow(key, p[0])) {
          assert k in p;
          var o :| o in key && Subsumes(k, o);
          var i :| 0 <= i < |p[1..]| && p[1..][i] == k;
          assert p[i + 1] == k;
          LaterStays(p[0], k, o, f);
        }
      }
      if OrPath(p, key) {
        forall k | k in p ensures SubsumesSome(k, key) {
          if k in p[1..] {
            var o :| o in NotBelow(key, p[0]) && Subsumes(k, o);
            assert o in key;
          }
        }
      }
    }
  }

  /** What a later element of a sorted path subsumes is above the earlier one. */
  lemma LaterStays(first: Elem, later: Elem, o: Elem, f: Form)
    requires Has(first, f) && Has(later, f) && Has(o, f) && Canonical(later) && Canonical(o)
    requires Leq(first, later) && first != later && Subsumes(later, o)
    ensures !Leq(o, first)
  {
    hide Subsumes, Leq, Canonical, Has, Covers;
    SubsumesExact(later, o, f);
    CoversImpliesLeq(later, o, f);
    if Leq(o, first) {
      LeqTransitive(later, o, first, f);
      LeqAntisymmetric(first, later, f);
    }
  }
}
