/** Indexes of nested forms, as they are nested: an index of conjunctions has tries whose edges are
    found with an index of the conjuncts, and so on.  By induction on the form, every index that
    holds a set of keys answers what a linear scan of the keys answers, and adding keys one by one
    builds such an index. */
module NestedIndexes {
  import opened Collections
  import opened Subsumption
  import opened SubsumptionTries
  import opened SubsumptionMaps
  import opened SubsumptionPairs

  datatype Index =
    | LitIndex(lits: set<Elem>)
    | RevIndex(inner: Index)
    | PairIndex(firsts: Index, seconds: map<Elem, Index>)
    | AndIndex(keys: set<Elem>, subsets: NestedTrie, reversed: NestedTrie)

  /** Whether a list ends here, and the edges with an index of their elements. */
  datatype NestedTrie = NestedTrie(here: bool, edges: Index, next: map<Elem, NestedTrie>)

  // Searching.

  /** The stored keys that subsume the query, or that it subsumes. */
  function Find(idx: Index, q: Elem, subsuming: bool): set<Elem>
    decreases idx, 0
  {
    match idx
    case LitIndex(lits) => if q in lits then {q} else {}
    case RevIndex(inner) => if q.Rev? then set k | k in Find(inner, q.inner, !subsuming) :: Rev(k) else {}
    case PairIndex(firsts, seconds) =>
      if !q.PairOf? then {}
      else set a, b | a in Find(firsts, q.first, subsuming) && a in seconds && b in Find(seconds[a], q.second, subsuming) :: PairOf(a, b)
    case AndIndex(keys, subsets, reversed) =>
      if !q.AndOf? then {}
      else if subsuming then
        var paths := AndSearch(subsets, q.elems);
        set k | k in keys && k.AndOf? && exists p | p in paths :: Subsequence(p, k.elems)
      else
        var paths := OrSearch(reversed, Reversed(q.elems));
        set k | k in keys && k.AndOf? && Reversed(k.elems) in paths
  }

  /** The edges that subsume something of the query. */
  function Hits(idx: Index, key: seq<Elem>): set<Elem>
    decreases idx, 1
  {
    set o, k | o in key && k in Find(idx, o, true) :: k
  }

  function AndSearch(t: NestedTrie, key: seq<Elem>): set<seq<Elem>>
    decreases t
  {
    if key == [] then (if t.here then {[]} else {})
    else set k, p | k in Hits(t.edges, key) && k in t.next && Leq(k, key[0]) && p in AndSearch(t.next[k], NotSubsumed(key, k)) :: [k] + p
  }

  function OrSearch(t: NestedTrie, key: seq<Elem>): set<seq<Elem>>
    decreases t
  {
    (set k, p | k in Hits(t.edges, key) && k in t.next && p in OrSearch(t.next[k], NotBelow(key, k)) :: [k] + p)
    + (if t.here then {[]} else {})
  }

  // Adding a key.

  function FormSize(f: Form): nat {
    match f
    case LitForm => 0
    case AndForm(g) => 2 + FormSize(g)
    case RevForm(g) => 1 + FormSize(g)
    case PairForm(g, h) => 1 + FormSize(g) + FormSize(h)
  }

  function EmptyIndex(f: Form): Index
    decreases FormSize(f), 0
  {
    match f
    case LitForm => LitIndex({})
    case RevForm(g) => RevIndex(EmptyIndex(g))
    case PairForm(g, h) => PairIndex(EmptyIndex(g), map[])
    case AndForm(g) => AndIndex({}, NoLists(g), NoLists(RevForm(g)))
  }

  function NoLists(f: Form): NestedTrie
    decreases FormSize(f), 1
  {
    NestedTrie(false, EmptyIndex(f), map[])
  }

  /** The second component goes to the index of the first one, which is made when there is none.  A
      conjunction goes to one trie with every subset and to the other in reverse. */
  function Insert(idx: Index, f: Form, q: Elem): Index
    decreases FormSize(f), 0, 0
  {
    match (f, idx, q)
    case (LitForm, LitIndex(lits), _) => LitIndex(lits + {q})
    case (RevForm(g), RevIndex(inner), Rev(e)) => RevIndex(Insert(inner, g, e))
    case (PairForm(g, h), PairIndex(firsts, seconds), PairOf(a, b)) =>
      var second := if a in seconds then seconds[a] else EmptyIndex(h);
      PairIndex(Insert(firsts, g, a), seconds[a := Insert(second, h, b)])
    case (AndForm(g), AndIndex(keys, subsets, reversed), AndOf(elems)) =>
      AndIndex(keys + {q}, InsertEach(subsets, g, Powerset(elems)), InsertList(reversed, RevForm(g), Reversed(elems)))
    case _ => idx
  }

  function InsertList(t: NestedTrie, f: Form, p: seq<Elem>): NestedTrie
    decreases FormSize(f), 1, |p|
  {
    if p == [] then t.(here := true)
    else
      var sub := if p[0] in t.next then t.next[p[0]] else NoLists(f);
      NestedTrie(t.here, Insert(t.edges, f, p[0]), t.next[p[0] := InsertList(sub, f, p[1..])])
  }

  function InsertEach(t: NestedTrie, f: Form, ps: seq<seq<Elem>>): NestedTrie
    decreases FormSize(f), 2, |ps|
  {
    if ps == [] then t else InsertEach(InsertList(t, f, ps[0]), f, ps[1..])
  }

  function InsertAll(idx: Index, f: Form, qs: seq<Elem>): Index
    decreases |qs|
  {
    if qs == [] then idx else InsertAll(Insert(idx, f, qs[0]), f, qs[1..])
  }

  // What an index holds.

  function Heads(s: set<seq<Elem>>): set<Elem> {
    set p | p in s && p != [] :: p[0]
  }

  function Tails(s: set<seq<Elem>>, k: Elem): set<seq<Elem>> {
    set p | p in s && p != [] && p[0] == k :: p[1..]
  }

  function SubsetsOf(keys: set<Elem>): set<seq<Elem>> {
    set k, p | k in keys && k.AndOf? && p in Powerset(k.elems) :: p
  }

  function ReversedOf(keys: set<Elem>): set<seq<Elem>> {
    set k | k in keys && k.AndOf? :: Reversed(k.elems)
  }

  function Inners(keys: set<Elem>): set<Elem> {
    set k | k in keys && k.Rev? :: k.inner
  }

  function Firsts(keys: set<Elem>): set<Elem> {
    set k | k in keys && k.PairOf? :: k.first
  }

  function Seconds(keys: set<Elem>, a: Elem): set<Elem> {
    set k | k in keys && k.PairOf? && k.first == a :: k.second
  }

  ghost predicate Holds(idx: Index, f: Form, keys: set<Elem>)
    decreases idx
  {
    match f
    case LitForm => idx == LitIndex(keys)
    case RevForm(g) => idx.RevIndex? && Holds(idx.inner, g, Inners(keys))
    case PairForm(g, h) =>
      && idx.PairIndex? && Holds(idx.firsts, g, Firsts(keys)) && idx.seconds.Keys == Firsts(keys)
      && forall a | a in idx.seconds :: Holds(idx.seconds[a], h, Seconds(keys, a))
    case AndForm(g) =>
      && idx.AndIndex? && idx.keys == keys
      && TrieHolds(idx.subsets, g, SubsetsOf(keys)) && TrieHolds(idx.reversed, RevForm(g), ReversedOf(keys))
  }

  ghost predicate TrieHolds(t: NestedTrie, f: Form, s: set<seq<Elem>>)
    decreases t
  {
    && (t.here <==> [] in s) && Holds(t.edges, f, Heads(s)) && t.next.Keys == Heads(s)
    && forall k | k in t.next :: TrieHolds(t.next[k], f, Tails(s, k))
  }

  ghost predicate ProperKeys(keys: set<Elem>, f: Form) {
    forall k | k in keys :: Has(k, f) && Canonical(k)
  }

  ghost predicate ProperLists(s: set<seq<Elem>>, f: Form) {
    forall p | p in s :: ProperList(p, f)
  }

  ghost predicate ProperList(p: seq<Elem>, f: Form) {
    forall x | x in p :: Has(x, f) && Canonical(x)
  }

  // The search is exact.

  lemma {:induction false} FindExact(idx: Index, f: Form, keys: set<Elem>, q: Elem, subsuming: bool)
    requires Holds(idx, f, keys) && ProperKeys(keys, f) && Has(q, f) && Canonical(q)
    ensures forall k :: k in Find(idx, q, subsuming) <==> k in keys && Related(k, q, subsuming)
    decreases idx, 0
  {
    match f
    case LitForm => LitFound(idx, keys, q, subsuming);
    case RevForm(g) =>
      InnersProper(keys, g);
      FindExact(idx.inner, g, Inners(keys), q.inner, !subsuming);
      RevFound(idx, g, keys, q, subsuming);
    case PairForm(g, h) =>
      PartsProper(keys, g, h);
      FindExact(idx.firsts, g, Firsts(keys), q.first, subsuming);
      forall a | a in idx.seconds
        ensures forall b :: b in Find(idx.seconds[a], q.second, subsuming) <==> b in Seconds(keys, a) && Related(b, q.second, subsuming)
      {
        FindExact(idx.seconds[a], h, Seconds(keys, a), q.second, subsuming);
      }
      PairFound(idx, g, h, keys, q, subsuming);
    case AndForm(g) =>
      KeysProperLists(keys, g);
      AndElems(q, g);
      if subsuming {
        forall p ensures p in AndSearch(idx.subsets, q.elems) <==> p in SubsetsOf(keys) && AndPath(p, q.elems) {
          AndSearchExact(idx.subsets, g, SubsetsOf(keys), q.elems, p);
        }
        AndFound(idx, g, keys, q);
      } else {
        ReversedCanonical(q.elems, g);
        forall p ensures p in OrSearch(idx.reversed, Reversed(q.elems)) <==> p in ReversedOf(keys) && OrPath(p, Reversed(q.elems)) {
          OrSearchExact(idx.reversed, RevForm(g), ReversedOf(keys), Reversed(q.elems), p);
        }
        OrFound(idx, g, keys, q);
      }
  }

  lemma HitsExact(idx: Index, f: Form, keys: set<Elem>, key: seq<Elem>)
    requires Holds(idx, f, keys) && ProperKeys(keys, f) && ProperList(key, f)
    ensures forall k :: k in Hits(idx, key) <==> k in keys && SubsumesSome(k, key)
    decreases idx, 1
  {
    forall o | o in key ensures forall k :: k in Find(idx, o, true) <==> k in keys && Subsumes(k, o) { FindExact(idx, f, keys, o, true); }
    hide Find, Holds, Subsumes, Has, Canonical;
  }

  lemma {:induction false} AndSearchExact(t: NestedTrie, f: Form, s: set<seq<Elem>>, key: seq<Elem>, p: seq<Elem>)
    requires TrieHolds(t, f, s) && ProperLists(s, f) && ProperList(key, f)
    ensures p in AndSearch(t, key) <==> p in s && AndPath(p, key)
    decreases t
  {
    hide *;
    AndSearchStep(t, key, p);
    AndPathStep(p, key);
    TrieParts(t, f, s);
    if key != [] && p != [] {
      HitsExact(t.edges, f, Heads(s), key);
      InHeads(s, p);
      if p[0] in t.next {
        ProperRest(key, NotSubsumed(key, p[0]), f);
        AndSearchExact(t.next[p[0]], f, Tails(s, p[0]), NotSubsumed(key, p[0]), p[1..]);
      }
    }
  }

  lemma {:induction false} OrSearchExact(t: NestedTrie, f: Form, s: set<seq<Elem>>, key: seq<Elem>, p: seq<Elem>)
    requires TrieHolds(t, f, s) && ProperLists(s, f) && ProperList(key, f)
    ensures p in OrSearch(t, key) <==> p in s && OrPath(p, key)
    decreases t
  {
    hide *;
    OrSearchStep(t, key, p);
    OrPathStep(p, key);
    TrieParts(t, f, s);
    if p != [] {
      HitsExact(t.edges, f, Heads(s), key);
      InHeads(s, p);
      if p[0] in t.next {
        ProperRest(key, NotBelow(key, p[0]), f);
        OrSearchExact(t.next[p[0]], f, Tails(s, p[0]), NotBelow(key, p[0]), p[1..]);
      }
    }
  }

  lemma AndSearchStep(t: NestedTrie, key: seq<Elem>, p: seq<Elem>)
    ensures key == [] ==> (p in AndSearch(t, key) <==> p == [] && t.here)
    ensures key != [] ==> (p in AndSearch(t, key) <==>
      p != [] && p[0] in Hits(t.edges, key) && p[0] in t.next && Leq(p[0], key[0]) && p[1..] in AndSearch(t.next[p[0]], NotSubsumed(key, p[0])))
  {
    hide Hits, Leq, NotSubsumed;
    if key != [] && p != [] { assert p == [p[0]] + p[1..]; }
  }

  lemma OrSearchStep(t: NestedTrie, key: seq<Elem>, p: seq<Elem>)
    ensures p == [] ==> (p in OrSearch(t, key) <==> t.here)
    ensures p != [] ==> (p in OrSearch(t, key) <==>
      p[0] in Hits(t.edges, key) && p[0] in t.next && p[1..] in OrSearch(t.next[p[0]], NotBelow(key, p[0])))
  {
    hide Hits, Leq, NotBelow;
    if p != [] { assert p == [p[0]] + p[1..]; }
  }

  lemma AndPathStep(p: seq<Elem>, key: seq<Elem>)
    ensures key == [] ==> (AndPath(p, key) <==> p == [])
    ensures key != [] ==> (AndPath(p, key) <==>
      p != [] && SubsumesSome(p[0], key) && Leq(p[0], key[0]) && AndPath(p[1..], NotSubsumed(key, p[0])))
  {
    hide SubsumesSome, Leq, NotSubsumed;
  }

  lemma OrPathStep(p: seq<Elem>, key: seq<Elem>)
    ensures p == [] ==> OrPath(p, key)
    ensures p != [] ==> (OrPath(p, key) <==> SubsumesSome(p[0], key) && OrPath(p[1..], NotBelow(key, p[0])))
  {
    hide SubsumesSome, Leq, NotBelow;
  }

  lemma TrieParts(t: NestedTrie, f: Form, s: set<seq<Elem>>)
    requires TrieHolds(t, f, s) && ProperLists(s, f)
    ensures (t.here <==> [] in s) && Holds(t.edges, f, Heads(s)) && ProperKeys(Heads(s), f)
    ensures forall k :: k in t.next <==> k in Heads(s)
    ensures forall k | k in t.next :: TrieHolds(t.next[k], f, Tails(s, k)) && ProperLists(Tails(s, k), f)
  {
    hide Holds, Heads, Tails, ProperLists, ProperKeys;
    HeadsProper(s, f);
  }

  lemma ProperRest(key: seq<Elem>, rest: seq<Elem>, f: Form)
    requires ProperList(key, f) && forall x | x in rest :: x in key
    ensures ProperList(rest, f)
  {
    hide Has, Canonical;
  }

  lemma InHeads(s: set<seq<Elem>>, p: seq<Elem>)
    requires p != []
    ensures p in s <==> p[1..] in Tails(s, p[0])
    ensures p in s ==> p[0] in Heads(s)
  {
    if p[1..] in Tails(s, p[0]) {
      var q :| q in s && q != [] && q[0] == p[0] && p[1..] == q[1..];
      assert p == [p[0]] + p[1..] && q == [q[0]] + q[1..];
    }
  }

  lemma HeadsProper(s: set<seq<Elem>>, f: Form)
    requires ProperLists(s, f)
    ensures ProperKeys(Heads(s), f) && forall k :: ProperLists(Tails(s, k), f)
  {
    hide Has, Canonical;
    forall k, r | r in Tails(s, k) ensures ProperList(r, f) {
      var p :| p in s && p != [] && p[0] == k && r == p[1..];
      assert forall x | x in r :: x in p;
    }
    forall k | k in Heads(s) ensures Has(k, f) && Canonical(k) { var p :| p in s && p != [] && p[0] == k; }
  }

  // The cases.

  lemma LitFound(idx: Index, keys: set<Elem>, q: Elem, subsuming: bool)
    requires Holds(idx, LitForm, keys) && ProperKeys(keys, LitForm) && Has(q, LitForm)
    ensures forall k :: k in Find(idx, q, subsuming) <==> k in keys && Related(k, q, subsuming)
  {
  }

  lemma InnersProper(keys: set<Elem>, g: Form)
    requires ProperKeys(keys, RevForm(g))
    ensures ProperKeys(Inners(keys), g)
  {
  }

  lemma RevFound(idx: Index, g: Form, keys: set<Elem>, q: Elem, subsuming: bool)
    requires idx.RevIndex? && ProperKeys(keys, RevForm(g)) && Has(q, RevForm(g))
    requires forall k :: k in Find(idx.inner, q.inner, !subsuming) <==> k in Inners(keys) && Related(k, q.inner, !subsuming)
    ensures forall k :: k in Find(idx, q, subsuming) <==> k in keys && Related(k, q, subsuming)
  {
    forall k ensures k in Find(idx, q, subsuming) <==> k in keys && Related(k, q, subsuming) {
      if k.Rev? {
        RevLeq(k.inner, q.inner);
        RevLeq(q.inner, k.inner);
        assert k.inner in Inners(keys) <==> k in keys;
        hide Subsumes, Canonical;
        assert k == Rev(k.inner) && q == Rev(q.inner);
      }
    }
  }

  lemma PartsProper(keys: set<Elem>, g: Form, h: Form)
    requires ProperKeys(keys, PairForm(g, h))
    ensures ProperKeys(Firsts(keys), g) && forall a :: ProperKeys(Seconds(keys, a), h)
  {
  }

  lemma PairFound(idx: Index, g: Form, h: Form, keys: set<Elem>, q: Elem, subsuming: bool)
    requires idx.PairIndex? && idx.seconds.Keys == Firsts(keys) && ProperKeys(keys, PairForm(g, h)) && Has(q, PairForm(g, h))
    requires forall a :: a in Find(idx.firsts, q.first, subsuming) <==> a in Firsts(keys) && Related(a, q.first, subsuming)
    requires forall a | a in idx.seconds ::
      forall b :: b in Find(idx.seconds[a], q.second, subsuming) <==> b in Seconds(keys, a) && Related(b, q.second, subsuming)
    ensures forall k :: k in Find(idx, q, subsuming) <==> k in keys && Related(k, q, subsuming)
  {
    forall k ensures k in Find(idx, q, subsuming) <==> k in keys && Related(k, q, subsuming) {
      if k.PairOf? {
        PairSubsumes(k.first, k.second, q.first, q.second);
        PairSubsumes(q.first, q.second, k.first, k.second);
        assert k.second in Seconds(keys, k.first) <==> k in keys;
        hide Subsumes, Canonical;
        assert k == PairOf(k.first, k.second) && q == PairOf(q.first, q.second);
      }
    }
  }

  lemma AndElems(k: Elem, g: Form)
    requires Has(k, AndForm(g)) && Canonical(k)
    ensures k.AndOf? && AllHave(k.elems, g) && CanonicalList(k.elems) && ProperList(k.elems, g)
  {
  }

  lemma KeysProperLists(keys: set<Elem>, g: Form)
    requires ProperKeys(keys, AndForm(g))
    ensures ProperLists(SubsetsOf(keys), g) && ProperLists(ReversedOf(keys), RevForm(g))
  {
    hide Has, Canonical, Powerset;
    forall p | p in SubsetsOf(keys) ensures ProperList(p, g) {
      var k :| k in keys && k.AndOf? && p in Powerset(k.elems);
      AndElems(k, g);
      PowersetMembers(k.elems, p);
      SubsequenceMembers(p, k.elems);
    }
    forall p | p in ReversedOf(keys) ensures ProperList(p, RevForm(g)) {
      var k :| k in keys && k.AndOf? && p == Reversed(k.elems);
      AndElems(k, g);
      ReversedCanonical(k.elems, g);
    }
  }

  lemma AndFound(idx: Index, g: Form, keys: set<Elem>, q: Elem)
    requires idx.AndIndex? && idx.keys == keys && ProperKeys(keys, AndForm(g)) && Has(q, AndForm(g)) && Canonical(q) && q.AndOf?
    requires forall p :: p in AndSearch(idx.subsets, q.elems) <==> p in SubsetsOf(keys) && AndPath(p, q.elems)
    ensures forall k :: k in Find(idx, q, true) <==> k in keys && Related(k, q, true)
  {
    AndElems(q, g);
    forall k | k in keys ensures k in Find(idx, q, true) <==> Related(k, q, true) {
      AndElems(k, g);
      hide Has, Canonical, Subsumes, AndPath, AndSearch, Powerset, Subsequence;
      assert k == AndOf(k.elems) && q == AndOf(q.elems);
      if p :| p in AndSearch(idx.subsets, q.elems) && Subsequence(p, k.elems) { PathSubsumes(k.elems, p, q.elems, g); }
      if Subsumes(k, q) {
        var p := SubsumesPath(k.elems, q.elems, g);
        PowersetMembers(k.elems, p);
        assert p in SubsetsOf(keys);
      }
    }
  }

  lemma OrFound(idx: Index, g: Form, keys: set<Elem>, q: Elem)
    requires idx.AndIndex? && idx.keys == keys && ProperKeys(keys, AndForm(g)) && Has(q, AndForm(g)) && Canonical(q) && q.AndOf?
    requires forall p :: p in OrSearch(idx.reversed, Reversed(q.elems)) <==> p in ReversedOf(keys) && OrPath(p, Reversed(q.elems))
    ensures forall k :: k in Find(idx, q, false) <==> k in keys && Related(k, q, false)
  {
    AndElems(q, g);
    forall k | k in keys ensures k in Find(idx, q, false) <==> Related(k, q, false) {
      AndElems(k, g);
      hide Has, Canonical, Subsumes, OrPath, OrSearch;
      assert k == AndOf(k.elems) && q == AndOf(q.elems);
      ReversedSearch(k.elems, q.elems, g);
      assert Reversed(k.elems) in ReversedOf(keys);
    }
  }

  // An index holds what was inserted.

  lemma {:induction false} EmptyHolds(f: Form)
    ensures Holds(EmptyIndex(f), f, {})
    decreases FormSize(f), 0
  {
    match f
    case LitForm =>
    case RevForm(g) =>
      EmptyHolds(g);
      assert Inners({}) == {};
    case PairForm(g, h) =>
      EmptyHolds(g);
      assert Firsts({}) == {};
    case AndForm(g) =>
      NoListsHolds(g);
      NoListsHolds(RevForm(g));
      assert SubsetsOf({}) == {} && ReversedOf({}) == {};
  }

  lemma NoListsHolds(f: Form)
    ensures TrieHolds(NoLists(f), f, {})
    decreases FormSize(f), 1
  {
    EmptyHolds(f);
    assert Heads({}) == {};
  }

  lemma {:induction false} InsertHolds(idx: Index, f: Form, keys: set<Elem>, q: Elem)
    requires Holds(idx, f, keys) && Has(q, f)
    ensures Holds(Insert(idx, f, q), f, keys + {q})
    decreases FormSize(f), 1, 0
  {
    match f
    case LitForm =>
    case RevForm(g) =>
      InsertHolds(idx.inner, g, Inners(keys), q.inner);
      assert Inners(keys + {q}) == Inners(keys) + {q.inner};
    case PairForm(g, h) => InsertPair(idx, g, h, keys, q);
    case AndForm(g) => InsertAnd(idx, g, keys, q);
  }

  lemma InsertPair(idx: Index, g: Form, h: Form, keys: set<Elem>, q: Elem)
    requires Holds(idx, PairForm(g, h), keys) && Has(q, PairForm(g, h))
    ensures Holds(Insert(idx, PairForm(g, h), q), PairForm(g, h), keys + {q})
    decreases FormSize(PairForm(g, h)), 0, 0
  {
    assert FormSize(g) < FormSize(PairForm(g, h)) && FormSize(h) < FormSize(PairForm(g, h));
    hide *;
    PairHas(q, g, h);
    PairShape(idx, g, h, keys);
    PairHolds(idx, g, h, keys);
    InsertPairStep(idx, g, h, q);
    PairHolds(Insert(idx, PairForm(g, h), q), g, h, keys + {q});
    SecondsAdded(keys, q);
    InsertHolds(idx.firsts, g, Firsts(keys), q.first);
    EmptyHolds(h);
    InsertHolds(if q.first in idx.seconds then idx.seconds[q.first] else EmptyIndex(h), h, Seconds(keys, q.first), q.second);
  }

  lemma PairHas(q: Elem, g: Form, h: Form)
    requires Has(q, PairForm(g, h))
    ensures q.PairOf? && Has(q.first, g) && Has(q.second, h)
  {
  }

  lemma PairShape(idx: Index, g: Form, h: Form, keys: set<Elem>)
    requires Holds(idx, PairForm(g, h), keys)
    ensures idx.PairIndex?
  {
    hide Firsts, Seconds;
  }

  lemma InsertPairStep(idx: Index, g: Form, h: Form, q: Elem)
    requires idx.PairIndex? && q.PairOf?
    ensures
      var second := if q.first in idx.seconds then idx.seconds[q.first] else EmptyIndex(h);
      Insert(idx, PairForm(g, h), q) == PairIndex(Insert(idx.firsts, g, q.first), idx.seconds[q.first := Insert(second, h, q.second)])
  {
    hide EmptyIndex;
    assert q == PairOf(q.first, q.second) && idx == PairIndex(idx.firsts, idx.seconds);
  }

  lemma PairHolds(idx: Index, g: Form, h: Form, keys: set<Elem>)
    requires idx.PairIndex?
    ensures Holds(idx, PairForm(g, h), keys) <==>
      && Holds(idx.firsts, g, Firsts(keys)) && idx.seconds.Keys == Firsts(keys)
      && forall a | a in idx.seconds :: Holds(idx.seconds[a], h, Seconds(keys, a))
  {
    hide Firsts, Seconds;
  }

  lemma SecondsAdded(keys: set<Elem>, q: Elem)
    requires q.PairOf?
    ensures Firsts(keys + {q}) == Firsts(keys) + {q.first}
    ensures Seconds(keys + {q}, q.first) == Seconds(keys, q.first) + {q.second}
    ensures forall a | a != q.first :: Seconds(keys + {q}, a) == Seconds(keys, a)
    ensures q.first !in Firsts(keys) ==> Seconds(keys, q.first) == {}
  {
  }

  lemma InsertAnd(idx: Index, g: Form, keys: set<Elem>, q: Elem)
    requires Holds(idx, AndForm(g), keys) && Has(q, AndForm(g))
    ensures Holds(Insert(idx, AndForm(g), q), AndForm(g), keys + {q})
    decreases FormSize(AndForm(g)), 0, 0
  {
    AndHolds(idx, g, keys);
    AndHolds(Insert(idx, AndForm(g), q), g, keys + {q});
    assert q == AndOf(q.elems) && idx == AndIndex(idx.keys, idx.subsets, idx.reversed);
    assert Insert(idx, AndForm(g), q)
      == AndIndex(idx.keys + {q}, InsertEach(idx.subsets, g, Powerset(q.elems)), InsertList(idx.reversed, RevForm(g), Reversed(q.elems)));
    hide *;
    SubsetsAdded(keys, q, g);
    InsertEachHolds(idx.subsets, g, SubsetsOf(keys), Powerset(q.elems));
    InsertListHolds(idx.reversed, RevForm(g), ReversedOf(keys), Reversed(q.elems));
  }

  lemma AndHolds(idx: Index, g: Form, keys: set<Elem>)
    requires idx.AndIndex?
    ensures Holds(idx, AndForm(g), keys) <==>
      idx.keys == keys && TrieHolds(idx.subsets, g, SubsetsOf(keys)) && TrieHolds(idx.reversed, RevForm(g), ReversedOf(keys))
  {
    hide TrieHolds, SubsetsOf, ReversedOf;
  }

  lemma SubsetsAdded(keys: set<Elem>, q: Elem, g: Form)
    requires Has(q, AndForm(g))
    ensures SubsetsOf(keys + {q}) == SubsetsOf(keys) + (set p | p in Powerset(q.elems))
    ensures ReversedOf(keys + {q}) == ReversedOf(keys) + {Reversed(q.elems)}
    ensures AllHave(Reversed(q.elems), RevForm(g)) && forall p | p in Powerset(q.elems) :: AllHave(p, g)
  {
    hide Powerset;
    forall p | p in Powerset(q.elems) ensures AllHave(p, g) {
      PowersetMembers(q.elems, p);
      SubsequenceMembers(p, q.elems);
    }
    hide Reversed;
  }

  lemma {:induction false} InsertListHolds(t: NestedTrie, f: Form, s: set<seq<Elem>>, p: seq<Elem>)
    requires TrieHolds(t, f, s) && AllHave(p, f)
    ensures TrieHolds(InsertList(t, f, p), f, s + {p})
    decreases FormSize(f), 2, |p|
  {
    hide *;
    var r := InsertList(t, f, p);
    InsertListStep(t, f, p);
    TrieUnfolds(t, f, s);
    TrieUnfolds(r, f, s + {p});
    TailsAdded(s, p);
    if p != [] {
      var sub := if p[0] in t.next then t.next[p[0]] else NoLists(f);
      AllHaveParts(p, f);
      InsertHolds(t.edges, f, Heads(s), p[0]);
      NoListsHolds(f);
      InsertListHolds(sub, f, Tails(s, p[0]), p[1..]);
      forall k | k in r.next ensures TrieHolds(r.next[k], f, Tails(s + {p}, k)) {
        assert k != p[0] ==> k in t.next && r.next[k] == t.next[k];
      }
    }
  }

  lemma InsertListStep(t: NestedTrie, f: Form, p: seq<Elem>)
    ensures p == [] ==> InsertList(t, f, p) == NestedTrie(true, t.edges, t.next)
    ensures p != [] ==>
      var sub := if p[0] in t.next then t.next[p[0]] else NoLists(f);
      InsertList(t, f, p) == NestedTrie(t.here, Insert(t.edges, f, p[0]), t.next[p[0] := InsertList(sub, f, p[1..])])
  {
    hide Insert, NoLists;
  }

  lemma AllHaveParts(p: seq<Elem>, f: Form)
    requires AllHave(p, f) && p != []
    ensures Has(p[0], f) && AllHave(p[1..], f)
  {
    hide Has;
  }

  lemma TrieUnfolds(t: NestedTrie, f: Form, s: set<seq<Elem>>)
    ensures TrieHolds(t, f, s) <==>
      && (t.here <==> [] in s) && Holds(t.edges, f, Heads(s)) && t.next.Keys == Heads(s)
      && forall k | k in t.next :: TrieHolds(t.next[k], f, Tails(s, k))
  {
    hide Holds, Heads, Tails;
  }

  lemma TailsAdded(s: set<seq<Elem>>, p: seq<Elem>)
    ensures Heads(s + {p}) == if p == [] then Heads(s) else Heads(s) + {p[0]}
    ensures forall k | p == [] || k != p[0] :: Tails(s + {p}, k) == Tails(s, k)
    ensures p != [] ==> Tails(s + {p}, p[0]) == Tails(s, p[0]) + {p[1..]}
    ensures p != [] && p[0] !in Heads(s) ==> Tails(s, p[0]) == {}
  {
  }

  lemma {:induction false} InsertEachHolds(t: NestedTrie, f: Form, s: set<seq<Elem>>, ps: seq<seq<Elem>>)
    requires TrieHolds(t, f, s) && forall p | p in ps :: AllHave(p, f)
    ensures TrieHolds(InsertEach(t, f, ps), f, s + (set p | p in ps))
    decreases FormSize(f), 3, |ps|
  {
    hide TrieHolds, Has, InsertList;
    if ps == [] {
      assert s + (set p | p in ps) == s;
    } else {
      InsertListHolds(t, f, s, ps[0]);
      InsertEachHolds(InsertList(t, f, ps[0]), f, s + {ps[0]}, ps[1..]);
      assert s + {ps[0]} + (set p | p in ps[1..]) == s + (set p | p in ps) by { assert ps == [ps[0]] + ps[1..]; }
    }
  }

  lemma {:induction false} InsertAllHolds(idx: Index, f: Form, keys: set<Elem>, qs: seq<Elem>)
    requires Holds(idx, f, keys) && forall q | q in qs :: Has(q, f)
    ensures Holds(InsertAll(idx, f, qs), f, keys + (set q | q in qs))
    decreases |qs|
  {
    hide Holds, Has, Insert;
    if qs == [] {
      assert keys + (set q | q in qs) == keys;
    } else {
      InsertHolds(idx, f, keys, qs[0]);
      InsertAllHolds(Insert(idx, f, qs[0]), f, keys + {qs[0]}, qs[1..]);
      assert keys + {qs[0]} + (set q | q in qs[1..]) == keys + (set q | q in qs) by { assert qs == [qs[0]] + qs[1..]; }
    }
  }

  /** After any keys were added to an empty index, a search answers what a scan of those keys answers. */
  lemma InsertedFound(f: Form, qs: seq<Elem>, q: Elem, subsuming: bool)
    requires forall k | k in qs + [q] :: Has(k, f) && Canonical(k)
    ensures forall k :: k in Find(InsertAll(EmptyIndex(f), f, qs), q, subsuming) <==> k in qs && Related(k, q, subsuming)
  {
    hide *;
    var keys := set k | k in qs;
    assert q in qs + [q];
    EmptyHolds(f);
    InsertAllHolds(EmptyIndex(f), f, {}, qs);
    assert {} + keys == keys;
    ProperMembers(keys, f);
    FindExact(InsertAll(EmptyIndex(f), f, qs), f, keys, q, subsuming);
  }

  lemma ProperMembers(keys: set<Elem>, f: Form)
    requires forall k | k in keys :: Has(k, f) && Canonical(k)
    ensures ProperKeys(keys, f)
  {
  }
}
