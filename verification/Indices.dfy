/** Numbering the (relation, arguments) pairs of a bounded universe. */
module Indexing {
  import opened Collections
  import opened Syntax
  import opened Semantics

  /** A relation applied to elements. */
  type Key = (string, seq<Element>)

  function ArgShape(universe: Universe, decl: RelationDecl): (r: seq<nat>)
    ensures |r| == |decl.args|
    ensures forall i | 0 <= i < |r| :: r[i] == universe(decl.args[i])
  {
    seq<nat>(|decl.args|, i requires 0 <= i < |decl.args| => universe(decl.args[i]))
  }

  function KeysOfDecl(name: string, tuples: seq<seq<Element>>): (r: seq<Key>)
    ensures |r| == |tuples|
    ensures forall i | 0 <= i < |r| :: r[i] == (name, tuples[i])
  {
    seq(|tuples|, i requires 0 <= i < |tuples| => (name, tuples[i]))
  }

  /** All keys of a list of relations, relation by relation. */
  function KeysOf(relations: seq<RelationDecl>, universe: Universe): seq<Key> {
    if relations == [] then []
    else KeysOfDecl(relations[0].name, Product(ArgShape(universe, relations[0]))) + KeysOf(relations[1..], universe)
  }

  function WithMutability(relations: seq<RelationDecl>, mutable: bool): (r: seq<RelationDecl>)
    ensures forall d :: d in r <==> d in relations && d.mutable == mutable
  {
    if relations == [] then []
    else (if relations[0].mutable == mutable then [relations[0]] else []) + WithMutability(relations[1..], mutable)
  }

  predicate DistinctDecls(relations: seq<RelationDecl>) {
    forall i, j | 0 <= i < j < |relations| :: relations[i].name != relations[j].name
  }

  /** No name is declared twice, and no name ends in a prime. */
  predicate ProperNames(relations: seq<RelationDecl>) {
    && DistinctDecls(relations)
    && (forall d | d in relations :: TrimPrimes(d.name) == d.name)
  }

  lemma {:induction false} KeysMembers(relations: seq<RelationDecl>, universe: Universe, key: Key)
    ensures key in KeysOf(relations, universe)
      <==> exists d :: d in relations && d.name == key.0 && InShape(key.1, ArgShape(universe, d))
  {
    if relations != [] {
      var tuples := Product(ArgShape(universe, relations[0]));
      var first := KeysOfDecl(relations[0].name, tuples);
      ProductMembers(ArgShape(universe, relations[0]), key.1);
      KeysMembers(relations[1..], universe, key);
      if key in first {
        var i :| 0 <= i < |first| && first[i] == key;
      }
      if key.0 == relations[0].name && key.1 in tuples {
        var i :| 0 <= i < |tuples| && tuples[i] == key.1;
        assert first[i] == key;
      }
    }
  }

  lemma {:induction false} KeysNoDuplicates(relations: seq<RelationDecl>, universe: Universe)
    requires DistinctDecls(relations)
    ensures NoDuplicates(KeysOf(relations, universe))
  {
    if relations != [] {
      var tuples := Product(ArgShape(universe, relations[0]));
      var first, rest := KeysOfDecl(relations[0].name, tuples), KeysOf(relations[1..], universe);
      KeysNoDuplicates(relations[1..], universe);
      ProductNoDuplicates(ArgShape(universe, relations[0]));
      forall i, j | 0 <= i < j < |first + rest| ensures (first + rest)[i] != (first + rest)[j] {
        if i < |first| && j >= |first| {
          KeysMembers(relations[1..], universe, rest[j - |first|]);
        }
      }
    }
  }

  lemma {:induction false} MutabilityDistinct(relations: seq<RelationDecl>, mutable: bool)
    requires DistinctDecls(relations)
    ensures DistinctDecls(WithMutability(relations, mutable))
  {
    if relations != [] {
      MutabilityDistinct(relations[1..], mutable);
      var rest := WithMutability(relations[1..], mutable);
      forall j | 0 <= j < |rest| ensures rest[j].name != relations[0].name {
        assert rest[j] in relations[1..];
        var k :| 0 <= k < |relations[1..]| && relations[1..][k] == rest[j];
        assert relations[k + 1] == rest[j];
      }
      var r := WithMutability(relations, mutable);
      forall i, j | 0 <= i < j < |r| ensures r[i].name != r[j].name {
        if relations[0].mutable == mutable {
          assert r[j] == rest[j - 1];
          if i > 0 { assert r[i] == rest[i - 1]; }
        } else {
          assert r == rest;
        }
      }
    }
  }

  /** Each key with its position, counted from `start`. */
  ghost predicate Numbers(table: map<Key, (nat, bool)>, keys: seq<Key>, start: nat, mutable: bool) {
    forall i | 0 <= i < |keys| :: keys[i] in table && table[keys[i]] == (start + i, mutable)
  }

  datatype IndexMap = IndexMap(copies: nat, numMutables: nat, table: map<Key, (nat, bool)>) {

    /** The index of a possibly primed application; `None` where the lookup panics. */
    function Get(name: string, primes: nat, es: seq<Element>): Option<nat> {
      if primes < copies && (name, es) in table then
        var (i, mutable) := table[(name, es)];
        Some(if mutable then i + primes * numMutables else i)
      else None
    }
  }

  /** The keys of the mutable relations are numbered 0, 1, ... in each copy, one copy after
      the other, followed by the keys of the immutable relations. */
  ghost predicate Exact(ix: IndexMap, relations: seq<RelationDecl>, universe: Universe) {
    var mutables := KeysOf(WithMutability(relations, true), universe);
    var immutables := KeysOf(WithMutability(relations, false), universe);
    && ix.numMutables == |mutables|
    && Numbers(ix.table, mutables, 0, true)
    && Numbers(ix.table, immutables, |mutables| * ix.copies, false)
    && ix.table.Keys == (set k | k in mutables) + (set k | k in immutables)
  }

  ghost function NumVars(ix: IndexMap, relations: seq<RelationDecl>, universe: Universe): nat {
    ix.numMutables * ix.copies + |KeysOf(WithMutability(relations, false), universe)|
  }

  // Arithmetic of copies.

  lemma MulMono(a: nat, b: nat, m: nat)
    requires a <= b
    ensures a * m <= b * m
  {
    assert b * m == a * m + (b - a) * m;
    assert (b - a) * m >= 0;
  }

  lemma CopyBelow(r: nat, p: nat, m: nat, copies: nat)
    requires r < m && p < copies
    ensures r + p * m < m * copies
  {
    MulMono(p + 1, copies, m);
    assert (p + 1) * m == p * m + m;
  }

  lemma CopyUnique(r1: nat, p1: nat, r2: nat, p2: nat, m: nat)
    requires r1 < m && r2 < m && r1 + p1 * m == r2 + p2 * m
    ensures r1 == r2 && p1 == p2
  {
    CopyOrder(r1, p1, r2, p2, m);
    CopyOrder(r2, p2, r1, p1, m);
  }

  lemma CopyOrder(r1: nat, p1: nat, r2: nat, p2: nat, m: nat)
    requires r1 < m && r2 < m
    ensures p1 < p2 ==> r1 + p1 * m < r2 + p2 * m
  {
    if p1 < p2 {
      MulMono(p1 + 1, p2, m);
      assert (p1 + 1) * m == p1 * m + m;
    }
  }

  lemma CopySplit(i: nat, m: nat, copies: nat) returns (r: nat, p: nat)
    requires i < m * copies
    ensures r < m && p < copies && i == r + p * m
  {
    assert m != 0;
    p, r := i / m, i % m;
    assert i == p * m + r;
    QuotientBelow(i, m, copies);
  }

  lemma QuotientBelow(i: nat, m: nat, copies: nat)
    requires m > 0
    ensures i / m >= copies ==> i >= m * copies
  {
    if i / m >= copies {
      MulMono(copies, i / m, m);
      assert (i / m) * m + i % m == i;
    }
  }

  /** Every number below the number of variables is the index of some application. */
  lemma IndicesOnto(ix: IndexMap, relations: seq<RelationDecl>, universe: Universe, i: nat)
    requires Exact(ix, relations, universe) && ix.copies > 0 && i < NumVars(ix, relations, universe)
    ensures exists name, p: nat, es :: ix.Get(name, p, es) == Some(i)
  {
    var mutables := KeysOf(WithMutability(relations, true), universe);
    var immutables := KeysOf(WithMutability(relations, false), universe);
    if i < ix.numMutables * ix.copies {
      var r, p := CopySplit(i, ix.numMutables, ix.copies);
      assert ix.table[mutables[r]] == (r, true);
      assert ix.Get(mutables[r].0, p, mutables[r].1) == Some(r + p * ix.numMutables);
    } else {
      var r := i - ix.numMutables * ix.copies;
      assert ix.table[immutables[r]] == (ix.numMutables * ix.copies + r, false);
      assert ix.Get(immutables[r].0, 0, immutables[r].1) == Some(i);
    }
  }

  /** What the entry of a key looks like. */
  lemma EntryOf(ix: IndexMap, relations: seq<RelationDecl>, universe: Universe, k: Key) returns (n: nat)
    requires Exact(ix, relations, universe) && k in ix.table
    ensures ix.table[k].1 ==>
      n == ix.table[k].0 < ix.numMutables && KeysOf(WithMutability(relations, true), universe)[n] == k
    ensures !ix.table[k].1 ==>
      && n < |KeysOf(WithMutability(relations, false), universe)|
      && KeysOf(WithMutability(relations, false), universe)[n] == k
      && ix.table[k].0 == ix.numMutables * ix.copies + n
  {
    var mutables := KeysOf(WithMutability(relations, true), universe);
    var immutables := KeysOf(WithMutability(relations, false), universe);
    if k in mutables {
      n :| 0 <= n < |mutables| && mutables[n] == k;
    } else {
      n :| 0 <= n < |immutables| && immutables[n] == k;
    }
  }

  lemma IndexBelow(ix: IndexMap, relations: seq<RelationDecl>, universe: Universe, k: Key, p: nat)
    requires Exact(ix, relations, universe) && ix.Get(k.0, p, k.1).Some?
    ensures ix.Get(k.0, p, k.1).value < NumVars(ix, relations, universe)
    ensures ix.table[k].1 <==> ix.Get(k.0, p, k.1).value < ix.numMutables * ix.copies
  {
    var n := EntryOf(ix, relations, universe, k);
    assert k == (k.0, k.1);
    if ix.table[k].1 { CopyBelow(n, p, ix.numMutables, ix.copies); }
  }

  /** Different applications have different indices, and all lie below the number of
      variables; primes are ignored on immutable relations. */
  lemma IndicesDistinct(ix: IndexMap, relations: seq<RelationDecl>, universe: Universe,
                        k1: Key, p1: nat, k2: Key, p2: nat)
    requires Exact(ix, relations, universe)
    requires ix.Get(k1.0, p1, k1.1).Some? && ix.Get(k2.0, p2, k2.1).Some?
    ensures ix.Get(k1.0, p1, k1.1).value < NumVars(ix, relations, universe)
    ensures ix.Get(k1.0, p1, k1.1) == ix.Get(k2.0, p2, k2.1)
      <==> k1 == k2 && (ix.table[k1].1 ==> p1 == p2)
  {
    assert k1 == (k1.0, k1.1) && k2 == (k2.0, k2.1);
    IndexBelow(ix, relations, universe, k1, p1);
    IndexBelow(ix, relations, universe, k2, p2);
    var n1 := EntryOf(ix, relations, universe, k1);
    var n2 := EntryOf(ix, relations, universe, k2);
    if ix.Get(k1.0, p1, k1.1) == ix.Get(k2.0, p2, k2.1) {
      assert ix.table[k1].1 == ix.table[k2].1;
      if ix.table[k1].1 { CopyUnique(n1, p1, n2, p2, ix.numMutables); }
    }
  }

  /** Which keys have an index, and which of them are mutable. */
  lemma IndexedKeys(ix: IndexMap, relations: seq<RelationDecl>, universe: Universe, name: string, es: seq<Element>)
    requires ProperNames(relations) && Exact(ix, relations, universe)
    ensures (name, es) in ix.table <==>
      FindDecl(relations, name).Some? && InShape(es, ArgShape(universe, FindDecl(relations, name).value))
    ensures (name, es) in ix.table ==> ix.table[(name, es)].1 == FindDecl(relations, name).value.mutable
  {
    KeysMembers(WithMutability(relations, true), universe, (name, es));
    KeysMembers(WithMutability(relations, false), universe, (name, es));
    forall d | d in relations && d.name == name ensures FindDecl(relations, name) == Some(d) {
      OneDecl(relations, d);
    }
    if (name, es) in ix.table {
      var n := EntryOf(ix, relations, universe, (name, es));
      var keys := KeysOf(WithMutability(relations, ix.table[(name, es)].1), universe);
      assert keys[n] in keys;
    }
  }

  lemma OneDecl(relations: seq<RelationDecl>, d: RelationDecl)
    requires d in relations && ProperNames(relations)
    ensures FindDecl(relations, d.name) == Some(d)
  {
    var found := FindDecl(relations, d.name).value;
    var i :| 0 <= i < |relations| && relations[i] == d;
    var j :| 0 <= j < |relations| && relations[j] == found;
    assert i != j ==> relations[i].name != relations[j].name;
  }

  /** Number the keys one after the other. */
  method NumberKeys(keys: seq<Key>, start: nat, mutable: bool) returns (table: map<Key, (nat, bool)>)
    requires NoDuplicates(keys)
    ensures Numbers(table, keys, start, mutable)
    ensures table.Keys == set k | k in keys
  {
    table := map[];
    var n := 0;
    while n < |keys|
      invariant n <= |keys|
      invariant Numbers(table, keys[..n], start, mutable)
      invariant table.Keys == set k | k in keys[..n]
    {
      assert keys[..n + 1] == keys[..n] + [keys[n]];
      table := table[keys[n] := (start + n, mutable)];
      n := n + 1;
    }
    assert keys[..n] == keys;
  }

  /** The numbering together with the counter that hands out further variables. */
  class Indices {
    var ix: IndexMap
    var numVars: nat

    constructor (relations: seq<RelationDecl>, universe: Universe, numMutableCopies: nat)
      requires ProperNames(relations)
      ensures Exact(ix, relations, universe) && ix.copies == numMutableCopies
      ensures numVars == NumVars(ix, relations, universe)
    {
      var mutables := KeysOf(WithMutability(relations, true), universe);
      var immutables := KeysOf(WithMutability(relations, false), universe);
      hide Exact, Numbers, KeysOf, WithMutability, NumVars, ProperNames, NoDuplicates;
      SeparateKeys(relations, universe);
      var base := |mutables| * numMutableCopies;
      var first := NumberKeys(mutables, 0, true);
      var second := NumberKeys(immutables, base, false);
      AssembleExact(relations, universe, numMutableCopies, base,
                    IndexMap(numMutableCopies, |mutables|, first + second), first, second);
      ix := IndexMap(numMutableCopies, |mutables|, first + second);
      numVars := base + |immutables|;
    }

    /** The indices of all applications are below the counter. */
    ghost predicate Counts(relations: seq<RelationDecl>, universe: Universe)
      reads this
    {
      Exact(ix, relations, universe) && NumVars(ix, relations, universe) <= numVars
    }

    /** A fresh index: the old count, which is the index of no application. */
    method Var() returns (v: nat)
      modifies this`numVars
      ensures v == old(numVars) && numVars == old(numVars) + 1
      ensures forall relations, universe | old(Counts(relations, universe)) ::
        Counts(relations, universe) && forall name, primes: nat, es :: ix.Get(name, primes, es) != Some(v)
    {
      hide Exact, NumVars, IndexMap.Get;
      ghost var table, count := ix, numVars;
      forall relations, universe | Counts(relations, universe) ensures forall name, primes: nat, es :: table.Get(name, primes, es) != Some(count) {
        forall name, primes: nat, es ensures table.Get(name, primes, es) != Some(count) {
          if table.Get(name, primes, es).Some? { IndexBelow(table, relations, universe, (name, es), primes); }
        }
      }
      numVars := numVars + 1;
      v := numVars - 1;
    }
  }

  lemma SeparateKeys(relations: seq<RelationDecl>, universe: Universe)
    requires ProperNames(relations)
    ensures var m, i := KeysOf(WithMutability(relations, true), universe), KeysOf(WithMutability(relations, false), universe);
            NoDuplicates(m) && NoDuplicates(i) && forall k | k in m :: k !in i
  {
    MutabilityDistinct(relations, true);
    MutabilityDistinct(relations, false);
    KeysNoDuplicates(WithMutability(relations, true), universe);
    KeysNoDuplicates(WithMutability(relations, false), universe);
    var m, i := KeysOf(WithMutability(relations, true), universe), KeysOf(WithMutability(relations, false), universe);
    forall d | d in relations ensures FindDecl(relations, d.name) == Some(d) { OneDecl(relations, d); }
    forall k | k in m ensures k !in i {
      KeysMembers(WithMutability(relations, true), universe, k);
      KeysMembers(WithMutability(relations, false), universe, k);
    }
  }

  lemma MergeNumberings(m: seq<Key>, i: seq<Key>, base: nat, first: map<Key, (nat, bool)>, second: map<Key, (nat, bool)>)
    requires forall k | k in m :: k !in i
    requires Numbers(first, m, 0, true) && first.Keys == set k | k in m
    requires Numbers(second, i, base, false) && second.Keys == set k | k in i
    ensures Numbers(first + second, m, 0, true) && Numbers(first + second, i, base, false)
    ensures (first + second).Keys == (set k | k in m) + (set k | k in i)
  {
    forall n | 0 <= n < |m| ensures m[n] in first + second && (first + second)[m[n]] == (n, true) {
      assert m[n] in m && m[n] !in second;
    }
  }

  lemma AssembleExact(relations: seq<RelationDecl>, universe: Universe, copies: nat, base: nat, ix: IndexMap,
                      first: map<Key, (nat, bool)>, second: map<Key, (nat, bool)>)
    requires ProperNames(relations)
    requires var m := KeysOf(WithMutability(relations, true), universe);
             Numbers(first, m, 0, true) && (first.Keys == set k | k in m) && base == |m| * copies
             && ix == IndexMap(copies, |m|, first + second)
    requires var i := KeysOf(WithMutability(relations, false), universe);
             Numbers(second, i, base, false) && second.Keys == set k | k in i
    ensures Exact(ix, relations, universe)
    ensures NumVars(ix, relations, universe) == base + |KeysOf(WithMutability(relations, false), universe)|
  {
    hide KeysOf, Numbers, WithMutability;
    SeparateKeys(relations, universe);
    MergeNumberings(KeysOf(WithMutability(relations, true), universe),
                    KeysOf(WithMutability(relations, false), universe), base, first, second);
  }
}
