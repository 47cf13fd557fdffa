/** The copy instructions that permute the elements of a state, and that the states they
    produce form the orbits of a group. */
module Orbits {
  import opened Collections
  import opened Syntax
  import opened Semantics
  import opened SortCheck
  import opened Isomorphism
  import opened Permutations
  import opened Indexing
  import opened Guarded
  import opened Translation
  import opened Search
  import opened QuantEnumSound

  /** A signature over a bounded universe, with the numbering of one copy of its symbols. */
  datatype Bounds = Bounds(sig: Signature, sorts: seq<string>, universe: Universe, ix: IndexMap)

  ghost predicate OneCopy(b: Bounds) {
    && ProperNames(b.sig.relations) && NoDuplicates(b.sorts) && b.universe(Bool) == 2
    && Exact(b.ix, b.sig.relations, b.universe) && b.ix.copies == 1
  }

  ghost predicate Proper(b: Bounds) {
    OneCopy(b) && AllBool(b.sig.relations)
  }

  ghost function Width(b: Bounds): nat {
    NumVars(b.ix, b.sig.relations, b.universe)
  }

  function RenamedKey(f: Family, relations: seq<RelationDecl>, k: Key): Key {
    match FindDecl(relations, k.0)
    case Some(d) =>
      if |d.args| == |k.1| then (k.0, RenameTuple((s: Sort, x: Element) => Rename(f, s, x), d.args, k.1)) else k
    case None => k
  }

  function IndexOf(ix: IndexMap, k: Key): Option<nat> {
    ix.Get(k.0, 0, k.1)
  }

  /** Copy each bit to the bit of the renamed application, unless they are the same. */
  function OrderingOf(f: Family, keys: seq<Key>, relations: seq<RelationDecl>, ix: IndexMap): Ordering {
    if keys == [] then []
    else
      var src, dst := IndexOf(ix, keys[0]), IndexOf(ix, RenamedKey(f, relations, keys[0]));
      (if src.Some? && dst.Some? && src != dst then [(src.value, dst.value)] else [])
      + OrderingOf(f, keys[1..], relations, ix)
  }

  function AllKeys(b: Bounds): seq<Key> {
    KeysOf(WithMutability(b.sig.relations, true), b.universe) + KeysOf(WithMutability(b.sig.relations, false), b.universe)
  }

  function OrderingsOf(fs: seq<Family>, b: Bounds): (r: seq<Ordering>)
    ensures |r| == |fs| && forall i | 0 <= i < |fs| :: r[i] == OrderingOf(fs[i], AllKeys(b), b.sig.relations, b.ix)
  {
    seq(|fs|, i requires 0 <= i < |fs| => OrderingOf(fs[i], AllKeys(b), b.sig.relations, b.ix))
  }

  /** One ordering for every way to permute the elements of the sorts. */
  function AllOrderings(b: Bounds): seq<Ordering> {
    OrderingsOf(Families(b.sorts, b.universe), b)
  }

  // Renaming keys.

  lemma RenamedInTable(b: Bounds, f: Family, g: Family, k: Key)
    requires Proper(b) && k in b.ix.table
    requires IsFamily(f, b.sorts, b.universe) && IsFamily(g, b.sorts, b.universe) && Inverses(f, g)
    ensures RenamedKey(f, b.sig.relations, k) in b.ix.table
    ensures b.ix.table[RenamedKey(f, b.sig.relations, k)].1 == b.ix.table[k].1
    ensures RenamedKey(g, b.sig.relations, RenamedKey(f, b.sig.relations, k)) == k
  {
    hide Exact, IsOrder, Inverses;
    FamilyRenames(f, g, b.sorts, b.universe);
    assert k == (k.0, k.1);
    IndexedKeys(b.ix, b.sig.relations, b.universe, k.0, k.1);
    var d := FindDecl(b.sig.relations, k.0).value;
    var k' := RenamedKey(f, b.sig.relations, k);
    IndexedKeys(b.ix, b.sig.relations, b.universe, k'.0, k'.1);
    RenamedShape(b.universe, f, g, d, k.1);
  }

  lemma RenamedShape(universe: Universe, f: Family, g: Family, d: RelationDecl, es: seq<Element>)
    requires IsRenaming(RenamingOf(f, g), universe) && InShape(es, ArgShape(universe, d))
    ensures InShape(RenameTuple((s: Sort, x: Element) => Rename(f, s, x), d.args, es), ArgShape(universe, d))
    ensures RenameTuple((s: Sort, x: Element) => Rename(g, s, x), d.args,
                        RenameTuple((s: Sort, x: Element) => Rename(f, s, x), d.args, es)) == es
  {
    var pi := RenamingOf(f, g);
    forall i | 0 <= i < |es| ensures Rename(f, d.args[i], es[i]) < universe(d.args[i])
                             ensures Rename(g, d.args[i], Rename(f, d.args[i], es[i])) == es[i] {
      assert es[i] < ArgShape(universe, d)[i];
      assert pi.to(d.args[i], es[i]) < universe(d.args[i]) && pi.from(d.args[i], pi.to(d.args[i], es[i])) == es[i];
    }
  }

  // The state an ordering produces.

  /** `y` has at every renamed application the bit that `x` has at the application. */
  ghost predicate Permuted(b: Bounds, f: Family, x: State, y: State) {
    && |x| == |y| == Width(b)
    && forall k | k in b.ix.table :: SameBit(b.ix, k, RenamedKey(f, b.sig.relations, k), x, y)
  }

  ghost predicate SameBit(ix: IndexMap, k: Key, k': Key, x: State, y: State) {
    && IndexOf(ix, k).Some? && IndexOf(ix, k').Some?
    && Bit(y, IndexOf(ix, k').value) == Bit(x, IndexOf(ix, k).value)
  }

  ghost predicate Functional(o: Ordering) {
    forall a, b | a in o && b in o && a.1 == b.1 :: a == b
  }

  predicate Targets(o: Ordering, i: nat) {
    exists a | a in o :: a.1 == i
  }

  lemma {:induction false} CopiedBit(o: Ordering, x: State, y: State, i: nat)
    requires Functional(o) && i < |y|
    ensures !Targets(o, i) ==> CopyBits(o, x, y)[i] == y[i]
    ensures forall a | a in o && a.1 == i :: CopyBits(o, x, y)[i] == Bit(x, a.0)
    decreases |o|
  {
    if o != [] {
      var y' := SetBit(y, o[0].1, Bit(x, o[0].0));
      assert o == [o[0]] + o[1..];
      CopiedBit(o[1..], x, y', i);
      if o[0].1 == i {
        forall a | a in o && a.1 == i ensures CopyBits(o, x, y)[i] == Bit(x, a.0) {
          assert a == o[0];
        }
      }
    }
  }

  lemma {:induction false} OrderingPairs(f: Family, keys: seq<Key>, relations: seq<RelationDecl>, ix: IndexMap, a: (nat, nat))
    ensures a in OrderingOf(f, keys, relations, ix)
      <==> a.0 != a.1 && exists k :: k in keys && IndexOf(ix, k) == Some(a.0) && IndexOf(ix, RenamedKey(f, relations, k)) == Some(a.1)
  {
    hide IndexMap.Get, RenamedKey;
    if keys != [] {
      assert keys == [keys[0]] + keys[1..];
      OrderingPairs(f, keys[1..], relations, ix, a);
    }
  }

  lemma TableKeys(b: Bounds, k: Key)
    requires Proper(b)
    ensures k in AllKeys(b) <==> k in b.ix.table
    ensures k in b.ix.table <==> IndexOf(b.ix, k).Some?
  {
    assert k == (k.0, k.1);
  }

  /** Two applications with the same target are the same. */
  lemma SameTarget(b: Bounds, f: Family, g: Family, k1: Key, k2: Key)
    requires Proper(b) && k1 in b.ix.table && k2 in b.ix.table
    requires IsFamily(f, b.sorts, b.universe) && IsFamily(g, b.sorts, b.universe) && Inverses(f, g)
    requires IndexOf(b.ix, RenamedKey(f, b.sig.relations, k1)) == IndexOf(b.ix, RenamedKey(f, b.sig.relations, k2))
    ensures k1 == k2
  {
    hide Exact, IsFamily, Inverses, RenamedKey;
    RenamedInTable(b, f, g, k1);
    RenamedInTable(b, f, g, k2);
    var r1, r2 := RenamedKey(f, b.sig.relations, k1), RenamedKey(f, b.sig.relations, k2);
    TableKeys(b, r1);
    TableKeys(b, r2);
    IndicesDistinct(b.ix, b.sig.relations, b.universe, r1, 0, r2, 0);
  }

  lemma OrderingFunctional(b: Bounds, f: Family, g: Family)
    requires Proper(b)
    requires IsFamily(f, b.sorts, b.universe) && IsFamily(g, b.sorts, b.universe) && Inverses(f, g)
    ensures Functional(OrderingOf(f, AllKeys(b), b.sig.relations, b.ix))
  {
    hide Exact, IsFamily, Inverses, RenamedKey, IndexOf, AllKeys, OrderingOf;
    var o := OrderingOf(f, AllKeys(b), b.sig.relations, b.ix);
    forall a1, a2 | a1 in o && a2 in o && a1.1 == a2.1 ensures a1 == a2 {
      var k1 := SourceKey(b, f, a1);
      var k2 := SourceKey(b, f, a2);
      SameTarget(b, f, g, k1, k2);
    }
  }

  lemma SourceKey(b: Bounds, f: Family, a: (nat, nat)) returns (k: Key)
    requires Proper(b) && a in OrderingOf(f, AllKeys(b), b.sig.relations, b.ix)
    ensures k in b.ix.table && IndexOf(b.ix, k) == Some(a.0) && IndexOf(b.ix, RenamedKey(f, b.sig.relations, k)) == Some(a.1)
    ensures a.0 != a.1
  {
    hide Exact, RenamedKey, IndexOf, AllKeys, OrderingOf;
    OrderingPairs(f, AllKeys(b), b.sig.relations, b.ix, a);
    k :| k in AllKeys(b) && IndexOf(b.ix, k) == Some(a.0) && IndexOf(b.ix, RenamedKey(f, b.sig.relations, k)) == Some(a.1);
    TableKeys(b, k);
  }

  /** Running the copy instructions of a family permutes the state, and no lookup fails. */
  lemma ActPermutes(b: Bounds, f: Family, g: Family, x: State)
    requires Proper(b) && |x| == Width(b)
    requires IsFamily(f, b.sorts, b.universe) && IsFamily(g, b.sorts, b.universe) && Inverses(f, g)
    ensures Permuted(b, f, x, Act(OrderingOf(f, AllKeys(b), b.sig.relations, b.ix), x))
  {
    hide Exact, IsFamily, Inverses, RenamedKey, IndexOf, AllKeys, OrderingOf, NumVars, CopyBits;
    var o := OrderingOf(f, AllKeys(b), b.sig.relations, b.ix);
    OrderingFunctional(b, f, g);
    forall k | k in b.ix.table ensures SameBit(b.ix, k, RenamedKey(f, b.sig.relations, k), x, Act(o, x)) {
      ActKey(b, f, g, x, k);
    }
  }

  lemma ActKey(b: Bounds, f: Family, g: Family, x: State, k: Key)
    requires Proper(b) && |x| == Width(b) && k in b.ix.table
    requires IsFamily(f, b.sorts, b.universe) && IsFamily(g, b.sorts, b.universe) && Inverses(f, g)
    requires Functional(OrderingOf(f, AllKeys(b), b.sig.relations, b.ix))
    ensures SameBit(b.ix, k, RenamedKey(f, b.sig.relations, k), x, Act(OrderingOf(f, AllKeys(b), b.sig.relations, b.ix), x))
  {
    hide Exact, IsFamily, Inverses, RenamedKey, AllKeys, OrderingOf, NumVars, CopyBits;
    var o, k' := OrderingOf(f, AllKeys(b), b.sig.relations, b.ix), RenamedKey(f, b.sig.relations, k);
    RenamedInTable(b, f, g, k);
    TableKeys(b, k);
    TableKeys(b, k');
    var src, dst := IndexOf(b.ix, k).value, IndexOf(b.ix, k').value;
    IndexBelow(b.ix, b.sig.relations, b.universe, k', 0);
    CopiedBit(o, x, x, dst);
    if src != dst {
      OrderingPairs(f, AllKeys(b), b.sig.relations, b.ix, (src, dst));
    } else if Targets(o, dst) {
      var a :| a in o && a.1 == dst;
      var k2 := SourceKey(b, f, a);
      SameTarget(b, f, g, k, k2);
    }
  }

  /** Every bit is the bit of a renamed application. */
  lemma BitSource(b: Bounds, f: Family, g: Family, i: nat) returns (k: Key)
    requires Proper(b) && i < Width(b)
    requires IsFamily(f, b.sorts, b.universe) && IsFamily(g, b.sorts, b.universe) && Inverses(f, g)
    ensures k in b.ix.table && IndexOf(b.ix, RenamedKey(f, b.sig.relations, k)) == Some(i)
  {
    hide Exact, IsFamily, Inverses, RenamedKey, NumVars;
    IndicesOnto(b.ix, b.sig.relations, b.universe, i);
    var name, p: nat, es :| b.ix.Get(name, p, es) == Some(i);
    var k' := (name, es);
    InversesSymmetric(f, g);
    RenamedInTable(b, g, f, k');
    k := RenamedKey(g, b.sig.relations, k');
  }

  /** A family determines the permuted state. */
  lemma PermutedUnique(b: Bounds, f: Family, g: Family, x: State, y: State, z: State)
    requires Proper(b) && Permuted(b, f, x, y) && Permuted(b, f, x, z)
    requires IsFamily(f, b.sorts, b.universe) && IsFamily(g, b.sorts, b.universe) && Inverses(f, g)
    ensures y == z
  {
    hide Exact, IsFamily, Inverses, RenamedKey, NumVars, IndexOf;
    forall i | 0 <= i < |y| ensures y[i] == z[i] {
      var k := BitSource(b, f, g, i);
      assert SameBit(b.ix, k, RenamedKey(f, b.sig.relations, k), x, y);
      assert SameBit(b.ix, k, RenamedKey(f, b.sig.relations, k), x, z);
    }
  }

  lemma PermutedIdentity(b: Bounds, x: State)
    requires Proper(b) && |x| == Width(b)
    ensures Permuted(b, IdentityFamily(b.sorts, b.universe), x, x)
  {
    hide Exact, IsFamily, NumVars, RenamedKey, IndexOf;
    var f := IdentityFamily(b.sorts, b.universe);
    forall k | k in b.ix.table ensures SameBit(b.ix, k, RenamedKey(f, b.sig.relations, k), x, x) {
      IdentityKey(b, k);
      TableKeys(b, k);
    }
  }

  lemma IdentityKey(b: Bounds, k: Key)
    ensures RenamedKey(IdentityFamily(b.sorts, b.universe), b.sig.relations, k) == k
  {
    hide IsFamily;
    var f := IdentityFamily(b.sorts, b.universe);
    assert k == (k.0, k.1);
    var found := FindDecl(b.sig.relations, k.0);
    if found.Some? && |found.value.args| == |k.1| {
      assert RenameTuple((s: Sort, x: Element) => Rename(f, s, x), found.value.args, k.1) == k.1;
    }
  }

  lemma PermutedInverse(b: Bounds, f: Family, g: Family, x: State, y: State)
    requires Proper(b) && Permuted(b, f, x, y)
    requires IsFamily(f, b.sorts, b.universe) && IsFamily(g, b.sorts, b.universe) && Inverses(f, g)
    ensures Permuted(b, g, y, x)
  {
    hide Exact, IsFamily, Inverses, RenamedKey, NumVars, IndexOf;
    forall k' | k' in b.ix.table ensures SameBit(b.ix, k', RenamedKey(g, b.sig.relations, k'), y, x) {
      InversesSymmetric(f, g);
      RenamedInTable(b, g, f, k');
      var k := RenamedKey(g, b.sig.relations, k');
      assert SameBit(b.ix, k, RenamedKey(f, b.sig.relations, k), x, y);
    }
  }

  lemma InversesSymmetric(f: Family, g: Family)
    requires Inverses(f, g)
    ensures Inverses(g, f)
  {
  }

  lemma PermutedCompose(b: Bounds, f: Family, g: Family, x: State, y: State, z: State)
    requires Proper(b) && Permuted(b, f, x, y) && Permuted(b, g, y, z)
    requires IsFamily(f, b.sorts, b.universe) && IsFamily(g, b.sorts, b.universe)
    ensures Permuted(b, ComposeFamilies(f, g, b.sorts, b.universe), x, z)
  {
    hide Exact, NumVars, IsOrder, IsFamily, RenamedKey, IndexOf;
    var h := ComposeFamilies(f, g, b.sorts, b.universe);
    forall k | k in b.ix.table ensures SameBit(b.ix, k, RenamedKey(h, b.sig.relations, k), x, z) {
      var k1 := RenamedKey(f, b.sig.relations, k);
      RenamedInTable(b, f, InverseFamily(f, b.sorts, b.universe), k);
      ComposedKey(b, f, g, k);
      assert SameBit(b.ix, k, k1, x, y);
      assert SameBit(b.ix, k1, RenamedKey(g, b.sig.relations, k1), y, z);
    }
  }

  lemma ComposedKey(b: Bounds, f: Family, g: Family, k: Key)
    requires Proper(b) && k in b.ix.table
    requires IsFamily(f, b.sorts, b.universe) && IsFamily(g, b.sorts, b.universe)
    ensures RenamedKey(ComposeFamilies(f, g, b.sorts, b.universe), b.sig.relations, k)
      == RenamedKey(g, b.sig.relations, RenamedKey(f, b.sig.relations, k))
  {
    hide Exact, IsOrder, IsFamily;
    assert k == (k.0, k.1);
    IndexedKeys(b.ix, b.sig.relations, b.universe, k.0, k.1);
    var d := FindDecl(b.sig.relations, k.0).value;
    var h := ComposeFamilies(f, g, b.sorts, b.universe);
    var once := RenameTuple((s: Sort, x: Element) => Rename(f, s, x), d.args, k.1);
    forall i | 0 <= i < |k.1| ensures Rename(h, d.args[i], k.1[i]) == Rename(g, d.args[i], once[i]) {
      assert k.1[i] < ArgShape(b.universe, d)[i];
    }
    assert RenameTuple((s: Sort, x: Element) => Rename(h, s, x), d.args, k.1)
      == RenameTuple((s: Sort, x: Element) => Rename(g, s, x), d.args, once);
  }

  // Orbits.

  /** Some permutation of the elements takes one state to the other. */
  ghost predicate Isomorphic(b: Bounds, x: State, y: State) {
    exists f :: IsFamily(f, b.sorts, b.universe) && Permuted(b, f, x, y)
  }

  lemma OrbitMember(b: Bounds, x: State, y: State)
    requires Proper(b) && |x| == Width(b)
    ensures y in Orbit(AllOrderings(b), x) <==> Isomorphic(b, x, y)
  {
    hide Permuted, IsFamily, Proper, OrderingOf, Act, Width;
    var fs := Families(b.sorts, b.universe);
    if y in Orbit(AllOrderings(b), x) {
      var o :| o in AllOrderings(b) && y == Act(o, x);
      var i :| 0 <= i < |fs| && AllOrderings(b)[i] == o;
      MemberPermuted(b, fs[i], x, y);
    }
    if Isomorphic(b, x, y) {
      var f :| IsFamily(f, b.sorts, b.universe) && Permuted(b, f, x, y);
      var i := PermutedMember(b, f, x, y);
      assert AllOrderings(b)[i] in AllOrderings(b);
    }
  }

  lemma MemberPermuted(b: Bounds, f: Family, x: State, y: State)
    requires Proper(b) && |x| == Width(b) && f in Families(b.sorts, b.universe)
    requires y == Act(OrderingOf(f, AllKeys(b), b.sig.relations, b.ix), x)
    ensures IsFamily(f, b.sorts, b.universe) && Permuted(b, f, x, y)
  {
    hide Permuted, IsFamily, OrderingOf, Act, Width;
    FamiliesMembers(b.sorts, b.universe, f);
    ActPermutes(b, f, InverseFamily(f, b.sorts, b.universe), x);
  }

  lemma PermutedMember(b: Bounds, f: Family, x: State, y: State) returns (i: nat)
    requires Proper(b) && |x| == Width(b) && IsFamily(f, b.sorts, b.universe) && Permuted(b, f, x, y)
    ensures i < |Families(b.sorts, b.universe)| && Families(b.sorts, b.universe)[i] == f
    ensures y == Act(OrderingOf(f, AllKeys(b), b.sig.relations, b.ix), x)
  {
    hide Permuted, IsFamily, OrderingOf, Act, Width;
    FamiliesMembers(b.sorts, b.universe, f);
    var fs := Families(b.sorts, b.universe);
    i :| 0 <= i < |fs| && fs[i] == f;
    var g := InverseFamily(f, b.sorts, b.universe);
    ActPermutes(b, f, g, x);
    PermutedUnique(b, f, g, x, y, Act(OrderingOf(f, AllKeys(b), b.sig.relations, b.ix), x));
  }

  lemma IsomorphicSelf(b: Bounds, x: State)
    requires Proper(b) && |x| == Width(b)
    ensures Isomorphic(b, x, x)
  {
    hide Permuted, IsFamily;
    PermutedIdentity(b, x);
  }

  lemma IsomorphicBack(b: Bounds, x: State, y: State)
    requires Proper(b) && Isomorphic(b, x, y)
    ensures Isomorphic(b, y, x)
  {
    hide Permuted, IsFamily;
    var f :| IsFamily(f, b.sorts, b.universe) && Permuted(b, f, x, y);
    PermutedInverse(b, f, InverseFamily(f, b.sorts, b.universe), x, y);
  }

  lemma IsomorphicChain(b: Bounds, x: State, y: State, z: State)
    requires Proper(b) && Isomorphic(b, x, y) && Isomorphic(b, y, z)
    ensures Isomorphic(b, x, z)
  {
    hide Permuted, IsFamily;
    var f :| IsFamily(f, b.sorts, b.universe) && Permuted(b, f, x, y);
    var g :| IsFamily(g, b.sorts, b.universe) && Permuted(b, g, y, z);
    PermutedCompose(b, f, g, x, y, z);
  }

  lemma IsomorphicWidth(b: Bounds, x: State, y: State)
    requires Isomorphic(b, x, y)
    ensures |x| == |y| == Width(b)
  {
  }

  /** The orbits partition every set of states that is closed under isomorphism. */
  lemma OrbitsPartition(b: Bounds, space: Space)
    requires Proper(b) && space.n == Width(b)
    requires forall x, y | space.Has(x) && Isomorphic(b, x, y) :: space.Has(y)
    ensures Partition(AllOrderings(b), space)
  {
    hide Isomorphic, Orbit, Proper, AllOrderings, Width;
    forall x | space.Has(x) ensures x in Orbit(AllOrderings(b), x) {
      OrbitMember(b, x, x);
      IsomorphicSelf(b, x);
    }
    forall x, y | space.Has(x) && y in Orbit(AllOrderings(b), x)
      ensures space.Has(y) && Orbit(AllOrderings(b), y) == Orbit(AllOrderings(b), x)
    {
      OrbitMember(b, x, y);
      IsomorphicBack(b, x, y);
      OrbitWithin(b, x, y);
      OrbitWithin(b, y, x);
    }
  }

  lemma OrbitWithin(b: Bounds, x: State, y: State)
    requires Proper(b) && Isomorphic(b, x, y)
    ensures Orbit(AllOrderings(b), y) <= Orbit(AllOrderings(b), x)
  {
    hide Isomorphic, Orbit, Proper, AllOrderings;
    IsomorphicWidth(b, x, y);
    forall z | z in Orbit(AllOrderings(b), y) ensures z in Orbit(AllOrderings(b), x) {
      OrbitMember(b, y, z);
      IsomorphicChain(b, x, y, z);
      OrbitMember(b, x, z);
    }
  }

  // Isomorphic states satisfy the same formulas.

  lemma InterpAt(b: Bounds, x: State, name: string, es: seq<Element>)
    ensures InterpOf(b.ix, x)(name, es) < 2
  {
  }

  lemma PairTraceFits(b: Bounds, x: State, x': State)
    requires Proper(b)
    ensures TraceFits(ScopeOf(b.sig.relations), PairTrace(b.ix, b.universe, x, x'))
  {
    hide InterpOf, Exact;
    forall s: State, name, es ensures InterpOf(b.ix, s)(name, es) < 2 { InterpAt(b, s, name, es); }
    forall name | name in ScopeOf(b.sig.relations)
      ensures var e := ScopeOf(b.sig.relations)[name]; (if e.Relation? then e.ret else e.sort) == Bool
    {
      assert FindDecl(b.sig.relations, name).value in b.sig.relations;
    }
  }

  /** The value of a symbol at a renamed tuple of the permuted state. */
  lemma PermutedSymbol(b: Bounds, f: Family, x: State, y: State, name: string, es: seq<Element>)
    requires Proper(b) && Permuted(b, f, x, y) && FindDecl(b.sig.relations, name).Some?
    requires TupleOf(es, FindDecl(b.sig.relations, name).value.args, b.universe)
    ensures InterpOf(b.ix, y)(name, RenameTuple((s: Sort, e: Element) => Rename(f, s, e),
                                                FindDecl(b.sig.relations, name).value.args, es))
      == InterpOf(b.ix, x)(name, es)
  {
    hide Exact, NumVars;
    var d := FindDecl(b.sig.relations, name).value;
    IndexedKeys(b.ix, b.sig.relations, b.universe, name, es);
    assert InShape(es, ArgShape(b.universe, d));
    assert (name, es) in b.ix.table;
  }

  lemma PermutedIndividual(b: Bounds, f: Family, g: Family, x: State, y: State, name: string)
    requires Proper(b) && Permuted(b, f, x, y)
    requires name in ScopeOf(b.sig.relations) && ScopeOf(b.sig.relations)[name].Individual?
    ensures InterpOf(b.ix, y)(name, [])
      == RenamingOf(f, g).to(ScopeOf(b.sig.relations)[name].sort, InterpOf(b.ix, x)(name, []))
  {
    hide Exact, InterpOf, Permuted;
    var d := FindDecl(b.sig.relations, name).value;
    PermutedSymbol(b, f, x, y, name, []);
    assert RenameTuple((s: Sort, e: Element) => Rename(f, s, e), d.args, []) == [];
  }

  lemma PermutedRelation(b: Bounds, f: Family, g: Family, x: State, y: State, name: string, es: seq<Element>)
    requires Proper(b) && Permuted(b, f, x, y)
    requires name in ScopeOf(b.sig.relations) && ScopeOf(b.sig.relations)[name].Relation?
    requires TupleOf(es, ScopeOf(b.sig.relations)[name].args, b.universe)
    ensures InterpOf(b.ix, y)(name, RenameTuple(RenamingOf(f, g).to, ScopeOf(b.sig.relations)[name].args, es))
      == RenamingOf(f, g).to(ScopeOf(b.sig.relations)[name].ret, InterpOf(b.ix, x)(name, es))
  {
    hide Exact, InterpOf, Permuted;
    PermutedSymbol(b, f, x, y, name, es);
    var d := FindDecl(b.sig.relations, name).value;
    assert RenameTuple(RenamingOf(f, g).to, d.args, es) == RenameTuple((s: Sort, e: Element) => Rename(f, s, e), d.args, es);
  }

  lemma PermutedTraces(b: Bounds, f: Family, g: Family, x: State, x': State, y: State, y': State)
    requires Proper(b) && Permuted(b, f, x, y) && Permuted(b, f, x', y')
    requires IsFamily(f, b.sorts, b.universe) && IsFamily(g, b.sorts, b.universe) && Inverses(f, g)
    ensures IsomorphicTraces(ScopeOf(b.sig.relations), PairTrace(b.ix, b.universe, x, x'),
                             PairTrace(b.ix, b.universe, y, y'), RenamingOf(f, g))
  {
    hide Proper, InterpOf, Permuted, IsFamily, Inverses, IsRenaming, ScopeOf, RenamingOf;
    FamilyRenames(f, g, b.sorts, b.universe);
    var scope, pi := ScopeOf(b.sig.relations), RenamingOf(f, g);
    var tr, tr' := PairTrace(b.ix, b.universe, x, x'), PairTrace(b.ix, b.universe, y, y');
    forall k: nat, name | name in scope && scope[name].Individual?
      ensures tr'.at(k)(name, []) == pi.to(scope[name].sort, tr.at(k)(name, []))
    {
      PermutedIndividual(b, f, g, if k == 0 then x else x', if k == 0 then y else y', name);
    }
    forall k: nat, name, es | name in scope && scope[name].Relation? && TupleOf(es, scope[name].args, b.universe)
      ensures tr'.at(k)(name, RenameTuple(pi.to, scope[name].args, es)) == pi.to(scope[name].ret, tr.at(k)(name, es))
    {
      PermutedRelation(b, f, g, if k == 0 then x else x', if k == 0 then y else y', name, es);
    }
  }

  /** A closed two-state formula does not tell permuted pairs of states apart. */
  lemma PermutedTruth(b: Bounds, t: Term, f: Family, x: State, x': State, y: State, y': State)
    requires Proper(b) && SortOf(t, ScopeOf(b.sig.relations)) == Some(Bool)
    requires IsFamily(f, b.sorts, b.universe) && Permuted(b, f, x, y) && Permuted(b, f, x', y')
    ensures Eval(t, PairTrace(b.ix, b.universe, x, x'), 0, map[]) == Eval(t, PairTrace(b.ix, b.universe, y, y'), 0, map[])
  {
    hide *;
    PairTraceFits(b, x, x');
    var g := InverseFamily(f, b.sorts, b.universe);
    PermutedTraces(b, f, g, x, x', y, y');
    ClosedTermInvariant(t, ScopeOf(b.sig.relations), PairTrace(b.ix, b.universe, x, x'),
                        PairTrace(b.ix, b.universe, y, y'), RenamingOf(f, g), 0);
  }

  /** Permuting two states that agree on the immutable symbols keeps them in agreement. */
  lemma PermutedAgree(b: Bounds, f: Family, g: Family, x: State, x': State, y: State, y': State)
    requires Proper(b) && Agreeing(b.ix.numMutables, x, x')
    requires IsFamily(f, b.sorts, b.universe) && IsFamily(g, b.sorts, b.universe) && Inverses(f, g)
    requires Permuted(b, f, x, y) && Permuted(b, f, x', y')
    ensures Agreeing(b.ix.numMutables, y, y')
  {
    hide Exact, IsFamily, Inverses, RenamedKey, NumVars, IndexMap.Get;
    forall i | b.ix.numMutables <= i < |y| ensures y[i] == y'[i] {
      var k := BitSource(b, f, g, i);
      var k' := RenamedKey(f, b.sig.relations, k);
      RenamedInTable(b, f, g, k);
      assert SameBit(b.ix, k, k', x, y) && SameBit(b.ix, k, k', x', y');
      IndexBelow(b.ix, b.sig.relations, b.universe, k', 0);
      IndexBelow(b.ix, b.sig.relations, b.universe, k, 0);
    }
  }
}
