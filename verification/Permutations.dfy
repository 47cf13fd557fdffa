/** Permutations of the elements of each sort of a bounded universe, as listed when the
    symmetry-reduced state set is built. */
module Permutations {
  import opened Collections
  import opened Syntax
  import opened Semantics
  import opened Isomorphism

  /** An order lists every number below `n` once. */
  predicate IsOrder(p: seq<nat>, n: nat) {
    |p| == n && NoDuplicates(p) && forall i | 0 <= i < n :: p[i] < n
  }

  function Orders(n: nat): seq<seq<nat>> {
    Filter((p: seq<nat>) => NoDuplicates(p), Product(seq<nat>(n, i => n)))
  }

  lemma OrdersMembers(n: nat, p: seq<nat>)
    ensures p in Orders(n) <==> IsOrder(p, n)
  {
    ProductMembers(seq<nat>(n, i => n), p);
  }

  ghost function NumbersBelow(n: nat): (r: set<nat>)
    ensures |r| == n && forall i: nat :: i in r <==> i < n
  {
    if n == 0 then {} else NumbersBelow(n - 1) + {n - 1}
  }

  ghost function Entries(p: seq<nat>): set<nat> {
    set x | x in p
  }

  lemma {:induction false} DistinctCount(p: seq<nat>)
    requires NoDuplicates(p)
    ensures |Entries(p)| == |p|
    decreases |p|
  {
    if p != [] {
      var front, last := p[..|p| - 1], p[|p| - 1];
      DistinctCount(front);
      assert p == front + [last];
      assert Entries(p) == Entries(front) + {last};
      assert last !in Entries(front);
    } else {
      assert Entries(p) == {};
    }
  }

  /** An order lists every number below its length. */
  lemma OrderOnto(p: seq<nat>, y: nat)
    requires IsOrder(p, |p|) && y < |p|
    ensures y in p
  {
    DistinctCount(p);
    SameSizeSubset(Entries(p), NumbersBelow(|p|));
    assert y in Entries(p);
  }

  function Position(p: seq<nat>, y: nat): (i: nat)
    requires y in p
    ensures i < |p| && p[i] == y
  {
    if p[0] == y then 0 else 1 + Position(p[1..], y)
  }

  ghost function InverseOrder(p: seq<nat>): (r: seq<nat>)
    requires IsOrder(p, |p|)
    ensures IsOrder(r, |p|)
    ensures forall i | 0 <= i < |p| :: p[r[i]] == i && r[p[i]] == i
  {
    assert forall y: nat | y < |p| :: y in p by {
      forall y: nat | y < |p| ensures y in p { OrderOnto(p, y); }
    }
    var r := seq<nat>(|p|, y requires 0 <= y < |p| => Position(p, y));
    assert forall y | 0 <= y < |p| :: r[y] < |p| && p[r[y]] == y;
    r
  }

  function ComposeOrders(first: seq<nat>, second: seq<nat>): (r: seq<nat>)
    requires IsOrder(first, |first|) && IsOrder(second, |first|)
    ensures IsOrder(r, |first|)
    ensures forall i | 0 <= i < |first| :: r[i] == second[first[i]]
  {
    seq<nat>(|first|, i requires 0 <= i < |first| => second[first[i]])
  }

  function IdentityOrder(n: nat): (r: seq<nat>)
    ensures IsOrder(r, n) && forall i | 0 <= i < n :: r[i] == i
  {
    seq<nat>(n, i requires 0 <= i < n => i)
  }

  // One permutation for each sort.

  type Family = map<string, seq<nat>>

  ghost predicate IsFamily(f: Family, sorts: seq<string>, universe: Universe) {
    && (forall s :: s in f <==> s in sorts)
    && forall s | s in f :: IsOrder(f[s], universe(Uninterpreted(s)))
  }

  function Extended(sort: string, order: seq<nat>, rests: seq<Family>): (r: seq<Family>)
    ensures |r| == |rests| && forall i | 0 <= i < |rests| :: r[i] == rests[i][sort := order]
  {
    seq(|rests|, i requires 0 <= i < |rests| => rests[i][sort := order])
  }

  function ExtendedAll(sort: string, orders: seq<seq<nat>>, rests: seq<Family>): seq<Family> {
    if orders == [] then [] else Extended(sort, orders[0], rests) + ExtendedAll(sort, orders[1..], rests)
  }

  /** Every way to permute the elements of every sort. */
  function Families(sorts: seq<string>, universe: Universe): seq<Family> {
    if sorts == [] then [map[]]
    else ExtendedAll(sorts[0], Orders(universe(Uninterpreted(sorts[0]))), Families(sorts[1..], universe))
  }

  ghost predicate ExtendedBy(f: Family, sort: string, orders: seq<seq<nat>>, rests: seq<Family>) {
    exists order :: order in orders && f in Extended(sort, order, rests)
  }

  lemma ExtendedOne(sort: string, order: seq<nat>, rests: seq<Family>, f: Family)
    ensures f in Extended(sort, order, rests) <==> exists rest :: rest in rests && f == rest[sort := order]
  {
    var all := Extended(sort, order, rests);
    if f in all {
      var i :| 0 <= i < |all| && all[i] == f;
      assert rests[i] in rests;
    }
    if rest :| rest in rests && f == rest[sort := order] {
      var i :| 0 <= i < |rests| && rests[i] == rest;
      assert all[i] == f;
    }
  }

  lemma {:induction false} ExtendedMembers(sort: string, orders: seq<seq<nat>>, rests: seq<Family>, f: Family)
    ensures f in ExtendedAll(sort, orders, rests) <==> ExtendedBy(f, sort, orders, rests)
  {
    if orders != [] {
      assert orders == [orders[0]] + orders[1..];
      ExtendedMembers(sort, orders[1..], rests, f);
    }
  }

  lemma FamilyTail(f: Family, sorts: seq<string>, universe: Universe)
    requires NoDuplicates(sorts) && sorts != [] && IsFamily(f, sorts, universe)
    ensures IsFamily(f - {sorts[0]}, sorts[1..], universe)
    ensures f == (f - {sorts[0]})[sorts[0] := f[sorts[0]]]
  {
    hide IsOrder;
    assert sorts == [sorts[0]] + sorts[1..];
    assert sorts[0] !in sorts[1..];
  }

  lemma FamilyCons(rest: Family, order: seq<nat>, sorts: seq<string>, universe: Universe)
    requires sorts != [] && IsFamily(rest, sorts[1..], universe)
    requires IsOrder(order, universe(Uninterpreted(sorts[0])))
    ensures IsFamily(rest[sorts[0] := order], sorts, universe)
  {
    hide IsOrder;
    assert sorts == [sorts[0]] + sorts[1..];
  }

  lemma {:induction false} FamiliesMembers(sorts: seq<string>, universe: Universe, f: Family)
    requires NoDuplicates(sorts)
    ensures f in Families(sorts, universe) <==> IsFamily(f, sorts, universe)
    decreases |sorts|
  {
    hide Orders, IsOrder;
    if sorts == [] {
      assert IsFamily(f, sorts, universe) ==> f == map[];
    } else {
      hide IsFamily;
      var sort, orders, rests := sorts[0], Orders(universe(Uninterpreted(sorts[0]))), Families(sorts[1..], universe);
      ExtendedMembers(sort, orders, rests, f);
      if ExtendedBy(f, sort, orders, rests) {
        var order :| order in orders && f in Extended(sort, order, rests);
        ExtendedOne(sort, order, rests, f);
        var rest :| rest in rests && f == rest[sort := order];
        FamiliesMembers(sorts[1..], universe, rest);
        OrdersMembers(universe(Uninterpreted(sort)), order);
        FamilyCons(rest, order, sorts, universe);
      }
      if IsFamily(f, sorts, universe) {
        FamilyTail(f, sorts, universe);
        FamilyHead(f, sorts, universe);
        FamiliesMembers(sorts[1..], universe, f - {sort});
        OrdersMembers(universe(Uninterpreted(sort)), f[sort]);
        ExtendedOne(sort, f[sort], rests, f);
      }
    }
  }

  lemma FamilyHead(f: Family, sorts: seq<string>, universe: Universe)
    requires sorts != [] && IsFamily(f, sorts, universe)
    ensures sorts[0] in f && IsOrder(f[sorts[0]], universe(Uninterpreted(sorts[0])))
  {
  }

  // The family as a renaming.

  function Rename(f: Family, s: Sort, x: Element): Element {
    match s
    case Bool => x
    case Uninterpreted(name) => if name in f && x < |f[name]| then f[name][x] else x
  }

  ghost predicate Inverses(f: Family, g: Family) {
    f.Keys == g.Keys && forall s | s in f ::
      |f[s]| == |g[s]| && forall i | 0 <= i < |f[s]| ::
        f[s][i] < |f[s]| && g[s][i] < |f[s]| && g[s][f[s][i]] == i && f[s][g[s][i]] == i
  }

  ghost function InverseFamily(f: Family, sorts: seq<string>, universe: Universe): (g: Family)
    requires IsFamily(f, sorts, universe)
    ensures IsFamily(g, sorts, universe) && Inverses(f, g)
  {
    map s | s in f :: InverseOrder(f[s])
  }

  function RenamingOf(f: Family, g: Family): Renaming {
    Renaming((s: Sort, x: Element) => Rename(f, s, x), (s: Sort, x: Element) => Rename(g, s, x))
  }

  lemma FamilyRenames(f: Family, g: Family, sorts: seq<string>, universe: Universe)
    requires IsFamily(f, sorts, universe) && IsFamily(g, sorts, universe) && Inverses(f, g)
    ensures IsRenaming(RenamingOf(f, g), universe)
  {
    hide NoDuplicates;
  }

  ghost function ComposeFamilies(f: Family, g: Family, sorts: seq<string>, universe: Universe): (h: Family)
    requires IsFamily(f, sorts, universe) && IsFamily(g, sorts, universe)
    ensures IsFamily(h, sorts, universe)
    ensures forall s, x: nat | x < universe(s) :: Rename(h, s, x) == Rename(g, s, Rename(f, s, x))
  {
    map s | s in f :: ComposeOrders(f[s], g[s])
  }

  ghost function IdentityFamily(sorts: seq<string>, universe: Universe): (f: Family)
    ensures IsFamily(f, sorts, universe)
    ensures forall s, x: nat :: Rename(f, s, x) == x
  {
    map s | s in sorts :: IdentityOrder(universe(Uninterpreted(s)))
  }
}
