/** The permutations of the variables of a prefix within its blocks form a group, and every injection of some of the
    variables extends to one. */
module BlockPermutations {
  import opened Collections
  import Q = Quantifiers
  import LS = LemmaSets

  ghost predicate InjectiveMap(p: map<string, string>) {
    forall x, y | x in p && y in p && p[x] == p[y] :: x == y
  }

  /** Variables stay in their blocks, and those of the blocks before `i` stay themselves. */
  ghost predicate KeepsBlocks(prefix: Q.Prefix, i: nat, p: map<string, string>) {
    forall k: nat, x | k < |prefix.names| && x in prefix.names[k] && x in p :: p[x] in prefix.names[k] && (k < i ==> p[x] == x)
  }

  ghost predicate BlockPermutation(prefix: Q.Prefix, i: nat, p: map<string, string>) {
    p.Keys == Q.AllVars(prefix) && KeepsBlocks(prefix, i, p) && InjectiveMap(p)
  }

  ghost predicate Composable(p: map<string, string>, q: map<string, string>) {
    forall x | x in p :: p[x] in q
  }

  ghost function Then(p: map<string, string>, q: map<string, string>): map<string, string>
    requires Composable(p, q)
  {
    map x | x in p :: q[p[x]]
  }

  lemma VarOf(prefix: Q.Prefix, x: string) returns (k: nat)
    requires x in Q.AllVars(prefix)
    ensures k < |prefix.names| && x in prefix.names[k]
  {
    k :| 0 <= k < |prefix.names| && x in prefix.names[k];
  }

  lemma BlockVar(prefix: Q.Prefix, k: nat, x: string)
    requires k < |prefix.names| && x in prefix.names[k]
    ensures x in Q.AllVars(prefix)
  {
  }

  lemma OneBlock(prefix: Q.Prefix, x: string, j: nat, k: nat)
    requires Q.Proper(prefix) && j < |prefix.names| && k < |prefix.names| && x in prefix.names[j] && x in prefix.names[k]
    ensures j == k
  {
  }

  lemma ImageVar(prefix: Q.Prefix, i: nat, p: map<string, string>, x: string)
    requires BlockPermutation(prefix, i, p) && x in Q.AllVars(prefix)
    ensures x in p && p[x] in Q.AllVars(prefix)
  {
    hide Q.AllVars, InjectiveMap;
    var k := VarOf(prefix, x);
    BlockVar(prefix, k, p[x]);
  }

  lemma ImageVars(prefix: Q.Prefix, i: nat, p: map<string, string>)
    requires BlockPermutation(prefix, i, p)
    ensures forall x | x in p :: p[x] in Q.AllVars(prefix)
    ensures p.Values <= Q.AllVars(prefix)
  {
    hide Q.AllVars, InjectiveMap, KeepsBlocks;
    forall x | x in p ensures p[x] in Q.AllVars(prefix) { ImageVar(prefix, i, p, x); }
  }

  lemma PermutationParts(prefix: Q.Prefix, i: nat, p: map<string, string>)
    requires BlockPermutation(prefix, i, p)
    ensures p.Keys == Q.AllVars(prefix) && KeepsBlocks(prefix, i, p) && InjectiveMap(p)
  {
  }

  lemma ThenKeeps(prefix: Q.Prefix, i: nat, p: map<string, string>, q: map<string, string>)
    requires KeepsBlocks(prefix, i, p) && KeepsBlocks(prefix, i, q) && Composable(p, q)
    ensures KeepsBlocks(prefix, i, Then(p, q))
  {
  }

  lemma ThenInjective(p: map<string, string>, q: map<string, string>)
    requires InjectiveMap(p) && InjectiveMap(q) && Composable(p, q)
    ensures InjectiveMap(Then(p, q)) && Then(p, q).Keys == p.Keys
  {
  }

  lemma ThenPermutes(prefix: Q.Prefix, i: nat, p: map<string, string>, q: map<string, string>)
    requires BlockPermutation(prefix, i, p) && BlockPermutation(prefix, i, q)
    ensures Composable(p, q) && BlockPermutation(prefix, i, Then(p, q))
  {
    ImageVars(prefix, i, p);
    PermutationParts(prefix, i, p);
    PermutationParts(prefix, i, q);
    assert Composable(p, q);
    hide Q.AllVars, KeepsBlocks, InjectiveMap, Then, Composable;
    ThenKeeps(prefix, i, p, q);
    ThenInjective(p, q);
  }

  lemma ThenTargets(p: map<string, string>, q: map<string, string>)
    requires Composable(p, q) && p.Keys == q.Keys
    ensures forall x :: LS.Target(q, LS.Target(p, x)) == LS.Target(Then(p, q), x)
  {
  }

  lemma PermutationSpan(prefix: Q.Prefix, i: nat, p: map<string, string>)
    requires BlockPermutation(prefix, i, p)
    ensures p.Keys == Q.AllVars(prefix) && p.Values <= Q.AllVars(prefix)
  {
    ImageVars(prefix, i, p);
    hide Q.AllVars, KeepsBlocks, InjectiveMap;
  }

  lemma LaterPermutes(prefix: Q.Prefix, i: nat, j: nat, p: map<string, string>)
    requires i <= j && BlockPermutation(prefix, j, p)
    ensures BlockPermutation(prefix, i, p)
  {
  }

  // Inverses.

  lemma {:induction false} InjectiveSize(p: map<string, string>)
    requires InjectiveMap(p)
    ensures |p.Values| == |p.Keys|
    decreases |p|
  {
    if x :| x in p {
      var q := p - {x};
      assert q.Keys == p.Keys - {x};
      assert forall y | y in q :: y in p && q[y] == p[y];
      InjectiveSize(q);
      assert p.Values == q.Values + {p[x]} by {
        forall v | v in p.Values ensures v in q.Values + {p[x]} {
          var y :| y in p && p[y] == v;
          if y != x { assert q[y] == v; }
        }
      }
      assert p[x] !in q.Values;
    } else {
      assert p.Keys == {} && p.Values == {};
    }
  }

  ghost function Back(p: map<string, string>): (q: map<string, string>)
    requires InjectiveMap(p)
    ensures q.Keys == p.Values
    ensures forall y | y in q :: q[y] in p && p[q[y]] == y
  {
    map y | y in p.Values :: (var x :| x in p && p[x] == y; x)
  }

  lemma BackPermutes(prefix: Q.Prefix, i: nat, p: map<string, string>)
    requires Q.Proper(prefix) && BlockPermutation(prefix, i, p)
    ensures BlockPermutation(prefix, i, Back(p))
    ensures forall x | x in p :: p[x] in Back(p) && Back(p)[p[x]] == x
  {
    ImageVars(prefix, i, p);
    PermutationParts(prefix, i, p);
    hide Q.AllVars, Q.Proper, KeepsBlocks, BlockPermutation;
    InjectiveSize(p);
    SameSizeSubset(p.Values, Q.AllVars(prefix));
    BackKeeps(prefix, i, p);
    BackInjective(p);
    FoldPermutation(prefix, i, Back(p));
  }

  lemma ThenBack(prefix: Q.Prefix, i: nat, p: map<string, string>)
    requires Q.Proper(prefix) && BlockPermutation(prefix, i, p)
    ensures InjectiveMap(p) && BlockPermutation(prefix, i, Back(p)) && Composable(p, Back(p)) && BlockPermutation(prefix, i, Then(p, Back(p)))
    ensures forall x | x in Then(p, Back(p)) :: Then(p, Back(p))[x] == x
  {
    PermutationParts(prefix, i, p);
    BackPermutes(prefix, i, p);
    ThenPermutes(prefix, i, p, Back(p));
    hide BlockPermutation, Q.Proper, KeepsBlocks, Q.AllVars;
  }

  lemma FoldPermutation(prefix: Q.Prefix, i: nat, p: map<string, string>)
    requires p.Keys == Q.AllVars(prefix) && KeepsBlocks(prefix, i, p) && InjectiveMap(p)
    ensures BlockPermutation(prefix, i, p)
  {
  }

  lemma BackInjective(p: map<string, string>)
    requires InjectiveMap(p)
    ensures InjectiveMap(Back(p)) && forall x | x in p :: p[x] in Back(p) && Back(p)[p[x]] == x
  {
    forall x | x in p ensures p[x] in Back(p) && Back(p)[p[x]] == x { assert p[x] in p.Values; }
  }

  lemma BackKeeps(prefix: Q.Prefix, i: nat, p: map<string, string>)
    requires Q.Proper(prefix) && p.Keys == Q.AllVars(prefix) && KeepsBlocks(prefix, i, p) && InjectiveMap(p)
    ensures KeepsBlocks(prefix, i, Back(p))
  {
    hide Q.AllVars, Q.Proper, InjectiveMap;
    var q := Back(p);
    forall k: nat, y | k < |prefix.names| && y in prefix.names[k] && y in q ensures q[y] in prefix.names[k] && (k < i ==> q[y] == y) {
      var j := VarOf(prefix, q[y]);
      assert p[q[y]] in prefix.names[j];
      OneBlock(prefix, y, j, k);
    }
  }

  // Extending an injection.

  /** Some of the variables, to variables of their blocks. */
  ghost predicate PartOfPermutation(prefix: Q.Prefix, i: nat, s: map<string, string>) {
    s.Keys <= Q.AllVars(prefix) && KeepsBlocks(prefix, i, s) && InjectiveMap(s)
      && forall k: nat, x | k < i && k < |prefix.names| && x in prefix.names[k] :: x in s
  }

  lemma {:induction false} Extend(prefix: Q.Prefix, i: nat, s: map<string, string>) returns (p: map<string, string>)
    requires Q.Proper(prefix) && PartOfPermutation(prefix, i, s)
    ensures BlockPermutation(prefix, i, p) && forall x | x in s :: x in p && p[x] == s[x]
    decreases Q.AllVars(prefix) - s.Keys
  {
    hide *;
    var vars := Q.AllVars(prefix);
    if vars <= s.Keys {
      p := s;
      WholePermutation(prefix, i, s);
    } else {
      var x :| x in vars && x !in s.Keys;
      var k := VarOf(prefix, x);
      var y := FreeTarget(prefix, i, s, k, x);
      ExtendOne(prefix, i, s, k, x, y);
      var t := s[x := y];
      assert t.Keys == s.Keys + {x};
      FewerLeft(vars, s.Keys, x);
      p := Extend(prefix, i, t);
      forall z | z in s ensures z in p && p[z] == s[z] { assert z in t && t[z] == s[z]; }
    }
  }

  lemma WholePermutation(prefix: Q.Prefix, i: nat, s: map<string, string>)
    requires PartOfPermutation(prefix, i, s) && Q.AllVars(prefix) <= s.Keys
    ensures BlockPermutation(prefix, i, s)
  {
    hide Q.AllVars, KeepsBlocks, InjectiveMap;
  }

  lemma FewerLeft(vars: set<string>, keys: set<string>, x: string)
    requires x in vars && x !in keys
    ensures vars - (keys + {x}) < vars - keys
  {
    assert x in vars - keys && x !in vars - (keys + {x});
  }

  /** In a block with a variable left some variable is not a target yet. */
  lemma FreeTarget(prefix: Q.Prefix, i: nat, s: map<string, string>, k: nat, x: string) returns (y: string)
    requires Q.Proper(prefix) && PartOfPermutation(prefix, i, s) && k < |prefix.names| && x in prefix.names[k] && x !in s
    ensures y in prefix.names[k] && y !in s.Values
  {
    var block := Q.Members(prefix.names[k]);
    var part := map z | z in s && z in block :: s[z];
    InBlockTargets(prefix, i, s, k);
    hide Q.Proper, Q.AllVars, KeepsBlocks;
    assert part.Keys <= block - {x};
    InjectiveSize(part);
    FewerThan(part.Keys, block, x);
    if block <= part.Values { SubsetSize(block, part.Values); }
    y :| y in block && y !in part.Values;
  }

  /** The targets in a block are those of its own variables. */
  lemma InBlockTargets(prefix: Q.Prefix, i: nat, s: map<string, string>, k: nat)
    requires Q.Proper(prefix) && s.Keys <= Q.AllVars(prefix) && KeepsBlocks(prefix, i, s) && k < |prefix.names|
    ensures var part := map z | z in s && z in Q.Members(prefix.names[k]) :: s[z];
            forall v | v in s.Values && v in prefix.names[k] :: v in part.Values
  {
    var part := map z | z in s && z in Q.Members(prefix.names[k]) :: s[z];
    hide Q.Proper, Q.AllVars;
    forall v | v in s.Values && v in prefix.names[k] ensures v in part.Values {
      var z :| z in s && s[z] == v;
      var j := VarOf(prefix, z);
      OneBlock(prefix, v, j, k);
      assert z in part && part[z] == v;
    }
  }

  lemma FewerThan(a: set<string>, b: set<string>, x: string)
    requires a <= b - {x} && x in b
    ensures |a| < |b|
  {
    SubsetSize(a, b - {x});
  }

  lemma ExtendOne(prefix: Q.Prefix, i: nat, s: map<string, string>, k: nat, x: string, y: string)
    requires Q.Proper(prefix) && PartOfPermutation(prefix, i, s) && k < |prefix.names| && x in prefix.names[k] && x !in s
    requires y in prefix.names[k] && y !in s.Values
    ensures PartOfPermutation(prefix, i, s[x := y])
  {
    BlockVar(prefix, k, x);
    hide Q.AllVars, Q.Proper;
    var t := s[x := y];
    forall j: nat, z | j < |prefix.names| && z in prefix.names[j] && z in t ensures t[z] in prefix.names[j] && (j < i ==> t[z] == z) {
      if z == x { OneBlock(prefix, x, j, k); }
    }
    forall z | z in s ensures s[z] != y {}
  }

  // The permutations that are tried.

  /** An injection of some variables of the blocks from one on, as part of a permutation. */
  lemma InjectionExtends(prefix: Q.Prefix, i: nat, ids: set<string>, s: map<string, string>) returns (p: map<string, string>)
    requires Q.Proper(prefix) && i <= |prefix.names| && ids <= Q.AllVars(prefix) && Q.BlockInjection(prefix.names[i..], ids, s)
    ensures BlockPermutation(prefix, i, p) && forall x | x in ids :: x in p && LS.Target(s, x) == p[x]
  {
    var early := Q.VarsBefore(prefix, i);
    var whole := map x | x in early + s.Keys :: LS.Target(s, x);
    InjectionPart(prefix, i, ids, s);
    p := Extend(prefix, i, whole);
    hide Q.Proper;
    forall x | x in ids ensures x in p && LS.Target(s, x) == p[x] {
      if x in whole {
        assert p[x] == whole[x];
      } else {
        InjectionKeys(prefix, i, ids, s, x);
      }
    }
  }

  lemma InjectionKeys(prefix: Q.Prefix, i: nat, ids: set<string>, s: map<string, string>, x: string)
    requires i <= |prefix.names| && ids <= Q.AllVars(prefix) && Q.BlockInjection(prefix.names[i..], ids, s) && x in ids
    ensures x in s || x in Q.VarsBefore(prefix, i)
  {
    var k := VarOf(prefix, x);
    if k >= i {
      assert prefix.names[i..][k - i] == prefix.names[k];
      assert Q.InSomeBlock(prefix.names[i..], x);
    }
  }

  lemma LaterBlock(prefix: Q.Prefix, i: nat, ids: set<string>, s: map<string, string>, x: string) returns (k: nat)
    requires i <= |prefix.names| && Q.BlockInjection(prefix.names[i..], ids, s) && x in s
    ensures i <= k < |prefix.names| && x in prefix.names[k] && s[x] in prefix.names[k]
  {
    var later := prefix.names[i..];
    assert Q.InSomeBlock(later, x);
    var j :| 0 <= j < |later| && x in later[j];
    k := i + j;
    assert later[j] == prefix.names[k];
  }

  lemma InjectionPart(prefix: Q.Prefix, i: nat, ids: set<string>, s: map<string, string>)
    requires Q.Proper(prefix) && i <= |prefix.names| && ids <= Q.AllVars(prefix) && Q.BlockInjection(prefix.names[i..], ids, s)
    ensures PartOfPermutation(prefix, i, map x | x in Q.VarsBefore(prefix, i) + s.Keys :: LS.Target(s, x))
  {
    var early := Q.VarsBefore(prefix, i);
    var whole := map x | x in early + s.Keys :: LS.Target(s, x);
    assert forall k: nat, x | k < i && k < |prefix.names| && x in prefix.names[k] :: x in early;
    WholeVars(prefix, i, ids, s);
    WholeKeeps(prefix, i, ids, s);
    hide Q.Proper, Q.AllVars, Q.VarsBefore, Q.BlockInjection, KeepsBlocks;
    forall x, y | x in whole && y in whole && whole[x] == whole[y] ensures x == y { InjectionInjective(prefix, i, ids, s, x, y); }
  }

  lemma WholeVars(prefix: Q.Prefix, i: nat, ids: set<string>, s: map<string, string>)
    requires i <= |prefix.names| && ids <= Q.AllVars(prefix) && Q.BlockInjection(prefix.names[i..], ids, s)
    ensures Q.VarsBefore(prefix, i) + s.Keys <= Q.AllVars(prefix)
  {
    hide Q.AllVars;
    forall x | x in Q.VarsBefore(prefix, i) ensures x in Q.AllVars(prefix) {
      var j :| 0 <= j < i && x in prefix.names[j];
      BlockVar(prefix, j, x);
    }
  }

  /** A variable of an early block is not moved. */
  lemma EarlyStays(prefix: Q.Prefix, i: nat, ids: set<string>, s: map<string, string>, j: nat, x: string)
    requires Q.Proper(prefix) && i <= |prefix.names| && Q.BlockInjection(prefix.names[i..], ids, s) && j < i && x in prefix.names[j]
    ensures x !in s
  {
    hide Q.Proper, Q.BlockInjection;
    if x in s {
      var k := LaterBlock(prefix, i, ids, s, x);
      OneBlock(prefix, x, j, k);
    }
  }

  lemma WholeKeeps(prefix: Q.Prefix, i: nat, ids: set<string>, s: map<string, string>)
    requires Q.Proper(prefix) && i <= |prefix.names| && Q.BlockInjection(prefix.names[i..], ids, s)
    ensures KeepsBlocks(prefix, i, map x | x in Q.VarsBefore(prefix, i) + s.Keys :: LS.Target(s, x))
  {
    var whole := map x | x in Q.VarsBefore(prefix, i) + s.Keys :: LS.Target(s, x);
    hide Q.Proper, Q.BlockInjection, Q.VarsBefore;
    forall k: nat, x | k < |prefix.names| && x in prefix.names[k] && x in whole ensures whole[x] in prefix.names[k] && (k < i ==> whole[x] == x) {
      if k < i { EarlyStays(prefix, i, ids, s, k, x); }
      if x in s {
        var j := LaterBlock(prefix, i, ids, s, x);
        OneBlock(prefix, x, j, k);
      }
    }
  }

  lemma InjectionInjective(prefix: Q.Prefix, i: nat, ids: set<string>, s: map<string, string>, x: string, y: string)
    requires Q.Proper(prefix) && i <= |prefix.names| && Q.BlockInjection(prefix.names[i..], ids, s)
    requires x in Q.VarsBefore(prefix, i) + s.Keys && y in Q.VarsBefore(prefix, i) + s.Keys && LS.Target(s, x) == LS.Target(s, y)
    ensures x == y
  {
    hide Q.Proper;
    if x in s && y in s {
      var j := LaterBlock(prefix, i, ids, s, x);
      var k := LaterBlock(prefix, i, ids, s, y);
      OneBlock(prefix, s[x], j, k);
      var later := prefix.names[i..];
      assert later[j - i] == prefix.names[j];
      assert x in later[j - i] && y in later[j - i];
    } else if x in s {
      var j := LaterBlock(prefix, i, ids, s, x);
      var k :| 0 <= k < i && y in prefix.names[k];
      OneBlock(prefix, y, j, k);
    } else if y in s {
      var j := LaterBlock(prefix, i, ids, s, y);
      var k :| 0 <= k < i && x in prefix.names[k];
      OneBlock(prefix, x, j, k);
    }
  }

  /** A permutation restricted to some variables of the blocks from one on. */
  function Restricted(names: seq<seq<string>>, ids: set<string>, p: map<string, string>): map<string, string> {
    map x | x in ids && x in p && exists k :: 0 <= k < |names| && x in names[k] :: p[x]
  }

  lemma RestrictedInjection(prefix: Q.Prefix, i: nat, ids: set<string>, p: map<string, string>)
    requires Q.Proper(prefix) && i <= |prefix.names| && ids <= Q.AllVars(prefix) && BlockPermutation(prefix, i, p)
    ensures var s := Restricted(prefix.names[i..], ids, p);
            Q.BlockInjection(prefix.names[i..], ids, s) && forall x | x in ids :: LS.Target(s, x) == p[x]
  {
    var later := prefix.names[i..];
    var s := Restricted(later, ids, p);
    PermutationParts(prefix, i, p);
    RestrictedOn(later, ids, p);
    RestrictedWithin(prefix, i, ids, p);
    RestrictedInjective(later, ids, p);
    hide Q.Proper, Q.AllVars, BlockPermutation, KeepsBlocks, Q.WithinBlocks, Q.OnBlocks, Q.InjectiveOnBlocks, Restricted;
    forall x | x in ids ensures LS.Target(s, x) == p[x] { RestrictedTarget(prefix, i, ids, p, x); }
  }

  lemma RestrictedOn(names: seq<seq<string>>, ids: set<string>, p: map<string, string>)
    requires ids <= p.Keys
    ensures Q.OnBlocks(names, ids, Restricted(names, ids, p))
  {
    forall x ensures x in Restricted(names, ids, p) <==> x in ids && Q.InSomeBlock(names, x) {}
  }

  lemma RestrictedInjective(names: seq<seq<string>>, ids: set<string>, p: map<string, string>)
    requires InjectiveMap(p)
    ensures Q.InjectiveOnBlocks(names, Restricted(names, ids, p))
  {
  }

  lemma RestrictedWithin(prefix: Q.Prefix, i: nat, ids: set<string>, p: map<string, string>)
    requires i <= |prefix.names| && KeepsBlocks(prefix, i, p)
    ensures Q.WithinBlocks(prefix.names[i..], Restricted(prefix.names[i..], ids, p))
  {
    var later := prefix.names[i..];
    var s := Restricted(later, ids, p);
    forall k, x | 0 <= k < |later| && x in later[k] && x in s ensures s[x] in later[k] { assert later[k] == prefix.names[i + k]; }
  }

  lemma RestrictedTarget(prefix: Q.Prefix, i: nat, ids: set<string>, p: map<string, string>, x: string)
    requires i <= |prefix.names| && ids <= Q.AllVars(prefix) && p.Keys == Q.AllVars(prefix) && KeepsBlocks(prefix, i, p) && x in ids
    ensures LS.Target(Restricted(prefix.names[i..], ids, p), x) == p[x]
  {
    hide Q.AllVars;
    var k := VarOf(prefix, x);
    if k >= i { assert prefix.names[i..][k - i] == prefix.names[k]; }
  }
}
