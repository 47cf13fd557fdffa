/** Enumerating the minimal unsatisfiable and maximal satisfiable subsets of the inputs of a
    monotone function. */
module Marco {
  import opened Collections

  type Inputs = seq<bool>

  predicate Subset(a: Inputs, b: Inputs) {
    |a| == |b| && forall i | 0 <= i < |a| :: a[i] ==> b[i]
  }

  /** A subset of satisfiable inputs is satisfiable. */
  ghost predicate Monotone(func: Inputs -> bool, n: nat) {
    forall a, b | |b| == n && Subset(a, b) && func(b) :: func(a)
  }

  ghost predicate IsMss(func: Inputs -> bool, s: Inputs) {
    func(s) && forall t | Subset(s, t) && t != s :: !func(t)
  }

  ghost predicate IsMus(func: Inputs -> bool, s: Inputs) {
    !func(s) && forall t | Subset(t, s) && t != s :: func(t)
  }

  datatype MssOrMus = Mss(s: Inputs) | Mus(s: Inputs)

  ghost predicate Genuine(func: Inputs -> bool, n: nat, item: MssOrMus) {
    |item.s| == n && match item case Mss(s) => IsMss(func, s) case Mus(s) => IsMus(func, s)
  }

  // Growing and shrinking a seed, one input at a time.

  /** Adding any of the first `k` missing inputs makes the set unsatisfiable. */
  ghost predicate GrownTo(func: Inputs -> bool, s: Inputs, k: nat) {
    func(s) && forall j | 0 <= j < k && j < |s| && !s[j] :: !func(s[j := true])
  }

  ghost predicate ShrunkTo(func: Inputs -> bool, s: Inputs, k: nat) {
    !func(s) && forall j | 0 <= j < k && j < |s| && s[j] :: func(s[j := false])
  }

  lemma GrowStep(func: Inputs -> bool, s: Inputs, i: nat)
    requires Monotone(func, |s|) && i < |s| && !s[i] && GrownTo(func, s, i) && func(s[i := true])
    ensures GrownTo(func, s[i := true], i + 1)
  {
    var t := s[i := true];
    forall j | 0 <= j < i + 1 && !t[j] ensures !func(t[j := true]) {
      assert Subset(s[j := true], t[j := true]);
    }
  }

  lemma ShrinkStep(func: Inputs -> bool, s: Inputs, i: nat)
    requires Monotone(func, |s|) && i < |s| && s[i] && ShrunkTo(func, s, i) && !func(s[i := false])
    ensures ShrunkTo(func, s[i := false], i + 1)
  {
    var t := s[i := false];
    forall j | 0 <= j < i + 1 && t[j] ensures func(t[j := false]) {
      assert Subset(t[j := false], s[j := false]);
    }
  }

  /** One pass over the inputs is enough. */
  lemma GrownIsMss(func: Inputs -> bool, s: Inputs)
    requires Monotone(func, |s|) && GrownTo(func, s, |s|)
    ensures IsMss(func, s)
  {
    forall t | Subset(s, t) && t != s ensures !func(t) {
      var j :| 0 <= j < |s| && s[j] != t[j];
      assert Subset(s[j := true], t);
    }
  }

  lemma ShrunkIsMus(func: Inputs -> bool, s: Inputs)
    requires Monotone(func, |s|) && ShrunkTo(func, s, |s|)
    ensures IsMus(func, s)
  {
    forall t | Subset(t, s) && t != s ensures func(t) {
      var j :| 0 <= j < |s| && s[j] != t[j];
      assert Subset(t, s[j := false]);
    }
  }

  method Grow(seed: array<bool>, func: Inputs -> bool) returns (mss: Inputs)
    requires Monotone(func, seed.Length) && func(seed[..])
    modifies seed
    ensures mss == seed[..] && IsMss(func, mss) && Subset(old(seed[..]), mss)
  {
    var i := 0;
    while i < seed.Length
      invariant i <= seed.Length
      invariant GrownTo(func, seed[..], i) && Subset(old(seed[..]), seed[..])
    {
      if !seed[i] {
        ghost var before := seed[..];
        seed[i] := true;
        assert seed[..] == before[i := true];
        if !func(seed[..]) {
          seed[i] := false;
          assert seed[..] == before;
        } else {
          GrowStep(func, before, i);
        }
      }
      i := i + 1;
    }
    GrownIsMss(func, seed[..]);
    mss := seed[..];
  }

  method Shrink(seed: array<bool>, func: Inputs -> bool) returns (mus: Inputs)
    requires Monotone(func, seed.Length) && !func(seed[..])
    modifies seed
    ensures mus == seed[..] && IsMus(func, mus) && Subset(mus, old(seed[..]))
  {
    var i := 0;
    while i < seed.Length
      invariant i <= seed.Length
      invariant ShrunkTo(func, seed[..], i) && Subset(seed[..], old(seed[..]))
    {
      if seed[i] {
        ghost var before := seed[..];
        seed[i] := false;
        assert seed[..] == before[i := false];
        if func(seed[..]) {
          seed[i] := true;
          assert seed[..] == before;
        } else {
          ShrinkStep(func, before, i);
        }
      }
      i := i + 1;
    }
    ShrunkIsMus(func, seed[..]);
    mus := seed[..];
  }

  // The map of unexplored subsets.

  datatype MarcoLiteral = MarcoLiteral(var_: nat, pos: bool)
  type Clause = seq<MarcoLiteral>

  predicate ClauseHolds(c: Clause, s: Inputs) {
    exists l | l in c :: l.var_ < |s| && s[l.var_] == l.pos
  }

  predicate Unexplored(cnf: seq<Clause>, s: Inputs) {
    forall c | c in cnf :: ClauseHolds(c, s)
  }

  /** The literals of polarity `pos` over the inputs with value `!pos`. */
  function LiteralsOf(s: Inputs, pos: bool, from: nat): (r: Clause)
    requires from <= |s|
    ensures forall l :: l in r <==> from <= l.var_ < |s| && s[l.var_] != pos && l.pos == pos
    decreases |s| - from
  {
    if from == |s| then []
    else (if s[from] != pos then [MarcoLiteral(from, pos)] else []) + LiteralsOf(s, pos, from + 1)
  }

  function BlockDown(mss: Inputs): Clause { LiteralsOf(mss, true, 0) }

  function BlockUp(mus: Inputs): Clause { LiteralsOf(mus, false, 0) }

  function Block(item: MssOrMus): Clause {
    match item case Mss(s) => BlockDown(s) case Mus(s) => BlockUp(s)
  }

  lemma BlockDownMeans(mss: Inputs, s: Inputs)
    requires |s| == |mss|
    ensures ClauseHolds(BlockDown(mss), s) <==> !Subset(s, mss)
  {
    if !Subset(s, mss) {
      var i :| 0 <= i < |s| && s[i] && !mss[i];
      assert MarcoLiteral(i, true) in BlockDown(mss);
    }
  }

  lemma BlockUpMeans(mus: Inputs, s: Inputs)
    requires |s| == |mus|
    ensures ClauseHolds(BlockUp(mus), s) <==> !Subset(mus, s)
  {
    if !Subset(mus, s) {
      var i :| 0 <= i < |s| && mus[i] && !s[i];
      assert MarcoLiteral(i, false) in BlockUp(mus);
    }
  }

  /** A different genuine item is not blocked. */
  lemma NotBlocked(func: Inputs -> bool, n: nat, item: MssOrMus, other: MssOrMus)
    requires Monotone(func, n) && Genuine(func, n, item) && Genuine(func, n, other) && item != other
    ensures ClauseHolds(Block(item), other.s)
  {
    match item
    case Mss(s) =>
      BlockDownMeans(s, other.s);
    case Mus(s) =>
      BlockUpMeans(s, other.s);
  }

  function AllInputs(n: nat): (r: set<Inputs>)
    ensures forall s :: s in r <==> |s| == n
  {
    if n == 0 then
      assert forall s: Inputs :: |s| == 0 <==> s == [];
      {[]}
    else
      var rest := AllInputs(n - 1);
      var r := (set s | s in rest :: [false] + s) + (set s | s in rest :: [true] + s);
      ConsInputs(rest, r, n);
      r
  }

  lemma ConsInputs(rest: set<Inputs>, r: set<Inputs>, n: nat)
    requires n > 0 && forall s :: s in rest <==> |s| == n - 1
    requires r == (set s | s in rest :: [false] + s) + (set s | s in rest :: [true] + s)
    ensures forall s :: s in r <==> |s| == n
  {
    forall s: Inputs | |s| == n ensures s in r {
      assert s[1..] in rest && s == [s[0]] + s[1..];
      if s[0] { assert s in (set t | t in rest :: [true] + t); } else { assert s in (set t | t in rest :: [false] + t); }
    }
  }

  ghost function UnexploredSets(cnf: seq<Clause>, n: nat): set<Inputs> {
    set s | s in AllInputs(n) && Unexplored(cnf, s)
  }

  /** Any unexplored subset, if there is one. */
  method IsSat(cnf: seq<Clause>, n: nat) returns (seed: Option<Inputs>)
    ensures seed.Some? ==> |seed.value| == n && Unexplored(cnf, seed.value)
    ensures seed.None? ==> forall s: Inputs | |s| == n :: !Unexplored(cnf, s)
  {
    var all := AllInputs(n);
    if s :| s in all && Unexplored(cnf, s) { return Some(s); }
    seed := None;
  }

  ghost predicate Blocks(cnf: seq<Clause>, items: seq<MssOrMus>) {
    |cnf| == |items| && forall i | 0 <= i < |items| :: cnf[i] == Block(items[i])
  }

  lemma Exhausted(func: Inputs -> bool, n: nat, cnf: seq<Clause>, items: seq<MssOrMus>)
    requires Monotone(func, n) && Blocks(cnf, items)
    requires forall item | item in items :: Genuine(func, n, item)
    requires forall s: Inputs | |s| == n :: !Unexplored(cnf, s)
    ensures forall item | Genuine(func, n, item) :: item in items
  {
    hide Genuine, ClauseHolds, Block;
    forall item | Genuine(func, n, item) ensures item in items {
      if item !in items {
        forall c | c in cnf ensures ClauseHolds(c, item.s) {
          var i :| 0 <= i < |cnf| && cnf[i] == c;
          assert items[i] in items;
          NotBlocked(func, n, items[i], item);
        }
        GenuineLength(func, n, item);
      }
    }
  }

  lemma GenuineLength(func: Inputs -> bool, n: nat, item: MssOrMus)
    requires Genuine(func, n, item)
    ensures |item.s| == n
  {
  }

  /** An unexplored seed is on the far side of every item found so far. */
  lemma SeedNotBlocked(cnf: seq<Clause>, items: seq<MssOrMus>, item: MssOrMus, seed: Inputs)
    requires Blocks(cnf, items) && Unexplored(cnf, seed) && |item.s| == |seed|
    requires if item.Mss? then Subset(seed, item.s) else Subset(item.s, seed)
    ensures item !in items
    ensures !ClauseHolds(Block(item), seed)
  {
    match item
    case Mss(s) => BlockDownMeans(s, seed);
    case Mus(s) => BlockUpMeans(s, seed);
  }

  lemma FewerUnexplored(cnf: seq<Clause>, c: Clause, n: nat, seed: Inputs)
    requires |seed| == n && Unexplored(cnf, seed) && !ClauseHolds(c, seed)
    ensures UnexploredSets(cnf + [c], n) < UnexploredSets(cnf, n)
  {
    assert forall x | x in cnf :: x in cnf + [c];
    assert c in cnf + [c];
    assert seed in UnexploredSets(cnf, n);
  }

  /** Returns the items lazily, one at a time. */
  class MarcoIterator {
    const func: Inputs -> bool
    const n: nat
    var map_: seq<Clause>
    ghost var found: seq<MssOrMus>

    ghost predicate Valid()
      reads this
    {
      && Monotone(func, n) && Blocks(map_, found) && NoDuplicates(found)
      && forall item | item in found :: Genuine(func, n, item)
    }

    constructor (func: Inputs -> bool, n: nat)
      requires Monotone(func, n)
      ensures Valid() && found == [] && map_ == [] && this.func == func && this.n == n
    {
      this.func := func;
      this.n := n;
      map_ := [];
      found := [];
    }

    /** A genuine item that was not returned before, or `None` when all have been. */
    method Next() returns (r: Option<MssOrMus>)
      requires Valid()
      modifies this
      ensures Valid()
      ensures r.Some? ==> Genuine(func, n, r.value) && r.value !in old(found) && found == old(found) + [r.value]
      ensures r.Some? ==> UnexploredSets(map_, n) < UnexploredSets(old(map_), n)
      ensures r.None? ==> found == old(found) && forall item :: item in found <==> Genuine(func, n, item)
    {
      hide Genuine, ClauseHolds, UnexploredSets, Block, Monotone, NoDuplicates;
      var seed := IsSat(map_, n);
      if seed.None? {
        Exhausted(func, n, map_, found);
        return None;
      }
      var start := seed.value;
      var a := new bool[n](i requires 0 <= i < n => start[i]);
      assert a[..] == start;
      var item;
      if func(a[..]) {
        var mss := Grow(a, func);
        item := Mss(mss);
      } else {
        var mus := Shrink(a, func);
        item := Mus(mus);
      }
      NewItem(func, n, map_, found, item, start);
      map_ := map_ + [Block(item)];
      found := found + [item];
      r := Some(item);
    }
  }

  lemma NewItem(func: Inputs -> bool, n: nat, cnf: seq<Clause>, found: seq<MssOrMus>, item: MssOrMus, seed: Inputs)
    requires Blocks(cnf, found) && NoDuplicates(found) && Unexplored(cnf, seed) && |seed| == n == |item.s|
    requires if item.Mss? then IsMss(func, item.s) && Subset(seed, item.s) else IsMus(func, item.s) && Subset(item.s, seed)
    ensures Genuine(func, n, item) && item !in found && NoDuplicates(found + [item])
    ensures Blocks(cnf + [Block(item)], found + [item])
    ensures UnexploredSets(cnf + [Block(item)], n) < UnexploredSets(cnf, n)
  {
    SeedNotBlocked(cnf, found, item, seed);
    FewerUnexplored(cnf, Block(item), n, seed);
  }

  /** Running the iterator to its end terminates with every MSS and every MUS, each once. */
  method Collect(func: Inputs -> bool, n: nat) returns (items: seq<MssOrMus>)
    requires Monotone(func, n)
    ensures NoDuplicates(items) && forall item :: item in items <==> Genuine(func, n, item)
  {
    hide Genuine, UnexploredSets, Monotone, NoDuplicates;
    var iter_ := new MarcoIterator(func, n);
    items := [];
    var item := iter_.Next();
    while item.Some?
      invariant iter_.Valid() && fresh(iter_) && iter_.func == func && iter_.n == n
      invariant item.Some? ==> iter_.found == items + [item.value]
      invariant item.None? ==> iter_.found == items && forall x :: x in items <==> Genuine(func, n, x)
      decreases item.Some?, UnexploredSets(iter_.map_, n)
    {
      items := items + [item.value];
      item := iter_.Next();
    }
  }
}
