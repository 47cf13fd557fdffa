/** Maps from canonical conjunctions to values that answer which stored keys subsume, or are
    subsumed by, a query. */
module SubsumptionMaps {
  import opened Collections
  import opened Subsumption
  import opened SubsumptionTries

  // Subsets of a key, in the order of the key.

  function Powerset(xs: seq<Elem>): seq<seq<Elem>> {
    if xs == [] then [[]] else Powerset(xs[1..]) + ConsEach(xs[0], Powerset(xs[1..]))
  }

  lemma {:induction false} SubsequenceCons(x: Elem, p: seq<Elem>, xs: seq<Elem>)
    requires Subsequence([x] + p, xs)
    ensures Subsequence(p, xs)
    decreases |xs|
  {
    assert ([x] + p)[1..] == p;
    if x == xs[0] && Subsequence(p, xs[1..]) {
    } else {
      SubsequenceCons(x, p, xs[1..]);
    }
  }

  lemma {:induction false} PowersetMembers(xs: seq<Elem>, p: seq<Elem>)
    ensures p in Powerset(xs) <==> Subsequence(p, xs)
    decreases |xs|
  {
    if xs != [] {
      var rest := Powerset(xs[1..]);
      var with := ConsEach(xs[0], rest);
      PowersetMembers(xs[1..], p);
      if p in with {
        var i :| 0 <= i < |with| && with[i] == p;
        PowersetMembers(xs[1..], rest[i]);
        assert rest[i] in rest && p[1..] == rest[i];
      }
      if p != [] && p[0] == xs[0] && Subsequence(p[1..], xs[1..]) {
        PowersetMembers(xs[1..], p[1..]);
        var i :| 0 <= i < |rest| && rest[i] == p[1..];
        assert p == [p[0]] + p[1..] && with[i] == p;
      }
      assert p == [] ==> Subsequence(p, xs[1..]);
    }
  }

  lemma {:induction false} PowersetDistinct(xs: seq<Elem>)
    requires NoDuplicates(xs)
    ensures NoDuplicates(Powerset(xs))
    decreases |xs|
  {
    if xs != [] {
      var rest := Powerset(xs[1..]);
      var with, all := ConsEach(xs[0], rest), Powerset(xs);
      PowersetDistinct(xs[1..]);
      forall i, j | 0 <= i < j < |all| ensures all[i] != all[j] {
        if i < |rest| && j >= |rest| {
          assert rest[i] in rest;
          PowersetMembers(xs[1..], rest[i]);
          SubsequenceMembers(rest[i], xs[1..]);
          assert xs[0] !in xs[1..];
          assert xs[0] !in all[i];
          assert all[j] == [xs[0]] + rest[j - |rest|];
          assert xs[0] in all[j];
        } else if i >= |rest| {
          assert all[i][1..] == rest[i - |rest|] && all[j][1..] == rest[j - |rest|];
        }
      }
    }
  }

  lemma {:induction false} WholeSubsequence(xs: seq<Elem>)
    ensures Subsequence(xs, xs)
    decreases |xs|
  {
    if xs != [] { WholeSubsequence(xs[1..]); }
  }

  // Keys in reverse, with the order of their elements reversed.

  function Reversed(xs: seq<Elem>): (r: seq<Elem>)
    ensures |r| == |xs| && forall i | 0 <= i < |xs| :: r[i] == Rev(xs[|xs| - 1 - i])
  {
    seq(|xs|, i requires 0 <= i < |xs| => Rev(xs[|xs| - 1 - i]))
  }

  lemma ReversedInjective(xs: seq<Elem>, ys: seq<Elem>)
    requires Reversed(xs) == Reversed(ys)
    ensures xs == ys
  {
    assert |Reversed(xs)| == |xs|;
    forall i | 0 <= i < |xs| ensures xs[i] == ys[i] {
      assert Reversed(xs)[|xs| - 1 - i] == Rev(xs[i]) && Reversed(ys)[|xs| - 1 - i] == Rev(ys[i]);
    }
  }

  lemma ReversedCanonical(xs: seq<Elem>, f: Form)
    requires AllHave(xs, f) && CanonicalList(xs)
    ensures AllHave(Reversed(xs), RevForm(f)) && SortedList(Reversed(xs)) && forall x | x in Reversed(xs) :: Canonical(x)
    ensures forall y :: y in Reversed(xs) <==> y.Rev? && y.inner in xs
  {
    hide Leq, Covers;
    var rs := Reversed(xs);
    forall i, j | 0 <= i < j < |rs| ensures Leq(rs[i], rs[j]) && rs[i] != rs[j] {
      RevLeq(xs[|xs| - 1 - j], xs[|xs| - 1 - i]);
    }
    forall x | x in xs ensures Rev(x) in rs {
      var i :| 0 <= i < |xs| && xs[i] == x;
      assert rs[|xs| - 1 - i] == Rev(x);
    }
    forall y | y in rs ensures Has(y, RevForm(f)) && Canonical(y) && y.inner in xs {
      var i :| 0 <= i < |rs| && rs[i] == y;
      assert y == Rev(xs[|xs| - 1 - i]);
      RevForms(xs[|xs| - 1 - i], f);
    }
  }

  lemma RevForms(x: Elem, f: Form)
    ensures Has(Rev(x), RevForm(f)) == Has(x, f) && Canonical(Rev(x)) == Canonical(x)
  {
  }

  lemma RevLeq(x: Elem, y: Elem)
    ensures Leq(Rev(y), Rev(x)) == Leq(x, y)
    ensures Subsumes(Rev(y), Rev(x)) == Subsumes(x, y)
  {
  }

  // What a search has to find.

  /** The search in the trie of reversed keys finds the keys that the query subsumes. */
  lemma ReversedSearch(stored: seq<Elem>, key: seq<Elem>, f: Form)
    requires AllHave(stored, f) && AllHave(key, f) && CanonicalList(stored) && CanonicalList(key)
    ensures OrPath(Reversed(stored), Reversed(key)) <==> Subsumes(AndOf(key), AndOf(stored))
  {
    hide Leq, Covers, Subsumes, Canonical, Has;
    ReversedCanonical(stored, f);
    ReversedCanonical(key, f);
    OrPathExact(Reversed(stored), Reversed(key), RevForm(f));
    SubsumesList(key, stored, f);
    if forall k | k in Reversed(stored) :: SubsumesSome(k, Reversed(key)) {
      forall y | y in stored ensures SubsumedBySome(key, y) {
        assert Rev(y) in Reversed(stored);
        var o :| o in Reversed(key) && Subsumes(Rev(y), o);
        RevLeq(o.inner, y);
      }
    }
    if forall y | y in stored :: SubsumedBySome(key, y) {
      forall k | k in Reversed(stored) ensures SubsumesSome(k, Reversed(key)) {
        assert SubsumedBySome(key, k.inner);
        var x :| x in key && Subsumes(x, k.inner);
        RevLeq(x, k.inner);
        assert Rev(x) in Reversed(key);
      }
    }
  }

  /** Subsumption of canonical conjunctions, element by element. */
  lemma SubsumesList(xs: seq<Elem>, ys: seq<Elem>, f: Form)
    requires AllHave(xs, f) && AllHave(ys, f) && CanonicalList(xs) && CanonicalList(ys)
    ensures Subsumes(AndOf(xs), AndOf(ys)) <==> forall y | y in ys :: SubsumedBySome(xs, y)
  {
    AndCanonical(xs, f);
    AndCanonical(ys, f);
    CoversAnd(xs, ys);
    hide Leq, Covers, Subsumes, Canonical, Has;
    SubsumesExact(AndOf(xs), AndOf(ys), AndForm(f));
    forall y | y in ys ensures CoversSome(xs, y) <==> SubsumedBySome(xs, y) {
      CoversSomeSubsumed(xs, y, f);
    }
    if CoversAll(xs, ys) {
      forall y | y in ys ensures SubsumedBySome(xs, y) {
        var j :| 0 <= j < |ys| && ys[j] == y;
        assert CoversSome(xs, ys[j]);
      }
    }
    if forall y | y in ys :: SubsumedBySome(xs, y) {
      forall j | 0 <= j < |ys| ensures CoversSome(xs, ys[j]) { assert ys[j] in ys; }
    }
  }

  lemma AndCanonical(xs: seq<Elem>, f: Form)
    requires AllHave(xs, f) && CanonicalList(xs)
    ensures Has(AndOf(xs), AndForm(f)) && Canonical(AndOf(xs))
  {
  }

  lemma CoversSomeSubsumed(xs: seq<Elem>, y: Elem, f: Form)
    requires AllHave(xs, f) && CanonicalList(xs) && Has(y, f) && Canonical(y)
    ensures CoversSome(xs, y) <==> SubsumedBySome(xs, y)
  {
    hide Leq, Covers, Subsumes, Canonical, Has;
    forall x | x in xs ensures Subsumes(x, y) <==> Covers(x, y) { SubsumesExact(x, y, f); }
    if CoversSome(xs, y) {
      var i :| 0 <= i < |xs| && Covers(xs[i], y);
      assert xs[i] in xs;
    }
    if SubsumedBySome(xs, y) {
      var k :| k in xs && Subsumes(k, y);
      var i :| 0 <= i < |xs| && xs[i] == k;
    }
  }

  // The map.

  ghost function IdsWith(keys: map<nat, seq<Elem>>, s: seq<Elem>): set<nat> {
    set id | id in keys && Subsequence(s, keys[id])
  }

  ghost predicate KeysProper(keys: map<nat, seq<Elem>>, next: nat, form: Form) {
    && (forall id | id in keys :: id < next && CanonicalList(keys[id]) && AllHave(keys[id], form))
    && forall i, j | i in keys && j in keys && keys[i] == keys[j] :: i == j
  }

  /** The trie has exactly the reversed keys, with their numbers. */
  ghost predicate TrieExact(keys: map<nat, seq<Elem>>, trie: Trie<nat>) {
    && (forall id | id in keys :: Get(trie, Reversed(keys[id])) == Some(id))
    && (forall s | Get(trie, s).Some? :: Get(trie, s).value in keys && s == Reversed(keys[Get(trie, s).value]))
  }

  /** The other trie has exactly the subsets of the keys, with the numbers of their keys. */
  ghost predicate SubsetsExact(keys: map<nat, seq<Elem>>, subsets: Trie<set<nat>>) {
    forall s :: if IdsWith(keys, s) == {} then Get(subsets, s) == None else Get(subsets, s) == Some(IdsWith(keys, s))
  }

  ghost predicate ContentsExact<V>(keys: map<nat, seq<Elem>>, values: map<nat, V>, contents: map<seq<Elem>, V>) {
    && keys.Keys == values.Keys
    && (forall id | id in keys :: keys[id] in contents && contents[keys[id]] == values[id])
    && (forall k | k in contents :: exists id :: id in keys && keys[id] == k)
  }

  /** While a key is being added or removed, the subsets in `done` are up to date. */
  ghost predicate SubsetsBetween(before: map<nat, seq<Elem>>, after: map<nat, seq<Elem>>, done: seq<seq<Elem>>, subsets: Trie<set<nat>>) {
    forall s ::
      var ids := if s in done then IdsWith(after, s) else IdsWith(before, s);
      if ids == {} then Get(subsets, s) == None else Get(subsets, s) == Some(ids)
  }

  class AndSubsumptionMap<V(==)> {
    var keys: map<nat, seq<Elem>>
    var values: map<nat, V>
    var trie: Trie<nat>
    var subsets: Trie<set<nat>>
    var next: nat
    ghost const form: Form
    ghost var contents: map<seq<Elem>, V>

    ghost predicate Valid()
      reads this
    {
      && KeysProper(keys, next, form) && ContentsExact(keys, values, contents)
      && TrieExact(keys, trie) && Alive(trie)
      && SubsetsExact(keys, subsets) && Alive(subsets)
    }

    constructor (ghost form: Form)
      ensures Valid() && contents == map[] && this.form == form
    {
      keys, values, trie, subsets, next := map[], map[], EmptyTrie(), EmptyTrie(), 0;
      contents := map[];
      this.form := form;
    }

    method Insert(key: seq<Elem>, value: V)
      requires Valid() && CanonicalList(key) && AllHave(key, form) && key !in contents
      modifies this
      ensures Valid() && contents == old(contents)[key := value]
    {
      hide CanonicalList, AllHave, Alive, IdsWith, TrieExact, SubsetsExact, ContentsExact, KeysProper, Powerset;
      var id := next;
      next := next + 1;
      ghost var after := keys[id := key];
      FreshKey(keys, values, contents, key, value, id, form);
      TrieWith(keys, trie, key, id);
      trie := SubsumptionTries.Insert(trie, Reversed(key), id);
      var all, i := Powerset(key), 0;
      ghost var before := keys;
      BetweenStart(before, after, subsets);
      while i < |all|
        invariant i <= |all| && SubsetsBetween(before, after, all[..i], subsets) && Alive(subsets)
        invariant keys == before && values == old(values) && contents == old(contents)
        invariant next == id + 1 && TrieExact(after, trie) && Alive(trie)
      {
        PowersetMembers(key, all[i]);
        assert all[..i + 1] == all[..i] + [all[i]];
        AddSubset(before, after, all[..i], subsets, id, key, all[i]);
        if SubsumptionTries.Get(subsets, all[i]).None? {
          subsets := SubsumptionTries.Insert(subsets, all[i], {id});
        } else {
          subsets := Mutate(subsets, all[i], AddId(id));
        }
        i := i + 1;
      }
      assert all[..i] == all;
      BetweenEndAdded(before, after, subsets, id, key);
      keys := keys[id := key];
      values := values[id := value];
      contents := contents[key := value];
    }

    method Remove(key: seq<Elem>) returns (value: V)
      requires Valid() && key in contents
      modifies this
      ensures Valid() && contents == old(contents) - {key} && value == old(contents)[key]
    {
      hide CanonicalList, AllHave, Alive, IdsWith, TrieExact, SubsetsExact, ContentsExact, KeysProper, Powerset;
      ghost var known := KnownKey(keys, values, contents, trie, key);
      var id := SubsumptionTries.Get(trie, Reversed(key)).value;
      ghost var after := keys - {id};
      GoneKey(keys, values, contents, next, key, id, form);
      TrieWithout(keys, trie, key, id);
      trie := SubsumptionTries.Remove(trie, Reversed(key));
      var all, i := Powerset(key), 0;
      PowersetDistinct(key);
      ghost var before := keys;
      BetweenStart(before, after, subsets);
      while i < |all|
        invariant i <= |all| && SubsetsBetween(before, after, all[..i], subsets) && Alive(subsets)
        invariant keys == before && values == old(values) && contents == old(contents)
        invariant next == old(next) && TrieExact(after, trie) && Alive(trie)
      {
        PowersetMembers(key, all[i]);
        assert all[..i + 1] == all[..i] + [all[i]];
        DropSubset(before, after, all[..i], subsets, id, key, all[i]);
        subsets := Mutate(subsets, all[i], DropId(id));
        i := i + 1;
      }
      assert all[..i] == all;
      BetweenEndGone(before, after, subsets, id, key);
      value := values[id];
      keys := keys - {id};
      values := values - {id};
      contents := contents - {key};
    }

    method Get(key: seq<Elem>) returns (r: Option<V>)
      requires Valid()
      ensures r == if key in contents then Some(contents[key]) else None
    {
      hide CanonicalList, AllHave, Alive, SubsetsExact;
      var found := SubsumptionTries.Get(trie, Reversed(key));
      if key in contents { ghost var known := KnownKey(keys, values, contents, trie, key); }
      match found {
        case Some(id) =>
          ReversedInjective(key, keys[id]);
          r := Some(values[id]);
        case None => r := None;
      }
    }

    /** Exactly the stored keys that subsume the query, with their values. */
    method GetSubsuming(key: seq<Elem>) returns (r: seq<(seq<Elem>, V)>)
      requires Valid() && CanonicalList(key) && AllHave(key, form)
      ensures forall k, v :: (k, v) in r <==> k in contents && v == contents[k] && Subsumes(AndOf(k), AndOf(key))
    {
      hide CanonicalList, AllHave, Alive, IdsWith, TrieExact, SubsetsExact, ContentsExact, KeysProper, Subsumes, SubsumingAnd;
      var paths := SubsumingAnd(subsets, key);
      var ids := IdsAt(subsets, paths);
      FoundIds(keys, subsets, next, key, form, ids);
      SameNumbers(keys, values, contents);
      r := Collect(ids);
      FoundKeys(keys, values, contents, next, key, form, ids, true);
    }

    /** Exactly the stored keys that the query subsumes, with their values. */
    method GetSubsumed(key: seq<Elem>) returns (r: seq<(seq<Elem>, V)>)
      requires Valid() && CanonicalList(key) && AllHave(key, form)
      ensures forall k, v :: (k, v) in r <==> k in contents && v == contents[k] && Subsumes(AndOf(key), AndOf(k))
    {
      hide CanonicalList, AllHave, Alive, IdsWith, TrieExact, SubsetsExact, ContentsExact, KeysProper, Subsumes, SubsumingOr;
      var paths := SubsumingOr(trie, Reversed(key));
      var ids := ValuesAt(trie, paths);
      FoundReversed(keys, trie, next, key, form, ids);
      SameNumbers(keys, values, contents);
      r := Collect(ids);
      FoundKeys(keys, values, contents, next, key, form, ids, false);
    }

    /** The keys and values with some numbers. */
    method Collect(ids: set<nat>) returns (r: seq<(seq<Elem>, V)>)
      requires ids <= keys.Keys && ids <= values.Keys
      ensures forall k, v :: (k, v) in r <==> Listed(ids, keys, values, k, v)
    {
      r := [];
      var todo := ids;
      while todo != {}
        invariant todo <= ids
        invariant forall k, v :: (k, v) in r <==> Listed(ids - todo, keys, values, k, v)
        decreases todo
      {
        var id :| id in todo;
        r := r + [(keys[id], values[id])];
        todo := todo - {id};
      }
    }
  }

  /** All the numbers stored at some paths. */
  function IdsAt(subsets: Trie<set<nat>>, paths: set<seq<Elem>>): set<nat> {
    set p, id | p in paths && Get(subsets, p).Some? && id in Get(subsets, p).value :: id
  }

  function ValuesAt(trie: Trie<nat>, paths: set<seq<Elem>>): set<nat> {
    set p | p in paths && Get(trie, p).Some? :: Get(trie, p).value
  }

  lemma SameNumbers<V>(keys: map<nat, seq<Elem>>, values: map<nat, V>, contents: map<seq<Elem>, V>)
    requires ContentsExact(keys, values, contents)
    ensures keys.Keys == values.Keys
  {
  }

  /** A key and a value with one of the numbers. */
  ghost predicate Listed<V>(ids: set<nat>, keys: map<nat, seq<Elem>>, values: map<nat, V>, k: seq<Elem>, v: V) {
    exists id :: id in ids && id in keys && id in values && keys[id] == k && values[id] == v
  }

  function AddId(id: nat): set<nat> -> Option<set<nat>> {
    (ids: set<nat>) => Some(ids + {id})
  }

  function DropId(id: nat): set<nat> -> Option<set<nat>> {
    (ids: set<nat>) => if ids - {id} == {} then None else Some(ids - {id})
  }

  lemma FreshKey<V>(keys: map<nat, seq<Elem>>, values: map<nat, V>, contents: map<seq<Elem>, V>, key: seq<Elem>, value: V,
                    id: nat, form: Form)
    requires KeysProper(keys, id, form) && ContentsExact(keys, values, contents)
    requires CanonicalList(key) && AllHave(key, form) && key !in contents
    ensures id !in keys && KeysProper(keys[id := key], id + 1, form)
    ensures ContentsExact(keys[id := key], values[id := value], contents[key := value])
    ensures forall other | other in keys :: keys[other] != key
  {
    hide CanonicalList, AllHave;
    var after, added := keys[id := key], contents[key := value];
    forall k | k in added ensures exists i :: i in after && after[i] == k {
      if k == key {
        assert id in after;
      } else {
        var i :| i in keys && keys[i] == k;
        assert i in after && after[i] == k;
      }
    }
  }

  lemma GoneKey<V>(keys: map<nat, seq<Elem>>, values: map<nat, V>, contents: map<seq<Elem>, V>, next: nat, key: seq<Elem>,
                   id: nat, form: Form)
    requires KeysProper(keys, next, form) && ContentsExact(keys, values, contents) && id in keys && keys[id] == key
    ensures KeysProper(keys - {id}, next, form) && ContentsExact(keys - {id}, values - {id}, contents - {key})
    ensures values[id] == contents[key] && NoDuplicates(key)
    ensures forall other | other in keys && other != id :: keys[other] != key
  {
    hide AllHave, Irredundant, Leq;
    var after, left := keys - {id}, contents - {key};
    forall k | k in left ensures exists i :: i in after && after[i] == k {
      var i :| i in keys && keys[i] == k;
      assert i in after && after[i] == k;
    }
  }

  lemma KnownKey<V>(keys: map<nat, seq<Elem>>, values: map<nat, V>, contents: map<seq<Elem>, V>, trie: Trie<nat>, key: seq<Elem>)
    returns (id: nat)
    requires ContentsExact(keys, values, contents) && TrieExact(keys, trie) && key in contents
    ensures id in keys && keys[id] == key && Get(trie, Reversed(key)) == Some(id)
    ensures id in values && values[id] == contents[key]
  {
    id :| id in keys && keys[id] == key;
  }

  lemma TrieWith(keys: map<nat, seq<Elem>>, trie: Trie<nat>, key: seq<Elem>, id: nat)
    requires TrieExact(keys, trie) && Alive(trie) && id !in keys && forall other | other in keys :: keys[other] != key
    ensures TrieExact(keys[id := key], Insert(trie, Reversed(key), id)) && Alive(Insert(trie, Reversed(key), id))
  {
    hide Alive;
    InsertAlive(trie, Reversed(key), id);
    var after, trie' := keys[id := key], Insert(trie, Reversed(key), id);
    forall s ensures Get(trie', s) == if s == Reversed(key) then Some(id) else Get(trie, s) { GetInsert(trie, Reversed(key), id, s); }
    forall other | other in keys ensures Reversed(keys[other]) != Reversed(key) {
      if Reversed(keys[other]) == Reversed(key) { ReversedInjective(keys[other], key); }
    }
  }

  lemma TrieWithout(keys: map<nat, seq<Elem>>, trie: Trie<nat>, key: seq<Elem>, id: nat)
    requires TrieExact(keys, trie) && Alive(trie) && id in keys && keys[id] == key
    requires forall other | other in keys && other != id :: keys[other] != key
    ensures Get(trie, Reversed(key)) == Some(id)
    ensures TrieExact(keys - {id}, Remove(trie, Reversed(key))) && Alive(Remove(trie, Reversed(key)))
  {
    hide Alive;
    RemoveAlive(trie, Reversed(key));
    var after, trie' := keys - {id}, Remove(trie, Reversed(key));
    forall s ensures Get(trie', s) == if s == Reversed(key) then None else Get(trie, s) { GetRemove(trie, Reversed(key), s); }
    forall other | other in after ensures Reversed(keys[other]) != Reversed(key) {
      if Reversed(keys[other]) == Reversed(key) { ReversedInjective(keys[other], key); }
    }
  }

  lemma BetweenStart(before: map<nat, seq<Elem>>, after: map<nat, seq<Elem>>, subsets: Trie<set<nat>>)
    requires SubsetsExact(before, subsets)
    ensures SubsetsBetween(before, after, [], subsets)
  {
    hide IdsWith;
  }

  lemma IdsAdded(before: map<nat, seq<Elem>>, id: nat, key: seq<Elem>, s: seq<Elem>)
    requires id !in before
    ensures IdsWith(before[id := key], s) == if Subsequence(s, key) then IdsWith(before, s) + {id} else IdsWith(before, s)
  {
    var after := before[id := key];
    assert after[id] == key && id in after;
    assert forall i | i in before :: i in after && after[i] == before[i];
  }

  lemma IdsGone(before: map<nat, seq<Elem>>, id: nat, s: seq<Elem>)
    requires id in before
    ensures IdsWith(before - {id}, s) == IdsWith(before, s) - {id}
    ensures id in IdsWith(before, s) <==> Subsequence(s, before[id])
  {
  }

  lemma AddSubset(before: map<nat, seq<Elem>>, after: map<nat, seq<Elem>>, done: seq<seq<Elem>>, subsets: Trie<set<nat>>,
                  id: nat, key: seq<Elem>, s: seq<Elem>)
    requires SubsetsBetween(before, after, done, subsets) && Alive(subsets)
    requires id !in before && after == before[id := key] && Subsequence(s, key)
    ensures Get(subsets, s).None? ==>
      SubsetsBetween(before, after, done + [s], Insert(subsets, s, {id})) && Alive(Insert(subsets, s, {id}))
    ensures Get(subsets, s).Some? ==>
      SubsetsBetween(before, after, done + [s], Mutate(subsets, s, AddId(id))) && Alive(Mutate(subsets, s, AddId(id)))
  {
    hide Alive, IdsWith;
    IdsAdded(before, id, key, s);
    if Get(subsets, s).None? {
      assert IdsWith(before, s) == {} && IdsWith(after, s) == {id};
      InsertAlive(subsets, s, {id});
      forall other ensures Get(Insert(subsets, s, {id}), other) == if other == s then Some({id}) else Get(subsets, other) {
        GetInsert(subsets, s, {id}, other);
      }
    } else {
      MutateAlive(subsets, s, AddId(id));
      forall other
        ensures Get(Mutate(subsets, s, AddId(id)), other) == if other == s then Some(Get(subsets, s).value + {id}) else Get(subsets, other)
      {
        GetMutate(subsets, s, AddId(id), other);
      }
    }
  }

  lemma DropSubset(before: map<nat, seq<Elem>>, after: map<nat, seq<Elem>>, done: seq<seq<Elem>>, subsets: Trie<set<nat>>,
                   id: nat, key: seq<Elem>, s: seq<Elem>)
    requires SubsetsBetween(before, after, done, subsets) && Alive(subsets) && s !in done
    requires id in before && before[id] == key && after == before - {id} && Subsequence(s, key)
    ensures Get(subsets, s).Some?
    ensures SubsetsBetween(before, after, done + [s], Mutate(subsets, s, DropId(id))) && Alive(Mutate(subsets, s, DropId(id)))
  {
    hide Alive, IdsWith;
    IdsGone(before, id, s);
    MutateAlive(subsets, s, DropId(id));
    forall other
      ensures Get(Mutate(subsets, s, DropId(id)), other) == if other == s then DropId(id)(Get(subsets, s).value) else Get(subsets, other)
    {
      GetMutate(subsets, s, DropId(id), other);
    }
  }

  lemma BetweenEndAdded(before: map<nat, seq<Elem>>, after: map<nat, seq<Elem>>, subsets: Trie<set<nat>>, id: nat, key: seq<Elem>)
    requires SubsetsBetween(before, after, Powerset(key), subsets) && id !in before && after == before[id := key]
    ensures SubsetsExact(after, subsets)
  {
    hide IdsWith;
    forall s ensures s !in Powerset(key) ==> IdsWith(after, s) == IdsWith(before, s) {
      PowersetMembers(key, s);
      IdsAdded(before, id, key, s);
    }
  }

  lemma BetweenEndGone(before: map<nat, seq<Elem>>, after: map<nat, seq<Elem>>, subsets: Trie<set<nat>>, id: nat, key: seq<Elem>)
    requires SubsetsBetween(before, after, Powerset(key), subsets) && id in before && before[id] == key && after == before - {id}
    ensures SubsetsExact(after, subsets)
  {
    hide IdsWith;
    forall s ensures s !in Powerset(key) ==> IdsWith(after, s) == IdsWith(before, s) {
      PowersetMembers(key, s);
      IdsGone(before, id, s);
    }
  }

  /** The numbers found in the trie of subsets. */
  lemma FoundIds(keys: map<nat, seq<Elem>>, subsets: Trie<set<nat>>, next: nat, key: seq<Elem>, form: Form, ids: set<nat>)
    requires KeysProper(keys, next, form) && SubsetsExact(keys, subsets) && CanonicalList(key) && AllHave(key, form)
    requires ids == IdsAt(subsets, SubsumingAnd(subsets, key))
    ensures forall id :: id in ids <==> id in keys && Subsumes(AndOf(keys[id]), AndOf(key))
  {
    hide SubsumingAnd, Subsumes, AllHave, CanonicalList, IdsWith;
    forall id ensures id in ids <==> id in keys && Subsumes(AndOf(keys[id]), AndOf(key)) {
      if id in ids {
        var p :| p in SubsumingAnd(subsets, key) && Get(subsets, p).Some? && id in Get(subsets, p).value;
        SubsumingAndPaths(subsets, key, p);
        InIds(keys, p, id);
        PathSubsumes(keys[id], p, key, form);
      }
      if id in keys && Subsumes(AndOf(keys[id]), AndOf(key)) {
        var p := SubsumesPath(keys[id], key, form);
        InIds(keys, p, id);
        SubsumingAndPaths(subsets, key, p);
      }
    }
  }

  lemma InIds(keys: map<nat, seq<Elem>>, p: seq<Elem>, id: nat)
    ensures id in IdsWith(keys, p) <==> id in keys && Subsequence(p, keys[id])
  {
  }

  lemma PathSubsumes(xs: seq<Elem>, p: seq<Elem>, key: seq<Elem>, f: Form)
    requires CanonicalList(xs) && AllHave(xs, f) && CanonicalList(key) && AllHave(key, f)
    requires Subsequence(p, xs) && AndPath(p, key)
    ensures Subsumes(AndOf(xs), AndOf(key))
  {
    hide Subsumes, Canonical, Has, Leq, Covers;
    AndPathSubsumes(p, key);
    SubsequenceMembers(p, xs);
    forall y | y in key ensures SubsumedBySome(xs, y) {
      var k :| k in p && Subsumes(k, y);
      assert k in xs;
    }
    SubsumesList(xs, key, f);
  }

  lemma SubsumesPath(xs: seq<Elem>, key: seq<Elem>, f: Form) returns (p: seq<Elem>)
    requires CanonicalList(xs) && AllHave(xs, f) && CanonicalList(key) && AllHave(key, f)
    requires Subsumes(AndOf(xs), AndOf(key))
    ensures Subsequence(p, xs) && AndPath(p, key)
  {
    hide Subsumes, Canonical, Has, Leq, Covers;
    SubsumesList(xs, key, f);
    p := CoveringPath(xs, key, f);
  }

  /** The numbers found in the trie of reversed keys. */
  lemma FoundReversed(keys: map<nat, seq<Elem>>, trie: Trie<nat>, next: nat, key: seq<Elem>, form: Form, ids: set<nat>)
    requires KeysProper(keys, next, form) && TrieExact(keys, trie) && CanonicalList(key) && AllHave(key, form)
    requires ids == ValuesAt(trie, SubsumingOr(trie, Reversed(key)))
    ensures forall id :: id in ids <==> id in keys && Subsumes(AndOf(key), AndOf(keys[id]))
  {
    hide SubsumingOr, Subsumes, AllHave, CanonicalList, OrPath;
    forall id ensures id in ids <==> id in keys && Subsumes(AndOf(key), AndOf(keys[id])) {
      if id in ids {
        var p :| p in SubsumingOr(trie, Reversed(key)) && Get(trie, p).Some? && Get(trie, p).value == id;
        SubsumingOrPaths(trie, Reversed(key), p);
        ReversedSearch(keys[id], key, form);
      }
      if id in keys && Subsumes(AndOf(key), AndOf(keys[id])) {
        SubsumingOrPaths(trie, Reversed(key), Reversed(keys[id]));
        ReversedSearch(keys[id], key, form);
      }
    }
  }

  lemma FoundKeys<V>(keys: map<nat, seq<Elem>>, values: map<nat, V>, contents: map<seq<Elem>, V>, next: nat, key: seq<Elem>,
                     form: Form, ids: set<nat>, subsuming: bool)
    requires KeysProper(keys, next, form) && ContentsExact(keys, values, contents)
    requires forall id :: id in ids <==>
      id in keys && if subsuming then Subsumes(AndOf(keys[id]), AndOf(key)) else Subsumes(AndOf(key), AndOf(keys[id]))
    ensures forall k, v :: Listed(ids, keys, values, k, v) <==>
      k in contents && v == contents[k] && if subsuming then Subsumes(AndOf(k), AndOf(key)) else Subsumes(AndOf(key), AndOf(k))
  {
    hide Subsumes, AllHave, CanonicalList;
    forall k, v
      ensures Listed(ids, keys, values, k, v) <==>
        k in contents && v == contents[k] && if subsuming then Subsumes(AndOf(k), AndOf(key)) else Subsumes(AndOf(key), AndOf(k))
    {
      if k in contents {
        var id :| id in keys && keys[id] == k;
        assert contents[k] == values[id];
      }
    }
  }
}
