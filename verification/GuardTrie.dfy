/** A trie of transitions keyed by their guards, for finding the enabled ones in a state. */
module GuardTries {
  import opened Collections
  import opened Guarded

  datatype Trie = Node(data: seq<Transition>, children: map<Guard, Trie>)

  const EmptyTrie := Node([], map[])

  function InsertAt(trie: Trie, path: seq<Guard>, t: Transition): Trie
    decreases |path|
  {
    if path == [] then trie.(data := trie.data + [t])
    else
      var child := if path[0] in trie.children then trie.children[path[0]] else EmptyTrie;
      trie.(children := trie.children[path[0] := InsertAt(child, path[1..], t)])
  }

  /** `t` sits at the end of `path`. */
  predicate Stored(trie: Trie, path: seq<Guard>, t: Transition)
    decreases |path|
  {
    if path == [] then t in trie.data
    else path[0] in trie.children && Stored(trie.children[path[0]], path[1..], t)
  }

  lemma {:induction false} InsertStored(trie: Trie, path: seq<Guard>, t: Transition, q: seq<Guard>, x: Transition)
    ensures Stored(InsertAt(trie, path, t), q, x) <==> Stored(trie, q, x) || (q == path && x == t)
    decreases |path|
  {
    if path != [] {
      var child := if path[0] in trie.children then trie.children[path[0]] else EmptyTrie;
      if q != [] && q[0] == path[0] {
        InsertStored(child, path[1..], t, q[1..], x);
        assert q == [q[0]] + q[1..] && path == [path[0]] + path[1..];
        if path[0] !in trie.children { EmptyStores(q[1..], x); }
      }
    }
  }

  lemma {:induction false} EmptyStores(path: seq<Guard>, t: Transition)
    ensures !Stored(EmptyTrie, path, t)
  {
  }

  /** `t` is found when only the children whose guard holds are visited. */
  ghost predicate Found(trie: Trie, s: State, t: Transition)
    decreases trie
  {
    || (t in trie.data && Evaluate(t.slowGuard, s))
    || exists g | g in trie.children :: GuardHolds(g, s) && Found(trie.children[g], s, t)
  }

  lemma {:induction false} StoredIsFound(trie: Trie, path: seq<Guard>, s: State, t: Transition)
    requires Stored(trie, path, t) && GuardsHold(path, s) && Evaluate(t.slowGuard, s)
    ensures Found(trie, s, t)
    decreases |path|
  {
    if path != [] {
      assert path[0] in path;
      forall g | g in path[1..] ensures GuardHolds(g, s) { assert g in path; }
      StoredIsFound(trie.children[path[0]], path[1..], s, t);
    }
  }

  lemma {:induction false} FoundIsStored(trie: Trie, s: State, t: Transition) returns (path: seq<Guard>)
    requires Found(trie, s, t)
    ensures Stored(trie, path, t) && GuardsHold(path, s) && Evaluate(t.slowGuard, s)
    decreases trie
  {
    if t in trie.data && Evaluate(t.slowGuard, s) {
      path := [];
    } else {
      var g :| g in trie.children && GuardHolds(g, s) && Found(trie.children[g], s, t);
      var rest := FoundIsStored(trie.children[g], s, t);
      path := [g] + rest;
      assert path[1..] == rest;
    }
  }

  /** Collect the matching transitions; the children are visited in any order. */
  method Collect(trie: Trie, s: State) returns (out: seq<Transition>)
    ensures forall t :: t in out <==> Found(trie, s, t)
    decreases trie
  {
    out := [];
    var i := 0;
    while i < |trie.data|
      invariant i <= |trie.data|
      invariant forall t :: t in out <==> t in trie.data[..i] && Evaluate(t.slowGuard, s)
    {
      if Evaluate(trie.data[i].slowGuard, s) { out := out + [trie.data[i]]; }
      assert trie.data[..i + 1] == trie.data[..i] + [trie.data[i]];
      i := i + 1;
    }
    assert trie.data[..i] == trie.data;
    var todo := trie.children.Keys;
    while todo != {}
      invariant todo <= trie.children.Keys
      invariant forall t :: t in out <==>
        || (t in trie.data && Evaluate(t.slowGuard, s))
        || exists g | g in trie.children && g !in todo :: GuardHolds(g, s) && Found(trie.children[g], s, t)
      decreases todo
    {
      var g :| g in todo;
      ghost var before, rest := out, todo - {g};
      if GuardHolds(g, s) {
        var found := Collect(trie.children[g], s);
        out := out + found;
      }
      todo := todo - {g};
    }
  }

  class Transitions {
    var root: Trie
    ghost var inserted: set<Transition>

    ghost predicate Valid()
      reads this
    {
      forall path, t :: Stored(root, path, t) <==> t in inserted && path == t.guards
    }

    constructor ()
      ensures Valid() && inserted == {}
    {
      root := EmptyTrie;
      inserted := {};
      new;
      forall path, t ensures !Stored(root, path, t) { EmptyStores(path, t); }
    }

    method Insert(t: Transition)
      requires Valid()
      modifies this
      ensures Valid() && inserted == old(inserted) + {t}
    {
      forall path, x ensures Stored(InsertAt(root, t.guards, t), path, x)
        <==> Stored(root, path, x) || (path == t.guards && x == t)
      {
        InsertStored(root, t.guards, t, path, x);
      }
      root := InsertAt(root, t.guards, t);
      inserted := inserted + {t};
    }

    /** Exactly the inserted transitions that are enabled in `s`. */
    method GetSubsets(s: State) returns (out: seq<Transition>)
      requires Valid()
      ensures forall t :: t in out <==> t in inserted && Enabled(t, s)
    {
      out := Collect(root, s);
      forall t ensures Found(root, s, t) <==> t in inserted && Enabled(t, s) {
        if t in inserted && Enabled(t, s) {
          StoredIsFound(root, t.guards, s, t);
        }
        if Found(root, s, t) {
          var path := FoundIsStored(root, s, t);
        }
      }
    }
  }
}
