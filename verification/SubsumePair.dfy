/** Maps whose keys are pairs, kept as a map of the first components to maps of the second. */
module SubsumptionPairs {
  import opened Collections
  import opened Subsumption

  /** The inner maps are not empty, and hold exactly the contents. */
  ghost predicate Represents<V>(maps: map<Elem, map<Elem, V>>, contents: map<Elem, V>) {
    && (forall k1 | k1 in maps :: maps[k1] != map[])
    && (forall k | k in contents :: k.PairOf? && k.first in maps && k.second in maps[k.first]
                                    && contents[k] == maps[k.first][k.second])
    && (forall k1, k2 | k1 in maps && k2 in maps[k1] :: PairOf(k1, k2) in contents)
  }

  class PairSubsumptionMap<V(==)> {
    var maps: map<Elem, map<Elem, V>>
    ghost var contents: map<Elem, V>

    ghost predicate Valid()
      reads this
    {
      Represents(maps, contents)
    }

    constructor ()
      ensures Valid() && contents == map[]
    {
      maps, contents := map[], map[];
    }

    method Insert(key: Elem, value: V)
      requires Valid() && key.PairOf? && key !in contents
      modifies this
      ensures Valid() && contents == old(contents)[key := value]
    {
      var inner := if key.first in maps then maps[key.first] else map[];
      assert key.second in inner[key.second := value];
      maps := maps[key.first := inner[key.second := value]];
      contents := contents[key := value];
    }

    /** Removing the last key of an inner map removes the inner map. */
    method Remove(key: Elem) returns (value: V)
      requires Valid() && key in contents
      modifies this
      ensures Valid() && contents == old(contents) - {key} && value == old(contents)[key]
    {
      var inner := maps[key.first];
      value := inner[key.second];
      var left := inner - {key.second};
      maps := if left == map[] then maps - {key.first} else maps[key.first := left];
      contents := contents - {key};
      assert forall k2 :: k2 in left <==> k2 in inner && k2 != key.second;
    }

    /** The stored keys related to the query, first by the first components and then by the
        second ones. */
    method Find(key: Elem, subsuming: bool) returns (r: seq<(Elem, V)>)
      requires Valid() && key.PairOf?
      ensures forall k, v :: (k, v) in r <==>
        k in contents && v == contents[k] && (if subsuming then Subsumes(k, key) else Subsumes(key, k))
    {
      hide Subsumes;
      var found := set k1, k2 | k1 in maps && k2 in maps[k1] && Related(k1, key.first, subsuming) && Related(k2, key.second, subsuming) :: (k1, k2);
      forall k | k in contents ensures k == PairOf(k.first, k.second) {}
      forall k1, k2 ensures Subsumes(PairOf(k1, k2), key) <==> Subsumes(k1, key.first) && Subsumes(k2, key.second) { PairSubsumes(k1, k2, key.first, key.second); }
      forall k1, k2 ensures Subsumes(key, PairOf(k1, k2)) <==> Subsumes(key.first, k1) && Subsumes(key.second, k2) { PairSubsumes(key.first, key.second, k1, k2); }
      r := [];
      var todo := found;
      while todo != {}
        invariant todo <= found
        invariant forall k, v :: (k, v) in r <==>
          k in contents && v == contents[k] && (k.first, k.second) in found - todo
        decreases todo
      {
        var p :| p in todo;
        r := r + [(PairOf(p.0, p.1), maps[p.0][p.1])];
        todo := todo - {p};
      }
    }
  }

  predicate Related(a: Elem, b: Elem, subsuming: bool) {
    if subsuming then Subsumes(a, b) else Subsumes(b, a)
  }

  lemma PairSubsumes(a1: Elem, a2: Elem, b1: Elem, b2: Elem)
    ensures Subsumes(PairOf(a1, a2), PairOf(b1, b2)) <==> Subsumes(a1, b1) && Subsumes(a2, b2)
  {
  }
}
