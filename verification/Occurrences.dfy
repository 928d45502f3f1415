// How often an id occurs in the lists of a map: the reference counts of the blob cache are such numbers.

module Occurrences {
  type Lists<K> = map<K, seq<nat>>

  ghost function Occ<K(!new)>(m: Lists<K>, id: nat): nat {
    if m == map[] then 0 else
      var k :| k in m;
      multiset(m[k])[id] + Occ(m - {k}, id)
  }

  // The sum does not depend on the order in which the lists are counted.
  lemma {:induction false} OccRemove<K(!new)>(m: Lists<K>, k: K, id: nat)
    requires k in m
    ensures Occ(m, id) == multiset(m[k])[id] + Occ(m - {k}, id)
    decreases |m|
  {
    var c :| c in m && Occ(m, id) == multiset(m[c])[id] + Occ(m - {c}, id);
    if c != k {
      OccRemove(m - {c}, k, id);
      OccRemove(m - {k}, c, id);
      assert m - {c} - {k} == m - {k} - {c};
    }
  }

  // Replacing or adding one list.
  lemma {:induction false} OccUpdate<K(!new)>(m: Lists<K>, k: K, l: seq<nat>, id: nat)
    ensures Occ(m[k := l], id) == multiset(l)[id] + Occ(m - {k}, id)
    ensures k !in m ==> m - {k} == m
  {
    OccRemove(m[k := l], k, id);
    assert m[k := l] - {k} == m - {k};
    if k !in m { assert m - {k} == m; }
  }

  // The list filed under a key, empty when there is none.
  function At<K>(m: Lists<K>, k: K): seq<nat> {
    if k in m then m[k] else []
  }

  function Append<K>(m: Lists<K>, k: K, id: nat): Lists<K> {
    m[k := At(m, k) + [id]]
  }

  lemma {:induction false} OccAppend<K(!new)>(m: Lists<K>, k: K, x: nat, id: nat)
    ensures Occ(Append(m, k, x), id) == Occ(m, id) + if id == x then 1 else 0
  {
    OccUpdate(m, k, At(m, k) + [x], id);
    if k in m { OccRemove(m, k, id); }
  }

  ghost predicate Mentions<K(!new)>(m: Lists<K>, id: nat) {
    exists k :: k in m && id in m[k]
  }

  // An id is counted exactly when some list has it.
  lemma {:induction false} OccPositive<K(!new)>(m: Lists<K>, id: nat)
    ensures Occ(m, id) > 0 <==> Mentions(m, id)
    decreases |m|
  {
    if m != map[] {
      var c :| c in m && Occ(m, id) == multiset(m[c])[id] + Occ(m - {c}, id);
      OccPositive(m - {c}, id);
      if Mentions(m, id) && id !in m[c] {
        var k :| k in m && id in m[k];
        assert k in m - {c};
      }
      if Mentions(m - {c}, id) {
        var k :| k in m - {c} && id in (m - {c})[k];
        assert k in m && id in m[k];
      }
    }
  }

  lemma OccZero<K(!new)>(m: Lists<K>, id: nat)
    requires Occ(m, id) == 0
    ensures forall k :: k in m ==> id !in m[k]
  {
    OccPositive(m, id);
  }

  // The id is filed once more under every key of `ks`.
  function AppendAll<K>(m: Lists<K>, ks: set<K>, id: nat): Lists<K> {
    map k | k in m.Keys + ks :: if k in ks then At(m, k) + [id] else m[k]
  }

  lemma AppendAllStep<K(!new)>(m: Lists<K>, ks: set<K>, id: nat, q: K)
    requires q in ks
    ensures AppendAll(m, ks, id) == Append(AppendAll(m, ks - {q}, id), q, id)
  {
    var m1 := AppendAll(m, ks - {q}, id);
    assert At(m1, q) == At(m, q);
    assert Append(m1, q, id).Keys == AppendAll(m, ks, id).Keys;
  }

  lemma {:induction false} OccAppendAll<K(!new)>(m: Lists<K>, ks: set<K>, id: nat, x: nat)
    ensures Occ(AppendAll(m, ks, id), x) == Occ(m, x) + if x == id then |ks| else 0
    decreases |ks|
  {
    if ks == {} {
      assert AppendAll(m, ks, id) == m;
    } else {
      var q :| q in ks;
      AppendAllStep(m, ks, id, q);
      OccAppendAll(m, ks - {q}, id, x);
      OccAppend(AppendAll(m, ks - {q}, id), q, id, x);
    }
  }
}
