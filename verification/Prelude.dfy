/** Shared building blocks: an option type, order-independent sums over finite maps, ordered keys. */
module Prelude {
  datatype Option<+T> = None | Some(value: T)

  ghost function AnyKey<K(!new)>(m: map<K, int>): (k: K)
    requires m != map[]
    ensures k in m
  {
    var k :| k in m;
    k
  }

  lemma RemoveShrinks<K(!new)>(m: map<K, int>, k: K)
    requires k in m
    ensures |m - {k}| < |m|
  {
    assert (m - {k}).Keys == m.Keys - {k};
  }

  /** Sum of all values of a finite map; the picked key does not matter (MapSumRemove). */
  ghost function MapSum<K(!new)>(m: map<K, int>): int
    decreases |m|
  {
    if m == map[] then 0
    else
      RemoveShrinks(m, AnyKey(m));
      m[AnyKey(m)] + MapSum(m - {AnyKey(m)})
  }

  lemma {:induction false} MapSumRemove<K(!new)>(m: map<K, int>, k: K)
    requires k in m
    ensures MapSum(m) == m[k] + MapSum(m - {k})
    decreases |m|
  {
    var p := AnyKey(m);
    if p != k {
      RemoveShrinks(m, p);
      RemoveShrinks(m, k);
      var mp, mk := m - {p}, m - {k};
      MapSumRemove(mp, k);
      MapSumRemove(mk, p);
      assert mp - {k} == mk - {p};
    }
  }

  lemma MapSumAdd<K(!new)>(m: map<K, int>, k: K, v: int)
    requires k !in m
    ensures MapSum(m[k := v]) == MapSum(m) + v
  {
    MapSumRemove(m[k := v], k);
    assert m[k := v] - {k} == m;
  }

  lemma MapSumUpdate<K(!new)>(m: map<K, int>, k: K, v: int)
    requires k in m
    ensures MapSum(m[k := v]) == MapSum(m) - m[k] + v
  {
    MapSumRemove(m, k);
    MapSumRemove(m[k := v], k);
    assert m[k := v] - {k} == m - {k};
  }

  lemma {:induction false} MapSumNonNegative<K(!new)>(m: map<K, int>)
    requires forall k :: k in m ==> m[k] >= 0
    ensures MapSum(m) >= 0
    decreases |m|
  {
    if m != map[] {
      RemoveShrinks(m, AnyKey(m));
      MapSumNonNegative(m - {AnyKey(m)});
    }
  }

  // ---- Keys in ascending order, as std::map and ORDER BY visit them ----

  predicate IsMin(s: set<nat>, m: nat) { m in s && forall x :: x in s ==> m <= x }

  lemma {:induction false} MinExists(s: set<nat>)
    requires s != {}
    ensures exists m :: IsMin(s, m)
  {
    var y :| y in s;
    if s == {y} {
      assert IsMin(s, y);
    } else {
      var rest := s - {y};
      MinExists(rest);
      var m :| IsMin(rest, m);
      assert s == rest + {y};
      assert IsMin(s, if y < m then y else m);
    }
  }

  function Min(s: set<nat>): (m: nat)
    requires s != {}
    ensures IsMin(s, m)
  {
    MinExists(s);
    var m :| m in s && IsMin(s, m);
    m
  }

  function Sorted(s: set<nat>): seq<nat> { if s == {} then [] else [Min(s)] + Sorted(s - {Min(s)}) }

  lemma {:induction false} SortedKeys(s: set<nat>)
    ensures forall k :: k in Sorted(s) <==> k in s
    ensures forall i, j :: 0 <= i < j < |Sorted(s)| ==> Sorted(s)[i] < Sorted(s)[j]
  {
    if s != {} {
      var rest := Sorted(s - {Min(s)});
      SortedKeys(s - {Min(s)});
      forall j | 0 <= j < |rest| ensures Min(s) < rest[j] { assert rest[j] in s - {Min(s)}; }
    }
  }

  /** A number above all of them, so one that has not been used. */
  ghost function Unused(s: set<nat>): (n: nat)
    ensures forall x :: x in s ==> x < n
  {
    if s == {} then 0
    else
      var y :| y in s;
      assert forall x :: x in s ==> x == y || x in s - {y};
      Unused(s - {y}) + y + 1
  }
}
