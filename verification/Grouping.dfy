// Grouping rows under a key, as `groups.setdefault(key(row), []).append(row)`
// over a dict, which keeps its keys in the order they were first used.
module Grouping {
  import opened Ordering

  datatype Groups<K, V> = Groups(keys: seq<K>, members: map<K, seq<V>>)

  // The rows under key k, in their order.
  function Under<K(==), V>(rows: seq<V>, key: V -> K, k: K): seq<V> {
    if rows == [] then []
    else Under(rows[..|rows| - 1], key, k) + if key(rows[|rows| - 1]) == k then [rows[|rows| - 1]] else []
  }

  ghost predicate IsGrouping<K(!new), V>(g: Groups<K, V>, rows: seq<V>, key: V -> K) {
    && Distinct(g.keys)
    && Elements(g.keys) == g.members.Keys
    && (forall k :: k in g.members <==> Under(rows, key, k) != [])
    && (forall k :: k in g.members ==> g.members[k] == Under(rows, key, k))
  }

  method GroupBy<K(==, !new), V>(rows: seq<V>, key: V -> K) returns (g: Groups<K, V>)
    ensures IsGrouping(g, rows, key)
  {
    g := Groups([], map[]);
    var i := 0;
    while i < |rows|
      invariant i <= |rows|
      invariant IsGrouping(g, rows[..i], key)
    {
      var k := key(rows[i]);
      assert rows[..i + 1][..i] == rows[..i];
      var keys := if k in g.members then g.keys else g.keys + [k];
      var before := if k in g.members then g.members[k] else [];
      assert k !in g.members ==> k !in Elements(g.keys);
      g := Groups(keys, g.members[k := before + [rows[i]]]);
      i := i + 1;
    }
    assert rows[..i] == rows;
  }

  lemma {:induction false} UnderMembers<K, V>(rows: seq<V>, key: V -> K, k: K)
    ensures forall v :: v in Under(rows, key, k) <==> v in rows && key(v) == k
    ensures forall v :: multiset(Under(rows, key, k))[v] == if key(v) == k then multiset(rows)[v] else 0
  {
    if rows == [] {
    } else {
      UnderMembers(rows[..|rows| - 1], key, k);
      assert rows == rows[..|rows| - 1] + [rows[|rows| - 1]];
    }
  }

  lemma {:induction false} UnderAscends<K, V(!new)>(rows: seq<V>, key: V -> K, k: K, leq: Order<V>)
    requires Ascending(rows, leq)
    ensures Ascending(Under(rows, key, k), leq)
    ensures Distinct(rows) ==> Distinct(Under(rows, key, k))
  {
    if rows == [] {
    } else {
      var init, last := rows[..|rows| - 1], rows[|rows| - 1];
      UnderAscends(init, key, k, leq);
      UnderMembers(init, key, k);
      forall v | v in init ensures leq(v, last) && (Distinct(rows) ==> v != last) {
        var j :| 0 <= j < |init| && init[j] == v;
        assert rows[j] == v && leq(rows[j], rows[|rows| - 1]);
      }
      AppendLast(Under(init, key, k), last, leq, Distinct(rows));
    }
  }

  lemma AppendLast<V>(s: seq<V>, last: V, leq: Order<V>, distinct: bool)
    requires Ascending(s, leq) && (distinct ==> Distinct(s))
    requires forall v <- s :: leq(v, last) && (distinct ==> v != last)
    ensures Ascending(s + [last], leq) && (distinct ==> Distinct(s + [last]))
  {
    assert forall i :: 0 <= i < |s| ==> s[i] in s;
  }
}
