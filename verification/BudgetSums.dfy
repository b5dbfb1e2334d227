// Sums over the cents of budget holds, and updates of a counter by them.
module BudgetSums {
  type HoldId = nat
  type Cents = map<HoldId, nat>

  ghost function Sum(f: Cents): nat {
    if f == map[] then 0
    else
      var k :| k in f;
      f[k] + Sum(f - {k})
  }

  lemma {:induction false} SumRemove(f: Cents, k: HoldId)
    requires k in f
    ensures Sum(f) == f[k] + Sum(f - {k})
    decreases f.Keys
  {
    var j :| j in f && Sum(f) == f[j] + Sum(f - {j});
    if j == k {
    } else {
      SumRemove(f - {j}, k);
      SumRemove(f - {k}, j);
      assert f - {j} - {k} == f - {k} - {j};
    }
  }

  // The entries of f for the ids in s.
  function Part(f: Cents, s: set<HoldId>): Cents {
    map k | k in f && k in s :: f[k]
  }

  lemma {:induction false} SumSplits(f: Cents, s: set<HoldId>)
    ensures Sum(f) == Sum(Part(f, s)) + Sum(f - s)
    decreases f.Keys
  {
    if f == map[] {
      assert Part(f, s) == map[] && f - s == map[];
    } else {
      var k :| k in f;
      var g := f - {k};
      SumRemove(f, k);
      SumSplits(g, s);
      if k in s {
        SumRemove(Part(f, s), k);
        assert Part(f, s) - {k} == Part(g, s) && f - s == g - s;
      } else {
        SumRemove(f - s, k);
        assert (f - s) - {k} == g - s && Part(f, s) == Part(g, s);
      }
    }
  }

  lemma SumAdd(f: Cents, k: HoldId, v: nat)
    requires k !in f
    ensures Sum(f[k := v]) == Sum(f) + v
  {
    SumRemove(f[k := v], k);
    assert f[k := v] - {k} == f;
  }

  lemma SumOne(h: HoldId, c: nat)
    ensures Sum(map[h := c]) == c
  {
    SumAdd(map[], h, c);
    assert map[][h := c] == map[h := c];
  }

  /* --- the updates of one counter --- */

  // What an UPDATE that takes x off the counter leaves: it stops at 0.
  function Less(reserved: nat, x: nat): nat {
    if reserved >= x then reserved - x else 0
  }

  function LessEach(reserved: nat, xs: seq<nat>): nat {
    if xs == [] then reserved else Less(LessEach(reserved, xs[..|xs| - 1]), xs[|xs| - 1])
  }

  function SumSeq(xs: seq<nat>): nat {
    if xs == [] then 0 else SumSeq(xs[..|xs| - 1]) + xs[|xs| - 1]
  }

  // One update per hold, each stopping at 0, comes to one update by the sum.
  lemma {:induction false} UpdatesAdd(reserved: nat, xs: seq<nat>)
    ensures LessEach(reserved, xs) == Less(reserved, SumSeq(xs))
  {
    if xs == [] {
    } else {
      UpdatesAdd(reserved, xs[..|xs| - 1]);
    }
  }
}
