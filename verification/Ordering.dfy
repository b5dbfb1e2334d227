// Ascending order and the two uses the repository makes of Python's `sorted`:
// over a list (stable, keeps duplicates) and over a set (one entry per element).
module Ordering {

  type Order<!T> = (T, T) -> bool

  // Enough to sort by: ties are possible.
  ghost predicate Preorder<T(!new)>(leq: Order<T>) {
    && (forall a, b :: leq(a, b) || leq(b, a))
    && (forall a, b, c :: leq(a, b) && leq(b, c) ==> leq(a, c))
  }

  ghost predicate TotalOrder<T(!new)>(leq: Order<T>) {
    && Preorder(leq)
    && (forall a, b :: leq(a, b) && leq(b, a) ==> a == b)
  }

  ghost predicate Ascending<T>(s: seq<T>, leq: Order<T>) {
    forall i, j :: 0 <= i < j < |s| ==> leq(s[i], s[j])
  }

  ghost predicate Distinct<T>(s: seq<T>) {
    forall i, j :: 0 <= i < j < |s| ==> s[i] != s[j]
  }

  function Elements<T>(s: seq<T>): set<T> {
    set x | x in s
  }

  // s.index(x)
  function IndexOf<T(==)>(s: seq<T>, x: T): (i: nat)
    requires x in s
    ensures i < |s| && s[i] == x
  {
    if s[0] == x then 0 else 1 + IndexOf(s[1..], x)
  }

  // Python compares strings code point by code point.
  predicate LexLeq(a: string, b: string) {
    a == "" || (b != "" && (a[0] < b[0] || (a[0] == b[0] && LexLeq(a[1..], b[1..]))))
  }

  // A prefix comes first; otherwise the first character that differs decides.
  lemma {:induction false} LexLeqMeans(a: string, b: string)
    ensures LexLeq(a, b) <==> a <= b || exists i :: 0 <= i < |a| && i < |b| && a[..i] == b[..i] && a[i] < b[i]
  {
    if a == "" {
    } else if b == "" || a[0] != b[0] {
      if b != "" && a[0] < b[0] {
        assert a[..0] == b[..0];
      } else {
        assert forall i :: 0 < i < |a| && i < |b| ==> a[..i][0] != b[..i][0];
      }
    } else {
      LexLeqMeans(a[1..], b[1..]);
      assert a == [a[0]] + a[1..] && b == [b[0]] + b[1..];
      assert a <= b <==> a[1..] <= b[1..];
      forall i | 0 < i < |a| && i < |b|
        ensures a[..i] == b[..i] && a[i] < b[i] <==> a[1..][..i - 1] == b[1..][..i - 1] && a[1..][i - 1] < b[1..][i - 1]
      {
        assert a[..i] == [a[0]] + a[1..][..i - 1] && b[..i] == [b[0]] + b[1..][..i - 1];
      }
      if j :| 0 <= j < |a[1..]| && j < |b[1..]| && a[1..][..j] == b[1..][..j] && a[1..][j] < b[1..][j] {
        assert a[..j + 1] == b[..j + 1] && a[j + 1] < b[j + 1];
      }
    }
  }

  lemma {:induction false} LexTotal(a: string, b: string)
    ensures LexLeq(a, b) || LexLeq(b, a)
    ensures LexLeq(a, b) && LexLeq(b, a) ==> a == b
  {
    if a == "" || b == "" {
    } else {
      LexTotal(a[1..], b[1..]);
      assert a == [a[0]] + a[1..] && b == [b[0]] + b[1..];
    }
  }

  lemma {:induction false} LexTransitive(a: string, b: string, c: string)
    requires LexLeq(a, b) && LexLeq(b, c)
    ensures LexLeq(a, c)
  {
    if a == "" {
    } else if a[0] == b[0] == c[0] {
      LexTransitive(a[1..], b[1..], c[1..]);
    }
  }

  lemma LexIsTotalOrder()
    ensures TotalOrder(LexLeq)
  {
    forall a, b ensures LexLeq(a, b) || LexLeq(b, a)
      ensures LexLeq(a, b) && LexLeq(b, a) ==> a == b
    {
      LexTotal(a, b);
    }
    forall a, b, c | LexLeq(a, b) && LexLeq(b, c) ensures LexLeq(a, c) {
      LexTransitive(a, b, c);
    }
  }

  /* --- sorted(list) --- */

  function Insert<T>(x: T, s: seq<T>, leq: Order<T>): (r: seq<T>)
    ensures multiset(r) == multiset([x]) + multiset(s)
  {
    if s == [] then [x]
    else if leq(x, s[0]) then [x] + s
    else
      assert s == [s[0]] + s[1..];
      [s[0]] + Insert(x, s[1..], leq)
  }

  function Sorted<T>(s: seq<T>, leq: Order<T>): (r: seq<T>)
    ensures multiset(r) == multiset(s)
  {
    if s == [] then []
    else
      assert s == [s[0]] + s[1..];
      Insert(s[0], Sorted(s[1..], leq), leq)
  }

  lemma SameMembers<T>(s: seq<T>, r: seq<T>)
    requires multiset(s) == multiset(r)
    ensures |s| == |r|
    ensures forall x :: x in s <==> x in r
  {
    assert |multiset(s)| == |multiset(r)|;
    forall x ensures x in s <==> x in r {
      assert x in multiset(s) <==> x in multiset(r);
    }
  }

  lemma {:induction false} InsertAscends<T(!new)>(x: T, s: seq<T>, leq: Order<T>)
    requires Preorder(leq) && Ascending(s, leq)
    ensures Ascending(Insert(x, s, leq), leq)
  {
    if s == [] {
    } else if leq(x, s[0]) {
      forall i | 0 <= i < |s| ensures leq(x, s[i]) {
        if i > 0 { assert leq(s[0], s[i]); }
      }
    } else {
      var rest := Insert(x, s[1..], leq);
      InsertAscends(x, s[1..], leq);
      SameMembers(rest, [x] + s[1..]);
      forall y | y in rest ensures leq(s[0], y) {
        assert y == x || y in s[1..];
      }
    }
  }

  lemma {:induction false} SortedAscends<T(!new)>(s: seq<T>, leq: Order<T>)
    requires Preorder(leq)
    ensures Ascending(Sorted(s, leq), leq)
  {
    if s == [] {
    } else {
      SortedAscends(s[1..], leq);
      InsertAscends(s[0], Sorted(s[1..], leq), leq);
    }
  }

  /* --- sorted(set) --- */

  // r lists s, each element once, in ascending order.
  ghost predicate IsSortedSet<T>(r: seq<T>, s: set<T>, leq: Order<T>) {
    && Ascending(r, leq)
    && Distinct(r)
    && Elements(r) == s
  }

  // There is exactly one such listing.
  lemma {:induction false} SortedSetUnique<T(!new)>(r: seq<T>, q: seq<T>, s: set<T>, leq: Order<T>)
    requires TotalOrder(leq)
    requires IsSortedSet(r, s, leq) && IsSortedSet(q, s, leq)
    ensures r == q
    decreases |r|
  {
    if r == [] {
      assert forall i :: 0 <= i < |q| ==> q[i] in Elements(q);
    } else {
      assert r[0] in Elements(q) && q[0] in Elements(r);
      assert leq(r[0], q[0]) && leq(q[0], r[0]);
      var s' := s - {r[0]};
      TailElements(r);
      TailElements(q);
      SortedSetUnique(r[1..], q[1..], s', leq);
      assert r == [r[0]] + r[1..] && q == [q[0]] + q[1..];
    }
  }

  lemma TailElements<T>(r: seq<T>)
    requires r != [] && Distinct(r)
    ensures Elements(r[1..]) == Elements(r) - {r[0]}
  {
    assert r == [r[0]] + r[1..];
  }

  lemma DistinctByCount<T>(s: seq<T>)
    ensures Distinct(s) <==> forall x :: x in s ==> multiset(s)[x] == 1
  {
    if Distinct(s) {
      forall x | x in s ensures multiset(s)[x] == 1 { CountOne(s, x); }
    } else {
      var i, j :| 0 <= i < j < |s| && s[i] == s[j];
      assert s == s[..j] + s[j..] && s[j..] == [s[j]] + s[j + 1..];
      assert s[i] in s[..j];
      assert multiset(s)[s[i]] >= 2;
    }
  }

  lemma CountOne<T>(s: seq<T>, x: T)
    requires Distinct(s) && x in s
    ensures multiset(s)[x] == 1
  {
    var i :| 0 <= i < |s| && s[i] == x;
    assert s == s[..i] + [x] + s[i + 1..];
    assert x !in s[..i] && x !in s[i + 1..];
  }

  lemma InsertIntoSortedSet<T(!new)>(x: T, r: seq<T>, s: set<T>, leq: Order<T>)
    requires TotalOrder(leq) && IsSortedSet(r, s, leq) && x !in s
    ensures IsSortedSet(Insert(x, r, leq), s + {x}, leq)
  {
    var q := Insert(x, r, leq);
    InsertAscends(x, r, leq);
    SameMembers(q, [x] + r);
    DistinctByCount([x] + r);
    DistinctByCount(q);
    assert multiset(q) == multiset([x] + r);
    assert Elements(q) == s + {x};
  }

  method SortSet<T(!new, ==)>(s: set<T>, leq: Order<T>) returns (r: seq<T>)
    requires TotalOrder(leq)
    ensures IsSortedSet(r, s, leq)
  {
    r := [];
    var rest := s;
    while rest != {}
      invariant rest <= s
      invariant IsSortedSet(r, s - rest, leq)
      decreases |rest|
    {
      var x :| x in rest;
      InsertIntoSortedSet(x, r, s - rest, leq);
      assert s - (rest - {x}) == s - rest + {x};
      r := Insert(x, r, leq);
      rest := rest - {x};
    }
    assert s - rest == s;
  }
}
