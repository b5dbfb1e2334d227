// The histogram of src/nexus/telemetry.py, against a plain count over all
// observations.
module Telemetry {
  import opened Ordering

  // L: tuple(sorted((labels or {}).items())), one key per label dict.
  // log: every observation so far, in order.
  type Log<L> = seq<(L, real)>

  /* --- the plain counts --- */

  function CountAtMost<L(==, !new)>(log: Log<L>, key: L, bound: real): nat {
    if log == [] then 0
    else CountAtMost(log[..|log| - 1], key, bound)
         + if log[|log| - 1].0 == key && log[|log| - 1].1 <= bound then 1 else 0
  }

  function CountAll<L(==, !new)>(log: Log<L>, key: L): nat {
    if log == [] then 0 else CountAll(log[..|log| - 1], key) + if log[|log| - 1].0 == key then 1 else 0
  }

  function SumAll<L(==, !new)>(log: Log<L>, key: L): real {
    if log == [] then 0.0 else SumAll(log[..|log| - 1], key) + if log[|log| - 1].0 == key then log[|log| - 1].1 else 0.0
  }

  // The observations whose labels are among keys.
  ghost function CountIn<L(!new)>(log: Log<L>, keys: set<L>): nat {
    if log == [] then 0 else CountIn(log[..|log| - 1], keys) + if log[|log| - 1].0 in keys then 1 else 0
  }

  ghost function SumIn<L(!new)>(log: Log<L>, keys: set<L>): real {
    if log == [] then 0.0
    else SumIn(log[..|log| - 1], keys) + if log[|log| - 1].0 in keys then log[|log| - 1].1 else 0.0
  }

  ghost function SumLog<L(!new)>(log: Log<L>): real {
    if log == [] then 0.0 else SumLog(log[..|log| - 1]) + log[|log| - 1].1
  }

  lemma {:induction false} InOneMore<L(!new)>(log: Log<L>, keys: set<L>, key: L)
    requires key !in keys
    ensures CountIn(log, keys + {key}) == CountIn(log, keys) + CountAll(log, key)
    ensures SumIn(log, keys + {key}) == SumIn(log, keys) + SumAll(log, key)
  {
    if log == [] {
    } else {
      InOneMore(log[..|log| - 1], keys, key);
    }
  }

  lemma {:induction false} AllIn<L(!new)>(log: Log<L>, keys: set<L>)
    requires forall o <- log :: o.0 in keys
    ensures CountIn(log, keys) == |log| && SumIn(log, keys) == SumLog(log)
    ensures CountIn(log, {}) == 0 && SumIn(log, {}) == 0.0
  {
    if log == [] {
    } else {
      AllIn(log[..|log| - 1], keys);
    }
  }

  // The largest of the first i + 1 bounds.
  function Reach(buckets: seq<real>, i: nat): (r: real)
    requires i < |buckets|
    ensures exists j :: 0 <= j <= i && buckets[j] == r
    ensures forall j :: 0 <= j <= i ==> buckets[j] <= r
  {
    if i == 0 then buckets[0]
    else
      var r := Reach(buckets, i - 1);
      if buckets[i] >= r then buckets[i] else r
  }

  /* --- bucket counters --- */

  function SumTo(counts: seq<nat>, i: nat): nat
    requires i <= |counts|
  {
    if i == 0 then 0 else SumTo(counts, i - 1) + counts[i - 1]
  }

  // The bucket the value falls into: the first whose bound is not below it.
  function BucketOf(buckets: seq<real>, v: real): (i: nat)
    ensures i <= |buckets|
    ensures i < |buckets| ==> v <= buckets[i]
    ensures forall j :: 0 <= j < i ==> v > buckets[j]
  {
    if buckets == [] || v <= buckets[0] then 0 else 1 + BucketOf(buckets[1..], v)
  }

  function Counted(counts: seq<nat>, at: nat): seq<nat> {
    if at < |counts| then counts[at := counts[at] + 1] else counts
  }

  lemma {:induction false} SumToCounted(counts: seq<nat>, at: nat, i: nat)
    requires i <= |counts|
    ensures SumTo(Counted(counts, at), i) == SumTo(counts, i) + if at < i then 1 else 0
  {
    if i == 0 {
    } else {
      SumToCounted(counts, at, i - 1);
    }
  }

  lemma {:induction false} SumToZeros(counts: seq<nat>, i: nat)
    requires i <= |counts| && forall k :: 0 <= k < |counts| ==> counts[k] == 0
    ensures SumTo(counts, i) == 0
  {
    if i == 0 {
    } else {
      SumToZeros(counts, i - 1);
    }
  }

  // A value lies in one of the first i + 1 buckets exactly when it is at most
  // the largest of their bounds.
  lemma BucketWithin(buckets: seq<real>, v: real, i: nat)
    requires i < |buckets|
    ensures BucketOf(buckets, v) <= i <==> v <= Reach(buckets, i)
  {
    if v <= Reach(buckets, i) {
      var j :| 0 <= j <= i && buckets[j] == Reach(buckets, i);
    }
  }

  // counts are the counters of key after log.
  ghost predicate CountsOf<L(!new)>(counts: seq<nat>, buckets: seq<real>, log: Log<L>, key: L) {
    |counts| == |buckets| && forall i :: 0 <= i < |buckets| ==> CumulativeAt(counts, buckets, log, key, i)
  }

  ghost predicate CumulativeAt<L(!new)>(counts: seq<nat>, buckets: seq<real>, log: Log<L>, key: L, i: nat)
    requires i < |counts| && i < |buckets|
  {
    SumTo(counts, i + 1) == CountAtMost(log, key, Reach(buckets, i))
  }

  lemma ObservedCounts<L(!new)>(counts: seq<nat>, buckets: seq<real>, log: Log<L>, key: L, v: real)
    requires CountsOf(counts, buckets, log, key)
    ensures CountsOf(Counted(counts, BucketOf(buckets, v)), buckets, log + [(key, v)], key)
  {
    var after := Counted(counts, BucketOf(buckets, v));
    forall i | 0 <= i < |buckets| ensures CumulativeAt(after, buckets, log + [(key, v)], key, i) {
      assert CumulativeAt(counts, buckets, log, key, i);
      SumToCounted(counts, BucketOf(buckets, v), i + 1);
      BucketWithin(buckets, v, i);
      assert (log + [(key, v)])[..|log|] == log;
    }
  }

  lemma OtherCounts<L(!new)>(counts: seq<nat>, buckets: seq<real>, log: Log<L>, key: L, o: (L, real))
    requires CountsOf(counts, buckets, log, key) && o.0 != key
    ensures CountsOf(counts, buckets, log + [o], key)
  {
    forall i | 0 <= i < |buckets| ensures CumulativeAt(counts, buckets, log + [o], key, i) {
      assert CumulativeAt(counts, buckets, log, key, i);
      assert (log + [o])[..|log|] == log;
    }
  }

  lemma {:induction false} NothingCounted<L(!new)>(log: Log<L>, key: L, bound: real)
    requires forall o <- log :: o.0 != key
    ensures CountAtMost(log, key, bound) == 0 && CountAll(log, key) == 0 && SumAll(log, key) == 0.0
  {
    if log == [] {
    } else {
      NothingCounted(log[..|log| - 1], key, bound);
    }
  }

  datatype Sample<L> = Sample(labels: L, buckets: seq<(real, nat)>, count: nat, sum: real)

  // (bound, cumulative count) for every bucket of key.
  ghost predicate BucketsOf<L(!new)>(result: seq<(real, nat)>, buckets: seq<real>, log: Log<L>, key: L) {
    && |result| == |buckets|
    && forall i :: 0 <= i < |buckets| ==> BucketAt(result[i], buckets, log, key, i)
  }

  ghost predicate BucketAt<L(!new)>(entry: (real, nat), buckets: seq<real>, log: Log<L>, key: L, i: nat)
    requires i < |buckets|
  {
    entry.0 == buckets[i] && entry.1 == CountAtMost(log, key, Reach(buckets, i))
  }

  ghost predicate Observed<L(!new)>(log: Log<L>, key: L) {
    exists o :: o in log && o.0 == key
  }

  lemma ObservedMore<L(!new)>(log: Log<L>, o: (L, real), key: L)
    ensures Observed(log + [o], key) <==> o.0 == key || Observed(log, key)
  {
    assert o in log + [o] && forall p :: p in log ==> p in log + [o];
  }

  ghost predicate Sampled<L(!new)>(results: seq<Sample<L>>, key: L) {
    exists s :: s in results && s.labels == key
  }

  type Counts<L> = map<L, seq<nat>>
  type Sums<L> = map<L, real>
  type Totals<L> = map<L, nat>

  // The three dicts are what counting the log afresh gives.
  ghost predicate AgreesWith<L(!new)>(buckets: seq<real>, counts: Counts<L>, sums: Sums<L>, totals: Totals<L>,
                                      log: Log<L>) {
    && counts.Keys == sums.Keys == totals.Keys
    && (forall key :: Observed(log, key) <==> key in totals)
    && (forall key <- totals :: CountsOf(counts[key], buckets, log, key)
          && totals[key] == CountAll(log, key) && sums[key] == SumAll(log, key))
  }

  lemma OneMore<L(!new)>(buckets: seq<real>, counts: Counts<L>, sums: Sums<L>, totals: Totals<L>, log: Log<L>, key: L,
                         v: real, own: seq<nat>)
    requires AgreesWith(buckets, counts, sums, totals, log) && CountsOf(own, buckets, log, key)
    ensures AgreesWith(buckets, counts[key := Counted(own, BucketOf(buckets, v))],
                       sums[key := (if key in sums then sums[key] else 0.0) + v],
                       totals[key := (if key in totals then totals[key] else 0) + 1], log + [(key, v)])
  {
    var log' := log + [(key, v)];
    assert log'[..|log|] == log;
    ObservedCounts(own, buckets, log, key, v);
    if key !in totals {
      assert !Observed(log, key);
      NothingCounted(log, key, 0.0);
    }
    forall k ensures Observed(log', k) <==> k == key || Observed(log, k) {
      ObservedMore(log, (key, v), k);
    }
    forall k | k in totals && k != key
      ensures CountsOf(counts[k], buckets, log', k) && totals[k] == CountAll(log', k) && sums[k] == SumAll(log', k)
    {
      OtherCounts(counts[k], buckets, log, k, (key, v));
    }
  }

  class Histogram<L(==, !new)> {
    const buckets: seq<real>
    var counts: Counts<L>
    var sums: Sums<L>
    var totals: Totals<L>
    ghost var log: Log<L>

    constructor (buckets: seq<real>)
      ensures Valid() && this.buckets == buckets && log == []
    {
      this.buckets := buckets;
      counts, sums, totals, log := map[], map[], map[], [];
    }

    ghost predicate Valid()
      reads this
    {
      AgreesWith(buckets, counts, sums, totals, log)
    }

    method Observe(v: real, key: L)
      requires Valid()
      modifies this
      ensures Valid() && log == old(log) + [(key, v)]
    {
      var own := Counters(key);
      var i := FindBucket(v);
      OneMore(buckets, counts, sums, totals, log, key, v, own);
      counts := counts[key := Counted(own, i)];
      sums := sums[key := (if key in sums then sums[key] else 0.0) + v];
      totals := totals[key := (if key in totals then totals[key] else 0) + 1];
      log := log + [(key, v)];
    }

    // for i, bound in enumerate(self.buckets): if value <= bound: ... break
    method FindBucket(v: real) returns (i: nat)
      ensures i == BucketOf(buckets, v)
    {
      i := 0;
      while i < |buckets|
        invariant i <= |buckets| && forall j :: 0 <= j < i ==> v > buckets[j]
      {
        if v <= buckets[i] {
          break;
        }
        i := i + 1;
      }
      FirstBucket(buckets, v, i);
    }

    // self._counts.get(key, [0] * len(self.buckets))
    method Counters(key: L) returns (own: seq<nat>)
      requires Valid()
      ensures CountsOf(own, buckets, log, key)
    {
      if key in counts {
        own := counts[key];
      } else {
        own := seq(|buckets|, _ => 0);
        assert !Observed(log, key);
        FreshCounts(own, buckets, log, key);
      }
    }

    // Cumulative counts per bucket for the labels; an unknown key counts zero.
    method GetBuckets(key: L) returns (result: seq<(real, nat)>)
      requires Valid()
      ensures BucketsOf(result, buckets, log, key)
    {
      var own := Counters(key);
      var cumulative := 0;
      result := [];
      var i := 0;
      while i < |buckets|
        invariant i <= |buckets| && |result| == i
        invariant cumulative == SumTo(own, i)
        invariant forall j :: 0 <= j < i ==> BucketAt(result[j], buckets, log, key, j)
      {
        assert CumulativeAt(own, buckets, log, key, i);
        cumulative := cumulative + own[i];
        assert BucketAt((buckets[i], cumulative), buckets, log, key, i);
        result := result + [(buckets[i], cumulative)];
        i := i + 1;
      }
    }

    lemma KeysCover()
      requires Valid()
      ensures forall o <- log :: o.0 in totals && o.0 in sums
    {
      forall o | o in log ensures o.0 in totals {
        assert Observed(log, o.0);
      }
    }

    // count: the totals of all label sets come to the number of observations.
    method Count() returns (n: nat)
      requires Valid()
      ensures n == |log|
    {
      n := 0;
      KeysCover();
      AllIn(log, totals.Keys);
      var rest := totals.Keys;
      assert totals.Keys - rest == {};
      while rest != {}
        invariant rest <= totals.Keys
        invariant n == CountIn(log, totals.Keys - rest)
      {
        var key :| key in rest;
        InOneMore(log, totals.Keys - rest, key);
        assert totals.Keys - (rest - {key}) == totals.Keys - rest + {key};
        n := n + totals[key];
        rest := rest - {key};
      }
      assert totals.Keys - rest == totals.Keys;
    }

    // sum: the sums of all label sets come to the sum of all observations.
    method Sum() returns (total: real)
      requires Valid()
      ensures total == SumLog(log)
    {
      total := 0.0;
      KeysCover();
      AllIn(log, sums.Keys);
      var rest := sums.Keys;
      assert sums.Keys - rest == {};
      while rest != {}
        invariant rest <= sums.Keys
        invariant total == SumIn(log, sums.Keys - rest)
      {
        var key :| key in rest;
        InOneMore(log, sums.Keys - rest, key);
        assert sums.Keys - (rest - {key}) == sums.Keys - rest + {key};
        total := total + sums[key];
        rest := rest - {key};
      }
      assert sums.Keys - rest == sums.Keys;
    }

    // One sample per label set ever observed.
    method Collect() returns (results: seq<Sample<L>>)
      requires Valid()
      ensures forall s <- results :: BucketsOf(s.buckets, buckets, log, s.labels)
                && s.count == CountAll(log, s.labels) && s.sum == SumAll(log, s.labels)
      ensures forall key :: Sampled(results, key) <==> Observed(log, key)
      ensures forall i, j :: 0 <= i < j < |results| ==> results[i].labels != results[j].labels
    {
      results := [];
      var rest := totals.Keys;
      while rest != {}
        invariant rest <= totals.Keys
        invariant forall s <- results :: BucketsOf(s.buckets, buckets, log, s.labels)
                    && s.count == CountAll(log, s.labels) && s.sum == SumAll(log, s.labels)
        invariant forall key :: Sampled(results, key) <==> key in totals.Keys - rest
        invariant forall i, j :: 0 <= i < j < |results| ==> results[i].labels != results[j].labels
      {
        var key :| key in rest;
        var bucketValues := GetBuckets(key);
        ghost var before := results;
        results := results + [Sample(key, bucketValues, totals[key], sums[key])];
        assert results[|before|].labels == key;
        forall k ensures Sampled(results, k) <==> k == key || Sampled(before, k) {
          assert results[|before|] in results && forall s :: s in before ==> s in results;
        }
        forall i | 0 <= i < |before| ensures before[i].labels != key {
          assert before[i] in before && Sampled(before, before[i].labels);
        }
        rest := rest - {key};
      }
    }
  }

  lemma FreshCounts<L(!new)>(counts: seq<nat>, buckets: seq<real>, log: Log<L>, key: L)
    requires |counts| == |buckets| && forall k :: 0 <= k < |counts| ==> counts[k] == 0
    requires forall o <- log :: o.0 != key
    ensures CountsOf(counts, buckets, log, key)
  {
    forall i | 0 <= i < |buckets| ensures CumulativeAt(counts, buckets, log, key, i) {
      SumToZeros(counts, i + 1);
      NothingCounted(log, key, Reach(buckets, i));
    }
  }

  lemma {:induction false} FirstBucket(buckets: seq<real>, v: real, i: nat)
    requires i <= |buckets| && (forall j :: 0 <= j < i ==> v > buckets[j]) && (i < |buckets| ==> v <= buckets[i])
    ensures BucketOf(buckets, v) == i
  {
  }

  /* --- what the cumulative counts mean --- */

  // Every reported count is the number of observations at most its own bound,
  // for every history of observations under the labels, exactly when the bounds ascend.
  lemma CountsOwnBoundIffAscending<L(!new)>(buckets: seq<real>, key: L)
    ensures Ascending(buckets, (a: real, b: real) => a <= b) <==>
            forall log: Log<L>, i :: 0 <= i < |buckets| ==>
                CountAtMost(log, key, Reach(buckets, i)) == CountAtMost(log, key, buckets[i])
  {
    var leq := (a: real, b: real) => a <= b;
    if Ascending(buckets, leq) {
      forall i | 0 <= i < |buckets| ensures Reach(buckets, i) == buckets[i] {
        var j :| 0 <= j <= i && buckets[j] == Reach(buckets, i);
        assert j < i ==> leq(buckets[j], buckets[i]);
      }
    }
    if !Ascending(buckets, leq) {
      var j, i :| 0 <= j < i < |buckets| && !leq(buckets[j], buckets[i]);
      var log := [(key, buckets[j])];
      assert log[..|log| - 1] == [];
      assert buckets[j] <= Reach(buckets, i) && buckets[j] > buckets[i];
      assert CountAtMost(log, key, Reach(buckets, i)) == 1;
      assert CountAtMost(log, key, buckets[i]) == 0;
    }
  }

  // The counts do not fall from bucket to bucket and never exceed the total.
  lemma {:induction false} CountsRise<L(!new)>(log: Log<L>, key: L, a: real, b: real)
    requires a <= b
    ensures CountAtMost(log, key, a) <= CountAtMost(log, key, b) <= CountAll(log, key)
  {
    if log == [] {
    } else {
      CountsRise(log[..|log| - 1], key, a, b);
    }
  }
}
