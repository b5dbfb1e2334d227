// How the file list becomes chunks, and which chunks --chunks picks.
module ChunkPlan {
  import opened Wrappers
  import opened Ordering
  import opened ChunkRunner

  function Min(a: int, b: int): int {
    if a <= b then a else b
  }

  // len(range(0, n, size))
  function ChunkCount(n: nat, size: nat): (c: nat)
    requires size >= 1
    ensures c * size >= n
    ensures forall k :: 0 <= k < c ==> k * size < n
  {
    var c := (n + size - 1) / size;
    assert c * size >= n;
    assert forall k :: 0 <= k < c ==> k * size < n by {
      forall k | 0 <= k < c ensures k * size < n {
        MulMonotone(k, c - 1, size);
        assert (c - 1) * size == c * size - size;
      }
    }
    c
  }

  lemma MulMonotone(a: int, b: int, m: nat)
    requires a <= b
    ensures a * m <= b * m
  {
  }

  // [files[i : i + size] for i in range(0, len(files), size)]; an error below 1.
  function Partition(files: seq<string>, size: int): Option<seq<seq<string>>> {
    if size < 1 then None
    else Some(seq(ChunkCount(|files|, size), k requires 0 <= k < ChunkCount(|files|, size) =>
        Slice(files, k * size, size)))
  }

  // files[i : i + size]
  function Slice(files: seq<string>, i: nat, size: nat): seq<string>
    requires i <= |files|
  {
    files[i..Min(i + size, |files|)]
  }

  lemma SliceExtends(files: seq<string>, i: nat, size: nat)
    requires i <= |files|
    ensures files[..i] + Slice(files, i, size) == files[..Min(i + size, |files|)]
  {
  }

  function Concat(chunks: seq<seq<string>>): seq<string> {
    if chunks == [] then [] else Concat(chunks[..|chunks| - 1]) + chunks[|chunks| - 1]
  }

  lemma StepOver(k: nat, size: nat, n: nat)
    requires size >= 1 && 0 < k <= ChunkCount(n, size)
    ensures (k - 1) * size < n && k * size == (k - 1) * size + size
    ensures Min((k - 1) * size, n) == (k - 1) * size
  {
  }

  lemma {:induction false} ConcatPrefix(files: seq<string>, size: nat, k: nat)
    requires size >= 1
    requires k <= ChunkCount(|files|, size)
    ensures Concat(Partition(files, size).value[..k]) == files[..Min(k * size, |files|)]
  {
    var chunks := Partition(files, size).value;
    if k == 0 {
    } else {
      ConcatPrefix(files, size, k - 1);
      var i := (k - 1) * size;
      assert chunks[..k][..k - 1] == chunks[..k - 1] && chunks[..k][k - 1] == Slice(files, i, size);
      StepOver(k, size, |files|);
      SliceExtends(files, i, size);
    }
  }

  lemma ChunkLength(files: seq<string>, size: nat, k: nat)
    requires size >= 1 && k < ChunkCount(|files|, size)
    ensures 1 <= |Slice(files, k * size, size)| <= size
    ensures k < ChunkCount(|files|, size) - 1 ==> |Slice(files, k * size, size)| == size
  {
    assert (k + 1) * size == k * size + size;
  }

  // The chunks are consecutive nonempty slices of at most `size` files that
  // concatenate back to the list.
  lemma PartitionCovers(files: seq<string>, size: int)
    ensures Partition(files, size).None? <==> size < 1
    ensures size >= 1 ==>
              var chunks := Partition(files, size).value;
              && Concat(chunks) == files
              && (forall k :: 0 <= k < |chunks| ==> 1 <= |chunks[k]| <= size)
              && (forall k :: 0 <= k < |chunks| - 1 ==> |chunks[k]| == size)
  {
    if size >= 1 {
      var chunks := Partition(files, size).value;
      ConcatPrefix(files, size, |chunks|);
      assert chunks[..|chunks|] == chunks;
      assert files[..|files|] == files;
      forall k | 0 <= k < |chunks| ensures 1 <= |chunks[k]| <= size && (k < |chunks| - 1 ==> |chunks[k]| == size) {
        ChunkLength(files, size, k);
      }
    }
  }

  // A file of a duplicate-free concatenation lies in exactly one chunk.
  lemma {:induction false} InOneChunk(chunks: seq<seq<string>>, f: string) returns (k: nat)
    requires Distinct(Concat(chunks)) && f in Concat(chunks)
    ensures k < |chunks| && f in chunks[k]
    ensures forall j :: 0 <= j < |chunks| && f in chunks[j] ==> j == k
  {
    var init, last := chunks[..|chunks| - 1], chunks[|chunks| - 1];
    var whole := Concat(chunks);
    assert whole == Concat(init) + last;
    assert Distinct(Concat(init)) by {
      assert forall i :: 0 <= i < |Concat(init)| ==> Concat(init)[i] == whole[i];
    }
    if f in last {
      k := |chunks| - 1;
      var at :| 0 <= at < |last| && last[at] == f;
      assert whole[|Concat(init)| + at] == f;
      assert f !in Concat(init) by {
        assert forall i :: 0 <= i < |Concat(init)| ==> Concat(init)[i] == whole[i] != f;
      }
      forall j | 0 <= j < |chunks| && f in chunks[j] ensures j == k {
        if j < k {
          assert init[j] == chunks[j];
          ChunkInConcat(init, j, f);
          assert false;
        }
      }
    } else {
      k := InOneChunk(init, f);
      assert init[k] == chunks[k];
      forall j | 0 <= j < |chunks| && f in chunks[j] ensures j == k {
        assert j < |init| && init[j] == chunks[j];
      }
    }
  }

  lemma {:induction false} ChunkInConcat(chunks: seq<seq<string>>, j: nat, f: string)
    requires j < |chunks| && f in chunks[j]
    ensures f in Concat(chunks)
  {
    if j == |chunks| - 1 {
    } else {
      ChunkInConcat(chunks[..|chunks| - 1], j, f);
    }
  }

  lemma SortedPicks(picked: seq<nat>, leq: Order<nat>)
    requires Preorder(leq) && Distinct(picked)
    ensures Ascending(Sorted(picked, leq), leq) && Distinct(Sorted(picked, leq))
    ensures forall n :: n in picked <==> n in Sorted(picked, leq)
  {
    SortedAscends(picked, leq);
    SameMembers(picked, Sorted(picked, leq));
    DistinctByCount(picked);
    DistinctByCount(Sorted(picked, leq));
  }

  // --chunks: each part is a number, or not one. None is the refusal.
  method ParseChunkSelection(parts: seq<Option<nat>>, chunkCount: nat) returns (chosen: Option<seq<nat>>)
    ensures chosen.Some? <==>
            (forall i :: 0 <= i < |parts| ==> parts[i].Some? && 1 <= parts[i].value <= chunkCount) && Distinct(parts)
    ensures chosen.Some? ==> Ascending(chosen.value, (a, b) => a <= b) && Distinct(chosen.value)
    ensures chosen.Some? ==> forall n :: n in chosen.value <==> Some(n) in parts
  {
    var picked: seq<nat> := [];
    var i := 0;
    while i < |parts|
      invariant i <= |parts| && |picked| == i
      invariant forall j :: 0 <= j < i ==> parts[j] == Some(picked[j]) && 1 <= picked[j] <= chunkCount
      invariant Distinct(picked)
    {
      if parts[i].None? || !(1 <= parts[i].value <= chunkCount) {
        return None;
      }
      if parts[i].value in picked {
        assert exists j :: 0 <= j < i && parts[j] == parts[i];
        return None;
      }
      picked := picked + [parts[i].value];
      i := i + 1;
    }
    var leq := (a: nat, b: nat) => a <= b;
    SortedPicks(picked, leq);
    chosen := Some(Sorted(picked, leq));
    assert forall n :: n in picked <==> Some(n) in parts;
  }
}
