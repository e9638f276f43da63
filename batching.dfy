/** Batch partitioning of the move lookups: the list is cut into consecutive
    groups of at most `BatchSize`, the last one possibly shorter. */
module Batching {

  /** The largest number of lookups one group holds. */
  const BatchSize: nat := 10

  function Min(a: int, b: int): int {
    if a <= b then a else b
  }

  /** The groups the partitioning loop produces, as a specification: the first
      `size` elements (all of them when fewer remain), then the groups of the rest. */
  function Chunks<T>(s: seq<T>, size: nat): seq<seq<T>>
    requires size > 0
    decreases |s|
  {
    if |s| == 0 then []
    else if |s| <= size then [s]
    else [s[..size]] + Chunks(s[size..], size)
  }

  /** The groups laid end to end. */
  function Flatten<T>(groups: seq<seq<T>>): seq<T> {
    if |groups| == 0 then [] else groups[0] + Flatten(groups[1..])
  }

  lemma {:induction false} FlattenAppend<T>(xs: seq<seq<T>>, ys: seq<seq<T>>)
    ensures Flatten(xs + ys) == Flatten(xs) + Flatten(ys)
  {
    if |xs| > 0 {
      assert (xs + ys)[1..] == xs[1..] + ys;
      FlattenAppend(xs[1..], ys);
    } else {
      assert xs + ys == ys;
    }
  }

  /** Partitioning loses, duplicates and reorders nothing: the groups laid end to
      end give back the list. */
  lemma {:induction false} ChunksFlatten<T>(s: seq<T>, size: nat)
    requires size > 0
    ensures Flatten(Chunks(s, size)) == s
    decreases |s|
  {
    if |s| > size {
      ChunksFlatten(s[size..], size);
      assert s == s[..size] + s[size..];
    }
  }

  /** There are ceil(n / size) groups: none for an empty list, otherwise the
      fewest groups of `size` that hold all `n` elements. */
  lemma {:induction false} ChunksCount<T>(s: seq<T>, size: nat)
    requires size > 0
    ensures |s| == 0 ==> |Chunks(s, size)| == 0
    ensures |s| > 0 ==> (|Chunks(s, size)| - 1) * size < |s| <= |Chunks(s, size)| * size
    decreases |s|
  {
    if |s| > size {
      ChunksCount(s[size..], size);
      var n := |Chunks(s[size..], size)|;
      assert |Chunks(s, size)| == n + 1;
      assert (n + 1) * size == n * size + size;
    }
  }

  /** Every group is non-empty and holds at most `size` elements; every group but
      the last holds exactly `size`. */
  lemma {:induction false} ChunksShape<T>(s: seq<T>, size: nat, i: nat)
    requires size > 0
    requires i < |Chunks(s, size)|
    ensures 0 < |Chunks(s, size)[i]| <= size
    ensures i < |Chunks(s, size)| - 1 ==> |Chunks(s, size)[i]| == size
    decreases |s|
  {
    if |s| > size && i > 0 {
      ChunksShape(s[size..], size, i - 1);
    }
  }

  /** For a list of 101 moves: 11 groups, the last of them holding one move. */
  lemma ChunksOf101<T>(s: seq<T>)
    requires |s| == 101
    ensures |Chunks(s, BatchSize)| == 11
    ensures |Chunks(s, BatchSize)[10]| == 1
  {
    ChunksCount(s, BatchSize);
    assert |Chunks(s, BatchSize)| == 11;
    ChunksShape(s, BatchSize, 10);
    var c := Chunks(s, BatchSize);
    ChunksFlatten(s, BatchSize);
    assert c == c[..10] + [c[10]];
    FlattenAppend(c[..10], [c[10]]);
    assert |Flatten(c[..10])| == 100 by {
      forall j | 0 <= j < 10 ensures |c[j]| == 10 { ChunksShape(s, BatchSize, j); }
      SizesOfFull(c[..10], 10);
    }
    assert Flatten([c[10]]) == c[10];
  }

  /** Groups of `size` elements each lay end to end to `size` times as many. */
  lemma {:induction false} SizesOfFull<T>(groups: seq<seq<T>>, size: nat)
    requires forall j :: 0 <= j < |groups| ==> |groups[j]| == size
    ensures |Flatten(groups)| == |groups| * size
  {
    if |groups| > 0 {
      SizesOfFull(groups[1..], size);
    }
  }

  /** The partitioning loop of `getPokemonMoves`: starting at 0 and stepping by
      `BatchSize`, it appends the slice from `i` to `i + BatchSize` (cut at the end
      of the list, as `slice` does). */
  method PartitionBatches<T>(items: seq<T>) returns (batches: seq<seq<T>>)
    ensures batches == Chunks(items, BatchSize)
  {
    batches := [];
    var i := 0;
    while i < |items|
      invariant 0 <= i
      invariant batches + Chunks(items[Min(i, |items|)..], BatchSize) == Chunks(items, BatchSize)
    {
      var end := Min(i + BatchSize, |items|);
      var rest := items[i..];
      if |rest| > BatchSize {
        assert rest[..BatchSize] == items[i..end];
        assert rest[BatchSize..] == items[end..];
      } else {
        assert rest == items[i..end];
        assert items[end..] == [];
      }
      assert Chunks(rest, BatchSize) == [items[i..end]] + Chunks(items[end..], BatchSize);
      batches := batches + [items[i..end]];
      i := i + BatchSize;
    }
  }
}
