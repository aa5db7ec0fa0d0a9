/** `partition`: splitting a list into at most `n` roughly equal chunks. */
module Partitioning {
  import opened Entities

  function Flatten<T>(chunks: seq<seq<T>>): seq<T> {
    if chunks == [] then [] else Flatten(chunks[..|chunks| - 1]) + chunks[|chunks| - 1]
  }

  /** Exactly `min(n, |data|)` non-empty chunks, in order, that make up the data; the longer
      chunks come first and no two lengths differ by more than one. */
  ghost predicate IsFair<T>(data: seq<T>, n: int, chunks: seq<seq<T>>) {
    && Flatten(chunks) == data
    && |chunks| == (if n < |data| then n else |data|)
    && (forall i :: 0 <= i < |chunks| ==> chunks[i] != [])
    && Levelled(chunks)
  }

  ghost predicate Levelled<T>(chunks: seq<seq<T>>) {
    forall i, j :: 0 <= i < j < |chunks| ==> |chunks[j]| <= |chunks[i]| <= |chunks[j]| + 1
  }

  /** Where chunk `i` starts. */
  function Start(size: nat, extra: nat, i: nat): nat { i * size + if i < extra then i else extra }

  lemma Distributes(a: nat, b: nat, size: nat)
    ensures (a + b) * size == a * size + b * size && b * size >= 0
  {
  }

  lemma StartGrows(size: nat, extra: nat, i: nat, m: nat)
    requires i < m && extra < m
    ensures Start(size, extra, i + 1) == Start(size, extra, i) + size + if i < extra then 1 else 0
    ensures Start(size, extra, i + 1) <= m * size + extra
  {
    Distributes(i, 1, size);
    Distributes(i + 1, m - i - 1, size);
  }

  /** `divmod` of the length by the number of chunks. */
  lemma Divided(total: nat, m: nat)
    requires 0 < m <= total
    ensures total == m * (total / m) + total % m && total / m >= 1 && 0 <= total % m < m
  {
  }

  lemma FlattenOneMore<T>(data: seq<T>, chunks: seq<seq<T>>, start: nat, length: nat)
    requires start + length <= |data| && Flatten(chunks) == data[..start]
    ensures Flatten(chunks + [data[start..start + length]]) == data[..start + length]
  {
    var more := chunks + [data[start..start + length]];
    assert more[..|more| - 1] == chunks;
  }

  /** The first `extra` chunks have one element more than the others. */
  predicate Sized<T>(chunks: seq<seq<T>>, size: nat, extra: nat) {
    forall k :: 0 <= k < |chunks| ==> |chunks[k]| == size + if k < extra then 1 else 0
  }

  lemma SizedOneMore<T>(chunks: seq<seq<T>>, size: nat, extra: nat, chunk: seq<T>)
    requires Sized(chunks, size, extra) && |chunk| == size + if |chunks| < extra then 1 else 0
    ensures Sized(chunks + [chunk], size, extra)
  {
  }

  lemma SizedIsLevelled<T>(chunks: seq<seq<T>>, size: nat, extra: nat)
    requires Sized(chunks, size, extra) && size >= 1
    ensures Levelled(chunks) && forall i :: 0 <= i < |chunks| ==> chunks[i] != []
  {
  }

  method Partition<T>(data: seq<T>, n: int) returns (r: Result<seq<seq<T>>>)
    ensures r.Ok? <==> n >= 1
    ensures r.Ok? ==> IsFair(data, n, r.value)
  {
    if n < 1 { return Err("num_partitions must be at least 1"); }
    if |data| == 0 { return Ok([]); }
    var m := if n < |data| then n else |data|;
    var size, extra := |data| / m, |data| % m;
    Divided(|data|, m);
    var chunks, start := [], 0;
    for i := 0 to m
      invariant |chunks| == i && start == Start(size, extra, i) <= |data|
      invariant Flatten(chunks) == data[..start] && Sized(chunks, size, extra)
    {
      StartGrows(size, extra, i, m);
      var length := size + if i < extra then 1 else 0;
      FlattenOneMore(data, chunks, start, length);
      SizedOneMore(chunks, size, extra, data[start..start + length]);
      chunks := chunks + [data[start..start + length]];
      start := start + length;
    }
    SizedIsLevelled(chunks, size, extra);
    assert data[..start] == data;
    return Ok(chunks);
  }

  // ----- The properties leave no choice -----

  lemma {:induction false} FlattenFront<T>(chunks: seq<seq<T>>)
    requires chunks != []
    ensures Flatten(chunks) == chunks[0] + Flatten(chunks[1..])
    decreases |chunks|
  {
    var last := |chunks| - 1;
    if last > 0 {
      FlattenFront(chunks[..last]);
      assert chunks[..last][1..] == chunks[1..][..last - 1];
    }
  }

  /** A list of chunks none of which is longer than its counterpart holds no more. */
  lemma {:induction false} ShorterHoldsLess<T>(a: seq<seq<T>>, b: seq<seq<T>>)
    requires |a| == |b| && forall i :: 0 <= i < |a| ==> |a[i]| <= |b[i]|
    ensures |Flatten(a)| <= |Flatten(b)|
    decreases |a|
  {
    if a != [] { ShorterHoldsLess(a[..|a| - 1], b[..|b| - 1]); }
  }

  lemma FirstNotLonger<T>(a: seq<seq<T>>, b: seq<seq<T>>)
    requires |a| == |b| > 0 && Levelled(a) && Levelled(b) && |Flatten(a)| == |Flatten(b)|
    ensures |b[0]| <= |a[0]|
  {
    FlattenFront(a);
    FlattenFront(b);
    if |a[0]| < |b[0]| {
      ShorterHoldsLess(a[1..], b[1..]);
    }
  }

  lemma {:induction false} LevelledIsUnique<T>(a: seq<seq<T>>, b: seq<seq<T>>)
    requires |a| == |b| && Levelled(a) && Levelled(b) && Flatten(a) == Flatten(b)
    ensures a == b
    decreases |a|
  {
    if a != [] {
      FirstNotLonger(a, b);
      FirstNotLonger(b, a);
      FlattenFront(a);
      FlattenFront(b);
      assert a[0] == Flatten(a)[..|a[0]|] && b[0] == Flatten(b)[..|b[0]|];
      assert Flatten(a[1..]) == Flatten(a)[|a[0]|..] && Flatten(b[1..]) == Flatten(b)[|b[0]|..];
      LevelledIsUnique(a[1..], b[1..]);
      assert a == [a[0]] + a[1..] && b == [b[0]] + b[1..];
    }
  }

  /** Being fair determines the partition. */
  lemma FairIsUnique<T>(data: seq<T>, n: int, a: seq<seq<T>>, b: seq<seq<T>>)
    requires IsFair(data, n, a) && IsFair(data, n, b)
    ensures a == b
  {
    LevelledIsUnique(a, b);
  }
}
