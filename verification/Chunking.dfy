/** Splitting a payload into uint32 rows, and scaling each row by the configured divisor. */
module Chunking {
  import opened Collections

  const UINT32_MAX := 0xFFFF_FFFF

  type positive = n: nat | 0 < n witness 1

  /** The chunks of `size`, largest first, and what is left for the last one. */
  function Chunks(size: nat): (chunks: seq<nat>)
    ensures forall i | 0 <= i < |chunks| :: 0 < chunks[i] <= UINT32_MAX
    ensures size > 0 ==> chunks != []
  {
    if size == 0 then []
    else
      var chunk := Min(size, UINT32_MAX);
      [chunk] + Chunks(size - chunk)
  }

  /** A row's bytes after scaling: rounded up, at least 1. */
  function Scaled(chunk: nat, divisor: positive): nat
  {
    if divisor == 1 then chunk else 1 + (chunk - 1) / divisor
  }

  function Sum(s: seq<nat>): nat {
    if s == [] then 0 else s[0] + Sum(s[1..])
  }

  function ScaledAll(chunks: seq<nat>, divisor: positive): (r: seq<nat>)
    ensures |r| == |chunks|
  {
    if chunks == [] then [] else [Scaled(chunks[0], divisor)] + ScaledAll(chunks[1..], divisor)
  }

  /** The first chunk and the rest. */
  lemma ChunkStep(size: nat, divisor: positive)
    ensures size == 0 ==> ScaledAll(Chunks(size), divisor) == []
    ensures size > 0 ==> var rest := size - Min(size, UINT32_MAX);
              ScaledAll(Chunks(size), divisor)
              == [Scaled(Min(size, UINT32_MAX), divisor)] + ScaledAll(Chunks(rest), divisor)
              && |Chunks(size)| == 1 + |Chunks(rest)|
  {
  }

  lemma {:induction false} ChunksSum(size: nat)
    ensures Sum(Chunks(size)) == size
    ensures |Chunks(size)| == (size + UINT32_MAX - 1) / UINT32_MAX
  {
    if size > 0 {
      ChunksSum(size - Min(size, UINT32_MAX));
    }
  }

  lemma CeilBounds(chunk: nat, divisor: positive)
    requires chunk > 0
    ensures Scaled(chunk, divisor) >= 1
    ensures chunk <= Scaled(chunk, divisor) * divisor < chunk + divisor
  {
    if divisor > 1 {
      var q, r := (chunk - 1) / divisor, (chunk - 1) % divisor;
      assert chunk - 1 == q * divisor + r;
      assert (q + 1) * divisor == q * divisor + divisor;
    }
  }

  lemma Distribute(a: nat, b: nat, d: nat)
    ensures (a + b) * d == a * d + b * d
  {
  }

  /** Byte conservation: with divisor d the rows total at least bytes/d and less than bytes/d plus the
      number of rows; with divisor 1 exactly the bytes. */
  lemma {:induction false} ScaledSum(chunks: seq<nat>, divisor: positive)
    requires forall i | 0 <= i < |chunks| :: chunks[i] > 0
    ensures Sum(chunks) <= Sum(ScaledAll(chunks, divisor)) * divisor
    ensures chunks != [] ==> Sum(ScaledAll(chunks, divisor)) * divisor < Sum(chunks) + |chunks| * divisor
    ensures divisor == 1 ==> Sum(ScaledAll(chunks, divisor)) == Sum(chunks)
  {
    if chunks != [] {
      var rest := chunks[1..];
      ScaledSum(rest, divisor);
      CeilBounds(chunks[0], divisor);
      var first, total := Scaled(chunks[0], divisor), Sum(ScaledAll(rest, divisor));
      assert ScaledAll(chunks, divisor) == [first] + ScaledAll(rest, divisor);
      assert ([first] + ScaledAll(rest, divisor))[1..] == ScaledAll(rest, divisor);
      Distribute(first, total, divisor);
      Distribute(1, |rest|, divisor);
      if rest == [] {
        assert Sum(rest) == 0 && total == 0;
      }
    }
  }
}
