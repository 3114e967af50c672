/** Reading a regular file in fixed-size pieces: `f.read(size)` until it returns
    nothing, as the audio senders do. */
module FileChunks {
  import opened Wrappers
  import opened PyText

  /** `f.read(size)` on a regular file positioned at `pos`: the next `size`
      bytes, or what is left. */
  function Read(data: seq<byte>, pos: nat, size: nat): (r: seq<byte>)
    requires pos <= |data| && size > 0
    ensures |r| <= size && (r == [] <==> pos == |data|)
    ensures pos + |r| <= |data| && r == data[pos..pos + |r|]
    ensures |r| == size || pos + |r| == |data|
  {
    if |data| - pos < size then data[pos..] else data[pos..pos + size]
  }

  /** The successive reads from `pos` on, up to the empty read. */
  function Chunks(data: seq<byte>, pos: nat, size: nat): seq<seq<byte>>
    requires pos <= |data| && size > 0
    decreases |data| - pos
  {
    var chunk := Read(data, pos, size);
    if chunk == [] then [] else [chunk] + Chunks(data, pos + |chunk|, size)
  }

  /** One loop iteration: the read in hand, then the reads after it. */
  lemma ChunksStep(data: seq<byte>, pos: nat, size: nat, done: seq<seq<byte>>)
    requires pos <= |data| && size > 0 && Read(data, pos, size) != []
    ensures done + Chunks(data, pos, size) ==
            (done + [Read(data, pos, size)]) + Chunks(data, pos + |Read(data, pos, size)|, size)
  {
    assert Chunks(data, pos, size) == [Read(data, pos, size)] + Chunks(data, pos + |Read(data, pos, size)|, size);
  }

  /** The number of reads that return data from `k` bytes: ceil(k / size). */
  function Frames(k: nat, size: nat): nat
    requires size > 0
    decreases k
  {
    if k == 0 then 0 else 1 + Frames(if k < size then 0 else k - size, size)
  }

  /** Frames is the ceiling of k / size: enough frames for k bytes, and one
      frame fewer would not be. */
  lemma {:induction false} FramesCeil(k: nat, size: nat)
    requires size > 0
    ensures Frames(k, size) * size >= k
    ensures k > 0 ==> (Frames(k, size) - 1) * size < k
    decreases k
  {
    if k > 0 {
      var rest := if k < size then 0 else k - size;
      FramesCeil(rest, size);
      var f := Frames(rest, size);
      assert Frames(k, size) == f + 1;
      assert (f + 1) * size == f * size + size;
      if rest > 0 {
        assert (f - 1) * size + size == f * size;
      }
    }
  }

  /** One chunk per `size` bytes or part of it. */
  lemma {:induction false} ChunkCount(data: seq<byte>, pos: nat, size: nat)
    requires pos <= |data| && size > 0
    ensures |Chunks(data, pos, size)| == Frames(|data| - pos, size)
    decreases |data| - pos
  {
    var chunk := Read(data, pos, size);
    if chunk != [] {
      ChunkCount(data, pos + |chunk|, size);
      assert |data| - (pos + |chunk|) == if |data| - pos < size then 0 else |data| - pos - size;
    }
  }

  /** Every chunk is a non-empty read of at most `size` bytes, and every one but
      the last is exactly `size` bytes. */
  lemma {:induction false} ChunkSizes(data: seq<byte>, pos: nat, size: nat)
    requires pos <= |data| && size > 0
    ensures forall i :: 0 <= i < |Chunks(data, pos, size)| ==> 1 <= |Chunks(data, pos, size)[i]| <= size
    ensures forall i :: 0 <= i < |Chunks(data, pos, size)| - 1 ==> |Chunks(data, pos, size)[i]| == size
    decreases |data| - pos
  {
    var chunk := Read(data, pos, size);
    if chunk != [] {
      ChunkSizes(data, pos + |chunk|, size);
      var cs := Chunks(data, pos, size);
      var rest := Chunks(data, pos + |chunk|, size);
      assert cs == [chunk] + rest;
      forall i | 0 <= i < |cs| ensures 1 <= |cs[i]| <= size && (i < |cs| - 1 ==> |cs[i]| == size) {
        if i == 0 {
          assert cs[0] == chunk;
          if |cs| > 1 {
            assert rest != [];
          }
        } else {
          assert cs[i] == rest[i - 1];
        }
      }
    }
  }

  /** The chunks are the file from `pos` on, cut in order. */
  lemma {:induction false} ChunksCover(data: seq<byte>, pos: nat, size: nat)
    requires pos <= |data| && size > 0
    ensures Concat(Chunks(data, pos, size)) == data[pos..]
    decreases |data| - pos
  {
    var chunk := Read(data, pos, size);
    if chunk == [] {
      assert data[pos..] == [];
    } else {
      var next := pos + |chunk|;
      var rest := Chunks(data, next, size);
      calc {
        Concat(Chunks(data, pos, size));
        Concat([chunk] + rest);
        { ConcatCons(chunk, rest); }
        chunk + Concat(rest);
        { ChunksCover(data, next, size); }
        data[pos..next] + data[next..];
        data[pos..];
      }
    }
  }
}
