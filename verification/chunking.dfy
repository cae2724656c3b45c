/**
 * `send_message_in_chunks`: a reply longer than the transport accepts is sent
 * as consecutive slices of at most `max_chunk_size` characters.
 */
module Chunking {
  import opened Sequences

  /** The transport's per-message limit, the default `max_chunk_size`. */
  const MaxMessageLength: nat := 4096

  /** The pieces put back together in order. */
  function Concat(pieces: seq<string>): string
  {
    if pieces == [] then "" else pieces[0] + Concat(pieces[1..])
  }

  function Min(a: int, b: int): int {
    if a <= b then a else b
  }

  /** The slices `content[i:i + size]` for the offsets `i`, `i + size`, ... below `len(content)`. */
  function ChunksFrom(content: string, size: nat, i: nat): seq<string>
    requires size > 0
    decreases |content| - i
  {
    if i >= |content| then []
    else [content[i..Min(i + size, |content|)]] + ChunksFrom(content, size, i + size)
  }

  /** The chunks `send_message_in_chunks` sends, for offsets from 0 on. */
  function Chunks(content: string, size: nat): seq<string>
    requires size > 0
  {
    ChunksFrom(content, size, 0)
  }

  /** Put back together, the chunks from offset `i` are `content[i:]`. */
  lemma {:induction false} ChunksFromConcat(content: string, size: nat, i: nat)
    requires size > 0
    ensures Concat(ChunksFrom(content, size, i)) == content[Min(i, |content|)..]
    decreases |content| - i
  {
    if i < |content| {
      var chunk := content[i..Min(i + size, |content|)];
      var rest := ChunksFrom(content, size, i + size);
      ChunksFromConcat(content, size, i + size);
      assert ([chunk] + rest)[1..] == rest;
    }
  }

  /** No chunk from offset `i` on is empty or longer than `size`. */
  lemma {:induction false} ChunksFromSizes(content: string, size: nat, i: nat)
    requires size > 0
    ensures forall k | 0 <= k < |ChunksFrom(content, size, i)| :: 0 < |ChunksFrom(content, size, i)[k]| <= size
    decreases |content| - i
  {
    if i < |content| {
      ChunksFromSizes(content, size, i + size);
    }
  }

  /** The chunks put back together are the content, and each holds between 1 and `size` characters. */
  lemma ChunksCover(content: string, size: nat)
    requires size > 0
    ensures Concat(Chunks(content, size)) == content
    ensures forall k | 0 <= k < |Chunks(content, size)| :: 0 < |Chunks(content, size)[k]| <= size
  {
    ChunksFromConcat(content, size, 0);
    ChunksFromSizes(content, size, 0);
  }

  lemma MulMonotone(x: int, y: int, size: nat)
    requires x <= y
    ensures x * size <= y * size
  {
    assert y * size - x * size == (y - x) * size;
  }

  /** Integer division is determined by the bounds of its quotient. */
  lemma DivUnique(a: int, size: nat, q: int)
    requires size > 0 && q * size <= a < q * size + size
    ensures a / size == q
  {
    var q0 := a / size;
    assert q0 * size <= a < q0 * size + size;
    if q0 < q {
      MulMonotone(q0 + 1, q, size);
    } else if q0 > q {
      MulMonotone(q + 1, q0, size);
    }
  }

  /** The chunks from offset `i` are the fewest pieces of `size` characters that cover `content[i:]`. */
  lemma {:induction false} ChunkBounds(content: string, size: nat, i: nat)
    requires size > 0 && i <= |content|
    ensures (|ChunksFrom(content, size, i)| - 1) * size < |content| - i <= |ChunksFrom(content, size, i)| * size
    decreases |content| - i
  {
    var k := |ChunksFrom(content, size, i)|;
    if i == |content| {
    } else if i + size >= |content| {
      assert ChunksFrom(content, size, i + size) == [];
    } else {
      ChunkBounds(content, size, i + size);
      assert (k - 1) * size == (k - 2) * size + size;
      assert k * size == (k - 1) * size + size;
    }
  }

  /** There are ceil(len / size) chunks; in particular empty content gives none. */
  lemma ChunkCount(content: string, size: nat)
    requires size > 0
    ensures |Chunks(content, size)| == (|content| + size - 1) / size
    ensures content == [] <==> Chunks(content, size) == []
  {
    var k := |Chunks(content, size)|;
    ChunkBounds(content, size, 0);
    assert (k - 1) * size + size == k * size;
    DivUnique(|content| + size - 1, size, k);
  }

  lemma MulStep(k: int, size: nat)
    ensures (k - 1) * size + size == k * size
  {
  }

  /** Chunk `k` starts at offset `k * size` of the content. */
  lemma {:induction false} ChunkAt(content: string, size: nat, i: nat, k: nat)
    requires size > 0 && k < |ChunksFrom(content, size, i)|
    ensures i + k * size < |content|
    ensures ChunksFrom(content, size, i)[k] == content[i + k * size..Min(i + k * size + size, |content|)]
    decreases k
  {
    var chunks := ChunksFrom(content, size, i);
    var rest := ChunksFrom(content, size, i + size);
    assert i < |content|;
    assert chunks == [content[i..Min(i + size, |content|)]] + rest;
    if k > 0 {
      ChunkAt(content, size, i + size, k - 1);
      var start := i + k * size;
      assert start == (i + size) + (k - 1) * size by {
        MulStep(k, size);
      }
      assert chunks[k] == rest[k - 1];
    }
  }

  /**
   * The loop of `send_message_in_chunks`: the slices sent, in the order sent.
   * They are exactly `Chunks(content, maxChunkSize)`.
   */
  method SendMessageInChunks(content: string, maxChunkSize: nat) returns (sent: seq<string>)
    requires maxChunkSize > 0
    ensures sent == Chunks(content, maxChunkSize)
    ensures Concat(sent) == content
    ensures forall k | 0 <= k < |sent| :: 0 < |sent[k]| <= maxChunkSize
  {
    sent := [];
    var i := 0;
    while i < |content|
      invariant sent + ChunksFrom(content, maxChunkSize, i) == Chunks(content, maxChunkSize)
      decreases |content| - i
    {
      var chunk := content[i..Min(i + maxChunkSize, |content|)];
      assert ChunksFrom(content, maxChunkSize, i) == [chunk] + ChunksFrom(content, maxChunkSize, i + maxChunkSize);
      AppendAssoc(sent, [chunk], ChunksFrom(content, maxChunkSize, i + maxChunkSize));
      sent := sent + [chunk];
      i := i + maxChunkSize;
    }
    assert ChunksFrom(content, maxChunkSize, i) == [];
    ChunksCover(content, maxChunkSize);
  }
}
