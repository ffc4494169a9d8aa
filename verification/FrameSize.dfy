/**
 The JSON text of a sealed frame and its size: the server frame limit covers
 every payload and type the envelope admits.
 */
module FrameSize {
  import opened Base64
  import opened Text
  import opened Transport
  import opened Seal
  import opened SealTheorems

  function RenderChunk(c: Chunk): string {
    "{\"index\":" + Decimal(c.index) + ",\"final\":" + Flag(c.final) + ",\"data\":\"" + c.data + "\"}"
  }

  function RenderChunks(chunks: seq<Chunk>): string {
    if chunks == [] then ""
    else
      var rest, last := chunks[..|chunks| - 1], chunks[|chunks| - 1];
      RenderChunks(rest) + (if rest == [] then "" else ",") + RenderChunk(last)
  }

  function RenderSealed(value: Sealed): string {
    "{\"version\":1,\"stream\":\"" + value.stream + "\",\"chunks\":[" + RenderChunks(value.chunks) + "]}"
  }

  /** `head` is the frame up to its payload: version, id, type, time, sequence. */
  function RenderFrame(head: string, value: Sealed): string {
    head + RenderSealed(value) + "}"
  }

  lemma ChunkText(a: Aead, context: string, stream: string, plain: seq<byte>, i: nat)
    requires i < ChunkCount(plain) && i < 1000 && Expands(a)
    ensures 3 * |RenderChunk(SealedChunk(a, context, stream, plain, i))| <= 4 * |Segment(plain, i)| + 183
  {
    var c := SealedChunk(a, context, stream, plain, i);
    assert Pow10(3) == 10 * Pow10(2) && Pow10(2) == 10 * Pow10(1) && Pow10(1) == 10 * Pow10(0);
    DecimalLength(i, 3);
    var cipher := Ciphertext(a, context, stream, plain, i);
    assert |cipher| == |Segment(plain, i)| + TAG_BYTES;
    EncodeLength(cipher);
    assert |Flag(c.final)| <= 5;
    assert |RenderChunk(c)| == 9 + |Decimal(i)| + 9 + |Flag(c.final)| + 9 + |c.data| + 2;
    hide RenderChunk, Encode, Ciphertext, Segment, Decimal;
  }

  lemma RenderStep(chunks: seq<Chunk>, k: nat)
    requires 0 < k <= |chunks|
    ensures |RenderChunks(chunks[..k])| <= |RenderChunks(chunks[..k - 1])| + 1 + |RenderChunk(chunks[k - 1])|
  {
    assert chunks[..k][..k - 1] == chunks[..k - 1];
  }

  /** The bytes in the first k chunks. */
  function Covered(plain: seq<byte>, k: nat): nat {
    if k * CHUNK_BYTES < |plain| then k * CHUNK_BYTES else |plain|
  }

  lemma CoveredStep(plain: seq<byte>, k: nat)
    requires 0 < k <= ChunkCount(plain)
    ensures Covered(plain, k) == Covered(plain, k - 1) + |Segment(plain, k - 1)|
  {
    SegmentSize(plain, k - 1);
  }

  lemma {:induction false} ChunksText(a: Aead, context: string, stream: string, plain: seq<byte>, k: nat)
    requires k <= ChunkCount(plain) && k <= 1000 && Expands(a)
    ensures 3 * |RenderChunks(SealAll(a, context, stream, plain)[..k])| <= 4 * Covered(plain, k) + 186 * k
  {
    if k > 0 {
      var sealed := SealAll(a, context, stream, plain);
      assert sealed[k - 1] == SealedChunk(a, context, stream, plain, k - 1);
      hide *;
      ChunksText(a, context, stream, plain, k - 1);
      RenderStep(sealed, k);
      ChunkText(a, context, stream, plain, k - 1);
      CoveredStep(plain, k);
    }
  }

  /** Sealing stays within the chunk limit, and the whole frame with a header
      under 4 KiB stays within the server frame limit. */
  lemma FrameFits(
    keys: Keys, contentType: seq<byte>, context: string, data: seq<byte>, id: seq<byte>, head: string)
    requires Sealable(contentType, data) && |id| == 16 && |head| < 4096
    requires Expands(keys.derive(keys.send, Encode(id)))
    ensures
      var value := Envelope(keys, contentType, context, data, Encode(id));
      |value.chunks| <= MAX_ENVELOPE_CHUNKS && |RenderFrame(head, value)| <= MAX_SERVER_FRAME_BYTES
  {
    var stream := Encode(id);
    var a, whole := keys.derive(keys.send, stream), Whole(contentType, data);
    var value := Envelope(keys, contentType, context, data, stream);
    hide *;
    var n := ChunkCount(whole);
    EnvelopeIs(keys, contentType, context, data, stream);
    ChunkCountBound(contentType, data);
    AllChunks(a, context, stream, whole);
    AllFew(contentType, data);
    ChunksText(a, context, stream, whole, n);
    StreamLength(id);
    FrameText(head, value);
    WithinLimit(n, Covered(whole, n), |RenderChunks(value.chunks)|, |head| + 38 + |stream|);
  }

  lemma EnvelopeIs(keys: Keys, contentType: seq<byte>, context: string, data: seq<byte>, stream: string)
    requires Sealable(contentType, data)
    ensures
      var value := Envelope(keys, contentType, context, data, stream);
      && value.stream == stream
      && value.chunks == SealAll(keys.derive(keys.send, stream), context, stream, Whole(contentType, data))
  {
    hide SealAll;
  }

  lemma AllFew(contentType: seq<byte>, data: seq<byte>)
    requires Sealable(contentType, data)
    ensures
      var whole := Whole(contentType, data);
      var n := ChunkCount(whole);
      n <= 1000 && Covered(whole, n) <= MAX_ENVELOPE_BYTES + MAX_CONTENT_TYPE_BYTES + 2
  {
    ChunkCountBound(contentType, data);
  }

  lemma StreamLength(id: seq<byte>)
    requires |id| == 16
    ensures |Encode(id)| == 22
  {
    EncodeLength(id);
  }

  /** The arithmetic of the limit. */
  lemma WithinLimit(n: nat, covered: nat, text: nat, rest: nat)
    requires n <= MAX_ENVELOPE_CHUNKS
    requires covered <= MAX_ENVELOPE_BYTES + MAX_CONTENT_TYPE_BYTES + 2
    requires 3 * text <= 4 * covered + 186 * n && rest <= 4095 + 38 + 22
    ensures text + rest <= MAX_SERVER_FRAME_BYTES
  {
  }

  lemma AllChunks(a: Aead, context: string, stream: string, plain: seq<byte>)
    ensures
      var chunks := SealAll(a, context, stream, plain);
      |chunks| == ChunkCount(plain) && chunks[..ChunkCount(plain)] == chunks
  {
    hide SealedChunk;
  }

  lemma FrameText(head: string, value: Sealed)
    ensures |RenderFrame(head, value)| == |head| + 38 + |value.stream| + |RenderChunks(value.chunks)|
  {
    hide RenderChunks;
  }
}
