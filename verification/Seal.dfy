/**
 The chunked envelope between browser and agent: plaintext cut into chunks,
 each sealed under the index, the final bit and the frame's routing context.

 The cipher is an AEAD in the sense of section 2 of RFC 5116, known only
 through what its seal and open functions promise.
 */
module Seal {
  import opened Wrappers
  import opened Base64
  import opened Text
  import opened Transport

  datatype Aead = Aead(
    seal: (seq<byte>, seq<byte>, string) -> seq<byte>,
    open: (seq<byte>, seq<byte>, string) -> Option<seq<byte>>)

  /** The key agreement's outcome: one AEAD per direction and stream. */
  datatype Keys = Keys(derive: (string, string) -> Aead, send: string, receive: string)

  datatype Chunk = Chunk(index: nat, final: bool, data: string)

  datatype Sealed = Sealed(version: int, stream: string, chunks: seq<Chunk>)

  datatype Opened = Opened(contentType: seq<byte>, data: seq<byte>)

  function AeadFor(keys: Keys, stream: string, direction: string): Option<Aead> {
    var id := Decode(stream);
    if id.None? || |id.value| != 16 then None else Some(keys.derive(direction, stream))
  }

  function Nonce(index: nat): seq<byte> {
    [0, 0, 0, 0, 0, 0, 0, 0,
     index / 0x100_0000 % 256, index / 0x1_0000 % 256, index / 256 % 256, index % 256]
  }

  /** The number that bytes write in base 256, the most significant first. */
  function BigEndian(bytes: seq<byte>): nat {
    if bytes == [] then 0 else 256 * BigEndian(bytes[..|bytes| - 1]) + bytes[|bytes| - 1]
  }

  lemma FourBytes(n: seq<byte>)
    requires |n| == 4
    ensures
      var a: nat, b: nat, c: nat, d: nat := n[0], n[1], n[2], n[3];
      BigEndian(n) == 256 * (256 * (256 * a + b) + c) + d
  {
    assert n[..3][..2] == n[..2] && n[..2][..1] == n[..1] && n[..1][..0] == [];
    assert BigEndian(n[..1]) == n[0] as int;
    assert BigEndian(n[..2]) == 256 * BigEndian(n[..1]) + n[1] as int;
    assert BigEndian(n[..3]) == 256 * BigEndian(n[..2]) + n[2] as int;
  }

  lemma Digits(index: nat)
    requires index < 0x1_0000_0000
    ensures
      var a, b, c, d := index / 0x100_0000 % 256, index / 0x1_0000 % 256, index / 256 % 256, index % 256;
      256 * (256 * (256 * a + b) + c) + d == index
  {
    assert index / 0x1_0000 == index / 256 / 256 && index / 0x100_0000 == index / 256 / 256 / 256;
  }

  /** A nonce is eight zero bytes and the index in four, so it names the index. */
  lemma NonceNames(index: nat)
    requires index < 0x1_0000_0000
    ensures |Nonce(index)| == 12 && forall i | 0 <= i < 8 :: Nonce(index)[i] == 0
    ensures BigEndian(Nonce(index)[8..]) == index
  {
    var n := Nonce(index)[8..];
    FourBytes(n);
    Digits(index);
    hide BigEndian;
  }

  function Flag(final: bool): string { if final then "true" else "false" }

  function Associated(context: string, stream: string, index: nat, final: bool): string {
    "q15-content-chunk-v1\n" + context + "\n" + stream + "\n" + Decimal(index) + "\n" + Flag(final)
  }

  /** The associated data end with the final bit, spelled out. */
  lemma AssociatedEnds(context: string, stream: string, index: nat, final: bool)
    ensures
      var text := Associated(context, stream, index, final);
      && |text| >= 6 && "q15-content-chunk-v1\n" <= text
      && (text[|text| - 5..] == "\ntrue" <==> final) && (text[|text| - 6..] == "\nfalse" <==> !final)
  {
    var text := Associated(context, stream, index, final);
    var before := "q15-content-chunk-v1\n" + context + "\n" + stream + "\n" + Decimal(index);
    hide Decimal;
    assert text == before + (if final then "\ntrue" else "\nfalse");
    if final {
      assert text[|text| - 5..] == "\ntrue";
      assert text[|text| - 1] == 'e' && text[|text| - 5] == '\n';
    } else {
      assert text[|text| - 6..] == "\nfalse";
      assert text[|text| - 5] == 'f';
    }
  }

  lemma Middle(head: string, c: string, c': string, sep: string, tail: string)
    requires head + c + sep + tail == head + c' + sep + tail
    ensures c == c'
  {
    var x, y := head + c + sep + tail, head + c' + sep + tail;
    assert c == x[|head|..|x| - |sep| - |tail|] && c' == y[|head|..|y| - |sep| - |tail|];
  }

  /** For one stream the associated data tell context, index and final bit. */
  lemma AssociatedInjective(
    context: string, index: nat, final: bool, context': string, index': nat, final': bool, stream: string)
    requires Associated(context, stream, index, final) == Associated(context', stream, index', final')
    ensures context == context' && index == index' && final == final'
  {
    var head := "q15-content-chunk-v1\n";
    var x, y := head + context + "\n" + stream, head + context' + "\n" + stream;
    var s, t := x + "\n" + Decimal(index), y + "\n" + Decimal(index');
    var a, b := s + "\n" + Flag(final), t + "\n" + Flag(final');
    assert Associated(context, stream, index, final) == a && Associated(context', stream, index', final') == b;
    assert a[|a| - 2] == Flag(final)[|Flag(final)| - 2] && b[|b| - 2] == Flag(final')[|Flag(final')| - 2];
    assert final == final';
    assert s == a[..|a| - 1 - |Flag(final)|] && t == b[..|b| - 1 - |Flag(final')|];
    DigitTail(x, index, y, index', '\n');
    Middle(head, context, context', "\n", stream);
  }

  // ------------------------------------------------- sealing

  function Header(contentType: seq<byte>): seq<byte>
    requires |contentType| < 0x1_0000
  {
    [|contentType| / 256, |contentType| % 256] + contentType
  }

  function ChunkCount(plain: seq<byte>): nat {
    |plain| / CHUNK_BYTES + 1
  }

  /** The i-th chunk of plaintext; only the last is shorter than a full chunk. */
  function Segment(plain: seq<byte>, i: nat): seq<byte>
    requires i < ChunkCount(plain)
  {
    plain[i * CHUNK_BYTES..if (i + 1) * CHUNK_BYTES <= |plain| then (i + 1) * CHUNK_BYTES else |plain|]
  }

  predicate IsLast(plain: seq<byte>, i: nat) { i + 1 == ChunkCount(plain) }

  lemma SegmentSize(plain: seq<byte>, i: nat)
    requires i < ChunkCount(plain)
    ensures i * CHUNK_BYTES + |Segment(plain, i)| ==
            if IsLast(plain, i) then |plain| else (i + 1) * CHUNK_BYTES
    ensures |Segment(plain, i)| <= CHUNK_BYTES
    ensures IsLast(plain, i) <==> |Segment(plain, i)| < CHUNK_BYTES
  {
  }

  function Ciphertext(a: Aead, context: string, stream: string, plain: seq<byte>, i: nat): seq<byte>
    requires i < ChunkCount(plain)
  {
    a.seal(Nonce(i), Segment(plain, i), Associated(context, stream, i, IsLast(plain, i)))
  }

  function SealedChunk(a: Aead, context: string, stream: string, plain: seq<byte>, i: nat): Chunk
    requires i < ChunkCount(plain)
  {
    Chunk(i, IsLast(plain, i), Encode(Ciphertext(a, context, stream, plain, i)))
  }

  function SealAll(a: Aead, context: string, stream: string, plain: seq<byte>): seq<Chunk> {
    seq(ChunkCount(plain), i requires 0 <= i < ChunkCount(plain) => SealedChunk(a, context, stream, plain, i))
  }

  predicate Sealable(contentType: seq<byte>, data: seq<byte>) {
    1 <= |contentType| <= MAX_CONTENT_TYPE_BYTES && |data| <= MAX_ENVELOPE_BYTES
  }

  lemma SealedChunkIs(a: Aead, context: string, stream: string, plain: seq<byte>, i: nat)
    requires i < ChunkCount(plain)
    ensures
      var segment, final := Segment(plain, i), |Segment(plain, i)| < CHUNK_BYTES;
      SealedChunk(a, context, stream, plain, i) ==
      Chunk(i, final, Encode(a.seal(Nonce(i), segment, Associated(context, stream, i, final))))
  {
    SegmentSize(plain, i);
    hide Segment, Encode, Associated, Nonce;
  }

  lemma SealAllIs(a: Aead, context: string, stream: string, plain: seq<byte>, chunks: seq<Chunk>)
    requires |chunks| == ChunkCount(plain)
    requires forall j | 0 <= j < |chunks| :: chunks[j] == SealedChunk(a, context, stream, plain, j)
    ensures chunks == SealAll(a, context, stream, plain)
  {
    hide SealedChunk;
  }

  /** `id` are the sixteen random bytes that name the stream. */
  method SealStream(keys: Keys, contentType: seq<byte>, context: string, data: seq<byte>, id: seq<byte>)
    returns (ok: bool, stream: string, chunks: seq<Chunk>)
    requires |id| == 16
    ensures stream == Encode(id)
    ensures ok <==> Sealable(contentType, data)
    ensures ok <==> 1 <= |contentType| <= 1024 && |data| <= 16 * 1024 * 1024
    ensures ok ==>
      chunks == SealAll(keys.derive(keys.send, stream), context, stream, Header(contentType) + data)
  {
    hide Segment, Associated, Encode, Nonce, SealedChunk, SealAll;
    stream, chunks := Encode(id), [];
    if |contentType| == 0 || |contentType| > MAX_CONTENT_TYPE_BYTES {
      return false, stream, chunks;
    }
    var box := keys.derive(keys.send, stream);
    var header := Header(contentType);
    // The reader is cut one byte above the limit.
    var source := header + if |data| > MAX_ENVELOPE_BYTES then data[..MAX_ENVELOPE_BYTES + 1] else data;
    var index, total := 0, 0;
    while true
      invariant index < ChunkCount(source)
      invariant total == index * CHUNK_BYTES
      invariant |chunks| == index
      invariant forall j | 0 <= j < index :: chunks[j] == SealedChunk(box, context, stream, source, j)
      decreases ChunkCount(source) - index
    {
      var buffer := Segment(source, index);
      SegmentSize(source, index);
      SealedChunkIs(box, context, stream, source, index);
      total := total + |buffer|;
      if total > MAX_ENVELOPE_BYTES + |header| {
        return false, stream, chunks;
      }
      var final := |buffer| < CHUNK_BYTES;
      var sealed := box.seal(Nonce(index), buffer, Associated(context, stream, index, final));
      chunks := chunks + [Chunk(index, final, Encode(sealed))];
      if final {
        SealAllIs(box, context, stream, source, chunks);
        return true, stream, chunks;
      }
      index := index + 1;
    }
  }

  method Wrap(keys: Keys, contentType: seq<byte>, context: string, data: seq<byte>, id: seq<byte>)
    returns (ok: bool, value: Sealed)
    requires |id| == 16
    ensures ok <==> Sealable(contentType, data)
    ensures ok ==> value == Envelope(keys, contentType, context, data, Encode(id))
  {
    var stream, chunks;
    ok, stream, chunks := SealStream(keys, contentType, context, data, id);
    value := Sealed(1, stream, chunks);
  }

  function Envelope(keys: Keys, contentType: seq<byte>, context: string, data: seq<byte>, stream: string): Sealed
    requires |contentType| < 0x1_0000
  {
    Sealed(1, stream, SealAll(keys.derive(keys.send, stream), context, stream, Header(contentType) + data))
  }

  // ------------------------------------------------- opening

  /** Decoding and decrypting one chunk. */
  function Unlock(a: Aead, context: string, stream: string, c: Chunk): Option<seq<byte>> {
    if |c.data| > MAX_CHUNK_DATA_CHARS || Decode(c.data).None? then None
    else a.open(Nonce(c.index), Decode(c.data).value, Associated(context, stream, c.index, c.final))
  }

  /** The type header in front of the first chunk's data. */
  function Unwrap(plain: seq<byte>): Option<Opened> {
    if |plain| < 2 then None
    else
      var size: int := plain[0] as int * 256 + plain[1] as int;
      if size == 0 || size > MAX_CONTENT_TYPE_BYTES || size + 2 > |plain| then None
      else Some(Opened(plain[2..2 + size], plain[2 + size..]))
  }

  /** Reading the chunks from the i-th on, after `done` has been written. */
  function OpenFrom(
    a: Aead, context: string, stream: string, chunks: seq<Chunk>, i: nat, finished: bool, done: Opened)
    : Option<Opened>
    requires i <= |chunks|
    decreases |chunks| - i
  {
    if i == |chunks| then
      if finished then Some(done) else None
    else
      var c := chunks[i];
      var plain := Unlock(a, context, stream, c);
      if c.index != i || finished || plain.None? || (!c.final && |plain.value| != CHUNK_BYTES) then None
      else
        var part := if i == 0 then Unwrap(plain.value) else Some(Opened(done.contentType, plain.value));
        if part.None? || |done.data| + |part.value.data| > MAX_ENVELOPE_BYTES then None
        else
          OpenFrom(a, context, stream, chunks, i + 1, c.final,
            Opened(part.value.contentType, done.data + part.value.data))
  }

  function OpenAll(keys: Keys, value: Sealed, context: string): Option<Opened> {
    if value.version != 1 || |value.chunks| == 0 || |value.chunks| > MAX_ENVELOPE_CHUNKS then None
    else
      var box := AeadFor(keys, value.stream, keys.receive);
      if box.None? then None
      else OpenFrom(box.value, context, value.stream, value.chunks, 0, false, Opened([], []))
  }

  /** Reads chunks until they run out, writing plaintext as it goes; nothing
      counts before success. */
  method OpenStream(keys: Keys, stream: string, context: string, chunks: seq<Chunk>)
    returns (result: Option<Opened>)
    ensures
      var box := AeadFor(keys, stream, keys.receive);
      result == if box.None? then None
                else OpenFrom(box.value, context, stream, chunks, 0, false, Opened([], []))
  {
    hide AeadFor, Nonce, Associated, Decode, Unwrap;
    var found := AeadFor(keys, stream, keys.receive);
    if found.None? {
      return None;
    }
    var box := found.value;
    var contentType: seq<byte>, written: seq<byte> := [], [];
    var total, finished, index := 0, false, 0;
    while index < |chunks|
      invariant 0 <= index <= |chunks| && total == |written|
      invariant OpenFrom(box, context, stream, chunks, 0, false, Opened([], [])) ==
                OpenFrom(box, context, stream, chunks, index, finished, Opened(contentType, written))
    {
      var chunk := chunks[index];
      if chunk.index != index || finished || |chunk.data| > MAX_CHUNK_DATA_CHARS {
        return None;
      }
      var data := Decode(chunk.data);
      if data.None? {
        return None;
      }
      var unlocked := box.open(Nonce(chunk.index), data.value, Associated(context, stream, chunk.index, chunk.final));
      if unlocked.None? || (!chunk.final && |unlocked.value| != CHUNK_BYTES) {
        return None;
      }
      var plain := unlocked.value;
      if index == 0 {
        var first := Unwrap(plain);
        if first.None? {
          return None;
        }
        contentType, plain := first.value.contentType, first.value.data;
      }
      total := total + |plain|;
      if total > MAX_ENVELOPE_BYTES {
        return None;
      }
      written := written + plain;
      finished := chunk.final;
      index := index + 1;
    }
    return if finished then Some(Opened(contentType, written)) else None;
  }

  method Open(keys: Keys, value: Sealed, context: string) returns (result: Option<Opened>)
    ensures result == OpenAll(keys, value, context)
  {
    if value.version != 1 || |value.chunks| == 0 || |value.chunks| > MAX_ENVELOPE_CHUNKS {
      return None;
    }
    result := OpenStream(keys, value.stream, context, value.chunks);
  }

  // ------------------------------------------------- what the ciphers promise

  /** Opening undoes sealing for this nonce, plaintext and associated data. */
  predicate Opens(a: Aead, nonce: seq<byte>, plain: seq<byte>, ad: string) {
    a.open(nonce, a.seal(nonce, plain, ad), ad) == Some(plain)
  }

  ghost predicate Correct(a: Aead) {
    forall nonce, plain, ad :: Opens(a, nonce, plain, ad)
  }

  /** The tag adds a fixed number of bytes. */
  ghost predicate Expands(a: Aead) {
    forall nonce, plain, ad :: |a.seal(nonce, plain, ad)| == |plain| + TAG_BYTES
  }

  predicate Produced(
    a: Aead, context: string, stream: string, plain: seq<byte>, i: nat, nonce: seq<byte>, cipher: seq<byte>, ad: string)
  {
    && i < ChunkCount(plain)
    && nonce == Nonce(i)
    && ad == Associated(context, stream, i, IsLast(plain, i))
    && cipher == Ciphertext(a, context, stream, plain, i)
  }

  /** The ideal cipher that has sealed exactly this plaintext's chunks: it opens
      those ciphertexts, to what was sealed, and nothing else. */
  ghost predicate Ideal(a: Aead, context: string, stream: string, plain: seq<byte>) {
    forall nonce, cipher, ad ::
      && (a.open(nonce, cipher, ad).Some? ==>
            exists i: nat :: Produced(a, context, stream, plain, i, nonce, cipher, ad))
      && (forall i: nat | Produced(a, context, stream, plain, i, nonce, cipher, ad) ::
            a.open(nonce, cipher, ad) == Some(Segment(plain, i)))
  }

  ghost predicate OpensNothing(a: Aead) {
    forall nonce, cipher, ad :: a.open(nonce, cipher, ad).None?
  }
}
