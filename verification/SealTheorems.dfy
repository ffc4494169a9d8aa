/** What opening gives back, and what it refuses. */
module SealTheorems {
  import opened Wrappers
  import opened Base64
  import opened Text
  import opened Transport
  import opened Seal

  function Whole(contentType: seq<byte>, data: seq<byte>): seq<byte>
    requires |contentType| < 0x1_0000
  {
    Header(contentType) + data
  }

  /** A chunk that stands at its place and unlocks to its segment. */
  predicate Good(a: Aead, context: string, stream: string, plain: seq<byte>, j: nat, c: Chunk) {
    && j < ChunkCount(plain)
    && c.index == j
    && c.final == IsLast(plain, j)
    && Unlock(a, context, stream, c) == Some(Segment(plain, j))
  }

  /** What has been written after the first i chunks. */
  function After(contentType: seq<byte>, data: seq<byte>, i: nat): Opened
    requires Sealable(contentType, data)
  {
    var whole, h := Whole(contentType, data), |contentType| + 2;
    if i == 0 then Opened([], [])
    else Opened(contentType, whole[h..if i * CHUNK_BYTES < |whole| then i * CHUNK_BYTES else |whole|])
  }

  lemma AfterAll(contentType: seq<byte>, data: seq<byte>)
    requires Sealable(contentType, data)
    ensures After(contentType, data, ChunkCount(Whole(contentType, data))) == Opened(contentType, data)
  {
    assert Whole(contentType, data)[|contentType| + 2..] == data;
  }

  /** The first chunk carries the whole type header. */
  lemma FirstPart(contentType: seq<byte>, data: seq<byte>)
    requires Sealable(contentType, data)
    ensures
      var whole := Whole(contentType, data);
      Unwrap(Segment(whole, 0)) == Some(After(contentType, data, 1))
  {
    var whole, h := Whole(contentType, data), |contentType| + 2;
    var s := Segment(whole, 0);
    assert |whole| >= h && |s| >= h;
    assert s[0] == |contentType| / 256 && s[1] == |contentType| % 256;
    assert forall k | 0 <= k < |contentType| :: s[2 + k] == Header(contentType)[2 + k] == contentType[k];
    assert s[2..h] == contentType;
    assert s[h..] == whole[h..|s|];
  }

  lemma NextPart(contentType: seq<byte>, data: seq<byte>, i: nat)
    requires Sealable(contentType, data) && 0 < i < ChunkCount(Whole(contentType, data))
    ensures
      var whole := Whole(contentType, data);
      After(contentType, data, i + 1) ==
      Opened(contentType, After(contentType, data, i).data + Segment(whole, i))
  {
  }

  lemma AfterSize(contentType: seq<byte>, data: seq<byte>, i: nat)
    requires Sealable(contentType, data)
    ensures |After(contentType, data, i).data| <= MAX_ENVELOPE_BYTES
  {
  }

  /** The chunks from the i-th on are good. */
  predicate GoodFrom(a: Aead, context: string, stream: string, plain: seq<byte>, chunks: seq<Chunk>, i: nat) {
    forall j | i <= j < |chunks| :: Good(a, context, stream, plain, j, chunks[j])
  }

  lemma GoodFromStep(a: Aead, context: string, stream: string, plain: seq<byte>, chunks: seq<Chunk>, i: nat)
    requires i < |chunks|
    ensures GoodFrom(a, context, stream, plain, chunks, i) <==>
      Good(a, context, stream, plain, i, chunks[i]) && GoodFrom(a, context, stream, plain, chunks, i + 1)
  {
    hide Good;
  }

  /** If every chunk that unlocks at its place is good, reading on from a right
      state succeeds exactly when all the rest are good and none is missing or
      to spare, and then gives the sealed content. */
  lemma {:induction false} OpenRun(
    a: Aead, context: string, stream: string, chunks: seq<Chunk>, contentType: seq<byte>, data: seq<byte>, i: nat)
    requires Sealable(contentType, data)
    requires i <= |chunks| && i <= ChunkCount(Whole(contentType, data))
    requires forall j | 0 <= j < |chunks| && chunks[j].index == j && Unlock(a, context, stream, chunks[j]).Some? ::
      Good(a, context, stream, Whole(contentType, data), j, chunks[j])
    ensures
      var whole := Whole(contentType, data);
      OpenFrom(a, context, stream, chunks, i, i == ChunkCount(whole), After(contentType, data, i)) ==
      if |chunks| == ChunkCount(whole) && GoodFrom(a, context, stream, whole, chunks, i)
      then Some(Opened(contentType, data)) else None
    decreases |chunks| - i
  {
    var whole := Whole(contentType, data);
    hide *;
    if i < |chunks| && i < ChunkCount(whole) && chunks[i].index == i && Unlock(a, context, stream, chunks[i]).Some? {
      assert Good(a, context, stream, whole, i, chunks[i]);
      OpenStep(a, context, stream, chunks, contentType, data, i);
      GoodFromStep(a, context, stream, whole, chunks, i);
      OpenRun(a, context, stream, chunks, contentType, data, i + 1);
    } else {
      OpenHalts(a, context, stream, chunks, contentType, data, i);
    }
  }

  /** Where no further chunk unlocks, reading is done or has failed. */
  lemma OpenHalts(
    a: Aead, context: string, stream: string, chunks: seq<Chunk>, contentType: seq<byte>, data: seq<byte>, i: nat)
    requires Sealable(contentType, data)
    requires i <= |chunks| && i <= ChunkCount(Whole(contentType, data))
    requires i == |chunks| || i == ChunkCount(Whole(contentType, data)) ||
             chunks[i].index != i || Unlock(a, context, stream, chunks[i]).None?
    ensures
      var whole := Whole(contentType, data);
      OpenFrom(a, context, stream, chunks, i, i == ChunkCount(whole), After(contentType, data, i)) ==
      if |chunks| == ChunkCount(whole) && GoodFrom(a, context, stream, whole, chunks, i)
      then Some(Opened(contentType, data)) else None
  {
    var whole := Whole(contentType, data);
    hide After, Whole, Segment, Unwrap, Sealable, Unlock;
    AfterAll(contentType, data);
    if i < |chunks| && i < ChunkCount(whole) {
      GoodUnlocks(a, context, stream, whole, i, chunks[i]);
    }
  }

  lemma GoodUnlocks(a: Aead, context: string, stream: string, whole: seq<byte>, i: nat, c: Chunk)
    ensures Good(a, context, stream, whole, i, c) ==> c.index == i && Unlock(a, context, stream, c).Some?
  {
  }

  lemma OpenStep(
    a: Aead, context: string, stream: string, chunks: seq<Chunk>, contentType: seq<byte>, data: seq<byte>, i: nat)
    requires Sealable(contentType, data) && i < |chunks|
    requires Good(a, context, stream, Whole(contentType, data), i, chunks[i])
    ensures
      var n := ChunkCount(Whole(contentType, data));
      && i + 1 <= n
      && OpenFrom(a, context, stream, chunks, i, false, After(contentType, data, i)) ==
         OpenFrom(a, context, stream, chunks, i + 1, i + 1 == n, After(contentType, data, i + 1))
  {
    var whole := Whole(contentType, data);
    SegmentSize(whole, i);
    AfterSize(contentType, data, i + 1);
    if i == 0 {
      FirstPart(contentType, data);
      assert [] + After(contentType, data, 1).data == After(contentType, data, 1).data;
      assert After(contentType, data, 0) == Opened([], []);
    } else {
      NextPart(contentType, data, i);
      assert After(contentType, data, i).contentType == contentType;
    }
    hide Segment, After, Whole, Unlock, Unwrap, Sealable;
  }

  lemma ChunkCountBound(contentType: seq<byte>, data: seq<byte>)
    requires Sealable(contentType, data)
    ensures 1 <= ChunkCount(Whole(contentType, data)) <= MAX_ENVELOPE_CHUNKS
  {
  }

  /** No two chunks of one stream are sealed under the same nonce. */
  lemma NoncesDiffer(contentType: seq<byte>, data: seq<byte>, i: nat, j: nat)
    requires Sealable(contentType, data) && i < j < ChunkCount(Whole(contentType, data))
    ensures Nonce(i) != Nonce(j)
  {
    ChunkCountBound(contentType, data);
    NonceNames(i);
    NonceNames(j);
    hide Nonce, BigEndian, ChunkCount, Whole;
  }

  lemma StreamNamesKey(keys: Keys, id: seq<byte>, direction: string)
    requires |id| == 16
    ensures AeadFor(keys, Encode(id), direction) == Some(keys.derive(direction, Encode(id)))
  {
    EncodeIsDense(id);
    StripDense(Encode(id));
    DecodesTo(Encode(id), id);
  }

  ghost predicate Peers(sender: Keys, receiver: Keys) {
    sender.derive == receiver.derive && sender.send == receiver.receive
  }

  lemma ChunkFits(a: Aead, context: string, stream: string, plain: seq<byte>, i: nat)
    requires i < ChunkCount(plain) && Expands(a)
    ensures |SealedChunk(a, context, stream, plain, i).data| <= MAX_CHUNK_DATA_CHARS
  {
    SegmentSize(plain, i);
    EncodeLength(Ciphertext(a, context, stream, plain, i));
  }

  /** Opening what was wrapped gives back the type and the data. */
  lemma OpenInvertsWrap(
    sender: Keys, receiver: Keys, contentType: seq<byte>, context: string, data: seq<byte>, id: seq<byte>)
    requires Peers(sender, receiver) && |id| == 16 && Sealable(contentType, data)
    requires Correct(sender.derive(sender.send, Encode(id))) && Expands(sender.derive(sender.send, Encode(id)))
    ensures OpenAll(receiver, Envelope(sender, contentType, context, data, Encode(id)), context) ==
            Some(Opened(contentType, data))
  {
    var stream := Encode(id);
    var a, whole := sender.derive(sender.send, stream), Whole(contentType, data);
    var chunks := SealAll(a, context, stream, whole);
    StreamNamesKey(receiver, id, receiver.receive);
    ChunkCountBound(contentType, data);
    forall j | 0 <= j < |chunks| ensures Good(a, context, stream, whole, j, chunks[j]) {
      ChunkFits(a, context, stream, whole, j);
      var cipher := Ciphertext(a, context, stream, whole, j);
      EncodeIsDense(cipher);
      StripDense(Encode(cipher));
      DecodesTo(Encode(cipher), cipher);
      assert Opens(a, Nonce(j), Segment(whole, j), Associated(context, stream, j, IsLast(whole, j)));
    }
    OpenRun(a, context, stream, chunks, contentType, data, 0);
  }

  // ------------------------------------------------- refusal

  /** Line breaks in the text of the data aside, the chunks are the same. */
  predicate SameChunk(c: Chunk, sealed: Chunk) {
    && c.index == sealed.index && c.final == sealed.final
    && Strip(c.data) == sealed.data && |c.data| <= MAX_CHUNK_DATA_CHARS
  }

  predicate SameChunks(chunks: seq<Chunk>, sealed: seq<Chunk>) {
    |chunks| == |sealed| && forall i | 0 <= i < |chunks| :: SameChunk(chunks[i], sealed[i])
  }

  /** Under the ideal cipher a chunk unlocks at its place only if it is the
      sealed one and the context is the one sealed under. */
  lemma UnlockIdeal(
    a: Aead, context: string, stream: string, plain: seq<byte>, context': string, j: nat, c: Chunk)
    requires Ideal(a, context, stream, plain) && c.index == j
    ensures Unlock(a, context', stream, c).Some? ==> Good(a, context', stream, plain, j, c)
    ensures Good(a, context', stream, plain, j, c) <==>
      context' == context && j < ChunkCount(plain) && SameChunk(c, SealedChunk(a, context, stream, plain, j))
  {
    var nonce, ad := Nonce(j), Associated(context', stream, j, c.final);
    if Unlock(a, context', stream, c).Some? {
      var cipher := Decode(c.data).value;
      var i: nat :| Produced(a, context, stream, plain, i, nonce, cipher, ad);
      AssociatedInjective(context', j, c.final, context, i, IsLast(plain, i), stream);
      DecodesTo(c.data, cipher);
    } else if context' == context && j < ChunkCount(plain) && SameChunk(c, SealedChunk(a, context, stream, plain, j)) {
      var cipher := Ciphertext(a, context, stream, plain, j);
      DecodesTo(c.data, cipher);
      assert Produced(a, context, stream, plain, j, nonce, cipher, ad);
    }
  }

  predicate Accepted(value: Sealed, context': string, envelope: Sealed, context: string) {
    && value.version == 1 && value.stream == envelope.stream && context' == context
    && SameChunks(value.chunks, envelope.chunks)
  }

  /** When the keys have sealed one envelope and nothing else, opening succeeds
      exactly on that envelope under its context, line breaks in the encoded
      data aside, and then gives back what was sealed. */
  lemma OpensExactly(
    sender: Keys, receiver: Keys, contentType: seq<byte>, context: string, data: seq<byte>, id: seq<byte>,
    value: Sealed, context': string)
    requires Peers(sender, receiver) && |id| == 16 && Sealable(contentType, data)
    requires Ideal(sender.derive(sender.send, Encode(id)), context, Encode(id), Whole(contentType, data))
    requires forall other | other != Encode(id) :: OpensNothing(sender.derive(sender.send, other))
    ensures OpenAll(receiver, value, context') ==
      if Accepted(value, context', Envelope(sender, contentType, context, data, Encode(id)), context)
      then Some(Opened(contentType, data)) else None
  {
    var stream := Encode(id);
    var a, whole := sender.derive(sender.send, stream), Whole(contentType, data);
    var chunks := value.chunks;
    ChunkCountBound(contentType, data);
    if value.version == 1 && 0 < |chunks| <= MAX_ENVELOPE_CHUNKS {
      if value.stream == stream {
        StreamNamesKey(receiver, id, receiver.receive);
        forall j | 0 <= j < |chunks| && chunks[j].index == j
          ensures Unlock(a, context', stream, chunks[j]).Some? ==> Good(a, context', stream, whole, j, chunks[j])
          ensures Good(a, context', stream, whole, j, chunks[j]) <==>
            context' == context && j < ChunkCount(whole) &&
            SameChunk(chunks[j], SealedChunk(a, context, stream, whole, j))
        {
          UnlockIdeal(a, context, stream, whole, context', j, chunks[j]);
        }
        OpenRun(a, context', stream, chunks, contentType, data, 0);
        AllGood(a, context, stream, whole, context', chunks);
      } else {
        var box := AeadFor(receiver, value.stream, receiver.receive);
        if box.Some? {
          assert OpensNothing(box.value);
          assert Unlock(box.value, context', value.stream, chunks[0]).None?;
        }
      }
    }
  }

  lemma AllGood(
    a: Aead, context: string, stream: string, whole: seq<byte>, context': string, chunks: seq<Chunk>)
    requires |chunks| > 0
    requires forall j | 0 <= j < |chunks| && chunks[j].index == j ::
      (Good(a, context', stream, whole, j, chunks[j]) <==>
       context' == context && j < ChunkCount(whole) &&
       SameChunk(chunks[j], SealedChunk(a, context, stream, whole, j)))
    ensures
      (|chunks| == ChunkCount(whole) &&
       forall j | 0 <= j < |chunks| :: Good(a, context', stream, whole, j, chunks[j]))
      <==> context' == context && SameChunks(chunks, SealAll(a, context, stream, whole))
  {
    var sealed := SealAll(a, context, stream, whole);
    forall j | 0 <= j < |chunks| && j < |sealed|
      ensures Good(a, context', stream, whole, j, chunks[j]) <==> context' == context && SameChunk(chunks[j], sealed[j])
    {
    }
    if |chunks| == |sealed| && forall j | 0 <= j < |chunks| :: Good(a, context', stream, whole, j, chunks[j]) {
      assert Good(a, context', stream, whole, 0, chunks[0]);
    }
  }

  /** Among values whose data hold no line break, only the envelope itself
      opens: any chunk dropped, added, moved or altered is refused. */
  lemma OnlyTheEnvelopeOpens(
    sender: Keys, receiver: Keys, contentType: seq<byte>, context: string, data: seq<byte>, id: seq<byte>,
    value: Sealed, context': string)
    requires Peers(sender, receiver) && |id| == 16 && Sealable(contentType, data)
    requires Expands(sender.derive(sender.send, Encode(id)))
    requires Ideal(sender.derive(sender.send, Encode(id)), context, Encode(id), Whole(contentType, data))
    requires forall other | other != Encode(id) :: OpensNothing(sender.derive(sender.send, other))
    requires forall c | c in value.chunks :: Dense(c.data)
    ensures OpenAll(receiver, value, context').Some? <==>
      value == Envelope(sender, contentType, context, data, Encode(id)) && context' == context
  {
    OpensExactly(sender, receiver, contentType, context, data, id, value, context');
    var stream := Encode(id);
    var a, whole := sender.derive(sender.send, stream), Whole(contentType, data);
    var sealed := SealAll(a, context, stream, whole);
    forall j | 0 <= j < |sealed|
      ensures |sealed[j].data| <= MAX_CHUNK_DATA_CHARS
      ensures j < |value.chunks| ==> (SameChunk(value.chunks[j], sealed[j]) <==> value.chunks[j] == sealed[j])
    {
      ChunkFits(a, context, stream, whole, j);
      if j < |value.chunks| {
        assert value.chunks[j] in value.chunks;
        StripDense(value.chunks[j].data);
      }
    }
    assert SameChunks(value.chunks, sealed) <==> value.chunks == sealed;
  }

  lemma {:induction false} StripAppend(s: string, t: string)
    ensures Strip(s + t) == Strip(s) + Strip(t)
  {
    if s == "" {
      assert s + t == t;
    } else {
      assert (s + t)[1..] == s[1..] + t;
      StripAppend(s[1..], t);
    }
  }

  /** The exception is real: a line feed after the last chunk's data changes the
      envelope and is accepted. */
  lemma LineFeedIsAccepted(
    sender: Keys, receiver: Keys, contentType: seq<byte>, context: string, data: seq<byte>, id: seq<byte>)
    requires Peers(sender, receiver) && |id| == 16 && Sealable(contentType, data)
    requires Expands(sender.derive(sender.send, Encode(id)))
    requires Ideal(sender.derive(sender.send, Encode(id)), context, Encode(id), Whole(contentType, data))
    requires forall other | other != Encode(id) :: OpensNothing(sender.derive(sender.send, other))
    ensures
      var envelope := Envelope(sender, contentType, context, data, Encode(id));
      var n := |envelope.chunks| - 1;
      var last := envelope.chunks[n];
      var altered := envelope.(chunks := envelope.chunks[n := last.(data := last.data + "\n")]);
      altered != envelope && OpenAll(receiver, altered, context) == Some(Opened(contentType, data))
  {
    var stream := Encode(id);
    var a, whole := sender.derive(sender.send, stream), Whole(contentType, data);
    var envelope := Envelope(sender, contentType, context, data, stream);
    var sealed := envelope.chunks;
    assert sealed == SealAll(a, context, stream, whole);
    var n := |sealed| - 1;
    var altered := envelope.(chunks := sealed[n := sealed[n].(data := sealed[n].data + "\n")]);
    LastIsShort(a, context, stream, whole);
    OpensExactly(sender, receiver, contentType, context, data, id, altered, context);
    forall j | 0 <= j < |sealed| ensures SameChunk(altered.chunks[j], sealed[j]) {
      ChunkFits(a, context, stream, whole, j);
      EncodeIsDense(Ciphertext(a, context, stream, whole, j));
      StripDense(sealed[j].data);
      StripAppend(sealed[j].data, "\n");
      assert Strip("\n") == "";
    }
    assert |altered.chunks[n].data| != |sealed[n].data|;
  }

  /** The last chunk is not full, so its text leaves room below the limit. */
  lemma LastIsShort(a: Aead, context: string, stream: string, plain: seq<byte>)
    requires Expands(a)
    ensures |SealedChunk(a, context, stream, plain, ChunkCount(plain) - 1).data| < MAX_CHUNK_DATA_CHARS
  {
    var i := ChunkCount(plain) - 1;
    SegmentSize(plain, i);
    EncodeLength(Ciphertext(a, context, stream, plain, i));
    hide Encode, Segment;
  }

  // ------------------------------------------------- what opens, whatever the cipher

  /** The i-th chunk is the i-th, opens, is the final one exactly if it is the last,
      and is full unless it is. */
  predicate InLine(a: Aead, context: string, stream: string, chunks: seq<Chunk>, i: nat)
    requires i < |chunks|
  {
    var c := chunks[i];
    var plain := Unlock(a, context, stream, c);
    && c.index == i && plain.Some? && (c.final <==> i == |chunks| - 1)
    && (!c.final ==> |plain.value| == CHUNK_BYTES)
  }

  /** What the chunks from the i-th on open to, one after the other. */
  function Tail(a: Aead, context: string, stream: string, chunks: seq<Chunk>, i: nat): seq<byte>
    requires i <= |chunks|
    decreases |chunks| - i
  {
    if i == |chunks| then []
    else
      var plain := Unlock(a, context, stream, chunks[i]);
      (if plain.Some? then plain.value else []) + Tail(a, context, stream, chunks, i + 1)
  }

  lemma {:induction false} TailOpens(
    a: Aead, context: string, stream: string, chunks: seq<Chunk>, i: nat, finished: bool, done: Opened, r: Opened)
    requires 0 < i <= |chunks| && |done.data| <= MAX_ENVELOPE_BYTES
    ensures OpenFrom(a, context, stream, chunks, i, finished, done) == Some(r) <==>
      && (finished <==> i == |chunks|)
      && (forall j: nat | i <= j < |chunks| :: InLine(a, context, stream, chunks, j))
      && r == Opened(done.contentType, done.data + Tail(a, context, stream, chunks, i))
      && |r.data| <= MAX_ENVELOPE_BYTES
    decreases |chunks| - i
  {
    hide Unlock;
    if i < |chunks| {
      var c := chunks[i];
      var plain := Unlock(a, context, stream, c);
      if plain.Some? {
        var data := done.data + plain.value;
        assert done.data + Tail(a, context, stream, chunks, i) == data + Tail(a, context, stream, chunks, i + 1);
        if |data| <= MAX_ENVELOPE_BYTES {
          TailOpens(a, context, stream, chunks, i + 1, c.final, Opened(done.contentType, data), r);
        }
      }
      InLineFrom(a, context, stream, chunks, i);
    } else {
      assert done.data + Tail(a, context, stream, chunks, i) == done.data;
    }
  }

  lemma InLineFrom(a: Aead, context: string, stream: string, chunks: seq<Chunk>, i: nat)
    requires i < |chunks|
    ensures (forall j: nat | i <= j < |chunks| :: InLine(a, context, stream, chunks, j)) <==>
      InLine(a, context, stream, chunks, i) &&
      forall j: nat | i + 1 <= j < |chunks| :: InLine(a, context, stream, chunks, j)
  {
    hide InLine;
  }

  /** An envelope opens to a type and data exactly when it is of version 1 with an
      admitted number of chunks, its stream names a key, its chunks are in line, and
      what they open to, put together, is the header of that type and those data, both
      within the limits. */
  lemma OpensWhen(keys: Keys, value: Sealed, context: string, r: Opened)
    ensures
      var box := AeadFor(keys, value.stream, keys.receive);
      OpenAll(keys, value, context) == Some(r) <==>
      && value.version == 1 && 0 < |value.chunks| <= MAX_ENVELOPE_CHUNKS && box.Some?
      && (forall i: nat | i < |value.chunks| :: InLine(box.value, context, value.stream, value.chunks, i))
      && 1 <= |r.contentType| <= 1024 && |r.data| <= 16 * 1024 * 1024
      && Tail(box.value, context, value.stream, value.chunks, 0) == Header(r.contentType) + r.data
  {
    hide AeadFor, Unlock;
    var box := AeadFor(keys, value.stream, keys.receive);
    if value.version == 1 && 0 < |value.chunks| <= MAX_ENVELOPE_CHUNKS && box.Some? {
      FirstOpens(box.value, context, value.stream, value.chunks, r);
    }
  }

  lemma FirstOpens(a: Aead, context: string, stream: string, chunks: seq<Chunk>, r: Opened)
    requires chunks != []
    ensures OpenFrom(a, context, stream, chunks, 0, false, Opened([], [])) == Some(r) <==>
      && (forall i: nat | i < |chunks| :: InLine(a, context, stream, chunks, i))
      && 1 <= |r.contentType| <= 1024 && |r.data| <= 16 * 1024 * 1024
      && Tail(a, context, stream, chunks, 0) == Header(r.contentType) + r.data
  {
    hide Unlock, Unwrap, Header;
    var plain, rest := Unlock(a, context, stream, chunks[0]), Tail(a, context, stream, chunks, 1);
    InLineFrom(a, context, stream, chunks, 0);
    if plain.Some? && InLine(a, context, stream, chunks, 0) {
      var first := Unwrap(plain.value);
      assert [] + plain.value == plain.value;
      if first.Some? && |first.value.data| <= MAX_ENVELOPE_BYTES {
        assert [] + first.value.data == first.value.data;
        TailOpens(a, context, stream, chunks, 1, chunks[0].final, first.value, r);
      }
      if |chunks| == 1 || |plain.value| == CHUNK_BYTES {
        UnwrapsTo(plain.value, rest, r, |chunks| == 1);
      }
      assert |chunks| == 1 ==> rest == [];
    }
  }

  /** Taking the header off the first plaintext is taking it off all of it. */
  lemma UnwrapsTo(plain: seq<byte>, rest: seq<byte>, r: Opened, alone: bool)
    requires if alone then rest == [] else |plain| == CHUNK_BYTES
    ensures
      1 <= |r.contentType| <= 1024 && plain + rest == Header(r.contentType) + r.data <==>
      Unwrap(plain).Some? && r == Opened(Unwrap(plain).value.contentType, Unwrap(plain).value.data + rest)
  {
    var all := plain + rest;
    if 1 <= |r.contentType| <= 1024 && all == Header(r.contentType) + r.data {
      var n := |r.contentType|;
      var header := Header(r.contentType);
      assert |header| == n + 2 && |plain| >= n + 2;
      assert header == all[..n + 2] == plain[..n + 2];
      assert plain[0] == header[0] && plain[1] == header[1];
      assert header[2..] == r.contentType && plain[2..n + 2] == header[2..];
      assert r.data == all[n + 2..] == plain[n + 2..] + rest;
    }
    if Unwrap(plain).Some? && r == Opened(Unwrap(plain).value.contentType, Unwrap(plain).value.data + rest) {
      var n := |r.contentType|;
      assert plain == plain[..2] + plain[2..2 + n] + plain[2 + n..];
      assert Header(r.contentType) == plain[..2] + r.contentType;
    }
  }
}
