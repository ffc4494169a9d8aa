/**
 The routing context a frame's envelope is bound to, and which frames share one.
 */
module FrameContext {
  import opened Wrappers
  import opened Base64
  import opened Text
  import opened Seal
  import opened SealTheorems

  /** The fields that are authenticated; `stamp` is the time in UTC milliseconds
      as it is written out, which holds no line break. */
  datatype Routing = Routing(version: int, id: string, kind: string, stamp: string, number: int)

  predicate OneLine(s: string) { '\n' !in s }

  predicate Stamped(r: Routing) { OneLine(r.stamp) }

  function Names(r: Routing): string { r.id + "\n" + r.kind }

  function Context(r: Routing): string {
    Itoa(r.version) + "\n" + r.id + "\n" + r.kind + "\n" + r.stamp + "\n" + Itoa(r.number)
  }

  lemma ItoaIsOneLine(n: int)
    ensures OneLine(Itoa(n))
  {
    ItoaIs(n, n);
  }

  lemma ContextFrom(r: Routing)
    ensures Context(r) == Itoa(r.version) + "\n" + Names(r) + "\n" + r.stamp + "\n" + Itoa(r.number)
    ensures Itoa(r.version) + "\n" + Names(r) == Itoa(r.version) + ['\n'] + Names(r)
  {
    hide Itoa;
  }

  /** A context determines version, time and number, and identifier and type
      together. */
  lemma ContextDetermines(f: Routing, g: Routing)
    requires Stamped(f) && Stamped(g)
    ensures Context(f) == Context(g) <==>
      f.version == g.version && f.stamp == g.stamp && f.number == g.number && Names(f) == Names(g)
  {
    hide Itoa, Names, Context;
    ContextFrom(f);
    ContextFrom(g);
    if Context(f) == Context(g) {
      ItoaIsOneLine(f.version);
      ItoaIsOneLine(g.version);
      ItoaIsOneLine(f.number);
      ItoaIsOneLine(g.number);
      var a, b := Itoa(f.version) + "\n" + Names(f), Itoa(g.version) + "\n" + Names(g);
      LastSeparator(a + "\n" + f.stamp, Itoa(f.number), b + "\n" + g.stamp, Itoa(g.number), '\n');
      LastSeparator(a, f.stamp, b, g.stamp, '\n');
      FirstSeparator(Itoa(f.version), Names(f), Itoa(g.version), Names(g), '\n');
      ItoaIs(f.version, g.version);
      ItoaIs(f.number, g.number);
    }
  }

  /** No other frame has this one's context. */
  ghost predicate Unmistakable(f: Routing) {
    forall g | Stamped(g) && Context(g) == Context(f) :: g == f
  }

  /** A context names its frame if and only if neither the identifier nor the type
      holds a line break. */
  lemma UnmistakableExactly(f: Routing)
    requires Stamped(f)
    ensures Unmistakable(f) <==> OneLine(f.id) && OneLine(f.kind)
  {
    if OneLine(f.id) && OneLine(f.kind) {
      forall g | Stamped(g) && Context(g) == Context(f) ensures g == f {
        ContextDetermines(f, g);
        OneBreak(f, g);
      }
    } else {
      var g := Shifted(f);
      ContextDetermines(f, g);
      hide Context, Names;
      assert Context(g) == Context(f) && g != f;
    }
  }

  lemma OneBreak(f: Routing, g: Routing)
    requires Names(f) == Names(g) && OneLine(f.id) && OneLine(f.kind)
    ensures f.id == g.id && f.kind == g.kind
  {
    var s, t := Names(f), Names(g);
    assert t[|g.id|] == '\n';
    assert forall i | 0 <= i < |s| && i != |f.id| :: s[i] == if i < |f.id| then f.id[i] else f.kind[i - |f.id| - 1];
    assert |g.id| == |f.id|;
    assert f.id == s[..|f.id|] && g.id == t[..|g.id|];
    assert f.kind == s[|f.id| + 1..] && g.kind == t[|g.id| + 1..];
  }

  /** With a break to spare, identifier and type can be cut elsewhere. */
  lemma Shifted(f: Routing) returns (g: Routing)
    requires !OneLine(f.id) || !OneLine(f.kind)
    ensures g != f && Names(g) == Names(f) && g.stamp == f.stamp
    ensures g.version == f.version && g.number == f.number
  {
    if i :| 0 <= i < |f.id| && f.id[i] == '\n' {
      g := f.(id := f.id[..i], kind := f.id[i + 1..] + "\n" + f.kind);
      assert f.id == f.id[..i] + "\n" + f.id[i + 1..];
      assert |g.id| != |f.id|;
    } else {
      var i :| 0 <= i < |f.kind| && f.kind[i] == '\n';
      g := f.(id := f.id + "\n" + f.kind[..i], kind := f.kind[i + 1..]);
      assert f.kind == f.kind[..i] + "\n" + f.kind[i + 1..];
      assert |g.id| != |f.id|;
    }
  }

  /** An envelope sealed for one frame opens for another if and only if they agree
      on everything the context determines; for frames without line breaks, only
      for the frame itself. */
  lemma OpensForItsFrame(
    sender: Keys, receiver: Keys, contentType: seq<byte>, f: Routing, data: seq<byte>, id: seq<byte>, g: Routing)
    requires Peers(sender, receiver) && |id| == 16 && Sealable(contentType, data)
    requires Ideal(sender.derive(sender.send, Encode(id)), Context(f), Encode(id), Whole(contentType, data))
    requires Expands(sender.derive(sender.send, Encode(id)))
    requires forall other | other != Encode(id) :: OpensNothing(sender.derive(sender.send, other))
    requires Stamped(f) && Stamped(g)
    ensures
      var envelope := Envelope(sender, contentType, Context(f), data, Encode(id));
      && (OpenAll(receiver, envelope, Context(g)).Some? <==> Context(g) == Context(f))
      && (OneLine(f.id) && OneLine(f.kind) ==>
            (OpenAll(receiver, envelope, Context(g)).Some? <==> g == f))
  {
    var envelope := Envelope(sender, contentType, Context(f), data, Encode(id));
    var whole := Whole(contentType, data);
    assert envelope.chunks == SealAll(sender.derive(sender.send, Encode(id)), Context(f), Encode(id), whole);
    hide Context, Ideal, Expands, OpensNothing, OpenAll, Encode, Envelope, SealAll;
    SealedIsDense(sender.derive(sender.send, Encode(id)), Context(f), Encode(id), whole);
    OnlyTheEnvelopeOpens(sender, receiver, contentType, Context(f), data, id, envelope, Context(g));
    UnmistakableExactly(f);
  }

  lemma SealedIsDense(a: Aead, context: string, stream: string, plain: seq<byte>)
    ensures forall c | c in SealAll(a, context, stream, plain) :: Dense(c.data)
  {
    var chunks := SealAll(a, context, stream, plain);
    forall c | c in chunks ensures Dense(c.data) {
      var i :| 0 <= i < |chunks| && chunks[i] == c;
      EncodeIsDense(Ciphertext(a, context, stream, plain, i));
    }
  }
}
