/**
 The receiving half of one authorised connection: which sealed frames are let
 through, and how often.
 */
module Channel {
  import opened Wrappers
  import opened Base64
  import opened Seal
  import opened SealTheorems

  const MAX_CONTENT_STREAMS := 65536

  /** The bytes of "application/json". */
  const JSON_TYPE: seq<byte> :=
    [97, 112, 112, 108, 105, 99, 97, 116, 105, 111, 110, 47, 106, 115, 111, 110]

  /** A frame: its envelope, if the payload decodes as one, and its context. */
  datatype Arrival = Arrival(envelope: Option<Sealed>, context: string)

  /** The plaintext of an arrival, if the keys open it as JSON. */
  function Plain(keys: Keys, a: Arrival): Option<seq<byte>> {
    if a.envelope.None? then None
    else
      var r := OpenAll(keys, a.envelope.value, a.context);
      if r.Some? && r.value.contentType == JSON_TYPE then Some(r.value.data) else None
  }

  lemma JsonIsNamed()
    ensures |JSON_TYPE| == |"application/json"|
    ensures forall i | 0 <= i < |JSON_TYPE| :: JSON_TYPE[i] == "application/json"[i] as int
  {
  }

  function Outcome(keys: Keys, seen: set<string>, a: Arrival): Option<seq<byte>> {
    if a.envelope.Some? && a.envelope.value.stream !in seen && |seen| < MAX_CONTENT_STREAMS
    then Plain(keys, a) else None
  }

  class Receiver {
    const keys: Keys
    var seen: set<string>

    constructor (keys: Keys)
      ensures this.keys == keys && seen == {}
    {
      this.keys := keys;
      seen := {};
    }

    method Unseal(a: Arrival) returns (payload: Option<seq<byte>>)
      modifies this
      ensures payload == Outcome(keys, old(seen), a)
      ensures payload.Some? ==> seen == old(seen) + {a.envelope.value.stream}
      ensures payload.None? ==> seen == old(seen)
    {
      hide OpenAll;
      if a.envelope.None? {
        return None;
      }
      var value := a.envelope.value;
      if value.stream in seen || |seen| >= MAX_CONTENT_STREAMS {
        return None;
      }
      var r := Open(keys, value, a.context);
      if r.None? || r.value.contentType != JSON_TYPE {
        return None;
      }
      seen := seen + {value.stream};
      return Some(r.value.data);
    }

    /** Every frame of a connection, one after the other. */
    method UnsealAll(arrivals: seq<Arrival>) returns (payloads: seq<Option<seq<byte>>>)
      requires seen == {}
      modifies this
      ensures |payloads| == |arrivals| && seen == SeenAfter(keys, arrivals)
      ensures forall i | 0 <= i < |arrivals| :: payloads[i] == Delivered(keys, arrivals, i)
    {
      hide Outcome;
      payloads := [];
      assert arrivals[..0] == [];
      while |payloads| < |arrivals|
        invariant |payloads| <= |arrivals| && seen == SeenAfter(keys, arrivals[..|payloads|])
        invariant forall i | 0 <= i < |payloads| :: payloads[i] == Delivered(keys, arrivals, i)
      {
        var n := |payloads|;
        var p := Unseal(arrivals[n]);
        assert arrivals[..n + 1][..n] == arrivals[..n];
        payloads := payloads + [p];
      }
      assert arrivals[..|payloads|] == arrivals;
    }
  }

  function SeenAfter(keys: Keys, arrivals: seq<Arrival>): set<string> {
    if arrivals == [] then {}
    else
      var n := |arrivals| - 1;
      var seen := SeenAfter(keys, arrivals[..n]);
      if Outcome(keys, seen, arrivals[n]).Some? then seen + {arrivals[n].envelope.value.stream} else seen
  }

  /** What the i-th frame of a connection yields. */
  function Delivered(keys: Keys, arrivals: seq<Arrival>, i: nat): Option<seq<byte>>
    requires i < |arrivals|
  {
    Outcome(keys, SeenAfter(keys, arrivals[..i]), arrivals[i])
  }

  predicate Yields(keys: Keys, arrivals: seq<Arrival>, i: nat) {
    i < |arrivals| && Delivered(keys, arrivals, i).Some?
  }

  /** The i-th frame names this stream. */
  predicate Names(arrivals: seq<Arrival>, i: nat, stream: string) {
    i < |arrivals| && arrivals[i].envelope.Some? && arrivals[i].envelope.value.stream == stream
  }

  function Accepts(keys: Keys, arrivals: seq<Arrival>, n: nat): set<nat> {
    set i: nat | i < n && Yields(keys, arrivals, i)
  }

  lemma SeenStep(keys: Keys, arrivals: seq<Arrival>, k: nat)
    requires k < |arrivals|
    ensures
      var seen, seen' := SeenAfter(keys, arrivals[..k]), SeenAfter(keys, arrivals[..k + 1]);
      if Yields(keys, arrivals, k)
      then exists stream | stream !in seen && seen' == seen + {stream} ::
             |seen| < MAX_CONTENT_STREAMS && forall s :: Names(arrivals, k, s) <==> s == stream
      else seen' == seen
  {
    hide Plain;
    assert arrivals[..k + 1][..k] == arrivals[..k];
    if Yields(keys, arrivals, k) {
      assert Names(arrivals, k, arrivals[k].envelope.value.stream);
    }
  }

  lemma AcceptsStep(keys: Keys, arrivals: seq<Arrival>, k: nat)
    ensures |Accepts(keys, arrivals, k + 1)| ==
            |Accepts(keys, arrivals, k)| + if Yields(keys, arrivals, k) then 1 else 0
  {
    hide Yields;
    assert Accepts(keys, arrivals, k + 1) ==
           Accepts(keys, arrivals, k) + if Yields(keys, arrivals, k) then {k} else {};
  }

  /** Some of the first `n` frames of the stream was let through. */
  ghost predicate Passed(keys: Keys, arrivals: seq<Arrival>, n: nat, stream: string) {
    exists i: nat :: i < n && Yields(keys, arrivals, i) && Names(arrivals, i, stream)
  }

  lemma PassedStep(keys: Keys, arrivals: seq<Arrival>, k: nat, stream: string)
    ensures Passed(keys, arrivals, k + 1, stream) <==>
      Passed(keys, arrivals, k, stream) || (Yields(keys, arrivals, k) && Names(arrivals, k, stream))
  {
    hide Yields, Names;
    if Passed(keys, arrivals, k + 1, stream) {
      var i: nat :| i < k + 1 && Yields(keys, arrivals, i) && Names(arrivals, i, stream);
    }
  }

  lemma {:induction false} SeenIs(keys: Keys, arrivals: seq<Arrival>, n: nat)
    requires n <= |arrivals|
    ensures
      var seen := SeenAfter(keys, arrivals[..n]);
      && (forall stream :: stream in seen <==> Passed(keys, arrivals, n, stream))
      && |seen| == |Accepts(keys, arrivals, n)| <= MAX_CONTENT_STREAMS
    decreases n
  {
    if n == 0 {
      assert arrivals[..0] == [];
      assert Accepts(keys, arrivals, 0) == {};
    } else {
      hide SeenAfter, Yields, Names, Accepts, Passed;
      SeenIs(keys, arrivals, n - 1);
      SeenStep(keys, arrivals, n - 1);
      AcceptsStep(keys, arrivals, n - 1);
      forall stream
        ensures Passed(keys, arrivals, n, stream) <==>
          Passed(keys, arrivals, n - 1, stream) || (Yields(keys, arrivals, n - 1) && Names(arrivals, n - 1, stream))
      {
        PassedStep(keys, arrivals, n - 1, stream);
      }
    }
  }

  /** A frame is let through exactly when the keys open it, no earlier frame of
      its stream was, and fewer than the limit of streams were; so no stream is
      delivered twice over the life of the connection. */
  lemma NoStreamTwice(keys: Keys, arrivals: seq<Arrival>, i: nat)
    requires i < |arrivals| && arrivals[i].envelope.Some?
    ensures
      var stream := arrivals[i].envelope.value.stream;
      Delivered(keys, arrivals, i) ==
      if |Accepts(keys, arrivals, i)| < MAX_CONTENT_STREAMS &&
         !Passed(keys, arrivals, i, stream)
      then Plain(keys, arrivals[i]) else None
    ensures forall data ::
      Delivered(keys, arrivals, i) == Some(data) <==>
      && |Accepts(keys, arrivals, i)| < MAX_CONTENT_STREAMS
      && !Passed(keys, arrivals, i, arrivals[i].envelope.value.stream)
      && OpenAll(keys, arrivals[i].envelope.value, arrivals[i].context) == Some(Opened(JSON_TYPE, data))
    ensures |Accepts(keys, arrivals, |arrivals|)| <= MAX_CONTENT_STREAMS
  {
    SeenIs(keys, arrivals, i);
    SeenIs(keys, arrivals, |arrivals|);
    hide SeenAfter, Accepts, OpenAll;
  }

  /** Under a cipher that has sealed one envelope, whatever arrives, the envelope's
      data are delivered at most once and nothing else ever is. */
  lemma OneEnvelopeOneDelivery(
    sender: Keys, receiver: Keys, context: string, data: seq<byte>, id: seq<byte>,
    arrivals: seq<Arrival>, i: nat, j: nat)
    requires Peers(sender, receiver) && |id| == 16 && Sealable(JSON_TYPE, data)
    requires Ideal(sender.derive(sender.send, Encode(id)), context, Encode(id), Whole(JSON_TYPE, data))
    requires forall other | other != Encode(id) :: OpensNothing(sender.derive(sender.send, other))
    ensures Yields(receiver, arrivals, i) ==>
      && Delivered(receiver, arrivals, i) == Some(data) && arrivals[i].context == context
      && (Yields(receiver, arrivals, j) ==> i == j)
  {
    hide Ideal, OpensNothing, Peers, Sealable, Whole, Accepts, SeenAfter, Outcome, Plain, Encode;
    if Yields(receiver, arrivals, i) {
      DeliveredIs(sender, receiver, context, data, id, arrivals, i);
      if Yields(receiver, arrivals, j) {
        DeliveredIs(sender, receiver, context, data, id, arrivals, j);
        OnceOnly(receiver, arrivals, i, j, Encode(id));
        OnceOnly(receiver, arrivals, j, i, Encode(id));
      }
    }
  }

  lemma OnceOnly(keys: Keys, arrivals: seq<Arrival>, i: nat, j: nat, stream: string)
    requires Yields(keys, arrivals, i) && Yields(keys, arrivals, j)
    requires Names(arrivals, i, stream) && Names(arrivals, j, stream)
    ensures j <= i
  {
    NoStreamTwice(keys, arrivals, j);
    assert i < j ==> Passed(keys, arrivals, j, stream);
    hide Accepts, SeenAfter, Outcome, Plain;
  }

  lemma DeliveredIs(
    sender: Keys, receiver: Keys, context: string, data: seq<byte>, id: seq<byte>, arrivals: seq<Arrival>, i: nat)
    requires Peers(sender, receiver) && |id| == 16 && Sealable(JSON_TYPE, data)
    requires Ideal(sender.derive(sender.send, Encode(id)), context, Encode(id), Whole(JSON_TYPE, data))
    requires forall other | other != Encode(id) :: OpensNothing(sender.derive(sender.send, other))
    requires Yields(receiver, arrivals, i)
    ensures Delivered(receiver, arrivals, i) == Some(data) && arrivals[i].context == context
    ensures Names(arrivals, i, Encode(id))
  {
    hide OpenAll, Ideal, OpensNothing, Peers, SeenAfter;
    OpensExactly(sender, receiver, JSON_TYPE, context, data, id, arrivals[i].envelope.value, arrivals[i].context);
  }
}
