/**
 Unpadded base64url, section 5 of RFC 4648, as Go's strict raw decoder reads
 it: trailing bits must be zero, and carriage returns and line feeds are
 skipped wherever they stand.
 */
module Base64 {
  import opened Wrappers

  type byte = x: int | 0 <= x < 256

  function Char(v: nat): char
    requires v < 64
  {
    if v < 26 then 'A' + v as char
    else if v < 52 then 'a' + (v - 26) as char
    else if v < 62 then '0' + (v - 52) as char
    else if v == 62 then '-' else '_'
  }

  function Value(c: char): (v: int)
    ensures -1 <= v < 64
  {
    if 'A' <= c <= 'Z' then c as int - 'A' as int
    else if 'a' <= c <= 'z' then c as int - 'a' as int + 26
    else if '0' <= c <= '9' then c as int - '0' as int + 52
    else if c == '-' then 62
    else if c == '_' then 63
    else -1
  }

  lemma CharValue(v: nat)
    requires v < 64
    ensures Value(Char(v)) == v && Char(v) != '\n' && Char(v) != '\r'
  {
  }

  lemma ValueChar(c: char)
    requires Value(c) >= 0
    ensures Char(Value(c)) == c
  {
  }

  type sextet = x: int | 0 <= x < 64

  // The four sextets of three bytes, and back.
  function S0(x: byte): sextet { x / 4 }
  function S1(x: byte, y: byte): sextet { x % 4 * 16 + y / 16 }
  function S2(y: byte, z: byte): sextet { y % 16 * 4 + z / 64 }
  function S3(z: byte): sextet { z % 64 }
  function B0(a: sextet, b: sextet): byte { a * 4 + b / 16 }
  function B1(b: sextet, c: sextet): byte { b % 16 * 16 + c / 4 }
  function B2(c: sextet, d: sextet): byte { c % 4 * 64 + d }

  lemma BytesReturn(x: byte, y: byte, z: byte)
    ensures B0(S0(x), S1(x, y)) == x && B1(S1(x, y), S2(y, z)) == y && B2(S2(y, z), S3(z)) == z
    ensures S1(x, 0) % 16 == 0 && S2(y, 0) % 4 == 0
  {
  }

  lemma SextetsReturn(a: sextet, b: sextet, c: sextet, d: sextet)
    ensures S0(B0(a, b)) == a && S1(B0(a, b), B1(b, c)) == b && S2(B1(b, c), B2(c, d)) == c && S3(B2(c, d)) == d
    ensures b % 16 == 0 ==> S1(B0(a, b), 0) == b
    ensures c % 4 == 0 ==> S2(B1(b, c), 0) == c
  {
  }

  function Encode(b: seq<byte>): string {
    if |b| == 0 then ""
    else if |b| == 1 then [Char(S0(b[0])), Char(S1(b[0], 0))]
    else if |b| == 2 then [Char(S0(b[0])), Char(S1(b[0], b[1])), Char(S2(b[1], 0))]
    else [Char(S0(b[0])), Char(S1(b[0], b[1])), Char(S2(b[1], b[2])), Char(S3(b[2]))] + Encode(b[3..])
  }

  /** Decoding of text without line breaks. */
  function DecodeDense(s: string): Option<seq<byte>> {
    if |s| == 0 then Some([])
    else if |s| == 1 then None
    else
      var a, b := Value(s[0]), Value(s[1]);
      if a < 0 || b < 0 then None
      else if |s| == 2 then
        if b % 16 == 0 then Some([B0(a, b)]) else None
      else
        var c := Value(s[2]);
        if c < 0 then None
        else if |s| == 3 then
          if c % 4 == 0 then Some([B0(a, b), B1(b, c)]) else None
        else
          var d := Value(s[3]);
          var rest := DecodeDense(s[4..]);
          if d < 0 || rest.None? then None
          else Some([B0(a, b), B1(b, c), B2(c, d)] + rest.value)
  }

  predicate Break(c: char) { c == '\n' || c == '\r' }

  function Strip(s: string): string {
    if s == "" then "" else (if Break(s[0]) then "" else [s[0]]) + Strip(s[1..])
  }

  function Decode(s: string): Option<seq<byte>> {
    DecodeDense(Strip(s))
  }

  lemma {:induction false} DenseRoundTrip(b: seq<byte>)
    ensures DecodeDense(Encode(b)) == Some(b)
  {
    hide S0, S1, S2, S3, B0, B1, B2, Char, Value;
    if |b| == 1 {
      BytesReturn(b[0], 0, 0);
      CharValue(S0(b[0]));
      CharValue(S1(b[0], 0));
      assert b == [b[0]];
    } else if |b| == 2 {
      BytesReturn(b[0], b[1], 0);
      CharValue(S0(b[0]));
      CharValue(S1(b[0], b[1]));
      CharValue(S2(b[1], 0));
      assert b == [b[0], b[1]];
    } else if |b| >= 3 {
      BytesReturn(b[0], b[1], b[2]);
      CharValue(S0(b[0]));
      CharValue(S1(b[0], b[1]));
      CharValue(S2(b[1], b[2]));
      CharValue(S3(b[2]));
      DenseRoundTrip(b[3..]);
      var s := Encode(b);
      assert s[4..] == Encode(b[3..]);
      assert b == [b[0], b[1], b[2]] + b[3..];
    }
  }

  /** Strictness: a text decodes to bytes only if it is their encoding. */
  lemma {:induction false} DenseStrict(s: string)
    requires DecodeDense(s).Some?
    ensures Encode(DecodeDense(s).value) == s
  {
    hide S0, S1, S2, S3, B0, B1, B2, Char, Value;
    if |s| == 2 {
      ValueChar(s[0]);
      ValueChar(s[1]);
      SextetsReturn(Value(s[0]), Value(s[1]), 0, 0);
      assert s == [s[0], s[1]];
    } else if |s| == 3 {
      ValueChar(s[0]);
      ValueChar(s[1]);
      ValueChar(s[2]);
      SextetsReturn(Value(s[0]), Value(s[1]), Value(s[2]), 0);
      assert s == [s[0], s[1], s[2]];
    } else if |s| >= 4 {
      ValueChar(s[0]);
      ValueChar(s[1]);
      ValueChar(s[2]);
      ValueChar(s[3]);
      SextetsReturn(Value(s[0]), Value(s[1]), Value(s[2]), Value(s[3]));
      DenseStrict(s[4..]);
      assert DecodeDense(s).value[3..] == DecodeDense(s[4..]).value;
      assert s == [s[0], s[1], s[2], s[3]] + s[4..];
    }
  }

  lemma {:induction false} EncodeLength(b: seq<byte>)
    ensures |Encode(b)| == (4 * |b| + 2) / 3
  {
    if |b| >= 3 {
      EncodeLength(b[3..]);
    }
  }

  predicate Dense(s: string) {
    forall i | 0 <= i < |s| :: !Break(s[i])
  }

  lemma {:induction false} EncodeIsDense(b: seq<byte>)
    ensures Dense(Encode(b))
  {
    assert forall v: sextet :: !Break(Char(v));
    if |b| >= 3 {
      EncodeIsDense(b[3..]);
    }
  }

  lemma {:induction false} StripDense(s: string)
    requires Dense(s)
    ensures Strip(s) == s
  {
    if s != "" {
      StripDense(s[1..]);
    }
  }

  /** A text decodes to given bytes exactly when, line breaks aside, it is
      their encoding. */
  lemma DecodesTo(s: string, b: seq<byte>)
    ensures Decode(s) == Some(b) <==> Strip(s) == Encode(b)
  {
    DenseRoundTrip(b);
    if Decode(s) == Some(b) {
      DenseStrict(Strip(s));
    }
  }
}
