/** Strict UTF-8: what a string's bytes are, and which byte strings are a string's. */
module Utf8 {
  import opened Options
  import opened BigEndian

  /** A Unicode scalar value: a code point that is no surrogate. */
  predicate IsScalar(c: int) { 0 <= c < 0xD800 || 0xE000 <= c < 0x11_0000 }

  type Scalar = c: int | 0 <= c < 0xD800 || 0xE000 <= c < 0x11_0000

  type Text = seq<Scalar>

  function EncodeScalar(c: Scalar): (b: seq<byte>)
    ensures 1 <= |b| <= 4
  {
    var n: int := c;
    if n < 0x80 then [n as byte]
    else if n < 0x800 then [(0xC0 + n / 64) as byte, Low(n)]
    else if n < 0x1_0000 then [(0xE0 + n / 4096) as byte, Low(n / 64), Low(n)]
    else [(0xF0 + n / 262144) as byte, Low(n / 4096), Low(n / 64), Low(n)]
  }

  /** A continuation byte carries the lowest six bits. */
  function Low(n: int): (b: byte)
    ensures Bits(b) == n % 64 && 0x80 <= b < 0xC0
  {
    0x80 + n % 64
  }

  function Bits(b: byte): int { (b as int) - 0x80 }

  function Encode(s: Text): seq<byte> {
    if s == [] then [] else EncodeScalar(s[0]) + Encode(s[1..])
  }

  predicate Tail(b: seq<byte>, k: nat) {
    k < |b| && 0x80 <= b[k] < 0xC0
  }

  function Lead(b: seq<byte>, base: int): int
    requires b != []
  {
    (b[0] as int) - base
  }

  /** The scalar at the front and its length; overlong forms, surrogates and values past the last
      code point are refused. */
  function DecodeScalar(b: seq<byte>): (r: Option<(Scalar, nat)>)
    ensures r.Some? ==> 1 <= r.value.1 <= |b|
  {
    if b == [] then None
    else if b[0] < 0x80 then Some((b[0], 1))
    else if 0xC2 <= b[0] < 0xE0 && Tail(b, 1) then
      Some((Lead(b, 0xC0) * 64 + Bits(b[1]), 2))
    else if 0xE0 <= b[0] < 0xF0 && Tail(b, 1) && Tail(b, 2) then
      var c := (Lead(b, 0xE0) * 64 + Bits(b[1])) * 64 + Bits(b[2]);
      if c >= 0x800 && IsScalar(c) then Some((c, 3)) else None
    else if 0xF0 <= b[0] < 0xF5 && Tail(b, 1) && Tail(b, 2) && Tail(b, 3) then
      var c := ((Lead(b, 0xF0) * 64 + Bits(b[1])) * 64 + Bits(b[2])) * 64 + Bits(b[3]);
      if c >= 0x1_0000 && IsScalar(c) then Some((c, 4)) else None
    else None
  }

  function Decode(b: seq<byte>): Option<Text>
    decreases |b|
  {
    if b == [] then Some([]) else
      match DecodeScalar(b)
      case None => None
      case Some((c, n)) =>
        match Decode(b[n..])
        case None => None
        case Some(rest) => Some([c] + rest)
  }

  lemma ScalarRoundTrip(c: Scalar, rest: seq<byte>)
    ensures DecodeScalar(EncodeScalar(c) + rest) == Some((c, |EncodeScalar(c)|))
  {
    var n: int := c;
    var e := EncodeScalar(c);
    var b := e + rest;
    assert forall k :: 0 <= k < |e| ==> b[k] == e[k];
    Shift(n);
    Shift(n / 64);
    Shift(n / 4096);
    assert n / 64 / 64 == n / 4096 && n / 4096 / 64 == n / 262144;
  }

  lemma Shift(n: int)
    ensures n / 64 * 64 + n % 64 == n
  {
  }

  lemma ScalarCanonical(b: seq<byte>)
    requires DecodeScalar(b).Some?
    ensures EncodeScalar(DecodeScalar(b).value.0) == b[..DecodeScalar(b).value.1]
  {
    var c, n := DecodeScalar(b).value.0, DecodeScalar(b).value.1;
    if n == 2 {
      Join(Lead(b, 0xC0), Bits(b[1]));
    } else if n == 3 {
      ThreeCanonical(b, c);
    } else if n == 4 {
      FourCanonical(b, c);
    }
  }

  lemma ThreeCanonical(b: seq<byte>, c: Scalar)
    requires |b| >= 3 && Tail(b, 1) && Tail(b, 2)
    requires 0x800 <= c < 0x1_0000 && c == (Lead(b, 0xE0) * 64 + Bits(b[1])) * 64 + Bits(b[2])
    ensures EncodeScalar(c) == b[..3]
  {
    Join(Lead(b, 0xE0), Bits(b[1]));
    Join(Lead(b, 0xE0) * 64 + Bits(b[1]), Bits(b[2]));
    Halve(c);
  }

  lemma FourCanonical(b: seq<byte>, c: Scalar)
    requires |b| >= 4 && Tail(b, 1) && Tail(b, 2) && Tail(b, 3)
    requires 0x1_0000 <= c && c == ((Lead(b, 0xF0) * 64 + Bits(b[1])) * 64 + Bits(b[2])) * 64 + Bits(b[3])
    ensures EncodeScalar(c) == b[..4]
  {
    var hi := Lead(b, 0xF0) * 64 + Bits(b[1]);
    Join(Lead(b, 0xF0), Bits(b[1]));
    Join(hi, Bits(b[2]));
    Join(hi * 64 + Bits(b[2]), Bits(b[3]));
    Halve(c);
  }

  lemma Halve(n: int)
    ensures n / 4096 == n / 64 / 64 && n / 262144 == n / 64 / 64 / 64
  {
  }

  lemma Join(hi: int, lo: int)
    requires 0 <= lo < 64
    ensures (hi * 64 + lo) / 64 == hi && (hi * 64 + lo) % 64 == lo
  {
  }

  lemma {:induction false} DecodeEncode(s: Text)
    ensures Decode(Encode(s)) == Some(s)
  {
    if s != [] {
      ScalarRoundTrip(s[0], Encode(s[1..]));
      DecodeEncode(s[1..]);
      var b := EncodeScalar(s[0]) + Encode(s[1..]);
      assert b[|EncodeScalar(s[0])|..] == Encode(s[1..]);
      assert b == Encode(s) && [s[0]] + s[1..] == s;
    }
  }

  lemma {:induction false} EncodeDecode(b: seq<byte>)
    requires Decode(b).Some?
    ensures Encode(Decode(b).value) == b
    decreases |b|
  {
    if b != [] {
      var c, n := Front(b);
      EncodeDecode(b[n..]);
      Encoded(c, Decode(b[n..]).value);
      assert b == b[..n] + b[n..];
    }
  }

  lemma Front(b: seq<byte>) returns (c: Scalar, n: nat)
    requires b != [] && Decode(b).Some?
    ensures 1 <= n <= |b| && EncodeScalar(c) == b[..n]
    ensures Decode(b[n..]).Some? && Decode(b).value == [c] + Decode(b[n..]).value
  {
    c, n := DecodeScalar(b).value.0, DecodeScalar(b).value.1;
    ScalarCanonical(b);
  }

  lemma Encoded(c: Scalar, rest: Text)
    ensures Encode([c] + rest) == EncodeScalar(c) + Encode(rest)
  {
    assert ([c] + rest)[1..] == rest;
  }

  /** The bytes of a scalar, by the code point ranges of the Unicode standard, table 3-6. */
  lemma ScalarBytes(c: Scalar)
    ensures var b := EncodeScalar(c);
            && (c <= 0x7F ==> |b| == 1 && b[0] == c)
            && (0x80 <= c <= 0x7FF ==> |b| == 2 && 0xC2 <= b[0] <= 0xDF && c == (b[0] as int - 0xC0) * 0x40 + (b[1] as int - 0x80))
            && (0x800 <= c <= 0xFFFF ==>
                  |b| == 3 && 0xE0 <= b[0] <= 0xEF && c == (b[0] as int - 0xE0) * 0x1000 + (b[1] as int - 0x80) * 0x40 + (b[2] as int - 0x80))
            && (0x1_0000 <= c ==>
                  |b| == 4 && 0xF0 <= b[0] <= 0xF4
                  && c == (b[0] as int - 0xF0) * 0x4_0000 + (b[1] as int - 0x80) * 0x1000 + (b[2] as int - 0x80) * 0x40 + (b[3] as int - 0x80))
            && forall i :: 0 < i < |b| ==> 0x80 <= b[i] <= 0xBF
  {
    var n: int := c;
    Shift(n);
    Shift(n / 64);
    Shift(n / 4096);
    Halve(n);
  }
}
