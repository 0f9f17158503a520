/** Session frames: the body codec and the packets they travel in. */
module SessionFrame {
  import opened Options
  import opened BigEndian
  import opened Utf8

  const VERSION := 3
  const HEADER := 32
  const MAGIC: seq<byte> := [0x44, 0x4B, 0x53, 0x31]
  const PREAMBLE: seq<byte> := [0x44, 0x52]

  datatype Kind = Hello | HelloAck | Request | Response | Cancel | Event | Stream | GoAway | Window | Acknowledgment | Lifecycle

  type uint32 = n: int | 0 <= n < 0x1_0000_0000
  type uint64 = n: int | 0 <= n < 0x1_0000_0000_0000_0000
  type int64 = n: int | -0x8000_0000_0000_0000 <= n < 0x8000_0000_0000_0000

  datatype Frame = Frame(
    kind: Kind, flags: byte, id: uint64, sequence: uint32, deadline: int64,
    operation: Text, tenant: Text, payload: seq<byte>)

  datatype Error = InvalidFrame | UnsupportedVersion(version: int) | FrameTooLarge

  datatype Result<T> = Ok(value: T) | Err(error: Error)

  // ----- Words -----

  /** The two's complement pattern of a signed word, and back. */
  function Unsigned(n: int64): uint64 { if n < 0 then 0x1_0000_0000_0000_0000 + n else n }

  function Signed(n: uint64): (r: int64)
    ensures Unsigned(r) == n
  {
    if n >= 0x8000_0000_0000_0000 then n - 0x1_0000_0000_0000_0000 else n
  }

  // ----- Bodies -----

  function Code(k: Kind): byte {
    match k
    case Hello => 1 case HelloAck => 2 case Request => 3 case Response => 4 case Cancel => 5 case Event => 6
    case Stream => 7 case GoAway => 8 case Window => 9 case Acknowledgment => 10 case Lifecycle => 11
  }

  function KindOf(b: byte): (r: Option<Kind>)
    ensures r.Some? ==> Code(r.value) == b
    ensures r.None? ==> forall k :: Code(k) != b
  {
    if b == 1 then Some(Hello) else if b == 2 then Some(HelloAck) else if b == 3 then Some(Request)
    else if b == 4 then Some(Response) else if b == 5 then Some(Cancel) else if b == 6 then Some(Event)
    else if b == 7 then Some(Stream) else if b == 8 then Some(GoAway) else if b == 9 then Some(Window)
    else if b == 10 then Some(Acknowledgment) else if b == 11 then Some(Lifecycle) else None
  }

  predicate Unrouted(f: Frame) {
    f.operation == [] && f.tenant == []
  }

  /** A final frame without number, deadline or routing. */
  predicate Plain(f: Frame) {
    f.flags == 1 && f.sequence == 0 && f.deadline == 0 && Unrouted(f)
  }

  predicate Validate(f: Frame) {
    f.flags <= 1 &&
    match f.kind
    case Hello => Plain(f) && f.id == 0 && f.payload != []
    case HelloAck => Plain(f) && f.id == 0 && f.payload != []
    case Request => f.id != 0 && f.sequence == 0 && f.deadline >= 0 && f.operation != []
    case Response => Plain(f) && f.id != 0 && f.payload != []
    case Cancel => Plain(f) && f.id != 0 && f.payload == []
    case Event => f.flags == 1 && f.id == 0 && f.sequence == 0 && f.deadline == 0 && f.operation != [] && f.tenant == []
    case Stream => f.id != 0 && f.deadline == 0 && Unrouted(f)
    case GoAway => Plain(f) && f.id == 0 && f.payload == []
    case Window => f.flags == 0 && f.sequence > 0 && f.deadline == 0 && Unrouted(f) && f.payload == []
    case Acknowledgment => Plain(f) && f.id != 0 && |f.payload| == 16
    case Lifecycle => Plain(f) && f.id == 0 && f.payload != []
  }

  /** A body's fields as they lie in it. */
  datatype Parts = Parts(
    kind: byte, flags: byte, id: uint64, sequence: uint32, deadline: uint64,
    operation: seq<byte>, tenant: seq<byte>, payload: seq<byte>)

  function Header(p: Parts): (h: seq<byte>)
    ensures |h| == HEADER
  {
    MAGIC + Put(VERSION, 2) + [p.kind] + [p.flags] + Put(p.id, 8) + Put(p.sequence, 4) + Put(p.deadline, 8)
    + Put(|p.operation|, 2) + Put(|p.tenant|, 2)
  }

  function Pack(p: Parts): seq<byte> {
    Header(p) + (p.operation + p.tenant + p.payload)
  }

  function Unpack(b: seq<byte>): Result<Parts> {
    if |b| < HEADER then Err(InvalidFrame)
    else if b[..4] != MAGIC then Err(InvalidFrame)
    else if Get(b[4..6]) != VERSION then Err(UnsupportedVersion(Get(b[4..6])))
    else
      Nonnegative(b[28..30]);
      Nonnegative(b[30..32]);
      var opEnd := HEADER + Get(b[28..30]);
      var end := opEnd + Get(b[30..32]);
      if end > |b| then Err(InvalidFrame)
      else
        Widths();
        PutGet(b[8..16]);
        PutGet(b[16..20]);
        PutGet(b[20..28]);
        Ok(Parts(b[6], b[7], Get(b[8..16]), Get(b[16..20]), Get(b[20..28]), b[HEADER..opEnd], b[opEnd..end], b[end..]))
  }

  lemma Nonnegative(b: seq<byte>)
    ensures Get(b) >= 0
  {
    PutGet(b);
  }

  function FromFrame(f: Frame): Result<Parts> {
    var op, ten := Utf8.Encode(f.operation), Utf8.Encode(f.tenant);
    if !Validate(f) || |op| > 0xFFFF || |ten| > 0xFFFF then Err(InvalidFrame)
    else Ok(Parts(Code(f.kind), f.flags, f.id, f.sequence, Unsigned(f.deadline), op, ten, f.payload))
  }

  function ToFrame(p: Parts): Result<Frame> {
    var op, ten := Utf8.Decode(p.operation), Utf8.Decode(p.tenant);
    if KindOf(p.kind).None? || op.None? || ten.None? then Err(InvalidFrame)
    else
      var f := Frame(KindOf(p.kind).value, p.flags, p.id, p.sequence, Signed(p.deadline), op.value, ten.value, p.payload);
      if Validate(f) then Ok(f) else Err(InvalidFrame)
  }

  function Encode(f: Frame): Result<seq<byte>> {
    match FromFrame(f)
    case Err(e) => Err(e)
    case Ok(p) => Ok(Pack(p))
  }

  function Decode(b: seq<byte>): Result<Frame> {
    match Unpack(b)
    case Err(e) => Err(e)
    case Ok(p) => ToFrame(p)
  }

  ghost predicate Addressable(p: Parts) {
    |p.operation| <= 0xFFFF && |p.tenant| <= 0xFFFF
  }

  lemma PackedFields(p: Parts)
    ensures var b := Pack(p);
            && |b| >= HEADER && b[..4] == MAGIC && b[4..6] == Put(VERSION, 2) && b[6] == p.kind && b[7] == p.flags
            && b[8..16] == Put(p.id, 8) && b[16..20] == Put(p.sequence, 4) && b[20..28] == Put(p.deadline, 8)
            && b[28..30] == Put(|p.operation|, 2) && b[30..32] == Put(|p.tenant|, 2)
            && b[HEADER..] == p.operation + p.tenant + p.payload
  {
    Slices(MAGIC, Put(VERSION, 2), [p.kind], [p.flags], Put(p.id, 8), Put(p.sequence, 4), Put(p.deadline, 8),
           Put(|p.operation|, 2), Put(|p.tenant|, 2), p.operation + p.tenant + p.payload);
    assert [p.kind][0] == p.kind && [p.flags][0] == p.flags;
  }

  lemma Slices(m: seq<byte>, v: seq<byte>, k: seq<byte>, f: seq<byte>, i: seq<byte>, s: seq<byte>, d: seq<byte>,
               o: seq<byte>, t: seq<byte>, rest: seq<byte>)
    requires |m| == 4 && |v| == 2 && |k| == 1 && |f| == 1 && |i| == 8 && |s| == 4 && |d| == 8 && |o| == 2 && |t| == 2
    ensures var b := m + v + k + f + i + s + d + o + t + rest;
            && b[..4] == m && b[4..6] == v && b[6] == k[0] && b[7] == f[0] && b[8..16] == i && b[16..20] == s
            && b[20..28] == d && b[28..30] == o && b[30..32] == t && b[32..] == rest
  {
  }

  lemma {:induction false} UnpackPack(p: Parts)
    requires Addressable(p)
    ensures Unpack(Pack(p)) == Ok(p)
  {
    PackedFields(p);
    Widths();
    GetPut(VERSION, 2);
    GetPut(p.id, 8);
    GetPut(p.sequence, 4);
    GetPut(p.deadline, 8);
    GetPut(|p.operation|, 2);
    GetPut(|p.tenant|, 2);
    Routing(Pack(p), p.operation, p.tenant, p.payload);
  }

  lemma Routing(b: seq<byte>, op: seq<byte>, ten: seq<byte>, payload: seq<byte>)
    requires |b| >= HEADER && b[HEADER..] == op + ten + payload
    ensures HEADER + |op| + |ten| <= |b|
    ensures b[HEADER..HEADER + |op|] == op && b[HEADER + |op|..HEADER + |op| + |ten|] == ten
    ensures b[HEADER + |op| + |ten|..] == payload
  {
    var rest := op + ten + payload;
    assert forall i :: HEADER <= i < |b| ==> b[i] == rest[i - HEADER];
  }

  lemma Whole(b: seq<byte>, x: nat, y: nat)
    requires HEADER <= x <= y <= |b|
    ensures b[..HEADER] == b[..4] + b[4..6] + [b[6]] + [b[7]] + b[8..16] + b[16..20] + b[20..28] + b[28..30] + b[30..32]
    ensures b == b[..HEADER] + (b[HEADER..x] + b[x..y] + b[y..])
  {
  }

  lemma HeaderIs(p: Parts, b: seq<byte>)
    requires |b| >= HEADER && b[..4] == MAGIC && Get(b[4..6]) == VERSION && p.kind == b[6] && p.flags == b[7]
    requires p.id == Get(b[8..16]) && p.sequence == Get(b[16..20]) && p.deadline == Get(b[20..28])
    requires |p.operation| == Get(b[28..30]) && |p.tenant| == Get(b[30..32])
    ensures Header(p) == b[..HEADER]
  {
    PutGet(b[4..6]);
    PutGet(b[8..16]);
    PutGet(b[16..20]);
    PutGet(b[20..28]);
    PutGet(b[28..30]);
    PutGet(b[30..32]);
    Whole(b, HEADER, HEADER);
  }

  lemma UnpackedFields(b: seq<byte>)
    requires Unpack(b).Ok?
    ensures |b| >= HEADER && b[..4] == MAGIC && Get(b[4..6]) == VERSION
    ensures var p := Unpack(b).value;
            && p.kind == b[6] && p.flags == b[7]
            && p.id == Get(b[8..16]) && p.sequence == Get(b[16..20]) && p.deadline == Get(b[20..28])
            && |p.operation| == Get(b[28..30]) && |p.tenant| == Get(b[30..32])
    ensures var p, x := Unpack(b).value, HEADER + |Unpack(b).value.operation|;
            var y := x + |p.tenant|;
            y <= |b| && p.operation == b[HEADER..x] && p.tenant == b[x..y] && p.payload == b[y..]
  {
    Nonnegative(b[28..30]);
    Nonnegative(b[30..32]);
  }

  lemma PackUnpack(b: seq<byte>)
    requires Unpack(b).Ok?
    ensures Addressable(Unpack(b).value) && Pack(Unpack(b).value) == b
  {
    UnpackedFields(b);
    var p := Unpack(b).value;
    HeaderIs(p, b);
    Short(b[28..30]);
    Short(b[30..32]);
    Whole(b, HEADER + |p.operation|, HEADER + |p.operation| + |p.tenant|);
  }

  lemma Short(b: seq<byte>)
    requires |b| == 2
    ensures Get(b) <= 0xFFFF
  {
    PutGet(b);
    Widths();
  }

  lemma SignedUnsigned(n: int64)
    ensures Signed(Unsigned(n)) == n
  {
  }

  lemma KindRoundTrip(k: Kind)
    ensures KindOf(Code(k)) == Some(k)
  {
  }

  lemma ToFrom(f: Frame)
    requires FromFrame(f).Ok?
    ensures Addressable(FromFrame(f).value) && ToFrame(FromFrame(f).value) == Ok(f)
  {
    Utf8.DecodeEncode(f.operation);
    Utf8.DecodeEncode(f.tenant);
    SignedUnsigned(f.deadline);
    KindRoundTrip(f.kind);
  }

  lemma FromTo(p: Parts)
    requires ToFrame(p).Ok? && Addressable(p)
    ensures FromFrame(ToFrame(p).value) == Ok(p)
  {
    Utf8.EncodeDecode(p.operation);
    Utf8.EncodeDecode(p.tenant);
  }

  /** Decoding undoes encoding, for every frame that encodes. */
  lemma DecodeEncode(f: Frame)
    requires Encode(f).Ok?
    ensures Decode(Encode(f).value) == Ok(f)
  {
    ToFrom(f);
    UnpackPack(FromFrame(f).value);
  }

  /** And the other way: a body that decodes is the one its frame encodes to, so no two bodies
      stand for the same frame. */
  lemma EncodeDecode(b: seq<byte>)
    requires Decode(b).Ok?
    ensures Encode(Decode(b).value) == Ok(b)
  {
    PackUnpack(b);
    FromTo(Unpack(b).value);
  }

  lemma EncodedLength(f: Frame)
    requires Encode(f).Ok?
    ensures |Encode(f).value| >= HEADER
  {
  }

  // ----- Which frames encode, and to what -----

  /** What a field of a valid frame may be. */
  datatype Need = Any | Zero | NonZero

  /** One line of the protocol's table of kinds: its number, whether the frame is final, and what its
      numbers, texts and payload may be. */
  datatype Rule = Rule(number: int, final: Option<bool>, id: Need, sequence: Need, deadline: Need,
                       operation: Need, tenant: Need, payload: Need)

  function RuleOf(k: Kind): Rule {
    match k
    case Hello          => Rule(1,  Some(true),  Zero,    Zero,    Zero, Zero,    Zero, NonZero)
    case HelloAck       => Rule(2,  Some(true),  Zero,    Zero,    Zero, Zero,    Zero, NonZero)
    case Request        => Rule(3,  None,        NonZero, Zero,    Any,  NonZero, Any,  Any)
    case Response       => Rule(4,  Some(true),  NonZero, Zero,    Zero, Zero,    Zero, NonZero)
    case Cancel         => Rule(5,  Some(true),  NonZero, Zero,    Zero, Zero,    Zero, Zero)
    case Event          => Rule(6,  Some(true),  Zero,    Zero,    Zero, NonZero, Zero, Any)
    case Stream         => Rule(7,  None,        NonZero, Any,     Zero, Zero,    Zero, Any)
    case GoAway         => Rule(8,  Some(true),  Zero,    Zero,    Zero, Zero,    Zero, Zero)
    case Window         => Rule(9,  Some(false), Any,     NonZero, Zero, Zero,    Zero, Zero)
    case Acknowledgment => Rule(10, Some(true),  NonZero, Zero,    Zero, Zero,    Zero, NonZero)
    case Lifecycle      => Rule(11, Some(true),  Zero,    Zero,    Zero, Zero,    Zero, NonZero)
  }

  predicate Meets(n: int, need: Need) { need.Any? || (need.Zero? <==> n == 0) }

  /** The frame is as its kind's line says; a request's deadline is not negative, and what is
      acknowledged is a generation of sixteen bytes. */
  predicate Conforms(f: Frame, r: Rule) {
    && f.flags <= 1 && (r.final.Some? ==> (f.flags == 1 <==> r.final.value))
    && Meets(f.id, r.id) && Meets(f.sequence, r.sequence) && Meets(f.deadline, r.deadline)
    && Meets(|f.operation|, r.operation) && Meets(|f.tenant|, r.tenant) && Meets(|f.payload|, r.payload)
    && (f.kind.Request? ==> f.deadline >= 0) && (f.kind.Acknowledgment? ==> |f.payload| == 16)
  }

  /** A frame encodes exactly when it conforms to its kind's line and its texts fit their lengths. */
  lemma EncodesExactly(f: Frame)
    ensures Encode(f).Ok? <==>
              && Conforms(f, RuleOf(f.kind))
              && |Utf8.Encode(f.operation)| <= 0xFFFF && |Utf8.Encode(f.tenant)| <= 0xFFFF
  {
    ConformsExactly(f);
  }

  lemma ConformsExactly(f: Frame)
    ensures Validate(f) <==> Conforms(f, RuleOf(f.kind))
  {
  }

  /** Where everything lies in a body: "DKS1", version 3, the kind's number, the flags, identifier,
      number, deadline in two's complement, the two text lengths, the texts, and the payload. */
  lemma BodyLayout(f: Frame)
    requires Encode(f).Ok?
    ensures var b, op, ten := Encode(f).value, Utf8.Encode(f.operation), Utf8.Encode(f.tenant);
            && |b| >= 32 && b[..4] == [0x44, 0x4B, 0x53, 0x31] && b[4..6] == [0, 3]
            && b[6] == RuleOf(f.kind).number && b[7] == f.flags
            && b[8..16] == Put(f.id, 8) && b[16..20] == Put(f.sequence, 4)
            && b[20..28] == Put(if f.deadline < 0 then f.deadline + 0x1_0000_0000_0000_0000 else f.deadline, 8)
            && b[28..30] == Put(|op|, 2) && b[30..32] == Put(|ten|, 2)
            && b[32..] == op + ten + f.payload
  {
    var p := FromFrame(f).value;
    PackedFields(p);
    VersionBytes();
    PartsOf(f);
  }

  lemma PartsOf(f: Frame)
    requires FromFrame(f).Ok?
    ensures var p := FromFrame(f).value;
            && Encode(f) == Ok(Pack(p)) && p.kind == RuleOf(f.kind).number && p.flags == f.flags && p.id == f.id
            && p.sequence == f.sequence && p.payload == f.payload
            && p.deadline == (if f.deadline < 0 then f.deadline + 0x1_0000_0000_0000_0000 else f.deadline)
            && p.operation == Utf8.Encode(f.operation) && p.tenant == Utf8.Encode(f.tenant)
  {
  }

  lemma VersionBytes()
    ensures Put(VERSION, 2) == [0, 3]
  {
    assert Put(3, 2) == Put(0, 1) + [3];
    assert Put(0, 1) == Put(0, 0) + [0];
  }

  // ----- Packets -----

  function Packet(f: Frame, maximum: nat): Result<seq<byte>> {
    match Encode(f)
    case Err(e) => Err(e)
    case Ok(body) => if |body| > maximum then Err(FrameTooLarge) else Ok(Put(|body|, 4) + body)
  }

  predicate Fits(f: Frame, maximum: nat) {
    Packet(f, maximum).Ok?
  }

  predicate Sendable(fs: seq<Frame>, maximum: nat) {
    fs == [] || (Fits(fs[0], maximum) && Sendable(fs[1..], maximum))
  }

  /** What a writer puts on the wire for a run of frames. */
  function Wire(fs: seq<Frame>, maximum: nat): seq<byte>
    requires Sendable(fs, maximum)
  {
    if fs == [] then [] else Packet(fs[0], maximum).value + Wire(fs[1..], maximum)
  }

  lemma PutTop(n: int)
    requires 0 <= n
    ensures Put(n, 4)[..2] == [(n / 0x100_0000 % 256) as byte, (n / 0x1_0000 % 256) as byte]
  {
    assert Put(n, 4) == Put(n / 256, 3) + [(n % 256) as byte];
    assert Put(n / 256, 3) == Put(n / 256 / 256, 2) + [(n / 256 % 256) as byte];
    assert Put(n / 256 / 256, 2) == Put(n / 256 / 256 / 256, 1) + [(n / 256 / 256 % 256) as byte];
    assert Put(n / 256 / 256 / 256, 1) == [] + [(n / 256 / 256 / 256 % 256) as byte];
    assert n / 256 / 256 == n / 0x1_0000 && n / 256 / 256 / 256 == n / 0x100_0000;
  }

  lemma PreambleLength(n: int)
    requires 0 <= n < 0x1_0000_0000
    ensures Put(n, 4)[..2] == PREAMBLE <==> n / 0x1_0000 == 0x4452
  {
    PutTop(n);
    var h := n / 0x1_0000;
    assert n / 0x100_0000 == h / 256 && h / 256 < 256;
    assert h == h / 256 * 256 + h % 256;
  }

  /** A packet looks like the drain preamble exactly when its body length is in one range, which
      a maximum below 0x44520000 keeps out of reach. */
  lemma PreambleFree(f: Frame, maximum: nat)
    requires Fits(f, maximum) && maximum < 0x1_0000_0000
    ensures |Packet(f, maximum).value| >= 4
    ensures Packet(f, maximum).value[..2] == PREAMBLE <==> |Encode(f).value| / 0x1_0000 == 0x4452
    ensures maximum < 0x4452_0000 ==> Packet(f, maximum).value[..2] != PREAMBLE
  {
    var body := Encode(f).value;
    Prefixed(body);
    PreambleLength(|body|);
  }

  lemma Prefixed(body: seq<byte>)
    ensures (Put(|body|, 4) + body)[..2] == Put(|body|, 4)[..2]
  {
  }

  /** So peeking at a stream of packets under such a maximum never finds the preamble. */
  lemma WireIsNoPreamble(fs: seq<Frame>, maximum: nat)
    requires Sendable(fs, maximum) && fs != [] && maximum < 0x4452_0000
    ensures |Wire(fs, maximum)| >= 4 && Wire(fs, maximum)[..2] != PREAMBLE
  {
    PreambleFree(fs[0], maximum);
    FrontOf(Packet(fs[0], maximum).value, Wire(fs[1..], maximum));
  }

  lemma FrontOf(p: seq<byte>, rest: seq<byte>)
    requires |p| >= 4
    ensures |p + rest| >= 4 && (p + rest)[..2] == p[..2]
  {
  }
}
