/** Reading frames off a byte stream that arrives in pieces. */
module FrameStream {
  import opened BigEndian
  import opened Options
  import opened SessionFrame

  datatype Failure = Disconnected | Truncated | System | Malformed(error: Error)

  datatype Outcome<T> = Done(value: T) | Failed(why: Failure)

  class Codec {
    const maximum: nat
    /** What the descriptor will still deliver before its end. */
    var incoming: seq<byte>
    var peeked: Option<seq<byte>>

    /** Only a preamble's worth is ever stashed. */
    predicate Valid()
      reads this
    {
      maximum < 0x1_0000_0000 && (peeked.Some? ==> |peeked.value| <= 2)
    }

    constructor (maximum: nat, incoming: seq<byte>)
      requires maximum < 0x1_0000_0000
      ensures Valid() && this.maximum == maximum && Pending() == incoming
    {
      this.maximum, this.incoming, peeked := maximum, incoming, None;
    }

    /** Everything not read yet, stashed bytes first. */
    function Pending(): seq<byte>
      reads this
    {
      (if peeked.Some? then peeked.value else []) + incoming
    }

    /** One read(2): any number of the bytes asked for, none only at the end. */
    method ReadSome(most: nat) returns (r: Outcome<seq<byte>>)
      requires most > 0
      modifies this`incoming
      ensures r.Done? ==> && |r.value| <= most && old(incoming) == r.value + incoming
                          && (r.value == [] <==> old(incoming) == [])
      ensures r.Failed? ==> r.why == System
    {
      var broken: bool := *;
      if broken { return Failed(System); }
      if incoming == [] { return Done([]); }
      var n: nat :| 0 < n <= |incoming| && n <= most;
      r := Done(incoming[..n]);
      incoming := incoming[n..];
    }

    /** The next `count` bytes, however they arrive; the end of the stream is told apart by whether
        it came between reads or inside this one. */
    method ReadExactly(count: nat) returns (r: Outcome<seq<byte>>)
      requires Valid() && count > 0
      modifies this
      ensures Valid() && (count >= 2 ==> peeked.None?)
      ensures r.Done? ==> |r.value| == count && old(Pending()) == r.value + Pending()
      ensures r == Failed(Disconnected) ==> old(Pending()) == []
      ensures r == Failed(Truncated) ==> 0 < |old(Pending())| < count
      ensures r == Failed(Disconnected) || r == Failed(Truncated) ==> Pending() == []
      ensures r.Failed? ==> r.why.Disconnected? || r.why.Truncated? || r.why.System?
    {
      var data: seq<byte> := [];
      if peeked.Some? {
        var stashed := peeked.value;
        peeked := None;
        if |stashed| >= count {
          var rest := stashed[count..];
          if rest != [] { peeked := Some(rest); }
          return Done(stashed[..count]);
        }
        data := stashed;
      }
      while |data| < count
        invariant |data| <= count && peeked.None? && old(Pending()) == data + incoming
        decreases count - |data|
      {
        var piece := ReadSome(count - |data|);
        match piece {
          case Failed(_) => return Failed(System);
          case Done(bytes) =>
            if bytes == [] {
              if data == [] { return Failed(Disconnected); }
              return Failed(Truncated);
            }
            data := data + bytes;
        }
      }
      r := Done(data);
    }

    /** A preamble is consumed; anything else stays, whole, for the next read. */
    method PeekPreamble() returns (r: Outcome<bool>)
      requires Valid()
      modifies this
      ensures Valid()
      ensures r.Done? ==> |old(Pending())| >= 2 && (r.value <==> old(Pending())[..2] == PREAMBLE)
      ensures r.Done? ==> Pending() == if r.value then old(Pending())[2..] else old(Pending())
      ensures r.Failed? && r.why != System ==> |old(Pending())| < 2 && Pending() == []
    {
      var head := ReadExactly(2);
      if head.Failed? { return Failed(head.why); }
      if head.value == PREAMBLE { return Done(true); }
      peeked := Some(head.value);
      r := Done(false);
    }

    /** Reads one length-prefixed body, and does so whenever one is next. */
    method ReadBody() returns (r: Outcome<seq<byte>>)
      requires Valid()
      modifies this
      ensures Valid()
      ensures r.Done? ==> Framed(old(Pending()), maximum, r.value, Pending())
      ensures r.Failed? && r.why != System ==> forall body, rest :: !Framed(old(Pending()), maximum, body, rest)
      ensures r.Failed? && r.why != System ==>
                && (r.why == Disconnected <==> EndsClean(old(Pending()), maximum))
                && (r.why == Truncated <==> EndsCut(old(Pending()), maximum))
    {
      ghost var input := Pending();
      forall body, rest | Framed(input, maximum, body, rest) ensures Starts(input, body) {
        FramedStarts(input, maximum, body, rest);
      }
      var prefix := ReadExactly(4);
      if prefix.Failed? { return Failed(prefix.why); }
      assert input[..4] == prefix.value && input[4..] == Pending();
      var length := Get(prefix.value);
      if length > maximum { return Failed(Malformed(FrameTooLarge)); }
      if length < HEADER { return Failed(Malformed(InvalidFrame)); }
      PutGet(prefix.value);
      assert |input| == 4 ==> input[..4] == input;
      r := ReadExactly(length);
    }

    /** Reads one frame, and does so whenever a packet is next; what follows it is untouched. */
    method Read() returns (r: Outcome<Frame>)
      requires Valid()
      modifies this
      ensures Valid()
      ensures r.Done? ==> Parses(old(Pending()), maximum, r.value, Pending())
      ensures r.Failed? && r.why != System ==> forall f, rest :: !Parses(old(Pending()), maximum, f, rest)
      ensures r.Failed? && r.why != System ==>
                && (r.why == Disconnected <==> EndsClean(old(Pending()), maximum))
                && (r.why == Truncated <==> EndsCut(old(Pending()), maximum))
    {
      ghost var input := Pending();
      forall f, rest | Parses(input, maximum, f, rest) ensures Framed(input, maximum, Encode(f).value, rest) {
        EncodedLength(f);
      }
      var body := ReadBody();
      if body.Failed? { return Failed(body.why); }
      FramedStarts(input, maximum, body.value, Pending());
      forall f, rest | Parses(input, maximum, f, rest) ensures Decode(body.value) == Ok(f) {
        FramedUnique(input, maximum, Encode(f).value, rest, body.value, Pending());
        DecodeEncode(f);
      }
      var f := Decode(body.value);
      if f.Err? { return Failed(Malformed(f.error)); }
      EncodeDecode(body.value);
      r := Done(f.value);
    }

    method ReadNext(ghost sent: seq<Frame>) returns (r: Outcome<Frame>)
      requires Valid() && Sendable(sent, maximum) && Pending() == Wire(sent, maximum)
      modifies this
      ensures Valid()
      ensures r.Done? ==> && sent != [] && r.value == sent[0] && Sendable(sent[1..], maximum)
                          && Pending() == Wire(sent[1..], maximum)
      ensures r.Failed? && r.why != System ==> sent == [] && r.why == Disconnected
    {
      ghost var input := Pending();
      assert sent != [] ==> Parses(input, maximum, sent[0], Wire(sent[1..], maximum));
      r := Read();
      if r.Done? {
        WireNotEmpty(input, maximum, r.value, Pending());
        ParsesUnique(input, maximum, r.value, Pending(), sent[0], Wire(sent[1..], maximum));
      }
    }

    /** Whatever sizes the bytes arrive in, a stream of packets yields its frames, in order and
        nothing else: all of them and then the end, unless the descriptor itself fails. */
    method ReadAll(ghost sent: seq<Frame>) returns (fs: seq<Frame>, why: Failure)
      requires Valid() && Sendable(sent, maximum) && Pending() == Wire(sent, maximum)
      modifies this
      ensures fs <= sent
      ensures why != System ==> fs == sent && why == Disconnected
      decreases |sent|
    {
      var r := ReadNext(sent);
      if r.Failed? { return [], r.why; }
      fs, why := ReadAll(sent[1..]);
      fs := [r.value] + fs;
    }
  }

  /** `input` starts with the packet of `body`, and `rest` follows it. */
  ghost predicate Framed(input: seq<byte>, maximum: nat, body: seq<byte>, rest: seq<byte>) {
    HEADER <= |body| <= maximum && input == Put(|body|, 4) + body + rest
  }

  ghost predicate Parses(input: seq<byte>, maximum: nat, f: Frame, rest: seq<byte>) {
    Encode(f).Ok? && |Encode(f).value| <= maximum && input == Put(|Encode(f).value|, 4) + Encode(f).value + rest
  }

  /** The length prefix of the input is there and announces a body that may be read. */
  ghost predicate Announces(input: seq<byte>, maximum: nat) {
    |input| >= 4 && HEADER <= Get(input[..4]) <= maximum
  }

  /** The input ends where a reader takes the end for a disconnect: between packets, or right behind
      a length prefix. */
  ghost predicate EndsClean(input: seq<byte>, maximum: nat) {
    input == [] || (|input| == 4 && Announces(input, maximum))
  }

  /** The input ends inside a prefix or inside a body. */
  ghost predicate EndsCut(input: seq<byte>, maximum: nat) {
    0 < |input| < 4 || (Announces(input, maximum) && 4 < |input| < 4 + Get(input[..4]))
  }

  /** A packet cut anywhere reads as truncated, except that cut right behind its length prefix it
      reads as a clean disconnect. */
  lemma CutPacket(f: Frame, maximum: nat, k: nat)
    requires Fits(f, maximum) && maximum < 0x1_0000_0000 && 0 < k < |Packet(f, maximum).value|
    ensures if k == 4 then EndsClean(Packet(f, maximum).value[..k], maximum)
            else EndsCut(Packet(f, maximum).value[..k], maximum)
  {
    var body := Encode(f).value;
    EncodedLength(f);
    Widths();
    GetPut(|body|, 4);
    CutAt(Put(|body|, 4), body, k);
  }

  lemma CutAt(prefix: seq<byte>, body: seq<byte>, k: nat)
    requires |prefix| == 4 && k <= |prefix + body|
    ensures k >= 4 ==> (prefix + body)[..k][..4] == prefix
  {
  }

  /** What a reader finds there. */
  ghost predicate Starts(input: seq<byte>, body: seq<byte>) {
    |input| >= 4 + |body| && Get(input[..4]) == |body| && input[4..][..|body|] == body
  }

  lemma FramedStarts(input: seq<byte>, maximum: nat, body: seq<byte>, rest: seq<byte>)
    requires Framed(input, maximum, body, rest) && maximum < 0x1_0000_0000
    ensures Starts(input, body) && input[4..][|body|..] == rest
  {
    Widths();
    GetPut(|body|, 4);
    Cut(Put(|body|, 4), body, rest, input);
  }

  lemma Cut(prefix: seq<byte>, body: seq<byte>, rest: seq<byte>, input: seq<byte>)
    requires |prefix| == 4 && input == prefix + body + rest
    ensures input[..4] == prefix && input[4..][..|body|] == body && input[4..][|body|..] == rest
  {
  }

  /** Packets are a prefix code: at most one stands at the front of any input. */
  lemma FramedUnique(input: seq<byte>, maximum: nat, a: seq<byte>, x: seq<byte>, b: seq<byte>, y: seq<byte>)
    requires maximum < 0x1_0000_0000 && Framed(input, maximum, a, x) && Framed(input, maximum, b, y)
    ensures a == b && x == y
  {
    FramedStarts(input, maximum, a, x);
    FramedStarts(input, maximum, b, y);
  }

  lemma ParsesUnique(input: seq<byte>, maximum: nat, f: Frame, x: seq<byte>, g: Frame, y: seq<byte>)
    requires maximum < 0x1_0000_0000 && Parses(input, maximum, f, x) && Parses(input, maximum, g, y)
    ensures f == g && x == y
  {
    EncodedLength(f);
    EncodedLength(g);
    FramedUnique(input, maximum, Encode(f).value, x, Encode(g).value, y);
    DecodeEncode(f);
    DecodeEncode(g);
  }

  lemma WireNotEmpty(input: seq<byte>, maximum: nat, f: Frame, rest: seq<byte>)
    requires Parses(input, maximum, f, rest)
    ensures input != []
  {
  }
}
