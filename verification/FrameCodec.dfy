// src/ipc/FrameCodec.cpp: length-prefixed frames on a byte stream. The CBOR codec of RFC 8949 and the
// envelope layer above it are abstract: a frame body is turned into an envelope or into an error.

module FrameCodec {
  import opened Outcomes
  import opened Bytes

  const FRAME_PREFIX_SIZE: nat := 4
  const MAXIMUM_MESSAGE_SIZE: nat := 16 * 1024 * 1024

  datatype ErrorCode = InvalidEnvelope | UnsupportedMessage | InvalidCbor | FrameTooLarge | InvalidFrameLength

  datatype Decoded<+E> = Envelope(envelope: E) | Rejected(code: ErrorCode)

  datatype Encoded = Frame(bytes: seq<byte>) | Refused(code: ErrorCode)

  // What a pass over one frame and nothing else yields.
  function Alone<E>(d: Decoded<E>): Drained<E> {
    match d
    case Envelope(envelope) => Drained([envelope], None, [])
    case Rejected(code) => Drained([], Some(code), [])
  }

  // Every decoder reads the frame of a body as exactly that body, and nothing is left over.
  method Encode<E>(body: seq<byte>, ghost decode: seq<byte> -> Decoded<E>) returns (r: Encoded)
    ensures r.Frame? <==> Encodable(body)
    ensures r.Refused? ==> r.code == if body == [] then InvalidEnvelope else FrameTooLarge
    ensures r.Frame? ==> r.bytes == Frames([body])
    ensures r.Frame? ==> Drain(decode, MAXIMUM_MESSAGE_SIZE, r.bytes) == Alone(decode(body))
  {
    if body == [] {
      return Refused(InvalidEnvelope);
    }
    if |body| > MAXIMUM_MESSAGE_SIZE || |body| > 0xFFFF_FFFF {
      return Refused(FrameTooLarge);
    }
    var frame := BigEndian(|body|, FRAME_PREFIX_SIZE);
    frame := frame + body;
    assert frame == Frames([body]);
    FrontFrame(decode, MAXIMUM_MESSAGE_SIZE, body, []);
    assert frame + [] == frame;
    return Frame(frame);
  }

  // What one uninterrupted pass over a byte stream yields: the envelopes of its complete frames, the
  // error that stopped it if there was one, and the bytes left over, which never fill a maximal frame
  // unless the pass was stopped.
  datatype Drained<+E> = Drained(envelopes: seq<E>, error: Option<ErrorCode>, rest: seq<byte>)

  function Drain<E>(decode: seq<byte> -> Decoded<E>, limit: nat, stream: seq<byte>): (d: Drained<E>)
    ensures d.error == None ==> |d.rest| < FRAME_PREFIX_SIZE + limit
    ensures |d.rest| <= |stream|
    decreases |stream|
  {
    if |stream| < FRAME_PREFIX_SIZE then
      Drained([], None, stream)
    else
      var length := FromBigEndian(stream[..FRAME_PREFIX_SIZE]);
      if length == 0 then
        Drained([], Some(InvalidFrameLength), stream)
      else if length > limit then
        Drained([], Some(FrameTooLarge), stream)
      else if |stream| < FRAME_PREFIX_SIZE + length then
        Drained([], None, stream)
      else
        var complete := FRAME_PREFIX_SIZE + length;
        match decode(stream[FRAME_PREFIX_SIZE..complete])
        case Rejected(code) => Drained([], Some(code), stream[complete..])
        case Envelope(envelope) =>
          var more := Drain(decode, limit, stream[complete..]);
          Drained([envelope] + more.envelopes, more.error, more.rest)
  }

  class FrameDecoder<E> {
    const decode: seq<byte> -> Decoded<E>
    const maximumMessageSize: nat
    var buffer: seq<byte>
    var fatalError: bool

    constructor (decode: seq<byte> -> Decoded<E>, maximumMessageSize: nat)
      ensures this.decode == decode && this.maximumMessageSize == maximumMessageSize
      ensures buffer == [] && !fatalError
    {
      this.decode := decode;
      this.maximumMessageSize := maximumMessageSize;
      buffer := [];
      fatalError := false;
    }

    method Append(bytes: seq<byte>) returns (envelopes: seq<E>, error: Option<ErrorCode>)
      modifies this
      ensures old(fatalError) ==>
        envelopes == [] && error == Some(InvalidFrameLength) && fatalError && buffer == old(buffer)
      ensures !old(fatalError) ==>
        var d := Drain(decode, maximumMessageSize, old(buffer) + bytes);
        envelopes == d.envelopes && error == d.error && buffer == d.rest && fatalError == d.error.Some?
    {
      envelopes, error := [], None;
      if fatalError {
        return [], Some(InvalidFrameLength);
      }
      if bytes != [] {
        buffer := buffer + bytes;
      }
      assert buffer == old(buffer) + bytes;
      ghost var whole := Drain(decode, maximumMessageSize, buffer);
      while |buffer| >= FRAME_PREFIX_SIZE
        invariant !fatalError && error == None
        invariant
          var d := Drain(decode, maximumMessageSize, buffer);
          whole == Drained(envelopes + d.envelopes, d.error, d.rest)
        decreases |buffer|
      {
        var length := FromBigEndian(buffer[..FRAME_PREFIX_SIZE]);
        if length == 0 {
          fatalError := true;
          return envelopes, Some(InvalidFrameLength);
        }
        if length > maximumMessageSize {
          fatalError := true;
          return envelopes, Some(FrameTooLarge);
        }
        var completeSize := FRAME_PREFIX_SIZE + length;
        if |buffer| < completeSize {
          break;
        }
        var body := buffer[FRAME_PREFIX_SIZE..completeSize];
        ghost var d := Drain(decode, maximumMessageSize, buffer);
        buffer := buffer[completeSize..];
        match decode(body)
        case Rejected(code) =>
          fatalError := true;
          return envelopes, Some(code);
        case Envelope(envelope) =>
          ghost var more := Drain(decode, maximumMessageSize, buffer);
          assert d.envelopes == [envelope] + more.envelopes;
          Regrouped(envelopes, [envelope], more.envelopes);
          envelopes := envelopes + [envelope];
      }
    }

    method Reset()
      modifies this
      ensures buffer == [] && !fatalError
    {
      buffer := [];
      fatalError := false;
    }
  }

  function DrainBy<E>(decode: seq<byte> -> Decoded<E>, limit: nat): seq<byte> -> Drained<E> {
    (stream: seq<byte>) => Drain(decode, limit, stream)
  }

  // Two passes over a and b see what one pass over both sees.
  ghost predicate Splits<E>(drain: seq<byte> -> Drained<E>, a: seq<byte>, b: seq<byte>) {
    var first := drain(a);
    var whole := drain(a + b);
    if first.error.Some? then
      whole.envelopes == first.envelopes && whole.error == first.error
    else
      var second := drain(first.rest + b);
      whole == Drained(first.envelopes + second.envelopes, second.error, second.rest)
  }

  // Where the first frame ends, if there is one and it holds an envelope.
  function FirstFrame<E>(decode: seq<byte> -> Decoded<E>, limit: nat, stream: seq<byte>): Option<nat> {
    if |stream| < FRAME_PREFIX_SIZE then None
    else
      var complete := FRAME_PREFIX_SIZE + FromBigEndian(stream[..FRAME_PREFIX_SIZE]);
      if FRAME_PREFIX_SIZE < complete <= FRAME_PREFIX_SIZE + limit && complete <= |stream|
         && decode(stream[FRAME_PREFIX_SIZE..complete]).Envelope?
      then Some(complete) else None
  }

  // Without a first frame the pass over a waits for more, or fails as the pass over both does.
  lemma {:induction false} SplitsAtOnce<E>(decode: seq<byte> -> Decoded<E>, limit: nat, a: seq<byte>, b: seq<byte>)
    requires FirstFrame(decode, limit, a) == None
    ensures Splits(DrainBy(decode, limit), a, b)
  {
    if |a| >= FRAME_PREFIX_SIZE {
      FrameOfBoth(a, b, FRAME_PREFIX_SIZE);
      var complete := FRAME_PREFIX_SIZE + FromBigEndian(a[..FRAME_PREFIX_SIZE]);
      if complete <= |a| {
        FrameOfBoth(a, b, complete);
      }
    }
  }

  lemma {:induction false} EveryStreamSplits<E>(decode: seq<byte> -> Decoded<E>, limit: nat, a: seq<byte>, b: seq<byte>)
    ensures Splits(DrainBy(decode, limit), a, b)
    decreases |a|
  {
    match FirstFrame(decode, limit, a)
    case None => SplitsAtOnce(decode, limit, a, b);
    case Some(complete) =>
      FrameOfBoth(a, b, complete);
      EveryStreamSplits(decode, limit, a[complete..], b);
  }

  // Two passes over the pieces of a stream see what one pass over the whole sees: the same envelopes,
  // fatal in the same cases with the same first error, and the same leftover bytes unless fatal.
  lemma {:induction false} SplittingIsInvisible<E>(decode: seq<byte> -> Decoded<E>, limit: nat, a: seq<byte>,
                                                   b: seq<byte>)
    ensures
      var first := Drain(decode, limit, a);
      var whole := Drain(decode, limit, a + b);
      if first.error.Some? then
        whole.envelopes == first.envelopes && whole.error == first.error
      else
        var second := Drain(decode, limit, first.rest + b);
        whole == Drained(first.envelopes + second.envelopes, second.error, second.rest)
  {
    EveryStreamSplits(decode, limit, a, b);
    assert Splits(DrainBy(decode, limit), a, b);
  }

  lemma {:induction false} FrameOfBoth(a: seq<byte>, b: seq<byte>, end: nat)
    requires FRAME_PREFIX_SIZE <= end <= |a|
    ensures (a + b)[..FRAME_PREFIX_SIZE] == a[..FRAME_PREFIX_SIZE]
    ensures (a + b)[FRAME_PREFIX_SIZE..end] == a[FRAME_PREFIX_SIZE..end]
    ensures (a + b)[end..] == a[end..] + b
  {
  }

  // Feeding a stream piece by piece: the envelopes of every piece, and the state after the last.
  function Feed<E>(decode: seq<byte> -> Decoded<E>, limit: nat, buffer: seq<byte>, pieces: seq<seq<byte>>): Drained<E>
    decreases |pieces|
  {
    if pieces == [] then Drained([], None, buffer)
    else
      var first := Drain(decode, limit, buffer + pieces[0]);
      if first.error.Some? then first
      else
        var more := Feed(decode, limit, first.rest, pieces[1..]);
        Drained(first.envelopes + more.envelopes, more.error, more.rest)
  }

  function Joined(pieces: seq<seq<byte>>): seq<byte>
  {
    if pieces == [] then [] else pieces[0] + Joined(pieces[1..])
  }

  // However a stream is cut, the decoder delivers the envelopes of the uncut stream.
  lemma {:induction false} AnySplitIsInvisible<E>(decode: seq<byte> -> Decoded<E>, limit: nat, buffer: seq<byte>,
                                                  pieces: seq<seq<byte>>)
    requires Drain(decode, limit, buffer) == Drained([], None, buffer)
    ensures
      var fed := Feed(decode, limit, buffer, pieces);
      var whole := Drain(decode, limit, buffer + Joined(pieces));
      fed.envelopes == whole.envelopes && fed.error == whole.error && (fed.error == None ==> fed.rest == whole.rest)
    decreases |pieces|
  {
    if pieces == [] {
      assert buffer + Joined(pieces) == buffer;
    } else {
      var first := Drain(decode, limit, buffer + pieces[0]);
      assert buffer + Joined(pieces) == (buffer + pieces[0]) + Joined(pieces[1..]);
      SplittingIsInvisible(decode, limit, buffer + pieces[0], Joined(pieces[1..]));
      if first.error == None {
        LeftoverIsIdle(decode, limit, buffer + pieces[0]);
        AnySplitIsInvisible(decode, limit, first.rest, pieces[1..]);
      }
    }
  }

  // What a non-fatal pass leaves behind yields nothing on its own.
  lemma {:induction false} LeftoverIsIdle<E>(decode: seq<byte> -> Decoded<E>, limit: nat, stream: seq<byte>)
    requires Drain(decode, limit, stream).error == None
    ensures var rest := Drain(decode, limit, stream).rest; Drain(decode, limit, rest) == Drained([], None, rest)
    decreases |stream|
  {
    if |stream| >= FRAME_PREFIX_SIZE {
      var complete := FRAME_PREFIX_SIZE + FromBigEndian(stream[..FRAME_PREFIX_SIZE]);
      if |stream| >= complete {
        LeftoverIsIdle(decode, limit, stream[complete..]);
      }
    }
  }

  function Frames(bodies: seq<seq<byte>>): seq<byte>
  {
    if bodies == [] then []
    else BigEndian(|bodies[0]|, FRAME_PREFIX_SIZE) + bodies[0] + Frames(bodies[1..])
  }

  ghost predicate Encodable(body: seq<byte>)
  {
    0 < |body| <= MAXIMUM_MESSAGE_SIZE
  }

  // A pass over a stream that starts with a frame goes on behind it.
  lemma {:induction false} FrontFrame<E>(decode: seq<byte> -> Decoded<E>, limit: nat, body: seq<byte>, more: seq<byte>)
    requires Encodable(body) && |body| <= limit
    ensures Drain(decode, limit, BigEndian(|body|, FRAME_PREFIX_SIZE) + body + more) ==
      match decode(body)
      case Rejected(code) => Drained([], Some(code), more)
      case Envelope(envelope) =>
        var d := Drain(decode, limit, more);
        Drained([envelope] + d.envelopes, d.error, d.rest)
  {
    var prefix := BigEndian(|body|, FRAME_PREFIX_SIZE);
    var stream := prefix + body + more;
    PowersOf256();
    BigEndianReadsBack(|body|, FRAME_PREFIX_SIZE);
    var complete := FRAME_PREFIX_SIZE + |body|;
    assert stream[..FRAME_PREFIX_SIZE] == prefix;
    assert stream[FRAME_PREFIX_SIZE..complete] == body;
    assert stream[complete..] == more;
  }

  // What a decoder reports for a length prefix that no frame may have.
  function PrefixError(n: nat): ErrorCode {
    if n == 0 then InvalidFrameLength else FrameTooLarge
  }

  // A zero or oversized prefix stops the pass at once, behind the envelopes of the frames before it.
  lemma {:induction false} BadPrefixStops<E>(decode: seq<byte> -> Decoded<E>, encode: E -> seq<byte>, limit: nat, sent: seq<E>,
                                             n: nat, more: seq<byte>)
    requires MAXIMUM_MESSAGE_SIZE <= limit && (n == 0 || limit < n) && n < Power256(FRAME_PREFIX_SIZE)
    requires forall e :: e in sent ==> Encodable(encode(e)) && decode(encode(e)) == Envelope(e)
    ensures
      var stream := BigEndian(n, FRAME_PREFIX_SIZE) + more;
      Drain(decode, limit, Frames(Bodies(encode, sent)) + stream) == Drained(sent, Some(PrefixError(n)), stream)
    decreases |sent|
  {
    var stream := BigEndian(n, FRAME_PREFIX_SIZE) + more;
    if sent == [] {
      BigEndianReadsBack(n, FRAME_PREFIX_SIZE);
      assert stream[..FRAME_PREFIX_SIZE] == BigEndian(n, FRAME_PREFIX_SIZE);
      assert Frames(Bodies(encode, sent)) + stream == stream;
    } else {
      BodiesHead(encode, sent);
      var body, rest := encode(sent[0]), Frames(Bodies(encode, sent[1..]));
      FrontFrame(decode, limit, body, rest + stream);
      assert Frames(Bodies(encode, sent)) + stream == BigEndian(|body|, FRAME_PREFIX_SIZE) + body + (rest + stream);
      BadPrefixStops(decode, encode, limit, sent[1..], n, more);
      assert sent == [sent[0]] + sent[1..];
    }
  }

  function Bodies<E>(encode: E -> seq<byte>, sent: seq<E>): seq<seq<byte>> {
    seq(|sent|, i requires 0 <= i < |sent| => encode(sent[i]))
  }

  lemma {:induction false} BodiesHead<E>(encode: E -> seq<byte>, sent: seq<E>)
    requires sent != []
    ensures Bodies(encode, sent) == [encode(sent[0])] + Bodies(encode, sent[1..])
    ensures Bodies(encode, sent)[1..] == Bodies(encode, sent[1..])
  {
  }

  // Decoding what Encode wrote gives the envelopes back, in order, with nothing left in the buffer.
  lemma {:induction false} EncodedFramesDecode<E>(decode: seq<byte> -> Decoded<E>, encode: E -> seq<byte>, limit: nat,
                                                  sent: seq<E>)
    requires limit >= MAXIMUM_MESSAGE_SIZE
    requires forall e :: e in sent ==> Encodable(encode(e)) && decode(encode(e)) == Envelope(e)
    ensures Drain(decode, limit, Frames(Bodies(encode, sent))) == Drained(sent, None, [])
    decreases |sent|
  {
    if sent != [] {
      BodiesHead(encode, sent);
      FrontFrame(decode, limit, encode(sent[0]), Frames(Bodies(encode, sent[1..])));
      EncodedFramesDecode(decode, encode, limit, sent[1..]);
      assert sent == [sent[0]] + sent[1..];
    }
  }
}
