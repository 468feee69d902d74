/**
 * Request/response protocols over peer streams (modules/protocols).
 *
 * A message travels as a frame: a 2-byte little-endian length followed by
 * the marshalled message. The inbound side of a stream is modelled as the
 * sequence of chunks that successive reads return, so short reads are
 * visible; the outbound side accepts a fixed number of writes before it
 * breaks.
 */
module Protocols {
  import opened Wrappers

  newtype byte = x: int | 0 <= x < 256
  type Bytes = seq<byte>
  type PeerId = string

  /** Deadline set on every stream, in seconds (both the serving and the sending side). */
  const DefaultTimeout := 15
  /** The largest payload a 2-byte length can describe. */
  const MaxPayload := 65535

  const EOF := "EOF"
  const UnexpectedEOF := "unexpected EOF"
  const StreamReset := "stream reset"
  const PayloadTooLarge := "message too large for a 2-byte length"

  // ---------------------------------------------------------------------
  // Wire format

  /** Go's uint16(n) conversion: truncation modulo 2^16. */
  function Uint16(n: nat): (r: nat)
    ensures r < 65536
    ensures n < 65536 ==> r == n
  {
    n % 65536
  }

  /** binary.LittleEndian.Uint16 of two bytes. */
  function Uint16LE(lo: byte, hi: byte): (r: nat)
    ensures r < 65536
  {
    lo as int + 256 * hi as int
  }

  /** binary.LittleEndian.PutUint16: the two bytes whose Uint16LE is v. */
  function PutUint16LE(v: nat): (r: Bytes)
    requires v < 65536
    ensures |r| == 2 && Uint16LE(r[0], r[1]) == v
  {
    [(v % 256) as byte, (v / 256) as byte]
  }

  /** The bytes WriteMsg emits for a marshalled message: truncated length, then payload. */
  function Frame(payload: Bytes): (r: Bytes)
    ensures |r| == 2 + |payload| && r[2..] == payload
    ensures Uint16LE(r[0], r[1]) == Uint16(|payload|)
  {
    PutUint16LE(Uint16(|payload|)) + payload
  }

  // ---------------------------------------------------------------------
  // Reading: the inbound stream as chunks

  /** All bytes still to be read, in order. */
  function Flatten(chunks: seq<Bytes>): (r: Bytes)
    ensures chunks == [] ==> r == []
  {
    if chunks == [] then [] else chunks[0] + Flatten(chunks[1..])
  }

  lemma AppendNil<T>(a: seq<T>)
    ensures a + [] == a
  {
  }

  lemma FlattenCons(c: Bytes, rest: seq<Bytes>)
    ensures Flatten([c] + rest) == c + Flatten(rest)
  {
    assert ([c] + rest)[1..] == rest;
  }

  /** Cutting g + y after g and k more bytes cuts y after k bytes. */
  lemma SliceConcat(g: Bytes, y: Bytes, k: nat)
    requires k <= |y|
    ensures (g + y)[..|g| + k] == g + y[..k]
    ensures (g + y)[|g| + k..] == y[k..]
  {
  }

  /** What a read consumed and the chunks that remain after it. */
  datatype ReadStep = ReadStep(got: Bytes, rest: seq<Bytes>)

  /**
   * One Read call into an n-byte buffer: it returns at most n bytes, all
   * taken from the next chunk, or EOF when nothing is left.
   */
  function ReadOnce(chunks: seq<Bytes>, n: nat): (r: Result<ReadStep>)
    ensures r.Err? <==> chunks == [] && n > 0
    ensures r.Err? ==> r.error == EOF
    ensures r.Ok? ==> |r.value.got| <= n && r.value.got + Flatten(r.value.rest) == Flatten(chunks)
    ensures r.Ok? && n > 0 && |r.value.got| == 0 ==> |r.value.rest| < |chunks|
  {
    if n == 0 then Ok(ReadStep([], chunks))
    else if chunks == [] then Err(EOF)
    else if n < |chunks[0]| then
      FlattenCons(chunks[0][n..], chunks[1..]);
      assert chunks[0][..n] + chunks[0][n..] == chunks[0];
      Ok(ReadStep(chunks[0][..n], [chunks[0][n..]] + chunks[1..]))
    else Ok(ReadStep(chunks[0], chunks[1..]))
  }

  /**
   * io.ReadFull: read until n bytes are in hand. It succeeds exactly when the
   * stream holds n bytes, returning the first n; otherwise it fails with EOF
   * when nothing at all was read and with "unexpected EOF" after a partial read.
   */
  function ReadFull(chunks: seq<Bytes>, n: nat): (r: Result<ReadStep>)
    ensures r.Ok? <==> n <= |Flatten(chunks)|
    ensures r.Ok? ==> r.value.got == Flatten(chunks)[..n] && Flatten(r.value.rest) == Flatten(chunks)[n..]
    ensures r.Err? ==> r.error == if |Flatten(chunks)| == 0 then EOF else UnexpectedEOF
    decreases n, |chunks|
  {
    if n == 0 then Ok(ReadStep([], chunks))
    else match ReadOnce(chunks, n)
      case Err(_) => Err(EOF)
      case Ok(step) =>
        if |step.got| == 0 then
          assert step.got == [] && Flatten(step.rest) == Flatten(chunks);
          ReadFull(step.rest, n)
        else
          var more := ReadFull(step.rest, n - |step.got|);
          ReadFullJoin(chunks, n, step, more);
          if more.Err? then Err(UnexpectedEOF) else Ok(ReadStep(step.got + more.value.got, more.value.rest))
  }

  /** A partial first read followed by a ReadFull of the remainder is a ReadFull of the whole. */
  lemma ReadFullJoin(chunks: seq<Bytes>, n: nat, step: ReadStep, more: Result<ReadStep>)
    requires step.got + Flatten(step.rest) == Flatten(chunks) && 0 < |step.got| <= n
    requires more.Ok? <==> n - |step.got| <= |Flatten(step.rest)|
    requires more.Ok? ==>
      more.value.got == Flatten(step.rest)[..n - |step.got|] && Flatten(more.value.rest) == Flatten(step.rest)[n - |step.got|..]
    ensures |Flatten(chunks)| > 0
    ensures more.Ok? <==> n <= |Flatten(chunks)|
    ensures more.Ok? ==> step.got + more.value.got == Flatten(chunks)[..n] && Flatten(more.value.rest) == Flatten(chunks)[n..]
  {
    if more.Ok? {
      SliceConcat(step.got, Flatten(step.rest), n - |step.got|);
    }
  }

  /**
   * ReadMsg as the source writes it: ONE Read into a zeroed 2-byte length
   * buffer. When that read delivers both length bytes, the frame is the
   * payload of the decoded length that follows them.
   */
  function ReadFrameAsWritten(chunks: seq<Bytes>): (r: Result<ReadStep>)
    ensures chunks == [] ==> r == Err(EOF)
    ensures chunks != [] && |chunks[0]| >= 2 ==>
      var n := Uint16LE(chunks[0][0], chunks[0][1]);
      (r.Ok? <==> 2 + n <= |Flatten(chunks)|) &&
      (r.Ok? ==> r.value.got == Flatten(chunks)[2..2 + n] && Flatten(r.value.rest) == Flatten(chunks)[2 + n..])
  {
    match ReadOnce(chunks, 2)
    case Err(e) => Err(e)
    case Ok(h) =>
      WholeLengthRead(chunks, h);
      var lengthBuf := h.got + seq(2 - |h.got|, _ => 0 as byte);
      ReadFull(h.rest, Uint16LE(lengthBuf[0], lengthBuf[1]))
  }

  /** A first chunk of at least two bytes gives the single Read both length bytes. */
  lemma WholeLengthRead(chunks: seq<Bytes>, h: ReadStep)
    requires ReadOnce(chunks, 2) == Ok(h)
    ensures chunks != [] && |chunks[0]| >= 2 ==>
      h.got == chunks[0][..2] == Flatten(chunks)[..2] && Flatten(h.rest) == Flatten(chunks)[2..]
  {
    if chunks != [] && |chunks[0]| >= 2 {
      assert Flatten(chunks) == chunks[0] + Flatten(chunks[1..]);
      assert h.got + Flatten(h.rest) == Flatten(chunks);
    }
  }

  /** ReadMsg with the length read in full; `got` is what is handed to Unmarshal. */
  function ReadFrame(chunks: seq<Bytes>): (r: Result<ReadStep>)
    ensures |Flatten(chunks)| < 2 ==> r.Err?
  {
    match ReadFull(chunks, 2)
    case Err(e) => Err(e)
    case Ok(h) => ReadFull(h.rest, Uint16LE(h.got[0], h.got[1]))
  }

  /** ReadFull returns a given prefix of the stream and leaves the remainder. */
  lemma ReadFullSplit(chunks: seq<Bytes>, a: Bytes, b: Bytes)
    requires Flatten(chunks) == a + b
    ensures ReadFull(chunks, |a|).Ok?
    ensures ReadFull(chunks, |a|).value.got == a && Flatten(ReadFull(chunks, |a|).value.rest) == b
  {
    assert (a + b)[..|a|] == a;
    assert (a + b)[|a|..] == b;
  }

  /** When the first read delivers both length bytes, the single-Read decoding is correct. */
  lemma AsWrittenAgreesOnWholeLength(chunks: seq<Bytes>)
    requires chunks != [] && |chunks[0]| >= 2
    ensures ReadFrameAsWritten(chunks) == ReadFrame(chunks)
  {
    var h := ReadOnce(chunks, 2);
    assert h.Ok? && |h.value.got| == 2;
    assert ReadFull(h.value.rest, 0) == Ok(ReadStep([], h.value.rest));
    assert ReadFull(chunks, 2) == Ok(ReadStep(h.value.got + [], h.value.rest));
    assert h.value.got + [] == h.value.got;
    assert h.value.got + seq(0, _ => 0 as byte) == h.value.got;
  }

  /**
   * Whatever the chunking, a frame followed by more bytes reads back as the
   * payload cut to its truncated length; the rest stays in the stream.
   */
  lemma ReadFrameOfFrame(chunks: seq<Bytes>, payload: Bytes, tail: Bytes)
    requires Flatten(chunks) == Frame(payload) + tail
    ensures ReadFrame(chunks).Ok?
    ensures ReadFrame(chunks).value.got == payload[..Uint16(|payload|)]
    ensures Flatten(ReadFrame(chunks).value.rest) == payload[Uint16(|payload|)..] + tail
  {
    var n := Uint16(|payload|);
    var hdr := PutUint16LE(n);
    Assoc(hdr, payload, tail);
    ReadFullSplit(chunks, hdr, payload + tail);
    var h := ReadFull(chunks, 2).value;
    assert h.got == hdr;
    assert ReadFrame(chunks) == ReadFull(h.rest, n);
    assert payload == payload[..n] + payload[n..];
    Assoc(payload[..n], payload[n..], tail);
    ReadFullSplit(h.rest, payload[..n], payload[n..] + tail);
  }

  /** The round trip: a payload of at most MaxPayload bytes reads back unchanged. */
  lemma RoundTrip(chunks: seq<Bytes>, payload: Bytes, tail: Bytes)
    requires |payload| <= MaxPayload
    requires Flatten(chunks) == Frame(payload) + tail
    ensures ReadFrame(chunks).Ok? && ReadFrame(chunks).value.got == payload
    ensures Flatten(ReadFrame(chunks).value.rest) == tail
  {
    ReadFrameOfFrame(chunks, payload, tail);
    assert payload[..|payload|] == payload;
  }

  /**
   * The 2^16-byte payload is framed with length 0: the reader takes an empty
   * message and leaves the whole payload in the stream as the next frame.
   */
  lemma TruncatedFrameMisread(payload: Bytes)
    requires |payload| == 65536
    ensures ReadFrame([Frame(payload)]).Ok?
    ensures ReadFrame([Frame(payload)]).value.got == []
    ensures Flatten(ReadFrame([Frame(payload)]).value.rest) == payload
  {
    FlattenCons(Frame(payload), []);
    assert Flatten([Frame(payload)]) == Frame(payload) + [];
    ReadFrameOfFrame([Frame(payload)], payload, []);
  }

  /**
   * A frame whose 2-byte length arrives split over two reads is misread by
   * the single-Read length decoding: the frame of [7, 8, 9] yields [0, 7, 8].
   */
  lemma ShortLengthReadMisframes(chunks: seq<Bytes>)
    requires chunks == [[3], [0, 7, 8, 9]]
    ensures Flatten(chunks) == Frame([7, 8, 9])
    ensures ReadFrame(chunks).Ok? && ReadFrame(chunks).value.got == [7, 8, 9]
    ensures ReadFrameAsWritten(chunks).Ok? && ReadFrameAsWritten(chunks).value.got == [0, 7, 8]
  {
    SplitLengthStream(chunks);
    SplitLengthReadFrame(chunks);
    SplitLengthAsWritten(chunks);
  }

  /** The stream of ShortLengthReadMisframes: the frame of [7, 8, 9], its length split after one byte. */
  lemma SplitLengthStream(chunks: seq<Bytes>)
    requires chunks == [[3], [0, 7, 8, 9]]
    ensures Flatten(chunks) == Frame([7, 8, 9]) == [3, 0] + [7, 8, 9]
  {
    var second: Bytes := [0, 7, 8, 9];
    assert chunks == [[3]] + [second];
    FlattenCons(second, []);
    FlattenCons([3], [second]);
    assert PutUint16LE(3) == [3, 0];
  }

  lemma SplitLengthReadFrame(chunks: seq<Bytes>)
    requires chunks == [[3], [0, 7, 8, 9]]
    ensures ReadFrame(chunks).Ok? && ReadFrame(chunks).value.got == [7, 8, 9]
  {
    SplitLengthStream(chunks);
    ReadFullSplit(chunks, [3, 0], [7, 8, 9]);
    var h := ReadFull(chunks, 2).value;
    assert Flatten(h.rest) == [7, 8, 9] + [];
    ReadFullSplit(h.rest, [7, 8, 9], []);
  }

  lemma SplitLengthAsWritten(chunks: seq<Bytes>)
    requires chunks == [[3], [0, 7, 8, 9]]
    ensures ReadFrameAsWritten(chunks).Ok? && ReadFrameAsWritten(chunks).value.got == [0, 7, 8]
  {
    var second: Bytes := [0, 7, 8, 9];
    assert ReadOnce(chunks, 2) == Ok(ReadStep([3], [second]));
    assert [3] + seq(1, _ => 0 as byte) == [3, 0];
    FlattenCons(second, []);
    assert Flatten([second]) == [0, 7, 8] + [9];
    ReadFullSplit([second], [0, 7, 8], [9]);
  }

  // ---------------------------------------------------------------------
  // Writing

  /** What a WriteMsg call puts on the wire, how many writes it uses, and its error. */
  datatype Written = Written(emitted: Bytes, used: nat, err: Option<string>)

  /** WriteMsg as the source writes it: the length is truncated to 16 bits. */
  function WriteMsgAsWritten(marshalled: Result<Bytes>, writesLeft: nat): (w: Written)
    ensures marshalled.Err? ==> w == Written([], 0, Some(marshalled.error))
    ensures marshalled.Ok? && writesLeft >= 2 ==> w == Written(Frame(marshalled.value), 2, None)
  {
    match marshalled
    case Err(e) => Written([], 0, Some(e))
    case Ok(payload) =>
      var f := Frame(payload);
      if writesLeft == 0 then Written([], 0, Some(StreamReset))
      else if writesLeft == 1 then Written(f[..2], 1, Some(StreamReset))
      else Written(f, 2, None)
  }

  /** The truncating writer on a marshalled payload, by the number of writes the stream accepts. */
  lemma WriteMsgAsWrittenOk(payload: Bytes, writesLeft: nat)
    ensures var lenBuf := PutUint16LE(Uint16(|payload|));
      WriteMsgAsWritten(Ok(payload), writesLeft) ==
        if writesLeft == 0 then Written([], 0, Some(StreamReset))
        else if writesLeft == 1 then Written(lenBuf, 1, Some(StreamReset))
        else Written(lenBuf + payload, 2, None)
  {
    var f := Frame(payload);
    assert f[..2] == PutUint16LE(Uint16(|payload|));
  }

  /** WriteMsg with the size check a 2-byte length needs: oversized payloads are refused. */
  function WriteMsgSpec(marshalled: Result<Bytes>, writesLeft: nat): (w: Written)
    ensures w.err.None? <==> marshalled.Ok? && |marshalled.value| <= MaxPayload && writesLeft >= 2
    ensures w.err.None? ==> w.emitted == Frame(marshalled.value)
    ensures w.used <= writesLeft
    ensures marshalled.Ok? ==> w.emitted <= Frame(marshalled.value)
    ensures marshalled.Err? ==> w.err == Some(marshalled.error) && w.emitted == []
  {
    if marshalled.Ok? && |marshalled.value| > MaxPayload then Written([], 0, Some(PayloadTooLarge))
    else WriteMsgAsWritten(marshalled, writesLeft)
  }

  /** Unlike the truncating writer, every frame the checked writer completes reads back as its payload. */
  lemma WrittenFrameReadsBack(marshalled: Result<Bytes>, writesLeft: nat, chunks: seq<Bytes>, tail: Bytes)
    requires WriteMsgSpec(marshalled, writesLeft).err.None?
    requires Flatten(chunks) == WriteMsgSpec(marshalled, writesLeft).emitted + tail
    ensures ReadFrame(chunks) .Ok? && ReadFrame(chunks).value.got == marshalled.value
    ensures Flatten(ReadFrame(chunks).value.rest) == tail
  {
    RoundTrip(chunks, marshalled.value, tail);
  }

  /** Below the 2^16 boundary the truncating writer and the checked writer coincide. */
  lemma WritersAgreeInRange(marshalled: Result<Bytes>, writesLeft: nat)
    requires marshalled.Ok? ==> |marshalled.value| <= MaxPayload
    ensures WriteMsgAsWritten(marshalled, writesLeft) == WriteMsgSpec(marshalled, writesLeft)
  {
  }

  /** The truncating writer completes a write whose frame does not read back. */
  lemma AsWrittenFrameDoesNotReadBack(payload: Bytes)
    requires |payload| == 65536
    ensures WriteMsgAsWritten(Ok(payload), 2).err.None?
    ensures ReadFrame([WriteMsgAsWritten(Ok(payload), 2).emitted]).value.got != payload
  {
    TruncatedFrameMisread(payload);
  }

  // ---------------------------------------------------------------------
  // Protocols and the streams they run on

  /**
   * A registered protocol: its identifier, the request handler, and the
   * codec of its messages (Marshal, and the factory object's Unmarshal).
   */
  datatype Protocol<!T> = Protocol(
    id: string,
    handle: (T, PeerId) -> Result<T>,
    marshal: T -> Result<Bytes>,
    unmarshal: Bytes -> Result<T>)

  /** The outcome of serving one inbound stream. */
  datatype Served = Responded | ResetAfterRead(readErr: string) | ResetAfterHandle(handleErr: string) | ResetAfterWrite(writeErr: string)

  /** What the handler makes of a decoded request, and what is written back. */
  function ServeHandled<T>(p: Protocol<T>, remote: PeerId, req: T, writesLeft: nat): (r: (Served, Bytes))
    ensures r.1 != [] ==> p.handle(req, remote).Ok?
    ensures r.0.Responded? <==> p.handle(req, remote).Ok? && p.marshal(p.handle(req, remote).value).Ok? && writesLeft >= 2
    ensures r.0.Responded? ==> r.1 == Frame(p.marshal(p.handle(req, remote).value).value)
  {
    match p.handle(req, remote)
    case Err(e) => (ResetAfterHandle(e), [])
    case Ok(resp) =>
      var w := WriteMsgAsWritten(p.marshal(resp), writesLeft);
      if w.err.Some? then (ResetAfterWrite(w.err.value), w.emitted) else (Responded, w.emitted)
  }

  /**
   * What the stream handler of a protocol does with an inbound stream: read
   * the request with the single-Read length, handle it, write the response
   * with the truncated length.
   */
  function ServeSpec<T>(p: Protocol<T>, remote: PeerId, inbound: seq<Bytes>, writesLeft: nat): (r: (Served, Bytes))
    ensures r.1 != [] ==>
      ReadFrameAsWritten(inbound).Ok? && p.unmarshal(ReadFrameAsWritten(inbound).value.got).Ok? &&
      p.handle(p.unmarshal(ReadFrameAsWritten(inbound).value.got).value, remote).Ok?
    ensures ReadFrameAsWritten(inbound).Err? ==> r == (ResetAfterRead(ReadFrameAsWritten(inbound).error), [])
    ensures r.0.Responded? ==> ReadFrameAsWritten(inbound).Ok? && |r.1| >= 2
  {
    match ReadFrameAsWritten(inbound)
    case Err(e) => (ResetAfterRead(e), [])
    case Ok(frame) =>
      match p.unmarshal(frame.got)
      case Err(e) => (ResetAfterRead(e), [])
      case Ok(req) => ServeHandled(p, remote, req, writesLeft)
  }

  /** ServeSpec seen from the request ReadMsg decoded. */
  lemma ServeSpecAfterRead<T>(p: Protocol<T>, remote: PeerId, inbound: seq<Bytes>, writesLeft: nat, req: Result<T>)
    requires ReadFrameAsWritten(inbound).Err? ==> req == Err(ReadFrameAsWritten(inbound).error)
    requires ReadFrameAsWritten(inbound).Ok? ==> req == p.unmarshal(ReadFrameAsWritten(inbound).value.got)
    ensures req.Err? ==> ServeSpec(p, remote, inbound, writesLeft) == (ResetAfterRead(req.error), [])
    ensures req.Ok? ==>
      ServeSpec(p, remote, inbound, writesLeft) == ServeHandled(p, remote, req.value, writesLeft)
  {
  }

  /**
   * A response of 2^16 bytes is served without a reset, but its frame
   * carries the length 0: the peer reads an empty response.
   */
  lemma OversizedResponseMisframed<T>(p: Protocol<T>, remote: PeerId, req: T, writesLeft: nat)
    requires writesLeft >= 2
    requires p.handle(req, remote).Ok? && p.marshal(p.handle(req, remote).value).Ok?
    requires |p.marshal(p.handle(req, remote).value).value| == 65536
    ensures ServeHandled(p, remote, req, writesLeft).0 == Responded
    ensures ReadFrame([ServeHandled(p, remote, req, writesLeft).1]).Ok?
    ensures ReadFrame([ServeHandled(p, remote, req, writesLeft).1]).value.got == []
  {
    TruncatedFrameMisread(p.marshal(p.handle(req, remote).value).value);
  }

  /** What SendMsg returns after writing `msg` on a new stream and reading the response. */
  function SendSpec<T>(p: Protocol<T>, msg: T, writesLeft: nat, inbound: seq<Bytes>): (r: (Result<T>, Bytes))
    ensures WriteMsgAsWritten(p.marshal(msg), writesLeft).err.Some? ==>
      r == (Err(WriteMsgAsWritten(p.marshal(msg), writesLeft).err.value), WriteMsgAsWritten(p.marshal(msg), writesLeft).emitted)
    ensures r.1 == WriteMsgAsWritten(p.marshal(msg), writesLeft).emitted
    ensures WriteMsgAsWritten(p.marshal(msg), writesLeft).err.None? ==>
      r.0 == if ReadFrameAsWritten(inbound).Err? then Err(ReadFrameAsWritten(inbound).error)
             else p.unmarshal(ReadFrameAsWritten(inbound).value.got)
  {
    var w := WriteMsgAsWritten(p.marshal(msg), writesLeft);
    if w.err.Some? then (Err(w.err.value), w.emitted)
    else match ReadFrameAsWritten(inbound)
      case Err(e) => (Err(e), w.emitted)
      case Ok(frame) => (p.unmarshal(frame.got), w.emitted)
  }

  /** The message codec round-trips every message it can marshal. */
  ghost predicate CodecRoundTrips<T(!new)>(p: Protocol<T>)
  {
    forall m :: p.marshal(m).Ok? ==> p.unmarshal(p.marshal(m).value) == Ok(m)
  }

  /**
   * An echo exchange: when the server's handler returns its request and the
   * message fits a 2-byte length, the sender gets back exactly the message
   * it sent, provided each side's first read delivers both length bytes
   * (ShortLengthReadMisframes shows what happens otherwise).
   */
  lemma EchoExchange<T(!new)>(p: Protocol<T>, msg: T, remote: PeerId,
                        clientWrites: nat, serverWrites: nat,
                        serverInbound: seq<Bytes>, clientInbound: seq<Bytes>)
    requires CodecRoundTrips(p)
    requires forall m, peer :: p.handle(m, peer) == Ok(m)
    requires p.marshal(msg).Ok? && |p.marshal(msg).value| <= MaxPayload
    requires clientWrites >= 2 && serverWrites >= 2
    requires serverInbound != [] && |serverInbound[0]| >= 2
    requires clientInbound != [] && |clientInbound[0]| >= 2
    requires Flatten(serverInbound) == SendSpec(p, msg, clientWrites, clientInbound).1
    requires Flatten(clientInbound) == ServeSpec(p, remote, serverInbound, serverWrites).1
    ensures ServeSpec(p, remote, serverInbound, serverWrites).0 == Responded
    ensures SendSpec(p, msg, clientWrites, clientInbound).0 == Ok(msg)
  {
    var payload := p.marshal(msg).value;
    AppendNil(Frame(payload));
    AsWrittenAgreesOnWholeLength(serverInbound);
    RoundTrip(serverInbound, payload, []);
    assert p.unmarshal(payload) == Ok(msg);
    assert p.handle(msg, remote) == Ok(msg);
    AsWrittenAgreesOnWholeLength(clientInbound);
    RoundTrip(clientInbound, payload, []);
  }

  /** A libp2p stream: unread inbound chunks, bytes written so far, and its state. */
  class Stream {
    var inbound: seq<Bytes>
    var sent: Bytes
    /** Writes the stream accepts before it breaks (a reset by the remote side). */
    var writesLeft: nat
    var isReset: bool
    var closed: bool
    var deadline: Option<int>

    constructor (inbound: seq<Bytes>, writesLeft: nat)
      ensures this.inbound == inbound && this.writesLeft == writesLeft
      ensures sent == [] && !isReset && !closed && deadline == None
    {
      this.inbound := inbound;
      this.writesLeft := writesLeft;
      sent := [];
      isReset := false;
      closed := false;
      deadline := None;
    }

    method SetDeadline(now: int)
      modifies this`deadline
      ensures deadline == Some(now + DefaultTimeout)
    {
      deadline := Some(now + DefaultTimeout);
    }

    /** One Read call into an n-byte buffer. */
    method Read(n: nat) returns (got: Bytes, err: Option<string>)
      modifies this`inbound
      ensures ReadOnce(old(inbound), n).Ok? ==>
        err.None? && got == ReadOnce(old(inbound), n).value.got && inbound == ReadOnce(old(inbound), n).value.rest
      ensures ReadOnce(old(inbound), n).Err? ==> err == Some(EOF) && got == [] && inbound == old(inbound)
    {
      match ReadOnce(inbound, n)
      case Err(e) => got, err := [], Some(e);
      case Ok(step) => got, err, inbound := step.got, None, step.rest;
    }

    /** io.ReadFull over this stream. */
    method ReadFullFrom(n: nat) returns (r: Result<Bytes>)
      modifies this`inbound
      ensures r.Ok? <==> n <= |Flatten(old(inbound))|
      ensures r.Ok? ==> r.value == Flatten(old(inbound))[..n] && Flatten(inbound) == Flatten(old(inbound))[n..]
      ensures r.Err? ==> r.error == (if |Flatten(old(inbound))| == 0 then EOF else UnexpectedEOF) && inbound == []
    {
      var got: Bytes := [];
      while |got| < n
        invariant |got| <= n
        invariant got + Flatten(inbound) == Flatten(old(inbound))
        decreases n - |got|, |inbound|
      {
        var chunk, err := Read(n - |got|);
        if err.Some? {
          assert Flatten(old(inbound)) == got;
          if |got| == 0 { return Err(EOF); } else { return Err(UnexpectedEOF); }
        }
        got := got + chunk;
      }
      assert Flatten(old(inbound)) == got + Flatten(inbound);
      assert Flatten(old(inbound))[..n] == got;
      return Ok(got);
    }

    /**
     * ReadMsg: one Read into a zeroed 2-byte length buffer, then io.ReadFull
     * of the decoded length; the payload goes to the message's Unmarshal.
     */
    method ReadMsg<T>(unmarshal: Bytes -> Result<T>) returns (r: Result<T>)
      modifies this`inbound
      ensures ReadFrameAsWritten(old(inbound)).Err? ==> r == Err(ReadFrameAsWritten(old(inbound)).error)
      ensures ReadFrameAsWritten(old(inbound)).Ok? ==>
        r == unmarshal(ReadFrameAsWritten(old(inbound)).value.got) &&
        Flatten(inbound) == Flatten(ReadFrameAsWritten(old(inbound)).value.rest)
    {
      var got, err := Read(2);
      if err.Some? {
        return Err(err.value);
      }
      var lengthBuf := got + seq(2 - |got|, _ => 0 as byte);
      var length := Uint16LE(lengthBuf[0], lengthBuf[1]);
      var buf := ReadFullFrom(length);
      if buf.Err? {
        return Err(buf.error);
      }
      r := unmarshal(buf.value);
    }

    /** One Write call: accepted in full, or refused once the stream is broken. */
    method Write(buf: Bytes) returns (err: Option<string>)
      modifies this`sent, this`writesLeft
      ensures old(writesLeft) > 0 ==> err.None? && sent == old(sent) + buf && writesLeft == old(writesLeft) - 1
      ensures old(writesLeft) == 0 ==> err == Some(StreamReset) && sent == old(sent) && writesLeft == 0
    {
      if writesLeft == 0 {
        return Some(StreamReset);
      }
      sent := sent + buf;
      writesLeft := writesLeft - 1;
      return None;
    }

    /** WriteMsg: the write of the truncated length, then the payload write. */
    method WriteMsg(marshalled: Result<Bytes>) returns (err: Option<string>)
      modifies this`sent, this`writesLeft
      ensures var w := WriteMsgAsWritten(marshalled, old(writesLeft));
        sent == old(sent) + w.emitted && writesLeft == old(writesLeft) - w.used && err == w.err
    {
      if marshalled.Err? {
        return Some(marshalled.error);
      }
      var msgBuf := marshalled.value;
      var lenBuf := PutUint16LE(Uint16(|msgBuf|));
      WriteMsgAsWrittenOk(msgBuf, writesLeft);
      ghost var sent0 := sent;
      err := Write(lenBuf);
      if err.Some? {
        return;
      }
      err := Write(msgBuf);
      Assoc(sent0, lenBuf, msgBuf);
    }

    method Reset()
      modifies this`isReset
      ensures isReset
    {
      isReset := true;
    }

    method Close()
      modifies this`closed
      ensures closed
    {
      closed := true;
    }
  }

  /**
   * The stream handler Register installs: set the deadline, read the
   * request, handle it, write the response; any failure resets the stream.
   */
  method Serve<T>(p: Protocol<T>, s: Stream, remote: PeerId, now: int) returns (outcome: Served)
    modifies s
    ensures old(s.sent) <= s.sent
    ensures (outcome, s.sent[|old(s.sent)|..]) == ServeSpec(p, remote, old(s.inbound), old(s.writesLeft))
    ensures s.isReset <==> old(s.isReset) || !outcome.Responded?
    ensures s.deadline == Some(now + DefaultTimeout)
  {
    ghost var in0, sent0, w0 := s.inbound, s.sent, s.writesLeft;
    s.SetDeadline(now);
    var req := s.ReadMsg(p.unmarshal);
    ServeSpecAfterRead(p, remote, in0, w0, req);
    if req.Err? {
      s.Reset();
      assert s.sent[|sent0|..] == [];
      return ResetAfterRead(req.error);
    }
    outcome := Respond(p, s, remote, req.value);
  }

  /** The handler's part of Serve: handle the decoded request and write the response; a failure resets the stream. */
  method Respond<T>(p: Protocol<T>, s: Stream, remote: PeerId, req: T) returns (outcome: Served)
    modifies s
    ensures old(s.sent) <= s.sent
    ensures (outcome, s.sent[|old(s.sent)|..]) == ServeHandled(p, remote, req, old(s.writesLeft))
    ensures s.isReset <==> old(s.isReset) || !outcome.Responded?
    ensures s.deadline == old(s.deadline)
  {
    ghost var sent0, w0 := s.sent, s.writesLeft;
    var resp := p.handle(req, remote);
    if resp.Err? {
      s.Reset();
      assert s.sent[|sent0|..] == [];
      return ResetAfterHandle(resp.error);
    }
    ghost var w := WriteMsgAsWritten(p.marshal(resp.value), w0);
    var err := s.WriteMsg(p.marshal(resp.value));
    assert s.sent[|sent0|..] == w.emitted;
    if err.Some? {
      s.Reset();
      return ResetAfterWrite(err.value);
    }
    return Responded;
  }

  /**
   * SendMsg: open a stream (the outcome of NewStream is a parameter), set the
   * deadline, write the message, read and decode the response, close the stream.
   * A failed write returns its error without reading.
   */
  method SendMsg<T>(p: Protocol<T>, msg: T, newStream: Result<Stream>, now: int) returns (r: Result<T>)
    modifies (if newStream.Ok? then {newStream.value} else {})
    ensures newStream.Err? ==> r == Err(newStream.error)
    ensures newStream.Ok? ==> var s := newStream.value;
      old(s.sent) <= s.sent &&
      (r, s.sent[|old(s.sent)|..]) == SendSpec(p, msg, old(s.writesLeft), old(s.inbound)) &&
      s.closed && s.deadline == Some(now + DefaultTimeout) &&
      (WriteMsgAsWritten(p.marshal(msg), old(s.writesLeft)).err.Some? ==> s.inbound == old(s.inbound))
  {
    if newStream.Err? {
      return Err(newStream.error);
    }
    var s := newStream.value;
    ghost var sent0 := s.sent;
    s.SetDeadline(now);
    var err := s.WriteMsg(p.marshal(msg));
    if err.Some? {
      s.Close();
      return Err(err.value);
    }
    r := s.ReadMsg(p.unmarshal);
    s.Close();
  }

  /** A host's table of stream handlers and the protocols that were given a sender. */
  class Host<T> {
    var handlers: map<string, Protocol<T>>
    var senders: set<string>

    constructor ()
      ensures handlers == map[] && senders == {}
    {
      handlers := map[];
      senders := {};
    }

    /** Register: install the protocol's stream handler under its ID and give it a sender. */
    method Register(p: Protocol<T>)
      modifies this
      ensures handlers == old(handlers)[p.id := p]
      ensures senders == old(senders) + {p.id}
    {
      handlers := handlers[p.id := p];
      senders := senders + {p.id};
    }

    /** An inbound stream for `id` is served by the handler registered under `id`. */
    method HandleIncoming(id: string, s: Stream, remote: PeerId, now: int) returns (outcome: Option<Served>)
      modifies s
      ensures id !in handlers ==> outcome.None? && s.inbound == old(s.inbound) && s.sent == old(s.sent)
      ensures old(s.sent) <= s.sent
      ensures id in handlers ==> (outcome.Some? &&
        (outcome.value, s.sent[|old(s.sent)|..]) == ServeSpec(handlers[id], remote, old(s.inbound), old(s.writesLeft)))
    {
      if id !in handlers {
        return None;
      }
      var o := Serve(handlers[id], s, remote, now);
      return Some(o);
    }
  }
}
