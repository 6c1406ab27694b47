/**
 * Length-prefixed framing of messages on a byte stream. A message travels as its marshalled bytes;
 * marshalling and unmarshalling are an inverse pair, so a message is its payload here.
 */
module Framing {
  import opened Wrappers
  import opened TssTypes

  const MAX_MESSAGE: nat := 20 * 1024 * 1024
  const TWO_TO_THE_32: nat := 0x1_0000_0000

  // ---- the length field ----

  function LittleEndian(v: nat): (b: Bytes)
    requires v < TWO_TO_THE_32
    ensures |b| == 4
  {
    [(v % 256) as byte, (v / 256 % 256) as byte, (v / 65536 % 256) as byte, (v / 16777216) as byte]
  }

  function FromLittleEndian(b: Bytes): nat
    requires |b| == 4
  {
    b[0] as nat + 256 * (b[1] as nat) + 65536 * (b[2] as nat) + 16777216 * (b[3] as nat)
  }

  lemma LengthRoundTrip(v: nat)
    requires v < TWO_TO_THE_32
    ensures FromLittleEndian(LittleEndian(v)) == v
  {
    assert v / 65536 == v / 256 / 256;
    assert v / 16777216 == v / 65536 / 256;
  }

  // ---- what one send puts on the stream, and what one receive takes off it ----

  /** The length is truncated to 32 bits, and the sender does not bound it. */
  function Frame(payload: Bytes): Bytes {
    LittleEndian(|payload| % TWO_TO_THE_32) + payload
  }

  datatype RecvError = EndOfStream | UnexpectedEnd | TooLarge

  /** io.ReadFull on `n` bytes: all of them, or an error and nothing left. */
  function ReadFull(bs: Bytes, n: nat): (Result<Bytes, RecvError>, Bytes) {
    if n <= |bs| then (Success(bs[..n]), bs[n..])
    else (Failure(if bs == [] then EndOfStream else UnexpectedEnd), [])
  }

  function Recv(bs: Bytes): (r: (Result<Bytes, RecvError>, Bytes))
    ensures r.0.Success? ==> |r.1| < |bs| && |r.0.value| <= 20_971_520
  {
    match ReadFull(bs, 4)
    case (Failure(e), rest) => (Failure(e), rest)
    case (Success(lengthBytes), rest) =>
      var length := FromLittleEndian(lengthBytes);
      if length > MAX_MESSAGE then (Failure(TooLarge), rest) else ReadFull(rest, length)
  }

  /** Receiving until the first error. */
  function RecvAll(bs: Bytes): (seq<Bytes>, RecvError)
    decreases |bs|
  {
    match Recv(bs)
    case (Failure(e), _) => ([], e)
    case (Success(payload), rest) =>
      var (more, e) := RecvAll(rest);
      ([payload] + more, e)
  }

  function Frames(payloads: seq<Bytes>): Bytes {
    if payloads == [] then [] else Frame(payloads[0]) + Frames(payloads[1..])
  }

  // ---- one message ----

  lemma FrameSplits(payload: Bytes, rest: Bytes)
    ensures var bs := Frame(payload) + rest;
      ReadFull(bs, 4) == (Success(LittleEndian(|payload| % TWO_TO_THE_32)), payload + rest)
  {
    var bs := Frame(payload) + rest;
    assert bs[..4] == LittleEndian(|payload| % TWO_TO_THE_32);
    assert bs[4..] == payload + rest;
  }

  /** The receiver works with the length modulo 2^32. */
  lemma RecvReads(payload: Bytes, rest: Bytes)
    ensures var length := |payload| % TWO_TO_THE_32;
      Recv(Frame(payload) + rest) ==
      if length > MAX_MESSAGE then (Failure(TooLarge), payload + rest) else ReadFull(payload + rest, length)
  {
    FrameSplits(payload, rest);
    LengthRoundTrip(|payload| % TWO_TO_THE_32);
  }

  /** The wire format: the payload's length, modulo 2^32, in four bytes from the lowest on, and then
      the payload. */
  lemma FrameBytes(payload: Bytes)
    ensures |Frame(payload)| == 4 + |payload| && Frame(payload)[4..] == payload
    ensures Frame(payload)[0] as nat == |payload| % 256
    ensures Frame(payload)[1] as nat == |payload| / 256 % 256
    ensures Frame(payload)[2] as nat == |payload| / 65536 % 256
    ensures Frame(payload)[3] as nat == |payload| / 16777216 % 256
  {
    LowBytes(|payload|);
  }

  /** Reducing modulo 2^32 leaves the four low bytes alone. */
  lemma LowBytes(n: nat)
    ensures var v := n % TWO_TO_THE_32;
      && v % 256 == n % 256 && v / 256 % 256 == n / 256 % 256
      && v / 65536 % 256 == n / 65536 % 256 && v / 16777216 == n / 16777216 % 256
  {
    var v, q := n % TWO_TO_THE_32, n / TWO_TO_THE_32;
    assert n == v + q * 4294967296;
    assert n / 256 == v / 256 + q * 16777216;
    assert n / 65536 == v / 65536 + q * 65536;
    assert n / 16777216 == v / 16777216 + q * 256;
  }

  /** A frame is received as the message that was sent, with exact consumption, exactly when the
      payload has 20 MiB at most. */
  lemma RecvFrameIff(payload: Bytes, rest: Bytes)
    ensures Recv(Frame(payload) + rest) == (Success(payload), rest) <==> |payload| <= 20_971_520
  {
    RecvReads(payload, rest);
    if |payload| <= MAX_MESSAGE {
      assert (payload + rest)[..|payload|] == payload;
      assert (payload + rest)[|payload|..] == rest;
    }
  }

  /** From the first byte above 20 MiB up to the width of the length field, the receiver refuses. */
  lemma RecvRefusesLong(payload: Bytes, rest: Bytes)
    requires 20_971_521 <= |payload| < 0x1_0000_0000
    ensures Recv(Frame(payload) + rest).0 == Failure(TooLarge)
  {
    RecvReads(payload, rest);
    assert |payload| % TWO_TO_THE_32 == |payload|;
  }

  // ---- whole streams ----

  ghost predicate Sendable(payloads: seq<Bytes>) {
    forall i :: 0 <= i < |payloads| ==> |payloads[i]| <= 20_971_520
  }

  /** Any list of sendable messages comes out as it went in, followed by a clean end. */
  lemma {:induction false} StreamRoundTrip(payloads: seq<Bytes>)
    requires Sendable(payloads)
    ensures RecvAll(Frames(payloads)) == (payloads, EndOfStream)
  {
    if payloads == [] {
    } else {
      RecvFrameIff(payloads[0], Frames(payloads[1..]));
      StreamRoundTrip(payloads[1..]);
      assert payloads == [payloads[0]] + payloads[1..];
    }
  }

  /** How many whole frames fit in the first `cut` bytes, and how many bytes follow them. */
  function WholeFrames(payloads: seq<Bytes>, cut: nat): (r: (nat, nat))
    ensures r.0 <= |payloads|
  {
    if payloads == [] || cut < |Frame(payloads[0])| then (0, cut)
    else
      var (n, left) := WholeFrames(payloads[1..], cut - |Frame(payloads[0])|);
      (n + 1, left)
  }

  /** A truncated frame is never taken for a message. The error is a clean end of stream when
      nothing of the frame, or only its length field, came through. */
  lemma RecvTruncated(payload: Bytes, cut: nat)
    requires |payload| <= 20_971_520 && cut < |Frame(payload)|
    ensures Recv(Frame(payload)[..cut]) ==
      (Failure(if cut == 0 || cut == 4 then EndOfStream else UnexpectedEnd), [])
  {
    if cut >= 4 {
      assert Frame(payload)[..cut][..4] == LittleEndian(|payload|);
      LengthRoundTrip(|payload|);
    }
  }

  /** A cut in the first frame: nothing is received. */
  lemma CutInFirst(payload: Bytes, rest: Bytes, cut: nat)
    requires |payload| <= 20_971_520 && cut < |Frame(payload)|
    ensures RecvAll((Frame(payload) + rest)[..cut]) == ([], if cut == 0 || cut == 4 then EndOfStream else UnexpectedEnd)
  {
    assert (Frame(payload) + rest)[..cut] == Frame(payload)[..cut];
    RecvTruncated(payload, cut);
  }

  /** A cut after the first frame: that is received, and the cut is in the rest. */
  lemma CutAfterFirst(payload: Bytes, rest: Bytes, cut: nat)
    requires |payload| <= 20_971_520 && |Frame(payload)| <= cut <= |Frame(payload) + rest|
    ensures var (more, e) := RecvAll(rest[..cut - |Frame(payload)|]);
      RecvAll((Frame(payload) + rest)[..cut]) == ([payload] + more, e)
  {
    var left := rest[..cut - |Frame(payload)|];
    assert (Frame(payload) + rest)[..cut] == Frame(payload) + left;
    RecvFrameIff(payload, left);
  }

  /** Cutting the stream anywhere yields the messages whose frames are whole, then an error. */
  lemma {:induction false} StreamCut(payloads: seq<Bytes>, cut: nat)
    requires Sendable(payloads) && cut <= |Frames(payloads)|
    ensures var (n, left) := WholeFrames(payloads, cut);
      RecvAll(Frames(payloads)[..cut]) ==
      (payloads[..n], if left == 0 || left == 4 then EndOfStream else UnexpectedEnd)
  {
    if payloads == [] {
    } else if cut < |Frame(payloads[0])| {
      CutInFirst(payloads[0], Frames(payloads[1..]), cut);
    } else {
      var left := cut - |Frame(payloads[0])|;
      CutAfterFirst(payloads[0], Frames(payloads[1..]), cut);
      StreamCut(payloads[1..], left);
      var n := WholeFrames(payloads[1..], left).0;
      assert payloads[..n + 1] == [payloads[0]] + payloads[1..][..n];
    }
  }

  // ---- the stream object ----

  /** A network stream: the bytes under way to the reader, and how many more the connection takes. */
  class NetworkStream {
    var unread: Bytes
    var room: nat

    constructor (room: nat)
      ensures unread == [] && this.room == room
    {
      unread := [];
      this.room := room;
    }

    /** Hands a flushed buffer to the connection, which may take only a part of it. */
    method Write(bytes: Bytes) returns (n: nat)
      modifies this
      ensures n == if |bytes| <= old(room) then |bytes| else old(room)
      ensures unread == old(unread) + bytes[..n] && room == old(room) - n
    {
      n := if |bytes| <= room then |bytes| else room;
      unread := unread + bytes[..n];
      room := room - n;
    }

    /** io.ReadFull: fills the buffer or reports how the stream ended. */
    method Fill(buffer: array<byte>) returns (error: Option<RecvError>)
      modifies this`unread, buffer
      ensures match ReadFull(old(unread), buffer.Length)
              case (Success(bytes), rest) => error == None && buffer[..] == bytes && unread == rest
              case (Failure(e), rest) => error == Some(e) && unread == rest
    {
      if |unread| < buffer.Length {
        error := Some(if unread == [] then EndOfStream else UnexpectedEnd);
        unread := [];
        return;
      }
      var i := 0;
      while i < buffer.Length
        modifies buffer
        invariant 0 <= i <= buffer.Length
        invariant unread == old(unread)
        invariant buffer[..i] == unread[..i]
      {
        buffer[i] := unread[i];
        i := i + 1;
      }
      unread := unread[buffer.Length..];
      error := None;
      assert buffer[..] == buffer[..i];
    }
  }

  method PutUint32(b: array<byte>, v: nat)
    requires b.Length == 4 && v < TWO_TO_THE_32
    modifies b
    ensures b[..] == LittleEndian(v)
  {
    b[0] := (v % 256) as byte;
    b[1] := (v / 256 % 256) as byte;
    b[2] := (v / 65536 % 256) as byte;
    b[3] := (v / 16777216) as byte;
  }

  class LibP2PStream {
    const stream: NetworkStream

    constructor (stream: NetworkStream)
      ensures this.stream == stream
    {
      this.stream := stream;
    }

    /** A send that succeeds delivers one frame; one that fails delivers a proper part of it. */
    method SendMsg(payload: Bytes) returns (ok: bool)
      modifies stream
      ensures ok <==> |Frame(payload)| <= old(stream.room)
      ensures ok ==> stream.unread == old(stream.unread) + Frame(payload)
      ensures !ok ==> stream.unread == old(stream.unread) + Frame(payload)[..old(stream.room)]
    {
      var length := |payload| % TWO_TO_THE_32;
      var lengthBytes := new byte[4];
      PutUint32(lengthBytes, length);
      var writer := [];
      writer := writer + lengthBytes[..];
      writer := writer + payload;
      assert writer == Frame(payload);
      var n := stream.Write(writer);
      ok := n == |writer|;
    }

    method RecvMsg() returns (r: Result<Bytes, RecvError>)
      modifies stream`unread
      ensures (r, stream.unread) == Recv(old(stream.unread))
    {
      var lengthBytes := new byte[4];
      var error := stream.Fill(lengthBytes);
      if error.Some? {
        return Failure(error.value);
      }
      var length := FromLittleEndian(lengthBytes[..]);
      if length > MAX_MESSAGE {
        return Failure(TooLarge);
      }
      var bytes := new byte[length];
      error := stream.Fill(bytes);
      if error.Some? {
        return Failure(error.value);
      }
      r := Success(bytes[..]);
    }
  }
}
