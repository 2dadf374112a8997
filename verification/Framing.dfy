/** Cutting frames out of a growing byte buffer (packet.rs) and the read loops that drive it
    (gate.rs, dispatch.rs). The gate remembers the last nonzero packet id and may drop one padding
    byte in front of a packet that follows it; the dispatch service never does. */
module Framing {
  import opened Wrappers
  import opened Bytes
  import opened Packets

  datatype Service = Gate | Dispatch

  /** What happened to the bytes taken out of the buffer, in order. */
  datatype Event =
    | Frame(packet: Packet)
    | Dropped(pad: byte)
    | Failed(raw: seq<byte>, error: PacketError)

  function EventBytes(e: Event): seq<byte> {
    match e
    case Frame(p) => p.raw
    case Dropped(b) => [b]
    case Failed(raw, _) => raw
  }

  function TraceBytes(trace: seq<Event>): seq<byte> {
    if trace == [] then [] else TraceBytes(trace[..|trace| - 1]) + EventBytes(trace[|trace| - 1])
  }

  /** A connection between two reads. It closes at the first frame that does not parse. */
  datatype Link = Link(buffer: seq<byte>, previousId: Option<u16>, trace: seq<Event>, open: bool)

  const FRESH := Link([], None, [], true)

  // ---- Specification functions -------------------------------------------------------------

  predicate LooksLikeNextPacket(buffer: seq<byte>, offset: nat, previousId: u16) {
    && |buffer| - offset >= FRAME_HEADER_SIZE
    && ReadU16(buffer, offset) >= HEADER_SIZE
    && buffer[offset + 2] == 0
    && ReadU16(buffer, offset + 3) >= 10000
    && ReadU16(buffer, offset + 5) == WrappingIncrement(previousId)
  }

  predicate DropsPadding(buffer: seq<byte>, previousId: Option<u16>) {
    && previousId.Some?
    && !LooksLikeNextPacket(buffer, 0, previousId.value)
    && LooksLikeNextPacket(buffer, 1, previousId.value)
  }

  /** Bytes a frame of the given declared length occupies; 6 stands for an empty frame of 7. */
  function FrameSize(length: u16): nat {
    if length == HEADER_SIZE + 1 then FRAME_HEADER_SIZE else length + LEN_SIZE
  }

  predicate HasFrame(buffer: seq<byte>) {
    |buffer| >= LEN_SIZE && |buffer| >= FrameSize(ReadU16(buffer, 0))
  }

  function Remember(service: Service, previousId: Option<u16>, id: u16): Option<u16> {
    if service.Gate? && id != 0 then Some(id) else previousId
  }

  function AfterPadding(buffer: seq<byte>, previousId: Option<u16>): seq<byte> {
    if DropsPadding(buffer, previousId) then buffer[1..] else buffer
  }

  function DropPadding(l: Link): Link {
    if DropsPadding(l.buffer, l.previousId)
    then l.(buffer := l.buffer[1..], trace := l.trace + [Dropped(l.buffer[0])])
    else l
  }

  /** One turn of the drain loop on a buffer that starts with a whole frame. */
  function TakeFrame(service: Service, l: Link): Link
    requires HasFrame(l.buffer)
  {
    var total := FrameSize(ReadU16(l.buffer, 0));
    var raw, rest := l.buffer[..total], l.buffer[total..];
    match New(raw)
    case Success(p) => Link(rest, Remember(service, l.previousId, p.id), l.trace + [Frame(p)], l.open)
    case Failure(e) => Link(rest, l.previousId, l.trace + [Failed(raw, e)], false)
  }

  function Drain(service: Service, l: Link): Link
    decreases |l.buffer|
  {
    var d := DropPadding(l);
    if !l.open then l
    else if !HasFrame(d.buffer) then d
    else Drain(service, TakeFrame(service, d))
  }

  function Receive(service: Service, l: Link, chunk: seq<byte>): Link {
    Drain(service, l.(buffer := l.buffer + chunk))
  }

  /** The read loop over the chunks the socket delivers; an empty read is end of stream. */
  function Serve(service: Service, l: Link, chunks: seq<seq<byte>>): Link
    decreases |chunks|
  {
    if chunks == [] || chunks[0] == [] || !l.open then l
    else Serve(service, Receive(service, l, chunks[0]), chunks[1..])
  }

  // ---- The loops themselves ----------------------------------------------------------------

  class ByteBuffer {
    var bytes: seq<byte>

    constructor ()
      ensures bytes == []
    {
      bytes := [];
    }

    method Extend(chunk: seq<byte>)
      modifies this
      ensures bytes == old(bytes) + chunk
    {
      bytes := bytes + chunk;
    }

    method DropPaddingBeforeNextPacket(previousId: Option<u16>) returns (dropped: Option<byte>)
      modifies this
      ensures dropped.Some? <==> DropsPadding(old(bytes), previousId)
      ensures dropped.Some? ==> old(bytes) == [dropped.value] + bytes
      ensures dropped.None? ==> bytes == old(bytes)
    {
      dropped := None;
      if previousId.None? {
        return;
      }
      if !LooksLikeNextPacket(bytes, 0, previousId.value) && LooksLikeNextPacket(bytes, 1, previousId.value) {
        dropped := Some(bytes[0]);
        bytes := bytes[1..];
      }
    }

    /** Drops at most one padding byte, then cuts at most one frame. */
    method SplitFromAfter(previousId: Option<u16>)
      returns (dropped: Option<byte>, raw: seq<byte>, packet: Option<Result<Packet, PacketError>>)
      modifies this
      ensures dropped.Some? <==> DropsPadding(old(bytes), previousId)
      ensures dropped.Some? ==> dropped.value == old(bytes)[0]
      ensures packet.Some? <==> HasFrame(AfterPadding(old(bytes), previousId))
      ensures packet.None? ==> bytes == AfterPadding(old(bytes), previousId) && raw == []
      ensures packet.Some? ==>
                && packet.value == New(raw)
                && |raw| == FrameSize(ReadU16(AfterPadding(old(bytes), previousId), 0))
                && raw == AfterPadding(old(bytes), previousId)[..|raw|]
                && bytes == AfterPadding(old(bytes), previousId)[|raw|..]
    {
      dropped := DropPaddingBeforeNextPacket(previousId);
      assert bytes == AfterPadding(old(bytes), previousId);
      raw, packet := [], None;
      if |bytes| < LEN_SIZE {
        return;
      }
      var length := ReadU16(bytes, 0);
      var total := if length == HEADER_SIZE + 1 then FRAME_HEADER_SIZE else length + LEN_SIZE;
      if |bytes| < total {
        return;
      }
      raw, bytes := bytes[..total], bytes[total..];
      packet := Some(New(raw));
    }
  }

  /** The body of both services' handle_client, with the packets recorded instead of answered. */
  method HandleClient(service: Service, chunks: seq<seq<byte>>)
    returns (trace: seq<Event>, buffer: seq<byte>, previousId: Option<u16>, open: bool)
    ensures Link(buffer, previousId, trace, open) == Serve(service, FRESH, chunks)
  {
    var b := new ByteBuffer();
    trace, previousId, open := [], None, true;
    var i := 0;
    while i < |chunks| && open
      invariant 0 <= i <= |chunks|
      invariant Serve(service, FRESH, chunks) == Serve(service, Link(b.bytes, previousId, trace, open), chunks[i..])
    {
      if chunks[i] == [] {
        break;
      }
      ghost var start := Link(b.bytes, previousId, trace, true);
      b.Extend(chunks[i]);
      trace, previousId, open := DrainBuffer(service, b, previousId, trace);
      assert chunks[i..][1..] == chunks[i + 1..];
      assert Link(b.bytes, previousId, trace, open) == Receive(service, start, chunks[i]);
      i := i + 1;
    }
    buffer := b.bytes;
  }

  /** The inner `while let Some(packet)` loop. */
  method DrainBuffer(service: Service, b: ByteBuffer, previousId0: Option<u16>, trace0: seq<Event>)
    returns (trace: seq<Event>, previousId: Option<u16>, open: bool)
    modifies b
    ensures Link(b.bytes, previousId, trace, open) == Drain(service, Link(old(b.bytes), previousId0, trace0, true))
  {
    trace, previousId, open := trace0, previousId0, true;
    var more := true;
    ghost var goal := Drain(service, Link(b.bytes, previousId0, trace0, true));
    while more && open
      invariant more && open ==> goal == Drain(service, Link(b.bytes, previousId, trace, true))
      invariant !(more && open) ==> goal == Link(b.bytes, previousId, trace, open)
      decreases more && open, |b.bytes|
    {
      ghost var l := Link(b.bytes, previousId, trace, true);
      var dropped, raw, packet := b.SplitFromAfter(previousId);
      if dropped.Some? {
        trace := trace + [Dropped(dropped.value)];
      }
      ghost var d := DropPadding(l);
      assert d.buffer == AfterPadding(l.buffer, l.previousId) && d.trace == trace;
      match packet
      case None => more := false;
      case Some(Failure(e)) =>
        trace, open := trace + [Failed(raw, e)], false;
        assert TakeFrame(service, d) == Link(b.bytes, previousId, trace, false);
      case Some(Success(p)) =>
        trace := trace + [Frame(p)];
        previousId := Remember(service, previousId, p.id);
        assert TakeFrame(service, d) == Link(b.bytes, previousId, trace, true);
    }
  }
}
