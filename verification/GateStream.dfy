/** Reassembly at the gate: client frames, some preceded by a stray padding byte, come out intact under
    a given way of cutting the stream into reads exactly when no read ends in the few places after a
    padding byte where that byte and the high byte of the length after it pass for a whole frame. */
module GateStream {
  import opened Wrappers
  import opened Bytes
  import opened Packets
  import opened Framing
  import opened FramingLaws

  datatype ClientFrame =
    ClientFrame(pad: Option<byte>, length: u16, flag: byte, cmdId: u16, id: u16, payload: seq<byte>)

  function FrameBytes(f: ClientFrame): seq<byte> {
    ToBytes(Packet(f.length, f.flag, f.cmdId, f.id, f.payload, []))
  }

  function PacketOf(f: ClientFrame): Packet {
    Packet(f.length, f.flag, f.cmdId, f.id, f.payload, FrameBytes(f))
  }

  function WireBytes(f: ClientFrame): seq<byte> {
    (if f.pad.Some? then [f.pad.value] else []) + FrameBytes(f)
  }

  function Wire(fs: seq<ClientFrame>): seq<byte> {
    if fs == [] then [] else WireBytes(fs[0]) + Wire(fs[1..])
  }

  /** An empty frame may declare length 6; every other frame declares 5 plus its payload, and no
      payload has length 1. */
  predicate WellFormed(f: ClientFrame) {
    && f.cmdId >= 10000
    && (if f.length == 6 then f.payload == [] else |f.payload| != 1 && f.length == 5 + |f.payload|)
  }

  /** The last nonzero id on the connection, once a frame with the given id has been sent. */
  function LastNonzero(previousId: Option<u16>, id: u16): Option<u16> {
    if id == 0 then previousId else Some(id)
  }

  /** A padding byte comes only before a packet that follows the last nonzero id in order. */
  predicate PadInOrder(f: ClientFrame, previousId: Option<u16>) {
    f.pad.Some? ==> previousId.Some? && f.flag == 0 && f.id == (previousId.value as int + 1) % 65536
  }

  predicate Sendable(fs: seq<ClientFrame>, previousId: Option<u16>) {
    fs == []
    || (WellFormed(fs[0]) && PadInOrder(fs[0], previousId)
        && Sendable(fs[1..], LastNonzero(previousId, fs[0].id)))
  }

  /** The padding byte and the high byte of the length after it cannot be read as a frame that fits
      in the seven bytes the lookahead needs. */
  predicate SafePad(f: ClientFrame) {
    f.pad.Some? ==> f.pad.value as int * 256 + f.length / 256 >= 7
  }

  predicate AllSafe(fs: seq<ClientFrame>) {
    forall i | 0 <= i < |fs| :: SafePad(fs[i])
  }

  /** With `n` bytes buffered from the padding byte on, it and the high byte of the length after it pass
      for the length of a whole frame, and the lookahead does not reach far enough yet. */
  predicate InWindow(f: ClientFrame, n: int) {
    f.pad.Some? && FrameSize(f.pad.value as int * 256 + f.length / 256) <= n <= 7
  }

  /** A read may end at stream position `n`, when the frames `fs` begin at position `from`. */
  predicate GoodAt(fs: seq<ClientFrame>, from: int, n: int) {
    fs == [] || (!InWindow(fs[0], n - from) && GoodAt(fs[1..], from + |WireBytes(fs[0])|, n))
  }

  /** So may all reads that follow the first `n` bytes of the stream. */
  predicate GoodCut(fs: seq<ClientFrame>, from: int, n: int, chunks: seq<seq<byte>>)
    decreases |chunks|
  {
    chunks == []
    || (GoodAt(fs, from, n + |chunks[0]|) && GoodCut(fs, from, n + |chunks[0]|, chunks[1..]))
  }

  function FrameEvents(f: ClientFrame): seq<Event> {
    if f.pad.Some? then [Dropped(f.pad.value), Frame(PacketOf(f))] else [Frame(PacketOf(f))]
  }

  function Expected(fs: seq<ClientFrame>): seq<Event> {
    if fs == [] then [] else FrameEvents(fs[0]) + Expected(fs[1..])
  }

  function LastId(fs: seq<ClientFrame>, previousId: Option<u16>): Option<u16> {
    if fs == [] then previousId else LastId(fs[1..], LastNonzero(previousId, fs[0].id))
  }

  /** Where the connection must end up: everything delivered, nothing left. */
  function Delivered(l: Link, fs: seq<ClientFrame>): Link {
    Link([], LastId(fs, l.previousId), l.trace + Expected(fs), true)
  }

  // ---- One frame ---------------------------------------------------------------------------

  lemma FrameParses(f: ClientFrame, rest: seq<byte>)
    requires WellFormed(f)
    ensures var b := FrameBytes(f) + rest;
            && |FrameBytes(f)| == FrameSize(f.length) >= 7
            && ReadU16(b, 0) == f.length && b[0] == f.length / 256 && b[2] == f.flag
            && b[3] != 0 && ReadU16(b, 3) == f.cmdId && ReadU16(b, 5) == f.id
            && b[..FrameSize(f.length)] == FrameBytes(f) && b[FrameSize(f.length)..] == rest
            && New(FrameBytes(f)) == Success(PacketOf(f))
  {
    PrintedHeader(Packet(f.length, f.flag, f.cmdId, f.id, f.payload, []));
    assert FrameBytes(f)[7..7 + |f.payload|] == FrameBytes(f)[7..] == f.payload;
  }

  lemma CommonHead<T>(a: seq<T>, b: seq<T>, buffer: seq<T>, future: seq<T>)
    requires buffer + future == a + b && |buffer| >= |a|
    ensures buffer == a + buffer[|a|..] && buffer[|a|..] + future == b
  {
    assert buffer == (buffer + future)[..|buffer|];
    assert buffer[|a|..] + future == (buffer + future)[|a|..];
    assert a == (a + b)[..|a|] && b == (a + b)[|a|..];
  }

  /** No byte of a well-formed frame is taken for padding, however much of it has arrived. */
  lemma FrameIsNotPadding(f: ClientFrame, buffer: seq<byte>, wire: seq<byte>, previousId: Option<u16>)
    requires WellFormed(f) && buffer <= FrameBytes(f) + wire
    ensures !DropsPadding(buffer, previousId)
    ensures |buffer| < |FrameBytes(f)| ==> !HasFrame(buffer)
  {
    FrameParses(f, wire);
    if |buffer| >= 8 {
      assert buffer[3] == (FrameBytes(f) + wire)[3];
    }
    if |buffer| >= 2 {
      assert ReadU16(buffer, 0) == ReadU16(FrameBytes(f) + wire, 0);
    }
  }

  /** With 8 bytes buffered, an in-order padding byte is recognised and the frame behind it is not
      mistaken for padding again; with fewer, something is cut exactly inside the window. */
  lemma PadIsRecognised(f: ClientFrame, buffer: seq<byte>, wire: seq<byte>, previousId: Option<u16>)
    requires WellFormed(f) && f.pad.Some? && PadInOrder(f, previousId)
    requires buffer <= WireBytes(f) + wire
    ensures DropsPadding(buffer, previousId) <==> |buffer| >= 8
    ensures |buffer| < 8 ==> (HasFrame(buffer) <==> InWindow(f, |buffer|))
  {
    FrameParses(f, wire);
    var b := FrameBytes(f) + wire;
    assert forall i | 0 < i < |buffer| :: buffer[i] == b[i - 1];
    if |buffer| >= 2 {
      assert buffer[0] == f.pad.value;
    }
    if |buffer| >= 8 {
      assert ReadU16(buffer, 3) < 256;
      assert ReadU16(buffer, 1) == f.length && ReadU16(buffer, 4) == f.cmdId && ReadU16(buffer, 6) == f.id;
    }
  }

  // ---- Draining a prefix of the wire -------------------------------------------------------

  /** What draining leaves when `n` bytes have been received: the frames not yet taken out (the first
      perhaps without its padding byte), which begin at position `to`. */
  ghost predicate Progress(l: Link, fs: seq<ClientFrame>, from: int, n: int, future: seq<byte>,
                           d: Link, gs: seq<ClientFrame>, to: int) {
    && d.open && Sendable(gs, d.previousId)
    && d.buffer + future == Wire(gs) && n == to + |d.buffer|
    && (future == [] ==> gs == [])
    && Delivered(d, gs) == Delivered(l, fs)
    && SameEnds(fs, from, gs, to, n)
  }

  /** From position `n` on, reads may end in the same places. */
  ghost predicate SameEnds(fs: seq<ClientFrame>, from: int, gs: seq<ClientFrame>, to: int, n: int) {
    forall m: int | m >= n :: GoodAt(fs, from, m) <==> GoodAt(gs, to, m)
  }

  lemma TakesFrame(l: Link, f: ClientFrame, rest: seq<byte>)
    requires l.open && WellFormed(f) && l.buffer == FrameBytes(f) + rest
    ensures !DropsPadding(l.buffer, l.previousId) && HasFrame(l.buffer)
    ensures TakeFrame(Gate, l) ==
            Link(rest, LastNonzero(l.previousId, f.id), l.trace + [Frame(PacketOf(f))], true)
  {
    FrameIsNotPadding(f, l.buffer, rest, l.previousId);
    FrameParses(f, rest);
  }

  lemma BareFrameExpects(l: Link, t: Link, fs: seq<ClientFrame>)
    requires fs != [] && fs[0].pad.None? && t.trace == l.trace + [Frame(PacketOf(fs[0]))]
    requires t.previousId == LastNonzero(l.previousId, fs[0].id)
    ensures Delivered(t, fs[1..]) == Delivered(l, fs)
  {
    Associates(l.trace, FrameEvents(fs[0]), Expected(fs[1..]));
  }

  lemma FrameKeepsEnds(fs: seq<ClientFrame>, from: int, n: int)
    requires fs != [] && fs[0].pad.None?
    ensures SameEnds(fs, from, fs[1..], from + |WireBytes(fs[0])|, n)
  {
    hide WireBytes;
  }

  lemma PadKeepsEnds(fs: seq<ClientFrame>, bare: seq<ClientFrame>, from: int, n: int)
    requires fs != [] && fs[0].pad.Some? && bare == [fs[0].(pad := None)] + fs[1..] && n >= from + 8
    ensures SameEnds(fs, from, bare, from + 1, n)
  {
    assert bare[1..] == fs[1..] && |WireBytes(fs[0])| == |WireBytes(bare[0])| + 1;
    hide WireBytes;
    forall m: int | m >= n
      ensures GoodAt(fs, from, m) <==> GoodAt(bare, from + 1, m)
    {
      assert from + |WireBytes(fs[0])| == from + 1 + |WireBytes(bare[0])|;
    }
  }

  lemma TakesWholeFrame(l: Link, fs: seq<ClientFrame>, future: seq<byte>) returns (t: Link)
    requires l.open && fs != [] && Sendable(fs, l.previousId) && fs[0].pad.None?
    requires l.buffer + future == Wire(fs) && |l.buffer| >= |FrameBytes(fs[0])|
    ensures Drain(Gate, l) == Drain(Gate, t) && |t.buffer| == |l.buffer| - |WireBytes(fs[0])| < |l.buffer|
    ensures t.open && Sendable(fs[1..], t.previousId)
    ensures t.buffer + future == Wire(fs[1..])
    ensures Delivered(t, fs[1..]) == Delivered(l, fs)
  {
    var f := fs[0];
    assert Wire(fs) == FrameBytes(f) + Wire(fs[1..]);
    assert |WireBytes(f)| == |FrameBytes(f)|;
    CommonHead(FrameBytes(f), Wire(fs[1..]), l.buffer, future);
    TakesFrame(l, f, l.buffer[|FrameBytes(f)|..]);
    t := TakeFrame(Gate, l);
    BareFrameExpects(l, t, fs);
  }

  lemma BareExpects(l: Link, d: Link, fs: seq<ClientFrame>, bare: seq<ClientFrame>)
    requires fs != [] && fs[0].pad.Some? && bare == [fs[0].(pad := None)] + fs[1..]
    requires d.trace == l.trace + [Dropped(fs[0].pad.value)] && d.previousId == l.previousId
    ensures Delivered(d, bare) == Delivered(l, fs)
  {
    assert bare[1..] == fs[1..];
    assert PacketOf(bare[0]) == PacketOf(fs[0]);
    var pad, frame, rest := [Dropped(fs[0].pad.value)], FrameEvents(bare[0]), Expected(fs[1..]);
    assert FrameEvents(fs[0]) == pad + frame;
    Associates(l.trace, pad, frame + rest);
    Associates(pad, frame, rest);
  }

  lemma DrainsAfterPad(l: Link)
    requires l.open && DropsPadding(l.buffer, l.previousId)
    requires !DropsPadding(DropPadding(l).buffer, DropPadding(l).previousId)
    ensures Drain(Gate, l) == Drain(Gate, DropPadding(l))
  {
    hide LooksLikeNextPacket, TakeFrame, HasFrame;
    assert DropPadding(DropPadding(l)) == DropPadding(l);
  }

  lemma Unpadded(fs: seq<ClientFrame>, bare: seq<ClientFrame>, previousId: Option<u16>)
    requires Sendable(fs, previousId) && fs != [] && fs[0].pad.Some? && bare == [fs[0].(pad := None)] + fs[1..]
    ensures Sendable(bare, previousId) && WellFormed(bare[0])
    ensures Wire(fs) == [fs[0].pad.value] + Wire(bare) && Wire(bare) == FrameBytes(bare[0]) + Wire(fs[1..])
  {
    assert bare[1..] == fs[1..];
    SameFrameBytes(bare[0], fs[0]);
    hide FrameBytes;
    var pad, frame, wire := [fs[0].pad.value], FrameBytes(fs[0]), Wire(fs[1..]);
    assert WireBytes(bare[0]) == [] + frame == frame;
    assert WireBytes(fs[0]) == pad + frame;
    hide WireBytes;
    assert Wire(bare) == frame + wire && Wire(fs) == pad + frame + wire;
    hide Wire;
    Associates(pad, frame, wire);
  }

  lemma SameFrameBytes(f: ClientFrame, g: ClientFrame)
    requires f == g.(pad := None)
    ensures FrameBytes(f) == FrameBytes(g)
  {
  }

  /** Without the padding byte the buffer is a prefix of the bare frames, whose first is not mistaken for
      padding again. */
  lemma UnpaddedBuffer(fs: seq<ClientFrame>, bare: seq<ClientFrame>, previousId: Option<u16>,
                       buffer: seq<byte>, future: seq<byte>)
    requires Sendable(fs, previousId) && fs != [] && fs[0].pad.Some? && bare == [fs[0].(pad := None)] + fs[1..]
    requires buffer != [] && buffer + future == Wire(fs)
    ensures buffer[0] == fs[0].pad.value && buffer[1..] + future == Wire(bare)
    ensures Sendable(bare, previousId) && !DropsPadding(buffer[1..], previousId)
  {
    hide Sendable, Wire, DropsPadding, FrameBytes;
    Unpadded(fs, bare, previousId);
    CommonHead([fs[0].pad.value], Wire(bare), buffer, future);
    FrameIsNotPadding(bare[0], buffer[1..], Wire(fs[1..]), previousId);
  }

  /** Enough has arrived for the padding byte, or else the frame, at the front to be taken out. */
  predicate FrontArrived(l: Link, fs: seq<ClientFrame>) {
    fs != [] && |l.buffer| >= if fs[0].pad.Some? then 8 else |FrameBytes(fs[0])|
  }

  lemma TakesPad(l: Link, fs: seq<ClientFrame>, from: int, n: int, future: seq<byte>)
    returns (t: Link, rest: seq<ClientFrame>)
    requires l.open && Sendable(fs, l.previousId) && l.buffer + future == Wire(fs)
    requires fs != [] && fs[0].pad.Some? && |l.buffer| >= 8 && n == from + |l.buffer|
    ensures t.open && Sendable(rest, t.previousId) && t.buffer + future == Wire(rest)
    ensures Drain(Gate, l) == Drain(Gate, t) && Delivered(t, rest) == Delivered(l, fs)
    ensures |t.buffer| == |l.buffer| - 1 && SameEnds(fs, from, rest, from + 1, n)
  {
    PadIsRecognised(fs[0], l.buffer, Wire(fs[1..]), l.previousId);
    t, rest := DropPadding(l), [fs[0].(pad := None)] + fs[1..];
    hide DropsPadding, Drain, Wire, Delivered, Sendable, SameEnds, InWindow;
    UnpaddedBuffer(fs, rest, l.previousId, l.buffer, future);
    DrainsAfterPad(l);
    BareExpects(l, t, fs, rest);
    PadKeepsEnds(fs, rest, from, n);
  }

  lemma TakesFront(l: Link, fs: seq<ClientFrame>, from: int, n: int, future: seq<byte>)
    returns (t: Link, rest: seq<ClientFrame>, to: int)
    requires l.open && Sendable(fs, l.previousId) && l.buffer + future == Wire(fs) && FrontArrived(l, fs)
    requires n == from + |l.buffer|
    ensures t.open && Sendable(rest, t.previousId) && t.buffer + future == Wire(rest)
    ensures Drain(Gate, l) == Drain(Gate, t) && Delivered(t, rest) == Delivered(l, fs)
    ensures n == to + |t.buffer| && |t.buffer| < |l.buffer| && SameEnds(fs, from, rest, to, n)
  {
    hide Drain, Wire, Delivered, Sendable, SameEnds, FrameBytes;
    if fs[0].pad.Some? {
      t, rest := TakesPad(l, fs, from, n, future);
      to := from + 1;
    } else {
      t := TakesWholeFrame(l, fs, future);
      rest, to := fs[1..], from + |WireBytes(fs[0])|;
      FrameKeepsEnds(fs, from, n);
    }
  }

  /** While the front has not arrived, nothing is taken out, unless a read ended in its window. */
  lemma WaitsForFront(l: Link, fs: seq<ClientFrame>, future: seq<byte>)
    requires l.open && Sendable(fs, l.previousId) && l.buffer + future == Wire(fs) && !FrontArrived(l, fs)
    requires fs != [] ==> !InWindow(fs[0], |l.buffer|)
    ensures Drain(Gate, l) == l && (future == [] ==> fs == [])
  {
    if fs != [] {
      var f, wire := fs[0], Wire(fs[1..]);
      FrameParses(f, wire);
      if f.pad.Some? {
        PadIsRecognised(f, l.buffer, wire, l.previousId);
      } else {
        assert Wire(fs) == FrameBytes(f) + wire;
        FrameIsNotPadding(f, l.buffer, wire, l.previousId);
      }
    }
  }

  lemma ProgressOn(l: Link, fs: seq<ClientFrame>, from: int, t: Link, rest: seq<ClientFrame>, via: int, n: int,
                   future: seq<byte>, d: Link, gs: seq<ClientFrame>, to: int)
    requires Progress(t, rest, via, n, future, d, gs, to) && Delivered(t, rest) == Delivered(l, fs)
    requires SameEnds(fs, from, rest, via, n)
    ensures Progress(l, fs, from, n, future, d, gs, to)
  {
    hide Wire, GoodAt, Delivered, Sendable;
  }

  /** If a read may end here, draining takes out whole frames and padding bytes, and nothing else. */
  lemma {:induction false} DrainsPrefix(l: Link, fs: seq<ClientFrame>, from: int, n: int, future: seq<byte>)
    returns (gs: seq<ClientFrame>, to: int)
    requires l.open && Sendable(fs, l.previousId) && l.buffer + future == Wire(fs)
    requires n == from + |l.buffer| && GoodAt(fs, from, n)
    ensures Progress(l, fs, from, n, future, Drain(Gate, l), gs, to)
    decreases |l.buffer|
  {
    hide Drain, Wire, Delivered, FrontArrived, Sendable, InWindow;
    if FrontArrived(l, fs) {
      var t, rest, via := TakesFront(l, fs, from, n, future);
      assert GoodAt(rest, via, n);
      hide Progress;
      gs, to := DrainsPrefix(t, rest, via, n, future);
      ProgressOn(l, fs, from, t, rest, via, n, future, Drain(Gate, t), gs, to);
    } else {
      gs, to := fs, from;
      assert fs != [] ==> !InWindow(fs[0], n - from);
      WaitsForFront(l, fs, future);
    }
  }

  /** If a read must not end here, draining emits an event that is not expected. */
  lemma {:induction false} DrainGoesWrong(l: Link, fs: seq<ClientFrame>, from: int, n: int, future: seq<byte>)
    requires l.open && Sendable(fs, l.previousId) && l.buffer + future == Wire(fs)
    requires n == from + |l.buffer| && !GoodAt(fs, from, n)
    ensures !(Drain(Gate, l).trace <= l.trace + Expected(fs))
    decreases |l.buffer|
  {
    var f := fs[0];
    FrameParses(f, []);
    if InWindow(f, n - from) {
      WindowMiscuts(l, fs, future);
    } else {
      BadIsAhead(fs[1..], from + |WireBytes(f)|, n);
      assert FrontArrived(l, fs);
      var t, rest, to := TakesFront(l, fs, from, n, future);
      hide GoodAt, Drain, Wire, FrontArrived;
      assert GoodAt(fs, from, n) <==> GoodAt(rest, to, n);
      DrainGoesWrong(t, rest, to, n, future);
    }
  }

  lemma {:induction false} BadIsAhead(fs: seq<ClientFrame>, from: int, n: int)
    requires !GoodAt(fs, from, n)
    ensures n > from
  {
    if !InWindow(fs[0], n - from) {
      BadIsAhead(fs[1..], from + |WireBytes(fs[0])|, n);
    }
  }

  lemma WindowMiscuts(l: Link, fs: seq<ClientFrame>, future: seq<byte>)
    requires l.open && Sendable(fs, l.previousId) && l.buffer + future == Wire(fs)
    requires fs != [] && InWindow(fs[0], |l.buffer|)
    ensures !(Drain(Gate, l).trace <= l.trace + Expected(fs))
  {
    var f := fs[0];
    PadIsRecognised(f, l.buffer, Wire(fs[1..]), l.previousId);
    var t := TakeFrame(Gate, l);
    DrainKeepsHistory(Gate, t);
    assert Drain(Gate, l).trace[|l.trace|] == t.trace[|l.trace|];
    assert (l.trace + Expected(fs))[|l.trace|] == FrameEvents(f)[0] == Dropped(f.pad.value);
  }

  // ---- Whole runs --------------------------------------------------------------------------

  lemma {:induction false} CutKeepsEnds(fs: seq<ClientFrame>, from: int, gs: seq<ClientFrame>, to: int, n: int,
                                        chunks: seq<seq<byte>>)
    requires SameEnds(fs, from, gs, to, n)
    ensures GoodCut(fs, from, n, chunks) <==> GoodCut(gs, to, n, chunks)
    decreases |chunks|
  {
    if chunks != [] {
      CutKeepsEnds(fs, from, gs, to, n + |chunks[0]|, chunks[1..]);
    }
  }

  /** A read that ends outside the windows leaves the rest of the stream to be served. */
  lemma GoodRead(l: Link, fs: seq<ClientFrame>, from: int, n: int, chunk: seq<byte>, future: seq<byte>)
    returns (gs: seq<ClientFrame>, to: int)
    requires l.open && Sendable(fs, l.previousId) && l.buffer + chunk + future == Wire(fs)
    requires n == from + |l.buffer| + |chunk| && GoodAt(fs, from, n)
    ensures var d := Receive(Gate, l, chunk);
            && d.open && Sendable(gs, d.previousId) && d.buffer + future == Wire(gs) && (future == [] ==> gs == [])
            && Delivered(d, gs) == Delivered(l, fs) && d.trace + Expected(gs) == l.trace + Expected(fs)
            && n == to + |d.buffer| && SameEnds(fs, from, gs, to, n)
  {
    var first := l.(buffer := l.buffer + chunk);
    hide Drain, Wire, GoodAt, Expected, Sendable, LastId, SameEnds;
    gs, to := DrainsPrefix(first, fs, from, n, future);
    assert Delivered(first, fs) == Delivered(l, fs);
  }

  lemma BadRead(l: Link, fs: seq<ClientFrame>, from: int, n: int, chunk: seq<byte>, future: seq<byte>)
    requires l.open && Sendable(fs, l.previousId) && l.buffer + chunk + future == Wire(fs)
    requires n == from + |l.buffer| + |chunk| && !GoodAt(fs, from, n)
    ensures !(Receive(Gate, l, chunk).trace <= l.trace + Expected(fs))
  {
    hide Drain, Wire, GoodAt, Expected, Sendable;
    DrainGoesWrong(l.(buffer := l.buffer + chunk), fs, from, n, future);
  }

  /** From any point between two reads, `n` bytes into the stream: if the rest is cut well it is
      delivered exactly, and otherwise some event is not the expected one. */
  lemma {:induction false} ServesRest(l: Link, fs: seq<ClientFrame>, from: int, n: int, chunks: seq<seq<byte>>)
    requires l.open && Sendable(fs, l.previousId) && NonEmpty(chunks)
    requires l.buffer + Flatten(chunks) == Wire(fs) && n == from + |l.buffer|
    requires chunks == [] ==> fs == []
    ensures GoodCut(fs, from, n, chunks) ==> Serve(Gate, l, chunks) == Delivered(l, fs)
    ensures !GoodCut(fs, from, n, chunks) ==> !(Serve(Gate, l, chunks).trace <= l.trace + Expected(fs))
    decreases |chunks|
  {
    if chunks == [] {
      assert l.trace + [] == l.trace;
    } else {
      var future, m := Flatten(chunks[1..]), n + |chunks[0]|;
      Associates(l.buffer, chunks[0], future);
      hide Receive, Wire, GoodAt, Expected, Sendable, LastId, SameEnds;
      if GoodAt(fs, from, m) {
        var gs, to := GoodRead(l, fs, from, m, chunks[0], future);
        CutKeepsEnds(fs, from, gs, to, m, chunks[1..]);
        ServesRest(Receive(Gate, l, chunks[0]), gs, to, m, chunks[1..]);
      } else {
        BadRead(l, fs, from, m, chunks[0], future);
        ServeKeepsTrace(Receive(Gate, l, chunks[0]), chunks[1..]);
      }
    }
  }

  lemma {:induction false} ServeKeepsTrace(l: Link, chunks: seq<seq<byte>>)
    ensures l.trace <= Serve(Gate, l, chunks).trace
    decreases |chunks|
  {
    if chunks == [] || chunks[0] == [] || !l.open {
    } else {
      ReceiveKeepsHistory(Gate, l, chunks[0]);
      ServeKeepsTrace(Receive(Gate, l, chunks[0]), chunks[1..]);
    }
  }

  predicate Cuts(chunks: seq<seq<byte>>, stream: seq<byte>) {
    NonEmpty(chunks) && Flatten(chunks) == stream
  }

  /** Where the frame at index `j` begins, padding byte included. */
  function Offset(fs: seq<ClientFrame>, j: nat): nat
    requires j <= |fs|
  {
    if j == 0 then 0 else |WireBytes(fs[0])| + Offset(fs[1..], j - 1)
  }

  /** How much has been received after the first `i` reads. */
  function ReadEnd(chunks: seq<seq<byte>>, i: nat): nat
    requires i <= |chunks|
  {
    if i == 0 then 0 else |chunks[0]| + ReadEnd(chunks[1..], i - 1)
  }

  /** The place `n` bytes into the stream is in the window of the frame at index `j`: late enough for the
      padding byte and the byte after it to pass for a whole frame, and less than 8 bytes after the
      padding byte begins. */
  predicate HitsWindow(fs: seq<ClientFrame>, n: int, j: nat)
    requires j < |fs|
  {
    InWindow(fs[j], n - Offset(fs, j))
  }

  predicate OutsideWindows(fs: seq<ClientFrame>, n: int) {
    forall j | 0 <= j < |fs| :: !HitsWindow(fs, n, j)
  }

  lemma {:induction false} GoodAtMeansOutside(fs: seq<ClientFrame>, from: int, n: int, k: int)
    requires k == n - from
    ensures GoodAt(fs, from, n) <==> OutsideWindows(fs, k)
  {
    hide InWindow, WireBytes;
    if fs != [] {
      var rest, m := fs[1..], k - |WireBytes(fs[0])|;
      GoodAtMeansOutside(rest, from + |WireBytes(fs[0])|, n, m);
      assert HitsWindow(fs, k, 0) == InWindow(fs[0], n - from);
      forall j | 0 <= j < |rest|
        ensures HitsWindow(fs, k, j + 1) == HitsWindow(rest, m, j)
      {
        assert k - Offset(fs, j + 1) == m - Offset(rest, j);
      }
      forall j | 0 < j < |fs|
        ensures HitsWindow(fs, k, j) == HitsWindow(rest, m, j - 1)
      {
        assert k - Offset(fs, j) == m - Offset(rest, j - 1);
      }
    }
  }

  predicate GoodEnd(fs: seq<ClientFrame>, n: int, chunks: seq<seq<byte>>, i: nat)
    requires i <= |chunks|
  {
    GoodAt(fs, 0, n + ReadEnd(chunks, i))
  }

  lemma {:induction false} GoodCutMeansGoodEnds(fs: seq<ClientFrame>, n: int, chunks: seq<seq<byte>>)
    ensures GoodCut(fs, 0, n, chunks) <==> forall i | 0 < i <= |chunks| :: GoodEnd(fs, n, chunks, i)
    decreases |chunks|
  {
    hide GoodAt;
    if chunks != [] {
      var rest, m := chunks[1..], n + |chunks[0]|;
      GoodCutMeansGoodEnds(fs, m, rest);
      assert n + ReadEnd(chunks, 1) == m + ReadEnd(rest, 0) == m;
      assert GoodEnd(fs, n, chunks, 1) == GoodAt(fs, 0, m);
      forall i | 0 < i <= |rest|
        ensures GoodEnd(fs, n, chunks, i + 1) == GoodEnd(fs, m, rest, i)
      {
        assert n + ReadEnd(chunks, i + 1) == m + ReadEnd(rest, i);
      }
      forall i | 1 < i <= |chunks|
        ensures GoodEnd(fs, n, chunks, i) == GoodEnd(fs, m, rest, i - 1)
      {
        assert n + ReadEnd(chunks, i) == m + ReadEnd(rest, i - 1);
      }
    }
  }

  /** Some read ends in the window of some padding byte. */
  ghost predicate ReadEndsInWindow(fs: seq<ClientFrame>, chunks: seq<seq<byte>>) {
    exists i :: 0 < i <= |chunks| && !OutsideWindows(fs, ReadEnd(chunks, i))
  }

  lemma CutWellIffNoWindow(fs: seq<ClientFrame>, chunks: seq<seq<byte>>)
    ensures GoodCut(fs, 0, 0, chunks) <==> !ReadEndsInWindow(fs, chunks)
  {
    GoodCutMeansGoodEnds(fs, 0, chunks);
    hide OutsideWindows, GoodCut;
    forall i | 0 < i <= |chunks|
      ensures GoodEnd(fs, 0, chunks, i) <==> OutsideWindows(fs, ReadEnd(chunks, i))
    {
      GoodAtMeansOutside(fs, 0, ReadEnd(chunks, i), ReadEnd(chunks, i));
    }
    hide GoodEnd;
  }

  /** Reassembly, cut by cut: the frames come out in order, exactly the padding bytes are dropped and the
      buffer ends empty, if and only if no read ends in the window of any padding byte. */
  lemma ReassemblesIffNoReadEndsInWindow(fs: seq<ClientFrame>, chunks: seq<seq<byte>>)
    requires Sendable(fs, None) && Cuts(chunks, Wire(fs))
    ensures Serve(Gate, FRESH, chunks) == Link([], LastId(fs, None), Expected(fs), true)
            <==> !ReadEndsInWindow(fs, chunks)
  {
    CutWellIffNoWindow(fs, chunks);
    hide ReadEndsInWindow;
    if fs != [] {
      FrameParses(fs[0], Wire(fs[1..]));
    }
    assert [] + Flatten(chunks) == Wire(fs);
    hide GoodCut, Wire, FrameBytes;
    ServesRest(FRESH, fs, 0, 0, chunks);
    assert [] + Expected(fs) == Expected(fs);
  }

  // ---- Every cut ---------------------------------------------------------------------------

  /** A safe padding byte has no window; an unsafe one at least the place seven bytes on. */
  lemma SafeMeansNoWindow(f: ClientFrame)
    ensures SafePad(f) <==> forall n: int :: !InWindow(f, n)
    ensures !SafePad(f) ==> InWindow(f, 7)
  {
    assert !SafePad(f) ==> InWindow(f, 7);
  }

  /** If every padding byte is safe, the stream is reassembled whatever the reads. */
  lemma Reassembles(fs: seq<ClientFrame>, chunks: seq<seq<byte>>)
    requires Sendable(fs, None) && AllSafe(fs) && Cuts(chunks, Wire(fs))
    ensures Serve(Gate, FRESH, chunks) == Link([], LastId(fs, None), Expected(fs), true)
  {
    forall n: int
      ensures OutsideWindows(fs, n)
    {
      forall j | 0 <= j < |fs|
        ensures !HitsWindow(fs, n, j)
      {
        SafeMeansNoWindow(fs[j]);
      }
    }
    hide Serve, Wire, OutsideWindows;
    ReassemblesIffNoReadEndsInWindow(fs, chunks);
  }

  lemma {:induction false} OffsetFits(fs: seq<ClientFrame>, j: nat)
    requires j < |fs|
    ensures Offset(fs, j) + |WireBytes(fs[j])| <= |Wire(fs)|
  {
    hide WireBytes;
    if j > 0 {
      OffsetFits(fs[1..], j - 1);
    }
  }

  lemma {:induction false} SendableFrames(fs: seq<ClientFrame>, previousId: Option<u16>, j: nat)
    requires Sendable(fs, previousId) && j < |fs|
    ensures WellFormed(fs[j])
  {
    if j > 0 {
      SendableFrames(fs[1..], LastNonzero(previousId, fs[0].id), j - 1);
    }
  }

  /** Seven bytes after an unsafe padding byte begins is a place inside the stream where no read may end. */
  lemma UnsafePadHasBadPlace(fs: seq<ClientFrame>, previousId: Option<u16>) returns (n: nat)
    requires Sendable(fs, previousId) && !AllSafe(fs)
    ensures 0 < n < |Wire(fs)| && !GoodAt(fs, 0, n)
  {
    var j :| 0 <= j < |fs| && !SafePad(fs[j]);
    n := Offset(fs, j) + 7;
    OffsetFits(fs, j);
    SendableFrames(fs, previousId, j);
    FrameParses(fs[j], []);
    SafeMeansNoWindow(fs[j]);
    assert HitsWindow(fs, n, j);
    hide GoodAt, InWindow, Wire, HitsWindow, FrameBytes;
    GoodAtMeansOutside(fs, 0, n, n);
  }

  /** A stream with an unsafe padding byte goes wrong if a first read ends at such a place. */
  lemma UnsafePadBreaks(l: Link, fs: seq<ClientFrame>) returns (chunks: seq<seq<byte>>)
    requires l.open && l.buffer == [] && Sendable(fs, l.previousId) && !AllSafe(fs)
    ensures Cuts(chunks, Wire(fs))
    ensures Serve(Gate, l, chunks).trace != l.trace + Expected(fs)
  {
    hide GoodAt, Wire, Sendable, AllSafe, Expected, Serve;
    var n := UnsafePadHasBadPlace(fs, l.previousId);
    chunks := TwoChunks(Wire(fs)[..n], Wire(fs)[n..]);
    assert Wire(fs)[..n] + Wire(fs)[n..] == Wire(fs) == l.buffer + Flatten(chunks);
    assert !GoodCut(fs, 0, 0, chunks);
    ServesRest(l, fs, 0, 0, chunks);
  }

  lemma TwoChunks(head: seq<byte>, tail: seq<byte>) returns (chunks: seq<seq<byte>>)
    requires head != [] && tail != []
    ensures chunks == [head, tail] && Cuts(chunks, head + tail)
  {
    chunks := [head, tail];
    assert chunks[1..] == [tail] && chunks[1..][1..] == [];
    assert Flatten(chunks[1..]) == tail + Flatten(chunks[1..][1..]) == tail;
  }

  /** The failing streams are real: an empty frame, then a zero padding byte before another one. */
  lemma ZeroPadBeforeEmptyFrameBreaks(cmdId: u16, id: u16)
    requires cmdId >= 10000 && 0 < id < 65535
    ensures var fs := [ClientFrame(None, 6, 0, cmdId, id, []), ClientFrame(Some(0), 6, 0, cmdId, id + 1, [])];
            && Sendable(fs, None) && !AllSafe(fs)
            && exists chunks :: Cuts(chunks, Wire(fs)) && Serve(Gate, FRESH, chunks).trace != Expected(fs)
  {
    var first, second := ClientFrame(None, 6, 0, cmdId, id, []), ClientFrame(Some(0), 6, 0, cmdId, id + 1, []);
    var fs := [first, second];
    assert fs[1..] == [second] && [second][1..] == [];
    assert Sendable([], LastNonzero(Some(id), id + 1));
    assert Sendable([second], Some(id));
    assert !SafePad(fs[1]);
    var chunks := UnsafePadBreaks(FRESH, fs);
    assert [] + Expected(fs) == Expected(fs);
  }

  /** A sendable stream is reassembled under every cut if and only if every padding byte in it is safe. */
  lemma ReassemblesUnderEveryCutIffSafe(fs: seq<ClientFrame>)
    requires Sendable(fs, None)
    ensures AllSafe(fs) <==>
            forall chunks | Cuts(chunks, Wire(fs)) ::
              Serve(Gate, FRESH, chunks) == Link([], LastId(fs, None), Expected(fs), true)
  {
    if AllSafe(fs) {
      forall chunks | Cuts(chunks, Wire(fs))
        ensures Serve(Gate, FRESH, chunks) == Link([], LastId(fs, None), Expected(fs), true)
      {
        Reassembles(fs, chunks);
      }
    } else {
      var chunks := UnsafePadBreaks(FRESH, fs);
      assert [] + Expected(fs) == Expected(fs);
    }
  }
}
