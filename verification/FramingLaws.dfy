/** Laws of the read loops over every byte stream: conservation of bytes, bounded memory, what an
    event can be, and independence of the dispatch loop from how the stream is cut into reads. */
module FramingLaws {
  import opened Wrappers
  import opened Bytes
  import opened Packets
  import opened Framing

  // ---- The rules of the buffer, byte by byte ------------------------------------------------

  /** From `at` on the bytes show a client packet with the given id: a length of at least 5, flag 0, a
      command of at least 10000. */
  predicate ShowsPacket(b: seq<byte>, at: nat, id: int) {
    && |b| >= at + 7
    && b[at] as int * 256 + b[at + 1] as int >= 5 && b[at + 2] == 0
    && b[at + 3] as int * 256 + b[at + 4] as int >= 10000
    && b[at + 5] as int * 256 + b[at + 6] as int == id
  }

  /** A first byte is padding exactly if some id came before, and the packet with the next id shows from
      the second byte on but not from the first. */
  lemma PaddingRule(buffer: seq<byte>, previousId: Option<u16>)
    ensures DropsPadding(buffer, previousId) <==>
            && previousId.Some?
            && ShowsPacket(buffer, 1, (previousId.value + 1) % 65536)
            && !ShowsPacket(buffer, 0, (previousId.value + 1) % 65536)
  {
    assert |buffer| >= 7 ==> ReadU16(buffer, 0) == buffer[0] as int * 256 + buffer[1] as int;
  }

  /** A whole frame is there exactly if the two length bytes are and, counted with them, as many bytes as
      they declare, where 6 stands for an empty frame of 7. */
  lemma FrameRule(buffer: seq<byte>)
    ensures HasFrame(buffer) <==>
            && |buffer| >= 2
            && var length := buffer[0] as int * 256 + buffer[1] as int;
               |buffer| >= if length == 6 then 7 else length + 2
  {
  }

  // ---- Conservation, progress, bounds ------------------------------------------------------

  /** Everything received so far: the bytes already taken out, then the buffer. */
  function Received(l: Link): seq<byte> {
    TraceBytes(l.trace) + l.buffer
  }

  predicate NonEmpty(chunks: seq<seq<byte>>) {
    forall i | 0 <= i < |chunks| :: chunks[i] != []
  }

  lemma AddEvent(l: Link, e: Event, rest: seq<byte>)
    requires l.buffer == EventBytes(e) + rest
    ensures TraceBytes(l.trace + [e]) + rest == TraceBytes(l.trace) + l.buffer
  {
    assert (l.trace + [e])[..|l.trace|] == l.trace;
  }

  lemma DropPaddingKeepsBytes(l: Link)
    ensures l.trace <= DropPadding(l).trace && Received(DropPadding(l)) == Received(l)
  {
    var d := DropPadding(l);
    if d != l {
      AddEvent(l, Dropped(l.buffer[0]), d.buffer);
    }
  }

  lemma TakeFrameKeepsBytes(service: Service, l: Link)
    requires HasFrame(l.buffer)
    ensures l.trace <= TakeFrame(service, l).trace && Received(TakeFrame(service, l)) == Received(l)
  {
    var t := TakeFrame(service, l);
    var total := FrameSize(ReadU16(l.buffer, 0));
    assert l.buffer == l.buffer[..total] + t.buffer;
    AddEvent(l, t.trace[|l.trace|], t.buffer);
  }

  lemma {:induction false} DrainKeepsHistory(service: Service, l: Link)
    ensures l.trace <= Drain(service, l).trace && Received(Drain(service, l)) == Received(l)
    decreases |l.buffer|
  {
    var d := DropPadding(l);
    DropPaddingKeepsBytes(l);
    if l.open && HasFrame(d.buffer) {
      TakeFrameKeepsBytes(service, d);
      DrainKeepsHistory(service, TakeFrame(service, d));
    }
  }

  lemma ReceiveKeepsHistory(service: Service, l: Link, chunk: seq<byte>)
    ensures var n := Receive(service, l, chunk);
            l.trace <= n.trace && Received(n) == Received(l) + chunk
  {
    var first := l.(buffer := l.buffer + chunk);
    DrainKeepsHistory(service, first);
    assert Received(first) == Received(l) + chunk;
  }

  /** Bytes received are, in order, the frames and padding bytes taken out followed by the buffer. */
  lemma {:induction false} ServeConservesBytes(service: Service, l: Link, chunks: seq<seq<byte>>, all: seq<byte>)
    requires NonEmpty(chunks)
    requires all == Received(l) + Flatten(chunks)
    ensures var r := Serve(service, l, chunks);
            l.trace <= r.trace && Received(r) <= all && (r.open ==> Received(r) == all)
    decreases |chunks|
  {
    if chunks == [] || !l.open {
    } else {
      ReceiveKeepsHistory(service, l, chunks[0]);
      assert Received(l) + chunks[0] + Flatten(chunks[1..]) == all;
      ServeConservesBytes(service, Receive(service, l, chunks[0]), chunks[1..], all);
    }
  }

  /** A frame event is a whole parsed frame of at least 7 bytes; a failure is a frame whose declared
      length is below 5, and it is always reported as too short. */
  predicate GenuineEvent(e: Event) {
    match e
    case Frame(p) => |p.raw| >= 7 && New(p.raw) == Success(p)
    case Dropped(_) => true
    case Failed(raw, error) => 2 <= |raw| < 7 && ReadU16(raw, 0) < 5 && error == TooShort
  }

  /** Only the last event can be a failure, and exactly then the connection is closed. */
  predicate GenuineTrace(l: Link) {
    && (forall i | 0 <= i < |l.trace| :: GenuineEvent(l.trace[i]))
    && (forall i | 0 <= i < |l.trace| :: l.trace[i].Failed? <==> !l.open && i == |l.trace| - 1)
    && (!l.open ==> l.trace != [])
  }

  lemma FrameSizes(buffer: seq<byte>)
    requires HasFrame(buffer)
    ensures var length := ReadU16(buffer, 0); var raw := buffer[..FrameSize(length)];
            && (length < 5 ==> New(raw) == Failure(TooShort))
            && (length >= 5 ==> New(raw).Success? && |raw| >= 7 && New(raw).value.raw == raw)
            && ReadU16(raw, 0) == length
  {
  }

  lemma {:induction false} DrainIsGenuine(service: Service, l: Link)
    requires GenuineTrace(l) && l.open
    ensures GenuineTrace(Drain(service, l))
    ensures Drain(service, l).open ==> |Drain(service, l).buffer| <= 65536
    decreases |l.buffer|
  {
    var d := DropPadding(l);
    if HasFrame(d.buffer) {
      FrameSizes(d.buffer);
      if TakeFrame(service, d).open {
        DrainIsGenuine(service, TakeFrame(service, d));
      }
    }
  }

  /** Every reachable connection has a genuine trace, holds at most 65536 bytes between reads and at
      most 69632 right after one. */
  lemma {:induction false} ServeIsGenuineAndBounded(service: Service, l: Link, chunks: seq<seq<byte>>)
    requires GenuineTrace(l) && (l.open ==> |l.buffer| <= 65536)
    requires forall c | c in chunks :: |c| <= 4096
    ensures var r := Serve(service, l, chunks);
            GenuineTrace(r) && (r.open ==> |r.buffer| <= 65536)
    ensures forall i | 0 <= i < |chunks| ::
              var before := Serve(service, l, chunks[..i]);
              before.open ==> |before.buffer + chunks[i]| <= 69632
    decreases |chunks|
  {
    forall i | 0 <= i < |chunks|
      ensures var before := Serve(service, l, chunks[..i]);
              before.open ==> |before.buffer + chunks[i]| <= 69632
    {
      assert chunks[i] in chunks;
      ServeIsGenuineAndBounded(service, l, chunks[..i]);
    }
    if chunks != [] && chunks[0] != [] && l.open {
      DrainIsGenuine(service, l.(buffer := l.buffer + chunks[0]));
      ServeIsGenuineAndBounded(service, Receive(service, l, chunks[0]), chunks[1..]);
    }
  }

  /** A whole connection, gate or dispatch, on any stream: what was received is what was taken out
      plus the buffer, and the buffer stays bounded between reads and right after each. */
  lemma ConnectionAccountsForBytes(service: Service, chunks: seq<seq<byte>>)
    requires forall i | 0 <= i < |chunks| :: 0 < |chunks[i]| <= 4096
    ensures var r := Serve(service, FRESH, chunks);
            && TraceBytes(r.trace) + r.buffer <= Flatten(chunks)
            && (r.open ==> TraceBytes(r.trace) + r.buffer == Flatten(chunks) && |r.buffer| <= 65536)
            && GenuineTrace(r)
    ensures forall i | 0 <= i < |chunks| ::
              var before := Serve(service, FRESH, chunks[..i]);
              before.open ==> |before.buffer + chunks[i]| <= 69632
  {
    assert Received(FRESH) == [];
    assert [] + Flatten(chunks) == Flatten(chunks);
    ServeConservesBytes(service, FRESH, chunks, Flatten(chunks));
    ServeIsGenuineAndBounded(service, FRESH, chunks);
  }

  // ---- The dispatch loop -------------------------------------------------------------------

  /** Draining early and draining late agree: without padding removal a frame is cut the same way
      whatever follows it. */
  lemma {:induction false} DispatchDrainsEarly(l: Link, more: seq<byte>)
    requires l.open && l.previousId.None?
    ensures var late := Drain(Dispatch, l.(buffer := l.buffer + more));
            var early := Drain(Dispatch, l);
            && early.previousId.None?
            && late == (if early.open then Drain(Dispatch, early.(buffer := early.buffer + more))
                        else early.(buffer := early.buffer + more))
    decreases |l.buffer|
  {
    if HasFrame(l.buffer) {
      var whole := l.(buffer := l.buffer + more);
      var total := FrameSize(ReadU16(l.buffer, 0));
      assert whole.buffer[..total] == l.buffer[..total];
      assert whole.buffer[total..] == l.buffer[total..] + more;
      var t := TakeFrame(Dispatch, l);
      assert TakeFrame(Dispatch, whole) == t.(buffer := t.buffer + more);
      if t.open {
        DispatchDrainsEarly(t, more);
      }
    }
  }

  lemma DispatchDrainIsIdempotent(l: Link)
    requires l.open && l.previousId.None?
    ensures Drain(Dispatch, Drain(Dispatch, l)) == Drain(Dispatch, l)
  {
    DispatchDrainsEarly(l, []);
    assert l.buffer + [] == l.buffer;
    assert Drain(Dispatch, l).buffer + [] == Drain(Dispatch, l).buffer;
  }

  /** The packets, the error point and, while open, the leftover bytes do not depend on how the
      stream was cut; after an error the unread bytes are all that is missing from the buffer. */
  lemma {:induction false} DispatchIgnoresChunking(l: Link, chunks: seq<seq<byte>>)
    requires l.open && l.previousId.None?
    requires NonEmpty(chunks)
    requires Drain(Dispatch, l) == l
    ensures var cut := Serve(Dispatch, l, chunks);
            var whole := Drain(Dispatch, l.(buffer := l.buffer + Flatten(chunks)));
            && cut.trace == whole.trace && cut.open == whole.open && cut.previousId == whole.previousId
            && (cut.open ==> cut.buffer == whole.buffer)
            && cut.buffer <= whole.buffer
    decreases |chunks|
  {
    if chunks == [] {
      assert l.buffer + [] == l.buffer;
    } else {
      var first := l.(buffer := l.buffer + chunks[0]);
      var n := Receive(Dispatch, l, chunks[0]);
      assert first.buffer + Flatten(chunks[1..]) == l.buffer + Flatten(chunks);
      DispatchDrainsEarly(first, Flatten(chunks[1..]));
      DispatchDrainIsIdempotent(first);
      if n.open {
        DispatchIgnoresChunking(n, chunks[1..]);
      } else {
        assert Serve(Dispatch, n, chunks[1..]) == n;
      }
    }
  }

  /** Every way of reading a stream at the dispatch service gives the packets, the error point and
      the leftover bytes of the whole stream read at once. */
  lemma DispatchReadsStream(chunks: seq<seq<byte>>)
    requires NonEmpty(chunks)
    ensures var cut := Serve(Dispatch, FRESH, chunks);
            var whole := Drain(Dispatch, FRESH.(buffer := Flatten(chunks)));
            && cut.trace == whole.trace && cut.open == whole.open
            && (cut.open ==> cut.buffer == whole.buffer) && cut.buffer <= whole.buffer
  {
    assert [] + Flatten(chunks) == Flatten(chunks);
    DispatchIgnoresChunking(FRESH, chunks);
  }

  // ---- Encoded streams ---------------------------------------------------------------------

  datatype Message = Message(cmdId: u16, id: u16, data: seq<byte>)

  function Encoded(m: Message): seq<byte> {
    ToBytes(EncodeRaw(m.cmdId, m.id, m.data))
  }

  function EncodedStream(ms: seq<Message>): seq<byte> {
    if ms == [] then [] else Encoded(ms[0]) + EncodedStream(ms[1..])
  }

  function EncodedEvent(m: Message): Event {
    Frame(Packet((5 + |m.data|) % 65536, 0, m.cmdId, m.id, m.data, Encoded(m)))
  }

  function EncodedEvents(ms: seq<Message>): seq<Event> {
    if ms == [] then [] else [EncodedEvent(ms[0])] + EncodedEvents(ms[1..])
  }

  predicate SplitsCleanly(m: Message) {
    |m.data| != 1 && |m.data| <= 65530
  }

  lemma EncodedHead(m: Message, rest: seq<byte>)
    ensures var b := Encoded(m) + rest;
            && ReadU16(b, 0) == EncodeRaw(m.cmdId, m.id, m.data).length
            && b[..|Encoded(m)|] == Encoded(m) && b[|Encoded(m)|..] == rest
  {
    PrintedHeader(EncodeRaw(m.cmdId, m.id, m.data));
  }

  lemma CleanHeadIsTaken(l: Link, m: Message, rest: seq<byte>)
    requires l.buffer == Encoded(m) + rest && SplitsCleanly(m)
    requires l.open && l.previousId.None?
    ensures Drain(Dispatch, l) == Drain(Dispatch, Link(rest, None, l.trace + [EncodedEvent(m)], true))
  {
    EncodedHead(m, rest);
    EncodeThenParse(m.cmdId, m.id, m.data);
  }

  /** A message that does not split cleanly is cut at a length other than its own. */
  lemma UncleanHeadIsMiscut(l: Link, m: Message, rest: seq<byte>)
    requires l.open && l.previousId.None? && l.buffer == Encoded(m) + rest && !SplitsCleanly(m)
    ensures var r := Drain(Dispatch, l);
            r.trace == l.trace || (|l.trace| < |r.trace| && r.trace[|l.trace|] != EncodedEvent(m))
  {
    EncodedHead(m, rest);
    if HasFrame(l.buffer) {
      FrameSizes(l.buffer);
      var t := TakeFrame(Dispatch, l);
      DrainKeepsHistory(Dispatch, t);
      assert |EventBytes(t.trace[|l.trace|])| != |Encoded(m)|;
    }
  }

  /** Encoded messages put end to end are split back into exactly those messages if and only if no
      payload has length 1 (its declared length 6 is cut as an empty frame) or exceeds 65530. */
  lemma {:induction false} EncodedStreamSplitsBack(l: Link, ms: seq<Message>)
    requires l.open && l.previousId.None? && l.buffer == EncodedStream(ms)
    ensures Drain(Dispatch, l) == Link([], None, l.trace + EncodedEvents(ms), true)
            <==> forall i | 0 <= i < |ms| :: SplitsCleanly(ms[i])
    decreases |ms|
  {
    if ms == [] {
      assert l.trace + [] == l.trace;
    } else {
      var m, wire, rest := ms[0], EncodedStream(ms[1..]), EncodedEvents(ms[1..]);
      Associates(l.trace, [EncodedEvent(m)], rest);
      if SplitsCleanly(m) {
        CleanHeadIsTaken(l, m, wire);
        EncodedStreamSplitsBack(Link(wire, None, l.trace + [EncodedEvent(m)], true), ms[1..]);
        CleanTail(ms);
      } else {
        UncleanHeadIsMiscut(l, m, wire);
        assert (l.trace + EncodedEvents(ms))[|l.trace|] == EncodedEvent(m);
      }
    }
  }

  lemma CleanTail(ms: seq<Message>)
    requires ms != [] && SplitsCleanly(ms[0])
    ensures (forall i | 0 <= i < |ms| :: SplitsCleanly(ms[i]))
            <==> (forall i | 0 <= i < |ms[1..]| :: SplitsCleanly(ms[1..][i]))
  {
    assert forall i | 0 < i < |ms| :: ms[i] == ms[1..][i - 1];
  }
}
