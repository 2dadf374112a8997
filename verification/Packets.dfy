/** The packet codec of packet.rs: parsing, encoding and printing one frame. */
module Packets {
  import opened Wrappers
  import opened Bytes

  const LEN_SIZE: nat := 2
  const HEADER_SIZE: nat := 5
  const FRAME_HEADER_SIZE: nat := LEN_SIZE + HEADER_SIZE

  datatype PacketError = TooShort | InvalidLength | LenMismatch

  datatype Packet = Packet(length: u16, flag: byte, cmdId: u16, id: u16, data: seq<byte>, raw: seq<byte>)

  /** Parses exactly one frame. A declared length of 6 may stand for an empty frame of 7 bytes. */
  function New(data: seq<byte>): (r: Result<Packet, PacketError>) {
    if |data| < FRAME_HEADER_SIZE then Failure(TooShort)
    else
      var length := ReadU16(data, 0);
      if length != HEADER_SIZE + 1 && length < HEADER_SIZE then Failure(InvalidLength)
      else
        var emptyFrame := length == HEADER_SIZE + 1 && |data| == FRAME_HEADER_SIZE;
        if |data| != length + LEN_SIZE && !emptyFrame then Failure(LenMismatch)
        else
          var payloadLength := if emptyFrame then 0 else length - HEADER_SIZE;
          Success(Packet(length, data[2], ReadU16(data, 3), ReadU16(data, 5), data[7..7 + payloadLength], data))
  }

  /** The 16-bit cast of the length field wraps around. */
  function EncodeRaw(cmdId: u16, id: u16, data: seq<byte>): Packet {
    Packet((HEADER_SIZE + |data|) % 65536, 0, cmdId, id, data, [])
  }

  function ToBytes(p: Packet): (bytes: seq<byte>)
    ensures |bytes| == FRAME_HEADER_SIZE + |p.data|
  {
    WriteU16(p.length) + [p.flag] + WriteU16(p.cmdId) + WriteU16(p.id) + p.data
  }

  function RawLength(p: Packet): nat {
    if p.raw == [] then p.length + LEN_SIZE else |p.raw|
  }

  /** Printing undoes parsing on every accepted frame, and the recorded wire length is the true one. */
  lemma ParseThenPrint(bytes: seq<byte>)
    requires New(bytes).Success?
    ensures ToBytes(New(bytes).value) == bytes
    ensures RawLength(New(bytes).value) == |bytes|
  {
    var p := New(bytes).value;
    assert bytes == bytes[..7] + bytes[7..];
    WriteWhatWasRead(bytes, 0);
    WriteWhatWasRead(bytes, 3);
    WriteWhatWasRead(bytes, 5);
  }

  /** Header fields of a printed packet. */
  lemma PrintedHeader(p: Packet)
    ensures var b := ToBytes(p);
            && ReadU16(b, 0) == p.length && b[2] == p.flag
            && ReadU16(b, 3) == p.cmdId && ReadU16(b, 5) == p.id
            && b[3] == p.cmdId / 256 && b[7..] == p.data
  {
    var b := ToBytes(p);
    assert b[0] == WriteU16(p.length)[0] && b[1] == WriteU16(p.length)[1];
    assert b[3] == WriteU16(p.cmdId)[0] && b[4] == WriteU16(p.cmdId)[1];
    assert b[5] == WriteU16(p.id)[0] && b[6] == WriteU16(p.id)[1];
  }

  /** The seven header bytes, big-endian, and the payload behind them. */
  lemma WireLayout(p: Packet)
    ensures var b := ToBytes(p);
            && |b| == 7 + |p.data|
            && b[0] as int * 256 + b[1] as int == p.length && b[2] == p.flag
            && b[3] as int * 256 + b[4] as int == p.cmdId && b[5] as int * 256 + b[6] as int == p.id
            && b[7..] == p.data
  {
    PrintedHeader(p);
    var b := ToBytes(p);
    assert ReadU16(b, 0) == b[0] as int * 256 + b[1] as int;
  }

  /** The wire bytes of an encoded packet: its length field counts the flag, both ids and the payload. */
  lemma EncodedBytes(cmdId: u16, id: u16, data: seq<byte>)
    ensures var b := ToBytes(EncodeRaw(cmdId, id, data));
            && |b| == 7 + |data|
            && b[0] as int * 256 + b[1] as int == (5 + |data|) % 65536 && b[2] == 0
            && b[3] as int * 256 + b[4] as int == cmdId && b[5] as int * 256 + b[6] as int == id
            && b[7..] == data
  {
    WireLayout(EncodeRaw(cmdId, id, data));
    hide ToBytes;
  }

  /** Which bytes are refused, and why: too few for a header, a declared length below the header, or a
      declared length that is not the number of bytes behind it, except 6 for an empty payload. */
  lemma RefusedExactly(bytes: seq<byte>)
    ensures New(bytes) == Failure(TooShort) <==> |bytes| < 7
    ensures |bytes| >= 7 ==>
              var length := bytes[0] as int * 256 + bytes[1] as int;
              && (New(bytes) == Failure(InvalidLength) <==> length < 5)
              && (New(bytes).Success? <==>
                    length >= 5 && (|bytes| == length + 2 || (length == 6 && |bytes| == 7)))
              && (New(bytes) == Failure(LenMismatch) <==>
                    length >= 5 && |bytes| != length + 2 && !(length == 6 && |bytes| == 7))
    ensures New(bytes).Success? ==> New(bytes).value.raw == bytes
  {
    assert |bytes| >= 7 ==> ReadU16(bytes, 0) == bytes[0] as int * 256 + bytes[1] as int;
  }

  /** Parsing undoes encoding exactly up to the largest payload the length field can declare;
      beyond it the cast wraps and the bytes are refused. */
  lemma EncodeThenParse(cmdId: u16, id: u16, data: seq<byte>)
    ensures var r := New(ToBytes(EncodeRaw(cmdId, id, data)));
            && (r.Success? <==> |data| <= 65530)
            && (r.Success? ==>
                  r.value == Packet(5 + |data|, 0, cmdId, id, data, ToBytes(EncodeRaw(cmdId, id, data))))
  {
    PrintedHeader(EncodeRaw(cmdId, id, data));
  }
}
