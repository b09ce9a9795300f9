/** The browser's WebSocket as yamux.ts uses it, and `sendFrameRaw`, which writes one frame to it. */
module WebSockets {
  import opened Bytes
  import opened Records
  import opened YamuxFrames

  class WebSocket {
    // one entry per call of send, and whether close was called
    var sent: seq<seq<Byte>>
    var closeCalled: bool
    ghost var log: seq<Frame>

    // What was sent is, message by message, the frames of the log.
    ghost predicate Valid()
      reads this
    {
      && |sent| == |log|
      && forall i :: 0 <= i < |log| ==> sent[i] == Raw(ToRecord(log[i]))
    }

    constructor ()
      ensures Valid() && log == [] && !closeCalled
    {
      sent, closeCalled, log := [], false, [];
    }

    method Send(message: seq<Byte>)
      modifies this`sent
      ensures sent == old(sent) + [message]
    {
      sent := sent + [message];
    }

    method Close()
      modifies this`closeCalled
      ensures closeCalled
    {
      closeCalled := true;
    }
  }

  // The bytes all messages carry together.
  lemma {:induction false} SentIsWire(messages: seq<seq<Byte>>, log: seq<Frame>)
    requires |messages| == |log| && forall i :: 0 <= i < |log| ==> messages[i] == Raw(ToRecord(log[i]))
    ensures Flatten(messages) == Wire(log)
  {
    if log != [] {
      assert ToRecords(log)[1..] == ToRecords(log[1..]);
      SentIsWire(messages[1..], log[1..]);
    }
  }

  lemma MessageBytes(f: Frame)
    ensures var m := Raw(ToRecord(f));
            && |m| == 12 + |f.payload| && m[12..] == f.payload
            && m[0] == 0 && m[1] == f.typ % 0x100
            && (m[2] as int) * 0x100 + m[3] == f.flags % 0x1_0000
            && (((m[4] as int) * 0x100 + m[5]) * 0x100 + m[6]) * 0x100 + m[7] == f.id % 0x1_0000_0000
            && (((m[8] as int) * 0x100 + m[9]) * 0x100 + m[10]) * 0x100 + m[11] == f.length % 0x1_0000_0000
  {
    HeaderFields(f);
  }

  // The frame is filled in place: version, type, then big-endian flags, stream id and length, then
  // the payload.
  method FillFrame(typ: nat, flags: nat, id: nat, length: nat, data: seq<Byte>) returns (frame: array<Byte>)
    ensures frame[..] == Raw(ToRecord(Frame(typ, flags, id, length, data)))
  {
    ghost var f := Frame(typ, flags, id, length, data);
    frame := new Byte[YAMUX_HEADER_SIZE + |data|];
    frame[0] := VERSION;
    frame[1] := typ % 0x100;
    frame[2], frame[3] := flags / 0x100 % 0x100, flags % 0x100;
    frame[4], frame[5] := id / 0x100_0000 % 0x100, id / 0x1_0000 % 0x100;
    frame[6], frame[7] := id / 0x100 % 0x100, id % 0x100;
    frame[8], frame[9] := length / 0x100_0000 % 0x100, length / 0x1_0000 % 0x100;
    frame[10], frame[11] := length / 0x100 % 0x100, length % 0x100;
    assert frame[..YAMUX_HEADER_SIZE] == HeaderBytes(f);
    if |data| > 0 {
      forall i | 0 <= i < |data| {
        frame[YAMUX_HEADER_SIZE + i] := data[i];
      }
    }
    assert frame[..YAMUX_HEADER_SIZE] == HeaderBytes(f);
    assert frame[YAMUX_HEADER_SIZE..] == data;
    assert frame[..] == frame[..YAMUX_HEADER_SIZE] + frame[YAMUX_HEADER_SIZE..];
  }

  method SendFrameRaw(ws: WebSocket, typ: nat, flags: nat, id: nat, length: nat, data: seq<Byte>)
    requires ws.Valid()
    modifies ws`sent, ws`log
    ensures ws.Valid() && ws.log == old(ws.log) + [Frame(typ, flags, id, length, data)]
    ensures |ws.sent| == |old(ws.sent)| + 1 && ws.sent[..|old(ws.sent)|] == old(ws.sent)
    ensures var m := ws.sent[|old(ws.sent)|];
            && |m| == 12 + |data| && m[12..] == data
            && m[0] == 0 && m[1] == typ % 0x100
            && (m[2] as int) * 0x100 + m[3] == flags % 0x1_0000
            && (((m[4] as int) * 0x100 + m[5]) * 0x100 + m[6]) * 0x100 + m[7] == id % 0x1_0000_0000
            && (((m[8] as int) * 0x100 + m[9]) * 0x100 + m[10]) * 0x100 + m[11] == length % 0x1_0000_0000
  {
    ghost var f := Frame(typ, flags, id, length, data);
    var frame := FillFrame(typ, flags, id, length, data);
    MessageBytes(f);
    ws.Send(frame[..]);
    ws.log := ws.log + [f];
  }
}
