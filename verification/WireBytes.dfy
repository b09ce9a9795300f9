/** The bytes themselves: what the first steps of a session and of its first stream put on the wire, and
    what the bytes of a peer are read as. */
module WireBytes {
  import opened Bytes
  import opened Records
  import opened YamuxFrames
  import opened Streams
  import R = Receiving
  import S = Sessions
  import opened Messages

  lemma WireOfOne(f: Frame)
    ensures Wire([f]) == HeaderBytes(f) + f.payload
  {
    assert ToRecords([f]) == [ToRecord(f)];
    RawAllFirst(ToRecord(f), []);
    ConcatEmpty(Raw(ToRecord(f)));
    ConcatEmpty([ToRecord(f)]);
  }

  // open() on a new session: a window update of 262144 with SYN, for stream 1.
  lemma SynBytes()
    ensures Wire(S.Open(S.NewSession()).log) == [0, 1, 0, 1, 0, 0, 0, 1, 0, 4, 0, 0]
  {
    var f := Frame(TYPE_WINDOW_UPDATE, FLAG_SYN, 1, INITIAL_WINDOW, []);
    assert S.Open(S.NewSession()).log == [f];
    WireOfOne(f);
  }

  lemma EmptyDataBytes(flags: Byte)
    ensures Wire([Frame(TYPE_DATA, flags, 1, 0, [])]) == [0, 0, 0, flags, 0, 0, 0, 1, 0, 0, 0, 0]
  {
    WireOfOne(Frame(TYPE_DATA, flags, 1, 0, []));
  }

  lemma FlagsSent()
    ensures NewFrames(NewStream(1), CloseWrite(NewStream(1))) == [Frame(TYPE_DATA, 4, 1, 0, [])]
    ensures NewFrames(NewStream(1), Reset(NewStream(1))) == [Frame(TYPE_DATA, 8, 1, 0, [])]
  {
  }

  // closeWrite() on the stream: an empty DATA frame with FIN.
  lemma FinBytes()
    ensures Wire(NewFrames(NewStream(1), CloseWrite(NewStream(1)))) == [0, 0, 0, 4, 0, 0, 0, 1, 0, 0, 0, 0]
  {
    FlagsSent();
    EmptyDataBytes(4);
  }

  // reset() on the stream: an empty DATA frame with RST.
  lemma RstBytes()
    ensures Wire(NewFrames(NewStream(1), Reset(NewStream(1)))) == [0, 0, 0, 8, 0, 0, 0, 1, 0, 0, 0, 0]
  {
    FlagsSent();
    EmptyDataBytes(8);
  }

  // close() of the session: GoAway with code 0.
  lemma GoAwayBytes()
    ensures Wire(S.Close(S.NewSession()).log) == [0, 3, 0, 0, 0, 0, 0, 0, 0, 0, 0, 0]
  {
    WireOfOne(Frame(TYPE_GO_AWAY, 0, 0, 0, []));
    assert S.Close(S.NewSession()).log == [Frame(TYPE_GO_AWAY, 0, 0, 0, [])];
  }

  // A ping with value 5, as the peer's bytes and as the answer's.
  lemma PingBytes()
    ensures var ping := FromRecord(Record([0, 2, 0, 1, 0, 0, 0, 0, 0, 0, 0, 5], []));
            Wire(S.Dispatch(S.NewSession(), ping).log) == [0, 2, 0, 2, 0, 0, 0, 0, 0, 0, 0, 5]
  {
    var ping := FromRecord(Record([0, 2, 0, 1, 0, 0, 0, 0, 0, 0, 0, 5], []));
    FieldsRead(Record([0, 2, 0, 1, 0, 0, 0, 0, 0, 0, 0, 5], []));
    var answer := Frame(TYPE_PING, FLAG_ACK, 0, 5, []);
    assert S.Dispatch(S.NewSession(), ping).log == [answer];
    WireOfOne(answer);
  }

  // The first payload byte over half a window is answered with a window update of all that was taken in.
  lemma UpdateBytes(data: seq<Byte>)
    requires |data| == 0x2_0001
    ensures Wire(NewFrames(NewStream(1), OnData(NewStream(1), data))) == [0, 1, 0, 0, 0, 0, 0, 1, 0, 2, 0, 1]
    ensures NewFrames(NewStream(1), OnData(NewStream(1), data[1..])) == []
  {
    UpdateSent(data);
    WireOfOne(Frame(TYPE_WINDOW_UPDATE, 0, 1, 0x2_0001, []));
  }

  lemma UpdateSent(data: seq<Byte>)
    requires |data| == 0x2_0001
    ensures NewFrames(NewStream(1), OnData(NewStream(1), data)) == [Frame(TYPE_WINDOW_UPDATE, 0, 1, 0x2_0001, [])]
    ensures NewFrames(NewStream(1), OnData(NewStream(1), data[1..])) == []
  {
  }

  // send of one byte: a DATA frame with the header of an application frame, and one with the byte.
  lemma SendBytes(b: Byte)
    ensures var one := Send(Attach(NewStream(1)), [b]);
            && Wire(NewFrames(NewStream(1), one.ys)) == [0, 0, 0, 0, 0, 0, 0, 1, 0, 0, 0, 5, 0, 1, 0, 0, 0]
            && Wire(NewFrames(one.ys, ContinueSend(one).ys)) == [0, 0, 0, 0, 0, 0, 0, 1, 0, 0, 0, 1, b]
  {
    HeaderGoesOut(b);
    HeaderFrameBytes();
    PayloadGoesOut(Send(Attach(NewStream(1)), [b]), b);
    ByteFrameBytes(b);
  }

  lemma HeaderFrameBytes()
    ensures Wire([Frame(TYPE_DATA, 0, 1, 5, [0, 1, 0, 0, 0])]) == [0, 0, 0, 0, 0, 0, 0, 1, 0, 0, 0, 5, 0, 1, 0, 0, 0]
  {
    WireOfOne(Frame(TYPE_DATA, 0, 1, 5, [0, 1, 0, 0, 0]));
  }

  lemma ByteFrameBytes(b: Byte)
    ensures Wire([Frame(TYPE_DATA, 0, 1, 1, [b])]) == [0, 0, 0, 0, 0, 0, 0, 1, 0, 0, 0, 1, b]
  {
    WireOfOne(Frame(TYPE_DATA, 0, 1, 1, [b]));
  }

  lemma HeaderGoesOut(b: Byte)
    ensures var one := Send(Attach(NewStream(1)), [b]);
            && NewFrames(NewStream(1), one.ys) == [Frame(TYPE_DATA, 0, 1, 5, [0, 1, 0, 0, 0])]
            && one.tx == HeaderOut([b]) && one.ys.id == 1 && !WriteClosed(one.ys)
            && one.ys.sendWindow > 0 && one.ys.waiters == [] && one.ys.woken == []
  {
    HeaderOfOne(b);
    WrittenWhole(NewStream(1), [0, 1, 0, 0, 0]);
  }

  lemma PayloadGoesOut(m: Messenger, b: Byte)
    requires m.tx == HeaderOut([b]) && m.ys.id == 1 && !WriteClosed(m.ys)
    requires m.ys.sendWindow > 0 && m.ys.waiters == [] && m.ys.woken == []
    ensures NewFrames(m.ys, ContinueSend(m).ys) == [Frame(TYPE_DATA, 0, 1, 1, [b])]
  {
    assert WriteReturned(m.ys);
    WrittenWhole(m.ys, [b]);
  }

  lemma HeaderOfOne(b: Byte)
    ensures DataHeader([b]) == [0, 1, 0, 0, 0]
  {
  }

  lemma WrittenWhole(t: Stream, data: seq<Byte>)
    requires !WriteClosed(t) && 0 < |data| <= t.sendWindow && t.waiters == [] && t.woken == []
    ensures var u := Write(t, data);
            && NewFrames(t, u) == [Frame(TYPE_DATA, 0, t.id, |data|, data)]
            && u == t.(sendWindow := t.sendWindow - |data|, writes := u.writes, sent := u.sent)
  {
    assert data[0..|data|] == data;
    var u := Write(t, data);
    assert u.sent[|t.sent|..] == [u.sent[|t.sent|]];
  }

  // A frame whose first byte is 1 is an error, any other a payload.
  lemma FramesRead(t: Byte, b: Byte)
    ensures AllValid(AppFormat, Split(AppFormat, [t, 1, 0, 0, 0, b]))
    ensures R.InterpretAll(Split(AppFormat, [t, 1, 0, 0, 0, b])) == [if t == 1 then R.Remote([b]) else R.Payload([b])]
  {
    var r := Record([t, 1, 0, 0, 0], [b]);
    assert r.header[1..5] == [1, 0, 0, 0];
    assert Raw(r) == [t, 1, 0, 0, 0, b];
    RawAllFirst(r, []);
    ConcatEmpty(Raw(r));
    ConcatEmpty([r]);
    SplitOfWhole(AppFormat, [r]);
  }
}
