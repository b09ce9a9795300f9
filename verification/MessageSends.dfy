/** What `send` puts on a stream: the frames of the payloads it is called with, in order, and exactly
    when. */
module MessageSends {
  import opened Bytes
  import opened Records
  import opened AppFrames
  import opened YamuxFrames
  import opened Streams
  import opened StreamWrites
  import opened Messages
  import L = StreamLife
  import R = Receiving

  // ----- what send puts on the stream -----

  // With one write at a time, the bytes sent and the rest of the write in hand are the arguments of
  // all writes, end to end.
  function Unsent(s: Stream): seq<Byte> {
    if |Pending(s)| != 1 then []
    else
      var w := Pending(s)[0];
      if w.offset <= |w.data| then w.data[w.offset..] else []
  }

  predicate Serial(s: Stream) {
    && |s.waiters| + |s.woken| <= 1
    && (Pending(s) != [] ==> Pending(s)[0].write + 1 == |s.writes|)
    && Payloads(s.sent) + Unsent(s) == Flatten(s.writes)
  }

  lemma SliceMoves(paid: seq<Byte>, data: seq<Byte>, offset: nat, chunk: nat)
    requires offset + chunk <= |data|
    ensures (paid + data[offset..offset + chunk]) + data[offset + chunk..] == paid + data[offset..]
  {
    PieceOff(data, offset, chunk);
    ConcatAssociative(paid, data[offset..offset + chunk], data[offset + chunk..]);
  }

  lemma SendingPayloads(s: Stream, w: Writer, chunk: nat)
    requires w.offset + chunk <= |w.data|
    ensures Payloads(Sending(s, w, chunk).sent) == Payloads(s.sent) + w.data[w.offset..w.offset + chunk]
  {
    var slice := w.data[w.offset..w.offset + chunk];
    PayloadsAppend(s.sent, Sent(Frame(TYPE_DATA, 0, s.id, |slice|, slice), Some(w.write)));
  }

  predicate Continuing(s: Stream, w: Writer) {
    && s.waiters == [] && s.woken == [] && w.offset <= |w.data| && w.write + 1 == |s.writes|
    && Payloads(s.sent) + w.data[w.offset..] == Flatten(s.writes)
  }

  lemma ParkSerial(s: Stream, w: Writer)
    requires Continuing(s, w)
    ensures Serial(Park(s, w))
  {
    assert Pending(Park(s, w)) == [w];
  }

  lemma SendingContinues(s: Stream, w: Writer, chunk: nat)
    requires Continuing(s, w) && w.offset + chunk <= |w.data|
    ensures Continuing(Sending(s, w, chunk), w.(offset := w.offset + chunk))
  {
    SendingPayloads(s, w, chunk);
    SliceMoves(Payloads(s.sent), w.data, w.offset, chunk);
  }

  lemma DoneSerial(s: Stream, w: Writer)
    requires Continuing(s, w) && w.offset == |w.data|
    ensures Serial(s)
  {
    assert w.data[|w.data|..] == [];
  }

  lemma SendAllSerial(s: Stream, w: Writer)
    requires Continuing(s, w) && 0 < |w.data| - w.offset <= s.sendWindow
    ensures Serial(Advance(s, w))
  {
    var t := Sending(s, w, |w.data| - w.offset);
    SendingContinues(s, w, |w.data| - w.offset);
    DoneSerial(t, w.(offset := |w.data|));
    assert Advance(s, w) == t;
  }

  lemma SendSomeSerial(s: Stream, w: Writer)
    requires Continuing(s, w) && 0 < s.sendWindow < |w.data| - w.offset
    ensures Serial(Advance(s, w))
  {
    var t, v := Sending(s, w, s.sendWindow), w.(offset := w.offset + s.sendWindow);
    SendingContinues(s, w, s.sendWindow);
    ParkSerial(t, v);
    assert Advance(s, w) == Park(t, v);
  }

  lemma AdvanceSerial(s: Stream, w: Writer)
    requires Continuing(s, w)
    ensures Serial(Advance(s, w))
  {
    if w.offset == |w.data| {
      DoneSerial(s, w);
    } else if s.sendWindow <= 0 {
      ParkSerial(s, w);
    } else if |w.data| - w.offset <= s.sendWindow {
      SendAllSerial(s, w);
    } else {
      SendSomeSerial(s, w);
    }
  }

  lemma WriteSerial(s: Stream, data: seq<Byte>)
    requires Serial(s) && Pending(s) == [] && !WriteClosed(s)
    ensures Serial(Write(s, data)) && Write(s, data).writes == s.writes + [data]
  {
    assert |s.woken| + |s.waiters| == |Pending(s)| == 0;
    FlattenAppend(s.writes, data);
    ConcatEmpty(Payloads(s.sent));
    AdvanceSerial(s.(writes := s.writes + [data]), Writer(|s.writes|, data, 0));
  }

  // The only woken write is the only write in hand.
  lemma OneWoken(s: Stream, k: nat)
    requires Ok(s) && Serial(s) && k < |s.woken|
    ensures k == 0 && s.waiters == [] && s.woken == [s.woken[0]]
    ensures s.woken[..0] + s.woken[1..] == []
    ensures Pending(s) == [s.woken[0]] && Suspendable(s.woken[0])
  {
  }

  lemma ResumeSerial(s: Stream, k: nat)
    requires Ok(s) && Serial(s)
    ensures Serial(Resume(s, k)) && Resume(s, k).writes == s.writes
  {
    if k < |s.woken| {
      OneWoken(s, k);
      var w, t := s.woken[0], s.(woken := []);
      assert Unsent(s) == w.data[w.offset..];
      AdvanceSerial(t, w);
      assert Resume(s, k) == Advance(t, w);
    }
  }

  // A single waiter is moved to the woken writes or left where it is.
  lemma UpdateKeepsPending(s: Stream, delta: nat)
    requires |s.waiters| + |s.woken| <= 1
    ensures var t := OnWindowUpdate(s, delta);
            Pending(t) == Pending(s) && |t.waiters| + |t.woken| == |s.waiters| + |s.woken|
  {
    var t := OnWindowUpdate(s, delta);
    if s.waiters == [] {
      assert t.woken == s.woken && t.waiters == [];
    } else {
      assert s.waiters == [s.waiters[0]] && s.woken == [];
      PartitionOne(s.waiters[0], s.sendWindow + delta);
      assert Pending(s) == [s.waiters[0].writer];
      if s.sendWindow + delta >= s.waiters[0].need {
        assert t.woken == [s.waiters[0].writer] && t.waiters == [];
      } else {
        assert t.woken == [] && t.waiters == s.waiters;
      }
    }
  }

  lemma UpdateSerial(s: Stream, delta: nat)
    requires Serial(s)
    ensures Serial(OnWindowUpdate(s, delta))
  {
    UpdateKeepsPending(s, delta);
  }

  lemma QuietSerial(s: Stream, e: Streams.Event)
    requires Serial(s) && !e.WriteEvent? && !e.ResumeEvent? && !e.WindowUpdateEvent?
    ensures Serial(Streams.Step(s, e)) && Streams.Step(s, e).writes == s.writes
  {
    var t := Streams.Step(s, e);
    OtherIsQuiet(s, e);
    if |t.sent| > |s.sent| {
      assert t.sent == s.sent + [t.sent[|s.sent|]];
      SentAppend(s.sent, t.sent[|s.sent|]);
      ConcatEmpty(Payloads(s.sent));
    } else {
      assert t.sent == s.sent;
    }
    assert Pending(t) == Pending(s);
  }

  lemma OtherSerial(s: Stream, e: Streams.Event)
    requires Ok(s) && Serial(s) && !e.WriteEvent?
    ensures Serial(Streams.Step(s, e)) && Streams.Step(s, e).writes == s.writes
  {
    match e
    case ResumeEvent(k) => ResumeSerial(s, k);
    case WindowUpdateEvent(delta) => UpdateSerial(s, delta);
    case _ => QuietSerial(s, e);
  }

  // ----- ... and hence what is on the wire -----

  function DataFrames(payloads: seq<seq<Byte>>): (fs: seq<AppFrame>)
    ensures |fs| == |payloads|
    ensures forall i :: 0 <= i < |payloads| ==> fs[i] == AppFrame(FRAME_DATA, payloads[i])
  {
    seq(|payloads|, i requires 0 <= i < |payloads| => AppFrame(FRAME_DATA, payloads[i]))
  }

  // The part of the current frame handed to the stream so far.
  function Begun(tx: Sender): seq<Byte> {
    match tx
    case Between => []
    case HeaderOut(p) => DataHeader(p)
    case PayloadOut(p) => DataHeader(p) + p
    case Broken(p) => DataHeader(p)
  }

  predicate Framed(writes: seq<seq<Byte>>, done: seq<seq<Byte>>, tx: Sender) {
    Flatten(writes) == EncodeAll(DataFrames(done)) + Begun(tx)
  }

  // The writes are the frames of the earlier calls and the part of the current one begun.
  predicate TxInv(m: Messenger) {
    && Serial(m.ys)
    && Framed(m.ys.writes, m.done, m.tx)
    && (!Outstanding(m.tx) ==> Pending(m.ys) == [])
    && (!m.tx.Between? ==> |m.ys.writes| > 0)
    && (m.tx.Broken? ==> m.tx.payload != [])
  }

  lemma ReturnedMeansIdle(s: Stream)
    requires Serial(s) && WriteReturned(s) && |s.writes| > 0
    ensures Pending(s) == []
  {
  }

  lemma OneMore(done: seq<seq<Byte>>, payload: seq<Byte>)
    ensures EncodeAll(DataFrames(done + [payload])) == EncodeAll(DataFrames(done)) + (DataHeader(payload) + payload)
  {
    var f := AppFrame(FRAME_DATA, payload);
    assert DataFrames(done + [payload]) == DataFrames(done) + [f];
    EncodeAllConcat(DataFrames(done), [f]);
    assert EncodeAll([f]) == Encode(f) + EncodeAll([]);
    ConcatEmpty(Encode(f));
  }

  lemma HeaderFramed(writes: seq<seq<Byte>>, done: seq<seq<Byte>>, payload: seq<Byte>)
    requires Framed(writes, done, Between)
    ensures Framed(writes + [DataHeader(payload)], done, HeaderOut(payload))
  {
    FlattenAppend(writes, DataHeader(payload));
    ConcatEmpty(EncodeAll(DataFrames(done)));
  }

  lemma PayloadFramed(writes: seq<seq<Byte>>, done: seq<seq<Byte>>, payload: seq<Byte>)
    requires Framed(writes, done, HeaderOut(payload))
    ensures Framed(writes + [payload], done, PayloadOut(payload))
  {
    FlattenAppend(writes, payload);
    ConcatAssociative(EncodeAll(DataFrames(done)), DataHeader(payload), payload);
  }

  lemma DoneFramed(writes: seq<seq<Byte>>, done: seq<seq<Byte>>, tx: Sender)
    requires Framed(writes, done, tx) && (tx.PayloadOut? || (tx.HeaderOut? && tx.payload == []))
    ensures Framed(writes, done + [tx.payload], Between)
  {
    OneMore(done, tx.payload);
    ConcatEmpty(DataHeader(tx.payload));
    ConcatEmpty(EncodeAll(DataFrames(done + [tx.payload])));
  }

  // The header follows a header without its payload.
  lemma BrokenFramed(writes: seq<seq<Byte>>, done: seq<seq<Byte>>, broken: seq<Byte>, payload: seq<Byte>)
    requires Framed(writes, done, Broken(broken)) && broken != []
    ensures !Framed(writes + [DataHeader(payload)], done + [broken], HeaderOut(payload))
  {
    FlattenAppend(writes, DataHeader(payload));
    OneMore(done, broken);
  }

  lemma SendTx(m: Messenger, payload: seq<Byte>)
    requires TxInv(m) && m.tx.Between? && !WriteClosed(m.ys)
    ensures TxInv(Send(m, payload))
  {
    WriteSerial(m.ys, DataHeader(payload));
    HeaderFramed(m.ys.writes, m.done, payload);
  }

  lemma SendAfterBreakTx(m: Messenger, payload: seq<Byte>)
    requires TxInv(m) && m.tx.Broken? && !WriteClosed(m.ys)
    ensures !TxInv(Send(m, payload))
  {
    WriteSerial(m.ys, DataHeader(payload));
    BrokenFramed(m.ys.writes, m.done, m.tx.payload, payload);
  }

  // The last write of a frame has returned.
  lemma FrameDoneTx(m: Messenger)
    requires TxInv(m) && (m.tx.PayloadOut? || (m.tx.HeaderOut? && m.tx.payload == [])) && WriteReturned(m.ys)
    ensures TxInv(m.(tx := Between, done := m.done + [m.tx.payload]))
  {
    ReturnedMeansIdle(m.ys);
    DoneFramed(m.ys.writes, m.done, m.tx);
  }

  lemma PayloadTx(m: Messenger)
    requires TxInv(m) && m.tx.HeaderOut? && WriteReturned(m.ys) && !WriteClosed(m.ys)
    ensures TxInv(m.(ys := Write(m.ys, m.tx.payload), tx := PayloadOut(m.tx.payload)))
  {
    ReturnedMeansIdle(m.ys);
    WriteSerial(m.ys, m.tx.payload);
    PayloadFramed(m.ys.writes, m.done, m.tx.payload);
  }

  lemma BrokenTx(m: Messenger)
    requires TxInv(m) && m.tx.HeaderOut? && m.tx.payload != [] && WriteReturned(m.ys)
    ensures TxInv(m.(tx := Broken(m.tx.payload)))
  {
    ReturnedMeansIdle(m.ys);
  }

  lemma ContinueSendTx(m: Messenger)
    requires TxInv(m)
    ensures TxInv(ContinueSend(m))
  {
    if WriteReturned(m.ys) {
      if m.tx.PayloadOut? || (m.tx.HeaderOut? && m.tx.payload == []) {
        FrameDoneTx(m);
      } else if m.tx.HeaderOut? {
        if WriteClosed(m.ys) {
          BrokenTx(m);
        } else {
          PayloadTx(m);
        }
      }
    }
  }

  // A write in hand stays in hand or is finished; nothing else starts one.
  lemma OtherKeepsIdle(s: Stream, e: Streams.Event)
    requires Pending(s) == [] && !e.WriteEvent?
    ensures Pending(Streams.Step(s, e)) == []
  {
    assert |s.woken| + |s.waiters| == |Pending(s)| == 0;
  }

  lemma OtherTx(m: Messenger, e: Streams.Event)
    requires Ok(m.ys) && TxInv(m) && !e.WriteEvent?
    ensures TxInv(m.(ys := Streams.Step(m.ys, e)))
  {
    OtherSerial(m.ys, e);
    if Pending(m.ys) == [] {
      OtherKeepsIdle(m.ys, e);
    }
  }

  lemma ReaderTx(m: Messenger, r: R.Receiver)
    requires TxInv(m)
    ensures TxInv(WithReader(m, r))
  {
    assert Pending(WithReader(m, r).ys) == Pending(m.ys);
  }

  // The program calls send again after a call that broke off, and the stream takes it.
  predicate SendsAfterBreak(m: Messenger, e: Messages.Event) {
    e.SendCall? && m.tx.Broken? && !WriteClosed(m.ys)
  }

  // A step keeps the frames intact exactly when it is not an accepted send after a broken one.
  lemma StepKeepsTxExactly(m: Messenger, e: Messages.Event)
    requires MessengerOk(m) && TxInv(m)
    ensures TxInv(Messages.Step(m, e)) <==> !SendsAfterBreak(m, e)
  {
    match e
    case SendCall(payload) =>
      if SendsAfterBreak(m, e) {
        SendAfterBreakTx(m, payload);
      } else if m.tx.Between? && !WriteClosed(m.ys) {
        SendTx(m, payload);
      }
    case SendContinues => ContinueSendTx(m);
    case RecvCall => ReaderTx(m, R.Step(Reader(m), R.Call));
    case RecvContinues => ReaderTx(m, R.Step(Reader(m), R.Resume));
    case Other(e) =>
      if !e.WriteEvent? {
        OtherTx(m, e);
      }
  }

  // What is on the wire is the front of the encoded frames of the payloads passed to send, in order.
  lemma SentIsFrames(m: Messenger)
    requires TxInv(m)
    ensures Payloads(m.ys.sent) <= EncodeAll(DataFrames(Attempted(m)))
  {
    var done := EncodeAll(DataFrames(m.done));
    if m.tx.Between? {
      ConcatEmpty(done);
    } else {
      var p := m.tx.payload;
      OneMore(m.done, p);
      assert Begun(m.tx) <= DataHeader(p) + p;
      assert done + Begun(m.tx) <= done + (DataHeader(p) + p);
    }
    PrefixTransitive(Payloads(m.ys.sent), Flatten(m.ys.writes), EncodeAll(DataFrames(Attempted(m))));
  }

  // ----- over whole runs -----

  predicate NeverAfterBreak(m: Messenger, events: seq<Messages.Event>)
    requires MessengerOk(m)
    decreases |events|
  {
    events == [] ||
    (!SendsAfterBreak(m, events[0]) && (MessengerStepOk(m, events[0]); NeverAfterBreak(Messages.Step(m, events[0]), events[1..])))
  }

  // The frames are intact before, between and after all steps of a run.
  predicate IntactThroughout(m: Messenger, events: seq<Messages.Event>)
    requires MessengerOk(m)
    decreases |events|
  {
    TxInv(m) &&
    (events == [] || (MessengerStepOk(m, events[0]); IntactThroughout(Messages.Step(m, events[0]), events[1..])))
  }

  // The writes of a run are whole frames, and the one in progress, exactly when no send is accepted
  // after a broken one.
  lemma {:induction false} FramesIntactExactly(m: Messenger, events: seq<Messages.Event>)
    requires MessengerOk(m) && TxInv(m)
    ensures IntactThroughout(m, events) <==> NeverAfterBreak(m, events)
    ensures NeverAfterBreak(m, events) ==> TxInv(Messages.Run(m, events))
    decreases |events|
  {
    if events != [] {
      MessengerStepOk(m, events[0]);
      StepKeepsTxExactly(m, events[0]);
      if !SendsAfterBreak(m, events[0]) {
        FramesIntactExactly(Messages.Step(m, events[0]), events[1..]);
      }
    }
  }

  // The guard a caller can watch: a broken stream's write side is closed, and only a FIN that arrives
  // on a closed stream opens it again.
  predicate BrokenIsClosed(m: Messenger) {
    m.tx.Broken? ==> WriteClosed(m.ys)
  }

  predicate Reopens(m: Messenger, e: Messages.Event) {
    e.Other? && L.ReopensClosed(m.ys, e.e)
  }

  predicate NeverReopens(m: Messenger, events: seq<Messages.Event>)
    requires MessengerOk(m)
    decreases |events|
  {
    events == [] ||
    (!Reopens(m, events[0]) && (MessengerStepOk(m, events[0]); NeverReopens(Messages.Step(m, events[0]), events[1..])))
  }

  lemma StepKeepsClosed(m: Messenger, e: Messages.Event)
    requires MessengerOk(m) && BrokenIsClosed(m) && !Reopens(m, e)
    ensures BrokenIsClosed(Messages.Step(m, e)) && !SendsAfterBreak(m, e)
  {
  }

  lemma {:induction false} NotReopenedNeverAfterBreak(m: Messenger, events: seq<Messages.Event>)
    requires MessengerOk(m) && BrokenIsClosed(m) && NeverReopens(m, events)
    ensures NeverAfterBreak(m, events)
    decreases |events|
  {
    if events != [] {
      MessengerStepOk(m, events[0]);
      StepKeepsClosed(m, events[0]);
      NotReopenedNeverAfterBreak(Messages.Step(m, events[0]), events[1..]);
    }
  }

  lemma AttachedOk(id: nat)
    ensures var m := Attach(NewStream(id)); MessengerOk(m) && TxInv(m) && R.RecvInv(Reader(m))
  {
    R.FreshInv();
    assert Reader(Attach(NewStream(id))) == R.Fresh;
    assert Pending(NewStream(id)) == [];
  }

  // In every run of a WSStream on a new yamux stream, whatever its window and the scheduling: unless a
  // send was accepted after a broken one, the stream's payload bytes are the front of the frames of the
  // payloads passed to send; and what recv returned before its first failure is the frames at the
  // front of what the stream received, all of them once it has failed.
  lemma SendAndRecvAreFrames(id: nat, events: seq<Messages.Event>)
    ensures MessengerOk(Attach(NewStream(id)))
    ensures var m := Messages.Run(Attach(NewStream(id)), events);
            && (NeverAfterBreak(Attach(NewStream(id)), events) ==>
                  Payloads(m.ys.sent) <= EncodeAll(DataFrames(Attempted(m))))
            && AllValid(AppFormat, m.records) && m.records <= Split(AppFormat, m.ys.recv.accepted)
            && R.InterpretAll(m.records) <= m.results
            && (if m.failed then
                  m.records == Split(AppFormat, m.ys.recv.accepted)
                  && |m.records| < |m.results| && m.results[|m.records|].Failed?
                else m.results == R.InterpretAll(m.records))
  {
    var m := Attach(NewStream(id));
    AttachedOk(id);
    RunKeepsReader(m, events);
    FramesIntactExactly(m, events);
    if NeverAfterBreak(m, events) {
      SentIsFrames(Messages.Run(m, events));
    }
  }

  // ----- a send after a broken one -----

  // A write the window suffices for goes out whole, in one frame or, if empty, in none.
  lemma WriteWhole(s: Stream, data: seq<Byte>)
    requires !WriteClosed(s) && |data| <= s.sendWindow
    ensures var t := Write(s, data);
            && Payloads(t.sent) == Payloads(s.sent) + data && t.sendWindow == s.sendWindow - |data|
            && t.state == s.state && Pending(t) == Pending(s) && |t.writes| == |s.writes| + 1
  {
    var t := Write(s, data);
    if data == [] {
      ConcatEmpty(Payloads(s.sent));
    } else {
      assert data[0..|data|] == data;
      SentAppend(s.sent, t.sent[|s.sent|]);
    }
  }

  // send(p) writes its header; reset() runs before it continues; its payload throws; the peer's FIN,
  // which has crossed the RST, arrives; send(q) is called.
  function BreakOff(id: nat, p: seq<Byte>): Messenger {
    var m := Send(Attach(NewStream(id)), p);
    var broken := ContinueSend(m.(ys := Reset(m.ys)));
    broken.(ys := OnRemoteClose(broken.ys))
  }

  function SendAgain(id: nat, p: seq<Byte>, q: seq<Byte>): Messenger {
    ContinueSend(ContinueSend(Send(BreakOff(id, p), q)))
  }

  // The stream after the header, the reset and the FIN.
  function Reopened(id: nat, p: seq<Byte>): Stream {
    OnRemoteClose(Reset(Write(NewStream(id), DataHeader(p))))
  }

  lemma NothingPending(s: Stream, e: Streams.Event)
    requires e.ResetEvent? || e.RemoteCloseEvent?
    ensures Payloads(Streams.Step(s, e).sent) == Payloads(s.sent)
    ensures Pending(Streams.Step(s, e)) == Pending(s) && Streams.Step(s, e).sendWindow == s.sendWindow
  {
    var t := Streams.Step(s, e);
    assert Pending(t) == Pending(s);
    if |t.sent| > |s.sent| {
      SentAppend(s.sent, t.sent[|s.sent|]);
      ConcatEmpty(Payloads(s.sent));
    }
  }

  lemma ReopenedState(id: nat, p: seq<Byte>)
    ensures var s := Reopened(id, p);
            && !WriteClosed(s) && Pending(s) == [] && |s.writes| == 1
            && s.sendWindow == INITIAL_WINDOW - APP_HEADER_SIZE && Payloads(s.sent) == DataHeader(p)
  {
    var s := NewStream(id);
    assert Pending(s) == [] && Payloads(s.sent) == [];
    WriteWhole(s, DataHeader(p));
    ConcatEmpty(DataHeader(p));
    var t := Write(s, DataHeader(p));
    NothingPending(t, ResetEvent);
    NothingPending(Reset(t), RemoteCloseEvent);
  }

  lemma BreakOffState(id: nat, p: seq<Byte>)
    requires p != []
    ensures var m := BreakOff(id, p);
            m.tx == Broken(p) && m.done == [] && m.ys == Reopened(id, p)
  {
    var s := NewStream(id);
    assert Pending(s) == [];
    WriteWhole(s, DataHeader(p));
    NothingPending(Write(s, DataHeader(p)), ResetEvent);
  }

  // A stream on which a write could be made and none is in hand.
  predicate Free(s: Stream) {
    !WriteClosed(s) && Pending(s) == [] && s.sendWindow >= 0
  }

  lemma FreeWrite(s: Stream, data: seq<Byte>)
    requires Free(s) && |data| <= s.sendWindow
    ensures var t := Write(s, data);
            && Free(t) && WriteReturned(t) && t.sendWindow == s.sendWindow - |data|
            && Payloads(t.sent) == Payloads(s.sent) + data
  {
    WriteWhole(s, data);
    assert Absent([], |s.writes|);
  }

  lemma HeaderThenPayload(m: Messenger)
    requires m.tx.HeaderOut? && Free(m.ys) && WriteReturned(m.ys) && |m.tx.payload| <= m.ys.sendWindow
    ensures var n := ContinueSend(ContinueSend(m));
            && n.tx.Between? && n.done == m.done + [m.tx.payload] && Free(n.ys)
            && n.ys.sendWindow == m.ys.sendWindow - |m.tx.payload|
            && Payloads(n.ys.sent) == Payloads(m.ys.sent) + m.tx.payload
  {
    if m.tx.payload == [] {
      ConcatEmpty(Payloads(m.ys.sent));
    } else {
      FreeWrite(m.ys, m.tx.payload);
    }
  }

  // send(q), on its own, when the window suffices.
  lemma WholeSend(m: Messenger, q: seq<Byte>)
    requires !Outstanding(m.tx) && Free(m.ys) && APP_HEADER_SIZE + |q| <= m.ys.sendWindow
    ensures var n := ContinueSend(ContinueSend(Send(m, q)));
            && n.tx.Between? && n.done == Attempted(m) + [q] && Free(n.ys)
            && n.ys.sendWindow == m.ys.sendWindow - APP_HEADER_SIZE - |q|
            && Payloads(n.ys.sent) == Payloads(m.ys.sent) + (DataHeader(q) + q)
  {
    FreeWrite(m.ys, DataHeader(q));
    HeaderThenPayload(Send(m, q));
    ConcatAssociative(Payloads(m.ys.sent), DataHeader(q), q);
  }

  lemma SendAgainState(id: nat, p: seq<Byte>, q: seq<Byte>)
    requires p != [] && 2 * APP_HEADER_SIZE + |q| <= INITIAL_WINDOW
    ensures var m := SendAgain(id, p, q);
            m.tx.Between? && m.done == [p, q] && Payloads(m.ys.sent) == DataHeader(p) + (DataHeader(q) + q)
  {
    var m := BreakOff(id, p);
    BreakOffState(id, p);
    ReopenedState(id, p);
    WholeSend(m, q);
    assert Attempted(m) == [p];
  }

  // The bytes are the header of p, then the frame of q: the front of the two frames exactly when the
  // frame of q happens to continue the payload p.
  lemma SendAfterBreakExactly(id: nat, p: seq<Byte>, q: seq<Byte>)
    requires p != [] && 2 * APP_HEADER_SIZE + |q| <= INITIAL_WINDOW
    ensures var m, frame := SendAgain(id, p, q), DataHeader(q) + q;
            && m.tx.Between? && m.done == [p, q]
            && Payloads(m.ys.sent) == DataHeader(p) + frame
            && (Payloads(m.ys.sent) <= EncodeAll(DataFrames([p, q])) <==> frame <= p + frame)
  {
    var frame := DataHeader(q) + q;
    SendAgainState(id, p, q);
    TwoFrames(p, q);
    FrontAfter(DataHeader(p), frame, p + frame);
  }

  lemma TwoFrames(a: seq<Byte>, b: seq<Byte>)
    ensures EncodeAll(DataFrames([a, b])) == DataHeader(a) + (a + (DataHeader(b) + b))
  {
    OneMore([], a);
    OneMore([a], b);
    assert [] + [a] == [a] && [a] + [b] == [a, b];
    assert DataFrames([]) == [];
    ConcatEmpty(DataHeader(a) + a);
    ConcatAssociative(DataHeader(a), a, DataHeader(b) + b);
  }

  lemma FrontAfter(head: seq<Byte>, x: seq<Byte>, y: seq<Byte>)
    ensures head + x <= head + y <==> x <= y
    ensures head + x == head + y <==> x == y
  {
    assert x == (head + x)[|head|..] && y == (head + y)[|head|..];
  }

  // ----- two sends at a time -----

  // What two overlapping calls send(a) and send(b) do: both headers, then both payloads, as each
  // continues after its own await.
  function Overlapping(id: nat, a: seq<Byte>, b: seq<Byte>): Stream {
    Write(Write(Write(Write(NewStream(id), DataHeader(a)), DataHeader(b)), a), b)
  }

  lemma OverlappingBytes(id: nat, a: seq<Byte>, b: seq<Byte>)
    requires 2 * APP_HEADER_SIZE + |a| + |b| <= INITIAL_WINDOW
    ensures Payloads(Overlapping(id, a, b).sent) == DataHeader(a) + (DataHeader(b) + (a + b))
  {
    var s0 := NewStream(id);
    var s1 := Write(s0, DataHeader(a));
    var s2 := Write(s1, DataHeader(b));
    WriteWhole(s0, DataHeader(a));
    WriteWhole(s1, DataHeader(b));
    WriteWhole(s2, a);
    WriteWhole(Write(s2, a), b);
    ConcatEmpty(DataHeader(a));
    ConcatAssociative(DataHeader(a) + DataHeader(b), a, b);
    ConcatAssociative(DataHeader(a), DataHeader(b), a + b);
  }

  // Two overlapping sends put their two frames on the stream exactly when the second header and the
  // first payload commute, as they do when the first payload is empty.
  lemma OverlappingSendsExactly(id: nat, a: seq<Byte>, b: seq<Byte>)
    requires 2 * APP_HEADER_SIZE + |a| + |b| <= INITIAL_WINDOW
    ensures Payloads(Overlapping(id, a, b).sent) == EncodeAll(DataFrames([a, b])) <==>
            DataHeader(b) + a == a + DataHeader(b)
    ensures a == [] ==> Payloads(Overlapping(id, a, b).sent) == EncodeAll(DataFrames([a, b]))
  {
    OverlappingBytes(id, a, b);
    TwoFrames(a, b);
    var x, y := DataHeader(b) + (a + b), a + (DataHeader(b) + b);
    FrontAfter(DataHeader(a), x, y);
    ConcatAssociative(DataHeader(b), a, b);
    ConcatAssociative(a, DataHeader(b), b);
    BackBefore(DataHeader(b) + a, a + DataHeader(b), b);
    ConcatEmpty(DataHeader(b));
  }

  lemma BackBefore(x: seq<Byte>, y: seq<Byte>, end: seq<Byte>)
    requires |x| == |y|
    ensures x + end == y + end <==> x == y
  {
    if x + end == y + end {
      assert x == (x + end)[..|x|] && y == (y + end)[..|y|];
    }
  }

  // Otherwise the first frame read back has the front of the second call's header where the first
  // payload should be.
  lemma OverlappingSendsMix(id: nat, a: seq<Byte>, b: seq<Byte>)
    requires a != [] && b != [] && 2 * APP_HEADER_SIZE + |a| + |b| <= INITIAL_WINDOW
    ensures var frames := Decode(Payloads(Overlapping(id, a, b).sent));
            && frames != [] && frames[0].payload == (DataHeader(b) + (a + b))[..|a|]
            && (a[0] != FRAME_DATA ==> frames[0].payload != a)
  {
    OverlappingBytes(id, a, b);
    var rest := DataHeader(b) + (a + b);
    var first := AppFrame(FRAME_DATA, rest[..|a|]);
    assert rest == rest[..|a|] + rest[|a|..];
    ConcatAssociative(DataHeader(a), rest[..|a|], rest[|a|..]);
    assert EncodeAll([first]) == Encode(first) + EncodeAll([]);
    ConcatEmpty(Encode(first));
    DecodeInvertsEncode([first], rest[|a|..]);
  }
}
