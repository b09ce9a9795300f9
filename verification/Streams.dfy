/** One multiplexed stream of ts/src/yamux.ts, step by step.

    A step is a stretch of code that runs without an await: a call of a method up to its first
    await, a suspended `write` from its await to the next one, or a handler the session's read loop
    calls.  A suspended write is a `Writer`: parked in `waiters`, or in `woken` when its promise is
    resolved and the engine has not yet continued it.  YamuxStream.dfy has the class and proves that
    it takes exactly these steps. */
module Streams {
  import opened Bytes
  import opened Records
  import opened Buffers
  import opened YamuxFrames

  datatype LifeCycle = Open | LocalClose | RemoteClose | Closed

  // A call of write suspended with `offset` bytes sent; `write` counts the calls on the stream.
  datatype Writer = Writer(write: nat, data: seq<Byte>, offset: nat)

  // An entry of windowWaiters.
  datatype Waiter = Waiter(writer: Writer, need: nat)

  // A frame the stream handed to sendFrame, and the write it belongs to.
  datatype Sent = Sent(frame: Frame, write: Option<nat>)

  datatype Stream = Stream(
    id: nat,
    sendWindow: int,
    recvWindow: int,
    recv: Buffer,
    state: LifeCycle,
    waiters: seq<Waiter>,
    woken: seq<Writer>,
    // history: arguments of the accepted writes, frames sent, credit received, payload bytes
    // received, FINs seen, resets sent or seen
    writes: seq<seq<Byte>>,
    sent: seq<Sent>,
    credit: nat,
    received: nat,
    finsSeen: nat,
    resets: nat)

  function NewStream(id: nat): Stream {
    Stream(id, INITIAL_WINDOW, INITIAL_WINDOW, EmptyBuffer, Open, [], [], [], [], 0, 0, 0, 0)
  }

  predicate Suspendable(w: Writer) {
    w.offset < |w.data|
  }

  predicate Ok(s: Stream) {
    && Inv(s.recv)
    && (forall i :: 0 <= i < |s.waiters| ==> Suspendable(s.waiters[i].writer))
    && (forall i :: 0 <= i < |s.woken| ==> Suspendable(s.woken[i]))
  }

  predicate WriteClosed(s: Stream) {
    s.state.LocalClose? || s.state.Closed?
  }

  function Emit(s: Stream, typ: nat, flags: nat, length: nat, data: seq<Byte>, write: Option<nat>): Stream {
    s.(sent := s.sent + [Sent(Frame(typ, flags, s.id, length, data), write)])
  }

  function Park(s: Stream, w: Writer): Stream {
    s.(waiters := s.waiters + [Waiter(w, 1)])
  }

  // The state after sending `chunk` more bytes of w.
  function Sending(s: Stream, w: Writer, chunk: nat): Stream
    requires w.offset + chunk <= |w.data|
  {
    var slice := w.data[w.offset..w.offset + chunk];
    Emit(s, TYPE_DATA, 0, |slice|, slice, Some(w.write)).(sendWindow := s.sendWindow - chunk)
  }

  // From an await of write to the next: at most one DATA frame, since a frame that does not finish
  // the write uses up the window.
  function Advance(s: Stream, w: Writer): Stream {
    if w.offset >= |w.data| then s
    else if s.sendWindow <= 0 then Park(s, w)
    else
      var chunk := Min(|w.data| - w.offset, s.sendWindow);
      if w.offset + chunk == |w.data| then Sending(s, w, chunk)
      else Park(Sending(s, w, chunk), w.(offset := w.offset + chunk))
  }

  function Write(s: Stream, data: seq<Byte>): Stream {
    if WriteClosed(s) then s
    else Advance(s.(writes := s.writes + [data]), Writer(|s.writes|, data, 0))
  }

  // The engine continues the k-th woken write.
  function Resume(s: Stream, k: nat): Stream {
    if k < |s.woken| then Advance(s.(woken := s.woken[..k] + s.woken[k + 1..]), s.woken[k]) else s
  }

  function CloseWrite(s: Stream): Stream {
    if WriteClosed(s) then s
    else Emit(s, TYPE_DATA, FLAG_FIN, 0, [], None).(state := if s.state.RemoteClose? then Closed else LocalClose)
  }

  function Reset(s: Stream): Stream {
    if s.state.Closed? then s
    else
      Emit(s, TYPE_DATA, FLAG_RST, 0, [], None).(
        state := Closed, recv := Close(s.recv, Some(Failure("stream reset"))), resets := s.resets + 1)
  }

  function Read(s: Stream, n: nat): Stream {
    s.(recv := ReadExact(s.recv, n))
  }

  function OnData(s: Stream, data: seq<Byte>): Stream {
    var t := s.(recv := Push(s.recv, data), recvWindow := s.recvWindow - |data|, received := s.received + |data|);
    if t.recvWindow < INITIAL_WINDOW / 2 then
      Emit(t, TYPE_WINDOW_UPDATE, 0, INITIAL_WINDOW - t.recvWindow, [], None).(recvWindow := INITIAL_WINDOW)
    else t
  }

  // The partition of windowWaiters.
  function Ready(ws: seq<Waiter>, window: int): seq<Writer> {
    if ws == [] then []
    else (if window >= ws[0].need then [ws[0].writer] else []) + Ready(ws[1..], window)
  }

  function Still(ws: seq<Waiter>, window: int): seq<Waiter> {
    if ws == [] then []
    else (if window >= ws[0].need then [] else [ws[0]]) + Still(ws[1..], window)
  }

  function OnWindowUpdate(s: Stream, delta: nat): Stream {
    var window := s.sendWindow + delta;
    s.(sendWindow := window, credit := s.credit + delta,
       waiters := Still(s.waiters, window), woken := s.woken + Ready(s.waiters, window))
  }

  function OnRemoteClose(s: Stream): Stream {
    s.(state := if s.state.LocalClose? then Closed else RemoteClose,
       recv := Close(s.recv, Some(Eof)), finsSeen := s.finsSeen + 1)
  }

  function OnReset(s: Stream): Stream {
    s.(state := Closed, recv := Close(s.recv, Some(Failure("stream reset by remote"))), resets := s.resets + 1)
  }

  datatype Event =
    // calls by the user, and the engine continuing a woken write
    | WriteEvent(data: seq<Byte>)
    | ResumeEvent(k: nat)
    | ReadEvent(n: nat)
    | CloseWriteEvent
    | ResetEvent
    // calls by the session's read loop
    | DataEvent(payload: seq<Byte>)
    | WindowUpdateEvent(delta: nat)
    | RemoteCloseEvent
    | RemoteResetEvent

  function Step(s: Stream, e: Event): Stream {
    match e
    case WriteEvent(data) => Write(s, data)
    case ResumeEvent(k) => Resume(s, k)
    case ReadEvent(n) => Read(s, n)
    case CloseWriteEvent => CloseWrite(s)
    case ResetEvent => Reset(s)
    case DataEvent(payload) => OnData(s, payload)
    case WindowUpdateEvent(delta) => OnWindowUpdate(s, delta)
    case RemoteCloseEvent => OnRemoteClose(s)
    case RemoteResetEvent => OnReset(s)
  }

  lemma {:induction false} PartitionKeeps(ws: seq<Waiter>, window: int)
    ensures forall i :: 0 <= i < |Still(ws, window)| ==> Still(ws, window)[i] in ws
    ensures forall w :: w in Ready(ws, window) ==> exists i :: 0 <= i < |ws| && ws[i].writer == w
  {
    if ws != [] {
      PartitionKeeps(ws[1..], window);
      forall w | w in Ready(ws, window) ensures exists i :: 0 <= i < |ws| && ws[i].writer == w {
        if w in Ready(ws[1..], window) {
          var i :| 0 <= i < |ws[1..]| && ws[1..][i].writer == w;
          assert ws[i + 1].writer == w;
        } else {
          assert ws[0].writer == w;
        }
      }
    }
  }

  lemma BufferStep(s: Stream, e: Event)
    requires Inv(s.recv)
    ensures Inv(Step(s, e).recv)
    ensures s.recv.accepted <= Step(s, e).recv.accepted
  {
    match e
    case DataEvent(d) => assert Push(s.recv, d) == Buffers.Step(s.recv, PushEvent(d));
    case ReadEvent(n) => assert ReadExact(s.recv, n) == Buffers.Step(s.recv, Buffers.ReadEvent(n));
    case ResetEvent =>
      var e := Some(Failure("stream reset"));
      assert Close(s.recv, e) == Buffers.Step(s.recv, CloseEvent(e));
    case RemoteCloseEvent => assert Close(s.recv, Some(Eof)) == Buffers.Step(s.recv, CloseEvent(Some(Eof)));
    case RemoteResetEvent =>
      var e := Some(Failure("stream reset by remote"));
      assert Close(s.recv, e) == Buffers.Step(s.recv, CloseEvent(e));
    case WriteEvent(_) =>
    case ResumeEvent(_) =>
    case CloseWriteEvent =>
    case WindowUpdateEvent(_) =>
  }

  lemma WindowUpdateOk(s: Stream, delta: nat)
    requires Ok(s)
    ensures Ok(OnWindowUpdate(s, delta))
  {
    var window := s.sendWindow + delta;
    var t := OnWindowUpdate(s, delta);
    PartitionKeeps(s.waiters, window);
    forall i | 0 <= i < |t.woken| ensures Suspendable(t.woken[i]) {
      if i >= |s.woken| {
        assert t.woken[i] in Ready(s.waiters, window);
      }
    }
  }

  lemma StepOk(s: Stream, e: Event)
    requires Ok(s)
    ensures Ok(Step(s, e))
  {
    match e
    case WindowUpdateEvent(delta) => WindowUpdateOk(s, delta);
    case WriteEvent(_) =>
    case ResumeEvent(_) =>
    case _ => BufferStep(s, e);
  }

  lemma NewStreamOk(id: nat)
    ensures Ok(NewStream(id))
  {
    EmptyInv();
  }

  function Run(s: Stream, events: seq<Event>): (t: Stream)
    requires Ok(s)
    ensures Ok(t)
    decreases |events|
  {
    if events == [] then s
    else
      StepOk(s, events[0]);
      Run(Step(s, events[0]), events[1..])
  }

  // Frames of a list of entries.
  function Frames(entries: seq<Sent>): (fs: seq<Frame>)
    ensures |fs| == |entries|
    ensures forall i :: 0 <= i < |entries| ==> fs[i] == entries[i].frame
  {
    seq(|entries|, i requires 0 <= i < |entries| => entries[i].frame)
  }

  // Frames that a step adds to the log.
  function NewFrames(s: Stream, t: Stream): seq<Frame> {
    if |s.sent| <= |t.sent| then Frames(t.sent[|s.sent|..]) else []
  }

  // The log only grows, and a step adds at most one frame, of this stream and well shaped.
  lemma StepEmits(s: Stream, e: Event)
    ensures s.sent <= Step(s, e).sent && |Step(s, e).sent| <= |s.sent| + 1
    ensures Step(s, e).id == s.id
    ensures forall f :: f in NewFrames(s, Step(s, e)) ==>
              WellShaped(f) && f.id == s.id && (f.typ == TYPE_DATA || f.typ == TYPE_WINDOW_UPDATE)
  {
  }
}
