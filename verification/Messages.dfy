/** stream.ts, `WSStream`, step by step: `send` as two writes with an await after each, `recv` as the
    reader of `Receiving`, on top of a yamux stream that may take any other step in between.

    One call of `send` is outstanding at a time: a second one would put its header between the first
    one's header and payload (MessageSends.dfy has that case).  A call that ended with an exception is
    over, and the next call is an ordinary one. */
module Messages {
  import opened Bytes
  import opened Records
  import opened AppFrames
  import opened Streams
  import opened StreamWrites
  import R = Receiving
  import P = Pulls
  import Buffers

  // Where `send` is: between calls, awaiting the write of the header or of the payload, or between
  // calls after one that ended with an exception when its header was out.
  datatype Sender =
    | Between
    | HeaderOut(payload: seq<Byte>)
    | PayloadOut(payload: seq<Byte>)
    | Broken(payload: seq<Byte>)

  // `done`: the payloads of the earlier calls of send that put something on the stream; the last four
  // fields are recv's.
  datatype Messenger = Messenger(
    ys: Stream,
    tx: Sender,
    done: seq<seq<Byte>>,
    phase: P.Phase,
    records: seq<Record>,
    results: seq<R.Received>,
    failed: bool)

  function Attach(ys: Stream): Messenger {
    Messenger(ys, Between, [], P.Idle, [], [], false)
  }

  predicate MessengerOk(m: Messenger) {
    Ok(m.ys) && P.Owns(AppFormat, m.ys.recv, m.phase)
  }

  datatype Event =
    | SendCall(payload: seq<Byte>)
    | SendContinues
    | RecvCall
    | RecvContinues
    | Other(e: Streams.Event)

  function DataHeader(payload: seq<Byte>): seq<Byte> {
    Header(FRAME_DATA, |payload|)
  }

  // ----- send -----

  // The write begun last has returned.
  predicate WriteReturned(s: Stream) {
    |s.writes| == 0 || Absent(Pending(s), |s.writes| - 1)
  }

  predicate Outstanding(tx: Sender) {
    tx.HeaderOut? || tx.PayloadOut?
  }

  // A call on a stream whose write side is closed throws before anything is sent.
  function Send(m: Messenger, payload: seq<Byte>): Messenger {
    if Outstanding(m.tx) || WriteClosed(m.ys) then m
    else m.(ys := Write(m.ys, DataHeader(payload)), tx := HeaderOut(payload), done := Attempted(m))
  }

  // The payloads of all calls of send that put something on the stream, in order.
  function Attempted(m: Messenger): seq<seq<Byte>> {
    if m.tx.Between? then m.done else m.done + [m.tx.payload]
  }

  function ContinueSend(m: Messenger): Messenger {
    if !WriteReturned(m.ys) then m
    else
      match m.tx
      case HeaderOut(payload) =>
        if payload == [] then m.(tx := Between, done := m.done + [payload])
        else if WriteClosed(m.ys) then m.(tx := Broken(payload))
        else m.(ys := Write(m.ys, payload), tx := PayloadOut(payload))
      case PayloadOut(payload) => m.(tx := Between, done := m.done + [payload])
      case _ => m
  }

  // ----- recv -----

  function Reader(m: Messenger): R.Receiver {
    R.Receiver(m.ys.recv, m.phase, m.records, m.results, m.failed)
  }

  function WithReader(m: Messenger, r: R.Receiver): Messenger {
    m.(ys := m.ys.(recv := r.buf), phase := r.phase, records := r.records, results := r.results, failed := r.failed)
  }

  function Step(m: Messenger, e: Event): Messenger
    requires MessengerOk(m)
  {
    match e
    case SendCall(payload) => Send(m, payload)
    case SendContinues => ContinueSend(m)
    case RecvCall => WithReader(m, R.Step(Reader(m), R.Call))
    case RecvContinues => WithReader(m, R.Step(Reader(m), R.Resume))
    case Other(e) => if e.WriteEvent? || e.ReadEvent? then m else m.(ys := Streams.Step(m.ys, e))
  }

  // ----- what a step does to the yamux stream: at most one call -----

  function CallOf(m: Messenger, e: Event): Option<Streams.Event>
    requires MessengerOk(m)
  {
    match e
    case SendCall(payload) =>
      if Outstanding(m.tx) || WriteClosed(m.ys) then None else Some(WriteEvent(DataHeader(payload)))
    case SendContinues =>
      if WriteReturned(m.ys) && m.tx.HeaderOut? && m.tx.payload != [] && !WriteClosed(m.ys)
      then Some(WriteEvent(m.tx.payload)) else None
    case RecvCall => if m.phase.Idle? then Some(ReadEvent(APP_HEADER_SIZE)) else None
    case RecvContinues => NextRead(m)
    case Other(e) => if e.WriteEvent? || e.ReadEvent? then None else Some(e)
  }

  function NextRead(m: Messenger): Option<Streams.Event>
    requires MessengerOk(m)
  {
    if !P.Ready(m.ys.recv, m.phase) then None
    else
      P.OwnsContinue(AppFormat, m.ys.recv, m.phase);
      match P.Continue(AppFormat, m.ys.recv, m.phase)
      case Suspended(_, next) => Some(ReadEvent(P.Need(AppFormat, next)))
      case _ => None
  }

  function Apply(s: Stream, call: Option<Streams.Event>): Stream {
    match call
    case Some(e) => Streams.Step(s, e)
    case None => s
  }

  lemma StepIsOneCall(m: Messenger, e: Event)
    requires MessengerOk(m)
    ensures Step(m, e).ys == Apply(m.ys, CallOf(m, e))
  {
    if e.RecvContinues? && P.Ready(m.ys.recv, m.phase) {
      P.OwnsContinue(AppFormat, m.ys.recv, m.phase);
    }
  }

  // ----- every step keeps the messenger in order -----

  // A step of the stream that is not a read of its own is nothing to the reader but bytes arriving
  // or the buffer closing.
  function ReaderEvent(s: Stream, e: Streams.Event): Option<R.Event> {
    match e
    case DataEvent(data) => Some(R.Deliver(data))
    case ResetEvent => if s.state.Closed? then None else Some(R.Shut(Some(Buffers.Failure("stream reset"))))
    case RemoteCloseEvent => Some(R.Shut(Some(Buffers.Eof)))
    case RemoteResetEvent => Some(R.Shut(Some(Buffers.Failure("stream reset by remote"))))
    case _ => None
  }

  lemma OtherIsReaderStep(m: Messenger, e: Streams.Event)
    requires MessengerOk(m) && !e.ReadEvent?
    ensures var r := Reader(m.(ys := Streams.Step(m.ys, e)));
            match ReaderEvent(m.ys, e) case Some(x) => r == R.Step(Reader(m), x) case None => r == Reader(m)
  {
  }

  lemma OtherOk(m: Messenger, e: Streams.Event)
    requires MessengerOk(m) && !e.ReadEvent?
    ensures MessengerOk(m.(ys := Streams.Step(m.ys, e)))
  {
    StepOk(m.ys, e);
    OtherIsReaderStep(m, e);
    match ReaderEvent(m.ys, e)
    case Some(x) => R.StepOwns(Reader(m), x);
    case None =>
  }

  lemma MessengerStepOk(m: Messenger, e: Event)
    requires MessengerOk(m)
    ensures MessengerOk(Step(m, e))
  {
    match e
    case SendCall(payload) => OtherOk(m, WriteEvent(DataHeader(payload)));
    case SendContinues =>
      if m.tx.HeaderOut? {
        OtherOk(m, WriteEvent(m.tx.payload));
      }
    case RecvCall => R.StepOwns(Reader(m), R.Call);
    case RecvContinues => R.StepOwns(Reader(m), R.Resume);
    case Other(e) =>
      if !e.ReadEvent? {
        OtherOk(m, e);
      }
  }

  // ----- what recv returns -----

  lemma OtherKeepsReader(m: Messenger, e: Streams.Event)
    requires MessengerOk(m) && R.RecvInv(Reader(m)) && !e.ReadEvent?
    ensures R.RecvInv(Reader(m.(ys := Streams.Step(m.ys, e))))
  {
    OtherIsReaderStep(m, e);
    match ReaderEvent(m.ys, e)
    case Some(x) => R.StepInv(Reader(m), x);
    case None =>
  }

  lemma SendKeepsReader(m: Messenger, payload: seq<Byte>)
    ensures Reader(Send(m, payload)) == Reader(m)
    ensures Reader(ContinueSend(m)) == Reader(m)
  {
  }

  lemma StepKeepsReader(m: Messenger, e: Event)
    requires MessengerOk(m) && R.RecvInv(Reader(m))
    ensures R.RecvInv(Reader(Step(m, e)))
  {
    match e
    case RecvCall => R.StepInv(Reader(m), R.Call);
    case RecvContinues => R.StepInv(Reader(m), R.Resume);
    case Other(e) =>
      if !e.ReadEvent? && !e.WriteEvent? {
        OtherKeepsReader(m, e);
      }
    case SendCall(payload) => SendKeepsReader(m, payload);
    case SendContinues => SendKeepsReader(m, []);
  }

  function Run(m: Messenger, events: seq<Event>): (n: Messenger)
    requires MessengerOk(m)
    ensures MessengerOk(n)
    decreases |events|
  {
    if events == [] then m
    else
      MessengerStepOk(m, events[0]);
      Run(Step(m, events[0]), events[1..])
  }

  lemma {:induction false} RunKeepsReader(m: Messenger, events: seq<Event>)
    requires MessengerOk(m) && R.RecvInv(Reader(m))
    ensures R.RecvInv(Reader(Run(m, events)))
    decreases |events|
  {
    if events != [] {
      MessengerStepOk(m, events[0]);
      StepKeepsReader(m, events[0]);
      RunKeepsReader(Step(m, events[0]), events[1..]);
    }
  }
}
