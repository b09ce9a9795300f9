/** The session of ts/src/yamux.ts, step by step.

    A step is a call of the user, a WebSocket event, or the read loop continuing from one await to
    the next.  YamuxSession.dfy has the class and proves that it takes exactly these steps. */
module Sessions {
  import opened Bytes
  import opened Records
  import opened Buffers
  import opened YamuxFrames
  import opened Streams
  import P = Pulls

  // `created` holds every stream the session has ever created, under its id; `table` the ids still in
  // the map `streams`.  `phase` is where the read loop is suspended, Idle when it has ended.
  datatype Session = Session(
    created: map<nat, Stream>,
    table: set<nat>,
    nextID: nat,
    buf: Buffer,
    closed: bool,
    phase: P.Phase,
    // history: frames handed to ws.send, frames dispatched, whether onerror and onclose have fired
    log: seq<Frame>,
    dispatched: seq<Record>,
    erred: bool,
    wsClosed: bool)

  // connect: the read loop has started and waits for the first header.
  function NewSession(): Session {
    Session(map[], {}, 1, P.Begin(YamuxFormat, EmptyBuffer), false, P.WantHeader, [], [], false, false)
  }

  predicate SessionOk(s: Session) {
    && s.table <= s.created.Keys
    && (forall id :: id in s.created ==> Ok(s.created[id]))
    && P.Owns(YamuxFormat, s.buf, s.phase)
  }

  predicate TableOk(s: Session) {
    s.table <= s.created.Keys
  }

  // What is left of SessionOk when the read loop holds a frame.
  predicate StreamsOk(s: Session) {
    && s.table <= s.created.Keys
    && (forall id :: id in s.created ==> Ok(s.created[id]))
  }

  // ----- calls of the user -----

  function Open(s: Session): Session {
    if s.closed then s
    else
      s.(created := s.created[s.nextID := NewStream(s.nextID)],
         table := s.table + {s.nextID},
         nextID := s.nextID + 2,
         log := s.log + [Frame(TYPE_WINDOW_UPDATE, FLAG_SYN, s.nextID, INITIAL_WINDOW, [])])
  }

  // A stream of the session takes a step of its own; its frames go out through the session.
  function Put(s: Session, id: nat, t: Stream): Session
    requires id in s.created
  {
    s.(created := s.created[id := t], log := s.log + NewFrames(s.created[id], t))
  }

  // Every stream of the table is reset and the table emptied.
  function ResetAll(s: Session): Session {
    s.(created := map id | id in s.created :: if id in s.table then OnReset(s.created[id]) else s.created[id],
       table := {})
  }

  function Close(s: Session): Session {
    if s.closed then s
    else
      ResetAll(s.(closed := true, log := s.log + [Frame(TYPE_GO_AWAY, 0, 0, 0, [])])).(
        buf := Buffers.Close(s.buf, Some(Failure("session closed"))))
  }

  // ----- WebSocket events -----

  function OnMessage(s: Session, data: seq<Byte>): Session {
    s.(buf := Push(s.buf, data))
  }

  function OnWsClose(s: Session): Session {
    ResetAll(s.(closed := true, wsClosed := true)).(buf := Buffers.Close(s.buf, Some(Failure("WebSocket closed"))))
  }

  function OnWsError(s: Session): Session {
    s.(closed := true, erred := true, buf := Buffers.Close(s.buf, Some(Failure("WebSocket error"))))
  }

  // ----- the read loop -----

  function Maybe(t: Stream, c: bool, e: Streams.Event): Stream {
    if c then Streams.Step(t, e) else t
  }

  predicate HasPayload(f: Frame) {
    f.typ == TYPE_DATA && f.payload != []
  }

  // What a DATA or WINDOW_UPDATE frame does to the stream it names: payload, FIN, RST, and the
  // update of a WINDOW_UPDATE last, after a reset too.
  function AfterFrame(t: Stream, f: Frame): Stream {
    var t1 := Maybe(t, HasPayload(f), DataEvent(f.payload));
    var t2 := Maybe(t1, HasFlag(f.flags, FLAG_FIN), RemoteCloseEvent);
    var t3 := Maybe(t2, HasFlag(f.flags, FLAG_RST), RemoteResetEvent);
    Maybe(t3, f.typ != TYPE_DATA, WindowUpdateEvent(f.length))
  }

  predicate ForStream(f: Frame) {
    f.typ == TYPE_DATA || f.typ == TYPE_WINDOW_UPDATE
  }

  function Dispatch(s: Session, f: Frame): Session
    requires TableOk(s)
  {
    if ForStream(f) then
      if f.id in s.table then
        Put(s, f.id, AfterFrame(s.created[f.id], f)).(
          table := if HasFlag(f.flags, FLAG_RST) then s.table - {f.id} else s.table)
      else s
    else if f.typ == TYPE_PING then
      s.(log := s.log + [Frame(TYPE_PING, FLAG_ACK, 0, f.length, [])])
    else if f.typ == TYPE_GO_AWAY then
      ResetAll(s.(closed := true))
    else s
  }

  // After a frame: leave the loop after GoAway or when the session is closed, else await the next
  // header.
  function NextIteration(s: Session, f: Frame): Session {
    if f.typ == TYPE_GO_AWAY || s.closed then s.(phase := P.Idle)
    else s.(buf := P.Begin(YamuxFormat, s.buf), phase := P.WantHeader)
  }

  function HandleRecord(s: Session, r: Record): Session
    requires TableOk(s) && Valid(YamuxFormat, r)
  {
    var f := FromRecord(r);
    NextIteration(Dispatch(s, f).(dispatched := s.dispatched + [r]), f)
  }

  // From one await of the read loop to the next.
  function ResumeLoop(s: Session): Session
    requires SessionOk(s) && P.Ready(s.buf, s.phase)
  {
    P.OwnsContinue(YamuxFormat, s.buf, s.phase);
    match P.Continue(YamuxFormat, s.buf, s.phase)
    case Suspended(buf, phase) => s.(buf := buf, phase := phase)
    case Raised(_) => s.(phase := P.Idle)
    case Got(r) => HandleRecord(s, r)
  }

  // ----- runs -----

  datatype Event =
    | OpenCall
    | CloseCall
    | Message(data: seq<Byte>)
    | WsClose
    | WsError
    | LoopResumes
    | StreamCall(id: nat, call: Streams.Event)

  // What the user and the engine may do to a stream; the other events come from the read loop.
  predicate IsCall(e: Streams.Event) {
    e.WriteEvent? || e.ResumeEvent? || e.ReadEvent? || e.CloseWriteEvent? || e.ResetEvent?
  }

  function Step(s: Session, e: Event): Session
    requires SessionOk(s)
  {
    match e
    case OpenCall => Open(s)
    case CloseCall => Close(s)
    case Message(data) => OnMessage(s, data)
    case WsClose => OnWsClose(s)
    case WsError => OnWsError(s)
    case LoopResumes => if P.Ready(s.buf, s.phase) then ResumeLoop(s) else s
    case StreamCall(id, call) =>
      if id in s.created && IsCall(call) then Put(s, id, Streams.Step(s.created[id], call)) else s
  }

  lemma MaybeOk(t: Stream, c: bool, e: Streams.Event)
    requires Ok(t)
    ensures Ok(Maybe(t, c, e))
    ensures t.sent <= Maybe(t, c, e).sent && Maybe(t, c, e).id == t.id
  {
    StepOk(t, e);
  }

  lemma AfterFrameOk(t: Stream, f: Frame)
    requires Ok(t)
    ensures Ok(AfterFrame(t, f))
    ensures t.sent <= AfterFrame(t, f).sent && AfterFrame(t, f).id == t.id
  {
    MaybeOk(t, HasPayload(f), DataEvent(f.payload));
    var t1 := Maybe(t, HasPayload(f), DataEvent(f.payload));
    MaybeOk(t1, HasFlag(f.flags, FLAG_FIN), RemoteCloseEvent);
    var t2 := Maybe(t1, HasFlag(f.flags, FLAG_FIN), RemoteCloseEvent);
    MaybeOk(t2, HasFlag(f.flags, FLAG_RST), RemoteResetEvent);
    var t3 := Maybe(t2, HasFlag(f.flags, FLAG_RST), RemoteResetEvent);
    MaybeOk(t3, f.typ != TYPE_DATA, WindowUpdateEvent(f.length));
    PrefixTransitive(t.sent, t1.sent, t2.sent);
    PrefixTransitive(t.sent, t2.sent, t3.sent);
    PrefixTransitive(t.sent, t3.sent, AfterFrame(t, f).sent);
  }

  lemma ResetAllOk(s: Session)
    requires StreamsOk(s)
    ensures StreamsOk(ResetAll(s))
  {
    forall id | id in s.created ensures Ok(ResetAll(s).created[id]) {
      StepOk(s.created[id], RemoteResetEvent);
    }
  }

  lemma PutOk(s: Session, id: nat, t: Stream)
    requires StreamsOk(s) && id in s.created && Ok(t) && s.created[id].sent <= t.sent
    ensures StreamsOk(Put(s, id, t))
  {
  }

  // Putting a stream back as it is changes nothing.
  lemma PutSame(s: Session, id: nat)
    requires id in s.created
    ensures Put(s, id, s.created[id]) == s
  {
    var t := Put(s, id, s.created[id]);
    assert t.created == s.created;
    ConcatEmpty(s.log);
  }

  lemma DispatchOk(s: Session, f: Frame)
    requires StreamsOk(s)
    ensures StreamsOk(Dispatch(s, f))
    ensures Dispatch(s, f).buf == s.buf && Dispatch(s, f).phase == s.phase
    ensures s.log <= Dispatch(s, f).log
  {
    if f.typ == TYPE_GO_AWAY {
      ResetAllOk(s.(closed := true));
    } else if ForStream(f) && f.id in s.table {
      AfterFrameOk(s.created[f.id], f);
      PutOk(s, f.id, AfterFrame(s.created[f.id], f));
    }
  }

  lemma ResumeLoopOk(s: Session)
    requires SessionOk(s) && P.Ready(s.buf, s.phase)
    ensures SessionOk(ResumeLoop(s))
  {
    P.OwnsContinue(YamuxFormat, s.buf, s.phase);
    match P.Continue(YamuxFormat, s.buf, s.phase)
    case Suspended(_, _) =>
    case Raised(_) =>
    case Got(r) =>
      DispatchOk(s, FromRecord(r));
      P.OwnsRead(YamuxFormat, s.buf, P.WantHeader);
  }

  lemma SessionStepOk(s: Session, e: Event)
    requires SessionOk(s)
    ensures SessionOk(Step(s, e))
  {
    match e
    case OpenCall =>
    case CloseCall =>
      if !s.closed {
        ResetAllOk(s.(closed := true, log := s.log + [Frame(TYPE_GO_AWAY, 0, 0, 0, [])]));
        P.OwnsClose(YamuxFormat, s.buf, s.phase, Some(Failure("session closed")));
      }
    case Message(data) => P.OwnsPush(YamuxFormat, s.buf, s.phase, data);
    case WsClose =>
      ResetAllOk(s.(closed := true, wsClosed := true));
      P.OwnsClose(YamuxFormat, s.buf, s.phase, Some(Failure("WebSocket closed")));
    case WsError => P.OwnsClose(YamuxFormat, s.buf, s.phase, Some(Failure("WebSocket error")));
    case LoopResumes =>
      if P.Ready(s.buf, s.phase) {
        ResumeLoopOk(s);
      }
    case StreamCall(id, call) =>
      if id in s.created && IsCall(call) {
        StepOk(s.created[id], call);
        PutOk(s, id, Streams.Step(s.created[id], call));
      }
  }

  function Run(s: Session, events: seq<Event>): (t: Session)
    requires SessionOk(s)
    ensures SessionOk(t)
    decreases |events|
  {
    if events == [] then s
    else
      SessionStepOk(s, events[0]);
      Run(Step(s, events[0]), events[1..])
  }

  lemma NewSessionOk()
    ensures SessionOk(NewSession())
  {
    P.OwnsRead(YamuxFormat, EmptyBuffer, P.WantHeader);
  }
}
