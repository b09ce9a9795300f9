/** From `send` on one session to `recv` on another: a stream with its WSStream on top, in a session in
    which everything else may happen too, other streams' calls included. */
module EndToEnd {
  import opened Bytes
  import opened Records
  import opened YamuxFrames
  import opened Messages
  import opened MessageSends
  import Streams
  import StreamWrites
  import R = Receiving
  import A = AppFrames
  import P = Pulls
  import S = Sessions
  import T = SessionTables
  import opened SessionParsing
  import opened SessionStreams
  import opened SessionLogs
  import opened SessionFeeding

  // A session and the WSStream of one of its streams; the messenger's `ys` is that stream.
  datatype Endpoint = Endpoint(session: S.Session, m: Messenger)

  datatype Act =
    | App(call: Messages.Event)
    | Session(e: S.Event)

  predicate EndpointOk(p: Endpoint, id: nat) {
    && S.SessionOk(p.session) && T.IdsInv(p.session)
    && id in p.session.created && p.session.created[id] == p.m.ys
    && MessengerOk(p.m)
  }

  // The program writes to and reads from the stream through its WSStream only.
  predicate Bypasses(e: S.Event, id: nat) {
    e.StreamCall? && e.id == id && (e.call.WriteEvent? || e.call.ReadEvent?)
  }

  function Step(p: Endpoint, act: Act, id: nat): Endpoint
    requires EndpointOk(p, id)
  {
    match act
    case App(e) =>
      if e.Other? then p
      else
        var n := Messages.Step(p.m, e);
        Endpoint(S.Put(p.session, id, n.ys), n)
    case Session(e) =>
      if Bypasses(e, id) then p
      else
        StepProjects(p.session, e, id);
        var s := S.Step(p.session, e);
        Endpoint(s, p.m.(ys := s.created[id]))
  }

  // ----- as a step of the session -----

  function AsSession(p: Endpoint, act: Act, id: nat): Option<S.Event>
    requires EndpointOk(p, id)
  {
    match act
    case App(e) =>
      if e.Other? || CallOf(p.m, e).None? then None else Some(S.StreamCall(id, CallOf(p.m, e).value))
    case Session(e) => if Bypasses(e, id) then None else Some(e)
  }

  lemma StepIsSession(p: Endpoint, act: Act, id: nat)
    requires EndpointOk(p, id)
    ensures Step(p, act, id).session ==
            match AsSession(p, act, id) case Some(e) => S.Step(p.session, e) case None => p.session
  {
    if act.App? && !act.call.Other? {
      StepIsOneCall(p.m, act.call);
      S.PutSame(p.session, id);
    }
  }

  // ----- as steps of the messenger -----

  predicate Handlers(own: seq<Streams.Event>) {
    forall i :: 0 <= i < |own| ==> !own[i].WriteEvent? && !own[i].ReadEvent?
  }

  lemma ProjectionHandles(s: S.Session, e: S.Event, id: nat)
    requires S.SessionOk(s) && !Bypasses(e, id)
    ensures Handlers(Projection(s, e, id))
  {
    if e.LoopResumes? && P.Ready(s.buf, s.phase) {
      P.OwnsContinue(YamuxFormat, s.buf, s.phase);
    }
  }

  // Whatever the session does to the stream leaves its WSStream in order.
  lemma {:induction false} HandlersKeep(m: Messenger, own: seq<Streams.Event>)
    requires MessengerOk(m) && R.RecvInv(Reader(m)) && Handlers(own)
    ensures var n := m.(ys := Streams.Run(m.ys, own)); MessengerOk(n) && R.RecvInv(Reader(n))
    decreases |own|
  {
    if own == [] {
      assert m.(ys := m.ys) == m;
    } else {
      var n := m.(ys := Streams.Step(m.ys, own[0]));
      OtherOk(m, own[0]);
      OtherKeepsReader(m, own[0]);
      HandlersKeep(n, own[1..]);
      assert n.(ys := Streams.Run(n.ys, own[1..])) == m.(ys := Streams.Run(m.ys, own));
    }
  }

  lemma {:induction false} HandlersKeepTx(m: Messenger, own: seq<Streams.Event>)
    requires MessengerOk(m) && TxInv(m) && Handlers(own)
    ensures TxInv(m.(ys := Streams.Run(m.ys, own)))
    decreases |own|
  {
    if own == [] {
      assert m.(ys := m.ys) == m;
    } else {
      var n := m.(ys := Streams.Step(m.ys, own[0]));
      OtherOk(m, own[0]);
      OtherTx(m, own[0]);
      HandlersKeepTx(n, own[1..]);
      assert n.(ys := Streams.Run(n.ys, own[1..])) == m.(ys := Streams.Run(m.ys, own));
    }
  }

  predicate InOrder(p: Endpoint, id: nat) {
    EndpointOk(p, id) && R.RecvInv(Reader(p.m))
  }

  lemma SessionKeepsOrder(p: Endpoint, e: S.Event, id: nat)
    requires InOrder(p, id) && !Bypasses(e, id)
    ensures InOrder(Step(p, Session(e), id), id)
  {
    StepProjects(p.session, e, id);
    ProjectionHandles(p.session, e, id);
    HandlersKeep(p.m, Projection(p.session, e, id));
    S.SessionStepOk(p.session, e);
    T.StepIds(p.session, e);
  }

  lemma AppKeepsOrder(p: Endpoint, e: Messages.Event, id: nat)
    requires InOrder(p, id) && !e.Other?
    ensures InOrder(Step(p, App(e), id), id)
  {
    MessengerStepOk(p.m, e);
    StepKeepsReader(p.m, e);
    StepIsSession(p, App(e), id);
    match AsSession(p, App(e), id)
    case Some(call) =>
      S.SessionStepOk(p.session, call);
      T.StepIds(p.session, call);
    case None =>
  }

  lemma StepKeepsOrder(p: Endpoint, act: Act, id: nat)
    requires InOrder(p, id)
    ensures InOrder(Step(p, act, id), id)
  {
    match act
    case App(e) =>
      if !e.Other? {
        AppKeepsOrder(p, e, id);
      }
    case Session(e) =>
      if !Bypasses(e, id) {
        SessionKeepsOrder(p, e, id);
      }
  }

  function Next(p: Endpoint, act: Act, id: nat): (q: Endpoint)
    requires InOrder(p, id)
    ensures InOrder(q, id)
  {
    StepKeepsOrder(p, act, id);
    Step(p, act, id)
  }

  function Run(p: Endpoint, acts: seq<Act>, id: nat): Endpoint
    requires InOrder(p, id)
    decreases |acts|
  {
    if acts == [] then p else Run(Next(p, acts[0], id), acts[1..], id)
  }

  lemma {:induction false} RunInOrder(p: Endpoint, acts: seq<Act>, id: nat)
    requires InOrder(p, id)
    ensures InOrder(Run(p, acts, id), id)
    decreases |acts|
  {
    if acts != [] {
      RunInOrder(Next(p, acts[0], id), acts[1..], id);
    }
  }

  // The session's own events in a run.
  function Trace(p: Endpoint, acts: seq<Act>, id: nat): seq<S.Event>
    requires InOrder(p, id)
    decreases |acts|
  {
    if acts == [] then []
    else
      (match AsSession(p, acts[0], id) case Some(e) => [e] case None => [])
      + Trace(Next(p, acts[0], id), acts[1..], id)
  }

  lemma {:induction false} RunIsSession(p: Endpoint, acts: seq<Act>, id: nat)
    requires InOrder(p, id)
    ensures Run(p, acts, id).session == S.Run(p.session, Trace(p, acts, id))
    decreases |acts|
  {
    if acts != [] {
      var q := Next(p, acts[0], id);
      StepIsSession(p, acts[0], id);
      RunIsSession(q, acts[1..], id);
      var rest := Trace(q, acts[1..], id);
      match AsSession(p, acts[0], id)
      case Some(e) => assert ([e] + rest)[0] == e && ([e] + rest)[1..] == rest;
      case None => ConcatEmpty(rest);
    }
  }

  // ----- whether the frames sent stay intact -----

  // The program calls send after a call that broke off, and the stream takes it.
  predicate SendsBroken(p: Endpoint, act: Act) {
    act.App? && SendsAfterBreak(p.m, act.call)
  }

  lemma StepIntactExactly(p: Endpoint, act: Act, id: nat)
    requires InOrder(p, id) && TxInv(p.m)
    ensures TxInv(Step(p, act, id).m) <==> !SendsBroken(p, act)
  {
    match act
    case App(e) =>
      if !e.Other? {
        StepKeepsTxExactly(p.m, e);
      }
    case Session(e) =>
      if !Bypasses(e, id) {
        StepProjects(p.session, e, id);
        ProjectionHandles(p.session, e, id);
        HandlersKeepTx(p.m, Projection(p.session, e, id));
      }
  }

  predicate NeverSendsBroken(p: Endpoint, acts: seq<Act>, id: nat)
    requires InOrder(p, id)
    decreases |acts|
  {
    acts == [] || (!SendsBroken(p, acts[0]) && NeverSendsBroken(Next(p, acts[0], id), acts[1..], id))
  }

  predicate StaysIntact(p: Endpoint, acts: seq<Act>, id: nat)
    requires InOrder(p, id)
    decreases |acts|
  {
    TxInv(p.m) && (acts == [] || StaysIntact(Next(p, acts[0], id), acts[1..], id))
  }

  // In every run of a session: what is written to the stream is whole frames, and the one in progress,
  // throughout, exactly when no send is accepted after a broken one.
  lemma {:induction false} IntactExactly(p: Endpoint, acts: seq<Act>, id: nat)
    requires InOrder(p, id) && TxInv(p.m)
    ensures StaysIntact(p, acts, id) <==> NeverSendsBroken(p, acts, id)
    ensures NeverSendsBroken(p, acts, id) ==> TxInv(Run(p, acts, id).m)
    decreases |acts|
  {
    if acts != [] {
      StepIntactExactly(p, acts[0], id);
      if !SendsBroken(p, acts[0]) {
        IntactExactly(Next(p, acts[0], id), acts[1..], id);
      }
    }
  }

  // ----- a stream from its opening on -----

  // A session after any run from connect.
  function After(pre: seq<S.Event>): (s: S.Session)
    ensures S.SessionOk(s)
  {
    S.NewSessionOk();
    S.Run(S.NewSession(), pre)
  }

  // open() and a WSStream on the new stream.
  function Start(pre: seq<S.Event>): Endpoint {
    Endpoint(S.Open(After(pre)), Attach(Streams.NewStream(After(pre).nextID)))
  }

  lemma AfterIds(pre: seq<S.Event>)
    ensures T.IdsInv(After(pre)) && After(pre).nextID !in After(pre).created
  {
    S.NewSessionOk();
    T.RunIds(S.NewSession(), pre);
  }

  lemma StartInOrder(pre: seq<S.Event>)
    requires !After(pre).closed
    ensures InOrder(Start(pre), After(pre).nextID) && TxInv(Start(pre).m)
  {
    AfterIds(pre);
    AttachedOk(After(pre).nextID);
    S.SessionStepOk(After(pre), S.OpenCall);
    T.StepIds(After(pre), S.OpenCall);
  }

  // What the endpoint has become after `acts`.
  function Reached(pre: seq<S.Event>, acts: seq<Act>): (p: Endpoint)
    requires !After(pre).closed
    ensures InOrder(p, After(pre).nextID)
  {
    StartInOrder(pre);
    RunInOrder(Start(pre), acts, After(pre).nextID);
    Run(Start(pre), acts, After(pre).nextID)
  }

  // No send was accepted after a broken one.
  predicate SendsCleanly(pre: seq<S.Event>, acts: seq<Act>)
    requires !After(pre).closed
  {
    StartInOrder(pre);
    NeverSendsBroken(Start(pre), acts, After(pre).nextID)
  }

  // The bytes of all WebSocket messages the session has been handed, before and after the opening.
  function BytesIn(pre: seq<S.Event>, acts: seq<Act>): seq<Byte>
    requires !After(pre).closed
  {
    StartInOrder(pre);
    MessageBytes(pre) + MessageBytes(Trace(Start(pre), acts, After(pre).nextID))
  }

  // ----- the sending end -----

  lemma StartLog(pre: seq<S.Event>, id: nat)
    ensures LogInv(After(pre), id) && LogShaped(After(pre).log)
    ensures LogInv(S.Open(After(pre)), id) && LogShaped(S.Open(After(pre)).log)
  {
    S.NewSessionOk();
    LogIsTheStreams(S.NewSession(), pre, id);
    AfterIds(pre);
    StepLog(After(pre), S.OpenCall, id);
  }

  // The stream's data on the wire is what it sent: unless a send was accepted after a broken one, the
  // front of the encoded payloads passed to send.
  lemma SenderSide(pre: seq<S.Event>, acts: seq<Act>)
    requires !After(pre).closed
    ensures var id, a := After(pre).nextID, Reached(pre, acts);
            && LogShaped(a.session.log)
            && DataOf(a.session.log, id) == StreamWrites.Payloads(a.m.ys.sent)
            && (SendsCleanly(pre, acts) ==>
                  TxInv(a.m) && DataOf(a.session.log, id) <= A.EncodeAll(DataFrames(Attempted(a.m))))
  {
    var id := After(pre).nextID;
    StartInOrder(pre);
    StartLog(pre, id);
    RunIsSession(Start(pre), acts, id);
    LogIsTheStreams(Start(pre).session, Trace(Start(pre), acts, id), id);
    var a := Reached(pre, acts);
    LogCarries(a.session, id);
    IntactExactly(Start(pre), acts, id);
    if SendsCleanly(pre, acts) {
      SentIsFrames(a.m);
    }
  }

  // ----- the receiving end -----

  lemma StartLoop(pre: seq<S.Event>)
    ensures LoopInv(After(pre)) && LoopInv(S.Open(After(pre)))
    ensures !After(pre).closed ==> After(pre).buf.accepted == MessageBytes(pre)
  {
    NewSessionLoop();
    RunKeepsLoop(S.NewSession(), pre);
    ConcatEmpty(MessageBytes(pre));
    StepKeepsLoop(After(pre), S.OpenCall);
  }

  // Nothing was sent to the stream before it was opened.
  predicate Unused(pre: seq<S.Event>) {
    StartLoop(pre);
    DispatchedData(After(pre), After(pre).nextID) == []
  }

  lemma StartFed(pre: seq<S.Event>)
    requires !After(pre).closed && Unused(pre)
    ensures Fed(Start(pre).session, After(pre).nextID)
  {
    StartLoop(pre);
    assert Start(pre).session.dispatched == After(pre).dispatched;
  }

  // The session dispatches the front of the frames on the wire, whatever the cutting.
  lemma DispatchedFromWire(s: S.Session, fs: seq<Frame>)
    requires LoopInv(s) && AllCarried(fs) && s.buf.accepted <= Wire(fs)
    ensures DispatchedFrames(s) <= fs
  {
    PrefixFrames(s.dispatched, s.buf.accepted);
    CutWireParses(fs, s.buf.accepted);
    PrefixTransitive(DispatchedFrames(s), ParseFrames(s.buf.accepted), fs);
  }

  lemma ReachedAccepts(pre: seq<S.Event>, acts: seq<Act>)
    requires !After(pre).closed
    ensures LoopInv(Reached(pre, acts).session)
    ensures Reached(pre, acts).session.buf.accepted <= BytesIn(pre, acts)
    ensures !Reached(pre, acts).session.closed ==> Reached(pre, acts).session.buf.accepted == BytesIn(pre, acts)
  {
    var id := After(pre).nextID;
    StartInOrder(pre);
    StartLoop(pre);
    RunIsSession(Start(pre), acts, id);
    RunKeepsLoop(Start(pre).session, Trace(Start(pre), acts, id));
  }

  lemma ReachedFed(pre: seq<S.Event>, acts: seq<Act>)
    requires !After(pre).closed && Unused(pre)
    ensures Fed(Reached(pre, acts).session, After(pre).nextID)
  {
    var id := After(pre).nextID;
    StartInOrder(pre);
    StartFed(pre);
    RunIsSession(Start(pre), acts, id);
    RunFeeds(Start(pre).session, Trace(Start(pre), acts, id), id);
  }

  // What recv returned up to its first failure.
  function BeforeFailure(results: seq<R.Received>): seq<R.Received> {
    if results == [] || results[0].Failed? then [] else [results[0]] + BeforeFailure(results[1..])
  }

  lemma {:induction false} BeforeFailureIs(good: seq<R.Received>, results: seq<R.Received>)
    requires good <= results && (forall i :: 0 <= i < |good| ==> !good[i].Failed?)
    requires |results| > |good| ==> results[|good|].Failed?
    ensures BeforeFailure(results) == good
  {
    if good != [] {
      BeforeFailureIs(good[1..], results[1..]);
      assert good == [good[0]] + good[1..];
    }
  }

  lemma RecordsAreResults(m: Messenger)
    requires R.RecvInv(Reader(m))
    ensures BeforeFailure(m.results) == R.InterpretAll(m.records)
  {
    BeforeFailureIs(R.InterpretAll(m.records), m.results);
  }

  // For any peer, and any frames it puts on the wire: if the stream's data among them is the front of
  // some application frames, what recv returned before its first failure is the front of those
  // frames, whole and in order - payloads as they were sent, error frames as errors.
  lemma ReceiverSide(pre: seq<S.Event>, acts: seq<Act>, fs: seq<Frame>, frames: seq<A.AppFrame>)
    requires !After(pre).closed && Unused(pre)
    requires AllCarried(fs) && BytesIn(pre, acts) <= Wire(fs)
    requires A.AllSendable(frames) && DataOf(fs, After(pre).nextID) <= A.EncodeAll(frames)
    ensures var m := Reached(pre, acts).m;
            && m.records <= A.ToRecords(frames) && AllValid(AppFormat, m.records)
            && BeforeFailure(m.results) == R.InterpretAll(m.records)
  {
    var id, b := After(pre).nextID, Reached(pre, acts);
    var stream := b.m.ys.recv.accepted;
    StartInOrder(pre);
    ReachedAccepts(pre, acts);
    PrefixTransitive(b.session.buf.accepted, BytesIn(pre, acts), Wire(fs));
    DispatchedFromWire(b.session, fs);
    ReachedFed(pre, acts);
    DataOfPrefix(DispatchedFrames(b.session), fs, id);
    PrefixTransitive(stream, DispatchedData(b.session, id), DataOf(fs, id));
    PrefixTransitive(stream, DataOf(fs, id), A.EncodeAll(frames));
    A.SendableRecords(frames);
    A.EncodeAllIsRaw(frames);
    TruncationSafe(AppFormat, A.ToRecords(frames), stream);
    PrefixTransitive(b.m.records, Split(AppFormat, stream), A.ToRecords(frames));
    RecordsAreResults(b.m);
  }

  // ----- both ends -----

  lemma {:induction false} DataFramesInterpreted(payloads: seq<seq<Byte>>, records: seq<Record>)
    requires A.AllSendable(DataFrames(payloads)) && AllValid(AppFormat, records)
    requires records <= A.ToRecords(DataFrames(payloads))
    ensures |records| <= |payloads|
    ensures forall i :: 0 <= i < |records| ==> R.InterpretAll(records)[i] == R.Payload(payloads[i])
  {
    forall i | 0 <= i < |records| ensures R.Interpret(records[i]) == R.Payload(payloads[i]) {
      assert records[i] == A.ToRecord(DataFrames(payloads)[i]);
    }
  }

  // Flags, ids and lengths of all frames fit their fields.
  predicate Fits(log: seq<Frame>) {
    forall i :: 0 <= i < |log| ==> InRange(log[i])
  }

  // End-to-end integrity, for any stream of two sessions that run as they like: whatever is called on
  // other streams, however writers and window updates interleave, and wherever the bytes on the wire
  // are cut into messages and cut off, what recv returned before its first failure is the front of
  // the payloads passed to send - whole, in order, and nothing else.
  lemma EndToEndIntegrity(preA: seq<S.Event>, actsA: seq<Act>, preB: seq<S.Event>, actsB: seq<Act>)
    requires !After(preA).closed && !After(preB).closed && After(preA).nextID == After(preB).nextID
    requires SendsCleanly(preA, actsA) && Unused(preB)
    requires Fits(Reached(preA, actsA).session.log)
    requires A.AllSendable(DataFrames(Attempted(Reached(preA, actsA).m)))
    requires BytesIn(preB, actsB) <= Wire(Reached(preA, actsA).session.log)
    ensures var sent, received := Attempted(Reached(preA, actsA).m), BeforeFailure(Reached(preB, actsB).m.results);
            |received| <= |sent| && forall i :: 0 <= i < |received| ==> received[i] == R.Payload(sent[i])
  {
    var a, b := Reached(preA, actsA), Reached(preB, actsB);
    SenderSide(preA, actsA);
    ReceiverSide(preB, actsB, a.session.log, DataFrames(Attempted(a.m)));
    DataFramesInterpreted(Attempted(a.m), b.m.records);
  }

  lemma NothingYet()
    ensures After([]) == S.NewSession() && MessageBytes([]) == []
  {
    S.NewSessionOk();
  }

  lemma FirstStream()
    ensures !After([]).closed && After([]).nextID == 1 && Unused([])
  {
    NothingYet();
    StartLoop([]);
  }

  lemma TraceNone(p: Endpoint, id: nat)
    requires InOrder(p, id)
    ensures Trace(p, [], id) == []
  {
  }

  lemma TraceFirst(p: Endpoint, acts: seq<Act>, e: S.Event, id: nat)
    requires InOrder(p, id) && acts != [] && AsSession(p, acts[0], id) == Some(e)
    ensures Trace(p, acts, id) == [e] + Trace(Next(p, acts[0], id), acts[1..], id)
  {
  }

  lemma TraceNext(p: Endpoint, acts: seq<Act>, id: nat)
    requires InOrder(p, id) && acts != [] && AsSession(p, acts[0], id).None?
    ensures Trace(p, acts, id) == Trace(Next(p, acts[0], id), acts[1..], id)
  {
    ConcatEmpty(Trace(Next(p, acts[0], id), acts[1..], id));
  }

  lemma OneMessageTrace(p: Endpoint, id: nat, bytes: seq<Byte>)
    requires InOrder(p, id)
    ensures Trace(p, [Session(S.Message(bytes))], id) == [S.Message(bytes)]
  {
    var acts := [Session(S.Message(bytes))];
    TraceFirst(p, acts, S.Message(bytes), id);
    assert acts[1..] == [];
    TraceNone(Next(p, acts[0], id), id);
    ConcatEmpty([S.Message(bytes)]);
  }

  lemma OneMessageBytes(bytes: seq<Byte>)
    ensures MessageBytes([S.Message(bytes)]) == bytes
  {
    assert [S.Message(bytes)][1..] == [];
    ConcatEmpty(bytes);
  }

  // The hypotheses on the receiving end can be met: any bytes may arrive, in one message, right after
  // the first stream of a new session is opened.
  lemma AnyBytesCanArrive(bytes: seq<Byte>)
    ensures !After([]).closed && After([]).nextID == 1 && Unused([])
    ensures BytesIn([], [Session(S.Message(bytes))]) == bytes
  {
    FirstStream();
    StartInOrder([]);
    OneMessageTrace(Start([]), 1, bytes);
    OneMessageBytes(bytes);
    NothingYet();
    ConcatEmpty(bytes);
  }

  // ----- nothing is held back -----

  // The loop and the pending recv are both parked, on an open stream of an open session.
  predicate BothParked(b: Endpoint, id: nat) {
    && !b.session.closed && b.session.buf.waiting.Some?
    && id in b.session.table && b.m.ys.recv.waiting.Some?
  }

  lemma ParkedHasAll(s: S.Session, fs: seq<Frame>)
    requires S.SessionOk(s) && LoopInv(s) && !s.closed && s.buf.waiting.Some?
    requires AllCarried(fs) && s.buf.accepted == Wire(fs)
    ensures DispatchedFrames(s) == fs
  {
    P.ParkedMeansParsed(YamuxFormat, s.buf, s.phase, s.dispatched);
    ParseInvertsWire(fs, []);
    ConcatEmpty(Wire(fs));
    ConcatEmpty(fs);
    assert ParseFrames([]) == [];
  }

  lemma ParkedReturnsAll(m: Messenger, frames: seq<A.AppFrame>)
    requires R.RecvInv(Reader(m)) && m.ys.recv.waiting.Some?
    requires A.AllSendable(frames) && m.ys.recv.accepted == A.EncodeAll(frames)
    ensures m.records == A.ToRecords(frames)
  {
    P.ParkedMeansParsed(AppFormat, m.ys.recv, m.phase, m.records);
    A.SendableRecords(frames);
    A.EncodeAllIsRaw(frames);
    SplitOfWhole(AppFormat, A.ToRecords(frames));
  }

  lemma AllSent(m: Messenger)
    requires TxInv(m) && m.tx.Between?
    ensures StreamWrites.Payloads(m.ys.sent) == A.EncodeAll(DataFrames(m.done))
  {
    ConcatEmpty(StreamWrites.Payloads(m.ys.sent));
    ConcatEmpty(A.EncodeAll(DataFrames(m.done)));
  }

  // When the sender is between calls of send, all its bytes have arrived and the receiver is parked
  // again, recv has returned every payload that was sent.
  lemma EverythingArrives(preA: seq<S.Event>, actsA: seq<Act>, preB: seq<S.Event>, actsB: seq<Act>)
    requires !After(preA).closed && !After(preB).closed && After(preA).nextID == After(preB).nextID
    requires SendsCleanly(preA, actsA) && Unused(preB)
    requires Fits(Reached(preA, actsA).session.log)
    requires A.AllSendable(DataFrames(Reached(preA, actsA).m.done))
    requires Reached(preA, actsA).m.tx.Between? && BothParked(Reached(preB, actsB), After(preB).nextID)
    requires BytesIn(preB, actsB) == Wire(Reached(preA, actsA).session.log)
    ensures var sent, received := Reached(preA, actsA).m.done, BeforeFailure(Reached(preB, actsB).m.results);
            |received| == |sent| && forall i :: 0 <= i < |received| ==> received[i] == R.Payload(sent[i])
  {
    var a, b := Reached(preA, actsA), Reached(preB, actsB);
    SenderSide(preA, actsA);
    ReachedAccepts(preB, actsB);
    ParkedHasAll(b.session, a.session.log);
    ReachedFed(preB, actsB);
    AllSent(a.m);
    ParkedReturnsAll(b.m, DataFrames(a.m.done));
    RecordsAreResults(b.m);
    DataFramesInterpreted(a.m.done, b.m.records);
  }
}
