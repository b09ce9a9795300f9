/** The end of a stream, through a session: `recv` returns every payload and then EOF, for ever. */
module EndToEndEof {
  import opened Bytes
  import opened Records
  import opened YamuxFrames
  import opened Messages
  import opened EndToEnd
  import Streams
  import R = Receiving
  import A = AppFrames
  import S = Sessions
  import opened SessionParsing
  import opened SessionStreams
  import opened SessionEof
  import Buffers

  // As long as the stream was never reset, recv fails for no other reason than EOF; and after a failure
  // with less than a header left over it only fails.
  predicate EndsQuietly(m: Messenger) {
    R.QuietInv(Reader(m)) && (m.ys.resets == 0 ==> R.ReasonsInv(Reader(m), {Buffers.Eof}))
  }

  lemma OtherEndsQuietly(m: Messenger, e: Streams.Event)
    requires MessengerOk(m) && R.RecvInv(Reader(m)) && EndsQuietly(m) && !e.ReadEvent?
    ensures EndsQuietly(m.(ys := Streams.Step(m.ys, e)))
  {
    OtherIsReaderStep(m, e);
    match ReaderEvent(m.ys, e)
    case Some(x) =>
      R.StepQuiet(Reader(m), x);
      if m.ys.resets == 0 && !e.ResetEvent? && !e.RemoteResetEvent? {
        R.StepReasons(Reader(m), x, {Buffers.Eof});
      }
    case None =>
  }

  lemma RecvEndsQuietly(m: Messenger, x: R.Event)
    requires MessengerOk(m) && R.RecvInv(Reader(m)) && EndsQuietly(m) && (x.Call? || x.Resume?)
    ensures EndsQuietly(WithReader(m, R.Step(Reader(m), x)))
  {
    R.StepQuiet(Reader(m), x);
    if m.ys.resets == 0 {
      R.StepReasons(Reader(m), x, {Buffers.Eof});
    }
  }

  lemma AppEndsQuietly(m: Messenger, e: Messages.Event)
    requires MessengerOk(m) && R.RecvInv(Reader(m)) && EndsQuietly(m) && !e.Other?
    ensures EndsQuietly(Messages.Step(m, e))
  {
    match e
    case RecvCall => RecvEndsQuietly(m, R.Call);
    case RecvContinues => RecvEndsQuietly(m, R.Resume);
    case SendCall(payload) => SendKeepsReader(m, payload);
    case SendContinues => SendKeepsReader(m, []);
  }

  lemma {:induction false} HandlersEndQuietly(m: Messenger, own: seq<Streams.Event>)
    requires MessengerOk(m) && R.RecvInv(Reader(m)) && EndsQuietly(m) && Handlers(own)
    ensures EndsQuietly(m.(ys := Streams.Run(m.ys, own)))
    decreases |own|
  {
    if own == [] {
      assert m.(ys := m.ys) == m;
    } else {
      var n := m.(ys := Streams.Step(m.ys, own[0]));
      OtherOk(m, own[0]);
      OtherKeepsReader(m, own[0]);
      OtherEndsQuietly(m, own[0]);
      HandlersEndQuietly(n, own[1..]);
      assert n.(ys := Streams.Run(n.ys, own[1..])) == m.(ys := Streams.Run(m.ys, own));
    }
  }

  lemma StepEndsQuietly(p: Endpoint, act: Act, id: nat)
    requires InOrder(p, id) && EndsQuietly(p.m)
    ensures EndsQuietly(EndToEnd.Step(p, act, id).m)
  {
    match act
    case App(e) =>
      if !e.Other? {
        AppEndsQuietly(p.m, e);
      }
    case Session(e) =>
      if !Bypasses(e, id) {
        StepProjects(p.session, e, id);
        ProjectionHandles(p.session, e, id);
        HandlersEndQuietly(p.m, Projection(p.session, e, id));
      }
  }

  lemma {:induction false} RunEndsQuietly(p: Endpoint, acts: seq<Act>, id: nat)
    requires InOrder(p, id) && EndsQuietly(p.m)
    ensures EndsQuietly(EndToEnd.Run(p, acts, id).m)
    decreases |acts|
  {
    if acts != [] {
      StepEndsQuietly(p, acts[0], id);
      RunEndsQuietly(Next(p, acts[0], id), acts[1..], id);
    }
  }

  // The peer has sent no data and no FIN on the stream before it was opened.
  predicate Untouched(pre: seq<S.Event>) {
    StartLoop(pre);
    var fs, id := DispatchedFrames(After(pre)), After(pre).nextID;
    UntilFin(fs, id) == [] && !FinSeen(fs, id)
  }

  lemma StartEof(pre: seq<S.Event>)
    requires !After(pre).closed && Untouched(pre)
    ensures EofInv(Start(pre).session, After(pre).nextID) && EndsQuietly(Start(pre).m)
  {
    StartLoop(pre);
    assert Start(pre).session.dispatched == After(pre).dispatched;
  }

  lemma ReachedEof(pre: seq<S.Event>, acts: seq<Act>)
    requires !After(pre).closed && Untouched(pre)
    ensures EofInv(Reached(pre, acts).session, After(pre).nextID) && EndsQuietly(Reached(pre, acts).m)
  {
    var id := After(pre).nextID;
    StartInOrder(pre);
    StartEof(pre);
    RunIsSession(Start(pre), acts, id);
    RunEof(Start(pre).session, Trace(Start(pre), acts, id), id);
    RunEndsQuietly(Start(pre), acts, id);
  }

  // The stream has taken in the front of what the peer puts on it before its FIN, and all of that if it
  // is closed.
  lemma TakenBeforeFin(pre: seq<S.Event>, acts: seq<Act>, fs: seq<Frame>)
    requires !After(pre).closed && Untouched(pre) && AllCarried(fs) && BytesIn(pre, acts) <= Wire(fs)
    requires Reached(pre, acts).m.ys.resets == 0
    ensures var recv, all := Reached(pre, acts).m.ys.recv, UntilFin(fs, After(pre).nextID);
            recv.accepted <= all && (recv.closed ==> recv.accepted == all && FinSeen(fs, After(pre).nextID))
  {
    var b := Reached(pre, acts);
    ReachedEof(pre, acts);
    ReachedAccepts(pre, acts);
    PrefixTransitive(b.session.buf.accepted, BytesIn(pre, acts), Wire(fs));
    DispatchedFromWire(b.session, fs);
    UntilFinPrefix(DispatchedFrames(b.session), fs, After(pre).nextID);
  }

  // What the peer puts on the stream is the front of the frames, and all of them if it sends its FIN.
  predicate Ends(fs: seq<Frame>, id: nat, frames: seq<A.AppFrame>) {
    UntilFin(fs, id) <= A.EncodeAll(frames) && (FinSeen(fs, id) ==> UntilFin(fs, id) == A.EncodeAll(frames))
  }

  lemma FailedMeansClosed(m: Messenger)
    requires R.RecvInv(Reader(m)) && |m.results| > |Split(AppFormat, m.ys.recv.accepted)|
    ensures m.ys.recv.closed
  {
  }

  // What a list of results is when the frames come first and then only EOF.
  predicate FramesThenEof(results: seq<R.Received>, frames: seq<A.AppFrame>)
    requires A.AllSendable(frames)
  {
    forall i :: 0 <= i < |results| ==>
      results[i] == if i < |frames| then (A.SendableIsValid(frames[i]); R.Interpret(A.ToRecord(frames[i]))) else R.Failed(Buffers.Eof)
  }

  lemma ResultsOfFrames(m: Messenger, frames: seq<A.AppFrame>)
    requires R.RecvInv(Reader(m)) && EndsQuietly(m) && m.ys.resets == 0 && A.AllSendable(frames)
    requires m.ys.recv.accepted <= A.EncodeAll(frames)
    requires m.ys.recv.closed ==> m.ys.recv.accepted == A.EncodeAll(frames)
    ensures FramesThenEof(m.results, frames)
  {
    var bytes := m.ys.recv.accepted;
    A.SendableRecords(frames);
    A.EncodeAllIsRaw(frames);
    TruncationSafe(AppFormat, A.ToRecords(frames), bytes);
    SplitOfWhole(AppFormat, A.ToRecords(frames));
    R.ResultsShape(Reader(m), {Buffers.Eof});
    if |m.results| > |Split(AppFormat, bytes)| {
      FailedMeansClosed(m);
    }
  }

  // Every frame the peer puts on the stream before its FIN and then EOF on every later call, in every
  // run of the session in which the stream is not reset: whatever happens on other streams, wherever
  // the bytes are cut, and whenever recv is called.
  lemma FramesThenEofForEver(pre: seq<S.Event>, acts: seq<Act>, fs: seq<Frame>, frames: seq<A.AppFrame>)
    requires !After(pre).closed && Untouched(pre)
    requires AllCarried(fs) && BytesIn(pre, acts) <= Wire(fs)
    requires A.AllSendable(frames) && Ends(fs, After(pre).nextID, frames)
    requires Reached(pre, acts).m.ys.resets == 0
    ensures FramesThenEof(Reached(pre, acts).m.results, frames)
  {
    var m := Reached(pre, acts).m;
    ReachedEof(pre, acts);
    TakenBeforeFin(pre, acts, fs);
    PrefixTransitive(m.ys.recv.accepted, UntilFin(fs, After(pre).nextID), A.EncodeAll(frames));
    ResultsOfFrames(m, frames);
  }

  // Once all bytes are in and the loop and the reader have been continued as far as they go, a call of
  // recv has returned the first frame.
  lemma FirstFrameArrives(pre: seq<S.Event>, acts: seq<Act>, fs: seq<Frame>, frames: seq<A.AppFrame>)
    requires !After(pre).closed && Untouched(pre)
    requires AllCarried(fs) && BytesIn(pre, acts) == Wire(fs)
    requires A.AllSendable(frames) && frames != [] && UntilFin(fs, After(pre).nextID) == A.EncodeAll(frames)
    requires Reached(pre, acts).m.ys.resets == 0
    requires !Reached(pre, acts).session.closed && Reached(pre, acts).session.buf.waiting.Some?
    requires R.Called(Reader(Reached(pre, acts).m)) && R.AtRest(Reader(Reached(pre, acts).m))
    ensures Reached(pre, acts).m.results != []
  {
    var b := Reached(pre, acts);
    ReachedEof(pre, acts);
    ReachedAccepts(pre, acts);
    ParkedHasAll(b.session, fs);
    A.SendableRecords(frames);
    A.EncodeAllIsRaw(frames);
    SplitOfWhole(AppFormat, A.ToRecords(frames));
    R.FirstFrameReturned(Reader(b.m));
  }

  // The loop has handed on everything, the FIN included.
  lemma ClosedByFin(pre: seq<S.Event>, acts: seq<Act>, fs: seq<Frame>)
    requires !After(pre).closed && Untouched(pre)
    requires AllCarried(fs) && BytesIn(pre, acts) == Wire(fs) && FinSeen(fs, After(pre).nextID)
    requires Reached(pre, acts).m.ys.resets == 0
    requires !Reached(pre, acts).session.closed && Reached(pre, acts).session.buf.waiting.Some?
    ensures Reached(pre, acts).m.ys.recv.closed
  {
    ReachedEof(pre, acts);
    ReachedAccepts(pre, acts);
    ParkedHasAll(Reached(pre, acts).session, fs);
  }

  // Once all bytes are in, the peer's FIN among them, and loop and reader have been continued as far as
  // they go: every call of recv ever made has returned, the first ones with the frames in order and the
  // others with EOF.
  lemma EveryCallReturns(pre: seq<S.Event>, acts: seq<Act>, fs: seq<Frame>, frames: seq<A.AppFrame>)
    requires !After(pre).closed && Untouched(pre)
    requires AllCarried(fs) && BytesIn(pre, acts) == Wire(fs) && FinSeen(fs, After(pre).nextID)
    requires A.AllSendable(frames) && UntilFin(fs, After(pre).nextID) == A.EncodeAll(frames)
    requires Reached(pre, acts).m.ys.resets == 0
    requires !Reached(pre, acts).session.closed && Reached(pre, acts).session.buf.waiting.Some?
    requires R.AtRest(Reader(Reached(pre, acts).m))
    ensures Reached(pre, acts).m.phase.Idle? && FramesThenEof(Reached(pre, acts).m.results, frames)
  {
    ClosedByFin(pre, acts, fs);
    R.ClosedNeverHangs(Reader(Reached(pre, acts).m));
    FramesThenEofForEver(pre, acts, fs, frames);
  }
}
