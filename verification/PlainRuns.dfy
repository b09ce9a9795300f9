/** An endpoint among frames of its own stream that end nothing: what it sends while it takes them in, and
    what its writes and sends do. */
module PlainRuns {
  import opened Bytes
  import opened Records
  import opened YamuxFrames
  import opened Messages
  import opened EndToEnd
  import Streams
  import W = StreamWrites
  import C = StreamCredit
  import P = Pulls
  import S = Sessions
  import T = SessionTables
  import opened SessionParsing
  import opened SessionStreams
  import opened SessionLogs
  import opened Arrivals

  // ----- frames of one stream that end nothing -----

  predicate PlainFrame(f: Frame, id: nat) {
    && S.ForStream(f) && f.id == id && f.flags <= FLAG_SYN
    && f.length <= if f.typ == TYPE_DATA then 2 * INITIAL_WINDOW else 3 * INITIAL_WINDOW
  }

  predicate Plain(fs: seq<Frame>, id: nat) {
    forall i :: 0 <= i < |fs| ==> PlainFrame(fs[i], id)
  }

  lemma PlainIsGentle(fs: seq<Frame>, id: nat)
    requires Plain(fs, id) && LogShaped(fs) && id < TWO_TO_THE_32
    ensures Fits(fs) && AllCarried(fs) && Gentle(fs, id) && Arrivals.NoFins(fs, id)
  {
  }

  // A step of a session adds nothing to the log, or a window update that grants something.
  predicate GrantsMore(log: seq<Frame>, more: seq<Frame>, id: nat) {
    more == log
    || (|more| == |log| + 1 && more[..|log|] == log && PlainFrame(more[|log|], id)
        && more[|log|].typ == TYPE_WINDOW_UPDATE && more[|log|].length > 0 && more[|log|].payload == [])
  }

  lemma DataGrants(t: Streams.Stream, data: seq<Byte>)
    requires C.CreditInv(t) && |data| <= 2 * INITIAL_WINDOW
    ensures GrantsMore([], Streams.NewFrames(t, Streams.OnData(t, data)), t.id)
  {
  }

  // What a plain frame does to the stream it names.
  lemma PlainIs(t: Streams.Stream, f: Frame)
    requires WellShaped(f) && PlainFrame(f, t.id)
    ensures S.AfterFrame(t, f) ==
            if f.typ == TYPE_WINDOW_UPDATE then Streams.OnWindowUpdate(t, f.length)
            else if f.payload == [] then t
            else Streams.OnData(t, f.payload)
  {
  }

  // What it leaves: an open stream, with its books kept.
  predicate FrameKept(t: Streams.Stream, u: Streams.Stream) {
    u.state.Open? && C.CreditInv(u) && GrantsMore([], Streams.NewFrames(t, u), t.id)
  }

  lemma DataKept(t: Streams.Stream, data: seq<Byte>)
    requires C.CreditInv(t) && t.state.Open? && |data| <= 2 * INITIAL_WINDOW
    ensures FrameKept(t, Streams.OnData(t, data))
  {
    DataGrants(t, data);
    C.DataKeepsCredit(t, data);
  }

  lemma UpdateKept(t: Streams.Stream, delta: nat)
    requires C.CreditInv(t) && t.state.Open?
    ensures FrameKept(t, Streams.OnWindowUpdate(t, delta))
  {
    C.OtherKeepsCredit(t, Streams.WindowUpdateEvent(delta));
  }

  lemma AfterPlainFrame(t: Streams.Stream, f: Frame)
    requires C.CreditInv(t) && t.state.Open? && WellShaped(f) && PlainFrame(f, t.id)
    ensures FrameKept(t, S.AfterFrame(t, f))
  {
    PlainIs(t, f);
    if f.typ == TYPE_WINDOW_UPDATE {
      UpdateKept(t, f.length);
    } else if f.payload != [] {
      DataKept(t, f.payload);
    }
  }

  // ----- taking in plain frames -----

  // An endpoint whose stream is open, that has sent plain frames only and is taking in `fs`.
  predicate Hears(p: Endpoint, id: nat, fs: seq<Frame>) {
    && LoopInv(p.session) && Calm(p.session, id) && p.session.buf.accepted <= Wire(fs)
    && AllCarried(fs) && Plain(fs, id)
    && C.CreditInv(p.m.ys) && p.m.ys.state.Open?
  }

  // The stream after a step, and the log.
  predicate Kept(s: S.Session, t: S.Session, id: nat) {
    && id in t.created && t.created[id].state.Open? && C.CreditInv(t.created[id]) && GrantsMore(s.log, t.log, id)
  }

  lemma DispatchKept(s: S.Session, f: Frame, id: nat)
    requires S.StreamsOk(s) && T.IdsInv(s) && id in s.table && WellShaped(f) && PlainFrame(f, id)
    requires s.created[id].state.Open? && C.CreditInv(s.created[id])
    ensures Kept(s, S.Dispatch(s, f), id)
  {
    var u := S.AfterFrame(s.created[id], f);
    AfterPlainFrame(s.created[id], f);
    ConcatEmpty(s.log);
    GrantsAfter(s.log, Streams.NewFrames(s.created[id], u), id);
  }

  lemma GrantsAfter(log: seq<Frame>, fs: seq<Frame>, id: nat)
    requires GrantsMore([], fs, id)
    ensures GrantsMore(log, log + fs, id)
  {
    ConcatEmpty(log);
  }

  lemma HandleKept(s: S.Session, r: Record, id: nat)
    requires S.StreamsOk(s) && T.IdsInv(s) && id in s.table && Valid(YamuxFormat, r)
    requires WellShaped(FromRecord(r)) && PlainFrame(FromRecord(r), id)
    requires s.created[id].state.Open? && C.CreditInv(s.created[id])
    ensures Kept(s, S.HandleRecord(s, r), id)
  {
    DispatchKept(s, FromRecord(r), id);
    SameKept(s, S.Dispatch(s, FromRecord(r)), S.HandleRecord(s, r), id);
  }

  lemma SameKept(s: S.Session, t: S.Session, u: S.Session, id: nat)
    requires Kept(s, t, id) && u.created == t.created && u.log == t.log
    ensures Kept(s, u, id)
  {
  }

  // The record in hand is on the wire.
  lemma InHandPlain(s: S.Session, r: Record, id: nat, fs: seq<Frame>)
    requires S.SessionOk(s) && LoopInv(s) && P.Ready(s.buf, s.phase) && Valid(YamuxFormat, r)
    requires S.ResumeLoop(s) == S.HandleRecord(s, r)
    requires AllCarried(fs) && Plain(fs, id) && s.buf.accepted <= Wire(fs)
    ensures WellShaped(FromRecord(r)) && PlainFrame(FromRecord(r), id)
  {
    ResumeLoopKeeps(s);
    DispatchedGrows(s, r);
    DispatchedFromWire(S.ResumeLoop(s), fs);
    FromRecordsAppend(s.dispatched, r);
    var n := |s.dispatched|;
    assert DispatchedFrames(S.ResumeLoop(s))[n] == FromRecord(r);
    assert fs[n] == FromRecord(r);
  }

  lemma LoopKept(s: S.Session, id: nat, fs: seq<Frame>)
    requires S.SessionOk(s) && T.IdsInv(s) && LoopInv(s) && Calm(s, id) && P.Ready(s.buf, s.phase)
    requires AllCarried(fs) && Plain(fs, id) && s.buf.accepted <= Wire(fs)
    requires s.created[id].state.Open? && C.CreditInv(s.created[id])
    ensures Kept(s, S.ResumeLoop(s), id)
  {
    P.OwnsContinue(YamuxFormat, s.buf, s.phase);
    match P.Continue(YamuxFormat, s.buf, s.phase)
    case Got(r) =>
      InHandPlain(s, r, id, fs);
      HandleKept(s, r, id);
    case _ =>
  }

  lemma RecvKept(t: Streams.Stream, u: Streams.Stream)
    requires u == t.(recv := u.recv)
    ensures Streams.NewFrames(t, u) == [] && u.state == t.state && (C.CreditInv(t) ==> C.CreditInv(u))
  {
  }

  lemma GentlePlain(fs: seq<Frame>, id: nat)
    requires Plain(fs, id)
    ensures Gentle(fs, id) && Arrivals.NoFins(fs, id)
  {
  }

  lemma StillHears(p: Endpoint, q: Endpoint, id: nat, fs: seq<Frame>)
    requires Hears(p, id, fs) && Calm(q.session, id) && LoopInv(q.session)
    requires q.session.buf.accepted == p.session.buf.accepted
    requires Kept(p.session, q.session, id) && q.session.created[id] == q.m.ys
    ensures Hears(q, id, fs)
  {
  }

  lemma LoopActHears(p: Endpoint, id: nat, fs: seq<Frame>)
    requires InOrder(p, id) && Hears(p, id, fs) && P.Ready(p.session.buf, p.session.phase)
    ensures var q := Next(p, Session(S.LoopResumes), id);
            && Hears(q, id, fs) && GrantsMore(p.session.log, q.session.log, id)
            && q.session.buf.accepted == p.session.buf.accepted
  {
    var q := Next(p, Session(S.LoopResumes), id);
    NextSession(p, S.LoopResumes, id);
    GentlePlain(fs, id);
    LoopStepIs(p.session);
    LoopCalm(p.session, id, fs);
    LoopKept(p.session, id, fs);
    StillHears(p, q, id, fs);
  }

  lemma MessageActHears(p: Endpoint, data: seq<Byte>, id: nat, fs: seq<Frame>)
    requires InOrder(p, id) && Hears(p, id, fs) && p.session.buf.accepted + data <= Wire(fs)
    ensures var q := Next(p, Session(S.Message(data)), id);
            && Hears(q, id, fs) && GrantsMore(p.session.log, q.session.log, id)
            && q.session.buf.accepted == p.session.buf.accepted + data
  {
    NextSession(p, S.Message(data), id);
    MessageCalm(p.session, data, id);
  }

  lemma RecvActHears(p: Endpoint, e: Messages.Event, id: nat, fs: seq<Frame>)
    requires InOrder(p, id) && Hears(p, id, fs) && IsRecv(e)
    ensures var q := Next(p, App(e), id);
            && Hears(q, id, fs) && GrantsMore(p.session.log, q.session.log, id)
            && q.session.buf.accepted == p.session.buf.accepted
  {
    RecvOnly(p.m, e);
    AppAct(p, e, id);
    RecvKept(p.m.ys, Messages.Step(p.m, e).ys);
    ConcatEmpty(p.session.log);
  }

  function BytesOf(act: Act): seq<Byte> {
    if act.Session? && act.e.Message? then act.e.data else []
  }

  lemma TraceBytes(p: Endpoint, acts: seq<Act>, id: nat)
    requires InOrder(p, id) && acts != []
    ensures MessageBytes(Trace(p, acts, id)) == BytesOf(acts[0]) + MessageBytes(Trace(Next(p, acts[0], id), acts[1..], id))
  {
    var rest := Trace(Next(p, acts[0], id), acts[1..], id);
    BytesOfIs(p, acts[0], id);
    ConcatEmpty(MessageBytes(rest));
    match AsSession(p, acts[0], id)
    case Some(e) =>
      TraceFirst(p, acts, e, id);
      EventBytes(e, rest);
    case None => TraceNext(p, acts, id);
  }

  lemma BytesOfIs(p: Endpoint, act: Act, id: nat)
    requires InOrder(p, id)
    ensures BytesOf(act) == match AsSession(p, act, id) case Some(e) => (if e.Message? then e.data else []) case None => []
  {
  }

  lemma EventBytes(e: S.Event, rest: seq<S.Event>)
    ensures MessageBytes([e] + rest) == (if e.Message? then e.data else []) + MessageBytes(rest)
  {
    ConcatFirst([e], rest);
    ConcatEmpty(rest);
  }

  // The log after a step.
  lemma LogStaysPlain(log: seq<Frame>, more: seq<Frame>, id: nat)
    requires GrantsMore(log, more, id)
    ensures log <= more && (Plain(log, id) ==> Plain(more, id))
  {
  }

  // ----- the sender's engine -----

  // A sender whose frames end nothing.
  predicate Engine(p: Endpoint, id: nat) {
    && LoopInv(p.session) && Calm(p.session, id) && Plain(p.session.log, id)
    && W.SendInv(p.m.ys) && C.CreditInv(p.m.ys) && p.m.ys.sendWindow <= 2 * INITIAL_WINDOW
    && p.m.ys.state.Open? && !p.m.tx.Broken?
  }

  // What a write or its continuation does to the stream.
  predicate Writes(t: Streams.Stream, u: Streams.Stream) {
    && Plain(Streams.NewFrames(t, u), t.id)
    && u.sendWindow <= t.sendWindow && u.state == t.state && u.recv == t.recv && u.resets == t.resets
    && |u.woken| <= |t.woken|
  }

  lemma AdvanceWrites(t: Streams.Stream, w: Streams.Writer)
    requires 0 <= t.sendWindow <= 2 * INITIAL_WINDOW
    ensures Writes(t, Streams.Advance(t, w)) && Streams.Advance(t, w).woken == t.woken
  {
  }

  lemma WriteWrites(t: Streams.Stream, data: seq<Byte>)
    requires 0 <= t.sendWindow <= 2 * INITIAL_WINDOW
    ensures Writes(t, Streams.Write(t, data))
  {
    if !Streams.WriteClosed(t) {
      AdvanceWrites(t.(writes := t.writes + [data]), Streams.Writer(|t.writes|, data, 0));
    }
  }

  lemma ResumeWrites(t: Streams.Stream)
    requires 0 <= t.sendWindow <= 2 * INITIAL_WINDOW && t.woken != []
    ensures Writes(t, Streams.Resume(t, 0)) && |Streams.Resume(t, 0).woken| < |t.woken|
  {
    AdvanceWrites(t.(woken := t.woken[..0] + t.woken[1..]), t.woken[0]);
  }

  // A whole call of write, with the books it keeps.
  predicate WritesKept(t: Streams.Stream, u: Streams.Stream) {
    Writes(t, u) && W.SendInv(u) && C.CreditInv(u)
  }

  lemma WriteKept(t: Streams.Stream, data: seq<Byte>)
    requires W.SendInv(t) && C.CreditInv(t) && t.sendWindow <= 2 * INITIAL_WINDOW
    ensures WritesKept(t, Streams.Write(t, data))
  {
    WriteWrites(t, data);
    W.WriteKeeps(t, data);
    C.OtherKeepsCredit(t, Streams.WriteEvent(data));
  }

  lemma NothingWritten(t: Streams.Stream)
    requires W.SendInv(t) && C.CreditInv(t)
    ensures WritesKept(t, t)
  {
  }

  // A step of the engine, for the endpoint.
  predicate Continued(p: Endpoint, q: Endpoint, id: nat) {
    Steady(p.session, q.session, id) && p.session.log <= q.session.log && Attempted(q.m) == Attempted(p.m)
  }

  lemma PlainAppend(log: seq<Frame>, fs: seq<Frame>, id: nat)
    requires Plain(log, id) && Plain(fs, id)
    ensures Plain(log + fs, id)
  {
  }

  lemma PutEngine(p: Endpoint, u: Streams.Stream, n: Messenger, id: nat)
    requires Engine(p, id) && id in p.session.created && p.session.created[id] == p.m.ys && p.m.ys.id == id
    requires WritesKept(p.m.ys, u) && n.ys == u && !n.tx.Broken?
    ensures Engine(Endpoint(S.Put(p.session, id, u), n), id)
    ensures Steady(p.session, S.Put(p.session, id, u), id) && p.session.log <= S.Put(p.session, id, u).log
  {
    PlainAppend(p.session.log, Streams.NewFrames(p.m.ys, u), id);
  }

  lemma CallIsPut(s: S.Session, id: nat, call: Streams.Event)
    requires S.SessionOk(s) && id in s.created && S.IsCall(call)
    ensures S.Step(s, S.StreamCall(id, call)) == S.Put(s, id, Streams.Step(s.created[id], call))
  {
  }

  lemma NextCall(p: Endpoint, call: Streams.Event, id: nat)
    requires InOrder(p, id) && S.IsCall(call) && !call.WriteEvent? && !call.ReadEvent?
    ensures var q, u := Next(p, Session(S.StreamCall(id, call)), id), Streams.Step(p.m.ys, call);
            q.session == S.Put(p.session, id, u) && q.m == p.m.(ys := u)
  {
    NextSession(p, S.StreamCall(id, call), id);
    CallIsPut(p.session, id, call);
  }

  lemma ResumeContinues(p: Endpoint, id: nat)
    requires InOrder(p, id) && Engine(p, id) && p.m.ys.woken != []
    ensures var q := Next(p, Session(S.StreamCall(id, Streams.ResumeEvent(0))), id);
            && Engine(q, id) && Continued(p, q, id)
            && q.m.tx == p.m.tx && |q.m.ys.woken| < |p.m.ys.woken|
  {
    var u := Streams.Resume(p.m.ys, 0);
    NextCall(p, Streams.ResumeEvent(0), id);
    ResumeWrites(p.m.ys);
    W.StepKeeps(p.m.ys, Streams.ResumeEvent(0));
    C.StepKeepsCredit(p.m.ys, Streams.ResumeEvent(0));
    PutEngine(p, u, p.m.(ys := u), id);
  }

  function Stage(tx: Sender): nat {
    if tx.HeaderOut? then 2 else if tx.PayloadOut? then 1 else 0
  }

  // What a continuation of send comes to.
  lemma ContinueIs(m: Messenger)
    requires Outstanding(m.tx) && WriteReturned(m.ys) && m.ys.state.Open?
    ensures var n := ContinueSend(m);
            && n.ys == (if m.tx.HeaderOut? && m.tx.payload != [] then Streams.Write(m.ys, m.tx.payload) else m.ys)
            && Stage(n.tx) < Stage(m.tx) && !n.tx.Broken? && Attempted(n) == Attempted(m)
  {
  }

  lemma ContinueWrites(m: Messenger)
    requires W.SendInv(m.ys) && C.CreditInv(m.ys) && m.ys.sendWindow <= 2 * INITIAL_WINDOW && m.ys.state.Open?
    requires Outstanding(m.tx) && WriteReturned(m.ys)
    ensures var n := ContinueSend(m);
            WritesKept(m.ys, n.ys) && Stage(n.tx) < Stage(m.tx) && !n.tx.Broken? && Attempted(n) == Attempted(m)
  {
    ContinueIs(m);
    if m.tx.HeaderOut? && m.tx.payload != [] {
      WriteKept(m.ys, m.tx.payload);
    } else {
      NothingWritten(m.ys);
    }
  }

  lemma SendContinuesEngine(p: Endpoint, id: nat)
    requires InOrder(p, id) && Engine(p, id) && Outstanding(p.m.tx) && WriteReturned(p.m.ys)
    ensures var q := Next(p, App(SendContinues), id);
            Engine(q, id) && Continued(p, q, id) && Stage(q.m.tx) < Stage(p.m.tx)
  {
    AppAct(p, SendContinues, id);
    ContinueWrites(p.m);
    PutEngine(p, ContinueSend(p.m).ys, ContinueSend(p.m), id);
  }
}
