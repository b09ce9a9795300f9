/** What an end of two joined sessions still has to do, as a number that every step of its own lowers: each
    thing it does pays for what it makes the other end do. */
module Weights {
  import opened Bytes
  import opened Records
  import opened YamuxFrames
  import opened Messages
  import opened MessageSends
  import opened EndToEnd
  import Streams
  import W = StreamWrites
  import A = AppFrames
  import P = Pulls
  import S = Sessions
  import T = SessionTables
  import FP = FlowProgress
  import FC = FlowControl
  import opened SessionParsing
  import opened SessionStreams
  import opened SessionLogs
  import opened SessionCredits
  import opened Arrivals
  import opened PlainRuns
  import opened BothWays

  // All bytes that the calls of send so far put on the stream.
  function Demanded(m: Messenger): nat {
    |A.EncodeAll(DataFrames(Attempted(m)))|
  }

  // What the frames sent amount to: five for each byte the other end has to take in, and sixty off for
  // each byte of credit, which is what a window update takes.
  function LogWeight(log: seq<Frame>): int {
    5 * |Wire(log)| - 60 * CreditOf(log, 1)
  }

  // What the stream has before it: bytes to send, a payload or a promise for each reader, and bytes it has
  // not been sent yet.
  function StreamWeight(m: Messenger): int {
    Stage(m.tx) + |m.ys.woken| + RecvBacklog(m) - 65 * |W.Payloads(m.ys.sent)| - 2 * m.ys.received
  }

  function Weight(p: Endpoint, taken: int): int {
    65 * Demanded(p.m) + StreamWeight(p.m) + LogWeight(p.session.log) + 2 * FP.Backlog(p.session) - 5 * taken
  }

  // ----- frames and the log -----

  lemma RawLength(f: Frame)
    ensures |Raw(ToRecord(f))| == YAMUX_HEADER_SIZE + |f.payload|
  {
  }

  lemma LogAppend(log: seq<Frame>, f: Frame)
    requires WellShaped(f)
    ensures LogWeight(log + [f]) ==
            LogWeight(log) + 60 + 5 * |f.payload| - (if Belongs(f, 1) then 60 * Brought(f) else 0)
  {
    FC.WireAppend(log, f);
    RawLength(f);
    CreditConcat(log, [f], 1);
    CreditOfOne(f, 1);
  }

  lemma LogSame(log: seq<Frame>)
    ensures LogWeight(log + []) == LogWeight(log)
  {
    ConcatEmpty(log);
  }

  // ----- sending -----

  // A write or its continuation sends nothing, or one frame with some bytes.
  predicate Sends(t: Streams.Stream, u: Streams.Stream) {
    var fs := Streams.NewFrames(t, u);
    || (fs == [] && W.Payloads(u.sent) == W.Payloads(t.sent))
    || (|fs| == 1 && fs[0].typ == TYPE_DATA && WellShaped(fs[0]) && fs[0].payload != []
        && W.Payloads(u.sent) == W.Payloads(t.sent) + fs[0].payload)
  }

  lemma SendingSends(t: Streams.Stream, w: Streams.Writer, chunk: nat)
    requires w.offset + chunk <= |w.data| && chunk > 0
    ensures Sends(t, Streams.Sending(t, w, chunk))
  {
    var u := Streams.Sending(t, w, chunk);
    W.PayloadsAppend(t.sent, u.sent[|t.sent|]);
    assert u.sent[|t.sent|..] == [u.sent[|t.sent|]];
  }

  lemma AdvanceSends(t: Streams.Stream, w: Streams.Writer)
    ensures Sends(t, Streams.Advance(t, w))
  {
    if w.offset < |w.data| && t.sendWindow > 0 {
      SendingSends(t, w, Min(|w.data| - w.offset, t.sendWindow));
    }
  }

  lemma WriteSends(t: Streams.Stream, data: seq<Byte>)
    ensures Sends(t, Streams.Write(t, data))
  {
    if !Streams.WriteClosed(t) {
      AdvanceSends(t.(writes := t.writes + [data]), Streams.Writer(|t.writes|, data, 0));
    }
  }

  lemma ResumeSendsSome(t: Streams.Stream)
    requires t.woken != []
    ensures Sends(t, Streams.Resume(t, 0))
  {
    AdvanceSends(t.(woken := t.woken[..0] + t.woken[1..]), t.woken[0]);
  }

  // What is sent pays for its frame.
  lemma SendsPays(log: seq<Frame>, t: Streams.Stream, u: Streams.Stream)
    requires Sends(t, u)
    ensures LogWeight(log + Streams.NewFrames(t, u)) - 65 * |W.Payloads(u.sent)|
            <= LogWeight(log) - 65 * |W.Payloads(t.sent)|
  {
    var fs := Streams.NewFrames(t, u);
    if fs == [] {
      LogSame(log);
    } else {
      assert fs == [fs[0]];
      LogAppend(log, fs[0]);
    }
  }

  // ----- taking in -----

  // A push adds at most its bytes to what the reader has before it: a read it settles takes at least one.
  lemma PushRecv(m: Messenger, data: seq<Byte>)
    requires MessengerOk(m)
    ensures var n := m.(ys := Streams.OnData(m.ys, data)); RecvBacklog(n) <= RecvBacklog(m) + 2 * |data|
  {
  }

  lemma DataStreamWeight(m: Messenger, data: seq<Byte>)
    requires MessengerOk(m)
    ensures StreamWeight(m.(ys := Streams.OnData(m.ys, data))) <= StreamWeight(m)
  {
    PushRecv(m, data);
    DataPayloads(m.ys, data);
  }

  lemma UpdateStreamWeight(m: Messenger, delta: nat)
    requires |m.ys.waiters| + |m.ys.woken| <= 1
    ensures StreamWeight(m.(ys := Streams.OnWindowUpdate(m.ys, delta))) <= StreamWeight(m) + 1
  {
    UpdateKeepsPending(m.ys, delta);
  }

  // A payload is taken off what is still to be received, and a window update wakes at most one writer.
  lemma FrameStreamWeight(m: Messenger, f: Frame)
    requires MessengerOk(m) && Serial(m.ys) && WellShaped(f) && PlainFrame(f, m.ys.id)
    ensures StreamWeight(m.(ys := S.AfterFrame(m.ys, f))) <= StreamWeight(m) + 1
  {
    PlainIs(m.ys, f);
    if f.typ == TYPE_WINDOW_UPDATE {
      UpdateStreamWeight(m, f.length);
    } else if f.payload != [] {
      DataStreamWeight(m, f.payload);
    }
  }

  lemma DataPayloads(t: Streams.Stream, data: seq<Byte>)
    ensures W.Payloads(Streams.OnData(t, data).sent) == W.Payloads(t.sent)
  {
    var u := Streams.OnData(t, data);
    if |u.sent| > |t.sent| {
      W.PayloadsAppend(t.sent, u.sent[|t.sent|]);
      ConcatEmpty(W.Payloads(t.sent));
    }
  }

  // A grant pays for its frame.
  lemma GrantPays(log: seq<Frame>, more: seq<Frame>)
    requires GrantsMore(log, more, 1)
    ensures LogWeight(more) <= LogWeight(log)
  {
    if more != log {
      var f := more[|log|];
      assert more == log + [f];
      FC.WireAppend(log, f);
      CreditConcat(log, [f], 1);
      CreditOfOne(f, 1);
    }
  }

  // ----- the steps of an end -----

  // An end of two joined sessions that has sent plain frames and is taking in `fs`.
  predicate Running(p: Endpoint, fs: seq<Frame>) {
    && InOrder(p, 1) && Hears(p, 1, fs) && Engine(p, 1) && TxInv(p.m) && !p.m.ys.recv.closed
  }

  lemma NextStream(p: Endpoint, e: S.Event)
    requires InOrder(p, 1) && !Bypasses(e, 1)
    ensures var q := Next(p, Session(e), 1);
            q.session == S.Step(p.session, e) && 1 in q.session.created && q.m == p.m.(ys := q.session.created[1])
  {
  }

  // A message takes its bytes off what is still to come.
  lemma MessageWeighs(p: Endpoint, data: seq<Byte>, taken: int)
    requires InOrder(p, 1) && LoopInv(p.session) && Calm(p.session, 1) && data != []
    ensures var q := Next(p, Session(S.Message(data)), 1);
            q.m == p.m && Weight(q, taken + |data|) < Weight(p, taken)
  {
    NextStream(p, S.Message(data));
    MessageCalm(p.session, data, 1);
    FP.PushBacklog(p.session, data);
  }

  // The frame a continuation of the loop handles, if any.
  lemma LoopHandles(s: S.Session, fs: seq<Frame>) returns (f: Option<Frame>)
    requires S.SessionOk(s) && T.IdsInv(s) && LoopInv(s) && Calm(s, 1) && P.Ready(s.buf, s.phase)
    requires AllCarried(fs) && Plain(fs, 1) && s.buf.accepted <= Wire(fs)
    ensures 1 in S.ResumeLoop(s).created
    ensures match f
            case None => S.ResumeLoop(s).created[1] == s.created[1] && S.ResumeLoop(s).log == s.log
            case Some(g) => WellShaped(g) && PlainFrame(g, 1) && S.ResumeLoop(s).created[1] == S.AfterFrame(s.created[1], g)
  {
    P.OwnsContinue(YamuxFormat, s.buf, s.phase);
    match P.Continue(YamuxFormat, s.buf, s.phase)
    case Got(r) =>
      InHandPlain(s, r, 1, fs);
      f := Some(FromRecord(r));
    case _ => f := None;
  }

  lemma LoopStreamWeight(p: Endpoint, fs: seq<Frame>)
    requires Running(p, fs) && P.Ready(p.session.buf, p.session.phase)
    ensures var t := S.ResumeLoop(p.session);
            1 in t.created && StreamWeight(p.m.(ys := t.created[1])) <= StreamWeight(p.m) + 1
  {
    var f := LoopHandles(p.session, fs);
    match f
    case None => SameStream(p.m);
    case Some(g) => FrameStreamWeight(p.m, g);
  }

  lemma SameStream(m: Messenger)
    ensures m.(ys := m.ys) == m
  {
  }

  lemma LoopWeighs(p: Endpoint, taken: int, fs: seq<Frame>)
    requires Running(p, fs) && P.Ready(p.session.buf, p.session.phase)
    ensures Weight(Next(p, Session(S.LoopResumes), 1), taken) < Weight(p, taken)
  {
    NextStream(p, S.LoopResumes);
    LoopStepIs(p.session);
    LoopStreamWeight(p, fs);
    LoopKept(p.session, 1, fs);
    GrantPays(p.session.log, S.ResumeLoop(p.session).log);
  }

  // What the WSStream or a writer sends.
  lemma PutWeighs(p: Endpoint, u: Streams.Stream, n: Messenger, taken: int)
    requires 1 in p.session.created && p.session.created[1] == p.m.ys
    requires n.ys == u && Sends(p.m.ys, u) && Attempted(n) == Attempted(p.m)
    requires u.recv == p.m.ys.recv && u.received == p.m.ys.received && n.phase == p.m.phase
    requires Stage(n.tx) + |u.woken| < Stage(p.m.tx) + |p.m.ys.woken|
    ensures Weight(Endpoint(S.Put(p.session, 1, u), n), taken) < Weight(p, taken)
  {
    SendsPays(p.session.log, p.m.ys, u);
  }

  lemma WritesOnly(t: Streams.Stream, w: Streams.Writer)
    ensures var u := Streams.Advance(t, w); u.recv == t.recv && u.received == t.received && u.woken == t.woken
  {
  }

  lemma ResumeWeighs(p: Endpoint, taken: int)
    requires InOrder(p, 1) && p.m.ys.woken != []
    ensures Weight(Next(p, Session(S.StreamCall(1, Streams.ResumeEvent(0))), 1), taken) < Weight(p, taken)
  {
    var t := p.m.ys;
    var u := Streams.Resume(t, 0);
    NextCall(p, Streams.ResumeEvent(0), 1);
    ResumeSendsSome(t);
    WritesOnly(t.(woken := t.woken[..0] + t.woken[1..]), t.woken[0]);
    PutWeighs(p, u, p.m.(ys := u), taken);
  }

  lemma WriteOnly(t: Streams.Stream, data: seq<Byte>)
    ensures var u := Streams.Write(t, data); u.recv == t.recv && u.received == t.received && u.woken == t.woken
  {
  }

  lemma NothingSent(t: Streams.Stream)
    ensures Sends(t, t)
  {
  }

  lemma ContinueWeighs(p: Endpoint, taken: int)
    requires InOrder(p, 1) && Outstanding(p.m.tx) && WriteReturned(p.m.ys) && p.m.ys.state.Open?
    ensures Weight(Next(p, App(SendContinues), 1), taken) < Weight(p, taken)
  {
    var m, n := p.m, ContinueSend(p.m);
    AppAct(p, SendContinues, 1);
    ContinueIs(m);
    if m.tx.HeaderOut? && m.tx.payload != [] {
      WriteSends(m.ys, m.tx.payload);
      WriteOnly(m.ys, m.tx.payload);
    } else {
      NothingSent(m.ys);
    }
    SendKeepsReader(m, []);
    PutWeighs(p, n.ys, n, taken);
  }

  lemma RecvStreamWeight(m: Messenger)
    requires MessengerOk(m) && !m.ys.recv.closed && Rank(m) != 0
    ensures var n := Messages.Step(m, RecvAct(m).call); StreamWeight(n) < StreamWeight(m) && Attempted(n) == Attempted(m)
  {
    RecvShrinks(m);
    RecvOnly(m, RecvAct(m).call);
  }

  // A step that sends nothing and leaves the session's own bytes alone.
  lemma StreamOnly(p: Endpoint, u: Streams.Stream, n: Messenger, taken: int)
    requires Streams.NewFrames(p.m.ys, u) == [] && 1 in p.session.created && p.session.created[1] == p.m.ys
    requires StreamWeight(n) < StreamWeight(p.m) && Attempted(n) == Attempted(p.m)
    ensures Weight(Endpoint(S.Put(p.session, 1, u), n), taken) < Weight(p, taken)
  {
    LogSame(p.session.log);
  }

  lemma RecvWeighs(p: Endpoint, taken: int)
    requires InOrder(p, 1) && !p.m.ys.recv.closed && Rank(p.m) != 0
    ensures Weight(Next(p, RecvAct(p.m), 1), taken) < Weight(p, taken)
  {
    var e := RecvAct(p.m).call;
    var n := Messages.Step(p.m, e);
    RecvStreamWeight(p.m);
    RecvOnly(p.m, e);
    AppAct(p, e, 1);
    RecvKept(p.m.ys, n.ys);
    StreamOnly(p, n.ys, n, taken);
  }

  // ----- all of a step -----

  // An undisturbed end, with its stream open and no send broken.
  predicate Fine(q: Endpoint) {
    && Calm(q.session, 1) && LoopInv(q.session) && Plain(q.session.log, 1)
    && q.m.ys.state.Open? && !q.m.ys.recv.closed && !q.m.tx.Broken?
  }

  // From p to q by a step that takes in n bytes.
  predicate Stepped(p: Endpoint, q: Endpoint, n: nat) {
    && Fine(q) && p.session.log <= q.session.log && Attempted(q.m) == Attempted(p.m)
    && Weight(q, n) < Weight(p, 0)
  }

  lemma HeardStep(p: Endpoint, q: Endpoint, n: nat, fs: seq<Frame>)
    requires Running(p, fs) && Hears(q, 1, fs) && GrantsMore(p.session.log, q.session.log, 1)
    requires q.m.tx == p.m.tx && q.m.done == p.m.done && !q.m.ys.recv.closed && Weight(q, n) < Weight(p, 0)
    ensures Stepped(p, q, n)
  {
    LogStaysPlain(p.session.log, q.session.log, 1);
  }

  lemma EngineStep(p: Endpoint, q: Endpoint)
    requires Engine(q, 1) && Continued(p, q, 1) && p.session.created[1] == p.m.ys && q.session.created[1] == q.m.ys
    requires !p.m.ys.recv.closed && Weight(q, 0) < Weight(p, 0)
    ensures Stepped(p, q, 0)
  {
  }

  lemma TakenOff(p: Endpoint, n: int, taken: int)
    ensures Weight(p, taken + n) == Weight(p, n) - 5 * taken
  {
  }

  lemma LoopStaysOpen(p: Endpoint, fs: seq<Frame>)
    requires Running(p, fs) && P.Ready(p.session.buf, p.session.phase)
    ensures var q := Next(p, Session(S.LoopResumes), 1);
            !q.m.ys.recv.closed && q.m.tx == p.m.tx && q.m.done == p.m.done
  {
    GentlePlain(fs, 1);
    NextStream(p, S.LoopResumes);
    LoopStepIs(p.session);
    LoopCalm(p.session, 1, fs);
  }

  lemma LoopSteps(p: Endpoint, fs: seq<Frame>)
    requires Running(p, fs) && P.Ready(p.session.buf, p.session.phase)
    ensures Stepped(p, Next(p, Session(S.LoopResumes), 1), 0)
  {
    LoopWeighs(p, 0, fs);
    LoopActHears(p, 1, fs);
    LoopStaysOpen(p, fs);
    HeardStep(p, Next(p, Session(S.LoopResumes), 1), 0, fs);
  }

  lemma RecvSteps(p: Endpoint, fs: seq<Frame>)
    requires Running(p, fs) && Rank(p.m) != 0
    ensures Stepped(p, Next(p, RecvAct(p.m), 1), 0)
  {
    var act := RecvAct(p.m);
    RecvWeighs(p, 0);
    RecvOnly(p.m, act.call);
    AppAct(p, act.call, 1);
    RecvActHears(p, act.call, 1, fs);
    HeardStep(p, Next(p, act, 1), 0, fs);
  }

  lemma WriterSteps(p: Endpoint, fs: seq<Frame>)
    requires Running(p, fs) && p.m.ys.woken != []
    ensures Stepped(p, Next(p, Session(S.StreamCall(1, Streams.ResumeEvent(0))), 1), 0)
  {
    ResumeContinues(p, 1);
    ResumeWeighs(p, 0);
    EngineStep(p, Next(p, Session(S.StreamCall(1, Streams.ResumeEvent(0))), 1));
  }

  lemma SendSteps(p: Endpoint, fs: seq<Frame>)
    requires Running(p, fs) && Outstanding(p.m.tx) && WriteReturned(p.m.ys)
    ensures Stepped(p, Next(p, App(SendContinues), 1), 0)
  {
    SendContinuesEngine(p, 1);
    ContinueWeighs(p, 0);
    EngineStep(p, Next(p, App(SendContinues), 1));
  }

  lemma SendIs(m: Messenger, payload: seq<Byte>)
    requires m.ys.state.Open? && !Outstanding(m.tx)
    ensures var n := Send(m, payload);
            n.ys == Streams.Write(m.ys, DataHeader(payload)) && !n.tx.Broken? && Attempted(n) == Attempted(m) + [payload]
  {
  }

  // A call of send begins a frame.
  lemma SubmitSteps(p: Endpoint, payload: seq<Byte>, fs: seq<Frame>)
    requires Running(p, fs) && !Outstanding(p.m.tx)
    ensures var q := Next(p, App(SendCall(payload)), 1);
            Fine(q) && p.session.log <= q.session.log && Attempted(q.m) == Attempted(p.m) + [payload]
  {
    AppAct(p, SendCall(payload), 1);
    SendIs(p.m, payload);
    WriteKept(p.m.ys, DataHeader(payload));
    PutEngine(p, Send(p.m, payload).ys, Send(p.m, payload), 1);
    SendSteady(p, SendCall(payload), 1);
  }

  // ----- the moves of an end -----

  datatype End = EndA | EndB

  // The program calls send; bytes of the other end arrive; the read loop, a woken write or a send is
  // continued; recv is called, or continued.
  datatype Move =
    | Submits(at: End, payload: seq<Byte>)
    | Arrives(at: End, n: nat)
    | LoopGoesOn(at: End)
    | WriterGoesOn(at: End)
    | SendGoesOn(at: End)
    | RecvGoesOn(at: End)

  // Up to n bytes of a wire, from a place on it.
  function Following(wire: seq<Byte>, place: nat, n: nat): seq<Byte> {
    if place <= |wire| then wire[place..Min(place + n, |wire|)] else []
  }

  lemma FollowingFits(got: seq<Byte>, wire: seq<Byte>, n: nat)
    requires got <= wire
    ensures got + Following(wire, |got|, n) <= wire
  {
    FrontGrows(wire, |got|, |Following(wire, |got|, n)|);
  }

  // What a move does at an end that has been handed `got` bytes of the other end's wire, if anything.
  function ActOn(p: Endpoint, got: nat, wire: seq<Byte>, move: Move): Option<Act> {
    match move
    case Submits(_, payload) => if Outstanding(p.m.tx) then None else Some(App(SendCall(payload)))
    case Arrives(_, n) =>
      if Following(wire, got, n) == [] then None else Some(Session(S.Message(Following(wire, got, n))))
    case LoopGoesOn(_) => if P.Ready(p.session.buf, p.session.phase) then Some(Session(S.LoopResumes)) else None
    case WriterGoesOn(_) =>
      if p.m.ys.woken == [] then None else Some(Session(S.StreamCall(1, Streams.ResumeEvent(0))))
    case SendGoesOn(_) => if Outstanding(p.m.tx) && WriteReturned(p.m.ys) then Some(App(SendContinues)) else None
    case RecvGoesOn(_) => if Rank(p.m) == 0 then None else Some(RecvAct(p.m))
  }

  // A move takes in no more than there is, ...
  lemma MoveFits(p: Endpoint, act: Act, got: seq<Byte>, wire: seq<Byte>, move: Move)
    requires got <= wire && ActOn(p, |got|, wire, move) == Some(act)
    ensures got + BytesOf(act) <= wire
  {
    ConcatEmpty(got);
    if move.Arrives? {
      FollowingFits(got, wire, move.n);
    }
  }

  // A step that takes in what the act says.
  predicate Does(p: Endpoint, act: Act)
    requires InOrder(p, 1)
  {
    Stepped(p, Next(p, act, 1), |BytesOf(act)|)
  }

  lemma ArrivalDoes(p: Endpoint, act: Act, fs: seq<Frame>)
    requires Running(p, fs) && act.Session? && act.e.Message?
    requires p.session.buf.accepted + BytesOf(act) <= Wire(fs) && BytesOf(act) != []
    ensures Does(p, act)
  {
    MessageWeighs(p, act.e.data, 0);
    MessageActHears(p, act.e.data, 1, fs);
    HeardStep(p, Next(p, act, 1), |BytesOf(act)|, fs);
  }

  // What the move continues is there to be continued, ...
  lemma ActIs(p: Endpoint, act: Act, got: nat, wire: seq<Byte>, move: Move)
    requires ActOn(p, got, wire, move) == Some(act)
    ensures match move
            case Submits(_, payload) => !Outstanding(p.m.tx) && act == App(SendCall(payload))
            case Arrives(_, _) => act.Session? && act.e.Message? && BytesOf(act) != []
            case LoopGoesOn(_) => P.Ready(p.session.buf, p.session.phase) && act == Session(S.LoopResumes)
            case WriterGoesOn(_) => p.m.ys.woken != [] && act == Session(S.StreamCall(1, Streams.ResumeEvent(0)))
            case SendGoesOn(_) => Outstanding(p.m.tx) && WriteReturned(p.m.ys) && act == App(SendContinues)
            case RecvGoesOn(_) => Rank(p.m) != 0 && act == RecvAct(p.m)
  {
  }

  lemma ArrivalMoves(p: Endpoint, act: Act, got: seq<Byte>, fs: seq<Frame>, move: Move)
    requires Running(p, fs) && got == p.session.buf.accepted
    requires move.Arrives? && ActOn(p, |got|, Wire(fs), move) == Some(act)
    ensures Does(p, act)
  {
    ActIs(p, act, |got|, Wire(fs), move);
    MoveFits(p, act, got, Wire(fs), move);
    ArrivalDoes(p, act, fs);
  }

  lemma LoopMoves(p: Endpoint, act: Act, got: nat, fs: seq<Frame>, move: Move)
    requires Running(p, fs) && move.LoopGoesOn? && ActOn(p, got, Wire(fs), move) == Some(act)
    ensures Does(p, act)
  {
    ActIs(p, act, got, Wire(fs), move);
    LoopSteps(p, fs);
  }

  lemma WriterMoves(p: Endpoint, act: Act, got: nat, fs: seq<Frame>, move: Move)
    requires Running(p, fs) && move.WriterGoesOn? && ActOn(p, got, Wire(fs), move) == Some(act)
    ensures Does(p, act)
  {
    ActIs(p, act, got, Wire(fs), move);
    WriterSteps(p, fs);
  }

  lemma SendMoves(p: Endpoint, act: Act, got: nat, fs: seq<Frame>, move: Move)
    requires Running(p, fs) && move.SendGoesOn? && ActOn(p, got, Wire(fs), move) == Some(act)
    ensures Does(p, act)
  {
    ActIs(p, act, got, Wire(fs), move);
    SendSteps(p, fs);
  }

  lemma RecvMoves(p: Endpoint, act: Act, got: nat, fs: seq<Frame>, move: Move)
    requires Running(p, fs) && move.RecvGoesOn? && ActOn(p, got, Wire(fs), move) == Some(act)
    ensures Does(p, act)
  {
    ActIs(p, act, got, Wire(fs), move);
    RecvSteps(p, fs);
  }

  // ... and every move but a call of send lowers the weight of its end.
  lemma MoveSteps(p: Endpoint, act: Act, got: seq<Byte>, fs: seq<Frame>, move: Move)
    requires Running(p, fs) && got == p.session.buf.accepted
    requires !move.Submits? && ActOn(p, |got|, Wire(fs), move) == Some(act)
    ensures Does(p, act)
  {
    if move.Arrives? {
      ArrivalMoves(p, act, got, fs, move);
    } else if move.LoopGoesOn? {
      LoopMoves(p, act, |got|, fs, move);
    } else if move.WriterGoesOn? {
      WriterMoves(p, act, |got|, fs, move);
    } else if move.SendGoesOn? {
      SendMoves(p, act, |got|, fs, move);
    } else {
      RecvMoves(p, act, |got|, fs, move);
    }
  }

  // Everything is in and nothing of this end waits for the engine.
  predicate IdleOn(p: Endpoint, got: nat, wire: seq<Byte>) {
    got >= |wire| && !P.Ready(p.session.buf, p.session.phase) && SenderAtRest(p.m) && Rank(p.m) == 0
  }

  // A move that does something, if there is one.
  function NextOn(p: Endpoint, got: nat, wire: seq<Byte>, at: End): Option<Move> {
    if got < |wire| then Some(Arrives(at, |wire|))
    else if P.Ready(p.session.buf, p.session.phase) then Some(LoopGoesOn(at))
    else if p.m.ys.woken != [] then Some(WriterGoesOn(at))
    else if Outstanding(p.m.tx) && WriteReturned(p.m.ys) then Some(SendGoesOn(at))
    else if Rank(p.m) != 0 then Some(RecvGoesOn(at))
    else None
  }

  lemma NextActs(p: Endpoint, got: nat, wire: seq<Byte>, at: End)
    ensures match NextOn(p, got, wire, at)
            case Some(move) => !move.Submits? && move.at == at && ActOn(p, got, wire, move).Some?
            case None => IdleOn(p, got, wire)
  {
  }

  lemma IdleDoesNothing(p: Endpoint, got: nat, wire: seq<Byte>, move: Move)
    requires IdleOn(p, got, wire) && !move.Submits?
    ensures ActOn(p, got, wire, move).None?
  {
  }
}
