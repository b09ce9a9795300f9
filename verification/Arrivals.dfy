/** That everything does arrive: whatever a sender has put on the wire, and wherever it is cut into
    messages, the receiving session can be brought by its own read loop and calls of recv to where it has
    returned all of it. */
module Arrivals {
  import opened Bytes
  import opened Records
  import opened YamuxFrames
  import opened Messages
  import opened MessageSends
  import opened EndToEnd
  import Streams
  import R = Receiving
  import A = AppFrames
  import P = Pulls
  import S = Sessions
  import T = SessionTables
  import FP = FlowProgress
  import opened SessionParsing
  import opened SessionStreams
  import opened SessionLogs
  import opened SessionEof

  // ----- runs put together -----

  lemma {:induction false} RunConcat(p: Endpoint, a: seq<Act>, b: seq<Act>, id: nat)
    requires InOrder(p, id)
    ensures InOrder(EndToEnd.Run(p, a, id), id)
    ensures EndToEnd.Run(p, a + b, id) == EndToEnd.Run(EndToEnd.Run(p, a, id), b, id)
    decreases |a|
  {
    RunInOrder(p, a, id);
    if a == [] {
      ConcatEmpty(b);
    } else {
      RunConcat(Next(p, a[0], id), a[1..], b, id);
      ConcatFirst(a, b);
    }
  }

  lemma {:induction false} TraceConcat(p: Endpoint, a: seq<Act>, b: seq<Act>, id: nat)
    requires InOrder(p, id)
    ensures InOrder(EndToEnd.Run(p, a, id), id)
    ensures Trace(p, a + b, id) == Trace(p, a, id) + Trace(EndToEnd.Run(p, a, id), b, id)
    decreases |a|
  {
    RunInOrder(p, a, id);
    if a == [] {
      ConcatEmpty(b);
      ConcatEmpty(Trace(p, b, id));
    } else {
      TraceConcat(Next(p, a[0], id), a[1..], b, id);
      ConcatFirst(a, b);
      var first := match AsSession(p, a[0], id) case Some(e) => [e] case None => [];
      ConcatAssociative(first, Trace(Next(p, a[0], id), a[1..], id), Trace(EndToEnd.Run(p, a, id), b, id));
    }
  }

  lemma {:induction false} BytesConcat(a: seq<S.Event>, b: seq<S.Event>)
    ensures MessageBytes(a + b) == MessageBytes(a) + MessageBytes(b)
  {
    if a == [] {
      ConcatEmpty(b);
      ConcatEmpty(MessageBytes(b));
    } else {
      BytesConcat(a[1..], b);
      ConcatFirst(a, b);
      ConcatAssociative(if a[0].Message? then a[0].data else [], MessageBytes(a[1..]), MessageBytes(b));
    }
  }

  lemma RunStarts(p: Endpoint, act: Act, rest: seq<Act>, id: nat)
    requires InOrder(p, id)
    ensures EndToEnd.Run(p, [act] + rest, id) == EndToEnd.Run(Next(p, act, id), rest, id)
    ensures InOrder(EndToEnd.Run(p, [act] + rest, id), id)
  {
    assert [act][1..] == [];
    ConcatFirst([act], rest);
    ConcatEmpty(rest);
    RunInOrder(p, [act] + rest, id);
  }

  lemma NeverStarts(p: Endpoint, act: Act, rest: seq<Act>, id: nat)
    requires InOrder(p, id) && !SendsBroken(p, act) && NeverSendsBroken(Next(p, act, id), rest, id)
    ensures NeverSendsBroken(p, [act] + rest, id)
  {
    var acts := [act] + rest;
    assert acts[0] == act && acts[1..] == rest;
  }

  lemma NeverNone(p: Endpoint, id: nat)
    requires InOrder(p, id)
    ensures NeverSendsBroken(p, [], id)
  {
  }

  lemma OneAct(p: Endpoint, act: Act, id: nat)
    requires InOrder(p, id)
    ensures EndToEnd.Run(p, [act], id) == Next(p, act, id)
    ensures !SendsBroken(p, act) ==> NeverSendsBroken(p, [act], id)
  {
    ConcatEmpty([act]);
    RunStarts(p, act, [], id);
    NeverNone(Next(p, act, id), id);
    if !SendsBroken(p, act) {
      NeverStarts(p, act, [], id);
    }
  }

  lemma RunThree(p: Endpoint, a: Act, b: Act, c: Act, id: nat)
    requires InOrder(p, id)
    ensures EndToEnd.Run(p, [a, b, c], id) == Next(Next(Next(p, a, id), b, id), c, id)
  {
    var q := Next(p, a, id);
    ThreeInOrder(a, b, c);
    OneAct(Next(q, b, id), c, id);
    RunStarts(q, b, [c], id);
    RunStarts(p, a, [b, c], id);
  }

  lemma ThreeClean(p: Endpoint, a: Act, b: Act, c: Act, id: nat)
    requires InOrder(p, id) && !SendsBroken(p, a) && !SendsBroken(Next(p, a, id), b)
    requires !SendsBroken(Next(Next(p, a, id), b, id), c)
    ensures NeverSendsBroken(p, [a, b, c], id)
  {
    var q := Next(p, a, id);
    ThreeInOrder(a, b, c);
    OneAct(Next(q, b, id), c, id);
    NeverStarts(q, b, [c], id);
    NeverStarts(p, a, [b, c], id);
  }

  // One call of send, continued to its end.
  function SendActs(payload: seq<Byte>): seq<Act> {
    [App(SendCall(payload)), App(SendContinues), App(SendContinues)]
  }

  lemma {:induction false} NeverConcat(p: Endpoint, a: seq<Act>, b: seq<Act>, id: nat)
    requires InOrder(p, id) && NeverSendsBroken(p, a, id)
    ensures InOrder(EndToEnd.Run(p, a, id), id)
    ensures NeverSendsBroken(EndToEnd.Run(p, a, id), b, id) ==> NeverSendsBroken(p, a + b, id)
    decreases |a|
  {
    RunInOrder(p, a, id);
    if a == [] {
      ConcatEmpty(b);
    } else {
      NeverConcat(Next(p, a[0], id), a[1..], b, id);
      ConcatFirst(a, b);
    }
  }

  // What brings bytes in and hands them on: messages, the read loop, and calls of recv.
  predicate Receives(act: Act) {
    match act
    case App(e) => IsRecv(e)
    case Session(e) => e.Message? || e.LoopResumes?
  }

  predicate Listening(acts: seq<Act>) {
    forall i :: 0 <= i < |acts| ==> Receives(acts[i])
  }

  // ... without a message.
  predicate Hushed(act: Act) {
    Receives(act) && (act.Session? ==> !act.e.Message?)
  }

  predicate Silent(acts: seq<Act>) {
    forall i :: 0 <= i < |acts| ==> Hushed(acts[i])
  }

  lemma SilentFirst(act: Act, rest: seq<Act>)
    requires Hushed(act) && Silent(rest)
    ensures Silent([act] + rest)
  {
  }

  lemma ThenHushed(a: seq<Act>, b: seq<Act>)
    requires Listening(a) && Silent(b)
    ensures Listening(a + b)
  {
    forall i | 0 <= i < |b| ensures Receives(b[i]) {
      assert Hushed(b[i]);
    }
  }

  // The WSStream's own calls of recv.
  predicate IsRecv(e: Messages.Event) {
    e.RecvCall? || e.RecvContinues?
  }

  predicate NoMessage(acts: seq<Act>) {
    forall i :: 0 <= i < |acts| ==> (acts[i].Session? ==> !acts[i].e.Message?)
  }

  lemma {:induction false} NoMessageBytes(p: Endpoint, acts: seq<Act>, id: nat)
    requires InOrder(p, id) && NoMessage(acts)
    ensures MessageBytes(Trace(p, acts, id)) == []
    decreases |acts|
  {
    if acts != [] {
      NoMessageBytes(Next(p, acts[0], id), acts[1..], id);
      var rest := Trace(Next(p, acts[0], id), acts[1..], id);
      match AsSession(p, acts[0], id)
      case Some(e) => ConcatFirst([e], rest); ConcatEmpty(rest);
      case None => ConcatEmpty(rest);
    }
  }

  lemma ReceivesKeepsSends(p: Endpoint, act: Act, id: nat)
    requires InOrder(p, id) && Receives(act)
    ensures var q := Next(p, act, id); q.m.tx == p.m.tx && q.m.done == p.m.done && !SendsBroken(p, act)
  {
    if act.App? {
      RecvOnly(p.m, act.call);
    }
  }

  // Receiving leaves the calls of send where they are.
  lemma {:induction false} ListeningKeepsSends(p: Endpoint, acts: seq<Act>, id: nat)
    requires InOrder(p, id) && Listening(acts)
    ensures NeverSendsBroken(p, acts, id)
    ensures var q := EndToEnd.Run(p, acts, id); q.m.tx == p.m.tx && q.m.done == p.m.done
    decreases |acts|
  {
    if acts != [] {
      ReceivesKeepsSends(p, acts[0], id);
      ListeningKeepsSends(Next(p, acts[0], id), acts[1..], id);
    }
  }

  // ----- an undisturbed session -----

  predicate Calm(s: S.Session, id: nat) {
    !s.closed && !s.buf.closed && id in s.table && id in s.created && s.created[id].resets == 0
  }

  // Frames that end neither the session nor, by a reset, stream `id`.
  predicate GentleFrame(f: Frame, id: nat) {
    f.typ != TYPE_GO_AWAY && (Belongs(f, id) ==> !HasFlag(f.flags, FLAG_RST))
  }

  predicate Gentle(fs: seq<Frame>, id: nat) {
    forall i :: 0 <= i < |fs| ==> GentleFrame(fs[i], id)
  }

  // Nor is there a FIN for the stream among them.
  predicate NoFins(fs: seq<Frame>, id: nat) {
    forall i :: 0 <= i < |fs| ==> !FinOf(fs[i], id)
  }

  lemma AfterFrameOpen(t: Streams.Stream, f: Frame)
    requires !HasFlag(f.flags, FLAG_RST)
    ensures S.AfterFrame(t, f).resets == t.resets
    ensures !HasFlag(f.flags, FLAG_FIN) ==> S.AfterFrame(t, f).recv.closed == t.recv.closed
  {
  }

  // After a frame that does not end it the session is calm, and the stream open for reading if that was
  // no FIN.
  predicate Undisturbed(s: S.Session, t: S.Session, id: nat, fin: bool) {
    Calm(s, id) && Calm(t, id) && (!fin ==> t.created[id].recv.closed == s.created[id].recv.closed)
  }

  lemma DispatchCalm(s: S.Session, f: Frame, id: nat)
    requires S.StreamsOk(s) && T.IdsInv(s) && Calm(s, id) && GentleFrame(f, id)
    ensures Undisturbed(s, S.Dispatch(s, f), id, FinOf(f, id))
  {
    if Belongs(f, id) {
      AfterFrameOpen(s.created[id], f);
    } else {
      T.NonInterference(s, f);
      S.DispatchOk(s, f);
      OtherStays(s, f, id);
    }
  }

  lemma OtherStays(s: S.Session, f: Frame, id: nat)
    requires S.StreamsOk(s) && id in s.table && f.typ != TYPE_GO_AWAY && !Belongs(f, id)
    ensures id in S.Dispatch(s, f).table
  {
  }

  lemma HandleCalm(s: S.Session, r: Record, id: nat)
    requires S.StreamsOk(s) && T.IdsInv(s) && Calm(s, id) && Valid(YamuxFormat, r) && GentleFrame(FromRecord(r), id)
    ensures Undisturbed(s, S.HandleRecord(s, r), id, FinOf(FromRecord(r), id))
  {
    DispatchCalm(s, FromRecord(r), id);
    S.DispatchOk(s, FromRecord(r));
  }

  // The record in hand is on the wire.
  lemma InHandGentle(s: S.Session, r: Record, id: nat, fs: seq<Frame>)
    requires S.SessionOk(s) && LoopInv(s) && P.Ready(s.buf, s.phase) && Valid(YamuxFormat, r)
    requires S.ResumeLoop(s) == S.HandleRecord(s, r)
    requires AllCarried(fs) && Gentle(fs, id) && s.buf.accepted <= Wire(fs)
    ensures GentleFrame(FromRecord(r), id) && (NoFins(fs, id) ==> !FinOf(FromRecord(r), id))
  {
    ResumeLoopKeeps(s);
    DispatchedGrows(s, r);
    DispatchedFromWire(S.ResumeLoop(s), fs);
    FromRecordsAppend(s.dispatched, r);
    var n := |s.dispatched|;
    assert DispatchedFrames(S.ResumeLoop(s))[n] == FromRecord(r);
    assert fs[n] == FromRecord(r);
  }

  lemma LoopCalm(s: S.Session, id: nat, fs: seq<Frame>)
    requires S.SessionOk(s) && T.IdsInv(s) && LoopInv(s) && P.Ready(s.buf, s.phase) && Calm(s, id)
    requires AllCarried(fs) && Gentle(fs, id) && s.buf.accepted <= Wire(fs)
    ensures Undisturbed(s, S.ResumeLoop(s), id, !NoFins(fs, id))
    ensures LoopInv(S.ResumeLoop(s)) && S.ResumeLoop(s).buf.accepted == s.buf.accepted
  {
    ResumeLoopKeeps(s);
    P.OwnsContinue(YamuxFormat, s.buf, s.phase);
    match P.Continue(YamuxFormat, s.buf, s.phase)
    case Suspended(_, _) =>
    case Raised(_) =>
    case Got(r) =>
      InHandGentle(s, r, id, fs);
      HandleCalm(s, r, id);
  }

  // ----- the read loop catches up -----

  predicate OnWire(s: S.Session, id: nat, fs: seq<Frame>) {
    && LoopInv(s) && Calm(s, id)
    && AllCarried(fs) && Gentle(fs, id) && s.buf.accepted <= Wire(fs)
    && (NoFins(fs, id) ==> !s.created[id].recv.closed)
  }

  lemma CalmParked(s: S.Session, id: nat)
    requires S.SessionOk(s) && LoopInv(s) && Calm(s, id) && !P.Ready(s.buf, s.phase)
    ensures s.buf.waiting.Some?
  {
  }

  lemma NextSession(p: Endpoint, e: S.Event, id: nat)
    requires InOrder(p, id) && !Bypasses(e, id)
    ensures Next(p, Session(e), id).session == S.Step(p.session, e)
  {
  }

  lemma StaysOnWire(s: S.Session, t: S.Session, id: nat, fs: seq<Frame>)
    requires OnWire(s, id, fs) && Undisturbed(s, t, id, !NoFins(fs, id))
    requires LoopInv(t) && t.buf.accepted == s.buf.accepted
    ensures OnWire(t, id, fs)
  {
  }

  lemma LoopOnWire(s: S.Session, id: nat, fs: seq<Frame>)
    requires S.SessionOk(s) && T.IdsInv(s) && OnWire(s, id, fs) && P.Ready(s.buf, s.phase)
    ensures OnWire(S.ResumeLoop(s), id, fs)
  {
    LoopCalm(s, id, fs);
    StaysOnWire(s, S.ResumeLoop(s), id, fs);
  }

  lemma LoopStepIs(s: S.Session)
    requires S.SessionOk(s) && P.Ready(s.buf, s.phase)
    ensures S.Step(s, S.LoopResumes) == S.ResumeLoop(s) && FP.Backlog(S.ResumeLoop(s)) < FP.Backlog(s)
  {
    FP.BacklogShrinks(s);
  }

  lemma LoopAct(p: Endpoint, id: nat, fs: seq<Frame>)
    requires InOrder(p, id) && OnWire(p.session, id, fs) && P.Ready(p.session.buf, p.session.phase)
    ensures var q := Next(p, Session(S.LoopResumes), id);
            OnWire(q.session, id, fs) && FP.Backlog(q.session) < FP.Backlog(p.session)
  {
    NextSession(p, S.LoopResumes, id);
    LoopOnWire(p.session, id, fs);
    LoopStepIs(p.session);
  }

  lemma {:induction false} LoopDrains(p: Endpoint, id: nat, fs: seq<Frame>) returns (acts: seq<Act>)
    requires InOrder(p, id) && OnWire(p.session, id, fs)
    ensures Silent(acts) && InOrder(EndToEnd.Run(p, acts, id), id)
    ensures var q := EndToEnd.Run(p, acts, id); OnWire(q.session, id, fs) && q.session.buf.waiting.Some?
    decreases FP.Backlog(p.session)
  {
    if P.Ready(p.session.buf, p.session.phase) {
      var act := Session(S.LoopResumes);
      LoopAct(p, id, fs);
      var rest := LoopDrains(Next(p, act, id), id, fs);
      acts := [act] + rest;
      SilentFirst(act, rest);
      RunStarts(p, act, rest, id);
    } else {
      acts := [];
      CalmParked(p.session, id);
    }
  }

  // ----- recv catches up -----

  function Rank(m: Messenger): nat {
    if m.phase.Idle? then 1 else if P.Ready(m.ys.recv, m.phase) then 2 else 0
  }

  function RecvBacklog(m: Messenger): nat {
    2 * |m.ys.recv.data| + Rank(m)
  }

  function RecvAct(m: Messenger): Act {
    if m.phase.Idle? then App(RecvCall) else App(RecvContinues)
  }

  lemma RecvShrinks(m: Messenger)
    requires MessengerOk(m) && !m.ys.recv.closed && Rank(m) != 0
    ensures RecvBacklog(Messages.Step(m, RecvAct(m).call)) < RecvBacklog(m)
  {
    if m.phase.Idle? {
      FP.ReadBacklog(m.ys.recv, APP_HEADER_SIZE);
    } else {
      P.OwnsContinue(AppFormat, m.ys.recv, m.phase);
      match P.Continue(AppFormat, m.ys.recv, m.phase)
      case Suspended(_, next) => FP.ReadBacklog(m.ys.recv, BodyLength(AppFormat, next.header));
      case _ =>
    }
  }

  // A step of recv changes its stream's buffer only, and does not close it.
  lemma RecvOnly(m: Messenger, e: Messages.Event)
    requires MessengerOk(m) && IsRecv(e)
    ensures var n := Messages.Step(m, e);
            n.ys == m.ys.(recv := n.ys.recv) && n.ys.recv.closed == m.ys.recv.closed && n.tx == m.tx && n.done == m.done
  {
    if e.RecvContinues? && P.Ready(m.ys.recv, m.phase) {
      P.OwnsContinue(AppFormat, m.ys.recv, m.phase);
    }
  }

  // A step of the WSStream, on the session.
  lemma AppAct(p: Endpoint, e: Messages.Event, id: nat)
    requires InOrder(p, id) && !e.Other?
    ensures Next(p, App(e), id) == Endpoint(S.Put(p.session, id, Messages.Step(p.m, e).ys), Messages.Step(p.m, e))
  {
  }

  lemma PutOnWire(s: S.Session, id: nat, t: Streams.Stream, fs: seq<Frame>)
    requires OnWire(s, id, fs) && t.resets == s.created[id].resets && t.recv.closed == s.created[id].recv.closed
    ensures OnWire(S.Put(s, id, t), id, fs) && S.Put(s, id, t).buf == s.buf
  {
  }

  lemma RecvActKeeps(p: Endpoint, e: Messages.Event, id: nat, fs: seq<Frame>)
    requires InOrder(p, id) && OnWire(p.session, id, fs) && IsRecv(e)
    ensures var q := Next(p, App(e), id);
            q.m == Messages.Step(p.m, e) && OnWire(q.session, id, fs) && q.session.buf == p.session.buf
  {
    RecvOnly(p.m, e);
    AppAct(p, e, id);
    PutOnWire(p.session, id, Messages.Step(p.m, e).ys, fs);
  }

  // The reader is parked.
  lemma RestParked(p: Endpoint, id: nat, fs: seq<Frame>)
    requires InOrder(p, id) && OnWire(p.session, id, fs) && p.session.buf.waiting.Some? && Rank(p.m) == 0
    ensures BothParked(p, id)
  {
  }

  // As long as the stream is open for reading, recv is called until it parks.
  lemma {:induction false} RecvDrains(p: Endpoint, id: nat, fs: seq<Frame>) returns (acts: seq<Act>)
    requires InOrder(p, id) && OnWire(p.session, id, fs) && p.session.buf.waiting.Some? && NoFins(fs, id)
    ensures Silent(acts) && InOrder(EndToEnd.Run(p, acts, id), id)
    ensures BothParked(EndToEnd.Run(p, acts, id), id)
    decreases RecvBacklog(p.m)
  {
    if Rank(p.m) != 0 {
      var act := RecvAct(p.m);
      RecvShrinks(p.m);
      RecvActKeeps(p, act.call, id, fs);
      var rest := RecvDrains(Next(p, act, id), id, fs);
      acts := [act] + rest;
      SilentFirst(act, rest);
      RunStarts(p, act, rest, id);
    } else {
      acts := [];
      RestParked(p, id, fs);
    }
  }

  // ----- one call of recv -----

  function RecvWork(m: Messenger): nat {
    if !P.Ready(m.ys.recv, m.phase) then 0
    else 2 * |m.ys.recv.data| + (if P.LastOutcome(m.ys.recv).Rejected? then 1 else 2)
  }

  lemma ContinueShrinks(m: Messenger)
    requires MessengerOk(m) && P.Ready(m.ys.recv, m.phase)
    ensures RecvWork(Messages.Step(m, RecvContinues)) < RecvWork(m)
  {
    P.OwnsContinue(AppFormat, m.ys.recv, m.phase);
    match P.Continue(AppFormat, m.ys.recv, m.phase)
    case Suspended(_, next) => FP.ReadBacklog(m.ys.recv, BodyLength(AppFormat, next.header));
    case _ =>
  }

  // recv has been called, and the loop of the calm session and the pending recv have been continued as
  // far as they go.
  predicate Settled(p: Endpoint, id: nat) {
    Calm(p.session, id) && p.session.buf.waiting.Some? && R.Called(Reader(p.m)) && R.AtRest(Reader(p.m))
  }

  // What a reader has been asked is not forgotten.
  lemma StaysCalled(m: Messenger, e: Messages.Event)
    requires MessengerOk(m) && R.RecvInv(Reader(m)) && IsRecv(e) && (e.RecvCall? || R.Called(Reader(m)))
    ensures R.Called(Reader(Messages.Step(m, e)))
  {
    R.CalledStep(Reader(m), if e.RecvCall? then R.Call else R.Resume);
  }

  lemma {:induction false} RecvSettles(p: Endpoint, id: nat, fs: seq<Frame>) returns (acts: seq<Act>)
    requires InOrder(p, id) && OnWire(p.session, id, fs) && p.session.buf.waiting.Some? && R.Called(Reader(p.m))
    ensures Silent(acts) && InOrder(EndToEnd.Run(p, acts, id), id)
    ensures Settled(EndToEnd.Run(p, acts, id), id)
    decreases RecvWork(p.m)
  {
    if P.Ready(p.m.ys.recv, p.m.phase) {
      var act := App(RecvContinues);
      ContinueShrinks(p.m);
      StaysCalled(p.m, RecvContinues);
      RecvActKeeps(p, RecvContinues, id, fs);
      var rest := RecvSettles(Next(p, act, id), id, fs);
      acts := [act] + rest;
      SilentFirst(act, rest);
      RunStarts(p, act, rest, id);
    } else {
      acts := [];
    }
  }

  // A call of recv, up to where it returns or parks.
  lemma OneRecv(p: Endpoint, id: nat, fs: seq<Frame>) returns (acts: seq<Act>)
    requires InOrder(p, id) && OnWire(p.session, id, fs) && p.session.buf.waiting.Some?
    ensures Silent(acts) && InOrder(EndToEnd.Run(p, acts, id), id)
    ensures Settled(EndToEnd.Run(p, acts, id), id)
  {
    StaysCalled(p.m, RecvCall);
    RecvActKeeps(p, RecvCall, id, fs);
    var rest := RecvSettles(Next(p, App(RecvCall), id), id, fs);
    acts := [App(RecvCall)] + rest;
    SilentFirst(App(RecvCall), rest);
    RunStarts(p, App(RecvCall), rest, id);
  }

  // ----- calls of send -----

  // A call of send leaves the session as it is but for what its stream sends.
  predicate Steady(s: S.Session, t: S.Session, id: nat) {
    && id in s.created && id in t.created
    && t.closed == s.closed && t.buf == s.buf && t.phase == s.phase && t.table == s.table && t.dispatched == s.dispatched
    && t.created[id].recv == s.created[id].recv && t.created[id].resets == s.created[id].resets
  }

  lemma SendKeepsStream(m: Messenger, e: Messages.Event)
    requires MessengerOk(m) && (e.SendCall? || e.SendContinues?)
    ensures var n := Messages.Step(m, e); n.ys.recv == m.ys.recv && n.ys.resets == m.ys.resets
  {
  }

  lemma SendSteady(p: Endpoint, e: Messages.Event, id: nat)
    requires InOrder(p, id) && (e.SendCall? || e.SendContinues?)
    ensures var q := Next(p, App(e), id); q.m == Messages.Step(p.m, e) && Steady(p.session, q.session, id)
  {
    SendKeepsStream(p.m, e);
    AppAct(p, e, id);
  }

  // ----- the messages -----

  function Messaged(chunks: seq<seq<Byte>>): (acts: seq<Act>)
    ensures |acts| == |chunks|
    ensures forall i :: 0 <= i < |chunks| ==> acts[i] == Session(S.Message(chunks[i]))
  {
    seq(|chunks|, i requires 0 <= i < |chunks| => Session(S.Message(chunks[i])))
  }

  // A message leaves the streams as they are.
  predicate SameStreams(s: S.Session, t: S.Session) {
    t.created == s.created && t.table == s.table
  }

  lemma MessageCalm(s: S.Session, data: seq<Byte>, id: nat)
    requires S.SessionOk(s) && LoopInv(s) && Calm(s, id)
    ensures var t := S.Step(s, S.Message(data));
            && LoopInv(t) && Calm(t, id) && SameStreams(s, t)
            && t.buf.accepted == s.buf.accepted + data
  {
    PushKeepsLoop(s, data);
    StepAccepts(s, S.Message(data));
  }

  lemma MessageStarts(p: Endpoint, data: seq<Byte>, rest: seq<Act>, id: nat)
    requires InOrder(p, id)
    ensures var q, acts := Next(p, Session(S.Message(data)), id), [Session(S.Message(data))] + rest;
            Trace(p, acts, id) == [S.Message(data)] + Trace(q, rest, id)
  {
    var acts := [Session(S.Message(data))] + rest;
    ConcatFirst([Session(S.Message(data))], rest);
    ConcatEmpty(rest);
    TraceFirst(p, acts, S.Message(data), id);
  }

  lemma FirstBytes(data: seq<Byte>, trace: seq<S.Event>)
    ensures MessageBytes([S.Message(data)] + trace) == data + MessageBytes(trace)
  {
    ConcatFirst([S.Message(data)], trace);
    ConcatEmpty(trace);
  }

  lemma NoMessages(p: Endpoint, id: nat)
    requires InOrder(p, id)
    ensures EndToEnd.Run(p, [], id) == p && MessageBytes(Trace(p, [], id)) == []
  {
  }

  lemma MessagedListens(chunks: seq<seq<Byte>>)
    ensures Listening(Messaged(chunks))
  {
    forall i | 0 <= i < |chunks| ensures Receives(Messaged(chunks)[i]) {
    }
  }

  lemma MessagedFirst(chunks: seq<seq<Byte>>)
    requires chunks != []
    ensures Messaged(chunks) == [Session(S.Message(chunks[0]))] + Messaged(chunks[1..])
  {
  }

  lemma {:induction false} MessagesArrive(p: Endpoint, chunks: seq<seq<Byte>>, id: nat)
    requires InOrder(p, id) && LoopInv(p.session) && Calm(p.session, id)
    ensures InOrder(EndToEnd.Run(p, Messaged(chunks), id), id)
    ensures var q := EndToEnd.Run(p, Messaged(chunks), id);
            && LoopInv(q.session) && Calm(q.session, id) && SameStreams(p.session, q.session)
            && q.session.buf.accepted == p.session.buf.accepted + Flatten(chunks)
    ensures MessageBytes(Trace(p, Messaged(chunks), id)) == Flatten(chunks)
    decreases |chunks|
  {
    if chunks == [] {
      NoMessages(p, id);
      ConcatEmpty(p.session.buf.accepted);
    } else {
      var act, rest := Session(S.Message(chunks[0])), Messaged(chunks[1..]);
      MessagedFirst(chunks);
      NextSession(p, S.Message(chunks[0]), id);
      MessageCalm(p.session, chunks[0], id);
      MessagesArrive(Next(p, act, id), chunks[1..], id);
      RunStarts(p, act, rest, id);
      MessageStarts(p, chunks[0], rest, id);
      FirstBytes(chunks[0], Trace(Next(p, act, id), rest, id));
      ConcatAssociative(p.session.buf.accepted, chunks[0], Flatten(chunks[1..]));
    }
  }

  // ----- everything arrives -----

  // Acts that bring no message, after some that do.
  lemma ThenSilent(p: Endpoint, messages: seq<Act>, acts: seq<Act>, id: nat)
    requires InOrder(p, id) && Silent(acts)
    ensures InOrder(EndToEnd.Run(p, messages, id), id)
    ensures EndToEnd.Run(p, messages + acts, id) == EndToEnd.Run(EndToEnd.Run(p, messages, id), acts, id)
    ensures MessageBytes(Trace(p, messages + acts, id)) == MessageBytes(Trace(p, messages, id))
  {
    RunConcat(p, messages, acts, id);
    TraceConcat(p, messages, acts, id);
    var q := EndToEnd.Run(p, messages, id);
    assert NoMessage(acts);
    NoMessageBytes(q, acts, id);
    BytesConcat(Trace(p, messages, id), Trace(q, acts, id));
    ConcatEmpty(MessageBytes(Trace(p, messages, id)));
  }

  // What is still to come makes up, with what was accepted, the frames on the wire.
  predicate Awaits(s: S.Session, id: nat, fs: seq<Frame>, chunks: seq<seq<Byte>>) {
    && LoopInv(s) && Calm(s, id) && AllCarried(fs) && Gentle(fs, id)
    && s.buf.accepted + Flatten(chunks) == Wire(fs)
    && (NoFins(fs, id) ==> !s.created[id].recv.closed)
  }

  // The messages come in and the loop catches up.
  lemma TakesIn(p: Endpoint, id: nat, fs: seq<Frame>, chunks: seq<seq<Byte>>) returns (acts: seq<Act>)
    requires InOrder(p, id) && Awaits(p.session, id, fs, chunks)
    ensures Listening(acts) && InOrder(EndToEnd.Run(p, acts, id), id)
    ensures var q := EndToEnd.Run(p, acts, id); OnWire(q.session, id, fs) && q.session.buf.waiting.Some?
    ensures MessageBytes(Trace(p, acts, id)) == Flatten(chunks)
  {
    var messages := Messaged(chunks);
    MessagesArrive(p, chunks, id);
    MessagedListens(chunks);
    var loop := LoopDrains(EndToEnd.Run(p, messages, id), id, fs);
    acts := messages + loop;
    ThenHushed(messages, loop);
    ThenSilent(p, messages, loop, id);
  }

  // ... and recv is called until it parks, or once.
  lemma AllRecvd(p: Endpoint, id: nat, fs: seq<Frame>, chunks: seq<seq<Byte>>) returns (acts: seq<Act>)
    requires InOrder(p, id) && Awaits(p.session, id, fs, chunks) && NoFins(fs, id)
    ensures Listening(acts) && InOrder(EndToEnd.Run(p, acts, id), id) && BothParked(EndToEnd.Run(p, acts, id), id)
    ensures MessageBytes(Trace(p, acts, id)) == Flatten(chunks)
  {
    var messages := TakesIn(p, id, fs, chunks);
    var recv := RecvDrains(EndToEnd.Run(p, messages, id), id, fs);
    acts := messages + recv;
    ThenHushed(messages, recv);
    ThenSilent(p, messages, recv, id);
  }

  lemma OneRecvd(p: Endpoint, id: nat, fs: seq<Frame>, chunks: seq<seq<Byte>>) returns (acts: seq<Act>)
    requires InOrder(p, id) && Awaits(p.session, id, fs, chunks)
    ensures Listening(acts) && InOrder(EndToEnd.Run(p, acts, id), id) && Settled(EndToEnd.Run(p, acts, id), id)
    ensures MessageBytes(Trace(p, acts, id)) == Flatten(chunks)
  {
    var messages := TakesIn(p, id, fs, chunks);
    var recv := OneRecv(EndToEnd.Run(p, messages, id), id, fs);
    acts := messages + recv;
    ThenHushed(messages, recv);
    ThenSilent(p, messages, recv, id);
  }

  // A stream just opened.
  lemma StartAwaits(pre: seq<S.Event>, fs: seq<Frame>, chunks: seq<seq<Byte>>)
    requires !After(pre).closed && AllCarried(fs) && Gentle(fs, After(pre).nextID)
    requires MessageBytes(pre) + Flatten(chunks) == Wire(fs)
    ensures InOrder(Start(pre), After(pre).nextID) && Awaits(Start(pre).session, After(pre).nextID, fs, chunks)
  {
    StartInOrder(pre);
    StartLoop(pre);
  }

  // Whatever frames a peer has put on the wire, if they end neither the stream nor the session, and
  // wherever they are cut into messages: there is a run of the receiving session, its read loop and calls
  // of recv following the messages, that takes in all of them and leaves both readers parked - for any
  // stream, opened at any point of any run.
  lemma WireArrives(pre: seq<S.Event>, fs: seq<Frame>, chunks: seq<seq<Byte>>) returns (acts: seq<Act>)
    requires !After(pre).closed && AllCarried(fs) && Gentle(fs, After(pre).nextID) && NoFins(fs, After(pre).nextID)
    requires MessageBytes(pre) + Flatten(chunks) == Wire(fs)
    ensures BytesIn(pre, acts) == Wire(fs) && BothParked(Reached(pre, acts), After(pre).nextID)
  {
    StartAwaits(pre, fs, chunks);
    acts := AllRecvd(Start(pre), After(pre).nextID, fs, chunks);
  }

  // Hence any sender whose frames end nothing can be heard out by any session with the stream open: all
  // hypotheses of `EverythingArrives` are met by some run of the receiver, for any cutting, and recv then
  // has returned every payload.
  lemma SenderHeardOut(preA: seq<S.Event>, actsA: seq<Act>, preB: seq<S.Event>, chunks: seq<seq<Byte>>)
    returns (acts: seq<Act>)
    requires !After(preA).closed && !After(preB).closed && After(preA).nextID == After(preB).nextID
    requires SendsCleanly(preA, actsA) && Unused(preB)
    requires Fits(Reached(preA, actsA).session.log)
    requires Gentle(Reached(preA, actsA).session.log, After(preB).nextID)
    requires NoFins(Reached(preA, actsA).session.log, After(preB).nextID)
    requires A.AllSendable(DataFrames(Reached(preA, actsA).m.done)) && Reached(preA, actsA).m.tx.Between?
    requires MessageBytes(preB) + Flatten(chunks) == Wire(Reached(preA, actsA).session.log)
    ensures BytesIn(preB, acts) == Wire(Reached(preA, actsA).session.log)
    ensures BothParked(Reached(preB, acts), After(preB).nextID)
    ensures var sent, received := Reached(preA, actsA).m.done, BeforeFailure(Reached(preB, acts).m.results);
            |received| == |sent| && forall i :: 0 <= i < |received| ==> received[i] == R.Payload(sent[i])
  {
    SenderSide(preA, actsA);
    acts := WireArrives(preB, Reached(preA, actsA).session.log, chunks);
    EverythingArrives(preA, actsA, preB, acts);
  }

  // ----- every stream id has a receiver -----

  function Opens(n: nat): (events: seq<S.Event>)
    ensures |events| == n
    ensures forall i :: 0 <= i < n ==> events[i] == S.OpenCall
  {
    seq(n, i requires 0 <= i < n => S.OpenCall)
  }

  lemma OpensFirst(n: nat)
    requires n > 0
    ensures Opens(n) != [] && Opens(n)[0] == S.OpenCall && Opens(n)[1..] == Opens(n - 1)
  {
  }

  lemma {:induction false} OpensRun(s: S.Session, n: nat)
    requires S.SessionOk(s) && !s.closed
    ensures var t := S.Run(s, Opens(n));
            !t.closed && t.nextID == s.nextID + 2 * n && t.dispatched == s.dispatched && MessageBytes(Opens(n)) == []
    decreases n
  {
    if n == 0 {
      assert Opens(0) == [];
    } else {
      OpensFirst(n);
      S.SessionStepOk(s, S.OpenCall);
      OpensRun(S.Open(s), n - 1);
      ConcatEmpty(MessageBytes(Opens(n - 1)));
    }
  }

  // A session that has opened n streams and nothing else is a receiver for the next one, whose id is
  // the (n + 1)-st odd number.
  lemma OpensReceive(n: nat)
    ensures !After(Opens(n)).closed && After(Opens(n)).nextID == 2 * n + 1 && Unused(Opens(n))
    ensures MessageBytes(Opens(n)) == []
  {
    S.NewSessionOk();
    OpensRun(S.NewSession(), n);
    StartLoop(Opens(n));
  }

  // So every sender whose frames end nothing can be heard out, on whatever stream of its session.
  lemma EverySenderHeardOut(preA: seq<S.Event>, actsA: seq<Act>, chunks: seq<seq<Byte>>)
    returns (preB: seq<S.Event>, acts: seq<Act>)
    requires !After(preA).closed && SendsCleanly(preA, actsA)
    requires Fits(Reached(preA, actsA).session.log)
    requires Gentle(Reached(preA, actsA).session.log, After(preA).nextID)
    requires NoFins(Reached(preA, actsA).session.log, After(preA).nextID)
    requires A.AllSendable(DataFrames(Reached(preA, actsA).m.done)) && Reached(preA, actsA).m.tx.Between?
    requires Flatten(chunks) == Wire(Reached(preA, actsA).session.log)
    ensures !After(preB).closed && After(preA).nextID == After(preB).nextID && Unused(preB)
    ensures BytesIn(preB, acts) == Wire(Reached(preA, actsA).session.log)
    ensures BothParked(Reached(preB, acts), After(preB).nextID)
    ensures var sent, received := Reached(preA, actsA).m.done, BeforeFailure(Reached(preB, acts).m.results);
            |received| == |sent| && forall i :: 0 <= i < |received| ==> received[i] == R.Payload(sent[i])
  {
    var n := After(preA).nextID / 2;
    AfterIds(preA);
    preB := Opens(n);
    OpensReceive(n);
    ConcatEmpty(Flatten(chunks));
    acts := SenderHeardOut(preA, actsA, preB, chunks);
  }
}
