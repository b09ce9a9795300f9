/** The incremental read loop refines the one-shot parse of everything that arrived, whatever the
    messages the bytes come in and whatever else happens to the session in between. */
module SessionParsing {
  import opened Bytes
  import opened Records
  import opened YamuxFrames
  import opened Sessions
  import Buffers
  import P = Pulls

  predicate IsGoAway(r: Record) {
    |r.header| == YAMUX_HEADER_SIZE && r.header[1] == TYPE_GO_AWAY
  }

  // The loop stops at the first GoAway.
  predicate GoAwayLast(rs: seq<Record>) {
    forall i :: 0 <= i < |rs| - 1 ==> !IsGoAway(rs[i])
  }

  predicate LoopInv(s: Session) {
    && AllValid(YamuxFormat, s.dispatched)
    && s.dispatched <= Split(YamuxFormat, s.buf.accepted)
    && (s.phase.Idle? || s.buf.closed ==> s.closed)
    && GoAwayLast(s.dispatched)
    && (!s.phase.Idle? ==>
          && P.Aligned(YamuxFormat, s.buf, s.phase, s.dispatched)
          && (s.dispatched != [] ==> !IsGoAway(s.dispatched[|s.dispatched| - 1])))
  }

  // Only the loop itself moves it: a push or a close keeps the bytes aligned.
  lemma PushKeepsLoop(s: Session, data: seq<Byte>)
    requires P.Owns(YamuxFormat, s.buf, s.phase) && LoopInv(s)
    ensures LoopInv(OnMessage(s, data))
  {
    var c := Buffers.Push(s.buf, data);
    P.PushAccepted(s.buf, data);
    if !s.phase.Idle? {
      P.AlignedPush(YamuxFormat, s.buf, s.phase, s.dispatched, data);
    }
    SplitMonotone(YamuxFormat, s.buf.accepted, c.accepted);
    PrefixTransitive(s.dispatched, Split(YamuxFormat, s.buf.accepted), Split(YamuxFormat, c.accepted));
  }

  lemma CloseKeepsLoop(s: Session, t: Session, err: Option<Buffers.Error>)
    requires P.Owns(YamuxFormat, s.buf, s.phase) && LoopInv(s)
    requires t.phase == s.phase && t.dispatched == s.dispatched && t.closed
    requires t.buf == Buffers.Close(s.buf, err)
    ensures LoopInv(t)
  {
    if !s.phase.Idle? {
      P.AlignedClose(YamuxFormat, s.buf, s.phase, s.dispatched, err);
    }
  }

  lemma DispatchKeepsLoop(s: Session, f: Frame)
    requires StreamsOk(s)
    ensures var t := Dispatch(s, f);
            && t.buf == s.buf && t.phase == s.phase && t.dispatched == s.dispatched
            && (t.closed <==> s.closed || f.typ == TYPE_GO_AWAY)
  {
  }

  lemma GoAwayAppend(rs: seq<Record>, r: Record)
    requires GoAwayLast(rs) && (rs != [] ==> !IsGoAway(rs[|rs| - 1]))
    ensures GoAwayLast(rs + [r])
  {
  }

  lemma HandleRecordKeeps(s: Session, r: Record)
    requires StreamsOk(s) && Valid(YamuxFormat, r)
    requires LoopInv(s) && !s.phase.Idle?
    requires P.Aligned(YamuxFormat, s.buf, P.Idle, s.dispatched + [r])
    ensures LoopInv(HandleRecord(s, r))
  {
    var f := FromRecord(r);
    DispatchKeepsLoop(s, f);
    var t := HandleRecord(s, r);
    var done := s.dispatched + [r];
    P.AlignedParse(YamuxFormat, s.buf, P.Idle, done);
    GoAwayAppend(s.dispatched, r);
    if !t.phase.Idle? {
      P.AlignedBegin(YamuxFormat, s.buf, done);
      P.AlignedParse(YamuxFormat, t.buf, t.phase, done);
    }
  }

  lemma ResumeLoopKeeps(s: Session)
    requires SessionOk(s) && LoopInv(s) && P.Ready(s.buf, s.phase)
    ensures LoopInv(ResumeLoop(s))
    ensures ResumeLoop(s).buf.accepted == s.buf.accepted
  {
    P.OwnsContinue(YamuxFormat, s.buf, s.phase);
    P.AlignedContinue(YamuxFormat, s.buf, s.phase, s.dispatched);
    match P.Continue(YamuxFormat, s.buf, s.phase)
    case Suspended(buf, phase) => P.AlignedParse(YamuxFormat, buf, phase, s.dispatched);
    case Raised(_) =>
    case Got(r) =>
      HandleRecordKeeps(s, r);
      DispatchKeepsLoop(s, FromRecord(r));
  }

  lemma StepKeepsLoop(s: Session, e: Event)
    requires SessionOk(s) && LoopInv(s)
    ensures LoopInv(Step(s, e))
  {
    match e
    case LoopResumes =>
      if P.Ready(s.buf, s.phase) {
        ResumeLoopKeeps(s);
      }
    case Message(data) => PushKeepsLoop(s, data);
    case CloseCall =>
      if !s.closed {
        CloseKeepsLoop(s, Step(s, e), Some(Buffers.Failure("session closed")));
      }
    case WsClose => CloseKeepsLoop(s, Step(s, e), Some(Buffers.Failure("WebSocket closed")));
    case WsError => CloseKeepsLoop(s, Step(s, e), Some(Buffers.Failure("WebSocket error")));
    case OpenCall =>
    case StreamCall(_, _) =>
  }

  // ----- the loop of a closed session -----

  // What the loop may still dispatch: the frame whose header it has begun to read.
  function Left(s: Session): nat {
    if s.phase.Idle? then 0 else 1
  }

  lemma ClosedLoop(s: Session)
    requires SessionOk(s) && s.closed && P.Ready(s.buf, s.phase)
    ensures var t := ResumeLoop(s);
            && t.closed && s.dispatched <= t.dispatched && |t.dispatched| + Left(t) <= |s.dispatched| + Left(s)
  {
    P.OwnsContinue(YamuxFormat, s.buf, s.phase);
    match P.Continue(YamuxFormat, s.buf, s.phase)
    case Got(r) => DispatchKeepsLoop(s, FromRecord(r));
    case _ =>
  }

  lemma ClosedStep(s: Session, e: Event)
    requires SessionOk(s) && s.closed
    ensures var t := Step(s, e);
            && t.closed && s.dispatched <= t.dispatched && |t.dispatched| + Left(t) <= |s.dispatched| + Left(s)
  {
    if e.LoopResumes? && P.Ready(s.buf, s.phase) {
      ClosedLoop(s);
    }
  }

  // However a session was closed, and whatever still arrives or is called: its read loop handles at most
  // the one frame it was reading, and none once it has ended.
  lemma {:induction false} ClosedLoopEnds(s: Session, events: seq<Event>)
    requires SessionOk(s) && s.closed
    ensures var t := Run(s, events);
            && t.closed && s.dispatched <= t.dispatched
            && |t.dispatched| <= |s.dispatched| + (if s.phase.Idle? then 0 else 1)
            && |t.dispatched| + Left(t) <= |s.dispatched| + Left(s)
    decreases |events|
  {
    if events != [] {
      var t := Step(s, events[0]);
      SessionStepOk(s, events[0]);
      ClosedStep(s, events[0]);
      ClosedLoopEnds(t, events[1..]);
      PrefixTransitive(s.dispatched, t.dispatched, Run(t, events[1..]).dispatched);
    }
  }

  // A closed session has ended its loop, or closed the buffer the loop reads from.
  predicate LoopReleased(s: Session) {
    s.closed ==> s.phase.Idle? || s.buf.closed
  }

  lemma LoopStaysReleased(s: Session)
    requires SessionOk(s) && LoopReleased(s) && P.Ready(s.buf, s.phase)
    ensures LoopReleased(ResumeLoop(s))
  {
    P.OwnsContinue(YamuxFormat, s.buf, s.phase);
    match P.Continue(YamuxFormat, s.buf, s.phase)
    case Got(r) => DispatchKeepsLoop(s, FromRecord(r));
    case _ =>
  }

  lemma StepReleased(s: Session, e: Event)
    requires SessionOk(s) && LoopReleased(s)
    ensures LoopReleased(Step(s, e))
  {
    if e.LoopResumes? && P.Ready(s.buf, s.phase) {
      LoopStaysReleased(s);
    }
  }

  lemma {:induction false} RunReleased(s: Session, events: seq<Event>)
    requires SessionOk(s) && LoopReleased(s)
    ensures LoopReleased(Run(s, events))
    decreases |events|
  {
    if events != [] {
      SessionStepOk(s, events[0]);
      StepReleased(s, events[0]);
      RunReleased(Step(s, events[0]), events[1..]);
    }
  }

  // However a session is closed - close(), onclose, onerror, a GoAway - its read loop does not hang: it is
  // never parked on a closed session, and once the engine has continued it as far as it goes it has ended.
  lemma ClosedLoopNeverHangs(events: seq<Event>)
    ensures SessionOk(NewSession())
    ensures var t := Run(NewSession(), events);
            t.closed ==> t.buf.waiting.None? && (!P.Ready(t.buf, t.phase) ==> t.phase.Idle?)
  {
    NewSessionOk();
    RunReleased(NewSession(), events);
    assert SessionOk(Run(NewSession(), events));
  }

  // ----- what arrived -----

  function MessageBytes(events: seq<Event>): seq<Byte> {
    if events == [] then []
    else (if events[0].Message? then events[0].data else []) + MessageBytes(events[1..])
  }

  // A step takes in the bytes of a message unless the buffer is closed, and nothing reopens it.
  lemma StepAccepts(s: Session, e: Event)
    requires SessionOk(s) && LoopInv(s)
    ensures var t := Step(s, e);
            && (s.buf.closed ==> t.buf.closed)
            && t.buf.accepted == s.buf.accepted + (if e.Message? && !s.buf.closed then e.data else [])
  {
    var t := Step(s, e);
    assert s.buf.accepted + [] == s.buf.accepted;
    match e
    case LoopResumes =>
      if P.Ready(s.buf, s.phase) {
        ResumeLoopKeeps(s);
        ResumeKeepsClosed(s);
      }
    case Message(_) =>
    case _ =>
  }

  lemma ResumeKeepsClosed(s: Session)
    requires SessionOk(s) && P.Ready(s.buf, s.phase)
    ensures s.buf.closed ==> ResumeLoop(s).buf.closed
  {
    P.OwnsContinue(YamuxFormat, s.buf, s.phase);
    match P.Continue(YamuxFormat, s.buf, s.phase)
    case Got(r) => DispatchKeepsLoop(s, FromRecord(r));
    case _ =>
  }

  // ----- the refinement -----

  lemma {:induction false} RunKeepsLoop(s: Session, events: seq<Event>)
    requires SessionOk(s) && LoopInv(s)
    ensures LoopInv(Run(s, events))
    ensures !Run(s, events).buf.closed ==> !s.buf.closed && Run(s, events).buf.accepted == s.buf.accepted + MessageBytes(events)
    ensures Run(s, events).buf.accepted <= s.buf.accepted + MessageBytes(events)
    decreases |events|
  {
    if events == [] {
      assert s.buf.accepted + [] == s.buf.accepted;
    } else {
      var e, rest := events[0], events[1..];
      SessionStepOk(s, e);
      StepKeepsLoop(s, e);
      StepAccepts(s, e);
      var t := Step(s, e);
      RunKeepsLoop(t, rest);
      var now := if e.Message? then e.data else [];
      ConcatAssociative(s.buf.accepted, now, MessageBytes(rest));
      if s.buf.closed {
        ClosedAcceptsNothing(t, rest);
        assert t.buf.accepted <= s.buf.accepted + MessageBytes(events);
      }
    }
  }

  lemma {:induction false} ClosedAcceptsNothing(s: Session, events: seq<Event>)
    requires SessionOk(s) && LoopInv(s) && s.buf.closed
    ensures Run(s, events).buf.accepted == s.buf.accepted
    decreases |events|
  {
    if events != [] {
      SessionStepOk(s, events[0]);
      StepKeepsLoop(s, events[0]);
      StepAccepts(s, events[0]);
      ClosedAcceptsNothing(Step(s, events[0]), events[1..]);
    }
  }

  lemma NewSessionLoop()
    ensures SessionOk(NewSession()) && LoopInv(NewSession())
  {
    NewSessionOk();
    assert RawAll([]) + ([] + []) == [];
    assert P.InHand(NewSession().buf, P.WantHeader) == [];
  }

  function DispatchedFrames(s: Session): seq<Frame>
    requires AllValid(YamuxFormat, s.dispatched)
  {
    FromRecords(s.dispatched)
  }

  // For every run: the frames dispatched are, in order, the front of the one-shot parse of all bytes
  // that arrived.  While the session is open and its loop has caught up (it is parked), they are all
  // of that parse, and what the loop holds suspended is exactly the unparsed tail.
  lemma IncrementalParseRefinesOneShot(events: seq<Event>)
    ensures SessionOk(NewSession())
    ensures var t := Run(NewSession(), events);
            && AllValid(YamuxFormat, t.dispatched)
            && DispatchedFrames(t) <= ParseFrames(MessageBytes(events))
            && (!t.closed && t.buf.waiting.Some? ==>
                  && DispatchedFrames(t) == ParseFrames(MessageBytes(events))
                  && P.InHand(t.buf, t.phase) + t.buf.data == Tail(YamuxFormat, MessageBytes(events)))
  {
    NewSessionLoop();
    var s := NewSession();
    RunKeepsLoop(s, events);
    var t, bytes := Run(s, events), MessageBytes(events);
    assert s.buf.accepted + bytes == bytes;
    SplitMonotone(YamuxFormat, t.buf.accepted, bytes);
    PrefixTransitive(t.dispatched, Split(YamuxFormat, t.buf.accepted), Split(YamuxFormat, bytes));
    PrefixFrames(t.dispatched, bytes);
    if !t.closed && t.buf.waiting.Some? {
      P.ParkedMeansParsed(YamuxFormat, t.buf, t.phase, t.dispatched);
    }
  }

  lemma PrefixFrames(rs: seq<Record>, bytes: seq<Byte>)
    requires AllValid(YamuxFormat, rs) && rs <= Split(YamuxFormat, bytes)
    ensures FromRecords(rs) <= ParseFrames(bytes)
  {
    SplitSound(YamuxFormat, bytes);
    forall i | 0 <= i < |rs| ensures FromRecords(rs)[i] == ParseFrames(bytes)[i] {
      assert rs[i] == Split(YamuxFormat, bytes)[i];
    }
  }
}
