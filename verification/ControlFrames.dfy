/** The frames a session sends for itself, over whole runs: one answer for each ping, and a GoAway if
    close() found it open. */
module ControlFrames {
  import opened Bytes
  import opened Records
  import opened YamuxFrames
  import opened Streams
  import S = Sessions
  import P = Pulls
  import opened SessionParsing
  import opened SessionStreams
  import opened SessionLogs

  function OfType(fs: seq<Frame>, typ: nat): seq<Frame> {
    if fs == [] then []
    else OfType(fs[..|fs| - 1], typ) + (if fs[|fs| - 1].typ == typ then [fs[|fs| - 1]] else [])
  }

  lemma OfTypeAppend(fs: seq<Frame>, f: Frame, typ: nat)
    ensures OfType(fs + [f], typ) == OfType(fs, typ) + (if f.typ == typ then [f] else [])
  {
    assert (fs + [f])[..|fs|] == fs;
  }

  // What a stream sends is neither a ping nor a GoAway.
  lemma StreamFrames(log: seq<Frame>, t: Stream, u: Stream, typ: nat)
    requires t.sent <= u.sent && |u.sent| <= |t.sent| + 1 && typ > TYPE_WINDOW_UPDATE
    requires forall f :: f in NewFrames(t, u) ==> S.ForStream(f)
    ensures OfType(log + NewFrames(t, u), typ) == OfType(log, typ)
  {
    var fs := NewFrames(t, u);
    if fs == [] {
      ConcatEmpty(log);
    } else {
      assert fs[0] in fs;
      assert fs == [fs[0]];
      OfTypeAppend(log, fs[0], typ);
      ConcatEmpty(OfType(log, typ));
    }
  }

  lemma PutFrames(s: S.Session, id: nat, e: Event, typ: nat)
    requires id in s.created && typ > TYPE_WINDOW_UPDATE
    ensures OfType(S.Put(s, id, Step(s.created[id], e)).log, typ) == OfType(s.log, typ)
  {
    StepEmits(s.created[id], e);
    StreamFrames(s.log, s.created[id], Step(s.created[id], e), typ);
  }

  lemma OwnFrame(s: S.Session, f: Frame, typ: nat)
    requires S.StreamsOk(s) && f.id in s.table && S.ForStream(f) && typ > TYPE_WINDOW_UPDATE
    ensures OfType(S.Dispatch(s, f).log, typ) == OfType(s.log, typ)
  {
    AfterFrameShaped(s.created[f.id], f);
    StreamFrames(s.log, s.created[f.id], S.AfterFrame(s.created[f.id], f), typ);
  }

  // ----- pings -----

  // The answers to the pings among the frames: an ACK with the value of the ping, for each.
  function Answers(fs: seq<Frame>): seq<Frame> {
    if fs == [] then []
    else Answers(fs[..|fs| - 1]) + (if fs[|fs| - 1].typ == 2 then [Frame(2, 0x02, 0, fs[|fs| - 1].length, [])] else [])
  }

  lemma AnswersAppend(fs: seq<Frame>, f: Frame)
    ensures Answers(fs + [f]) == Answers(fs) + (if f.typ == 2 then [Frame(2, 0x02, 0, f.length, [])] else [])
  {
    assert (fs + [f])[..|fs|] == fs;
  }

  // The pings sent are the answers to the pings dispatched.
  predicate PingsAnswered(s: S.Session) {
    AllValid(YamuxFormat, s.dispatched) && OfType(s.log, 2) == Answers(DispatchedFrames(s))
  }

  lemma DispatchPings(s: S.Session, f: Frame)
    requires S.StreamsOk(s)
    ensures OfType(S.Dispatch(s, f).log, 2) == OfType(s.log, 2) + Answers([f])
  {
    ConcatEmpty<Frame>([]);
    AnswersAppend([], f);
    ConcatEmpty(OfType(s.log, 2));
    if S.ForStream(f) {
      if f.id in s.table {
        OwnFrame(s, f, 2);
      }
    } else if f.typ == 2 {
      OfTypeAppend(s.log, Frame(2, 0x02, 0, f.length, []), 2);
    }
  }

  lemma HandlePings(s: S.Session, r: Record)
    requires S.StreamsOk(s) && Valid(YamuxFormat, r) && PingsAnswered(s)
    ensures PingsAnswered(S.HandleRecord(s, r))
  {
    var f := FromRecord(r);
    DispatchPings(s, f);
    DispatchedGrows(s, r);
    FromRecordsAppend(s.dispatched, r);
    AnswersAppend(DispatchedFrames(s), f);
    AnswersAppend([], f);
    ConcatEmpty([f]);
  }

  lemma LoopPings(s: S.Session)
    requires S.SessionOk(s) && PingsAnswered(s) && P.Ready(s.buf, s.phase)
    ensures PingsAnswered(S.ResumeLoop(s))
  {
    P.OwnsContinue(YamuxFormat, s.buf, s.phase);
    match P.Continue(YamuxFormat, s.buf, s.phase)
    case Got(r) => HandlePings(s, r);
    case _ =>
  }

  lemma StepPings(s: S.Session, e: S.Event)
    requires S.SessionOk(s) && PingsAnswered(s)
    ensures PingsAnswered(S.Step(s, e))
  {
    ConcatEmpty(OfType(s.log, 2));
    match e
    case OpenCall => OfTypeAppend(s.log, Syn(s.nextID), 2);
    case CloseCall => OfTypeAppend(s.log, Frame(TYPE_GO_AWAY, 0, 0, 0, []), 2);
    case LoopResumes =>
      if P.Ready(s.buf, s.phase) {
        LoopPings(s);
      }
    case StreamCall(id, call) =>
      if id in s.created && S.IsCall(call) {
        PutFrames(s, id, call, 2);
      }
    case _ =>
  }

  // In every run: the pings a session sends are, in order, one for each ping it has dispatched, with the
  // same value, and no others.
  lemma {:induction false} RunPings(s: S.Session, events: seq<S.Event>)
    requires S.SessionOk(s) && PingsAnswered(s)
    ensures PingsAnswered(S.Run(s, events))
    decreases |events|
  {
    if events != [] {
      S.SessionStepOk(s, events[0]);
      StepPings(s, events[0]);
      RunPings(S.Step(s, events[0]), events[1..]);
    }
  }

  lemma EveryPingAnswered(events: seq<S.Event>)
    ensures S.SessionOk(S.NewSession())
    ensures var t := S.Run(S.NewSession(), events);
            AllValid(YamuxFormat, t.dispatched) && OfType(t.log, 2) == Answers(FromRecords(t.dispatched))
  {
    S.NewSessionOk();
    RunPings(S.NewSession(), events);
  }

  // ----- GoAway -----

  // Some call of close() finds the session open.
  predicate ClosedByCall(s: S.Session, events: seq<S.Event>)
    requires S.SessionOk(s)
    decreases |events|
  {
    events != [] &&
    ((events[0].CloseCall? && !s.closed) ||
     (S.SessionStepOk(s, events[0]); ClosedByCall(S.Step(s, events[0]), events[1..])))
  }

  lemma DispatchGoAway(s: S.Session, f: Frame)
    requires S.StreamsOk(s)
    ensures OfType(S.Dispatch(s, f).log, 3) == OfType(s.log, 3) && (s.closed ==> S.Dispatch(s, f).closed)
  {
    ConcatEmpty(OfType(s.log, 3));
    if S.ForStream(f) && f.id in s.table {
      OwnFrame(s, f, 3);
    } else if f.typ == TYPE_PING {
      OfTypeAppend(s.log, Frame(TYPE_PING, FLAG_ACK, 0, f.length, []), 3);
    }
  }

  lemma LoopGoAway(s: S.Session)
    requires S.SessionOk(s) && P.Ready(s.buf, s.phase)
    ensures OfType(S.ResumeLoop(s).log, 3) == OfType(s.log, 3) && (s.closed ==> S.ResumeLoop(s).closed)
  {
    P.OwnsContinue(YamuxFormat, s.buf, s.phase);
    match P.Continue(YamuxFormat, s.buf, s.phase)
    case Got(r) => DispatchGoAway(s, FromRecord(r));
    case _ =>
  }

  // The GoAway of close(), the session's last word about itself: termination without an error.
  lemma StepGoAway(s: S.Session, e: S.Event)
    requires S.SessionOk(s)
    ensures var t := S.Step(s, e);
            && (s.closed || e.CloseCall? ==> t.closed)
            && OfType(t.log, 3) == OfType(s.log, 3) + (if e.CloseCall? && !s.closed then [Frame(3, 0, 0, 0, [])] else [])
  {
    ConcatEmpty(OfType(s.log, 3));
    match e
    case OpenCall => OfTypeAppend(s.log, Syn(s.nextID), 3);
    case CloseCall => OfTypeAppend(s.log, Frame(3, 0, 0, 0, []), 3);
    case LoopResumes =>
      if P.Ready(s.buf, s.phase) {
        LoopGoAway(s);
      }
    case StreamCall(id, call) =>
      if id in s.created && S.IsCall(call) {
        PutFrames(s, id, call, 3);
      }
    case _ =>
  }

  lemma {:induction false} RunGoAway(s: S.Session, events: seq<S.Event>)
    requires S.SessionOk(s)
    ensures OfType(S.Run(s, events).log, 3) ==
            OfType(s.log, 3) + (if !s.closed && ClosedByCall(s, events) then [Frame(3, 0, 0, 0, [])] else [])
    ensures s.closed ==> !ClosedByCall(s, events)
    decreases |events|
  {
    ConcatEmpty(OfType(s.log, 3));
    if events != [] {
      var t := S.Step(s, events[0]);
      S.SessionStepOk(s, events[0]);
      StepGoAway(s, events[0]);
      RunGoAway(t, events[1..]);
      ConcatEmpty(OfType(t.log, 3));
    }
  }

  // In every run: one GoAway was sent if some call of close() found the session open, and none if not,
  // however the session ended.
  lemma GoAwayExactly(events: seq<S.Event>)
    ensures S.SessionOk(S.NewSession())
    ensures OfType(S.Run(S.NewSession(), events).log, 3) ==
            if ClosedByCall(S.NewSession(), events) then [Frame(3, 0, 0, 0, [])] else []
  {
    S.NewSessionOk();
    RunGoAway(S.NewSession(), events);
    ConcatEmpty([Frame(3, 0, 0, 0, [])]);
  }
}
