/** The frames a session hands to the WebSocket: the frames of its streams, in each stream's order,
    and the session's own control frames between them. */
module SessionLogs {
  import opened Bytes
  import opened Records
  import opened YamuxFrames
  import opened Streams
  import opened StreamWrites
  import opened StreamCredit
  import S = Sessions
  import P = Pulls
  import T = SessionTables
  import opened SessionStreams

  // ----- one stream's frames -----

  predicate Belongs(f: Frame, id: nat) {
    S.ForStream(f) && f.id == id
  }

  function FramesFor(fs: seq<Frame>, id: nat): seq<Frame> {
    if fs == [] then []
    else (if Belongs(fs[0], id) then [fs[0]] else []) + FramesFor(fs[1..], id)
  }

  // The credit that window updates grant stream `id`.
  function CreditOf(fs: seq<Frame>, id: nat): nat {
    if fs == [] then 0
    else (if fs[0].typ == TYPE_WINDOW_UPDATE && fs[0].id == id then fs[0].length else 0) + CreditOf(fs[1..], id)
  }

  lemma {:induction false} FramesForConcat(a: seq<Frame>, b: seq<Frame>, id: nat)
    ensures FramesFor(a + b, id) == FramesFor(a, id) + FramesFor(b, id)
  {
    if a == [] {
      assert a + b == b;
    } else {
      FramesForConcat(a[1..], b, id);
      assert (a + b)[1..] == a[1..] + b;
      ConcatAssociative(if Belongs(a[0], id) then [a[0]] else [], FramesFor(a[1..], id), FramesFor(b, id));
    }
  }

  lemma {:induction false} CreditConcat(a: seq<Frame>, b: seq<Frame>, id: nat)
    ensures CreditOf(a + b, id) == CreditOf(a, id) + CreditOf(b, id)
  {
    if a == [] {
      assert a + b == b;
    } else {
      CreditConcat(a[1..], b, id);
      assert (a + b)[1..] == a[1..] + b;
    }
  }

  // Data and credit of a stream are those of its own frames.
  lemma {:induction false} OwnFramesCarry(fs: seq<Frame>, id: nat)
    ensures DataOf(FramesFor(fs, id), id) == DataOf(fs, id)
    ensures CreditOf(FramesFor(fs, id), id) == CreditOf(fs, id)
  {
    if fs != [] {
      OwnFramesCarry(fs[1..], id);
      var own := FramesFor(fs[1..], id);
      if Belongs(fs[0], id) {
        assert ([fs[0]] + own)[1..] == own;
      } else {
        assert [] + own == own;
      }
    }
  }

  lemma FramesForOne(f: Frame, id: nat)
    ensures FramesFor([f], id) == if Belongs(f, id) then [f] else []
  {
    assert [f][1..] == [];
  }

  // ----- the log is made of the streams' frames -----

  function Syn(id: nat): Frame {
    Frame(TYPE_WINDOW_UPDATE, FLAG_SYN, id, INITIAL_WINDOW, [])
  }

  // The log's frames of stream `id` are its SYN and then every frame the stream sent, in order; there
  // are none for an id not created.
  predicate LogInv(s: S.Session, id: nat) {
    FramesFor(s.log, id) == if id in s.created then [Syn(id)] + Frames(s.created[id].sent) else []
  }

  predicate LogShaped(log: seq<Frame>) {
    forall i :: 0 <= i < |log| ==> WellShaped(log[i])
  }

  // The frames of a stream step, seen from any stream.
  lemma NewFramesFor(a: Stream, b: Stream, id: nat)
    requires a.sent <= b.sent && |b.sent| <= |a.sent| + 1
    requires forall f :: f in NewFrames(a, b) ==> S.ForStream(f) && f.id == a.id
    ensures FramesFor(NewFrames(a, b), id) == if id == a.id then NewFrames(a, b) else []
    ensures Frames(b.sent) == Frames(a.sent) + NewFrames(a, b)
  {
    if |b.sent| > |a.sent| {
      var x := b.sent[|a.sent|].frame;
      assert NewFrames(a, b) == [x];
      assert x in NewFrames(a, b);
      FramesForOne(x, id);
    }
  }

  lemma PutLog(s: S.Session, k: nat, b: Stream, id: nat)
    requires k in s.created && s.created[k].id == k && LogInv(s, id) && LogShaped(s.log)
    requires s.created[k].sent <= b.sent && |b.sent| <= |s.created[k].sent| + 1
    requires forall f :: f in NewFrames(s.created[k], b) ==> WellShaped(f) && S.ForStream(f) && f.id == k
    ensures LogInv(S.Put(s, k, b), id) && LogShaped(S.Put(s, k, b).log)
  {
    var a, fs := s.created[k], NewFrames(s.created[k], b);
    NewFramesFor(a, b, id);
    FramesForConcat(s.log, fs, id);
    if id == k {
      ConcatAssociative([Syn(id)], Frames(a.sent), fs);
    } else {
      assert FramesFor(s.log, id) + [] == FramesFor(s.log, id);
    }
    assert LogShaped(s.log + fs) by {
      forall i | 0 <= i < |fs| ensures WellShaped(fs[i]) {
        assert fs[i] in fs;
      }
    }
  }

  lemma AfterFrameShaped(t: Stream, f: Frame)
    requires Ok(t)
    ensures var u := S.AfterFrame(t, f);
            && t.sent <= u.sent && |u.sent| <= |t.sent| + 1 && u.id == t.id
            && forall g :: g in NewFrames(t, u) ==> WellShaped(g) && S.ForStream(g) && g.id == t.id
  {
    T.AfterFrameSent(t, f);
    S.AfterFrameOk(t, f);
    StepEmits(t, DataEvent(f.payload));
  }

  // A frame of the session itself.
  lemma ControlFrameLog(s: S.Session, f: Frame, id: nat)
    requires LogShaped(s.log) && WellShaped(f) && !Belongs(f, id)
    ensures FramesFor(s.log + [f], id) == FramesFor(s.log, id) && LogShaped(s.log + [f])
  {
    FramesForConcat(s.log, [f], id);
    FramesForOne(f, id);
    assert FramesFor(s.log, id) + [] == FramesFor(s.log, id);
  }

  lemma ResetAllLog(s: S.Session, id: nat)
    requires S.StreamsOk(s) && LogInv(s, id)
    ensures LogInv(S.ResetAll(s), id) && S.ResetAll(s).log == s.log
  {
  }

  lemma DispatchLog(s: S.Session, f: Frame, id: nat)
    requires S.StreamsOk(s) && T.IdsInv(s) && LogInv(s, id) && LogShaped(s.log)
    ensures LogInv(S.Dispatch(s, f), id) && LogShaped(S.Dispatch(s, f).log)
  {
    if S.ForStream(f) {
      if f.id in s.table {
        AfterFrameShaped(s.created[f.id], f);
        PutLog(s, f.id, S.AfterFrame(s.created[f.id], f), id);
      }
    } else if f.typ == TYPE_PING {
      ControlFrameLog(s, Frame(TYPE_PING, FLAG_ACK, 0, f.length, []), id);
    } else if f.typ == TYPE_GO_AWAY {
      ResetAllLog(s.(closed := true), id);
    }
  }

  lemma SynLog(log: seq<Frame>, id: nat)
    requires FramesFor(log, id) == []
    ensures FramesFor(log + [Syn(id)], id) == [Syn(id)] + Frames([])
  {
    FramesForConcat(log, [Syn(id)], id);
    FramesForOne(Syn(id), id);
  }

  lemma OtherSynLog(log: seq<Frame>, other: nat, id: nat)
    requires other != id
    ensures FramesFor(log + [Syn(other)], id) == FramesFor(log, id)
  {
    FramesForConcat(log, [Syn(other)], id);
    FramesForOne(Syn(other), id);
    ConcatEmpty(FramesFor(log, id));
  }

  lemma OpenShape(s: S.Session)
    requires LogShaped(s.log)
    ensures LogShaped(s.log + [Syn(s.nextID)])
  {
  }

  lemma OpenOwnLog(s: S.Session)
    requires !s.closed && s.nextID !in s.created && LogInv(s, s.nextID)
    ensures LogInv(S.Open(s), s.nextID)
  {
    SynLog(s.log, s.nextID);
    assert S.Open(s).created[s.nextID].sent == [];
  }

  lemma OpenOtherLog(s: S.Session, id: nat)
    requires !s.closed && id != s.nextID && LogInv(s, id)
    ensures LogInv(S.Open(s), id)
  {
    OtherSynLog(s.log, s.nextID, id);
  }

  lemma OpenLog(s: S.Session, id: nat)
    requires !s.closed && s.nextID !in s.created && LogInv(s, id) && LogShaped(s.log)
    ensures LogInv(S.Open(s), id) && LogShaped(S.Open(s).log)
  {
    OpenShape(s);
    if id == s.nextID {
      OpenOwnLog(s);
    } else {
      OpenOtherLog(s, id);
    }
  }

  lemma CloseLog(s: S.Session, id: nat)
    requires S.SessionOk(s) && LogInv(s, id) && LogShaped(s.log)
    ensures LogInv(S.Close(s), id) && LogShaped(S.Close(s).log)
  {
    if !s.closed {
      var bye := Frame(TYPE_GO_AWAY, 0, 0, 0, []);
      ControlFrameLog(s, bye, id);
      ResetAllLog(s.(closed := true, log := s.log + [bye]), id);
    }
  }

  lemma LoopLog(s: S.Session, id: nat)
    requires S.SessionOk(s) && T.IdsInv(s) && LogInv(s, id) && LogShaped(s.log) && P.Ready(s.buf, s.phase)
    ensures LogInv(S.ResumeLoop(s), id) && LogShaped(S.ResumeLoop(s).log)
  {
    P.OwnsContinue(YamuxFormat, s.buf, s.phase);
    if FrameInHand(s).Some? {
      DispatchLog(s, FrameInHand(s).value, id);
    }
  }

  lemma CallLog(s: S.Session, k: nat, call: Event, id: nat)
    requires T.IdsInv(s) && k in s.created && LogInv(s, id) && LogShaped(s.log)
    ensures var t := S.Put(s, k, Step(s.created[k], call)); LogInv(t, id) && LogShaped(t.log)
  {
    StepEmits(s.created[k], call);
    PutLog(s, k, Step(s.created[k], call), id);
  }

  lemma StepLog(s: S.Session, e: S.Event, id: nat)
    requires S.SessionOk(s) && T.IdsInv(s) && LogInv(s, id) && LogShaped(s.log)
    ensures LogInv(S.Step(s, e), id) && LogShaped(S.Step(s, e).log)
  {
    match e
    case OpenCall =>
      if !s.closed {
        OpenLog(s, id);
      }
    case CloseCall => CloseLog(s, id);
    case WsClose => ResetAllLog(s.(closed := true, wsClosed := true), id);
    case LoopResumes =>
      if P.Ready(s.buf, s.phase) {
        LoopLog(s, id);
      }
    case StreamCall(k, call) =>
      if k in s.created && S.IsCall(call) {
        CallLog(s, k, call, id);
      }
    case _ =>
  }

  // In every run: every frame handed to the WebSocket is well shaped, and a stream's frames among
  // them are its SYN and exactly what that stream sent, in its order.
  lemma {:induction false} LogIsTheStreams(s: S.Session, events: seq<S.Event>, id: nat)
    requires S.SessionOk(s) && T.IdsInv(s) && LogInv(s, id) && LogShaped(s.log)
    ensures LogInv(S.Run(s, events), id) && LogShaped(S.Run(s, events).log)
    decreases |events|
  {
    if events != [] {
      S.SessionStepOk(s, events[0]);
      T.StepIds(s, events[0]);
      StepLog(s, events[0], id);
      LogIsTheStreams(S.Step(s, events[0]), events[1..], id);
    }
  }

  // ----- what follows for the data and the credit on the wire -----

  predicate AllOf(sent: seq<Sent>, id: nat) {
    forall i :: 0 <= i < |sent| ==> Belongs(sent[i].frame, id) && WellShaped(sent[i].frame)
  }

  lemma {:induction false} SentCarries(sent: seq<Sent>, id: nat)
    requires AllOf(sent, id)
    ensures DataOf(Frames(sent), id) == Payloads(sent)
    ensures CreditOf(Frames(sent), id) == Granted(sent)
  {
    if sent != [] {
      var front, x := sent[..|sent| - 1], sent[|sent| - 1];
      SentCarries(front, id);
      assert Frames(sent) == Frames(front) + [x.frame];
      DataOfAppend(Frames(front), x.frame, id);
      CreditConcat(Frames(front), [x.frame], id);
      assert CreditOf([x.frame], id) == if x.frame.typ == TYPE_WINDOW_UPDATE then x.frame.length else 0;
    }
  }

  lemma {:induction false} FramesForBelong(fs: seq<Frame>, id: nat)
    requires LogShaped(fs)
    ensures forall i :: 0 <= i < |FramesFor(fs, id)| ==>
              Belongs(FramesFor(fs, id)[i], id) && WellShaped(FramesFor(fs, id)[i])
  {
    if fs != [] {
      FramesForBelong(fs[1..], id);
    }
  }

  lemma LogBelongs(s: S.Session, id: nat)
    requires LogInv(s, id) && LogShaped(s.log) && id in s.created
    ensures AllOf(s.created[id].sent, id)
  {
    FramesForBelong(s.log, id);
    var sent := s.created[id].sent;
    forall i | 0 <= i < |sent| ensures Belongs(sent[i].frame, id) && WellShaped(sent[i].frame) {
      assert FramesFor(s.log, id)[i + 1] == sent[i].frame;
    }
  }

  // The DATA frames of stream `id` carry what the stream sent, nothing of any other stream; the
  // window updates carry the SYN's window and what the stream granted.
  lemma LogCarries(s: S.Session, id: nat)
    requires LogInv(s, id) && LogShaped(s.log)
    ensures DataOf(s.log, id) == if id in s.created then Payloads(s.created[id].sent) else []
    ensures CreditOf(s.log, id) == if id in s.created then INITIAL_WINDOW + Granted(s.created[id].sent) else 0
  {
    OwnFramesCarry(s.log, id);
    if id in s.created {
      var own := Frames(s.created[id].sent);
      LogBelongs(s, id);
      SentCarries(s.created[id].sent, id);
      assert ([Syn(id)] + own)[1..] == own;
      assert [] + DataOf(own, id) == DataOf(own, id);
    }
  }
}
