/** Writes on a stream that has left the session's table.  Resets settle readers, not writers: what the
    window does not cover by then is never sent, and the call of write never returns. */
module StrandedWrites {
  import opened Bytes
  import opened Records
  import opened YamuxFrames
  import opened Streams
  import opened StreamWrites
  import S = Sessions
  import P = Pulls
  import T = SessionTables
  import opened SessionStreams

  // Neither credit nor a further write has reached the stream.
  predicate Starves(t: Stream, u: Stream) {
    u.credit == t.credit && u.writes == t.writes && u.sendWindow <= t.sendWindow
  }

  // ----- outside the table a stream is closed -----

  predicate Gone(s: S.Session, id: nat) {
    id in s.created && id !in s.table && s.created[id].state.Closed?
  }

  predicate OutsideClosed(s: S.Session) {
    forall id :: id in s.created && id !in s.table ==> s.created[id].state.Closed?
  }

  lemma AfterFrameGone(t: Stream, f: Frame)
    ensures HasFlag(f.flags, FLAG_RST) ==> S.AfterFrame(t, f).state.Closed?
  {
  }

  lemma DispatchOutside(s: S.Session, f: Frame)
    requires S.StreamsOk(s) && OutsideClosed(s)
    ensures OutsideClosed(S.Dispatch(s, f))
  {
    if S.ForStream(f) && f.id in s.table {
      AfterFrameGone(s.created[f.id], f);
    } else if f.typ == TYPE_GO_AWAY {
      ResetAllOutside(s.(closed := true));
    }
  }

  lemma CallOutside(t: Stream, call: Event)
    requires S.IsCall(call) && t.state.Closed?
    ensures Step(t, call).state.Closed? && Starves(t, Step(t, call))
  {
  }

  lemma ResumeOutside(s: S.Session)
    requires S.SessionOk(s) && P.Ready(s.buf, s.phase) && OutsideClosed(s)
    ensures OutsideClosed(S.ResumeLoop(s))
  {
    P.OwnsContinue(YamuxFormat, s.buf, s.phase);
    match P.Continue(YamuxFormat, s.buf, s.phase)
    case Got(r) => DispatchOutside(s, FromRecord(r));
    case _ =>
  }

  lemma PutOutside(s: S.Session, k: nat, u: Stream)
    requires OutsideClosed(s) && k in s.created && (s.created[k].state.Closed? ==> u.state.Closed?)
    ensures OutsideClosed(S.Put(s, k, u))
  {
  }

  lemma ResetAllOutside(s: S.Session)
    requires OutsideClosed(s)
    ensures OutsideClosed(S.ResetAll(s))
  {
  }

  lemma StepOutside(s: S.Session, e: S.Event)
    requires S.SessionOk(s) && OutsideClosed(s)
    ensures OutsideClosed(S.Step(s, e))
  {
    match e
    case LoopResumes =>
      if P.Ready(s.buf, s.phase) {
        ResumeOutside(s);
      }
    case StreamCall(k, call) =>
      if k in s.created && S.IsCall(call) {
        if s.created[k].state.Closed? {
          CallOutside(s.created[k], call);
        }
        PutOutside(s, k, Step(s.created[k], call));
      }
    case CloseCall => ResetAllOutside(s.(closed := true, log := s.log + [Frame(TYPE_GO_AWAY, 0, 0, 0, [])]));
    case WsClose => ResetAllOutside(s.(closed := true, wsClosed := true));
    case _ =>
  }

  // Every stream that a session has created and that is no longer in its table is closed.
  lemma {:induction false} RunOutside(s: S.Session, events: seq<S.Event>)
    requires S.SessionOk(s) && T.IdsInv(s) && OutsideClosed(s)
    ensures OutsideClosed(S.Run(s, events))
    decreases |events|
  {
    if events != [] {
      S.SessionStepOk(s, events[0]);
      T.StepIds(s, events[0]);
      StepOutside(s, events[0]);
      RunOutside(S.Step(s, events[0]), events[1..]);
    }
  }

  // ----- nothing reaches it any more -----

  lemma DispatchStarves(s: S.Session, f: Frame, id: nat)
    requires S.StreamsOk(s) && Gone(s, id)
    ensures var t := S.Dispatch(s, f); Gone(t, id) && t.created[id] == s.created[id]
  {
  }

  lemma ResumeStarves(s: S.Session, id: nat)
    requires S.SessionOk(s) && P.Ready(s.buf, s.phase) && Gone(s, id)
    ensures var t := S.ResumeLoop(s); Gone(t, id) && t.created[id] == s.created[id]
  {
    P.OwnsContinue(YamuxFormat, s.buf, s.phase);
    match P.Continue(YamuxFormat, s.buf, s.phase)
    case Got(r) => DispatchStarves(s, FromRecord(r), id);
    case _ =>
  }

  lemma CallStarves(t: Stream, call: Event)
    requires S.IsCall(call) && t.state.Closed? && SendInv(t)
    ensures Step(t, call).state.Closed? && Starves(t, Step(t, call)) && SendInv(Step(t, call))
  {
    CallOutside(t, call);
    StepKeeps(t, call);
  }

  // Only a call on the stream itself still changes it.
  lemma StepGone(s: S.Session, e: S.Event, id: nat)
    requires S.SessionOk(s) && T.IdsInv(s) && Gone(s, id)
    ensures var t := S.Step(s, e);
            && id in t.created && id !in t.table
            && (t.created[id] == s.created[id]
                || (e.StreamCall? && S.IsCall(e.call) && t.created[id] == Step(s.created[id], e.call)))
  {
    if e.LoopResumes? && P.Ready(s.buf, s.phase) {
      ResumeStarves(s, id);
    }
  }

  lemma StepStarves(s: S.Session, e: S.Event, id: nat)
    requires S.SessionOk(s) && T.IdsInv(s) && Gone(s, id) && SendInv(s.created[id])
    ensures var t := S.Step(s, e); Gone(t, id) && Starves(s.created[id], t.created[id]) && SendInv(t.created[id])
  {
    StepGone(s, e, id);
    if e.StreamCall? && S.IsCall(e.call) {
      CallStarves(s.created[id], e.call);
    }
  }

  lemma {:induction false} RunStarves(s: S.Session, events: seq<S.Event>, id: nat)
    requires S.SessionOk(s) && T.IdsInv(s) && Gone(s, id) && SendInv(s.created[id])
    ensures var t := S.Run(s, events); Gone(t, id) && Starves(s.created[id], t.created[id]) && SendInv(t.created[id])
    decreases |events|
  {
    if events != [] {
      S.SessionStepOk(s, events[0]);
      T.StepIds(s, events[0]);
      StepStarves(s, events[0], id);
      RunStarves(S.Step(s, events[0]), events[1..], id);
    }
  }

  // ----- what strands -----

  // What the window does not cover of the writes in hand.
  function Uncovered(t: Stream): nat {
    if Remaining(Pending(t)) <= t.sendWindow then 0 else Remaining(Pending(t)) - t.sendWindow
  }

  // The books say what is left of the same writes on the same credit: never less than what was
  // uncovered, and just that once no woken write waits for the engine.
  lemma LeftOver(t: Stream, u: Stream)
    requires Ok(u) && SendInv(t) && SendInv(u) && Starves(t, u)
    ensures Uncovered(t) <= Remaining(Pending(u)) <= Remaining(Pending(t))
    ensures u.woken == [] ==> Remaining(Pending(u)) == Uncovered(t)
    ensures Pending(u) == [] <==> Remaining(Pending(u)) == 0
  {
    PendingSuspendable(u);
    if u.woken == [] {
      AtRest(u);
    }
  }

  // On a stream that has left the table, whatever happens afterwards: at least as many bytes stay unsent
  // as the window did not cover when it left, exactly as many once the engine has continued every woken
  // write; so all calls of write return, once continued, exactly when the window covered them all.
  lemma BlockedWritesStrandExactly(s: S.Session, events: seq<S.Event>, id: nat)
    requires S.SessionOk(s) && T.IdsInv(s) && Gone(s, id) && SendInv(s.created[id])
    ensures id in S.Run(s, events).created && id !in S.Run(s, events).table
    ensures var t, u := s.created[id], S.Run(s, events).created[id];
            && Uncovered(t) <= Remaining(Pending(u)) <= Remaining(Pending(t))
            && (u.woken == [] ==>
                  && Remaining(Pending(u)) == Uncovered(t)
                  && (Pending(u) == [] <==> Remaining(Pending(t)) <= t.sendWindow))
  {
    RunStarves(s, events, id);
    LeftOver(s.created[id], S.Run(s, events).created[id]);
  }

  // The hypotheses hold of every stream outside the table, in every run.
  lemma GoneInEveryRun(events: seq<S.Event>, id: nat)
    requires S.SessionOk(S.NewSession())
    requires id in S.Run(S.NewSession(), events).created && id !in S.Run(S.NewSession(), events).table
    ensures var s := S.Run(S.NewSession(), events);
            S.SessionOk(s) && T.IdsInv(s) && Gone(s, id) && SendInv(s.created[id])
  {
    T.RunIds(S.NewSession(), events);
    RunOutside(S.NewSession(), events);
    EveryStreamKeepsItsBooks(events, id);
  }

  // ----- a write over the window, then close() -----

  lemma RunThree(s: S.Session, a: S.Event, b: S.Event, c: S.Event)
    requires S.SessionOk(s)
    ensures S.SessionOk(S.Step(s, a)) && S.SessionOk(S.Step(S.Step(s, a), b))
    ensures S.Run(s, [a, b, c]) == S.Step(S.Step(S.Step(s, a), b), c)
  {
    S.SessionStepOk(s, a);
    var t := S.Step(s, a);
    S.SessionStepOk(t, b);
    var u := S.Step(t, b);
    S.SessionStepOk(u, c);
    assert [a, b, c][1..] == [b, c] && [b, c][1..] == [c] && [c][1..] == [];
    assert S.Run(S.Step(u, c), []) == S.Step(u, c);
    assert S.Run(u, [c]) == S.Step(u, c);
  }

  function WriteThenClose(data: seq<Byte>): seq<S.Event> {
    [S.OpenCall, S.StreamCall(1, WriteEvent(data)), S.CloseCall]
  }

  lemma OverTheWindow(data: seq<Byte>)
    requires |data| > INITIAL_WINDOW
    ensures var t := Write(NewStream(1), data);
            && !WriteClosed(t) && t.woken == [] && t.waiters == [Waiter(Writer(0, data, INITIAL_WINDOW), 1)]
            && t.sendWindow == 0
  {
  }

  lemma OpenPutClose(u: Stream)
    ensures var s := S.Open(S.NewSession());
            && 1 in s.created && s.created[1] == NewStream(1)
            && var t := S.Close(S.Put(s, 1, u)); 1 in t.created && 1 !in t.table && t.created[1] == OnReset(u)
  {
  }

  lemma CallIsPut(s: S.Session, id: nat, call: Event)
    requires S.SessionOk(s) && id in s.created && S.IsCall(call)
    ensures S.Step(s, S.StreamCall(id, call)) == S.Put(s, id, Step(s.created[id], call))
  {
  }

  lemma ClosedWithWriter(data: seq<Byte>)
    ensures S.SessionOk(S.NewSession())
    ensures var s := S.Run(S.NewSession(), WriteThenClose(data));
            1 in s.created && 1 !in s.table && s.created[1] == OnReset(Write(NewStream(1), data))
  {
    S.NewSessionOk();
    var s, call := S.NewSession(), WriteEvent(data);
    RunThree(s, S.OpenCall, S.StreamCall(1, call), S.CloseCall);
    OpenPutClose(Step(NewStream(1), call));
    CallIsPut(S.Step(s, S.OpenCall), 1, call);
  }

  lemma StuckWriter(data: seq<Byte>)
    requires |data| > INITIAL_WINDOW
    ensures var t := OnReset(Write(NewStream(1), data)); t.sendWindow == 0 && Remaining(Pending(t)) == |data| - INITIAL_WINDOW
  {
    var w := Writer(0, data, INITIAL_WINDOW);
    OverTheWindow(data);
    assert Pending(OnReset(Write(NewStream(1), data))) == [w];
    RemainingAppend([], w);
    assert [] + [w] == [w];
  }

  // The case: a write of more than the window, then close().  The call of write never returns, whatever
  // happens afterwards, and the rest of its argument is never sent.
  lemma WriteNeverReturns(data: seq<Byte>, events: seq<S.Event>)
    requires |data| > INITIAL_WINDOW
    ensures S.SessionOk(S.NewSession())
    ensures var u := S.Run(S.Run(S.NewSession(), WriteThenClose(data)), events);
            1 in u.created && Remaining(Pending(u.created[1])) == |data| - INITIAL_WINDOW
  {
    ClosedWithWriter(data);
    StuckWriter(data);
    var s := S.Run(S.NewSession(), WriteThenClose(data));
    GoneInEveryRun(WriteThenClose(data), 1);
    BlockedWritesStrandExactly(s, events, 1);
  }

  // A write already woken strands too, when the window it was woken for does not cover it.
  lemma WokenWriteStrands(id: nat, data: seq<Byte>)
    requires |data| > INITIAL_WINDOW + 1
    ensures var t := OnReset(OnWindowUpdate(Write(NewStream(id), data), 1));
            && t.waiters == [] && t.woken == [Writer(0, data, INITIAL_WINDOW)]
            && Uncovered(t) == |data| - INITIAL_WINDOW - 1
  {
    var w := Writer(0, data, INITIAL_WINDOW);
    var s, t := Write(NewStream(id), data), OnReset(OnWindowUpdate(Write(NewStream(id), data), 1));
    assert s.waiters == [Waiter(w, 1)] && s.woken == [];
    PartitionOne(Waiter(w, 1), 1);
    assert [] + [w] == [w] && t.woken == [w] && Writers([]) == [];
    RemainingAppend([], w);
    assert Pending(t) == [w];
  }
}
