/** The stream table over whole runs: which ids it holds, what a frame can touch, and what shutdown
    leaves behind. */
module SessionTables {
  import opened Bytes
  import opened Records
  import opened YamuxFrames
  import opened Streams
  import S = Sessions
  import P = Pulls

  // ----- ids -----

  // Every stream sits under its own id, an odd number below the next one.
  predicate IdsInv(s: S.Session) {
    && s.nextID % 2 == 1
    && (forall id :: id in s.created ==> s.created[id].id == id && id % 2 == 1 && id < s.nextID)
    && s.table <= s.created.Keys
  }

  lemma StreamStepId(t: Stream, e: Event)
    ensures Step(t, e).id == t.id
  {
  }

  lemma DispatchIds(s: S.Session, f: Frame)
    requires S.StreamsOk(s) && IdsInv(s)
    ensures IdsInv(S.Dispatch(s, f)) && S.Dispatch(s, f).nextID == s.nextID
    ensures S.Dispatch(s, f).created.Keys == s.created.Keys
  {
    if S.ForStream(f) && f.id in s.table {
      S.AfterFrameOk(s.created[f.id], f);
    }
  }

  lemma ResumeIds(s: S.Session)
    requires S.SessionOk(s) && P.Ready(s.buf, s.phase) && IdsInv(s)
    ensures IdsInv(S.ResumeLoop(s)) && S.ResumeLoop(s).nextID == s.nextID
    ensures S.ResumeLoop(s).created.Keys == s.created.Keys
  {
    P.OwnsContinue(YamuxFormat, s.buf, s.phase);
    match P.Continue(YamuxFormat, s.buf, s.phase)
    case Got(r) => DispatchIds(s, FromRecord(r));
    case _ =>
  }

  lemma CallIds(s: S.Session, k: nat, call: Event)
    requires IdsInv(s) && k in s.created
    ensures var t := S.Put(s, k, Step(s.created[k], call));
            IdsInv(t) && t.created.Keys == s.created.Keys && t.nextID == s.nextID
  {
    StreamStepId(s.created[k], call);
  }

  // Ids are never reused: an open session gives the next stream an id above all earlier ones, and
  // no other step creates a stream.
  lemma StepIds(s: S.Session, e: S.Event)
    requires S.SessionOk(s) && IdsInv(s)
    ensures var t := S.Step(s, e);
            && IdsInv(t)
            && (if e.OpenCall? && !s.closed
                then s.nextID !in s.created && t.created.Keys == s.created.Keys + {s.nextID} && t.nextID == s.nextID + 2
                else t.created.Keys == s.created.Keys && t.nextID == s.nextID)
  {
    match e
    case LoopResumes =>
      if P.Ready(s.buf, s.phase) {
        ResumeIds(s);
      }
    case StreamCall(id, call) =>
      if id in s.created && S.IsCall(call) {
        CallIds(s, id, call);
      }
    case _ =>
  }

  lemma {:induction false} RunIds(s: S.Session, events: seq<S.Event>)
    requires S.SessionOk(s) && IdsInv(s)
    ensures IdsInv(S.Run(s, events))
    ensures s.nextID <= S.Run(s, events).nextID && s.created.Keys <= S.Run(s, events).created.Keys
    decreases |events|
  {
    if events != [] {
      S.SessionStepOk(s, events[0]);
      StepIds(s, events[0]);
      RunIds(S.Step(s, events[0]), events[1..]);
    }
  }

  // ----- a frame touches at most the stream it names -----

  predicate SameBut(s: S.Session, t: S.Session, id: nat) {
    && t.created.Keys == s.created.Keys
    && (forall k :: k in s.created && k != id ==> t.created[k] == s.created[k])
    && t.table - {id} == s.table - {id} && t.table <= s.table
  }

  // Frames of no other stream appear in the log either: only the named stream's own, or the answer
  // to a ping.
  predicate OnlyFrames(fs: seq<Frame>, id: nat) {
    forall i :: 0 <= i < |fs| ==> fs[i].id == id || (fs[i].typ == TYPE_PING && fs[i].id == 0)
  }

  // Only a payload makes the stream send something.
  lemma AfterFrameSent(t: Stream, f: Frame)
    requires Ok(t)
    ensures S.AfterFrame(t, f).sent == S.Maybe(t, S.HasPayload(f), DataEvent(f.payload)).sent
  {
  }

  lemma AfterFrameEmits(t: Stream, f: Frame)
    requires Ok(t)
    ensures var u := S.AfterFrame(t, f);
            && t.sent <= u.sent && |u.sent| <= |t.sent| + 1
            && OnlyFrames(NewFrames(t, u), t.id) && NoGoAway(NewFrames(t, u))
  {
    AfterFrameSent(t, f);
  }

  lemma PutIsLocal(s: S.Session, id: nat, t: Stream)
    requires id in s.created && s.created[id].sent <= t.sent
    ensures SameBut(s, S.Put(s, id, t), id)
    ensures S.Put(s, id, t).log[|s.log|..] == NewFrames(s.created[id], t)
  {
    var u := S.Put(s, id, t);
    assert u.created.Keys == s.created.Keys;
    assert u.log == s.log + NewFrames(s.created[id], t);
  }

  lemma NonInterference(s: S.Session, f: Frame)
    requires S.StreamsOk(s) && IdsInv(s) && f.typ != TYPE_GO_AWAY
    ensures var t := S.Dispatch(s, f);
            && SameBut(s, t, f.id)
            && t.closed == s.closed
            && s.log <= t.log && OnlyFrames(t.log[|s.log|..], f.id)
  {
    var t := S.Dispatch(s, f);
    if S.ForStream(f) && f.id in s.table {
      var u := S.AfterFrame(s.created[f.id], f);
      AfterFrameEmits(s.created[f.id], f);
      PutIsLocal(s, f.id, u);
      assert t.log == S.Put(s, f.id, u).log;
    } else if f.typ == TYPE_PING {
      assert t.log[|s.log|..] == [Frame(TYPE_PING, FLAG_ACK, 0, f.length, [])];
    } else {
      assert t == s;
    }
  }

  // Neither does a call on a stream.
  lemma CallsDoNotInterfere(s: S.Session, id: nat, call: Event)
    requires S.SessionOk(s) && IdsInv(s)
    ensures var t := S.Step(s, S.StreamCall(id, call));
            SameBut(s, t, id) && t.table == s.table && t.closed == s.closed && t.buf == s.buf
  {
    if id in s.created && S.IsCall(call) {
      StreamStepShut(s.created[id], call);
      PutIsLocal(s, id, Step(s.created[id], call));
    }
  }

  // ----- shutdown -----

  function GoAways(log: seq<Frame>): nat {
    if log == [] then 0 else GoAways(log[..|log| - 1]) + (if log[|log| - 1].typ == TYPE_GO_AWAY then 1 else 0)
  }

  lemma {:induction false} GoAwaysConcat(a: seq<Frame>, b: seq<Frame>)
    ensures GoAways(a + b) == GoAways(a) + GoAways(b)
  {
    if b == [] {
      assert a + b == a;
    } else {
      GoAwaysConcat(a, b[..|b| - 1]);
      assert (a + b)[..|a + b| - 1] == a + b[..|b| - 1];
    }
  }

  // A closed session has an empty table unless it was closed by onerror and onclose is still to
  // come; streams outside the table have a closed buffer, so no reader is parked on them; at most
  // one GoAway went out, and only from a session closed by close().
  predicate ShutInv(s: S.Session) {
    && (s.closed && s.table != {} ==> s.erred && !s.wsClosed)
    && (forall id :: id in s.created && id !in s.table ==> s.created[id].recv.closed)
    && GoAways(s.log) <= 1
    && (GoAways(s.log) == 1 ==> s.closed)
    && (s.erred || s.wsClosed ==> s.closed)
  }

  lemma ResetAllShut(s: S.Session)
    requires S.StreamsOk(s)
    requires forall id :: id in s.created && id !in s.table ==> s.created[id].recv.closed
    ensures forall id :: id in s.created ==> S.ResetAll(s).created[id].recv.closed
  {
  }

  predicate NoGoAway(fs: seq<Frame>) {
    forall i :: 0 <= i < |fs| ==> fs[i].typ != TYPE_GO_AWAY
  }

  lemma {:induction false} NoneCounted(fs: seq<Frame>)
    requires NoGoAway(fs)
    ensures GoAways(fs) == 0
  {
    if fs != [] {
      NoneCounted(fs[..|fs| - 1]);
    }
  }

  lemma PutShut(s: S.Session, id: nat, t: Stream)
    requires ShutInv(s) && id in s.created
    requires s.created[id].sent <= t.sent && NoGoAway(NewFrames(s.created[id], t))
    requires s.created[id].recv.closed ==> t.recv.closed
    ensures ShutInv(S.Put(s, id, t))
  {
    GoAwaysConcat(s.log, NewFrames(s.created[id], t));
    NoneCounted(NewFrames(s.created[id], t));
  }

  lemma StreamStepShut(t: Stream, e: Event)
    ensures var u := Step(t, e);
            t.sent <= u.sent && NoGoAway(NewFrames(t, u)) && (t.recv.closed ==> u.recv.closed)
  {
  }

  lemma MaybeShut(t: Stream, c: bool, e: Event)
    ensures t.recv.closed || (c && e.RemoteResetEvent?) ==> S.Maybe(t, c, e).recv.closed
  {
    StreamStepShut(t, e);
  }

  lemma AfterFrameShut(t: Stream, f: Frame)
    ensures t.recv.closed || HasFlag(f.flags, FLAG_RST) ==> S.AfterFrame(t, f).recv.closed
  {
    MaybeShut(t, S.HasPayload(f), DataEvent(f.payload));
    var t1 := S.Maybe(t, S.HasPayload(f), DataEvent(f.payload));
    MaybeShut(t1, HasFlag(f.flags, FLAG_FIN), RemoteCloseEvent);
    var t2 := S.Maybe(t1, HasFlag(f.flags, FLAG_FIN), RemoteCloseEvent);
    MaybeShut(t2, HasFlag(f.flags, FLAG_RST), RemoteResetEvent);
    MaybeShut(S.Maybe(t2, HasFlag(f.flags, FLAG_RST), RemoteResetEvent), f.typ != TYPE_DATA, WindowUpdateEvent(f.length));
  }

  lemma DispatchShut(s: S.Session, f: Frame)
    requires S.StreamsOk(s) && ShutInv(s)
    ensures ShutInv(S.Dispatch(s, f))
    ensures var t := S.Dispatch(s, f);
            t.erred == s.erred && t.wsClosed == s.wsClosed && (s.closed ==> t.closed)
  {
    if S.ForStream(f) && f.id in s.table {
      AfterFrameEmits(s.created[f.id], f);
      AfterFrameShut(s.created[f.id], f);
      PutShut(s, f.id, S.AfterFrame(s.created[f.id], f));
    } else if f.typ == TYPE_PING {
      GoAwaysConcat(s.log, [Frame(TYPE_PING, FLAG_ACK, 0, f.length, [])]);
      NoneCounted([Frame(TYPE_PING, FLAG_ACK, 0, f.length, [])]);
    } else if f.typ == TYPE_GO_AWAY {
      ResetAllShut(s.(closed := true));
    }
  }

  lemma ResumeShut(s: S.Session)
    requires S.SessionOk(s) && P.Ready(s.buf, s.phase) && ShutInv(s)
    ensures ShutInv(S.ResumeLoop(s))
    ensures var t := S.ResumeLoop(s);
            t.erred == s.erred && t.wsClosed == s.wsClosed && (s.closed ==> t.closed)
  {
    P.OwnsContinue(YamuxFormat, s.buf, s.phase);
    match P.Continue(YamuxFormat, s.buf, s.phase)
    case Got(r) => DispatchShut(s, FromRecord(r));
    case _ =>
  }

  lemma OpenShut(s: S.Session)
    requires S.SessionOk(s) && ShutInv(s)
    ensures ShutInv(S.Open(s))
  {
    var syn := Frame(TYPE_WINDOW_UPDATE, FLAG_SYN, s.nextID, INITIAL_WINDOW, []);
    GoAwaysConcat(s.log, [syn]);
    NoneCounted([syn]);
  }

  lemma CloseShut(s: S.Session)
    requires S.SessionOk(s) && ShutInv(s)
    ensures ShutInv(S.Close(s))
  {
    if !s.closed {
      var bye := Frame(TYPE_GO_AWAY, 0, 0, 0, []);
      GoAwaysConcat(s.log, [bye]);
      assert [bye][..0] == [] && GoAways([bye]) == 1;
      ResetAllShut(s.(closed := true, log := s.log + [bye]));
    }
  }

  lemma StepShut(s: S.Session, e: S.Event)
    requires S.SessionOk(s) && ShutInv(s)
    ensures ShutInv(S.Step(s, e))
    ensures var t := S.Step(s, e);
            && (s.closed ==> t.closed)
            && (t.erred <==> s.erred || e.WsError?)
            && (t.wsClosed <==> s.wsClosed || e.WsClose?)
  {
    match e
    case OpenCall => OpenShut(s);
    case CloseCall => CloseShut(s);
    case Message(_) =>
    case WsClose => ResetAllShut(s.(closed := true, wsClosed := true));
    case WsError =>
    case LoopResumes =>
      if P.Ready(s.buf, s.phase) {
        ResumeShut(s);
      }
    case StreamCall(id, call) =>
      if id in s.created && S.IsCall(call) {
        StreamStepShut(s.created[id], call);
        PutShut(s, id, Step(s.created[id], call));
      }
  }

  // In every run, for closes, GoAways and WebSocket events in any order and number.
  lemma {:induction false} ShutdownSafety(s: S.Session, events: seq<S.Event>)
    requires S.SessionOk(s) && ShutInv(s)
    ensures ShutInv(S.Run(s, events))
    ensures var t := S.Run(s, events);
            && (s.closed ==> t.closed)
            && (t.erred <==> s.erred || S.WsError in events)
            && (t.wsClosed <==> s.wsClosed || S.WsClose in events)
    decreases |events|
  {
    if events != [] {
      S.SessionStepOk(s, events[0]);
      StepShut(s, events[0]);
      ShutdownSafety(S.Step(s, events[0]), events[1..]);
      assert events == [events[0]] + events[1..];
    }
  }

  // A closed session, by close(), GoAway or onclose, in any order and repeated at will: the table is
  // empty, no stream has a parked reader, open() is refused and at most one GoAway was ever sent -
  // provided that onclose fired if onerror did, as the WebSocket standard has it.
  lemma ShutdownComplete(events: seq<S.Event>)
    requires S.WsError in events ==> S.WsClose in events
    ensures S.SessionOk(S.NewSession())
    ensures var t := S.Run(S.NewSession(), events);
            && GoAways(t.log) <= 1
            && (t.closed ==>
                  && t.table == {}
                  && (forall id :: id in t.created ==> t.created[id].recv.waiting.None?)
                  && S.Open(t) == t)
  {
    S.NewSessionOk();
    ShutdownSafety(S.NewSession(), events);
    var t := S.Run(S.NewSession(), events);
    if t.closed {
      forall id | id in t.created ensures t.created[id].recv.waiting.None? {
        assert Ok(t.created[id]);
      }
    }
  }

  // close() leaves the table empty exactly when the session was not closed already or had nothing
  // left in it.
  lemma CloseEmptiesExactly(s: S.Session)
    requires S.SessionOk(s)
    ensures S.Close(s).table == {} <==> !s.closed || s.table == {}
  {
  }

  // What shutdown should keep: no stream in the table of a closed session.
  predicate EmptyIfClosed(s: S.Session) {
    s.closed ==> s.table == {}
  }

  // onerror while there are streams in the table.
  predicate ErrsWithStreams(s: S.Session, e: S.Event) {
    e.WsError? && s.table != {}
  }

  lemma DispatchEmpty(s: S.Session, f: Frame)
    requires S.StreamsOk(s) && EmptyIfClosed(s)
    ensures EmptyIfClosed(S.Dispatch(s, f))
  {
  }

  lemma ResumeEmpty(s: S.Session)
    requires S.SessionOk(s) && P.Ready(s.buf, s.phase) && EmptyIfClosed(s)
    ensures EmptyIfClosed(S.ResumeLoop(s))
  {
    P.OwnsContinue(YamuxFormat, s.buf, s.phase);
    match P.Continue(YamuxFormat, s.buf, s.phase)
    case Got(r) => DispatchEmpty(s, FromRecord(r));
    case _ =>
  }

  // The one step that leaves streams in the table of a closed session is an onerror that finds some.
  lemma StepEmptiesExactly(s: S.Session, e: S.Event)
    requires S.SessionOk(s) && EmptyIfClosed(s)
    ensures EmptyIfClosed(S.Step(s, e)) <==> !ErrsWithStreams(s, e)
  {
    if e.LoopResumes? && P.Ready(s.buf, s.phase) {
      ResumeEmpty(s);
    }
  }

  predicate EmptyThroughout(s: S.Session, events: seq<S.Event>)
    requires S.SessionOk(s)
    decreases |events|
  {
    EmptyIfClosed(s) &&
    (events == [] || (S.SessionStepOk(s, events[0]); EmptyThroughout(S.Step(s, events[0]), events[1..])))
  }

  predicate NeverErrsWithStreams(s: S.Session, events: seq<S.Event>)
    requires S.SessionOk(s)
    decreases |events|
  {
    events == [] ||
    (!ErrsWithStreams(s, events[0]) && (S.SessionStepOk(s, events[0]); NeverErrsWithStreams(S.Step(s, events[0]), events[1..])))
  }

  // In every run: whenever the session is closed its table is empty, if and only if no onerror finds
  // streams in the table.
  lemma {:induction false} ShutdownExactly(s: S.Session, events: seq<S.Event>)
    requires S.SessionOk(s) && EmptyIfClosed(s)
    ensures EmptyThroughout(s, events) <==> NeverErrsWithStreams(s, events)
    decreases |events|
  {
    if events != [] {
      S.SessionStepOk(s, events[0]);
      StepEmptiesExactly(s, events[0]);
      if !ErrsWithStreams(s, events[0]) {
        ShutdownExactly(S.Step(s, events[0]), events[1..]);
      }
    }
  }

  // The case is real: after onerror, close() does nothing, and the streams stay in the table.
  lemma CloseAfterErrorKeepsTable()
    ensures S.SessionOk(S.NewSession())
    ensures var one := S.Open(S.NewSession());
            S.SessionOk(one) && S.SessionOk(S.OnWsError(one)) && S.Close(S.OnWsError(one)).table == {1}
  {
    S.NewSessionOk();
    var s := S.NewSession();
    S.SessionStepOk(s, S.OpenCall);
    assert S.Step(s, S.OpenCall) == S.Open(s);
    S.SessionStepOk(S.Open(s), S.WsError);
    assert S.Step(S.Open(s), S.WsError) == S.OnWsError(S.Open(s));
  }
}
