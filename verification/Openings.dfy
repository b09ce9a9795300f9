/** ts/src/transport.ts, `openStream`, at its awaits: what may have become of the new stream when open()
    returns and when the header of the method name is out, and hence exactly when openStream throws. */
module Openings {
  import opened Bytes
  import opened Records
  import opened YamuxFrames
  import opened Streams
  import opened StreamWrites
  import opened Messages
  import S = Sessions
  import P = Pulls
  import T = SessionTables
  import opened SessionStreams

  // Nobody has the stream's object yet: no call is made on it.
  predicate Unknown(events: seq<S.Event>, id: nat) {
    forall i :: 0 <= i < |events| ==> !(events[i].StreamCall? && events[i].id == id)
  }

  // Open for writing as long as it is in the table, with at least `w` bytes of window and no write in hand.
  predicate OpenInTable(s: S.Session, id: nat, w: int) {
    && id in s.created
    && (if id in s.table then s.created[id].state.Open? || s.created[id].state.RemoteClose? else s.created[id].state.Closed?)
    && NoWriter(s.created[id], w)
  }

  predicate NoWriter(t: Stream, w: int) {
    t.waiters == [] && t.woken == [] && t.sendWindow >= w
  }

  lemma MaybeNoWriter(t: Stream, c: bool, e: Streams.Event, w: int)
    requires NoWriter(t, w) && (e.DataEvent? || e.RemoteCloseEvent? || e.RemoteResetEvent? || e.WindowUpdateEvent?)
    ensures NoWriter(S.Maybe(t, c, e), w)
  {
  }

  lemma FrameNoWriter(t: Stream, f: Frame, w: int)
    requires NoWriter(t, w)
    ensures NoWriter(S.AfterFrame(t, f), w)
  {
    var t1 := S.Maybe(t, S.HasPayload(f), DataEvent(f.payload));
    MaybeNoWriter(t, S.HasPayload(f), DataEvent(f.payload), w);
    var t2 := S.Maybe(t1, HasFlag(f.flags, FLAG_FIN), RemoteCloseEvent);
    MaybeNoWriter(t1, HasFlag(f.flags, FLAG_FIN), RemoteCloseEvent, w);
    var t3 := S.Maybe(t2, HasFlag(f.flags, FLAG_RST), RemoteResetEvent);
    MaybeNoWriter(t2, HasFlag(f.flags, FLAG_RST), RemoteResetEvent, w);
    MaybeNoWriter(t3, f.typ != TYPE_DATA, WindowUpdateEvent(f.length), w);
  }

  lemma FrameOpens(t: Stream, f: Frame)
    requires t.state.Open? || t.state.RemoteClose?
    ensures var u := S.AfterFrame(t, f);
            if HasFlag(f.flags, FLAG_RST) then u.state.Closed? else u.state.Open? || u.state.RemoteClose?
  {
  }

  lemma DispatchOpens(s: S.Session, f: Frame, id: nat, w: int)
    requires S.StreamsOk(s) && T.IdsInv(s) && OpenInTable(s, id, w)
    ensures OpenInTable(S.Dispatch(s, f), id, w)
  {
    if f.typ == TYPE_GO_AWAY {
    } else if S.ForStream(f) && f.id == id {
      if id in s.table {
        FrameOpens(s.created[id], f);
        FrameNoWriter(s.created[id], f, w);
      }
    } else {
      T.NonInterference(s, f);
    }
  }

  lemma ResumeOpens(s: S.Session, id: nat, w: int)
    requires S.SessionOk(s) && T.IdsInv(s) && P.Ready(s.buf, s.phase) && OpenInTable(s, id, w)
    ensures OpenInTable(S.ResumeLoop(s), id, w)
  {
    P.OwnsContinue(YamuxFormat, s.buf, s.phase);
    match P.Continue(YamuxFormat, s.buf, s.phase)
    case Got(r) => DispatchOpens(s, FromRecord(r), id, w);
    case _ =>
  }

  lemma StepOpens(s: S.Session, e: S.Event, id: nat, w: int)
    requires S.SessionOk(s) && T.IdsInv(s) && OpenInTable(s, id, w) && !(e.StreamCall? && e.id == id)
    ensures OpenInTable(S.Step(s, e), id, w)
  {
    if e.LoopResumes? && P.Ready(s.buf, s.phase) {
      ResumeOpens(s, id, w);
    }
  }

  lemma {:induction false} RunOpens(s: S.Session, events: seq<S.Event>, id: nat, w: int)
    requires S.SessionOk(s) && T.IdsInv(s) && OpenInTable(s, id, w) && Unknown(events, id)
    ensures OpenInTable(S.Run(s, events), id, w)
    decreases |events|
  {
    if events != [] {
      S.SessionStepOk(s, events[0]);
      T.StepIds(s, events[0]);
      StepOpens(s, events[0], id, w);
      RunOpens(S.Step(s, events[0]), events[1..], id, w);
    }
  }

  lemma JustOpened(s: S.Session)
    requires S.SessionOk(s) && T.IdsInv(s) && !s.closed
    ensures S.SessionOk(S.Open(s)) && T.IdsInv(S.Open(s)) && OpenInTable(S.Open(s), s.nextID, INITIAL_WINDOW)
  {
    S.SessionStepOk(s, S.OpenCall);
    T.StepIds(s, S.OpenCall);
  }

  // The session when openStream goes on after open().
  function Opened(s: S.Session, before: seq<S.Event>): (t: S.Session)
    requires S.SessionOk(s) && T.IdsInv(s) && !s.closed && Unknown(before, s.nextID)
    ensures S.SessionOk(t) && T.IdsInv(t) && OpenInTable(t, s.nextID, INITIAL_WINDOW)
  {
    JustOpened(s);
    RunOpens(S.Open(s), before, s.nextID, INITIAL_WINDOW);
    T.RunIds(S.Open(s), before);
    S.Run(S.Open(s), before)
  }

  // The WSStream once send has handed the header of the name to the stream.
  function Named(t: S.Session, id: nat, name: seq<Byte>): Messenger
    requires id in t.created
  {
    Send(Attach(t.created[id]), name)
  }

  // The first half: the header is refused, and openStream throws, exactly when the new stream has left the
  // table before openStream goes on.
  lemma HeaderRefusedExactly(s: S.Session, before: seq<S.Event>)
    requires S.SessionOk(s) && T.IdsInv(s) && !s.closed && Unknown(before, s.nextID)
    ensures var t := Opened(s, before);
            WriteClosed(t.created[s.nextID]) <==> s.nextID !in t.table
  {
  }

  lemma HeaderWritten(t: S.Session, id: nat, name: seq<Byte>)
    requires S.SessionOk(t) && T.IdsInv(t) && OpenInTable(t, id, INITIAL_WINDOW) && id in t.table
    ensures var m := Named(t, id, name);
            && m.tx == HeaderOut(name) && |m.ys.writes| > 0
            && S.SessionOk(S.Put(t, id, m.ys)) && T.IdsInv(S.Put(t, id, m.ys))
            && OpenInTable(S.Put(t, id, m.ys), id, INITIAL_WINDOW - APP_HEADER_SIZE)
  {
    var call := WriteEvent(DataHeader(name));
    S.SessionStepOk(t, S.StreamCall(id, call));
    T.CallIds(t, id, call);
    HeaderGoesOut(t.created[id], DataHeader(name));
  }

  lemma HeaderGoesOut(x: Stream, header: seq<Byte>)
    requires !WriteClosed(x) && NoWriter(x, INITIAL_WINDOW) && |header| == APP_HEADER_SIZE
    ensures var y := Write(x, header);
            NoWriter(y, INITIAL_WINDOW - APP_HEADER_SIZE) && y.state == x.state && |y.writes| > 0
  {
  }

  // The session when send goes on after the header.
  function AfterHeader(t: S.Session, id: nat, name: seq<Byte>, between: seq<S.Event>): (u: S.Session)
    requires S.SessionOk(t) && T.IdsInv(t) && OpenInTable(t, id, INITIAL_WINDOW) && id in t.table && Unknown(between, id)
    ensures OpenInTable(u, id, INITIAL_WINDOW - APP_HEADER_SIZE)
  {
    HeaderWritten(t, id, name);
    var sent := S.Put(t, id, Named(t, id, name).ys);
    RunOpens(sent, between, id, INITIAL_WINDOW - APP_HEADER_SIZE);
    S.Run(sent, between)
  }

  lemma ContinueThrowsExactly(m: Messenger, name: seq<Byte>)
    requires m.tx == HeaderOut(name) && NoWriter(m.ys, INITIAL_WINDOW - APP_HEADER_SIZE)
    ensures ContinueSend(m).tx.Broken? <==> name != [] && WriteClosed(m.ys)
    ensures !ContinueSend(m).tx.Broken? ==> ContinueSend(m).tx == if name == [] then Between else PayloadOut(name)
  {
    assert Pending(m.ys) == [];
  }

  // How openStream ends: its send is refused the header, or broken at the await after it.  The write of the
  // name that then follows does not throw.
  predicate Throws(s: S.Session, name: seq<Byte>, before: seq<S.Event>, between: seq<S.Event>)
    requires S.SessionOk(s) && T.IdsInv(s) && !s.closed && Unknown(before, s.nextID) && Unknown(between, s.nextID)
  {
    var id, t := s.nextID, Opened(s, before);
    WriteClosed(t.created[id]) ||
    (var u := AfterHeader(t, id, name, between);
     ContinueSend(Named(t, id, name).(ys := u.created[id])).tx.Broken?)
  }

  // Whatever happens between open() and its await, and between the header and its await: openStream throws
  // exactly when the new stream has left the table by the first, or, for a name that is not empty, by the
  // second.
  lemma OpenStreamThrowsExactly(s: S.Session, name: seq<Byte>, before: seq<S.Event>, between: seq<S.Event>)
    requires S.SessionOk(s) && T.IdsInv(s) && !s.closed && Unknown(before, s.nextID) && Unknown(between, s.nextID)
    ensures var id, t := s.nextID, Opened(s, before);
            Throws(s, name, before, between) <==>
              id !in t.table || (name != [] && id !in AfterHeader(t, id, name, between).table)
  {
    var id, t := s.nextID, Opened(s, before);
    HeaderRefusedExactly(s, before);
    if id in t.table {
      HeaderWritten(t, id, name);
      var u := AfterHeader(t, id, name, between);
      ContinueThrowsExactly(Named(t, id, name).(ys := u.created[id]), name);
    }
  }

  // ----- a GoAway in hand -----

  function GoAwayHeader(): seq<Byte> {
    Raw(ToRecord(Frame(TYPE_GO_AWAY, 0, 0, 0, [])))
  }

  lemma GoAwayInHand(s: S.Session)
    requires S.SessionOk(s) && T.IdsInv(s) && !s.closed && P.Ready(s.buf, s.phase)
    requires FrameInHand(s).Some? && FrameInHand(s).value.typ == TYPE_GO_AWAY
    ensures S.SessionOk(S.Open(s)) && s.nextID in S.ResumeLoop(S.Open(s)).created
    ensures WriteClosed(S.ResumeLoop(S.Open(s)).created[s.nextID])
  {
    JustOpened(s);
    P.OwnsContinue(YamuxFormat, s.buf, s.phase);
  }

  // The case: a GoAway has arrived, the session is still open when open() is called, and the read loop
  // handles the GoAway before openStream goes on.
  lemma OpenedThenGoAway()
    ensures S.SessionOk(S.NewSession())
    ensures var s := S.OnMessage(S.NewSession(), GoAwayHeader());
            && S.SessionOk(s) && !s.closed && P.Ready(s.buf, s.phase) && S.SessionOk(S.Open(s))
            && var t := S.ResumeLoop(S.Open(s)); 1 in t.created && WriteClosed(t.created[1])
  {
    S.NewSessionOk();
    var s := S.OnMessage(S.NewSession(), GoAwayHeader());
    S.SessionStepOk(S.NewSession(), S.Message(GoAwayHeader()));
    assert s == S.Step(S.NewSession(), S.Message(GoAwayHeader()));
    HeaderInHand();
    GoAwayInHand(s);
  }

  lemma HeaderInHand()
    requires S.SessionOk(S.NewSession()) && S.SessionOk(S.OnMessage(S.NewSession(), GoAwayHeader()))
    ensures var s := S.OnMessage(S.NewSession(), GoAwayHeader());
            P.Ready(s.buf, s.phase) && FrameInHand(s).Some? && FrameInHand(s).value.typ == TYPE_GO_AWAY
  {
    var header := GoAwayHeader();
    var s := S.OnMessage(S.NewSession(), header);
    assert |header| == YAMUX_HEADER_SIZE && header[1] == TYPE_GO_AWAY;
    assert [] + header == header && header[..YAMUX_HEADER_SIZE] == header;
    assert P.LastOutcome(s.buf).Resolved? && P.LastOutcome(s.buf).value == header;
  }

  // The other case: the read loop handles the GoAway when the header is out and the name is not.
  lemma HeaderThenGoAway(s: S.Session, name: seq<Byte>)
    requires S.SessionOk(s) && T.IdsInv(s) && !s.closed && P.Ready(s.buf, s.phase)
    requires FrameInHand(s).Some? && FrameInHand(s).value.typ == TYPE_GO_AWAY
    ensures var id, t := s.nextID, Opened(s, []);
            id in t.table && !WriteClosed(t.created[id]) && (Throws(s, name, [], [S.LoopResumes]) <==> name != [])
  {
    var id, t := s.nextID, Opened(s, []);
    JustOpened(s);
    HeaderWritten(t, id, name);
    var sent := S.Put(t, id, Named(t, id, name).ys);
    RunOneStep(sent, S.LoopResumes);
    InHandEmpties(s, sent);
    OpenStreamThrowsExactly(s, name, [], [S.LoopResumes]);
  }

  lemma RunOneStep(s: S.Session, e: S.Event)
    requires S.SessionOk(s)
    ensures S.Run(s, [e]) == S.Step(s, e)
  {
    S.SessionStepOk(s, e);
    assert [e][1..] == [];
    assert S.Run(S.Step(s, e), []) == S.Step(s, e);
  }

  lemma InHandEmpties(s: S.Session, t: S.Session)
    requires S.SessionOk(s) && P.Ready(s.buf, s.phase)
    requires FrameInHand(s).Some? && FrameInHand(s).value.typ == TYPE_GO_AWAY
    requires S.SessionOk(t) && t.buf == s.buf && t.phase == s.phase
    ensures S.Step(t, S.LoopResumes).table == {}
  {
    P.OwnsContinue(YamuxFormat, s.buf, s.phase);
  }

  // So it can be: the first stream of a session that a GoAway has just reached.
  lemma FirstStreamThrows(name: seq<Byte>)
    requires name != []
    ensures S.SessionOk(S.NewSession())
    ensures var s := S.OnMessage(S.NewSession(), GoAwayHeader());
            S.SessionOk(s) && T.IdsInv(s) && !s.closed && Throws(s, name, [], [S.LoopResumes])
  {
    OpenedThenGoAway();
    HeaderInHand();
    HeaderThenGoAway(S.OnMessage(S.NewSession(), GoAwayHeader()), name);
  }
}
