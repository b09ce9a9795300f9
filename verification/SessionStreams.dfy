/** Every stream of a session goes through a run of its own steps, so what is proved of all runs of a
    stream holds of every stream of every session. */
module SessionStreams {
  import opened Bytes
  import opened Records
  import opened YamuxFrames
  import opened Streams
  import opened StreamWrites
  import opened StreamLife
  import opened StreamCredit
  import S = Sessions
  import P = Pulls
  import T = SessionTables

  // ----- projection -----

  function When(c: bool, e: Event): seq<Event> {
    if c then [e] else []
  }

  // The handlers the read loop calls on the stream a frame names, in order.
  function FrameEvents(f: Frame): seq<Event> {
    When(S.HasPayload(f), DataEvent(f.payload)) + When(HasFlag(f.flags, FLAG_FIN), RemoteCloseEvent) +
    When(HasFlag(f.flags, FLAG_RST), RemoteResetEvent) + When(f.typ != TYPE_DATA, WindowUpdateEvent(f.length))
  }

  lemma {:induction false} StreamRunConcat(t: Stream, a: seq<Event>, b: seq<Event>)
    requires Ok(t)
    ensures Run(t, a + b) == Run(Run(t, a), b)
    decreases |a|
  {
    if a == [] {
      assert a + b == b;
    } else {
      StepOk(t, a[0]);
      StreamRunConcat(Step(t, a[0]), a[1..], b);
      assert (a + b)[1..] == a[1..] + b;
    }
  }

  lemma RunOne(t: Stream, e: Event)
    requires Ok(t)
    ensures Ok(Step(t, e)) && Run(t, [e]) == Step(t, e)
  {
    StepOk(t, e);
    assert [e][1..] == [];
    assert Run(Step(t, e), []) == Step(t, e);
  }

  lemma RunMaybe(t: Stream, before: seq<Event>, c: bool, e: Event)
    requires Ok(t)
    ensures Run(t, before + When(c, e)) == S.Maybe(Run(t, before), c, e)
  {
    StreamRunConcat(t, before, When(c, e));
    RunOne(Run(t, before), e);
  }

  lemma AfterFrameIsRun(t: Stream, f: Frame)
    requires Ok(t)
    ensures S.AfterFrame(t, f) == Run(t, FrameEvents(f))
  {
    var a := When(S.HasPayload(f), DataEvent(f.payload));
    var b := a + When(HasFlag(f.flags, FLAG_FIN), RemoteCloseEvent);
    var c := b + When(HasFlag(f.flags, FLAG_RST), RemoteResetEvent);
    RunMaybe(t, [], S.HasPayload(f), DataEvent(f.payload));
    assert [] + a == a;
    RunMaybe(t, a, HasFlag(f.flags, FLAG_FIN), RemoteCloseEvent);
    RunMaybe(t, b, HasFlag(f.flags, FLAG_RST), RemoteResetEvent);
    RunMaybe(t, c, f.typ != TYPE_DATA, WindowUpdateEvent(f.length));
  }

  // What a step of the session does to stream `id`.
  function Projection(s: S.Session, e: S.Event, id: nat): seq<Event>
    requires S.SessionOk(s)
  {
    match e
    case CloseCall => if !s.closed && id in s.table then [RemoteResetEvent] else []
    case WsClose => if id in s.table then [RemoteResetEvent] else []
    case StreamCall(k, call) => if k == id && S.IsCall(call) then [call] else []
    case LoopResumes => if P.Ready(s.buf, s.phase) then LoopProjection(s, id) else []
    case _ => []
  }

  // The frame the read loop is about to handle, if it holds one.
  function FrameInHand(s: S.Session): Option<Frame>
    requires S.SessionOk(s) && P.Ready(s.buf, s.phase)
  {
    P.OwnsContinue(YamuxFormat, s.buf, s.phase);
    match P.Continue(YamuxFormat, s.buf, s.phase)
    case Got(r) => Some(FromRecord(r))
    case _ => None
  }

  function LoopProjection(s: S.Session, id: nat): seq<Event>
    requires S.SessionOk(s) && P.Ready(s.buf, s.phase)
  {
    match FrameInHand(s)
    case None => []
    case Some(f) => DispatchProjection(s, f, id)
  }

  function DispatchProjection(s: S.Session, f: Frame, id: nat): seq<Event> {
    if id !in s.table then []
    else if S.ForStream(f) && f.id == id then FrameEvents(f)
    else if f.typ == TYPE_GO_AWAY then [RemoteResetEvent]
    else []
  }

  lemma DispatchProjects(s: S.Session, f: Frame, id: nat)
    requires S.StreamsOk(s) && T.IdsInv(s) && id in s.created
    ensures id in S.Dispatch(s, f).created
    ensures S.Dispatch(s, f).created[id] == Run(s.created[id], DispatchProjection(s, f, id))
  {
    if f.typ == TYPE_GO_AWAY {
      RunOne(s.created[id], RemoteResetEvent);
    } else if f.id == id {
      AfterFrameIsRun(s.created[id], f);
    } else {
      T.NonInterference(s, f);
    }
  }

  lemma LoopStepProjects(s: S.Session, id: nat)
    requires S.SessionOk(s) && T.IdsInv(s) && id in s.created && P.Ready(s.buf, s.phase)
    ensures id in S.ResumeLoop(s).created
    ensures S.ResumeLoop(s).created[id] == Run(s.created[id], LoopProjection(s, id))
  {
    P.OwnsContinue(YamuxFormat, s.buf, s.phase);
    if FrameInHand(s).Some? {
      DispatchProjects(s, FrameInHand(s).value, id);
    }
  }

  lemma CallProjects(s: S.Session, k: nat, call: Event, id: nat)
    requires S.SessionOk(s) && id in s.created && k in s.created && S.IsCall(call)
    ensures S.Put(s, k, Step(s.created[k], call)).created[id] == Run(s.created[id], if k == id then [call] else [])
  {
    RunOne(s.created[id], call);
  }

  lemma StepProjects(s: S.Session, e: S.Event, id: nat)
    requires S.SessionOk(s) && T.IdsInv(s) && id in s.created
    ensures id in S.Step(s, e).created
    ensures S.Step(s, e).created[id] == Run(s.created[id], Projection(s, e, id))
  {
    match e
    case LoopResumes =>
      if P.Ready(s.buf, s.phase) {
        LoopStepProjects(s, id);
      }
    case StreamCall(k, call) =>
      if k in s.created && S.IsCall(call) {
        CallProjects(s, k, call, id);
      }
    case _ => RunOne(s.created[id], RemoteResetEvent);
  }

  function ProjectRun(s: S.Session, events: seq<S.Event>, id: nat): seq<Event>
    requires S.SessionOk(s)
    decreases |events|
  {
    if events == [] then []
    else
      S.SessionStepOk(s, events[0]);
      Projection(s, events[0], id) + ProjectRun(S.Step(s, events[0]), events[1..], id)
  }

  lemma {:induction false} RunProjects(s: S.Session, events: seq<S.Event>, id: nat)
    requires S.SessionOk(s) && T.IdsInv(s) && id in s.created
    ensures id in S.Run(s, events).created
    ensures S.Run(s, events).created[id] == Run(s.created[id], ProjectRun(s, events, id))
    decreases |events|
  {
    if events != [] {
      var e, rest := events[0], events[1..];
      S.SessionStepOk(s, e);
      T.StepIds(s, e);
      StepProjects(s, e, id);
      RunProjects(S.Step(s, e), rest, id);
      StreamRunConcat(s.created[id], Projection(s, e, id), ProjectRun(S.Step(s, e), rest, id));
    }
  }

  // Every stream of every session is a new stream after some run of its own.
  lemma {:induction false} CreatedByRun(s: S.Session, events: seq<S.Event>, id: nat) returns (own: seq<Event>)
    requires S.SessionOk(s) && T.IdsInv(s) && id !in s.created && id in S.Run(s, events).created
    ensures S.Run(s, events).created[id] == Run(NewStream(id), own)
    decreases |events|
  {
    var e, rest := events[0], events[1..];
    var t := S.Step(s, e);
    S.SessionStepOk(s, e);
    T.StepIds(s, e);
    if id in t.created {
      assert e.OpenCall? && t.created[id] == NewStream(id);
      RunProjects(t, rest, id);
      own := ProjectRun(t, rest, id);
    } else {
      own := CreatedByRun(t, rest, id);
    }
  }

  lemma OwnRunKeepsCredit(id: nat, own: seq<Event>)
    ensures CreditInv(Run(NewStream(id), own))
  {
    WindowRecovers(NewStream(id), own);
  }

  // Hence, in every run of a session and for every stream it created: the window books balance, no
  // wakeup is lost, and at least half a receive window is open.
  lemma EveryStreamKeepsItsBooks(events: seq<S.Event>, id: nat)
    requires S.SessionOk(S.NewSession()) && id in S.Run(S.NewSession(), events).created
    ensures var t := S.Run(S.NewSession(), events).created[id]; SendInv(t) && CreditInv(t)
  {
    var own := CreatedByRun(S.NewSession(), events, id);
    NewStreamRun(id, own);
    OwnRunKeepsCredit(id, own);
  }

  lemma ResetUpdateIs(t: Stream, delta: nat)
    ensures S.AfterFrame(t, Frame(TYPE_WINDOW_UPDATE, FLAG_RST, t.id, delta, [])) == OnWindowUpdate(OnReset(t), delta)
  {
  }

  lemma ResetKeepsWrites(t: Stream)
    requires Ok(t) && SendInv(t)
    ensures Ok(OnReset(t)) && SendInv(OnReset(t)) && Pending(OnReset(t)) == Pending(t)
  {
    assert OnReset(t) == Step(t, RemoteResetEvent);
    StepOk(t, RemoteResetEvent);
    StepKeeps(t, RemoteResetEvent);
  }

  // A window update that carries RST resets the stream first and then wakes its blocked writes, which
  // go on sending on the closed stream.
  lemma ResetUpdateStillSends(t: Stream, delta: nat)
    requires Ok(t) && SendInv(t) && Pending(t) != [] && delta > 0
    ensures var u := S.AfterFrame(t, Frame(TYPE_WINDOW_UPDATE, FLAG_RST, t.id, delta, []));
            && u.state.Closed? && u.woken == Pending(t)
            && |Payloads(Resume(u, 0).sent)| > |Payloads(u.sent)|
  {
    ResetUpdateIs(t, delta);
    ResetKeepsWrites(t);
    CreditWakes(OnReset(t), delta);
    StepOk(OnReset(t), WindowUpdateEvent(delta));
    ResumeSends(OnWindowUpdate(OnReset(t), delta));
  }

  // ----- the life cycle under the peer's rules -----

  predicate FinFor(r: Record, id: nat) {
    && |r.header| == YAMUX_HEADER_SIZE
    && var f := FromRecord(r); S.ForStream(f) && f.id == id && HasFlag(f.flags, FLAG_FIN)
  }

  // FINs the peer has sent for stream `id`, among the frames dispatched.
  function PeerFins(rs: seq<Record>, id: nat): nat {
    if rs == [] then 0 else PeerFins(rs[..|rs| - 1], id) + (if FinFor(rs[|rs| - 1], id) then 1 else 0)
  }

  predicate ResetsLocally(e: S.Event, id: nat) {
    e.StreamCall? && e.id == id && e.call.ResetEvent?
  }

  // The program does not reset stream `id`; it may reset others.
  predicate NoLocalReset(events: seq<S.Event>, id: nat) {
    forall i :: 0 <= i < |events| ==> !ResetsLocally(events[i], id)
  }

  // A stream of the table was never reset, and has seen no more FINs than the peer sent.
  predicate LifeInv(s: S.Session, id: nat) {
    && id in s.created
    && MatchesHistory(s.created[id])
    && s.created[id].finsSeen <= PeerFins(s.dispatched, id)
    && (id in s.table ==> s.created[id].resets == 0)
  }

  lemma MaybeMatches(t: Stream, c: bool, e: Event)
    requires MatchesHistory(t) && !(c && ReopensClosed(t, e))
    ensures MatchesHistory(S.Maybe(t, c, e))
  {
    LifeStepExactly(t, e);
  }

  // A frame reopens a stream only if it carries a FIN and the stream is closed.
  lemma FrameNeverReopens(t: Stream, f: Frame)
    requires MatchesHistory(t) && (HasFlag(f.flags, FLAG_FIN) ==> !t.state.Closed?)
    ensures MatchesHistory(S.AfterFrame(t, f))
  {
    var t1 := S.Maybe(t, S.HasPayload(f), DataEvent(f.payload));
    MaybeMatches(t, S.HasPayload(f), DataEvent(f.payload));
    assert t1.state == t.state;
    var t2 := S.Maybe(t1, HasFlag(f.flags, FLAG_FIN), RemoteCloseEvent);
    MaybeMatches(t1, HasFlag(f.flags, FLAG_FIN), RemoteCloseEvent);
    MaybeMatches(t2, HasFlag(f.flags, FLAG_RST), RemoteResetEvent);
    MaybeMatches(S.Maybe(t2, HasFlag(f.flags, FLAG_RST), RemoteResetEvent), f.typ != TYPE_DATA, WindowUpdateEvent(f.length));
  }

  lemma FrameCounts(t: Stream, f: Frame)
    requires Ok(t)
    ensures S.AfterFrame(t, f).finsSeen == t.finsSeen + (if HasFlag(f.flags, FLAG_FIN) then 1 else 0)
    ensures !HasFlag(f.flags, FLAG_RST) ==> S.AfterFrame(t, f).resets == t.resets
  {
  }

  lemma PeerFinsAppend(rs: seq<Record>, r: Record, id: nat)
    ensures PeerFins(rs + [r], id) == PeerFins(rs, id) + (if FinFor(r, id) then 1 else 0)
  {
    assert (rs + [r])[..|rs|] == rs;
  }

  // A stream that was not reset and has seen no FIN is not closed when a FIN comes.
  lemma FrameLife(t: Stream, f: Frame)
    requires Ok(t) && MatchesHistory(t) && t.resets == 0
    requires HasFlag(f.flags, FLAG_FIN) ==> t.finsSeen == 0
    ensures var u := S.AfterFrame(t, f);
            && MatchesHistory(u)
            && u.finsSeen == t.finsSeen + (if HasFlag(f.flags, FLAG_FIN) then 1 else 0)
            && (!HasFlag(f.flags, FLAG_RST) ==> u.resets == 0)
  {
    FrameNeverReopens(t, f);
    FrameCounts(t, f);
  }

  lemma DispatchLife(s: S.Session, f: Frame, id: nat)
    requires S.StreamsOk(s) && T.IdsInv(s) && id in s.created && MatchesHistory(s.created[id])
    requires id in s.table ==> s.created[id].resets == 0
    requires S.ForStream(f) && f.id == id && HasFlag(f.flags, FLAG_FIN) && id in s.table ==> s.created[id].finsSeen == 0
    ensures var t := S.Dispatch(s, f);
            && id in t.created && MatchesHistory(t.created[id])
            && (id in t.table ==> t.created[id].resets == 0)
            && t.created[id].finsSeen <=
               s.created[id].finsSeen + (if S.ForStream(f) && f.id == id && HasFlag(f.flags, FLAG_FIN) then 1 else 0)
  {
    if f.typ == TYPE_GO_AWAY {
      LifeStepExactly(s.created[id], RemoteResetEvent);
    } else if f.id == id {
      if S.ForStream(f) && id in s.table {
        FrameLife(s.created[id], f);
      }
    } else {
      T.NonInterference(s, f);
    }
  }

  // Handling a frame keeps a stream in step if the peer has not sent it a second FIN.
  lemma HandleLife(s: S.Session, r: Record, id: nat)
    requires S.StreamsOk(s) && T.IdsInv(s) && Valid(YamuxFormat, r) && LifeInv(s, id)
    requires PeerFins(s.dispatched + [r], id) <= 1
    ensures LifeInv(S.HandleRecord(s, r), id)
  {
    PeerFinsAppend(s.dispatched, r, id);
    DispatchLife(s, FromRecord(r), id);
    DispatchedGrows(s, r);
  }

  lemma StepLife(s: S.Session, e: S.Event, id: nat)
    requires S.SessionOk(s) && T.IdsInv(s) && LifeInv(s, id)
    requires !ResetsLocally(e, id)
    requires PeerFins(S.Step(s, e).dispatched, id) <= 1
    ensures LifeInv(S.Step(s, e), id)
  {
    StepProjects(s, e, id);
    match e
    case LoopResumes =>
      if P.Ready(s.buf, s.phase) {
        P.OwnsContinue(YamuxFormat, s.buf, s.phase);
        match P.Continue(YamuxFormat, s.buf, s.phase)
        case Got(r) =>
          DispatchedGrows(s, r);
          HandleLife(s, r, id);
        case _ =>
      }
    case StreamCall(k, call) =>
      if k == id && S.IsCall(call) {
        RunOne(s.created[id], call);
        LifeStepExactly(s.created[id], call);
        CallCounts(s.created[id], call);
      }
    case _ =>
      LifeStepExactly(s.created[id], RemoteResetEvent);
  }

  lemma DispatchedGrows(s: S.Session, r: Record)
    requires S.StreamsOk(s) && Valid(YamuxFormat, r)
    ensures S.HandleRecord(s, r).dispatched == s.dispatched + [r]
  {
  }

  lemma CallCounts(t: Stream, call: Event)
    requires S.IsCall(call) && !call.ResetEvent?
    ensures Step(t, call).finsSeen == t.finsSeen && Step(t, call).resets == t.resets
  {
  }

  lemma {:induction false} PeerFinsMonotone(a: seq<Record>, b: seq<Record>, id: nat)
    requires a <= b
    ensures PeerFins(a, id) <= PeerFins(b, id)
    decreases |b|
  {
    if a != b {
      var c := b[..|b| - 1];
      assert a <= c;
      PeerFinsMonotone(a, c, id);
    }
  }

  lemma StepDispatched(s: S.Session, e: S.Event)
    requires S.SessionOk(s)
    ensures s.dispatched <= S.Step(s, e).dispatched
  {
    if e.LoopResumes? && P.Ready(s.buf, s.phase) {
      P.OwnsContinue(YamuxFormat, s.buf, s.phase);
      match P.Continue(YamuxFormat, s.buf, s.phase)
      case Got(r) => DispatchedGrows(s, r);
      case _ =>
    }
  }

  lemma {:induction false} RunDispatched(s: S.Session, events: seq<S.Event>)
    requires S.SessionOk(s)
    ensures s.dispatched <= S.Run(s, events).dispatched
    decreases |events|
  {
    if events != [] {
      S.SessionStepOk(s, events[0]);
      StepDispatched(s, events[0]);
      RunDispatched(S.Step(s, events[0]), events[1..]);
      PrefixTransitive(s.dispatched, S.Step(s, events[0]).dispatched, S.Run(s, events).dispatched);
    }
  }

  lemma {:induction false} LifeOverRun(s: S.Session, events: seq<S.Event>, id: nat)
    requires S.SessionOk(s) && T.IdsInv(s) && LifeInv(s, id) && NoLocalReset(events, id)
    requires PeerFins(S.Run(s, events).dispatched, id) <= 1
    ensures LifeInv(S.Run(s, events), id)
    decreases |events|
  {
    if events != [] {
      var t := S.Step(s, events[0]);
      S.SessionStepOk(s, events[0]);
      T.StepIds(s, events[0]);
      RunDispatched(t, events[1..]);
      PeerFinsMonotone(t.dispatched, S.Run(t, events[1..]).dispatched, id);
      StepLife(s, events[0], id);
      LifeOverRun(t, events[1..], id);
    }
  }

  // When the peer sends at most one FIN for a stream and the stream is not reset locally: in every
  // run of the session its state is the function of (own FIN sent, peer FIN seen, reset) it should
  // be, and its own FIN goes out at most once.
  lemma {:induction false} LifeCycleInEverySession(s: S.Session, events: seq<S.Event>, id: nat)
    requires S.SessionOk(s) && T.IdsInv(s) && id !in s.created && id in S.Run(s, events).created
    requires NoLocalReset(events, id) && PeerFins(S.Run(s, events).dispatched, id) <= 1
    ensures MatchesHistory(S.Run(s, events).created[id])
    decreases |events|
  {
    var e, rest := events[0], events[1..];
    var t := S.Step(s, e);
    S.SessionStepOk(s, e);
    T.StepIds(s, e);
    if id in t.created {
      assert t.created[id] == NewStream(id);
      LifeOverRun(t, rest, id);
    } else {
      LifeCycleInEverySession(t, rest, id);
    }
  }
}
