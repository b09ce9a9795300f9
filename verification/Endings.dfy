/** Why a stream ends: recv fails with EOF only after a FIN, and a stream that is cut short - by close(),
    a GoAway, the socket, an RST or a reset of its own - never looks like one that ended. */
module Endings {
  import opened Bytes
  import opened Records
  import opened YamuxFrames
  import opened Messages
  import opened EndToEnd
  import Streams
  import R = Receiving
  import P = Pulls
  import S = Sessions
  import T = SessionTables
  import opened SessionParsing
  import opened SessionStreams
  import opened SessionEof
  import Arrivals
  import Buffers

  // What a call of recv may fail with, and what the stream is closed for.
  predicate FailsWith(m: Messenger, e: Buffers.Error) {
    R.Failed(e) in m.results || (m.ys.recv.closed && m.ys.recv.closeError == Some(e))
  }

  // ----- reasons over the stream's own steps -----

  lemma MoreReasons(r: R.Receiver, es: set<Buffers.Error>, more: set<Buffers.Error>)
    requires R.ReasonsInv(r, es) && es <= more
    ensures R.ReasonsInv(r, more)
  {
  }

  // The reason of each handler that closes the stream is among `es`.
  predicate ReasonIn(e: Streams.Event, es: set<Buffers.Error>) {
    && (e.RemoteCloseEvent? ==> Buffers.Eof in es)
    && (e.RemoteResetEvent? ==> Buffers.Failure("stream reset by remote") in es)
    && (e.ResetEvent? ==> Buffers.Failure("stream reset") in es)
  }

  predicate ReasonsIn(own: seq<Streams.Event>, es: set<Buffers.Error>) {
    forall i :: 0 <= i < |own| ==> ReasonIn(own[i], es)
  }

  lemma HandlerReasons(m: Messenger, e: Streams.Event, es: set<Buffers.Error>)
    requires MessengerOk(m) && R.ReasonsInv(Reader(m), es) && ReasonIn(e, es) && !e.ReadEvent?
    ensures R.ReasonsInv(Reader(m.(ys := Streams.Step(m.ys, e))), es)
  {
    OtherIsReaderStep(m, e);
    match ReaderEvent(m.ys, e)
    case Some(x) => R.StepReasons(Reader(m), x, es);
    case None =>
  }

  lemma {:induction false} HandlersReasons(m: Messenger, own: seq<Streams.Event>, es: set<Buffers.Error>)
    requires MessengerOk(m) && R.ReasonsInv(Reader(m), es) && ReasonsIn(own, es) && Handlers(own)
    ensures R.ReasonsInv(Reader(m.(ys := Streams.Run(m.ys, own))), es)
    decreases |own|
  {
    if own == [] {
      assert m.(ys := m.ys) == m;
    } else {
      var n := m.(ys := Streams.Step(m.ys, own[0]));
      OtherOk(m, own[0]);
      HandlerReasons(m, own[0], es);
      HandlersReasons(n, own[1..], es);
      assert n.(ys := Streams.Run(n.ys, own[1..])) == m.(ys := Streams.Run(m.ys, own));
    }
  }

  lemma AppReasons(m: Messenger, e: Messages.Event, es: set<Buffers.Error>)
    requires MessengerOk(m) && R.ReasonsInv(Reader(m), es) && !e.Other?
    ensures R.ReasonsInv(Reader(Messages.Step(m, e)), es)
  {
    match e
    case RecvCall => R.StepReasons(Reader(m), R.Call, es);
    case RecvContinues => R.StepReasons(Reader(m), R.Resume, es);
    case SendCall(payload) => SendKeepsReader(m, payload);
    case SendContinues => SendKeepsReader(m, []);
  }

  // ----- which handlers a step of the session calls -----

  function Fins(s: S.Session, id: nat): bool
    requires AllValid(YamuxFormat, s.dispatched)
  {
    FinSeen(DispatchedFrames(s), id)
  }

  // A step that takes in a FIN has dispatched it, one that resets the stream has taken it off the table,
  // and no other step resets it but a call of reset().
  predicate Accounted(own: seq<Streams.Event>, s: S.Session, t: S.Session, id: nat, local: bool)
    requires AllValid(YamuxFormat, t.dispatched)
  {
    forall i :: 0 <= i < |own| ==>
      && (own[i].RemoteCloseEvent? ==> id in s.table && Fins(t, id))
      && (own[i].RemoteResetEvent? ==> id in s.table && id !in t.table)
      && (own[i].ResetEvent? ==> local)
  }

  // What stays: a FIN seen, and a stream off the table.
  predicate Later(s: S.Session, t: S.Session, id: nat)
    requires AllValid(YamuxFormat, s.dispatched) && AllValid(YamuxFormat, t.dispatched)
  {
    (Fins(s, id) ==> Fins(t, id)) && (id !in s.table ==> id !in t.table)
  }

  lemma LoopAccounted(s: S.Session, id: nat)
    requires S.SessionOk(s) && LoopInv(s) && P.Ready(s.buf, s.phase)
    ensures LoopInv(S.ResumeLoop(s)) && Later(s, S.ResumeLoop(s), id)
    ensures Accounted(LoopProjection(s, id), s, S.ResumeLoop(s), id, false)
  {
    ResumeLoopKeeps(s);
    P.OwnsContinue(YamuxFormat, s.buf, s.phase);
    match P.Continue(YamuxFormat, s.buf, s.phase)
    case Got(r) => RecordAccounted(s, r, id);
    case _ =>
  }

  // What a frame's own handlers stand for.
  lemma FrameAccounted(f: Frame)
    ensures forall i :: 0 <= i < |FrameEvents(f)| ==>
              && (FrameEvents(f)[i].RemoteCloseEvent? ==> HasFlag(f.flags, FLAG_FIN))
              && (FrameEvents(f)[i].RemoteResetEvent? ==> HasFlag(f.flags, FLAG_RST))
              && !FrameEvents(f)[i].ResetEvent?
  {
  }

  lemma DispatchTable(s: S.Session, f: Frame, id: nat)
    requires S.TableOk(s)
    ensures id !in s.table ==> id !in S.Dispatch(s, f).table
    ensures f.typ == TYPE_GO_AWAY || (S.ForStream(f) && f.id == id && HasFlag(f.flags, FLAG_RST)) ==>
              id !in S.Dispatch(s, f).table
  {
  }

  lemma DispatchAccounted(s: S.Session, f: Frame, t: S.Session, id: nat)
    requires S.TableOk(s) && AllValid(YamuxFormat, t.dispatched)
    requires t.table == S.Dispatch(s, f).table && (FinOf(f, id) ==> Fins(t, id))
    ensures Accounted(DispatchProjection(s, f, id), s, t, id, false)
  {
    DispatchTable(s, f, id);
    FrameAccounted(f);
  }

  lemma HandledIs(s: S.Session, r: Record)
    requires S.StreamsOk(s) && Valid(YamuxFormat, r)
    ensures S.HandleRecord(s, r).table == S.Dispatch(s, FromRecord(r)).table
    ensures S.HandleRecord(s, r).dispatched == s.dispatched + [r]
  {
    DispatchedGrows(s, r);
  }

  lemma FinsGrow(s: S.Session, t: S.Session, r: Record, id: nat)
    requires AllValid(YamuxFormat, s.dispatched) && Valid(YamuxFormat, r) && t.dispatched == s.dispatched + [r]
    ensures AllValid(YamuxFormat, t.dispatched)
    ensures Fins(t, id) <==> Fins(s, id) || FinOf(FromRecord(r), id)
  {
    FromRecordsAppend(s.dispatched, r);
    UntilFinAppend(DispatchedFrames(s), FromRecord(r), id);
  }

  lemma RecordAccounted(s: S.Session, r: Record, id: nat)
    requires S.StreamsOk(s) && Valid(YamuxFormat, r) && AllValid(YamuxFormat, s.dispatched)
    ensures var t := S.HandleRecord(s, r);
            && AllValid(YamuxFormat, t.dispatched) && Later(s, t, id)
            && Accounted(DispatchProjection(s, FromRecord(r), id), s, t, id, false)
  {
    var t := S.HandleRecord(s, r);
    HandledIs(s, r);
    FinsGrow(s, t, r, id);
    DispatchTable(s, FromRecord(r), id);
    DispatchAccounted(s, FromRecord(r), t, id);
  }

  lemma CallLater(s: S.Session, e: S.Event, id: nat)
    requires S.SessionOk(s) && T.IdsInv(s) && id in s.created && !e.LoopResumes?
    ensures S.Step(s, e).dispatched == s.dispatched && (id !in s.table ==> id !in S.Step(s, e).table)
    ensures (e.CloseCall? && !s.closed) || e.WsClose? ==> id !in S.Step(s, e).table
  {
  }

  lemma CallAccounted(s: S.Session, e: S.Event, id: nat)
    requires S.SessionOk(s) && T.IdsInv(s) && AllValid(YamuxFormat, s.dispatched) && id in s.created && !e.LoopResumes?
    ensures AllValid(YamuxFormat, S.Step(s, e).dispatched) && Later(s, S.Step(s, e), id)
    ensures Accounted(Projection(s, e, id), s, S.Step(s, e), id, ResetsLocally(e, id))
  {
    CallLater(s, e, id);
  }

  lemma ResumesAccounted(s: S.Session, id: nat)
    requires S.SessionOk(s) && LoopInv(s)
    ensures var t := S.Step(s, S.LoopResumes);
            && LoopInv(t) && Later(s, t, id) && Accounted(Projection(s, S.LoopResumes, id), s, t, id, false)
  {
    if P.Ready(s.buf, s.phase) {
      LoopAccounted(s, id);
    }
  }

  lemma StepAccounted(s: S.Session, e: S.Event, id: nat)
    requires S.SessionOk(s) && T.IdsInv(s) && LoopInv(s) && id in s.created
    ensures LoopInv(S.Step(s, e)) && Later(s, S.Step(s, e), id)
    ensures Accounted(Projection(s, e, id), s, S.Step(s, e), id, ResetsLocally(e, id))
  {
    if e.LoopResumes? {
      ResumesAccounted(s, id);
    } else {
      StepKeepsLoop(s, e);
      CallAccounted(s, e, id);
    }
  }

  // ----- over every run -----

  // The reasons there can be by now.
  function Reasons(fin: bool, local: bool, gone: bool): set<Buffers.Error> {
    (if fin then {Buffers.Eof} else {}) + (if local then {Buffers.Failure("stream reset")} else {}) +
    (if gone then {Buffers.Failure("stream reset by remote")} else {})
  }

  predicate Explained(p: Endpoint, id: nat, local: bool) {
    LoopInv(p.session) && R.ReasonsInv(Reader(p.m), Reasons(Fins(p.session, id), local, id !in p.session.table))
  }

  lemma NextSession(p: Endpoint, e: S.Event, id: nat)
    requires InOrder(p, id) && !Bypasses(e, id)
    ensures Next(p, Session(e), id).session == S.Step(p.session, e)
    ensures Next(p, Session(e), id).m == p.m.(ys := Streams.Run(p.m.ys, Projection(p.session, e, id)))
  {
    StepProjects(p.session, e, id);
  }

  lemma SessionExplained(p: Endpoint, e: S.Event, id: nat, local: bool)
    requires InOrder(p, id) && !Bypasses(e, id) && Explained(p, id, local) && (ResetsLocally(e, id) ==> local)
    ensures Explained(Next(p, Session(e), id), id, local)
  {
    var t := S.Step(p.session, e);
    StepAccounted(p.session, e, id);
    NextSession(p, e, id);
    ProjectionHandles(p.session, e, id);
    var es := Reasons(Fins(t, id), local, id !in t.table);
    MoreReasons(Reader(p.m), Reasons(Fins(p.session, id), local, id !in p.session.table), es);
    HandlersReasons(p.m, Projection(p.session, e, id), es);
  }

  lemma PutSameLoop(s: S.Session, id: nat, t: Streams.Stream)
    requires LoopInv(s) && id in s.created
    ensures LoopInv(S.Put(s, id, t)) && S.Put(s, id, t).dispatched == s.dispatched && S.Put(s, id, t).table == s.table
  {
  }

  lemma AppExplained(p: Endpoint, e: Messages.Event, id: nat, local: bool)
    requires InOrder(p, id) && Explained(p, id, local)
    ensures Explained(Next(p, App(e), id), id, local)
  {
    if !e.Other? {
      AppReasons(p.m, e, Reasons(Fins(p.session, id), local, id !in p.session.table));
      PutSameLoop(p.session, id, Messages.Step(p.m, e).ys);
    }
  }

  // No call of reset() on the stream in the run.
  predicate NeverReset(acts: seq<Act>, id: nat) {
    forall i :: 0 <= i < |acts| && acts[i].Session? ==> !ResetsLocally(acts[i].e, id)
  }

  lemma StepExplained(p: Endpoint, act: Act, id: nat, local: bool)
    requires InOrder(p, id) && Explained(p, id, local) && (act.Session? && ResetsLocally(act.e, id) ==> local)
    ensures Explained(Next(p, act, id), id, local)
  {
    match act
    case App(e) => AppExplained(p, e, id, local);
    case Session(e) =>
      if !Bypasses(e, id) {
        SessionExplained(p, e, id, local);
      }
  }

  lemma {:induction false} RunExplained(p: Endpoint, acts: seq<Act>, id: nat, local: bool)
    requires InOrder(p, id) && Explained(p, id, local) && (local || NeverReset(acts, id))
    ensures Explained(EndToEnd.Run(p, acts, id), id, local)
    decreases |acts|
  {
    if acts != [] {
      var q := Next(p, acts[0], id);
      StepExplained(p, acts[0], id, local);
      RunExplained(q, acts[1..], id, local);
    }
  }

  lemma StartExplained(pre: seq<S.Event>, local: bool)
    requires !After(pre).closed
    ensures Explained(Start(pre), After(pre).nextID, local)
  {
    StartLoop(pre);
  }

  lemma ReachedExplained(pre: seq<S.Event>, acts: seq<Act>, local: bool)
    requires !After(pre).closed && (local || NeverReset(acts, After(pre).nextID))
    ensures Explained(Reached(pre, acts), After(pre).nextID, local)
  {
    StartInOrder(pre);
    StartExplained(pre, local);
    RunExplained(Start(pre), acts, After(pre).nextID, local);
  }

  lemma FailureInReasons(m: Messenger, e: Buffers.Error, es: set<Buffers.Error>)
    requires FailsWith(m, e) && R.ReasonsInv(Reader(m), es)
    ensures e in es
  {
    if R.Failed(e) in m.results {
      var i :| 0 <= i < |m.results| && m.results[i] == R.Failed(e);
    }
  }

  lemma WhyItFails(p: Endpoint, id: nat, local: bool, e: Buffers.Error)
    requires Explained(p, id, local) && FailsWith(p.m, e)
    ensures || (e == Buffers.Eof && FinSeen(DispatchedFrames(p.session), id))
            || (e == Buffers.Failure("stream reset") && local)
            || (e == Buffers.Failure("stream reset by remote") && id !in p.session.table)
  {
    FailureInReasons(p.m, e, Reasons(Fins(p.session, id), local, id !in p.session.table));
  }

  // In every run of a session, whatever else happens in it: recv fails, and the stream is closed for
  // reading, with EOF only if the peer sent a FIN for it; with the error of a local reset only if reset()
  // was called; with that of a remote reset only if the stream has left the table; and with nothing else.
  lemma FailuresHaveReasons(pre: seq<S.Event>, acts: seq<Act>, e: Buffers.Error)
    requires !After(pre).closed && FailsWith(Reached(pre, acts).m, e)
    ensures AllValid(YamuxFormat, Reached(pre, acts).session.dispatched)
    ensures var id, s := After(pre).nextID, Reached(pre, acts).session;
            || (e == Buffers.Eof && FinSeen(DispatchedFrames(s), id))
            || (e == Buffers.Failure("stream reset") && !NeverReset(acts, id))
            || (e == Buffers.Failure("stream reset by remote") && id !in s.table)
  {
    var id := After(pre).nextID;
    var local := !NeverReset(acts, id);
    ReachedExplained(pre, acts, local);
    WhyItFails(Reached(pre, acts), id, local, e);
  }

  // ----- a stream cut short -----

  const CUT_SHORT: set<Buffers.Error> := {Buffers.Failure("stream reset"), Buffers.Failure("stream reset by remote")}

  // Off the table before any FIN.
  predicate CutShort(p: Endpoint, id: nat) {
    && LoopInv(p.session) && id !in p.session.table
    && p.m.ys.recv.closed && R.ReasonsInv(Reader(p.m), CUT_SHORT)
  }

  lemma CutShortStep(p: Endpoint, act: Act, id: nat)
    requires InOrder(p, id) && CutShort(p, id)
    ensures CutShort(Next(p, act, id), id)
  {
    match act
    case App(e) =>
      if !e.Other? {
        AppReasons(p.m, e, CUT_SHORT);
        PutSameLoop(p.session, id, Messages.Step(p.m, e).ys);
        AppKeepsClosed(p.m, e);
      }
    case Session(e) =>
      if !Bypasses(e, id) {
        StepAccounted(p.session, e, id);
        NextSession(p, e, id);
        ProjectionHandles(p.session, e, id);
        HandlersReasons(p.m, Projection(p.session, e, id), CUT_SHORT);
        OwnRunKeepsClosed(p.m.ys, Projection(p.session, e, id));
      }
  }

  lemma AppKeepsClosed(m: Messenger, e: Messages.Event)
    requires MessengerOk(m) && m.ys.recv.closed && !e.Other?
    ensures Messages.Step(m, e).ys.recv.closed
  {
    StepIsOneCall(m, e);
    match CallOf(m, e)
    case Some(call) => T.StreamStepShut(m.ys, call);
    case None =>
  }

  lemma {:induction false} OwnRunKeepsClosed(t: Streams.Stream, own: seq<Streams.Event>)
    requires Streams.Ok(t) && t.recv.closed
    ensures Streams.Run(t, own).recv.closed
    decreases |own|
  {
    if own != [] {
      Streams.StepOk(t, own[0]);
      T.StreamStepShut(t, own[0]);
      OwnRunKeepsClosed(Streams.Step(t, own[0]), own[1..]);
    }
  }

  lemma {:induction false} CutShortStays(p: Endpoint, acts: seq<Act>, id: nat)
    requires InOrder(p, id) && CutShort(p, id)
    ensures CutShort(EndToEnd.Run(p, acts, id), id)
    decreases |acts|
  {
    if acts != [] {
      CutShortStep(p, acts[0], id);
      CutShortStays(Next(p, acts[0], id), acts[1..], id);
    }
  }

  lemma StartShut(pre: seq<S.Event>)
    requires !After(pre).closed
    ensures T.ShutInv(Start(pre).session)
  {
    S.NewSessionOk();
    T.ShutdownSafety(S.NewSession(), pre);
    T.OpenShut(After(pre));
  }

  lemma ReachedShut(pre: seq<S.Event>, acts: seq<Act>)
    requires !After(pre).closed
    ensures T.ShutInv(Reached(pre, acts).session)
  {
    var id := After(pre).nextID;
    StartInOrder(pre);
    StartShut(pre);
    RunIsSession(Start(pre), acts, id);
    T.ShutdownSafety(Start(pre).session, Trace(Start(pre), acts, id));
  }

  lemma OffTheTable(p: Endpoint, id: nat)
    requires InOrder(p, id) && T.ShutInv(p.session) && id !in p.session.table
    ensures p.m.ys.recv.closed
  {
  }

  // No result looks like the end of the stream, and no call of recv hangs.
  predicate NoEndIn(m: Messenger) {
    && m.ys.recv.closed && !FailsWith(m, Buffers.Eof)
    && (forall i :: 0 <= i < |m.results| && m.results[i].Failed? ==> m.results[i].error in CUT_SHORT)
    && (R.AtRest(Reader(m)) ==> m.phase.Idle?)
  }

  lemma BecomesCutShort(p: Endpoint, id: nat)
    requires Explained(p, id, true) && p.m.ys.recv.closed && id !in p.session.table && !Fins(p.session, id)
    ensures CutShort(p, id)
  {
    MoreReasons(Reader(p.m), Reasons(false, true, true), CUT_SHORT);
  }

  lemma CutShortNoEnd(p: Endpoint, id: nat)
    requires InOrder(p, id) && CutShort(p, id)
    ensures NoEndIn(p.m)
  {
    if R.AtRest(Reader(p.m)) {
      R.ClosedNeverHangs(Reader(p.m));
    }
  }

  lemma ReachedOn(pre: seq<S.Event>, acts: seq<Act>, more: seq<Act>)
    requires !After(pre).closed
    ensures Reached(pre, acts + more) == EndToEnd.Run(Reached(pre, acts), more, After(pre).nextID)
  {
    StartInOrder(pre);
    Arrivals.RunConcat(Start(pre), acts, more, After(pre).nextID);
  }

  // Cut short at any point of any run - by close(), onclose, a GoAway, an RST - before the peer's FIN:
  // then in every continuation, whatever still arrives, every failure of recv is one of a reset.
  lemma CutShortIsNoEnd(pre: seq<S.Event>, acts: seq<Act>, more: seq<Act>)
    requires !After(pre).closed && After(pre).nextID !in Reached(pre, acts).session.table
    requires AllValid(YamuxFormat, Reached(pre, acts).session.dispatched)
    requires !FinSeen(DispatchedFrames(Reached(pre, acts).session), After(pre).nextID)
    ensures After(pre).nextID !in Reached(pre, acts + more).session.table && NoEndIn(Reached(pre, acts + more).m)
  {
    var id, p := After(pre).nextID, Reached(pre, acts);
    ReachedExplained(pre, acts, true);
    ReachedShut(pre, acts);
    OffTheTable(p, id);
    BecomesCutShort(p, id);
    CutShortStays(p, more, id);
    ReachedOn(pre, acts, more);
    CutShortNoEnd(Reached(pre, acts + more), id);
  }
}
