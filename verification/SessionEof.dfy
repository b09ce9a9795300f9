/** What a stream that is never reset takes in: the data dispatched to it up to the peer's FIN, and then
    EOF. */
module SessionEof {
  import opened Bytes
  import opened Records
  import opened YamuxFrames
  import opened Streams
  import S = Sessions
  import P = Pulls
  import T = SessionTables
  import opened SessionStreams
  import opened SessionFeeding
  import Buffers

  // The peer has sent a FIN for stream `id`.
  function FinSeen(fs: seq<Frame>, id: nat): bool {
    fs != [] && (FinSeen(fs[..|fs| - 1], id) || FinOf(fs[|fs| - 1], id))
  }

  predicate FinOf(f: Frame, id: nat) {
    S.ForStream(f) && f.id == id && HasFlag(f.flags, FLAG_FIN)
  }

  // The data for stream `id` up to and with the first frame that carries its FIN.
  function UntilFin(fs: seq<Frame>, id: nat): seq<Byte> {
    if fs == [] then []
    else
      var front, f := fs[..|fs| - 1], fs[|fs| - 1];
      UntilFin(front, id) + (if FinSeen(front, id) then [] else Share(f, id))
  }

  lemma UntilFinAppend(fs: seq<Frame>, f: Frame, id: nat)
    ensures FinSeen(fs + [f], id) <==> FinSeen(fs, id) || FinOf(f, id)
    ensures UntilFin(fs + [f], id) == UntilFin(fs, id) + (if FinSeen(fs, id) then [] else Share(f, id))
  {
    assert (fs + [f])[..|fs|] == fs;
  }

  // More frames only add data, and none after a FIN.
  lemma {:induction false} UntilFinPrefix(a: seq<Frame>, b: seq<Frame>, id: nat)
    requires a <= b
    ensures UntilFin(a, id) <= UntilFin(b, id)
    ensures FinSeen(a, id) ==> FinSeen(b, id) && UntilFin(a, id) == UntilFin(b, id)
    decreases |b|
  {
    if a != b {
      var front, f := b[..|b| - 1], b[|b| - 1];
      UntilFinPrefix(a, front, id);
      assert b == front + [f];
      UntilFinAppend(front, f, id);
      ConcatEmpty(UntilFin(front, id));
    }
  }

  // A stream that was never reset is in the table; it has accepted the data up to the FIN, and is closed
  // for reading exactly by that.
  predicate FedUntilFin(t: Stream, inTable: bool, fs: seq<Frame>, id: nat) {
    t.resets == 0 ==>
      && inTable && t.recv.accepted == UntilFin(fs, id)
      && (t.recv.closed <==> FinSeen(fs, id))
      && (t.recv.closed ==> t.recv.closeError == Some(Buffers.Eof))
  }

  predicate EofInv(s: S.Session, id: nat) {
    && AllValid(YamuxFormat, s.dispatched) && id in s.created
    && FedUntilFin(s.created[id], id in s.table, FromRecords(s.dispatched), id)
  }

  lemma MaybeCloses(t: Stream, c: bool, e: Event)
    requires e.RemoteCloseEvent? || e.WindowUpdateEvent?
    ensures var u := S.Maybe(t, c, e);
            && u.resets == t.resets && u.recv.accepted == t.recv.accepted
            && (u.recv.closed <==> t.recv.closed || (c && e.RemoteCloseEvent?))
            && (u.recv.closeError == if c && e.RemoteCloseEvent? then Some(Buffers.Eof) else t.recv.closeError)
  {
  }

  // What a frame without RST does to the stream it names.
  lemma AfterFrameCloses(t: Stream, f: Frame)
    requires !HasFlag(f.flags, FLAG_RST)
    ensures var u, fin := S.AfterFrame(t, f), HasFlag(f.flags, FLAG_FIN);
            && u.resets == t.resets && (u.recv.closed <==> t.recv.closed || fin)
            && u.recv.closeError == (if fin then Some(Buffers.Eof) else t.recv.closeError)
  {
    var t1 := S.Maybe(t, S.HasPayload(f), DataEvent(f.payload));
    MaybeCloses(t1, HasFlag(f.flags, FLAG_FIN), RemoteCloseEvent);
    MaybeCloses(S.Maybe(t1, HasFlag(f.flags, FLAG_FIN), RemoteCloseEvent), f.typ != TYPE_DATA, WindowUpdateEvent(f.length));
  }

  lemma AfterFrameResets(t: Stream, f: Frame)
    ensures S.AfterFrame(t, f).resets == t.resets + (if HasFlag(f.flags, FLAG_RST) then 1 else 0)
  {
  }

  lemma OwnFrameEof(t: Stream, f: Frame, fs: seq<Frame>, id: nat)
    requires FedUntilFin(t, true, fs, id) && S.ForStream(f) && f.id == id
    ensures FedUntilFin(S.AfterFrame(t, f), !HasFlag(f.flags, FLAG_RST), fs + [f], id)
  {
    UntilFinAppend(fs, f, id);
    AfterFrameResets(t, f);
    if !HasFlag(f.flags, FLAG_RST) {
      AfterFrameFeeds(t, f);
      AfterFrameCloses(t, f);
      ConcatEmpty(UntilFin(fs, id));
    }
  }

  lemma OtherFrameEof(t: Stream, inTable: bool, f: Frame, fs: seq<Frame>, id: nat)
    requires FedUntilFin(t, inTable, fs, id) && !(S.ForStream(f) && f.id == id)
    ensures FedUntilFin(t, inTable, fs + [f], id)
  {
    UntilFinAppend(fs, f, id);
    ConcatEmpty(UntilFin(fs, id));
  }

  lemma DispatchEof(s: S.Session, f: Frame, fs: seq<Frame>, id: nat)
    requires S.StreamsOk(s) && T.IdsInv(s) && id in s.created
    requires FedUntilFin(s.created[id], id in s.table, fs, id)
    ensures var t := S.Dispatch(s, f); id in t.created && FedUntilFin(t.created[id], id in t.table, fs + [f], id)
  {
    if f.typ == TYPE_GO_AWAY {
    } else if S.ForStream(f) && f.id == id {
      if id in s.table {
        OwnFrameEof(s.created[id], f, fs, id);
      }
    } else {
      T.NonInterference(s, f);
      OtherFrameEof(s.created[id], id in s.table, f, fs, id);
    }
  }

  lemma HandleEof(s: S.Session, r: Record, id: nat)
    requires S.StreamsOk(s) && T.IdsInv(s) && Valid(YamuxFormat, r) && EofInv(s, id)
    ensures EofInv(S.HandleRecord(s, r), id)
  {
    DispatchEof(s, FromRecord(r), FromRecords(s.dispatched), id);
    DispatchedGrows(s, r);
    FromRecordsAppend(s.dispatched, r);
  }

  lemma LoopEof(s: S.Session, id: nat)
    requires S.SessionOk(s) && T.IdsInv(s) && EofInv(s, id) && P.Ready(s.buf, s.phase)
    ensures EofInv(S.ResumeLoop(s), id)
  {
    P.OwnsContinue(YamuxFormat, s.buf, s.phase);
    match P.Continue(YamuxFormat, s.buf, s.phase)
    case Got(r) => HandleEof(s, r, id);
    case _ =>
  }

  lemma CallEof(t: Stream, call: Event, inTable: bool, fs: seq<Frame>, id: nat)
    requires S.IsCall(call) && FedUntilFin(t, inTable, fs, id)
    ensures FedUntilFin(Step(t, call), inTable, fs, id)
  {
  }

  lemma StepEof(s: S.Session, e: S.Event, id: nat)
    requires S.SessionOk(s) && T.IdsInv(s) && EofInv(s, id)
    ensures EofInv(S.Step(s, e), id)
  {
    match e
    case LoopResumes =>
      if P.Ready(s.buf, s.phase) {
        LoopEof(s, id);
      }
    case StreamCall(k, call) =>
      if k == id && S.IsCall(call) {
        CallEof(s.created[id], call, id in s.table, FromRecords(s.dispatched), id);
      }
    case _ =>
  }

  // In every run, for every stream never reset.
  lemma {:induction false} RunEof(s: S.Session, events: seq<S.Event>, id: nat)
    requires S.SessionOk(s) && T.IdsInv(s) && EofInv(s, id)
    ensures EofInv(S.Run(s, events), id)
    decreases |events|
  {
    if events != [] {
      S.SessionStepOk(s, events[0]);
      T.StepIds(s, events[0]);
      StepEof(s, events[0], id);
      RunEof(S.Step(s, events[0]), events[1..], id);
    }
  }
}
