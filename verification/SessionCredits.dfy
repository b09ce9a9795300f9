/** The credit the read loop hands to a stream: the window updates that name it, all of them, as long as
    the stream is in the table. */
module SessionCredits {
  import opened Records
  import opened YamuxFrames
  import opened Streams
  import S = Sessions
  import P = Pulls
  import T = SessionTables
  import opened SessionStreams
  import opened SessionLogs

  // A stream of the table has been given all the credit dispatched to it, but for what came before it was
  // opened.
  predicate Credited(s: S.Session, id: nat, before: nat) {
    && AllValid(YamuxFormat, s.dispatched) && id in s.created
    && (id in s.table ==> s.created[id].credit + before == CreditOf(FromRecords(s.dispatched), id))
  }

  // The credit a frame brings the stream it names.
  function Brought(f: Frame): nat {
    if f.typ == TYPE_WINDOW_UPDATE then f.length else 0
  }

  lemma MaybeCredits(t: Stream, c: bool, e: Event)
    ensures S.Maybe(t, c, e).credit == t.credit + (if c && e.WindowUpdateEvent? then e.delta else 0)
  {
  }

  lemma AfterFrameCredits(t: Stream, f: Frame)
    requires S.ForStream(f)
    ensures S.AfterFrame(t, f).credit == t.credit + Brought(f)
  {
    var t1 := S.Maybe(t, S.HasPayload(f), DataEvent(f.payload));
    MaybeCredits(t, S.HasPayload(f), DataEvent(f.payload));
    var t2 := S.Maybe(t1, HasFlag(f.flags, FLAG_FIN), RemoteCloseEvent);
    MaybeCredits(t1, HasFlag(f.flags, FLAG_FIN), RemoteCloseEvent);
    var t3 := S.Maybe(t2, HasFlag(f.flags, FLAG_RST), RemoteResetEvent);
    MaybeCredits(t2, HasFlag(f.flags, FLAG_RST), RemoteResetEvent);
    MaybeCredits(t3, f.typ != TYPE_DATA, WindowUpdateEvent(f.length));
  }

  lemma CreditGrows(rs: seq<Record>, r: Record, id: nat)
    requires AllValid(YamuxFormat, rs) && Valid(YamuxFormat, r)
    ensures AllValid(YamuxFormat, rs + [r])
    ensures var f := FromRecord(r);
            CreditOf(FromRecords(rs + [r]), id) ==
            CreditOf(FromRecords(rs), id) + (if Belongs(f, id) then Brought(f) else 0)
  {
    FromRecordsAppend(rs, r);
    CreditConcat(FromRecords(rs), [FromRecord(r)], id);
    CreditOfOne(FromRecord(r), id);
  }

  lemma CreditOfOne(f: Frame, id: nat)
    ensures CreditOf([f], id) == if Belongs(f, id) then Brought(f) else 0
  {
    assert [f][1..] == [];
  }

  lemma DispatchCredits(s: S.Session, f: Frame, id: nat)
    requires S.StreamsOk(s) && T.IdsInv(s) && id in s.created
    ensures var t := S.Dispatch(s, f);
            && id in t.created
            && (id in t.table ==>
                  id in s.table && t.created[id].credit == s.created[id].credit + (if Belongs(f, id) then Brought(f) else 0))
  {
    if f.typ == TYPE_GO_AWAY {
    } else if Belongs(f, id) {
      AfterFrameCredits(s.created[id], f);
    } else {
      T.NonInterference(s, f);
    }
  }

  lemma HandleCredits(s: S.Session, r: Record, id: nat, before: nat)
    requires S.StreamsOk(s) && T.IdsInv(s) && Valid(YamuxFormat, r) && Credited(s, id, before)
    ensures Credited(S.HandleRecord(s, r), id, before)
  {
    DispatchCredits(s, FromRecord(r), id);
    DispatchedGrows(s, r);
    CreditGrows(s.dispatched, r, id);
  }

  lemma LoopCredits(s: S.Session, id: nat, before: nat)
    requires S.SessionOk(s) && T.IdsInv(s) && Credited(s, id, before) && P.Ready(s.buf, s.phase)
    ensures Credited(S.ResumeLoop(s), id, before)
  {
    P.OwnsContinue(YamuxFormat, s.buf, s.phase);
    match P.Continue(YamuxFormat, s.buf, s.phase)
    case Got(r) => HandleCredits(s, r, id, before);
    case _ =>
  }

  lemma CallCredits(t: Stream, call: Event)
    requires S.IsCall(call)
    ensures Step(t, call).credit == t.credit
  {
  }

  lemma StepCredits(s: S.Session, e: S.Event, id: nat, before: nat)
    requires S.SessionOk(s) && T.IdsInv(s) && Credited(s, id, before)
    ensures Credited(S.Step(s, e), id, before)
  {
    match e
    case LoopResumes =>
      if P.Ready(s.buf, s.phase) {
        LoopCredits(s, id, before);
      }
    case StreamCall(k, call) =>
      if k == id && S.IsCall(call) {
        CallCredits(s.created[id], call);
      }
    case _ =>
  }

  // Over every run.
  lemma {:induction false} RunCredits(s: S.Session, events: seq<S.Event>, id: nat, before: nat)
    requires S.SessionOk(s) && T.IdsInv(s) && Credited(s, id, before)
    ensures Credited(S.Run(s, events), id, before)
    decreases |events|
  {
    if events != [] {
      S.SessionStepOk(s, events[0]);
      T.StepIds(s, events[0]);
      StepCredits(s, events[0], id, before);
      RunCredits(S.Step(s, events[0]), events[1..], id, before);
    }
  }
}
