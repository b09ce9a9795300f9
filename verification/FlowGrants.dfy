/** The credit a session grants fits the 32-bit length field, however long it runs: that the peer keeps
    to its window bounds every window update. */
module FlowGrants {
  import opened Bytes
  import opened Records
  import opened YamuxFrames
  import opened StreamCredit
  import Streams
  import S = Sessions
  import P = Pulls
  import T = SessionTables
  import opened SessionParsing
  import opened SessionStreams
  import opened FlowControl

  const MAX_GRANT: nat := 2 * INITIAL_WINDOW

  predicate Modest(fs: seq<Frame>) {
    forall i :: 0 <= i < |fs| ==> fs[i].typ == TYPE_WINDOW_UPDATE ==> fs[i].length <= MAX_GRANT
  }

  // A payload the loop is about to handle was in flight, so it is within the books.
  lemma PayloadWithinBooks(y: System, f: Frame)
    requires FlowInv(y, f.id) && f.id in y.client.table && f.typ == TYPE_DATA
    requires DispatchedFrames(y.client) + [f] <= y.sent
    ensures |f.payload| <= y.client.created[f.id].recvWindow + INITIAL_WINDOW
  {
    var n := |y.client.dispatched|;
    DispatchedIsSent(y);
    assert y.sent[n] == (DispatchedFrames(y.client) + [f])[n] == f;
    assert InFlightDown(y)[0] == f;
    BooksBalance(y, f.id);
  }

  lemma AfterFrameGrants(t: Streams.Stream, f: Frame)
    requires Streams.Ok(t) && CreditInv(t) && (S.HasPayload(f) ==> |f.payload| <= t.recvWindow + INITIAL_WINDOW)
    ensures Modest(Streams.NewFrames(t, S.AfterFrame(t, f)))
  {
    T.AfterFrameSent(t, f);
  }

  predicate WithinBooks(s: S.Session, f: Frame) {
    f.typ == TYPE_DATA && f.id in s.table && f.id in s.created ==>
      Streams.Ok(s.created[f.id]) && CreditInv(s.created[f.id]) && |f.payload| <= s.created[f.id].recvWindow + INITIAL_WINDOW
  }

  lemma DispatchGrants(s: S.Session, f: Frame)
    requires S.StreamsOk(s) && WithinBooks(s, f) && Modest(s.log)
    ensures Modest(S.Dispatch(s, f).log)
  {
    if f.typ == TYPE_DATA && f.id in s.table {
      AfterFrameGrants(s.created[f.id], f);
    }
  }

  lemma InHandWithinBooks(y: System, r: Record)
    requires Valid(YamuxFormat, r) && FlowInv(y, FromRecord(r).id)
    requires DispatchedFrames(y.client) + [FromRecord(r)] <= y.sent
    ensures WithinBooks(y.client, FromRecord(r))
  {
    var f := FromRecord(r);
    if f.typ == TYPE_DATA && f.id in y.client.table {
      PayloadWithinBooks(y, f);
    }
  }

  // The record the loop has in hand is the next frame the peer sent.
  lemma InHandIsNext(y: System, r: Record)
    requires Joined(y) && Valid(YamuxFormat, r)
    requires S.Step(y.client, S.LoopResumes).dispatched == y.client.dispatched + [r]
    ensures DispatchedFrames(y.client) + [FromRecord(r)] <= y.sent
  {
    StepJoined(y, ClientDoes(S.LoopResumes));
    DispatchedIsSent(Step(y, ClientDoes(S.LoopResumes)));
    FromRecordsAppend(y.client.dispatched, r);
  }

  lemma HandleGrants(y: System, r: Record)
    requires Joined(y) && P.Ready(y.client.buf, y.client.phase) && Valid(YamuxFormat, r)
    requires S.Step(y.client, S.LoopResumes) == S.HandleRecord(y.client, r)
    requires FlowInv(y, FromRecord(r).id) && Modest(y.client.log)
    ensures Modest(S.HandleRecord(y.client, r).log)
  {
    DispatchedGrows(y.client, r);
    InHandIsNext(y, r);
    InHandWithinBooks(y, r);
    DispatchGrants(y.client, FromRecord(r));
  }

  lemma LoopGrants(y: System)
    requires Joined(y) && (forall id: nat :: FlowInv(y, id))
    requires Modest(y.client.log)
    ensures Modest(S.Step(y.client, S.LoopResumes).log)
  {
    var s := y.client;
    if P.Ready(s.buf, s.phase) {
      P.OwnsContinue(YamuxFormat, s.buf, s.phase);
      match P.Continue(YamuxFormat, s.buf, s.phase)
      case Got(r) => HandleGrants(y, r);
      case _ =>
    }
  }

  lemma CallGrants(t: Streams.Stream, call: Streams.Event)
    requires S.IsCall(call)
    ensures Modest(Streams.NewFrames(t, Streams.Step(t, call)))
  {
  }

  lemma StepGrants(y: System, e: Event)
    requires Joined(y) && (forall id: nat :: FlowInv(y, id))
    requires Modest(y.client.log)
    ensures Modest(Step(y, e).client.log)
  {
    if e.ClientDoes? {
      match e.e
      case LoopResumes => LoopGrants(y);
      case StreamCall(k, call) =>
        if k in y.client.created && S.IsCall(call) {
          CallGrants(y.client.created[k], call);
        }
      case _ =>
    }
  }

  lemma {:induction false} RunGrants(y: System, events: seq<Event>)
    requires forall id: nat :: FlowInv(y, id)
    requires Joined(y) && Modest(y.client.log)
    ensures Modest(Run(y, events).client.log)
    decreases |events|
  {
    if events != [] {
      StepGrants(y, events[0]);
      StepJoined(y, events[0]);
      forall id: nat ensures FlowInv(Step(y, events[0]), id) {
        StepKeepsFlow(y, events[0], id);
      }
      RunGrants(Step(y, events[0]), events[1..]);
    }
  }

  // In every run with a peer that keeps to its window, every window update the session sends, the
  // SYN's included, grants at most two windows.
  lemma GrantsFit(events: seq<Event>)
    ensures Joined(NewSystem())
    ensures var log := Run(NewSystem(), events).client.log;
            forall i :: 0 <= i < |log| ==> log[i].typ == TYPE_WINDOW_UPDATE ==> log[i].length <= MAX_GRANT < TWO_TO_THE_32
  {
    forall id: nat ensures FlowInv(NewSystem(), id) {
      NewSystemFlow(id);
    }
    NewSystemFlow(0);
    RunGrants(NewSystem(), events);
  }
}
