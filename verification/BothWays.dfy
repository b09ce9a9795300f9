/** Two sessions joined in both directions.  What the receiver grants comes back to the sender, and so a
    payload of any size gets through: the two cannot come to rest with anything left unsent or unread. */
module BothWays {
  import opened Bytes
  import opened Records
  import opened YamuxFrames
  import opened Messages
  import opened MessageSends
  import opened EndToEnd
  import Streams
  import W = StreamWrites
  import C = StreamCredit
  import R = Receiving
  import A = AppFrames
  import S = Sessions
  import opened SessionParsing
  import opened SessionStreams
  import opened SessionLogs
  import opened SessionCredits

  // ----- the books of a stream from its opening on -----

  lemma ReachedBooks(pre: seq<S.Event>, acts: seq<Act>)
    requires !After(pre).closed
    ensures W.SendInv(Reached(pre, acts).m.ys) && C.CreditInv(Reached(pre, acts).m.ys)
  {
    var id := After(pre).nextID;
    StartInOrder(pre);
    RunIsSession(Start(pre), acts, id);
    var trace := Trace(Start(pre), acts, id);
    RunProjects(Start(pre).session, trace, id);
    var own := ProjectRun(Start(pre).session, trace, id);
    W.NewStreamRun(id, own);
    OwnRunKeepsCredit(id, own);
  }

  // Credit for the stream that arrived before it was opened, and was ignored.
  function Early(pre: seq<S.Event>): nat {
    StartLoop(pre);
    CreditOf(DispatchedFrames(After(pre)), After(pre).nextID)
  }

  lemma ReachedCredited(pre: seq<S.Event>, acts: seq<Act>)
    requires !After(pre).closed
    ensures Credited(Reached(pre, acts).session, After(pre).nextID, Early(pre))
  {
    var id := After(pre).nextID;
    StartInOrder(pre);
    StartLoop(pre);
    assert Start(pre).session.dispatched == After(pre).dispatched;
    RunIsSession(Start(pre), acts, id);
    RunCredits(Start(pre).session, Trace(Start(pre), acts, id), id, Early(pre));
  }

  lemma ReachedLog(pre: seq<S.Event>, acts: seq<Act>)
    requires !After(pre).closed
    ensures LogShaped(Reached(pre, acts).session.log)
    ensures CreditOf(Reached(pre, acts).session.log, After(pre).nextID) ==
            INITIAL_WINDOW + C.Granted(Reached(pre, acts).m.ys.sent)
  {
    var id := After(pre).nextID;
    StartInOrder(pre);
    StartLog(pre, id);
    RunIsSession(Start(pre), acts, id);
    LogIsTheStreams(Start(pre).session, Trace(Start(pre), acts, id), id);
    LogCarries(Reached(pre, acts).session, id);
  }

  // ----- at rest -----

  // The session is open, its read loop parked and the stream in its table.
  predicate LoopAtRest(p: Endpoint, id: nat) {
    !p.session.closed && p.session.buf.waiting.Some? && id in p.session.table
  }

  // No write and no send is waiting for the engine.
  predicate SenderAtRest(m: Messenger) {
    m.ys.woken == [] && (Outstanding(m.tx) ==> !WriteReturned(m.ys))
  }

  // All that one end has put on the wire has reached the other.
  predicate AllIn(pre: seq<S.Event>, acts: seq<Act>, from: Endpoint)
    requires !After(pre).closed
  {
    Fits(from.session.log) && BytesIn(pre, acts) == Wire(from.session.log)
  }

  lemma AllDispatched(pre: seq<S.Event>, acts: seq<Act>, from: Endpoint)
    requires !After(pre).closed && LogShaped(from.session.log) && AllIn(pre, acts, from)
    requires LoopAtRest(Reached(pre, acts), After(pre).nextID)
    ensures AllValid(YamuxFormat, Reached(pre, acts).session.dispatched)
    ensures DispatchedFrames(Reached(pre, acts).session) == from.session.log
  {
    ReachedAccepts(pre, acts);
    ParkedHasAll(Reached(pre, acts).session, from.session.log);
  }

  // What the sender's stream has sent is what the receiver's has taken in.
  lemma SentIsReceived(preA: seq<S.Event>, actsA: seq<Act>, preB: seq<S.Event>, actsB: seq<Act>)
    requires !After(preA).closed && !After(preB).closed && After(preA).nextID == After(preB).nextID && Unused(preB)
    requires AllIn(preB, actsB, Reached(preA, actsA)) && LoopAtRest(Reached(preB, actsB), After(preB).nextID)
    ensures Reached(preB, actsB).m.ys.received == |W.Payloads(Reached(preA, actsA).m.ys.sent)|
  {
    SenderSide(preA, actsA);
    AllDispatched(preB, actsB, Reached(preA, actsA));
    ReachedFed(preB, actsB);
  }

  // The sender's credit is what the receiver granted, but for what came early.
  lemma GrantedIsCredit(preA: seq<S.Event>, actsA: seq<Act>, preB: seq<S.Event>, actsB: seq<Act>)
    requires !After(preA).closed && !After(preB).closed && After(preA).nextID == After(preB).nextID
    requires AllIn(preA, actsA, Reached(preB, actsB)) && LoopAtRest(Reached(preA, actsA), After(preA).nextID)
    ensures Reached(preA, actsA).m.ys.credit + Early(preA) == INITIAL_WINDOW + C.Granted(Reached(preB, actsB).m.ys.sent)
  {
    ReachedLog(preB, actsB);
    AllDispatched(preA, actsA, Reached(preB, actsB));
    ReachedCredited(preA, actsA);
  }

  // A sender that has used up its window, against a receiver that keeps at least half of its own open:
  // both cannot be.
  lemma CreditSuffices(a: Streams.Stream, b: Streams.Stream, early: nat)
    requires Streams.Ok(a) && W.SendInv(a) && C.CreditInv(b) && a.woken == [] && 2 * early < 3 * INITIAL_WINDOW
    requires b.received == |W.Payloads(a.sent)|
    requires a.credit + early == INITIAL_WINDOW + C.Granted(b.sent)
    ensures W.Pending(a) == []
  {
    W.AtRest(a);
  }

  lemma NothingOutstanding(m: Messenger)
    requires SenderAtRest(m) && W.Pending(m.ys) == []
    ensures !Outstanding(m.tx)
  {
  }

  // No standstill, for payloads of any size: whatever two sessions have done, when all bytes are in on
  // both sides, both read loops and recv are parked and neither a write nor a send waits for the engine,
  // then every write has returned and no send is waiting - nor, unless a send has failed, has any payload
  // passed to send not been returned by recv.  Of the stream's credit less than one and a half windows may
  // have come, and been ignored, before the stream was opened; a SYN grants one.
  lemma NoStandstill(preA: seq<S.Event>, actsA: seq<Act>, preB: seq<S.Event>, actsB: seq<Act>)
    requires !After(preA).closed && !After(preB).closed && After(preA).nextID == After(preB).nextID
    requires Unused(preB) && 2 * Early(preA) < 3 * INITIAL_WINDOW
    requires AllIn(preB, actsB, Reached(preA, actsA)) && AllIn(preA, actsA, Reached(preB, actsB))
    requires LoopAtRest(Reached(preA, actsA), After(preA).nextID) && SenderAtRest(Reached(preA, actsA).m)
    requires BothParked(Reached(preB, actsB), After(preB).nextID)
    ensures W.Pending(Reached(preA, actsA).m.ys) == [] && !Outstanding(Reached(preA, actsA).m.tx)
    ensures var sent, received := Attempted(Reached(preA, actsA).m), BeforeFailure(Reached(preB, actsB).m.results);
            SendsCleanly(preA, actsA) && Reached(preA, actsA).m.tx.Between? && A.AllSendable(DataFrames(sent)) ==>
              |received| == |sent| && forall i :: 0 <= i < |received| ==> received[i] == R.Payload(sent[i])
  {
    var a, b := Reached(preA, actsA), Reached(preB, actsB);
    ReachedBooks(preA, actsA);
    ReachedBooks(preB, actsB);
    SentIsReceived(preA, actsA, preB, actsB);
    GrantedIsCredit(preA, actsA, preB, actsB);
    CreditSuffices(a.m.ys, b.m.ys, Early(preA));
    NothingOutstanding(a.m);
    if SendsCleanly(preA, actsA) && a.m.tx.Between? && A.AllSendable(DataFrames(Attempted(a.m))) {
      EverythingArrives(preA, actsA, preB, actsB);
    }
  }
}
