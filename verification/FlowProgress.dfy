/** The receiver never stalls the sender for good: from every reachable state the channels can be
    emptied, and then the peer has at least half a window, and the extra window of the SYN, to send. */
module FlowProgress {
  import opened Bytes
  import opened Records
  import opened YamuxFrames
  import S = Sessions
  import P = Pulls
  import opened SessionParsing
  import opened FlowControl
  import opened SessionLogs
  import Buffers

  // Only the network and the engine move: no call of a user, nothing more from the peer.
  predicate IsDelivery(e: Event) {
    e.PeerHears? || e.Arrives? || e == ClientDoes(S.LoopResumes)
  }

  predicate OnlyDelivery(events: seq<Event>) {
    forall i :: 0 <= i < |events| ==> IsDelivery(events[i])
  }

  lemma RunFirst(y: System, events: seq<Event>)
    requires Joined(y) && events != []
    ensures Joined(Step(y, events[0])) && Run(y, events) == Run(Step(y, events[0]), events[1..])
  {
    StepJoined(y, events[0]);
  }

  lemma RunNone(y: System)
    requires Joined(y)
    ensures Run(y, []) == y
  {
  }

  lemma RunCons(y: System, e: Event, rest: seq<Event>)
    requires Joined(y)
    ensures Joined(Step(y, e)) && Run(y, [e] + rest) == Run(Step(y, e), rest)
  {
    RunFirst(y, [e] + rest);
    ConcatFirst([e], rest);
    ConcatEmpty(rest);
  }

  // ----- the read loop catches up -----

  // What the loop may still have to do with what has arrived.
  function Backlog(s: S.Session): nat {
    2 * |s.buf.data| +
    (if !P.Ready(s.buf, s.phase) then 0 else if P.LastOutcome(s.buf).Rejected? then 1 else 2)
  }

  // After a read of at least one byte: parked, or served from the data, or rejected with the data
  // left as it is.
  lemma ReadBacklog(b: Buffers.Buffer, n: nat)
    requires n > 0
    ensures var c := Buffers.ReadExact(b, n);
            && |c.calls| > 0
            && (if P.LastOutcome(c).Resolved? then |c.data| < |b.data| else c.data == b.data)
  {
  }

  // Every continuation of the loop shrinks its backlog, so it cannot run for ever on what arrived.
  lemma BacklogShrinks(s: S.Session)
    requires S.SessionOk(s) && P.Ready(s.buf, s.phase)
    ensures Backlog(S.ResumeLoop(s)) < Backlog(s)
  {
    P.OwnsContinue(YamuxFormat, s.buf, s.phase);
    match P.Continue(YamuxFormat, s.buf, s.phase)
    case Suspended(_, next) => ReadBacklog(s.buf, BodyLength(YamuxFormat, next.header));
    case Raised(_) =>
    case Got(r) =>
      DispatchKeepsLoop(s, FromRecord(r));
      ReadBacklog(s.buf, YAMUX_HEADER_SIZE);
  }

  // The loop has dispatched all it can.
  predicate CaughtUp(y: System) {
    !P.Ready(y.client.buf, y.client.phase)
  }

  lemma LoopBacklog(s: S.Session)
    requires S.SessionOk(s) && P.Ready(s.buf, s.phase)
    ensures Backlog(S.Step(s, S.LoopResumes)) < Backlog(s)
  {
    BacklogShrinks(s);
  }

  function Loop(y: System): System
    requires S.SessionOk(y.client)
  {
    y.(client := S.Step(y.client, S.LoopResumes))
  }

  lemma LoopStep(y: System)
    requires Joined(y)
    ensures Joined(Loop(y)) && Step(y, ClientDoes(S.LoopResumes)) == Loop(y)
  {
    StepJoined(y, ClientDoes(S.LoopResumes));
  }

  // Everything the peer sent has reached its stream, and the peer has heard everything.
  predicate NothingInFlight(y: System)
    requires Joined(y)
  {
    InFlightDown(y) == [] && InFlightUp(y) == []
  }

  // A loop of an open session that has caught up with all that was sent has dispatched all of it.
  lemma CaughtUpHasAll(y: System)
    requires Joined(y) && CaughtUp(y) && y.arrived == |Wire(y.sent)| && !y.client.closed
    ensures InFlightDown(y) == []
  {
    var s := y.client;
    assert s.buf.waiting.Some?;
    P.ParkedMeansParsed(YamuxFormat, s.buf, s.phase, s.dispatched);
    assert s.buf.accepted == Wire(y.sent) + [];
    ParseInvertsWire(y.sent, []);
    assert |Split(YamuxFormat, s.buf.accepted)| == |ParseFrames(s.buf.accepted)|;
  }

  // ----- every way of delivering ends there -----

  // A push adds at most its bytes to the backlog: a reader it settles takes at least one of them.
  lemma PushBacklog(s: S.Session, data: seq<Byte>)
    requires S.SessionOk(s)
    ensures Backlog(S.OnMessage(s, data)) <= Backlog(s) + 2 * |data|
  {
  }

  lemma DispatchLogs(s: S.Session, f: Frame)
    requires S.StreamsOk(s)
    ensures |S.Dispatch(s, f).log| <= |s.log| + 1
  {
    if S.ForStream(f) && f.id in s.table {
      AfterFrameShaped(s.created[f.id], f);
    }
  }

  // A continuation of the loop sends at most one frame.
  lemma LoopLogs(s: S.Session)
    requires S.SessionOk(s) && P.Ready(s.buf, s.phase)
    ensures |S.ResumeLoop(s).log| <= |s.log| + 1
  {
    P.OwnsContinue(YamuxFormat, s.buf, s.phase);
    match P.Continue(YamuxFormat, s.buf, s.phase)
    case Got(r) => DispatchLogs(s, FromRecord(r));
    case _ =>
  }

  // What is left to deliver: bytes to arrive, bytes and promises for the loop, frames for the peer.
  function Undelivered(y: System): nat
    requires Joined(y)
  {
    5 * (|Wire(y.sent)| - y.arrived) + 2 * Backlog(y.client) + (|y.client.log| - y.heard)
  }

  lemma ArrivalShrinks(y: System, n: nat)
    requires Joined(y) && Joined(Step(y, Arrives(n))) && Incoming(y, n) != []
    ensures Undelivered(Step(y, Arrives(n))) < Undelivered(y)
  {
    PushBacklog(y.client, Incoming(y, n));
  }

  lemma LoopShrinks(y: System)
    requires Joined(y) && Joined(Loop(y)) && P.Ready(y.client.buf, y.client.phase)
    ensures Undelivered(Loop(y)) < Undelivered(y)
  {
    LoopMoves(y.client);
  }

  lemma LoopMoves(s: S.Session)
    requires S.SessionOk(s) && P.Ready(s.buf, s.phase)
    ensures var t := S.Step(s, S.LoopResumes); Backlog(t) < Backlog(s) && |t.log| <= |s.log| + 1
  {
    LoopBacklog(s);
    LoopLogs(s);
  }

  // A delivery changes nothing, or there is less left to deliver.
  lemma DeliveryShrinks(y: System, e: Event)
    requires Joined(y) && IsDelivery(e)
    ensures Joined(Step(y, e)) && (Step(y, e) == y || Undelivered(Step(y, e)) < Undelivered(y))
  {
    StepJoined(y, e);
    match e
    case Arrives(n) =>
      if Incoming(y, n) != [] {
        ArrivalShrinks(y, n);
      }
    case ClientDoes(_) =>
      if P.Ready(y.client.buf, y.client.phase) {
        LoopStep(y);
        LoopShrinks(y);
      }
    case PeerHears =>
  }

  // Deliveries each of which does something.
  predicate Effective(y: System, events: seq<Event>)
    requires Joined(y)
    decreases |events|
  {
    events == [] ||
    (IsDelivery(events[0]) && Step(y, events[0]) != y && (StepJoined(y, events[0]); Effective(Step(y, events[0]), events[1..])))
  }

  // They come to an end, whatever their order.
  lemma {:induction false} DeliveriesEnd(y: System, events: seq<Event>)
    requires Joined(y) && Effective(y, events)
    ensures |events| <= Undelivered(y)
    decreases |events|
  {
    if events != [] {
      DeliveryShrinks(y, events[0]);
      DeliveriesEnd(Step(y, events[0]), events[1..]);
    }
  }

  // No delivery does anything any more.
  ghost predicate Exhausted(y: System)
    requires Joined(y)
  {
    forall e :: IsDelivery(e) ==> Step(y, e) == y
  }

  lemma ReadyGoesOn(y: System)
    requires Joined(y) && P.Ready(y.client.buf, y.client.phase)
    ensures Step(y, ClientDoes(S.LoopResumes)) != y
  {
    LoopStep(y);
    LoopBacklog(y.client);
  }

  // At that end nothing is in flight, unless the session has closed.
  lemma ExhaustedMeansDelivered(y: System)
    requires Joined(y) && Exhausted(y)
    ensures y.client.closed || NothingInFlight(y)
  {
    assert IsDelivery(PeerHears) && IsDelivery(ClientDoes(S.LoopResumes)) && IsDelivery(Arrives(1));
    assert Step(y, PeerHears) == y && Step(y, ClientDoes(S.LoopResumes)) == y && Step(y, Arrives(1)) == y;
    if P.Ready(y.client.buf, y.client.phase) {
      ReadyGoesOn(y);
    }
    assert Incoming(y, 1) == [];
    if !y.client.closed {
      CaughtUpHasAll(y);
    }
  }

  // ----- so there is a way -----

  // A delivery that does something, if there is one.
  function NextDelivery(y: System): Option<Event>
    requires Joined(y)
  {
    if y.arrived < |Wire(y.sent)| then Some(Arrives(|Wire(y.sent)|))
    else if !CaughtUp(y) then Some(ClientDoes(S.LoopResumes))
    else if y.heard < |y.client.log| then Some(PeerHears)
    else None
  }

  lemma NextMoves(y: System)
    requires Joined(y) && NextDelivery(y).Some?
    ensures var e := NextDelivery(y).value; IsDelivery(e) && Step(y, e) != y && Step(y, e).sent == y.sent
  {
    if y.arrived < |Wire(y.sent)| {
      assert Incoming(y, |Wire(y.sent)|) != [];
    } else if !CaughtUp(y) {
      LoopStep(y);
      ReadyGoesOn(y);
    }
  }

  lemma NoneLeft(y: System)
    requires Joined(y) && NextDelivery(y).None?
    ensures y.client.closed || NothingInFlight(y)
  {
    if !y.client.closed {
      CaughtUpHasAll(y);
    }
  }

  // From every state the channels can be emptied without any user or the peer doing anything, unless the
  // session closes.
  lemma {:induction false} Drains(y: System) returns (events: seq<Event>)
    requires Joined(y)
    ensures OnlyDelivery(events)
    ensures var z := Run(y, events);
            z.sent == y.sent && (z.client.closed || NothingInFlight(z))
    decreases Undelivered(y)
  {
    if NextDelivery(y).None? {
      events := [];
      RunNone(y);
      NoneLeft(y);
    } else {
      var e := NextDelivery(y).value;
      NextMoves(y);
      DeliveryShrinks(y, e);
      var rest := Drains(Step(y, e));
      events := [e] + rest;
      RunCons(y, e, rest);
    }
  }

  // With nothing in flight the peer has at least half a window beyond the SYN's.
  lemma PeerMayGoOn(y: System, id: nat)
    requires FlowInv(y, id) && id in y.client.table && NothingInFlight(y)
    ensures PeerWindow(y, id) >= INITIAL_WINDOW + INITIAL_WINDOW / 2
  {
    BooksBalance(y, id);
  }

  // Hence in every run, at every point: after some deliveries the peer can send again on any stream
  // that is still in the table of an open session.
  lemma NeverStalledForGood(events: seq<Event>, id: nat) returns (more: seq<Event>)
    ensures Joined(NewSystem()) && OnlyDelivery(more)
    ensures var z := Run(Run(NewSystem(), events), more);
            !z.client.closed && id in z.client.table ==> PeerWindow(z, id) >= INITIAL_WINDOW + INITIAL_WINDOW / 2
  {
    NewSystemFlow(id);
    RunKeepsFlow(NewSystem(), events, id);
    var y := Run(NewSystem(), events);
    more := Drains(y);
    RunKeepsFlow(y, more, id);
    var z := Run(y, more);
    if !z.client.closed && id in z.client.table {
      PeerMayGoOn(z, id);
    }
  }

  // And not only after some: in every run, at every point, whatever deliveries come and in whatever
  // order, they end, and when none does anything any more the peer can send again on any stream that is
  // still in the table of an open session.
  lemma AllDeliveriesReopen(events: seq<Event>, more: seq<Event>, id: nat)
    requires Joined(NewSystem()) && Effective(Run(NewSystem(), events), more)
    ensures |more| <= Undelivered(Run(NewSystem(), events))
    ensures var z := Run(Run(NewSystem(), events), more);
            Exhausted(z) && !z.client.closed && id in z.client.table ==>
              PeerWindow(z, id) >= INITIAL_WINDOW + INITIAL_WINDOW / 2
  {
    var y := Run(NewSystem(), events);
    var z := Run(y, more);
    DeliveriesEnd(y, more);
    NewSystemFlow(id);
    RunKeepsFlow(NewSystem(), events, id);
    RunKeepsFlow(y, more, id);
    if Exhausted(z) && !z.client.closed && id in z.client.table {
      ExhaustedMeansDelivered(z);
      PeerMayGoOn(z, id);
    }
  }
}
