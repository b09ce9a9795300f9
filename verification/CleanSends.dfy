/** When the program can rely on its frames staying intact: if the peer sends at most one FIN for the
    stream and the stream is not reset locally, no send is ever accepted after a broken one. */
module CleanSends {
  import opened Bytes
  import opened Streams
  import opened StreamLife
  import opened Messages
  import opened MessageSends
  import opened EndToEnd
  import S = Sessions
  import opened SessionStreams

  lemma {:induction false} FinsMonotone(a: seq<Sent>, b: seq<Sent>)
    requires a <= b
    ensures FinsSent(a) <= FinsSent(b)
    decreases |b|
  {
    if a != b {
      FinsMonotone(a, b[..|b| - 1]);
    }
  }

  // What a stream has sent and the resets it has seen only grow.
  lemma {:induction false} HistoryGrows(t: Stream, own: seq<Streams.Event>)
    requires Ok(t)
    ensures t.sent <= Streams.Run(t, own).sent && t.resets <= Streams.Run(t, own).resets
    decreases |own|
  {
    if own != [] {
      var u := Streams.Step(t, own[0]);
      StepOk(t, own[0]);
      StepEmits(t, own[0]);
      HistoryGrows(u, own[1..]);
      PrefixTransitive(t.sent, u.sent, Streams.Run(u, own[1..]).sent);
    }
  }

  // A write side closed by an own FIN or a reset stays closed while the state matches the history.
  lemma StaysWriteClosed(t: Stream, own: seq<Streams.Event>)
    requires Ok(t) && MatchesHistory(t) && WriteClosed(t) && MatchesHistory(Streams.Run(t, own))
    ensures WriteClosed(Streams.Run(t, own))
  {
    HistoryGrows(t, own);
    FinsMonotone(t.sent, Streams.Run(t, own).sent);
  }

  lemma NextApp(p: Endpoint, e: Messages.Event, id: nat)
    requires InOrder(p, id)
    ensures Next(p, App(e), id).m == if e.Other? then p.m else Messages.Step(p.m, e)
  {
  }

  lemma NextHandlers(p: Endpoint, e: S.Event, id: nat)
    requires InOrder(p, id)
    ensures Next(p, Session(e), id).m ==
            if Bypasses(e, id) then p.m else p.m.(ys := Streams.Run(p.m.ys, Projection(p.session, e, id)))
  {
    if !Bypasses(e, id) {
      StepProjects(p.session, e, id);
    }
  }

  lemma ActKeepsClosed(p: Endpoint, act: Act, id: nat)
    requires InOrder(p, id) && BrokenIsClosed(p.m) && MatchesHistory(p.m.ys) && MatchesHistory(Next(p, act, id).m.ys)
    ensures BrokenIsClosed(Next(p, act, id).m) && !SendsBroken(p, act)
  {
    match act
    case App(e) =>
      NextApp(p, e, id);
      if !e.Other? {
        StepKeepsClosed(p.m, e);
      }
    case Session(e) =>
      NextHandlers(p, e, id);
      if !Bypasses(e, id) && p.m.tx.Broken? {
        StaysWriteClosed(p.m.ys, Projection(p.session, e, id));
      }
  }

  // The life cycle along a run of the endpoint.
  lemma ActLife(p: Endpoint, act: Act, id: nat)
    requires InOrder(p, id) && LifeInv(p.session, id)
    requires match AsSession(p, act, id) case Some(e) => !ResetsLocally(e, id) case None => true
    requires PeerFins(Next(p, act, id).session.dispatched, id) <= 1
    ensures LifeInv(Next(p, act, id).session, id)
  {
    StepIsSession(p, act, id);
    match AsSession(p, act, id)
    case Some(e) => StepLife(p.session, e, id);
    case None =>
  }

  lemma {:induction false} DispatchedInRun(p: Endpoint, acts: seq<Act>, id: nat)
    requires InOrder(p, id)
    ensures p.session.dispatched <= EndToEnd.Run(p, acts, id).session.dispatched
  {
    RunIsSession(p, acts, id);
    RunDispatched(p.session, Trace(p, acts, id));
  }

  lemma ResetFree(e: S.Event, rest: seq<S.Event>, id: nat)
    requires NoLocalReset([e] + rest, id)
    ensures !ResetsLocally(e, id) && NoLocalReset(rest, id)
  {
    var all := [e] + rest;
    assert all[0] == e;
    forall i | 0 <= i < |rest| ensures !ResetsLocally(rest[i], id) {
      assert all[i + 1] == rest[i];
    }
  }

  lemma TraceTail(p: Endpoint, acts: seq<Act>, id: nat)
    requires InOrder(p, id) && acts != [] && NoLocalReset(Trace(p, acts, id), id)
    ensures match AsSession(p, acts[0], id) case Some(e) => !ResetsLocally(e, id) case None => true
    ensures NoLocalReset(Trace(Next(p, acts[0], id), acts[1..], id), id)
  {
    match AsSession(p, acts[0], id)
    case Some(e) =>
      TraceFirst(p, acts, e, id);
      ResetFree(e, Trace(Next(p, acts[0], id), acts[1..], id), id);
    case None => TraceNext(p, acts, id);
  }

  lemma {:induction false} OneFinRun(p: Endpoint, acts: seq<Act>, id: nat)
    requires InOrder(p, id) && LifeInv(p.session, id) && BrokenIsClosed(p.m)
    requires NoLocalReset(Trace(p, acts, id), id)
    requires PeerFins(EndToEnd.Run(p, acts, id).session.dispatched, id) <= 1
    ensures NeverSendsBroken(p, acts, id)
    decreases |acts|
  {
    if acts != [] {
      var q := Next(p, acts[0], id);
      DispatchedInRun(q, acts[1..], id);
      PeerFinsMonotone(q.session.dispatched, EndToEnd.Run(q, acts[1..], id).session.dispatched, id);
      TraceTail(p, acts, id);
      ActLife(p, acts[0], id);
      ActKeepsClosed(p, acts[0], id);
      OneFinRun(q, acts[1..], id);
    }
  }

  // In every session: one FIN from the peer at most and no local reset of the stream, and its sends are
  // clean, so that what is on the wire is the frames of the payloads passed to send.
  lemma OneFinSendsCleanly(pre: seq<S.Event>, acts: seq<Act>)
    requires !After(pre).closed && InOrder(Start(pre), After(pre).nextID)
    requires NoLocalReset(Trace(Start(pre), acts, After(pre).nextID), After(pre).nextID)
    requires PeerFins(Reached(pre, acts).session.dispatched, After(pre).nextID) <= 1
    ensures SendsCleanly(pre, acts)
  {
    assert MatchesHistory(NewStream(After(pre).nextID));
    OneFinRun(Start(pre), acts, After(pre).nextID);
  }
}
