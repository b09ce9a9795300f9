/** A session and the peer at the other end, joined by two channels of bytes and frames in flight.

    The peer is any yamux implementation that keeps to the credit rule of the yamux specification,
    section "Flow Control": it sends no more data on a stream than its send window, which starts at
    the default window and grows by the window updates it hears.  Its bytes reach the client cut in
    any way. */
module FlowControl {
  import opened Bytes
  import opened Records
  import opened YamuxFrames
  import opened Streams
  import opened StreamCredit
  import S = Sessions
  import P = Pulls
  import T = SessionTables
  import opened SessionParsing
  import opened SessionStreams
  import opened SessionLogs
  import opened SessionFeeding

  // `sent`: every frame the peer has sent; `arrived`: how many of their bytes have reached the
  // client; `heard`: how many of the client's frames have reached the peer.
  datatype System = System(client: S.Session, sent: seq<Frame>, arrived: nat, heard: nat)

  datatype Event =
    | PeerSends(f: Frame)
    | PeerHears
    | Arrives(n: nat)
    | ClientDoes(e: S.Event)

  function Heard(y: System): seq<Frame> {
    y.client.log[..Min(y.heard, |y.client.log|)]
  }

  function PeerWindow(y: System, id: nat): int {
    INITIAL_WINDOW + CreditOf(Heard(y), id) - |DataOf(y.sent, id)|
  }

  // The peer answers only streams it has heard of, within its window.
  predicate MaySend(y: System, f: Frame) {
    && WellShaped(f) && InRange(f)
    && (S.HasPayload(f) ==> CreditOf(Heard(y), f.id) > 0 && |f.payload| <= PeerWindow(y, f.id))
  }

  function Incoming(y: System, n: nat): seq<Byte> {
    var wire := Wire(y.sent);
    if y.arrived <= |wire| then wire[y.arrived..Min(y.arrived + n, |wire|)] else []
  }

  function Step(y: System, e: Event): System
    requires S.SessionOk(y.client)
  {
    match e
    case PeerSends(f) => if MaySend(y, f) then y.(sent := y.sent + [f]) else y
    case PeerHears => if y.heard < |y.client.log| then y.(heard := y.heard + 1) else y
    case Arrives(n) =>
      y.(client := S.OnMessage(y.client, Incoming(y, n)), arrived := y.arrived + |Incoming(y, n)|)
    case ClientDoes(e) => if e.Message? then y else y.(client := S.Step(y.client, e))
  }

  // ----- the channels -----

  // The client has accepted what arrived, unless its buffer was closed before.
  predicate Joined(y: System) {
    && S.SessionOk(y.client) && T.IdsInv(y.client) && LoopInv(y.client)
    && y.heard <= |y.client.log|
    && AllCarried(y.sent)
    && y.arrived <= |Wire(y.sent)|
    && y.client.buf.accepted <= Wire(y.sent)[..y.arrived]
    && (!y.client.buf.closed ==> y.client.buf.accepted == Wire(y.sent)[..y.arrived])
  }

  lemma WireAppend(fs: seq<Frame>, f: Frame)
    ensures Wire(fs + [f]) == Wire(fs) + Raw(ToRecord(f))
  {
    assert ToRecords(fs + [f]) == ToRecords(fs) + [ToRecord(f)];
    RawAllAppend(ToRecords(fs), ToRecord(f));
  }

  lemma LogGrows(s: S.Session, e: S.Event)
    requires S.SessionOk(s)
    ensures s.log <= S.Step(s, e).log
  {
    if e.LoopResumes? && P.Ready(s.buf, s.phase) {
      P.OwnsContinue(YamuxFormat, s.buf, s.phase);
      match P.Continue(YamuxFormat, s.buf, s.phase)
      case Got(r) => S.DispatchOk(s, FromRecord(r));
      case _ =>
    }
  }

  lemma MessageAccepted(s: S.Session, data: seq<Byte>, before: seq<Byte>)
    requires S.SessionOk(s) && LoopInv(s)
    requires s.buf.accepted <= before && (!s.buf.closed ==> s.buf.accepted == before)
    ensures var b := S.OnMessage(s, data).buf;
            b.accepted <= before + data && (!b.closed ==> b.accepted == before + data)
  {
    assert S.OnMessage(s, data) == S.Step(s, S.Message(data));
    StepAccepts(s, S.Message(data));
    assert s.buf.accepted + [] == s.buf.accepted;
    PrefixTransitive(s.buf.accepted, before, before + data);
  }

  lemma ArrivedAccepts(y: System, n: nat)
    requires Joined(y)
    ensures var data, b := Incoming(y, n), S.OnMessage(y.client, Incoming(y, n)).buf;
            && y.arrived + |data| <= |Wire(y.sent)|
            && b.accepted <= Wire(y.sent)[..y.arrived + |data|]
            && (!b.closed ==> b.accepted == Wire(y.sent)[..y.arrived + |data|])
  {
    var data, wire := Incoming(y, n), Wire(y.sent);
    MessageAccepted(y.client, data, wire[..y.arrived]);
    FrontGrows(wire, y.arrived, |data|);
  }

  lemma MessageInOrder(s: S.Session, data: seq<Byte>)
    requires S.SessionOk(s) && T.IdsInv(s) && LoopInv(s)
    ensures var t := S.OnMessage(s, data); S.SessionOk(t) && T.IdsInv(t) && LoopInv(t) && t.log == s.log
  {
    S.SessionStepOk(s, S.Message(data));
    PushKeepsLoop(s, data);
  }

  lemma ArrivesJoined(y: System, n: nat)
    requires Joined(y)
    ensures Joined(Step(y, Arrives(n)))
  {
    MessageInOrder(y.client, Incoming(y, n));
    ArrivedAccepts(y, n);
  }

  lemma StepJoined(y: System, e: Event)
    requires Joined(y)
    ensures Joined(Step(y, e))
  {
    match e
    case PeerSends(f) =>
      WireAppend(y.sent, f);
      assert Wire(y.sent + [f])[..y.arrived] == Wire(y.sent)[..y.arrived];
    case PeerHears =>
    case Arrives(n) => ArrivesJoined(y, n);
    case ClientDoes(e) =>
      if !e.Message? {
        S.SessionStepOk(y.client, e);
        T.StepIds(y.client, e);
        StepKeepsLoop(y.client, e);
        StepAccepts(y.client, e);
        assert y.client.buf.accepted + [] == y.client.buf.accepted;
        LogGrows(y.client, e);
      }
  }

  function Run(y: System, events: seq<Event>): (z: System)
    requires Joined(y)
    ensures Joined(z)
    decreases |events|
  {
    if events == [] then y
    else
      StepJoined(y, events[0]);
      Run(Step(y, events[0]), events[1..])
  }

  // What the client has dispatched is the front of what the peer sent.
  lemma DispatchedIsSent(y: System)
    requires Joined(y)
    ensures DispatchedFrames(y.client) <= y.sent
  {
    PrefixTransitive(y.client.buf.accepted, Wire(y.sent)[..y.arrived], Wire(y.sent));
    PrefixFrames(y.client.dispatched, y.client.buf.accepted);
    CutWireParses(y.sent, y.client.buf.accepted);
    PrefixTransitive(DispatchedFrames(y.client), ParseFrames(y.client.buf.accepted), y.sent);
  }

  function InFlightDown(y: System): seq<Frame>
    requires Joined(y)
  {
    DispatchedIsSent(y);
    y.sent[|y.client.dispatched|..]
  }

  function InFlightUp(y: System): seq<Frame>
    requires Joined(y)
  {
    y.client.log[y.heard..]
  }

  // ----- the books of one stream -----

  predicate FlowInv(y: System, id: nat) {
    && Joined(y)
    && LogInv(y.client, id) && LogShaped(y.client.log)
    && (id in y.client.created ==> CreditInv(y.client.created[id]) && Fed(y.client, id))
    && (id !in y.client.created ==> DataOf(y.sent, id) == [])
    && PeerWindow(y, id) >= 0
  }

  // The peer's window, the data on its way to the client and the credit on its way to the peer make
  // up the client's receive window and the extra window the SYN granted.
  predicate Conserved(y: System, id: nat)
    requires Joined(y) && id in y.client.created
  {
    PeerWindow(y, id) + |DataOf(InFlightDown(y), id)| + CreditOf(InFlightUp(y), id)
    == y.client.created[id].recvWindow + INITIAL_WINDOW
  }

  lemma DataDown(y: System, id: nat)
    requires Joined(y)
    ensures |DataOf(y.sent, id)| == |DispatchedData(y.client, id)| + |DataOf(InFlightDown(y), id)|
  {
    var n := |y.client.dispatched|;
    DispatchedIsSent(y);
    assert y.sent == y.sent[..n] + y.sent[n..] && y.sent[..n] == DispatchedFrames(y.client);
    DataOfConcat(y.sent[..n], y.sent[n..], id);
  }

  lemma CreditUp(y: System, id: nat)
    requires Joined(y)
    ensures CreditOf(y.client.log, id) == CreditOf(Heard(y), id) + CreditOf(InFlightUp(y), id)
  {
    assert y.client.log == Heard(y) + InFlightUp(y);
    CreditConcat(Heard(y), InFlightUp(y), id);
  }

  lemma BooksBalance(y: System, id: nat)
    requires FlowInv(y, id) && id in y.client.table
    ensures id in y.client.created && Conserved(y, id)
  {
    DataDown(y, id);
    CreditUp(y, id);
    LogCarries(y.client, id);
  }

  lemma HearsMore(y: System, id: nat)
    requires y.heard < |y.client.log|
    ensures PeerWindow(y.(heard := y.heard + 1), id) >= PeerWindow(y, id)
  {
    assert Heard(y.(heard := y.heard + 1)) == Heard(y) + [y.client.log[y.heard]];
    CreditConcat(Heard(y), [y.client.log[y.heard]], id);
  }

  lemma FlowKept(y: System, z: System, id: nat)
    requires FlowInv(y, id) && Joined(z) && z.client == y.client && z.sent == y.sent
    requires PeerWindow(z, id) >= PeerWindow(y, id)
    ensures FlowInv(z, id)
  {
  }

  lemma HearsJoined(y: System)
    requires Joined(y) && y.heard < |y.client.log|
    ensures Step(y, PeerHears) == y.(heard := y.heard + 1) && Joined(y.(heard := y.heard + 1))
  {
  }

  lemma HearsKeeps(y: System, id: nat)
    requires FlowInv(y, id) && y.heard < |y.client.log|
    ensures FlowInv(y.(heard := y.heard + 1), id)
  {
    HearsJoined(y);
    HearsMore(y, id);
    FlowKept(y, y.(heard := y.heard + 1), id);
  }

  lemma SendsKeeps(y: System, f: Frame, id: nat)
    requires FlowInv(y, id) && MaySend(y, f)
    ensures FlowInv(Step(y, PeerSends(f)), id)
  {
    StepJoined(y, PeerSends(f));
    DataOfAppend(y.sent, f, id);
    assert Heard(Step(y, PeerSends(f))) == Heard(y);
    if f.id == id && S.HasPayload(f) {
      CreditUp(y, id);
      LogCarries(y.client, id);
    } else {
      assert DataOf(y.sent, id) + [] == DataOf(y.sent, id);
    }
  }

  // An opened stream starts with a full window, and no data has been sent to it.
  lemma OpenedFresh(y: System, id: nat)
    requires FlowInv(y, id) && id !in y.client.created && id in S.Open(y.client).created
    ensures CreditInv(S.Open(y.client).created[id]) && Fed(S.Open(y.client), id)
  {
    DispatchedIsSent(y);
    DataOfPrefix(DispatchedFrames(y.client), y.sent, id);
    assert S.Open(y.client).created[id] == NewStream(id);
    assert S.Open(y.client).dispatched == y.client.dispatched;
  }

  lemma StepCredit(s: S.Session, e: S.Event, id: nat)
    requires S.SessionOk(s) && T.IdsInv(s) && id in s.created && CreditInv(s.created[id])
    ensures id in S.Step(s, e).created && CreditInv(S.Step(s, e).created[id])
  {
    StepProjects(s, e, id);
    WindowRecovers(s.created[id], Projection(s, e, id));
  }

  lemma ClientBooks(y: System, e: S.Event, id: nat)
    requires FlowInv(y, id)
    ensures var t := S.Step(y.client, e);
            && (id in t.created ==> CreditInv(t.created[id]) && Fed(t, id))
            && (id !in t.created ==> DataOf(y.sent, id) == [])
  {
    T.StepIds(y.client, e);
    if id in y.client.created {
      StepCredit(y.client, e, id);
      StepFeeds(y.client, e, id);
    } else if id in S.Step(y.client, e).created {
      OpenedFresh(y, id);
    }
  }

  lemma ClientKeeps(y: System, e: S.Event, id: nat)
    requires FlowInv(y, id) && !e.Message?
    ensures FlowInv(Step(y, ClientDoes(e)), id)
  {
    StepJoined(y, ClientDoes(e));
    LogGrows(y.client, e);
    assert Heard(Step(y, ClientDoes(e))) == Heard(y);
    StepLog(y.client, e, id);
    ClientBooks(y, e, id);
  }

  lemma ArrivesKeeps(y: System, n: nat, id: nat)
    requires FlowInv(y, id)
    ensures FlowInv(Step(y, Arrives(n)), id)
  {
    StepJoined(y, Arrives(n));
    assert Heard(Step(y, Arrives(n))) == Heard(y);
  }

  lemma StepKeepsFlow(y: System, e: Event, id: nat)
    requires FlowInv(y, id)
    ensures FlowInv(Step(y, e), id)
  {
    match e
    case PeerSends(f) =>
      if MaySend(y, f) {
        SendsKeeps(y, f, id);
      }
    case PeerHears =>
      if y.heard < |y.client.log| {
        HearsKeeps(y, id);
      }
    case Arrives(n) => ArrivesKeeps(y, n, id);
    case ClientDoes(e) =>
      if !e.Message? {
        ClientKeeps(y, e, id);
      }
  }

  lemma {:induction false} RunKeepsFlow(y: System, events: seq<Event>, id: nat)
    requires FlowInv(y, id)
    ensures FlowInv(Run(y, events), id)
    decreases |events|
  {
    if events != [] {
      StepKeepsFlow(y, events[0], id);
      RunKeepsFlow(Step(y, events[0]), events[1..], id);
    }
  }

  function NewSystem(): System {
    System(S.NewSession(), [], 0, 0)
  }

  lemma NewSystemFlow(id: nat)
    ensures FlowInv(NewSystem(), id)
  {
    NewSessionLoop();
  }

  // Two-party credit conservation: in every reachable state and for every stream still in the table,
  // whatever the users, the peer and the network do.
  lemma CreditConserved(events: seq<Event>, id: nat)
    ensures Joined(NewSystem())
    ensures var y := Run(NewSystem(), events);
            PeerWindow(y, id) >= 0 && (id in y.client.table ==> id in y.client.created && Conserved(y, id))
  {
    NewSystemFlow(id);
    RunKeepsFlow(NewSystem(), events, id);
    var y := Run(NewSystem(), events);
    if id in y.client.table {
      BooksBalance(y, id);
    }
  }
}
