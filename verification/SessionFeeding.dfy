/** What the read loop feeds into a stream: the payloads of the DATA frames that name it, all of them,
    once and in order, as long as the stream is open and in the table. */
module SessionFeeding {
  import opened Bytes
  import opened Records
  import opened YamuxFrames
  import opened Streams
  import S = Sessions
  import P = Pulls
  import T = SessionTables
  import opened SessionStreams

  function DispatchedData(s: S.Session, id: nat): seq<Byte>
    requires AllValid(YamuxFormat, s.dispatched)
  {
    DataOf(FromRecords(s.dispatched), id)
  }

  // The stream has taken in nothing but a front of the data dispatched to it, and all of it while it
  // is in the table and its receiving half is open.
  predicate Fed(s: S.Session, id: nat) {
    && AllValid(YamuxFormat, s.dispatched) && id in s.created
    && var t, data := s.created[id], DispatchedData(s, id);
       && t.recv.accepted <= data
       && (id in s.table ==> t.received == |data| && (!t.recv.closed ==> t.recv.accepted == data))
  }

  lemma MaybeFeeds(t: Stream, c: bool, e: Event)
    requires !e.DataEvent?
    ensures var u := S.Maybe(t, c, e);
            u.received == t.received && u.recv.accepted == t.recv.accepted && (t.recv.closed ==> u.recv.closed)
  {
  }

  function Taken(f: Frame): seq<Byte> {
    if S.HasPayload(f) then f.payload else []
  }

  lemma AfterFrameFeeds(t: Stream, f: Frame)
    ensures var u := S.AfterFrame(t, f);
            && u.received == t.received + |Taken(f)|
            && u.recv.accepted == (if t.recv.closed then t.recv.accepted else t.recv.accepted + Taken(f))
            && (t.recv.closed ==> u.recv.closed)
  {
    var t1 := S.Maybe(t, S.HasPayload(f), DataEvent(f.payload));
    assert t.recv.accepted + [] == t.recv.accepted;
    MaybeFeeds(t1, HasFlag(f.flags, FLAG_FIN), RemoteCloseEvent);
    var t2 := S.Maybe(t1, HasFlag(f.flags, FLAG_FIN), RemoteCloseEvent);
    MaybeFeeds(t2, HasFlag(f.flags, FLAG_RST), RemoteResetEvent);
    MaybeFeeds(S.Maybe(t2, HasFlag(f.flags, FLAG_RST), RemoteResetEvent), f.typ != TYPE_DATA, WindowUpdateEvent(f.length));
  }

  // The data grows by the payload of a frame that names the stream.
  lemma DataGrows(rs: seq<Record>, r: Record, id: nat)
    requires AllValid(YamuxFormat, rs) && Valid(YamuxFormat, r)
    ensures AllValid(YamuxFormat, rs + [r])
    ensures var f := FromRecord(r);
            DataOf(FromRecords(rs + [r]), id) ==
            DataOf(FromRecords(rs), id) + Share(f, id)
  {
    FromRecordsAppend(rs, r);
    DataOfAppend(FromRecords(rs), FromRecord(r), id);
  }

  // What a frame adds for stream `id`.
  function Share(f: Frame, id: nat): seq<Byte> {
    if S.ForStream(f) && f.id == id then Taken(f) else []
  }

  // A stream of the table takes its share unless it is closed, any other stream nothing.
  predicate Takes(s: S.Session, t: S.Session, id: nat, share: seq<Byte>) {
    && id in s.created && id in t.created
    && (id in t.table ==> id in s.table)
    && var a, b := s.created[id], t.created[id];
       && (a.recv.closed ==> b.recv.closed)
       && (id in s.table ==>
             && b.received == a.received + |share|
             && b.recv.accepted == (if a.recv.closed then a.recv.accepted else a.recv.accepted + share))
       && (id !in s.table ==> b == a)
  }

  lemma DispatchTakes(s: S.Session, f: Frame, id: nat)
    requires S.StreamsOk(s) && T.IdsInv(s) && id in s.created
    ensures Takes(s, S.Dispatch(s, f), id, Share(f, id))
  {
    assert s.created[id].recv.accepted + [] == s.created[id].recv.accepted;
    if f.typ == TYPE_GO_AWAY {
    } else if S.ForStream(f) && f.id == id {
      AfterFrameFeeds(s.created[id], f);
    } else {
      T.NonInterference(s, f);
    }
  }

  lemma HandleFeeds(s: S.Session, r: Record, id: nat)
    requires S.StreamsOk(s) && T.IdsInv(s) && Valid(YamuxFormat, r) && Fed(s, id)
    ensures Fed(S.HandleRecord(s, r), id)
  {
    var f := FromRecord(r);
    DispatchTakes(s, f, id);
    DispatchedGrows(s, r);
    DataGrows(s.dispatched, r, id);
  }

  lemma CallFeeds(t: Stream, call: Event)
    requires !call.DataEvent?
    ensures var u := Step(t, call);
            u.received == t.received && u.recv.accepted == t.recv.accepted && (t.recv.closed ==> u.recv.closed)
  {
  }

  lemma LoopFeeds(s: S.Session, id: nat)
    requires S.SessionOk(s) && T.IdsInv(s) && Fed(s, id) && P.Ready(s.buf, s.phase)
    ensures Fed(S.ResumeLoop(s), id)
  {
    P.OwnsContinue(YamuxFormat, s.buf, s.phase);
    match P.Continue(YamuxFormat, s.buf, s.phase)
    case Got(r) => HandleFeeds(s, r, id);
    case _ =>
  }

  lemma CallStepFeeds(s: S.Session, k: nat, call: Event, id: nat)
    requires S.SessionOk(s) && Fed(s, id) && k in s.created && S.IsCall(call)
    ensures Fed(S.Put(s, k, Step(s.created[k], call)), id)
  {
    if k == id {
      CallFeeds(s.created[id], call);
    }
  }

  lemma StepFeeds(s: S.Session, e: S.Event, id: nat)
    requires S.SessionOk(s) && T.IdsInv(s) && Fed(s, id)
    ensures Fed(S.Step(s, e), id)
  {
    match e
    case LoopResumes =>
      if P.Ready(s.buf, s.phase) {
        LoopFeeds(s, id);
      }
    case StreamCall(k, call) =>
      if k in s.created && S.IsCall(call) {
        CallStepFeeds(s, k, call, id);
      }
    case _ =>
  }

  // Over every run, whatever is called and however the messages are cut.
  lemma {:induction false} RunFeeds(s: S.Session, events: seq<S.Event>, id: nat)
    requires S.SessionOk(s) && T.IdsInv(s) && Fed(s, id)
    ensures Fed(S.Run(s, events), id)
    decreases |events|
  {
    if events != [] {
      S.SessionStepOk(s, events[0]);
      T.StepIds(s, events[0]);
      StepFeeds(s, events[0], id);
      RunFeeds(S.Step(s, events[0]), events[1..], id);
    }
  }
}
