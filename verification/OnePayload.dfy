/** One payload, from send on a new session to recv on another, by explicit runs. */
module OnePayload {
  import opened Bytes
  import opened Records
  import opened YamuxFrames
  import opened Messages
  import opened MessageSends
  import opened EndToEnd
  import opened Arrivals
  import Streams
  import R = Receiving
  import A = AppFrames
  import opened SessionParsing
  import opened SessionLogs

  // The data frame of a write on stream 1.
  function DataFrame(data: seq<Byte>): Frame {
    Frame(TYPE_DATA, 0, 1, |data|, data)
  }

  lemma WriteFrames(s: Streams.Stream, data: seq<Byte>)
    requires s.id == 1 && !Streams.WriteClosed(s) && |data| <= s.sendWindow
    ensures Streams.NewFrames(s, Streams.Write(s, data)) == if data == [] then [] else [DataFrame(data)]
    ensures Streams.Write(s, data).id == 1
  {
    var t := Streams.Write(s, data);
    if data != [] {
      assert data[0..|data|] == data;
      assert t.sent[|s.sent|..] == [t.sent[|s.sent|]];
    }
  }

  // The frames a step of the WSStream adds to the session's log.
  lemma AppLog(p: Endpoint, e: Messages.Event, id: nat)
    requires InOrder(p, id) && !e.Other?
    ensures var q := Next(p, App(e), id);
            q.m == Messages.Step(p.m, e) && q.session.log == p.session.log + Streams.NewFrames(p.m.ys, q.m.ys)
  {
  }

  lemma SameFrames(s: Streams.Stream)
    ensures Streams.NewFrames(s, s) == []
  {
  }

  function Sent0(): Messenger {
    Attach(Streams.NewStream(1))
  }

  function Sent1(payload: seq<Byte>): Messenger {
    Send(Sent0(), payload)
  }

  function Sent2(payload: seq<Byte>): Messenger {
    ContinueSend(Sent1(payload))
  }

  function Sent3(payload: seq<Byte>): Messenger {
    ContinueSend(Sent2(payload))
  }

  lemma SentFrames(payload: seq<Byte>)
    requires APP_HEADER_SIZE + |payload| <= INITIAL_WINDOW
    ensures Streams.NewFrames(Sent0().ys, Sent1(payload).ys) == [DataFrame(DataHeader(payload))]
    ensures Streams.NewFrames(Sent1(payload).ys, Sent2(payload).ys) == if payload == [] then [] else [DataFrame(payload)]
    ensures Sent3(payload).ys == Sent2(payload).ys
    ensures Sent3(payload).tx.Between? && Sent3(payload).done == [payload]
  {
    var s0 := Streams.NewStream(1);
    assert Free(s0);
    WriteFrames(s0, DataHeader(payload));
    FreeWrite(s0, DataHeader(payload));
    var s1 := Streams.Write(s0, DataHeader(payload));
    if payload == [] {
      SameFrames(s1);
    } else {
      WriteFrames(s1, payload);
      FreeWrite(s1, payload);
    }
  }

  function SentLog(payload: seq<Byte>): seq<Frame> {
    [Syn(1), DataFrame(DataHeader(payload))] + (if payload == [] then [] else [DataFrame(payload)])
  }

  // The three acts one after another.
  lemma SendLogs(p: Endpoint, payload: seq<Byte>)
    requires InOrder(p, 1) && p.m == Sent0() && APP_HEADER_SIZE + |payload| <= INITIAL_WINDOW
    ensures var q := Next(p, App(SendCall(payload)), 1);
            var r := Next(q, App(SendContinues), 1);
            var t := Next(r, App(SendContinues), 1);
            && q.m == Sent1(payload) && r.m == Sent2(payload) && t.m == Sent3(payload)
            && q.session.log == p.session.log + [DataFrame(DataHeader(payload))]
            && r.session.log == q.session.log + (if payload == [] then [] else [DataFrame(payload)])
            && t.session.log == r.session.log + []
  {
    AppLog(p, SendCall(payload), 1);
    var q := Next(p, App(SendCall(payload)), 1);
    AppLog(q, SendContinues, 1);
    AppLog(Next(q, App(SendContinues), 1), SendContinues, 1);
    SentFrames(payload);
    SameFrames(Sent2(payload).ys);
  }

  lemma NeverBroken(payload: seq<Byte>)
    requires APP_HEADER_SIZE + |payload| <= INITIAL_WINDOW
    ensures !SendsAfterBreak(Sent0(), SendCall(payload)) && !SendsAfterBreak(Sent1(payload), SendContinues)
    ensures !SendsAfterBreak(Sent2(payload), SendContinues)
  {
  }

  lemma SendRun(p: Endpoint, payload: seq<Byte>)
    requires InOrder(p, 1) && p.m == Sent0() && p.session.log == [Syn(1)] && APP_HEADER_SIZE + |payload| <= INITIAL_WINDOW
    ensures var a := EndToEnd.Run(p, SendActs(payload), 1);
            a.m == Sent3(payload) && NeverSendsBroken(p, SendActs(payload), 1) && a.session.log == SentLog(payload)
  {
    SendLogs(p, payload);
    NeverBroken(payload);
    RunThree(p, App(SendCall(payload)), App(SendContinues), App(SendContinues), 1);
    ThreeClean(p, App(SendCall(payload)), App(SendContinues), App(SendContinues), 1);
    LogAddsUp(payload);
  }

  lemma LogAddsUp(payload: seq<Byte>)
    ensures [Syn(1)] + [DataFrame(DataHeader(payload))] + (if payload == [] then [] else [DataFrame(payload)]) + [] == SentLog(payload)
  {
    assert [Syn(1)] + [DataFrame(DataHeader(payload))] == [Syn(1), DataFrame(DataHeader(payload))];
    ConcatEmpty(SentLog(payload));
  }

  lemma FirstStart()
    ensures Start([]).m == Sent0() && Start([]).session.log == [Syn(1)]
  {
    NothingYet();
    assert [] + [Syn(1)] == [Syn(1)];
  }

  // The first stream of a new session.
  lemma FirstReached(acts: seq<Act>)
    ensures !After([]).closed && After([]).nextID == 1 && Unused([]) && InOrder(Start([]), 1)
    ensures Reached([], acts) == EndToEnd.Run(Start([]), acts, 1)
    ensures NeverSendsBroken(Start([]), acts, 1) ==> SendsCleanly([], acts)
  {
    FirstStream();
    StartInOrder([]);
  }

  // What send(payload) leaves on the wire of a new session.
  lemma OneSend(payload: seq<Byte>)
    requires APP_HEADER_SIZE + |payload| <= INITIAL_WINDOW
    ensures !After([]).closed && SendsCleanly([], SendActs(payload))
    ensures var a := Reached([], SendActs(payload)); a.m == Sent3(payload) && a.session.log == SentLog(payload)
  {
    FirstReached(SendActs(payload));
    FirstStart();
    SendRun(Start([]), payload);
  }

  lemma SentLogGentle(payload: seq<Byte>)
    requires APP_HEADER_SIZE + |payload| <= INITIAL_WINDOW
    ensures Fits(SentLog(payload)) && Gentle(SentLog(payload), 1) && NoFins(SentLog(payload), 1)
  {
  }

  lemma OneSenderReady(payload: seq<Byte>)
    requires APP_HEADER_SIZE + |payload| <= INITIAL_WINDOW
    ensures !After([]).closed && After([]).nextID == 1 && Unused([]) && MessageBytes([]) == []
    ensures SendsCleanly([], SendActs(payload))
    ensures var a := Reached([], SendActs(payload));
            && a.session.log == SentLog(payload) && Fits(SentLog(payload))
            && Gentle(SentLog(payload), 1) && NoFins(SentLog(payload), 1)
            && a.m.tx.Between? && a.m.done == [payload] && A.AllSendable(DataFrames([payload]))
  {
    OneSend(payload);
    SentLogGentle(payload);
    SentFrames(payload);
    OneSendable(payload);
    FirstStream();
    NothingYet();
  }

  lemma OneSendable(payload: seq<Byte>)
    requires APP_HEADER_SIZE + |payload| <= INITIAL_WINDOW
    ensures A.AllSendable(DataFrames([payload]))
  {
  }

  lemma OneResult(received: seq<R.Received>, payload: seq<Byte>)
    requires |received| == 1 && received[0] == R.Payload([payload][0])
    ensures received == [R.Payload(payload)]
  {
  }

  // One payload, from send on one session to recv on another: for every payload the window suffices for
  // and every cutting of the wire there is a run in which it arrives.
  lemma OnePayloadArrives(payload: seq<Byte>, chunks: seq<seq<Byte>>) returns (acts: seq<Act>)
    requires APP_HEADER_SIZE + |payload| <= INITIAL_WINDOW && Flatten(chunks) == Wire(SentLog(payload))
    ensures !After([]).closed && BytesIn([], acts) == Wire(SentLog(payload)) && After([]).nextID == 1
    ensures BothParked(Reached([], acts), 1) && BeforeFailure(Reached([], acts).m.results) == [R.Payload(payload)]
  {
    OneSenderReady(payload);
    ConcatEmpty(Flatten(chunks));
    acts := SenderHeardOut([], SendActs(payload), [], chunks);
    OneResult(BeforeFailure(Reached([], acts).m.results), payload);
  }
}
