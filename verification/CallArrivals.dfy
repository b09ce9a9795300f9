/** That a unary call can go through: the two sends, the reply and its FIN cut anywhere, the read loop and
    recv continued as far as they go. */
module CallArrivals {
  import opened Bytes
  import opened Records
  import opened YamuxFrames
  import opened Messages
  import opened MessageSends
  import opened EndToEnd
  import opened EndToEndEof
  import opened SessionEof
  import opened SessionParsing
  import opened Arrivals
  import opened CallEndToEnd
  import Streams
  import A = AppFrames
  import S = Sessions
  import R = Receiving
  import T = Transport
  import opened Routers
  import opened RemoteCalls

  // ----- the sends -----

  lemma ThreeSteps(p: Endpoint, payload: seq<Byte>, id: nat)
    requires InOrder(p, id)
    ensures InOrder(EndToEnd.Run(p, SendActs(payload), id), id)
    ensures var q := EndToEnd.Run(p, SendActs(payload), id);
            q.m == ContinueSend(ContinueSend(Send(p.m, payload))) && Steady(p.session, q.session, id)
  {
    RunInOrder(p, SendActs(payload), id);
    RunThree(p, App(SendCall(payload)), App(SendContinues), App(SendContinues), id);
    SendSteady(p, SendCall(payload), id);
    var q := Next(p, App(SendCall(payload)), id);
    SendSteady(q, SendContinues, id);
    SendSteady(Next(q, App(SendContinues), id), SendContinues, id);
  }

  // Between calls, with at least `n` bytes of window.
  predicate MaySend(m: Messenger, n: nat) {
    m.tx.Between? && Free(m.ys) && n <= m.ys.sendWindow
  }

  lemma SendsWhole(p: Endpoint, payload: seq<Byte>, id: nat, more: nat)
    requires InOrder(p, id) && MaySend(p.m, APP_HEADER_SIZE + |payload| + more)
    ensures InOrder(EndToEnd.Run(p, SendActs(payload), id), id)
    ensures NeverSendsBroken(p, SendActs(payload), id)
    ensures var q := EndToEnd.Run(p, SendActs(payload), id);
            MaySend(q.m, more) && q.m.done == p.m.done + [payload] && Steady(p.session, q.session, id)
  {
    ThreeSteps(p, payload, id);
    WholeSend(p.m, payload);
    ThreeClean(p, App(SendCall(payload)), App(SendContinues), App(SendContinues), id);
  }

  // The method name and the request.
  function CallActs(name: seq<Byte>, request: seq<Byte>): seq<Act> {
    SendActs(name) + SendActs(request)
  }

  lemma CallSends(p: Endpoint, name: seq<Byte>, request: seq<Byte>, id: nat)
    requires InOrder(p, id) && p.m.done == []
    requires MaySend(p.m, 2 * APP_HEADER_SIZE + |name| + |request|)
    ensures InOrder(EndToEnd.Run(p, CallActs(name, request), id), id)
    ensures NeverSendsBroken(p, CallActs(name, request), id)
    ensures var q := EndToEnd.Run(p, CallActs(name, request), id);
            q.m.tx.Between? && q.m.done == [name, request] && Steady(p.session, q.session, id)
  {
    var q := EndToEnd.Run(p, SendActs(name), id);
    SendsWhole(p, name, id, APP_HEADER_SIZE + |request|);
    SendsWhole(q, request, id, 0);
    RunConcat(p, SendActs(name), SendActs(request), id);
    NeverConcat(p, SendActs(name), SendActs(request), id);
    TwoInOrder(name, request);
  }

  lemma TwoInOrder(a: seq<Byte>, b: seq<Byte>)
    ensures [] + [a] + [b] == [a, b]
  {
  }

  // ----- then the answer -----

  lemma SteadyAwaits(s: S.Session, t: S.Session, id: nat, fs: seq<Frame>, chunks: seq<seq<Byte>>)
    requires Awaits(s, id, fs, chunks) && Steady(s, t, id)
    ensures Awaits(t, id, fs, chunks)
  {
  }

  // What a run of the endpoint from the opening of its stream has to show for the call.
  predicate CallMade(p: Endpoint, acts: seq<Act>, id: nat, name: seq<Byte>, request: seq<Byte>, bytes: seq<Byte>)
    requires InOrder(p, id)
  {
    RunInOrder(p, acts, id);
    var q := EndToEnd.Run(p, acts, id);
    && NeverSendsBroken(p, acts, id) && q.m.tx.Between? && q.m.done == [name, request]
    && Settled(q, id) && MessageBytes(Trace(p, acts, id)) == bytes
  }

  lemma NoMessageCall(name: seq<Byte>, request: seq<Byte>)
    ensures NoMessage(CallActs(name, request))
  {
  }

  lemma CallThenAnswer(p: Endpoint, name: seq<Byte>, request: seq<Byte>, id: nat, fs: seq<Frame>, chunks: seq<seq<Byte>>)
    returns (answer: seq<Act>)
    requires InOrder(p, id) && Awaits(p.session, id, fs, chunks) && p.m.done == []
    requires MaySend(p.m, 2 * APP_HEADER_SIZE + |name| + |request|)
    ensures Listening(answer) && CallMade(p, CallActs(name, request) + answer, id, name, request, Flatten(chunks))
  {
    var sends := CallActs(name, request);
    CallSends(p, name, request, id);
    var q := EndToEnd.Run(p, sends, id);
    SteadyAwaits(p.session, q.session, id, fs, chunks);
    answer := OneRecvd(q, id, fs, chunks);
    RunConcat(p, sends, answer, id);
    TraceConcat(p, sends, answer, id);
    NoMessageCall(name, request);
    NoMessageBytes(p, sends, id);
    BytesConcat(Trace(p, sends, id), Trace(q, answer, id));
    ConcatEmpty(Flatten(chunks));
    ListeningKeepsSends(q, answer, id);
    NeverConcat(p, sends, answer, id);
  }

  lemma SettledReturned(p: Endpoint, id: nat)
    requires InOrder(p, id) && Settled(p, id)
    ensures p.m.ys.resets == 0 && HasReturned(p)
  {
  }

  lemma RequestFits(name: seq<Byte>, request: seq<Byte>)
    requires 2 * APP_HEADER_SIZE + |name| + |request| <= INITIAL_WINDOW
    ensures A.AllSendable(Request(name, request))
  {
  }

  // For every registry, handler and call the window suffices for, on any stream opened at any point of
  // any run: whatever frames come back with the answer among them, a FIN or none after it, and wherever
  // they are cut, there is a run that makes the call, takes all of the answer in after it, and returns what
  // a local caller gets.
  lemma CallCanReturn<M, V>(g: Registry<M>, name: Text, request: seq<Byte>, fromBinary: T.Deserializer<V>,
                            pre: seq<S.Event>, fs: seq<Frame>, chunks: seq<seq<Byte>>) returns (answer: seq<Act>)
    requires !After(pre).closed && Untouched(pre)
    requires 2 * APP_HEADER_SIZE + |name| + |request| <= INITIAL_WINDOW
    requires A.Sendable(ReplyFrame(LocalCall(g, name, request))) && (name in g.stream ==> name in g.unary)
    requires AllCarried(fs) && Gentle(fs, After(pre).nextID) && MessageBytes(pre) + Flatten(chunks) == Wire(fs)
    requires UntilFin(fs, After(pre).nextID) == A.Encode(ReplyFrame(LocalCall(g, name, request)))
    ensures Listening(answer)
    ensures Reached(pre, CallActs(name, request)).m.done == [name, request]
    ensures var acts := CallActs(name, request) + answer;
            && SendsCleanly(pre, acts) && BytesIn(pre, acts) == Wire(fs)
            && Reached(pre, acts).m.done == [name, request] && HasReturned(Reached(pre, acts))
            && CallReturned(g, name, request, fromBinary, Reached(pre, acts).m.results)
  {
    var id := After(pre).nextID;
    StartAwaits(pre, fs, chunks);
    assert MaySend(Start(pre).m, INITIAL_WINDOW) by {
      NewStreamFree(id);
    }
    CallSends(Start(pre), name, request, id);
    answer := CallThenAnswer(Start(pre), name, request, id, fs, chunks);
    var acts := CallActs(name, request) + answer;
    SettledReturned(Reached(pre, acts), id);
    RequestFits(name, request);
    ServerAnswers(g, name, request, pre, acts);
    RemoteCallReturns(g, name, request, fromBinary, pre, acts, fs);
  }

  // The first result is what the local call comes to, and every later one EOF.
  ghost predicate CallReturned<M, V>(g: Registry<M>, name: Text, request: seq<Byte>, fromBinary: T.Deserializer<V>,
                               results: seq<R.Received>)
  {
    && results != [] && ReplyThenEof(results, LocalCall(g, name, request))
    && T.Outcome(results[0], fromBinary) == LocalResult(g, name, request, fromBinary)
  }

  lemma NewStreamFree(id: nat)
    ensures Free(Streams.NewStream(id)) && Streams.NewStream(id).sendWindow == INITIAL_WINDOW
  {
  }

  // ----- the reply and its FIN on the first stream of a new session -----

  function ReplyFrames(reply: seq<Byte>): seq<Frame> {
    [Frame(TYPE_DATA, 0, 1, |reply|, reply), Frame(TYPE_DATA, FLAG_FIN, 1, 0, [])]
  }

  lemma ReplyOnWire(reply: seq<Byte>)
    requires |reply| < TWO_TO_THE_32
    ensures AllCarried(ReplyFrames(reply)) && Gentle(ReplyFrames(reply), 1)
    ensures UntilFin(ReplyFrames(reply), 1) == reply
  {
    var data, fin := Frame(TYPE_DATA, 0, 1, |reply|, reply), Frame(TYPE_DATA, FLAG_FIN, 1, 0, []);
    assert [] + [data] == [data] && [data] + [fin] == [data, fin];
    UntilFinAppend([], data, 1);
    UntilFinAppend([data], fin, 1);
    ConcatEmpty(reply);
  }

  lemma FirstUntouched()
    ensures !After([]).closed && After([]).nextID == 1 && Untouched([]) && MessageBytes([]) == []
  {
    FirstStream();
    NothingYet();
  }

  // In particular: a new session, one call, and after it the reply and its FIN cut into messages anywhere.
  lemma OneCallReturns<M, V>(g: Registry<M>, name: Text, request: seq<Byte>, fromBinary: T.Deserializer<V>,
                             chunks: seq<seq<Byte>>) returns (answer: seq<Act>)
    requires 2 * APP_HEADER_SIZE + |name| + |request| <= INITIAL_WINDOW && (name in g.stream ==> name in g.unary)
    requires |A.Encode(ReplyFrame(LocalCall(g, name, request)))| < TWO_TO_THE_32
    requires Flatten(chunks) == Wire(ReplyFrames(A.Encode(ReplyFrame(LocalCall(g, name, request)))))
    ensures !After([]).closed && Listening(answer)
    ensures Reached([], CallActs(name, request)).m.done == [name, request]
    ensures var acts := CallActs(name, request) + answer;
            && SendsCleanly([], acts) && BytesIn([], acts) == Flatten(chunks)
            && Reached([], acts).m.done == [name, request] && HasReturned(Reached([], acts))
            && CallReturned(g, name, request, fromBinary, Reached([], acts).m.results)
  {
    var reply := A.Encode(ReplyFrame(LocalCall(g, name, request)));
    FirstUntouched();
    ReplyOnWire(reply);
    ConcatEmpty(Flatten(chunks));
    answer := CallCanReturn(g, name, request, fromBinary, [], ReplyFrames(reply), chunks);
  }
}
