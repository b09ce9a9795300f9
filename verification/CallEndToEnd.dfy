/** A unary call from a client session through the wire to the Go router and back. */
module CallEndToEnd {
  import opened Bytes
  import opened Records
  import opened YamuxFrames
  import opened Messages
  import opened MessageSends
  import opened EndToEnd
  import opened EndToEndEof
  import opened SessionEof
  import A = AppFrames
  import G = GoStreams
  import R = Receiving
  import S = Sessions
  import T = Transport
  import Buffers
  import opened Routers
  import opened RemoteCalls

  lemma TwoSends(name: Text, request: seq<Byte>)
    ensures DataFrames([name, request]) == Request(name, request)
  {
  }

  // All the server sees of the stream are the two frames of the call.
  lemma ServerSees(pre: seq<S.Event>, acts: seq<Act>, name: Text, request: seq<Byte>)
    requires !After(pre).closed && SendsCleanly(pre, acts)
    requires Reached(pre, acts).m.tx.Between? && Reached(pre, acts).m.done == [name, request]
    ensures DataOf(Reached(pre, acts).session.log, After(pre).nextID) == A.EncodeAll(Request(name, request))
  {
    SenderSide(pre, acts);
    AllSent(Reached(pre, acts).m);
    TwoSends(name, request);
  }

  lemma ReplyAlone(reply: A.AppFrame)
    requires A.Sendable(reply)
    ensures A.AllSendable([reply]) && A.EncodeAll([reply]) == A.Encode(reply)
    ensures A.ToRecords([reply]) == [A.ToRecord(reply)]
    ensures Valid(AppFormat, A.ToRecord(reply))
  {
    assert A.EncodeAll([reply]) == A.Encode(reply) + A.EncodeAll([]);
    ConcatEmpty(A.Encode(reply));
    A.SendableIsValid(reply);
  }

  lemma ReplyInterpreted(records: seq<Record>, outcome: G.Result<seq<Byte>, Text>)
    requires AllValid(AppFormat, records) && A.Sendable(ReplyFrame(outcome))
    requires records <= [A.ToRecord(ReplyFrame(outcome))]
    ensures R.InterpretAll(records) <= [AsReceived(outcome)]
  {
    if records != [] {
      assert records[0] == A.ToRecord(ReplyFrame(outcome));
    }
  }

  // The client has sent the method name and the request on one of its streams; the router has run
  // dispatch on what that stream carried; the server's frames `fs`, its answer among them, come back
  // cut in any way, with frames of other streams between.  Whatever else the session does, recv
  // returns the local call's outcome or nothing yet, and never anything else before a failure.
  lemma RemoteCallOverSession<M>(g: Registry<M>, name: Text, request: seq<Byte>,
                                 pre: seq<S.Event>, acts: seq<Act>, fs: seq<Frame>)
    requires !After(pre).closed && SendsCleanly(pre, acts) && Unused(pre)
    requires Reached(pre, acts).m.tx.Between? && Reached(pre, acts).m.done == [name, request]
    requires A.AllSendable(Request(name, request)) && A.Sendable(ReplyFrame(LocalCall(g, name, request)))
    requires name in g.stream ==> name in g.unary
    requires AllCarried(fs) && BytesIn(pre, acts) <= Wire(fs)
    requires DataOf(fs, After(pre).nextID) <= Answer(g, DataOf(Reached(pre, acts).session.log, After(pre).nextID))
    ensures BeforeFailure(Reached(pre, acts).m.results) <= [AsReceived(LocalCall(g, name, request))]
  {
    var outcome := LocalCall(g, name, request);
    var reply := ReplyFrame(outcome);
    ServerAnswers(g, name, request, pre, acts);
    ReplyAlone(reply);
    ReceiverSide(pre, acts, fs, [reply]);
    ReplyInterpreted(Reached(pre, acts).m.records, outcome);
  }

  // The outcome comes first, and after it only EOF.
  predicate ReplyThenEof(results: seq<R.Received>, outcome: G.Result<seq<Byte>, Text>) {
    forall i :: 0 <= i < |results| ==> results[i] == if i == 0 then AsReceived(outcome) else R.Failed(Buffers.Eof)
  }

  lemma OneReply(results: seq<R.Received>, outcome: G.Result<seq<Byte>, Text>)
    requires A.Sendable(ReplyFrame(outcome)) && FramesThenEof(results, [ReplyFrame(outcome)])
    ensures ReplyThenEof(results, outcome)
  {
    A.SendableIsValid(ReplyFrame(outcome));
    assert R.Interpret(A.ToRecord(ReplyFrame(outcome))) == AsReceived(outcome);
  }

  lemma ServerAnswers<M>(g: Registry<M>, name: Text, request: seq<Byte>, pre: seq<S.Event>, acts: seq<Act>)
    requires !After(pre).closed && SendsCleanly(pre, acts)
    requires Reached(pre, acts).m.tx.Between? && Reached(pre, acts).m.done == [name, request]
    requires A.AllSendable(Request(name, request)) && (name in g.stream ==> name in g.unary)
    ensures Answer(g, DataOf(Reached(pre, acts).session.log, After(pre).nextID)) ==
            A.Encode(ReplyFrame(LocalCall(g, name, request)))
  {
    ServerSees(pre, acts, name, request);
    AnswerIsLocal(g, name, request);
  }

  // All the server has put on the stream is its reply.
  lemma ReplyReturns(pre: seq<S.Event>, acts: seq<Act>, fs: seq<Frame>, outcome: G.Result<seq<Byte>, Text>)
    requires !After(pre).closed && Untouched(pre)
    requires AllCarried(fs) && BytesIn(pre, acts) == Wire(fs)
    requires A.Sendable(ReplyFrame(outcome)) && UntilFin(fs, After(pre).nextID) == A.Encode(ReplyFrame(outcome))
    requires Reached(pre, acts).m.ys.resets == 0 && HasReturned(Reached(pre, acts))
    ensures Reached(pre, acts).m.results != [] && ReplyThenEof(Reached(pre, acts).m.results, outcome)
  {
    ReplyAlone(ReplyFrame(outcome));
    FramesThenEofForEver(pre, acts, fs, [ReplyFrame(outcome)]);
    FirstFrameArrives(pre, acts, fs, [ReplyFrame(outcome)]);
    OneReply(Reached(pre, acts).m.results, outcome);
  }

  // recv has been called, and the loop of the open session and the pending recv have been continued as
  // far as they go.
  predicate HasReturned(p: Endpoint) {
    && !p.session.closed && p.session.buf.waiting.Some?
    && R.Called(Reader(p.m)) && R.AtRest(Reader(p.m))
  }

  lemma OutcomeIsLocal<M, V>(g: Registry<M>, name: Text, request: seq<Byte>, fromBinary: T.Deserializer<V>)
    ensures T.Outcome(AsReceived(LocalCall(g, name, request)), fromBinary) == LocalResult(g, name, request, fromBinary)
  {
  }

  lemma FirstOutcome<M, V>(g: Registry<M>, name: Text, request: seq<Byte>, fromBinary: T.Deserializer<V>,
                           results: seq<R.Received>)
    requires results != [] && ReplyThenEof(results, LocalCall(g, name, request))
    ensures T.Outcome(results[0], fromBinary) == LocalResult(g, name, request, fromBinary)
  {
    OutcomeIsLocal(g, name, request, fromBinary);
  }

  // The same when the stream is not reset: the first result is the local call's outcome and every later
  // one EOF - and callUnary gets its result, for once the answer is in and the loop and the pending
  // recv have been continued as far as they go, recv has returned it.
  lemma RemoteCallReturns<M, V>(g: Registry<M>, name: Text, request: seq<Byte>, fromBinary: T.Deserializer<V>,
                                pre: seq<S.Event>, acts: seq<Act>, fs: seq<Frame>)
    requires !After(pre).closed && SendsCleanly(pre, acts) && Untouched(pre)
    requires Reached(pre, acts).m.tx.Between? && Reached(pre, acts).m.done == [name, request]
    requires A.AllSendable(Request(name, request)) && A.Sendable(ReplyFrame(LocalCall(g, name, request)))
    requires name in g.stream ==> name in g.unary
    requires AllCarried(fs) && BytesIn(pre, acts) == Wire(fs)
    requires UntilFin(fs, After(pre).nextID) == Answer(g, DataOf(Reached(pre, acts).session.log, After(pre).nextID))
    requires Reached(pre, acts).m.ys.resets == 0 && HasReturned(Reached(pre, acts))
    ensures var results := Reached(pre, acts).m.results;
            && results != [] && ReplyThenEof(results, LocalCall(g, name, request))
            && T.Outcome(results[0], fromBinary) == LocalResult(g, name, request, fromBinary)
  {
    ServerAnswers(g, name, request, pre, acts);
    ReplyReturns(pre, acts, fs, LocalCall(g, name, request));
    FirstOutcome(g, name, request, fromBinary, Reached(pre, acts).m.results);
  }

  // ----- a response stream -----

  function Decoded<V>(payloads: seq<seq<Byte>>, fromBinary: T.Deserializer<V>): (vs: seq<V>)
    requires forall i :: 0 <= i < |payloads| ==> fromBinary(payloads[i]).Good?
    ensures |vs| == |payloads|
    ensures forall i :: 0 <= i < |payloads| ==> vs[i] == fromBinary(payloads[i]).value
  {
    seq(|payloads|, i requires 0 <= i < |payloads| => fromBinary(payloads[i]).value)
  }

  lemma PayloadResults(results: seq<R.Received>, payloads: seq<seq<Byte>>)
    requires A.AllSendable(DataFrames(payloads)) && FramesThenEof(results, DataFrames(payloads))
    ensures forall i :: 0 <= i < |results| ==>
              results[i] == if i < |payloads| then R.Payload(payloads[i]) else R.Failed(Buffers.Eof)
  {
    forall i | 0 <= i < |results|
      ensures results[i] == if i < |payloads| then R.Payload(payloads[i]) else R.Failed(Buffers.Eof)
    {
      if i < |payloads| {
        A.SendableIsValid(DataFrames(payloads)[i]);
      }
    }
  }

  lemma ScriptMessages<V>(script: seq<R.Received>, payloads: seq<seq<Byte>>, fromBinary: T.Deserializer<V>)
    requires forall i :: 0 <= i < |payloads| ==> fromBinary(payloads[i]).Good?
    requires forall i :: 0 <= i < |script| ==>
               script[i] == if i < |payloads| then R.Payload(payloads[i]) else R.Failed(Buffers.Eof)
    ensures T.MessageCount(script, fromBinary) == Min(|script|, |payloads|)
    ensures T.Messages(script, fromBinary) == Decoded(payloads, fromBinary)[..Min(|script|, |payloads|)]
    ensures T.EndingOf(script, fromBinary) == if |script| > |payloads| then T.Normal else T.StillWaiting
  {
    var n := T.MessageCount(script, fromBinary);
    assert n < |script| ==> !T.Decodable(script[n], fromBinary);
    assert |payloads| < n ==> T.Decodable(script[|payloads|], fromBinary);
  }

  // The script of `Transport.Channel` when the server streams payloads that all decode: the messages
  // of listener and iterator are the decoded payloads in order, and the stream ends normally after the
  // last one and not before.
  lemma StreamedMessages<V>(payloads: seq<seq<Byte>>, fromBinary: T.Deserializer<V>,
                            pre: seq<S.Event>, acts: seq<Act>, fs: seq<Frame>)
    requires !After(pre).closed && Untouched(pre)
    requires AllCarried(fs) && BytesIn(pre, acts) <= Wire(fs)
    requires A.AllSendable(DataFrames(payloads)) && Ends(fs, After(pre).nextID, DataFrames(payloads))
    requires forall i :: 0 <= i < |payloads| ==> fromBinary(payloads[i]).Good?
    requires Reached(pre, acts).m.ys.resets == 0
    ensures var script := Reached(pre, acts).m.results;
            && T.Messages(script, fromBinary) == Decoded(payloads, fromBinary)[..Min(|script|, |payloads|)]
            && T.EndingOf(script, fromBinary) == if |script| > |payloads| then T.Normal else T.StillWaiting
  {
    FramesThenEofForEver(pre, acts, fs, DataFrames(payloads));
    PayloadResults(Reached(pre, acts).m.results, payloads);
    ScriptMessages(Reached(pre, acts).m.results, payloads, fromBinary);
  }
}
