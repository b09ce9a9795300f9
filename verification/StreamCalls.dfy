/** A streaming call from the server's handler to the consumer on the client: what the handler writes is
    what the listener and the iterator are told, errors as errors, and a stream that was cut short never
    as one that ended. */
module StreamCalls {
  import opened Bytes
  import opened Records
  import opened YamuxFrames
  import opened Messages
  import opened MessageSends
  import opened EndToEnd
  import opened EndToEndEof
  import opened SessionEof
  import opened SessionParsing
  import A = AppFrames
  import G = GoStreams
  import R = Receiving
  import S = Sessions
  import T = Transport
  import Buffers
  import opened Routers
  import opened RemoteCalls
  import opened CallEndToEnd
  import opened Endings

  // ----- the server's answer -----

  // The server's first read takes the name off.
  lemma NameRead(name: Text, rest: seq<Byte>)
    requires A.Sendable(A.AppFrame(0, name))
    ensures G.FrameAt(A.Encode(A.AppFrame(0, name)) + rest) == G.Ok(A.AppFrame(0, name))
    ensures G.AfterFrame(A.Encode(A.AppFrame(0, name)) + rest) == rest
  {
    A.SendableIsValid(A.AppFrame(0, name));
    FirstOfRaw(AppFormat, A.ToRecord(A.AppFrame(0, name)), rest);
  }

  // What the server puts on the stream of a method that only a stream handler serves: all that the handler
  // wrote - and, if it panicked with the write side open, one error frame that names the panic.
  lemma StreamAnswered<M>(g: Registry<M>, name: Text, rest: seq<Byte>, fs: seq<A.AppFrame>)
    requires name in g.stream && name !in g.unary && A.Sendable(A.AppFrame(0, name))
    requires A.AllSendable(fs) && g.stream[name](rest).written == A.EncodeAll(fs)
    ensures var done, answer := g.stream[name](rest), Answer(g, A.Encode(A.AppFrame(0, name)) + rest);
            && done.written <= answer
            && (done.panic.None? || done.closed ==> A.Decode(answer) == fs && answer == A.EncodeAll(fs))
            && (done.panic.Some? && !done.closed ==>
                  var named := A.AppFrame(1, Ascii("handler panic: ") + done.panic.value);
                  && answer == A.EncodeAll(fs + [named])
                  && (A.Sendable(named) ==> A.Decode(answer) == fs + [named]))
  {
    var done := g.stream[name](rest);
    NameRead(name, rest);
    if done.panic.None? || done.closed {
      ConcatEmpty(done.written);
      DecodeAll(fs);
    } else {
      var named := A.AppFrame(1, Ascii("handler panic: ") + done.panic.value);
      A.EncodeAllConcat(fs, [named]);
      EncodeOne(named);
      if A.Sendable(named) {
        DecodeAll(fs + [named]);
      }
    }
  }

  lemma EncodeOne(f: A.AppFrame)
    ensures A.EncodeAll([f]) == A.Encode(f)
  {
    ConcatEmpty(A.Encode(f));
    assert A.EncodeAll([f]) == A.Encode(f) + A.EncodeAll([]);
  }

  lemma DecodeAll(fs: seq<A.AppFrame>)
    requires A.AllSendable(fs)
    ensures A.Decode(A.EncodeAll(fs)) == fs
  {
    A.DecodeInvertsEncode(fs, []);
    ConcatEmpty(A.EncodeAll(fs));
    assert A.Decode([]) == [];
    ConcatEmpty(fs);
  }

  // ----- what the consumer is told -----

  // Nothing, or an error frame first.
  predicate EndsWith(more: seq<A.AppFrame>) {
    more != [] ==> more[0].typ == 1
  }

  lemma ScriptOf(results: seq<R.Received>, payloads: seq<seq<Byte>>, more: seq<A.AppFrame>)
    requires A.AllSendable(DataFrames(payloads) + more) && EndsWith(more)
    requires FramesThenEof(results, DataFrames(payloads) + more)
    ensures forall i :: 0 <= i < |results| && i < |payloads| ==> results[i] == R.Payload(payloads[i])
    ensures |results| > |payloads| ==>
              results[|payloads|] == if more == [] then R.Failed(Buffers.Eof) else R.Remote(more[0].payload)
  {
    var frames := DataFrames(payloads) + more;
    forall i | 0 <= i < |results| && i < |payloads| ensures results[i] == R.Payload(payloads[i]) {
      assert frames[i] == DataFrames(payloads)[i];
      A.SendableIsValid(frames[i]);
    }
    if |results| > |payloads| && more != [] {
      assert frames[|payloads|] == more[0];
      A.SendableIsValid(more[0]);
    }
  }

  // Listener and iterator are told of the payloads, decoded and in order, and then of the error or the end.
  ghost predicate Consumed<V>(results: seq<R.Received>, payloads: seq<seq<Byte>>, error: Option<Text>,
                        fromBinary: T.Deserializer<V>, throws: V -> T.Thrown) {
    var n := Min(|results|, |payloads|);
    var calls, ms := T.Trace(results, fromBinary, throws), T.Messages(results, fromBinary);
    && |ms| == n && |calls| == (if |results| > |payloads| then n + 1 else n)
    && (forall i :: 0 <= i < n ==>
          && fromBinary(payloads[i]) == T.Good(ms[i])
          && calls[i] == T.OnMessage(ms[i]))
    && (|results| <= |payloads| ==> T.EndingOf(results, fromBinary) == T.StillWaiting)
    && (|results| > |payloads| ==>
          match error
          case None => calls[n] == T.OnEnd && T.EndingOf(results, fromBinary) == T.Normal
          case Some(m) =>
            && calls[n] == T.OnError(T.RemoteError(m))
            && T.EndingOf(results, fromBinary) == T.Ending.Broken(T.RemoteError(m)))
  }

  function FirstError(more: seq<A.AppFrame>): Option<Text> {
    if more == [] then None else Some(more[0].payload)
  }

  lemma ScriptConsumed<V>(results: seq<R.Received>, payloads: seq<seq<Byte>>, more: seq<A.AppFrame>,
                          fromBinary: T.Deserializer<V>, throws: V -> T.Thrown)
    requires A.AllSendable(DataFrames(payloads) + more) && EndsWith(more)
    requires FramesThenEof(results, DataFrames(payloads) + more)
    requires forall i :: 0 <= i < |payloads| ==> fromBinary(payloads[i]).Good?
    requires forall i :: 0 <= i < |payloads| ==> throws(fromBinary(payloads[i]).value).Nothing?
    ensures Consumed(results, payloads, FirstError(more), fromBinary, throws)
  {
    ScriptOf(results, payloads, more);
    T.EveryEndIsTold(results, fromBinary, throws, Min(|results|, |payloads|));
  }

  // Through a session: the peer puts data frames on a stream and then nothing or an error frame, cut in
  // any way, with anything else happening in the session.
  lemma FramesConsumed<V>(payloads: seq<seq<Byte>>, more: seq<A.AppFrame>,
                          fromBinary: T.Deserializer<V>, throws: V -> T.Thrown,
                          pre: seq<S.Event>, acts: seq<Act>, fs: seq<Frame>)
    requires !After(pre).closed && Untouched(pre)
    requires AllCarried(fs) && BytesIn(pre, acts) <= Wire(fs) && Reached(pre, acts).m.ys.resets == 0
    requires A.AllSendable(DataFrames(payloads) + more) && EndsWith(more)
    requires Ends(fs, After(pre).nextID, DataFrames(payloads) + more)
    requires forall i :: 0 <= i < |payloads| ==> fromBinary(payloads[i]).Good?
    requires forall i :: 0 <= i < |payloads| ==> throws(fromBinary(payloads[i]).value).Nothing?
    ensures Consumed(Reached(pre, acts).m.results, payloads, FirstError(more), fromBinary, throws)
  {
    FramesThenEofForEver(pre, acts, fs, DataFrames(payloads) + more);
    ScriptConsumed(Reached(pre, acts).m.results, payloads, more, fromBinary, throws);
  }

  // ----- from the handler to the consumer -----

  lemma NameFirst(name: Text, requests: seq<seq<Byte>>)
    ensures A.EncodeAll(DataFrames([name] + requests)) ==
            A.Encode(A.AppFrame(0, name)) + A.EncodeAll(DataFrames(requests))
  {
    assert DataFrames([name] + requests) == [A.AppFrame(0, name)] + DataFrames(requests);
    A.EncodeAllConcat([A.AppFrame(0, name)], DataFrames(requests));
    EncodeOne(A.AppFrame(0, name));
  }

  // The bytes of the client's stream: the name and what the program sent after it.
  lemma ServerReads(pre: seq<S.Event>, acts: seq<Act>, name: Text, requests: seq<seq<Byte>>)
    requires !After(pre).closed && SendsCleanly(pre, acts)
    requires Reached(pre, acts).m.tx.Between? && Reached(pre, acts).m.done == [name] + requests
    ensures DataOf(Reached(pre, acts).session.log, After(pre).nextID) ==
            A.Encode(A.AppFrame(0, name)) + A.EncodeAll(DataFrames(requests))
  {
    SenderSide(pre, acts);
    AllSent(Reached(pre, acts).m);
    NameFirst(name, requests);
  }

  // The error frames behind what the handler wrote: one that names its panic, if the write side was open.
  function PanicFrames(done: Handled): seq<A.AppFrame> {
    if done.panic.Some? && !done.closed then [A.AppFrame(1, Ascii("handler panic: ") + done.panic.value)] else []
  }

  lemma HandlerAnswers<M>(g: Registry<M>, name: Text, rest: seq<Byte>, fs: seq<A.AppFrame>)
    requires name in g.stream && name !in g.unary && A.Sendable(A.AppFrame(0, name))
    requires A.AllSendable(fs) && g.stream[name](rest).written == A.EncodeAll(fs)
    ensures Answer(g, A.Encode(A.AppFrame(0, name)) + rest) == A.EncodeAll(fs + PanicFrames(g.stream[name](rest)))
  {
    StreamAnswered(g, name, rest, fs);
    ConcatEmpty(fs);
  }

  lemma FirstErrorIs(errors: seq<A.AppFrame>, done: Handled)
    requires EndsWith(errors)
    ensures EndsWith(errors + PanicFrames(done))
    ensures FirstError(errors + PanicFrames(done)) ==
            if errors != [] then Some(errors[0].payload)
            else if done.panic.Some? && !done.closed then Some(Ascii("handler panic: ") + done.panic.value)
            else None
  {
  }

  lemma AnswerIs<M>(g: Registry<M>, name: Text, requests: seq<seq<Byte>>, payloads: seq<seq<Byte>>,
                    errors: seq<A.AppFrame>, pre: seq<S.Event>, acts: seq<Act>)
    requires !After(pre).closed && SendsCleanly(pre, acts)
    requires Reached(pre, acts).m.tx.Between? && Reached(pre, acts).m.done == [name] + requests
    requires name in g.stream && name !in g.unary && A.Sendable(A.AppFrame(0, name))
    requires var done := g.stream[name](A.EncodeAll(DataFrames(requests)));
             && done.written == A.EncodeAll(DataFrames(payloads) + errors)
             && A.AllSendable(DataFrames(payloads) + errors + PanicFrames(done))
    ensures var more := errors + PanicFrames(g.stream[name](A.EncodeAll(DataFrames(requests))));
            && A.AllSendable(DataFrames(payloads) + more)
            && Answer(g, DataOf(Reached(pre, acts).session.log, After(pre).nextID)) ==
               A.EncodeAll(DataFrames(payloads) + more)
  {
    var rest := A.EncodeAll(DataFrames(requests));
    var panic := PanicFrames(g.stream[name](rest));
    ServerReads(pre, acts, name, requests);
    FrontSendable(DataFrames(payloads) + errors, panic);
    HandlerAnswers(g, name, rest, DataFrames(payloads) + errors);
    ConcatAssociative(DataFrames(payloads), errors, panic);
  }

  // A whole streaming call.  The client has opened its stream, named a method and sent `requests`; the
  // router has run the method's handler on them, which wrote `payloads` and then nothing or an error
  // frame, and ended or panicked; the bytes of that come back, cut in any way.  Then listener and iterator
  // are told of the payloads, decoded and in order, and after the last one of the handler's error, of its
  // panic, or, if there was neither, of the end.
  lemma HandlerHeard<M, V>(g: Registry<M>, name: Text, requests: seq<seq<Byte>>, payloads: seq<seq<Byte>>,
                           errors: seq<A.AppFrame>, fromBinary: T.Deserializer<V>, throws: V -> T.Thrown,
                           pre: seq<S.Event>, acts: seq<Act>, fs: seq<Frame>)
    requires !After(pre).closed && SendsCleanly(pre, acts) && Untouched(pre)
    requires Reached(pre, acts).m.tx.Between? && Reached(pre, acts).m.done == [name] + requests
    requires name in g.stream && name !in g.unary && A.Sendable(A.AppFrame(0, name)) && EndsWith(errors)
    requires var done := g.stream[name](A.EncodeAll(DataFrames(requests)));
             && done.written == A.EncodeAll(DataFrames(payloads) + errors)
             && A.AllSendable(DataFrames(payloads) + errors + PanicFrames(done))
    requires AllCarried(fs) && BytesIn(pre, acts) <= Wire(fs) && Reached(pre, acts).m.ys.resets == 0
    requires var answer := Answer(g, DataOf(Reached(pre, acts).session.log, After(pre).nextID));
             && UntilFin(fs, After(pre).nextID) <= answer
             && (FinSeen(fs, After(pre).nextID) ==> UntilFin(fs, After(pre).nextID) == answer)
    requires forall i :: 0 <= i < |payloads| ==> fromBinary(payloads[i]).Good?
    requires forall i :: 0 <= i < |payloads| ==> throws(fromBinary(payloads[i]).value).Nothing?
    ensures var done := g.stream[name](A.EncodeAll(DataFrames(requests)));
            Consumed(Reached(pre, acts).m.results, payloads,
                     if errors != [] then Some(errors[0].payload)
                     else if done.panic.Some? && !done.closed then Some(Ascii("handler panic: ") + done.panic.value)
                     else None,
                     fromBinary, throws)
  {
    var done := g.stream[name](A.EncodeAll(DataFrames(requests)));
    AnswerIs(g, name, requests, payloads, errors, pre, acts);
    FirstErrorIs(errors, done);
    FramesConsumed(payloads, errors + PanicFrames(done), fromBinary, throws, pre, acts, fs);
  }

  lemma FrontSendable(a: seq<A.AppFrame>, b: seq<A.AppFrame>)
    requires A.AllSendable(a + b)
    ensures A.AllSendable(a)
  {
    forall i | 0 <= i < |a| ensures A.Sendable(a[i]) {
      assert (a + b)[i] == a[i];
    }
  }

  // ----- a stream cut short -----

  // The first result that is no message.
  function FirstOther<V>(script: seq<R.Received>, fromBinary: T.Deserializer<V>): (n: nat)
    ensures T.MessagesFirst(script, fromBinary, n)
  {
    T.MessageCount(script, fromBinary)
  }

  lemma NeverEnded<V>(script: seq<R.Received>, fromBinary: T.Deserializer<V>, throws: V -> T.Thrown)
    requires R.Failed(Buffers.Eof) !in script
    requires forall bytes :: fromBinary(bytes) != T.Threw(true)
    requires forall bytes :: fromBinary(bytes).Good? ==> throws(fromBinary(bytes).value).Nothing?
    ensures T.OnEnd !in T.Trace(script, fromBinary, throws) && !T.EndingOf(script, fromBinary).Normal?
    ensures (exists i :: 0 <= i < |script| && script[i].Failed?) ==> T.EndingOf(script, fromBinary).Broken?
  {
    var n := FirstOther(script, fromBinary);
    T.OnEndExactly(script, fromBinary, throws, n);
    T.EveryEndIsTold(script, fromBinary, throws, n);
  }

  // A stream that leaves the table before the peer's FIN, at any point of any run: the consumer is never
  // told that it ended.  onEnd is not called and the iterator does not end without a throw, then or ever
  // after; and once a call of recv has failed, it is told of an error.
  lemma CutShortIsHeard<V>(fromBinary: T.Deserializer<V>, throws: V -> T.Thrown,
                           pre: seq<S.Event>, acts: seq<Act>, more: seq<Act>)
    requires !After(pre).closed && After(pre).nextID !in Reached(pre, acts).session.table
    requires AllValid(YamuxFormat, Reached(pre, acts).session.dispatched)
    requires !FinSeen(DispatchedFrames(Reached(pre, acts).session), After(pre).nextID)
    requires forall bytes :: fromBinary(bytes) != T.Threw(true)
    requires forall bytes :: fromBinary(bytes).Good? ==> throws(fromBinary(bytes).value).Nothing?
    ensures var script := Reached(pre, acts + more).m.results;
            && T.OnEnd !in T.Trace(script, fromBinary, throws) && !T.EndingOf(script, fromBinary).Normal?
            && ((exists i :: 0 <= i < |script| && script[i].Failed?) ==> T.EndingOf(script, fromBinary).Broken?)
  {
    CutShortIsNoEnd(pre, acts, more);
    NeverEnded(Reached(pre, acts + more).m.results, fromBinary, throws);
  }

  // A unary call whose stream leaves the table before the answer: callUnary fails with the reset, not with
  // a value or a clean end.
  lemma LostCallFails<V>(fromBinary: T.Deserializer<V>, pre: seq<S.Event>, acts: seq<Act>, more: seq<Act>)
    requires !After(pre).closed && After(pre).nextID !in Reached(pre, acts).session.table
    requires AllValid(YamuxFormat, Reached(pre, acts).session.dispatched)
    requires !FinSeen(DispatchedFrames(Reached(pre, acts).session), After(pre).nextID)
    requires NeverReset(acts + more, After(pre).nextID)
    requires Reached(pre, acts + more).m.results != [] && Reached(pre, acts + more).m.results[0].Failed?
    ensures T.Outcome(Reached(pre, acts + more).m.results[0], fromBinary) ==
            T.CallResult.Failed(T.Lost(Buffers.Failure("stream reset by remote")))
  {
    CutShortIsNoEnd(pre, acts, more);
    FirstReason(pre, acts + more, fromBinary);
  }

  lemma FirstReason<V>(pre: seq<S.Event>, acts: seq<Act>, fromBinary: T.Deserializer<V>)
    requires !After(pre).closed && NeverReset(acts, After(pre).nextID) && NoEndIn(Reached(pre, acts).m)
    requires Reached(pre, acts).m.results != [] && Reached(pre, acts).m.results[0].Failed?
    ensures T.Outcome(Reached(pre, acts).m.results[0], fromBinary) ==
            T.CallResult.Failed(T.Lost(Buffers.Failure("stream reset by remote")))
  {
    FirstFailure(Reached(pre, acts).m);
    FailuresHaveReasons(pre, acts, Reached(pre, acts).m.results[0].error);
  }

  lemma FirstFailure(m: Messenger)
    requires NoEndIn(m) && m.results != [] && m.results[0].Failed?
    ensures FailsWith(m, m.results[0].error) && m.results[0].error != Buffers.Eof
  {
    assert m.results[0] in m.results;
  }
}
