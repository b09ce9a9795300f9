/** ts/src/transport.ts: the client's unary call and the two ways of consuming a response stream.

    `ServerStream` and `BidiStream` have the same loops; one class stands for both.  A stream of
    responses is seen through the results of successive calls of WSStream.recv; when the script is
    used up, the next call waits for ever. */
module Transport {
  import opened Bytes
  import opened Buffers
  import opened Receiving

  // fromBinary may throw, and user code may throw the exported EOF.
  datatype Decoded<+T> = Good(value: T) | Threw(eof: bool)

  type Deserializer<!T> = seq<Byte> -> Decoded<T>

  // How a call of onMessage ends.
  datatype Thrown = Nothing | AnEof | Another

  datatype Failure =
    | RemoteError(message: seq<Byte>)
    | Lost(error: Error)
    | Undecodable(bytes: seq<Byte>)
    | CallbackThrew
    | SendRefused

  // A WSStream as transport.ts sees it.
  class Channel {
    const script: seq<Received>
    var pos: nat
    var sent: seq<seq<Byte>>
    var writeClosed: bool

    ghost predicate Valid()
      reads this
    {
      pos <= |script|
    }

    // The results recv has not returned yet.
    ghost function Ahead(): seq<Received>
      requires Valid()
      reads this
    {
      script[pos..]
    }

    constructor (script: seq<Received>)
      ensures Valid() && Ahead() == script && sent == [] && !writeClosed
    {
      this.script, pos, sent, writeClosed := script, 0, [], false;
    }

    method Send(data: seq<Byte>) returns (ok: bool)
      modifies this`sent
      ensures ok == !writeClosed && sent == if ok then old(sent) + [data] else old(sent)
    {
      ok := !writeClosed;
      if ok {
        sent := sent + [data];
      }
    }

    method Recv() returns (r: Option<Received>)
      requires Valid()
      modifies this`pos
      ensures Valid()
      ensures old(Ahead()) == [] ==> r == None && Ahead() == []
      ensures old(Ahead()) != [] ==> r == Some(old(Ahead())[0]) && Ahead() == old(Ahead())[1..]
    {
      if pos < |script| {
        r := Some(script[pos]);
        pos := pos + 1;
      } else {
        r := None;
      }
    }

    method Close()
      modifies this`writeClosed
      ensures writeClosed
    {
      writeClosed := true;
    }
  }

  // ----- callUnary -----

  datatype CallResult<+T> = Waiting | Value(value: T) | Failed(failure: Failure)

  // The exception of a fromBinary that threw.
  function DecodeFailure(bytes: seq<Byte>, eof: bool): Failure {
    if eof then Lost(Eof) else Undecodable(bytes)
  }

  function Outcome<T>(r: Received, fromBinary: Deserializer<T>): CallResult<T> {
    match r
    case Remote(m) => CallResult.Failed(RemoteError(m))
    case Failed(e) => CallResult.Failed(Lost(e))
    case Payload(bytes) =>
      match fromBinary(bytes)
      case Good(v) => Value(v)
      case Threw(eof) => CallResult.Failed(DecodeFailure(bytes, eof))
  }

  // Two frames out, one result in.  The stream is half-closed only after a payload has arrived:
  // on an error frame or a lost stream the call leaves without closing.
  method CallUnary<T>(ws: Channel, name: seq<Byte>, request: seq<Byte>, fromBinary: Deserializer<T>)
    returns (r: CallResult<T>)
    requires ws.Valid()
    modifies ws
    ensures ws.Valid()
    ensures old(ws.writeClosed) ==> r == CallResult.Failed(SendRefused) && ws.sent == old(ws.sent) && ws.pos == old(ws.pos)
    ensures !old(ws.writeClosed) ==>
              && ws.sent == old(ws.sent) + [name, request]
              && (old(ws.Ahead()) == [] ==> r == Waiting)
              && (old(ws.Ahead()) != [] ==>
                    match old(ws.Ahead())[0]
                    case Remote(m) => r == CallResult.Failed(RemoteError(m))
                    case Failed(e) => r == CallResult.Failed(Lost(e))
                    case Payload(bytes) =>
                      match fromBinary(bytes)
                      case Good(v) => r == Value(v)
                      case Threw(eof) => r == CallResult.Failed(if eof then Lost(Eof) else Undecodable(bytes)))
              && (old(ws.Ahead()) != [] ==> r == Outcome(old(ws.Ahead())[0], fromBinary))
              && (ws.writeClosed <==> old(ws.Ahead()) != [] && old(ws.Ahead())[0].Payload?)
  {
    var named := ws.Send(name);
    if !named {
      return CallResult.Failed(SendRefused);
    }
    var requested := ws.Send(request);
    if !requested {
      return CallResult.Failed(SendRefused);
    }
    var data := ws.Recv();
    if data.None? {
      return Waiting;
    }
    match data.value
    case Remote(m) => r := CallResult.Failed(RemoteError(m));
    case Failed(e) => r := CallResult.Failed(Lost(e));
    case Payload(bytes) =>
      ws.Close();
      var v := fromBinary(bytes);
      r := if v.Good? then Value(v.value) else CallResult.Failed(DecodeFailure(bytes, v.eof));
  }

  // ----- listen and iterate -----

  datatype Callback<+T> = OnMessage(message: T) | OnError(failure: Failure) | OnEnd

  datatype Ending = StillWaiting | Normal | Broken(failure: Failure)

  predicate Decodable<T>(r: Received, fromBinary: Deserializer<T>) {
    r.Payload? && fromBinary(r.bytes).Good?
  }

  // How many results at the front are messages.
  function MessageCount<T>(script: seq<Received>, fromBinary: Deserializer<T>): (n: nat)
    ensures n <= |script|
    ensures forall i :: 0 <= i < n ==> Decodable(script[i], fromBinary)
    ensures n < |script| ==> !Decodable(script[n], fromBinary)
  {
    if script == [] || !Decodable(script[0], fromBinary) then 0
    else
      var n := 1 + MessageCount(script[1..], fromBinary);
      assert forall i :: 0 < i < n ==> script[i] == script[1..][i - 1];
      assert n < |script| ==> script[n] == script[1..][n - 1];
      n
  }

  // The messages of a stream: everything decoded up to its end or first error.
  function Messages<T>(script: seq<Received>, fromBinary: Deserializer<T>): (ms: seq<T>)
    ensures |ms| == MessageCount(script, fromBinary)
  {
    var n := MessageCount(script, fromBinary);
    seq(n, i requires 0 <= i < n => fromBinary(script[i].bytes).value)
  }

  function EndingOf<T>(script: seq<Received>, fromBinary: Deserializer<T>): Ending {
    var n := MessageCount(script, fromBinary);
    if n == |script| then StillWaiting
    else match script[n]
      case Failed(Eof) => Normal
      case Failed(e) => Broken(Lost(e))
      case Remote(m) => Broken(RemoteError(m))
      case Payload(bytes) => if fromBinary(bytes).eof then Normal else Broken(Undecodable(bytes))
  }

  // The messages up to and including the first whose callback throws.
  function Heard<T>(ms: seq<T>, throws: T -> Thrown): seq<T> {
    if ms == [] then [] else if throws(ms[0]).Nothing? then [ms[0]] + Heard(ms[1..], throws) else [ms[0]]
  }

  // What that callback throws.
  function FirstThrow<T>(ms: seq<T>, throws: T -> Thrown): Thrown {
    if ms == [] then Nothing else if throws(ms[0]).Nothing? then FirstThrow(ms[1..], throws) else throws(ms[0])
  }

  function Notify<T>(ms: seq<T>): (cs: seq<Callback<T>>)
    ensures |cs| == |ms|
    ensures forall i :: 0 <= i < |ms| ==> cs[i] == OnMessage(ms[i])
  {
    seq(|ms|, i requires 0 <= i < |ms| => OnMessage(ms[i]))
  }

  function FinalCall<T>(e: Ending): seq<Callback<T>> {
    match e
    case StillWaiting => []
    case Normal => [OnEnd]
    case Broken(f) => [OnError(f)]
  }

  // The closing callback, for a loop that a callback ended or the end of the stream did.
  function Closing<T>(thrown: Thrown, e: Ending): seq<Callback<T>> {
    match thrown
    case Nothing => FinalCall(e)
    case AnEof => [OnEnd]
    case Another => [OnError(CallbackThrew)]
  }

  // All callbacks of a listener, in order.
  function Trace<T>(script: seq<Received>, fromBinary: Deserializer<T>, throws: T -> Thrown): seq<Callback<T>> {
    var ms := Messages(script, fromBinary);
    Notify(Heard(ms, throws)) + Closing(FirstThrow(ms, throws), EndingOf(script, fromBinary))
  }

  lemma MessagesStep<T>(script: seq<Received>, fromBinary: Deserializer<T>)
    requires script != [] && Decodable(script[0], fromBinary)
    ensures Messages(script, fromBinary) == [fromBinary(script[0].bytes).value] + Messages(script[1..], fromBinary)
    ensures EndingOf(script, fromBinary) == EndingOf(script[1..], fromBinary)
  {
    var ms, rest := Messages(script, fromBinary), Messages(script[1..], fromBinary);
    forall i | 0 < i < |ms| ensures ms[i] == rest[i - 1] {
      assert script[i] == script[1..][i - 1];
    }
  }

  lemma TraceStep<T>(script: seq<Received>, fromBinary: Deserializer<T>, throws: T -> Thrown)
    requires script != [] && Decodable(script[0], fromBinary)
    ensures var m, rest := fromBinary(script[0].bytes).value, script[1..];
            if throws(m).Nothing? then
              && Trace(script, fromBinary, throws) == [OnMessage(m)] + Trace(rest, fromBinary, throws)
              && FirstThrow(Messages(script, fromBinary), throws) == FirstThrow(Messages(rest, fromBinary), throws)
            else
              && Trace(script, fromBinary, throws) == [OnMessage(m)] + Closing(throws(m), Normal)
              && FirstThrow(Messages(script, fromBinary), throws) == throws(m)
  {
    var m, rest := fromBinary(script[0].bytes).value, Messages(script[1..], fromBinary);
    MessagesStep(script, fromBinary);
    assert ([m] + rest)[1..] == rest;
    if throws(m).Nothing? {
      var heard := Heard(rest, throws);
      assert Notify([m] + heard) == [OnMessage(m)] + Notify(heard);
      ConcatAssociative([OnMessage(m)], Notify(heard), Closing(FirstThrow(rest, throws), EndingOf(script, fromBinary)));
    } else {
      assert Notify([m]) == [OnMessage(m)];
    }
  }

  // Nothing that can be decoded is ahead.
  lemma TraceAtEnd<T>(script: seq<Received>, fromBinary: Deserializer<T>, throws: T -> Thrown)
    requires script == [] || !Decodable(script[0], fromBinary)
    ensures Messages(script, fromBinary) == [] && FirstThrow(Messages(script, fromBinary), throws) == Nothing
    ensures Trace(script, fromBinary, throws) == FinalCall(EndingOf(script, fromBinary))
  {
  }

  class ServerStream<T> {
    const stream: Channel
    const fromBinary: Deserializer<T>
    var done: bool

    constructor (stream: Channel, fromBinary: Deserializer<T>)
      ensures this.stream == stream && this.fromBinary == fromBinary && !done
    {
      this.stream, this.fromBinary, done := stream, fromBinary, false;
    }

    // The background loop of listen; `throws` tells what onMessage does with each message.
    method ReadLoop(throws: T -> Thrown) returns (calls: seq<Callback<T>>)
      requires stream.Valid()
      modifies this`done, stream`pos
      ensures stream.Valid()
      ensures old(done) ==> calls == [] && stream.pos == old(stream.pos)
      ensures !old(done) ==> calls == Trace(old(stream.Ahead()), fromBinary, throws)
      ensures done <==> old(done) || !(FirstThrow(Messages(old(stream.Ahead()), fromBinary), throws).Nothing?
                                       && EndingOf(old(stream.Ahead()), fromBinary).StillWaiting?)
    {
      calls := [];
      ghost var script := stream.Ahead();
      if done {
        return;
      }
      while !done
        invariant stream.Valid() && !done
        invariant Trace(script, fromBinary, throws) == calls + Trace(stream.Ahead(), fromBinary, throws)
        invariant EndingOf(script, fromBinary) == EndingOf(stream.Ahead(), fromBinary)
        invariant FirstThrow(Messages(script, fromBinary), throws) == FirstThrow(Messages(stream.Ahead(), fromBinary), throws)
        decreases |stream.Ahead()|
      {
        ghost var ahead := stream.Ahead();
        var data := stream.Recv();
        if ahead == [] || !Decodable(ahead[0], fromBinary) {
          TraceAtEnd(ahead, fromBinary, throws);
        }
        if data.None? {
          return;
        }
        match data.value
        case Remote(m) =>
          done := true;
          calls := calls + [OnError(RemoteError(m))];
          return;
        case Failed(e) =>
          done := true;
          calls := calls + [if e.Eof? then OnEnd else OnError(Lost(e))];
          return;
        case Payload(bytes) =>
          var v := fromBinary(bytes);
          if v.Threw? {
            done := true;
            calls := calls + [if v.eof then OnEnd else OnError(Undecodable(bytes))];
            return;
          }
          MessagesStep(ahead, fromBinary);
          TraceStep(ahead, fromBinary, throws);
          var thrown := throws(v.value);
          if !thrown.Nothing? {
            done := true;
            calls := calls + [OnMessage(v.value), if thrown.AnEof? then OnEnd else OnError(CallbackThrew)];
            return;
          }
          ConcatAssociative(calls, [OnMessage(v.value)], Trace(ahead[1..], fromBinary, throws));
          calls := calls + [OnMessage(v.value)];
      }
    }

    // The async iterator, run to its end by a consumer that takes every value.
    method Iterate() returns (values: seq<T>, end: Ending)
      requires stream.Valid()
      modifies this`done, stream`pos
      ensures stream.Valid()
      ensures old(done) ==> values == [] && end == Normal && done
      ensures !old(done) ==> values == Messages(old(stream.Ahead()), fromBinary)
      ensures !old(done) ==> end == EndingOf(old(stream.Ahead()), fromBinary)
      ensures !old(done) ==> (done <==> end.Normal?)
    {
      values := [];
      ghost var script := stream.Ahead();
      while !done
        invariant stream.Valid() && done == old(done)
        invariant Messages(script, fromBinary) == values + Messages(stream.Ahead(), fromBinary)
        invariant EndingOf(script, fromBinary) == EndingOf(stream.Ahead(), fromBinary)
        invariant done ==> values == []
        decreases |stream.Ahead()|
      {
        ghost var ahead := stream.Ahead();
        var data := stream.Recv();
        if data.None? {
          return values, StillWaiting;
        }
        match data.value
        case Remote(m) => return values, Broken(RemoteError(m));
        case Failed(e) =>
          if e.Eof? {
            done := true;
            return values, Normal;
          }
          return values, Broken(Lost(e));
        case Payload(bytes) =>
          var v := fromBinary(bytes);
          if v.Threw? {
            if v.eof {
              done := true;
              return values, Normal;
            }
            return values, Broken(Undecodable(bytes));
          }
          MessagesStep(ahead, fromBinary);
          ConcatAssociative(values, [v.value], Messages(ahead[1..], fromBinary));
          values := values + [v.value];
      }
      return values, Normal;
    }
  }

  // The messages a listener was told of.
  function Told<T>(calls: seq<Callback<T>>): seq<T> {
    if calls == [] then []
    else (if calls[0].OnMessage? then [calls[0].message] else []) + Told(calls[1..])
  }

  lemma {:induction false} ToldConcat<T>(a: seq<Callback<T>>, b: seq<Callback<T>>)
    ensures Told(a + b) == Told(a) + Told(b)
  {
    if a == [] {
      assert a + b == b;
    } else {
      ToldConcat(a[1..], b);
      assert (a + b)[1..] == a[1..] + b;
      ConcatAssociative(if a[0].OnMessage? then [a[0].message] else [], Told(a[1..]), Told(b));
    }
  }

  lemma {:induction false} ToldNotify<T>(ms: seq<T>)
    ensures Told(Notify(ms)) == ms
  {
    if ms != [] {
      ToldNotify(ms[1..]);
      assert Notify(ms)[1..] == Notify(ms[1..]);
    }
  }

  // Every listener sees messages and then at most one closing callback, nothing after it.
  predicate WellFormed<T>(calls: seq<Callback<T>>) {
    forall i :: 0 <= i < |calls| - 1 ==> calls[i].OnMessage?
  }

  lemma ListenerTraceShape<T>(script: seq<Received>, fromBinary: Deserializer<T>, throws: T -> Thrown)
    ensures WellFormed(Trace(script, fromBinary, throws))
  {
  }

  lemma {:induction false} HeardShort<T>(ms: seq<T>, throws: T -> Thrown)
    ensures Heard(ms, throws) <= ms
    ensures FirstThrow(ms, throws).Nothing? ==> Heard(ms, throws) == ms
  {
    if ms != [] {
      HeardShort(ms[1..], throws);
      HeadTail(ms);
    }
  }

  // The listener was told what the iterator yields, and ended as it did.
  ghost predicate Agree<T>(calls: seq<Callback<T>>, ms: seq<T>, end: Ending) {
    && Told(calls) == ms
    && (end.Normal? <==> OnEnd in calls)
    && (forall f :: end == Broken(f) <==> OnError(f) in calls)
  }

  lemma ToldTrace<T>(heard: seq<T>, closing: seq<Callback<T>>)
    requires forall i :: 0 <= i < |closing| ==> !closing[i].OnMessage?
    requires |closing| <= 1
    ensures Told(Notify(heard) + closing) == heard
    ensures forall c: Callback<T> :: !c.OnMessage? ==> (c in Notify(heard) + closing <==> c in closing)
  {
    ToldConcat(Notify(heard), closing);
    ToldNotify(heard);
    assert closing != [] ==> Told(closing) == Told(closing[1..]);
    ConcatEmpty(heard);
  }

  // ----- how a stream ends for its consumer -----

  // The first n results are messages, and that is all there is or the next one is none.
  predicate MessagesFirst<T>(script: seq<Received>, fromBinary: Deserializer<T>, n: nat) {
    && n <= |script|
    && (forall i :: 0 <= i < n ==> script[i].Payload? && fromBinary(script[i].bytes).Good?)
    && (n < |script| ==> script[n].Payload? ==> fromBinary(script[n].bytes).Threw?)
  }

  lemma CountIs<T>(script: seq<Received>, fromBinary: Deserializer<T>, n: nat)
    requires MessagesFirst(script, fromBinary, n)
    ensures MessageCount(script, fromBinary) == n
  {
    var k := MessageCount(script, fromBinary);
    assert n < k ==> Decodable(script[n], fromBinary);
  }

  // A listener whose onMessage does not throw is told of the messages, decoded and in order, and then of
  // what came instead of a message: a clean end, a decoding that threw EOF, an error frame, a lost stream,
  // a payload that cannot be decoded - and the iterator ends on that too, after the same messages.
  lemma EveryEndIsTold<T>(script: seq<Received>, fromBinary: Deserializer<T>, throws: T -> Thrown, n: nat)
    requires MessagesFirst(script, fromBinary, n)
    requires forall i :: 0 <= i < n ==> throws(fromBinary(script[i].bytes).value).Nothing?
    ensures var calls, ms, end := Trace(script, fromBinary, throws), Messages(script, fromBinary), EndingOf(script, fromBinary);
            && |ms| == n && |calls| == (if n == |script| then n else n + 1)
            && (forall i :: 0 <= i < n ==>
                  ms[i] == fromBinary(script[i].bytes).value && calls[i] == OnMessage(fromBinary(script[i].bytes).value))
            && (n == |script| ==> end == StillWaiting)
            && (n < |script| ==>
                  match script[n]
                  case Remote(m) => calls[n] == OnError(RemoteError(m)) && end == Broken(RemoteError(m))
                  case Failed(Eof) => calls[n] == OnEnd && end == Normal
                  case Failed(Failure(m)) => calls[n] == OnError(Lost(Failure(m))) && end == Broken(Lost(Failure(m)))
                  case Payload(bytes) =>
                    if fromBinary(bytes).eof then calls[n] == OnEnd && end == Normal
                    else calls[n] == OnError(Undecodable(bytes)) && end == Broken(Undecodable(bytes)))
  {
    CountIs(script, fromBinary, n);
    NoneThrown(Messages(script, fromBinary), throws);
  }

  lemma {:induction false} NoneThrown<T>(ms: seq<T>, throws: T -> Thrown)
    requires forall i :: 0 <= i < |ms| ==> throws(ms[i]).Nothing?
    ensures Heard(ms, throws) == ms && FirstThrow(ms, throws).Nothing?
  {
    if ms != [] {
      NoneThrown(ms[1..], throws);
      HeadTail(ms);
    }
  }

  // An onMessage that throws is the listener's last message: then comes onEnd if it threw an EOF, else
  // onError, and nothing more of the stream is heard.
  lemma EveryThrowIsTold<T>(script: seq<Received>, fromBinary: Deserializer<T>, throws: T -> Thrown, n: nat)
    requires n < |script| && forall i :: 0 <= i <= n ==> script[i].Payload? && fromBinary(script[i].bytes).Good?
    requires forall i :: 0 <= i < n ==> throws(fromBinary(script[i].bytes).value).Nothing?
    requires !throws(fromBinary(script[n].bytes).value).Nothing?
    ensures var calls := Trace(script, fromBinary, throws);
            && |calls| == n + 2
            && (forall i :: 0 <= i <= n ==> calls[i] == OnMessage(fromBinary(script[i].bytes).value))
            && calls[n + 1] == if throws(fromBinary(script[n].bytes).value).AnEof? then OnEnd else OnError(CallbackThrew)
  {
    var ms := Messages(script, fromBinary);
    assert forall i :: 0 <= i <= n ==> Decodable(script[i], fromBinary);
    assert MessageCount(script, fromBinary) > n;
    HeardUpTo(ms, throws, n);
  }

  lemma {:induction false} HeardUpTo<T>(ms: seq<T>, throws: T -> Thrown, n: nat)
    requires n < |ms| && (forall i :: 0 <= i < n ==> throws(ms[i]).Nothing?) && !throws(ms[n]).Nothing?
    ensures Heard(ms, throws) == ms[..n + 1] && FirstThrow(ms, throws) == throws(ms[n])
  {
    if n > 0 {
      HeardUpTo(ms[1..], throws, n - 1);
      assert ms[..n + 1] == [ms[0]] + ms[1..][..n];
    }
  }

  // onEnd is called, and the iterator ends without a throw, exactly when the first result that is no
  // message is an EOF or a payload whose decoding throws one: never for an error frame or a lost stream.
  lemma OnEndExactly<T>(script: seq<Received>, fromBinary: Deserializer<T>, throws: T -> Thrown, n: nat)
    requires MessagesFirst(script, fromBinary, n)
    requires forall i :: 0 <= i < n ==> throws(fromBinary(script[i].bytes).value).Nothing?
    ensures OnEnd in Trace(script, fromBinary, throws) <==>
              && n < |script|
              && (|| script[n] == Received.Failed(Eof)
                  || (script[n].Payload? && fromBinary(script[n].bytes) == Threw(true)))
    ensures EndingOf(script, fromBinary).Normal? <==> OnEnd in Trace(script, fromBinary, throws)
  {
    EveryEndIsTold(script, fromBinary, throws, n);
    var calls := Trace(script, fromBinary, throws);
    if n < |script| {
      assert calls[n] in calls;
    }
  }

  // Listening and iterating over the same stream agree - same messages, onEnd exactly for a normal end
  // and onError exactly for a throw of the iterator - if and only if onMessage throws for none of the
  // messages, or throws an EOF for the last of a stream that ends normally.
  lemma ListenAgreesWithIterateExactly<T>(script: seq<Received>, fromBinary: Deserializer<T>, throws: T -> Thrown)
    ensures var ms, end, calls := Messages(script, fromBinary), EndingOf(script, fromBinary), Trace(script, fromBinary, throws);
            && Told(calls) <= ms
            && (Agree(calls, ms, end) <==>
                  || FirstThrow(ms, throws).Nothing?
                  || (FirstThrow(ms, throws).AnEof? && end.Normal? && Heard(ms, throws) == ms))
  {
    var ms, end, calls := Messages(script, fromBinary), EndingOf(script, fromBinary), Trace(script, fromBinary, throws);
    var thrown := FirstThrow(ms, throws);
    HeardShort(ms, throws);
    ToldTrace(Heard(ms, throws), Closing(thrown, end));
    match thrown
    case Nothing =>
    case AnEof => assert OnEnd in Closing<T>(thrown, end);
    case Another =>
      assert OnError(CallbackThrew) in Closing<T>(thrown, end);
      assert end != Broken(CallbackThrew);
  }
}
