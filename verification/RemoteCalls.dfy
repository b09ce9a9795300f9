/** A remote unary call has the meaning of a local one: callUnary and recv on the client, dispatch on
    the server, and the frames between them. */
module RemoteCalls {
  import opened Bytes
  import opened Records
  import opened AppFrames
  import opened GoStreams
  import opened Routers
  import Buffers
  import R = Receiving
  import T = Transport

  // What callUnary puts on its stream.
  function Request(name: Text, request: seq<Byte>): seq<AppFrame> {
    [AppFrame(FRAME_DATA, name), AppFrame(FRAME_DATA, request)]
  }

  lemma FrameAtDecode(input: seq<Byte>)
    ensures FrameAt(input).Ok? <==> Decode(input) != []
    ensures FrameAt(input).Ok? ==> Decode(input) == [FrameAt(input).value] + Decode(AfterFrame(input))
  {
    GoReadsDecode(input);
    GoReadsDecode(AfterFrame(input));
  }

  lemma DecodeOne(f: AppFrame)
    requires Sendable(f)
    ensures Decode(Encode(f)) == [f]
    ensures Encode(f) == RawAll([ToRecord(f)])
  {
    SurvivesExactly(f);
    assert RawAll([ToRecord(f)]) == Raw(ToRecord(f)) + RawAll([]);
  }

  // ----- the server answers once -----

  // The stream names a method that only a stream handler serves.
  predicate ForStreamHandler<M>(g: Registry<M>, frames: seq<AppFrame>) {
    && frames != [] && frames[0].typ == FRAME_DATA
    && frames[0].payload in g.stream && frames[0].payload !in g.unary
  }

  // Enough was read to answer: a bad first frame, an unknown method, or a unary method and a
  // second frame.
  predicate AnswerDue<M>(g: Registry<M>, frames: seq<AppFrame>) {
    && frames != []
    && (frames[0].typ == FRAME_DATA && frames[0].payload in g.unary ==> |frames| >= 2)
  }

  // On every path that does not end in a stream handler, for any bytes the client sends and however
  // it breaks off: one answer if enough was read, none otherwise.
  lemma AnswersExactlyOnce<M>(g: Registry<M>, input: seq<Byte>)
    requires !ForStreamHandler(g, Decode(input))
    requires |Answer(g, input)| < APP_HEADER_SIZE + TWO_TO_THE_32
    ensures |Decode(Answer(g, input))| == if AnswerDue(g, Decode(input)) then 1 else 0
  {
    FrameAtDecode(input);
    FrameAtDecode(AfterFrame(input));
    if AnswerDue(g, Decode(input)) {
      var f := AnswerFrame(g, input);
      DecodeOne(f);
    }
  }

  // The one frame of an answer that is due.
  function AnswerFrame<M>(g: Registry<M>, input: seq<Byte>): (f: AppFrame)
    requires AnswerDue(g, Decode(input)) && !ForStreamHandler(g, Decode(input))
    ensures Answer(g, input) == Encode(f)
  {
    FrameAtDecode(input);
    FrameAtDecode(AfterFrame(input));
    var frames := Decode(input);
    if frames[0].typ != FRAME_DATA then ErrorFrame(Ascii("first frame must be data (method name)"))
    else if frames[0].payload !in g.unary then ErrorFrame(Ascii("unknown method: ") + frames[0].payload)
    else if frames[1].typ != FRAME_DATA then ErrorFrame(Ascii("expected data frame for request"))
    else ReplyFrame(LocalUnary(g, g.unary[frames[0].payload], frames[1].payload))
  }

  // The answer to a unary call is the local call's outcome.  A unary registration wins over a
  // stream registration of the same name.
  lemma AnswerIsLocal<M>(g: Registry<M>, name: Text, request: seq<Byte>)
    requires AllSendable(Request(name, request))
    requires name in g.stream ==> name in g.unary
    ensures Answer(g, EncodeAll(Request(name, request))) == Encode(ReplyFrame(LocalCall(g, name, request)))
  {
    var fs := Request(name, request);
    var input := EncodeAll(fs);
    DecodeInvertsEncode(fs, []);
    assert EncodeAll(fs) + [] == input && Decode([]) == [];
    assert Decode(input) == fs;
    FrameAtDecode(input);
    FrameAtDecode(AfterFrame(input));
    assert FrameAt(input) == Ok(fs[0]);
    assert Decode(AfterFrame(input)) == fs[1..];
  }

  // ----- the whole call -----

  function AsReceived(r: Result<seq<Byte>, Text>): R.Received {
    match r
    case Ok(bytes) => R.Payload(bytes)
    case Err(text) => R.Remote(text)
  }

  // What the caller of a local function would get: the value, an error with the handler's message,
  // or the failure of decoding the value.
  function LocalResult<M, V>(g: Registry<M>, name: Text, request: seq<Byte>, fromBinary: T.Deserializer<V>): T.CallResult<V> {
    match LocalCall(g, name, request)
    case Err(text) => T.CallResult.Failed(T.RemoteError(text))
    case Ok(bytes) =>
      match fromBinary(bytes)
      case Good(v) => T.Value(v)
      case Threw(eof) => T.CallResult.Failed(T.DecodeFailure(bytes, eof))
  }

  lemma FirstCallReturns(rs: seq<Record>, events: seq<R.Event>)
    requires AllValid(AppFormat, rs) && rs != [] && R.Arrived(events) == RawAll(rs) && R.Call in events
    ensures R.RecvInv(R.Fresh)
    ensures R.AtRest(R.Run(R.Fresh, events)) ==> R.Run(R.Fresh, events).results != []
  {
    R.FreshInv();
    var r := R.Run(R.Fresh, events);
    R.RecvReturnsFrames(R.Fresh, events);
    R.CalledInRun(R.Fresh, events);
    R.ArrivedAccepted(R.Fresh, events);
    assert r.buf.accepted == RawAll(rs);
    SplitOfWhole(AppFormat, rs);
    if R.AtRest(r) {
      R.FirstFrameReturned(r);
    }
  }

  // Whatever the wire does to the answer - any cutting, any interleaving with the client's awaits, FINs
  // at any point after it - the first result of recv is the local call's outcome, which callUnary turns
  // into what a local caller gets, and the later ones report the end.  And there is a first result: once
  // recv has been called and continued as far as it goes, it has returned.
  lemma RemoteCallIsLocalCall<M, V>(g: Registry<M>, name: Text, request: seq<Byte>, fromBinary: T.Deserializer<V>,
                                    events: seq<R.Event>)
    requires AllSendable(Request(name, request))
    requires name in g.stream ==> name in g.unary
    requires Sendable(ReplyFrame(LocalCall(g, name, request)))
    requires R.ShutsFor(events, {Buffers.Eof})
    requires R.Arrived(events) == Answer(g, EncodeAll(Request(name, request)))
    ensures R.RecvInv(R.Fresh)
    ensures var r := R.Run(R.Fresh, events);
            && (forall i :: 0 <= i < |r.results| ==>
                  && r.results[i] == (if i == 0 then AsReceived(LocalCall(g, name, request)) else R.Failed(Buffers.Eof))
                  && (i == 0 ==> T.Outcome(r.results[0], fromBinary) == LocalResult(g, name, request, fromBinary)))
            && (R.Call in events && R.AtRest(r) ==> r.results != [])
  {
    var reply := ReplyFrame(LocalCall(g, name, request));
    var rs := [ToRecord(reply)];
    var r := R.Run(R.Fresh, events);
    AnswerIsLocal(g, name, request);
    DecodeOne(reply);
    SendableIsValid(reply);
    R.WholeFramesThenEof(rs, events);
    assert R.Interpret(rs[0]) == AsReceived(LocalCall(g, name, request));
    if R.Call in events && R.AtRest(r) {
      FirstCallReturns(rs, events);
    }
  }

  // ----- what the server says is wrong -----

  // The bytes of a text are its characters.
  lemma AsciiText(s: string)
    requires forall i :: 0 <= i < |s| ==> s[i] < '\U{0100}'
    ensures |Ascii(s)| == |s| && forall i :: 0 <= i < |s| ==> Ascii(s)[i] == s[i] as int
  {
  }

  lemma AnsweredWith<M>(g: Registry<M>, input: seq<Byte>, f: AppFrame)
    requires Answer(g, input) == Encode(f) && Sendable(f)
    ensures Decode(Answer(g, input)) == [f]
  {
    DecodeOne(f);
  }

  // Whatever bytes arrive: a first frame that is no data frame, a method nobody registered and a request
  // that is no data frame are each answered with one error frame, and its text says which it was.
  lemma ErrorsAreNamed<M>(g: Registry<M>, input: seq<Byte>)
    requires Decode(input) != []
    ensures var frames, reply := Decode(input), Decode(Answer(g, input));
            && (frames[0].typ != 0 ==> reply == [AppFrame(1, Ascii("first frame must be data (method name)"))])
            && (frames[0].typ == 0 && frames[0].payload !in g.unary && frames[0].payload !in g.stream
                && |frames[0].payload| < TWO_TO_THE_32 - 16 ==>
                  reply == [AppFrame(1, Ascii("unknown method: ") + frames[0].payload)])
            && (frames[0].typ == 0 && frames[0].payload in g.unary && |frames| > 1 && frames[1].typ != 0 ==>
                  reply == [AppFrame(1, Ascii("expected data frame for request"))])
  {
    var frames := Decode(input);
    FrameAtDecode(input);
    FrameAtDecode(AfterFrame(input));
    if frames[0].typ != 0 {
      AnsweredWith(g, input, AppFrame(1, Ascii("first frame must be data (method name)")));
    } else if frames[0].payload !in g.unary {
      if frames[0].payload !in g.stream && |frames[0].payload| < TWO_TO_THE_32 - 16 {
        AnsweredWith(g, input, AppFrame(1, Ascii("unknown method: ") + frames[0].payload));
      }
    } else if |frames| > 1 && frames[1].typ != 0 {
      AnsweredWith(g, input, AppFrame(1, Ascii("expected data frame for request")));
    }
  }

  // ----- every outcome of a handler is answered -----

  // A panic does not escape: like an error, an unknown method or a response that cannot be marshalled
  // it is answered with one error frame, which names it; a data frame comes back exactly when the
  // handler returned a message that could be marshalled, and carries that.
  lemma HandlerOutcomeAnswered<M>(g: Registry<M>, name: Text, request: seq<Byte>)
    requires AllSendable(Request(name, request)) && name in g.unary
    requires Sendable(ReplyFrame(LocalCall(g, name, request)))
    ensures var reply, h := Decode(Answer(g, EncodeAll(Request(name, request)))), g.unary[name];
            && |reply| == 1
            && (reply[0].typ == FRAME_DATA <==> h(request).Returned? && g.marshal(h(request).message).Ok?)
            && (reply[0].typ == FRAME_DATA ==> g.marshal(h(request).message) == Ok(reply[0].payload))
            && (h(request).Panicked? ==> reply[0] == AppFrame(1, Ascii("handler panic: ") + h(request).reason))
            && (h(request).Erred? ==> reply[0] == AppFrame(1, h(request).reason))
            && (h(request).Returned? && g.marshal(h(request).message).Err? ==>
                  reply[0] == AppFrame(1, Ascii("marshal response: ") + g.marshal(h(request).message).error))
  {
    AnswerIsLocal(g, name, request);
    DecodeOne(ReplyFrame(LocalCall(g, name, request)));
  }
}
