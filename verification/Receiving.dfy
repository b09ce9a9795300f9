/** stream.ts, `WSStream.recv`: application frames read from a stream's ByteBuffer, over any
    interleaving of arriving bytes, closes and the caller's awaits. */
module Receiving {
  import opened Bytes
  import opened Records
  import opened Buffers
  import opened Pulls

  // How one call of recv ends: a payload, a RemoteError (an error frame), or the buffer's error.
  datatype Received =
    | Payload(bytes: seq<Byte>)
    | Remote(message: seq<Byte>)
    | Failed(error: Error)

  function Interpret(r: Record): Received
    requires Valid(AppFormat, r)
  {
    if r.header[0] == FRAME_ERROR then Remote(r.body) else Payload(r.body)
  }

  function InterpretAll(rs: seq<Record>): (out: seq<Received>)
    requires AllValid(AppFormat, rs)
    ensures |out| == |rs|
    ensures forall i :: 0 <= i < |rs| ==> out[i] == Interpret(rs[i])
  {
    seq(|rs|, i requires 0 <= i < |rs| => Interpret(rs[i]))
  }

  // `records` are the frames taken off before the first failure, `results` everything recv returned.
  datatype Receiver = Receiver(buf: Buffer, phase: Phase, records: seq<Record>, results: seq<Received>, failed: bool)

  const Fresh := Receiver(EmptyBuffer, Idle, [], [], false)

  datatype Event =
    | Deliver(data: seq<Byte>)
    | Shut(err: Option<Error>)
    | Call
    | Resume

  // Until the first failure the results are the records, and the bytes line up; the first failure comes
  // after every whole frame.
  predicate RecvInv(r: Receiver) {
    && Owns(AppFormat, r.buf, r.phase)
    && AllValid(AppFormat, r.records)
    && r.records <= Split(AppFormat, r.buf.accepted)
    && InterpretAll(r.records) <= r.results
    && (!r.failed ==> Aligned(AppFormat, r.buf, r.phase, r.records) && |r.results| == |r.records|)
    && (r.failed ==>
          && r.buf.closed && r.records == Split(AppFormat, r.buf.accepted)
          && |r.records| < |r.results| && r.results[|r.records|].Failed?)
  }

  function Finish(r: Receiver, buf: Buffer, result: Received): Receiver {
    r.(buf := buf, phase := Idle, results := r.results + [result])
  }

  function ResumeRecv(r: Receiver): Receiver
    requires Owns(AppFormat, r.buf, r.phase) && Ready(r.buf, r.phase)
  {
    OwnsContinue(AppFormat, r.buf, r.phase);
    match Continue(AppFormat, r.buf, r.phase)
    case Suspended(buf, phase) => r.(buf := buf, phase := phase)
    case Raised(e) => Finish(r, r.buf, Failed(e)).(failed := true)
    case Got(record) =>
      var done := Finish(r, r.buf, Interpret(record));
      if r.failed then done else done.(records := r.records + [record])
  }

  function Step(r: Receiver, e: Event): Receiver
    requires Owns(AppFormat, r.buf, r.phase)
  {
    match e
    case Deliver(data) => r.(buf := Push(r.buf, data))
    case Shut(err) => r.(buf := Close(r.buf, err))
    case Call => if r.phase.Idle? then r.(buf := Begin(AppFormat, r.buf), phase := WantHeader) else r
    case Resume => if Ready(r.buf, r.phase) then ResumeRecv(r) else r
  }

  lemma StepOwns(r: Receiver, e: Event)
    requires Owns(AppFormat, r.buf, r.phase)
    ensures Owns(AppFormat, Step(r, e).buf, Step(r, e).phase)
    ensures r.buf.accepted <= Step(r, e).buf.accepted
  {
    match e
    case Deliver(data) => OwnsPush(AppFormat, r.buf, r.phase, data);
    case Shut(err) => OwnsClose(AppFormat, r.buf, r.phase, err);
    case Call =>
      if r.phase.Idle? {
        OwnsRead(AppFormat, r.buf, WantHeader);
      }
    case Resume =>
      if Ready(r.buf, r.phase) {
        OwnsContinue(AppFormat, r.buf, r.phase);
      }
  }

  lemma StepAligned(r: Receiver, e: Event)
    requires RecvInv(r) && !r.failed
    ensures var s := Step(r, e);
            && AllValid(AppFormat, s.records)
            && InterpretAll(s.records) <= s.results
            && (!s.failed ==> Aligned(AppFormat, s.buf, s.phase, s.records) && |s.results| == |s.records|)
            && (s.failed ==> s.records == r.records && |s.results| == |s.records| + 1 && s.results[|s.records|].Failed?)
  {
    match e
    case Deliver(data) => AlignedPush(AppFormat, r.buf, r.phase, r.records, data);
    case Shut(err) => AlignedClose(AppFormat, r.buf, r.phase, r.records, err);
    case Call =>
      if r.phase.Idle? {
        AlignedBegin(AppFormat, r.buf, r.records);
      }
    case Resume =>
      if Ready(r.buf, r.phase) {
        AlignedContinue(AppFormat, r.buf, r.phase, r.records);
        var s := Step(r, e);
        if |s.records| > |r.records| {
          assert InterpretAll(s.records) == InterpretAll(r.records) + [Interpret(s.records[|r.records|])];
        }
      }
  }

  // After a failure the results grow, and the records and the bytes accepted stay.
  lemma StepAfterFailure(r: Receiver, e: Event)
    requires RecvInv(r) && r.failed
    ensures var s := Step(r, e);
            && s.failed && s.records == r.records && r.results <= s.results
            && s.buf.closed && s.buf.accepted == r.buf.accepted
  {
    if e.Resume? && Ready(r.buf, r.phase) {
      OwnsContinue(AppFormat, r.buf, r.phase);
    }
  }

  lemma FailedStepInv(r: Receiver, e: Event)
    requires RecvInv(r) && r.failed
    ensures RecvInv(Step(r, e))
  {
    StepOwns(r, e);
    StepAfterFailure(r, e);
    PrefixTransitive(InterpretAll(r.records), r.results, Step(r, e).results);
  }

  // A call fails only when no whole frame is left.
  lemma FailsAfterAll(r: Receiver, e: Event)
    requires RecvInv(r) && !r.failed && Step(r, e).failed
    ensures var s := Step(r, e);
            && s.buf.closed && s.buf == r.buf && r.records == Split(AppFormat, r.buf.accepted)
            && InHand(r.buf, r.phase) + r.buf.data == Tail(AppFormat, r.buf.accepted)
  {
    OwnsContinue(AppFormat, r.buf, r.phase);
    ShortMeansParsed(AppFormat, r.buf, r.phase, r.records);
  }

  lemma SoundStepInv(r: Receiver, e: Event)
    requires RecvInv(r) && !r.failed
    ensures RecvInv(Step(r, e))
  {
    var s := Step(r, e);
    StepOwns(r, e);
    StepAligned(r, e);
    if s.failed {
      FailsAfterAll(r, e);
    } else {
      AlignedParse(AppFormat, s.buf, s.phase, s.records);
    }
  }

  lemma StepInv(r: Receiver, e: Event)
    requires RecvInv(r)
    ensures RecvInv(Step(r, e))
    ensures r.buf.accepted <= Step(r, e).buf.accepted
  {
    StepOwns(r, e);
    if r.failed {
      FailedStepInv(r, e);
    } else {
      SoundStepInv(r, e);
    }
  }

  function Run(r: Receiver, events: seq<Event>): Receiver
    requires RecvInv(r)
    decreases |events|
  {
    if events == [] then r
    else
      StepInv(r, events[0]);
      Run(Step(r, events[0]), events[1..])
  }

  // In every run: what recv returned before its first failure is, in order and whole, the frames
  // at the front of the bytes that arrived.
  lemma {:induction false} RecvReturnsFrames(r: Receiver, events: seq<Event>)
    requires RecvInv(r)
    ensures RecvInv(Run(r, events))
    decreases |events|
  {
    if events != [] {
      StepInv(r, events[0]);
      RecvReturnsFrames(Step(r, events[0]), events[1..]);
    }
  }

  lemma FreshInv()
    ensures RecvInv(Fresh)
  {
    assert RawAll([]) + ([] + []) == [];
  }

  // ----- EOF never overtakes data -----

  // Less than a header was left over when recv first failed: nothing is found afterwards either.
  predicate QuietInv(r: Receiver) {
    r.failed && |Tail(AppFormat, r.buf.accepted)| < APP_HEADER_SIZE ==>
      && |r.buf.data| < APP_HEADER_SIZE
      && !r.phase.WantBody? && (r.phase.WantHeader? ==> |r.buf.calls| > 0 && LastOutcome(r.buf).Rejected?)
      && forall i :: |r.records| <= i < |r.results| ==> r.results[i].Failed?
  }

  lemma FirstFailureQuiet(r: Receiver, e: Event)
    requires RecvInv(r) && !r.failed && Step(r, e).failed
    ensures QuietInv(Step(r, e))
  {
    FailsAfterAll(r, e);
    StepAligned(r, e);
    OwnsContinue(AppFormat, r.buf, r.phase);
  }

  lemma StepQuiet(r: Receiver, e: Event)
    requires RecvInv(r) && QuietInv(r)
    ensures QuietInv(Step(r, e))
  {
    if !r.failed {
      if Step(r, e).failed {
        FirstFailureQuiet(r, e);
      }
    } else {
      StepAfterFailure(r, e);
    }
  }

  // The stream is closed, and recv fails, only for one of the reasons `es`.
  predicate ReasonsInv(r: Receiver, es: set<Error>) {
    && (r.buf.closed ==> ErrorOr(r.buf.closeError) in es)
    && (forall i :: 0 <= i < |r.results| && r.results[i].Failed? ==> r.results[i].error in es)
    && (!r.phase.Idle? && |r.buf.calls| > 0 && LastOutcome(r.buf).Rejected? ==> LastOutcome(r.buf).error in es)
  }

  lemma StepReasons(r: Receiver, e: Event, es: set<Error>)
    requires Owns(AppFormat, r.buf, r.phase) && ReasonsInv(r, es)
    requires e.Shut? ==> ErrorOr(e.err) in es
    ensures ReasonsInv(Step(r, e), es)
  {
    if e.Resume? && Ready(r.buf, r.phase) {
      OwnsContinue(AppFormat, r.buf, r.phase);
    }
  }

  // Every close in the run gives one of the reasons `es`.
  predicate ShutsFor(events: seq<Event>, es: set<Error>) {
    forall i :: 0 <= i < |events| && events[i].Shut? ==> ErrorOr(events[i].err) in es
  }

  lemma {:induction false} RunQuiet(r: Receiver, events: seq<Event>, es: set<Error>)
    requires RecvInv(r) && QuietInv(r) && ReasonsInv(r, es) && ShutsFor(events, es)
    ensures QuietInv(Run(r, events)) && ReasonsInv(Run(r, events), es)
    decreases |events|
  {
    if events != [] {
      StepInv(r, events[0]);
      StepQuiet(r, events[0]);
      StepReasons(r, events[0], es);
      RunQuiet(Step(r, events[0]), events[1..], es);
    }
  }

  // What calls of recv return on a stream that took in frames `rs` and less than a frame, `left`: the
  // frames in order, then a failure, and failures only if not even a header is left.
  predicate FramesThenFailures(results: seq<Received>, rs: seq<Record>, left: seq<Byte>, es: set<Error>)
    requires AllValid(AppFormat, rs)
  {
    && (forall i :: 0 <= i < |results| && i < |rs| ==> results[i] == Interpret(rs[i]))
    && (forall i :: |rs| <= i < |results| && (i == |rs| || |left| < APP_HEADER_SIZE) ==>
          results[i].Failed? && results[i].error in es)
  }

  lemma ResultsShape(r: Receiver, es: set<Error>)
    requires RecvInv(r) && QuietInv(r) && ReasonsInv(r, es)
    ensures AllValid(AppFormat, Split(AppFormat, r.buf.accepted))
    ensures FramesThenFailures(r.results, Split(AppFormat, r.buf.accepted), Tail(AppFormat, r.buf.accepted), es)
  {
    SplitSound(AppFormat, r.buf.accepted);
    var rs := Split(AppFormat, r.buf.accepted);
    forall i | 0 <= i < |r.results| && i < |rs| ensures r.results[i] == Interpret(rs[i]) {
      assert i < |r.records|;
      assert InterpretAll(r.records)[i] == r.results[i] && r.records[i] == rs[i];
    }
  }

  // EOF never overtakes data, nor does any other close: in every run, with closes at any points and for
  // any reasons, recv returns every whole frame accepted before it first fails, and from then on fails
  // for a reason of one of the closes - on every later call if less than a header is left over.
  lemma EofNeverOvertakesData(events: seq<Event>, es: set<Error>)
    requires ShutsFor(events, es)
    ensures RecvInv(Fresh)
    ensures var r := Run(Fresh, events);
            && AllValid(AppFormat, Split(AppFormat, r.buf.accepted))
            && FramesThenFailures(r.results, Split(AppFormat, r.buf.accepted), Tail(AppFormat, r.buf.accepted), es)
  {
    FreshInv();
    RecvReturnsFrames(Fresh, events);
    RunQuiet(Fresh, events, es);
    ResultsShape(Run(Fresh, events), es);
  }

  // The bytes that arrive before the first close.
  function Arrived(events: seq<Event>): seq<Byte> {
    if events == [] || events[0].Shut? then []
    else (if events[0].Deliver? then events[0].data else []) + Arrived(events[1..])
  }

  lemma ResumeAccepts(r: Receiver)
    requires Owns(AppFormat, r.buf, r.phase) && Ready(r.buf, r.phase)
    ensures var s := ResumeRecv(r); s.buf.closed == r.buf.closed && s.buf.accepted == r.buf.accepted
  {
    OwnsContinue(AppFormat, r.buf, r.phase);
  }

  lemma StepAccepts(r: Receiver, ev: Event)
    requires Owns(AppFormat, r.buf, r.phase)
    ensures var s := Step(r, ev);
            && (s.buf.closed <==> r.buf.closed || ev.Shut?)
            && s.buf.accepted == r.buf.accepted + (if ev.Deliver? && !r.buf.closed then ev.data else [])
  {
    ConcatEmpty(r.buf.accepted);
    match ev
    case Deliver(data) => PushAccepted(r.buf, data);
    case Resume =>
      if Ready(r.buf, r.phase) {
        ResumeAccepts(r);
      }
    case _ =>
  }

  lemma {:induction false} ArrivedAccepted(r: Receiver, events: seq<Event>)
    requires RecvInv(r)
    ensures Run(r, events).buf.accepted == r.buf.accepted + (if r.buf.closed then [] else Arrived(events))
    decreases |events|
  {
    ConcatEmpty(r.buf.accepted);
    if events != [] {
      StepInv(r, events[0]);
      StepAccepts(r, events[0]);
      ArrivedAccepted(Step(r, events[0]), events[1..]);
      ConcatAssociative(r.buf.accepted, if events[0].Deliver? then events[0].data else [], Arrived(events[1..]));
    }
  }

  // Whole frames followed by FINs, cut in any way and interleaved in any way with calls of recv and
  // their awaits: the calls return the frames in order and then EOF, every time.
  lemma {:induction false} WholeFramesThenEof(rs: seq<Record>, events: seq<Event>)
    requires AllValid(AppFormat, rs)
    requires ShutsFor(events, {Eof}) && Arrived(events) == RawAll(rs)
    ensures RecvInv(Fresh)
    ensures var results := Run(Fresh, events).results;
            forall i :: 0 <= i < |results| ==> results[i] == if i < |rs| then Interpret(rs[i]) else Failed(Eof)
  {
    FreshInv();
    ArrivedAccepted(Fresh, events);
    EofNeverOvertakesData(events, {Eof});
    SplitOfWhole(AppFormat, rs);
    assert Run(Fresh, events).buf.accepted == RawAll(rs);
  }

  // ----- a call returns -----

  predicate Called(r: Receiver) {
    r.results != [] || !r.phase.Idle?
  }

  lemma CalledStep(r: Receiver, e: Event)
    requires RecvInv(r) && (Called(r) || e.Call?)
    ensures Called(Step(r, e))
  {
  }

  lemma {:induction false} CalledInRun(r: Receiver, events: seq<Event>)
    requires RecvInv(r) && (Called(r) || Call in events)
    ensures Called(Run(r, events))
    decreases |events|
  {
    if events != [] {
      StepInv(r, events[0]);
      if Called(r) || events[0].Call? {
        CalledStep(r, events[0]);
      }
      assert events == [events[0]] + events[1..];
      CalledInRun(Step(r, events[0]), events[1..]);
    }
  }

  // The engine has continued the reader as far as it goes: between calls, or parked.
  predicate AtRest(r: Receiver) {
    !Ready(r.buf, r.phase)
  }

  // On a closed stream no call hangs: continued as far as it goes, it has returned.
  lemma ClosedNeverHangs(r: Receiver)
    requires Owns(AppFormat, r.buf, r.phase) && r.buf.closed && AtRest(r)
    ensures r.phase.Idle?
  {
  }

  // Once a whole frame is in, a call of recv has returned it, or the engine still has to continue it.
  lemma FirstFrameReturned(r: Receiver)
    requires RecvInv(r) && Called(r) && AtRest(r) && Split(AppFormat, r.buf.accepted) != []
    ensures AllValid(AppFormat, Split(AppFormat, r.buf.accepted))
    ensures r.results != [] && r.results[0] == Interpret(Split(AppFormat, r.buf.accepted)[0])
  {
    SplitSound(AppFormat, r.buf.accepted);
    if !r.failed && !r.phase.Idle? {
      ParkedMeansParsed(AppFormat, r.buf, r.phase, r.records);
    }
    assert r.records != [];
    assert InterpretAll(r.records)[0] == r.results[0];
  }

  // ----- calling recv again after a stream ended inside a frame -----

  // What k further calls of recv return on a closed buffer that still holds `data`: a call that
  // finds a header but not its body fails and has thrown the header away.
  function Retry(data: seq<Byte>, e: Error, k: nat): (out: seq<Received>)
    ensures |out| == k
    decreases k
  {
    if k == 0 then [] else [RetryResult(data, e)] + Retry(RetryRest(data), e, k - 1)
  }

  function RetryResult(data: seq<Byte>, e: Error): Received {
    if FirstLength(AppFormat, data).Some? then Interpret(First(AppFormat, data)) else Failed(e)
  }

  function RetryRest(data: seq<Byte>): seq<Byte> {
    match FirstLength(AppFormat, data)
    case Some(n) => data[n..]
    case None => if |data| < APP_HEADER_SIZE then data else data[APP_HEADER_SIZE..]
  }

  function Calls(k: nat): seq<Event> {
    if k == 0 then [] else [Call, Resume, Resume] + Calls(k - 1)
  }

  predicate Drained(r: Receiver, e: Error) {
    Owns(AppFormat, r.buf, r.phase) && r.phase.Idle? && r.buf.closed && r.buf.closeError == Some(e)
  }

  function OneCall(r: Receiver): (s: Receiver)
    requires Owns(AppFormat, r.buf, r.phase)
    ensures Owns(AppFormat, s.buf, s.phase)
  {
    StepOwns(r, Call);
    var a := Step(r, Call);
    StepOwns(a, Resume);
    var b := Step(a, Resume);
    StepOwns(b, Resume);
    Step(b, Resume)
  }

  function CallTimes(r: Receiver, k: nat): Receiver
    requires Owns(AppFormat, r.buf, r.phase)
    decreases k
  {
    if k == 0 then r else CallTimes(OneCall(r), k - 1)
  }

  lemma OneCallIsRetry(r: Receiver, e: Error)
    requires Drained(r, e)
    ensures var s := OneCall(r);
            && Drained(s, e)
            && s.results == r.results + [RetryResult(r.buf.data, e)]
            && s.buf.data == RetryRest(r.buf.data)
  {
    var data := r.buf.data;
    var a := Step(r, Call);
    if |data| < APP_HEADER_SIZE {
      assert Step(a, Resume).results == r.results + [Failed(e)];
    } else {
      var header, rest := data[..APP_HEADER_SIZE], data[APP_HEADER_SIZE..];
      var b := Step(a, Resume);
      assert a.buf.data == rest && LastOutcome(a.buf) == Resolved(header);
      var n := BodyLength(AppFormat, header);
      if 0 < n <= |rest| {
        assert LastOutcome(b.buf) == Resolved(rest[..n]);
        assert rest[..n] == data[APP_HEADER_SIZE..APP_HEADER_SIZE + n];
        assert rest[n..] == data[APP_HEADER_SIZE + n..];
      } else if n == 0 {
        assert data[APP_HEADER_SIZE..APP_HEADER_SIZE] == [];
      }
    }
  }

  lemma {:induction false} CallsAreRetry(r: Receiver, e: Error, k: nat)
    requires Drained(r, e)
    ensures CallTimes(r, k).results == r.results + Retry(r.buf.data, e, k)
    ensures Drained(CallTimes(r, k), e)
    decreases k
  {
    if k == 0 {
      ConcatEmpty(r.results);
    } else {
      OneCallIsRetry(r, e);
      CallsAreRetry(OneCall(r), e, k - 1);
      ConcatAssociative(r.results, [RetryResult(r.buf.data, e)], Retry(RetryRest(r.buf.data), e, k - 1));
    }
  }

  predicate OnlyFailures(out: seq<Received>) {
    forall i :: 0 <= i < |out| ==> out[i].Failed?
  }

  predicate QuietAfterFailure(out: seq<Received>) {
    forall i, j :: 0 <= i < j < |out| && out[i].Failed? ==> out[j].Failed?
  }

  // No record starts at a place where a header would be looked for.
  predicate Barren(data: seq<Byte>)
    decreases |data|
  {
    |data| < APP_HEADER_SIZE || (FirstLength(AppFormat, data).None? && Barren(data[APP_HEADER_SIZE..]))
  }

  lemma {:induction false} BarrenFails(data: seq<Byte>, e: Error, k: nat)
    requires Barren(data)
    ensures OnlyFailures(Retry(data, e, k))
    decreases k
  {
    if k > 0 {
      BarrenFails(RetryRest(data), e, k - 1);
    }
  }

  lemma RetryAfterLoss(data: seq<Byte>, e: Error, k: nat)
    requires FirstLength(AppFormat, data).None? && |data| >= APP_HEADER_SIZE
    ensures Retry(data, e, k + 1) == [Failed(e)] + Retry(data[APP_HEADER_SIZE..], e, k)
  {
  }

  lemma OnlyFailuresTail(x: Received, out: seq<Received>)
    requires OnlyFailures([x] + out)
    ensures OnlyFailures(out)
  {
    forall i | 0 <= i < |out| ensures out[i].Failed? {
      assert ([x] + out)[i + 1] == out[i];
    }
  }

  // A call that returns something exists when a record can still be found.
  lemma {:induction false} FertileReturns(data: seq<Byte>, e: Error) returns (k: nat)
    requires !Barren(data)
    ensures !OnlyFailures(Retry(data, e, k))
    decreases |data|
  {
    if FirstLength(AppFormat, data).Some? {
      k := 1;
      assert !Retry(data, e, 1)[0].Failed?;
    } else {
      var rest := data[APP_HEADER_SIZE..];
      var j := FertileReturns(rest, e);
      k := j + 1;
      RetryAfterLoss(data, e, j);
      if OnlyFailures(Retry(data, e, k)) {
        OnlyFailuresTail(Failed(e), Retry(rest, e, j));
      }
    }
  }

  ghost predicate AlwaysQuiet(data: seq<Byte>, e: Error) {
    forall k: nat :: QuietAfterFailure(Retry(data, e, k))
  }

  lemma QuietShift(data: seq<Byte>, e: Error, k: nat)
    requires FirstLength(AppFormat, data).Some?
    ensures QuietAfterFailure(Retry(data, e, k + 1)) <==> QuietAfterFailure(Retry(RetryRest(data), e, k))
  {
    var a, b := Retry(data, e, k + 1), Retry(RetryRest(data), e, k);
    assert a == [a[0]] + b && !a[0].Failed?;
    if QuietAfterFailure(a) {
      forall i, j | 0 <= i < j < |b| && b[i].Failed? ensures b[j].Failed? {
        assert a[i + 1] == b[i] && a[j + 1] == b[j];
      }
    }
  }

  lemma AlwaysQuietShift(data: seq<Byte>, e: Error)
    requires FirstLength(AppFormat, data).Some?
    ensures AlwaysQuiet(data, e) <==> AlwaysQuiet(RetryRest(data), e)
  {
    if AlwaysQuiet(data, e) {
      forall k: nat ensures QuietAfterFailure(Retry(RetryRest(data), e, k)) {
        QuietShift(data, e, k);
      }
    }
    if AlwaysQuiet(RetryRest(data), e) {
      forall k: nat ensures QuietAfterFailure(Retry(data, e, k)) {
        if k > 0 {
          QuietShift(data, e, k - 1);
        }
      }
    }
  }

  lemma AlwaysQuietAfterLoss(data: seq<Byte>, e: Error)
    requires FirstLength(AppFormat, data).None?
    ensures AlwaysQuiet(data, e) <==> |data| < APP_HEADER_SIZE || Barren(data[APP_HEADER_SIZE..])
  {
    if |data| < APP_HEADER_SIZE || Barren(data[APP_HEADER_SIZE..]) {
      forall k: nat ensures QuietAfterFailure(Retry(data, e, k)) {
        BarrenFails(data, e, k);
      }
    } else {
      var rest := data[APP_HEADER_SIZE..];
      var k := FertileReturns(rest, e);
      var a, b := Retry(data, e, k + 1), Retry(rest, e, k);
      var i :| 0 <= i < k && !b[i].Failed?;
      RetryAfterLoss(data, e, k);
      assert a[0].Failed? && !a[i + 1].Failed?;
      assert !QuietAfterFailure(a);
    }
  }

  // Exactly when may the caller keep calling recv after a failure: for every number of calls, all
  // calls after the first failure fail too, if and only if the truncated tail is shorter than a
  // header or what follows its header contains no record.
  lemma {:induction false} RetryAfterEofExactly(data: seq<Byte>, e: Error)
    ensures AlwaysQuiet(data, e) <==>
            var t := Tail(AppFormat, data); |t| < APP_HEADER_SIZE || Barren(t[APP_HEADER_SIZE..])
    decreases |data|
  {
    if FirstLength(AppFormat, data).Some? {
      RetryAfterEofExactly(RetryRest(data), e);
      AlwaysQuietShift(data, e);
    } else {
      AlwaysQuietAfterLoss(data, e);
    }
  }

  // A stream that ends five bytes into a ten-byte payload: the first call reports the end, the
  // second returns a payload nobody sent.
  lemma {:induction false} TruncatedFrameMisread(e: Error)
    ensures Retry([0, 10, 0, 0, 0, 0, 0, 0, 0, 0], e, 2) == [Failed(e), Payload([])]
  {
    var data: seq<Byte> := [0, 10, 0, 0, 0, 0, 0, 0, 0, 0];
    assert data[..APP_HEADER_SIZE][1..5] == [10, 0, 0, 0];
    var rest := data[APP_HEADER_SIZE..];
    assert rest[..APP_HEADER_SIZE][1..5] == [0, 0, 0, 0];
    assert Retry(rest, e, 1) == [Interpret(First(AppFormat, rest))] + Retry(rest[5..], e, 0);
  }
}
