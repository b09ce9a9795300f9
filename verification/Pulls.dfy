/** Reading records from a ByteBuffer with `await readExact(header)` and then, when the header asks
    for a body, `await readExact(body)`.  Both asynchronous readers of the program have this shape:
    `YamuxSession.readLoop` on the session buffer and `WSStream.recv` on a stream's buffer.

    A reader is a coroutine suspended at an await; `Phase` says at which one.  It continues once
    its promise, always the last one the buffer handed out, is settled.  Any number of pushes and
    closes may come before that. */
module Pulls {
  import opened Bytes
  import opened Records
  import opened Buffers

  datatype Phase =
    | Idle
    | WantHeader
    | WantBody(header: seq<Byte>)

  datatype Progress =
    | Suspended(buf: Buffer, phase: Phase)
    | Got(record: Record)
    | Raised(error: Error)

  // The first await of a reader.
  function Begin(f: Format, b: Buffer): Buffer {
    ReadExact(b, HeaderSize(f))
  }

  function LastOutcome(b: Buffer): Outcome
    requires |b.calls| > 0
  {
    b.calls[|b.calls| - 1].outcome
  }

  // The reader may run: it is suspended and its promise is settled.
  predicate Ready(b: Buffer, phase: Phase) {
    !phase.Idle? && |b.calls| > 0 && !LastOutcome(b).Pending?
  }

  // From one await to the next one, to a whole record, or to an exception.
  function Continue(f: Format, b: Buffer, phase: Phase): Progress
    requires Ready(b, phase)
    requires phase.WantHeader? && LastOutcome(b).Resolved? ==> |LastOutcome(b).value| == HeaderSize(f)
  {
    match LastOutcome(b)
    case Rejected(e) => Raised(e)
    case Resolved(bytes) =>
      if phase.WantBody? then
        Got(Record(phase.header, bytes))
      else if BodyLength(f, bytes) > 0 then
        Suspended(ReadExact(b, BodyLength(f, bytes)), WantBody(bytes))
      else
        Got(Record(bytes, []))
  }

  // ----- no byte is lost or reordered between the buffer and the records -----

  // Bytes the reader holds between two awaits.
  function InHand(b: Buffer, phase: Phase): seq<Byte> {
    var taken := if |b.calls| > 0 && LastOutcome(b).Resolved? then LastOutcome(b).value else [];
    match phase
    case Idle => []
    case WantHeader => taken
    case WantBody(header) => header + taken
  }

  function Need(f: Format, phase: Phase): nat
    requires phase.WantBody? ==> |phase.header| == HeaderSize(f)
  {
    match phase
    case Idle => 0
    case WantHeader => HeaderSize(f)
    case WantBody(header) => BodyLength(f, header)
  }

  // The reader owns the buffer's last promise.
  predicate Owns(f: Format, b: Buffer, phase: Phase) {
    && Inv(b)
    && (phase.Idle? ==> b.waiting.None?)
    && (phase.WantBody? ==> |phase.header| == HeaderSize(f) && BodyLength(f, phase.header) > 0)
    && (!phase.Idle? ==>
          && |b.calls| > 0
          && b.calls[|b.calls| - 1].need == Need(f, phase)
          && (LastOutcome(b).Pending? <==> b.waiting.Some?)
          && (LastOutcome(b).Rejected? ==> |b.data| < Need(f, phase))
          && (b.waiting.Some? ==> b.waiting.value.promise == |b.calls| - 1))
  }

  // `done` are the records read so far: with the bytes in hand and the bytes still buffered they
  // make up everything the buffer ever accepted.
  predicate Aligned(f: Format, b: Buffer, phase: Phase, done: seq<Record>) {
    && Owns(f, b, phase)
    && AllValid(f, done)
    && b.accepted == RawAll(done) + (InHand(b, phase) + b.data)
  }

  lemma OwnsPush(f: Format, b: Buffer, phase: Phase, data: seq<Byte>)
    requires Owns(f, b, phase)
    ensures Owns(f, Push(b, data), phase)
  {
    assert Push(b, data) == Step(b, PushEvent(data));
  }

  lemma OwnsClose(f: Format, b: Buffer, phase: Phase, err: Option<Error>)
    requires Owns(f, b, phase)
    ensures Owns(f, Close(b, err), phase)
  {
    assert Close(b, err) == Step(b, CloseEvent(err));
  }

  // A new await, on a buffer nobody is parked on.
  lemma OwnsRead(f: Format, b: Buffer, phase: Phase)
    requires Inv(b) && b.waiting.None? && !phase.Idle?
    requires phase.WantBody? ==> |phase.header| == HeaderSize(f) && BodyLength(f, phase.header) > 0
    ensures Owns(f, ReadExact(b, Need(f, phase)), phase)
  {
    assert ReadExact(b, Need(f, phase)) == Step(b, ReadEvent(Need(f, phase)));
  }

  lemma OwnsContinue(f: Format, b: Buffer, phase: Phase)
    requires Owns(f, b, phase) && Ready(b, phase)
    ensures Owns(f, b, Idle)
    ensures match Continue(f, b, phase)
            case Suspended(c, next) => Owns(f, c, next)
            case Got(r) => Valid(f, r)
            case Raised(e) => b.closed && |b.data| < Need(f, phase)
  {
    assert b.calls[|b.calls| - 1].need == Need(f, phase);
    match Continue(f, b, phase)
    case Suspended(_, next) => OwnsRead(f, b, next);
    case Got(_) =>
    case Raised(_) =>
  }

  lemma InHandSettled(f: Format, b: Buffer, phase: Phase, all: seq<Byte>)
    requires Owns(f, b, phase) && b.waiting.Some? && b.waiting.value.need <= |all|
    ensures var c := TryResolve(b.(data := all)); InHand(c, phase) + c.data == InHand(b, phase) + all
  {
    var held, n := InHand(b, phase), b.waiting.value.need;
    var c := TryResolve(b.(data := all));
    assert held == if phase.WantBody? then phase.header else [];
    assert InHand(c, phase) == held + all[..n] && c.data == all[n..];
    ConcatAssociative(held, all[..n], all[n..]);
    CutAt(all, n);
  }

  // A push adds to the bytes in hand and in the buffer; a push that settles the pending read moves
  // the front of them into the reader's hand.
  lemma InHandPush(f: Format, b: Buffer, phase: Phase, data: seq<Byte>)
    requires Owns(f, b, phase) && !b.closed
    ensures var c := Push(b, data); InHand(c, phase) + c.data == (InHand(b, phase) + b.data) + data
  {
    ConcatAssociative(InHand(b, phase), b.data, data);
    if data == [] {
      ConcatEmpty(b.data);
    } else if b.waiting.Some? && b.waiting.value.need <= |b.data + data| {
      InHandSettled(f, b, phase, b.data + data);
    }
  }

  lemma PushAccepted(b: Buffer, data: seq<Byte>)
    ensures Push(b, data).accepted == if b.closed then b.accepted else b.accepted + data
  {
    ConcatEmpty(b.accepted);
  }

  lemma AlignedPush(f: Format, b: Buffer, phase: Phase, done: seq<Record>, data: seq<Byte>)
    requires Aligned(f, b, phase, done)
    ensures Aligned(f, Push(b, data), phase, done)
  {
    OwnsPush(f, b, phase, data);
    if !b.closed {
      InHandPush(f, b, phase, data);
      PushAccepted(b, data);
      ConcatAssociative(RawAll(done), InHand(b, phase) + b.data, data);
    }
  }

  lemma AlignedClose(f: Format, b: Buffer, phase: Phase, done: seq<Record>, err: Option<Error>)
    requires Aligned(f, b, phase, done)
    ensures Aligned(f, Close(b, err), phase, done)
  {
    OwnsClose(f, b, phase, err);
    assert InHand(Close(b, err), phase) == InHand(b, phase);
  }

  // Awaiting the next read moves bytes from the buffer into the reader's hand.
  lemma InHandRead(f: Format, b: Buffer, phase: Phase)
    requires !phase.Idle? && (phase.WantBody? ==> |phase.header| == HeaderSize(f))
    requires Owns(f, ReadExact(b, Need(f, phase)), phase)
    ensures var c := ReadExact(b, Need(f, phase));
            InHand(c, phase) + c.data == (if phase.WantBody? then phase.header else []) + b.data
  {
    var n := Need(f, phase);
    var c := ReadExact(b, n);
    var header := if phase.WantBody? then phase.header else [];
    if n <= |b.data| {
      assert InHand(c, phase) == header + b.data[..n];
      CutAt(b.data, n);
      ConcatAssociative(header, b.data[..n], b.data[n..]);
    } else {
      assert InHand(c, phase) == header;
    }
  }

  lemma AlignedBegin(f: Format, b: Buffer, done: seq<Record>)
    requires Aligned(f, b, Idle, done)
    ensures Aligned(f, Begin(f, b), WantHeader, done)
  {
    OwnsRead(f, b, WantHeader);
    InHandRead(f, b, WantHeader);
    assert InHand(b, Idle) == [];
  }

  lemma AlignedSuspended(f: Format, b: Buffer, phase: Phase, done: seq<Record>)
    requires Aligned(f, b, phase, done) && Ready(b, phase) && Continue(f, b, phase).Suspended?
    ensures Aligned(f, Continue(f, b, phase).buf, Continue(f, b, phase).phase, done)
  {
    OwnsContinue(f, b, phase);
    InHandRead(f, b, Continue(f, b, phase).phase);
  }

  lemma AlignedGot(f: Format, b: Buffer, phase: Phase, done: seq<Record>)
    requires Aligned(f, b, phase, done) && Ready(b, phase) && Continue(f, b, phase).Got?
    ensures var r := Continue(f, b, phase).record; Valid(f, r) && Aligned(f, b, Idle, done + [r])
  {
    var r := Continue(f, b, phase).record;
    OwnsContinue(f, b, phase);
    GotIsInHand(f, b, phase);
    RawAllAppend(done, r);
    ConcatAssociative(RawAll(done), Raw(r), b.data);
    ConcatEmpty(b.data);
  }

  lemma GotIsInHand(f: Format, b: Buffer, phase: Phase)
    requires Owns(f, b, phase) && Ready(b, phase) && Continue(f, b, phase).Got?
    ensures Raw(Continue(f, b, phase).record) == InHand(b, phase)
  {
    ConcatEmpty(InHand(b, phase));
  }

  lemma AlignedContinue(f: Format, b: Buffer, phase: Phase, done: seq<Record>)
    requires Aligned(f, b, phase, done) && Ready(b, phase)
    ensures match Continue(f, b, phase)
            case Suspended(c, next) => Aligned(f, c, next, done)
            case Got(r) => Valid(f, r) && Aligned(f, b, Idle, done + [r])
            case Raised(e) => phase.WantHeader? ==> Aligned(f, b, Idle, done)
  {
    match Continue(f, b, phase)
    case Suspended(_, _) => AlignedSuspended(f, b, phase, done);
    case Got(_) => AlignedGot(f, b, phase, done);
    case Raised(_) => OwnsContinue(f, b, phase);
  }

  // A record in hand is what the parse of everything accepted has next.
  lemma AlignedParse(f: Format, b: Buffer, phase: Phase, done: seq<Record>)
    requires Aligned(f, b, phase, done)
    ensures Split(f, b.accepted) == done + Split(f, InHand(b, phase) + b.data)
    ensures Tail(f, b.accepted) == Tail(f, InHand(b, phase) + b.data)
  {
    SplitOfRaw(f, done, InHand(b, phase) + b.data);
  }

  // A reader that asked for more than there is has delivered every whole record that was accepted, and
  // exactly the unparsed tail is left over.
  lemma ShortMeansParsed(f: Format, b: Buffer, phase: Phase, done: seq<Record>)
    requires Aligned(f, b, phase, done) && !phase.Idle? && !LastOutcome(b).Resolved? && |b.data| < Need(f, phase)
    ensures done == Split(f, b.accepted)
    ensures InHand(b, phase) + b.data == Tail(f, b.accepted)
  {
    AlignedParse(f, b, phase, done);
    var left := InHand(b, phase) + b.data;
    if phase.WantBody? {
      assert InHand(b, phase) == phase.header;
      assert left[..HeaderSize(f)] == phase.header;
    } else {
      assert left == b.data;
    }
    assert FirstLength(f, left).None?;
  }

  // So it is when the reader is parked.
  lemma ParkedMeansParsed(f: Format, b: Buffer, phase: Phase, done: seq<Record>)
    requires Aligned(f, b, phase, done) && b.waiting.Some?
    ensures done == Split(f, b.accepted)
    ensures InHand(b, phase) + b.data == Tail(f, b.accepted)
  {
    ShortMeansParsed(f, b, phase, done);
  }
}
