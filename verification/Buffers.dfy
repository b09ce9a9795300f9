/** bytebuffer.ts: a list of chunks with exact-length asynchronous calls.

    `Buffer` is the plain byte queue the class must behave like, together with the promises that
    `readExact` has handed out and two histories (bytes accepted, bytes delivered).  ByteBuffer.dfy
    has the class with the source's fields and proves that it follows this queue step by step. */
module Buffers {
  import opened Bytes

  // `EOF` of yamux.ts, and every other Error by its message.
  datatype Error = Eof | Failure(message: string)

  // The state of a promise returned by readExact.
  datatype Outcome = Pending | Resolved(value: seq<Byte>) | Rejected(error: Error)

  // One call of readExact(need).
  datatype Read = Read(need: nat, outcome: Outcome)

  // The field `waiting`: which promise is parked, and for how many bytes.
  datatype Parked = Parked(promise: nat, need: nat)

  datatype Buffer = Buffer(
    data: seq<Byte>,
    waiting: Option<Parked>,
    closed: bool,
    closeError: Option<Error>,
    calls: seq<Read>,
    accepted: seq<Byte>,
    delivered: seq<Byte>)

  const EmptyBuffer := Buffer([], None, false, None, [], [], [])

  function ErrorOr(e: Option<Error>): Error {
    match e
    case Some(error) => error
    case None => Failure("stream closed")
  }

  function Settle(b: Buffer, promise: nat, outcome: Outcome): Buffer {
    if promise < |b.calls| then b.(calls := b.calls[promise := Read(b.calls[promise].need, outcome)]) else b
  }

  function Consume(b: Buffer, n: nat): Buffer
    requires n <= |b.data|
  {
    b.(data := b.data[n..], delivered := b.delivered + b.data[..n])
  }

  function TryResolve(b: Buffer): Buffer {
    if b.waiting.None? || |b.data| < b.waiting.value.need then b
    else
      var Parked(promise, need) := b.waiting.value;
      Settle(Consume(b, need).(waiting := None), promise, Resolved(b.data[..need]))
  }

  function Push(b: Buffer, data: seq<Byte>): Buffer {
    if b.closed || data == [] then b
    else TryResolve(b.(data := b.data + data, accepted := b.accepted + data))
  }

  function Close(b: Buffer, err: Option<Error>): Buffer {
    var c := b.(closed := true, closeError := Some(ErrorOr(err)));
    if b.waiting.None? then c
    else Settle(c.(waiting := None), b.waiting.value.promise, Rejected(ErrorOr(err)))
  }

  // The promise of this call is the last of `calls`.
  function ReadExact(b: Buffer, n: nat): Buffer {
    if n == 0 then
      b.(calls := b.calls + [Read(0, Resolved([]))])
    else if n <= |b.data| then
      Consume(b, n).(calls := b.calls + [Read(n, Resolved(b.data[..n]))])
    else if b.closed then
      b.(calls := b.calls + [Read(n, Rejected(ErrorOr(b.closeError)))])
    else
      b.(calls := b.calls + [Read(n, Pending)], waiting := Some(Parked(|b.calls|, n)))
  }

  // ----- the invariant every step keeps -----

  predicate Inv(b: Buffer) {
    && b.accepted == b.delivered + b.data
    && (b.waiting.Some? ==>
          var Parked(promise, need) := b.waiting.value;
          !b.closed && |b.data| < need && promise < |b.calls| && b.calls[promise] == Read(need, Pending))
    && (b.closed ==> b.closeError.Some?)
    && (forall p :: 0 <= p < |b.calls| && b.calls[p].outcome.Resolved? ==> |b.calls[p].outcome.value| == b.calls[p].need)
    && (forall p :: 0 <= p < |b.calls| && b.calls[p].outcome.Rejected? ==> b.closed)
  }

  lemma EmptyInv()
    ensures Inv(EmptyBuffer)
  {
    var nothing: seq<Byte> := [];
    assert nothing + nothing == nothing;
  }

  datatype Event = PushEvent(data: seq<Byte>) | CloseEvent(err: Option<Error>) | ReadEvent(need: nat)

  function Step(b: Buffer, e: Event): (c: Buffer)
    requires Inv(b)
    ensures Inv(c)
    ensures |b.calls| <= |c.calls| && b.accepted <= c.accepted && b.delivered <= c.delivered
  {
    match e
    case PushEvent(data) =>
      assert b.accepted + data == b.delivered + (b.data + data);
      var c := Push(b, data);
      assert b.accepted <= c.accepted;
      c
    case CloseEvent(err) => Close(b, err)
    case ReadEvent(n) => ReadExact(b, n)
  }

  function Run(b: Buffer, events: seq<Event>): (c: Buffer)
    requires Inv(b)
    ensures Inv(c)
    decreases |events|
  {
    if events == [] then b else Run(Step(b, events[0]), events[1..])
  }

  lemma {:induction false} RunConcat(b: Buffer, first: seq<Event>, second: seq<Event>)
    requires Inv(b)
    ensures Run(b, first + second) == Run(Run(b, first), second)
    decreases |first|
  {
    if first == [] {
      assert first + second == second;
    } else {
      RunConcat(Step(b, first[0]), first[1..], second);
      assert (first + second)[1..] == first[1..] + second;
    }
  }

  // ----- what is accepted -----

  // The bytes pushed before the first close.
  function Pushed(events: seq<Event>): seq<Byte>
    decreases |events|
  {
    if events == [] then []
    else match events[0]
      case PushEvent(data) => data + Pushed(events[1..])
      case CloseEvent(_) => []
      case ReadEvent(_) => Pushed(events[1..])
  }

  // Nothing pushed before the first close is lost, nothing pushed after it gets in, and the
  // reads in between do not matter.
  lemma {:induction false} AcceptedIsPushed(b: Buffer, events: seq<Event>)
    requires Inv(b)
    ensures Run(b, events).accepted == b.accepted + (if b.closed then [] else Pushed(events))
    decreases |events|
  {
    if events == [] {
    } else if b.closed || !events[0].PushEvent? {
      AcceptedIsPushed(Step(b, events[0]), events[1..]);
    } else {
      var c := Step(b, events[0]);
      assert c.accepted == b.accepted + events[0].data && !c.closed;
      AcceptedIsPushed(c, events[1..]);
      ConcatAssociative(b.accepted, events[0].data, Pushed(events[1..]));
    }
  }

  // ----- however the bytes are cut -----

  lemma PushTwice(b: Buffer, first: seq<Byte>, second: seq<Byte>)
    requires Inv(b)
    ensures Inv(Push(b, first))
    ensures Push(Push(b, first), second) == Push(b, first + second)
  {
    assert Step(b, PushEvent(first)) == Push(b, first);
    if first == [] {
      assert first + second == second;
    } else if second == [] {
      assert first + second == first;
    } else if !b.closed {
      ConcatAssociative(b.data, first, second);
      ConcatAssociative(b.accepted, first, second);
      if b.waiting.Some? && b.waiting.value.need <= |b.data + first| {
        var n := b.waiting.value.need;
        assert (b.data + (first + second))[..n] == (b.data + first)[..n];
        assert (b.data + (first + second))[n..] == (b.data + first)[n..] + second;
      }
    }
  }

  function PushEach(chunks: seq<seq<Byte>>): seq<Event> {
    seq(|chunks|, i requires 0 <= i < |chunks| => PushEvent(chunks[i]))
  }

  // Any cutting of the bytes into chunks leads to the state one push leads to, parked reader
  // and all.
  lemma {:induction false} CuttingIrrelevant(b: Buffer, chunks: seq<seq<Byte>>)
    requires Inv(b)
    ensures Run(b, PushEach(chunks)) == Push(b, Flatten(chunks))
    decreases |chunks|
  {
    if chunks != [] {
      var rest := chunks[1..];
      assert PushEach(chunks)[0] == PushEvent(chunks[0]);
      assert PushEach(chunks)[1..] == PushEach(rest);
      CuttingIrrelevant(Push(b, chunks[0]), rest) by {
        assert Step(b, PushEvent(chunks[0])) == Push(b, chunks[0]);
      }
      PushTwice(b, chunks[0], Flatten(rest));
    }
  }

  // ----- how reads settle -----

  // A settled read keeps its outcome: it settles at most once.
  lemma {:induction false} SettledStays(b: Buffer, events: seq<Event>, p: nat)
    requires Inv(b)
    requires p < |b.calls| && !b.calls[p].outcome.Pending?
    ensures p < |Run(b, events).calls| && Run(b, events).calls[p] == b.calls[p]
    decreases |events|
  {
    if events != [] {
      SettledStays(Step(b, events[0]), events[1..], p);
    }
  }

  // A pending read the buffer has forgotten.
  predicate Orphan(b: Buffer, p: nat) {
    && p < |b.calls| && b.calls[p].outcome.Pending?
    && (b.waiting.None? || b.waiting.value.promise != p)
  }

  // A forgotten read never settles, whatever happens to the buffer.
  lemma {:induction false} OrphanForever(b: Buffer, events: seq<Event>, p: nat)
    requires Inv(b) && Orphan(b, p)
    ensures Orphan(Run(b, events), p)
    decreases |events|
  {
    if events != [] {
      OrphanForever(Step(b, events[0]), events[1..], p);
    }
  }

  predicate NoOrphans(b: Buffer) {
    forall p: nat :: p < |b.calls| ==> !Orphan(b, p)
  }

  // The one way to lose a read is to park a second one: the parked reader is overwritten.
  lemma OrphanExactly(b: Buffer, e: Event)
    requires Inv(b) && NoOrphans(b)
    ensures NoOrphans(Step(b, e)) <==> !(e.ReadEvent? && b.waiting.Some? && |b.data| < e.need)
  {
    var c := Step(b, e);
    if e.ReadEvent? && b.waiting.Some? && |b.data| < e.need {
      assert Orphan(c, b.waiting.value.promise);
    } else {
      forall p: nat | p < |c.calls| ensures !Orphan(c, p) {
        if p < |b.calls| {
          assert !Orphan(b, p);
        }
      }
    }
  }

  // One outstanding read at a time: no read is issued while one is parked.
  predicate OneAtATime(b: Buffer, events: seq<Event>)
    requires Inv(b)
    decreases |events|
  {
    events == [] || ((events[0].ReadEvent? ==> b.waiting.None?) && OneAtATime(Step(b, events[0]), events[1..]))
  }

  // The bytes of the resolved reads, in the order the reads were issued.
  function Values(calls: seq<Read>): seq<Byte> {
    if calls == [] then []
    else
      var last := calls[|calls| - 1].outcome;
      Values(calls[..|calls| - 1]) + (if last.Resolved? then last.value else [])
  }

  predicate InOrder(b: Buffer) {
    && b.delivered == Values(b.calls)
    && (b.waiting.Some? ==> b.waiting.value.promise == |b.calls| - 1)
    && NoOrphans(b)
  }

  lemma InOrderStep(b: Buffer, e: Event)
    requires Inv(b) && InOrder(b)
    requires e.ReadEvent? ==> b.waiting.None?
    ensures InOrder(Step(b, e))
  {
    var c := Step(b, e);
    OrphanExactly(b, e);
    if e.ReadEvent? {
      assert c.calls[..|c.calls| - 1] == b.calls;
    } else if b.waiting.Some? {
      assert c.calls[..|c.calls| - 1] == b.calls[..|b.calls| - 1];
    }
  }

  // With one outstanding read at a time, over any run: every pending read is the parked one, and
  // the resolved reads carry, in the order they were issued, exactly the bytes delivered.
  lemma {:induction false} ReadsInOrder(b: Buffer, events: seq<Event>)
    requires Inv(b) && InOrder(b) && OneAtATime(b, events)
    ensures InOrder(Run(b, events))
    ensures Run(b, events).accepted == Values(Run(b, events).calls) + Run(b, events).data
    decreases |events|
  {
    if events != [] {
      InOrderStep(b, events[0]);
      ReadsInOrder(Step(b, events[0]), events[1..]);
    }
  }

  // ----- closing does not discard what was accepted -----

  function Sum(needs: seq<nat>): nat {
    if needs == [] then 0 else needs[0] + Sum(needs[1..])
  }

  function ReadEach(needs: seq<nat>): seq<Event> {
    seq(|needs|, i requires 0 <= i < |needs| => ReadEvent(needs[i]))
  }

  // After a close, reads are served from the data that was accepted until it runs out; the first
  // read that asks for more is rejected with the reason of the close.
  lemma {:induction false} DrainAfterClose(b: Buffer, needs: seq<nat>, n: nat)
    requires Inv(b) && b.closed
    requires Sum(needs) <= |b.data| && |b.data| < Sum(needs) + n
    ensures var c := Run(b, ReadEach(needs));
            && c.delivered == b.delivered + b.data[..Sum(needs)]
            && |c.calls| == |b.calls| + |needs|
            && (forall p :: |b.calls| <= p < |c.calls| ==> c.calls[p].outcome.Resolved?)
            && ReadExact(c, n).calls == c.calls + [Read(n, Rejected(b.closeError.value))]
            && ReadExact(c, n).data == c.data
    decreases |needs|
  {
    if needs == [] {
      assert b.delivered + b.data[..0] == b.delivered;
    } else {
      var c, rest := ReadExact(b, needs[0]), needs[1..];
      assert c == Step(b, ReadEvent(needs[0]));
      assert ReadEach(needs)[1..] == ReadEach(rest);
      assert c.data == b.data[needs[0]..] && c.delivered == b.delivered + b.data[..needs[0]];
      DrainAfterClose(c, rest, n);
      SettledStays(c, ReadEach(rest), |b.calls|);
      assert b.data[..Sum(needs)] == b.data[..needs[0]] + c.data[..Sum(rest)];
      ConcatAssociative(b.delivered, b.data[..needs[0]], c.data[..Sum(rest)]);
    }
  }
}
