/** The two ends of two joined sessions, each the first stream of a new session: what each owes the other,
    and what a move of one of them keeps and lowers. */
module JoinedEnds {
  import opened Bytes
  import opened Records
  import opened YamuxFrames
  import opened Messages
  import opened MessageSends
  import opened EndToEnd
  import W = StreamWrites
  import C = StreamCredit
  import opened SessionParsing
  import opened SessionStreams
  import opened SessionLogs
  import opened Arrivals
  import opened BothWays
  import opened PlainRuns
  import opened Weights

  // ----- an end: the first stream of a new session -----

  // The endpoint after `acts` on the first stream of a new session, and the bytes it has been handed.
  function At(acts: seq<Act>): (p: Endpoint)
    ensures InOrder(p, 1)
  {
    FirstStream();
    Reached([], acts)
  }

  function In(acts: seq<Act>): seq<Byte> {
    FirstStream();
    BytesIn([], acts)
  }

  predicate Cleanly(acts: seq<Act>) {
    FirstStream();
    SendsCleanly([], acts)
  }

  lemma AtMore(acts: seq<Act>, more: seq<Act>)
    ensures At(acts + more) == EndToEnd.Run(At(acts), more, 1)
    ensures In(acts + more) == In(acts) + MessageBytes(Trace(At(acts), more, 1))
    ensures Cleanly(acts) && NeverSendsBroken(At(acts), more, 1) ==> Cleanly(acts + more)
  {
    FirstStream();
    StartInOrder([]);
    var p := Start([]);
    RunConcat(p, acts, more, 1);
    TraceConcat(p, acts, more, 1);
    BytesConcat(Trace(p, acts, 1), Trace(At(acts), more, 1));
    ConcatAssociative(MessageBytes([]), MessageBytes(Trace(p, acts, 1)), MessageBytes(Trace(At(acts), more, 1)));
    if Cleanly(acts) {
      NeverConcat(p, acts, more, 1);
    }
  }

  // An undisturbed end.
  predicate Sound(p: Endpoint) {
    && Calm(p.session, 1) && LoopInv(p.session) && Plain(p.session.log, 1) && LogShaped(p.session.log)
    && p.m.ys.state.Open? && !p.m.ys.recv.closed
  }

  predicate EndOk(acts: seq<Act>) {
    Cleanly(acts) && Sound(At(acts)) && !At(acts).m.tx.Broken?
  }

  // The two ends, with what each has been handed a front of what the other has sent.
  predicate Pair(x: seq<Act>, z: seq<Act>) {
    && EndOk(x) && EndOk(z)
    && In(x) <= Wire(At(z).session.log) && In(z) <= Wire(At(x).session.log)
  }

  lemma Accepted(acts: seq<Act>)
    requires Sound(At(acts))
    ensures At(acts).session.buf.accepted == In(acts)
  {
    FirstStream();
    ReachedAccepts([], acts);
  }

  lemma CreditPrefix(a: seq<Frame>, b: seq<Frame>, id: nat)
    requires a <= b
    ensures CreditOf(a, id) <= CreditOf(b, id)
  {
    CutAt(b, |a|);
    CreditConcat(a, b[|a|..], id);
  }

  lemma WirePrefix(a: seq<Frame>, b: seq<Frame>)
    requires a <= b
    ensures Wire(a) <= Wire(b)
  {
    CutAt(b, |a|);
    assert ToRecords(b) == ToRecords(a) + ToRecords(b[|a|..]);
    RawAllConcat(ToRecords(a), ToRecords(b[|a|..]));
  }

  // The other end has taken in no more than this one has sent, ...
  lemma ReceivedIsSent(x: seq<Act>, z: seq<Act>)
    requires Pair(x, z)
    ensures At(z).m.ys.received <= |W.Payloads(At(x).m.ys.sent)|
    ensures |W.Payloads(At(x).m.ys.sent)| <= Demanded(At(x).m) && TxInv(At(x).m)
  {
    var p, q := At(x), At(z);
    FirstStream();
    PlainIsGentle(p.session.log, 1);
    Accepted(z);
    ReachedFed([], z);
    DispatchedFromWire(q.session, p.session.log);
    DataOfPrefix(DispatchedFrames(q.session), p.session.log, 1);
    SenderSide([], x);
  }

  // ... and this one no more credit than the other has granted.
  lemma CreditIsGranted(x: seq<Act>, z: seq<Act>)
    requires Pair(x, z)
    ensures At(x).m.ys.credit <= CreditOf(At(z).session.log, 1)
    ensures CreditOf(At(z).session.log, 1) == INITIAL_WINDOW + C.Granted(At(z).m.ys.sent)
  {
    var p, q := At(x), At(z);
    FirstStream();
    PlainIsGentle(q.session.log, 1);
    Accepted(x);
    ReachedCredited([], x);
    DispatchedFromWire(p.session, q.session.log);
    CreditPrefix(DispatchedFrames(p.session), q.session.log, 1);
    ReachedLog([], z);
    NothingEarly();
  }

  lemma NothingEarly()
    ensures Early([]) == 0
  {
    NothingYet();
  }

  // So the window is at most twice the initial one, and what the other end grants is bounded by what this
  // one has to send.
  lemma PairBooks(x: seq<Act>, z: seq<Act>)
    requires Pair(x, z)
    ensures Engine(At(x), 1) && TxInv(At(x).m)
    ensures CreditOf(At(z).session.log, 1) <= INITIAL_WINDOW + Demanded(At(x).m)
    ensures At(z).m.ys.received <= Demanded(At(x).m)
    ensures |W.Payloads(At(x).m.ys.sent)| <= Demanded(At(x).m)
  {
    FirstStream();
    ReceivedIsSent(x, z);
    CreditIsGranted(x, z);
    ReachedBooks([], x);
    ReachedBooks([], z);
  }

  lemma PairRunning(x: seq<Act>, z: seq<Act>)
    requires Pair(x, z)
    ensures Running(At(x), At(z).session.log) && At(x).session.buf.accepted == In(x)
  {
    PairBooks(x, z);
    Accepted(x);
    PlainIsGentle(At(z).session.log, 1);
  }

  // ----- a move keeps the pair, and lowers the weight of its end -----

  // What a move does at end x, if anything, when the other end is at z.
  function ActOf(x: seq<Act>, z: seq<Act>, move: Move): Option<Act> {
    ActOn(At(x), |In(x)|, Wire(At(z).session.log), move)
  }

  lemma AfterOne(x: seq<Act>, act: Act)
    ensures At(x + [act]) == Next(At(x), act, 1) && In(x + [act]) == In(x) + BytesOf(act)
    ensures Cleanly(x) && !SendsBroken(At(x), act) ==> Cleanly(x + [act])
  {
    AtMore(x, [act]);
    OneAct(At(x), act, 1);
    assert [act][1..] == [];
    TraceBytes(At(x), [act], 1);
    NoMessages(Next(At(x), act, 1), 1);
    ConcatEmpty(BytesOf(act));
  }

  // What a step has to keep for the pair to be kept.
  lemma Extends(x: seq<Act>, z: seq<Act>, act: Act)
    requires Pair(x, z) && In(x) + BytesOf(act) <= Wire(At(z).session.log)
    requires Fine(Next(At(x), act, 1)) && At(x).session.log <= Next(At(x), act, 1).session.log
    ensures Pair(x + [act], z) && At(x + [act]) == Next(At(x), act, 1) && In(x + [act]) == In(x) + BytesOf(act)
  {
    AfterOne(x, act);
    FirstStream();
    ReachedLog([], x + [act]);
    WirePrefix(At(x).session.log, At(x + [act]).session.log);
    PrefixTransitive(In(z), Wire(At(x).session.log), Wire(At(x + [act]).session.log));
  }

  // The pair after a move at end x, and what the end has left.
  predicate Lowers(x: seq<Act>, act: Act, z: seq<Act>) {
    && Pair(x + [act], z) && Attempted(At(x + [act]).m) == Attempted(At(x).m)
    && Weight(At(x + [act]), |In(x + [act])|) < Weight(At(x), |In(x)|)
  }

  lemma StepLowers(x: seq<Act>, z: seq<Act>, act: Act)
    requires Pair(x, z) && In(x) + BytesOf(act) <= Wire(At(z).session.log)
    requires Does(At(x), act)
    ensures Lowers(x, act, z)
  {
    Extends(x, z, act);
    TakenOff(At(x), 0, |In(x)|);
    TakenOff(At(x + [act]), |BytesOf(act)|, |In(x)|);
  }

  lemma MoveLowers(x: seq<Act>, z: seq<Act>, move: Move)
    requires Pair(x, z) && !move.Submits? && ActOf(x, z, move).Some?
    ensures Lowers(x, ActOf(x, z, move).value, z)
  {
    PairRunning(x, z);
    var act := ActOf(x, z, move).value;
    MoveFits(At(x), act, In(x), Wire(At(z).session.log), move);
    MoveSteps(At(x), act, In(x), At(z).session.log, move);
    StepLowers(x, z, act);
  }

  lemma SubmitKeeps(x: seq<Act>, z: seq<Act>, payload: seq<Byte>)
    requires Pair(x, z) && !Outstanding(At(x).m.tx)
    ensures var longer := x + [App(SendCall(payload))];
            Pair(longer, z) && Attempted(At(longer).m) == Attempted(At(x).m) + [payload]
  {
    var act := App(SendCall(payload));
    PairRunning(x, z);
    SubmitSteps(At(x), payload, At(z).session.log);
    NothingTaken(In(x), act, Wire(At(z).session.log));
    Extends(x, z, act);
  }

  lemma NothingTaken(got: seq<Byte>, act: Act, wire: seq<Byte>)
    requires act.App? && got <= wire
    ensures got + BytesOf(act) <= wire
  {
    ConcatEmpty(got);
  }
}
