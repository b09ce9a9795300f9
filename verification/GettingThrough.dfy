/** Two sessions joined by two channels of bytes, each with its first stream open, sending to each other.
    Every schedule of arrivals and continuations comes to an end, in whatever order, and there recv has
    returned, at both ends, every payload passed to send: payloads of any size get through. */
module GettingThrough {
  import opened Bytes
  import opened Records
  import opened YamuxFrames
  import opened Messages
  import opened MessageSends
  import opened EndToEnd
  import Streams
  import W = StreamWrites
  import R = Receiving
  import A = AppFrames
  import S = Sessions
  import opened SessionParsing
  import opened SessionStreams
  import opened SessionLogs
  import opened Arrivals
  import opened BothWays
  import opened PlainRuns
  import opened Weights
  import opened JoinedEnds

  // ----- the joint system -----

  // What has been done at each end.
  datatype Joint = Joint(a: seq<Act>, b: seq<Act>)

  function Own(y: Joint, at: End): seq<Act> {
    if at.EndA? then y.a else y.b
  }

  function Other(y: Joint, at: End): seq<Act> {
    if at.EndA? then y.b else y.a
  }

  function OtherEnd(at: End): End {
    if at.EndA? then EndB else EndA
  }

  function With(y: Joint, at: End, acts: seq<Act>): Joint {
    if at.EndA? then y.(a := acts) else y.(b := acts)
  }

  function Step(y: Joint, move: Move): Joint {
    match ActOf(Own(y, move.at), Other(y, move.at), move)
    case None => y
    case Some(act) => With(y, move.at, Own(y, move.at) + [act])
  }

  function Run(y: Joint, moves: seq<Move>): Joint
    decreases |moves|
  {
    if moves == [] then y else Run(Step(y, moves[0]), moves[1..])
  }

  const Fresh := Joint([], [])

  // ----- runs of the joint system -----

  predicate Paired(y: Joint) {
    Pair(y.a, y.b)
  }

  // The payloads passed to send at an end.
  function Passed(y: Joint, at: End): seq<seq<Byte>> {
    Attempted(At(Own(y, at)).m)
  }

  // What the two ends still have to do.
  function Work(y: Joint): (w: nat)
    requires Paired(y)
  {
    PairBooks(y.a, y.b);
    PairBooks(y.b, y.a);
    WorkCounts(At(y.a), At(y.b), |In(y.a)|, |In(y.b)|);
    TotalWeight(At(y.a), At(y.b), |In(y.a)|, |In(y.b)|)
  }

  function TotalWeight(p: Endpoint, q: Endpoint, inP: nat, inQ: nat): int {
    Weight(p, inP) + Weight(q, inQ) + 120 * INITIAL_WINDOW + 62 * (Demanded(p.m) + Demanded(q.m))
  }

  lemma WorkCounts(p: Endpoint, q: Endpoint, inP: nat, inQ: nat)
    requires inP <= |Wire(q.session.log)| && inQ <= |Wire(p.session.log)|
    requires CreditOf(p.session.log, 1) <= INITIAL_WINDOW + Demanded(q.m) && p.m.ys.received <= Demanded(q.m)
    requires CreditOf(q.session.log, 1) <= INITIAL_WINDOW + Demanded(p.m) && q.m.ys.received <= Demanded(p.m)
    requires |W.Payloads(p.m.ys.sent)| <= Demanded(p.m) && |W.Payloads(q.m.ys.sent)| <= Demanded(q.m)
    ensures TotalWeight(p, q, inP, inQ) >= 0
  {
  }

  // The pair seen from the end that moves.
  lemma FromEnd(y: Joint, at: End)
    ensures Paired(y) <==> Pair(Own(y, at), Other(y, at))
  {
  }

  lemma WorkFrom(y: Joint, at: End)
    requires Paired(y)
    ensures Work(y) == TotalWeight(At(Own(y, at)), At(Other(y, at)), |In(Own(y, at))|, |In(Other(y, at))|)
  {
  }

  lemma WithEnds(y: Joint, at: End, acts: seq<Act>)
    ensures Own(With(y, at, acts), at) == acts && Other(With(y, at, acts), at) == Other(y, at)
    ensures acts != Own(y, at) ==> With(y, at, acts) != y
  {
  }

  predicate SamePassed(y: Joint, z: Joint) {
    Passed(z, EndA) == Passed(y, EndA) && Passed(z, EndB) == Passed(y, EndB)
  }

  lemma PassedFrom(y: Joint, z: Joint, at: End)
    requires Attempted(At(Own(z, at)).m) == Attempted(At(Own(y, at)).m) && Other(z, at) == Other(y, at)
    ensures SamePassed(y, z)
  {
    match at
    case EndA =>
    case EndB =>
  }

  lemma SameTwice(y: Joint, z: Joint, u: Joint)
    requires SamePassed(y, z) && SamePassed(z, u)
    ensures SamePassed(y, u)
  {
  }

  lemma LowersWork(y: Joint, z: Joint, at: End)
    requires Paired(y) && Paired(z) && Other(z, at) == Other(y, at)
    requires Attempted(At(Own(z, at)).m) == Attempted(At(Own(y, at)).m)
    requires Weight(At(Own(z, at)), |In(Own(z, at))|) < Weight(At(Own(y, at)), |In(Own(y, at))|)
    ensures Work(z) < Work(y)
  {
    WorkFrom(y, at);
    WorkFrom(z, at);
  }

  lemma ActShrinks(y: Joint, at: End, act: Act)
    requires Paired(y) && Lowers(Own(y, at), act, Other(y, at))
    ensures var z := With(y, at, Own(y, at) + [act]); Paired(z) && SamePassed(y, z) && Work(z) < Work(y)
  {
    var z := With(y, at, Own(y, at) + [act]);
    WithEnds(y, at, Own(y, at) + [act]);
    FromEnd(z, at);
    PassedFrom(y, z, at);
    LowersWork(y, z, at);
  }

  // A step that is not a call of send does nothing, or leaves less to do.
  lemma StepShrinks(y: Joint, move: Move)
    requires Paired(y) && !move.Submits?
    ensures var z := Step(y, move); Paired(z) && SamePassed(y, z) && (z == y || Work(z) < Work(y))
  {
    FromEnd(y, move.at);
    match ActOf(Own(y, move.at), Other(y, move.at), move)
    case None =>
    case Some(act) =>
      MoveLowers(Own(y, move.at), Other(y, move.at), move);
      ActShrinks(y, move.at, act);
  }

  // What a call of send adds.
  predicate PassedMore(y: Joint, z: Joint, at: End, payload: seq<Byte>) {
    Passed(z, at) == Passed(y, at) + [payload] && Passed(z, OtherEnd(at)) == Passed(y, OtherEnd(at))
  }

  lemma SubmitIs(y: Joint, at: End, payload: seq<Byte>)
    requires !Outstanding(At(Own(y, at)).m.tx)
    ensures Step(y, Submits(at, payload)) == With(y, at, Own(y, at) + [App(SendCall(payload))])
  {
  }

  lemma PassedWith(y: Joint, at: End, acts: seq<Act>)
    ensures var z := With(y, at, acts);
            Passed(z, at) == Attempted(At(acts).m) && Passed(z, OtherEnd(at)) == Passed(y, OtherEnd(at))
  {
  }

  lemma SubmitAdds(y: Joint, at: End, payload: seq<Byte>)
    requires Paired(y) && !Outstanding(At(Own(y, at)).m.tx)
    ensures var z := Step(y, Submits(at, payload)); Paired(z) && PassedMore(y, z, at, payload)
  {
    var acts := Own(y, at) + [App(SendCall(payload))];
    FromEnd(y, at);
    SubmitKeeps(Own(y, at), Other(y, at), payload);
    SubmitIs(y, at, payload);
    WithEnds(y, at, acts);
    FromEnd(With(y, at, acts), at);
    PassedWith(y, at, acts);
  }

  lemma StepOk(y: Joint, move: Move)
    requires Paired(y)
    ensures Paired(Step(y, move))
  {
    if !move.Submits? {
      StepShrinks(y, move);
    } else if !Outstanding(At(Own(y, move.at)).m.tx) {
      SubmitAdds(y, move.at, move.payload);
    }
  }

  // What every step keeps, every run keeps.
  lemma {:induction false} RunKeeps(inv: Joint -> bool, y: Joint, moves: seq<Move>)
    requires inv(y) && forall z: Joint, move: Move :: inv(z) ==> inv(Step(z, move))
    ensures inv(Run(y, moves))
    decreases |moves|
  {
    if moves != [] {
      RunKeeps(inv, Step(y, moves[0]), moves[1..]);
    }
  }

  lemma RunOk(y: Joint, moves: seq<Move>)
    requires Paired(y)
    ensures Paired(Run(y, moves))
  {
    forall z: Joint, move: Move | Paired(z) ensures Paired(Step(z, move)) {
      StepOk(z, move);
    }
    RunKeeps(Paired, y, moves);
  }

  // ----- the beginning -----

  lemma StartIs()
    ensures At([]) == Start([]) && In([]) == [] && Cleanly([])
  {
    FirstStream();
    StartInOrder([]);
    NothingYet();
    ConcatEmpty(MessageBytes([]));
  }

  lemma OpenedNew()
    ensures var s := S.Open(S.NewSession());
            && Calm(s, 1) && s.log == [Syn(1)] && s.created[1] == Streams.NewStream(1)
            && Plain(s.log, 1) && LogShaped(s.log)
  {
    ConcatEmpty([Syn(1)]);
  }

  lemma StartSound()
    ensures Sound(Start([])) && Start([]).session.log == [Syn(1)]
    ensures Start([]).m == Attach(Streams.NewStream(1))
  {
    StartLoop([]);
    NothingYet();
    OpenedNew();
  }

  lemma FreshEnd()
    ensures EndOk([]) && Attempted(At([]).m) == [] && In([]) == []
  {
    StartIs();
    StartSound();
  }

  lemma NothingHanded(x: seq<Act>, z: seq<Act>)
    requires EndOk(x) && EndOk(z) && In(x) == [] && In(z) == []
    ensures Pair(x, z)
  {
  }

  lemma FreshOk()
    ensures Paired(Fresh) && Passed(Fresh, EndA) == [] && Passed(Fresh, EndB) == []
  {
    FreshEnd();
    NothingHanded([], []);
  }

  // What two joined sessions can come to.
  ghost predicate Reachable(y: Joint) {
    exists moves: seq<Move> :: y == Run(Fresh, moves)
  }

  lemma FreshReachable()
    ensures Reachable(Fresh) && Passed(Fresh, EndA) == [] && Passed(Fresh, EndB) == []
  {
    FreshOk();
    assert Run(Fresh, []) == Fresh;
  }

  lemma ReachedPaired(y: Joint)
    requires Reachable(y)
    ensures Paired(y)
  {
    var moves: seq<Move> :| y == Run(Fresh, moves);
    FreshOk();
    RunOk(Fresh, moves);
  }

  lemma {:induction false} RunConcat(y: Joint, a: seq<Move>, b: seq<Move>)
    ensures Run(y, a + b) == Run(Run(y, a), b)
    decreases |a|
  {
    if a == [] {
      ConcatEmpty(b);
    } else {
      RunConcat(Step(y, a[0]), a[1..], b);
      ConcatFirst(a, b);
    }
  }

  lemma RunReachable(y: Joint, moves: seq<Move>)
    requires Reachable(y)
    ensures Reachable(Run(y, moves))
  {
    var before: seq<Move> :| y == Run(Fresh, before);
    RunConcat(Fresh, before, moves);
  }

  lemma StepReachable(y: Joint, move: Move)
    requires Reachable(y)
    ensures Reachable(Step(y, move))
  {
    RunReachable(y, [move]);
    RunOneMove(y, move);
  }

  lemma RunOneMove(y: Joint, move: Move)
    ensures Run(y, [move]) == Step(y, move)
  {
    ConcatEmpty([move]);
    RunFirst(y, move, []);
  }

  lemma RunFirst(y: Joint, move: Move, rest: seq<Move>)
    ensures Run(y, [move] + rest) == Run(Step(y, move), rest)
  {
    ConcatFirst([move], rest);
    ConcatEmpty(rest);
  }

  // What the two ends still have to do.
  ghost function WorkLeft(y: Joint): nat
    requires Reachable(y)
  {
    ReachedPaired(y);
    Work(y)
  }

  // A step that is not a call of send does nothing, or leaves less to do.
  lemma StepLowersWork(y: Joint, move: Move)
    requires Reachable(y) && !move.Submits?
    ensures var z := Step(y, move);
            Reachable(z) && SamePassed(y, z) && (z == y || WorkLeft(z) < WorkLeft(y))
  {
    ReachedPaired(y);
    StepReachable(y, move);
    StepShrinks(y, move);
  }

  lemma SubmitReaches(y: Joint, at: End, payload: seq<Byte>)
    requires Reachable(y) && !Outstanding(At(Own(y, at)).m.tx)
    ensures var z := Step(y, Submits(at, payload)); Reachable(z) && PassedMore(y, z, at, payload)
  {
    ReachedPaired(y);
    StepReachable(y, Submits(at, payload));
    SubmitAdds(y, at, payload);
  }

  lemma StepMoves(y: Joint, move: Move)
    requires ActOf(Own(y, move.at), Other(y, move.at), move).Some?
    ensures Step(y, move) != y
  {
    var act := ActOf(Own(y, move.at), Other(y, move.at), move).value;
    assert |Own(y, move.at) + [act]| == |Own(y, move.at)| + 1;
  }

  // What a move adds to the payloads passed to send at an end.
  function Added(y: Joint, z: Joint, move: Move, at: End): seq<seq<Byte>> {
    if move.Submits? && move.at == at && z != y then [move.payload] else []
  }

  // The payloads of the calls of send in a run that were made while no other was outstanding.
  function Submitted(y: Joint, moves: seq<Move>, at: End): seq<seq<Byte>>
    decreases |moves|
  {
    if moves == [] then []
    else Added(y, Step(y, moves[0]), moves[0], at) + Submitted(Step(y, moves[0]), moves[1..], at)
  }

  lemma SubmitActs(y: Joint, at: End, payload: seq<Byte>)
    ensures Step(y, Submits(at, payload)) != y <==> !Outstanding(At(Own(y, at)).m.tx)
  {
    if !Outstanding(At(Own(y, at)).m.tx) {
      StepMoves(y, Submits(at, payload));
    }
  }

  lemma SameAt(y: Joint, z: Joint, at: End)
    requires SamePassed(y, z)
    ensures Passed(z, at) == Passed(y, at) + []
  {
    ConcatEmpty(Passed(y, at));
  }

  lemma MoreAt(y: Joint, z: Joint, of: End, payload: seq<Byte>, at: End)
    requires PassedMore(y, z, of, payload)
    ensures Passed(z, at) == Passed(y, at) + (if of == at then [payload] else [])
  {
    ConcatEmpty(Passed(y, at));
  }

  lemma StepPasses(y: Joint, move: Move, at: End)
    requires Reachable(y)
    ensures Passed(Step(y, move), at) == Passed(y, at) + Added(y, Step(y, move), move, at)
  {
    var z := Step(y, move);
    if !move.Submits? {
      StepLowersWork(y, move);
      SameAt(y, z, at);
    } else {
      SubmitActs(y, move.at, move.payload);
      if z == y {
        SameAt(y, z, at);
      } else {
        SubmitReaches(y, move.at, move.payload);
        MoreAt(y, z, move.at, move.payload, at);
      }
    }
  }

  lemma {:induction false} PassedIsSubmitted(y: Joint, moves: seq<Move>, at: End)
    requires Reachable(y)
    ensures Passed(Run(y, moves), at) == Passed(y, at) + Submitted(y, moves, at)
    decreases |moves|
  {
    if moves == [] {
      ConcatEmpty(Passed(y, at));
    } else {
      var z := Step(y, moves[0]);
      StepReachable(y, moves[0]);
      StepPasses(y, moves[0], at);
      PassedIsSubmitted(z, moves[1..], at);
      ConcatAssociative(Passed(y, at), Added(y, z, moves[0], at), Submitted(z, moves[1..], at));
    }
  }

  // ----- the end -----

  // Neither the network nor the engine nor a program that only calls recv has anything left to do.
  ghost predicate Exhausted(y: Joint) {
    forall move: Move :: !move.Submits? ==> Step(y, move) == y
  }

  // Everything is in at end x, and nothing of it waits for the engine.
  predicate Idle(x: seq<Act>, z: seq<Act>) {
    IdleOn(At(x), |In(x)|, Wire(At(z).session.log))
  }

  function NextAt(y: Joint, at: End): Option<Move> {
    NextOn(At(Own(y, at)), |In(Own(y, at))|, Wire(At(Other(y, at)).session.log), at)
  }

  lemma IdleRests(x: seq<Act>, z: seq<Act>)
    requires Pair(x, z) && Idle(x, z)
    ensures LoopAtRest(At(x), 1) && SenderAtRest(At(x).m) && BothParked(At(x), 1)
    ensures In(x) == Wire(At(z).session.log)
  {
    PairRunning(x, z);
    GentlePlain(At(z).session.log, 1);
    CalmParked(At(x).session, 1);
    RestParked(At(x), 1, At(z).session.log);
  }

  // Every payload passed to send at x has been returned by recv at z, whole and in order, and send is done.
  predicate Delivered(x: seq<Act>, z: seq<Act>) {
    && At(x).m.tx.Between?
    && (A.AllSendable(DataFrames(At(x).m.done)) ==>
          BeforeFailure(At(z).m.results) == Payloads(At(x).m.done))
  }

  function Payloads(sent: seq<seq<Byte>>): (out: seq<R.Received>)
    ensures |out| == |sent|
    ensures forall i :: 0 <= i < |sent| ==> out[i] == R.Payload(sent[i])
  {
    seq(|sent|, i requires 0 <= i < |sent| => R.Payload(sent[i]))
  }

  lemma AllCameIn(x: seq<Act>, z: seq<Act>)
    requires Pair(x, z) && In(x) == Wire(At(z).session.log)
    ensures !After([]).closed && AllIn([], x, At(z)) && Reached([], x) == At(x)
  {
    FirstStream();
    PlainIsGentle(At(z).session.log, 1);
  }

  // What `NoStandstill` comes to here.
  lemma RestDelivers(x: seq<Act>, z: seq<Act>)
    requires !After([]).closed && Reached([], x) == At(x) && Reached([], z) == At(z)
    requires AllIn([], x, At(z)) && AllIn([], z, At(x)) && Cleanly(x) && !At(x).m.tx.Broken?
    requires LoopAtRest(At(x), 1) && SenderAtRest(At(x).m) && BothParked(At(z), 1)
    ensures Delivered(x, z)
  {
    FirstStream();
    NothingEarly();
    NoStandstill([], x, [], z);
  }

  lemma IdleDelivers(x: seq<Act>, z: seq<Act>)
    requires Pair(x, z) && Idle(x, z) && Idle(z, x)
    ensures Delivered(x, z)
  {
    IdleRests(x, z);
    IdleRests(z, x);
    AllCameIn(x, z);
    AllCameIn(z, x);
    RestDelivers(x, z);
  }

  lemma NotExhausted(y: Joint, at: End)
    requires NextAt(y, at).Some?
    ensures !Exhausted(y)
  {
    var x, z, move := Own(y, at), Other(y, at), NextAt(y, at).value;
    NextActs(At(x), |In(x)|, Wire(At(z).session.log), at);
    StepMoves(y, move);
  }

  lemma ExhaustedIdle(y: Joint, at: End)
    requires Exhausted(y)
    ensures Idle(Own(y, at), Other(y, at))
  {
    var x, z := Own(y, at), Other(y, at);
    NextActs(At(x), |In(x)|, Wire(At(z).session.log), at);
    if NextAt(y, at).Some? {
      NotExhausted(y, at);
    }
  }

  lemma ExhaustedDelivers(y: Joint)
    requires Paired(y) && Exhausted(y)
    ensures Delivered(y.a, y.b) && Delivered(y.b, y.a)
  {
    ExhaustedIdle(y, EndA);
    ExhaustedIdle(y, EndB);
    FromEnd(y, EndB);
    IdleDelivers(y.a, y.b);
    IdleDelivers(y.b, y.a);
  }

  // ----- every schedule -----

  // Arrivals and continuations each of which does something.
  predicate Effective(y: Joint, moves: seq<Move>)
    decreases |moves|
  {
    moves == [] || (!moves[0].Submits? && Step(y, moves[0]) != y && Effective(Step(y, moves[0]), moves[1..]))
  }

  lemma {:induction false} SchedulesEnd(y: Joint, moves: seq<Move>)
    requires Reachable(y) && Effective(y, moves)
    ensures Reachable(Run(y, moves)) && SamePassed(y, Run(y, moves)) && |moves| <= WorkLeft(y)
    decreases |moves|
  {
    if moves != [] {
      var z := Step(y, moves[0]);
      StepLowersWork(y, moves[0]);
      SchedulesEnd(z, moves[1..]);
      SameTwice(y, z, Run(z, moves[1..]));
    }
  }

  // What is reached when nothing is left to do after y.
  predicate AllDelivered(y: Joint, z: Joint) {
    && Delivered(z.a, z.b) && Delivered(z.b, z.a)
    && At(z.a).m.done == Passed(y, EndA) && At(z.b).m.done == Passed(y, EndB)
  }

  lemma ExhaustedAll(y: Joint, z: Joint)
    requires Reachable(z) && Exhausted(z) && SamePassed(y, z)
    ensures AllDelivered(y, z)
  {
    ReachedPaired(z);
    ExhaustedDelivers(z);
  }

  lemma AllSubmitted(moves: seq<Move>, at: End)
    ensures Passed(Run(Fresh, moves), at) == Submitted(Fresh, moves, at)
  {
    FreshReachable();
    PassedIsSubmitted(Fresh, moves, at);
    ConcatEmpty(Submitted(Fresh, moves, at));
  }

  // In every run of two joined sessions, with calls of send at both ends whenever they like: whatever bytes
  // arrive, in whatever portions, and whatever is continued next, from every point on this comes to an end
  // after at most so many steps - and when nothing is left to do, recv has returned at either end every
  // payload passed to send at the other, those of the calls in the run, of any size, whole and in order.
  lemma EveryScheduleDelivers(moves: seq<Move>, more: seq<Move>)
    requires Effective(Run(Fresh, moves), more)
    ensures Reachable(Run(Fresh, moves)) && |more| <= WorkLeft(Run(Fresh, moves))
    ensures var y := Run(Fresh, moves); Exhausted(Run(y, more)) ==> AllDelivered(y, Run(y, more))
    ensures forall at :: Passed(Run(Fresh, moves), at) == Submitted(Fresh, moves, at)
  {
    forall at ensures Passed(Run(Fresh, moves), at) == Submitted(Fresh, moves, at) {
      AllSubmitted(moves, at);
    }
    var y := Run(Fresh, moves);
    SchedulesEnd(y, more);
    if Exhausted(Run(y, more)) {
      ExhaustedAll(y, Run(y, more));
    }
  }

  // And at every point on the way recv has returned a front of them.
  lemma EveryStateInOrder(moves: seq<Move>, at: End)
    ensures var y := Run(Fresh, moves);
            A.AllSendable(DataFrames(Passed(y, at))) ==>
              BeforeFailure(At(Other(y, at)).m.results) <= Payloads(Passed(y, at))
  {
    var y := Run(Fresh, moves);
    ReachedPaired(y);
    FromEnd(y, at);
    if A.AllSendable(DataFrames(Passed(y, at))) {
      FrontReturned(Own(y, at), Other(y, at));
    }
  }

  lemma FrontOf(received: seq<R.Received>, sent: seq<seq<Byte>>)
    requires |received| <= |sent| && forall i :: 0 <= i < |received| ==> received[i] == R.Payload(sent[i])
    ensures received <= Payloads(sent)
  {
  }

  lemma FrontReturned(x: seq<Act>, z: seq<Act>)
    requires Pair(x, z) && A.AllSendable(DataFrames(Attempted(At(x).m)))
    ensures BeforeFailure(At(z).m.results) <= Payloads(Attempted(At(x).m))
  {
    FirstStream();
    PlainIsGentle(At(x).session.log, 1);
    EndToEndIntegrity([], x, [], z);
    FrontOf(BeforeFailure(At(z).m.results), Attempted(At(x).m));
  }

  // ----- some schedule -----

  lemma IdleStays(y: Joint, move: Move)
    requires Idle(Own(y, move.at), Other(y, move.at)) && !move.Submits?
    ensures Step(y, move) == y
  {
    var x, z := Own(y, move.at), Other(y, move.at);
    IdleDoesNothing(At(x), |In(x)|, Wire(At(z).session.log), move);
  }

  lemma NoneStays(y: Joint, move: Move)
    requires NextAt(y, move.at).None? && !move.Submits?
    ensures Step(y, move) == y
  {
    var x, z := Own(y, move.at), Other(y, move.at);
    NextActs(At(x), |In(x)|, Wire(At(z).session.log), move.at);
    IdleStays(y, move);
  }

  predicate Quiet(y: Joint) {
    NextAt(y, EndA).None? && NextAt(y, EndB).None?
  }

  lemma QuietExhausted(y: Joint)
    requires Quiet(y)
    ensures Exhausted(y)
  {
    forall move: Move | !move.Submits? ensures Step(y, move) == y {
      match move.at
      case EndA => NoneStays(y, move);
      case EndB => NoneStays(y, move);
    }
  }

  lemma NextShrinks(y: Joint, at: End)
    requires Reachable(y) && NextAt(y, at).Some?
    ensures var z := Step(y, NextAt(y, at).value);
            Reachable(z) && SamePassed(y, z) && WorkLeft(z) < WorkLeft(y)
  {
    var x, z := Own(y, at), Other(y, at);
    NextActs(At(x), |In(x)|, Wire(At(z).session.log), at);
    StepMoves(y, NextAt(y, at).value);
    StepLowersWork(y, NextAt(y, at).value);
  }

  // There is always a way to the end.
  lemma {:induction false} Settles(y: Joint) returns (moves: seq<Move>, end: Joint)
    requires Reachable(y)
    ensures end == Run(y, moves) && Reachable(end) && Exhausted(end) && SamePassed(y, end)
    decreases WorkLeft(y)
  {
    var at := if NextAt(y, EndA).Some? then EndA else EndB;
    match NextAt(y, at)
    case None =>
      moves, end := [], y;
      QuietExhausted(y);
    case Some(move) =>
      var z := Step(y, move);
      NextShrinks(y, at);
      var rest;
      rest, end := Settles(z);
      SameTwice(y, z, end);
      moves := [move] + rest;
      RunFirst(y, move, rest);
  }

  lemma FreeToSend(y: Joint, at: End)
    requires Reachable(y) && Exhausted(y)
    ensures !Outstanding(At(Own(y, at)).m.tx)
  {
    ReachedPaired(y);
    ExhaustedDelivers(y);
  }

  lemma MoreThenSame(y: Joint, z: Joint, end: Joint, at: End, payload: seq<Byte>)
    requires PassedMore(y, z, at, payload) && SamePassed(z, end)
    ensures PassedMore(y, end, at, payload)
  {
    match at
    case EndA =>
    case EndB =>
  }

  // One more payload at one end.
  lemma SendsOne(y: Joint, at: End, payload: seq<Byte>) returns (moves: seq<Move>, end: Joint)
    requires Reachable(y) && Exhausted(y)
    ensures end == Run(y, moves) && Reachable(end) && Exhausted(end) && PassedMore(y, end, at, payload)
  {
    var call := Submits(at, payload);
    var z := Step(y, call);
    FreeToSend(y, at);
    SubmitReaches(y, at, payload);
    var rest;
    rest, end := Settles(z);
    MoreThenSame(y, z, end, at, payload);
    moves := [call] + rest;
    RunFirst(y, call, rest);
  }

  predicate PassedAll(y: Joint, z: Joint, at: End, payloads: seq<seq<Byte>>) {
    Passed(z, at) == Passed(y, at) + payloads && Passed(z, OtherEnd(at)) == Passed(y, OtherEnd(at))
  }

  lemma NonePassed(y: Joint, at: End)
    ensures Run(y, []) == y && PassedAll(y, y, at, [])
  {
    ConcatEmpty(Passed(y, at));
  }

  lemma PassedOn(y: Joint, first: seq<Move>, rest: seq<Move>, at: End, payloads: seq<seq<Byte>>)
    requires payloads != [] && PassedMore(y, Run(y, first), at, payloads[0])
    requires PassedAll(Run(y, first), Run(Run(y, first), rest), at, payloads[1..])
    ensures Run(y, first + rest) == Run(Run(y, first), rest) && PassedAll(y, Run(y, first + rest), at, payloads)
  {
    RunConcat(y, first, rest);
    HeadTail(payloads);
    ConcatAssociative(Passed(y, at), [payloads[0]], payloads[1..]);
  }

  lemma {:induction false} SendsAll(y: Joint, at: End, payloads: seq<seq<Byte>>) returns (moves: seq<Move>, end: Joint)
    requires Reachable(y) && Exhausted(y)
    ensures end == Run(y, moves) && Reachable(end) && Exhausted(end) && PassedAll(y, end, at, payloads)
    decreases |payloads|
  {
    if payloads == [] {
      moves, end := [], y;
      NonePassed(y, at);
    } else {
      var first, z := SendsOne(y, at, payloads[0]);
      var rest;
      rest, end := SendsAll(z, at, payloads[1..]);
      moves := first + rest;
      PassedOn(y, first, rest, at, payloads);
    }
  }

  // For any payloads at both ends, any number of them and of any size a frame can have: there is a run of
  // the joint system in which all of them are sent, far above the window too, and returned at the other
  // end - each byte after it was sent, the window updates that let the sender go on included.
  lemma EveryPayloadGetsThrough(fromA: seq<seq<Byte>>, fromB: seq<seq<Byte>>) returns (moves: seq<Move>)
    requires A.AllSendable(DataFrames(fromA)) && A.AllSendable(DataFrames(fromB))
    ensures var z := Run(Fresh, moves);
            && Exhausted(z) && At(z.a).m.done == fromA && At(z.b).m.done == fromB
            && BeforeFailure(At(z.b).m.results) == Payloads(fromA)
            && BeforeFailure(At(z.a).m.results) == Payloads(fromB)
  {
    FreshReachable();
    var first, y := Settles(Fresh);
    var sendA, z := SendsAll(y, EndA, fromA);
    var sendB, end := SendsAll(z, EndB, fromB);
    RunConcat(Fresh, first, sendA);
    RunConcat(Fresh, first + sendA, sendB);
    moves := first + sendA + sendB;
    ConcatEmpty(fromA);
    ConcatEmpty(fromB);
    ReachedPaired(end);
    ExhaustedDelivers(end);
  }
}
