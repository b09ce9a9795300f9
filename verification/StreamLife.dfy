/** The life cycle of a stream, and what follows from it for the frames it sends. */
module StreamLife {
  import opened Bytes
  import opened Records
  import opened YamuxFrames
  import opened Streams
  import opened StreamWrites

  // ----- the state is a function of the history -----

  predicate IsFin(x: Sent) {
    x.frame.typ == TYPE_DATA && HasFlag(x.frame.flags, FLAG_FIN)
  }

  function FinsSent(sent: seq<Sent>): nat {
    if sent == [] then 0 else FinsSent(sent[..|sent| - 1]) + (if IsFin(sent[|sent| - 1]) then 1 else 0)
  }

  lemma FinsAppend(sent: seq<Sent>, x: Sent)
    ensures FinsSent(sent + [x]) == FinsSent(sent) + (if IsFin(x) then 1 else 0)
  {
    assert (sent + [x])[..|sent|] == sent;
  }

  // What the state should be: closed after a reset or after both FINs.
  function Expected(ownFin: bool, peerFin: bool, reset: bool): LifeCycle {
    if reset || (ownFin && peerFin) then Closed
    else if ownFin then LocalClose
    else if peerFin then RemoteClose
    else Open
  }

  predicate MatchesHistory(s: Stream) {
    s.state == Expected(FinsSent(s.sent) > 0, s.finsSeen > 0, s.resets > 0) && FinsSent(s.sent) <= 1
  }

  lemma OneFrameFins(s: Stream, t: Stream)
    requires |s.sent| <= |t.sent| <= |s.sent| + 1 && t.sent[..|s.sent|] == s.sent
    ensures FinsSent(t.sent) == FinsSent(s.sent) + (if |t.sent| > |s.sent| && IsFin(t.sent[|s.sent|]) then 1 else 0)
  {
    if |t.sent| > |s.sent| {
      assert t.sent == s.sent + [t.sent[|s.sent|]];
      FinsAppend(s.sent, t.sent[|s.sent|]);
    } else {
      assert t.sent == s.sent;
    }
  }

  // ----- when reading is over -----

  predicate ReadingOver(s: Stream) {
    s.recv.closed <==> s.finsSeen + s.resets > 0
  }

  lemma {:induction false} RunReadingOver(s: Stream, events: seq<Event>)
    requires Ok(s) && ReadingOver(s)
    ensures ReadingOver(Run(s, events))
    decreases |events|
  {
    if events != [] {
      StepOk(s, events[0]);
      ReadingStep(s, events[0]);
      RunReadingOver(Step(s, events[0]), events[1..]);
    }
  }

  lemma ReadingStep(s: Stream, e: Event)
    requires Ok(s) && ReadingOver(s)
    ensures ReadingOver(Step(s, e))
  {
  }

  // In every run: a stream is closed for reading exactly when it has seen a FIN or was reset, by either side,
  // and then no reader is parked on it.  closeWrite leaves it open.
  lemma ReadingEndsExactly(id: nat, events: seq<Event>)
    ensures Ok(NewStream(id))
    ensures var t := Run(NewStream(id), events);
            && (t.recv.closed <==> t.finsSeen > 0 || t.resets > 0)
            && (t.finsSeen > 0 || t.resets > 0 ==> t.recv.waiting.None?)
  {
    NewStreamOk(id);
    RunReadingOver(NewStream(id), events);
    assert Ok(Run(NewStream(id), events));
  }

  // ----- what a stream announces -----

  // The frames with a flag among those sent.
  function Flagged(sent: seq<Sent>): seq<Frame> {
    if sent == [] then []
    else Flagged(sent[..|sent| - 1]) + (if sent[|sent| - 1].frame.flags != 0 then [sent[|sent| - 1].frame] else [])
  }

  lemma FlaggedAppend(sent: seq<Sent>, x: Sent)
    ensures Flagged(sent + [x]) == Flagged(sent) + (if x.frame.flags != 0 then [x.frame] else [])
  {
    assert (sent + [x])[..|sent|] == sent;
  }

  // What the calls of closeWrite and reset have to announce: a FIN when the write side was open, an RST when
  // the stream was not closed.
  function Announced(s: Stream, events: seq<Event>): seq<Frame>
    requires Ok(s)
    decreases |events|
  {
    if events == [] then []
    else
      StepOk(s, events[0]);
      Announces(s, events[0]) + Announced(Step(s, events[0]), events[1..])
  }

  function Announces(s: Stream, e: Event): seq<Frame> {
    if e.CloseWriteEvent? && (s.state.Open? || s.state.RemoteClose?) then [Frame(0, 0x04, s.id, 0, [])]
    else if e.ResetEvent? && !s.state.Closed? then [Frame(0, 0x08, s.id, 0, [])]
    else []
  }

  // No other step sends a frame with a flag.
  lemma OthersUnflagged(s: Stream, e: Event)
    requires !e.CloseWriteEvent? && !e.ResetEvent?
    ensures var t := Step(s, e);
            |s.sent| <= |t.sent| <= |s.sent| + 1 && (|t.sent| > |s.sent| ==> t.sent[|s.sent|].frame.flags == 0)
  {
  }

  lemma CloseAnnounces(s: Stream, e: Event)
    requires e.CloseWriteEvent? || e.ResetEvent?
    ensures Frames(Step(s, e).sent[|s.sent|..]) == Announces(s, e) && |Step(s, e).sent| <= |s.sent| + 1
    ensures |s.sent| <= |Step(s, e).sent|
  {
  }

  lemma UnflaggedStep(s: Stream, e: Event)
    requires !e.CloseWriteEvent? && !e.ResetEvent?
    ensures Flagged(Step(s, e).sent) == Flagged(s.sent)
  {
    var t := Step(s, e);
    OthersUnflagged(s, e);
    ConcatEmpty(Flagged(s.sent));
    LastSent(s, e);
    if |t.sent| > |s.sent| {
      FlaggedAppend(s.sent, t.sent[|s.sent|]);
    }
  }

  // A step appends one entry or none.
  lemma LastSent(s: Stream, e: Event)
    ensures var t := Step(s, e);
            |s.sent| <= |t.sent| <= |s.sent| + 1 &&
            t.sent == if |t.sent| > |s.sent| then s.sent + [t.sent[|s.sent|]] else s.sent
  {
    StepEmits(s, e);
  }

  lemma StepAnnounces(s: Stream, e: Event)
    ensures Flagged(Step(s, e).sent) == Flagged(s.sent) + Announces(s, e)
  {
    ConcatEmpty(Flagged(s.sent));
    if e.CloseWriteEvent? || e.ResetEvent? {
      CloseAnnounces(s, e);
      LastSent(s, e);
      var t := Step(s, e);
      if |t.sent| > |s.sent| {
        assert Frames(t.sent[|s.sent|..])[0] == t.sent[|s.sent|].frame;
        FlaggedAppend(s.sent, t.sent[|s.sent|]);
      }
    } else {
      UnflaggedStep(s, e);
    }
  }

  // In every run: the frames with a flag that a stream sends are, in order, a FIN for each closeWrite that
  // found the write side open and an RST for each reset that found the stream not closed, and no others.
  lemma {:induction false} AnnouncedExactly(s: Stream, events: seq<Event>)
    requires Ok(s)
    ensures Flagged(Run(s, events).sent) == Flagged(s.sent) + Announced(s, events)
    decreases |events|
  {
    if events == [] {
      ConcatEmpty(Flagged(s.sent));
    } else {
      StepOk(s, events[0]);
      StepAnnounces(s, events[0]);
      AnnouncedExactly(Step(s, events[0]), events[1..]);
      ConcatAssociative(Flagged(s.sent), Announces(s, events[0]), Announced(Step(s, events[0]), events[1..]));
    }
  }

  // The one way to fall out of step: a FIN that arrives on a closed stream reopens its write side.
  predicate ReopensClosed(s: Stream, e: Event) {
    e.RemoteCloseEvent? && s.state.Closed?
  }

  lemma CloseWriteFins(s: Stream)
    requires !WriteClosed(s)
    ensures FinsSent(CloseWrite(s).sent) == FinsSent(s.sent) + 1
  {
    FinsAppend(s.sent, Sent(Frame(TYPE_DATA, FLAG_FIN, s.id, 0, []), None));
  }

  lemma CloseWriteLife(s: Stream)
    requires MatchesHistory(s)
    ensures MatchesHistory(CloseWrite(s))
  {
    if !WriteClosed(s) {
      CloseWriteFins(s);
    }
  }

  lemma ResetLife(s: Stream)
    requires MatchesHistory(s)
    ensures MatchesHistory(Reset(s))
  {
    FinsAppend(s.sent, Sent(Frame(TYPE_DATA, FLAG_RST, s.id, 0, []), None));
  }

  lemma OtherLife(s: Stream, e: Event)
    requires MatchesHistory(s)
    requires e.WriteEvent? || e.ResumeEvent? || e.ReadEvent? || e.DataEvent? || e.WindowUpdateEvent?
    ensures MatchesHistory(Step(s, e))
  {
    FinOnlyByCloseWrite(s, e);
    OneFrameFins(s, Step(s, e));
    StateKept(s, e);
  }

  lemma {:induction false} LifeStepExactly(s: Stream, e: Event)
    requires MatchesHistory(s)
    ensures MatchesHistory(Step(s, e)) <==> !ReopensClosed(s, e)
  {
    match e
    case CloseWriteEvent => CloseWriteLife(s);
    case ResetEvent => ResetLife(s);
    case RemoteCloseEvent =>
    case RemoteResetEvent =>
    case _ => OtherLife(s, e);
  }

  lemma StateKept(s: Stream, e: Event)
    requires e.WriteEvent? || e.ResumeEvent? || e.ReadEvent? || e.DataEvent? || e.WindowUpdateEvent?
    ensures var t := Step(s, e); t.state == s.state && t.finsSeen == s.finsSeen && t.resets == s.resets
  {
  }

  lemma FinOnlyByCloseWrite(s: Stream, e: Event)
    ensures var t := Step(s, e);
            && |s.sent| <= |t.sent| <= |s.sent| + 1 && t.sent[..|s.sent|] == s.sent
            && (|t.sent| > |s.sent| && IsFin(t.sent[|s.sent|]) <==> e.CloseWriteEvent? && !WriteClosed(s))
  {
  }

  // The state matches the history before, between and after all steps of a run.
  predicate MatchesThroughout(s: Stream, events: seq<Event>)
    requires Ok(s)
    decreases |events|
  {
    MatchesHistory(s) &&
    (events == [] || (StepOk(s, events[0]); MatchesThroughout(Step(s, events[0]), events[1..])))
  }

  predicate NeverReopens(s: Stream, events: seq<Event>)
    requires Ok(s)
    decreases |events|
  {
    events == [] ||
    (!ReopensClosed(s, events[0]) && (StepOk(s, events[0]); NeverReopens(Step(s, events[0]), events[1..])))
  }

  // For every run: the state is throughout the function of (own FIN sent, peer FIN seen, reset) it
  // should be, and FIN is sent at most once, exactly when no FIN arrives on a closed stream.
  lemma {:induction false} LifeCycleExactly(s: Stream, events: seq<Event>)
    requires Ok(s) && MatchesHistory(s)
    ensures MatchesThroughout(s, events) <==> NeverReopens(s, events)
    decreases |events|
  {
    if events != [] {
      StepOk(s, events[0]);
      LifeStepExactly(s, events[0]);
      if !ReopensClosed(s, events[0]) {
        LifeCycleExactly(Step(s, events[0]), events[1..]);
      }
    }
  }

  // `closed` is final.
  lemma {:induction false} ClosedIsFinal(s: Stream, events: seq<Event>)
    requires Ok(s) && s.state.Closed? && NeverReopens(s, events)
    ensures Run(s, events).state.Closed?
    decreases |events|
  {
    if events != [] {
      StepOk(s, events[0]);
      ClosedIsFinal(Step(s, events[0]), events[1..]);
    }
  }

  // A second FIN reopens the write side of a closed stream, and the next closeWrite sends a second
  // FIN of its own.
  lemma {:induction false} SecondFinReopens(id: nat)
    ensures var closed := OnRemoteClose(CloseWrite(NewStream(id)));
            var reopened := OnRemoteClose(closed);
            && closed.state == Closed && MatchesHistory(closed)
            && reopened.state == RemoteClose
            && FinsSent(CloseWrite(reopened).sent) == 2
  {
    CloseWriteFins(NewStream(id));
    CloseWriteFins(OnRemoteClose(OnRemoteClose(CloseWrite(NewStream(id)))));
  }

  // ----- FIN is the last data-type frame -----

  // Nothing can be sent any more: the write side is closed and no write is suspended.
  predicate Silent(s: Stream) {
    WriteClosed(s) && s.waiters == [] && s.woken == []
  }

  lemma SilentStays(s: Stream, e: Event)
    requires Silent(s) && !ReopensClosed(s, e)
    ensures Silent(Step(s, e))
  {
  }

  // A silent stream sends at most a frame without data.
  lemma SilentFrame(s: Stream, e: Event)
    requires Silent(s)
    ensures var t := Step(s, e);
            t.sent == s.sent || (|t.sent| == |s.sent| + 1 && t.sent == s.sent + [t.sent[|s.sent|]]
                                 && t.sent[|s.sent|].frame.payload == [])
  {
  }

  lemma SilentStep(s: Stream, e: Event)
    requires Ok(s) && Silent(s) && !ReopensClosed(s, e)
    ensures Silent(Step(s, e)) && Payloads(Step(s, e).sent) == Payloads(s.sent)
  {
    var t := Step(s, e);
    SilentStays(s, e);
    SilentFrame(s, e);
    if t.sent != s.sent {
      PayloadsAppend(s.sent, t.sent[|s.sent|]);
      ConcatEmpty(Payloads(s.sent));
    }
  }

  lemma {:induction false} SilentForever(s: Stream, events: seq<Event>)
    requires Ok(s) && Silent(s) && NeverReopens(s, events)
    ensures Payloads(Run(s, events).sent) == Payloads(s.sent)
    decreases |events|
  {
    if events != [] {
      StepOk(s, events[0]);
      SilentStep(s, events[0]);
      SilentForever(Step(s, events[0]), events[1..]);
    }
  }

  lemma ResumeSends(s: Stream)
    requires Ok(s) && s.woken != [] && s.sendWindow > 0
    ensures |Payloads(Resume(s, 0).sent)| > |Payloads(s.sent)|
  {
    var w := s.woken[0];
    var u := Resume(s, 0);
    var chunk := Min(|w.data| - w.offset, s.sendWindow);
    var x := Sent(Frame(TYPE_DATA, 0, s.id, chunk, w.data[w.offset..w.offset + chunk]), Some(w.write));
    assert u.sent == s.sent + [x];
    SentAppend(s.sent, x);
  }

  lemma RunTwo(s: Stream, a: Event, b: Event)
    requires Ok(s)
    ensures Ok(Step(s, a))
    ensures Run(s, [a, b]) == Step(Step(s, a), b)
    ensures !ReopensClosed(s, a) && !ReopensClosed(Step(s, a), b) ==> NeverReopens(s, [a, b])
  {
    StepOk(s, a);
    var t := Step(s, a);
    StepOk(t, b);
    assert [a, b][1..] == [b] && [b][1..] == [];
    assert Run(Step(t, b), []) == Step(t, b);
    assert Run(t, [b]) == Step(t, b);
    assert NeverReopens(Step(t, b), []);
    assert !ReopensClosed(t, b) ==> NeverReopens(t, [b]);
  }

  // Any credit wakes every suspended write.
  lemma CreditWakes(s: Stream, delta: nat)
    requires SendInv(s) && Pending(s) != [] && delta > 0
    ensures var t := OnWindowUpdate(s, delta); t.woken == Pending(s) && t.sendWindow > 0 && t.sent == s.sent
  {
    WindowUpdatePending(s, delta);
    AllOrNone(s.waiters, s.sendWindow + delta);
  }

  // A suspended write goes on sending once there is credit.
  lemma {:induction false} SuspendedWriteSends(s: Stream)
    requires Ok(s) && SendInv(s) && Pending(s) != []
    ensures var events := [WindowUpdateEvent(1), ResumeEvent(0)];
            NeverReopens(s, events) && |Payloads(Run(s, events).sent)| > |Payloads(s.sent)|
  {
    CreditWakes(s, 1);
    RunTwo(s, WindowUpdateEvent(1), ResumeEvent(0));
    ResumeSends(OnWindowUpdate(s, 1));
  }

  // No continuation without a FIN on the closed stream sends a DATA byte.
  ghost predicate NothingFollows(s: Stream)
    requires Ok(s)
  {
    forall events :: NeverReopens(s, events) ==> Payloads(Run(s, events).sent) == Payloads(s.sent)
  }

  lemma FinThenSilent(s: Stream)
    requires Ok(s) && !WriteClosed(s) && Pending(s) == []
    ensures Ok(CloseWrite(s)) && NothingFollows(CloseWrite(s))
  {
    var t := CloseWrite(s);
    StepOk(s, CloseWriteEvent);
    assert |s.woken| + |s.waiters| == |Pending(s)| == 0;
    forall events | NeverReopens(t, events) ensures Payloads(Run(t, events).sent) == Payloads(t.sent) {
      SilentForever(t, events);
    }
  }

  lemma SuspendedMeansMore(s: Stream)
    requires Ok(s) && SendInv(s) && Pending(s) != []
    ensures !NothingFollows(s)
  {
    SuspendedWriteSends(s);
  }

  lemma FinThenData(s: Stream)
    requires Ok(s) && SendInv(s) && !WriteClosed(s) && Pending(s) != []
    ensures Ok(CloseWrite(s)) && !NothingFollows(CloseWrite(s))
  {
    assert CloseWrite(s) == Step(s, CloseWriteEvent);
    StepOk(s, CloseWriteEvent);
    StepKeeps(s, CloseWriteEvent);
    CloseWriteKeepsPending(s);
    SuspendedMeansMore(CloseWrite(s));
  }

  lemma CloseWriteKeepsPending(s: Stream)
    ensures Pending(CloseWrite(s)) == Pending(s)
  {
  }

  // No DATA byte follows the stream's own FIN, in any continuation in which no FIN arrives on the closed
  // stream, exactly when no write is suspended at the time of closeWrite.  The receiving half is
  // untouched: it goes on reading and granting credit.
  lemma FinIsLastExactly(s: Stream)
    requires Ok(s) && SendInv(s) && !WriteClosed(s)
    ensures Ok(CloseWrite(s)) && FinsSent(CloseWrite(s).sent) == FinsSent(s.sent) + 1
    ensures NothingFollows(CloseWrite(s)) <==> Pending(s) == []
    ensures CloseWrite(s).recv == s.recv && CloseWrite(s).recvWindow == s.recvWindow
  {
    StepOk(s, CloseWriteEvent);
    FinOnlyByCloseWrite(s, CloseWriteEvent);
    OneFrameFins(s, CloseWrite(s));
    if Pending(s) == [] {
      FinThenSilent(s);
    } else {
      FinThenData(s);
    }
  }

  // ----- and when FINs do arrive on the closed stream -----

  // The peer grants a byte and sends two FINs, the second one on a closed stream; then write(x).
  function FinsThenWrite(x: Byte): seq<Event> {
    [WindowUpdateEvent(1), RemoteCloseEvent, RemoteCloseEvent, WriteEvent([x])]
  }

  lemma RunFirst(s: Stream, events: seq<Event>)
    requires Ok(s) && events != []
    ensures Ok(Step(s, events[0])) && Run(s, events) == Run(Step(s, events[0]), events[1..])
  {
    StepOk(s, events[0]);
  }

  lemma RunFour(s: Stream, a: Event, b: Event, c: Event, d: Event)
    requires Ok(s)
    ensures Run(s, [a, b, c, d]) == Step(Step(Step(Step(s, a), b), c), d)
  {
    RunFirst(s, [a, b, c, d]);
    assert [a, b, c, d][1..] == [b, c, d];
    var t := Step(s, a);
    RunFirst(t, [b, c, d]);
    assert [b, c, d][1..] == [c, d];
    RunTwo(Step(t, b), c, d);
  }

  lemma OneByteWrite(s: Stream, x: Byte)
    requires !WriteClosed(s) && s.sendWindow > 0
    ensures Payloads(Write(s, [x]).sent) == Payloads(s.sent) + [x]
  {
    assert [x][0..1] == [x];
    PayloadsAppend(s.sent, Sent(Frame(TYPE_DATA, 0, s.id, 1, [x]), Some(|s.writes|)));
  }

  lemma TwoFinsReopen(t: Stream)
    requires WriteClosed(t) && t.sendWindow >= 0
    ensures var u := OnRemoteClose(OnRemoteClose(OnWindowUpdate(t, 1)));
            !WriteClosed(u) && u.sendWindow > 0 && u.sent == t.sent
  {
  }

  lemma CloseWritePayloads(s: Stream)
    ensures Payloads(CloseWrite(s).sent) == Payloads(s.sent)
  {
    PayloadsAppend(s.sent, Sent(Frame(TYPE_DATA, FLAG_FIN, s.id, 0, []), None));
    ConcatEmpty(Payloads(s.sent));
  }

  // Then nothing is safe: after the own FIN of every stream, a DATA byte goes out once a second FIN has
  // reopened it, whether or not a write was suspended.
  lemma ReopenedSendsAgain(s: Stream, x: Byte)
    requires Ok(s) && SendInv(s) && !WriteClosed(s)
    ensures Ok(CloseWrite(s))
    ensures Payloads(Run(CloseWrite(s), FinsThenWrite(x)).sent) == Payloads(s.sent) + [x]
  {
    StepOk(s, CloseWriteEvent);
    CloseWritePayloads(s);
    FinsThenByte(CloseWrite(s), x);
  }

  lemma FinsRun(t: Stream, x: Byte)
    requires Ok(t)
    ensures Run(t, FinsThenWrite(x)) == Write(OnRemoteClose(OnRemoteClose(OnWindowUpdate(t, 1))), [x])
  {
    RunFour(t, WindowUpdateEvent(1), RemoteCloseEvent, RemoteCloseEvent, WriteEvent([x]));
  }

  lemma FinsThenByte(t: Stream, x: Byte)
    requires Ok(t) && WriteClosed(t) && t.sendWindow >= 0
    ensures Payloads(Run(t, FinsThenWrite(x)).sent) == Payloads(t.sent) + [x]
  {
    FinsRun(t, x);
    TwoFinsReopen(t);
    OneByteWrite(OnRemoteClose(OnRemoteClose(OnWindowUpdate(t, 1))), x);
  }

  // The case without a window update or a suspended write: a new stream, half-closed and reopened.
  lemma DataAfterFin(id: nat, x: Byte)
    ensures var s := CloseWrite(NewStream(id));
            && Pending(NewStream(id)) == [] && FinsSent(s.sent) == 1
            && Payloads(s.sent) == [] && Payloads(Write(OnRemoteClose(OnRemoteClose(s)), [x]).sent) == [x]
  {
    var s := NewStream(id);
    CloseWritePayloads(s);
    CloseWriteFins(s);
    assert Pending(s) == [];
    ConcatEmpty([x]);
    OneByteWrite(OnRemoteClose(OnRemoteClose(CloseWrite(s))), x);
  }
}
