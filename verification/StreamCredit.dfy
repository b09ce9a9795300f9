/** The receiving half of a stream: the window it keeps and the credit it grants. */
module StreamCredit {
  import opened Bytes
  import opened YamuxFrames
  import opened Streams

  // Credit granted by the window updates among the frames sent.
  function Granted(sent: seq<Sent>): nat {
    if sent == [] then 0
    else
      var f := sent[|sent| - 1].frame;
      Granted(sent[..|sent| - 1]) + (if f.typ == TYPE_WINDOW_UPDATE then f.length else 0)
  }

  lemma GrantedAppend(sent: seq<Sent>, x: Sent)
    ensures Granted(sent + [x]) == Granted(sent) + (if x.frame.typ == TYPE_WINDOW_UPDATE then x.frame.length else 0)
  {
    assert (sent + [x])[..|sent|] == sent;
  }

  // At least half a window is open, and window plus bytes received is the initial window plus all
  // credit granted.
  predicate CreditInv(s: Stream) {
    && INITIAL_WINDOW / 2 <= s.recvWindow <= INITIAL_WINDOW
    && s.recvWindow + s.received == INITIAL_WINDOW + Granted(s.sent)
  }

  lemma DataKeepsCredit(s: Stream, data: seq<Byte>)
    requires CreditInv(s)
    ensures CreditInv(OnData(s, data))
  {
    var t := OnData(s, data);
    if |t.sent| > |s.sent| {
      GrantedAppend(s.sent, t.sent[|s.sent|]);
    }
  }

  lemma OtherKeepsCredit(s: Stream, e: Event)
    requires CreditInv(s) && !e.DataEvent?
    ensures CreditInv(Step(s, e))
  {
    var t := Step(s, e);
    if |t.sent| > |s.sent| {
      assert t.sent == s.sent + [t.sent[|s.sent|]];
      GrantedAppend(s.sent, t.sent[|s.sent|]);
    }
  }

  lemma StepKeepsCredit(s: Stream, e: Event)
    requires CreditInv(s)
    ensures CreditInv(Step(s, e))
  {
    if e.DataEvent? {
      DataKeepsCredit(s, e.payload);
    } else {
      OtherKeepsCredit(s, e);
    }
  }

  // In every run and for payloads of any size, above the window too.
  lemma {:induction false} WindowRecovers(s: Stream, events: seq<Event>)
    requires Ok(s) && CreditInv(s)
    ensures CreditInv(Run(s, events))
    decreases |events|
  {
    if events != [] {
      StepOk(s, events[0]);
      StepKeepsCredit(s, events[0]);
      WindowRecovers(Step(s, events[0]), events[1..]);
    }
  }

  // ----- how often the window is updated -----

  function Updates(sent: seq<Sent>): nat {
    if sent == [] then 0
    else Updates(sent[..|sent| - 1]) + (if sent[|sent| - 1].frame.typ == TYPE_WINDOW_UPDATE then 1 else 0)
  }

  lemma UpdatesAppend(sent: seq<Sent>, x: Sent)
    ensures Updates(sent + [x]) == Updates(sent) + (if x.frame.typ == TYPE_WINDOW_UPDATE then 1 else 0)
  {
    assert (sent + [x])[..|sent|] == sent;
  }

  // Every update so far was for more than half a window, 128 KB.
  predicate Rare(s: Stream) {
    0x2_0001 * Updates(s.sent) <= Granted(s.sent)
  }

  // The window update of a step, if it sends one.
  lemma UpdateIsBig(s: Stream, e: Event)
    requires CreditInv(s)
    ensures var t := Step(s, e);
            && |s.sent| <= |t.sent| <= |s.sent| + 1
            && t.sent == (if |t.sent| > |s.sent| then s.sent + [t.sent[|s.sent|]] else s.sent)
            && (|t.sent| > |s.sent| && t.sent[|s.sent|].frame.typ == TYPE_WINDOW_UPDATE ==>
                  t.sent[|s.sent|].frame.length >= 0x2_0001)
  {
    StepEmits(s, e);
  }

  lemma StepRare(s: Stream, e: Event)
    requires CreditInv(s) && Rare(s)
    ensures Rare(Step(s, e))
  {
    var t := Step(s, e);
    UpdateIsBig(s, e);
    if |t.sent| > |s.sent| {
      GrantedAppend(s.sent, t.sent[|s.sent|]);
      UpdatesAppend(s.sent, t.sent[|s.sent|]);
    }
  }

  lemma {:induction false} RunRare(s: Stream, events: seq<Event>)
    requires Ok(s) && CreditInv(s) && Rare(s)
    ensures Rare(Run(s, events)) && CreditInv(Run(s, events))
    decreases |events|
  {
    if events != [] {
      StepOk(s, events[0]);
      StepKeepsCredit(s, events[0]);
      StepRare(s, events[0]);
      RunRare(Step(s, events[0]), events[1..]);
    }
  }

  // In every run of a stream, however its data is cut: a window update is sent only for more than half a
  // window of bytes taken in since the one before, so there are at most so many.
  lemma UpdatesAreRare(id: nat, events: seq<Event>)
    ensures Ok(NewStream(id))
    ensures var t := Run(NewStream(id), events); 0x2_0001 * Updates(t.sent) <= t.received
  {
    NewStreamOk(id);
    RunRare(NewStream(id), events);
  }

  // The credit a peer is granted on the wire is the credit of the books exactly when the whole
  // window restored by the update fits 32 bits; a peer that keeps to its window never exceeds that.
  lemma GrantFitsExactly(s: Stream, data: seq<Byte>)
    requires CreditInv(s) && s.id < TWO_TO_THE_32
    ensures (forall f :: f in NewFrames(s, OnData(s, data)) ==> InRange(f)) <==>
            INITIAL_WINDOW - s.recvWindow + |data| < TWO_TO_THE_32
  {
    var t := OnData(s, data);
    if |t.sent| > |s.sent| {
      assert t.sent[|s.sent|..] == [t.sent[|s.sent|]];
      assert NewFrames(s, t) == [t.sent[|s.sent|].frame];
      assert t.sent[|s.sent|].frame.length == INITIAL_WINDOW - s.recvWindow + |data|;
      assert t.sent[|s.sent|].frame in NewFrames(s, t);
    }
  }
}
