/** The sending half of a stream, for any number of concurrent writes and any scheduling of them:
    the window is never overdrawn, every write's bytes go out once and in order, no wakeup is lost,
    and enough credit finishes every write. */
module StreamWrites {
  import opened Bytes
  import opened YamuxFrames
  import opened Streams

  // ----- what was sent -----

  // The payload bytes of all frames sent, in order.
  function Payloads(sent: seq<Sent>): seq<Byte> {
    if sent == [] then [] else Payloads(sent[..|sent| - 1]) + sent[|sent| - 1].frame.payload
  }

  // The payload bytes sent for one write.
  function SlicesOf(sent: seq<Sent>, write: nat): seq<Byte> {
    if sent == [] then []
    else
      var last := sent[|sent| - 1];
      SlicesOf(sent[..|sent| - 1], write) + (if last.write == Some(write) then last.frame.payload else [])
  }

  lemma SentAppend(sent: seq<Sent>, x: Sent)
    ensures Payloads(sent + [x]) == Payloads(sent) + x.frame.payload
    ensures forall i: nat :: SlicesOf(sent + [x], i) ==
                             if x.write == Some(i) then SlicesOf(sent, i) + x.frame.payload else SlicesOf(sent, i)
  {
    assert (sent + [x])[..|sent|] == sent;
    forall i: nat ensures SlicesOf(sent, i) + [] == SlicesOf(sent, i) {
    }
  }

  lemma PayloadsAppend(sent: seq<Sent>, x: Sent)
    ensures Payloads(sent + [x]) == Payloads(sent) + x.frame.payload
  {
    assert (sent + [x])[..|sent|] == sent;
  }

  // ----- what is still to be sent -----

  function Writers(ws: seq<Waiter>): (out: seq<Writer>)
    ensures |out| == |ws|
    ensures forall i :: 0 <= i < |ws| ==> out[i] == ws[i].writer
  {
    seq(|ws|, i requires 0 <= i < |ws| => ws[i].writer)
  }

  // Every suspended write: the woken ones, then the parked ones.
  function Pending(s: Stream): seq<Writer> {
    s.woken + Writers(s.waiters)
  }

  function Left(w: Writer): int {
    |w.data| - w.offset
  }

  function Remaining(ws: seq<Writer>): int {
    if ws == [] then 0 else Left(ws[0]) + Remaining(ws[1..])
  }

  function Demand(writes: seq<seq<Byte>>): nat {
    if writes == [] then 0 else Demand(writes[..|writes| - 1]) + |writes[|writes| - 1]|
  }

  lemma {:induction false} RemainingConcat(a: seq<Writer>, b: seq<Writer>)
    ensures Remaining(a + b) == Remaining(a) + Remaining(b)
  {
    if a == [] {
      assert a + b == b;
    } else {
      RemainingConcat(a[1..], b);
      assert (a + b)[1..] == a[1..] + b;
    }
  }

  lemma RemainingAppend(a: seq<Writer>, w: Writer)
    ensures Remaining(a + [w]) == Remaining(a) + Left(w)
  {
    RemainingConcat(a, [w]);
    assert [w][1..] == [];
  }

  // ----- the books -----

  // What the frames sent, the window and the calls amount to: payload bytes sent, the slices sent
  // for each call, the window, the credit and the calls' arguments.
  datatype Ledger = Ledger(paid: nat, slices: seq<seq<Byte>>, window: int, credit: nat, writes: seq<seq<Byte>>)

  function SliceList(sent: seq<Sent>, n: nat): (out: seq<seq<Byte>>)
    ensures |out| == n
    ensures forall i :: 0 <= i < n ==> out[i] == SlicesOf(sent, i)
  {
    seq(n, i requires 0 <= i < n => SlicesOf(sent, i))
  }

  function LedgerOf(s: Stream): Ledger {
    Ledger(|Payloads(s.sent)|, SliceList(s.sent, |s.writes|), s.sendWindow, s.credit, s.writes)
  }

  predicate Distinct(ws: seq<Writer>) {
    forall i, j :: 0 <= i < j < |ws| ==> ws[i].write != ws[j].write
  }

  predicate Absent(ws: seq<Writer>, write: nat) {
    forall i :: 0 <= i < |ws| ==> ws[i].write != write
  }

  // An unfinished call: what was sent for it is the front of its argument.
  predicate Entry(l: Ledger, w: Writer) {
    && w.write < |l.writes| == |l.slices|
    && w.data == l.writes[w.write]
    && w.offset <= |w.data|
    && l.slices[w.write] == w.data[..w.offset]
  }

  // The accounts when `ws` are the calls not finished yet: bytes sent and window make up the
  // initial window and the credit; sent and left make up the demand; every other call has sent its
  // whole argument.
  predicate Balanced(l: Ledger, ws: seq<Writer>) {
    && |l.slices| == |l.writes|
    && l.window >= 0
    && l.paid + l.window == INITIAL_WINDOW + l.credit
    && l.paid + Remaining(ws) == Demand(l.writes)
    && Distinct(ws)
    && (forall i :: 0 <= i < |ws| ==> Entry(l, ws[i]))
    && (forall k {:trigger Absent(ws, k)} :: 0 <= k < |l.writes| && Absent(ws, k) ==> l.slices[k] == l.writes[k])
  }

  // Frames belong to calls that were made.
  predicate Known(sent: seq<Sent>, n: nat) {
    forall i :: 0 <= i < |sent| ==> sent[i].write.None? || sent[i].write.value < n
  }

  // A parked writer means that there is nothing to send with: no wakeup is lost.
  predicate WaitersStarved(s: Stream) {
    && (s.waiters != [] ==> s.sendWindow == 0)
    && (forall i :: 0 <= i < |s.waiters| ==> s.waiters[i].need == 1)
  }

  predicate Booked(s: Stream, ws: seq<Writer>) {
    Known(s.sent, |s.writes|) && Balanced(LedgerOf(s), ws)
  }

  predicate SendInv(s: Stream) {
    Booked(s, Pending(s)) && WaitersStarved(s)
  }

  // ----- the ledger -----

  // Paying `slice` for the call at the end of the list.
  function Pay(l: Ledger, w: Writer, slice: seq<Byte>): Ledger
    requires w.write < |l.slices|
  {
    l.(paid := l.paid + |slice|, window := l.window - |slice|, slices := l.slices[w.write := l.slices[w.write] + slice])
  }

  lemma PayBalanced(l: Ledger, ws: seq<Writer>, w: Writer, chunk: nat)
    requires Balanced(l, ws + [w]) && chunk <= l.window && w.offset + chunk <= |w.data|
    ensures w.write < |l.slices|
    ensures Balanced(Pay(l, w, w.data[w.offset..w.offset + chunk]), ws + [w.(offset := w.offset + chunk)])
  {
    var v := w.(offset := w.offset + chunk);
    var before, after := ws + [w], ws + [v];
    assert before[|ws|] == w && after[|ws|] == v;
    assert Entry(l, w);
    RemainingAppend(ws, w);
    RemainingAppend(ws, v);
    var p := Pay(l, w, w.data[w.offset..w.offset + chunk]);
    assert w.data[..v.offset] == w.data[..w.offset] + w.data[w.offset..v.offset];
    forall i | 0 <= i < |after| ensures Entry(p, after[i]) && after[i].write == before[i].write {
      assert Entry(l, before[i]);
      assert i < |ws| ==> before[i].write != before[|ws|].write;
    }
    forall k | 0 <= k < |p.writes| && Absent(after, k) ensures p.slices[k] == p.writes[k] {
      forall i | 0 <= i < |before| ensures before[i].write != k {
        assert after[i].write != k;
      }
      assert Absent(before, k) && before[|ws|].write != k;
    }
  }

  // A call that has sent everything leaves the list.
  lemma LeaveBalanced(l: Ledger, ws: seq<Writer>, w: Writer)
    requires Balanced(l, ws + [w]) && w.offset == |w.data|
    ensures Balanced(l, ws)
  {
    var all := ws + [w];
    RemainingAppend(ws, w);
    assert all[|ws|] == w && Entry(l, all[|ws|]);
    forall i | 0 <= i < |ws| ensures Entry(l, ws[i]) && ws[i] == all[i] {
      assert Entry(l, all[i]);
    }
    assert Distinct(ws);
    forall k | 0 <= k < |l.writes| && Absent(ws, k) ensures l.slices[k] == l.writes[k] {
      if k == w.write {
        assert w.data[..w.offset] == w.data;
      } else {
        assert Absent(all, k);
      }
    }
  }

  // A new call joins the list.
  lemma JoinBalanced(l: Ledger, ws: seq<Writer>, data: seq<Byte>)
    requires Balanced(l, ws)
    ensures Balanced(l.(writes := l.writes + [data], slices := l.slices + [[]]), ws + [Writer(|l.writes|, data, 0)])
  {
    var w := Writer(|l.writes|, data, 0);
    var all, m := ws + [w], l.(writes := l.writes + [data], slices := l.slices + [[]]);
    RemainingAppend(ws, w);
    assert m.writes[..|l.writes|] == l.writes;
    assert all[|ws|] == w;
    forall i | 0 <= i < |all| ensures Entry(m, all[i]) && (i < |ws| ==> all[i].write < |l.writes|) {
      if i < |ws| {
        assert all[i] == ws[i] && Entry(l, ws[i]);
      }
    }
    forall k | 0 <= k < |m.writes| && Absent(all, k) ensures m.slices[k] == m.writes[k] {
      assert all[|ws|].write == |l.writes|;
      forall i | 0 <= i < |ws| ensures ws[i].write != k {
        assert all[i].write != k;
      }
      assert Absent(ws, k);
    }
    assert Distinct(all);
  }

  lemma {:induction false} RemainingRemove(ws: seq<Writer>, k: nat)
    requires k < |ws|
    ensures Remaining(ws) == Remaining(ws[..k] + ws[k + 1..]) + Left(ws[k])
    decreases k
  {
    if k == 0 {
      assert ws[..0] + ws[1..] == ws[1..];
    } else {
      var rest := ws[1..];
      RemainingRemove(rest, k - 1);
      assert (ws[..k] + ws[k + 1..])[1..] == rest[..k - 1] + rest[k..];
    }
  }

  // Where the i-th entry was before the k-th was moved to the end.
  function Source(k: nat, n: nat, i: nat): nat {
    if i < k then i else if i == n - 1 then k else i + 1
  }

  // The order of the list does not matter.
  lemma RotateBalanced(l: Ledger, ws: seq<Writer>, k: nat)
    requires k < |ws| && Balanced(l, ws)
    ensures Balanced(l, ws[..k] + ws[k + 1..] + [ws[k]])
  {
    var after := ws[..k] + ws[k + 1..] + [ws[k]];
    RemainingRemove(ws, k);
    RemainingAppend(ws[..k] + ws[k + 1..], ws[k]);
    forall i | 0 <= i < |after| ensures Entry(l, after[i]) && after[i] == ws[Source(k, |ws|, i)] {
    }
    forall j | 0 <= j < |l.writes| && Absent(after, j) ensures Absent(ws, j) {
      forall i | 0 <= i < |ws| ensures ws[i].write != j {
        assert after[if i < k then i else if i == k then |ws| - 1 else i - 1] == ws[i];
      }
    }
  }

  // ----- every step keeps the books -----

  lemma SendingLedger(s: Stream, w: Writer, chunk: nat)
    requires w.offset + chunk <= |w.data| && w.write < |s.writes| && Known(s.sent, |s.writes|)
    ensures var t := Sending(s, w, chunk);
            && Known(t.sent, |t.writes|)
            && LedgerOf(t) == Pay(LedgerOf(s), w, w.data[w.offset..w.offset + chunk])
  {
    var t := Sending(s, w, chunk);
    var x := t.sent[|s.sent|];
    assert t.sent == s.sent + [x];
    SentAppend(s.sent, x);
    var p := Pay(LedgerOf(s), w, x.frame.payload);
    assert SliceList(t.sent, |s.writes|) == p.slices;
  }

  predicate Advancing(s: Stream, w: Writer) {
    Booked(s, Pending(s) + [w]) && w.offset <= |w.data| && WaitersStarved(s)
  }

  lemma ParkKeeps(s: Stream, w: Writer)
    requires Advancing(s, w) && Suspendable(w) && s.sendWindow == 0
    ensures SendInv(Park(s, w))
  {
    var t := Park(s, w);
    assert Pending(t) == Pending(s) + [w];
    assert LedgerOf(t) == LedgerOf(s);
  }

  lemma DoneKeeps(s: Stream, w: Writer)
    requires Advancing(s, w) && w.offset == |w.data|
    ensures SendInv(s)
  {
    LeaveBalanced(LedgerOf(s), Pending(s), w);
  }

  lemma SendAdvancing(s: Stream, w: Writer, chunk: nat)
    requires Advancing(s, w) && w.offset + chunk <= |w.data| && chunk <= s.sendWindow
    requires s.waiters == []
    ensures Advancing(Sending(s, w, chunk), w.(offset := w.offset + chunk))
  {
    PayBalanced(LedgerOf(s), Pending(s), w, chunk);
    SendingLedger(s, w, chunk);
    assert Pending(Sending(s, w, chunk)) == Pending(s);
  }

  lemma SendAllKeeps(s: Stream, w: Writer)
    requires Advancing(s, w) && 0 < |w.data| - w.offset <= s.sendWindow
    ensures SendInv(Advance(s, w))
  {
    var chunk := |w.data| - w.offset;
    SendAdvancing(s, w, chunk);
    DoneKeeps(Sending(s, w, chunk), w.(offset := w.offset + chunk));
    assert Advance(s, w) == Sending(s, w, chunk);
  }

  lemma SendSomeKeeps(s: Stream, w: Writer)
    requires Advancing(s, w) && 0 < s.sendWindow < |w.data| - w.offset
    ensures SendInv(Advance(s, w))
  {
    var t, v := Sending(s, w, s.sendWindow), w.(offset := w.offset + s.sendWindow);
    SendAdvancing(s, w, s.sendWindow);
    ParkKeeps(t, v);
    assert Advance(s, w) == Park(t, v);
  }

  lemma AdvanceKeeps(s: Stream, w: Writer)
    requires Advancing(s, w)
    ensures SendInv(Advance(s, w))
  {
    if w.offset == |w.data| {
      DoneKeeps(s, w);
    } else if s.sendWindow <= 0 {
      ParkKeeps(s, w);
    } else if |w.data| - w.offset <= s.sendWindow {
      SendAllKeeps(s, w);
    } else {
      SendSomeKeeps(s, w);
    }
  }

  lemma {:induction false} UnknownEmpty(sent: seq<Sent>, n: nat)
    requires Known(sent, n)
    ensures SlicesOf(sent, n) == []
  {
    if sent != [] {
      UnknownEmpty(sent[..|sent| - 1], n);
      assert sent[|sent| - 1].write != Some(n);
    }
  }

  lemma WriteKeeps(s: Stream, data: seq<Byte>)
    requires SendInv(s)
    ensures SendInv(Write(s, data))
  {
    if !WriteClosed(s) {
      var t := s.(writes := s.writes + [data]);
      UnknownEmpty(s.sent, |s.writes|);
      JoinBalanced(LedgerOf(s), Pending(s), data);
      assert LedgerOf(t).slices == LedgerOf(s).slices + [[]];
      assert Pending(t) == Pending(s);
      AdvanceKeeps(t, Writer(|s.writes|, data, 0));
    }
  }

  lemma ResumeKeeps(s: Stream, k: nat)
    requires SendInv(s)
    ensures SendInv(Resume(s, k))
  {
    if k < |s.woken| {
      var ws := Pending(s);
      var t := s.(woken := s.woken[..k] + s.woken[k + 1..]);
      assert Pending(t) == ws[..k] + ws[k + 1..];
      assert LedgerOf(t) == LedgerOf(s);
      RotateBalanced(LedgerOf(s), ws, k);
      assert s.woken[k] == ws[k];
      AdvanceKeeps(t, s.woken[k]);
    }
  }

  lemma WritersFirst(ws: seq<Waiter>)
    requires ws != []
    ensures Writers(ws) == [ws[0].writer] + Writers(ws[1..])
  {
  }

  // All waiters ask for one byte: an update that opens the window wakes all of them, in order, and
  // one that does not wakes none.
  lemma {:induction false} AllOrNone(ws: seq<Waiter>, window: int)
    requires forall i :: 0 <= i < |ws| ==> ws[i].need == 1
    ensures window >= 1 ==> Ready(ws, window) == Writers(ws) && Still(ws, window) == []
    ensures window < 1 ==> Ready(ws, window) == [] && Still(ws, window) == ws
  {
    if ws != [] {
      AllOrNone(ws[1..], window);
      HeadTail(ws);
      WritersFirst(ws);
    }
  }

  lemma PartitionOne(x: Waiter, window: int)
    ensures Ready([x], window) == if window >= x.need then [x.writer] else []
    ensures Still([x], window) == if window >= x.need then [] else [x]
  {
    assert [x][1..] == [];
  }

  lemma WindowUpdatePending(s: Stream, delta: nat)
    requires s.sendWindow >= 0 && WaitersStarved(s)
    ensures Pending(OnWindowUpdate(s, delta)) == Pending(s)
    ensures WaitersStarved(OnWindowUpdate(s, delta))
  {
    var t := OnWindowUpdate(s, delta);
    AllOrNone(s.waiters, s.sendWindow + delta);
    if s.sendWindow + delta >= 1 {
      assert t.woken == s.woken + Writers(s.waiters) && t.waiters == [];
    } else {
      assert t.woken == s.woken && t.waiters == s.waiters;
    }
  }

  lemma WindowUpdateKeeps(s: Stream, delta: nat)
    requires SendInv(s)
    ensures SendInv(OnWindowUpdate(s, delta))
  {
    var l, t := LedgerOf(s), OnWindowUpdate(s, delta);
    WindowUpdatePending(s, delta);
    assert LedgerOf(t) == l.(window := l.window + delta, credit := l.credit + delta);
    assert forall w :: Entry(l, w) ==> Entry(LedgerOf(t), w);
    assert Balanced(LedgerOf(t), Pending(s));
  }

  lemma QuietFrame(sent: seq<Sent>, n: nat, x: Sent)
    requires x.write.None? && x.frame.payload == []
    ensures Payloads(sent + [x]) == Payloads(sent)
    ensures SliceList(sent + [x], n) == SliceList(sent, n)
  {
    SentAppend(sent, x);
    assert Payloads(sent) + [] == Payloads(sent);
    assert SliceList(sent + [x], n) == SliceList(sent, n);
  }

  // The log got a frame without payload, or none, and nothing the books look at changed.
  predicate QuietStep(s: Stream, t: Stream) {
    && t.sendWindow == s.sendWindow && t.credit == s.credit && t.writes == s.writes
    && t.waiters == s.waiters && t.woken == s.woken
    && |s.sent| <= |t.sent| <= |s.sent| + 1 && t.sent[..|s.sent|] == s.sent
    && (|t.sent| > |s.sent| ==> t.sent[|s.sent|].write.None? && t.sent[|s.sent|].frame.payload == [])
  }

  lemma QuietKeeps(s: Stream, t: Stream)
    requires SendInv(s) && QuietStep(s, t)
    ensures SendInv(t)
  {
    assert Pending(t) == Pending(s);
    if |t.sent| > |s.sent| {
      assert t.sent == s.sent + [t.sent[|s.sent|]];
      QuietFrame(s.sent, |s.writes|, t.sent[|s.sent|]);
    } else {
      assert t.sent == s.sent;
    }
    assert LedgerOf(t) == LedgerOf(s);
  }

  lemma OtherIsQuiet(s: Stream, e: Event)
    requires !e.WriteEvent? && !e.ResumeEvent? && !e.WindowUpdateEvent?
    ensures QuietStep(s, Step(s, e))
  {
  }

  lemma StepKeeps(s: Stream, e: Event)
    requires SendInv(s)
    ensures SendInv(Step(s, e))
  {
    match e
    case WriteEvent(data) => WriteKeeps(s, data);
    case ResumeEvent(k) => ResumeKeeps(s, k);
    case WindowUpdateEvent(delta) => WindowUpdateKeeps(s, delta);
    case _ =>
      OtherIsQuiet(s, e);
      QuietKeeps(s, Step(s, e));
  }

  lemma NewStreamBooks(id: nat)
    ensures SendInv(NewStream(id))
  {
    assert Pending(NewStream(id)) == [];
  }

  // ----- over whole runs -----

  lemma SlicesArePrefixes(s: Stream)
    requires SendInv(s)
    ensures forall k :: 0 <= k < |s.writes| ==> SlicesOf(s.sent, k) <= s.writes[k]
  {
    var l, ws := LedgerOf(s), Pending(s);
    forall k | 0 <= k < |s.writes| ensures SlicesOf(s.sent, k) <= s.writes[k] {
      assert l.slices[k] == SlicesOf(s.sent, k);
      if !Absent(ws, k) {
        var i :| 0 <= i < |ws| && ws[i].write == k;
        assert Entry(l, ws[i]);
      }
    }
  }

  lemma {:induction false} RunKeeps(s: Stream, events: seq<Event>)
    requires Ok(s) && SendInv(s)
    ensures SendInv(Run(s, events))
    decreases |events|
  {
    if events != [] {
      StepOk(s, events[0]);
      StepKeeps(s, events[0]);
      RunKeeps(Step(s, events[0]), events[1..]);
    }
  }

  lemma NewStreamRun(id: nat, events: seq<Event>)
    ensures SendInv(Run(NewStream(id), events))
  {
    NewStreamOk(id);
    NewStreamBooks(id);
    RunKeeps(NewStream(id), events);
  }

  // In every run, whatever the interleaving: the window is never overdrawn and accounts for every
  // byte; what was sent for each write is, in order, the front of its argument, and all of it once the
  // write has returned; a parked writer means an empty window.
  lemma SendSafety(s: Stream, events: seq<Event>)
    requires Ok(s) && SendInv(s)
    ensures var t := Run(s, events);
            && t.sendWindow >= 0
            && |Payloads(t.sent)| + t.sendWindow == INITIAL_WINDOW + t.credit
            && (forall k :: 0 <= k < |t.writes| ==> SlicesOf(t.sent, k) <= t.writes[k])
            && (forall k :: 0 <= k < |t.writes| && Absent(Pending(t), k) ==> SlicesOf(t.sent, k) == t.writes[k])
            && (t.waiters != [] ==> t.sendWindow == 0)
  {
    var t := Run(s, events);
    RunKeeps(s, events);
    SlicesArePrefixes(t);
    assert forall k :: 0 <= k < |t.writes| ==> LedgerOf(t).slices[k] == SlicesOf(t.sent, k);
  }

  lemma {:induction false} RemainingPositive(ws: seq<Writer>)
    requires forall i :: 0 <= i < |ws| ==> Suspendable(ws[i])
    ensures Remaining(ws) >= |ws|
  {
    if ws != [] {
      RemainingPositive(ws[1..]);
    }
  }

  lemma PendingSuspendable(s: Stream)
    requires Ok(s)
    ensures Remaining(Pending(s)) >= |Pending(s)|
  {
    var ws := Pending(s);
    forall i | 0 <= i < |ws| ensures Suspendable(ws[i]) {
      if i >= |s.woken| {
        assert ws[i] == s.waiters[i - |s.woken|].writer;
      }
    }
    RemainingPositive(ws);
  }

  // Work conservation.  At rest (no woken write waits for the engine) the bytes sent are all that
  // was demanded or all that the credit allows, and a write is unfinished exactly when the credit
  // does not suffice.
  lemma AtRest(s: Stream)
    requires Ok(s) && SendInv(s) && s.woken == []
    ensures |Payloads(s.sent)| == Min(Demand(s.writes), INITIAL_WINDOW + s.credit)
    ensures Pending(s) == [] <==> Demand(s.writes) <= INITIAL_WINDOW + s.credit
  {
    PendingSuspendable(s);
    if s.waiters == [] {
      assert Pending(s) == [];
    } else {
      assert |Pending(s)| > 0;
    }
  }

  // Each continuation takes one write out of the woken ones, and either sends something of it or
  // found the window empty: (bytes left, woken writes) goes down lexicographically.
  lemma ResumeProgress(s: Stream, k: nat)
    requires Ok(s) && SendInv(s) && k < |s.woken|
    ensures var t := Resume(s, k);
            && |t.woken| == |s.woken| - 1
            && Remaining(Pending(t)) <= Remaining(Pending(s))
            && (s.sendWindow > 0 ==> Remaining(Pending(t)) < Remaining(Pending(s)))
            && (s.sendWindow == 0 ==> t.sent == s.sent && t.waiters == s.waiters + [Waiter(s.woken[k], 1)])
  {
    ResumeKeeps(s, k);
    var t := Resume(s, k);
    if s.sendWindow > 0 {
      var x := t.sent[|s.sent|];
      assert t.sent == s.sent + [x];
      SentAppend(s.sent, x);
    }
  }

  // The engine continues every woken write; the order does not matter for the outcome below.
  function Settle(s: Stream): (t: Stream)
    requires Ok(s)
    ensures Ok(t) && t.woken == []
    decreases |s.woken|
  {
    if s.woken == [] then s
    else
      StepOk(s, ResumeEvent(0));
      Settle(Resume(s, 0))
  }

  lemma {:induction false} SettleKeeps(s: Stream)
    requires Ok(s) && SendInv(s)
    ensures SendInv(Settle(s))
    ensures Settle(s).writes == s.writes && Settle(s).credit == s.credit
    decreases |s.woken|
  {
    if s.woken != [] {
      ResumeKeeps(s, 0);
      StepOk(s, ResumeEvent(0));
      SettleKeeps(Resume(s, 0));
    }
  }

  // From any reachable state, credit for what is left finishes every write: after the update and
  // as many continuations as there are woken writes, nothing is suspended and every argument went
  // out whole.
  lemma EnoughCreditFinishes(s: Stream, delta: nat)
    requires Ok(s) && SendInv(s) && delta >= Remaining(Pending(s))
    ensures var t := OnWindowUpdate(s, delta);
            && Ok(t)
            && Pending(Settle(t)) == []
            && forall k :: 0 <= k < |s.writes| ==> SlicesOf(Settle(t).sent, k) == s.writes[k]
  {
    var t := OnWindowUpdate(s, delta);
    StepOk(s, WindowUpdateEvent(delta));
    WindowUpdateKeeps(s, delta);
    WindowUpdatePending(s, delta);
    SettleKeeps(t);
    var u := Settle(t);
    AtRest(u);
    assert Pending(u) == [];
    forall k | 0 <= k < |s.writes| ensures SlicesOf(u.sent, k) == s.writes[k] {
      assert Absent(Pending(u), k);
      assert LedgerOf(u).slices[k] == LedgerOf(u).writes[k];
    }
  }
}
