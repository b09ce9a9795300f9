/** The class YamuxSession of ts/src/yamux.ts, proved to take the steps of `Sessions`.

    Each method is given, as a ghost argument, the state `s` the object shows, and ends showing the
    state after the step.  Its streams are objects users hold and call directly; `created` remembers
    all of them, those no longer in the map `streams` included. */
module YamuxSessions {
  import opened Bytes
  import opened Records
  import opened YamuxFrames
  import opened WebSockets
  import opened ByteBuffers
  import opened YamuxStreams
  import opened Sessions
  import P = Pulls
  import Streams
  import Buffers

  class YamuxSession {
    const ws: WebSocket
    const sessionBuffer: ByteBuffer
    var streams: map<nat, YamuxStream>
    var nextID: nat
    var closed: bool
    // the await at which readLoop is suspended
    var phase: P.Phase
    ghost var created: map<nat, YamuxStream>
    ghost var dispatched: seq<Record>
    ghost var erred: bool
    ghost var wsClosed: bool

    ghost function RecvBuffers(): set<ByteBuffer>
      reads this`created
    {
      set id | id in created :: created[id].recvBuffer
    }

    // Each stream is an object of its own with a buffer of its own, filed under its id.
    // What the types already say.
    ghost predicate Apart(o: object) {
      o != this
    }

    ghost predicate Separate()
      reads this`created, this`streams, this`nextID
    {
      && (forall id :: id in created ==>
            && created[id].id == id && id < nextID && created[id].ws == ws && created[id].recvBuffer != sessionBuffer
            && Apart(created[id]) && Apart(created[id].recvBuffer))
      && (forall i, j :: i in created && j in created && i != j ==>
            created[i] != created[j] && created[i].recvBuffer != created[j].recvBuffer)
      && (forall id :: id in streams ==> id in created && streams[id] == created[id])
    }

    ghost predicate StreamsValid()
      reads this`created, created.Values, RecvBuffers()
    {
      forall id :: id in created ==> created[id].Valid()
    }

    ghost predicate Valid()
      reads this`created, this`streams, this`nextID, ws, sessionBuffer, created.Values, RecvBuffers()
    {
      ws.Valid() && sessionBuffer.Valid() && Separate() && StreamsValid()
    }

    ghost predicate ShowsStreams(views: map<nat, Streams.Stream>)
      reads this`created, created.Values, RecvBuffers()
    {
      && views.Keys == created.Keys
      && forall id :: id in created ==> views[id] == created[id].View()
    }

    ghost predicate Shows(s: Session)
      reads this, ws, sessionBuffer, created.Values, RecvBuffers()
    {
      && ShowsStreams(s.created)
      && s.table == streams.Keys
      && s.nextID == nextID
      && s.buf == sessionBuffer.View()
      && s.closed == closed
      && s.phase == phase
      && s.log == ws.log
      && s.dispatched == dispatched
      && s.erred == erred
      && s.wsClosed == wsClosed
    }

    // The session after connect: the read loop awaits its first header.
    constructor (ws: WebSocket)
      requires ws.Valid() && ws.log == []
      ensures Valid() && Shows(NewSession()) && this.ws == ws
      ensures fresh(sessionBuffer)
    {
      this.ws := ws;
      var b := new ByteBuffer();
      var _ := b.ReadExact(YAMUX_HEADER_SIZE);
      sessionBuffer := b;
      streams, nextID, closed, phase := map[], 1, false, P.WantHeader;
      created, dispatched, erred, wsClosed := map[], [], false, false;
    }

    // ----- one effect at a time -----

    // No stream has changed, and none was added to the table.
    twostate lemma StreamsUntouched(new s: Session)
      requires old(Valid()) && old(Shows(s))
      requires unchanged(`created) && unchanged(`nextID)
      requires forall k :: k in streams ==> k in old(streams) && streams[k] == old(streams)[k]
      requires forall k :: k in created ==> unchanged(created[k]) && unchanged(created[k].recvBuffer)
      ensures Separate() && StreamsValid() && ShowsStreams(s.created)
    {
      forall k | k in created ensures created[k].Valid() && created[k].View() == old(created[k].View()) {
      }
    }

    method MarkClosed(ghost s: Session)
      requires Valid() && Shows(s)
      modifies this`closed
      ensures Valid() && Shows(s.(closed := true))
    {
      closed := true;
      StreamsUntouched(s);
    }

    method CloseBuffer(reason: string, ghost s: Session)
      requires Valid() && Shows(s)
      modifies sessionBuffer
      ensures Valid() && Shows(s.(buf := Buffers.Close(s.buf, Some(Buffers.Failure(reason)))))
    {
      sessionBuffer.Close(Some(Buffers.Failure(reason)));
      StreamsUntouched(s);
    }

    method SendControl(typ: nat, flags: nat, id: nat, length: nat, ghost s: Session)
      requires Valid() && Shows(s)
      modifies ws`sent, ws`log
      ensures Valid() && Shows(s.(log := s.log + [Frame(typ, flags, id, length, [])]))
    {
      SendFrameRaw(ws, typ, flags, id, length, []);
      StreamsUntouched(s);
    }

    // Only the stream filed under `id` has changed.
    twostate lemma OneViewChanged(id: nat, new s: Session, new t: Streams.Stream)
      requires old(Valid()) && old(Shows(s)) && id in created && unchanged(this)
      requires forall k :: k in created && k != id ==> unchanged(created[k]) && unchanged(created[k].recvBuffer)
      requires created[id].Valid() && created[id].View() == t
      ensures Separate() && StreamsValid() && ShowsStreams(s.created[id := t])
    {
      forall k | k in created ensures created[k].Valid() && s.created[id := t][k] == created[k].View() {
        if k != id {
          assert created[k].View() == old(created[k].View());
        }
      }
    }

    // ... and its frames have gone out: for the session that is `Put`.
    twostate lemma OneStreamChanged(id: nat, new s: Session, new t: Streams.Stream)
      requires old(Valid()) && old(Shows(s)) && id in created && unchanged(this) && unchanged(sessionBuffer)
      requires forall k :: k in created && k != id ==> unchanged(created[k]) && unchanged(created[k].recvBuffer)
      requires created[id].Valid() && created[id].View() == t
      requires ws.Valid() && ws.log == old(ws.log) + Streams.NewFrames(s.created[id], t)
      ensures Valid() && Shows(Put(s, id, t))
    {
      OneViewChanged(id, s, t);
    }

    method DeliverData(id: nat, payload: seq<Byte>, ghost s: Session)
      requires Valid() && Shows(s) && id in streams
      modifies created[id], created[id].recvBuffer, ws`sent, ws`log
      ensures Valid() && Shows(Put(s, id, Streams.OnData(s.created[id], payload)))
    {
      ghost var t := Streams.OnData(s.created[id], payload);
      streams[id].OnData(payload);
      OneStreamChanged(id, s, t);
    }

    method DeliverClose(id: nat, ghost s: Session)
      requires Valid() && Shows(s) && id in streams
      modifies created[id], created[id].recvBuffer
      ensures Valid() && Shows(Put(s, id, Streams.OnRemoteClose(s.created[id])))
    {
      ghost var t := Streams.OnRemoteClose(s.created[id]);
      streams[id].OnRemoteClose();
      OneStreamChanged(id, s, t);
    }

    method DeliverReset(id: nat, ghost s: Session)
      requires Valid() && Shows(s) && id in streams
      modifies created[id], created[id].recvBuffer
      ensures Valid() && Shows(Put(s, id, Streams.OnReset(s.created[id])))
    {
      ghost var t := Streams.OnReset(s.created[id]);
      streams[id].OnReset();
      OneStreamChanged(id, s, t);
    }

    // Also for a stream the loop still holds after deleting it from the map.
    method DeliverUpdate(stream: YamuxStream, delta: nat, ghost id: nat, ghost s: Session)
      requires Valid() && Shows(s) && id in created && created[id] == stream
      modifies stream
      ensures Valid() && Shows(Put(s, id, Streams.OnWindowUpdate(s.created[id], delta)))
    {
      ghost var t := Streams.OnWindowUpdate(s.created[id], delta);
      stream.OnWindowUpdate(delta);
      OneStreamChanged(id, s, t);
    }

    // ----- calls of the user -----

    // Where the source throws "session closed" the result is None.
    method Open(ghost s: Session) returns (r: Option<YamuxStream>)
      requires Valid() && Shows(s)
      modifies this`nextID, this`streams, this`created, ws`sent, ws`log
      ensures Valid() && Shows(Sessions.Open(s))
      ensures r.None? <==> s.closed
      ensures r.Some? ==> fresh(r.value) && r.value.id == s.nextID && r.value.View() == Streams.NewStream(s.nextID)
      ensures r.Some? ==> s.nextID in streams && s.nextID in created && streams[s.nextID] == created[s.nextID] == r.value
    {
      if closed {
        return None;
      }
      var stream := AddStream(s);
      SendControl(TYPE_WINDOW_UPDATE, FLAG_SYN, stream.id, INITIAL_WINDOW, Added(s));
      return Some(stream);
    }

    ghost function Added(s: Session): Session {
      s.(created := s.created[s.nextID := Streams.NewStream(s.nextID)], table := s.table + {s.nextID}, nextID := s.nextID + 2)
    }

    ghost predicate NewStreamObject(stream: YamuxStream, s: Session)
      reads this`created, stream, stream.recvBuffer, created.Values
    {
      && stream.Valid() && stream.ws == ws && stream.recvBuffer != sessionBuffer
      && stream.id == s.nextID && stream.View() == Streams.NewStream(s.nextID)
      && (forall k :: k in created ==> created[k] != stream && created[k].recvBuffer != stream.recvBuffer)
    }

    // The stream was filed under the next id; nothing else has changed.
    twostate predicate Filed(stream: YamuxStream, s: Session)
      reads this
    {
      && created == old(created)[s.nextID := stream] && streams == old(streams)[s.nextID := stream]
      && nextID == s.nextID + 2 && unchanged(`closed) && unchanged(`phase) && unchanged(`dispatched)
      && unchanged(`erred) && unchanged(`wsClosed)
    }

    lemma KeysOfUpdate<T>(m: map<nat, T>, k: nat, v: T)
      ensures m[k := v].Keys == m.Keys + {k}
    {
    }

    twostate lemma FiledSeparate(new s: Session, stream: YamuxStream)
      requires old(Valid()) && old(Shows(s)) && old(NewStreamObject(stream, s)) && Filed(stream, s)
      ensures Separate()
    {
    }

    twostate predicate NoStreamChanged(objects: set<YamuxStream>)
      reads objects, set o | o in objects :: o.recvBuffer
    {
      forall o :: o in objects ==> unchanged(o) && unchanged(o.recvBuffer)
    }

    twostate lemma OthersKept(objects: map<nat, YamuxStream>, new k: nat)
      requires NoStreamChanged(objects.Values) && k in objects
      ensures objects[k].Valid() == old(objects[k].Valid()) && objects[k].View() == old(objects[k].View())
    {
    }

    twostate lemma FiledOthers(new s: Session, stream: YamuxStream)
      requires old(Valid()) && old(Shows(s)) && NoStreamChanged(old(created).Values)
      ensures forall k :: k in old(created) ==> old(created)[k].Valid() && old(created)[k].View() == s.created[k]
    {
      forall k | k in old(created) ensures old(created)[k].Valid() && old(created)[k].View() == s.created[k] {
        OthersKept(old(created), k);
      }
    }

    twostate lemma FiledValid(new s: Session, stream: YamuxStream)
      requires old(Valid()) && old(Shows(s)) && old(NewStreamObject(stream, s)) && Filed(stream, s)
      requires NoStreamChanged(old(created).Values) && NoStreamChanged({stream})
      ensures StreamsValid()
    {
      FiledOthers(s, stream);
      assert stream.Valid();
    }

    twostate lemma FiledShown(new s: Session, stream: YamuxStream)
      requires old(Valid()) && old(Shows(s)) && old(NewStreamObject(stream, s)) && Filed(stream, s)
      requires NoStreamChanged(old(created).Values) && NoStreamChanged({stream})
      ensures ShowsStreams(Added(s).created)
    {
      FiledOthers(s, stream);
      KeysOfUpdate(s.created, s.nextID, Streams.NewStream(s.nextID));
      KeysOfUpdate(old(created), s.nextID, stream);
      assert stream.View() == Streams.NewStream(s.nextID);
    }

    twostate lemma FiledAll(new s: Session, stream: YamuxStream)
      requires old(Valid()) && old(Shows(s)) && old(NewStreamObject(stream, s)) && Filed(stream, s)
      requires NoStreamChanged(old(created).Values) && NoStreamChanged({stream})
      requires unchanged(ws) && unchanged(sessionBuffer)
      ensures Valid() && Shows(Added(s))
    {
      FiledSeparate(s, stream);
      FiledValid(s, stream);
      FiledShown(s, stream);
      KeysOfUpdate(old(streams), s.nextID, stream);
    }

    method FileStream(stream: YamuxStream, ghost s: Session)
      requires Valid() && Shows(s) && NewStreamObject(stream, s)
      modifies this`nextID, this`streams, this`created
      ensures Valid() && Shows(Added(s))
      ensures streams == old(streams)[s.nextID := stream] && created == old(created)[s.nextID := stream]
    {
      streams := streams[nextID := stream];
      created := created[nextID := stream];
      nextID := nextID + 2;
      FiledAll(s, stream);
    }

    method AddStream(ghost s: Session) returns (stream: YamuxStream)
      requires Valid() && Shows(s)
      modifies this`nextID, this`streams, this`created
      ensures Valid() && Shows(Added(s))
      ensures fresh(stream) && stream.id == s.nextID && stream.View() == Streams.NewStream(s.nextID)
      ensures streams == old(streams)[s.nextID := stream] && created == old(created)[s.nextID := stream]
    {
      stream := new YamuxStream(nextID, ws);
      StreamsUntouched(s);
      FileStream(stream, s);
    }

    // Some of the streams have been reset.
    ghost function PartlyReset(s: Session, done: set<nat>): Session {
      s.(created := map id | id in s.created :: if id in done then Streams.OnReset(s.created[id]) else s.created[id])
    }

    lemma PartlyResetStep(s: Session, done: set<nat>, id: nat)
      requires id in s.created && id !in done
      ensures Put(PartlyReset(s, done), id, Streams.OnReset(s.created[id])) == PartlyReset(s, done + {id})
    {
      var a, b := Put(PartlyReset(s, done), id, Streams.OnReset(s.created[id])), PartlyReset(s, done + {id});
      assert a.created == b.created;
      assert Streams.NewFrames(s.created[id], Streams.OnReset(s.created[id])) == [];
      assert a.log == b.log;
    }

    method ResetOne(id: nat, ghost done: set<nat>, ghost s: Session)
      requires Valid() && Shows(PartlyReset(s, done)) && id in streams && id !in done
      modifies created[id], created[id].recvBuffer
      ensures Valid() && Shows(PartlyReset(s, done + {id}))
    {
      assert id in s.created && PartlyReset(s, done).created[id] == s.created[id];
      PartlyResetStep(s, done, id);
      DeliverReset(id, PartlyReset(s, done));
    }

    method ResetNext(todo: set<nat>, ghost done: set<nat>, ghost s: Session) returns (rest: set<nat>, ghost more: set<nat>)
      requires Valid() && Shows(PartlyReset(s, done))
      requires todo != {} && Without(streams.Keys, todo, done)
      modifies created.Values, RecvBuffers()
      ensures Valid() && Shows(PartlyReset(s, more))
      ensures Without(streams.Keys, rest, more) && |rest| < |todo|
    {
      var id :| id in todo;
      assert created[id].recvBuffer in RecvBuffers();
      ResetOne(id, done, s);
      WithoutStep(streams.Keys, todo, done, id);
      more := done + {id};
      rest := todo - {id};
    }

    // for (const stream of this.streams.values()) stream._onReset()
    method ResetEach(ghost s: Session)
      requires Valid() && Shows(PartlyReset(s, {}))
      modifies created.Values, RecvBuffers()
      ensures Valid() && Shows(PartlyReset(s, streams.Keys))
    {
      var todo := streams.Keys;
      ghost var done := {};
      WithoutAll(streams.Keys);
      while todo != {}
        invariant Valid() && Shows(PartlyReset(s, done)) && Without(streams.Keys, todo, done)
        decreases |todo|
      {
        todo, done := ResetNext(todo, done, s);
      }
      WithoutNone(streams.Keys, done);
    }

    lemma WithoutAll(keys: set<nat>)
      ensures Without(keys, keys, {})
    {
    }

    lemma WithoutNone(keys: set<nat>, done: set<nat>)
      requires Without(keys, {}, done)
      ensures done == keys
    {
    }

    ghost predicate Without(keys: set<nat>, todo: set<nat>, done: set<nat>) {
      done !! todo && done + todo == keys
    }

    lemma WithoutStep(keys: set<nat>, todo: set<nat>, done: set<nat>, id: nat)
      requires Without(keys, todo, done) && id in todo
      ensures Without(keys, todo - {id}, done + {id})
      ensures |todo - {id}| < |todo|
    {
      assert done + {id} + (todo - {id}) == done + todo;
      assert todo == (todo - {id}) + {id};
    }

    lemma ResetAllIsPartly(s: Session)
      ensures PartlyReset(s, {}) == s
      ensures PartlyReset(s, s.table).(table := {}) == ResetAll(s)
    {
      assert PartlyReset(s, {}).created == s.created;
      assert PartlyReset(s, s.table).created == ResetAll(s).created;
    }

    // ... and this.streams.clear().
    method ResetStreams(ghost s: Session)
      requires Valid() && Shows(s)
      modifies this`streams, created.Values, RecvBuffers()
      ensures Valid() && Shows(ResetAll(s))
    {
      ResetAllIsPartly(s);
      ResetEach(s);
      ClearStreams(PartlyReset(s, s.table));
    }

    method ClearStreams(ghost s: Session)
      requires Valid() && Shows(s)
      modifies this`streams
      ensures Valid() && Shows(s.(table := {}))
    {
      streams := map[];
      StreamsUntouched(s);
    }

    method Close(ghost s: Session)
      requires Valid() && Shows(s)
      modifies this`closed, this`streams, ws, sessionBuffer, created.Values, RecvBuffers()
      ensures Valid() && Shows(Sessions.Close(s))
      ensures ws.closeCalled <==> old(ws.closeCalled) || !s.closed
    {
      if closed {
        return;
      }
      MarkClosed(s);
      ghost var s1 := s.(closed := true);
      SendControl(TYPE_GO_AWAY, 0, 0, 0, s1);
      ghost var s2 := s1.(log := s1.log + [Frame(TYPE_GO_AWAY, 0, 0, 0, [])]);
      ResetStreams(s2);
      CloseSocket(ResetAll(s2));
      CloseBuffer("session closed", ResetAll(s2));
    }

    method CloseSocket(ghost s: Session)
      requires Valid() && Shows(s)
      modifies ws`closeCalled
      ensures Valid() && Shows(s) && ws.closeCalled
    {
      ws.Close();
      StreamsUntouched(s);
    }

    // ----- setupWebSocket -----

    method OnMessage(data: seq<Byte>, ghost s: Session)
      requires Valid() && Shows(s)
      modifies sessionBuffer
      ensures Valid() && Shows(Sessions.OnMessage(s, data))
    {
      sessionBuffer.Push(data);
      StreamsUntouched(s);
    }

    method OnWsClose(ghost s: Session)
      requires Valid() && Shows(s)
      modifies this`closed, this`wsClosed, this`streams, sessionBuffer, created.Values, RecvBuffers()
      ensures Valid() && Shows(Sessions.OnWsClose(s))
    {
      ghost var buffers := RecvBuffers();
      MarkClosed(s);
      NoteClose(s.(closed := true));
      ghost var s1 := s.(closed := true, wsClosed := true);
      CloseBuffer("WebSocket closed", s1);
      assert RecvBuffers() == buffers;
      ResetStreams(s1.(buf := Buffers.Close(s.buf, Some(Buffers.Failure("WebSocket closed")))));
    }

    ghost method NoteClose(s: Session)
      requires Valid() && Shows(s)
      modifies this`wsClosed
      ensures Valid() && Shows(s.(wsClosed := true))
    {
      wsClosed := true;
      StreamsUntouched(s);
    }

    method OnWsError(ghost s: Session)
      requires Valid() && Shows(s)
      modifies this`closed, this`erred, sessionBuffer
      ensures Valid() && Shows(Sessions.OnWsError(s))
    {
      MarkClosed(s);
      NoteError(s.(closed := true));
      CloseBuffer("WebSocket error", s.(closed := true, erred := true));
    }

    ghost method NoteError(s: Session)
      requires Valid() && Shows(s)
      modifies this`erred
      ensures Valid() && Shows(s.(erred := true))
    {
      erred := true;
      StreamsUntouched(s);
    }

    // ----- the read loop -----

    // this.streams.delete(id)
    method Forget(id: nat, ghost s: Session)
      requires Valid() && Shows(s)
      modifies this`streams
      ensures Valid() && Shows(s.(table := s.table - {id}))
    {
      streams := streams - {id};
      StreamsUntouched(s);
    }

    lemma PutTwice(s: Session, id: nat, a: Streams.Stream, b: Streams.Stream)
      requires id in s.created && s.created[id].sent <= a.sent && a.sent <= b.sent
      ensures Put(Put(s, id, a), id, b) == Put(s, id, b)
    {
      var x, y := Put(Put(s, id, a), id, b), Put(s, id, b);
      PrefixTransitive(s.created[id].sent, a.sent, b.sent);
      assert x.created == y.created;
      assert Streams.NewFrames(s.created[id], b) == Streams.NewFrames(s.created[id], a) + Streams.NewFrames(a, b);
      ConcatAssociative(s.log, Streams.NewFrames(s.created[id], a), Streams.NewFrames(a, b));
    }

    // The steps of `AfterFrame` one after another.
    ghost function AfterPart(s: Session, id: nat, c: bool, e: Streams.Event): (t: Session)
      requires id in s.created
      ensures id in t.created && t.table == s.table
    {
      Put(s, id, Maybe(s.created[id], c, e))
    }

    lemma PartTwice(s: Session, id: nat, t: Streams.Stream, c: bool, e: Streams.Event)
      requires id in s.created && s.created[id].sent <= t.sent
      ensures AfterPart(Put(s, id, t), id, c, e) == Put(s, id, Maybe(t, c, e))
      ensures s.created[id].sent <= Maybe(t, c, e).sent
    {
      Streams.StepEmits(t, e);
      PutTwice(s, id, t, Maybe(t, c, e));
      PrefixTransitive(s.created[id].sent, t.sent, Maybe(t, c, e).sent);
    }

    lemma PartsAreAfterFrame(s: Session, f: Frame)
      requires f.id in s.created
      ensures var s1 := AfterPart(s, f.id, HasPayload(f), Streams.DataEvent(f.payload));
              var s2 := AfterPart(s1, f.id, HasFlag(f.flags, FLAG_FIN), Streams.RemoteCloseEvent);
              var s3 := AfterPart(s2, f.id, HasFlag(f.flags, FLAG_RST), Streams.RemoteResetEvent);
              AfterPart(s3, f.id, f.typ != TYPE_DATA, Streams.WindowUpdateEvent(f.length)) ==
              Put(s, f.id, AfterFrame(s.created[f.id], f))
    {
      var id, t := f.id, s.created[f.id];
      PutSame(s, id);
      PartTwice(s, id, t, HasPayload(f), Streams.DataEvent(f.payload));
      var t1 := Maybe(t, HasPayload(f), Streams.DataEvent(f.payload));
      PartTwice(s, id, t1, HasFlag(f.flags, FLAG_FIN), Streams.RemoteCloseEvent);
      var t2 := Maybe(t1, HasFlag(f.flags, FLAG_FIN), Streams.RemoteCloseEvent);
      PartTwice(s, id, t2, HasFlag(f.flags, FLAG_RST), Streams.RemoteResetEvent);
      var t3 := Maybe(t2, HasFlag(f.flags, FLAG_RST), Streams.RemoteResetEvent);
      PartTwice(s, id, t3, f.typ != TYPE_DATA, Streams.WindowUpdateEvent(f.length));
    }

    lemma PartIs(s: Session, id: nat, c: bool, e: Streams.Event, target: Session)
      requires id in s.created
      requires target == if c then Put(s, id, Streams.Step(s.created[id], e)) else s
      ensures AfterPart(s, id, c, e) == target
    {
      PutSame(s, id);
    }

    method PayloadPart(f: Frame, ghost s: Session)
      requires Valid() && Shows(s) && f.id in streams
      modifies created[f.id], created[f.id].recvBuffer, ws`sent, ws`log
      ensures Valid() && Shows(AfterPart(s, f.id, HasPayload(f), Streams.DataEvent(f.payload)))
    {
      assert f.id in s.created;
      if HasPayload(f) {
        PartIs(s, f.id, true, Streams.DataEvent(f.payload), Put(s, f.id, Streams.OnData(s.created[f.id], f.payload)));
        DeliverData(f.id, f.payload, s);
        return;
      }
      PartIs(s, f.id, false, Streams.DataEvent(f.payload), s);
    }

    method FinPart(f: Frame, ghost s: Session)
      requires Valid() && Shows(s) && f.id in streams
      modifies created[f.id], created[f.id].recvBuffer
      ensures Valid() && Shows(AfterPart(s, f.id, HasFlag(f.flags, FLAG_FIN), Streams.RemoteCloseEvent))
    {
      assert f.id in s.created;
      if HasFlag(f.flags, FLAG_FIN) {
        PartIs(s, f.id, true, Streams.RemoteCloseEvent, Put(s, f.id, Streams.OnRemoteClose(s.created[f.id])));
        DeliverClose(f.id, s);
        return;
      }
      PartIs(s, f.id, false, Streams.RemoteCloseEvent, s);
    }

    ghost function TableAfter(s: Session, f: Frame): set<nat> {
      if HasFlag(f.flags, FLAG_RST) then s.table - {f.id} else s.table
    }

    ghost function AfterRst(s: Session, f: Frame): Session
      requires f.id in s.created
    {
      AfterPart(s, f.id, HasFlag(f.flags, FLAG_RST), Streams.RemoteResetEvent).(table := TableAfter(s, f))
    }

    method ResetAndForget(id: nat, ghost s: Session)
      requires Valid() && Shows(s) && id in streams
      modifies this`streams, created[id], created[id].recvBuffer
      ensures Valid() && Shows(Put(s, id, Streams.OnReset(s.created[id])).(table := s.table - {id}))
    {
      DeliverReset(id, s);
      Forget(id, Put(s, id, Streams.OnReset(s.created[id])));
    }

    method RstPart(f: Frame, ghost s: Session)
      requires Valid() && Shows(s) && f.id in streams
      modifies this`streams, created[f.id], created[f.id].recvBuffer
      ensures Valid() && Shows(AfterRst(s, f))
    {
      assert f.id in s.created;
      if HasFlag(f.flags, FLAG_RST) {
        PartIs(s, f.id, true, Streams.RemoteResetEvent, Put(s, f.id, Streams.OnReset(s.created[f.id])));
        ResetAndForget(f.id, s);
        return;
      }
      PartIs(s, f.id, false, Streams.RemoteResetEvent, s);
    }

    ghost function AfterPayload(s: Session, f: Frame): (t: Session)
      requires f.id in s.created
      ensures f.id in t.created && t.table == s.table
    {
      AfterPart(s, f.id, HasPayload(f), Streams.DataEvent(f.payload))
    }

    ghost function AfterFin(s: Session, f: Frame): (t: Session)
      requires f.id in s.created
      ensures f.id in t.created && t.table == s.table
    {
      AfterPart(s, f.id, HasFlag(f.flags, FLAG_FIN), Streams.RemoteCloseEvent)
    }

    lemma DataInSteps(s: Session, f: Frame)
      requires TableOk(s) && f.typ == TYPE_DATA && f.id in s.table
      ensures AfterRst(AfterFin(AfterPayload(s, f), f), f) == Sessions.Dispatch(s, f)
    {
      PartsAreAfterFrame(s, f);
      PutSame(AfterPart(AfterFin(AfterPayload(s, f), f), f.id, HasFlag(f.flags, FLAG_RST), Streams.RemoteResetEvent), f.id);
    }

    ghost function AfterUpdate(s: Session, f: Frame): Session
      requires f.id in s.created
    {
      Put(s, f.id, Streams.OnWindowUpdate(s.created[f.id], f.length))
    }

    lemma UpdateInSteps(s: Session, f: Frame)
      requires TableOk(s) && f.typ == TYPE_WINDOW_UPDATE && f.id in s.table
      ensures AfterUpdate(AfterRst(AfterFin(s, f), f), f) == Sessions.Dispatch(s, f)
    {
      PartsAreAfterFrame(s, f);
      PutSame(s, f.id);
    }

    method FlagParts(f: Frame, ghost s: Session)
      requires Valid() && Shows(s) && f.id in streams && f.id in s.created
      modifies this`streams, created[f.id], created[f.id].recvBuffer
      ensures Valid() && Shows(AfterRst(AfterFin(s, f), f))
    {
      ghost var t := AfterFin(s, f);
      FinPart(f, s);
      RstPart(f, t);
    }

    method ApplyData(f: Frame, ghost s: Session)
      requires Valid() && Shows(s) && f.id in streams && f.id in s.created
      modifies this`streams, created[f.id], created[f.id].recvBuffer, ws`sent, ws`log
      ensures Valid() && Shows(AfterRst(AfterFin(AfterPayload(s, f), f), f))
    {
      ghost var t := AfterPayload(s, f);
      PayloadPart(f, s);
      FlagParts(f, t);
    }

    // case TYPE_DATA, once the payload is there
    method HandleData(f: Frame, ghost s: Session)
      requires Valid() && Shows(s) && TableOk(s) && f.typ == TYPE_DATA
      modifies this`streams, created.Values, RecvBuffers(), ws`sent, ws`log
      ensures Valid() && Shows(Sessions.Dispatch(s, f))
    {
      if f.id in streams {
        assert created[f.id].recvBuffer in RecvBuffers();
        DataInSteps(s, f);
        ApplyData(f, s);
      }
    }

    method ApplyUpdate(f: Frame, ghost s: Session)
      requires Valid() && Shows(s) && f.id in streams && f.id in s.created
      modifies this`streams, created[f.id], created[f.id].recvBuffer
      ensures Valid() && Shows(AfterUpdate(AfterRst(AfterFin(s, f), f), f))
    {
      var stream := streams[f.id];
      ghost var t := AfterRst(AfterFin(s, f), f);
      assert stream == created[f.id];
      FlagParts(f, s);
      DeliverUpdate(stream, f.length, f.id, t);
    }

    // case TYPE_WINDOW_UPDATE
    method HandleUpdate(f: Frame, ghost s: Session)
      requires Valid() && Shows(s) && TableOk(s) && f.typ == TYPE_WINDOW_UPDATE
      modifies this`streams, created.Values, RecvBuffers()
      ensures Valid() && Shows(Sessions.Dispatch(s, f))
    {
      if f.id in streams {
        assert created[f.id].recvBuffer in RecvBuffers();
        UpdateInSteps(s, f);
        ApplyUpdate(f, s);
      }
    }

    // case TYPE_GO_AWAY
    method HandleGoAway(ghost s: Session)
      requires Valid() && Shows(s)
      modifies this`closed, this`streams, ws`closeCalled, created.Values, RecvBuffers()
      ensures Valid() && Shows(ResetAll(s.(closed := true))) && ws.closeCalled
    {
      MarkClosed(s);
      ResetStreams(s.(closed := true));
      CloseSocket(ResetAll(s.(closed := true)));
    }

    method Dispatch(f: Frame, ghost s: Session)
      requires Valid() && Shows(s) && TableOk(s)
      modifies this`closed, this`streams, ws, created.Values, RecvBuffers()
      ensures Valid() && Shows(Sessions.Dispatch(s, f))
      ensures ws.closeCalled <==> old(ws.closeCalled) || f.typ == TYPE_GO_AWAY
    {
      if f.typ == TYPE_DATA {
        HandleData(f, s);
      } else if f.typ == TYPE_WINDOW_UPDATE {
        HandleUpdate(f, s);
      } else if f.typ == TYPE_PING {
        SendControl(TYPE_PING, FLAG_ACK, 0, f.length, s);
      } else if f.typ == TYPE_GO_AWAY {
        HandleGoAway(s);
      }
    }

    method SetPhase(next: P.Phase, ghost s: Session)
      requires Valid() && Shows(s)
      modifies this`phase
      ensures Valid() && Shows(s.(phase := next))
    {
      phase := next;
      StreamsUntouched(s);
    }

    method AwaitBytes(n: nat, ghost s: Session)
      requires Valid() && Shows(s)
      modifies sessionBuffer
      ensures Valid() && Shows(s.(buf := Buffers.ReadExact(s.buf, n)))
    {
      var _ := sessionBuffer.ReadExact(n);
      StreamsUntouched(s);
    }

    method AwaitIn(next: P.Phase, n: nat, ghost s: Session)
      requires Valid() && Shows(s)
      modifies this`phase, sessionBuffer
      ensures Valid() && Shows(s.(buf := Buffers.ReadExact(s.buf, n), phase := next))
    {
      AwaitBytes(n, s);
      SetPhase(next, s.(buf := Buffers.ReadExact(s.buf, n)));
    }

    ghost method NoteDispatched(r: Record, s: Session)
      requires Valid() && Shows(s)
      modifies this`dispatched
      ensures Valid() && Shows(s.(dispatched := s.dispatched + [r]))
    {
      dispatched := dispatched + [r];
      StreamsUntouched(s);
    }

    // The end of the loop's body: return after GoAway, else the test of `while (!this.closed)`.
    method NextIteration(f: Frame, ghost s: Session)
      requires Valid() && Shows(s)
      modifies this`phase, sessionBuffer
      ensures Valid() && Shows(Sessions.NextIteration(s, f))
    {
      if f.typ == TYPE_GO_AWAY || closed {
        SetPhase(P.Idle, s);
      } else {
        AwaitIn(P.WantHeader, YAMUX_HEADER_SIZE, s);
      }
    }

    method HandleRecord(r: Record, ghost s: Session)
      requires Valid() && Shows(s) && TableOk(s) && Records.Valid(YamuxFormat, r)
      modifies this, ws, sessionBuffer, created.Values, RecvBuffers()
      ensures Valid() && Shows(Sessions.HandleRecord(s, r))
      ensures ws.closeCalled <==> old(ws.closeCalled) || FromRecord(r).typ == TYPE_GO_AWAY
    {
      var f := FromRecord(r);
      ghost var s1 := Sessions.Dispatch(s, f);
      Dispatch(f, s);
      NoteDispatched(r, s1);
      NextIteration(f, s1.(dispatched := s1.dispatched + [r]));
    }

    // The frame the loop is about to handle is a GoAway.
    ghost predicate HasGoAway(s: Session)
      requires SessionOk(s) && P.Ready(s.buf, s.phase)
    {
      P.OwnsContinue(YamuxFormat, s.buf, s.phase);
      match P.Continue(YamuxFormat, s.buf, s.phase)
      case Got(r) => FromRecord(r).typ == TYPE_GO_AWAY
      case _ => false
    }

    // The read loop from an await to the next one, or to its end.
    method ResumeLoop(ghost s: Session)
      requires Valid() && Shows(s) && SessionOk(s) && P.Ready(s.buf, s.phase)
      modifies this, ws, sessionBuffer, created.Values, RecvBuffers()
      ensures Valid() && Shows(Sessions.ResumeLoop(s))
      ensures ws.closeCalled <==> old(ws.closeCalled) || HasGoAway(s)
    {
      P.OwnsContinue(YamuxFormat, s.buf, s.phase);
      match sessionBuffer.calls[|sessionBuffer.calls| - 1].outcome
      case Rejected(_) => SetPhase(P.Idle, s);
      case Resolved(bytes) =>
        if phase.WantBody? {
          HandleRecord(Record(phase.header, bytes), s);
        } else if BodyLength(YamuxFormat, bytes) > 0 {
          AwaitIn(P.WantBody(bytes), BodyLength(YamuxFormat, bytes), s);
        } else {
          HandleRecord(Record(bytes, []), s);
        }
    }
  }
}
