/** The class YamuxStream of ts/src/yamux.ts, proved to take the steps of `Streams`. */
module YamuxStreams {
  import opened Bytes
  import opened Records
  import opened YamuxFrames
  import opened WebSockets
  import opened ByteBuffers
  import opened Streams
  import Buffers

  // The loop of _onWindowUpdate over windowWaiters.
  method Partition(ws: seq<Waiter>, window: int) returns (ready: seq<Writer>, still: seq<Waiter>)
    ensures ready == Ready(ws, window) && still == Still(ws, window)
  {
    ready, still := [], [];
    for i := 0 to |ws|
      invariant Ready(ws, window) == ready + Ready(ws[i..], window)
      invariant Still(ws, window) == still + Still(ws[i..], window)
    {
      var w := ws[i];
      assert ws[i..][0] == w && ws[i..][1..] == ws[i + 1..];
      if window >= w.need {
        ready := ready + [w.writer];
      } else {
        still := still + [w];
      }
    }
  }

  class YamuxStream {
    const id: nat
    const ws: WebSocket
    const recvBuffer: ByteBuffer
    var sendWindow: int
    var recvWindow: int
    var state: LifeCycle
    var windowWaiters: seq<Waiter>
    // writes whose promise is resolved and that the engine has not continued yet
    var woken: seq<Writer>
    // names the calls of write
    var writeCount: nat
    ghost var writes: seq<seq<Byte>>
    ghost var sent: seq<Sent>
    ghost var credit: nat
    ghost var received: nat
    ghost var finsSeen: nat
    ghost var resets: nat

    ghost function View(): Stream
      reads this, recvBuffer
    {
      Stream(id, sendWindow, recvWindow, recvBuffer.View(), state, windowWaiters, woken,
             writes, sent, credit, received, finsSeen, resets)
    }

    ghost predicate Valid()
      reads this, recvBuffer
    {
      recvBuffer.Valid() && writeCount == |writes|
    }

    constructor (id: nat, ws: WebSocket)
      ensures Valid() && View() == NewStream(id)
      ensures this.id == id && this.ws == ws && fresh(recvBuffer)
    {
      this.id, this.ws := id, ws;
      recvBuffer := new ByteBuffer();
      sendWindow, recvWindow, state := INITIAL_WINDOW, INITIAL_WINDOW, Open;
      windowWaiters, woken, writeCount := [], [], 0;
      writes, sent, credit, received, finsSeen, resets := [], [], 0, 0, 0, 0;
    }

    // The callback `sendFrame`, bound to the session's sendFrameRaw.
    method SendFrame(typ: nat, flags: nat, length: nat, data: seq<Byte>, ghost write: Option<nat>)
      requires ws.Valid()
      modifies this`sent, ws`sent, ws`log
      ensures ws.Valid() && ws.log == old(ws.log) + [Frame(typ, flags, id, length, data)]
      ensures View() == Emit(old(View()), typ, flags, length, data, write)
    {
      SendFrameRaw(ws, typ, flags, id, length, data);
      sent := sent + [Sent(Frame(typ, flags, id, length, data), write)];
    }

    // The loop of write, from the call or an await to the next await.
    method RunWriter(w: Writer)
      requires ws.Valid()
      modifies this`sendWindow, this`windowWaiters, this`sent, ws`sent, ws`log
      ensures ws.Valid() && View() == Advance(old(View()), w)
      ensures ws.log == old(ws.log) + NewFrames(old(View()), View())
    {
      ghost var before := View();
      var offset := w.offset;
      while offset < |w.data|
        invariant w.offset <= offset && (offset == w.offset || offset <= |w.data|) && ws.Valid()
        invariant offset == w.offset ==> View() == before && ws.log == old(ws.log)
        invariant offset > w.offset ==>
                    && before.sendWindow > 0
                    && offset - w.offset == Min(|w.data| - w.offset, before.sendWindow)
                    && View() == Sending(before, w, offset - w.offset)
                    && ws.log == old(ws.log) + NewFrames(before, View())
        invariant offset == w.offset || offset == |w.data| || sendWindow == 0
      {
        if sendWindow <= 0 {
          windowWaiters := windowWaiters + [Waiter(w.(offset := offset), 1)];
          return;
        }
        var chunk := Min(|w.data| - offset, sendWindow);
        var slice := w.data[offset..offset + chunk];
        SendFrame(TYPE_DATA, 0, |slice|, slice, Some(w.write));
        sendWindow := sendWindow - chunk;
        offset := offset + chunk;
        assert NewFrames(before, View()) == [Frame(TYPE_DATA, 0, id, |slice|, slice)];
      }
      assert offset == w.offset ==> NewFrames(before, View()) == [];
    }

    // Returns false where the source throws "stream write-closed".
    method Write(data: seq<Byte>) returns (accepted: bool)
      requires Valid() && ws.Valid()
      modifies this, ws`sent, ws`log
      ensures Valid() && ws.Valid() && View() == Streams.Write(old(View()), data)
      ensures accepted == !WriteClosed(old(View()))
      ensures ws.log == old(ws.log) + NewFrames(old(View()), View())
    {
      if state.LocalClose? || state.Closed? {
        assert NewFrames(View(), View()) == [];
        return false;
      }
      writes := writes + [data];
      writeCount := writeCount + 1;
      RunWriter(Writer(writeCount - 1, data, 0));
      return true;
    }

    // The engine continues the k-th woken write.
    method Resume(k: nat)
      requires Valid() && ws.Valid() && k < |woken|
      modifies this, ws`sent, ws`log
      ensures Valid() && ws.Valid() && View() == Streams.Resume(old(View()), k)
      ensures ws.log == old(ws.log) + NewFrames(old(View()), View())
    {
      var w := woken[k];
      woken := woken[..k] + woken[k + 1..];
      RunWriter(w);
    }

    method ReadExact(n: nat) returns (promise: nat)
      requires Valid()
      modifies recvBuffer
      ensures Valid() && View() == Read(old(View()), n)
      ensures promise == |old(recvBuffer.calls)|
    {
      promise := recvBuffer.ReadExact(n);
    }

    method CloseWrite()
      requires Valid() && ws.Valid()
      modifies this, ws`sent, ws`log
      ensures Valid() && ws.Valid() && View() == Streams.CloseWrite(old(View()))
      ensures ws.log == old(ws.log) + NewFrames(old(View()), View())
    {
      ghost var before := View();
      if state.LocalClose? || state.Closed? {
        assert NewFrames(before, View()) == [];
        return;
      }
      SendFrame(TYPE_DATA, FLAG_FIN, 0, [], None);
      if state.RemoteClose? {
        state := Closed;
      } else {
        state := LocalClose;
      }
      assert NewFrames(before, View()) == [Frame(TYPE_DATA, FLAG_FIN, id, 0, [])];
    }

    method Reset()
      requires Valid() && ws.Valid()
      modifies this, recvBuffer, ws`sent, ws`log
      ensures Valid() && ws.Valid() && View() == Streams.Reset(old(View()))
      ensures ws.log == old(ws.log) + NewFrames(old(View()), View())
    {
      ghost var before := View();
      if state.Closed? {
        assert NewFrames(before, View()) == [];
        return;
      }
      SendFrame(TYPE_DATA, FLAG_RST, 0, [], None);
      state := Closed;
      recvBuffer.Close(Some(Buffers.Failure("stream reset")));
      resets := resets + 1;
      assert NewFrames(before, View()) == [Frame(TYPE_DATA, FLAG_RST, id, 0, [])];
    }

    method OnData(data: seq<Byte>)
      requires Valid() && ws.Valid()
      modifies this, recvBuffer, ws`sent, ws`log
      ensures Valid() && ws.Valid() && View() == Streams.OnData(old(View()), data)
      ensures ws.log == old(ws.log) + NewFrames(old(View()), View())
    {
      ghost var before := View();
      recvBuffer.Push(data);
      recvWindow := recvWindow - |data|;
      received := received + |data|;
      if recvWindow < INITIAL_WINDOW / 2 {
        var delta := INITIAL_WINDOW - recvWindow;
        SendFrame(TYPE_WINDOW_UPDATE, 0, delta, [], None);
        recvWindow := INITIAL_WINDOW;
        assert NewFrames(before, View()) == [Frame(TYPE_WINDOW_UPDATE, 0, id, delta, [])];
      } else {
        assert NewFrames(before, View()) == [];
      }
    }

    // The waiters the new window suffices for are resolved, the others stay parked.
    method OnWindowUpdate(delta: nat)
      requires Valid()
      modifies this
      ensures Valid() && View() == Streams.OnWindowUpdate(old(View()), delta)
      ensures sent == old(sent)
    {
      sendWindow := sendWindow + delta;
      credit := credit + delta;
      var ready, still := Partition(windowWaiters, sendWindow);
      windowWaiters := still;
      woken := woken + ready;
    }

    method OnRemoteClose()
      requires Valid()
      modifies this, recvBuffer
      ensures Valid() && View() == Streams.OnRemoteClose(old(View()))
      ensures sent == old(sent)
    {
      if state.LocalClose? {
        state := Closed;
      } else {
        state := RemoteClose;
      }
      recvBuffer.Close(Some(Buffers.Eof));
      finsSeen := finsSeen + 1;
    }

    method OnReset()
      requires Valid()
      modifies this, recvBuffer
      ensures Valid() && View() == Streams.OnReset(old(View()))
      ensures sent == old(sent)
    {
      state := Closed;
      recvBuffer.Close(Some(Buffers.Failure("stream reset by remote")));
      resets := resets + 1;
    }
  }
}
