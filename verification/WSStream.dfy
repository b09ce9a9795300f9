/** The class WSStream of ts/src/stream.ts, proved to take the steps of `Messages`. */
module WSStreams {
  import opened Bytes
  import opened Records
  import opened AppFrames
  import opened YamuxStreams
  import opened Messages
  import Streams
  import R = Receiving
  import P = Pulls

  class WSStream {
    const ys: YamuxStream
    // the awaits at which a call of send and a call of recv are suspended
    var sending: Sender
    var receiving: P.Phase
    ghost var done: seq<seq<Byte>>
    ghost var records: seq<Record>
    ghost var results: seq<R.Received>
    ghost var failed: bool

    ghost function View(): Messenger
      reads this, ys, ys.recvBuffer
    {
      Messenger(ys.View(), sending, done, receiving, records, results, failed)
    }

    ghost predicate Valid()
      reads this, ys, ys.recvBuffer
    {
      ys.Valid()
    }

    constructor (ys: YamuxStream)
      requires ys.Valid()
      ensures Valid() && this.ys == ys && View() == Attach(ys.View())
    {
      this.ys := ys;
      sending, receiving := Between, P.Idle;
      done, records, results, failed := [], [], [], false;
    }

    // The five bytes of a data frame's header, filled in place.
    static method FrameHeader(length: nat) returns (hdr: seq<Byte>)
      ensures hdr == Header(FRAME_DATA, length)
      ensures |hdr| == 5 && hdr[0] == 0
      ensures hdr[1] + 0x100 * (hdr[2] + 0x100 * (hdr[3] + 0x100 * (hdr[4] as int))) == length % 0x1_0000_0000
    {
      var bytes := new Byte[APP_HEADER_SIZE];
      bytes[0] := FRAME_DATA;
      bytes[1], bytes[2] := length % 0x100, length / 0x100 % 0x100;
      bytes[3], bytes[4] := length / 0x1_0000 % 0x100, length / 0x100_0000 % 0x100;
      hdr := bytes[..];
      LE32RoundTrip(length);
    }

    // Returns false where send throws at once.
    method Send(data: seq<Byte>) returns (accepted: bool)
      requires Valid() && ys.ws.Valid() && !Outstanding(sending)
      modifies this`sending, this`done, ys, ys.ws`sent, ys.ws`log
      ensures Valid() && ys.ws.Valid() && View() == Messages.Send(old(View()), data)
      ensures ys.ws.log == old(ys.ws.log) + Streams.NewFrames(old(ys.View()), ys.View())
      ensures accepted == !Streams.WriteClosed(old(ys.View()))
    {
      var hdr := FrameHeader(|data|);
      accepted := ys.Write(hdr);
      if accepted {
        done := Attempted(View());
        sending := HeaderOut(data);
      }
    }

    // The write that send awaits has returned.
    method ContinueSend()
      requires Valid() && ys.ws.Valid() && WriteReturned(ys.View()) && (sending.HeaderOut? || sending.PayloadOut?)
      modifies this`sending, this`done, ys, ys.ws`sent, ys.ws`log
      ensures Valid() && ys.ws.Valid() && View() == Messages.ContinueSend(old(View()))
      ensures ys.ws.log == old(ys.ws.log) + Streams.NewFrames(old(ys.View()), ys.View())
    {
      if sending.HeaderOut? && |sending.payload| > 0 {
        var accepted := ys.Write(sending.payload);
        sending := if accepted then PayloadOut(sending.payload) else Broken(sending.payload);
      } else {
        done := done + [sending.payload];
        sending := Between;
        ConcatEmpty(ys.ws.log);
      }
    }

    method Recv()
      requires Valid() && MessengerOk(View()) && receiving.Idle?
      modifies this`receiving, ys.recvBuffer
      ensures Valid() && View() == Step(old(View()), RecvCall)
    {
      var _ := ys.ReadExact(APP_HEADER_SIZE);
      receiving := P.WantHeader;
    }

    // The read that recv awaits is settled.
    method ContinueRecv()
      requires Valid() && MessengerOk(View()) && P.Ready(ys.recvBuffer.View(), receiving)
      modifies this`receiving, this`records, this`results, this`failed, ys.recvBuffer
      ensures Valid() && View() == Step(old(View()), RecvContinues)
    {
      P.OwnsContinue(AppFormat, ys.recvBuffer.View(), receiving);
      match ys.recvBuffer.calls[|ys.recvBuffer.calls| - 1].outcome
      case Rejected(e) =>
        Return(R.Failed(e));
        failed := true;
      case Resolved(bytes) =>
        if receiving.WantHeader? && BodyLength(AppFormat, bytes) > 0 {
          var _ := ys.ReadExact(BodyLength(AppFormat, bytes));
          receiving := P.WantBody(bytes);
        } else {
          var header := if receiving.WantBody? then receiving.header else bytes;
          var payload := if receiving.WantBody? then bytes else [];
          if !failed {
            records := records + [Record(header, payload)];
          }
          Return(if header[0] == FRAME_ERROR then R.Remote(payload) else R.Payload(payload));
        }
    }

    method Return(result: R.Received)
      modifies this`receiving, this`results
      ensures receiving == P.Idle && results == old(results) + [result]
    {
      receiving := P.Idle;
      results := results + [result];
    }

    method Close()
      requires Valid() && ys.ws.Valid()
      modifies ys, ys.ws`sent, ys.ws`log
      ensures Valid() && ys.ws.Valid() && View() == old(View()).(ys := Streams.CloseWrite(old(ys.View())))
      ensures ys.ws.log == old(ys.ws.log) + Streams.NewFrames(old(ys.View()), ys.View())
    {
      ys.CloseWrite();
    }
  }
}
