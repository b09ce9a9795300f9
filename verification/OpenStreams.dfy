/** ts/src/transport.ts, `openStream`: the classes put together.  A call of a WSStream is, for the
    session whose stream it is on, a call of that one stream. */
module OpenStreams {
  import opened Bytes
  import opened YamuxStreams
  import opened YamuxSessions
  import opened WSStreams
  import Messages
  import Sessions
  import Streams

  // send up to its first await, on a stream of the session.
  method SendOn(session: YamuxSession, ws: WSStream, data: seq<Byte>, ghost s: Sessions.Session) returns (accepted: bool)
    requires session.Valid() && session.Shows(s)
    requires ws.ys.id in session.created && session.created[ws.ys.id] == ws.ys
    requires ws.Valid() && !Messages.Outstanding(ws.sending)
    modifies ws`sending, ws`done, ws.ys, session.ws`sent, session.ws`log
    ensures ws.Valid() && ws.View() == Messages.Send(old(ws.View()), data)
    ensures session.Valid() && session.Shows(Sessions.Put(s, ws.ys.id, ws.View().ys))
    ensures accepted == !Streams.WriteClosed(old(ws.ys.View()))
  {
    assert session.created[ws.ys.id].ws == session.ws;
    assert s.created[ws.ys.id] == ws.ys.View();
    ghost var t := Messages.Send(ws.View(), data).ys;
    accepted := ws.Send(data);
    assert ws.ys.View() == t;
    forall k | k in session.created && k != ws.ys.id
      ensures unchanged(session.created[k]) && unchanged(session.created[k].recvBuffer)
    {
    }
    session.OneStreamChanged(ws.ys.id, s, t);
  }

  // new WSStream(ys)
  method Wrap(session: YamuxSession, stream: YamuxStream, ghost s: Sessions.Session) returns (ws: WSStream)
    requires session.Valid() && session.Shows(s) && stream.Valid()
    ensures fresh(ws) && ws.Valid() && ws.ys == stream && ws.View() == Messages.Attach(stream.View())
    ensures session.Valid() && session.Shows(s)
  {
    ws := new WSStream(stream);
    session.StreamsUntouched(s);
  }

  // openStream from its await of open() on: a WSStream on the new stream, and send of the method name up
  // to its first await.  None where send throws.  `s` is the session as it is by then.
  method ContinueOpen(session: YamuxSession, stream: YamuxStream, name: seq<Byte>, ghost s: Sessions.Session)
    returns (r: Option<WSStream>)
    requires session.Valid() && session.Shows(s)
    requires stream.id in session.created && session.created[stream.id] == stream
    modifies stream, session.ws`sent, session.ws`log
    ensures r.None? <==> Streams.WriteClosed(s.created[stream.id])
    ensures session.Valid() && session.Shows(Named(s, stream.id, name))
    ensures r.Some? ==> fresh(r.value) && r.value.Valid()
    ensures r.Some? ==> r.value.View() == Messages.Send(Messages.Attach(s.created[stream.id]), name)
  {
    var ws := Wrap(session, stream, s);
    var accepted := SendOn(session, ws, name, s);
    return if accepted then Some(ws) else None;
  }

  // The session once the name's header has gone out on stream `id`.
  ghost function Named(s: Sessions.Session, id: nat, name: seq<Byte>): Sessions.Session
    requires id in s.created
  {
    Sessions.Put(s, id, Messages.Send(Messages.Attach(s.created[id]), name).ys)
  }
}
