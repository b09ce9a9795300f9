/** ws/router.go: registration and dispatch of the calls arriving on yamux streams.

    Handlers, protobuf and the text of a panic value are parameters: a unary handler is any function
    from the request bytes to a message, an error text or a panic text; marshalling is any partial
    function; a stream handler is any function from the bytes that arrive to the bytes it writes. */
module Routers {
  import opened Bytes
  import opened Records
  import opened AppFrames
  import opened GoStreams

  type Text = seq<Byte>

  datatype Reply<+M> = Returned(message: M) | Erred(reason: Text) | Panicked(reason: Text)

  type UnaryHandler<!M> = seq<Byte> -> Reply<M>

  // What a stream handler did: the bytes it wrote, whether it half-closed, whether it panicked.
  datatype Handled = Handled(written: seq<Byte>, closed: bool, panic: Option<Text>)

  type StreamHandler = seq<Byte> -> Handled

  datatype Registry<!M> = Registry(
    unary: map<Text, UnaryHandler<M>>,
    stream: map<Text, StreamHandler>,
    marshal: M -> Result<seq<Byte>, Text>)

  // The bytes of a string literal.
  function Ascii(s: string): Text {
    seq(|s|, i requires 0 <= i < |s| => if s[i] as int < 0x100 then s[i] as int else 0)
  }

  function ErrorFrame(t: Text): AppFrame {
    AppFrame(FRAME_ERROR, t)
  }

  // ----- the meaning of a call made in the same process -----

  // A unary call with nothing between caller and handler: the marshalled result, or the text of
  // the error.
  function LocalUnary<M>(g: Registry<M>, h: UnaryHandler<M>, request: seq<Byte>): Result<seq<Byte>, Text> {
    match h(request)
    case Panicked(v) => Err(Ascii("handler panic: ") + v)
    case Erred(e) => Err(e)
    case Returned(m) =>
      match g.marshal(m)
      case Ok(bytes) => Ok(bytes)
      case Err(e) => Err(Ascii("marshal response: ") + e)
  }

  function LocalCall<M>(g: Registry<M>, name: Text, request: seq<Byte>): Result<seq<Byte>, Text> {
    if name in g.unary then LocalUnary(g, g.unary[name], request)
    else Err(Ascii("unknown method: ") + name)
  }

  function ReplyFrame(r: Result<seq<Byte>, Text>): AppFrame {
    match r
    case Ok(bytes) => AppFrame(FRAME_DATA, bytes)
    case Err(text) => ErrorFrame(text)
  }

  // ----- the router -----

  class WSRouter<M> {
    var unary: map<Text, UnaryHandler<M>>
    var stream: map<Text, StreamHandler>
    const marshal: M -> Result<seq<Byte>, Text>

    ghost function View(): Registry<M>
      reads this
    {
      Registry(unary, stream, marshal)
    }

    constructor (marshal: M -> Result<seq<Byte>, Text>)
      ensures unary == map[] && stream == map[] && this.marshal == marshal
    {
      unary, stream := map[], map[];
      this.marshal := marshal;
    }

    method Handle(name: Text, h: UnaryHandler<M>)
      modifies this
      ensures unary == old(unary)[name := h] && stream == old(stream)
    {
      unary := unary[name := h];
    }

    method HandleStream(name: Text, h: StreamHandler)
      modifies this
      ensures stream == old(stream)[name := h] && unary == old(unary)
    {
      stream := stream[name := h];
    }

    // Everything the server writes in answer to one stream; the deferred Close runs on every path.
    method Dispatch(ys: Conn)
      requires !ys.writeClosed
      modifies ys
      ensures ys.output == old(ys.output) + Answer(View(), old(ys.input))
      ensures ys.writeClosed
    {
      DispatchBody(ys);
      ys.Close();
    }

    method DispatchBody(ys: Conn)
      requires !ys.writeClosed
      modifies ys
      ensures ys.output == old(ys.output) + Answer(View(), old(ys.input))
    {
      var first := ReadFrame(ys);
      if first.Err? {
        return;
      }
      var AppFrame(typ, name) := first.value;
      if typ != FRAME_DATA {
        var _ := WriteFrame(ys, FRAME_ERROR, Ascii("first frame must be data (method name)"));
        return;
      }
      if name in unary {
        HandleUnary(ys, unary[name]);
      } else if name in stream {
        RunStream(ys, stream[name]);
      } else {
        var _ := WriteFrame(ys, FRAME_ERROR, Ascii("unknown method: ") + name);
      }
    }

    method HandleUnary(ys: Conn, h: UnaryHandler<M>)
      requires !ys.writeClosed
      modifies ys
      ensures ys.output == old(ys.output) + UnaryAnswer(View(), h, old(ys.input))
      ensures !ys.writeClosed
    {
      var frame := ReadFrame(ys);
      if frame.Err? {
        return;
      }
      if frame.value.typ != FRAME_DATA {
        var _ := WriteFrame(ys, FRAME_ERROR, Ascii("expected data frame for request"));
        return;
      }
      var resp := SafeCallUnary(frame.value.payload, h);
      if resp.Err? {
        var _ := WriteFrame(ys, FRAME_ERROR, resp.error);
        return;
      }
      var data := marshal(resp.value);
      if data.Err? {
        var _ := WriteFrame(ys, FRAME_ERROR, Ascii("marshal response: ") + data.error);
        return;
      }
      var _ := WriteFrame(ys, FRAME_DATA, data.value);
    }

    // A panic becomes an error with the panic's text.
    method SafeCallUnary(payload: seq<Byte>, h: UnaryHandler<M>) returns (r: Result<M, Text>)
      ensures r.Ok? <==> h(payload).Returned?
      ensures r.Ok? ==> h(payload) == Returned(r.value)
      ensures h(payload).Erred? ==> r == Err(h(payload).reason)
      ensures h(payload).Panicked? ==> r == Err(Ascii("handler panic: ") + h(payload).reason)
    {
      match h(payload)
      case Returned(m) => r := Ok(m);
      case Erred(e) => r := Err(e);
      case Panicked(v) => r := Err(Ascii("handler panic: ") + v);
    }

    method RunStream(ys: Conn, h: StreamHandler)
      requires !ys.writeClosed
      modifies ys
      ensures ys.output == old(ys.output) + StreamAnswer(h, old(ys.input))
    {
      var done := h(ys.input);
      var _ := ys.Write(done.written);
      ys.writeClosed := done.closed;
      Recover(ys, done.panic);
    }

    // The deferred function: a panic is reported to the client.
    method Recover(ys: Conn, panic: Option<Text>)
      modifies ys`output
      ensures ys.output == old(ys.output) +
              (if panic.Some? && !ys.writeClosed then Encode(ErrorFrame(Ascii("handler panic: ") + panic.value)) else [])
    {
      if panic.Some? {
        var _ := WriteFrame(ys, FRAME_ERROR, Ascii("handler panic: ") + panic.value);
      }
    }
  }

  function StreamAnswer(h: StreamHandler, input: seq<Byte>): seq<Byte> {
    var done := h(input);
    done.written +
    (if done.panic.Some? && !done.closed then Encode(ErrorFrame(Ascii("handler panic: ") + done.panic.value)) else [])
  }

  function UnaryAnswer<M>(g: Registry<M>, h: UnaryHandler<M>, input: seq<Byte>): seq<Byte> {
    match FrameAt(input)
    case Err(_) => []
    case Ok(f) =>
      if f.typ != FRAME_DATA then Encode(ErrorFrame(Ascii("expected data frame for request")))
      else Encode(ReplyFrame(LocalUnary(g, h, f.payload)))
  }

  // What the server writes when `input` is all the client sends.
  function Answer<M>(g: Registry<M>, input: seq<Byte>): seq<Byte> {
    match FrameAt(input)
    case Err(_) => []
    case Ok(f) =>
      var rest := AfterFrame(input);
      if f.typ != FRAME_DATA then Encode(ErrorFrame(Ascii("first frame must be data (method name)")))
      else if f.payload in g.unary then UnaryAnswer(g, g.unary[f.payload], rest)
      else if f.payload in g.stream then StreamAnswer(g.stream[f.payload], rest)
      else Encode(ErrorFrame(Ascii("unknown method: ") + f.payload))
  }
}
