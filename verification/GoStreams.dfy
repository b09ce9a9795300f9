/** ws/stream.go: the Go end of the application frames, over one yamux stream. */
module GoStreams {
  import opened Bytes
  import opened Records
  import opened AppFrames

  // io.EOF, io.ErrUnexpectedEOF, and the error of a write side that was closed.
  datatype IoError = Eof | UnexpectedEof | WriteClosed

  datatype Result<+T, +E> = Ok(value: T) | Err(error: E)

  // What is left of a frame that is not all there: nothing, a cut inside the header, a header
  // without any body byte (which ReadFull reports as a clean end), or a cut inside the body.
  function CutError(input: seq<Byte>): IoError {
    if |input| == 0 || |input| == APP_HEADER_SIZE then Eof else UnexpectedEof
  }

  // What ReadFrame makes of `input` when that is all that will ever arrive: the first frame and the
  // rest, or an error and everything consumed.
  function FrameAt(input: seq<Byte>): Result<AppFrame, IoError> {
    if FirstLength(AppFormat, input).Some? then Ok(FromRecord(First(AppFormat, input))) else Err(CutError(input))
  }

  function AfterFrame(input: seq<Byte>): seq<Byte> {
    match FirstLength(AppFormat, input)
    case Some(n) => input[n..]
    case None => []
  }

  /** One accepted yamux stream: the bytes the peer sends before its FIN, those still unread, and
      the bytes written back. */
  class Conn {
    var input: seq<Byte>
    var output: seq<Byte>
    var writeClosed: bool

    constructor (bytes: seq<Byte>)
      ensures input == bytes && output == [] && !writeClosed
    {
      input, output, writeClosed := bytes, [], false;
    }

    // io.ReadFull: n bytes, or everything there is and an error telling a clean end from a cut.
    method ReadFull(n: nat) returns (r: Result<seq<Byte>, IoError>)
      modifies this`input
      ensures n <= |old(input)| ==> r == Ok(old(input)[..n]) && input == old(input)[n..]
      ensures n > |old(input)| ==> r == Err(if old(input) == [] then Eof else UnexpectedEof) && input == []
    {
      if n <= |input| {
        r := Ok(input[..n]);
        input := input[n..];
      } else {
        r := Err(if input == [] then Eof else UnexpectedEof);
        input := [];
      }
    }

    method Write(data: seq<Byte>) returns (r: Result<nat, IoError>)
      modifies this`output
      ensures writeClosed ==> r == Err(WriteClosed) && output == old(output)
      ensures !writeClosed ==> r == Ok(|data|) && output == old(output) + data
    {
      if writeClosed {
        r := Err(WriteClosed);
      } else {
        output := output + data;
        r := Ok(|data|);
      }
    }

    method Close()
      modifies this`writeClosed
      ensures writeClosed
    {
      writeClosed := true;
    }
  }

  // The bytes are the first frame and the rest, if there is a whole frame at all.
  lemma FrontFrame(input: seq<Byte>)
    ensures match FrameAt(input)
            case Ok(f) => input == Encode(f) + AfterFrame(input) && Sendable(f)
            case Err(_) => Decode(input) == [] && AfterFrame(input) == []
  {
    var n := FirstLength(AppFormat, input);
    if n.Some? {
      var r := First(AppFormat, input);
      HeaderBack(r.header);
      CutAt(input, n.value);
    }
  }

  // A header is the type byte and the length it announces.
  lemma HeaderBack(h: seq<Byte>)
    requires |h| == APP_HEADER_SIZE
    ensures Header(h[0], BodyLength(AppFormat, h)) == h && BodyLength(AppFormat, h) < TWO_TO_THE_32
  {
    var a, b, c, d: int := h[1], h[2], h[3], h[4];
    LE32Back(a, b, c, d);
    assert h[1..5] == [h[1], h[2], h[3], h[4]];
    assert h == [h[0]] + h[1..5];
  }

  lemma LE32Back(a: Byte, b: Byte, c: Byte, d: Byte)
    ensures LE32(FromLE32([a, b, c, d])) == [a, b, c, d] && FromLE32([a, b, c, d]) < TWO_TO_THE_32
  {
    var x := FromLE32([a, b, c, d]);
    assert x == a + 0x100 * (b + 0x100 * (c + 0x100 * (d as int)));
    assert x / 0x100 == b + 0x100 * (c + 0x100 * (d as int));
    assert x / 0x1_0000 == c + 0x100 * (d as int);
    assert x / 0x100_0000 == d;
  }

  method ReadFrame(r: Conn) returns (result: Result<AppFrame, IoError>)
    modifies r`input
    ensures result == FrameAt(old(r.input)) && r.input == AfterFrame(old(r.input))
    ensures result.Ok? ==> old(r.input) == Encode(result.value) + r.input && Sendable(result.value)
    ensures result.Err? ==> Decode(old(r.input)) == [] && r.input == []
    ensures result.Err? ==> result.error == if |old(r.input)| == 0 || |old(r.input)| == 5 then Eof else UnexpectedEof
  {
    ghost var before := r.input;
    FrontFrame(before);
    var hdr := r.ReadFull(APP_HEADER_SIZE);
    if hdr.Err? {
      return Err(hdr.error);
    }
    var typ := hdr.value[0];
    var size := FromLE32(hdr.value[1..5]);
    assert r.input == before[APP_HEADER_SIZE..];
    var data := r.ReadFull(size);
    if data.Err? {
      return Err(data.error);
    }
    assert data.value == before[APP_HEADER_SIZE..APP_HEADER_SIZE + size];
    return Ok(AppFrame(typ, data.value));
  }

  // The header array is filled in place and written before the payload.
  method WriteFrame(w: Conn, typ: Byte, data: seq<Byte>) returns (result: Result<nat, IoError>)
    modifies w`output
    ensures !w.writeClosed ==> result.Ok? && w.output == old(w.output) + Encode(AppFrame(typ, data))
    ensures !w.writeClosed ==>
              var m := w.output[|old(w.output)|..];
              && |m| == 5 + |data| && m[5..] == data && m[0] == typ
              && m[1] + 0x100 * (m[2] + 0x100 * (m[3] + 0x100 * (m[4] as int))) == |data| % 0x1_0000_0000
    ensures w.writeClosed ==> result == Err(WriteClosed) && w.output == old(w.output)
  {
    var hdr := new Byte[APP_HEADER_SIZE];
    hdr[0] := typ;
    hdr[1] := |data| % 0x100;
    hdr[2] := |data| / 0x100 % 0x100;
    hdr[3] := |data| / 0x1_0000 % 0x100;
    hdr[4] := |data| / 0x100_0000 % 0x100;
    assert hdr[..] == Header(typ, |data|);
    result := w.Write(hdr[..]);
    if result.Err? {
      return;
    }
    result := w.Write(data);
    ConcatAssociative(old(w.output), Header(typ, |data|), data);
    FrameBytes(AppFrame(typ, data));
  }

  // ----- Stream.Recv, Send, SendError -----

  datatype RecvError = Io(error: IoError) | RemoteError(message: seq<Byte>)

  method Recv(s: Conn) returns (result: Result<seq<Byte>, RecvError>)
    modifies s`input
    ensures s.input == AfterFrame(old(s.input))
    ensures result == match FrameAt(old(s.input))
                      case Err(e) => Err(Io(e))
                      case Ok(f) => if f.typ == FRAME_ERROR then Err(RemoteError(f.payload)) else Ok(f.payload)
  {
    var f := ReadFrame(s);
    if f.Err? {
      return Err(Io(f.error));
    }
    if f.value.typ == FRAME_ERROR {
      return Err(RemoteError(f.value.payload));
    }
    return Ok(f.value.payload);
  }

  method Send(s: Conn, data: seq<Byte>) returns (result: Result<nat, IoError>)
    modifies s`output
    ensures !s.writeClosed ==> result.Ok? && s.output == old(s.output) + Encode(AppFrame(FRAME_DATA, data))
    ensures s.writeClosed ==> result == Err(WriteClosed) && s.output == old(s.output)
  {
    result := WriteFrame(s, FRAME_DATA, data);
  }

  method SendError(s: Conn, message: seq<Byte>) returns (result: Result<nat, IoError>)
    modifies s`output
    ensures !s.writeClosed ==> result.Ok? && s.output == old(s.output) + Encode(AppFrame(FRAME_ERROR, message))
    ensures s.writeClosed ==> result == Err(WriteClosed) && s.output == old(s.output)
  {
    result := WriteFrame(s, FRAME_ERROR, message);
  }

  // Frames the reader takes off one after another until the first error.
  function FramesOf(input: seq<Byte>): seq<AppFrame>
    decreases |input|
  {
    match FrameAt(input)
    case Ok(f) => [f] + FramesOf(AfterFrame(input))
    case Err(_) => []
  }

  // The Go reader, which always issues the second read, and the one-shot parse find the same frames.
  lemma {:induction false} GoReadsDecode(input: seq<Byte>)
    ensures FramesOf(input) == Decode(input)
    decreases |input|
  {
    if FirstLength(AppFormat, input).Some? {
      GoReadsDecode(AfterFrame(input));
    }
  }
}
