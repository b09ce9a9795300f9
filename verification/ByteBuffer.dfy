/** bytebuffer.ts: a list of chunks with exact-length asynchronous reads. */
module ByteBuffers {
  import opened Bytes
  import opened Buffers

  // The chunks after their first `take` bytes, all of the first chunk or a part of it, are gone.
  function Shifted(chunks: seq<seq<Byte>>, take: nat): seq<seq<Byte>>
    requires chunks != [] && take <= |chunks[0]|
  {
    if take == |chunks[0]| then chunks[1..] else [chunks[0][take..]] + chunks[1..]
  }

  // Bytes moved from the first chunk to the bytes before it stay where they are in the whole.
  lemma MoveFront(before: seq<Byte>, chunks: seq<seq<Byte>>, take: nat)
    requires chunks != [] && take <= |chunks[0]|
    ensures (before + chunks[0][..take]) + Flatten(Shifted(chunks, take)) == before + Flatten(chunks)
  {
    var chunk, rest := chunks[0], Flatten(chunks[1..]);
    assert Flatten(Shifted(chunks, take)) == chunk[take..] + rest by {
      if take < |chunk| {
        ConcatFirst([chunk[take..]], chunks[1..]);
      }
    }
    assert chunk == chunk[..take] + chunk[take..];
    ConcatAssociative(chunk[..take], chunk[take..], rest);
    ConcatAssociative(before, chunk[..take], Flatten(Shifted(chunks, take)));
  }

  lemma Halves(a: seq<Byte>, b: seq<Byte>)
    ensures (a + b)[..|a|] == a && (a + b)[|a|..] == b
  {
  }

  // Uint8Array.set: the data written into the array at an offset.
  method Set(bytes: array<Byte>, data: seq<Byte>, offset: nat)
    requires offset + |data| <= bytes.Length
    modifies bytes
    ensures bytes[..offset + |data|] == old(bytes[..offset]) + data
  {
    forall i | 0 <= i < |data| {
      bytes[offset + i] := data[i];
    }
  }

  class ByteBuffer {
    var chunks: seq<seq<Byte>>
    var totalLen: nat
    var waiting: Option<Parked>
    var closed: bool
    var closeError: Option<Error>
    // the promises handed out; the engine, not the object, keeps them in the program
    var calls: seq<Read>
    ghost var accepted: seq<Byte>
    ghost var delivered: seq<Byte>

    ghost function View(): Buffer
      reads this
    {
      Buffer(Flatten(chunks), waiting, closed, closeError, calls, accepted, delivered)
    }

    ghost predicate Valid()
      reads this
    {
      && totalLen == |Flatten(chunks)|
      && (forall i :: 0 <= i < |chunks| ==> chunks[i] != [])
      && (waiting.Some? ==> waiting.value.promise < |calls|)
    }

    constructor ()
      ensures Valid() && View() == EmptyBuffer
    {
      chunks, totalLen, waiting, closed, closeError := [], 0, None, false, None;
      calls, accepted, delivered := [], [], [];
    }

    method Push(data: seq<Byte>)
      requires Valid()
      modifies this
      ensures Valid() && View() == Buffers.Push(old(View()), data)
    {
      if closed {
        return;
      }
      if |data| == 0 {
        return;
      }
      FlattenAppend(chunks, data);
      chunks := chunks + [data];
      totalLen := totalLen + |data|;
      accepted := accepted + data;
      TryResolve();
    }

    method Close(err: Option<Error>)
      requires Valid()
      modifies this
      ensures Valid() && View() == Buffers.Close(old(View()), err)
    {
      closed := true;
      closeError := Some(ErrorOr(err));
      if waiting.Some? {
        calls := calls[waiting.value.promise := Read(calls[waiting.value.promise].need, Rejected(closeError.value))];
        waiting := None;
      }
    }

    // Returns the promise: an index into `calls`.
    method ReadExact(n: nat) returns (promise: nat)
      requires Valid()
      modifies this
      ensures Valid() && View() == Buffers.ReadExact(old(View()), n)
      ensures promise == |old(calls)| && |calls| == promise + 1
    {
      promise := |calls|;
      if n == 0 {
        calls := calls + [Read(0, Resolved([]))];
        return;
      }
      if n <= totalLen {
        var out := Consume(n);
        calls := calls + [Read(n, Resolved(out))];
        return;
      }
      if closed {
        calls := calls + [Read(n, Rejected(ErrorOr(closeError)))];
        return;
      }
      calls := calls + [Read(n, Pending)];
      waiting := Some(Parked(promise, n));
    }

    method TryResolve()
      requires totalLen == |Flatten(chunks)|
      requires forall i :: 0 <= i < |chunks| ==> chunks[i] != []
      requires waiting.Some? ==> waiting.value.promise < |calls|
      modifies this
      ensures totalLen == |Flatten(chunks)|
      ensures forall i :: 0 <= i < |chunks| ==> chunks[i] != []
      ensures View() == Buffers.TryResolve(old(View()))
    {
      if waiting.None? {
        return;
      }
      if totalLen >= waiting.value.need {
        var Parked(promise, need) := waiting.value;
        waiting := None;
        var out := Consume(need);
        calls := calls[promise := Read(calls[promise].need, Resolved(out))];
      }
    }

    // Takes the first n bytes off the chunks, copying them into a fresh array.
    method Consume(n: nat) returns (out: seq<Byte>)
      requires n <= totalLen == |Flatten(chunks)|
      requires forall i :: 0 <= i < |chunks| ==> chunks[i] != []
      modifies this`chunks, this`totalLen, this`delivered
      ensures totalLen == |Flatten(chunks)|
      ensures forall i :: 0 <= i < |chunks| ==> chunks[i] != []
      ensures out == old(Flatten(chunks))[..n]
      ensures View() == Buffers.Consume(old(View()), n)
    {
      var bytes := new Byte[n];
      var offset := 0;
      while offset < n
        invariant 0 <= offset <= n
        invariant forall i :: 0 <= i < |chunks| ==> chunks[i] != []
        invariant bytes[..offset] + Flatten(chunks) == old(Flatten(chunks))
        invariant totalLen == old(totalLen)
        modifies this`chunks, bytes
      {
        var chunk := chunks[0];
        var take := Min(|chunk|, n - offset);
        ghost var before, was := bytes[..offset], chunks;
        Set(bytes, chunk[..take], offset);
        offset := offset + take;
        if take == |chunk| {
          chunks := chunks[1..];
        } else {
          chunks := [chunk[take..]] + chunks[1..];
        }
        MoveFront(before, was, take);
      }
      totalLen := totalLen - n;
      out := bytes[..];
      delivered := delivered + out;
      assert out == bytes[..n];
      Halves(out, Flatten(chunks));
    }
  }
}
