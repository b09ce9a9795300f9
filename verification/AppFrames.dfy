/** The application frame both languages put on a stream: type byte, 32-bit little-endian length,
    payload. */
module AppFrames {
  import opened Bytes
  import opened Records

  datatype AppFrame = AppFrame(typ: Byte, payload: seq<Byte>)

  // The length field holds the payload's length modulo 2^32 (setUint32, PutUint32).
  function Header(typ: Byte, length: nat): (h: seq<Byte>)
    ensures |h| == APP_HEADER_SIZE
  {
    [typ] + LE32(length)
  }

  function Encode(f: AppFrame): seq<Byte> {
    Header(f.typ, |f.payload|) + f.payload
  }

  function EncodeAll(fs: seq<AppFrame>): seq<Byte> {
    if fs == [] then [] else Encode(fs[0]) + EncodeAll(fs[1..])
  }

  predicate Sendable(f: AppFrame) {
    |f.payload| < TWO_TO_THE_32
  }

  predicate AllSendable(fs: seq<AppFrame>) {
    forall i :: 0 <= i < |fs| ==> Sendable(fs[i])
  }

  function FromRecord(r: Record): AppFrame
    requires |r.header| == APP_HEADER_SIZE
  {
    AppFrame(r.header[0], r.body)
  }

  function ToRecord(f: AppFrame): Record {
    Record(Header(f.typ, |f.payload|), f.payload)
  }

  function ToRecords(fs: seq<AppFrame>): (rs: seq<Record>)
    ensures |rs| == |fs|
    ensures forall i :: 0 <= i < |fs| ==> rs[i] == ToRecord(fs[i])
  {
    seq(|fs|, i requires 0 <= i < |fs| => ToRecord(fs[i]))
  }

  function FromRecords(rs: seq<Record>): (fs: seq<AppFrame>)
    requires AllValid(AppFormat, rs)
    ensures |fs| == |rs|
    ensures forall i :: 0 <= i < |rs| ==> fs[i] == FromRecord(rs[i])
  {
    seq(|rs|, i requires 0 <= i < |rs| => FromRecord(rs[i]))
  }

  // The frames a reader finds in a byte string.
  function Decode(bytes: seq<Byte>): seq<AppFrame> {
    SplitSound(AppFormat, bytes);
    FromRecords(Split(AppFormat, bytes))
  }

  // A frame byte by byte: the type, the length with the low byte first, modulo 2^32, and the payload.
  lemma FrameBytes(f: AppFrame)
    ensures var m := Encode(f);
            && |m| == 5 + |f.payload| && m[0] == f.typ && m[5..] == f.payload
            && m[1] + 0x100 * (m[2] + 0x100 * (m[3] + 0x100 * (m[4] as int))) == |f.payload| % 0x1_0000_0000
  {
    LE32RoundTrip(|f.payload|);
  }

  lemma HeaderLength(typ: Byte, length: nat)
    ensures BodyLength(AppFormat, Header(typ, length)) == length % TWO_TO_THE_32
  {
    assert Header(typ, length)[1..5] == LE32(length);
    LE32RoundTrip(length);
  }

  lemma SendableIsValid(f: AppFrame)
    ensures Valid(AppFormat, ToRecord(f)) <==> Sendable(f)
  {
    HeaderLength(f.typ, |f.payload|);
  }

  lemma {:induction false} EncodeAllIsRaw(fs: seq<AppFrame>)
    ensures EncodeAll(fs) == RawAll(ToRecords(fs))
  {
    if fs != [] {
      EncodeAllIsRaw(fs[1..]);
      assert ToRecords(fs)[1..] == ToRecords(fs[1..]);
    }
  }

  lemma {:induction false} EncodeAllConcat(a: seq<AppFrame>, b: seq<AppFrame>)
    ensures EncodeAll(a + b) == EncodeAll(a) + EncodeAll(b)
  {
    EncodeAllIsRaw(a);
    EncodeAllIsRaw(b);
    EncodeAllIsRaw(a + b);
    RawAllConcat(ToRecords(a), ToRecords(b));
    assert ToRecords(a + b) == ToRecords(a) + ToRecords(b);
  }

  lemma SendableRecords(fs: seq<AppFrame>)
    requires AllSendable(fs)
    ensures AllValid(AppFormat, ToRecords(fs))
    ensures FromRecords(ToRecords(fs)) == fs
  {
    forall i | 0 <= i < |fs| ensures Valid(AppFormat, ToRecords(fs)[i]) {
      SendableIsValid(fs[i]);
    }
  }

  lemma FromRecordsConcat(a: seq<Record>, b: seq<Record>)
    requires AllValid(AppFormat, a) && AllValid(AppFormat, b)
    ensures AllValid(AppFormat, a + b)
    ensures FromRecords(a + b) == FromRecords(a) + FromRecords(b)
  {
  }

  // What one end writes, the other end reads: the same list of frames, followed by whatever the
  // rest of the bytes holds.
  lemma DecodeInvertsEncode(fs: seq<AppFrame>, rest: seq<Byte>)
    requires AllSendable(fs)
    ensures Decode(EncodeAll(fs) + rest) == fs + Decode(rest)
    ensures Tail(AppFormat, EncodeAll(fs) + rest) == Tail(AppFormat, rest)
  {
    SendableRecords(fs);
    EncodeAllIsRaw(fs);
    SplitOfRaw(AppFormat, ToRecords(fs), rest);
    SplitSound(AppFormat, rest);
    FromRecordsConcat(ToRecords(fs), Split(AppFormat, rest));
  }

  // Two lists of frames with the same bytes are the same list.
  lemma EncodingInjective(a: seq<AppFrame>, b: seq<AppFrame>)
    requires AllSendable(a) && AllSendable(b) && EncodeAll(a) == EncodeAll(b)
    ensures a == b
  {
    DecodeInvertsEncode(a, []);
    DecodeInvertsEncode(b, []);
    assert Decode([]) == [];
    assert a == a + Decode([]) == Decode(EncodeAll(a) + []);
    assert b == b + Decode([]) == Decode(EncodeAll(b) + []);
  }

  // A stream cut anywhere yields whole frames only, and only from the front.
  lemma CutYieldsWholeFrames(fs: seq<AppFrame>, cut: seq<Byte>)
    requires AllSendable(fs) && cut <= EncodeAll(fs)
    ensures Decode(cut) <= fs
  {
    SendableRecords(fs);
    EncodeAllIsRaw(fs);
    TruncationSafe(AppFormat, ToRecords(fs), cut);
    SplitSound(AppFormat, cut);
    forall i | 0 <= i < |Decode(cut)| ensures Decode(cut)[i] == fs[i] {
      assert Split(AppFormat, cut)[i] == ToRecords(fs)[i];
    }
  }

  // Exactly which frames survive the wire: those whose length fits the 32-bit field.
  lemma SurvivesExactly(f: AppFrame)
    ensures Decode(Encode(f)) == [f] <==> Sendable(f)
  {
    if Sendable(f) {
      DecodeInvertsEncode([f], []);
      assert EncodeAll([f]) == Encode(f) + EncodeAll([]);
      assert EncodeAll([f]) + [] == Encode(f);
      assert Decode([]) == [];
    } else {
      var bytes := Encode(f);
      HeaderLength(f.typ, |f.payload|);
      assert bytes[..APP_HEADER_SIZE] == Header(f.typ, |f.payload|);
      var n := FirstLength(AppFormat, bytes).value;
      assert n < |bytes|;
      assert |First(AppFormat, bytes).body| < |f.payload|;
      assert Decode(bytes)[0] == FromRecord(First(AppFormat, bytes));
    }
  }
}
