/** The yamux frame of ts/src/yamux.ts: a 12-byte big-endian header, and a payload on DATA frames. */
module YamuxFrames {
  import opened Bytes
  import opened Records

  const VERSION: Byte := 0

  const TYPE_WINDOW_UPDATE: nat := 1
  const TYPE_PING: nat := 2
  const TYPE_GO_AWAY: nat := 3

  const FLAG_SYN: nat := 0x01
  const FLAG_ACK: nat := 0x02
  const FLAG_FIN: nat := 0x04
  const FLAG_RST: nat := 0x08

  const INITIAL_WINDOW: nat := 0x4_0000

  datatype Frame = Frame(typ: nat, flags: nat, id: nat, length: nat, payload: seq<Byte>)

  // `flags & bit`, for a flag that is a power of two.
  predicate HasFlag(flags: nat, bit: nat)
    requires bit > 0
  {
    flags / bit % 2 == 1
  }

  // The header sendFrameRaw fills in; every field is reduced to its width.
  function HeaderBytes(f: Frame): (h: seq<Byte>)
    ensures |h| == YAMUX_HEADER_SIZE
  {
    [VERSION, f.typ % 0x100] + BE16(f.flags) + BE32(f.id) + BE32(f.length)
  }

  function ToRecord(f: Frame): Record {
    Record(HeaderBytes(f), f.payload)
  }

  // What readLoop reads out of a header, with the payload that follows it.
  function FromRecord(r: Record): Frame
    requires |r.header| == YAMUX_HEADER_SIZE
  {
    Frame(r.header[1], FromBE16(r.header[2..4]), FromBE32(r.header[4..8]), FromBE32(r.header[8..12]), r.body)
  }

  function FromRecords(rs: seq<Record>): (fs: seq<Frame>)
    requires AllValid(YamuxFormat, rs)
    ensures |fs| == |rs|
    ensures forall i :: 0 <= i < |rs| ==> fs[i] == FromRecord(rs[i])
  {
    seq(|rs|, i requires 0 <= i < |rs| => FromRecord(rs[i]))
  }

  function ToRecords(fs: seq<Frame>): (rs: seq<Record>)
    ensures |rs| == |fs|
    ensures forall i :: 0 <= i < |fs| ==> rs[i] == ToRecord(fs[i])
  {
    seq(|fs|, i requires 0 <= i < |fs| => ToRecord(fs[i]))
  }

  // The frames' bytes on the wire.
  function Wire(fs: seq<Frame>): seq<Byte> {
    RawAll(ToRecords(fs))
  }

  // The one-shot parse of the bytes of a connection.
  function ParseFrames(bytes: seq<Byte>): seq<Frame> {
    SplitSound(YamuxFormat, bytes);
    FromRecords(Split(YamuxFormat, bytes))
  }

  // A payload only on DATA, announced by the length field.
  predicate WellShaped(f: Frame) {
    && f.typ <= TYPE_GO_AWAY
    && (f.typ == TYPE_DATA ==> f.length == |f.payload|)
    && (f.typ != TYPE_DATA ==> f.payload == [])
  }

  // Flags, ids, lengths and windows fit their fields.
  predicate InRange(f: Frame) {
    f.flags < TWO_TO_THE_16 && f.id < TWO_TO_THE_32 && f.length < TWO_TO_THE_32
  }

  predicate AllCarried(fs: seq<Frame>) {
    forall i :: 0 <= i < |fs| ==> WellShaped(fs[i]) && InRange(fs[i])
  }

  // The header byte by byte: version 0, the type, and flags, id and length with the high byte first, each
  // modulo its width.
  lemma HeaderFields(f: Frame)
    ensures var h := HeaderBytes(f);
            && h[0] == 0 && h[1] == f.typ % 0x100
            && (h[2] as int) * 0x100 + h[3] == f.flags % 0x1_0000
            && (((h[4] as int) * 0x100 + h[5]) * 0x100 + h[6]) * 0x100 + h[7] == f.id % 0x1_0000_0000
            && (((h[8] as int) * 0x100 + h[9]) * 0x100 + h[10]) * 0x100 + h[11] == f.length % 0x1_0000_0000
  {
    BE16RoundTrip(f.flags);
    BE32RoundTrip(f.id);
    BE32RoundTrip(f.length);
  }

  // So readLoop reads them: from any header, whoever wrote it.
  lemma FieldsRead(r: Record)
    requires |r.header| == YAMUX_HEADER_SIZE
    ensures var f, h := FromRecord(r), r.header;
            && f.typ == h[1] && f.payload == r.body
            && f.flags == (h[2] as int) * 0x100 + h[3]
            && f.id == (((h[4] as int) * 0x100 + h[5]) * 0x100 + h[6]) * 0x100 + h[7]
            && f.length == (((h[8] as int) * 0x100 + h[9]) * 0x100 + h[10]) * 0x100 + h[11]
  {
  }

  lemma FieldsReadBack(f: Frame)
    ensures var g := FromRecord(ToRecord(f));
            && g.typ == f.typ % 0x100 && g.flags == f.flags % TWO_TO_THE_16
            && g.id == f.id % TWO_TO_THE_32 && g.length == f.length % TWO_TO_THE_32
  {
    HeaderFields(f);
    FieldsRead(ToRecord(f));
  }

  // The four low bits of the flags, each by itself.
  lemma FlagBits(flags: nat)
    ensures (if HasFlag(flags, FLAG_SYN) then 1 else 0) + (if HasFlag(flags, FLAG_ACK) then 2 else 0)
          + (if HasFlag(flags, FLAG_FIN) then 4 else 0) + (if HasFlag(flags, FLAG_RST) then 8 else 0) == flags % 16
  {
    LowBits(flags);
    assert HasFlag(flags, FLAG_SYN) <==> flags % 2 == 1;
    assert HasFlag(flags, FLAG_ACK) <==> flags / 2 % 2 == 1;
    assert HasFlag(flags, FLAG_FIN) <==> flags / 4 % 2 == 1;
    assert HasFlag(flags, FLAG_RST) <==> flags / 8 % 2 == 1;
  }

  lemma LowBits(x: nat)
    ensures x % 2 + 2 * (x / 2 % 2) + 4 * (x / 4 % 2) + 8 * (x / 8 % 2) == x % 16
  {
    var x1, x2, x3 := x / 2, x / 4, x / 8;
    assert x == x1 * 2 + x % 2 && x1 == x2 * 2 + x1 % 2 && x2 == x3 * 2 + x2 % 2;
    LowDigits(x3, x % 2 + 2 * (x1 % 2) + 4 * (x2 % 2));
  }

  lemma LowDigits(high: nat, low: nat)
    requires low < 8
    ensures (high * 8 + low) % 16 == high % 2 * 8 + low
  {
    assert high * 8 + low == high / 2 * 16 + (high % 2 * 8 + low);
  }

  // A well-shaped frame is read back as it was sent exactly when its fields fit.
  lemma FrameSurvivesExactly(f: Frame)
    requires WellShaped(f)
    ensures FromRecord(ToRecord(f)) == f <==> InRange(f)
    ensures InRange(f) ==> Valid(YamuxFormat, ToRecord(f))
  {
    FieldsReadBack(f);
    FitsExactly(f.flags, TWO_TO_THE_16);
    FitsExactly(f.id, TWO_TO_THE_32);
    FitsExactly(f.length, TWO_TO_THE_32);
    assert f.typ % 0x100 == f.typ;
    var g := FromRecord(ToRecord(f));
    assert g == f <==> g.flags == f.flags && g.id == f.id && g.length == f.length;
  }

  lemma FitsExactly(x: nat, m: nat)
    requires m > 0
    ensures x % m == x <==> x < m
  {
  }

  // The parse inverts sendFrameRaw, for every list of frames, however far the wire has got.
  lemma ParseInvertsWire(fs: seq<Frame>, rest: seq<Byte>)
    requires AllCarried(fs)
    ensures AllValid(YamuxFormat, ToRecords(fs))
    ensures FromRecords(ToRecords(fs)) == fs
    ensures ParseFrames(Wire(fs) + rest) == fs + ParseFrames(rest)
    ensures Tail(YamuxFormat, Wire(fs) + rest) == Tail(YamuxFormat, rest)
  {
    forall i | 0 <= i < |fs| ensures Valid(YamuxFormat, ToRecords(fs)[i]) && FromRecord(ToRecords(fs)[i]) == fs[i] {
      FrameSurvivesExactly(fs[i]);
    }
    SplitOfRaw(YamuxFormat, ToRecords(fs), rest);
    SplitSound(YamuxFormat, rest);
    FromRecordsConcat(ToRecords(fs), Split(YamuxFormat, rest));
  }

  lemma FromRecordsConcat(a: seq<Record>, b: seq<Record>)
    requires AllValid(YamuxFormat, a) && AllValid(YamuxFormat, b)
    ensures AllValid(YamuxFormat, a + b)
    ensures FromRecords(a + b) == FromRecords(a) + FromRecords(b)
  {
  }

  lemma FromRecordsAppend(rs: seq<Record>, r: Record)
    requires AllValid(YamuxFormat, rs) && Valid(YamuxFormat, r)
    ensures AllValid(YamuxFormat, rs + [r])
    ensures FromRecords(rs + [r]) == FromRecords(rs) + [FromRecord(r)]
  {
  }

  // A connection cut anywhere yields whole frames, from the front, and nothing else.
  lemma CutWireParses(fs: seq<Frame>, cut: seq<Byte>)
    requires AllCarried(fs) && cut <= Wire(fs)
    ensures ParseFrames(cut) <= fs
  {
    ParseInvertsWire(fs, []);
    TruncationSafe(YamuxFormat, ToRecords(fs), cut);
    SplitSound(YamuxFormat, cut);
    forall i | 0 <= i < |ParseFrames(cut)| ensures ParseFrames(cut)[i] == fs[i] {
      assert Split(YamuxFormat, cut)[i] == ToRecords(fs)[i];
      assert FromRecords(ToRecords(fs))[i] == fs[i];
    }
  }

  // ----- one stream's share of the frames -----

  predicate CarriesData(f: Frame, id: nat) {
    f.typ == TYPE_DATA && f.id == id
  }

  // The bytes the DATA frames of stream `id` carry, in order.
  function DataOf(fs: seq<Frame>, id: nat): seq<Byte> {
    if fs == [] then []
    else (if CarriesData(fs[0], id) then fs[0].payload else []) + DataOf(fs[1..], id)
  }

  lemma {:induction false} DataOfConcat(a: seq<Frame>, b: seq<Frame>, id: nat)
    ensures DataOf(a + b, id) == DataOf(a, id) + DataOf(b, id)
  {
    if a == [] {
      assert a + b == b;
    } else {
      DataOfConcat(a[1..], b, id);
      assert (a + b)[1..] == a[1..] + b;
      ConcatAssociative(if CarriesData(a[0], id) then a[0].payload else [], DataOf(a[1..], id), DataOf(b, id));
    }
  }

  lemma DataOfAppend(a: seq<Frame>, f: Frame, id: nat)
    ensures DataOf(a + [f], id) == DataOf(a, id) + (if CarriesData(f, id) then f.payload else [])
  {
    DataOfConcat(a, [f], id);
    assert [f][1..] == [];
  }

  lemma DataOfPrefix(a: seq<Frame>, b: seq<Frame>, id: nat)
    requires a <= b
    ensures DataOf(a, id) <= DataOf(b, id)
  {
    DataOfConcat(a, b[|a|..], id);
    assert b == a + b[|a|..];
  }
}
