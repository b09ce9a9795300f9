/** Both wire formats of the program are sequences of records: a header of fixed size whose
    bytes fix the length of the body that follows.

    - the application format of stream.ts and stream.go: 5-byte header, little-endian length;
    - the yamux format of yamux.ts: 12-byte header, and a body only after a DATA header.

    `Split` is the one-shot parse of a byte string into the complete records at its front,
    `Tail` is what it leaves. */
module Records {
  import opened Bytes

  datatype Format = AppFormat | YamuxFormat

  const APP_HEADER_SIZE: nat := 5
  const YAMUX_HEADER_SIZE: nat := 12
  const TYPE_DATA: nat := 0

  // The type byte of an application frame.
  const FRAME_DATA: Byte := 0x00
  const FRAME_ERROR: Byte := 0x01

  function HeaderSize(f: Format): (n: nat)
    ensures n > 0
  {
    match f
    case AppFormat => APP_HEADER_SIZE
    case YamuxFormat => YAMUX_HEADER_SIZE
  }

  function BodyLength(f: Format, header: seq<Byte>): nat
    requires |header| == HeaderSize(f)
  {
    match f
    case AppFormat => FromLE32(header[1..5])
    case YamuxFormat => if header[1] == TYPE_DATA then FromBE32(header[8..12]) else 0
  }

  datatype Record = Record(header: seq<Byte>, body: seq<Byte>)

  predicate Valid(f: Format, r: Record) {
    |r.header| == HeaderSize(f) && |r.body| == BodyLength(f, r.header)
  }

  predicate AllValid(f: Format, rs: seq<Record>) {
    forall i :: 0 <= i < |rs| ==> Valid(f, rs[i])
  }

  function Raw(r: Record): seq<Byte> {
    r.header + r.body
  }

  function RawAll(rs: seq<Record>): seq<Byte> {
    if rs == [] then [] else Raw(rs[0]) + RawAll(rs[1..])
  }

  // The length of the record at the front of `bytes`, if all of it is there.
  function FirstLength(f: Format, bytes: seq<Byte>): (n: Option<nat>)
    ensures n.Some? ==> 0 < n.value <= |bytes|
  {
    var h := HeaderSize(f);
    if |bytes| < h then None
    else
      var n := h + BodyLength(f, bytes[..h]);
      if |bytes| < n then None else Some(n)
  }

  function First(f: Format, bytes: seq<Byte>): (r: Record)
    requires FirstLength(f, bytes).Some?
    ensures Valid(f, r) && Raw(r) == bytes[..FirstLength(f, bytes).value]
  {
    var h := HeaderSize(f);
    var n := FirstLength(f, bytes).value;
    Record(bytes[..h], bytes[h..n])
  }

  function Split(f: Format, bytes: seq<Byte>): seq<Record>
    decreases |bytes|
  {
    var n := FirstLength(f, bytes);
    if n.None? then [] else [First(f, bytes)] + Split(f, bytes[n.value..])
  }

  function Tail(f: Format, bytes: seq<Byte>): seq<Byte>
    decreases |bytes|
  {
    var n := FirstLength(f, bytes);
    if n.None? then bytes else Tail(f, bytes[n.value..])
  }

  lemma {:induction false} RawAllConcat(a: seq<Record>, b: seq<Record>)
    ensures RawAll(a + b) == RawAll(a) + RawAll(b)
  {
    if a == [] {
      assert a + b == b;
    } else {
      RawAllConcat(a[1..], b);
      assert (a + b)[1..] == a[1..] + b;
      ConcatAssociative(Raw(a[0]), RawAll(a[1..]), RawAll(b));
    }
  }

  lemma RawAllAppend(a: seq<Record>, r: Record)
    ensures RawAll(a + [r]) == RawAll(a) + Raw(r)
  {
    RawAllConcat(a, [r]);
    assert RawAll([r]) == Raw(r) + RawAll([]);
  }

  // Parsing loses no byte: the records and the tail make up the input, every record is whole
  // and the tail holds none.
  lemma {:induction false} SplitSound(f: Format, bytes: seq<Byte>)
    ensures RawAll(Split(f, bytes)) + Tail(f, bytes) == bytes
    ensures AllValid(f, Split(f, bytes))
    ensures FirstLength(f, Tail(f, bytes)).None?
    decreases |bytes|
  {
    var n := FirstLength(f, bytes);
    if n.Some? {
      var first, rest := First(f, bytes), bytes[n.value..];
      SplitSound(f, rest);
      RawAllFirst(first, Split(f, rest));
      ConcatAssociative(Raw(first), RawAll(Split(f, rest)), Tail(f, rest));
      CutAt(bytes, n.value);
    }
  }

  lemma RawAllFirst(r: Record, rs: seq<Record>)
    ensures RawAll([r] + rs) == Raw(r) + RawAll(rs)
  {
    assert ([r] + rs)[1..] == rs;
  }

  lemma FirstOfRaw(f: Format, r: Record, rest: seq<Byte>)
    requires Valid(f, r)
    ensures FirstLength(f, Raw(r) + rest) == Some(|Raw(r)|)
    ensures First(f, Raw(r) + rest) == r
    ensures (Raw(r) + rest)[|Raw(r)|..] == rest
  {
    var bytes := Raw(r) + rest;
    var h := HeaderSize(f);
    assert bytes[..h] == r.header;
    assert bytes[h..|Raw(r)|] == r.body;
  }

  lemma SplitStep(f: Format, r: Record, rest: seq<Byte>)
    requires Valid(f, r)
    ensures Split(f, Raw(r) + rest) == [r] + Split(f, rest)
    ensures Tail(f, Raw(r) + rest) == Tail(f, rest)
  {
    FirstOfRaw(f, r, rest);
  }

  // Parsing is the inverse of concatenation: whole records at the front come out as they are.
  lemma {:induction false} SplitOfRaw(f: Format, rs: seq<Record>, rest: seq<Byte>)
    requires AllValid(f, rs)
    ensures Split(f, RawAll(rs) + rest) == rs + Split(f, rest)
    ensures Tail(f, RawAll(rs) + rest) == Tail(f, rest)
  {
    if rs == [] {
      assert RawAll(rs) + rest == rest;
    } else {
      ConcatAssociative(Raw(rs[0]), RawAll(rs[1..]), rest);
      SplitStep(f, rs[0], RawAll(rs[1..]) + rest);
      SplitOfRaw(f, rs[1..], rest);
      assert [rs[0]] + rs[1..] == rs;
      ConcatAssociative([rs[0]], rs[1..], Split(f, rest));
    }
  }

  lemma SplitOfWhole(f: Format, rs: seq<Record>)
    requires AllValid(f, rs)
    ensures Split(f, RawAll(rs)) == rs
    ensures Tail(f, RawAll(rs)) == []
  {
    SplitOfRaw(f, rs, []);
    assert RawAll(rs) + [] == RawAll(rs);
  }

  // Decoding is unique: two lists of records with the same bytes are the same list.
  lemma DecodingUnique(f: Format, a: seq<Record>, b: seq<Record>)
    requires AllValid(f, a) && AllValid(f, b)
    requires RawAll(a) == RawAll(b)
    ensures a == b
  {
    SplitOfWhole(f, a);
    SplitOfWhole(f, b);
  }

  // Parsing is incremental: more bytes only add records, and parsing may resume at the tail.
  lemma SplitIncremental(f: Format, bytes: seq<Byte>, more: seq<Byte>)
    ensures Split(f, bytes + more) == Split(f, bytes) + Split(f, Tail(f, bytes) + more)
    ensures Tail(f, bytes + more) == Tail(f, Tail(f, bytes) + more)
  {
    SplitSound(f, bytes);
    assert bytes + more == RawAll(Split(f, bytes)) + (Tail(f, bytes) + more);
    SplitOfRaw(f, Split(f, bytes), Tail(f, bytes) + more);
  }

  lemma SplitMonotone(f: Format, p: seq<Byte>, q: seq<Byte>)
    requires p <= q
    ensures Split(f, p) <= Split(f, q)
  {
    assert q == p + q[|p|..];
    SplitIncremental(f, p, q[|p|..]);
  }

  // A truncated byte string never yields part of a record: what is parsed from a prefix of
  // well-formed records is a prefix of those records.
  lemma TruncationSafe(f: Format, rs: seq<Record>, cut: seq<Byte>)
    requires AllValid(f, rs) && cut <= RawAll(rs)
    ensures Split(f, cut) <= rs
  {
    SplitMonotone(f, cut, RawAll(rs));
    SplitOfWhole(f, rs);
  }
}
