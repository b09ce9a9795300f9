/** Bytes, the fixed-width integers both wire formats use, and sequences of chunks. */
module Bytes {

  datatype Option<+T> = None | Some(value: T)

  type Byte = x: int | 0 <= x < 256

  const TWO_TO_THE_16: nat := 0x1_0000
  const TWO_TO_THE_32: nat := 0x1_0000_0000

  function Min(a: int, b: int): int {
    if a <= b then a else b
  }

  // ----- big-endian fields of the yamux header (DataView with littleEndian = false) -----

  // What setUint16 stores: the value reduced to 16 bits.
  function BE16(x: nat): (b: seq<Byte>)
    ensures |b| == 2
  {
    [x / 0x100 % 0x100, x % 0x100]
  }

  function BE32(x: nat): (b: seq<Byte>)
    ensures |b| == 4
  {
    [x / 0x100_0000 % 0x100, x / 0x1_0000 % 0x100, x / 0x100 % 0x100, x % 0x100]
  }

  function FromBE16(b: seq<Byte>): nat
    requires |b| == 2
  {
    (b[0] as int) * 0x100 + b[1]
  }

  function FromBE32(b: seq<Byte>): nat
    requires |b| == 4
  {
    (b[0] as int) * 0x100_0000 + (b[1] as int) * 0x1_0000 + (b[2] as int) * 0x100 + b[3]
  }

  lemma BE16RoundTrip(x: nat)
    ensures FromBE16(BE16(x)) == x % TWO_TO_THE_16
  {
  }

  // The four base-256 digits of x make up x modulo 2^32.
  lemma Digits(x: nat)
    ensures x % 0x100 + x / 0x100 % 0x100 * 0x100 + x / 0x1_0000 % 0x100 * 0x1_0000
         + x / 0x100_0000 % 0x100 * 0x100_0000 == x % TWO_TO_THE_32
  {
    var a, b, c, d := x % 0x100, x / 0x100 % 0x100, x / 0x1_0000 % 0x100, x / 0x100_0000 % 0x100;
    var x1, x2, x3, x4 := x / 0x100, x / 0x1_0000, x / 0x100_0000, x / TWO_TO_THE_32;
    assert x == x1 * 0x100 + a;
    assert x1 == x2 * 0x100 + b;
    assert x2 == x3 * 0x100 + c;
    assert x3 == x4 * 0x100 + d;
    assert x == x4 * TWO_TO_THE_32 + (a + b * 0x100 + c * 0x1_0000 + d * 0x100_0000);
  }

  lemma BE32RoundTrip(x: nat)
    ensures FromBE32(BE32(x)) == x % TWO_TO_THE_32
  {
    Digits(x);
  }

  // ----- little-endian length of the application header -----

  function LE32(x: nat): (b: seq<Byte>)
    ensures |b| == 4
  {
    [x % 0x100, x / 0x100 % 0x100, x / 0x1_0000 % 0x100, x / 0x100_0000 % 0x100]
  }

  function FromLE32(b: seq<Byte>): nat
    requires |b| == 4
  {
    b[0] + (b[1] as int) * 0x100 + (b[2] as int) * 0x1_0000 + (b[3] as int) * 0x100_0000
  }

  lemma LE32RoundTrip(x: nat)
    ensures FromLE32(LE32(x)) == x % TWO_TO_THE_32
  {
    Digits(x);
  }

  // ----- chunks -----

  lemma ConcatAssociative<T>(a: seq<T>, b: seq<T>, c: seq<T>)
    ensures (a + b) + c == a + (b + c)
  {
  }

  lemma ConcatFirst<T>(a: seq<T>, b: seq<T>)
    requires a != []
    ensures (a + b)[0] == a[0] && (a + b)[1..] == a[1..] + b
  {
  }

  lemma HeadTail<T>(a: seq<T>)
    requires a != []
    ensures a == [a[0]] + a[1..]
  {
  }

  lemma ThreeInOrder<T>(a: T, b: T, c: T)
    ensures [a, b, c] == [a] + [b, c] && [b, c] == [b] + [c]
  {
  }

  lemma ConcatEmpty<T>(a: seq<T>)
    ensures a + [] == a && [] + a == a
  {
  }

  lemma CutAt<T>(a: seq<T>, n: nat)
    requires n <= |a|
    ensures a == a[..n] + a[n..]
  {
  }

  lemma FrontGrows<T>(a: seq<T>, i: nat, n: nat)
    requires i + n <= |a|
    ensures a[..i + n] == a[..i] + a[i..i + n]
  {
  }

  // A piece taken off the rest that starts at i.
  lemma PieceOff<T>(a: seq<T>, i: nat, n: nat)
    requires i + n <= |a|
    ensures a[i..] == a[i..i + n] + a[i + n..]
  {
  }

  function Flatten<T>(chunks: seq<seq<T>>): seq<T> {
    if chunks == [] then [] else chunks[0] + Flatten(chunks[1..])
  }

  lemma {:induction false} FlattenConcat<T>(a: seq<seq<T>>, b: seq<seq<T>>)
    ensures Flatten(a + b) == Flatten(a) + Flatten(b)
  {
    if a == [] {
      assert a + b == b;
    } else {
      FlattenConcat(a[1..], b);
      assert (a + b)[1..] == a[1..] + b;
      ConcatAssociative(a[0], Flatten(a[1..]), Flatten(b));
    }
  }

  lemma FlattenAppend<T>(a: seq<seq<T>>, c: seq<T>)
    ensures Flatten(a + [c]) == Flatten(a) + c
  {
    FlattenConcat(a, [c]);
    assert Flatten([c]) == c + Flatten([]);
  }

  // A prefix of a prefix is a prefix, and a prefix stays one when the longer side grows.
  lemma PrefixTransitive<T>(a: seq<T>, b: seq<T>, c: seq<T>)
    requires a <= b && b <= c
    ensures a <= c
  {
    assert c[..|a|] == b[..|a|];
  }
}
