/** Byte-level codecs the time-series files are made of: varints and little-endian integers, as
    Go's encoding/binary defines them, on explicit 64-bit ranges. */
module TsdbBytes {

  import opened Bytes

  /** Adding back a wrapped difference is exact, whatever overflowed on the way. */
  lemma {:induction false} WrapDifference(t: int64, prev: int64)
    ensures Wrap(prev + Wrap(t - prev)) == t
  {
  }

  // ---- varints --------------------------------------------------------------------------------

  function PutUvarint(x: nat): (b: bytes)
    ensures b != []
  {
    if x < 128 then [x] else [x % 128 + 128] + PutUvarint(x / 128)
  }

  datatype Varint = Short | Overflow | Got(value: int, size: nat)

  /** Reads a varint of which `i` bytes are already consumed: at most ten bytes, the tenth at most 1. */
  function Uvarint(b: bytes, i: nat): (r: Varint)
    ensures r.Got? ==> 1 <= r.size <= |b| && 0 <= r.value
  {
    if b == [] then Short
    else if i == 10 then Overflow
    else if b[0] < 128 then if i == 9 && b[0] > 1 then Overflow else Got(b[0], 1)
    else
      match Uvarint(b[1..], i + 1)
      case Got(v, n) => Got(b[0] - 128 + 128 * v, n + 1)
      case other => other
  }

  /** One more than the largest value whose varint still fits when `i` bytes are consumed. */
  function Room(i: nat): nat
    requires i <= 9
    decreases 9 - i
  {
    if i == 9 then 2 else 128 * Room(i + 1)
  }

  lemma {:induction false} RoomIs64Bit()
    ensures Room(0) == TWO64
  {
  }

  /** A byte with the high bit set goes in front of the value that follows it. */
  lemma {:induction false} UvarintMore(low: nat, more: bytes, i: nat)
    requires low < 128 && i < 10 && Uvarint(more, i + 1).Got?
    ensures var r := Uvarint(more, i + 1); Uvarint([low + 128] + more, i) == Got(low + 128 * r.value, r.size + 1)
  {
    assert ([low + 128] + more)[1..] == more;
  }

  lemma {:induction false} UvarintRoundTrip(x: nat, rest: bytes, i: nat)
    requires i <= 9 && x < Room(i)
    ensures Uvarint(PutUvarint(x) + rest, i) == Got(x, |PutUvarint(x)|)
  {
    if x < 128 {
      assert ([x] + rest)[0] == x;
    } else {
      var more := PutUvarint(x / 128);
      UvarintRoundTrip(x / 128, rest, i + 1);
      UvarintMore(x % 128, more + rest, i);
      assert PutUvarint(x) + rest == [x % 128 + 128] + (more + rest);
    }
  }

  /** Zig-zag form of a signed value. */
  function ZigZag(x: int): nat {
    if x >= 0 then 2 * x else -2 * x - 1
  }

  function PutVarint(x: int): bytes {
    PutUvarint(ZigZag(x))
  }

  function ReadVarint(b: bytes): (r: Varint)
    ensures r.Got? ==> 1 <= r.size <= |b|
  {
    match Uvarint(b, 0)
    case Got(v, n) => Got(if v % 2 == 0 then v / 2 else -(v / 2) - 1, n)
    case other => other
  }

  lemma {:induction false} VarintRoundTrip(x: int64, rest: bytes)
    ensures ReadVarint(PutVarint(x) + rest) == Got(x, |PutVarint(x)|)
  {
    RoomIs64Bit();
    UvarintRoundTrip(ZigZag(x), rest, 0);
  }

  // ---- little endian --------------------------------------------------------------------------

  function PutLE(x: nat, width: nat): (b: bytes)
    ensures |b| == width
  {
    if width == 0 then [] else [x % 256] + PutLE(x / 256, width - 1)
  }

  function LE(b: bytes): (x: nat) {
    if b == [] then 0 else b[0] + 256 * LE(b[1..])
  }

  function Limit(width: nat): nat {
    if width == 0 then 1 else 256 * Limit(width - 1)
  }

  lemma {:induction false} LimitOfWords()
    ensures Limit(4) == 0x1_0000_0000 && Limit(8) == TWO64
  {
  }

  lemma {:induction false} LERoundTrip(x: nat, width: nat)
    requires x < Limit(width)
    ensures LE(PutLE(x, width)) == x
  {
    if width > 0 {
      assert PutLE(x, width)[1..] == PutLE(x / 256, width - 1);
      LERoundTrip(x / 256, width - 1);
    }
  }

  lemma {:induction false} LEBound(b: bytes)
    ensures LE(b) < Limit(|b|)
  {
    if b != [] { LEBound(b[1..]); }
  }

  /** A 4-byte little-endian word. */
  function Word32(b: bytes): (x: uint32)
    requires |b| == 4
    ensures x == LE(b)
  {
    LEBound(b);
    LimitOfWords();
    LE(b)
  }

  lemma {:induction false} LE32RoundTrip(x: uint32)
    ensures LE(PutLE(x, 4)) == x
  {
    LimitOfWords();
    LERoundTrip(x, 4);
  }

  lemma {:induction false} LE64RoundTrip(x: nat)
    requires x < TWO64
    ensures LE(PutLE(x, 8)) == x
  {
    LimitOfWords();
    LERoundTrip(x, 8);
  }

  // ---- float32 values --------------------------------------------------------------------------

  /** A float32 by its bits; the source clears the low 11 mantissa bits of finite values. */
  function F32(bits: uint32): uint32 {
    if bits / 0x80_0000 % 256 == 255 then bits else bits - bits % 0x800
  }

  lemma {:induction false} F32Idempotent(bits: uint32)
    ensures F32(F32(bits)) == F32(bits)
  {
  }

  /** The exponent field; 255 marks infinities and NaN, 0 zero and the subnormal numbers. */
  function Exponent(bits: uint32): nat {
    bits / 0x80_0000 % 256
  }

  /** A normal number is 2^(Exponent - 150) times this, up to its sign. */
  function Significand(bits: uint32): nat {
    0x80_0000 + bits % 0x80_0000
  }

  /** What is cut off: NaN and infinities stay; of all others sign and exponent stay, the low eleven bits are
      zero afterwards, and a normal number comes nearer to zero by less than one part in 4096. */
  lemma {:induction false} F32Near(bits: uint32)
    ensures Exponent(bits) == 255 ==> F32(bits) == bits
    ensures F32(bits) / 0x80_0000 == bits / 0x80_0000
    ensures Exponent(bits) != 255 ==> F32(bits) % 2048 == 0 && F32(bits) <= bits < F32(bits) + 2048
    ensures Significand(F32(bits)) <= Significand(bits)
    ensures 4096 * (Significand(bits) - Significand(F32(bits))) < Significand(bits)
  {
    var q := bits / 0x800;
    assert bits / 0x80_0000 == q / 0x1000;
  }
}
