/**
 * SNMP's BER codec: lengths, integers, object identifiers, values, variable bindings, PDUs.  Object
 * identifiers are sequences of arcs; their dotted text is not part of this model.
 */
module Ber {
  import opened Wrappers
  import opened Bytes

  const INTEGER: byte := 0x02
  const OCTETS: byte := 0x04
  const NULL: byte := 0x05
  const OID: byte := 0x06
  const SEQUENCE: byte := 0x30
  const IP_ADDRESS: byte := 0x40
  const COUNTER32: byte := 0x41
  const GAUGE32: byte := 0x42
  const TIME_TICKS: byte := 0x43
  const OPAQUE: byte := 0x44
  const COUNTER64: byte := 0x46
  const NO_SUCH_OBJECT: byte := 0x80
  const NO_SUCH_INSTANCE: byte := 0x81
  const END_OF_MIB_VIEW: byte := 0x82
  const GET_BULK: byte := 0xA5

  const TWO32: int := 0x1_0000_0000

  // ---- big-endian digits ----------------------------------------------------------------------

  /** The digits of n in base 256, no leading zero. */
  function Digits(n: nat): bytes {
    if n == 0 then [] else Digits(n / 256) + [n % 256]
  }

  /** The number that `b` continues `high` to. */
  function Fold(high: int, b: bytes): int {
    if b == [] then high else 256 * Fold(high, b[..|b| - 1]) + b[|b| - 1]
  }

  lemma {:induction false} FoldSnoc(high: int, b: bytes, c: byte)
    ensures Fold(high, b + [c]) == 256 * Fold(high, b) + c
  {
  }

  lemma {:induction false} FoldDigits(n: nat)
    ensures Fold(0, Digits(n)) == n
  {
    if n > 0 {
      FoldDigits(n / 256);
      FoldSnoc(0, Digits(n / 256), n % 256);
    }
  }

  lemma {:induction false} FoldZero(b: bytes)
    ensures Fold(0, [0] + b) == Fold(0, b)
  {
    if b == [] {
      FoldSnoc(0, [], 0);
      assert [0] + b == [] + [0];
    } else {
      var init, c := b[..|b| - 1], b[|b| - 1];
      FoldZero(init);
      assert b == init + [c] && [0] + b == [0] + init + [c];
      FoldSnoc(0, init, c);
      FoldSnoc(0, [0] + init, c);
    }
  }

  function Pow256(k: nat): nat {
    if k == 0 then 1 else 256 * Pow256(k - 1)
  }

  lemma {:induction false} DigitsSize(n: nat, k: nat)
    requires n < Pow256(k)
    ensures |Digits(n)| <= k
  {
    if n > 0 { DigitsSize(n / 256, k - 1); }
  }

  lemma {:induction false} Pow256Values()
    ensures Pow256(4) == TWO32 && Pow256(8) == TWO64
  {
  }

  lemma {:induction false} DigitsNotFewer(n: nat, k: nat)
    requires n >= Pow256(k)
    ensures |Digits(n)| > k
  {
    if k > 0 { DigitsNotFewer(n / 256, k - 1); }
  }

  // ---- lengths and TLVs -----------------------------------------------------------------------

  function EncodeLength(n: nat): bytes {
    if n < 128 then [n] else [(128 + |Digits(n)|) % 256] + Digits(n)
  }

  function Tlv(tag: byte, content: bytes): bytes {
    [tag] + EncodeLength(|content|) + content
  }

  datatype Element = Element(tag: byte, content: bytes, size: nat)

  datatype Length = Length(value: int, size: nat)

  /** A length at the front of b: short, or up to four bytes. */
  function ReadLength(b: bytes): (r: Result<Length>)
    ensures r.Ok? ==> 1 <= r.value.size <= |b|
  {
    if b == [] then Err
    else if b[0] < 128 then Ok(Length(b[0], 1))
    else
      var n := b[0] - 128;
      if n == 0 || n > 4 || 1 + n > |b| then Err
      else Ok(Length(Fold(0, b[1..1 + n]), 1 + n))
  }

  /** The first element of b; its content is the part of b before `size`. */
  function ReadTlv(b: bytes): (r: Result<Element>)
    ensures r.Ok? ==> 2 + |r.value.content| <= r.value.size <= |b|
    ensures r.Ok? ==> r.value.content == b[r.value.size - |r.value.content|..r.value.size]
  {
    if b == [] then Err
    else
      match ReadLength(b[1..])
      case Err => Err
      case Ok(l) =>
        var start := 1 + l.size;
        if l.value < 0 || start + l.value > |b| then Err
        else Ok(Element(b[0], b[start..start + l.value], start + l.value))
  }

  lemma {:induction false} LongLength(d: bytes, rest: bytes)
    requires 1 <= |d| <= 4
    ensures ReadLength([128 + |d|] + d + rest) == Ok(Length(Fold(0, d), 1 + |d|))
  {
  }

  lemma {:induction false} LengthDigits(n: nat)
    requires 128 <= n < TWO32
    ensures 1 <= |Digits(n)| <= 4 && EncodeLength(n) == [128 + |Digits(n)|] + Digits(n)
  {
    Pow256Values();
    DigitsSize(n, 4);
  }

  lemma {:induction false} LengthRoundTrip(n: nat, rest: bytes)
    requires n < TWO32
    ensures ReadLength(EncodeLength(n) + rest) == Ok(Length(n, |EncodeLength(n)|))
  {
    if n >= 128 {
      LengthDigits(n);
      FoldDigits(n);
      LongLength(Digits(n), rest);
    }
  }

  lemma {:induction false} TlvPieces(tag: byte, length: bytes, content: bytes, rest: bytes)
    ensures var b := [tag] + length + content + rest;
      && b[0] == tag && b[1..] == length + (content + rest)
      && b[1 + |length|..1 + |length| + |content|] == content
      && b[1 + |length| + |content|..] == rest
  {
  }

  /** Every element whose content is shorter than 2^32 bytes reads back, whatever follows it. */
  lemma {:induction false} TlvRoundTrip(tag: byte, content: bytes, rest: bytes)
    requires |content| < TWO32
    ensures ReadTlv(Tlv(tag, content) + rest) == Ok(Element(tag, content, |Tlv(tag, content)|))
    ensures (Tlv(tag, content) + rest)[|Tlv(tag, content)|..] == rest
  {
    TlvPieces(tag, EncodeLength(|content|), content, rest);
    LengthRoundTrip(|content|, content + rest);
  }

  lemma {:induction false} TlvAlone(tag: byte, content: bytes)
    requires |content| < TWO32
    ensures ReadTlv(Tlv(tag, content)) == Ok(Element(tag, content, |Tlv(tag, content)|))
  {
    TlvRoundTrip(tag, content, []);
    assert Tlv(tag, content) + [] == Tlv(tag, content);
  }

  /** A longer one does not: the reader takes at most four length bytes. */
  lemma {:induction false} TlvTooLong(tag: byte, content: bytes, rest: bytes)
    requires TWO32 <= |content| && |Digits(|content|)| < 128
    ensures ReadTlv(Tlv(tag, content) + rest).Err?
  {
    TlvPieces(tag, EncodeLength(|content|), content, rest);
    Pow256Values();
    DigitsNotFewer(|content|, 4);
  }

  // ---- integers -------------------------------------------------------------------------------

  predicate HighBit(b: bytes) {
    b != [] && b[0] >= 128
  }

  /** A leading zero keeps a positive number positive. */
  function Unsigned(b: bytes): bytes {
    if HighBit(b) then [0] + b else b
  }

  /** Negative numbers start with a whole byte of sign: -2 is ff fe. */
  function Negative(v: int): bytes
    requires v < 0
    decreases -v
  {
    if v == -1 then [0xff] else Negative(v / 256) + [v % 256]
  }

  function IntBytes(v: int): bytes {
    if v == 0 then [0] else if v > 0 then Unsigned(Digits(v)) else Negative(v)
  }

  function UintBytes(v: nat): bytes {
    if v == 0 then [0] else Unsigned(Digits(v))
  }

  function DecodeInt(b: bytes): Result<int64> {
    if |b| == 0 || |b| > 9 then Err else Ok(Wrap(Fold(if b[0] >= 128 then -1 else 0, b)))
  }

  function DecodeUint(b: bytes): (r: Result<nat>)
    ensures r.Ok? ==> r.value < TWO64
  {
    if |b| == 0 || |b| > 9 then Err else Ok(Fold(0, b) % TWO64)
  }

  lemma {:induction false} FoldNegative(v: int)
    requires v < 0
    ensures Fold(-1, Negative(v)) == v && HighBit(Negative(v))
    decreases -v
  {
    if v == -1 {
      FoldSnoc(-1, [], 0xff);
      assert [0xff] == [] + [0xff];
    } else {
      FoldNegative(v / 256);
      FoldSnoc(-1, Negative(v / 256), v % 256);
    }
  }

  lemma {:induction false} NegativeSize(v: int, k: nat)
    requires 0 - Pow256(k) <= v < 0
    ensures |Negative(v)| <= k + 1
    decreases -v
  {
    if v < -1 { NegativeSize(v / 256, k - 1); }
  }

  lemma {:induction false} FoldUnsigned(v: nat)
    ensures Fold(0, Unsigned(Digits(v))) == v && !HighBit(Unsigned(Digits(v)))
    ensures v < TWO64 ==> |Unsigned(Digits(v))| <= 9
    ensures v > 0 ==> Unsigned(Digits(v)) != []
  {
    FoldDigits(v);
    FoldZero(Digits(v));
    Pow256Values();
    if v < TWO64 { DigitsSize(v, 8); }
  }

  lemma {:induction false} OneZero()
    ensures Fold(0, [0]) == 0
  {
  }

  /** Every int64, the 9-byte forms included. */
  lemma {:induction false} IntRoundTrip(v: int64)
    ensures DecodeInt(IntBytes(v)) == Ok(v) && |IntBytes(v)| <= 9
  {
    if v == 0 {
      OneZero();
    } else if v > 0 {
      FoldUnsigned(v);
    } else {
      FoldNegative(v);
      Pow256Values();
      NegativeSize(v, 8);
    }
  }

  /** Every uint64. */
  lemma {:induction false} UintRoundTrip(v: nat)
    requires v < TWO64
    ensures DecodeUint(UintBytes(v)) == Ok(v) && |UintBytes(v)| <= 9
  {
    if v == 0 { OneZero(); } else { FoldUnsigned(v); }
  }

  // ---- which integers are encoded in minimal length -------------------------------------------

  /** v fits into k + 1 bytes of two's complement. */
  predicate Fits(v: int, k: nat) {
    -128 * Pow256(k) <= v < 128 * Pow256(k)
  }

  lemma {:induction false} FitsMore(v: int, j: nat, k: nat)
    requires Fits(v, j) && j <= k
    ensures Fits(v, k)
    decreases k
  {
    if j < k { FitsMore(v, j, k - 1); }
  }

  /** Whether a number fits is decided by its first byte, taken as signed. */
  lemma {:induction false} FoldFits(high: int, b: bytes)
    ensures Fits(Fold(high, b), |b|) <==> -128 <= high < 128
  {
    if b != [] {
      FoldFits(high, b[..|b| - 1]);
    }
  }

  lemma {:induction false} FoldCons(high: int, c: byte, b: bytes)
    ensures Fold(high, [c] + b) == Fold(256 * high + c, b)
  {
    if b == [] {
      FoldSnoc(high, [], c);
      assert [c] + b == [] + [c];
    } else {
      var init, d := b[..|b| - 1], b[|b| - 1];
      FoldCons(high, c, init);
      assert [c] + b == ([c] + init) + [d];
      FoldSnoc(high, [c] + init, d);
    }
  }

  lemma {:induction false} HeadTail(b: bytes)
    requires b != []
    ensures b == [b[0]] + b[1..]
  {
  }

  /** What n bytes decode to fits into n bytes. */
  lemma {:induction false} DecodedFits(b: bytes)
    requires 1 <= |b| <= 8
    ensures DecodeInt(b).Ok? && Fits(DecodeInt(b).value, |b| - 1)
    ensures DecodeInt(b).value == Fold(if b[0] >= 128 then -1 else 0, b)
  {
    var start: int := if b[0] >= 128 then -1 else 0;
    HeadTail(b);
    FoldCons(start, b[0], b[1..]);
    FoldFits(256 * start + b[0], b[1..]);
    FitsMore(Fold(start, b), |b| - 1, 7);
    Pow256Values();
  }

  /** The bytes behind the first two continue what those two say. */
  lemma {:induction false} FoldTwo(high: int, b: bytes)
    requires |b| >= 2
    ensures Fold(high, b) == Fold(256 * (256 * high + b[0]) + b[1], b[2..])
  {
    HeadTail(b);
    HeadTail(b[1..]);
    assert b[1..][1..] == b[2..];
    FoldCons(high, b[0], b[1..]);
    FoldCons(256 * high + b[0], b[1], b[2..]);
  }

  lemma {:induction false} DigitsLead(n: nat)
    requires n > 0
    ensures Digits(n) != [] && Digits(n)[0] > 0
  {
    if n >= 256 { DigitsLead(n / 256); }
  }

  lemma {:induction false} NegativeLead(v: int)
    requires v < 0
    ensures Negative(v)[0] == 0xff && (v < -1 ==> |Negative(v)| >= 2)
    decreases -v
  {
    if v < -1 { NegativeLead(v / 256); }
  }

  /** A positive number does not fit into fewer bytes than its encoding has. */
  lemma {:induction false} PositiveNeedsAll(v: int)
    requires v > 0 && |IntBytes(v)| >= 2
    ensures !Fits(v, |IntBytes(v)| - 2)
  {
    var b := IntBytes(v);
    DigitsLead(v);
    FoldUnsigned(v);
    FoldTwo(0, b);
    var first: int := b[0];
    FoldFits(256 * first + b[1], b[2..]);
  }

  /** A negative one does exactly when its second byte has the sign bit as well. */
  lemma {:induction false} NegativeNeedsAll(v: int)
    requires v < -1
    ensures |IntBytes(v)| >= 2
    ensures Fits(v, |IntBytes(v)| - 2) <==> IntBytes(v)[1] >= 128
  {
    var b := IntBytes(v);
    NegativeLead(v);
    FoldNegative(v);
    FoldTwo(-1, b);
    var second: int := b[1];
    FoldFits(second - 256, b[2..]);
  }

  /** Then the bytes without the first one decode to it, too. */
  lemma {:induction false} ShorterDecodes(v: int64)
    requires v < -1 && |IntBytes(v)| >= 2 && IntBytes(v)[1] >= 128
    ensures DecodeInt(IntBytes(v)[1..]) == Ok(v)
  {
    var b := IntBytes(v);
    IntRoundTrip(v);
    NegativeLead(v);
    FoldNegative(v);
    HeadTail(b);
    FoldCons(-1, b[0], b[1..]);
    DecodedFits(b[1..]);
  }

  lemma {:induction false} NothingShorter(v: int64, b: bytes)
    requires |b| < |IntBytes(v)| && (|IntBytes(v)| >= 2 ==> !Fits(v, |IntBytes(v)| - 2))
    ensures DecodeInt(b) != Ok(v)
  {
    IntRoundTrip(v);
    if b != [] {
      DecodedFits(b);
      if Fits(v, |b| - 1) { FitsMore(v, |b| - 1, |IntBytes(v)| - 2); }
    }
  }

  lemma {:induction false} OneByte(v: int)
    requires -1 <= v <= 0
    ensures |IntBytes(v)| == 1
  {
  }

  lemma {:induction false} Pow256Grows(j: nat, k: nat)
    requires j <= k
    ensures Pow256(j) <= Pow256(k)
    decreases k
  {
    if j < k { Pow256Grows(j, k - 1); }
  }

  /** Below zero, k + 1 bytes encode the numbers from -256^k up to, but without, -256^(k - 1). */
  lemma {:induction false} NegativeBand(v: int)
    requires v < 0
    ensures var k := |Negative(v)| - 1;
      k >= 0 && 0 - Pow256(k) <= v && (k >= 1 ==> v < 0 - Pow256(k - 1))
    decreases -v
  {
    if v < -1 { NegativeBand(v / 256); }
  }

  /** The half of the k-byte negative numbers that needs k + 1 bytes of two's complement. */
  predicate LowerHalf(v: int, k: nat) {
    k >= 1 && 0 - Pow256(k) <= v < -128 * Pow256(k - 1)
  }

  lemma {:induction false} OnlyOneBand(v: int, k: nat)
    requires v < 0 && LowerHalf(v, k)
    ensures |Negative(v)| == k + 1
  {
    NegativeSize(v, k);
    NegativeBand(v);
    if |Negative(v)| <= k { Pow256Grows(|Negative(v)| - 1, k - 1); }
  }

  lemma {:induction false} SecondByteIff(v: int)
    requires v < -1
    ensures |IntBytes(v)| >= 2 && (IntBytes(v)[1] < 128 <==> exists k: nat :: LowerHalf(v, k))
  {
    NegativeNeedsAll(v);
    NegativeBand(v);
    var k := |IntBytes(v)| - 1;
    assert IntBytes(v)[1] < 128 <==> LowerHalf(v, k);
    if j: nat :| LowerHalf(v, j) { OnlyOneBand(v, j); }
  }

  /** An integer is encoded in as few bytes as decode to it exactly when it is not below -1 or lies in the
      lower half of its band: -129 to -256 take two bytes and need them, -2 to -128 take two and need one. */
  lemma {:induction false} IntMinimalIff(v: int64)
    ensures (forall b: bytes :: |b| < |IntBytes(v)| ==> DecodeInt(b) != Ok(v))
       <==> v >= -1 || exists k: nat :: LowerHalf(v, k)
  {
    if v < -1 {
      NegativeNeedsAll(v);
      SecondByteIff(v);
    } else if v > 0 {
      if |IntBytes(v)| >= 2 { PositiveNeedsAll(v); }
    } else {
      OneByte(v);
    }
    if v < -1 && IntBytes(v)[1] >= 128 {
      ShorterDecodes(v);
      assert |IntBytes(v)[1..]| < |IntBytes(v)|;
    } else {
      forall b: bytes | |b| < |IntBytes(v)| ensures DecodeInt(b) != Ok(v) {
        NothingShorter(v, b);
      }
    }
  }

  lemma {:induction false} MinusTwo()
    ensures IntBytes(-2) == [0xff, 0xfe] && DecodeInt([0xfe]) == Ok(-2)
  {
  }

  // ---- object identifiers ---------------------------------------------------------------------

  type Arcs = seq<int64>

  /** Base-128 digits, each marked to be continued. */
  function Continued(n: nat): bytes {
    if n == 0 then [] else Continued(n / 128) + [n % 128 + 128]
  }

  function SubId(n: nat): bytes {
    Continued(n / 128) + [n % 128]
  }

  function SubIds(ids: Arcs): bytes
    requires forall i :: 0 <= i < |ids| ==> ids[i] >= 0
  {
    if ids == [] then [] else SubId(ids[0]) + SubIds(ids[1..])
  }

  /** Arcs from `b` on, `cur` being what is read of the current one; a last arc without its end is lost. */
  function ReadArcs(b: bytes, cur: int64): Arcs
    decreases |b|
  {
    if b == [] then []
    else
      var next := Wrap(128 * cur + b[0] % 128);
      if b[0] < 128 then [next] + ReadArcs(b[1..], 0) else ReadArcs(b[1..], next)
  }

  /** The first two arcs as one number. */
  function Joined(a: int, b: int): int {
    a * 40 + b
  }

  function EncodeOid(ids: Arcs): Result<bytes> {
    if (exists i :: 0 <= i < |ids| && ids[i] < 0) || |ids| < 2 then Err
    else Ok([Joined(ids[0], ids[1]) % 256] + SubIds(ids[2..]))
  }

  function DecodeOid(b: bytes): Result<Arcs> {
    if b == [] then Err else Ok([b[0] / 40, b[0] % 40] + ReadArcs(b[1..], 0))
  }

  lemma {:induction false} ReadContinued(n: nat, rest: bytes)
    requires n < TWO63
    ensures ReadArcs(Continued(n) + rest, 0) == ReadArcs(rest, n)
  {
    if n == 0 {
      assert Continued(n) + rest == rest;
    } else {
      var c := n % 128 + 128;
      assert Continued(n) + rest == Continued(n / 128) + ([c] + rest);
      ReadContinued(n / 128, [c] + rest);
      assert ([c] + rest)[1..] == rest;
    }
  }

  lemma {:induction false} SubIdRoundTrip(n: nat, rest: bytes)
    requires n < TWO63
    ensures ReadArcs(SubId(n) + rest, 0) == [n] + ReadArcs(rest, 0)
  {
    var c := n % 128;
    assert SubId(n) + rest == Continued(n / 128) + ([c] + rest);
    ReadContinued(n / 128, [c] + rest);
    assert ([c] + rest)[1..] == rest;
  }

  lemma {:induction false} SubIdsRoundTrip(ids: Arcs)
    requires forall i :: 0 <= i < |ids| ==> ids[i] >= 0
    ensures ReadArcs(SubIds(ids), 0) == ids
  {
    if ids != [] {
      SubIdRoundTrip(ids[0], SubIds(ids[1..]));
      SubIdsRoundTrip(ids[1..]);
    }
  }

  /** What comes back of an identifier: the first two arcs share one byte. */
  function CanonOid(ids: Arcs): Arcs
    requires |ids| >= 2
  {
    var x := Joined(ids[0], ids[1]) % 256;
    [x / 40, x % 40] + ids[2..]
  }

  lemma {:induction false} OidRoundTrip(ids: Arcs)
    requires EncodeOid(ids).Ok?
    ensures DecodeOid(EncodeOid(ids).value) == Ok(CanonOid(ids))
  {
    var first := Joined(ids[0], ids[1]) % 256;
    assert ([first] + SubIds(ids[2..]))[1..] == SubIds(ids[2..]);
    SubIdsRoundTrip(ids[2..]);
  }

  lemma {:induction false} PairSurvivesIff(a: nat, b: nat)
    ensures var x := Joined(a, b) % 256; (x / 40 == a && x % 40 == b) <==> b < 40 && Joined(a, b) < 256
  {
  }

  /** An identifier survives exactly when its second arc is below 40 and both fit into the byte. */
  lemma {:induction false} OidSurvivesIff(ids: Arcs)
    requires EncodeOid(ids).Ok?
    ensures CanonOid(ids) == ids <==> ids[1] < 40 && Joined(ids[0], ids[1]) < 256
  {
    PairSurvivesIff(ids[0], ids[1]);
    assert ids == [ids[0], ids[1]] + ids[2..];
    assert CanonOid(ids)[0] == Joined(ids[0], ids[1]) % 256 / 40
      && CanonOid(ids)[1] == Joined(ids[0], ids[1]) % 256 % 40;
  }
}
