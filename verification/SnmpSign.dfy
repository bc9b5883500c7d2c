/**
 * Building and signing an SNMPv3 message: it is encoded around a random placeholder, the placeholder
 * is searched for, blanked, and replaced by the keyed hash of the blanked message.
 */
module SnmpSign {
  import opened Wrappers
  import opened Bytes
  import opened Ber
  import opened SnmpPdu
  import opened SnmpV3

  // ---- encoding -------------------------------------------------------------------------------

  function Concat(items: seq<Encoded>): bytes {
    if items == [] then [] else Tlv(items[0].tag, items[0].content) + Concat(items[1..])
  }

  /** What a message says besides its authentication field; a plain payload is the content of its PDU. */
  datatype Draft = Draft(msgId: int32, flags: byte, engineId: bytes, boots: int32, time: int32,
                         user: bytes, priv: bytes, encrypted: bool, payload: bytes)

  function IntItem(n: int64): Encoded {
    Encoded(INTEGER, IntBytes(n))
  }

  function GlobalItems(d: Draft): seq<Encoded> {
    [IntItem(d.msgId), IntItem(65507), Encoded(OCTETS, [d.flags]), IntItem(3)]
  }

  function UsmItems(d: Draft, auth: bytes): seq<Encoded> {
    [Encoded(OCTETS, d.engineId), IntItem(d.boots), IntItem(d.time), Encoded(OCTETS, d.user),
     Encoded(OCTETS, auth), Encoded(OCTETS, d.priv)]
  }

  function Security(d: Draft, auth: bytes): bytes {
    Tlv(SEQUENCE, Concat(UsmItems(d, auth)))
  }

  function PayloadItem(d: Draft): bytes {
    Tlv(if d.encrypted then OCTETS else SEQUENCE, d.payload)
  }

  function MessageItems(d: Draft, auth: bytes): seq<Encoded> {
    [IntItem(3), Encoded(SEQUENCE, Concat(GlobalItems(d))), Encoded(OCTETS, Security(d, auth))]
  }

  function Message(d: Draft, auth: bytes): bytes {
    Tlv(SEQUENCE, Concat(MessageItems(d, auth)) + PayloadItem(d))
  }

  // ---- it parses back -------------------------------------------------------------------------

  ghost predicate Fit(items: seq<Encoded>, wants: seq<Want>) {
    && |items| == |wants|
    && forall i :: 0 <= i < |items| ==> |items[i].content| < TWO32 && (wants[i].Any? || wants[i].tag == items[i].tag)
  }

  function FieldAt(items: seq<Encoded>, i: nat, rest: bytes): Field
    requires i < |items|
  {
    Field(items[i].tag, items[i].content, Concat(items[i + 1..]) + rest)
  }

  ghost predicate Reads(f: seq<Field>, items: seq<Encoded>, rest: bytes) {
    |f| == |items| && forall i :: 0 <= i < |items| ==> f[i] == FieldAt(items, i, rest)
  }

  lemma {:induction false} ReadsCons(fs: seq<Field>, items: seq<Encoded>, rest: bytes)
    requires items != [] && Reads(fs, items[1..], rest)
    ensures Reads([FieldAt(items, 0, rest)] + fs, items, rest)
  {
    var all := [FieldAt(items, 0, rest)] + fs;
    forall i | 0 <= i < |items| ensures all[i] == FieldAt(items, i, rest) {
      if i > 0 {
        assert fs[i - 1] == FieldAt(items[1..], i - 1, rest);
        assert items[1..][i..] == items[i + 1..];
      }
    }
  }

  lemma {:induction false} FieldsBy(b: bytes, wants: seq<Want>, first: Field, fs: seq<Field>)
    requires wants != [] && Next(b) == Ok(first) && (wants[0].Any? || wants[0].tag == first.tag)
    requires ReadFields(first.rest, wants[1..]) == Ok(fs)
    ensures ReadFields(b, wants) == Ok([first] + fs)
  {
  }

  /** Items written one after the other read back one after the other. */
  lemma {:induction false} FieldsRead(items: seq<Encoded>, rest: bytes, wants: seq<Want>)
    requires Fit(items, wants)
    ensures var r := ReadFields(Concat(items) + rest, wants); r.Ok? && Reads(r.value, items, rest)
    decreases |items|
  {
    if items != [] {
      var first, more := Tlv(items[0].tag, items[0].content), Concat(items[1..]) + rest;
      assert Concat(items) + rest == first + more;
      NextReads(items[0].tag, items[0].content, more);
      FieldsRead(items[1..], rest, wants[1..]);
      var fs := ReadFields(more, wants[1..]).value;
      FieldsBy(first + more, wants, FieldAt(items, 0, rest), fs);
      ReadsCons(fs, items, rest);
    } else {
      assert Concat(items) + rest == rest;
    }
  }

  lemma {:induction false} FieldsReadAlone(items: seq<Encoded>, wants: seq<Want>)
    requires Fit(items, wants)
    ensures var r := ReadFields(Concat(items), wants); r.Ok? && Reads(r.value, items, [])
  {
    FieldsRead(items, [], wants);
    assert Concat(items) + [] == Concat(items);
  }

  lemma {:induction false} IntItemSmall(n: int64)
    ensures |IntItem(n).content| <= 9
  {
    IntRoundTrip(n);
  }

  lemma {:induction false} IntOfItem(f: Field, n: int32)
    requires f.content == IntItem(n).content
    ensures IntOf(f) == n
  {
    IntRoundTrip(n);
  }

  lemma {:induction false} GlobalReads(d: Draft)
    ensures ReadGlobal(Concat(GlobalItems(d))) == Ok(Global(d.msgId, d.flags))
  {
    var items := GlobalItems(d);
    IntItemSmall(d.msgId);
    IntItemSmall(65507);
    IntItemSmall(3);
    FieldsReadAlone(items, GLOBAL_FIELDS);
    IntOfItem(FieldAt(items, 0, []), d.msgId);
  }

  ghost predicate SmallUsm(d: Draft, auth: bytes) {
    |d.engineId| < TWO32 && |d.user| < TWO32 && |auth| < TWO32 && |d.priv| < TWO32
  }

  /** The security parameters that come back; the authentication field ends before the last item. */
  function UsmOf(d: Draft, auth: bytes, start: int): Usm {
    Usm(d.engineId, d.boots, d.time, d.user, auth, start, d.priv)
  }

  function PrivItem(d: Draft): bytes {
    Tlv(OCTETS, d.priv)
  }

  lemma {:induction false} UsmFromItems(b: bytes, f: seq<Field>, d: Draft, auth: bytes)
    requires Reads(f, UsmItems(d, auth), [])
    ensures UsmFrom(b, f) == UsmOf(d, auth, |b| - |PrivItem(d)| - |auth|)
  {
    var items := UsmItems(d, auth);
    IntOfItem(f[1], d.boots);
    IntOfItem(f[2], d.time);
    assert items[5..] == [Encoded(OCTETS, d.priv)];
    assert Concat(items[5..]) == PrivItem(d) + Concat([]);
  }

  lemma {:induction false} UsmFits(d: Draft, auth: bytes)
    requires SmallUsm(d, auth)
    ensures Fit(UsmItems(d, auth), USM_FIELDS)
  {
    IntItemSmall(d.boots);
    IntItemSmall(d.time);
  }

  /** Every way to read these items gives this result. */
  ghost predicate AlwaysUsm(b: bytes, items: seq<Encoded>, u: Usm) {
    forall f: seq<Field> :: |f| == 6 && Reads(f, items, []) ==> UsmFrom(b, f) == u
  }

  lemma {:induction false} UsmByFields(b: bytes, items: seq<Encoded>, wants: seq<Want>, u: Usm)
    requires Fit(items, wants) && b == Concat(items) && |wants| == 6 && AlwaysUsm(b, items, u)
    ensures ReadUsmAs(b, wants) == Ok(u)
  {
    FieldsReadAlone(items, wants);
  }

  lemma {:induction false} UsmAlways(b: bytes, d: Draft, auth: bytes)
    ensures AlwaysUsm(b, UsmItems(d, auth), UsmOf(d, auth, |b| - |PrivItem(d)| - |auth|))
  {
    forall f: seq<Field> | |f| == 6 && Reads(f, UsmItems(d, auth), [])
      ensures UsmFrom(b, f) == UsmOf(d, auth, |b| - |PrivItem(d)| - |auth|)
    {
      UsmFromItems(b, f, d, auth);
    }
  }

  lemma {:induction false} UsmReads(d: Draft, auth: bytes, b: bytes)
    requires SmallUsm(d, auth) && b == Concat(UsmItems(d, auth))
    ensures ReadUsm(b) == Ok(UsmOf(d, auth, |b| - |PrivItem(d)| - |auth|))
  {
    UsmFits(d, auth);
    UsmAlways(b, d, auth);
    UsmByFields(b, UsmItems(d, auth), USM_FIELDS, UsmOf(d, auth, |b| - |PrivItem(d)| - |auth|));
  }

  lemma {:induction false} SequenceReads(content: bytes)
    requires |content| < TWO32
    ensures ReadSequence(Tlv(SEQUENCE, content)) == Ok(Field(SEQUENCE, content, []))
  {
    NextReads(SEQUENCE, content, []);
    assert Tlv(SEQUENCE, content) + [] == Tlv(SEQUENCE, content);
  }

  function SecurityOf(d: Draft, auth: bytes, usmSize: int, size: int): Located {
    Located(UsmOf(d, auth, usmSize - |PrivItem(d)| - |auth|), size - |PrivItem(d)| - |auth|)
  }

  lemma {:induction false} SecurityBy(sp: bytes, usm: bytes, u: Usm)
    requires ReadSequence(sp) == Ok(Field(SEQUENCE, usm, [])) && ReadUsm(usm) == Ok(u)
    ensures ReadSecurity(sp) == Ok(Located(u, |sp| - |usm| + u.authStart))
  {
  }

  lemma {:induction false} SecurityReads(d: Draft, auth: bytes, sp: bytes, usm: bytes)
    requires SmallUsm(d, auth) && usm == Concat(UsmItems(d, auth)) && sp == Tlv(SEQUENCE, usm) && |usm| < TWO32
    ensures ReadSecurity(sp) == Ok(SecurityOf(d, auth, |usm|, |sp|))
  {
    SequenceReads(usm);
    UsmReads(d, auth, usm);
    SecurityBy(sp, usm, UsmOf(d, auth, |usm| - |PrivItem(d)| - |auth|));
  }

  function PayloadOf(d: Draft): Payload {
    if d.encrypted then Encrypted(d.payload) else Scoped(PayloadItem(d))
  }

  lemma {:induction false} PayloadReads(d: Draft)
    requires |d.payload| < TWO32
    ensures ReadPayload(PayloadItem(d)) == Ok(PayloadOf(d))
  {
    var tag := if d.encrypted then OCTETS else SEQUENCE;
    NextReads(tag, d.payload, []);
    assert Tlv(tag, d.payload) + [] == Tlv(tag, d.payload);
  }

  /** The message without its outer sequence. */
  function Inner(d: Draft, auth: bytes): bytes {
    Concat(MessageItems(d, auth)) + PayloadItem(d)
  }

  ghost predicate Small(d: Draft, auth: bytes) {
    && SmallUsm(d, auth) && |d.payload| < TWO32 && |Concat(GlobalItems(d))| < TWO32
    && |Concat(UsmItems(d, auth))| < TWO32 && |Security(d, auth)| < TWO32 && |Inner(d, auth)| < TWO32
  }

  /** The parsed message, with the authentication field behind all but the privacy field and payload. */
  function V3Of(d: Draft, auth: bytes, usmSize: int, size: int): V3 {
    V3(d.msgId, d.flags, UsmOf(d, auth, usmSize - |PrivItem(d)| - |auth|),
       size - |PayloadItem(d)| - |PrivItem(d)| - |auth|, PayloadOf(d))
  }

  lemma {:induction false} FromParts(d: Draft, auth: bytes, b: bytes, version: Field, global: Field, sp: Field,
                                     usmSize: nat)
    requires DecodeInt(version.content) == Ok(3) && ReadGlobal(global.content) == Ok(Global(d.msgId, d.flags))
    requires ReadSecurity(sp.content) == Ok(SecurityOf(d, auth, usmSize, |sp.content|))
    requires ReadPayload(sp.rest) == Ok(PayloadOf(d)) && |sp.rest| == |PayloadItem(d)|
    ensures FromFields(b, version, global, sp) == Ok(V3Of(d, auth, usmSize, |b|))
  {
  }

  lemma {:induction false} PartsRead(d: Draft, auth: bytes, b: bytes, version: Field, global: Field, sp: Field,
                                     usm: bytes)
    requires SmallUsm(d, auth) && usm == Concat(UsmItems(d, auth)) && |usm| < TWO32 && |d.payload| < TWO32
    requires DecodeInt(version.content) == Ok(3) && global.content == Concat(GlobalItems(d))
    requires sp.content == Tlv(SEQUENCE, usm)
    requires sp.rest == PayloadItem(d)
    ensures FromFields(b, version, global, sp) == Ok(V3Of(d, auth, |usm|, |b|))
  {
    GlobalReads(d);
    SecurityReads(d, auth, sp.content, usm);
    PayloadReads(d);
    FromParts(d, auth, b, version, global, sp, |usm|);
  }

  lemma {:induction false} MessageFits(d: Draft, auth: bytes)
    requires Small(d, auth)
    ensures Fit(MessageItems(d, auth), MESSAGE_FIELDS)
  {
  }

  lemma {:induction false} InnerFields(d: Draft, auth: bytes, f: seq<Field>)
    requires Small(d, auth) && Reads(f, MessageItems(d, auth), PayloadItem(d))
    ensures |f| == 3
    ensures FromFields(Inner(d, auth), f[0], f[1], f[2])
      == Ok(V3Of(d, auth, |Concat(UsmItems(d, auth))|, |Inner(d, auth)|))
  {
    assert MessageItems(d, auth)[3..] == [];
    assert Concat([]) + PayloadItem(d) == PayloadItem(d);
    IntRoundTrip(3);
    PartsRead(d, auth, Inner(d, auth), f[0], f[1], f[2], Concat(UsmItems(d, auth)));
  }

  lemma {:induction false} InnerReads(d: Draft, auth: bytes, b: bytes)
    requires Small(d, auth) && b == Inner(d, auth)
    ensures ReadMessage(b) == Ok(V3Of(d, auth, |Concat(UsmItems(d, auth))|, |b|))
  {
    MessageFits(d, auth);
    FieldsRead(MessageItems(d, auth), PayloadItem(d), MESSAGE_FIELDS);
    InnerFields(d, auth, ReadFields(b, MESSAGE_FIELDS).value);
  }

  lemma {:induction false} MovedOut(d: Draft, auth: bytes, usmSize: int, inner: int, outer: int)
    ensures Moved(V3Of(d, auth, usmSize, inner), outer - inner) == V3Of(d, auth, usmSize, outer)
  {
  }

  lemma {:induction false} ParsesAs(b: bytes, inner: bytes, m: V3)
    requires ReadSequence(b) == Ok(Field(SEQUENCE, inner, [])) && ReadMessage(inner) == Ok(m)
    ensures ParseV3(b) == Ok(Moved(m, |b| - |inner|))
  {
  }

  /** Every built message parses back, field by field. */
  lemma {:induction false} MessageRoundTrip(d: Draft, auth: bytes)
    requires Small(d, auth)
    ensures ParseV3(Message(d, auth)) == Ok(V3Of(d, auth, |Concat(UsmItems(d, auth))|, |Message(d, auth)|))
  {
    var inner := Inner(d, auth);
    SequenceReads(inner);
    InnerReads(d, auth, inner);
    var usm := |Concat(UsmItems(d, auth))|;
    ParsesAs(Message(d, auth), inner, V3Of(d, auth, usm, |inner|));
    MovedOut(d, auth, usm, |inner|, |Message(d, auth)|);
  }

  // ---- the message around its authentication field --------------------------------------------

  /** Bytes with a hole. */
  datatype Frame = Frame(front: bytes, back: bytes)

  function Fill(f: Frame, x: bytes): bytes {
    f.front + x + f.back
  }

  function Wrapped(tag: byte, f: Frame, n: nat): Frame {
    Frame([tag] + EncodeLength(|f.front| + n + |f.back|) + f.front, f.back)
  }

  function Beside(a: bytes, f: Frame, b: bytes): Frame {
    Frame(a + f.front, f.back + b)
  }

  lemma {:induction false} WrappedFills(tag: byte, f: Frame, x: bytes)
    ensures Tlv(tag, Fill(f, x)) == Fill(Wrapped(tag, f, |x|), x)
  {
  }

  lemma {:induction false} BesideFills(a: bytes, f: Frame, b: bytes, x: bytes)
    ensures a + Fill(f, x) + b == Fill(Beside(a, f, b), x)
  {
  }

  lemma {:induction false} Regroup(a: bytes, b: bytes, c: bytes, e: bytes)
    ensures a + (b + c + e) == a + b + c + e
  {
  }

  lemma {:induction false} ConcatSplit(items: seq<Encoded>, k: nat)
    requires k < |items|
    ensures Concat(items) == Concat(items[..k]) + Tlv(items[k].tag, items[k].content) + Concat(items[k + 1..])
    decreases k
  {
    if k == 0 {
      assert items[..0] == [];
      assert Concat(items) == [] + Tlv(items[0].tag, items[0].content) + Concat(items[1..]);
    } else {
      ConcatSplit(items[1..], k - 1);
      assert items[1..][..k - 1] == items[..k][1..] && items[1..][k..] == items[k + 1..];
      Regroup(Tlv(items[0].tag, items[0].content), Concat(items[..k][1..]),
              Tlv(items[k].tag, items[k].content), Concat(items[k + 1..]));
    }
  }

  function BeforeAuth(d: Draft): seq<Encoded> {
    [Encoded(OCTETS, d.engineId), IntItem(d.boots), IntItem(d.time), Encoded(OCTETS, d.user)]
  }

  /** Tag and length in front of contents of a given size. */
  const HOLE: Frame := Frame([], [])

  function UsmFrame(d: Draft, n: nat): Frame {
    Beside(Concat(BeforeAuth(d)), Wrapped(OCTETS, HOLE, n), Concat([Encoded(OCTETS, d.priv)]))
  }

  lemma {:induction false} UsmFilled(d: Draft, auth: bytes)
    ensures Concat(UsmItems(d, auth)) == Fill(UsmFrame(d, |auth|), auth)
  {
    var items := UsmItems(d, auth);
    ConcatSplit(items, 4);
    assert items[..4] == BeforeAuth(d) && items[5..] == [Encoded(OCTETS, d.priv)];
    assert Fill(HOLE, auth) == auth;
    WrappedFills(OCTETS, HOLE, auth);
    BesideFills(Concat(BeforeAuth(d)), Wrapped(OCTETS, HOLE, |auth|), Concat([Encoded(OCTETS, d.priv)]), auth);
  }

  function BeforeSecurity(d: Draft): seq<Encoded> {
    [IntItem(3), Encoded(SEQUENCE, Concat(GlobalItems(d)))]
  }

  function InnerFrame(d: Draft, n: nat): Frame {
    Beside(Concat(BeforeSecurity(d)), Wrapped(OCTETS, Wrapped(SEQUENCE, UsmFrame(d, n), n), n), PayloadItem(d))
  }

  lemma {:induction false} InnerParts(d: Draft, auth: bytes)
    ensures Inner(d, auth) == Concat(BeforeSecurity(d)) + Tlv(OCTETS, Security(d, auth)) + PayloadItem(d)
  {
    var items := MessageItems(d, auth);
    ConcatSplit(items, 2);
    assert items[..2] == BeforeSecurity(d) && items[3..] == [];
    var front, sp := Concat(BeforeSecurity(d)), Tlv(OCTETS, Security(d, auth));
    assert front + sp + [] == front + sp;
  }

  lemma {:induction false} SecurityFilled(d: Draft, auth: bytes, f: Frame)
    requires f == Wrapped(SEQUENCE, UsmFrame(d, |auth|), |auth|)
    ensures Tlv(OCTETS, Security(d, auth)) == Fill(Wrapped(OCTETS, f, |auth|), auth)
  {
    UsmFilled(d, auth);
    WrappedFills(SEQUENCE, UsmFrame(d, |auth|), auth);
    WrappedFills(OCTETS, f, auth);
  }

  lemma {:induction false} InnerFilled(d: Draft, auth: bytes)
    ensures Inner(d, auth) == Fill(InnerFrame(d, |auth|), auth)
  {
    var f := Wrapped(SEQUENCE, UsmFrame(d, |auth|), |auth|);
    InnerParts(d, auth);
    SecurityFilled(d, auth, f);
    BesideFills(Concat(BeforeSecurity(d)), Wrapped(OCTETS, f, |auth|), PayloadItem(d), auth);
  }

  function MessageFrame(d: Draft, n: nat): Frame {
    Wrapped(SEQUENCE, InnerFrame(d, n), n)
  }

  /** Messages that differ only in the authentication field have the same frame. */
  lemma {:induction false} MessageFilled(d: Draft, auth: bytes)
    ensures Message(d, auth) == Fill(MessageFrame(d, |auth|), auth)
    ensures |MessageFrame(d, |auth|).back| == |PrivItem(d)| + |PayloadItem(d)|
  {
    InnerFilled(d, auth);
    WrappedFills(SEQUENCE, InnerFrame(d, |auth|), auth);
    assert [Encoded(OCTETS, d.priv)][1..] == [];
    assert Concat([Encoded(OCTETS, d.priv)]) == PrivItem(d) + Concat([]);
  }

  lemma {:induction false} SameSize(d: Draft, a: bytes, b: bytes)
    requires |a| == |b| && Small(d, a)
    ensures Small(d, b)
  {
    UsmFilled(d, a);
    UsmFilled(d, b);
    InnerFilled(d, a);
    InnerFilled(d, b);
  }

  // ---- signing --------------------------------------------------------------------------------

  /** Where a byte string first occurs. */
  ghost predicate FirstAt(msg: bytes, x: bytes, idx: nat) {
    Lies(msg, idx, x) && forall j :: 0 <= j < idx ==> !Lies(msg, j, x)
  }

  method IndexOf(msg: bytes, x: bytes) returns (idx: int)
    ensures idx >= 0 ==> FirstAt(msg, x, idx)
    ensures idx < 0 ==> forall j :: !Lies(msg, j, x)
  {
    idx := 0;
    while idx + |x| <= |msg|
      invariant 0 <= idx && forall j :: 0 <= j < idx ==> !Lies(msg, j, x)
    {
      if msg[idx..idx + |x|] == x {
        return;
      }
      idx := idx + 1;
    }
    idx := -1;
  }

  function Signed(msg: bytes, idx: nat, n: nat, mac: bytes -> bytes): bytes
    requires idx + n <= |msg| && |mac(Blanked(msg, idx, n))| >= n
  {
    var blank := Blanked(msg, idx, n);
    Replace(blank, idx, mac(blank)[..n])
  }

  /** buildV3's last part: find the placeholder, blank it, hash, fill in the hash. */
  method Sign(msg: bytes, placeholder: bytes, mac: bytes -> bytes) returns (r: Result<bytes>)
    requires forall b :: |mac(b)| >= |placeholder|
    ensures r.Err? ==> forall j :: !Lies(msg, j, placeholder)
    ensures r.Ok? ==>
      exists idx: nat :: FirstAt(msg, placeholder, idx) && r.value == Signed(msg, idx, |placeholder|, mac)
  {
    var idx := IndexOf(msg, placeholder);
    if idx < 0 {
      return Err;
    }
    var n := |placeholder|;
    var blank := Blank(msg, idx, n);
    var hash := mac(blank);
    r := Ok(blank[..idx] + hash[..n] + blank[idx + n..]);
    assert r.value == Signed(msg, idx, n, mac);
  }

  lemma {:induction false} ReplaceInFrame(f: Frame, x: bytes, y: bytes)
    requires |x| == |y|
    ensures Replace(Fill(f, x), |f.front|, y) == Fill(f, y)
  {
  }

  lemma {:induction false} FillLies(f: Frame, x: bytes)
    ensures Lies(Fill(f, x), |f.front|, x)
  {
  }

  /** The placeholder is found where the field is, unless its bytes occur in the message before. */
  lemma {:induction false} PlaceholderFound(d: Draft, placeholder: bytes, idx: nat)
    requires FirstAt(Message(d, placeholder), placeholder, idx)
    ensures idx <= |MessageFrame(d, |placeholder|).front|
  {
    MessageFilled(d, placeholder);
    FillLies(MessageFrame(d, |placeholder|), placeholder);
  }

  lemma {:induction false} SignedIsMessage(d: Draft, placeholder: bytes, mac: bytes -> bytes, off: nat, hash: bytes)
    requires off == |MessageFrame(d, |placeholder|).front| && off + |placeholder| <= |Message(d, placeholder)|
    requires |mac(Blanked(Message(d, placeholder), off, |placeholder|))| >= |placeholder|
    requires hash == mac(Blanked(Message(d, placeholder), off, |placeholder|))[..|placeholder|]
    ensures Signed(Message(d, placeholder), off, |placeholder|, mac) == Message(d, hash)
    ensures off + |placeholder| <= |Message(d, hash)|
    ensures Blanked(Message(d, hash), off, |placeholder|) == Blanked(Message(d, placeholder), off, |placeholder|)
  {
    var f, n := MessageFrame(d, |placeholder|), |placeholder|;
    MessageFilled(d, placeholder);
    MessageFilled(d, hash);
    ReplaceInFrame(f, placeholder, Zeros(n));
    ReplaceInFrame(f, Zeros(n), hash);
    ReplaceInFrame(f, hash, Zeros(n));
  }

  /** Hashes are at least as long as the field they go to. */
  ghost predicate LongEnough(mac: bytes -> bytes, n: nat) {
    forall b :: |mac(b)| >= n
  }

  /** The message parses back with the hash in its authentication field, the receiver's check accepts it,
      and everything else is what was drafted. */
  ghost predicate Accepted(d: Draft, signed: bytes, hash: bytes, mac: bytes -> bytes) {
    && LongEnough(mac, |hash|)
    && ParseV3(signed) == Ok(V3Of(d, hash, |Concat(UsmItems(d, hash))|, |signed|))
    && var off := ParseV3(signed).value.authOffset;
       0 <= off && off + |hash| <= |signed| && mac(Blanked(signed, off, |hash|))[..|hash|] == hash
  }

  ghost predicate SignedWell(d: Draft, placeholder: bytes, mac: bytes -> bytes, idx: nat)
    requires idx + |placeholder| <= |Message(d, placeholder)| && LongEnough(mac, |placeholder|)
  {
    var msg, n := Message(d, placeholder), |placeholder|;
    Accepted(d, Signed(msg, idx, n, mac), mac(Blanked(msg, idx, n))[..n], mac)
  }

  lemma {:induction false} OffsetInFrame(d: Draft, hash: bytes)
    ensures V3Of(d, hash, |Concat(UsmItems(d, hash))|, |Message(d, hash)|).authOffset == |MessageFrame(d, |hash|).front|
    ensures |MessageFrame(d, |hash|).front| + |hash| <= |Message(d, hash)|
  {
    MessageFilled(d, hash);
  }

  lemma {:induction false} MessageAccepted(d: Draft, hash: bytes, mac: bytes -> bytes, off: nat)
    requires Small(d, hash) && LongEnough(mac, |hash|) && off == |MessageFrame(d, |hash|).front|
    requires off + |hash| <= |Message(d, hash)| && hash == mac(Blanked(Message(d, hash), off, |hash|))[..|hash|]
    ensures Accepted(d, Message(d, hash), hash, mac)
  {
    MessageRoundTrip(d, hash);
    OffsetInFrame(d, hash);
  }

  lemma {:induction false} SignedVerifies(d: Draft, placeholder: bytes, mac: bytes -> bytes, idx: nat)
    requires Small(d, placeholder) && LongEnough(mac, |placeholder|) && idx == |MessageFrame(d, |placeholder|).front|
    ensures idx + |placeholder| <= |Message(d, placeholder)| && SignedWell(d, placeholder, mac, idx)
  {
    OffsetInFrame(d, placeholder);
    var hash := mac(Blanked(Message(d, placeholder), idx, |placeholder|))[..|placeholder|];
    SignedIsMessage(d, placeholder, mac, idx, hash);
    SameSize(d, placeholder, hash);
    MessageAccepted(d, hash, mac, idx);
  }

  // ---- a placeholder that occurs earlier ------------------------------------------------------

  lemma {:induction false} LaterStays(raw: bytes, i: nat, with: bytes, off: nat, x: bytes)
    requires i + |with| <= off && Lies(raw, off, x)
    ensures Lies(Replace(raw, i, with), off, x)
  {
    var out := Replace(raw, i, with);
    assert forall k :: i + |with| <= k < |raw| ==> out[k] == raw[k];
    assert out[off..off + |x|] == x;
  }

  /** How many bytes of the field at `off` are hit by n bytes from `idx` on. */
  function Hit(idx: nat, n: nat, off: nat): (k: nat)
    requires idx <= off
    ensures k <= n && idx + n <= off + k && (idx < off && n > 0 ==> k < n)
  {
    if idx + n <= off then 0 else idx + n - off
  }

  lemma {:induction false} EndStays(msg: bytes, off: nat, x: bytes, mac: bytes -> bytes, idx: nat)
    requires Lies(msg, off, x) && idx <= off && idx + |x| <= |msg| && LongEnough(mac, |x|)
    ensures var k := Hit(idx, |x|, off);
      Lies(Signed(msg, idx, |x|, mac), off + k, x[k..])
  {
    var n, k := |x|, Hit(idx, |x|, off);
    assert msg[off + k..off + n] == msg[off..off + n][k..];
    LaterStays(msg, idx, Zeros(n), off + k, x[k..]);
    var blank := Blanked(msg, idx, n);
    LaterStays(blank, idx, mac(blank)[..n], off + k, x[k..]);
  }

  /** When the placeholder is found before the field, the end of the field keeps the placeholder, all of
      it unless the two overlap: the hash goes to other bytes. */
  lemma {:induction false} EarlierLeavesPlaceholder(d: Draft, placeholder: bytes, mac: bytes -> bytes, idx: nat)
    requires idx <= |MessageFrame(d, |placeholder|).front| && LongEnough(mac, |placeholder|)
    ensures idx + |placeholder| <= |Message(d, placeholder)|
    ensures var off := |MessageFrame(d, |placeholder|).front|;
      var k := Hit(idx, |placeholder|, off);
      Lies(Signed(Message(d, placeholder), idx, |placeholder|, mac), off + k, placeholder[k..])
  {
    MessageFilled(d, placeholder);
    FillLies(MessageFrame(d, |placeholder|), placeholder);
    EndStays(Message(d, placeholder), |MessageFrame(d, |placeholder|).front|, placeholder, mac, idx);
  }

  lemma {:induction false} AcceptedCarriesHash(d: Draft, signed: bytes, hash: bytes, mac: bytes -> bytes)
    requires Accepted(d, signed, hash, mac)
    ensures Lies(signed, |signed| - |PayloadItem(d)| - |PrivItem(d)| - |hash|, hash)
  {
    ParseLocatesAuth(signed);
  }

  lemma {:induction false} LastByte(b: bytes, off: int, x: bytes)
    requires Lies(b, off, x) && x != []
    ensures b[off + |x| - 1] == x[|x| - 1]
  {
    assert b[off..off + |x|][|x| - 1] == b[off + |x| - 1];
  }

  lemma {:induction false} NotAccepted(d: Draft, signed: bytes, hash: bytes, mac: bytes -> bytes, off: int, last: byte)
    requires off == |signed| - |PayloadItem(d)| - |PrivItem(d)| - |hash| && hash != [] && hash[|hash| - 1] != last
    requires 0 <= off + |hash| - 1 < |signed| && signed[off + |hash| - 1] == last
    ensures !Accepted(d, signed, hash, mac)
  {
    if Accepted(d, signed, hash, mac) {
      AcceptedCarriesHash(d, signed, hash, mac);
      LastByte(signed, off, hash);
    }
  }

  lemma {:induction false} HashElsewhere(d: Draft, msg: bytes, off: nat, x: bytes, mac: bytes -> bytes, idx: nat,
                                         hash: bytes)
    requires Lies(msg, off, x) && x != [] && idx < off && idx + |x| <= |msg| && LongEnough(mac, |x|)
    requires off == |msg| - |PayloadItem(d)| - |PrivItem(d)| - |x|
    requires |hash| == |x| && hash[|hash| - 1] != x[|x| - 1]
    ensures !Accepted(d, Signed(msg, idx, |x|, mac), hash, mac)
  {
    EndStays(msg, off, x, mac, idx);
    var k := Hit(idx, |x|, off);
    LastByte(Signed(msg, idx, |x|, mac), off + k, x[k..]);
    NotAccepted(d, Signed(msg, idx, |x|, mac), hash, mac, off, x[|x| - 1]);
  }

  /** Then no hash is accepted, unless it happens to end as the placeholder does. */
  lemma {:induction false} EarlierIsMissigned(d: Draft, placeholder: bytes, mac: bytes -> bytes, idx: nat, hash: bytes)
    requires placeholder != [] && idx < |MessageFrame(d, |placeholder|).front| && LongEnough(mac, |placeholder|)
    requires idx + |placeholder| <= |Message(d, placeholder)|
    requires hash == mac(Blanked(Message(d, placeholder), idx, |placeholder|))[..|placeholder|]
    requires hash[|hash| - 1] != placeholder[|placeholder| - 1]
    ensures !SignedWell(d, placeholder, mac, idx)
  {
    MessageFilled(d, placeholder);
    FillLies(MessageFrame(d, |placeholder|), placeholder);
    HashElsewhere(d, Message(d, placeholder), |MessageFrame(d, |placeholder|).front|, placeholder, mac, idx, hash);
  }

  lemma {:induction false} SomeHashEndsElse(placeholder: bytes) returns (mac: bytes -> bytes)
    requires placeholder != []
    ensures forall b :: |mac(b)| == |placeholder| && mac(b)[|placeholder| - 1] != placeholder[|placeholder| - 1]
  {
    var other := if placeholder[|placeholder| - 1] == 0 then 1 else 0;
    var hash: bytes := seq(|placeholder|, _ => other);
    mac := (_: bytes) => hash;
  }

  ghost predicate NothingEarlier(d: Draft, placeholder: bytes) {
    forall j :: 0 <= j < |MessageFrame(d, |placeholder|).front| ==> !Lies(Message(d, placeholder), j, placeholder)
  }

  /** Every hash makes a good message exactly when the placeholder occurs nowhere before its field. */
  lemma {:induction false} SignedVerifiesIff(d: Draft, placeholder: bytes, idx: nat)
    requires placeholder != [] && Small(d, placeholder) && FirstAt(Message(d, placeholder), placeholder, idx)
    ensures (forall mac: bytes -> bytes :: LongEnough(mac, |placeholder|) ==> SignedWell(d, placeholder, mac, idx))
       <==> NothingEarlier(d, placeholder)
  {
    PlaceholderFound(d, placeholder, idx);
    if idx < |MessageFrame(d, |placeholder|).front| {
      var mac := SomeHashEndsElse(placeholder);
      assert LongEnough(mac, |placeholder|);
      EarlierIsMissigned(d, placeholder, mac, idx,
                         mac(Blanked(Message(d, placeholder), idx, |placeholder|))[..|placeholder|]);
    } else {
      forall mac: bytes -> bytes | LongEnough(mac, |placeholder|) ensures SignedWell(d, placeholder, mac, idx) {
        SignedVerifies(d, placeholder, mac, idx);
      }
    }
  }

  lemma {:induction false} InFill(f: Frame, x: bytes, at: nat, y: bytes)
    requires Lies(f.front, at, y)
    ensures Lies(Fill(f, x), at, y)
  {
    assert Fill(f, x)[at..at + |y|] == f.front[at..at + |y|];
  }

  lemma {:induction false} FrontLies(a: bytes, at: nat, y: bytes, b: bytes)
    requires Lies(a, at, y) && |a| <= |b| && b[..|a|] == a
    ensures Lies(b, at, y)
  {
    assert b[at..at + |y|] == b[..|a|][at..at + |y|];
  }

  lemma {:induction false} WrapMoves(tag: byte, f: Frame, n: nat, at: nat, y: bytes) returns (to: nat)
    requires Lies(f.front, at, y)
    ensures Lies(Wrapped(tag, f, n).front, to, y)
  {
    var head := [tag] + EncodeLength(|f.front| + n + |f.back|);
    to := |head| + at;
    assert (head + f.front)[to..to + |y|] == f.front[at..at + |y|];
  }

  lemma {:induction false} BesideMoves(a: bytes, f: Frame, b: bytes, at: nat, y: bytes)
    requires Lies(f.front, at, y)
    ensures Lies(Beside(a, f, b).front, |a| + at, y)
  {
    assert (a + f.front)[|a| + at..|a| + at + |y|] == f.front[at..at + |y|];
  }

  lemma {:induction false} TlvEndsWith(head: bytes, tag: byte, content: bytes)
    ensures |Tlv(tag, content)| >= |content|
    ensures var b := head + Tlv(tag, content); Lies(b, |b| - |content|, content)
  {
    var front := head + ([tag] + EncodeLength(|content|));
    assert head + Tlv(tag, content) == front + content;
  }

  lemma {:induction false} UserInFront(d: Draft)
    ensures exists at: nat :: Lies(Concat(BeforeAuth(d)), at, d.user)
  {
    var items := BeforeAuth(d);
    ConcatSplit(items, 3);
    assert items[4..] == [] && items[3] == Encoded(OCTETS, d.user);
    TlvEndsWith(Concat(items[..3]), OCTETS, d.user);
    assert Concat(items[..3]) + Tlv(OCTETS, d.user) + [] == Concat(items[..3]) + Tlv(OCTETS, d.user);
    assert Lies(Concat(items), |Concat(items[..3])| + |Tlv(OCTETS, d.user)| - |d.user|, d.user);
  }

  /** A user name that is the placeholder is such a case: it stands before the field. */
  lemma {:induction false} NameComesFirst(d: Draft)
    requires |d.user| > 0
    ensures exists at: nat :: at + |d.user| <= |MessageFrame(d, |d.user|).front| && Lies(Message(d, d.user), at, d.user)
  {
    var n := |d.user|;
    UserInFront(d);
    var at :| 0 <= at && at + n <= |Concat(BeforeAuth(d))| && Lies(Concat(BeforeAuth(d)), at, d.user);
    var usm := UsmFrame(d, n);
    FrontLies(Concat(BeforeAuth(d)), at, d.user, usm.front);
    var f1 := Wrapped(SEQUENCE, usm, n);
    var f2 := Wrapped(OCTETS, f1, n);
    var f3 := InnerFrame(d, n);
    var f4 := MessageFrame(d, n);
    var a1 := WrapMoves(SEQUENCE, usm, n, at, d.user);
    var a2 := WrapMoves(OCTETS, f1, n, a1, d.user);
    var a3 := |Concat(BeforeSecurity(d))| + a2;
    BesideMoves(Concat(BeforeSecurity(d)), f2, PayloadItem(d), a2, d.user);
    var a4 := WrapMoves(SEQUENCE, f3, n, a3, d.user);
    MessageFilled(d, d.user);
    InFill(f4, d.user, a4, d.user);
  }

  /** Then the first place found is before the field, whatever the rest of the draft says, and the signed
      message carries the placeholder instead of its hash. */
  lemma {:induction false} UserAsPlaceholderIsMissigned(d: Draft, mac: bytes -> bytes, idx: nat)
    requires |d.user| > 0 && FirstAt(Message(d, d.user), d.user, idx) && LongEnough(mac, |d.user|)
    ensures idx + |d.user| <= |MessageFrame(d, |d.user|).front|
    ensures Lies(Signed(Message(d, d.user), idx, |d.user|, mac), |MessageFrame(d, |d.user|).front|, d.user)
  {
    NameComesFirst(d);
    EarlierLeavesPlaceholder(d, d.user, mac, idx);
  }
}
