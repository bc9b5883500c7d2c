/**
 * SNMPv3 framing: where the authentication field of a message lies, and that a message signed there
 * parses back and passes verification.  The keyed hash is any function on bytes.
 */
module SnmpV3 {
  import opened Wrappers
  import opened Bytes
  import opened Ber
  import opened SnmpPdu

  // ---- reading elements one after the other ---------------------------------------------------

  /** An element and what follows it. */
  datatype Field = Field(tag: byte, content: bytes, rest: bytes)

  function Next(b: bytes): (r: Result<Field>)
    ensures r.Ok? ==> |r.value.content| + |r.value.rest| < |b|
  {
    match ReadTlv(b)
    case Err => Err
    case Ok(e) => Ok(Field(e.tag, e.content, b[e.size..]))
  }

  datatype Want = Tag(tag: byte) | Any

  predicate Meets(f: Field, w: Want) {
    w.Any? || f.tag == w.tag
  }

  /** One element after the other, each with the wanted tag. */
  function ReadFields(b: bytes, wants: seq<Want>): (r: Result<seq<Field>>)
    ensures r.Ok? ==> |r.value| == |wants|
    decreases |b|
  {
    if wants == [] then Ok([])
    else
      match Next(b)
      case Err => Err
      case Ok(f) =>
        if !Meets(f, wants[0]) then Err
        else match ReadFields(f.rest, wants[1..]) case Err => Err case Ok(fs) => Ok([f] + fs)
  }

  /** `inner` is the part of `outer` that starts at `off`. */
  ghost predicate Lies(outer: bytes, off: int, inner: bytes) {
    0 <= off && off + |inner| <= |outer| && outer[off..off + |inner|] == inner
  }

  ghost predicate Tail(b: bytes, rest: bytes) {
    |rest| <= |b| && b[|b| - |rest|..] == rest
  }

  lemma {:induction false} LiesDeeper(a: bytes, i: int, b: bytes, j: int, c: bytes)
    requires Lies(a, i, b) && Lies(b, j, c)
    ensures Lies(a, i + j, c)
  {
    forall k | 0 <= k < |c| ensures a[i + j + k] == c[k] {
      assert b[j + k] == b[j..j + |c|][k];
      assert a[i..i + |b|][j + k] == a[i + (j + k)];
    }
  }

  /** An element's content ends where what follows begins. */
  lemma {:induction false} NextLies(b: bytes)
    requires Next(b).Ok?
    ensures var f := Next(b).value; Tail(b, f.rest) && Lies(b, |b| - |f.rest| - |f.content|, f.content)
  {
  }

  /** The same, seen from the start of the buffer that is being read. */
  lemma {:induction false} NextLiesIn(a: bytes, b: bytes)
    requires Tail(a, b) && Next(b).Ok?
    ensures var f := Next(b).value; Tail(a, f.rest) && Lies(a, |a| - |f.rest| - |f.content|, f.content)
  {
  }

  /** Where a field's content lies in the buffer it was read from. */
  function Start(b: bytes, f: Field): int {
    |b| - |f.rest| - |f.content|
  }

  lemma {:induction false} FieldsCons(b: bytes, wants: seq<Want>, fs: seq<Field>)
    requires ReadFields(b, wants) == Ok(fs) && wants != []
    ensures fs != [] && Next(b) == Ok(fs[0]) && ReadFields(fs[0].rest, wants[1..]) == Ok(fs[1..])
  {
  }

  lemma {:induction false} FieldsLie(a: bytes, b: bytes, wants: seq<Want>, fs: seq<Field>, i: nat)
    requires Tail(a, b) && ReadFields(b, wants) == Ok(fs) && i < |wants|
    ensures i < |fs| && Lies(a, Start(a, fs[i]), fs[i].content) && Tail(a, fs[i].rest)
    decreases |wants|
  {
    FieldsCons(b, wants, fs);
    NextLiesIn(a, b);
    if i > 0 { FieldsLie(a, fs[0].rest, wants[1..], fs[1..], i - 1); }
  }

  lemma {:induction false} NextReads(tag: byte, content: bytes, rest: bytes)
    requires |content| < TWO32
    ensures Next(Tlv(tag, content) + rest) == Ok(Field(tag, content, rest))
  {
    TlvRoundTrip(tag, content, rest);
  }

  lemma {:induction false} FoldMore(b: bytes, at: nat, i: nat)
    requires at + i < |b|
    ensures Fold(0, b[at..at + i + 1]) == 256 * Fold(0, b[at..at + i]) + b[at + i]
  {
    assert b[at..at + i + 1] == b[at..at + i] + [b[at + i]];
    FoldSnoc(0, b[at..at + i], b[at + i]);
  }

  lemma {:induction false} SliceOfTail(b: bytes, start: nat, n: nat)
    requires start + 1 + n <= |b|
    ensures b[start..][1..1 + n] == b[start + 1..start + 1 + n]
  {
  }

  class Reader {
    const b: bytes
    var pos: nat

    ghost predicate Valid()
      reads this
    {
      pos <= |b|
    }

    constructor (b: bytes)
      ensures this.b == b && pos == 0 && Valid()
    {
      this.b, pos := b, 0;
    }

    method ReadLengthBytes() returns (l: Result<int>)
      requires Valid()
      modifies this
      ensures Valid()
      ensures l.Ok? <==> ReadLength(b[old(pos)..]).Ok?
      ensures l.Ok? ==>
        l.value == ReadLength(b[old(pos)..]).value.value && pos == old(pos) + ReadLength(b[old(pos)..]).value.size
    {
      if pos >= |b| {
        return Err;
      }
      var first := b[pos];
      ghost var start := pos;
      pos := pos + 1;
      if first < 128 {
        return Ok(first);
      }
      var n := first - 128;
      if n == 0 || n > 4 || pos + n > |b| {
        return Err;
      }
      var v: int := 0;
      for i := 0 to n
        invariant pos == start + 1 + i && v == Fold(0, b[start + 1..start + 1 + i])
      {
        FoldMore(b, start + 1, i);
        v := 256 * v + b[pos];
        pos := pos + 1;
      }
      SliceOfTail(b, start, n);
      l := Ok(v);
    }

    /** reader.tlv: the next element, and the position behind it. */
    method TakeTlv() returns (r: Result<Field>)
      requires Valid()
      modifies this
      ensures Valid() && r == Next(b[old(pos)..])
      ensures r.Ok? ==> b[pos..] == r.value.rest
    {
      ghost var start := pos;
      if pos >= |b| {
        return Err;
      }
      var tag := b[pos];
      pos := pos + 1;
      assert b[start..][1..] == b[start + 1..];
      var l := ReadLengthBytes();
      if l.Err? || l.value < 0 || pos + l.value > |b| {
        return Err;
      }
      var content := b[pos..pos + l.value];
      assert b[start..][pos - start..pos - start + l.value] == content;
      pos := pos + l.value;
      assert b[start..][pos - start..] == b[pos..];
      r := Ok(Field(tag, content, b[pos..]));
    }
  }

  // ---- messages -------------------------------------------------------------------------------

  datatype Payload = Scoped(pdu: bytes) | Encrypted(data: bytes)

  /** Security parameters; `authStart` is where the authentication field starts in them. */
  datatype Usm = Usm(engineId: bytes, boots: int32, time: int32, user: bytes, auth: bytes, authStart: int, priv: bytes)

  datatype V3 = V3(msgId: int32, flags: byte, usm: Usm, authOffset: int, payload: Payload)

  function IntOf(f: Field): int32 {
    ToInt32(if DecodeInt(f.content).Ok? then DecodeInt(f.content).value else 0)
  }

  const USM_FIELDS: seq<Want> := [Tag(OCTETS), Tag(INTEGER), Tag(INTEGER), Tag(OCTETS), Tag(OCTETS), Tag(OCTETS)]
  const GLOBAL_FIELDS: seq<Want> := [Tag(INTEGER), Any, Tag(OCTETS), Any]
  const MESSAGE_FIELDS: seq<Want> := [Tag(INTEGER), Tag(SEQUENCE), Tag(OCTETS)]

  function UsmFrom(b: bytes, f: seq<Field>): Usm
    requires |f| == 6
  {
    Usm(f[0].content, IntOf(f[1]), IntOf(f[2]), f[3].content, f[4].content, Start(b, f[4]), f[5].content)
  }

  function ReadUsmAs(b: bytes, wants: seq<Want>): Result<Usm>
    requires |wants| == 6
  {
    match ReadFields(b, wants)
    case Err => Err
    case Ok(f) => Ok(UsmFrom(b, f))
  }

  function ReadUsm(b: bytes): Result<Usm> {
    ReadUsmAs(b, USM_FIELDS)
  }

  datatype Global = Global(msgId: int32, flags: byte)

  function ReadGlobal(b: bytes): Result<Global> {
    match ReadFields(b, GLOBAL_FIELDS)
    case Err => Err
    case Ok(f) => if |f[2].content| != 1 then Err else Ok(Global(IntOf(f[0]), f[2].content[0]))
  }

  function ReadPayload(b: bytes): Result<Payload> {
    match Next(b)
    case Err => Err
    case Ok(f) =>
      if f.tag == OCTETS then Ok(Encrypted(f.content))
      else if f.tag == SEQUENCE then Ok(Scoped(b[..|b| - |f.rest|]))
      else Err
  }

  function ReadSequence(b: bytes): Result<Field> {
    match Next(b) case Ok(f) => if f.tag == SEQUENCE then Ok(f) else Err case Err => Err
  }

  /** The security parameters, and where the authentication field starts in the octet string around them. */
  datatype Located = Located(usm: Usm, auth: int)

  function ReadSecurity(sp: bytes): Result<Located> {
    match ReadSequence(sp)
    case Err => Err
    case Ok(f) =>
      match ReadUsm(f.content)
      case Err => Err
      case Ok(u) => Ok(Located(u, Start(sp, f) + u.authStart))
  }

  /** A message from its version, global data and security parameters, and what follows them. */
  function FromFields(b: bytes, version: Field, global: Field, sp: Field): Result<V3> {
    if DecodeInt(version.content) != Ok(3) then Err
    else
      match ReadGlobal(global.content)
      case Err => Err
      case Ok(g) =>
        match ReadSecurity(sp.content)
        case Err => Err
        case Ok(s) =>
          match ReadPayload(sp.rest)
          case Err => Err
          case Ok(p) => Ok(V3(g.msgId, g.flags, s.usm, Start(b, sp) + s.auth, p))
  }

  /** The message inside its outer sequence. */
  function ReadMessage(b: bytes): Result<V3> {
    match ReadFields(b, MESSAGE_FIELDS)
    case Err => Err
    case Ok(f) => FromFields(b, f[0], f[1], f[2])
  }

  function Moved(m: V3, base: int): V3 {
    V3(m.msgId, m.flags, m.usm, base + m.authOffset, m.payload)
  }

  function ParseV3(b: bytes): Result<V3> {
    match ReadSequence(b)
    case Err => Err
    case Ok(f) =>
      match ReadMessage(f.content)
      case Err => Err
      case Ok(m) => Ok(Moved(m, Start(b, f)))
  }

  lemma {:induction false} UsmLocatesAuth(b: bytes)
    requires ReadUsm(b).Ok?
    ensures Lies(b, ReadUsm(b).value.authStart, ReadUsm(b).value.auth)
  {
    FieldsLie(b, b, USM_FIELDS, ReadFields(b, USM_FIELDS).value, 4);
  }

  lemma {:induction false} SecurityLocatesAuth(sp: bytes)
    requires ReadSecurity(sp).Ok?
    ensures Lies(sp, ReadSecurity(sp).value.auth, ReadSecurity(sp).value.usm.auth)
  {
    var f := ReadSequence(sp).value;
    NextLies(sp);
    UsmLocatesAuth(f.content);
    var u := ReadUsm(f.content).value;
    LiesDeeper(sp, Start(sp, f), f.content, u.authStart, u.auth);
  }

  lemma {:induction false} FieldsLocateAuth(b: bytes, version: Field, global: Field, sp: Field)
    requires FromFields(b, version, global, sp).Ok? && Lies(b, Start(b, sp), sp.content)
    ensures var m := FromFields(b, version, global, sp).value; Lies(b, m.authOffset, m.usm.auth)
  {
    SecurityLocatesAuth(sp.content);
    var s := ReadSecurity(sp.content).value;
    LiesDeeper(b, Start(b, sp), sp.content, s.auth, s.usm.auth);
  }

  lemma {:induction false} MessageLocatesAuth(b: bytes)
    requires ReadMessage(b).Ok?
    ensures Lies(b, ReadMessage(b).value.authOffset, ReadMessage(b).value.usm.auth)
  {
    var f := ReadFields(b, MESSAGE_FIELDS).value;
    FieldsLie(b, b, MESSAGE_FIELDS, f, 2);
    FieldsLocateAuth(b, f[0], f[1], f[2]);
  }

  /** For every byte string that parses, the offset points at the authentication field. */
  lemma {:induction false} ParseLocatesAuth(b: bytes)
    requires ParseV3(b).Ok?
    ensures Lies(b, ParseV3(b).value.authOffset, ParseV3(b).value.usm.auth)
  {
    var f := ReadSequence(b).value;
    NextLies(b);
    MessageLocatesAuth(f.content);
    var m := ReadMessage(f.content).value;
    LiesDeeper(b, Start(b, f), f.content, m.authOffset, m.usm.auth);
  }

  // ---- parsing with readers -------------------------------------------------------------------

  function Behind(done: seq<Field>, more: Result<seq<Field>>): Result<seq<Field>> {
    match more case Err => Err case Ok(fs) => Ok(done + fs)
  }

  lemma {:induction false} BehindEnds(done: seq<Field>, more: Result<seq<Field>>)
    ensures Behind([], more) == more && Behind(done, Ok([])) == Ok(done)
  {
    if more.Ok? { assert [] + more.value == more.value; }
    assert done + [] == done;
  }

  lemma {:induction false} FieldsStep(at: bytes, wants: seq<Want>, i: nat, done: seq<Field>)
    requires i < |wants|
    ensures var all := Behind(done, ReadFields(at, wants[i..]));
      match Next(at)
      case Err => all.Err?
      case Ok(f) =>
        if Meets(f, wants[i]) then all == Behind(done + [f], ReadFields(f.rest, wants[i + 1..])) else all.Err?
  {
    assert wants[i..][1..] == wants[i + 1..];
    match Next(at) {
      case Err =>
      case Ok(f) =>
        var more := ReadFields(f.rest, wants[i + 1..]);
        if more.Ok? { assert done + ([f] + more.value) == done + [f] + more.value; }
    }
  }

  /** One reader over `b`: the wanted fields, and where each content starts by the reader's position. */
  method TakeFields(b: bytes, wants: seq<Want>) returns (r: Result<seq<Field>>, at: seq<int>)
    ensures r == ReadFields(b, wants)
    ensures r.Ok? ==> |at| == |wants| && forall i :: 0 <= i < |at| ==> at[i] == Start(b, r.value[i])
  {
    var rd := new Reader(b);
    var fs: seq<Field> := [];
    at := [];
    ghost var all := ReadFields(b, wants);
    BehindEnds(fs, all);
    assert b[0..] == b && wants[0..] == wants;
    for i := 0 to |wants|
      invariant rd.Valid() && rd.b == b && |fs| == i && |at| == i
      invariant all == Behind(fs, ReadFields(b[rd.pos..], wants[i..]))
      invariant forall j :: 0 <= j < i ==> at[j] == Start(b, fs[j])
    {
      FieldsStep(b[rd.pos..], wants, i, fs);
      var f := rd.TakeTlv();
      if f.Err? || !Meets(f.value, wants[i]) {
        return Err, at;
      }
      fs := fs + [f.value];
      at := at + [rd.pos - |f.value.content|];
    }
    BehindEnds(fs, all);
    assert wants[|wants|..] == [];
    r := Ok(fs);
  }

  method TakeSequence(b: bytes) returns (r: Result<Field>, at: int)
    ensures r == ReadSequence(b) && (r.Ok? ==> at == Start(b, r.value))
  {
    var rd := new Reader(b);
    assert b[0..] == b;
    r := rd.TakeTlv();
    if r.Err? || r.value.tag != SEQUENCE {
      return Err, 0;
    }
    at := rd.pos - |r.value.content|;
  }

  method TakeUsm(b: bytes) returns (r: Result<Usm>)
    ensures r == ReadUsm(b)
  {
    var f, at := TakeFields(b, USM_FIELDS);
    if f.Err? {
      return Err;
    }
    r := Ok(UsmFrom(b, f.value).(authStart := at[4]));
  }

  method TakeSecurity(sp: bytes) returns (r: Result<Located>)
    ensures r == ReadSecurity(sp)
  {
    var f, at := TakeSequence(sp);
    if f.Err? {
      return Err;
    }
    var u := TakeUsm(f.value.content);
    if u.Err? {
      return Err;
    }
    r := Ok(Located(u.value, at + u.value.authStart));
  }

  method TakeGlobal(b: bytes) returns (r: Result<Global>)
    ensures r == ReadGlobal(b)
  {
    var g, _ := TakeFields(b, GLOBAL_FIELDS);
    if g.Err? || |g.value[2].content| != 1 {
      return Err;
    }
    r := Ok(Global(IntOf(g.value[0]), g.value[2].content[0]));
  }

  method TakeParts(b: bytes, version: Field, global: Field, sp: Field, at: int) returns (r: Result<V3>)
    requires at == Start(b, sp)
    ensures r == FromFields(b, version, global, sp)
  {
    var v := ReadIntBytes(version.content);
    if v != Ok(3) {
      return Err;
    }
    var g := TakeGlobal(global.content);
    if g.Err? {
      return Err;
    }
    var s := TakeSecurity(sp.content);
    if s.Err? {
      return Err;
    }
    var p := ReadPayload(sp.rest);
    if p.Err? {
      return Err;
    }
    r := Ok(V3(g.value.msgId, g.value.flags, s.value.usm, at + s.value.auth, p.value));
  }

  method TakeMessage(b: bytes) returns (r: Result<V3>)
    ensures r == ReadMessage(b)
  {
    var f, at := TakeFields(b, MESSAGE_FIELDS);
    if f.Err? {
      return Err;
    }
    r := TakeParts(b, f.value[0], f.value[1], f.value[2], at[2]);
  }

  /** parseV3: three nested readers, whose positions add up to the offset. */
  method Parse(b: bytes) returns (r: Result<V3>)
    ensures r == ParseV3(b)
    ensures r.Ok? ==> Lies(b, r.value.authOffset, r.value.usm.auth)
  {
    var f, at := TakeSequence(b);
    if f.Err? {
      return Err;
    }
    var m := TakeMessage(f.value.content);
    if m.Err? {
      return Err;
    }
    r := Ok(Moved(m.value, at));
    ParseLocatesAuth(b);
  }

  // ---- signing and verifying ------------------------------------------------------------------

  function Zeros(n: nat): (r: bytes)
    ensures |r| == n
  {
    seq(n, _ => 0)
  }

  /** raw with n bytes from `off` on replaced. */
  function Replace(raw: bytes, off: nat, with: bytes): bytes
    requires off + |with| <= |raw|
  {
    raw[..off] + with + raw[off + |with|..]
  }

  /** The message as it is hashed: exactly the authentication field is zero. */
  function Blanked(raw: bytes, off: nat, n: nat): bytes
    requires off + n <= |raw|
  {
    Replace(raw, off, Zeros(n))
  }

  method Blank(raw: bytes, off: nat, n: nat) returns (out: bytes)
    requires off + n <= |raw|
    ensures out == Blanked(raw, off, n)
  {
    var cp := new byte[|raw|](i requires 0 <= i < |raw| => raw[i]);
    for i := 0 to n
      invariant forall k :: 0 <= k < |raw| ==> cp[k] == if off <= k < off + i then 0 else raw[k]
    {
      cp[off + i] := 0;
    }
    out := cp[..];
  }

  /** verify: the hash of the blanked message must be the one the message carries. */
  method Verify(raw: bytes, m: V3, mac: bytes -> bytes, authLen: nat) returns (ok: bool)
    requires Lies(raw, m.authOffset, m.usm.auth)
    requires forall b :: |mac(b)| >= authLen
    ensures ok <==> |m.usm.auth| == authLen && mac(Blanked(raw, m.authOffset, authLen))[..authLen] == m.usm.auth
  {
    if |m.usm.auth| != authLen {
      return false;
    }
    var cp := Blank(raw, m.authOffset, authLen);
    ok := mac(cp)[..authLen] == m.usm.auth;
  }
}
