/** SNMP values, variable bindings and PDUs: whatever is encoded decodes to its canonical form. */
module SnmpPdu {
  import opened Wrappers
  import opened Bytes
  import opened Ber

  /** A value by its kind; a Counter64 is its unsigned form, of which the signed one is derived. */
  datatype Value =
    | Integer(n: int64)
    | Octets(b: bytes)
    | Null
    | ObjectId(ids: Arcs)
    | IpAddress(b: bytes)
    | Counter32(n: int64)
    | Gauge32(n: int64)
    | TimeTicks(n: int64)
    | Opaque(b: bytes)
    | Counter64(u: nat)
    | NoSuchObject
    | NoSuchInstance
    | EndOfMibView

  predicate Exception(v: Value) {
    v.NoSuchObject? || v.NoSuchInstance? || v.EndOfMibView?
  }

  /** A uint64 field holds what it can hold. */
  predicate WellFormed(v: Value) {
    v.Counter64? ==> v.u < TWO64
  }

  /** Go's conversion of an int64 to uint64. */
  function ToUnsigned(n: int64): (u: nat)
    ensures u < TWO64
  {
    n % TWO64
  }

  datatype Encoded = Encoded(tag: byte, content: bytes)

  /** Tag and content; exceptions have no encoding of their own and become Null. */
  function EncodeValue(v: Value): Result<Encoded> {
    match v
    case Integer(n) => Ok(Encoded(INTEGER, IntBytes(n)))
    case Octets(b) => Ok(Encoded(OCTETS, b))
    case Null => Ok(Encoded(NULL, []))
    case ObjectId(ids) => if EncodeOid(ids).Ok? then Ok(Encoded(OID, EncodeOid(ids).value)) else Err
    case IpAddress(b) => Ok(Encoded(IP_ADDRESS, b))
    case Counter32(n) => Ok(Encoded(COUNTER32, UintBytes(ToUnsigned(n))))
    case Gauge32(n) => Ok(Encoded(GAUGE32, UintBytes(ToUnsigned(n))))
    case TimeTicks(n) => Ok(Encoded(TIME_TICKS, UintBytes(ToUnsigned(n))))
    case Opaque(b) => Ok(Encoded(OPAQUE, b))
    case Counter64(u) => Ok(Encoded(COUNTER64, UintBytes(u)))
    case _ => Ok(Encoded(NULL, []))
  }

  function Low32(b: bytes): Result<int64> {
    match DecodeUint(b) case Ok(u) => Ok(u % TWO32) case Err => Err
  }

  function DecodeValue(tag: byte, b: bytes): Result<Value> {
    if tag == INTEGER then (match DecodeInt(b) case Ok(n) => Ok(Integer(n)) case Err => Err)
    else if tag == OCTETS then Ok(Octets(b))
    else if tag == NULL then Ok(Null)
    else if tag == OID then (match DecodeOid(b) case Ok(ids) => Ok(ObjectId(ids)) case Err => Err)
    else if tag == IP_ADDRESS then Ok(IpAddress(b))
    else if tag == COUNTER32 then (match Low32(b) case Ok(n) => Ok(Counter32(n)) case Err => Err)
    else if tag == GAUGE32 then (match Low32(b) case Ok(n) => Ok(Gauge32(n)) case Err => Err)
    else if tag == TIME_TICKS then (match Low32(b) case Ok(n) => Ok(TimeTicks(n)) case Err => Err)
    else if tag == OPAQUE then Ok(Opaque(b))
    else if tag == COUNTER64 then (match DecodeUint(b) case Ok(u) => Ok(Counter64(u)) case Err => Err)
    else if tag == NO_SUCH_OBJECT then Ok(NoSuchObject)
    else if tag == NO_SUCH_INSTANCE then Ok(NoSuchInstance)
    else if tag == END_OF_MIB_VIEW then Ok(EndOfMibView)
    else Err
  }

  /** What comes back of a value. */
  function Canon(v: Value): Value
    requires v.ObjectId? ==> |v.ids| >= 2
  {
    match v
    case ObjectId(ids) => ObjectId(CanonOid(ids))
    case Counter32(n) => Counter32(n % TWO32)
    case Gauge32(n) => Gauge32(n % TWO32)
    case TimeTicks(n) => TimeTicks(n % TWO32)
    case _ => if Exception(v) then Null else v
  }

  lemma {:induction false} ModShift(u: int, k: int)
    ensures (TWO32 * k + u) % TWO32 == u % TWO32
  {
  }

  lemma {:induction false} Low32RoundTrip(n: int64)
    ensures Low32(UintBytes(ToUnsigned(n))) == Ok(n % TWO32)
  {
    UintRoundTrip(ToUnsigned(n));
    assert TWO64 == TWO32 * TWO32;
    var q := (n - ToUnsigned(n)) / TWO64;
    assert n == TWO64 * q + ToUnsigned(n);
    ModShift(ToUnsigned(n), TWO32 * q);
  }

  /** The content of the three 32-bit kinds, whatever it is. */
  lemma {:induction false} Decodes32(b: bytes, m: int64)
    requires Low32(b) == Ok(m)
    ensures DecodeValue(COUNTER32, b) == Ok(Counter32(m))
    ensures DecodeValue(GAUGE32, b) == Ok(Gauge32(m))
    ensures DecodeValue(TIME_TICKS, b) == Ok(TimeTicks(m))
  {
  }

  ghost predicate ComesBack(v: Value)
    requires EncodeValue(v).Ok?
  {
    DecodeValue(EncodeValue(v).value.tag, EncodeValue(v).value.content) == Ok(Canon(v))
  }

  lemma {:induction false} CounterRoundTrip(n: int64, b: bytes)
    requires b == UintBytes(ToUnsigned(n))
    ensures ComesBack(Counter32(n))
  {
    Low32RoundTrip(n);
    Decodes32(b, n % TWO32);
  }

  lemma {:induction false} GaugeRoundTrip(n: int64, b: bytes)
    requires b == UintBytes(ToUnsigned(n))
    ensures ComesBack(Gauge32(n))
  {
    Low32RoundTrip(n);
    Decodes32(b, n % TWO32);
  }

  lemma {:induction false} TicksRoundTrip(n: int64, b: bytes)
    requires b == UintBytes(ToUnsigned(n))
    ensures ComesBack(TimeTicks(n))
  {
    Low32RoundTrip(n);
    Decodes32(b, n % TWO32);
  }

  lemma {:induction false} ValueRoundTrip(v: Value)
    requires WellFormed(v) && EncodeValue(v).Ok?
    ensures DecodeValue(EncodeValue(v).value.tag, EncodeValue(v).value.content) == Ok(Canon(v))
  {
    match v
    case Integer(n) => IntRoundTrip(n);
    case ObjectId(ids) => OidRoundTrip(ids);
    case Counter32(n) => CounterRoundTrip(n, UintBytes(ToUnsigned(n)));
    case Gauge32(n) => GaugeRoundTrip(n, UintBytes(ToUnsigned(n)));
    case TimeTicks(n) => TicksRoundTrip(n, UintBytes(ToUnsigned(n)));
    case Counter64(u) => UintRoundTrip(u);
    case _ =>
  }

  /** A value that is no identifier survives exactly when it is no exception and, for the 32-bit kinds,
      fits into 32 bits; for identifiers OidSurvivesIff says when. */
  lemma {:induction false} ValueSurvivesIff(v: Value)
    requires !v.ObjectId?
    ensures Canon(v) == v <==> !Exception(v) && (v.Counter32? || v.Gauge32? || v.TimeTicks? ==> 0 <= v.n < TWO32)
  {
  }

  // ---- what agents send -----------------------------------------------------------------------

  /** The tag of a value in section 3 of RFC 3416 and section 2 of RFC 2578, written out. */
  function TagOf(v: Value): byte {
    match v
    case Integer(_) => 0x02
    case Octets(_) => 0x04
    case Null => 0x05
    case ObjectId(_) => 0x06
    case IpAddress(_) => 0x40
    case Counter32(_) => 0x41
    case Gauge32(_) => 0x42
    case TimeTicks(_) => 0x43
    case Opaque(_) => 0x44
    case Counter64(_) => 0x46
    case NoSuchObject => 0x80
    case NoSuchInstance => 0x81
    case EndOfMibView => 0x82
  }

  /** Whatever decodes is of the kind that its tag stands for, and byte strings are the content itself. */
  lemma {:induction false} KindIsTag(tag: byte, b: bytes)
    ensures DecodeValue(tag, b).Ok? ==> TagOf(DecodeValue(tag, b).value) == tag
    ensures tag == 0x04 ==> DecodeValue(tag, b) == Ok(Octets(b))
    ensures tag == 0x40 ==> DecodeValue(tag, b) == Ok(IpAddress(b))
    ensures tag == 0x44 ==> DecodeValue(tag, b) == Ok(Opaque(b))
    ensures tag == 0x05 ==> DecodeValue(tag, b) == Ok(Null)
    ensures tag == 0x80 ==> DecodeValue(tag, b) == Ok(NoSuchObject)
    ensures tag == 0x81 ==> DecodeValue(tag, b) == Ok(NoSuchInstance)
    ensures tag == 0x82 ==> DecodeValue(tag, b) == Ok(EndOfMibView)
  {
  }

  /** Every tag that stands for no value is refused, with any content. */
  lemma {:induction false} OtherTagsAreRefused(tag: byte, b: bytes)
    requires forall v: Value :: TagOf(v) != tag
    ensures DecodeValue(tag, b) == Err
  {
    KindIsTag(tag, b);
  }

  /** An agent's encoding: unlike the source's own encoder it knows the exceptions, which have no content. */
  function AgentValue(v: Value): Result<Encoded> {
    if Exception(v) then Ok(Encoded(TagOf(v), []))
    else
      match EncodeValue(v)
      case Ok(e) => Ok(Encoded(TagOf(v), e.content))
      case Err => Err
  }

  /** What comes back of it: the exceptions, too. */
  function Received(v: Value): Value
    requires v.ObjectId? ==> |v.ids| >= 2
  {
    if Exception(v) then v else Canon(v)
  }

  lemma {:induction false} AgentValueDecodes(v: Value)
    requires WellFormed(v) && AgentValue(v).Ok?
    ensures DecodeValue(AgentValue(v).value.tag, AgentValue(v).value.content) == Ok(Received(v))
  {
    if Exception(v) { KindIsTag(TagOf(v), []); } else { ValueRoundTrip(v); }
  }

  // ---- variable bindings ----------------------------------------------------------------------

  datatype VarBind = VarBind(oid: Arcs, value: Value)

  function EncodeVarBind(vb: VarBind): Result<bytes> {
    match EncodeOid(vb.oid)
    case Err => Err
    case Ok(oid) =>
      match EncodeValue(vb.value)
      case Err => Err
      case Ok(e) => Ok(Tlv(SEQUENCE, Tlv(OID, oid) + Tlv(e.tag, e.content)))
  }

  function EncodeVarBinds(vbs: seq<VarBind>): Result<bytes> {
    if vbs == [] then Ok([])
    else
      match EncodeVarBind(vbs[0])
      case Err => Err
      case Ok(b) =>
        match EncodeVarBinds(vbs[1..])
        case Err => Err
        case Ok(rest) => Ok(b + rest)
  }

  function DecodeVarBind(b: bytes): Result<VarBind> {
    match ReadTlv(b)
    case Err => Err
    case Ok(e1) =>
      if e1.tag != OID then Err
      else
        match DecodeOid(e1.content)
        case Err => Err
        case Ok(oid) =>
          match ReadTlv(b[e1.size..])
          case Err => Err
          case Ok(e2) =>
            match DecodeValue(e2.tag, e2.content)
            case Err => Err
            case Ok(v) => Ok(VarBind(oid, v))
  }

  function DecodeVarBinds(b: bytes): Result<seq<VarBind>>
    decreases |b|
  {
    if b == [] then Ok([])
    else
      match ReadTlv(b)
      case Err => Err
      case Ok(e) =>
        if e.tag != SEQUENCE then Err
        else
          match DecodeVarBind(e.content)
          case Err => Err
          case Ok(vb) =>
            match DecodeVarBinds(b[e.size..])
            case Err => Err
            case Ok(rest) => Ok([vb] + rest)
  }

  ghost predicate AllWellFormed(vbs: seq<VarBind>) {
    forall i :: 0 <= i < |vbs| ==> WellFormed(vbs[i].value)
  }

  function CanonBind(vb: VarBind): VarBind
    requires EncodeVarBind(vb).Ok?
  {
    VarBind(CanonOid(vb.oid), Canon(vb.value))
  }

  function CanonBinds(vbs: seq<VarBind>): seq<VarBind>
    requires EncodeVarBinds(vbs).Ok?
  {
    if vbs == [] then [] else [CanonBind(vbs[0])] + CanonBinds(vbs[1..])
  }

  lemma {:induction false} PairReads(oid: bytes, e: Encoded)
    requires |Tlv(OID, oid) + Tlv(e.tag, e.content)| < TWO32
    ensures var b := Tlv(OID, oid) + Tlv(e.tag, e.content);
      && ReadTlv(b) == Ok(Element(OID, oid, |Tlv(OID, oid)|))
      && ReadTlv(b[|Tlv(OID, oid)|..]) == Ok(Element(e.tag, e.content, |Tlv(e.tag, e.content)|))
  {
    TlvRoundTrip(OID, oid, Tlv(e.tag, e.content));
    TlvAlone(e.tag, e.content);
  }

  lemma {:induction false} VarBindRoundTrip(vb: VarBind, oid: bytes, e: Encoded)
    requires WellFormed(vb.value) && EncodeOid(vb.oid) == Ok(oid) && EncodeValue(vb.value) == Ok(e)
    requires |Tlv(OID, oid) + Tlv(e.tag, e.content)| < TWO32
    ensures DecodeVarBind(Tlv(OID, oid) + Tlv(e.tag, e.content)) == Ok(CanonBind(vb))
  {
    PairReads(oid, e);
    OidRoundTrip(vb.oid);
    ValueRoundTrip(vb.value);
  }

  lemma {:induction false} VarBindsRoundTrip(vbs: seq<VarBind>)
    requires AllWellFormed(vbs) && EncodeVarBinds(vbs).Ok? && |EncodeVarBinds(vbs).value| < TWO32
    ensures DecodeVarBinds(EncodeVarBinds(vbs).value) == Ok(CanonBinds(vbs))
    decreases |vbs|
  {
    if vbs != [] {
      var oid, e, rest := EncodeOid(vbs[0].oid).value, EncodeValue(vbs[0].value).value, EncodeVarBinds(vbs[1..]).value;
      var pair := Tlv(OID, oid) + Tlv(e.tag, e.content);
      assert EncodeVarBinds(vbs).value == Tlv(SEQUENCE, pair) + rest;
      TlvRoundTrip(SEQUENCE, pair, rest);
      VarBindRoundTrip(vbs[0], oid, e);
      VarBindsRoundTrip(vbs[1..]);
    }
  }

  // ---- PDUs -----------------------------------------------------------------------------------

  type int32 = x: int | -0x8000_0000 <= x < 0x8000_0000

  datatype Pdu = Pdu(kind: byte, requestId: int32, errorCode: int64, errorIndex: int64,
                     nonRepeaters: int64, maxRepetitions: int64, varBinds: seq<VarBind>)

  function Int(n: int): bytes {
    Tlv(INTEGER, IntBytes(n))
  }

  /** The two numbers a PDU carries besides its request id. */
  function First(p: Pdu): int64 {
    if p.kind == GET_BULK then p.nonRepeaters else p.errorCode
  }

  function Second(p: Pdu): int64 {
    if p.kind == GET_BULK then p.maxRepetitions else p.errorIndex
  }

  function Body(p: Pdu, vbs: bytes): bytes {
    Int(p.requestId) + (Int(First(p)) + (Int(Second(p)) + Tlv(SEQUENCE, vbs)))
  }

  function EncodePdu(p: Pdu): Result<bytes> {
    match EncodeVarBinds(p.varBinds)
    case Err => Err
    case Ok(vbs) =>
      Ok(Tlv(p.kind, Body(p, vbs)))
  }

  /** An integer element; content that is no integer reads as 0, as the source ignores that error. */
  function ReadInt(b: bytes): (r: Result<(int64, nat)>)
    ensures r.Ok? ==> r.value.1 <= |b|
  {
    match ReadTlv(b)
    case Err => Err
    case Ok(e) =>
      if e.tag != INTEGER then Err
      else Ok((if DecodeInt(e.content).Ok? then DecodeInt(e.content).value else 0, e.size))
  }

  /** Go's conversion of an int64 to int32. */
  function ToInt32(n: int64): (r: int32)
    ensures -0x8000_0000 <= n < 0x8000_0000 ==> r == n
  {
    (n + 0x8000_0000) % TWO32 - 0x8000_0000
  }

  /** The three integers a PDU starts with, and what follows. */
  datatype Head = Head(rid: int64, x: int64, y: int64, rest: bytes)

  function ReadHead(b: bytes): Result<Head> {
    match ReadInt(b)
    case Err => Err
    case Ok(rid) =>
      var b1 := b[rid.1..];
      match ReadInt(b1)
      case Err => Err
      case Ok(x) =>
        var b2 := b1[x.1..];
        match ReadInt(b2)
        case Err => Err
        case Ok(y) => Ok(Head(rid.0, x.0, y.0, b2[y.1..]))
  }

  function ReadBinds(b: bytes): Result<seq<VarBind>> {
    match ReadTlv(b)
    case Err => Err
    case Ok(e) => if e.tag != SEQUENCE then Err else DecodeVarBinds(e.content)
  }

  function Assemble(kind: byte, rid: int32, x: int64, y: int64, vbs: seq<VarBind>): Pdu {
    if kind == GET_BULK then Pdu(kind, rid, 0, 0, x, y, vbs) else Pdu(kind, rid, x, y, 0, 0, vbs)
  }

  function DecodePdu(kind: byte, b: bytes): Result<Pdu> {
    match ReadHead(b)
    case Err => Err
    case Ok(h) =>
      match ReadBinds(h.rest)
      case Err => Err
      case Ok(vbs) => Ok(Assemble(kind, ToInt32(h.rid), h.x, h.y, vbs))
  }

  function CanonPdu(p: Pdu): Pdu
    requires EncodePdu(p).Ok?
  {
    var vbs := CanonBinds(p.varBinds);
    if p.kind == GET_BULK then p.(errorCode := 0, errorIndex := 0, varBinds := vbs)
    else p.(nonRepeaters := 0, maxRepetitions := 0, varBinds := vbs)
  }

  lemma {:induction false} IntReads(n: int64, rest: bytes)
    ensures ReadInt(Int(n) + rest) == Ok((n, |Int(n)|)) && (Int(n) + rest)[|Int(n)|..] == rest
  {
    IntRoundTrip(n);
    TlvRoundTrip(INTEGER, IntBytes(n), rest);
  }

  lemma {:induction false} HeadReads(rid: int64, x: int64, y: int64, rest: bytes)
    ensures ReadHead(Int(rid) + (Int(x) + (Int(y) + rest))) == Ok(Head(rid, x, y, rest))
  {
    IntReads(rid, Int(x) + (Int(y) + rest));
    IntReads(x, Int(y) + rest);
    IntReads(y, rest);
  }

  lemma {:induction false} BindsRead(vbs: bytes)
    requires |vbs| < TWO32
    ensures ReadBinds(Tlv(SEQUENCE, vbs)) == DecodeVarBinds(vbs)
  {
    TlvAlone(SEQUENCE, vbs);
  }

  lemma {:induction false} DecodeParts(kind: byte, b: bytes, h: Head, vbs: seq<VarBind>)
    requires ReadHead(b) == Ok(h) && ReadBinds(h.rest) == Ok(vbs)
    ensures DecodePdu(kind, b) == Ok(Assemble(kind, ToInt32(h.rid), h.x, h.y, vbs))
  {
  }

  lemma {:induction false} PduBody(p: Pdu, vbs: bytes)
    requires AllWellFormed(p.varBinds) && EncodeVarBinds(p.varBinds) == Ok(vbs) && |vbs| < TWO32
    ensures DecodePdu(p.kind, Body(p, vbs)) == Ok(CanonPdu(p))
  {
    var h := Head(p.requestId, First(p), Second(p), Tlv(SEQUENCE, vbs));
    HeadReads(h.rid, h.x, h.y, h.rest);
    BindsRead(vbs);
    VarBindsRoundTrip(p.varBinds);
    DecodeParts(p.kind, Body(p, vbs), h, CanonBinds(p.varBinds));
  }

  lemma {:induction false} PduElement(p: Pdu, vbs: bytes)
    requires EncodeVarBinds(p.varBinds) == Ok(vbs) && |EncodePdu(p).value| < TWO32
    ensures ReadTlv(EncodePdu(p).value) == Ok(Element(p.kind, Body(p, vbs), |EncodePdu(p).value|)) && |vbs| < TWO32
  {
    TlvAlone(p.kind, Body(p, vbs));
  }

  /** Every PDU that encodes decodes to its canonical form: the fields its kind does not carry are 0. */
  lemma {:induction false} PduRoundTrip(p: Pdu)
    requires AllWellFormed(p.varBinds) && EncodePdu(p).Ok? && |EncodePdu(p).value| < TWO32
    ensures ReadTlv(EncodePdu(p).value).Ok? && ReadTlv(EncodePdu(p).value).value.tag == p.kind
    ensures DecodePdu(p.kind, ReadTlv(EncodePdu(p).value).value.content) == Ok(CanonPdu(p))
  {
    var vbs := EncodeVarBinds(p.varBinds).value;
    PduElement(p, vbs);
    PduBody(p, vbs);
  }

  predicate PlainOid(ids: Arcs) {
    |ids| >= 2 && ids[1] < 40 && Joined(ids[0], ids[1]) < 256
  }

  predicate PlainValue(v: Value) {
    && !Exception(v)
    && (v.Counter32? || v.Gauge32? || v.TimeTicks? ==> 0 <= v.n < TWO32)
    && (v.ObjectId? ==> PlainOid(v.ids))
  }

  ghost predicate PlainBinds(vbs: seq<VarBind>) {
    forall i :: 0 <= i < |vbs| ==> PlainOid(vbs[i].oid) && PlainValue(vbs[i].value)
  }

  lemma {:induction false} BindSurvivesIff(vb: VarBind)
    requires EncodeVarBind(vb).Ok?
    ensures CanonBind(vb) == vb <==> PlainOid(vb.oid) && PlainValue(vb.value)
  {
    OidSurvivesIff(vb.oid);
    if vb.value.ObjectId? { OidSurvivesIff(vb.value.ids); } else { ValueSurvivesIff(vb.value); }
  }

  lemma {:induction false} BindsSurviveIff(vbs: seq<VarBind>)
    requires EncodeVarBinds(vbs).Ok?
    ensures |CanonBinds(vbs)| == |vbs|
    ensures CanonBinds(vbs) == vbs <==> PlainBinds(vbs)
  {
    if vbs != [] {
      BindsSurviveIff(vbs[1..]);
      BindSurvivesIff(vbs[0]);
      assert vbs == [vbs[0]] + vbs[1..];
      assert CanonBinds(vbs)[0] == CanonBind(vbs[0]) && CanonBinds(vbs)[1..] == CanonBinds(vbs[1..]);
    }
  }

  /** A PDU comes back unchanged exactly when its bindings are plain and the fields its kind does not
      carry are zero. */
  lemma {:induction false} PduSurvivesIff(p: Pdu)
    requires EncodePdu(p).Ok?
    ensures CanonPdu(p) == p <==>
      && PlainBinds(p.varBinds)
      && (if p.kind == GET_BULK then p.errorCode == p.errorIndex == 0 else p.nonRepeaters == p.maxRepetitions == 0)
  {
    BindsSurviveIff(p.varBinds);
  }

  // ---- bindings and answers of an agent -------------------------------------------------------

  /** Bindings as an agent sends them, with literal tags. */
  function AgentBind(vb: VarBind): Result<bytes> {
    match EncodeOid(vb.oid)
    case Err => Err
    case Ok(oid) =>
      match AgentValue(vb.value)
      case Err => Err
      case Ok(e) => Ok(Tlv(0x30, Tlv(0x06, oid) + Tlv(e.tag, e.content)))
  }

  function AgentBinds(vbs: seq<VarBind>): Result<bytes> {
    if vbs == [] then Ok([])
    else
      match AgentBind(vbs[0])
      case Err => Err
      case Ok(b) =>
        match AgentBinds(vbs[1..])
        case Err => Err
        case Ok(rest) => Ok(b + rest)
  }

  function ReceivedBinds(vbs: seq<VarBind>): seq<VarBind>
    requires AgentBinds(vbs).Ok?
  {
    if vbs == [] then []
    else [VarBind(CanonOid(vbs[0].oid), Received(vbs[0].value))] + ReceivedBinds(vbs[1..])
  }

  lemma {:induction false} AgentBindDecodes(vb: VarBind, oid: bytes, e: Encoded)
    requires WellFormed(vb.value) && EncodeOid(vb.oid) == Ok(oid) && AgentValue(vb.value) == Ok(e)
    requires |Tlv(OID, oid) + Tlv(e.tag, e.content)| < TWO32
    ensures DecodeVarBind(Tlv(OID, oid) + Tlv(e.tag, e.content))
         == Ok(VarBind(CanonOid(vb.oid), Received(vb.value)))
  {
    PairReads(oid, e);
    OidRoundTrip(vb.oid);
    AgentValueDecodes(vb.value);
  }

  /** Every list of bindings that an agent sends comes back, exceptions among them: the end of the MIB
      stays the end of the MIB. */
  lemma {:induction false} AgentBindsDecode(vbs: seq<VarBind>)
    requires AllWellFormed(vbs) && AgentBinds(vbs).Ok? && |AgentBinds(vbs).value| < TWO32
    ensures DecodeVarBinds(AgentBinds(vbs).value) == Ok(ReceivedBinds(vbs))
    decreases |vbs|
  {
    if vbs != [] {
      var oid, e, rest := EncodeOid(vbs[0].oid).value, AgentValue(vbs[0].value).value, AgentBinds(vbs[1..]).value;
      var pair := Tlv(OID, oid) + Tlv(e.tag, e.content);
      assert AgentBinds(vbs).value == Tlv(SEQUENCE, pair) + rest;
      TlvRoundTrip(SEQUENCE, pair, rest);
      AgentBindDecodes(vbs[0], oid, e);
      AgentBindsDecode(vbs[1..]);
    }
  }

  /** A binding that an agent may send by the standard: its identifier and value fit their types. */
  predicate Sendable(vb: VarBind) {
    PlainOid(vb.oid) && WellFormed(vb.value) && (Exception(vb.value) || PlainValue(vb.value))
  }

  lemma {:induction false} SendableBind(vb: VarBind)
    requires Sendable(vb) && AgentBind(vb).Ok?
    ensures VarBind(CanonOid(vb.oid), Received(vb.value)) == vb
  {
    OidSurvivesIff(vb.oid);
    if vb.value.ObjectId? { OidSurvivesIff(vb.value.ids); } else { ValueSurvivesIff(vb.value); }
  }

  lemma {:induction false} SendableComesBack(vbs: seq<VarBind>)
    requires AgentBinds(vbs).Ok? && forall i :: 0 <= i < |vbs| ==> Sendable(vbs[i])
    ensures ReceivedBinds(vbs) == vbs
  {
    if vbs != [] {
      SendableComesBack(vbs[1..]);
      SendableBind(vbs[0]);
      assert vbs == [vbs[0]] + vbs[1..];
    }
  }

  /** The body of an answer: request id, error status, error index, bindings. */
  function AnswerBody(rid: int32, status: int64, index: int64, binds: bytes): bytes {
    Tlv(0x02, IntBytes(rid)) + (Tlv(0x02, IntBytes(status)) + (Tlv(0x02, IntBytes(index)) + Tlv(0x30, binds)))
  }

  lemma {:induction false} AnswerHead(rid: int32, status: int64, index: int64, binds: bytes)
    ensures ReadHead(AnswerBody(rid, status, index, binds)) == Ok(Head(rid, status, index, Tlv(SEQUENCE, binds)))
  {
    HeadReads(rid, status, index, Tlv(SEQUENCE, binds));
  }

  /** Every answer of an agent arrives as it was sent: request id, error fields and all bindings; 0xA5 is
      the one kind of PDU without error fields. */
  lemma {:induction false} AnswerArrives(kind: byte, rid: int32, status: int64, index: int64, vbs: seq<VarBind>)
    requires AgentBinds(vbs).Ok? && |AgentBinds(vbs).value| < TWO32 && kind != 0xA5
    requires forall i :: 0 <= i < |vbs| ==> Sendable(vbs[i])
    ensures DecodePdu(kind, AnswerBody(rid, status, index, AgentBinds(vbs).value))
         == Ok(Pdu(kind, rid, status, index, 0, 0, vbs))
  {
    var binds := AgentBinds(vbs).value;
    AnswerHead(rid, status, index, binds);
    BindsRead(binds);
    AgentBindsDecode(vbs);
    SendableComesBack(vbs);
    DecodeParts(kind, AnswerBody(rid, status, index, binds), Head(rid, status, index, Tlv(SEQUENCE, binds)), vbs);
  }

  // ---- the loops ------------------------------------------------------------------------------

  /** One more digit in front of those already written. */
  lemma {:induction false} DigitsStep(n: nat, b: bytes)
    requires n > 0
    ensures Digits(n / 256) + ([n % 256] + b) == Digits(n) + b
  {
  }

  /** encodeLength's loop writes digits from the right. */
  method WriteLength(length: nat) returns (out: bytes)
    requires length < TWO64
    ensures out == EncodeLength(length)
  {
    if length < 128 {
      return [length];
    }
    var n, b: bytes := length, [];
    while n > 0
      invariant Digits(n) + b == Digits(length)
    {
      DigitsStep(n, b);
      b := [n % 256] + b;
      n := n / 256;
    }
    assert b == Digits(length);
    out := [(128 + |b|) % 256] + b;
  }

  lemma {:induction false} NegativeStep(v: int, b: bytes)
    requires v < -1
    ensures Negative(v / 256) + ([v % 256] + b) == Negative(v) + b
  {
  }

  /** encodeInt's loops; shifting right divides rounding down. */
  method WriteInt(v: int64) returns (b: bytes)
    ensures b == IntBytes(v)
  {
    if v == 0 {
      return [0];
    }
    b := [];
    var n: int := v;
    if v > 0 {
      while n > 0
        invariant n >= 0 && Digits(n) + b == Digits(v)
      {
        DigitsStep(n, b);
        b := [n % 256] + b;
        n := n / 256;
      }
      assert b == Digits(v);
      if b[0] >= 128 {
        b := [0] + b;
      }
    } else {
      while n < -1
        invariant n < 0 && Negative(n) + b == Negative(v)
        decreases -n
      {
        NegativeStep(n, b);
        b := [n % 256] + b;
        n := n / 256;
      }
      b := [n % 256] + b;
      FoldNegative(v);
    }
  }

  lemma {:induction false} WrapShift(x: int, c: byte)
    ensures Wrap(256 * Wrap(x) + c) == Wrap(256 * x + c)
  {
  }

  /** decodeInt's loop, on 64 bits at every turn. */
  method ReadIntBytes(b: bytes) returns (r: Result<int64>)
    ensures r == DecodeInt(b)
  {
    if |b| == 0 || |b| > 9 {
      return Err;
    }
    var v: int64 := if b[0] >= 128 then -1 else 0;
    ghost var start := v;
    for i := 0 to |b|
      invariant v == Wrap(Fold(start, b[..i]))
    {
      assert b[..i + 1] == b[..i] + [b[i]];
      FoldSnoc(start, b[..i], b[i]);
      WrapShift(Fold(start, b[..i]), b[i]);
      v := Wrap(256 * v + b[i]);
    }
    assert b[..|b|] == b;
    r := Ok(v);
  }

  lemma {:induction false} ContinuedStep(n: nat, b: bytes)
    requires n > 0
    ensures Continued(n / 128) + ([n % 128 + 128] + b) == Continued(n) + b
  {
  }

  /** encodeSubID's loop. */
  method WriteSubId(id: nat) returns (b: bytes)
    ensures b == SubId(id)
  {
    assert Continued(0) + [id % 128] == [id % 128];
    if id < 128 {
      return [id];
    }
    b := [id % 128];
    var n: nat := id / 128;
    while n > 0
      invariant Continued(n) + b == SubId(id)
    {
      ContinuedStep(n, b);
      b := [n % 128 + 128] + b;
      n := n / 128;
    }
  }

  /** decodeOID's loop. */
  method ReadOid(b: bytes) returns (r: Result<Arcs>)
    ensures r == DecodeOid(b)
  {
    if b == [] {
      return Err;
    }
    var out: Arcs := [b[0] / 40, b[0] % 40];
    var cur: int64 := 0;
    for i := 1 to |b|
      invariant out + ReadArcs(b[i..], cur) == [b[0] / 40, b[0] % 40] + ReadArcs(b[1..], 0)
    {
      assert b[i..][1..] == b[i + 1..];
      cur := Wrap(128 * cur + b[i] % 128);
      if b[i] < 128 {
        assert out + ([cur] + ReadArcs(b[i + 1..], 0)) == out + [cur] + ReadArcs(b[i + 1..], 0);
        out := out + [cur];
        cur := 0;
      }
    }
    assert ReadArcs(b[|b|..], cur) == [] && out + [] == out;
    r := Ok(out);
  }
}
