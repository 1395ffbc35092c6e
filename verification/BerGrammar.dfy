/**
 * The BER subset SNMP uses, as a grammar on values: what each element's octets are, and what a decoder makes of a
 * string of octets. A parser takes the octets still ahead of it and returns a value with the octets left over.
 */
module BerGrammar {
  import opened Octets
  import opened Errors
  import opened Oids

  type Tag = byte

  const INTEGER: Tag := 0x02
  const OCTET_STRING: Tag := 0x04
  const NULL: Tag := 0x05
  const OBJECT_IDENTIFIER: Tag := 0x06
  const SEQUENCE: Tag := 0x30
  const IP_ADDRESS: Tag := 0x40
  const COUNTER32: Tag := 0x41
  const GAUGE32: Tag := 0x42
  const TIMETICKS: Tag := 0x43
  const OPAQUE: Tag := 0x44
  const COUNTER64: Tag := 0x46
  const NO_SUCH_OBJECT: Tag := 0x80
  const NO_SUCH_INSTANCE: Tag := 0x81
  const END_OF_MIB_VIEW: Tag := 0x82

  predicate IsConstructed(t: Tag) {
    t / 0x20 % 2 == 1
  }

  type Ipv4 = s: octets | |s| == 4 witness [0, 0, 0, 0]

  datatype Value =
    | Null
    | Integer(i32: int32)
    | OctetString(bytes: octets)
    | ObjectId(oid: Oid)
    | IpAddress(addr: Ipv4)
    | Counter32(u32: uint32)
    | Gauge32(u32: uint32)
    | TimeTicks(u32: uint32)
    | Opaque(bytes: octets)
    | Counter64(u64: uint64)
    | NoSuchObject
    | NoSuchInstance
    | EndOfMibView

  datatype Varbind = Varbind(name: Oid, val: Value)

  predicate IsException(v: Value) {
    v.NoSuchObject? || v.NoSuchInstance? || v.EndOfMibView?
  }

  //
  // Encoding
  //

  /** The significant octets of a number. */
  function Significant(n: nat): (bs: octets)
    ensures |bs| >= 1
  {
    Digits(n, 0x100)
  }

  /** X.690 section 8.1.3: the short form below 128, otherwise a count and the significant octets. */
  function LengthOctets(n: nat): octets {
    if n < 0x80 then [n] else [(0x80 + |Significant(n)|) % 0x100] + Significant(n)
  }

  function Tlv(t: Tag, content: octets): octets {
    [t] + LengthOctets(|content|) + content
  }

  /** X.690 section 8.3: the fewest two's complement octets that hold `v`. */
  function IntegerContent(v: int32): octets {
    if -0x80 <= v < 0x80 then [v % 0x100]
    else if -0x8000 <= v < 0x8000 then [v / 0x100 % 0x100, v % 0x100]
    else if -0x80_0000 <= v < 0x80_0000 then [v / 0x1_0000 % 0x100, v / 0x100 % 0x100, v % 0x100]
    else [v / 0x100_0000 % 0x100, v / 0x1_0000 % 0x100, v / 0x100 % 0x100, v % 0x100]
  }

  /** A non-negative INTEGER of any width: a zero octet in front when the top bit would read as a sign. */
  function UnsignedContent(v: uint64): octets {
    var bs := Significant(v);
    if bs[0] >= 0x80 then [0] + bs else bs
  }

  /** X.690 section 8.19.2: base 128, the top bit marking every octet but the last. */
  function Subid(v: nat): octets {
    Continued(Digits(v, 0x80))
  }

  function Continued(ds: seq<nat>): (bs: octets)
    requires |ds| >= 1
    requires forall i :: 0 <= i < |ds| ==> ds[i] < 0x80
    ensures |bs| == |ds|
  {
    if |ds| == 1 then [ds[0]] else [ds[0] + 0x80] + Continued(ds[1..])
  }

  function Subids(o: Oid): octets {
    if o == [] then [] else Subid(o[0]) + Subids(o[1..])
  }

  /** X.690 section 8.19.4: the first two arcs share one sub-identifier. */
  function OidContent(o: Oid): octets
    requires IsEncodable(o)
  {
    Subid(40 * o[0] as int + o[1] as int) + Subids(o[2..])
  }

  predicate ValueEncodable(v: Value) {
    v.ObjectId? ==> IsEncodable(v.oid)
  }

  predicate VarbindEncodable(vb: Varbind) {
    IsEncodable(vb.name) && ValueEncodable(vb.val)
  }

  predicate AllEncodable(vbs: seq<Varbind>) {
    forall i :: 0 <= i < |vbs| ==> VarbindEncodable(vbs[i])
  }

  function EncodeInteger(v: int32): octets {
    Tlv(INTEGER, IntegerContent(v))
  }

  function EncodeOctets(bs: octets): octets {
    Tlv(OCTET_STRING, bs)
  }

  function EncodeValue(v: Value): octets
    requires ValueEncodable(v)
  {
    match v
    case Null => Tlv(NULL, [])
    case Integer(x) => EncodeInteger(x)
    case OctetString(bs) => EncodeOctets(bs)
    case ObjectId(o) => Tlv(OBJECT_IDENTIFIER, OidContent(o))
    case IpAddress(a) => Tlv(IP_ADDRESS, a)
    case Counter32(n) => Tlv(COUNTER32, UnsignedContent(n))
    case Gauge32(n) => Tlv(GAUGE32, UnsignedContent(n))
    case TimeTicks(n) => Tlv(TIMETICKS, UnsignedContent(n))
    case Opaque(bs) => Tlv(OPAQUE, bs)
    case Counter64(n) => Tlv(COUNTER64, UnsignedContent(n))
    case NoSuchObject => Tlv(NO_SUCH_OBJECT, [])
    case NoSuchInstance => Tlv(NO_SUCH_INSTANCE, [])
    case EndOfMibView => Tlv(END_OF_MIB_VIEW, [])
  }

  function EncodeVarbind(vb: Varbind): octets
    requires VarbindEncodable(vb)
  {
    Tlv(SEQUENCE, Tlv(OBJECT_IDENTIFIER, OidContent(vb.name)) + EncodeValue(vb.val))
  }

  function EncodeVarbinds(vbs: seq<Varbind>): octets
    requires AllEncodable(vbs)
  {
    if vbs == [] then [] else EncodeVarbind(vbs[0]) + EncodeVarbinds(vbs[1..])
  }

  function EncodeVarbindList(vbs: seq<Varbind>): octets
    requires AllEncodable(vbs)
  {
    Tlv(SEQUENCE, EncodeVarbinds(vbs))
  }

  //
  // Decoding
  //

  datatype Header = Header(tag: Tag, length: nat)

  /** The identifier and length octets, refused unless the whole element is there. */
  function ParseHeader(w: octets): (r: Result<(Header, octets)>)
    ensures r.Ok? ==> r.value.0.length <= |r.value.1| <= |w| - 2
  {
    if |w| < 2 then Err(Truncated)
    else if w[0] % 0x20 == 0x1F then Err(HighTagNumber)
    else if w[1] < 0x80 then Sized(w[0], w[1], w[2..])
    else if w[1] == 0x80 then Err(IndefiniteLength)
    else if w[1] == 0xFF then Err(ReservedLength)
    else
      var count := w[1] - 0x80;
      if count > 4 then Err(LengthTooLarge)
      else if |w| - 2 < count then Err(Truncated)
      else Sized(w[0], NumberOf(w[2..2 + count], 0x100), w[2 + count..])
  }

  function Sized(t: Tag, length: nat, rest: octets): Result<(Header, octets)> {
    if length > |rest| then Err(Truncated) else Ok((Header(t, length), rest))
  }

  /** The content of a primitive element carrying the expected tag. */
  function ParsePrimitive(t: Tag, w: octets): (r: Result<(octets, octets)>)
    ensures r.Ok? ==> |r.value.0| + |r.value.1| + 2 <= |w|
  {
    if w == [] then Err(Truncated)
    else if w[0] != t || IsConstructed(t) then Err(UnexpectedTag)
    else
      var (h, rest) :- ParseHeader(w);
      Ok((rest[..h.length], rest[h.length..]))
  }

  /** The content of a constructed element, which its fields are then read from. */
  function ParseConstructed(t: Tag, w: octets): (r: Result<(octets, octets)>)
    ensures r.Ok? ==> |r.value.0| + |r.value.1| + 2 <= |w|
  {
    if !IsConstructed(t) || w == [] || w[0] != t then Err(UnexpectedTag)
    else
      var (h, rest) :- ParseHeader(w);
      Ok((rest[..h.length], rest[h.length..]))
  }

  /** The number two's complement octets stand for. */
  function TwosComplement(bs: octets): int
    requires bs != []
  {
    NumberOf(bs, 0x100) - if bs[0] >= 0x80 then Pow(0x100, |bs|) else 0
  }

  /** Any width is accepted, sign padding included, so long as the number fits an Integer32. */
  function DecodeInteger(content: octets): Result<int32> {
    if content == [] then Err(EmptyContent)
    else
      var v := TwosComplement(content);
      if -0x8000_0000 <= v < 0x8000_0000 then Ok(v) else Err(IntegerTooLarge)
  }

  /** Read as unsigned whether or not the zero octet is there; refused beyond `maxSignificant` octets. */
  function DecodeUnsigned(content: octets, maxSignificant: nat): (r: Result<nat>)
    ensures r.Ok? ==> r.value < Pow(0x100, maxSignificant)
  {
    if content == [] then Err(EmptyContent)
    else
      var v := NumberOf(content, 0x100);
      if v < Pow(0x100, maxSignificant) then Ok(v) else Err(IntegerTooLarge)
  }

  /** The rest of a sub-identifier whose leading groups have been read into `acc`. */
  function ScanSubid(acc: nat, bs: octets): (r: Result<(uint32, octets)>)
    ensures r.Ok? ==> |r.value.1| < |bs|
    decreases |bs|
  {
    if bs == [] then Err(OidTruncatedSubid)
    else
      var v := acc * 0x80 + bs[0] % 0x80;
      if v > MAX_UINT32 then Err(OidSubidOverflow)
      else if bs[0] < 0x80 then Ok((v, bs[1..]))
      else ScanSubid(v, bs[1..])
  }

  /** A sub-identifier may not start with a group of zeros. */
  function ParseSubid(bs: octets): (r: Result<(uint32, octets)>)
    requires bs != []
    ensures r.Ok? ==> |r.value.1| < |bs|
  {
    if bs[0] == 0x80 then Err(OidNonMinimal) else ScanSubid(0, bs)
  }

  /** The two arcs packed in the first sub-identifier. */
  function SplitFirst(v: uint32): Oid {
    if v < 40 then [0, v] else if v < 80 then [1, v - 40] else [2, v - 80]
  }

  function DecodeSubids(o: Oid, bs: octets): Result<Oid>
    decreases |bs|
  {
    if bs == [] then Ok(o)
    else
      var (v, rest) :- ParseSubid(bs);
      if |o| + 1 > MAX_SUBIDS then Err(OidTooLong) else DecodeSubids(o + [v], rest)
  }

  function DecodeOid(content: octets): Result<Oid> {
    if content == [] then Err(OidEmpty)
    else
      var (v, rest) :- ParseSubid(content);
      DecodeSubids(SplitFirst(v), rest)
  }

  function ParseInteger(w: octets): Result<(int32, octets)> {
    var (c, rest) :- ParsePrimitive(INTEGER, w);
    var v :- DecodeInteger(c);
    Ok((v, rest))
  }

  function ParseUnsigned32(t: Tag, w: octets): Result<(uint32, octets)> {
    var (c, rest) :- ParsePrimitive(t, w);
    var v :- DecodeUnsigned(c, 4);
    PowerTable();
    Ok((v, rest))
  }

  function ParseUnsigned64(t: Tag, w: octets): Result<(uint64, octets)> {
    var (c, rest) :- ParsePrimitive(t, w);
    var v :- DecodeUnsigned(c, 8);
    PowerTable();
    Ok((v, rest))
  }

  lemma PowerTable()
    ensures Pow(0x100, 1) == 0x100
    ensures Pow(0x100, 2) == 0x1_0000
    ensures Pow(0x100, 3) == 0x100_0000
    ensures Pow(0x100, 4) == 0x1_0000_0000
    ensures Pow(0x100, 8) == 0x1_0000_0000_0000_0000
  {
    assert Pow(0x100, 0) == 1;
    assert Pow(0x100, 1) == 0x100;
    assert Pow(0x100, 2) == 0x1_0000;
    assert Pow(0x100, 3) == 0x100_0000;
    assert Pow(0x100, 4) == 0x1_0000_0000;
    assert Pow(0x100, 5) == 0x100_0000_0000;
    assert Pow(0x100, 6) == 0x1_0000_0000_0000;
    assert Pow(0x100, 7) == 0x100_0000_0000_0000;
  }

  function ParseOctets(w: octets): Result<(octets, octets)> {
    ParsePrimitive(OCTET_STRING, w)
  }

  function ParseOid(w: octets): (r: Result<(Oid, octets)>)
    ensures r.Ok? ==> |r.value.1| < |w|
  {
    var (c, rest) :- ParsePrimitive(OBJECT_IDENTIFIER, w);
    var o :- DecodeOid(c);
    Ok((o, rest))
  }

  /** An element whose content must be empty. */
  function ParseEmpty(t: Tag, v: Value, e: Errc, w: octets): Result<(Value, octets)> {
    var (c, rest) :- ParsePrimitive(t, w);
    if c != [] then Err(e) else Ok((v, rest))
  }

  /** Any Value a Varbind may carry, chosen by its tag. */
  function ParseValue(w: octets): Result<(Value, octets)> {
    if w == [] then Err(Truncated)
    else if w[0] == NULL then ParseEmpty(NULL, Null, BadNull, w)
    else if w[0] == INTEGER then
      var (v, rest) :- ParseInteger(w);
      Ok((Integer(v), rest))
    else if w[0] == OCTET_STRING then
      var (v, rest) :- ParseOctets(w);
      Ok((OctetString(v), rest))
    else if w[0] == OBJECT_IDENTIFIER then
      var (v, rest) :- ParseOid(w);
      Ok((ObjectId(v), rest))
    else if w[0] == IP_ADDRESS then
      var (v, rest) :- ParsePrimitive(IP_ADDRESS, w);
      if |v| != 4 then Err(BadIpAddress) else Ok((IpAddress(v), rest))
    else if w[0] == COUNTER32 then
      var (v, rest) :- ParseUnsigned32(COUNTER32, w);
      Ok((Counter32(v), rest))
    else if w[0] == GAUGE32 then
      var (v, rest) :- ParseUnsigned32(GAUGE32, w);
      Ok((Gauge32(v), rest))
    else if w[0] == TIMETICKS then
      var (v, rest) :- ParseUnsigned32(TIMETICKS, w);
      Ok((TimeTicks(v), rest))
    else if w[0] == COUNTER64 then
      var (v, rest) :- ParseUnsigned64(COUNTER64, w);
      Ok((Counter64(v), rest))
    else if w[0] == OPAQUE then
      var (v, rest) :- ParsePrimitive(OPAQUE, w);
      Ok((Opaque(v), rest))
    else if w[0] == NO_SUCH_OBJECT then ParseEmpty(NO_SUCH_OBJECT, NoSuchObject, TrailingData, w)
    else if w[0] == NO_SUCH_INSTANCE then ParseEmpty(NO_SUCH_INSTANCE, NoSuchInstance, TrailingData, w)
    else if w[0] == END_OF_MIB_VIEW then ParseEmpty(END_OF_MIB_VIEW, EndOfMibView, TrailingData, w)
    else Err(UnknownValueTag)
  }

  /** Nothing may be left over inside an element whose fields have all been read. */
  function Closed<T>(v: T, inner: octets, rest: octets): Result<(T, octets)> {
    if inner != [] then Err(TrailingData) else Ok((v, rest))
  }

  function ParseVarbind(w: octets): (r: Result<(Varbind, octets)>)
    ensures r.Ok? ==> |r.value.1| < |w|
  {
    var (content, rest) :- ParseConstructed(SEQUENCE, w);
    var (name, afterName) :- ParseOid(content);
    var (val, afterVal) :- ParseValue(afterName);
    Closed(Varbind(name, val), afterVal, rest)
  }

  function ParseVarbinds(w: octets): Result<seq<Varbind>>
    decreases |w|
  {
    if w == [] then Ok([])
    else
      var (vb, rest) :- ParseVarbind(w);
      var vbs :- ParseVarbinds(rest);
      Ok([vb] + vbs)
  }

  function ParseVarbindList(w: octets): Result<(seq<Varbind>, octets)> {
    var (content, rest) :- ParseConstructed(SEQUENCE, w);
    var vbs :- ParseVarbinds(content);
    Ok((vbs, rest))
  }
}
