/** PDUs and SNMPv2c messages: their octets, their decoders, and the round trips between the two. */
module Pdus {
  import opened Octets
  import opened Errors
  import opened BerGrammar
  import opened BerRoundTrip
  import opened BerStability
  import opened BerWriter
  import opened BerReader

  datatype PduType = Get | GetNext | GetBulk | Set | Response | Report

  datatype Pdu = Pdu(
    kind: PduType,
    requestId: int32,
    errorStatus: int32,
    errorIndex: int32,
    varbinds: seq<Varbind>)

  datatype V2cMessage = V2cMessage(community: octets, pdu: Pdu)

  const VERSION_V2C: int32 := 1

  function PduTag(k: PduType): Tag {
    match k
    case Get => 0xA0
    case GetNext => 0xA1
    case Response => 0xA2
    case Set => 0xA3
    case GetBulk => 0xA5
    case Report => 0xA8
  }

  function PduTypeOf(t: Tag): Option<PduType> {
    if t == 0xA0 then Some(Get)
    else if t == 0xA1 then Some(GetNext)
    else if t == 0xA2 then Some(Response)
    else if t == 0xA3 then Some(Set)
    else if t == 0xA5 then Some(GetBulk)
    else if t == 0xA8 then Some(Report)
    else None
  }

  predicate PduEncodable(p: Pdu) {
    AllEncodable(p.varbinds)
  }

  function PduFields(p: Pdu): octets
    requires PduEncodable(p)
  {
    EncodeInteger(p.requestId) + EncodeInteger(p.errorStatus) + EncodeInteger(p.errorIndex)
    + EncodeVarbindList(p.varbinds)
  }

  function EncodePdu(p: Pdu): octets
    requires PduEncodable(p)
  {
    Tlv(PduTag(p.kind), PduFields(p))
  }

  function ParsePduFields(k: PduType, w: octets): Result<(Pdu, octets)> {
    var (requestId, w1) :- ParseInteger(w);
    var (errorStatus, w2) :- ParseInteger(w1);
    var (errorIndex, w3) :- ParseInteger(w2);
    var (varbinds, w4) :- ParseVarbindList(w3);
    Ok((Pdu(k, requestId, errorStatus, errorIndex, varbinds), w4))
  }

  function ParsePdu(w: octets): Result<(Pdu, octets)> {
    if w == [] then Err(Truncated)
    else
      match PduTypeOf(w[0])
      case None => Err(UnexpectedPduType)
      case Some(k) =>
        var (content, rest) :- ParseConstructed(w[0], w);
        var (p, inner) :- ParsePduFields(k, content);
        Closed(p, inner, rest)
  }

  function V2cFields(m: V2cMessage): octets
    requires PduEncodable(m.pdu)
  {
    EncodeInteger(VERSION_V2C) + EncodeOctets(m.community) + EncodePdu(m.pdu)
  }

  function EncodeV2c(m: V2cMessage): octets
    requires PduEncodable(m.pdu)
  {
    Tlv(SEQUENCE, V2cFields(m))
  }

  function ParseV2cFields(w: octets): Result<(V2cMessage, octets)> {
    var (version, w1) :- ParseInteger(w);
    var (community, w2) :- ParseOctets(w1);
    if version != VERSION_V2C then Err(BadVersion)
    else
      var (pdu, w3) :- ParsePdu(w2);
      Ok((V2cMessage(community, pdu), w3))
  }

  function DecodeV2c(datagram: octets): Result<V2cMessage> {
    var (content, rest) :- ParseConstructed(SEQUENCE, datagram);
    var (m, inner) :- ParseV2cFields(content);
    if inner != [] || rest != [] then Err(TrailingData) else Ok(m)
  }

  //
  // The code that reads and writes them
  //

  method WritePdu(w: Writer, p: Pdu)
    modifies w
    ensures w.Extended()
    ensures old(w.ec).None? && PduEncodable(p) ==> w.ec == None && w.buf == old(w.buf) + EncodePdu(p)
    ensures old(w.ec).None? && !PduEncodable(p) ==> w.ec == Some(OidNotEncodable)
  {
    hide Tlv, EncodeInteger, EncodeVarbindList, AllEncodable;
    var t := PduTag(p.kind);
    var s := w.BeginConstructed(t);
    ghost var open := w.buf;
    w.Integer(p.requestId);
    w.Integer(p.errorStatus);
    w.Integer(p.errorIndex);
    w.VarbindList(p.varbinds);
    if old(w.ec).None? && PduEncodable(p) {
      FourParts(open, EncodeInteger(p.requestId), EncodeInteger(p.errorStatus), EncodeInteger(p.errorIndex),
                EncodeVarbindList(p.varbinds));
    }
    Placed(old(w.buf), t, w.buf);
    w.CloseScope(s);
  }

  lemma FourParts(open: octets, a: octets, b: octets, c: octets, d: octets)
    ensures var all := open + a + b + c + d;
            all == open + (a + b + c + d) && all[|open|..] == a + b + c + d
  {
  }

  method ReadPdu(r: Reader) returns (p: Option<Pdu>)
    requires r.Valid()
    modifies r
    ensures r.Follows(p, ParsePdu(old(r.Window())))
  {
    hide ParseConstructed, ParseInteger, ParseVarbindList;
    if r.ec.Some? { return None; }
    var t := r.PeekTag();
    if t.None? {
      r.Fail(Truncated);
      return None;
    }
    var k := PduTypeOf(t.value);
    if k.None? {
      r.Fail(UnexpectedPduType);
      return None;
    }
    var s := r.Enter(t.value);
    var requestId := r.Integer();
    var errorStatus := r.Integer();
    var errorIndex := r.Integer();
    var varbinds := r.VarbindList();
    if requestId.None? || errorStatus.None? || errorIndex.None? || varbinds.None? {
      r.CloseScope(s);
      return None;
    }
    assert r.Window() == [] <==> r.pos == s.contentEnd;
    r.CloseScope(s);
    if r.ec.Some? { return None; }
    return Some(Pdu(k.value, requestId.value, errorStatus.value, errorIndex.value, varbinds.value));
  }

  method EncodeV2cMessage(m: V2cMessage) returns (r: Result<octets>)
    ensures PduEncodable(m.pdu) ==> r == Ok(EncodeV2c(m))
    ensures !PduEncodable(m.pdu) ==> r == Err(OidNotEncodable)
  {
    hide Tlv, EncodeInteger, EncodePdu, PduEncodable;
    var w := new Writer();
    var s := w.BeginConstructed(SEQUENCE);
    w.Integer(VERSION_V2C);
    w.Elementary(OCTET_STRING, m.community);
    WritePdu(w, m.pdu);
    ghost var content := w.buf[2..];
    if PduEncodable(m.pdu) {
      FourParts([SEQUENCE, 0], EncodeInteger(VERSION_V2C), EncodeOctets(m.community), EncodePdu(m.pdu), []);
      assert content == V2cFields(m);
    }
    assert [] + [SEQUENCE, 0] == [SEQUENCE, 0];
    Placed([], SEQUENCE, w.buf);
    w.CloseScope(s);
    assert w.buf == Tlv(SEQUENCE, content);
    if w.ec.Some? { return Err(w.ec.value); }
    return Ok(w.buf);
  }

  method DecodeV2cMessage(datagram: octets) returns (m: Result<V2cMessage>)
    ensures m == DecodeV2c(datagram)
  {
    hide ParseConstructed, ParseInteger, ParseOctets, ParsePdu;
    var r := new Reader(datagram);
    var s := r.Enter(SEQUENCE);
    var version := r.Integer();
    var community := r.OctetString();
    if version.None? || community.None? { return Err(r.ec.value); }
    if version.value != VERSION_V2C { return Err(BadVersion); }
    var pdu := ReadPdu(r);
    if pdu.None? { return Err(r.ec.value); }
    assert r.Window() == [] <==> r.pos == s.contentEnd;
    r.CloseScope(s);
    var done := r.Finish();
    if !done { return Err(r.ec.value); }
    return Ok(V2cMessage(community.value, pdu.value));
  }

  //
  // Round trips
  //

  lemma FieldsRoundTrip(p: Pdu)
    requires PduEncodable(p) && |PduFields(p)| < LENGTH_LIMIT
    ensures ParsePduFields(p.kind, PduFields(p)) == Ok((p, []))
  {
    hide ParseInteger, EncodeInteger, ParseVarbindList, EncodeVarbindList, AllEncodable;
    var a, b, c := EncodeInteger(p.requestId), EncodeInteger(p.errorStatus), EncodeInteger(p.errorIndex);
    var d := EncodeVarbindList(p.varbinds);
    assert PduFields(p) == a + (b + (c + d));
    IntegerElement(p.requestId, b + (c + d));
    IntegerElement(p.errorStatus, c + d);
    IntegerElement(p.errorIndex, d);
    ListContent(p.varbinds);
    VarbindListRoundTrip(p.varbinds, []);
    assert d + [] == d;
  }

  lemma PduRoundTrip(p: Pdu, rest: octets)
    requires PduEncodable(p) && |EncodePdu(p)| < LENGTH_LIMIT
    ensures ParsePdu(EncodePdu(p) + rest) == Ok((p, rest))
  {
    hide ParseConstructed, Tlv, ParsePduFields, PduFields, PduEncodable;
    TlvSize(PduTag(p.kind), PduFields(p));
    ConstructedRoundTrip(PduTag(p.kind), PduFields(p), rest);
    FieldsRoundTrip(p);
  }

  /** Decoding a v2c message undoes encoding it, using up every octet. */
  lemma V2cRoundTrip(m: V2cMessage)
    requires PduEncodable(m.pdu) && |V2cFields(m)| < LENGTH_LIMIT
    ensures DecodeV2c(EncodeV2c(m)) == Ok(m)
  {
    hide ParseConstructed, Tlv, ParseInteger, EncodeInteger, ParsePdu, EncodePdu, PduEncodable, ParseOctets,
         EncodeOctets;
    var a, b, c := EncodeInteger(VERSION_V2C), EncodeOctets(m.community), EncodePdu(m.pdu);
    var fields := V2cFields(m);
    ConstructedRoundTrip(SEQUENCE, fields, []);
    assert Tlv(SEQUENCE, fields) + [] == Tlv(SEQUENCE, fields);
    assert fields == a + (b + c);
    IntegerElement(VERSION_V2C, b + c);
    OctetStringSize(m.community);
    OctetsElement(m.community, c);
    PduRoundTrip(m.pdu, []);
    assert c + [] == c;
  }

  lemma OctetStringSize(bs: octets)
    ensures |EncodeOctets(bs)| >= |bs| + 2
  {
    TlvSize(OCTET_STRING, bs);
  }

  //
  // Stability: whatever is accepted can be sent back
  //

  lemma ParsedPduFields(k: PduType, w: octets)
    requires ParsePduFields(k, w).Ok?
    ensures var (p, rest) := ParsePduFields(k, w).value;
            PduEncodable(p) && |PduFields(p)| <= 2 * (|w| - |rest|)
  {
    hide ParseInteger, EncodeInteger, ParseVarbindList, EncodeVarbindList, AllEncodable;
    var (_, w1) := ParseInteger(w).value;
    var (_, w2) := ParseInteger(w1).value;
    var (_, w3) := ParseInteger(w2).value;
    ParsedInteger(w);
    ParsedInteger(w1);
    ParsedInteger(w2);
    ParsedVarbindList(w3);
  }

  lemma ParsedPdu(w: octets)
    requires ParsePdu(w).Ok?
    ensures var (p, rest) := ParsePdu(w).value;
            PduEncodable(p) && |EncodePdu(p)| <= 2 * (|w| - |rest|)
  {
    hide ParseConstructed, ParsePduFields, PduFields, PduEncodable, Tlv, LengthOctets;
    var (content, _) := ParseConstructed(w[0], w).value;
    var (p, _) := ParsePduFields(PduTypeOf(w[0]).value, content).value;
    ConstructedConsumed(w[0], w);
    ParsedPduFields(PduTypeOf(w[0]).value, content);
    ElementGrowth(PduTag(p.kind), PduFields(p), |content|);
  }

  /**
   * An accepted v2c datagram, whatever padding it used, re-encodes, and the re-encoding decodes to the same message
   * exactly when its content is short enough for the decoder's length field. For anything that fits a datagram it is.
   */
  lemma AcceptedV2cIsStable(datagram: octets)
    requires DecodeV2c(datagram).Ok?
    ensures var m := DecodeV2c(datagram).value;
            && PduEncodable(m.pdu)
            && (DecodeV2c(EncodeV2c(m)) == Ok(m) <==> |V2cFields(m)| < LENGTH_LIMIT)
            && (|datagram| < INPUT_LIMIT ==> |V2cFields(m)| < LENGTH_LIMIT)
  {
    hide ParseConstructed, ParseInteger, ParsePdu, ParsePrimitive, EncodeInteger, EncodePdu, PduEncodable, Tlv,
         LengthOctets;
    var (content, _) := ParseConstructed(SEQUENCE, datagram).value;
    var (_, w1) := ParseInteger(content).value;
    var (_, w2) := ParseOctets(w1).value;
    var m := DecodeV2c(datagram).value;
    ConstructedConsumed(SEQUENCE, datagram);
    ParsedInteger(content);
    ParsedOctets(OCTET_STRING, w1);
    ParsedPdu(w2);
    if |V2cFields(m)| < LENGTH_LIMIT {
      V2cRoundTrip(m);
    } else {
      TooLongToReadBack(SEQUENCE, V2cFields(m));
    }
  }

  lemma V2cSize(m: V2cMessage)
    requires PduEncodable(m.pdu)
    ensures |EncodeV2c(m)| >= |V2cFields(m)| + 2
  {
    TlvSize(SEQUENCE, V2cFields(m));
  }
}
