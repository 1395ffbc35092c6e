/**
 * The octets of PDUs and messages, as relations: section 3 of RFC 3416, section 3 of RFC 1901, section 6 of RFC 3412
 * and section 2.4 of RFC 3414, with every tag, version and flag written out. The decoders accept exactly these.
 */
module MessageWire {
  import opened Octets
  import opened Errors
  import opened BerGrammar
  import opened BerRoundTrip
  import opened BerWire
  import opened Pdus
  import opened Usm
  import opened V3Messages
  import opened V3Decoding

  function PduIdentifier(k: PduType): byte {
    match k
    case Get => 0xA0
    case GetNext => 0xA1
    case Response => 0xA2
    case Set => 0xA3
    case GetBulk => 0xA5
    case Report => 0xA8
  }

  /**
   * A PDU's fields in their order: request-id, error-status or non-repeaters, error-index or max-repetitions,
   * Varbinds.
   */
  ghost predicate PduParts(content: octets, p: Pdu, a: octets, b: octets, c: octets, d: octets) {
    && content == a + b + c + d
    && SignedOctets(a, 0x02, p.requestId) && SignedOctets(b, 0x02, p.errorStatus)
    && SignedOctets(c, 0x02, p.errorIndex) && VarbindListOctets(d, p.varbinds)
  }

  ghost predicate PduOctets(w: octets, p: Pdu) {
    exists a: octets, b: octets, c: octets, d: octets, content: octets ::
      PduParts(content, p, a, b, c, d) && Element(w, PduIdentifier(p.kind), content)
  }

  /** Version 1 is SNMPv2c. */
  ghost predicate V2cParts(content: octets, m: V2cMessage, a: octets, b: octets, c: octets) {
    content == a + b + c && SignedOctets(a, 0x02, 1) && Element(b, 0x04, m.community) && PduOctets(c, m.pdu)
  }

  ghost predicate V2cOctets(d: octets, m: V2cMessage) {
    exists a: octets, b: octets, c: octets, content: octets ::
      V2cParts(content, m, a, b, c) && Element(d, 0x30, content)
  }

  ghost predicate ScopedParts(content: octets, s: ScopedPdu, a: octets, b: octets, c: octets) {
    content == a + b + c && Element(a, 0x04, s.contextEngineId) && Element(b, 0x04, s.contextName)
        && PduOctets(c, s.pdu)
  }

  ghost predicate ScopedOctets(w: octets, s: ScopedPdu) {
    exists a: octets, b: octets, c: octets, content: octets ::
      ScopedParts(content, s, a, b, c) && Element(w, 0x30, content)
  }

  /** Bit 0 is authentication, bit 1 privacy, which needs authentication, and bit 2 asks for a Report. */
  predicate FlagsMean(flags: byte, level: SecurityLevel, reportable: bool) {
    && flags % 2 == (if level == NoAuthNoPriv then 0 else 1)
    && flags / 2 % 2 == (if level == AuthPriv then 1 else 0)
    && flags / 4 % 2 == (if reportable then 1 else 0)
  }

  /** The header's fields; security model 3 is USM. */
  ghost predicate HeaderParts(content: octets, h: V3Header, a: octets, b: octets, c: octets, d: octets, flags: byte) {
    && content == a + b + c + d
    && SignedOctets(a, 0x02, h.msgId) && SignedOctets(b, 0x02, h.maxSize) && Element(c, 0x04, [flags])
    && FlagsMean(flags, h.level, h.reportable) && SignedOctets(d, 0x02, h.securityModel)
  }

  ghost predicate HeaderOctets(w: octets, h: V3Header) {
    exists a: octets, b: octets, c: octets, d: octets, flags: byte, content: octets ::
      HeaderParts(content, h, a, b, c, d, flags) && Element(w, 0x30, content) && h.securityModel == 3
  }

  /** The security parameters in their order. The last part is the privacy parameters' element. */
  ghost predicate UsmParts(content: octets, u: UsmParameters, a: octets, b: octets, c: octets, d: octets, e: octets,
                           f: octets)
  {
    && content == a + b + c + d + e + f
    && Element(a, 0x04, u.engineId) && SignedOctets(b, 0x02, u.boots) && SignedOctets(c, 0x02, u.time)
    && Element(d, 0x04, u.userName) && Element(e, 0x04, u.authParams) && Element(f, 0x04, u.privParams)
  }

  /** With `tail` octets after the digest. */
  ghost predicate UsmOctets(w: octets, u: UsmParameters, tail: nat) {
    exists a: octets, b: octets, c: octets, d: octets, e: octets, f: octets, content: octets ::
      UsmParts(content, u, a, b, c, d, e, f) && Element(w, 0x30, content) && |f| == tail
  }

  /** The ScopedPDU in the clear, or an OCTET STRING of ciphertext. */
  ghost predicate PayloadOctets(w: octets, level: SecurityLevel, scoped: ScopedPdu, encrypted: octets) {
    if level == AuthPriv then Element(w, 0x04, encrypted) && scoped == NO_SCOPED_PDU
    else ScopedOctets(w, scoped) && encrypted == []
  }

  /** Version 3, the header, the security parameters inside an OCTET STRING, the payload. */
  ghost predicate V3Parts(content: octets, m: V3Message, a: octets, b: octets, c: octets, d: octets, params: octets,
                          tail: nat)
  {
    && content == a + b + c + d
    && SignedOctets(a, 0x02, 3) && HeaderOctets(b, m.header)
    && Element(c, 0x04, params) && UsmOctets(params, m.security, tail)
    && PayloadOctets(d, m.header.level, m.scoped, m.encryptedPdu)
  }

  /** The digest stands where what follows it in the security parameters, and the payload, leave room. */
  ghost predicate V3Octets(datagram: octets, m: V3Message) {
    exists a: octets, b: octets, c: octets, d: octets, params: octets, tail: nat, content: octets ::
      && V3Parts(content, m, a, b, c, d, params, tail) && Element(datagram, 0x30, content)
      && m.authParamsOffset + |m.security.authParams| + tail + |d| == |datagram|
  }

  //
  // PDUs
  //

  lemma OctetsRead(w: octets, bs: octets, rest: octets)
    ensures ParseOctets(w) == Ok((bs, rest)) <==> w == Taken(w, rest) + rest && Element(Taken(w, rest), 0x04, bs)
  {
    hide ParsePrimitive, Element, Taken;
    PrimitiveReads(0x04, w, bs, rest);
  }

  lemma Four(a: octets, b: octets, c: octets, d: octets)
    ensures a + b + c + d == a + (b + c + d)
    ensures b + c + d == b + (c + d)
    ensures Taken(a + b + c + d, b + c + d) == a
    ensures Taken(b + c + d, c + d) == b
    ensures Taken(c + d, d) == c
    ensures Taken(d, []) == d && d + [] == d
  {
    hide Taken;
    Threes(a, b, c, d);
    TakenIs(a, b + c + d);
    TakenIs(b, c + d);
    TakenIs(c, d);
    TakenIs(d, []);
  }

  lemma Threes(a: octets, b: octets, c: octets, d: octets)
    ensures a + b + c + d == a + (b + c + d) && b + c + d == b + (c + d) && d + [] == d
  {
    assert a + b + c == a + (b + c);
    assert a + (b + c) + d == a + (b + c + d);
    assert b + c + d == b + (c + d);
  }

  lemma FieldsSound(k: PduType, content: octets)
    requires ParsePduFields(k, content).Ok? && ParsePduFields(k, content).value.1 == []
    ensures var p := ParsePduFields(k, content).value.0;
            p.kind == k && exists a: octets, b: octets, c: octets, d: octets :: PduParts(content, p, a, b, c, d)
  {
    hide ParseInteger, ParseVarbindList, SignedOctets, VarbindListOctets, Taken;
    var p := ParsePduFields(k, content).value.0;
    var (_, w1) := ParseInteger(content).value;
    var (_, w2) := ParseInteger(w1).value;
    var (_, w3) := ParseInteger(w2).value;
    var (_, w4) := ParseVarbindList(w3).value;
    IntegerReads(content, p.requestId, w1);
    IntegerReads(w1, p.errorStatus, w2);
    IntegerReads(w2, p.errorIndex, w3);
    VarbindListReads(w3, p.varbinds, []);
    var a, b, c, d := Taken(content, w1), Taken(w1, w2), Taken(w2, w3), Taken(w3, []);
    Four(a, b, c, d);
    assert PduParts(content, p, a, b, c, d);
  }

  lemma FieldsComplete(content: octets, p: Pdu, a: octets, b: octets, c: octets, d: octets)
    requires PduParts(content, p, a, b, c, d)
    ensures ParsePduFields(p.kind, content) == Ok((p, []))
  {
    hide ParseInteger, ParseVarbindList, SignedOctets, VarbindListOctets, Taken;
    Four(a, b, c, d);
    IntegerReads(content, p.requestId, b + c + d);
    IntegerReads(b + c + d, p.errorStatus, c + d);
    IntegerReads(c + d, p.errorIndex, d);
    VarbindListReads(d, p.varbinds, []);
  }

  lemma PduReads(w: octets, p: Pdu, rest: octets)
    ensures ParsePdu(w) == Ok((p, rest)) <==> w == Taken(w, rest) + rest && PduOctets(Taken(w, rest), p)
  {
    hide ParseConstructed, ParsePduFields, PduParts, Element, Taken;
    if ParsePdu(w) == Ok((p, rest)) {
      var content := ParseConstructed(w[0], w).value.0;
      FieldsSound(PduTypeOf(w[0]).value, content);
      var a: octets, b: octets, c: octets, d: octets :| PduParts(content, p, a, b, c, d);
      ConstructedReads(PduIdentifier(p.kind), w, content, rest);
    }
    if w == Taken(w, rest) + rest && PduOctets(Taken(w, rest), p) {
      var a: octets, b: octets, c: octets, d: octets, content: octets :|
        PduParts(content, p, a, b, c, d) && Element(Taken(w, rest), PduIdentifier(p.kind), content);
      ConstructedReads(PduIdentifier(p.kind), w, content, rest);
      ElementStarts(Taken(w, rest), PduIdentifier(p.kind), content);
      FieldsComplete(content, p, a, b, c, d);
    }
  }

  //
  // SNMPv2c
  //

  lemma V2cSound(content: octets)
    requires ParseV2cFields(content).Ok? && ParseV2cFields(content).value.1 == []
    ensures var m := ParseV2cFields(content).value.0;
            exists a: octets, b: octets, c: octets :: V2cParts(content, m, a, b, c)
  {
    hide ParseInteger, ParseOctets, ParsePdu, SignedOctets, Element, PduOctets, Taken;
    var m := ParseV2cFields(content).value.0;
    var (_, w1) := ParseInteger(content).value;
    var (_, w2) := ParseOctets(w1).value;
    var (_, w3) := ParsePdu(w2).value;
    IntegerReads(content, 1, w1);
    OctetsRead(w1, m.community, w2);
    PduReads(w2, m.pdu, []);
    var a, b, c := Taken(content, w1), Taken(w1, w2), Taken(w2, []);
    Four([], a, b, c);
    assert V2cParts(content, m, a, b, c);
  }

  lemma V2cComplete(content: octets, m: V2cMessage, a: octets, b: octets, c: octets)
    requires V2cParts(content, m, a, b, c)
    ensures ParseV2cFields(content) == Ok((m, []))
  {
    hide ParseInteger, ParseOctets, ParsePdu, SignedOctets, Element, PduOctets, Taken;
    Four([], a, b, c);
    IntegerReads(content, 1, b + c);
    OctetsRead(b + c, m.community, c);
    PduReads(c, m.pdu, []);
  }

  lemma Whole(d: octets)
    ensures Taken(d, []) == d && d + [] == d
  {
    TakenIs(d, []);
  }

  /** The v2c decoder gives a message exactly for the datagrams that message has. */
  lemma V2cDecodes(datagram: octets, m: V2cMessage)
    ensures DecodeV2c(datagram) == Ok(m) <==> V2cOctets(datagram, m)
  {
    hide ParseConstructed, ParseV2cFields, V2cParts, Element;
    Whole(datagram);
    if DecodeV2c(datagram) == Ok(m) {
      var content := ParseConstructed(SEQUENCE, datagram).value.0;
      V2cSound(content);
      var a: octets, b: octets, c: octets :| V2cParts(content, m, a, b, c);
      ConstructedReads(0x30, datagram, content, []);
    }
    if V2cOctets(datagram, m) {
      var a: octets, b: octets, c: octets, content: octets :| V2cParts(content, m, a, b, c)
          && Element(datagram, 0x30, content);
      ConstructedReads(0x30, datagram, content, []);
      V2cComplete(content, m, a, b, c);
    }
  }

  /** And what is encoded for a message is such a datagram. */
  lemma V2cEncodes(m: V2cMessage)
    requires PduEncodable(m.pdu) && |V2cFields(m)| < LENGTH_LIMIT
    ensures V2cOctets(EncodeV2c(m), m)
  {
    hide EncodeV2c, DecodeV2c, V2cOctets, PduEncodable;
    V2cRoundTrip(m);
    V2cDecodes(EncodeV2c(m), m);
  }

  //
  // SNMPv3
  //

  lemma ScopedSound(content: octets)
    requires ParseScopedFields(content).Ok? && ParseScopedFields(content).value.1 == []
    ensures var s := ParseScopedFields(content).value.0;
            exists a: octets, b: octets, c: octets :: ScopedParts(content, s, a, b, c)
  {
    hide ParseOctets, ParsePdu, Element, PduOctets, Taken;
    var s := ParseScopedFields(content).value.0;
    var (_, w1) := ParseOctets(content).value;
    var (_, w2) := ParseOctets(w1).value;
    var (_, w3) := ParsePdu(w2).value;
    OctetsRead(content, s.contextEngineId, w1);
    OctetsRead(w1, s.contextName, w2);
    PduReads(w2, s.pdu, []);
    var a, b, c := Taken(content, w1), Taken(w1, w2), Taken(w2, []);
    Four([], a, b, c);
    assert ScopedParts(content, s, a, b, c);
  }

  lemma ScopedComplete(content: octets, s: ScopedPdu, a: octets, b: octets, c: octets)
    requires ScopedParts(content, s, a, b, c)
    ensures ParseScopedFields(content) == Ok((s, []))
  {
    hide ParseOctets, ParsePdu, Element, PduOctets, Taken;
    Four([], a, b, c);
    OctetsRead(content, s.contextEngineId, b + c);
    OctetsRead(b + c, s.contextName, c);
    PduReads(c, s.pdu, []);
  }

  lemma ScopedReads(w: octets, s: ScopedPdu, rest: octets)
    ensures ParseScoped(w) == Ok((s, rest)) <==> w == Taken(w, rest) + rest && ScopedOctets(Taken(w, rest), s)
  {
    hide ParseConstructed, ParseScopedFields, ScopedParts, Element, Taken;
    if ParseScoped(w) == Ok((s, rest)) {
      var content := ParseConstructed(SEQUENCE, w).value.0;
      ScopedSound(content);
      var a: octets, b: octets, c: octets :| ScopedParts(content, s, a, b, c);
      ConstructedReads(0x30, w, content, rest);
    }
    if w == Taken(w, rest) + rest && ScopedOctets(Taken(w, rest), s) {
      var a: octets, b: octets, c: octets, content: octets :|
        ScopedParts(content, s, a, b, c) && Element(Taken(w, rest), 0x30, content);
      ConstructedReads(0x30, w, content, rest);
      ScopedComplete(content, s, a, b, c);
    }
  }

  lemma FlagsRead(flags: byte, level: SecurityLevel, reportable: bool)
    ensures LevelOf(flags) == Some(level) && reportable == (flags / 4 % 2 == 1) <==> FlagsMean(flags, level, reportable)
  {
  }

  lemma HeaderSound(content: octets)
    requires ParseHeaderFields(content).Ok? && ParseHeaderFields(content).value.1 == []
    ensures var h := ParseHeaderFields(content).value.0;
            exists a: octets, b: octets, c: octets, d: octets, flags: byte :: HeaderParts(content, h, a, b, c, d, flags)
  {
    hide ParseInteger, ParseOctets, SignedOctets, Element, Taken, LevelOf, FlagsMean;
    var h := ParseHeaderFields(content).value.0;
    var (_, w1) := ParseInteger(content).value;
    var (_, w2) := ParseInteger(w1).value;
    var (fs, w3) := ParseOctets(w2).value;
    var (_, w4) := ParseInteger(w3).value;
    IntegerReads(content, h.msgId, w1);
    IntegerReads(w1, h.maxSize, w2);
    OctetsRead(w2, fs, w3);
    IntegerReads(w3, h.securityModel, []);
    FlagsRead(fs[0], h.level, h.reportable);
    assert fs == [fs[0]];
    var a, b, c, d := Taken(content, w1), Taken(w1, w2), Taken(w2, w3), Taken(w3, []);
    Four(a, b, c, d);
    assert HeaderParts(content, h, a, b, c, d, fs[0]);
  }

  lemma HeaderComplete(content: octets, h: V3Header, a: octets, b: octets, c: octets, d: octets, flags: byte)
    requires HeaderParts(content, h, a, b, c, d, flags)
    ensures ParseHeaderFields(content) == Ok((h, []))
  {
    hide ParseInteger, ParseOctets, SignedOctets, Element, Taken, LevelOf, FlagsMean;
    Four(a, b, c, d);
    IntegerReads(content, h.msgId, b + c + d);
    IntegerReads(b + c + d, h.maxSize, c + d);
    OctetsRead(c + d, [flags], d);
    IntegerReads(d, h.securityModel, []);
    FlagsRead(flags, h.level, h.reportable);
  }

  lemma HeaderReads(w: octets, h: V3Header, rest: octets)
    ensures ParseV3Header(w) == Ok((h, rest)) <==> w == Taken(w, rest) + rest && HeaderOctets(Taken(w, rest), h)
  {
    hide ParseConstructed, ParseHeaderFields, HeaderParts, Element, Taken;
    if ParseV3Header(w) == Ok((h, rest)) {
      var content := ParseConstructed(SEQUENCE, w).value.0;
      HeaderSound(content);
      var a: octets, b: octets, c: octets, d: octets, flags: byte :| HeaderParts(content, h, a, b, c, d, flags);
      ConstructedReads(0x30, w, content, rest);
    }
    if w == Taken(w, rest) + rest && HeaderOctets(Taken(w, rest), h) {
      var a: octets, b: octets, c: octets, d: octets, flags: byte, content: octets :|
        HeaderParts(content, h, a, b, c, d, flags) && Element(Taken(w, rest), 0x30, content) && h.securityModel == 3;
      ConstructedReads(0x30, w, content, rest);
      HeaderComplete(content, h, a, b, c, d, flags);
    }
  }

  lemma Six(a: octets, b: octets, c: octets, d: octets, e: octets, f: octets)
    ensures a + b + c + d + e + f == a + (b + (c + (d + (e + f))))
    ensures Taken(a + (b + (c + (d + (e + f)))), b + (c + (d + (e + f)))) == a
    ensures Taken(b + (c + (d + (e + f))), c + (d + (e + f))) == b
    ensures Taken(c + (d + (e + f)), d + (e + f)) == c
    ensures Taken(d + (e + f), e + f) == d
    ensures Taken(e + f, f) == e
    ensures Taken(f, []) == f && f + [] == f
  {
    TakenIs(a, b + (c + (d + (e + f))));
    TakenIs(b, c + (d + (e + f)));
    TakenIs(c, d + (e + f));
    TakenIs(d, e + f);
    TakenIs(e, f);
    Whole(f);
    Regrouped(a, b, c, d, e, f);
  }

  lemma Regrouped(a: octets, b: octets, c: octets, d: octets, e: octets, f: octets)
    ensures a + b + c + d + e + f == a + (b + (c + (d + (e + f))))
  {
    assert a + b + c + d + e + f == a + b + c + d + (e + f);
    assert a + b + c + d + (e + f) == a + b + c + (d + (e + f));
    assert a + b + c + (d + (e + f)) == a + b + (c + (d + (e + f)));
    assert a + b + (c + (d + (e + f))) == a + (b + (c + (d + (e + f))));
  }

  lemma UsmSound(content: octets)
    requires ParseUsmFields(content).Ok? && ParseUsmFields(content).value.1 == []
    ensures var u := ParseUsmFields(content).value.0;
            exists a: octets, b: octets, c: octets, d: octets, e: octets ::
              UsmParts(content, u.params, a, b, c, d, e, u.afterDigest)
  {
    hide ParseInteger, ParseOctets, SignedOctets, Element, Taken;
    var u := ParseUsmFields(content).value.0.params;
    var (_, w1) := ParseOctets(content).value;
    var (_, w2) := ParseInteger(w1).value;
    var (_, w3) := ParseInteger(w2).value;
    var (_, w4) := ParseOctets(w3).value;
    var (_, w5) := ParseOctets(w4).value;
    var (_, w6) := ParseOctets(w5).value;
    OctetsRead(content, u.engineId, w1);
    IntegerReads(w1, u.boots, w2);
    IntegerReads(w2, u.time, w3);
    OctetsRead(w3, u.userName, w4);
    OctetsRead(w4, u.authParams, w5);
    OctetsRead(w5, u.privParams, []);
    var a, b, c, d, e := Taken(content, w1), Taken(w1, w2), Taken(w2, w3), Taken(w3, w4), Taken(w4, w5);
    Whole(w5);
    Regrouped(a, b, c, d, e, w5);
    assert UsmParts(content, u, a, b, c, d, e, w5);
  }

  lemma UsmComplete(content: octets, u: UsmParameters, a: octets, b: octets, c: octets, d: octets, e: octets, f: octets)
    requires UsmParts(content, u, a, b, c, d, e, f)
    ensures ParseUsmFields(content) == Ok((UsmFields(u, f), []))
  {
    hide ParseInteger, ParseOctets, SignedOctets, Element, Taken;
    Six(a, b, c, d, e, f);
    OctetsRead(content, u.engineId, b + (c + (d + (e + f))));
    IntegerReads(b + (c + (d + (e + f))), u.boots, c + (d + (e + f)));
    IntegerReads(c + (d + (e + f)), u.time, d + (e + f));
    OctetsRead(d + (e + f), u.userName, e + f);
    OctetsRead(e + f, u.authParams, f);
    OctetsRead(f, u.privParams, []);
  }

  lemma UsmReads(w: octets, u: UsmParameters, offset: nat)
    ensures ParseUsm(w) == Ok(LocatedUsm(u, offset))
       <==> offset + |u.authParams| <= |w| && UsmOctets(w, u, |w| - offset - |u.authParams|)
  {
    hide ParseConstructed, ParseUsmFields, UsmParts, Element;
    Whole(w);
    if ParseUsm(w) == Ok(LocatedUsm(u, offset)) {
      var content := ParseConstructed(SEQUENCE, w).value.0;
      UsmSound(content);
      var f := ParseUsmFields(content).value.0.afterDigest;
      var a: octets, b: octets, c: octets, d: octets, e: octets :| UsmParts(content, u, a, b, c, d, e, f);
      ConstructedReads(0x30, w, content, []);
    }
    if offset + |u.authParams| <= |w| && UsmOctets(w, u, |w| - offset - |u.authParams|) {
      var a: octets, b: octets, c: octets, d: octets, e: octets, f: octets, content: octets :|
        UsmParts(content, u, a, b, c, d, e, f) && Element(w, 0x30, content) && |f| == |w| - offset - |u.authParams|;
      ConstructedReads(0x30, w, content, []);
      UsmComplete(content, u, a, b, c, d, e, f);
    }
  }

  lemma PayloadReads(level: SecurityLevel, w: octets, p: Payload, rest: octets)
    ensures ParsePayload(level, w) == Ok((p, rest))
       <==> w == Taken(w, rest) + rest && PayloadOctets(Taken(w, rest), level, p.scoped, p.encryptedPdu)
  {
    hide ParseOctets, ParseScoped, Element, ScopedOctets, Taken;
    if level == AuthPriv {
      if ParsePayload(level, w) == Ok((p, rest)) { var (bs, after) := ParseOctets(w).value; }
      OctetsRead(w, p.encryptedPdu, rest);
    } else {
      if ParsePayload(level, w) == Ok((p, rest)) { var (s, after) := ParseScoped(w).value; }
      ScopedReads(w, p.scoped, rest);
    }
  }

  lemma BodySound(content: octets)
    requires ParseBody(content).Ok? && ParseBody(content).value.1 == []
    ensures var m := ParseBody(content).value.0;
            exists a: octets, b: octets, c: octets, d: octets, params: octets, tail: nat ::
              && V3Parts(content, V3Message(m.header, m.usm.params, m.payload.scoped, m.payload.encryptedPdu, 0),
                         a, b, c, d, params, tail)
              && m.usmOffset + m.usm.digestOffset + |m.usm.params.authParams| + tail + |d| == |content|
  {
    hide ParseInteger, ParseV3Header, ParseOctets, ParseUsm, ParsePayload, SignedOctets, HeaderOctets, Element,
         UsmOctets, PayloadOctets, Taken;
    var m := ParseBody(content).value.0;
    var (_, w1) := ParseInteger(content).value;
    var (_, w2) := ParseV3Header(w1).value;
    var (params, w3) := ParseOctets(w2).value;
    var (_, w4) := ParsePayload(m.header.level, w3).value;
    IntegerReads(content, 3, w1);
    HeaderReads(w1, m.header, w2);
    OctetsRead(w2, params, w3);
    UsmReads(params, m.usm.params, m.usm.digestOffset);
    PayloadReads(m.header.level, w3, m.payload, []);
    var a, b, c, d := Taken(content, w1), Taken(w1, w2), Taken(w2, w3), Taken(w3, []);
    Four(a, b, c, d);
    var tail := |params| - m.usm.digestOffset - |m.usm.params.authParams|;
    var msg := V3Message(m.header, m.usm.params, m.payload.scoped, m.payload.encryptedPdu, 0);
    assert V3Parts(content, msg, a, b, c, d, params, tail);
  }

  lemma BodyComplete(content: octets, m: V3Message, a: octets, b: octets, c: octets, d: octets, params: octets,
                     tail: nat)
    requires V3Parts(content, m, a, b, c, d, params, tail)
    ensures |m.security.authParams| + tail <= |params| && |params| + |d| <= |content|
    ensures ParseBody(content)
         == Ok((RawMessage(m.header, LocatedUsm(m.security, |params| - tail - |m.security.authParams|),
                           |content| - |d| - |params|, Payload(m.scoped, m.encryptedPdu)), []))
  {
    hide ParseInteger, ParseV3Header, ParseOctets, ParseUsm, ParsePayload, SignedOctets, HeaderOctets, Element,
         UsmOctets, PayloadOctets, Taken;
    Four(a, b, c, d);
    IntegerReads(content, 3, b + c + d);
    HeaderReads(b + c + d, m.header, c + d);
    OctetsRead(c + d, params, d);
    UsmRoom(params, m.security, tail);
    ElementRoom(c, 0x04, params);
    UsmReads(params, m.security, |params| - tail - |m.security.authParams|);
    PayloadReads(m.header.level, d, Payload(m.scoped, m.encryptedPdu), []);
  }

  lemma ElementRoom(w: octets, t: byte, c: octets)
    requires Element(w, t, c)
    ensures |w| >= |c| + 2
  {
  }

  lemma UsmRoom(w: octets, u: UsmParameters, tail: nat)
    requires UsmOctets(w, u, tail)
    ensures tail + |u.authParams| <= |w|
  {
    hide Element, SignedOctets;
    var a: octets, b: octets, c: octets, d: octets, e: octets, f: octets, content: octets :|
      UsmParts(content, u, a, b, c, d, e, f) && Element(w, 0x30, content) && |f| == tail;
    ElementRoom(e, 0x04, u.authParams);
    ElementRoom(w, 0x30, content);
  }

  /** The v3 decoder gives a message, its digest's place included, exactly for the datagrams that message has. */
  lemma V3Decodes(datagram: octets, m: V3Message)
    ensures DecodeV3(datagram) == Ok(m) <==> V3Octets(datagram, m)
  {
    hide ParseConstructed, ParseBody, V3Parts, Element;
    Whole(datagram);
    if DecodeV3(datagram) == Ok(m) {
      var content := ParseConstructed(SEQUENCE, datagram).value.0;
      BodySound(content);
      var raw := ParseBody(content).value.0;
      var a: octets, b: octets, c: octets, d: octets, params: octets, tail: nat :|
        && V3Parts(content, V3Message(raw.header, raw.usm.params, raw.payload.scoped, raw.payload.encryptedPdu, 0),
                   a, b, c, d, params, tail)
        && raw.usmOffset + raw.usm.digestOffset + |raw.usm.params.authParams| + tail + |d| == |content|;
      OffsetApart(content, m, 0, a, b, c, d, params, tail);
      ConstructedReads(0x30, datagram, content, []);
    }
    if V3Octets(datagram, m) {
      var a: octets, b: octets, c: octets, d: octets, params: octets, tail: nat, content: octets :|
        && V3Parts(content, m, a, b, c, d, params, tail) && Element(datagram, 0x30, content)
        && m.authParamsOffset + |m.security.authParams| + tail + |d| == |datagram|;
      ConstructedReads(0x30, datagram, content, []);
      BodyComplete(content, m, a, b, c, d, params, tail);
    }
  }

  /** Where the digest is plays no part in the fields. */
  lemma OffsetApart(content: octets, m: V3Message, offset: nat, a: octets, b: octets, c: octets, d: octets,
                    params: octets, tail: nat)
    ensures V3Parts(content, m.(authParamsOffset := offset), a, b, c, d, params, tail)
       <==> V3Parts(content, m, a, b, c, d, params, tail)
  {
    hide SignedOctets, HeaderOctets, Element, UsmOctets, PayloadOctets;
  }

  /** And what is encoded is such a datagram, of these fields, and of whatever digest and salt went into it. */
  lemma V3Encodes(c: Crypto, h: V3Header, u: UsmParameters, scoped: ScopedPdu, auth: AuthProtocol, key: octets,
                  priv: PrivProtocol, privKey: octets, salt: uint64)
    returns (m: V3Message)
    requires Sound(c) && PduEncodable(scoped.pdu) && h.securityModel == 3
    requires EncodeV3(c, h, u, scoped, auth, key, priv, privKey, salt).Ok?
    requires |EncodeV3(c, h, u, scoped, auth, key, priv, privKey, salt).value| < LENGTH_LIMIT
    ensures V3Octets(EncodeV3(c, h, u, scoped, auth, key, priv, privKey, salt).value, m)
    ensures m.header == h && m.security.engineId == u.engineId && m.security.userName == u.userName
    ensures m.security.boots == u.boots && m.security.time == u.time
    ensures !IsEncrypted(h.level) ==> m.scoped == scoped
  {
    hide Sound, EncodeV3, DecodeV3, V3Octets, Verifies, Decrypt, PduEncodable;
    V3RoundTrip(c, h, u, scoped, auth, key, priv, privKey, salt);
    var out := EncodeV3(c, h, u, scoped, auth, key, priv, privKey, salt).value;
    m := DecodeV3(out).value;
    V3Decodes(out, m);
  }
}
