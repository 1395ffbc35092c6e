/** Reading a v3 message back: the code, where it finds the digest, and that it undoes the encoder. */
module V3Decoding {
  import opened Octets
  import opened Errors
  import opened BerGrammar
  import opened BerRoundTrip
  import opened BerReader
  import opened Pdus
  import opened Usm
  import opened V3Messages

  //
  // The code
  //

  method ReadScopedPdu(r: Reader) returns (s: Option<ScopedPdu>)
    requires r.Valid()
    modifies r
    ensures r.Follows(s, ParseScoped(old(r.Window())))
  {
    hide ParseConstructed, ParseOctets, ParsePdu;
    if r.ec.Some? { return None; }
    var scope := r.Enter(SEQUENCE);
    var engine := r.OctetString();
    var context := r.OctetString();
    if engine.None? || context.None? {
      r.CloseScope(scope);
      return None;
    }
    var pdu := ReadPdu(r);
    if pdu.None? {
      r.CloseScope(scope);
      return None;
    }
    assert r.Window() == [] <==> r.pos == scope.contentEnd;
    r.CloseScope(scope);
    if r.ec.Some? { return None; }
    return Some(ScopedPdu(engine.value, context.value, pdu.value));
  }

  /** A Reader that has just read what a parser reads, or a fault the Reader itself may not have recorded. */
  twostate predicate Reads<T>(r: Reader, new v: Result<T>, new p: Result<(T, octets)>)
    reads r
  {
    match p
    case Ok((x, rest)) => v == Ok(x) && r.Valid() && r.ec == None && r.end == old(r.end) && r.Window() == rest
    case Err(e) => v == Err(e)
  }

  method ReadV3Header(r: Reader) returns (h: Result<V3Header>)
    requires r.Valid() && r.ec == None
    modifies r
    ensures Reads(r, h, ParseV3Header(old(r.Window())))
  {
    hide ParseConstructed, ParseInteger, ParseOctets;
    var scope := r.Enter(SEQUENCE);
    var msgId := r.Integer();
    var maxSize := r.Integer();
    var flags := r.OctetString();
    var model := r.Integer();
    if msgId.None? || maxSize.None? || flags.None? || model.None? { return Err(r.ec.value); }
    if |flags.value| != 1 || flags.value[0] % 4 == 2 { return Err(BadMessageFlags); }
    var level := LevelOf(flags.value[0]).value;
    assert r.Window() == [] <==> r.pos == scope.contentEnd;
    r.CloseScope(scope);
    if r.ec.Some? { return Err(r.ec.value); }
    if model.value != SECURITY_MODEL_USM { return Err(UnsupportedSecurityModel); }
    return Ok(V3Header(msgId.value, maxSize.value, level, flags.value[0] / 4 % 2 == 1, model.value));
  }

  /** The six fields, and the position right after the digest. */
  method ReadUsmFields(sub: Reader) returns (p: Option<UsmParameters>, afterAuthParams: nat)
    requires sub.Valid()
    modifies sub
    ensures sub.Valid() && sub.end == old(sub.end) && sub.pos >= old(sub.pos)
    ensures old(sub.ec).Some? ==> p == None && sub.ec == old(sub.ec)
    ensures old(sub.ec).None? ==>
              match ParseUsmFields(old(sub.Window()))
              case Ok((f, rest)) =>
                && p == Some(f.params) && sub.ec == None && sub.Window() == rest
                && afterAuthParams == sub.end - |f.afterDigest|
              case Err(e) => p == None && sub.ec == Some(e)
  {
    hide ParseInteger, ParseOctets;
    var engineId := sub.OctetString();
    var boots := sub.Integer();
    var time := sub.Integer();
    var userName := sub.OctetString();
    var authParams := sub.OctetString();
    afterAuthParams := sub.pos;
    var privParams := sub.OctetString();
    if engineId.None? || boots.None? || time.None? || userName.None? || authParams.None? || privParams.None? {
      return None, afterAuthParams;
    }
    return Some(UsmParameters(engineId.value, boots.value, time.value, userName.value, authParams.value,
                              privParams.value)), afterAuthParams;
  }

  /** The security parameters through a Reader of their own, whose position right after the digest says where it is. */
  method ReadUsm(params: octets) returns (u: Result<LocatedUsm>)
    ensures u == ParseUsm(params)
  {
    hide ParseConstructed, ParseUsmFields;
    var sub := new Reader(params);
    var scope := sub.Enter(SEQUENCE);
    var p, afterAuthParams := ReadUsmFields(sub);
    if p.None? { return Err(sub.ec.value); }
    assert sub.Window() == [] <==> sub.pos == scope.contentEnd;
    sub.CloseScope(scope);
    var done := sub.Finish();
    if !done { return Err(sub.ec.value); }
    return Ok(LocatedUsm(p.value, afterAuthParams - |p.value.authParams|));
  }

  method ReadPayload(r: Reader, level: SecurityLevel) returns (p: Result<Payload>)
    requires r.Valid() && r.ec == None
    modifies r
    ensures Reads(r, p, ParsePayload(level, old(r.Window())))
  {
    hide ParseOctets, ParseScoped;
    if IsEncrypted(level) {
      var encrypted := r.OctetString();
      if encrypted.None? { return Err(r.ec.value); }
      return Ok(Payload(NO_SCOPED_PDU, encrypted.value));
    }
    var scoped := ReadScopedPdu(r);
    if scoped.None? { return Err(r.ec.value); }
    return Ok(Payload(scoped.value, []));
  }

  method DecodeV3Message(datagram: octets) returns (m: Result<V3Message>)
    ensures m == DecodeV3(datagram)
  {
    hide ParseConstructed, ParseInteger, ParseOctets, ParseV3Header, ParseUsm, ParsePayload;
    var r := new Reader(datagram);
    var scope := r.Enter(SEQUENCE);
    var version := r.Integer();
    if version.None? { return Err(r.ec.value); }
    if version.value != VERSION_V3 { return Err(BadVersion); }
    var header := ReadV3Header(r);
    if header.Err? { return Err(header.error); }
    var params := r.OctetString();
    if params.None? { return Err(r.ec.value); }
    var paramsBase := r.pos - |params.value|;
    var usm := ReadUsm(params.value);
    if usm.Err? { return Err(usm.error); }
    var payload := ReadPayload(r, header.value.level);
    if payload.Err? { return Err(payload.error); }
    assert r.Window() == [] <==> r.pos == scope.contentEnd;
    r.CloseScope(scope);
    var done := r.Finish();
    if !done { return Err(r.ec.value); }
    return Ok(V3Message(header.value, usm.value.params, payload.value.scoped, payload.value.encryptedPdu,
                        paramsBase + usm.value.digestOffset));
  }

  method DecryptScopedPdu(c: Crypto, msg: V3Message, priv: PrivProtocol, privKey: octets)
    returns (r: Result<V3Message>)
    ensures match Decrypt(c, msg, priv, privKey)
            case Ok(scoped) => r == Ok(msg.(scoped := scoped))
            case Err(e) => r == Err(e)
  {
    hide PrivDecrypt, ParseScoped;
    var plain := PrivDecrypt(c, priv, privKey, msg.security.boots, msg.security.time, msg.security.privParams,
                             msg.encryptedPdu);
    if plain.Err? { return Err(plain.error); }
    var r' := new Reader(plain.value);
    var scoped := ReadScopedPdu(r');
    if scoped.None? { return Err(DecryptionFailed); }
    return Ok(msg.(scoped := scoped.value));
  }

  method VerifyAuth(c: Crypto, datagram: octets, msg: V3Message, auth: AuthProtocol, key: octets) returns (ok: bool)
    ensures ok <==> Verifies(c, datagram, msg, auth, key)
  {
    hide AuthDigest;
    if !IsAuthenticated(msg.header.level) || |msg.security.authParams| != AuthParamsSize(auth) { return false; }
    if msg.authParamsOffset + |msg.security.authParams| > |datagram| { return false; }
    var blanked := CopyOver(datagram, msg.authParamsOffset, Zeros(|msg.security.authParams|));
    var expected := AuthDigest(c, auth, key, blanked);
    if expected.Err? { return false; }
    return expected.value == msg.security.authParams;
  }

  //
  // Where the digest is found
  //

  /** `c` is in `w`, with `k` octets after it. */
  predicate EndsBefore(w: octets, c: octets, k: nat) {
    |c| + k <= |w| && w[|w| - k - |c|..|w| - k] == c
  }

  lemma EndsWithin(w: octets, inner: octets, k: nat, c: octets, j: nat)
    requires EndsBefore(w, inner, k) && EndsBefore(inner, c, j)
    ensures EndsBefore(w, c, k + j)
  {
    SliceOfSlice(w, |w| - k - |inner|, |w| - k, |inner| - j - |c|, |inner| - j);
  }

  lemma SizedRest(w: octets, k: nat)
    requires k <= |w|
    ensures EndsBefore(w, w[k..], 0)
  {
  }

  lemma HeaderRest(w: octets)
    requires ParseHeader(w).Ok?
    ensures EndsBefore(w, ParseHeader(w).value.1, 0)
  {
    hide NumberOf;
    var rest := ParseHeader(w).value.1;
    SizedRest(w, |w| - |rest|);
  }

  lemma Halves(rest: octets, n: nat)
    requires n <= |rest|
    ensures EndsBefore(rest, rest[..n], |rest| - n) && EndsBefore(rest, rest[n..], 0)
  {
  }

  lemma ElementEnds(w: octets)
    requires ParseHeader(w).Ok?
    ensures var (h, rest) := ParseHeader(w).value;
            EndsBefore(w, rest[..h.length], |rest| - h.length) && EndsBefore(w, rest[h.length..], 0)
  {
    hide ParseHeader, EndsBefore;
    var (h, rest) := ParseHeader(w).value;
    HeaderRest(w);
    Halves(rest, h.length);
    EndsWithin(w, rest, 0, rest[..h.length], |rest| - h.length);
    EndsWithin(w, rest, 0, rest[h.length..], 0);
  }

  lemma PrimitiveEnds(t: Tag, w: octets)
    requires ParsePrimitive(t, w).Ok?
    ensures var (c, rest) := ParsePrimitive(t, w).value;
            EndsBefore(w, c, |rest|) && EndsBefore(w, rest, 0)
  {
    hide ParseHeader, EndsBefore;
    ElementEnds(w);
  }

  lemma ConstructedEnds(t: Tag, w: octets)
    requires ParseConstructed(t, w).Ok?
    ensures var (c, rest) := ParseConstructed(t, w).value;
            EndsBefore(w, c, |rest|) && EndsBefore(w, rest, 0)
  {
    hide ParseHeader, EndsBefore;
    ElementEnds(w);
  }

  lemma UsmDigestEnds(w: octets)
    requires ParseUsmFields(w).Ok?
    ensures var (f, _) := ParseUsmFields(w).value;
            EndsBefore(w, f.params.authParams, |f.afterDigest|)
  {
    hide ParsePrimitive, DecodeInteger, EndsBefore;
    var (_, w1) := ParseOctets(w).value;
    var (_, w2) := ParseInteger(w1).value;
    var (_, w3) := ParseInteger(w2).value;
    var (_, w4) := ParseOctets(w3).value;
    var (authParams, w5) := ParseOctets(w4).value;
    PrimitiveEnds(OCTET_STRING, w);
    PrimitiveEnds(INTEGER, w1);
    PrimitiveEnds(INTEGER, w2);
    PrimitiveEnds(OCTET_STRING, w3);
    PrimitiveEnds(OCTET_STRING, w4);
    EndsWithin(w, w1, 0, w2, 0);
    EndsWithin(w, w2, 0, w3, 0);
    EndsWithin(w, w3, 0, w4, 0);
    EndsWithin(w, w4, 0, authParams, |w5|);
  }

  lemma UsmDigestFound(params: octets)
    requires ParseUsm(params).Ok?
    ensures var u := ParseUsm(params).value;
            EndsBefore(params, u.params.authParams, |params| - u.digestOffset - |u.params.authParams|)
  {
    hide ParseConstructed, ParseUsmFields, EndsBefore;
    var (content, _) := ParseConstructed(SEQUENCE, params).value;
    var (f, _) := ParseUsmFields(content).value;
    ConstructedEnds(SEQUENCE, params);
    UsmDigestEnds(content);
    EndsWithin(params, content, 0, f.params.authParams, |f.afterDigest|);
  }

  lemma HeaderEnds(w: octets)
    requires ParseV3Header(w).Ok?
    ensures EndsBefore(w, ParseV3Header(w).value.1, 0)
  {
    hide ParseConstructed, ParseHeaderFields, EndsBefore;
    ConstructedEnds(SEQUENCE, w);
  }

  lemma BodyDigestFound(w: octets)
    requires ParseBody(w).Ok?
    ensures var (m, _) := ParseBody(w).value;
            var digest := m.usm.params.authParams;
            var at := m.usmOffset + m.usm.digestOffset;
            at + |digest| <= |w| && EndsBefore(w, digest, |w| - at - |digest|)
  {
    hide ParseConstructed, ParsePrimitive, DecodeInteger, ParseV3Header, ParseUsm, ParsePayload, EndsBefore;
    var (_, w1) := ParseInteger(w).value;
    var (_, w2) := ParseV3Header(w1).value;
    var (params, w3) := ParseOctets(w2).value;
    var usm := ParseUsm(params).value;
    PrimitiveEnds(INTEGER, w);
    HeaderEnds(w1);
    PrimitiveEnds(OCTET_STRING, w2);
    EndsWithin(w, w1, 0, w2, 0);
    EndsWithin(w, w2, 0, params, |w3|);
    UsmDigestFound(params);
    DigestFits(params);
    EndsWithin(w, params, |w3|, usm.params.authParams, |params| - usm.digestOffset - |usm.params.authParams|);
    EndsFits(w, params, |w3|);
  }

  lemma EndsFits(w: octets, c: octets, k: nat)
    requires EndsBefore(w, c, k)
    ensures |c| + k <= |w|
  {
  }

  lemma DigestFits(params: octets)
    requires ParseUsm(params).Ok?
    ensures ParseUsm(params).value.digestOffset + |ParseUsm(params).value.params.authParams| <= |params|
  {
    hide ParseConstructed, ParseOctets, ParseInteger;
  }

  /** In every datagram the decoder accepts, the digest field lies inside it and holds the decoded digest. */
  lemma DigestFound(datagram: octets)
    requires DecodeV3(datagram).Ok?
    ensures var m := DecodeV3(datagram).value;
            var n := |m.security.authParams|;
            && m.authParamsOffset + n <= |datagram|
            && datagram[m.authParamsOffset..m.authParamsOffset + n] == m.security.authParams
  {
    hide ParseConstructed, ParseBody, EndsBefore;
    var (content, _) := ParseConstructed(SEQUENCE, datagram).value;
    var (m, _) := ParseBody(content).value;
    var digest, at := m.usm.params.authParams, m.usmOffset + m.usm.digestOffset;
    ConstructedEnds(SEQUENCE, datagram);
    BodyDigestFound(content);
    EndsWithin(datagram, content, 0, digest, |content| - at - |digest|);
    Found(datagram, digest, |content| - at - |digest|);
    EndsFits(datagram, content, 0);
  }

  lemma Found(w: octets, c: octets, k: nat)
    requires EndsBefore(w, c, k)
    ensures |c| + k <= |w| && w[|w| - k - |c|..|w| - k] == c
  {
  }

  //
  // Round trips
  //

  lemma ScopedRoundTrip(s: ScopedPdu, rest: octets)
    requires PduEncodable(s.pdu) && |EncodeScoped(s)| < LENGTH_LIMIT
    ensures ParseScoped(EncodeScoped(s) + rest) == Ok((s, rest))
  {
    hide ParseConstructed, Tlv, ParseOctets, EncodeOctets, ParsePdu, EncodePdu, PduEncodable;
    var a, b, c := EncodeOctets(s.contextEngineId), EncodeOctets(s.contextName), EncodePdu(s.pdu);
    TlvSize(SEQUENCE, ScopedFields(s));
    ConstructedRoundTrip(SEQUENCE, ScopedFields(s), rest);
    assert ScopedFields(s) == a + (b + c);
    OctetStringSize(s.contextEngineId);
    OctetStringSize(s.contextName);
    OctetsElement(s.contextEngineId, b + c);
    OctetsElement(s.contextName, c);
    PduRoundTrip(s.pdu, []);
    assert c + [] == c;
  }

  lemma FlagsRoundTrip(h: V3Header)
    ensures LevelOf(EncodeFlags(h)) == Some(h.level)
    ensures EncodeFlags(h) / 4 % 2 == 1 <==> h.reportable
  {
  }

  lemma HeaderFieldsRoundTrip(h: V3Header)
    ensures ParseHeaderFields(HeaderFields(h)) == Ok((h, []))
  {
    hide ParseInteger, EncodeInteger, ParseOctets, EncodeOctets, EncodeFlags, LevelOf;
    var a, b, c, d := EncodeInteger(h.msgId), EncodeInteger(h.maxSize), EncodeOctets([EncodeFlags(h)]),
                      EncodeInteger(h.securityModel);
    assert HeaderFields(h) == a + (b + (c + d));
    IntegerElement(h.msgId, b + (c + d));
    IntegerElement(h.maxSize, c + d);
    OctetsElement([EncodeFlags(h)], d);
    IntegerElement(h.securityModel, []);
    assert d + [] == d;
    FlagsRoundTrip(h);
  }

  lemma V3HeaderRoundTrip(h: V3Header, rest: octets)
    requires h.securityModel == SECURITY_MODEL_USM && |HeaderFields(h)| < LENGTH_LIMIT
    ensures ParseV3Header(Tlv(SEQUENCE, HeaderFields(h)) + rest) == Ok((h, rest))
  {
    hide ParseConstructed, Tlv, ParseHeaderFields, HeaderFields;
    ConstructedRoundTrip(SEQUENCE, HeaderFields(h), rest);
    HeaderFieldsRoundTrip(h);
  }

  lemma UsmFieldsRoundTrip(u: UsmParameters)
    requires |UsmContent(u)| < LENGTH_LIMIT
    ensures ParseUsmFields(UsmContent(u)) == Ok((UsmFields(u, EncodeOctets(u.privParams)), []))
  {
    hide ParseInteger, EncodeInteger, ParseOctets, EncodeOctets;
    var a, b, c, d := EncodeOctets(u.engineId), EncodeInteger(u.boots), EncodeInteger(u.time), EncodeOctets(u.userName);
    var e, f := EncodeOctets(u.authParams), EncodeOctets(u.privParams);
    assert UsmContent(u) == a + (b + (c + (d + (e + f))));
    OctetStringSize(u.engineId);
    OctetStringSize(u.userName);
    OctetStringSize(u.authParams);
    OctetStringSize(u.privParams);
    OctetsElement(u.engineId, b + (c + (d + (e + f))));
    IntegerElement(u.boots, c + (d + (e + f)));
    IntegerElement(u.time, d + (e + f));
    OctetsElement(u.userName, e + f);
    OctetsElement(u.authParams, f);
    OctetsElement(u.privParams, []);
    assert f + [] == f;
  }

  lemma UsmRoundTrip(u: UsmParameters)
    requires |EncodeUsm(u)| < LENGTH_LIMIT
    ensures ParseUsm(EncodeUsm(u))
         == Ok(LocatedUsm(u, |EncodeUsm(u)| - |EncodeOctets(u.privParams)| - |u.authParams|))
  {
    hide ParseConstructed, Tlv, ParseUsmFields, UsmContent, EncodeOctets;
    TlvSize(SEQUENCE, UsmContent(u));
    ConstructedRoundTrip(SEQUENCE, UsmContent(u), []);
    assert Tlv(SEQUENCE, UsmContent(u)) + [] == Tlv(SEQUENCE, UsmContent(u));
    UsmFieldsRoundTrip(u);
  }

  lemma BodyRoundTrip(h: V3Header, u: UsmParameters, payload: octets, p: Payload)
    requires h.securityModel == SECURITY_MODEL_USM && |MessageBody(h, u, payload)| < LENGTH_LIMIT
    requires ParsePayload(h.level, payload) == Ok((p, []))
    ensures ParseBody(MessageBody(h, u, payload)).Ok?
    ensures var (m, inner) := ParseBody(MessageBody(h, u, payload)).value;
            && inner == [] && m.header == h && m.usm.params == u && m.payload == p
            && m.usmOffset == |MessageBody(h, u, payload)| - |payload| - |EncodeUsm(u)|
            && m.usm.digestOffset == |EncodeUsm(u)| - |EncodeOctets(u.privParams)| - |u.authParams|
  {
    hide ParseConstructed, Tlv, ParseInteger, EncodeInteger, ParseOctets, EncodeOctets, ParseV3Header, ParseUsm,
      EncodeUsm, ParsePayload, HeaderFields;
    var a, b, c := EncodeInteger(VERSION_V3), Tlv(SEQUENCE, HeaderFields(h)), EncodeOctets(EncodeUsm(u));
    assert MessageBody(h, u, payload) == a + (b + (c + payload));
    TlvSize(SEQUENCE, HeaderFields(h));
    OctetStringSize(EncodeUsm(u));
    IntegerElement(VERSION_V3, b + (c + payload));
    V3HeaderRoundTrip(h, c + payload);
    OctetsElement(EncodeUsm(u), payload);
    UsmRoundTrip(u);
  }

  lemma FrontSize(h: V3Header, u: UsmParameters, payload: octets)
    requires |u.authParams| < 0x80
    ensures |Front(h, u, payload)|
         == |MessageOctets(h, u, payload)| - |EncodeOctets(u.privParams)| - |payload| - |u.authParams|
  {
    hide MessageOctets, Front, EncodeOctets;
    DigestPlaced(h, u, payload);
  }

  /**
   * Whatever a message carries, the decoder gives it back, and finds the digest exactly where the encoder put it: the
   * two offsets agree whatever length forms the three wrappings needed.
   */
  lemma MessageRoundTrip(h: V3Header, u: UsmParameters, payload: octets, p: Payload)
    requires h.securityModel == SECURITY_MODEL_USM && |MessageOctets(h, u, payload)| < LENGTH_LIMIT
    requires ParsePayload(h.level, payload) == Ok((p, [])) && |u.authParams| < 0x80
    ensures DecodeV3(MessageOctets(h, u, payload)) ==
            Ok(V3Message(h, u, p.scoped, p.encryptedPdu, |Front(h, u, payload)|))
  {
    hide ParseConstructed, Tlv, ParseBody, MessageBody, ParsePayload, Front, EncodeOctets, EncodeUsm;
    FrontSize(h, u, payload);
    var body := MessageBody(h, u, payload);
    TlvSize(SEQUENCE, body);
    ConstructedRoundTrip(SEQUENCE, body, []);
    assert Tlv(SEQUENCE, body) + [] == Tlv(SEQUENCE, body);
    BodyRoundTrip(h, u, payload, p);
  }

  lemma PayloadRoundTrip(c: Crypto, h: V3Header, u: UsmParameters, scoped: ScopedPdu, priv: PrivProtocol,
                         privKey: octets, salt: uint64) returns (p: Payload)
    requires PduEncodable(scoped.pdu) && Wrap(c, h, u, scoped, priv, privKey, salt).Ok?
    requires |Wrap(c, h, u, scoped, priv, privKey, salt).value.payload| < LENGTH_LIMIT
    ensures ParsePayload(h.level, Wrap(c, h, u, scoped, priv, privKey, salt).value.payload) == Ok((p, []))
    ensures !IsEncrypted(h.level) ==> p == Payload(scoped, [])
    ensures IsEncrypted(h.level) ==>
              && PrivEncrypt(c, priv, privKey, u.boots, u.time, EncodeScoped(scoped), salt).Ok?
              && p == Payload(NO_SCOPED_PDU,
                              PrivEncrypt(c, priv, privKey, u.boots, u.time, EncodeScoped(scoped),
                                          salt).value.ciphertext)
  {
    hide ParseScoped, EncodeScoped, ParseOctets, EncodeOctets, PduEncodable, PrivEncrypt;
    var payload := Wrap(c, h, u, scoped, priv, privKey, salt).value.payload;
    assert payload + [] == payload;
    if IsEncrypted(h.level) {
      var ct := PrivEncrypt(c, priv, privKey, u.boots, u.time, EncodeScoped(scoped), salt).value.ciphertext;
      OctetStringSize(ct);
      OctetsElement(ct, []);
      p := Payload(NO_SCOPED_PDU, ct);
    } else {
      ScopedRoundTrip(scoped, []);
      p := Payload(scoped, []);
    }
  }

  /** A digest right where the decoder looks for it, over a message that was blank there when it was computed. */
  lemma SignedVerifies(c: Crypto, h: V3Header, blank: UsmParameters, payload: octets, auth: AuthProtocol, key: octets,
                       digest: octets, m: V3Message)
    requires IsAuthenticated(h.level) && blank.authParams == Zeros(AuthParamsSize(auth))
    requires AuthDigest(c, auth, key, MessageOctets(h, blank, payload)) == Ok(digest)
    requires m.header == h && m.security.authParams == digest && |digest| < 0x80
    requires m.authParamsOffset == |Front(h, blank.(authParams := digest), payload)|
    ensures Verifies(c, MessageOctets(h, blank.(authParams := digest), payload), m, auth, key)
  {
    hide MessageOctets, Front, AuthDigest, Verifies, Zeros;
    DigestWidth(c, auth, key, MessageOctets(h, blank, payload));
    var signed := blank.(authParams := digest);
    SpliceIsSubstitution(h, signed, blank.authParams, payload);
    assert signed.(authParams := blank.authParams) == blank;
    VerifiesOver(c, MessageOctets(h, signed, payload), MessageOctets(h, blank, payload), m, auth, key);
  }

  lemma VerifiesOver(c: Crypto, datagram: octets, blank: octets, m: V3Message, auth: AuthProtocol, key: octets)
    requires IsAuthenticated(m.header.level) && |m.security.authParams| == AuthParamsSize(auth)
    requires m.authParamsOffset + AuthParamsSize(auth) <= |datagram|
    requires blank == datagram[..m.authParamsOffset] + Zeros(AuthParamsSize(auth))
                      + datagram[m.authParamsOffset + AuthParamsSize(auth)..]
    requires AuthDigest(c, auth, key, blank) == Ok(m.security.authParams)
    ensures Verifies(c, datagram, m, auth, key)
  {
    hide AuthDigest, AuthParamsSize, Zeros;
  }

  lemma DigestWidth(c: Crypto, auth: AuthProtocol, key: octets, message: octets)
    requires AuthDigest(c, auth, key, message).Ok?
    ensures |AuthDigest(c, auth, key, message).value| == AuthParamsSize(auth) < 0x80
  {
  }

  lemma ScopedNotEmpty(s: ScopedPdu)
    requires PduEncodable(s.pdu)
    ensures EncodeScoped(s) != []
  {
    TlvSize(SEQUENCE, ScopedFields(s));
  }

  /** The receiver of an encrypted message derives the sender's IV from the message itself and reads past no pad. */
  lemma SealedOpens(c: Crypto, u: UsmParameters, scoped: ScopedPdu, priv: PrivProtocol, privKey: octets, salt: uint64,
                    m: V3Message)
    requires Sound(c) && PduEncodable(scoped.pdu) && |EncodeScoped(scoped)| < LENGTH_LIMIT
    requires PrivEncrypt(c, priv, privKey, u.boots, u.time, EncodeScoped(scoped), salt).Ok?
    requires var s := PrivEncrypt(c, priv, privKey, u.boots, u.time, EncodeScoped(scoped), salt).value;
             && m.security.boots == u.boots && m.security.time == u.time && m.security.privParams == s.privParams
             && m.encryptedPdu == s.ciphertext
    ensures Decrypt(c, m, priv, privKey) == Ok(scoped)
  {
    hide ParseScoped, EncodeScoped, PduEncodable, PrivEncrypt, PrivDecrypt, Sound;
    var plaintext := EncodeScoped(scoped);
    ScopedNotEmpty(scoped);
    PrivacyRoundTrip(c, priv, privKey, u.boots, u.time, plaintext, salt);
    ScopedRoundTrip(scoped, if priv == Des then Padding(|plaintext|) else []);
  }

  /**
   * For every header, user, Engine, PDU, protocol and key, and any HMAC and cipher: what the encoder writes, the
   * decoder reads back field for field, the digest verifies under the same key, and an encrypted ScopedPDU opens to
   * the original.
   */
  lemma V3RoundTrip(c: Crypto, h: V3Header, u: UsmParameters, scoped: ScopedPdu, auth: AuthProtocol, key: octets,
                    priv: PrivProtocol, privKey: octets, salt: uint64)
    requires Sound(c) && PduEncodable(scoped.pdu) && h.securityModel == SECURITY_MODEL_USM
    requires EncodeV3(c, h, u, scoped, auth, key, priv, privKey, salt).Ok?
    requires |EncodeV3(c, h, u, scoped, auth, key, priv, privKey, salt).value| < LENGTH_LIMIT
    ensures var out := EncodeV3(c, h, u, scoped, auth, key, priv, privKey, salt).value;
            && DecodeV3(out).Ok?
            && var m := DecodeV3(out).value;
               && m.header == h
               && m.security.engineId == u.engineId && m.security.userName == u.userName
               && m.security.boots == u.boots && m.security.time == u.time
               && (IsAuthenticated(h.level) ==> Verifies(c, out, m, auth, key))
               && (!IsEncrypted(h.level) ==> m.scoped == scoped)
               && (IsEncrypted(h.level) ==> Decrypt(c, m, priv, privKey) == Ok(scoped))
               && (!IsEncrypted(h.level) ==> m.security.privParams == u.privParams)
               && (IsEncrypted(h.level) ==>
                     PrivEncrypt(c, priv, privKey, u.boots, u.time, EncodeScoped(scoped), salt)
                     == Ok(Sealed(m.security.privParams, m.encryptedPdu)))
  {
    hide Sound, PduEncodable, MessageOctets, DecodeV3, Front, AuthDigest, Wrap, EncodeScoped, PrivEncrypt, ParsePayload,
      Decrypt, Verifies;
    var e := Wrap(c, h, u, scoped, priv, privKey, salt).value;
    var width := if IsAuthenticated(h.level) then AuthParamsSize(auth) else 0;
    var blank := u.(authParams := Zeros(width), privParams := e.privParams);
    var sent := blank;
    if IsAuthenticated(h.level) {
      DigestWidth(c, auth, key, MessageOctets(h, blank, e.payload));
      sent := blank.(authParams := AuthDigest(c, auth, key, MessageOctets(h, blank, e.payload)).value);
    }
    var out := MessageOctets(h, sent, e.payload);
    PayloadInside(h, sent, e.payload);
    var p := PayloadRoundTrip(c, h, u, scoped, priv, privKey, salt);
    MessageRoundTrip(h, sent, e.payload, p);
    var m := DecodeV3(out).value;
    if IsAuthenticated(h.level) {
      SignedVerifies(c, h, blank, e.payload, auth, key, sent.authParams, m);
    }
    if IsEncrypted(h.level) {
      SealedFits(c, h, u, scoped, priv, privKey, salt);
      SealedOpens(c, u, scoped, priv, privKey, salt, m);
    } else {
      ClearEnvelope(c, h, u, scoped, priv, privKey, salt);
    }
  }

  /** Sent in the clear, the privacy parameters are the ones given. */
  lemma ClearEnvelope(c: Crypto, h: V3Header, u: UsmParameters, scoped: ScopedPdu, priv: PrivProtocol, privKey: octets,
                      salt: uint64)
    requires PduEncodable(scoped.pdu) && !IsEncrypted(h.level)
    ensures Wrap(c, h, u, scoped, priv, privKey, salt) == Ok(Envelope(u.privParams, EncodeScoped(scoped)))
  {
    hide EncodeScoped, PduEncodable;
  }

  lemma PayloadInside(h: V3Header, u: UsmParameters, payload: octets)
    ensures |payload| <= |MessageOctets(h, u, payload)|
  {
    hide MessageFront, EncodeOctets;
    TlvSize(SEQUENCE, MessageBody(h, u, payload));
  }

  /** The cipher does not shorten, so a ScopedPDU that fits encrypted fits in the clear. */
  lemma SealedFits(c: Crypto, h: V3Header, u: UsmParameters, scoped: ScopedPdu, priv: PrivProtocol, privKey: octets,
                   salt: uint64)
    requires Sound(c) && PduEncodable(scoped.pdu) && IsEncrypted(h.level)
    requires Wrap(c, h, u, scoped, priv, privKey, salt).Ok?
    ensures |EncodeScoped(scoped)| <= |Wrap(c, h, u, scoped, priv, privKey, salt).value.payload|
    ensures var s := PrivEncrypt(c, priv, privKey, u.boots, u.time, EncodeScoped(scoped), salt);
            s.Ok? && Wrap(c, h, u, scoped, priv, privKey, salt).value.privParams == s.value.privParams
  {
    hide EncodeScoped, PduEncodable, MakeIv, PrivParams, EncodeOctets;
    OctetStringSize(PrivEncrypt(c, priv, privKey, u.boots, u.time, EncodeScoped(scoped), salt).value.ciphertext);
  }

  //
  // Whatever is accepted can be sent back
  //

  lemma ParsedScoped(w: octets)
    requires ParseScoped(w).Ok?
    ensures PduEncodable(ParseScoped(w).value.0.pdu)
  {
    hide ParseConstructed, ParseOctets, ParsePdu, PduEncodable;
    var (content, _) := ParseConstructed(SEQUENCE, w).value;
    var (_, w1) := ParseOctets(content).value;
    var (_, w2) := ParseOctets(w1).value;
    ParsedPdu(w2);
  }

  /** The PDU of an accepted v3 message, decrypted or in the clear, names only OIDs that can be encoded. */
  lemma AcceptedV3IsEncodable(c: Crypto, datagram: octets, priv: PrivProtocol, privKey: octets)
    requires DecodeV3(datagram).Ok?
    ensures PduEncodable(DecodeV3(datagram).value.scoped.pdu)
    ensures var plaintext := Decrypt(c, DecodeV3(datagram).value, priv, privKey);
            plaintext.Ok? ==> PduEncodable(plaintext.value.pdu)
  {
    hide ParseConstructed, ParseInteger, ParseV3Header, ParseOctets, ParseUsm, ParseScoped, PrivDecrypt;
    var (content, _) := ParseConstructed(SEQUENCE, datagram).value;
    var (_, w1) := ParseInteger(content).value;
    var (header, w2) := ParseV3Header(w1).value;
    var (_, w3) := ParseOctets(w2).value;
    if !IsEncrypted(header.level) { ParsedScoped(w3); }
    var m := DecodeV3(datagram).value;
    var plain := PrivDecrypt(c, priv, privKey, m.security.boots, m.security.time, m.security.privParams,
                             m.encryptedPdu);
    if plain.Ok? && ParseScoped(plain.value).Ok? { ParsedScoped(plain.value); }
  }
}
