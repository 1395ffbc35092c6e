/**
 * The SNMPv3 message: three wrappings around the security parameters, a digest written into the finished octets, and a
 * decoder that finds the digest again through a Reader nested inside a Reader.
 */
module V3Messages {
  import opened Octets
  import opened Errors
  import opened BerGrammar
  import opened BerRoundTrip
  import opened BerWriter
  import opened Pdus
  import opened Usm

  const VERSION_V3: int32 := 3
  const SECURITY_MODEL_USM: int32 := 3

  datatype V3Header = V3Header(msgId: int32, maxSize: int32, level: SecurityLevel, reportable: bool,
                               securityModel: int32)

  datatype UsmParameters = UsmParameters(
    engineId: octets, boots: int32, time: int32, userName: octets, authParams: octets, privParams: octets)

  datatype ScopedPdu = ScopedPdu(contextEngineId: octets, contextName: octets, pdu: Pdu)

  /** What a decoded message holds for its ScopedPDU until it has been decrypted. */
  const NO_SCOPED_PDU: ScopedPdu := ScopedPdu([], [], Pdu(Get, 0, 0, 0, []))

  datatype V3Message = V3Message(
    header: V3Header, security: UsmParameters, scoped: ScopedPdu, encryptedPdu: octets, authParamsOffset: nat)

  function LevelBits(l: SecurityLevel): byte {
    match l
    case NoAuthNoPriv => 0
    case AuthNoPriv => 1
    case AuthPriv => 3
  }

  function EncodeFlags(h: V3Header): byte {
    LevelBits(h.level) + if h.reportable then 4 else 0
  }

  /** The level in the low two bits, where privacy without authentication is none. */
  function LevelOf(flags: byte): Option<SecurityLevel> {
    if flags % 4 == 0 then Some(NoAuthNoPriv)
    else if flags % 4 == 1 then Some(AuthNoPriv)
    else if flags % 4 == 3 then Some(AuthPriv)
    else None
  }

  //
  // The octets of a message
  //

  function ScopedFields(s: ScopedPdu): octets
    requires PduEncodable(s.pdu)
  {
    EncodeOctets(s.contextEngineId) + EncodeOctets(s.contextName) + EncodePdu(s.pdu)
  }

  function EncodeScoped(s: ScopedPdu): octets
    requires PduEncodable(s.pdu)
  {
    Tlv(SEQUENCE, ScopedFields(s))
  }

  function HeaderFields(h: V3Header): octets {
    EncodeInteger(h.msgId) + EncodeInteger(h.maxSize) + EncodeOctets([EncodeFlags(h)]) + EncodeInteger(h.securityModel)
  }

  /** The security parameters in front of the digest. */
  function UsmHead(u: UsmParameters): octets {
    EncodeOctets(u.engineId) + EncodeInteger(u.boots) + EncodeInteger(u.time) + EncodeOctets(u.userName)
  }

  function UsmContent(u: UsmParameters): octets {
    UsmHead(u) + EncodeOctets(u.authParams) + EncodeOctets(u.privParams)
  }

  function EncodeUsm(u: UsmParameters): octets {
    Tlv(SEQUENCE, UsmContent(u))
  }

  function MessageFront(h: V3Header): octets {
    EncodeInteger(VERSION_V3) + Tlv(SEQUENCE, HeaderFields(h))
  }

  function MessageBody(h: V3Header, u: UsmParameters, payload: octets): octets {
    MessageFront(h) + EncodeOctets(EncodeUsm(u)) + payload
  }

  /** A whole message, with whatever digest its security parameters name. */
  function MessageOctets(h: V3Header, u: UsmParameters, payload: octets): octets {
    Tlv(SEQUENCE, MessageBody(h, u, payload))
  }

  function Zeros(n: nat): (z: octets)
    ensures |z| == n
  {
    seq(n, _ => 0)
  }

  datatype Envelope = Envelope(privParams: octets, payload: octets)

  /** The ScopedPDU in the clear, or encrypted in an OCTET STRING with the salt that went into it. */
  function Wrap(c: Crypto, h: V3Header, u: UsmParameters, scoped: ScopedPdu, priv: PrivProtocol, privKey: octets,
                salt: uint64): Result<Envelope>
    requires PduEncodable(scoped.pdu)
  {
    if !IsEncrypted(h.level) then Ok(Envelope(u.privParams, EncodeScoped(scoped)))
    else
      var s :- PrivEncrypt(c, priv, privKey, u.boots, u.time, EncodeScoped(scoped), salt);
      Ok(Envelope(s.privParams, EncodeOctets(s.ciphertext)))
  }

  /** The message whose digest field holds the HMAC of the same message with that field blank. */
  function EncodeV3(c: Crypto, h: V3Header, u: UsmParameters, scoped: ScopedPdu, auth: AuthProtocol, key: octets,
                    priv: PrivProtocol, privKey: octets, salt: uint64): Result<octets>
    requires PduEncodable(scoped.pdu)
  {
    if IsEncrypted(h.level) && priv == NoPriv then Err(UnsupportedPrivProtocol)
    else if IsAuthenticated(h.level) && auth == NoAuth then Err(UnsupportedAuthProtocol)
    else
      var e :- Wrap(c, h, u, scoped, priv, privKey, salt);
      var width := if IsAuthenticated(h.level) then AuthParamsSize(auth) else 0;
      var blank := u.(authParams := Zeros(width), privParams := e.privParams);
      if !IsAuthenticated(h.level) then Ok(MessageOctets(h, blank, e.payload))
      else
        var digest :- AuthDigest(c, auth, key, MessageOctets(h, blank, e.payload));
        Ok(MessageOctets(h, blank.(authParams := digest), e.payload))
  }

  //
  // Decoding
  //

  function ParseScopedFields(w: octets): Result<(ScopedPdu, octets)> {
    var (engine, w1) :- ParseOctets(w);
    var (context, w2) :- ParseOctets(w1);
    var (pdu, w3) :- ParsePdu(w2);
    Ok((ScopedPdu(engine, context, pdu), w3))
  }

  function ParseScoped(w: octets): Result<(ScopedPdu, octets)> {
    var (content, rest) :- ParseConstructed(SEQUENCE, w);
    var (s, inner) :- ParseScopedFields(content);
    Closed(s, inner, rest)
  }

  function ParseHeaderFields(w: octets): Result<(V3Header, octets)> {
    var (msgId, w1) :- ParseInteger(w);
    var (maxSize, w2) :- ParseInteger(w1);
    var (flags, w3) :- ParseOctets(w2);
    var (model, w4) :- ParseInteger(w3);
    if |flags| != 1 then Err(BadMessageFlags)
    else
      match LevelOf(flags[0])
      case None => Err(BadMessageFlags)
      case Some(level) => Ok((V3Header(msgId, maxSize, level, flags[0] / 4 % 2 == 1, model), w4))
  }

  function ParseV3Header(w: octets): Result<(V3Header, octets)> {
    var (content, rest) :- ParseConstructed(SEQUENCE, w);
    var (h, inner) :- ParseHeaderFields(content);
    if inner != [] then Err(TrailingData)
    else if h.securityModel != SECURITY_MODEL_USM then Err(UnsupportedSecurityModel)
    else Ok((h, rest))
  }

  datatype UsmFields = UsmFields(params: UsmParameters, afterDigest: octets)

  /** The six fields, with what is left right after the digest. */
  function ParseUsmFields(w: octets): (r: Result<(UsmFields, octets)>)
    ensures r.Ok? ==> |r.value.0.params.authParams| + |r.value.0.afterDigest| <= |w|
  {
    var (engineId, w1) :- ParseOctets(w);
    var (boots, w2) :- ParseInteger(w1);
    var (time, w3) :- ParseInteger(w2);
    var (userName, w4) :- ParseOctets(w3);
    var (authParams, w5) :- ParseOctets(w4);
    var (privParams, w6) :- ParseOctets(w5);
    Ok((UsmFields(UsmParameters(engineId, boots, time, userName, authParams, privParams), w5), w6))
  }

  datatype LocatedUsm = LocatedUsm(params: UsmParameters, digestOffset: nat)

  /** The security parameters, and where in them the digest starts. */
  function ParseUsm(w: octets): Result<LocatedUsm> {
    var (content, rest) :- ParseConstructed(SEQUENCE, w);
    var (fields, inner) :- ParseUsmFields(content);
    if inner != [] || rest != [] then Err(TrailingData)
    else Ok(LocatedUsm(fields.params, |w| - |fields.afterDigest| - |fields.params.authParams|))
  }

  datatype Payload = Payload(scoped: ScopedPdu, encryptedPdu: octets)

  function ParsePayload(level: SecurityLevel, w: octets): Result<(Payload, octets)> {
    if IsEncrypted(level) then
      var (encrypted, rest) :- ParseOctets(w);
      Ok((Payload(NO_SCOPED_PDU, encrypted), rest))
    else
      var (scoped, rest) :- ParseScoped(w);
      Ok((Payload(scoped, []), rest))
  }

  datatype RawMessage = RawMessage(header: V3Header, usm: LocatedUsm, usmOffset: nat, payload: Payload)

  function ParseBody(w: octets): Result<(RawMessage, octets)> {
    var (version, w1) :- ParseInteger(w);
    if version != VERSION_V3 then Err(BadVersion)
    else
      var (header, w2) :- ParseV3Header(w1);
      var (params, w3) :- ParseOctets(w2);
      var usm :- ParseUsm(params);
      var (payload, w4) :- ParsePayload(header.level, w3);
      Ok((RawMessage(header, usm, |w| - |w3| - |params|, payload), w4))
  }

  function DecodeV3(datagram: octets): Result<V3Message> {
    var (content, rest) :- ParseConstructed(SEQUENCE, datagram);
    var (m, inner) :- ParseBody(content);
    if inner != [] || rest != [] then Err(TrailingData)
    else
      var offset := |datagram| - |content| + m.usmOffset + m.usm.digestOffset;
      Ok(V3Message(m.header, m.usm.params, m.payload.scoped, m.payload.encryptedPdu, offset))
  }

  /** The ScopedPDU of an encrypted message. What follows it is the cipher's pad, and is not looked at. */
  function Decrypt(c: Crypto, msg: V3Message, priv: PrivProtocol, privKey: octets): Result<ScopedPdu> {
    var plain :- PrivDecrypt(c, priv, privKey, msg.security.boots, msg.security.time, msg.security.privParams,
                             msg.encryptedPdu);
    match ParseScoped(plain)
    case Ok((scoped, _)) => Ok(scoped)
    case Err(_) => Err(DecryptionFailed)
  }

  /** The octets with the digest field zeroed. */
  function Blanked(datagram: octets, offset: nat, n: nat): octets
    requires offset + n <= |datagram|
  {
    datagram[..offset] + Zeros(n) + datagram[offset + n..]
  }

  /** Whether the digest a message carries is the one its octets, with the digest field zeroed, have under the key. */
  predicate Verifies(c: Crypto, datagram: octets, msg: V3Message, auth: AuthProtocol, key: octets) {
    && IsAuthenticated(msg.header.level)
    && |msg.security.authParams| == AuthParamsSize(auth)
    && msg.authParamsOffset + |msg.security.authParams| <= |datagram|
    && AuthDigest(c, auth, key, Blanked(datagram, msg.authParamsOffset, |msg.security.authParams|))
       == Ok(msg.security.authParams)
  }

  //
  // Where the digest is
  //

  function TlvHead(t: Tag, size: nat): octets {
    [t] + LengthOctets(size)
  }

  /** Everything in front of the digest: it depends on the digest only through its width. */
  function Front(h: V3Header, u: UsmParameters, payload: octets): octets
    requires |u.authParams| < 0x80
  {
    TlvHead(SEQUENCE, |MessageBody(h, u, payload)|) + MessageFront(h)
    + TlvHead(OCTET_STRING, |EncodeUsm(u)|) + TlvHead(SEQUENCE, |UsmContent(u)|)
    + UsmHead(u) + [OCTET_STRING, |u.authParams|]
  }

  function Back(u: UsmParameters, payload: octets): octets {
    EncodeOctets(u.privParams) + payload
  }

  lemma Regroup(a: octets, m: octets, b: octets, c: octets, x: octets, y: octets, d: octets, p: octets, q: octets)
    ensures a + (m + (b + (c + (x + (y + d) + p))) + q) == (a + m + b + c + x + y) + d + (p + q)
  {
    var inner, tail := x + y, p + q;
    assert x + (y + d) + p == inner + d + p;
    assert c + (inner + d + p) == c + inner + d + p;
    assert b + (c + inner + d + p) == b + c + inner + d + p;
    assert m + (b + c + inner + d + p) + q == m + b + c + inner + d + tail;
    assert a + (m + b + c + inner + d + tail) == (a + m + b + c + x + y) + d + tail;
  }

  lemma TlvSplits(t: Tag, content: octets)
    ensures Tlv(t, content) == TlvHead(t, |content|) + content
  {
  }

  lemma ShortOctets(bs: octets)
    requires |bs| < 0x80
    ensures EncodeOctets(bs) == [OCTET_STRING, |bs|] + bs
  {
  }

  /** Whatever length forms the three wrappings need, the digest stands between a front and a back. */
  lemma DigestPlaced(h: V3Header, u: UsmParameters, payload: octets)
    requires |u.authParams| < 0x80
    ensures MessageOctets(h, u, payload) == Front(h, u, payload) + u.authParams + Back(u, payload)
  {
    hide Tlv, TlvHead, MessageFront, UsmHead, EncodeOctets;
    TlvSplits(SEQUENCE, MessageBody(h, u, payload));
    TlvSplits(SEQUENCE, UsmContent(u));
    OctetsSplit(EncodeUsm(u));
    ShortOctets(u.authParams);
    Regroup(TlvHead(SEQUENCE, |MessageBody(h, u, payload)|), MessageFront(h), TlvHead(OCTET_STRING, |EncodeUsm(u)|),
            TlvHead(SEQUENCE, |UsmContent(u)|), UsmHead(u), [OCTET_STRING, |u.authParams|], u.authParams,
            EncodeOctets(u.privParams), payload);
  }

  lemma OctetsSplit(bs: octets)
    ensures EncodeOctets(bs) == TlvHead(OCTET_STRING, |bs|) + bs
  {
    TlvSplits(OCTET_STRING, bs);
  }

  lemma OctetsSize(a: octets, b: octets)
    requires |a| == |b|
    ensures |EncodeOctets(a)| == |EncodeOctets(b)|
  {
  }

  /** Changing a digest for another of the same width moves nothing. */
  lemma FrontIgnoresDigest(h: V3Header, u: UsmParameters, digest: octets, payload: octets)
    requires |u.authParams| == |digest| < 0x80
    ensures Front(h, u.(authParams := digest), payload) == Front(h, u, payload)
    ensures Back(u.(authParams := digest), payload) == Back(u, payload)
  {
    hide Tlv, TlvHead, MessageFront, EncodeOctets, EncodeInteger;
    var v := u.(authParams := digest);
    OctetsSize(u.authParams, digest);
    assert |UsmContent(u)| == |UsmContent(v)|;
    TlvSizes(SEQUENCE, UsmContent(u), UsmContent(v));
    OctetsSize(EncodeUsm(u), EncodeUsm(v));
  }

  lemma TlvSizes(t: Tag, a: octets, b: octets)
    requires |a| == |b|
    ensures |Tlv(t, a)| == |Tlv(t, b)|
  {
  }

  lemma Spliced(front: octets, a: octets, b: octets, back: octets)
    requires |a| == |b|
    ensures var m := front + a + back;
            m[..|front|] + b + m[|front| + |a|..] == front + b + back
  {
  }

  /** Overwriting the digest field in place gives the message that carries the other digest. */
  lemma SpliceIsSubstitution(h: V3Header, u: UsmParameters, digest: octets, payload: octets)
    requires |u.authParams| == |digest| < 0x80
    ensures var out, at := MessageOctets(h, u, payload), |Front(h, u, payload)|;
            && at + |digest| <= |out|
            && out[..at] + digest + out[at + |digest|..] == MessageOctets(h, u.(authParams := digest), payload)
  {
    hide MessageOctets, Front, Back;
    DigestPlaced(h, u, payload);
    DigestPlaced(h, u.(authParams := digest), payload);
    FrontIgnoresDigest(h, u, digest, payload);
    Spliced(Front(h, u, payload), u.authParams, digest, Back(u, payload));
  }

  /** The offset the encoder carries: two octets into the digest's element, moved along by each wrapping's growth. */
  lemma RunningOffset(h: V3Header, u: UsmParameters, payload: octets)
    requires |u.authParams| < 0x80
    ensures |Front(h, u, payload)| ==
            (|UsmHead(u)| + 2)
            + (|EncodeUsm(u)| - |UsmContent(u)|)
            + (|MessageFront(h)| + |EncodeOctets(EncodeUsm(u))| - |EncodeUsm(u)|)
            + (|MessageOctets(h, u, payload)| - |MessageBody(h, u, payload)|)
  {
    hide Tlv, TlvHead, MessageFront, UsmHead, EncodeOctets, UsmContent, MessageBody;
    TlvSplits(SEQUENCE, MessageBody(h, u, payload));
    TlvSplits(SEQUENCE, UsmContent(u));
    OctetsSplit(EncodeUsm(u));
  }

  //
  // The code
  //

  /** The security parameters with a blank digest, and where that blank is. */
  method EncodeUsmContent(w: Writer, u: UsmParameters, authWidth: nat, privParams: octets) returns (authOffset: nat)
    requires w.buf == [] && w.ec == None
    modifies w
    ensures w.ec == None && w.buf == UsmContent(u.(authParams := Zeros(authWidth), privParams := privParams))
    ensures authOffset == |UsmHead(u)| + 2
  {
    hide Tlv, EncodeInteger;
    w.Elementary(OCTET_STRING, u.engineId);
    w.Integer(u.boots);
    w.Integer(u.time);
    w.Elementary(OCTET_STRING, u.userName);
    FourParts([], EncodeOctets(u.engineId), EncodeInteger(u.boots), EncodeInteger(u.time), EncodeOctets(u.userName));
    var blank := Zeros(authWidth);
    authOffset := |w.buf| + 2;
    w.Elementary(OCTET_STRING, blank);
    w.Elementary(OCTET_STRING, privParams);
  }

  lemma ThreeParts(open: octets, a: octets, b: octets, c: octets)
    ensures var all := open + a + b + c;
            all == open + (a + b + c) && all[|open|..] == a + b + c
  {
  }

  method WriteScopedPdu(w: Writer, s: ScopedPdu)
    modifies w
    ensures w.Extended()
    ensures old(w.ec).None? && PduEncodable(s.pdu) ==> w.ec == None && w.buf == old(w.buf) + EncodeScoped(s)
    ensures old(w.ec).None? && !PduEncodable(s.pdu) ==> w.ec == Some(OidNotEncodable)
  {
    hide Tlv, EncodePdu, PduEncodable;
    var scope := w.BeginConstructed(SEQUENCE);
    ghost var open := w.buf;
    w.Elementary(OCTET_STRING, s.contextEngineId);
    w.Elementary(OCTET_STRING, s.contextName);
    WritePdu(w, s.pdu);
    if old(w.ec).None? && PduEncodable(s.pdu) {
      ThreeParts(open, EncodeOctets(s.contextEngineId), EncodeOctets(s.contextName), EncodePdu(s.pdu));
    }
    Placed(old(w.buf), SEQUENCE, w.buf);
    w.CloseScope(scope);
  }

  /** msgGlobalData, through a scope. */
  method WriteGlobalData(w: Writer, h: V3Header)
    requires w.ec == None
    modifies w
    ensures w.ec == None && w.buf == old(w.buf) + Tlv(SEQUENCE, HeaderFields(h))
  {
    hide Tlv, EncodeInteger, EncodeFlags;
    var scope := w.BeginConstructed(SEQUENCE);
    ghost var open := w.buf;
    w.Integer(h.msgId);
    w.Integer(h.maxSize);
    w.Elementary(OCTET_STRING, [EncodeFlags(h)]);
    w.Integer(h.securityModel);
    FourParts(open, EncodeInteger(h.msgId), EncodeInteger(h.maxSize), EncodeOctets([EncodeFlags(h)]),
              EncodeInteger(h.securityModel));
    Placed(old(w.buf), SEQUENCE, w.buf);
    w.CloseScope(scope);
  }

  method WriteFront(w: Writer, h: V3Header)
    requires w.buf == [] && w.ec == None
    modifies w
    ensures w.ec == None && w.buf == MessageFront(h)
  {
    hide Tlv, EncodeInteger, HeaderFields;
    w.Integer(VERSION_V3);
    WriteGlobalData(w, h);
  }

  /** Overwrites part of a buffer, octet by octet. */
  method CopyOver(buf: octets, at: nat, bytes: octets) returns (out: octets)
    requires at + |bytes| <= |buf|
    ensures out == buf[..at] + bytes + buf[at + |bytes|..]
  {
    out := buf;
    var i := 0;
    while i < |bytes|
      invariant 0 <= i <= |bytes|
      invariant out == buf[..at] + bytes[..i] + buf[at + i..]
    {
      Patched(buf, at, bytes, i);
      out := out[at + i := bytes[i]];
      i := i + 1;
    }
    assert bytes[..i] == bytes;
  }

  /**
   * How a PDU with an OID that cannot be encoded is refused: for that, unless encrypting what was written fails
   * first.
   */
  ghost predicate RefusedWith(c: Crypto, h: V3Header, u: UsmParameters, priv: PrivProtocol, privKey: octets,
                              salt: uint64, fault: Errc)
  {
    if !IsEncrypted(h.level) then fault == OidNotEncodable
    else exists partial :: fault == SealingFault(PrivEncrypt(c, priv, privKey, u.boots, u.time, partial, salt))
  }

  function SealingFault(sealing: Result<Sealed>): Errc {
    if sealing.Err? then sealing.error else OidNotEncodable
  }

  /** The payload: encrypted first, because the salt it picks travels in the security parameters. */
  method WrapScopedPdu(c: Crypto, salts: SaltCounter, h: V3Header, u: UsmParameters, scoped: ScopedPdu,
                       priv: PrivProtocol, privKey: octets) returns (r: Result<Envelope>)
    modifies salts
    ensures PduEncodable(scoped.pdu) ==> r == Wrap(c, h, u, scoped, priv, privKey, old(salts.counter))
    ensures !PduEncodable(scoped.pdu) ==>
              r.Err? && RefusedWith(c, h, u, priv, privKey, old(salts.counter), r.error)
  {
    hide Tlv, EncodeScoped, PduEncodable, EncodeOctets, PrivEncrypt;
    var scopedContent := new Writer();
    WriteScopedPdu(scopedContent, scoped);
    assert PduEncodable(scoped.pdu) ==> scopedContent.buf == EncodeScoped(scoped);
    if !IsEncrypted(h.level) {
      if scopedContent.ec.Some? { return Err(scopedContent.ec.value); }
      return Ok(Envelope(u.privParams, scopedContent.buf));
    }
    var s := salts.Encrypt(c, priv, privKey, u.boots, u.time, scopedContent.buf);
    assert SealingFault(s)
        == SealingFault(PrivEncrypt(c, priv, privKey, u.boots, u.time, scopedContent.buf, old(salts.counter)));
    if s.Err? { return Err(s.error); }
    if scopedContent.ec.Some? { return Err(scopedContent.ec.value); }
    var sealed := new Writer();
    sealed.Elementary(OCTET_STRING, s.value.ciphertext);
    OctetsAre(s.value.ciphertext);
    return Ok(Envelope(s.value.privParams, sealed.buf));
  }

  /**
   * Each layer is built in its own buffer and wrapped, the offset of the blank digest moving along with each wrapping;
   * the digest of the finished octets then overwrites the blank.
   */
  method EncodeV3Message(c: Crypto, salts: SaltCounter, h: V3Header, u: UsmParameters, scoped: ScopedPdu,
                         auth: AuthProtocol, key: octets, priv: PrivProtocol, privKey: octets)
    returns (r: Result<octets>)
    modifies salts
    ensures PduEncodable(scoped.pdu) ==>
              r == EncodeV3(c, h, u, scoped, auth, key, priv, privKey, old(salts.counter))
    ensures !PduEncodable(scoped.pdu) ==> r.Err?
    ensures !PduEncodable(scoped.pdu) ==>
              if IsEncrypted(h.level) && priv == NoPriv then r.error == UnsupportedPrivProtocol
              else if IsAuthenticated(h.level) && auth == NoAuth then r.error == UnsupportedAuthProtocol
              else RefusedWith(c, h, u, priv, privKey, old(salts.counter), r.error)
  {
    hide PduEncodable, MessageOctets, AuthDigest, Front, Wrap, Zeros, RefusedWith;
    if IsEncrypted(h.level) && priv == NoPriv { return Err(UnsupportedPrivProtocol); }
    if IsAuthenticated(h.level) && auth == NoAuth { return Err(UnsupportedAuthProtocol); }
    var authWidth := if IsAuthenticated(h.level) then AuthParamsSize(auth) else 0;
    var e := WrapScopedPdu(c, salts, h, u, scoped, priv, privKey);
    if e.Err? { return Err(e.error); }
    var out, authOffset := Assemble(h, u, authWidth, e.value.privParams, e.value.payload);
    if !IsAuthenticated(h.level) { return Ok(out); }
    r := Sign(c, h, u.(authParams := Zeros(authWidth), privParams := e.value.privParams), e.value.payload, auth, key,
              out, authOffset);
  }

  /** The digest of a finished message, over its blank. */
  method Sign(c: Crypto, ghost h: V3Header, ghost blank: UsmParameters, ghost payload: octets, auth: AuthProtocol,
              key: octets, out: octets, authOffset: nat) returns (r: Result<octets>)
    requires |blank.authParams| == AuthParamsSize(auth)
    requires out == MessageOctets(h, blank, payload) && authOffset == |Front(h, blank, payload)|
    ensures match AuthDigest(c, auth, key, out)
            case Ok(digest) => r == Ok(MessageOctets(h, blank.(authParams := digest), payload))
            case Err(e) => r == Err(e)
  {
    hide MessageOctets, AuthDigest, Front;
    var digest := AuthDigest(c, auth, key, out);
    if digest.Err? { return Err(digest.error); }
    SpliceIsSubstitution(h, blank, digest.value, payload);
    var signed := CopyOver(out, authOffset, digest.value);
    return Ok(signed);
  }

  lemma OctetsAre(bs: octets)
    ensures [] + Tlv(OCTET_STRING, bs) == EncodeOctets(bs)
  {
  }

  /** The three wrappings, with the offset of the blank digest in the finished octets. */
  method Assemble(h: V3Header, u: UsmParameters, authWidth: nat, privParams: octets, payload: octets)
    returns (out: octets, authOffset: nat)
    requires authWidth < 0x80
    ensures var blank := u.(authParams := Zeros(authWidth), privParams := privParams);
            out == MessageOctets(h, blank, payload) && authOffset == |Front(h, blank, payload)|
  {
    hide Tlv, MessageFront, UsmHead, UsmContent, Front;
    ghost var blank := u.(authParams := Zeros(authWidth), privParams := privParams);
    var usmContent := new Writer();
    authOffset := EncodeUsmContent(usmContent, u, authWidth, privParams);
    var usmParams := new Writer();
    usmParams.Elementary(SEQUENCE, usmContent.buf);
    assert usmParams.buf == EncodeUsm(blank);
    TlvSize(SEQUENCE, UsmContent(blank));
    authOffset := authOffset + (|usmParams.buf| - |usmContent.buf|);

    var body := new Writer();
    WriteFront(body, h);
    body.Elementary(OCTET_STRING, usmParams.buf);
    OctetsAtLeast(EncodeUsm(blank));
    authOffset := authOffset + (|body.buf| - |usmParams.buf|);
    body.Raw(payload);
    assert body.buf == MessageBody(h, blank, payload);

    var w := new Writer();
    w.Elementary(SEQUENCE, body.buf);
    assert w.buf == MessageOctets(h, blank, payload);
    TlvSize(SEQUENCE, MessageBody(h, blank, payload));
    authOffset := authOffset + (|w.buf| - |body.buf|);
    RunningOffset(h, blank, payload);
    UsmHeadIgnores(u, Zeros(authWidth), privParams);
    out := w.buf;
  }

  lemma OctetsAtLeast(bs: octets)
    ensures |EncodeOctets(bs)| >= |bs| + 2
  {
    TlvSize(OCTET_STRING, bs);
  }

  lemma UsmHeadIgnores(u: UsmParameters, authParams: octets, privParams: octets)
    ensures UsmHead(u.(authParams := authParams, privParams := privParams)) == UsmHead(u)
  {
  }
}
