/** Which fault the message decoders find, told from the octets. */
module MessageRefusals {
  import opened Octets
  import opened Errors
  import opened BerGrammar
  import opened BerWire
  import opened Pdus
  import opened Usm
  import opened V3Messages
  import opened MessageWire

  /** Nothing where a PDU should be, one of an unknown type, and one with more than its fields in it. */
  lemma PduRefused(w: octets, p: Pdu, content: octets, extra: octets, rest: octets)
    ensures ParsePdu([]) == Err(Truncated)
    ensures w != [] && w[0] !in {0xA0, 0xA1, 0xA2, 0xA3, 0xA5, 0xA8} ==> ParsePdu(w) == Err(UnexpectedPduType)
    ensures ParsePduFields(p.kind, content) == Ok((p, extra)) && extra != []
            && Element(w, PduIdentifier(p.kind), content) ==>
              ParsePdu(w + rest) == Err(TrailingData)
  {
    hide ParseConstructed, ParsePduFields, Element, Taken;
    if Element(w, PduIdentifier(p.kind), content) {
      ElementStarts(w, PduIdentifier(p.kind), content);
      TakenIs(w, rest);
      ConstructedReads(PduIdentifier(p.kind), w + rest, content, rest);
    }
  }

  /** The fields of a PDU with something after them. */
  lemma FieldsWithMore(p: Pdu, a: octets, b: octets, c: octets, d: octets, extra: octets)
    requires PduParts(a + b + c + d, p, a, b, c, d)
    ensures ParsePduFields(p.kind, a + b + c + (d + extra)) == Ok((p, extra))
  {
    hide ParseInteger, ParseVarbindList, SignedOctets, VarbindListOctets, Taken;
    Four(a, b, c, d + extra);
    TakenIs(d, extra);
    var w1, w2 := b + c + (d + extra), c + (d + extra);
    IntegerReads(a + b + c + (d + extra), p.requestId, w1);
    IntegerReads(w1, p.errorStatus, w2);
    IntegerReads(w2, p.errorIndex, d + extra);
    VarbindListReads(d + extra, p.varbinds, extra);
  }

  /** Another version, whatever follows the community, and a v2c message with anything after it. */
  lemma V2cRefused(d: octets, a: octets, b: octets, more: octets, version: int32, community: octets, junk: octets)
    requires Element(d, 0x30, a + (b + more)) && SignedOctets(a, 0x02, version) && Element(b, 0x04, community)
    requires version != 1
    ensures DecodeV2c(d + junk) == Err(BadVersion)
  {
    hide ParseConstructed, ParseInteger, ParseOctets, ParsePdu, Element, SignedOctets, Taken;
    TakenIs(d, junk);
    ConstructedReads(0x30, d + junk, a + (b + more), junk);
    TakenIs(a, b + more);
    IntegerReads(a + (b + more), version, b + more);
    TakenIs(b, more);
    OctetsRead(b + more, community, more);
  }

  lemma V2cTrailing(d: octets, m: V2cMessage, junk: octets)
    requires V2cOctets(d, m) && junk != []
    ensures DecodeV2c(d + junk) == Err(TrailingData)
  {
    hide ParseConstructed, ParseV2cFields, V2cParts, Element, Taken;
    var a: octets, b: octets, c: octets, content: octets :| V2cParts(content, m, a, b, c) && Element(d, 0x30, content);
    TakenIs(d, junk);
    ConstructedReads(0x30, d + junk, content, junk);
    V2cComplete(content, m, a, b, c);
  }

  /** A v3 message of another version, whatever follows. */
  lemma V3Refused(d: octets, a: octets, more: octets, version: int32, junk: octets)
    requires Element(d, 0x30, a + more) && SignedOctets(a, 0x02, version) && version != 3
    ensures DecodeV3(d + junk) == Err(BadVersion)
  {
    hide ParseConstructed, ParseInteger, ParseV3Header, ParseOctets, ParseUsm, ParsePayload, Element, SignedOctets,
         Taken;
    TakenIs(d, junk);
    ConstructedReads(0x30, d + junk, a + more, junk);
    TakenIs(a, more);
    IntegerReads(a + more, version, more);
  }

  lemma V3Trailing(d: octets, m: V3Message, junk: octets)
    requires V3Octets(d, m) && junk != []
    ensures DecodeV3(d + junk) == Err(TrailingData)
  {
    hide ParseConstructed, ParseBody, V3Parts, Element, Taken;
    var a: octets, b: octets, c: octets, e: octets, params: octets, tail: nat, content: octets :|
      && V3Parts(content, m, a, b, c, e, params, tail) && Element(d, 0x30, content)
      && m.authParamsOffset + |m.security.authParams| + tail + |e| == |d|;
    TakenIs(d, junk);
    ConstructedReads(0x30, d + junk, content, junk);
    BodyComplete(content, m, a, b, c, e, params, tail);
  }

  /** Flags that are not one octet or claim privacy without authentication, and a security model that is not USM. */
  lemma HeaderRefused(w: octets, a: octets, b: octets, c: octets, d: octets, msgId: int32, maxSize: int32,
                      flags: octets,
                      model: int32, rest: octets)
    requires Element(w, 0x30, a + b + c + d) && SignedOctets(a, 0x02, msgId) && SignedOctets(b, 0x02, maxSize)
    requires Element(c, 0x04, flags) && SignedOctets(d, 0x02, model)
    ensures |flags| != 1 || flags[0] % 4 == 2 ==> ParseV3Header(w + rest) == Err(BadMessageFlags)
    ensures |flags| == 1 && flags[0] % 4 != 2 && model != 3 ==> ParseV3Header(w + rest) == Err(UnsupportedSecurityModel)
  {
    hide ParseConstructed, ParseInteger, ParseOctets, Element, SignedOctets, Taken;
    TakenIs(w, rest);
    ConstructedReads(0x30, w + rest, a + b + c + d, rest);
    Four(a, b, c, d);
    IntegerReads(a + b + c + d, msgId, b + c + d);
    IntegerReads(b + c + d, maxSize, c + d);
    OctetsRead(c + d, flags, d);
    IntegerReads(d, model, []);
  }

  /** A ScopedPDU stands in front of the plaintext, and the rest is padding. */
  ghost predicate OpensTo(plain: octets, s: ScopedPdu) {
    exists rest: octets :: plain == Taken(plain, rest) + rest && ScopedOctets(Taken(plain, rest), s)
  }

  /** What an encrypted message opens to: the cipher's own fault, the ScopedPDU in front, or that there is none. */
  lemma OpeningMeans(c: Crypto, msg: V3Message, priv: PrivProtocol, privKey: octets)
    ensures var r, u := Decrypt(c, msg, priv, privKey), msg.security;
            var plain := PrivDecrypt(c, priv, privKey, u.boots, u.time, u.privParams, msg.encryptedPdu);
            && (plain.Err? ==> r == Err(plain.error))
            && (plain.Ok? ==> (forall s :: r == Ok(s) <==> OpensTo(plain.value, s)))
            && (plain.Ok? && r.Err? ==> r == Err(DecryptionFailed))
  {
    hide PrivDecrypt, ParseScoped, ScopedOctets, Taken;
    var u := msg.security;
    var plain := PrivDecrypt(c, priv, privKey, u.boots, u.time, u.privParams, msg.encryptedPdu);
    if plain.Ok? {
      forall s ensures Decrypt(c, msg, priv, privKey) == Ok(s) <==> OpensTo(plain.value, s) {
        if Decrypt(c, msg, priv, privKey) == Ok(s) {
          var (scoped, rest) := ParseScoped(plain.value).value;
          ScopedReads(plain.value, s, rest);
        }
        if OpensTo(plain.value, s) {
          var rest: octets :| plain.value == Taken(plain.value, rest) + rest
              && ScopedOctets(Taken(plain.value, rest), s);
          ScopedReads(plain.value, s, rest);
        }
      }
    }
  }

  /**
   * What the encoder refuses, in this order: privacy with no protocol, authentication with none, and a cipher's
   * fault.
   */
  lemma EncodingRefused(c: Crypto, h: V3Header, u: UsmParameters, scoped: ScopedPdu, auth: AuthProtocol, key: octets,
                        priv: PrivProtocol, privKey: octets, salt: uint64)
    requires Sound(c) && PduEncodable(scoped.pdu)
    ensures var r := EncodeV3(c, h, u, scoped, auth, key, priv, privKey, salt);
            var sealing := PrivEncrypt(c, priv, privKey, u.boots, u.time, EncodeScoped(scoped), salt);
            && (h.level == AuthPriv && priv == NoPriv ==> r == Err(UnsupportedPrivProtocol))
            && (h.level != NoAuthNoPriv && auth == NoAuth && !(h.level == AuthPriv && priv == NoPriv) ==>
                  r == Err(UnsupportedAuthProtocol))
            && (h.level == AuthPriv && priv != NoPriv && auth != NoAuth && sealing.Err? ==> r == Err(sealing.error))
            && (r.Ok? <==> (h.level != NoAuthNoPriv ==> auth != NoAuth)
                           && (h.level == AuthPriv ==> priv != NoPriv && sealing.Ok?))
  {
    hide PduEncodable, MessageOctets, EncodeScoped, PrivEncrypt, AuthDigest, Sound;
    forall message: octets ensures AuthDigest(c, auth, key, message).Ok? <==> auth != NoAuth {
      DigestAlwaysThere(c, auth, key, message);
    }
  }
}
