/**
 * The Client over the codecs of this library: what arrives is what the decoders accept, and genuine replies are
 * taken.
 */
module ClientCodecs {
  import opened Octets
  import opened BerGrammar
  import opened BerRoundTrip
  import opened BerReader
  import opened Pdus
  import opened Usm
  import opened V3Messages
  import opened V3Decoding
  import opened MessageWire
  import opened ClientModel
  import opened ClientSteps
  import opened ClientRuns
  import opened ClientTrust
  import opened ClientClocks

  /** The version a datagram claims, whatever follows it. */
  function VersionOf(datagram: octets): Option<int32> {
    match ParseConstructed(SEQUENCE, datagram)
    case Err(_) => None
    case Ok((content, _)) =>
      match ParseInteger(content)
      case Err(_) => None
      case Ok((version, _)) => Some(version)
  }

  method MessageVersion(datagram: octets) returns (version: Option<int32>)
    ensures version == VersionOf(datagram)
  {
    hide ParseConstructed, ParseInteger;
    var r := new Reader(datagram);
    var s := r.Enter(SEQUENCE);
    version := r.Integer();
  }

  /** What the receive loop hands on. */
  function ArrivalOf(datagram: octets): Arrival {
    var version := VersionOf(datagram);
    if version == Some(VERSION_V2C) then
      match DecodeV2c(datagram)
      case Ok(msg) => V2cArrival(msg)
      case Err(_) => NotOurs
    else if version == Some(VERSION_V3) then
      match DecodeV3(datagram)
      case Ok(msg) => V3Arrival(msg)
      case Err(_) => NotOurs
    else NotOurs
  }

  /** The version is looked at before anything else, so looking first loses nothing a decoder would accept. */
  lemma DecodedArrives(datagram: octets)
    ensures DecodeV2c(datagram).Ok? ==> ArrivalOf(datagram) == V2cArrival(DecodeV2c(datagram).value)
    ensures DecodeV3(datagram).Ok? ==> ArrivalOf(datagram) == V3Arrival(DecodeV3(datagram).value)
  {
    hide ParseConstructed, ParseInteger, ParseOctets, ParsePdu, ParseV3Header, ParseUsm, ParsePayload;
  }

  /** A datagram arrives as a message exactly when those are that message's octets, and otherwise not at all. */
  lemma ArrivesExactly(datagram: octets)
    ensures forall m :: ArrivalOf(datagram) == V2cArrival(m) <==> V2cOctets(datagram, m)
    ensures forall m :: ArrivalOf(datagram) == V3Arrival(m) <==> V3Octets(datagram, m)
  {
    hide VersionOf, DecodeV2c, DecodeV3, V2cOctets, V3Octets;
    DecodedArrives(datagram);
    forall m ensures ArrivalOf(datagram) == V2cArrival(m) <==> V2cOctets(datagram, m) { V2cDecodes(datagram, m); }
    forall m ensures ArrivalOf(datagram) == V3Arrival(m) <==> V3Octets(datagram, m) { V3Decodes(datagram, m); }
  }

  /** The world whose decoders, digest and cipher are this library's. */
  ghost predicate Codecs(w: World, c: Crypto) {
    && (forall d :: w.arrival(d) == ArrivalOf(d))
    && (forall d, msg, auth, key :: w.verifies(d, msg, auth, key) == Verifies(c, d, msg, auth, key))
    && (forall msg, priv, key :: w.decrypt(msg, priv, key) == Decrypt(c, msg, priv, key))
  }

  /** No privacy key, no decryption. */
  lemma CodecsGuarded(w: World, c: Crypto)
    requires Codecs(w, c)
    ensures Guarded(w)
  {
    forall msg, priv, key | w.decrypt(msg, priv, key).Ok? ensures key != [] {
      assert w.decrypt(msg, priv, key) == Decrypt(c, msg, priv, key);
      DecryptNeedsKey(c, msg, priv, key);
    }
  }

  lemma DecryptNeedsKey(c: Crypto, msg: V3Message, priv: PrivProtocol, key: octets)
    requires Decrypt(c, msg, priv, key).Ok?
    ensures key != [] && priv != NoPriv
  {
    hide ParseScoped, MakeIv;
  }

  /** What a reply must be to count for an exchange: which, and how protected. */
  predicate CountsFor(t: Terms, level: SecurityLevel, engineId: octets, pdu: Pdu, timely: bool) {
    if pdu.kind == Report then
      !(t.timeSyncPhase && !IsAuthenticated(level) && ReportsNotInTimeWindows(pdu))
    else
      && pdu.kind == Response && pdu.requestId == t.id && (t.engineId == [] || engineId == t.engineId)
      && (t.authRequired ==> IsAuthenticated(level) && timely)
  }

  /**
   * A reply written by the encoder under the exchange's own keys is accepted, with the PDU that was sent, if and only
   * if it is one that counts; and it counts as authenticated exactly when it was signed and the exchange asked for
   * that.
   */
  lemma GenuineReplyAccepted(w: World, c: Crypto, t: Terms, timely: bool, h: V3Header, u: UsmParameters,
                             scoped: ScopedPdu, salt: uint64)
    requires Codecs(w, c) && Sound(c) && PduEncodable(scoped.pdu) && h.securityModel == SECURITY_MODEL_USM
    requires t.timeSyncPhase ==> t.authRequired
    requires var out := EncodeV3(c, h, u, scoped, t.authProtocol, t.authKey, t.privProtocol, t.privKey, salt);
             out.Ok? && |out.value| < LENGTH_LIMIT
    ensures var out := EncodeV3(c, h, u, scoped, t.authProtocol, t.authKey, t.privProtocol, t.privKey, salt).value;
            && w.arrival(out).V3Arrival? && w.arrival(out).v3.header == h
            && var v := Judge(w, t, timely, out, t.from, w.arrival(out).v3);
               && (v.Accepted? <==> CountsFor(t, h.level, u.engineId, scoped.pdu, timely))
               && (v.Accepted? ==> v == Accepted(t.authRequired && IsAuthenticated(h.level), scoped.pdu))
  {
    hide EncodeV3, DecodeV3, DecodeV2c, VersionOf, Verifies, Decrypt, Sound, PduEncodable, ReportsNotInTimeWindows;
    V3RoundTrip(c, h, u, scoped, t.authProtocol, t.authKey, t.privProtocol, t.privKey, salt);
    var out := EncodeV3(c, h, u, scoped, t.authProtocol, t.authKey, t.privProtocol, t.privKey, salt).value;
    var m := DecodeV3(out).value;
    DecodedArrives(out);
    assert w.verifies(out, m, t.authProtocol, t.authKey) == Verifies(c, out, m, t.authProtocol, t.authKey);
    assert w.decrypt(m, t.privProtocol, t.privKey) == Decrypt(c, m, t.privProtocol, t.privKey);
    if !IsAuthenticated(h.level) { UnsignedNeverVerifies(c, out, m, t.authProtocol, t.authKey); }
  }

  lemma UnsignedNeverVerifies(c: Crypto, d: octets, msg: V3Message, auth: AuthProtocol, key: octets)
    requires !IsAuthenticated(msg.header.level)
    ensures !Verifies(c, d, msg, auth, key)
  {
  }

  /** A v2c Response written by the encoder, from the Target asked and quoting its community, answers its request. */
  lemma GenuineV2cAccepted(w: World, c: Crypto, s: State, x: nat, m: V2cMessage, from: Endpoint)
    requires Codecs(w, c) && PduEncodable(m.pdu) && |EncodeV2c(m)| < LENGTH_LIMIT
    requires TableKnown(s.net) && x < |s.net.xs| && InTable(s.net, x)
    requires m.pdu.kind == Response && m.pdu.requestId == s.net.xs[x].pending.terms.id
    requires Quotes(s.net.xs[x].pending.terms, from, m)
    ensures x < |Deliver(w, s, EncodeV2c(m), from).xs|
    ensures var p := Deliver(w, s, EncodeV2c(m), from).xs[x].pending; p.answered && p.response == m.pdu
  {
    hide EncodeV2c, DecodeV3, DecodeV2c, VersionOf, PduEncodable, V2cFields;
    V2cSize(m);
    V2cRoundTrip(m);
    DecodedArrives(EncodeV2c(m));
    assert w.arrival(EncodeV2c(m)) == ArrivalOf(EncodeV2c(m));
  }

  /**
   * In every run over these codecs, the clock of a synchronised Engine is the one in a datagram of the run that decodes
   * as a v3 message, and whose digest is the keyed digest of its own octets under the key of the exchange it answers.
   */
  lemma ClockHasDigest(w: World, c: Crypto, now: Instant, first: int32, trace: seq<Event>, id: octets)
    returns (x: nat, d: octets)
    requires Codecs(w, c) && Known(Run(w, Initial(now, first), trace).cache, id)
    ensures var s := Run(w, Initial(now, first), trace);
            && x < |s.net.xs| && Datagram(d, s.net.xs[x].pending.terms.from) in trace
            && DecodeV3(d).Ok?
            && var t, msg := s.net.xs[x].pending.terms, DecodeV3(d).value;
               && t.authRequired && msg.header.msgId == t.id && Verifies(c, d, msg, t.authProtocol, t.authKey)
               && ClockIn(msg.security) == ClockOf(s.cache.engines[id]) && msg.security.boots < BOOTS_CEILING
  {
    hide Run, Verifies, DecodeV2c, DecodeV3, VersionOf;
    TrustedClocksAreSigned(w, now, first, trace);
    var s := Run(w, Initial(now, first), trace);
    var clock := ClockOf(s.cache.engines[id]);
    assert ClientClocks.Signed(w, trace, s.net, clock);
    x, d :| 0 <= x < |s.net.xs| && Datagram(d, s.net.xs[x].pending.terms.from) in trace
            && Vouches(w, s.net.xs[x].pending.terms, d, clock);
    assert w.arrival(d) == ArrivalOf(d);
  }
}
