/** What becomes of a v3 reply, told from the datagram, the terms it is held against and the clocks alone. */
module ClientVerdicts {
  import opened Octets
  import opened Errors
  import opened Oids
  import opened Pdus
  import opened Usm
  import opened V3Messages
  import opened ClientModel
  import opened ClientSteps

  /** A Report in the clear: the one reply that needs no digest. */
  predicate Exempt(msg: V3Message) {
    msg.header.level == NoAuthNoPriv && msg.scoped.pdu.kind == Report
  }

  /** A reply that should have had a good digest, and has not. */
  predicate BadDigest(w: World, t: Terms, datagram: octets, from: Endpoint, msg: V3Message) {
    && from == t.from && t.authRequired && !Exempt(msg)
    && !w.verifies(datagram, msg, t.authProtocol, t.authKey)
  }

  /** From the Target, and with a digest wherever one is needed. */
  predicate Admitted(w: World, t: Terms, datagram: octets, from: Endpoint, msg: V3Message) {
    && from == t.from
    && (t.authRequired && !Exempt(msg) ==> w.verifies(datagram, msg, t.authProtocol, t.authKey))
  }

  /** Admitted, and its ciphertext does not open. */
  predicate Unreadable(w: World, t: Terms, datagram: octets, from: Endpoint, msg: V3Message) {
    && Admitted(w, t, datagram, from, msg)
    && msg.header.level == AuthPriv && w.decrypt(msg, t.privProtocol, t.privKey).Err?
  }

  /** Admitted, and this is the PDU in it. */
  predicate Holds(w: World, t: Terms, datagram: octets, from: Endpoint, msg: V3Message, pdu: Pdu) {
    && Admitted(w, t, datagram, from, msg)
    && if msg.header.level == AuthPriv then
         w.decrypt(msg, t.privProtocol, t.privKey).Ok? && w.decrypt(msg, t.privProtocol, t.privKey).value.pdu == pdu
       else msg.scoped.pdu == pdu
  }

  /** It names a usmStats counter: section 5 of RFC 3414. */
  predicate Reports(report: Pdu, k: uint32) {
    report.varbinds != [] && [1, 3, 6, 1, 6, 3, 15, 1, 1, k] <= report.varbinds[0].name
  }

  /** A Report of usmStatsNotInTimeWindows: section 3.2 step 7 of RFC 3414. */
  predicate ClockReport(pdu: Pdu) {
    pdu.kind == Report && Reports(pdu, 2)
  }

  /** The error a Report comes to. */
  function ErrorIn(report: Pdu): Errc {
    if Reports(report, 1) then UnsupportedSecurityLevel
    else if Reports(report, 2) then NotInTimeWindow
    else if Reports(report, 3) then UnknownUserName
    else if Reports(report, 4) then UnknownEngineId
    else if Reports(report, 5) then AuthFailed
    else if Reports(report, 6) then DecryptionError
    else UnexpectedReport
  }

  lemma ReportsIs(report: Pdu, k: uint32)
    ensures Reports(report, k) <==> UsmStatsCounter(report) == Some(k)
  {
    if report.varbinds != [] {
      var name, counter: Oid := report.varbinds[0].name, [1, 3, 6, 1, 6, 3, 15, 1, 1, k];
      assert counter[..9] == USM_STATS && counter[9] == k;
      if |name| >= 10 {
        assert name[..10][..9] == name[..9];
        assert name[..10] == name[..9] + [name[9]];
        assert counter == counter[..9] + [counter[9]];
      }
    }
  }

  /** A Report comes to the error of the counter it names, and is asked again after if it is one of two. */
  lemma ReportErrorIs(report: Pdu)
    ensures ReportError(UsmStatsCounter(report)) == ErrorIn(report)
    ensures Retryable(UsmStatsCounter(report)) <==> Reports(report, 2) || Reports(report, 4)
  {
    hide Reports, UsmStatsCounter;
    ReportsIs(report, 1);
    ReportsIs(report, 2);
    ReportsIs(report, 3);
    ReportsIs(report, 4);
    ReportsIs(report, 5);
    ReportsIs(report, 6);
  }

  /** The Response this exchange waits for: to its identifier, from its Engine where it addressed one. */
  predicate Expected(t: Terms, msg: V3Message, pdu: Pdu) {
    && pdu.kind == Response && pdu.requestId == t.id
    && (t.engineId == [] || msg.security.engineId == t.engineId)
  }

  /** A reply refused over a clock: an unsigned Report of it in the time-sync phase, or an untimely Response. */
  predicate OutOfTime(t: Terms, timely: bool, msg: V3Message, pdu: Pdu) {
    || (t.timeSyncPhase && (t.authRequired ==> Exempt(msg)) && ClockReport(pdu))
    || (Expected(t, msg, pdu) && t.authRequired && !timely)
  }

  /** A reply that answers the exchange, counted as authenticated or not. */
  predicate Answers(w: World, t: Terms, timely: bool, datagram: octets, from: Endpoint, msg: V3Message,
                      authenticated: bool, pdu: Pdu)
  {
    && Holds(w, t, datagram, from, msg, pdu) && !OutOfTime(t, timely, msg, pdu)
    && (pdu.kind == Report || Expected(t, msg, pdu))
    && (authenticated <==> t.authRequired && !Exempt(msg))
  }

  /** Milliseconds since an Engine's pair was learnt. */
  function Age(e: EngineState, now: Instant): nat {
    if now < e.at then 0 else now - e.at
  }

  /**
   * Within the time window: against the trusted clock of the Engine at that endpoint, if there is one, not at the
   * ceiling, of a later boot, or of the same boot and not 151 seconds behind what that clock must show by now.
   */
  predicate InTime(c: Cache, now: Instant, from: Endpoint, security: UsmParameters) {
    from in c.engineAt && c.engineAt[from] in c.engines && c.engines[c.engineAt[from]].timeSynced ==>
      var e := c.engines[c.engineAt[from]];
      && security.boots != 0x7FFF_FFFF && e.boots != 0x7FFF_FFFF && security.boots >= e.boots
      && (security.boots == e.boots ==> Age(e, now) < (security.time - e.time + 151) * 1000)
  }

  lemma TimelyIsInTime(c: Cache, now: Instant, from: Endpoint, security: UsmParameters)
    ensures Timely(c, now, from, security) <==> InTime(c, now, from, security)
  {
  }

  lemma ClockReportIs(pdu: Pdu)
    ensures ReportsNotInTimeWindows(pdu) <==> ClockReport(pdu)
  {
    ReportsIs(pdu, 2);
  }

  /**
   * The verdict on a reply that names the exchange's identifier, each of them with its exact condition: dropped for its
   * digest, for its ciphertext or for a clock; accepted, with which PDU and which standing; and ignored otherwise.
   */
  lemma VerdictExact(w: World, t: Terms, timely: bool, datagram: octets, from: Endpoint, msg: V3Message)
    ensures var v := Judge(w, t, timely, datagram, from, msg);
            && (v == Dropped(AuthFailed) <==> BadDigest(w, t, datagram, from, msg))
            && (v == Dropped(DecryptionFailed) <==> Unreadable(w, t, datagram, from, msg))
            && (v == Dropped(NotInTimeWindow) <==>
                  exists pdu :: Holds(w, t, datagram, from, msg, pdu) && OutOfTime(t, timely, msg, pdu))
            && (forall authenticated, pdu :: v == Accepted(authenticated, pdu) <==>
                  Answers(w, t, timely, datagram, from, msg, authenticated, pdu))
            && (v.Dropped? ==> v.reason == AuthFailed || v.reason == DecryptionFailed || v.reason == NotInTimeWindow)
  {
    hide ReportsNotInTimeWindows, ClockReport;
    var v := Judge(w, t, timely, datagram, from, msg);
    if Admitted(w, t, datagram, from, msg) && !Unreadable(w, t, datagram, from, msg) {
      var pdu := Opened(w, t, msg);
      ClockReportIs(pdu);
      assert Holds(w, t, datagram, from, msg, pdu);
      assert forall other :: Holds(w, t, datagram, from, msg, other) ==> other == pdu;
    }
  }

  /** Why a reply is dropped, if it is. The three conditions exclude one another. */
  function Refusal(w: World, t: Terms, timely: bool, datagram: octets, from: Endpoint, msg: V3Message): Option<Errc> {
    if BadDigest(w, t, datagram, from, msg) then Some(AuthFailed)
    else if Unreadable(w, t, datagram, from, msg) then Some(DecryptionFailed)
    else if from == t.from && OutOfTime(t, timely, msg, Inside(w, t, msg)) then Some(NotInTimeWindow)
    else None
  }

  /** The PDU of a readable reply. */
  function Inside(w: World, t: Terms, msg: V3Message): Pdu {
    if msg.header.level == AuthPriv && w.decrypt(msg, t.privProtocol, t.privKey).Ok?
    then w.decrypt(msg, t.privProtocol, t.privKey).value.pdu else msg.scoped.pdu
  }

  lemma RefusalIs(w: World, t: Terms, timely: bool, datagram: octets, from: Endpoint, msg: V3Message)
    ensures var v, why := Judge(w, t, timely, datagram, from, msg), Refusal(w, t, timely, datagram, from, msg);
            if why.Some? then v == Dropped(why.value) else !v.Dropped?
  {
    hide Judge, OutOfTime, Answers;
    VerdictExact(w, t, timely, datagram, from, msg);
    var pdu := Inside(w, t, msg);
    if Admitted(w, t, datagram, from, msg) && !Unreadable(w, t, datagram, from, msg) {
      assert Holds(w, t, datagram, from, msg, pdu);
      assert forall other :: Holds(w, t, datagram, from, msg, other) ==> other == pdu;
    }
  }
}
