/**
 * The Client as a step machine. One step is what runs on the strand between two suspensions; everything outside
 * (datagrams, timers, sends, cancellation, Stopping, the clock) is an event.
 */
module ClientModel {
  import opened Octets
  import opened Errors
  import opened Oids
  import opened BerGrammar
  import opened Pdus
  import opened Usm
  import opened V3Messages

  /** An address and a port; only its identity matters. */
  type Endpoint = nat

  /** Milliseconds on the steady clock. */
  type Instant = int

  datatype Target = Target(endpoint: Endpoint, timeout: int, retries: int)

  datatype Auth = ByCommunity(community: octets) | ByUser(creds: Credentials)

  /** What a datagram decodes to, if anything. */
  datatype Arrival = NotOurs | V2cArrival(v2c: V2cMessage) | V3Arrival(v3: V3Message)

  /** A message handed to the encoder. */
  datatype Outgoing =
    | V2cOut(v2cMessage: V2cMessage)
    | V3Out(header: V3Header, usm: UsmParameters, scoped: ScopedPdu, auth: AuthProtocol, authKey: octets,
            priv: PrivProtocol, privKey: octets)

  /** The codecs, key derivation and sockets, as functions the machine is independent of. */
  datatype World = World(
    arrival: octets -> Arrival,
    verifies: (octets, V3Message, AuthProtocol, octets) -> bool,
    decrypt: (V3Message, PrivProtocol, octets) -> Result<ScopedPdu>,
    authKey: (Credentials, octets) -> Result<octets>,
    privKey: (Credentials, octets) -> Result<octets>,
    encode: Outgoing -> Option<Errc>,
    openError: nat -> Option<int>)

  //
  // Engines and their clocks
  //

  datatype EngineState = EngineState(engineId: octets, boots: int32, time: int32, at: Instant, timeSynced: bool)

  const NO_ENGINE: EngineState := EngineState([], 0, 0, 0, false)

  const BOOTS_CEILING: int32 := MAX_INT32
  const TIME_WINDOW_SECONDS: int := 150

  /** Whole seconds of the steady clock since an Engine's pair was learnt. */
  function Elapsed(now: Instant, at: Instant): nat {
    if now >= at then (now - at) / 1000 else 0
  }

  function Projected(e: EngineState, now: Instant): int {
    e.time as int + Elapsed(now, e.at)
  }

  /** Section 3.2 step 7(b) of RFC 3414: only a pair older than the one held is untimely. */
  predicate TimelyFor(e: EngineState, boots: int32, time: int32, now: Instant) {
    !e.timeSynced ||
    (boots != BOOTS_CEILING && e.boots != BOOTS_CEILING &&
     if boots != e.boots then boots > e.boots else time as int >= Projected(e, now) - TIME_WINDOW_SECONDS)
  }

  /** Section 2.2.3 of RFC 3414: a later boots count wins, and within one boot a later time. */
  function Observed(e: EngineState, boots: int32, time: int32, now: Instant): EngineState {
    if boots == BOOTS_CEILING || boots < e.boots || (boots == e.boots && time < e.time) then e
    else e.(boots := boots, time := time, at := now, timeSynced := true)
  }

  //
  // Reports
  //

  const USM_STATS: Oid := [1, 3, 6, 1, 6, 3, 15, 1, 1]
  const UNSUPPORTED_SEC_LEVELS: uint32 := 1
  const NOT_IN_TIME_WINDOWS: uint32 := 2
  const UNKNOWN_USER_NAMES: uint32 := 3
  const UNKNOWN_ENGINE_IDS: uint32 := 4
  const WRONG_DIGESTS: uint32 := 5
  const DECRYPTION_ERRORS: uint32 := 6

  /** The usmStats counter a Report's first Varbind names, if it is one. */
  function UsmStatsCounter(report: Pdu): Option<uint32> {
    if report.varbinds == [] then None
    else
      var name := report.varbinds[0].name;
      if !Under(USM_STATS, name) || |name| <= |USM_STATS| then None else Some(name[|USM_STATS|])
  }

  function ReportError(counter: Option<uint32>): Errc {
    if counter.None? then UnexpectedReport
    else if counter.value == UNSUPPORTED_SEC_LEVELS then UnsupportedSecurityLevel
    else if counter.value == NOT_IN_TIME_WINDOWS then NotInTimeWindow
    else if counter.value == UNKNOWN_USER_NAMES then UnknownUserName
    else if counter.value == UNKNOWN_ENGINE_IDS then UnknownEngineId
    else if counter.value == WRONG_DIGESTS then AuthFailed
    else if counter.value == DECRYPTION_ERRORS then DecryptionError
    else UnexpectedReport
  }

  predicate ReportsNotInTimeWindows(pdu: Pdu) {
    pdu.kind == Report && UsmStatsCounter(pdu) == Some(NOT_IN_TIME_WINDOWS)
  }

  //
  // Exchanges
  //

  /** What an exchange was started with, and what a reply is held against. Its identifier keys the table. */
  datatype Terms = Terms(
    from: Endpoint, v3: bool, community: octets, authRequired: bool, authProtocol: AuthProtocol,
    privProtocol: PrivProtocol, authKey: octets, privKey: octets, engineId: octets, id: int32, timeSyncPhase: bool)

  /** An outstanding request, as the receive loop sees and updates it. */
  datatype Pending = Pending(
    terms: Terms, response: Pdu, security: UsmParameters, answered: bool, replyAuthenticated: bool,
    dropReason: Option<Errc>)

  datatype Phase = Sending | Waiting(deadline: Instant) | Draining(deadline: Instant) | Ended(outcome: ErrorCode)

  /** The operation an exchange serves: a request and its round, or a phase of a discovery. */
  datatype Owner = ForV2c(rid: nat) | ForData(rid: nat, round: nat) | ForIdentify(did: nat) | ForSync(did: nat)

  /** A wait of the retransmission loop: when its deadline was set, and when it ended. */
  datatype Wait = Wait(armed: Instant, ended: Instant)

  /**
   * One run of the retransmission loop. `sends` counts sends begun, `began` is when the first was, `armed` is when the
   * deadline was last set, `waits` are the waits that have ended, and `ticket` is how many identifiers had been issued
   * before this one: accounts of the run, which nothing decides by.
   */
  datatype Exchange = Exchange(
    owner: Owner, pending: Pending, sent: Outgoing, timeout: int, retries: int, attempt: nat, phase: Phase,
    woken: bool, sends: nat, began: Instant, armed: Instant, waits: seq<Wait>, ticket: nat)

  const NO_PDU: Pdu := Pdu(Get, 0, 0, 0, [])
  const NO_SECURITY: UsmParameters := UsmParameters([], 0, 0, [], [], [])

  function Unanswered(terms: Terms): Pending {
    Pending(terms, NO_PDU, NO_SECURITY, false, false, None)
  }

  //
  // Requests and discoveries
  //

  datatype Outcome = Outcome(ec: ErrorCode, varbinds: seq<Varbind>, errorIndex: int32)

  function Failed(ec: ErrorCode): Outcome {
    Outcome(ec, [], 0)
  }

  function ToResult(response: Pdu): Outcome {
    Outcome(if response.errorStatus != 0 then AgentError(response.errorStatus) else NoError,
            response.varbinds, response.errorIndex)
  }

  datatype Place = Parked(did: nat) | Exchanging | Done(outcome: Outcome)

  datatype Request = Request(
    target: Target, auth: Auth, pdu: Pdu, round: nat, cancel: Cancellation, woken: bool, place: Place)

  datatype Stage = Spawned | Discovering | Finished(ec: ErrorCode)

  datatype Discovery = Discovery(target: Target, creds: Credentials, stage: Stage)

  //
  // The state
  //

  /** The table of outstanding exchanges, and every exchange there has been. `issued` counts identifiers taken. */
  datatype Net = Net(nextId: int32, issued: nat, xs: seq<Exchange>, table: map<int32, nat>)

  /** Engines by engineID, and which one is believed to answer at an endpoint. */
  datatype Cache = Cache(engines: map<octets, EngineState>, engineAt: map<Endpoint, octets>)

  /** The operations: requests, discoveries, and which discovery is in flight for an endpoint. */
  datatype Ops = Ops(rs: seq<Request>, ds: seq<Discovery>, discovering: map<Endpoint, nat>)

  datatype State = State(now: Instant, stopping: bool, cleaned: bool, net: Net, cache: Cache, ops: Ops)

  /** The operation is there; a v3 request has rounds, a v2c request has not. */
  predicate OwnerKnown(o: Owner, ops: Ops) {
    match o
    case ForV2c(rid) => rid < |ops.rs| && ops.rs[rid].auth.ByCommunity?
    case ForData(rid, _) => rid < |ops.rs| && ops.rs[rid].auth.ByUser?
    case ForIdentify(did) => did < |ops.ds|
    case ForSync(did) => did < |ops.ds|
  }

  predicate OwnersKnown(net: Net, ops: Ops) {
    forall x :: 0 <= x < |net.xs| ==> OwnerKnown(net.xs[x].owner, ops)
  }

  predicate TableKnown(net: Net) {
    forall id :: id in net.table ==> net.table[id] < |net.xs|
  }

  predicate PlaceKnown(r: Request, discoveries: nat) {
    r.place.Parked? ==> r.place.did < discoveries && r.auth.ByUser?
  }

  predicate OpsKnown(ops: Ops) {
    && (forall r :: 0 <= r < |ops.rs| ==> PlaceKnown(ops.rs[r], |ops.ds|))
    && (forall ep :: ep in ops.discovering ==> ops.discovering[ep] < |ops.ds|)
  }

  /** References lead somewhere. */
  predicate Linked(s: State) {
    TableKnown(s.net) && OwnersKnown(s.net, s.ops) && OpsKnown(s.ops)
  }
}
