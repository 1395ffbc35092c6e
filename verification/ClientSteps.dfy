/** The steps of the Client, as functions from one state to the next. */
module ClientSteps {
  import opened Octets
  import opened Errors
  import opened Pdus
  import opened Usm
  import opened V3Messages
  import opened ClientModel

  //
  // The Engine cache
  //

  function EngineFor(c: Cache, ep: Endpoint): (r: Option<octets>)
    ensures r.Some? ==> r.value in c.engines
  {
    if ep in c.engineAt && c.engineAt[ep] in c.engines then Some(c.engineAt[ep]) else None
  }

  predicate Timely(c: Cache, now: Instant, from: Endpoint, security: UsmParameters) {
    EngineFor(c, from).None? || TimelyFor(c.engines[EngineFor(c, from).value], security.boots, security.time, now)
  }

  function ObserveEngineTime(c: Cache, now: Instant, from: Endpoint, security: UsmParameters): Cache {
    var id := EngineFor(c, from);
    if id.None? then c
    else c.(engines := c.engines[id.value := Observed(c.engines[id.value], security.boots, security.time, now)])
  }

  /** Whether a Report is one to act on and ask again about. */
  predicate Retryable(counter: Option<uint32>) {
    counter == Some(NOT_IN_TIME_WINDOWS) || counter == Some(UNKNOWN_ENGINE_IDS)
  }

  /** The cache after a Report worth asking again about. */
  function Resynchronise(c: Cache, now: Instant, from: Endpoint, p: Pending): Cache {
    if !p.replyAuthenticated || UsmStatsCounter(p.response) == Some(UNKNOWN_ENGINE_IDS) then
      c.(engineAt := c.engineAt - {from})
    else
      var id := EngineFor(c, from);
      if id.Some? && c.engines[id.value].timeSynced && p.security.boots < c.engines[id.value].boots then
        c.(engines := c.engines[id.value := c.engines[id.value].(timeSynced := false)])
      else ObserveEngineTime(c, now, from, p.security)
  }

  /** What the identity phase records: which Engine is at the endpoint, and a pair only where none is trusted. */
  function RecordIdentity(c: Cache, now: Instant, ep: Endpoint, security: UsmParameters): Cache {
    var id := security.engineId;
    var named := (if id in c.engines then c.engines[id] else NO_ENGINE).(engineId := id);
    Cache(c.engines[id := if named.timeSynced then named
                          else named.(boots := security.boots, time := security.time, at := now)],
          c.engineAt[ep := id])
  }

  /** What the time-sync phase records: the signed pair, as the baseline for every later comparison. */
  function RecordBaseline(c: Cache, now: Instant, id: octets, security: UsmParameters): Cache {
    var known := if id in c.engines then c.engines[id] else NO_ENGINE;
    c.(engines := c.engines[id := known.(boots := security.boots, time := security.time, at := now,
                                         timeSynced := true)])
  }

  //
  // Replies
  //

  datatype Verdict = Ignored | Dropped(reason: Errc) | Accepted(authenticated: bool, pdu: Pdu)

  /** What becomes of a v3 datagram that names this exchange's identifier. */
  function Judge(w: World, t: Terms, timely: bool, datagram: octets, from: Endpoint, msg: V3Message): Verdict {
    var encrypted := IsEncrypted(msg.header.level);
    var exempt := !encrypted && !IsAuthenticated(msg.header.level) && msg.scoped.pdu.kind == Report;
    var authenticated := t.authRequired && !exempt;
    if from != t.from then Ignored
    else if authenticated && !w.verifies(datagram, msg, t.authProtocol, t.authKey) then Dropped(AuthFailed)
    else if encrypted && w.decrypt(msg, t.privProtocol, t.privKey).Err? then Dropped(DecryptionFailed)
    else JudgeOpened(t, timely, authenticated, msg.security, Opened(w, t, msg))
  }

  function Opened(w: World, t: Terms, msg: V3Message): Pdu
    requires IsEncrypted(msg.header.level) ==> w.decrypt(msg, t.privProtocol, t.privKey).Ok?
  {
    if IsEncrypted(msg.header.level) then w.decrypt(msg, t.privProtocol, t.privKey).value.pdu else msg.scoped.pdu
  }

  function JudgeOpened(t: Terms, timely: bool, authenticated: bool, security: UsmParameters, pdu: Pdu): Verdict {
    if t.timeSyncPhase && !authenticated && ReportsNotInTimeWindows(pdu) then Dropped(NotInTimeWindow)
    else if pdu.kind == Report then Accepted(authenticated, pdu)
    else if t.engineId != [] && security.engineId != t.engineId then Ignored
    else if pdu.requestId != t.id then Ignored
    else if pdu.kind != Response then Ignored
    else if t.authRequired && !timely then Dropped(NotInTimeWindow)
    else Accepted(authenticated, pdu)
  }

  function Receive(p: Pending, security: UsmParameters, v: Verdict): Pending {
    match v
    case Ignored => p
    case Dropped(reason) => p.(dropReason := Some(reason))
    case Accepted(authenticated, pdu) =>
      p.(security := security, response := pdu, replyAuthenticated := authenticated, answered := true)
  }

  /** Cancelling a timer wakes a wait that is armed, and does nothing otherwise. */
  function Wake(e: Exchange): Exchange {
    if e.phase.Waiting? || e.phase.Draining? then e.(woken := true) else e
  }

  function Answer(e: Exchange, security: UsmParameters, v: Verdict): Exchange {
    var e' := e.(pending := Receive(e.pending, security, v));
    if v.Accepted? then Wake(e') else e'
  }

  function DeliverV3(w: World, s: State, datagram: octets, from: Endpoint, msg: V3Message): Net
    requires TableKnown(s.net)
  {
    if msg.header.msgId !in s.net.table then s.net
    else
      var x := s.net.table[msg.header.msgId];
      var e := s.net.xs[x];
      if !e.pending.terms.v3 then s.net
      else
        var timely := Timely(s.cache, s.now, from, msg.security);
        s.net.(xs := s.net.xs[x := Answer(e, msg.security, Judge(w, e.pending.terms, timely, datagram, from, msg))])
  }

  predicate Quotes(t: Terms, from: Endpoint, msg: V2cMessage) {
    !t.v3 && from == t.from && msg.community == t.community
  }

  function AnswerV2c(e: Exchange, pdu: Pdu): Exchange {
    Wake(e.(pending := e.pending.(response := pdu, answered := true)))
  }

  function DeliverV2c(net: Net, from: Endpoint, msg: V2cMessage): Net
    requires TableKnown(net)
  {
    if msg.pdu.kind != Response || msg.pdu.requestId !in net.table then net
    else
      var x := net.table[msg.pdu.requestId];
      if !Quotes(net.xs[x].pending.terms, from, msg) then net
      else net.(xs := net.xs[x := AnswerV2c(net.xs[x], msg.pdu)])
  }

  function Deliver(w: World, s: State, datagram: octets, from: Endpoint): Net
    requires TableKnown(s.net)
  {
    match w.arrival(datagram)
    case NotOurs => s.net
    case V2cArrival(msg) => DeliverV2c(s.net, from, msg)
    case V3Arrival(msg) => DeliverV3(w, s, datagram, from, msg)
  }

  //
  // How operations end
  //

  function FinishRequest(ops: Ops, rid: nat, outcome: Outcome): Ops
    requires rid < |ops.rs|
  {
    ops.(rs := ops.rs[rid := ops.rs[rid].(place := Done(outcome))])
  }

  function FinishDiscovery(ops: Ops, did: nat, ec: ErrorCode): Ops
    requires did < |ops.ds|
  {
    ops.(ds := ops.ds[did := ops.ds[did].(stage := Finished(ec))],
         discovering := ops.discovering - {ops.ds[did].target.endpoint})
  }

  function FailOwner(ops: Ops, o: Owner, ec: ErrorCode): Ops
    requires OwnerKnown(o, ops)
  {
    match o
    case ForV2c(rid) => FinishRequest(ops, rid, Failed(ec))
    case ForData(rid, _) => FinishRequest(ops, rid, Failed(ec))
    case ForIdentify(did) => FinishDiscovery(ops, did, ec)
    case ForSync(did) => FinishDiscovery(ops, did, ec)
  }

  function CancelOf(ops: Ops, o: Owner): Cancellation
    requires OwnerKnown(o, ops)
  {
    match o
    case ForV2c(rid) => ops.rs[rid].cancel
    case ForData(rid, _) => ops.rs[rid].cancel
    case _ => NotCancelled
  }

  //
  // Starting an exchange
  //

  function Next(id: int32): int32 {
    if id == MAX_INT32 then 1 else id + 1
  }

  /** An exchange whose first send has begun. */
  function Fresh(o: Owner, target: Target, terms: Terms, out: Outgoing, now: Instant, ticket: nat): Exchange {
    Exchange(o, Unanswered(terms), out, target.timeout, target.retries, 0, Sending, false, 1, now, now, [], ticket)
  }

  /** Inserting does not replace what is already there. */
  function Emplaced(table: map<int32, nat>, id: int32, x: nat): map<int32, nat> {
    if id in table then table else table[id := x]
  }

  /** How the retransmission loop's end is reported, in this order. */
  function Classify(stopping: bool, cancel: Cancellation, p: Pending, sendError: Option<int>): ErrorCode {
    if cancel == Terminal then OperationAborted
    else if p.answered && !stopping then NoError
    else if cancel != NotCancelled then OperationAborted
    else if stopping then Fault(ClientStopped)
    else if sendError.Some? then SystemError(sendError.value)
    else if p.dropReason.Some? then Fault(p.dropReason.value)
    else Fault(Timeout)
  }

  /** The loop is left before it sends, and clears its entry. */
  function NeverSends(s: State, o: Owner, terms: Terms): State
    requires OwnerKnown(o, s.ops)
  {
    s.(net := s.net.(table := s.net.table - {terms.id}),
       ops := FailOwner(s.ops, o, Classify(false, CancelOf(s.ops, o), Unanswered(terms), None)))
  }

  function Begun(s: State, e: Exchange): State {
    s.(net := s.net.(xs := s.net.xs + [e], table := Emplaced(s.net.table, e.pending.terms.id, |s.net.xs|)))
  }

  /** As far as the first send. Stopping comes first, so that nothing reopens a socket it has closed. */
  function Begin(w: World, s: State, o: Owner, target: Target, terms: Terms, out: Outgoing, ticket: nat): State
    requires OwnerKnown(o, s.ops)
  {
    if s.stopping then s.(ops := FailOwner(s.ops, o, Fault(ClientStopped)))
    else if w.openError(ticket).Some? then s.(ops := FailOwner(s.ops, o, SystemError(w.openError(ticket).value)))
    else if target.retries < 0 then NeverSends(s, o, terms)
    else Begun(s, Fresh(o, target, terms, out, s.now, ticket))
  }

  function TakeId(net: Net): Net {
    net.(nextId := Next(net.nextId), issued := net.issued + 1)
  }

  /** The identifier is taken whether or not the message can be encoded and the exchange begun. */
  function Launch(w: World, s: State, o: Owner, target: Target, terms: Terms, out: Outgoing): State
    requires OwnerKnown(o, s.ops)
  {
    var s1 := s.(net := TakeId(s.net));
    if w.encode(out).Some? then s1.(ops := FailOwner(s.ops, o, Fault(w.encode(out).value)))
    else Begin(w, s1, o, target, terms, out, s.net.issued)
  }

  //
  // Requests
  //

  function HeaderFor(id: int32, level: SecurityLevel): V3Header {
    V3Header(id, 65507, level, true, SECURITY_MODEL_USM)
  }

  function Capped(projected: int): int32 {
    if projected > MAX_INT32 then MAX_INT32 else if projected < -0x8000_0000 then -0x8000_0000 else projected
  }

  /** What a v3 request is sent with: the Engine's identity, and its clock projected to now. */
  function DataMessage(id: int32, now: Instant, e: EngineState, creds: Credentials, pdu: Pdu, key: octets,
                       privKey: octets): Outgoing
  {
    V3Out(HeaderFor(id, creds.level),
          UsmParameters(e.engineId, e.boots, Capped(Projected(e, now)), creds.userName, [], []),
          ScopedPdu(e.engineId, [], pdu.(requestId := id)),
          creds.authProtocol, key, creds.privProtocol, privKey)
  }

  function DataTerms(id: int32, ep: Endpoint, e: EngineState, creds: Credentials, key: octets, privKey: octets): Terms {
    Terms(ep, true, [], IsAuthenticated(creds.level), creds.authProtocol, creds.privProtocol, key, privKey, e.engineId,
          id, false)
  }

  /** The Localized Keys a level calls for. */
  function KeysFor(w: World, creds: Credentials, engineId: octets): Result<(octets, octets)> {
    var key :- if IsAuthenticated(creds.level) then w.authKey(creds, engineId) else Ok([]);
    var privKey :- if IsEncrypted(creds.level) then w.privKey(creds, engineId) else Ok([]);
    Ok((key, privKey))
  }

  /** A round of a v3 request, once its Engine is believed known. */
  function Ask(w: World, s: State, rid: nat): State
    requires rid < |s.ops.rs| && s.ops.rs[rid].auth.ByUser?
  {
    var r := s.ops.rs[rid];
    var creds, ep := r.auth.creds, r.target.endpoint;
    var id := EngineFor(s.cache, ep);
    if id.None? then s.(ops := FinishRequest(s.ops, rid, Failed(Fault(UnknownEngineId))))
    else
      var e := s.cache.engines[id.value];
      match KeysFor(w, creds, e.engineId)
      case Err(fault) => s.(ops := FinishRequest(s.ops, rid, Failed(Fault(fault))))
      case Ok((key, privKey)) =>
        Launch(w, s.(ops := s.ops.(rs := s.ops.rs[rid := r.(place := Exchanging)])), ForData(rid, r.round), r.target,
               DataTerms(s.net.nextId, ep, e, creds, key, privKey),
               DataMessage(s.net.nextId, s.now, e, creds, r.pdu, key, privKey))
  }

  predicate EngineReady(c: Cache, ep: Endpoint, level: SecurityLevel) {
    EngineFor(c, ep).Some? && (!IsAuthenticated(level) || c.engines[EngineFor(c, ep).value].timeSynced)
  }

  /** Waits on the one discovery for the endpoint, spawning it if there is none. */
  function Park(ops: Ops, rid: nat): Ops
    requires rid < |ops.rs| && ops.rs[rid].auth.ByUser?
  {
    var r := ops.rs[rid];
    var ep := r.target.endpoint;
    if ep in ops.discovering then
      ops.(rs := ops.rs[rid := r.(place := Parked(ops.discovering[ep]), woken := false)])
    else
      Ops(ops.rs[rid := r.(place := Parked(|ops.ds|), woken := false)],
          ops.ds + [Discovery(r.target, r.auth.creds, Spawned)],
          ops.discovering[ep := |ops.ds|])
  }

  function EnsureEngine(w: World, s: State, rid: nat): State
    requires rid < |s.ops.rs| && s.ops.rs[rid].auth.ByUser?
  {
    var r := s.ops.rs[rid];
    if EngineReady(s.cache, r.target.endpoint, r.auth.creds.level) then Ask(w, s, rid)
    else s.(ops := Park(s.ops, rid))
  }

  /** Refused at the call: a level that names no protocol for what it claims. */
  function Unsupported(creds: Credentials): Option<Errc> {
    if IsEncrypted(creds.level) && creds.privProtocol == NoPriv then Some(UnsupportedPrivProtocol)
    else if IsAuthenticated(creds.level) && creds.authProtocol == NoAuth then Some(UnsupportedAuthProtocol)
    else None
  }

  function V2cTerms(id: int32, ep: Endpoint, community: octets): Terms {
    Terms(ep, false, community, false, NoAuth, NoPriv, [], [], [], id, false)
  }

  function StartRequest(w: World, s0: State, target: Target, auth: Auth, pdu: Pdu): State {
    var rid := |s0.ops.rs|;
    var s := s0.(ops := s0.ops.(rs := s0.ops.rs + [Request(target, auth, pdu, 0, NotCancelled, false, Exchanging)]));
    if s.stopping then s.(ops := FinishRequest(s.ops, rid, Failed(Fault(ClientStopped))))
    else
      match auth
      case ByCommunity(community) =>
        Launch(w, s, ForV2c(rid), target, V2cTerms(s.net.nextId, target.endpoint, community),
               V2cOut(V2cMessage(community, pdu.(requestId := s.net.nextId))))
      case ByUser(creds) =>
        if Unsupported(creds).Some? then
          s.(ops := FinishRequest(s.ops, rid, Failed(Fault(Unsupported(creds).value))))
        else EnsureEngine(w, s, rid)
  }

  //
  // Discovery
  //

  function Probe(id: int32, level: SecurityLevel, usm: UsmParameters, auth: AuthProtocol, key: octets,
                 priv: PrivProtocol, privKey: octets): Outgoing
  {
    V3Out(HeaderFor(id, level), usm, ScopedPdu(usm.engineId, [], Pdu(Get, id, 0, 0, [])), auth, key, priv, privKey)
  }

  function IdentifyTerms(id: int32, ep: Endpoint): Terms {
    Terms(ep, true, [], false, NoAuth, NoPriv, [], [], [], id, false)
  }

  /** Phase one: ask with no engineID at all. */
  function Identify(w: World, s: State, did: nat): State
    requires did < |s.ops.ds|
  {
    var d := s.ops.ds[did];
    Launch(w, s.(ops := s.ops.(ds := s.ops.ds[did := d.(stage := Discovering)])), ForIdentify(did), d.target,
           IdentifyTerms(s.net.nextId, d.target.endpoint),
           Probe(s.net.nextId, NoAuthNoPriv, NO_SECURITY, NoAuth, [], NoPriv, []))
  }

  function SyncTerms(id: int32, ep: Endpoint, engineId: octets, creds: Credentials, key: octets,
                     privKey: octets): Terms {
    Terms(ep, true, [], true, creds.authProtocol, creds.privProtocol, key, privKey, engineId, id, true)
  }

  /** Phase two, when authenticating: a message whose clock is zero, to provoke a signed account of the real one. */
  function Synchronise(w: World, s: State, did: nat, engineId: octets): State
    requires did < |s.ops.ds|
  {
    var d := s.ops.ds[did];
    match KeysFor(w, d.creds, engineId)
    case Err(fault) => s.(ops := FinishDiscovery(s.ops, did, Fault(fault)))
    case Ok((key, privKey)) =>
      Launch(w, s, ForSync(did), d.target,
             SyncTerms(s.net.nextId, d.target.endpoint, engineId, d.creds, key, privKey),
             Probe(s.net.nextId, d.creds.level, UsmParameters(engineId, 0, 0, d.creds.userName, [], []),
                   d.creds.authProtocol, key, d.creds.privProtocol, privKey))
  }

  function Identified(w: World, s: State, did: nat, security: UsmParameters): State
    requires did < |s.ops.ds|
  {
    if security.engineId == [] then s.(ops := FinishDiscovery(s.ops, did, Fault(UnknownEngineId)))
    else
      var s1 := s.(cache := RecordIdentity(s.cache, s.now, s.ops.ds[did].target.endpoint, security));
      if !IsAuthenticated(s.ops.ds[did].creds.level) || s1.cache.engines[security.engineId].timeSynced
      then s1.(ops := FinishDiscovery(s.ops, did, NoError))
      else Synchronise(w, s1, did, security.engineId)
  }

  /** Why the time-sync phase's reply gives no pair to record, if it does not. */
  function NoBaseline(p: Pending): Option<Errc> {
    if !p.replyAuthenticated then Some(ReportError(UsmStatsCounter(p.response)))
    else if p.security.boots == BOOTS_CEILING then Some(NotInTimeWindow)
    else None
  }

  function Synchronised(s: State, did: nat, p: Pending): State
    requires did < |s.ops.ds|
  {
    if NoBaseline(p).Some? then s.(ops := FinishDiscovery(s.ops, did, Fault(NoBaseline(p).value)))
    else s.(cache := RecordBaseline(s.cache, s.now, p.terms.engineId, p.security),
            ops := FinishDiscovery(s.ops, did, NoError))
  }

  //
  // Continuing after an exchange
  //

  /** The next round, which only the first one may ask for. */
  function Again(ops: Ops, rid: nat): Ops
    requires rid < |ops.rs|
  {
    ops.(rs := ops.rs[rid := ops.rs[rid].(round := ops.rs[rid].round + 1)])
  }

  function Reported(w: World, s: State, rid: nat, p: Pending): State
    requires rid < |s.ops.rs| && s.ops.rs[rid].auth.ByUser?
  {
    var counter := UsmStatsCounter(p.response);
    if s.ops.rs[rid].round != 0 || !Retryable(counter) then
      s.(ops := FinishRequest(s.ops, rid, Failed(Fault(ReportError(counter)))))
    else
      EnsureEngine(w, s.(cache := Resynchronise(s.cache, s.now, s.ops.rs[rid].target.endpoint, p),
                         ops := Again(s.ops, rid)), rid)
  }

  function Responded(s: State, rid: nat, p: Pending): State
    requires rid < |s.ops.rs|
  {
    s.(cache := if p.replyAuthenticated
                then ObserveEngineTime(s.cache, s.now, s.ops.rs[rid].target.endpoint, p.security) else s.cache,
       ops := FinishRequest(s.ops, rid, ToResult(p.response)))
  }

  function Succeed(w: World, s: State, o: Owner, p: Pending): State
    requires OwnerKnown(o, s.ops)
  {
    match o
    case ForV2c(rid) => s.(ops := FinishRequest(s.ops, rid, ToResult(p.response)))
    case ForData(rid, _) => if p.response.kind == Report then Reported(w, s, rid, p) else Responded(s, rid, p)
    case ForIdentify(did) => Identified(w, s, did, p.security)
    case ForSync(did) => Synchronised(s, did, p)
  }

  /** The wait the exchange is in goes into its account. */
  function Waited(e: Exchange, now: Instant): Exchange {
    e.(waits := e.waits + [Wait(e.armed, now)])
  }

  function Over(e: Exchange, outcome: ErrorCode, now: Instant): Exchange {
    (if e.phase.Waiting? || e.phase.Draining? then Waited(e, now) else e).(phase := Ended(outcome))
  }

  function EndExchange(net: Net, x: nat, outcome: ErrorCode, now: Instant): Net
    requires x < |net.xs|
  {
    net.(xs := net.xs[x := Over(net.xs[x], outcome, now)], table := net.table - {net.xs[x].pending.terms.id})
  }

  /** The loop is over: the entry leaves the table, the end is classified, and the owner carries on. */
  function Complete(w: World, s: State, x: nat, sendError: Option<int>): State
    requires x < |s.net.xs| && OwnersKnown(s.net, s.ops)
  {
    var e := s.net.xs[x];
    var outcome := Classify(s.stopping, CancelOf(s.ops, e.owner), e.pending, sendError);
    var s1 := s.(net := EndExchange(s.net, x, outcome, s.now));
    if outcome == NoError then Succeed(w, s1, e.owner, e.pending) else s1.(ops := FailOwner(s.ops, e.owner, outcome))
  }

  //
  // The retransmission loop
  //

  datatype Move = Stay(e: Exchange) | Leave

  /** After a send: arm the deadline, unless the send failed or Stopping began meanwhile. */
  function AfterSend(e: Exchange, now: Instant, stopping: bool, error: Option<int>): Move {
    if error.Some? || stopping then Leave
    else Stay(e.(phase := Waiting(now + e.timeout), woken := false, armed := now))
  }

  /** After a wait: leave, drain, or send again. A total signal lets the wait finish but sends no more. */
  function AfterWait(e: Exchange, now: Instant, stopping: bool, cancel: Cancellation): Move
    requires e.phase.Waiting? || e.phase.Draining?
  {
    if e.phase.Draining? || e.pending.answered || stopping || cancel == Terminal then Leave
    else if cancel == Total then Stay(e.(phase := Draining(e.phase.deadline), woken := false))
    else if e.attempt < e.retries then
      Stay(Waited(e, now).(phase := Sending, attempt := e.attempt + 1, sends := e.sends + 1, woken := false))
    else Leave
  }

  function Moved(w: World, s: State, x: nat, m: Move, sendError: Option<int>): State
    requires x < |s.net.xs| && OwnersKnown(s.net, s.ops)
  {
    match m
    case Stay(e) => s.(net := s.net.(xs := s.net.xs[x := e]))
    case Leave => Complete(w, s, x, sendError)
  }

  //
  // Cancellation, waiters and Stopping
  //

  function Signalled(c: Cancellation, terminal: bool): Cancellation {
    if terminal || c == Terminal then Terminal else Total
  }

  predicate OwnedBy(o: Owner, rid: nat) {
    (o.ForV2c? || o.ForData?) && o.rid == rid
  }

  /** A wait that is draining is on a slot nothing can cancel. */
  function CancelWait(e: Exchange, rid: nat): Exchange {
    if OwnedBy(e.owner, rid) && e.phase.Waiting? then e.(woken := true) else e
  }

  function CancelWaits(net: Net, rid: nat): Net {
    net.(xs := seq(|net.xs|, x requires 0 <= x < |net.xs| => CancelWait(net.xs[x], rid)))
  }

  /** The signal reaches the wait the request is in: the discovery's event, or its own exchange's timer. */
  function Cancel(s: State, rid: nat, terminal: bool): State
    requires rid < |s.ops.rs|
  {
    var r := s.ops.rs[rid];
    var signalled := r.(cancel := Signalled(r.cancel, terminal), woken := r.woken || r.place.Parked?);
    s.(ops := s.ops.(rs := s.ops.rs[rid := signalled]), net := CancelWaits(s.net, rid))
  }

  function ResumeWaiter(w: World, s: State, rid: nat): State
    requires OpsKnown(s.ops) && rid < |s.ops.rs| && s.ops.rs[rid].place.Parked?
  {
    var r := s.ops.rs[rid];
    var stage := s.ops.ds[r.place.did].stage;
    if s.stopping then s.(ops := FinishRequest(s.ops, rid, Failed(Fault(ClientStopped))))
    else if r.cancel != NotCancelled || !stage.Finished? then
      s.(ops := FinishRequest(s.ops, rid, Failed(OperationAborted)))
    else if stage.ec != NoError then s.(ops := FinishRequest(s.ops, rid, Failed(stage.ec)))
    else Ask(w, s, rid)
  }

  predicate InTable(net: Net, x: nat)
    requires x < |net.xs|
  {
    var id := net.xs[x].pending.terms.id;
    id in net.table && net.table[id] == x
  }

  predicate OnDiscovery(ops: Ops, r: Request) {
    r.place.Parked? && exists ep :: ep in ops.discovering && ops.discovering[ep] == r.place.did
  }

  predicate Outstanding(net: Net, x: nat) {
    exists id :: id in net.table && net.table[id] == x
  }

  function WakeListed(net: Net): Net {
    net.(xs := seq(|net.xs|, x requires 0 <= x < |net.xs| => if Outstanding(net, x) then Wake(net.xs[x])
                   else net.xs[x]))
  }

  function WakeWaiters(ops: Ops): Ops {
    ops.(rs := seq(|ops.rs|, r requires 0 <= r < |ops.rs| =>
                     if OnDiscovery(ops, ops.rs[r]) then ops.rs[r].(woken := true) else ops.rs[r]))
  }

  /** Stopping's second half: every wait in the table and on a discovery is woken. */
  function FinishStopping(s: State): State {
    s.(cleaned := true, net := WakeListed(s.net), ops := WakeWaiters(s.ops))
  }

  //
  // Events
  //

  datatype Event =
    | Tick(ms: nat)
    | Call(target: Target, auth: Auth, pdu: Pdu)
    | DiscoveryRuns(did: nat)
    | Datagram(bytes: octets, from: Endpoint)
    | Sent(x: nat, error: Option<int>)
    | Fires(x: nat)
    | Signal(rid: nat, terminal: bool)
    | WaiterRuns(rid: nat)
    | Stop
    | StopOnStrand

  predicate Enabled(s: State, e: Event)
    requires OpsKnown(s.ops)
  {
    match e
    case DiscoveryRuns(did) => did < |s.ops.ds| && s.ops.ds[did].stage == Spawned
    case Sent(x, _) => x < |s.net.xs| && s.net.xs[x].phase == Sending
    case Fires(x) => x < |s.net.xs| && Due(s.net.xs[x], s.now)
    case Signal(rid, _) => rid < |s.ops.rs| && !s.ops.rs[rid].place.Done?
    case WaiterRuns(rid) =>
      rid < |s.ops.rs| && s.ops.rs[rid].place.Parked?
      && (s.ops.rs[rid].woken || s.ops.ds[s.ops.rs[rid].place.did].stage.Finished?)
    case StopOnStrand => s.stopping && !s.cleaned
    case _ => true
  }

  /** A wait is over when its timer was cancelled or has expired. */
  predicate Due(e: Exchange, now: Instant) {
    (e.phase.Waiting? || e.phase.Draining?) && (e.woken || now >= e.phase.deadline)
  }

  /** An event that cannot happen in a state leaves it as it is. */
  function Step(w: World, s: State, e: Event): State
    requires Linked(s)
  {
    if !Enabled(s, e) then s
    else
      match e
      case Tick(ms) => s.(now := s.now + ms)
      case Call(target, auth, pdu) => StartRequest(w, s, target, auth, pdu)
      case DiscoveryRuns(did) => Identify(w, s, did)
      case Datagram(bytes, from) => s.(net := Deliver(w, s, bytes, from))
      case Sent(x, error) => Moved(w, s, x, AfterSend(s.net.xs[x], s.now, s.stopping, error), error)
      case Fires(x) =>
        Moved(w, s, x, AfterWait(s.net.xs[x], s.now, s.stopping, CancelOf(s.ops, s.net.xs[x].owner)), None)
      case Signal(rid, terminal) => Cancel(s, rid, terminal)
      case WaiterRuns(rid) => ResumeWaiter(w, s, rid)
      case Stop => s.(stopping := true)
      case StopOnStrand => FinishStopping(s)
  }

  /** A Client that has done nothing yet; its first identifier is random and positive. */
  function Initial(now: Instant, first: int32): State {
    State(now, false, false, Net(first, 0, [], map[]), Cache(map[], map[]), Ops([], [], map[]))
  }
}
