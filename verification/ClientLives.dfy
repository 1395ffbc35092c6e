/**
 * The life of one operation. Whatever else the Client is doing, a request or a discovery goes from one state to the
 * next as a small automaton of its own says, which reads the rest of the Client only where it must: the cache, the
 * discovery in flight for its endpoint, and its own exchange.
 */
module ClientLives {
  import opened Octets
  import opened Errors
  import opened Pdus
  import opened Usm
  import opened V3Messages
  import opened ClientModel
  import opened ClientSteps
  import opened ClientFrames
  import opened ClientRuns
  import opened ClientVerdicts
  import opened ClientExchanges
  import opened ClientClocks
  import opened ClientAges

  function Fails(ec: ErrorCode): Place {
    Done(Outcome(ec, [], 0))
  }

  //
  // Sending
  //

  /** What sending depends on besides the message. */
  datatype Setting = Setting(now: Instant, stopping: bool, nextId: int32, issued: nat)

  function SettingOf(s: State): Setting {
    Setting(s.now, s.stopping, s.net.nextId, s.net.issued)
  }

  /** Why a message does not go out, if it does not, in the order these are found out. */
  function Held(w: World, g: Setting, target: Target, cancel: Cancellation, out: Outgoing): Option<ErrorCode> {
    if w.encode(out).Some? then Some(Fault(w.encode(out).value))
    else if g.stopping then Some(Fault(ClientStopped))
    else if w.openError(g.issued).Some? then Some(SystemError(w.openError(g.issued).value))
    else if target.retries < 0 then Some(if cancel == NotCancelled then Fault(Timeout) else OperationAborted)
    else None
  }

  /** The keys a level calls for, or the first fault in deriving them. */
  function Keys(w: World, creds: Credentials, engineId: octets): Result<(octets, octets)> {
    if creds.level == NoAuthNoPriv then Ok(([], []))
    else if w.authKey(creds, engineId).Err? then Err(w.authKey(creds, engineId).error)
    else if creds.level == AuthNoPriv then Ok((w.authKey(creds, engineId).value, []))
    else if w.privKey(creds, engineId).Err? then Err(w.privKey(creds, engineId).error)
    else Ok((w.authKey(creds, engineId).value, w.privKey(creds, engineId).value))
  }

  lemma KeysAre(w: World, creds: Credentials, engineId: octets)
    ensures KeysFor(w, creds, engineId) == Keys(w, creds, engineId)
  {
  }

  /** A user's message to an Engine, with its clock at these. */
  function MessageTo(id: int32, creds: Credentials, engineId: octets, boots: int32, time: int32, pdu: Pdu, key: octets,
                     privKey: octets): Outgoing
  {
    V3Out(V3Header(id, 65507, creds.level, true, 3), UsmParameters(engineId, boots, time, creds.userName, [], []),
          ScopedPdu(engineId, [], pdu), creds.authProtocol, key, creds.privProtocol, privKey)
  }

  /** An Engine's clock by now: its pair, moved on by the whole seconds since it was learnt, up to the ceiling. */
  function TimeBy(e: EngineState, now: Instant): int32 {
    var time := e.time + Age(e, now) / 1000;
    if time > 0x7FFF_FFFF then 0x7FFF_FFFF else time
  }

  /** Every Engine is filed under its own engineID. */
  predicate Filed(c: Cache) {
    forall id :: id in c.engines ==> c.engines[id].engineId == id
  }

  predicate EngineAt(c: Cache, ep: Endpoint) {
    ep in c.engineAt && c.engineAt[ep] in c.engines
  }

  /** A message ready to go: whose it is, where to, and why it is held back after all, if it is. */
  datatype Birth = Birth(owner: Owner, target: Target, out: Outgoing, held: Option<ErrorCode>)

  /** Every message takes an identifier, which is the next one up, or one after the last; and it begins an exchange. */
  predicate Begins(net: Net, net': Net, birth: Option<Birth>) {
    match birth
    case None => |net'.xs| == |net.xs| && net'.nextId == net.nextId && net'.issued == net.issued
    case Some(b) =>
      && net'.nextId == (if net.nextId == 0x7FFF_FFFF then 1 else net.nextId + 1) && net'.issued == net.issued + 1
      && if b.held.Some? then |net'.xs| == |net.xs|
         else
           && |net'.xs| == |net.xs| + 1
           && var e := net'.xs[|net.xs|];
              && e.owner == b.owner && e.sent == b.out && e.phase == Sending
              && e.timeout == b.target.timeout && e.retries == b.target.retries
  }

  lemma LaunchLives(w: World, s: State, o: Owner, target: Target, terms: Terms, out: Outgoing)
    requires OwnerKnown(o, s.ops)
    ensures var s', held := Launch(w, s, o, target, terms, out), Held(w, SettingOf(s), target, CancelOf(s.ops, o), out);
            && s'.ops == (if held.Some? then FailOwner(s.ops, o, held.value) else s.ops)
            && Begins(s.net, s'.net, Some(Birth(o, target, out, held)))
  {
    hide FailOwner, CancelOf, OwnerKnown, Emplaced;
  }

  //
  // Requests
  //

  /** What a round of a v3 request sends, if it gets that far. */
  function Asking(w: World, c: Cache, g: Setting, r: Request): Result<Outgoing>
    requires r.auth.ByUser?
  {
    var creds, ep := r.auth.creds, r.target.endpoint;
    if !EngineAt(c, ep) then Err(UnknownEngineId)
    else
      var id := c.engineAt[ep];
      var e := c.engines[id];
      var (key, privKey) :- Keys(w, creds, id);
      Ok(MessageTo(g.nextId, creds, id, e.boots, TimeBy(e, g.now), r.pdu.(requestId := g.nextId), key, privKey))
  }

  function Asked(w: World, c: Cache, g: Setting, r: Request): Place
    requires r.auth.ByUser?
  {
    match Asking(w, c, g, r)
    case Err(fault) => Fails(Fault(fault))
    case Ok(out) =>
      match Held(w, g, r.target, r.cancel, out)
      case Some(ec) => Fails(ec)
      case None => Exchanging
  }

  function AskBirth(w: World, c: Cache, g: Setting, r: Request, rid: nat): Option<Birth>
    requires r.auth.ByUser?
  {
    match Asking(w, c, g, r)
    case Err(_) => None
    case Ok(out) => Some(Birth(ForData(rid, r.round), r.target, out, Held(w, g, r.target, r.cancel, out)))
  }

  lemma AskLives(w: World, s: State, rid: nat)
    requires rid < |s.ops.rs| && s.ops.rs[rid].auth.ByUser? && Filed(s.cache)
    ensures var s', r, g := Ask(w, s, rid), s.ops.rs[rid], SettingOf(s);
            && s'.ops == s.ops.(rs := s.ops.rs[rid := r.(place := Asked(w, s.cache, g, r))])
            && Begins(s.net, s'.net, AskBirth(w, s.cache, g, r, rid))
  {
    hide Launch, Held, Keys, KeysFor;
    var r := s.ops.rs[rid];
    if EngineAt(s.cache, r.target.endpoint) {
      var e := s.cache.engines[s.cache.engineAt[r.target.endpoint]];
      KeysAre(w, r.auth.creds, e.engineId);
      var keys := Keys(w, r.auth.creds, e.engineId);
      if keys.Ok? {
        var m := s.(ops := s.ops.(rs := s.ops.rs[rid := r.(place := Exchanging)]));
        var (key, privKey) := keys.value;
        LaunchLives(w, m, ForData(rid, r.round), r.target,
                    DataTerms(s.net.nextId, r.target.endpoint, e, r.auth.creds, key, privKey),
                    DataMessage(s.net.nextId, s.now, e, r.auth.creds, r.pdu, key, privKey));
        assert SettingOf(m) == SettingOf(s);
        var place := Asked(w, s.cache, SettingOf(s), r);
        assert m.ops.rs[rid := m.ops.rs[rid].(place := place)] == s.ops.rs[rid := r.(place := place)];
      }
    }
  }

  /** Enough is known of the Engine at the endpoint for this level: its name, and to sign, a clock that is trusted. */
  predicate Ready(c: Cache, r: Request)
    requires r.auth.ByUser?
  {
    var ep := r.target.endpoint;
    EngineAt(c, ep) && (r.auth.creds.level == NoAuthNoPriv || c.engines[c.engineAt[ep]].timeSynced)
  }

  /** On to the Engine, or to wait for the discovery of it: the one in flight, or a new one. */
  function Forwarded(w: World, c: Cache, g: Setting, ops: Ops, r: Request): Request
    requires r.auth.ByUser?
  {
    if Ready(c, r) then r.(place := Asked(w, c, g, r))
    else
      var ep := r.target.endpoint;
      r.(place := Parked(if ep in ops.discovering then ops.discovering[ep] else |ops.ds|), woken := false)
  }

  /** The discovery this spawns, if it does. */
  function Spawning(c: Cache, ops: Ops, r: Request): seq<Discovery>
    requires r.auth.ByUser?
  {
    if Ready(c, r) || r.target.endpoint in ops.discovering then [] else [Discovery(r.target, r.auth.creds, Spawned)]
  }

  function ForwardBirth(w: World, c: Cache, g: Setting, r: Request, rid: nat): Option<Birth>
    requires r.auth.ByUser?
  {
    if Ready(c, r) then AskBirth(w, c, g, r, rid) else None
  }

  lemma EnsureLives(w: World, s: State, rid: nat)
    requires rid < |s.ops.rs| && s.ops.rs[rid].auth.ByUser? && Filed(s.cache)
    ensures var s', r, g := EnsureEngine(w, s, rid), s.ops.rs[rid], SettingOf(s);
            && s'.ops.rs == s.ops.rs[rid := Forwarded(w, s.cache, g, s.ops, r)]
            && s'.ops.ds == s.ops.ds + Spawning(s.cache, s.ops, r)
            && Begins(s.net, s'.net, ForwardBirth(w, s.cache, g, r, rid))
  {
    hide Ask, Asked, AskBirth, Filed;
    AskLives(w, s, rid);
    assert s.ops.ds + [] == s.ops.ds;
  }

  /** A request as its caller makes it. */
  function Made(target: Target, auth: Auth, pdu: Pdu): Request {
    Request(target, auth, pdu, 0, NotCancelled, false, Exchanging)
  }

  function V2cMessageOf(g: Setting, r: Request): Outgoing
    requires r.auth.ByCommunity?
  {
    V2cOut(V2cMessage(r.auth.community, r.pdu.(requestId := g.nextId)))
  }

  /** The refusals at the call: Stopping, and a level that claims what no protocol is named for. */
  function Refused(g: Setting, r: Request): Option<ErrorCode> {
    if g.stopping then Some(Fault(ClientStopped))
    else if r.auth.ByCommunity? then None
    else if r.auth.creds.level == AuthPriv && r.auth.creds.privProtocol == NoPriv
        then Some(Fault(UnsupportedPrivProtocol))
    else if r.auth.creds.level != NoAuthNoPriv && r.auth.creds.authProtocol == NoAuth then
      Some(Fault(UnsupportedAuthProtocol))
    else None
  }

  function Entered(w: World, c: Cache, g: Setting, ops: Ops, r: Request): Request {
    if Refused(g, r).Some? then r.(place := Fails(Refused(g, r).value))
    else
      match r.auth
      case ByUser(_) => Forwarded(w, c, g, ops, r)
      case ByCommunity(_) =>
        match Held(w, g, r.target, r.cancel, V2cMessageOf(g, r))
        case Some(ec) => r.(place := Fails(ec))
        case None => r
  }

  function EntrySpawns(c: Cache, g: Setting, ops: Ops, r: Request): seq<Discovery> {
    if Refused(g, r).Some? || r.auth.ByCommunity? then [] else Spawning(c, ops, r)
  }

  function EntryBirth(w: World, c: Cache, g: Setting, r: Request, rid: nat): Option<Birth> {
    if Refused(g, r).Some? then None
    else
      match r.auth
      case ByUser(_) => ForwardBirth(w, c, g, r, rid)
      case ByCommunity(_) =>
        Some(Birth(ForV2c(rid), r.target, V2cMessageOf(g, r), Held(w, g, r.target, r.cancel, V2cMessageOf(g, r))))
  }

  /** A call adds one request, and this is it. */
  lemma CallLives(w: World, s: State, target: Target, auth: Auth, pdu: Pdu)
    requires Filed(s.cache)
    ensures var s', r, g := StartRequest(w, s, target, auth, pdu), Made(target, auth, pdu), SettingOf(s);
            && s'.ops.rs == s.ops.rs + [Entered(w, s.cache, g, s.ops, r)]
            && s'.ops.ds == s.ops.ds + EntrySpawns(s.cache, g, s.ops, r)
            && Begins(s.net, s'.net, EntryBirth(w, s.cache, g, r, |s.ops.rs|))
  {
    hide Launch, EnsureEngine, Forwarded, ForwardBirth, Spawning, Held, Filed;
    var rid, r := |s.ops.rs|, Made(target, auth, pdu);
    var m := s.(ops := s.ops.(rs := s.ops.rs + [r]));
    assert SettingOf(m) == SettingOf(s);
    assert forall r': Request :: m.ops.rs[rid := r'] == s.ops.rs + [r'];
    assert s.ops.ds + [] == s.ops.ds;
    if Refused(SettingOf(s), r).None? {
      if auth.ByCommunity? {
        LaunchLives(w, m, ForV2c(rid), target, V2cTerms(s.net.nextId, target.endpoint, auth.community),
                    V2cMessageOf(SettingOf(s), r));
      } else {
        EnsureLives(w, m, rid);
        ForwardedAlike(w, s.cache, SettingOf(s), s.ops, m.ops, r);
      }
    }
  }

  lemma ForwardedAlike(w: World, c: Cache, g: Setting, ops: Ops, ops': Ops, r: Request)
    requires r.auth.ByUser? && ops'.ds == ops.ds && ops'.discovering == ops.discovering
    ensures Forwarded(w, c, g, ops', r) == Forwarded(w, c, g, ops, r) && Spawning(c, ops', r) == Spawning(c, ops, r)
  {
    hide Asked;
  }

  /** A waiter that is let run: Stopping first, then its own cancellation, then what the discovery came to. */
  function Woken(w: World, c: Cache, g: Setting, ops: Ops, r: Request): Place
    requires r.auth.ByUser? && r.place.Parked? && r.place.did < |ops.ds|
  {
    var stage := ops.ds[r.place.did].stage;
    if g.stopping then Fails(Fault(ClientStopped))
    else if r.cancel != NotCancelled || !stage.Finished? then Fails(OperationAborted)
    else if stage.ec != NoError then Fails(stage.ec)
    else Asked(w, c, g, r)
  }

  function WakeBirth(w: World, c: Cache, g: Setting, ops: Ops, r: Request, rid: nat): Option<Birth>
    requires r.auth.ByUser? && r.place.Parked? && r.place.did < |ops.ds|
  {
    if g.stopping || r.cancel != NotCancelled || ops.ds[r.place.did].stage != Finished(NoError) then None
    else AskBirth(w, c, g, r, rid)
  }

  lemma ResumeLives(w: World, s: State, rid: nat)
    requires OpsKnown(s.ops) && rid < |s.ops.rs| && s.ops.rs[rid].place.Parked? && Filed(s.cache)
    ensures var s', r, g := ResumeWaiter(w, s, rid), s.ops.rs[rid], SettingOf(s);
            && r.auth.ByUser? && r.place.did < |s.ops.ds|
            && s'.ops == s.ops.(rs := s.ops.rs[rid := r.(place := Woken(w, s.cache, g, s.ops, r))])
            && Begins(s.net, s'.net, WakeBirth(w, s.cache, g, s.ops, r, rid))
  {
    hide Ask, Asked, AskBirth, Filed, OpsKnown;
    PlacesKnown(s.ops, rid);
    AskLives(w, s, rid);
  }

  //
  // The end of an exchange
  //

  /** The cancellation an exchange's operation has observed; a discovery belongs to nobody who could cancel it. */
  function SignalOf(ops: Ops, o: Owner): Cancellation
    requires OwnerKnown(o, ops)
  {
    if o.ForV2c? || o.ForData? then ops.rs[o.rid].cancel else NotCancelled
  }

  /**
   * The event that ends an exchange's loop: a send that failed or that Stopping overtook; or a wait that is over with a
   * reply, Stopping, a terminal signal, a total signal already waited out, or no attempt left.
   */
  predicate Leaves(s: State, e: Event, x: nat)
    requires OwnersKnown(s.net, s.ops)
  {
    && x < |s.net.xs|
    && var ex := s.net.xs[x];
       match e
       case Sent(y, error) => y == x && ex.phase == Sending && (error.Some? || s.stopping)
       case Fires(y) =>
         && y == x && (ex.phase.Waiting? || ex.phase.Draining?) && (ex.woken || s.now >= ex.phase.deadline)
         && (ex.phase.Draining? || ex.pending.answered || s.stopping || SignalOf(s.ops, ex.owner) == Terminal
             || (SignalOf(s.ops, ex.owner) == NotCancelled && ex.attempt >= ex.retries))
       case _ => false
  }

  /**
   * How it ends: what the caller asked for, then Stopping, then the reply, the socket and the Target, in this order.
   */
  function EndOf(stopping: bool, cancel: Cancellation, p: Pending, error: Option<int>): ErrorCode {
    if cancel == Terminal || (cancel == Total && (stopping || !p.answered)) then OperationAborted
    else if stopping then Fault(ClientStopped)
    else if p.answered then NoError
    else if error.Some? then SystemError(error.value)
    else Fault(if p.dropReason.Some? then p.dropReason.value else Timeout)
  }

  lemma ClassifyIs(stopping: bool, cancel: Cancellation, p: Pending, error: Option<int>)
    ensures Classify(stopping, cancel, p, error) == EndOf(stopping, cancel, p, error)
  {
  }

  function ErrorOf(e: Event): Option<int> {
    if e.Sent? then e.error else None
  }

  function EndAt(s: State, e: Event, x: nat): ErrorCode
    requires OwnersKnown(s.net, s.ops) && x < |s.net.xs|
  {
    EndOf(s.stopping, SignalOf(s.ops, s.net.xs[x].owner), s.net.xs[x].pending, ErrorOf(e))
  }

  /** What a caller is given of a Response. */
  function ResultOf(response: Pdu): Place {
    Done(Outcome(if response.errorStatus == 0 then NoError else AgentError(response.errorStatus), response.varbinds,
                 response.errorIndex))
  }

  /** A Report that a first round acts on and asks again after. */
  predicate AskedAgain(r: Request, p: Pending) {
    p.response.kind == Report && r.round == 0 && (Reports(p.response, 2) || Reports(p.response, 4))
  }

  /** A request whose exchange has ended, with the cache as that leaves it. */
  function Resumed(w: World, c: Cache, g: Setting, ops: Ops, r: Request, o: Owner, p: Pending, ec: ErrorCode): Request
    requires o.ForV2c? || (o.ForData? && r.auth.ByUser?)
  {
    if ec != NoError then r.(place := Fails(ec))
    else if o.ForV2c? || p.response.kind != Report then r.(place := ResultOf(p.response))
    else if AskedAgain(r, p) then Forwarded(w, c, g, ops, r.(round := 1))
    else r.(place := Fails(Fault(ErrorIn(p.response))))
  }

  function ResumeSpawns(c: Cache, ops: Ops, r: Request, o: Owner, p: Pending, ec: ErrorCode): seq<Discovery>
    requires o.ForV2c? || (o.ForData? && r.auth.ByUser?)
  {
    if ec == NoError && o.ForData? && AskedAgain(r, p) then Spawning(c, ops, r.(round := 1)) else []
  }

  function ResumeBirth(w: World, c: Cache, g: Setting, r: Request, o: Owner, p: Pending, ec: ErrorCode): Option<Birth>
    requires o.ForV2c? || (o.ForData? && r.auth.ByUser?)
  {
    if ec == NoError && o.ForData? && AskedAgain(r, p) then ForwardBirth(w, c, g, r.(round := 1), o.rid) else None
  }

  lemma FiledStays(c: Cache, now: Instant, ep: Endpoint, p: Pending)
    requires Filed(c)
    ensures Filed(Resynchronise(c, now, ep, p))
  {
  }

  lemma SucceedLives(w: World, s: State, o: Owner, p: Pending)
    requires OwnerKnown(o, s.ops) && (o.ForV2c? || o.ForData?) && Filed(s.cache)
    ensures var s', r, g := Succeed(w, s, o, p), s.ops.rs[o.rid], SettingOf(s);
            && s'.ops.rs == s.ops.rs[o.rid := Resumed(w, s'.cache, g, s.ops, r, o, p, NoError)]
            && s'.ops.ds == s.ops.ds + ResumeSpawns(s'.cache, s.ops, r, o, p, NoError)
            && Begins(s.net, s'.net, ResumeBirth(w, s'.cache, g, r, o, p, NoError))
  {
    hide EnsureEngine, Resynchronise, Forwarded, ForwardBirth, Spawning, ObserveEngineTime, Filed, UsmStatsCounter,
         Reports;
    assert s.ops.ds + [] == s.ops.ds;
    if o.ForData? && p.response.kind == Report {
      ReportErrorIs(p.response);
      var r, c := s.ops.rs[o.rid], Resynchronise(s.cache, s.now, s.ops.rs[o.rid].target.endpoint, p);
      var m := s.(cache := c, ops := Again(s.ops, o.rid));
      FiledStays(s.cache, s.now, r.target.endpoint, p);
      EnsureLives(w, m, o.rid);
      EnsureKeepsCache(w, m, o.rid);
      ForwardedAlike(w, c, SettingOf(s), s.ops, m.ops, r.(round := 1));
      assert SettingOf(m) == SettingOf(s);
      if AskedAgain(r, p) {
        assert m.ops.rs[o.rid] == r.(round := 1);
        var r' := Forwarded(w, c, SettingOf(s), s.ops, r.(round := 1));
        assert m.ops.rs[o.rid := r'] == s.ops.rs[o.rid := r'];
      }
    }
  }

  lemma EnsureKeepsCache(w: World, s: State, rid: nat)
    requires rid < |s.ops.rs| && s.ops.rs[rid].auth.ByUser?
    ensures EnsureEngine(w, s, rid).cache == s.cache
  {
  }

  //
  // Discoveries
  //

  /** The identity phase asks nothing of nobody. */
  function IdentifyMessage(g: Setting): Outgoing {
    V3Out(V3Header(g.nextId, 65507, NoAuthNoPriv, true, 3), UsmParameters([], 0, 0, [], [], []),
          ScopedPdu([], [], Pdu(Get, g.nextId, 0, 0, [])), NoAuth, [], NoPriv, [])
  }

  function Started(w: World, g: Setting, d: Discovery): Discovery {
    match Held(w, g, d.target, NotCancelled, IdentifyMessage(g))
    case Some(ec) => d.(stage := Finished(ec))
    case None => d.(stage := Discovering)
  }

  function StartBirth(w: World, g: Setting, d: Discovery, did: nat): Option<Birth> {
    Some(Birth(ForIdentify(did), d.target, IdentifyMessage(g), Held(w, g, d.target, NotCancelled, IdentifyMessage(g))))
  }

  lemma IdentifyLives(w: World, s: State, did: nat)
    requires did < |s.ops.ds|
    ensures var s', d, g := Identify(w, s, did), s.ops.ds[did], SettingOf(s);
            && s'.ops.ds == s.ops.ds[did := Started(w, g, d)] && s'.ops.rs == s.ops.rs
            && Begins(s.net, s'.net, StartBirth(w, g, d, did))
  {
    hide Launch, Held;
    var d := s.ops.ds[did];
    var m := s.(ops := s.ops.(ds := s.ops.ds[did := d.(stage := Discovering)]));
    assert SettingOf(m) == SettingOf(s);
    LaunchLives(w, m, ForIdentify(did), d.target, IdentifyTerms(s.net.nextId, d.target.endpoint),
                Probe(s.net.nextId, NoAuthNoPriv, NO_SECURITY, NoAuth, [], NoPriv, []));
    assert Probe(s.net.nextId, NoAuthNoPriv, NO_SECURITY, NoAuth, [], NoPriv, []) == IdentifyMessage(SettingOf(s));
    assert m.ops.ds[did := Started(w, SettingOf(s), d)] == s.ops.ds[did := Started(w, SettingOf(s), d)];
  }

  /** The time-sync phase asks nothing of the Engine found, with its clock at zero. */
  function SyncMessage(w: World, g: Setting, d: Discovery, id: octets): Result<Outgoing> {
    var (key, privKey) :- Keys(w, d.creds, id);
    Ok(MessageTo(g.nextId, d.creds, id, 0, 0, Pdu(Get, g.nextId, 0, 0, []), key, privKey))
  }

  /** Whether the identity found is not yet enough: the level signs, and no trusted clock is held for the Engine. */
  predicate ToSync(c: Cache, d: Discovery, id: octets) {
    id != [] && d.creds.level != NoAuthNoPriv && !(id in c.engines && c.engines[id].timeSynced)
  }

  function Identity(w: World, c: Cache, g: Setting, d: Discovery, id: octets): Discovery {
    if id == [] then d.(stage := Finished(Fault(UnknownEngineId)))
    else if !ToSync(c, d, id) then d.(stage := Finished(NoError))
    else
      match SyncMessage(w, g, d, id)
      case Err(fault) => d.(stage := Finished(Fault(fault)))
      case Ok(out) =>
        match Held(w, g, d.target, NotCancelled, out)
        case Some(ec) => d.(stage := Finished(ec))
        case None => d
  }

  function SyncBirth(w: World, c: Cache, g: Setting, d: Discovery, did: nat, id: octets): Option<Birth> {
    if !ToSync(c, d, id) then None
    else
      match SyncMessage(w, g, d, id)
      case Err(_) => None
      case Ok(out) => Some(Birth(ForSync(did), d.target, out, Held(w, g, d.target, NotCancelled, out)))
  }

  lemma IdentifiedLives(w: World, s: State, did: nat, security: UsmParameters)
    requires did < |s.ops.ds|
    ensures var s', d, g, id := Identified(w, s, did, security), s.ops.ds[did], SettingOf(s), security.engineId;
            && s'.ops.ds == s.ops.ds[did := Identity(w, s.cache, g, d, id)] && s'.ops.rs == s.ops.rs
            && Begins(s.net, s'.net, SyncBirth(w, s.cache, g, d, did, id))
  {
    hide Launch, Held, Keys, KeysFor;
    var d, id := s.ops.ds[did], security.engineId;
    var m := s.(cache := RecordIdentity(s.cache, s.now, d.target.endpoint, security));
    assert SettingOf(m) == SettingOf(s);
    if ToSync(s.cache, d, id) {
      KeysAre(w, d.creds, id);
      if Keys(w, d.creds, id).Ok? {
        var (key, privKey) := Keys(w, d.creds, id).value;
        LaunchLives(w, m, ForSync(did), d.target, SyncTerms(s.net.nextId, d.target.endpoint, id, d.creds, key, privKey),
                    Probe(s.net.nextId, d.creds.level, UsmParameters(id, 0, 0, d.creds.userName, [], []),
                          d.creds.authProtocol, key, d.creds.privProtocol, privKey));
        assert s.ops.ds[did := d] == s.ops.ds;
      }
    }
  }

  /** The end of the time-sync phase: a signed pair below the ceiling is a clock, and anything else is not. */
  function Synced(d: Discovery, p: Pending): Discovery {
    d.(stage := Finished(if !p.replyAuthenticated then Fault(ErrorIn(p.response))
                         else if p.security.boots == 0x7FFF_FFFF then Fault(NotInTimeWindow) else NoError))
  }

  lemma SynchronisedLives(s: State, did: nat, p: Pending)
    requires did < |s.ops.ds|
    ensures var s' := Synchronised(s, did, p);
            s'.ops.ds == s.ops.ds[did := Synced(s.ops.ds[did], p)] && s'.ops.rs == s.ops.rs && s'.net == s.net
  {
    hide UsmStatsCounter, ErrorIn;
    ReportErrorIs(p.response);
  }

  function DidOf(o: Owner): nat
    requires o.ForIdentify? || o.ForSync?
  {
    match o
    case ForIdentify(did) => did
    case ForSync(did) => did
  }

  /** A discovery whose exchange has ended. */
  function Followed(w: World, c: Cache, g: Setting, d: Discovery, o: Owner, p: Pending, ec: ErrorCode): Discovery {
    if ec != NoError then d.(stage := Finished(ec))
    else if o.ForIdentify? then Identity(w, c, g, d, p.security.engineId)
    else Synced(d, p)
  }

  function FollowBirth(w: World, c: Cache, g: Setting, d: Discovery, o: Owner, p: Pending,
                       ec: ErrorCode): Option<Birth> {
    if ec == NoError && o.ForIdentify? then SyncBirth(w, c, g, d, o.did, p.security.engineId) else None
  }

  lemma FollowLives(w: World, s: State, o: Owner, p: Pending)
    requires OwnerKnown(o, s.ops) && (o.ForIdentify? || o.ForSync?)
    ensures var s', did, g := Succeed(w, s, o, p), DidOf(o), SettingOf(s);
            && s'.ops.ds == s.ops.ds[did := Followed(w, s.cache, g, s.ops.ds[did], o, p, NoError)]
            && s'.ops.rs == s.ops.rs
            && Begins(s.net, s'.net, FollowBirth(w, s.cache, g, s.ops.ds[did], o, p, NoError))
  {
    hide Identified, Synchronised, Identity, Synced, SyncBirth;
    match o
    case ForIdentify(did) => IdentifiedLives(w, s, did, p.security);
    case ForSync(did) => SynchronisedLives(s, did, p);
  }

  //
  // Whole steps
  //

  lemma LeavesAfterSend(s: State, x: nat, error: Option<int>)
    requires Linked(s) && x < |s.net.xs| && s.net.xs[x].phase == Sending
    ensures AfterSend(s.net.xs[x], s.now, s.stopping, error).Leave? <==> Leaves(s, Sent(x, error), x)
  {
  }

  lemma LeavesAfterWait(s: State, x: nat)
    requires Linked(s) && x < |s.net.xs| && Due(s.net.xs[x], s.now)
    ensures OwnerKnown(s.net.xs[x].owner, s.ops)
    ensures AfterWait(s.net.xs[x], s.now, s.stopping, CancelOf(s.ops, s.net.xs[x].owner)).Leave?
       <==> Leaves(s, Fires(x), x)
  {
    hide OpsKnown, TableKnown;
    assert OwnerKnown(s.net.xs[x].owner, s.ops);
  }

  /** What an ended exchange leaves its operation, and every other, as. */
  predicate Concluded(w: World, s: State, s': State, o: Owner, p: Pending, ec: ErrorCode)
    requires OwnerKnown(o, s.ops)
  {
    var g := SettingOf(s);
    if o.ForV2c? || o.ForData? then
      var r := s.ops.rs[o.rid];
      && s'.ops.rs == s.ops.rs[o.rid := Resumed(w, s'.cache, g, s.ops, r, o, p, ec)]
      && s'.ops.ds == s.ops.ds + ResumeSpawns(s'.cache, s.ops, r, o, p, ec)
      && Begins(s.net, s'.net, ResumeBirth(w, s'.cache, g, r, o, p, ec))
    else
      var d := s.ops.ds[DidOf(o)];
      && s'.ops.rs == s.ops.rs
      && s'.ops.ds == s.ops.ds[DidOf(o) := Followed(w, s.cache, g, d, o, p, ec)]
      && Begins(s.net, s'.net, FollowBirth(w, s.cache, g, d, o, p, ec))
  }

  lemma FailLives(w: World, s: State, o: Owner, p: Pending, ec: ErrorCode)
    requires OwnerKnown(o, s.ops) && ec != NoError
    ensures Concluded(w, s, s.(ops := FailOwner(s.ops, o, ec)), o, p, ec)
  {
    hide Forwarded, ForwardBirth, Spawning, Identity, Synced, SyncBirth;
    assert s.ops.ds + [] == s.ops.ds;
  }

  lemma CompleteLives(w: World, s: State, x: nat, error: Option<int>)
    requires Linked(s) && Filed(s.cache) && x < |s.net.xs|
    ensures OwnerKnown(s.net.xs[x].owner, s.ops)
    ensures var e := s.net.xs[x];
            Concluded(w, s, Complete(w, s, x, error), e.owner, e.pending,
                  EndOf(s.stopping, SignalOf(s.ops, e.owner), e.pending, error))
  {
    hide Succeed, FailOwner, Classify, EndOf, OpsKnown, TableKnown, Filed, Resumed, ResumeSpawns, ResumeBirth, Followed,
         FollowBirth;
    var e := s.net.xs[x];
    assert OwnerKnown(e.owner, s.ops);
    ClassifyIs(s.stopping, CancelOf(s.ops, e.owner), e.pending, error);
    var ec := EndOf(s.stopping, SignalOf(s.ops, e.owner), e.pending, error);
    var m := s.(net := EndExchange(s.net, x, ec, s.now));
    assert SettingOf(m) == SettingOf(s) && |m.net.xs| == |s.net.xs|;
    assert forall net', b :: Begins(m.net, net', b) <==> Begins(s.net, net', b);
    if ec != NoError {
      FailLives(w, m, e.owner, e.pending, ec);
    } else if e.owner.ForV2c? || e.owner.ForData? {
      SucceedLives(w, m, e.owner, e.pending);
    } else {
      FollowLives(w, m, e.owner, e.pending);
    }
  }

  /** A signal is never taken back, and a terminal one is not made less of. */
  function SignalledBy(c: Cancellation, terminal: bool): Cancellation {
    if c == Terminal || terminal then Terminal else Total
  }

  predicate CanWake(ops: Ops, r: Request) {
    r.auth.ByUser? && r.place.Parked? && r.place.did < |ops.ds| && (r.woken || ops.ds[r.place.did].stage.Finished?)
  }

  /** The exchange an event may end. */
  function Leaving(s: State, e: Event): Option<nat>
    requires OwnersKnown(s.net, s.ops)
  {
    var x := if e.Sent? then e.x else if e.Fires? then e.x else |s.net.xs|;
    if Leaves(s, e, x) then Some(x) else None
  }

  /** A request after a step: nothing but these events moves it, and they move it so. */
  function RequestLife(w: World, s: State, c: Cache, e: Event, rid: nat): Request
    requires Linked(s) && rid < |s.ops.rs|
  {
    var r, g, x := s.ops.rs[rid], SettingOf(s), Leaving(s, e);
    if e.Signal? && e.rid == rid && !r.place.Done? then
      r.(cancel := SignalledBy(r.cancel, e.terminal), woken := r.woken || r.place.Parked?)
    else if e.WaiterRuns? && e.rid == rid && CanWake(s.ops, r) then r.(place := Woken(w, s.cache, g, s.ops, r))
    else if e.StopOnStrand? && s.stopping && !s.cleaned && r.place.Parked?
        && r.place.did in s.ops.discovering.Values then
      r.(woken := true)
    else if x.None? then r
    else
      var ex := s.net.xs[x.value];
      if !OwnedBy(ex.owner, rid) || !OwnerKnown(ex.owner, s.ops) then r
      else Resumed(w, c, g, s.ops, r, ex.owner, ex.pending, EndAt(s, e, x.value))
  }

  /** A discovery after a step. */
  function DiscoveryLife(w: World, s: State, e: Event, did: nat): Discovery
    requires Linked(s) && did < |s.ops.ds|
  {
    var d, g, x := s.ops.ds[did], SettingOf(s), Leaving(s, e);
    if e.DiscoveryRuns? && e.did == did && d.stage == Spawned then Started(w, g, d)
    else if x.None? then d
    else
      var ex := s.net.xs[x.value];
      if (ex.owner.ForIdentify? || ex.owner.ForSync?) && DidOf(ex.owner) == did then
        Followed(w, s.cache, g, d, ex.owner, ex.pending, EndAt(s, e, x.value))
      else d
  }

  /** The requests a step adds: its caller's, as far as it gets. */
  function Joining(w: World, s: State, e: Event): seq<Request> {
    if e.Call? then [Entered(w, s.cache, SettingOf(s), s.ops, Made(e.target, e.auth, e.pdu))] else []
  }

  /** The discoveries a step adds. */
  function Spawns(s: State, c: Cache, e: Event): seq<Discovery>
    requires Linked(s)
  {
    var g, x := SettingOf(s), Leaving(s, e);
    if e.Call? then EntrySpawns(s.cache, g, s.ops, Made(e.target, e.auth, e.pdu))
    else if x.None? then []
    else
      var ex := s.net.xs[x.value];
      if (ex.owner.ForV2c? || ex.owner.ForData?) && OwnerKnown(ex.owner, s.ops) then
        ResumeSpawns(c, s.ops, s.ops.rs[ex.owner.rid], ex.owner, ex.pending, EndAt(s, e, x.value))
      else []
  }

  /** The exchange a step begins. */
  function BirthAt(w: World, s: State, c: Cache, e: Event): Option<Birth>
    requires Linked(s)
  {
    var g, x := SettingOf(s), Leaving(s, e);
    if e.Call? then EntryBirth(w, s.cache, g, Made(e.target, e.auth, e.pdu), |s.ops.rs|)
    else if e.DiscoveryRuns? && e.did < |s.ops.ds| && s.ops.ds[e.did].stage == Spawned then
      StartBirth(w, g, s.ops.ds[e.did], e.did)
    else if e.WaiterRuns? && e.rid < |s.ops.rs| && CanWake(s.ops, s.ops.rs[e.rid]) then
      WakeBirth(w, s.cache, g, s.ops, s.ops.rs[e.rid], e.rid)
    else if x.None? then None
    else
      var ex := s.net.xs[x.value];
      if !OwnerKnown(ex.owner, s.ops) then None
      else if ex.owner.ForV2c? || ex.owner.ForData? then
        ResumeBirth(w, c, g, s.ops.rs[ex.owner.rid], ex.owner, ex.pending, EndAt(s, e, x.value))
      else FollowBirth(w, s.cache, g, s.ops.ds[DidOf(ex.owner)], ex.owner, ex.pending, EndAt(s, e, x.value))
  }

  /** All of a step, as far as operations go. */
  predicate Lived(w: World, s: State, e: Event, s': State)
    requires Linked(s)
  {
    && |s'.ops.rs| == |s.ops.rs| + |Joining(w, s, e)| && s'.ops.rs[|s.ops.rs|..] == Joining(w, s, e)
    && (forall rid :: 0 <= rid < |s.ops.rs| ==> s'.ops.rs[rid] == RequestLife(w, s, s'.cache, e, rid))
    && |s'.ops.ds| == |s.ops.ds| + |Spawns(s, s'.cache, e)| && s'.ops.ds[|s.ops.ds|..] == Spawns(s, s'.cache, e)
    && (forall did :: 0 <= did < |s.ops.ds| ==> s'.ops.ds[did] == DiscoveryLife(w, s, e, did))
    && Begins(s.net, s'.net, BirthAt(w, s, s'.cache, e))
  }

  lemma EndLives(w: World, s: State, e: Event, x: nat)
    requires Linked(s) && Filed(s.cache) && Leaves(s, e, x)
    ensures Lived(w, s, e, Complete(w, s, x, ErrorOf(e)))
  {
    hide Complete, Resumed, ResumeSpawns, ResumeBirth, Followed, FollowBirth, EndOf, OpsKnown, TableKnown, Filed,
         Leaves;
    hide Begins;
    LeavingIs(s, e, x);
    CompleteLives(w, s, x, ErrorOf(e));
    assert s.ops.ds + [] == s.ops.ds;
  }

  lemma LeavingIs(s: State, e: Event, x: nat)
    requires OwnersKnown(s.net, s.ops) && Leaves(s, e, x)
    ensures Leaving(s, e) == Some(x) && x < |s.net.xs| && (e.Sent? || e.Fires?)
  {
  }

  /** Nothing happens to an operation in a step that ends no exchange and is not about one. */
  lemma StaysLives(w: World, s: State, e: Event, s': State)
    requires Linked(s) && s'.ops == s.ops && Begins(s.net, s'.net, None)
    requires forall x :: !Leaves(s, e, x)
    requires match e
             case Call(_, _, _) => false
             case DiscoveryRuns(did) => !(did < |s.ops.ds| && s.ops.ds[did].stage == Spawned)
             case Signal(rid, _) => !(rid < |s.ops.rs| && !s.ops.rs[rid].place.Done?)
             case WaiterRuns(rid) => !(rid < |s.ops.rs| && CanWake(s.ops, s.ops.rs[rid]))
             case StopOnStrand => !s.stopping || s.cleaned
             case _ => true
    ensures Lived(w, s, e, s')
  {
    hide OpsKnown, TableKnown, Leaves, Resumed, ResumeSpawns, ResumeBirth, Followed, FollowBirth, Started, StartBirth,
         Woken, WakeBirth;
    assert Leaving(s, e) == None;
  }

  lemma CancelLives(w: World, s: State, rid: nat, terminal: bool)
    requires Linked(s) && rid < |s.ops.rs| && !s.ops.rs[rid].place.Done?
    ensures Lived(w, s, Signal(rid, terminal), Cancel(s, rid, terminal))
  {
    hide OpsKnown, TableKnown, OwnersKnown;
    hide Resumed, ResumeSpawns, ResumeBirth, Followed, FollowBirth;
    assert Leaving(s, Signal(rid, terminal)) == None;
  }

  lemma StopLives(w: World, s: State)
    requires Linked(s) && s.stopping && !s.cleaned
    ensures Lived(w, s, StopOnStrand, FinishStopping(s))
  {
    hide OpsKnown, TableKnown, OwnersKnown;
    hide Resumed, ResumeSpawns, ResumeBirth, Followed, FollowBirth, Outstanding;
    assert Leaving(s, StopOnStrand) == None;
    forall r | r in s.ops.rs
      ensures OnDiscovery(s.ops, r) <==> r.place.Parked? && r.place.did in s.ops.discovering.Values
    {
      if r.place.Parked? && r.place.did in s.ops.discovering.Values {
        var ep :| ep in s.ops.discovering && s.ops.discovering[ep] == r.place.did;
      }
    }
  }

  lemma EnabledWaiter(s: State, rid: nat)
    requires Linked(s) && rid < |s.ops.rs|
    ensures Enabled(s, WaiterRuns(rid)) <==> CanWake(s.ops, s.ops.rs[rid])
  {
    PlacesKnown(s.ops, rid);
  }

  /**
   * In every step, every operation does what its own automaton says: requests and discoveries there are, the ones that
   * are added, and the one exchange that may begin.
   */
  lemma StepLives(w: World, s: State, e: Event)
    requires Linked(s) && Filed(s.cache)
    ensures Lived(w, s, e, Step(w, s, e))
  {
    hide Lived, Filed, Complete, StartRequest, Identify, ResumeWaiter, Cancel, FinishStopping, Deliver, AfterSend,
         AfterWait, OwnersKnown, TableKnown, OpsKnown, Leaves;
    match e
    case Call(target, auth, pdu) => CallStep(w, s, target, auth, pdu);
    case DiscoveryRuns(did) => if Enabled(s, e) { RunsStep(w, s, did); } else { IdleStep(w, s, e); }
    case WaiterRuns(rid) =>
      if rid < |s.ops.rs| { EnabledWaiter(s, rid); }
      if Enabled(s, e) { WakesStep(w, s, rid); } else { IdleStep(w, s, e); }
    case Sent(x, error) => SentStep(w, s, x, error);
    case Fires(x) => FiresStep(w, s, x);
    case Signal(rid, terminal) => if Enabled(s, e) { CancelLives(w, s, rid, terminal); } else { IdleStep(w, s, e); }
    case StopOnStrand => if Enabled(s, e) { StopLives(w, s); } else { IdleStep(w, s, e); }
    case Datagram(bytes, from) =>
      DeliverKeeps(w, s, bytes, from);
      QuietStep(w, s, e, s.(net := Deliver(w, s, bytes, from)));
    case Tick(ms) => QuietStep(w, s, e, s.(now := s.now + ms));
    case Stop => QuietStep(w, s, e, s.(stopping := true));
  }

  lemma QuietStep(w: World, s: State, e: Event, s': State)
    requires Linked(s) && s'.ops == s.ops && Begins(s.net, s'.net, None) && (e.Datagram? || e.Tick? || e.Stop?)
    ensures Lived(w, s, e, s')
  {
    hide Lived;
    StaysLives(w, s, e, s');
  }

  lemma IdleStep(w: World, s: State, e: Event)
    requires Linked(s) && !Enabled(s, e)
    ensures Lived(w, s, e, s)
  {
    hide Lived, Due;
    if e.WaiterRuns? && e.rid < |s.ops.rs| { EnabledWaiter(s, e.rid); }
    assert forall x :: !Leaves(s, e, x) by { IdleLeaves(s, e); }
    StaysLives(w, s, e, s);
  }

  lemma IdleLeaves(s: State, e: Event)
    requires Linked(s) && !Enabled(s, e)
    ensures forall x :: !Leaves(s, e, x)
  {
    hide OpsKnown, TableKnown;
  }

  lemma CallStep(w: World, s: State, target: Target, auth: Auth, pdu: Pdu)
    requires Linked(s) && Filed(s.cache)
    ensures Lived(w, s, Call(target, auth, pdu), StartRequest(w, s, target, auth, pdu))
  {
    hide StartRequest, Entered, EntrySpawns, EntryBirth, Begins, Filed, OpsKnown, TableKnown, OwnersKnown;
    hide Resumed, ResumeSpawns, ResumeBirth, Followed, FollowBirth;
    CallLives(w, s, target, auth, pdu);
    assert Leaving(s, Call(target, auth, pdu)) == None;
  }

  lemma RunsStep(w: World, s: State, did: nat)
    requires Linked(s) && did < |s.ops.ds| && s.ops.ds[did].stage == Spawned
    ensures Lived(w, s, DiscoveryRuns(did), Identify(w, s, did))
  {
    hide Identify, Started, StartBirth, Begins, OpsKnown, TableKnown, OwnersKnown;
    hide Resumed, ResumeSpawns, ResumeBirth, Followed, FollowBirth;
    IdentifyLives(w, s, did);
    assert Leaving(s, DiscoveryRuns(did)) == None;
  }

  lemma WakesStep(w: World, s: State, rid: nat)
    requires Linked(s) && Filed(s.cache) && rid < |s.ops.rs| && CanWake(s.ops, s.ops.rs[rid])
    ensures Lived(w, s, WaiterRuns(rid), ResumeWaiter(w, s, rid))
  {
    hide ResumeWaiter, Woken, WakeBirth, Begins, Filed, OpsKnown, TableKnown, OwnersKnown;
    hide Resumed, ResumeSpawns, ResumeBirth, Followed, FollowBirth;
    ResumeLives(w, s, rid);
    assert Leaving(s, WaiterRuns(rid)) == None;
  }

  lemma SentStep(w: World, s: State, x: nat, error: Option<int>)
    requires Linked(s) && Filed(s.cache)
    ensures Lived(w, s, Sent(x, error), Step(w, s, Sent(x, error)))
  {
    hide Lived, Filed, Complete, AfterSend, Leaves, OwnersKnown, TableKnown, OpsKnown;
    var e := Sent(x, error);
    if !Enabled(s, e) {
      IdleStep(w, s, e);
    } else {
      LeavesAfterSend(s, x, error);
      if Leaves(s, e, x) {
        EndLives(w, s, e, x);
      } else {
        assert forall y :: Leaves(s, e, y) ==> y == x by { OnlyThat(s, e, x); }
        StaysLives(w, s, e, Step(w, s, e));
      }
    }
  }

  lemma OnlyThat(s: State, e: Event, x: nat)
    requires OwnersKnown(s.net, s.ops) && ((e.Sent? && e.x == x) || (e.Fires? && e.x == x))
    ensures forall y :: Leaves(s, e, y) ==> y == x
  {
  }

  lemma FiresStep(w: World, s: State, x: nat)
    requires Linked(s) && Filed(s.cache)
    ensures Lived(w, s, Fires(x), Step(w, s, Fires(x)))
  {
    hide Lived, Filed, Complete, AfterWait, Leaves, OwnersKnown, TableKnown, OpsKnown, CancelOf;
    var e := Fires(x);
    if !Enabled(s, e) {
      IdleStep(w, s, e);
    } else {
      LeavesAfterWait(s, x);
      if Leaves(s, e, x) {
        EndLives(w, s, e, x);
      } else {
        assert forall y :: Leaves(s, e, y) ==> y == x by { OnlyThat(s, e, x); }
        StaysLives(w, s, e, Step(w, s, e));
      }
    }
  }

  //
  // Every run
  //

  /** The Engine a time-sync phase is with is in the cache. */
  predicate SyncsFiled(net: Net, c: Cache) {
    forall x :: 0 <= x < |net.xs| && net.xs[x].owner.ForSync? ==> net.xs[x].pending.terms.engineId in c.engines
  }

  lemma LearntFiled(c: Cache, now: Instant, ops: Ops, o: Owner, p: Pending)
    requires OwnerKnown(o, ops) && Filed(c) && (o.ForSync? ==> p.terms.engineId in c.engines)
    ensures var c' := Learnt(c, now, ops, o, p); Filed(c') && forall id :: id in c.engines ==> id in c'.engines
  {
  }

  lemma StepFiled(w: World, s: State, e: Event)
    requires Linked(s) && Filed(s.cache) && SyncsFiled(s.net, s.cache)
    ensures Filed(Step(w, s, e).cache) && SyncsFiled(Step(w, s, e).net, Step(w, s, e).cache)
  {
    hide Step, Learnt, Answering, Linked, Filed, Deliver;
    var s' := Step(w, s, e);
    StepLearns(w, s, e);
    var x := Answering(s, e);
    if x.Some? { LearntFiled(s.cache, s.now, s.ops, s.net.xs[x.value].owner, s.net.xs[x.value].pending); }
    assert forall id :: id in s.cache.engines ==> id in s'.cache.engines;
    StepTerms(w, s, e);
    StepBirth(w, s, e);
    forall y | 0 <= y < |s'.net.xs| && s'.net.xs[y].owner.ForSync?
      ensures s'.net.xs[y].pending.terms.engineId in s'.cache.engines
    {
      if y < |s.net.xs| { StepHears(w, s, e, y); } else { NewSyncFiled(w, s, e); }
    }
  }

  lemma NewSyncFiled(w: World, s: State, e: Event)
    requires Linked(s) && Filed(s.cache) && |Step(w, s, e).net.xs| == |s.net.xs| + 1
    requires Step(w, s, e).net.xs[|s.net.xs|].owner.ForSync?
    ensures Step(w, s, e).net.xs[|s.net.xs|].pending.terms.engineId in Step(w, s, e).cache.engines
  {
    hide Step, Learnt, Answering, Linked, Filed, BirthAt, RequestLife, DiscoveryLife, Joining, Spawns, Newborn;
    var s' := Step(w, s, e);
    StepLives(w, s, e);
    StepBirth(w, s, e);
    SyncBorn(w, s, e, s'.cache);
    NewbornEngine(s'.net.xs[|s.net.xs|], LocalNet(w, s, e), s.now);
    StepLearns(w, s, e);
    var x := Answering(s, e).value;
    IdentityFiled(s.cache, s.now, s.ops, s.net.xs[x].owner, s.net.xs[x].pending);
  }

  lemma IdentityFiled(c: Cache, now: Instant, ops: Ops, o: Owner, p: Pending)
    requires OwnerKnown(o, ops) && o.ForIdentify? && p.security.engineId != []
    ensures p.security.engineId in Learnt(c, now, ops, o, p).engines
  {
  }

  lemma NewbornEngine(e: Exchange, net: Net, now: Instant)
    requires Newborn(e, net, now) && e.sent.V3Out?
    ensures e.pending.terms.engineId == e.sent.usm.engineId
  {
  }

  /** A time-sync phase begins only as an identity phase ends, with the Engine that one named. */
  lemma SyncBorn(w: World, s: State, e: Event, c: Cache)
    requires Linked(s) && BirthAt(w, s, c, e).Some? && BirthAt(w, s, c, e).value.owner.ForSync?
    requires BirthAt(w, s, c, e).value.held.None?
    ensures var b, x := BirthAt(w, s, c, e).value, Answering(s, e);
            && b.out.V3Out? && x.Some? && x.value < |s.net.xs|
            && s.net.xs[x.value].owner.ForIdentify? && s.net.xs[x.value].pending.security.engineId != []
            && b.out.usm.engineId == s.net.xs[x.value].pending.security.engineId
  {
    hide OpsKnown, TableKnown, Held, Keys, Asked, Asking, Reports;
    var x := Leaving(s, e);
    assert x.Some? && s.net.xs[x.value].owner.ForIdentify?;
    assert OwnerKnown(s.net.xs[x.value].owner, s.ops);
  }

  lemma {:induction false} RunFiled(w: World, now: Instant, first: int32, trace: seq<Event>)
    ensures var s := Run(w, Initial(now, first), trace); Filed(s.cache) && SyncsFiled(s.net, s.cache)
    decreases |trace|
  {
    hide Step;
    if trace != [] {
      var before := trace[..|trace| - 1];
      RunFiled(w, now, first, before);
      StepFiled(w, Run(w, Initial(now, first), before), trace[|trace| - 1]);
    }
  }

  /**
   * In every run, the next event takes every request and every discovery exactly where its own automaton says, starts
   * exactly the exchange that says, and leaves all others as they are.
   */
  lemma RunLives(w: World, now: Instant, first: int32, trace: seq<Event>, e: Event)
    ensures Lived(w, Run(w, Initial(now, first), trace), e, Run(w, Initial(now, first), trace + [e]))
  {
    hide Lived, Run, Step;
    RunFiled(w, now, first, trace);
    RunSnoc(w, Initial(now, first), trace, e);
    StepLives(w, Run(w, Initial(now, first), trace), e);
  }

  //
  // The clock a request is sent with
  //

  lemma ResumesLeaves(s: State, e: Event, x: nat)
    requires Linked(s) && Resumes(s, e, x)
    ensures Leaves(s, e, x)
  {
    hide OpsKnown, TableKnown;
  }

  /** Every round that is sent was asked of a cache: the one there is after the step. */
  lemma DataBorn(w: World, s: State, e: Event, c: Cache) returns (r: Request, c0: Cache)
    requires Linked(s) && BirthAt(w, s, c, e).Some? && BirthAt(w, s, c, e).value.owner.ForData?
    ensures var b := BirthAt(w, s, c, e).value;
            && r.auth.ByUser? && Asking(w, c0, SettingOf(s), r) == Ok(b.out)
            && (c0 == c || (c0 == s.cache && Leaving(s, e).None?))
            && if e.Call? then b.owner.rid == |s.ops.rs| && r.target == e.target
               else b.owner.rid < |s.ops.rs| && r.target == s.ops.rs[b.owner.rid].target
  {
    hide OpsKnown, TableKnown, Held, Asking, Reports, Ready, Refused;
    var x := Leaving(s, e);
    if e.Call? {
      r, c0 := Made(e.target, e.auth, e.pdu), s.cache;
    } else if e.WaiterRuns? && e.rid < |s.ops.rs| && CanWake(s.ops, s.ops.rs[e.rid]) {
      r, c0 := s.ops.rs[e.rid], s.cache;
    } else {
      assert OwnerKnown(s.net.xs[x.value].owner, s.ops);
      r, c0 := s.ops.rs[s.net.xs[x.value].owner.rid].(round := 1), c;
    }
  }

  lemma AskedOf(w: World, c: Cache, g: Setting, r: Request)
    requires r.auth.ByUser? && Asking(w, c, g, r).Ok?
    ensures var ep, out := r.target.endpoint, Asking(w, c, g, r).value;
            && EngineAt(c, ep) && out.V3Out? && out.usm.engineId == c.engineAt[ep]
            && out.usm.boots == c.engines[c.engineAt[ep]].boots
            && out.usm.time == TimeBy(c.engines[c.engineAt[ep]], g.now)
  {
    hide Keys;
  }

  lemma CacheStays(w: World, s: State, e: Event)
    requires Linked(s) && Leaving(s, e).None?
    ensures Step(w, s, e).cache == s.cache
  {
    hide Step, Learnt, Linked, Resumes, Leaves;
    StepLearns(w, s, e);
    if Answering(s, e).Some? {
      var x := Answering(s, e).value;
      AnsweringIs(s, e, x);
      assert e.Sent? || e.Fires?;
      ResumesLeaves(s, e, x);
    }
  }

  lemma TargetStays(w: World, s: State, e: Event, rid: nat)
    requires Linked(s) && Lived(w, s, e, Step(w, s, e)) && rid < |Step(w, s, e).ops.rs|
    ensures Step(w, s, e).ops.rs[rid].target == if e.Call? && rid == |s.ops.rs| then e.target
                                               else if rid < |s.ops.rs| then s.ops.rs[rid].target
                                               else Step(w, s, e).ops.rs[rid].target
  {
    hide Step, Linked, RequestLife, DiscoveryLife, Spawns, BirthAt, Forwarded, Held, Refused;
    StepFollows(w, s, e);
    if e.Call? && rid == |s.ops.rs| {
      assert Step(w, s, e).ops.rs[|s.ops.rs|..][0] == Joining(w, s, e)[0];
      ForwardKeeps(w, s.cache, SettingOf(s), s.ops, Made(e.target, e.auth, e.pdu));
    }
  }

  lemma ForwardKeeps(w: World, c: Cache, g: Setting, ops: Ops, r: Request)
    ensures r.auth.ByUser? ==> Forwarded(w, c, g, ops, r).target == r.target
  {
  }

  /**
   * In every run, a request goes to the Engine the index names for its Target, with the boots of the last writing of
   * that Engine's pair and its time moved on by the whole seconds since that instant, up to the ceiling.
   */
  lemma ClockSent(w: World, now: Instant, first: int32, trace: seq<Event>, e: Event)
    requires var s, s' := Run(w, Initial(now, first), trace), Run(w, Initial(now, first), trace + [e]);
             |s'.net.xs| > |s.net.xs| && s'.net.xs[|s.net.xs|].owner.ForData?
    ensures var s, s' := Run(w, Initial(now, first), trace), Run(w, Initial(now, first), trace + [e]);
            var x := s'.net.xs[|s.net.xs|];
            && x.owner.rid < |s'.ops.rs| && x.sent.V3Out?
            && var ep := s'.ops.rs[x.owner.rid].target.endpoint;
               && ep in s'.cache.engineAt && x.sent.usm.engineId == s'.cache.engineAt[ep]
               && MovedOn(LastWriting(w, Initial(now, first), trace + [e], s'.cache.engineAt[ep]), s.now, x.sent.usm)
  {
    hide Run, LastWriting, MovedOn, TimeBy;
    var start := Initial(now, first);
    var s, s' := Run(w, start, trace), Run(w, start, trace + [e]);
    RunFiled(w, now, first, trace);
    RunSnoc(w, start, trace, e);
    SentFor(w, s, e);
    var x := s'.net.xs[|s.net.xs|];
    var id := s'.cache.engineAt[s'.ops.rs[x.owner.rid].target.endpoint];
    PairIsLastWriting(w, now, first, trace + [e], id);
    TimeByIs(s'.cache.engines[id], LastWriting(w, start, trace + [e], id), s.now, x.sent.usm);
  }

  /** The pair of this writing, its time moved on by the whole seconds since, up to the ceiling. */
  predicate MovedOn(last: Option<Writing>, now: Instant, usm: UsmParameters) {
    && last.Some? && usm.boots == last.value.clock.boots && last.value.at <= now
    && var time := last.value.clock.time + (now - last.value.at) / 1000;
       usm.time as int == if time > 0x7FFF_FFFF then 0x7FFF_FFFF else time
  }

  lemma TimeByIs(e: EngineState, last: Option<Writing>, now: Instant, usm: UsmParameters)
    requires last == Some(Writing(ClockOf(e), e.at)) && e.at <= now
    requires usm.boots == e.boots && usm.time == TimeBy(e, now)
    ensures MovedOn(last, now, usm)
  {
  }

  lemma SentFor(w: World, s: State, e: Event)
    requires Linked(s) && Filed(s.cache)
    requires var s' := Step(w, s, e); |s'.net.xs| > |s.net.xs| && s'.net.xs[|s.net.xs|].owner.ForData?
    ensures var s' := Step(w, s, e);
            var x := s'.net.xs[|s.net.xs|];
            && s'.now == s.now && x.owner.rid < |s'.ops.rs| && x.sent.V3Out?
            && var ep := s'.ops.rs[x.owner.rid].target.endpoint;
               && EngineAt(s'.cache, ep) && x.sent.usm.engineId == s'.cache.engineAt[ep]
               && x.sent.usm.boots == s'.cache.engines[s'.cache.engineAt[ep]].boots
               && x.sent.usm.time == TimeBy(s'.cache.engines[s'.cache.engineAt[ep]], s.now)
  {
    hide Step, OpsKnown, TableKnown, OwnersKnown, Filed, BirthAt, Asking, TimeBy, RequestLife, DiscoveryLife, Joining,
         Spawns;
    var s' := Step(w, s, e);
    StepLives(w, s, e);
    StepFollows(w, s, e);
    var r, c0 := DataBorn(w, s, e, s'.cache);
    if Leaving(s, e).None? { CacheStays(w, s, e); }
    AskedOf(w, s'.cache, SettingOf(s), r);
    var rid := s'.net.xs[|s.net.xs|].owner.rid;
    OneJoins(w, s, e);
    TargetStays(w, s, e, rid);
    NoTick(w, s, e, s'.cache);
  }

  lemma OneJoins(w: World, s: State, e: Event)
    ensures |Joining(w, s, e)| == if e.Call? then 1 else 0
  {
  }

  lemma NoTick(w: World, s: State, e: Event, c: Cache)
    requires Linked(s) && BirthAt(w, s, c, e).Some?
    ensures !e.Tick?
  {
  }
}
