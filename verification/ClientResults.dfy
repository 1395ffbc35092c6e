/** End to end: that what is sent is what was asked, and that what a caller gets is what one datagram said. */
module ClientResults {
  import opened Octets
  import opened Errors
  import opened Pdus
  import opened Usm
  import opened V3Messages
  import opened ClientModel
  import opened ClientSteps
  import opened ClientFrames
  import opened ClientRuns
  import opened ClientExchanges
  import opened ClientTrust
  import opened ClientClocks
  import opened ClientOps
  import opened ClientIds

  //
  // What is sent
  //

  /**
   * A message to the Engine addressed: at the caller's own level, as the caller's own user, asking for Reports, in the
   * Engine's default context, under the keys localised to it.
   */
  predicate AsUser(w: World, creds: Credentials, t: Terms, out: Outgoing) {
    && out.V3Out? && out.header == V3Header(t.id, 65507, creds.level, true, 3)
    && out.usm == UsmParameters(t.engineId, out.usm.boots, out.usm.time, creds.userName, [], [])
    && out.scoped.contextEngineId == t.engineId && out.scoped.contextName == []
    && out.auth == creds.authProtocol && out.priv == creds.privProtocol
    && out.authKey == t.authKey && out.privKey == t.privKey
    && (if creds.level != NoAuthNoPriv then w.authKey(creds, t.engineId) == Ok(t.authKey) else t.authKey == [])
    && (if creds.level == AuthPriv then w.privKey(creds, t.engineId) == Ok(t.privKey) else t.privKey == [])
  }

  /**
   * The PDU asked for; or, in a discovery, one that asks for nothing, of no Engine or of one with its clock at zero.
   */
  predicate AsAsked(w: World, ops: Ops, o: Owner, t: Terms, out: Outgoing)
    requires OwnerKnown(o, ops)
  {
    match o
    case ForV2c(rid) =>
      out == V2cOut(V2cMessage(ops.rs[rid].auth.community, ops.rs[rid].pdu.(requestId := t.id)))
    case ForData(rid, _) =>
      AsUser(w, ops.rs[rid].auth.creds, t, out) && out.scoped.pdu == ops.rs[rid].pdu.(requestId := t.id)
    case ForIdentify(did) =>
      out == V3Out(V3Header(t.id, 65507, NoAuthNoPriv, true, 3), UsmParameters([], 0, 0, [], [], []),
                   ScopedPdu([], [], Pdu(Get, t.id, 0, 0, [])), NoAuth, [], NoPriv, [])
    case ForSync(did) =>
      && AsUser(w, ops.ds[did].creds, t, out)
      && out.usm.boots == 0 && out.usm.time == 0 && out.scoped.pdu == Pdu(Get, t.id, 0, 0, [])
  }

  /** The Target an exchange is for. */
  function TargetOf(ops: Ops, o: Owner): Target
    requires OwnerKnown(o, ops)
  {
    match o
    case ForV2c(rid) => ops.rs[rid].target
    case ForData(rid, _) => ops.rs[rid].target
    case ForIdentify(did) => ops.ds[did].target
    case ForSync(did) => ops.ds[did].target
  }

  /** To the Target asked for, with its timeout and its retries. */
  predicate SentRight(w: World, ops: Ops, e: Exchange) {
    && OwnerKnown(e.owner, ops) && AsAsked(w, ops, e.owner, e.pending.terms, e.sent) && w.encode(e.sent).None?
    && Target(e.pending.terms.from, e.timeout, e.retries) == TargetOf(ops, e.owner)
  }

  predicate NewSentRight(w: World, s: State, s': State) {
    forall x :: |s.net.xs| <= x < |s'.net.xs| ==> SentRight(w, s'.ops, s'.net.xs[x])
  }

  //
  // What is delivered
  //

  /** A completion that claims an answer: success, or the Agent's own error status. */
  predicate Claims(ec: ErrorCode) {
    ec == NoError || ec.AgentError?
  }

  /** No request came to claim an answer, and no discovery an Agent's error. */
  predicate NoneClaimed(ops: Ops, ops': Ops) {
    && |ops.rs| <= |ops'.rs| && |ops.ds| <= |ops'.ds|
    && (forall r :: 0 <= r < |ops'.rs| && ops'.rs[r].place.Done? && Claims(ops'.rs[r].place.outcome.ec) ==>
          r < |ops.rs| && ops.rs[r].place == ops'.rs[r].place)
    && (forall d :: 0 <= d < |ops'.ds| && ops'.ds[d].stage.Finished? && ops'.ds[d].stage.ec.AgentError? ==>
          d < |ops.ds| && ops.ds[d].stage == ops'.ds[d].stage)
  }

  lemma NoneClaimedChain(a: Ops, b: Ops, c: Ops)
    requires NoneClaimed(a, b) && NoneClaimed(b, c)
    ensures NoneClaimed(a, c)
  {
  }

  predicate Honest(w: World, s: State, s': State) {
    NoneClaimed(s.ops, s'.ops) && NewSentRight(w, s, s')
  }

  lemma HonestAfter(w: World, s: State, m: State, s': State)
    requires m.net == s.net && NoneClaimed(s.ops, m.ops) && Honest(w, m, s')
    ensures Honest(w, s, s')
  {
    hide NoneClaimed, SentRight;
    NoneClaimedChain(s.ops, m.ops, s'.ops);
  }

  lemma FailHonest(ops: Ops, o: Owner, ec: ErrorCode)
    requires OwnerKnown(o, ops) && !Claims(ec)
    ensures NoneClaimed(ops, FailOwner(ops, o, ec))
  {
  }

  lemma ClassifyClaims(stopping: bool, cancel: Cancellation, p: Pending, sendError: Option<int>)
    ensures Claims(Classify(stopping, cancel, p, sendError)) ==> p.answered
  {
  }

  lemma LaunchHonest(w: World, s: State, o: Owner, target: Target, t: Terms, out: Outgoing)
    requires OwnerKnown(o, s.ops) && AsAsked(w, s.ops, o, t, out)
    requires target == TargetOf(s.ops, o) && t.from == target.endpoint
    ensures Honest(w, s, Launch(w, s, o, target, t, out))
  {
    hide FailOwner, Emplaced, Next, Classify, OwnerKnown, NoneClaimed, AsAsked, TargetOf;
    if w.encode(out).Some? {
      FailHonest(s.ops, o, Fault(w.encode(out).value));
    } else if s.stopping {
      FailHonest(s.ops, o, Fault(ClientStopped));
    } else if w.openError(s.net.issued).Some? {
      FailHonest(s.ops, o, SystemError(w.openError(s.net.issued).value));
    } else if target.retries < 0 {
      ClassifyClaims(false, CancelOf(s.ops, o), Unanswered(t), None);
      FailHonest(s.ops, o, Classify(false, CancelOf(s.ops, o), Unanswered(t), None));
    } else {
      NoneClaimedSelf(s.ops);
    }
  }

  lemma NoneClaimedSelf(ops: Ops)
    ensures NoneClaimed(ops, ops)
  {
  }

  lemma EndHonest(ops: Ops, rid: nat, ec: ErrorCode)
    requires rid < |ops.rs| && !Claims(ec)
    ensures NoneClaimed(ops, FinishRequest(ops, rid, Failed(ec)))
  {
  }

  lemma DiscoveryEndHonest(ops: Ops, did: nat, ec: ErrorCode)
    requires did < |ops.ds| && !ec.AgentError?
    ensures NoneClaimed(ops, FinishDiscovery(ops, did, ec))
  {
  }

  lemma AskHonest(w: World, s: State, rid: nat)
    requires rid < |s.ops.rs| && s.ops.rs[rid].auth.ByUser?
    ensures Honest(w, s, Ask(w, s, rid))
  {
    hide NoneClaimed, Launch, EngineFor, FinishRequest;
    var r := s.ops.rs[rid];
    var id := EngineFor(s.cache, r.target.endpoint);
    if id.None? {
      EndHonest(s.ops, rid, Fault(UnknownEngineId));
    } else {
      var e := s.cache.engines[id.value];
      var keys := KeysFor(w, r.auth.creds, e.engineId);
      if keys.Err? {
        EndHonest(s.ops, rid, Fault(keys.error));
      } else {
        var m := s.(ops := s.ops.(rs := s.ops.rs[rid := r.(place := Exchanging)]));
        assert NoneClaimed(s.ops, m.ops) by { MoveHonest(s.ops, rid, r.(place := Exchanging)); }
        var t := DataTerms(s.net.nextId, r.target.endpoint, e, r.auth.creds, keys.value.0, keys.value.1);
        var out := DataMessage(s.net.nextId, s.now, e, r.auth.creds, r.pdu, keys.value.0, keys.value.1);
        LaunchHonest(w, m, ForData(rid, r.round), r.target, t, out);
        HonestAfter(w, s, m, Ask(w, s, rid));
      }
    }
  }

  lemma MoveHonest(ops: Ops, rid: nat, r: Request)
    requires rid < |ops.rs| && !r.place.Done?
    ensures NoneClaimed(ops, ops.(rs := ops.rs[rid := r]))
  {
  }

  lemma ParkHonest(w: World, s: State, rid: nat)
    requires rid < |s.ops.rs| && s.ops.rs[rid].auth.ByUser?
    ensures Honest(w, s, s.(ops := Park(s.ops, rid)))
  {
  }

  lemma EnsureHonest(w: World, s: State, rid: nat)
    requires rid < |s.ops.rs| && s.ops.rs[rid].auth.ByUser?
    ensures Honest(w, s, EnsureEngine(w, s, rid))
  {
    hide Honest, EngineReady, Ask, Park;
    AskHonest(w, s, rid);
    ParkHonest(w, s, rid);
  }

  lemma StartHonest(w: World, s: State, target: Target, auth: Auth, pdu: Pdu)
    ensures Honest(w, s, StartRequest(w, s, target, auth, pdu))
  {
    hide NoneClaimed, Launch, EnsureEngine, FinishRequest;
    var rid := |s.ops.rs|;
    var m := s.(ops := s.ops.(rs := s.ops.rs + [Request(target, auth, pdu, 0, NotCancelled, false, Exchanging)]));
    assert NoneClaimed(s.ops, m.ops) by { NewHonest(s.ops, m.ops.rs[rid]); }
    if s.stopping {
      EndHonest(m.ops, rid, Fault(ClientStopped));
    } else if auth.ByCommunity? {
      LaunchHonest(w, m, ForV2c(rid), target, V2cTerms(s.net.nextId, target.endpoint, auth.community),
                   V2cOut(V2cMessage(auth.community, pdu.(requestId := s.net.nextId))));
    } else if Unsupported(auth.creds).Some? {
      EndHonest(m.ops, rid, Fault(Unsupported(auth.creds).value));
    } else {
      EnsureHonest(w, m, rid);
    }
    HonestAfter(w, s, m, StartRequest(w, s, target, auth, pdu));
  }

  lemma NewHonest(ops: Ops, r: Request)
    requires !r.place.Done?
    ensures NoneClaimed(ops, ops.(rs := ops.rs + [r]))
  {
  }

  lemma IdentifyHonest(w: World, s: State, did: nat)
    requires did < |s.ops.ds|
    ensures Honest(w, s, Identify(w, s, did))
  {
    hide Launch;
    var d := s.ops.ds[did];
    var m := s.(ops := s.ops.(ds := s.ops.ds[did := d.(stage := Discovering)]));
    assert NoneClaimed(s.ops, m.ops);
    LaunchHonest(w, m, ForIdentify(did), d.target, IdentifyTerms(s.net.nextId, d.target.endpoint),
                 Probe(s.net.nextId, NoAuthNoPriv, NO_SECURITY, NoAuth, [], NoPriv, []));
    HonestAfter(w, s, m, Identify(w, s, did));
  }

  lemma IdentifiedHonest(w: World, s: State, did: nat, security: UsmParameters)
    requires did < |s.ops.ds|
    ensures Honest(w, s, Identified(w, s, did, security))
  {
    hide Launch, FinishDiscovery, NoneClaimed;
    DiscoveryEndHonest(s.ops, did, Fault(UnknownEngineId));
    DiscoveryEndHonest(s.ops, did, NoError);
    NoneClaimedSelf(s.ops);
    var d := s.ops.ds[did];
    var m := s.(cache := RecordIdentity(s.cache, s.now, d.target.endpoint, security));
    var keys := KeysFor(w, d.creds, security.engineId);
    if keys.Err? {
      DiscoveryEndHonest(s.ops, did, Fault(keys.error));
    } else if IsAuthenticated(d.creds.level) {
      var t := SyncTerms(s.net.nextId, d.target.endpoint, security.engineId, d.creds, keys.value.0, keys.value.1);
      var out := Probe(s.net.nextId, d.creds.level, UsmParameters(security.engineId, 0, 0, d.creds.userName, [], []),
                       d.creds.authProtocol, keys.value.0, d.creds.privProtocol, keys.value.1);
      LaunchHonest(w, m, ForSync(did), d.target, t, out);
      HonestAfter(w, s, m, Launch(w, m, ForSync(did), d.target, t, out));
    }
  }

  lemma SynchronisedHonest(w: World, s: State, did: nat, p: Pending)
    requires did < |s.ops.ds|
    ensures Honest(w, s, Synchronised(s, did, p))
  {
    hide FinishDiscovery, NoneClaimed;
    DiscoveryEndHonest(s.ops, did, NoError);
    if NoBaseline(p).Some? { DiscoveryEndHonest(s.ops, did, Fault(NoBaseline(p).value)); }
  }

  lemma ReportedHonest(w: World, s: State, rid: nat, p: Pending)
    requires rid < |s.ops.rs| && s.ops.rs[rid].auth.ByUser? && !s.ops.rs[rid].place.Done?
    ensures Honest(w, s, Reported(w, s, rid, p))
  {
    hide FinishRequest, NoneClaimed, EnsureEngine;
    var counter, r := UsmStatsCounter(p.response), s.ops.rs[rid];
    if r.round != 0 || !Retryable(counter) {
      EndHonest(s.ops, rid, Fault(ReportError(counter)));
    } else {
      var m := s.(cache := Resynchronise(s.cache, s.now, r.target.endpoint, p), ops := Again(s.ops, rid));
      MoveHonest(s.ops, rid, r.(round := r.round + 1));
      EnsureHonest(w, m, rid);
      HonestAfter(w, s, m, EnsureEngine(w, m, rid));
    }
  }

  lemma ResumeHonest(w: World, s: State, rid: nat)
    requires OpsKnown(s.ops) && rid < |s.ops.rs| && s.ops.rs[rid].place.Parked?
    requires var stage := s.ops.ds[s.ops.rs[rid].place.did].stage; stage.Finished? ==> !stage.ec.AgentError?
    ensures Honest(w, s, ResumeWaiter(w, s, rid))
  {
    hide FinishRequest, NoneClaimed, Ask, OpsKnown;
    PlacesKnown(s.ops, rid);
    EndHonest(s.ops, rid, Fault(ClientStopped));
    EndHonest(s.ops, rid, OperationAborted);
    var stage := s.ops.ds[s.ops.rs[rid].place.did].stage;
    if stage.Finished? && stage.ec != NoError { EndHonest(s.ops, rid, stage.ec); }
    AskHonest(w, s, rid);
  }

  // Whole steps.

  predicate NoAgentError(ops: Ops) {
    forall d :: 0 <= d < |ops.ds| && ops.ds[d].stage.Finished? ==> !ops.ds[d].stage.ec.AgentError?
  }

  /** The step completes a request with the answer of this exchange. */
  predicate Hands(s: State, s': State, x: nat) {
    && x < |s.net.xs| == |s'.net.xs|
    && var e := s.net.xs[x];
       && (e.owner.ForV2c? || (e.owner.ForData? && e.pending.response.kind != Report)) && OwnerKnown(e.owner, s.ops)
       && e.pending.answered && s'.net.xs[x] == Over(e, NoError, s.now)
       && s'.ops == FinishRequest(s.ops, e.owner.rid, ToResult(e.pending.response))
  }

  predicate Moves(w: World, s: State, s': State, x: nat) {
    Honest(w, s, s') || Hands(s, s', x)
  }

  lemma CompleteMoves(w: World, s: State, x: nat, error: Option<int>)
    requires Linked(s) && Ordered(s.net, s.ops) && x < |s.net.xs| && !s.net.xs[x].phase.Ended?
    ensures Moves(w, s, Complete(w, s, x, error), x)
  {
    hide Ordered, Quiet, Classify, CancelOf, FailOwner, Reported, Identified, Synchronised, OpsKnown, OwnersKnown,
         TableKnown, NoneClaimed, SentRight;
    var e := s.net.xs[x];
    var cancel := CancelFor(s, x);
    var outcome := Classify(s.stopping, cancel, e.pending, error);
    var m := s.(net := EndExchange(s.net, x, outcome, s.now));
    ClassifyClaims(s.stopping, cancel, e.pending, error);
    EndsQuiet(s.net, s.ops, x, outcome, s.now);
    if outcome != NoError {
      NeverAgentError(s.stopping, cancel, e.pending, error);
      FailHonest(s.ops, e.owner, outcome);
    } else {
      match e.owner
      case ForV2c(_) =>
      case ForData(rid, _) =>
        if e.pending.response.kind == Report {
          ReportedHonest(w, m, rid, e.pending);
          HonestOver(w, s, m, Reported(w, m, rid, e.pending));
        }
      case ForIdentify(did) =>
        IdentifiedHonest(w, m, did, e.pending.security);
        HonestOver(w, s, m, Identified(w, m, did, e.pending.security));
      case ForSync(did) =>
        SynchronisedHonest(w, m, did, e.pending);
        HonestOver(w, s, m, Synchronised(m, did, e.pending));
    }
  }

  lemma NeverAgentError(stopping: bool, cancel: Cancellation, p: Pending, error: Option<int>)
    ensures !Classify(stopping, cancel, p, error).AgentError?
  {
  }

  lemma HonestOver(w: World, s: State, m: State, s': State)
    requires m.ops == s.ops && |m.net.xs| == |s.net.xs| && Honest(w, m, s')
    ensures Honest(w, s, s')
  {
  }

  lemma MovedMoves(w: World, s: State, x: nat, m: Move, error: Option<int>)
    requires Linked(s) && Ordered(s.net, s.ops) && x < |s.net.xs| && !s.net.xs[x].phase.Ended?
    ensures Moves(w, s, Moved(w, s, x, m, error), x)
  {
    hide Complete, NoneClaimed, Ordered;
    if m.Stay? {
      NoneClaimedSelf(s.ops);
    } else {
      CompleteMoves(w, s, x, error);
    }
  }

  /** The exchange a step is about. */
  function About(e: Event): nat {
    match e
    case Sent(x, _) => x
    case Fires(x) => x
    case _ => 0
  }

  lemma StepMoves(w: World, s: State, e: Event)
    requires Linked(s) && Ordered(s.net, s.ops) && NoAgentError(s.ops)
    ensures Moves(w, s, Step(w, s, e), About(e))
  {
    hide Ordered, OwnersKnown, OpsKnown, TableKnown, StartRequest, Identify, Deliver, Moved, ResumeWaiter, CancelOf,
         Cancel, FinishStopping, NoneClaimed, Hands, SentRight;
    NoneClaimedSelf(s.ops);
    if Enabled(s, e) {
      match e
      case Call(target, auth, pdu) => StartHonest(w, s, target, auth, pdu);
      case DiscoveryRuns(did) => IdentifyHonest(w, s, did);
      case Datagram(bytes, from) => DeliverKeeps(w, s, bytes, from);
      case Sent(x, error) => MovedMoves(w, s, x, AfterSend(s.net.xs[x], s.now, s.stopping, error), error);
      case Fires(x) =>
        var cancel := FiringCancel(s, x);
        MovedMoves(w, s, x, AfterWait(s.net.xs[x], s.now, s.stopping, cancel), None);
      case Signal(rid, terminal) => SignalHonest(w, s, rid, terminal);
      case WaiterRuns(rid) =>
        PlacesKnown(s.ops, rid);
        ResumeHonest(w, s, rid);
      case StopOnStrand => StopHonest(w, s);
      case _ =>
    }
  }

  lemma SignalHonest(w: World, s: State, rid: nat, terminal: bool)
    requires rid < |s.ops.rs|
    ensures Honest(w, s, Cancel(s, rid, terminal))
  {
  }

  lemma StopHonest(w: World, s: State)
    ensures Honest(w, s, FinishStopping(s))
  {
    hide Outstanding, OnDiscovery;
  }

  //
  // Runs
  //

  /** An exchange over is over: nothing changes it again. */
  lemma EndedStays(w: World, s: State, e: Event, x: nat)
    requires Linked(s) && TableLive(s.net) && x < |s.net.xs| && s.net.xs[x].phase.Ended?
    ensures x < |Step(w, s, e).net.xs| && Step(w, s, e).net.xs[x] == s.net.xs[x]
  {
    hide Step, Grows, LocalNet, TableLive;
    StepFollows(w, s, e);
    EndedStaysLocally(w, s, e, x);
    GrowthKeeps(LocalNet(w, s, e), Step(w, s, e).net, s.now, s.stopping, x);
  }

  lemma EndedStaysLocally(w: World, s: State, e: Event, x: nat)
    requires Linked(s) && TableLive(s.net) && x < |s.net.xs| && s.net.xs[x].phase.Ended?
    ensures x < |LocalNet(w, s, e).xs| && LocalNet(w, s, e).xs[x] == s.net.xs[x]
  {
    hide Deliver, OwnersKnown, CancelOf, Classify, Outstanding, TableKnown, OpsKnown, TableLive;
    if Enabled(s, e) {
      match e
      case Datagram(bytes, from) =>
        DatagramTouchesNamed(w, s, bytes, from, x);
        if InTable(s.net, x) { ListedNotEnded(s.net, x); }
      case Fires(y) => var cancel := FiringCancel(s, y);
      case _ =>
    }
  }

  lemma ListedNotEnded(net: Net, x: nat)
    requires TableLive(net) && x < |net.xs| && InTable(net, x)
    ensures !net.xs[x].phase.Ended?
  {
    assert Listed(net, net.xs[x].pending.terms.id);
  }

  /** The outcome is this exchange's answer, and nothing else: its Varbinds, error index and error status. */
  predicate Backs(e: Exchange, rid: nat, outcome: Outcome) {
    && OwnedBy(e.owner, rid) && e.phase == Ended(NoError) && e.pending.answered
    && (e.owner.ForData? ==> e.pending.response.kind != Report)
    && outcome.varbinds == e.pending.response.varbinds && outcome.errorIndex == e.pending.response.errorIndex
    && (outcome.ec == NoError <==> e.pending.response.errorStatus == 0)
    && (outcome.ec != NoError ==> outcome.ec == AgentError(e.pending.response.errorStatus))
  }

  ghost predicate Backed(s: State, rid: nat)
    requires rid < |s.ops.rs|
  {
    s.ops.rs[rid].place.Done? && Claims(s.ops.rs[rid].place.outcome.ec) ==>
      exists x :: 0 <= x < |s.net.xs| && Backs(s.net.xs[x], rid, s.ops.rs[rid].place.outcome)
  }

  ghost predicate AllBacked(w: World, s: State) {
    && (forall r :: 0 <= r < |s.ops.rs| ==> Backed(s, r))
    && (forall x :: 0 <= x < |s.net.xs| ==> SentRight(w, s.ops, s.net.xs[x]))
    && NoAgentError(s.ops)
  }

  lemma StepBacked(w: World, s: State, e: Event)
    requires Linked(s) && TableLive(s.net) && Ordered(s.net, s.ops) && AllBacked(w, s)
    ensures AllBacked(w, Step(w, s, e))
  {
    hide Step, TableLive, Ordered, Linked, SentRight, Backs, NoAgentError, Backed;
    var s' := Step(w, s, e);
    StepMoves(w, s, e);
    StepKeepsSent(w, s, e);
    NoAgentErrorStays(w, s, s', About(e));
    forall r | 0 <= r < |s'.ops.rs| ensures Backed(s', r) { RequestBacked(w, s, e, r); }
  }

  lemma NoAgentErrorStays(w: World, s: State, s': State, x: nat)
    requires NoAgentError(s.ops) && Moves(w, s, s', x)
    ensures NoAgentError(s'.ops)
  {
    hide SentRight;
  }

  lemma RequestBacked(w: World, s: State, e: Event, r: nat)
    requires Linked(s) && TableLive(s.net) && AllBacked(w, s) && Moves(w, s, Step(w, s, e), About(e))
    requires r < |Step(w, s, e).ops.rs|
    ensures Backed(Step(w, s, e), r)
  {
    hide Step, TableLive, Linked, SentRight, Backs;
    var s', place := Step(w, s, e), Step(w, s, e).ops.rs[r].place;
    if place.Done? && Claims(place.outcome.ec) {
      var x := About(e);
      if Hands(s, s', x) && s.net.xs[x].owner.rid == r {
        HandedBacks(s, s', x);
      } else {
        assert r < |s.ops.rs| && s.ops.rs[r].place == place;
        assert Backed(s, r);
        var y :| 0 <= y < |s.net.xs| && Backs(s.net.xs[y], r, place.outcome);
        assert s.net.xs[y].phase.Ended? by { BacksEnded(s.net.xs[y], r, place.outcome); }
        EndedStays(w, s, e, y);
      }
    }
  }

  lemma BacksEnded(e: Exchange, rid: nat, outcome: Outcome)
    requires Backs(e, rid, outcome)
    ensures e.phase.Ended?
  {
  }

  lemma HandedBacks(s: State, s': State, x: nat)
    requires Hands(s, s', x)
    ensures var rid := s.net.xs[x].owner.rid;
            rid < |s'.ops.rs| && s'.ops.rs[rid].place.Done? && Backs(s'.net.xs[x], rid, s'.ops.rs[rid].place.outcome)
  {
  }

  lemma StepKeepsSent(w: World, s: State, e: Event)
    requires Linked(s) && Moves(w, s, Step(w, s, e), About(e))
    requires forall x :: 0 <= x < |s.net.xs| ==> SentRight(w, s.ops, s.net.xs[x])
    ensures var s' := Step(w, s, e); forall x :: 0 <= x < |s'.net.xs| ==> SentRight(w, s'.ops, s'.net.xs[x])
  {
    hide Step, Linked, SentRight, Deliver, OpsGrow, NoneClaimed;
    var s' := Step(w, s, e);
    StepFollows(w, s, e);
    StepTerms(w, s, e);
    forall x | 0 <= x < |s'.net.xs| ensures SentRight(w, s'.ops, s'.net.xs[x]) {
      if x < |s.net.xs| {
        StepHears(w, s, e, x);
        SentStaysRight(w, s.ops, s'.ops, s.net.xs[x], s'.net.xs[x]);
      }
    }
  }

  lemma SentStaysRight(w: World, ops: Ops, ops': Ops, e: Exchange, e': Exchange)
    requires SentRight(w, ops, e) && OpsGrow(ops, ops')
    requires e'.owner == e.owner && e'.sent == e.sent && e'.pending.terms == e.pending.terms
    requires e'.timeout == e.timeout && e'.retries == e.retries
    ensures SentRight(w, ops', e')
  {
    hide AsUser;
  }

  lemma {:induction false} RunBacked(w: World, now: Instant, first: int32, trace: seq<Event>)
    ensures AllBacked(w, Run(w, Initial(now, first), trace))
    decreases |trace|
  {
    hide Step, AllBacked, Ordered, TableLive, AllInOrder;
    if trace == [] {
      NothingToBack(w, now, first);
    } else {
      var before := trace[..|trace| - 1];
      RunBacked(w, now, first, before);
      RunOrdered(w, now, first, before);
      RunInOrder(w, now, first, before);
      StepBacked(w, Run(w, Initial(now, first), before), trace[|trace| - 1]);
    }
  }

  lemma NothingToBack(w: World, now: Instant, first: int32)
    ensures AllBacked(w, Initial(now, first))
  {
  }

  /**
   * In every run, what is sent is what was asked: the caller's PDU to the caller's Target, at the caller's own level
   * and as the caller's user, under the keys derived for the Engine addressed; and a discovery asks for nothing.
   */
  lemma SentAsAsked(w: World, now: Instant, first: int32, trace: seq<Event>, x: nat)
    requires x < |Run(w, Initial(now, first), trace).net.xs|
    ensures var s := Run(w, Initial(now, first), trace);
            var e := s.net.xs[x];
            && OwnerKnown(e.owner, s.ops) && AsAsked(w, s.ops, e.owner, e.pending.terms, e.sent)
            && Target(e.pending.terms.from, e.timeout, e.retries) == TargetOf(s.ops, e.owner)
            && w.encode(e.sent).None?
  {
    hide Run, AsAsked;
    RunBacked(w, now, first, trace);
    assert SentRight(w, Run(w, Initial(now, first), trace).ops, Run(w, Initial(now, first), trace).net.xs[x]);
  }

  /**
   * In every run, a request that completes with an answer hands its caller exactly what one datagram said, received
   * from the caller's Target as a Response to that request; and where the caller asked for authentication, that
   * datagram's digest verified under the key derived from the caller's credentials for the Engine addressed.
   */
  lemma CallerGetsOneDatagram(w: World, now: Instant, first: int32, trace: seq<Event>, rid: nat)
    returns (x: nat, d: octets)
    requires var ops := Run(w, Initial(now, first), trace).ops;
             rid < |ops.rs| && ops.rs[rid].place.Done? && Claims(ops.rs[rid].place.outcome.ec)
    ensures var s := Run(w, Initial(now, first), trace);
            && x < |s.net.xs| && Backs(s.net.xs[x], rid, s.ops.rs[rid].place.outcome)
            && Datagram(d, s.ops.rs[rid].target.endpoint) in trace
            && AnswerFrom(w, s.net.xs[x].pending, d) && s.net.xs[x].pending.response.kind == Response
            && (s.ops.rs[rid].auth.ByUser? && IsAuthenticated(s.ops.rs[rid].auth.creds.level) ==>
                  var creds, t := s.ops.rs[rid].auth.creds, s.net.xs[x].pending.terms;
                  && w.arrival(d).V3Arrival? && w.authKey(creds, t.engineId) == Ok(t.authKey)
                  && w.verifies(d, w.arrival(d).v3, creds.authProtocol, t.authKey))
  {
    hide Run;
    RunBacked(w, now, first, trace);
    var s := Run(w, Initial(now, first), trace);
    assert Backed(s, rid);
    x :| 0 <= x < |s.net.xs| && Backs(s.net.xs[x], rid, s.ops.rs[rid].place.outcome);
    d := AnswersAreOneDatagram(w, now, first, trace, x);
    JudgedBySent(w, now, first, trace, x);
    assert SentRight(w, s.ops, s.net.xs[x]);
    ResponseKind(w, s.net.xs[x], d);
  }

  lemma ResponseKind(w: World, e: Exchange, d: octets)
    requires AnswerFrom(w, e.pending, d) && TermsFit(e.owner, e.pending.terms)
    requires e.owner.ForData? ==> e.pending.response.kind != Report
    requires e.owner.ForV2c? || e.owner.ForData?
    ensures e.pending.response.kind == Response
  {
  }
}
