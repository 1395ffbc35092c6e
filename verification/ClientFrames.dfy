/** What each kind of step may change: the frame every invariant of the Client is proved within. */
module ClientFrames {
  import opened Octets
  import opened Errors
  import opened Pdus
  import opened Usm
  import opened V3Messages
  import opened ClientModel
  import opened ClientSteps

  /** Terms as every operation draws them up. */
  predicate TermsFit(o: Owner, t: Terms) {
    && (t.privKey != [] ==> t.authRequired)
    && (t.timeSyncPhase <==> o.ForSync?)
    && (o.ForSync? ==> t.authRequired)
    && (t.v3 <==> !o.ForV2c?) && (t.authRequired ==> t.v3)
  }

  /** What was sent and what a reply is held against agree: identifiers, Engine, protection and keys. */
  predicate SentFits(out: Outgoing, t: Terms) {
    match out
    case V2cOut(m) => !t.v3 && m.community == t.community && m.pdu.requestId == t.id
    case V3Out(h, u, scoped, auth, key, priv, privKey) =>
      && t.v3 && h.msgId == t.id && scoped.pdu.requestId == t.id
      && u.engineId == t.engineId && scoped.contextEngineId == t.engineId
      && t.authRequired == IsAuthenticated(h.level) && h.reportable && h.securityModel == SECURITY_MODEL_USM
      && auth == t.authProtocol && key == t.authKey && priv == t.privProtocol && privKey == t.privKey
      && (privKey != [] ==> IsEncrypted(h.level))
  }

  /** An exchange as its first send begins. */
  predicate Newborn(e: Exchange, net: Net, now: Instant) {
    && TermsFit(e.owner, e.pending.terms) && SentFits(e.sent, e.pending.terms)
    && e.pending == Unanswered(e.pending.terms) && e.pending.terms.id == net.nextId
    && e.phase == Sending && e.attempt == 0 && e.retries >= 0 && !e.woken
    && e.sends == 1 && e.began == now && e.waits == [] && e.ticket == net.issued
  }

  /** Whatever an operation does when it carries on, it starts at most one exchange, under the next identifier. */
  predicate Grows(net: Net, net': Net, now: Instant, stopping: bool) {
    || net' == net
    || (&& net'.nextId == Next(net.nextId) && net'.issued == net.issued + 1
        && ((net'.xs == net.xs && (net'.table == net.table || (!stopping && net'.table == net.table - {net.nextId}))) ||
            (!stopping && Born(net, net', now))))
  }

  predicate Born(net: Net, net': Net, now: Instant) {
    && |net'.xs| == |net.xs| + 1 && net'.xs[..|net.xs|] == net.xs && Newborn(net'.xs[|net.xs|], net, now)
    && net'.table == Emplaced(net.table, net.nextId, |net.xs|)
  }

  /** Operations are only added to; what they were started with stays, and a cancellation is never taken back. */
  predicate OpsGrow(ops: Ops, ops': Ops) {
    && |ops.rs| <= |ops'.rs| && |ops.ds| <= |ops'.ds|
    && (forall r :: 0 <= r < |ops.rs| ==>
          && ops'.rs[r].auth == ops.rs[r].auth
          && ops'.rs[r].target == ops.rs[r].target && ops'.rs[r].pdu == ops.rs[r].pdu
          && (ops.rs[r].cancel != NotCancelled ==> ops'.rs[r].cancel != NotCancelled))
    && (forall d :: 0 <= d < |ops.ds| ==> ops'.ds[d].creds == ops.ds[d].creds && ops'.ds[d].target == ops.ds[d].target)
  }

  predicate NewOwnerKnown(net: Net, s': State) {
    |net.xs| < |s'.net.xs| ==> OwnerKnown(s'.net.xs[|net.xs|].owner, s'.ops)
  }

  predicate Carries(s: State, s': State) {
    && s'.now == s.now && s'.stopping == s.stopping && s'.cleaned == s.cleaned
    && Grows(s.net, s'.net, s.now, s.stopping)
    && OpsGrow(s.ops, s'.ops) && OpsKnown(s'.ops) && NewOwnerKnown(s.net, s')
  }

  lemma OpsGrowChain(a: Ops, b: Ops, c: Ops)
    requires OpsGrow(a, b) && OpsGrow(b, c)
    ensures OpsGrow(a, c)
  {
  }

  lemma OwnersStayKnown(net: Net, a: Ops, b: Ops)
    requires OwnersKnown(net, a) && OpsGrow(a, b)
    ensures OwnersKnown(net, b)
  {
  }

  lemma CarriesLinked(s: State, s': State)
    requires Linked(s) && Carries(s, s')
    ensures Linked(s')
  {
    hide OwnerKnown, OpsGrow, Newborn, OpsKnown;
    OwnersStayKnown(s.net, s.ops, s'.ops);
    var n := |s.net.xs|;
    if |s'.net.xs| > n {
      assert s'.net.xs == s'.net.xs[..n] + [s'.net.xs[n]];
      assert forall x :: 0 <= x < n ==> s'.net.xs[x] == s'.net.xs[..n][x];
    }
  }

  lemma RequestEnds(ops: Ops, rid: nat, outcome: Outcome)
    requires OpsKnown(ops) && rid < |ops.rs|
    ensures OpsGrow(ops, FinishRequest(ops, rid, outcome)) && OpsKnown(FinishRequest(ops, rid, outcome))
  {
  }

  lemma DiscoveryEnds(ops: Ops, did: nat, ec: ErrorCode)
    requires OpsKnown(ops) && did < |ops.ds|
    ensures OpsGrow(ops, FinishDiscovery(ops, did, ec)) && OpsKnown(FinishDiscovery(ops, did, ec))
  {
  }

  lemma OwnerFails(ops: Ops, o: Owner, ec: ErrorCode)
    requires OpsKnown(ops) && OwnerKnown(o, ops)
    ensures OpsGrow(ops, FailOwner(ops, o, ec)) && OpsKnown(FailOwner(ops, o, ec))
  {
    hide OpsKnown, OpsGrow, FinishRequest, FinishDiscovery;
    match o
    case ForV2c(rid) => RequestEnds(ops, rid, Failed(ec));
    case ForData(rid, _) => RequestEnds(ops, rid, Failed(ec));
    case ForIdentify(did) => DiscoveryEnds(ops, did, ec);
    case ForSync(did) => DiscoveryEnds(ops, did, ec);
  }

  lemma LaunchCarries(w: World, s: State, o: Owner, target: Target, t: Terms, out: Outgoing)
    requires OpsKnown(s.ops) && OwnerKnown(o, s.ops) && TermsFit(o, t) && SentFits(out, t) && t.id == s.net.nextId
    ensures Carries(s, Launch(w, s, o, target, t, out)) && Launch(w, s, o, target, t, out).cache == s.cache
  {
    hide FailOwner, Emplaced, Next, Classify, TermsFit, SentFits, OpsKnown, OwnerKnown;
    var s' := Launch(w, s, o, target, t, out);
    if w.encode(out).Some? {
      OwnerFails(s.ops, o, Fault(w.encode(out).value));
    } else if s.stopping {
      OwnerFails(s.ops, o, Fault(ClientStopped));
    } else if w.openError(s.net.issued).Some? {
      OwnerFails(s.ops, o, SystemError(w.openError(s.net.issued).value));
    } else if target.retries < 0 {
      OwnerFails(s.ops, o, Classify(false, CancelOf(s.ops, o), Unanswered(t), None));
    } else {
      var n := |s.net.xs|;
      assert s'.net.xs[..n] == s.net.xs;
      assert Newborn(s'.net.xs[n], s.net, s.now);
      assert Born(s.net, s'.net, s.now);
    }
  }

  /** Operations' own moves, before anything is launched. */
  lemma CarriesChain(s: State, m: State, s': State)
    requires m.net == s.net && m.now == s.now && m.stopping == s.stopping && m.cleaned == s.cleaned
    requires OpsGrow(s.ops, m.ops) && Carries(m, s')
    ensures Carries(s, s')
  {
    hide Grows, OpsKnown, OwnerKnown, OpsGrow;
    OpsGrowChain(s.ops, m.ops, s'.ops);
  }

  lemma RequestMoves(ops: Ops, rid: nat, r: Request)
    requires OpsKnown(ops) && rid < |ops.rs|
    requires r.auth == ops.rs[rid].auth && r.target == ops.rs[rid].target && r.pdu == ops.rs[rid].pdu
    requires PlaceKnown(r, |ops.ds|)
    requires ops.rs[rid].cancel != NotCancelled ==> r.cancel != NotCancelled
    ensures OpsGrow(ops, ops.(rs := ops.rs[rid := r])) && OpsKnown(ops.(rs := ops.rs[rid := r]))
  {
  }

  lemma AskCarries(w: World, s: State, rid: nat)
    requires OpsKnown(s.ops) && rid < |s.ops.rs| && s.ops.rs[rid].auth.ByUser?
    ensures Carries(s, Ask(w, s, rid)) && Ask(w, s, rid).cache == s.cache
  {
    hide Grows, OpsKnown, OpsGrow, FinishRequest, Launch, EngineFor;
    var r := s.ops.rs[rid];
    var id := EngineFor(s.cache, r.target.endpoint);
    if id.None? {
      RequestEnds(s.ops, rid, Failed(Fault(UnknownEngineId)));
      assert Grows(s.net, s.net, s.now, s.stopping) by { Still(s.net, s.now, s.stopping); }
    } else {
      var e := s.cache.engines[id.value];
      var keys := KeysFor(w, r.auth.creds, e.engineId);
      if keys.Err? {
        RequestEnds(s.ops, rid, Failed(Fault(keys.error)));
        Still(s.net, s.now, s.stopping);
      } else {
        var asking := r.(place := Exchanging);
        RequestMoves(s.ops, rid, asking);
        var m := s.(ops := s.ops.(rs := s.ops.rs[rid := asking]));
        var t := DataTerms(s.net.nextId, r.target.endpoint, e, r.auth.creds, keys.value.0, keys.value.1);
        var out := DataMessage(s.net.nextId, s.now, e, r.auth.creds, r.pdu, keys.value.0, keys.value.1);
        LaunchCarries(w, m, ForData(rid, r.round), r.target, t, out);
        CarriesChain(s, m, Launch(w, m, ForData(rid, r.round), r.target, t, out));
      }
    }
  }

  lemma Still(net: Net, now: Instant, stopping: bool)
    ensures Grows(net, net, now, stopping)
  {
  }

  lemma ParkCarries(s: State, rid: nat)
    requires OpsKnown(s.ops) && rid < |s.ops.rs| && s.ops.rs[rid].auth.ByUser?
    ensures Carries(s, s.(ops := Park(s.ops, rid)))
  {
  }

  lemma EnsureCarries(w: World, s: State, rid: nat)
    requires OpsKnown(s.ops) && rid < |s.ops.rs| && s.ops.rs[rid].auth.ByUser?
    ensures Carries(s, EnsureEngine(w, s, rid)) && EnsureEngine(w, s, rid).cache == s.cache
  {
    hide Carries, OpsKnown, EngineReady, Ask, Park;
    AskCarries(w, s, rid);
    ParkCarries(s, rid);
  }

  lemma StartCarries(w: World, s: State, target: Target, auth: Auth, pdu: Pdu)
    requires OpsKnown(s.ops)
    ensures Carries(s, StartRequest(w, s, target, auth, pdu)) && StartRequest(w, s, target, auth, pdu).cache == s.cache
  {
    hide Grows, FinishRequest, Launch, EnsureEngine;
    var rid := |s.ops.rs|;
    var m := s.(ops := s.ops.(rs := s.ops.rs + [Request(target, auth, pdu, 0, NotCancelled, false, Exchanging)]));
    assert OpsKnown(m.ops) && OpsGrow(s.ops, m.ops);
    Still(s.net, s.now, s.stopping);
    if s.stopping {
      RequestEnds(m.ops, rid, Failed(Fault(ClientStopped)));
    } else if auth.ByCommunity? {
      LaunchCarries(w, m, ForV2c(rid), target, V2cTerms(s.net.nextId, target.endpoint, auth.community),
                    V2cOut(V2cMessage(auth.community, pdu.(requestId := s.net.nextId))));
    } else if Unsupported(auth.creds).Some? {
      RequestEnds(m.ops, rid, Failed(Fault(Unsupported(auth.creds).value)));
    } else {
      EnsureCarries(w, m, rid);
    }
    CarriesChain(s, m, StartRequest(w, s, target, auth, pdu));
  }

  lemma IdentifyCarries(w: World, s: State, did: nat)
    requires OpsKnown(s.ops) && did < |s.ops.ds|
    ensures Carries(s, Identify(w, s, did)) && Identify(w, s, did).cache == s.cache
  {
    hide Grows, Launch;
    var d := s.ops.ds[did];
    var m := s.(ops := s.ops.(ds := s.ops.ds[did := d.(stage := Discovering)]));
    assert OpsKnown(m.ops) && OpsGrow(s.ops, m.ops);
    LaunchCarries(w, m, ForIdentify(did), d.target, IdentifyTerms(s.net.nextId, d.target.endpoint),
                  Probe(s.net.nextId, NoAuthNoPriv, NO_SECURITY, NoAuth, [], NoPriv, []));
    CarriesChain(s, m, Identify(w, s, did));
  }

  lemma SynchroniseCarries(w: World, s: State, did: nat, engineId: octets)
    requires OpsKnown(s.ops) && did < |s.ops.ds| && IsAuthenticated(s.ops.ds[did].creds.level)
    ensures Carries(s, Synchronise(w, s, did, engineId)) && Synchronise(w, s, did, engineId).cache == s.cache
  {
    hide Grows, Launch, FinishDiscovery, OpsKnown, OpsGrow;
    var d := s.ops.ds[did];
    var keys := KeysFor(w, d.creds, engineId);
    if keys.Err? {
      DiscoveryEnds(s.ops, did, Fault(keys.error));
      Still(s.net, s.now, s.stopping);
    } else {
      LaunchCarries(w, s, ForSync(did), d.target,
                    SyncTerms(s.net.nextId, d.target.endpoint, engineId, d.creds, keys.value.0, keys.value.1),
                    Probe(s.net.nextId, d.creds.level, UsmParameters(engineId, 0, 0, d.creds.userName, [], []),
                          d.creds.authProtocol, keys.value.0, d.creds.privProtocol, keys.value.1));
    }
  }

  lemma IdentifiedCarries(w: World, s: State, did: nat, security: UsmParameters)
    requires OpsKnown(s.ops) && did < |s.ops.ds|
    ensures Carries(s, Identified(w, s, did, security))
  {
    hide Grows, Synchronise, FinishDiscovery, OpsKnown, OpsGrow;
    Still(s.net, s.now, s.stopping);
    DiscoveryEnds(s.ops, did, Fault(UnknownEngineId));
    DiscoveryEnds(s.ops, did, NoError);
    var s1 := s.(cache := RecordIdentity(s.cache, s.now, s.ops.ds[did].target.endpoint, security));
    if IsAuthenticated(s.ops.ds[did].creds.level) { SynchroniseCarries(w, s1, did, security.engineId); }
  }

  lemma SynchronisedCarries(s: State, did: nat, p: Pending)
    requires OpsKnown(s.ops) && did < |s.ops.ds|
    ensures Carries(s, Synchronised(s, did, p))
  {
    hide Grows, FinishDiscovery, OpsKnown, OpsGrow;
    Still(s.net, s.now, s.stopping);
    DiscoveryEnds(s.ops, did, NoError);
    if NoBaseline(p).Some? { DiscoveryEnds(s.ops, did, Fault(NoBaseline(p).value)); }
  }

  lemma ReportedCarries(w: World, s: State, rid: nat, p: Pending)
    requires OpsKnown(s.ops) && rid < |s.ops.rs| && s.ops.rs[rid].auth.ByUser?
    ensures Carries(s, Reported(w, s, rid, p))
  {
    hide Grows, FinishRequest, OpsKnown, OpsGrow, EnsureEngine;
    var counter := UsmStatsCounter(p.response);
    if s.ops.rs[rid].round != 0 || !Retryable(counter) {
      Still(s.net, s.now, s.stopping);
      RequestEnds(s.ops, rid, Failed(Fault(ReportError(counter))));
    } else {
      var r := s.ops.rs[rid];
      assert PlaceKnown(r, |s.ops.ds|) by { PlacesKnown(s.ops, rid); }
      RequestMoves(s.ops, rid, r.(round := r.round + 1));
      var m := s.(cache := Resynchronise(s.cache, s.now, r.target.endpoint, p), ops := Again(s.ops, rid));
      EnsureCarries(w, m, rid);
      CarriesChain(s, m, EnsureEngine(w, m, rid));
    }
  }

  lemma PlacesKnown(ops: Ops, rid: nat)
    requires OpsKnown(ops) && rid < |ops.rs|
    ensures PlaceKnown(ops.rs[rid], |ops.ds|)
  {
  }

  lemma SucceedCarries(w: World, s: State, o: Owner, p: Pending)
    requires OpsKnown(s.ops) && OwnerKnown(o, s.ops)
    ensures Carries(s, Succeed(w, s, o, p))
  {
    hide Grows, FinishRequest, OpsKnown, OpsGrow, Reported, Identified, Synchronised;
    match o
    case ForV2c(rid) => Still(s.net, s.now, s.stopping); RequestEnds(s.ops, rid, ToResult(p.response));
    case ForData(rid, _) =>
      if p.response.kind == Report {
        ReportedCarries(w, s, rid, p);
      } else {
        Still(s.net, s.now, s.stopping);
        RequestEnds(s.ops, rid, ToResult(p.response));
      }
    case ForIdentify(did) => IdentifiedCarries(w, s, did, p.security);
    case ForSync(did) => SynchronisedCarries(s, did, p);
  }

  lemma ResumeCarries(w: World, s: State, rid: nat)
    requires OpsKnown(s.ops) && rid < |s.ops.rs| && s.ops.rs[rid].place.Parked?
    ensures Carries(s, ResumeWaiter(w, s, rid)) && ResumeWaiter(w, s, rid).cache == s.cache
  {
    hide Grows, FinishRequest, OpsKnown, OpsGrow, Ask;
    PlacesKnown(s.ops, rid);
    Still(s.net, s.now, s.stopping);
    RequestEnds(s.ops, rid, Failed(Fault(ClientStopped)));
    RequestEnds(s.ops, rid, Failed(OperationAborted));
    var stage := s.ops.ds[s.ops.rs[rid].place.did].stage;
    if stage.Finished? { RequestEnds(s.ops, rid, Failed(stage.ec)); }
    AskCarries(w, s, rid);
  }
}
