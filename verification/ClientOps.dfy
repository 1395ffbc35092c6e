/** Operations: how many exchanges a request may run, and that one discovery serves an endpoint at a time. */
module ClientOps {
  import opened Octets
  import opened Errors
  import opened Pdus
  import opened Usm
  import opened V3Messages
  import opened ClientModel
  import opened ClientSteps
  import opened ClientFrames
  import opened ClientRuns
  import opened ClientExchanges

  datatype Op = Req(rid: nat) | Disc(did: nat)

  function OpOf(o: Owner): Op {
    match o
    case ForV2c(rid) => Req(rid)
    case ForData(rid, _) => Req(rid)
    case ForIdentify(did) => Disc(did)
    case ForSync(did) => Disc(did)
  }

  /** The operation is at the point where an exchange for this owner is in its loop. */
  predicate Ready(ops: Ops, o: Owner)
    requires OwnerKnown(o, ops)
  {
    match o
    case ForV2c(rid) => ops.rs[rid].place == Exchanging
    case ForData(rid, k) => k == ops.rs[rid].round && ops.rs[rid].place == Exchanging
    case ForIdentify(did) => ops.ds[did].stage == Discovering
    case ForSync(did) => ops.ds[did].stage == Discovering
  }

  /** The operation has come at least this far. */
  predicate Reached(ops: Ops, o: Owner)
    requires OwnerKnown(o, ops)
  {
    match o
    case ForV2c(rid) => true
    case ForData(rid, k) => k <= ops.rs[rid].round && (k == ops.rs[rid].round ==> !ops.rs[rid].place.Parked?)
    case ForIdentify(did) => ops.ds[did].stage != Spawned
    case ForSync(did) => ops.ds[did].stage != Spawned
  }

  predicate Serves(ops: Ops, e: Exchange) {
    OwnerKnown(e.owner, ops) && Reached(ops, e.owner) && (e.phase.Ended? || Ready(ops, e.owner))
  }

  predicate AllServe(net: Net, ops: Ops) {
    forall x :: 0 <= x < |net.xs| ==> Serves(ops, net.xs[x])
  }

  /** No two exchanges serve the same round of a request, or the same phase of a discovery. */
  predicate Distinct(net: Net) {
    forall x, y :: 0 <= x < y < |net.xs| ==> net.xs[x].owner != net.xs[y].owner
  }

  predicate Precedes(a: Owner, b: Owner) {
    a.ForIdentify? && b == ForSync(a.did)
  }

  /** The time-sync phase begins only once the identity phase is over. */
  predicate PhasesInTurn(net: Net) {
    forall x, y :: 0 <= x < |net.xs| && 0 <= y < |net.xs| && Precedes(net.xs[x].owner, net.xs[y].owner) ==>
      net.xs[x].phase.Ended?
  }

  predicate TwoRounds(ops: Ops) {
    forall r :: 0 <= r < |ops.rs| ==> ops.rs[r].round <= 1
  }

  /** The discoveries in flight are exactly those registered, each under its own endpoint. */
  predicate InFlight(ops: Ops) {
    && (forall d :: 0 <= d < |ops.ds| && !ops.ds[d].stage.Finished? ==>
          ops.ds[d].target.endpoint in ops.discovering && ops.discovering[ops.ds[d].target.endpoint] == d)
    && (forall ep :: ep in ops.discovering ==>
          && ops.discovering[ep] < |ops.ds| && ops.ds[ops.discovering[ep]].target.endpoint == ep
          && !ops.ds[ops.discovering[ep]].stage.Finished?)
  }

  predicate Ordered(net: Net, ops: Ops) {
    AllServe(net, ops) && Distinct(net) && PhasesInTurn(net) && TwoRounds(ops) && InFlight(ops)
  }

  /** No exchange of the operation is in its loop. */
  predicate Quiet(net: Net, op: Op) {
    forall x :: 0 <= x < |net.xs| && OpOf(net.xs[x].owner) == op ==> net.xs[x].phase.Ended?
  }

  predicate Unused(net: Net, o: Owner) {
    forall x :: 0 <= x < |net.xs| ==> net.xs[x].owner != o
  }

  // Exchanges moving on.

  predicate SameOrOver(e: Exchange, e': Exchange) {
    e'.owner == e.owner && (e.phase.Ended? ==> e'.phase.Ended?)
  }

  lemma NetMovesOn(net: Net, net': Net, ops: Ops)
    requires Ordered(net, ops) && |net'.xs| == |net.xs|
    requires forall x :: 0 <= x < |net.xs| ==> SameOrOver(net.xs[x], net'.xs[x])
    ensures Ordered(net', ops)
  {
    hide InFlight, TwoRounds, Ready, Reached, OwnerKnown;
    forall x | 0 <= x < |net'.xs| ensures Serves(ops, net'.xs[x]) {
      assert Serves(ops, net.xs[x]) && SameOrOver(net.xs[x], net'.xs[x]);
    }
    forall x, y | 0 <= x < y < |net'.xs| ensures net'.xs[x].owner != net'.xs[y].owner {
      assert SameOrOver(net.xs[x], net'.xs[x]) && SameOrOver(net.xs[y], net'.xs[y]);
      assert net.xs[x].owner != net.xs[y].owner;
    }
    forall x, y | 0 <= x < |net'.xs| && 0 <= y < |net'.xs| && Precedes(net'.xs[x].owner, net'.xs[y].owner)
      ensures net'.xs[x].phase.Ended?
    {
      assert SameOrOver(net.xs[x], net'.xs[x]) && SameOrOver(net.xs[y], net'.xs[y]);
    }
  }

  /** When an exchange ends, its operation has no other in its loop. */
  lemma EndsQuiet(net: Net, ops: Ops, x: nat, outcome: ErrorCode, now: Instant)
    requires Ordered(net, ops) && x < |net.xs| && !net.xs[x].phase.Ended?
    ensures Ordered(EndExchange(net, x, outcome, now), ops)
        && Quiet(EndExchange(net, x, outcome, now), OpOf(net.xs[x].owner))
    ensures Serves(ops, net.xs[x])
  {
    hide InFlight, TwoRounds;
    var net' := EndExchange(net, x, outcome, now);
    NetMovesOn(net, net', ops);
    assert Serves(ops, net.xs[x]);
    forall y | 0 <= y < |net'.xs| && OpOf(net'.xs[y].owner) == OpOf(net.xs[x].owner) ensures net'.xs[y].phase.Ended? {
      assert Serves(ops, net.xs[y]);
    }
  }

  // Operations moving on.

  lemma RequestMovesOn(net: Net, ops: Ops, rid: nat, r: Request)
    requires Ordered(net, ops) && rid < |ops.rs| && Quiet(net, Req(rid))
    requires r.auth == ops.rs[rid].auth && ops.rs[rid].round <= r.round <= 1
    requires r.place.Parked? ==> Unused(net, ForData(rid, r.round))
    ensures Ordered(net, ops.(rs := ops.rs[rid := r]))
  {
    hide Distinct, PhasesInTurn;
    var ops' := ops.(rs := ops.rs[rid := r]);
    forall x | 0 <= x < |net.xs| ensures Serves(ops', net.xs[x]) { assert Serves(ops, net.xs[x]); }
  }

  lemma DiscoveryDone(net: Net, ops: Ops, did: nat, ec: ErrorCode)
    requires Ordered(net, ops) && did < |ops.ds| && !ops.ds[did].stage.Finished? && Quiet(net, Disc(did))
    ensures Ordered(net, FinishDiscovery(ops, did, ec))
  {
    hide Distinct, PhasesInTurn, TwoRounds;
    var ops' := FinishDiscovery(ops, did, ec);
    forall x | 0 <= x < |net.xs| ensures Serves(ops', net.xs[x]) { assert Serves(ops, net.xs[x]); }
    assert TwoRounds(ops') by { SameRounds(ops, ops'); }
  }

  lemma SameRounds(ops: Ops, ops': Ops)
    requires TwoRounds(ops) && ops'.rs == ops.rs
    ensures TwoRounds(ops')
  {
  }

  lemma OwnerDone(net: Net, ops: Ops, o: Owner, ec: ErrorCode)
    requires Ordered(net, ops) && OwnerKnown(o, ops) && Quiet(net, OpOf(o)) && Ready(ops, o)
    ensures Ordered(net, FailOwner(ops, o, ec))
  {
    hide Ordered, Quiet;
    match o
    case ForV2c(rid) => RequestDone(net, ops, rid, Failed(ec));
    case ForData(rid, _) => RequestDone(net, ops, rid, Failed(ec));
    case ForIdentify(did) => DiscoveryDone(net, ops, did, ec);
    case ForSync(did) => DiscoveryDone(net, ops, did, ec);
  }

  lemma RequestDone(net: Net, ops: Ops, rid: nat, outcome: Outcome)
    requires Ordered(net, ops) && rid < |ops.rs| && Quiet(net, Req(rid))
    ensures Ordered(net, FinishRequest(ops, rid, outcome))
  {
    hide AllServe, Distinct, PhasesInTurn, InFlight, Quiet;
    RequestMovesOn(net, ops, rid, ops.rs[rid].(place := Done(outcome)));
  }

  lemma LaunchOrdered(w: World, s: State, o: Owner, target: Target, t: Terms, out: Outgoing)
    requires Ordered(s.net, s.ops) && OwnerKnown(o, s.ops) && Ready(s.ops, o)
    requires Quiet(s.net, OpOf(o)) && Unused(s.net, o)
    requires o.ForIdentify? ==> Unused(s.net, ForSync(o.did))
    ensures Ordered(Launch(w, s, o, target, t, out).net, Launch(w, s, o, target, t, out).ops)
  {
    hide FailOwner, Emplaced, Next, Classify, OwnerKnown, InFlight, TwoRounds, Reached, Ready, Unanswered;
    var s' := Launch(w, s, o, target, t, out);
    if |s'.net.xs| == |s.net.xs| {
      assert exists ec :: s'.ops == FailOwner(s.ops, o, ec);
      var ec :| s'.ops == FailOwner(s.ops, o, ec);
      OwnerDone(s.net, s.ops, o, ec);
      NetMovesOn(s.net, s'.net, s'.ops);
    } else {
      var n := |s.net.xs|;
      ReadyReached(s.ops, o);
      forall x | 0 <= x <= n ensures Serves(s.ops, s'.net.xs[x]) {
        if x < n { assert Serves(s.ops, s.net.xs[x]); }
      }
      BirthInTurn(s.net, s'.net, o);
    }
  }

  lemma ReadyReached(ops: Ops, o: Owner)
    requires OwnerKnown(o, ops) && Ready(ops, o)
    ensures Reached(ops, o)
  {
  }

  lemma BirthInTurn(net: Net, net': Net, o: Owner)
    requires Distinct(net) && PhasesInTurn(net) && Quiet(net, OpOf(o)) && Unused(net, o)
    requires o.ForIdentify? ==> Unused(net, ForSync(o.did))
    requires |net'.xs| == |net.xs| + 1 && net'.xs[..|net.xs|] == net.xs && net'.xs[|net.xs|].owner == o
    ensures Distinct(net') && PhasesInTurn(net')
  {
    var n := |net.xs|;
    assert forall x :: 0 <= x < n ==> net'.xs[x] == net'.xs[..n][x];
  }

  lemma AskOrdered(w: World, s: State, rid: nat)
    requires Ordered(s.net, s.ops) && rid < |s.ops.rs| && s.ops.rs[rid].auth.ByUser?
    requires Quiet(s.net, Req(rid)) && Unused(s.net, ForData(rid, s.ops.rs[rid].round))
    ensures Ordered(Ask(w, s, rid).net, Ask(w, s, rid).ops)
  {
    hide AllServe, Distinct, PhasesInTurn, InFlight, Quiet, Unused, Launch, EngineFor, FinishRequest, DataMessage;
    var r := s.ops.rs[rid];
    var id := EngineFor(s.cache, r.target.endpoint);
    if id.None? {
      RequestDone(s.net, s.ops, rid, Failed(Fault(UnknownEngineId)));
    } else {
      var e := s.cache.engines[id.value];
      var keys := KeysFor(w, r.auth.creds, e.engineId);
      if keys.Err? {
        RequestDone(s.net, s.ops, rid, Failed(Fault(keys.error)));
      } else {
        RequestMovesOn(s.net, s.ops, rid, r.(place := Exchanging));
        LaunchOrdered(w, s.(ops := s.ops.(rs := s.ops.rs[rid := r.(place := Exchanging)])), ForData(rid, r.round),
                      r.target,
                      DataTerms(s.net.nextId, r.target.endpoint, e, r.auth.creds, keys.value.0, keys.value.1),
                      DataMessage(s.net.nextId, s.now, e, r.auth.creds, r.pdu, keys.value.0, keys.value.1));
      }
    }
  }

  lemma ParkOrdered(net: Net, ops: Ops, rid: nat)
    requires Ordered(net, ops) && rid < |ops.rs| && ops.rs[rid].auth.ByUser?
    requires Quiet(net, Req(rid)) && Unused(net, ForData(rid, ops.rs[rid].round))
    ensures Ordered(net, Park(ops, rid))
  {
    hide Distinct, PhasesInTurn;
    var r := ops.rs[rid];
    if r.target.endpoint in ops.discovering {
      RequestMovesOn(net, ops, rid, r.(place := Parked(ops.discovering[r.target.endpoint]), woken := false));
    } else {
      var ops1 := ops.(rs := ops.rs[rid := r.(place := Parked(|ops.ds|), woken := false)]);
      RequestMovesOn(net, ops, rid, ops1.rs[rid]);
      Spawning(net, ops1, r.target, r.auth.creds);
    }
  }

  lemma Spawning(net: Net, ops: Ops, target: Target, creds: Credentials)
    requires Ordered(net, ops) && target.endpoint !in ops.discovering
    ensures Ordered(net, ops.(ds := ops.ds + [Discovery(target, creds, Spawned)],
                              discovering := ops.discovering[target.endpoint := |ops.ds|]))
  {
    hide Distinct, PhasesInTurn;
    var ops' := ops.(ds := ops.ds + [Discovery(target, creds, Spawned)],
                     discovering := ops.discovering[target.endpoint := |ops.ds|]);
    forall x | 0 <= x < |net.xs| ensures Serves(ops', net.xs[x]) { assert Serves(ops, net.xs[x]); }
  }

  lemma EnsureOrdered(w: World, s: State, rid: nat)
    requires Ordered(s.net, s.ops) && rid < |s.ops.rs| && s.ops.rs[rid].auth.ByUser?
    requires Quiet(s.net, Req(rid)) && Unused(s.net, ForData(rid, s.ops.rs[rid].round))
    ensures Ordered(EnsureEngine(w, s, rid).net, EnsureEngine(w, s, rid).ops)
  {
    hide Ordered, Quiet, Unused, EngineReady, Ask, Park;
    AskOrdered(w, s, rid);
    ParkOrdered(s.net, s.ops, rid);
  }

  // Whole steps.

  lemma StartOrdered(w: World, s: State, target: Target, auth: Auth, pdu: Pdu)
    requires Ordered(s.net, s.ops) && OwnersKnown(s.net, s.ops)
    ensures var s' := StartRequest(w, s, target, auth, pdu); Ordered(s'.net, s'.ops)
  {
    hide Ordered, Launch, EnsureEngine, FinishRequest, Quiet, Unused;
    var rid := |s.ops.rs|;
    var m := s.(ops := s.ops.(rs := s.ops.rs + [Request(target, auth, pdu, 0, NotCancelled, false, Exchanging)]));
    NewRequest(s.net, s.ops, m.ops.rs[rid]);
    if s.stopping {
      RequestDone(m.net, m.ops, rid, Failed(Fault(ClientStopped)));
    } else if auth.ByCommunity? {
      LaunchOrdered(w, m, ForV2c(rid), target, V2cTerms(s.net.nextId, target.endpoint, auth.community),
                    V2cOut(V2cMessage(auth.community, pdu.(requestId := s.net.nextId))));
    } else if Unsupported(auth.creds).Some? {
      RequestDone(m.net, m.ops, rid, Failed(Fault(Unsupported(auth.creds).value)));
    } else {
      EnsureOrdered(w, m, rid);
    }
  }

  lemma NewRequest(net: Net, ops: Ops, r: Request)
    requires Ordered(net, ops) && OwnersKnown(net, ops) && r.round == 0
    ensures Ordered(net, ops.(rs := ops.rs + [r])) && Quiet(net, Req(|ops.rs|))
    ensures Unused(net, ForV2c(|ops.rs|)) && Unused(net, ForData(|ops.rs|, 0))
  {
    hide Distinct, PhasesInTurn;
    var ops' := ops.(rs := ops.rs + [r]);
    forall x | 0 <= x < |net.xs| ensures Serves(ops', net.xs[x]) { assert Serves(ops, net.xs[x]); }
    forall x | 0 <= x < |net.xs|
      ensures OpOf(net.xs[x].owner) != Req(|ops.rs|)
    {
      assert OwnerKnown(net.xs[x].owner, ops);
    }
  }

  lemma IdentifyOrdered(w: World, s: State, did: nat)
    requires Ordered(s.net, s.ops) && did < |s.ops.ds| && s.ops.ds[did].stage == Spawned
    ensures var s' := Identify(w, s, did); Ordered(s'.net, s'.ops)
  {
    hide Ordered, Launch, Quiet, Unused;
    var d := s.ops.ds[did];
    DiscoveryBegins(s.net, s.ops, did);
    LaunchOrdered(w, s.(ops := s.ops.(ds := s.ops.ds[did := d.(stage := Discovering)])), ForIdentify(did), d.target,
                  IdentifyTerms(s.net.nextId, d.target.endpoint),
                  Probe(s.net.nextId, NoAuthNoPriv, NO_SECURITY, NoAuth, [], NoPriv, []));
  }

  lemma DiscoveryBegins(net: Net, ops: Ops, did: nat)
    requires Ordered(net, ops) && did < |ops.ds| && ops.ds[did].stage == Spawned
    ensures Ordered(net, ops.(ds := ops.ds[did := ops.ds[did].(stage := Discovering)]))
    ensures Quiet(net, Disc(did)) && Unused(net, ForIdentify(did)) && Unused(net, ForSync(did))
  {
    hide Distinct, PhasesInTurn;
    var ops' := ops.(ds := ops.ds[did := ops.ds[did].(stage := Discovering)]);
    forall x | 0 <= x < |net.xs| ensures Serves(ops', net.xs[x]) && OpOf(net.xs[x].owner) != Disc(did) {
      assert Serves(ops, net.xs[x]);
    }
  }

  lemma IdentifiedOrdered(w: World, s: State, did: nat, security: UsmParameters)
    requires Ordered(s.net, s.ops) && did < |s.ops.ds| && s.ops.ds[did].stage == Discovering
    requires Quiet(s.net, Disc(did)) && Unused(s.net, ForSync(did))
    ensures var s' := Identified(w, s, did, security); Ordered(s'.net, s'.ops)
  {
    hide Ordered, Launch, Quiet, Unused, FinishDiscovery, Probe;
    DiscoveryDone(s.net, s.ops, did, Fault(UnknownEngineId));
    DiscoveryDone(s.net, s.ops, did, NoError);
    var d := s.ops.ds[did];
    var keys := KeysFor(w, d.creds, security.engineId);
    if keys.Err? {
      DiscoveryDone(s.net, s.ops, did, Fault(keys.error));
    } else {
      LaunchOrdered(w, s.(cache := RecordIdentity(s.cache, s.now, d.target.endpoint, security)), ForSync(did), d.target,
                    SyncTerms(s.net.nextId, d.target.endpoint, security.engineId, d.creds, keys.value.0, keys.value.1),
                    Probe(s.net.nextId, d.creds.level, UsmParameters(security.engineId, 0, 0, d.creds.userName, [], []),
                          d.creds.authProtocol, keys.value.0, d.creds.privProtocol, keys.value.1));
    }
  }

  lemma SynchronisedOrdered(s: State, did: nat, p: Pending)
    requires Ordered(s.net, s.ops) && did < |s.ops.ds| && s.ops.ds[did].stage == Discovering && Quiet(s.net, Disc(did))
    ensures var s' := Synchronised(s, did, p); Ordered(s'.net, s'.ops)
  {
    hide Ordered, Quiet, FinishDiscovery;
    DiscoveryDone(s.net, s.ops, did, NoError);
    if NoBaseline(p).Some? { DiscoveryDone(s.net, s.ops, did, Fault(NoBaseline(p).value)); }
  }

  lemma ReportedOrdered(w: World, s: State, rid: nat, p: Pending)
    requires Ordered(s.net, s.ops) && rid < |s.ops.rs| && s.ops.rs[rid].auth.ByUser? && !s.ops.rs[rid].place.Parked?
    requires Quiet(s.net, Req(rid))
    ensures var s' := Reported(w, s, rid, p); Ordered(s'.net, s'.ops)
  {
    hide AllServe, Distinct, PhasesInTurn, InFlight, Quiet, Unused, FinishRequest, EnsureEngine;
    var counter := UsmStatsCounter(p.response);
    if s.ops.rs[rid].round != 0 || !Retryable(counter) {
      RequestDone(s.net, s.ops, rid, Failed(Fault(ReportError(counter))));
    } else {
      var r := s.ops.rs[rid];
      SecondRoundUnused(s.net, s.ops, rid);
      RequestMovesOn(s.net, s.ops, rid, r.(round := r.round + 1));
      EnsureOrdered(w, s.(cache := Resynchronise(s.cache, s.now, r.target.endpoint, p), ops := Again(s.ops, rid)), rid);
    }
  }

  lemma SecondRoundUnused(net: Net, ops: Ops, rid: nat)
    requires AllServe(net, ops) && rid < |ops.rs|
    ensures Unused(net, ForData(rid, ops.rs[rid].round + 1))
  {
    forall x | 0 <= x < |net.xs| ensures net.xs[x].owner != ForData(rid, ops.rs[rid].round + 1) {
      assert Serves(ops, net.xs[x]);
    }
  }

  lemma CompleteOrdered(w: World, s: State, x: nat, error: Option<int>)
    requires Linked(s) && Ordered(s.net, s.ops) && x < |s.net.xs| && !s.net.xs[x].phase.Ended?
    ensures var s' := Complete(w, s, x, error); Ordered(s'.net, s'.ops)
  {
    hide Ordered, Quiet, Unused, Classify, CancelOf, FailOwner, FinishRequest, Reported, Identified, Synchronised,
      EndExchange, OpsKnown, OwnersKnown, TableKnown;
    var e := s.net.xs[x];
    var cancel := CancelFor(s, x);
    var outcome := Classify(s.stopping, cancel, e.pending, error);
    var m := s.(net := EndExchange(s.net, x, outcome, s.now));
    EndsQuiet(s.net, s.ops, x, outcome, s.now);
    if outcome != NoError {
      OwnerDone(m.net, m.ops, e.owner, outcome);
    } else {
      match e.owner
      case ForV2c(rid) => RequestDone(m.net, m.ops, rid, ToResult(e.pending.response));
      case ForData(rid, _) =>
        if e.pending.response.kind == Report {
          ReportedOrdered(w, m, rid, e.pending);
        } else {
          RequestDone(m.net, m.ops, rid, ToResult(e.pending.response));
        }
      case ForIdentify(did) =>
        SyncUnused(s.net, s.ops, x, did, outcome, s.now);
        IdentifiedOrdered(w, m, did, e.pending.security);
      case ForSync(did) => SynchronisedOrdered(m, did, e.pending);
    }
  }

  lemma SyncUnused(net: Net, ops: Ops, x: nat, did: nat, outcome: ErrorCode, now: Instant)
    requires Ordered(net, ops) && x < |net.xs| && !net.xs[x].phase.Ended? && net.xs[x].owner == ForIdentify(did)
    ensures Unused(EndExchange(net, x, outcome, now), ForSync(did))
  {
    hide AllServe, Distinct, InFlight, TwoRounds;
    var net' := EndExchange(net, x, outcome, now);
    forall y | 0 <= y < |net'.xs| ensures net'.xs[y].owner != ForSync(did) {
      var o := net.xs[y].owner;
      assert net'.xs[y].owner == o;
      assert o == ForSync(did) <==> Precedes(net.xs[x].owner, o);
    }
  }

  lemma MovedOrdered(w: World, s: State, x: nat, m: Move, error: Option<int>)
    requires Linked(s) && Ordered(s.net, s.ops) && x < |s.net.xs| && !s.net.xs[x].phase.Ended?
    requires m.Stay? ==> SameOrOver(s.net.xs[x], m.e)
    ensures var s' := Moved(w, s, x, m, error); Ordered(s'.net, s'.ops)
  {
    hide Ordered, Complete;
    if m.Stay? {
      NetMovesOn(s.net, s.net.(xs := s.net.xs[x := m.e]), s.ops);
    } else {
      CompleteOrdered(w, s, x, error);
    }
  }

  /** A parked request runs no exchange, and has not asked in this round. */
  lemma ParkedQuiet(net: Net, ops: Ops, rid: nat)
    requires Ordered(net, ops) && rid < |ops.rs| && ops.rs[rid].place.Parked?
    ensures Quiet(net, Req(rid)) && Unused(net, ForData(rid, ops.rs[rid].round))
  {
    forall x | 0 <= x < |net.xs|
      ensures OpOf(net.xs[x].owner) == Req(rid) ==> net.xs[x].phase.Ended?
      ensures net.xs[x].owner != ForData(rid, ops.rs[rid].round)
    {
      assert Serves(ops, net.xs[x]);
    }
  }

  lemma ResumeOrdered(w: World, s: State, rid: nat)
    requires OpsKnown(s.ops) && Ordered(s.net, s.ops) && rid < |s.ops.rs| && s.ops.rs[rid].place.Parked?
    ensures var s' := ResumeWaiter(w, s, rid); Ordered(s'.net, s'.ops)
  {
    hide Ordered, Quiet, Unused, FinishRequest, Ask, OpsKnown;
    ParkedQuiet(s.net, s.ops, rid);
    PlacesKnown(s.ops, rid);
    RequestDone(s.net, s.ops, rid, Failed(Fault(ClientStopped)));
    RequestDone(s.net, s.ops, rid, Failed(OperationAborted));
    var stage := s.ops.ds[s.ops.rs[rid].place.did].stage;
    if stage.Finished? { RequestDone(s.net, s.ops, rid, Failed(stage.ec)); }
    AskOrdered(w, s, rid);
  }

  predicate SameCourse(r: Request, r': Request) {
    r'.auth == r.auth && r'.round == r.round && r'.place == r.place
  }

  lemma WakesOrdered(net: Net, ops: Ops, ops': Ops)
    requires Ordered(net, ops) && ops'.ds == ops.ds && ops'.discovering == ops.discovering && |ops'.rs| == |ops.rs|
    requires forall r :: 0 <= r < |ops.rs| ==> SameCourse(ops.rs[r], ops'.rs[r])
    ensures Ordered(net, ops')
  {
    hide Distinct, PhasesInTurn;
    forall x | 0 <= x < |net.xs| ensures Serves(ops', net.xs[x]) { assert Serves(ops, net.xs[x]); }
  }

  lemma SignalOrdered(s: State, rid: nat, terminal: bool)
    requires Ordered(s.net, s.ops) && rid < |s.ops.rs|
    ensures var s' := Cancel(s, rid, terminal); Ordered(s'.net, s'.ops)
  {
    hide Ordered;
    var s' := Cancel(s, rid, terminal);
    NetMovesOn(s.net, s'.net, s.ops);
    WakesOrdered(s'.net, s.ops, s'.ops);
  }

  lemma StopOrdered(s: State)
    requires Ordered(s.net, s.ops)
    ensures var s' := FinishStopping(s); Ordered(s'.net, s'.ops)
  {
    hide Ordered, Outstanding, OnDiscovery;
    var s' := FinishStopping(s);
    NetMovesOn(s.net, s'.net, s.ops);
    WakesOrdered(s'.net, s.ops, s'.ops);
  }

  lemma DatagramOrdered(w: World, s: State, bytes: octets, from: Endpoint)
    requires Linked(s) && Ordered(s.net, s.ops)
    ensures Ordered(Deliver(w, s, bytes, from), s.ops)
  {
    hide Ordered, Deliver;
    DeliverKeeps(w, s, bytes, from);
    AnswersSameLife(w, s, bytes, from);
    var net := Deliver(w, s, bytes, from);
    forall x | 0 <= x < |net.xs| ensures SameOrOver(s.net.xs[x], net.xs[x]) { assert SameLife(s.net.xs[x], net.xs[x]); }
    NetMovesOn(s.net, net, s.ops);
  }

  lemma StepOrdered(w: World, s: State, e: Event)
    requires Linked(s) && Ordered(s.net, s.ops)
    ensures Ordered(Step(w, s, e).net, Step(w, s, e).ops)
  {
    hide Ordered, OwnersKnown, OpsKnown, TableKnown, StartRequest, Identify, Deliver, Moved, Cancel, ResumeWaiter,
      FinishStopping, CancelOf;
    if Enabled(s, e) {
      match e
      case Call(target, auth, pdu) => StartOrdered(w, s, target, auth, pdu);
      case DiscoveryRuns(did) => IdentifyOrdered(w, s, did);
      case Datagram(bytes, from) => DatagramOrdered(w, s, bytes, from);
      case Sent(x, error) => MovedOrdered(w, s, x, AfterSend(s.net.xs[x], s.now, s.stopping, error), error);
      case Fires(x) =>
        var cancel := FiringCancel(s, x);
        MovedOrdered(w, s, x, AfterWait(s.net.xs[x], s.now, s.stopping, cancel), None);
      case Signal(rid, terminal) => SignalOrdered(s, rid, terminal);
      case WaiterRuns(rid) => ResumeOrdered(w, s, rid);
      case StopOnStrand => StopOrdered(s);
      case _ =>
    }
  }

  lemma {:induction false} RunOrdered(w: World, now: Instant, first: int32, trace: seq<Event>)
    ensures var s := Run(w, Initial(now, first), trace); Ordered(s.net, s.ops)
    decreases |trace|
  {
    hide Step, Ordered;
    if trace == [] {
      StartsOrdered(now, first);
    } else {
      var before := trace[..|trace| - 1];
      RunOrdered(w, now, first, before);
      StepOrdered(w, Run(w, Initial(now, first), before), trace[|trace| - 1]);
    }
  }

  lemma StartsOrdered(now: Instant, first: int32)
    ensures Ordered(Initial(now, first).net, Initial(now, first).ops)
  {
  }

  lemma OrderedInFlight(net: Net, ops: Ops)
    requires Ordered(net, ops)
    ensures InFlight(ops)
  {
  }

  //
  // The promises
  //

  /** In every run a request is served by at most two exchanges, whatever the Engine replies. */
  lemma AtMostTwoExchanges(w: World, now: Instant, first: int32, trace: seq<Event>, x: nat, y: nat, z: nat, rid: nat)
    requires var xs := Run(w, Initial(now, first), trace).net.xs;
             x < y < z < |xs| && OwnedBy(xs[x].owner, rid) && OwnedBy(xs[y].owner, rid)
    ensures !OwnedBy(Run(w, Initial(now, first), trace).net.xs[z].owner, rid)
  {
    hide Run, InFlight, PhasesInTurn;
    RunOrdered(w, now, first, trace);
    var s := Run(w, Initial(now, first), trace);
    assert Serves(s.ops, s.net.xs[x]) && Serves(s.ops, s.net.xs[y]) && Serves(s.ops, s.net.xs[z]);
  }

  /** In every run at most one discovery is in flight for an endpoint, and it is the one a newcomer would join. */
  lemma OneDiscoveryPerEndpoint(w: World, now: Instant, first: int32, trace: seq<Event>, d: nat, d': nat)
    requires var ops := Run(w, Initial(now, first), trace).ops;
             && d < |ops.ds| && d' < |ops.ds| && ops.ds[d].target.endpoint == ops.ds[d'].target.endpoint
             && !ops.ds[d].stage.Finished? && !ops.ds[d'].stage.Finished?
    ensures d == d'
    ensures var ops := Run(w, Initial(now, first), trace).ops;
            ops.ds[d].target.endpoint in ops.discovering && ops.discovering[ops.ds[d].target.endpoint] == d
  {
    hide Run, AllServe, Distinct, PhasesInTurn;
    RunOrdered(w, now, first, trace);
  }

  lemma SignalParked(w: World, s: State, rid: nat, terminal: bool)
    requires Linked(s) && rid < |s.ops.rs| && s.ops.rs[rid].place.Parked? && Quiet(s.net, Req(rid))
    ensures var s' := Step(w, s, Signal(rid, terminal));
            && |s'.ops.rs| == |s.ops.rs| && s' == s.(ops := s.ops.(rs := s.ops.rs[rid := s'.ops.rs[rid]]))
            && s'.ops.rs[rid] == s.ops.rs[rid].(cancel := s'.ops.rs[rid].cancel, woken := true)
            && s'.ops.rs[rid].cancel != NotCancelled
  {
    hide OwnersKnown, TableKnown;
    assert CancelWaits(s.net, rid).xs == s.net.xs;
  }

  lemma WaiterFindsNothing(w: World, s: State, rid: nat)
    requires Linked(s) && rid < |s.ops.rs| && s.ops.rs[rid].place.Parked? && s.ops.rs[rid].cancel == NotCancelled
    requires s.ops.ds[s.ops.rs[rid].place.did].stage == Finished(NoError)
    requires !s.stopping && s.ops.rs[rid].target.endpoint !in s.cache.engineAt
    ensures rid < |Step(w, s, WaiterRuns(rid)).ops.rs|
    ensures Step(w, s, WaiterRuns(rid)).ops.rs[rid].place == Done(Failed(Fault(UnknownEngineId)))
  {
    hide OwnersKnown, TableKnown, Launch;
  }
}
