/** The guard on credentials, kept through every run, and that it makes the shared key cache transparent. */
module ClientGuards {
  import opened Octets
  import opened Errors
  import opened Pdus
  import opened Usm
  import opened V3Messages
  import opened ClientModel
  import opened ClientSteps
  import opened ClientFrames
  import opened ClientRuns
  import opened ClientExchanges
  import opened ClientOps

  predicate GuardedRequest(r: Request) {
    r.place.Done? || r.auth.ByCommunity? || Unsupported(r.auth.creds).None?
  }

  /** Every request still under way, and every discovery, names the protocols its level claims. */
  predicate AllGuarded(ops: Ops) {
    && (forall r :: 0 <= r < |ops.rs| ==> GuardedRequest(ops.rs[r]))
    && (forall d :: 0 <= d < |ops.ds| ==> Unsupported(ops.ds[d].creds).None?)
  }

  /** Two worlds that may differ only in what they give as a privacy key where no privacy protocol is named. */
  ghost predicate Alike(w: World, w': World) {
    && w' == w.(privKey := w'.privKey)
    && (forall creds: Credentials, id: octets :: creds.privProtocol != NoPriv ==>
           w'.privKey(creds, id) == w.privKey(creds, id))
  }

  lemma SameKeys(w: World, w': World, creds: Credentials, engineId: octets)
    requires Alike(w, w') && Unsupported(creds).None?
    ensures KeysFor(w, creds, engineId) == KeysFor(w', creds, engineId)
  {
  }

  // Each step keeps the guard, and behind it does the same in both worlds.

  lemma FinishGuarded(ops: Ops, rid: nat, outcome: Outcome)
    requires AllGuarded(ops) && rid < |ops.rs|
    ensures AllGuarded(FinishRequest(ops, rid, outcome))
  {
  }

  lemma FailGuarded(ops: Ops, o: Owner, ec: ErrorCode)
    requires AllGuarded(ops) && OwnerKnown(o, ops)
    ensures AllGuarded(FailOwner(ops, o, ec))
  {
  }

  lemma LaunchGuarded(w: World, w': World, s: State, o: Owner, target: Target, t: Terms, out: Outgoing)
    requires Alike(w, w') && AllGuarded(s.ops) && OwnerKnown(o, s.ops)
    ensures AllGuarded(Launch(w, s, o, target, t, out).ops)
    ensures Launch(w', s, o, target, t, out) == Launch(w, s, o, target, t, out)
  {
    hide FailOwner, Emplaced, Next, Classify, OwnerKnown, AllGuarded, Fresh;
    if w.encode(out).Some? {
      FailGuarded(s.ops, o, Fault(w.encode(out).value));
    } else if s.stopping {
      FailGuarded(s.ops, o, Fault(ClientStopped));
    } else if w.openError(s.net.issued).Some? {
      FailGuarded(s.ops, o, SystemError(w.openError(s.net.issued).value));
    } else if target.retries < 0 {
      FailGuarded(s.ops, o, Classify(false, CancelOf(s.ops, o), Unanswered(t), None));
    }
  }

  lemma MoveGuarded(ops: Ops, rid: nat, r: Request)
    requires AllGuarded(ops) && rid < |ops.rs| && GuardedRequest(r)
    ensures AllGuarded(ops.(rs := ops.rs[rid := r]))
  {
  }

  lemma AskGuarded(w: World, w': World, s: State, rid: nat)
    requires Alike(w, w') && AllGuarded(s.ops) && rid < |s.ops.rs| && s.ops.rs[rid].auth.ByUser?
    requires Unsupported(s.ops.rs[rid].auth.creds).None?
    ensures AllGuarded(Ask(w, s, rid).ops) && Ask(w', s, rid) == Ask(w, s, rid)
  {
    hide Launch, FinishRequest, EngineFor, DataMessage, DataTerms, AllGuarded, KeysFor, Alike;
    var r := s.ops.rs[rid];
    var id := EngineFor(s.cache, r.target.endpoint);
    if id.None? {
      FinishGuarded(s.ops, rid, Failed(Fault(UnknownEngineId)));
    } else {
      var e := s.cache.engines[id.value];
      SameKeys(w, w', r.auth.creds, e.engineId);
      var keys := KeysFor(w, r.auth.creds, e.engineId);
      if keys.Err? {
        FinishGuarded(s.ops, rid, Failed(Fault(keys.error)));
      } else {
        MoveGuarded(s.ops, rid, r.(place := Exchanging));
        LaunchGuarded(w, w', s.(ops := s.ops.(rs := s.ops.rs[rid := r.(place := Exchanging)])), ForData(rid, r.round),
                      r.target,
                      DataTerms(s.net.nextId, r.target.endpoint, e, r.auth.creds, keys.value.0, keys.value.1),
                      DataMessage(s.net.nextId, s.now, e, r.auth.creds, r.pdu, keys.value.0, keys.value.1));
      }
    }
  }

  lemma ParkGuarded(ops: Ops, rid: nat)
    requires AllGuarded(ops) && rid < |ops.rs| && ops.rs[rid].auth.ByUser? && Unsupported(ops.rs[rid].auth.creds).None?
    ensures AllGuarded(Park(ops, rid))
  {
  }

  lemma EnsureGuarded(w: World, w': World, s: State, rid: nat)
    requires Alike(w, w') && AllGuarded(s.ops) && rid < |s.ops.rs| && s.ops.rs[rid].auth.ByUser?
    requires Unsupported(s.ops.rs[rid].auth.creds).None?
    ensures AllGuarded(EnsureEngine(w, s, rid).ops) && EnsureEngine(w', s, rid) == EnsureEngine(w, s, rid)
  {
    hide Ask, Park, EngineReady, AllGuarded, Alike;
    AskGuarded(w, w', s, rid);
    ParkGuarded(s.ops, rid);
  }

  lemma StartGuarded(w: World, w': World, s: State, target: Target, auth: Auth, pdu: Pdu)
    requires Alike(w, w') && AllGuarded(s.ops)
    ensures AllGuarded(StartRequest(w, s, target, auth, pdu).ops)
    ensures StartRequest(w', s, target, auth, pdu) == StartRequest(w, s, target, auth, pdu)
  {
    hide Launch, EnsureEngine, Alike;
    var rid, q := |s.ops.rs|, Request(target, auth, pdu, 0, NotCancelled, false, Exchanging);
    var m := s.(ops := s.ops.(rs := s.ops.rs + [q]));
    if !s.stopping && GuardedRequest(q) {
      assert AllGuarded(m.ops);
      if auth.ByCommunity? {
        LaunchGuarded(w, w', m, ForV2c(rid), target, V2cTerms(s.net.nextId, target.endpoint, auth.community),
                      V2cOut(V2cMessage(auth.community, pdu.(requestId := s.net.nextId))));
      } else {
        EnsureGuarded(w, w', m, rid);
      }
    }
  }

  lemma IdentifyGuarded(w: World, w': World, s: State, did: nat)
    requires Alike(w, w') && AllGuarded(s.ops) && did < |s.ops.ds|
    ensures AllGuarded(Identify(w, s, did).ops) && Identify(w', s, did) == Identify(w, s, did)
  {
    hide Launch, Alike;
    var d := s.ops.ds[did];
    LaunchGuarded(w, w', s.(ops := s.ops.(ds := s.ops.ds[did := d.(stage := Discovering)])), ForIdentify(did), d.target,
                  IdentifyTerms(s.net.nextId, d.target.endpoint),
                  Probe(s.net.nextId, NoAuthNoPriv, NO_SECURITY, NoAuth, [], NoPriv, []));
  }

  lemma DiscoveryEndGuarded(ops: Ops, did: nat, ec: ErrorCode)
    requires AllGuarded(ops) && did < |ops.ds|
    ensures AllGuarded(FinishDiscovery(ops, did, ec))
  {
  }

  lemma IdentifiedGuarded(w: World, w': World, s: State, did: nat, security: UsmParameters)
    requires Alike(w, w') && AllGuarded(s.ops) && did < |s.ops.ds|
    ensures AllGuarded(Identified(w, s, did, security).ops)
    ensures Identified(w', s, did, security) == Identified(w, s, did, security)
  {
    hide Launch, Probe, SyncTerms, FinishDiscovery, KeysFor, Alike;
    var d := s.ops.ds[did];
    DiscoveryEndGuarded(s.ops, did, Fault(UnknownEngineId));
    DiscoveryEndGuarded(s.ops, did, NoError);
    SameKeys(w, w', d.creds, security.engineId);
    var keys := KeysFor(w, d.creds, security.engineId);
    if keys.Err? {
      DiscoveryEndGuarded(s.ops, did, Fault(keys.error));
    } else {
      LaunchGuarded(w, w', s.(cache := RecordIdentity(s.cache, s.now, d.target.endpoint, security)), ForSync(did),
                    d.target,
                    SyncTerms(s.net.nextId, d.target.endpoint, security.engineId, d.creds, keys.value.0, keys.value.1),
                    Probe(s.net.nextId, d.creds.level, UsmParameters(security.engineId, 0, 0, d.creds.userName, [], []),
                          d.creds.authProtocol, keys.value.0, d.creds.privProtocol, keys.value.1));
    }
  }

  lemma ReportedGuarded(w: World, w': World, s: State, rid: nat, p: Pending)
    requires Alike(w, w') && AllGuarded(s.ops) && rid < |s.ops.rs| && s.ops.rs[rid].auth.ByUser?
    requires Unsupported(s.ops.rs[rid].auth.creds).None?
    ensures AllGuarded(Reported(w, s, rid, p).ops) && Reported(w', s, rid, p) == Reported(w, s, rid, p)
  {
    hide EnsureEngine, FinishRequest, AllGuarded, Alike;
    var counter, r := UsmStatsCounter(p.response), s.ops.rs[rid];
    if r.round != 0 || !Retryable(counter) {
      FinishGuarded(s.ops, rid, Failed(Fault(ReportError(counter))));
    } else {
      MoveGuarded(s.ops, rid, r.(round := r.round + 1));
      EnsureGuarded(w, w', s.(cache := Resynchronise(s.cache, s.now, r.target.endpoint, p), ops := Again(s.ops, rid)),
                    rid);
    }
  }

  lemma CompleteGuarded(w: World, w': World, s: State, x: nat, error: Option<int>)
    requires Alike(w, w') && Linked(s) && Ordered(s.net, s.ops) && AllGuarded(s.ops)
    requires x < |s.net.xs| && !s.net.xs[x].phase.Ended?
    ensures AllGuarded(Complete(w, s, x, error).ops) && Complete(w', s, x, error) == Complete(w, s, x, error)
  {
    hide Ordered, Quiet, Classify, CancelOf, FailOwner, FinishRequest, Reported, Identified, FinishDiscovery,
         EndExchange, OpsKnown, OwnersKnown, TableKnown, AllGuarded, Alike;
    var e := s.net.xs[x];
    var cancel := CancelFor(s, x);
    var outcome := Classify(s.stopping, cancel, e.pending, error);
    var m := s.(net := EndExchange(s.net, x, outcome, s.now));
    EndsQuiet(s.net, s.ops, x, outcome, s.now);
    FailGuarded(s.ops, e.owner, outcome);
    match e.owner
    case ForV2c(rid) => FinishGuarded(s.ops, rid, ToResult(e.pending.response));
    case ForData(rid, _) =>
      FinishGuarded(s.ops, rid, ToResult(e.pending.response));
      RequestGuarded(s.ops, rid);
      ReportedGuarded(w, w', m, rid, e.pending);
    case ForIdentify(did) => IdentifiedGuarded(w, w', m, did, e.pending.security);
    case ForSync(did) =>
      DiscoveryEndGuarded(s.ops, did, NoError);
      if NoBaseline(e.pending).Some? { DiscoveryEndGuarded(s.ops, did, Fault(NoBaseline(e.pending).value)); }
  }

  lemma RequestGuarded(ops: Ops, rid: nat)
    requires AllGuarded(ops) && rid < |ops.rs|
    ensures GuardedRequest(ops.rs[rid])
  {
  }

  lemma MovedGuarded(w: World, w': World, s: State, x: nat, m: Move, error: Option<int>)
    requires Alike(w, w') && Linked(s) && Ordered(s.net, s.ops) && AllGuarded(s.ops)
    requires x < |s.net.xs| && !s.net.xs[x].phase.Ended?
    ensures AllGuarded(Moved(w, s, x, m, error).ops) && Moved(w', s, x, m, error) == Moved(w, s, x, m, error)
  {
    hide Complete, Ordered, AllGuarded, Alike, OwnersKnown, TableKnown, OpsKnown;
    CompleteGuarded(w, w', s, x, error);
  }

  lemma ResumeGuarded(w: World, w': World, s: State, rid: nat)
    requires Alike(w, w') && AllGuarded(s.ops) && OpsKnown(s.ops) && rid < |s.ops.rs| && s.ops.rs[rid].place.Parked?
    ensures AllGuarded(ResumeWaiter(w, s, rid).ops) && ResumeWaiter(w', s, rid) == ResumeWaiter(w, s, rid)
  {
    hide Ask, FinishRequest, OpsKnown, AllGuarded, Alike;
    PlacesKnown(s.ops, rid);
    RequestGuarded(s.ops, rid);
    AskGuarded(w, w', s, rid);
    FinishGuarded(s.ops, rid, Failed(Fault(ClientStopped)));
    FinishGuarded(s.ops, rid, Failed(OperationAborted));
    var stage := s.ops.ds[s.ops.rs[rid].place.did].stage;
    if stage.Finished? { FinishGuarded(s.ops, rid, Failed(stage.ec)); }
  }

  lemma SignalGuarded(s: State, rid: nat, terminal: bool)
    requires AllGuarded(s.ops) && rid < |s.ops.rs|
    ensures AllGuarded(Cancel(s, rid, terminal).ops)
  {
  }

  lemma StopGuarded(s: State)
    requires AllGuarded(s.ops)
    ensures AllGuarded(FinishStopping(s).ops)
  {
    hide Outstanding, OnDiscovery;
  }

  lemma DeliverAlike(w: World, w': World, s: State, bytes: octets, from: Endpoint)
    requires Alike(w, w') && TableKnown(s.net)
    ensures Deliver(w', s, bytes, from) == Deliver(w, s, bytes, from)
  {
  }

  lemma StepGuarded(w: World, w': World, s: State, e: Event)
    requires Alike(w, w') && Linked(s) && Ordered(s.net, s.ops) && AllGuarded(s.ops)
    ensures AllGuarded(Step(w, s, e).ops) && Step(w', s, e) == Step(w, s, e)
  {
    hide Ordered, AllGuarded, Alike, OwnersKnown, OpsKnown, TableKnown, StartRequest, Identify, Deliver, Moved,
         ResumeWaiter, CancelOf, Cancel, FinishStopping;
    if Enabled(s, e) {
      match e
      case Call(target, auth, pdu) => StartGuarded(w, w', s, target, auth, pdu);
      case DiscoveryRuns(did) => IdentifyGuarded(w, w', s, did);
      case Datagram(bytes, from) => DeliverAlike(w, w', s, bytes, from);
      case Sent(x, error) => MovedGuarded(w, w', s, x, AfterSend(s.net.xs[x], s.now, s.stopping, error), error);
      case Fires(x) =>
        var cancel := FiringCancel(s, x);
        MovedGuarded(w, w', s, x, AfterWait(s.net.xs[x], s.now, s.stopping, cancel), None);
      case Signal(rid, terminal) => SignalGuarded(s, rid, terminal);
      case WaiterRuns(rid) => ResumeGuarded(w, w', s, rid);
      case StopOnStrand => StopGuarded(s);
      case _ =>
    }
  }

  /**
   * In every run, every request under way and every discovery names the protocols its level claims; so the run is the
   * same whatever a privacy-key lookup without a privacy protocol would give.
   */
  lemma {:induction false} GuardHolds(w: World, w': World, now: Instant, first: int32, trace: seq<Event>)
    requires Alike(w, w')
    ensures AllGuarded(Run(w, Initial(now, first), trace).ops)
    ensures Run(w', Initial(now, first), trace) == Run(w, Initial(now, first), trace)
    decreases |trace|
  {
    hide Step, Ordered, Alike;
    if trace != [] {
      var before := trace[..|trace| - 1];
      GuardHolds(w, w', now, first, before);
      RunOrdered(w, now, first, before);
      StepGuarded(w, w', Run(w, Initial(now, first), before), trace[|trace| - 1]);
    }
  }
}
