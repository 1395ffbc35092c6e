/** Cancelling a waiter: that whatever happens afterwards, everyone else fares as if it had not been cancelled. */
module ClientIsolation {
  import opened Octets
  import opened Errors
  import opened Pdus
  import opened Usm
  import opened V3Messages
  import opened ClientModel
  import opened ClientSteps
  import opened ClientFrames
  import opened ClientRuns
  import opened ClientExchanges
  import opened ClientOps

  /** The operations with one request put in another's place. */
  function OpsWith(ops: Ops, rid: nat, r: Request): Ops
    requires rid < |ops.rs|
  {
    ops.(rs := ops.rs[rid := r])
  }

  function With(s: State, rid: nat, r: Request): State
    requires rid < |s.ops.rs|
  {
    s.(ops := OpsWith(s.ops, rid, r))
  }

  /** The same request but for how far it has come. */
  predicate SameRequest(ops: Ops, rid: nat, r: Request) {
    && rid < |ops.rs| && r.auth == ops.rs[rid].auth && r.target == ops.rs[rid].target && r.pdu == ops.rs[rid].pdu
    && PlaceKnown(r, |ops.ds|)
  }

  // No step but the request's own looks at it: doing the step and putting the other request in commute.

  lemma FinishCommutes(ops: Ops, other: nat, outcome: Outcome, rid: nat, r: Request)
    requires other < |ops.rs| && rid < |ops.rs| && other != rid
    ensures FinishRequest(OpsWith(ops, rid, r), other, outcome) == OpsWith(FinishRequest(ops, other, outcome), rid, r)
  {
    assert FinishRequest(OpsWith(ops, rid, r), other, outcome).rs
        == OpsWith(FinishRequest(ops, other, outcome), rid, r).rs;
  }

  lemma OwnerKnownStill(ops: Ops, o: Owner, rid: nat, r: Request)
    requires SameRequest(ops, rid, r)
    ensures OwnerKnown(o, OpsWith(ops, rid, r)) <==> OwnerKnown(o, ops)
  {
  }

  lemma FailCommutes(ops: Ops, o: Owner, ec: ErrorCode, rid: nat, r: Request)
    requires SameRequest(ops, rid, r) && OwnerKnown(o, ops) && OpOf(o) != Req(rid)
    ensures OwnerKnown(o, OpsWith(ops, rid, r))
    ensures |FailOwner(ops, o, ec).rs| == |ops.rs|
    ensures FailOwner(OpsWith(ops, rid, r), o, ec) == OpsWith(FailOwner(ops, o, ec), rid, r)
  {
    hide FinishRequest;
    OwnerKnownStill(ops, o, rid, r);
    match o
    case ForV2c(other) => FinishCommutes(ops, other, Failed(ec), rid, r); FinishSize(ops, other, Failed(ec));
    case ForData(other, _) => FinishCommutes(ops, other, Failed(ec), rid, r); FinishSize(ops, other, Failed(ec));
    case _ =>
  }

  lemma FinishSize(ops: Ops, rid: nat, outcome: Outcome)
    requires rid < |ops.rs|
    ensures |FinishRequest(ops, rid, outcome).rs| == |ops.rs| && FinishRequest(ops, rid, outcome).ds == ops.ds
  {
  }

  lemma CancelCommutes(ops: Ops, o: Owner, rid: nat, r: Request)
    requires SameRequest(ops, rid, r) && OwnerKnown(o, ops) && OpOf(o) != Req(rid)
    ensures OwnerKnown(o, OpsWith(ops, rid, r)) && CancelOf(OpsWith(ops, rid, r), o) == CancelOf(ops, o)
  {
  }

  lemma LaunchCommutes(w: World, s: State, o: Owner, target: Target, t: Terms, out: Outgoing, rid: nat, r: Request)
    requires SameRequest(s.ops, rid, r) && OwnerKnown(o, s.ops) && OpOf(o) != Req(rid)
    ensures OwnerKnown(o, OpsWith(s.ops, rid, r)) && |Launch(w, s, o, target, t, out).ops.rs| == |s.ops.rs|
    ensures Launch(w, With(s, rid, r), o, target, t, out) == With(Launch(w, s, o, target, t, out), rid, r)
  {
    hide FailOwner, CancelOf, OwnerKnown, Emplaced, Next, Classify, SameRequest;
    assert rid < |s.ops.rs| by { Indexed(s.ops, rid, r); }
    CancelCommutes(s.ops, o, rid, r);
    if w.encode(out).Some? {
      FailCommutes(s.ops, o, Fault(w.encode(out).value), rid, r);
    } else if s.stopping {
      FailCommutes(s.ops, o, Fault(ClientStopped), rid, r);
    } else if w.openError(s.net.issued).Some? {
      FailCommutes(s.ops, o, SystemError(w.openError(s.net.issued).value), rid, r);
    } else if target.retries < 0 {
      FailCommutes(s.ops, o, Classify(false, CancelOf(s.ops, o), Unanswered(t), None), rid, r);
    }
  }

  lemma Indexed(ops: Ops, rid: nat, r: Request)
    requires SameRequest(ops, rid, r)
    ensures rid < |ops.rs|
  {
  }

  lemma AskCommutes(w: World, s: State, other: nat, rid: nat, r: Request)
    requires SameRequest(s.ops, rid, r) && other < |s.ops.rs| && other != rid && s.ops.rs[other].auth.ByUser?
    ensures |Ask(w, s, other).ops.rs| == |s.ops.rs|
    ensures Ask(w, With(s, rid, r), other) == With(Ask(w, s, other), rid, r)
  {
    hide Launch, FinishRequest, EngineFor, DataMessage, DataTerms;
    var q := s.ops.rs[other];
    var id := EngineFor(s.cache, q.target.endpoint);
    if id.None? {
      FinishCommutes(s.ops, other, Failed(Fault(UnknownEngineId)), rid, r);
      FinishSize(s.ops, other, Failed(Fault(UnknownEngineId)));
    } else {
      var e := s.cache.engines[id.value];
      var keys := KeysFor(w, q.auth.creds, e.engineId);
      if keys.Err? {
        FinishCommutes(s.ops, other, Failed(Fault(keys.error)), rid, r);
        FinishSize(s.ops, other, Failed(Fault(keys.error)));
      } else {
        var m := s.(ops := s.ops.(rs := s.ops.rs[other := q.(place := Exchanging)]));
        assert With(m, rid, r).ops.rs == s.ops.rs[rid := r][other := q.(place := Exchanging)];
        LaunchCommutes(w, m, ForData(other, q.round), q.target,
                       DataTerms(s.net.nextId, q.target.endpoint, e, q.auth.creds, keys.value.0, keys.value.1),
                       DataMessage(s.net.nextId, s.now, e, q.auth.creds, q.pdu, keys.value.0, keys.value.1), rid, r);
      }
    }
  }

  lemma ParkCommutes(ops: Ops, other: nat, rid: nat, r: Request)
    requires SameRequest(ops, rid, r) && other < |ops.rs| && other != rid && ops.rs[other].auth.ByUser?
    ensures |Park(ops, other).rs| == |ops.rs|
    ensures Park(OpsWith(ops, rid, r), other) == OpsWith(Park(ops, other), rid, r)
  {
    assert Park(OpsWith(ops, rid, r), other).rs == OpsWith(Park(ops, other), rid, r).rs;
  }

  lemma EnsureCommutes(w: World, s: State, other: nat, rid: nat, r: Request)
    requires SameRequest(s.ops, rid, r) && other < |s.ops.rs| && other != rid && s.ops.rs[other].auth.ByUser?
    ensures |EnsureEngine(w, s, other).ops.rs| == |s.ops.rs|
    ensures EnsureEngine(w, With(s, rid, r), other) == With(EnsureEngine(w, s, other), rid, r)
  {
    hide Ask, Park, EngineReady;
    AskCommutes(w, s, other, rid, r);
    ParkCommutes(s.ops, other, rid, r);
  }

  lemma StartCommutes(w: World, s: State, target: Target, auth: Auth, pdu: Pdu, rid: nat, r: Request)
    requires SameRequest(s.ops, rid, r)
    ensures |StartRequest(w, s, target, auth, pdu).ops.rs| == |s.ops.rs| + 1
    ensures StartRequest(w, With(s, rid, r), target, auth, pdu) == With(StartRequest(w, s, target, auth, pdu), rid, r)
  {
    hide Launch, FinishRequest, EnsureEngine;
    var other, q := |s.ops.rs|, Request(target, auth, pdu, 0, NotCancelled, false, Exchanging);
    var m := s.(ops := s.ops.(rs := s.ops.rs + [q]));
    assert With(m, rid, r).ops.rs == s.ops.rs[rid := r] + [q];
    if s.stopping {
      FinishCommutes(m.ops, other, Failed(Fault(ClientStopped)), rid, r);
      FinishSize(m.ops, other, Failed(Fault(ClientStopped)));
    } else if auth.ByCommunity? {
      LaunchCommutes(w, m, ForV2c(other), target, V2cTerms(s.net.nextId, target.endpoint, auth.community),
                     V2cOut(V2cMessage(auth.community, pdu.(requestId := s.net.nextId))), rid, r);
    } else if Unsupported(auth.creds).Some? {
      FinishCommutes(m.ops, other, Failed(Fault(Unsupported(auth.creds).value)), rid, r);
      FinishSize(m.ops, other, Failed(Fault(Unsupported(auth.creds).value)));
    } else {
      EnsureCommutes(w, m, other, rid, r);
    }
  }

  lemma IdentifyCommutes(w: World, s: State, did: nat, rid: nat, r: Request)
    requires SameRequest(s.ops, rid, r) && did < |s.ops.ds|
    ensures |Identify(w, s, did).ops.rs| == |s.ops.rs|
    ensures Identify(w, With(s, rid, r), did) == With(Identify(w, s, did), rid, r)
  {
    hide Launch;
    var d := s.ops.ds[did];
    LaunchCommutes(w, s.(ops := s.ops.(ds := s.ops.ds[did := d.(stage := Discovering)])), ForIdentify(did), d.target,
                   IdentifyTerms(s.net.nextId, d.target.endpoint),
                   Probe(s.net.nextId, NoAuthNoPriv, NO_SECURITY, NoAuth, [], NoPriv, []), rid, r);
  }

  lemma IdentifiedCommutes(w: World, s: State, did: nat, security: UsmParameters, rid: nat, r: Request)
    requires SameRequest(s.ops, rid, r) && did < |s.ops.ds|
    ensures |Identified(w, s, did, security).ops.rs| == |s.ops.rs|
    ensures Identified(w, With(s, rid, r), did, security) == With(Identified(w, s, did, security), rid, r)
  {
    hide Launch, Probe, SyncTerms;
    var d := s.ops.ds[did];
    var keys := KeysFor(w, d.creds, security.engineId);
    if keys.Ok? {
      LaunchCommutes(w, s.(cache := RecordIdentity(s.cache, s.now, d.target.endpoint, security)), ForSync(did),
                     d.target,
                     SyncTerms(s.net.nextId, d.target.endpoint, security.engineId, d.creds, keys.value.0, keys.value.1),
                     Probe(s.net.nextId, d.creds.level,
                           UsmParameters(security.engineId, 0, 0, d.creds.userName, [], []),
                           d.creds.authProtocol, keys.value.0, d.creds.privProtocol, keys.value.1), rid, r);
    }
  }

  lemma ReportedCommutes(w: World, s: State, other: nat, p: Pending, rid: nat, r: Request)
    requires SameRequest(s.ops, rid, r) && other < |s.ops.rs| && other != rid && s.ops.rs[other].auth.ByUser?
    ensures |Reported(w, s, other, p).ops.rs| == |s.ops.rs|
    ensures Reported(w, With(s, rid, r), other, p) == With(Reported(w, s, other, p), rid, r)
  {
    hide EnsureEngine, FinishRequest;
    var counter, q := UsmStatsCounter(p.response), s.ops.rs[other];
    if q.round != 0 || !Retryable(counter) {
      FinishCommutes(s.ops, other, Failed(Fault(ReportError(counter))), rid, r);
      FinishSize(s.ops, other, Failed(Fault(ReportError(counter))));
    } else {
      var m := s.(cache := Resynchronise(s.cache, s.now, q.target.endpoint, p), ops := Again(s.ops, other));
      assert With(m, rid, r).ops.rs == s.ops.rs[rid := r][other := q.(round := q.round + 1)];
      EnsureCommutes(w, m, other, rid, r);
    }
  }

  lemma SucceedCommutes(w: World, s: State, o: Owner, p: Pending, rid: nat, r: Request)
    requires SameRequest(s.ops, rid, r) && OwnerKnown(o, s.ops) && OpOf(o) != Req(rid)
    ensures OwnerKnown(o, OpsWith(s.ops, rid, r)) && |Succeed(w, s, o, p).ops.rs| == |s.ops.rs|
    ensures Succeed(w, With(s, rid, r), o, p) == With(Succeed(w, s, o, p), rid, r)
  {
    hide FinishRequest, Reported, Identified, ToResult;
    OwnerKnownStill(s.ops, o, rid, r);
    match o
    case ForV2c(other) =>
      FinishCommutes(s.ops, other, ToResult(p.response), rid, r);
      FinishSize(s.ops, other, ToResult(p.response));
    case ForData(other, _) =>
      FinishCommutes(s.ops, other, ToResult(p.response), rid, r);
      FinishSize(s.ops, other, ToResult(p.response));
      ReportedCommutes(w, s, other, p, rid, r);
    case ForIdentify(did) => IdentifiedCommutes(w, s, did, p.security, rid, r);
    case ForSync(_) =>
  }

  lemma CompleteCommutes(w: World, s: State, x: nat, error: Option<int>, rid: nat, r: Request)
    requires Linked(s) && SameRequest(s.ops, rid, r) && x < |s.net.xs| && OpOf(s.net.xs[x].owner) != Req(rid)
    ensures OwnersKnown(s.net, OpsWith(s.ops, rid, r)) && |Complete(w, s, x, error).ops.rs| == |s.ops.rs|
    ensures Complete(w, With(s, rid, r), x, error) == With(Complete(w, s, x, error), rid, r)
  {
    hide Succeed, FailOwner, CancelOf, Classify, OwnerKnown, OpsKnown, TableKnown, OwnersKnown, SameRequest,
         EndExchange;
    Indexed(s.ops, rid, r);
    OwnersStillKnown(s.net, s.ops, rid, r);
    var e := s.net.xs[x];
    var cancel := CancelFor(s, x);
    CancelCommutes(s.ops, e.owner, rid, r);
    var outcome := Classify(s.stopping, cancel, e.pending, error);
    var m := s.(net := EndExchange(s.net, x, outcome, s.now));
    FailCommutes(s.ops, e.owner, outcome, rid, r);
    SucceedCommutes(w, m, e.owner, e.pending, rid, r);
  }

  lemma OwnersStillKnown(net: Net, ops: Ops, rid: nat, r: Request)
    requires SameRequest(ops, rid, r) && OwnersKnown(net, ops)
    ensures OwnersKnown(net, OpsWith(ops, rid, r))
  {
    forall x | 0 <= x < |net.xs| ensures OwnerKnown(net.xs[x].owner, OpsWith(ops, rid, r)) {
      OwnerKnownStill(ops, net.xs[x].owner, rid, r);
    }
  }

  lemma StillLinked(s: State, rid: nat, r: Request)
    requires Linked(s) && SameRequest(s.ops, rid, r)
    ensures Linked(With(s, rid, r))
  {
    hide OwnerKnown;
    OwnersStillKnown(s.net, s.ops, rid, r);
  }

  lemma MovedCommutes(w: World, s: State, x: nat, m: Move, error: Option<int>, rid: nat, r: Request)
    requires Linked(s) && SameRequest(s.ops, rid, r) && x < |s.net.xs| && OpOf(s.net.xs[x].owner) != Req(rid)
    ensures OwnersKnown(s.net, OpsWith(s.ops, rid, r)) && |Moved(w, s, x, m, error).ops.rs| == |s.ops.rs|
    ensures Moved(w, With(s, rid, r), x, m, error) == With(Moved(w, s, x, m, error), rid, r)
  {
    hide Complete, OwnersKnown, TableKnown, OpsKnown;
    CompleteCommutes(w, s, x, error, rid, r);
  }

  lemma ResumeCommutes(w: World, s: State, other: nat, rid: nat, r: Request)
    requires Linked(s) && SameRequest(s.ops, rid, r) && other < |s.ops.rs| && other != rid
    requires s.ops.rs[other].place.Parked?
    ensures OpsKnown(OpsWith(s.ops, rid, r)) && |ResumeWaiter(w, s, other).ops.rs| == |s.ops.rs|
    ensures ResumeWaiter(w, With(s, rid, r), other) == With(ResumeWaiter(w, s, other), rid, r)
  {
    hide Ask, FinishRequest, OpsKnown, TableKnown, OwnersKnown;
    PlacesKnown(s.ops, other);
    StillLinked(s, rid, r);
    AskCommutes(w, s, other, rid, r);
    var stage := s.ops.ds[s.ops.rs[other].place.did].stage;
    FinishCommutes(s.ops, other, Failed(Fault(ClientStopped)), rid, r);
    FinishSize(s.ops, other, Failed(Fault(ClientStopped)));
    FinishCommutes(s.ops, other, Failed(OperationAborted), rid, r);
    FinishSize(s.ops, other, Failed(OperationAborted));
    if stage.Finished? {
      FinishCommutes(s.ops, other, Failed(stage.ec), rid, r);
      FinishSize(s.ops, other, Failed(stage.ec));
    }
  }

  lemma SignalCommutes(s: State, other: nat, terminal: bool, rid: nat, r: Request)
    requires SameRequest(s.ops, rid, r) && other < |s.ops.rs| && other != rid
    ensures |Cancel(s, other, terminal).ops.rs| == |s.ops.rs|
    ensures Cancel(With(s, rid, r), other, terminal) == With(Cancel(s, other, terminal), rid, r)
  {
    assert Cancel(With(s, rid, r), other, terminal).ops.rs == With(Cancel(s, other, terminal), rid, r).ops.rs;
  }

  /** The one thing a step may do to a parked request that is not its own: Stopping wakes it. */
  function Roused(s: State, e: Event, r: Request): Request {
    if e.StopOnStrand? && s.stopping && !s.cleaned && OnDiscovery(s.ops, r) then r.(woken := true) else r
  }

  lemma StopCommutes(s: State, rid: nat, r: Request)
    requires SameRequest(s.ops, rid, r) && s.stopping && !s.cleaned
    ensures |FinishStopping(s).ops.rs| == |s.ops.rs|
    ensures FinishStopping(With(s, rid, r)) == With(FinishStopping(s), rid, Roused(s, StopOnStrand, r))
  {
    hide Outstanding;
    assert FinishStopping(With(s, rid, r)).ops.rs == With(FinishStopping(s), rid, Roused(s, StopOnStrand, r)).ops.rs;
  }

  /** The events that are the request's own. */
  predicate Mine(e: Event, rid: nat) {
    (e.Signal? || e.WaiterRuns?) && e.rid == rid
  }

  lemma DeliverCommutes(w: World, s: State, bytes: octets, from: Endpoint, rid: nat, r: Request)
    requires TableKnown(s.net) && rid < |s.ops.rs|
    ensures Deliver(w, With(s, rid, r), bytes, from) == Deliver(w, s, bytes, from)
  {
  }

  lemma StepCommutes(w: World, s: State, e: Event, rid: nat, r: Request)
    requires Linked(s) && SameRequest(s.ops, rid, r) && Quiet(s.net, Req(rid)) && !Mine(e, rid)
    ensures Linked(With(s, rid, r)) && rid < |Step(w, s, e).ops.rs|
    ensures Step(w, With(s, rid, r), e) == With(Step(w, s, e), rid, Roused(s, e, r))
  {
    hide OwnersKnown, OpsKnown, TableKnown, OwnerKnown, StartRequest, Identify, Deliver, Moved, ResumeWaiter,
         CancelOf, Cancel, FinishStopping, AfterSend, AfterWait, OnDiscovery, SameRequest, Due;
    Indexed(s.ops, rid, r);
    StillLinked(s, rid, r);
    EnabledCommutes(s, e, rid, r);
    if Enabled(s, e) {
      match e
      case Call(target, auth, pdu) => StartCommutes(w, s, target, auth, pdu, rid, r);
      case DiscoveryRuns(did) => IdentifyCommutes(w, s, did, rid, r);
      case Datagram(bytes, from) => DeliverCommutes(w, s, bytes, from, rid, r);
      case Sent(x, error) =>
        MovedCommutes(w, s, x, AfterSend(s.net.xs[x], s.now, s.stopping, error), error, rid, r);
      case Fires(x) =>
        var cancel := FiringCancel(s, x);
        CancelCommutes(s.ops, s.net.xs[x].owner, rid, r);
        MovedCommutes(w, s, x, AfterWait(s.net.xs[x], s.now, s.stopping, cancel), None, rid, r);
      case Signal(other, terminal) => SignalCommutes(s, other, terminal, rid, r);
      case WaiterRuns(other) => ResumeCommutes(w, s, other, rid, r);
      case StopOnStrand => StopCommutes(s, rid, r);
      case _ =>
    }
  }

  lemma EnabledCommutes(s: State, e: Event, rid: nat, r: Request)
    requires Linked(s) && SameRequest(s.ops, rid, r) && !Mine(e, rid)
    ensures OpsKnown(OpsWith(s.ops, rid, r)) && (Enabled(With(s, rid, r), e) <==> Enabled(s, e))
  {
    hide Due;
    StillLinked(s, rid, r);
  }

  //
  // Runs
  //

  /** The events that are not the request's own. */
  function Without(events: seq<Event>, rid: nat): seq<Event>
    decreases |events|
  {
    if events == [] then []
    else
      var n := |events| - 1;
      if Mine(events[n], rid) then Without(events[..n], rid) else Without(events[..n], rid) + [events[n]]
  }

  /** A cancelled waiter: still to run, or over because of the cancellation or of Stopping. */
  predicate Settled(r: Request) {
    || (r.place.Parked? && r.cancel != NotCancelled)
    || r.place == Done(Failed(Fault(ClientStopped))) || r.place == Done(Failed(OperationAborted))
  }

  /** The cancelled run and the other differ in that request alone, which waits in the other. */
  predicate Apart(s: State, s': State, rid: nat) {
    && rid < |s.ops.rs| == |s'.ops.rs| && s' == With(s, rid, s'.ops.rs[rid])
    && SameRequest(s.ops, rid, s'.ops.rs[rid]) && Settled(s'.ops.rs[rid]) && s.ops.rs[rid].place.Parked?
  }

  lemma OwnStepStaysApart(w: World, s: State, s': State, e: Event, rid: nat)
    requires Linked(s) && Linked(s') && Apart(s, s', rid) && Quiet(s.net, Req(rid)) && Mine(e, rid)
    ensures Apart(s, Step(w, s', e), rid)
  {
    hide OwnersKnown, TableKnown, Ask, FinishRequest;
    var r := s'.ops.rs[rid];
    PlacesKnown(s'.ops, rid);
    if Enabled(s', e) {
      if e.Signal? {
        assert CancelWaits(s'.net, rid).xs == s'.net.xs;
        assert Step(w, s', e).ops.rs == s.ops.rs[rid := Step(w, s', e).ops.rs[rid]];
      } else {
        var outcome := Failed(if s'.stopping then Fault(ClientStopped) else OperationAborted);
        FinishIs(s'.ops, rid, outcome);
        assert Step(w, s', e).ops.rs == s.ops.rs[rid := r.(place := Done(outcome))];
      }
    }
  }

  lemma FinishIs(ops: Ops, rid: nat, outcome: Outcome)
    requires rid < |ops.rs|
    ensures FinishRequest(ops, rid, outcome) == ops.(rs := ops.rs[rid := ops.rs[rid].(place := Done(outcome))])
  {
  }

  lemma OtherStepStaysApart(w: World, s: State, s': State, e: Event, rid: nat)
    requires Linked(s) && Linked(s') && Apart(s, s', rid) && Quiet(s.net, Req(rid)) && !Mine(e, rid)
    ensures Apart(Step(w, s, e), Step(w, s', e), rid)
  {
    hide Step, Linked, Quiet, OnDiscovery, OpsGrow;
    var r, q := s'.ops.rs[rid], s.ops.rs[rid];
    StepFollows(w, s, e);
    StepCommutes(w, s, e, rid, r);
    assert SameRequest(s.ops, rid, q) by { LinkedPlace(s, rid); }
    StepCommutes(w, s, e, rid, q);
    assert s.ops.rs[rid := q] == s.ops.rs;
    assert With(s, rid, q) == s;
    var t := Step(w, s, e);
    assert t.ops.rs[rid] == Roused(s, e, q);
    StillSame(s.ops, t.ops, rid, r, Roused(s, e, r));
  }

  lemma LinkedPlace(s: State, rid: nat)
    requires Linked(s) && rid < |s.ops.rs|
    ensures PlaceKnown(s.ops.rs[rid], |s.ops.ds|)
  {
    PlacesKnown(s.ops, rid);
  }

  lemma StillSame(ops: Ops, ops': Ops, rid: nat, r: Request, r': Request)
    requires SameRequest(ops, rid, r) && OpsGrow(ops, ops') && r' == r.(woken := r'.woken)
    ensures SameRequest(ops', rid, r')
  {
  }

  lemma {:induction false} StaysApart(w: World, now: Instant, first: int32, trace: seq<Event>, more: seq<Event>,
                                      rid: nat, terminal: bool)
    requires var ops := Run(w, Initial(now, first), trace).ops; rid < |ops.rs| && ops.rs[rid].place.Parked?
    ensures Apart(Run(w, Initial(now, first), trace + Without(more, rid)),
                  Run(w, Initial(now, first), trace + [Signal(rid, terminal)] + more), rid)
    decreases |more|
  {
    hide Run, Step, Ordered, Quiet, Apart;
    var start := Initial(now, first);
    if more == [] {
      var s := Run(w, start, trace);
      RunOrdered(w, now, first, trace);
      ParkedQuiet(s.net, s.ops, rid);
      RunSnoc(w, start, trace, Signal(rid, terminal));
      SignalParked(w, s, rid, terminal);
      CancelledApart(s, Step(w, s, Signal(rid, terminal)), rid);
      assert trace + Without(more, rid) == trace;
      assert trace + [Signal(rid, terminal)] + more == trace + [Signal(rid, terminal)];
    } else {
      var n := |more| - 1;
      var before, e := more[..n], more[n];
      StaysApart(w, now, first, trace, before, rid, terminal);
      var left, right := trace + [Signal(rid, terminal)] + before, trace + Without(before, rid);
      var s, s' := Run(w, start, right), Run(w, start, left);
      RunOrdered(w, now, first, right);
      assert rid < |s.ops.rs| && s.ops.rs[rid].place.Parked? by { ApartParked(s, s', rid); }
      ParkedQuiet(s.net, s.ops, rid);
      RunSnoc(w, start, left, e);
      assert left + [e] == trace + [Signal(rid, terminal)] + more;
      if Mine(e, rid) {
        OwnStepStaysApart(w, s, s', e, rid);
      } else {
        OtherStepStaysApart(w, s, s', e, rid);
        RunSnoc(w, start, right, e);
        assert right + [e] == trace + Without(more, rid);
      }
    }
  }

  lemma ApartParked(s: State, s': State, rid: nat)
    requires Apart(s, s', rid)
    ensures rid < |s.ops.rs| && s.ops.rs[rid].place.Parked?
  {
  }

  lemma CancelledApart(s: State, s': State, rid: nat)
    requires Linked(s) && rid < |s.ops.rs| == |s'.ops.rs| && s.ops.rs[rid].place.Parked?
    requires s' == s.(ops := s.ops.(rs := s.ops.rs[rid := s'.ops.rs[rid]]))
    requires s'.ops.rs[rid].place == s.ops.rs[rid].place && s'.ops.rs[rid].cancel != NotCancelled
    requires s'.ops.rs[rid] == s.ops.rs[rid].(cancel := s'.ops.rs[rid].cancel, woken := s'.ops.rs[rid].woken)
    ensures Apart(s, s', rid)
  {
    PlacesKnown(s.ops, rid);
  }

  /**
   * Cancelling a request that waits on a discovery changes nothing for anyone else, ever: in every continuation, with
   * that request's own later events in any place, the state is that of the run in which it was not cancelled and has
   * not run, but for that one request; and that one ends, if it does, as cancelled or as ClientStopped.
   */
  lemma CancellingWaiterIsLocal(w: World, now: Instant, first: int32, trace: seq<Event>, more: seq<Event>, rid: nat,
                                terminal: bool)
    requires var ops := Run(w, Initial(now, first), trace).ops; rid < |ops.rs| && ops.rs[rid].place.Parked?
    ensures var s, s' := Run(w, Initial(now, first), trace + Without(more, rid)),
                         Run(w, Initial(now, first), trace + [Signal(rid, terminal)] + more);
            && rid < |s'.ops.rs| == |s.ops.rs| && s' == s.(ops := s.ops.(rs := s.ops.rs[rid := s'.ops.rs[rid]]))
            && (s'.ops.rs[rid].place.Parked? || s'.ops.rs[rid].place == Done(Failed(Fault(ClientStopped)))
                || s'.ops.rs[rid].place == Done(Failed(OperationAborted)))
  {
    hide Run;
    StaysApart(w, now, first, trace, more, rid, terminal);
  }
}
