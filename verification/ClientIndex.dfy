/** Which Engine is believed to answer at an endpoint: what writes that, and when a waiter finds none. */
module ClientIndex {
  import opened Octets
  import opened Errors
  import opened Pdus
  import opened Usm
  import opened V3Messages
  import opened ClientModel
  import opened ClientSteps
  import opened ClientFrames
  import opened ClientRuns
  import opened ClientVerdicts
  import opened ClientExchanges
  import opened ClientClocks
  import opened ClientOps

  /** What a step does to the index entry of one endpoint. */
  datatype IndexWrite = Untouched | Named(id: octets) | Forgot

  /** A Report that makes the Client forget the Engine: worth asking again about, and unsigned or about the engineID. */
  predicate Forgetful(p: Pending) {
    && p.response.kind == Report && (Reports(p.response, 2) || Reports(p.response, 4))
    && (!p.replyAuthenticated || Reports(p.response, 4))
  }

  function WriteOf(ops: Ops, o: Owner, p: Pending, ep: Endpoint): IndexWrite
    requires OwnerKnown(o, ops)
  {
    match o
    case ForIdentify(did) =>
      if ops.ds[did].target.endpoint == ep && p.security.engineId != [] then Named(p.security.engineId) else Untouched
    case ForData(rid, _) =>
      if ops.rs[rid].target.endpoint == ep && ops.rs[rid].round == 0 && Forgetful(p) then Forgot else Untouched
    case _ => Untouched
  }

  function WriteAt(s: State, e: Event, ep: Endpoint): IndexWrite
    requires Linked(s)
  {
    var x := Answering(s, e);
    if x.None? || x.value >= |s.net.xs| || !OwnerKnown(s.net.xs[x.value].owner, s.ops) then Untouched
    else WriteOf(s.ops, s.net.xs[x.value].owner, s.net.xs[x.value].pending, ep)
  }

  /** The entry, and that Engines once known stay known. */
  predicate Written(c: Cache, c': Cache, ep: Endpoint, write: IndexWrite) {
    && (forall id :: id in c.engines ==> id in c'.engines)
    && match write
       case Untouched => (ep in c'.engineAt <==> ep in c.engineAt)
           && (ep in c.engineAt ==> c'.engineAt[ep] == c.engineAt[ep])
       case Named(id) => ep in c'.engineAt && c'.engineAt[ep] == id && id in c'.engines
       case Forgot => ep !in c'.engineAt
  }

  lemma LearntWrites(c: Cache, now: Instant, ops: Ops, o: Owner, p: Pending, ep: Endpoint)
    requires OwnerKnown(o, ops)
    ensures Written(c, Learnt(c, now, ops, o, p), ep, WriteOf(ops, o, p, ep))
  {
    hide UsmStatsCounter, Reports;
    ReportErrorIs(p.response);
    ReportsIs(p.response, 4);
  }

  lemma StepWrites(w: World, s: State, e: Event, ep: Endpoint)
    requires Linked(s)
    ensures Written(s.cache, Step(w, s, e).cache, ep, WriteAt(s, e, ep))
  {
    hide Step, Learnt, Answering, Linked, Written;
    StepLearns(w, s, e);
    var x := Answering(s, e);
    if x.Some? {
      LearntWrites(s.cache, s.now, s.ops, s.net.xs[x.value].owner, s.net.xs[x.value].pending, ep);
    } else {
      NothingWritten(s.cache, ep);
    }
  }

  lemma NothingWritten(c: Cache, ep: Endpoint)
    ensures Written(c, c, ep, Untouched)
  {
  }

  /**
   * An endpoint's Engine is lost in a step exactly when the step resumes the first round of a request to that endpoint
   * with a Report worth asking again about that is unsigned or names unknownEngineIDs.
   */
  lemma EngineLostOnlyToReport(w: World, s: State, e: Event, ep: Endpoint)
    requires Linked(s) && EngineFor(s.cache, ep).Some?
    ensures EngineFor(Step(w, s, e).cache, ep).None? <==> WriteAt(s, e, ep) == Forgot
  {
    hide Step, Linked, WriteAt;
    StepWrites(w, s, e, ep);
  }

  //
  // Runs
  //

  /** The last thing a run did to an endpoint's entry, if anything. */
  function LastWrite(w: World, s: State, trace: seq<Event>, ep: Endpoint): IndexWrite
    requires Linked(s)
    decreases |trace|
  {
    if trace == [] then Untouched
    else
      var before := trace[..|trace| - 1];
      var write := WriteAt(Run(w, s, before), trace[|trace| - 1], ep);
      if write.Untouched? then LastWrite(w, s, before, ep) else write
  }

  /**
   * In every run an endpoint's Engine is the one last named for it, and there is none exactly when it was since
   * forgotten or never named.
   */
  lemma {:induction false} IndexIsLastWrite(w: World, now: Instant, first: int32, trace: seq<Event>, ep: Endpoint)
    ensures EngineFor(Run(w, Initial(now, first), trace).cache, ep)
         == match LastWrite(w, Initial(now, first), trace, ep)
            case Named(id) => Some(id)
            case _ => None
    ensures var c := Run(w, Initial(now, first), trace).cache; ep in c.engineAt ==> c.engineAt[ep] in c.engines
    decreases |trace|
  {
    hide Step, WriteAt;
    if trace != [] {
      var before := trace[..|trace| - 1];
      IndexIsLastWrite(w, now, first, before, ep);
      StepWrites(w, Run(w, Initial(now, first), before), trace[|trace| - 1], ep);
    }
  }

  //
  // Waiters
  //

  /** A parked request waits on a discovery for its own endpoint. */
  predicate WaitsThere(ops: Ops, r: Request) {
    r.place.Parked? ==> r.place.did < |ops.ds| && ops.ds[r.place.did].target.endpoint == r.target.endpoint
  }

  predicate AllWaitThere(ops: Ops) {
    forall r :: 0 <= r < |ops.rs| ==> WaitsThere(ops, ops.rs[r])
  }

  /**
   * What carrying on may do: park only where the discovery is for the request's own endpoint; and let no discovery but
   * `named` succeed or enter its second phase.
   */
  predicate Proceeds(s: State, s': State, named: Option<nat>) {
    && |s.ops.rs| <= |s'.ops.rs| && |s.ops.ds| <= |s'.ops.ds| && |s.net.xs| <= |s'.net.xs|
    && (forall r :: 0 <= r < |s'.ops.rs| ==> ParksThere(s.ops, s'.ops, r))
    && (forall d :: 0 <= d < |s'.ops.ds| ==> FinishesAs(s.ops, s'.ops, d, named))
    && (forall x :: |s.net.xs| <= x < |s'.net.xs| && s'.net.xs[x].owner.ForSync? ==>
          named == Some(s'.net.xs[x].owner.did))
  }

  predicate ParksThere(ops: Ops, ops': Ops, r: nat)
    requires r < |ops'.rs|
  {
    (r < |ops.rs| && ops'.rs[r].place == ops.rs[r].place) || WaitsThere(ops', ops'.rs[r])
  }

  predicate FinishesAs(ops: Ops, ops': Ops, d: nat, named: Option<nat>)
    requires d < |ops'.ds|
  {
    ops'.ds[d].stage == Finished(NoError) ==> (d < |ops.ds| && ops.ds[d].stage == ops'.ds[d].stage) || named == Some(d)
  }

  lemma Stays(s: State, s': State, named: Option<nat>)
    requires s'.ops == s.ops && |s'.net.xs| == |s.net.xs|
    ensures Proceeds(s, s', named)
  {
  }

  lemma FailProceeds(s: State, s': State, o: Owner, ec: ErrorCode, named: Option<nat>)
    requires OwnerKnown(o, s.ops) && ec != NoError
    requires s'.ops == FailOwner(s.ops, o, ec) && |s'.net.xs| == |s.net.xs|
    ensures Proceeds(s, s', named)
  {
  }

  lemma EndProceeds(s: State, s': State, rid: nat, outcome: Outcome, named: Option<nat>)
    requires rid < |s.ops.rs| && s'.ops == FinishRequest(s.ops, rid, outcome) && |s'.net.xs| == |s.net.xs|
    ensures Proceeds(s, s', named)
  {
  }

  lemma DiscoveryEndProceeds(s: State, s': State, did: nat, ec: ErrorCode, named: Option<nat>)
    requires did < |s.ops.ds| && s'.ops == FinishDiscovery(s.ops, did, ec) && |s'.net.xs| == |s.net.xs|
    requires ec == NoError ==> named == Some(did)
    ensures Proceeds(s, s', named)
  {
  }

  lemma ClassifiedFault(cancel: Cancellation, t: Terms)
    ensures Classify(false, cancel, Unanswered(t), None) != NoError
  {
  }

  lemma LaunchProceeds(w: World, s: State, o: Owner, target: Target, t: Terms, out: Outgoing, named: Option<nat>)
    requires OwnerKnown(o, s.ops) && (o.ForSync? ==> named == Some(o.did))
    ensures Proceeds(s, Launch(w, s, o, target, t, out), named)
  {
    hide FailOwner, Emplaced, Next, Classify, OwnerKnown, WaitsThere;
    var s' := Launch(w, s, o, target, t, out);
    if w.encode(out).Some? {
      FailProceeds(s, s', o, Fault(w.encode(out).value), named);
    } else if s.stopping {
      FailProceeds(s, s', o, Fault(ClientStopped), named);
    } else if w.openError(s.net.issued).Some? {
      FailProceeds(s, s', o, SystemError(w.openError(s.net.issued).value), named);
    } else if target.retries < 0 {
      ClassifiedFault(CancelOf(s.ops, o), t);
      FailProceeds(s, s', o, Classify(false, CancelOf(s.ops, o), Unanswered(t), None), named);
    }
  }

  /** A move of the operations that parks no one and finishes nothing. */
  predicate Plain(s: State, m: State) {
    && |s.ops.rs| <= |m.ops.rs| && |s.ops.ds| <= |m.ops.ds| && |m.net.xs| == |s.net.xs|
    && (forall r :: 0 <= r < |m.ops.rs| && m.ops.rs[r].place.Parked? ==>
          r < |s.ops.rs| && m.ops.rs[r].place == s.ops.rs[r].place)
    && (forall d :: 0 <= d < |m.ops.ds| && m.ops.ds[d].stage.Finished? ==>
          d < |s.ops.ds| && m.ops.ds[d].stage == s.ops.ds[d].stage)
  }

  lemma ProceedsAfter(s: State, m: State, s': State, named: Option<nat>)
    requires Plain(s, m) && Proceeds(m, s', named)
    ensures Proceeds(s, s', named)
  {
    forall r | 0 <= r < |s'.ops.rs| ensures ParksThere(s.ops, s'.ops, r) {
      assert ParksThere(m.ops, s'.ops, r);
    }
    forall d | 0 <= d < |s'.ops.ds| ensures FinishesAs(s.ops, s'.ops, d, named) {
      assert FinishesAs(m.ops, s'.ops, d, named);
    }
  }

  lemma AskProceeds(w: World, s: State, rid: nat, named: Option<nat>)
    requires rid < |s.ops.rs| && s.ops.rs[rid].auth.ByUser?
    ensures Proceeds(s, Ask(w, s, rid), named)
  {
    hide Proceeds, Launch, EngineFor, FinishRequest, DataMessage, DataTerms;
    var r := s.ops.rs[rid];
    var id := EngineFor(s.cache, r.target.endpoint);
    if id.None? {
      EndProceeds(s, Ask(w, s, rid), rid, Failed(Fault(UnknownEngineId)), named);
    } else {
      var e := s.cache.engines[id.value];
      var keys := KeysFor(w, r.auth.creds, e.engineId);
      if keys.Err? {
        EndProceeds(s, Ask(w, s, rid), rid, Failed(Fault(keys.error)), named);
      } else {
        var m := s.(ops := s.ops.(rs := s.ops.rs[rid := r.(place := Exchanging)]));
        LaunchProceeds(w, m, ForData(rid, r.round), r.target,
                       DataTerms(s.net.nextId, r.target.endpoint, e, r.auth.creds, keys.value.0, keys.value.1),
                       DataMessage(s.net.nextId, s.now, e, r.auth.creds, r.pdu, keys.value.0, keys.value.1), named);
        ProceedsAfter(s, m, Ask(w, s, rid), named);
      }
    }
  }

  lemma ParkProceeds(s: State, rid: nat, named: Option<nat>)
    requires InFlight(s.ops) && rid < |s.ops.rs| && s.ops.rs[rid].auth.ByUser?
    ensures Proceeds(s, s.(ops := Park(s.ops, rid)), named)
  {
  }

  lemma EnsureProceeds(w: World, s: State, rid: nat, named: Option<nat>)
    requires InFlight(s.ops) && rid < |s.ops.rs| && s.ops.rs[rid].auth.ByUser?
    ensures Proceeds(s, EnsureEngine(w, s, rid), named)
  {
    hide Proceeds, EngineReady, Ask, Park, InFlight;
    AskProceeds(w, s, rid, named);
    ParkProceeds(s, rid, named);
  }

  lemma StartProceeds(w: World, s: State, target: Target, auth: Auth, pdu: Pdu, named: Option<nat>)
    requires InFlight(s.ops)
    ensures Proceeds(s, StartRequest(w, s, target, auth, pdu), named)
  {
    hide Proceeds, Launch, EnsureEngine, FinishRequest;
    var rid, s' := |s.ops.rs|, StartRequest(w, s, target, auth, pdu);
    var m := s.(ops := s.ops.(rs := s.ops.rs + [Request(target, auth, pdu, 0, NotCancelled, false, Exchanging)]));
    if s.stopping {
      EndProceeds(m, s', rid, Failed(Fault(ClientStopped)), named);
    } else if auth.ByCommunity? {
      LaunchProceeds(w, m, ForV2c(rid), target, V2cTerms(s.net.nextId, target.endpoint, auth.community),
                     V2cOut(V2cMessage(auth.community, pdu.(requestId := s.net.nextId))), named);
    } else if Unsupported(auth.creds).Some? {
      EndProceeds(m, s', rid, Failed(Fault(Unsupported(auth.creds).value)), named);
    } else {
      EnsureProceeds(w, m, rid, named);
    }
    ProceedsAfter(s, m, s', named);
  }

  lemma IdentifyProceeds(w: World, s: State, did: nat, named: Option<nat>)
    requires did < |s.ops.ds|
    ensures Proceeds(s, Identify(w, s, did), named)
  {
    hide Proceeds, Launch;
    var d := s.ops.ds[did];
    var m := s.(ops := s.ops.(ds := s.ops.ds[did := d.(stage := Discovering)]));
    LaunchProceeds(w, m, ForIdentify(did), d.target, IdentifyTerms(s.net.nextId, d.target.endpoint),
                   Probe(s.net.nextId, NoAuthNoPriv, NO_SECURITY, NoAuth, [], NoPriv, []), named);
    ProceedsAfter(s, m, Identify(w, s, did), named);
  }

  lemma IdentifiedProceeds(w: World, s: State, did: nat, security: UsmParameters, named: Option<nat>)
    requires did < |s.ops.ds| && (security.engineId != [] ==> named == Some(did))
    ensures Proceeds(s, Identified(w, s, did, security), named)
  {
    hide Proceeds, Launch, FinishDiscovery, Probe, SyncTerms;
    var s', d := Identified(w, s, did, security), s.ops.ds[did];
    if security.engineId == [] {
      DiscoveryEndProceeds(s, s', did, Fault(UnknownEngineId), named);
    } else {
      var m := s.(cache := RecordIdentity(s.cache, s.now, d.target.endpoint, security));
      var keys := KeysFor(w, d.creds, security.engineId);
      if !IsAuthenticated(d.creds.level) || m.cache.engines[security.engineId].timeSynced {
        DiscoveryEndProceeds(s, s', did, NoError, named);
      } else if keys.Err? {
        DiscoveryEndProceeds(s, s', did, Fault(keys.error), named);
      } else {
        LaunchProceeds(w, m, ForSync(did), d.target,
                       SyncTerms(s.net.nextId, d.target.endpoint, security.engineId, d.creds, keys.value.0,
                                 keys.value.1),
                       Probe(s.net.nextId, d.creds.level,
                             UsmParameters(security.engineId, 0, 0, d.creds.userName, [], []),
                             d.creds.authProtocol, keys.value.0, d.creds.privProtocol, keys.value.1), named);
        ProceedsAfter(s, m, s', named);
      }
    }
  }

  lemma SynchronisedProceeds(s: State, did: nat, p: Pending)
    requires did < |s.ops.ds|
    ensures Proceeds(s, Synchronised(s, did, p), Some(did))
  {
    hide Proceeds, FinishDiscovery;
    var s' := Synchronised(s, did, p);
    DiscoveryEndProceeds(s, s', did, if NoBaseline(p).Some? then Fault(NoBaseline(p).value) else NoError, Some(did));
  }

  lemma ReportedProceeds(w: World, s: State, rid: nat, p: Pending, named: Option<nat>)
    requires InFlight(s.ops) && rid < |s.ops.rs| && s.ops.rs[rid].auth.ByUser?
    ensures Proceeds(s, Reported(w, s, rid, p), named)
  {
    hide Proceeds, FinishRequest, EnsureEngine;
    var counter, r, s' := UsmStatsCounter(p.response), s.ops.rs[rid], Reported(w, s, rid, p);
    if r.round != 0 || !Retryable(counter) {
      EndProceeds(s, s', rid, Failed(Fault(ReportError(counter))), named);
    } else {
      var m := s.(cache := Resynchronise(s.cache, s.now, r.target.endpoint, p), ops := Again(s.ops, rid));
      EnsureProceeds(w, m, rid, named);
      ProceedsAfter(s, m, s', named);
    }
  }

  lemma ResumeProceeds(w: World, s: State, rid: nat, named: Option<nat>)
    requires OpsKnown(s.ops) && rid < |s.ops.rs| && s.ops.rs[rid].place.Parked?
    ensures Proceeds(s, ResumeWaiter(w, s, rid), named)
  {
    hide Proceeds, FinishRequest, Ask, OpsKnown;
    PlacesKnown(s.ops, rid);
    var s', stage := ResumeWaiter(w, s, rid), s.ops.ds[s.ops.rs[rid].place.did].stage;
    if s.stopping {
      EndProceeds(s, s', rid, Failed(Fault(ClientStopped)), named);
    } else if s.ops.rs[rid].cancel != NotCancelled || !stage.Finished? {
      EndProceeds(s, s', rid, Failed(OperationAborted), named);
    } else if stage.ec != NoError {
      EndProceeds(s, s', rid, Failed(stage.ec), named);
    } else {
      AskProceeds(w, s, rid, named);
    }
  }

  /** The discovery that names an Engine, or has named one, in this step. */
  function NamedIn(s: State, e: Event): Option<nat>
    requires Linked(s)
  {
    var x := Answering(s, e);
    if x.None? || x.value >= |s.net.xs| then None else NamedBy(s.net.xs[x.value].owner, s.net.xs[x.value].pending)
  }

  function NamedBy(o: Owner, p: Pending): Option<nat> {
    match o
    case ForIdentify(did) => if p.security.engineId != [] then Some(did) else None
    case ForSync(did) => Some(did)
    case _ => None
  }

  lemma CompleteProceeds(w: World, s: State, x: nat, error: Option<int>, named: Option<nat>)
    requires Linked(s) && InFlight(s.ops) && x < |s.net.xs| && OwnersKnown(s.net, s.ops)
    requires Succeeds(s, x, error) ==> named == NamedBy(s.net.xs[x].owner, s.net.xs[x].pending)
    ensures Proceeds(s, Complete(w, s, x, error), named)
  {
    hide Proceeds, InFlight, Classify, CancelOf, FailOwner, FinishRequest, Reported, Identified, Synchronised, OpsKnown,
      OwnersKnown, TableKnown;
    var e, s' := s.net.xs[x], Complete(w, s, x, error);
    var cancel := CancelFor(s, x);
    var outcome := Classify(s.stopping, cancel, e.pending, error);
    var m := s.(net := EndExchange(s.net, x, outcome, s.now));
    if outcome != NoError {
      FailProceeds(s, s', e.owner, outcome, named);
    } else {
      match e.owner
      case ForV2c(rid) => EndProceeds(s, s', rid, ToResult(e.pending.response), named);
      case ForData(rid, _) =>
        if e.pending.response.kind == Report {
          ReportedProceeds(w, m, rid, e.pending, named);
          ProceedsAfter(s, m, s', named);
        } else {
          EndProceeds(s, s', rid, ToResult(e.pending.response), named);
        }
      case ForIdentify(did) =>
        IdentifiedProceeds(w, m, did, e.pending.security, named);
        ProceedsAfter(s, m, s', named);
      case ForSync(did) =>
        SynchronisedProceeds(m, did, e.pending);
        ProceedsAfter(s, m, s', named);
    }
  }

  lemma MovedProceeds(w: World, s: State, x: nat, m: Move, error: Option<int>, named: Option<nat>)
    requires Linked(s) && InFlight(s.ops) && x < |s.net.xs| && OwnersKnown(s.net, s.ops)
    requires m.Leave? && Succeeds(s, x, error) ==> named == NamedBy(s.net.xs[x].owner, s.net.xs[x].pending)
    ensures Proceeds(s, Moved(w, s, x, m, error), named)
  {
    hide Proceeds, Complete, Succeeds, InFlight, Linked, OwnersKnown;
    if m.Stay? {
      Stays(s, Moved(w, s, x, m, error), named);
    } else {
      CompleteProceeds(w, s, x, error, named);
    }
  }

  lemma StepProceeds(w: World, s: State, e: Event)
    requires Linked(s) && InFlight(s.ops)
    ensures Proceeds(s, Step(w, s, e), NamedIn(s, e))
  {
    hide Proceeds, InFlight, OwnersKnown, OpsKnown, TableKnown, StartRequest, Identify, Deliver, Moved, ResumeWaiter,
         CancelOf, Cancel, FinishStopping, Succeeds;
    var named := NamedIn(s, e);
    if !Enabled(s, e) {
      Stays(s, s, named);
    } else {
      match e
      case Call(target, auth, pdu) => StartProceeds(w, s, target, auth, pdu, named);
      case DiscoveryRuns(did) => IdentifyProceeds(w, s, did, named);
      case Datagram(bytes, from) =>
        DeliverKeeps(w, s, bytes, from);
        Stays(s, Step(w, s, e), named);
      case Sent(x, error) =>
        var cancel := CancelFor(s, x);
        MovedProceeds(w, s, x, AfterSend(s.net.xs[x], s.now, s.stopping, error), error, named);
      case Fires(x) =>
        var cancel := FiringCancel(s, x);
        MovedProceeds(w, s, x, AfterWait(s.net.xs[x], s.now, s.stopping, cancel), None, named);
      case Signal(rid, terminal) => SignalProceeds(s, rid, terminal, named);
      case WaiterRuns(rid) => ResumeProceeds(w, s, rid, named);
      case StopOnStrand => StopProceeds(s, named);
      case _ => Stays(s, Step(w, s, e), named);
    }
  }

  lemma SignalProceeds(s: State, rid: nat, terminal: bool, named: Option<nat>)
    requires rid < |s.ops.rs|
    ensures Proceeds(s, Cancel(s, rid, terminal), named)
  {
  }

  lemma StopProceeds(s: State, named: Option<nat>)
    ensures Proceeds(s, FinishStopping(s), named)
  {
    hide Outstanding, OnDiscovery;
  }

  //
  // What a waiter finds
  //

  /** A discovery that succeeded, or got as far as its second phase, has had an Engine named for its endpoint. */
  ghost predicate NamedOnce(w: World, start: State, trace: seq<Event>, ops: Ops, did: nat)
    requires Linked(start)
  {
    did < |ops.ds| && LastWrite(w, start, trace, ops.ds[did].target.endpoint) != Untouched
  }

  ghost predicate Traced(w: World, start: State, trace: seq<Event>, s: State)
    requires Linked(start)
  {
    && AllWaitThere(s.ops)
    && (forall d :: 0 <= d < |s.ops.ds| && s.ops.ds[d].stage == Finished(NoError) ==>
          NamedOnce(w, start, trace, s.ops, d))
    && (forall x :: 0 <= x < |s.net.xs| && s.net.xs[x].owner.ForSync? ==>
          NamedOnce(w, start, trace, s.ops, s.net.xs[x].owner.did))
  }

  lemma StepWaitsThere(s: State, s': State, named: Option<nat>)
    requires AllWaitThere(s.ops) && OpsGrow(s.ops, s'.ops) && Proceeds(s, s', named)
    ensures AllWaitThere(s'.ops)
  {
    forall r | 0 <= r < |s'.ops.rs| ensures WaitsThere(s'.ops, s'.ops.rs[r]) {
      assert ParksThere(s.ops, s'.ops, r);
      if r < |s.ops.rs| { assert WaitsThere(s.ops, s.ops.rs[r]); }
    }
  }

  /** Naming stays on record, whatever follows. */
  lemma NamedStays(w: World, start: State, trace: seq<Event>, e: Event, ops: Ops, ops': Ops, did: nat)
    requires Linked(start) && NamedOnce(w, start, trace, ops, did) && OpsGrow(ops, ops')
    ensures NamedOnce(w, start, trace + [e], ops', did)
  {
    hide Run, WriteAt;
    assert (trace + [e])[..|trace|] == trace;
  }

  /** The discovery named in a step is on record after it. */
  lemma NamedNow(w: World, start: State, trace: seq<Event>, e: Event, did: nat)
    requires Linked(start)
    requires var s := Run(w, start, trace); Traced(w, start, trace, s) && NamedIn(s, e) == Some(did)
    ensures NamedOnce(w, start, trace + [e], Step(w, Run(w, start, trace), e).ops, did)
  {
    hide Run, Step, Answering;
    var s := Run(w, start, trace);
    StepFollows(w, s, e);
    StepLearns(w, s, e);
    var x := Answering(s, e).value;
    assert (trace + [e])[..|trace|] == trace;
    if s.net.xs[x].owner.ForSync? {
      NamedStays(w, start, trace, e, s.ops, Step(w, s, e).ops, did);
    } else {
      assert WriteAt(s, e, s.ops.ds[did].target.endpoint).Named?;
    }
  }

  lemma StepTraced(w: World, start: State, trace: seq<Event>, e: Event)
    requires Linked(start)
    requires var s := Run(w, start, trace); Traced(w, start, trace, s) && InFlight(s.ops)
    ensures Traced(w, start, trace + [e], Step(w, Run(w, start, trace), e))
  {
    hide Run, Step, NamedOnce, AllWaitThere, InFlight, Linked;
    var s := Run(w, start, trace);
    var s', named := Step(w, s, e), NamedIn(s, e);
    StepProceeds(w, s, e);
    StepFollows(w, s, e);
    StepWaitsThere(s, s', named);
    if named.Some? { NamedNow(w, start, trace, e, named.value); }
    forall d | 0 <= d < |s'.ops.ds| && s'.ops.ds[d].stage == Finished(NoError)
      ensures NamedOnce(w, start, trace + [e], s'.ops, d)
    {
      assert FinishesAs(s.ops, s'.ops, d, named);
      if named != Some(d) { NamedStays(w, start, trace, e, s.ops, s'.ops, d); }
    }
    forall x | 0 <= x < |s'.net.xs| && s'.net.xs[x].owner.ForSync?
      ensures NamedOnce(w, start, trace + [e], s'.ops, s'.net.xs[x].owner.did)
    {
      if x < |s.net.xs| {
        StepHears(w, s, e, x);
        NamedStays(w, start, trace, e, s.ops, s'.ops, s'.net.xs[x].owner.did);
      }
    }
  }

  lemma {:induction false} RunTraced(w: World, now: Instant, first: int32, trace: seq<Event>)
    ensures Traced(w, Initial(now, first), trace, Run(w, Initial(now, first), trace))
    decreases |trace|
  {
    hide Step, Traced, Ordered, LastWrite;
    if trace == [] {
      NothingTraced(w, now, first);
    } else {
      var before, e := trace[..|trace| - 1], trace[|trace| - 1];
      RunTraced(w, now, first, before);
      RunOrdered(w, now, first, before);
      OrderedInFlight(Run(w, Initial(now, first), before).net, Run(w, Initial(now, first), before).ops);
      StepTraced(w, Initial(now, first), before, e);
      assert trace == before + [e];
    }
  }

  lemma NothingTraced(w: World, now: Instant, first: int32)
    ensures Traced(w, Initial(now, first), [], Run(w, Initial(now, first), []))
  {
  }

  /**
   * In every run, a waiter whose discovery succeeded finds no Engine exactly when the last thing done to its endpoint's
   * entry was to forget it; and then it ends in UnknownEngineId.
   */
  lemma WaiterFindsNoneIffForgot(w: World, now: Instant, first: int32, trace: seq<Event>, rid: nat)
    requires var s := Run(w, Initial(now, first), trace);
             && rid < |s.ops.rs| && s.ops.rs[rid].place.Parked? && s.ops.rs[rid].place.did < |s.ops.ds|
             && s.ops.ds[s.ops.rs[rid].place.did].stage == Finished(NoError)
    ensures var s := Run(w, Initial(now, first), trace);
            var ep := s.ops.rs[rid].target.endpoint;
            && (EngineFor(s.cache, ep).None? <==> LastWrite(w, Initial(now, first), trace, ep) == Forgot)
            && (EngineFor(s.cache, ep).None? && s.ops.rs[rid].cancel == NotCancelled && !s.stopping ==>
                  var s' := Run(w, Initial(now, first), trace + [WaiterRuns(rid)]);
                  rid < |s'.ops.rs| && s'.ops.rs[rid].place == Done(Failed(Fault(UnknownEngineId))))
  {
    hide Run, Step, LastWrite;
    RunTraced(w, now, first, trace);
    var s := Run(w, Initial(now, first), trace);
    var ep := s.ops.rs[rid].target.endpoint;
    assert WaitsThere(s.ops, s.ops.rs[rid]);
    assert NamedOnce(w, Initial(now, first), trace, s.ops, s.ops.rs[rid].place.did);
    IndexIsLastWrite(w, now, first, trace, ep);
    RunSnoc(w, Initial(now, first), trace, WaiterRuns(rid));
    if EngineFor(s.cache, ep).None? && s.ops.rs[rid].cancel == NotCancelled && !s.stopping {
      assert ep !in s.cache.engineAt;
      WaiterFindsNothing(w, s, rid);
    }
  }
}
