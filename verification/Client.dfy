/** The Client itself: its fields, and the code that changes them between two suspensions. */
module Clients {
  import opened Octets
  import opened Errors
  import opened Pdus
  import opened Usm
  import opened V3Messages
  import opened ClientModel
  import opened ClientSteps
  import opened ClientRuns

  /** Overwriting an entry with itself. */
  lemma Unchanged<T>(s: seq<T>, i: nat)
    requires i < |s|
    ensures s[i := s[i]] == s
  {
  }

  class Client {
    const w: World
    var now: Instant
    var stopping: bool
    var cleaned: bool
    var nextId: int32
    var issued: nat
    var xs: seq<Exchange>
    var table: map<int32, nat>
    var engines: map<octets, EngineState>
    var engineAt: map<Endpoint, octets>
    var rs: seq<Request>
    var ds: seq<Discovery>
    var discovering: map<Endpoint, nat>

    function NetView(): Net
      reads this
    {
      Net(nextId, issued, xs, table)
    }

    function CacheView(): Cache
      reads this
    {
      Cache(engines, engineAt)
    }

    function OpsView(): Ops
      reads this
    {
      Ops(rs, ds, discovering)
    }

    function View(): State
      reads this
    {
      State(now, stopping, cleaned, NetView(), CacheView(), OpsView())
    }

    constructor (w: World, now: Instant, first: int32)
      ensures View() == Initial(now, first) && this.w == w
    {
      this.w, this.now, stopping, cleaned, nextId, issued := w, now, false, false, first, 0;
      xs, table, engines, engineAt, rs, ds, discovering := [], map[], map[], map[], [], [], map[];
    }

    /** From the top of the range back to one. */
    method NextId() returns (id: int32)
      modifies this`nextId, this`issued
      ensures id == old(nextId) && nextId == Next(id) && issued == old(issued) + 1
    {
      id := nextId;
      nextId := if nextId == MAX_INT32 then 1 else nextId + 1;
      issued := issued + 1;
    }

    //
    // Replies
    //

    method Drop(x: nat, reason: Errc)
      requires x < |xs|
      modifies this`xs
      ensures xs == old(xs)[x := old(xs)[x].(pending := old(xs)[x].pending.(dropReason := Some(reason)))]
    {
      xs := xs[x := xs[x].(pending := xs[x].pending.(dropReason := Some(reason)))];
    }

    method DeliverV2c(from: Endpoint, msg: V2cMessage)
      requires TableKnown(NetView())
      modifies this`xs
      ensures NetView() == ClientSteps.DeliverV2c(old(NetView()), from, msg)
    {
      if msg.pdu.kind != Response { return; }
      if msg.pdu.requestId !in table || xs[table[msg.pdu.requestId]].pending.terms.v3 { return; }
      var x := table[msg.pdu.requestId];
      if from != xs[x].pending.terms.from || msg.community != xs[x].pending.terms.community { return; }
      xs := xs[x := xs[x].(pending := xs[x].pending.(response := msg.pdu, answered := true))];
      xs := xs[x := Wake(xs[x])];
    }

    /** What is left to check once the message can be read. */
    method ConsiderOpened(x: nat, from: Endpoint, security: UsmParameters, authenticated: bool, pdu: Pdu)
      requires x < |xs|
      modifies this`xs
      ensures var t := old(xs)[x].pending.terms;
              xs == old(xs)[x := Answer(old(xs)[x], security,
                                        JudgeOpened(t, Timely(CacheView(), now, from, security), authenticated,
                                                    security, pdu))]
    {
      hide Timely, ReportsNotInTimeWindows;
      var t := xs[x].pending.terms;
      Unchanged(xs, x);
      if t.timeSyncPhase && !authenticated && ReportsNotInTimeWindows(pdu) {
        Drop(x, NotInTimeWindow);
        return;
      }
      if pdu.kind != Report {
        if t.engineId != [] && security.engineId != t.engineId { return; }
        if pdu.requestId != t.id { return; }
        if pdu.kind != Response { return; }
        if t.authRequired && !Timely(CacheView(), now, from, security) {
          Drop(x, NotInTimeWindow);
          return;
        }
      }
      var p := xs[x].pending.(security := security);
      p := p.(response := pdu);
      p := p.(replyAuthenticated := authenticated);
      p := p.(answered := true);
      xs := xs[x := Wake(xs[x].(pending := p))];
    }

    method DeliverV3(datagram: octets, from: Endpoint, msg: V3Message)
      requires TableKnown(NetView())
      modifies this`xs
      ensures NetView() == ClientSteps.DeliverV3(w, old(View()), datagram, from, msg)
    {
      hide Timely, TableKnown, JudgeOpened;
      if msg.header.msgId !in table { return; }
      var x := table[msg.header.msgId];
      assert x < |xs| by { TableLeads(NetView(), msg.header.msgId); }
      Unchanged(xs, x);
      var t := xs[x].pending.terms;
      if !t.v3 { return; }
      if from != t.from { return; }
      var encrypted := IsEncrypted(msg.header.level);
      var exemptFromAuth := !encrypted && !IsAuthenticated(msg.header.level) && msg.scoped.pdu.kind == Report;
      var authenticated := false;
      if t.authRequired && !exemptFromAuth {
        if !w.verifies(datagram, msg, t.authProtocol, t.authKey) {
          Drop(x, AuthFailed);
          return;
        }
        authenticated := true;
      }
      var pdu := msg.scoped.pdu;
      if encrypted {
        var opening := w.decrypt(msg, t.privProtocol, t.privKey);
        if opening.Err? {
          Drop(x, DecryptionFailed);
          return;
        }
        pdu := opening.value.pdu;
      }
      ConsiderOpened(x, from, msg.security, authenticated, pdu);
    }

    /** One turn of the receive loop. */
    method Receive(datagram: octets, from: Endpoint)
      requires TableKnown(NetView())
      modifies this`xs
      ensures NetView() == Deliver(w, old(View()), datagram, from)
    {
      hide ClientSteps.DeliverV2c, ClientSteps.DeliverV3, TableKnown;
      match w.arrival(datagram)
      case NotOurs =>
      case V2cArrival(msg) => DeliverV2c(from, msg);
      case V3Arrival(msg) => DeliverV3(datagram, from, msg);
    }

    //
    // The Engine cache
    //

    method ObserveEngineTime(from: Endpoint, security: UsmParameters)
      modifies this`engines
      ensures CacheView() == ClientSteps.ObserveEngineTime(old(CacheView()), now, from, security)
    {
      var id := EngineFor(CacheView(), from);
      if id.None? { return; }
      var engine := engines[id.value];
      assert engines[id.value := engine] == engines;
      if security.boots == BOOTS_CEILING { return; }
      if security.boots < engine.boots { return; }
      if security.boots == engine.boots && security.time < engine.time { return; }
      engines := engines[id.value := engine.(boots := security.boots, time := security.time, at := now,
                                             timeSynced := true)];
    }

    method HandleReport(from: Endpoint, p: Pending, mayRetry: bool) returns (failure: Option<Errc>)
      modifies this`engines, this`engineAt
      ensures failure == (if mayRetry && Retryable(UsmStatsCounter(p.response)) then None
                          else Some(ReportError(UsmStatsCounter(p.response))))
      ensures CacheView() == if failure.None? then Resynchronise(old(CacheView()), now, from, p) else old(CacheView())
    {
      hide ReportError, UsmStatsCounter, ClientSteps.ObserveEngineTime, EngineFor;
      var counter := UsmStatsCounter(p.response);
      if !mayRetry || counter.None? { return Some(ReportError(counter)); }
      if counter.value != NOT_IN_TIME_WINDOWS && counter.value != UNKNOWN_ENGINE_IDS {
        return Some(ReportError(counter));
      }
      if !p.replyAuthenticated || counter.value == UNKNOWN_ENGINE_IDS {
        engineAt := engineAt - {from};
        return None;
      }
      var id := EngineFor(CacheView(), from);
      if id.Some? && engines[id.value].timeSynced && p.security.boots < engines[id.value].boots {
        engines := engines[id.value := engines[id.value].(timeSynced := false)];
        return None;
      }
      ObserveEngineTime(from, p.security);
      return None;
    }

    //
    // How operations end
    //

    method FailOwner(o: Owner, ec: ErrorCode)
      requires OwnerKnown(o, OpsView())
      modifies this`rs, this`ds, this`discovering
      ensures OpsView() == ClientSteps.FailOwner(old(OpsView()), o, ec)
    {
      match o
      case ForV2c(rid) => FinishRequest(rid, Failed(ec));
      case ForData(rid, _) => FinishRequest(rid, Failed(ec));
      case ForIdentify(did) => FinishDiscovery(did, ec);
      case ForSync(did) => FinishDiscovery(did, ec);
    }

    method FinishRequest(rid: nat, outcome: Outcome)
      requires rid < |rs|
      modifies this`rs
      ensures OpsView() == ClientSteps.FinishRequest(old(OpsView()), rid, outcome)
    {
      rs := rs[rid := rs[rid].(place := Done(outcome))];
    }

    /** Its entry goes first, then its waiters may run. */
    method FinishDiscovery(did: nat, ec: ErrorCode)
      requires did < |ds|
      modifies this`ds, this`discovering
      ensures OpsView() == ClientSteps.FinishDiscovery(old(OpsView()), did, ec)
    {
      discovering := discovering - {ds[did].target.endpoint};
      ds := ds[did := ds[did].(stage := Finished(ec))];
    }

    //
    // Exchanges
    //

    /** As far as the first send. */
    method Begin(o: Owner, target: Target, terms: Terms, out: Outgoing, ticket: nat)
      requires OwnerKnown(o, OpsView())
      modifies this`xs, this`table, this`rs, this`ds, this`discovering
      ensures View() == ClientSteps.Begin(w, old(View()), o, target, terms, out, ticket)
    {
      hide ClientSteps.FailOwner, OwnerKnown, Classify, CancelOf, Fresh;
      if stopping {
        FailOwner(o, Fault(ClientStopped));
        return;
      }
      var opening := w.openError(ticket);
      if opening.Some? {
        FailOwner(o, SystemError(opening.value));
        return;
      }
      if target.retries < 0 {
        table := table - {terms.id};
        FailOwner(o, Classify(false, CancelOf(OpsView(), o), Unanswered(terms), None));
        return;
      }
      var e := Fresh(o, target, terms, out, now, ticket);
      table := Emplaced(table, e.pending.terms.id, |xs|);
      xs := xs + [e];
    }

    /** Takes the identifier the terms name, encodes, and begins. */
    method Launch(o: Owner, target: Target, terms: Terms, out: Outgoing)
      requires OwnerKnown(o, OpsView())
      modifies this
      ensures View() == ClientSteps.Launch(w, old(View()), o, target, terms, out)
    {
      hide ClientSteps.FailOwner, OwnerKnown, ClientSteps.Begin, Next;
      var ticket := issued;
      var id := NextId();
      var refused := w.encode(out);
      if refused.Some? {
        FailOwner(o, Fault(refused.value));
        return;
      }
      Begin(o, target, terms, out, ticket);
    }

    /** The first half of a round: the Engine, its keys, and the message. */
    method Ask(rid: nat)
      requires rid < |rs| && rs[rid].auth.ByUser?
      modifies this
      ensures View() == ClientSteps.Ask(w, old(View()), rid)
    {
      hide ClientSteps.FinishRequest, ClientSteps.Launch, EngineFor, KeysFor, DataTerms, DataMessage;
      var creds, ep := rs[rid].auth.creds, rs[rid].target.endpoint;
      var known := EngineFor(CacheView(), ep);
      if known.None? {
        FinishRequest(rid, Failed(Fault(UnknownEngineId)));
        return;
      }
      var engine := engines[known.value];
      var keys := KeysFor(w, creds, engine.engineId);
      if keys.Err? {
        FinishRequest(rid, Failed(Fault(keys.error)));
        return;
      }
      var (key, privKey) := keys.value;
      var r := rs[rid];
      rs := rs[rid := r.(place := Exchanging)];
      Launch(ForData(rid, r.round), r.target, DataTerms(nextId, ep, engine, creds, key, privKey),
             DataMessage(nextId, now, engine, creds, r.pdu, key, privKey));
    }

    method EnsureEngine(rid: nat)
      requires rid < |rs| && rs[rid].auth.ByUser?
      modifies this
      ensures View() == ClientSteps.EnsureEngine(w, old(View()), rid)
    {
      hide ClientSteps.Ask, EngineReady;
      var r := rs[rid];
      var ep := r.target.endpoint;
      if EngineReady(CacheView(), ep, r.auth.creds.level) {
        Ask(rid);
        return;
      }
      var did;
      if ep in discovering {
        did := discovering[ep];
      } else {
        did := |ds|;
        ds := ds + [Discovery(r.target, r.auth.creds, Spawned)];
        discovering := discovering[ep := did];
      }
      rs := rs[rid := r.(place := Parked(did), woken := false)];
    }

    method StartRequest(target: Target, auth: Auth, pdu: Pdu)
      modifies this
      ensures View() == ClientSteps.StartRequest(w, old(View()), target, auth, pdu)
    {
      hide ClientSteps.FinishRequest, ClientSteps.Launch, ClientSteps.EnsureEngine;
      var rid := |rs|;
      rs := rs + [Request(target, auth, pdu, 0, NotCancelled, false, Exchanging)];
      if stopping {
        FinishRequest(rid, Failed(Fault(ClientStopped)));
        return;
      }
      match auth
      case ByCommunity(community) =>
        Launch(ForV2c(rid), target, V2cTerms(nextId, target.endpoint, community),
               V2cOut(V2cMessage(community, pdu.(requestId := nextId))));
      case ByUser(creds) =>
        if IsEncrypted(creds.level) && creds.privProtocol == NoPriv {
          FinishRequest(rid, Failed(Fault(UnsupportedPrivProtocol)));
          return;
        }
        if IsAuthenticated(creds.level) && creds.authProtocol == NoAuth {
          FinishRequest(rid, Failed(Fault(UnsupportedAuthProtocol)));
          return;
        }
        EnsureEngine(rid);
    }

    //
    // Discovery
    //

    method Identify(did: nat)
      requires did < |ds|
      modifies this
      ensures View() == ClientSteps.Identify(w, old(View()), did)
    {
      hide ClientSteps.Launch, Probe, IdentifyTerms;
      var d := ds[did];
      ds := ds[did := d.(stage := Discovering)];
      Launch(ForIdentify(did), d.target, IdentifyTerms(nextId, d.target.endpoint),
             Probe(nextId, NoAuthNoPriv, NO_SECURITY, NoAuth, [], NoPriv, []));
    }

    method Identified(did: nat, security: UsmParameters)
      requires did < |ds|
      modifies this
      ensures View() == ClientSteps.Identified(w, old(View()), did, security)
    {
      hide ClientSteps.Launch, ClientSteps.FinishDiscovery, Probe, SyncTerms, KeysFor;
      if security.engineId == [] {
        FinishDiscovery(did, Fault(UnknownEngineId));
        return;
      }
      var d := ds[did];
      RecordIdentity(d.target.endpoint, security);
      if !IsAuthenticated(d.creds.level) || engines[security.engineId].timeSynced {
        FinishDiscovery(did, NoError);
        return;
      }
      var keys := KeysFor(w, d.creds, security.engineId);
      if keys.Err? {
        FinishDiscovery(did, Fault(keys.error));
        return;
      }
      var (key, privKey) := keys.value;
      Launch(ForSync(did), d.target, SyncTerms(nextId, d.target.endpoint, security.engineId, d.creds, key, privKey),
             Probe(nextId, d.creds.level, UsmParameters(security.engineId, 0, 0, d.creds.userName, [], []),
                   d.creds.authProtocol, key, d.creds.privProtocol, privKey));
    }

    method RecordIdentity(ep: Endpoint, security: UsmParameters)
      modifies this`engines, this`engineAt
      ensures CacheView() == ClientSteps.RecordIdentity(old(CacheView()), now, ep, security)
    {
      var id := security.engineId;
      engineAt := engineAt[ep := id];
      if id !in engines { engines := engines[id := NO_ENGINE]; }
      engines := engines[id := engines[id].(engineId := id)];
      if !engines[id].timeSynced {
        engines := engines[id := engines[id].(boots := security.boots, time := security.time, at := now)];
      }
    }

    method Synchronised(did: nat, p: Pending)
      requires did < |ds|
      modifies this
      ensures View() == ClientSteps.Synchronised(old(View()), did, p)
    {
      hide ClientSteps.FinishDiscovery, ReportError, UsmStatsCounter;
      if !p.replyAuthenticated {
        FinishDiscovery(did, Fault(ReportError(UsmStatsCounter(p.response))));
        return;
      }
      if p.security.boots == BOOTS_CEILING {
        FinishDiscovery(did, Fault(NotInTimeWindow));
        return;
      }
      var id := p.terms.engineId;
      if id !in engines { engines := engines[id := NO_ENGINE]; }
      engines := engines[id := engines[id].(boots := p.security.boots, time := p.security.time, at := now,
                                            timeSynced := true)];
      FinishDiscovery(did, NoError);
    }

    //
    // Continuing after an exchange
    //

    method Answered(rid: nat, p: Pending)
      requires rid < |rs| && rs[rid].auth.ByUser?
      modifies this
      ensures View() == if p.response.kind == Report then Reported(w, old(View()), rid, p)
          else Responded(old(View()), rid, p)
    {
      hide ClientSteps.FinishRequest, ClientSteps.EnsureEngine, ReportError, UsmStatsCounter, Resynchronise,
        ClientSteps.ObserveEngineTime;
      var ep := rs[rid].target.endpoint;
      if p.response.kind == Report {
        var failure := HandleReport(ep, p, rs[rid].round == 0);
        if failure.Some? {
          FinishRequest(rid, Failed(Fault(failure.value)));
          return;
        }
        rs := rs[rid := rs[rid].(round := rs[rid].round + 1)];
        EnsureEngine(rid);
        return;
      }
      if p.replyAuthenticated { ObserveEngineTime(ep, p.security); }
      FinishRequest(rid, ToResult(p.response));
    }

    method Continue(o: Owner, p: Pending)
      requires OwnerKnown(o, OpsView())
      modifies this
      ensures View() == Succeed(w, old(View()), o, p)
    {
      hide ClientSteps.FinishRequest, ClientSteps.Identified, ClientSteps.Synchronised, Reported, Responded;
      match o
      case ForV2c(rid) => FinishRequest(rid, ToResult(p.response));
      case ForData(rid, _) => Answered(rid, p);
      case ForIdentify(did) => Identified(did, p.security);
      case ForSync(did) => Synchronised(did, p);
    }

    /** The end of the retransmission loop, and what the owner does next. */
    method Complete(x: nat, sendError: Option<int>)
      requires x < |xs| && OwnersKnown(NetView(), OpsView())
      modifies this
      ensures View() == ClientSteps.Complete(w, old(View()), x, sendError)
    {
      hide Classify, CancelOf, ClientSteps.FailOwner, Succeed, OwnersKnown, OwnerKnown;
      var e := xs[x];
      assert OwnerKnown(e.owner, OpsView()) by { OwnerLeads(NetView(), OpsView(), x); }
      var outcome := Classify(stopping, CancelOf(OpsView(), e.owner), e.pending, sendError);
      xs := xs[x := Over(e, outcome, now)];
      table := table - {e.pending.terms.id};
      if outcome != NoError {
        FailOwner(e.owner, outcome);
      } else {
        Continue(e.owner, e.pending);
      }
    }

    /** A send has completed. */
    method AfterSending(x: nat, error: Option<int>)
      requires x < |xs| && OwnersKnown(NetView(), OpsView())
      modifies this
      ensures View() == Moved(w, old(View()), x, AfterSend(old(xs)[x], old(now), old(stopping), error), error)
    {
      hide ClientSteps.Complete, OwnersKnown;
      if error.Some? || stopping {
        Complete(x, error);
        return;
      }
      xs := xs[x := xs[x].(phase := Waiting(now + xs[x].timeout), woken := false, armed := now)];
    }

    /** A wait is over, by expiry or by being woken. */
    method AfterWaiting(x: nat)
      requires x < |xs| && OwnersKnown(NetView(), OpsView()) && (xs[x].phase.Waiting? || xs[x].phase.Draining?)
      modifies this
      ensures OwnerKnown(old(xs)[x].owner, old(OpsView()))
      ensures View() == Moved(w, old(View()), x,
                              AfterWait(old(xs)[x], old(now), old(stopping),
                                        CancelOf(old(OpsView()), old(xs)[x].owner)), None)
    {
      hide ClientSteps.Complete, OwnersKnown, CancelOf;
      var e := xs[x];
      assert OwnerKnown(e.owner, OpsView()) by { OwnerLeads(NetView(), OpsView(), x); }
      var cancel := CancelOf(OpsView(), e.owner);
      if e.phase.Draining? || e.pending.answered || stopping || cancel == Terminal {
        Complete(x, None);
        return;
      }
      if cancel == Total {
        xs := xs[x := e.(phase := Draining(e.phase.deadline), woken := false)];
        return;
      }
      if e.attempt < e.retries {
        xs := xs[x := Waited(e, now).(phase := Sending, attempt := e.attempt + 1, sends := e.sends + 1,
                                      woken := false)];
        return;
      }
      Complete(x, None);
    }

    //
    // Cancellation, waiters and Stopping
    //

    method Cancel(rid: nat, terminal: bool)
      requires rid < |rs|
      modifies this`rs, this`xs
      ensures View() == ClientSteps.Cancel(old(View()), rid, terminal)
    {
      var r := rs[rid];
      rs := rs[rid := r.(cancel := Signalled(r.cancel, terminal), woken := r.woken || r.place.Parked?)];
      var x := 0;
      while x < |xs|
        modifies this`xs
        invariant 0 <= x <= |xs| == |old(xs)|
        invariant forall y :: 0 <= y < |xs| ==> xs[y] == if y < x then CancelWait(old(xs)[y], rid) else old(xs)[y]
      {
        xs := xs[x := CancelWait(xs[x], rid)];
        x := x + 1;
      }
      assert xs == CancelWaits(old(NetView()), rid).xs;
    }

    method ResumeWaiter(rid: nat)
      requires OpsKnown(OpsView()) && rid < |rs| && rs[rid].place.Parked?
      modifies this
      ensures View() == ClientSteps.ResumeWaiter(w, old(View()), rid)
    {
      hide ClientSteps.FinishRequest, ClientSteps.Ask;
      var stage := ds[rs[rid].place.did].stage;
      if stopping {
        FinishRequest(rid, Failed(Fault(ClientStopped)));
        return;
      }
      if rs[rid].cancel != NotCancelled || !stage.Finished? {
        FinishRequest(rid, Failed(OperationAborted));
        return;
      }
      if stage.ec != NoError {
        FinishRequest(rid, Failed(stage.ec));
        return;
      }
      Ask(rid);
    }

    /** Wakes every wait in the table. */
    method WakeExchanges()
      requires TableKnown(NetView())
      modifies this`xs
      ensures NetView() == WakeListed(old(NetView()))
    {
      var left := table.Keys;
      while left != {}
        invariant left <= table.Keys && |xs| == |old(xs)|
        invariant forall x :: 0 <= x < |xs| ==>
          xs[x] == if exists id :: id in table.Keys - left && table[id] == x then Wake(old(xs)[x]) else old(xs)[x]
        decreases left
      {
        var id :| id in left;
        ghost var before := left;
        xs := xs[table[id] := Wake(xs[table[id]])];
        left := left - {id};
        assert table.Keys - left == table.Keys - before + {id};
      }
      assert table.Keys - left == table.Keys;
    }

    /** Wakes every request parked on a discovery in flight. */
    method WakeParked()
      modifies this`rs
      ensures OpsView() == WakeWaiters(old(OpsView()))
    {
      var r := 0;
      while r < |rs|
        invariant 0 <= r <= |rs| == |old(rs)|
        invariant forall y :: 0 <= y < |rs| ==>
          rs[y] == if y < r && OnDiscovery(old(OpsView()), old(rs)[y]) then old(rs)[y].(woken := true) else old(rs)[y]
      {
        if rs[r].place.Parked? && exists ep :: ep in discovering && discovering[ep] == rs[r].place.did {
          rs := rs[r := rs[r].(woken := true)];
        }
        r := r + 1;
      }
    }

    method FinishStopping()
      requires TableKnown(NetView())
      modifies this`cleaned, this`xs, this`rs
      ensures View() == ClientSteps.FinishStopping(old(View()))
    {
      hide WakeListed, WakeWaiters, TableKnown;
      cleaned := true;
      WakeExchanges();
      WakeParked();
    }

    /** Whatever happens next. */
    method Handle(e: Event)
      requires Linked(View())
      modifies this
      ensures View() == Step(w, old(View()), e)
    {
      hide Moved, Deliver, ClientSteps.StartRequest, ClientSteps.Identify, ClientSteps.Cancel, ClientSteps.ResumeWaiter,
        ClientSteps.FinishStopping, AfterSend, AfterWait, OwnersKnown, TableKnown, OpsKnown, Due, CancelOf;
      if !Enabled(View(), e) { return; }
      match e
      case Tick(ms) => now := now + ms;
      case Call(target, auth, pdu) => StartRequest(target, auth, pdu);
      case DiscoveryRuns(did) => Identify(did);
      case Datagram(bytes, from) => Receive(bytes, from);
      case Sent(x, error) => AfterSending(x, error);
      case Fires(x) =>
        DueWaits(xs[x], now);
        AfterWaiting(x);
      case Signal(rid, terminal) => Cancel(rid, terminal);
      case WaiterRuns(rid) => ResumeWaiter(rid);
      case Stop => stopping := true;
      case StopOnStrand => FinishStopping();
    }
  }

  /** The strand: events one after another. So what holds of every run holds of every Client. */
  method Strand(w: World, now: Instant, first: int32, trace: seq<Event>) returns (c: Client)
    ensures c.w == w && c.View() == Run(w, Initial(now, first), trace)
  {
    hide Step;
    c := new Client(w, now, first);
    for n := 0 to |trace|
      invariant c.w == w && c.View() == Run(w, Initial(now, first), trace[..n])
    {
      c.Handle(trace[n]);
      RunSnoc(w, Initial(now, first), trace[..n], trace[n]);
      assert trace[..n] + [trace[n]] == trace[..n + 1];
    }
    assert trace[..|trace|] == trace;
  }

  lemma DueWaits(e: Exchange, now: Instant)
    requires Due(e, now)
    ensures e.phase.Waiting? || e.phase.Draining?
  {
  }

  lemma TableLeads(net: Net, id: int32)
    requires TableKnown(net) && id in net.table
    ensures net.table[id] < |net.xs|
  {
  }

  lemma OwnerLeads(net: Net, ops: Ops, x: nat)
    requires OwnersKnown(net, ops) && x < |net.xs|
    ensures OwnerKnown(net.xs[x].owner, ops)
  {
  }
}
