/** Stopping: nothing begins once it has, everything outstanding ends with it, and nothing is left waiting. */
module ClientStopping {
  import opened Octets
  import opened Errors
  import opened Pdus
  import opened ClientModel
  import opened ClientSteps
  import opened ClientFrames
  import opened ClientRuns
  import opened ClientExchanges
  import opened ClientIds
  import opened ClientOps

  predicate StoppedWith(ec: ErrorCode) {
    ec == OperationAborted || ec == Fault(ClientStopped)
  }

  /** No send has begun in between, and if the exchange ended in between it ended because of Stopping. */
  predicate OnlyStops(e: Exchange, e': Exchange) {
    && e'.sends == e.sends
    && (e.phase.Ended? ==> e'.phase == e.phase)
    && (!e.phase.Ended? && e'.phase.Ended? ==> StoppedWith(e'.phase.outcome))
  }

  /** A request that completed in between completed because of Stopping. */
  predicate OnlyStopped(r: Request, r': Request) {
    && (r.place.Done? ==> r'.place == r.place)
    && (!r.place.Done? && r'.place.Done? ==> StoppedWith(r'.place.outcome.ec))
  }

  predicate Winds(s: State, s': State) {
    && s'.stopping
    && |s'.net.xs| == |s.net.xs| && (forall x :: 0 <= x < |s.net.xs| ==> OnlyStops(s.net.xs[x], s'.net.xs[x]))
    && |s'.ops.rs| >= |s.ops.rs| && (forall r :: 0 <= r < |s.ops.rs| ==> OnlyStopped(s.ops.rs[r], s'.ops.rs[r]))
    && (forall r :: |s.ops.rs| <= r < |s'.ops.rs| ==>
          s'.ops.rs[r].place.Done? && StoppedWith(s'.ops.rs[r].place.outcome.ec))
  }

  /** A reply in hand does not count once Stopping has begun. */
  lemma StoppingOutranksReply(cancel: Cancellation, p: Pending, error: Option<int>)
    ensures StoppedWith(Classify(true, cancel, p, error))
  {
  }

  lemma WindsChain(a: State, b: State, c: State)
    requires Winds(a, b) && Winds(b, c)
    ensures Winds(a, c)
  {
    forall x | 0 <= x < |a.net.xs| ensures OnlyStops(a.net.xs[x], c.net.xs[x]) {
      assert OnlyStops(a.net.xs[x], b.net.xs[x]) && OnlyStops(b.net.xs[x], c.net.xs[x]);
    }
    forall r | 0 <= r < |c.ops.rs|
      ensures if r < |a.ops.rs| then OnlyStopped(a.ops.rs[r], c.ops.rs[r])
              else c.ops.rs[r].place.Done? && StoppedWith(c.ops.rs[r].place.outcome.ec)
    {
      if r < |b.ops.rs| { assert OnlyStopped(b.ops.rs[r], c.ops.rs[r]); }
      if r < |a.ops.rs| { assert OnlyStopped(a.ops.rs[r], b.ops.rs[r]); }
    }
  }

  lemma CompleteWinds(w: World, s: State, x: nat, error: Option<int>)
    requires Linked(s) && s.stopping && Ordered(s.net, s.ops) && x < |s.net.xs| && !s.net.xs[x].phase.Ended?
    ensures Winds(s, Complete(w, s, x, error))
  {
    hide OwnersKnown, TableKnown, OpsKnown, Classify, Distinct, PhasesInTurn, InFlight, TwoRounds, Succeed;
    var e := s.net.xs[x];
    var cancel := CancelFor(s, x);
    StoppingOutranksReply(cancel, e.pending, error);
    assert Serves(s.ops, e);
  }

  lemma MovedWinds(w: World, s: State, x: nat, m: Move, error: Option<int>)
    requires Linked(s) && s.stopping && Ordered(s.net, s.ops) && x < |s.net.xs| && !s.net.xs[x].phase.Ended?
    requires m.Leave?
    ensures Winds(s, Moved(w, s, x, m, error))
  {
    hide Complete, Winds, Linked, Ordered;
    CompleteWinds(w, s, x, error);
  }

  lemma DatagramWinds(w: World, s: State, bytes: octets, from: Endpoint)
    requires Linked(s) && s.stopping
    ensures Winds(s, s.(net := Deliver(w, s, bytes, from)))
  {
    hide OwnersKnown, OpsKnown, Judge, Timely, Quotes, Answer, AnswerV2c;
    var net := Deliver(w, s, bytes, from);
    match w.arrival(bytes)
    case NotOurs =>
    case V2cArrival(msg) =>
      if msg.pdu.requestId in s.net.table { V2cAnswerKeeps(s.net.xs[s.net.table[msg.pdu.requestId]], msg.pdu); }
    case V3Arrival(msg) =>
      if msg.header.msgId in s.net.table {
        var x := s.net.table[msg.header.msgId];
        AnswerKeeps(s.net.xs[x], msg.security,
                    Judge(w, s.net.xs[x].pending.terms, Timely(s.cache, s.now, from, msg.security), bytes, from, msg));
      }
  }

  /** A discovery whose coroutine first runs after Stopping began sends nothing. */
  lemma IdentifyWinds(w: World, s: State, did: nat)
    requires s.stopping && did < |s.ops.ds|
    ensures Winds(s, Identify(w, s, did))
  {
  }

  lemma WaiterWinds(w: World, s: State, rid: nat)
    requires Linked(s) && s.stopping && rid < |s.ops.rs| && s.ops.rs[rid].place.Parked?
    ensures Winds(s, ResumeWaiter(w, s, rid))
  {
    hide Ask, OwnersKnown, TableKnown;
  }

  lemma CallWinds(w: World, s: State, target: Target, auth: Auth, pdu: Pdu)
    requires s.stopping
    ensures Winds(s, StartRequest(w, s, target, auth, pdu))
  {
    hide Launch, EnsureEngine;
  }

  lemma StepWinds(w: World, s: State, e: Event)
    requires Linked(s) && s.stopping && Ordered(s.net, s.ops)
    ensures Winds(s, Step(w, s, e))
  {
    hide Ordered, OwnersKnown, OpsKnown, TableKnown, StartRequest, Identify, Deliver, Moved, ResumeWaiter, CancelOf,
         Outstanding, OnDiscovery;
    if Enabled(s, e) {
      match e
      case Call(target, auth, pdu) => CallWinds(w, s, target, auth, pdu);
      case DiscoveryRuns(did) => IdentifyWinds(w, s, did);
      case Datagram(bytes, from) => DatagramWinds(w, s, bytes, from);
      case Sent(x, error) => MovedWinds(w, s, x, AfterSend(s.net.xs[x], s.now, s.stopping, error), error);
      case Fires(x) =>
        var cancel := FiringCancel(s, x);
        MovedWinds(w, s, x, AfterWait(s.net.xs[x], s.now, s.stopping, cancel), None);
      case WaiterRuns(rid) => WaiterWinds(w, s, rid);
      case _ =>
    }
  }

  lemma {:induction false} RunWinds(w: World, now: Instant, first: int32, trace: seq<Event>, more: seq<Event>)
    requires Run(w, Initial(now, first), trace).stopping
    ensures Winds(Run(w, Initial(now, first), trace), Run(w, Initial(now, first), trace + more))
    decreases |more|
  {
    hide Step, Winds, Ordered;
    var s := Run(w, Initial(now, first), trace);
    if more == [] {
      assert trace + more == trace;
      WindsSelf(s);
    } else {
      var n := |more| - 1;
      RunWinds(w, now, first, trace, more[..n]);
      var all := trace + more;
      assert all[..|all| - 1] == trace + more[..n];
      var m := Run(w, Initial(now, first), trace + more[..n]);
      RunOrdered(w, now, first, trace + more[..n]);
      assert m.stopping by { WindsStopping(s, m); }
      StepWinds(w, m, all[|all| - 1]);
      WindsChain(s, m, Run(w, Initial(now, first), all));
    }
  }

  lemma WindsSelf(s: State)
    requires s.stopping
    ensures Winds(s, s)
  {
  }

  lemma WindsStopping(s: State, s': State)
    requires Winds(s, s')
    ensures s'.stopping
  {
  }

  /**
   * Once Stopping has begun, in every continuation of every run: no send begins, no exchange is added, and every
   * exchange and request that ends from then on ends as cancelled or as ClientStopped, even with a reply in hand.
   */
  lemma NothingBeginsOnceStopping(w: World, now: Instant, first: int32, trace: seq<Event>, more: seq<Event>)
    requires Run(w, Initial(now, first), trace).stopping
    ensures var s, s' := Run(w, Initial(now, first), trace), Run(w, Initial(now, first), trace + more);
            && |s'.net.xs| == |s.net.xs|
            && (forall x :: 0 <= x < |s.net.xs| ==>
                  && s'.net.xs[x].sends == s.net.xs[x].sends
                  && (!s.net.xs[x].phase.Ended? && s'.net.xs[x].phase.Ended? ==>
                        StoppedWith(s'.net.xs[x].phase.outcome)))
            && |s'.ops.rs| >= |s.ops.rs|
            && (forall r :: 0 <= r < |s'.ops.rs| && s'.ops.rs[r].place.Done? ==>
                  || (r < |s.ops.rs| && s.ops.rs[r].place.Done?)
                  || StoppedWith(s'.ops.rs[r].place.outcome.ec))
  {
    hide Run;
    RunWinds(w, now, first, trace, more);
    var s, s' := Run(w, Initial(now, first), trace), Run(w, Initial(now, first), trace + more);
    forall x | 0 <= x < |s.net.xs| ensures OnlyStops(s.net.xs[x], s'.net.xs[x]) {}
  }

  /** The exchange is over, sending, or due. */
  predicate Awake(e: Exchange, now: Instant) {
    e.phase.Ended? || e.phase.Sending? || Due(e, now)
  }

  /** A waiter can run. */
  predicate CanRun(ops: Ops, r: Request) {
    r.place.Parked? ==> r.place.did < |ops.ds| && (r.woken || ops.ds[r.place.did].stage.Finished?)
  }

  /** Nothing is waiting for a reply that will not come: each exchange is over, sending, or due; each waiter can run. */
  predicate NothingWaits(s: State) {
    && (forall x :: 0 <= x < |s.net.xs| ==> Awake(s.net.xs[x], s.now))
    && (forall r :: 0 <= r < |s.ops.rs| ==> CanRun(s.ops, s.ops.rs[r]))
  }

  lemma CleanupWakesAll(s: State)
    requires Linked(s) && TableFull(s.net) && InFlight(s.ops)
    ensures NothingWaits(FinishStopping(s))
  {
    hide OwnersKnown;
    var s' := FinishStopping(s);
    forall x | 0 <= x < |s'.net.xs| && !s.net.xs[x].phase.Ended? ensures s'.net.xs[x] == Wake(s.net.xs[x]) {
      assert InTable(s.net, x);
      assert Outstanding(s.net, x);
    }
    forall r | 0 <= r < |s.ops.rs| ensures CanRun(s'.ops, s'.ops.rs[r]) { PlacesKnown(s.ops, r); }
  }

  // Under Stopping it stays so.

  lemma CompleteLeavesNone(w: World, s: State, x: nat, error: Option<int>)
    requires Linked(s) && s.stopping && NothingWaits(s) && x < |s.net.xs|
    ensures NothingWaits(Complete(w, s, x, error))
  {
    hide OwnersKnown, TableKnown, OpsKnown, Classify, Succeed, Due;
    var cancel := CancelFor(s, x);
    StoppingOutranksReply(cancel, s.net.xs[x].pending, error);
    var s' := Complete(w, s, x, error);
    forall r | 0 <= r < |s'.ops.rs| ensures CanRun(s'.ops, s'.ops.rs[r]) { assert CanRun(s.ops, s.ops.rs[r]); }
  }

  lemma DatagramLeavesNone(w: World, s: State, bytes: octets, from: Endpoint)
    requires Linked(s) && NothingWaits(s)
    ensures NothingWaits(s.(net := Deliver(w, s, bytes, from)))
  {
    hide OwnersKnown, OpsKnown, Judge, Timely, Quotes, Receive, CanRun;
  }

  lemma IdentifyLeavesNone(w: World, s: State, did: nat)
    requires s.stopping && NothingWaits(s) && did < |s.ops.ds| && s.ops.ds[did].stage == Spawned
    ensures NothingWaits(Identify(w, s, did))
  {
    hide Due;
    var s' := Identify(w, s, did);
    forall r | 0 <= r < |s'.ops.rs| ensures CanRun(s'.ops, s'.ops.rs[r]) { assert CanRun(s.ops, s.ops.rs[r]); }
  }

  lemma WaiterLeavesNone(w: World, s: State, rid: nat)
    requires Linked(s) && s.stopping && NothingWaits(s) && rid < |s.ops.rs| && s.ops.rs[rid].place.Parked?
    ensures NothingWaits(ResumeWaiter(w, s, rid))
  {
    hide Ask, OwnersKnown, TableKnown, Due;
    var s' := ResumeWaiter(w, s, rid);
    forall r | 0 <= r < |s'.ops.rs| ensures CanRun(s'.ops, s'.ops.rs[r]) { assert CanRun(s.ops, s.ops.rs[r]); }
  }

  lemma CallLeavesNone(w: World, s: State, target: Target, auth: Auth, pdu: Pdu)
    requires s.stopping && NothingWaits(s)
    ensures NothingWaits(StartRequest(w, s, target, auth, pdu))
  {
    hide Launch, EnsureEngine, Due;
    var s' := StartRequest(w, s, target, auth, pdu);
    forall r | 0 <= r < |s'.ops.rs| ensures CanRun(s'.ops, s'.ops.rs[r]) {
      if r < |s.ops.rs| { assert CanRun(s.ops, s.ops.rs[r]); }
    }
  }

  lemma SignalLeavesNone(s: State, rid: nat, terminal: bool)
    requires NothingWaits(s) && rid < |s.ops.rs|
    ensures NothingWaits(Cancel(s, rid, terminal))
  {
    var s' := Cancel(s, rid, terminal);
    forall r | 0 <= r < |s'.ops.rs| ensures CanRun(s'.ops, s'.ops.rs[r]) { assert CanRun(s.ops, s.ops.rs[r]); }
    forall x | 0 <= x < |s'.net.xs| ensures Awake(s'.net.xs[x], s'.now) { assert Awake(s.net.xs[x], s.now); }
  }

  lemma CleanupLeavesNone(s: State)
    requires NothingWaits(s)
    ensures NothingWaits(FinishStopping(s))
  {
    hide Outstanding, OnDiscovery;
    var s' := FinishStopping(s);
    forall r | 0 <= r < |s'.ops.rs| ensures CanRun(s'.ops, s'.ops.rs[r]) { assert CanRun(s.ops, s.ops.rs[r]); }
    forall x | 0 <= x < |s'.net.xs| ensures Awake(s'.net.xs[x], s'.now) { assert Awake(s.net.xs[x], s.now); }
  }

  lemma LaterLeavesNone(s: State, now: Instant)
    requires NothingWaits(s) && s.now <= now
    ensures NothingWaits(s.(now := now)) && NothingWaits(s.(stopping := true))
  {
    forall x | 0 <= x < |s.net.xs| ensures Awake(s.net.xs[x], now) { assert Awake(s.net.xs[x], s.now); }
    forall r | 0 <= r < |s.ops.rs| ensures CanRun(s.ops, s.ops.rs[r]) {}
  }

  lemma StepLeavesNone(w: World, s: State, e: Event)
    requires Linked(s) && s.stopping && NothingWaits(s)
    ensures NothingWaits(Step(w, s, e))
  {
    hide NothingWaits, OwnersKnown, OpsKnown, TableKnown, StartRequest, Identify, Deliver, Complete, ResumeWaiter,
         CancelOf, Cancel, FinishStopping;
    if Enabled(s, e) {
      match e
      case Tick(ms) => LaterLeavesNone(s, s.now + ms);
      case Call(target, auth, pdu) => CallLeavesNone(w, s, target, auth, pdu);
      case DiscoveryRuns(did) => IdentifyLeavesNone(w, s, did);
      case Datagram(bytes, from) => DatagramLeavesNone(w, s, bytes, from);
      case Sent(x, error) => CompleteLeavesNone(w, s, x, error);
      case Fires(x) =>
        var cancel := FiringCancel(s, x);
        CompleteLeavesNone(w, s, x, None);
      case Signal(rid, terminal) => SignalLeavesNone(s, rid, terminal);
      case WaiterRuns(rid) => WaiterLeavesNone(w, s, rid);
      case Stop => LaterLeavesNone(s, s.now);
      case StopOnStrand => CleanupLeavesNone(s);
    }
  }

  /**
   * In every run, from Stopping's cleanup on nothing is left waiting, whatever happens next: what is outstanding can
   * always end at once.
   */
  lemma {:induction false} StoppingLeavesNothingWaiting(w: World, now: Instant, first: int32, trace: seq<Event>,
                                                        more: seq<Event>)
    requires first >= 1 && YoungRun(w, Initial(now, first), trace)
    requires var s := Run(w, Initial(now, first), trace); s.stopping && !s.cleaned
    ensures var s' := Run(w, Initial(now, first), trace + [StopOnStrand] + more); s'.stopping && NothingWaits(s')
    decreases |more|
  {
    hide Run, Step, YoungRun, Ordered, TableFull, NothingWaits, FinishStopping;
    var start, cleaned := Initial(now, first), trace + [StopOnStrand];
    if more == [] {
      TableIsExact(w, now, first, trace);
      RunOrdered(w, now, first, trace);
      var s := Run(w, start, trace);
      OrderedInFlight(s.net, s.ops);
      CleanupWakesAll(s);
      RunSnoc(w, start, trace, StopOnStrand);
      StopSteps(w, s);
      assert cleaned + more == cleaned;
    } else {
      var n := |more| - 1;
      StoppingLeavesNothingWaiting(w, now, first, trace, more[..n]);
      var s := Run(w, start, cleaned + more[..n]);
      RunSnoc(w, start, cleaned + more[..n], more[n]);
      assert cleaned + more[..n] + [more[n]] == cleaned + more;
      StepFollows(w, s, more[n]);
      StepLeavesNone(w, s, more[n]);
    }
  }

  lemma StopSteps(w: World, s: State)
    requires Linked(s) && s.stopping && !s.cleaned
    ensures Step(w, s, StopOnStrand) == FinishStopping(s) && FinishStopping(s).stopping
  {
    hide WakeListed, WakeWaiters;
  }
}
