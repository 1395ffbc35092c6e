/** Runs of the Client, and what every one of them keeps about its exchanges. */
module ClientRuns {
  import opened Octets
  import opened Errors
  import opened ClientModel
  import opened ClientSteps
  import opened ClientFrames

  //
  // A step, taken apart: what happens to the exchange it is about, then what its owner does next
  //

  function MovedNet(s: State, x: nat, m: Move, sendError: Option<int>): Net
    requires x < |s.net.xs| && OwnersKnown(s.net, s.ops)
  {
    match m
    case Stay(e) => s.net.(xs := s.net.xs[x := e])
    case Leave =>
      var e := s.net.xs[x];
      EndExchange(s.net, x, Classify(s.stopping, CancelOf(s.ops, e.owner), e.pending, sendError), s.now)
  }

  function LocalNet(w: World, s: State, e: Event): Net
    requires Linked(s)
  {
    if !Enabled(s, e) then s.net
    else
      match e
      case Datagram(bytes, from) => Deliver(w, s, bytes, from)
      case Sent(x, error) => MovedNet(s, x, AfterSend(s.net.xs[x], s.now, s.stopping, error), error)
      case Fires(x) =>
        MovedNet(s, x, AfterWait(s.net.xs[x], s.now, s.stopping, CancelOf(s.ops, s.net.xs[x].owner)), None)
      case Signal(rid, _) => CancelWaits(s.net, rid)
      case StopOnStrand => WakeListed(s.net)
      case _ => s.net
  }

  /** Everything a step may change outside the cache. */
  predicate Follows(w: World, s: State, e: Event, s': State)
    requires Linked(s)
  {
    && s'.now == s.now + (if e.Tick? then e.ms else 0)
    && s'.stopping == (s.stopping || e.Stop?)
    && Grows(LocalNet(w, s, e), s'.net, s.now, s.stopping)
    && OpsGrow(s.ops, s'.ops)
    && Linked(s')
  }

  lemma SameOwners(net: Net, net': Net, ops: Ops)
    requires OwnersKnown(net, ops) && |net'.xs| == |net.xs|
    requires forall x :: 0 <= x < |net.xs| ==> net'.xs[x].owner == net.xs[x].owner
    ensures OwnersKnown(net', ops)
  {
  }

  lemma OpsGrowSelf(ops: Ops)
    ensures OpsGrow(ops, ops)
  {
  }

  lemma CompleteFollows(w: World, s: State, x: nat, sendError: Option<int>)
    requires Linked(s) && x < |s.net.xs|
    ensures var s', mid := Complete(w, s, x, sendError), MovedNet(s, x, Leave, sendError);
            && s'.now == s.now && s'.stopping == s.stopping && Grows(mid, s'.net, s.now, s.stopping)
            && OpsGrow(s.ops, s'.ops) && Linked(s')
  {
    hide Grows, OpsGrow, OpsKnown, OwnerKnown, FailOwner, Succeed, Classify, CancelOf;
    var e := s.net.xs[x];
    var outcome := Classify(s.stopping, CancelOf(s.ops, e.owner), e.pending, sendError);
    var s1 := s.(net := EndExchange(s.net, x, outcome, s.now));
    SameOwners(s.net, s1.net, s.ops);
    if outcome == NoError {
      SucceedCarries(w, s1, e.owner, e.pending);
      CarriesLinked(s1, Succeed(w, s1, e.owner, e.pending));
    } else {
      OwnerFails(s.ops, e.owner, outcome);
      Still(s1.net, s.now, s.stopping);
      CarriesLinked(s1, s1.(ops := FailOwner(s.ops, e.owner, outcome)));
    }
  }

  lemma MovedFollows(w: World, s: State, x: nat, m: Move, sendError: Option<int>)
    requires Linked(s) && x < |s.net.xs| && (m.Stay? ==> m.e.owner == s.net.xs[x].owner)
    ensures var s', mid := Moved(w, s, x, m, sendError), MovedNet(s, x, m, sendError);
            && s'.now == s.now && s'.stopping == s.stopping && Grows(mid, s'.net, s.now, s.stopping)
            && OpsGrow(s.ops, s'.ops) && Linked(s')
  {
    hide Grows, OpsGrow, OpsKnown, OwnerKnown, Complete, Classify, CancelOf, EndExchange;
    if m.Stay? {
      var net := MovedNet(s, x, m, sendError);
      Still(net, s.now, s.stopping);
      OpsGrowSelf(s.ops);
      SameOwners(s.net, net, s.ops);
    } else {
      CompleteFollows(w, s, x, sendError);
    }
  }

  lemma DeliverKeeps(w: World, s: State, datagram: octets, from: Endpoint)
    requires TableKnown(s.net)
    ensures var net := Deliver(w, s, datagram, from);
            && net.table == s.net.table && net.nextId == s.net.nextId && net.issued == s.net.issued
            && |net.xs| == |s.net.xs|
            && forall x :: 0 <= x < |net.xs| ==>
                 && net.xs[x].owner == s.net.xs[x].owner && net.xs[x].sent == s.net.xs[x].sent
                 && net.xs[x].timeout == s.net.xs[x].timeout && net.xs[x].retries == s.net.xs[x].retries
  {
    hide Judge, Timely, Receive;
  }

  lemma SignalFollows(s: State, rid: nat, terminal: bool)
    requires Linked(s) && rid < |s.ops.rs|
    ensures var s' := Cancel(s, rid, terminal);
            && s'.now == s.now && s'.stopping == s.stopping
            && OpsGrow(s.ops, s'.ops) && Linked(s') && Grows(CancelWaits(s.net, rid), s'.net, s.now, s.stopping)
  {
    hide Grows, OwnerKnown, OpsGrow, OpsKnown, OwnersKnown;
    var s' := Cancel(s, rid, terminal);
    Still(s'.net, s.now, s.stopping);
    PlacesKnown(s.ops, rid);
    RequestMoves(s.ops, rid, s'.ops.rs[rid]);
    SameOwners(s.net, s'.net, s.ops);
    OwnersStayKnown(s'.net, s.ops, s'.ops);
  }

  lemma StoppingFollows(s: State)
    requires Linked(s)
    ensures var s' := FinishStopping(s);
            && s'.now == s.now && s'.stopping == s.stopping
            && OpsGrow(s.ops, s'.ops) && Linked(s') && Grows(WakeListed(s.net), s'.net, s.now, s.stopping)
  {
    hide Grows, OwnerKnown, OnDiscovery, Outstanding, OwnersKnown;
    var s' := FinishStopping(s);
    Still(s'.net, s.now, s.stopping);
    assert OpsGrow(s.ops, s'.ops);
    forall r | 0 <= r < |s.ops.rs| ensures PlaceKnown(s'.ops.rs[r], |s'.ops.ds|) { PlacesKnown(s.ops, r); }
    SameOwners(s.net, s'.net, s.ops);
    OwnersStayKnown(s'.net, s.ops, s'.ops);
  }

  lemma StepFollows(w: World, s: State, e: Event)
    requires Linked(s)
    ensures Follows(w, s, e, Step(w, s, e))
  {
    hide Grows, OwnerKnown, OpsGrow, OpsKnown, OwnersKnown, TableKnown, MovedNet, Moved, AfterSend, AfterWait,
         StartRequest, Identify, Deliver, Cancel, CancelWaits, ResumeWaiter, FinishStopping, WakeListed, CancelOf, Due;
    Still(s.net, s.now, s.stopping);
    OpsGrowSelf(s.ops);
    if Enabled(s, e) {
      match e
      case Tick(_) =>
      case Call(target, auth, pdu) =>
        StartCarries(w, s, target, auth, pdu);
        CarriesLinked(s, StartRequest(w, s, target, auth, pdu));
      case DiscoveryRuns(did) =>
        IdentifyCarries(w, s, did);
        CarriesLinked(s, Identify(w, s, did));
      case Datagram(bytes, from) => DatagramFollows(w, s, bytes, from);
      case Sent(x, error) =>
        SendKeepsOwner(s.net.xs[x], s.now, s.stopping, error);
        MovedFollows(w, s, x, AfterSend(s.net.xs[x], s.now, s.stopping, error), error);
      case Fires(x) =>
        var cancel := FiringCancel(s, x);
        MovedFollows(w, s, x, AfterWait(s.net.xs[x], s.now, s.stopping, cancel), None);
      case Signal(rid, terminal) => SignalFollows(s, rid, terminal);
      case WaiterRuns(rid) =>
        ResumeCarries(w, s, rid);
        CarriesLinked(s, ResumeWaiter(w, s, rid));
      case Stop =>
      case StopOnStrand => StoppingFollows(s);
    }
  }

  lemma DatagramFollows(w: World, s: State, bytes: octets, from: Endpoint)
    requires Linked(s)
    ensures var net := Deliver(w, s, bytes, from);
            Grows(net, net, s.now, s.stopping) && Linked(s.(net := net))
  {
    hide Grows, Deliver, OwnersKnown;
    DeliverKeeps(w, s, bytes, from);
    SameOwners(s.net, Deliver(w, s, bytes, from), s.ops);
    Still(Deliver(w, s, bytes, from), s.now, s.stopping);
  }

  lemma SendKeepsOwner(e: Exchange, now: Instant, stopping: bool, error: Option<int>)
    ensures AfterSend(e, now, stopping, error).Stay? ==> AfterSend(e, now, stopping, error).e.owner == e.owner
  {
  }

  lemma FiringCancel(s: State, x: nat) returns (cancel: Cancellation)
    requires Linked(s) && x < |s.net.xs| && Due(s.net.xs[x], s.now)
    ensures OwnerKnown(s.net.xs[x].owner, s.ops) && cancel == CancelOf(s.ops, s.net.xs[x].owner)
    ensures s.net.xs[x].phase.Waiting? || s.net.xs[x].phase.Draining?
    ensures AfterWait(s.net.xs[x], s.now, s.stopping, cancel).Stay? ==>
              AfterWait(s.net.xs[x], s.now, s.stopping, cancel).e.owner == s.net.xs[x].owner
  {
    cancel := CancelOf(s.ops, s.net.xs[x].owner);
  }

  //
  // Runs
  //

  /** The state after a sequence of events. */
  function Run(w: World, s: State, trace: seq<Event>): (s': State)
    requires Linked(s)
    ensures Linked(s')
    decreases |trace|
  {
    if trace == [] then s
    else
      var before := Run(w, s, trace[..|trace| - 1]);
      StepFollows(w, before, trace[|trace| - 1]);
      Step(w, before, trace[|trace| - 1])
  }

  lemma RunSnoc(w: World, s: State, trace: seq<Event>, e: Event)
    requires Linked(s)
    ensures Run(w, s, trace + [e]) == Step(w, Run(w, s, trace), e)
  {
    hide Step;
    assert (trace + [e])[..|trace|] == trace;
  }

  //
  // The table names only exchanges still in their loop
  //

  predicate Listed(net: Net, id: int32)
    requires id in net.table
  {
    var x := net.table[id];
    x < |net.xs| && net.xs[x].pending.terms.id == id && !net.xs[x].phase.Ended?
  }

  predicate TableLive(net: Net) {
    forall id :: id in net.table ==> Listed(net, id)
  }

  /** An exchange replaced by itself further on: same identifier, and not ended. */
  predicate SameLife(e: Exchange, e': Exchange) {
    e'.pending.terms == e.pending.terms && (e'.phase.Ended? <==> e.phase.Ended?)
  }

  lemma TableStaysLive(net: Net, net': Net)
    requires TableLive(net) && net'.table == net.table && |net'.xs| == |net.xs|
    requires forall x :: 0 <= x < |net.xs| ==> SameLife(net.xs[x], net'.xs[x])
    ensures TableLive(net')
  {
    forall id | id in net'.table ensures Listed(net', id) {
      assert Listed(net, id);
      assert SameLife(net.xs[net.table[id]], net'.xs[net.table[id]]);
    }
  }

  lemma TableGrowsLive(net: Net, net': Net, now: Instant, stopping: bool)
    requires TableLive(net) && Grows(net, net', now, stopping)
    ensures TableLive(net')
  {
    hide TermsFit, Unanswered, Next;
    forall id | id in net'.table ensures Listed(net', id) {
      if id in net.table {
        assert Listed(net, id);
        if Born(net, net', now) { assert net'.xs[..|net.xs|][net.table[id]] == net'.xs[net.table[id]]; }
      }
    }
  }

  lemma MovedKeepsTable(s: State, x: nat, m: Move, sendError: Option<int>)
    requires TableLive(s.net) && x < |s.net.xs| && OwnersKnown(s.net, s.ops)
    requires m.Stay? ==> SameLife(s.net.xs[x], m.e)
    ensures TableLive(MovedNet(s, x, m, sendError))
  {
    hide Classify, CancelOf, OwnersKnown, OwnerKnown;
    var net := MovedNet(s, x, m, sendError);
    if m.Stay? {
      TableStaysLive(s.net, net);
    } else {
      forall id | id in net.table ensures Listed(net, id) { assert Listed(s.net, id); }
    }
  }

  lemma AnswersSameLife(w: World, s: State, datagram: octets, from: Endpoint)
    requires TableKnown(s.net)
    ensures var net := Deliver(w, s, datagram, from);
            forall x :: 0 <= x < |s.net.xs| ==> SameLife(s.net.xs[x], net.xs[x])
  {
    hide Judge, Timely;
  }

  lemma LocalTableLive(w: World, s: State, e: Event)
    requires Linked(s) && TableLive(s.net)
    ensures TableLive(LocalNet(w, s, e))
  {
    hide TableLive, MovedNet, Deliver, OpsKnown, OwnersKnown, TableKnown, CancelOf;
    if Enabled(s, e) {
      match e
      case Datagram(bytes, from) =>
        DeliverKeeps(w, s, bytes, from);
        AnswersSameLife(w, s, bytes, from);
        TableStaysLive(s.net, Deliver(w, s, bytes, from));
      case Sent(x, error) =>
        MovedKeepsTable(s, x, AfterSend(s.net.xs[x], s.now, s.stopping, error), error);
      case Fires(x) =>
        var cancel := FiringCancel(s, x);
        MovedKeepsTable(s, x, AfterWait(s.net.xs[x], s.now, s.stopping, cancel), None);
      case Signal(rid, _) => TableStaysLive(s.net, CancelWaits(s.net, rid));
      case StopOnStrand => TableStaysLive(s.net, WakeListed(s.net));
      case _ =>
    }
  }

  lemma StepTableLive(w: World, s: State, e: Event)
    requires Linked(s) && TableLive(s.net)
    ensures TableLive(Step(w, s, e).net)
  {
    hide Grows, TableLive, LocalNet, Step, Linked;
    StepFollows(w, s, e);
    LocalTableLive(w, s, e);
    TableGrowsLive(LocalNet(w, s, e), Step(w, s, e).net, s.now, s.stopping);
  }
}
