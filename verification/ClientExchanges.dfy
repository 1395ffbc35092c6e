/** What an exchange's end says about its run: the sends it made, the deadlines it waited out, and why it gave up. */
module ClientExchanges {
  import opened Octets
  import opened Errors
  import opened Pdus
  import opened V3Messages
  import opened ClientModel
  import opened ClientSteps
  import opened ClientFrames
  import opened ClientRuns
  import opened ClientVerdicts

  /** Ends that say the Target was given every chance: Timeout, or why its last reply was refused. */
  predicate GaveUp(outcome: ErrorCode) {
    outcome.Fault? && outcome.e != ClientStopped
  }

  function Reason(p: Pending): Errc {
    if p.dropReason.Some? then p.dropReason.value else Timeout
  }

  /** Every wait lasted its whole deadline. */
  predicate WaitedOut(waits: seq<Wait>, timeout: int) {
    forall i :: 0 <= i < |waits| ==> waits[i].armed + timeout <= waits[i].ended
  }

  /** The waits follow one another, the first no earlier than the exchange began. */
  predicate InTurn(waits: seq<Wait>, began: Instant)
    decreases |waits|
  {
    waits == [] ||
    var n := |waits| - 1;
    InTurn(waits[..n], began) && LastEnd(waits[..n], began) <= waits[n].armed <= waits[n].ended
  }

  function LastEnd(waits: seq<Wait>, began: Instant): Instant {
    if waits == [] then began else waits[|waits| - 1].ended
  }

  predicate Patient(waits: seq<Wait>, timeout: int, began: Instant) {
    WaitedOut(waits, timeout) && InTurn(waits, began)
  }

  /** The sends and waits of an exchange so far. */
  predicate Accounted(e: Exchange, now: Instant) {
    && e.attempt <= e.retries && e.sends == e.attempt + 1 && LastEnd(e.waits, e.began) <= now
    && match e.phase
       case Sending => |e.waits| == e.attempt && Patient(e.waits, e.timeout, e.began)
       case Waiting(deadline) => |e.waits| == e.attempt && Patient(e.waits, e.timeout, e.began)
           && Armed(e, deadline, now)
       case Draining(deadline) => Armed(e, deadline, now)
       case Ended(outcome) =>
         GaveUp(outcome) ==>
           && e.attempt == e.retries && |e.waits| == e.retries + 1 && Patient(e.waits, e.timeout, e.began)
           && outcome == Fault(Reason(e.pending))
  }

  predicate Armed(e: Exchange, deadline: Instant, now: Instant) {
    LastEnd(e.waits, e.began) <= e.armed <= now && deadline == e.armed + e.timeout
  }

  lemma OneMoreWait(waits: seq<Wait>, timeout: int, began: Instant, last: Wait)
    requires Patient(waits, timeout, began) && LastEnd(waits, began) <= last.armed <= last.ended
    requires last.armed + timeout <= last.ended
    ensures Patient(waits + [last], timeout, began)
  {
    assert (waits + [last])[..|waits|] == waits;
  }

  /** Waits that follow one another and each last their deadline take that many deadlines in all. */
  lemma {:induction false} WaitsAddUp(waits: seq<Wait>, began: Instant, timeout: int)
    requires Patient(waits, timeout, began)
    ensures LastEnd(waits, began) >= began + |waits| * timeout
    decreases |waits|
  {
    if waits != [] {
      var n := |waits| - 1;
      WaitsAddUp(waits[..n], began, timeout);
      assert n * timeout + timeout == |waits| * timeout;
    }
  }

  /**
   * A wait cut short was cut short for something: a reply, Stopping, or a signal to its request; and once a total
   * signal has been seen, not by another signal.
   */
  predicate Excused(e: Exchange, stopping: bool, cancel: Cancellation) {
    && (e.woken ==> e.pending.answered || stopping || cancel != NotCancelled)
    && (e.phase.Draining? ==> cancel != NotCancelled)
    && (e.phase.Draining? && e.woken ==> e.pending.answered || stopping)
    && e.pending.dropReason != Some(ClientStopped)
  }

  predicate InOrder(s: State, x: nat)
    requires x < |s.net.xs| && OwnersKnown(s.net, s.ops)
  {
    Accounted(s.net.xs[x], s.now) && Excused(s.net.xs[x], s.stopping, CancelOf(s.ops, s.net.xs[x].owner))
  }

  predicate AllInOrder(s: State) {
    OwnersKnown(s.net, s.ops) && forall x :: 0 <= x < |s.net.xs| ==> InOrder(s, x)
  }

  // One exchange at a time.

  lemma SendKeepsAccount(e: Exchange, now: Instant, stopping: bool, cancel: Cancellation, error: Option<int>)
    requires e.phase == Sending && Accounted(e, now) && Excused(e, stopping, cancel)
    ensures match AfterSend(e, now, stopping, error)
            case Stay(e') => Accounted(e', now) && Excused(e', stopping, cancel)
            case Leave => Accounted(Over(e, Classify(stopping, cancel, e.pending, error), now), now)
  {
  }

  lemma WaitKeepsAccount(e: Exchange, now: Instant, stopping: bool, cancel: Cancellation)
    requires Due(e, now) && Accounted(e, now) && Excused(e, stopping, cancel)
    ensures match AfterWait(e, now, stopping, cancel)
            case Stay(e') => Accounted(e', now) && Excused(e', stopping, cancel)
            case Leave => Accounted(Over(e, Classify(stopping, cancel, e.pending, None), now), now)
  {
    hide Patient;
    assert LastEnd(Waited(e, now).waits, e.began) == now;
    if Patient(e.waits, e.timeout, e.began) && e.armed + e.timeout <= now {
      OneMoreWait(e.waits, e.timeout, e.began, Wait(e.armed, now));
    }
  }

  lemma TimePasses(e: Exchange, now: Instant, later: Instant)
    requires Accounted(e, now) && now <= later
    ensures Accounted(e, later)
  {
    hide Patient;
  }

  lemma ReplyKeepsAccount(e: Exchange, security: UsmParameters, v: Verdict, now: Instant, stopping: bool,
                          cancel: Cancellation)
    requires !e.phase.Ended? && Accounted(e, now) && Excused(e, stopping, cancel)
    requires v != Dropped(ClientStopped)
    ensures Accounted(Answer(e, security, v), now) && Excused(Answer(e, security, v), stopping, cancel)
  {
    hide Patient;
  }

  lemma V2cReplyKeepsAccount(e: Exchange, pdu: Pdu, now: Instant, stopping: bool, cancel: Cancellation)
    requires !e.phase.Ended? && Accounted(e, now) && Excused(e, stopping, cancel)
    ensures Accounted(AnswerV2c(e, pdu), now) && Excused(AnswerV2c(e, pdu), stopping, cancel)
  {
    hide Patient;
  }

  lemma JudgedReasons(w: World, t: Terms, timely: bool, datagram: octets, from: Endpoint, msg: V3Message)
    ensures Judge(w, t, timely, datagram, from, msg) != Dropped(ClientStopped)
  {
  }

  lemma NewbornAccounted(e: Exchange, net: Net, now: Instant, stopping: bool, cancel: Cancellation)
    requires Newborn(e, net, now)
    ensures Accounted(e, now) && Excused(e, stopping, cancel)
  {
  }

  // All of them, through a step.

  lemma OneChanged(s: State, x: nat, e': Exchange, table: map<int32, nat>)
    requires AllInOrder(s) && x < |s.net.xs| && e'.owner == s.net.xs[x].owner
    requires OwnerKnown(s.net.xs[x].owner, s.ops)
    requires Accounted(e', s.now) && Excused(e', s.stopping, CancelOf(s.ops, e'.owner))
    ensures AllInOrder(s.(net := s.net.(xs := s.net.xs[x := e'], table := table)))
  {
    hide Accounted, Excused, CancelOf, OwnerKnown;
    var s' := s.(net := s.net.(xs := s.net.xs[x := e'], table := table));
    SameOwners(s.net, s'.net, s.ops);
    forall y | 0 <= y < |s'.net.xs| ensures InOrder(s', y) { assert InOrder(s, y); }
  }

  lemma DeliverInOrder(w: World, s: State, datagram: octets, from: Endpoint)
    requires TableLive(s.net) && TableKnown(s.net) && AllInOrder(s)
    ensures AllInOrder(s.(net := Deliver(w, s, datagram, from)))
  {
    hide Accounted, Excused, CancelOf, OwnerKnown, Judge, Timely, Answer, AnswerV2c, OwnersKnown, Quotes;
    match w.arrival(datagram)
    case NotOurs =>
    case V2cArrival(msg) =>
      if msg.pdu.requestId in s.net.table {
        var x := s.net.table[msg.pdu.requestId];
        assert Listed(s.net, msg.pdu.requestId) && InOrder(s, x);
        var cancel := CancelFor(s, x);
        V2cReplyKeepsAccount(s.net.xs[x], msg.pdu, s.now, s.stopping, cancel);
        V2cAnswerKeeps(s.net.xs[x], msg.pdu);
        OneChanged(s, x, AnswerV2c(s.net.xs[x], msg.pdu), s.net.table);
      }
    case V3Arrival(msg) =>
      if msg.header.msgId in s.net.table {
        var x := s.net.table[msg.header.msgId];
        assert Listed(s.net, msg.header.msgId) && InOrder(s, x);
        var timely := Timely(s.cache, s.now, from, msg.security);
        var v := Judge(w, s.net.xs[x].pending.terms, timely, datagram, from, msg);
        JudgedReasons(w, s.net.xs[x].pending.terms, timely, datagram, from, msg);
        var cancel := CancelFor(s, x);
        ReplyKeepsAccount(s.net.xs[x], msg.security, v, s.now, s.stopping, cancel);
        AnswerKeeps(s.net.xs[x], msg.security, v);
        OneChanged(s, x, Answer(s.net.xs[x], msg.security, v), s.net.table);
      }
  }

  lemma CancelFor(s: State, x: nat) returns (cancel: Cancellation)
    requires x < |s.net.xs| && OwnersKnown(s.net, s.ops)
    ensures OwnerKnown(s.net.xs[x].owner, s.ops) && cancel == CancelOf(s.ops, s.net.xs[x].owner)
  {
    cancel := CancelOf(s.ops, s.net.xs[x].owner);
  }

  lemma AnswerKeeps(e: Exchange, security: UsmParameters, v: Verdict)
    ensures var e' := Answer(e, security, v);
            && e'.owner == e.owner && e'.pending.terms == e.pending.terms && e'.phase == e.phase
            && e'.ticket == e.ticket && e'.sends == e.sends && e'.sent == e.sent
  {
  }

  lemma V2cAnswerKeeps(e: Exchange, pdu: Pdu)
    ensures var e' := AnswerV2c(e, pdu);
            && e'.owner == e.owner && e'.pending.terms == e.pending.terms && e'.phase == e.phase
            && e'.ticket == e.ticket && e'.sends == e.sends && e'.sent == e.sent
            && e'.pending.dropReason == e.pending.dropReason
  {
  }

  lemma MovedInOrder(s: State, x: nat, m: Move, sendError: Option<int>)
    requires AllInOrder(s) && x < |s.net.xs| && OwnerKnown(s.net.xs[x].owner, s.ops)
    requires var e, cancel := s.net.xs[x], CancelOf(s.ops, s.net.xs[x].owner);
             m.Stay? ==> m.e.owner == e.owner && Accounted(m.e, s.now) && Excused(m.e, s.stopping, cancel)
    requires m.Leave? ==>
      Accounted(Over(s.net.xs[x],
                     Classify(s.stopping, CancelOf(s.ops, s.net.xs[x].owner), s.net.xs[x].pending, sendError),
                     s.now), s.now)
    ensures AllInOrder(s.(net := MovedNet(s, x, m, sendError)))
  {
    hide Accounted, CancelOf, OwnerKnown, Classify, OwnersKnown;
    assert InOrder(s, x);
    match m
    case Stay(e') => OneChanged(s, x, e', s.net.table);
    case Leave =>
      var e := s.net.xs[x];
      OneChanged(s, x, Over(e, Classify(s.stopping, CancelOf(s.ops, e.owner), e.pending, sendError), s.now),
                 s.net.table - {e.pending.terms.id});
  }

  lemma OpsMoveOn(s: State, ops: Ops)
    requires AllInOrder(s) && OpsGrow(s.ops, ops)
    ensures AllInOrder(s.(ops := ops))
  {
    hide Accounted;
    OwnersStayKnown(s.net, s.ops, ops);
    forall x | 0 <= x < |s.net.xs| ensures InOrder(s.(ops := ops), x) { assert InOrder(s, x); }
  }

  lemma ClockMovesOn(s: State, later: Instant, stopping: bool)
    requires AllInOrder(s) && s.now <= later && (s.stopping ==> stopping)
    ensures AllInOrder(s.(now := later, stopping := stopping))
  {
    hide Accounted, OwnersKnown, CancelOf;
    var s' := s.(now := later, stopping := stopping);
    forall x | 0 <= x < |s.net.xs| ensures InOrder(s', x) {
      assert InOrder(s, x);
      TimePasses(s.net.xs[x], s.now, later);
    }
  }

  lemma SignalInOrder(s: State, rid: nat)
    requires AllInOrder(s) && rid < |s.ops.rs| && s.ops.rs[rid].cancel != NotCancelled
    ensures AllInOrder(s.(net := CancelWaits(s.net, rid)))
  {
    hide OwnersKnown, Patient;
    var s' := s.(net := CancelWaits(s.net, rid));
    SameOwners(s.net, s'.net, s.ops);
    forall x | 0 <= x < |s.net.xs| ensures InOrder(s', x) { assert InOrder(s, x); }
  }

  lemma WakeInOrder(s: State)
    requires AllInOrder(s) && s.stopping
    ensures AllInOrder(s.(net := WakeListed(s.net)))
  {
    hide OwnersKnown, Patient, Outstanding;
    var s' := s.(net := WakeListed(s.net));
    SameOwners(s.net, s'.net, s.ops);
    forall x | 0 <= x < |s.net.xs| ensures InOrder(s', x) { assert InOrder(s, x); }
  }

  lemma GrowsInOrder(s: State, net: Net)
    requires AllInOrder(s) && Grows(s.net, net, s.now, s.stopping) && OwnersKnown(net, s.ops)
    ensures AllInOrder(s.(net := net))
  {
    hide Accounted, Excused, OwnersKnown, Newborn, CancelOf;
    var s' := s.(net := net);
    forall x | 0 <= x < |net.xs| ensures InOrder(s', x) {
      if x < |s.net.xs| {
        assert InOrder(s, x);
        if Born(s.net, net, s.now) { assert net.xs[..|s.net.xs|][x] == net.xs[x]; }
      } else {
        var cancel := CancelFor(s', x);
        NewbornAccounted(net.xs[x], s.net, s.now, s.stopping, cancel);
      }
    }
  }

  lemma LocalInOrder(w: World, s: State, e: Event, ops: Ops)
    requires Linked(s) && TableLive(s.net) && AllInOrder(s)
    requires OpsGrow(s.ops, ops)
    requires e.Signal? && Enabled(s, e) ==> e.rid < |ops.rs| && ops.rs[e.rid].cancel != NotCancelled
    ensures AllInOrder(s.(net := LocalNet(w, s, e), ops := ops))
  {
    hide Accounted, Excused, OwnersKnown, CancelOf, AllInOrder, MovedNet, Deliver, OpsGrow, OpsKnown, Classify,
         TableLive;
    if Enabled(s, e) {
      match e
      case Datagram(bytes, from) =>
        DeliverInOrder(w, s, bytes, from);
        OpsMoveOn(s.(net := LocalNet(w, s, e)), ops);
      case Sent(x, error) =>
        var cancel := CancelFor(s, x);
        OneInOrder(s, x);
        SendKeepsAccount(s.net.xs[x], s.now, s.stopping, cancel, error);
        SendKeepsOwner(s.net.xs[x], s.now, s.stopping, error);
        MovedInOrder(s, x, AfterSend(s.net.xs[x], s.now, s.stopping, error), error);
        OpsMoveOn(s.(net := LocalNet(w, s, e)), ops);
      case Fires(x) =>
        var cancel := FiringCancel(s, x);
        OneInOrder(s, x);
        WaitKeepsAccount(s.net.xs[x], s.now, s.stopping, cancel);
        MovedInOrder(s, x, AfterWait(s.net.xs[x], s.now, s.stopping, cancel), None);
        OpsMoveOn(s.(net := LocalNet(w, s, e)), ops);
      case Signal(rid, _) =>
        OpsMoveOn(s, ops);
        SignalInOrder(s.(ops := ops), rid);
      case StopOnStrand =>
        WakeInOrder(s);
        OpsMoveOn(s.(net := LocalNet(w, s, e)), ops);
      case _ => OpsMoveOn(s, ops);
    } else {
      OpsMoveOn(s, ops);
    }
  }

  lemma OneInOrder(s: State, x: nat)
    requires AllInOrder(s) && x < |s.net.xs|
    ensures InOrder(s, x)
  {
  }

  lemma StepSignals(w: World, s: State, e: Event)
    requires Linked(s) && e.Signal? && Enabled(s, e)
    ensures e.rid < |Step(w, s, e).ops.rs| && Step(w, s, e).ops.rs[e.rid].cancel != NotCancelled
  {
  }

  lemma StepInOrder(w: World, s: State, e: Event)
    requires Linked(s) && TableLive(s.net) && AllInOrder(s)
    ensures AllInOrder(Step(w, s, e))
  {
    hide Grows, AllInOrder, LocalNet, Step, TableLive, OpsGrow, Enabled;
    StepFollows(w, s, e);
    var s' := Step(w, s, e);
    if e.Signal? && Enabled(s, e) { StepSignals(w, s, e); }
    LocalInOrder(w, s, e, s'.ops);
    var m := s.(net := LocalNet(w, s, e), ops := s'.ops);
    GrowsInOrder(m, s'.net);
    ClockMovesOn(m.(net := s'.net), s'.now, s'.stopping);
    InOrderAgrees(m.(net := s'.net, now := s'.now, stopping := s'.stopping), s');
  }

  lemma InOrderAgrees(a: State, b: State)
    requires AllInOrder(a) && a.net == b.net && a.ops == b.ops && a.now == b.now && a.stopping == b.stopping
    ensures AllInOrder(b)
  {
    hide Accounted, Excused, OwnersKnown, CancelOf;
    forall x | 0 <= x < |b.net.xs| ensures InOrder(b, x) { assert InOrder(a, x); }
  }

  /** Every run keeps the table live and every exchange's account in order. */
  lemma {:induction false} RunInOrder(w: World, now: Instant, first: int32, trace: seq<Event>)
    ensures var s := Run(w, Initial(now, first), trace); TableLive(s.net) && AllInOrder(s)
    decreases |trace|
  {
    hide Step, AllInOrder, TableLive;
    if trace == [] {
      StartsInOrder(now, first);
    } else {
      var before := trace[..|trace| - 1];
      RunInOrder(w, now, first, before);
      StepTableLive(w, Run(w, Initial(now, first), before), trace[|trace| - 1]);
      StepInOrder(w, Run(w, Initial(now, first), before), trace[|trace| - 1]);
    }
  }

  lemma StartsInOrder(now: Instant, first: int32)
    ensures TableLive(Initial(now, first).net) && AllInOrder(Initial(now, first))
  {
  }

  /**
   * The order of the ends. Success needs a reply, no terminal signal and no Stopping; a signal is otherwise reported
   * ahead of Stopping, and Stopping ahead of anything the socket or the Target did.
   */
  lemma EndsMean(stopping: bool, cancel: Cancellation, p: Pending, sendError: Option<int>)
    requires p.dropReason != Some(ClientStopped)
    ensures var ec := Classify(stopping, cancel, p, sendError);
            && (ec == NoError <==> p.answered && !stopping && cancel != Terminal)
            && (ec == OperationAborted <==> cancel == Terminal || (cancel == Total && (stopping || !p.answered)))
            && (ec == Fault(ClientStopped) <==> stopping && cancel == NotCancelled)
            && (ec.SystemError? <==> sendError.Some? && !stopping && cancel == NotCancelled && !p.answered)
            && (GaveUp(ec) <==> sendError.None? && !stopping && cancel == NotCancelled && !p.answered)
  {
  }

  //
  // Only datagrams change what an exchange has heard
  //

  lemma StepHears(w: World, s: State, e: Event, x: nat)
    requires Linked(s) && x < |s.net.xs|
    ensures var s' := Step(w, s, e);
            && x < |s'.net.xs|
            && s'.net.xs[x].pending
                == (if e.Datagram? then Deliver(w, s, e.bytes, e.from).xs[x].pending else s.net.xs[x].pending)
            && s'.net.xs[x].owner == s.net.xs[x].owner && s'.net.xs[x].sent == s.net.xs[x].sent
            && s'.net.xs[x].timeout == s.net.xs[x].timeout && s'.net.xs[x].retries == s.net.xs[x].retries
  {
    hide Step, Linked;
    hide LocalNet, Grows, Deliver;
    StepFollows(w, s, e);
    LocalHears(w, s, e, x);
    GrowthKeeps(LocalNet(w, s, e), Step(w, s, e).net, s.now, s.stopping, x);
  }

  lemma GrowthKeeps(net: Net, net': Net, now: Instant, stopping: bool, x: nat)
    requires Grows(net, net', now, stopping) && x < |net.xs|
    ensures x < |net'.xs| && net'.xs[x] == net.xs[x]
  {
    hide Newborn;
    if Born(net, net', now) { assert net'.xs[..|net.xs|][x] == net'.xs[x]; }
  }

  lemma LocalHears(w: World, s: State, e: Event, x: nat)
    requires Linked(s) && x < |s.net.xs|
    ensures var net := LocalNet(w, s, e);
            && |net.xs| == |s.net.xs|
            && net.xs[x].pending
                == (if e.Datagram? then Deliver(w, s, e.bytes, e.from).xs[x].pending else s.net.xs[x].pending)
            && net.xs[x].owner == s.net.xs[x].owner && net.xs[x].sent == s.net.xs[x].sent
            && net.xs[x].timeout == s.net.xs[x].timeout && net.xs[x].retries == s.net.xs[x].retries
  {
    hide Deliver, OwnersKnown, CancelOf, Classify, Outstanding, TableKnown, OpsKnown;
    if e.Datagram? { DeliverKeeps(w, s, e.bytes, e.from); }
    if e.Fires? && Enabled(s, e) { var cancel := FiringCancel(s, e.x); }
  }

  /** Why this event made exchange `x` discard a reply, if it did. */
  function DropAt(w: World, s: State, e: Event, x: nat): Option<Errc>
    requires Linked(s) && x < |s.net.xs|
  {
    if !e.Datagram? || !w.arrival(e.bytes).V3Arrival? then None
    else
      var msg, t := w.arrival(e.bytes).v3, s.net.xs[x].pending.terms;
      if msg.header.msgId !in s.net.table || s.net.table[msg.header.msgId] != x || !t.v3 then None
      else
        Refusal(w, t, InTime(s.cache, s.now, e.from, msg.security), e.bytes, e.from, msg)
  }

  /** The reason of the last reply in the run that exchange `x` discarded for a named cause. */
  function LastDrop(w: World, s: State, trace: seq<Event>, x: nat): Option<Errc>
    requires Linked(s)
    decreases |trace|
  {
    if trace == [] then None
    else
      var before, e := trace[..|trace| - 1], trace[|trace| - 1];
      var m := Run(w, s, before);
      if x < |m.net.xs| && DropAt(w, m, e, x).Some? then DropAt(w, m, e, x) else LastDrop(w, s, before, x)
  }

  lemma DropRecorded(w: World, s: State, e: Event, x: nat)
    requires Linked(s) && x < |s.net.xs|
    ensures x < |Step(w, s, e).net.xs|
    ensures var drop := DropAt(w, s, e, x);
            Step(w, s, e).net.xs[x].pending.dropReason == (if drop.Some? then drop else s.net.xs[x].pending.dropReason)
  {
    hide Step, Linked, Deliver, DropAt;
    StepHears(w, s, e, x);
    DropDelivered(w, s, e, x);
  }

  lemma DropDelivered(w: World, s: State, e: Event, x: nat)
    requires Linked(s) && x < |s.net.xs|
    ensures if e.Datagram? then
              var net, drop := Deliver(w, s, e.bytes, e.from), DropAt(w, s, e, x);
              && |net.xs| == |s.net.xs|
              && net.xs[x].pending.dropReason == (if drop.Some? then drop else s.net.xs[x].pending.dropReason)
            else DropAt(w, s, e, x) == None
  {
    hide Judge, Timely, Refusal, InTime, Quotes, OwnersKnown, OpsKnown;
    if e.Datagram? && w.arrival(e.bytes).V3Arrival? {
      var msg, t := w.arrival(e.bytes).v3, s.net.xs[x].pending.terms;
      TimelyIsInTime(s.cache, s.now, e.from, msg.security);
      RefusalIs(w, t, Timely(s.cache, s.now, e.from, msg.security), e.bytes, e.from, msg);
    }
  }

  lemma StepBirth(w: World, s: State, e: Event)
    requires Linked(s)
    ensures |s.net.xs| <= |Step(w, s, e).net.xs| <= |s.net.xs| + 1
    ensures |Step(w, s, e).net.xs| == |s.net.xs| + 1 ==>
              Newborn(Step(w, s, e).net.xs[|s.net.xs|], LocalNet(w, s, e), s.now) && !s.stopping
  {
    hide Step, Newborn, Linked;
    StepFollows(w, s, e);
    if |s.net.xs| > 0 { LocalHears(w, s, e, 0); } else { LocalEmpty(w, s, e); }
  }

  lemma LocalEmpty(w: World, s: State, e: Event)
    requires Linked(s) && s.net.xs == []
    ensures LocalNet(w, s, e).xs == []
  {
    if e.Datagram? { DeliverKeeps(w, s, e.bytes, e.from); }
  }

  /**
   * In every run the reason an exchange would give is that of the last matching reply it dropped for a named cause,
   * and it has none exactly when there was no such reply.
   */
  lemma {:induction false} ReasonIsLastDrop(w: World, s: State, trace: seq<Event>, x: nat)
    requires Linked(s) && s.net.xs == []
    ensures var s' := Run(w, s, trace);
            if x < |s'.net.xs| then s'.net.xs[x].pending.dropReason == LastDrop(w, s, trace, x)
            else LastDrop(w, s, trace, x) == None
    decreases |trace|
  {
    hide Step, DropAt, Linked;
    if trace != [] {
      var before, e := trace[..|trace| - 1], trace[|trace| - 1];
      ReasonIsLastDrop(w, s, before, x);
      var m := Run(w, s, before);
      StepBirth(w, m, e);
      if x < |m.net.xs| { DropRecorded(w, m, e, x); }
    }
  }

  /**
   * In every run: an exchange that ends in Timeout, or in the reason a reply was refused, made its first send and
   * every retransmission, and after each of them waited its whole deadline, one wait after another. The reason is that
   * of the last reply it dropped for a named cause, and Timeout means there was none.
   */
  lemma GivesUpOnlyWhenExhausted(w: World, now: Instant, first: int32, trace: seq<Event>, x: nat)
    requires x < |Run(w, Initial(now, first), trace).net.xs|
    requires var e := Run(w, Initial(now, first), trace).net.xs[x]; e.phase.Ended? && GaveUp(e.phase.outcome)
    ensures var s, last := Run(w, Initial(now, first), trace), LastDrop(w, Initial(now, first), trace, x);
            var e := s.net.xs[x];
            && e.sends == e.retries + 1 == |e.waits|
            && (forall i :: 0 <= i < |e.waits| ==> e.waits[i].ended - e.waits[i].armed >= e.timeout)
            && InTurn(e.waits, e.began)
            && s.now >= e.began + (e.retries + 1) * e.timeout
            && e.phase.outcome == Fault(if last.Some? then last.value else Timeout)
  {
    hide Run, LastDrop;
    RunInOrder(w, now, first, trace);
    ReasonIsLastDrop(w, Initial(now, first), trace, x);
    var s := Run(w, Initial(now, first), trace);
    assert InOrder(s, x);
    var e := s.net.xs[x];
    WaitsAddUp(e.waits, e.began, e.timeout);
  }
}
