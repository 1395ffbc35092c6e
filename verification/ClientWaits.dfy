/** The life of one exchange: sending, waiting, draining and the end, and what it hears. */
module ClientWaits {
  import opened Octets
  import opened Errors
  import opened Pdus
  import opened V3Messages
  import opened ClientModel
  import opened ClientSteps
  import opened ClientFrames
  import opened ClientRuns
  import opened ClientVerdicts
  import opened ClientExchanges
  import opened ClientLives

  /** A wait on the timer, which cancelling the timer ends. */
  function Roused(e: Exchange): Exchange {
    if e.phase.Waiting? || e.phase.Draining? then e.(woken := true) else e
  }

  /** The datagram is a v2c Response to this exchange's identifier, from its Target, quoting its community. */
  predicate HearsV2c(t: Terms, from: Endpoint, msg: V2cMessage) {
    && !t.v3 && from == t.from && msg.community == t.community
    && msg.pdu.kind == Response
  }

  predicate Entry(net: Net, id: int32, x: nat) {
    id in net.table && net.table[id] == x
  }

  /** What an exchange makes of a datagram. */
  function Heard(w: World, s: State, bytes: octets, from: Endpoint, x: nat): Exchange
    requires x < |s.net.xs|
  {
    var e := s.net.xs[x];
    var p, t := e.pending, e.pending.terms;
    match w.arrival(bytes)
    case NotOurs => e
    case V2cArrival(msg) =>
      if Entry(s.net, msg.pdu.requestId, x) && HearsV2c(t, from, msg)
      then Roused(e.(pending := p.(response := msg.pdu, answered := true))) else e
    case V3Arrival(msg) =>
      var timely, signed, pdu := InTime(s.cache, s.now, from, msg.security), t.authRequired && !Exempt(msg),
          Inside(w, t, msg);
      var why := Refusal(w, t, timely, bytes, from, msg);
      if !Entry(s.net, msg.header.msgId, x) || !t.v3 then e
      else if Answers(w, t, timely, bytes, from, msg, signed, pdu) then
        Roused(e.(pending := Pending(t, pdu, msg.security, true, signed, p.dropReason)))
      else if why.Some? then e.(pending := p.(dropReason := why))
      else e
  }

  lemma JudgedHeard(w: World, t: Terms, timely: bool, bytes: octets, from: Endpoint, msg: V3Message)
    ensures var v, signed, pdu := Judge(w, t, timely, bytes, from, msg), t.authRequired && !Exempt(msg),
        Inside(w, t, msg);
            var why := Refusal(w, t, timely, bytes, from, msg);
            v == if Answers(w, t, timely, bytes, from, msg, signed, pdu) then Accepted(signed, pdu)
                 else if why.Some? then Dropped(why.value) else Ignored
  {
    hide Judge, Refusal, OutOfTime, Expected;
    var v := Judge(w, t, timely, bytes, from, msg);
    VerdictExact(w, t, timely, bytes, from, msg);
    RefusalIs(w, t, timely, bytes, from, msg);
    if v.Accepted? {
      assert Answers(w, t, timely, bytes, from, msg, v.authenticated, v.pdu);
      assert v.pdu == Inside(w, t, msg);
    }
  }

  lemma DeliverHeard(w: World, s: State, bytes: octets, from: Endpoint, x: nat)
    requires Linked(s) && x < |s.net.xs|
    ensures x < |Deliver(w, s, bytes, from).xs| && Deliver(w, s, bytes, from).xs[x] == Heard(w, s, bytes, from, x)
  {
    hide Judge, Timely, InTime, Answers, Refusal, Inside, Exempt, OwnersKnown, OpsKnown;
    match w.arrival(bytes)
    case NotOurs =>
    case V2cArrival(msg) =>
    case V3Arrival(msg) =>
      TimelyIsInTime(s.cache, s.now, from, msg.security);
      JudgedHeard(w, s.net.xs[x].pending.terms, Timely(s.cache, s.now, from, msg.security), bytes, from, msg);
  }

  /** The wait that is ending, in the exchange's account. */
  function AddWait(e: Exchange, now: Instant): Exchange {
    if e.phase.Waiting? || e.phase.Draining? then e.(waits := e.waits + [Wait(e.armed, now)]) else e
  }

  predicate WaitOver(e: Exchange, now: Instant) {
    (e.phase.Waiting? || e.phase.Draining?) && (e.woken || now >= e.phase.deadline)
  }

  /** An exchange after a step. */
  function ExchangeLife(w: World, s: State, e: Event, x: nat): Exchange
    requires Linked(s) && x < |s.net.xs|
  {
    var ex := s.net.xs[x];
    if Leaves(s, e, x) then AddWait(ex, s.now).(phase := Ended(EndAt(s, e, x)))
    else if e.Sent? && e.x == x && ex.phase.Sending? then
      ex.(phase := Waiting(s.now + ex.timeout), woken := false, armed := s.now)
    else if e.Fires? && e.x == x && WaitOver(ex, s.now) && ex.phase.Waiting? then
      if SignalOf(s.ops, ex.owner) == Total then ex.(phase := Draining(ex.phase.deadline), woken := false)
      else AddWait(ex, s.now).(phase := Sending, attempt := ex.attempt + 1, sends := ex.sends + 1, woken := false)
    else if e.Signal? && e.rid < |s.ops.rs| && !s.ops.rs[e.rid].place.Done? && OwnedBy(ex.owner, e.rid)
            && ex.phase.Waiting? then ex.(woken := true)
    else if e.StopOnStrand? && s.stopping && !s.cleaned && x in s.net.table.Values then Roused(ex)
    else if e.Datagram? then Heard(w, s, e.bytes, e.from, x)
    else ex
  }

  lemma SentLife(w: World, s: State, y: nat, error: Option<int>, x: nat)
    requires Linked(s) && x < |s.net.xs|
    ensures var net, e := LocalNet(w, s, Sent(y, error)), Sent(y, error);
            x < |net.xs| && net.xs[x] == ExchangeLife(w, s, e, x)
  {
    hide OpsKnown, TableKnown, Classify, EndOf;
    if Enabled(s, Sent(y, error)) {
      assert OwnerKnown(s.net.xs[y].owner, s.ops);
      ClassifyIs(s.stopping, SignalOf(s.ops, s.net.xs[y].owner), s.net.xs[y].pending, error);
    }
  }

  lemma FiresLife(w: World, s: State, y: nat, x: nat)
    requires Linked(s) && x < |s.net.xs|
    ensures var net := LocalNet(w, s, Fires(y)); x < |net.xs| && net.xs[x] == ExchangeLife(w, s, Fires(y), x)
  {
    hide OpsKnown, TableKnown, Classify, EndOf;
    if y < |s.net.xs| { assert OwnerKnown(s.net.xs[y].owner, s.ops); }
    if Enabled(s, Fires(y)) {
      ClassifyIs(s.stopping, SignalOf(s.ops, s.net.xs[y].owner), s.net.xs[y].pending, None);
    }
  }

  /** An event about no exchange in particular: a signal, the cleanup, or nothing. */
  lemma OtherLife(w: World, s: State, e: Event, x: nat)
    requires Linked(s) && x < |s.net.xs| && !e.Datagram? && !e.Sent? && !e.Fires?
    ensures x < |LocalNet(w, s, e).xs| && LocalNet(w, s, e).xs[x] == ExchangeLife(w, s, e, x)
  {
    hide OpsKnown, TableKnown, OwnersKnown, Outstanding, EndAt, SignalOf;
    ListedIs(s.net, x);
  }

  lemma LocalLife(w: World, s: State, e: Event, x: nat)
    requires Linked(s) && x < |s.net.xs|
    ensures x < |LocalNet(w, s, e).xs| && LocalNet(w, s, e).xs[x] == ExchangeLife(w, s, e, x)
  {
    match e
    case Datagram(bytes, from) =>
      hide Deliver, Heard, OpsKnown, TableKnown, OwnersKnown;
      DeliverHeard(w, s, bytes, from, x);
    case Sent(y, error) => SentLife(w, s, y, error, x);
    case Fires(y) => FiresLife(w, s, y, x);
    case _ => OtherLife(w, s, e, x);
  }

  lemma ListedIs(net: Net, x: nat)
    ensures Outstanding(net, x) <==> x in net.table.Values
  {
  }

  /**
   * In every step every exchange goes where its own automaton says: what it waits for and how long, what it hears, when
   * it sends again, and how it ends.
   */
  lemma StepExchange(w: World, s: State, e: Event, x: nat)
    requires Linked(s) && x < |s.net.xs|
    ensures x < |Step(w, s, e).net.xs| && Step(w, s, e).net.xs[x] == ExchangeLife(w, s, e, x)
  {
    hide Step, Linked, LocalNet, ExchangeLife, Grows;
    StepFollows(w, s, e);
    LocalLife(w, s, e, x);
    GrowthKeeps(LocalNet(w, s, e), Step(w, s, e).net, s.now, s.stopping, x);
  }

  //
  // The table
  //

  lemma LocalTable(w: World, s: State, e: Event)
    requires Linked(s)
    ensures var net, x := LocalNet(w, s, e), Leaving(s, e);
            && net.nextId == s.net.nextId && |net.xs| == |s.net.xs|
            && net.table == if x.None? then s.net.table else s.net.table - {s.net.xs[x.value].pending.terms.id}
  {
    hide Deliver, OpsKnown, TableKnown, Classify, Outstanding;
    match e
    case Datagram(bytes, from) => DeliverKeeps(w, s, bytes, from);
    case Sent(x, error) =>
      if Enabled(s, e) { assert OwnerKnown(s.net.xs[x].owner, s.ops); }
    case Fires(x) =>
      if Enabled(s, e) { assert OwnerKnown(s.net.xs[x].owner, s.ops); }
    case _ =>
  }

  /** The identifier of the exchange a step ends, if it ends one. */
  predicate Freed(s: State, e: Event, id: int32)
    requires Linked(s)
  {
    Leaving(s, e).Some? && s.net.xs[Leaving(s, e).value].pending.terms.id == id
  }

  /**
   * An entry of the table is there from before, or is that of the exchange that begins, under its own identifier; and
   * that one never takes the place of another's that is still there.
   */
  lemma StepEntries(w: World, s: State, e: Event, id: int32)
    requires Linked(s) && id in Step(w, s, e).net.table
    ensures var net, net' := s.net, Step(w, s, e).net;
            if id in net.table && !Freed(s, e, id) then net'.table[id] == net.table[id]
            else id == net.nextId && |net'.xs| == |net.xs| + 1 && net'.table[id] == |net.xs|
  {
    hide Step, Leaves, Newborn, OwnersKnown, TableKnown, OpsKnown, LocalNet;
    StepFollows(w, s, e);
    LocalTable(w, s, e);
  }

  /**
   * A total signal lets the wait in progress finish: in every run, a request so cancelled that ends with no reply and
   * without Stopping does so only once the deadline it was waiting on has passed.
   */
  lemma TotalWaitsOut(w: World, now: Instant, first: int32, trace: seq<Event>, x: nat)
    requires Leaves(Run(w, Initial(now, first), trace), Fires(x), x)
    requires var s := Run(w, Initial(now, first), trace);
             !s.stopping && !s.net.xs[x].pending.answered && SignalOf(s.ops, s.net.xs[x].owner) == Total
    ensures var s := Run(w, Initial(now, first), trace); s.now >= s.net.xs[x].armed + s.net.xs[x].timeout
  {
    hide Run;
    RunInOrder(w, now, first, trace);
    var s := Run(w, Initial(now, first), trace);
    assert InOrder(s, x);
  }
}
