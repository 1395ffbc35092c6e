/** Identifiers: that they do not repeat, and that the table is therefore exactly the exchanges still in their loop. */
module ClientIds {
  import opened Octets
  import opened ClientModel
  import opened ClientSteps
  import opened ClientFrames
  import opened ClientRuns
  import opened ClientExchanges

  /** How many identifiers there are before they come round: every positive 32-bit integer. */
  const CYCLE: nat := 0x7FFF_FFFF

  /** The identifier issued after `n` others. */
  function Nth(first: int32, n: nat): int32 {
    if n == 0 then first else Next(Nth(first, n - 1))
  }

  lemma {:induction false} NthPositive(first: int32, n: nat)
    requires first >= 1
    ensures Nth(first, n) >= 1
  {
    if n > 0 { NthPositive(first, n - 1); }
  }

  /** `k` identifiers on, with at most one wrap. */
  lemma {:induction false} Ahead(first: int32, m: nat, k: nat)
    requires first >= 1 && k <= CYCLE
    ensures Nth(first, m + k) as int
         == if Nth(first, m) + k <= CYCLE then Nth(first, m) + k else Nth(first, m) + k - CYCLE
  {
    NthPositive(first, m);
    if k > 0 {
      Ahead(first, m, k - 1);
      assert Nth(first, m + k) == Next(Nth(first, m + k - 1));
    }
  }

  /** Identifiers issued fewer than 2^31 - 1 calls apart are different, and a full cycle apart they are the same. */
  lemma IdsDistinct(first: int32, m: nat, n: nat)
    requires first >= 1 && m < n
    ensures n - m < CYCLE ==> Nth(first, m) != Nth(first, n)
    ensures n - m == CYCLE ==> Nth(first, m) == Nth(first, n)
    ensures Nth(first, m) >= 1
  {
    hide Nth;
    NthPositive(first, m);
    if n - m <= CYCLE { Ahead(first, m, n - m); }
  }

  //
  // The table
  //

  /** Every exchange goes by the identifier its ticket drew, and tickets are drawn in turn. */
  predicate Ticketed(e: Exchange, first: int32, issued: nat) {
    e.ticket < issued && e.pending.terms.id == Nth(first, e.ticket)
  }

  predicate Numbered(net: Net, first: int32) {
    && net.nextId == Nth(first, net.issued)
    && (forall x :: 0 <= x < |net.xs| ==> Ticketed(net.xs[x], first, net.issued))
  }

  /** No exchange still in its loop has been outlived by a whole cycle of identifiers. */
  predicate Young(net: Net) {
    forall x :: 0 <= x < |net.xs| && !net.xs[x].phase.Ended? ==> net.issued - net.xs[x].ticket < CYCLE
  }

  /** Every exchange still in its loop is in the table, under its own identifier. */
  predicate TableFull(net: Net) {
    forall x :: 0 <= x < |net.xs| && !net.xs[x].phase.Ended? ==> InTable(net, x)
  }

  /** Which exchange is which, and whether it is over. */
  predicate SameTicket(e: Exchange, e': Exchange) {
    e'.ticket == e.ticket && e'.pending.terms == e.pending.terms
  }

  lemma NextIsFree(net: Net, first: int32)
    requires first >= 1 && TableLive(net) && Numbered(net, first) && Young(net)
    ensures net.nextId !in net.table
  {
    hide Nth;
    if net.nextId in net.table {
      assert Listed(net, net.nextId);
      var e := net.xs[net.table[net.nextId]];
      assert Ticketed(e, first, net.issued);
      IdsDistinct(first, e.ticket, net.issued);
    }
  }

  lemma NumberedOn(net: Net, net': Net, first: int32, now: Instant, stopping: bool)
    requires Numbered(net, first) && Grows(net, net', now, stopping)
    ensures Numbered(net', first)
  {
    hide Next;
    if net' != net { assert Nth(first, net.issued + 1) == Next(Nth(first, net.issued)); }
    forall x | 0 <= x < |net'.xs| ensures Ticketed(net'.xs[x], first, net'.issued) {
      if x < |net.xs| {
        assert Ticketed(net.xs[x], first, net.issued);
        GrowthKeeps(net, net', now, stopping, x);
      }
    }
  }

  lemma FullOn(net: Net, net': Net, first: int32, now: Instant, stopping: bool)
    requires first >= 1 && TableLive(net) && Numbered(net, first) && Young(net) && TableFull(net)
    requires Grows(net, net', now, stopping)
    ensures TableFull(net')
  {
    hide Next, Numbered, Young, TermsFit, Unanswered;
    NextIsFree(net, first);
    forall x | 0 <= x < |net'.xs| && !net'.xs[x].phase.Ended? ensures InTable(net', x) {
      if x < |net.xs| {
        GrowthKeeps(net, net', now, stopping, x);
        assert InTable(net, x);
      }
    }
  }

  lemma KeptNumbered(net: Net, net': Net, first: int32)
    requires Numbered(net, first) && net'.nextId == net.nextId && net'.issued == net.issued && |net'.xs| == |net.xs|
    requires forall x :: 0 <= x < |net.xs| ==> SameTicket(net.xs[x], net'.xs[x])
    ensures Numbered(net', first)
  {
    forall x | 0 <= x < |net'.xs| ensures Ticketed(net'.xs[x], first, net'.issued) {
      assert Ticketed(net.xs[x], first, net.issued) && SameTicket(net.xs[x], net'.xs[x]);
    }
  }

  lemma KeptFull(net: Net, net': Net)
    requires TableFull(net) && net'.table == net.table && |net'.xs| == |net.xs|
    requires forall x :: 0 <= x < |net.xs| ==> SameLife(net.xs[x], net'.xs[x])
    ensures TableFull(net')
  {
    forall x | 0 <= x < |net'.xs| && !net'.xs[x].phase.Ended? ensures InTable(net', x) {
      assert SameLife(net.xs[x], net'.xs[x]) && InTable(net, x);
    }
  }

  /** What an event does to the exchange it is about keeps its ticket; the others it leaves. */
  lemma LocalTickets(w: World, s: State, e: Event)
    requires Linked(s)
    ensures var net := LocalNet(w, s, e);
            && net.nextId == s.net.nextId && net.issued == s.net.issued && |net.xs| == |s.net.xs|
            && forall x :: 0 <= x < |s.net.xs| ==>
                 SameTicket(s.net.xs[x], net.xs[x]) && (s.net.xs[x].phase.Ended? ==> net.xs[x].phase.Ended?)
  {
    hide Deliver, OwnersKnown, CancelOf, Classify, Outstanding, TableKnown, OpsKnown;
    if Enabled(s, e) {
      match e
      case Datagram(bytes, from) => DeliverTickets(w, s, bytes, from);
      case Fires(x) => var cancel := FiringCancel(s, x);
      case _ =>
    }
  }

  lemma DeliverTickets(w: World, s: State, bytes: octets, from: Endpoint)
    requires TableKnown(s.net)
    ensures var net := Deliver(w, s, bytes, from);
            && net.nextId == s.net.nextId && net.issued == s.net.issued && |net.xs| == |s.net.xs|
            && forall x :: 0 <= x < |s.net.xs| ==>
                 SameTicket(s.net.xs[x], net.xs[x]) && (s.net.xs[x].phase.Ended? ==> net.xs[x].phase.Ended?)
  {
    hide Judge, Timely, Quotes, Answer, AnswerV2c;
    match w.arrival(bytes)
    case NotOurs =>
    case V2cArrival(msg) =>
      if msg.pdu.requestId in s.net.table { V2cAnswerKeeps(s.net.xs[s.net.table[msg.pdu.requestId]], msg.pdu); }
    case V3Arrival(msg) =>
      if msg.header.msgId in s.net.table {
        var x := s.net.table[msg.header.msgId];
        AnswerKeeps(s.net.xs[x], msg.security,
                    Judge(w, s.net.xs[x].pending.terms, Timely(s.cache, s.now, from, msg.security), bytes, from, msg));
      }
  }

  lemma LocalFull(w: World, s: State, e: Event)
    requires Linked(s) && TableFull(s.net)
    ensures TableFull(LocalNet(w, s, e))
  {
    hide TableFull, MovedNet, Deliver, OpsKnown, OwnersKnown, TableKnown, CancelOf;
    if Enabled(s, e) {
      match e
      case Datagram(bytes, from) =>
        DeliverKeeps(w, s, bytes, from);
        AnswersSameLife(w, s, bytes, from);
        KeptFull(s.net, Deliver(w, s, bytes, from));
      case Sent(x, error) => MovedFull(s, x, AfterSend(s.net.xs[x], s.now, s.stopping, error), error);
      case Fires(x) =>
        var cancel := FiringCancel(s, x);
        MovedFull(s, x, AfterWait(s.net.xs[x], s.now, s.stopping, cancel), None);
      case Signal(rid, _) => KeptFull(s.net, CancelWaits(s.net, rid));
      case StopOnStrand => KeptFull(s.net, WakeListed(s.net));
      case _ =>
    }
  }

  /** An exchange that leaves takes its own entry out of the table, and no other exchange's. */
  lemma MovedFull(s: State, x: nat, m: Move, sendError: Option<int>)
    requires TableFull(s.net) && x < |s.net.xs| && OwnersKnown(s.net, s.ops) && !s.net.xs[x].phase.Ended?
    requires m.Stay? ==> SameLife(s.net.xs[x], m.e)
    ensures TableFull(MovedNet(s, x, m, sendError))
  {
    hide Classify, CancelOf, OwnersKnown, OwnerKnown;
    var net := MovedNet(s, x, m, sendError);
    if m.Stay? {
      KeptFull(s.net, net);
    } else {
      assert InTable(s.net, x);
      forall y | 0 <= y < |net.xs| && !net.xs[y].phase.Ended? ensures InTable(net, y) { assert InTable(s.net, y); }
    }
  }

  predicate Indexed(net: Net, first: int32) {
    TableLive(net) && TableFull(net) && Numbered(net, first)
  }

  lemma StepIndexed(w: World, s: State, e: Event, first: int32)
    requires first >= 1 && Linked(s) && Indexed(s.net, first) && Young(s.net)
    ensures Indexed(Step(w, s, e).net, first)
  {
    hide Step, Grows, LocalNet, TableLive, TableFull, Numbered, Linked;
    StepFollows(w, s, e);
    var mid, net := LocalNet(w, s, e), Step(w, s, e).net;
    LocalTickets(w, s, e);
    KeptNumbered(s.net, mid, first);
    LocalTableLive(w, s, e);
    LocalFull(w, s, e);
    FullOn(mid, net, first, s.now, s.stopping);
    NumberedOn(mid, net, first, s.now, s.stopping);
    TableGrowsLive(mid, net, s.now, s.stopping);
  }

  /** In no state of the run has an exchange outlived a cycle of identifiers. */
  ghost predicate YoungRun(w: World, s: State, trace: seq<Event>)
    requires Linked(s)
    decreases |trace|
  {
    Young(Run(w, s, trace).net) && (trace != [] ==> YoungRun(w, s, trace[..|trace| - 1]))
  }

  /**
   * While no exchange outlives a cycle of identifiers, in every state of every run the next identifier is free in the
   * table, and the table's entries are exactly the exchanges still in their loop, each under its own identifier.
   */
  lemma {:induction false} TableIsExact(w: World, now: Instant, first: int32, trace: seq<Event>)
    requires first >= 1 && YoungRun(w, Initial(now, first), trace)
    ensures var net := Run(w, Initial(now, first), trace).net;
            && Indexed(net, first) && net.nextId !in net.table
            && (forall x :: 0 <= x < |net.xs| ==> (!net.xs[x].phase.Ended? <==> InTable(net, x)))
    decreases |trace|
  {
    hide Step, Young;
    if trace == [] {
      assert Indexed(Initial(now, first).net, first);
    } else {
      var before := trace[..|trace| - 1];
      TableIsExact(w, now, first, before);
      YoungBefore(w, Initial(now, first), before);
      StepIndexed(w, Run(w, Initial(now, first), before), trace[|trace| - 1], first);
    }
    var net := Run(w, Initial(now, first), trace).net;
    NextIsFree(net, first);
    forall x | 0 <= x < |net.xs| && InTable(net, x) ensures !net.xs[x].phase.Ended? {
      assert Listed(net, net.xs[x].pending.terms.id);
    }
  }

  lemma YoungBefore(w: World, s: State, trace: seq<Event>)
    requires Linked(s) && YoungRun(w, s, trace)
    ensures Young(Run(w, s, trace).net)
  {
  }

  /** A datagram changes at most the exchange it names, and the two protocols never cross. */
  lemma DatagramTouchesNamed(w: World, s: State, bytes: octets, from: Endpoint, x: nat)
    requires Linked(s) && TableLive(s.net) && x < |s.net.xs|
    ensures x < |Deliver(w, s, bytes, from).xs|
    ensures Deliver(w, s, bytes, from).xs[x] != s.net.xs[x] ==>
      && InTable(s.net, x)
      && match w.arrival(bytes)
         case NotOurs => false
         case V2cArrival(msg) => !s.net.xs[x].pending.terms.v3 && msg.pdu.requestId == s.net.xs[x].pending.terms.id
         case V3Arrival(msg) => s.net.xs[x].pending.terms.v3 && msg.header.msgId == s.net.xs[x].pending.terms.id
  {
    hide Judge, Timely, Answer, AnswerV2c;
    match w.arrival(bytes)
    case NotOurs =>
    case V2cArrival(msg) => if msg.pdu.requestId in s.net.table { assert Listed(s.net, msg.pdu.requestId); }
    case V3Arrival(msg) => if msg.header.msgId in s.net.table { assert Listed(s.net, msg.header.msgId); }
  }
}
