/** Runs that show what the theorems about clocks and waiters allow: each from a fresh Client, event by event. */
module ClientWitnesses {
  import opened Octets
  import opened Errors
  import opened BerGrammar
  import opened Pdus
  import opened Usm
  import opened V3Messages
  import opened ClientModel
  import opened ClientSteps
  import opened ClientRuns
  import opened ClientClocks

  /** A run told by the states it passes through. */
  lemma {:induction false} Told(w: World, trace: seq<Event>, states: seq<State>)
    requires |states| == |trace| + 1
    requires forall i :: 0 <= i < |trace| ==> Linked(states[i]) && Step(w, states[i], trace[i]) == states[i + 1]
    requires Linked(states[0])
    ensures Run(w, states[0], trace) == states[|trace|]
    decreases |trace|
  {
    hide Step, Linked;
    if trace != [] {
      var n := |trace| - 1;
      Told(w, trace[..n], states[..n + 1]);
      RunSnoc(w, states[0], trace[..n], trace[n]);
      assert trace[..n] + [trace[n]] == trace;
    }
  }

  /** Datagrams of five octets: the identifier, whether signed, boots, time, and the counter of the Report inside. */
  function Decoded(d: octets): Arrival {
    if |d| != 5 then NotOurs
    else
      V3Arrival(V3Message(HeaderFor(d[0], if d[1] == 1 then AuthNoPriv else NoAuthNoPriv),
                          UsmParameters([9], d[2], d[3], [], [], []),
                          ScopedPdu([], [], Pdu(Report, 0, 0, 0, [Varbind(USM_STATS + [d[4], 0], Null)])), [], 0))
  }

  const W: World := World(
    (d: octets) => Decoded(d),
    (d: octets, msg: V3Message, auth: AuthProtocol, key: octets) => IsAuthenticated(msg.header.level),
    (msg: V3Message, priv: PrivProtocol, key: octets) => Err(DecryptionFailed),
    (creds: Credentials, id: octets) => Ok([1]),
    (creds: Credentials, id: octets) => Err(UnsupportedPrivProtocol),
    (out: Outgoing) => None,
    (n: nat) => None)

  const PLAIN: Credentials := Credentials([], NoAuthNoPriv, NoAuth, [], NoPriv, [])
  const SIGNED: Credentials := Credentials([], AuthNoPriv, Md5, [1], NoPriv, [])

  function At(ep: Endpoint): Target {
    Target(ep, 1000, 0)
  }

  function Probing(did: nat, ep: Endpoint, id: int32): Exchange
    requires id >= 1
  {
    Fresh(ForIdentify(did), At(ep), IdentifyTerms(id, ep),
          Probe(id, NoAuthNoPriv, NO_SECURITY, NoAuth, [], NoPriv, []), 0, id - 1)
  }

  function Syncing(did: nat, ep: Endpoint, id: int32): Exchange
    requires id >= 1
  {
    Fresh(ForSync(did), At(ep), SyncTerms(id, ep, [9], SIGNED, [1], []),
          Probe(id, AuthNoPriv, UsmParameters([9], 0, 0, [], [], []), Md5, [1], NoPriv, []), 0, id - 1)
  }

  /** The deadline set. */
  function Timed(e: Exchange): Exchange {
    e.(phase := Waiting(1000), woken := false, armed := 0)
  }

  /** Answered by the datagram and woken. */
  function Heard(e: Exchange, d: octets): Exchange
    requires |d| == 5
  {
    var msg := Decoded(d).v3;
    Answer(e, msg.security, Accepted(d[1] == 1, msg.scoped.pdu))
  }

  function Asking(rid: nat, ep: Endpoint, id: int32): Exchange
    requires id >= 1
  {
    Fresh(ForData(rid, 0), At(ep), DataTerms(id, ep, UNSYNCED, PLAIN, [], []),
          V3Out(HeaderFor(id, NoAuthNoPriv), UsmParameters([9], 0, 0, [], [], []),
                ScopedPdu([9], [], NO_PDU.(requestId := id)),
                NoAuth, [], NoPriv, []), 0, id - 1)
  }

  lemma AskedThat(id: int32)
    ensures DataMessage(id, 0, UNSYNCED, PLAIN, NO_PDU, [], [])
         == V3Out(HeaderFor(id, NoAuthNoPriv), UsmParameters([9], 0, 0, [], [], []),
                  ScopedPdu([9], [], NO_PDU.(requestId := id)), NoAuth, [], NoPriv, [])
  {
  }

  const UNSYNCED: EngineState := EngineState([9], 0, 0, 0, false)

  /** Answered, resumed and over. */
  function Ended0(e: Exchange, d: octets): Exchange
    requires |d| == 5
  {
    Over(Heard(Timed(e), d), NoError, 0)
  }

  function Waiter(ep: Endpoint, creds: Credentials, did: nat): Request {
    Request(At(ep), ByUser(creds), NO_PDU, 0, NotCancelled, false, Parked(did))
  }

  function Finding(ep: Endpoint, creds: Credentials, stage: Stage): Discovery {
    Discovery(At(ep), creds, stage)
  }

  function At0(net: Net, cache: Cache, ops: Ops): State {
    State(0, false, false, net, cache, ops)
  }

  // What each kind of event comes to when nothing stands in its way.

  lemma SentSteps(w: World, s: State, x: nat)
    requires Linked(s) && x < |s.net.xs| && s.net.xs[x].phase == Sending && !s.stopping
    ensures var e := s.net.xs[x].(phase := Waiting(s.now + s.net.xs[x].timeout), woken := false, armed := s.now);
            Step(w, s, Sent(x, None)) == s.(net := s.net.(xs := s.net.xs[x := e])) && Linked(Step(w, s, Sent(x, None)))
  {
    hide OwnersKnown, TableKnown, OpsKnown;
    StepFollows(w, s, Sent(x, None));
  }

  lemma HeardSteps(w: World, s: State, d: octets, from: Endpoint)
    requires Linked(s)
    ensures Step(w, s, Datagram(d, from)) == s.(net := Deliver(w, s, d, from)) && Linked(Step(w, s, Datagram(d, from)))
  {
    hide OwnersKnown, TableKnown, OpsKnown, Deliver;
    StepFollows(w, s, Datagram(d, from));
  }

  lemma RunsSteps(w: World, s: State, did: nat)
    requires Linked(s) && did < |s.ops.ds| && s.ops.ds[did].stage == Spawned
    ensures Step(w, s, DiscoveryRuns(did)) == Identify(w, s, did) && Linked(Identify(w, s, did))
  {
    hide OwnersKnown, TableKnown, OpsKnown, Identify;
    StepFollows(w, s, DiscoveryRuns(did));
  }

  lemma CallSteps(w: World, s: State, target: Target, auth: Auth, pdu: Pdu)
    requires Linked(s)
    ensures Step(w, s, Call(target, auth, pdu)) == StartRequest(w, s, target, auth, pdu)
    ensures Linked(StartRequest(w, s, target, auth, pdu))
  {
    hide OwnersKnown, TableKnown, OpsKnown, StartRequest;
    StepFollows(w, s, Call(target, auth, pdu));
  }

  lemma WaiterSteps(w: World, s: State, rid: nat)
    requires Linked(s) && rid < |s.ops.rs| && s.ops.rs[rid].place.Parked? && s.ops.rs[rid].auth.ByUser?
    requires s.ops.rs[rid].place.did < |s.ops.ds| && s.ops.ds[s.ops.rs[rid].place.did].stage == Finished(NoError)
    requires !s.stopping && s.ops.rs[rid].cancel == NotCancelled
    ensures Step(w, s, WaiterRuns(rid)) == Ask(w, s, rid) && Linked(Ask(w, s, rid))
  {
    hide OwnersKnown, TableKnown, Ask;
    StepFollows(w, s, WaiterRuns(rid));
  }

  lemma FiresSteps(w: World, s: State, x: nat)
    requires Linked(s) && x < |s.net.xs| && Due(s.net.xs[x], s.now) && s.net.xs[x].pending.answered && !s.stopping
    requires OwnerKnown(s.net.xs[x].owner, s.ops) && CancelOf(s.ops, s.net.xs[x].owner) == NotCancelled
    ensures Step(w, s, Fires(x))
         == Succeed(w, s.(net := EndExchange(s.net, x, NoError, s.now)), s.net.xs[x].owner, s.net.xs[x].pending)
    ensures Linked(Step(w, s, Fires(x)))
  {
    hide OwnersKnown, TableKnown, OpsKnown, Succeed;
    StepFollows(w, s, Fires(x));
  }

  /** The identity phase answered for an Engine whose clock is wanted and not yet trusted: on to the second phase. */
  lemma OnToSync(s: State, did: nat, id: int32)
    requires did < |s.ops.ds| && s.ops.ds[did].creds == SIGNED && s.ops.ds[did].target.retries == 0
    requires s.net.nextId == id >= 1 && s.net.issued == id - 1 && id < 100 && s.now == 0 && !s.stopping
    requires id !in s.net.table && s.ops.ds[did].target == At(s.ops.ds[did].target.endpoint)
    requires [9] in s.cache.engines ==> s.cache.engines[[9]] == UNSYNCED
    ensures var ep := s.ops.ds[did].target.endpoint;
            Identified(W, s, did, UsmParameters([9], 0, 0, [], [], []))
            == s.(net := Net(id + 1, id, s.net.xs + [Syncing(did, ep, id)], s.net.table[id := |s.net.xs|]),
                  cache := Cache(s.cache.engines[[9] := UNSYNCED], s.cache.engineAt[ep := [9]]))
  {
  }

  /** An identity phase answered by an unsigned Report from the Engine [9] is due. */
  lemma ProbeHeard(did: nat, ep: Endpoint, id: int32, d: octets)
    requires 1 <= id && |d| == 5 && d[1] == 0 && d[2] == 0 && d[3] == 0
    ensures var h := Heard(Timed(Probing(did, ep, id)), d);
            && h.owner == ForIdentify(did) && Due(h, 0) && h.pending.answered && h.pending.terms.id == id
            && h.pending.security == UsmParameters([9], 0, 0, [], [], [])
            && Over(h, NoError, 0) == Ended0(Probing(did, ep, id), d)
  {
  }

  //
  // Two endpoints of one Engine: a trusted clock that goes back
  //

  const I7: octets := [1, 0, 0, 0, 4]
  const I8: octets := [2, 0, 0, 0, 4]
  const S7: octets := [3, 1, 5, 100, 2]
  const S8: octets := [4, 1, 3, 50, 2]

  const NONE: Cache := Cache(map[], map[])

  function TwoOps(a: Stage, b: Stage): Ops {
    Ops([Waiter(7, SIGNED, 0), Waiter(8, SIGNED, 1)], [Finding(7, SIGNED, a), Finding(8, SIGNED, b)],
        map[7 := 0, 8 := 1])
  }

  const C0: State := Initial(0, 1)
  const C1: State := At0(Net(1, 0, [], map[]), NONE,
                         Ops([Waiter(7, SIGNED, 0)], [Finding(7, SIGNED, Spawned)], map[7 := 0]))
  const C2: State := At0(Net(1, 0, [], map[]), NONE, TwoOps(Spawned, Spawned))
  const C3: State := At0(Net(2, 1, [Probing(0, 7, 1)], map[1 := 0]), NONE, TwoOps(Discovering, Spawned))
  const C4: State := At0(Net(3, 2, [Probing(0, 7, 1), Probing(1, 8, 2)], map[1 := 0, 2 := 1]), NONE,
                         TwoOps(Discovering, Discovering))
  const C5: State := C4.(net := C4.net.(xs := [Timed(Probing(0, 7, 1)), Probing(1, 8, 2)]))
  const C6: State := C4.(net := C4.net.(xs := [Timed(Probing(0, 7, 1)), Timed(Probing(1, 8, 2))]))
  const C7: State := C4.(net := C4.net.(xs := [Heard(Timed(Probing(0, 7, 1)), I7), Timed(Probing(1, 8, 2))]))
  const C8: State := C4.(net := C4.net.(xs := [Heard(Timed(Probing(0, 7, 1)), I7), Heard(Timed(Probing(1, 8, 2)), I8)]))
  const C9: State := At0(Net(4, 3, [Ended0(Probing(0, 7, 1), I7), Heard(Timed(Probing(1, 8, 2)), I8), Syncing(0, 7, 3)],
                             map[2 := 1, 3 := 2]),
                         Cache(map[[9] := UNSYNCED], map[7 := [9]]), TwoOps(Discovering, Discovering))
  const C10: State := At0(Net(5, 4, [Ended0(Probing(0, 7, 1), I7), Ended0(Probing(1, 8, 2), I8), Syncing(0, 7, 3),
                                     Syncing(1, 8, 4)], map[3 := 2, 4 := 3]),
                          Cache(map[[9] := UNSYNCED], map[7 := [9], 8 := [9]]), TwoOps(Discovering, Discovering))
  const C11: State := C10.(net := C10.net.(xs := C10.net.xs[..2] + [Timed(Syncing(0, 7, 3)), Syncing(1, 8, 4)]))
  const C12: State := C10.(net := C10.net.(xs := C10.net.xs[..2] + [Timed(Syncing(0, 7, 3)), Timed(Syncing(1, 8, 4))]))
  const C13: State := C10.(net := C10.net.(xs := C10.net.xs[..2]
                                           + [Heard(Timed(Syncing(0, 7, 3)), S7), Timed(Syncing(1, 8, 4))]))
  const C14: State :=
    C10.(net := C10.net.(xs := C10.net.xs[..2]
                         + [Heard(Timed(Syncing(0, 7, 3)), S7), Heard(Timed(Syncing(1, 8, 4)), S8)]))

  lemma Clock1()
    ensures Linked(C0) && Step(W, C0, Call(At(7), ByUser(SIGNED), NO_PDU)) == C1 && Linked(C1)
  {
    hide Step;
    CallSteps(W, C0, At(7), ByUser(SIGNED), NO_PDU);
  }

  lemma Clock2()
    ensures Linked(C1) && Step(W, C1, Call(At(8), ByUser(SIGNED), NO_PDU)) == C2 && Linked(C2)
  {
    hide Step;
    Clock1();
    CallSteps(W, C1, At(8), ByUser(SIGNED), NO_PDU);
  }

  lemma Clock3()
    ensures Linked(C2) && Step(W, C2, DiscoveryRuns(0)) == C3 && Linked(C3)
  {
    hide Step;
    Clock2();
    RunsSteps(W, C2, 0);
  }

  lemma Clock4()
    ensures Linked(C3) && Step(W, C3, DiscoveryRuns(1)) == C4 && Linked(C4)
  {
    hide Step;
    Clock3();
    RunsSteps(W, C3, 1);
  }

  lemma Clock6()
    ensures Linked(C4) && Step(W, C4, Sent(0, None)) == C5 && Linked(C5)
    ensures Step(W, C5, Sent(1, None)) == C6 && Linked(C6)
  {
    hide Step;
    Clock4();
    SentSteps(W, C4, 0);
    SentSteps(W, C5, 1);
  }

  lemma Clock7()
    ensures Linked(C6) && Step(W, C6, Datagram(I7, 7)) == C7 && Linked(C7)
  {
    hide Step;
    Clock6();
    HeardSteps(W, C6, I7, 7);
  }

  lemma Clock8()
    ensures Linked(C7) && Step(W, C7, Datagram(I8, 8)) == C8 && Linked(C8)
  {
    hide Step;
    Clock7();
    HeardSteps(W, C7, I8, 8);
  }

  lemma Clock9()
    ensures Linked(C8) && Step(W, C8, Fires(0)) == C9 && Linked(C9)
  {
    hide Step, Heard, Timed, Probing, Syncing, Ended0, Identified, EnsureEngine, FinishRequest;
    Clock8();
    ProbeHeard(0, 7, 1, I7);
    FiresSteps(W, C8, 0);
    var m := C8.(net := EndExchange(C8.net, 0, NoError, 0));
    OnToSync(m, 0, 3);
    assert m.net.table[3 := 2] == C9.net.table;
    assert Identified(W, m, 0, UsmParameters([9], 0, 0, [], [], [])) == C9;
  }

  const N9: Net := Net(4, 3, [Ended0(Probing(0, 7, 1), I7), Ended0(Probing(1, 8, 2), I8), Syncing(0, 7, 3)],
                       map[3 := 2])

  lemma Clock10Ends()
    ensures EndExchange(C9.net, 1, NoError, 0) == N9
  {
    hide Heard, Timed, Probing, Syncing, Ended0;
    ProbeHeard(1, 8, 2, I8);
    assert C9.net.xs[1 := Ended0(Probing(1, 8, 2), I8)] == N9.xs;
    assert C9.net.table - {2} == N9.table;
  }

  lemma Clock10Identified()
    ensures Identified(W, C9.(net := N9), 1, UsmParameters([9], 0, 0, [], [], [])) == C10
  {
    hide Identified, Syncing, Ended0, Heard, Probing;
    OnToSync(C9.(net := N9), 1, 4);
    assert N9.table[4 := 3] == C10.net.table;
    assert C9.cache.engines[[9] := UNSYNCED] == C10.cache.engines;
    assert C9.cache.engineAt[8 := [9]] == C10.cache.engineAt;
    assert N9.xs + [Syncing(1, 8, 4)] == C10.net.xs;
  }

  lemma Clock10()
    ensures Linked(C9) && Step(W, C9, Fires(1)) == C10 && Linked(C10)
  {
    hide Step, Heard, Timed, Probing, Syncing, Ended0, Identified, EndExchange;
    Clock9();
    ProbeHeard(1, 8, 2, I8);
    FiresSteps(W, C9, 1);
    Clock10Ends();
    Clock10Identified();
  }

  lemma Clock11()
    ensures Linked(C10) && Step(W, C10, Sent(2, None)) == C11 && Linked(C11)
  {
    hide Step, Ended0, Probing, Heard, Linked;
    Clock10();
    SentSteps(W, C10, 2);
    assert C10.net.xs[2 := Timed(Syncing(0, 7, 3))] == C11.net.xs;
  }

  lemma Clock12()
    ensures Linked(C11) && Step(W, C11, Sent(3, None)) == C12 && Linked(C12)
  {
    hide Step, Ended0, Probing, Heard, Linked;
    Clock11();
    SentSteps(W, C11, 3);
    assert C11.net.xs[3 := Timed(Syncing(1, 8, 4))] == C12.net.xs;
  }

  lemma Clock13()
    ensures Linked(C12) && Step(W, C12, Datagram(S7, 7)) == C13 && Linked(C13)
  {
    hide Step, Ended0, Probing, Linked;
    Clock12();
    HeardSteps(W, C12, S7, 7);
    assert C12.net.xs[2 := Heard(C12.net.xs[2], S7)] == C13.net.xs;
  }

  lemma Clock14()
    ensures Linked(C13) && Step(W, C13, Datagram(S8, 8)) == C14 && Linked(C14)
  {
    hide Step, Ended0, Probing, Linked;
    Clock13();
    HeardSteps(W, C13, S8, 8);
    assert C13.net.xs[3 := Heard(C13.net.xs[3], S8)] == C14.net.xs;
  }

  const CLOCK_RUN: seq<Event> := [
    Call(At(7), ByUser(SIGNED), NO_PDU), Call(At(8), ByUser(SIGNED), NO_PDU), DiscoveryRuns(0), DiscoveryRuns(1),
    Sent(0, None), Sent(1, None), Datagram(I7, 7), Datagram(I8, 8), Fires(0), Fires(1),
    Sent(2, None), Sent(3, None), Datagram(S7, 7), Datagram(S8, 8)]

  lemma ClockRunTold()
    ensures Linked(C0) && Run(W, C0, CLOCK_RUN) == C14 && Linked(C14)
  {
    hide Step, Linked, Run, Ended0, Probing, Heard, Syncing, Timed, TwoOps;
    Clock1(); Clock2(); Clock3(); Clock4(); Clock6(); Clock7(); Clock8(); Clock9();
    Clock10(); Clock11(); Clock12(); Clock13(); Clock14();
    Told(W, CLOCK_RUN, [C0, C1, C2, C3, C4, C5, C6, C7, C8, C9, C10, C11, C12, C13, C14]);
  }

  lemma BothSyncsDue()
    ensures SyncDue(C14, 2, [9]) && SyncDue(C14, 3, [9])
    ensures ClockIn(C14.net.xs[2].pending.security) == Clock(5, 100)
    ensures ClockIn(C14.net.xs[3].pending.security) == Clock(3, 50)
  {
    hide Ended0, Probing;
  }

  /**
   * A run from a fresh Client in which a trusted clock goes back. Two requests reach one Engine at two endpoints; both
   * time-sync phases are answered, signed; the answer with boots 5 is recorded, and then the one with boots 3 over it.
   */
  lemma TrustedClockGoesBack()
    ensures Linked(Initial(0, 1))
    ensures var before, after := Run(W, Initial(0, 1), CLOCK_RUN + [Fires(2)]).cache,
                                 Run(W, Initial(0, 1), CLOCK_RUN + [Fires(2)] + [Fires(3)]).cache;
            && Known(before, [9]) && ClockOf(before.engines[[9]]) == Clock(5, 100)
            && Known(after, [9]) && ClockOf(after.engines[[9]]) == Clock(3, 50)
            && !NotAfter(ClockOf(before.engines[[9]]), ClockOf(after.engines[[9]]))
  {
    hide Step, Linked, Run, SyncDue, Ended0, Probing, Heard, Syncing, Timed, TwoOps;
    ClockRunTold();
    BothSyncsDue();
    RunSnoc(W, C0, CLOCK_RUN, Fires(2));
    RunSnoc(W, C0, CLOCK_RUN + [Fires(2)], Fires(3));
    LaterBaselineStands(W, C14, 2, 3, [9]);
  }
}
