/** Runs in which an Engine is forgotten before a waiter runs, in either of the two windows there are for it. */
module ClientForgetting {
  import opened Octets
  import opened Errors
  import opened Pdus
  import opened V3Messages
  import opened ClientModel
  import opened ClientSteps
  import opened ClientRuns
  import opened ClientOps
  import opened ClientWitnesses

  const R1: octets := [1, 0, 0, 0, 4]
  const R2: octets := [2, 0, 0, 0, 4]
  const R3: octets := [3, 0, 0, 0, 4]
  const R4: octets := [4, 1, 5, 100, 2]

  const PROBE: Exchange := Probing(0, 7, 1)
  const ASK: Exchange := Asking(0, 7, 2)
  const PROBE_AGAIN: Exchange := Probing(1, 7, 3)
  const SYNC: Exchange := Syncing(1, 7, 4)

  const KNOWN: Cache := Cache(map[[9] := UNSYNCED], map[7 := [9]])
  const FORGOTTEN: Cache := Cache(map[[9] := UNSYNCED], map[])

  const WAITING: Request := Waiter(7, PLAIN, 0)
  const EXCHANGING: Request := WAITING.(place := Exchanging)
  const SECOND_ROUND: Request := WAITING.(round := 1, place := Parked(1))

  function Plain(stage: Stage): Discovery {
    Finding(7, PLAIN, stage)
  }

  /** The identity phase answered where no clock is wanted: the discovery is done. */
  lemma IdentityIsEnough(s: State, did: nat)
    requires did < |s.ops.ds| && s.ops.ds[did].creds == PLAIN && s.now == 0 && s.cache == NONE
    requires s.ops.ds[did].target == At(7)
    ensures Identified(W, s, did, UsmParameters([9], 0, 0, [], [], []))
         == s.(cache := KNOWN, ops := FinishDiscovery(s.ops, did, NoError))
  {
    assert map[][[9] := UNSYNCED] == KNOWN.engines;
    assert map[][7 := [9]] == KNOWN.engineAt;
  }

  /** A request's first round begins. */
  lemma Asks(s: State)
    requires |s.ops.rs| > 0 && s.ops.rs[0] == WAITING && s.cache == KNOWN && s.now == 0 && !s.stopping
    requires s.net.nextId == 2 && s.net.issued == 1 && 2 !in s.net.table
    ensures Ask(W, s, 0) == s.(net := Net(3, 2, s.net.xs + [ASK], s.net.table[2 := |s.net.xs|]),
                               ops := s.ops.(rs := s.ops.rs[0 := EXCHANGING]))
  {
    hide DataMessage;
    AskedThat(2);
  }

  lemma AskHeard()
    ensures var h := Heard(Timed(ASK), R2);
            && h.owner == ForData(0, 0) && ClientSteps.Due(h, 0) && h.pending.answered && h.pending.terms.id == 2
            && Over(h, NoError, 0) == Ended0(ASK, R2)
            && !h.pending.replyAuthenticated && h.pending.response.kind == Report
            && UsmStatsCounter(h.pending.response) == Some(UNKNOWN_ENGINE_IDS)
  {
    var name := USM_STATS + [4, 0];
    assert name[..|USM_STATS|] == USM_STATS && name[|USM_STATS|] == 4;
  }

  /** An unsigned Report in a first round: the Engine is forgotten, and the request waits on a discovery again. */
  lemma ReportForgets(s: State, p: Pending)
    requires |s.ops.rs| > 0 && s.ops.rs[0] == EXCHANGING && s.cache == KNOWN
    requires !p.replyAuthenticated && UsmStatsCounter(p.response) == Some(UNKNOWN_ENGINE_IDS)
    ensures Reported(W, s, 0, p) == s.(cache := FORGOTTEN, ops := Park(Again(s.ops, 0), 0))
  {
    hide UsmStatsCounter, Ask, Park;
    assert KNOWN.engineAt - {7} == map[];
  }

  //
  // While the second phase of the discovery is outstanding
  //

  function BothOps(r: Request, stage: Stage): Ops {
    Ops([r, Waiter(7, SIGNED, 1)], [Plain(Finished(NoError)), Finding(7, SIGNED, stage)], map[7 := 1])
  }

  const Q0: State := Initial(0, 1)
  const Q1: State := At0(Net(1, 0, [], map[]), NONE, Ops([WAITING], [Plain(Spawned)], map[7 := 0]))
  const Q2: State := At0(Net(2, 1, [PROBE], map[1 := 0]), NONE, Ops([WAITING], [Plain(Discovering)], map[7 := 0]))
  const Q3: State := Q2.(net := Net(2, 1, [Timed(PROBE)], map[1 := 0]))
  const Q4: State := Q2.(net := Net(2, 1, [Heard(Timed(PROBE), R1)], map[1 := 0]))
  const Q5: State := At0(Net(2, 1, [Ended0(PROBE, R1)], map[]), KNOWN,
                         Ops([WAITING], [Plain(Finished(NoError))], map[]))
  const Q6: State := At0(Net(3, 2, [Ended0(PROBE, R1), ASK], map[2 := 1]), KNOWN,
                         Ops([EXCHANGING], [Plain(Finished(NoError))], map[]))
  const Q7: State := Q6.(ops := BothOps(EXCHANGING, Spawned))
  const Q8: State := At0(Net(4, 3, [Ended0(PROBE, R1), ASK, PROBE_AGAIN], map[2 := 1, 3 := 2]), KNOWN,
                         BothOps(EXCHANGING, Discovering))
  const Q9: State := Q8.(net := Q8.net.(xs := [Ended0(PROBE, R1), ASK, Timed(PROBE_AGAIN)]))
  const Q10: State := Q8.(net := Q8.net.(xs := [Ended0(PROBE, R1), ASK, Heard(Timed(PROBE_AGAIN), R3)]))
  const Q11: State := Q8.(net := Net(5, 4, [Ended0(PROBE, R1), ASK, Ended0(PROBE_AGAIN, R3), SYNC],
                                     map[2 := 1, 4 := 3]))
  const Q12: State := Q8.(net := Net(5, 4, [Ended0(PROBE, R1), Timed(ASK), Ended0(PROBE_AGAIN, R3), SYNC],
                                     map[2 := 1, 4 := 3]))
  const Q13: State := Q8.(net := Net(5, 4, [Ended0(PROBE, R1), Heard(Timed(ASK), R2), Ended0(PROBE_AGAIN, R3), SYNC],
                                  map[2 := 1, 4 := 3]))
  const Q14: State := At0(Net(5, 4, [Ended0(PROBE, R1), Ended0(ASK, R2), Ended0(PROBE_AGAIN, R3), SYNC], map[4 := 3]),
                          FORGOTTEN, BothOps(SECOND_ROUND, Discovering))
  const Q15: State := Q14.(net := Q14.net.(xs := Q14.net.xs[..3] + [Timed(SYNC)]))
  const Q16: State := Q14.(net := Q14.net.(xs := Q14.net.xs[..3] + [Heard(Timed(SYNC), R4)]))

  lemma QAt1()
    ensures Linked(Q0) && Step(W, Q0, Call(At(7), ByUser(PLAIN), NO_PDU)) == Q1 && Linked(Q1)
  {
    hide Step;
    CallSteps(W, Q0, At(7), ByUser(PLAIN), NO_PDU);
  }

  lemma QAt2()
    ensures Linked(Q1) && Step(W, Q1, DiscoveryRuns(0)) == Q2 && Linked(Q2)
  {
    hide Step;
    QAt1();
    RunsSteps(W, Q1, 0);
  }

  lemma QAt3()
    ensures Linked(Q2) && Step(W, Q2, Sent(0, None)) == Q3 && Linked(Q3)
  {
    hide Step, Linked;
    QAt2();
    SentSteps(W, Q2, 0);
    assert Q2.net.xs[0 := Timed(PROBE)] == Q3.net.xs;
  }

  lemma QAt4()
    ensures Linked(Q3) && Step(W, Q3, Datagram(R1, 7)) == Q4 && Linked(Q4)
  {
    hide Step, Linked;
    QAt3();
    HeardSteps(W, Q3, R1, 7);
    assert Q3.net.xs[0 := Heard(Timed(PROBE), R1)] == Q4.net.xs;
  }

  lemma QAt5()
    ensures Linked(Q4) && Step(W, Q4, Fires(0)) == Q5 && Linked(Q5)
  {
    hide Step, Linked, Ended0, Heard, Timed, Probing, Asking, Syncing, Identified, FinishDiscovery;
    QAt4();
    ProbeHeard(0, 7, 1, R1);
    FiresSteps(W, Q4, 0);
    var m := Q4.(net := EndExchange(Q4.net, 0, NoError, 0));
    IdentityIsEnough(m, 0);
    assert m.net.xs == Q5.net.xs && m.net.table == Q5.net.table;
    assert Identified(W, m, 0, UsmParameters([9], 0, 0, [], [], [])) == Q5 by {
      assert FinishDiscovery(Q4.ops, 0, NoError) == Q5.ops by { Q5Ops(); }
    }
  }

  lemma Q5Ops()
    ensures FinishDiscovery(Q4.ops, 0, NoError) == Q5.ops
  {
    assert Q4.ops.ds[0 := Plain(Finished(NoError))] == Q5.ops.ds;
    assert Q4.ops.discovering - {7} == map[];
  }

  lemma QAt6()
    ensures Linked(Q5) && Step(W, Q5, WaiterRuns(0)) == Q6 && Linked(Q6)
  {
    hide Step, Linked, Ended0, Heard, Timed, Probing, Asking, Syncing, Ask;
    QAt5();
    WaiterSteps(W, Q5, 0);
    Asks(Q5);
    assert Q5.net.xs + [ASK] == Q6.net.xs && Q5.net.table[2 := 1] == Q6.net.table;
    assert Q5.ops.rs[0 := EXCHANGING] == Q6.ops.rs;
  }

  lemma QAt7()
    ensures Linked(Q6) && Step(W, Q6, Call(At(7), ByUser(SIGNED), NO_PDU)) == Q7 && Linked(Q7)
  {
    hide Step, Linked, Ended0, Heard, Timed, Probing, Asking, Syncing, Ask, Launch;
    QAt6();
    CallSteps(W, Q6, At(7), ByUser(SIGNED), NO_PDU);
    assert Q6.ops.discovering[7 := 1] == Q7.ops.discovering;
  }

  lemma QAt8()
    ensures Linked(Q7) && Step(W, Q7, DiscoveryRuns(1)) == Q8 && Linked(Q8)
  {
    hide Step, Linked, Ended0, Heard, Timed, Probing, Asking, Syncing, Identify;
    QAt7();
    RunsSteps(W, Q7, 1);
    Identifies(Q7);
    assert Q7.net.xs + [PROBE_AGAIN] == Q8.net.xs && Q7.net.table[3 := 2] == Q8.net.table;
    assert Q7.ops.ds[1 := Finding(7, SIGNED, Discovering)] == Q8.ops.ds;
  }

  lemma Identifies(s: State)
    requires |s.ops.ds| == 2 && s.ops.ds[1] == Finding(7, SIGNED, Spawned) && s.now == 0 && !s.stopping
    requires s.net.nextId == 3 && s.net.issued == 2 && 3 !in s.net.table
    ensures Identify(W, s, 1) == s.(net := Net(4, 3, s.net.xs + [PROBE_AGAIN], s.net.table[3 := |s.net.xs|]),
                                    ops := s.ops.(ds := s.ops.ds[1 := Finding(7, SIGNED, Discovering)]))
  {
  }

  lemma QAt9()
    ensures Linked(Q8) && Step(W, Q8, Sent(2, None)) == Q9 && Linked(Q9)
  {
    hide Step, Linked, Ended0, Asking, Heard;
    QAt8();
    SentSteps(W, Q8, 2);
    assert Q8.net.xs[2 := Timed(PROBE_AGAIN)] == Q9.net.xs;
  }

  lemma QAt10()
    ensures Linked(Q9) && Step(W, Q9, Datagram(R3, 7)) == Q10 && Linked(Q10)
  {
    hide Step, Linked, Ended0, Asking;
    QAt9();
    HeardSteps(W, Q9, R3, 7);
    assert Q9.net.xs[2 := Heard(Timed(PROBE_AGAIN), R3)] == Q10.net.xs;
  }

  const N10: Net := Net(4, 3, [Ended0(PROBE, R1), ASK, Ended0(PROBE_AGAIN, R3)], map[2 := 1])

  lemma Q11Ends()
    ensures EndExchange(Q10.net, 2, NoError, 0) == N10
  {
    hide Ended0, Heard, Timed, Probing, Asking;
    ProbeHeard(1, 7, 3, R3);
    assert Q10.net.xs[2 := Ended0(PROBE_AGAIN, R3)] == N10.xs;
    assert Q10.net.table - {3} == N10.table;
  }

  lemma Q11Identified()
    ensures Identified(W, Q10.(net := N10), 1, UsmParameters([9], 0, 0, [], [], [])) == Q11
  {
    hide Identified, Ended0, Heard, Timed, Probing, Asking, Syncing;
    OnToSync(Q10.(net := N10), 1, 4);
    assert N10.table[4 := 3] == Q11.net.table;
    assert KNOWN.engines[[9] := UNSYNCED] == KNOWN.engines && KNOWN.engineAt[7 := [9]] == KNOWN.engineAt;
    assert N10.xs + [SYNC] == Q11.net.xs;
  }

  lemma QAt11()
    ensures Linked(Q10) && Step(W, Q10, Fires(2)) == Q11 && Linked(Q11)
  {
    hide Step, Linked, Ended0, Heard, Timed, Probing, Asking, Syncing, Identified, EndExchange;
    QAt10();
    ProbeHeard(1, 7, 3, R3);
    FiresSteps(W, Q10, 2);
    Q11Ends();
    Q11Identified();
  }

  lemma QAt12()
    ensures Linked(Q11) && Step(W, Q11, Sent(1, None)) == Q12 && Linked(Q12)
  {
    hide Step, Linked, Ended0, Probing, Syncing, Heard;
    QAt11();
    SentSteps(W, Q11, 1);
    assert Q11.net.xs[1 := Timed(ASK)] == Q12.net.xs;
  }

  lemma QAt13()
    ensures Linked(Q12) && Step(W, Q12, Datagram(R2, 7)) == Q13 && Linked(Q13)
  {
    hide Step, Linked, Ended0, Probing, Syncing;
    QAt12();
    HeardSteps(W, Q12, R2, 7);
    assert Q12.net.xs[1 := Heard(Timed(ASK), R2)] == Q13.net.xs;
  }

  lemma Q14Ends()
    ensures EndExchange(Q13.net, 1, NoError, 0) == Q14.net
  {
    hide Ended0, Heard, Timed, Probing, Asking, Syncing;
    AskHeard();
    assert Q13.net.xs[1 := Ended0(ASK, R2)] == Q14.net.xs;
    assert Q13.net.table - {2} == Q14.net.table;
  }

  lemma Q14Parks()
    ensures Park(Again(Q13.ops, 0), 0) == Q14.ops
  {
    assert Park(Again(Q13.ops, 0), 0).rs == Q14.ops.rs;
  }

  lemma QAt14()
    ensures Linked(Q13) && Step(W, Q13, Fires(1)) == Q14 && Linked(Q14)
  {
    hide Step, Linked, Ended0, Heard, Timed, Probing, Asking, Syncing, Reported, EndExchange, UsmStatsCounter, Park,
         Again;
    QAt13();
    AskHeard();
    FiresSteps(W, Q13, 1);
    Q14Ends();
    var m := Q13.(net := Q14.net);
    ReportForgets(m, Q13.net.xs[1].pending);
    Q14Parks();
  }

  lemma QAt15()
    ensures Linked(Q14) && Step(W, Q14, Sent(3, None)) == Q15 && Linked(Q15)
  {
    hide Step, Linked, Ended0, Probing, Asking, Heard;
    QAt14();
    SentSteps(W, Q14, 3);
    assert Q14.net.xs[3 := Timed(SYNC)] == Q15.net.xs;
  }

  lemma QAt16()
    ensures Linked(Q15) && Step(W, Q15, Datagram(R4, 7)) == Q16 && Linked(Q16)
  {
    hide Step, Linked, Ended0, Probing, Asking;
    QAt15();
    HeardSteps(W, Q15, R4, 7);
    assert Q15.net.xs[3 := Heard(Timed(SYNC), R4)] == Q16.net.xs;
  }

  /**
   * The second phase's answer is recorded and the discovery succeeds, over an index that no longer names the Engine.
   */
  lemma SyncForgets()
    ensures Linked(Q16)
    ensures var s := Step(W, Q16, Fires(3));
            && Linked(s) && !s.stopping && s.cache.engineAt == map[] && |s.ops.rs| == 2 && |s.ops.ds| == 2
            && s.ops.rs == Q16.ops.rs && s.ops.ds[1].stage == Finished(NoError)
  {
    hide Step, Linked, Ended0, Probing, Asking;
    QAt16();
    FiresSteps(W, Q16, 3);
  }

  const SYNC_WINDOW: seq<Event> := [
    Call(At(7), ByUser(PLAIN), NO_PDU), DiscoveryRuns(0), Sent(0, None), Datagram(R1, 7), Fires(0), WaiterRuns(0),
    Call(At(7), ByUser(SIGNED), NO_PDU), DiscoveryRuns(1), Sent(2, None), Datagram(R3, 7), Fires(2),
    Sent(1, None), Datagram(R2, 7), Fires(1), Sent(3, None), Datagram(R4, 7)]

  lemma SyncWindowTold()
    ensures Linked(Q0) && Run(W, Q0, SYNC_WINDOW) == Q16
  {
    hide Step, Linked, Run, Ended0, Probing, Heard, Syncing, Asking, Timed, BothOps;
    QAt1(); QAt2(); QAt3(); QAt4(); QAt5(); QAt6(); QAt7(); QAt8();
    QAt9(); QAt10(); QAt11(); QAt12(); QAt13(); QAt14(); QAt15(); QAt16();
    Told(W, SYNC_WINDOW, [Q0, Q1, Q2, Q3, Q4, Q5, Q6, Q7, Q8, Q9, Q10, Q11, Q12, Q13, Q14, Q15, Q16]);
  }

  /**
   * A run from a fresh Client: an unsigned Report to one request makes the Client forget the Engine while another's
   * discovery is in its second phase. That discovery succeeds, and both requests waiting on it end in UnknownEngineId.
   */
  lemma ForgottenDuringSync()
    ensures Linked(Initial(0, 1))
    ensures var t := SYNC_WINDOW + [Fires(3)];
            var ops := Run(W, Initial(0, 1), t).ops;
            && |ops.rs| == 2 && |ops.ds| == 2 && ops.ds[1].stage == Finished(NoError)
            && ops.rs[0].place == Parked(1) && ops.rs[1].place == Parked(1)
            && var a, b := Run(W, Initial(0, 1), t + [WaiterRuns(1)]).ops,
                Run(W, Initial(0, 1), t + [WaiterRuns(0)]).ops;
               && 1 < |a.rs| && a.rs[1].place == Done(Failed(Fault(UnknownEngineId)))
               && 0 < |b.rs| && b.rs[0].place == Done(Failed(Fault(UnknownEngineId)))
  {
    hide Step, Linked, Run, Ended0, Probing, Heard, Syncing, Asking, Timed;
    SyncWindowTold();
    SyncForgets();
    var t := SYNC_WINDOW + [Fires(3)];
    RunSnoc(W, Q0, SYNC_WINDOW, Fires(3));
    var s := Run(W, Q0, t);
    RunSnoc(W, Q0, t, WaiterRuns(1));
    RunSnoc(W, Q0, t, WaiterRuns(0));
    WaiterFindsNothing(W, s, 1);
    WaiterFindsNothing(W, s, 0);
  }

  //
  // Between the discovery finishing and the waiter running
  //

  function PairOps(r: Request, stage: Stage): Ops {
    Ops([r, WAITING], [Plain(stage)], map[7 := 0])
  }

  function FoundOps(r: Request): Ops {
    Ops([r, WAITING], [Plain(Finished(NoError))], map[])
  }

  const V2: State := Q1.(ops := PairOps(WAITING, Spawned))
  const V3: State := At0(Net(2, 1, [PROBE], map[1 := 0]), NONE, PairOps(WAITING, Discovering))
  const V4: State := V3.(net := Net(2, 1, [Timed(PROBE)], map[1 := 0]))
  const V5: State := V3.(net := Net(2, 1, [Heard(Timed(PROBE), R1)], map[1 := 0]))
  const V6: State := At0(Net(2, 1, [Ended0(PROBE, R1)], map[]), KNOWN, FoundOps(WAITING))
  const V7: State := At0(Net(3, 2, [Ended0(PROBE, R1), ASK], map[2 := 1]), KNOWN, FoundOps(EXCHANGING))
  const V8: State := V7.(net := Net(3, 2, [Ended0(PROBE, R1), Timed(ASK)], map[2 := 1]))
  const V9: State := V7.(net := Net(3, 2, [Ended0(PROBE, R1), Heard(Timed(ASK), R2)], map[2 := 1]))

  lemma VAt2()
    ensures Linked(Q1) && Step(W, Q1, Call(At(7), ByUser(PLAIN), NO_PDU)) == V2 && Linked(V2)
  {
    hide Step;
    QAt1();
    CallSteps(W, Q1, At(7), ByUser(PLAIN), NO_PDU);
  }

  lemma VAt3()
    ensures Linked(V2) && Step(W, V2, DiscoveryRuns(0)) == V3 && Linked(V3)
  {
    hide Step;
    VAt2();
    RunsSteps(W, V2, 0);
  }

  lemma VAt4()
    ensures Linked(V3) && Step(W, V3, Sent(0, None)) == V4 && Linked(V4)
  {
    hide Step, Linked;
    VAt3();
    SentSteps(W, V3, 0);
    assert V3.net.xs[0 := Timed(PROBE)] == V4.net.xs;
  }

  lemma VAt5()
    ensures Linked(V4) && Step(W, V4, Datagram(R1, 7)) == V5 && Linked(V5)
  {
    hide Step, Linked;
    VAt4();
    HeardSteps(W, V4, R1, 7);
    assert V4.net.xs[0 := Heard(Timed(PROBE), R1)] == V5.net.xs;
  }

  lemma V6Ops()
    ensures FinishDiscovery(V5.ops, 0, NoError) == V6.ops
  {
    assert V5.ops.ds[0 := Plain(Finished(NoError))] == V6.ops.ds;
    assert V5.ops.discovering - {7} == map[];
  }

  lemma VAt6()
    ensures Linked(V5) && Step(W, V5, Fires(0)) == V6 && Linked(V6)
  {
    hide Step, Linked, Ended0, Heard, Timed, Probing, Asking, Syncing, Identified, FinishDiscovery;
    VAt5();
    ProbeHeard(0, 7, 1, R1);
    FiresSteps(W, V5, 0);
    var m := V5.(net := EndExchange(V5.net, 0, NoError, 0));
    IdentityIsEnough(m, 0);
    assert m.net.xs == V6.net.xs && m.net.table == V6.net.table;
    V6Ops();
  }

  lemma VAt7()
    ensures Linked(V6) && Step(W, V6, WaiterRuns(0)) == V7 && Linked(V7)
  {
    hide Step, Linked, Ended0, Heard, Timed, Probing, Asking, Syncing, Ask;
    VAt6();
    WaiterSteps(W, V6, 0);
    Asks(V6);
    assert V6.net.xs + [ASK] == V7.net.xs && V6.net.table[2 := 1] == V7.net.table;
    assert V6.ops.rs[0 := EXCHANGING] == V7.ops.rs;
  }

  lemma VAt8()
    ensures Linked(V7) && Step(W, V7, Sent(1, None)) == V8 && Linked(V8)
  {
    hide Step, Linked, Ended0, Probing;
    VAt7();
    SentSteps(W, V7, 1);
    assert V7.net.xs[1 := Timed(ASK)] == V8.net.xs;
  }

  lemma VAt9()
    ensures Linked(V8) && Step(W, V8, Datagram(R2, 7)) == V9 && Linked(V9)
  {
    hide Step, Linked, Ended0, Probing;
    VAt8();
    HeardSteps(W, V8, R2, 7);
    assert V8.net.xs[1 := Heard(Timed(ASK), R2)] == V9.net.xs;
  }

  lemma ReportBetween()
    ensures Linked(V9)
    ensures var s := Step(W, V9, Fires(1));
            && Linked(s) && !s.stopping && s.cache.engineAt == map[] && |s.ops.rs| == 2 && s.ops.rs[1] == WAITING
            && |s.ops.ds| == 2 && s.ops.ds[0].stage == Finished(NoError)
  {
    hide Step, Linked, Ended0, Heard, Timed, Probing, Asking, Reported, UsmStatsCounter;
    VAt9();
    AskHeard();
    FiresSteps(W, V9, 1);
    ReportForgets(V9.(net := EndExchange(V9.net, 1, NoError, 0)), V9.net.xs[1].pending);
  }

  const QUEUE_WINDOW: seq<Event> := [
    Call(At(7), ByUser(PLAIN), NO_PDU), Call(At(7), ByUser(PLAIN), NO_PDU), DiscoveryRuns(0), Sent(0, None),
    Datagram(R1, 7), Fires(0), WaiterRuns(0), Sent(1, None), Datagram(R2, 7)]

  lemma QueueWindowTold()
    ensures Linked(Q0) && Run(W, Q0, QUEUE_WINDOW) == V9
  {
    hide Step, Linked, Run, Ended0, Probing, Heard, Asking, Timed, PairOps, FoundOps;
    QAt1(); VAt2(); VAt3(); VAt4(); VAt5(); VAt6(); VAt7(); VAt8(); VAt9();
    Told(W, QUEUE_WINDOW, [Q0, Q1, V2, V3, V4, V5, V6, V7, V8, V9]);
  }

  /**
   * A run from a fresh Client: two requests wait on one discovery, it succeeds, the first runs and is answered with an
   * unsigned Report before the second has run; the second then ends in UnknownEngineId.
   */
  lemma ForgottenWhileQueued()
    ensures Linked(Initial(0, 1))
    ensures var t := QUEUE_WINDOW + [Fires(1)];
            var ops, after := Run(W, Initial(0, 1), t).ops, Run(W, Initial(0, 1), t + [WaiterRuns(1)]).ops;
            && |ops.rs| == 2 && ops.rs[1].place == Parked(0) && |ops.ds| == 2 && ops.ds[0].stage == Finished(NoError)
            && 1 < |after.rs| && after.rs[1].place == Done(Failed(Fault(UnknownEngineId)))
  {
    hide Step, Linked, Run, Ended0, Probing, Heard, Asking, Timed;
    QueueWindowTold();
    ReportBetween();
    var t := QUEUE_WINDOW + [Fires(1)];
    RunSnoc(W, Q0, QUEUE_WINDOW, Fires(1));
    RunSnoc(W, Q0, t, WaiterRuns(1));
    WaiterFindsNothing(W, Run(W, Q0, t), 1);
  }
}
