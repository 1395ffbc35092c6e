/** The clocks the Client trusts: where each came from, and the one case in which a clock goes back. */
module ClientClocks {
  import opened Octets
  import opened Errors
  import opened Pdus
  import opened Usm
  import opened V3Messages
  import opened ClientModel
  import opened ClientSteps
  import opened ClientFrames
  import opened ClientRuns
  import opened ClientExchanges
  import opened ClientTrust

  //
  // Observations in any order
  //

  /** A boots count and a time within it, in the order of section 2.2.3 of RFC 3414. */
  datatype Clock = Clock(boots: int32, time: int32)

  predicate NotAfter(a: Clock, b: Clock) {
    a.boots < b.boots || (a.boots == b.boots && a.time <= b.time)
  }

  function ClockOf(e: EngineState): Clock {
    Clock(e.boots, e.time)
  }

  function ClockIn(u: UsmParameters): Clock {
    Clock(u.boots, u.time)
  }

  /** One observation after another, each at its own instant. */
  function ObserveAll(e: EngineState, seen: seq<(Clock, Instant)>): EngineState
    decreases |seen|
  {
    if seen == [] then e
    else
      var n := |seen| - 1;
      Observed(ObserveAll(e, seen[..n]), seen[n].0.boots, seen[n].0.time, seen[n].1)
  }

  predicate Counts(c: Clock) {
    c.boots != BOOTS_CEILING
  }

  /** A clock is the greatest of the one started with and all that were observed below the ceiling. */
  ghost predicate Greatest(c: Clock, start: Clock, seen: seq<(Clock, Instant)>) {
    && (c == start || exists i :: 0 <= i < |seen| && seen[i].0 == c && Counts(c))
    && NotAfter(start, c)
    && forall i :: 0 <= i < |seen| && Counts(seen[i].0) ==> NotAfter(seen[i].0, c)
  }

  /** The cached clock is the greatest observed, and it is trusted as soon as one observation moved it. */
  lemma {:induction false} ObservesGreatest(e: EngineState, seen: seq<(Clock, Instant)>)
    ensures Greatest(ClockOf(ObserveAll(e, seen)), ClockOf(e), seen)
    ensures e.timeSynced ==> ObserveAll(e, seen).timeSynced
    ensures ObserveAll(e, seen).engineId == e.engineId
    decreases |seen|
  {
    if seen != [] {
      var n := |seen| - 1;
      ObservesGreatest(e, seen[..n]);
      var before, after := ClockOf(ObserveAll(e, seen[..n])), ClockOf(ObserveAll(e, seen));
      assert forall i :: 0 <= i < n ==> seen[..n][i] == seen[i];
      assert after == before || (seen[n].0 == after && Counts(after));
      if after == before && before != ClockOf(e) {
        var i :| 0 <= i < n && seen[..n][i].0 == before && Counts(before);
        assert seen[i].0 == after;
      }
    }
  }

  /** Every clock of the one is among the other's. */
  ghost predicate Within(a: seq<(Clock, Instant)>, b: seq<(Clock, Instant)>) {
    forall i :: 0 <= i < |a| ==> exists j :: 0 <= j < |b| && b[j].0 == a[i].0
  }

  /** So the order of arrival does not matter, nor how often each was seen. */
  lemma OrderIrrelevant(e: EngineState, a: seq<(Clock, Instant)>, b: seq<(Clock, Instant)>)
    requires Within(a, b) && Within(b, a)
    ensures ClockOf(ObserveAll(e, a)) == ClockOf(ObserveAll(e, b))
  {
    hide ObserveAll, Within, Greatest;
    ObservesGreatest(e, a);
    ObservesGreatest(e, b);
    GreatestNotAfter(ClockOf(ObserveAll(e, a)), ClockOf(ObserveAll(e, b)), ClockOf(e), a, b);
    GreatestNotAfter(ClockOf(ObserveAll(e, b)), ClockOf(ObserveAll(e, a)), ClockOf(e), b, a);
  }

  lemma GreatestNotAfter(c: Clock, d: Clock, start: Clock, a: seq<(Clock, Instant)>, b: seq<(Clock, Instant)>)
    requires Greatest(c, start, a) && Greatest(d, start, b)
    requires Within(a, b)
    ensures NotAfter(c, d)
  {
    if c != start {
      var i :| 0 <= i < |a| && a[i].0 == c && Counts(c);
      var j :| 0 <= j < |b| && b[j].0 == a[i].0;
      assert Counts(b[j].0);
    }
  }

  /**
   * Timeliness, in milliseconds of the local clock. Against an untrusted clock everything is timely. Against a
   * trusted one nothing at the ceiling is; a later boot is and an earlier one is not; and within a boot a message is
   * timely for as long as it is less than 151 seconds since the Engine's clock must have shown its time.
   */
  lemma TimelyMeans(e: EngineState, boots: int32, time: int32, now: Instant)
    requires e.at <= now
    ensures !e.timeSynced ==> TimelyFor(e, boots, time, now)
    ensures e.timeSynced && (boots == 0x7FFF_FFFF || e.boots == 0x7FFF_FFFF) ==> !TimelyFor(e, boots, time, now)
    ensures e.timeSynced && boots != 0x7FFF_FFFF && e.boots != 0x7FFF_FFFF && boots != e.boots ==>
              (TimelyFor(e, boots, time, now) <==> e.boots < boots)
    ensures e.timeSynced && boots != 0x7FFF_FFFF && e.boots == boots ==>
              (TimelyFor(e, boots, time, now) <==> now - e.at < (time - e.time + 151) * 1000)
  {
  }

  /**
   * A request carries the Engine's boots and its clock moved on by the whole seconds since it was learnt, up to the
   * ceiling 2^31 - 1.
   */
  lemma SentClock(id: int32, now: Instant, e: EngineState, creds: Credentials, pdu: Pdu, key: octets, privKey: octets)
    requires e.at <= now
    ensures var u, seconds := DataMessage(id, now, e, creds, pdu, key, privKey).usm, Elapsed(now, e.at);
            && u.boots == e.boots && seconds * 1000 <= now - e.at < (seconds + 1) * 1000
            && (u.time as int == e.time + seconds || (u.time == 0x7FFF_FFFF && e.time + seconds > 0x7FFF_FFFF))
  {
  }

  //
  // What a step does to the cache
  //

  /** The exchange whose loop this event ends with an answer, if it does. */
  function Answering(s: State, e: Event): Option<nat>
    requires Linked(s)
  {
    if !Enabled(s, e) then None
    else
      match e
      case Sent(x, error) =>
        if AfterSend(s.net.xs[x], s.now, s.stopping, error).Leave? && Succeeds(s, x, error) then Some(x) else None
      case Fires(x) =>
        if AfterWait(s.net.xs[x], s.now, s.stopping, CancelOf(s.ops, s.net.xs[x].owner)).Leave? && Succeeds(s, x, None)
        then Some(x) else None
      case _ => None
  }

  predicate Succeeds(s: State, x: nat, error: Option<int>)
    requires x < |s.net.xs| && OwnersKnown(s.net, s.ops)
  {
    Classify(s.stopping, CancelOf(s.ops, s.net.xs[x].owner), s.net.xs[x].pending, error) == NoError
  }

  /** What an answered exchange writes into the cache. */
  function Learnt(c: Cache, now: Instant, ops: Ops, o: Owner, p: Pending): Cache
    requires OwnerKnown(o, ops)
  {
    match o
    case ForV2c(_) => c
    case ForData(rid, _) =>
      if p.response.kind != Report then
        if p.replyAuthenticated then ObserveEngineTime(c, now, ops.rs[rid].target.endpoint, p.security) else c
      else if ops.rs[rid].round == 0 && Retryable(UsmStatsCounter(p.response)) then
        Resynchronise(c, now, ops.rs[rid].target.endpoint, p)
      else c
    case ForIdentify(did) =>
      if p.security.engineId == [] then c else RecordIdentity(c, now, ops.ds[did].target.endpoint, p.security)
    case ForSync(did) =>
      if NoBaseline(p).Some? then c else RecordBaseline(c, now, p.terms.engineId, p.security)
  }

  lemma SucceedLearns(w: World, s: State, o: Owner, p: Pending)
    requires OpsKnown(s.ops) && OwnerKnown(o, s.ops)
    ensures Succeed(w, s, o, p).cache == Learnt(s.cache, s.now, s.ops, o, p)
  {
    hide FinishRequest, FinishDiscovery, EnsureEngine, Synchronise, RecordBaseline, RecordIdentity, Resynchronise,
      ObserveEngineTime, OpsKnown, Carries;
    match o
    case ForV2c(_) =>
    case ForData(rid, _) =>
      if p.response.kind == Report && s.ops.rs[rid].round == 0 && Retryable(UsmStatsCounter(p.response)) {
        var m := s.(cache := Resynchronise(s.cache, s.now, s.ops.rs[rid].target.endpoint, p), ops := Again(s.ops, rid));
        AgainKnown(s.ops, rid);
        EnsureCarries(w, m, rid);
      }
    case ForIdentify(did) =>
      if p.security.engineId != [] && IsAuthenticated(s.ops.ds[did].creds.level) {
        var m := s.(cache := RecordIdentity(s.cache, s.now, s.ops.ds[did].target.endpoint, p.security));
        SynchroniseCarries(w, m, did, p.security.engineId);
      }
    case ForSync(_) =>
  }

  lemma AgainKnown(ops: Ops, rid: nat)
    requires OpsKnown(ops) && rid < |ops.rs|
    ensures OpsKnown(Again(ops, rid))
  {
    PlacesKnown(ops, rid);
    RequestMoves(ops, rid, ops.rs[rid].(round := ops.rs[rid].round + 1));
  }

  lemma CompleteLearns(w: World, s: State, x: nat, error: Option<int>)
    requires Linked(s) && x < |s.net.xs|
    ensures OwnerKnown(s.net.xs[x].owner, s.ops)
    ensures Complete(w, s, x, error).cache
         == if Succeeds(s, x, error) then Learnt(s.cache, s.now, s.ops, s.net.xs[x].owner, s.net.xs[x].pending)
             else s.cache
  {
    hide Succeed, Learnt, Classify, CancelOf, FailOwner, OwnerKnown, OpsKnown;
    var cancel := CancelFor(s, x);
    if Succeeds(s, x, error) {
      SucceedLearns(w, s.(net := EndExchange(s.net, x, NoError, s.now)), s.net.xs[x].owner, s.net.xs[x].pending);
    }
  }

  /** The cache changes only in a step that ends an exchange with an answer, and then as that answer says. */
  lemma StepLearns(w: World, s: State, e: Event)
    requires Linked(s)
    ensures var x := Answering(s, e);
            x.Some? ==> (&& x.value < |s.net.xs| && OwnerKnown(s.net.xs[x.value].owner, s.ops)
                         && s.net.xs[x.value].pending.answered && !s.stopping)
    ensures var x := Answering(s, e);
            Step(w, s, e).cache == if x.None? then s.cache
                                   else Learnt(s.cache, s.now, s.ops, s.net.xs[x.value].owner,
                                               s.net.xs[x.value].pending)
  {
    hide Learnt, Complete, CancelOf, OwnersKnown, OpsKnown, TableKnown, StartRequest, Identify, ResumeWaiter, Deliver,
      Cancel, WakeListed, WakeWaiters, Carries;
    if Enabled(s, e) {
      match e
      case Call(target, auth, pdu) => StartCarries(w, s, target, auth, pdu);
      case DiscoveryRuns(did) => IdentifyCarries(w, s, did);
      case WaiterRuns(rid) => ResumeCarries(w, s, rid);
      case Sent(x, error) =>
        var cancel := CancelFor(s, x);
        CompleteLearns(w, s, x, error);
      case Fires(x) =>
        var cancel := FiringCancel(s, x);
        CompleteLearns(w, s, x, None);
      case Signal(rid, terminal) => SignalLearns(s, rid, terminal);
      case _ =>
    }
  }

  lemma SignalLearns(s: State, rid: nat, terminal: bool)
    requires rid < |s.ops.rs|
    ensures Cancel(s, rid, terminal).cache == s.cache
  {
  }

  //
  // Provenance
  //

  predicate Known(c: Cache, id: octets) {
    id in c.engines && c.engines[id].timeSynced
  }

  /** This datagram's digest verified under the exchange's key, and this is the clock it carries. */
  predicate Vouches(w: World, t: Terms, datagram: octets, c: Clock) {
    && t.authRequired && w.arrival(datagram).V3Arrival?
    && var msg := w.arrival(datagram).v3;
       && msg.header.msgId == t.id && w.verifies(datagram, msg, t.authProtocol, t.authKey)
       && ClockIn(msg.security) == c
  }

  ghost predicate Signed(w: World, trace: seq<Event>, net: Net, c: Clock) {
    exists x, d :: 0 <= x < |net.xs| && Datagram(d, net.xs[x].pending.terms.from) in trace
                   && Vouches(w, net.xs[x].pending.terms, d, c)
  }

  /** Every clock the Client trusts was signed for, and is below the ceiling. */
  ghost predicate AllSigned(w: World, trace: seq<Event>, net: Net, c: Cache) {
    forall id :: Known(c, id) ==> Counts(ClockOf(c.engines[id])) && Signed(w, trace, net, ClockOf(c.engines[id]))
  }

  /** A clock trusted afterwards was trusted before, or is the one this authenticated reply carries. */
  predicate LearntFrom(c: Cache, c': Cache, p: Pending, id: octets) {
    Known(c', id) ==>
      || (Known(c, id) && ClockOf(c'.engines[id]) == ClockOf(c.engines[id]))
      || (p.replyAuthenticated && ClockOf(c'.engines[id]) == ClockIn(p.security) && Counts(ClockIn(p.security)))
  }

  lemma LearntIsSigned(c: Cache, now: Instant, ops: Ops, o: Owner, p: Pending, id: octets)
    requires OwnerKnown(o, ops)
    ensures LearntFrom(c, Learnt(c, now, ops, o, p), p, id)
  {
  }

  lemma SignedLonger(w: World, trace: seq<Event>, e: Event, net: Net, net': Net, c: Clock)
    requires Signed(w, trace, net, c) && |net.xs| <= |net'.xs|
    requires forall x :: 0 <= x < |net.xs| ==> net'.xs[x].pending.terms == net.xs[x].pending.terms
    ensures Signed(w, trace + [e], net', c)
  {
    hide Vouches;
    var x, d :| 0 <= x < |net.xs| && Datagram(d, net.xs[x].pending.terms.from) in trace
                && Vouches(w, net.xs[x].pending.terms, d, c);
    assert Datagram(d, net'.xs[x].pending.terms.from) in trace + [e];
  }

  lemma GroundedVouches(w: World, trace: seq<Event>, net: Net, x: nat)
    requires x < |net.xs| && net.xs[x].pending.answered && net.xs[x].pending.replyAuthenticated
    requires AllGrounded(w, trace, net)
    ensures Signed(w, trace, net, ClockIn(net.xs[x].pending.security))
  {
    hide Judge;
    var p := net.xs[x].pending;
    var d :| Datagram(d, p.terms.from) in trace && AnswerFrom(w, p, d);
    assert Vouches(w, p.terms, d, ClockIn(p.security));
  }

  lemma StepTerms(w: World, s: State, e: Event)
    requires Linked(s)
    ensures var net := Step(w, s, e).net;
            && |s.net.xs| <= |net.xs|
            && forall x :: 0 <= x < |s.net.xs| ==> net.xs[x].pending.terms == s.net.xs[x].pending.terms
  {
    hide Step, Deliver;
    StepBirth(w, s, e);
    forall x | 0 <= x < |s.net.xs| ensures Step(w, s, e).net.xs[x].pending.terms == s.net.xs[x].pending.terms {
      StepHears(w, s, e, x);
      if e.Datagram? { DeliverTerms(w, s, e.bytes, e.from, x); }
    }
  }

  lemma StepSigned(w: World, s: State, trace: seq<Event>, e: Event)
    requires Linked(s) && AllGrounded(w, trace, s.net) && AllSigned(w, trace, s.net, s.cache)
    ensures AllSigned(w, trace + [e], Step(w, s, e).net, Step(w, s, e).cache)
  {
    hide Step, Signed, Linked, AllGrounded, Learnt, Answering, Counts;
    var s' := Step(w, s, e);
    StepTerms(w, s, e);
    StepLearns(w, s, e);
    var x := Answering(s, e);
    forall id | Known(s'.cache, id)
      ensures Counts(ClockOf(s'.cache.engines[id])) && Signed(w, trace + [e], s'.net, ClockOf(s'.cache.engines[id]))
    {
      if x.Some? {
        LearntIsSigned(s.cache, s.now, s.ops, s.net.xs[x.value].owner, s.net.xs[x.value].pending, id);
        if s.net.xs[x.value].pending.replyAuthenticated { GroundedVouches(w, trace, s.net, x.value); }
      }
      SignedLonger(w, trace, e, s.net, s'.net, ClockOf(s'.cache.engines[id]));
    }
  }

  /**
   * In every reachable state, the clock of an Engine marked synchronised is exactly one carried by a datagram of the
   * run whose digest verified under the key of the exchange it answered, and its boots count is below the ceiling.
   */
  lemma {:induction false} TrustedClocksAreSigned(w: World, now: Instant, first: int32, trace: seq<Event>)
    ensures var s := Run(w, Initial(now, first), trace); AllSigned(w, trace, s.net, s.cache)
    decreases |trace|
  {
    hide Step, AllSigned, AllGrounded;
    if trace == [] {
      NothingKnown(w, now, first);
    } else {
      var before := trace[..|trace| - 1];
      TrustedClocksAreSigned(w, now, first, before);
      RunGrounded(w, now, first, before);
      StepSigned(w, Run(w, Initial(now, first), before), before, trace[|trace| - 1]);
      assert trace == before + [trace[|trace| - 1]];
    }
  }

  lemma NothingKnown(w: World, now: Instant, first: int32)
    ensures AllSigned(w, [], Initial(now, first).net, Initial(now, first).cache)
  {
  }

  lemma UnsignedLearnsNoClock(c: Cache, now: Instant, ops: Ops, o: Owner, p: Pending, id: octets)
    requires OwnerKnown(o, ops) && !p.replyAuthenticated && Known(c, id)
    ensures Known(Learnt(c, now, ops, o, p), id)
    ensures Learnt(c, now, ops, o, p).engines[id].(engineId := c.engines[id].engineId) == c.engines[id]
  {
  }

  /**
   * A step that ends no exchange with an authenticated answer, whatever else it does, leaves every trusted clock, its
   * age and its trust as they were.
   */
  lemma UnsignedTouchesNoClock(w: World, s: State, e: Event, id: octets)
    requires Linked(s) && Known(s.cache, id)
    requires var x := Answering(s, e);
             x.Some? ==> x.value < |s.net.xs| && !s.net.xs[x.value].pending.replyAuthenticated
    ensures Known(Step(w, s, e).cache, id)
    ensures Step(w, s, e).cache.engines[id].(engineId := s.cache.engines[id].engineId) == s.cache.engines[id]
  {
    hide Step, Learnt, Answering, Linked;
    StepLearns(w, s, e);
    var x := Answering(s, e);
    if x.Some? {
      UnsignedLearnsNoClock(s.cache, s.now, s.ops, s.net.xs[x.value].owner, s.net.xs[x.value].pending, id);
    }
  }

  /** The step resumes a request's first round with a signed notInTimeWindows Report from before the trusted boot. */
  predicate OlderReport(s: State, e: Event, id: octets)
    requires Linked(s)
  {
    var x := Answering(s, e);
    && x.Some? && x.value < |s.net.xs|
    && var o, p := s.net.xs[x.value].owner, s.net.xs[x.value].pending;
       && o.ForData? && o.rid < |s.ops.rs| && s.ops.rs[o.rid].round == 0
       && p.response.kind == Report && UsmStatsCounter(p.response) == Some(NOT_IN_TIME_WINDOWS) && p.replyAuthenticated
       && EngineFor(s.cache, s.ops.rs[o.rid].target.endpoint) == Some(id) && Known(s.cache, id)
       && p.security.boots < s.cache.engines[id].boots
  }

  /**
   * Such a step only withdraws trust: the Report's clock is not taken, no other Engine is touched, none is forgotten.
   */
  lemma OlderReportOnlyDistrusts(w: World, s: State, e: Event, id: octets)
    requires Linked(s) && OlderReport(s, e, id)
    ensures var c' := Step(w, s, e).cache;
            && c'.engineAt == s.cache.engineAt && c'.engines.Keys == s.cache.engines.Keys
            && !Known(c', id) && ClockOf(c'.engines[id]) == ClockOf(s.cache.engines[id])
            && forall other :: other in s.cache.engines && other != id ==> c'.engines[other] == s.cache.engines[other]
  {
    hide Step, Answering, Linked;
    StepLearns(w, s, e);
  }

  //
  // Forward only
  //

  /** The step records this reply as the Engine's baseline: the end of a time-sync phase, the one write not compared. */
  function Baseline(s: State, e: Event, id: octets): Option<Clock>
    requires Linked(s)
  {
    var x := Answering(s, e);
    if x.None? then None
    else
      var ex := s.net.xs[x.value];
      if ex.owner.ForSync? && ex.pending.terms.engineId == id && NoBaseline(ex.pending).None?
      then Some(ClockIn(ex.pending.security)) else None
  }

  lemma LearntForward(c: Cache, now: Instant, ops: Ops, o: Owner, p: Pending, id: octets)
    requires OwnerKnown(o, ops) && Known(c, id) && Known(Learnt(c, now, ops, o, p), id)
    ensures var before, after := ClockOf(c.engines[id]), ClockOf(Learnt(c, now, ops, o, p).engines[id]);
            if o.ForSync? && p.terms.engineId == id && NoBaseline(p).None? then after == ClockIn(p.security)
            else NotAfter(before, after)
  {
  }

  /** A trusted clock goes back in a step exactly when the step records a baseline that is behind it. */
  lemma ClockGoesBackOnlyAtBaseline(w: World, s: State, e: Event, id: octets)
    requires Linked(s) && Known(s.cache, id) && Known(Step(w, s, e).cache, id)
    ensures var before, after := ClockOf(s.cache.engines[id]), ClockOf(Step(w, s, e).cache.engines[id]);
            && (!NotAfter(before, after) <==> Baseline(s, e, id).Some? && !NotAfter(before, Baseline(s, e, id).value))
            && (Baseline(s, e, id).Some? ==> after == Baseline(s, e, id).value)
  {
    hide Step, Learnt, Answering, Linked;
    StepLearns(w, s, e);
    var x := Answering(s, e);
    if x.Some? {
      LearntForward(s.cache, s.now, s.ops, s.net.xs[x.value].owner, s.net.xs[x.value].pending, id);
    }
  }

  /** A time-sync phase about to record its answer as the Engine's baseline. */
  predicate SyncDue(s: State, x: nat, id: octets) {
    && x < |s.net.xs| && Due(s.net.xs[x], s.now) && !s.stopping
    && s.net.xs[x].owner.ForSync? && s.net.xs[x].pending.answered
    && s.net.xs[x].pending.terms.engineId == id && NoBaseline(s.net.xs[x].pending).None?
  }

  lemma SyncRecords(w: World, s: State, x: nat, id: octets)
    requires Linked(s) && SyncDue(s, x, id)
    ensures var s' := Step(w, s, Fires(x));
            && s'.cache == RecordBaseline(s.cache, s.now, id, s.net.xs[x].pending.security)
            && s'.now == s.now && s'.stopping == s.stopping && |s'.net.xs| == |s.net.xs|
            && forall y :: 0 <= y < |s.net.xs| && y != x ==> s'.net.xs[y] == s.net.xs[y]
  {
    hide OwnersKnown, TableKnown, OpsKnown, FinishDiscovery;
    var cancel := FiringCancel(s, x);
    assert AfterWait(s.net.xs[x], s.now, s.stopping, cancel).Leave?;
    assert Classify(s.stopping, cancel, s.net.xs[x].pending, None) == NoError;
  }

  /**
   * Two endpoints of one Engine synchronising at once: the later answer stands, also where it is behind the earlier.
   */
  lemma LaterBaselineStands(w: World, s: State, x: nat, y: nat, id: octets)
    requires Linked(s) && SyncDue(s, x, id) && SyncDue(s, y, id) && x != y
    ensures Linked(Step(w, s, Fires(x)))
    ensures var m, s' := Step(w, s, Fires(x)), Step(w, Step(w, s, Fires(x)), Fires(y));
            && Known(m.cache, id) && ClockOf(m.cache.engines[id]) == ClockIn(s.net.xs[x].pending.security)
            && Known(s'.cache, id) && ClockOf(s'.cache.engines[id]) == ClockIn(s.net.xs[y].pending.security)
  {
    hide Step, Linked;
    StepFollows(w, s, Fires(x));
    SyncRecords(w, s, x, id);
    SyncRecords(w, Step(w, s, Fires(x)), y, id);
  }

  /** Through the whole of a run the Engine stays trusted, and no step of it records a baseline. */
  ghost predicate Steady(w: World, s: State, trace: seq<Event>, id: octets)
    requires Linked(s)
    decreases |trace|
  {
    && Known(Run(w, s, trace).cache, id)
    && (trace != [] ==>
          var before := trace[..|trace| - 1];
          Steady(w, s, before, id) && Baseline(Run(w, s, before), trace[|trace| - 1], id).None?)
  }

  lemma {:induction false} SteadyForward(w: World, s: State, trace: seq<Event>, id: octets)
    requires Linked(s) && Steady(w, s, trace, id)
    ensures Known(s.cache, id)
    ensures NotAfter(ClockOf(s.cache.engines[id]), ClockOf(Run(w, s, trace).cache.engines[id]))
    decreases |trace|
  {
    hide Step, Baseline;
    if trace != [] {
      var before := trace[..|trace| - 1];
      SteadyForward(w, s, before, id);
      ClockGoesBackOnlyAtBaseline(w, Run(w, s, before), trace[|trace| - 1], id);
    }
  }

  /** Against a trusted clock, a Response from an earlier boot is not accepted where authentication is required. */
  lemma StaleResponseRefused(w: World, s: State, t: Terms, datagram: octets, from: Endpoint, msg: V3Message, id: octets)
    requires t.authRequired && EngineFor(s.cache, from) == Some(id) && Known(s.cache, id)
    requires msg.security.boots < s.cache.engines[id].boots
    ensures var v := Judge(w, t, Timely(s.cache, s.now, from, msg.security), datagram, from, msg);
            v.Accepted? ==> v.pdu.kind == Report
  {
  }

  /** So once a boots count is trusted, no Response from before it is accepted for as long as it stays so. */
  lemma NoStaleResponse(w: World, s: State, trace: seq<Event>, id: octets, t: Terms, datagram: octets, from: Endpoint,
                        msg: V3Message)
    requires Linked(s) && Steady(w, s, trace, id) && t.authRequired
    requires EngineFor(Run(w, s, trace).cache, from) == Some(id)
    requires Known(s.cache, id) && msg.security.boots < s.cache.engines[id].boots
    ensures var s' := Run(w, s, trace);
            var v := Judge(w, t, Timely(s'.cache, s'.now, from, msg.security), datagram, from, msg);
            v.Accepted? ==> v.pdu.kind == Report
  {
    hide Run, Judge, Timely, EngineFor;
    SteadyForward(w, s, trace, id);
    SteadyEnd(w, s, trace, id);
    StaleResponseRefused(w, Run(w, s, trace), t, datagram, from, msg, id);
  }

  lemma SteadyEnd(w: World, s: State, trace: seq<Event>, id: octets)
    requires Linked(s) && Steady(w, s, trace, id)
    ensures Known(Run(w, s, trace).cache, id)
  {
  }
}
