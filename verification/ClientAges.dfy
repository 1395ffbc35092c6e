/**
 * The instant an Engine's clock was learnt: which steps write a pair, and that every age counts from the last of
 * them.
 */
module ClientAges {
  import opened Octets
  import opened Errors
  import opened Pdus
  import opened V3Messages
  import opened ClientModel
  import opened ClientSteps
  import opened ClientRuns
  import opened ClientVerdicts
  import opened ClientClocks

  /** The exchange's loop is left with a reply in hand: at the end of a failed send, or of a wait. */
  predicate Resumes(s: State, e: Event, x: nat)
    requires Linked(s)
  {
    && x < |s.net.xs| && OwnerKnown(s.net.xs[x].owner, s.ops)
    && s.net.xs[x].pending.answered && !s.stopping && CancelOf(s.ops, s.net.xs[x].owner) != Terminal
    && match e
       case Sent(y, error) => y == x && error.Some? && s.net.xs[x].phase.Sending?
       case Fires(y) =>
         && y == x && (s.net.xs[x].phase.Waiting? || s.net.xs[x].phase.Draining?)
         && (s.net.xs[x].woken || s.now >= s.net.xs[x].phase.deadline)
       case _ => false
  }

  lemma AnsweringIs(s: State, e: Event, x: nat)
    requires Linked(s)
    ensures Answering(s, e) == Some(x) <==> Resumes(s, e, x)
  {
    hide OpsKnown, TableKnown;
    if x < |s.net.xs| { assert OwnerKnown(s.net.xs[x].owner, s.ops); }
  }

  //
  // What an answer writes
  //

  /** The endpoint's Engine is this one. */
  predicate ReachedAt(c: Cache, ep: Endpoint, id: octets) {
    ep in c.engineAt && c.engineAt[ep] == id && id in c.engines
  }

  /** A pair not older than the one held, an equal one included, and below the ceiling. */
  predicate Newer(c: Cache, id: octets, security: UsmParameters)
    requires id in c.engines
  {
    && security.boots != 0x7FFF_FFFF
    && (security.boots > c.engines[id].boots
        || (security.boots == c.engines[id].boots && security.time >= c.engines[id].time))
  }

  /** The identity phase's reply, about an Engine that is not trusted. */
  predicate WritesIdentity(c: Cache, o: Owner, p: Pending, id: octets) {
    o.ForIdentify? && p.security.engineId == id && id != [] && (id in c.engines ==> !c.engines[id].timeSynced)
  }

  /** The time-sync phase's signed reply, below the ceiling. */
  predicate WritesBaseline(o: Owner, p: Pending, id: octets) {
    o.ForSync? && p.terms.engineId == id && p.replyAuthenticated && p.security.boots != 0x7FFF_FFFF
  }

  /**
   * A request's signed Response, or its signed Report about the clock in the first round, from the endpoint's Engine.
   */
  predicate Tells(c: Cache, ops: Ops, o: Owner, p: Pending, id: octets)
    requires OwnerKnown(o, ops)
  {
    && o.ForData? && ReachedAt(c, ops.rs[o.rid].target.endpoint, id) && p.replyAuthenticated
    && (p.response.kind == Report ==> ops.rs[o.rid].round == 0 && ClockReport(p.response))
  }

  predicate WritesObservation(c: Cache, ops: Ops, o: Owner, p: Pending, id: octets)
    requires OwnerKnown(o, ops)
  {
    Tells(c, ops, o, p, id) && Newer(c, id, p.security)
  }

  /** A signed Report about the clock that is from before the trusted boot. */
  predicate Distrusts(c: Cache, ops: Ops, o: Owner, p: Pending, id: octets)
    requires OwnerKnown(o, ops)
  {
    && Tells(c, ops, o, p, id) && p.response.kind == Report
    && c.engines[id].timeSynced && p.security.boots < c.engines[id].boots
  }

  predicate Writes(c: Cache, ops: Ops, o: Owner, p: Pending, id: octets)
    requires OwnerKnown(o, ops)
  {
    WritesIdentity(c, o, p, id) || WritesBaseline(o, p, id) || WritesObservation(c, ops, o, p, id)
  }

  /** What becomes of an Engine's pair, its instant and its standing. */
  predicate Rewritten(c: Cache, c': Cache, now: Instant, ops: Ops, o: Owner, p: Pending, id: octets)
    requires OwnerKnown(o, ops)
  {
    if Writes(c, ops, o, p, id) then
      && id in c'.engines && ClockOf(c'.engines[id]) == ClockIn(p.security) && c'.engines[id].at == now
      && (c'.engines[id].timeSynced <==> !o.ForIdentify?)
    else
      && (id in c'.engines <==> id in c.engines)
      && (id in c.engines ==>
            && ClockOf(c'.engines[id]) == ClockOf(c.engines[id]) && c'.engines[id].at == c.engines[id].at
            && (c'.engines[id].timeSynced <==> c.engines[id].timeSynced && !Distrusts(c, ops, o, p, id)))
  }

  lemma LearntRewrites(c: Cache, now: Instant, ops: Ops, o: Owner, p: Pending, id: octets)
    requires OwnerKnown(o, ops)
    ensures Rewritten(c, Learnt(c, now, ops, o, p), now, ops, o, p, id)
  {
    hide UsmStatsCounter, Reports;
    ReportsIs(p.response, 2);
  }

  /**
   * An Engine's pair, the instant it counts from and whether it is trusted change in a step exactly as these say: by
   * the identity phase on an untrusted Engine, by a baseline, by an observation not older and below the ceiling, and
   * by a signed Report from before the trusted boot, which only withdraws trust. No other step touches any of the
   * three.
   */
  lemma StepRewrites(w: World, s: State, e: Event, id: octets)
    requires Linked(s)
    ensures var c, c' := s.cache, Step(w, s, e).cache;
            && (forall x: nat :: Resumes(s, e, x) ==>
                  Rewritten(c, c', s.now, s.ops, s.net.xs[x].owner, s.net.xs[x].pending, id))
            && ((forall x: nat :: !Resumes(s, e, x)) ==> c' == c)
  {
    hide Step, Learnt, Resumes, Rewritten, Linked;
    StepLearns(w, s, e);
    var x := Answering(s, e);
    if x.Some? {
      AnsweringIs(s, e, x.value);
      LearntRewrites(s.cache, s.now, s.ops, s.net.xs[x.value].owner, s.net.xs[x.value].pending, id);
    }
    forall y: nat | Resumes(s, e, y) ensures x == Some(y) { AnsweringIs(s, e, y); }
  }

  //
  // Through a run
  //

  /** A pair, and the instant it was written. */
  datatype Writing = Writing(clock: Clock, at: Instant)

  /** What a step writes for an Engine, if it does. */
  function WritingAt(s: State, e: Event, id: octets): Option<Writing>
    requires Linked(s)
  {
    var x := if e.Sent? then e.x else if e.Fires? then e.x else |s.net.xs|;
    if !Resumes(s, e, x) || !Writes(s.cache, s.ops, s.net.xs[x].owner, s.net.xs[x].pending, id) then None
    else Some(Writing(ClockIn(s.net.xs[x].pending.security), s.now))
  }

  /** The last writing of an Engine's pair in a run. */
  function LastWriting(w: World, s: State, trace: seq<Event>, id: octets): Option<Writing>
    requires Linked(s)
    decreases |trace|
  {
    if trace == [] then None
    else
      var before := trace[..|trace| - 1];
      var writing := WritingAt(Run(w, s, before), trace[|trace| - 1], id);
      if writing.Some? then writing else LastWriting(w, s, before, id)
  }

  lemma StepWritesPair(w: World, s: State, e: Event, id: octets)
    requires Linked(s)
    ensures var c, c', writing := s.cache, Step(w, s, e).cache, WritingAt(s, e, id);
            if writing.Some? then
              id in c'.engines && Writing(ClockOf(c'.engines[id]), c'.engines[id].at) == writing.value
            else
              && (id in c'.engines <==> id in c.engines)
              && (id in c.engines ==>
                    ClockOf(c'.engines[id]) == ClockOf(c.engines[id]) && c'.engines[id].at == c.engines[id].at)
  {
    hide Step, Linked, Writes;
    StepRewrites(w, s, e, id);
    var x := if e.Sent? then e.x else if e.Fires? then e.x else |s.net.xs|;
    assert forall y: nat :: Resumes(s, e, y) ==> y == x;
  }

  /**
   * In every run, an Engine's cached pair and the instant its age counts from are those of the last writing of it, and
   * an Engine is in the cache exactly when there was one. No instant is in the future.
   */
  lemma {:induction false} PairIsLastWriting(w: World, now: Instant, first: int32, trace: seq<Event>, id: octets)
    ensures var s, last := Run(w, Initial(now, first), trace), LastWriting(w, Initial(now, first), trace, id);
            && (id in s.cache.engines <==> last.Some?)
            && (last.Some? ==> Writing(ClockOf(s.cache.engines[id]), s.cache.engines[id].at) == last.value
                               && last.value.at <= s.now)
    decreases |trace|
  {
    hide Step, WritingAt;
    if trace != [] {
      var before, e := trace[..|trace| - 1], trace[|trace| - 1];
      PairIsLastWriting(w, now, first, before, id);
      var s := Run(w, Initial(now, first), before);
      StepWritesPair(w, s, e, id);
      StepFollows(w, s, e);
      if WritingAt(s, e, id).Some? { WrittenNow(s, e, id); }
    }
  }

  lemma WrittenNow(s: State, e: Event, id: octets)
    requires Linked(s) && WritingAt(s, e, id).Some?
    ensures WritingAt(s, e, id).value.at == s.now
  {
    hide Resumes, Writes;
  }

  /**
   * In every run, timeliness against a trusted clock, told from the last writing of its pair: not at the ceiling, of a
   * later boot, or of the same boot and less than 151 seconds behind what the pair has come to since that instant.
   */
  lemma TimelySinceWriting(w: World, now: Instant, first: int32, trace: seq<Event>, from: Endpoint, id: octets,
                           security: UsmParameters)
    requires var c := Run(w, Initial(now, first), trace).cache; ReachedAt(c, from, id) && c.engines[id].timeSynced
    ensures LastWriting(w, Initial(now, first), trace, id).Some?
    ensures var s, last := Run(w, Initial(now, first), trace), LastWriting(w, Initial(now, first), trace, id).value;
            Timely(s.cache, s.now, from, security) <==>
              && security.boots != 0x7FFF_FFFF && security.boots >= last.clock.boots
              && (security.boots == last.clock.boots ==>
                    s.now - last.at < (security.time - last.clock.time + 151) * 1000)
  {
    hide Run, LastWriting, Timely;
    PairIsLastWriting(w, now, first, trace, id);
    var s := Run(w, Initial(now, first), trace);
    TimelyIsInTime(s.cache, s.now, from, security);
    TrustedClocksAreSigned(w, now, first, trace);
    assert Known(s.cache, id);
  }
}
