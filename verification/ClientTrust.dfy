/** Where what the Client believes comes from: accepted replies, and the clocks it trusts. */
module ClientTrust {
  import opened Octets
  import opened Pdus
  import opened Usm
  import opened V3Messages
  import opened ClientModel
  import opened ClientSteps
  import opened ClientFrames
  import opened ClientRuns
  import opened ClientExchanges
  import opened ClientVerdicts

  /** Decryption needs a key, as the cipher's own guards require. */
  ghost predicate Guarded(w: World) {
    forall msg, priv, key :: w.decrypt(msg, priv, key).Ok? ==> key != []
  }

  /**
   * What accepting a reply means. Authenticated, its digest verified under the exchange's key. Not authenticated where
   * authentication is required, it is a Report sent in the clear, and in the time-sync phase not one about the clock.
   * A Response answers this request from the Engine addressed. Encrypted, it was authenticated first.
   */
  lemma AcceptedMeans(w: World, o: Owner, t: Terms, timely: bool, datagram: octets, from: Endpoint, msg: V3Message)
    requires TermsFit(o, t)
    requires Judge(w, t, timely, datagram, from, msg).Accepted?
    ensures var v := Judge(w, t, timely, datagram, from, msg);
            && from == t.from
            && (v.authenticated ==> t.authRequired && w.verifies(datagram, msg, t.authProtocol, t.authKey))
            && (t.authRequired && !v.authenticated ==>
                  && v.pdu == msg.scoped.pdu && v.pdu.kind == Report && msg.header.level == NoAuthNoPriv
                  && !(t.timeSyncPhase && ReportsNotInTimeWindows(v.pdu)))
            && (v.pdu.kind != Report ==>
                  && v.pdu.kind == Response && v.pdu.requestId == t.id && (t.authRequired ==> timely)
                  && (t.engineId == [] || msg.security.engineId == t.engineId))
            && (Guarded(w) && IsEncrypted(msg.header.level) ==> v.authenticated && t.privKey != [])
  {
  }

  /** A verdict of acceptance depends on timeliness only in needing it. */
  lemma AcceptedWhenTimely(w: World, t: Terms, timely: bool, datagram: octets, from: Endpoint, msg: V3Message)
    requires Judge(w, t, timely, datagram, from, msg).Accepted?
    ensures Judge(w, t, true, datagram, from, msg) == Judge(w, t, timely, datagram, from, msg)
  {
  }

  //
  // One datagram behind every answer
  //

  /** Everything an answered exchange holds is what this one datagram says. */
  predicate AnswerFrom(w: World, p: Pending, datagram: octets) {
    match w.arrival(datagram)
    case NotOurs => false
    case V2cArrival(msg) =>
      && Quotes(p.terms, p.terms.from, msg) && msg.pdu.kind == Response && msg.pdu.requestId == p.terms.id
      && p.response == msg.pdu && !p.replyAuthenticated
    case V3Arrival(msg) =>
      && p.terms.v3 && msg.header.msgId == p.terms.id && p.security == msg.security
      && Answers(w, p.terms, true, datagram, p.terms.from, msg, p.replyAuthenticated, p.response)
  }

  ghost predicate Grounded(w: World, trace: seq<Event>, p: Pending) {
    && (!p.answered ==> !p.replyAuthenticated)
    && (p.answered ==> exists d :: Datagram(d, p.terms.from) in trace && AnswerFrom(w, p, d))
  }

  ghost predicate AllGrounded(w: World, trace: seq<Event>, net: Net) {
    forall x :: 0 <= x < |net.xs| ==>
      && Grounded(w, trace, net.xs[x].pending) && TermsFit(net.xs[x].owner, net.xs[x].pending.terms)
      && SentFits(net.xs[x].sent, net.xs[x].pending.terms)
  }

  lemma GroundedLonger(w: World, trace: seq<Event>, e: Event, p: Pending)
    requires Grounded(w, trace, p)
    ensures Grounded(w, trace + [e], p)
  {
    hide AnswerFrom;
    if p.answered {
      var d :| Datagram(d, p.terms.from) in trace && AnswerFrom(w, p, d);
      assert Datagram(d, p.terms.from) in trace + [e];
    }
  }

  lemma DeliveredGrounded(w: World, s: State, trace: seq<Event>, d: octets, from: Endpoint, x: nat)
    requires TableLive(s.net) && TableKnown(s.net) && x < |s.net.xs| && Grounded(w, trace, s.net.xs[x].pending)
    ensures x < |Deliver(w, s, d, from).xs|
    ensures Grounded(w, trace + [Datagram(d, from)], Deliver(w, s, d, from).xs[x].pending)
  {
    hide Judge, Timely, Answers;
    DeliverKeeps(w, s, d, from);
    var e, e' := s.net.xs[x], Deliver(w, s, d, from).xs[x];
    GroundedLonger(w, trace, Datagram(d, from), e.pending);
    assert Datagram(d, from) in trace + [Datagram(d, from)];
    match w.arrival(d)
    case NotOurs =>
    case V2cArrival(msg) => V2cGrounded(w, s, trace, d, from, x, msg);
    case V3Arrival(msg) => V3Grounded(w, s, trace, d, from, x, msg);
  }

  lemma V2cGrounded(w: World, s: State, trace: seq<Event>, d: octets, from: Endpoint, x: nat, msg: V2cMessage)
    requires TableLive(s.net) && TableKnown(s.net) && x < |s.net.xs| && Grounded(w, trace, s.net.xs[x].pending)
    requires w.arrival(d) == V2cArrival(msg)
    ensures x < |DeliverV2c(s.net, from, msg).xs|
    ensures Grounded(w, trace + [Datagram(d, from)], DeliverV2c(s.net, from, msg).xs[x].pending)
  {
    hide Judge, Answers;
    var p, p', longer := s.net.xs[x].pending, DeliverV2c(s.net, from, msg).xs[x].pending, trace + [Datagram(d, from)];
    GroundedLonger(w, trace, Datagram(d, from), p);
    assert longer[|trace|] == Datagram(d, from);
    if p' != p {
      assert Listed(s.net, msg.pdu.requestId) && s.net.table[msg.pdu.requestId] == x;
      assert !p.replyAuthenticated by { V2cNeverSigned(w, trace, p); }
      assert AnswerFrom(w, p', d);
    }
  }

  lemma V2cNeverSigned(w: World, trace: seq<Event>, p: Pending)
    requires Grounded(w, trace, p) && !p.terms.v3
    ensures !p.replyAuthenticated
  {
    hide Judge, Answers;
  }

  lemma V3Grounded(w: World, s: State, trace: seq<Event>, d: octets, from: Endpoint, x: nat, msg: V3Message)
    requires TableLive(s.net) && TableKnown(s.net) && x < |s.net.xs| && Grounded(w, trace, s.net.xs[x].pending)
    requires w.arrival(d) == V3Arrival(msg)
    ensures x < |DeliverV3(w, s, d, from, msg).xs|
    ensures Grounded(w, trace + [Datagram(d, from)], DeliverV3(w, s, d, from, msg).xs[x].pending)
  {
    hide Judge, Timely, AnswerFrom;
    var p, p', longer := s.net.xs[x].pending, DeliverV3(w, s, d, from, msg).xs[x].pending, trace + [Datagram(d, from)];
    GroundedLonger(w, trace, Datagram(d, from), p);
    assert longer[|trace|] == Datagram(d, from);
    if p' != p {
      assert Listed(s.net, msg.header.msgId) && s.net.table[msg.header.msgId] == x;
      var timely := Timely(s.cache, s.now, from, msg.security);
      var v := Judge(w, p.terms, timely, d, from, msg);
      if v.Accepted? {
        JudgedFrom(w, p, timely, d, from, msg);
      } else {
        DropGrounded(w, longer, p, p');
      }
    }
  }

  lemma JudgedFrom(w: World, p: Pending, timely: bool, d: octets, from: Endpoint, msg: V3Message)
    requires p.terms.v3 && msg.header.msgId == p.terms.id && w.arrival(d) == V3Arrival(msg)
    requires Judge(w, p.terms, timely, d, from, msg).Accepted?
    ensures from == p.terms.from
    ensures AnswerFrom(w, Receive(p, msg.security, Judge(w, p.terms, timely, d, from, msg)), d)
  {
    hide Answers;
    AcceptedWhenTimely(w, p.terms, timely, d, from, msg);
    VerdictExact(w, p.terms, true, d, from, msg);
  }

  lemma DropGrounded(w: World, trace: seq<Event>, p: Pending, p': Pending)
    requires Grounded(w, trace, p) && p' == p.(dropReason := p'.dropReason)
    ensures Grounded(w, trace, p')
  {
    hide Judge, Answers;
    if p.answered {
      var d :| Datagram(d, p.terms.from) in trace && AnswerFrom(w, p, d);
      assert AnswerFrom(w, p', d);
    }
  }

  lemma StepGrounded(w: World, s: State, trace: seq<Event>, e: Event)
    requires Linked(s) && TableLive(s.net) && AllGrounded(w, trace, s.net)
    ensures AllGrounded(w, trace + [e], Step(w, s, e).net)
  {
    hide Step, Grounded, TermsFit, SentFits, TableLive, Deliver;
    var net := Step(w, s, e).net;
    StepBirth(w, s, e);
    forall x | 0 <= x < |net.xs|
      ensures Grounded(w, trace + [e], net.xs[x].pending) && TermsFit(net.xs[x].owner, net.xs[x].pending.terms)
      ensures SentFits(net.xs[x].sent, net.xs[x].pending.terms)
    {
      if x < |s.net.xs| {
        StepHears(w, s, e, x);
        if e.Datagram? {
          DeliveredGrounded(w, s, trace, e.bytes, e.from, x);
          DeliverTerms(w, s, e.bytes, e.from, x);
        } else {
          GroundedLonger(w, trace, e, s.net.xs[x].pending);
        }
      } else {
        NewbornGrounded(w, trace + [e], net.xs[x], LocalNet(w, s, e), s.now);
      }
    }
  }

  lemma DeliverTerms(w: World, s: State, d: octets, from: Endpoint, x: nat)
    requires TableKnown(s.net) && x < |s.net.xs|
    ensures x < |Deliver(w, s, d, from).xs| && Deliver(w, s, d, from).xs[x].pending.terms == s.net.xs[x].pending.terms
  {
    hide Judge, Timely, Quotes;
  }

  lemma NewbornGrounded(w: World, trace: seq<Event>, e: Exchange, net: Net, now: Instant)
    requires Newborn(e, net, now)
    ensures Grounded(w, trace, e.pending) && TermsFit(e.owner, e.pending.terms) && SentFits(e.sent, e.pending.terms)
  {
  }

  lemma {:induction false} RunGrounded(w: World, now: Instant, first: int32, trace: seq<Event>)
    ensures AllGrounded(w, trace, Run(w, Initial(now, first), trace).net)
    decreases |trace|
  {
    hide Step, AllGrounded;
    if trace == [] {
      NothingToGround(w, now, first);
    } else {
      var before := trace[..|trace| - 1];
      RunGrounded(w, now, first, before);
      RunInOrder(w, now, first, before);
      StepGrounded(w, Run(w, Initial(now, first), before), before, trace[|trace| - 1]);
      assert trace == before + [trace[|trace| - 1]];
    }
  }

  lemma NothingToGround(w: World, now: Instant, first: int32)
    ensures AllGrounded(w, [], Initial(now, first).net)
  {
  }

  /**
   * In every run, an answered exchange's payload, security parameters and verdict all come from one datagram, received
   * from the Target asked; and what accepting it took was met by that same datagram.
   */
  lemma AnswersAreOneDatagram(w: World, now: Instant, first: int32, trace: seq<Event>, x: nat) returns (d: octets)
    requires x < |Run(w, Initial(now, first), trace).net.xs|
        && Run(w, Initial(now, first), trace).net.xs[x].pending.answered
    ensures var e := Run(w, Initial(now, first), trace).net.xs[x];
            var p := e.pending;
            && Datagram(d, p.terms.from) in trace && AnswerFrom(w, p, d)
            && (p.replyAuthenticated ==>
                  p.terms.v3 && w.verifies(d, w.arrival(d).v3, p.terms.authProtocol, p.terms.authKey))
            && (p.terms.authRequired && !p.replyAuthenticated ==>
                  p.response.kind == Report && !(p.terms.timeSyncPhase && ReportsNotInTimeWindows(p.response)))
            && (Guarded(w) && w.arrival(d).V3Arrival? && IsEncrypted(w.arrival(d).v3.header.level) ==>
                  p.replyAuthenticated && e.sent.V3Out? && e.sent.header.level == AuthPriv)
  {
    hide Run, Judge, Answers;
    RunGrounded(w, now, first, trace);
    var e := Run(w, Initial(now, first), trace).net.xs[x];
    var p := e.pending;
    d :| Datagram(d, p.terms.from) in trace && AnswerFrom(w, p, d);
    if w.arrival(d).V3Arrival? {
      VerdictExact(w, p.terms, true, d, p.terms.from, w.arrival(d).v3);
      AcceptedMeans(w, e.owner, p.terms, true, d, p.terms.from, w.arrival(d).v3);
    }
  }

  /** In every run a reply is held against what was sent: the same identifiers, Engine, protection and keys. */
  lemma JudgedBySent(w: World, now: Instant, first: int32, trace: seq<Event>, x: nat)
    requires x < |Run(w, Initial(now, first), trace).net.xs|
    ensures var e := Run(w, Initial(now, first), trace).net.xs[x];
            SentFits(e.sent, e.pending.terms) && TermsFit(e.owner, e.pending.terms)
  {
    hide Run, SentFits, TermsFit, Grounded;
    RunGrounded(w, now, first, trace);
  }
}
