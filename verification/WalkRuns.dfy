/** The Walk over the Client: its replies are what the requests of a run ended in, and its Stopping is the Client's. */
module WalkRuns {
  import opened Octets
  import opened Errors
  import opened Oids
  import opened BerGrammar
  import opened Pdus
  import opened Usm
  import opened V3Messages
  import opened V3Decoding
  import opened ClientModel
  import opened ClientSteps
  import opened ClientFrames
  import opened ClientRuns
  import opened ClientTrust
  import opened ClientCodecs
  import opened ClientResults
  import Walks

  /** What an iteration asks for. */
  function QueryPdu(q: Walks.Query): Pdu {
    var vbs := [Varbind(q.current, Null)];
    if q.maxRepetitions <= 0 then Pdu(GetNext, 0, 0, 0, vbs) else Pdu(GetBulk, 0, 0, q.maxRepetitions, vbs)
  }

  /** One iteration's request: the event that made it, and how far the run had come when the Walk went on from it. */
  datatype Leg = Leg(asked: nat, ended: nat)

  /** A run, and the Walk in it: to whom it talks, and its requests in turn. */
  datatype Journey = Journey(w: World, now: Instant, first: int32, trace: seq<Event>, target: Target, auth: Auth,
                             legs: seq<Leg>)

  function After(j: Journey, n: nat): State
    requires n <= |j.trace|
  {
    Run(j.w, Initial(j.now, j.first), j.trace[..n])
  }

  /** The request of this leg, by its place among all requests. */
  function RequestOf(j: Journey, leg: Leg): nat
    requires leg.asked <= |j.trace|
  {
    |After(j, leg.asked).ops.rs|
  }

  /** The leg asked this, and its request had completed when the Walk went on. */
  predicate Completed(j: Journey, leg: Leg, q: Walks.Query) {
    && leg.asked < leg.ended <= |j.trace| && j.trace[leg.asked] == Call(j.target, j.auth, QueryPdu(q))
    && RequestOf(j, leg) < |After(j, leg.ended).ops.rs| && After(j, leg.ended).ops.rs[RequestOf(j, leg)].place.Done?
  }

  /** What the request ended in. The Walk looks at Varbinds only where there is no error. */
  function ReplyOf(j: Journey, k: nat, q: Walks.Query): Walks.Reply {
    if k < |j.legs| && Completed(j, j.legs[k], q) then
      var outcome := After(j, j.legs[k].ended).ops.rs[RequestOf(j, j.legs[k])].place.outcome;
      Walks.Reply(outcome.ec, if outcome.ec == NoError then outcome.varbinds else [])
    else Walks.Reply(Fault(Timeout), [])
  }

  /** The Client's own flag as the Walk goes on. */
  predicate StoppingAt(j: Journey, k: nat) {
    k < |j.legs| && j.legs[k].ended <= |j.trace| && After(j, j.legs[k].ended).stopping
  }

  function WalkWorld(j: Journey, cancelBefore: nat -> Cancellation, cancelAfter: nat -> Cancellation,
                     handler: (seq<Varbind>, seq<Varbind>) -> bool): Walks.World
  {
    Walks.World((k: nat, q: Walks.Query) => ReplyOf(j, k, q), cancelBefore, cancelAfter, (k: nat) => StoppingAt(j, k),
                handler)
  }

  /** The library's encoders refuse a PDU with an OID that cannot be encoded. */
  ghost predicate Encoders(w: World) {
    && (forall m: V2cMessage :: !PduEncodable(m.pdu) ==> w.encode(V2cOut(m)).Some?)
    && (forall h, u, scoped: ScopedPdu, auth, key, priv, privKey ::
          !PduEncodable(scoped.pdu) ==> w.encode(V3Out(h, u, scoped, auth, key, priv, privKey)).Some?)
  }

  //
  // Requests keep what they were made with
  //

  lemma CallAdds(w: World, s: State, target: Target, auth: Auth, pdu: Pdu)
    requires Linked(s)
    ensures MadeWith(Step(w, s, Call(target, auth, pdu)), |s.ops.rs|, target, auth, pdu)
  {
    hide StartRequest, OwnersKnown, TableKnown;
    CallMakes(w, s, target, auth, pdu);
  }

  lemma CallMakes(w: World, s: State, target: Target, auth: Auth, pdu: Pdu)
    requires OpsKnown(s.ops)
    ensures MadeWith(StartRequest(w, s, target, auth, pdu), |s.ops.rs|, target, auth, pdu)
  {
    hide Launch, EnsureEngine, FinishRequest, Carries;
    var rid, q := |s.ops.rs|, Request(target, auth, pdu, 0, NotCancelled, false, Exchanging);
    var m := s.(ops := s.ops.(rs := s.ops.rs + [q]));
    assert OpsKnown(m.ops);
    if s.stopping {
      RequestEnds(m.ops, rid, Failed(Fault(ClientStopped)));
    } else if auth.ByCommunity? {
      var t := V2cTerms(s.net.nextId, target.endpoint, auth.community);
      var out := V2cOut(V2cMessage(auth.community, pdu.(requestId := s.net.nextId)));
      LaunchCarries(w, m, ForV2c(rid), target, t, out);
      CarriesGrow(m, Launch(w, m, ForV2c(rid), target, t, out));
    } else if Unsupported(auth.creds).Some? {
      RequestEnds(m.ops, rid, Failed(Fault(Unsupported(auth.creds).value)));
    } else {
      EnsureCarries(w, m, rid);
      CarriesGrow(m, EnsureEngine(w, m, rid));
    }
  }

  lemma CarriesGrow(s: State, s': State)
    requires Carries(s, s')
    ensures OpsGrow(s.ops, s'.ops)
  {
  }

  lemma AfterNext(j: Journey, n: nat)
    requires n < |j.trace|
    ensures After(j, n + 1) == Step(j.w, After(j, n), j.trace[n])
  {
    hide Step, Run;
    RunSnoc(j.w, Initial(j.now, j.first), j.trace[..n], j.trace[n]);
    assert j.trace[..n] + [j.trace[n]] == j.trace[..n + 1];
  }

  predicate MadeWith(s: State, rid: nat, target: Target, auth: Auth, pdu: Pdu) {
    rid < |s.ops.rs| && s.ops.rs[rid].target == target && s.ops.rs[rid].auth == auth && s.ops.rs[rid].pdu == pdu
  }

  lemma {:induction false} StaysAsMade(j: Journey, n: nat, m: nat, rid: nat, pdu: Pdu)
    requires n <= m <= |j.trace| && MadeWith(After(j, n), rid, j.target, j.auth, pdu)
    ensures MadeWith(After(j, m), rid, j.target, j.auth, pdu)
    decreases m
  {
    hide After, Step, Linked;
    if n < m {
      StaysAsMade(j, n, m - 1, rid, pdu);
      AfterNext(j, m - 1);
      AfterLinked(j, m - 1);
      StepFollows(j.w, After(j, m - 1), j.trace[m - 1]);
    }
  }

  lemma AfterLinked(j: Journey, n: nat)
    requires n <= |j.trace|
    ensures Linked(After(j, n))
  {
  }

  lemma LegMade(j: Journey, leg: Leg, q: Walks.Query)
    requires Completed(j, leg, q)
    ensures MadeWith(After(j, leg.ended), RequestOf(j, leg), j.target, j.auth, QueryPdu(q))
  {
    hide After, Step, Linked;
    AfterLinked(j, leg.asked);
    AfterNext(j, leg.asked);
    CallAdds(j.w, After(j, leg.asked), j.target, j.auth, QueryPdu(q));
    StaysAsMade(j, leg.asked + 1, leg.ended, RequestOf(j, leg), QueryPdu(q));
  }

  //
  // What the Walk gets
  //

  /**
   * A reply without error is exactly one datagram: a Response the Client accepted from the Walk's Target, for a request
   * of this Walk that was sent as it was asked.
   */
  lemma ReplyIsOneDatagram(j: Journey, k: nat, q: Walks.Query) returns (x: nat, d: octets)
    requires ReplyOf(j, k, q).ec == NoError
    ensures k < |j.legs| && Completed(j, j.legs[k], q)
    ensures var s := After(j, j.legs[k].ended);
            && x < |s.net.xs| && Datagram(d, j.target.endpoint) in j.trace[..j.legs[k].ended]
            && AnswerFrom(j.w, s.net.xs[x].pending, d)
            && s.net.xs[x].pending.answered && s.net.xs[x].pending.response.kind == Response
            && s.net.xs[x].pending.response.errorStatus == 0
            && s.net.xs[x].pending.response.varbinds == ReplyOf(j, k, q).varbinds
            && s.net.xs[x].pending.terms.from == j.target.endpoint
            && SentPdu(s.net.xs[x].sent) == QueryPdu(q).(requestId := s.net.xs[x].pending.terms.id)
            && j.w.encode(s.net.xs[x].sent).None?
  {
    hide Run, AnswerFrom;
    var leg := j.legs[k];
    LegMade(j, leg, q);
    x, d := CallerGetsOneDatagram(j.w, j.now, j.first, j.trace[..leg.ended], RequestOf(j, leg));
    SentAsAsked(j.w, j.now, j.first, j.trace[..leg.ended], x);
  }

  function SentPdu(out: Outgoing): Pdu {
    match out
    case V2cOut(m) => m.pdu
    case V3Out(_, _, scoped, _, _, _, _) => scoped.pdu
  }

  /** What an accepted datagram answers with names only OIDs that can be encoded. */
  lemma AnswerEncodable(w: World, c: Crypto, p: Pending, d: octets)
    requires Codecs(w, c) && AnswerFrom(w, p, d)
    ensures PduEncodable(p.response)
  {
    hide DecodeV2c, DecodeV3, VersionOf, Decrypt, Verifies, PduEncodable;
    assert w.arrival(d) == ArrivalOf(d);
    if w.arrival(d).V2cArrival? {
      AcceptedV2cIsStable(d);
    } else {
      var msg := w.arrival(d).v3;
      AcceptedV3IsEncodable(c, d, p.terms.privProtocol, p.terms.privKey);
      assert w.decrypt(msg, p.terms.privProtocol, p.terms.privKey)
          == Decrypt(c, msg, p.terms.privProtocol, p.terms.privKey);
    }
  }

  lemma NamesEncodable(pdu: Pdu, i: nat)
    requires PduEncodable(pdu) && i < |pdu.varbinds|
    ensures IsEncodable(pdu.varbinds[i].name)
  {
    ListNames(pdu.varbinds, i);
  }

  lemma {:induction false} ListNames(vbs: seq<Varbind>, i: nat)
    requires AllEncodable(vbs) && i < |vbs|
    ensures IsEncodable(vbs[i].name)
    decreases |vbs|
  {
    hide IsEncodable, ValueEncodable;
    if i > 0 { ListNames(vbs[1..], i - 1); }
  }

  /**
   * What the Walk needs of its surroundings, the Client gives it in every run: the names in a reply can all be encoded,
   * and a request for an OID that cannot be encoded does not succeed.
   */
  lemma WalkIsWired(j: Journey, c: Crypto, cancelBefore: nat -> Cancellation, cancelAfter: nat -> Cancellation,
                    handler: (seq<Varbind>, seq<Varbind>) -> bool)
    requires Codecs(j.w, c) && Encoders(j.w)
    ensures Walks.Wired(WalkWorld(j, cancelBefore, cancelAfter, handler))
  {
    hide ReplyOf, Codecs, Encoders, StoppingAt, PduEncodable, IsEncodable, AnswerFrom;
    var v := WalkWorld(j, cancelBefore, cancelAfter, handler);
    forall k: nat, q: Walks.Query, i | 0 <= i < |v.reply(k, q).varbinds|
      ensures IsEncodable(v.reply(k, q).varbinds[i].name)
    {
      ReplyNames(j, c, k, q, i);
    }
    forall k: nat, q: Walks.Query | !IsEncodable(q.current) ensures v.reply(k, q).ec != NoError {
      if ReplyOf(j, k, q).ec == NoError { AskedEncodable(j, k, q); }
    }
  }

  lemma ReplyNames(j: Journey, c: Crypto, k: nat, q: Walks.Query, i: nat)
    requires Codecs(j.w, c) && i < |ReplyOf(j, k, q).varbinds|
    ensures IsEncodable(ReplyOf(j, k, q).varbinds[i].name)
  {
    hide After, Codecs, PduEncodable, IsEncodable, AnswerFrom;
    var x, d := ReplyIsOneDatagram(j, k, q);
    var p := After(j, j.legs[k].ended).net.xs[x].pending;
    AnswerEncodable(j.w, c, p, d);
    NamesEncodable(p.response, i);
  }

  lemma AskedEncodable(j: Journey, k: nat, q: Walks.Query)
    requires Encoders(j.w) && ReplyOf(j, k, q).ec == NoError
    ensures IsEncodable(q.current)
  {
    hide After, ReplyOf, PduEncodable, IsEncodable, AnswerFrom;
    var x, d := ReplyIsOneDatagram(j, k, q);
    var out := After(j, j.legs[k].ended).net.xs[x].sent;
    assert PduEncodable(SentPdu(out)) by { EncodedWas(j.w, out); }
    NamesEncodable(SentPdu(out), 0);
  }

  lemma EncodedWas(w: World, out: Outgoing)
    requires Encoders(w) && w.encode(out).None?
    ensures PduEncodable(SentPdu(out))
  {
    hide PduEncodable;
  }

  //
  // Stopping
  //

  /** A step cannot take Stopping back. */
  lemma {:induction false} StopSticks(j: Journey, n: nat, m: nat)
    requires n <= m <= |j.trace| && (After(j, n).stopping || (n < m && j.trace[n] == Stop))
    ensures After(j, m).stopping
    decreases m
  {
    hide After, Step, Linked;
    if n < m {
      AfterNext(j, m - 1);
      AfterLinked(j, m - 1);
      StepFollows(j.w, After(j, m - 1), j.trace[m - 1]);
      if n < m - 1 || After(j, n).stopping { StopSticks(j, n, m - 1); }
    }
  }

  /** The Walk calls its batch handler in this iteration. */
  predicate Hands(v: Walks.World, base: Oid, p: Walks.Position) {
    && v.cancelBefore(p.k) == NotCancelled && Walks.Answer(v, p).ec == NoError && !v.stopping(p.k)
    && var scan := Walks.ScanFrom(base, p.current, Walks.Answer(v, p).varbinds); scan.Scan? && scan.batch != []
  }

  /**
   * No batch handler is called once the Client is stopping: whenever the Walk calls it, no Stop has happened in the run
   * up to that moment, and what it hands over is from one datagram that was received before it.
   */
  lemma NoBatchAfterStop(j: Journey, cancelBefore: nat -> Cancellation, cancelAfter: nat -> Cancellation,
                         handler: (seq<Varbind>, seq<Varbind>) -> bool, base: Oid, p: Walks.Position)
    returns (d: octets)
    requires Hands(WalkWorld(j, cancelBefore, cancelAfter, handler), base, p)
    ensures p.k < |j.legs| && j.legs[p.k].ended <= |j.trace|
    ensures Stop !in j.trace[..j.legs[p.k].ended]
    ensures Datagram(d, j.target.endpoint) in j.trace[..j.legs[p.k].ended]
  {
    hide After, AnswerFrom, Walks.ScanFrom;
    var q := Walks.Query(p.current, p.maxRepetitions);
    var x;
    x, d := ReplyIsOneDatagram(j, p.k, q);
    var n := j.legs[p.k].ended;
    if Stop in j.trace[..n] {
      var i :| 0 <= i < n && j.trace[..n][i] == Stop;
      StopSticks(j, i, n);
    }
  }

  /** An iteration calls the handler exactly when it delivers a batch: what it says is handed is what it adds. */
  lemma HandsWhatIsDelivered(v: Walks.World, base: Oid, p: Walks.Position)
    ensures var turn := Walks.TurnAt(v, base, p);
            !Hands(v, base, p) <==> (if turn.Goes? then turn.to.delivered else turn.outcome.delivered) == p.delivered
  {
    var scan := Walks.ScanFrom(base, p.current, Walks.Answer(v, p).varbinds);
    if scan.Scan? {
      assert |p.delivered + scan.batch| == |p.delivered| + |scan.batch|;
      assert scan.batch == [] ==> p.delivered + scan.batch == p.delivered;
    }
  }

  /**
   * The Walk over a run of the Client, whatever the peer: it ends, its rows ascend within the Subtree, and it succeeds
   * only on a terminator in the last Response it was given.
   */
  lemma WalkOverClient(j: Journey, c: Crypto, cancelBefore: nat -> Cancellation, cancelAfter: nat -> Cancellation,
                       handler: (seq<Varbind>, seq<Varbind>) -> bool, base: Oid, options: int32)
    requires Codecs(j.w, c) && Encoders(j.w)
    ensures var v := WalkWorld(j, cancelBefore, cancelAfter, handler);
            && Walks.Wired(v)
            && var out, last := Walks.WalkFrom(v, base, Walks.Start(base, options)),
                                Walks.LastPosition(v, base, Walks.Start(base, options));
               && (forall i :: 0 <= i < |out.delivered| ==>
                     Under(base, out.delivered[i].name) && Less(base, out.delivered[i].name))
               && (forall a, b :: 0 <= a < b < |out.delivered| ==> Less(out.delivered[a].name, out.delivered[b].name))
               && (out.ec == NoError ==>
                     && last.k < |j.legs|
                     && Completed(j, j.legs[last.k], Walks.Query(last.current, last.maxRepetitions))
                     && Stop !in j.trace[..j.legs[last.k].ended]
                     && exists i :: 0 <= i < |Walks.Answer(v, last).varbinds|
                                    && Walks.Terminates(base, Walks.Answer(v, last).varbinds[i]))
  {
    hide After, Codecs, Encoders, Walks.Wired, Walks.WalkFrom, Walks.LastPosition, Walks.Reaches, Walks.ScanFrom,
         AnswerFrom, Completed;
    var v := WalkWorld(j, cancelBefore, cancelAfter, handler);
    WalkIsWired(j, c, cancelBefore, cancelAfter, handler);
    Walks.WalkSafe(v, base, options);
    var last := Walks.LastPosition(v, base, Walks.Start(base, options));
    if Walks.WalkFrom(v, base, Walks.Start(base, options)).ec == NoError {
      var q := Walks.Query(last.current, last.maxRepetitions);
      var x, d := ReplyIsOneDatagram(j, last.k, q);
      NotStopped(j, last.k, q);
    }
  }

  lemma NotStopped(j: Journey, k: nat, q: Walks.Query)
    requires k < |j.legs| && Completed(j, j.legs[k], q) && !StoppingAt(j, k)
    ensures Stop !in j.trace[..j.legs[k].ended]
  {
    hide After;
    var n := j.legs[k].ended;
    if Stop in j.trace[..n] {
      var i :| 0 <= i < n && j.trace[..n][i] == Stop;
      StopSticks(j, i, n);
    }
  }
}
