/** The Walk against an Agent that answers PDUs: what each request asks for, and that the Subtree comes back whole. */
module WalkAgents {
  import opened Octets
  import opened Errors
  import opened Oids
  import opened BerGrammar
  import opened Pdus
  import opened Usm
  import opened ClientModel
  import opened ClientTrust
  import opened ClientCodecs
  import opened WalkRuns

  //
  // Sections 4.2.2 and 4.2.3 of RFC 3416
  //

  /** The first of the two fields a GETBULK has where other PDUs have their error status and index. */
  function NonRepeaters(req: Pdu): int {
    req.errorStatus
  }

  function MaxRepetitions(req: Pdu): int {
    req.errorIndex
  }

  /** How many names a GETBULK asks one successor of. */
  function Singles(req: Pdu): nat {
    if NonRepeaters(req) < 0 then 0
    else if NonRepeaters(req) > |req.varbinds| then |req.varbinds| else NonRepeaters(req)
  }

  /** How many successors it asks of each of the others. */
  function Rounds(req: Pdu): nat {
    if MaxRepetitions(req) < 0 then 0 else MaxRepetitions(req)
  }

  function Repeaters(req: Pdu): nat {
    |req.varbinds| - Singles(req)
  }

  /** The most entries a Response to it has. */
  function Entries(req: Pdu): nat {
    Singles(req) + Rounds(req) * Repeaters(req)
  }

  /** Successor number `i` of a name in a table, counting from zero; endOfMibView past the end. */
  predicate Successor(table: seq<Varbind>, name: Oid, i: nat, vb: Varbind) {
    var rest := Walks.After(table, name);
    if i < |rest| then vb == rest[i] else vb.val == EndOfMibView
  }

  /** One successor of each name. */
  ghost predicate AnswersNext(table: seq<Varbind>, req: Pdu, vbs: seq<Varbind>) {
    |vbs| == |req.varbinds| && forall k :: 0 <= k < |vbs| ==> Successor(table, req.varbinds[k].name, 0, vbs[k])
  }

  /** One successor of each single, then round after round one more of each repeater; cut short if it must be. */
  ghost predicate AnswersBulk(table: seq<Varbind>, req: Pdu, vbs: seq<Varbind>) {
    && |vbs| <= Entries(req) && (Entries(req) > 0 ==> vbs != [])
    && forall k :: 0 <= k < |vbs| ==>
         if k < Singles(req) then Successor(table, req.varbinds[k].name, 0, vbs[k])
         else Repeaters(req) > 0 ==>
                var j := k - Singles(req);
                Successor(table, req.varbinds[Singles(req) + j % Repeaters(req)].name, j / Repeaters(req), vbs[k])
  }

  ghost predicate AnswersPdu(table: seq<Varbind>, req: Pdu, vbs: seq<Varbind>) {
    && (req.kind == GetNext ==> AnswersNext(table, req, vbs))
    && (req.kind == GetBulk ==> AnswersBulk(table, req, vbs))
  }

  //
  // What a Walk asks
  //

  /**
   * One name. GETNEXT where `maxRepetitions` is not positive; otherwise a GETBULK without singles, for exactly that
   * many successors of that one name.
   */
  predicate AsksFor(req: Pdu, q: Walks.Query) {
    && |req.varbinds| == 1 && req.varbinds[0].name == q.current && req.varbinds[0].val == Null
    && (req.kind == GetNext <==> q.maxRepetitions <= 0)
    && (req.kind == GetBulk <==> q.maxRepetitions > 0)
    && (req.kind == GetNext ==> req.errorStatus == 0 && req.errorIndex == 0)
    && (req.kind == GetBulk ==>
          Singles(req) == 0 && Repeaters(req) == 1 && Rounds(req) == Entries(req) == q.maxRepetitions as int)
  }

  /** Every reply of a Walk in a run is the answer to a PDU that asked for just this iteration's rows. */
  lemma LegAsks(j: Journey, k: nat, q: Walks.Query) returns (x: nat)
    requires ReplyOf(j, k, q).ec == NoError
    ensures k < |j.legs| && Completed(j, j.legs[k], q)
    ensures var s := After(j, j.legs[k].ended);
            && x < |s.net.xs| && AsksFor(SentPdu(s.net.xs[x].sent), q)
            && s.net.xs[x].pending.answered && s.net.xs[x].pending.terms.from == j.target.endpoint
            && s.net.xs[x].pending.response.kind == Response && s.net.xs[x].pending.response.errorStatus == 0
            && s.net.xs[x].pending.response.varbinds == ReplyOf(j, k, q).varbinds
  {
    hide After, AnswerFrom, ReplyOf;
    var d;
    x, d := ReplyIsOneDatagram(j, k, q);
  }

  //
  // The Subtree
  //

  /**
   * Every Response the Client took from the Walk's Target, in the whole run, is this Agent's answer to what was sent.
   */
  ghost predicate Serves(j: Journey, table: seq<Varbind>) {
    forall n: nat, x: nat :: n <= |j.trace| && x < |After(j, n).net.xs| ==>
      ServedAt(After(j, n).net.xs[x], j.target, table)
  }

  ghost predicate ServedAt(e: Exchange, target: Target, table: seq<Varbind>) {
    e.pending.answered && e.pending.terms.from == target.endpoint && e.pending.response.kind == Response
    && e.pending.response.errorStatus == 0 ==>
      AnswersPdu(table, SentPdu(e.sent), e.pending.response.varbinds)
  }

  lemma AnswerIsSuccessors(table: seq<Varbind>, req: Pdu, q: Walks.Query, vbs: seq<Varbind>)
    requires AsksFor(req, q) && AnswersPdu(table, req, vbs)
    ensures Walks.Successors(Walks.After(table, q.current), vbs)
    ensures |vbs| <= (if q.maxRepetitions <= 0 then 1 else q.maxRepetitions as int)
  {
    hide Walks.After;
    if req.kind == GetBulk {
      forall k | 0 <= k < |vbs| ensures Successor(table, q.current, k, vbs[k]) {
        assert (k - Singles(req)) % Repeaters(req) == 0 && (k - Singles(req)) / Repeaters(req) == k;
      }
    }
  }

  lemma ServesCompliantly(j: Journey, table: seq<Varbind>, cancelBefore: nat -> Cancellation,
                          cancelAfter: nat -> Cancellation, handler: (seq<Varbind>, seq<Varbind>) -> bool)
    requires Serves(j, table)
    ensures Walks.Compliant(WalkWorld(j, cancelBefore, cancelAfter, handler), table)
  {
    hide ReplyOf, StoppingAt, After, AsksFor, AnswersPdu, Walks.After, Walks.Successors;
    var v := WalkWorld(j, cancelBefore, cancelAfter, handler);
    forall k: nat, q: Walks.Query | v.reply(k, q).ec == NoError
      ensures Walks.Successors(Walks.After(table, q.current), v.reply(k, q).varbinds)
      ensures |v.reply(k, q).varbinds| <= (if q.maxRepetitions <= 0 then 1 else q.maxRepetitions as int)
    {
      var x := LegAsks(j, k, q);
      var e := After(j, j.legs[k].ended).net.xs[x];
      assert ServedAt(e, j.target, table);
      AnswerIsSuccessors(table, SentPdu(e.sent), q, v.reply(k, q).varbinds);
    }
  }

  /**
   * A Walk made of a run's requests, against an Agent that answers PDUs as the RFC says over a sorted table: whatever
   * happens it delivers a prefix of the Subtree in order, and all of it when it succeeds, in either mode and at any
   * size.
   */
  lemma WalkOfAgent(j: Journey, c: Crypto, table: seq<Varbind>, cancelBefore: nat -> Cancellation,
                    cancelAfter: nat -> Cancellation, handler: (seq<Varbind>, seq<Varbind>) -> bool, base: Oid,
                    options: int32)
    requires Codecs(j.w, c) && Encoders(j.w) && Serves(j, table) && Walks.Sorted(table)
    ensures var v := WalkWorld(j, cancelBefore, cancelAfter, handler);
            && Walks.Wired(v)
            && var out := Walks.WalkFrom(v, base, Walks.Start(base, options));
               && out.delivered <= Walks.Subtree(table, base)
               && (out.ec == NoError ==> out.delivered == Walks.Subtree(table, base))
  {
    hide Serves, Codecs, Encoders, WalkWorld, Walks.Wired, Walks.WalkFrom, Walks.Subtree, Walks.Sorted, Walks.Compliant;
    WalkIsWired(j, c, cancelBefore, cancelAfter, handler);
    ServesCompliantly(j, table, cancelBefore, cancelAfter, handler);
    Walks.WalkExact(WalkWorld(j, cancelBefore, cancelAfter, handler), table, base, options);
  }
}
