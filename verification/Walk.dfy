/** The Walk: a Subtree traversed with repeated GETNEXT or GETBULK requests. */
module Walks {
  import opened Octets
  import opened Errors
  import opened Oids
  import opened BerGrammar

  const TOO_BIG: int := 1

  /** What one iteration asks: GETNEXT when `maxRepetitions` is not positive, GETBULK otherwise. */
  datatype Query = Query(current: Oid, maxRepetitions: int32)

  datatype Reply = Reply(ec: ErrorCode, varbinds: seq<Varbind>)

  /** Everything outside the loop, by iteration: the Agent, cancellation, Stopping, and the caller's batch handler. */
  datatype World = World(
    reply: (nat, Query) -> Reply,
    cancelBefore: nat -> Cancellation,
    cancelAfter: nat -> Cancellation,
    stopping: nat -> bool,
    handler: (seq<Varbind>, seq<Varbind>) -> bool)

  /** Names come from the decoder, and a request for an OID that cannot be encoded does not succeed. */
  ghost predicate Wired(w: World) {
    && (forall k: nat, q: Query, i :: 0 <= i < |w.reply(k, q).varbinds| ==> IsEncodable(w.reply(k, q).varbinds[i].name))
    && (forall k: nat, q: Query :: !IsEncodable(q.current) ==> w.reply(k, q).ec != NoError)
  }

  datatype Outcome = Outcome(ec: ErrorCode, delivered: seq<Varbind>)

  function StopNow(c: Cancellation): Option<ErrorCode> {
    match c
    case NotCancelled => None
    case Total => Some(Fault(WalkIncomplete))
    case Terminal => Some(OperationAborted)
  }

  predicate Terminates(base: Oid, vb: Varbind) {
    IsException(vb.val) || !Under(base, vb.name)
  }

  /** What scanning one Response comes to. */
  datatype Scan = Scan(batch: seq<Varbind>, current: Oid, done: bool) | WentBack

  function Prepend(vb: Varbind, s: Scan): Scan {
    match s
    case Scan(batch, current, done) => Scan([vb] + batch, current, done)
    case WentBack => WentBack
  }

  function ScanFrom(base: Oid, current: Oid, vbs: seq<Varbind>): Scan
    decreases |vbs|
  {
    if vbs == [] then Scan([], current, false)
    else if Terminates(base, vbs[0]) then Scan([], current, true)
    else if !Less(current, vbs[0].name) then WentBack
    else Prepend(vbs[0], ScanFrom(base, vbs[0].name, vbs[1..]))
  }

  method ScanResponse(base: Oid, start: Oid, vbs: seq<Varbind>) returns (s: Scan)
    ensures s == ScanFrom(base, start, vbs)
  {
    var batch: seq<Varbind>, current, i := [], start, 0;
    assert vbs[0..] == vbs;
    while i < |vbs|
      invariant 0 <= i <= |vbs|
      invariant ScanFrom(base, start, vbs) == PrependAll(batch, ScanFrom(base, current, vbs[i..]))
    {
      var under := IsPrefixOf(base, vbs[i].name);
      PrependAllShape(batch, ScanFrom(base, current, vbs[i..]));
      if IsException(vbs[i].val) || !under { return Scan(batch, current, true); }
      if !Less(current, vbs[i].name) { return WentBack; }
      PrependAllNext(batch, vbs[i], ScanFrom(base, vbs[i].name, vbs[i + 1..]));
      assert vbs[i..][1..] == vbs[i + 1..];
      current := vbs[i].name;
      batch := batch + [vbs[i]];
      i := i + 1;
    }
    PrependAllShape(batch, ScanFrom(base, current, vbs[i..]));
    return Scan(batch, current, false);
  }

  function PrependAll(vbs: seq<Varbind>, s: Scan): Scan {
    match s
    case Scan(batch, current, done) => Scan(vbs + batch, current, done)
    case WentBack => WentBack
  }

  lemma PrependAllShape(vbs: seq<Varbind>, s: Scan)
    ensures s.Scan? && s.batch == [] ==> PrependAll(vbs, s) == Scan(vbs, s.current, s.done)
    ensures PrependAll([], s) == s
  {
    assert vbs + [] == vbs;
    if s.Scan? { assert [] + s.batch == s.batch; }
  }

  lemma PrependAllNext(vbs: seq<Varbind>, vb: Varbind, s: Scan)
    ensures PrependAll(vbs, Prepend(vb, s)) == PrependAll(vbs + [vb], s)
  {
    if s.Scan? { assert vbs + ([vb] + s.batch) == vbs + [vb] + s.batch; }
  }

  /** How far an OID is from the end of the walk order. */
  function Height(o: Oid): nat
    requires |o| <= MAX_SUBIDS
  {
    Pow(RANK_BASE, MAX_SUBIDS) - Rank(o, MAX_SUBIDS)
  }

  lemma HeightFalls(a: Oid, b: Oid)
    requires |a| <= MAX_SUBIDS && |b| <= MAX_SUBIDS && Less(a, b)
    ensures Height(b) < Height(a)
  {
    hide Rank, Pow;
    RankMonotone(a, b, MAX_SUBIDS);
  }

  /** A Response that neither ends the Walk nor went back moved it forward, to the last name in it. */
  lemma {:induction false} ScanAdvances(base: Oid, current: Oid, vbs: seq<Varbind>)
    requires ScanFrom(base, current, vbs).Scan?
    ensures var s := ScanFrom(base, current, vbs);
            && (s.current == current || Less(current, s.current))
            && (vbs != [] && !s.done ==> Less(current, s.current) && s.current == vbs[|vbs| - 1].name)
    decreases |vbs|
  {
    if vbs != [] && !Terminates(base, vbs[0]) {
      ScanAdvances(base, vbs[0].name, vbs[1..]);
      var s := ScanFrom(base, vbs[0].name, vbs[1..]);
      if Less(vbs[0].name, s.current) { LessTransitive(current, vbs[0].name, s.current); }
    }
  }

  /** Where a Walk stands as an iteration begins. */
  datatype Position = Position(k: nat, current: Oid, maxRepetitions: int32, delivered: seq<Varbind>)

  function Start(base: Oid, options: int32): Position {
    Position(0, base, options, [])
  }

  function Answer(w: World, p: Position): Reply {
    w.reply(p.k, Query(p.current, p.maxRepetitions))
  }

  datatype Turn = Goes(to: Position) | Ends(outcome: Outcome)

  /** One iteration. */
  function TurnAt(w: World, base: Oid, p: Position): Turn {
    var stop, r := StopNow(w.cancelBefore(p.k)), Answer(w, p);
    if stop.Some? then Ends(Outcome(stop.value, p.delivered))
    else if r.ec == AgentError(TOO_BIG) && p.maxRepetitions > 1 then
      Goes(Position(p.k + 1, p.current, p.maxRepetitions / 2, p.delivered))
    else if r.ec != NoError then
      Ends(Outcome(if StopNow(w.cancelAfter(p.k)).Some? then StopNow(w.cancelAfter(p.k)).value else r.ec, p.delivered))
    else if w.stopping(p.k) then Ends(Outcome(Fault(ClientStopped), p.delivered))
    else if r.varbinds == [] then Ends(Outcome(Fault(MissingVarbind), p.delivered))
    else TurnOver(w, p, ScanFrom(base, p.current, r.varbinds))
  }

  /** What a scanned Response makes of an iteration. */
  function TurnOver(w: World, p: Position, s: Scan): Turn {
    match s
    case WentBack => Ends(Outcome(Fault(NonIncreasingOid), p.delivered))
    case Scan(batch, next, done) =>
      var all := p.delivered + batch;
      if batch != [] && !w.handler(p.delivered, batch) then Ends(Outcome(Fault(WalkIncomplete), all))
      else if done then Ends(Outcome(NoError, all))
      else Goes(Position(p.k + 1, next, p.maxRepetitions, all))
  }

  /** The OID each name of a Response has to come after. */
  function Before(current: Oid, vbs: seq<Varbind>, i: nat): Oid
    requires i < |vbs|
  {
    if i == 0 then current else vbs[i - 1].name
  }

  /** The first `n` entries belong to the Subtree, and each comes after the one before. */
  predicate Rows(base: Oid, current: Oid, vbs: seq<Varbind>, n: nat) {
    && n <= |vbs|
    && forall i :: 0 <= i < n ==>
         !IsException(vbs[i].val) && base <= vbs[i].name && Less(Before(current, vbs, i), vbs[i].name)
  }

  /** A Response as it is read: its rows, up to the first entry that is none or to the end. */
  predicate Read(base: Oid, current: Oid, vbs: seq<Varbind>, s: Scan, n: nat) {
    && Rows(base, current, vbs, n)
    && match s
       case Scan(batch, next, done) =>
         && batch == vbs[..n] && next == (if n == 0 then current else vbs[n - 1].name)
         && (if done then n < |vbs| && (IsException(vbs[n].val) || !(base <= vbs[n].name)) else n == |vbs|)
       case WentBack =>
         && n < |vbs| && !IsException(vbs[n].val) && base <= vbs[n].name && !Less(Before(current, vbs, n), vbs[n].name)
  }

  /** What a Response comes to, told from its entries: how many rows it starts with, and what stands after them. */
  lemma {:induction false} ScanReads(base: Oid, current: Oid, vbs: seq<Varbind>) returns (n: nat)
    ensures Read(base, current, vbs, ScanFrom(base, current, vbs), n)
    decreases |vbs|
  {
    hide Less;
    if vbs == [] || Terminates(base, vbs[0]) || !Less(current, vbs[0].name) {
      n := 0;
    } else {
      var k := ScanReads(base, vbs[0].name, vbs[1..]);
      n := k + 1;
      ReadOneMore(base, current, vbs, ScanFrom(base, vbs[0].name, vbs[1..]), k);
    }
  }

  lemma BeforeShifts(current: Oid, vbs: seq<Varbind>, i: nat)
    requires 1 <= i < |vbs|
    ensures vbs[1..][i - 1] == vbs[i] && Before(vbs[0].name, vbs[1..], i - 1) == Before(current, vbs, i)
  {
  }

  lemma RowsOneMore(base: Oid, current: Oid, vbs: seq<Varbind>, k: nat)
    requires vbs != [] && !Terminates(base, vbs[0]) && Less(current, vbs[0].name)
    requires Rows(base, vbs[0].name, vbs[1..], k)
    ensures Rows(base, current, vbs, k + 1)
  {
    hide Less, Before;
    forall i | 0 <= i < k + 1
      ensures !IsException(vbs[i].val) && base <= vbs[i].name && Less(Before(current, vbs, i), vbs[i].name)
    {
      if i > 0 {
        BeforeShifts(current, vbs, i);
        assert Less(Before(vbs[0].name, vbs[1..], i - 1), vbs[1..][i - 1].name);
      } else {
        assert Before(current, vbs, 0) == current by { FirstBefore(current, vbs); }
      }
    }
  }

  lemma FirstBefore(current: Oid, vbs: seq<Varbind>)
    requires vbs != []
    ensures Before(current, vbs, 0) == current
  {
  }

  lemma ReadOneMore(base: Oid, current: Oid, vbs: seq<Varbind>, s: Scan, k: nat)
    requires vbs != [] && !Terminates(base, vbs[0]) && Less(current, vbs[0].name)
    requires Read(base, vbs[0].name, vbs[1..], s, k)
    ensures Read(base, current, vbs, Prepend(vbs[0], s), k + 1)
  {
    RowsOneMore(base, current, vbs, k);
    hide Less, Rows, Before, Terminates, IsException;
    if k + 1 < |vbs| { BeforeShifts(current, vbs, k + 1); }
    if s.Scan? { BatchOneMore(vbs, k); }
  }

  lemma BatchOneMore(vbs: seq<Varbind>, k: nat)
    requires k < |vbs|
    ensures vbs[..k + 1] == [vbs[0]] + vbs[1..][..k]
    ensures vbs[k].name == if k == 0 then vbs[0].name else vbs[1..][k - 1].name
  {
  }

  /** How a cancellation ends a Walk: terminal drops it, total stops it where it is. */
  function CutShort(c: Cancellation, otherwise: ErrorCode): ErrorCode {
    match c
    case Terminal => OperationAborted
    case Total => Fault(WalkIncomplete)
    case NotCancelled => otherwise
  }

  /**
   * One iteration, case by case. A signal ends it. tooBig, RFC 3416's error status 1, halves what is asked for while
   * there is anything to halve. Another error ends it, as does Stopping, an empty Response, a name that went back, a
   * handler that wants no more, and the end of the Subtree; otherwise it goes on from the last name.
   */
  lemma TurnMeans(w: World, base: Oid, p: Position) returns (n: nat)
    ensures var turn, r, cancel := TurnAt(w, base, p), Answer(w, p), w.cancelBefore(p.k);
            var halves := r.ec == AgentError(1) && p.maxRepetitions >= 2;
            var read := cancel == NotCancelled && r.ec == NoError && !w.stopping(p.k) && r.varbinds != [];
            && (cancel != NotCancelled ==> turn == Ends(Outcome(CutShort(cancel, NoError), p.delivered)))
            && (cancel == NotCancelled && halves ==>
                  && turn.Goes? && turn.to.k == p.k + 1 && turn.to.current == p.current
                  && turn.to.delivered == p.delivered
                  && 2 * turn.to.maxRepetitions <= p.maxRepetitions < 2 * turn.to.maxRepetitions + 2)
            && (cancel == NotCancelled && r.ec != NoError && !halves ==>
                  turn == Ends(Outcome(CutShort(w.cancelAfter(p.k), r.ec), p.delivered)))
            && (cancel == NotCancelled && r.ec == NoError && w.stopping(p.k) ==>
                  turn == Ends(Outcome(Fault(ClientStopped), p.delivered)))
            && (cancel == NotCancelled && r.ec == NoError && !w.stopping(p.k) && r.varbinds == [] ==>
                  turn == Ends(Outcome(Fault(MissingVarbind), p.delivered)))
            && (read ==> ReadTurn(w, base, p, turn, n))
  {
    var r := Answer(w, p);
    n := ScanReads(base, p.current, r.varbinds);
  }

  /** An iteration that read a Response with `n` rows in front. */
  predicate ReadTurn(w: World, base: Oid, p: Position, turn: Turn, n: nat) {
    var vbs := Answer(w, p).varbinds;
    && Rows(base, p.current, vbs, n)
    && var all, wanted := p.delivered + vbs[..n], n == 0 || w.handler(p.delivered, vbs[..n]);
       if n < |vbs| && !IsException(vbs[n].val) && base <= vbs[n].name then
         !Less(Before(p.current, vbs, n), vbs[n].name) && turn == Ends(Outcome(Fault(NonIncreasingOid), p.delivered))
       else if !wanted then turn == Ends(Outcome(Fault(WalkIncomplete), all))
       else if n < |vbs| then turn == Ends(Outcome(NoError, all))
       else turn == Goes(Position(p.k + 1, if n == 0 then p.current else vbs[n - 1].name, p.maxRepetitions, all))
  }

  function Room(o: Oid): nat {
    if |o| <= MAX_SUBIDS then Height(o) else 0
  }

  /** Every iteration that does not end the Walk leaves less of the walk order ahead, or asks for less. */
  lemma TurnLowers(w: World, base: Oid, p: Position)
    requires Wired(w) && TurnAt(w, base, p).Goes?
    ensures var q := TurnAt(w, base, p).to;
            Room(q.current) < Room(p.current)
            || (Room(q.current) == Room(p.current) && 0 <= q.maxRepetitions < p.maxRepetitions)
  {
    hide Height;
    var r := Answer(w, p);
    if r.ec == NoError {
      ScanAdvances(base, p.current, r.varbinds);
      HeightFalls(p.current, TurnAt(w, base, p).to.current);
    }
  }

  /** The Walk from a position on. */
  function WalkFrom(w: World, base: Oid, p: Position): Outcome
    requires Wired(w)
    decreases Room(p.current), p.maxRepetitions
  {
    match TurnAt(w, base, p)
    case Ends(outcome) => outcome
    case Goes(next) =>
      TurnLowers(w, base, p);
      WalkFrom(w, base, next)
  }

  /** The position of its last iteration. */
  function LastPosition(w: World, base: Oid, p: Position): Position
    requires Wired(w)
    decreases Room(p.current), p.maxRepetitions
  {
    match TurnAt(w, base, p)
    case Ends(_) => p
    case Goes(next) =>
      TurnLowers(w, base, p);
      LastPosition(w, base, next)
  }

  /** The Walk comes to this position. */
  predicate Reaches(w: World, base: Oid, p: Position, q: Position)
    requires Wired(w)
    decreases Room(p.current), p.maxRepetitions
  {
    p == q ||
    match TurnAt(w, base, p)
    case Ends(_) => false
    case Goes(next) =>
      TurnLowers(w, base, p);
      Reaches(w, base, next, q)
  }

  /** The outcome is that of the last iteration, which the Walk does come to. */
  lemma {:induction false} EndsAtLast(w: World, base: Oid, p: Position)
    requires Wired(w)
    ensures TurnAt(w, base, LastPosition(w, base, p)) == Ends(WalkFrom(w, base, p))
    ensures Reaches(w, base, p, LastPosition(w, base, p))
    decreases Room(p.current), p.maxRepetitions
  {
    hide TurnAt, Room, Wired;
    if TurnAt(w, base, p).Goes? {
      TurnLowers(w, base, p);
      EndsAtLast(w, base, TurnAt(w, base, p).to);
    }
  }

  /** The loop itself. That it ends, whatever the Agent answers, is its `decreases` clause. */
  method Walk(w: World, base: Oid, options: int32) returns (ec: ErrorCode, delivered: seq<Varbind>)
    requires Wired(w)
    ensures Outcome(ec, delivered) == WalkFrom(w, base, Start(base, options))
  {
    hide Wired, ScanFrom, Room;
    var current, maxRepetitions := base, options;
    delivered := [];
    var k := 0;
    while true
      invariant WalkFrom(w, base, Start(base, options))
          == WalkFrom(w, base, Position(k, current, maxRepetitions, delivered))
      decreases Room(current), maxRepetitions
    {
      ghost var p := Position(k, current, maxRepetitions, delivered);
      if TurnAt(w, base, p).Goes? { TurnLowers(w, base, p); }
      var stop := StopNow(w.cancelBefore(k));
      if stop.Some? { return stop.value, delivered; }
      var r := w.reply(k, Query(current, maxRepetitions));
      if r.ec == AgentError(TOO_BIG) && maxRepetitions > 1 {
        maxRepetitions := maxRepetitions / 2;
        k := k + 1;
        continue;
      }
      if r.ec != NoError {
        stop := StopNow(w.cancelAfter(k));
        if stop.Some? { return stop.value, delivered; }
        return r.ec, delivered;
      }
      if w.stopping(k) { return Fault(ClientStopped), delivered; }
      if r.varbinds == [] { return Fault(MissingVarbind), delivered; }
      var s := ScanResponse(base, current, r.varbinds);
      if s.WentBack? { return Fault(NonIncreasingOid), delivered; }
      if s.batch != [] {
        var more := w.handler(delivered, s.batch);
        if !more { return Fault(WalkIncomplete), delivered + s.batch; }
      }
      if s.done { return NoError, delivered + s.batch; }
      current, delivered, k := s.current, delivered + s.batch, k + 1;
    }
  }

  /** The buffering wrapper: a terminal cancellation drops what had arrived. */
  method WalkCollect(w: World, base: Oid, options: int32) returns (ec: ErrorCode, collected: seq<Varbind>)
    requires Wired(w)
    ensures ec == WalkFrom(w, base, Start(base, options)).ec
    ensures collected == if ec == OperationAborted then [] else WalkFrom(w, base, Start(base, options)).delivered
  {
    ec, collected := Walk(w, base, options);
    if ec == OperationAborted { collected := []; }
  }

  // What holds against any Agent at all.

  /** Names strictly increasing from `from`, every one of them in the Subtree. */
  predicate Ascends(base: Oid, from: Oid, vbs: seq<Varbind>)
    decreases |vbs|
  {
    vbs == [] || (Under(base, vbs[0].name) && Less(from, vbs[0].name) && Ascends(base, vbs[0].name, vbs[1..]))
  }

  function LastName(from: Oid, vbs: seq<Varbind>): Oid {
    if vbs == [] then from else vbs[|vbs| - 1].name
  }

  lemma {:induction false} AscendsAppend(base: Oid, from: Oid, a: seq<Varbind>, b: seq<Varbind>)
    requires Ascends(base, from, a) && Ascends(base, LastName(from, a), b)
    ensures Ascends(base, from, a + b)
    ensures LastName(from, a + b) == LastName(LastName(from, a), b)
    decreases |a|
  {
    hide Less, Under;
    if a == [] {
      assert a + b == b;
    } else {
      assert LastName(a[0].name, a[1..]) == LastName(from, a);
      AscendsAppend(base, a[0].name, a[1..], b);
      assert (a + b)[1..] == a[1..] + b && (a + b)[0] == a[0];
      assert b == [] || (a + b)[|a + b| - 1] == b[|b| - 1];
    }
  }

  /** `Ascends` said without the recursion. */
  lemma {:induction false} AscendsMeans(base: Oid, from: Oid, vbs: seq<Varbind>)
    requires Ascends(base, from, vbs)
    ensures forall i :: 0 <= i < |vbs| ==> Under(base, vbs[i].name) && Less(from, vbs[i].name)
    ensures forall i, j :: 0 <= i < j < |vbs| ==> Less(vbs[i].name, vbs[j].name)
    decreases |vbs|
  {
    if vbs != [] {
      AscendsMeans(base, vbs[0].name, vbs[1..]);
      forall i | 1 <= i < |vbs|
        ensures Under(base, vbs[i].name) && Less(vbs[0].name, vbs[i].name) && Less(from, vbs[i].name)
      {
        assert vbs[i] == vbs[1..][i - 1];
        LessTransitive(from, vbs[0].name, vbs[i].name);
      }
      forall i, j | 0 <= i < j < |vbs| ensures Less(vbs[i].name, vbs[j].name) {
        if i > 0 { assert vbs[i] == vbs[1..][i - 1] && vbs[j] == vbs[1..][j - 1]; }
      }
    }
  }

  lemma {:induction false} ScanAscends(base: Oid, current: Oid, vbs: seq<Varbind>)
    requires ScanFrom(base, current, vbs).Scan?
    ensures var s := ScanFrom(base, current, vbs);
            && Ascends(base, current, s.batch) && s.current == LastName(current, s.batch)
            && (s.done ==> exists i :: 0 <= i < |vbs| && Terminates(base, vbs[i]))
    decreases |vbs|
  {
    if vbs != [] && !Terminates(base, vbs[0]) {
      ScanAscends(base, vbs[0].name, vbs[1..]);
      var rest := ScanFrom(base, vbs[0].name, vbs[1..]);
      assert ([vbs[0]] + rest.batch)[1..] == rest.batch;
      if rest.done {
        var i :| 0 <= i < |vbs[1..]| && Terminates(base, vbs[1..][i]);
        assert Terminates(base, vbs[i + 1]);
      }
    }
  }

  /** Whatever the Agent answers, what was handed over ascends within the Subtree. */
  lemma {:induction false} WalkAscends(w: World, base: Oid, p: Position)
    requires Wired(w)
    requires Ascends(base, base, p.delivered) && p.current == LastName(base, p.delivered)
    ensures var out := WalkFrom(w, base, p); p.delivered <= out.delivered && Ascends(base, base, out.delivered)
    decreases Room(p.current), p.maxRepetitions
  {
    hide Room, Wired, Less, Under, Ascends, LastName, ScanFrom;
    var turn, r := TurnAt(w, base, p), Answer(w, p);
    if r.ec == NoError && ScanFrom(base, p.current, r.varbinds).Scan? {
      ScanAscends(base, p.current, r.varbinds);
      AscendsAppend(base, base, p.delivered, ScanFrom(base, p.current, r.varbinds).batch);
    }
    if turn.Goes? {
      TurnLowers(w, base, p);
      WalkAscends(w, base, turn.to);
    }
  }

  /** Once Stopping has begun the batch handler is not called again, whatever is still in hand. */
  lemma {:induction false} NoBatchOnceStopping(w: World, base: Oid, p: Position)
    requires Wired(w)
    requires forall j: nat :: p.k <= j ==> w.stopping(j)
    ensures WalkFrom(w, base, p).delivered == p.delivered
    ensures WalkFrom(w, base, p).ec != NoError
    decreases p.maxRepetitions
  {
    hide Wired, Room, ScanFrom;
    if TurnAt(w, base, p).Goes? {
      NoBatchOnceStopping(w, base, TurnAt(w, base, p).to);
    }
  }

  /**
   * The promise of a Walk against an arbitrary Agent: names in the Subtree, strictly increasing; and success if and
   * only if in its last iteration, from where that one asked, the Response came to a terminator and what came before
   * it was taken. It is then everything delivered earlier and the rows before that terminator.
   */
  lemma WalkSafe(w: World, base: Oid, options: int32)
    requires Wired(w)
    ensures var out := WalkFrom(w, base, Start(base, options));
            && (forall i :: 0 <= i < |out.delivered| ==>
                  Under(base, out.delivered[i].name) && Less(base, out.delivered[i].name))
            && (forall i, j :: 0 <= i < j < |out.delivered| ==> Less(out.delivered[i].name, out.delivered[j].name))
    ensures var out, last := WalkFrom(w, base, Start(base, options)), LastPosition(w, base, Start(base, options));
            var scan := ScanFrom(base, last.current, Answer(w, last).varbinds);
            && Reaches(w, base, Start(base, options), last)
            && (out.ec == NoError <==>
                  && w.cancelBefore(last.k) == NotCancelled && Answer(w, last).ec == NoError && !w.stopping(last.k)
                  && scan.Scan? && scan.done && (scan.batch == [] || w.handler(last.delivered, scan.batch)))
            && (out.ec == NoError ==>
                  && out.delivered == last.delivered + scan.batch
                  && exists i :: 0 <= i < |Answer(w, last).varbinds| && Terminates(base, Answer(w, last).varbinds[i]))
  {
    hide WalkFrom, LastPosition, Reaches;
    WalkAscends(w, base, Start(base, options));
    AscendsMeans(base, base, WalkFrom(w, base, Start(base, options)).delivered);
    EndsAtLast(w, base, Start(base, options));
    LastTurn(w, base, LastPosition(w, base, Start(base, options)), WalkFrom(w, base, Start(base, options)));
  }

  lemma LastTurn(w: World, base: Oid, last: Position, out: Outcome)
    requires Wired(w) && TurnAt(w, base, last) == Ends(out)
    ensures var scan := ScanFrom(base, last.current, Answer(w, last).varbinds);
            && (out.ec == NoError <==>
                  && w.cancelBefore(last.k) == NotCancelled && Answer(w, last).ec == NoError && !w.stopping(last.k)
                  && scan.Scan? && scan.done && (scan.batch == [] || w.handler(last.delivered, scan.batch)))
            && (out.ec == NoError ==>
                  && out.delivered == last.delivered + scan.batch
                  && exists i :: 0 <= i < |Answer(w, last).varbinds| && Terminates(base, Answer(w, last).varbinds[i]))
  {
    hide Wired;
    if ScanFrom(base, last.current, Answer(w, last).varbinds).Scan? {
      ScanAscends(base, last.current, Answer(w, last).varbinds);
    }
  }

  // What holds against a compliant Agent: sections 4.2.2 and 4.2.3 of RFC 3416.

  ghost predicate Sorted(table: seq<Varbind>) {
    && (forall i, j :: 0 <= i < j < |table| ==> Less(table[i].name, table[j].name))
    && (forall i :: 0 <= i < |table| ==> !IsException(table[i].val))
  }

  /** The rows of a table after an OID. */
  function After(table: seq<Varbind>, o: Oid): seq<Varbind> {
    if table == [] then [] else if Less(o, table[0].name) then table else After(table[1..], o)
  }

  /** The rows strictly after the base and under it: what a Walk is for. */
  function Subtree(table: seq<Varbind>, base: Oid): seq<Varbind> {
    if table == [] then []
    else if Less(base, table[0].name) && Under(base, table[0].name) then [table[0]] + Subtree(table[1..], base)
    else Subtree(table[1..], base)
  }

  /** A Response in the order of the table: the next rows, then endOfMibView; at least one entry. */
  predicate Successors(rest: seq<Varbind>, vbs: seq<Varbind>) {
    && vbs != []
    && (forall i :: 0 <= i < |vbs| ==> if i < |rest| then vbs[i] == rest[i] else vbs[i].val == EndOfMibView)
  }

  /** The Agent may refuse with tooBig, or fail, whenever it likes; what it answers is as RFC 3416 says. */
  ghost predicate Compliant(w: World, table: seq<Varbind>) {
    forall k: nat, q: Query :: w.reply(k, q).ec == NoError ==>
      && Successors(After(table, q.current), w.reply(k, q).varbinds)
      && |w.reply(k, q).varbinds| <= (if q.maxRepetitions <= 0 then 1 else q.maxRepetitions as int)
  }

  lemma {:induction false} AfterIs(table: seq<Varbind>, o: Oid)
    requires Sorted(table)
    ensures Sorted(After(table, o))
    ensures forall i :: 0 <= i < |After(table, o)| ==> Less(o, After(table, o)[i].name)
    decreases |table|
  {
    if table != [] {
      if Less(o, table[0].name) {
        forall i | 1 <= i < |table| ensures Less(o, table[i].name) { LessTransitive(o, table[0].name, table[i].name); }
      } else {
        AfterIs(table[1..], o);
      }
    }
  }

  /** The rows after the first row after `o` are the rest of the rows after `o`. */
  lemma {:induction false} AfterNext(table: seq<Varbind>, o: Oid)
    requires Sorted(table) && After(table, o) != []
    ensures After(table, After(table, o)[0].name) == After(table, o)[1..]
    decreases |table|
  {
    if Less(o, table[0].name) {
      LessIrreflexive(table[0].name);
      assert After(table, table[0].name) == After(table[1..], table[0].name);
      if |table| > 1 { assert Less(table[0].name, table[1..][0].name); }
    } else {
      AfterNext(table[1..], o);
      AfterIs(table[1..], o);
      var first := After(table, o)[0].name;
      AfterFrom(table[1..], o);
      assert After(table, o)[0] in table[1..];
      LessAsymmetric(table[0].name, first);
    }
  }

  lemma {:induction false} AfterFrom(table: seq<Varbind>, o: Oid)
    ensures forall vb :: vb in After(table, o) ==> vb in table
    decreases |table|
  {
    if table != [] { AfterFrom(table[1..], o); }
  }

  /** Leaving the Subtree once is leaving it for good. */
  lemma {:induction false} NothingBeyond(rest: seq<Varbind>, base: Oid, current: Oid)
    requires Sorted(rest)
    requires current == base || Less(base, current)
    requires forall i :: 0 <= i < |rest| ==> Less(current, rest[i].name)
    requires rest == [] || !Under(base, rest[0].name)
    ensures Subtree(rest, base) == []
    decreases |rest|
  {
    if rest != [] {
      if current != base { LessTransitive(base, current, rest[0].name); }
      if |rest| > 1 && Under(base, rest[1].name) { SubtreeContiguous(base, rest[0].name, rest[1].name); }
      NothingBeyond(rest[1..], base, rest[0].name);
    }
  }

  lemma SuccessorsTail(rest: seq<Varbind>, vbs: seq<Varbind>)
    requires rest != [] && Successors(rest, vbs)
    ensures vbs[0] == rest[0] && (vbs[1..] == [] || Successors(rest[1..], vbs[1..]))
  {
    assert forall i :: 0 <= i < |vbs[1..]| ==> vbs[1..][i] == vbs[i + 1];
  }

  /** A row of the Subtree moves from the rows to come to the batch. */
  lemma OneRow(rest: seq<Varbind>, base: Oid, batch: seq<Varbind>, remaining: seq<Varbind>)
    requires rest != [] && Less(base, rest[0].name) && Under(base, rest[0].name)
    requires Subtree(rest[1..], base) == batch + remaining
    ensures Subtree(rest, base) == [rest[0]] + batch + remaining
  {
  }

  /** One Response of a compliant Agent never goes back, and moves exactly its Subtree rows from `to come` to `seen`. */
  lemma {:induction false} ScanCompliant(table: seq<Varbind>, base: Oid, current: Oid, vbs: seq<Varbind>)
    requires Sorted(table)
    requires current == base || Less(base, current)
    requires vbs == [] || Successors(After(table, current), vbs)
    ensures var s := ScanFrom(base, current, vbs);
            && s.Scan? && (s.current == base || Less(base, s.current))
            && Subtree(After(table, current), base) == s.batch + Subtree(After(table, s.current), base)
            && (s.done ==> Subtree(After(table, s.current), base) == [])
    decreases |vbs|
  {
    hide Less, Under, After, Subtree, Sorted, Successors;
    var rest := After(table, current);
    AfterIs(table, current);
    if vbs == [] {
    } else if rest == [] || !Under(base, rest[0].name) {
      assert Terminates(base, vbs[0]) by { ResponseEnds(base, rest, vbs); }
      NothingBeyond(rest, base, current);
    } else {
      var vb := rest[0];
      SuccessorsTail(rest, vbs);
      if current != base { LessTransitive(base, current, vb.name); }
      AfterNext(table, current);
      RowStays(rest);
      ScanCompliant(table, base, vb.name, vbs[1..]);
      var s := ScanFrom(base, vb.name, vbs[1..]);
      OneRow(rest, base, s.batch, Subtree(After(table, s.current), base));
    }
  }

  lemma RowStays(rest: seq<Varbind>)
    requires rest != [] && Sorted(rest)
    ensures !IsException(rest[0].val)
  {
  }

  lemma ResponseEnds(base: Oid, rest: seq<Varbind>, vbs: seq<Varbind>)
    requires Successors(rest, vbs)
    requires rest == [] || !Under(base, rest[0].name)
    ensures Terminates(base, vbs[0])
  {
  }

  /** The rows before the base are no part of its Subtree. */
  lemma {:induction false} SubtreeIsAfter(table: seq<Varbind>, base: Oid)
    requires Sorted(table)
    ensures Subtree(After(table, base), base) == Subtree(table, base)
    decreases |table|
  {
    if table != [] && !Less(base, table[0].name) { SubtreeIsAfter(table[1..], base); }
  }

  lemma {:induction false} WalkFromCompliant(w: World, table: seq<Varbind>, base: Oid, p: Position)
    requires Wired(w) && Compliant(w, table) && Sorted(table)
    requires p.current == base || Less(base, p.current)
    requires p.delivered + Subtree(After(table, p.current), base) == Subtree(table, base)
    ensures var out := WalkFrom(w, base, p);
            && (OnlyWalkCompares(w) ==> out.ec != Fault(NonIncreasingOid))
            && out.delivered <= Subtree(table, base)
            && (out.ec == NoError ==> out.delivered == Subtree(table, base))
    decreases Room(p.current), p.maxRepetitions
  {
    hide Room, Wired, Less, Under, After, Subtree, Sorted, ScanFrom;
    var turn, r := TurnAt(w, base, p), Answer(w, p);
    if r.ec == NoError && r.varbinds != [] {
      ScanCompliant(table, base, p.current, r.varbinds);
      var s := ScanFrom(base, p.current, r.varbinds);
      var rest := Subtree(After(table, s.current), base);
      assert p.delivered + (s.batch + rest) == p.delivered + s.batch + rest;
    }
    if turn.Goes? {
      TurnLowers(w, base, p);
      WalkFromCompliant(w, table, base, turn.to);
    }
  }

  /** No request ends in the error a Walk gives for a name that went back. */
  ghost predicate OnlyWalkCompares(w: World) {
    forall k: nat, q: Query :: w.reply(k, q).ec != Fault(NonIncreasingOid)
  }

  /**
   * Against a compliant Agent a Walk delivers a prefix of the Subtree whatever happens, the whole of it when it
   * succeeds, and never complains of a name that went back.
   */
  lemma WalkExact(w: World, table: seq<Varbind>, base: Oid, options: int32)
    requires Wired(w) && Compliant(w, table) && Sorted(table)
    ensures var out := WalkFrom(w, base, Start(base, options));
            && (OnlyWalkCompares(w) ==> out.ec != Fault(NonIncreasingOid))
            && out.delivered <= Subtree(table, base)
            && (out.ec == NoError ==> out.delivered == Subtree(table, base))
  {
    hide WalkFrom;
    SubtreeIsAfter(table, base);
    assert [] + Subtree(table, base) == Subtree(table, base);
    WalkFromCompliant(w, table, base, Start(base, options));
  }

  /** GETNEXT mode, and GETBULK mode at any size, deliver the same rows, however each Agent cut its Responses. */
  lemma ModesAgree(v: World, w: World, table: seq<Varbind>, base: Oid, optionsV: int32, optionsW: int32)
    requires Wired(v) && Wired(w) && Compliant(v, table) && Compliant(w, table) && Sorted(table)
    requires WalkFrom(v, base, Start(base, optionsV)).ec == NoError
    requires WalkFrom(w, base, Start(base, optionsW)).ec == NoError
    ensures WalkFrom(v, base, Start(base, optionsV)).delivered == WalkFrom(w, base, Start(base, optionsW)).delivered
  {
    hide WalkFrom;
    WalkExact(v, table, base, optionsV);
    WalkExact(w, table, base, optionsW);
  }

  /** Nothing interferes: no cancellation, no Stopping, a handler that always wants more, an Agent that answers. */
  ghost predicate Undisturbed(w: World) {
    && (forall k: nat :: w.cancelBefore(k) == NotCancelled && !w.stopping(k))
    && (forall a, b :: w.handler(a, b))
    && (forall k: nat, q: Query :: IsEncodable(q.current) ==>
          w.reply(k, q).ec == NoError || (w.reply(k, q).ec == AgentError(TOO_BIG) && q.maxRepetitions > 1))
  }

  /** Left alone with a compliant Agent, a Walk does succeed. */
  lemma {:induction false} WalkSucceeds(w: World, table: seq<Varbind>, base: Oid, p: Position)
    requires Wired(w) && Compliant(w, table) && Sorted(table) && Undisturbed(w)
    requires p.current == base || Less(base, p.current)
    requires IsEncodable(p.current)
    ensures WalkFrom(w, base, p).ec == NoError
    decreases Room(p.current), p.maxRepetitions
  {
    hide Room, Less, IsEncodable, Under, After, Subtree, Sorted, ScanFrom;
    var turn, r := TurnAt(w, base, p), Answer(w, p);
    if r.ec == NoError {
      ScanCompliant(table, base, p.current, r.varbinds);
      ScanAdvances(base, p.current, r.varbinds);
    }
    if turn.Goes? {
      TurnLowers(w, base, p);
      WalkSucceeds(w, table, base, turn.to);
    }
  }
}
