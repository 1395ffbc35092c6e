/** Which fault a decoder finds, told from the octets. */
module BerRefusals {
  import opened Octets
  import opened Errors
  import opened Oids
  import opened BerGrammar
  import opened BerWire
  import BerOids

  //
  // Headers
  //

  /** The octets of a long-form length that follow its count, as many as there are. */
  function LengthField(w: octets): octets
    requires |w| >= 2 && w[1] > 0x80
  {
    var end: int := 2 + w[1] as int - 0x80;
    w[2..if end <= |w| then end else |w|]
  }

  /** There are fewer octets than the header, or the content it announces, takes. */
  predicate Short(w: octets) {
    || |w| < 2
    || (w[1] < 0x80 && |w| < 2 + w[1])
    || (w[1] > 0x80 && (|w| < 2 + (w[1] - 0x80) || |w| < 2 + (w[1] - 0x80) + NumberOf(LengthField(w), 0x100)))
  }

  /**
   * A header is refused for one thing: a tag number past 30, an indefinite length, the reserved one, a length of more
   * than four octets, or too few octets; in this order, except that fewer than two octets come first.
   */
  lemma HeaderRefused(w: octets)
    ensures var r, low := ParseHeader(w), |w| >= 2 && w[0] % 0x20 != 0x1F;
            && (r == Err(HighTagNumber) <==> |w| >= 2 && w[0] % 0x20 == 0x1F)
            && (r == Err(IndefiniteLength) <==> low && w[1] == 0x80)
            && (r == Err(ReservedLength) <==> low && w[1] == 0xFF)
            && (r == Err(LengthTooLarge) <==> low && 0x84 < w[1] < 0xFF)
            && (r == Err(Truncated) <==> |w| < 2 || (low && (w[1] < 0x80 || 0x80 < w[1] <= 0x84) && Short(w)))
            && (r.Ok? <==> low && (w[1] < 0x80 || 0x80 < w[1] <= 0x84) && !Short(w))
  {
    hide NumberOf;
  }

  /**
   * An element of another tag is unexpected, and so is a missing constructed one; a missing primitive is truncation.
   */
  lemma ElementRefused(t: Tag, w: octets)
    ensures !IsConstructed(t) && w == [] ==> ParsePrimitive(t, w) == Err(Truncated)
    ensures !IsConstructed(t) && w != [] && w[0] != t ==> ParsePrimitive(t, w) == Err(UnexpectedTag)
    ensures IsConstructed(t) && (w == [] || w[0] != t) ==> ParseConstructed(t, w) == Err(UnexpectedTag)
    ensures w != [] && w[0] == t && ParseHeader(w).Err? ==>
              (if IsConstructed(t) then ParseConstructed(t, w) else ParsePrimitive(t, w)) == Err(ParseHeader(w).error)
  {
    hide ParseHeader;
  }

  //
  // Integers
  //

  /** No octets at all, or a number outside its range. */
  lemma IntegerRefused(c: octets)
    ensures var r := DecodeInteger(c);
            && (r == Err(EmptyContent) <==> c == [])
            && (r == Err(IntegerTooLarge) <==> c != [] && !(-0x8000_0000 <= TwosComplement(c) < 0x8000_0000))
            && (r.Err? ==> r.error == EmptyContent || r.error == IntegerTooLarge)
  {
  }

  lemma UnsignedRefused(c: octets)
    ensures (DecodeUnsigned(c, 4) == Err(EmptyContent) <==> c == [])
            && (DecodeUnsigned(c, 8) == Err(EmptyContent) <==> c == [])
    ensures DecodeUnsigned(c, 4) == Err(IntegerTooLarge) <==> c != [] && NumberOf(c, 0x100) >= 0x1_0000_0000
    ensures DecodeUnsigned(c, 8) == Err(IntegerTooLarge) <==> c != [] && NumberOf(c, 0x100) >= 0x1_0000_0000_0000_0000
  {
    PowerTable();
    hide NumberOf, Pow;
  }

  //
  // Object identifiers
  //

  /** Groups that go on past 32 bits, whether or not they end. */
  predicate Overflows(acc: nat, bs: octets, k: nat) {
    && 1 <= k <= |bs| && (forall i :: 0 <= i < k - 1 ==> bs[i] >= 0x80)
    && BerOids.Accumulate(acc, Groups(bs[..k])) >= 0x1_0000_0000
  }

  ghost predicate GoesPast(acc: nat, bs: octets) {
    exists k: nat :: Overflows(acc, bs, k)
  }

  predicate NeverEnds(bs: octets) {
    forall i :: 0 <= i < |bs| ==> bs[i] >= 0x80
  }

  lemma GroupsTail(bs: octets, k: nat)
    requires 2 <= k <= |bs|
    ensures Groups(bs[..k])[0] == bs[0] % 0x80 && Groups(bs[..k])[1..] == Groups(bs[1..][..k - 1])
  {
    assert bs[..k][1..] == bs[1..][..k - 1];
  }

  lemma OverflowsShift(acc: nat, bs: octets, k: nat)
    requires bs != [] && bs[0] >= 0x80 && 1 <= k < |bs|
    ensures Overflows(acc, bs, k + 1) <==> Overflows(acc * 0x80 + bs[0] % 0x80, bs[1..], k)
  {
    GroupsTail(bs, k + 1);
    assert forall i :: 1 <= i < |bs| ==> bs[i] == bs[1..][i - 1];
    if Overflows(acc * 0x80 + bs[0] % 0x80, bs[1..], k) {
      forall i | 0 <= i < k ensures bs[i] >= 0x80 { if i > 0 { assert bs[1..][i - 1] >= 0x80; } }
    }
  }

  lemma OverflowsNow(acc: nat, bs: octets)
    requires bs != []
    ensures Overflows(acc, bs, 1) <==> acc * 0x80 + bs[0] % 0x80 >= 0x1_0000_0000
  {
    assert Groups(bs[..1]) == [bs[0] as int % 0x80];
    assert BerOids.Accumulate(acc, [bs[0] as int % 0x80]) == acc * 0x80 + bs[0] % 0x80;
  }

  lemma {:induction false} ScanRefused(acc: nat, bs: octets)
    ensures var r := ScanSubid(acc, bs);
            && (r == Err(OidSubidOverflow) <==> GoesPast(acc, bs))
            && (r == Err(OidTruncatedSubid) <==> NeverEnds(bs) && !GoesPast(acc, bs))
            && (r.Err? ==> r.error == OidSubidOverflow || r.error == OidTruncatedSubid)
    decreases |bs|
  {
    hide Overflows;
    if bs == [] {
      assert forall k: nat :: !Overflows(acc, bs, k) by { EmptyFits(acc); }
    } else {
      var v := acc * 0x80 + bs[0] % 0x80;
      OverflowsNow(acc, bs);
      if v <= MAX_UINT32 && bs[0] >= 0x80 {
        ScanRefused(v, bs[1..]);
        LaterOverflow(acc, bs);
        assert NeverEnds(bs) <==> NeverEnds(bs[1..]) by { EndsLater(bs); }
      } else if v <= MAX_UINT32 {
        assert forall k: nat :: !Overflows(acc, bs, k) by { EndedFits(acc, bs); }
      }
    }
  }

  lemma EmptyFits(acc: nat)
    ensures forall k: nat :: !Overflows(acc, [], k)
  {
  }

  lemma EndsLater(bs: octets)
    requires bs != [] && bs[0] >= 0x80
    ensures NeverEnds(bs) <==> NeverEnds(bs[1..])
  {
    assert forall i :: 1 <= i < |bs| ==> bs[i] == bs[1..][i - 1];
  }

  lemma EndedFits(acc: nat, bs: octets)
    requires bs != [] && bs[0] < 0x80 && acc * 0x80 + bs[0] < 0x1_0000_0000
    ensures forall k: nat :: !Overflows(acc, bs, k)
  {
    OverflowsNow(acc, bs);
  }

  lemma LaterOverflow(acc: nat, bs: octets)
    requires bs != [] && bs[0] >= 0x80 && !Overflows(acc, bs, 1)
    ensures GoesPast(acc, bs) <==> GoesPast(acc * 0x80 + bs[0] % 0x80, bs[1..])
  {
    hide Overflows;
    var next := acc * 0x80 + bs[0] % 0x80;
    if k: nat :| Overflows(acc, bs, k) {
      InRange(acc, bs, k);
      OverflowsShift(acc, bs, k - 1);
    }
    if k: nat :| Overflows(next, bs[1..], k) {
      InRange(next, bs[1..], k);
      OverflowsShift(acc, bs, k);
    }
  }

  lemma InRange(acc: nat, bs: octets, k: nat)
    requires Overflows(acc, bs, k)
    ensures 1 <= k <= |bs|
  {
  }

  /** The groups so far make a number of more than 32 bits. */
  predicate TooWide(bs: octets, k: nat) {
    && 1 <= k <= |bs| && (forall i :: 0 <= i < k - 1 ==> bs[i] >= 0x80)
    && NumberOf(Groups(bs[..k]), 0x80) >= 0x1_0000_0000
  }

  /** A sub-identifier is refused for a leading group of zeros, for its width, or for not ending. */
  lemma SubidRefused(bs: octets)
    requires bs != []
    ensures var r := ParseSubid(bs);
            && (r == Err(OidNonMinimal) <==> bs[0] == 0x80)
            && (r == Err(OidSubidOverflow) <==> bs[0] != 0x80 && exists k: nat :: TooWide(bs, k))
            && (r == Err(OidTruncatedSubid) <==> bs[0] != 0x80 && NeverEnds(bs) && !exists k: nat :: TooWide(bs, k))
  {
    hide ScanSubid, NumberOf;
    ScanRefused(0, bs);
    forall k: nat ensures TooWide(bs, k) <==> Overflows(0, bs, k) {
      if 1 <= k <= |bs| { BerOids.AccumulateIsNumber(Groups(bs[..k])); }
    }
    assert GoesPast(0, bs) <==> exists k: nat :: TooWide(bs, k);
  }

  lemma {:induction false} SubidsStop(o: Oid, vs: Oid, bad: octets)
    requires |o| + |vs| <= 128
    ensures DecodeSubids(o, Joined(vs) + bad) == DecodeSubids(o + vs, bad)
    decreases |vs|
  {
    hide ParseSubid, Subid;
    if vs == [] {
      assert o + vs == o && Joined(vs) + bad == bad;
    } else {
      var head, tail := Subid(vs[0]), Joined(vs[1..]) + bad;
      assert Joined(vs) + bad == head + tail;
      SubidNotEmpty(vs[0]);
      BerOids.SubidParses(vs[0], tail);
      BerOids.OneMoreSubid(o, head, vs[0], tail);
      SubidsStop(o + [vs[0]], vs[1..], bad);
      assert o + [vs[0]] + vs[1..] == o + vs;
    }
  }

  /**
   * An OID is refused for being empty; for the first sub-identifier that is; or, past 128 arcs, for its length. The
   * first sub-identifier counts for two arcs.
   */
  lemma OidRefused(good: octets, vs: Oid, bad: octets)
    requires SubidsOctets(good, vs)
    ensures DecodeOid([]) == Err(OidEmpty)
    ensures good + bad != [] && bad != [] && |vs| <= 127 && ParseSubid(bad).Err? ==>
              DecodeOid(good + bad) == Err(ParseSubid(bad).error)
    ensures |vs| == 127 && bad != [] && ParseSubid(bad).Ok? ==> DecodeOid(good + bad) == Err(OidTooLong)
  {
    hide ParseSubid, Subid;
    SubidsAre(good, vs);
    if vs == [] {
      assert good + bad == bad;
    } else if |vs| <= 127 {
      var tail := Joined(vs[1..]) + bad;
      assert good + bad == Subid(vs[0]) + tail;
      SubidNotEmpty(vs[0]);
      BerOids.SubidParses(vs[0], tail);
      SubidsStop(SplitFirst(vs[0]), vs[1..], bad);
      assert |SplitFirst(vs[0]) + vs[1..]| == 1 + |vs|;
    }
  }

  //
  // Values
  //

  /** The thirteen identifiers a value may start with. */
  predicate ValueTag(t: byte) {
    t in {0x02, 0x04, 0x05, 0x06, 0x40, 0x41, 0x42, 0x43, 0x44, 0x46, 0x80, 0x81, 0x82}
  }

  /** A value of an unknown kind, and the faults only one kind has. */
  lemma ValueRefused(w: octets)
    ensures w == [] ==> ParseValue(w) == Err(Truncated)
    ensures w != [] ==> (ParseValue(w) == Err(UnknownValueTag) <==> !ValueTag(w[0]))
  {
    hide ParsePrimitive, DecodeOid, DecodeInteger, DecodeUnsigned;
    if w != [] && ValueTag(w[0]) { ValueFaults(w); }
  }

  lemma ValueFaults(w: octets)
    requires w != [] && ValueTag(w[0])
    ensures ParseValue(w) != Err(UnknownValueTag)
  {
    hide ParseValue;
    if w[0] in {0x02, 0x06, 0x41, 0x42, 0x43, 0x46} { NumericFaults(w); } else { PlainFaults(w); }
  }

  lemma NumericFaults(w: octets)
    requires w != [] && w[0] in {0x02, 0x06, 0x41, 0x42, 0x43, 0x46}
    ensures ParseValue(w) != Err(UnknownValueTag)
  {
    hide DecodeOid, DecodeInteger, DecodeUnsigned, ParsePrimitive;
    PrimitiveFaults(w[0], w);
    if ParsePrimitive(w[0], w).Ok? { ContentFaults(ParsePrimitive(w[0], w).value.0); }
  }

  lemma PlainFaults(w: octets)
    requires w != [] && w[0] in {0x04, 0x05, 0x40, 0x44, 0x80, 0x81, 0x82}
    ensures ParseValue(w) != Err(UnknownValueTag)
  {
    hide ParsePrimitive, ParseInteger, ParseOid, ParseUnsigned32, ParseUnsigned64;
    PrimitiveFaults(w[0], w);
  }

  lemma PrimitiveFaults(t: Tag, w: octets)
    ensures ParsePrimitive(t, w) != Err(UnknownValueTag)
  {
    hide ParseHeader;
    HeaderFaults(w);
  }

  lemma HeaderFaults(w: octets)
    ensures ParseHeader(w) != Err(UnknownValueTag)
  {
  }

  lemma ContentFaults(c: octets)
    ensures DecodeInteger(c) != Err(UnknownValueTag)
    ensures DecodeUnsigned(c, 4) != Err(UnknownValueTag) && DecodeUnsigned(c, 8) != Err(UnknownValueTag)
    ensures DecodeOid(c) != Err(UnknownValueTag)
  {
    hide ParseSubid, DecodeSubids;
    if c != [] {
      SubidFaults(c);
      if ParseSubid(c).Ok? { SubidsFaults(SplitFirst(ParseSubid(c).value.0), ParseSubid(c).value.1); }
    }
  }

  lemma SubidFaults(bs: octets)
    requires bs != []
    ensures ParseSubid(bs) != Err(UnknownValueTag)
  {
    hide ScanSubid;
    ScanRefused(0, bs);
  }

  lemma {:induction false} SubidsFaults(o: Oid, bs: octets)
    ensures DecodeSubids(o, bs) != Err(UnknownValueTag)
    decreases |bs|
  {
    hide ParseSubid;
    if bs != [] {
      SubidFaults(bs);
      if ParseSubid(bs).Ok? { SubidsFaults(o + [ParseSubid(bs).value.0], ParseSubid(bs).value.1); }
    }
  }

  /** A null or an exception with content, and an address that is not four octets. */
  lemma ContentRefused(w: octets, t: byte, c: octets, rest: octets)
    requires Element(w, t, c)
    ensures t == 0x05 && c != [] ==> ParseValue(w + rest) == Err(BadNull)
    ensures t == 0x40 && |c| != 4 ==> ParseValue(w + rest) == Err(BadIpAddress)
    ensures (t == 0x80 || t == 0x81 || t == 0x82) && c != [] ==> ParseValue(w + rest) == Err(TrailingData)
  {
    hide ParsePrimitive, Element;
    ElementStarts(w, t, c);
    if t == 0x05 || t == 0x40 || t == 0x80 || t == 0x81 || t == 0x82 {
      TakenIs(w, rest);
      PrimitiveReads(t, w + rest, c, rest);
    }
  }

  /** A Varbind with anything after its value. */
  lemma VarbindRefused(w: octets, a: octets, b: octets, extra: octets, name: Oid, val: Value, rest: octets)
    requires Element(w, 0x30, a + (b + extra)) && OidOctets(a, name) && ValueOctets(b, val) && extra != []
    ensures ParseVarbind(w + rest) == Err(TrailingData)
  {
    hide ParseConstructed, ParseOid, ParseValue, Element, OidOctets, ValueOctets, Taken;
    TakenIs(w, rest);
    ConstructedReads(0x30, w + rest, a + (b + extra), rest);
    TakenIs(a, b + extra);
    OidReads(a + (b + extra), name, b + extra);
    TakenIs(b, extra);
    ValueReads(b + extra, val, extra);
  }
}
