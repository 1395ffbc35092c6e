/** Object identifiers: the order SNMP walks in, Subtrees, and which OIDs X.690 can encode. */
module Oids {
  import opened Octets

  type Oid = seq<uint32>

  /** RFC 3416 section 4.1: an object name carries at most 128 sub-identifiers. */
  const MAX_SUBIDS: nat := 128

  /** Lexicographic order on sub-identifiers: a proper prefix comes first. */
  predicate Less(a: Oid, b: Oid) {
    b != [] && (a == [] || a[0] < b[0] || (a[0] == b[0] && Less(a[1..], b[1..])))
  }

  predicate IsEncodable(o: Oid) {
    && 2 <= |o| <= MAX_SUBIDS
    && o[0] <= 2
    && (o[0] < 2 ==> o[1] <= 39)
    && (o[0] == 2 ==> o[1] <= MAX_UINT32 - 80)
  }

  /** Subtree membership: `other` is at or beneath `base`. */
  predicate Under(base: Oid, other: Oid) {
    base <= other
  }

  method IsPrefixOf(base: Oid, other: Oid) returns (r: bool)
    ensures r <==> Under(base, other)
  {
    if |base| > |other| { return false; }
    for i := 0 to |base|
      invariant base[..i] == other[..i]
    {
      if base[i] != other[i] {
        assert other[..|base|][i] == other[i];
        return false;
      }
    }
    assert base[..|base|] == base;
    return true;
  }

  lemma {:induction false} LessIrreflexive(a: Oid)
    ensures !Less(a, a)
  {
    if a != [] { LessIrreflexive(a[1..]); }
  }

  lemma {:induction false} LessTransitive(a: Oid, b: Oid, c: Oid)
    requires Less(a, b) && Less(b, c)
    ensures Less(a, c)
  {
    if a != [] && a[0] == b[0] && b[0] == c[0] {
      LessTransitive(a[1..], b[1..], c[1..]);
    }
  }

  lemma {:induction false} LessTotal(a: Oid, b: Oid)
    ensures Less(a, b) || a == b || Less(b, a)
  {
    if a != [] && b != [] && a[0] == b[0] {
      LessTotal(a[1..], b[1..]);
      assert a == [a[0]] + a[1..] && b == [b[0]] + b[1..];
    }
  }

  lemma LessAsymmetric(a: Oid, b: Oid)
    requires Less(a, b)
    ensures !Less(b, a) && a != b
  {
    LessIrreflexive(a);
    if Less(b, a) { LessTransitive(a, b, a); }
  }

  lemma {:induction false} PrefixNotAfter(base: Oid, o: Oid)
    requires Under(base, o)
    ensures o == base || Less(base, o)
  {
    if base != [] {
      assert base[1..] <= o[1..];
      PrefixNotAfter(base[1..], o[1..]);
      assert o == [o[0]] + o[1..] && base == [base[0]] + base[1..];
    }
  }

  /** A Subtree is contiguous: nothing outside it lies between two OIDs at or after its base and inside it. */
  lemma {:induction false} SubtreeContiguous(base: Oid, mid: Oid, last: Oid)
    requires Under(base, last)
    requires mid == base || Less(base, mid)
    requires Less(mid, last)
    ensures Under(base, mid)
  {
    if base != [] && mid != base {
      assert base[0] <= mid[0] <= last[0] == base[0];
      assert base[1..] <= last[1..];
      SubtreeContiguous(base[1..], mid[1..], last[1..]);
      assert mid == [mid[0]] + mid[1..] && base == [base[0]] + base[1..];
    }
  }

  /**
   * The place of an OID of at most `width` sub-identifiers in the walk order, as a number: each position is a
   * digit, absence counting below zero.
   */
  function Rank(o: Oid, width: nat): (r: nat)
    requires |o| <= width
    ensures r < Pow(RANK_BASE, width)
    decreases width
  {
    if o == [] then 0
    else
      var p, rest := Pow(RANK_BASE, width - 1), Rank(o[1..], width - 1);
      RankStep(o[0] as int + 1, p, rest);
      Times(o[0] as int + 1, p) + rest
  }

  const RANK_BASE: nat := 0x1_0000_0001

  lemma RankStep(d: nat, p: nat, rest: nat)
    requires d < RANK_BASE && rest < p
    ensures Times(d, p) + rest < Times(p, RANK_BASE)
  {
    hide Times;
    TimesMonotone(d + 1, RANK_BASE, p);
    TimesAdd(d, 1, p);
    TimesOne(p);
    TimesCommutes(RANK_BASE, p);
  }

  lemma DigitOrder(x: nat, y: nat, p: nat, restX: nat, restY: nat)
    requires x < y && restX < p
    ensures Times(x, p) + restX < Times(y, p) + restY
  {
    hide Times;
    TimesMonotone(x + 1, y, p);
    TimesAdd(x, 1, p);
    TimesOne(p);
  }

  /** Going forward in the walk order strictly raises the rank, so it cannot go on for ever. */
  lemma {:induction false} RankMonotone(a: Oid, b: Oid, width: nat)
    requires |a| <= width && |b| <= width
    requires Less(a, b)
    ensures Rank(a, width) < Rank(b, width)
  {
    hide Times;
    var p, restB := Pow(RANK_BASE, width - 1), Rank(b[1..], width - 1);
    if a == [] {
      DigitOrder(0, b[0] as int + 1, p, 0, restB);
      TimesOne(p);
    } else {
      var restA := Rank(a[1..], width - 1);
      if a[0] < b[0] {
        DigitOrder(a[0] as int + 1, b[0] as int + 1, p, restA, restB);
      } else {
        RankMonotone(a[1..], b[1..], width - 1);
      }
    }
  }
}
