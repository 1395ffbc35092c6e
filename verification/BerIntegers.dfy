/** INTEGER content: minimal two's complement, and the decoder that accepts any padding of it. */
module BerIntegers {
  import opened Octets
  import opened Errors
  import opened BerGrammar

  /** Dropping the first octet would lose information. */
  predicate IsMinimal(bs: octets) {
    |bs| >= 2 ==> !(bs[0] == 0 && bs[1] < 0x80) && !(bs[0] == 0xFF && bs[1] >= 0x80)
  }

  lemma NumberOfFew(bs: octets)
    requires 1 <= |bs| <= 4
    ensures |bs| == 1 ==> NumberOf(bs, 0x100) == bs[0]
    ensures |bs| == 2 ==> NumberOf(bs, 0x100) == 0x100 * bs[0] as int + bs[1]
    ensures |bs| == 3 ==> NumberOf(bs, 0x100) == 0x1_0000 * bs[0] as int + 0x100 * bs[1] as int + bs[2]
    ensures |bs| == 4 ==>
              NumberOf(bs, 0x100) == 0x100_0000 * bs[0] as int + 0x1_0000 * bs[1] as int + 0x100 * bs[2] as int + bs[3]
  {
    assert NumberOf(bs[..0], 0x100) == 0;
    Append(bs, 0);
    if |bs| >= 2 { Append(bs, 1); }
    if |bs| >= 3 { Append(bs, 2); }
    if |bs| >= 4 { Append(bs, 3); }
    assert bs[..|bs|] == bs;
  }

  lemma Append(bs: octets, i: nat)
    requires i < |bs|
    ensures NumberOf(bs[..i + 1], 0x100) == NumberOf(bs[..i], 0x100) * 0x100 + bs[i]
  {
    NumberSnoc(bs[..i], bs[i], 0x100);
    assert bs[..i + 1] == bs[..i] + [bs[i]];
  }

  /** Each octet is the next base-256 digit, the quotient keeping the sign. */
  lemma Quotients(v: int)
    ensures v == v / 0x100 * 0x100 + v % 0x100
    ensures v / 0x100 == v / 0x1_0000 * 0x100 + v / 0x100 % 0x100
    ensures v / 0x1_0000 == v / 0x100_0000 * 0x100 + v / 0x1_0000 % 0x100
  {
  }

  lemma SignOctet(q: int)
    requires -0x80 <= q < 0x80
    ensures q % 0x100 == if q < 0 then q + 0x100 else q
  {
  }

  /** The encoder's content stands for the number, and no shorter content does. */
  lemma IntegerContentMeans(v: int32)
    ensures 1 <= |IntegerContent(v)| <= 4
    ensures TwosComplement(IntegerContent(v)) == v
    ensures IsMinimal(IntegerContent(v))
  {
    hide NumberOf, Pow, Times;
    NumberOfFew(IntegerContent(v));
    PowerTable();
    Quotients(v);
    if -0x80 <= v < 0x80 {
      SignOctet(v);
    } else if -0x8000 <= v < 0x8000 {
      SignOctet(v / 0x100);
    } else if -0x80_0000 <= v < 0x80_0000 {
      SignOctet(v / 0x1_0000);
    } else {
      SignOctet(v / 0x100_0000);
    }
  }

  /** Removing one octet of sign padding leaves the number alone. */
  lemma StripPadding(bs: octets)
    requires |bs| >= 2 && !IsMinimal(bs)
    ensures TwosComplement(bs[1..]) == TwosComplement(bs)
  {
    var p := Pow(0x100, |bs| - 1);
    assert Pow(0x100, |bs|) == 0x100 * p;
    Multiples(p);
    hide Times;
    NumberHead(bs, 0x100);
  }

  /** Octets without padding fit an Integer32 exactly when there are at most four of them. */
  lemma MinimalWidth(bs: octets)
    requires bs != [] && IsMinimal(bs)
    ensures |bs| <= 4 <==> -0x8000_0000 <= TwosComplement(bs) < 0x8000_0000
  {
    PowerTable();
    if |bs| <= 4 {
      NumberOfFew(bs);
    } else {
      WideNumbers(bs);
    }
  }

  lemma {:induction false} PowAtLeast(k: nat)
    requires k >= 4
    ensures Pow(0x100, k) >= 0x1_0000_0000
  {
    PowerTable();
    if k > 4 { PowAtLeast(k - 1); }
  }

  lemma WideNumbers(bs: octets)
    requires |bs| >= 5 && IsMinimal(bs)
    ensures TwosComplement(bs) < -0x8000_0000 || TwosComplement(bs) >= 0x8000_0000
  {
    var p, rest := Pow(0x100, |bs| - 2), bs[2..];
    assert Pow(0x100, |bs| - 1) == 0x100 * p && Pow(0x100, |bs|) == 0x1_0000 * p;
    PowAtLeast(|bs| - 1);
    hide Times;
    NumberHead(bs, 0x100);
    NumberHead(bs[1..], 0x100);
    assert bs[1..][1..] == rest;
    NumberBound(rest, 0x100);
    WideArithmetic(bs[0], bs[1], p, NumberOf(rest, 0x100));
  }

  lemma WideArithmetic(a: byte, b: byte, p: nat, r: nat)
    requires 0x100 * p >= 0x1_0000_0000 && r < p
    requires !(a == 0 && b < 0x80) && !(a == 0xFF && b >= 0x80)
    ensures a < 0x80 ==> Times(a, 0x100 * p) + Times(b, p) + r >= 0x8000_0000
    ensures a >= 0x80 ==> Times(a, 0x100 * p) + Times(b, p) + r - 0x1_0000 * p < -0x8000_0000
  {
    Multiples(p);
    Multiples(0x100 * p);
    hide Times;
    if a < 0x80 {
      if a == 0 {
        TimesMonotone(0x80, b, p);
      } else {
        TimesMonotone(1, a, 0x100 * p);
      }
    } else {
      if a == 0xFF {
        TimesMonotone(b, 0x7F, p);
      } else {
        TimesMonotone(a, 0xFE, 0x100 * p);
        TimesMonotone(b, 0xFF, p);
      }
    }
  }

  lemma Multiples(p: nat)
    ensures Times(0, p) == 0 && Times(1, p) == p && Times(0x7F, p) == 0x7F * p && Times(0x80, p) == 0x80 * p
    ensures Times(0xFE, p) == 0xFE * p && Times(0xFF, p) == 0xFF * p
  {
  }

  /** Half the range of `k` octets. */
  function HalfRange(k: nat): int
    requires 1 <= k <= 4
  {
    if k == 1 then 0x80 else if k == 2 then 0x8000 else if k == 3 then 0x80_0000 else 0x8000_0000
  }

  /** Content without padding uses its last octet: one fewer could not hold the number. */
  lemma MinimalRange(bs: octets)
    requires 1 <= |bs| <= 4 && IsMinimal(bs)
    ensures -HalfRange(|bs|) <= TwosComplement(bs) < HalfRange(|bs|)
    ensures |bs| >= 2 ==> !(-HalfRange(|bs| - 1) <= TwosComplement(bs) < HalfRange(|bs| - 1))
  {
    NumberOfFew(bs);
    PowerTable();
  }

  lemma {:induction false} NumberInjective(a: octets, b: octets)
    requires |a| == |b| && NumberOf(a, 0x100) == NumberOf(b, 0x100)
    ensures a == b
  {
    if a != [] {
      var n := |a| - 1;
      assert a[n] == b[n] && NumberOf(a[..n], 0x100) == NumberOf(b[..n], 0x100);
      NumberInjective(a[..n], b[..n]);
      assert a == a[..n] + [a[n]] && b == b[..n] + [b[n]];
    }
  }

  /** Two contents without padding that stand for the same number are the same content. */
  lemma MinimalUnique(a: octets, b: octets)
    requires a != [] && IsMinimal(a) && b != [] && IsMinimal(b)
    requires -0x8000_0000 <= TwosComplement(a) == TwosComplement(b) < 0x8000_0000
    ensures a == b
  {
    MinimalWidth(a);
    MinimalWidth(b);
    MinimalRange(a);
    MinimalRange(b);
    NumberBound(a, 0x100);
    NumberBound(b, 0x100);
    assert |a| == |b|;
    NumberInjective(a, b);
  }

  lemma IntegerRoundTrip(v: int32)
    ensures DecodeInteger(IntegerContent(v)) == Ok(v)
  {
    IntegerContentMeans(v);
  }

  /** A leading zero octet changes nothing. */
  lemma LeadingZero(bs: octets)
    ensures NumberOf([0] + bs, 0x100) == NumberOf(bs, 0x100)
  {
    Multiples(Pow(0x100, |bs|));
    hide Times;
    NumberHead([0] + bs, 0x100);
    assert ([0] + bs)[1..] == bs;
  }

  lemma UnsignedRoundTrip(v: uint64)
    ensures DecodeUnsigned(UnsignedContent(v), 8) == Ok(v)
    ensures v <= MAX_UINT32 ==> DecodeUnsigned(UnsignedContent(v), 4) == Ok(v)
  {
    NumberOfDigits(v, 0x100);
    LeadingZero(Digits(v, 0x100));
    PowerTable();
  }

  /**
   * The encoder's content is the number, reads as non-negative, and is at most one octet over its significant width.
   */
  lemma UnsignedContentMeans(v: uint64)
    ensures TwosComplement(UnsignedContent(v)) == v
    ensures IsMinimal(UnsignedContent(v))
    ensures |UnsignedContent(v)| <= 9 && (v <= MAX_UINT32 ==> |UnsignedContent(v)| <= 5)
  {
    NumberOfDigits(v, 0x100);
    LeadingZero(Digits(v, 0x100));
    PowerTable();
    DigitsLength(v, 0x100, 8);
    DigitsLength(v, 0x100, 4);
    DigitsLead(v, 0x100);
  }
}
