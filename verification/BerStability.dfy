/**
 * What the decoder accepts, the encoder can write: padding and long-form lengths included, an accepted element
 * re-encodes without error, at no more than twice its size, and decodes to the same value.
 */
module BerStability {
  import opened Octets
  import opened Errors
  import opened Oids
  import opened BerGrammar
  import opened BerRoundTrip

  /** Half the length limit: re-encoding at most doubles. A datagram is far below it. */
  const INPUT_LIMIT: nat := 0x8000_0000

  lemma LengthSizeMonotone(n: nat, m: nat)
    requires n <= m
    ensures |LengthOctets(n)| <= |LengthOctets(m)|
  {
    hide Digits, Pow;
    if n >= 0x80 {
      var k := |Digits(m, 0x100)|;
      DigitsLength(m, 0x100, k);
      DigitsLength(n, 0x100, k);
    }
  }

  lemma LengthSizeDouble(n: nat)
    ensures |LengthOctets(2 * n)| <= |LengthOctets(n)| + 1
  {
    PowerTable();
    hide Digits, Pow;
    var k := |Digits(n, 0x100)|;
    DigitsLength(n, 0x100, k);
    PowNext(k);
    DigitsLength(2 * n, 0x100, k + 1);
    DigitsLength(2 * n, 0x100, 1);
  }

  /** An element around content that at most doubled at most doubles. */
  lemma ElementGrowth(t: Tag, content: octets, originalSize: nat)
    requires |content| <= 2 * originalSize
    ensures |Tlv(t, content)| <= 2 * (1 + |LengthOctets(originalSize)| + originalSize)
  {
    hide LengthOctets;
    LengthSizeMonotone(|content|, 2 * originalSize);
    LengthSizeDouble(originalSize);
    LengthAtLeastOne(originalSize);
  }

  lemma LengthAtLeastOne(n: nat)
    ensures |LengthOctets(n)| >= 1
  {
  }

  /** No header is shorter than the minimal one for the length it names. */
  lemma HeaderConsumed(w: octets)
    requires ParseHeader(w).Ok?
    ensures var (h, rest) := ParseHeader(w).value;
            |w| - |rest| >= 1 + |LengthOctets(h.length)|
  {
    hide NumberOf, Digits, Pow;
    if w[1] >= 0x80 {
      var bs := w[2..2 + (w[1] - 0x80)];
      NumberBound(bs, 0x100);
      DigitsLength(NumberOf(bs, 0x100), 0x100, |bs|);
    }
  }

  lemma PrimitiveConsumed(t: Tag, w: octets)
    requires ParsePrimitive(t, w).Ok?
    ensures var (c, rest) := ParsePrimitive(t, w).value;
            |w| - |rest| >= 1 + |LengthOctets(|c|)| + |c|
  {
    hide ParseHeader, LengthOctets;
    HeaderConsumed(w);
  }

  lemma ConstructedConsumed(t: Tag, w: octets)
    requires ParseConstructed(t, w).Ok?
    ensures var (c, rest) := ParseConstructed(t, w).value;
            |w| - |rest| >= 1 + |LengthOctets(|c|)| + |c|
  {
    hide ParseHeader, LengthOctets;
    HeaderConsumed(w);
  }

  /** The encoder's INTEGER is the shortest, so no accepted content was shorter. */
  lemma {:induction false} IntegerNoLonger(c: octets)
    requires c != [] && -0x8000_0000 <= TwosComplement(c) < 0x8000_0000
    ensures |IntegerContent(TwosComplement(c))| <= |c|
    decreases |c|
  {
    hide IntegerContent, TwosComplement;
    if BerIntegers.IsMinimal(c) {
      BerIntegers.IntegerContentMeans(TwosComplement(c));
      BerIntegers.MinimalUnique(IntegerContent(TwosComplement(c)), c);
    } else {
      BerIntegers.StripPadding(c);
      IntegerNoLonger(c[1..]);
    }
  }

  lemma UnsignedGrowth(c: octets, v: uint64)
    requires c != [] && NumberOf(c, 0x100) == v
    ensures |UnsignedContent(v)| <= |c| + 1
  {
    hide NumberOf, Digits, Pow;
    NumberBound(c, 0x100);
    DigitsLength(v, 0x100, |c|);
  }

  lemma ParsedInteger(w: octets)
    requires ParseInteger(w).Ok?
    ensures var (v, rest) := ParseInteger(w).value;
            |EncodeInteger(v)| <= 2 * (|w| - |rest|)
  {
    hide ParsePrimitive, IntegerContent, TwosComplement, Tlv, LengthOctets;
    var (c, _) := ParsePrimitive(INTEGER, w).value;
    PrimitiveConsumed(INTEGER, w);
    IntegerNoLonger(c);
    ElementGrowth(INTEGER, IntegerContent(TwosComplement(c)), |c|);
  }

  lemma ParsedOctets(t: Tag, w: octets)
    requires ParsePrimitive(t, w).Ok?
    ensures var (v, rest) := ParsePrimitive(t, w).value;
            |Tlv(t, v)| <= 2 * (|w| - |rest|)
  {
    hide ParsePrimitive, Tlv, LengthOctets;
    var (c, _) := ParsePrimitive(t, w).value;
    PrimitiveConsumed(t, w);
    ElementGrowth(t, c, |c|);
  }

  lemma ParsedUnsigned(t: Tag, w: octets, maxSignificant: nat, v: uint64)
    requires ParsePrimitive(t, w).Ok? && DecodeUnsigned(ParsePrimitive(t, w).value.0, maxSignificant) == Ok(v)
    ensures |Tlv(t, UnsignedContent(v))| <= 2 * (|w| - |ParsePrimitive(t, w).value.1|)
  {
    hide ParsePrimitive, UnsignedContent, NumberOf, Pow, Tlv, LengthOctets;
    var (c, _) := ParsePrimitive(t, w).value;
    PrimitiveConsumed(t, w);
    UnsignedGrowth(c, v);
    ElementGrowth(t, UnsignedContent(v), |c|);
  }

  lemma ParsedOid(w: octets)
    requires ParseOid(w).Ok?
    ensures var (o, rest) := ParseOid(w).value;
            IsEncodable(o) && |Tlv(OBJECT_IDENTIFIER, OidContent(o))| <= 2 * (|w| - |rest|)
  {
    hide ParsePrimitive, OidContent, IsEncodable, DecodeOid, Tlv;
    var (c, _) := ParsePrimitive(OBJECT_IDENTIFIER, w).value;
    BerOids.OidBijection(c, DecodeOid(c).value);
    ParsedOctets(OBJECT_IDENTIFIER, w);
  }

  lemma ParsedValue(w: octets)
    requires ParseValue(w).Ok?
    ensures var (v, rest) := ParseValue(w).value;
            ValueEncodable(v) && |EncodeValue(v)| <= 2 * (|w| - |rest|)
  {
    hide ParsePrimitive, OidContent, IsEncodable, UnsignedContent, DecodeUnsigned, ParseOid, ParseInteger, Tlv;
    var (v, _) := ParseValue(w).value;
    match v
    case Integer(_) =>
      ParsedInteger(w);
    case ObjectId(_) =>
      ParsedOid(w);
    case Counter32(n) =>
      ParsedUnsigned(COUNTER32, w, 4, n);
    case Gauge32(n) =>
      ParsedUnsigned(GAUGE32, w, 4, n);
    case TimeTicks(n) =>
      ParsedUnsigned(TIMETICKS, w, 4, n);
    case Counter64(n) =>
      ParsedUnsigned(COUNTER64, w, 8, n);
    case _ =>
      ParsedOctets(w[0], w);
  }

  lemma ParsedVarbind(w: octets)
    requires ParseVarbind(w).Ok?
    ensures var (vb, rest) := ParseVarbind(w).value;
            VarbindEncodable(vb) && |EncodeVarbind(vb)| <= 2 * (|w| - |rest|)
  {
    hide ParseConstructed, ParseOid, ParseValue, IsEncodable, ValueEncodable, OidContent, EncodeValue, Tlv,
         LengthOctets;
    var (content, _) := ParseConstructed(SEQUENCE, w).value;
    var (name, afterName) := ParseOid(content).value;
    var (val, _) := ParseValue(afterName).value;
    ConstructedConsumed(SEQUENCE, w);
    ParsedOid(content);
    ParsedValue(afterName);
    ElementGrowth(SEQUENCE, Tlv(OBJECT_IDENTIFIER, OidContent(name)) + EncodeValue(val), |content|);
  }

  lemma {:induction false} ParsedVarbinds(w: octets)
    requires ParseVarbinds(w).Ok?
    ensures var vbs := ParseVarbinds(w).value;
            AllEncodable(vbs) && |EncodeVarbinds(vbs)| <= 2 * |w|
    decreases |w|
  {
    hide ParseVarbind, EncodeVarbind, VarbindEncodable;
    if w != [] {
      var (vb, rest) := ParseVarbind(w).value;
      var vbs := ParseVarbinds(rest).value;
      ParsedVarbind(w);
      ParsedVarbinds(rest);
      assert ([vb] + vbs)[1..] == vbs;
    }
  }

  lemma ParsedVarbindList(w: octets)
    requires ParseVarbindList(w).Ok?
    ensures var (vbs, rest) := ParseVarbindList(w).value;
            AllEncodable(vbs) && |EncodeVarbindList(vbs)| <= 2 * (|w| - |rest|)
  {
    hide ParseConstructed, ParseVarbinds, EncodeVarbinds, AllEncodable, Tlv, LengthOctets;
    var (content, _) := ParseConstructed(SEQUENCE, w).value;
    ConstructedConsumed(SEQUENCE, w);
    ParsedVarbinds(content);
    ElementGrowth(SEQUENCE, EncodeVarbinds(ParseVarbinds(content).value), |content|);
  }

  /**
   * An accepted Varbind list re-encodes, and the re-encoding decodes to the same list exactly when its content is short
   * enough for the decoder's length field. Below half that limit, which no datagram comes near, it always is.
   */
  lemma AcceptedListIsStable(w: octets)
    requires ParseVarbindList(w).Ok?
    ensures var (vbs, _) := ParseVarbindList(w).value;
            && AllEncodable(vbs)
            && (ParseVarbindList(EncodeVarbindList(vbs)) == Ok((vbs, [])) <==> |EncodeVarbinds(vbs)| < LENGTH_LIMIT)
            && (|w| < INPUT_LIMIT ==> |EncodeVarbinds(vbs)| < LENGTH_LIMIT)
  {
    hide ParseVarbinds, EncodeVarbinds, AllEncodable, ParseConstructed, Tlv;
    var (vbs, _) := ParseVarbindList(w).value;
    ParsedVarbindList(w);
    ListContent(vbs);
    if |EncodeVarbinds(vbs)| < LENGTH_LIMIT {
      VarbindListRoundTrip(vbs, []);
      assert EncodeVarbindList(vbs) + [] == EncodeVarbindList(vbs);
    } else {
      TooLongToReadBack(SEQUENCE, EncodeVarbinds(vbs));
    }
  }
}
