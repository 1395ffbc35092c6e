/** Decoding undoes encoding, element by element, for everything shorter than the decoder's four-octet lengths. */
module BerRoundTrip {
  import opened Octets
  import opened Errors
  import opened Oids
  import opened BerGrammar
  import BerIntegers
  import BerOids

  /** One past the longest content the decoder's length field can name. */
  const LENGTH_LIMIT: nat := 0x1_0000_0000

  /** A tag in low-tag-number form. */
  predicate LowTag(t: Tag) {
    t % 0x20 != 0x1F
  }

  predicate Starts(w: octets, t: Tag) {
    w != [] && w[0] == t
  }

  lemma LongLength(n: nat)
    requires 0x80 <= n < LENGTH_LIMIT
    ensures |Significant(n)| <= 4
    ensures NumberOf(Significant(n), 0x100) == n
  {
    PowerTable();
    hide Digits, NumberOf, Pow;
    DigitsLength(n, 0x100, 4);
    NumberOfDigits(n, 0x100);
  }

  lemma ShortHeader(t: Tag, content: octets, rest: octets)
    requires LowTag(t) && |content| < 0x80
    ensures ParseHeader([t, |content|] + content + rest) == Ok((Header(t, |content|), content + rest))
  {
    assert ([t, |content|] + content + rest)[2..] == content + rest;
  }

  lemma LongHeader(w: octets, ds: octets, rest: octets)
    requires |w| >= 2 && LowTag(w[0]) && 1 <= |ds| <= 4
    requires w[1] == 0x80 + |ds| && |w| == 2 + |ds| + |rest|
    requires w[2..2 + |ds|] == ds && w[2 + |ds|..] == rest && NumberOf(ds, 0x100) <= |rest|
    ensures ParseHeader(w) == Ok((Header(w[0], NumberOf(ds, 0x100)), rest))
  {
    hide NumberOf;
  }

  lemma Slices(t: Tag, b: byte, ds: octets, tail: octets)
    ensures var w := [t, b] + ds + tail;
            w[0] == t && w[1] == b && w[2..2 + |ds|] == ds && w[2 + |ds|..] == tail
  {
  }

  /** Whatever length form the content needs, the header reads back as the tag and the length. */
  lemma HeaderRoundTrip(t: Tag, content: octets, rest: octets)
    requires LowTag(t) && |content| < LENGTH_LIMIT
    ensures ParseHeader(Tlv(t, content) + rest) == Ok((Header(t, |content|), content + rest))
  {
    hide ParseHeader, Significant, NumberOf;
    var n := |content|;
    if n < 0x80 {
      ShortHeader(t, content, rest);
      assert Tlv(t, content) == [t, n] + content;
    } else {
      LongLength(n);
      var ds := Significant(n);
      Slices(t, 0x80 + |ds|, ds, content + rest);
      LongHeader([t, 0x80 + |ds|] + ds + (content + rest), ds, content + rest);
      assert Tlv(t, content) + rest == [t, 0x80 + |ds|] + ds + (content + rest);
    }
  }

  lemma PrimitiveRoundTrip(t: Tag, content: octets, rest: octets)
    requires LowTag(t) && !IsConstructed(t) && |content| < LENGTH_LIMIT
    ensures ParsePrimitive(t, Tlv(t, content) + rest) == Ok((content, rest))
    ensures Starts(Tlv(t, content) + rest, t)
  {
    hide ParseHeader, LengthOctets;
    HeaderRoundTrip(t, content, rest);
    assert (content + rest)[..|content|] == content && (content + rest)[|content|..] == rest;
  }

  lemma ConstructedRoundTrip(t: Tag, content: octets, rest: octets)
    requires LowTag(t) && IsConstructed(t) && |content| < LENGTH_LIMIT
    ensures ParseConstructed(t, Tlv(t, content) + rest) == Ok((content, rest))
    ensures Starts(Tlv(t, content) + rest, t)
  {
    hide ParseHeader, LengthOctets;
    HeaderRoundTrip(t, content, rest);
    assert (content + rest)[..|content|] == content && (content + rest)[|content|..] == rest;
  }

  lemma IntegerElement(v: int32, rest: octets)
    ensures ParseInteger(EncodeInteger(v) + rest) == Ok((v, rest))
    ensures Starts(EncodeInteger(v) + rest, INTEGER)
  {
    hide ParsePrimitive, Tlv, DecodeInteger, IntegerContent;
    BerIntegers.IntegerContentMeans(v);
    BerIntegers.IntegerRoundTrip(v);
    PrimitiveRoundTrip(INTEGER, IntegerContent(v), rest);
  }

  lemma OctetsElement(bs: octets, rest: octets)
    requires |bs| < LENGTH_LIMIT
    ensures ParseOctets(EncodeOctets(bs) + rest) == Ok((bs, rest))
    ensures Starts(EncodeOctets(bs) + rest, OCTET_STRING)
  {
    hide ParsePrimitive, Tlv;
    PrimitiveRoundTrip(OCTET_STRING, bs, rest);
  }

  lemma Unsigned32Element(t: Tag, v: uint32, rest: octets)
    requires LowTag(t) && !IsConstructed(t)
    ensures ParseUnsigned32(t, Tlv(t, UnsignedContent(v)) + rest) == Ok((v, rest))
    ensures Starts(Tlv(t, UnsignedContent(v)) + rest, t)
  {
    hide ParsePrimitive, Tlv, DecodeUnsigned, UnsignedContent;
    BerIntegers.UnsignedContentMeans(v);
    BerIntegers.UnsignedRoundTrip(v);
    PrimitiveRoundTrip(t, UnsignedContent(v), rest);
  }

  lemma Unsigned64Element(t: Tag, v: uint64, rest: octets)
    requires LowTag(t) && !IsConstructed(t)
    ensures ParseUnsigned64(t, Tlv(t, UnsignedContent(v)) + rest) == Ok((v, rest))
    ensures Starts(Tlv(t, UnsignedContent(v)) + rest, t)
  {
    hide ParsePrimitive, Tlv, DecodeUnsigned, UnsignedContent;
    BerIntegers.UnsignedContentMeans(v);
    BerIntegers.UnsignedRoundTrip(v);
    PrimitiveRoundTrip(t, UnsignedContent(v), rest);
  }

  lemma OidElement(o: Oid, rest: octets)
    requires IsEncodable(o) && |OidContent(o)| < LENGTH_LIMIT
    ensures ParseOid(Tlv(OBJECT_IDENTIFIER, OidContent(o)) + rest) == Ok((o, rest))
    ensures Starts(Tlv(OBJECT_IDENTIFIER, OidContent(o)) + rest, OBJECT_IDENTIFIER)
  {
    hide ParsePrimitive, Tlv, DecodeOid, OidContent, IsEncodable;
    BerOids.OidBijection(OidContent(o), o);
    PrimitiveRoundTrip(OBJECT_IDENTIFIER, OidContent(o), rest);
  }

  lemma TlvSize(t: Tag, content: octets)
    ensures |Tlv(t, content)| >= |content| + 2
  {
  }

  lemma ValueRoundTrip(v: Value, rest: octets)
    requires ValueEncodable(v) && |EncodeValue(v)| < LENGTH_LIMIT
    ensures ParseValue(EncodeValue(v) + rest) == Ok((v, rest))
  {
    hide ParsePrimitive, Tlv, ParseInteger, ParseOctets, ParseOid, ParseUnsigned32, ParseUnsigned64, IsEncodable,
      OidContent, UnsignedContent, IntegerContent;
    match v
    case Null => PrimitiveRoundTrip(NULL, [], rest);
    case Integer(x) => IntegerElement(x, rest);
    case OctetString(bs) =>
      TlvSize(OCTET_STRING, bs);
      OctetsElement(bs, rest);
    case ObjectId(o) =>
      TlvSize(OBJECT_IDENTIFIER, OidContent(o));
      OidElement(o, rest);
    case IpAddress(a) => PrimitiveRoundTrip(IP_ADDRESS, a, rest);
    case Counter32(n) => Unsigned32Element(COUNTER32, n, rest);
    case Gauge32(n) => Unsigned32Element(GAUGE32, n, rest);
    case TimeTicks(n) => Unsigned32Element(TIMETICKS, n, rest);
    case Opaque(bs) =>
      TlvSize(OPAQUE, bs);
      PrimitiveRoundTrip(OPAQUE, bs, rest);
    case Counter64(n) => Unsigned64Element(COUNTER64, n, rest);
    case NoSuchObject => PrimitiveRoundTrip(NO_SUCH_OBJECT, [], rest);
    case NoSuchInstance => PrimitiveRoundTrip(NO_SUCH_INSTANCE, [], rest);
    case EndOfMibView => PrimitiveRoundTrip(END_OF_MIB_VIEW, [], rest);
  }

  lemma VarbindRoundTrip(vb: Varbind, rest: octets)
    requires VarbindEncodable(vb) && |EncodeVarbind(vb)| < LENGTH_LIMIT
    ensures ParseVarbind(EncodeVarbind(vb) + rest) == Ok((vb, rest))
  {
    hide ParseConstructed, Tlv, ParseOid, ParseValue, IsEncodable, ValueEncodable, OidContent, EncodeValue;
    var name, val := Tlv(OBJECT_IDENTIFIER, OidContent(vb.name)), EncodeValue(vb.val);
    TlvSize(SEQUENCE, name + val);
    TlvSize(OBJECT_IDENTIFIER, OidContent(vb.name));
    ConstructedRoundTrip(SEQUENCE, name + val, rest);
    OidElement(vb.name, val);
    ValueRoundTrip(vb.val, []);
    assert val + [] == val;
  }

  lemma {:induction false} VarbindsRoundTrip(vbs: seq<Varbind>)
    requires AllEncodable(vbs) && |EncodeVarbinds(vbs)| < LENGTH_LIMIT
    ensures ParseVarbinds(EncodeVarbinds(vbs)) == Ok(vbs)
  {
    hide ParseVarbind, EncodeVarbind, VarbindEncodable;
    if vbs != [] {
      VarbindRoundTrip(vbs[0], EncodeVarbinds(vbs[1..]));
      VarbindsRoundTrip(vbs[1..]);
      assert vbs == [vbs[0]] + vbs[1..];
    }
  }

  lemma VarbindListRoundTrip(vbs: seq<Varbind>, rest: octets)
    requires AllEncodable(vbs) && |EncodeVarbinds(vbs)| < LENGTH_LIMIT
    ensures ParseVarbindList(EncodeVarbindList(vbs) + rest) == Ok((vbs, rest))
  {
    hide ParseConstructed, Tlv, ParseVarbinds, EncodeVarbinds, AllEncodable;
    ConstructedRoundTrip(SEQUENCE, EncodeVarbinds(vbs), rest);
    VarbindsRoundTrip(vbs);
  }

  lemma ListContent(vbs: seq<Varbind>)
    requires AllEncodable(vbs)
    ensures |EncodeVarbindList(vbs)| >= |EncodeVarbinds(vbs)| + 2
  {
    TlvSize(SEQUENCE, EncodeVarbinds(vbs));
  }

  /** No header names a length past the limit, nor takes more than six octets. */
  lemma HeaderBounds(w: octets)
    requires ParseHeader(w).Ok?
    ensures var (h, rest) := ParseHeader(w).value; h.length < LENGTH_LIMIT && |w| <= |rest| + 6
  {
    PowerTable();
    hide NumberOf, Pow;
    if w[1] >= 0x80 {
      var bs := w[2..2 + (w[1] - 0x80)];
      NumberBound(bs, 0x100);
    }
  }

  /** Content past the limit needs a length the decoder does not take: it never comes back whole. */
  lemma TooLongToReadBack(t: Tag, content: octets)
    requires |content| >= LENGTH_LIMIT
    ensures var r := ParseConstructed(t, Tlv(t, content)); r.Ok? ==> r.value.1 != []
  {
    PowerTable();
    hide ParseHeader, Digits, Pow;
    DigitsLength(|content|, 0x100, 4);
    var r := ParseConstructed(t, Tlv(t, content));
    if r.Ok? { HeaderBounds(Tlv(t, content)); }
  }
}
