/**
 * The octets X.690 and RFC 2578 give each value, as relations that owe nothing to the codec: no encoder, no decoder,
 * and every identifier octet written out. The decoders accept exactly what stands in these relations.
 */
module BerWire {
  import opened Octets
  import opened Errors
  import opened Oids
  import opened BerGrammar
  import opened BerRoundTrip

  /** An element: identifier octet, definite length in the short form or in one to four octets, content. */
  ghost predicate Element(w: octets, t: byte, content: octets) {
    || (|content| < 0x80 && w == [t, |content|] + content)
    || exists n: octets :: 1 <= |n| <= 4 && NumberOf(n, 0x100) == |content| && w == [t, 0x80 + |n|] + n + content
  }

  /** Two's complement, however many octets of padding it has. */
  ghost predicate SignedOctets(w: octets, t: byte, v: int) {
    exists c: octets :: Element(w, t, c) && c != []
                        && v == NumberOf(c, 0x100) - if c[0] >= 0x80 then Pow(0x100, |c|) else 0
  }

  ghost predicate UnsignedOctets(w: octets, t: byte, v: nat) {
    exists c: octets :: Element(w, t, c) && c != [] && v == NumberOf(c, 0x100)
  }

  /** Groups of seven bits, the top bit set on all but the last, and no group of zeros in front. */
  predicate SubidOctets(bs: octets, v: nat) {
    && bs != [] && bs[0] != 0x80 && bs[|bs| - 1] < 0x80
    && (forall i :: 0 <= i < |bs| - 1 ==> bs[i] >= 0x80)
    && NumberOf(Groups(bs), 0x80) == v
  }

  function Groups(bs: octets): (ds: seq<nat>)
    ensures |ds| == |bs|
    ensures forall i :: 0 <= i < |ds| ==> ds[i] < 0x80
  {
    seq(|bs|, i requires 0 <= i < |bs| => bs[i] % 0x80)
  }

  ghost predicate SubidsOctets(c: octets, vs: seq<nat>)
    decreases |vs|
  {
    if vs == [] then c == []
    else exists n :: 0 < n <= |c| && SubidOctets(c[..n], vs[0]) && SubidsOctets(c[n..], vs[1..])
  }

  /** An OID's content: the first two arcs in one sub-identifier, forty to the first; at most 128 arcs of 32 bits. */
  ghost predicate ArcOctets(c: octets, o: Oid) {
    && 2 <= |o| <= 128 && o[0] <= 2 && (o[0] < 2 ==> o[1] < 40) && 40 * o[0] as int + o[1] as int < 0x1_0000_0000
    && SubidsOctets(c, [40 * o[0] as int + o[1] as int] + o[2..])
  }

  ghost predicate OidOctets(w: octets, o: Oid) {
    exists c: octets :: Element(w, 0x06, c) && ArcOctets(c, o)
  }

  ghost predicate ValueOctets(w: octets, v: Value) {
    match v
    case Null => Element(w, 0x05, [])
    case Integer(x) => SignedOctets(w, 0x02, x)
    case OctetString(bs) => Element(w, 0x04, bs)
    case ObjectId(o) => OidOctets(w, o)
    case IpAddress(a) => Element(w, 0x40, a)
    case Counter32(n) => UnsignedOctets(w, 0x41, n)
    case Gauge32(n) => UnsignedOctets(w, 0x42, n)
    case TimeTicks(n) => UnsignedOctets(w, 0x43, n)
    case Opaque(bs) => Element(w, 0x44, bs)
    case Counter64(n) => UnsignedOctets(w, 0x46, n)
    case NoSuchObject => Element(w, 0x80, [])
    case NoSuchInstance => Element(w, 0x81, [])
    case EndOfMibView => Element(w, 0x82, [])
  }

  ghost predicate VarbindOctets(w: octets, vb: Varbind) {
    exists a: octets, b: octets :: Element(w, 0x30, a + b) && OidOctets(a, vb.name) && ValueOctets(b, vb.val)
  }

  ghost predicate VarbindsOctets(c: octets, vbs: seq<Varbind>)
    decreases |vbs|
  {
    if vbs == [] then c == []
    else exists n :: 0 < n <= |c| && VarbindOctets(c[..n], vbs[0]) && VarbindsOctets(c[n..], vbs[1..])
  }

  ghost predicate VarbindListOctets(w: octets, vbs: seq<Varbind>) {
    exists c: octets :: Element(w, 0x30, c) && VarbindsOctets(c, vbs)
  }

  //
  // Elements
  //

  /** What a parser took: its window without what it left. */
  function Taken(w: octets, rest: octets): octets {
    if |rest| <= |w| then w[..|w| - |rest|] else []
  }

  lemma TakenIs(a: octets, rest: octets)
    ensures Taken(a + rest, rest) == a
  {
  }

  lemma ElementHeads(a: octets, t: byte, c: octets, rest: octets)
    requires Element(a, t, c) && LowTag(t)
    ensures ParseHeader(a + rest) == Ok((Header(t, |c|), c + rest))
  {
    hide NumberOf;
    if |c| < 0x80 && a == [t, |c|] + c {
      ShortHeader(t, c, rest);
    } else {
      var n: octets :| 1 <= |n| <= 4 && NumberOf(n, 0x100) == |c| && a == [t, 0x80 + |n|] + n + c;
      Slices(t, 0x80 + |n|, n, c + rest);
      assert a + rest == [t, 0x80 + |n|] + n + (c + rest);
      LongHeader(a + rest, n, c + rest);
    }
  }

  lemma HeadedElement(w: octets)
    requires ParseHeader(w).Ok?
    ensures var (h, body) := ParseHeader(w).value;
            && LowTag(w[0]) && h.tag == w[0]
            && w == Taken(w, body[h.length..]) + body[h.length..]
            && Element(Taken(w, body[h.length..]), w[0], body[..h.length])
  {
    hide NumberOf;
    var (h, body) := ParseHeader(w).value;
    var c, rest := body[..h.length], body[h.length..];
    if w[1] < 0x80 {
      assert w == [w[0], |c|] + c + rest;
      TakenIs([w[0], |c|] + c, rest);
    } else {
      var n := w[2..2 + (w[1] - 0x80)];
      assert w == [w[0], 0x80 + |n|] + n + c + rest;
      TakenIs([w[0], 0x80 + |n|] + n + c, rest);
      assert NumberOf(n, 0x100) == |c|;
    }
  }

  lemma PrimitiveReads(t: Tag, w: octets, c: octets, rest: octets)
    requires LowTag(t) && !IsConstructed(t)
    ensures ParsePrimitive(t, w) == Ok((c, rest)) <==> w == Taken(w, rest) + rest && Element(Taken(w, rest), t, c)
  {
    hide ParseHeader, NumberOf;
    if ParsePrimitive(t, w) == Ok((c, rest)) {
      HeadedElement(w);
    }
    if w == Taken(w, rest) + rest && Element(Taken(w, rest), t, c) {
      ElementHeads(Taken(w, rest), t, c, rest);
      assert (c + rest)[..|c|] == c && (c + rest)[|c|..] == rest;
    }
  }

  lemma ConstructedReads(t: Tag, w: octets, c: octets, rest: octets)
    requires LowTag(t) && IsConstructed(t)
    ensures ParseConstructed(t, w) == Ok((c, rest)) <==> w == Taken(w, rest) + rest && Element(Taken(w, rest), t, c)
  {
    hide ParseHeader, NumberOf;
    if ParseConstructed(t, w) == Ok((c, rest)) {
      HeadedElement(w);
    }
    if w == Taken(w, rest) + rest && Element(Taken(w, rest), t, c) {
      ElementHeads(Taken(w, rest), t, c, rest);
      assert (c + rest)[..|c|] == c && (c + rest)[|c|..] == rest;
    }
  }

  /** No element is empty, and the identifier octet comes first. */
  lemma ElementStarts(w: octets, t: byte, c: octets)
    requires Element(w, t, c)
    ensures |w| >= 2 && w[0] == t
  {
  }

  //
  // Integers
  //

  lemma IntegerReads(w: octets, v: int32, rest: octets)
    ensures ParseInteger(w) == Ok((v, rest)) <==> w == Taken(w, rest) + rest && SignedOctets(Taken(w, rest), 0x02, v)
  {
    hide ParsePrimitive, Element, Taken, NumberOf, Pow;
    if ParseInteger(w) == Ok((v, rest)) {
      PrimitiveReads(0x02, w, ParsePrimitive(0x02, w).value.0, rest);
    }
    if w == Taken(w, rest) + rest && SignedOctets(Taken(w, rest), 0x02, v) {
      var c: octets :| Element(Taken(w, rest), 0x02, c) && c != []
                       && v == NumberOf(c, 0x100) - if c[0] >= 0x80 then Pow(0x100, |c|) else 0;
      PrimitiveReads(0x02, w, c, rest);
    }
  }

  lemma Unsigned32Reads(t: Tag, w: octets, v: uint32, rest: octets)
    requires LowTag(t) && !IsConstructed(t)
    ensures ParseUnsigned32(t, w) == Ok((v, rest))
       <==> w == Taken(w, rest) + rest && UnsignedOctets(Taken(w, rest), t, v)
  {
    PowerTable();
    hide ParsePrimitive, Element, Taken, NumberOf, Pow;
    if ParseUnsigned32(t, w) == Ok((v, rest)) {
      PrimitiveReads(t, w, ParsePrimitive(t, w).value.0, rest);
    }
    if w == Taken(w, rest) + rest && UnsignedOctets(Taken(w, rest), t, v) {
      var c: octets :| Element(Taken(w, rest), t, c) && c != [] && v == NumberOf(c, 0x100);
      PrimitiveReads(t, w, c, rest);
    }
  }

  lemma Unsigned64Reads(t: Tag, w: octets, v: uint64, rest: octets)
    requires LowTag(t) && !IsConstructed(t)
    ensures ParseUnsigned64(t, w) == Ok((v, rest))
       <==> w == Taken(w, rest) + rest && UnsignedOctets(Taken(w, rest), t, v)
  {
    PowerTable();
    hide ParsePrimitive, Element, Taken, NumberOf, Pow;
    if ParseUnsigned64(t, w) == Ok((v, rest)) {
      PrimitiveReads(t, w, ParsePrimitive(t, w).value.0, rest);
    }
    if w == Taken(w, rest) + rest && UnsignedOctets(Taken(w, rest), t, v) {
      var c: octets :| Element(Taken(w, rest), t, c) && c != [] && v == NumberOf(c, 0x100);
      PrimitiveReads(t, w, c, rest);
    }
  }

  //
  // Object identifiers
  //

  /** Marking all groups but the last gives back the octets they came from. */
  lemma {:induction false} ContinuedGroups(bs: octets)
    requires bs != [] && bs[|bs| - 1] < 0x80 && forall i :: 0 <= i < |bs| - 1 ==> bs[i] >= 0x80
    ensures Continued(Groups(bs)) == bs
    decreases |bs|
  {
    if |bs| > 1 {
      ContinuedGroups(bs[1..]);
      assert Groups(bs)[1..] == Groups(bs[1..]);
      assert bs == [bs[0]] + bs[1..];
    }
  }

  lemma GroupsCons(b: byte, bs: octets)
    ensures Groups([b] + bs) == [b % 0x80] + Groups(bs)
  {
  }

  lemma {:induction false} ContinuedIs(ds: seq<nat>)
    requires |ds| >= 1 && forall i :: 0 <= i < |ds| ==> ds[i] < 0x80
    ensures var bs := Continued(ds);
            && Groups(bs) == ds && bs[|bs| - 1] < 0x80 && (forall i :: 0 <= i < |bs| - 1 ==> bs[i] >= 0x80)
            && bs[0] == if |ds| == 1 then ds[0] else ds[0] + 0x80
    decreases |ds|
  {
    if |ds| == 1 {
      assert Groups([ds[0]]) == [ds[0]];
      assert [ds[0]] == ds;
    } else {
      hide Groups;
      ContinuedIs(ds[1..]);
      GroupsCons(ds[0] + 0x80, Continued(ds[1..]));
      assert ds == [ds[0]] + ds[1..];
    }
  }

  lemma SubidIs(bs: octets, v: nat)
    ensures SubidOctets(bs, v) <==> bs == Subid(v)
  {
    hide Digits, NumberOf;
    if SubidOctets(bs, v) {
      ContinuedGroups(bs);
      DigitsOfNumber(Groups(bs), 0x80);
    }
    if bs == Subid(v) {
      ContinuedIs(Digits(v, 0x80));
      NumberOfDigits(v, 0x80);
      DigitsLead(v, 0x80);
    }
  }

  function Joined(vs: seq<nat>): octets {
    if vs == [] then [] else Subid(vs[0]) + Joined(vs[1..])
  }

  lemma {:induction false} SubidsAre(c: octets, vs: seq<nat>)
    ensures SubidsOctets(c, vs) <==> c == Joined(vs)
    decreases |vs|
  {
    hide SubidOctets, Subid;
    if vs != [] {
      if SubidsOctets(c, vs) {
        var n :| 0 < n <= |c| && SubidOctets(c[..n], vs[0]) && SubidsOctets(c[n..], vs[1..]);
        SubidIs(c[..n], vs[0]);
        SubidsAre(c[n..], vs[1..]);
        assert c == c[..n] + c[n..];
      }
      if c == Joined(vs) {
        var n := |Subid(vs[0])|;
        assert c[..n] == Subid(vs[0]) && c[n..] == Joined(vs[1..]);
        SubidIs(c[..n], vs[0]);
        SubidsAre(c[n..], vs[1..]);
        assert n > 0 by { SubidNotEmpty(vs[0]); }
      }
    }
  }

  lemma SubidNotEmpty(v: nat)
    ensures Subid(v) != []
  {
  }

  lemma {:induction false} JoinedSubids(o: Oid)
    ensures Joined(o) == Subids(o)
  {
    if o != [] { JoinedSubids(o[1..]); }
  }

  lemma ArcsAre(c: octets, o: Oid)
    ensures ArcOctets(c, o) <==> DecodeOid(c) == Ok(o)
  {
    hide DecodeOid, SubidsOctets, Subid, Subids;
    BerOids.OidBijection(c, o);
    if 2 <= |o| <= 128 && o[0] <= 2 {
      var vs := [40 * o[0] as int + o[1] as int] + o[2..];
      SubidsAre(c, vs);
      assert vs[1..] == o[2..];
      JoinedSubids(o[2..]);
    }
  }

  lemma OidReads(w: octets, o: Oid, rest: octets)
    ensures ParseOid(w) == Ok((o, rest)) <==> w == Taken(w, rest) + rest && OidOctets(Taken(w, rest), o)
  {
    hide ParsePrimitive, Element, Taken, DecodeOid, ArcOctets;
    if ParseOid(w) == Ok((o, rest)) {
      var c := ParsePrimitive(0x06, w).value.0;
      PrimitiveReads(0x06, w, c, rest);
      ArcsAre(c, o);
    }
    if w == Taken(w, rest) + rest && OidOctets(Taken(w, rest), o) {
      var c: octets :| Element(Taken(w, rest), 0x06, c) && ArcOctets(c, o);
      PrimitiveReads(0x06, w, c, rest);
      ArcsAre(c, o);
    }
  }

  //
  // Values
  //

  /**
   * The identifier octet of each kind: X.690 section 8 for the universal ones, RFC 2578 and RFC 3416 for SNMP's own.
   */
  function Identifier(v: Value): byte {
    match v
    case Null => 0x05
    case Integer(_) => 0x02
    case OctetString(_) => 0x04
    case ObjectId(_) => 0x06
    case IpAddress(_) => 0x40
    case Counter32(_) => 0x41
    case Gauge32(_) => 0x42
    case TimeTicks(_) => 0x43
    case Opaque(_) => 0x44
    case Counter64(_) => 0x46
    case NoSuchObject => 0x80
    case NoSuchInstance => 0x81
    case EndOfMibView => 0x82
  }

  lemma ValueStarts(w: octets, v: Value)
    requires ValueOctets(w, v)
    ensures |w| >= 2 && w[0] == Identifier(v)
  {
    hide Element, NumberOf, Pow, ArcOctets;
    forall t: byte, c: octets | Element(w, t, c) ensures |w| >= 2 && w[0] == t { ElementStarts(w, t, c); }
  }

  /** A value whose content is a number or an OID. */
  predicate Numeric(v: Value) {
    v.Integer? || v.ObjectId? || v.Counter32? || v.Gauge32? || v.TimeTicks? || v.Counter64?
  }

  lemma NumericSound(w: octets)
    requires ParseValue(w).Ok? && Numeric(ParseValue(w).value.0)
    ensures var (v, rest) := ParseValue(w).value;
            w == Taken(w, rest) + rest && ValueOctets(Taken(w, rest), v) && w[0] == Identifier(v)
  {
    hide ParsePrimitive, Element, Taken, SignedOctets, UnsignedOctets, OidOctets, DecodeOid, DecodeInteger,
         DecodeUnsigned;
    var (v, rest) := ParseValue(w).value;
    match v
    case Integer(x) => IntegerReads(w, x, rest);
    case ObjectId(o) => OidReads(w, o, rest);
    case Counter32(n) => Unsigned32Reads(w[0], w, n, rest);
    case Gauge32(n) => Unsigned32Reads(w[0], w, n, rest);
    case TimeTicks(n) => Unsigned32Reads(w[0], w, n, rest);
    case Counter64(n) => Unsigned64Reads(w[0], w, n, rest);
  }

  lemma PlainSound(w: octets)
    requires ParseValue(w).Ok? && !Numeric(ParseValue(w).value.0)
    ensures var (v, rest) := ParseValue(w).value;
            w == Taken(w, rest) + rest && ValueOctets(Taken(w, rest), v) && w[0] == Identifier(v)
  {
    hide ParsePrimitive, Element, Taken, ParseInteger, ParseOid, ParseUnsigned32, ParseUnsigned64, SignedOctets,
         UnsignedOctets, OidOctets;
    var (v, rest) := ParseValue(w).value;
    match v
    case Null => PrimitiveReads(w[0], w, [], rest);
    case OctetString(bs) => PrimitiveReads(w[0], w, bs, rest);
    case IpAddress(a) => PrimitiveReads(w[0], w, a, rest);
    case Opaque(bs) => PrimitiveReads(w[0], w, bs, rest);
    case NoSuchObject => PrimitiveReads(w[0], w, [], rest);
    case NoSuchInstance => PrimitiveReads(w[0], w, [], rest);
    case EndOfMibView => PrimitiveReads(w[0], w, [], rest);
  }

  lemma NumericComplete(w: octets, v: Value, rest: octets)
    requires w == Taken(w, rest) + rest && ValueOctets(Taken(w, rest), v) && Numeric(v)
    requires w != [] && w[0] == Identifier(v)
    ensures ParseValue(w) == Ok((v, rest))
  {
    hide ParsePrimitive, ParseInteger, ParseOid, ParseUnsigned32, ParseUnsigned64, Element, Taken, SignedOctets,
         UnsignedOctets, OidOctets;
    match v
    case Integer(x) => IntegerReads(w, x, rest);
    case ObjectId(o) => OidReads(w, o, rest);
    case Counter32(n) => Unsigned32Reads(0x41, w, n, rest);
    case Gauge32(n) => Unsigned32Reads(0x42, w, n, rest);
    case TimeTicks(n) => Unsigned32Reads(0x43, w, n, rest);
    case Counter64(n) => Unsigned64Reads(0x46, w, n, rest);
  }

  lemma PlainComplete(w: octets, v: Value, rest: octets)
    requires w == Taken(w, rest) + rest && ValueOctets(Taken(w, rest), v) && !Numeric(v)
    requires w != [] && w[0] == Identifier(v)
    ensures ParseValue(w) == Ok((v, rest))
  {
    hide ParsePrimitive, ParseInteger, ParseOid, ParseUnsigned32, ParseUnsigned64, Element, Taken, SignedOctets,
         UnsignedOctets, OidOctets;
    match v
    case Null => PrimitiveReads(0x05, w, [], rest);
    case OctetString(bs) => PrimitiveReads(0x04, w, bs, rest);
    case IpAddress(a) => PrimitiveReads(0x40, w, a, rest);
    case Opaque(bs) => PrimitiveReads(0x44, w, bs, rest);
    case NoSuchObject => PrimitiveReads(0x80, w, [], rest);
    case NoSuchInstance => PrimitiveReads(0x81, w, [], rest);
    case EndOfMibView => PrimitiveReads(0x82, w, [], rest);
  }

  lemma ValueSound(w: octets)
    requires ParseValue(w).Ok?
    ensures var (v, rest) := ParseValue(w).value;
            w == Taken(w, rest) + rest && ValueOctets(Taken(w, rest), v) && w[0] == Identifier(v)
  {
    hide ValueOctets, Taken;
    if Numeric(ParseValue(w).value.0) { NumericSound(w); } else { PlainSound(w); }
  }

  lemma ValueComplete(w: octets, v: Value, rest: octets)
    requires w == Taken(w, rest) + rest && ValueOctets(Taken(w, rest), v)
    ensures ParseValue(w) == Ok((v, rest))
  {
    hide ParseValue, ValueOctets;
    ValueStarts(Taken(w, rest), v);
    if Numeric(v) { NumericComplete(w, v, rest); } else { PlainComplete(w, v, rest); }
  }

  /** The decoder takes a value off the front of a window exactly when the octets it takes are that value's. */
  lemma ValueReads(w: octets, v: Value, rest: octets)
    ensures ParseValue(w) == Ok((v, rest)) <==> w == Taken(w, rest) + rest && ValueOctets(Taken(w, rest), v)
  {
    hide ParseValue, ValueOctets, Taken;
    if ParseValue(w) == Ok((v, rest)) { ValueSound(w); }
    if w == Taken(w, rest) + rest && ValueOctets(Taken(w, rest), v) { ValueComplete(w, v, rest); }
  }

  /** What is written for a value are its octets, and they start with its kind's identifier. */
  lemma ValueWritten(v: Value)
    requires ValueEncodable(v) && |EncodeValue(v)| < LENGTH_LIMIT
    ensures ValueOctets(EncodeValue(v), v) && EncodeValue(v)[0] == Identifier(v)
  {
    hide EncodeValue, ParseValue, ValueOctets, ValueEncodable;
    ValueRoundTrip(v, []);
    ValueReads(EncodeValue(v) + [], v, []);
    TakenIs(EncodeValue(v), []);
    assert EncodeValue(v) + [] == EncodeValue(v);
    ValueStarts(EncodeValue(v), v);
  }

  //
  // Varbinds
  //

  lemma VarbindReads(w: octets, vb: Varbind, rest: octets)
    ensures ParseVarbind(w) == Ok((vb, rest)) <==> w == Taken(w, rest) + rest && VarbindOctets(Taken(w, rest), vb)
  {
    hide ParseConstructed, ParseOid, ParseValue, Element, Taken, OidOctets, ValueOctets;
    if ParseVarbind(w) == Ok((vb, rest)) {
      var content := ParseConstructed(SEQUENCE, w).value.0;
      ConstructedReads(0x30, w, content, rest);
      var afterName := ParseOid(content).value.1;
      OidReads(content, vb.name, afterName);
      var (val, afterVal) := ParseValue(afterName).value;
      assert val == vb.val && afterVal == [];
      ValueReads(afterName, vb.val, []);
      var a, b := Taken(content, afterName), Taken(afterName, []);
      assert b + [] == b;
      assert content == a + b;
    }
    if w == Taken(w, rest) + rest && VarbindOctets(Taken(w, rest), vb) {
      var a: octets, b: octets :| Element(Taken(w, rest), 0x30, a + b) && OidOctets(a, vb.name)
          && ValueOctets(b, vb.val);
      ConstructedReads(0x30, w, a + b, rest);
      TakenIs(a, b);
      OidReads(a + b, vb.name, b);
      TakenIs(b, []);
      assert b + [] == b;
      ValueReads(b, vb.val, []);
    }
  }

  lemma {:induction false} VarbindsRead(c: octets, vbs: seq<Varbind>)
    ensures ParseVarbinds(c) == Ok(vbs) <==> VarbindsOctets(c, vbs)
    decreases |c|
  {
    hide ParseVarbind, VarbindOctets;
    if c != [] && ParseVarbinds(c) == Ok(vbs) {
      var (vb, rest) := ParseVarbind(c).value;
      VarbindReads(c, vb, rest);
      VarbindsRead(rest, vbs[1..]);
      assert vbs[0] == vb && vbs[1..] == ParseVarbinds(rest).value;
      var n := |c| - |rest|;
      assert c[..n] == Taken(c, rest) && c[n..] == rest;
    }
    if vbs != [] && VarbindsOctets(c, vbs) {
      var n :| 0 < n <= |c| && VarbindOctets(c[..n], vbs[0]) && VarbindsOctets(c[n..], vbs[1..]);
      assert c == c[..n] + c[n..];
      TakenIs(c[..n], c[n..]);
      VarbindReads(c, vbs[0], c[n..]);
      VarbindsRead(c[n..], vbs[1..]);
      assert vbs == [vbs[0]] + vbs[1..];
    }
  }

  /** The same for a whole list. */
  lemma VarbindListReads(w: octets, vbs: seq<Varbind>, rest: octets)
    ensures ParseVarbindList(w) == Ok((vbs, rest))
       <==> w == Taken(w, rest) + rest && VarbindListOctets(Taken(w, rest), vbs)
  {
    hide ParseConstructed, ParseVarbinds, Element, Taken, VarbindsOctets;
    if ParseVarbindList(w) == Ok((vbs, rest)) {
      var content := ParseConstructed(SEQUENCE, w).value.0;
      ConstructedReads(0x30, w, content, rest);
      VarbindsRead(content, vbs);
    }
    if w == Taken(w, rest) + rest && VarbindListOctets(Taken(w, rest), vbs) {
      var c: octets :| Element(Taken(w, rest), 0x30, c) && VarbindsOctets(c, vbs);
      ConstructedReads(0x30, w, c, rest);
      VarbindsRead(c, vbs);
    }
  }
}
