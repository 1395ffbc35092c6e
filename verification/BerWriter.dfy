/**
 * The Writer: one growing buffer, one-octet length placeholders patched and widened in place when their scope closes,
 * and an error that sticks. Every method is proved to append exactly the octets of the grammar.
 */
module BerWriter {
  import opened Octets
  import opened Errors
  import opened Oids
  import opened BerGrammar
  import BerIntegers
  import BerOids

  /** Any tree of nested scopes. */
  datatype Element = Primitive(tag: Tag, content: octets) | Constructed(tag: Tag, children: seq<Element>)

  /** Every element opened as a scope has a constructed tag. */
  predicate WellTagged(e: Element)
    decreases e, 0
  {
    e.Constructed? ==> IsConstructed(e.tag) && AllTagged(e.children)
  }

  predicate AllTagged(es: seq<Element>)
    decreases es, 1
  {
    es == [] || (WellTagged(es[0]) && AllTagged(es[1..]))
  }

  /** Tag, minimal length, then the children one after another. */
  function EncodeElement(e: Element): octets
    decreases e, 0
  {
    match e
    case Primitive(t, content) => Tlv(t, content)
    case Constructed(t, children) => Tlv(t, EncodeElements(children))
  }

  function EncodeElements(es: seq<Element>): octets
    decreases es, 1
  {
    if es == [] then [] else EncodeElement(es[0]) + EncodeElements(es[1..])
  }

  lemma {:induction false} EncodeVarbindsSnoc(vbs: seq<Varbind>, vb: Varbind)
    requires AllEncodable(vbs + [vb])
    ensures AllEncodable(vbs) && VarbindEncodable(vb)
    ensures EncodeVarbinds(vbs + [vb]) == EncodeVarbinds(vbs) + EncodeVarbind(vb)
  {
    hide VarbindEncodable, EncodeVarbind;
    var all := vbs + [vb];
    assert VarbindEncodable(all[|vbs|]);
    forall i | 0 <= i < |vbs| ensures VarbindEncodable(vbs[i]) { assert all[i] == vbs[i]; }
    if vbs == [] {
      assert all == [vb] && all[1..] == [];
    } else {
      assert all[1..] == vbs[1..] + [vb];
      forall i | 0 <= i < |all[1..]| ensures VarbindEncodable(all[1..][i]) { assert all[1..][i] == all[i + 1]; }
      EncodeVarbindsSnoc(vbs[1..], vb);
      assert EncodeVarbind(vbs[0]) + (EncodeVarbinds(vbs[1..]) + EncodeVarbind(vb))
          == EncodeVarbinds(vbs) + EncodeVarbind(vb);
    }
  }

  /** Marking every group but the last is marking each group as it goes out. */
  lemma {:induction false} ContinuedAt(ds: seq<nat>, i: nat)
    requires i < |ds| && forall k :: 0 <= k < |ds| ==> ds[k] < 0x80
    ensures Continued(ds)[i] == if i == |ds| - 1 then ds[i] else ds[i] + 0x80
  {
    if i > 0 { ContinuedAt(ds[1..], i - 1); }
  }

  /** Where a scope's tag is in a buffer that was only appended to since. */
  lemma Placed(before: octets, t: Tag, buf: octets)
    requires before + [t, 0] <= buf
    ensures buf[..|before|] == before && buf[|before|] == t
  {
    assert buf[..|before| + 2] == before + [t, 0];
  }

  /** The octet of a length `i` octets up from its last: a shift and a mask. */
  method ShiftedOctet(n: nat, i: nat) returns (b: byte)
    requires i < |Significant(n)|
    ensures b == Significant(n)[|Significant(n)| - 1 - i]
  {
    DigitAt(n, 0x100, |Significant(n)| - 1 - i);
    b := n / Pow(0x100, i) % 0x100;
  }

  class Writer {
    var buf: octets
    var ec: Option<Errc>

    constructor ()
      ensures buf == [] && ec == None
    {
      buf, ec := [], None;
    }

    /** The buffer was appended to, and an earlier error kept. */
    twostate predicate Extended()
      reads this
    {
      old(buf) <= buf && (old(ec).Some? ==> ec == old(ec))
    }

    /** Exactly `bytes` were appended; after an error nothing is. */
    twostate predicate Appended(bytes: octets)
      reads this
    {
      ec == old(ec) && buf == if old(ec).None? then old(buf) + bytes else old(buf)
    }

    method Fail(e: Errc)
      modifies this`ec
      ensures ec == if old(ec).Some? then old(ec) else Some(e)
    {
      if ec.None? { ec := Some(e); }
    }

    method Put(b: byte)
      modifies this`buf
      ensures buf == old(buf) + [b]
    {
      buf := buf + [b];
    }

    /** The significant octets of a length, most significant first. */
    method PutSignificant(n: nat, significant: nat)
      requires significant == |Significant(n)|
      modifies this`buf
      ensures buf == old(buf) + Significant(n)
    {
      hide Significant;
      ghost var ds := Significant(n);
      var i := significant;
      assert buf == old(buf) + ds[..0];
      while i > 0
        invariant 0 <= i <= significant
        invariant buf == old(buf) + ds[..significant - i]
      {
        i := i - 1;
        var b := ShiftedOctet(n, i);
        OneMore(old(buf), ds, significant - 1 - i);
        Put(b);
      }
      assert ds[..significant] == ds;
    }

    method PutLength(n: nat)
      modifies this`buf
      ensures buf == old(buf) + LengthOctets(n)
    {
      hide Significant;
      if n < 0x80 {
        Put(n);
        return;
      }
      var size := BerOids.LengthSize(n);
      Put((0x80 + (size - 1)) % 0x100);
      PutSignificant(n, size - 1);
    }

    /** Opens a scope: the tag and a placeholder, whose position closing it will need. */
    method BeginConstructed(t: Tag) returns (lengthPos: nat)
      modifies this
      ensures buf == old(buf) + [t, 0] && lengthPos == |old(buf)| + 1
      ensures ec == if old(ec).None? && !IsConstructed(t) then Some(UnexpectedTag) else old(ec)
    {
      if t / 0x20 % 2 != 1 { Fail(UnexpectedTag); }
      Put(t);
      lengthPos := |buf|;
      Put(0);
    }

    /** Overwrites the room made at `at` with the significant octets of a length. */
    method PatchSignificant(at: nat, n: nat, significant: nat)
      requires significant == |Significant(n)| && at + significant <= |buf|
      modifies this`buf
      ensures buf == old(buf)[..at] + Significant(n) + old(buf)[at + significant..]
    {
      hide Significant;
      ghost var ds := Significant(n);
      var i := 0;
      while i < significant
        invariant 0 <= i <= significant
        invariant buf == old(buf)[..at] + ds[..i] + old(buf)[at + i..]
      {
        var b := ShiftedOctet(n, significant - 1 - i);
        Patched(old(buf), at, ds, i);
        buf := buf[at + i := b];
        i := i + 1;
      }
      assert ds[..significant] == ds;
    }

    /** Makes room for `extra` octets after the placeholder, which becomes their count. */
    method Widen(lengthPos: nat, extra: nat)
      requires lengthPos < |buf|
      modifies this`buf
      ensures |buf| == |old(buf)| + extra
      ensures buf[..lengthPos + 1] == old(buf)[..lengthPos] + [(0x80 + extra) % 0x100]
      ensures buf[lengthPos + 1 + extra..] == old(buf)[lengthPos + 1..]
    {
      var room: octets := seq(extra, _ => 0);
      var marker: byte := (0x80 + extra) % 0x100;
      Widened(buf, lengthPos, room, marker);
      buf := buf[..lengthPos + 1] + room + buf[lengthPos + 1..];
      buf := buf[lengthPos := marker];
    }

    /** The placeholder becomes the length of everything after it, widened in place where one octet is too few. */
    method PatchLength(lengthPos: nat)
      requires lengthPos < |buf|
      modifies this`buf
      ensures var content := old(buf)[lengthPos + 1..];
              buf == old(buf)[..lengthPos] + LengthOctets(|content|) + content
    {
      hide Significant;
      var contentLen := |buf| - (lengthPos + 1);
      var needed := BerOids.LengthSize(contentLen);
      if needed > 1 {
        ghost var before, content := buf[..lengthPos], buf[lengthPos + 1..];
        Widen(lengthPos, needed - 1);
        PatchSignificant(lengthPos + 1, contentLen, needed - 1);
        OneBuffer(before, (0x80 + (needed - 1)) % 0x100, Significant(contentLen), content);
      } else {
        Replaced(buf, lengthPos, contentLen);
        buf := buf[lengthPos := contentLen];
      }
    }

    /** Closes the scope whose placeholder is at `lengthPos`: the tag before it now heads a whole element. */
    method CloseScope(lengthPos: nat)
      requires 1 <= lengthPos < |buf|
      modifies this`buf
      ensures buf == old(buf)[..lengthPos - 1] + Tlv(old(buf)[lengthPos - 1], old(buf)[lengthPos + 1..])
    {
      hide LengthOctets;
      ghost var before, content := buf[..lengthPos], buf[lengthPos + 1..];
      PatchLength(lengthPos);
      Joined(before, LengthOctets(|content|), content);
    }

    /** Four octets of two's complement, stripped of sign padding. */
    method Integer(v: int32)
      modifies this
      ensures Appended(EncodeInteger(v))
    {
      hide LengthOctets, IntegerContent, FourOctets;
      if ec.Some? { return; }
      var encoded := FourOctets(v);
      var first := StripSign(encoded, v);
      Put(INTEGER);
      PutLength(4 - first);
      buf := buf + encoded[first..];
      assert buf == old(buf) + ([INTEGER] + LengthOctets(4 - first) + encoded[first..]);
    }

    /** Eight octets behind a zero, stripped of zeros that are not needed to stay non-negative. */
    method Unsigned(v: uint64, t: Tag)
      modifies this
      ensures Appended(Tlv(t, UnsignedContent(v)))
    {
      hide NumberOf, Pow, Times, LengthOctets, UnsignedContent, OctetsOf;
      if ec.Some? { return; }
      var encoded := EightOctets(v);
      encoded := [0] + encoded;
      var first := 0;
      assert encoded == [0] + encoded[1..];
      BerIntegers.LeadingZero(encoded[1..]);
      assert encoded[0..] == encoded;
      while first + 1 < 9 && encoded[first] == 0 && encoded[first + 1] < 0x80
        invariant 0 <= first < 9 == |encoded| && buf == old(buf) && ec == old(ec)
        invariant NumberOf(encoded[first..], 0x100) == v
        invariant encoded[first] < 0x80
      {
        assert encoded[first..] == [0] + encoded[first + 1..];
        BerIntegers.LeadingZero(encoded[first + 1..]);
        first := first + 1;
      }
      UnsignedUnique(encoded[first..], v);
      Put(t);
      PutLength(9 - first);
      buf := buf + encoded[first..];
      assert buf == old(buf) + ([t] + LengthOctets(9 - first) + encoded[first..]);
    }

    method Elementary(t: Tag, content: octets)
      modifies this
      ensures Appended(Tlv(t, content))
    {
      if ec.Some? { return; }
      hide LengthOctets;
      Put(t);
      PutLength(|content|);
      buf := buf + content;
      assert buf == old(buf) + ([t] + LengthOctets(|content|) + content);
    }

    method Raw(bytes: octets)
      modifies this
      ensures Appended(bytes)
    {
      if ec.Some? { return; }
      buf := buf + bytes;
    }

    /** One sub-identifier, most significant group first. */
    method EmitSubid(v: nat)
      modifies this`buf
      ensures buf == old(buf) + Subid(v)
    {
      hide Digits, Pow, Quotient, Remainder, Continued;
      ghost var ds := Digits(v, 0x80);
      var n := BerOids.SubidSize(v);
      var i := n;
      while i > 0
        invariant 0 <= i <= n == |ds|
        invariant buf == old(buf) + Subid(v)[..n - i]
      {
        i := i - 1;
        DigitAt(v, 0x80, n - 1 - i);
        ContinuedAt(ds, n - 1 - i);
        var group := Remainder(Quotient(v, Pow(0x80, i)), 0x80);
        Put(if i == 0 then group else group + 0x80);
      }
    }

    method ObjectIdentifier(o: Oid)
      modifies this
      ensures IsEncodable(o) ==> Appended(Tlv(OBJECT_IDENTIFIER, OidContent(o)))
      ensures !IsEncodable(o) ==> buf == old(buf)
      ensures !IsEncodable(o) ==> ec == if old(ec).Some? then old(ec) else Some(OidNotEncodable)
    {
      hide LengthOctets, Subid;
      if ec.Some? { return; }
      if !IsEncodable(o) {
        Fail(OidNotEncodable);
        return;
      }
      var content := BerOids.OidContentSize(o);
      Put(OBJECT_IDENTIFIER);
      PutLength(content);
      ghost var head := buf;
      EmitSubid(40 * o[0] as int + o[1] as int);
      var i := 2;
      while i < |o|
        invariant 2 <= i <= |o| && ec == None
        invariant head + OidContent(o) == buf + Subids(o[i..])
      {
        ghost var was := buf;
        EmitSubid(o[i]);
        assert o[i..][1..] == o[i + 1..];
        assert was + (Subid(o[i]) + Subids(o[i + 1..])) == buf + Subids(o[i + 1..]);
        i := i + 1;
      }
      assert Subids(o[i..]) == [];
      assert buf == head + OidContent(o);
      assert buf == old(buf) + ([OBJECT_IDENTIFIER] + LengthOctets(content) + OidContent(o));
    }

    method WriteValue(v: Value)
      modifies this
      ensures Extended()
      ensures ValueEncodable(v) ==> Appended(EncodeValue(v))
      ensures !ValueEncodable(v) ==> ec == if old(ec).Some? then old(ec) else Some(OidNotEncodable)
    {
      hide Tlv, OidContent, IsEncodable;
      if ec.Some? { return; }
      match v
      case Null => Elementary(NULL, []);
      case Integer(x) => Integer(x);
      case OctetString(bs) => Elementary(OCTET_STRING, bs);
      case ObjectId(o) => ObjectIdentifier(o);
      case IpAddress(a) => Elementary(IP_ADDRESS, a);
      case Counter32(n) => Unsigned(n, COUNTER32);
      case Gauge32(n) => Unsigned(n, GAUGE32);
      case TimeTicks(n) => Unsigned(n, TIMETICKS);
      case Opaque(bs) => Elementary(OPAQUE, bs);
      case Counter64(n) => Unsigned(n, COUNTER64);
      case NoSuchObject => Elementary(NO_SUCH_OBJECT, []);
      case NoSuchInstance => Elementary(NO_SUCH_INSTANCE, []);
      case EndOfMibView => Elementary(END_OF_MIB_VIEW, []);
    }

    method WriteVarbind(vb: Varbind)
      modifies this
      ensures Extended()
      ensures old(ec).None? && VarbindEncodable(vb) ==> ec == None && buf == old(buf) + EncodeVarbind(vb)
      ensures old(ec).None? && !VarbindEncodable(vb) ==> ec == Some(OidNotEncodable)
    {
      hide Tlv, OidContent, IsEncodable, ValueEncodable, EncodeValue;
      var s := BeginConstructed(SEQUENCE);
      ghost var open := buf;
      ObjectIdentifier(vb.name);
      WriteValue(vb.val);
      ghost var content := buf[|open|..];
      assert old(ec).None? && VarbindEncodable(vb) ==>
          content == Tlv(OBJECT_IDENTIFIER, OidContent(vb.name)) + EncodeValue(vb.val);
      assert buf == old(buf) + [SEQUENCE, 0] + content;
      CloseScope(s);
      assert buf == old(buf) + Tlv(SEQUENCE, content);
    }

    method VarbindList(vbs: seq<Varbind>)
      modifies this
      ensures Extended()
      ensures old(ec).None? && AllEncodable(vbs) ==> ec == None && buf == old(buf) + EncodeVarbindList(vbs)
      ensures old(ec).None? && !AllEncodable(vbs) ==> ec == Some(OidNotEncodable)
    {
      hide Tlv, EncodeVarbind, VarbindEncodable;
      var s := BeginConstructed(SEQUENCE);
      ghost var open := buf;
      var i := 0;
      while i < |vbs|
        invariant 0 <= i <= |vbs|
        invariant open <= buf
        invariant old(ec).Some? ==> ec == old(ec)
        invariant old(ec).None? && AllEncodable(vbs[..i]) ==> ec == None && buf == open + EncodeVarbinds(vbs[..i])
        invariant old(ec).None? && !AllEncodable(vbs[..i]) ==> ec == Some(OidNotEncodable)
      {
        WriteVarbind(vbs[i]);
        assert vbs[..i + 1] == vbs[..i] + [vbs[i]];
        if AllEncodable(vbs[..i]) && VarbindEncodable(vbs[i]) {
          EncodeVarbindsSnoc(vbs[..i], vbs[i]);
        } else if !AllEncodable(vbs[..i]) {
          var k :| 0 <= k < i && !VarbindEncodable(vbs[..i][k]);
          assert vbs[..i + 1][k] == vbs[..i][k];
        } else {
          assert vbs[..i + 1][i] == vbs[i];
        }
        i := i + 1;
      }
      assert vbs[..|vbs|] == vbs;
      ghost var content := buf[|open|..];
      CloseScope(s);
      assert buf == old(buf) + Tlv(SEQUENCE, content);
    }

    /**
     * Any tree of nested scopes comes out as its recursive definition, however many placeholders had to widen; a scope
     * opened under a primitive tag is an error, and the only one.
     */
    method WriteElement(e: Element)
      modifies this
      ensures ec == if old(ec).None? && !WellTagged(e) then Some(UnexpectedTag) else old(ec)
      ensures old(ec).None? && WellTagged(e) ==> buf == old(buf) + EncodeElement(e)
      ensures Extended()
      decreases e, 0
    {
      hide Tlv;
      match e
      case Primitive(t, content) => Elementary(t, content);
      case Constructed(t, children) =>
        var s := BeginConstructed(t);
        ghost var open := buf;
        WriteElements(children);
        ghost var content := buf[|open|..];
        CloseScope(s);
        assert buf == old(buf) + Tlv(t, content);
    }

    method WriteElements(es: seq<Element>)
      modifies this
      ensures ec == if old(ec).None? && !AllTagged(es) then Some(UnexpectedTag) else old(ec)
      ensures old(ec).None? && AllTagged(es) ==> buf == old(buf) + EncodeElements(es)
      ensures Extended()
      decreases es, 1
    {
      hide EncodeElement, WellTagged;
      if es != [] {
        WriteElement(es[0]);
        ghost var first, more := EncodeElement(es[0]), EncodeElements(es[1..]);
        WriteElements(es[1..]);
        assert old(buf) + first + more == old(buf) + (first + more);
      }
    }
  }

  lemma OneMore(front: octets, ds: octets, k: nat)
    requires k < |ds|
    ensures front + ds[..k] + [ds[k]] == front + ds[..k + 1]
  {
  }

  /** Patching one octet moves the boundary between new octets and old by one. */
  lemma Patched(buf: octets, at: nat, ds: octets, i: nat)
    requires i < |ds| && at + |ds| <= |buf|
    ensures (buf[..at] + ds[..i] + buf[at + i..])[at + i := ds[i]] == buf[..at] + ds[..i + 1] + buf[at + i + 1..]
  {
  }

  lemma Widened(buf: octets, pos: nat, room: octets, marker: byte)
    requires pos < |buf|
    ensures var wide := (buf[..pos + 1] + room + buf[pos + 1..])[pos := marker];
            && |wide| == |buf| + |room|
            && wide[..pos + 1] == buf[..pos] + [marker]
            && wide[pos + 1 + |room|..] == buf[pos + 1..]
  {
  }

  lemma Replaced(buf: octets, pos: nat, b: byte)
    requires pos < |buf|
    ensures buf[pos := b] == buf[..pos] + [b] + buf[pos + 1..]
  {
  }

  lemma OneBuffer(before: octets, marker: byte, ds: octets, content: octets)
    ensures before + [marker] + ds + content == before + ([marker] + ds) + content
  {
  }

  lemma Joined(before: octets, length: octets, content: octets)
    requires before != []
    ensures before + length + content == before[..|before| - 1] + ([before[|before| - 1]] + length + content)
  {
  }

  /** The four octets of a 32-bit integer, in two's complement. */
  function FourOctets(v: int32): (bs: octets)
    ensures |bs| == 4 && TwosComplement(bs) == v
  {
    var u := v % 0x1_0000_0000;
    FullWidth(v);
    [u / 0x100_0000 % 0x100, u / 0x1_0000 % 0x100, u / 0x100 % 0x100, u % 0x100]
  }

  /** Drops leading octets that only repeat the sign. */
  method StripSign(encoded: octets, v: int32) returns (first: nat)
    requires |encoded| == 4 && TwosComplement(encoded) == v
    ensures first < 4 && encoded[first..] == IntegerContent(v)
  {
    hide TwosComplement, IntegerContent;
    var pad := if v < 0 then 0xFF else 0x00;
    first := 0;
    assert encoded[0..] == encoded;
    while first + 1 < 4 && encoded[first] == pad && ((encoded[first + 1] >= 0x80) == (v < 0))
      invariant 0 <= first < 4
      invariant TwosComplement(encoded[first..]) == v
    {
      assert encoded[first..][1..] == encoded[first + 1..];
      BerIntegers.StripPadding(encoded[first..]);
      first := first + 1;
    }
    SignSeen(encoded[first..], v);
    BerIntegers.IntegerContentMeans(v);
    BerIntegers.MinimalUnique(encoded[first..], IntegerContent(v));
  }

  lemma FullWidth(v: int32)
    ensures var u := v % 0x1_0000_0000;
            TwosComplement([u / 0x100_0000 % 0x100, u / 0x1_0000 % 0x100, u / 0x100 % 0x100, u % 0x100]) == v
  {
    hide NumberOf, Pow, Times;
    var u := v % 0x1_0000_0000;
    assert u == if v < 0 then v + 0x1_0000_0000 else v;
    BerIntegers.Quotients(u);
    assert 0 <= u / 0x100_0000 < 0x100;
    var bs: octets := [u / 0x100_0000 % 0x100, u / 0x1_0000 % 0x100, u / 0x100 % 0x100, u % 0x100];
    BerIntegers.NumberOfFew(bs);
    assert NumberOf(bs, 0x100) == u;
    assert bs[0] >= 0x80 <==> v < 0;
    PowerTable();
  }

  lemma SignSeen(bs: octets, v: int)
    requires bs != [] && TwosComplement(bs) == v
    ensures bs[0] >= 0x80 <==> v < 0
  {
    NumberBound(bs, 0x100);
  }

  /** The eight octets of a 64-bit number, most significant first. */
  function EightOctets(v: uint64): (bs: octets)
    ensures |bs| == 8 && NumberOf(bs, 0x100) == v
  {
    OctetsOf(v, 8)
  }

  function OctetsOf(v: nat, k: nat): (bs: octets)
    requires v < Pow(0x100, k)
    ensures |bs| == k && NumberOf(bs, 0x100) == v
  {
    if k == 0 then [] else
      NextDigit(v / 0x100, Pow(0x100, k - 1), 0x100, v % 0x100);
      var upper := OctetsOf(v / 0x100, k - 1);
      NumberSnoc(upper, v % 0x100, 0x100);
      upper + [v % 0x100]
  }

  /** The content the loop stops at is the only one without a spare zero. */
  lemma UnsignedUnique(bs: octets, v: uint64)
    requires bs != [] && NumberOf(bs, 0x100) == v && bs[0] < 0x80
    requires |bs| >= 2 ==> bs[0] != 0 || bs[1] >= 0x80
    ensures bs == UnsignedContent(v)
  {
    hide Digits, NumberOf, Pow;
    if |bs| >= 2 && bs[0] == 0 {
      NumberHead(bs, 0x100);
      DigitsOfNumber(bs[1..], 0x100);
      assert bs == [0] + bs[1..];
    } else {
      DigitsOfNumber(bs, 0x100);
    }
  }
}
