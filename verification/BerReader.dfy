/**
 * The Reader: a cursor bounded by the innermost element it is inside, with scopes that restore the outer bound and an
 * error that sticks. Every method is proved to read exactly what the grammar's parser reads from the octets between
 * the cursor and the bound.
 */
module BerReader {
  import opened Octets
  import opened Errors
  import opened Oids
  import opened BerGrammar
  import BerIntegers
  import BerOids

  /** What closing a scope restores. */
  datatype Scope = Scope(savedEnd: nat, contentEnd: nat)

  /** Where the Varbinds read so far leave the rest of the list. */
  ghost predicate Continues(all: Result<seq<Varbind>>, out: seq<Varbind>, rest: Result<seq<Varbind>>) {
    match rest
    case Ok(more) => all == Ok(out + more)
    case Err(e) => all == Err(e)
  }

  lemma ContinuesFromStart(all: Result<seq<Varbind>>)
    ensures Continues(all, [], all)
  {
    if all.Ok? { assert [] + all.value == all.value; }
  }

  lemma ContinuesAfterOne(all: Result<seq<Varbind>>, out: seq<Varbind>, w: octets)
    requires w != [] && Continues(all, out, ParseVarbinds(w))
    ensures match ParseVarbind(w)
            case Ok((vb, rest)) => Continues(all, out + [vb], ParseVarbinds(rest))
            case Err(e) => all == Err(e)
  {
    hide ParseVarbind;
    if ParseVarbind(w).Ok? {
      var (vb, rest) := ParseVarbind(w).value;
      if ParseVarbinds(rest).Ok? {
        var more := ParseVarbinds(rest).value;
        assert out + ([vb] + more) == out + [vb] + more;
      }
    }
  }

  lemma ContinuesToEnd(all: Result<seq<Varbind>>, out: seq<Varbind>)
    requires Continues(all, out, ParseVarbinds([]))
    ensures all == Ok(out)
  {
    assert out + [] == out;
  }

  lemma SliceOfSlice(buf: octets, a: nat, b: nat, i: nat, j: nat)
    requires a <= b <= |buf| && i <= j <= b - a
    ensures buf[a..b][i..j] == buf[a + i..a + j]
  {
    var w, l, r := buf[a..b], buf[a..b][i..j], buf[a + i..a + j];
    assert |l| == |r|;
    forall k | 0 <= k < |l| ensures l[k] == r[k] { assert l[k] == w[i + k] == buf[a + i + k]; }
  }

  lemma RestOfSlice(buf: octets, a: nat, b: nat, i: nat)
    requires a <= b <= |buf| && i <= b - a
    ensures buf[a..b][i..] == buf[a + i..b]
  {
    var w := buf[a..b];
    SliceOfSlice(buf, a, b, i, |w|);
    assert w[i..] == w[i..|w|];
  }

  class Reader {
    const buf: octets
    var pos: nat
    var end: nat
    var ec: Option<Errc>

    ghost predicate Valid()
      reads this
    {
      pos <= end <= |buf|
    }

    /** The octets still ahead in the innermost element. */
    ghost function Window(): octets
      requires Valid()
      reads this
    {
      buf[pos..end]
    }

    constructor (input: octets)
      ensures buf == input && Valid() && pos == 0 && end == |input| && ec == None
      ensures Window() == input
    {
      buf, pos, end, ec := input, 0, |input|, None;
    }

    /** A read that follows a parser: its value and leftovers, its first error, and nothing at all after an error. */
    twostate predicate Follows<T>(new r: Option<T>, new p: Result<(T, octets)>)
      reads this
    {
      && Valid() && end == old(end) && pos >= old(pos)
      && if old(ec).Some? then r == None && ec == old(ec) && pos == old(pos)
         else match p
              case Ok((v, rest)) => r == Some(v) && ec == None && Window() == rest
              case Err(e) => r == None && ec == Some(e)
    }

    method Fail(e: Errc)
      requires Valid()
      modifies this
      ensures Valid() && pos == end == old(end)
      ensures ec == if old(ec).Some? then old(ec) else Some(e)
    {
      if ec.None? { ec := Some(e); }
      pos := end;
    }

    method PeekTag() returns (t: Option<Tag>)
      requires Valid()
      ensures t == if ec.Some? || Window() == [] then None else Some(Window()[0])
    {
      if ec.Some? || pos >= end { return None; }
      return Some(buf[pos]);
    }

    method Finish() returns (done: bool)
      requires Valid()
      modifies this
      ensures Valid() && end == old(end)
      ensures done <==> old(ec).None? && old(Window()) == []
      ensures ec == if old(ec).None? && old(Window()) != [] then Some(TrailingData) else old(ec)
      ensures done ==> pos == end
    {
      if ec.Some? { return false; }
      if pos != end {
        Fail(TrailingData);
        return false;
      }
      return true;
    }

    /** The length after a long-form count, accumulated octet by octet. */
    method ReadLength(count: nat) returns (length: nat)
      requires Valid() && count <= end - pos
      modifies this`pos
      ensures Valid() && pos == old(pos) + count
      ensures length == NumberOf(buf[old(pos)..pos], 0x100)
    {
      hide NumberOf;
      length := 0;
      var start, i := pos, 0;
      assert buf[start..start] == [];
      Nothing();
      while i < count
        invariant 0 <= i <= count && pos == start + i && Valid()
        invariant length == NumberOf(buf[start..pos], 0x100)
      {
        NumberAppend(buf, start, pos);
        length := length * 0x100 + buf[pos];
        pos := pos + 1;
        i := i + 1;
      }
    }

    method ReadHeader() returns (h: Option<Header>)
      requires Valid()
      modifies this
      ensures Follows(h, ParseHeader(old(Window())))
      ensures h.Some? ==> h.value.length <= end - pos
      ensures h.None? ==> old(ec).Some? || pos == end
    {
      hide NumberOf;
      if ec.Some? { return None; }
      ghost var w, p0 := Window(), pos;
      if end - pos < 2 {
        Fail(Truncated);
        return None;
      }
      var t := buf[pos];
      pos := pos + 1;
      if t % 0x20 == 0x1F {
        Fail(HighTagNumber);
        return None;
      }
      var first := buf[pos];
      pos := pos + 1;
      RestOfSlice(buf, p0, end, 2);
      var length: nat := 0;
      if first < 0x80 {
        length := first;
      } else if first == 0x80 {
        Fail(IndefiniteLength);
        return None;
      } else if first == 0xFF {
        Fail(ReservedLength);
        return None;
      } else {
        var count := first - 0x80;
        if count > 4 {
          Fail(LengthTooLarge);
          return None;
        }
        if end - pos < count {
          Fail(Truncated);
          return None;
        }
        length := ReadLength(count);
        SliceOfSlice(buf, p0, end, 2, 2 + count);
        RestOfSlice(buf, p0, end, 2 + count);
      }
      if length > end - pos {
        Fail(Truncated);
        return None;
      }
      return Some(Header(t, length));
    }

    /** Clamps the Reader to the content of a constructed element. */
    method Enter(expected: Tag) returns (s: Scope)
      requires Valid()
      modifies this
      ensures Valid() && s.savedEnd == old(end) && old(pos) <= pos <= s.contentEnd <= s.savedEnd && end <= s.savedEnd
      ensures old(ec).Some? ==> ec == old(ec) && s.contentEnd == pos == old(pos) && end == old(end)
      ensures old(ec).None? ==>
                match ParseConstructed(expected, old(Window()))
                case Ok((content, rest)) =>
                  ec == None && Window() == content && s.contentEnd == end && buf[end..s.savedEnd] == rest
                case Err(e) => ec == Some(e)
    {
      hide ParseHeader;
      var savedEnd := end;
      if ec.Some? { return Scope(savedEnd, pos); }
      if expected / 0x20 % 2 != 1 {
        Fail(UnexpectedTag);
        return Scope(savedEnd, pos);
      }
      var tagHere := PeekTag();
      if tagHere != Some(expected) {
        Fail(UnexpectedTag);
        return Scope(savedEnd, pos);
      }
      var h := ReadHeader();
      if h.None? { return Scope(savedEnd, pos); }
      ghost var rest := Window();
      var contentEnd := pos + h.value.length;
      end := contentEnd;
      assert Window() == rest[..h.value.length] && buf[end..savedEnd] == rest[h.value.length..];
      return Scope(savedEnd, contentEnd);
    }

    /** Leaves a scope: leftover content is an error, and the outer bound is back. */
    method CloseScope(s: Scope)
      requires Valid() && s.contentEnd <= s.savedEnd <= |buf|
      modifies this
      ensures Valid() && pos == s.contentEnd && end == s.savedEnd
      ensures ec == if old(ec).None? && old(pos) != s.contentEnd then Some(TrailingData) else old(ec)
    {
      if ec.None? && pos != s.contentEnd { Fail(TrailingData); }
      end := s.savedEnd;
      pos := s.contentEnd;
    }

    method PrimitiveContent(expected: Tag) returns (r: Option<octets>)
      requires Valid()
      modifies this
      ensures Follows(r, ParsePrimitive(expected, old(Window())))
      ensures r.Some? ==> |r.value| <= pos && buf[pos - |r.value|..pos] == r.value && pos - |r.value| >= old(pos)
    {
      hide ParseHeader;
      if ec.Some? { return None; }
      var tagHere := PeekTag();
      if tagHere.None? {
        Fail(Truncated);
        return None;
      }
      if tagHere.value != expected || expected / 0x20 % 2 == 1 {
        Fail(UnexpectedTag);
        return None;
      }
      var h := ReadHeader();
      if h.None? { return None; }
      ghost var rest := Window();
      var content := buf[pos..pos + h.value.length];
      pos := pos + h.value.length;
      assert content == rest[..h.value.length] && Window() == rest[h.value.length..];
      return Some(content);
    }

    /** Sign padding dropped, then at most four octets shifted into a 32-bit accumulator. */
    method Integer() returns (r: Option<int32>)
      requires Valid()
      modifies this
      ensures Follows(r, ParseInteger(old(Window())))
    {
      hide ParsePrimitive, DecodeInteger;
      var content := PrimitiveContent(INTEGER);
      if content.None? { return None; }
      var v := IntegerValue(content.value);
      if v.Err? {
        Fail(v.error);
        return None;
      }
      return Some(v.value);
    }

    /** Leading zeros dropped, then at most eight octets shifted into a 64-bit accumulator. */
    method Unsigned(expected: Tag, maxSignificant: nat) returns (r: Option<uint64>)
      requires Valid() && maxSignificant <= 8
      modifies this
      ensures maxSignificant == 4 ==> r.Some? ==> r.value <= MAX_UINT32
      ensures maxSignificant == 4 ==> Follows(r, ParseUnsigned32(expected, old(Window())))
      ensures maxSignificant == 8 ==> Follows(r, ParseUnsigned64(expected, old(Window())))
    {
      PowerTable();
      hide ParsePrimitive, DecodeUnsigned, Pow;
      var content := PrimitiveContent(expected);
      if content.None? { return None; }
      var v := UnsignedValue(content.value, maxSignificant);
      if v.Err? {
        Fail(v.error);
        return None;
      }
      return Some(v.value);
    }

    method OctetString() returns (r: Option<octets>)
      requires Valid()
      modifies this
      ensures Follows(r, ParseOctets(old(Window())))
      ensures r.Some? ==> |r.value| <= pos && buf[pos - |r.value|..pos] == r.value && pos - |r.value| >= old(pos)
    {
      r := PrimitiveContent(OCTET_STRING);
    }

    method ObjectIdentifier() returns (r: Option<Oid>)
      requires Valid()
      modifies this
      ensures Follows(r, ParseOid(old(Window())))
    {
      hide ParsePrimitive, DecodeOid;
      var content := PrimitiveContent(OBJECT_IDENTIFIER);
      if content.None? { return None; }
      var o := BerOids.DecodeOidContent(content.value);
      if o.Err? {
        Fail(o.error);
        return None;
      }
      return Some(o.value);
    }

    method Empty(t: Tag, v: Value, e: Errc) returns (r: Option<Value>)
      requires Valid()
      modifies this
      ensures Follows(r, ParseEmpty(t, v, e, old(Window())))
    {
      hide ParsePrimitive;
      var content := PrimitiveContent(t);
      if content.None? { return None; }
      if content.value != [] {
        Fail(e);
        return None;
      }
      return Some(v);
    }

    method AnyValue() returns (r: Option<Value>)
      requires Valid()
      modifies this
      ensures Follows(r, ParseValue(old(Window())))
    {
      hide ParsePrimitive, ParseInteger, ParseOctets, ParseOid, ParseUnsigned32, ParseUnsigned64, ParseEmpty;
      if ec.Some? { return None; }
      var t := PeekTag();
      if t.None? {
        Fail(Truncated);
        return None;
      }
      if t.value == NULL {
        r := Empty(NULL, Null, BadNull);
      } else if t.value == INTEGER {
        var v := Integer();
        r := if v.None? then None else Some(Value.Integer(v.value));
      } else if t.value == OCTET_STRING {
        var v := OctetString();
        r := if v.None? then None else Some(Value.OctetString(v.value));
      } else if t.value == OBJECT_IDENTIFIER {
        var v := ObjectIdentifier();
        r := if v.None? then None else Some(ObjectId(v.value));
      } else if t.value == IP_ADDRESS {
        var v := PrimitiveContent(IP_ADDRESS);
        if v.None? { return None; }
        if |v.value| != 4 {
          Fail(BadIpAddress);
          return None;
        }
        r := Some(IpAddress(v.value));
      } else if t.value == COUNTER32 {
        var v := Unsigned(COUNTER32, 4);
        r := if v.None? then None else Some(Counter32(v.value));
      } else if t.value == GAUGE32 {
        var v := Unsigned(GAUGE32, 4);
        r := if v.None? then None else Some(Gauge32(v.value));
      } else if t.value == TIMETICKS {
        var v := Unsigned(TIMETICKS, 4);
        r := if v.None? then None else Some(TimeTicks(v.value));
      } else if t.value == COUNTER64 {
        var v := Unsigned(COUNTER64, 8);
        r := if v.None? then None else Some(Counter64(v.value));
      } else if t.value == OPAQUE {
        var v := PrimitiveContent(OPAQUE);
        r := if v.None? then None else Some(Opaque(v.value));
      } else if t.value == NO_SUCH_OBJECT {
        r := Empty(NO_SUCH_OBJECT, NoSuchObject, TrailingData);
      } else if t.value == NO_SUCH_INSTANCE {
        r := Empty(NO_SUCH_INSTANCE, NoSuchInstance, TrailingData);
      } else if t.value == END_OF_MIB_VIEW {
        r := Empty(END_OF_MIB_VIEW, EndOfMibView, TrailingData);
      } else {
        Fail(UnknownValueTag);
        r := None;
      }
    }

    method ReadVarbind() returns (r: Option<Varbind>)
      requires Valid()
      modifies this
      ensures Follows(r, ParseVarbind(old(Window())))
    {
      hide ParseConstructed, ParseOid, ParseValue;
      if ec.Some? { return None; }
      var s := Enter(SEQUENCE);
      var name := ObjectIdentifier();
      if name.None? {
        CloseScope(s);
        return None;
      }
      var val := AnyValue();
      if val.None? {
        CloseScope(s);
        return None;
      }
      assert Window() == [] <==> pos == s.contentEnd;
      CloseScope(s);
      if ec.Some? { return None; }
      return Some(Varbind(name.value, val.value));
    }

    /** A SEQUENCE OF Varbinds, read until its content is used up. */
    method VarbindList() returns (r: Option<seq<Varbind>>)
      requires Valid()
      modifies this
      ensures Follows(r, ParseVarbindList(old(Window())))
    {
      hide ParseConstructed, ParseVarbind, ParseVarbinds, Continues;
      if ec.Some? { return None; }
      var s := Enter(SEQUENCE);
      ghost var content := Window();
      ghost var entered := ec;
      var out: seq<Varbind> := [];
      ghost var all := ParseVarbinds(content);
      ContinuesFromStart(all);
      while ec.None? && pos < end
        invariant Valid() && end <= s.savedEnd && ec == entered
        invariant entered.None? ==> end == s.contentEnd
        invariant entered.None? ==> Continues(all, out, ParseVarbinds(Window()))
        invariant old(pos) <= pos <= s.contentEnd
        decreases end - pos
      {
        ContinuesAfterOne(all, out, Window());
        var vb := ReadVarbind();
        if vb.None? {
          CloseScope(s);
          return None;
        }
        out := out + [vb.value];
      }
      if entered.None? {
        assert Window() == [];
        ContinuesToEnd(all, out);
      }
      CloseScope(s);
      if ec.Some? { return None; }
      return Some(out);
    }
  }

  /** The loop that drops sign padding, and the 32-bit shift register after it. */
  method IntegerValue(content: octets) returns (r: Result<int32>)
    ensures r == DecodeInteger(content)
  {
    hide TwosComplement;
    if content == [] { return Err(EmptyContent); }
    var i, n := 0, |content|;
    var negative := content[0] >= 0x80;
    var pad := if negative then 0xFF else 0x00;
    assert content[0..] == content;
    while i + 1 < n && content[i] == pad && (content[i + 1] >= 0x80) == negative
      invariant 0 <= i < n
      invariant content[i] >= 0x80 <==> negative
      invariant TwosComplement(content[i..]) == TwosComplement(content)
    {
      assert content[i..][1..] == content[i + 1..];
      BerIntegers.StripPadding(content[i..]);
      i := i + 1;
    }
    BerIntegers.MinimalWidth(content[i..]);
    if n - i > 4 { return Err(IntegerTooLarge); }
    var magnitude := ShiftIn(content[i..], negative);
    var v: int := magnitude;
    if v >= 0x8000_0000 { v := v - 0x1_0000_0000; }
    return Ok(v);
  }

  /** Octets shifted into a 32-bit register that starts as the sign: what the register holds, as unsigned. */
  method ShiftIn(bs: octets, negative: bool) returns (magnitude: uint32)
    requires 1 <= |bs| <= 4 && (bs[0] >= 0x80 <==> negative)
    ensures magnitude == TwosComplement(bs) % 0x1_0000_0000
  {
    hide NumberOf, Pow, Times;
    magnitude := if negative then 0xFFFF_FFFF else 0;
    var i := 0;
    assert bs[..0] == [];
    Nothing();
    NoPower();
    while i < |bs|
      invariant 0 <= i <= |bs|
      invariant magnitude == Signed(NumberOf(bs[..i], 0x100), Pow(0x100, i), negative) % 0x1_0000_0000
    {
      BerIntegers.Append(bs, i);
      PowNext(i);
      ByteScale(NumberOf(bs[..i], 0x100));
      ShiftRegister(Signed(NumberOf(bs[..i], 0x100), Pow(0x100, i), negative), bs[i]);
      magnitude := (magnitude * 0x100 + bs[i]) % 0x1_0000_0000;
      i := i + 1;
    }
    assert bs[..|bs|] == bs;
  }

  function Signed(v: nat, p: nat, negative: bool): int {
    if negative then v - p else v
  }

  lemma ByteScale(v: nat)
    ensures Times(v, 0x100) == v * 0x100
  {
  }

  /** Truncating to 32 bits before or after a shift is the same. */
  lemma ShiftRegister(x: int, b: byte)
    ensures (x * 0x100 + b) % 0x1_0000_0000 == (x % 0x1_0000_0000 * 0x100 + b) % 0x1_0000_0000
  {
    var q, r := x / 0x1_0000_0000, x % 0x1_0000_0000;
    assert x == q * 0x1_0000_0000 + r;
    Multiple(q * 0x100, r * 0x100 + b);
  }

  lemma Multiple(k: int, y: nat)
    ensures (k * 0x1_0000_0000 + y) % 0x1_0000_0000 == y % 0x1_0000_0000
  {
  }

  lemma NumberAppend(buf: octets, start: nat, i: nat)
    requires start <= i < |buf|
    ensures NumberOf(buf[start..i + 1], 0x100) == NumberOf(buf[start..i], 0x100) * 0x100 + buf[i]
  {
    NumberSnoc(buf[start..i], buf[i], 0x100);
    hide NumberOf;
    assert buf[start..i + 1] == buf[start..i] + [buf[i]];
  }

  /** The loop that drops leading zeros, and the 64-bit accumulator after it. */
  method UnsignedValue(content: octets, maxSignificant: nat) returns (r: Result<uint64>)
    requires maxSignificant <= 8
    ensures r == DecodeUnsigned(content, maxSignificant)
  {
    hide NumberOf, Pow;
    if content == [] { return Err(EmptyContent); }
    var i := 0;
    assert content[0..] == content;
    while i < |content| && content[i] == 0
      invariant 0 <= i <= |content|
      invariant NumberOf(content[i..], 0x100) == NumberOf(content, 0x100)
    {
      assert content[i..] == [0] + content[i + 1..];
      BerIntegers.LeadingZero(content[i + 1..]);
      i := i + 1;
    }
    SignificantWidth(content[i..], maxSignificant);
    if |content| - i > maxSignificant { return Err(IntegerTooLarge); }
    ghost var start := i;
    var v: nat := 0;
    assert content[start..start] == [];
    Nothing();
    while i < |content|
      invariant start <= i <= |content|
      invariant v == NumberOf(content[start..i], 0x100)
    {
      NumberAppend(content, start, i);
      v := v * 0x100 + content[i];
      i := i + 1;
    }
    assert content[start..i] == content[start..];
    EightAtMost(content[start..], maxSignificant);
    return Ok(v);
  }

  /** Octets without a leading zero fit `k` octets exactly when there are at most `k` of them. */
  lemma SignificantWidth(bs: octets, k: nat)
    requires bs == [] || bs[0] != 0
    ensures |bs| <= k <==> NumberOf(bs, 0x100) < Pow(0x100, k)
  {
    hide NumberOf, Digits, Pow;
    if bs == [] {
      Nothing();
    } else {
      DigitsOfNumber(bs, 0x100);
      if k == 0 {
        NumberPositive(bs, 0x100);
        NoPower();
      } else {
        DigitsLength(NumberOf(bs, 0x100), 0x100, k);
      }
    }
  }

  lemma Nothing()
    ensures NumberOf([], 0x100) == 0
  {
  }

  lemma NoPower()
    ensures Pow(0x100, 0) == 1
  {
  }

  lemma EightAtMost(bs: octets, k: nat)
    requires |bs| <= k <= 8
    ensures NumberOf(bs, 0x100) < 0x1_0000_0000_0000_0000
  {
    PowerTable();
    hide NumberOf, Pow;
    NumberBound(bs, 0x100);
    PowMonotone(|bs|, 8);
  }

  lemma {:induction false} PowMonotone(a: nat, b: nat)
    requires a <= b
    ensures Pow(0x100, a) <= Pow(0x100, b)
    decreases b - a
  {
    if a < b { PowMonotone(a, b - 1); }
  }
}
