/** OBJECT IDENTIFIER content: base-128 sub-identifiers, and the decoder that inverts them. */
module BerOids {
  import opened Octets
  import opened Errors
  import opened Oids
  import opened BerGrammar

  /** Folding groups into an accumulator, the way the decoder reads them. */
  function Accumulate(acc: nat, ds: seq<nat>): nat
    decreases |ds|
  {
    if ds == [] then acc else Accumulate(acc * 0x80 + ds[0], ds[1..])
  }

  lemma {:induction false} AccumulateSnoc(acc: nat, ds: seq<nat>, d: nat)
    ensures Accumulate(acc, ds + [d]) == Accumulate(acc, ds) * 0x80 + d
    decreases |ds|
  {
    if ds == [] {
      assert Accumulate(acc, [d]) == Accumulate(acc * 0x80 + d, [d][1..]);
    } else {
      assert (ds + [d])[1..] == ds[1..] + [d];
      AccumulateSnoc(acc * 0x80 + ds[0], ds[1..], d);
    }
  }

  lemma {:induction false} AccumulateIsNumber(ds: seq<nat>)
    ensures Accumulate(0, ds) == NumberOf(ds, 0x80)
  {
    if ds != [] {
      var n := |ds| - 1;
      AccumulateIsNumber(ds[..n]);
      AccumulateSnoc(0, ds[..n], ds[n]);
      assert ds == ds[..n] + [ds[n]];
    }
  }

  lemma {:induction false} AccumulateGrows(acc: nat, ds: seq<nat>)
    ensures Accumulate(acc, ds) >= acc
    decreases |ds|
  {
    if ds != [] { AccumulateGrows(acc * 0x80 + ds[0], ds[1..]); }
  }

  /** Reading a sub-identifier's octets gives its number, as long as that fits 32 bits. */
  lemma {:induction false} ScanGroups(acc: nat, ds: seq<nat>, rest: octets)
    requires |ds| >= 1 && forall i :: 0 <= i < |ds| ==> ds[i] < 0x80
    requires Accumulate(acc, ds) <= MAX_UINT32
    ensures ScanSubid(acc, Continued(ds) + rest) == Ok((Accumulate(acc, ds), rest))
    decreases |ds|
  {
    var bs, next := Continued(ds) + rest, acc * 0x80 + ds[0];
    AccumulateGrows(next, ds[1..]);
    if |ds| == 1 {
      assert bs[1..] == rest;
      assert Accumulate(acc, ds) == next;
    } else {
      assert bs[1..] == Continued(ds[1..]) + rest;
      ScanGroups(next, ds[1..], rest);
    }
  }

  lemma SubidParses(v: uint32, rest: octets)
    ensures ParseSubid(Subid(v) + rest) == Ok((v, rest))
  {
    var ds := Digits(v, 0x80);
    NumberOfDigits(v, 0x80);
    AccumulateIsNumber(ds);
    DigitsLead(v, 0x80);
    ScanGroups(0, ds, rest);
  }

  lemma ScanStep(acc: nat, bs: octets)
    requires ScanSubid(acc, bs).Ok?
    ensures bs != []
    ensures bs[0] < 0x80 ==> ScanSubid(acc, bs) == Ok((acc * 0x80 + bs[0], bs[1..]))
    ensures bs[0] >= 0x80 ==> ScanSubid(acc, bs) == ScanSubid(acc * 0x80 + bs[0] - 0x80, bs[1..])
  {
  }

  /** The groups the decoder took, which are the octets it consumed. */
  lemma {:induction false} GroupsScanned(acc: nat, bs: octets) returns (ds: seq<nat>)
    requires ScanSubid(acc, bs).Ok?
    ensures |ds| >= 1 && forall i :: 0 <= i < |ds| ==> ds[i] < 0x80
    ensures bs == Continued(ds) + ScanSubid(acc, bs).value.1
    ensures ScanSubid(acc, bs).value.0 == Accumulate(acc, ds)
    decreases |bs|
  {
    ScanStep(acc, bs);
    hide ScanSubid;
    assert bs == [bs[0]] + bs[1..];
    if bs[0] < 0x80 {
      ds := [bs[0]];
      assert ds[1..] == [];
    } else {
      var d, rest := bs[0] - 0x80, ScanSubid(acc, bs).value.1;
      var more := GroupsScanned(acc * 0x80 + d, bs[1..]);
      ds := [d] + more;
      assert ds[1..] == more;
      assert Continued(ds) == [bs[0]] + Continued(more);
      assert [bs[0]] + Continued(more) + rest == [bs[0]] + (Continued(more) + rest);
    }
  }

  lemma ParsedSubid(bs: octets)
    requires bs != [] && ParseSubid(bs).Ok?
    ensures bs == Subid(ParseSubid(bs).value.0) + ParseSubid(bs).value.1
  {
    var ds := GroupsScanned(0, bs);
    AccumulateIsNumber(ds);
    assert bs[0] == Continued(ds)[0];
    DigitsOfNumber(ds, 0x80);
  }

  lemma OneMoreSubid(o: Oid, head: octets, v: uint32, tail: octets)
    requires head + tail != [] && ParseSubid(head + tail) == Ok((v, tail)) && |o| < MAX_SUBIDS
    ensures DecodeSubids(o, head + tail) == DecodeSubids(o + [v], tail)
  {
  }

  lemma {:induction false} SubidsParse(o: Oid, more: Oid)
    requires |o| + |more| <= MAX_SUBIDS
    ensures DecodeSubids(o, Subids(more)) == Ok(o + more)
    decreases |more|
  {
    if more == [] {
      assert o + more == o;
    } else {
      var head, tail := Subid(more[0]), Subids(more[1..]);
      SubidParses(more[0], tail);
      OneMoreSubid(o, head, more[0], tail);
      assert Subids(more) == head + tail;
      SubidsParse(o + [more[0]], more[1..]);
      assert o + [more[0]] + more[1..] == o + more;
    }
  }

  lemma {:induction false} ParsedSubids(o: Oid, bs: octets)
    requires |o| <= MAX_SUBIDS && DecodeSubids(o, bs).Ok?
    ensures var r := DecodeSubids(o, bs).value;
            o <= r && |r| <= MAX_SUBIDS && Subids(r[|o|..]) == bs
    decreases |bs|
  {
    if bs != [] {
      var (v, rest) := ParseSubid(bs).value;
      ParsedSubid(bs);
      ParsedSubids(o + [v], rest);
      var r := DecodeSubids(o + [v], rest).value;
      assert r[|o|..] == [v] + r[|o| + 1..];
      assert o == (o + [v])[..|o|] == r[..|o|];
    }
  }

  lemma SplitFirstInverts(first: uint32, second: uint32)
    requires first <= 2
    requires first < 2 ==> second <= 39
    requires first == 2 ==> second <= MAX_UINT32 - 80
    ensures 40 * first as int + second as int <= MAX_UINT32
    ensures SplitFirst(40 * first as int + second as int) == [first, second]
  {
  }

  lemma EncodedDecodes(o: Oid)
    requires IsEncodable(o)
    ensures DecodeOid(OidContent(o)) == Ok(o)
  {
    SplitFirstInverts(o[0], o[1]);
    SubidParses(40 * o[0] as int + o[1] as int, Subids(o[2..]));
    SubidsParse([o[0], o[1]], o[2..]);
    assert [o[0], o[1]] + o[2..] == o;
  }

  lemma DecodedEncodes(content: octets)
    requires DecodeOid(content).Ok?
    ensures IsEncodable(DecodeOid(content).value)
    ensures OidContent(DecodeOid(content).value) == content
  {
    var (v, rest) := ParseSubid(content).value;
    var o := DecodeOid(content).value;
    ParsedSubid(content);
    ParsedSubids(SplitFirst(v), rest);
    assert o[0] == SplitFirst(v)[0] && o[1] == SplitFirst(v)[1];
  }

  /**
   * Decoding and encoding are inverse bijections between the octet strings the decoder accepts and the OIDs X.690 can
   * encode: nothing else is accepted, and re-encoding gives the identical octets.
   */
  lemma OidBijection(content: octets, o: Oid)
    ensures DecodeOid(content) == Ok(o) <==> IsEncodable(o) && OidContent(o) == content
  {
    if IsEncodable(o) { EncodedDecodes(o); }
    if DecodeOid(content).Ok? { DecodedEncodes(content); }
  }

  /** Octets a sub-identifier takes. */
  method SubidSize(v: nat) returns (n: nat)
    ensures n == |Subid(v)|
  {
    n := 1;
    var w := v;
    while w >= 0x80
      invariant |Digits(v, 0x80)| == n - 1 + |Digits(w, 0x80)|
      decreases w
    {
      w := w / 0x80;
      n := n + 1;
    }
  }

  /** Octets of OID content. */
  method OidContentSize(o: Oid) returns (n: nat)
    requires IsEncodable(o)
    ensures n == |OidContent(o)|
  {
    n := SubidSize(40 * o[0] as int + o[1] as int);
    var i := 2;
    while i < |o|
      invariant 2 <= i <= |o|
      invariant |OidContent(o)| == n + |Subids(o[i..])|
    {
      var more := SubidSize(o[i]);
      assert o[i..][1..] == o[i + 1..];
      n := n + more;
      i := i + 1;
    }
  }

  /** Octets of a definite length. */
  method LengthSize(n: nat) returns (size: nat)
    ensures size == |LengthOctets(n)|
  {
    if n < 0x80 { return 1; }
    var significant, v := 0, n;
    while v != 0
      invariant v != 0 ==> |Digits(n, 0x100)| == significant + |Digits(v, 0x100)|
      invariant v == 0 ==> |Digits(n, 0x100)| == significant
      decreases v
    {
      significant := significant + 1;
      v := v / 0x100;
    }
    return 1 + significant;
  }

  /** The size of a whole OBJECT IDENTIFIER element, or zero for an OID that has none. */
  method EncodedOidSize(o: Oid) returns (n: nat)
    ensures !IsEncodable(o) ==> n == 0
    ensures IsEncodable(o) ==> n == |Tlv(OBJECT_IDENTIFIER, OidContent(o))|
  {
    if !IsEncodable(o) { return 0; }
    var content := OidContentSize(o);
    var length := LengthSize(content);
    return 1 + length + content;
  }

  /** One sub-identifier read from `start`, in the decoder's 64-bit accumulator. */
  method ReadSubid(content: octets, start: nat) returns (r: Result<uint32>, i: nat)
    requires start < |content|
    ensures start <= i <= |content|
    ensures match ParseSubid(content[start..])
            case Ok((v, rest)) => r == Ok(v) && i > start && rest == content[i..]
            case Err(e) => r == Err(e)
  {
    i := start;
    if content[i] % 0x80 == 0 && content[i] / 0x80 != 0 { return Err(OidNonMinimal), i; }
    var subid: uint64 := 0;
    while i < |content|
      invariant start <= i <= |content|
      invariant subid <= MAX_UINT32
      invariant ScanSubid(0, content[start..]) == ScanSubid(subid, content[i..])
    {
      var b := content[i];
      assert content[i..][1..] == content[i + 1..];
      i := i + 1;
      subid := subid * 0x80 + b % 0x80;
      if subid > MAX_UINT32 { return Err(OidSubidOverflow), i; }
      if b / 0x80 == 0 { return Ok(subid), i; }
    }
    return Err(OidTruncatedSubid), i;
  }

  /** The decoder as it runs, over one index into the content. */
  method DecodeOidContent(content: octets) returns (r: Result<Oid>)
    ensures r == DecodeOid(content)
  {
    if content == [] { return Err(OidEmpty); }
    var result: Oid := [];
    var i, firstSubid := 0, true;
    while i < |content|
      invariant 0 <= i <= |content|
      invariant firstSubid ==> i == 0 && result == []
      invariant !firstSubid ==> DecodeOid(content) == DecodeSubids(result, content[i..])
      invariant |result| <= MAX_SUBIDS
    {
      assert content[0..] == content;
      var parsed, next := ReadSubid(content, i);
      if parsed.Err? { return Err(parsed.error); }
      var subid := parsed.value;
      if firstSubid {
        firstSubid := false;
        if subid < 40 {
          result := result + [0, subid];
        } else if subid < 80 {
          result := result + [1, subid - 40];
        } else {
          result := result + [2, subid - 80];
        }
        assert result == SplitFirst(subid);
      } else {
        result := result + [subid];
      }
      i := next;
      if |result| > MAX_SUBIDS { return Err(OidTooLong); }
    }
    assert content[i..] == [];
    return Ok(result);
  }
}
