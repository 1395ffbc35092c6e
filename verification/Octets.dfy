/** Octet strings, fixed-width integers and positional notation. */
module Octets {
  type byte = b: int | 0 <= b < 0x100
  type octets = seq<byte>
  type int32 = x: int | -0x8000_0000 <= x < 0x8000_0000
  type uint32 = x: int | 0 <= x < 0x1_0000_0000
  type uint64 = x: int | 0 <= x < 0x1_0000_0000_0000_0000

  const MAX_INT32: int32 := 0x7FFF_FFFF
  const MAX_UINT32: uint32 := 0xFFFF_FFFF

  datatype Option<+T> = None | Some(value: T)

  //
  // Arithmetic, under names so that a proof can do without its laws
  //

  function Times(a: nat, b: nat): nat {
    a * b
  }

  function Quotient(n: nat, d: nat): nat
    requires d >= 1
  {
    n / d
  }

  function Remainder(n: nat, d: nat): nat
    requires d >= 1
  {
    n % d
  }

  lemma TimesMonotone(a: nat, b: nat, c: nat)
    requires a <= b
    ensures Times(a, c) <= Times(b, c)
  {
  }

  lemma TimesAdd(a: nat, b: nat, c: nat)
    ensures Times(a + b, c) == Times(a, c) + Times(b, c)
  {
  }

  lemma TimesSwap(a: nat, b: nat, c: nat)
    ensures Times(Times(a, b), c) == Times(a, Times(c, b))
  {
    assert a * b * c == a * (c * b);
  }

  lemma Division(n: nat, d: nat)
    requires d >= 1
    ensures n == Times(Quotient(n, d), d) + Remainder(n, d)
    ensures Remainder(n, d) < d
    ensures 2 <= d <= n ==> 1 <= Quotient(n, d) < n
  {
    assert n == n / d * d + n % d;
    if 2 <= d <= n { QuotientShrinks(n / d, d, n % d); }
  }

  lemma QuotientShrinks(q: nat, d: nat, r: nat)
    requires 2 <= d <= q * d + r && r < d
    ensures 1 <= q < q * d + r
  {
    if q >= 1 {
      TimesMonotone(2, d, q);
      TimesCommutes(d, q);
    }
  }

  lemma DivisionUnique(q: nat, d: nat, r: nat)
    requires r < d
    ensures Quotient(Times(q, d) + r, d) == q && Remainder(Times(q, d) + r, d) == r
  {
    var n := q * d + r;
    var e := n / d - q;
    assert n == (n / d) * d + n % d;
    assert e * d == (n / d) * d - q * d;
    assert e >= 1 ==> e * d >= d;
    assert e <= -1 ==> e * d <= 0 - d;
  }

  /** Appending one digit scales the bound by the base. */
  lemma NextDigit(v: nat, p: nat, base: nat, d: nat)
    requires d < base
    ensures v < p <==> Times(v, base) + d < Times(p, base)
  {
    hide Times;
    if v < p {
      TimesMonotone(v + 1, p, base);
      TimesAdd(v, 1, base);
      TimesOne(base);
    } else {
      TimesMonotone(p, v, base);
    }
  }

  lemma TimesOne(a: nat)
    ensures Times(1, a) == a && Times(a, 1) == a && Times(0, a) == 0
  {
  }

  lemma TwoQuotients(n: nat, a: nat, b: nat)
    requires a >= 1 && b >= 1 && Times(b, a) >= 1
    ensures Quotient(Quotient(n, a), b) == Quotient(n, Times(b, a))
  {
    hide Times, Quotient, Remainder;
    var m := Quotient(n, a);
    var q, r, s := Quotient(m, b), Remainder(m, b), Remainder(n, a);
    Division(n, a);
    Division(m, b);
    NextDigit(r, b, a, s);
    TimesAdd(Times(q, b), r, a);
    TimesSwap(q, b, a);
    TimesCommutes(a, b);
    DivisionUnique(q, Times(b, a), Times(r, a) + s);
  }

  lemma TimesCommutes(a: nat, b: nat)
    ensures Times(a, b) == Times(b, a)
  {
  }

  //
  // Positional notation
  //

  /** `base` to the power `n`. */
  function Pow(base: nat, n: nat): (r: nat)
    requires base >= 2
    ensures r >= 1
  {
    if n == 0 then 1 else
      var p := Pow(base, n - 1);
      TimesMonotone(1, p, base);
      Times(p, base)
  }

  /** The digits of `n`, most significant first, with no leading zero: zero is the single digit 0. */
  function Digits(n: nat, base: nat): (ds: seq<nat>)
    requires base >= 2
    ensures |ds| >= 1
    ensures forall i :: 0 <= i < |ds| ==> ds[i] < base
    decreases n
  {
    if n < base then [n] else
      Division(n, base);
      Digits(Quotient(n, base), base) + [Remainder(n, base)]
  }

  /** The number a digit string stands for. */
  function NumberOf(ds: seq<nat>, base: nat): nat
    requires base >= 2
  {
    if ds == [] then 0 else Times(NumberOf(ds[..|ds| - 1], base), base) + ds[|ds| - 1]
  }

  lemma NumberSnoc(ds: seq<nat>, d: nat, base: nat)
    requires base >= 2
    ensures NumberOf(ds + [d], base) == Times(NumberOf(ds, base), base) + d
  {
    hide Times;
    assert (ds + [d])[..|ds|] == ds;
  }

  lemma DigitsStep(q: nat, base: nat, r: nat)
    requires base >= 2 && q >= 1 && r < base
    ensures Digits(Times(q, base) + r, base) == Digits(q, base) + [r]
  {
    hide Times, Quotient, Remainder;
    DivisionUnique(q, base, r);
    TimesMonotone(1, q, base);
    TimesOne(base);
  }

  /** Reading the digits of `n` back gives `n`. */
  lemma {:induction false} NumberOfDigits(n: nat, base: nat)
    requires base >= 2
    ensures NumberOf(Digits(n, base), base) == n
  {
    hide Times, Quotient, Remainder;
    if n < base {
      NumberSnoc([], n, base);
      TimesOne(base);
      assert [] + [n] == [n];
    } else {
      Division(n, base);
      NumberOfDigits(Quotient(n, base), base);
      NumberSnoc(Digits(Quotient(n, base), base), Remainder(n, base), base);
    }
  }

  /** A digit string without a leading zero is the digits of the number it stands for. */
  lemma {:induction false} DigitsOfNumber(ds: seq<nat>, base: nat)
    requires base >= 2
    requires |ds| >= 1 && (|ds| == 1 || ds[0] != 0)
    requires forall i :: 0 <= i < |ds| ==> ds[i] < base
    ensures Digits(NumberOf(ds, base), base) == ds
  {
    hide Times, Quotient, Remainder;
    var init, d := ds[..|ds| - 1], ds[|ds| - 1];
    assert ds == init + [d];
    NumberSnoc(init, d, base);
    if |ds| == 1 {
      TimesOne(base);
    } else {
      DigitsOfNumber(init, base);
      NumberPositive(init, base);
      DigitsStep(NumberOf(init, base), base, d);
    }
  }

  lemma {:induction false} NumberPositive(ds: seq<nat>, base: nat)
    requires base >= 2 && |ds| >= 1 && ds[0] != 0
    ensures NumberOf(ds, base) >= 1
  {
    hide Times;
    if |ds| > 1 {
      NumberPositive(ds[..|ds| - 1], base);
      TimesMonotone(1, NumberOf(ds[..|ds| - 1], base), base);
      TimesOne(base);
    }
  }

  /** A string of `k` digits stands for less than `base` to the `k`. */
  lemma {:induction false} NumberBound(ds: seq<nat>, base: nat)
    requires base >= 2
    requires forall i :: 0 <= i < |ds| ==> ds[i] < base
    ensures NumberOf(ds, base) < Pow(base, |ds|)
  {
    hide Times;
    if ds != [] {
      var init := ds[..|ds| - 1];
      NumberBound(init, base);
      NextDigit(NumberOf(init, base), Pow(base, |ds| - 1), base, ds[|ds| - 1]);
    }
  }

  /** A number is short exactly when it is small. */
  lemma {:induction false} DigitsLength(n: nat, base: nat, k: nat)
    requires base >= 2 && k >= 1
    ensures |Digits(n, base)| <= k <==> n < Pow(base, k)
  {
    hide Times, Quotient, Remainder;
    if n < base {
      PowGrows(base, k);
    } else {
      Division(n, base);
      var q := Quotient(n, base);
      if k > 1 { DigitsLength(q, base, k - 1); }
      NextDigit(q, Pow(base, k - 1), base, Remainder(n, base));
    }
  }

  lemma {:induction false} PowGrows(base: nat, k: nat)
    requires base >= 2 && k >= 1
    ensures Pow(base, k) >= base
  {
    hide Times;
    TimesMonotone(1, Pow(base, k - 1), base);
    TimesOne(base);
  }

  /** Splitting off the first digit. */
  lemma {:induction false} NumberHead(ds: seq<nat>, base: nat)
    requires base >= 2 && |ds| >= 1
    ensures NumberOf(ds, base) == Times(ds[0], Pow(base, |ds| - 1)) + NumberOf(ds[1..], base)
  {
    hide Times;
    var init, d := ds[..|ds| - 1], ds[|ds| - 1];
    assert ds == init + [d];
    NumberSnoc(init, d, base);
    if |ds| == 1 {
      TimesOne(base);
      TimesOne(ds[0]);
    } else {
      var p, v := Pow(base, |ds| - 2), NumberOf(init[1..], base);
      NumberHead(init, base);
      assert ds[1..] == init[1..] + [d];
      NumberSnoc(init[1..], d, base);
      TimesAdd(Times(ds[0], p), v, base);
      TimesSwap(ds[0], p, base);
      TimesCommutes(p, base);
    }
  }

  /** The first digit of a number of several digits is not zero. */
  lemma {:induction false} DigitsLead(n: nat, base: nat)
    requires base >= 2
    ensures |Digits(n, base)| > 1 ==> Digits(n, base)[0] != 0
  {
    hide Quotient, Remainder;
    if n >= base {
      Division(n, base);
      DigitsLead(Quotient(n, base), base);
    }
  }

  /** Each digit, picked out by a shift and a mask. */
  lemma {:induction false} DigitAt(n: nat, base: nat, i: nat)
    requires base >= 2 && i < |Digits(n, base)|
    ensures Digits(n, base)[i] == Remainder(Quotient(n, Pow(base, |Digits(n, base)| - 1 - i)), base)
  {
    hide Times, Quotient, Remainder;
    if n < base {
      Small(n, base);
    } else {
      Division(n, base);
      var upper := Digits(Quotient(n, base), base);
      if i < |upper| {
        DigitAt(Quotient(n, base), base, i);
        assert Pow(base, |upper| - i) == Times(Pow(base, |upper| - 1 - i), base);
        TwoQuotients(n, base, Pow(base, |upper| - 1 - i));
      } else {
        QuotientOne(n);
      }
    }
  }

  lemma QuotientOne(n: nat)
    ensures Quotient(n, 1) == n
  {
  }

  lemma Small(n: nat, base: nat)
    requires n < base
    ensures Remainder(Quotient(n, 1), base) == n
  {
  }

  lemma PowNext(k: nat)
    ensures Pow(0x100, k + 1) == 0x100 * Pow(0x100, k)
  {
  }
}
