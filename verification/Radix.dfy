/** Numbers in digits of any base, most significant first, and the in-place step of a base conversion. */
module Radix {
  import opened Sequences

  type Digits = seq<nat>

  // ---- powers ---------------------------------------------------------------------------------

  function Pow(b: nat, n: nat): nat { if n == 0 then 1 else b * Pow(b, n - 1) }

  lemma {:induction false} PowPositive(b: nat, n: nat)
    requires b > 0
    ensures Pow(b, n) > 0
  {
    if n > 0 {
      PowPositive(b, n - 1);
    }
  }

  lemma MulAssoc(a: nat, b: nat, c: nat)
    ensures a * (b * c) == (a * b) * c
  {
  }

  lemma MulMonotone(a: nat, b: nat, c: nat, d: nat)
    requires a <= b && c <= d
    ensures a * c <= b * d
  {
    assert a * c <= b * c;
    assert b * c <= b * d;
  }

  lemma {:induction false} PowAdd(b: nat, m: nat, n: nat)
    ensures Pow(b, m + n) == Pow(b, m) * Pow(b, n)
  {
    if m > 0 {
      PowAdd(b, m - 1, n);
      MulAssoc(b, Pow(b, m - 1), Pow(b, n));
    }
  }

  lemma {:induction false} PowMul(b: nat, m: nat, n: nat)
    ensures Pow(b, m * n) == Pow(Pow(b, m), n)
  {
    if n > 0 {
      assert m * n == m + m * (n - 1);
      PowMul(b, m, n - 1);
      PowAdd(b, m, m * (n - 1));
    }
  }

  lemma {:induction false} PowMonotone(a: nat, b: nat, n: nat)
    requires a <= b
    ensures Pow(a, n) <= Pow(b, n)
  {
    if n > 0 {
      PowMonotone(a, b, n - 1);
      MulMonotone(a, b, Pow(a, n - 1), Pow(b, n - 1));
    }
  }

  lemma {:induction false} PowStrict(a: nat, b: nat, n: nat)
    requires a < b && n > 0
    ensures Pow(a, n) < Pow(b, n)
  {
    PowMonotone(a, b, n - 1);
    PowPositive(b, n - 1);
    MulMonotone(a, b - 1, Pow(a, n - 1), Pow(b, n - 1));
    assert (b - 1) * Pow(b, n - 1) + Pow(b, n - 1) == b * Pow(b, n - 1);
  }

  lemma {:induction false} PowGrows(b: nat, m: nat, n: nat)
    requires b > 0 && m <= n
    ensures Pow(b, m) <= Pow(b, n)
  {
    if m < n {
      PowGrows(b, m, n - 1);
      MulMonotone(1, b, Pow(b, n - 1), Pow(b, n - 1));
    }
  }

  lemma RootLe(a: nat, b: nat, p: nat)
    requires p > 0 && Pow(a, p) <= Pow(b, p)
    ensures a <= b
  {
    if b < a {
      PowStrict(b, a, p);
    }
  }

  lemma PowSwap(b: nat, m: nat, n: nat)
    ensures Pow(Pow(b, m), n) == Pow(Pow(b, n), m)
  {
    PowMul(b, m, n);
    PowMul(b, n, m);
    assert m * n == n * m;
  }

  lemma RaisedRight(b: nat, q: nat, n: nat, p: nat, s: nat)
    requires b > 0 && q * n <= p * s
    ensures Pow(Pow(b, q), n) <= Pow(Pow(b, s), p)
  {
    PowMul(b, q, n);
    PowGrows(b, q * n, p * s);
    PowMul(b, p, s);
    PowSwap(b, p, s);
  }

  lemma RaisedLeft(a: nat, p: nat, c: nat, n: nat)
    requires Pow(a, p) <= c
    ensures Pow(Pow(a, n), p) <= Pow(c, n)
  {
    PowSwap(a, p, n);
    PowMonotone(Pow(a, p), c, n);
  }

  /**
  If `a` to the `p` is at most `b` to the `q`, then `n` digits of base `a` fit in `s` digits of base
  `b` whenever `s / n` is at least `q / p`.
   */
  lemma DigitsFit(a: nat, b: nat, p: nat, q: nat, n: nat, s: nat)
    requires b > 0 && p > 0 && Pow(a, p) <= Pow(b, q) && q * n <= p * s
    ensures Pow(a, n) <= Pow(b, s)
  {
    RaisedLeft(a, p, Pow(b, q), n);
    RaisedRight(b, q, n, p, s);
    RootLe(Pow(a, n), Pow(b, s), p);
  }

  // ---- values ------------------------------------------------------------------------------------

  function Value(ds: Digits, b: nat): nat { if ds == [] then 0 else Value(ds[..|ds| - 1], b) * b + ds[|ds| - 1] }

  /** The digits of a number, none for zero. */
  function DigitsOf(v: nat, b: nat): Digits
    requires b >= 2
    decreases v
  {
    if v == 0 then [] else DigitsOf(v / b, b) + [v % b]
  }

  predicate NoLeadingZero(ds: Digits) { ds != [] ==> ds[0] != 0 }

  lemma DivMod(more: nat, low: nat, b: nat)
    requires low < b
    ensures (more * b + low) / b == more && (more * b + low) % b == low
  {
    var v := more * b + low;
    assert v == b * (v / b) + v % b;
    assert b * (v / b) - b * more == low - v % b;
    if v / b > more {
      MulMonotone(b, b, more + 1, v / b);
    } else if v / b < more {
      MulMonotone(b, b, v / b + 1, more);
    }
  }

  lemma ValueMore(ds: Digits, last: nat, b: nat)
    ensures Value(ds + [last], b) == Value(ds, b) * b + last
  {
    assert (ds + [last])[..|ds|] == ds;
  }

  lemma DivBack(v: nat, b: nat)
    requires b > 0
    ensures (v / b) * b + v % b == v
  {
  }

  lemma {:induction false} ValueOfDigits(v: nat, b: nat)
    requires b >= 2
    ensures Value(DigitsOf(v, b), b) == v && Below(DigitsOf(v, b), b) && NoLeadingZero(DigitsOf(v, b))
    decreases v
  {
    if v > 0 {
      ValueOfDigits(v / b, b);
      var rest, low := DigitsOf(v / b, b), v % b;
      ValueMore(rest, low, b);
      DivBack(v, b);
      if rest == [] {
        assert v / b == 0;
      } else {
        assert (rest + [low])[0] == rest[0];
      }
    }
  }

  lemma {:induction false} ValueIsPositive(ds: Digits, b: nat)
    requires b > 0 && ds != [] && ds[0] != 0
    ensures Value(ds, b) > 0
  {
    if |ds| > 1 {
      ValueIsPositive(ds[..|ds| - 1], b);
      MulMonotone(1, Value(ds[..|ds| - 1], b), 1, b);
    }
  }

  lemma {:induction false} DigitsOfValue(ds: Digits, b: nat)
    requires b >= 2 && Below(ds, b) && NoLeadingZero(ds)
    ensures DigitsOf(Value(ds, b), b) == ds
  {
    if ds != [] {
      var init, last := ds[..|ds| - 1], ds[|ds| - 1];
      DigitsOfValue(init, b);
      DivMod(Value(init, b), last, b);
      ValueIsPositive(ds, b);
      assert ds == init + [last];
    }
  }

  lemma {:induction false} ValueBound(ds: Digits, b: nat)
    requires b > 0 && Below(ds, b)
    ensures Value(ds, b) < Pow(b, |ds|)
  {
    if ds != [] {
      var init := ds[..|ds| - 1];
      ValueBound(init, b);
      MulMonotone(Value(init, b) + 1, Pow(b, |init|), b, b);
      assert (Value(init, b) + 1) * b == Value(init, b) * b + b;
    }
  }

  lemma {:induction false} ValueOfZeros(ds: Digits, b: nat)
    requires forall k :: 0 <= k < |ds| ==> ds[k] == 0
    ensures Value(ds, b) == 0
  {
    if ds != [] {
      ValueOfZeros(ds[..|ds| - 1], b);
    }
  }

  lemma SplitStep(x: nat, y: nat, z: nat, b: nat)
    ensures (x * y + z) * b == x * (b * y) + z * b
  {
    assert (x * y) * b == x * (b * y);
  }

  lemma {:induction false} ValueSplit(a: Digits, c: Digits, b: nat)
    ensures Value(a + c, b) == Value(a, b) * Pow(b, |c|) + Value(c, b)
  {
    if c == [] {
      assert a + c == a;
    } else {
      var init, last := c[..|c| - 1], c[|c| - 1];
      assert (a + c)[..|a + c| - 1] == a + init;
      ValueSplit(a, init, b);
      SplitStep(Value(a, b), Pow(b, |init|), Value(init, b), b);
    }
  }

  // ---- one step of a conversion, in place ---------------------------------------------------------

  /** What the digits processed so far, the carry and the digits ahead stand for together. */
  ghost predicate Halfway(was: Digits, now: Digits, p: nat, carry: nat, total: nat, mult: nat, b: nat) {
    p <= |was| == |now| && total == (Value(was[..p], b) * mult + carry) * Pow(b, |was| - p) + Value(now[p..], b)
  }

  lemma StepAlgebra(high: nat, digit: nat, carry: nat, mult: nat, b: nat, power: nat, low: nat)
    requires b > 0
    ensures var c := carry + mult * digit;
            ((high * b + digit) * mult + carry) * power + low
                == (high * mult + c / b) * (b * power) + ((c % b) * power + low)
  {
    var c := carry + mult * digit;
    var q, r := c / b, c % b;
    DivBack(c, b);
    assert (high * b + digit) * mult == (high * mult) * b + mult * digit;
    assert (high * b + digit) * mult + carry == (high * mult + q) * b + r by {
      assert (high * mult + q) * b == (high * mult) * b + q * b;
    }
    var m := high * mult + q;
    assert (m * b + r) * power == (m * b) * power + r * power;
    assert (m * b) * power == m * (b * power);
  }

  lemma HalfwayNext(was: Digits, now: Digits, now': Digits, p: nat, carry: nat, total: nat, mult: nat, b: nat)
    requires b > 0 && p > 0 && Halfway(was, now, p, carry, total, mult, b) && now[p - 1] == was[p - 1]
    requires var c := carry + mult * was[p - 1]; now' == now[p - 1 := c % b]
    ensures Halfway(was, now', p - 1, (carry + mult * was[p - 1]) / b, total, mult, b)
  {
    var c, digit, n := carry + mult * was[p - 1], was[p - 1], |was| - p;
    assert was[..p][..p - 1] == was[..p - 1];
    assert now'[p - 1..] == [c % b] + now[p..];
    ValueSplit([c % b], now[p..], b);
    assert Value([c % b], b) == c % b by { ValueMore([], c % b, b); assert [] + [c % b] == [c % b]; }
    StepAlgebra(Value(was[..p - 1], b), digit, carry, mult, b, Pow(b, n), Value(now[p..], b));
  }

  /** Digits in front of the last `length` are zero. */
  predicate Padded(ds: Digits, length: nat) { length <= |ds| && forall k :: 0 <= k < |ds| - length ==> ds[k] == 0 }

  lemma CarryGone(carry: nat, power: nat, low: nat, total: nat)
    requires total == carry * power + low && total < power
    ensures carry == 0
  {
    if carry > 0 {
      MulMonotone(1, carry, power, power);
    }
  }

  lemma DoneAtFront(was: Digits, now: Digits, carry: nat, total: nat, mult: nat, b: nat)
    requires Halfway(was, now, 0, carry, total, mult, b) && total < Pow(b, |was|)
    ensures carry == 0 && Value(now, b) == total
  {
    assert was[..0] == [] && now[0..] == now;
    CarryGone(carry, Pow(b, |was|), Value(now, b), total);
  }

  lemma DoneEarly(was: Digits, now: Digits, p: nat, total: nat, mult: nat, b: nat)
    requires Halfway(was, now, p, 0, total, mult, b) && now[..p] == was[..p] && forall k :: 0 <= k < p ==> was[k] == 0
    ensures Value(now, b) == total
  {
    ValueOfZeros(was[..p], b);
    assert now == now[..p] + now[p..];
    ValueSplit(now[..p], now[p..], b);
  }

  lemma HalfwayDone(was: Digits, now: Digits, p: nat, carry: nat, total: nat, mult: nat, b: nat, length: nat)
    requires Halfway(was, now, p, carry, total, mult, b) && now[..p] == was[..p] && Padded(was, length)
    requires total < Pow(b, |was|) && (p == 0 || (carry == 0 && |was| - p >= length))
    ensures carry == 0 && Value(now, b) == total && Padded(now, |was| - p)
  {
    if p == 0 {
      DoneAtFront(was, now, carry, total, mult, b);
    } else {
      DoneEarly(was, now, p, total, mult, b);
      assert forall k :: 0 <= k < p ==> now[k] == now[..p][k] == was[..p][k];
    }
  }

  function Carried(carry: nat, mult: nat, digit: nat): nat { carry + mult * digit }

  /** The loop between two digits. */
  ghost predicate Going(was: Digits, now: Digits, p: nat, carry: nat, total: nat, mult: nat, b: nat) {
    Halfway(was, now, p, carry, total, mult, b) && now[..p] == was[..p] && Below(now, b)
  }

  lemma GoingNext(was: Digits, now: Digits, p: nat, carry: nat, total: nat, mult: nat, b: nat)
    requires b > 0 && p > 0 && Going(was, now, p, carry, total, mult, b)
    ensures now[p - 1] == was[p - 1]
    ensures Going(was, now[p - 1 := Carried(carry, mult, was[p - 1]) % b], p - 1, Carried(carry, mult, was[p - 1]) / b,
        total, mult, b)
  {
    assert now[p - 1] == now[..p][p - 1] == was[..p][p - 1];
    var now' := now[p - 1 := Carried(carry, mult, was[p - 1]) % b];
    HalfwayNext(was, now, now', p, carry, total, mult, b);
    assert now'[..p - 1] == now[..p][..p - 1] && was[..p - 1] == was[..p][..p - 1];
  }

  lemma GoingOpens(was: Digits, ch: nat, mult: nat, b: nat)
    requires Below(was, b)
    ensures Going(was, was, |was|, ch, Value(was, b) * mult + ch, mult, b)
  {
    assert was[..|was|] == was && was[|was|..] == [];
  }

  /** One digit: it takes the carry's low part, the rest is carried on. */
  method StepDigit(buf: array<nat>, p: nat, b: nat, mult: nat, carry: nat, ghost was: Digits, ghost total: nat)
        returns (onward: nat)
    requires b > 0 && 0 < p <= buf.Length && Going(was, buf[..], p, carry, total, mult, b)
    modifies buf
    ensures Going(was, buf[..], p - 1, onward, total, mult, b)
  {
    ghost var now := buf[..];
    GoingNext(was, now, p, carry, total, mult, b);
    var c := Carried(carry, mult, buf[p - 1]);
    var low: nat := c % b;
    buf[p - 1] := low;
    onward := c / b;
    assert buf[..] == now[p - 1 := low];
  }

  /** From the last digit on, for as long as there is a carry or a digit that counts. */
  method Ripple(buf: array<nat>, b: nat, mult: nat, ch: nat, length: nat, ghost total: nat) returns (i: nat, carry: nat)
    requires b > 0 && Going(buf[..], buf[..], buf.Length, ch, total, mult, b)
    modifies buf
    ensures i <= buf.Length && Going(old(buf[..]), buf[..], buf.Length - i, carry, total, mult, b)
    ensures i == buf.Length || (carry == 0 && i >= length)
  {
    ghost var was := buf[..];
    carry, i := ch, 0;
    while (carry != 0 || i < length) && i < buf.Length
      invariant 0 <= i <= buf.Length && Going(was, buf[..], buf.Length - i, carry, total, mult, b)
      decreases buf.Length - i
    {
      carry := StepDigit(buf, buf.Length - i, b, mult, carry, was, total);
      i := i + 1;
    }
  }

  /**
  The digits of a number in base `b` become those of `mult` times it plus `ch`. The carry that the
  source asserts to be gone is gone, when the result fits.
   */
  method MultiplyAdd(buf: array<nat>, b: nat, mult: nat, ch: nat, length: nat) returns (newLength: nat)
    requires b > 0 && Below(buf[..], b) && Padded(buf[..], length) && Value(buf[..], b) * mult + ch < Pow(b, buf.Length)
    modifies buf
    ensures Below(buf[..], b) && Padded(buf[..], newLength) && Value(buf[..], b) == Value(old(buf[..]), b) * mult + ch
  {
    ghost var was, total := buf[..], Value(buf[..], b) * mult + ch;
    GoingOpens(was, ch, mult, b);
    var carry: nat;
    newLength, carry := Ripple(buf, b, mult, ch, length, total);
    HalfwayDone(was, buf[..], buf.Length - newLength, carry, total, mult, b, length);
    assert carry == 0;
  }
}
