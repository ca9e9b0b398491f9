/**
The checksum as BIP173 defines it: symbols are elements of the field of thirty-two elements, and one turn
divides by the generator polynomial x^6 + 29x^5 + 22x^4 + 20x^3 + 21x^2 + 29x + 18. The constants that the
code mixes in are the multiples of that polynomial.
 */
module Bech32Field {
  import opened Sequences
  import opened BitGroups
  import opened Bech32

  // ---- the field -----------------------------------------------------------------------------------

  /** The sum: bit by bit, without carry. */
  function Plus(x: nat, y: nat): nat {
    if x == 0 && y == 0 then 0 else 2 * Plus(x / 2, y / 2) + (if x % 2 != y % 2 then 1 else 0)
  }

  /** Times a, where a^5 = a^3 + 1. */
  function Doubled(v: nat): nat { if v < 16 then 2 * v else Plus((2 * v) % 32, 9) }

  function TimesPower(v: nat, n: nat): nat { if n == 0 then v else Doubled(TimesPower(v, n - 1)) }

  predicate Bit(t: nat, j: nat) { if j == 0 then t % 2 == 1 else Bit(t / 2, j - 1) }

  /** `v` times the lower `n` bits of `t`. */
  function Product(t: nat, v: nat, n: nat): nat {
    if n == 0 then 0
    else Plus(Product(t, v, n - 1), if Bit(t, n - 1) then TimesPower(v, n - 1) else 0)
  }

  const GENERATOR: seq<nat> := [29, 22, 20, 21, 29, 18]

  /** Six symbols with the next one behind them, less the generator times the one that falls out. */
  function Turn(six: seq<nat>, v: nat): (r: seq<nat>)
    requires |six| == 6
    ensures |r| == 6
  {
    var t := six[0];
    [Plus(six[1], Product(t, 29, 5)), Plus(six[2], Product(t, 22, 5)), Plus(six[3], Product(t, 20, 5)),
     Plus(six[4], Product(t, 21, 5)), Plus(six[5], Product(t, 29, 5)), Plus(v, Product(t, 18, 5))]
  }

  // ---- sums of bits ----------------------------------------------------------------------------------

  lemma {:induction false} PlusIs(x: nat, y: nat, n: nat)
    ensures Xor(ToBits(x, n), ToBits(y, n)) == ToBits(Plus(x, y), n)
  {
    if n > 0 {
      PlusIs(x / 2, y / 2, n - 1);
      assert Plus(x, y) / 2 == Plus(x / 2, y / 2);
      assert Plus(x, y) % 2 == if x % 2 != y % 2 then 1 else 0;
    }
  }

  lemma {:induction false} BitIs(v: nat, n: nat, j: nat)
    requires j < n
    ensures ToBits(v, n)[n - 1 - j] == Bit(v, j)
  {
    if j > 0 {
      BitIs(v / 2, n - 1, j - 1);
    }
  }

  // ---- the constants -----------------------------------------------------------------------------------

  /** Symbols as one number. */
  function Number(vs: seq<nat>): nat { if vs == [] then 0 else 32 * Number(vs[..|vs| - 1]) + vs[|vs| - 1] }

  lemma {:induction false} NumberIs(vs: seq<nat>)
    requires Below(vs, 32)
    ensures ToBits(Number(vs), 5 * |vs|) == Flatten(vs, 5)
  {
    if vs != [] {
      var init, last := vs[..|vs| - 1], vs[|vs| - 1];
      NumberIs(init);
      ShlFive(Number(init));
      assert Two(5) == 32;
      ShiftIn(Number(init), last, 5, 5 * |init|);
      FlattenMore(init, last, 5);
      assert vs == init + [last];
    }
  }

  /** The k-th symbol of a word. */
  function At(w: Bits, k: nat): (x: Bits)
    requires |w| == 30 && k < 6
    ensures |x| == 5
  {
    w[5 * k..5 * k + 5]
  }

  lemma {:induction false} FlattenAt(vs: seq<nat>, k: nat)
    requires k < |vs|
    ensures |Flatten(vs, 5)| == 5 * |vs| && Flatten(vs, 5)[5 * k..5 * k + 5] == ToBits(vs[k], 5)
  {
    hide ToBits;
    FlattenLength(vs, 5);
    if k == 0 {
      assert Flatten(vs, 5)[..5] == ToBits(vs[0], 5);
    } else {
      FlattenAt(vs[1..], k - 1);
      var j := 5 * (k - 1);
      assert Flatten(vs, 5)[5 + j..5 + j + 5] == Flatten(vs[1..], 5)[j..j + 5];
    }
  }

  /** The generator times a to the i, symbol by symbol. */
  function Multiple(i: nat): (vs: seq<nat>)
    requires i < 5
    ensures |vs| == 6 && Below(vs, 32)
  {
    if i == 0 then GENERATOR
    else if i == 1 then [19, 5, 1, 3, 19, 13]
    else if i == 2 then [15, 10, 2, 6, 15, 26]
    else if i == 3 then [30, 20, 4, 12, 30, 29]
    else [21, 1, 8, 24, 21, 19]
  }

  lemma SixAsNumber(a: nat, b: nat, c: nat, d: nat, e: nat, f: nat)
    ensures Number([a, b, c, d, e, f]) == 32 * (32 * (32 * (32 * (32 * a + b) + c) + d) + e) + f
  {
    var vs := [a, b, c, d, e, f];
    assert vs[..5] == [a, b, c, d, e] && [a, b, c, d, e][..4] == [a, b, c, d] && [a, b, c, d][..3] == [a, b, c];
    assert [a, b, c][..2] == [a, b] && [a, b][..1] == [a] && [a][..0] == [];
    assert Number([a]) == a;
    assert Number([a, b]) == 32 * a + b;
    assert Number([a, b, c]) == 32 * (32 * a + b) + c;
    assert Number([a, b, c, d]) == 32 * (32 * (32 * a + b) + c) + d;
  }

  lemma ConstantIs(i: nat)
    requires i < 5
    ensures Constant(i) == Flatten(Multiple(i), 5)
  {
    var m := Multiple(i);
    NumberIs(m);
    SixAsNumber(m[0], m[1], m[2], m[3], m[4], m[5]);
    assert m == [m[0], m[1], m[2], m[3], m[4], m[5]];
  }

  /** Each multiple is a times the one before. */
  lemma MultiplesDouble(i: nat, k: nat)
    requires i < 4 && k < 6
    ensures Multiple(i + 1)[k] == Doubled(Multiple(i)[k])
  {
  }

  lemma {:induction false} MultipleIs(i: nat, k: nat)
    requires i < 5 && k < 6
    ensures Multiple(i)[k] == TimesPower(GENERATOR[k], i)
  {
    if i > 0 {
      MultipleIs(i - 1, k);
      MultiplesDouble(i - 1, k);
    }
  }

  // ---- one turn ------------------------------------------------------------------------------------

  lemma AtXor(a: Bits, b: Bits, k: nat)
    requires |a| == |b| == 30 && k < 6
    ensures At(Xor(a, b), k) == Xor(At(a, k), At(b, k))
  {
  }

  lemma AtConstant(bit: bool, i: nat, k: nat)
    requires i < 5 && k < 6
    ensures At(Select(bit, Constant(i)), k) == ToBits(if bit then TimesPower(GENERATOR[k], i) else 0, 5)
  {
    ConstantIs(i);
    FlattenAt(Multiple(i), k);
    MultipleIs(i, k);
    ZeroBits(5);
  }

  lemma XorThree(a: Bits, b: Bits, c: Bits)
    requires |a| == |b| == |c|
    ensures Xor(Xor(a, b), c) == Xor(a, Xor(b, c))
  {
  }

  lemma {:induction false} MixedAt(w: Bits, t: nat, n: nat, k: nat)
    requires |w| == 30 && n <= 5 && k < 6
    ensures At(Mixed(w, ToBits(t, 5), n), k) == Xor(At(w, k), ToBits(Product(t, GENERATOR[k], n), 5))
    decreases n
  {
    var g, top := GENERATOR[k], ToBits(t, 5);
    if n == 0 {
      XorZeros(At(w, k));
      ZeroBits(5);
    } else {
      MixedAt(w, t, n - 1, k);
      AtXor(Mixed(w, top, n - 1), Select(top[5 - n], Constant(n - 1)), k);
      AtConstant(top[5 - n], n - 1, k);
      BitIs(t, 5, n - 1);
      var more := if top[5 - n] then TimesPower(g, n - 1) else 0;
      XorThree(At(w, k), ToBits(Product(t, g, n - 1), 5), ToBits(more, 5));
      PlusIs(Product(t, g, n - 1), more, 5);
    }
  }

  lemma StepAt(six: seq<nat>, v: nat, k: nat)
    requires |six| == 6 && k < 6 && |Flatten(six, 5)| == 30
    ensures At(Step(Flatten(six, 5), v), k)
         == ToBits(Plus(if k < 5 then six[k + 1] else v, Product(six[0], GENERATOR[k], 5)), 5)
  {
    hide Product, Mixed, Plus, Flatten;
    var chk := Flatten(six, 5);
    var w := chk[5..] + ToBits(v, 5);
    FlattenAt(six, 0);
    MixedAt(w, six[0], 5, k);
    if k < 5 {
      FlattenAt(six, k + 1);
    }
    assert At(w, k) == ToBits(if k < 5 then six[k + 1] else v, 5);
    PlusIs(if k < 5 then six[k + 1] else v, Product(six[0], GENERATOR[k], 5), 5);
  }

  lemma SameSymbols(a: Bits, b: Bits)
    requires |a| == |b| == 30 && forall k | 0 <= k < 6 :: At(a, k) == At(b, k)
    ensures a == b
  {
    forall i | 0 <= i < 30 ensures a[i] == b[i] {
      assert a[i] == At(a, i / 5)[i % 5];
      assert b[i] == At(b, i / 5)[i % 5];
    }
  }

  /** One turn of the code is one turn of the division. */
  lemma StepDivides(six: seq<nat>, v: nat)
    requires |six| == 6
    ensures |Flatten(six, 5)| == 30 && Step(Flatten(six, 5), v) == Flatten(Turn(six, v), 5)
  {
    hide Product, Plus, Flatten, Step, ToBits;
    FlattenLength(six, 5);
    FlattenLength(Turn(six, v), 5);
    forall k | 0 <= k < 6 ensures At(Step(Flatten(six, 5), v), k) == At(Flatten(Turn(six, v), 5), k) {
      StepAt(six, v, k);
      FlattenAt(Turn(six, v), k);
    }
    SameSymbols(Step(Flatten(six, 5), v), Flatten(Turn(six, v), 5));
  }

  // ---- the whole checksum ------------------------------------------------------------------------------

  function Turns(six: seq<nat>, vs: seq<nat>): (r: seq<nat>)
    requires |six| == 6
    ensures |r| == 6
    decreases |vs|
  {
    if vs == [] then six else Turns(Turn(six, vs[0]), vs[1..])
  }

  lemma {:induction false} FoldDivides(six: seq<nat>, vs: seq<nat>)
    requires |six| == 6
    ensures |Flatten(six, 5)| == 30 && Fold(Flatten(six, 5), vs) == Flatten(Turns(six, vs), 5)
    decreases |vs|
  {
    FlattenLength(six, 5);
    if vs != [] {
      StepDivides(six, vs[0]);
      FoldDivides(Turn(six, vs[0]), vs[1..]);
    }
  }

  lemma {:induction false} PlusFits(x: nat, y: nat, n: nat)
    requires x < Two(n) && y < Two(n)
    ensures Plus(x, y) < Two(n)
  {
    if n > 0 {
      PlusFits(x / 2, y / 2, n - 1);
    }
  }

  lemma {:induction false} PowerFits(v: nat, n: nat)
    requires v < 32
    ensures TimesPower(v, n) < 32
  {
    if n > 0 {
      PowerFits(v, n - 1);
      PlusFits((2 * TimesPower(v, n - 1)) % 32, 9, 5);
    }
  }

  lemma {:induction false} ProductFits(t: nat, v: nat, n: nat)
    requires v < 32
    ensures Product(t, v, n) < 32
  {
    if n > 0 {
      ProductFits(t, v, n - 1);
      PowerFits(v, n - 1);
      PlusFits(Product(t, v, n - 1), if Bit(t, n - 1) then TimesPower(v, n - 1) else 0, 5);
    }
  }

  lemma TurnFits(six: seq<nat>, v: nat)
    requires |six| == 6 && Below(six, 32) && v < 32
    ensures Below(Turn(six, v), 32)
  {
    hide Product, Plus;
    assert Two(5) == 32;
    var t := six[0];
    forall w, g | 0 <= w < 32 && 0 <= g < 32 ensures Plus(w, Product(t, g, 5)) < 32 {
      ProductFits(t, g, 5);
      PlusFits(w, Product(t, g, 5), 5);
    }
  }

  lemma {:induction false} TurnsFit(six: seq<nat>, vs: seq<nat>)
    requires |six| == 6 && Below(six, 32) && Below(vs, 32)
    ensures Below(Turns(six, vs), 32)
    decreases |vs|
  {
    if vs != [] {
      TurnFits(six, vs[0]);
      TurnsFit(Turn(six, vs[0]), vs[1..]);
    }
  }

  const ONE: seq<nat> := [0, 0, 0, 0, 0, 1]
  const MODIFIED: seq<nat> := [21, 28, 16, 12, 5, 3]

  lemma ConstantsAre()
    ensures BECH32 == Flatten(ONE, 5) && BECH32M == Flatten(MODIFIED, 5)
  {
    NumberIs(ONE);
    NumberIs(MODIFIED);
    SixAsNumber(0, 0, 0, 0, 0, 1);
    SixAsNumber(21, 28, 16, 12, 5, 3);
  }

  lemma SameWord(x: seq<nat>, y: seq<nat>)
    requires |x| == |y| == 6 && Below(x, 32) && Below(y, 32)
    ensures Flatten(x, 5) == Flatten(y, 5) <==> x == y
  {
    assert Two(5) == 32;
    if Flatten(x, 5) == Flatten(y, 5) {
      FlatIsInjective(x, y);
    }
  }

  /** The two endings the code accepts are two remainders of the division of the symbols behind a one. */
  lemma EndsAs(vs: seq<nat>)
    requires Below(vs, 32)
    ensures Fold(Word(1), vs) == BECH32 <==> Turns(ONE, vs) == ONE
    ensures Fold(Word(1), vs) == BECH32M <==> Turns(ONE, vs) == MODIFIED
  {
    hide Fold, Turns, Flatten, ToBits;
    ConstantsAre();
    FoldDivides(ONE, vs);
    TurnsFit(ONE, vs);
    SameWord(Turns(ONE, vs), ONE);
    SameWord(Turns(ONE, vs), MODIFIED);
  }
}
