/**
Bech32 and Bech32m ("Bech32" and "Segwit address format" in BIP173, "Bech32m" in BIP350): the
checksum.

Checksum words are sequences of thirty bits, the highest first: with symbols below thirty-two the
32-bit word of `polymod` never leaves them.
 */
module Bech32 {
  import opened Sequences
  import opened BitGroups

  function Word(v: nat): (w: Bits)
    ensures |w| == 30
  {
    ToBits(v, 30)
  }

  const BECH32: Bits := Word(1)
  const BECH32M: Bits := Word(0x2bc830a3)

  // ---- one turn ------------------------------------------------------------------------------------

  function Xor(a: Bits, b: Bits): (c: Bits)
    requires |a| == |b|
    ensures |c| == |a| && forall i :: 0 <= i < |a| ==> c[i] == (a[i] != b[i])
  {
    seq(|a|, i requires 0 <= i < |a| => a[i] != b[i])
  }

  function Generator(i: nat): nat
    requires i < 5
  {
    if i == 0 then 0x3b6a57b2 else if i == 1 then 0x26508e6d else if i == 2 then 0x1ea119fa
        else if i == 3 then 0x3d4233dd else 0x2a1462b3
  }

  function Constant(i: nat): (w: Bits)
    requires i < 5
    ensures |w| == 30
  {
    Word(Generator(i))
  }

  function Select(bit: bool, w: Bits): (r: Bits)
    ensures |r| == |w|
  {
    if bit then w else Zeros(|w|)
  }

  /** A word with the first `n` generator constants mixed in, each as its bit of `top` says. */
  function Mixed(w: Bits, top: Bits, n: nat): (r: Bits)
    requires |w| == 30 && |top| == 5 && n <= 5
    ensures |r| == 30
  {
    if n == 0 then w else Xor(Mixed(w, top, n - 1), Select(top[5 - n], Constant(n - 1)))
  }

  function Step(chk: Bits, v: nat): (r: Bits)
    requires |chk| == 30
    ensures |r| == 30
  {
    Mixed(chk[5..] + ToBits(v, 5), chk[..5], 5)
  }

  function Fold(chk: Bits, vs: seq<nat>): (r: Bits)
    requires |chk| == 30
    ensures |r| == 30
    decreases |vs|
  {
    if vs == [] then chk else Fold(Step(chk, vs[0]), vs[1..])
  }

  /** `polymod`. */
  method Polymod(vs: seq<nat>) returns (chk: Bits)
    ensures |chk| == 30 && chk == Fold(Word(1), vs)
  {
    chk := Word(1);
    assert vs[0..] == vs;
    for k := 0 to |vs|
      invariant |chk| == 30 && Fold(chk, vs[k..]) == Fold(Word(1), vs)
    {
      ghost var was := chk;
      var top := chk[..5];
      chk := chk[5..] + ToBits(vs[k], 5);
      ghost var w := chk;
      for i := 0 to 5
        invariant |chk| == 30 && chk == Mixed(w, top, i)
      {
        chk := Xor(chk, Select(top[4 - i], Constant(i)));
      }
      assert chk == Step(was, vs[k]);
      assert vs[k..][1..] == vs[k + 1..];
    }
  }

  // ---- turns are linear over GF(2) -------------------------------------------------------------------

  lemma Shuffle(a: Bits, b: Bits, c: Bits, d: Bits)
    requires |a| == |b| == |c| == |d|
    ensures Xor(Xor(a, b), Xor(c, d)) == Xor(Xor(a, c), Xor(b, d))
  {
  }

  lemma SelectIsLinear(s: bool, t: bool, w: Bits)
    ensures Select(s != t, w) == Xor(Select(s, w), Select(t, w))
  {
  }

  lemma {:induction false} MixedIsLinear(w: Bits, u: Bits, s: Bits, t: Bits, n: nat)
    requires |w| == |u| == 30 && |s| == |t| == 5 && n <= 5
    ensures Mixed(Xor(w, u), Xor(s, t), n) == Xor(Mixed(w, s, n), Mixed(u, t, n))
  {
    if n > 0 {
      MixedIsLinear(w, u, s, t, n - 1);
      var c := Constant(n - 1);
      SelectIsLinear(s[5 - n], t[5 - n], c);
      Shuffle(Mixed(w, s, n - 1), Mixed(u, t, n - 1), Select(s[5 - n], c), Select(t[5 - n], c));
    }
  }

  /** A symbol is taken in by one part of the state, a zero by the other. */
  lemma StepSplits(s: Bits, r: Bits, v: nat)
    requires |s| == |r| == 30
    ensures Step(Xor(s, r), v) == Xor(Step(s, 0), Step(r, v))
  {
    ZeroBits(5);
    MixedIsLinear(s[5..] + ToBits(0, 5), r[5..] + ToBits(v, 5), s[..5], r[..5], 5);
    assert Xor(s, r)[..5] == Xor(s[..5], r[..5]);
    assert Xor(s, r)[5..] + ToBits(v, 5) == Xor(s[5..] + ToBits(0, 5), r[5..] + ToBits(v, 5));
  }

  function Nothing(n: nat): (s: seq<nat>)
    ensures |s| == n
  {
    if n == 0 then [] else [0] + Nothing(n - 1)
  }

  lemma {:induction false} FoldSplits(s: Bits, r: Bits, vs: seq<nat>)
    requires |s| == |r| == 30
    ensures Fold(Xor(s, r), vs) == Xor(Fold(s, Nothing(|vs|)), Fold(r, vs))
    decreases |vs|
  {
    if vs != [] {
      StepSplits(s, r, vs[0]);
      FoldSplits(Step(s, 0), Step(r, vs[0]), vs[1..]);
      assert Nothing(|vs|)[1..] == Nothing(|vs| - 1);
    }
  }

  lemma FoldOne(chk: Bits, v: nat, vs: seq<nat>)
    requires |chk| == 30
    ensures Fold(chk, [v] + vs) == Fold(Step(chk, v), vs)
  {
    assert ([v] + vs)[1..] == vs;
  }

  lemma {:induction false} FoldAppends(chk: Bits, a: seq<nat>, b: seq<nat>)
    requires |chk| == 30
    ensures Fold(chk, a + b) == Fold(Fold(chk, a), b)
    decreases |a|
  {
    hide Step;
    if a == [] {
      assert a + b == b;
    } else {
      var v, rest := a[0], a[1..];
      FoldAppends(Step(chk, v), rest, b);
      FoldOne(chk, v, rest + b);
      assert a + b == [v] + (rest + b);
    }
  }

  // ---- from nothing, six symbols are taken in as they are --------------------------------------------

  lemma {:induction false} NothingMixed(w: Bits, n: nat)
    requires |w| == 30 && n <= 5
    ensures Mixed(w, Zeros(5), n) == w
  {
    if n > 0 {
      NothingMixed(w, n - 1);
    }
  }

  lemma StepShifts(low: Bits, v: nat)
    requires |low| <= 25
    ensures Step(Zeros(30 - |low|) + low, v) == Zeros(25 - |low|) + (low + ToBits(v, 5))
  {
    var chk := Zeros(30 - |low|) + low;
    assert chk[..5] == Zeros(5);
    NothingMixed(chk[5..] + ToBits(v, 5), 5);
    assert chk[5..] + ToBits(v, 5) == Zeros(25 - |low|) + (low + ToBits(v, 5));
  }

  lemma {:induction false} FoldShifts(low: Bits, vs: seq<nat>)
    requires |low| + 5 * |vs| <= 30
    ensures |Flatten(vs, 5)| == 5 * |vs|
    ensures Fold(Zeros(30 - |low|) + low, vs) == Zeros(30 - |low| - 5 * |vs|) + (low + Flatten(vs, 5))
    decreases |vs|
  {
    if vs == [] {
      assert low + [] == low;
    } else {
      StepShifts(low, vs[0]);
      FoldShifts(low + ToBits(vs[0], 5), vs[1..]);
      assert (low + ToBits(vs[0], 5)) + Flatten(vs[1..], 5) == low + Flatten(vs, 5);
    }
  }

  lemma XorZeros(w: Bits)
    ensures Xor(w, Zeros(|w|)) == w && Xor(Zeros(|w|), w) == w
  {
  }

  lemma FoldFromNothing(vs: seq<nat>)
    requires |vs| <= 6
    ensures |Flatten(vs, 5)| == 5 * |vs| && Fold(Zeros(30), vs) == Zeros(30 - 5 * |vs|) + Flatten(vs, 5)
  {
    FoldShifts([], vs);
    assert Zeros(30) + [] == Zeros(30);
    assert [] + Flatten(vs, 5) == Flatten(vs, 5);
  }

  /** Bits put on the end of a word. */
  function PutOn(base: Bits, bits: Bits): (w: Bits)
    requires |base| == 30 && |bits| <= 30
    ensures |w| == 30
  {
    Xor(base, Zeros(30 - |bits|) + bits)
  }

  lemma PutOnTells(base: Bits, a: Bits, b: Bits)
    requires |base| == 30 && |a| == |b| <= 30 && PutOn(base, a) == PutOn(base, b)
    ensures a == b
  {
    var pad := Zeros(30 - |a|);
    XorCancels(base, pad + a, pad + b);
    assert a == (pad + a)[|pad|..];
    assert b == (pad + b)[|pad|..];
  }

  /** What up to six symbols do to a state: what zeros do, with the symbols' bits put on. */
  lemma FoldIsAffine(s: Bits, vs: seq<nat>)
    requires |s| == 30 && |vs| <= 6
    ensures |Flatten(vs, 5)| == 5 * |vs| && Fold(s, vs) == PutOn(Fold(s, Nothing(|vs|)), Flatten(vs, 5))
  {
    XorZeros(s);
    FoldSplits(s, Zeros(30), vs);
    FoldFromNothing(vs);
  }

  // ---- the checksum of some data ----------------------------------------------------------------------

  /** `encode`'s word: zeros in place of the checksum, and the constant taken off. */
  function Checksum(data: seq<nat>, constant: Bits): (w: Bits)
    requires |constant| == 30
    ensures |w| == 30
  {
    Xor(Fold(Word(1), data + Nothing(6)), constant)
  }

  lemma SixOf(w: Bits)
    requires |w| == 30
    ensures |Groups(w, 5)| == 6 && Below(Groups(w, 5), 32) && Flatten(Groups(w, 5), 5) == w
  {
    FlatOfGroups(w, 5);
    FlattenLength(Groups(w, 5), 5);
    assert Two(5) == 32;
    var six, left := Groups(w, 5), Leftover(w, 5);
    assert |Flatten(six, 5)| + |left| == 30 && |Flatten(six, 5)| == 5 * |six|;
    assert left == [];
    assert Flatten(six, 5) + [] == Flatten(six, 5);
  }

  lemma {:induction false} FlattenLength(vs: seq<nat>, n: nat)
    ensures |Flatten(vs, n)| == n * |vs|
  {
    if vs != [] {
      FlattenLength(vs[1..], n);
      assert n * |vs| == n + n * (|vs| - 1);
    }
  }

  lemma AllPutOn(base: Bits, bits: Bits)
    requires |base| == |bits| == 30
    ensures PutOn(base, bits) == Xor(base, bits)
  {
    assert Zeros(0) + bits == bits;
  }

  lemma SixPutOn(data: seq<nat>, six: seq<nat>)
    requires |six| == 6
    ensures |Flatten(six, 5)| == 30
        && Fold(Word(1), data + six) == Xor(Fold(Word(1), data + Nothing(6)), Flatten(six, 5))
  {
    var s := Fold(Word(1), data);
    FoldAppends(Word(1), data, six);
    FoldAppends(Word(1), data, Nothing(6));
    FoldIsAffine(s, six);
    AllPutOn(Fold(s, Nothing(6)), Flatten(six, 5));
  }

  /** Six symbols complete the data to the constant exactly when they are the ones written. */
  lemma ChecksumIsExact(data: seq<nat>, constant: Bits, six: seq<nat>)
    requires |constant| == 30 && |six| == 6 && Below(six, 32)
    ensures Fold(Word(1), data + six) == constant <==> six == Groups(Checksum(data, constant), 5)
  {
    var zeros, mod := Fold(Word(1), data + Nothing(6)), Checksum(data, constant);
    SixPutOn(data, six);
    SixOf(mod);
    var flat := Flatten(six, 5);
    assert Two(5) == 32;
    GroupsOfFlat(six, 5, []);
    assert flat + [] == flat;
    assert Xor(zeros, mod) == constant;
    assert Xor(zeros, flat) == constant ==> flat == mod by {
      XorCancels(zeros, flat, mod);
    }
  }

  lemma XorCancels(a: Bits, b: Bits, c: Bits)
    requires |a| == |b| == |c|
    ensures Xor(a, b) == Xor(a, c) ==> b == c
  {
    if Xor(a, b) == Xor(a, c) {
      forall i | 0 <= i < |b| ensures b[i] == c[i] {
        assert Xor(a, b)[i] == Xor(a, c)[i];
      }
    }
  }

  // ---- what the checksum catches ------------------------------------------------------------------------

  lemma {:induction false} LowBits(v: nat, n: nat, k: nat)
    requires k <= n
    ensures ToBits(v, n)[n - k..] == ToBits(v, k)
    decreases k
  {
    if k > 0 {
      LowBits(v / 2, n - 1, k - 1);
      var high := ToBits(v / 2, n - 1);
      assert ToBits(v, n)[n - k..] == high[n - k..] + [v % 2 == 1];
    }
  }

  function Low(w: Bits): (r: Bits)
    requires |w| == 30
    ensures |r| == 5
  {
    w[25..]
  }

  function Ending(i: nat): (r: Bits)
    requires i < 5
    ensures |r| == 5
  {
    if i == 0 then [true, false, false, true, false]
    else if i == 1 then [false, true, true, false, true]
    else if i == 2 then [true, true, false, true, false]
    else if i == 3 then [true, true, true, false, true]
    else [true, false, false, true, true]
  }

  function Above(i: nat): nat
    requires i < 5
  {
    if i == 0 then 31150781 else if i == 1 then 20087923 else if i == 2 then 16058575 else if i == 3 then 32117150
        else 22061845
  }

  function End(i: nat): nat
    requires i < 5
  {
    if i == 0 then 18 else if i == 1 then 13 else if i == 2 then 26 else if i == 3 then 29 else 19
  }

  lemma EndingIs(i: nat)
    requires i < 5
    ensures ToBits(End(i), 5) == Ending(i)
  {
    if i == 0 {
      assert ToBits(18, 5) == [true, false, false, true, false];
    } else if i == 1 {
      assert ToBits(13, 5) == [false, true, true, false, true];
    } else if i == 2 {
      assert ToBits(26, 5) == [true, true, false, true, false];
    } else if i == 3 {
      assert ToBits(29, 5) == [true, true, true, false, true];
    } else {
      assert ToBits(19, 5) == [true, false, false, true, true];
    }
  }

  lemma ShlFive(q: nat)
    ensures Shl(q, 5) == 32 * q
  {
    assert Shl(q, 1) == 2 * q;
    assert Shl(q, 2) == 4 * q;
    assert Shl(q, 3) == 8 * q;
    assert Shl(q, 4) == 16 * q;
  }

  /** The constants' last five bits. */
  lemma ConstantsEnd(i: nat)
    requires i < 5
    ensures Low(Constant(i)) == Ending(i)
  {
    LowBits(Generator(i), 30, 5);
    ShlFive(Above(i));
    assert Generator(i) == Shl(Above(i), 5) + End(i);
    assert Two(5) == 32;
    ShiftIn(Above(i), End(i), 5, 0);
    assert [] + ToBits(End(i), 5) == ToBits(End(i), 5);
    EndingIs(i);
  }

  lemma LowXor(a: Bits, b: Bits)
    requires |a| == |b| == 30
    ensures Low(Xor(a, b)) == Xor(Low(a), Low(b))
  {
  }

  lemma LowSelect(bit: bool, w: Bits)
    requires |w| == 30
    ensures Low(Select(bit, w)) == Select(bit, Low(w))
  {
  }

  lemma LowMixed(w: Bits, top: Bits, n: nat)
    requires |w| == 30 && |top| == 5 && 0 < n <= 5
    ensures Low(Mixed(w, top, n)) == Xor(Low(Mixed(w, top, n - 1)), Select(top[5 - n], Ending(n - 1)))
  {
    var c := Constant(n - 1);
    LowXor(Mixed(w, top, n - 1), Select(top[5 - n], c));
    LowSelect(top[5 - n], c);
    ConstantsEnd(n - 1);
  }

  lemma FirstMixed(w: Bits, top: Bits)
    requires |w| == 30 && |top| == 5 && Low(w) == Zeros(5)
    ensures Low(Mixed(w, top, 2)) == [top[4], top[3], top[3], top[4], top[3]]
  {
    LowMixed(w, top, 1);
    LowMixed(w, top, 2);
  }

  lemma ThirdMixed(w: Bits, top: Bits)
    requires |w| == 30 && |top| == 5 && Low(w) == Zeros(5)
    ensures Low(Mixed(w, top, 3)) == [top[4] != top[2], top[3] != top[2], top[3], top[4] != top[2], top[3]]
  {
    FirstMixed(w, top);
    LowMixed(w, top, 3);
  }

  lemma FourthMixed(w: Bits, top: Bits)
    requires |w| == 30 && |top| == 5 && Low(w) == Zeros(5)
    ensures
      var p, q := top[2] != top[1], top[3] != top[1];
      Low(Mixed(w, top, 4)) == [top[4] != p, top[3] != p, q, top[4] != top[2], q]
  {
    ThirdMixed(w, top);
    LowMixed(w, top, 4);
  }

  /** They are independent: what five bits mix into the last five tells the bits. */
  lemma MixingTells(w: Bits, top: Bits)
    requires |w| == 30 && |top| == 5 && Low(w) == Zeros(5) && Low(Mixed(w, top, 5)) == Zeros(5)
    ensures top == Zeros(5)
  {
    FourthMixed(w, top);
    LowMixed(w, top, 5);
    var low := Low(Mixed(w, top, 5));
    assert !low[0] && !low[1] && !low[2] && !low[3] && !low[4];
  }

  /** Only nothing is turned into nothing by a zero. */
  lemma StepKeepsSomething(d: Bits)
    requires |d| == 30 && Step(d, 0) == Zeros(30)
    ensures d == Zeros(30)
  {
    var w := d[5..] + ToBits(0, 5);
    ZeroBits(5);
    assert Low(w) == Zeros(5);
    MixingTells(w, d[..5]);
    NothingMixed(w, 5);
    assert d == d[..5] + d[5..];
    assert d[5..] == w[..25];
  }

  lemma XorIsZero(a: Bits, b: Bits)
    requires |a| == |b|
    ensures Xor(a, b) == Zeros(|a|) <==> a == b
  {
    if Xor(a, b) == Zeros(|a|) {
      forall i | 0 <= i < |a| ensures a[i] == b[i] {
        assert !Xor(a, b)[i];
      }
    }
  }

  lemma StepIsInjective(s: Bits, r: Bits, v: nat)
    requires |s| == |r| == 30 && Step(s, v) == Step(r, v)
    ensures s == r
  {
    var d := Xor(s, r);
    assert Xor(d, r) == s;
    StepSplits(d, r, v);
    XorZeros(Step(r, v));
    XorCancels(Step(r, v), Step(d, 0), Zeros(30));
    assert Xor(Step(r, v), Step(d, 0)) == Xor(Step(d, 0), Step(r, v));
    StepKeepsSomething(d);
    XorIsZero(s, r);
  }

  lemma {:induction false} FoldIsInjective(s: Bits, r: Bits, vs: seq<nat>)
    requires |s| == |r| == 30 && Fold(s, vs) == Fold(r, vs)
    ensures s == r
    decreases |vs|
  {
    if vs != [] {
      FoldIsInjective(Step(s, vs[0]), Step(r, vs[0]), vs[1..]);
      StepIsInjective(s, r, vs[0]);
    }
  }

  lemma FlatIsInjective(x: seq<nat>, y: seq<nat>)
    requires Below(x, 32) && Below(y, 32) && Flatten(x, 5) == Flatten(y, 5)
    ensures x == y
  {
    assert Two(5) == 32;
    GroupsOfFlat(x, 5, []);
    GroupsOfFlat(y, 5, []);
  }

  lemma WindowIsInjective(s: Bits, x: seq<nat>, y: seq<nat>)
    requires |s| == 30 && |x| == |y| <= 6 && Below(x, 32) && Below(y, 32) && Fold(s, x) == Fold(s, y)
    ensures x == y
  {
    FoldIsAffine(s, x);
    FoldIsAffine(s, y);
    PutOnTells(Fold(s, Nothing(|x|)), Flatten(x, 5), Flatten(y, 5));
    FlatIsInjective(x, y);
  }

  /** Two texts that differ only inside six neighbouring symbols never share a checksum, wherever they differ. */
  lemma BurstIsCaught(before: seq<nat>, x: seq<nat>, y: seq<nat>, after: seq<nat>)
    requires |x| == |y| <= 6 && Below(x, 32) && Below(y, 32)
    ensures Fold(Word(1), before + x + after) == Fold(Word(1), before + y + after) <==> x == y
  {
    var s := Fold(Word(1), before);
    FoldAppends(Word(1), before + x, after);
    FoldAppends(Word(1), before, x);
    FoldAppends(Word(1), before + y, after);
    FoldAppends(Word(1), before, y);
    if Fold(Word(1), before + x + after) == Fold(Word(1), before + y + after) {
      FoldIsInjective(Fold(s, x), Fold(s, y), after);
      WindowIsInjective(s, x, y);
    }
  }
}
