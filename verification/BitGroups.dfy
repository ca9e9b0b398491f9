/** Regrouping bits: `convertBits` of the Bech32 reference, over bytes and five-bit symbols. */
module BitGroups {
  import opened Sequences
  import opened Wrappers

  type Bits = seq<bool>

  function Two(n: nat): (r: nat)
    ensures r > 0
  {
    if n == 0 then 1 else 2 * Two(n - 1)
  }

  /** The low `n` bits of a number, the highest first. */
  function ToBits(v: nat, n: nat): (bits: Bits)
    ensures |bits| == n
  {
    if n == 0 then [] else ToBits(v / 2, n - 1) + [v % 2 == 1]
  }

  function FromBits(bits: Bits): nat {
    if bits == [] then 0 else 2 * FromBits(bits[..|bits| - 1]) + if bits[|bits| - 1] then 1 else 0
  }

  lemma {:induction false} FromToBits(v: nat, n: nat)
    requires v < Two(n)
    ensures FromBits(ToBits(v, n)) == v
  {
    if n > 0 {
      FromToBits(v / 2, n - 1);
      assert ToBits(v, n)[..n - 1] == ToBits(v / 2, n - 1);
    }
  }

  lemma {:induction false} ToFromBits(bits: Bits)
    ensures ToBits(FromBits(bits), |bits|) == bits && FromBits(bits) < Two(|bits|)
  {
    if bits != [] {
      var init, last := bits[..|bits| - 1], bits[|bits| - 1];
      ToFromBits(init);
      assert bits == init + [last];
    }
  }

  /** All the bits of a list of `n`-bit values. */
  function Flatten(vs: seq<nat>, n: nat): Bits {
    if vs == [] then [] else ToBits(vs[0], n) + Flatten(vs[1..], n)
  }

  /** As many whole groups of `n` bits as there are. */
  function Groups(bits: Bits, n: nat): seq<nat>
    requires n > 0
    decreases |bits|
  {
    if |bits| < n then [] else [FromBits(bits[..n])] + Groups(bits[n..], n)
  }

  /** The bits that fill no group. */
  function Leftover(bits: Bits, n: nat): (left: Bits)
    requires n > 0
    ensures |left| < n
    decreases |bits|
  {
    if |bits| < n then bits else Leftover(bits[n..], n)
  }

  predicate AllZero(bits: Bits) { forall k :: 0 <= k < |bits| ==> !bits[k] }

  function Zeros(n: nat): Bits { seq(n, _ => false) }

  /** What is left over, filled up with zeros to a group. */
  function PaddedGroup(bits: Bits, n: nat): nat
    requires |bits| <= n
  {
    FromBits(bits + Zeros(n - |bits|))
  }

  /** `convertBits`: without padding, more than a source value left over or a bit set in it is refused. */
  function Convert(vs: seq<nat>, from: nat, to: nat, pad: bool): Option<seq<nat>>
    requires from > 0 && to > 0
  {
    var bits := Flatten(vs, from);
    var left := Leftover(bits, to);
    if pad then Some(Groups(bits, to) + if left == [] then [] else [PaddedGroup(left, to)])
    else if |left| >= from || !AllZero(left) then None
    else Some(Groups(bits, to))
  }

  // ---- bytes to symbols and back -----------------------------------------------------------------

  lemma GroupInFront(group: Bits, rest: Bits, n: nat)
    requires n > 0 && |group| == n
    ensures Groups(group + rest, n) == [FromBits(group)] + Groups(rest, n)
        && Leftover(group + rest, n) == Leftover(rest, n)
  {
    assert (group + rest)[..n] == group && (group + rest)[n..] == rest;
  }

  lemma {:induction false} GroupsOfFlat(vs: seq<nat>, n: nat, tail: Bits)
    requires n > 0 && Below(vs, Two(n)) && |tail| < n
    ensures Groups(Flatten(vs, n) + tail, n) == vs && Leftover(Flatten(vs, n) + tail, n) == tail
  {
    if vs == [] {
      assert Flatten(vs, n) + tail == tail;
    } else {
      GroupsOfFlat(vs[1..], n, tail);
      FromToBits(vs[0], n);
      GroupInFront(ToBits(vs[0], n), Flatten(vs[1..], n) + tail, n);
      assert Flatten(vs, n) + tail == ToBits(vs[0], n) + (Flatten(vs[1..], n) + tail);
      assert vs == [vs[0]] + vs[1..];
    }
  }

  /** Groups and what is left over are all the bits. */
  lemma {:induction false} FlatOfGroups(bits: Bits, n: nat)
    requires n > 0
    ensures Flatten(Groups(bits, n), n) + Leftover(bits, n) == bits && Below(Groups(bits, n), Two(n))
    decreases |bits|
  {
    if |bits| < n {
      assert [] + bits == bits;
    } else {
      var first, rest := bits[..n], bits[n..];
      FlatOfGroups(rest, n);
      ToFromBits(first);
      FlattenFront(FromBits(first), Groups(rest, n), n);
      FrontAndBack(first, Flatten(Groups(rest, n), n), Leftover(rest, n), bits);
    }
  }

  lemma FlattenFront(v: nat, vs: seq<nat>, n: nat)
    ensures Flatten([v] + vs, n) == ToBits(v, n) + Flatten(vs, n)
  {
    assert ([v] + vs)[1..] == vs;
  }

  lemma FrontAndBack(first: Bits, a: Bits, b: Bits, bits: Bits)
    requires |first| <= |bits| && first == bits[..|first|] && a + b == bits[|first|..]
    ensures (first + a) + b == bits
  {
    assert (first + a) + b == first + (a + b);
  }

  lemma {:induction false} FlattenMore(vs: seq<nat>, v: nat, n: nat)
    ensures Flatten(vs + [v], n) == Flatten(vs, n) + ToBits(v, n)
  {
    if vs == [] {
      assert [] + [v] == [v];
      FlattenFront(v, [], n);
      assert [v] + [] == [v];
    } else {
      FlattenMore(vs[1..], v, n);
      FlattenFront(vs[0], vs[1..] + [v], n);
      assert [vs[0]] + (vs[1..] + [v]) == vs + [v];
    }
  }

  ghost predicate PaddedBits(symbols: seq<nat>, bits: Bits, p: nat) { p < 5 && Flatten(symbols, 5) == bits + Zeros(p) }

  lemma NothingLeft(groups: seq<nat>, bits: Bits)
    requires Flatten(groups, 5) + [] == bits
    ensures PaddedBits(groups, bits, 0)
  {
    assert Zeros(0) == [];
    assert Flatten(groups, 5) == bits + [];
  }

  lemma SomeLeft(groups: seq<nat>, left: Bits, bits: Bits)
    requires Flatten(groups, 5) + left == bits && 0 < |left| < 5
    ensures PaddedBits(groups + [PaddedGroup(left, 5)], bits, 5 - |left|) && PaddedGroup(left, 5) < Two(5)
  {
    var zeros := Zeros(5 - |left|);
    ToFromBits(left + zeros);
    FlattenMore(groups, PaddedGroup(left, 5), 5);
    assert Flatten(groups, 5) + (left + zeros) == (Flatten(groups, 5) + left) + zeros;
  }

  /** The symbols of some bytes stand for the bytes' bits and fewer zeros than a symbol. */
  lemma SymbolsAreBits(bytes: seq<nat>) returns (p: nat)
    ensures Below(Convert(bytes, 8, 5, true).value, 32)
        && PaddedBits(Convert(bytes, 8, 5, true).value, Flatten(bytes, 8), p)
  {
    var bits := Flatten(bytes, 8);
    var groups, left := Groups(bits, 5), Leftover(bits, 5);
    FlatOfGroups(bits, 5);
    assert Two(5) == 32;
    if left == [] {
      assert groups + [] == groups;
      NothingLeft(groups, bits);
      p := 0;
    } else {
      SomeLeft(groups, left, bits);
      p := 5 - |left|;
    }
  }

  /** Eight to five with padding and back to eight without loses nothing. */
  lemma RegroupingLosesNothing(bytes: seq<nat>)
    requires Below(bytes, 256)
    ensures Convert(bytes, 8, 5, true).Some? && Convert(Convert(bytes, 8, 5, true).value, 5, 8, false) == Some(bytes)
  {
    var symbols := Convert(bytes, 8, 5, true).value;
    var p := SymbolsAreBits(bytes);
    assert Two(8) == 256;
    GroupsOfFlat(bytes, 8, Zeros(p));
  }

  lemma CutSymbol(v: nat, cut: nat)
    requires v < 32 && cut <= 5 && AllZero(ToBits(v, 5)[cut..])
    ensures PaddedGroup(ToBits(v, 5)[..cut], 5) == v
  {
    var five := ToBits(v, 5);
    assert five[cut..] == Zeros(5 - cut);
    assert five[..cut] + five[cut..] == five;
    assert Two(5) == 32;
    FromToBits(v, 5);
  }

  lemma LastSymbol(init: seq<nat>, last: nat, bits: Bits, left: Bits)
    requires Below(init, 32) && last < 32 && Flatten(init, 5) + ToBits(last, 5) == bits + left && 0 < |left| < 5
        && AllZero(left)
    ensures Groups(bits, 5) == init && 0 < |Leftover(bits, 5)| < 5 && PaddedGroup(Leftover(bits, 5), 5) == last
  {
    var five, cut := ToBits(last, 5), 5 - |left|;
    SameEnds(Flatten(init, 5), five, bits, left);
    assert Two(5) == 32;
    GroupsOfFlat(init, 5, five[..cut]);
    CutSymbol(last, cut);
  }

  lemma SameEnds(front: Bits, five: Bits, bits: Bits, left: Bits)
    requires |five| == 5 && |left| < 5 && front + five == bits + left
    ensures bits == front + five[..5 - |left|] && left == five[5 - |left|..]
  {
    var all, cut := front + five, 5 - |left|;
    assert |bits| == |front| + cut;
    assert all[..|bits|] == bits && all[|bits|..] == left;
    assert all[..|bits|] == front + five[..cut] && all[|bits|..] == five[cut..];
  }

  /** Symbols taken back to bytes without padding are the symbols of those bytes. */
  lemma RegroupingIsExact(symbols: seq<nat>, bytes: seq<nat>)
    requires Below(symbols, 32) && Convert(symbols, 5, 8, false) == Some(bytes)
    ensures Convert(bytes, 8, 5, true) == Some(symbols) && Below(bytes, 256)
  {
    var bits := Flatten(symbols, 5);
    var left := Leftover(bits, 8);
    FlatOfGroups(bits, 8);
    assert Two(8) == 256;
    if left == [] {
      assert Flatten(bytes, 8) + [] == Flatten(bytes, 8);
      assert Two(5) == 32;
      GroupsOfFlat(symbols, 5, []);
      assert bits + [] == bits;
      assert symbols + [] == symbols;
    } else {
      assert symbols != [];
      var init, last := symbols[..|symbols| - 1], symbols[|symbols| - 1];
      assert symbols == init + [last];
      FlattenMore(init, last, 5);
      LastSymbol(init, last, Flatten(bytes, 8), left);
    }
  }

  // ---- the accumulator ------------------------------------------------------------------------------

  /** `x << n`. */
  function Shl(x: nat, n: nat): nat { if n == 0 then x else 2 * Shl(x, n - 1) }

  /** `x >> n`. */
  function Shr(x: nat, n: nat): nat { if n == 0 then x else Shr(x / 2, n - 1) }

  /** `x` and a mask of `n` ones. */
  function Mask(x: nat, n: nat): (r: nat)
    ensures r < Two(n)
  {
    if n == 0 then 0 else 2 * Mask(x / 2, n - 1) + x % 2
  }

  /** Shifting in a value appends its bits. */
  lemma {:induction false} ShiftIn(a: nat, v: nat, n: nat, m: nat)
    requires v < Two(n)
    ensures ToBits(Shl(a, n) + v, m + n) == ToBits(a, m) + ToBits(v, n)
    decreases n
  {
    if n == 0 {
      assert ToBits(a, m) + [] == ToBits(a, m);
    } else {
      ShiftIn(a, v / 2, n - 1, m);
      assert (Shl(a, n) + v) / 2 == Shl(a, n - 1) + v / 2;
      assert ToBits(a, m) + (ToBits(v / 2, n - 1) + [v % 2 == 1])
          == (ToBits(a, m) + ToBits(v / 2, n - 1)) + [v % 2 == 1];
    }
  }

  /** A mask keeps the bits under it. */
  lemma {:induction false} MaskKeeps(x: nat, k: nat, n: nat)
    requires n <= k
    ensures ToBits(Mask(x, k), n) == ToBits(x, n)
    decreases n
  {
    if n > 0 {
      MaskKeeps(x / 2, k - 1, n - 1);
    }
  }

  /** Shifting out gives the upper bits, and the lower ones stay. */
  lemma {:induction false} ShiftOut(x: nat, b: nat, n: nat)
    ensures ToBits(x, n + b) == ToBits(Shr(x, b), n) + ToBits(x, b)
    decreases b
  {
    if b == 0 {
      assert ToBits(x, n) + [] == ToBits(x, n);
    } else {
      ShiftOut(x / 2, b - 1, n);
      assert ToBits(Shr(x, b), n) + (ToBits(x / 2, b - 1) + [x % 2 == 1])
          == (ToBits(Shr(x, b), n) + ToBits(x / 2, b - 1)) + [x % 2 == 1];
    }
  }

  /** The values read so far as groups written and bits still in the accumulator. */
  ghost predicate Pending(vs: seq<nat>, from: nat, out: seq<nat>, to: nat, acc: nat, bits: nat) {
    Flatten(vs, from) == Flatten(out, to) + ToBits(acc, bits) && Below(out, Two(to))
  }

  lemma PendingIn(vs: seq<nat>, v: nat, from: nat, out: seq<nat>, to: nat, acc: nat, bits: nat)
    requires v < Two(from) && bits < to && Pending(vs, from, out, to, acc, bits)
    ensures Pending(vs + [v], from, out, to, Mask(Shl(acc, from) + v, from + to - 1), bits + from)
  {
    FlattenMore(vs, v, from);
    ShiftIn(acc, v, from, bits);
    MaskKeeps(Shl(acc, from) + v, from + to - 1, bits + from);
    assert (Flatten(out, to) + ToBits(acc, bits)) + ToBits(v, from)
        == Flatten(out, to) + (ToBits(acc, bits) + ToBits(v, from));
  }

  lemma PendingNext(vs: seq<nat>, i: nat, from: nat, out: seq<nat>, to: nat, acc: nat, bits: nat)
    requires i < |vs| && vs[i] < Two(from) && bits < to && Pending(vs[..i], from, out, to, acc, bits)
    ensures Pending(vs[..i + 1], from, out, to, Mask(Shl(acc, from) + vs[i], from + to - 1), bits + from)
  {
    PendingIn(vs[..i], vs[i], from, out, to, acc, bits);
    assert vs[..i + 1] == vs[..i] + [vs[i]];
  }

  lemma PendingOut(vs: seq<nat>, from: nat, out: seq<nat>, to: nat, acc: nat, bits: nat)
    requires Pending(vs, from, out, to, acc, bits + to)
    ensures Pending(vs, from, out + [Mask(Shr(acc, bits), to)], to, acc, bits)
  {
    var g := Mask(Shr(acc, bits), to);
    ShiftOut(acc, bits, to);
    MaskKeeps(Shr(acc, bits), to, to);
    FlattenMore(out, g, to);
    assert (Flatten(out, to) + ToBits(g, to)) + ToBits(acc, bits)
        == Flatten(out, to) + (ToBits(g, to) + ToBits(acc, bits));
  }

  lemma {:induction false} ZeroBits(n: nat)
    ensures ToBits(0, n) == Zeros(n)
  {
    if n > 0 {
      ZeroBits(n - 1);
    }
  }

  /** The accumulator shifted up to a group is the padded group. */
  lemma PaddingIs(acc: nat, bits: nat, to: nat)
    requires bits < to
    ensures Mask(Shl(acc, to - bits), to) == PaddedGroup(ToBits(acc, bits), to)
  {
    ShiftIn(acc, 0, to - bits, bits);
    ZeroBits(to - bits);
    MaskKeeps(Shl(acc, to - bits), to, to);
    FromToBits(Mask(Shl(acc, to - bits), to), to);
  }

  lemma {:induction false} ZeroMeansZero(bits: Bits)
    ensures FromBits(bits) == 0 <==> AllZero(bits)
  {
    if bits != [] {
      var init, last := bits[..|bits| - 1], bits[|bits| - 1];
      ZeroMeansZero(init);
      assert bits == init + [last];
      assert AllZero(bits) <==> AllZero(init) && !last;
    }
  }

  lemma PaddingIsZero(left: Bits, to: nat)
    requires |left| < to
    ensures PaddedGroup(left, to) == 0 <==> AllZero(left)
  {
    var full := left + Zeros(to - |left|);
    ZeroMeansZero(full);
    assert AllZero(full) <==> AllZero(left) by {
      assert forall k :: 0 <= k < |left| ==> full[k] == left[k];
      assert forall k :: |left| <= k < to ==> !full[k];
    }
  }

  lemma PendingEnds(vs: seq<nat>, from: nat, out: seq<nat>, to: nat, acc: nat, bits: nat)
    requires to > 0 && bits < to && Pending(vs, from, out, to, acc, bits)
    ensures Groups(Flatten(vs, from), to) == out && Leftover(Flatten(vs, from), to) == ToBits(acc, bits)
  {
    GroupsOfFlat(out, to, ToBits(acc, bits));
  }

  lemma ConvertEnds(vs: seq<nat>, from: nat, out: seq<nat>, to: nat, acc: nat, bits: nat)
    requires from > 0 && to > 0 && bits < to && Pending(vs, from, out, to, acc, bits)
    ensures
      var last := Mask(Shl(acc, to - bits), to);
      Convert(vs, from, to, true) == Some(out + if bits > 0 then [last] else [])
      && Convert(vs, from, to, false) == if bits >= from || last != 0 then None else Some(out)
  {
    PendingEnds(vs, from, out, to, acc, bits);
    PaddingIs(acc, bits, to);
    PaddingIsZero(ToBits(acc, bits), to);
  }

  /** The inner loop of `convertBits`: whole groups leave the accumulator. */
  method WriteGroups(ghost vs: seq<nat>, ghost from: nat, out: seq<nat>, to: nat, acc: nat, bits: nat)
        returns (out': seq<nat>, bits': nat)
    requires to > 0 && Pending(vs, from, out, to, acc, bits)
    ensures bits' < to && Pending(vs, from, out', to, acc, bits')
  {
    out', bits' := out, bits;
    while bits' >= to
      invariant Pending(vs, from, out', to, acc, bits')
    {
      bits' := bits' - to;
      PendingOut(vs, from, out', to, acc, bits');
      out' := out' + [Mask(Shr(acc, bits'), to)];
    }
  }

  /** `convertBits`. */
  method ConvertBits(vs: seq<nat>, from: nat, to: nat, pad: bool) returns (result: Option<seq<nat>>)
    requires from > 0 && to > 0 && Below(vs, Two(from))
    ensures result == Convert(vs, from, to, pad)
  {
    var acc: nat, bits: nat, out: seq<nat> := 0, 0, [];
    assert vs[..0] == [];
    for i := 0 to |vs|
      invariant 0 <= bits < to && Pending(vs[..i], from, out, to, acc, bits)
    {
      PendingNext(vs, i, from, out, to, acc, bits);
      acc := Mask(Shl(acc, from) + vs[i], from + to - 1);
      out, bits := WriteGroups(vs[..i + 1], from, out, to, acc, bits + from);
    }
    assert vs[..|vs|] == vs;
    ConvertEnds(vs, from, out, to, acc, bits);
    var last := Mask(Shl(acc, to - bits), to);
    if pad {
      result := Some(out + if bits > 0 then [last] else []);
    } else {
      result := if bits >= from || last != 0 then None else Some(out);
    }
  }
}
