/**
Segwit addresses as BIP173 and BIP350 give them: which characters an address consists of, in terms of base 32,
base 256 and a division over the field of thirty-two elements.
 */
module SegwitForms {
  import opened Sequences
  import opened Wrappers
  import opened BitGroups
  import opened Bech32
  import opened Bech32Field
  import opened Segwit
  import opened WrittenForms
  import Radix

  const SYMBOLS: string := "qpzry9x8gf2tvdw0s3jn54khce6mua7l"

  function Letter(n: nat): char
    requires n < 32
  {
    SYMBOLS[n]
  }

  lemma SymbolForms(n: nat)
    requires n < 32
    ensures Symbol(n) == Letter(n) && Rev(Letter(n)) == Some(n)
  {
  }

  /** The prefix before the checksum: the high bits of its characters, a zero, the low bits. */
  function Spread(hrp: string): seq<nat> {
    seq(|hrp|, i requires 0 <= i < |hrp| => hrp[i] as nat / 32) + [0]
      + seq(|hrp|, i requires 0 <= i < |hrp| => hrp[i] as nat % 32)
  }

  /** A text is accepted exactly for two remainders, each naming its variant. */
  lemma RemainderDecides(hrp: string, vs: seq<nat>)
    requires Printable(hrp) && |vs| >= 6 && Below(vs, 32)
    ensures
      var r := Turns([0, 0, 0, 0, 0, 1], Spread(hrp) + vs);
      Checked(hrp, vs) ==
        if r == [0, 0, 0, 0, 0, 1] then Some(Text(hrp, vs[..|vs| - 6], Word(1)))
        else if r == [21, 28, 16, 12, 5, 3] then Some(Text(hrp, vs[..|vs| - 6], Word(0x2bc830a3)))
        else None
  {
    hide Fold, Turns, Word, Flatten;
    assert Spread(hrp) == Expand(hrp);
    EndsAs(Spread(hrp) + vs);
    ConstantsAre();
    SameWord([0, 0, 0, 0, 0, 1], [21, 28, 16, 12, 5, 3]);
  }

  // ---- reading a text ----------------------------------------------------------------------------------

  /** The letter of a symbol, small or capital. */
  predicate Stands(c: char, v: nat)
    requires v < 32
  {
    c == Letter(v) || ('a' <= Letter(v) <= 'z' && c as nat + 32 == Letter(v) as nat)
  }

  lemma RevIsLower(c: char)
    ensures Rev(c) == Rev(Lower(c))
  {
    assert Lower(Lower(c)) == Lower(c);
  }

  lemma LettersAreSmall(v: nat)
    requires v < 32
    ensures Lower(Letter(v)) == Letter(v) && Letter(v) != '1' && ('0' <= Letter(v) <= '9' || 'a' <= Letter(v) <= 'z')
  {
  }

  lemma LetterReads(c: char, v: nat)
    requires v < 32 && Stands(c, v)
    ensures Rev(c) == Some(v) && c != '1'
  {
    hide Rev;
    SymbolForms(v);
    RevIsLower(c);
    RevIsLower(Letter(v));
    LettersAreSmall(v);
  }

  lemma {:induction false} LettersRead(s: string, vs: seq<nat>)
    requires |s| == |vs| && Below(vs, 32) && forall k :: 0 <= k < |s| ==> Stands(s[k], vs[k])
    ensures Values(s) == Some(vs) && '1' !in s
  {
    hide Rev, Stands;
    if s != [] {
      LetterReads(s[0], vs[0]);
      LettersRead(s[1..], vs[1..]);
      assert vs == [vs[0]] + vs[1..];
    }
  }

  lemma {:induction false} LastOneIs(s: string, p: nat)
    requires p < |s| && s[p] == '1' && '1' !in s[p + 1..]
    ensures LastOne(s) == p
  {
    if p < |s| - 1 {
      assert s[|s| - 1] == s[p + 1..][|s| - p - 2];
      assert s[..|s| - 1][p + 1..] == s[p + 1..][..|s| - p - 2];
      LastOneIs(s[..|s| - 1], p);
    }
  }

  /** Up to ninety characters, none of them a space or outside ASCII, of one case, six symbols at least. */
  predicate Proper(s: string, p: nat) {
    && |s| <= 90 && (forall i :: 0 <= i < |s| ==> 33 <= s[i] as nat <= 126)
    && ((forall i :: 0 <= i < |s| ==> !('A' <= s[i] <= 'Z')) || (forall i :: 0 <= i < |s| ==> !('a' <= s[i] <= 'z')))
    && 0 < p && p + 7 <= |s|
  }

  lemma ProperIs(s: string, p: nat)
    requires LastOne(s) == p
    ensures Formed(s) <==> Proper(s, p)
  {
  }

  lemma LowerIsPrintable(s: string)
    requires forall i :: 0 <= i < |s| ==> 33 <= s[i] as nat <= 126
    ensures Printable(LowerAll(s))
  {
  }

  /** What a text with letters behind its last one is read as. */
  lemma TextReads(s: string, p: nat, vs: seq<nat>)
    requires p < |s| && s[p] == '1' && |vs| == |s| - p - 1 && Below(vs, 32)
    requires forall k :: 0 <= k < |vs| ==> Stands(s[p + 1 + k], vs[k])
    ensures
      var hrp := LowerAll(s[..p]);
      var r := Turns([0, 0, 0, 0, 0, 1], Spread(hrp) + vs);
      Decode(s) ==
        if !Proper(s, p) then None
        else if r == [0, 0, 0, 0, 0, 1] then Some(Text(hrp, vs[..|vs| - 6], Word(1)))
        else if r == [21, 28, 16, 12, 5, 3] then Some(Text(hrp, vs[..|vs| - 6], Word(0x2bc830a3)))
        else None
  {
    hide Turns, Spread, Checked, Values, LastOne, Stands, Formed;
    LettersRead(s[p + 1..], vs);
    LastOneIs(s, p);
    ProperIs(s, p);
    if Proper(s, p) {
      LowerIsPrintable(s[..p]);
      RemainderDecides(LowerAll(s[..p]), vs);
    }
  }

  lemma LowerStands(c: char, v: nat)
    requires v < 32 && Lower(c) == Letter(v)
    ensures Stands(c, v)
  {
    LettersAreSmall(v);
  }

  lemma {:induction false} SymbolsAt(vs: seq<nat>, k: nat)
    requires Below(vs, 32) && k < |vs|
    ensures Symbols(vs)[k] == Letter(vs[k])
  {
    if k == 0 {
      SymbolForms(vs[0]);
    } else {
      SymbolsAt(vs[1..], k - 1);
    }
  }

  /** Nothing is read that is not a prefix, a one and letters. */
  lemma ReadsLetters(s: string) returns (p: nat, vs: seq<nat>)
    requires Decode(s).Some?
    ensures p < |s| && s[p] == '1' && |vs| == |s| - p - 1 && Below(vs, 32)
    ensures forall k :: 0 <= k < |vs| ==> Stands(s[p + 1 + k], vs[k])
  {
    hide Stands, Letter, Symbols, Values, Checked;
    p := LastOne(s);
    vs := Values(s[p + 1..]).value;
    SymbolsOfValues(s[p + 1..]);
    forall k | 0 <= k < |vs| ensures Stands(s[p + 1 + k], vs[k]) {
      SymbolsAt(vs, k);
      LowerStands(s[p + 1 + k], vs[k]);
    }
  }

  // ---- writing an address ------------------------------------------------------------------------------

  lemma Doubling(x: nat, power: nat, low: nat)
    ensures 2 * (x * power + low) == x * (2 * power) + 2 * low
  {
  }

  lemma {:induction false} BitsJoin(a: Bits, b: Bits)
    ensures FromBits(a + b) == FromBits(a) * Two(|b|) + FromBits(b)
  {
    if b == [] {
      assert a + b == a;
    } else {
      var init := b[..|b| - 1];
      BitsJoin(a, init);
      Doubling(FromBits(a), Two(|init|), FromBits(init));
      assert (a + b)[..|a + b| - 1] == a + init;
    }
  }

  lemma {:induction false} FlatValue(vs: seq<nat>, n: nat)
    requires Below(vs, Two(n))
    ensures FromBits(Flatten(vs, n)) == Radix.Value(vs, Two(n))
  {
    if vs != [] {
      hide Two, Flatten, FromBits, ToBits;
      var init, last := vs[..|vs| - 1], vs[|vs| - 1];
      FlatValue(init, n);
      FlattenMore(init, last, n);
      BitsJoin(Flatten(init, n), ToBits(last, n));
      FromToBits(last, n);
      assert vs == init + [last];
    }
  }

  lemma {:induction false} NoBits(p: nat)
    ensures FromBits(Zeros(p)) == 0
  {
    if p > 0 {
      NoBits(p - 1);
      assert Zeros(p)[..p - 1] == Zeros(p - 1);
    }
  }

  /** The bytes' number in base 32, after `p` more zero bits. */
  lemma RegroupForm(bytes: seq<nat>) returns (p: nat)
    requires Below(bytes, 256)
    ensures
      var vs := Convert(bytes, 8, 5, true).value;
      Below(vs, 32) && p < 5 && 5 * |vs| == 8 * |bytes| + p && Weighed(vs, 32) == Weighed(bytes, 256) * Two(p)
  {
    var vs := Convert(bytes, 8, 5, true).value;
    p := SymbolsAreBits(bytes);
    assert Two(5) == 32 && Two(8) == 256;
    hide Convert, Flatten, FromBits;
    FlattenLength(vs, 5);
    FlattenLength(bytes, 8);
    FlatValue(vs, 5);
    FlatValue(bytes, 8);
    BitsJoin(Flatten(bytes, 8), Zeros(p));
    NoBits(p);
    WeighedIs(vs, 32);
    WeighedIs(bytes, 256);
  }

  lemma SpreadFits(hrp: string)
    requires Printable(hrp)
    ensures Spread(hrp) == Expand(hrp) && Below(Spread(hrp), 32)
  {
  }

  lemma SixLeave(hrp: string, version: nat, program: seq<nat>)
    requires Printable(hrp) && version <= 16
    ensures Turns(ONE, Spread(hrp) + Written(hrp, version, program)) == if version == 0 then ONE else MODIFIED
  {
    hide Fold, Turns, CheckSymbols, Payload;
    WrittenChecks(hrp, Payload(version, program), Variant(version));
    SpreadFits(hrp);
    EndsAs(Spread(hrp) + Written(hrp, version, program));
  }

  /**
  The address of a version and a program: the prefix, a one, and letters for the version, for the program's
  number in base 32, and for six symbols that leave the remainder of the version's variant.
   */
  lemma AddressForm(hrp: string, version: nat, program: seq<nat>)
      returns (symbols: seq<nat>, six: seq<nat>, all: seq<nat>, p: nat)
    requires Printable(hrp) && version <= 16 && 2 <= |program| <= 40 && Below(program, 256)
    ensures all == [version] + symbols + six && Below(all, 32) && |six| == 6
    ensures p < 5 && 5 * |symbols| == 8 * |program| + p
    ensures Weighed(symbols, 32) == Weighed(program, 256) * Two(p)
    ensures Turns([0, 0, 0, 0, 0, 1], Spread(hrp) + all)
         == if version == 0 then [0, 0, 0, 0, 0, 1] else [21, 28, 16, 12, 5, 3]
    ensures
      var address := EncodeSegwit(hrp, version, program);
      && |address| == |hrp| + 1 + |all| && address[..|hrp|] == hrp && address[|hrp|] == '1'
      && forall k :: 0 <= k < |all| ==> address[|hrp| + 1 + k] == Letter(all[k])
  {
    hide Convert, CheckSymbols, Turns, Weighed, Letter, Two;
    RegroupingLosesNothing(program);
    symbols := Convert(program, 8, 5, true).value;
    six := CheckSymbols(hrp, Payload(version, program), Variant(version));
    p := RegroupForm(program);
    all := Written(hrp, version, program);
    SixLeave(hrp, version, program);
    forall k | 0 <= k < |all| ensures Symbols(all)[k] == Letter(all[k]) {
      SymbolsAt(all, k);
    }
  }
}
