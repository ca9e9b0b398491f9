/**
The small formats byte by byte. The round trips elsewhere say that a reader and a writer agree; here is what
they agree on.
 */
module WrittenForms {
  import opened Sequences
  import opened ByteData
  import opened Wrappers
  import WireFormat
  import WireParts
  import WireTx
  import WireBlock
  import LinkedOutputs
  import VarInt
  import Rlp
  import Base58
  import Radix

  // ---- sizes and integers ---------------------------------------------------------------------------

  lemma TwoLittle(v: nat)
    ensures WireFormat.ToLittle(v, 2) == [(v % 256) as Byte, (v / 256 % 256) as Byte]
  {
    assert WireFormat.ToLittle(v / 256, 1) == [(v / 256 % 256) as Byte] + WireFormat.ToLittle(v / 256 / 256, 0);
  }

  lemma FourLittle(v: nat)
    ensures WireFormat.ToLittle(v, 4)
         == [(v % 256) as Byte, (v / 256 % 256) as Byte, (v / 0x1_0000 % 256) as Byte, (v / 0x100_0000 % 256) as Byte]
  {
    assert v / 256 / 256 == v / 0x1_0000 && v / 0x1_0000 / 256 == v / 0x100_0000;
    TwoLittle(v / 0x1_0000);
    assert WireFormat.ToLittle(v / 256, 3) == [(v / 256 % 256) as Byte] + WireFormat.ToLittle(v / 0x1_0000, 2);
  }

  function Without(v: nat, m: nat): nat { if m == 0 then v else Without(v / 256, m - 1) }

  lemma {:induction false} LittleSplits(v: nat, m: nat, n: nat)
    ensures WireFormat.ToLittle(v, m + n) == WireFormat.ToLittle(v, m) + WireFormat.ToLittle(Without(v, m), n)
  {
    if m > 0 {
      LittleSplits(v / 256, m - 1, n);
    }
  }

  lemma EightLittle(v: nat)
    ensures WireFormat.ToLittle(v, 8) == WireFormat.ToLittle(v, 4) + WireFormat.ToLittle(v / 0x1_0000_0000, 4)
  {
    LittleSplits(v, 4, 4);
    assert v / 256 / 256 == v / 0x1_0000 && v / 0x1_0000 / 256 == v / 0x100_0000;
    assert v / 0x100_0000 / 256 == v / 0x1_0000_0000 == Without(v / 0x1_0000_0000, 0);
    assert Without(v / 0x1_0000, 2) == Without(v / 0x100_0000, 1) == v / 0x1_0000_0000;
    assert Without(v, 4) == Without(v / 256, 3) == Without(v / 0x1_0000, 2);
  }

  /** A compact size: one byte below 253, else a marker and two, four or eight bytes, the lowest first. */
  lemma SizeForms(v: nat)
    ensures v < 253 ==> WireFormat.WriteSize(v) == [v as Byte]
    ensures 253 <= v < 0x1_0000 ==> WireFormat.WriteSize(v) == [253, (v % 256) as Byte, (v / 256) as Byte]
    ensures 0x1_0000 <= v < 0x1_0000_0000 ==>
        WireFormat.WriteSize(v) == [254, (v % 256) as Byte, (v / 256 % 256) as Byte, (v / 0x1_0000 % 256) as Byte,
          (v / 0x100_0000) as Byte]
    ensures 0x1_0000_0000 <= v < 0x1_0000_0000_0000_0000 ==>
        var w := v / 0x1_0000_0000;
        WireFormat.WriteSize(v) == [255, (v % 256) as Byte, (v / 256 % 256) as Byte, (v / 0x1_0000 % 256) as Byte,
          (v / 0x100_0000 % 256) as Byte, (w % 256) as Byte, (w / 256 % 256) as Byte, (w / 0x1_0000 % 256) as Byte,
          (w / 0x100_0000) as Byte]
  {
    hide WireFormat.ToLittle;
    TwoLittle(v);
    FourLittle(v);
    EightLittle(v);
    FourLittle(v / 0x1_0000_0000);
  }

  /** The limit is 32 MiB: a longer size is written and refused. */
  lemma SizeLimit(v: nat, rest: Data)
    requires v < 0x1_0000_0000_0000_0000
    ensures WireFormat.ReadSize(WireFormat.WriteSize(v) + rest)
         == if v <= 33554432 then Some(WireFormat.Parsed(v, rest)) else None
  {
    if v <= 33554432 {
      WireFormat.SizeReadsBack(v, rest);
    } else {
      var n := if v <= 0xFFFF_FFFF then 4 else 8;
      Powers();
      EightBytes();
      WireFormat.LittleReadsBack(v, n);
      WireFormat.TakeReadsBack(WireFormat.ToLittle(v, n), rest);
      assert (WireFormat.WriteSize(v) + rest)[1..] == WireFormat.ToLittle(v, n) + rest;
    }
  }

  /** A base-128 integer: the highest group first, every group but the last marked and one less than its place. */
  lemma IntForms(v: nat)
    ensures v < 128 ==> VarInt.WriteInt(v) == [v as Byte]
    ensures 128 <= v < 16512 ==>
        VarInt.WriteInt(v) == [(128 + (v - 128) / 128) as Byte, ((v - 128) % 128) as Byte]
    ensures 16512 <= v < 2113664 ==>
        var w := v - 16512;
        VarInt.WriteInt(v) == [(128 + w / 16384) as Byte, (128 + w / 128 % 128) as Byte, (w % 128) as Byte]
  {
    if 128 <= v < 16512 {
      assert v / 128 - 1 == (v - 128) / 128 <= 127 && v % 128 == (v - 128) % 128;
      assert VarInt.Groups(v / 128 - 1, true) == [(128 + (v - 128) / 128) as Byte];
    } else if 16512 <= v < 2113664 {
      var w := v - 16512;
      var u := v / 128 - 1;
      assert u == w / 128 + 128 && v % 128 == w % 128;
      assert u / 128 - 1 == w / 16384 <= 127 && u % 128 == w / 128 % 128;
      assert VarInt.Groups(u / 128 - 1, true) == [(128 + w / 16384) as Byte];
      assert VarInt.Groups(u, true) == [(128 + w / 16384) as Byte] + [(128 + w / 128 % 128) as Byte];
    }
  }

  // ---- transactions, blocks and stored outputs ----------------------------------------------------------

  predicate Small(b: Data) { |b| < 253 }

  lemma OneItem<T>(write: T -> Data, v: T)
    ensures WireFormat.WriteVec(write, [v]) == [1] + write(v)
  {
    assert WireFormat.WriteItems(write, [v][1..]) == [];
  }

  lemma InForm(i: WireParts.TxIn)
    requires Small(i.script)
    ensures WireFormat.WriteVec(WireParts.WriteTxIn, [i])
         == [1] + i.hash + i.index + [|i.script| as Byte] + i.script + i.sequence
  {
    OneItem(WireParts.WriteTxIn, i);
  }

  lemma OutForm(o: WireParts.TxOut)
    requires Small(o.script)
    ensures WireFormat.WriteVec(WireParts.WriteTxOut, [o]) == [1] + o.amount + [|o.script| as Byte] + o.script
  {
    OneItem(WireParts.WriteTxOut, o);
  }

  lemma StackForm(i: WireParts.TxIn, w: Data)
    requires Small(w) && i.stack == [w]
    ensures WireParts.WriteStacks([i]) == [1, |w| as Byte] + w
  {
    OneItem(WireFormat.WriteBytes, w);
    assert WireParts.WriteStacks([i][1..]) == [];
  }

  /** One input and one output without a witness: no marker. */
  lemma PlainForm<M>(x: WireTx.Ext<M>, version: Data, i: WireParts.TxIn, o: WireParts.TxOut, lock: Data)
    requires Small(i.script) && Small(o.script) && i.stack == []
    ensures WireTx.WriteTx(x, WireTx.Tx(version, [i], [o], lock, [], false))
         == version
            + ([1] + i.hash + i.index + [|i.script| as Byte] + i.script + i.sequence)
            + ([1] + o.amount + [|o.script| as Byte] + o.script)
            + lock
  {
    hide WireFormat.WriteVec;
    InForm(i);
    OutForm(o);
  }

  /** Litecoin's flag is eight; an object of the extension follows the lists, or nothing does in a HogEx. */
  lemma ExtensionForm<M>(x: WireTx.Ext<M>, version: Data, i: WireParts.TxIn, o: WireParts.TxOut, lock: Data, m: M)
    requires Small(i.script) && Small(o.script) && i.stack == [] && x.used
    ensures
      var lists := ([1] + i.hash + i.index + [|i.script| as Byte] + i.script + i.sequence)
            + ([1] + o.amount + [|o.script| as Byte] + o.script);
      && WireTx.WriteTx(x, WireTx.Tx(version, [i], [o], lock, [m], false))
           == version + [0, 8] + lists + ([1] + x.write(m)) + lock
      && WireTx.WriteTx(x, WireTx.Tx(version, [i], [o], lock, [], true)) == version + [0, 8] + lists + [0] + lock
  {
    InForm(i);
    OutForm(o);
    OneItem(x.write, m);
    assert WireFormat.WriteVec(x.write, []) == [0];
  }

  /** With a witness of one item: a zero and a one in front of the lists, the item behind them. */
  lemma WitnessForm<M>(x: WireTx.Ext<M>, version: Data, i: WireParts.TxIn, o: WireParts.TxOut, w: Data, lock: Data)
    requires Small(i.script) && Small(o.script) && Small(w) && i.stack == [w]
    ensures WireTx.WriteTx(x, WireTx.Tx(version, [i], [o], lock, [], false))
         == version + [0, 1]
            + ([1] + i.hash + i.index + [|i.script| as Byte] + i.script + i.sequence)
            + ([1] + o.amount + [|o.script| as Byte] + o.script)
            + ([1, |w| as Byte] + w)
            + lock
  {
    hide WireFormat.WriteVec, WireParts.WriteStacks;
    InForm(i);
    OutForm(o);
    StackForm(i, w);
    assert [i][0].stack != [];
  }

  /** A block: the header, how many transactions, the transactions. */
  lemma BlockForm<M, B>(x: WireTx.Ext<M>, y: WireTx.Ext<B>, header: Data, tx: WireTx.Tx<M>)
    ensures WireBlock.WriteBlock(x, y, WireBlock.Block(header, [tx], [])) == header + [1] + WireTx.WriteTx(x, tx)
  {
    OneItem((t: WireTx.Tx<M>) => WireTx.WriteTx(x, t), tx);
  }

  lemma {:induction false} OnlyZeros(none: Data)
    requires forall k :: 0 <= k < |none| ==> none[k] == 0
    ensures Little(none) == 0
  {
    if none != [] {
      OnlyZeros(none[1..]);
    }
  }

  lemma AmountForm(amount: Byte)
    ensures Little([amount, 0, 0, 0, 0, 0, 0, 0]) == amount as nat
  {
    OnlyZeros([amount, 0, 0, 0, 0, 0, 0, 0][1..]);
  }

  /** A stored output: its length, its flags, its amount and what is left of it without the zeros at the end. */
  lemma OutputForm(flags: Byte, amount: Byte, tail: Data, n: nat)
    requires amount < 128 && 9 + |tail| + n < 253 && (tail != [] ==> tail[|tail| - 1] != 0)
    ensures
      var record: LinkedOutputs.Record := [flags, amount, 0, 0, 0, 0, 0, 0, 0] + tail + LinkedOutputs.Zeros(n);
      LinkedOutputs.WriteOutput(record) == [(9 + |tail| + n) as Byte, flags, amount, |tail| as Byte] + tail
  {
    hide LinkedOutputs.Trimmed, Little;
    var record: LinkedOutputs.Record := [flags, amount, 0, 0, 0, 0, 0, 0, 0] + tail + LinkedOutputs.Zeros(n);
    AmountForm(amount);
    assert record[1..9] == [amount, 0, 0, 0, 0, 0, 0, 0];
    assert record[9..] == tail + LinkedOutputs.Zeros(n);
    LinkedOutputs.TrimmedOf(tail, n);
  }

  /** Coin words: how many, the highest, and how far below it each is. */
  lemma WordsForm(a: Byte, b: Byte)
    requires b <= a < 128
    ensures LinkedOutputs.WriteWords([a as nat, b as nat]) == [2, a, 0, a - b]
  {
    var ms := [a as nat, b as nat];
    assert ms[1..] == [b as nat] && LinkedOutputs.Top([b as nat]) == b as nat;
    assert LinkedOutputs.WriteDistances(a as nat, [b as nat]) == [a - b];
  }

  // ---- RLP --------------------------------------------------------------------------------------------

  lemma BigForms(v: nat)
    ensures 0 < v < 256 ==> Rlp.BigEndian(v) == [v as Byte]
    ensures 256 <= v < 0x1_0000 ==> Rlp.BigEndian(v) == [(v / 256) as Byte, (v % 256) as Byte]
  {
  }

  lemma StringForms(b: Data)
    ensures |b| == 1 && b[0] < 0x80 ==> Rlp.EncodeBytes(b) == b
    ensures |b| <= 55 && !(|b| == 1 && b[0] < 0x80) ==> Rlp.EncodeBytes(b) == [(0x80 + |b|) as Byte] + b
    ensures 55 < |b| < 256 ==> Rlp.EncodeBytes(b) == [0xB8, |b| as Byte] + b
    ensures 256 <= |b| < 0x1_0000 ==> Rlp.EncodeBytes(b) == [0xB9, (|b| / 256) as Byte, (|b| % 256) as Byte] + b
  {
    hide Rlp.BigEndian;
    BigForms(|b|);
  }

  lemma ListForms(items: Rlp.Items)
    ensures
      var p := Rlp.EncodeItems(items);
      && (|p| <= 55 ==> Rlp.Encode(Rlp.List(items)) == [(0xC0 + |p|) as Byte] + p)
      && (55 < |p| < 256 ==> Rlp.Encode(Rlp.List(items)) == [0xF8, |p| as Byte] + p)
      && (256 <= |p| < 0x1_0000 ==>
            Rlp.Encode(Rlp.List(items)) == [0xF9, (|p| / 256) as Byte, (|p| % 256) as Byte] + p)
  {
    hide Rlp.BigEndian, Rlp.EncodeItems;
    BigForms(|Rlp.EncodeItems(items)|);
  }

  // ---- Base58 --------------------------------------------------------------------------------------------

  ghost predicate Run(s: string, c: char) { forall k :: 0 <= k < |s| ==> s[k] as nat == c as nat + k }

  lemma Runs()
    ensures Run("123456789", '1') && Run("ABCDEFGH", 'A') && Run("JKLMN", 'J') && Run("PQRSTUVWXYZ", 'P')
    ensures Run("abcdefghijk", 'a') && Run("mnopqrstuvwxyz", 'm')
  {
  }

  /** The digits and letters without 0, I, O and l. */
  function Digit(d: nat): char
    requires d < 58
  {
    if d < 9 then "123456789"[d]
    else if d < 17 then "ABCDEFGH"[d - 9]
    else if d < 22 then "JKLMN"[d - 17]
    else if d < 33 then "PQRSTUVWXYZ"[d - 22]
    else if d < 44 then "abcdefghijk"[d - 33]
    else "mnopqrstuvwxyz"[d - 44]
  }

  lemma DigitForms(d: nat)
    requires d < 58
    ensures Base58.CharOf(d) == Digit(d) && Base58.DigitOf(Digit(d)) == Some(d)
  {
    Runs();
    Base58.CharsAreDigits(d);
  }

  /** Digits, each times its place. */
  function Weighed(ds: seq<nat>, b: nat): nat {
    if ds == [] then 0 else ds[0] * Radix.Pow(b, |ds| - 1) + Weighed(ds[1..], b)
  }

  lemma {:induction false} WeighedIs(ds: seq<nat>, b: nat)
    ensures Weighed(ds, b) == Radix.Value(ds, b)
  {
    if ds != [] {
      WeighedIs(ds[1..], b);
      Radix.ValueSplit([ds[0]], ds[1..], b);
      assert [ds[0]] + ds[1..] == ds && Radix.Value([ds[0]], b) == ds[0];
    }
  }

  lemma {:induction false} TextAt(ds: seq<nat>, k: nat)
    requires Below(ds, 58) && k < |ds|
    ensures |Base58.Text(ds)| == |ds| && Base58.Text(ds)[k] == Digit(ds[k])
  {
    Base58.TextHasNoSpaces(ds);
    if k == 0 {
      DigitForms(ds[0]);
    } else {
      TextAt(ds[1..], k - 1);
    }
  }

  /** A text of bytes: a `1` for each zero in front, then the same number in base 58. */
  lemma TextForms(bytes: seq<nat>) returns (z: nat, ds: seq<nat>)
    ensures z <= |bytes| && (forall k :: 0 <= k < z ==> bytes[k] == 0) && (z < |bytes| ==> bytes[z] != 0)
    ensures Below(ds, 58) && (ds != [] ==> ds[0] != 0) && Weighed(ds, 58) == Weighed(bytes[z..], 256)
    ensures
      var s := Base58.Encode(bytes);
      && |s| == z + |ds| && (forall k :: 0 <= k < z ==> s[k] == '1')
      && forall k :: 0 <= k < |ds| ==> s[z + k] == Digit(ds[k])
  {
    z := Base58.Leading(bytes, 0);
    ds := Radix.DigitsOf(Radix.Value(bytes[z..], 256), 58);
    Radix.ValueOfDigits(Radix.Value(bytes[z..], 256), 58);
    WeighedIs(ds, 58);
    WeighedIs(bytes[z..], 256);
    Base58.TextHasNoSpaces(ds);
    forall k | 0 <= k < |ds| ensures Base58.Text(ds)[k] == Digit(ds[k]) {
      TextAt(ds, k);
    }
  }

  /** Space, tab, line feed, vertical tab, form feed, carriage return. */
  predicate Blank(c: char) { c == ' ' || c as nat in {9, 10, 11, 12, 13} }

  lemma {:induction false} BlanksSkipped(a: string, s: string)
    requires (forall k :: 0 <= k < |a| ==> Blank(a[k])) && (s != "" ==> !Blank(s[0]))
    ensures Base58.SkipSpaces(a + s) == s
  {
    if a == "" {
      assert a + s == s;
    } else {
      BlanksSkipped(a[1..], s);
      assert (a + s)[1..] == a[1..] + s;
    }
  }

  lemma {:induction false} WordMeasured(s: string, b: string)
    requires (forall k :: 0 <= k < |s| ==> !Blank(s[k])) && (b != "" ==> Blank(b[0]))
    ensures Base58.WordLength(s + b) == |s|
  {
    if s == "" {
      assert s + b == b;
    } else {
      WordMeasured(s[1..], b);
      assert (s + b)[1..] == s[1..] + b;
    }
  }

  /** Blanks before and behind a word do not count; anything else behind it is refused. */
  lemma WordForms(a: string, s: string, b: string, more: string)
    requires (forall k :: 0 <= k < |a| ==> Blank(a[k])) && (forall k :: 0 <= k < |b| ==> Blank(b[k]))
    requires s != "" && (forall k :: 0 <= k < |s| ==> !Blank(s[k]))
    requires more != "" ==> b != "" && !Blank(more[0])
    ensures Base58.Decode(a + (s + (b + more))) == if more == "" then Base58.DecodeWord(s) else None
  {
    BlanksSkipped(a, s + (b + more));
    WordMeasured(s, b + more);
    BlanksSkipped(b, more);
    assert (s + (b + more))[|s|..] == b + more && (s + (b + more))[..|s|] == s;
  }
}
