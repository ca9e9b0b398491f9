/** Writing then reading a transaction, whole blocks, and where each transaction lies in a stored block. */
module WireBlock {
  import opened ByteData
  import opened Sequences
  import opened Wrappers
  import opened WireFormat
  import opened WireParts
  import opened WireTx

  // ---- what was written is read -------------------------------------------------------------------

  lemma BareIsSame(ins: seq<TxIn>)
    requires InsFit(ins)
    ensures SameBut(ins, Bare(ins)) && All(BareIn, Bare(ins))
        && WriteVec(WriteTxIn, Bare(ins)) == WriteVec(WriteTxIn, ins)
  {
    assert SameBut(ins, Bare(ins));
    InputsIgnoreWitness(ins, Bare(ins));
  }

  lemma InsReadBack(ins: seq<TxIn>, rest: Data)
    requires InsFit(ins)
    ensures ReadVec(ReadTxIn, WriteVec(WriteTxIn, ins) + rest) == Some(Parsed(Bare(ins), rest))
  {
    BareIsSame(ins);
    LeavesReadBack();
    VecReadsBack(ReadTxIn, WriteTxIn, BareIn, Bare(ins), rest);
  }

  lemma OutsReadBack(ins: seq<TxIn>, flags: nat, outs: seq<TxOut>, rest: Data)
    requires |outs| <= MAX_SERIALIZED_SIZE && All(OutFits, outs)
    ensures ReadOuts(ins, flags, WriteVec(WriteTxOut, outs) + rest) == Some(Parsed(Lists(ins, outs, flags), rest))
  {
    LeavesReadBack();
    VecReadsBack(ReadTxOut, WriteTxOut, OutFits, outs, rest);
  }

  lemma MarkerReads(after: Data)
    ensures ReadVec(ReadTxIn, [0] + after) == Some(Parsed([], after))
  {
    assert ([0] + after)[1..] == after;
  }

  lemma FlaggedListsRead(ins: seq<TxIn>, outs: seq<TxOut>, f: nat, rest: Data)
    requires InsFit(ins) && |outs| <= MAX_SERIALIZED_SIZE && All(OutFits, outs) && 0 < f < 256
    ensures ReadLists([0] + ([f as Byte] + (WriteVec(WriteTxIn, ins) + (WriteVec(WriteTxOut, outs) + rest))))
        == Some(Parsed(Lists(Bare(ins), outs, f), rest))
  {
    var lists := WriteVec(WriteTxIn, ins) + (WriteVec(WriteTxOut, outs) + rest);
    InsReadBack(ins, WriteVec(WriteTxOut, outs) + rest);
    OutsReadBack(Bare(ins), f, outs, rest);
    MarkerReads([f as Byte] + lists);
    assert ([f as Byte] + lists)[1..] == lists;
  }

  lemma PlainListsRead(ins: seq<TxIn>, outs: seq<TxOut>, rest: Data)
    requires InsFit(ins) && |outs| <= MAX_SERIALIZED_SIZE && All(OutFits, outs) && ins != []
    ensures ReadLists(WriteVec(WriteTxIn, ins) + (WriteVec(WriteTxOut, outs) + rest))
        == Some(Parsed(Lists(Bare(ins), outs, 0), rest))
  {
    InsReadBack(ins, WriteVec(WriteTxOut, outs) + rest);
    OutsReadBack(Bare(ins), 0, outs, rest);
  }

  lemma NoListsRead(rest: Data)
    ensures ReadLists([0] + ([0] + rest)) == Some(Parsed(Lists([], [], 0), rest))
  {
    MarkerReads([0] + rest);
    assert ([0] + rest)[1..] == rest;
  }

  lemma NoListsReadBack(rest: Data)
    ensures ReadLists((Marker(0) + (WriteVec(WriteTxIn, []) + WriteVec(WriteTxOut, []))) + rest)
        == Some(Parsed(Lists([], [], 0), rest))
  {
    VecOfNone(WriteTxIn);
    VecOfNone(WriteTxOut);
    NoListsRead(rest);
    assert ([] + ([0] + [0])) + rest == [0] + ([0] + rest);
  }

  lemma FlaggedParts(f: nat, lists: Data, rest: Data)
    requires 0 < f < 256
    ensures (Marker(f) + lists) + rest == [0] + ([f as Byte] + (lists + rest))
  {
  }

  lemma ListsReadBack(ins: seq<TxIn>, outs: seq<TxOut>, f: nat, rest: Data)
    requires InsFit(ins) && |outs| <= MAX_SERIALIZED_SIZE && All(OutFits, outs) && f < 256
        && (f != 0 || ins != [] || outs == [])
    ensures ReadLists((Marker(f) + (WriteVec(WriteTxIn, ins) + WriteVec(WriteTxOut, outs))) + rest)
        == Some(Parsed(Lists(Bare(ins), outs, f), rest))
  {
    var i, o := WriteVec(WriteTxIn, ins), WriteVec(WriteTxOut, outs);
    Assoc(i, o, rest);
    if f != 0 {
      FlaggedParts(f, i + o, rest);
      FlaggedListsRead(ins, outs, f, rest);
    } else if ins != [] {
      assert Marker(f) + (i + o) == i + o;
      PlainListsRead(ins, outs, rest);
    } else {
      assert Bare(ins) == [] && ins == [] && outs == [];
      NoListsReadBack(rest);
    }
  }

  lemma BareOfNone(ins: seq<TxIn>)
    requires !AnyStack(ins)
    ensures Bare(ins) == ins
  {
    forall k | 0 <= k < |ins| ensures Bare(ins)[k] == ins[k] {
      assert ins[k].stack == [];
    }
  }

  lemma StacksOfTx(ins: seq<TxIn>, outs: seq<TxOut>, f: nat, rest: Data)
    requires InsFit(ins) && AnyStack(ins) && f % 2 == 1
    ensures ReadWitness(Lists(Bare(ins), outs, f), WriteStacks(ins) + rest) == Some(Parsed(ins, rest))
  {
    BareIsSame(ins);
    StacksReadBack(ins, Bare(ins), rest);
  }

  lemma WitnessReadsBack(ins: seq<TxIn>, outs: seq<TxOut>, f: nat, rest: Data)
    requires InsFit(ins) && (AnyStack(ins) <==> f % 2 == 1)
    ensures ReadWitness(Lists(Bare(ins), outs, f), (if f % 2 == 1 then WriteStacks(ins) else []) + rest)
        == Some(Parsed(ins, rest))
  {
    if f % 2 == 1 {
      StacksOfTx(ins, outs, f, rest);
    } else {
      BareOfNone(ins);
      assert [] + rest == rest;
    }
  }

  lemma ExtensionReadsBack<M(!new)>(x: Ext<M>, tx: Tx<M>, l: Lists, rest: Data)
    requires ExtOk(x) && TxOk(x, tx) && l.flags == Flags(x, tx) && l.outs == tx.outs
    ensures ReadExtension(x, l, (if Flags(x, tx) >= 8 then WriteVec(x.write, tx.mweb) else []) + rest)
        == Some(Parsed(Extension(tx.mweb, tx.hogEx), rest))
  {
    if Flags(x, tx) >= 8 {
      VecReadsBack(x.read, x.write, x.ok, tx.mweb, rest);
    } else {
      assert [] + rest == rest;
    }
  }

  function StacksPart<M>(x: Ext<M>, tx: Tx<M>): Data { if Flags(x, tx) % 2 == 1 then WriteStacks(tx.ins) else [] }

  function ExtensionPart<M>(x: Ext<M>, tx: Tx<M>): Data { if Flags(x, tx) >= 8 then WriteVec(x.write, tx.mweb) else [] }

  lemma TxInParts<M(!new)>(x: Ext<M>, tx: Tx<M>, rest: Data)
    ensures WriteTx(x, tx) + rest
        == tx.version + (WriteLists(x, tx) + (StacksPart(x, tx) + (ExtensionPart(x, tx) + (tx.lock + rest))))
  {
    Assoc(tx.version, WriteLists(x, tx) + WriteTail(x, tx), rest);
    Assoc(WriteLists(x, tx), WriteTail(x, tx), rest);
    Assoc(StacksPart(x, tx), ExtensionPart(x, tx) + tx.lock, rest);
    Assoc(ExtensionPart(x, tx), tx.lock, rest);
  }

  lemma ReadInStages<M(!new)>(x: Ext<M>, data: Data, version: Data, r1: Data, l: Lists, r2: Data, ins: seq<TxIn>,
        r3: Data, e: Extension<M>, r4: Data, lock: Data, rest: Data)
    requires Take(data, 4) == Some(Parsed(version, r1)) && ReadLists(r1) == Some(Parsed(l, r2))
        && ReadWitness(l, r2) == Some(Parsed(ins, r3))
    requires ReadExtension(x, l, r3) == Some(Parsed(e, r4)) && Take(r4, 4) == Some(Parsed(lock, rest))
    ensures ReadTx(x, data) == Some(Parsed(Tx(version, ins, l.outs, lock, e.mweb, e.hogEx), rest))
  {
  }

  lemma ListsOfTx<M(!new)>(x: Ext<M>, tx: Tx<M>, rest: Data)
    requires TxOk(x, tx)
    ensures ReadLists(WriteLists(x, tx) + rest) == Some(Parsed(Lists(Bare(tx.ins), tx.outs, Flags(x, tx)), rest))
  {
    ListsReadBack(tx.ins, tx.outs, Flags(x, tx), rest);
  }

  lemma WitnessOfTx<M(!new)>(x: Ext<M>, tx: Tx<M>, rest: Data)
    requires TxOk(x, tx)
    ensures ReadWitness(Lists(Bare(tx.ins), tx.outs, Flags(x, tx)), StacksPart(x, tx) + rest)
        == Some(Parsed(tx.ins, rest))
  {
    WitnessReadsBack(tx.ins, tx.outs, Flags(x, tx), rest);
  }

  lemma TxReadsBack<M(!new)>(x: Ext<M>, tx: Tx<M>, rest: Data)
    requires ExtOk(x) && TxOk(x, tx)
    ensures ReadTx(x, WriteTx(x, tx) + rest) == Some(Parsed(tx, rest))
  {
    var after3 := tx.lock + rest;
    var after2 := ExtensionPart(x, tx) + after3;
    var after1 := StacksPart(x, tx) + after2;
    var l := Lists(Bare(tx.ins), tx.outs, Flags(x, tx));
    TxInParts(x, tx, rest);
    TakeReadsBack(tx.version, WriteLists(x, tx) + after1);
    ListsOfTx(x, tx, after1);
    WitnessOfTx(x, tx, after2);
    ExtensionReadsBack(x, tx, l, after3);
    TakeReadsBack(tx.lock, rest);
    ReadInStages(x, WriteTx(x, tx) + rest, tx.version, WriteLists(x, tx) + after1, l, after1, tx.ins, after2,
        Extension(tx.mweb, tx.hogEx), after3, tx.lock, rest);
  }

  /**
  A transaction reads back as itself exactly when its fields fit, the extension flag can say what it
  carries, and its empty input list is not taken for the marker.
   */
  lemma TxReadsBackExactlyWhen<M(!new)>(x: Ext<M>, tx: Tx<M>, rest: Data)
    requires ExtOk(x)
    ensures ReadTx(x, WriteTx(x, tx) + rest) == Some(Parsed(tx, rest))
       <==> Fits(x, tx) && Extendable(x, tx) && Readable(x, tx)
  {
    if TxOk(x, tx) {
      TxReadsBack(x, tx, rest);
    } else if ReadTx(x, WriteTx(x, tx) + rest).Some? {
      TxWritesBack(x, WriteTx(x, tx) + rest);
    }
  }

  const ONE_OUTPUT := TxOut([0, 0, 0, 0, 0, 0, 0, 0], [])

  /** A transaction of one output and nothing else, which both coins write and neither reads back. */
  lemma NoInputsIsLost<M(!new)>(x: Ext<M>, rest: Data)
    requires ExtOk(x)
    ensures
      var tx := Tx([1, 0, 0, 0], [], [ONE_OUTPUT], [0, 0, 0, 0], [], false);
      Fits(x, tx) && Extendable(x, tx) && ReadTx(x, WriteTx(x, tx) + rest) != Some(Parsed(tx, rest))
  {
    var tx := Tx([1, 0, 0, 0], [], [ONE_OUTPUT], [0, 0, 0, 0], [], false);
    assert OutFits(ONE_OUTPUT);
    TxReadsBackExactlyWhen(x, tx, rest);
  }

  /** A Litecoin HogEx without outputs is written and refused, although nothing takes it for the marker. */
  lemma EmptyHogExIsLost<M(!new)>(x: Ext<M>, i: TxIn, rest: Data)
    requires ExtOk(x) && x.used && InsFit([i])
    ensures
      var tx := Tx([1, 0, 0, 0], [i], [], [0, 0, 0, 0], [], true);
      Fits(x, tx) && Readable(x, tx) && ReadTx(x, WriteTx(x, tx) + rest) != Some(Parsed(tx, rest))
  {
    TxReadsBackExactlyWhen(x, Tx([1, 0, 0, 0], [i], [], [0, 0, 0, 0], [], true), rest);
  }

  // ---- sizes ------------------------------------------------------------------------------------------

  lemma {:induction false} StacksSize(ins: seq<TxIn>)
    ensures SizeOfStacks(ins) == |WriteStacks(ins)|
  {
    if ins != [] {
      forall v: Data ensures SizeOfBytes(v) == |WriteBytes(v)| {
        SizeIsSize(|v|);
      }
      VecSize(WriteBytes, SizeOfBytes, ins[0].stack);
      StacksSize(ins[1..]);
    }
  }

  /** The counting pass counts what the writing pass writes. */
  lemma TxSize<M(!new)>(x: Ext<M>, tx: Tx<M>)
    requires ExtOk(x)
    ensures SizeOfTx(x, tx) == |WriteTx(x, tx)|
  {
    forall i ensures SizeOfTxIn(i) == |WriteTxIn(i)| {
      SizeIsSize(|i.script|);
    }
    forall o ensures SizeOfTxOut(o) == |WriteTxOut(o)| {
      SizeIsSize(|o.script|);
    }
    VecSize(WriteTxIn, SizeOfTxIn, tx.ins);
    VecSize(WriteTxOut, SizeOfTxOut, tx.outs);
    VecSize(x.write, x.size, tx.mweb);
    StacksSize(tx.ins);
  }

  // ---- blocks ------------------------------------------------------------------------------------------

  datatype Block<M, B> = Block(header: Data, txs: seq<Tx<M>>, ext: seq<B>)

  /** The block's extension follows the transactions when there are two at least and the last is the HogEx. */
  predicate Extended<M>(x: Ext<M>, txs: seq<Tx<M>>) { x.used && |txs| >= 2 && txs[|txs| - 1].hogEx }

  function WriteEnd<M, B>(x: Ext<M>, y: Ext<B>, b: Block<M, B>): Data {
    if Extended(x, b.txs) then WriteVec(y.write, b.ext) else []
  }

  function WriteBlock<M, B>(x: Ext<M>, y: Ext<B>, b: Block<M, B>): Data {
    b.header + (WriteTxs(x, b.txs) + WriteEnd(x, y, b))
  }

  /** `extensionSize`. */
  function SizeOfEnd<M, B>(x: Ext<M>, y: Ext<B>, b: Block<M, B>): nat {
    if Extended(x, b.txs) then SizeOfVec(y.size, b.ext) else 0
  }

  function ReadEnd<M, B>(x: Ext<M>, y: Ext<B>, txs: seq<Tx<M>>, data: Data): Option<Parsed<seq<B>>> {
    if !Extended(x, txs) then Some(Parsed([], data))
    else
      match ReadVec(y.read, data)
      case None => None
      case Some(ext) => if |ext.value| > 1 then None else Some(ext)
  }

  function ReadBlock<M, B>(x: Ext<M>, y: Ext<B>, data: Data): Option<Parsed<Block<M, B>>> {
    match Take(data, 80)
    case None => None
    case Some(header) =>
      match ReadVec((d: Data) => ReadTx(x, d), header.rest)
      case None => None
      case Some(txs) =>
        match ReadEnd(x, y, txs.value, txs.rest)
        case None => None
        case Some(ext) => Some(Parsed(Block(header.value, txs.value, ext.value), ext.rest))
  }

  lemma TxIsCanonical<M(!new)>(x: Ext<M>)
    requires ExtOk(x)
    ensures Canonical((d: Data) => ReadTx(x, d), (tx: Tx<M>) => WriteTx(x, tx), (tx: Tx<M>) => TxOk(x, tx))
    ensures ReadsBack((d: Data) => ReadTx(x, d), (tx: Tx<M>) => WriteTx(x, tx), (tx: Tx<M>) => TxOk(x, tx))
  {
    forall data | ReadTx(x, data).Some? ensures TxOk(x, ReadTx(x, data).value.value)
        && data == WriteTx(x, ReadTx(x, data).value.value) + ReadTx(x, data).value.rest {
      TxWritesBack(x, data);
    }
    forall tx, rest | TxOk(x, tx) ensures ReadTx(x, WriteTx(x, tx) + rest) == Some(Parsed(tx, rest)) {
      TxReadsBack(x, tx, rest);
    }
  }

  ghost predicate BlockOk<M(!new), B(!new)>(x: Ext<M>, y: Ext<B>, b: Block<M, B>) {
    && |b.header| == 80 && |b.txs| <= MAX_SERIALIZED_SIZE && (forall k :: 0 <= k < |b.txs| ==> TxOk(x, b.txs[k]))
    && |b.ext| <= 1 && All(y.ok, b.ext) && (!Extended(x, b.txs) ==> b.ext == [])
  }

  function WriteTxs<M>(x: Ext<M>, txs: seq<Tx<M>>): Data { WriteVec((tx: Tx<M>) => WriteTx(x, tx), txs) }

  lemma TxsWriteBack<M(!new)>(x: Ext<M>, data: Data)
    requires ExtOk(x) && ReadVec((d: Data) => ReadTx(x, d), data).Some?
    ensures var r := ReadVec((d: Data) => ReadTx(x, d), data).value;
            |r.value| <= MAX_SERIALIZED_SIZE && (forall k :: 0 <= k < |r.value| ==> TxOk(x, r.value[k]))
                && data == WriteTxs(x, r.value) + r.rest
  {
    var ok := (tx: Tx<M>) => TxOk(x, tx);
    TxIsCanonical(x);
    VecWritesBack((d: Data) => ReadTx(x, d), (tx: Tx<M>) => WriteTx(x, tx), ok, data);
    var r := ReadVec((d: Data) => ReadTx(x, d), data).value;
    assert forall k :: 0 <= k < |r.value| ==> ok(r.value[k]);
  }

  lemma EndWritesBack<M(!new), B(!new)>(x: Ext<M>, y: Ext<B>, header: Data, txs: seq<Tx<M>>, data: Data)
    requires ExtOk(y) && ReadEnd(x, y, txs, data).Some?
    ensures var r := ReadEnd(x, y, txs, data).value;
            && |r.value| <= 1 && All(y.ok, r.value) && (!Extended(x, txs) ==> r.value == [])
            && data == WriteEnd(x, y, Block(header, txs, r.value)) + r.rest
  {
    if Extended(x, txs) {
      VecWritesBack(y.read, y.write, y.ok, data);
    } else {
      assert [] + data == data;
    }
  }

  /** Bytes accepted as a block are the bytes it is written as. */
  lemma BlockWritesBack<M(!new), B(!new)>(x: Ext<M>, y: Ext<B>, data: Data)
    requires ExtOk(x) && ExtOk(y) && ReadBlock(x, y, data).Some?
    ensures var r := ReadBlock(x, y, data).value; BlockOk(x, y, r.value) && data == WriteBlock(x, y, r.value) + r.rest
  {
    var header := Take(data, 80).value;
    TakeWritesBack(data, 80);
    TxsWriteBack(x, header.rest);
    var txs := ReadVec((d: Data) => ReadTx(x, d), header.rest).value;
    EndWritesBack(x, y, header.value, txs.value, txs.rest);
    var b, rest := ReadBlock(x, y, data).value.value, ReadBlock(x, y, data).value.rest;
    Assoc(WriteTxs(x, b.txs), WriteEnd(x, y, b), rest);
    Assoc(b.header, WriteTxs(x, b.txs) + WriteEnd(x, y, b), rest);
  }

  lemma TxsReadBack<M(!new)>(x: Ext<M>, txs: seq<Tx<M>>, rest: Data)
    requires ExtOk(x) && |txs| <= MAX_SERIALIZED_SIZE && forall k :: 0 <= k < |txs| ==> TxOk(x, txs[k])
    ensures ReadVec((d: Data) => ReadTx(x, d), WriteTxs(x, txs) + rest) == Some(Parsed(txs, rest))
  {
    var ok := (tx: Tx<M>) => TxOk(x, tx);
    TxIsCanonical(x);
    assert All(ok, txs);
    VecReadsBack((d: Data) => ReadTx(x, d), (tx: Tx<M>) => WriteTx(x, tx), ok, txs, rest);
  }

  lemma EndReadsBack<M(!new), B(!new)>(x: Ext<M>, y: Ext<B>, b: Block<M, B>, rest: Data)
    requires ExtOk(y) && BlockOk(x, y, b)
    ensures ReadEnd(x, y, b.txs, WriteEnd(x, y, b) + rest) == Some(Parsed(b.ext, rest))
  {
    if Extended(x, b.txs) {
      VecReadsBack(y.read, y.write, y.ok, b.ext, rest);
    } else {
      assert [] + rest == rest;
    }
  }

  lemma BlockReads<M(!new), B(!new)>(x: Ext<M>, y: Ext<B>, b: Block<M, B>, rest: Data)
    requires ExtOk(x) && ExtOk(y) && BlockOk(x, y, b)
    ensures ReadBlock(x, y, WriteBlock(x, y, b) + rest) == Some(Parsed(b, rest))
  {
    var end := WriteEnd(x, y, b) + rest;
    Assoc(b.header, WriteTxs(x, b.txs) + WriteEnd(x, y, b), rest);
    Assoc(WriteTxs(x, b.txs), WriteEnd(x, y, b), rest);
    TakeReadsBack(b.header, WriteTxs(x, b.txs) + end);
    TxsReadBack(x, b.txs, end);
    EndReadsBack(x, y, b, rest);
  }

  /**
  A block reads back as itself exactly when all its transactions would and its own extension is one
  that can follow them.
   */
  lemma BlockReadsBack<M(!new), B(!new)>(x: Ext<M>, y: Ext<B>, b: Block<M, B>, rest: Data)
    requires ExtOk(x) && ExtOk(y)
    ensures ReadBlock(x, y, WriteBlock(x, y, b) + rest) == Some(Parsed(b, rest)) <==> BlockOk(x, y, b)
  {
    if BlockOk(x, y, b) {
      BlockReads(x, y, b, rest);
    } else if ReadBlock(x, y, WriteBlock(x, y, b) + rest).Some? {
      BlockWritesBack(x, y, WriteBlock(x, y, b) + rest);
    }
  }

  // ---- the layout of a stored block -----------------------------------------------------------------------

  const WORD: nat := 0x1_0000_0000

  /** `CDataSpan32`. */
  datatype Span = Span(offset: nat, size: nat)

  /** Where transaction `k` starts. */
  ghost function OffsetOf<M>(x: Ext<M>, header: Data, txs: seq<Tx<M>>, k: nat): nat
    requires k <= |txs|
  {
    |header| + SizeOfSize(|txs|) + SizeOfItems((tx: Tx<M>) => SizeOfTx(x, tx), txs[..k])
  }

  lemma {:induction false} SizesAdd<T(!new)>(size: T -> nat, vs: seq<T>, v: T)
    ensures SizeOfItems(size, vs + [v]) == SizeOfItems(size, vs) + size(v)
  {
    if vs == [] {
      assert vs + [v] == [v];
    } else {
      SizesAdd(size, vs[1..], v);
      assert (vs + [v])[1..] == vs[1..] + [v];
    }
  }

  lemma OffsetNext<M(!new)>(x: Ext<M>, header: Data, txs: seq<Tx<M>>, i: nat)
    requires i < |txs|
    ensures OffsetOf(x, header, txs, i + 1) == OffsetOf(x, header, txs, i) + SizeOfTx(x, txs[i])
  {
    SizesAdd((tx: Tx<M>) => SizeOfTx(x, tx), txs[..i], txs[i]);
    assert txs[..i + 1] == txs[..i] + [txs[i]];
  }

  /** `fillTxLayout`, the spans in 32 bits. */
  method FillTxLayout<M(!new), B>(x: Ext<M>, b: Block<M, B>) returns (out: seq<Span>)
    ensures |out| == |b.txs|
    ensures forall k :: 0 <= k < |out| ==>
        out[k] == Span(OffsetOf(x, b.header, b.txs, k) % WORD, SizeOfTx(x, b.txs[k]) % WORD)
  {
    var offset := |b.header| + SizeOfSize(|b.txs|);
    out := [];
    for i := 0 to |b.txs|
      invariant |out| == i && offset == OffsetOf(x, b.header, b.txs, i)
      invariant forall k :: 0 <= k < i ==>
          out[k] == Span(OffsetOf(x, b.header, b.txs, k) % WORD, SizeOfTx(x, b.txs[k]) % WORD)
    {
      var size := SizeOfTx(x, b.txs[i]);
      out := out + [Span(offset % WORD, size % WORD)];
      OffsetNext(x, b.header, b.txs, i);
      offset := offset + size;
    }
  }

  lemma {:induction false} ItemsSplit<T(!new)>(write: T -> Data, vs: seq<T>, k: nat)
    requires k <= |vs|
    ensures WriteItems(write, vs) == WriteItems(write, vs[..k]) + WriteItems(write, vs[k..])
  {
    if k == 0 {
      assert vs[..0] == [] && vs[0..] == vs;
    } else {
      ItemsSplit(write, vs[1..], k - 1);
      assert vs[..k][1..] == vs[1..][..k - 1] && vs[1..][k - 1..] == vs[k..];
      Assoc(write(vs[0]), WriteItems(write, vs[..k][1..]), WriteItems(write, vs[k..]));
    }
  }

  lemma Middle(a: Data, b: Data, c: Data)
    ensures (a + (b + c))[|a|..|a| + |b|] == b
  {
  }

  /** The bytes in front of transaction `k`, its own, and those behind. */
  lemma BlockAround<M(!new), B(!new)>(x: Ext<M>, y: Ext<B>, b: Block<M, B>, k: nat) returns (front: Data, back: Data)
    requires ExtOk(x) && k < |b.txs|
    ensures WriteBlock(x, y, b) == front + (WriteTx(x, b.txs[k]) + back) && |front| == OffsetOf(x, b.header, b.txs, k)
    ensures back == WriteItems((tx: Tx<M>) => WriteTx(x, tx), b.txs[k..][1..]) + WriteEnd(x, y, b)
  {
    var write, size := (tx: Tx<M>) => WriteTx(x, tx), (tx: Tx<M>) => SizeOfTx(x, tx);
    forall tx ensures size(tx) == |write(tx)| {
      TxSize(x, tx);
    }
    var head, items := b.header + WriteSize(|b.txs|), WriteItems(write, b.txs[..k]);
    var own, more, end := WriteTx(x, b.txs[k]), WriteItems(write, b.txs[k..][1..]), WriteEnd(x, y, b);
    ItemsSize(write, size, b.txs[..k]);
    SizeIsSize(|b.txs|);
    ItemsSplit(write, b.txs, k);
    front, back := head + items, more + end;
    assert WriteItems(write, b.txs[k..]) == own + more;
    Assoc(b.header, WriteSize(|b.txs|), WriteItems(write, b.txs) + end);
    Assoc(WriteSize(|b.txs|), WriteItems(write, b.txs), end);
    Assoc(items, own + more, end);
    Assoc(own, more, end);
    Assoc(head, items, own + back);
  }

  lemma SpanOf(w: Data, front: Data, own: Data, back: Data, span: Span)
    requires w == front + (own + back) && |w| < WORD && span == Span(|front| % WORD, |own| % WORD)
    ensures span == Span(|front|, |own|) && w[span.offset..span.offset + span.size] == own
  {
    Middle(front, own, back);
  }

  /** In a stored block of less than 4 GiB each span is exactly the bytes of its transaction. */
  lemma SpanIsTransaction<M(!new), B(!new)>(x: Ext<M>, y: Ext<B>, b: Block<M, B>, k: nat, span: Span)
    requires ExtOk(x) && k < |b.txs| && |WriteBlock(x, y, b)| < WORD
    requires span == Span(OffsetOf(x, b.header, b.txs, k) % WORD, SizeOfTx(x, b.txs[k]) % WORD)
    ensures span.offset + span.size <= |WriteBlock(x, y, b)|
        && WriteBlock(x, y, b)[span.offset..span.offset + span.size] == WriteTx(x, b.txs[k])
  {
    var front, back := BlockAround(x, y, b, k);
    TxSize(x, b.txs[k]);
    SpanOf(WriteBlock(x, y, b), front, WriteTx(x, b.txs[k]), back, span);
  }

  /** `txLayoutMatchesStored`. */
  predicate LayoutMatches<M, B>(x: Ext<M>, y: Ext<B>, b: Block<M, B>, layout: seq<Span>, storedSize: nat) {
    && |layout| == |b.txs| && layout != []
    && layout[|layout| - 1].offset + layout[|layout| - 1].size + SizeOfEnd(x, y, b) == storedSize
  }

  lemma EndSize<M(!new), B(!new)>(x: Ext<M>, y: Ext<B>, b: Block<M, B>)
    requires ExtOk(y)
    ensures SizeOfEnd(x, y, b) == |WriteEnd(x, y, b)|
  {
    VecSize(y.write, y.size, b.ext);
  }

  /** The layout of a block that is not empty matches the stored size exactly when that is the size of the block. */
  lemma LayoutMatchesItsBlock<M(!new), B(!new)>(x: Ext<M>, y: Ext<B>, b: Block<M, B>, layout: seq<Span>,
        storedSize: nat)
    requires ExtOk(x) && ExtOk(y) && |WriteBlock(x, y, b)| < WORD && |layout| == |b.txs| && b.txs != []
    requires forall k :: 0 <= k < |layout| ==>
        layout[k] == Span(OffsetOf(x, b.header, b.txs, k) % WORD, SizeOfTx(x, b.txs[k]) % WORD)
    ensures LayoutMatches(x, y, b, layout, storedSize) <==> storedSize == |WriteBlock(x, y, b)|
  {
    var last := |b.txs| - 1;
    var front, back := BlockAround(x, y, b, last);
    TxSize(x, b.txs[last]);
    SpanOf(WriteBlock(x, y, b), front, WriteTx(x, b.txs[last]), back, layout[last]);
    assert b.txs[last..][1..] == [];
    EndSize(x, y, b);
  }
}
