/**
Transactions of Bitcoin and Litecoin. Litecoin adds an extension to a transaction; what is inside
it is a codec of its own, taken as given and canonical. Without the extension the same text is
Bitcoin's format.
 */
module WireTx {
  import opened ByteData
  import opened Sequences
  import opened Wrappers
  import opened WireFormat
  import opened WireParts

  /** `hogEx` marks the transaction whose extension flag has nothing behind it. */
  datatype Tx<M> = Tx(version: Data, ins: seq<TxIn>, outs: seq<TxOut>, lock: Data, mweb: seq<M>, hogEx: bool)

  /** The extension's codec; `used` tells Litecoin from Bitcoin. */
  datatype Ext<!M> = Ext(used: bool, read: Data -> Option<Parsed<M>>, write: M -> Data, size: M -> nat, ok: M -> bool)

  ghost predicate ExtOk<M(!new)>(x: Ext<M>) {
    Canonical(x.read, x.write, x.ok) && ReadsBack(x.read, x.write, x.ok) && forall m :: x.size(m) == |x.write(m)|
  }

  /** `hasWitness`. */
  predicate AnyStack(ins: seq<TxIn>) { exists k :: 0 <= k < |ins| && ins[k].stack != [] }

  /** The flag byte: one for witnesses, eight for the extension. */
  function Flags<M>(x: Ext<M>, tx: Tx<M>): nat {
    (if AnyStack(tx.ins) then 1 else 0) + (if x.used && (tx.mweb != [] || tx.hogEx) then 8 else 0)
  }

  function WriteLists<M>(x: Ext<M>, tx: Tx<M>): Data {
    (if Flags(x, tx) != 0 then [0, Flags(x, tx) as Byte] else [])
        + (WriteVec(WriteTxIn, tx.ins) + WriteVec(WriteTxOut, tx.outs))
  }

  function WriteTail<M>(x: Ext<M>, tx: Tx<M>): Data {
    (if Flags(x, tx) % 2 == 1 then WriteStacks(tx.ins) else [])
        + ((if Flags(x, tx) >= 8 then WriteVec(x.write, tx.mweb) else []) + tx.lock)
  }

  /** `CTransaction::io`, writing. */
  function WriteTx<M>(x: Ext<M>, tx: Tx<M>): Data { tx.version + (WriteLists(x, tx) + WriteTail(x, tx)) }

  /** `CTransaction::io`, counting. */
  function SizeOfTx<M>(x: Ext<M>, tx: Tx<M>): nat {
    |tx.version| + (if Flags(x, tx) != 0 then 2 else 0) + SizeOfVec(SizeOfTxIn, tx.ins)
        + SizeOfVec(SizeOfTxOut, tx.outs)
    + (if Flags(x, tx) % 2 == 1 then SizeOfStacks(tx.ins) else 0)
        + (if Flags(x, tx) >= 8 then SizeOfVec(x.size, tx.mweb) else 0) + |tx.lock|
  }

  // ---- reading -----------------------------------------------------------------------------------

  /** The lists and the flag byte found on the way; no flag byte is flag zero. */
  datatype Lists = Lists(ins: seq<TxIn>, outs: seq<TxOut>, flags: nat)

  function ReadOuts(ins: seq<TxIn>, flags: nat, data: Data): Option<Parsed<Lists>> {
    match ReadVec(ReadTxOut, data)
    case None => None
    case Some(outs) => Some(Parsed(Lists(ins, outs.value, flags), outs.rest))
  }

  /** No inputs where the first list should be: read on for a flag byte and, if it is set, for both lists. */
  function ReadLists(data: Data): Option<Parsed<Lists>> {
    match ReadVec(ReadTxIn, data)
    case None => None
    case Some(ins) =>
      if ins.value != [] then ReadOuts(ins.value, 0, ins.rest)
      else if ins.rest == [] then None
      else if ins.rest[0] == 0 then Some(Parsed(Lists([], [], 0), ins.rest[1..]))
      else
        match ReadVec(ReadTxIn, ins.rest[1..])
        case None => None
        case Some(second) => ReadOuts(second.value, ins.rest[0] as nat, second.rest)
  }

  /** The witness stacks, if flagged; all of them empty is refused. */
  function ReadWitness(l: Lists, data: Data): Option<Parsed<seq<TxIn>>> {
    if l.flags % 2 == 0 then Some(Parsed(l.ins, data))
    else
      match ReadStacks(data, l.ins)
      case None => None
      case Some(ins) => if AnyStack(ins.value) then Some(ins) else None
  }

  datatype Extension<M> = Extension(mweb: seq<M>, hogEx: bool)

  /** The extension, if flagged; any other flag left is refused. */
  function ReadExtension<M>(x: Ext<M>, l: Lists, data: Data): Option<Parsed<Extension<M>>> {
    var left := l.flags - l.flags % 2;
    if left == 0 then Some(Parsed(Extension([], false), data))
    else if !x.used || left != 8 then None
    else
      match ReadVec(x.read, data)
      case None => None
      case Some(mweb) =>
        if |mweb.value| > 1 || (mweb.value == [] && l.outs == []) then None
        else Some(Parsed(Extension(mweb.value, mweb.value == []), mweb.rest))
  }

  /** `CTransaction::io`, reading. */
  function ReadTx<M>(x: Ext<M>, data: Data): Option<Parsed<Tx<M>>> {
    match Take(data, 4)
    case None => None
    case Some(version) =>
      match ReadLists(version.rest)
      case None => None
      case Some(l) =>
        match ReadWitness(l.value, l.rest)
        case None => None
        case Some(ins) =>
          match ReadExtension(x, l.value, ins.rest)
          case None => None
          case Some(e) =>
            match Take(e.rest, 4)
            case None => None
            case Some(lock) =>
                Some(Parsed(Tx(version.value, ins.value, l.value.outs, lock.value, e.value.mweb, e.value.hogEx),
                lock.rest))
  }

  // ---- what fits, and what reads back ------------------------------------------------------------------

  ghost predicate InsFit(ins: seq<TxIn>) {
    |ins| <= MAX_SERIALIZED_SIZE && StacksFit(ins) && forall k :: 0 <= k < |ins| ==> InFits(ins[k])
  }

  /** Every field has its width and every list its limit. */
  ghost predicate Fits<M(!new)>(x: Ext<M>, tx: Tx<M>) {
    && |tx.version| == 4 && |tx.lock| == 4 && InsFit(tx.ins)
    && |tx.outs| <= MAX_SERIALIZED_SIZE && All(OutFits, tx.outs) && All(x.ok, tx.mweb)
  }

  /**
  What the extension flag can say: one object; or none and a HogEx, which has outputs. Without the
  extension there is neither.
   */
  predicate Extendable<M>(x: Ext<M>, tx: Tx<M>) {
    && |tx.mweb| <= 1 && (tx.hogEx ==> tx.mweb == [] && tx.outs != []) && (!x.used ==> tx.mweb == [] && !tx.hogEx)
  }

  /** Not taken for the marker: a transaction without inputs and flags has no outputs either. */
  predicate Readable<M>(x: Ext<M>, tx: Tx<M>) { Flags(x, tx) != 0 || tx.ins != [] || tx.outs == [] }

  ghost predicate TxOk<M(!new)>(x: Ext<M>, tx: Tx<M>) { Fits(x, tx) && Extendable(x, tx) && Readable(x, tx) }

  // ---- what was read was written ------------------------------------------------------------------------

  lemma VecOfNone<T>(write: T -> Data)
    ensures WriteVec(write, []) == [0]
  {
  }

  lemma OutsWriteBack(ins: seq<TxIn>, flags: nat, data: Data)
    requires ReadOuts(ins, flags, data).Some?
    ensures var r := ReadOuts(ins, flags, data).value;
            r.value.ins == ins && r.value.flags == flags && |r.value.outs| <= MAX_SERIALIZED_SIZE
                && All(OutFits, r.value.outs) && data == WriteVec(WriteTxOut, r.value.outs) + r.rest
  {
    LeavesAreCanonical();
    VecWritesBack(ReadTxOut, WriteTxOut, OutFits, data);
  }

  lemma InsWriteBack(data: Data)
    requires ReadVec(ReadTxIn, data).Some?
    ensures var r := ReadVec(ReadTxIn, data).value;
        |r.value| <= MAX_SERIALIZED_SIZE && All(BareIn, r.value) && data == WriteVec(WriteTxIn, r.value) + r.rest
  {
    LeavesAreCanonical();
    VecWritesBack(ReadTxIn, WriteTxIn, BareIn, data);
  }

  function Marker(flags: nat): Data
    requires flags < 256
  {
    if flags != 0 then [0, flags as Byte] else []
  }

  /** The lists found are the ones written in front of what is left. */
  ghost predicate ListsAre(l: Lists, data: Data, rest: Data) {
    && l.flags < 256 && |l.ins| <= MAX_SERIALIZED_SIZE && All(BareIn, l.ins) && |l.outs| <= MAX_SERIALIZED_SIZE
         && All(OutFits, l.outs)
    && (l.flags == 0 && l.ins == [] ==> l.outs == [])
    && data == (Marker(l.flags) + (WriteVec(WriteTxIn, l.ins) + WriteVec(WriteTxOut, l.outs))) + rest
  }

  lemma ListsAfter(ins: seq<TxIn>, flags: nat, data: Data)
    requires ReadOuts(ins, flags, data).Some? && flags < 256 && |ins| <= MAX_SERIALIZED_SIZE && All(BareIn, ins)
        && (flags != 0 || ins != [])
    ensures ListsAre(ReadOuts(ins, flags, data).value.value, Marker(flags) + (WriteVec(WriteTxIn, ins) + data),
        ReadOuts(ins, flags, data).value.rest)
  {
    OutsWriteBack(ins, flags, data);
    var r := ReadOuts(ins, flags, data).value;
    var i, o := WriteVec(WriteTxIn, ins), WriteVec(WriteTxOut, r.value.outs);
    Assoc(i, o, r.rest);
    Assoc(Marker(flags), i + o, r.rest);
  }

  lemma NoLists(rest: Data)
    ensures ListsAre(Lists([], [], 0), [0] + ([0] + rest), rest)
  {
    VecOfNone(WriteTxIn);
    VecOfNone(WriteTxOut);
    assert ([] + ([0] + [0])) + rest == [0] + ([0] + rest);
  }

  lemma ListsWriteBack(data: Data)
    requires ReadLists(data).Some?
    ensures ListsAre(ReadLists(data).value.value, data, ReadLists(data).value.rest)
  {
    InsWriteBack(data);
    var first := ReadVec(ReadTxIn, data).value;
    if first.value != [] {
      ListsAfter(first.value, 0, first.rest);
      assert Marker(0) + (WriteVec(WriteTxIn, first.value) + first.rest) == data;
    } else {
      VecOfNone(WriteTxIn);
      var flag, after := first.rest[0], first.rest[1..];
      assert first.rest == [flag] + after;
      if flag == 0 {
        NoLists(after);
      } else {
        InsWriteBack(after);
        var second := ReadVec(ReadTxIn, after).value;
        ListsAfter(second.value, flag as nat, second.rest);
        assert [0] + ([flag] + after) == [0, flag] + after;
      }
    }
  }

  lemma BareHaveNone(ins: seq<TxIn>)
    requires All(BareIn, ins)
    ensures !AnyStack(ins) && StacksFit(ins) && SameBut(ins, ins)
  {
  }

  lemma WitnessWritesBack(l: Lists, data: Data)
    requires ReadWitness(l, data).Some? && All(BareIn, l.ins)
    ensures var r := ReadWitness(l, data).value;
            && SameBut(r.value, l.ins) && StacksFit(r.value) && (AnyStack(r.value) <==> l.flags % 2 == 1)
            && data == (if l.flags % 2 == 1 then WriteStacks(r.value) else []) + r.rest
  {
    BareHaveNone(l.ins);
    if l.flags % 2 == 1 {
      StacksWriteBack(data, l.ins);
    }
  }

  lemma ExtensionWritesBack<M(!new)>(x: Ext<M>, l: Lists, data: Data)
    requires ExtOk(x) && ReadExtension(x, l, data).Some?
    ensures var r := ReadExtension(x, l, data).value; var e := r.value;
            && |e.mweb| <= 1 && All(x.ok, e.mweb) && (e.hogEx ==> e.mweb == [] && l.outs != [])
                 && (!x.used ==> e.mweb == [] && !e.hogEx)
            && l.flags - l.flags % 2 == (if x.used && (e.mweb != [] || e.hogEx) then 8 else 0)
            && data == (if l.flags - l.flags % 2 == 8 then WriteVec(x.write, e.mweb) else []) + r.rest
  {
    if l.flags - l.flags % 2 == 8 {
      VecWritesBack(x.read, x.write, x.ok, data);
    }
  }

  lemma SameButFits(ins: seq<TxIn>, bare: seq<TxIn>)
    requires SameBut(ins, bare) && All(BareIn, bare) && StacksFit(ins) && |bare| <= MAX_SERIALIZED_SIZE
    ensures InsFit(ins)
  {
    forall k | 0 <= k < |ins| ensures InFits(ins[k]) {
      assert ins[k].(stack := bare[k].stack) == bare[k] && BareIn(bare[k]);
    }
  }

  /** What the stages found, put together. */
  lemma Assemble<M(!new)>(x: Ext<M>, tx: Tx<M>, l: Lists, rest: Data, tail: Data)
    requires SameBut(tx.ins, l.ins) && l.outs == tx.outs && l.flags == Flags(x, tx) && tail == WriteTail(x, tx) + rest
    ensures (Marker(l.flags) + (WriteVec(WriteTxIn, l.ins) + WriteVec(WriteTxOut, l.outs))) + tail
        == (WriteLists(x, tx) + WriteTail(x, tx)) + rest
  {
    InputsIgnoreWitness(tx.ins, l.ins);
    Assoc(WriteLists(x, tx), WriteTail(x, tx), rest);
  }

  lemma TailIs<M(!new)>(x: Ext<M>, tx: Tx<M>, flags: nat, rest: Data, data: Data, after: Data)
    requires Flags(x, tx) == flags
    requires data == (if flags % 2 == 1 then WriteStacks(tx.ins) else []) + after
    requires after == (if flags - flags % 2 == 8 then WriteVec(x.write, tx.mweb) else []) + (tx.lock + rest)
    ensures data == WriteTail(x, tx) + rest
  {
    var a, b := if flags % 2 == 1 then WriteStacks(tx.ins) else [], if flags >= 8 then WriteVec(x.write, tx.mweb)
        else [];
    Assoc(b, tx.lock, rest);
    Assoc(a, b + tx.lock, rest);
  }

  /** Bytes read as a transaction are the bytes it is written as, and it fits. */
  lemma TxWritesBack<M(!new)>(x: Ext<M>, data: Data)
    requires ExtOk(x) && ReadTx(x, data).Some?
    ensures var r := ReadTx(x, data).value; TxOk(x, r.value) && data == WriteTx(x, r.value) + r.rest
  {
    var version := Take(data, 4).value;
    var l := ReadLists(version.rest).value;
    var ins := ReadWitness(l.value, l.rest).value;
    var e := ReadExtension(x, l.value, ins.rest).value;
    var tx, rest := ReadTx(x, data).value.value, ReadTx(x, data).value.rest;
    TakeWritesBack(data, 4);
    ListsWriteBack(version.rest);
    WitnessWritesBack(l.value, l.rest);
    ExtensionWritesBack(x, l.value, ins.rest);
    TakeWritesBack(e.rest, 4);
    SameButFits(ins.value, l.value.ins);
    TailIs(x, tx, l.value.flags, rest, l.rest, ins.rest);
    Assemble(x, tx, l.value, rest, l.rest);
    Assoc(tx.version, WriteLists(x, tx) + WriteTail(x, tx), rest);
  }
}
