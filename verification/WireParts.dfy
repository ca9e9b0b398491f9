/** Inputs, outputs and witness stacks. */
module WireParts {
  import opened ByteData
  import opened Wrappers
  import opened WireFormat

  datatype TxIn = TxIn(hash: Data, index: Data, script: Data, sequence: Data, stack: seq<Data>)

  datatype TxOut = TxOut(amount: Data, script: Data)

  // ---- inputs and outputs ------------------------------------------------------------------------

  /** An input without its witness: that is written by the transaction. */
  function WriteTxIn(i: TxIn): Data { i.hash + i.index + WriteBytes(i.script) + i.sequence }

  function SizeOfTxIn(i: TxIn): nat { |i.hash| + |i.index| + SizeOfBytes(i.script) + |i.sequence| }

  function ReadTxIn(data: Data): Option<Parsed<TxIn>> {
    match Take(data, 32)
    case None => None
    case Some(hash) =>
      match Take(hash.rest, 4)
      case None => None
      case Some(index) =>
        match ReadBytes(index.rest)
        case None => None
        case Some(script) =>
          match Take(script.rest, 4)
          case None => None
          case Some(sequence) =>
              Some(Parsed(TxIn(hash.value, index.value, script.value, sequence.value, []), sequence.rest))
  }

  predicate InFits(i: TxIn) {
    |i.hash| == 32 && |i.index| == 4 && |i.script| <= MAX_SERIALIZED_SIZE && |i.sequence| == 4
  }

  /** An input as it comes from the reader, before the witness. */
  predicate BareIn(i: TxIn) { InFits(i) && i.stack == [] }

  function WriteTxOut(o: TxOut): Data { o.amount + WriteBytes(o.script) }

  function SizeOfTxOut(o: TxOut): nat { |o.amount| + SizeOfBytes(o.script) }

  function ReadTxOut(data: Data): Option<Parsed<TxOut>> {
    match Take(data, 8)
    case None => None
    case Some(amount) =>
      match ReadBytes(amount.rest)
      case None => None
      case Some(script) => Some(Parsed(TxOut(amount.value, script.value), script.rest))
  }

  predicate OutFits(o: TxOut) { |o.amount| == 8 && |o.script| <= MAX_SERIALIZED_SIZE }

  lemma TxInParts(i: TxIn, rest: Data)
    ensures WriteTxIn(i) + rest == i.hash + (i.index + (WriteBytes(i.script) + (i.sequence + rest)))
  {
  }

  lemma TxInWritesBack(data: Data)
    requires ReadTxIn(data).Some?
    ensures var r := ReadTxIn(data).value; BareIn(r.value) && data == WriteTxIn(r.value) + r.rest
  {
    var hash := Take(data, 32).value;
    var index := Take(hash.rest, 4).value;
    var script := ReadBytes(index.rest).value;
    TakeWritesBack(data, 32);
    TakeWritesBack(hash.rest, 4);
    BytesWriteBack(index.rest);
    TakeWritesBack(script.rest, 4);
    TxInParts(ReadTxIn(data).value.value, ReadTxIn(data).value.rest);
  }

  lemma TxInReadsBack(i: TxIn, rest: Data)
    requires InFits(i)
    ensures ReadTxIn(WriteTxIn(i) + rest) == Some(Parsed(i.(stack := []), rest))
  {
    var after3 := i.sequence + rest;
    var after2 := WriteBytes(i.script) + after3;
    var after1 := i.index + after2;
    TxInParts(i, rest);
    TakeReadsBack(i.hash, after1);
    TakeReadsBack(i.index, after2);
    BytesReadBack(i.script, after3);
    TakeReadsBack(i.sequence, rest);
  }

  lemma TxOutWritesBack(data: Data)
    requires ReadTxOut(data).Some?
    ensures var r := ReadTxOut(data).value; OutFits(r.value) && data == WriteTxOut(r.value) + r.rest
  {
    var amount := Take(data, 8).value;
    TakeWritesBack(data, 8);
    BytesWriteBack(amount.rest);
  }

  lemma TxOutReadsBack(o: TxOut, rest: Data)
    requires OutFits(o)
    ensures ReadTxOut(WriteTxOut(o) + rest) == Some(Parsed(o, rest))
  {
    assert WriteTxOut(o) + rest == o.amount + (WriteBytes(o.script) + rest);
    TakeReadsBack(o.amount, WriteBytes(o.script) + rest);
    BytesReadBack(o.script, rest);
  }

  lemma LeavesAreCanonical()
    ensures Canonical(ReadTxIn, WriteTxIn, BareIn) && Canonical(ReadTxOut, WriteTxOut, OutFits)
    ensures Canonical(ReadBytes, WriteBytes, (v: Data) => |v| <= MAX_SERIALIZED_SIZE)
  {
    forall data | ReadTxIn(data).Some? ensures BareIn(ReadTxIn(data).value.value)
        && data == WriteTxIn(ReadTxIn(data).value.value) + ReadTxIn(data).value.rest {
      TxInWritesBack(data);
    }
    forall data | ReadTxOut(data).Some? ensures OutFits(ReadTxOut(data).value.value)
        && data == WriteTxOut(ReadTxOut(data).value.value) + ReadTxOut(data).value.rest {
      TxOutWritesBack(data);
    }
    forall data | ReadBytes(data).Some? ensures |ReadBytes(data).value.value| <= MAX_SERIALIZED_SIZE
        && data == WriteBytes(ReadBytes(data).value.value) + ReadBytes(data).value.rest {
      BytesWriteBack(data);
    }
    forall v: Data ensures |WriteBytes(v)| > 0 {
      SizeIsSize(|v|);
    }
  }

  lemma LeavesReadBack()
    ensures ReadsBack(ReadTxIn, WriteTxIn, BareIn) && ReadsBack(ReadTxOut, WriteTxOut, OutFits)
    ensures ReadsBack(ReadBytes, WriteBytes, (v: Data) => |v| <= MAX_SERIALIZED_SIZE)
  {
    forall v, rest | BareIn(v) ensures ReadTxIn(WriteTxIn(v) + rest) == Some(Parsed(v, rest)) {
      TxInReadsBack(v, rest);
    }
    forall v, rest | OutFits(v) ensures ReadTxOut(WriteTxOut(v) + rest) == Some(Parsed(v, rest)) {
      TxOutReadsBack(v, rest);
    }
    forall v: Data, rest: Data | |v| <= MAX_SERIALIZED_SIZE
        ensures ReadBytes(WriteBytes(v) + rest) == Some(Parsed(v, rest)) {
      BytesReadBack(v, rest);
    }
  }

  // ---- witness stacks ------------------------------------------------------------------------------

  function WriteStack(stack: seq<Data>): Data { WriteVec(WriteBytes, stack) }

  function SizeOfStack(stack: seq<Data>): nat { SizeOfVec(SizeOfBytes, stack) }

  function ReadStack(data: Data): Option<Parsed<seq<Data>>> { ReadVec(ReadBytes, data) }

  ghost predicate StackFits(stack: seq<Data>) {
    |stack| <= MAX_SERIALIZED_SIZE && forall k :: 0 <= k < |stack| ==> |stack[k]| <= MAX_SERIALIZED_SIZE
  }

  function WriteStacks(ins: seq<TxIn>): Data {
    if ins == [] then [] else WriteStack(ins[0].stack) + WriteStacks(ins[1..])
  }

  function SizeOfStacks(ins: seq<TxIn>): nat {
    if ins == [] then 0 else SizeOfStack(ins[0].stack) + SizeOfStacks(ins[1..])
  }

  /** One stack for each input read. */
  function ReadStacks(data: Data, ins: seq<TxIn>): Option<Parsed<seq<TxIn>>>
    decreases |ins|
  {
    if ins == [] then Some(Parsed([], data))
    else
      match ReadStack(data)
      case None => None
      case Some(stack) =>
        match ReadStacks(stack.rest, ins[1..])
        case None => None
        case Some(more) => Some(Parsed([ins[0].(stack := stack.value)] + more.value, more.rest))
  }

  lemma StackWritesBack(data: Data)
    requires ReadStack(data).Some?
    ensures var r := ReadStack(data).value; StackFits(r.value) && data == WriteStack(r.value) + r.rest
  {
    LeavesAreCanonical();
    VecWritesBack(ReadBytes, WriteBytes, (v: Data) => |v| <= MAX_SERIALIZED_SIZE, data);
  }

  lemma StackReadsBack(stack: seq<Data>, rest: Data)
    requires StackFits(stack)
    ensures ReadStack(WriteStack(stack) + rest) == Some(Parsed(stack, rest))
  {
    LeavesReadBack();
    forall v: Data ensures |WriteBytes(v)| > 0 {
      SizeIsSize(|v|);
    }
    VecReadsBack(ReadBytes, WriteBytes, (v: Data) => |v| <= MAX_SERIALIZED_SIZE, stack, rest);
  }

  /** Two lists of inputs that differ in their witness at most. */
  ghost predicate SameBut(ins: seq<TxIn>, bare: seq<TxIn>) {
    |ins| == |bare| && forall k :: 0 <= k < |ins| ==> ins[k].(stack := bare[k].stack) == bare[k]
  }

  ghost predicate StacksFit(ins: seq<TxIn>) { forall k :: 0 <= k < |ins| ==> StackFits(ins[k].stack) }

  lemma {:induction false} StacksWriteBack(data: Data, ins: seq<TxIn>)
    requires ReadStacks(data, ins).Some?
    ensures var r := ReadStacks(data, ins).value;
        SameBut(r.value, ins) && StacksFit(r.value) && data == WriteStacks(r.value) + r.rest
    decreases |ins|
  {
    if ins != [] {
      StackWritesBack(data);
      var stack := ReadStack(data).value;
      StacksWriteBack(stack.rest, ins[1..]);
      var more := ReadStacks(stack.rest, ins[1..]).value;
      var all := [ins[0].(stack := stack.value)] + more.value;
      assert all[1..] == more.value;
      forall k | 0 <= k < |all| ensures all[k].(stack := ins[k].stack) == ins[k] && StackFits(all[k].stack) {
        assert k > 0 ==> all[k] == more.value[k - 1] && ins[k] == ins[1..][k - 1];
      }
      assert data == WriteStack(stack.value) + (WriteStacks(more.value) + more.rest);
    }
  }

  lemma StacksFollow(data: Data, after: Data, ins: seq<TxIn>, bare: seq<TxIn>, rest: Data)
    requires ins != [] && bare != [] && bare[0].(stack := ins[0].stack) == ins[0]
    requires ReadStack(data) == Some(Parsed(ins[0].stack, after))
    requires ReadStacks(after, bare[1..]) == Some(Parsed(ins[1..], rest))
    ensures ReadStacks(data, bare) == Some(Parsed(ins, rest))
  {
    hide ReadStack;
    assert ins == [ins[0]] + ins[1..];
  }

  lemma {:induction false} StacksReadBack(ins: seq<TxIn>, bare: seq<TxIn>, rest: Data)
    requires SameBut(ins, bare) && StacksFit(ins)
    ensures ReadStacks(WriteStacks(ins) + rest, bare) == Some(Parsed(ins, rest))
    decreases |ins|
  {
    if ins == [] {
      assert WriteStacks(ins) + rest == rest;
    } else {
      hide ReadStack, WriteStack, StackFits, ReadStacks;
      var after := WriteStacks(ins[1..]) + rest;
      assert WriteStacks(ins) + rest == WriteStack(ins[0].stack) + after;
      StackReadsBack(ins[0].stack, after);
      assert SameBut(ins[1..], bare[1..]) by {
        assert forall k :: 0 <= k < |ins| - 1 ==> ins[1..][k] == ins[k + 1] && bare[1..][k] == bare[k + 1];
      }
      StacksReadBack(ins[1..], bare[1..], rest);
      StacksFollow(WriteStacks(ins) + rest, after, ins, bare, rest);
    }
  }

  function Bare(ins: seq<TxIn>): seq<TxIn> { seq(|ins|, k requires 0 <= k < |ins| => ins[k].(stack := [])) }

  /** The witness does not show in the list of inputs. */
  lemma {:induction false} InputsIgnoreWitness(ins: seq<TxIn>, bare: seq<TxIn>)
    requires SameBut(ins, bare)
    ensures WriteItems(WriteTxIn, ins) == WriteItems(WriteTxIn, bare)
  {
    if ins != [] {
      assert WriteTxIn(ins[0]) == WriteTxIn(bare[0]) by {
        assert ins[0].(stack := bare[0].stack) == bare[0];
      }
      assert SameBut(ins[1..], bare[1..]) by {
        assert forall k :: 0 <= k < |ins| - 1 ==> ins[1..][k] == ins[k + 1] && bare[1..][k] == bare[k + 1];
      }
      InputsIgnoreWitness(ins[1..], bare[1..]);
    }
  }
}
