/**
How the outputs a block spends are kept on disk. A record loses the zeros at its end and its amount
shrinks to a base-128 integer; its length tells how many zeros to put back. Coin words are kept
relative to the highest one of their block.
 */
module LinkedOutputs {
  import opened ByteData
  import opened Wrappers
  import opened WireFormat
  import opened VarInt

  const AMOUNT_OFFSET: nat := 1
  const TAIL_OFFSET: nat := 9

  /** Long enough for a flags byte and an amount: what `writeOutput` asserts. */
  type Record = r: Data | |r| >= TAIL_OFFSET witness [0, 0, 0, 0, 0, 0, 0, 0, 0]

  function Zeros(n: nat): (s: Data)
    ensures |s| == n && forall k :: 0 <= k < n ==> s[k] == 0
  {
    seq(n, _ => 0 as Byte)
  }

  predicate EndsInZero(s: Data) { s != [] && s[|s| - 1] == 0 }

  /** A tail without its zeros. */
  function Trimmed(s: Data): (t: Data)
    ensures |t| <= |s| && !EndsInZero(t) && s == t + Zeros(|s| - |t|)
  {
    if EndsInZero(s) then Trimmed(s[..|s| - 1]) else s
  }

  lemma {:induction false} TrimmedOf(t: Data, n: nat)
    requires !EndsInZero(t)
    ensures Trimmed(t + Zeros(n)) == t
  {
    var s := t + Zeros(n);
    if n == 0 {
      assert s == t;
    } else {
      TrimmedOf(t, n - 1);
      assert s[..|s| - 1] == t + Zeros(n - 1);
    }
  }

  /** The loop of `writeOutput`. */
  method StoredSize(data: Data) returns (stored: nat)
    requires |data| >= TAIL_OFFSET
    ensures TAIL_OFFSET <= stored <= |data| && data[TAIL_OFFSET..stored] == Trimmed(data[TAIL_OFFSET..])
  {
    ghost var tail := data[TAIL_OFFSET..];
    stored := |data|;
    assert data[TAIL_OFFSET..stored] == tail;
    while stored > TAIL_OFFSET && data[stored - 1] == 0
      invariant TAIL_OFFSET <= stored <= |data| && Trimmed(data[TAIL_OFFSET..stored]) == Trimmed(tail)
    {
      ghost var before := data[TAIL_OFFSET..stored];
      assert before[..|before| - 1] == data[TAIL_OFFSET..stored - 1];
      stored := stored - 1;
    }
  }

  // ---- one record ---------------------------------------------------------------------------------

  function Amount(record: Record): nat { Little(record[AMOUNT_OFFSET..TAIL_OFFSET]) }

  function Body(flags: Byte, amount: nat, tail: Data): Data { [flags] + (WriteInt(amount) + WriteBytes(tail)) }

  /** `writeOutput`. */
  function WriteOutput(record: Record): Data {
    WriteSize(|record|) + Body(record[0], Amount(record), Trimmed(record[TAIL_OFFSET..]))
  }

  datatype Fields = Fields(flags: Byte, amount: nat, tail: Data)

  function ReadBody(data: Data): Option<Parsed<Fields>> {
    if data == [] then None else
    match ReadInt(data[1..], MAX_64)
    case None => None
    case Some(amount) =>
      match ReadBytes(amount.rest)
      case None => None
      case Some(tail) => Some(Parsed(Fields(data[0], amount.value, tail.value), tail.rest))
  }

  function Built(size: nat, f: Fields): (r: Record)
    requires TAIL_OFFSET + |f.tail| <= size
    ensures |r| == size
  {
    ToLittleLength(f.amount, 8);
    [f.flags] + (ToLittle(f.amount, 8) + (f.tail + Zeros(size - TAIL_OFFSET - |f.tail|)))
  }

  /** `readOutput`. */
  function ReadOutput(data: Data): Option<Parsed<Record>> {
    match ReadSize(data)
    case None => None
    case Some(size) =>
      match ReadBody(size.rest)
      case None => None
      case Some(body) =>
        if TAIL_OFFSET + |body.value.tail| > size.value then None
        else Some(Parsed(Built(size.value, body.value), body.rest))
  }

  lemma AmountFits(record: Record)
    ensures Amount(record) <= MAX_64 && ToLittle(Amount(record), 8) == record[AMOUNT_OFFSET..TAIL_OFFSET]
  {
    EightBytes();
    LittleBounds(record[AMOUNT_OFFSET..TAIL_OFFSET]);
    LittleWritesBack(record[AMOUNT_OFFSET..TAIL_OFFSET]);
  }

  lemma BodyReadsBack(flags: Byte, amount: nat, tail: Data, rest: Data)
    requires amount <= MAX_64 && |tail| <= MAX_SERIALIZED_SIZE
    ensures ReadBody(Body(flags, amount, tail) + rest) == Some(Parsed(Fields(flags, amount, tail), rest))
  {
    var data := Body(flags, amount, tail) + rest;
    assert data[1..] == WriteInt(amount) + (WriteBytes(tail) + rest);
    IntReadsBack(amount, WriteBytes(tail) + rest, MAX_64);
    BytesReadBack(tail, rest);
  }

  lemma BuiltIs(record: Record)
    ensures Built(|record|, Fields(record[0], Amount(record), Trimmed(record[TAIL_OFFSET..]))) == record
  {
    AmountFits(record);
    var tail := record[TAIL_OFFSET..];
    assert record == [record[0]] + (record[AMOUNT_OFFSET..TAIL_OFFSET] + tail);
  }

  predicate Short(record: Record) { |record| <= MAX_SERIALIZED_SIZE }

  lemma OutputReads(record: Record, rest: Data)
    requires Short(record)
    ensures ReadOutput(WriteOutput(record) + rest) == Some(Parsed(record, rest))
  {
    var tail := Trimmed(record[TAIL_OFFSET..]);
    var body := Body(record[0], Amount(record), tail);
    AmountFits(record);
    assert WriteOutput(record) + rest == WriteSize(|record|) + (body + rest);
    SizeReadsBack(|record|, body + rest);
    BodyReadsBack(record[0], Amount(record), tail, rest);
    BuiltIs(record);
  }

  lemma ReadIsShort(data: Data)
    ensures ReadOutput(data).Some? ==> Short(ReadOutput(data).value.value)
  {
    if ReadOutput(data).Some? {
      SizeWritesBack(data);
    }
  }

  /** Any record comes back byte for byte, unless it is longer than a size may say. */
  lemma OutputReadsBack(record: Record, rest: Data)
    ensures ReadOutput(WriteOutput(record) + rest) == Some(Parsed(record, rest)) <==> Short(record)
  {
    ReadIsShort(WriteOutput(record) + rest);
    if Short(record) {
      OutputReads(record, rest);
    }
  }

  lemma Joined(a: Data, b: Data, c: Data, rest: Data)
    ensures a + (b + (c + rest)) == (a + (b + c)) + rest
  {
  }

  lemma BodyWritesBack(data: Data)
    requires ReadBody(data).Some?
    ensures
      var r := ReadBody(data).value;
      r.value.amount <= MAX_64 && |r.value.tail| <= MAX_SERIALIZED_SIZE
          && data == Body(r.value.flags, r.value.amount, r.value.tail) + r.rest
  {
    Widths();
    IntWritesBack(data[1..], MAX_64);
    var amount := ReadInt(data[1..], MAX_64).value;
    BytesWriteBack(amount.rest);
    var tail := ReadBytes(amount.rest).value;
    assert data == [data[0]] + data[1..];
    Joined([data[0]], WriteInt(amount.value), WriteBytes(tail.value), tail.rest);
  }

  lemma FieldsOfBuilt(size: nat, f: Fields)
    requires TAIL_OFFSET + |f.tail| <= size && f.amount <= MAX_64
    ensures
      var r := Built(size, f);
      r[0] == f.flags && Amount(r) == f.amount && r[TAIL_OFFSET..] == f.tail + Zeros(size - TAIL_OFFSET - |f.tail|)
  {
    EightBytes();
    LittleReadsBack(f.amount, 8);
    var r := Built(size, f);
    assert r[AMOUNT_OFFSET..TAIL_OFFSET] == ToLittle(f.amount, 8);
  }

  lemma StoredTwice(size: nat, f: Fields)
    requires TAIL_OFFSET + |f.tail| <= size && f.amount <= MAX_64
    ensures EndsInZero(f.tail) || WriteOutput(Built(size, f)) == WriteSize(size) + Body(f.flags, f.amount, f.tail)
  {
    FieldsOfBuilt(size, f);
    if !EndsInZero(f.tail) {
      TrimmedOf(f.tail, size - TAIL_OFFSET - |f.tail|);
    }
  }

  /** What is read is written back as it lay exactly when its tail was stored without zeros at the end. */
  lemma OutputWritesBack(data: Data)
    requires ReadOutput(data).Some?
    ensures
      var r := ReadOutput(data).value;
      data == WriteOutput(r.value) + r.rest <==> !EndsInZero(ReadBody(ReadSize(data).value.rest).value.value.tail)
  {
    SizeWritesBack(data);
    var size := ReadSize(data).value;
    BodyWritesBack(size.rest);
    var body := ReadBody(size.rest).value;
    var f := body.value;
    StoredTwice(size.value, f);
    var record := Built(size.value, f);
    var written := Body(f.flags, f.amount, f.tail);
    assert data == (WriteSize(size.value) + written) + body.rest;
    if data == WriteOutput(record) + body.rest {
      TailIsTrimmed(record, body.rest);
    }
  }

  lemma TailIsTrimmed(record: Record, rest: Data)
    requires Short(record)
    ensures
      var data := WriteOutput(record) + rest;
      ReadSize(data).Some? && ReadBody(ReadSize(data).value.rest).Some?
      && !EndsInZero(ReadBody(ReadSize(data).value.rest).value.value.tail)
  {
    var tail := Trimmed(record[TAIL_OFFSET..]);
    var body := Body(record[0], Amount(record), tail);
    AmountFits(record);
    assert WriteOutput(record) + rest == WriteSize(|record|) + (body + rest);
    SizeReadsBack(|record|, body + rest);
    BodyReadsBack(record[0], Amount(record), tail, rest);
  }

  // ---- the records of a transaction and of a block --------------------------------------------------

  /** `CTxLinkedOutputs::io`. */
  function WriteTx(records: seq<Record>): Data { WriteVec(WriteOutput, records) }

  function ReadTx(data: Data): Option<Parsed<seq<Record>>> { ReadVec(ReadOutput, data) }

  ghost predicate TxFits(records: seq<Record>) { |records| <= MAX_SERIALIZED_SIZE && All(Short, records) }

  lemma OutputsReadBack()
    ensures ReadsBack(ReadOutput, WriteOutput, Short) && forall r: Record :: Short(r) ==> |WriteOutput(r)| > 0
  {
    forall r: Record, rest | Short(r) ensures ReadOutput(WriteOutput(r) + rest) == Some(Parsed(r, rest)) {
      OutputReads(r, rest);
    }
    forall r: Record | Short(r) ensures |WriteOutput(r)| > 0 {
    }
  }

  lemma {:induction false} ItemsFit<T(!new)>(read: Data -> Option<Parsed<T>>, ok: T -> bool, data: Data, n: nat)
    requires forall d :: read(d).Some? ==> ok(read(d).value.value)
    ensures ReadItems(read, data, n).Some? ==>
        |ReadItems(read, data, n).value.value| == n && All(ok, ReadItems(read, data, n).value.value)
    decreases n
  {
    if n > 0 && ReadItems(read, data, n).Some? {
      ItemsFit(read, ok, read(data).value.rest, n - 1);
    }
  }

  lemma VecFits<T(!new)>(read: Data -> Option<Parsed<T>>, ok: T -> bool, data: Data)
    requires forall d :: read(d).Some? ==> ok(read(d).value.value)
    ensures ReadVec(read, data).Some? ==>
        |ReadVec(read, data).value.value| <= MAX_SERIALIZED_SIZE && All(ok, ReadVec(read, data).value.value)
  {
    if ReadVec(read, data).Some? {
      SizeWritesBack(data);
      var count := ReadSize(data).value;
      ItemsFit(read, ok, count.rest, count.value);
    }
  }

  lemma TxReadFits(data: Data)
    ensures ReadTx(data).Some? ==> TxFits(ReadTx(data).value.value)
  {
    forall d ensures ReadOutput(d).Some? ==> Short(ReadOutput(d).value.value) {
      ReadIsShort(d);
    }
    VecFits(ReadOutput, Short, data);
  }

  lemma TxReads(records: seq<Record>, rest: Data)
    requires TxFits(records)
    ensures ReadTx(WriteTx(records) + rest) == Some(Parsed(records, rest)) && |WriteTx(records)| > 0
  {
    OutputsReadBack();
    VecReadsBack(ReadOutput, WriteOutput, Short, records, rest);
    SizeIsSize(|records|);
  }

  ghost predicate AllFit(txs: seq<seq<Record>>) {
    |txs| <= MAX_SERIALIZED_SIZE && forall k :: 0 <= k < |txs| ==> TxFits(txs[k])
  }

  lemma TxsRead(txs: seq<seq<Record>>, rest: Data)
    requires AllFit(txs)
    ensures ReadVec(ReadTx, WriteVec(WriteTx, txs) + rest) == Some(Parsed(txs, rest))
  {
    var ok: seq<Record> -> bool := r => |r| <= MAX_SERIALIZED_SIZE && forall k :: 0 <= k < |r| ==> Short(r[k]);
    forall r: seq<Record>, after | ok(r) ensures ReadTx(WriteTx(r) + after) == Some(Parsed(r, after))
        && |WriteTx(r)| > 0 {
      TxReads(r, after);
    }
    VecReadsBack(ReadTx, WriteTx, ok, txs, rest);
  }

  // ---- the coin words -----------------------------------------------------------------------------------

  /** The largest of some words, and zero of none. */
  function Top(ms: seq<nat>): (top: nat)
    ensures forall k :: 0 <= k < |ms| ==> ms[k] <= top
    ensures if ms == [] then top == 0 else top in ms
  {
    if ms == [] then 0 else
    var more := Top(ms[1..]);
    if ms[0] >= more then ms[0] else assert more in ms[1..]; more
  }

  function Distance(top: nat, m: nat): nat { if m <= top then top - m else 0 }

  function WriteDistances(top: nat, ms: seq<nat>): Data {
    if ms == [] then [] else WriteInt(Distance(top, ms[0])) + WriteDistances(top, ms[1..])
  }

  function ReadDistances(data: Data, top: nat, n: nat): Option<Parsed<seq<nat>>>
    decreases n
  {
    if n == 0 then Some(Parsed([], data)) else
    match ReadInt(data, MAX_32)
    case None => None
    case Some(d) =>
      if d.value > top then None else
      match ReadDistances(d.rest, top, n - 1)
      case None => None
      case Some(more) => Some(Parsed([(top - d.value) as nat] + more.value, more.rest))
  }

  function WriteWords(ms: seq<nat>): Data { WriteSize(|ms|) + (WriteInt(Top(ms)) + WriteDistances(Top(ms), ms)) }

  function ReadWords(data: Data): Option<Parsed<seq<nat>>> {
    match ReadSize(data)
    case None => None
    case Some(count) =>
      match ReadInt(count.rest, MAX_32)
      case None => None
      case Some(top) => if count.value > |top.rest| then None else ReadDistances(top.rest, top.value, count.value)
  }

  lemma {:induction false} DistancesRead(ms: seq<nat>, top: nat, rest: Data)
    requires top <= MAX_32 && forall k :: 0 <= k < |ms| ==> ms[k] <= top
    ensures ReadDistances(WriteDistances(top, ms) + rest, top, |ms|) == Some(Parsed(ms, rest))
        && |WriteDistances(top, ms)| >= |ms|
  {
    if ms == [] {
      assert WriteDistances(top, ms) + rest == rest;
    } else {
      DistancesRead(ms[1..], top, rest);
      var more := WriteDistances(top, ms[1..]) + rest;
      IntReadsBack(top - ms[0], more, MAX_32);
      assert WriteDistances(top, ms) + rest == WriteInt(top - ms[0]) + more;
      assert ms == [ms[0]] + ms[1..];
    }
  }

  predicate WordsFit(ms: seq<nat>) { |ms| <= MAX_SERIALIZED_SIZE && forall k :: 0 <= k < |ms| ==> ms[k] <= MAX_32 }

  lemma WordsRead(ms: seq<nat>, rest: Data)
    requires WordsFit(ms)
    ensures ReadWords(WriteWords(ms) + rest) == Some(Parsed(ms, rest))
  {
    var top := Top(ms);
    var items := WriteDistances(top, ms) + rest;
    assert WriteWords(ms) + rest == WriteSize(|ms|) + (WriteInt(top) + items);
    SizeReadsBack(|ms|, WriteInt(top) + items);
    IntReadsBack(top, items, MAX_32);
    DistancesRead(ms, top, rest);
  }

  lemma {:induction false} DistancesFit(data: Data, top: nat, n: nat)
    ensures ReadDistances(data, top, n).Some? ==>
        |ReadDistances(data, top, n).value.value| == n
        && forall k :: 0 <= k < n ==> ReadDistances(data, top, n).value.value[k] <= top
    decreases n
  {
    if n > 0 && ReadDistances(data, top, n).Some? {
      DistancesFit(ReadInt(data, MAX_32).value.rest, top, n - 1);
    }
  }

  lemma WordsReadFit(data: Data)
    ensures ReadWords(data).Some? ==> WordsFit(ReadWords(data).value.value)
  {
    if ReadWords(data).Some? {
      SizeWritesBack(data);
      var count := ReadSize(data).value;
      Widths();
      IntWritesBack(count.rest, MAX_32);
      var top := ReadInt(count.rest, MAX_32).value;
      DistancesFit(top.rest, top.value, count.value);
    }
  }

  // ---- a block ----------------------------------------------------------------------------------------

  datatype Linked = Linked(tx: seq<seq<Record>>, meta: seq<nat>)

  /** `CBlockLinkedOutputs::io`. */
  function WriteLinked(d: Linked): Data { WriteVec(WriteTx, d.tx) + WriteWords(d.meta) }

  function ReadLinked(data: Data): Option<Parsed<Linked>> {
    match ReadVec(ReadTx, data)
    case None => None
    case Some(tx) =>
      match ReadWords(tx.rest)
      case None => None
      case Some(meta) => Some(Parsed(Linked(tx.value, meta.value), meta.rest))
  }

  lemma TxsReadFit(data: Data)
    ensures ReadVec(ReadTx, data).Some? ==> AllFit(ReadVec(ReadTx, data).value.value)
  {
    var ok: seq<Record> -> bool := r => |r| <= MAX_SERIALIZED_SIZE && forall k :: 0 <= k < |r| ==> Short(r[k]);
    forall d ensures ReadTx(d).Some? ==> ok(ReadTx(d).value.value) {
      TxReadFits(d);
    }
    VecFits(ReadTx, ok, data);
  }

  /**
  Linked outputs and coin words come back as they were exactly when every count, record and word fits
  its encoding.
   */
  lemma LinkedReadsBack(d: Linked, rest: Data)
    ensures ReadLinked(WriteLinked(d) + rest) == Some(Parsed(d, rest)) <==> AllFit(d.tx) && WordsFit(d.meta)
  {
    var data := WriteLinked(d) + rest;
    assert data == WriteVec(WriteTx, d.tx) + (WriteWords(d.meta) + rest);
    if AllFit(d.tx) && WordsFit(d.meta) {
      TxsRead(d.tx, WriteWords(d.meta) + rest);
      WordsRead(d.meta, rest);
    }
    if ReadLinked(data) == Some(Parsed(d, rest)) {
      TxsReadFit(data);
      WordsReadFit(ReadVec(ReadTx, data).value.rest);
    }
  }
}
