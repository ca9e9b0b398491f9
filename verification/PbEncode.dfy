/**
The readers against a writer that knows nothing of them: tags, minimal varints, signed numbers modulo two to
the sixty-fourth, counted bytes, messages inside messages, members in the order of their numbers. What is
written reads back as it was, and bytes that the ordered reader accepts are the ones written for what it read.
 */
module PbEncode {
  import opened ByteData
  import opened Wrappers
  import opened PbWire
  import opened PbReaders
  import opened PbEquivalence

  // ---- the writer ----------------------------------------------------------------------------

  /** A field on the wire: its tag, then a number or counted bytes. */
  function WriteField(f: Field): Data {
    if f.wire == VARINT then EncodeVarint(8 * f.number) + EncodeVarint(f.value)
    else EncodeVarint(8 * f.number + 2) + (EncodeVarint(|f.payload|) + f.payload)
  }

  function WriteFields(fields: seq<Field>): Data {
    if fields == [] then [] else WriteField(fields[0]) + WriteFields(fields[1..])
  }

  /** A number in sixty-four bits, a negative one from the top. */
  function Unsigned(n: int): int { if n >= 0 then n else 0x1_0000_0000_0000_0000 + n }

  function FieldOf(number: nat, kind: Kind, v: Value): Field
    decreases kind, 0
  {
    match kind
    case Message(shape) => Field(number, BYTES, 0, if v.Object? then EncodeMessage(shape, v.slots) else [])
    case Blob(_) => Field(number, BYTES, 0, if v.Bytes? then v.bytes else [])
    case ByteString => Field(number, BYTES, 0, if v.Bytes? then v.bytes else [])
    case _ => Field(number, VARINT, if v.Num? && Unsigned(v.n) >= 0 then Unsigned(v.n) else 0, [])
  }

  function ListFields(number: nat, kind: Kind, vs: seq<Value>): seq<Field>
    decreases kind, 1, |vs|
  {
    if vs == [] then [] else [FieldOf(number, kind, vs[0])] + ListFields(number, kind, vs[1..])
  }

  function SlotFields(number: nat, kind: Kind, slot: Slot): seq<Field>
    decreases kind, 2
  {
    match slot
    case Unset => []
    case Set(v) => [FieldOf(number, kind, v)]
    case List(vs) => ListFields(number, kind, vs)
  }

  function FieldsOf(shape: Shape, slots: seq<Slot>): seq<Field>
    decreases shape, 0
  {
    if shape.End? || slots == [] then []
    else SlotFields(shape.number, shape.kind, slots[0]) + FieldsOf(shape.rest, slots[1..])
  }

  function EncodeMessage(shape: Shape, slots: seq<Slot>): Data
    decreases shape, 1
  {
    WriteFields(FieldsOf(shape, slots))
  }

  // ---- objects of a shape ----------------------------------------------------------------------

  ghost predicate Fits(kind: Kind, v: Value)
    decreases kind, 0
  {
    match kind
    case U64 => v.Num? && 0 <= v.n < 0x1_0000_0000_0000_0000
    case I64 => v.Num? && -0x8000_0000_0000_0000 <= v.n < 0x8000_0000_0000_0000
    case I32 => v.Num? && -0x8000_0000 <= v.n < 0x8000_0000
    case Flag => v.Num? && (v.n == 0 || v.n == 1)
    case Blob(size) => v.Bytes? && |v.bytes| == size < 0x1_0000_0000_0000_0000
    case ByteString => v.Bytes? && |v.bytes| < 0x1_0000_0000_0000_0000
    case Message(shape) =>
      v.Object? && FitsShape(shape, v.slots) && |EncodeMessage(shape, v.slots)| < 0x1_0000_0000_0000_0000
  }

  ghost predicate FitsSlot(mode: Mode, kind: Kind, slot: Slot)
    decreases kind, 1
  {
    match mode
    case Optional => slot.Unset? || (slot.Set? && Fits(kind, slot.value))
    case Required => slot.Set? && Fits(kind, slot.value)
    case Repeated => slot.List? && forall k :: 0 <= k < |slot.values| ==> Fits(kind, slot.values[k])
  }

  /** One slot for every line, each of its kind. */
  ghost predicate FitsShape(shape: Shape, slots: seq<Slot>)
    decreases shape, 0
  {
    match shape
    case End => slots == []
    case Line(_, mode, kind, rest) => slots != [] && FitsSlot(mode, kind, slots[0]) && FitsShape(rest, slots[1..])
  }

  // ---- fields on the wire ------------------------------------------------------------------------

  /** Fields the writer writes. */
  predicate Plain(f: Field) {
    && 0 < f.number < 0x2000_0000
    && ((f.wire == VARINT && f.value < WORD_64 && f.payload == [])
        || (f.wire == BYTES && f.value == 0 && |f.payload| < WORD_64))
  }

  lemma TagReads(number: nat, wire: nat, rest: Data)
    requires 0 < number < 0x2000_0000 && wire < 8
    ensures Varint(EncodeVarint(8 * number + wire) + rest) == Some(Number(8 * number + wire, rest))
    ensures 8 <= 8 * number + wire <= 0xFFFF_FFFF
    ensures (8 * number + wire) / 8 == number && (8 * number + wire) % 8 == wire
  {
    VarintIsMinimal(EncodeVarint(8 * number + wire) + rest, 8 * number + wire, rest);
  }

  lemma FieldReadsBack(f: Field, rest: Data)
    requires Plain(f)
    ensures NextField(WriteField(f) + rest) == Some(Read(f, rest))
  {
    hide Varint, EncodeVarint;
    if f.wire == VARINT {
      var after := EncodeVarint(f.value) + rest;
      assert WriteField(f) + rest == EncodeVarint(8 * f.number + 0) + after;
      TagReads(f.number, 0, after);
      VarintIsMinimal(after, f.value, rest);
    } else {
      var after := EncodeVarint(|f.payload|) + (f.payload + rest);
      assert WriteField(f) + rest == EncodeVarint(8 * f.number + 2) + after;
      TagReads(f.number, 2, after);
      VarintIsMinimal(after, |f.payload|, f.payload + rest);
    }
  }

  lemma {:induction false} FieldsReadBack(fields: seq<Field>)
    requires forall k :: 0 <= k < |fields| ==> Plain(fields[k])
    ensures WalkOf(WriteFields(fields)) == Walk(fields, false)
  {
    if fields != [] {
      hide NextField, WriteField;
      var rest := WriteFields(fields[1..]);
      FieldsReadBack(fields[1..]);
      FieldReadsBack(fields[0], rest);
      assert fields == [fields[0]] + fields[1..];
    }
  }

  lemma FieldWritesBack(data: Data)
    requires NextField(data).Some?
    ensures
      var r := NextField(data).value;
      && 0 < r.field.number < 0x2000_0000
      && (r.field.wire == VARINT || r.field.wire == BYTES ==> Plain(r.field) && data == WriteField(r.field) + r.rest)
  {
    hide VarintFrom, EncodeVarint;
    var key, r := Varint(data).value, NextField(data).value;
    VarintIsMinimal(data, key.value, key.rest);
    assert key.value == 8 * (key.value / 8) + key.value % 8;
    if r.field.wire == VARINT {
      VarintIsMinimal(key.rest, r.field.value, r.rest);
      assert data == WriteField(r.field) + r.rest;
    } else if r.field.wire == BYTES {
      var size := Varint(key.rest).value;
      VarintIsMinimal(key.rest, size.value, size.rest);
      assert size.rest == r.field.payload + r.rest;
      assert data == WriteField(r.field) + r.rest;
    }
  }

  /** The two fixed widths: eight bytes behind wire type 1, four behind wire type 5, the lowest first. */
  predicate Fixed(wire: nat, bytes: Data) { (wire == 1 && |bytes| == 8) || (wire == 5 && |bytes| == 4) }

  lemma FixedReadsBack(number: nat, wire: nat, bytes: Data, rest: Data)
    requires 0 < number < 0x2000_0000 && Fixed(wire, bytes)
    ensures NextField(EncodeVarint(8 * number + wire) + (bytes + rest))
         == Some(Read(Field(number, wire, Little(bytes), []), rest))
  {
    hide Varint, EncodeVarint, Little;
    TagReads(number, wire, bytes + rest);
    assert (bytes + rest)[..|bytes|] == bytes && (bytes + rest)[|bytes|..] == rest;
  }

  /** There is no other wire type. */
  lemma FixedWritesBack(data: Data) returns (bytes: Data)
    requires NextField(data).Some? && NextField(data).value.field.wire !in {VARINT, BYTES}
    ensures
      var f, rest := NextField(data).value.field, NextField(data).value.rest;
      && Fixed(f.wire, bytes) && data == EncodeVarint(8 * f.number + f.wire) + (bytes + rest)
      && f.value == Little(bytes) && f.payload == []
  {
    hide VarintFrom, EncodeVarint, Little;
    var key, r := Varint(data).value, NextField(data).value;
    VarintIsMinimal(data, key.value, key.rest);
    assert key.value == 8 * (key.value / 8) + key.value % 8;
    bytes := key.rest[..|key.rest| - |r.rest|];
    assert key.rest == bytes + r.rest;
  }

  lemma {:induction false} WalkWritesBack(data: Data)
    requires
      var w := WalkOf(data);
      !w.bad && forall k :: 0 <= k < |w.fields| ==> w.fields[k].wire == VARINT || w.fields[k].wire == BYTES
    ensures data == WriteFields(WalkOf(data).fields)
    ensures forall k :: 0 <= k < |WalkOf(data).fields| ==> Plain(WalkOf(data).fields[k])
    decreases |data|
  {
    if data != [] {
      hide WriteField;
      var r := NextField(data).value;
      FieldShrinks(data);
      FieldWritesBack(data);
      var w, more := WalkOf(data), WalkOf(r.rest);
      assert w.fields == [r.field] + more.fields;
      assert w.fields[0] == r.field && forall k :: 0 <= k < |more.fields| ==> more.fields[k] == w.fields[k + 1];
      WalkWritesBack(r.rest);
      assert w.fields[1..] == more.fields;
    }
  }

  // ---- numbers ascend -------------------------------------------------------------------------------

  lemma {:induction false} ListNumbers(number: nat, kind: Kind, vs: seq<Value>)
    ensures |ListFields(number, kind, vs)| == |vs|
    ensures forall k :: 0 <= k < |vs| ==> ListFields(number, kind, vs)[k] == FieldOf(number, kind, vs[k])
    decreases vs
  {
    if vs != [] {
      ListNumbers(number, kind, vs[1..]);
    }
  }

  lemma SlotNumbers(number: nat, kind: Kind, slot: Slot, k: nat)
    requires k < |SlotFields(number, kind, slot)|
    ensures var f := SlotFields(number, kind, slot)[k]; f.number == number && (f.wire == VARINT || f.wire == BYTES)
  {
    if slot.List? {
      ListNumbers(number, kind, slot.values);
      assert SlotFields(number, kind, slot)[k] == FieldOf(number, kind, slot.values[k]);
    }
  }

  /** The first line's fields, then fields of greater numbers only. */
  lemma {:induction false} FieldsAbove(shape: Shape, least: nat, slots: seq<Slot>, k: nat)
    requires Ascending(shape, least) && k < |FieldsOf(shape, slots)|
    ensures FieldsOf(shape, slots)[k].number > least
    decreases shape
  {
    var first := SlotFields(shape.number, shape.kind, slots[0]);
    if k < |first| {
      SlotNumbers(shape.number, shape.kind, slots[0], k);
    } else {
      FieldsAbove(shape.rest, shape.number, slots[1..], k - |first|);
    }
  }

  lemma FieldsRun(shape: Shape, least: nat, slots: seq<Slot>)
    requires Ascending(shape, least) && shape.Line? && slots != []
    ensures RunAt(FieldsOf(shape, slots), shape.number, |SlotFields(shape.number, shape.kind, slots[0])|)
  {
    var fields, first := FieldsOf(shape, slots), SlotFields(shape.number, shape.kind, slots[0]);
    var more := FieldsOf(shape.rest, slots[1..]);
    assert fields == first + more;
    forall k | 0 <= k < |first| ensures fields[k].number == shape.number {
      SlotNumbers(shape.number, shape.kind, slots[0], k);
    }
    forall k | |first| <= k < |fields| ensures fields[k].number > shape.number {
      FieldsAbove(shape.rest, shape.number, slots[1..], k - |first|);
    }
  }

  lemma {:induction false} FieldsInOrder(shape: Shape, least: nat, slots: seq<Slot>)
    requires Ascending(shape, least)
    ensures NonDecreasing(FieldsOf(shape, slots))
    decreases shape
  {
    if shape.Line? && slots != [] {
      FieldsInOrder(shape.rest, shape.number, slots[1..]);
      FieldsRun(shape, least, slots);
      var fields, n := FieldsOf(shape, slots), |SlotFields(shape.number, shape.kind, slots[0])|;
      assert fields[n..] == FieldsOf(shape.rest, slots[1..]);
      forall k | 0 < k < |fields| ensures fields[k - 1].number <= fields[k].number {
        if k > n {
          assert fields[n..][k - n - 1].number <= fields[n..][k - n].number;
        }
      }
    }
  }

  // ---- what is written reads back -----------------------------------------------------------------------

  /** Two's complement, and back. */
  lemma SignedIs(n: int)
    requires -0x8000_0000_0000_0000 <= n < 0x8000_0000_0000_0000
    ensures 0 <= Unsigned(n) < WORD_64 && Signed(Unsigned(n)) == n
  {
  }

  lemma UnsignedIs(v: nat)
    requires v < WORD_64
    ensures -0x8000_0000_0000_0000 <= Signed(v) < 0x8000_0000_0000_0000 && Unsigned(Signed(v)) == v
  {
  }

  lemma {:induction false} ValueReadsBack(number: nat, kind: Kind, v: Value)
    requires 0 < number < 0x2000_0000 && Fits(kind, v) && (kind.Message? ==> Ascending(kind.shape, 0))
    ensures ReadField(kind, FieldOf(number, kind, v), true) == Some(v) && Plain(FieldOf(number, kind, v))
    decreases kind, 0
  {
    match kind
    case Message(shape) => OrderedReadsBack(shape, v.slots);
    case I64 => SignedIs(v.n);
    case I32 => SignedIs(v.n);
    case _ =>
  }

  lemma {:induction false} ListReadsBack(number: nat, kind: Kind, vs: seq<Value>)
    requires 0 < number < 0x2000_0000 && (kind.Message? ==> Ascending(kind.shape, 0))
    requires forall k :: 0 <= k < |vs| ==> Fits(kind, vs[k])
    ensures ReadAll(kind, ListFields(number, kind, vs), true) == Some(vs)
    ensures forall k :: 0 <= k < |ListFields(number, kind, vs)| ==> Plain(ListFields(number, kind, vs)[k])
    decreases kind, 1, |vs|
  {
    ListNumbers(number, kind, vs);
    if vs != [] {
      var fields := ListFields(number, kind, vs);
      ValueReadsBack(number, kind, vs[0]);
      ListReadsBack(number, kind, vs[1..]);
      assert fields[1..] == ListFields(number, kind, vs[1..]) && vs == [vs[0]] + vs[1..];
    }
  }

  lemma SlotReadsBack(number: nat, mode: Mode, kind: Kind, slot: Slot)
    requires 0 < number < 0x2000_0000 && (kind.Message? ==> Ascending(kind.shape, 0)) && FitsSlot(mode, kind, slot)
    ensures ReadLine(mode, kind, SlotFields(number, kind, slot), true) == Some(slot)
    ensures forall k :: 0 <= k < |SlotFields(number, kind, slot)| ==> Plain(SlotFields(number, kind, slot)[k])
    decreases kind, 2
  {
    match slot
    case Unset =>
    case Set(v) => ValueReadsBack(number, kind, v);
    case List(vs) =>
      ListReadsBack(number, kind, vs);
      ListNumbers(number, kind, vs);
  }

  lemma {:induction false} LinesReadBack(shape: Shape, least: nat, slots: seq<Slot>)
    requires Ascending(shape, least) && FitsShape(shape, slots)
    ensures Search(shape, FieldsOf(shape, slots), true) == Some(slots)
    ensures forall k :: 0 <= k < |FieldsOf(shape, slots)| ==> Plain(FieldsOf(shape, slots)[k])
    decreases shape, 0
  {
    if shape.Line? {
      var fields, first := FieldsOf(shape, slots), SlotFields(shape.number, shape.kind, slots[0]);
      SlotReadsBack(shape.number, shape.mode, shape.kind, slots[0]);
      LinesReadBack(shape.rest, shape.number, slots[1..]);
      FieldsRun(shape, least, slots);
      HitLine(shape, least, fields, |first|);
      assert fields[..|first|] == first && fields[|first|..] == FieldsOf(shape.rest, slots[1..]);
      assert slots == [slots[0]] + slots[1..];
    }
  }

  /** Every object that fits its shape is read back by the one-pass reader. */
  lemma {:induction false} OrderedReadsBack(shape: Shape, slots: seq<Slot>)
    requires Ascending(shape, 0) && FitsShape(shape, slots)
    ensures ReadMessage(shape, EncodeMessage(shape, slots), true) == Some(slots)
    decreases shape, 1
  {
    var fields := FieldsOf(shape, slots);
    LinesReadBack(shape, 0, slots);
    FieldsReadBack(fields);
    FieldsInOrder(shape, 0, slots);
    CursorSearches(shape, 0, fields);
  }

  /** And by the searching reader. */
  lemma SearchingReadsBack(shape: Shape, slots: seq<Slot>)
    requires Ascending(shape, 0) && FitsShape(shape, slots)
    ensures ReadMessage(shape, EncodeMessage(shape, slots), false) == Some(slots)
  {
    OrderedReadsBack(shape, slots);
    OrderedIsSearching(shape, EncodeMessage(shape, slots));
  }

  // ---- what is read was written ---------------------------------------------------------------------------

  /** As the walk leaves them: the part that the wire type does not use is empty. */
  predicate Tidy(f: Field) {
    && 0 < f.number < 0x2000_0000
    && (f.wire == VARINT ==> f.value < WORD_64 && f.payload == [])
    && (f.wire == BYTES ==> f.value == 0 && |f.payload| < WORD_64)
  }

  lemma {:induction false} WalkIsTidy(data: Data)
    ensures forall k :: 0 <= k < |WalkOf(data).fields| ==> Tidy(WalkOf(data).fields[k])
    decreases |data|
  {
    if data != [] && NextField(data).Some? {
      FieldShrinks(data);
      FieldWritesBack(data);
      WalkIsTidy(NextField(data).value.rest);
    }
  }

  lemma {:induction false} ValueWritesBack(kind: Kind, f: Field)
    requires Tidy(f) && ReadField(kind, f, true).Some? && (kind.Message? ==> Ascending(kind.shape, 0))
    ensures var v := ReadField(kind, f, true).value; Fits(kind, v) && f == FieldOf(f.number, kind, v)
    decreases kind, 0
  {
    match kind
    case Message(shape) => OrderedWritesBack(shape, f.payload);
    case I64 => UnsignedIs(f.value);
    case I32 => UnsignedIs(f.value);
    case _ =>
  }

  lemma {:induction false} ListWritesBack(kind: Kind, number: nat, fields: seq<Field>)
    requires forall k :: 0 <= k < |fields| ==> Tidy(fields[k]) && fields[k].number == number
    requires ReadAll(kind, fields, true).Some? && (kind.Message? ==> Ascending(kind.shape, 0))
    ensures
      var vs := ReadAll(kind, fields, true).value;
      fields == ListFields(number, kind, vs) && forall k :: 0 <= k < |vs| ==> Fits(kind, vs[k])
    decreases kind, 1, |fields|
  {
    if fields != [] {
      ValueWritesBack(kind, fields[0]);
      ListWritesBack(kind, number, fields[1..]);
      var v, vs := ReadField(kind, fields[0], true).value, ReadAll(kind, fields[1..], true).value;
      assert ([v] + vs)[1..] == vs && fields == [fields[0]] + fields[1..];
    }
  }

  lemma LineWritesBack(mode: Mode, kind: Kind, number: nat, fields: seq<Field>)
    requires forall k :: 0 <= k < |fields| ==> Tidy(fields[k]) && fields[k].number == number
    requires ReadLine(mode, kind, fields, true).Some? && (kind.Message? ==> Ascending(kind.shape, 0))
    ensures
      var slot := ReadLine(mode, kind, fields, true).value;
      FitsSlot(mode, kind, slot) && fields == SlotFields(number, kind, slot)
    decreases kind, 2
  {
    if mode.Repeated? {
      ListWritesBack(kind, number, fields);
    } else if fields != [] {
      ValueWritesBack(kind, fields[0]);
    }
  }

  lemma EndClaimsNothing(fields: seq<Field>)
    ensures AllClaimed(End, fields) ==> fields == []
  {
    if fields != [] {
      assert !Claims(End, fields[0].number);
    }
  }

  lemma EndWritesBack(shape: Shape, fields: seq<Field>)
    requires shape.End? && Search(shape, fields, true).Some?
    ensures
      var slots := Search(shape, fields, true).value;
      FitsShape(shape, slots) && fields == FieldsOf(shape, slots)
  {
    EndClaimsNothing(fields);
  }

  /** Fields that are searched for with success begin with those of the first line. */
  lemma FrontRun(shape: Shape, least: nat, fields: seq<Field>)
    requires Ascending(shape, least) && shape.Line? && NonDecreasing(fields) && Search(shape, fields, true).Some?
    ensures RunAt(fields, shape.number, RunLength(fields, shape.number))
  {
    hide Search;
    if fields != [] && fields[0].number < shape.number {
      BelowLine(shape, least, fields);
    }
    forall k | 0 <= k < |fields| ensures fields[k].number >= shape.number { FirstIsLeast(fields, k); }
    RunIs(fields, shape.number);
  }

  lemma FieldsJoin(shape: Shape, slot: Slot, more: seq<Slot>, first: seq<Field>, left: seq<Field>)
    requires shape.Line? && FitsSlot(shape.mode, shape.kind, slot) && FitsShape(shape.rest, more)
    requires first == SlotFields(shape.number, shape.kind, slot) && left == FieldsOf(shape.rest, more)
    ensures FitsShape(shape, [slot] + more) && first + left == FieldsOf(shape, [slot] + more)
  {
    assert ([slot] + more)[1..] == more;
  }

  lemma {:induction false} LinesWriteBack(shape: Shape, least: nat, fields: seq<Field>)
    requires Ascending(shape, least) && NonDecreasing(fields) && forall k :: 0 <= k < |fields| ==> Tidy(fields[k])
    requires Search(shape, fields, true).Some?
    ensures
      var slots := Search(shape, fields, true).value;
      FitsShape(shape, slots) && fields == FieldsOf(shape, slots)
    decreases shape, 0
  {
    hide Search, ReadLine, SlotFields, FitsSlot, FieldsOf, FitsShape, Tidy, NonDecreasing, RunLength;
    if shape.End? {
      EndWritesBack(shape, fields);
    } else {
      var n := RunLength(fields, shape.number);
      FrontRun(shape, least, fields);
      HitLine(shape, least, fields, n);
      var first, left := fields[..n], fields[n..];
      LineWritesBack(shape.mode, shape.kind, shape.number, first);
      OrderedDrop(fields, n);
      LinesWriteBack(shape.rest, shape.number, left);
      FieldsJoin(shape, ReadLine(shape.mode, shape.kind, first, true).value, Search(shape.rest, left, true).value,
          first, left);
      assert fields == first + left;
    }
  }

  lemma {:induction false} FieldsArePlain(shape: Shape, slots: seq<Slot>, fields: seq<Field>)
    requires fields == FieldsOf(shape, slots)
    ensures forall k :: 0 <= k < |fields| ==> fields[k].wire == VARINT || fields[k].wire == BYTES
    decreases shape
  {
    if shape.Line? && slots != [] {
      var first, more := SlotFields(shape.number, shape.kind, slots[0]), FieldsOf(shape.rest, slots[1..]);
      forall k | 0 <= k < |first| ensures first[k].wire == VARINT || first[k].wire == BYTES {
        SlotNumbers(shape.number, shape.kind, slots[0], k);
      }
      FieldsArePlain(shape.rest, slots[1..], more);
      assert fields == first + more;
    }
  }

  /** Bytes the one-pass reader accepts are the bytes written for the object it builds, absent members included. */
  lemma {:induction false} OrderedWritesBack(shape: Shape, data: Data)
    requires Ascending(shape, 0) && ReadMessage(shape, data, true).Some?
    ensures
      var slots := ReadMessage(shape, data, true).value;
      FitsShape(shape, slots) && data == EncodeMessage(shape, slots)
    decreases shape, 1
  {
    var w, slots := WalkOf(data), ReadMessage(shape, data, true).value;
    if w.fields != [] && (w.bad || !NonDecreasing(w.fields)) {
      CursorStops(shape, w.fields, w.bad);
    }
    CursorSearches(shape, 0, w.fields);
    WalkIsTidy(data);
    LinesWriteBack(shape, 0, w.fields);
    FieldsArePlain(shape, slots, w.fields);
    WalkWritesBack(data);
  }
}
