/** The protobuf wire: varints in their one minimal form, fields, and the walk over a message. */
module PbWire {
  import opened ByteData
  import opened Wrappers

  // ---- varints --------------------------------------------------------------------------------

  datatype Number = Number(value: nat, rest: Data)

  /** `pbVarint` from its `n`th byte on: what the rest of it adds, in units of the bytes before. */
  function VarintFrom(data: Data, n: nat): Option<Number>
    requires n <= 9
    decreases 10 - n
  {
    if data == [] then None
    else if n == 9 then
      if data[0] == 1 then Some(Number(1, data[1..])) else None
    else if data[0] < 128 then
      if n > 0 && data[0] == 0 then None else Some(Number(data[0] as nat, data[1..]))
    else
      match VarintFrom(data[1..], n + 1)
      case None => None
      case Some(more) => Some(Number((data[0] - 128) as nat + 128 * more.value, more.rest))
  }

  function Varint(data: Data): Option<Number> { VarintFrom(data, 0) }

  /** The minimal form. */
  function EncodeVarint(v: nat): Data
    decreases v
  {
    if v < 128 then [v as Byte] else [(v % 128 + 128) as Byte] + EncodeVarint(v / 128)
  }

  /** What may still come from byte `n` on: the tenth byte holds one bit. */
  function Room(n: nat): nat
    requires n <= 9
  {
    if n == 9 then 2
    else if n == 8 then 0x100
    else if n == 7 then 0x8000
    else if n == 6 then 0x40_0000
    else if n == 5 then 0x2000_0000
    else if n == 4 then 0x10_0000_0000
    else if n == 3 then 0x800_0000_0000
    else if n == 2 then 0x4_0000_0000_0000
    else if n == 1 then 0x200_0000_0000_0000
    else WORD_64
  }

  lemma RoomShrinks(n: nat)
    requires n < 9
    ensures Room(n) == 128 * Room(n + 1)
  {
  }

  lemma RoomFor(v: nat, n: nat)
    requires n <= 9 && v < Room(n) && v >= 128
    ensures n < 9 && 0 < v / 128 < Room(n + 1)
  {
    if n < 9 {
      RoomShrinks(n);
    }
  }

  lemma VarintMore(b: Byte, more: Data, n: nat, v: nat, rest: Data)
    requires n < 9 && b >= 128 && VarintFrom(more, n + 1) == Some(Number(v, rest))
    ensures VarintFrom([b] + more, n) == Some(Number((b - 128) as nat + 128 * v, rest))
  {
    assert ([b] + more)[1..] == more;
  }

  lemma {:induction false} VarintReadsBack(v: nat, n: nat, rest: Data)
    requires n <= 9 && v < Room(n) && (n > 0 ==> v > 0)
    ensures VarintFrom(EncodeVarint(v) + rest, n) == Some(Number(v, rest))
    decreases v
  {
    if v < 128 {
      assert ([v as Byte] + rest)[1..] == rest;
    } else {
      RoomFor(v, n);
      VarintReadsBack(v / 128, n + 1, rest);
      var b, more := (v % 128 + 128) as Byte, EncodeVarint(v / 128) + rest;
      VarintMore(b, more, n, v / 128, rest);
      assert EncodeVarint(v) + rest == [b] + more;
    }
  }

  lemma Digits(low: nat, more: nat)
    requires low < 128
    ensures (low + 128 * more) % 128 == low && (low + 128 * more) / 128 == more
  {
  }

  lemma EncodeMore(low: nat, more: nat)
    requires low < 128 && more > 0
    ensures EncodeVarint(low + 128 * more) == [(low + 128) as Byte] + EncodeVarint(more)
  {
    Digits(low, more);
  }

  lemma WroteMore(b: Byte, data: Data, n: nat, more: Number)
    requires n < 9 && b >= 128 && 0 < more.value < Room(n + 1) && data == EncodeVarint(more.value) + more.rest
    ensures var v := (b - 128) as nat + 128 * more.value; 0 < v < Room(n) && [b] + data == EncodeVarint(v) + more.rest
  {
    RoomShrinks(n);
    EncodeMore((b - 128) as nat, more.value);
    assert [b] + (EncodeVarint(more.value) + more.rest) == ([b] + EncodeVarint(more.value)) + more.rest;
  }

  lemma {:induction false} VarintWritesBack(data: Data, n: nat)
    requires n <= 9 && VarintFrom(data, n).Some?
    ensures var r := VarintFrom(data, n).value;
        r.value < Room(n) && (n > 0 ==> r.value > 0) && data == EncodeVarint(r.value) + r.rest
    decreases 10 - n
  {
    assert data == [data[0]] + data[1..];
    if n < 9 && data[0] >= 128 {
      VarintWritesBack(data[1..], n + 1);
      WroteMore(data[0], data[1..], n, VarintFrom(data[1..], n + 1).value);
    }
  }

  /** Reading a varint succeeds exactly on the minimal forms of 64-bit numbers. */
  lemma VarintIsMinimal(data: Data, v: nat, rest: Data)
    ensures Varint(data) == Some(Number(v, rest)) <==> v < WORD_64 && data == EncodeVarint(v) + rest
  {
    hide EncodeVarint, VarintFrom;
    if Varint(data) == Some(Number(v, rest)) {
      VarintWritesBack(data, 0);
    }
    if v < WORD_64 && data == EncodeVarint(v) + rest {
      VarintReadsBack(v, 0, rest);
    }
  }

  // ---- fields --------------------------------------------------------------------------------------

  /** `CPbField`. */
  datatype Field = Field(number: nat, wire: nat, value: nat, payload: Data)

  const VARINT := 0
  const FIXED64 := 1
  const BYTES := 2
  const FIXED32 := 5

  datatype Read = Read(field: Field, rest: Data)

  /** The part of a field after its tag. */
  function BodyOf(data: Data, number: nat, wire: nat): Option<Read> {
    if wire == VARINT then
      (match Varint(data)
       case None => None
       case Some(v) => Some(Read(Field(number, wire, v.value, []), v.rest)))
    else if wire == FIXED64 then
      if |data| < 8 then None else Some(Read(Field(number, wire, Little(data[..8]), []), data[8..]))
    else if wire == FIXED32 then
      if |data| < 4 then None else Some(Read(Field(number, wire, Little(data[..4]), []), data[4..]))
    else if wire == BYTES then
      (match Varint(data)
       case None => None
       case Some(size) =>
         if size.value > |size.rest| then None
         else Some(Read(Field(number, wire, 0, size.rest[..size.value]), size.rest[size.value..])))
    else None
  }

  /** `CPbMessage::next` away from the end. */
  function NextField(data: Data): Option<Read> {
    match Varint(data)
    case None => None
    case Some(key) =>
      if key.value < 8 || key.value > 0xFFFF_FFFF then None else BodyOf(key.rest, key.value / 8, key.value % 8)
  }

  lemma {:induction false} VarintShrinks(data: Data, n: nat)
    requires n <= 9 && VarintFrom(data, n).Some?
    ensures |VarintFrom(data, n).value.rest| < |data|
    decreases 10 - n
  {
    if n < 9 && data[0] >= 128 {
      VarintShrinks(data[1..], n + 1);
    }
  }

  lemma FieldShrinks(data: Data)
    requires NextField(data).Some?
    ensures |NextField(data).value.rest| < |data| && NextField(data).value.field.number > 0
  {
    VarintShrinks(data, 0);
    var key := Varint(data).value;
    if Varint(key.rest).Some? {
      VarintShrinks(key.rest, 0);
    }
  }

  /** The fields of a message up to its end or up to where it stops making sense. */
  datatype Walk = Walk(fields: seq<Field>, bad: bool)

  function WalkOf(data: Data): Walk
    decreases |data|
  {
    if data == [] then Walk([], false)
    else
      match NextField(data)
      case None => Walk([], true)
      case Some(read) =>
        FieldShrinks(data);
        var more := WalkOf(read.rest);
        Walk([read.field] + more.fields, more.bad)
  }
}
