/**
The base-128 integer of Bitcoin Core: seven bits to a byte, the top bit set on all bytes but the last.
A longer form starts counting where the shorter ones end, so forms and values are one to one.
 */
module VarInt {
  import opened ByteData
  import opened Sequences
  import opened Wrappers
  import opened WireFormat

  const MAX_64: nat := 0xFFFF_FFFF_FFFF_FFFF
  const MAX_32: nat := 0xFFFF_FFFF

  function Flag(more: bool): nat { if more then 128 else 0 }

  /** The groups of a value; `more` when another group follows them. */
  function Groups(v: nat, more: bool): (data: Data)
    ensures data != []
  {
    if v <= 127 then [(v + Flag(more)) as Byte] else Groups(v / 128 - 1, true) + [(v % 128 + Flag(more)) as Byte]
  }

  /** `serializeVarInt`. */
  function WriteInt(v: nat): (data: Data)
    ensures data != []
  {
    Groups(v, false)
  }

  /** The loop of `unserializeVarInt` from an accumulated value: out of bytes and out of range are refused. */
  function ReadFrom(data: Data, acc: nat, max: nat): Option<Parsed<nat>> {
    if data == [] || acc > max / 128 then None
    else
      var next := 128 * acc + data[0] as nat % 128;
      if data[0] < 128 then Some(Parsed(next, data[1..]))
      else if next == max then None
      else ReadFrom(data[1..], next + 1, max)
  }

  /** `unserializeVarInt` into a type with the given largest value. */
  function ReadInt(data: Data, max: nat): Option<Parsed<nat>> { ReadFrom(data, 0, max) }

  // ---- one encoding for each value --------------------------------------------------------------

  /** The largest values of the types used: all ones, so that seven bits more never pass them half way. */
  predicate Ones(max: nat) { max % 128 == 127 }

  lemma OneGroup(d: Byte, data: Data, acc: nat, max: nat)
    requires acc <= max / 128
    ensures
      var next := 128 * acc + d as nat % 128;
      ReadFrom([d] + data, acc, max) == if d < 128 then Some(Parsed(next, data)) else if next == max then None
          else ReadFrom(data, next + 1, max)
  {
    assert ([d] + data)[1..] == data;
  }

  lemma MiddleGroup(v: nat, q: nat, low: nat, rest: Data, max: nat)
    requires v == 128 * q + low && low < 128 && v < max && q <= max / 128
    ensures ReadFrom([(low + 128) as Byte] + rest, q, max) == ReadFrom(rest, v + 1, max)
  {
    var d := (low + 128) as Byte;
    assert d as nat % 128 == low;
    OneGroup(d, rest, q, max);
  }

  lemma {:induction false} GroupsRead(v: nat, rest: Data, max: nat)
    requires v < max
    ensures ReadFrom(Groups(v, true) + rest, 0, max) == ReadFrom(rest, v + 1, max)
  {
    if v <= 127 {
      OneGroup((v + 128) as Byte, rest, 0, max);
    } else {
      var q, low := v / 128, v % 128;
      var d := (low + 128) as Byte;
      GroupsStep(v, q, low, true);
      GroupsRead(q - 1, [d] + rest, max);
      MiddleGroup(v, q, low, rest, max);
      Assoc(Groups(q - 1, true), [d], rest);
    }
  }

  lemma IntReadsBack(v: nat, rest: Data, max: nat)
    requires v <= max
    ensures ReadInt(WriteInt(v) + rest, max) == Some(Parsed(v, rest))
  {
    if v <= 127 {
      OneGroup(v as Byte, rest, 0, max);
    } else {
      var d := (v % 128) as Byte;
      GroupsRead(v / 128 - 1, [d] + rest, max);
      OneGroup(d, rest, v / 128, max);
      assert WriteInt(v) + rest == Groups(v / 128 - 1, true) + ([d] + rest);
    }
  }

  /** Groups taken so far, and the value they stand for with the bias of the group to come. */
  predicate Taken(prefix: Data, acc: nat) { if acc == 0 then prefix == [] else prefix == Groups(acc - 1, true) }

  lemma Group(acc: nat, low: nat)
    requires low < 128
    ensures (128 * acc + low) / 128 == acc && (128 * acc + low) % 128 == low
  {
  }

  lemma LowBits(d: Byte)
    ensures d as nat == d as nat % 128 + Flag(d >= 128)
  {
  }

  lemma GroupsStep(v: nat, q: nat, low: nat, more: bool)
    requires v == 128 * q + low && low < 128 && q > 0
    ensures Groups(v, more) == Groups(q - 1, true) + [(low + Flag(more)) as Byte]
  {
    Group(q, low);
    assert v / 128 == q && v % 128 == low;
  }

  lemma NextGroup(prefix: Data, acc: nat, d: Byte, low: nat, v: nat)
    requires Taken(prefix, acc) && low < 128 && d as nat == low + Flag(d >= 128) && v == 128 * acc + low
    ensures prefix + [d] == Groups(v, d >= 128)
  {
    if acc == 0 {
      FirstGroup(low, d >= 128);
      assert prefix + [d] == [d];
    } else {
      GroupsStep(v, acc, low, d >= 128);
    }
  }

  lemma FirstGroup(low: nat, more: bool)
    requires low < 128
    ensures Groups(low, more) == [(low + Flag(more)) as Byte]
  {
  }

  lemma {:induction false} RestWritesBack(prefix: Data, data: Data, acc: nat, max: nat)
    requires Taken(prefix, acc) && Ones(max) && ReadFrom(data, acc, max).Some?
    ensures
      var r := ReadFrom(data, acc, max).value;
      r.value <= max && prefix + data == WriteInt(r.value) + r.rest
    decreases |data|
  {
    var d := data[0];
    var next := 128 * acc + d as nat % 128;
    LowBits(d);
    NextGroup(prefix, acc, d, d as nat % 128, next);
    assert prefix + data == (prefix + [d]) + data[1..];
    assert next <= max;
    if d >= 128 {
      RestWritesBack(prefix + [d], data[1..], next + 1, max);
    }
  }

  /** What is read was written so, and only so. */
  lemma IntWritesBack(data: Data, max: nat)
    requires Ones(max) && ReadInt(data, max).Some?
    ensures
      var r := ReadInt(data, max).value;
      r.value <= max && data == WriteInt(r.value) + r.rest
  {
    RestWritesBack([], data, 0, max);
    assert [] + data == data;
  }

  lemma Widths()
    ensures Ones(MAX_64) && Ones(MAX_32)
  {
  }

  // ---- the loops -----------------------------------------------------------------------------------

  function Power128(n: nat): nat { if n == 0 then 1 else 128 * Power128(n - 1) }

  /** `getSerializedVarIntSize`. */
  method SizeOfInt(value: nat) returns (size: nat)
    ensures size == |WriteInt(value)|
  {
    size := 1;
    var v: nat := value;
    while v > 127
      invariant size - 1 + |Groups(v, size > 1)| == |WriteInt(value)| && size >= 1
      decreases v
    {
      GroupsLength(v / 128 - 1, true, size > 0);
      v := v / 128 - 1;
      size := size + 1;
    }
  }

  lemma {:induction false} GroupsLength(v: nat, a: bool, b: bool)
    ensures |Groups(v, a)| == |Groups(v, b)|
  {
  }

  /** A buffer of `n` bytes is enough for `7 * n` bits. */
  lemma {:induction false} BufferFits(v: nat, more: bool, n: nat)
    requires v < Power128(n) && n > 0
    ensures |Groups(v, more)| <= n
    decreases n
  {
    if v > 127 {
      BufferFits(v / 128 - 1, true, n - 1);
    }
  }

  /** Ten bytes for 64 bits and five for 32, as the buffer is declared. */
  lemma BuffersFit(v: nat)
    ensures v <= MAX_64 ==> |WriteInt(v)| <= 10
    ensures v <= MAX_32 ==> |WriteInt(v)| <= 5
  {
    assert Power128(3) == 0x20_0000 by {
      assert Power128(1) == 128 && Power128(2) == 128 * 128;
    }
    assert Power128(5) == 0x8_0000_0000 by {
      assert Power128(4) == 128 * Power128(3);
    }
    assert Power128(7) == 0x2_0000_0000_0000 by {
      assert Power128(6) == 128 * Power128(5);
    }
    assert Power128(10) == 0x40_0000_0000_0000_0000 by {
      assert Power128(8) == 128 * Power128(7);
      assert Power128(9) == 128 * Power128(8);
    }
    if v <= MAX_64 {
      BufferFits(v, false, 10);
    }
    if v <= MAX_32 {
      BufferFits(v, false, 5);
    }
  }

  /** The first loop of `serializeVarInt`: the groups go into the buffer the last one first, and never past its end. */
  method FillGroups(value: nat, buffer: array<Byte>) returns (len: nat)
    requires |WriteInt(value)| <= buffer.Length
    modifies buffer
    ensures len == |WriteInt(value)| <= buffer.Length && Reversed(buffer[..len]) == WriteInt(value)
  {
    var v: nat := value;
    len := 0;
    while v > 127
      invariant len + |Groups(v, len > 0)| <= buffer.Length
      invariant Groups(v, len > 0) + Reversed(buffer[..len]) == WriteInt(value)
      decreases v
    {
      var d := (v % 128 + Flag(len > 0)) as Byte;
      ghost var done := buffer[..len];
      GroupsLength(v / 128 - 1, true, true);
      buffer[len] := d;
      assert buffer[..len + 1] == done + [d];
      ReversedPush(done, d);
      assert Groups(v, len > 0) + Reversed(done) == Groups(v / 128 - 1, true) + ([d] + Reversed(done));
      v := v / 128 - 1;
      len := len + 1;
    }
    var d := (v + Flag(len > 0)) as Byte;
    ghost var done := buffer[..len];
    buffer[len] := d;
    assert buffer[..len + 1] == done + [d];
    ReversedPush(done, d);
    len := len + 1;
  }

  /** `serializeVarInt`. */
  method WriteVarInt(stream: Data, value: nat, size: nat) returns (out: Data)
    requires |WriteInt(value)| <= size
    ensures out == stream + WriteInt(value)
  {
    var buffer := new Byte[size];
    var len := FillGroups(value, buffer);
    ghost var groups := buffer[..len];
    out := stream;
    var k := 0;
    while k < len
      invariant 0 <= k <= len && groups == buffer[..len] && out == stream + Reversed(groups)[..k]
    {
      ReversedAt(groups, k);
      out := out + [buffer[len - 1 - k]];
      k := k + 1;
    }
    assert Reversed(groups)[..len] == Reversed(groups);
  }

  /** `unserializeVarInt`. */
  method ReadVarInt(data: Data, max: nat) returns (r: Option<Parsed<nat>>)
    ensures r == ReadInt(data, max)
  {
    var value: nat, at: nat := 0, 0;
    assert data[0..] == data;
    while at < |data|
      invariant 0 <= at <= |data| && ReadFrom(data[at..], value, max) == ReadInt(data, max)
    {
      var d := data[at];
      assert data[at..][1..] == data[at + 1..];
      at := at + 1;
      if value > max / 128 {
        return None;
      }
      value := 128 * value + d as nat % 128;
      if d < 128 {
        return Some(Parsed(value, data[at..]));
      }
      if value == max {
        return None;
      }
      value := value + 1;
    }
    r := None;
  }
}
