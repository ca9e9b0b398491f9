/**
RLP (Appendix B of the Ethereum Yellow Paper), decoded with its canonical form checked and encoded
with list headers inserted behind the payload.
 */
module Rlp {
  import opened ByteData
  import opened Wrappers

  // ---- big endian numbers ---------------------------------------------------------------------

  /** The minimal big endian form; zero is empty. */
  function BigEndian(v: nat): Data { if v == 0 then [] else BigEndian(v / 256) + [(v % 256) as Byte] }

  function Number(bytes: Data): nat {
    if bytes == [] then 0 else 256 * Number(bytes[..|bytes| - 1]) + bytes[|bytes| - 1] as nat
  }

  predicate NoLeadingZero(bytes: Data) { bytes != [] ==> bytes[0] != 0 }

  lemma {:induction false} NumberReadsBack(v: nat)
    ensures Number(BigEndian(v)) == v && NoLeadingZero(BigEndian(v))
  {
    if v > 0 {
      NumberReadsBack(v / 256);
      var rest := BigEndian(v / 256);
      assert BigEndian(v)[..|rest|] == rest;
      if v / 256 > 0 {
        assert BigEndian(v)[0] == rest[0];
      }
    }
  }

  lemma {:induction false} NumberIsPositive(bytes: Data)
    requires bytes != [] && bytes[0] != 0
    ensures Number(bytes) > 0
  {
    if |bytes| > 1 {
      NumberIsPositive(bytes[..|bytes| - 1]);
    }
  }

  lemma {:induction false} NumberWritesBack(bytes: Data)
    requires NoLeadingZero(bytes)
    ensures BigEndian(Number(bytes)) == bytes
  {
    if bytes != [] {
      var init, last := bytes[..|bytes| - 1], bytes[|bytes| - 1];
      NumberWritesBack(init);
      Digit(last as nat, Number(init));
      NumberIsPositive(bytes);
      assert bytes == init + [last];
    }
  }

  lemma {:induction false} NumberBound(bytes: Data)
    ensures Number(bytes) < Power(|bytes|)
  {
    if bytes != [] {
      NumberBound(bytes[..|bytes| - 1]);
    }
  }

  lemma {:induction false} LengthBound(v: nat, n: nat)
    requires v < Power(n)
    ensures |BigEndian(v)| <= n
  {
    if v > 0 {
      assert n > 0;
      LengthBound(v / 256, n - 1);
    }
  }

  lemma {:induction false} PowerGrows(n: nat, m: nat)
    requires n <= m
    ensures Power(n) <= Power(m)
  {
    if n < m {
      PowerGrows(n, m - 1);
    }
  }

  /** `rlpToU64` of a string: at most eight bytes and no leading zero. */
  function ToU64(payload: Data): Option<nat> {
    if |payload| > 8 || !NoLeadingZero(payload) then None else Some(Number(payload))
  }

  /** A 64-bit scalar is accepted exactly in its minimal form. */
  lemma ScalarIsMinimal(payload: Data, v: nat)
    ensures ToU64(payload) == Some(v) <==> v < WORD_64 && payload == BigEndian(v)
  {
    EightBytes();
    if ToU64(payload) == Some(v) {
      NumberBound(payload);
      PowerGrows(|payload|, 8);
      NumberWritesBack(payload);
    }
    if v < WORD_64 && payload == BigEndian(v) {
      NumberReadsBack(v);
      LengthBound(v, 8);
    }
  }

  // ---- headers -----------------------------------------------------------------------------------

  const STRING: nat := 0x80
  const LIST: nat := 0xC0

  /** `header` and the head of `endList`: short up to 55 bytes, else the length's own length and the length. */
  function Header(base: nat, size: nat): Data
    requires base == STRING || base == LIST
  {
    if size <= 55 then [(base + size) as Byte] else [((base + 55 + |BigEndian(size)|) % 256) as Byte] + BigEndian(size)
  }

  /** `bytes`: a byte below 0x80 stands for itself. */
  function EncodeBytes(b: Data): Data { if |b| == 1 && b[0] <= 0x7F then b else Header(STRING, |b|) + b }

  /** `CRlpValue` with what follows it. */
  datatype Value = Value(payload: Data, isList: bool, rest: Data)

  /** The payload behind a header, if the data holds it. */
  function Behind(data: Data, headerSize: nat, length: nat, isList: bool): Option<Value>
    requires headerSize <= |data|
  {
    if length > |data| - headerSize then None
        else Some(Value(data[headerSize..headerSize + length], isList, data[headerSize + length..]))
  }

  /** The long form: the length in `n` bytes, without leading zero and too big for the short form. */
  function LongForm(data: Data, n: nat, isList: bool): Option<Value>
    requires data != []
  {
    if |data| < 1 + n || n == 0 || data[1] == 0 || Number(data[1..1 + n]) <= 55 then None
    else Behind(data, 1 + n, Number(data[1..1 + n]), isList)
  }

  /** `rlpDecode`. */
  function Decode(data: Data): Option<Value> {
    if data == [] then None
    else
      var prefix := data[0] as nat;
      if prefix <= 0x7F then Some(Value(data[..1], false, data[1..]))
      else if prefix <= 0xB7 then
        if prefix == 0x81 && |data| >= 2 && data[1] <= 0x7F then None else Behind(data, 1, prefix - 0x80, false)
      else if prefix <= 0xBF then LongForm(data, prefix - 0xB7, false)
      else if prefix <= 0xF7 then Behind(data, 1, prefix - 0xC0, true)
      else LongForm(data, prefix - 0xF7, true)
  }

  function EncodeValue(v: Value): Data {
    if v.isList then Header(LIST, |v.payload|) + v.payload else EncodeBytes(v.payload)
  }

  lemma BehindIs(data: Data, headerSize: nat, length: nat, isList: bool)
    requires headerSize <= |data| && Behind(data, headerSize, length, isList).Some?
    ensures var v := Behind(data, headerSize, length, isList).value;
            data == (data[..headerSize] + v.payload) + v.rest && |v.payload| == length && v.isList == isList
                && |v.rest| < |data| - headerSize + 1
  {
  }

  lemma LongWritesBack(data: Data, n: nat, isList: bool)
    requires data != [] && n <= 8 && LongForm(data, n, isList).Some?
    requires data[0] as nat == (if isList then LIST else STRING) + 55 + n
    ensures var v := LongForm(data, n, isList).value;
        v.isList == isList && data == (Header(if isList then LIST else STRING, |v.payload|) + v.payload) + v.rest
  {
    var size := data[1..1 + n];
    assert size[0] == data[1];
    BehindIs(data, 1 + n, Number(size), isList);
    assert data[..1 + n] == [data[0]] + size;
    LongHeader(data[0], size, if isList then LIST else STRING);
  }

  lemma LongHeader(first: Byte, size: Data, base: nat)
    requires (base == STRING || base == LIST) && NoLeadingZero(size) && Number(size) > 55
        && first as nat == base + 55 + |size|
    ensures Header(base, Number(size)) == [first] + size
  {
    NumberWritesBack(size);
    HeaderIs(first, Number(size), base);
  }

  lemma HeaderIs(first: Byte, v: nat, base: nat)
    requires (base == STRING || base == LIST) && v > 55 && first as nat == base + 55 + |BigEndian(v)|
    ensures Header(base, v) == [first] + BigEndian(v)
  {
  }

  ghost predicate WritesBack(data: Data, v: Value) { data == EncodeValue(v) + v.rest && |v.rest| < |data| }

  lemma ShortStringWritesBack(data: Data, length: nat)
    requires data != [] && length <= 55 && data[0] as nat == STRING + length && Behind(data, 1, length, false).Some?
    requires length == 1 && |data| >= 2 ==> data[1] > 0x7F
    ensures WritesBack(data, Behind(data, 1, length, false).value)
  {
    BehindIs(data, 1, length, false);
    assert data[..1] == [data[0]];
    var v := Behind(data, 1, length, false).value;
    assert length == 1 ==> v.payload[0] == data[1];
    assert EncodeValue(v) == [data[0]] + v.payload;
  }

  lemma ShortListWritesBack(data: Data, length: nat)
    requires data != [] && length <= 55 && data[0] as nat == LIST + length && Behind(data, 1, length, true).Some?
    ensures WritesBack(data, Behind(data, 1, length, true).value)
  {
    BehindIs(data, 1, length, true);
    assert data[..1] == [data[0]];
  }

  lemma LongFormWritesBack(data: Data, n: nat, isList: bool)
    requires data != [] && n <= 8 && LongForm(data, n, isList).Some?
        && data[0] as nat == (if isList then LIST else STRING) + 55 + n
    ensures WritesBack(data, LongForm(data, n, isList).value)
  {
    LongWritesBack(data, n, isList);
    BehindIs(data, 1 + n, Number(data[1..1 + n]), isList);
  }

  lemma OneByteWritesBack(data: Data)
    requires data != [] && data[0] <= 0x7F
    ensures WritesBack(data, Value(data[..1], false, data[1..]))
  {
    assert data == data[..1] + data[1..];
  }

  /** What is decoded was encoded in its one form. */
  lemma DecodeWritesBack(data: Data)
    requires Decode(data).Some?
    ensures WritesBack(data, Decode(data).value)
  {
    var prefix := data[0] as nat;
    if prefix <= 0x7F {
      OneByteWritesBack(data);
    } else if prefix <= 0xB7 {
      ShortStringWritesBack(data, prefix - 0x80);
    } else if prefix <= 0xBF {
      LongFormWritesBack(data, prefix - 0xB7, false);
    } else if prefix <= 0xF7 {
      ShortListWritesBack(data, prefix - 0xC0);
    } else {
      LongFormWritesBack(data, prefix - 0xF7, true);
    }
  }

  lemma BehindReads(head: Data, payload: Data, isList: bool, rest: Data)
    ensures Behind((head + payload) + rest, |head|, |payload|, isList) == Some(Value(payload, isList, rest))
  {
    var data := (head + payload) + rest;
    assert data[|head|..|head| + |payload|] == payload && data[|head| + |payload|..] == rest;
  }

  lemma Slices(first: Byte, size: Data, rest: Data)
    requires size != []
    ensures var data := ([first] + size) + rest;
        data[1..1 + |size|] == size && data[1] == size[0] && |data| >= 1 + |size|
  {
  }

  lemma LongFormReads(first: Byte, size: Data, payload: Data, isList: bool, rest: Data)
    requires size != [] && size[0] != 0 && Number(size) == |payload| > 55
    ensures LongForm((([first] + size) + payload) + rest, |size|, isList) == Some(Value(payload, isList, rest))
  {
    var data := (([first] + size) + payload) + rest;
    assert data == ([first] + size) + (payload + rest);
    Slices(first, size, payload + rest);
    BehindReads([first] + size, payload, isList, rest);
    LongFormAt(data, size, isList, Value(payload, isList, rest));
  }

  lemma LongFormAt(data: Data, size: Data, isList: bool, v: Value)
    requires size != [] && |data| >= 1 + |size| && data[1..1 + |size|] == size && data[1] != 0 && Number(size) > 55
    requires Behind(data, 1 + |size|, Number(size), isList) == Some(v)
    ensures LongForm(data, |size|, isList) == Some(v)
  {
  }

  lemma LongReadsBack(base: nat, payload: Data, rest: Data)
    requires (base == STRING || base == LIST) && 55 < |payload| < WORD_64
    ensures Decode((Header(base, |payload|) + payload) + rest) == Some(Value(payload, base == LIST, rest))
  {
    var size := BigEndian(|payload|);
    EightBytes();
    LengthBound(|payload|, 8);
    NumberReadsBack(|payload|);
    assert 1 <= |size| <= 8;
    var first := (base + 55 + |size|) as Byte;
    HeaderIs(first, |payload|, base);
    LongFormReads(first, size, payload, base == LIST, rest);
    DecodeLong((([first] + size) + payload) + rest, |size|, base);
  }

  lemma DecodeLong(data: Data, n: nat, base: nat)
    requires data != [] && (base == STRING || base == LIST) && 1 <= n <= 8 && data[0] as nat == base + 55 + n
    ensures Decode(data) == LongForm(data, n, base == LIST)
  {
  }

  /** What is encoded decodes as itself. */
  lemma DecodeReadsBack(v: Value)
    requires |v.payload| < WORD_64
    ensures Decode(EncodeValue(v) + v.rest) == Some(v)
  {
    var base := if v.isList then LIST else STRING;
    var data := EncodeValue(v) + v.rest;
    if !v.isList && |v.payload| == 1 && v.payload[0] <= 0x7F {
      assert data[..1] == v.payload && data[1..] == v.rest;
    } else if |v.payload| <= 55 {
      BehindReads([(base + |v.payload|) as Byte], v.payload, v.isList, v.rest);
      assert |v.payload| == 1 ==> data[1] == v.payload[0];
    } else {
      LongReadsBack(base, v.payload, v.rest);
    }
  }

  // ---- trees ------------------------------------------------------------------------------------------

  datatype Item = Str(bytes: Data) | List(items: Items)

  datatype Items = Nil | Cons(head: Item, tail: Items)

  function Encode(t: Item): Data
    decreases t
  {
    match t
    case Str(b) => EncodeBytes(b)
    case List(items) => Header(LIST, |EncodeItems(items)|) + EncodeItems(items)
  }

  function EncodeItems(items: Items): Data
    decreases items
  {
    match items
    case Nil => []
    case Cons(head, tail) => Encode(head) + EncodeItems(tail)
  }

  datatype Parsed = Parsed(item: Item, rest: Data)

  lemma PayloadIsShorter(data: Data)
    requires Decode(data).Some? && Decode(data).value.isList
    ensures |Decode(data).value.payload| < |data|
  {
    DecodeWritesBack(data);
  }

  /** One item and everything in it. */
  function DecodeTree(data: Data): Option<Parsed>
    decreases |data|, 0
  {
    match Decode(data)
    case None => None
    case Some(v) =>
      if !v.isList then Some(Parsed(Str(v.payload), v.rest))
      else
        PayloadIsShorter(data);
        match DecodeItems(v.payload)
        case None => None
        case Some(items) => Some(Parsed(List(items), v.rest))
  }

  /** The walk of `CRlpList` to the end of the payload. */
  function DecodeItems(data: Data): Option<Items>
    decreases |data|, 1
  {
    if data == [] then Some(Nil)
    else
      match DecodeTree(data)
      case None => None
      case Some(first) =>
        RestIsShorter(data);
        match DecodeItems(first.rest)
        case None => None
        case Some(more) => Some(Cons(first.item, more))
  }

  lemma RestIsShorter(data: Data)
    requires Decode(data).Some?
    ensures |Decode(data).value.rest| < |data|
  {
    DecodeWritesBack(data);
  }

  /** A buffer that decodes re-encodes to the same bytes. */
  lemma {:induction false} TreeWritesBack(data: Data)
    requires DecodeTree(data).Some?
    ensures var r := DecodeTree(data).value; data == Encode(r.item) + r.rest
    decreases |data|, 0
  {
    DecodeWritesBack(data);
    var v := Decode(data).value;
    if v.isList {
      ItemsWriteBack(v.payload);
    }
  }

  lemma {:induction false} ItemsWriteBack(data: Data)
    requires DecodeItems(data).Some?
    ensures EncodeItems(DecodeItems(data).value) == data
    decreases |data|, 1
  {
    if data != [] {
      TreeWritesBack(data);
      var first := DecodeTree(data).value;
      RestIsShorter(data);
      ItemsWriteBack(first.rest);
    }
  }

  /** A tree written decodes back to itself. */
  lemma {:induction false} TreeReadsBack(t: Item, rest: Data)
    requires |Encode(t)| < WORD_64
    ensures DecodeTree(Encode(t) + rest) == Some(Parsed(t, rest))
    decreases t
  {
    match t
    case Str(b) =>
      DecodeReadsBack(Value(b, false, rest));
    case List(items) =>
      DecodeReadsBack(Value(EncodeItems(items), true, rest));
      ItemsReadBack(items);
  }

  lemma EncodeIsSomething(t: Item)
    ensures |Encode(t)| > 0
  {
  }

  lemma {:induction false} ItemsReadBack(items: Items)
    requires |EncodeItems(items)| < WORD_64
    ensures DecodeItems(EncodeItems(items)) == Some(items)
    decreases items
  {
    match items
    case Nil =>
    case Cons(head, tail) =>
      EncodeIsSomething(head);
      TreeReadsBack(head, EncodeItems(tail));
      ItemsReadBack(tail);
  }

  // ---- numbers of fixed width -------------------------------------------------------------------------------

  function FixedWidth(v: nat, n: nat): Data { if n == 0 then [] else FixedWidth(v / 256, n - 1) + [(v % 256) as Byte] }

  lemma {:induction false} FixedWidthIs(v: nat, n: nat)
    requires v < Power(n)
    ensures |FixedWidth(v, n)| == n && Number(FixedWidth(v, n)) == v
  {
    if n > 0 {
      FixedWidthIs(v / 256, n - 1);
      var rest := FixedWidth(v / 256, n - 1);
      assert FixedWidth(v, n)[..|rest|] == rest;
    }
  }

  /** `v >> 8 * k`. */
  function Shr(v: nat, k: nat): nat { if k == 0 then v else Shr(v / 256, k - 1) }

  function ByteAt(v: nat, k: nat): Byte { (Shr(v, k) % 256) as Byte }

  lemma {:induction false} FixedAt(v: nat, n: nat, i: nat)
    requires i < n
    ensures |FixedWidth(v, n)| == n && FixedWidth(v, n)[i] == ByteAt(v, n - 1 - i)
  {
    if i < n - 1 {
      FixedAt(v / 256, n - 1, i);
    } else if n > 1 {
      FixedAt(v / 256, n - 1, 0);
    }
  }

  lemma {:induction false} BigEndianIsFixed(v: nat)
    ensures BigEndian(v) == FixedWidth(v, |BigEndian(v)|)
  {
    if v > 0 {
      BigEndianIsFixed(v / 256);
    }
  }

  /** The shift that takes out byte `i` of a length. */
  lemma LengthAt(v: nat, i: nat)
    requires i < |BigEndian(v)|
    ensures BigEndian(v)[i] == ByteAt(v, |BigEndian(v)| - 1 - i)
  {
    BigEndianIsFixed(v);
    FixedAt(v, |BigEndian(v)|, i);
  }

  /** `lengthBytes`. */
  method LengthBytes(size: nat) returns (count: nat)
    ensures count == |BigEndian(size)|
  {
    count := 0;
    var left: nat := size;
    while left > 0
      invariant count + |BigEndian(left)| == |BigEndian(size)|
    {
      count := count + 1;
      left := left / 256;
    }
  }

  /** The head of a list, in a buffer of nine bytes. */
  method ListHead(size: nat, head: array<Byte>) returns (headSize: nat)
    requires size < WORD_64 && head.Length == 9
    modifies head
    ensures headSize <= 9 && head[..headSize] == Header(LIST, size)
  {
    if size <= 55 {
      head[0] := (LIST + size) as Byte;
      return 1;
    }
    var lengthSize := LengthBytes(size);
    EightBytes();
    LengthBound(size, 8);
    head[0] := (LIST + 55 + lengthSize) as Byte;
    headSize := 1;
    for i := 0 to lengthSize
      invariant headSize == 1 + i && head[0] == (LIST + 55 + lengthSize) as Byte
          && head[1..headSize] == BigEndian(size)[..i]
    {
      LengthAt(size, i);
      head[headSize] := ByteAt(size, lengthSize - 1 - i);
      headSize := headSize + 1;
    }
    assert head[..headSize] == [head[0]] + head[1..headSize];
  }

  lemma {:induction false} ZeroInFront(bytes: Data)
    requires bytes != [] && bytes[0] == 0
    ensures Number(bytes[1..]) == Number(bytes)
  {
    if |bytes| > 1 {
      var init := bytes[..|bytes| - 1];
      ZeroInFront(init);
      assert init[1..] == bytes[1..][..|bytes| - 2];
    }
  }

  /** The first loop of `u64`. */
  method EightBytesOf(v: nat) returns (be: array<Byte>)
    requires v < WORD_64
    ensures be.Length == 8 && Number(be[..]) == v
  {
    be := new Byte[8];
    EightBytes();
    FixedWidthIs(v, 8);
    for i := 0 to 8
      invariant be[..i] == FixedWidth(v, 8)[..i]
    {
      FixedAt(v, 8, i);
      be[i] := ByteAt(v, 7 - i);
    }
    assert be[..] == FixedWidth(v, 8);
  }

  // ---- the writer ----------------------------------------------------------------------------------------

  /** `CRlpWriter`: the header of a list goes in front of a payload already written. */
  class Writer {
    var buffer: Data

    constructor ()
      ensures buffer == []
    {
      buffer := [];
    }

    method Bytes(b: Data)
      modifies this
      ensures buffer == old(buffer) + EncodeBytes(b)
    {
      if |b| == 1 && b[0] <= 0x7F {
        buffer := buffer + [b[0]];
        return;
      }
      PutHeader(STRING, |b|);
      buffer := buffer + b;
    }

    /** `header`. */
    method PutHeader(base: nat, size: nat)
      requires base == STRING || base == LIST
      modifies this
      ensures buffer == old(buffer) + Header(base, size)
    {
      if size <= 55 {
        buffer := buffer + [(base + size) as Byte];
        return;
      }
      var lengthSize := LengthBytes(size);
      ghost var head := [((base + 55 + lengthSize) % 256) as Byte];
      buffer := buffer + [((base + 55 + lengthSize) % 256) as Byte];
      for i := 0 to lengthSize
        invariant buffer == old(buffer) + (head + BigEndian(size)[..i])
      {
        LengthAt(size, i);
        buffer := buffer + [ByteAt(size, lengthSize - 1 - i)];
      }
      assert BigEndian(size)[..lengthSize] == BigEndian(size);
    }

    /** `u64`: eight bytes, then without the zeroes in front. */
    method U64(v: nat)
      requires v < WORD_64
      modifies this
      ensures buffer == old(buffer) + EncodeBytes(BigEndian(v))
    {
      var be := EightBytesOf(v);
      var first := 0;
      assert be[0..] == be[..];
      while first < 8 && be[first] == 0
        invariant buffer == old(buffer) && first <= 8 && Number(be[first..]) == v
      {
        ZeroInFront(be[first..]);
        assert be[first..][1..] == be[first + 1..];
        first := first + 1;
      }
      NumberWritesBack(be[first..]);
      Bytes(be[first..]);
    }

    method BeginList() returns (marker: nat)
      ensures marker == |buffer|
    {
      marker := |buffer|;
    }

    /** `endList`: what was written since the marker becomes the payload of a list. Its size is a 64-bit number. */
    method EndList(marker: nat)
      requires marker <= |buffer| && |buffer| - marker < WORD_64
      modifies this
      ensures buffer == old(buffer)[..marker] + EncodeValue(Value(old(buffer)[marker..], true, []))
    {
      var head := new Byte[9];
      var headSize := ListHead(|buffer| - marker, head);
      buffer := buffer[..marker] + (head[..headSize] + buffer[marker..]);
    }

    /** Any nesting of lists written with `BeginList` and `EndList` is the encoding of its tree. */
    method WriteTree(t: Item)
      requires |Encode(t)| < WORD_64
      modifies this
      ensures buffer == old(buffer) + Encode(t)
      decreases t
    {
      match t
      case Str(b) =>
        Bytes(b);
      case List(items) =>
        var marker := BeginList();
        WriteItems(items);
        assert buffer[..marker] == old(buffer) && buffer[marker..] == EncodeItems(items);
        EndList(marker);
    }

    method WriteItems(items: Items)
      requires |EncodeItems(items)| < WORD_64
      modifies this
      ensures buffer == old(buffer) + EncodeItems(items)
      decreases items
    {
      match items
      case Nil =>
      case Cons(head, tail) =>
        WriteTree(head);
        WriteItems(tail);
    }
  }
}
