/**
Bitcoin's wire format: compact sizes, byte strings, vectors. Readers move over the data, writers
append, sizes are computed apart.
 */
module WireFormat {
  import opened ByteData
  import opened Wrappers

  datatype Parsed<+T> = Parsed(value: T, rest: Data)

  /** A fixed number of bytes: scalars and blobs, kept as they lie on the wire. */
  function Take(data: Data, n: nat): Option<Parsed<Data>> {
    if |data| < n then None else Some(Parsed(data[..n], data[n..]))
  }

  lemma TakeWritesBack(data: Data, n: nat)
    requires Take(data, n).Some?
    ensures var r := Take(data, n).value; |r.value| == n && data == r.value + r.rest
  {
  }

  lemma TakeReadsBack(v: Data, rest: Data)
    ensures Take(v + rest, |v|) == Some(Parsed(v, rest))
  {
    assert (v + rest)[..|v|] == v && (v + rest)[|v|..] == rest;
  }

  // ---- little endian ----------------------------------------------------------------------

  function ToLittle(v: nat, n: nat): Data { if n == 0 then [] else [(v % 256) as Byte] + ToLittle(v / 256, n - 1) }

  lemma {:induction false} LittleBounds(bytes: Data)
    ensures Little(bytes) < Power(|bytes|)
  {
    if bytes != [] {
      LittleBounds(bytes[1..]);
    }
  }

  lemma {:induction false} LittleWritesBack(bytes: Data)
    ensures ToLittle(Little(bytes), |bytes|) == bytes
  {
    if bytes != [] {
      LittleWritesBack(bytes[1..]);
      Digit(bytes[0] as nat, Little(bytes[1..]));
      assert bytes == [bytes[0]] + bytes[1..];
    }
  }

  lemma {:induction false} LittleReadsBack(v: nat, n: nat)
    requires v < Power(n)
    ensures |ToLittle(v, n)| == n && Little(ToLittle(v, n)) == v
  {
    if n > 0 {
      LittleReadsBack(v / 256, n - 1);
      assert ToLittle(v, n)[1..] == ToLittle(v / 256, n - 1);
    }
  }

  // ---- compact sizes ------------------------------------------------------------------------

  const MAX_SERIALIZED_SIZE: nat := 0x0200_0000

  /** `serializeVarSize`. */
  function WriteSize(v: nat): Data {
    if v < 0xFD then [v as Byte]
    else if v <= 0xFFFF then [0xFD] + ToLittle(v, 2)
    else if v <= 0xFFFF_FFFF then [0xFE] + ToLittle(v, 4)
    else [0xFF] + ToLittle(v, 8)
  }

  /** `getSerializedVarSizeSize`. */
  function SizeOfSize(v: nat): nat {
    if v < 0xFD then 1 else if v <= 0xFFFF then 3 else if v <= 0xFFFF_FFFF then 5 else 9
  }

  /** The long forms of `unserializeVarSize`: `n` bytes, refused below the shortest value and above the limit. */
  function ReadLong(data: Data, n: nat, shortest: nat): Option<Parsed<nat>> {
    match Take(data, n)
    case None => None
    case Some(r) =>
      var v := Little(r.value);
      if v < shortest || v > MAX_SERIALIZED_SIZE then None else Some(Parsed(v, r.rest))
  }

  /** `unserializeVarSize`. */
  function ReadSize(data: Data): Option<Parsed<nat>> {
    if data == [] then None
    else if data[0] < 0xFD then Some(Parsed(data[0] as nat, data[1..]))
    else if data[0] == 0xFD then ReadLong(data[1..], 2, 0xFD)
    else if data[0] == 0xFE then ReadLong(data[1..], 4, 0x1_0000)
    else ReadLong(data[1..], 8, 0x1_0000_0000)
  }

  lemma {:induction false} ToLittleLength(v: nat, n: nat)
    ensures |ToLittle(v, n)| == n
  {
    if n > 0 {
      ToLittleLength(v / 256, n - 1);
    }
  }

  lemma SizeIsSize(v: nat)
    ensures |WriteSize(v)| == SizeOfSize(v) > 0
  {
    ToLittleLength(v, 2);
    ToLittleLength(v, 4);
    ToLittleLength(v, 8);
  }

  lemma LongWritesBack(data: Data, n: nat, shortest: nat)
    requires ReadLong(data, n, shortest).Some?
    ensures var r := ReadLong(data, n, shortest).value;
        shortest <= r.value <= MAX_SERIALIZED_SIZE && r.value < Power(n) && data == ToLittle(r.value, n) + r.rest
  {
    TakeWritesBack(data, n);
    LittleBounds(data[..n]);
    LittleWritesBack(data[..n]);
  }

  lemma LongReadsBack(v: nat, n: nat, shortest: nat, rest: Data)
    requires shortest <= v <= MAX_SERIALIZED_SIZE && v < Power(n)
    ensures ReadLong(ToLittle(v, n) + rest, n, shortest) == Some(Parsed(v, rest))
  {
    LittleReadsBack(v, n);
    TakeReadsBack(ToLittle(v, n), rest);
  }

  /** A size that is read was written in its one form. */
  lemma SizeWritesBack(data: Data)
    requires ReadSize(data).Some?
    ensures var r := ReadSize(data).value; r.value <= MAX_SERIALIZED_SIZE && data == WriteSize(r.value) + r.rest
  {
    Powers();
    assert data == [data[0]] + data[1..];
    if data[0] == 0xFD {
      LongWritesBack(data[1..], 2, 0xFD);
    } else if data[0] == 0xFE {
      LongWritesBack(data[1..], 4, 0x1_0000);
    }
  }

  lemma SizeReadsBack(v: nat, rest: Data)
    requires v <= MAX_SERIALIZED_SIZE
    ensures ReadSize(WriteSize(v) + rest) == Some(Parsed(v, rest))
  {
    Powers();
    var data := WriteSize(v) + rest;
    if v < 0xFD {
      assert data[1..] == rest;
    } else if v <= 0xFFFF {
      LongReadsBack(v, 2, 0xFD, rest);
      assert data[1..] == ToLittle(v, 2) + rest;
    } else {
      LongReadsBack(v, 4, 0x1_0000, rest);
      assert data[1..] == ToLittle(v, 4) + rest;
    }
  }

  // ---- byte strings ----------------------------------------------------------------------------

  function WriteBytes(v: Data): Data { WriteSize(|v|) + v }

  function SizeOfBytes(v: Data): nat { SizeOfSize(|v|) + |v| }

  /** `Reader::vec` of a byte string. */
  function ReadBytes(data: Data): Option<Parsed<Data>> {
    match ReadSize(data)
    case None => None
    case Some(size) => Take(size.rest, size.value)
  }

  lemma BytesWriteBack(data: Data)
    requires ReadBytes(data).Some?
    ensures var r := ReadBytes(data).value; |r.value| <= MAX_SERIALIZED_SIZE && data == WriteBytes(r.value) + r.rest
  {
    SizeWritesBack(data);
    var size := ReadSize(data).value;
    TakeWritesBack(size.rest, size.value);
  }

  lemma BytesReadBack(v: Data, rest: Data)
    requires |v| <= MAX_SERIALIZED_SIZE
    ensures ReadBytes(WriteBytes(v) + rest) == Some(Parsed(v, rest))
  {
    assert WriteBytes(v) + rest == WriteSize(|v|) + (v + rest);
    SizeReadsBack(|v|, v + rest);
    TakeReadsBack(v, rest);
  }

  // ---- vectors ------------------------------------------------------------------------------------

  function ReadItems<T>(read: Data -> Option<Parsed<T>>, data: Data, n: nat): Option<Parsed<seq<T>>>
    decreases n
  {
    if n == 0 then Some(Parsed([], data))
    else
      match read(data)
      case None => None
      case Some(first) =>
        match ReadItems(read, first.rest, n - 1)
        case None => None
        case Some(more) => Some(Parsed([first.value] + more.value, more.rest))
  }

  /** `Reader::vec`: a count past the end of the data is refused before any element is read. */
  function ReadVec<T>(read: Data -> Option<Parsed<T>>, data: Data): Option<Parsed<seq<T>>> {
    match ReadSize(data)
    case None => None
    case Some(count) => if count.value > |count.rest| then None else ReadItems(read, count.rest, count.value)
  }

  function WriteItems<T>(write: T -> Data, vs: seq<T>): Data {
    if vs == [] then [] else write(vs[0]) + WriteItems(write, vs[1..])
  }

  function WriteVec<T>(write: T -> Data, vs: seq<T>): Data { WriteSize(|vs|) + WriteItems(write, vs) }

  function SizeOfItems<T>(size: T -> nat, vs: seq<T>): nat {
    if vs == [] then 0 else size(vs[0]) + SizeOfItems(size, vs[1..])
  }

  function SizeOfVec<T>(size: T -> nat, vs: seq<T>): nat { SizeOfSize(|vs|) + SizeOfItems(size, vs) }

  /** What is read is what was written, and nothing is written as nothing. */
  ghost predicate Canonical<T(!new)>(read: Data -> Option<Parsed<T>>, write: T -> Data, ok: T -> bool) {
    && (forall data :: read(data).Some? ==>
         ok(read(data).value.value) && data == write(read(data).value.value) + read(data).value.rest)
    && (forall v :: ok(v) ==> |write(v)| > 0)
  }

  ghost predicate ReadsBack<T(!new)>(read: Data -> Option<Parsed<T>>, write: T -> Data, ok: T -> bool) {
    forall v, rest :: ok(v) ==> read(write(v) + rest) == Some(Parsed(v, rest))
  }

  ghost predicate All<T(!new)>(ok: T -> bool, vs: seq<T>) { forall k :: 0 <= k < |vs| ==> ok(vs[k]) }

  lemma {:induction false} ItemsWriteBack<T(!new)>(read: Data -> Option<Parsed<T>>, write: T -> Data, ok: T -> bool,
        data: Data, n: nat)
    requires Canonical(read, write, ok) && ReadItems(read, data, n).Some?
    ensures var r := ReadItems(read, data, n).value;
        |r.value| == n && All(ok, r.value) && data == WriteItems(write, r.value) + r.rest
    decreases n
  {
    if n > 0 {
      var first := read(data).value;
      ItemsWriteBack(read, write, ok, first.rest, n - 1);
      var more := ReadItems(read, first.rest, n - 1).value;
      assert ([first.value] + more.value)[1..] == more.value;
      assert data == write(first.value) + (WriteItems(write, more.value) + more.rest);
    }
  }

  lemma VecWritesBack<T(!new)>(read: Data -> Option<Parsed<T>>, write: T -> Data, ok: T -> bool, data: Data)
    requires Canonical(read, write, ok) && ReadVec(read, data).Some?
    ensures var r := ReadVec(read, data).value;
        |r.value| <= MAX_SERIALIZED_SIZE && All(ok, r.value) && data == WriteVec(write, r.value) + r.rest
  {
    SizeWritesBack(data);
    var count := ReadSize(data).value;
    ItemsWriteBack(read, write, ok, count.rest, count.value);
  }

  lemma {:induction false} ItemsReadBack<T(!new)>(read: Data -> Option<Parsed<T>>, write: T -> Data, ok: T -> bool,
        vs: seq<T>, rest: Data)
    requires ReadsBack(read, write, ok) && All(ok, vs)
    ensures ReadItems(read, WriteItems(write, vs) + rest, |vs|) == Some(Parsed(vs, rest))
  {
    if vs == [] {
      assert WriteItems(write, vs) + rest == rest;
    } else {
      ItemsReadBack(read, write, ok, vs[1..], rest);
      assert WriteItems(write, vs) + rest == write(vs[0]) + (WriteItems(write, vs[1..]) + rest);
      assert vs == [vs[0]] + vs[1..];
    }
  }

  lemma {:induction false} ItemsAreLong<T(!new)>(write: T -> Data, ok: T -> bool, vs: seq<T>)
    requires All(ok, vs) && forall v :: ok(v) ==> |write(v)| > 0
    ensures |WriteItems(write, vs)| >= |vs|
  {
    if vs != [] {
      ItemsAreLong(write, ok, vs[1..]);
    }
  }

  lemma VecReadsBack<T(!new)>(read: Data -> Option<Parsed<T>>, write: T -> Data, ok: T -> bool, vs: seq<T>, rest: Data)
    requires ReadsBack(read, write, ok) && All(ok, vs) && |vs| <= MAX_SERIALIZED_SIZE
        && forall v :: ok(v) ==> |write(v)| > 0
    ensures ReadVec(read, WriteVec(write, vs) + rest) == Some(Parsed(vs, rest))
  {
    var items := WriteItems(write, vs) + rest;
    assert WriteVec(write, vs) + rest == WriteSize(|vs|) + items;
    SizeReadsBack(|vs|, items);
    ItemsAreLong(write, ok, vs);
    ItemsReadBack(read, write, ok, vs, rest);
  }

  lemma {:induction false} ItemsSize<T(!new)>(write: T -> Data, size: T -> nat, vs: seq<T>)
    requires forall v :: size(v) == |write(v)|
    ensures SizeOfItems(size, vs) == |WriteItems(write, vs)|
  {
    if vs != [] {
      ItemsSize(write, size, vs[1..]);
    }
  }

  lemma VecSize<T(!new)>(write: T -> Data, size: T -> nat, vs: seq<T>)
    requires forall v :: size(v) == |write(v)|
    ensures SizeOfVec(size, vs) == |WriteVec(write, vs)|
  {
    SizeIsSize(|vs|);
    ItemsSize(write, size, vs);
  }
}
