/** The cursors of the readers as they move: over a varint, over a message, and the ordered reader's own. */
module PbCursor {
  import opened ByteData
  import opened Wrappers
  import opened PbWire
  import opened PbReaders

  function Units(n: nat): nat { if n == 0 then 1 else 128 * Units(n - 1) }

  /** What is read so far and what the rest still adds. */
  ghost function Finish(data: Data, n: nat, value: nat): Option<Number>
    requires n <= 9
  {
    match VarintFrom(data, n)
    case None => None
    case Some(more) => Some(Number(value + Units(n) * more.value, more.rest))
  }

  lemma UnitsMore(n: nat, low: nat, more: nat)
    ensures Units(n) * (low + 128 * more) == Units(n) * low + Units(n + 1) * more
  {
  }

  lemma FinishMore(data: Data, n: nat, value: nat)
    requires n < 9 && data != [] && data[0] >= 128
    ensures Finish(data, n, value) == Finish(data[1..], n + 1, value + Units(n) * (data[0] - 128) as nat)
  {
    match VarintFrom(data[1..], n + 1)
    case None =>
    case Some(more) => UnitsMore(n, (data[0] - 128) as nat, more.value);
  }

  /** Seven bits put in place: `value |= low << shift`, the shift being `7 * n`. */
  function Put(value: nat, n: nat, low: nat): nat { value + Units(n) * low }

  /** One byte taken, case by case. */
  lemma FinishByte(data: Data, n: nat, value: nat)
    requires n <= 9 && data != []
    ensures n == 9 ==> Finish(data, n, value) == if data[0] == 1 then Some(Number(Put(value, n, 1), data[1..]))
        else None
    ensures n < 9 && data[0] < 128 ==>
              Finish(data, n, value) == if n > 0 && data[0] == 0 then None
                  else Some(Number(Put(value, n, data[0] as nat), data[1..]))
    ensures n < 9 && data[0] >= 128 ==>
        Finish(data, n, value) == Finish(data[1..], n + 1, Put(value, n, (data[0] - 128) as nat))
  {
    if n < 9 && data[0] >= 128 {
      FinishMore(data, n, value);
    }
  }

  /** `pbVarint`: byte by byte, the shift growing by seven. */
  method ReadVarint(data: Data, start: nat) returns (ok: bool, value: nat, p: nat)
    requires start <= |data|
    ensures p <= |data|
    ensures if ok then Varint(data[start..]) == Some(Number(value, data[p..])) else Varint(data[start..]) == None
  {
    var n := 0;
    value, p := 0, start;
    FinishStart(data[start..]);
    while p < |data|
      invariant start <= p <= |data| && n <= 9
      invariant Varint(data[start..]) == Finish(data[p..], n, value)
      decreases |data| - p
    {
      var byte := data[p];
      FinishByte(data[p..], n, value);
      assert data[p..][0] == byte && data[p..][1..] == data[p + 1..];
      p := p + 1;
      if n == 9 {
        return byte == 1, Put(value, n, 1), p;
      }
      if byte < 128 {
        return !(n > 0 && byte == 0), Put(value, n, byte as nat), p;
      }
      value := Put(value, n, (byte - 128) as nat);
      n := n + 1;
    }
    return false, value, p;
  }

  lemma FinishStart(data: Data)
    ensures Finish(data, 0, 0) == Varint(data)
  {
  }

  /** `CPbMessage`. */
  class MessageCursor {
    const data: Data
    var ptr: nat
    var bad: bool

    ghost predicate Valid()
      reads this
    {
      ptr <= |data|
    }

    /** The fields still ahead, and whether the message breaks off after them. */
    ghost function Ahead(): Walk
      requires Valid()
      reads this
    {
      if bad then Walk([], true) else WalkOf(data[ptr..])
    }

    constructor (data: Data)
      ensures Valid() && this.data == data && Ahead() == WalkOf(data)
    {
      this.data, ptr, bad := data, 0, false;
      new;
      assert data[0..] == data;
    }

    /** A copy to peek with. */
    constructor Copy(from: MessageCursor)
      requires from.Valid()
      ensures Valid() && data == from.data && Ahead() == from.Ahead()
    {
      data, ptr, bad := from.data, from.ptr, from.bad;
    }

    /** `next`. */
    method Next() returns (ok: bool, field: Field)
      requires Valid()
      modifies this
      ensures Valid()
      ensures ok <==> old(Ahead()).fields != []
      ensures ok ==> field == old(Ahead()).fields[0] && Ahead() == Walk(old(Ahead()).fields[1..], old(Ahead()).bad)
      ensures !ok ==> Ahead() == old(Ahead()) && bad == old(Ahead()).bad
      ensures ok ==> |data| - ptr < old(|data| - ptr)
    {
      field := Field(0, 0, 0, []);
      if bad || ptr >= |data| {
        assert ptr >= |data| ==> data[ptr..] == [];
        return false, field;
      }
      ghost var here := data[ptr..];
      var good, read, p := ReadNext();
      if !good {
        bad := true;
        return false, field;
      }
      FieldShrinks(here);
      ptr := p;
      return true, read;
    }

    method ReadNext() returns (ok: bool, field: Field, p: nat)
      requires Valid() && ptr < |data|
      ensures p <= |data|
      ensures if ok then NextField(data[ptr..]) == Some(Read(field, data[p..])) else NextField(data[ptr..]) == None
    {
      field, p := Field(0, 0, 0, []), ptr;
      var good, key, q := ReadVarint(data, ptr);
      if !good || key < 8 || key > 0xFFFF_FFFF {
        return false, field, p;
      }
      ok, field, p := ReadBody(q, key / 8, key % 8);
    }

    method ReadBody(q: nat, number: nat, wire: nat) returns (ok: bool, field: Field, p: nat)
      requires q <= |data|
      ensures p <= |data|
      ensures if ok then BodyOf(data[q..], number, wire) == Some(Read(field, data[p..]))
          else BodyOf(data[q..], number, wire) == None
    {
      if wire == VARINT || wire == BYTES {
        ok, field, p := ReadCounted(q, number, wire);
      } else {
        ok, field, p := ReadFixed(q, number, wire);
      }
    }

    /** A varint, or the bytes it counts. */
    method ReadCounted(q: nat, number: nat, wire: nat) returns (ok: bool, field: Field, p: nat)
      requires q <= |data| && (wire == VARINT || wire == BYTES)
      ensures p <= |data|
      ensures if ok then BodyOf(data[q..], number, wire) == Some(Read(field, data[p..]))
          else BodyOf(data[q..], number, wire) == None
    {
      hide Varint;
      field, p := Field(0, 0, 0, []), q;
      var fine, v, r := ReadVarint(data, q);
      if !fine || (wire == BYTES && v > |data| - r) {
        return false, field, p;
      }
      if wire == VARINT {
        return true, Field(number, wire, v, []), r;
      }
      assert data[r..][..v] == data[r..r + v] && data[r..][v..] == data[r + v..];
      return true, Field(number, wire, 0, data[r..r + v]), r + v;
    }

    method ReadFixed(q: nat, number: nat, wire: nat) returns (ok: bool, field: Field, p: nat)
      requires q <= |data| && wire != VARINT && wire != BYTES
      ensures p <= |data|
      ensures if ok then BodyOf(data[q..], number, wire) == Some(Read(field, data[p..]))
          else BodyOf(data[q..], number, wire) == None
    {
      field, p := Field(0, 0, 0, []), q;
      var size := if wire == FIXED64 then 8 else 4;
      if (wire != FIXED64 && wire != FIXED32) || |data| - q < size {
        return false, field, p;
      }
      assert data[q..][..size] == data[q..q + size] && data[q..][size..] == data[q + size..];
      return true, Field(number, wire, Little(data[q..q + size]), []), q + size;
    }
  }

  lemma OccurrencesFront(f: Field, ahead: seq<Field>, number: nat)
    ensures Occurrences([f] + ahead, number) == (if f.number == number then [f] else []) + Occurrences(ahead, number)
  {
    assert ([f] + ahead)[1..] == ahead;
  }

  ghost function Pending(more: bool, f: Field, ahead: seq<Field>): seq<Field> { if more then [f] + ahead else [] }

  /** `findOne`: a search of the whole message; none when the field is absent. */
  method FindOne(data: Data, number: nat, mustExist: bool) returns (ok: bool, found: Option<Field>)
    ensures var w := WalkOf(data); var here := Occurrences(w.fields, number);
            && (ok <==> !w.bad && |here| <= 1 && (mustExist ==> here != []))
            && (ok ==> found == if here == [] then None else Some(here[0]))
  {
    hide WalkOf;
    var scan := new MessageCursor(data);
    ghost var w := WalkOf(data);
    found := None;
    var more, field := scan.Next();
    assert Pending(more, field, scan.Ahead().fields) == w.fields;
    while more
      invariant scan.Valid() && fresh(scan) && scan.Ahead().bad == w.bad && (!more ==> scan.bad == w.bad)
      invariant Occurrences(w.fields, number) == Seen(found)
          + Occurrences(Pending(more, field, scan.Ahead().fields), number)
      decreases more, |scan.Ahead().fields|
    {
      ghost var ahead := scan.Ahead().fields;
      OccurrencesFront(field, ahead, number);
      if field.number == number {
        if found.Some? {
          return false, found;
        }
        found := Some(field);
      }
      more, field := scan.Next();
      assert Pending(more, field, scan.Ahead().fields) == ahead;
    }
    ok := !scan.bad && (mustExist ==> found.Some?);
  }

  ghost function Seen(found: Option<Field>): seq<Field> { if found.Some? then [found.value] else [] }

  /** `CPbOrderedReader`'s cursor: on a field, with the rest of the message ahead. */
  class OrderedCursor {
    const scan: MessageCursor
    var current: Field
    var have: bool
    var failed: bool
    var requested: nat

    ghost predicate Valid()
      reads this, scan
    {
      scan.Valid() && (!have ==> scan.Ahead().fields == [])
    }

    /** The field under the cursor and those behind it. */
    ghost function Left(): seq<Field>
      requires Valid()
      reads this, scan
    {
      if have then [current] + scan.Ahead().fields else []
    }

    /** `start`. */
    constructor (data: Data)
      ensures Valid() && fresh(scan) && requested == 0
      ensures Left() == WalkOf(data).fields && scan.Ahead().bad == WalkOf(data).bad
      ensures failed <==> WalkOf(data).fields == [] && WalkOf(data).bad
    {
      var walk := new MessageCursor(data);
      var more, field := walk.Next();
      scan, current, have, requested := walk, field, more, 0;
      failed := !more && walk.bad;
    }

    /** `advance`. */
    method Step()
      requires Valid() && have && !failed
      modifies this, scan
      ensures Valid() && scan.Ahead().bad == old(scan.Ahead().bad) && requested == old(requested)
      ensures failed <==> Advance(old(Left()), old(scan.Ahead().bad)) == None
      ensures !failed ==> Left() == Advance(old(Left()), old(scan.Ahead().bad)).value
    {
      ghost var left, ahead := Left(), scan.Ahead().fields;
      assert left[1..] == ahead && (ahead != [] ==> left[1] == ahead[0]);
      var previous := current.number;
      var more, field := scan.Next();
      have := more;
      if !more {
        if scan.bad {
          failed := true;
        }
        return;
      }
      current := field;
      assert [field] + scan.Ahead().fields == ahead;
      if field.number < previous {
        failed := true;
      }
    }

    /** `seek`: lines ask in ascending order; a field short of the number is one nobody asked for. */
    method Seek(number: nat) returns (hit: bool)
      requires Valid() && !failed && requested < number
      modifies this
      ensures Valid() && requested == number && Left() == old(Left())
      ensures failed <==> Left() != [] && Left()[0].number < number
      ensures hit <==> Left() != [] && Left()[0].number == number
    {
      requested := number;
      if have && current.number < number {
        failed := true;
        return false;
      }
      return have && current.number == number;
    }

    /** `runLength`: a copy of the cursor counts the fields of the run. */
    method CountRun(number: nat) returns (n: nat)
      requires Valid() && have && current.number == number
      ensures n == RunLength(Left(), number)
    {
      var peek := new MessageCursor.Copy(scan);
      n := 1;
      assert Left()[1..] == scan.Ahead().fields;
      var more, field := peek.Next();
      while more && field.number == number
        invariant peek.Valid() && fresh(peek)
        invariant RunLength(Left(), number)
            == n + RunLength((if more then [field] else []) + peek.Ahead().fields, number)
        invariant !more ==> peek.Ahead().fields == []
        decreases more, |peek.Ahead().fields|
      {
        ghost var ahead := peek.Ahead().fields;
        assert ([field] + ahead)[1..] == ahead;
        n := n + 1;
        more, field := peek.Next();
        assert (if more then [field] else []) + peek.Ahead().fields == ahead;
      }
    }
  }
}
