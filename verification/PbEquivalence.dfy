/** The ordered reader accepts exactly what the searching reader accepts in order, and builds the same object. */
module PbEquivalence {
  import opened ByteData
  import opened Wrappers
  import opened PbWire
  import opened PbReaders

  // ---- order ---------------------------------------------------------------------------------------

  lemma OrderedTail(fields: seq<Field>)
    requires fields != []
    ensures NonDecreasing(fields) <==>
        NonDecreasing(fields[1..]) && (|fields| > 1 ==> fields[0].number <= fields[1].number)
  {
    var rest := fields[1..];
    if NonDecreasing(rest) && (|fields| > 1 ==> fields[0].number <= fields[1].number) {
      forall k | 0 < k < |fields| ensures fields[k - 1].number <= fields[k].number {
        if k > 1 {
          assert rest[k - 2].number <= rest[k - 1].number;
        }
      }
    }
    if NonDecreasing(fields) {
      forall k | 0 < k < |rest| ensures rest[k - 1].number <= rest[k].number {
        assert fields[k + 1 - 1].number <= fields[k + 1].number;
      }
    }
  }

  lemma {:induction false} FirstIsLeast(fields: seq<Field>, k: nat)
    requires NonDecreasing(fields) && k < |fields|
    ensures fields[0].number <= fields[k].number
  {
    if k > 0 {
      FirstIsLeast(fields, k - 1);
    }
  }

  lemma {:induction false} NoneFound(fields: seq<Field>, number: nat)
    requires forall k :: 0 <= k < |fields| ==> fields[k].number != number
    ensures Occurrences(fields, number) == []
  {
    if fields != [] {
      NoneFound(fields[1..], number);
    }
  }

  /** Dropping a field of another number from the front changes no search. */
  lemma SkipFront(fields: seq<Field>, number: nat)
    requires fields != [] && fields[0].number != number
    ensures Occurrences(fields, number) == Occurrences(fields[1..], number)
  {
  }

  lemma {:induction false} ClaimsAbove(shape: Shape, least: nat, number: nat)
    requires Ascending(shape, least) && Claims(shape, number)
    ensures least < number
  {
    if shape.number != number {
      ClaimsAbove(shape.rest, shape.number, number);
    }
  }

  /** The lines above a number do not see fields of it. */
  lemma {:induction false} LinesSkip(shape: Shape, least: nat, fields: seq<Field>)
    requires Ascending(shape, least) && fields != [] && fields[0].number <= least
    ensures SearchLines(shape, fields, true) == SearchLines(shape, fields[1..], true)
    decreases shape
  {
    if shape.Line? {
      SkipFront(fields, shape.number);
      LinesSkip(shape.rest, shape.number, fields);
    }
  }

  // ---- claims ----------------------------------------------------------------------------------------

  /** Fields all above a line's number are claimed by the lines after it, or not at all. */
  lemma ClaimedLater(shape: Shape, fields: seq<Field>)
    requires shape.Line? && forall k :: 0 <= k < |fields| ==> fields[k].number > shape.number
    ensures AllClaimed(shape, fields) <==> AllClaimed(shape.rest, fields)
  {
    assert forall k :: 0 <= k < |fields| ==>
        (Claims(shape, fields[k].number) <==> Claims(shape.rest, fields[k].number));
  }

  // ---- one line ------------------------------------------------------------------------------------------

  /** Nothing of this line's field is ahead. */
  lemma MissedLine(shape: Shape, least: nat, fields: seq<Field>)
    requires Ascending(shape, least) && shape.Line? && NonDecreasing(fields)
        && (fields == [] || fields[0].number > shape.number)
    ensures Search(shape, fields, true) ==
            if shape.mode.Required? then None
            else Then(if shape.mode.Repeated? then List([]) else Unset, Search(shape.rest, fields, true))
  {
    forall k | 0 <= k < |fields| ensures fields[k].number > shape.number {
      FirstIsLeast(fields, k);
    }
    NoneFound(fields, shape.number);
    ClaimedLater(shape, fields);
    var found := Occurrences(fields, shape.number);
    assert ReadAll(shape.kind, found, true) == Some([]);
    assert ReadLine(shape.mode, shape.kind, found, true) ==
           if shape.mode.Required? then None else Some(if shape.mode.Repeated? then List([]) else Unset);
  }

  /** A field below this line's number is asked for by no line. */
  lemma BelowLine(shape: Shape, least: nat, fields: seq<Field>)
    requires Ascending(shape, least) && shape.Line? && fields != [] && fields[0].number < shape.number
    ensures Search(shape, fields, true) == None
  {
    if Claims(shape, fields[0].number) {
      ClaimsAbove(shape.rest, shape.number, fields[0].number);
    }
  }

  /** A run at the front: what it leaves, and the rest of the message beyond its number. */
  ghost predicate RunAt(fields: seq<Field>, number: nat, n: nat) {
    && n <= |fields| && (forall k :: 0 <= k < n ==> fields[k].number == number)
    && (forall k :: n <= k < |fields| ==> fields[k].number > number)
  }

  lemma {:induction false} RunIs(fields: seq<Field>, number: nat)
    requires NonDecreasing(fields) && (forall k :: 0 <= k < |fields| ==> fields[k].number >= number)
    ensures RunAt(fields, number, RunLength(fields, number))
  {
    if fields != [] && fields[0].number == number {
      OrderedTail(fields);
      RunIs(fields[1..], number);
      var n := RunLength(fields, number);
      forall k | n <= k < |fields| ensures fields[k].number > number {
        assert fields[k] == fields[1..][k - 1];
      }
      forall k | 0 <= k < n ensures fields[k].number == number {
        assert k > 0 ==> fields[k] == fields[1..][k - 1];
      }
    } else {
      forall k | 0 <= k < |fields| ensures fields[k].number > number {
        FirstIsLeast(fields, k);
      }
    }
  }

  lemma {:induction false} RunFound(fields: seq<Field>, number: nat, n: nat)
    requires RunAt(fields, number, n)
    ensures Occurrences(fields, number) == fields[..n]
    decreases n
  {
    if n == 0 {
      NoneFound(fields, number);
    } else {
      assert RunAt(fields[1..], number, n - 1) by {
        assert forall k :: 0 <= k < |fields| - 1 ==> fields[1..][k] == fields[k + 1];
      }
      RunFound(fields[1..], number, n - 1);
      assert fields[..n] == [fields[0]] + fields[1..][..n - 1];
    }
  }

  /** The lines after this one search what is behind the run. */
  lemma {:induction false} RunSkipped(shape: Shape, number: nat, fields: seq<Field>, n: nat)
    requires Ascending(shape, number) && RunAt(fields, number, n)
    ensures SearchLines(shape, fields, true) == SearchLines(shape, fields[n..], true)
    decreases n
  {
    if n > 0 {
      LinesSkip(shape, number, fields);
      assert RunAt(fields[1..], number, n - 1) by {
        assert forall k :: 0 <= k < |fields| - 1 ==> fields[1..][k] == fields[k + 1];
      }
      RunSkipped(shape, number, fields[1..], n - 1);
      assert fields[1..][n - 1..] == fields[n..];
    }
  }

  lemma RunClaimed(shape: Shape, fields: seq<Field>, n: nat)
    requires shape.Line? && RunAt(fields, shape.number, n)
    ensures AllClaimed(shape, fields) <==> AllClaimed(shape.rest, fields[n..])
  {
    var left := fields[n..];
    assert forall k :: 0 <= k < |left| ==> left[k] == fields[n + k];
    ClaimedLater(shape, left);
    assert forall k :: n <= k < |fields| ==> fields[k] == left[k - n];
  }

  /** A line whose run is at the front. */
  lemma HitLine(shape: Shape, least: nat, fields: seq<Field>, n: nat)
    requires Ascending(shape, least) && shape.Line? && RunAt(fields, shape.number, n)
    ensures Search(shape, fields, true) ==
            match ReadLine(shape.mode, shape.kind, fields[..n], true)
            case None => None
            case Some(slot) => Then(slot, Search(shape.rest, fields[n..], true))
  {
    RunFound(fields, shape.number, n);
    RunSkipped(shape.rest, shape.number, fields, n);
    RunClaimed(shape, fields, n);
  }

  // ---- the cursor over a run ------------------------------------------------------------------------------

  lemma {:induction false} OrderedDrop(fields: seq<Field>, n: nat)
    requires NonDecreasing(fields) && n <= |fields|
    ensures NonDecreasing(fields[n..])
  {
    forall k | 0 < k < |fields[n..]| ensures fields[n..][k - 1].number <= fields[n..][k].number {
      assert fields[n + k - 1].number <= fields[n + k].number;
    }
  }

  /** In order and well formed, the cursor reads a run as a list and stops behind it. */
  lemma {:induction false} RunIsRead(kind: Kind, fields: seq<Field>, n: nat)
    requires NonDecreasing(fields) && n <= |fields|
    ensures ReadRun(kind, fields, false, n) ==
            match ReadAll(kind, fields[..n], true)
            case None => None
            case Some(vs) => Some(Run(vs, fields[n..]))
    decreases n
  {
    if n > 0 {
      OrderedTail(fields);
      assert |fields| == 1 ==> fields[1..] == [];
      assert Advance(fields, false) == Some(fields[1..]);
      RunIsRead(kind, fields[1..], n - 1);
      assert fields[..n][1..] == fields[1..][..n - 1];
      assert fields[1..][n - 1..] == fields[n..];
    } else {
      assert fields[0..] == fields;
    }
  }

  /** Malformed or out of order at the end, a run either stops the cursor or leaves it so. */
  lemma {:induction false} RunStopsOrLeaves(kind: Kind, fields: seq<Field>, bad: bool, n: nat)
    requires n <= |fields| && fields != [] && (bad || !NonDecreasing(fields)) && ReadRun(kind, fields, bad, n).Some?
    ensures var left := ReadRun(kind, fields, bad, n).value.left; left != [] && (bad || !NonDecreasing(left))
    decreases n
  {
    if n > 0 {
      OrderedTail(fields);
      var left := Advance(fields, bad).value;
      RunStopsOrLeaves(kind, left, bad, n - 1);
    }
  }

  // ---- the cursor over a message ----------------------------------------------------------------------------

  lemma {:induction false} CursorStops(shape: Shape, fields: seq<Field>, bad: bool)
    requires fields != [] && (bad || !NonDecreasing(fields))
    ensures OrderedLines(shape, fields, bad) == None
    decreases shape
  {
    if shape.Line? && fields[0].number >= shape.number {
      if fields[0].number != shape.number {
        CursorStops(shape.rest, fields, bad);
      } else if shape.mode.Repeated? {
        if ReadRun(shape.kind, fields, bad, RunLength(fields, shape.number)).Some? {
          RunStopsOrLeaves(shape.kind, fields, bad, RunLength(fields, shape.number));
          CursorStops(shape.rest, ReadRun(shape.kind, fields, bad, RunLength(fields, shape.number)).value.left, bad);
        }
      } else {
        OrderedTail(fields);
        if Advance(fields, bad).Some? {
          CursorStops(shape.rest, Advance(fields, bad).value, bad);
        }
      }
    }
  }

  lemma RepeatedLine(shape: Shape, least: nat, fields: seq<Field>)
    requires Ascending(shape, least) && shape.Line? && shape.mode.Repeated? && NonDecreasing(fields) && fields != []
        && fields[0].number == shape.number
    requires var n := RunLength(fields, shape.number);
        OrderedLines(shape.rest, fields[n..], false) == Search(shape.rest, fields[n..], true)
    ensures OrderedLines(shape, fields, false) == Search(shape, fields, true)
  {
    forall k | 0 <= k < |fields| ensures fields[k].number >= shape.number {
      FirstIsLeast(fields, k);
    }
    var n := RunLength(fields, shape.number);
    RunIs(fields, shape.number);
    HitLine(shape, least, fields, n);
    RunIsRead(shape.kind, fields, n);
  }

  lemma SingleLine(shape: Shape, least: nat, fields: seq<Field>)
    requires Ascending(shape, least) && shape.Line? && !shape.mode.Repeated? && NonDecreasing(fields) && fields != []
        && fields[0].number == shape.number
    requires OrderedLines(shape.rest, fields[1..], false) == Search(shape.rest, fields[1..], true)
    ensures OrderedLines(shape, fields, false) == Search(shape, fields, true)
  {
    forall k | 0 <= k < |fields| ensures fields[k].number >= shape.number {
      FirstIsLeast(fields, k);
    }
    var n := RunLength(fields, shape.number);
    RunIs(fields, shape.number);
    HitLine(shape, least, fields, n);
    OrderedTail(fields);
    assert Advance(fields, false) == Some(fields[1..]);
    if n == 1 {
      assert fields[..1] == [fields[0]];
    } else {
      assert n >= 2;
      assert fields[1].number == shape.number && fields[1] == fields[1..][0];
    }
  }

  lemma {:induction false} CursorSearches(shape: Shape, least: nat, fields: seq<Field>)
    requires Ascending(shape, least) && NonDecreasing(fields)
    ensures OrderedLines(shape, fields, false) == Search(shape, fields, true)
    decreases shape
  {
    match shape
    case End => assert fields != [] ==> !Claims(shape, fields[0].number);
    case Line(number, mode, kind, rest) =>
      if fields != [] && fields[0].number < number {
        BelowLine(shape, least, fields);
      } else if fields == [] || fields[0].number > number {
        MissedLine(shape, least, fields);
        CursorSearches(rest, number, fields);
      } else if mode.Repeated? {
        OrderedDrop(fields, RunLength(fields, number));
        CursorSearches(rest, number, fields[RunLength(fields, number)..]);
        RepeatedLine(shape, least, fields);
      } else {
        OrderedDrop(fields, 1);
        CursorSearches(rest, number, fields[1..]);
        SingleLine(shape, least, fields);
      }
  }

  // ---- nested messages ----------------------------------------------------------------------------------------

  ghost predicate AllWalked(kind: Kind, fields: seq<Field>) {
    forall k :: 0 <= k < |fields| ==> WalkedField(kind, fields[k])
  }

  /** The claim for readers of a kind, for every field. */
  ghost predicate KindAgrees(kind: Kind) {
    forall f :: FieldAgrees(kind, f)
  }

  ghost predicate FieldAgrees(kind: Kind, f: Field) {
    (ReadField(kind, f, true).Some? <==> ReadField(kind, f, false).Some? && WalkedField(kind, f)) &&
    (ReadField(kind, f, true).Some? ==> ReadField(kind, f, true) == ReadField(kind, f, false))
  }

  lemma {:induction false} ListAgrees(kind: Kind, fields: seq<Field>)
    requires KindAgrees(kind)
    ensures ReadAll(kind, fields, true).Some? <==> ReadAll(kind, fields, false).Some? && AllWalked(kind, fields)
    ensures ReadAll(kind, fields, true).Some? ==> ReadAll(kind, fields, true) == ReadAll(kind, fields, false)
  {
    if fields != [] {
      assert FieldAgrees(kind, fields[0]);
      ListAgrees(kind, fields[1..]);
      assert fields == [fields[0]] + fields[1..];
      assert AllWalked(kind, fields) <==> WalkedField(kind, fields[0]) && AllWalked(kind, fields[1..]);
    }
  }

  lemma LineAgrees(mode: Mode, kind: Kind, found: seq<Field>)
    requires KindAgrees(kind)
    ensures ReadLine(mode, kind, found, true).Some? <==>
        ReadLine(mode, kind, found, false).Some? && AllWalked(kind, found)
    ensures ReadLine(mode, kind, found, true).Some? ==>
        ReadLine(mode, kind, found, true) == ReadLine(mode, kind, found, false)
  {
    if mode.Repeated? {
      ListAgrees(kind, found);
    } else if |found| == 1 {
      assert FieldAgrees(kind, found[0]);
      assert AllWalked(kind, found) <==> WalkedField(kind, found[0]);
    }
  }

  /** The claim for a shape's lines, for every list of fields. */
  lemma {:induction false} LinesAgree(shape: Shape, least: nat, fields: seq<Field>)
    requires Ascending(shape, least)
    ensures SearchLines(shape, fields, true).Some? <==>
        SearchLines(shape, fields, false).Some? && WalkedLines(shape, fields)
    ensures SearchLines(shape, fields, true).Some? ==>
        SearchLines(shape, fields, true) == SearchLines(shape, fields, false)
    decreases shape, 0
  {
    if shape.Line? {
      forall f ensures FieldAgrees(shape.kind, f) {
        ReadersAgreeOn(shape.kind, f);
      }
      LineAgrees(shape.mode, shape.kind, Occurrences(fields, shape.number));
      LinesAgree(shape.rest, shape.number, fields);
    }
  }

  lemma {:induction false} ReadersAgreeOn(kind: Kind, f: Field)
    requires kind.Message? ==> Ascending(kind.shape, 0)
    ensures FieldAgrees(kind, f)
    decreases kind, 0
  {
    if kind.Message? && f.wire == BYTES {
      OrderedIsSearching(kind.shape, f.payload);
    }
  }

  /**
  For every shape and every byte string: the ordered reader accepts exactly when the searching
  reader accepts and every message walked has non-decreasing field numbers, and then both build
  the same object.
   */
  lemma {:induction false} OrderedIsSearching(shape: Shape, data: Data)
    requires Ascending(shape, 0)
    ensures ReadMessage(shape, data, true).Some? <==> ReadMessage(shape, data, false).Some? && Walked(shape, data)
    ensures ReadMessage(shape, data, true).Some? ==> ReadMessage(shape, data, true) == ReadMessage(shape, data, false)
    decreases shape, 1
  {
    var w := WalkOf(data);
    if w.fields != [] && (w.bad || !NonDecreasing(w.fields)) {
      CursorStops(shape, w.fields, w.bad);
    } else if !w.bad {
      CursorSearches(shape, 0, w.fields);
      LinesAgree(shape, 0, w.fields);
    }
  }
}
