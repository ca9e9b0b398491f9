/**
The two readers of one shape. The searching reader looks every field up; the ordered one moves one
cursor forward. Field numbers of a shape ascend and stay below 64, and no survey is running.
 */
module PbReaders {
  import opened ByteData
  import opened Wrappers
  import opened PbWire

  datatype Mode = Optional | Required | Repeated

  /** What a member is read as. */
  datatype Kind = U64 | I64 | I32 | Flag | Blob(size: nat) | ByteString | Message(shape: Shape)

  /** The lines of a type's `io`, closed by `end`. */
  datatype Shape = End | Line(number: nat, mode: Mode, kind: Kind, rest: Shape)

  datatype Value = Num(n: int) | Bytes(bytes: Data) | Object(slots: seq<Slot>)

  /** A member after reading: reset to its default, set, or a list. */
  datatype Slot = Unset | Set(value: Value) | List(values: seq<Value>)

  function Signed(v: nat): int { if v < WORD_64 / 2 then v else v - WORD_64 }

  /** `Io<T>::read`. */
  function ReadScalar(kind: Kind, f: Field): Option<Value>
    requires !kind.Message?
  {
    match kind
    case U64 => if f.wire == VARINT then Some(Num(f.value)) else None
    case I64 => if f.wire == VARINT then Some(Num(Signed(f.value))) else None
    case I32 => if f.wire == VARINT && -0x8000_0000 <= Signed(f.value) <= 0x7FFF_FFFF then Some(Num(Signed(f.value)))
        else None
    case Flag => if f.wire == VARINT && f.value <= 1 then Some(Num(f.value)) else None
    case Blob(size) => if f.wire == BYTES && |f.payload| == size then Some(Bytes(f.payload)) else None
    case ByteString => if f.wire == BYTES then Some(Bytes(f.payload)) else None
  }

  /** `readField`: inside a message the reader chosen outside goes on. */
  function ReadField(kind: Kind, f: Field, ordered: bool): Option<Value>
    decreases kind, 0
  {
    match kind
    case Message(shape) =>
      if f.wire != BYTES then None
      else
        (match ReadMessage(shape, f.payload, ordered)
         case None => None
         case Some(slots) => Some(Object(slots)))
    case _ => ReadScalar(kind, f)
  }

  function ReadMessage(shape: Shape, data: Data, ordered: bool): Option<seq<Slot>>
    decreases shape, 2
  {
    var w := WalkOf(data);
    if w.bad && (!ordered || w.fields == []) then None
    else if ordered then OrderedLines(shape, w.fields, w.bad)
    else Search(shape, w.fields, ordered)
  }

  function ReadAll(kind: Kind, fields: seq<Field>, ordered: bool): Option<seq<Value>>
    decreases kind, 1, |fields|
  {
    if fields == [] then Some([])
    else
      match ReadField(kind, fields[0], ordered)
      case None => None
      case Some(v) =>
        match ReadAll(kind, fields[1..], ordered)
        case None => None
        case Some(vs) => Some([v] + vs)
  }

  // ---- the searching reader --------------------------------------------------------------------

  function Occurrences(fields: seq<Field>, number: nat): seq<Field> {
    if fields == [] then []
    else if fields[0].number == number then [fields[0]] + Occurrences(fields[1..], number)
    else Occurrences(fields[1..], number)
  }

  /** One line given the occurrences of its field. */
  function ReadLine(mode: Mode, kind: Kind, found: seq<Field>, ordered: bool): Option<Slot>
    decreases kind, 2
  {
    if mode.Repeated? then
      (match ReadAll(kind, found, ordered)
       case None => None
       case Some(vs) => Some(List(vs)))
    else if |found| > 1 then None
    else if found == [] then
      if mode.Required? then None else Some(Unset)
    else
      (match ReadField(kind, found[0], ordered)
       case None => None
       case Some(v) => Some(Set(v)))
  }

  /** Every line in turn, each searching all of the message. */
  function SearchLines(shape: Shape, fields: seq<Field>, ordered: bool): Option<seq<Slot>>
    decreases shape, 0
  {
    match shape
    case End => Some([])
    case Line(number, mode, kind, rest) =>
      match ReadLine(mode, kind, Occurrences(fields, number), ordered)
      case None => None
      case Some(slot) =>
        match SearchLines(rest, fields, ordered)
        case None => None
        case Some(slots) => Some([slot] + slots)
  }

  predicate Claims(shape: Shape, number: nat) { shape.Line? && (shape.number == number || Claims(shape.rest, number)) }

  /** `end`: no field is left that no line asked for. */
  predicate AllClaimed(shape: Shape, fields: seq<Field>) {
    forall k :: 0 <= k < |fields| ==> Claims(shape, fields[k].number)
  }

  function Search(shape: Shape, fields: seq<Field>, ordered: bool): Option<seq<Slot>>
    decreases shape, 1
  {
    if AllClaimed(shape, fields) then SearchLines(shape, fields, ordered) else None
  }

  // ---- the ordered reader -------------------------------------------------------------------------

  /** `advance`: what is left after the current field, unless the next one is malformed or goes back. */
  function Advance(fields: seq<Field>, bad: bool): Option<seq<Field>>
    requires fields != []
  {
    if |fields| == 1 then
      if bad then None else Some([])
    else if fields[1].number < fields[0].number then None
    else Some(fields[1..])
  }

  /** `runLength`, the cursor being on the first. */
  function RunLength(fields: seq<Field>, number: nat): (n: nat)
    ensures n <= |fields|
  {
    if fields == [] || fields[0].number != number then 0 else 1 + RunLength(fields[1..], number)
  }

  datatype Run = Run(values: seq<Value>, left: seq<Field>)

  /** The loop of `vec`: `n` fields read, the cursor moved after each. */
  function ReadRun(kind: Kind, fields: seq<Field>, bad: bool, n: nat): Option<Run>
    requires n <= |fields|
    decreases kind, 1, n
  {
    if n == 0 then Some(Run([], fields))
    else
      match ReadField(kind, fields[0], true)
      case None => None
      case Some(v) =>
        match Advance(fields, bad)
        case None => None
        case Some(left) =>
          if |left| < n - 1 then None
          else
            match ReadRun(kind, left, bad, n - 1)
            case None => None
            case Some(run) => Some(Run([v] + run.values, run.left))
  }

  /** The lines in turn with the cursor at `fields`. */
  function OrderedLines(shape: Shape, fields: seq<Field>, bad: bool): Option<seq<Slot>>
    decreases shape, 1
  {
    match shape
    case End => if fields == [] then Some([]) else None
    case Line(number, mode, kind, rest) =>
      if fields != [] && fields[0].number < number then None
      else if fields == [] || fields[0].number != number then
        if mode.Required? then None
        else Then(if mode.Repeated? then List([]) else Unset, OrderedLines(rest, fields, bad))
      else if mode.Repeated? then
        (match ReadRun(kind, fields, bad, RunLength(fields, number))
         case None => None
         case Some(run) => Then(List(run.values), OrderedLines(rest, run.left, bad)))
      else
        match ReadField(kind, fields[0], true)
        case None => None
        case Some(v) =>
          match Advance(fields, bad)
          case None => None
          case Some(left) =>
            if left != [] && left[0].number == number then None else Then(Set(v), OrderedLines(rest, left, bad))
  }

  function Then(slot: Slot, slots: Option<seq<Slot>>): Option<seq<Slot>> {
    match slots
    case None => None
    case Some(more) => Some([slot] + more)
  }

  // ---- shapes and order -----------------------------------------------------------------------------

  /** Numbers ascend from above `least` and stay below 64, in nested shapes too. */
  predicate Ascending(shape: Shape, least: nat)
    decreases shape
  {
    match shape
    case End => true
    case Line(number, mode, kind, rest) =>
      least < number < 64 && Ascending(rest, number) && (kind.Message? ==> Ascending(kind.shape, 0))
  }

  predicate NonDecreasing(fields: seq<Field>) {
    forall k :: 0 < k < |fields| ==> fields[k - 1].number <= fields[k].number
  }

  /** Every message the searching reader walks for this shape has its fields in order. */
  ghost predicate Walked(shape: Shape, data: Data)
    decreases shape, 1
  {
    NonDecreasing(WalkOf(data).fields) && WalkedLines(shape, WalkOf(data).fields)
  }

  ghost predicate WalkedLines(shape: Shape, fields: seq<Field>)
    decreases shape, 0
  {
    match shape
    case End => true
    case Line(number, mode, kind, rest) =>
      && (forall k :: 0 <= k < |Occurrences(fields, number)| ==> WalkedField(kind, Occurrences(fields, number)[k]))
      && WalkedLines(rest, fields)
  }

  ghost predicate WalkedField(kind: Kind, f: Field)
    decreases kind, 2
  {
    kind.Message? && f.wire == BYTES ==> Walked(kind.shape, f.payload)
  }
}
