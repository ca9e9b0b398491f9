/**
The lock-free block index: many threads call `addHeader` and `addBlock` at once and
`buildChain` carries the header phase and the data phase down the block tree.

Every atomic operation of the code is one step of the machine below. A call is a
little program: `Call` is its program counter together with its local variables.
A run is any sequence of actions, so a theorem about every run is a theorem about
every interleaving of any number of calls. Plain memory that one call owns, or that
no call writes any more, is read and written together with a neighbouring step.
 */
module BlockIndexMachine {
  import opened Wrappers

  /** A block hash, taken as an injective name. */
  type Id = int

  /** Every call of `addHeader` or `addBlock` is named once. */
  type CallId = int

  /** What hashes pin down: each header names one parent and carries one proof of work. */
  datatype Headers = Headers(genesis: Id, parent: Id -> Id, proof: Id -> nat)

  /** One index record: the bits of `Flags`, the plain fields, the `Successors` word
      (`head`, `spHeader`, `spData`) and the link `next` to the following sibling. */
  datatype Node = Node(
    headerWriteStarted: bool,
    headerDone: bool,
    dataWriteStarted: bool,
    dataDone: bool,
    workChecked: bool,
    headerReady: bool,
    dataReady: bool,
    parentDataReady: bool,
    invalid: bool,
    prev: Option<Id>,
    serialized: bool,
    height: nat,
    chainWork: nat,
    head: Option<Id>,
    spHeader: bool,
    spData: bool,
    next: Option<Id>)

  const STUB := Node(false, false, false, false, false, false, false, false, false,
                     None, false, 0, 0, None, false, false, None)

  /** The genesis record as start-up leaves it. */
  function GenesisNode(proof: nat): Node {
    Node(true, true, true, true, true, true, true, true, false,
         None, true, 0, proof, None, true, true, None)
  }

  /** `ChainEvent`. */
  datatype Events = Events(buildHeader: bool, parentData: bool, publishData: bool)

  datatype Entry = Entry(id: Id, events: Events)

  /** Where `buildChain` stands inside one iteration of its loop. */
  datatype BuildPc =
    | NextEntry
    | ComputeHeader(cur: Id, events: Events)
    | MeetData(cur: Id, readyHeader: bool, readyData: bool)
    | CheckInvalid(cur: Id, readyHeader: bool)
    | CheckPrevInvalid(cur: Id, readyHeader: bool)
    | PublishReady(cur: Id, readyHeader: bool, readyData: bool)
    | PublishPhases(cur: Id, readyHeader: bool, readyData: bool)
    | WalkSuccessors(child: Option<Id>, events: Events)

  datatype Call =
    | HeaderElect(x: Id, workOk: bool)
    | HeaderWrite(x: Id, withData: bool)
    | HeaderPublish(x: Id, withData: bool)
    | SuccessorLoad(x: Id)
    | SuccessorCas(x: Id, seen: Option<Id>, seenHeader: bool, seenData: bool)
    | DataElect(x: Id)
    | DataWrite(x: Id)
    | DataHeaderElect(x: Id)
    | DataPublish(x: Id)
    | Build(queue: seq<Entry>, best: Option<Id>, pc: BuildPc)
    | Returned(notified: Option<Id>)

  datatype State = State(nodes: map<Id, Node>, calls: map<CallId, Call>)

  datatype Action =
    | AddHeader(c: CallId, x: Id, workOk: bool)
    | AddBlock(c: CallId, x: Id)
    | Run(c: CallId, spurious: bool)
    | Invalidate(x: Id)

  /** `findOrCreateStub`: a record nobody has touched yet is a stub. */
  function Get(s: State, b: Id): Node {
    if b in s.nodes then s.nodes[b] else STUB
  }

  function Put(s: State, b: Id, n: Node, c: CallId, call: Call): State {
    State(s.nodes[b := n], s.calls[c := call])
  }

  function Goto(s: State, c: CallId, call: Call): State {
    s.(calls := s.calls[c := call])
  }

  /** `successorEvents`. */
  function SuccessorEvents(header: bool, data: bool): Events {
    Events(header, data, false)
  }

  /** Entry of `buildChain`: no events, nothing to do. */
  function StartBuild(x: Id, ev: Events): Call {
    if ev == Events(false, false, false) then Returned(None)
    else Build([Entry(x, ev)], None, NextEntry)
  }

  function AfterInvalid(cur: Id, readyHeader: bool, readyData: bool): BuildPc {
    if readyHeader || readyData then PublishReady(cur, readyHeader, readyData) else NextEntry
  }

  function AfterMeet(cur: Id, readyHeader: bool, readyData: bool): BuildPc {
    if readyData then CheckInvalid(cur, readyHeader) else AfterInvalid(cur, readyHeader, false)
  }

  function AfterHeader(cur: Id, ev: Events): BuildPc {
    if ev.parentData then MeetData(cur, ev.buildHeader, ev.publishData)
    else AfterMeet(cur, ev.buildHeader, ev.publishData)
  }

  function StartEntry(e: Entry): BuildPc {
    if e.events.buildHeader then ComputeHeader(e.id, e.events) else AfterHeader(e.id, e.events)
  }

  /** The better of the running candidate and a block that is now ready in both phases. */
  function Better(s: State, best: Option<Id>, cur: Id): Option<Id> {
    if best.None? || Get(s, cur).chainWork > Get(s, best.value).chainWork then Some(cur) else best
  }

  /** One iteration step of `buildChain`. */
  function StepBuild(u: Headers, s: State, c: CallId, q: seq<Entry>, best: Option<Id>, pc: BuildPc): State {
    match pc
    case NextEntry =>
      if q == [] then Goto(s, c, Returned(best))
      else Goto(s, c, Build(q[1..], best, StartEntry(q[0])))
    case ComputeHeader(cur, ev) =>
      var n := Get(s, cur);
      if n.prev.None? then s else
      var p := Get(s, n.prev.value);
      Put(s, cur, n.(height := p.height + 1, chainWork := p.chainWork + u.proof(cur)),
          c, Build(q, best, AfterHeader(cur, ev)))
    case MeetData(cur, rh, rd) =>
      var n := Get(s, cur);
      Put(s, cur, n.(parentDataReady := true),
          c, Build(q, best, AfterMeet(cur, rh, rd || n.dataDone)))
    case CheckInvalid(cur, rh) =>
      if Get(s, cur).invalid then Goto(s, c, Build(q, best, AfterInvalid(cur, rh, false)))
      else Goto(s, c, Build(q, best, CheckPrevInvalid(cur, rh)))
    case CheckPrevInvalid(cur, rh) =>
      var n := Get(s, cur);
      if n.prev.None? then s
      else Goto(s, c, Build(q, best, AfterInvalid(cur, rh, !Get(s, n.prev.value).invalid)))
    case PublishReady(cur, rh, rd) =>
      var n := Get(s, cur);
      var n' := n.(headerReady := n.headerReady || rh, dataReady := n.dataReady || rd);
      var best' := if n'.headerReady && n'.dataReady then Better(s, best, cur) else best;
      Put(s, cur, n', c, Build(q, best', PublishPhases(cur, rh, rd)))
    case PublishPhases(cur, rh, rd) =>
      var n := Get(s, cur);
      Put(s, cur, n.(spHeader := n.spHeader || rh, spData := n.spData || rd),
          c, Build(q, best, WalkSuccessors(n.head, SuccessorEvents(rh, rd))))
    case WalkSuccessors(child, ev) =>
      if child.None? then Goto(s, c, Build(q, best, NextEntry))
      else Goto(s, c, Build(q + [Entry(child.value, ev)], best, WalkSuccessors(Get(s, child.value).next, ev)))
  }

  /** One step of a call. `spurious` lets the weak compare-exchange fail on its own. */
  function StepCall(u: Headers, s: State, c: CallId, call: Call, spurious: bool): State {
    match call
    case HeaderElect(x, workOk) =>
      var n := Get(s, x);
      Put(s, x, n.(headerWriteStarted := true, workChecked := n.workChecked || workOk),
          c, if n.headerWriteStarted then Returned(None) else HeaderWrite(x, false))
    case HeaderWrite(x, withData) =>
      Put(s, x, Get(s, x).(prev := Some(u.parent(x))), c, HeaderPublish(x, withData))
    case HeaderPublish(x, withData) =>
      var n := Get(s, x);
      Put(s, x, n.(headerDone := true, dataDone := n.dataDone || withData), c, SuccessorLoad(x))
    case SuccessorLoad(x) =>
      var n := Get(s, x);
      if n.prev.None? then s else
      var p := Get(s, n.prev.value);
      Put(s, x, n.(next := p.head), c, SuccessorCas(x, p.head, p.spHeader, p.spData))
    case SuccessorCas(x, seen, seenHeader, seenData) =>
      var n := Get(s, x);
      if n.prev.None? then s else
      var p := Get(s, n.prev.value);
      if !spurious && p.head == seen && p.spHeader == seenHeader && p.spData == seenData then
        Put(s, n.prev.value, p.(head := Some(x)), c, StartBuild(x, SuccessorEvents(seenHeader, seenData)))
      else
        Put(s, x, n.(next := p.head), c, SuccessorCas(x, p.head, p.spHeader, p.spData))
    case DataElect(x) =>
      var n := Get(s, x);
      Put(s, x, n.(dataWriteStarted := true), c, if n.dataWriteStarted then Returned(None) else DataWrite(x))
    case DataWrite(x) =>
      Put(s, x, Get(s, x).(serialized := true), c, DataHeaderElect(x))
    case DataHeaderElect(x) =>
      var n := Get(s, x);
      Put(s, x, n.(headerWriteStarted := true), c, if n.headerWriteStarted then DataPublish(x)
          else HeaderWrite(x, true))
    case DataPublish(x) =>
      var n := Get(s, x);
      Put(s, x, n.(dataDone := true), c, StartBuild(x, Events(false, false, n.parentDataReady)))
    case Build(q, best, pc) => StepBuild(u, s, c, q, best, pc)
    case Returned(_) => s
  }

  /** What one action does; an action that is not possible in `s` does nothing. */
  function Apply(u: Headers, s: State, a: Action): State {
    match a
    case AddHeader(c, x, workOk) => if c in s.calls then s else Goto(s, c, HeaderElect(x, workOk))
    case AddBlock(c, x) => if c in s.calls then s else Goto(s, c, DataElect(x))
    case Run(c, spurious) => if c in s.calls then StepCall(u, s, c, s.calls[c], spurious) else s
    case Invalidate(x) => s.(nodes := s.nodes[x := Get(s, x).(invalid := true)])
  }

  function Initial(u: Headers): State {
    State(map[u.genesis := GenesisNode(u.proof(u.genesis))], map[])
  }

  /** The state a run ends in. */
  function Exec(u: Headers, run: seq<Action>): State {
    if run == [] then Initial(u)
    else Apply(u, Exec(u, run[..|run| - 1]), run[|run| - 1])
  }
}
