/**
The inductive invariant of the block index machine.

Everything that may happen once per block is given a token that moves from `Idle`
through `Held` by one call to `Spent`. The tokens are bookkeeping of the proof: the
machine does not have them. `Linked` says that what a call still has to do, read off
its program counter and its queue, is exactly the set of tokens it holds.
 */
module BlockIndexInvariant {
  import opened Wrappers
  import opened BlockIndexMachine

  /** What can happen at most once to a block. */
  datatype Kind =
    | HeaderWriter     // writing the header, up to the insertion into the parent's list
    | DataWriter       // writing the data
    | HeaderEvent      // the parent's header phase, until HeaderReady is set
    | DataEvent        // the parent's data phase, until ParentDataReady is set
    | Publication      // the meeting of DataDone and ParentDataReady, until DataReady is set
    | HeaderSpread     // from HeaderReady to the phase bit of the successor word
    | DataSpread       // from DataReady to the phase bit of the successor word

  datatype Token = Idle | Held(c: CallId) | Spent

  /** The tokens of one block. */
  datatype Tokens = Tokens(
    headerWriter: Token,
    dataWriter: Token,
    headerEvent: Token,
    dataEvent: Token,
    publication: Token,
    headerSpread: Token,
    dataSpread: Token)

  function Sel(t: Tokens, k: Kind): Token {
    match k
    case HeaderWriter => t.headerWriter
    case DataWriter => t.dataWriter
    case HeaderEvent => t.headerEvent
    case DataEvent => t.dataEvent
    case Publication => t.publication
    case HeaderSpread => t.headerSpread
    case DataSpread => t.dataSpread
  }

  /** Bookkeeping: the tokens, each parent's list as a sequence, the part of a list a call
      has yet to walk, the call that saw a block become ready in both phases, how often an
      event was handed over, what was offered and by whom. */
  datatype Aux = Aux(
    toks: Id -> Tokens,
    kids: Id -> seq<Id>,
    rest: CallId -> seq<Id>,
    cover: Id -> Option<CallId>,
    got: (Id, Kind) -> int,
    headerBy: Id -> Option<CallId>,
    dataBy: Id -> Option<CallId>)

  predicate Wants(ev: Events, k: Kind) {
    match k
    case HeaderEvent => ev.buildHeader
    case DataEvent => ev.parentData
    case Publication => ev.publishData
    case _ => false
  }

  /** How many entries of a queue carry event `k` for block `b`. */
  function Count(q: seq<Entry>, k: Kind, b: Id): nat {
    if q == [] then 0
    else (if q[0].id == b && Wants(q[0].events, k) then 1 else 0) + Count(q[1..], k, b)
  }

  function One(p: bool): nat { if p then 1 else 0 }

  function PcHolds(pc: BuildPc, rest: seq<Id>, k: Kind, b: Id): nat {
    match pc
    case NextEntry => 0
    case ComputeHeader(cur, ev) => One(cur == b && Wants(ev, k))
    case MeetData(cur, rh, rd) => One(cur == b && Wants(Events(rh, true, rd), k))
    case CheckInvalid(cur, rh) => One(cur == b && Wants(Events(rh, false, true), k))
    case CheckPrevInvalid(cur, rh) => One(cur == b && Wants(Events(rh, false, true), k))
    case PublishReady(cur, rh, rd) => One(cur == b && Wants(Events(rh, false, rd), k))
    case PublishPhases(cur, rh, rd) => One(cur == b && ((k.HeaderSpread? && rh) || (k.DataSpread? && rd)))
    case WalkSuccessors(_, ev) => One(b in rest && Wants(ev, k))
  }

  /** How many tokens of kind `k` for block `b` the program counter of a call stands for. */
  function Holds(call: Call, rest: seq<Id>, k: Kind, b: Id): nat {
    match call
    case HeaderElect(_, _) => 0
    case HeaderWrite(x, withData) => One(x == b && (k.HeaderWriter? || (k.DataWriter? && withData)))
    case HeaderPublish(x, withData) => One(x == b && (k.HeaderWriter? || (k.DataWriter? && withData)))
    case SuccessorLoad(x) => One(x == b && k.HeaderWriter?)
    case SuccessorCas(x, _, _, _) => One(x == b && k.HeaderWriter?)
    case DataElect(_) => 0
    case DataWrite(x) => One(x == b && k.DataWriter?)
    case DataHeaderElect(x) => One(x == b && k.DataWriter?)
    case DataPublish(x) => One(x == b && k.DataWriter?)
    case Build(q, _, pc) => Count(q, k, b) + PcHolds(pc, rest, k, b)
    case Returned(_) => 0
  }

  function CallOf(s: State, c: CallId): Call {
    if c in s.calls then s.calls[c] else Returned(None)
  }

  /** A call stands for exactly the tokens it holds. */
  ghost predicate Linked(s: State, g: Aux, c: CallId, k: Kind, b: Id) {
    Holds(CallOf(s, c), g.rest(c), k, b) == One(Sel(g.toks(b), k) == Held(c))
  }

  /** The bits of a record are its tokens. */
  ghost predicate FlagsOk(u: Headers, b: Id, n: Node, t: Tokens) {
    && (n.headerWriteStarted <==> t.headerWriter != Idle)
    && (t.headerWriter == Spent ==> n.headerDone && (b != u.genesis ==> n.prev == Some(u.parent(b))))
    && (t.headerWriter == Idle ==> !n.headerDone)
    && (n.dataWriteStarted <==> t.dataWriter != Idle)
    && (n.dataDone <==> t.dataWriter == Spent)
    && (n.dataDone ==> n.serialized && n.headerWriteStarted)
    && (n.headerReady <==> t.headerEvent == Spent)
    && (n.parentDataReady <==> t.dataEvent == Spent)
    && (t.publication != Idle <==> n.parentDataReady && n.dataDone)
    && (n.dataReady ==> t.publication == Spent)
    && (n.headerReady <==> t.headerSpread != Idle)
    && (n.spHeader <==> t.headerSpread == Spent)
    && (n.dataReady <==> t.dataSpread != Idle)
    && (n.spData <==> t.dataSpread == Spent)
  }

  /** Phases come from the parent `p`; a ready header has its height and work; only invalid data is given up. */
  ghost predicate PathOk(u: Headers, b: Id, n: Node, t: Tokens, p: Node) {
    if b == u.genesis then
      && t.headerWriter == Spent && t.dataWriter == Spent
      && t.headerEvent == Spent && t.dataEvent == Spent
      && n.spHeader && n.spData
      && n.height == 0 && n.chainWork == u.proof(b)
    else
      && (t.headerEvent != Idle <==> t.headerWriter == Spent && p.spHeader)
      && (t.dataEvent != Idle <==> t.headerWriter == Spent && p.spData)
      && (n.headerReady ==> n.height == p.height + 1 && n.chainWork == p.chainWork + u.proof(b))
      && (t.publication == Spent && !n.dataReady ==> n.invalid || p.invalid)
  }

  ghost predicate NodeOk(u: Headers, s: State, g: Aux, b: Id) {
    && FlagsOk(u, b, Get(s, b), g.toks(b))
    && PathOk(u, b, Get(s, b), g.toks(b), Get(s, u.parent(b)))
  }

  function First(ks: seq<Id>): Option<Id> { if ks == [] then None else Some(ks[0]) }

  /** The block stands in its parent's list. */
  ghost predicate Inserted(u: Headers, g: Aux, x: Id) {
    x != u.genesis && g.toks(x).headerWriter == Spent
  }

  /** Distinct inserted blocks, each linked to the next. */
  ghost predicate ListOk(u: Headers, s: State, g: Aux, ks: seq<Id>) {
    && (forall i, j :: 0 <= i < j < |ks| ==> ks[i] != ks[j])
    && (forall i :: 0 <= i < |ks| ==> Inserted(u, g, ks[i]))
    && (forall i :: 0 <= i < |ks| ==> Get(s, ks[i]).next == First(ks[i + 1..]))
  }

  /** `kids(p)` lists the inserted children of `p`, newest first, as the links do. */
  ghost predicate KidsOk(u: Headers, s: State, g: Aux, p: Id) {
    && ListOk(u, s, g, g.kids(p))
    && (forall x :: x in g.kids(p) <==> Inserted(u, g, x) && u.parent(x) == p)
    && Get(s, p).head == First(g.kids(p))
  }

  function BestOf(call: Call): Option<Id> {
    match call
    case Build(_, best, _) => best
    case Returned(best) => best
    case _ => None
  }

  ghost predicate Ready(s: State, b: Id) {
    Get(s, b).headerReady && Get(s, b).dataReady
  }

  /** The block a call would report, or has reported, is ready and weighs at least `b`. */
  ghost predicate Covers(s: State, best: Option<Id>, b: Id) {
    best.Some? && Ready(s, best.value) && Get(s, best.value).chainWork >= Get(s, b).chainWork
  }

  ghost predicate CoverOk(u: Headers, s: State, g: Aux, b: Id) {
    && (b != u.genesis && Ready(s, b) ==> g.cover(b).Some?)
    && (g.cover(b).Some? ==>
          Get(s, b).headerReady && g.cover(b).value in s.calls && Covers(s, BestOf(s.calls[g.cover(b).value]), b))
  }

  /** Height and work of `cur` are in place although HeaderReady is not set yet. */
  ghost predicate Computed(u: Headers, s: State, cur: Id) {
    && Get(s, cur).height == Get(s, u.parent(cur)).height + 1
    && Get(s, cur).chainWork == Get(s, u.parent(cur)).chainWork + u.proof(cur)
  }

  /** The block whose header is computed and waits to be published. */
  function Waiting(pc: BuildPc): Option<Id> {
    match pc
    case MeetData(cur, rh, _) => if rh then Some(cur) else None
    case CheckInvalid(cur, rh) => if rh then Some(cur) else None
    case CheckPrevInvalid(cur, rh) => if rh then Some(cur) else None
    case PublishReady(cur, rh, _) => if rh then Some(cur) else None
    case _ => None
  }

  ghost predicate PcOk(u: Headers, s: State, rest: seq<Id>, pc: BuildPc) {
    && (Waiting(pc).Some? ==> Computed(u, s, Waiting(pc).value))
    && (pc.ComputeHeader? ==> pc.events.buildHeader)
    && (pc.WalkSuccessors? ==> pc.child == First(rest) && !pc.events.publishData)
  }

  ghost predicate CallOk(u: Headers, s: State, g: Aux, call: Call, rest: seq<Id>) {
    match call
    case HeaderElect(x, _) => g.headerBy(x).Some?
    case HeaderWrite(x, withData) => !Get(s, x).headerDone && (withData ==> Get(s, x).serialized)
    case HeaderPublish(x, withData) =>
      !Get(s, x).headerDone && (withData ==> Get(s, x).serialized) && Get(s, x).prev == Some(u.parent(x))
    case SuccessorLoad(x) => Get(s, x).headerDone && Get(s, x).prev == Some(u.parent(x))
    case SuccessorCas(x, seen, _, _) =>
      Get(s, x).headerDone && Get(s, x).prev == Some(u.parent(x)) && Get(s, x).next == seen
    case DataElect(x) => g.headerBy(x).Some? && g.dataBy(x).Some?
    case DataWrite(x) => g.headerBy(x).Some?
    case DataHeaderElect(x) => Get(s, x).serialized && g.headerBy(x).Some?
    case DataPublish(x) => Get(s, x).serialized && Get(s, x).headerWriteStarted
    case Build(q, best, pc) => (best.Some? ==> Ready(s, best.value)) && PcOk(u, s, rest, pc)
    case Returned(best) => best.Some? ==> Ready(s, best.value)
  }

  /** The call is walking a list it will hand event `k` to, and `b` is still ahead. */
  ghost predicate Ahead(call: Call, rest: seq<Id>, k: Kind, b: Id) {
    call.Build? && call.pc.WalkSuccessors? && b in rest && Wants(call.pc.events, k)
  }

  ghost predicate Walking(s: State, g: Aux, k: Kind, b: Id) {
    var t := Sel(g.toks(b), k);
    t.Held? && Ahead(CallOf(s, t.c), g.rest(t.c), k, b)
  }

  /** A parent's phase was handed to the child once, or not yet. */
  ghost predicate GotOk(u: Headers, s: State, g: Aux, k: Kind, b: Id) {
    (k.HeaderEvent? || k.DataEvent?) ==>
      g.got(b, k) == One(b != u.genesis && Sel(g.toks(b), k) != Idle && !Walking(s, g, k, b))
  }

  /** A block that was offered has its writer elected, or the first call offering it is on its way there. */
  ghost predicate OfferOk(u: Headers, s: State, g: Aux, b: Id) {
    && (Get(s, b).headerWriteStarted ==> b == u.genesis || g.headerBy(b).Some?)
    && (Get(s, b).dataWriteStarted ==> b == u.genesis || g.dataBy(b).Some?)
    && (g.headerBy(b).Some? ==>
          && g.headerBy(b).value in s.calls
          && (|| Get(s, b).headerWriteStarted
              || Get(s, b).dataWriteStarted
              || Electing(s.calls[g.headerBy(b).value], b)))
    && (g.dataBy(b).Some? ==>
          && g.dataBy(b).value in s.calls
          && (|| Get(s, b).dataWriteStarted
              || s.calls[g.dataBy(b).value] == DataElect(b)))
  }

  predicate Electing(call: Call, b: Id) {
    call == DataElect(b) || (call.HeaderElect? && call.x == b)
  }

  ghost predicate InvTokens(s: State, g: Aux) {
    forall c: CallId, k: Kind, b: Id :: Linked(s, g, c, k, b)
  }

  ghost predicate InvNodes(u: Headers, s: State, g: Aux) {
    forall b: Id :: NodeOk(u, s, g, b)
  }

  ghost predicate InvLists(u: Headers, s: State, g: Aux) {
    && (forall p: Id :: KidsOk(u, s, g, p))
    && (forall c: CallId :: ListOk(u, s, g, g.rest(c)))
  }

  ghost predicate InvCalls(u: Headers, s: State, g: Aux) {
    forall c: CallId :: CallOk(u, s, g, CallOf(s, c), g.rest(c))
  }

  ghost predicate InvCover(u: Headers, s: State, g: Aux) {
    forall b: Id :: CoverOk(u, s, g, b)
  }

  ghost predicate InvOffer(u: Headers, s: State, g: Aux) {
    forall b: Id :: OfferOk(u, s, g, b)
  }

  ghost predicate InvGot(u: Headers, s: State, g: Aux) {
    forall k: Kind, b: Id :: GotOk(u, s, g, k, b)
  }

  ghost predicate Inv(u: Headers, s: State, g: Aux) {
    && InvTokens(s, g) && InvNodes(u, s, g) && InvLists(u, s, g) && InvCalls(u, s, g)
    && InvCover(u, s, g) && InvOffer(u, s, g) && InvGot(u, s, g)
  }
}
