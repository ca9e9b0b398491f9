/** The invariant over whole runs. */
module BlockIndexRuns {
  import opened Wrappers
  import opened BlockIndexMachine
  import opened BlockIndexInvariant
  import opened BlockIndexFrames
  import opened BlockIndexSteps
  import opened BlockIndexSpread
  import opened BlockIndexLists

  /** The exchange of `addSuccessor` goes through. */
  ghost predicate Exchanges(s: State, call: Call, spurious: bool) {
    && call.SuccessorCas? && !spurious && Get(s, call.x).prev.Some?
    && var p := Get(s, Get(s, call.x).prev.value);
       p.head == call.seen && p.spHeader == call.seenHeader && p.spData == call.seenData
  }

  /** The action hands the parent's phase `k` to block `b`: by inheriting it when joining the
      list, or by being met on a walk. */
  ghost predicate Delivers(s: State, a: Action, k: Kind, b: Id) {
    && a.Run? && a.c in s.calls
    && var call := s.calls[a.c];
       || (Exchanges(s, call, a.spurious) && call.x == b && Wants(SuccessorEvents(call.seenHeader, call.seenData), k))
       || (call.Build? && call.pc.WalkSuccessors? && call.pc.child == Some(b) && Wants(call.pc.events, k))
  }

  /** Bookkeeping other than what a step of a call may touch. */
  ghost predicate Keeps(g: Aux, g': Aux) {
    g'.headerBy == g.headerBy && g'.dataBy == g.dataBy
  }

  /** What a call has left to walk after its next step. */
  ghost function RestAfter(call: Call, g: Aux, c: CallId): seq<Id> {
    if call.Build? && call.pc.PublishPhases? then g.kids(call.pc.cur)
    else if call.Build? && call.pc.WalkSuccessors? && g.rest(c) != [] then g.rest(c)[1..]
    else g.rest(c)
  }

  /** A step moves on in the call's own walk and in no other. */
  ghost predicate RestMoves(s: State, g: Aux, c: CallId, g': Aux)
    requires c in s.calls
  {
    g'.rest(c) == RestAfter(s.calls[c], g, c) && forall d :: d != c ==> g'.rest(d) == g.rest(d)
  }

  /** What was handed over is counted. */
  ghost predicate Counts(s: State, g: Aux, a: Action, g': Aux) {
    forall k: Kind, b: Id :: k.HeaderEvent? || k.DataEvent? ==> g'.got(b, k) == g.got(b, k) + One(Delivers(s, a, k, b))
  }

  lemma ElectStep(u: Headers, s: State, g: Aux, c: CallId, spurious: bool) returns (g': Aux)
    requires Inv(u, s, g) && c in s.calls && (s.calls[c].HeaderElect? || s.calls[c].DataElect?)
    ensures Inv(u, StepCall(u, s, c, s.calls[c], spurious), g') && Keeps(g, g') && g'.got == g.got && g'.rest == g.rest
  {
    var x, n := s.calls[c].x, Get(s, s.calls[c].x);
    Look(u, s, g, c, x);
    var t' := g.toks(x);
    match s.calls[c] {
      case HeaderElect(_, workOk) =>
        var w := n.workChecked || workOk;
        if n.headerWriteStarted {
          HeaderDuplicateStep(u, s, g, c, x, w);
        } else {
          t' := t'.(headerWriter := Held(c));
          HeaderElectStep(u, s, g, c, x, w);
        }
        LocalStep(u, s, g, c, if n.headerWriteStarted then Returned(None) else HeaderWrite(x, false), x,
                  n.(headerWriteStarted := true, workChecked := w), t');
      case DataElect(_) =>
        if n.dataWriteStarted {
          DataDuplicateStep(u, s, g, c, x);
        } else {
          t' := t'.(dataWriter := Held(c));
          DataElectStep(u, s, g, c, x);
        }
        LocalStep(u, s, g, c, if n.dataWriteStarted then Returned(None) else DataWrite(x), x,
            n.(dataWriteStarted := true), t');
    }
    g' := Turn(g, x, t');
  }

  lemma WriteStep(u: Headers, s: State, g: Aux, c: CallId, spurious: bool) returns (g': Aux)
    requires Inv(u, s, g) && c in s.calls
    requires s.calls[c].HeaderWrite? || s.calls[c].HeaderPublish? || s.calls[c].DataWrite?
        || s.calls[c].DataHeaderElect? || s.calls[c].DataPublish?
    ensures Inv(u, StepCall(u, s, c, s.calls[c], spurious), g') && Keeps(g, g') && g'.got == g.got && g'.rest == g.rest
  {
    var x, n := s.calls[c].x, Get(s, s.calls[c].x);
    Look(u, s, g, c, x);
    var t' := g.toks(x);
    match s.calls[c] {
      case HeaderWrite(_, withData) =>
        HeaderWriteStep(u, s, g, c, x, withData);
        LocalStep(u, s, g, c, HeaderPublish(x, withData), x, n.(prev := Some(u.parent(x))), t');
      case HeaderPublish(_, withData) =>
        t' := HeaderPublishStep(u, s, g, c, x, withData);
        LocalStep(u, s, g, c, SuccessorLoad(x), x, n.(headerDone := true, dataDone := n.dataDone || withData), t');
      case DataWrite(_) =>
        DataWriteStep(u, s, g, c, x);
        LocalStep(u, s, g, c, DataHeaderElect(x), x, n.(serialized := true), t');
      case DataHeaderElect(_) =>
        if n.headerWriteStarted {
          DataHeaderLostStep(u, s, g, c, x);
          LocalStep(u, s, g, c, DataPublish(x), x, n.(headerWriteStarted := true), t');
        } else {
          DataHeaderWonStep(u, s, g, c, x);
          t' := t'.(headerWriter := Held(c));
          LocalStep(u, s, g, c, HeaderWrite(x, true), x, n.(headerWriteStarted := true), t');
        }
      case DataPublish(_) =>
        t' := DataPublishStep(u, s, g, c, x);
        LocalStep(u, s, g, c, StartBuild(x, Events(false, false, n.parentDataReady)), x, n.(dataDone := true), t');
    }
    g' := Turn(g, x, t');
  }

  ghost function GotMore(g: Aux, x: Id, ev: Events): (Id, Kind) -> int {
    (b, k) => g.got(b, k) + One(b == x && Wants(ev, k))
  }

  lemma ExchangeStep(u: Headers, s: State, g: Aux, c: CallId) returns (g': Aux)
    requires Inv(u, s, g) && c in s.calls && Exchanges(s, s.calls[c], false) && At(u, s, g, c, s.calls[c].x)
    ensures Inv(u, StepCall(u, s, c, s.calls[c], false), g') && Keeps(g, g') && g'.rest == g.rest
    ensures forall k, b ::
        g'.got(b, k) == g.got(b, k)
        + One(b == s.calls[c].x && Wants(SuccessorEvents(s.calls[c].seenHeader, s.calls[c].seenData), k))
  {
    var x := s.calls[c].x;
    var p := u.parent(x);
    var P := Get(s, p);
    var ev := SuccessorEvents(P.spHeader, P.spData);
    var t' := g.toks(x).(headerWriter := Spent,
                         headerEvent := if P.spHeader then Held(c) else g.toks(x).headerEvent,
                         dataEvent := if P.spData then Held(c) else g.toks(x).dataEvent);
    g' := g.(toks := b => if b == x then t' else g.toks(b),
             kids := b => if b == p then [x] + g.kids(p) else g.kids(b),
             got := GotMore(g, x, ev));
    JoinStep(u, s, g, StepCall(u, s, c, s.calls[c], false), g', c, x);
  }

  lemma SuccessorStep(u: Headers, s: State, g: Aux, c: CallId, spurious: bool) returns (g': Aux)
    requires Inv(u, s, g) && c in s.calls && (s.calls[c].SuccessorLoad? || s.calls[c].SuccessorCas?)
    ensures Inv(u, StepCall(u, s, c, s.calls[c], spurious), g') && Keeps(g, g') && Counts(s, g, Run(c, spurious), g')
    ensures g'.rest == g.rest
  {
    var x := s.calls[c].x;
    Look(u, s, g, c, x);
    if Exchanges(s, s.calls[c], spurious) {
      g' := ExchangeStep(u, s, g, c);
    } else {
      var P := Get(s, u.parent(x));
      SuccessorReadStep(u, s, g, c, x);
      LocalStep(u, s, g, c, SuccessorCas(x, P.head, P.spHeader, P.spData), x, Get(s, x).(next := P.head), g.toks(x));
      g' := Turn(g, x, g.toks(x));
    }
  }

  /** The node and the call after the header is computed. */
  function HeaderNode(u: Headers, s: State, x: Id): Node {
    var p := Get(s, u.parent(x));
    Get(s, x).(height := p.height + 1, chainWork := p.chainWork + u.proof(x))
  }

  lemma HeaderLocal(u: Headers, s: State, g: Aux, c: CallId, q: seq<Entry>, best: Option<Id>, x: Id, ev: Events)
    requires At(u, s, g, c, x) && s.calls[c] == Build(q, best, ComputeHeader(x, ev))
    ensures LocalOk(u, s, g, c, Build(q, best, AfterHeader(x, ev)), x, HeaderNode(u, s, x), g.toks(x))
  {
    hide LocalOk, HoldsOk, NodeOk;
    HeaderHolds(g, c, q, best, x, ev, g.toks(x));
    ComputeHeaderStep(u, s, g, c, q, best, x, ev, AfterHeader(x, ev));
  }

  lemma HeaderMoves(u: Headers, s: State, g: Aux, c: CallId, q: seq<Entry>, best: Option<Id>, x: Id, ev: Events)
    requires At(u, s, g, c, x) && s.calls[c] == Build(q, best, ComputeHeader(x, ev))
    ensures StepBuild(u, s, c, q, best, ComputeHeader(x, ev))
        == Put(s, x, HeaderNode(u, s, x), c, Build(q, best, AfterHeader(x, ev)))
  {
    HeaderHolds(g, c, q, best, x, ev, g.toks(x));
    HeaderEventHeld(u, s, g, x);
    HeaderStep(u, s, c, q, best, x, ev);
  }

  lemma HeaderStep(u: Headers, s: State, c: CallId, q: seq<Entry>, best: Option<Id>, x: Id, ev: Events)
    requires Get(s, x).prev == Some(u.parent(x))
    ensures StepBuild(u, s, c, q, best, ComputeHeader(x, ev))
        == Put(s, x, HeaderNode(u, s, x), c, Build(q, best, AfterHeader(x, ev)))
  {
  }

  lemma HeaderRun(u: Headers, s: State, g: Aux, c: CallId, q: seq<Entry>, best: Option<Id>, x: Id, ev: Events)
        returns (g': Aux)
    requires Inv(u, s, g) && c in s.calls && s.calls[c] == Build(q, best, ComputeHeader(x, ev))
    ensures Inv(u, StepBuild(u, s, c, q, best, ComputeHeader(x, ev)), g') && Keeps(g, g') && g'.got == g.got
        && g'.rest == g.rest
  {
    Look(u, s, g, c, x);
    HeaderLocal(u, s, g, c, q, best, x, ev);
    HeaderMoves(u, s, g, c, q, best, x, ev);
    LocalStep(u, s, g, c, Build(q, best, AfterHeader(x, ev)), x, HeaderNode(u, s, x), g.toks(x));
    g' := Turn(g, x, g.toks(x));
  }

  lemma MeetRun(u: Headers, s: State, g: Aux, c: CallId, q: seq<Entry>, best: Option<Id>, x: Id, rh: bool, rd: bool)
        returns (g': Aux)
    requires Inv(u, s, g) && c in s.calls && s.calls[c] == Build(q, best, MeetData(x, rh, rd))
    ensures Inv(u, StepBuild(u, s, c, q, best, MeetData(x, rh, rd)), g') && Keeps(g, g') && g'.got == g.got
        && g'.rest == g.rest
  {
    var n := Get(s, x);
    Look(u, s, g, c, x);
    DataEventHeld(u, s, g, c, q, best, x, rh, rd);
    var t' := g.toks(x).(dataEvent := Spent, publication := if n.dataDone then Held(c) else Idle);
    MeetHolds(g, c, q, best, x, rh, n.dataDone, g.toks(x), t');
    MeetDataStep(u, s, g, c, q, best, x, rh, AfterMeet(x, rh, n.dataDone), t');
    LocalStep(u, s, g, c, Build(q, best, AfterMeet(x, rh, n.dataDone)), x, n.(parentDataReady := true), t');
    g' := Turn(g, x, t');
  }

  lemma CheckRun(u: Headers, s: State, g: Aux, c: CallId, q: seq<Entry>, best: Option<Id>, pc: BuildPc)
        returns (g': Aux)
    requires Inv(u, s, g) && c in s.calls && s.calls[c] == Build(q, best, pc)
    requires pc.CheckInvalid? || pc.CheckPrevInvalid?
    ensures Inv(u, StepBuild(u, s, c, q, best, pc), g') && Keeps(g, g') && g'.got == g.got && g'.rest == g.rest
  {
    hide Inv, LocalOk, HoldsOk, CallOk;
    var x, rh := pc.cur, pc.readyHeader;
    Look(u, s, g, c, x);
    PublicationHeld(u, s, g, c, q, best, x, pc);
    var bad := if pc.CheckInvalid? then Get(s, x).invalid else Get(s, u.parent(x)).invalid;
    if bad {
      var t' := g.toks(x).(publication := Spent);
      DropHolds(g, c, q, best, x, rh, pc, g.toks(x));
      DropStep(u, s, g, c, q, best, x, rh, AfterInvalid(x, rh, false));
      GotoStep(u, s, g, c, Build(q, best, AfterInvalid(x, rh, false)), x, t');
      g' := Turn(g, x, t');
    } else {
      var pc' := if pc.CheckInvalid? then CheckPrevInvalid(x, rh) else PublishReady(x, rh, true);
      KeepHolds(g, c, q, best, x, rh, pc, pc', g.toks(x));
      KeepStep(u, s, g, c, q, best, x, rh, pc');
      GotoStep(u, s, g, c, Build(q, best, pc'), x, g.toks(x));
      g' := Turn(g, x, g.toks(x));
    }
  }

  lemma QueueRun(u: Headers, s: State, g: Aux, c: CallId, q: seq<Entry>, best: Option<Id>) returns (g': Aux)
    requires Inv(u, s, g) && c in s.calls && s.calls[c] == Build(q, best, NextEntry)
    ensures Inv(u, StepBuild(u, s, c, q, best, NextEntry), g') && Keeps(g, g') && g'.got == g.got && g'.rest == g.rest
  {
    var x := if q == [] then u.genesis else q[0].id;
    Look(u, s, g, c, x);
    if q == [] {
      FinishStep(u, s, g, c, best, x);
      GotoStep(u, s, g, c, Returned(best), x, g.toks(x));
    } else {
      PopHolds(g, c, q, best, g.toks(x));
      PopStep(u, s, g, c, q, best, StartEntry(q[0]));
      GotoStep(u, s, g, c, Build(q[1..], best, StartEntry(q[0])), x, g.toks(x));
    }
    g' := Turn(g, x, g.toks(x));
  }

  lemma PhaseRun(u: Headers, s: State, g: Aux, c: CallId, q: seq<Entry>, best: Option<Id>, pc: BuildPc)
        returns (g': Aux)
    requires Inv(u, s, g) && c in s.calls && s.calls[c] == Build(q, best, pc) && pc.PublishPhases?
    ensures Inv(u, StepBuild(u, s, c, q, best, pc), g') && Keeps(g, g') && g'.got == g.got
    ensures RestMoves(s, g, c, g')
  {
    var x, rh, rd := pc.cur, pc.readyHeader, pc.readyData;
    g' := g.(toks := b => PhasedTokens(g.toks(b), c, b == x, b in g.kids(x), rh, rd),
             rest := d => if d == c then g.kids(x) else g.rest(d));
    PhaseStep(u, s, g, StepBuild(u, s, c, q, best, pc), g', c, x, q, best, rh, rd);
  }

  lemma WalkRun(u: Headers, s: State, g: Aux, c: CallId, q: seq<Entry>, best: Option<Id>, child: Option<Id>, ev: Events)
        returns (g': Aux)
    requires Inv(u, s, g) && c in s.calls && s.calls[c] == Build(q, best, WalkSuccessors(child, ev))
    ensures Inv(u, StepBuild(u, s, c, q, best, WalkSuccessors(child, ev)), g') && Keeps(g, g')
    ensures RestMoves(s, g, c, g')
    ensures forall k, b :: g'.got(b, k) == g.got(b, k) + One(child == Some(b) && Wants(ev, k))
  {
    hide Linked, NodeOk, KidsOk, CoverOk, OfferOk, GotOk;
    assert CallOk(u, s, g, CallOf(s, c), g.rest(c));
    assert child == First(g.rest(c));
    if child.None? {
      g' := g;
    } else {
      var tail := g.rest(c)[1..];
      g' := g.(rest := d => if d == c then tail else g.rest(d), got := GotMore(g, child.value, ev));
    }
    WalkStep(u, s, g, StepBuild(u, s, c, q, best, WalkSuccessors(child, ev)), g', c, q, best, child, ev);
  }

  /** Only a walk hands anything over inside `buildChain`. */
  lemma NoDelivery(s: State, g: Aux, c: CallId, spurious: bool, g': Aux)
    requires c in s.calls && s.calls[c].Build? && !s.calls[c].pc.WalkSuccessors? && g'.got == g.got
    ensures Counts(s, g, Run(c, spurious), g')
  {
  }

  /** The steps of an iteration up to its publication. */
  lemma EntryRun(u: Headers, s: State, g: Aux, c: CallId, q: seq<Entry>, best: Option<Id>, pc: BuildPc)
        returns (g': Aux)
    requires Inv(u, s, g) && c in s.calls && s.calls[c] == Build(q, best, pc)
    requires !pc.PublishReady? && !pc.PublishPhases? && !pc.WalkSuccessors?
    ensures Inv(u, StepBuild(u, s, c, q, best, pc), g') && Keeps(g, g') && g'.got == g.got && g'.rest == g.rest
  {
    match pc {
      case NextEntry => g' := QueueRun(u, s, g, c, q, best);
      case ComputeHeader(x, ev) => g' := HeaderRun(u, s, g, c, q, best, x, ev);
      case MeetData(x, rh, rd) => g' := MeetRun(u, s, g, c, q, best, x, rh, rd);
      case CheckInvalid(_, _) => g' := CheckRun(u, s, g, c, q, best, pc);
      case CheckPrevInvalid(_, _) => g' := CheckRun(u, s, g, c, q, best, pc);
    }
  }

  /** The steps that publish and spread. */
  lemma SpreadRun(u: Headers, s: State, g: Aux, c: CallId, q: seq<Entry>, best: Option<Id>, pc: BuildPc)
        returns (g': Aux)
    requires Inv(u, s, g) && c in s.calls && s.calls[c] == Build(q, best, pc)
    requires pc.PublishReady? || pc.PublishPhases?
    ensures Inv(u, StepBuild(u, s, c, q, best, pc), g') && Keeps(g, g') && g'.got == g.got && RestMoves(s, g, c, g')
  {
    match pc {
      case PublishReady(x, rh, rd) => g' := PublishReadyStep(u, s, g, c, q, best, x, rh, rd);
      case PublishPhases(_, _, _) => g' := PhaseRun(u, s, g, c, q, best, pc);
    }
  }

  lemma BuildRun(u: Headers, s: State, g: Aux, c: CallId, spurious: bool) returns (g': Aux)
    requires Inv(u, s, g) && c in s.calls && s.calls[c].Build?
    ensures Inv(u, StepCall(u, s, c, s.calls[c], spurious), g') && Keeps(g, g') && Counts(s, g, Run(c, spurious), g')
    ensures RestMoves(s, g, c, g')
  {
    var q, best, pc := s.calls[c].queue, s.calls[c].best, s.calls[c].pc;
    if pc.WalkSuccessors? {
      g' := WalkRun(u, s, g, c, q, best, pc.child, pc.events);
    } else if pc.PublishReady? || pc.PublishPhases? {
      g' := SpreadRun(u, s, g, c, q, best, pc);
      NoDelivery(s, g, c, spurious, g');
    } else {
      g' := EntryRun(u, s, g, c, q, best, pc);
      NoDelivery(s, g, c, spurious, g');
    }
  }

  lemma CallRun(u: Headers, s: State, g: Aux, c: CallId, spurious: bool) returns (g': Aux)
    requires Inv(u, s, g) && c in s.calls
    ensures Inv(u, StepCall(u, s, c, s.calls[c], spurious), g') && Keeps(g, g') && Counts(s, g, Run(c, spurious), g')
    ensures RestMoves(s, g, c, g')
  {
    var call := s.calls[c];
    if call.Build? {
      g' := BuildRun(u, s, g, c, spurious);
    } else if call.SuccessorLoad? || call.SuccessorCas? {
      g' := SuccessorStep(u, s, g, c, spurious);
    } else if call.HeaderElect? || call.DataElect? {
      g' := ElectStep(u, s, g, c, spurious);
    } else if call.Returned? {
      g' := g;
    } else {
      g' := WriteStep(u, s, g, c, spurious);
    }
  }

  /** A new call: the block it offers is remembered with the first call that offered it. */
  lemma OfferRun(u: Headers, s: State, g: Aux, c: CallId, x: Id, call: Call) returns (g': Aux)
    requires Inv(u, s, g) && c !in s.calls
    requires call == DataElect(x) || (call.HeaderElect? && call.x == x)
    ensures Inv(u, Goto(s, c, call), g') && g'.got == g.got && g'.rest == g.rest
    ensures forall b :: g'.headerBy(b).Some? <==> g.headerBy(b).Some? || b == x
    ensures forall b :: g'.dataBy(b).Some? <==> g.dataBy(b).Some? || (b == x && call.DataElect?)
  {
    hide InvTokens, InvNodes, InvLists, InvCalls, InvCover, InvOffer, InvGot;
    var s' := Goto(s, c, call);
    g' := g.(headerBy := b => if b == x && g.headerBy(x).None? then Some(c) else g.headerBy(b),
             dataBy := b => if b == x && call.DataElect? && g.dataBy(x).None? then Some(c) else g.dataBy(b));
    OfferTokens(u, s, g, s', g', c, call);
    OfferLists(u, s, g, s', g');
    OfferCalls(u, s, g, s', g', c, x, call);
  }

  lemma OfferCalls(u: Headers, s: State, g: Aux, s': State, g': Aux, c: CallId, x: Id, call: Call)
    requires InvCalls(u, s, g) && InvOffer(u, s, g) && c !in s.calls && s' == Goto(s, c, call)
    requires call == DataElect(x) || (call.HeaderElect? && call.x == x)
    requires g' == g.(headerBy := g'.headerBy, dataBy := g'.dataBy) && g'.headerBy(x).Some?
        && (call.DataElect? ==> g'.dataBy(x).Some?)
    requires forall b ::
        (g.headerBy(b).Some? ==> g'.headerBy(b) == g.headerBy(b)) && (g.dataBy(b).Some? ==> g'.dataBy(b) == g.dataBy(b))
    requires forall b :: (g.headerBy(b).None? && g'.headerBy(b).Some? ==> g'.headerBy(b) == Some(c) && b == x)
    requires forall b ::
        (g.dataBy(b).None? && g'.dataBy(b).Some? ==> g'.dataBy(b) == Some(c) && b == x && call.DataElect?)
    ensures InvCalls(u, s', g') && InvOffer(u, s', g')
  {
    forall d ensures CallOk(u, s', g', CallOf(s', d), g'.rest(d)) { assert CallOk(u, s, g, CallOf(s, d), g.rest(d)); }
    forall b ensures OfferOk(u, s', g', b) { assert OfferOk(u, s, g, b); }
  }

  lemma OfferTokens(u: Headers, s: State, g: Aux, s': State, g': Aux, c: CallId, call: Call)
    requires InvTokens(s, g) && InvNodes(u, s, g) && InvCover(u, s, g) && InvGot(u, s, g)
    requires c !in s.calls && s' == Goto(s, c, call) && (call.HeaderElect? || call.DataElect?)
    requires g' == g.(headerBy := g'.headerBy, dataBy := g'.dataBy)
    ensures InvTokens(s', g') && InvNodes(u, s', g') && InvCover(u, s', g') && InvGot(u, s', g')
  {
    forall d, k, b ensures Linked(s', g', d, k, b) { assert Linked(s, g, d, k, b); }
    forall b ensures NodeOk(u, s', g', b) { assert NodeOk(u, s, g, b); }
    forall b ensures CoverOk(u, s', g', b) { assert CoverOk(u, s, g, b); }
    forall k, b ensures GotOk(u, s', g', k, b) { assert GotOk(u, s, g, k, b); assert Linked(s, g, c, k, b); }
  }

  lemma OfferLists(u: Headers, s: State, g: Aux, s': State, g': Aux)
    requires InvLists(u, s, g) && s'.nodes == s.nodes && g'.toks == g.toks && g'.kids == g.kids && g'.rest == g.rest
    ensures InvLists(u, s', g')
  {
    forall d ensures ListOk(u, s, g, g'.rest(d)) { assert ListOk(u, s, g, g.rest(d)); }
    assert forall b :: Inserted(u, g', b) <==> Inserted(u, g, b);
    ListsFrame(u, s, g, s', g');
  }

  lemma InvalidateRun(u: Headers, s: State, g: Aux, x: Id) returns (g': Aux)
    requires Inv(u, s, g)
    ensures Inv(u, Apply(u, s, Invalidate(x)), g') && g' == g
  {
    var s' := Apply(u, s, Invalidate(x));
    g' := g;
    InvalidTokens(u, s, g, s', g', x);
    InvalidLists(u, s, g, s', g', x);
    InvalidCalls(u, s, g, s', g', x);
  }

  lemma InvalidTokens(u: Headers, s: State, g: Aux, s': State, g': Aux, x: Id)
    requires InvTokens(s, g) && InvNodes(u, s, g) && InvGot(u, s, g)
    requires s' == Apply(u, s, Invalidate(x)) && g' == g
    ensures InvTokens(s', g') && InvNodes(u, s', g') && InvGot(u, s', g')
  {
    forall d, k, b ensures Linked(s', g', d, k, b) { assert Linked(s, g, d, k, b); }
    forall b ensures NodeOk(u, s', g', b) { assert NodeOk(u, s, g, b); }
    forall k, b ensures GotOk(u, s', g', k, b) { assert GotOk(u, s, g, k, b); }
  }

  lemma InvalidCalls(u: Headers, s: State, g: Aux, s': State, g': Aux, x: Id)
    requires InvCalls(u, s, g) && InvCover(u, s, g) && InvOffer(u, s, g)
    requires s' == Apply(u, s, Invalidate(x)) && g' == g
    ensures InvCalls(u, s', g') && InvCover(u, s', g') && InvOffer(u, s', g')
  {
    forall d ensures CallOk(u, s', g', CallOf(s', d), g'.rest(d)) { assert CallOk(u, s, g, CallOf(s, d), g.rest(d)); }
    forall b ensures CoverOk(u, s', g', b) { assert CoverOk(u, s, g, b); }
    forall b ensures OfferOk(u, s', g', b) { assert OfferOk(u, s, g, b); }
  }

  lemma InvalidLists(u: Headers, s: State, g: Aux, s': State, g': Aux, x: Id)
    requires InvLists(u, s, g) && s' == Apply(u, s, Invalidate(x)) && g' == g
    ensures InvLists(u, s', g')
  {
    forall d ensures ListOk(u, s, g, g'.rest(d)) { assert ListOk(u, s, g, g.rest(d)); }
    assert forall b :: Inserted(u, g', b) <==> Inserted(u, g, b);
    ListsFrame(u, s, g, s', g');
  }

  lemma InitialInv(u: Headers) returns (g: Aux)
    ensures Inv(u, Initial(u), g)
    ensures forall b :: g.headerBy(b).None? && g.dataBy(b).None?
    ensures forall b, k :: g.got(b, k) == 0
  {
    var s := Initial(u);
    var root := Tokens(Spent, Spent, Spent, Spent, Spent, Spent, Spent);
    var none := Tokens(Idle, Idle, Idle, Idle, Idle, Idle, Idle);
    g := Aux(b => if b == u.genesis then root else none, b => [], c => [], b => None, (b, k) => 0,
             b => None, b => None);
    forall c, k, b ensures Linked(s, g, c, k, b) { }
    forall b ensures NodeOk(u, s, g, b) { }
  }
}
