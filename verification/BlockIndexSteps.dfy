/** Every step of a call keeps the invariant. */
module BlockIndexSteps {
  import opened Wrappers
  import opened BlockIndexMachine
  import opened BlockIndexInvariant
  import opened BlockIndexFrames

  /** The invariant reads records through `Get` only. */
  lemma SameState(u: Headers, s: State, s': State, g: Aux)
    requires Inv(u, s, g)
    requires s'.calls == s.calls && forall b :: Get(s', b) == Get(s, b)
    ensures Inv(u, s', g)
  {
    forall c, k, b ensures Linked(s', g, c, k, b) { assert Linked(s, g, c, k, b); }
    forall b ensures NodeOk(u, s', g, b) { assert NodeOk(u, s, g, b); }
    forall p ensures KidsOk(u, s', g, p) { assert KidsOk(u, s, g, p); assert ListOk(u, s', g, g.kids(p)); }
    forall c ensures ListOk(u, s', g, g.rest(c)) { assert ListOk(u, s, g, g.rest(c)); }
    forall c ensures CallOk(u, s', g, CallOf(s', c), g.rest(c)) { assert CallOk(u, s, g, CallOf(s, c), g.rest(c)); }
    forall b ensures CoverOk(u, s', g, b) { assert CoverOk(u, s, g, b); }
    forall b ensures OfferOk(u, s', g, b) { assert OfferOk(u, s, g, b); }
    forall k, b ensures GotOk(u, s', g, k, b) { assert GotOk(u, s, g, k, b); }
  }

  /** A step that only moves the call, and perhaps uses up a token of `x`. */
  lemma GotoStep(u: Headers, s: State, g: Aux, c: CallId, call': Call, x: Id, t': Tokens)
    requires Inv(u, s, g)
    requires LocalOk(u, s, g, c, call', x, Get(s, x), t')
    ensures Inv(u, Goto(s, c, call'), Turn(g, x, t'))
  {
    LocalStep(u, s, g, c, call', x, Get(s, x), t');
    SameState(u, Put(s, x, Get(s, x), c, call'), Goto(s, c, call'), Turn(g, x, t'));
  }

  /** What the invariant says about record `x` and call `c`. */
  ghost predicate At(u: Headers, s: State, g: Aux, c: CallId, x: Id) {
    && c in s.calls
    && NodeOk(u, s, g, x) && NodeOk(u, s, g, u.parent(x))
    && CallOk(u, s, g, s.calls[c], g.rest(c))
    && HoldsHere(s.calls[c], g.rest(c), x, g.toks(x), c)
  }

  lemma Look(u: Headers, s: State, g: Aux, c: CallId, x: Id)
    requires Inv(u, s, g) && c in s.calls
    ensures At(u, s, g, c, x)
  {
    assert CallOk(u, s, g, CallOf(s, c), g.rest(c));
    assert Linked(s, g, c, HeaderWriter, x) && Linked(s, g, c, DataWriter, x);
    assert Linked(s, g, c, HeaderEvent, x) && Linked(s, g, c, DataEvent, x) && Linked(s, g, c, Publication, x);
    assert Linked(s, g, c, HeaderSpread, x) && Linked(s, g, c, DataSpread, x);
  }

  /** Losing the election for a header: at most the work check is recorded. */
  lemma HeaderDuplicateStep(u: Headers, s: State, g: Aux, c: CallId, x: Id, w: bool)
    requires At(u, s, g, c, x)
    requires s.calls[c].HeaderElect? && s.calls[c].x == x && Get(s, x).headerWriteStarted
    ensures LocalOk(u, s, g, c, Returned(None), x, Get(s, x).(headerWriteStarted := true, workChecked := w), g.toks(x))
  {
    assert HoldsOk(g, c, s.calls[c], Returned(None), x, g.toks(x));
  }

  /** Losing the election for the data: nothing changes. */
  lemma DataDuplicateStep(u: Headers, s: State, g: Aux, c: CallId, x: Id)
    requires At(u, s, g, c, x)
    requires s.calls[c] == DataElect(x) && Get(s, x).dataWriteStarted
    ensures LocalOk(u, s, g, c, Returned(None), x, Get(s, x).(dataWriteStarted := true), g.toks(x))
  {
    assert HoldsOk(g, c, s.calls[c], Returned(None), x, g.toks(x));
  }

  lemma HeaderElectStep(u: Headers, s: State, g: Aux, c: CallId, x: Id, w: bool)
    requires At(u, s, g, c, x)
    requires s.calls[c].HeaderElect? && s.calls[c].x == x && !Get(s, x).headerWriteStarted
    ensures LocalOk(u, s, g, c, HeaderWrite(x, false), x, Get(s, x).(headerWriteStarted := true, workChecked := w),
                    g.toks(x).(headerWriter := Held(c)))
  {
    assert HoldsOk(g, c, s.calls[c], HeaderWrite(x, false), x, g.toks(x).(headerWriter := Held(c)));
  }

  lemma HeaderWriteStep(u: Headers, s: State, g: Aux, c: CallId, x: Id, withData: bool)
    requires At(u, s, g, c, x) && s.calls[c] == HeaderWrite(x, withData)
    ensures LocalOk(u, s, g, c, HeaderPublish(x, withData), x, Get(s, x).(prev := Some(u.parent(x))), g.toks(x))
  {
  }

  lemma HeaderPublishStep(u: Headers, s: State, g: Aux, c: CallId, x: Id, withData: bool) returns (t': Tokens)
    requires At(u, s, g, c, x) && s.calls[c] == HeaderPublish(x, withData)
    ensures LocalOk(u, s, g, c, SuccessorLoad(x), x,
        Get(s, x).(headerDone := true, dataDone := Get(s, x).dataDone || withData), t')
  {
    t' := if withData then g.toks(x).(dataWriter := Spent) else g.toks(x);
  }

  /** `addSuccessor` looks at the parent's list, for the first time or after a failed exchange. */
  lemma SuccessorReadStep(u: Headers, s: State, g: Aux, c: CallId, x: Id)
    requires At(u, s, g, c, x)
    requires (s.calls[c].SuccessorLoad? || s.calls[c].SuccessorCas?) && s.calls[c].x == x
    ensures var p := Get(s, u.parent(x));
            LocalOk(u, s, g, c, SuccessorCas(x, p.head, p.spHeader, p.spData), x, Get(s, x).(next := p.head), g.toks(x))
  {
    var p := Get(s, u.parent(x));
    assert HoldsOk(g, c, s.calls[c], SuccessorCas(x, p.head, p.spHeader, p.spData), x, g.toks(x));
  }

  lemma DataElectStep(u: Headers, s: State, g: Aux, c: CallId, x: Id)
    requires At(u, s, g, c, x)
    requires s.calls[c] == DataElect(x) && !Get(s, x).dataWriteStarted
    ensures LocalOk(u, s, g, c, DataWrite(x), x, Get(s, x).(dataWriteStarted := true),
        g.toks(x).(dataWriter := Held(c)))
  {
    assert HoldsOk(g, c, s.calls[c], DataWrite(x), x, g.toks(x).(dataWriter := Held(c)));
  }

  lemma DataWriteStep(u: Headers, s: State, g: Aux, c: CallId, x: Id)
    requires At(u, s, g, c, x) && s.calls[c] == DataWrite(x)
    ensures LocalOk(u, s, g, c, DataHeaderElect(x), x, Get(s, x).(serialized := true), g.toks(x))
  {
    assert HoldsOk(g, c, s.calls[c], DataHeaderElect(x), x, g.toks(x));
  }

  /** The header was taken by another call: the data is published on its own. */
  lemma DataHeaderLostStep(u: Headers, s: State, g: Aux, c: CallId, x: Id)
    requires At(u, s, g, c, x) && s.calls[c] == DataHeaderElect(x) && Get(s, x).headerWriteStarted
    ensures LocalOk(u, s, g, c, DataPublish(x), x, Get(s, x).(headerWriteStarted := true), g.toks(x))
  {
    assert HoldsOk(g, c, s.calls[c], DataPublish(x), x, g.toks(x));
  }

  /** The data brings its header with it. */
  lemma DataHeaderWonStep(u: Headers, s: State, g: Aux, c: CallId, x: Id)
    requires At(u, s, g, c, x) && s.calls[c] == DataHeaderElect(x) && !Get(s, x).headerWriteStarted
    ensures LocalOk(u, s, g, c, HeaderWrite(x, true), x, Get(s, x).(headerWriteStarted := true),
        g.toks(x).(headerWriter := Held(c)))
  {
    assert HoldsOk(g, c, s.calls[c], HeaderWrite(x, true), x, g.toks(x).(headerWriter := Held(c)));
  }

  lemma DataPublishStep(u: Headers, s: State, g: Aux, c: CallId, x: Id) returns (t': Tokens)
    requires At(u, s, g, c, x) && s.calls[c] == DataPublish(x)
    ensures LocalOk(u, s, g, c, StartBuild(x, Events(false, false, Get(s, x).parentDataReady)), x,
        Get(s, x).(dataDone := true), t')
  {
    var m := Get(s, x).parentDataReady;
    t' := g.toks(x).(dataWriter := Spent, publication := if m then Held(c) else g.toks(x).publication);
    DataPublishHolds(g, c, x, m, g.toks(x));
    DataPublished(u, x, Get(s, x), g.toks(x), c);
  }

  lemma DataPublishHolds(g: Aux, c: CallId, x: Id, m: bool, t: Tokens)
    requires HoldsHere(DataPublish(x), g.rest(c), x, t, c)
    ensures HoldsOk(g, c, DataPublish(x), StartBuild(x, Events(false, false, m)), x,
        t.(dataWriter := Spent, publication := if m then Held(c) else t.publication))
  {
    StartHolds(x, Events(false, false, m), g.rest(c));
  }

  lemma DataPublished(u: Headers, x: Id, n: Node, t: Tokens, c: CallId)
    requires FlagsOk(u, x, n, t) && t.dataWriter == Held(c) && n.serialized && n.headerWriteStarted
    ensures FlagsOk(u, x, n.(dataDone := true),
        t.(dataWriter := Spent, publication := if n.parentDataReady then Held(c) else t.publication))
  {
  }

  /** A traversal starts out with the events of its one entry. */
  lemma StartHolds(x: Id, ev: Events, rest: seq<Id>)
    ensures forall k, b :: Holds(StartBuild(x, ev), rest, k, b) == One(x == b && Wants(ev, k))
  {
    forall k, b ensures Holds(StartBuild(x, ev), rest, k, b) == One(x == b && Wants(ev, k)) {
      assert Count([Entry(x, ev)][1..], k, b) == 0;
    }
  }

  /** Taking an entry off the queue keeps what the call stands for. */
  lemma PopHolds(g: Aux, c: CallId, q: seq<Entry>, best: Option<Id>, t: Tokens)
    requires q != [] && HoldsHere(Build(q, best, NextEntry), g.rest(c), q[0].id, t, c)
    ensures HoldsOk(g, c, Build(q, best, NextEntry), Build(q[1..], best, StartEntry(q[0])), q[0].id, t)
  {
    forall k, b ensures Holds(Build(q[1..], best, StartEntry(q[0])), g.rest(c), k, b)
        == Holds(Build(q, best, NextEntry), g.rest(c), k, b) {
    }
  }

  /** A step that changes no record and no token. */
  lemma MoveStep(u: Headers, s: State, g: Aux, c: CallId, call': Call, x: Id)
    requires At(u, s, g, c, x)
    requires s.calls[c].Build? && NotWalking(s.calls[c]) && NotWalking(call') && BestOf(call') == BestOf(s.calls[c])
    requires HoldsOk(g, c, s.calls[c], call', x, g.toks(x))
    requires CallOk(u, Put(s, x, Get(s, x), c, call'), Turn(g, x, g.toks(x)), call', g.rest(c))
    ensures LocalOk(u, s, g, c, call', x, Get(s, x), g.toks(x))
  {
  }

  lemma PopStep(u: Headers, s: State, g: Aux, c: CallId, q: seq<Entry>, best: Option<Id>, pc: BuildPc)
    requires q != [] && At(u, s, g, c, q[0].id)
    requires s.calls[c] == Build(q, best, NextEntry) && Waiting(pc).None? && !pc.WalkSuccessors?
        && (pc.ComputeHeader? ==> pc.events.buildHeader)
    requires HoldsOk(g, c, s.calls[c], Build(q[1..], best, pc), q[0].id, g.toks(q[0].id))
    ensures LocalOk(u, s, g, c, Build(q[1..], best, pc), q[0].id, Get(s, q[0].id), g.toks(q[0].id))
  {
    MoveStep(u, s, g, c, Build(q[1..], best, pc), q[0].id);
  }

  lemma FinishStep(u: Headers, s: State, g: Aux, c: CallId, best: Option<Id>, x: Id)
    requires At(u, s, g, c, x)
    requires s.calls[c] == Build([], best, NextEntry)
    ensures LocalOk(u, s, g, c, Returned(best), x, Get(s, x), g.toks(x))
  {
    MoveStep(u, s, g, c, Returned(best), x);
  }

  /** The next place in the loop body: a header that was computed waits, nothing is walked. */
  ghost predicate Onward(pc: BuildPc, x: Id, rh: bool) {
    && Waiting(pc) == (if rh then Some(x) else None)
    && !pc.ComputeHeader? && !pc.WalkSuccessors?
  }

  lemma OnwardCall(u: Headers, s: State, g: Aux, q: seq<Entry>, best: Option<Id>, pc: BuildPc, rest: seq<Id>, x: Id,
        rh: bool)
    requires best.Some? ==> Ready(s, best.value)
    requires Onward(pc, x, rh) && (rh ==> Computed(u, s, x))
    ensures CallOk(u, s, g, Build(q, best, pc), rest)
  {
  }

  lemma HeaderHolds(g: Aux, c: CallId, q: seq<Entry>, best: Option<Id>, x: Id, ev: Events, t: Tokens)
    requires ev.buildHeader && HoldsHere(Build(q, best, ComputeHeader(x, ev)), g.rest(c), x, t, c)
    ensures HoldsOk(g, c, Build(q, best, ComputeHeader(x, ev)), Build(q, best, AfterHeader(x, ev)), x, t)
    ensures t.headerEvent == Held(c) && Onward(AfterHeader(x, ev), x, true)
  {
    forall k, b ensures Holds(Build(q, best, AfterHeader(x, ev)), g.rest(c), k, b)
        == Holds(Build(q, best, ComputeHeader(x, ev)), g.rest(c), k, b) {
    }
    assert Holds(Build(q, best, ComputeHeader(x, ev)), g.rest(c), HeaderEvent, x) >= 1;
  }

  /** A block holding the header event stands under a ready parent and is not ready itself. */
  lemma HeaderEventHeld(u: Headers, s: State, g: Aux, x: Id)
    requires NodeOk(u, s, g, x) && NodeOk(u, s, g, u.parent(x)) && g.toks(x).headerEvent.Held?
    ensures x != u.genesis && u.parent(x) != x && Get(s, x).prev == Some(u.parent(x))
    ensures !Get(s, x).headerReady && Get(s, u.parent(x)).headerReady
  {
  }

  /** A step of the loop body that stays at record `x`, all that concerns the record being settled. */
  lemma BodyStep(u: Headers, s: State, g: Aux, c: CallId, call: Call, q: seq<Entry>, best: Option<Id>, pc: BuildPc,
        x: Id, rh: bool, n': Node, t': Tokens)
    requires c in s.calls && s.calls[c] == call && call.Build? && !call.pc.WalkSuccessors? && call.best == best
    requires best.Some? ==> Ready(s, best.value)
    requires var n := Get(s, x);
             n' == n.(height := n'.height, chainWork := n'.chainWork, parentDataReady := n'.parentDataReady)
             && ((n'.height == n.height && n'.chainWork == n.chainWork)
                  || (!n.headerReady && g.toks(x).headerEvent == Held(c)))
    requires FlagsOk(u, x, n', t')
        && PathOk(u, x, n', t', Get(Put(s, x, n', c, Build(q, best, pc)), u.parent(x)))
    requires t' == g.toks(x).(dataEvent := t'.dataEvent, publication := t'.publication)
    requires Moves(g.toks(x).dataEvent, t'.dataEvent, c) && Moves(g.toks(x).publication, t'.publication, c)
    requires t'.dataEvent == Idle <==> g.toks(x).dataEvent == Idle
    requires Onward(pc, x, rh) && (rh ==> Computed(u, Put(s, x, n', c, Build(q, best, pc)), x))
    requires HoldsOk(g, c, call, Build(q, best, pc), x, t')
    ensures LocalOk(u, s, g, c, Build(q, best, pc), x, n', t')
  {
    BodyNode(Get(s, x), n', g.toks(x), t', c);
    OnwardCall(u, Put(s, x, n', c, Build(q, best, pc)), Turn(g, x, t'), q, best, pc, g.rest(c), x, rh);
  }

  /** What a step inside `buildChain` leaves of a node and its tokens. */
  lemma BodyNode(n: Node, n': Node, t: Tokens, t': Tokens, c: CallId)
    requires n' == n.(height := n'.height, chainWork := n'.chainWork, parentDataReady := n'.parentDataReady)
    requires (n'.height == n.height && n'.chainWork == n.chainWork) || (!n.headerReady && t.headerEvent == Held(c))
    requires t' == t.(dataEvent := t'.dataEvent, publication := t'.publication)
    requires Moves(t.dataEvent, t'.dataEvent, c) && Moves(t.publication, t'.publication, c)
    ensures TokensMove(t, t', c) && SamePhases(n, n') && SameReady(n, n') && Grows(n, n') && OwnedOnly(n, n', t, c)
    ensures n'.head == n.head && n'.next == n.next && t'.headerWriter == t.headerWriter
        && t'.headerEvent == t.headerEvent
    ensures n'.headerWriteStarted == n.headerWriteStarted && n'.dataWriteStarted == n.dataWriteStarted
  {
  }

  lemma ComputedNode(u: Headers, s: State, g: Aux, c: CallId, call': Call, x: Id, n': Node)
    requires NodeOk(u, s, g, x) && !Get(s, x).headerReady && x != u.genesis && u.parent(x) != x
    requires var p := Get(s, u.parent(x));
        n' == Get(s, x).(height := p.height + 1, chainWork := p.chainWork + u.proof(x))
    ensures FlagsOk(u, x, n', g.toks(x))
        && PathOk(u, x, n', g.toks(x), Get(Put(s, x, n', c, call'), u.parent(x)))
    ensures Computed(u, Put(s, x, n', c, call'), x)
  {
  }

  lemma ComputeHeaderStep(u: Headers, s: State, g: Aux, c: CallId, q: seq<Entry>, best: Option<Id>, x: Id, ev: Events,
        pc: BuildPc)
    requires At(u, s, g, c, x) && g.toks(x).headerEvent == Held(c)
    requires s.calls[c] == Build(q, best, ComputeHeader(x, ev))
    requires Onward(pc, x, true) && HoldsOk(g, c, s.calls[c], Build(q, best, pc), x, g.toks(x))
    ensures var p := Get(s, u.parent(x));
            LocalOk(u, s, g, c, Build(q, best, pc), x,
                    Get(s, x).(height := p.height + 1, chainWork := p.chainWork + u.proof(x)), g.toks(x))
  {
    HeaderEventHeld(u, s, g, x);
    var p := Get(s, u.parent(x));
    var n' := Get(s, x).(height := p.height + 1, chainWork := p.chainWork + u.proof(x));
    ComputedNode(u, s, g, c, Build(q, best, pc), x, n');
    BodyStep(u, s, g, c, s.calls[c], q, best, pc, x, true, n', g.toks(x));
  }

  lemma MeetHolds(g: Aux, c: CallId, q: seq<Entry>, best: Option<Id>, x: Id, rh: bool, m: bool, t: Tokens, t': Tokens)
    requires HoldsHere(Build(q, best, MeetData(x, rh, false)), g.rest(c), x, t, c)
    requires t' == t.(dataEvent := Spent, publication := if m then Held(c) else t.publication)
    requires t.publication == Idle
    ensures HoldsOk(g, c, Build(q, best, MeetData(x, rh, false)), Build(q, best, AfterMeet(x, rh, m)), x, t')
    ensures Onward(AfterMeet(x, rh, m), x, rh)
  {
    forall k, b | b != x || (k != DataEvent && k != Publication)
      ensures Holds(Build(q, best, AfterMeet(x, rh, m)), g.rest(c), k, b)
          == Holds(Build(q, best, MeetData(x, rh, false)), g.rest(c), k, b) {
    }
  }

  /** The data phase of the parent arrives for the first time, so nobody has published the data yet. */
  lemma DataEventHeld(u: Headers, s: State, g: Aux, c: CallId, q: seq<Entry>, best: Option<Id>, x: Id, rh: bool,
        rd: bool)
    requires At(u, s, g, c, x)
    requires s.calls[c] == Build(q, best, MeetData(x, rh, rd))
    ensures g.toks(x).dataEvent == Held(c) && g.toks(x).publication == Idle && !rd
  {
    var call := Build(q, best, MeetData(x, rh, rd));
    assert Holds(call, g.rest(c), DataEvent, x) >= 1;
    assert Holds(call, g.rest(c), Publication, x) >= One(rd);
  }

  lemma MeetDataStep(u: Headers, s: State, g: Aux, c: CallId, q: seq<Entry>, best: Option<Id>, x: Id, rh: bool,
        pc: BuildPc, t': Tokens)
    requires At(u, s, g, c, x) && g.toks(x).dataEvent == Held(c) && g.toks(x).publication == Idle
    requires s.calls[c] == Build(q, best, MeetData(x, rh, false))
    requires t' == g.toks(x).(dataEvent := Spent, publication := if Get(s, x).dataDone then Held(c) else Idle)
    requires Onward(pc, x, rh) && HoldsOk(g, c, s.calls[c], Build(q, best, pc), x, t')
    ensures LocalOk(u, s, g, c, Build(q, best, pc), x, Get(s, x).(parentDataReady := true), t')
  {
    BodyStep(u, s, g, c, s.calls[c], q, best, pc, x, rh, Get(s, x).(parentDataReady := true), t');
  }

  /** A call about to check for invalidity has won the data of `x`, which stands in its parent's list. */
  lemma PublicationHeld(u: Headers, s: State, g: Aux, c: CallId, q: seq<Entry>, best: Option<Id>, x: Id, pc: BuildPc)
    requires At(u, s, g, c, x)
    requires s.calls[c] == Build(q, best, pc) && PcHolds(pc, g.rest(c), Publication, x) == 1
    ensures g.toks(x).publication == Held(c) && Get(s, x).prev == Some(u.parent(x))
  {
    assert Holds(s.calls[c], g.rest(c), Publication, x) >= 1;
  }

  /** Giving up the data of an invalid block uses up its publication. */
  lemma DropHolds(g: Aux, c: CallId, q: seq<Entry>, best: Option<Id>, x: Id, rh: bool, pc: BuildPc, t: Tokens)
    requires pc == CheckInvalid(x, rh) || pc == CheckPrevInvalid(x, rh)
    requires HoldsHere(Build(q, best, pc), g.rest(c), x, t, c) && t.publication == Held(c)
    ensures HoldsOk(g, c, Build(q, best, pc), Build(q, best, AfterInvalid(x, rh, false)), x, t.(publication := Spent))
    ensures Onward(AfterInvalid(x, rh, false), x, rh)
  {
    forall k, b | b != x || k != Publication
      ensures Holds(Build(q, best, AfterInvalid(x, rh, false)), g.rest(c), k, b)
          == Holds(Build(q, best, pc), g.rest(c), k, b) {
    }
  }

  lemma DropStep(u: Headers, s: State, g: Aux, c: CallId, q: seq<Entry>, best: Option<Id>, x: Id, rh: bool, pc: BuildPc)
    requires At(u, s, g, c, x) && g.toks(x).publication == Held(c)
    requires Get(s, x).invalid || Get(s, u.parent(x)).invalid
    requires s.calls[c] == Build(q, best, CheckInvalid(x, rh)) || s.calls[c] == Build(q, best, CheckPrevInvalid(x, rh))
    requires Onward(pc, x, rh) && HoldsOk(g, c, s.calls[c], Build(q, best, pc), x, g.toks(x).(publication := Spent))
    ensures LocalOk(u, s, g, c, Build(q, best, pc), x, Get(s, x), g.toks(x).(publication := Spent))
  {
    BodyStep(u, s, g, c, s.calls[c], q, best, pc, x, rh, Get(s, x), g.toks(x).(publication := Spent));
  }

  /** Going on with the data of a valid block. */
  lemma KeepHolds(g: Aux, c: CallId, q: seq<Entry>, best: Option<Id>, x: Id, rh: bool, pc: BuildPc, pc': BuildPc,
        t: Tokens)
    requires (pc == CheckInvalid(x, rh) && pc' == CheckPrevInvalid(x, rh))
        || (pc == CheckPrevInvalid(x, rh) && pc' == PublishReady(x, rh, true))
    requires HoldsHere(Build(q, best, pc), g.rest(c), x, t, c)
    ensures HoldsOk(g, c, Build(q, best, pc), Build(q, best, pc'), x, t)
  {
    forall k, b ensures Holds(Build(q, best, pc'), g.rest(c), k, b) == Holds(Build(q, best, pc), g.rest(c), k, b) {
      assert PcHolds(pc', g.rest(c), k, b) == PcHolds(pc, g.rest(c), k, b);
    }
  }

  lemma KeepStep(u: Headers, s: State, g: Aux, c: CallId, q: seq<Entry>, best: Option<Id>, x: Id, rh: bool, pc: BuildPc)
    requires At(u, s, g, c, x)
    requires s.calls[c] == Build(q, best, CheckInvalid(x, rh)) || s.calls[c] == Build(q, best, CheckPrevInvalid(x, rh))
    requires Onward(pc, x, rh) && HoldsOk(g, c, s.calls[c], Build(q, best, pc), x, g.toks(x))
    ensures LocalOk(u, s, g, c, Build(q, best, pc), x, Get(s, x), g.toks(x))
  {
    MoveStep(u, s, g, c, Build(q, best, pc), x);
  }
}
