/**
What the lock-free block index promises, over every run.

The statements mention the machine and the run only; the bookkeeping of the proof stays
inside the lemma bodies.
 */
module BlockIndexTheorems {
  import opened Wrappers
  import opened BlockIndexMachine
  import opened BlockIndexInvariant
  import opened BlockIndexSteps
  import opened BlockIndexSpread
  import opened BlockIndexRuns

  /** How often a run handed the parent's phase `k` to block `b`. */
  ghost function Deliveries(u: Headers, run: seq<Action>, k: Kind, b: Id): nat {
    if run == [] then 0
    else
      var init := run[..|run| - 1];
      Deliveries(u, init, k, b) + One(Delivers(Exec(u, init), run[|run| - 1], k, b))
  }

  /** Blocks whose header some call brought, alone or with the data. */
  ghost function HeaderCalls(u: Headers, run: seq<Action>): set<Id> {
    if run == [] then {}
    else
      var init, a := run[..|run| - 1], run[|run| - 1];
      HeaderCalls(u, init) +
      (if (a.AddHeader? || a.AddBlock?) && a.c !in Exec(u, init).calls then {a.x} else {})
  }

  /** Blocks whose data some call brought. */
  ghost function BlockCalls(u: Headers, run: seq<Action>): set<Id> {
    if run == [] then {}
    else
      var init, a := run[..|run| - 1], run[|run| - 1];
      BlockCalls(u, init) + (if a.AddBlock? && a.c !in Exec(u, init).calls then {a.x} else {})
  }

  /** Blocks whose data some call brought and that nobody has found invalid. */
  ghost function ValidCalls(u: Headers, run: seq<Action>): set<Id> {
    set b | b in BlockCalls(u, run) && !Get(Exec(u, run), b).invalid
  }

  ghost predicate AllReturned(s: State) {
    forall c :: c in s.calls ==> s.calls[c].Returned?
  }

  /** `b` lies `d` blocks above genesis and all of those blocks are in `ok`. */
  ghost predicate Path(u: Headers, b: Id, d: nat, ok: set<Id>)
    decreases d
  {
    if d == 0 then b == u.genesis
    else b != u.genesis && b in ok && Path(u, u.parent(b), d - 1, ok)
  }

  /** The sum of the proofs of `b` and of `d` blocks below it. */
  ghost function WorkOf(u: Headers, b: Id, d: nat): nat
    decreases d
  {
    u.proof(b) + if d == 0 then 0 else WorkOf(u, u.parent(b), d - 1)
  }

  /** The bookkeeping agrees with what the run did. */
  ghost predicate Tracks(u: Headers, run: seq<Action>, g: Aux) {
    && (forall k: Kind, b: Id :: k.HeaderEvent? || k.DataEvent? ==> g.got(b, k) == Deliveries(u, run, k, b))
    && (forall b: Id :: g.headerBy(b).Some? <==> b in HeaderCalls(u, run))
    && (forall b: Id :: g.dataBy(b).Some? <==> b in BlockCalls(u, run))
  }

  ghost predicate OffersHeader(s: State, a: Action, b: Id) {
    (a.AddHeader? || a.AddBlock?) && a.c !in s.calls && a.x == b
  }

  ghost predicate OffersData(s: State, a: Action, b: Id) {
    a.AddBlock? && a.c !in s.calls && a.x == b
  }

  /** One action, and what it adds to the history. */
  lemma ActionRun(u: Headers, s: State, g: Aux, a: Action) returns (g': Aux)
    requires Inv(u, s, g)
    ensures Inv(u, Apply(u, s, a), g') && Counts(s, g, a, g')
    ensures forall b :: g'.headerBy(b).Some? <==> g.headerBy(b).Some? || OffersHeader(s, a, b)
    ensures forall b :: g'.dataBy(b).Some? <==> g.dataBy(b).Some? || OffersData(s, a, b)
    ensures if a.Run? && a.c in s.calls then RestMoves(s, g, a.c, g') else g'.rest == g.rest
  {
    match a {
      case AddHeader(c, x, workOk) =>
        if c in s.calls { g' := g; } else { g' := OfferRun(u, s, g, c, x, HeaderElect(x, workOk)); }
      case AddBlock(c, x) => if c in s.calls { g' := g; } else { g' := OfferRun(u, s, g, c, x, DataElect(x)); }
      case Run(c, spurious) => if c in s.calls { g' := CallRun(u, s, g, c, spurious); } else { g' := g; }
      case Invalidate(x) => g' := InvalidateRun(u, s, g, x);
    }
  }

  lemma RunInv(u: Headers, run: seq<Action>) returns (g: Aux)
    ensures Inv(u, Exec(u, run), g) && Tracks(u, run, g)
  {
    if run == [] {
      g := InitialInv(u);
    } else {
      var init, a := run[..|run| - 1], run[|run| - 1];
      var g0 := RunInv(u, init);
      g := ActionRun(u, Exec(u, init), g0, a);
      TracksMore(u, run, g0, g);
    }
  }

  lemma TracksMore(u: Headers, run: seq<Action>, g: Aux, g': Aux)
    requires run != [] && Tracks(u, run[..|run| - 1], g)
    requires var s, a := Exec(u, run[..|run| - 1]), run[|run| - 1];
             && Counts(s, g, a, g')
             && (forall b :: g'.headerBy(b).Some? <==> g.headerBy(b).Some? || OffersHeader(s, a, b))
             && (forall b :: g'.dataBy(b).Some? <==> g.dataBy(b).Some? || OffersData(s, a, b))
    ensures Tracks(u, run, g')
  {
  }

  /** A ready header has every header below it, its depth as height and the sum of proofs as work. */
  lemma HeaderReadyIsPath(u: Headers, s: State, g: Aux, b: Id, ok: set<Id>)
    requires InvNodes(u, s, g) && Get(s, b).headerReady
    requires forall x :: x != u.genesis && Get(s, x).headerWriteStarted ==> x in ok
    ensures Path(u, b, Get(s, b).height, ok) && Get(s, b).chainWork == WorkOf(u, b, Get(s, b).height)
    decreases Get(s, b).height
  {
    assert NodeOk(u, s, g, b);
    if b != u.genesis {
      assert NodeOk(u, s, g, u.parent(b));
      HeaderReadyIsPath(u, s, g, u.parent(b), ok);
    }
  }

  /** In every state of every run, invalidation included. */
  lemma AlwaysSafe(u: Headers, run: seq<Action>, b: Id)
    ensures Deliveries(u, run, HeaderEvent, b) <= 1 && Deliveries(u, run, DataEvent, b) <= 1
    ensures var s := Exec(u, run);
            && (Get(s, b).headerReady ==>
                  && Path(u, b, Get(s, b).height, HeaderCalls(u, run))
                  && Get(s, b).chainWork == WorkOf(u, b, Get(s, b).height)
                  && (b != u.genesis ==> Get(s, u.parent(b)).headerReady))
            && (Get(s, b).dataReady ==>
                  && Get(s, b).dataDone && Get(s, b).serialized
                  && (b != u.genesis ==> Get(s, b).headerDone && Get(s, u.parent(b)).dataReady))
  {
    var g := RunInv(u, run);
    var s := Exec(u, run);
    assert GotOk(u, s, g, HeaderEvent, b) && GotOk(u, s, g, DataEvent, b);
    assert NodeOk(u, s, g, b) && NodeOk(u, s, g, u.parent(b));
    if Get(s, b).headerReady {
      forall x | x != u.genesis && Get(s, x).headerWriteStarted ensures x in HeaderCalls(u, run) {
        assert OfferOk(u, s, g, x);
      }
      HeaderReadyIsPath(u, s, g, b, HeaderCalls(u, run));
    }
  }

  /** The assertion in `buildChain`: a Ready bit about to be published is not set yet. */
  lemma PublisherIsUnique(u: Headers, run: seq<Action>, c: CallId)
    requires c in Exec(u, run).calls
    ensures var s := Exec(u, run);
            var call := s.calls[c];
            call.Build? && call.pc.PublishReady? ==>
              && (call.pc.readyHeader ==> !Get(s, call.pc.cur).headerReady)
              && (call.pc.readyData ==> !Get(s, call.pc.cur).dataReady)
  {
    var g := RunInv(u, run);
    var s := Exec(u, run);
    var call := s.calls[c];
    if call.Build? && call.pc.PublishReady? {
      Look(u, s, g, c, call.pc.cur);
      ReadyIsFresh(u, s, g, c, call.queue, call.best, call.pc.cur, call.pc.readyHeader, call.pc.readyData);
    }
  }

  /** No step finds a null `Prev`: a call that goes by it can move. */
  lemma NeverStuck(u: Headers, run: seq<Action>, c: CallId, x: Id)
    requires c in Exec(u, run).calls
    requires var call := Exec(u, run).calls[c];
             || ((call.SuccessorLoad? || call.SuccessorCas?) && call.x == x)
             || (call.Build? && (call.pc.ComputeHeader? || call.pc.CheckPrevInvalid?) && call.pc.cur == x)
    ensures Get(Exec(u, run), x).prev == Some(u.parent(x))
  {
    var g := RunInv(u, run);
    var s := Exec(u, run);
    var call := s.calls[c];
    Look(u, s, g, c, x);
    if call.Build? {
      if call.pc.ComputeHeader? {
        HeaderHolds(g, c, call.queue, call.best, x, call.pc.events, g.toks(x));
        HeaderEventHeld(u, s, g, x);
      } else {
        PublicationHeld(u, s, g, c, call.queue, call.best, x, call.pc);
      }
    }
  }

  /** When every call has returned no token is held. */
  lemma NothingHeld(s: State, g: Aux, k: Kind, b: Id)
    requires InvTokens(s, g) && AllReturned(s)
    ensures !Sel(g.toks(b), k).Held?
  {
    var t := Sel(g.toks(b), k);
    var c := if t.Held? then t.c else 0;
    assert Linked(s, g, c, k, b);
  }

  /** The run is over: every call has returned. */
  ghost predicate Rested(u: Headers, run: seq<Action>, s: State, g: Aux) {
    s == Exec(u, run) && AllReturned(s) && Inv(u, s, g) && Tracks(u, run, g)
  }

  ghost predicate Free(t: Tokens) {
    && !t.headerWriter.Held? && !t.dataWriter.Held? && !t.headerEvent.Held? && !t.dataEvent.Held?
    && !t.publication.Held? && !t.headerSpread.Held? && !t.dataSpread.Held?
  }

  lemma NothingHeldAt(s: State, g: Aux, b: Id)
    requires InvTokens(s, g) && AllReturned(s)
    ensures Free(g.toks(b))
  {
    NothingHeld(s, g, HeaderWriter, b); NothingHeld(s, g, DataWriter, b);
    NothingHeld(s, g, HeaderEvent, b); NothingHeld(s, g, DataEvent, b); NothingHeld(s, g, Publication, b);
    NothingHeld(s, g, HeaderSpread, b); NothingHeld(s, g, DataSpread, b);
  }

  /** At rest an offered block has its writers done. */
  lemma OfferedIsDone(u: Headers, s: State, g: Aux, b: Id)
    requires AllReturned(s) && NodeOk(u, s, g, b) && OfferOk(u, s, g, b) && Free(g.toks(b)) && b != u.genesis
    ensures g.headerBy(b).Some? <==> g.toks(b).headerWriter == Spent
    ensures g.dataBy(b).Some? <==> g.toks(b).dataWriter == Spent
  {
    if g.dataBy(b).Some? {
      var c := g.dataBy(b).value;
      assert c in s.calls && s.calls[c].Returned?;
    }
    if g.headerBy(b).Some? {
      var c := g.headerBy(b).value;
      assert c in s.calls && s.calls[c].Returned?;
    }
  }

  /** At rest a phase that is out at the parent has been taken in by the child. */
  lemma PhasesArrived(u: Headers, s: State, g: Aux, b: Id)
    requires NodeOk(u, s, g, b) && NodeOk(u, s, g, u.parent(b)) && Free(g.toks(b)) && Free(g.toks(u.parent(b)))
        && b != u.genesis
    ensures Get(s, b).headerReady <==> g.toks(b).headerWriter == Spent && Get(s, u.parent(b)).headerReady
    ensures !Get(s, b).invalid && !Get(s, u.parent(b)).invalid ==>
        (Get(s, b).dataReady <==> g.toks(b).dataWriter == Spent && Get(s, u.parent(b)).dataReady)
  {
  }

  /** At rest the phases have reached everybody they can. */
  lemma AtRest(u: Headers, run: seq<Action>, s: State, g: Aux, b: Id)
    requires Rested(u, run, s, g) && b != u.genesis
    ensures Get(s, b).headerReady <==> b in HeaderCalls(u, run) && Get(s, u.parent(b)).headerReady
    ensures !Get(s, b).invalid && !Get(s, u.parent(b)).invalid ==>
        (Get(s, b).dataReady <==> b in BlockCalls(u, run) && Get(s, u.parent(b)).dataReady)
  {
    assert NodeOk(u, s, g, b) && NodeOk(u, s, g, u.parent(b)) && OfferOk(u, s, g, b);
    NothingHeldAt(s, g, b);
    NothingHeldAt(s, g, u.parent(b));
    OfferedIsDone(u, s, g, b);
    PhasesArrived(u, s, g, b);
  }

  /** Walking down from a block with a path, at rest, finds it ready. */
  lemma PathIsReady(u: Headers, run: seq<Action>, s: State, g: Aux, b: Id, d: nat)
    requires Rested(u, run, s, g)
    ensures Path(u, b, d, HeaderCalls(u, run)) ==> Get(s, b).headerReady
    ensures !Get(s, u.genesis).invalid && Path(u, b, d, ValidCalls(u, run)) ==> Get(s, b).dataReady
    decreases d
  {
    assert NodeOk(u, s, g, b);
    if d > 0 && b != u.genesis {
      AtRest(u, run, s, g, b);
      PathIsReady(u, run, s, g, u.parent(b), d - 1);
      if Path(u, b, d, ValidCalls(u, run)) {
        assert Path(u, u.parent(b), d - 1, ValidCalls(u, run));
        PathGrows(u, u.parent(b), d - 1, ValidCalls(u, run), BlockCalls(u, run));
      }
    }
  }

  lemma RestIsReady(u: Headers, run: seq<Action>, b: Id, d: nat)
    requires AllReturned(Exec(u, run))
    ensures Path(u, b, d, HeaderCalls(u, run)) ==> Get(Exec(u, run), b).headerReady
    ensures !Get(Exec(u, run), u.genesis).invalid && Path(u, b, d, ValidCalls(u, run)) ==>
        Get(Exec(u, run), b).dataReady
  {
    var g := RunInv(u, run);
    PathIsReady(u, run, Exec(u, run), g, b, d);
  }

  /** Some way down from `b` within `ok` ends at genesis. */
  ghost predicate Reaches(u: Headers, b: Id, ok: set<Id>) {
    exists d: nat :: Path(u, b, d, ok)
  }

  lemma PathGrows(u: Headers, b: Id, d: nat, ok: set<Id>, ok': set<Id>)
    requires ok <= ok' && Path(u, b, d, ok)
    ensures Path(u, b, d, ok')
    decreases d
  {
    if d > 0 {
      PathGrows(u, u.parent(b), d - 1, ok, ok');
    }
  }

  /** Ready bits, height and work of a record stay. */
  ghost predicate Settled(n: Node, n': Node) {
    && n'.headerReady == n.headerReady && n'.dataReady == n.dataReady
    && n'.height == n.height && n'.chainWork == n.chainWork
  }

  /** Outside `buildChain` nothing becomes ready. */
  lemma WritersSettle(u: Headers, s: State, c: CallId, call: Call, spurious: bool, x: Id)
    requires !call.Build?
    ensures Settled(Get(s, x), Get(StepCall(u, s, c, call, spurious), x))
  {
  }

  /** Inside, one place sets the Ready bits and one the height. */
  lemma BuildSettles(u: Headers, s: State, c: CallId, q: seq<Entry>, best: Option<Id>, pc: BuildPc, x: Id)
    ensures var n' := Get(StepBuild(u, s, c, q, best, pc), x);
            || Settled(Get(s, x), n')
            || (pc.ComputeHeader? && pc.cur == x && n'.headerReady == Get(s, x).headerReady
                && n'.dataReady == Get(s, x).dataReady)
            || (pc.PublishReady? && pc.cur == x && n'.height == Get(s, x).height && n'.chainWork == Get(s, x).chainWork
                && n'.headerReady == (Get(s, x).headerReady || pc.readyHeader)
                     && n'.dataReady == (Get(s, x).dataReady || pc.readyData))
  {
  }

  /** DataReady is set in one place. */
  lemma DataReadyOrigin(u: Headers, s: State, a: Action, x: Id)
    requires Get(Apply(u, s, a), x).dataReady && !Get(s, x).dataReady
    ensures a.Run? && a.c in s.calls && s.calls[a.c].Build?
    ensures s.calls[a.c].pc.PublishReady? && s.calls[a.c].pc.cur == x && s.calls[a.c].pc.readyData
  {
    if a.Run? && a.c in s.calls {
      var call := s.calls[a.c];
      if call.Build? {
        BuildSettles(u, s, a.c, call.queue, call.best, call.pc, x);
      } else {
        WritersSettle(u, s, a.c, call, a.spurious, x);
      }
    }
  }

  /** Who is about to set DataReady stands on a parent that has it, with its own data in place. */
  lemma PublisherHasParent(u: Headers, run: seq<Action>, c: CallId, x: Id)
    requires var s := Exec(u, run);
             c in s.calls && s.calls[c].Build? && s.calls[c].pc.PublishReady? && s.calls[c].pc.cur == x
                 && s.calls[c].pc.readyData
    ensures x != u.genesis && Get(Exec(u, run), u.parent(x)).dataReady && x in BlockCalls(u, run)
  {
    var g := RunInv(u, run);
    var s := Exec(u, run);
    var call := s.calls[c];
    Look(u, s, g, c, x);
    ReadyIsFresh(u, s, g, c, call.queue, call.best, x, call.pc.readyHeader, true);
    assert OfferOk(u, s, g, x);
    assert g.dataBy(x).Some? <==> x in BlockCalls(u, run);
  }

  /** A block with its data ready stands on blocks that were all brought with their data, down to genesis. */
  lemma DataReadyReaches(u: Headers, run: seq<Action>, b: Id)
    requires Get(Exec(u, run), b).dataReady
    ensures Reaches(u, b, BlockCalls(u, run))
  {
    if run == [] {
      assert Path(u, b, 0, {});
    } else {
      var init, a := run[..|run| - 1], run[|run| - 1];
      var s := Exec(u, init);
      if Get(s, b).dataReady {
        DataReadyReaches(u, init, b);
        var d: nat :| Path(u, b, d, BlockCalls(u, init));
        PathGrows(u, b, d, BlockCalls(u, init), BlockCalls(u, run));
      } else {
        DataReadyOrigin(u, s, a, b);
        PublisherHasParent(u, init, a.c, b);
        DataReadyReaches(u, init, u.parent(b));
        var d: nat :| Path(u, u.parent(b), d, BlockCalls(u, init));
        PathGrows(u, u.parent(b), d, BlockCalls(u, init), BlockCalls(u, run));
        assert Path(u, b, d + 1, BlockCalls(u, run));
      }
    }
  }

  /** Once every call has returned, a header is ready exactly when every header down to genesis was brought,
      whatever was invalidated on the way. */
  lemma HeadersComplete(u: Headers, run: seq<Action>, b: Id)
    requires AllReturned(Exec(u, run))
    ensures Get(Exec(u, run), b).headerReady <==> Reaches(u, b, HeaderCalls(u, run))
  {
    if Get(Exec(u, run), b).headerReady {
      AlwaysSafe(u, run, b);
    }
    if Reaches(u, b, HeaderCalls(u, run)) {
      var d: nat :| Path(u, b, d, HeaderCalls(u, run));
      RestIsReady(u, run, b, d);
    }
  }

  /** Once every call has returned, the data of a block that is valid down to genesis is ready exactly when
      every block down to genesis was brought with its data; what became of other branches does not matter. */
  lemma DataComplete(u: Headers, run: seq<Action>, b: Id)
    requires AllReturned(Exec(u, run)) && !Get(Exec(u, run), u.genesis).invalid
    ensures Reaches(u, b, ValidCalls(u, run)) ==> Get(Exec(u, run), b).dataReady
    ensures Get(Exec(u, run), b).dataReady ==> Reaches(u, b, BlockCalls(u, run))
    ensures (forall x :: !Get(Exec(u, run), x).invalid) ==>
        (Get(Exec(u, run), b).dataReady <==> Reaches(u, b, BlockCalls(u, run)))
  {
    if Get(Exec(u, run), b).dataReady {
      DataReadyReaches(u, run, b);
    }
    if forall x :: !Get(Exec(u, run), x).invalid {
      assert ValidCalls(u, run) == BlockCalls(u, run);
    }
    if Reaches(u, b, ValidCalls(u, run)) {
      var d: nat :| Path(u, b, d, ValidCalls(u, run));
      RestIsReady(u, run, b, d);
    }
  }

  /** Once every call has returned, each block ready in both phases is outweighed by a ready block that some
      call reported. */
  lemma ReadyIsNotified(u: Headers, run: seq<Action>, b: Id) returns (c: CallId)
    requires AllReturned(Exec(u, run)) && b != u.genesis && Ready(Exec(u, run), b)
    ensures var s := Exec(u, run);
            && c in s.calls && s.calls[c].Returned? && s.calls[c].notified.Some?
            && Ready(s, s.calls[c].notified.value)
            && Get(s, s.calls[c].notified.value).chainWork >= Get(s, b).chainWork
  {
    var g := RunInv(u, run);
    assert CoverOk(u, Exec(u, run), g, b);
    c := g.cover(b).value;
  }

  /** What is published stays: HeaderReady, Height and ChainWork of a ready header, and DataReady. */
  lemma PublishedIsFrozen(u: Headers, run: seq<Action>, a: Action, b: Id)
    ensures var s, s' := Exec(u, run), Exec(u, run + [a]);
            && (Get(s, b).headerReady ==>
                  Get(s', b).headerReady && Get(s', b).height == Get(s, b).height
                      && Get(s', b).chainWork == Get(s, b).chainWork)
            && (Get(s, b).dataReady ==> Get(s', b).dataReady)
  {
    assert (run + [a])[..|run + [a]| - 1] == run;
    var s := Exec(u, run);
    if a.Run? && a.c in s.calls {
      var call := s.calls[a.c];
      if call.Build? {
        BuildSettles(u, s, a.c, call.queue, call.best, call.pc, b);
        if call.pc.ComputeHeader? && call.pc.cur == b {
          ComputesOnce(u, run, a.c, b);
        }
      } else {
        WritersSettle(u, s, a.c, call, a.spurious, b);
      }
    }
  }

  /** Who computes a height finds the header not ready. */
  lemma ComputesOnce(u: Headers, run: seq<Action>, c: CallId, b: Id)
    requires var s := Exec(u, run);
             c in s.calls && s.calls[c].Build? && s.calls[c].pc.ComputeHeader? && s.calls[c].pc.cur == b
    ensures !Get(Exec(u, run), b).headerReady && Get(Exec(u, run), u.parent(b)).headerReady
  {
    var g := RunInv(u, run);
    var s := Exec(u, run);
    var call := s.calls[c];
    Look(u, s, g, c, b);
    HeaderHolds(g, c, call.queue, call.best, b, call.pc.events, g.toks(b));
    HeaderEventHeld(u, s, g, b);
  }
}
