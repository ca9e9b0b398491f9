/**
Frame lemmas: a step that changes one record and one call keeps the invariant when it
does right by that record and that call.
 */
module BlockIndexFrames {
  import opened Wrappers
  import opened BlockIndexMachine
  import opened BlockIndexInvariant

  /** The token stays, or call `c` takes it up or uses it up. */
  ghost predicate Moves(t: Token, t': Token, c: CallId) {
    t' == t || ((t == Idle || t == Held(c)) && (t' == Held(c) || t' == Spent))
  }

  ghost predicate TokensMove(t: Tokens, t': Tokens, c: CallId) {
    && Moves(t.headerWriter, t'.headerWriter, c)
    && Moves(t.dataWriter, t'.dataWriter, c)
    && Moves(t.headerEvent, t'.headerEvent, c)
    && Moves(t.dataEvent, t'.dataEvent, c)
    && Moves(t.publication, t'.publication, c)
    && Moves(t.headerSpread, t'.headerSpread, c)
    && Moves(t.dataSpread, t'.dataSpread, c)
  }

  /** Record `x`, its tokens and call `c` change. */
  ghost function Turn(g: Aux, x: Id, t': Tokens): Aux {
    g.(toks := b => if b == x then t' else g.toks(b))
  }

  /** What a call stands for at `x` is what it holds there. */
  ghost predicate HoldsHere(call: Call, rest: seq<Id>, x: Id, t: Tokens, c: CallId) {
    && Holds(call, rest, HeaderWriter, x) == One(t.headerWriter == Held(c))
    && Holds(call, rest, DataWriter, x) == One(t.dataWriter == Held(c))
    && Holds(call, rest, HeaderEvent, x) == One(t.headerEvent == Held(c))
    && Holds(call, rest, DataEvent, x) == One(t.dataEvent == Held(c))
    && Holds(call, rest, Publication, x) == One(t.publication == Held(c))
    && Holds(call, rest, HeaderSpread, x) == One(t.headerSpread == Held(c))
    && Holds(call, rest, DataSpread, x) == One(t.dataSpread == Held(c))
  }

  ghost predicate HoldsOk(g: Aux, c: CallId, call: Call, call': Call, x: Id, t': Tokens) {
    && HoldsHere(call', g.rest(c), x, t', c)
    && (forall k: Kind, b: Id :: b != x ==> Holds(call', g.rest(c), k, b) == Holds(call, g.rest(c), k, b))
  }

  lemma TokensStep(s: State, g: Aux, s': State, g': Aux, c: CallId, x: Id)
    requires InvTokens(s, g) && c in s.calls
    requires s'.calls == s.calls[c := CallOf(s', c)] && g'.rest == g.rest
    requires forall b :: b != x ==> g'.toks(b) == g.toks(b)
    requires TokensMove(g.toks(x), g'.toks(x), c)
    requires HoldsOk(g, c, s.calls[c], CallOf(s', c), x, g'.toks(x))
    ensures InvTokens(s', g')
  {
    forall d, k, b ensures Linked(s', g', d, k, b) {
      assert Linked(s, g, d, k, b);
      if b == x {
        assert Moves(Sel(g.toks(x), k), Sel(g'.toks(x), k), c);
      }
    }
  }

  /** Phases, published height and validity of a record do not change. */
  ghost predicate SamePhases(n: Node, n': Node) {
    && n'.spHeader == n.spHeader && n'.spData == n.spData && n'.invalid == n.invalid
    && (n.headerReady ==> n'.height == n.height && n'.chainWork == n.chainWork)
  }

  lemma NodesStep(u: Headers, s: State, g: Aux, c: CallId, call': Call, x: Id, n': Node, t': Tokens)
    requires InvNodes(u, s, g)
    requires SamePhases(Get(s, x), n')
    requires FlagsOk(u, x, n', t') && PathOk(u, x, n', t', Get(Put(s, x, n', c, call'), u.parent(x)))
    ensures InvNodes(u, Put(s, x, n', c, call'), Turn(g, x, t'))
  {
    var s', g' := Put(s, x, n', c, call'), Turn(g, x, t');
    forall b ensures NodeOk(u, s', g', b) {
      assert NodeOk(u, s, g, b);
      assert NodeOk(u, s, g, u.parent(b));
    }
  }

  lemma ListsStep(u: Headers, s: State, g: Aux, c: CallId, call': Call, x: Id, n': Node, t': Tokens)
    requires InvLists(u, s, g)
    requires n'.head == Get(s, x).head
    requires t'.headerWriter == Spent <==> g.toks(x).headerWriter == Spent
    requires Inserted(u, g, x) ==> n'.next == Get(s, x).next
    ensures InvLists(u, Put(s, x, n', c, call'), Turn(g, x, t'))
  {
    var s', g' := Put(s, x, n', c, call'), Turn(g, x, t');
    assert forall b :: Inserted(u, g', b) <==> Inserted(u, g, b);
    forall p ensures KidsOk(u, s', g', p) {
      assert KidsOk(u, s, g, p);
      assert ListOk(u, s', g', g.kids(p));
    }
    forall d ensures ListOk(u, s', g', g'.rest(d)) {
      assert ListOk(u, s, g, g.rest(d));
    }
  }

  /** A record only gains what other calls rely on. */
  ghost predicate Grows(n: Node, n': Node) {
    && (n.serialized ==> n'.serialized)
    && (n.headerWriteStarted ==> n'.headerWriteStarted)
    && (n.headerReady ==> n'.headerReady)
    && (n.dataReady ==> n'.dataReady)
  }

  /** Fields under a writer's token change only by the call that holds it. */
  ghost predicate OwnedOnly(n: Node, n': Node, t: Tokens, c: CallId) {
    && (t.headerWriter.Held? && t.headerWriter != Held(c) ==>
          n'.headerDone == n.headerDone && n'.prev == n.prev && n'.next == n.next)
    && (t.headerEvent != Held(c) ==> n'.height == n.height && n'.chainWork == n.chainWork)
  }

  lemma ComputedStays(u: Headers, s: State, g: Aux, c: CallId, call': Call, x: Id, n': Node, d: CallId, cur: Id)
    requires InvNodes(u, s, g)
    requires OwnedOnly(Get(s, x), n', g.toks(x), c)
    requires g.toks(cur).headerEvent == Held(d) && c != d
    requires Computed(u, s, cur)
    ensures Computed(u, Put(s, x, n', c, call'), cur)
  {
    assert NodeOk(u, s, g, cur);
    assert NodeOk(u, s, g, u.parent(cur));
  }

  lemma OtherPc(u: Headers, s: State, g: Aux, c: CallId, call': Call, x: Id, n': Node, d: CallId, pc: BuildPc)
    requires InvNodes(u, s, g) && InvTokens(s, g) && c != d
    requires CallOf(s, d).Build? && CallOf(s, d).pc == pc
    requires PcOk(u, s, g.rest(d), pc)
    requires OwnedOnly(Get(s, x), n', g.toks(x), c)
    ensures PcOk(u, Put(s, x, n', c, call'), g.rest(d), pc)
  {
    if Waiting(pc).Some? {
      assert Linked(s, g, d, HeaderEvent, Waiting(pc).value);
      ComputedStays(u, s, g, c, call', x, n', d, Waiting(pc).value);
    }
  }

  /** The block a call writes the header of. */
  function Writing(call: Call): Option<Id> {
    match call
    case HeaderWrite(y, _) => Some(y)
    case HeaderPublish(y, _) => Some(y)
    case SuccessorLoad(y) => Some(y)
    case SuccessorCas(y, _, _, _) => Some(y)
    case _ => None
  }

  /** A call that does not move still finds what it relies on. */
  lemma OtherCall(u: Headers, s: State, g: Aux, c: CallId, call': Call, x: Id, n': Node, t': Tokens, d: CallId)
    requires InvNodes(u, s, g) && InvTokens(s, g) && c != d
    requires CallOk(u, s, g, CallOf(s, d), g.rest(d))
    requires Grows(Get(s, x), n') && OwnedOnly(Get(s, x), n', g.toks(x), c)
    ensures CallOk(u, Put(s, x, n', c, call'), Turn(g, x, t'), CallOf(s, d), g.rest(d))
  {
    var call := CallOf(s, d);
    if call.Build? {
      OtherPc(u, s, g, c, call', x, n', d, call.pc);
    } else if Writing(call).Some? {
      assert Linked(s, g, d, HeaderWriter, Writing(call).value);
    }
  }

  lemma CallsStep(u: Headers, s: State, g: Aux, c: CallId, call': Call, x: Id, n': Node, t': Tokens)
    requires InvNodes(u, s, g) && InvTokens(s, g) && InvCalls(u, s, g)
    requires Grows(Get(s, x), n') && OwnedOnly(Get(s, x), n', g.toks(x), c)
    requires CallOk(u, Put(s, x, n', c, call'), Turn(g, x, t'), call', g.rest(c))
    ensures InvCalls(u, Put(s, x, n', c, call'), Turn(g, x, t'))
  {
    var s', g' := Put(s, x, n', c, call'), Turn(g, x, t');
    forall d ensures CallOk(u, s', g', CallOf(s', d), g'.rest(d)) {
      if d != c {
        OtherCall(u, s, g, c, call', x, n', t', d);
        assert CallOf(s', d) == CallOf(s, d);
      }
    }
  }

  /** Readiness, the work of ready blocks and the call's candidate stay. */
  ghost predicate SameReady(n: Node, n': Node) {
    && n'.headerReady == n.headerReady && n'.dataReady == n.dataReady
    && (n.headerReady ==> n'.chainWork == n.chainWork)
  }

  lemma CoverStep(u: Headers, s: State, g: Aux, c: CallId, call': Call, x: Id, n': Node, t': Tokens)
    requires InvCover(u, s, g) && c in s.calls
    requires SameReady(Get(s, x), n') && BestOf(call') == BestOf(s.calls[c])
    ensures InvCover(u, Put(s, x, n', c, call'), Turn(g, x, t'))
  {
    var s', g' := Put(s, x, n', c, call'), Turn(g, x, t');
    forall b ensures CoverOk(u, s', g', b) {
      assert CoverOk(u, s, g, b);
    }
  }

  /** Writers are elected for offered blocks only, and an electing call elects. */
  ghost predicate Elects(g: Aux, x: Id, n: Node, n': Node, call: Call) {
    && (n.headerWriteStarted ==> n'.headerWriteStarted)
    && (n.dataWriteStarted ==> n'.dataWriteStarted)
    && (n'.headerWriteStarted && !n.headerWriteStarted ==> g.headerBy(x).Some?)
    && (n'.dataWriteStarted && !n.dataWriteStarted ==> g.dataBy(x).Some?)
    && (call.HeaderElect? ==> call.x == x && n'.headerWriteStarted)
    && (call.DataElect? ==> call.x == x && n'.dataWriteStarted)
  }

  lemma OfferStep(u: Headers, s: State, g: Aux, c: CallId, call': Call, x: Id, n': Node, t': Tokens)
    requires InvOffer(u, s, g) && c in s.calls
    requires Elects(g, x, Get(s, x), n', s.calls[c])
    ensures InvOffer(u, Put(s, x, n', c, call'), Turn(g, x, t'))
  {
    var s', g' := Put(s, x, n', c, call'), Turn(g, x, t');
    forall b ensures OfferOk(u, s', g', b) {
      assert OfferOk(u, s, g, b);
    }
  }

  predicate NotWalking(call: Call) { call.Build? ==> !call.pc.WalkSuccessors? }

  lemma GotStep(u: Headers, s: State, g: Aux, c: CallId, call': Call, x: Id, n': Node, t': Tokens)
    requires InvGot(u, s, g) && c in s.calls
    requires NotWalking(s.calls[c]) && NotWalking(call')
    requires TokensMove(g.toks(x), t', c)
    requires (t'.headerEvent == Idle <==> g.toks(x).headerEvent == Idle)
        && (t'.dataEvent == Idle <==> g.toks(x).dataEvent == Idle)
    ensures InvGot(u, Put(s, x, n', c, call'), Turn(g, x, t'))
  {
    var s', g' := Put(s, x, n', c, call'), Turn(g, x, t');
    forall k, b ensures GotOk(u, s', g', k, b) {
      assert GotOk(u, s, g, k, b);
      assert Moves(Sel(g.toks(x), k), Sel(t', k), c);
    }
  }

  /** All that a step at one record has to do right, what it reports left aside. */
  ghost predicate CoreOk(u: Headers, s: State, g: Aux, c: CallId, call': Call, x: Id, n': Node, t': Tokens) {
    var n, t := Get(s, x), g.toks(x);
    var s' := Put(s, x, n', c, call');
    && c in s.calls
    && TokensMove(t, t', c) && HoldsOk(g, c, s.calls[c], call', x, t')
    && SamePhases(n, n') && FlagsOk(u, x, n', t') && PathOk(u, x, n', t', Get(s', u.parent(x)))
    && n'.head == n.head && (t'.headerWriter == Spent <==> t.headerWriter == Spent)
         && (Inserted(u, g, x) ==> n'.next == n.next)
    && Grows(n, n') && OwnedOnly(n, n', t, c) && CallOk(u, s', Turn(g, x, t'), call', g.rest(c))
    && Elects(g, x, n, n', s.calls[c])
    && NotWalking(s.calls[c]) && NotWalking(call')
    && (t'.headerEvent == Idle <==> t.headerEvent == Idle) && (t'.dataEvent == Idle <==> t.dataEvent == Idle)
  }

  ghost predicate LocalOk(u: Headers, s: State, g: Aux, c: CallId, call': Call, x: Id, n': Node, t': Tokens) {
    && CoreOk(u, s, g, c, call', x, n', t')
    && SameReady(Get(s, x), n') && BestOf(call') == BestOf(s.calls[c])
  }

  ghost predicate InvCore(u: Headers, s: State, g: Aux) {
    && InvTokens(s, g) && InvNodes(u, s, g) && InvLists(u, s, g) && InvCalls(u, s, g)
    && InvOffer(u, s, g) && InvGot(u, s, g)
  }

  lemma CoreStep(u: Headers, s: State, g: Aux, c: CallId, call': Call, x: Id, n': Node, t': Tokens)
    requires Inv(u, s, g)
    requires CoreOk(u, s, g, c, call', x, n', t')
    ensures InvCore(u, Put(s, x, n', c, call'), Turn(g, x, t'))
  {
    TokensStep(s, g, Put(s, x, n', c, call'), Turn(g, x, t'), c, x);
    NodesStep(u, s, g, c, call', x, n', t');
    ListsStep(u, s, g, c, call', x, n', t');
    CallsStep(u, s, g, c, call', x, n', t');
    OfferStep(u, s, g, c, call', x, n', t');
    GotStep(u, s, g, c, call', x, n', t');
  }

  lemma LocalStep(u: Headers, s: State, g: Aux, c: CallId, call': Call, x: Id, n': Node, t': Tokens)
    requires Inv(u, s, g)
    requires LocalOk(u, s, g, c, call', x, n', t')
    ensures Inv(u, Put(s, x, n', c, call'), Turn(g, x, t'))
  {
    CoreStep(u, s, g, c, call', x, n', t');
    CoverStep(u, s, g, c, call', x, n', t');
  }
}
