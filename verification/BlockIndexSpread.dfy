/** The steps that hand a phase on: publishing a Ready bit, publishing a phase to the
    successor list, walking that list, and joining it. */
module BlockIndexSpread {
  import opened Wrappers
  import opened BlockIndexMachine
  import opened BlockIndexInvariant
  import opened BlockIndexFrames
  import opened BlockIndexSteps

  // ---- publishing the Ready bits --------------------------------------------------

  /** Tokens after the Ready bits of a block are set by call `c`. */
  function Published(t: Tokens, rh: bool, rd: bool, c: CallId): Tokens {
    t.(headerEvent := if rh then Spent else t.headerEvent,
       headerSpread := if rh then Held(c) else t.headerSpread,
       publication := if rd then Spent else t.publication,
       dataSpread := if rd then Held(c) else t.dataSpread)
  }

  function PublishedNode(n: Node, rh: bool, rd: bool): Node {
    n.(headerReady := n.headerReady || rh, dataReady := n.dataReady || rd)
  }

  lemma PublishHolds(g: Aux, c: CallId, q: seq<Entry>, best: Option<Id>, best': Option<Id>, x: Id, rh: bool, rd: bool,
        t: Tokens)
    requires HoldsHere(Build(q, best, PublishReady(x, rh, rd)), g.rest(c), x, t, c)
    requires rh ==> t.headerSpread == Idle
    requires rd ==> t.dataSpread == Idle
    ensures HoldsOk(g, c, Build(q, best, PublishReady(x, rh, rd)), Build(q, best', PublishPhases(x, rh, rd)), x,
        Published(t, rh, rd, c))
    ensures (rh ==> t.headerEvent == Held(c)) && (rd ==> t.publication == Held(c))
  {
    var call, call' := Build(q, best, PublishReady(x, rh, rd)), Build(q, best', PublishPhases(x, rh, rd));
    forall k, b | b != x ensures Holds(call', g.rest(c), k, b) == Holds(call, g.rest(c), k, b) {
    }
  }

  /** What `buildChain` asserts: the bit a call is about to publish is not set yet. */
  lemma ReadyIsFresh(u: Headers, s: State, g: Aux, c: CallId, q: seq<Entry>, best: Option<Id>, x: Id, rh: bool,
        rd: bool)
    requires At(u, s, g, c, x) && s.calls[c] == Build(q, best, PublishReady(x, rh, rd))
    ensures (rh ==> !Get(s, x).headerReady) && (rd ==> !Get(s, x).dataReady)
    ensures (rh ==> g.toks(x).headerSpread == Idle) && (rd ==> g.toks(x).dataSpread == Idle)
    ensures (rh ==> g.toks(x).headerEvent == Held(c)) && (rd ==> g.toks(x).publication == Held(c))
  {
    var call := Build(q, best, PublishReady(x, rh, rd));
    assert Holds(call, g.rest(c), HeaderEvent, x) >= One(rh);
    assert Holds(call, g.rest(c), Publication, x) >= One(rd);
  }

  lemma PublishNode(u: Headers, s: State, g: Aux, c: CallId, call': Call, x: Id, rh: bool, rd: bool)
    requires NodeOk(u, s, g, x)
    requires rh ==> g.toks(x).headerEvent == Held(c) && Computed(u, s, x)
    requires rd ==> g.toks(x).publication == Held(c)
    ensures var n', t' := PublishedNode(Get(s, x), rh, rd), Published(g.toks(x), rh, rd, c);
            FlagsOk(u, x, n', t') && PathOk(u, x, n', t', Get(Put(s, x, n', c, call'), u.parent(x)))
  {
    var n', t' := PublishedNode(Get(s, x), rh, rd), Published(g.toks(x), rh, rd, c);
    assert FlagsOk(u, x, n', t') by { hide PathOk; }
    assert PathOk(u, x, n', t', Get(Put(s, x, n', c, call'), u.parent(x))) by { hide FlagsOk; }
  }

  lemma PublishedCallOk(u: Headers, s: State, g: Aux, call: Call, rest: seq<Id>)
    requires call.Build? && call.pc.PublishPhases? && (call.best.Some? ==> Ready(s, call.best.value))
    ensures CallOk(u, s, g, call, rest)
  {
  }

  lemma PublishedNodeOk(g: Aux, c: CallId, call: Call, x: Id, n: Node, n': Node, t: Tokens)
    requires n' == n.(headerReady := n'.headerReady, dataReady := n'.dataReady) && call.Build?
    requires (n.headerReady ==> n'.headerReady) && (n.dataReady ==> n'.dataReady)
    ensures SamePhases(n, n') && Grows(n, n') && OwnedOnly(n, n', t, c) && Elects(g, x, n, n', call)
  {
  }

  lemma PublishCore(u: Headers, s: State, g: Aux, c: CallId, call': Call, x: Id, n': Node, t': Tokens)
    requires c in s.calls && s.calls[c].Build? && NotWalking(s.calls[c])
    requires n' == Get(s, x).(headerReady := n'.headerReady, dataReady := n'.dataReady)
    requires (Get(s, x).headerReady ==> n'.headerReady) && (Get(s, x).dataReady ==> n'.dataReady)
    requires t' == g.toks(x).(headerEvent := t'.headerEvent, headerSpread := t'.headerSpread,
        publication := t'.publication, dataSpread := t'.dataSpread)
    requires TokensMove(g.toks(x), t', c) && (t'.headerEvent == Idle <==> g.toks(x).headerEvent == Idle)
    requires FlagsOk(u, x, n', t') && PathOk(u, x, n', t', Get(Put(s, x, n', c, call'), u.parent(x)))
    requires HoldsOk(g, c, s.calls[c], call', x, t')
    requires call'.Build? && call'.pc.PublishPhases?
        && (call'.best.Some? ==> Ready(Put(s, x, n', c, call'), call'.best.value))
    ensures CoreOk(u, s, g, c, call', x, n', t')
  {
    PublishedCallOk(u, Put(s, x, n', c, call'), Turn(g, x, t'), call', g.rest(c));
    PublishedNodeOk(g, c, s.calls[c], x, Get(s, x), n', g.toks(x));
    hide FlagsOk, PathOk, HoldsOk, TokensMove, CallOk, SamePhases, Grows, OwnedOnly, Elects, Put;
  }

  lemma CoverSwap(u: Headers, s: State, g: Aux, cover': Id -> Option<CallId>)
    requires InvCore(u, s, g)
    ensures InvCore(u, s, g.(cover := cover'))
  {
    var g' := g.(cover := cover');
    forall c, k, b ensures Linked(s, g', c, k, b) { assert Linked(s, g, c, k, b); }
    forall b ensures NodeOk(u, s, g', b) { assert NodeOk(u, s, g, b); }
    forall p ensures KidsOk(u, s, g', p) { assert KidsOk(u, s, g, p); assert ListOk(u, s, g', g.kids(p)); }
    forall c ensures ListOk(u, s, g', g'.rest(c)) { assert ListOk(u, s, g, g.rest(c)); }
    forall c ensures CallOk(u, s, g', CallOf(s, c), g'.rest(c)) { assert CallOk(u, s, g, CallOf(s, c), g.rest(c)); }
    forall b ensures OfferOk(u, s, g', b) { assert OfferOk(u, s, g, b); }
    forall k, b ensures GotOk(u, s, g', k, b) { assert GotOk(u, s, g, k, b); }
  }

  /** The better candidate covers what the old one did, and the block just published. */
  lemma PublishCover(u: Headers, s: State, g: Aux, s': State, g': Aux, c: CallId, x: Id, best: Option<Id>,
        best': Option<Id>)
    requires InvCover(u, s, g) && c in s.calls && BestOf(s.calls[c]) == best
    requires s'.calls == s.calls[c := CallOf(s', c)] && BestOf(CallOf(s', c)) == best'
    requires forall b :: b != x ==> Get(s', b) == Get(s, b) && g'.cover(b) == g.cover(b)
    requires Get(s', x).chainWork == Get(s, x).chainWork
    requires (Get(s, x).headerReady ==> Get(s', x).headerReady) && (Get(s, x).dataReady ==> Get(s', x).dataReady)
    requires best.Some? ==> best'.Some? && Get(s', best'.value).chainWork >= Get(s', best.value).chainWork
    requires best'.Some? ==> Ready(s', best'.value)
    requires if Ready(s', x) then g'.cover(x) == Some(c) && Covers(s', best', x) else g'.cover(x) == g.cover(x)
    ensures InvCover(u, s', g')
  {
    forall b ensures CoverOk(u, s', g', b) {
      assert CoverOk(u, s, g, b);
    }
  }

  lemma PutIs(s: State, x: Id, n': Node, c: CallId, call': Call)
    ensures
      var s' := Put(s, x, n', c, call');
      && Get(s', x) == n' && (forall b :: b != x ==> Get(s', b) == Get(s, b))
      && CallOf(s', c) == call' && s'.calls == s.calls[c := call']
  {
  }

  lemma BestIsReady(u: Headers, s: State, g: Aux, call: Call, rest: seq<Id>)
    requires CallOk(u, s, g, call, rest) && call.Build?
    ensures call.best.Some? ==> Ready(s, call.best.value)
  {
  }

  lemma BetterIsBetter(s: State, s': State, best: Option<Id>, x: Id, n': Node)
    requires forall b :: b != x ==> Get(s', b) == Get(s, b)
    requires Get(s', x) == n' && n' == Get(s, x).(headerReady := n'.headerReady, dataReady := n'.dataReady)
    requires (Get(s, x).headerReady ==> n'.headerReady) && (Get(s, x).dataReady ==> n'.dataReady)
    requires best.Some? ==> Ready(s, best.value)
    ensures var best' := if n'.headerReady && n'.dataReady then Better(s, best, x) else best;
            && (best.Some? ==> best'.Some? && Get(s', best'.value).chainWork >= Get(s', best.value).chainWork)
            && (best'.Some? ==> Ready(s', best'.value))
            && (Ready(s', x) ==> Covers(s', best', x))
  {
  }

  lemma PublishReadyStep(u: Headers, s: State, g: Aux, c: CallId, q: seq<Entry>, best: Option<Id>, x: Id, rh: bool,
        rd: bool) returns (g': Aux)
    requires Inv(u, s, g) && c in s.calls && s.calls[c] == Build(q, best, PublishReady(x, rh, rd))
    ensures Inv(u, StepBuild(u, s, c, q, best, PublishReady(x, rh, rd)), g')
    ensures g' == g.(toks := g'.toks, cover := g'.cover)
  {
    hide InvTokens, InvNodes, InvLists, InvCalls, InvCover, InvOffer, InvGot, At, Better;
    Look(u, s, g, c, x);
    var n', t' := PublishedNode(Get(s, x), rh, rd), Published(g.toks(x), rh, rd, c);
    var best' := if n'.headerReady && n'.dataReady then Better(s, best, x) else best;
    var call' := Build(q, best', PublishPhases(x, rh, rd));
    var s' := Put(s, x, n', c, call');
    var cover' := b => if b == x && n'.headerReady && n'.dataReady then Some(c) else g.cover(b);
    g' := Turn(g, x, t').(cover := cover');
    assert InvCore(u, s', g') && InvCover(u, s', g') by {
      PublishReadyCover(u, s, g, c, q, best, x, rh, rd, best', call', s', n', t', g');
      PublishReadyCore(u, s, g, c, q, best, x, rh, rd, best', call', s', n', t', g');
    }
  }

  lemma PublishLocal(u: Headers, s: State, g: Aux, c: CallId, q: seq<Entry>, best: Option<Id>, x: Id, rh: bool,
        rd: bool, best': Option<Id>, call': Call, n': Node, t': Tokens)
    requires At(u, s, g, c, x) && s.calls[c] == Build(q, best, PublishReady(x, rh, rd))
    requires n' == PublishedNode(Get(s, x), rh, rd) && t' == Published(g.toks(x), rh, rd, c)
    requires best'.Some? ==> Ready(Put(s, x, n', c, call'), best'.value)
    requires call' == Build(q, best', PublishPhases(x, rh, rd))
    ensures CoreOk(u, s, g, c, call', x, n', t')
  {
    ReadyIsFresh(u, s, g, c, q, best, x, rh, rd);
    PublishHolds(g, c, q, best, best', x, rh, rd, g.toks(x));
    PublishNode(u, s, g, c, call', x, rh, rd);
    PublishCore(u, s, g, c, call', x, n', t');
  }

  lemma PublishReadyCover(u: Headers, s: State, g: Aux, c: CallId, q: seq<Entry>, best: Option<Id>, x: Id, rh: bool,
        rd: bool, best': Option<Id>, call': Call, s': State, n': Node, t': Tokens, g': Aux)
    requires Inv(u, s, g) && At(u, s, g, c, x) && s.calls[c] == Build(q, best, PublishReady(x, rh, rd))
    requires n' == PublishedNode(Get(s, x), rh, rd) && t' == Published(g.toks(x), rh, rd, c)
    requires best' == if n'.headerReady && n'.dataReady then Better(s, best, x) else best
    requires call' == Build(q, best', PublishPhases(x, rh, rd)) && s' == Put(s, x, n', c, call')
    requires g' == Turn(g, x, t').(cover := g'.cover)
    requires forall b :: g'.cover(b) == if b == x && n'.headerReady && n'.dataReady then Some(c) else g.cover(b)
    ensures InvCover(u, s', g')
  {
    hide NodeOk, CallOk, HoldsHere, InvTokens, InvNodes, InvLists, InvCalls, InvCover, InvOffer, InvGot;
    BestIsReady(u, s, g, s.calls[c], g.rest(c));
    PutIs(s, x, n', c, call');
    hide Put, Get, Published;
    BetterIsBetter(s, s', best, x, n');
    PublishCover(u, s, g, s', g', c, x, best, best');
  }

  lemma PublishReadyCore(u: Headers, s: State, g: Aux, c: CallId, q: seq<Entry>, best: Option<Id>, x: Id, rh: bool,
        rd: bool, best': Option<Id>, call': Call, s': State, n': Node, t': Tokens, g': Aux)
    requires Inv(u, s, g) && At(u, s, g, c, x) && s.calls[c] == Build(q, best, PublishReady(x, rh, rd))
    requires n' == PublishedNode(Get(s, x), rh, rd) && t' == Published(g.toks(x), rh, rd, c)
    requires best' == if n'.headerReady && n'.dataReady then Better(s, best, x) else best
    requires call' == Build(q, best', PublishPhases(x, rh, rd)) && s' == Put(s, x, n', c, call')
    requires g' == Turn(g, x, t').(cover := g'.cover)
    requires forall b :: g'.cover(b) == if b == x && n'.headerReady && n'.dataReady then Some(c) else g.cover(b)
    ensures InvCore(u, s', g')
  {
    hide InvTokens, InvNodes, InvLists, InvCalls, InvCover, InvOffer, InvGot, NodeOk, CallOk, CoreOk, HoldsHere;
    BestIsReady(u, s, g, s.calls[c], g.rest(c));
    PutIs(s, x, n', c, call');
    hide Put, Get, Published;
    BetterIsBetter(s, s', best, x, n');
    PublishLocal(u, s, g, c, q, best, x, rh, rd, best', call', n', t');
    CoreStep(u, s, g, c, call', x, n', t');
    CoverSwap(u, s', Turn(g, x, t'), g'.cover);
  }
}
