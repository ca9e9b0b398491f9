/** The steps that touch the successor lists: joining one, publishing a phase to one,
    and walking one. */
module BlockIndexLists {
  import opened Wrappers
  import opened BlockIndexMachine
  import opened BlockIndexInvariant
  import opened BlockIndexFrames
  import opened BlockIndexSteps

  // ---- only successor words change --------------------------------------------------

  /** Call `c` moves; of a record nothing changes that calls or the history look at. */
  ghost predicate WordStep(s: State, g: Aux, s': State, g': Aux, c: CallId) {
    && c in s.calls && s'.calls == s.calls[c := CallOf(s', c)]
    && (forall b :: SameButWord(Get(s, b), Get(s', b)))
    && g'.cover == g.cover && g'.headerBy == g.headerBy && g'.dataBy == g.dataBy
    && (forall d :: d != c ==> g'.rest(d) == g.rest(d))
    && BestOf(CallOf(s', c)) == BestOf(s.calls[c])
    && !s.calls[c].HeaderElect? && !s.calls[c].DataElect?
  }

  ghost predicate SameButWord(n: Node, n': Node) {
    && n'.headerWriteStarted == n.headerWriteStarted && n'.headerDone == n.headerDone
    && n'.dataWriteStarted == n.dataWriteStarted && n'.serialized == n.serialized
    && n'.headerReady == n.headerReady && n'.dataReady == n.dataReady
    && n'.prev == n.prev && n'.next == n.next
    && n'.height == n.height && n'.chainWork == n.chainWork
  }

  lemma WordCover(u: Headers, s: State, g: Aux, s': State, g': Aux, c: CallId)
    requires InvCover(u, s, g) && WordStep(s, g, s', g', c)
    ensures InvCover(u, s', g')
  {
    forall b ensures CoverOk(u, s', g', b) {
      assert CoverOk(u, s, g, b);
      assert SameButWord(Get(s, b), Get(s', b));
      if g.cover(b).Some? {
        var best := BestOf(s.calls[g.cover(b).value]);
        assert SameButWord(Get(s, best.value), Get(s', best.value));
      }
    }
  }

  lemma WordOffer(u: Headers, s: State, g: Aux, s': State, g': Aux, c: CallId)
    requires InvOffer(u, s, g) && WordStep(s, g, s', g', c)
    ensures InvOffer(u, s', g')
  {
    forall b ensures OfferOk(u, s', g', b) {
      assert OfferOk(u, s, g, b);
      assert SameButWord(Get(s, b), Get(s', b));
    }
  }

  lemma WordCall(u: Headers, s: State, g: Aux, s': State, g': Aux, c: CallId, d: CallId)
    requires WordStep(s, g, s', g', c) && d != c
    requires CallOk(u, s, g, CallOf(s, d), g.rest(d))
    ensures CallOk(u, s', g', CallOf(s', d), g'.rest(d))
  {
    var call := CallOf(s, d);
    assert CallOf(s', d) == call;
    if call.Build? {
      assert call.best.Some? ==> SameButWord(Get(s, call.best.value), Get(s', call.best.value));
      if Waiting(call.pc).Some? {
        var x := Waiting(call.pc).value;
        assert SameButWord(Get(s, x), Get(s', x)) && SameButWord(Get(s, u.parent(x)), Get(s', u.parent(x)));
      }
    } else if call.Returned? {
      assert call.notified.Some? ==> SameButWord(Get(s, call.notified.value), Get(s', call.notified.value));
    } else {
      assert SameButWord(Get(s, call.x), Get(s', call.x));
    }
  }

  lemma WordCalls(u: Headers, s: State, g: Aux, s': State, g': Aux, c: CallId)
    requires InvCalls(u, s, g) && WordStep(s, g, s', g', c)
    requires CallOk(u, s', g', CallOf(s', c), g'.rest(c))
    ensures InvCalls(u, s', g')
  {
    forall d ensures CallOk(u, s', g', CallOf(s', d), g'.rest(d)) {
      if d != c {
        WordCall(u, s, g, s', g', c, d);
      }
    }
  }

  /** A list reads the same when its links and insertions do. */
  lemma SameList(u: Headers, s: State, g: Aux, s': State, g': Aux, ks: seq<Id>)
    requires ListOk(u, s, g, ks)
    requires forall x :: x in ks ==> Inserted(u, g', x) && Get(s', x).next == Get(s, x).next
    ensures ListOk(u, s', g', ks)
  {
  }

  lemma ListsFrame(u: Headers, s: State, g: Aux, s': State, g': Aux)
    requires forall p :: KidsOk(u, s, g, p)
    requires forall d :: ListOk(u, s, g, g'.rest(d))
    requires g'.kids == g.kids && forall b :: Inserted(u, g', b) <==> Inserted(u, g, b)
    requires forall b :: Get(s', b).next == Get(s, b).next && Get(s', b).head == Get(s, b).head
    ensures InvLists(u, s', g')
  {
    forall p ensures KidsOk(u, s', g', p) {
      assert KidsOk(u, s, g, p);
      SameList(u, s, g, s', g', g.kids(p));
    }
    forall d ensures ListOk(u, s', g', g'.rest(d)) {
      assert ListOk(u, s, g, g'.rest(d));
      SameList(u, s, g, s', g', g'.rest(d));
    }
  }

  // ---- joining the parent's list --------------------------------------------------

  /** A successful exchange puts `x` first in its parent's list and takes the phases it found. */
  ghost predicate Joined(u: Headers, s: State, g: Aux, s': State, g': Aux, c: CallId, x: Id) {
    var p := u.parent(x);
    var P := Get(s, p);
    var ev := SuccessorEvents(P.spHeader, P.spData);
    && c in s.calls
    && s' == Put(s, p, P.(head := Some(x)), c, StartBuild(x, ev))
    && g' == g.(toks := g'.toks, kids := g'.kids, got := g'.got)
    && g'.toks(x) == g.toks(x).(headerWriter := Spent,
                                headerEvent := if P.spHeader then Held(c) else g.toks(x).headerEvent,
                                dataEvent := if P.spData then Held(c) else g.toks(x).dataEvent)
    && (forall b :: b != x ==> g'.toks(b) == g.toks(b))
    && g'.kids(p) == [x] + g.kids(p)
    && (forall b :: b != p ==> g'.kids(b) == g.kids(b))
    && (forall k, b :: g'.got(b, k) == g.got(b, k) + One(b == x && Wants(ev, k)))
  }

  /** A call in `addSuccessor` holds the header of a block that is in no list yet. */
  ghost predicate Joining(u: Headers, s: State, g: Aux, c: CallId, x: Id) {
    && At(u, s, g, c, x) && s.calls[c].SuccessorCas? && s.calls[c].x == x
    && Get(s, u.parent(x)).head == s.calls[c].seen
  }

  lemma JoiningFacts(u: Headers, s: State, g: Aux, c: CallId, x: Id)
    requires Joining(u, s, g, c, x)
    ensures g.toks(x).headerWriter == Held(c) && x != u.genesis
    ensures g.toks(x).headerEvent == Idle && g.toks(x).dataEvent == Idle
    ensures Get(s, x).prev == Some(u.parent(x)) && Get(s, x).headerDone
    ensures Get(s, x).next == Get(s, u.parent(x)).head
  {
    assert Holds(s.calls[c], g.rest(c), HeaderWriter, x) == 1;
  }

  lemma JoinTokens(u: Headers, s: State, g: Aux, s': State, g': Aux, c: CallId, x: Id)
    requires InvTokens(s, g) && Joining(u, s, g, c, x) && Joined(u, s, g, s', g', c, x)
    ensures InvTokens(s', g')
  {
    JoiningFacts(u, s, g, c, x);
    var P := Get(s, u.parent(x));
    StartHolds(x, SuccessorEvents(P.spHeader, P.spData), g.rest(c));
    TokensStep(s, g, s', g', c, x);
  }

  lemma JoinedNode(u: Headers, s: State, g: Aux, s': State, g': Aux, c: CallId, x: Id)
    requires NodeOk(u, s, g, x) && Joined(u, s, g, s', g', c, x)
    requires g.toks(x).headerWriter == Held(c) && x != u.genesis
    requires g.toks(x).headerEvent == Idle && g.toks(x).dataEvent == Idle
    requires Get(s, x).prev == Some(u.parent(x)) && Get(s, x).headerDone
    ensures NodeOk(u, s', g', x)
  {
  }

  lemma JoinNodes(u: Headers, s: State, g: Aux, s': State, g': Aux, c: CallId, x: Id)
    requires InvNodes(u, s, g) && Joining(u, s, g, c, x) && Joined(u, s, g, s', g', c, x)
    ensures InvNodes(u, s', g')
  {
    JoiningFacts(u, s, g, c, x);
    JoinedNode(u, s, g, s', g', c, x);
    forall b | b != x ensures NodeOk(u, s', g', b) {
      assert NodeOk(u, s, g, b);
      JoinOtherNode(u, s, g, s', g', c, x, b);
    }
  }

  lemma FlagsSkipHead(u: Headers, b: Id, n: Node, h: Option<Id>, t: Tokens)
    requires FlagsOk(u, b, n, t)
    ensures FlagsOk(u, b, n.(head := h), t)
  {
  }

  lemma PathSkipsHead(u: Headers, b: Id, n: Node, h: Option<Id>, t: Tokens, p: Node)
    requires PathOk(u, b, n, t, p)
    ensures PathOk(u, b, n.(head := h), t, p) && PathOk(u, b, n, t, p.(head := h))
        && PathOk(u, b, n.(head := h), t, p.(head := h))
  {
  }

  lemma JoinOtherNode(u: Headers, s: State, g: Aux, s': State, g': Aux, c: CallId, x: Id, b: Id)
    requires NodeOk(u, s, g, b) && Joined(u, s, g, s', g', c, x) && b != x
    ensures NodeOk(u, s', g', b)
  {
    FlagsSkipHead(u, b, Get(s, b), Some(x), g.toks(b));
    PathSkipsHead(u, b, Get(s, b), Some(x), g.toks(b), Get(s, u.parent(b)));
    assert forall d :: Get(s', d) == if d == u.parent(x) then Get(s, d).(head := Some(x)) else Get(s, d);
    assert g'.toks(b) == g.toks(b);
  }

  lemma JoinLists(u: Headers, s: State, g: Aux, s': State, g': Aux, c: CallId, x: Id)
    requires InvLists(u, s, g) && Joining(u, s, g, c, x) && Joined(u, s, g, s', g', c, x)
    ensures InvLists(u, s', g')
  {
    hide KidsOk, ListOk, Joining;
    JoiningFacts(u, s, g, c, x);
    assert forall b :: Inserted(u, g', b) <==> Inserted(u, g, b) || b == x;
    forall p ensures KidsOk(u, s', g', p) {
      assert KidsOk(u, s, g, p);
      JoinKids(u, s, g, s', g', c, x, p);
    }
    JoinRests(u, s, g, s', g', c, x);
  }

  lemma JoinRests(u: Headers, s: State, g: Aux, s': State, g': Aux, c: CallId, x: Id)
    requires InvLists(u, s, g) && Joined(u, s, g, s', g', c, x)
    requires forall b :: Inserted(u, g', b) <==> Inserted(u, g, b) || b == x
    ensures forall d :: ListOk(u, s', g', g'.rest(d))
  {
    forall d ensures ListOk(u, s', g', g'.rest(d)) {
      assert ListOk(u, s, g, g.rest(d));
    }
  }

  /** Inserting at the front of a list. */
  lemma ConsList(u: Headers, s: State, g: Aux, s': State, g': Aux, x: Id, ks: seq<Id>)
    requires ListOk(u, s, g, ks) && x !in ks
    requires Inserted(u, g', x) && Get(s', x).next == First(ks)
    requires forall i :: 0 <= i < |ks| ==> Inserted(u, g', ks[i]) && Get(s', ks[i]).next == Get(s, ks[i]).next
    ensures ListOk(u, s', g', [x] + ks)
  {
    var ks' := [x] + ks;
    assert ks'[1..] == ks;
    forall i | 0 <= i < |ks'| ensures Get(s', ks'[i]).next == First(ks'[i + 1..]) {
      if i > 0 {
        assert ks'[i + 1..] == ks[i..];
        assert ks'[i] == ks[i - 1];
      }
    }
  }

  lemma JoinKids(u: Headers, s: State, g: Aux, s': State, g': Aux, c: CallId, x: Id, p: Id)
    requires KidsOk(u, s, g, p) && Joined(u, s, g, s', g', c, x)
    requires x != u.genesis && g.toks(x).headerWriter != Spent
    requires Get(s, x).next == Get(s, u.parent(x)).head
    requires forall b :: Inserted(u, g', b) <==> Inserted(u, g, b) || b == x
    requires forall b :: Get(s', b).next == Get(s, b).next
    requires forall b :: Get(s', b).head == if b == u.parent(x) then Some(x) else Get(s, b).head
    ensures KidsOk(u, s', g', p)
  {
    var ks := g.kids(p);
    assert x !in ks;
    if p == u.parent(x) {
      ConsList(u, s, g, s', g', x, ks);
    } else {
      SameList(u, s, g, s', g', ks);
    }
  }

  lemma JoinCalls(u: Headers, s: State, g: Aux, s': State, g': Aux, c: CallId, x: Id)
    requires InvCalls(u, s, g) && InvCover(u, s, g) && InvOffer(u, s, g)
    requires Joining(u, s, g, c, x) && Joined(u, s, g, s', g', c, x)
    ensures InvCalls(u, s', g') && InvCover(u, s', g') && InvOffer(u, s', g')
  {
    hide InvCalls, InvCover, InvOffer, Inserted, ListOk;
    WordCalls(u, s, g, s', g', c);
    WordCover(u, s, g, s', g', c);
    WordOffer(u, s, g, s', g', c);
  }

  lemma JoinGot(u: Headers, s: State, g: Aux, s': State, g': Aux, c: CallId, x: Id)
    requires InvGot(u, s, g) && Joining(u, s, g, c, x) && Joined(u, s, g, s', g', c, x)
    ensures InvGot(u, s', g')
  {
    JoiningFacts(u, s, g, c, x);
    forall k, b ensures GotOk(u, s', g', k, b) {
      assert GotOk(u, s, g, k, b);
      assert b != x ==> (Walking(s', g', k, b) <==> Walking(s, g, k, b));
    }
  }

  lemma JoinStep(u: Headers, s: State, g: Aux, s': State, g': Aux, c: CallId, x: Id)
    requires Inv(u, s, g) && Joining(u, s, g, c, x) && Joined(u, s, g, s', g', c, x)
    ensures Inv(u, s', g')
  {
    JoinTokens(u, s, g, s', g', c, x);
    JoinNodes(u, s, g, s', g', c, x);
    JoinLists(u, s, g, s', g', c, x);
    JoinCalls(u, s, g, s', g', c, x);
    JoinGot(u, s, g, s', g', c, x);
  }

  // ---- publishing a phase to the list ---------------------------------------------

  /** The phase bits of `x` are set and every child in its list is given the events. */
  ghost predicate Phased(s: State, g: Aux, s': State, g': Aux, c: CallId, x: Id, q: seq<Entry>, best: Option<Id>,
        rh: bool, rd: bool) {
    var n := Get(s, x);
    && c in s.calls && s.calls[c] == Build(q, best, PublishPhases(x, rh, rd))
    && s' == Put(s, x, n.(spHeader := n.spHeader || rh, spData := n.spData || rd), c,
                 Build(q, best, WalkSuccessors(n.head, SuccessorEvents(rh, rd))))
    && g' == g.(toks := g'.toks, rest := g'.rest)
    && (forall b :: g'.toks(b) == PhasedTokens(g.toks(b), c, b == x, b in g.kids(x), rh, rd))
    && g'.rest(c) == g.kids(x)
    && (forall d :: d != c ==> g'.rest(d) == g.rest(d))
  }

  function PhasedTokens(t: Tokens, c: CallId, self: bool, kid: bool, rh: bool, rd: bool): Tokens {
    t.(headerSpread := if self && rh then Spent else t.headerSpread,
       dataSpread := if self && rd then Spent else t.dataSpread,
       headerEvent := if kid && rh then Held(c) else t.headerEvent,
       dataEvent := if kid && rd then Held(c) else t.dataEvent)
  }

  /** Before the phase is out its token is held, and no child has its event yet. */
  ghost predicate Phasing(g: Aux, c: CallId, x: Id, rh: bool, rd: bool) {
    && (rh ==> g.toks(x).headerSpread == Held(c))
    && (rd ==> g.toks(x).dataSpread == Held(c))
    && (forall b :: b in g.kids(x) && rh ==> g.toks(b).headerEvent == Idle)
    && (forall b :: b in g.kids(x) && rd ==> g.toks(b).dataEvent == Idle)
    && (x in g.kids(x) ==> !rh && !rd)
  }

  lemma PhasingFacts(u: Headers, s: State, g: Aux, c: CallId, x: Id, q: seq<Entry>, best: Option<Id>, rh: bool,
        rd: bool)
    requires InvNodes(u, s, g) && KidsOk(u, s, g, x) && At(u, s, g, c, x)
        && s.calls[c] == Build(q, best, PublishPhases(x, rh, rd))
    ensures Phasing(g, c, x, rh, rd)
  {
    var call := Build(q, best, PublishPhases(x, rh, rd));
    assert Holds(call, g.rest(c), HeaderSpread, x) >= One(rh);
    assert Holds(call, g.rest(c), DataSpread, x) >= One(rd);
    forall b | b in g.kids(x) ensures (rh ==> g.toks(b).headerEvent == Idle) && (rd ==> g.toks(b).dataEvent == Idle) {
      assert Inserted(u, g, b) && u.parent(b) == x;
      assert NodeOk(u, s, g, b);
    }
  }

  lemma PhasedHolds(s: State, g: Aux, s': State, g': Aux, c: CallId, x: Id, q: seq<Entry>, best: Option<Id>, rh: bool,
        rd: bool, k: Kind, b: Id)
    requires Phased(s, g, s', g', c, x, q, best, rh, rd) && Linked(s, g, c, k, b)
    requires rh ==> g.toks(x).headerSpread == Held(c)
    requires rd ==> g.toks(x).dataSpread == Held(c)
    requires b in g.kids(x) && rh ==> g.toks(b).headerEvent == Idle
    requires b in g.kids(x) && rd ==> g.toks(b).dataEvent == Idle
    ensures Linked(s', g', c, k, b)
  {
    assert g'.toks(b) == PhasedTokens(g.toks(b), c, b == x, b in g.kids(x), rh, rd);
  }

  lemma PhasedTokensOk(u: Headers, s: State, g: Aux, s': State, g': Aux, c: CallId, x: Id, q: seq<Entry>,
        best: Option<Id>, rh: bool, rd: bool)
    requires InvTokens(s, g) && Phased(s, g, s', g', c, x, q, best, rh, rd)
    requires Phasing(g, c, x, rh, rd)
    ensures InvTokens(s', g')
  {
    forall d, k, b ensures Linked(s', g', d, k, b) {
      assert Linked(s, g, d, k, b);
      if d == c {
        PhasedHolds(s, g, s', g', c, x, q, best, rh, rd, k, b);
      } else {
        assert g'.toks(b) == PhasedTokens(g.toks(b), c, b == x, b in g.kids(x), rh, rd);
      }
    }
  }

  lemma PhasedNode(u: Headers, s: State, g: Aux, s': State, g': Aux, c: CallId, x: Id, q: seq<Entry>, best: Option<Id>,
        rh: bool, rd: bool, b: Id)
    requires NodeOk(u, s, g, b) && NodeOk(u, s, g, x) && KidsOk(u, s, g, x)
        && Phased(s, g, s', g', c, x, q, best, rh, rd)
    requires Phasing(g, c, x, rh, rd)
    ensures NodeOk(u, s', g', b)
  {
    var t, p := g.toks(b), u.parent(b);
    var t' := PhasedTokens(t, c, b == x, b in g.kids(x), rh, rd);
    assert g'.toks(b) == t';
    assert b in g.kids(x) <==> Inserted(u, g, b) && p == x;
    assert Get(s', b) == PhasedNodeOf(Get(s, b), b == x, rh, rd)
        && Get(s', p) == PhasedNodeOf(Get(s, p), p == x, rh, rd) by {
      PhasedGet(s, g, s', g', c, x, q, best, rh, rd, b);
      PhasedGet(s, g, s', g', c, x, q, best, rh, rd, p);
    }
    PhasedFlags(u, b, Get(s, b), t, c, b == x, b in g.kids(x), rh, rd);
    PhasedPath(u, b, Get(s, b), t, Get(s, p), c, b == x, p == x, b in g.kids(x), rh, rd);
  }

  function PhasedNodeOf(n: Node, self: bool, rh: bool, rd: bool): Node {
    if self then n.(spHeader := n.spHeader || rh, spData := n.spData || rd) else n
  }

  lemma PhasedGet(s: State, g: Aux, s': State, g': Aux, c: CallId, x: Id, q: seq<Entry>, best: Option<Id>, rh: bool,
        rd: bool, b: Id)
    requires Phased(s, g, s', g', c, x, q, best, rh, rd)
    ensures Get(s', b) == PhasedNodeOf(Get(s, b), b == x, rh, rd)
  {
  }

  lemma PhasedFlags(u: Headers, b: Id, n: Node, t: Tokens, c: CallId, self: bool, kid: bool, rh: bool, rd: bool)
    requires FlagsOk(u, b, n, t)
    requires self && rh ==> t.headerSpread == Held(c)
    requires self && rd ==> t.dataSpread == Held(c)
    requires kid && rh ==> t.headerEvent == Idle
    requires kid && rd ==> t.dataEvent == Idle
    ensures FlagsOk(u, b, PhasedNodeOf(n, self, rh, rd), PhasedTokens(t, c, self, kid, rh, rd))
  {
  }

  lemma PhasedPath(u: Headers, b: Id, n: Node, t: Tokens, p: Node, c: CallId, self: bool, ofSelf: bool, kid: bool,
        rh: bool, rd: bool)
    requires PathOk(u, b, n, t, p)
    requires kid <==> b != u.genesis && t.headerWriter == Spent && ofSelf
    ensures PathOk(u, b, PhasedNodeOf(n, self, rh, rd), PhasedTokens(t, c, self, kid, rh, rd),
        PhasedNodeOf(p, ofSelf, rh, rd))
  {
  }

  lemma PhasedNodesOk(u: Headers, s: State, g: Aux, s': State, g': Aux, c: CallId, x: Id, q: seq<Entry>,
        best: Option<Id>, rh: bool, rd: bool)
    requires InvNodes(u, s, g) && KidsOk(u, s, g, x) && Phased(s, g, s', g', c, x, q, best, rh, rd)
    requires Phasing(g, c, x, rh, rd)
    ensures InvNodes(u, s', g')
  {
    forall b ensures NodeOk(u, s', g', b) {
      assert NodeOk(u, s, g, b) && NodeOk(u, s, g, x);
      PhasedNode(u, s, g, s', g', c, x, q, best, rh, rd, b);
    }
  }

  lemma PhasedListsOk(u: Headers, s: State, g: Aux, s': State, g': Aux, c: CallId, x: Id, q: seq<Entry>,
        best: Option<Id>, rh: bool, rd: bool)
    requires InvLists(u, s, g) && Phased(s, g, s', g', c, x, q, best, rh, rd)
    ensures InvLists(u, s', g')
  {
    forall b ensures Inserted(u, g', b) <==> Inserted(u, g, b) {
      assert g'.toks(b) == PhasedTokens(g.toks(b), c, b == x, b in g.kids(x), rh, rd);
    }
    forall d ensures ListOk(u, s, g, g'.rest(d)) {
      assert KidsOk(u, s, g, x);
      assert ListOk(u, s, g, g.rest(d));
    }
    PhasedLinks(s, x, c, CallOf(s', c), Get(s, x).spHeader || rh, Get(s, x).spData || rd);
    ListsFrame(u, s, g, s', g');
  }

  lemma PhasedLinks(s: State, x: Id, c: CallId, call': Call, h: bool, d: bool)
    ensures var s' := Put(s, x, Get(s, x).(spHeader := h, spData := d), c, call');
            && (forall b :: Get(s', b).next == Get(s, b).next && Get(s', b).head == Get(s, b).head)
            && (forall b :: SameButWord(Get(s, b), Get(s', b)))
  {
    var n' := Get(s, x).(spHeader := h, spData := d);
    var s' := Put(s, x, n', c, call');
    assert SameButWord(Get(s, x), n');
    forall b | b != x ensures Get(s', b) == Get(s, b) {
    }
  }

  lemma PhasedWord(u: Headers, s: State, g: Aux, s': State, g': Aux, c: CallId, x: Id, q: seq<Entry>, best: Option<Id>,
        rh: bool, rd: bool)
    requires Phased(s, g, s', g', c, x, q, best, rh, rd) && Get(s, x).head == First(g.kids(x))
    requires best.Some? ==> Ready(s, best.value)
    ensures WordStep(s, g, s', g', c) && CallOk(u, s', g', CallOf(s', c), g'.rest(c))
  {
    PhasedLinks(s, x, c, CallOf(s', c), Get(s, x).spHeader || rh, Get(s, x).spData || rd);
  }

  lemma PhasedCallsOk(u: Headers, s: State, g: Aux, s': State, g': Aux, c: CallId, x: Id, q: seq<Entry>,
        best: Option<Id>, rh: bool, rd: bool)
    requires InvCalls(u, s, g) && InvCover(u, s, g) && InvOffer(u, s, g)
    requires KidsOk(u, s, g, x) && Phased(s, g, s', g', c, x, q, best, rh, rd)
    ensures InvCalls(u, s', g') && InvCover(u, s', g') && InvOffer(u, s', g')
  {
    assert CallOk(u, s, g, CallOf(s, c), g.rest(c));
    PhasedWord(u, s, g, s', g', c, x, q, best, rh, rd);
    WordCalls(u, s, g, s', g', c);
    WordCover(u, s, g, s', g', c);
    WordOffer(u, s, g, s', g', c);
  }

  lemma PhasedGotOk(u: Headers, s: State, g: Aux, s': State, g': Aux, c: CallId, x: Id, q: seq<Entry>, best: Option<Id>,
        rh: bool, rd: bool)
    requires InvGot(u, s, g) && Phased(s, g, s', g', c, x, q, best, rh, rd)
    requires Phasing(g, c, x, rh, rd)
    ensures InvGot(u, s', g')
  {
    forall k, b ensures GotOk(u, s', g', k, b) {
      assert GotOk(u, s, g, k, b);
      assert g'.toks(b) == PhasedTokens(g.toks(b), c, b == x, b in g.kids(x), rh, rd);
    }
  }

  lemma PhaseStep(u: Headers, s: State, g: Aux, s': State, g': Aux, c: CallId, x: Id, q: seq<Entry>, best: Option<Id>,
        rh: bool, rd: bool)
    requires Inv(u, s, g) && Phased(s, g, s', g', c, x, q, best, rh, rd)
    ensures Inv(u, s', g')
  {
    assert KidsOk(u, s, g, x);
    Look(u, s, g, c, x);
    PhasingFacts(u, s, g, c, x, q, best, rh, rd);
    PhasedTokensOk(u, s, g, s', g', c, x, q, best, rh, rd);
    PhasedNodesOk(u, s, g, s', g', c, x, q, best, rh, rd);
    PhasedListsOk(u, s, g, s', g', c, x, q, best, rh, rd);
    PhasedCallsOk(u, s, g, s', g', c, x, q, best, rh, rd);
    PhasedGotOk(u, s, g, s', g', c, x, q, best, rh, rd);
  }

  // ---- walking the list -----------------------------------------------------------

  /** One child is queued, or the end of the list is reached. */
  ghost predicate Walked(s: State, g: Aux, s': State, g': Aux, c: CallId, q: seq<Entry>, best: Option<Id>,
        child: Option<Id>, ev: Events) {
    && c in s.calls && s.calls[c] == Build(q, best, WalkSuccessors(child, ev))
    && g' == g.(rest := g'.rest, got := g'.got)
    && (forall d :: d != c ==> g'.rest(d) == g.rest(d))
    && match child
       case None => s' == Goto(s, c, Build(q, best, NextEntry)) && g'.rest(c) == g.rest(c) && g'.got == g.got
       case Some(x) =>
         && s' == Goto(s, c, Build(q + [Entry(x, ev)], best, WalkSuccessors(Get(s, x).next, ev)))
         && g.rest(c) != [] && g'.rest(c) == g.rest(c)[1..]
         && (forall k, b :: g'.got(b, k) == g.got(b, k) + One(b == x && Wants(ev, k)))
  }

  lemma CountAppend(q: seq<Entry>, e: Entry, k: Kind, b: Id)
    ensures Count(q + [e], k, b) == Count(q, k, b) + One(e.id == b && Wants(e.events, k))
  {
    if q == [] {
      assert (q + [e])[1..] == [];
    } else {
      assert (q + [e])[1..] == q[1..] + [e];
      CountAppend(q[1..], e, k, b);
    }
  }

  lemma WalkedHolds(s: State, g: Aux, s': State, g': Aux, c: CallId, q: seq<Entry>, best: Option<Id>, child: Option<Id>,
        ev: Events, k: Kind, b: Id)
    requires Walked(s, g, s', g', c, q, best, child, ev) && child == First(g.rest(c))
    requires forall i, j :: 0 <= i < j < |g.rest(c)| ==> g.rest(c)[i] != g.rest(c)[j]
    ensures Holds(CallOf(s', c), g'.rest(c), k, b) == Holds(CallOf(s, c), g.rest(c), k, b)
  {
    if child.Some? {
      CountAppend(q, Entry(child.value, ev), k, b);
      assert g.rest(c) == [child.value] + g.rest(c)[1..];
      assert child.value !in g.rest(c)[1..];
    }
  }

  lemma WalkedTokens(s: State, g: Aux, s': State, g': Aux, c: CallId, q: seq<Entry>, best: Option<Id>,
        child: Option<Id>, ev: Events)
    requires InvTokens(s, g) && Walked(s, g, s', g', c, q, best, child, ev) && child == First(g.rest(c))
    requires forall i, j :: 0 <= i < j < |g.rest(c)| ==> g.rest(c)[i] != g.rest(c)[j]
    ensures InvTokens(s', g')
  {
    forall d, k, b ensures Linked(s', g', d, k, b) {
      assert Linked(s, g, d, k, b);
      WalkedHolds(s, g, s', g', c, q, best, child, ev, k, b);
    }
  }

  lemma ListTail(u: Headers, s: State, g: Aux, ks: seq<Id>)
    requires ListOk(u, s, g, ks) && ks != []
    ensures ListOk(u, s, g, ks[1..])
  {
    forall i | 0 <= i < |ks[1..]| ensures Get(s, ks[1..][i]).next == First(ks[1..][i + 1..]) {
      assert ks[1..][i] == ks[i + 1] && ks[1..][i + 1..] == ks[i + 2..];
    }
  }

  lemma WalkedLists(u: Headers, s: State, g: Aux, s': State, g': Aux, c: CallId, q: seq<Entry>, best: Option<Id>,
        child: Option<Id>, ev: Events)
    requires InvLists(u, s, g) && Walked(s, g, s', g', c, q, best, child, ev) && child == First(g.rest(c))
    ensures InvLists(u, s', g')
  {
    forall d ensures ListOk(u, s, g, g'.rest(d)) {
      assert ListOk(u, s, g, g.rest(d));
      if d == c && child.Some? {
        ListTail(u, s, g, g.rest(c));
      }
    }
    ListsFrame(u, s, g, s', g');
  }

  lemma WalkedNodes(u: Headers, s: State, g: Aux, s': State, g': Aux)
    requires InvNodes(u, s, g) && s'.nodes == s.nodes && g'.toks == g.toks
    ensures InvNodes(u, s', g')
  {
    forall b ensures NodeOk(u, s', g', b) { assert NodeOk(u, s, g, b); }
  }

  lemma WalkedGotAt(u: Headers, s: State, g: Aux, s': State, g': Aux, c: CallId, q: seq<Entry>, best: Option<Id>, x: Id,
        ev: Events, k: Kind, b: Id)
    requires GotOk(u, s, g, k, b) && Linked(s, g, c, k, b) && Walked(s, g, s', g', c, q, best, Some(x), ev)
    requires g.rest(c) != [] && x == g.rest(c)[0] && x !in g.rest(c)[1..] && x != u.genesis
    ensures GotOk(u, s', g', k, b)
  {
    var r := g.rest(c);
    assert r == [x] + r[1..];
    assert b in r <==> b == x || b in r[1..];
    if b == x && Wants(ev, k) {
      assert Holds(s.calls[c], r, k, b) >= 1;
    }
  }

  lemma WalkedGot(u: Headers, s: State, g: Aux, s': State, g': Aux, c: CallId, q: seq<Entry>, best: Option<Id>,
        child: Option<Id>, ev: Events)
    requires InvGot(u, s, g) && InvTokens(s, g) && Walked(s, g, s', g', c, q, best, child, ev)
        && child == First(g.rest(c)) && !ev.publishData
    requires ListOk(u, s, g, g.rest(c))
    ensures InvGot(u, s', g')
  {
    if child.Some? {
      assert Inserted(u, g, g.rest(c)[0]);
    }
    forall k, b ensures GotOk(u, s', g', k, b) {
      assert GotOk(u, s, g, k, b);
      if child.Some? {
        assert Linked(s, g, c, k, b);
        WalkedGotAt(u, s, g, s', g', c, q, best, child.value, ev, k, b);
      }
    }
  }

  lemma WalkedWord(u: Headers, s: State, g: Aux, s': State, g': Aux, c: CallId, q: seq<Entry>, best: Option<Id>,
        child: Option<Id>, ev: Events)
    requires Walked(s, g, s', g', c, q, best, child, ev) && child == First(g.rest(c)) && ListOk(u, s, g, g.rest(c))
    requires CallOk(u, s, g, s.calls[c], g.rest(c))
    ensures WordStep(s, g, s', g', c) && CallOk(u, s', g', CallOf(s', c), g'.rest(c))
  {
    forall b ensures SameButWord(Get(s, b), Get(s', b)) {
      assert Get(s', b) == Get(s, b);
    }
    if child.Some? {
      assert Get(s, g.rest(c)[0]).next == First(g.rest(c)[1..]);
    }
  }

  lemma WalkStep(u: Headers, s: State, g: Aux, s': State, g': Aux, c: CallId, q: seq<Entry>, best: Option<Id>,
        child: Option<Id>, ev: Events)
    requires Inv(u, s, g) && Walked(s, g, s', g', c, q, best, child, ev) && child == First(g.rest(c))
    ensures Inv(u, s', g')
  {
    assert CallOk(u, s, g, CallOf(s, c), g.rest(c));
    assert ListOk(u, s, g, g.rest(c));
    WalkedTokens(s, g, s', g', c, q, best, child, ev);
    WalkedNodes(u, s, g, s', g');
    WalkedLists(u, s, g, s', g', c, q, best, child, ev);
    WalkedWord(u, s, g, s', g', c, q, best, child, ev);
    WordCalls(u, s, g, s', g', c);
    WordCover(u, s, g, s', g', c);
    WordOffer(u, s, g, s', g', c);
    WalkedGot(u, s, g, s', g', c, q, best, child, ev);
  }
}
