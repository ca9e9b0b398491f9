/**
Every call of the block index returns. A run may interleave its calls as it likes, exchanges may fail on
their own and blocks may be invalidated: the steps that count are bounded by the number of calls alone,
and as long as a call has not returned, its next step counts.

Each state is given a credit: what the calls have yet to do, read off their program counters, queues and
walks, and for each block brought the phases its parent has not published yet. A step of a call takes
from the credit, or is a failed exchange that another call's step has caused.
 */
module BlockIndexProgress {
  import opened Wrappers
  import opened BlockIndexMachine
  import opened BlockIndexInvariant
  import opened BlockIndexSteps
  import opened BlockIndexRuns
  import opened BlockIndexTheorems

  // ---- what one call has yet to do -------------------------------------------------------------------

  /** `walk` blocks are left of a list; each becomes an entry of the queue. */
  function PcWeight(pc: BuildPc, walk: nat): nat {
    match pc
    case NextEntry => 1
    case ComputeHeader(_, _) => 8
    case MeetData(_, _, _) => 7
    case CheckInvalid(_, _) => 6
    case CheckPrevInvalid(_, _) => 5
    case PublishReady(_, _, _) => 4
    case PublishPhases(_, _, _) => 3
    case WalkSuccessors(_, _) => 2 + 9 * walk
  }

  function Weight(call: Call, walk: nat): nat {
    match call
    case DataElect(_) => 16
    case DataWrite(_) => 15
    case DataHeaderElect(_) => 14
    case HeaderElect(_, _) => 14
    case HeaderWrite(_, _) => 13
    case HeaderPublish(_, _) => 12
    case SuccessorLoad(_) => 11
    case SuccessorCas(_, _, _, _) => 10
    case DataPublish(_) => 10
    case Build(q, _, pc) => 8 * |q| + PcWeight(pc, walk)
    case Returned(_) => 0
  }

  /** Where a call goes by a parent link, the link is there. */
  predicate Anchored(s: State, call: Call) {
    && (call.SuccessorLoad? || call.SuccessorCas? ==> Get(s, call.x).prev.Some?)
    && (call.Build? && (call.pc.ComputeHeader? || call.pc.CheckPrevInvalid?) ==> Get(s, call.pc.cur).prev.Some?)
  }

  /** Something is about to be published when the publishing steps are reached. */
  predicate Purposeful(call: Call) {
    && (call.Build? && call.pc.PublishReady? ==> call.pc.readyHeader || call.pc.readyData)
    && (call.Build? && call.pc.PublishPhases? ==> call.pc.readyHeader || call.pc.readyData)
  }

  /** An exchange that fails: the parent's word is not the one read, or the exchange gives up on its own. */
  ghost predicate Retries(s: State, call: Call, spurious: bool) {
    call.SuccessorCas? && !Exchanges(s, call, spurious)
  }

  ghost predicate SameWords(s: State, s': State) {
    forall b: Id :: Get(s', b).spHeader == Get(s, b).spHeader && Get(s', b).spData == Get(s, b).spData
  }

  lemma WriterStays(u: Headers, s: State, c: CallId, call: Call, spurious: bool)
    requires c in s.calls && !call.Build?
    ensures
      var s' := StepCall(u, s, c, call, spurious);
      c in s'.calls && SameWords(s, s') && forall d :: d != c ==> CallOf(s', d) == CallOf(s, d)
  {
  }

  lemma WriterFalls(u: Headers, s: State, c: CallId, call: Call, spurious: bool, walk: nat, walk': nat)
    requires c in s.calls && s.calls[c] == call && !call.Build? && !call.Returned? && Anchored(s, call)
    requires !Retries(s, call, spurious)
    ensures
      var s' := StepCall(u, s, c, call, spurious);
      && c in s'.calls && Weight(s'.calls[c], walk') < Weight(call, walk) && SameWords(s, s') && Purposeful(s'.calls[c])
      && forall d :: d != c ==> CallOf(s', d) == CallOf(s, d)
  {
    hide SameWords, CallOf;
    WriterStays(u, s, c, call, spurious);
  }

  /** The call that reads a parent's word as it is now. */
  function Reread(s: State, x: Id, p: Id): Call {
    SuccessorCas(x, Get(s, p).head, Get(s, p).spHeader, Get(s, p).spData)
  }

  lemma RetryRereads(u: Headers, s: State, c: CallId, call: Call, spurious: bool, p: Id)
    requires (call.SuccessorLoad? || Retries(s, call, spurious)) && Get(s, call.x).prev == Some(p)
    ensures StepCall(u, s, c, call, spurious)
        == Put(s, call.x, Get(s, call.x).(next := Get(s, p).head), c, Reread(s, call.x, p))
  {
  }

  /** A link written in a record is no word that an exchange compares. */
  lemma SameExchanges(s: State, s': State, x: Id, next: Option<Id>, call: Call)
    requires forall b :: Get(s', b) == if b == x then Get(s, b).(next := next) else Get(s, b)
    ensures Exchanges(s', call, false) <==> Exchanges(s, call, false)
  {
  }

  lemma BuildStays(u: Headers, s: State, c: CallId, q: seq<Entry>, best: Option<Id>, pc: BuildPc)
    requires c in s.calls && !pc.PublishPhases?
    ensures
      var s' := StepBuild(u, s, c, q, best, pc);
      c in s'.calls && SameWords(s, s') && forall d :: d != c ==> CallOf(s', d) == CallOf(s, d)
  {
  }

  lemma BuildFalls(u: Headers, s: State, c: CallId, q: seq<Entry>, best: Option<Id>, pc: BuildPc, walk: nat, walk': nat)
    requires c in s.calls && s.calls[c] == Build(q, best, pc) && Anchored(s, s.calls[c]) && !pc.PublishPhases?
    requires Purposeful(s.calls[c])
    requires pc.WalkSuccessors? ==> (pc.child.None? <==> walk == 0) && walk' == if walk > 0 then walk - 1 else 0
    ensures
      var s' := StepBuild(u, s, c, q, best, pc);
      && c in s'.calls && Weight(s'.calls[c], walk') < Weight(s.calls[c], walk) && SameWords(s, s')
           && Purposeful(s'.calls[c])
      && forall d :: d != c ==> CallOf(s', d) == CallOf(s, d)
  {
    hide SameWords, CallOf;
    BuildStays(u, s, c, q, best, pc);
  }

  /** Publishing a phase: the walk begins at the list as it is now. */
  lemma PhasesFall(u: Headers, s: State, c: CallId, q: seq<Entry>, best: Option<Id>, pc: BuildPc, walk: nat, kids: nat)
    requires c in s.calls && s.calls[c] == Build(q, best, pc) && pc.PublishPhases?
    ensures
      var s' := StepBuild(u, s, c, q, best, pc);
      && c in s'.calls && Weight(s'.calls[c], kids) + 1 == Weight(s.calls[c], walk) + 9 * kids
           && Purposeful(s'.calls[c])
      && (forall d :: d != c ==> CallOf(s', d) == CallOf(s, d))
      && (forall b :: b != pc.cur ==> Get(s', b) == Get(s, b))
      && Get(s', pc.cur).spHeader == (Get(s, pc.cur).spHeader || pc.readyHeader)
      && Get(s', pc.cur).spData == (Get(s, pc.cur).spData || pc.readyData)
  {
  }

  // ---- sums over the calls of a run -------------------------------------------------------------------

  function Sum(vs: seq<nat>): nat { if vs == [] then 0 else Sum(vs[..|vs| - 1]) + vs[|vs| - 1] }

  lemma {:induction false} SumMoves(vs: seq<nat>, ws: seq<nat>, i: nat)
    requires i < |vs| == |ws| && forall k :: 0 <= k < |vs| && k != i ==> ws[k] == vs[k]
    ensures Sum(ws) + vs[i] == Sum(vs) + ws[i]
  {
    var n := |vs| - 1;
    if i == n {
      assert vs[..n] == ws[..n];
    } else {
      SumMoves(vs[..n], ws[..n], i);
    }
  }

  lemma {:induction false} SumBound(vs: seq<nat>)
    requires forall k :: 0 <= k < |vs| ==> vs[k] <= 1
    ensures Sum(vs) <= |vs|
  {
    if vs != [] {
      SumBound(vs[..|vs| - 1]);
    }
  }

  lemma SumPush(vs: seq<nat>, v: nat)
    ensures Sum(vs + [v]) == Sum(vs) + v
  {
    assert (vs + [v])[..|vs|] == vs;
  }

  /** A call and the block it brought. */
  datatype Offer = Offer(c: CallId, x: Id)

  function WeightOf(s: State, g: Aux, o: Offer): nat { Weight(CallOf(s, o.c), |g.rest(o.c)|) }

  function Weights(s: State, g: Aux, os: seq<Offer>): (ws: seq<nat>)
    ensures |ws| == |os|
  {
    seq(|os|, i requires 0 <= i < |os| => WeightOf(s, g, os[i]))
  }

  /** The call is about to try an exchange that cannot go through. */
  ghost predicate Stale(s: State, call: Call) { Retries(s, call, false) }

  ghost function Stales(s: State, os: seq<Offer>): (ws: seq<nat>)
    ensures |ws| == |os|
  {
    seq(|os|, i requires 0 <= i < |os| => One(Stale(s, CallOf(s, os[i].c))))
  }

  /** What the parent of a block brought may still set off there. */
  function Unpublished(u: Headers, s: State, x: Id): nat {
    var p := Get(s, u.parent(x));
    9 * One(!p.spHeader) + 9 * One(!p.spData)
  }

  function BlockCredit(u: Headers, s: State, os: seq<Offer>): nat {
    if os == [] then 0 else BlockCredit(u, s, os[..|os| - 1]) + Unpublished(u, s, os[|os| - 1].x)
  }

  ghost function Credit(u: Headers, s: State, g: Aux, os: seq<Offer>): nat {
    Sum(Weights(s, g, os)) + BlockCredit(u, s, os)
  }

  /** The list names every call once and every block that was brought. */
  ghost predicate Lists(s: State, g: Aux, os: seq<Offer>) {
    && Distinct(os)
    && (forall c :: c in s.calls ==> HasCall(os, c))
    && (forall b :: g.headerBy(b).Some? ==> b in Brought(os))
  }

  predicate Distinct(os: seq<Offer>) { forall i, j :: 0 <= i < j < |os| ==> os[i].c != os[j].c }

  predicate HasCall(os: seq<Offer>, c: CallId) { exists i :: 0 <= i < |os| && os[i].c == c }

  function Brought(os: seq<Offer>): set<Id> { if os == [] then {} else Brought(os[..|os| - 1]) + {os[|os| - 1].x} }

  lemma {:induction false} SameWordsSameCredit(u: Headers, s: State, s': State, os: seq<Offer>)
    requires SameWords(s, s')
    ensures BlockCredit(u, s', os) == BlockCredit(u, s, os)
  {
    if os != [] {
      SameWordsSameCredit(u, s, s', os[..|os| - 1]);
    }
  }

  /** A phase published at `x` releases the credit of every block brought under it. */
  lemma {:induction false} CreditReleased(u: Headers, s: State, s': State, os: seq<Offer>, x: Id, kids: set<Id>)
    requires forall b :: b != x ==> Get(s', b) == Get(s, b)
    requires Get(s, x).spHeader ==> Get(s', x).spHeader
    requires Get(s, x).spData ==> Get(s', x).spData
    requires (Get(s', x).spHeader && !Get(s, x).spHeader) || (Get(s', x).spData && !Get(s, x).spData)
    requires kids <= Brought(os) && forall k :: k in kids ==> u.parent(k) == x
    ensures BlockCredit(u, s', os) + 9 * |kids| <= BlockCredit(u, s, os)
  {
    if os == [] {
      assert kids == {};
    } else {
      var init, o := os[..|os| - 1], os[|os| - 1];
      var others := kids - {o.x};
      CreditReleased(u, s, s', init, x, others);
      assert o.x !in kids ==> others == kids;
      assert |kids| <= |others| + One(o.x in kids);
      assert Unpublished(u, s', o.x) + 9 * One(o.x in kids) <= Unpublished(u, s, o.x);
    }
  }

  lemma {:induction false} DistinctSize(ks: seq<Id>)
    requires forall i, j :: 0 <= i < j < |ks| ==> ks[i] != ks[j]
    ensures |set k | k in ks| == |ks|
  {
    if ks != [] {
      var init, last := ks[..|ks| - 1], ks[|ks| - 1];
      DistinctSize(init);
      assert (set k | k in ks) == (set k | k in init) + {last};
    }
  }

  // ---- one step -----------------------------------------------------------------------------------------

  lemma WeightsMove(s: State, g: Aux, s': State, g': Aux, os: seq<Offer>, c: CallId)
    requires Lists(s, g, os) && c in s.calls
    requires forall d :: d != c ==> CallOf(s', d) == CallOf(s, d) && g'.rest(d) == g.rest(d)
    ensures Sum(Weights(s', g', os)) + Weight(CallOf(s, c), |g.rest(c)|)
        == Sum(Weights(s, g, os)) + Weight(CallOf(s', c), |g'.rest(c)|)
  {
    var i :| 0 <= i < |os| && os[i].c == c;
    SumMoves(Weights(s, g, os), Weights(s', g', os), i);
  }

  /** The kids a walk will visit are blocks some call brought. */
  lemma KidsWereBrought(u: Headers, s: State, g: Aux, os: seq<Offer>, x: Id)
    requires Inv(u, s, g) && Lists(s, g, os)
    ensures forall k :: k in g.kids(x) ==> u.parent(k) == x && k in Brought(os)
    ensures |set k | k in g.kids(x)| == |g.kids(x)| && (set k | k in g.kids(x)) <= Brought(os)
  {
    assert KidsOk(u, s, g, x);
    DistinctSize(g.kids(x));
    forall k | k in g.kids(x) ensures u.parent(k) == x && k in Brought(os) {
      assert Inserted(u, g, k);
      assert NodeOk(u, s, g, k) && OfferOk(u, s, g, k);
    }
  }

  lemma SpreadIsNew(u: Headers, s: State, g: Aux, c: CallId, q: seq<Entry>, best: Option<Id>, pc: BuildPc)
    requires Inv(u, s, g) && c in s.calls && s.calls[c] == Build(q, best, pc) && pc.PublishPhases?
    ensures pc.readyHeader ==> !Get(s, pc.cur).spHeader
    ensures pc.readyData ==> !Get(s, pc.cur).spData
  {
    assert Linked(s, g, c, HeaderSpread, pc.cur) && Linked(s, g, c, DataSpread, pc.cur) && NodeOk(u, s, g, pc.cur);
  }

  lemma PublishCredit(u: Headers, s: State, g: Aux, c: CallId, g': Aux, os: seq<Offer>)
    requires Inv(u, s, g) && c in s.calls && s.calls[c].Build? && s.calls[c].pc.PublishPhases? && Purposeful(s.calls[c])
    requires RestMoves(s, g, c, g') && Lists(s, g, os)
    ensures
      var s' := StepCall(u, s, c, s.calls[c], false);
      Credit(u, s', g', os) < Credit(u, s, g, os) && c in s'.calls && Purposeful(s'.calls[c])
  {
    var q, best, pc := s.calls[c].queue, s.calls[c].best, s.calls[c].pc;
    var s', x := StepBuild(u, s, c, q, best, pc), pc.cur;
    var kids := set k | k in g.kids(x);
    PhasesFall(u, s, c, q, best, pc, |g.rest(c)|, |g.kids(x)|);
    SpreadIsNew(u, s, g, c, q, best, pc);
    KidsWereBrought(u, s, g, os, x);
    CreditReleased(u, s, s', os, x, kids);
    WeightsMove(s, g, s', g', os, c);
  }

  lemma IsAnchored(u: Headers, s: State, g: Aux, c: CallId)
    requires Inv(u, s, g) && c in s.calls
    ensures Anchored(s, s.calls[c])
  {
    var call := s.calls[c];
    if call.SuccessorLoad? || call.SuccessorCas? {
      Look(u, s, g, c, call.x);
    } else if call.Build? && call.pc.ComputeHeader? {
      Look(u, s, g, c, call.pc.cur);
      HeaderHolds(g, c, call.queue, call.best, call.pc.cur, call.pc.events, g.toks(call.pc.cur));
      HeaderEventHeld(u, s, g, call.pc.cur);
    } else if call.Build? && call.pc.CheckPrevInvalid? {
      Look(u, s, g, c, call.pc.cur);
      PublicationHeld(u, s, g, c, call.queue, call.best, call.pc.cur, call.pc);
    }
  }

  /** A walk is over when its list is. */
  lemma WalkEnds(u: Headers, s: State, g: Aux, c: CallId)
    requires Inv(u, s, g) && c in s.calls && s.calls[c].Build? && s.calls[c].pc.WalkSuccessors?
    ensures s.calls[c].pc.child.None? <==> g.rest(c) == []
  {
    assert CallOk(u, s, g, CallOf(s, c), g.rest(c));
  }

  /** Every step of a call that is no failed exchange takes from the credit. */
  lemma StepTakes(u: Headers, s: State, g: Aux, c: CallId, spurious: bool, g': Aux, os: seq<Offer>)
    requires Inv(u, s, g) && c in s.calls && !s.calls[c].Returned? && Purposeful(s.calls[c])
    requires RestMoves(s, g, c, g') && Lists(s, g, os) && !Retries(s, s.calls[c], spurious)
    ensures
      var s' := StepCall(u, s, c, s.calls[c], spurious);
      Credit(u, s', g', os) < Credit(u, s, g, os) && c in s'.calls && Purposeful(s'.calls[c])
  {
    var call := s.calls[c];
    if call.Build? && call.pc.PublishPhases? {
      PublishCredit(u, s, g, c, g', os);
    } else {
      var s' := StepCall(u, s, c, call, spurious);
      IsAnchored(u, s, g, c);
      if call.Build? {
        if call.pc.WalkSuccessors? { WalkEnds(u, s, g, c); }
        BuildFalls(u, s, c, call.queue, call.best, call.pc, |g.rest(c)|, |g'.rest(c)|);
      } else {
        WriterFalls(u, s, c, call, spurious, |g.rest(c)|, |g'.rest(c)|);
      }
      SameWordsSameCredit(u, s, s', os);
      WeightsMove(s, g, s', g', os, c);
    }
  }

  /** A failed exchange takes nothing; what it read is the word as it is now. */
  lemma RetryTakesNothing(u: Headers, s: State, g: Aux, c: CallId, spurious: bool, g': Aux, os: seq<Offer>)
    requires Inv(u, s, g) && c in s.calls && Retries(s, s.calls[c], spurious) && RestMoves(s, g, c, g')
        && Lists(s, g, os)
    ensures
      var s' := StepCall(u, s, c, s.calls[c], spurious);
      && Credit(u, s', g', os) == Credit(u, s, g, os) && c in s'.calls && Purposeful(s'.calls[c])
      && Sum(Stales(s', os)) + One(Stale(s, s.calls[c])) == Sum(Stales(s, os))
  {
    hide InvTokens, InvNodes, InvLists, InvCover, InvOffer, InvGot, NodeOk;
    var call := s.calls[c];
    var x, p := call.x, u.parent(call.x);
    var s' := StepCall(u, s, c, call, spurious);
    Look(u, s, g, c, x);
    RetryRereads(u, s, c, call, spurious, p);
    SameWordsSameCredit(u, s, s', os);
    WeightsMove(s, g, s', g', os, c);
    StalesMove(s, s', os, c, x, p);
  }

  lemma StalesMove(s: State, s': State, os: seq<Offer>, c: CallId, x: Id, p: Id)
    requires HasCall(os, c) && Distinct(os)
    requires c in s.calls && s.calls[c].SuccessorCas? && s.calls[c].x == x && Get(s, x).prev == Some(p)
    requires s' == Put(s, x, Get(s, x).(next := Get(s, p).head), c, Reread(s, x, p))
    ensures Sum(Stales(s', os)) + One(Stale(s, s.calls[c])) == Sum(Stales(s, os))
  {
    var i :| 0 <= i < |os| && os[i].c == c;
    var vs, ws := Stales(s, os), Stales(s', os);
    forall k | 0 <= k < |os| && k != i ensures ws[k] == vs[k] {
      SameExchanges(s, s', x, Get(s, p).head, CallOf(s, os[k].c));
    }
    SameExchanges(s, s', x, Get(s, p).head, CallOf(s', c));
    SumMoves(vs, ws, i);
  }

  /** A new call brings its own work, and what its block may be handed. */
  lemma OfferBrings(u: Headers, s: State, g: Aux, c: CallId, call: Call, g': Aux, os: seq<Offer>, o: Offer)
    requires c !in s.calls && !HasCall(os, c) && g'.rest == g.rest && o.c == c && (call.HeaderElect? || call.DataElect?)
    ensures
      var s' := Goto(s, c, call);
      && Credit(u, s', g', os + [o]) <= Credit(u, s, g, os) + 34
      && Sum(Stales(s', os + [o])) == Sum(Stales(s, os))
  {
    var s' := Goto(s, c, call);
    var ws, vs := Weights(s, g, os), Stales(s, os);
    assert forall i :: 0 <= i < |os| ==> os[i].c != c;
    assert Weights(s', g', os + [o]) == ws + [WeightOf(s', g', o)];
    forall i | 0 <= i < |os| ensures One(Stale(s', CallOf(s', os[i].c))) == One(Stale(s, CallOf(s, os[i].c))) {
      assert CallOf(s', os[i].c) == CallOf(s, os[i].c);
    }
    assert Stales(s', os + [o]) == vs + [0];
    SumPush(ws, WeightOf(s', g', o));
    SumPush(vs, 0);
    SameWordsSameCredit(u, s, s', os);
    assert (os + [o])[..|os|] == os;
  }

  // ---- whole runs ----------------------------------------------------------------------------------------

  /** The action is a call that comes in. */
  ghost predicate ComesIn(s: State, a: Action) { (a.AddHeader? || a.AddBlock?) && a.c !in s.calls }

  /** What one action adds to them. */
  ghost function OffersOf(s: State, a: Action): seq<Offer> { if ComesIn(s, a) then [Offer(a.c, a.x)] else [] }

  /** The calls of a run in the order they came. */
  ghost function Offers(u: Headers, run: seq<Action>): seq<Offer> {
    if run == [] then []
    else
      var init, a := run[..|run| - 1], run[|run| - 1];
      Offers(u, init) + OffersOf(Exec(u, init), a)
  }

  /**
  A step that counts: of a call that has not returned, and not an exchange that would have gone through
  and gives up on its own.
   */
  ghost predicate Advances(s: State, a: Action) {
    a.Run? && a.c in s.calls && !s.calls[a.c].Returned? && !(a.spurious && Exchanges(s, s.calls[a.c], false))
  }

  /** How many steps of a run count. */
  ghost function Steps(u: Headers, run: seq<Action>): nat {
    if run == [] then 0
    else
      var init := run[..|run| - 1];
      Steps(u, init) + One(Advances(Exec(u, init), run[|run| - 1]))
  }

  ghost predicate ListsCalls(u: Headers, s: State, run: seq<Action>, os: seq<Offer>) {
    && Distinct(os) && (forall c :: c in s.calls <==> HasCall(os, c))
    && HeaderCalls(u, run) == Brought(os)
  }

  lemma HasMore(os: seq<Offer>, o: Offer, c: CallId)
    ensures HasCall(os + [o], c) <==> HasCall(os, c) || c == o.c
  {
    var more := os + [o];
    assert more[|os|] == o;
    assert forall i :: 0 <= i < |os| ==> more[i] == os[i];
  }

  /** A step of a call keeps the calls there are. */
  lemma StepKeepsCalls(u: Headers, s: State, c: CallId, spurious: bool, d: CallId)
    requires c in s.calls
    ensures d in StepCall(u, s, c, s.calls[c], spurious).calls <==> d in s.calls
  {
  }

  lemma BroughtMore(os: seq<Offer>, o: Offer)
    ensures Brought(os + [o]) == Brought(os) + {o.x}
  {
    assert (os + [o])[..|os|] == os;
  }

  lemma CallsAfter(u: Headers, s: State, a: Action, d: CallId)
    ensures d in Apply(u, s, a).calls <==> d in s.calls || (ComesIn(s, a) && d == a.c)
  {
    hide StepCall;
    if a.Run? && a.c in s.calls {
      StepKeepsCalls(u, s, a.c, a.spurious, d);
    }
  }

  lemma ListsMore(s: State, s': State, os: seq<Offer>, o: Offer)
    requires Distinct(os) && (forall c :: c in s.calls <==> HasCall(os, c)) && o.c !in s.calls
    requires forall c :: c in s'.calls <==> c in s.calls || c == o.c
    ensures Distinct(os + [o]) && forall c :: c in s'.calls <==> HasCall(os + [o], c)
  {
    assert forall i :: 0 <= i < |os| ==> HasCall(os, os[i].c);
    forall c ensures c in s'.calls <==> HasCall(os + [o], c) {
      HasMore(os, o, c);
    }
  }

  lemma {:induction false} CallsAre(u: Headers, run: seq<Action>)
    ensures Distinct(Offers(u, run)) && forall c :: c in Exec(u, run).calls <==> HasCall(Offers(u, run), c)
  {
    if run != [] {
      hide Apply, Distinct, HasCall;
      var init, a := run[..|run| - 1], run[|run| - 1];
      var s, os := Exec(u, init), Offers(u, init);
      CallsAre(u, init);
      forall d ensures d in Exec(u, run).calls <==> d in s.calls || (ComesIn(s, a) && d == a.c) {
        CallsAfter(u, s, a, d);
      }
      if ComesIn(s, a) {
        ListsMore(s, Exec(u, run), os, Offer(a.c, a.x));
      } else {
        assert os + [] == os;
      }
    }
  }

  lemma {:induction false} BroughtAre(u: Headers, run: seq<Action>)
    ensures HeaderCalls(u, run) == Brought(Offers(u, run))
  {
    if run != [] {
      hide Exec, Brought;
      var init, a := run[..|run| - 1], run[|run| - 1];
      var s, os := Exec(u, init), Offers(u, init);
      BroughtAre(u, init);
      if ComesIn(s, a) {
        BroughtMore(os, Offer(a.c, a.x));
      } else {
        assert os + [] == os;
      }
    }
  }

  lemma OffersAre(u: Headers, run: seq<Action>)
    ensures ListsCalls(u, Exec(u, run), run, Offers(u, run))
  {
    CallsAre(u, run);
    BroughtAre(u, run);
  }

  /** Credit counts more than any number of stale exchanges. */
  ghost function Fuel(u: Headers, s: State, g: Aux, os: seq<Offer>, n: nat): nat {
    Times(n + 1, Credit(u, s, g, os)) + Sum(Stales(s, os))
  }

  function Times(a: nat, b: nat): nat { if b == 0 then 0 else Times(a, b - 1) + a }

  lemma {:induction false} TimesIs(a: nat, b: nat)
    ensures Times(a, b) == a * b
  {
    if b > 0 {
      TimesIs(a, b - 1);
    }
  }

  lemma {:induction false} TimesAdds(a: nat, b: nat, d: nat)
    ensures Times(a, b + d) == Times(a, b) + Times(a, d)
  {
    if d > 0 {
      TimesAdds(a, b, d - 1);
    }
  }

  lemma TimesLess(n: nat, a: nat, b: nat)
    requires a < b
    ensures Times(n + 1, a) + n + 1 <= Times(n + 1, b)
  {
    TimesAdds(n + 1, a + 1, b - a - 1);
  }

  lemma StaleBound(s: State, os: seq<Offer>)
    ensures Sum(Stales(s, os)) <= |os|
  {
    SumBound(Stales(s, os));
  }

  /** One step of a call burns fuel if it counts, and never makes any. */
  lemma StepBurns(u: Headers, s: State, g: Aux, c: CallId, spurious: bool, g': Aux, os: seq<Offer>, n: nat)
    requires Inv(u, s, g) && c in s.calls && !s.calls[c].Returned? && Purposeful(s.calls[c])
    requires RestMoves(s, g, c, g') && Lists(s, g, os) && |os| <= n
    ensures
      var s' := StepCall(u, s, c, s.calls[c], spurious);
      && c in s'.calls && Purposeful(s'.calls[c])
      && Fuel(u, s', g', os, n) + One(Advances(s, Run(c, spurious))) <= Fuel(u, s, g, os, n)
  {
    var s' := StepCall(u, s, c, s.calls[c], spurious);
    if Retries(s, s.calls[c], spurious) {
      RetryTakesNothing(u, s, g, c, spurious, g', os);
    } else {
      StepTakes(u, s, g, c, spurious, g', os);
      TimesLess(n, Credit(u, s', g', os), Credit(u, s, g, os));
      StaleBound(s', os);
    }
  }

  ghost predicate AllPurposeful(s: State) { forall c :: c in s.calls ==> Purposeful(s.calls[c]) }

  /** Nothing a credit is made of changes when a block is invalidated, or when nothing is done. */
  lemma SameFuel(u: Headers, s: State, g: Aux, s': State, g': Aux, os: seq<Offer>, n: nat)
    requires s'.calls == s.calls && g'.rest == g.rest
    requires forall b :: Get(s', b) == Get(s, b).(invalid := Get(s', b).invalid)
    ensures Fuel(u, s', g', os, n) == Fuel(u, s, g, os, n)
  {
    SameWordsSameCredit(u, s, s', os);
    assert Weights(s', g', os) == Weights(s, g, os);
    forall c ensures Stale(s', CallOf(s', c)) == Stale(s, CallOf(s, c)) {
      SameWord(s, s', CallOf(s, c));
    }
    assert Stales(s', os) == Stales(s, os);
  }

  lemma SameWord(s: State, s': State, call: Call)
    requires forall b :: Get(s', b) == Get(s, b).(invalid := Get(s', b).invalid)
    ensures Exchanges(s', call, false) <==> Exchanges(s, call, false)
  {
  }

  lemma OfferBurns(u: Headers, s: State, g: Aux, c: CallId, call: Call, g': Aux, os: seq<Offer>, o: Offer, n: nat)
    requires c !in s.calls && !HasCall(os, c) && g'.rest == g.rest && o.c == c && (call.HeaderElect? || call.DataElect?)
    ensures Fuel(u, Goto(s, c, call), g', os + [o], n) <= Fuel(u, s, g, os, n) + Times(n + 1, 34)
  {
    var s' := Goto(s, c, call);
    OfferBrings(u, s, g, c, call, g', os, o);
    var a, b := Credit(u, s', g', os + [o]), Credit(u, s, g, os);
    TimesAdds(n + 1, a, b + 34 - a);
    TimesAdds(n + 1, b, 34);
  }

  /** The rest of a walk is no news to a call that does not walk. */
  lemma RestStays(s: State, g: Aux, c: CallId, g': Aux)
    requires c in s.calls && s.calls[c].Returned? && RestMoves(s, g, c, g')
    ensures forall d :: g'.rest(d) == g.rest(d)
  {
  }

  lemma SameRestFuel(u: Headers, s: State, g: Aux, g': Aux, os: seq<Offer>, n: nat)
    requires forall d :: g'.rest(d) == g.rest(d)
    ensures Fuel(u, s, g', os, n) == Fuel(u, s, g, os, n)
  {
    assert Weights(s, g', os) == Weights(s, g, os);
  }

  /** Steps taken and fuel left come to no more than the calls have brought. */
  ghost predicate Burnt(u: Headers, s: State, g: Aux, os: seq<Offer>, steps: nat, n: nat) {
    AllPurposeful(s) && steps + Fuel(u, s, g, os, n) <= Times(n + 1, 34 * |os|)
  }

  lemma OfferFuels(u: Headers, s: State, g: Aux, a: Action, g': Aux, os: seq<Offer>, steps: nat, n: nat)
    requires Burnt(u, s, g, os, steps, n) && ComesIn(s, a) && !HasCall(os, a.c) && g'.rest == g.rest
    ensures Burnt(u, Apply(u, s, a), g', os + [Offer(a.c, a.x)], steps, n)
  {
    var call := if a.AddHeader? then HeaderElect(a.x, a.workOk) else DataElect(a.x);
    OfferBurns(u, s, g, a.c, call, g', os, Offer(a.c, a.x), n);
    TimesAdds(n + 1, 34 * |os|, 34);
  }

  lemma OtherCallsStay(u: Headers, s: State, c: CallId, spurious: bool, d: CallId)
    requires c in s.calls && d != c
    ensures CallOf(StepCall(u, s, c, s.calls[c], spurious), d) == CallOf(s, d)
    ensures d in StepCall(u, s, c, s.calls[c], spurious).calls <==> d in s.calls
  {
  }

  lemma StepFuels(u: Headers, s: State, g: Aux, c: CallId, spurious: bool, g': Aux, os: seq<Offer>, steps: nat, n: nat)
    requires Burnt(u, s, g, os, steps, n) && Inv(u, s, g) && Lists(s, g, os) && |os| <= n
    requires c in s.calls && !s.calls[c].Returned? && RestMoves(s, g, c, g')
    ensures Burnt(u, StepCall(u, s, c, s.calls[c], spurious), g', os, steps + One(Advances(s, Run(c, spurious))), n)
  {
    var s' := StepCall(u, s, c, s.calls[c], spurious);
    StepBurns(u, s, g, c, spurious, g', os, n);
    forall d | d in s'.calls && d != c ensures Purposeful(s'.calls[d]) {
      OtherCallsStay(u, s, c, spurious, d);
    }
  }

  lemma IdleFuels(u: Headers, s: State, g: Aux, a: Action, g': Aux, os: seq<Offer>, steps: nat, n: nat)
    requires Burnt(u, s, g, os, steps, n) && !ComesIn(s, a) && (a.Run? ==> a.c !in s.calls) && g'.rest == g.rest
    ensures Burnt(u, Apply(u, s, a), g', os, steps, n)
  {
    hide StepCall, Fuel;
    SameFuel(u, s, g, Apply(u, s, a), g', os, n);
  }

  lemma ReturnedFuels(u: Headers, s: State, g: Aux, c: CallId, g': Aux, os: seq<Offer>, steps: nat, n: nat)
    requires Burnt(u, s, g, os, steps, n) && c in s.calls && s.calls[c].Returned? && RestMoves(s, g, c, g')
    ensures Burnt(u, s, g', os, steps, n)
  {
    RestStays(s, g, c, g');
    SameRestFuel(u, s, g, g', os, n);
  }

  lemma ActionFuels(u: Headers, s: State, g: Aux, a: Action, g': Aux, os: seq<Offer>, steps: nat, n: nat)
    requires Burnt(u, s, g, os, steps, n) && Inv(u, s, g) && Lists(s, g, os) && |os| <= n
    requires forall c :: HasCall(os, c) ==> c in s.calls
    requires if a.Run? && a.c in s.calls then RestMoves(s, g, a.c, g') else g'.rest == g.rest
    ensures Burnt(u, Apply(u, s, a), g', os + OffersOf(s, a), steps + One(Advances(s, a)), n)
  {
    assert os + [] == os;
    if ComesIn(s, a) {
      OfferFuels(u, s, g, a, g', os, steps, n);
    } else if a.Run? && a.c in s.calls {
      if s.calls[a.c].Returned? {
        ReturnedFuels(u, s, g, a.c, g', os, steps, n);
      } else {
        StepFuels(u, s, g, a.c, a.spurious, g', os, steps, n);
      }
    } else {
      IdleFuels(u, s, g, a, g', os, steps, n);
    }
  }

  lemma NothingBurnt(u: Headers, g: Aux, n: nat)
    ensures Burnt(u, Initial(u), g, [], 0, n)
  {
    assert Weights(Initial(u), g, []) == [] && Stales(Initial(u), []) == [];
  }

  lemma OffersAt(u: Headers, run: seq<Action>, g: Aux)
    requires Tracks(u, run, g)
    ensures Lists(Exec(u, run), g, Offers(u, run)) && forall c :: HasCall(Offers(u, run), c) ==> c in Exec(u, run).calls
  {
    OffersAre(u, run);
  }

  lemma RunFuels(u: Headers, run: seq<Action>, n: nat) returns (g: Aux)
    requires |Offers(u, run)| <= n
    ensures Inv(u, Exec(u, run), g) && Tracks(u, run, g) && Burnt(u, Exec(u, run), g, Offers(u, run), Steps(u, run), n)
  {
    if run == [] {
      g := RunInv(u, run);
      NothingBurnt(u, g, n);
    } else {
      var init, a := run[..|run| - 1], run[|run| - 1];
      var s := Exec(u, init);
      var g0 := RunFuels(u, init, n);
      g := ActionRun(u, s, g0, a);
      TracksMore(u, run, g0, g);
      OffersAt(u, init, g0);
      ActionFuels(u, s, g0, a, g, Offers(u, init), Steps(u, init), n);
    }
  }

  lemma StepsFit(u: Headers, run: seq<Action>, n: nat)
    requires |Offers(u, run)| <= n
    ensures Steps(u, run) <= Times(n + 1, 34 * |Offers(u, run)|)
  {
    var g := RunFuels(u, run, n);
  }

  // ---- calls return ------------------------------------------------------------------------------------------

  /** However its calls interleave, a run of `n` calls has at most `34 * n * (n + 1)` steps that count. */
  lemma StepsAreBounded(u: Headers, run: seq<Action>)
    ensures
      var n := |Offers(u, run)|;
      Steps(u, run) <= 34 * n * (n + 1)
  {
    hide Times, Steps, Offers;
    var n := |Offers(u, run)|;
    StepsFit(u, run, n);
    TimesIs(n + 1, 34 * n);
  }

  /**
  Right after its own step no call holds a stale word: an exchange fails only if another call came
  between, or on its own.
   */
  lemma RetryHasCause(u: Headers, run: seq<Action>, c: CallId, spurious: bool)
    requires c in Exec(u, run).calls && (Exec(u, run).calls[c].SuccessorLoad? || Exec(u, run).calls[c].SuccessorCas?)
    ensures
      var s' := Exec(u, run + [Run(c, spurious)]);
      c in s'.calls && !Stale(s', s'.calls[c])
  {
    assert (run + [Run(c, spurious)])[..|run|] == run;
    var x := Exec(u, run).calls[c].x;
    NeverStuck(u, run, c, x);
    FreshAfterwards(u, Exec(u, run), c, spurious, u.parent(x));
  }

  lemma FreshAfterwards(u: Headers, s: State, c: CallId, spurious: bool, p: Id)
    requires c in s.calls && (s.calls[c].SuccessorLoad? || s.calls[c].SuccessorCas?)
        && Get(s, s.calls[c].x).prev == Some(p)
    ensures
      var s' := StepCall(u, s, c, s.calls[c], spurious);
      c in s'.calls && !Stale(s', s'.calls[c])
  {
    var call := s.calls[c];
    if call.SuccessorLoad? || Retries(s, call, spurious) {
      RetryRereads(u, s, c, call, spurious, p);
      SameExchanges(s, StepCall(u, s, c, call, spurious), call.x, Get(s, p).head, Reread(s, call.x, p));
    }
  }

  lemma StepBringsNobody(u: Headers, run: seq<Action>, c: CallId)
    ensures Offers(u, run + [Run(c, false)]) == Offers(u, run)
    ensures c in Exec(u, run).calls && !Exec(u, run).calls[c].Returned? ==>
        Steps(u, run + [Run(c, false)]) == Steps(u, run) + 1
  {
    assert (run + [Run(c, false)])[..|run|] == run;
    assert Offers(u, run) + [] == Offers(u, run);
  }

  /** From any state of any run every call can be brought to return, by steps of the calls alone. */
  lemma RestIsReached(u: Headers, run: seq<Action>) returns (more: seq<Action>)
    ensures forall k :: 0 <= k < |more| ==> more[k].Run?
    ensures AllReturned(Exec(u, run + more))
    ensures
      var n := |Offers(u, run)|;
      Steps(u, run) + |more| <= 34 * n * (n + 1)
    decreases 34 * |Offers(u, run)| * (|Offers(u, run)| + 1) - Steps(u, run)
  {
    StepsAreBounded(u, run);
    if AllReturned(Exec(u, run)) {
      more := [];
      assert run + more == run;
    } else {
      var c :| c in Exec(u, run).calls && !Exec(u, run).calls[c].Returned?;
      var next := run + [Run(c, false)];
      StepBringsNobody(u, run, c);
      StepsAreBounded(u, next);
      var rest := RestIsReached(u, next);
      more := [Run(c, false)] + rest;
      assert run + more == next + rest;
    }
  }
}
