/**
Moving the active chain: the on-chain flags, the forward links and the height index, as blocks are
disconnected and connected. Whether a block connects is an answer from outside.
 */
module ChainSwitch {
  import opened Sequences
  import opened ChainTree

  /** `Next`, `BFOnChain`, the height index, the best block and `BFInvalid`. */
  datatype Index = Index(next: map<Id, Id>, onChain: set<Id>, byHeight: map<nat, Id>, best: Id, invalid: set<Id>)

  ghost predicate FlagsShow(onChain: set<Id>, p: seq<Id>) { forall b :: b in onChain <==> b in p }

  ghost predicate LinksShow(next: map<Id, Id>, p: seq<Id>) {
    && (forall b :: b in next ==> b in p[..|p| - if p == [] then 0 else 1])
    && (forall h :: 0 <= h < |p| - 1 ==> p[h] in next && next[p[h]] == p[h + 1])
  }

  ghost predicate HeightsShow(byHeight: map<nat, Id>, p: seq<Id>) {
    && (forall h :: h in byHeight ==> h < |p|)
    && (forall h :: 0 <= h < |p| ==> h in byHeight && byHeight[h] == p[h])
  }

  /** The flags, links and heights of exactly one path from genesis. */
  ghost predicate Describes(t: Tree, v: Index, tip: Id)
    requires TreeOk(t) && tip in t.nodes
  {
    FlagsShow(v.onChain, Path(t, tip)) && LinksShow(v.next, Path(t, tip)) && HeightsShow(v.byHeight, Path(t, tip))
  }

  // ---- one block -----------------------------------------------------------------------------

  /** `DisconnectBlock`: the best block is not touched. */
  function Disconnect(t: Tree, v: Index, b: Id): Index {
    v.(next := v.next - {t.prev(b)}, onChain := v.onChain - {b}, byHeight := v.byHeight - {t.height(b)})
  }

  /** `markConnected`. */
  function MarkConnected(t: Tree, v: Index, b: Id): Index {
    v.(next := v.next[t.prev(b) := b], onChain := v.onChain + {b}, byHeight := v.byHeight[t.height(b) := b])
  }

  /** `applyConnect`. */
  function Connect(t: Tree, v: Index, b: Id): Index { MarkConnected(t, v, b).(best := b) }

  lemma ParentPath(t: Tree, b: Id)
    requires TreeOk(t) && b in t.nodes && b != t.genesis
    ensures t.prev(b) in t.nodes && Path(t, b) == Path(t, t.prev(b)) + [b] && b !in Path(t, t.prev(b))
        && t.height(b) == t.height(t.prev(b)) + 1
  {
    assert NodeOk(t, b);
  }

  lemma LinksShrink(next: map<Id, Id>, q: seq<Id>, b: Id)
    requires q != [] && LinksShow(next, q + [b]) && q[|q| - 1] !in q[..|q| - 1]
    ensures LinksShow(next - {q[|q| - 1]}, q)
  {
    var p, next' := q + [b], next - {q[|q| - 1]};
    assert p[..|p| - 1] == q;
    forall h | 0 <= h < |q| - 1 ensures q[h] in next' && next'[q[h]] == q[h + 1] {
      assert p[h] == q[h] && p[h + 1] == q[h + 1];
      assert q[h] in q[..|q| - 1];
    }
  }

  lemma LinksGrow(next: map<Id, Id>, q: seq<Id>, b: Id)
    requires q != [] && LinksShow(next, q) && q[|q| - 1] !in q[..|q| - 1]
    ensures LinksShow(next[q[|q| - 1] := b], q + [b])
  {
    var p, next' := q + [b], next[q[|q| - 1] := b];
    assert p[..|p| - 1] == q;
    forall h | 0 <= h < |p| - 1 ensures p[h] in next' && next'[p[h]] == p[h + 1] {
      if h < |q| - 1 {
        assert p[h] == q[h] && p[h + 1] == q[h + 1];
        assert q[h] in q[..|q| - 1];
      }
    }
  }

  lemma TipIsNew(t: Tree, b: Id)
    requires TreeOk(t) && b in t.nodes
    ensures var p := Path(t, b); p[|p| - 1] == b && b !in p[..|p| - 1]
  {
  }

  lemma FlagsShrink(onChain: set<Id>, q: seq<Id>, b: Id)
    requires FlagsShow(onChain, q + [b]) && b !in q
    ensures FlagsShow(onChain - {b}, q)
  {
  }

  lemma FlagsGrow(onChain: set<Id>, q: seq<Id>, b: Id)
    requires FlagsShow(onChain, q)
    ensures FlagsShow(onChain + {b}, q + [b])
  {
  }

  lemma HeightsShrink(byHeight: map<nat, Id>, q: seq<Id>, b: Id)
    requires HeightsShow(byHeight, q + [b])
    ensures HeightsShow(byHeight - {|q|}, q)
  {
    assert forall h :: 0 <= h < |q| ==> (q + [b])[h] == q[h];
  }

  lemma HeightsGrow(byHeight: map<nat, Id>, q: seq<Id>, b: Id)
    requires HeightsShow(byHeight, q)
    ensures HeightsShow(byHeight[|q| := b], q + [b])
  {
  }

  lemma DisconnectKeeps(t: Tree, v: Index, b: Id)
    requires TreeOk(t) && b in t.nodes && b != t.genesis && Describes(t, v, b)
    ensures t.prev(b) in t.nodes && Describes(t, Disconnect(t, v, b), t.prev(b))
  {
    ParentPath(t, b);
    TipIsNew(t, t.prev(b));
    var q := Path(t, t.prev(b));
    LinksShrink(v.next, q, b);
    FlagsShrink(v.onChain, q, b);
    HeightsShrink(v.byHeight, q, b);
  }

  lemma MarkKeeps(t: Tree, v: Index, b: Id)
    requires TreeOk(t) && b in t.nodes && b != t.genesis && t.prev(b) in t.nodes && Describes(t, v, t.prev(b))
    ensures Describes(t, MarkConnected(t, v, b), b)
  {
    ParentPath(t, b);
    TipIsNew(t, t.prev(b));
    var q := Path(t, t.prev(b));
    LinksGrow(v.next, q, b);
    FlagsGrow(v.onChain, q, b);
    HeightsGrow(v.byHeight, q, b);
  }

  // ---- switchTo ------------------------------------------------------------------------------------

  /** The path from `b` down to `a` comes off. */
  ghost function DisconnectDown(t: Tree, v: Index, b: Id, a: Id): Index
    requires TreeOk(t) && b in t.nodes && Anc(t, a, b)
    decreases t.height(b)
  {
    if a == b then v
    else
      AboveParent(t, a, b);
      DisconnectDown(t, Disconnect(t, v, b), t.prev(b), a)
  }

  /** How many blocks of a path connect before one is refused. */
  function Accepted(path: seq<Id>, accepts: Id -> bool): nat {
    if path == [] || !accepts(path[0]) then 0 else 1 + Accepted(path[1..], accepts)
  }

  /** Blocks connected in order; the first one refused is marked invalid and ends it. */
  function ConnectAll(t: Tree, v: Index, path: seq<Id>, accepts: Id -> bool): Index
    decreases |path|
  {
    if path == [] then v
    else if accepts(path[0]) then ConnectAll(t, Connect(t, v, path[0]), path[1..], accepts)
    else v.(invalid := v.invalid + {path[0]})
  }

  /** `switchTo`; it succeeds when every block of the new path is accepted. */
  ghost function SwitchTo(t: Tree, v: Index, newBest: Id, accepts: Id -> bool): Index
    requires TreeOk(t) && newBest in t.nodes && v.best in t.nodes
  {
    LcaIsLowest(t, newBest, v.best);
    var l := Lca(t, newBest, v.best);
    ConnectAll(t, DisconnectDown(t, v, v.best, l), Above(t, l, newBest), accepts)
  }

  lemma {:induction false} DisconnectDownKeeps(t: Tree, v: Index, b: Id, a: Id)
    requires TreeOk(t) && b in t.nodes && Anc(t, a, b) && Describes(t, v, b)
    ensures a in t.nodes && Describes(t, DisconnectDown(t, v, b, a), a) && DisconnectDown(t, v, b, a).best == v.best
    decreases t.height(b)
  {
    if a != b {
      AboveParent(t, a, b);
      DisconnectKeeps(t, v, b);
      DisconnectDownKeeps(t, Disconnect(t, v, b), t.prev(b), a);
    }
  }

  ghost predicate StepUp(t: Tree, a: Id, b: Id) { b in t.nodes && b != t.genesis && t.prev(b) == a }

  /** A path upward from a block. */
  ghost predicate Upward(t: Tree, from: Id, path: seq<Id>) {
    && (path != [] ==> StepUp(t, from, path[0]))
    && (forall k :: 0 < k < |path| ==> StepUp(t, path[k - 1], path[k]))
  }

  lemma UpwardParts(t: Tree, from: Id, path: seq<Id>)
    requires Upward(t, from, path) && path != []
    ensures Upward(t, path[0], path[1..]) && Upward(t, from, path[..|path| - 1])
    ensures StepUp(t, if |path| == 1 then from else path[|path| - 2], path[|path| - 1])
  {
    var rest := path[1..];
    forall k | 0 < k < |rest| ensures StepUp(t, rest[k - 1], rest[k]) {
      assert StepUp(t, path[k + 1 - 1], path[k + 1]);
    }
    assert |path| > 1 ==> StepUp(t, path[1 - 1], path[1]);
    assert |path| > 1 ==> StepUp(t, path[|path| - 1 - 1], path[|path| - 1]);
  }

  ghost function Tip(from: Id, path: seq<Id>, n: nat): Id
    requires n <= |path|
  {
    if n == 0 then from else path[n - 1]
  }

  lemma {:induction false} AcceptedFits(path: seq<Id>, accepts: Id -> bool)
    ensures Accepted(path, accepts) <= |path|
    ensures forall k :: 0 <= k < Accepted(path, accepts) ==> accepts(path[k])
    ensures Accepted(path, accepts) < |path| ==> !accepts(path[Accepted(path, accepts)])
  {
    if path != [] && accepts(path[0]) {
      AcceptedFits(path[1..], accepts);
    }
  }

  lemma {:induction false} ConnectAllKeeps(t: Tree, v: Index, from: Id, path: seq<Id>, accepts: Id -> bool)
    requires TreeOk(t) && from in t.nodes && Describes(t, v, from) && Upward(t, from, path)
    ensures var k, w := Accepted(path, accepts), ConnectAll(t, v, path, accepts);
            && k <= |path| && Tip(from, path, k) in t.nodes && Describes(t, w, Tip(from, path, k))
            && w.best == (if k == 0 then v.best else Tip(from, path, k))
            && w.invalid == (if k < |path| then v.invalid + {path[k]} else v.invalid)
    decreases |path|
  {
    AcceptedFits(path, accepts);
    if path != [] && accepts(path[0]) {
      UpwardParts(t, from, path);
      MarkKeeps(t, v, path[0]);
      assert Describes(t, Connect(t, v, path[0]), path[0]);
      ConnectAllKeeps(t, Connect(t, v, path[0]), path[0], path[1..], accepts);
    }
  }

  lemma AboveIsUpward(t: Tree, a: Id, b: Id)
    requires TreeOk(t) && b in t.nodes && Anc(t, a, b)
    ensures Upward(t, a, Above(t, a, b)) && (Above(t, a, b) != [] ==> Above(t, a, b)[|Above(t, a, b)| - 1] == b)
        && (Above(t, a, b) == [] <==> a == b)
  {
    PathPrefix(t, a, b);
    var p := Path(t, b);
    assert p[t.height(a)] == a;
    var up := Above(t, a, b);
    forall k | 0 < k < |up| ensures StepUp(t, up[k - 1], up[k]) {
      assert up[k] == p[t.height(a) + 1 + k] && up[k - 1] == p[t.height(a) + k];
    }
  }

  /**
  Whatever blocks are refused, the flags, links and heights describe one path: up to the new best,
  or up to the parent of the block refused. The recorded best is its tip exactly when some block
  connected or none had to come off.
   */
  lemma SwitchToKeeps(t: Tree, v: Index, newBest: Id, accepts: Id -> bool)
    requires TreeOk(t) && newBest in t.nodes && v.best in t.nodes && Describes(t, v, v.best)
    ensures Anc(t, Lca(t, newBest, v.best), newBest)
    ensures var l := Lca(t, newBest, v.best); var path := Above(t, l, newBest);
        var k, w := Accepted(path, accepts), SwitchTo(t, v, newBest, accepts);
            && k <= |path| && Tip(l, path, k) in t.nodes && Describes(t, w, Tip(l, path, k))
            && (k == |path| ==> Tip(l, path, k) == newBest)
            && (w.best == Tip(l, path, k) <==> k > 0 || l == v.best)
  {
    var l := Lca(t, newBest, v.best);
    LcaIsLowest(t, newBest, v.best);
    DisconnectDownKeeps(t, v, v.best, l);
    AboveIsUpward(t, l, newBest);
    ConnectAllKeeps(t, DisconnectDown(t, v, v.best, l), l, Above(t, l, newBest), accepts);
  }

  // ---- connectSegment -----------------------------------------------------------------------------------

  function MarkAll(t: Tree, v: Index, segment: seq<Id>): Index {
    if segment == [] then v else MarkConnected(t, MarkAll(t, v, segment[..|segment| - 1]), segment[|segment| - 1])
  }

  predicate AllComplete(completable: seq<bool>) { forall k :: 0 <= k < |completable| ==> completable[k] }

  datatype Result = Aborted | Done(index: Index, ok: bool)

  /** The segment's blocks in order, on a block of the tree. */
  ghost predicate SegmentOk(t: Tree, segment: seq<Id>) {
    segment != [] && t.prev(segment[0]) in t.nodes && Upward(t, t.prev(segment[0]), segment)
  }

  /** `connectSegment`, with the wave's verdict on each block given. */
  ghost function ConnectSegment(t: Tree, v: Index, segment: seq<Id>, completable: seq<bool>,
        accepts: Id -> bool): Result
    requires TreeOk(t) && v.best in t.nodes && SegmentOk(t, segment)
  {
    var base := t.prev(segment[0]);
    LcaIsLowest(t, base, v.best);
    var path := Above(t, Lca(t, base, v.best), base);
    if base != v.best && Accepted(path, accepts) < |path| then Aborted
    else
      var w := if base == v.best then v else SwitchTo(t, v, base, accepts);
      if AllComplete(completable) then Done(MarkAll(t, w, segment).(best := segment[|segment| - 1]), true)
          else Done(w, false)
  }

  lemma {:induction false} MarkAllKeeps(t: Tree, v: Index, from: Id, segment: seq<Id>)
    requires TreeOk(t) && from in t.nodes && Describes(t, v, from) && Upward(t, from, segment)
    ensures Tip(from, segment, |segment|) in t.nodes
        && Describes(t, MarkAll(t, v, segment), Tip(from, segment, |segment|)) && MarkAll(t, v, segment).best == v.best
  {
    if segment != [] {
      var init := segment[..|segment| - 1];
      UpwardParts(t, from, segment);
      MarkAllKeeps(t, v, from, init);
      MarkKeeps(t, MarkAll(t, v, init), segment[|segment| - 1]);
    }
  }

  ghost predicate Rollback(t: Tree, v: Index, base: Id)
    requires TreeOk(t) && v.best in t.nodes
  {
    base != v.best && Anc(t, base, v.best)
  }

  lemma BaseReached(t: Tree, v: Index, base: Id, accepts: Id -> bool)
    requires TreeOk(t) && v.best in t.nodes && base in t.nodes && Describes(t, v, v.best) && base != v.best
    requires Anc(t, Lca(t, base, v.best), base)
        && Accepted(Above(t, Lca(t, base, v.best), base), accepts) == |Above(t, Lca(t, base, v.best), base)|
    ensures Describes(t, SwitchTo(t, v, base, accepts), base)
    ensures SwitchTo(t, v, base, accepts).best == base <==> !Rollback(t, v, base)
  {
    var l := Lca(t, base, v.best);
    SwitchToKeeps(t, v, base, accepts);
    AboveIsUpward(t, l, base);
    LcaIsLowest(t, base, v.best);
    if Anc(t, base, v.best) {
      assert Path(t, base)[t.height(base)] == base;
      PathPrefix(t, base, l);
      PathPrefix(t, l, base);
    }
  }

  /**
  Starting from a best block that is the tip, connecting a segment leaves one path described: up to
  the segment's last block, or, when some block of it is cut, up to the block under it.
   */
  lemma ConnectSegmentKeeps(t: Tree, v: Index, segment: seq<Id>, completable: seq<bool>, accepts: Id -> bool)
    requires TreeOk(t) && v.best in t.nodes && SegmentOk(t, segment) && Describes(t, v, v.best)
    ensures var r := ConnectSegment(t, v, segment, completable, accepts);
            r.Done? ==>
              var tip := if r.ok then segment[|segment| - 1] else t.prev(segment[0]);
              tip in t.nodes && Describes(t, r.index, tip) && (r.ok ==> r.index.best == tip)
    ensures var r := ConnectSegment(t, v, segment, completable, accepts);
        r.Done? ==> (r.ok <==> AllComplete(completable))
  {
    var base := t.prev(segment[0]);
    LcaIsLowest(t, base, v.best);
    if base != v.best {
      AcceptedFits(Above(t, Lca(t, base, v.best), base), accepts);
    }
    if ConnectSegment(t, v, segment, completable, accepts).Done? {
      if base != v.best {
        BaseReached(t, v, base, accepts);
      }
      var w := if base == v.best then v else SwitchTo(t, v, base, accepts);
      MarkAllKeeps(t, w, base, segment);
    }
  }

  /**
  After a segment was cut the recorded best block is the tip of the chain exactly when the segment
  did not ask for a plain roll-back: nothing sets it when blocks only come off.
   */
  lemma BestAfterCut(t: Tree, v: Index, segment: seq<Id>, completable: seq<bool>, accepts: Id -> bool)
    requires TreeOk(t) && v.best in t.nodes && SegmentOk(t, segment) && Describes(t, v, v.best)
    requires ConnectSegment(t, v, segment, completable, accepts).Done? && !AllComplete(completable)
    ensures ConnectSegment(t, v, segment, completable, accepts).index.best == t.prev(segment[0]) <==>
        !Rollback(t, v, t.prev(segment[0]))
  {
    var base := t.prev(segment[0]);
    LcaIsLowest(t, base, v.best);
    if base != v.best {
      AcceptedFits(Above(t, Lca(t, base, v.best), base), accepts);
      BaseReached(t, v, base, accepts);
    }
  }

  /** The flags describe one path at most. */
  lemma TipIsUnique(t: Tree, v: Index, tip: Id, tip': Id)
    requires TreeOk(t) && tip in t.nodes && tip' in t.nodes && Describes(t, v, tip) && Describes(t, v, tip')
    ensures tip == tip'
  {
    assert tip in Path(t, tip) by { assert Path(t, tip)[t.height(tip)] == tip; }
    assert tip' in Path(t, tip') by { assert Path(t, tip')[t.height(tip')] == tip'; }
    PathPrefix(t, tip, tip');
    PathPrefix(t, tip', tip);
  }

  /** The next call again starts from a best block that is the tip, exactly when this one was not a cut roll-back. */
  lemma BestStaysTip(t: Tree, v: Index, segment: seq<Id>, completable: seq<bool>, accepts: Id -> bool)
    requires TreeOk(t) && v.best in t.nodes && SegmentOk(t, segment) && Describes(t, v, v.best)
    requires ConnectSegment(t, v, segment, completable, accepts).Done?
    ensures var w := ConnectSegment(t, v, segment, completable, accepts).index;
            w.best in t.nodes && Describes(t, w, w.best) <==>
                AllComplete(completable) || !Rollback(t, v, t.prev(segment[0]))
  {
    var w := ConnectSegment(t, v, segment, completable, accepts).index;
    ConnectSegmentKeeps(t, v, segment, completable, accepts);
    if !AllComplete(completable) {
      BestAfterCut(t, v, segment, completable, accepts);
      if w.best in t.nodes && Describes(t, w, w.best) {
        TipIsUnique(t, w, w.best, t.prev(segment[0]));
      }
    }
  }

  // ---- what a stale best block leads to -------------------------------------------------------------------

  /** Genesis 0, two children 1 and 2, and 3 on top of 1. */
  function Fork(): Tree {
    Tree(0, {0, 1, 2, 3}, (b: Id) => if b == 3 then 1 else 0, (b: Id) => if b == 3 then 2 else if b == 0 then 0 else 1)
  }

  const FIRST := Index(map[0 := 1], {0, 1}, map[0 := 0, 1 := 1], 1, {})

  lemma ForkPaths()
    ensures TreeOk(Fork()) && Path(Fork(), 0) == [0] && Path(Fork(), 1) == [0, 1] && Path(Fork(), 2) == [0, 2]
        && Path(Fork(), 3) == [0, 1, 3]
  {
    var t := Fork();
    assert TreeOk(t);
    assert Path(t, 1) == Path(t, 0) + [1];
    assert Path(t, 2) == Path(t, 0) + [2];
    assert Path(t, 3) == Path(t, 1) + [3];
  }

  /**
  With 1 the tip, a segment of block 2 that is cut takes 1 off and leaves it the recorded best; the
  segment of block 3 that follows finds its parent recorded as best, switches nothing, and leaves
  flags that describe no path at all.
   */
  lemma StaleBestBreaksTheChain(accepts: Id -> bool)
    ensures TreeOk(Fork()) && Describes(Fork(), FIRST, 1) && SegmentOk(Fork(), [2]) && SegmentOk(Fork(), [3])
    ensures var cut := ConnectSegment(Fork(), FIRST, [2], [false], accepts);
            && cut.Done? && !cut.ok && Describes(Fork(), cut.index, 0) && cut.index.best == 1
            && var next := ConnectSegment(Fork(), cut.index, [3], [true], accepts);
               next.Done? && next.ok && forall tip :: tip in Fork().nodes ==> !Describes(Fork(), next.index, tip)
  {
    ForkPaths();
    FirstCut(accepts);
    NextBreaks(accepts);
  }

  const CUT := Index(map[], {0}, map[0 := 0], 1, {})

  lemma FirstCut(accepts: Id -> bool)
    requires TreeOk(Fork()) && Path(Fork(), 0) == [0] && Path(Fork(), 1) == [0, 1]
    ensures SegmentOk(Fork(), [2]) && ConnectSegment(Fork(), FIRST, [2], [false], accepts) == Done(CUT, false)
    ensures Describes(Fork(), FIRST, 1) && Describes(Fork(), CUT, 0)
  {
    var t := Fork();
    assert Lca(t, 0, 1) == 0;
    LcaIsLowest(t, 0, 1);
    assert Above(t, 0, 0) == [];
    assert DisconnectDown(t, FIRST, 1, 0) == Disconnect(t, FIRST, 1) == CUT;
    assert SwitchTo(t, FIRST, 0, accepts) == CUT;
    assert ![false][0];
    CutDescribes();
  }

  lemma CutDescribes()
    requires TreeOk(Fork()) && Path(Fork(), 0) == [0] && Path(Fork(), 1) == [0, 1]
    ensures Describes(Fork(), FIRST, 1) && Describes(Fork(), CUT, 0)
  {
  }

  lemma NextBreaks(accepts: Id -> bool)
    requires TreeOk(Fork()) && Path(Fork(), 0) == [0] && Path(Fork(), 1) == [0, 1] && Path(Fork(), 2) == [0, 2]
        && Path(Fork(), 3) == [0, 1, 3]
    ensures SegmentOk(Fork(), [3])
    ensures var next := ConnectSegment(Fork(), CUT, [3], [true], accepts);
            next.Done? && next.ok && forall tip :: tip in Fork().nodes ==> !Describes(Fork(), next.index, tip)
  {
    var t := Fork();
    var next := ConnectSegment(t, CUT, [3], [true], accepts);
    assert [3][..0] == [];
    assert MarkAll(t, CUT, [3]) == MarkConnected(t, CUT, 3);
    var on := next.index.onChain;
    assert 3 in on && 1 !in on;
    forall tip | tip in t.nodes ensures !FlagsShow(on, Path(t, tip)) {
      assert 1 in [0, 1, 3];
      assert 3 !in [0] && 3 !in [0, 1] && 3 !in [0, 2];
    }
  }

  // ---- the index as it is updated ----------------------------------------------------------------------------

  class BlockInMemoryIndex {
    const tree: Tree
    var next: map<Id, Id>
    var onChain: set<Id>
    var byHeight: map<nat, Id>
    var best: Id
    var invalid: set<Id>

    ghost function View(): Index
      reads this
    {
      Index(next, onChain, byHeight, best, invalid)
    }

    /** Genesis on its own. */
    constructor (t: Tree)
      requires TreeOk(t)
      ensures tree == t && best == t.genesis && Describes(t, View(), best)
    {
      tree := t;
      next, onChain, byHeight, best, invalid := map[], {t.genesis}, map[0 := t.genesis], t.genesis, {};
      new;
      assert Path(t, t.genesis) == [t.genesis];
    }

    method DisconnectBlock(b: Id)
      modifies this
      ensures View() == Disconnect(tree, old(View()), b)
    {
      next := next - {tree.prev(b)};
      onChain := onChain - {b};
      byHeight := byHeight - {tree.height(b)};
    }

    method Mark(b: Id)
      modifies this
      ensures View() == MarkConnected(tree, old(View()), b)
    {
      next := next[tree.prev(b) := b];
      onChain := onChain + {b};
      byHeight := byHeight[tree.height(b) := b];
    }

    /** `switchTo`: down both paths to where they meet, the old one coming off, then up the new one. */
    method Switch(newBest: Id, accepts: Id -> bool) returns (ok: bool)
      requires TreeOk(tree) && newBest in tree.nodes && best in tree.nodes
      modifies this
      ensures View() == SwitchTo(tree, old(View()), newBest, accepts)
      ensures Anc(tree, Lca(tree, newBest, old(best)), newBest)
      ensures var path := Above(tree, Lca(tree, newBest, old(best)), newBest); ok <==> Accepted(path, accepts) == |path|
    {
      ghost var l := Lca(tree, newBest, best);
      WalksOpen(tree, newBest, best);
      var currentBest := best;
      var x, y, newPath := newBest, best, [];
      while tree.height(x) > tree.height(currentBest)
        invariant x in tree.nodes && Lca(tree, x, y) == l && PathWalk(tree, l, newBest, x, newPath)
            && View() == old(View())
        decreases tree.height(x)
      {
        LcaHeights(tree, x, y);
        PathStep(tree, l, newBest, x, newPath);
        newPath, x := newPath + [x], tree.prev(x);
      }
      while tree.height(y) > tree.height(x)
        invariant OffWalk(tree, l, old(View()), y, View()) && Lca(tree, x, y) == l && tree.height(y) >= tree.height(x)
        decreases tree.height(y)
      {
        LcaHeights(tree, x, y);
        OffStep(tree, l, old(View()), y, View());
        DisconnectBlock(y);
        y := tree.prev(y);
      }
      while x != y
        invariant PathWalk(tree, l, newBest, x, newPath) && OffWalk(tree, l, old(View()), y, View())
        invariant tree.height(x) == tree.height(y) && Lca(tree, x, y) == l
        decreases tree.height(x)
      {
        LcaHeights(tree, x, y);
        ApartIsBelow(tree, x, y);
        OnlyGenesisIsZero(tree, x, y);
        PathStep(tree, l, newBest, x, newPath);
        OffStep(tree, l, old(View()), y, View());
        newPath := newPath + [x];
        DisconnectBlock(y);
        x, y := tree.prev(x), tree.prev(y);
      }
      PathWalked(tree, l, newBest, newPath);
      ok := ConnectPath(newPath, accepts);
    }

    /** The new path, gathered tip first, connects from its far end. */
    method ConnectPath(newPath: seq<Id>, accepts: Id -> bool) returns (ok: bool)
      modifies this
      ensures View() == ConnectAll(tree, old(View()), Reversed(newPath), accepts)
      ensures ok <==> Accepted(Reversed(newPath), accepts) == |newPath|
    {
      var n := |newPath|;
      assert newPath[..n] == newPath;
      while n > 0
        invariant 0 <= n <= |newPath|
        invariant ConnectAll(tree, View(), Reversed(newPath[..n]), accepts)
            == ConnectAll(tree, old(View()), Reversed(newPath), accepts)
        invariant Accepted(Reversed(newPath), accepts) == |newPath| - n + Accepted(Reversed(newPath[..n]), accepts)
        decreases n
      {
        ghost var rest := newPath[..n];
        assert rest[..n - 1] == newPath[..n - 1] && Reversed(rest) == [newPath[n - 1]] + Reversed(newPath[..n - 1]);
        assert Reversed(rest)[1..] == Reversed(newPath[..n - 1]);
        var b := newPath[n - 1];
        if !accepts(b) {
          invalid := invalid + {b};
          return false;
        }
        Mark(b);
        best := b;
        n := n - 1;
      }
      return true;
    }

    /** `connectSegment`, from a best block that is the tip. */
    method ConnectRun(segment: seq<Id>, completable: seq<bool>, accepts: Id -> bool) returns (aborted: bool, ok: bool)
      requires TreeOk(tree) && best in tree.nodes && SegmentOk(tree, segment)
      modifies this
      ensures aborted <==> ConnectSegment(tree, old(View()), segment, completable, accepts).Aborted?
      ensures !aborted ==> ConnectSegment(tree, old(View()), segment, completable, accepts) == Done(View(), ok)
    {
      var base := tree.prev(segment[0]);
      aborted, ok := false, true;
      LcaIsLowest(tree, base, best);
      AcceptedFits(Above(tree, Lca(tree, base, best), base), accepts);
      if base != best {
        var switched := Switch(base, accepts);
        if !switched {
          return true, false;
        }
      }
      ok := FirstCutOff(completable);
      if !ok {
        return;
      }
      MarkEach(segment);
      best := segment[|segment| - 1];
    }

    /** The scan for a block that cannot be completed. */
    static method FirstCutOff(completable: seq<bool>) returns (whole: bool)
      ensures whole == AllComplete(completable)
    {
      for i := 0 to |completable|
        invariant forall k :: 0 <= k < i ==> completable[k]
      {
        if !completable[i] {
          return false;
        }
      }
      return true;
    }

    method MarkEach(segment: seq<Id>)
      modifies this
      ensures View() == MarkAll(tree, old(View()), segment)
    {
      for i := 0 to |segment|
        invariant View() == MarkAll(tree, old(View()), segment[..i])
      {
        assert segment[..i + 1][..i] == segment[..i];
        Mark(segment[i]);
      }
      assert segment[..|segment|] == segment;
    }
  }

  /** Down the new path, gathering it tip first. */
  ghost predicate PathWalk(t: Tree, l: Id, newBest: Id, x: Id, newPath: seq<Id>)
    requires TreeOk(t) && newBest in t.nodes
  {
    Anc(t, l, newBest) && OldWalk(t, l, newBest, x, newPath)
  }

  lemma PathStep(t: Tree, l: Id, newBest: Id, x: Id, newPath: seq<Id>)
    requires TreeOk(t) && newBest in t.nodes && PathWalk(t, l, newBest, x, newPath) && x != l
    ensures x != t.genesis && PathWalk(t, l, newBest, t.prev(x), newPath + [x]) && t.height(t.prev(x)) < t.height(x)
  {
    OldStep(t, l, newBest, x, newPath);
  }

  lemma PathWalked(t: Tree, l: Id, newBest: Id, newPath: seq<Id>)
    requires TreeOk(t) && newBest in t.nodes && PathWalk(t, l, newBest, l, newPath)
    ensures Reversed(newPath) == Above(t, l, newBest) && |newPath| == |Above(t, l, newBest)|
  {
    PathPrefix(t, l, l);
    assert Above(t, l, l) == [];
    assert newPath + [] == newPath;
    ReversedTwice(Above(t, l, newBest));
  }

  /** Down the old path, taking it off: what is left comes off from `y`. */
  ghost predicate OffWalk(t: Tree, l: Id, was: Index, y: Id, v: Index)
    requires TreeOk(t) && was.best in t.nodes
  {
    y in t.nodes && Anc(t, l, was.best) && Anc(t, l, y)
        && DisconnectDown(t, v, y, l) == DisconnectDown(t, was, was.best, l)
  }

  lemma OffStep(t: Tree, l: Id, was: Index, y: Id, v: Index)
    requires TreeOk(t) && was.best in t.nodes && OffWalk(t, l, was, y, v) && y != l
    ensures y != t.genesis && OffWalk(t, l, was, t.prev(y), Disconnect(t, v, y)) && t.height(t.prev(y)) < t.height(y)
  {
    AboveParent(t, l, y);
    assert NodeOk(t, y);
  }
}
