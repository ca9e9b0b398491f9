/**
The verdict of a segment: the first block cut off by linking and the residual wave is the first
block the plain connect refuses, and up to there every linked coin is the coin the plain connect
spends.
 */
module SegmentVerdict {
  import opened SegmentModel
  import opened SegmentTopology
  import opened SegmentSimulation
  import opened SegmentSteps

  // ---- the residual wave and the cut ----------------------------------------------------------

  /** `Completable` of a block once the wave is over. */
  ghost predicate Completable(p: Params, blocks: seq<Block>, base: Ledger, l: Link, k: nat)
    requires k < |l.completable|
  {
    l.completable[k]
        && forall r :: 0 <= r < |l.residual| && l.residual[r].block == k ==> Answered(p, blocks, base, l.residual[r])
  }

  /** The first block, from `k` on, that is not completable. */
  ghost function FailedFrom(p: Params, blocks: seq<Block>, base: Ledger, l: Link, k: nat): nat
    requires k <= |l.completable|
    decreases |l.completable| - k
  {
    if k == |l.completable| || !Completable(p, blocks, base, l, k) then k else FailedFrom(p, blocks, base, l, k + 1)
  }

  lemma {:induction false} FailedIsFirst(p: Params, blocks: seq<Block>, base: Ledger, l: Link, k: nat)
    requires k <= |l.completable|
    ensures var f := FailedFrom(p, blocks, base, l, k);
            && k <= f <= |l.completable|
            && (forall i :: k <= i < f ==> Completable(p, blocks, base, l, i))
            && (f < |l.completable| ==> !Completable(p, blocks, base, l, f))
    decreases |l.completable| - k
  {
    if k == |l.completable| || !Completable(p, blocks, base, l, k) {
    } else {
      FailedIsFirst(p, blocks, base, l, k + 1);
    }
  }

  // ---- later blocks only add --------------------------------------------------------------------

  /** What the linker found up to a point is there later, and what is added lies beyond it. */
  ghost predicate Extends(l: Link, l': Link, pos: nat, ordinal: nat) {
    && l.residual <= l'.residual && l.spends <= l'.spends && l.inMarks <= l'.inMarks && l.completable <= l'.completable
    && (forall k :: |l.residual| <= k < |l'.residual| ==>
         !Before((l'.residual[k].block, l'.residual[k].ordinal), pos, ordinal))
    && (forall key :: key in l'.inMarks && key !in l.inMarks ==> !Before(key, pos, ordinal))
    && (forall key :: key in l.linked ==> key in l'.linked)
    && (forall key :: key in l'.linked && Before(key, pos, ordinal) ==>
         key in l.linked && l'.linked[key] == l.linked[key])
  }

  predicate AtOrAfter(pos: nat, ordinal: nat, pos': nat, ordinal': nat) {
    pos < pos' || (pos == pos' && ordinal <= ordinal')
  }

  lemma ExtendsTrans(l: Link, l': Link, l'': Link, pos: nat, ordinal: nat, pos': nat, ordinal': nat)
    requires Extends(l, l', pos, ordinal) && Extends(l', l'', pos', ordinal') && AtOrAfter(pos, ordinal, pos', ordinal')
    ensures Extends(l, l'', pos, ordinal)
  {
    forall k | |l.residual| <= k < |l''.residual|
        ensures !Before((l''.residual[k].block, l''.residual[k].ordinal), pos, ordinal) {
      if k < |l'.residual| {
        assert l''.residual[k] == l'.residual[k];
      }
    }
  }

  lemma InputExtends(p: Params, blocks: seq<Block>, tops: seq<Topology>, pos: nat, i: nat, j: nat, l: Link)
    requires pos < |blocks| == |tops| && i <= |blocks[pos].txs| && j < Width(blocks[pos], i)
    ensures Extends(l, LinkInput(p, blocks, tops, pos, l, i, j), pos, InBase(blocks[pos], i) + j)
    ensures LinkInput(p, blocks, tops, pos, l, i, j).ok ==> l.ok
    ensures LinkInput(p, blocks, tops, pos, l, i, j).completable == l.completable
  {
    var b, o, ordinal := blocks[pos], Spends(blocks[pos], i, j), InBase(blocks[pos], i) + j;
    match LocalTx(tops[pos], ordinal)
    case Some(k) =>
      LocalExtends(p, b, pos, l, o, ordinal, k);
      Picked(l, LinkLocal(p, b, pos, l, o, ordinal, k), LinkInput(p, blocks, tops, pos, l, i, j), pos, ordinal);
    case None =>
      if o.tx in l.table {
        EarlierExtends(p, blocks, tops, pos, l, o, ordinal, l.table[o.tx]);
        Picked(l, LinkEarlier(p, blocks, tops, pos, l, o, ordinal, l.table[o.tx]),
            LinkInput(p, blocks, tops, pos, l, i, j), pos, ordinal);
      } else {
        ResidualExtends(pos, l, o, i, j, ordinal);
        Picked(l, LinkResidual(pos, l, o, i, j, ordinal), LinkInput(p, blocks, tops, pos, l, i, j), pos, ordinal);
      }
  }

  ghost predicate ExtendsOk(l: Link, l': Link, pos: nat, ordinal: nat) {
    Extends(l, l', pos, ordinal) && (l'.ok ==> l.ok) && l'.completable == l.completable
  }

  lemma Picked(l: Link, l': Link, l'': Link, pos: nat, ordinal: nat)
    requires ExtendsOk(l, l', pos, ordinal) && l'' == l'
    ensures Extends(l, l'', pos, ordinal) && (l''.ok ==> l.ok) && l''.completable == l.completable
  {
  }

  lemma LocalExtends(p: Params, b: Block, pos: nat, l: Link, o: Outpoint, ordinal: nat, k: nat)
    ensures ExtendsOk(l, LinkLocal(p, b, pos, l, o, ordinal, k), pos, ordinal)
  {
  }

  lemma EarlierExtends(p: Params, blocks: seq<Block>, tops: seq<Topology>, pos: nat, l: Link, o: Outpoint, ordinal: nat,
        slot: Slot)
    requires pos < |blocks| == |tops|
    ensures ExtendsOk(l, LinkEarlier(p, blocks, tops, pos, l, o, ordinal, slot), pos, ordinal)
  {
  }

  lemma ResidualExtends(pos: nat, l: Link, o: Outpoint, i: nat, j: nat, ordinal: nat)
    ensures ExtendsOk(l, LinkResidual(pos, l, o, i, j, ordinal), pos, ordinal)
  {
  }

  predicate PlaceOrder(b: Block, i: nat, j: nat, i': nat, j': nat) {
    Place(b, i, j) && Place(b, i', j') && NoLater(i, j, i', j')
  }

  lemma {:induction false} InBaseMonotone(b: Block, i: nat, j: nat, i': nat, j': nat)
    requires PlaceOrder(b, i, j, i', j')
    ensures InBase(b, i) + j <= InBase(b, i') + j'
    decreases i'
  {
    if i < i' {
      InBaseMonotone(b, i, j, i' - 1, Width(b, i' - 1));
    }
  }

  lemma InputExtendsFrom(p: Params, blocks: seq<Block>, tops: seq<Topology>, pos: nat, ordinal: nat, a: Link, y: Link,
        i: nat, j: nat)
    requires pos < |blocks| == |tops| && i <= |blocks[pos].txs| && j < Width(blocks[pos], i)
        && ordinal <= InBase(blocks[pos], i) + j
    requires Further(a, y, pos, ordinal)
    ensures Further(a, LinkInput(p, blocks, tops, pos, y, i, j), pos, ordinal)
  {
    InputExtends(p, blocks, tops, pos, i, j, y);
    ExtendsTrans(a, y, LinkInput(p, blocks, tops, pos, y, i, j), pos, ordinal, pos, InBase(blocks[pos], i) + j);
  }

  /** One point of a block's walk and a later one. */
  ghost predicate Further(a: Link, z: Link, pos: nat, ordinal: nat) {
    Extends(a, z, pos, ordinal) && (z.ok ==> a.ok) && a.completable == z.completable
  }

  /** The rest of a walk adds to what the walk found up to a place. */
  lemma {:induction false} WalkExtends(p: Params, blocks: seq<Block>, tops: seq<Topology>, pos: nat, l: Link, i: nat,
        j: nat, i': nat, j': nat)
    requires pos < |blocks| == |tops| && PlaceOrder(blocks[pos], i, j, i', j')
    ensures var a, z := LinkAt(p, blocks, tops, pos, l, i, j), LinkAt(p, blocks, tops, pos, l, i', j');
            Further(a, z, pos, InBase(blocks[pos], i) + j)
    decreases i', j'
  {
    var b := blocks[pos];
    if i == i' && j == j' {
    } else if j' > 0 {
      WalkExtends(p, blocks, tops, pos, l, i, j, i', j' - 1);
      InBaseMonotone(b, i, j, i', j' - 1);
      InputExtendsFrom(p, blocks, tops, pos, InBase(b, i) + j, LinkAt(p, blocks, tops, pos, l, i, j),
          LinkAt(p, blocks, tops, pos, l, i', j' - 1), i', j' - 1);
    } else {
      WalkExtends(p, blocks, tops, pos, l, i, j, i' - 1, Width(b, i' - 1));
    }
  }

  lemma {:induction false} InsertKeeps(blocks: seq<Block>, tops: seq<Topology>, pos: nat, l: Link, n: nat)
    requires pos < |blocks| == |tops| && n <= |blocks[pos].txs|
    ensures var l' := InsertTxs(blocks, tops, pos, l, n);
            && l'.residual == l.residual && l'.spends == l.spends && l'.inMarks == l.inMarks
                 && l'.outMarks == l.outMarks
            && l'.linked == l.linked && (l'.ok ==> l.ok)
  {
    if n > 0 {
      InsertKeeps(blocks, tops, pos, l, n - 1);
    }
  }

  lemma BlockExtends(p: Params, blocks: seq<Block>, tops: seq<Topology>, pos: nat, l: Link)
    requires pos < |blocks| == |tops|
    ensures Extends(l, LinkBlock(p, blocks, tops, pos, l), pos, 0)
    ensures var cs := LinkBlock(p, blocks, tops, pos, l).completable;
        |cs| == |l.completable| + 1 && cs[..|l.completable|] == l.completable
  {
    var b, l0 := blocks[pos], l.(ok := true);
    if !tops[pos].invalid {
      WalkExtends(p, blocks, tops, pos, l0, 0, 0, |b.txs|, 0);
      var l1 := LinkAt(p, blocks, tops, pos, l0, |b.txs|, 0);
      InsertKeeps(blocks, tops, pos, l1, |b.txs|);
    }
  }

  lemma {:induction false} BlocksExtend(p: Params, blocks: seq<Block>, tops: seq<Topology>, n: nat, m: nat)
    requires n <= m <= |blocks| == |tops|
    ensures Extends(LinkBlocks(p, blocks, tops, n), LinkBlocks(p, blocks, tops, m), n, 0)
    ensures |LinkBlocks(p, blocks, tops, m).completable| == m
    decreases m
  {
    if m > 0 {
      BlockExtends(p, blocks, tops, m - 1, LinkBlocks(p, blocks, tops, m - 1));
      if n < m {
        BlocksExtend(p, blocks, tops, n, m - 1);
        ExtendsTrans(LinkBlocks(p, blocks, tops, n), LinkBlocks(p, blocks, tops, m - 1), LinkBlocks(p, blocks, tops, m),
            n, 0, m - 1, 0);
      } else {
        BlocksExtend(p, blocks, tops, m - 1, m - 1);
      }
    }
  }

  // ---- in step over the whole segment ------------------------------------------------------------

  lemma SegmentStarts(p: Params, blocks: seq<Block>, base: Ledger)
    requires Distinct(blocks) && NotLive(blocks, base)
    ensures var tops := Topologies(blocks);
            Between(p, blocks, tops, base, 0, LinkBlocks(p, blocks, tops, 0), SeqBlocks(p, blocks, base, 0))
  {
    forall o ensures LedgerAt(blocks, Topologies(blocks), base, NO_LINK, base, o) {
    }
  }

  lemma {:induction false} SegmentInStep(p: Params, blocks: seq<Block>, base: Ledger, n: nat)
    requires Distinct(blocks) && NotLive(blocks, base) && n <= |blocks|
    ensures var tops := Topologies(blocks);
            Between(p, blocks, tops, base, n, LinkBlocks(p, blocks, tops, n), SeqBlocks(p, blocks, base, n))
  {
    hide Between, LinkBlock, SeqBlock, Distinct, NotLive;
    var tops := Topologies(blocks);
    if n == 0 {
      SegmentStarts(p, blocks, base);
    } else {
      assert Setting(blocks, tops, base, n - 1);
      SegmentInStep(p, blocks, base, n - 1);
      BlockStep(p, blocks, tops, base, n - 1, LinkBlocks(p, blocks, tops, n - 1), SeqBlocks(p, blocks, base, n - 1));
    }
  }

  /** The verdicts up to a block, from the whole segment's or from its own point of view. */
  lemma PrefixClear(p: Params, blocks: seq<Block>, base: Ledger, n: nat, l: Link, z: Link)
    requires Wf(blocks, n, 0, l) && Extends(l, z, n, 0) && |l.completable| == n
    ensures (AllTrue(l.completable) && AllAnswered(p, blocks, base, l.residual)) <==>
        forall k :: 0 <= k < n ==> Completable(p, blocks, base, z, k)
  {
    assert forall k :: 0 <= k < n ==> z.completable[k] == l.completable[k];
    assert forall r :: 0 <= r < |l.residual| ==> z.residual[r] == l.residual[r];
    if forall k :: 0 <= k < n ==> Completable(p, blocks, base, z, k) {
      forall k | 0 <= k < n ensures l.completable[k] {
        assert Completable(p, blocks, base, z, k);
      }
      forall r | 0 <= r < |l.residual| ensures Answered(p, blocks, base, l.residual[r]) {
        assert ResidualWf(blocks, n, 0, l, l.residual[r]);
        assert Completable(p, blocks, base, z, l.residual[r].block);
        assert z.residual[r] == l.residual[r];
      }
    }
    if AllTrue(l.completable) && AllAnswered(p, blocks, base, l.residual) {
      forall k | 0 <= k < n ensures Completable(p, blocks, base, z, k) {
        forall r | 0 <= r < |z.residual| && z.residual[r].block == k ensures Answered(p, blocks, base, z.residual[r]) {
          assert r < |l.residual| by {
            assert r >= |l.residual| ==> !Before((z.residual[r].block, z.residual[r].ordinal), n, 0);
          }
        }
      }
    }
  }

  /** `failedAt` of a segment: as many blocks as it has when none fails. */
  ghost function FailedAt(p: Params, blocks: seq<Block>, base: Ledger): nat {
    var l := LinkSegment(p, blocks);
    FailedFrom(p, blocks, base, l, 0)
  }

  /**
  Linking ahead of the state and one wave of lookups judge a segment as connecting its blocks one
  by one does: the plain connect gets through the first `n` blocks exactly when `n` does not
  exceed the cut.
   */
  lemma SegmentVerdictIsPlain(p: Params, blocks: seq<Block>, base: Ledger, n: nat)
    requires Distinct(blocks) && NotLive(blocks, base) && n <= |blocks|
    ensures SeqBlocks(p, blocks, base, n).Chain? <==> n <= FailedAt(p, blocks, base)
  {
    var tops := Topologies(blocks);
    var l, z := LinkBlocks(p, blocks, tops, n), LinkSegment(p, blocks);
    SegmentInStep(p, blocks, base, n);
    BlocksExtend(p, blocks, tops, n, n);
    BlocksExtend(p, blocks, tops, n, |blocks|);
    PrefixClear(p, blocks, base, n, l, z);
    FailedIsFirst(p, blocks, base, z, 0);
  }

  /** Up to the cut, a linked slot holds the coin the plain connect spends at that input, word and all. */
  lemma LinkedIsSpent(p: Params, blocks: seq<Block>, base: Ledger, n: nat, key: (nat, nat))
    requires Distinct(blocks) && NotLive(blocks, base) && n <= |blocks| && n <= FailedAt(p, blocks, base)
    requires key in LinkSegment(p, blocks).linked && key.0 < n
    ensures SeqBlocks(p, blocks, base, n).Chain?
    ensures key in SeqBlocks(p, blocks, base, n).spent
        && SeqBlocks(p, blocks, base, n).spent[key] == LinkSegment(p, blocks).linked[key]
  {
    var tops := Topologies(blocks);
    SegmentVerdictIsPlain(p, blocks, base, n);
    SegmentInStep(p, blocks, base, n);
    BlocksExtend(p, blocks, tops, n, |blocks|);
    assert Before(key, n, 0);
  }

  /** Up to the cut, the wave's answer to an input put off is the coin the plain connect spends there. */
  lemma AnswerIsSpent(p: Params, blocks: seq<Block>, base: Ledger, n: nat, k: nat)
    requires Distinct(blocks) && NotLive(blocks, base) && n <= |blocks| && n <= FailedAt(p, blocks, base)
    requires k < |LinkSegment(p, blocks).residual| && LinkSegment(p, blocks).residual[k].block < n
    ensures SeqBlocks(p, blocks, base, n).Chain?
    ensures SpentAnswer(p, blocks, base, LinkSegment(p, blocks).residual[k], SeqBlocks(p, blocks, base, n).spent)
  {
    var tops := Topologies(blocks);
    var l, z := LinkBlocks(p, blocks, tops, n), LinkSegment(p, blocks);
    SegmentVerdictIsPlain(p, blocks, base, n);
    SegmentInStep(p, blocks, base, n);
    BlocksExtend(p, blocks, tops, n, |blocks|);
    assert k >= |l.residual| ==> !Before((z.residual[k].block, z.residual[k].ordinal), n, 0);
    assert z.residual[k] == l.residual[k];
  }
}
