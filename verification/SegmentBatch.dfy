/**
A segment that is not cut reaches the coin database as one batch, with every pair of an output and
its spend inside the segment skipped on both sides. What the batch leaves is the ledger the plain
connect leaves.
 */
module SegmentBatch {
  import opened SegmentModel
  import opened SegmentSimulation
  import opened SegmentSteps
  import opened SegmentVerdict

  // ---- UTXODb::connect ----------------------------------------------------------------------------

  function ApplyInput(top: Topology, l: Link, pos: nat, ledger: Ledger, o: Outpoint, ordinal: nat): Ledger {
    if LocalTx(top, ordinal).Some? || (pos, ordinal) in l.inMarks then ledger else ledger - {o}
  }

  /** An output the batch writes. */
  predicate Kept(b: Block, top: Topology, l: Link, pos: nat, i: nat, j: nat)
    requires i < |b.txs| && j < |b.txs[i].outputs|
  {
    IsCoin(b.txs[i].outputs[j]) && !SpentInside(l, pos, top, OutBase(b, i) + j)
  }

  function KeptOf(b: Block, top: Topology, l: Link, pos: nat, i: nat): Ledger
    requires i < |b.txs|
  {
    map o: Outpoint | o in OutpointsOf(b, i) && Kept(b, top, l, pos, i, o.index) :: CoinOf(b, i, o.index)
  }

  function ApplyAt(b: Block, top: Topology, l: Link, pos: nat, ledger: Ledger, i: nat, j: nat): Ledger
    requires Place(b, i, j)
    decreases i, j
  {
    if j > 0 then ApplyInput(top, l, pos, ApplyAt(b, top, l, pos, ledger, i, j - 1), Spends(b, i, j - 1),
        InBase(b, i) + j - 1)
    else if i > 0 then ApplyAt(b, top, l, pos, ledger, i - 1, Width(b, i - 1)) + KeptOf(b, top, l, pos, i - 1)
    else ledger
  }

  /** The first `n` blocks of the batch written over `base`. */
  function ApplyBlocks(blocks: seq<Block>, tops: seq<Topology>, l: Link, base: Ledger, n: nat): Ledger
    requires n <= |blocks| == |tops|
  {
    if n == 0 then base
    else ApplyAt(blocks[n - 1], tops[n - 1], l, n - 1, ApplyBlocks(blocks, tops, l, base, n - 1), |blocks[n - 1].txs|,
        0)
  }

  function ApplySegment(p: Params, blocks: seq<Block>, base: Ledger): Ledger {
    ApplyBlocks(blocks, Topologies(blocks), LinkSegment(p, blocks), base, |blocks|)
  }

  // ---- the linker's table and marks -----------------------------------------------------------------

  lemma {:induction false} WalkKeepsTable(p: Params, blocks: seq<Block>, tops: seq<Topology>, pos: nat, l: Link, i: nat,
        j: nat)
    requires pos < |blocks| == |tops| && Place(blocks[pos], i, j)
    ensures LinkAt(p, blocks, tops, pos, l, i, j).table == l.table
    decreases i, j
  {
    if j > 0 {
      WalkKeepsTable(p, blocks, tops, pos, l, i, j - 1);
    } else if i > 0 {
      WalkKeepsTable(p, blocks, tops, pos, l, i - 1, Width(blocks[pos], i - 1));
    }
  }

  ghost predicate Marked(l: Link) { forall key :: key in l.inMarks ==> key in l.linked }

  lemma {:induction false} WalkMarks(p: Params, blocks: seq<Block>, tops: seq<Topology>, pos: nat, l: Link, i: nat,
        j: nat)
    requires pos < |blocks| == |tops| && Place(blocks[pos], i, j) && Marked(l)
    ensures Marked(LinkAt(p, blocks, tops, pos, l, i, j))
    decreases i, j
  {
    if j > 0 {
      WalkMarks(p, blocks, tops, pos, l, i, j - 1);
    } else if i > 0 {
      WalkMarks(p, blocks, tops, pos, l, i - 1, Width(blocks[pos], i - 1));
    }
  }

  lemma {:induction false} SegmentMarks(p: Params, blocks: seq<Block>, tops: seq<Topology>, n: nat)
    requires n <= |blocks| == |tops|
    ensures Marked(LinkBlocks(p, blocks, tops, n))
  {
    if n > 0 {
      SegmentMarks(p, blocks, tops, n - 1);
      var l0, b := LinkBlocks(p, blocks, tops, n - 1).(ok := true), blocks[n - 1];
      WalkMarks(p, blocks, tops, n - 1, l0, |b.txs|, 0);
      InsertKeeps(blocks, tops, n - 1, LinkAt(p, blocks, tops, n - 1, l0, |b.txs|, 0), |b.txs|);
    }
  }

  ghost predicate InTable(blocks: seq<Block>, table: Table, b: nat, k: nat)
    requires ValidTx(blocks, b, k)
  {
    Entered(blocks[b], b, table, k)
  }

  ghost predicate TableFull(blocks: seq<Block>, table: Table, n: nat) {
    forall b: nat, k: nat :: ValidTx(blocks, b, k) && b < n ==> InTable(blocks, table, b, k)
  }

  lemma TableGrows(blocks: seq<Block>, was: Table, table: Table, n: nat)
    requires n < |blocks| && TableFull(blocks, was, n) && Grown(blocks[n], n, was, table, |blocks[n].txs|)
    ensures TableFull(blocks, table, n + 1)
  {
    forall b: nat, k: nat | ValidTx(blocks, b, k) && b < n + 1 ensures InTable(blocks, table, b, k) {
      if b < n {
        assert InTable(blocks, was, b, k);
        assert Known(blocks[n], n, was, table, |blocks[n].txs|, blocks[b].txs[k].id);
      } else {
        assert Entered(blocks[n], n, table, k);
      }
    }
  }

  /** The state the linker opens block `n` with, and what it keeps over the walk. */
  lemma Opened(p: Params, blocks: seq<Block>, base: Ledger, n: nat, i: nat, j: nat)
    requires Distinct(blocks) && NotLive(blocks, base) && n < |blocks| && Place(blocks[n], i, j)
    ensures var tops := Topologies(blocks); var l0 := LinkBlocks(p, blocks, tops, n).(ok := true);
            Wf(blocks, n, InBase(blocks[n], i) + j, LinkAt(p, blocks, tops, n, l0, i, j))
  {
    var tops := Topologies(blocks);
    var l, s := LinkBlocks(p, blocks, tops, n), SeqBlocks(p, blocks, base, n);
    SegmentInStep(p, blocks, base, n);
    assert Setting(blocks, tops, base, n);
    BlockOpens(p, blocks, tops, base, n, l, s);
    WalkStep(p, blocks, tops, base, n, l.(ok := true), s, i, j);
  }

  lemma PrefixTrue(cs: seq<bool>, cs': seq<bool>)
    requires cs <= cs' && AllTrue(cs')
    ensures AllTrue(cs)
  {
    assert forall k :: 0 <= k < |cs| ==> cs[k] == cs'[k];
  }

  /** A block whose own spends do not add up is cut off. */
  lemma InvalidIsCut(p: Params, blocks: seq<Block>, tops: seq<Topology>, pos: nat)
    requires pos < |blocks| == |tops| && AllTrue(LinkBlocks(p, blocks, tops, pos + 1).completable)
    ensures !tops[pos].invalid
  {
    var l, y := LinkBlocks(p, blocks, tops, pos), LinkBlocks(p, blocks, tops, pos + 1);
    assert y == LinkBlock(p, blocks, tops, pos, l);
    assert tops[pos].invalid ==> y.completable == l.completable + [false];
    AllTrueMore(l.completable, false);
  }

  lemma TableStep(p: Params, blocks: seq<Block>, base: Ledger, n: nat)
    requires Distinct(blocks) && NotLive(blocks, base) && n < |blocks| && !Topologies(blocks)[n].invalid
    requires TableFull(blocks, LinkBlocks(p, blocks, Topologies(blocks), n).table, n)
    ensures TableFull(blocks, LinkBlocks(p, blocks, Topologies(blocks), n + 1).table, n + 1)
  {
    var tops, b := Topologies(blocks), blocks[n];
    var l := LinkBlocks(p, blocks, tops, n);
    Opened(p, blocks, base, n, |b.txs|, 0);
    var l1 := LinkAt(p, blocks, tops, n, l.(ok := true), |b.txs|, 0);
    WalkKeepsTable(p, blocks, tops, n, l.(ok := true), |b.txs|, 0);
    TransactionsJoin(blocks, tops, n, InBase(b, |b.txs|), l1, |b.txs|);
    TableGrows(blocks, l.table, InsertTxs(blocks, tops, n, l1, |b.txs|).table, n);
  }

  lemma {:induction false} SegmentTable(p: Params, blocks: seq<Block>, base: Ledger, n: nat)
    requires Distinct(blocks) && NotLive(blocks, base) && n <= |blocks|
    requires AllTrue(LinkBlocks(p, blocks, Topologies(blocks), n).completable)
    ensures TableFull(blocks, LinkBlocks(p, blocks, Topologies(blocks), n).table, n)
  {
    if n > 0 {
      var tops := Topologies(blocks);
      BlocksExtend(p, blocks, tops, n - 1, n);
      PrefixTrue(LinkBlocks(p, blocks, tops, n - 1).completable, LinkBlocks(p, blocks, tops, n).completable);
      InvalidIsCut(p, blocks, tops, n - 1);
      SegmentTable(p, blocks, base, n - 1);
      TableStep(p, blocks, base, n - 1);
    }
  }

  // ---- the batch over the walk ------------------------------------------------------------------------

  /** A whole segment with nothing against it. */
  ghost predicate Whole(p: Params, blocks: seq<Block>, base: Ledger, z: Link) {
    && Distinct(blocks) && NotLive(blocks, base)
    && z == LinkSegment(p, blocks) && AllTrue(z.completable) && AllAnswered(p, blocks, base, z.residual)
  }

  /** The walk of one block, seen from the end of the segment. */
  ghost function Seen(p: Params, blocks: seq<Block>, pos: nat, i: nat, j: nat): Link
    requires pos < |blocks| && Place(blocks[pos], i, j)
  {
    var tops := Topologies(blocks);
    LinkAt(p, blocks, tops, pos, LinkBlocks(p, blocks, tops, pos).(ok := true), i, j)
  }

  lemma ExtendsSame(a: Link, l: Link, l': Link, pos: nat, ordinal: nat)
    requires Extends(a, l, pos, ordinal) && l'.residual == l.residual && l'.spends == l.spends
        && l'.inMarks == l.inMarks && l'.linked == l.linked
    requires l.completable <= l'.completable
    ensures Extends(a, l', pos, ordinal)
  {
  }

  lemma BlockWhole(p: Params, blocks: seq<Block>, tops: seq<Topology>, pos: nat, z: Link)
    requires pos < |blocks| == |tops| && z == LinkBlocks(p, blocks, tops, |blocks|) && AllTrue(z.completable)
    ensures !tops[pos].invalid && Extends(LinkBlocks(p, blocks, tops, pos + 1), z, pos + 1, 0)
    ensures AllTrue(LinkBlocks(p, blocks, tops, pos + 1).completable)
        && |LinkBlocks(p, blocks, tops, pos + 1).completable| == pos + 1
  {
    BlocksExtend(p, blocks, tops, pos + 1, pos + 1);
    BlocksExtend(p, blocks, tops, pos + 1, |blocks|);
    PrefixTrue(LinkBlocks(p, blocks, tops, pos + 1).completable, z.completable);
    InvalidIsCut(p, blocks, tops, pos);
  }

  lemma WalkToBlockEnd(p: Params, blocks: seq<Block>, tops: seq<Topology>, pos: nat, i: nat, j: nat, l: Link)
    requires pos < |blocks| == |tops| && Place(blocks[pos], i, j) && !tops[pos].invalid
    ensures var a, y := LinkAt(p, blocks, tops, pos, l.(ok := true), i, j), LinkBlock(p, blocks, tops, pos, l);
            Extends(a, y, pos, InBase(blocks[pos], i) + j) && (AllTrue(y.completable) ==> a.ok)
  {
    var b := blocks[pos];
    var l0 := l.(ok := true);
    var a, l1 := LinkAt(p, blocks, tops, pos, l0, i, j), LinkAt(p, blocks, tops, pos, l0, |b.txs|, 0);
    WalkExtends(p, blocks, tops, pos, l0, i, j, |b.txs|, 0);
    WalkExtends(p, blocks, tops, pos, l0, 0, 0, |b.txs|, 0);
    InsertKeeps(blocks, tops, pos, l1, |b.txs|);
    AllTrueMore(l.completable, InsertTxs(blocks, tops, pos, l1, |b.txs|).ok);
    ExtendsSame(a, l1, LinkBlock(p, blocks, tops, pos, l), pos, InBase(b, i) + j);
  }

  lemma WalkToEnd(p: Params, blocks: seq<Block>, base: Ledger, pos: nat, i: nat, j: nat, z: Link)
    requires pos < |blocks| && z == LinkSegment(p, blocks) && AllTrue(z.completable) && Place(blocks[pos], i, j)
    ensures Seen(p, blocks, pos, i, j).ok && Extends(Seen(p, blocks, pos, i, j), z, pos, InBase(blocks[pos], i) + j)
  {
    var tops := Topologies(blocks);
    BlockWhole(p, blocks, tops, pos, z);
    WalkToBlockEnd(p, blocks, tops, pos, i, j, LinkBlocks(p, blocks, tops, pos));
    ExtendsTrans(Seen(p, blocks, pos, i, j), LinkBlocks(p, blocks, tops, pos + 1), z, pos, InBase(blocks[pos], i) + j,
        pos + 1, 0);
  }

  /** An output of the segment the batch has come past and written. */
  predicate Emerged(blocks: seq<Block>, tops: seq<Topology>, z: Link, pos: nat, i: nat, o: Outpoint)
    requires |tops| == |blocks|
  {
    Live(blocks, tops, z, o) && (z.table[o.tx].block < pos || (z.table[o.tx].block == pos && z.table[o.tx].tx < i))
  }

  ghost predicate AppliedAt(blocks: seq<Block>, tops: seq<Topology>, base: Ledger, z: Link, spends: set<Outpoint>,
        pos: nat, i: nat, ledger: Ledger, o: Outpoint)
    requires |tops| == |blocks|
  {
    && (o in ledger <==> (o in base && o !in spends) || Emerged(blocks, tops, z, pos, i, o))
    && (Emerged(blocks, tops, z, pos, i, o) ==> ledger[o] == LiveCoin(blocks, tops, z, o))
    && (o in ledger && !Emerged(blocks, tops, z, pos, i, o) ==> ledger[o] == base[o])
  }

  ghost predicate Applied(blocks: seq<Block>, tops: seq<Topology>, base: Ledger, z: Link, spends: set<Outpoint>,
        pos: nat, i: nat, ledger: Ledger)
    requires |tops| == |blocks|
  {
    forall o :: AppliedAt(blocks, tops, base, z, spends, pos, i, ledger, o)
  }

  lemma LiveNotBase(blocks: seq<Block>, tops: seq<Topology>, base: Ledger, z: Link, o: Outpoint)
    requires |tops| == |blocks| && NotLive(blocks, base) && Live(blocks, tops, z, o)
    ensures o !in base
  {
    assert ValidTx(blocks, z.table[o.tx].block, z.table[o.tx].tx);
    assert IdOf(blocks, z.table[o.tx].block, z.table[o.tx].tx) == o.tx;
  }

  /** An input put off: the batch erases exactly that coin. */
  lemma EraseApplies(blocks: seq<Block>, tops: seq<Topology>, base: Ledger, z: Link, spends: set<Outpoint>, pos: nat,
        i: nat, ledger: Ledger, o: Outpoint)
    requires |tops| == |blocks| && !Live(blocks, tops, z, o)
    requires Applied(blocks, tops, base, z, spends, pos, i, ledger)
    ensures Applied(blocks, tops, base, z, spends + {o}, pos, i, ledger - {o})
  {
    var spends' := spends + {o};
    forall q ensures AppliedAt(blocks, tops, base, z, spends', pos, i, ledger - {o}, q) {
      assert AppliedAt(blocks, tops, base, z, spends, pos, i, ledger, q);
    }
  }

  /** The batch writes the outputs of a transaction that nothing inside the segment spends. */
  lemma WriteApplies(blocks: seq<Block>, tops: seq<Topology>, base: Ledger, z: Link, spends: set<Outpoint>, pos: nat,
        i: nat, ledger: Ledger)
    requires |tops| == |blocks| && NotLive(blocks, base) && ValidTx(blocks, pos, i)
        && Entered(blocks[pos], pos, z.table, i)
    requires forall id :: id in z.table ==> SlotOk(blocks, |blocks|, id, z.table[id])
    requires Applied(blocks, tops, base, z, spends, pos, i, ledger)
    ensures Applied(blocks, tops, base, z, spends, pos, i + 1, ledger + KeptOf(blocks[pos], tops[pos], z, pos, i))
  {
    var b, id := blocks[pos], blocks[pos].txs[i].id;
    var kept := KeptOf(b, tops[pos], z, pos, i);
    var next := i + 1;
    assert IdOf(blocks, pos, i) == id;
    forall o ensures AppliedAt(blocks, tops, base, z, spends, pos, next, ledger + kept, o) {
      assert AppliedAt(blocks, tops, base, z, spends, pos, i, ledger, o);
      if o.tx == id {
        assert o in kept <==> Live(blocks, tops, z, o);
      } else if o.tx in z.table {
        assert SlotOk(blocks, |blocks|, o.tx, z.table[o.tx]);
      }
    }
  }

  lemma LocalSpends(p: Params, b: Block, pos: nat, a: Link, o: Outpoint, ordinal: nat, k: nat)
    ensures LinkLocal(p, b, pos, a, o, ordinal, k).spends == a.spends
  {
  }

  lemma EarlierSpends(p: Params, blocks: seq<Block>, tops: seq<Topology>, pos: nat, a: Link, o: Outpoint, ordinal: nat,
        slot: Slot)
    requires pos < |blocks| == |tops|
    ensures
      var a' := LinkEarlier(p, blocks, tops, pos, a, o, ordinal, slot);
      a'.spends == a.spends && (a'.ok ==> (pos, ordinal) in a'.inMarks)
  {
  }

  /** An input that links marks itself or is put off. */
  lemma InputSpends(p: Params, blocks: seq<Block>, tops: seq<Topology>, pos: nat, a: Link, i: nat, j: nat)
    requires pos < |blocks| == |tops| && i <= |blocks[pos].txs| && j < Width(blocks[pos], i)
    requires LinkInput(p, blocks, tops, pos, a, i, j).ok
    ensures
      var a', o, ordinal := LinkInput(p, blocks, tops, pos, a, i, j), Spends(blocks[pos], i, j),
          InBase(blocks[pos], i) + j;
      if LocalTx(tops[pos], ordinal).Some? then a'.spends == a.spends
      else if o.tx in a.table then a'.spends == a.spends && (pos, ordinal) in a'.inMarks
      else
        && a'.spends == a.spends + {o} && a'.inMarks == a.inMarks
        && a'.residual == a.residual + [Residual(pos, i, j, ordinal)]
  {
    hide LinkLocal, LinkEarlier;
    var o, ordinal := Spends(blocks[pos], i, j), InBase(blocks[pos], i) + j;
    match LocalTx(tops[pos], ordinal)
    case Some(k) => LocalSpends(p, blocks[pos], pos, a, o, ordinal, k);
    case None =>
      if o.tx in a.table {
        EarlierSpends(p, blocks, tops, pos, a, o, ordinal, a.table[o.tx]);
      }
  }

  lemma SpendsGrow(p: Params, blocks: seq<Block>, base: Ledger, pos: nat, i: nat, j: nat, z: Link)
    requires Whole(p, blocks, base, z) && pos < |blocks| && Place(blocks[pos], i, j) && j < Width(blocks[pos], i)
    ensures var a, a', o, ordinal := Seen(p, blocks, pos, i, j), Seen(p, blocks, pos, i, j + 1),
        Spends(blocks[pos], i, j), InBase(blocks[pos], i) + j;
            if LocalTx(Topologies(blocks)[pos], ordinal).Some? || (pos, ordinal) in z.inMarks then a'.spends == a.spends
            else a'.spends == a.spends + {o} && o in base
  {
    var tops := Topologies(blocks);
    var a, a', o, ordinal := Seen(p, blocks, pos, i, j), Seen(p, blocks, pos, i, j + 1), Spends(blocks[pos], i, j),
        InBase(blocks[pos], i) + j;
    WalkToEnd(p, blocks, base, pos, i, j + 1, z);
    assert a' == LinkInput(p, blocks, tops, pos, a, i, j);
    InputSpends(p, blocks, tops, pos, a, i, j);
    hide AllAnswered, Distinct, NotLive, LinkInput, Seen;
    if LocalTx(tops[pos], ordinal).None? && o.tx !in a.table {
      SeenOpens(p, blocks, base, pos, i, j);
      PutOffIsUnmarked(blocks, pos, ordinal, a, a', z);
      PutOffIsBase(p, blocks, base, pos, i, j, ordinal, a, a', z);
    }
  }

  lemma SeenOpens(p: Params, blocks: seq<Block>, base: Ledger, pos: nat, i: nat, j: nat)
    requires Distinct(blocks) && NotLive(blocks, base) && pos < |blocks| && Place(blocks[pos], i, j)
    ensures Wf(blocks, pos, InBase(blocks[pos], i) + j, Seen(p, blocks, pos, i, j))
        && Marked(Seen(p, blocks, pos, i, j))
  {
    var tops := Topologies(blocks);
    Opened(p, blocks, base, pos, i, j);
    SegmentMarks(p, blocks, tops, pos);
    WalkMarks(p, blocks, tops, pos, LinkBlocks(p, blocks, tops, pos).(ok := true), i, j);
  }

  lemma PutOffIsUnmarked(blocks: seq<Block>, pos: nat, ordinal: nat, a: Link, a': Link, z: Link)
    requires Wf(blocks, pos, ordinal, a) && Marked(a) && a'.inMarks == a.inMarks && Extends(a', z, pos, ordinal + 1)
    ensures (pos, ordinal) !in z.inMarks
  {
    assert Before((pos, ordinal), pos, ordinal + 1) && !Before((pos, ordinal), pos, ordinal);
    assert (pos, ordinal) !in a.inMarks;
  }

  lemma PutOffIsBase(p: Params, blocks: seq<Block>, base: Ledger, pos: nat, i: nat, j: nat, ordinal: nat, a: Link,
        a': Link, z: Link)
    requires pos < |blocks| && j < Width(blocks[pos], i) && AllAnswered(p, blocks, base, z.residual)
    requires a'.residual == a.residual + [Residual(pos, i, j, ordinal)] && a'.residual <= z.residual
    ensures Spends(blocks[pos], i, j) in base
  {
    var r := Residual(pos, i, j, ordinal);
    assert a'.residual[|a.residual|] == r == z.residual[|a.residual|];
    assert Answered(p, blocks, base, r);
  }

  lemma InputApplies(p: Params, blocks: seq<Block>, base: Ledger, pos: nat, i: nat, j: nat, z: Link, was: Ledger)
    requires Whole(p, blocks, base, z) && pos < |blocks| && Place(blocks[pos], i, j) && j < Width(blocks[pos], i)
    requires Applied(blocks, Topologies(blocks), base, z, Seen(p, blocks, pos, i, j).spends, pos, i, was)
    ensures Applied(blocks, Topologies(blocks), base, z, Seen(p, blocks, pos, i, j + 1).spends, pos, i,
                    ApplyInput(Topologies(blocks)[pos], z, pos, was, Spends(blocks[pos], i, j),
                        InBase(blocks[pos], i) + j))
  {
    hide Applied, AllAnswered, Seen;
    var tops, o := Topologies(blocks), Spends(blocks[pos], i, j);
    SpendsGrow(p, blocks, base, pos, i, j, z);
    if Live(blocks, tops, z, o) {
      LiveNotBase(blocks, tops, base, z, o);
    } else {
      EraseApplies(blocks, tops, base, z, Seen(p, blocks, pos, i, j).spends, pos, i, was, o);
    }
  }

  lemma {:induction false} ApplyWalk(p: Params, blocks: seq<Block>, base: Ledger, pos: nat, i: nat, j: nat, z: Link,
        ledger: Ledger)
    requires Whole(p, blocks, base, z) && pos < |blocks| && Place(blocks[pos], i, j)
        && TableFull(blocks, z.table, |blocks|)
    requires forall id :: id in z.table ==> SlotOk(blocks, |blocks|, id, z.table[id])
    requires Applied(blocks, Topologies(blocks), base, z, LinkBlocks(p, blocks, Topologies(blocks), pos).spends, pos, 0,
        ledger)
    ensures Applied(blocks, Topologies(blocks), base, z, Seen(p, blocks, pos, i, j).spends, pos, i,
                    ApplyAt(blocks[pos], Topologies(blocks)[pos], z, pos, ledger, i, j))
    decreases i, j
  {
    hide Applied, AllAnswered, ApplyInput, LinkInput;
    var tops, b := Topologies(blocks), blocks[pos];
    if j > 0 {
      ApplyWalk(p, blocks, base, pos, i, j - 1, z, ledger);
      var n := j - 1;
      InputApplies(p, blocks, base, pos, i, n, z, ApplyAt(b, tops[pos], z, pos, ledger, i, n));
    } else if i > 0 {
      ApplyWalk(p, blocks, base, pos, i - 1, Width(b, i - 1), z, ledger);
      assert InTable(blocks, z.table, pos, i - 1);
      WriteApplies(blocks, tops, base, z, Seen(p, blocks, pos, i - 1, Width(b, i - 1)).spends, pos, i - 1,
          ApplyAt(b, tops[pos], z, pos, ledger, i - 1, Width(b, i - 1)));
    }
  }

  lemma NextBlock(blocks: seq<Block>, tops: seq<Topology>, base: Ledger, z: Link, spends: set<Outpoint>, pos: nat,
        ledger: Ledger)
    requires pos < |blocks| == |tops| && Applied(blocks, tops, base, z, spends, pos, |blocks[pos].txs|, ledger)
    ensures Applied(blocks, tops, base, z, spends, pos + 1, 0, ledger)
  {
    var next := pos + 1;
    forall o ensures AppliedAt(blocks, tops, base, z, spends, next, 0, ledger, o) {
      assert AppliedAt(blocks, tops, base, z, spends, pos, |blocks[pos].txs|, ledger, o);
    }
  }

  lemma BlockSpends(p: Params, blocks: seq<Block>, pos: nat)
    requires pos < |blocks| && !Topologies(blocks)[pos].invalid
    ensures LinkBlocks(p, blocks, Topologies(blocks), pos + 1).spends
        == Seen(p, blocks, pos, |blocks[pos].txs|, 0).spends
  {
    InsertKeeps(blocks, Topologies(blocks), pos, Seen(p, blocks, pos, |blocks[pos].txs|, 0), |blocks[pos].txs|);
  }

  lemma {:induction false} ApplySegmentWalk(p: Params, blocks: seq<Block>, base: Ledger, n: nat, z: Link,
        spends: set<Outpoint>, ledger: Ledger)
    requires Whole(p, blocks, base, z) && n <= |blocks| && TableFull(blocks, z.table, |blocks|)
    requires forall id :: id in z.table ==> SlotOk(blocks, |blocks|, id, z.table[id])
    requires spends == LinkBlocks(p, blocks, Topologies(blocks), n).spends
        && ledger == ApplyBlocks(blocks, Topologies(blocks), z, base, n)
    ensures Applied(blocks, Topologies(blocks), base, z, spends, n, 0, ledger)
    decreases n
  {
    var tops := Topologies(blocks);
    if n == 0 {
      NothingApplied(blocks, tops, base, z);
    } else {
      hide Applied, Whole, TableFull, SlotOk;
      var before, was := LinkBlocks(p, blocks, tops, n - 1).spends, ApplyBlocks(blocks, tops, z, base, n - 1);
      ApplySegmentWalk(p, blocks, base, n - 1, z, before, was);
      ApplyOneBlock(p, blocks, base, n - 1, z, was, spends);
    }
  }

  lemma NothingApplied(blocks: seq<Block>, tops: seq<Topology>, base: Ledger, z: Link)
    requires |tops| == |blocks|
    ensures Applied(blocks, tops, base, z, {}, 0, 0, base)
  {
    forall o ensures AppliedAt(blocks, tops, base, z, {}, 0, 0, base, o) {
    }
  }

  lemma ApplyOneBlock(p: Params, blocks: seq<Block>, base: Ledger, pos: nat, z: Link, was: Ledger,
        spends: set<Outpoint>)
    requires Whole(p, blocks, base, z) && pos < |blocks| && TableFull(blocks, z.table, |blocks|)
    requires forall id :: id in z.table ==> SlotOk(blocks, |blocks|, id, z.table[id])
    requires Applied(blocks, Topologies(blocks), base, z, LinkBlocks(p, blocks, Topologies(blocks), pos).spends, pos, 0,
        was)
    requires spends == LinkBlocks(p, blocks, Topologies(blocks), pos + 1).spends
    ensures Applied(blocks, Topologies(blocks), base, z, spends, pos + 1, 0,
        ApplyAt(blocks[pos], Topologies(blocks)[pos], z, pos, was, |blocks[pos].txs|, 0))
  {
    var tops, b := Topologies(blocks), blocks[pos];
    ApplyWalk(p, blocks, base, pos, |b.txs|, 0, z, was);
    BlockWhole(p, blocks, tops, pos, z);
    BlockSpends(p, blocks, pos);
    NextBlock(blocks, tops, base, z, spends, pos, ApplyAt(b, tops[pos], z, pos, was, |b.txs|, 0));
  }

  /** Two ledgers described alike are one. */
  lemma SameLedger(blocks: seq<Block>, tops: seq<Topology>, base: Ledger, z: Link, a: Ledger, c: Ledger)
    requires |tops| == |blocks| && LedgerSim(blocks, tops, base, z, c)
    requires forall id :: id in z.table ==> SlotOk(blocks, |blocks|, id, z.table[id])
    requires Applied(blocks, tops, base, z, z.spends, |blocks|, 0, a)
    ensures a == c
  {
    forall o ensures (o in a <==> o in c) && (o in a ==> a[o] == c[o]) {
      assert AppliedAt(blocks, tops, base, z, z.spends, |blocks|, 0, a, o) && LedgerAt(blocks, tops, base, z, c, o);
    }
  }

  /** One batch over the state before the segment, pairs skipped, leaves what connecting block by block leaves. */
  lemma BatchIsPlain(p: Params, blocks: seq<Block>, base: Ledger)
    requires Distinct(blocks) && NotLive(blocks, base) && FailedAt(p, blocks, base) == |blocks|
    ensures SeqBlocks(p, blocks, base, |blocks|).Chain?
    ensures ApplySegment(p, blocks, base) == SeqBlocks(p, blocks, base, |blocks|).ledger
  {
    var tops, z := Topologies(blocks), LinkSegment(p, blocks);
    SegmentVerdictIsPlain(p, blocks, base, |blocks|);
    SegmentInStep(p, blocks, base, |blocks|);
    SegmentTable(p, blocks, base, |blocks|);
    ApplySegmentWalk(p, blocks, base, |blocks|, z, z.spends, ApplySegment(p, blocks, base));
    SameLedger(blocks, tops, base, z, ApplySegment(p, blocks, base), SeqBlocks(p, blocks, base, |blocks|).ledger);
  }
}
