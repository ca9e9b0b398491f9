/**
A segment connected as one batch can be taken apart block by block: after disconnecting the blocks
above any point, the ledger is the one the plain connect had there, and every later connect goes as
it would have gone then.
 */
module SegmentReorg {
  import opened Wrappers
  import opened SegmentModel
  import opened SegmentSimulation
  import opened SegmentVerdict
  import opened SegmentBatch
  import opened SegmentUndo

  // ---- the linked slots of a segment ---------------------------------------------------------------

  /** What the slot of an input holds once the wave is over. */
  function SlotCoin(p: Params, blocks: seq<Block>, base: Ledger, l: Link, pos: nat, i: nat, j: nat): Option<Coin>
    requires pos < |blocks| && i <= |blocks[pos].txs| && j < Width(blocks[pos], i)
  {
    var ordinal := InBase(blocks[pos], i) + j;
    if (pos, ordinal) in l.linked then Some(l.linked[(pos, ordinal)])
        else Answer(p, blocks, base, Residual(pos, i, j, ordinal))
  }

  predicate Slotted(l: Link, r: Residual) { (r.block, r.ordinal) in l.linked || r in l.residual }

  /** An input that is not cut off is linked or on the residual list. */
  lemma LinkedOrPutOff(p: Params, blocks: seq<Block>, tops: seq<Topology>, pos: nat, i: nat, j: nat, l: Link)
    requires pos < |blocks| == |tops| && i <= |blocks[pos].txs| && j < Width(blocks[pos], i)
    requires LinkInput(p, blocks, tops, pos, l, i, j).ok
    ensures Slotted(LinkInput(p, blocks, tops, pos, l, i, j), Residual(pos, i, j, InBase(blocks[pos], i) + j))
  {
    var o, ordinal := Spends(blocks[pos], i, j), InBase(blocks[pos], i) + j;
    var r := Residual(pos, i, j, ordinal);
    match LocalTx(tops[pos], ordinal)
    case Some(k) =>
      assert (pos, ordinal) in LinkLocal(p, blocks[pos], pos, l, o, ordinal, k).linked;
    case None =>
      if o.tx in l.table {
        assert (pos, ordinal) in LinkEarlier(p, blocks, tops, pos, l, o, ordinal, l.table[o.tx]).linked;
      } else {
        assert LinkResidual(pos, l, o, i, j, ordinal).residual[|l.residual|] == r;
      }
  }

  lemma SlottedStays(l: Link, l': Link, pos: nat, ordinal: nat, r: Residual)
    requires Extends(l, l', pos, ordinal) && Slotted(l, r)
    ensures Slotted(l', r)
  {
    if r in l.residual {
      var k :| 0 <= k < |l.residual| && l.residual[k] == r;
      assert l'.residual[k] == r;
    }
  }

  lemma SlottedInBlock(p: Params, blocks: seq<Block>, tops: seq<Topology>, pos: nat, i: nat, j: nat, l: Link)
    requires pos < |blocks| == |tops| && i <= |blocks[pos].txs| && j < Width(blocks[pos], i) && !tops[pos].invalid
    requires AllTrue(LinkBlock(p, blocks, tops, pos, l).completable)
    ensures Slotted(LinkBlock(p, blocks, tops, pos, l), Residual(pos, i, j, InBase(blocks[pos], i) + j))
  {
    var a := LinkAt(p, blocks, tops, pos, l.(ok := true), i, j);
    WalkToBlockEnd(p, blocks, tops, pos, i, j + 1, l);
    LinkedOrPutOff(p, blocks, tops, pos, i, j, a);
    SlottedStays(LinkInput(p, blocks, tops, pos, a, i, j), LinkBlock(p, blocks, tops, pos, l), pos,
        InBase(blocks[pos], i) + (j + 1), Residual(pos, i, j, InBase(blocks[pos], i) + j));
  }

  lemma PrefixUncut(p: Params, blocks: seq<Block>, base: Ledger, n: nat, m: nat)
    requires Distinct(blocks) && NotLive(blocks, base) && m <= n <= |blocks| && SeqBlocks(p, blocks, base, n).Chain?
    ensures AllTrue(LinkBlocks(p, blocks, Topologies(blocks), m).completable)
  {
    SegmentVerdictIsPlain(p, blocks, base, n);
    SegmentVerdictIsPlain(p, blocks, base, m);
    SegmentInStep(p, blocks, base, m);
  }

  lemma SlotFound(p: Params, blocks: seq<Block>, base: Ledger, n: nat, pos: nat, i: nat, j: nat)
    requires Distinct(blocks) && NotLive(blocks, base) && pos < n <= |blocks| && SeqBlocks(p, blocks, base, n).Chain?
    requires i <= |blocks[pos].txs| && j < Width(blocks[pos], i)
    ensures Slotted(LinkSegment(p, blocks), Residual(pos, i, j, InBase(blocks[pos], i) + j))
  {
    var tops := Topologies(blocks);
    PrefixUncut(p, blocks, base, n, pos + 1);
    InvalidIsCut(p, blocks, tops, pos);
    SlottedInBlock(p, blocks, tops, pos, i, j, LinkBlocks(p, blocks, tops, pos));
    BlocksExtend(p, blocks, tops, pos + 1, |blocks|);
    SlottedStays(LinkBlocks(p, blocks, tops, pos + 1), LinkSegment(p, blocks), pos + 1, 0,
        Residual(pos, i, j, InBase(blocks[pos], i) + j));
  }

  /** Up to the cut every slot is filled, with the coin the plain connect spends there. */
  lemma SlotIsSpent(p: Params, blocks: seq<Block>, base: Ledger, n: nat, pos: nat, i: nat, j: nat)
    requires Distinct(blocks) && NotLive(blocks, base) && pos < n <= |blocks| && n <= FailedAt(p, blocks, base)
    requires i <= |blocks[pos].txs| && j < Width(blocks[pos], i)
    ensures SeqBlocks(p, blocks, base, n).Chain?
    ensures var key, spent := (pos, InBase(blocks[pos], i) + j), SeqBlocks(p, blocks, base, n).spent;
            key in spent && SlotCoin(p, blocks, base, LinkSegment(p, blocks), pos, i, j) == Some(spent[key])
  {
    var key, z := (pos, InBase(blocks[pos], i) + j), LinkSegment(p, blocks);
    SegmentVerdictIsPlain(p, blocks, base, n);
    SlotFound(p, blocks, base, n, pos, i, j);
    if key in z.linked {
      LinkedIsSpent(p, blocks, base, n, key);
    } else {
      var k :| 0 <= k < |z.residual| && z.residual[k] == Residual(pos, i, j, key.1);
      AnswerIsSpent(p, blocks, base, n, k);
    }
  }

  // ---- the record over a run ---------------------------------------------------------------------------

  lemma {:induction false} RunGoing(p: Params, blocks: seq<Block>, base: Ledger, m: nat, n: nat)
    requires m <= n <= |blocks| && SeqBlocks(p, blocks, base, n).Chain?
    ensures SeqBlocks(p, blocks, base, m).Chain?
    decreases n
  {
    if m < n {
      StillGoing(p, blocks[n - 1], n - 1, SeqBlocks(p, blocks, base, n - 1), 0, 0, |blocks[n - 1].txs|, 0);
      RunGoing(p, blocks, base, m, n - 1);
    }
  }

  lemma {:induction false} RunSpentStays(p: Params, blocks: seq<Block>, base: Ledger, m: nat, n: nat, key: (nat, nat))
    requires m <= n <= |blocks| && SeqBlocks(p, blocks, base, n).Chain? && SeqBlocks(p, blocks, base, m).Chain?
    requires key.0 < m && key in SeqBlocks(p, blocks, base, m).spent
    ensures key in SeqBlocks(p, blocks, base, n).spent
        && SeqBlocks(p, blocks, base, n).spent[key] == SeqBlocks(p, blocks, base, m).spent[key]
    decreases n
  {
    if m < n {
      RunGoing(p, blocks, base, n - 1, n);
      RunSpentStays(p, blocks, base, m, n - 1, key);
      SpentStays(p, blocks[n - 1], n - 1, SeqBlocks(p, blocks, base, n - 1), 0, 0, |blocks[n - 1].txs|, 0, key);
    }
  }

  /** A block finds none of its own transactions among the coins. */
  lemma FreshAt(p: Params, blocks: seq<Block>, base: Ledger, n: nat)
    requires Distinct(blocks) && NotLive(blocks, base) && n < |blocks| && SeqBlocks(p, blocks, base, n).Chain?
    ensures SeqBlocks(p, blocks, base, n).own == map[] && Fresh(blocks[n], SeqBlocks(p, blocks, base, n).ledger)
  {
    var tops := Topologies(blocks);
    var l, ledger := LinkBlocks(p, blocks, tops, n), SeqBlocks(p, blocks, base, n).ledger;
    SegmentInStep(p, blocks, base, n);
    assert Setting(blocks, tops, base, n);
    forall o, k | o in ledger && 0 <= k < |blocks[n].txs| ensures o.tx != blocks[n].txs[k].id {
      assert LedgerAt(blocks, tops, base, l, ledger, o);
      if o.tx == blocks[n].txs[k].id {
        OwnIsNotLedger(blocks, tops, base, n, 0, l, o, k);
      }
    }
    forall k, k' | 0 <= k < |blocks[n].txs| && 0 <= k' < |blocks[n].txs| && blocks[n].txs[k].id == blocks[n].txs[k'].id
        ensures k == k' {
      assert ValidTx(blocks, n, k) && ValidTx(blocks, n, k') && IdOf(blocks, n, k) == IdOf(blocks, n, k');
    }
  }

  lemma RunOnRecord(p: Params, blocks: seq<Block>, base: Ledger, m: nat, n: nat, i: nat, j: nat)
    requires Distinct(blocks) && NotLive(blocks, base) && m < n <= |blocks| && SeqBlocks(p, blocks, base, n).Chain?
    requires i <= |blocks[m].txs| && j < Width(blocks[m], i)
    ensures OnRecord(p, blocks[m], m, SeqBlocks(p, blocks, base, m), SeqBlocks(p, blocks, base, n).spent, i, j)
  {
    RunGoing(p, blocks, base, m, n);
    RunGoing(p, blocks, base, m + 1, n);
    FreshAt(p, blocks, base, m);
    SpentOnRecord(p, blocks[m], m, SeqBlocks(p, blocks, base, m), i, j);
    RunSpentStays(p, blocks, base, m + 1, n, (m, InBase(blocks[m], i) + j));
  }

  ghost predicate AllFilled(blocks: seq<Block>, spent: map<(nat, nat), Coin>, n: nat) {
    forall k :: 0 <= k < n && k < |blocks| ==> Filled(blocks[k], k, spent)
  }

  lemma RunFilled(p: Params, blocks: seq<Block>, base: Ledger, n: nat)
    requires Distinct(blocks) && NotLive(blocks, base) && n <= |blocks| && SeqBlocks(p, blocks, base, n).Chain?
    ensures AllFilled(blocks, SeqBlocks(p, blocks, base, n).spent, n)
  {
    var spent := SeqBlocks(p, blocks, base, n).spent;
    forall k | 0 <= k < n ensures Filled(blocks[k], k, spent) {
      forall i: nat, j: nat ensures FilledAt(blocks[k], k, spent, i, j) {
        if i <= |blocks[k].txs| && j < Width(blocks[k], i) {
          RunOnRecord(p, blocks, base, k, n, i, j);
        }
      }
    }
  }

  // ---- taking a segment apart -----------------------------------------------------------------------------

  /** Blocks `n - 1` down to `m` disconnected. */
  ghost function UndoBlocks(blocks: seq<Block>, spent: map<(nat, nat), Coin>, ledger: Ledger, n: nat, m: nat): Ledger
    requires m <= n <= |blocks| && AllFilled(blocks, spent, n)
    decreases n
  {
    if m == n then ledger else UndoBlocks(blocks, spent, UndoBlock(blocks[n - 1], n - 1, spent, ledger), n - 1, m)
  }

  lemma {:induction false} UndoRun(p: Params, blocks: seq<Block>, base: Ledger, z: nat, ledger: Ledger, n: nat, m: nat)
    requires Distinct(blocks) && NotLive(blocks, base) && m <= n <= z <= |blocks|
        && SeqBlocks(p, blocks, base, z).Chain?
    requires SeqBlocks(p, blocks, base, n).Chain? && SameCoins(ledger, SeqBlocks(p, blocks, base, n).ledger)
    requires AllFilled(blocks, SeqBlocks(p, blocks, base, z).spent, n)
    ensures SeqBlocks(p, blocks, base, m).Chain?
    ensures SameCoins(UndoBlocks(blocks, SeqBlocks(p, blocks, base, z).spent, ledger, n, m),
        SeqBlocks(p, blocks, base, m).ledger)
    decreases n
  {
    if m < n {
      var b, s, spent := blocks[n - 1], SeqBlocks(p, blocks, base, n - 1), SeqBlocks(p, blocks, base, z).spent;
      RunGoing(p, blocks, base, n - 1, n);
      FreshAt(p, blocks, base, n - 1);
      var at := n - 1;
      forall x, y | 0 <= x <= |b.txs| && 0 <= y < Width(b, x) ensures OnRecord(p, b, at, s, spent, x, y) {
        RunOnRecord(p, blocks, base, at, z, x, y);
      }
      UndoIsInverse(p, b, n - 1, s, spent, ledger);
      UndoRun(p, blocks, base, z, UndoBlock(b, n - 1, spent, ledger), n - 1, m);
    }
  }

  /**
  Connect a whole segment as one batch, then disconnect its blocks above `m`: what is left is the
  plain ledger after `m` blocks, restored marks aside. With `m` zero this is the state before the
  segment.
   */
  lemma BatchThenUndo(p: Params, blocks: seq<Block>, base: Ledger, m: nat)
    requires Distinct(blocks) && NotLive(blocks, base) && FailedAt(p, blocks, base) == |blocks| && m <= |blocks|
    ensures SeqBlocks(p, blocks, base, |blocks|).Chain? && SeqBlocks(p, blocks, base, m).Chain?
    ensures var spent := SeqBlocks(p, blocks, base, |blocks|).spent;
            && AllFilled(blocks, spent, |blocks|)
            && SameCoins(UndoBlocks(blocks, spent, ApplySegment(p, blocks, base), |blocks|, m),
                 SeqBlocks(p, blocks, base, m).ledger)
  {
    BatchIsPlain(p, blocks, base);
    RunFilled(p, blocks, base, |blocks|);
    UndoRun(p, blocks, base, |blocks|, ApplySegment(p, blocks, base), |blocks|, m);
  }

  // ---- the restored mark decides nothing ---------------------------------------------------------------------

  ghost predicate SameChain(s: Chain, s': Chain) {
    && (s.Chain? <==> s'.Chain?)
    && (s.Chain? ==> s.spent == s'.spent && s.own == s'.own && SameCoins(s.ledger, s'.ledger))
  }

  lemma SameInput(p: Params, b: Block, pos: nat, s: Chain, s': Chain, o: Outpoint, ordinal: nat)
    requires SameChain(s, s')
    ensures SameChain(SeqInput(p, b, pos, s, o, ordinal), SeqInput(p, b, pos, s', o, ordinal))
  {
    if s.Chain? {
      assert SameAt(s.ledger, s'.ledger, o);
      forall q ensures SameAt(s.ledger - {o}, s'.ledger - {o}, q) {
        assert SameAt(s.ledger, s'.ledger, q);
      }
    }
  }

  lemma {:induction false} SameWalk(p: Params, b: Block, pos: nat, s: Chain, s': Chain, i: nat, j: nat)
    requires Place(b, i, j) && SameChain(s, s')
    ensures SameChain(SeqAt(p, b, pos, s, i, j), SeqAt(p, b, pos, s', i, j))
    decreases i, j
  {
    if j > 0 {
      SameWalk(p, b, pos, s, s', i, j - 1);
      SameInput(p, b, pos, SeqAt(p, b, pos, s, i, j - 1), SeqAt(p, b, pos, s', i, j - 1), Spends(b, i, j - 1),
          InBase(b, i) + j - 1);
    } else if i > 0 {
      SameWalk(p, b, pos, s, s', i - 1, Width(b, i - 1));
    }
  }

  lemma SameSettle(s: Chain, s': Chain)
    requires SameChain(s, s')
    ensures SameChain(Settle(s), Settle(s'))
  {
    if s.Chain? {
      forall q ensures SameAt(Settle(s).ledger, Settle(s').ledger, q) {
        assert SameAt(s.ledger, s'.ledger, q);
      }
    }
  }

  /** Ledgers that differ in restored marks only take the same blocks and spend the same coins. */
  lemma {:induction false} SameFuture(p: Params, blocks: seq<Block>, base: Ledger, base': Ledger, n: nat)
    requires n <= |blocks| && SameCoins(base, base')
    ensures SameChain(SeqBlocks(p, blocks, base, n), SeqBlocks(p, blocks, base', n))
  {
    if n > 0 {
      SameFuture(p, blocks, base, base', n - 1);
      var b, s, s' := blocks[n - 1], SeqBlocks(p, blocks, base, n - 1), SeqBlocks(p, blocks, base', n - 1);
      SameWalk(p, b, n - 1, s, s', |b.txs|, 0);
      SameSettle(SeqAt(p, b, n - 1, s, |b.txs|, 0), SeqAt(p, b, n - 1, s', |b.txs|, 0));
    }
  }
}
