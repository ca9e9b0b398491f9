/** From one input to a whole block: the linker's state stays well formed, and the two stay in step. */
module SegmentSteps {
  import opened SegmentModel
  import opened SegmentTopology
  import opened SegmentSimulation

  // ---- the linker's state stays well formed ------------------------------------------------

  /** One more slot is linked, perhaps with a mark on an earlier output. */
  lemma WfLinked(blocks: seq<Block>, pos: nat, ordinal: nat, l: Link, l': Link)
    requires Wf(blocks, pos, ordinal, l)
    requires l'.table == l.table && l'.residual == l.residual && l'.spends == l.spends
    requires forall m :: m in l'.outMarks ==> m.0 < pos
    requires forall key :: key in l'.linked ==> key in l.linked || key == (pos, ordinal)
    ensures Wf(blocks, pos, ordinal + 1, l')
  {
    forall k | 0 <= k < |l'.residual| ensures ResidualWf(blocks, pos, ordinal + 1, l', l'.residual[k]) {
      assert ResidualWf(blocks, pos, ordinal, l, l.residual[k]);
    }
  }

  ghost predicate SpendKnown(blocks: seq<Block>, rs: seq<Residual>, o: Outpoint) {
    exists k :: 0 <= k < |rs| && ResidualOk(blocks, rs[k]) && ResOp(blocks, rs[k]) == o
  }

  lemma SpendKnownMore(blocks: seq<Block>, rs: seq<Residual>, r: Residual, o: Outpoint)
    requires SpendKnown(blocks, rs, o) || (ResidualOk(blocks, r) && ResOp(blocks, r) == o)
    ensures SpendKnown(blocks, rs + [r], o)
  {
    var rs' := rs + [r];
    if SpendKnown(blocks, rs, o) {
      var k :| 0 <= k < |rs| && ResidualOk(blocks, rs[k]) && ResOp(blocks, rs[k]) == o;
      assert rs'[k] == rs[k];
    } else {
      assert rs'[|rs|] == r;
    }
  }

  lemma ResidualPutOff(blocks: seq<Block>, pos: nat, ordinal: nat, l: Link, l': Link, r: Residual)
    requires Wf(blocks, pos, ordinal, l) && l'.linked == l.linked && l.spends <= l'.spends
    requires ResidualWf(blocks, pos, ordinal, l, r)
    ensures ResidualWf(blocks, pos, ordinal + 1, l', r)
  {
  }

  lemma WfPutOff(blocks: seq<Block>, pos: nat, i: nat, j: nat, ordinal: nat, l: Link, o: Outpoint)
    requires Wf(blocks, pos, ordinal, l) && pos < |blocks| && i <= |blocks[pos].txs|
    requires j < Width(blocks[pos], i) && o == Spends(blocks[pos], i, j) && ordinal == InBase(blocks[pos], i) + j
    ensures Wf(blocks, pos, ordinal + 1, LinkResidual(pos, l, o, i, j, ordinal))
  {
    var l', r := LinkResidual(pos, l, o, i, j, ordinal), Residual(pos, i, j, ordinal);
    forall k | 0 <= k < |l'.residual| ensures ResidualWf(blocks, pos, ordinal + 1, l', l'.residual[k]) {
      if k < |l.residual| {
        ResidualPutOff(blocks, pos, ordinal, l, l', l.residual[k]);
      } else {
        assert !Before((pos, ordinal), pos, ordinal);
      }
    }
    forall q | q in l'.spends ensures SpendKnown(blocks, l'.residual, q) {
      assert q in l.spends ==> SpendKnown(blocks, l.residual, q);
      if o !in l.spends {
        SpendKnownMore(blocks, l.residual, r, q);
      }
    }
  }

  lemma WfEarlier(p: Params, blocks: seq<Block>, tops: seq<Topology>, pos: nat, ordinal: nat, l: Link, o: Outpoint)
    requires pos < |blocks| == |tops| && Wf(blocks, pos, ordinal, l) && o.tx in l.table
    ensures Wf(blocks, pos, ordinal + 1, LinkEarlier(p, blocks, tops, pos, l, o, ordinal, l.table[o.tx]))
    ensures LinkEarlier(p, blocks, tops, pos, l, o, ordinal, l.table[o.tx]).completable == l.completable
  {
    assert SlotOk(blocks, pos, o.tx, l.table[o.tx]);
    WfLinked(blocks, pos, ordinal, l, LinkEarlier(p, blocks, tops, pos, l, o, ordinal, l.table[o.tx]));
  }

  lemma WfInput(p: Params, blocks: seq<Block>, tops: seq<Topology>, pos: nat, i: nat, j: nat, l: Link)
    requires pos < |blocks| == |tops| && i <= |blocks[pos].txs| && j < Width(blocks[pos], i)
    requires Wf(blocks, pos, InBase(blocks[pos], i) + j, l)
    ensures Wf(blocks, pos, InBase(blocks[pos], i) + j + 1, LinkInput(p, blocks, tops, pos, l, i, j))
    ensures LinkInput(p, blocks, tops, pos, l, i, j).completable == l.completable
  {
    hide LinkEarlier;
    var o, ordinal := Spends(blocks[pos], i, j), InBase(blocks[pos], i) + j;
    var l' := LinkInput(p, blocks, tops, pos, l, i, j);
    if LocalTx(tops[pos], ordinal).Some? {
      WfLinked(blocks, pos, ordinal, l, l');
    } else if o.tx in l.table {
      WfEarlier(p, blocks, tops, pos, ordinal, l, o);
    } else {
      WfPutOff(blocks, pos, i, j, ordinal, l, o);
    }
  }

  // ---- the outputs of a transaction ----------------------------------------------------------

  /** The transaction coming up is not one of those walked. */
  lemma NotSeenYet(blocks: seq<Block>, pos: nat, i: nat, j: nat, t: Topology)
    requires Distinct(blocks) && ValidTx(blocks, pos, i) && TopOk(blocks[pos], i, j, t)
    ensures blocks[pos].txs[i].id !in t.seen
  {
    var id := IdOf(blocks, pos, i);
    assert id in t.seen ==> ValidTx(blocks, pos, t.seen[id].tx) && IdOf(blocks, pos, t.seen[id].tx) == id;
  }

  function Created(b: Block, i: nat): Ledger
    requires i < |b.txs|
  {
    map o: Outpoint | o in OutpointsOf(b, i) :: CoinOf(b, i, o.index)
  }

  lemma OwnOutputs(b: Block, i: nat, t: Topology, own: Ledger)
    requires i < |b.txs| && b.txs[i].id !in t.seen
    requires (forall x :: x in t.bits ==> x < t.outOrdinal) && OwnSim(b, t, own)
    ensures OwnSim(b, TopOutputs(b, t, i), own + Created(b, i))
  {
    var t' := TopOutputs(b, t, i);
    forall o ensures OwnAt(b, t', own + Created(b, i), o) {
      assert OwnAt(b, t, own, o);
    }
  }

  lemma OutputsStep(p: Params, blocks: seq<Block>, tops: seq<Topology>, base: Ledger, pos: nat, i: nat, l: Link,
        t: Topology, s: Chain)
    requires Setting(blocks, tops, base, pos) && i < |blocks[pos].txs|
    requires TopOk(blocks[pos], i, Width(blocks[pos], i), t)
    requires Sims(p, blocks, tops, base, blocks[pos], l, t, s)
    ensures Sims(p, blocks, tops, base, blocks[pos], l, TopOutputs(blocks[pos], t, i), SeqOutputs(blocks[pos], s, i))
  {
    if s.Chain? {
      assert ValidTx(blocks, pos, i);
      NotSeenYet(blocks, pos, i, Width(blocks[pos], i), t);
      OwnOutputs(blocks[pos], i, t, s.own);
    }
  }

  // ---- the walk of a block ---------------------------------------------------------------------

  /** The three folds at one place of a walk that opened with `l` and `s`. */
  ghost predicate Walking(p: Params, blocks: seq<Block>, tops: seq<Topology>, base: Ledger, pos: nat, l: Link, s: Chain,
        i: nat, j: nat)
    requires pos < |blocks| == |tops| && Place(blocks[pos], i, j)
  {
    var at := LinkAt(p, blocks, tops, pos, l, i, j);
    && Wf(blocks, pos, InBase(blocks[pos], i) + j, at) && at.completable == l.completable
    && Sims(p, blocks, tops, base, blocks[pos], at, TopAt(blocks[pos], i, j), SeqAt(p, blocks[pos], pos, s, i, j))
  }

  lemma InputUnfolds(p: Params, blocks: seq<Block>, tops: seq<Topology>, pos: nat, l: Link, s: Chain, i: nat, j: nat)
    requires pos < |blocks| == |tops| && Place(blocks[pos], i, j) && j > 0
    ensures LinkAt(p, blocks, tops, pos, l, i, j)
        == LinkInput(p, blocks, tops, pos, LinkAt(p, blocks, tops, pos, l, i, j - 1), i, j - 1)
    ensures SeqAt(p, blocks[pos], pos, s, i, j) ==
            SeqInput(p, blocks[pos], pos, SeqAt(p, blocks[pos], pos, s, i, j - 1), Spends(blocks[pos], i, j - 1),
                InBase(blocks[pos], i) + (j - 1))
  {
  }

  lemma WalkInputWf(p: Params, blocks: seq<Block>, tops: seq<Topology>, pos: nat, l: Link, s: Chain, i: nat, j: nat)
    requires pos < |blocks| == |tops| && Place(blocks[pos], i, j) && j > 0
    requires Wf(blocks, pos, InBase(blocks[pos], i) + (j - 1), LinkAt(p, blocks, tops, pos, l, i, j - 1))
    ensures Wf(blocks, pos, InBase(blocks[pos], i) + j, LinkAt(p, blocks, tops, pos, l, i, j))
    ensures LinkAt(p, blocks, tops, pos, l, i, j).completable == LinkAt(p, blocks, tops, pos, l, i, j - 1).completable
  {
    InputUnfolds(p, blocks, tops, pos, l, s, i, j);
    hide Wf, LinkInput, LinkAt;
    var n := j - 1;
    WfInput(p, blocks, tops, pos, i, n, LinkAt(p, blocks, tops, pos, l, i, n));
  }

  lemma WalkInputSims(p: Params, blocks: seq<Block>, tops: seq<Topology>, base: Ledger, pos: nat, i: nat, j: nat,
        l: Link, l': Link, s: Chain, s': Chain)
    requires Setting(blocks, tops, base, pos) && Place(blocks[pos], i, j) && j > 0
    requires Wf(blocks, pos, InBase(blocks[pos], i) + (j - 1), l)
    requires Sims(p, blocks, tops, base, blocks[pos], l, TopAt(blocks[pos], i, j - 1), s)
    requires l' == LinkInput(p, blocks, tops, pos, l, i, j - 1)
    requires s' == SeqInput(p, blocks[pos], pos, s, Spends(blocks[pos], i, j - 1), InBase(blocks[pos], i) + (j - 1))
    ensures Sims(p, blocks, tops, base, blocks[pos], l', TopAt(blocks[pos], i, j), s')
  {
    hide Sims, Wf, LinkInput, SeqInput;
    InputStep(p, blocks, tops, base, pos, i, j - 1, l, s);
  }

  lemma WalkInput(p: Params, blocks: seq<Block>, tops: seq<Topology>, base: Ledger, pos: nat, l: Link, s: Chain, i: nat,
        j: nat)
    requires Setting(blocks, tops, base, pos) && Place(blocks[pos], i, j) && j > 0
    requires Walking(p, blocks, tops, base, pos, l, s, i, j - 1)
    ensures Walking(p, blocks, tops, base, pos, l, s, i, j)
  {
    hide Sims, Wf, LinkInput, SeqInput, LinkAt, SeqAt;
    InputUnfolds(p, blocks, tops, pos, l, s, i, j);
    WalkInputWf(p, blocks, tops, pos, l, s, i, j);
    WalkInputSims(p, blocks, tops, base, pos, i, j, LinkAt(p, blocks, tops, pos, l, i, j - 1),
        LinkAt(p, blocks, tops, pos, l, i, j),
                  SeqAt(p, blocks[pos], pos, s, i, j - 1), SeqAt(p, blocks[pos], pos, s, i, j));
  }

  lemma WalkOutputs(p: Params, blocks: seq<Block>, tops: seq<Topology>, base: Ledger, pos: nat, l: Link, s: Chain,
        i: nat)
    requires Setting(blocks, tops, base, pos) && Place(blocks[pos], i, 0) && i > 0
    requires Walking(p, blocks, tops, base, pos, l, s, i - 1, Width(blocks[pos], i - 1))
    ensures Walking(p, blocks, tops, base, pos, l, s, i, 0)
  {
    var b := blocks[pos];
    TopFacts(b, i - 1, Width(b, i - 1));
    OutputsStep(p, blocks, tops, base, pos, i - 1, LinkAt(p, blocks, tops, pos, l, i - 1, Width(b, i - 1)),
        TopAt(b, i - 1, Width(b, i - 1)),
                SeqAt(p, b, pos, s, i - 1, Width(b, i - 1)));
  }

  lemma {:induction false} WalkStep(p: Params, blocks: seq<Block>, tops: seq<Topology>, base: Ledger, pos: nat, l: Link,
        s: Chain, i: nat, j: nat)
    requires Setting(blocks, tops, base, pos) && Place(blocks[pos], i, j)
        && Walking(p, blocks, tops, base, pos, l, s, 0, 0)
    ensures Walking(p, blocks, tops, base, pos, l, s, i, j)
    decreases i, j
  {
    if j > 0 {
      WalkStep(p, blocks, tops, base, pos, l, s, i, j - 1);
      WalkInput(p, blocks, tops, base, pos, l, s, i, j);
    } else if i > 0 {
      WalkStep(p, blocks, tops, base, pos, l, s, i - 1, Width(blocks[pos], i - 1));
      WalkOutputs(p, blocks, tops, base, pos, l, s, i);
    }
  }

  // ---- the end of a block ------------------------------------------------------------------------

  type Table = map<TxId, Slot>

  predicate Entered(b: Block, pos: nat, table: Table, k: nat)
    requires k < |b.txs|
  {
    b.txs[k].id in table && table[b.txs[k].id] == Slot(pos, k, OutBase(b, k))
  }

  /** A name in the table was there before, or is that of one of the first `n` transactions. */
  predicate Known(b: Block, pos: nat, was: Table, table: Table, n: nat, id: TxId)
    requires n <= |b.txs|
  {
    && (id in was ==> id in table && table[id] == was[id])
    && (id in table && id !in was ==>
         table[id].block == pos && table[id].tx < n && b.txs[table[id].tx].id == id
         && table[id].base == OutBase(b, table[id].tx))
  }

  ghost predicate Grown(b: Block, pos: nat, was: Table, table: Table, n: nat)
    requires n <= |b.txs|
  {
    && (forall k :: 0 <= k < n ==> Entered(b, pos, table, k))
    && (forall id :: Known(b, pos, was, table, n, id))
  }

  /** The transactions of a block join the table; nothing else changes. */
  ghost predicate Joined(b: Block, pos: nat, l: Link, l': Link, n: nat)
    requires n <= |b.txs|
  {
    && l'.outMarks == l.outMarks && l'.residual == l.residual && l'.spends == l.spends && l'.linked == l.linked
         && l'.ok == l.ok
    && Grown(b, pos, l.table, l'.table, n)
  }

  lemma NotJoinedYet(blocks: seq<Block>, pos: nat, ordinal: nat, l: Link, l': Link, n: nat)
    requires Distinct(blocks) && Wf(blocks, pos, ordinal, l) && ValidTx(blocks, pos, n)
        && Joined(blocks[pos], pos, l, l', n)
    ensures blocks[pos].txs[n].id !in l'.table
  {
    var id := IdOf(blocks, pos, n);
    assert id in l.table ==> SlotOk(blocks, pos, id, l.table[id]);
    assert Known(blocks[pos], pos, l.table, l'.table, n, id);
    assert id in l'.table && id !in l.table ==>
        ValidTx(blocks, pos, l'.table[id].tx) && IdOf(blocks, pos, l'.table[id].tx) == id;
  }

  lemma KnownNext(b: Block, pos: nat, was: Table, table: Table, n: nat, id: TxId)
    requires n < |b.txs| && b.txs[n].id !in table && Known(b, pos, was, table, n, id)
    requires b.txs[n].id in was ==> b.txs[n].id in table
    ensures Known(b, pos, was, table[b.txs[n].id := Slot(pos, n, OutBase(b, n))], n + 1, id)
  {
  }

  lemma EnteredNext(b: Block, pos: nat, table: Table, n: nat, k: nat)
    requires k < n < |b.txs| && b.txs[n].id !in table && Entered(b, pos, table, k)
    ensures Entered(b, pos, table[b.txs[n].id := Slot(pos, n, OutBase(b, n))], k)
  {
  }

  lemma AllKnownNext(b: Block, pos: nat, was: Table, table: Table, n: nat, table': Table, m: nat)
    requires n < |b.txs| && b.txs[n].id !in table && m == n + 1
        && table' == table[b.txs[n].id := Slot(pos, n, OutBase(b, n))]
    requires forall id :: Known(b, pos, was, table, n, id)
    ensures forall id :: Known(b, pos, was, table', m, id)
  {
    assert Known(b, pos, was, table, n, b.txs[n].id);
    assert b.txs[n].id !in was;
    forall id ensures Known(b, pos, was, table', m, id) {
      assert Known(b, pos, was, table, n, id);
      KnownNext(b, pos, was, table, n, id);
    }
  }

  lemma EnterOne(b: Block, pos: nat, was: Table, table: Table, n: nat)
    requires n < |b.txs| && Grown(b, pos, was, table, n) && b.txs[n].id !in table
    ensures Grown(b, pos, was, table[b.txs[n].id := Slot(pos, n, OutBase(b, n))], n + 1)
  {
    var table', m := table[b.txs[n].id := Slot(pos, n, OutBase(b, n))], n + 1;
    AllKnownNext(b, pos, was, table, n, table', m);
    AllEnteredNext(b, pos, table, n, table', m);
  }

  lemma AllEnteredNext(b: Block, pos: nat, table: Table, n: nat, table': Table, m: nat)
    requires n < |b.txs| && b.txs[n].id !in table && m == n + 1
        && table' == table[b.txs[n].id := Slot(pos, n, OutBase(b, n))]
    requires forall k :: 0 <= k < n ==> Entered(b, pos, table, k)
    ensures forall k :: 0 <= k < m ==> Entered(b, pos, table', k)
  {
    forall k | 0 <= k < m ensures Entered(b, pos, table', k) {
      if k < n {
        assert Entered(b, pos, table, k);
        EnteredNext(b, pos, table, n, k);
      }
    }
  }

  lemma {:induction false} TransactionsJoin(blocks: seq<Block>, tops: seq<Topology>, pos: nat, ordinal: nat, l: Link,
        n: nat)
    requires pos < |blocks| == |tops| && Distinct(blocks) && Wf(blocks, pos, ordinal, l) && n <= |blocks[pos].txs|
    ensures Joined(blocks[pos], pos, l, InsertTxs(blocks, tops, pos, l, n), n)
  {
    if n > 0 {
      TransactionsJoin(blocks, tops, pos, ordinal, l, n - 1);
      var l1 := InsertTxs(blocks, tops, pos, l, n - 1);
      NotJoinedYet(blocks, pos, ordinal, l, l1, n - 1);
      EnterOne(blocks[pos], pos, l.table, l1.table, n - 1);
    }
  }

  lemma WfJoined(blocks: seq<Block>, pos: nat, ordinal: nat, l: Link, l': Link)
    requires pos < |blocks| && Wf(blocks, pos, ordinal, l) && Joined(blocks[pos], pos, l, l', |blocks[pos].txs|)
    ensures Wf(blocks, pos + 1, 0, l')
  {
    forall id | id in l'.table ensures SlotOk(blocks, pos + 1, id, l'.table[id]) {
      assert Known(blocks[pos], pos, l.table, l'.table, |blocks[pos].txs|, id);
      assert id in l.table ==> SlotOk(blocks, pos, id, l.table[id]);
    }
    forall k | 0 <= k < |l'.residual| ensures ResidualWf(blocks, pos + 1, 0, l', l'.residual[k]) {
      assert ResidualWf(blocks, pos, ordinal, l, l.residual[k]);
    }
  }

  /** The topology knows every transaction by its place. */
  lemma HomeOf(blocks: seq<Block>, pos: nat, k: nat)
    requires Distinct(blocks) && ValidTx(blocks, pos, k)
    ensures var t, id := TopologyOf(blocks[pos]), blocks[pos].txs[k].id;
            id in t.seen && t.seen[id] == Home(k, OutBase(blocks[pos], k))
  {
    var b := blocks[pos];
    var t, id := TopologyOf(b), b.txs[k].id;
    TopFacts(b, |b.txs|, 0);
    assert id in t.seen;
    assert ValidTx(blocks, pos, t.seen[id].tx) && IdOf(blocks, pos, t.seen[id].tx) == IdOf(blocks, pos, k);
  }

  /** A coin of this block is live in the new table exactly when the walk left it unspent. */
  lemma OwnBecomesLive(blocks: seq<Block>, tops: seq<Topology>, pos: nat, l': Link, own: Ledger, o: Outpoint, k: nat)
    requires |tops| == |blocks| && ValidTx(blocks, pos, k) && blocks[pos].txs[k].id == o.tx
    requires var t := tops[pos];
        o.tx in t.seen && t.seen[o.tx] == Home(k, OutBase(blocks[pos], k)) && OwnAt(blocks[pos], t, own, o)
    requires o.tx in l'.table && l'.table[o.tx] == Slot(pos, k, OutBase(blocks[pos], k))
    requires forall m :: m in l'.outMarks ==> m.0 < pos
    ensures Live(blocks, tops, l', o) <==> o in own && IsCoin(own[o].record)
    ensures Live(blocks, tops, l', o) ==> LiveCoin(blocks, tops, l', o) == own[o]
  {
    assert SlotOk(blocks, |blocks|, o.tx, l'.table[o.tx]);
  }

  lemma NotOwn(b: Block, own: Ledger, o: Outpoint)
    requires OwnAt(b, TopologyOf(b), own, o)
    requires forall k :: 0 <= k < |b.txs| ==> b.txs[k].id != o.tx
    ensures o !in own
  {
    TopFacts(b, |b.txs|, 0);
  }

  /** Coins of other transactions are as live as they were. */
  lemma OthersStay(blocks: seq<Block>, tops: seq<Topology>, pos: nat, l: Link, l': Link, o: Outpoint)
    requires pos < |blocks| == |tops| && l'.outMarks == l.outMarks
    requires o.tx in l.table <==> o.tx in l'.table
    requires o.tx in l.table ==> l'.table[o.tx] == l.table[o.tx]
    ensures Live(blocks, tops, l, o) <==> Live(blocks, tops, l', o)
    ensures Live(blocks, tops, l, o) ==> LiveCoin(blocks, tops, l', o) == LiveCoin(blocks, tops, l, o)
  {
  }

  lemma LedgerSettlesAt(blocks: seq<Block>, tops: seq<Topology>, base: Ledger, pos: nat, ordinal: nat, l: Link,
        l': Link, s: Chain, o: Outpoint)
    requires Setting(blocks, tops, base, pos) && Wf(blocks, pos, ordinal, l)
        && Joined(blocks[pos], pos, l, l', |blocks[pos].txs|)
    requires s.Chain? && LedgerAt(blocks, tops, base, l, s.ledger, o)
        && OwnAt(blocks[pos], TopologyOf(blocks[pos]), s.own, o)
    ensures LedgerAt(blocks, tops, base, l', Settle(s).ledger, o)
  {
    assert Known(blocks[pos], pos, l.table, l'.table, |blocks[pos].txs|, o.tx);
    if k :| 0 <= k < |blocks[pos].txs| && blocks[pos].txs[k].id == o.tx {
      assert Entered(blocks[pos], pos, l'.table, k);
      OwnIsNotLedger(blocks, tops, base, pos, ordinal, l, o, k);
      HomeOf(blocks, pos, k);
      OwnBecomesLive(blocks, tops, pos, l', s.own, o, k);
    } else {
      NotOwn(blocks[pos], s.own, o);
      OthersStay(blocks, tops, pos, l, l', o);
    }
  }

  lemma LedgerSettles(blocks: seq<Block>, tops: seq<Topology>, base: Ledger, pos: nat, ordinal: nat, l: Link, l': Link,
        s: Chain)
    requires Setting(blocks, tops, base, pos) && Wf(blocks, pos, ordinal, l)
        && Joined(blocks[pos], pos, l, l', |blocks[pos].txs|)
    requires s.Chain? && LedgerSim(blocks, tops, base, l, s.ledger)
        && OwnSim(blocks[pos], TopologyOf(blocks[pos]), s.own)
    ensures LedgerSim(blocks, tops, base, l', Settle(s).ledger)
  {
    forall o ensures LedgerAt(blocks, tops, base, l', Settle(s).ledger, o) {
      assert LedgerAt(blocks, tops, base, l, s.ledger, o) && OwnAt(blocks[pos], TopologyOf(blocks[pos]), s.own, o);
      LedgerSettlesAt(blocks, tops, base, pos, ordinal, l, l', s, o);
    }
  }

  // ---- between blocks ------------------------------------------------------------------------------

  /** The two in step between blocks: the first `n` are done. */
  ghost predicate Between(p: Params, blocks: seq<Block>, tops: seq<Topology>, base: Ledger, n: nat, l: Link, s: Chain)
    requires |tops| == |blocks|
  {
    && Wf(blocks, n, 0, l)
    && (s.Chain? <==> AllTrue(l.completable) && AllAnswered(p, blocks, base, l.residual))
    && (s.Chain? ==>
         LedgerSim(blocks, tops, base, l, s.ledger) && s.own == map[] && SpentSim(p, blocks, base, l, s.spent))
  }

  lemma BlockOpens(p: Params, blocks: seq<Block>, tops: seq<Topology>, base: Ledger, pos: nat, l: Link, s: Chain)
    requires Setting(blocks, tops, base, pos) && Between(p, blocks, tops, base, pos, l, s)
    ensures Wf(blocks, pos, 0, l.(ok := true))
        && Sims(p, blocks, tops, base, blocks[pos], l.(ok := true), NO_TOPOLOGY, s)
  {
    var l' := l.(ok := true);
    forall k | 0 <= k < |l'.residual| ensures ResidualWf(blocks, pos, 0, l', l'.residual[k]) {
      assert ResidualWf(blocks, pos, 0, l, l.residual[k]);
    }
    if s.Chain? {
      LedgerStays(blocks, tops, base, l, l', s.ledger);
    }
  }

  lemma AllTrueMore(cs: seq<bool>, c: bool)
    ensures AllTrue(cs + [c]) <==> AllTrue(cs) && c
  {
    assert (cs + [c])[|cs|] == c;
    assert forall k :: 0 <= k < |cs| ==> (cs + [c])[k] == cs[k];
  }

  lemma WfLater(blocks: seq<Block>, pos: nat, l: Link, cs: seq<bool>)
    requires Wf(blocks, pos, 0, l)
    ensures Wf(blocks, pos + 1, 0, l.(completable := cs))
  {
    var l' := l.(completable := cs);
    forall id | id in l'.table ensures SlotOk(blocks, pos + 1, id, l'.table[id]) {
      assert SlotOk(blocks, pos, id, l.table[id]);
    }
    forall k | 0 <= k < |l'.residual| ensures ResidualWf(blocks, pos + 1, 0, l', l'.residual[k]) {
      assert ResidualWf(blocks, pos, 0, l, l.residual[k]);
    }
  }

  lemma BlockCloses(p: Params, blocks: seq<Block>, tops: seq<Topology>, base: Ledger, pos: nat, ordinal: nat, l: Link,
        l': Link, s: Chain)
    requires Setting(blocks, tops, base, pos) && Wf(blocks, pos, ordinal, l)
        && Joined(blocks[pos], pos, l, l', |blocks[pos].txs|)
    requires Sims(p, blocks, tops, base, blocks[pos], l, TopologyOf(blocks[pos]), s) && !TopologyOf(blocks[pos]).invalid
    requires l'.completable == l.completable + [l'.ok]
    ensures Between(p, blocks, tops, base, pos + 1, l', Settle(s))
  {
    WfJoined(blocks, pos, ordinal, l, l');
    AllTrueMore(l.completable, l'.ok);
    if s.Chain? {
      LedgerSettles(blocks, tops, base, pos, ordinal, l, l', s);
    }
  }

  lemma BlockStep(p: Params, blocks: seq<Block>, tops: seq<Topology>, base: Ledger, pos: nat, l: Link, s: Chain)
    requires Setting(blocks, tops, base, pos) && Between(p, blocks, tops, base, pos, l, s)
    ensures Between(p, blocks, tops, base, pos + 1, LinkBlock(p, blocks, tops, pos, l),
        SeqBlock(p, blocks[pos], pos, s))
  {
    var b, l0 := blocks[pos], l.(ok := true);
    var l1 := LinkAt(p, blocks, tops, pos, l0, |b.txs|, 0);
    BlockOpens(p, blocks, tops, base, pos, l, s);
    WalkStep(p, blocks, tops, base, pos, l0, s, |b.txs|, 0);
    if tops[pos].invalid {
      WfLater(blocks, pos, l, l.completable + [false]);
      AllTrueMore(l.completable, false);
    } else {
      var l2 := InsertTxs(blocks, tops, pos, l1, |b.txs|);
      TransactionsJoin(blocks, tops, pos, InBase(b, |b.txs|), l1, |b.txs|);
      BlockCloses(p, blocks, tops, base, pos, InBase(b, |b.txs|), l1, l2.(completable := l.completable + [l2.ok]),
          SeqAt(p, b, pos, s, |b.txs|, 0));
    }
  }
}
