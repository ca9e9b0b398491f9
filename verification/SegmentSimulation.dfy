/**
The linker, not knowing the coins, keeps step with the plain connect that does.

At every place of the walk the plain connect is still going exactly when the linker has
found nothing wrong and the coins it put off are all there, and then the plain ledger is
the base without the coins put off plus the outputs of the segment not marked spent.
 */
module SegmentSimulation {
  import opened Wrappers
  import opened SegmentModel
  import opened SegmentTopology

  predicate ValidTx(blocks: seq<Block>, b: nat, i: nat) { b < |blocks| && i < |blocks[b].txs| }

  function IdOf(blocks: seq<Block>, b: nat, i: nat): TxId
    requires ValidTx(blocks, b, i)
  {
    blocks[b].txs[i].id
  }

  /** No two transactions of the segment share an id. */
  ghost predicate Distinct(blocks: seq<Block>) {
    forall b, i, b', i' ::
        ValidTx(blocks, b, i) && ValidTx(blocks, b', i') && IdOf(blocks, b, i) == IdOf(blocks, b', i') ==>
        b == b' && i == i'
  }

  /** No transaction of the segment has a coin in the base. */
  ghost predicate NotLive(blocks: seq<Block>, base: Ledger) {
    forall o, b, i :: o in base && ValidTx(blocks, b, i) ==> o.tx != IdOf(blocks, b, i)
  }

  // ---- what the ledger is -----------------------------------------------------------

  predicate SlotOk(blocks: seq<Block>, n: nat, id: TxId, s: Slot) {
    && s.block < n && ValidTx(blocks, s.block, s.tx) && IdOf(blocks, s.block, s.tx) == id
    && s.base == OutBase(blocks[s.block], s.tx)
  }

  /** A coin created inside the segment and not marked spent. */
  predicate Live(blocks: seq<Block>, tops: seq<Topology>, l: Link, o: Outpoint)
    requires |tops| == |blocks|
  {
    && o.tx in l.table
    && var s := l.table[o.tx];
       && SlotOk(blocks, |blocks|, o.tx, s)
       && o.index < |blocks[s.block].txs[s.tx].outputs|
       && IsCoin(blocks[s.block].txs[s.tx].outputs[o.index])
       && !SpentInside(l, s.block, tops[s.block], s.base + o.index)
  }

  function LiveCoin(blocks: seq<Block>, tops: seq<Topology>, l: Link, o: Outpoint): Coin
    requires |tops| == |blocks| && Live(blocks, tops, l, o)
  {
    CoinOf(blocks[l.table[o.tx].block], l.table[o.tx].tx, o.index)
  }

  ghost predicate LedgerAt(blocks: seq<Block>, tops: seq<Topology>, base: Ledger, l: Link, ledger: Ledger, o: Outpoint)
    requires |tops| == |blocks|
  {
    && (o in ledger <==> (o in base && o !in l.spends) || Live(blocks, tops, l, o))
    && (Live(blocks, tops, l, o) ==> ledger[o] == LiveCoin(blocks, tops, l, o))
    && (o in ledger && !Live(blocks, tops, l, o) ==> ledger[o] == base[o])
  }

  ghost predicate LedgerSim(blocks: seq<Block>, tops: seq<Topology>, base: Ledger, l: Link, ledger: Ledger)
    requires |tops| == |blocks|
  {
    forall o :: LedgerAt(blocks, tops, base, l, ledger, o)
  }

  /** An output of the block being walked, created and not spent yet. */
  predicate Own(b: Block, t: Topology, o: Outpoint) {
    && o.tx in t.seen && t.seen[o.tx].tx < |b.txs|
    && o.index < |b.txs[t.seen[o.tx].tx].outputs|
    && t.seen[o.tx].base + o.index !in t.bits
  }

  ghost predicate OwnAt(b: Block, t: Topology, own: Ledger, o: Outpoint) {
    && (o in own <==> Own(b, t, o))
    && (Own(b, t, o) ==> own[o] == CoinOf(b, t.seen[o.tx].tx, o.index))
  }

  ghost predicate OwnSim(b: Block, t: Topology, own: Ledger) {
    forall o :: OwnAt(b, t, own, o)
  }

  // ---- what was spent ---------------------------------------------------------------

  function ResOp(blocks: seq<Block>, r: Residual): Outpoint
    requires ResidualOk(blocks, r)
  {
    Spends(blocks[r.block], r.tx, r.idx)
  }

  ghost predicate Answered(p: Params, blocks: seq<Block>, base: Ledger, r: Residual) {
    ResidualOk(blocks, r) && Answer(p, blocks, base, r).Some?
  }

  ghost predicate AllAnswered(p: Params, blocks: seq<Block>, base: Ledger, rs: seq<Residual>) {
    forall k :: 0 <= k < |rs| ==> Answered(p, blocks, base, rs[k])
  }

  ghost predicate AllTrue(cs: seq<bool>) { forall k :: 0 <= k < |cs| ==> cs[k] }

  /** Every linked slot and every answer is the coin the plain connect spent there. */
  ghost predicate SpentSim(p: Params, blocks: seq<Block>, base: Ledger, l: Link, spent: map<(nat, nat), Coin>) {
    && (forall key :: key in l.linked ==> key in spent && spent[key] == l.linked[key])
    && (forall k :: 0 <= k < |l.residual| ==> SpentAnswer(p, blocks, base, l.residual[k], spent))
  }

  ghost predicate SpentAnswer(p: Params, blocks: seq<Block>, base: Ledger, r: Residual, spent: map<(nat, nat), Coin>) {
    && ResidualOk(blocks, r) && (r.block, r.ordinal) in spent
    && Answer(p, blocks, base, r) == Some(spent[(r.block, r.ordinal)])
  }

  // ---- the shape of the linker's state ----------------------------------------------

  predicate Before(key: (nat, nat), pos: nat, ordinal: nat) { key.0 < pos || (key.0 == pos && key.1 < ordinal) }

  ghost predicate Wf(blocks: seq<Block>, pos: nat, ordinal: nat, l: Link) {
    && (forall id :: id in l.table ==> SlotOk(blocks, pos, id, l.table[id]))
    && (forall m :: m in l.outMarks ==> m.0 < pos)
    && (forall k :: 0 <= k < |l.residual| ==> ResidualWf(blocks, pos, ordinal, l, l.residual[k]))
    && (forall o :: o in l.spends ==>
         exists k :: 0 <= k < |l.residual| && ResidualOk(blocks, l.residual[k]) && ResOp(blocks, l.residual[k]) == o)
    && (forall key :: key in l.linked ==> Before(key, pos, ordinal))
  }

  ghost predicate ResidualWf(blocks: seq<Block>, pos: nat, ordinal: nat, l: Link, r: Residual) {
    && ResidualOk(blocks, r) && ResOp(blocks, r) in l.spends
    && Before((r.block, r.ordinal), pos, ordinal) && (r.block, r.ordinal) !in l.linked
    && r.ordinal == InBase(blocks[r.block], r.tx) + r.idx
  }

  // ---- the two in step ----------------------------------------------------------------

  /** The linker and the answers have nothing against the walk so far. */
  ghost predicate Clear(p: Params, blocks: seq<Block>, base: Ledger, l: Link, t: Topology) {
    AllTrue(l.completable) && l.ok && !t.invalid && AllAnswered(p, blocks, base, l.residual)
  }

  ghost predicate Sims(p: Params, blocks: seq<Block>, tops: seq<Topology>, base: Ledger, b: Block, l: Link, t: Topology,
        s: Chain)
    requires |tops| == |blocks|
  {
    && (s.Chain? <==> Clear(p, blocks, base, l, t))
    && (s.Chain? ==>
         LedgerSim(blocks, tops, base, l, s.ledger) && OwnSim(b, t, s.own) && SpentSim(p, blocks, base, l, s.spent))
  }

  /** The setting of one step of the walk. */
  ghost predicate Setting(blocks: seq<Block>, tops: seq<Topology>, base: Ledger, pos: nat) {
    && |tops| == |blocks| && pos < |blocks| && tops == Topologies(blocks)
    && Distinct(blocks) && NotLive(blocks, base)
  }

  /** An outpoint of an earlier transaction of this block is in no ledger. */
  lemma OwnIsNotLedger(blocks: seq<Block>, tops: seq<Topology>, base: Ledger, pos: nat, ordinal: nat, l: Link,
        o: Outpoint, k: nat)
    requires Setting(blocks, tops, base, pos) && Wf(blocks, pos, ordinal, l)
    requires k < |blocks[pos].txs| && blocks[pos].txs[k].id == o.tx
    ensures o !in base && o.tx !in l.table && !Live(blocks, tops, l, o)
  {
    assert ValidTx(blocks, pos, k) && IdOf(blocks, pos, k) == o.tx;
    assert o.tx in l.table ==> SlotOk(blocks, pos, o.tx, l.table[o.tx]);
  }

  /** What a created coin's word says is not touched by dropping the restored mark. */
  lemma LinkedMetaOfCreated(height: nat, flags: nat)
    requires flags < 4
    ensures LinkedMeta(UtxoMeta(height, flags)) == UtxoMeta(height, flags)
  {
    var x := (height * 8) % WORD;
    assert x % 8 == 0 by {
      assert x == height * 8 - (height * 8) / WORD * WORD;
      assert WORD == 8 * 0x2000_0000;
      assert x == 8 * (height - (height * 8) / WORD * 0x2000_0000);
    }
    var y := x / 8;
    assert x == 8 * y;
    assert (8 * y + flags) / 4 == 2 * y + flags / 4;
  }

  // ---- an input answered by its own block ---------------------------------------------

  lemma OwnSpend(b: Block, i: nat, j: nat, t: Topology, own: Ledger, o: Outpoint)
    requires i <= |b.txs| && TopOk(b, i, j, t) && OwnSim(b, t, own) && Own(b, t, o)
    ensures OwnSim(b, TopInput(b, t, o), own - {o})
  {
    var t' := TopInput(b, t, o);
    var h := t.seen[o.tx];
    forall q ensures OwnAt(b, t', own - {o}, q) {
      assert OwnAt(b, t, own, q);
      if Own(b, t, q) && t.seen[q.tx].base + q.index == h.base + o.index {
        OrdinalInjective(b, t.seen[q.tx].tx, q.index, h.tx, o.index);
      }
    }
  }

  /** Everything but the slot of this input stays. */
  ghost predicate OnlyLinked(l: Link, l': Link) {
    l'.table == l.table && l'.outMarks == l.outMarks && l'.residual == l.residual && l'.spends == l.spends
        && l'.completable == l.completable
  }

  lemma LedgerStays(blocks: seq<Block>, tops: seq<Topology>, base: Ledger, l: Link, l': Link, ledger: Ledger)
    requires |tops| == |blocks| && OnlyLinked(l, l') && LedgerSim(blocks, tops, base, l, ledger)
    ensures LedgerSim(blocks, tops, base, l', ledger)
  {
    forall o ensures LedgerAt(blocks, tops, base, l', ledger, o) {
      assert LedgerAt(blocks, tops, base, l, ledger, o);
    }
  }

  lemma SpentMore(p: Params, blocks: seq<Block>, base: Ledger, pos: nat, ordinal: nat, l: Link, l': Link,
        spent: map<(nat, nat), Coin>, coin: Coin)
    requires Wf(blocks, pos, ordinal, l) && SpentSim(p, blocks, base, l, spent)
    requires l'.residual == l.residual && l'.linked == l.linked[(pos, ordinal) := coin]
    ensures SpentSim(p, blocks, base, l', spent[(pos, ordinal) := coin])
  {
    forall k | 0 <= k < |l.residual|
        ensures SpentAnswer(p, blocks, base, l.residual[k], spent[(pos, ordinal) := coin]) {
      assert ResidualWf(blocks, pos, ordinal, l, l.residual[k]);
      assert SpentAnswer(p, blocks, base, l.residual[k], spent);
    }
  }

  lemma InputLocal(p: Params, blocks: seq<Block>, tops: seq<Topology>, base: Ledger, pos: nat, i: nat, j: nat, l: Link,
        t: Topology, s: Chain, o: Outpoint)
    requires Setting(blocks, tops, base, pos) && i <= |blocks[pos].txs| && TopOk(blocks[pos], i, j, t)
    requires Wf(blocks, pos, InBase(blocks[pos], i) + j, l)
    requires s.Chain? && Sims(p, blocks, tops, base, blocks[pos], l, t, s)
    requires o.tx in t.seen
    ensures var ordinal := InBase(blocks[pos], i) + j;
            Sims(p, blocks, tops, base, blocks[pos], LinkLocal(p, blocks[pos], pos, l, o, ordinal, t.seen[o.tx].tx),
                 TopInput(blocks[pos], t, o), SeqInput(p, blocks[pos], pos, s, o, ordinal))
  {
    hide Wf;
    var b, ordinal, k := blocks[pos], InBase(blocks[pos], i) + j, t.seen[o.tx].tx;
    var l' := LinkLocal(p, b, pos, l, o, ordinal, k);
    assert OwnAt(b, t, s.own, o) && LedgerAt(blocks, tops, base, l, s.ledger, o);
    OwnIsNotLedger(blocks, tops, base, pos, ordinal, l, o, k);
    if Own(b, t, o) {
      OwnSpend(b, i, j, t, s.own, o);
      LedgerStays(blocks, tops, base, l, l', s.ledger);
      SpentMore(p, blocks, base, pos, ordinal, l, l', s.spent, l'.linked[(pos, ordinal)]);
    }
  }

  // ---- an input spends from an earlier block -----------------------------

  /** A topology that only notes the input as foreign leaves the own outputs alone. */
  lemma OwnForeign(b: Block, t: Topology, own: Ledger, o: Outpoint)
    requires OwnSim(b, t, own) && o.tx !in t.seen
    ensures OwnSim(b, TopInput(b, t, o), own)
    ensures o !in own
  {
    assert OwnAt(b, t, own, o);
    forall q ensures OwnAt(b, TopInput(b, t, o), own, q) {
      assert OwnAt(b, t, own, q);
    }
  }

  /** Marking an output spent takes exactly that coin out of the ledger. */
  lemma LedgerMark(blocks: seq<Block>, tops: seq<Topology>, base: Ledger, pos: nat, ordinal: nat, l: Link, l': Link,
        ledger: Ledger, o: Outpoint)
    requires Setting(blocks, tops, base, pos) && Wf(blocks, pos, ordinal, l)
    requires LedgerSim(blocks, tops, base, l, ledger) && Live(blocks, tops, l, o)
    requires l'.table == l.table && l'.spends == l.spends
    requires l'.outMarks == l.outMarks + {(l.table[o.tx].block, l.table[o.tx].base + o.index)}
    ensures LedgerSim(blocks, tops, base, l', ledger - {o})
  {
    var so := l.table[o.tx];
    forall q ensures LedgerAt(blocks, tops, base, l', ledger - {o}, q) {
      assert LedgerAt(blocks, tops, base, l, ledger, q);
      if q == o {
        assert ValidTx(blocks, so.block, so.tx) && IdOf(blocks, so.block, so.tx) == o.tx;
      } else if Live(blocks, tops, l, q) {
        var sq := l.table[q.tx];
        if sq.block == so.block && sq.base + q.index == so.base + o.index {
          OrdinalInjective(blocks[so.block], sq.tx, q.index, so.tx, o.index);
        }
      }
    }
  }

  lemma InputEarlier(p: Params, blocks: seq<Block>, tops: seq<Topology>, base: Ledger, pos: nat, ordinal: nat, l: Link,
        t: Topology, s: Chain, o: Outpoint)
    requires Setting(blocks, tops, base, pos) && Wf(blocks, pos, ordinal, l)
    requires s.Chain? && Sims(p, blocks, tops, base, blocks[pos], l, t, s)
    requires o.tx !in t.seen && o.tx in l.table
    ensures Sims(p, blocks, tops, base, blocks[pos], LinkEarlier(p, blocks, tops, pos, l, o, ordinal, l.table[o.tx]),
                 TopInput(blocks[pos], t, o), SeqInput(p, blocks[pos], pos, s, o, ordinal))
  {
    var b, slot := blocks[pos], l.table[o.tx];
    var l' := LinkEarlier(p, blocks, tops, pos, l, o, ordinal, slot);
    OwnForeign(b, t, s.own, o);
    assert SlotOk(blocks, pos, o.tx, slot);
    assert ValidTx(blocks, slot.block, slot.tx) && IdOf(blocks, slot.block, slot.tx) == o.tx;
    assert o !in base;
    assert LedgerAt(blocks, tops, base, l, s.ledger, o);
    if Live(blocks, tops, l, o) {
      var coin := LiveCoin(blocks, tops, l, o);
      LinkedMetaOfCreated(blocks[slot.block].height, CreationFlags(blocks[slot.block].txs[slot.tx], slot.tx, o.index));
      assert LinkedMeta(coin.word) == coin.word;
      if CoinMature(p, coin.word, b.height) {
        LedgerMark(blocks, tops, base, pos, ordinal, l, l', s.ledger, o);
        SpentMore(p, blocks, base, pos, ordinal, l, l', s.spent, coin);
      }
    }
  }

  // ---- an input put off ------------------------------------------------------------------

  lemma LedgerPutOff(blocks: seq<Block>, tops: seq<Topology>, base: Ledger, l: Link, l': Link, ledger: Ledger,
        o: Outpoint)
    requires |tops| == |blocks| && LedgerSim(blocks, tops, base, l, ledger) && o.tx !in l.table
    requires l'.table == l.table && l'.outMarks == l.outMarks && l'.spends == l.spends + {o}
    ensures LedgerSim(blocks, tops, base, l', ledger - {o})
  {
    forall q ensures LedgerAt(blocks, tops, base, l', ledger - {o}, q) {
      assert LedgerAt(blocks, tops, base, l, ledger, q);
    }
  }

  lemma AnsweredMore(p: Params, blocks: seq<Block>, base: Ledger, rs: seq<Residual>, r: Residual)
    ensures AllAnswered(p, blocks, base, rs + [r]) <==> AllAnswered(p, blocks, base, rs) && Answered(p, blocks, base, r)
  {
    var rs' := rs + [r];
    assert rs'[|rs|] == r;
    assert forall k :: 0 <= k < |rs| ==> rs'[k] == rs[k];
  }

  lemma SpentPutOff(p: Params, blocks: seq<Block>, base: Ledger, pos: nat, ordinal: nat, l: Link, l': Link,
        spent: map<(nat, nat), Coin>, r: Residual, coin: Coin)
    requires Wf(blocks, pos, ordinal, l) && SpentSim(p, blocks, base, l, spent)
    requires l'.linked == l.linked && l'.residual == l.residual + [r] && r.block == pos && r.ordinal == ordinal
    requires ResidualOk(blocks, r) && Answer(p, blocks, base, r) == Some(coin)
    ensures SpentSim(p, blocks, base, l', spent[(pos, ordinal) := coin])
  {
    var spent' := spent[(pos, ordinal) := coin];
    forall k | 0 <= k < |l'.residual| ensures SpentAnswer(p, blocks, base, l'.residual[k], spent') {
      if k < |l.residual| {
        assert ResidualWf(blocks, pos, ordinal, l, l.residual[k]);
        assert SpentAnswer(p, blocks, base, l.residual[k], spent);
      }
    }
    assert forall key :: key in l.linked ==> Before(key, pos, ordinal);
  }

  lemma InputPutOff(p: Params, blocks: seq<Block>, tops: seq<Topology>, base: Ledger, pos: nat, i: nat, j: nat,
        ordinal: nat, l: Link, t: Topology, s: Chain, o: Outpoint)
    requires Setting(blocks, tops, base, pos) && Wf(blocks, pos, ordinal, l)
    requires j < Width(blocks[pos], i) && o == Spends(blocks[pos], i, j)
    requires s.Chain? && Sims(p, blocks, tops, base, blocks[pos], l, t, s)
    requires o.tx !in t.seen && o.tx !in l.table
    ensures Sims(p, blocks, tops, base, blocks[pos], LinkResidual(pos, l, o, i, j, ordinal),
                 TopInput(blocks[pos], t, o), SeqInput(p, blocks[pos], pos, s, o, ordinal))
  {
    var b, r := blocks[pos], Residual(pos, i, j, ordinal);
    var l' := LinkResidual(pos, l, o, i, j, ordinal);
    OwnForeign(b, t, s.own, o);
    assert LedgerAt(blocks, tops, base, l, s.ledger, o);
    if o !in l.spends {
      AnsweredMore(p, blocks, base, l.residual, r);
      if Answered(p, blocks, base, r) {
        LedgerPutOff(blocks, tops, base, l, l', s.ledger, o);
        SpentPutOff(p, blocks, base, pos, ordinal, l, l', s.spent, r, Answer(p, blocks, base, r).value);
      }
    }
  }

  // ---- one input -------------------------------------------------------------------------

  /** What is wrong stays wrong. */
  lemma InputRefused(p: Params, blocks: seq<Block>, tops: seq<Topology>, base: Ledger, pos: nat, i: nat, j: nat,
        l: Link, t: Topology, s: Chain)
    requires Setting(blocks, tops, base, pos) && i <= |blocks[pos].txs| && j < Width(blocks[pos], i)
    requires s.Refused? && Sims(p, blocks, tops, base, blocks[pos], l, t, s)
    ensures var o := Spends(blocks[pos], i, j);
            Sims(p, blocks, tops, base, blocks[pos], LinkInput(p, blocks, tops, pos, l, i, j),
                 TopInput(blocks[pos], t, o), SeqInput(p, blocks[pos], pos, s, o, InBase(blocks[pos], i) + j))
  {
    AnsweredMore(p, blocks, base, l.residual, Residual(pos, i, j, InBase(blocks[pos], i) + j));
  }

  lemma InputStep(p: Params, blocks: seq<Block>, tops: seq<Topology>, base: Ledger, pos: nat, i: nat, j: nat, l: Link,
        s: Chain)
    requires Setting(blocks, tops, base, pos) && Place(blocks[pos], i, j) && j < Width(blocks[pos], i)
    requires Wf(blocks, pos, InBase(blocks[pos], i) + j, l)
    requires Sims(p, blocks, tops, base, blocks[pos], l, TopAt(blocks[pos], i, j), s)
    ensures Sims(p, blocks, tops, base, blocks[pos], LinkInput(p, blocks, tops, pos, l, i, j),
        TopAt(blocks[pos], i, j + 1),
                 SeqInput(p, blocks[pos], pos, s, Spends(blocks[pos], i, j), InBase(blocks[pos], i) + j))
  {
    hide Sims, Wf, SeqInput;
    var b := blocks[pos];
    var t, o, ordinal := TopAt(b, i, j), Spends(b, i, j), InBase(b, i) + j;
    if s.Refused? {
      InputRefused(p, blocks, tops, base, pos, i, j, l, t, s);
    } else {
      LocalTxAt(b, i, j);
      TopFacts(b, i, j);
      InputTaken(p, blocks, tops, base, pos, i, j, ordinal, l, t, s, o);
    }
  }

  lemma InputTaken(p: Params, blocks: seq<Block>, tops: seq<Topology>, base: Ledger, pos: nat, i: nat, j: nat,
        ordinal: nat, l: Link, t: Topology, s: Chain, o: Outpoint)
    requires Setting(blocks, tops, base, pos) && i <= |blocks[pos].txs| && j < Width(blocks[pos], i)
        && TopOk(blocks[pos], i, j, t)
    requires o == Spends(blocks[pos], i, j) && ordinal == InBase(blocks[pos], i) + j && Wf(blocks, pos, ordinal, l)
    requires LocalTx(tops[pos], ordinal) == if o.tx in t.seen then Some(t.seen[o.tx].tx) else None
    requires s.Chain? && Sims(p, blocks, tops, base, blocks[pos], l, t, s)
    ensures Sims(p, blocks, tops, base, blocks[pos], LinkInput(p, blocks, tops, pos, l, i, j),
        TopInput(blocks[pos], t, o),
                 SeqInput(p, blocks[pos], pos, s, o, ordinal))
  {
    if o.tx in t.seen {
      InputLocal(p, blocks, tops, base, pos, i, j, l, t, s, o);
    } else if o.tx in l.table {
      InputEarlier(p, blocks, tops, base, pos, ordinal, l, t, s, o);
    } else {
      InputPutOff(p, blocks, tops, base, pos, i, j, ordinal, l, t, s, o);
    }
  }
}
