/**
Segment linking as it runs: one walk over the inputs of all blocks, with two probing tables, the marks and
the slots updated in place, and the wave that looks up what was put off. Hashes are arbitrary.
 */
module SegmentLinker {
  import opened Wrappers
  import opened SegmentModel
  import opened SegmentSimulation
  import opened SegmentVerdict
  import opened SegmentBatch
  import ProbeTable

  datatype Hashes = Hashes(tx: TxId -> nat, out: Outpoint -> nat)

  /** A slot of the transaction table names its transaction, and the txid is read there. */
  function TxKeys(h: Hashes, blocks: seq<Block>): ProbeTable.Keys<TxId, Slot> {
    ProbeTable.Keys(h.tx, (r: Slot) => if r.block < |blocks|
        && r.tx < |blocks[r.block].txs| then blocks[r.block].txs[r.tx].id else 0)
  }

  /** `outpointOf`: a slot of the spend table names an input put off, and the outpoint is read there. */
  function OutpointAt(blocks: seq<Block>, residual: seq<Residual>, r: nat): Outpoint {
    if r < |residual|
        && ResidualOk(blocks, residual[r]) then Spends(blocks[residual[r].block], residual[r].tx, residual[r].idx)
    else Outpoint(0, 0)
  }

  function SpendKeys(h: Hashes, blocks: seq<Block>, residual: seq<Residual>): ProbeTable.Keys<Outpoint, nat> {
    ProbeTable.Keys(h.out, (r: nat) => OutpointAt(blocks, residual, r))
  }

  // ---- room in the tables -----------------------------------------------------------------------------

  function Txs(blocks: seq<Block>, n: nat): nat
    requires n <= |blocks|
  {
    if n == 0 then 0 else Txs(blocks, n - 1) + |blocks[n - 1].txs|
  }

  function Ins(blocks: seq<Block>, n: nat): nat
    requires n <= |blocks|
  {
    if n == 0 then 0 else Ins(blocks, n - 1) + InBase(blocks[n - 1], |blocks[n - 1].txs|)
  }

  lemma {:induction false} CountsGrow(blocks: seq<Block>, n: nat, m: nat)
    requires n <= m <= |blocks|
    ensures Txs(blocks, n) <= Txs(blocks, m) && Ins(blocks, n) <= Ins(blocks, m)
  {
    if n < m {
      CountsGrow(blocks, n, m - 1);
    }
  }

  lemma OneMore<K, V>(m: map<K, V>, k: K, v: V)
    ensures |m[k := v]| <= |m| + 1
  {
    assert m[k := v].Keys == m.Keys + {k};
    assert |m[k := v].Keys| == |m[k := v]| && |m.Keys| == |m|;
  }

  /** The walk puts off no more outpoints than it has passed inputs. */
  lemma {:induction false} SpendsBound(p: Params, blocks: seq<Block>, tops: seq<Topology>, pos: nat, l: Link, i: nat,
        j: nat)
    requires pos < |blocks| == |tops| && Place(blocks[pos], i, j)
    ensures |LinkAt(p, blocks, tops, pos, l, i, j).spends| <= |l.spends| + InBase(blocks[pos], i) + j
    decreases i, j
  {
    if j > 0 {
      SpendsBound(p, blocks, tops, pos, l, i, j - 1);
    } else if i > 0 {
      SpendsBound(p, blocks, tops, pos, l, i - 1, Width(blocks[pos], i - 1));
    }
  }

  lemma {:induction false} TableBound(blocks: seq<Block>, tops: seq<Topology>, pos: nat, l: Link, i: nat)
    requires pos < |blocks| == |tops| && i <= |blocks[pos].txs|
    ensures |InsertTxs(blocks, tops, pos, l, i).table| <= |l.table| + i
        && InsertTxs(blocks, tops, pos, l, i).spends == l.spends
  {
    if i > 0 {
      TableBound(blocks, tops, pos, l, i - 1);
      var l1 := InsertTxs(blocks, tops, pos, l, i - 1);
      OneMore(l1.table, blocks[pos].txs[i - 1].id, Slot(pos, i - 1, OutBase(blocks[pos], i - 1)));
    }
  }

  lemma {:induction false} LinkBounds(p: Params, blocks: seq<Block>, tops: seq<Topology>, n: nat)
    requires n <= |blocks| == |tops|
    ensures |LinkBlocks(p, blocks, tops, n).spends| <= Ins(blocks, n)
        && |LinkBlocks(p, blocks, tops, n).table| <= Txs(blocks, n)
  {
    if n > 0 {
      LinkBounds(p, blocks, tops, n - 1);
      var l0, b := LinkBlocks(p, blocks, tops, n - 1).(ok := true), blocks[n - 1];
      SpendsBound(p, blocks, tops, n - 1, l0, |b.txs|, 0);
      WalkKeepsTable(p, blocks, tops, n - 1, l0, |b.txs|, 0);
      TableBound(blocks, tops, n - 1, LinkAt(p, blocks, tops, n - 1, l0, |b.txs|, 0), |b.txs|);
    }
  }

  method CountSegment(blocks: seq<Block>) returns (txCount: nat, inputCount: nat)
    ensures txCount == Txs(blocks, |blocks|) && inputCount == Ins(blocks, |blocks|)
  {
    txCount, inputCount := 0, 0;
    for n := 0 to |blocks|
      invariant txCount == Txs(blocks, n) && inputCount == Ins(blocks, n)
    {
      txCount := txCount + |blocks[n].txs|;
      inputCount := inputCount + InBase(blocks[n], |blocks[n].txs|);
    }
  }

  // ---- the linker ---------------------------------------------------------------------------------------

  class Segment {
    const blocks: seq<Block>
    const tops: seq<Topology>
    const hashes: Hashes
    const tx: ProbeTable.Table<TxId, Slot>
    const spend: ProbeTable.Table<Outpoint, nat>
    var outMarks: set<(nat, nat)>
    var inMarks: set<(nat, nat)>
    var residual: seq<Residual>
    var linked: map<(nat, nat), Coin>
    var completable: seq<bool>

    constructor (blocks: seq<Block>, hashes: Hashes)
      ensures this.blocks == blocks && tops == Topologies(blocks) && this.hashes == hashes && Roomy()
      ensures TablesOk() && View(true) == NO_LINK && fresh(tx) && fresh(tx.slots) && fresh(spend) && fresh(spend.slots)
    {
      var txCount, inputCount := CountSegment(blocks);
      this.blocks := blocks;
      this.hashes := hashes;
      tops := Topologies(blocks);
      tx := new ProbeTable.Table(TxKeys(hashes, blocks), txCount, Slot(0, 0, 0));
      spend := new ProbeTable.Table(SpendKeys(hashes, blocks, []), inputCount, 0);
      outMarks, inMarks, residual, linked, completable := {}, {}, [], map[], [];
    }

    /** Twice as many slots as there are transactions, and as inputs. */
    ghost predicate Roomy() {
      |tops| == |blocks| && 2 * Txs(blocks, |blocks|) <= tx.slots.Length
          && 2 * Ins(blocks, |blocks|) <= spend.slots.Length
    }

    /** The fields and what the two tables stand for as the linker's state, with the verdict in the making. */
    ghost function View(ok: bool): Link
      reads this, tx, spend
    {
      Link(tx.view, outMarks, inMarks, residual, spend.view.Keys, linked, ok, completable)
    }

    ghost predicate TablesOk()
      reads this, tx, tx.slots, spend, spend.slots
    {
      TxOk(hashes, blocks, tx) && SpendOk(hashes, blocks, spend, residual)
    }

    /** A coin older than the segment: put off, unless the segment spends it already. */
    method PutOff(pos: nat, i: nat, j: nat, ordinal: nat, going: bool, ghost l: Link) returns (ok: bool)
      requires Roomy() && pos < |blocks| && j < Width(blocks[pos], i) && TablesOk() && l == View(going)
      requires |l.spends| < Ins(blocks, |blocks|)
      modifies this`residual, spend`view, spend.slots
      ensures TablesOk() && View(ok) == LinkResidual(pos, l, Spends(blocks[pos], i, j), i, j, ordinal)
    {
      var now, first := SpendInsert(hashes, blocks, spend, residual, Residual(pos, i, j, ordinal));
      residual := now;
      ok := going && first;
      assert View(ok) == l.(residual := residual, spends := spend.view.Keys, ok := ok);
      PuttingOff(pos, l, Spends(blocks[pos], i, j), i, j, ordinal, first);
    }

    /** A spend of an output of its own block. */
    method ResolveLocal(p: Params, pos: nat, o: Outpoint, ordinal: nat, k: nat, going: bool, ghost l: Link)
          returns (ok: bool)
      requires pos < |blocks| && TablesOk() && l == View(going)
      modifies this`linked
      ensures TablesOk() && View(ok) == LinkLocal(p, blocks[pos], pos, l, o, ordinal, k)
    {
      var b := blocks[pos];
      ok := going;
      if k < |b.txs| && o.index < |b.txs[k].outputs| {
        var coin := CoinOf(b, k, o.index);
        linked := linked[(pos, ordinal) := Coin(AsLocal(coin.record), coin.word)];
        ok := going && CoinMature(p, coin.word, b.height);
      } else {
        ok := false;
      }
    }

    /** A spend of an output of an earlier block of the segment: the pair is marked on both sides. */
    method ResolveEarlier(p: Params, pos: nat, o: Outpoint, ordinal: nat, slot: Slot, going: bool, ghost l: Link)
          returns (ok: bool)
      requires Roomy() && pos < |blocks| && TablesOk() && l == View(going)
      modifies this`linked, this`outMarks, this`inMarks
      ensures TablesOk() && View(ok) == LinkEarlier(p, blocks, tops, pos, l, o, ordinal, slot)
    {
      ok := false;
      if slot.block >= |blocks| || slot.tx >= |blocks[slot.block].txs|
          || o.index >= |blocks[slot.block].txs[slot.tx].outputs| {
        return;
      }
      var out := slot.base + o.index;
      var coin := CoinOf(blocks[slot.block], slot.tx, o.index);
      if out in tops[slot.block].bits || (slot.block, out) in outMarks || !IsCoin(coin.record) {
        return;
      }
      linked := linked[(pos, ordinal) := coin];
      if !CoinMature(p, coin.word, blocks[pos].height) {
        return;
      }
      outMarks := outMarks + {(slot.block, out)};
      inMarks := inMarks + {(pos, ordinal)};
      ok := going;
    }

    /** One input: its own block answers it, or an earlier block, or nothing before the wave. */
    method ResolveInput(p: Params, pos: nat, i: nat, j: nat, ordinal: nat, going: bool, ghost l: Link, ghost next: Link)
          returns (ok: bool)
      requires Roomy() && pos < |blocks| && j < Width(blocks[pos], i)
      requires TablesOk() && l == View(going) && |l.spends| < Ins(blocks, |blocks|)
      requires Linking(p, blocks, tops, pos, l, i, j, ordinal, next)
      modifies this, spend`view, spend.slots
      ensures TablesOk() && View(ok) == next
    {
      var o := Spends(blocks[pos], i, j);
      var local := LocalTx(tops[pos], ordinal);
      if local.Some? {
        ok := ResolveLocal(p, pos, o, ordinal, local.value, going, l);
        return;
      }
      ok := ResolveForeign(p, pos, i, j, ordinal, going, l);
    }

    method ResolveForeign(p: Params, pos: nat, i: nat, j: nat, ordinal: nat, going: bool, ghost l: Link)
          returns (ok: bool)
      requires Roomy() && pos < |blocks| && j < Width(blocks[pos], i)
      requires TablesOk() && l == View(going) && |l.spends| < Ins(blocks, |blocks|)
      modifies this, spend`view, spend.slots
      ensures TablesOk() && View(ok) == LinkForeign(p, blocks, tops, pos, l, i, j, ordinal)
    {
      var o := Spends(blocks[pos], i, j);
      var slot := tx.Find(TxKeys(hashes, blocks), o.tx);
      if slot.Some? {
        ok := ResolveEarlier(p, pos, o, ordinal, slot.value, going, l);
      } else {
        ok := PutOff(pos, i, j, ordinal, going, l);
      }
    }

    /** All outputs of the earlier transaction of the same id are spent inside the segment. */
    method TwinIsSpent(slot: Slot, ghost l: Link) returns (spent: bool)
      requires |blocks| == |tops| && l.outMarks == outMarks
      ensures spent == TwinSpent(blocks, tops, l, slot)
    {
      if slot.block >= |blocks| || slot.tx >= |blocks[slot.block].txs| {
        return false;
      }
      var n := |blocks[slot.block].txs[slot.tx].outputs|;
      for i := 0 to n
        invariant forall k :: 0 <= k < i ==> OutputSpent(l, slot, tops[slot.block], k)
      {
        var ordinal := slot.base + i;
        if ordinal !in tops[slot.block].bits && (slot.block, ordinal) !in outMarks {
          assert !OutputSpent(l, slot, tops[slot.block], i);
          return false;
        }
      }
      return true;
    }

    /** One transaction joins the table, or takes over from an earlier one of its id whose coins are gone. */
    method InsertOne(pos: nat, i: nat, outBase: nat, going: bool, ghost l: Link) returns (ok: bool)
      requires Roomy() && pos < |blocks| && i < |blocks[pos].txs| && outBase == OutBase(blocks[pos], i)
      requires TablesOk() && l == View(going) && |l.table| < Txs(blocks, |blocks|)
      modifies tx`view, tx.slots
      ensures TablesOk() && View(ok) == InsertTx(blocks, tops, pos, l, i)
    {
      var b, keys, slot := blocks[pos], TxKeys(hashes, blocks), Slot(pos, i, outBase);
      var twin := tx.Insert(keys, b.txs[i].id, slot);
      ok := going;
      if twin.Some? {
        var spent := TwinIsSpent(tx.slots[twin.value].ref, l);
        if spent || b.repeat {
          tx.Rewrite(keys, twin.value, slot);
        } else {
          ok := false;
        }
      }
      assert View(ok) == l.(table := tx.view, ok := ok);
    }

    /** The inputs of one transaction. */
    method LinkTx(p: Params, pos: nat, i: nat, going: bool, ghost l0: Link) returns (ok: bool)
      requires Roomy() && pos < |blocks| && i < |blocks[pos].txs| && |l0.spends| <= Ins(blocks, pos)
      requires TablesOk() && View(going) == LinkAt(p, blocks, tops, pos, l0, i, 0)
      modifies this, spend`view, spend.slots
      ensures TablesOk() && View(ok) == LinkAt(p, blocks, tops, pos, l0, i, Width(blocks[pos], i))
    {
      hide TablesOk, LinkInput;
      ok := going;
      for j := 0 to Width(blocks[pos], i)
        invariant TablesOk() && View(ok) == LinkAt(p, blocks, tops, pos, l0, i, j)
      {
        ghost var l := LinkAt(p, blocks, tops, pos, l0, i, j);
        RoomForInput(p, blocks, tops, pos, l0, i, j);
        LinkingIs(p, blocks, tops, pos, l, i, j);
        ok := ResolveInput(p, pos, i, j, InBase(blocks[pos], i) + j, ok, l, LinkInput(p, blocks, tops, pos, l, i, j));
      }
    }

    /** The inputs of one block. */
    method LinkInputs(p: Params, pos: nat, ghost l0: Link) returns (ok: bool)
      requires Roomy() && pos < |blocks| && |l0.spends| <= Ins(blocks, pos) && TablesOk() && View(true) == l0
      modifies this, spend`view, spend.slots
      ensures TablesOk() && View(ok) == LinkAt(p, blocks, tops, pos, l0, |blocks[pos].txs|, 0)
    {
      hide TablesOk;
      ok := true;
      for i := 0 to |blocks[pos].txs|
        invariant TablesOk() && View(ok) == LinkAt(p, blocks, tops, pos, l0, i, 0)
      {
        ok := LinkTx(p, pos, i, ok, l0);
      }
    }

    /** The transactions of a linked block join the table. */
    method InsertBlock(pos: nat, going: bool, ghost l: Link) returns (ok: bool)
      requires Roomy() && pos < |blocks| && |l.table| <= Txs(blocks, pos) && TablesOk() && View(going) == l
      modifies tx`view, tx.slots
      ensures TablesOk() && View(ok) == InsertTxs(blocks, tops, pos, l, |blocks[pos].txs|)
    {
      hide TablesOk;
      ok := going;
      var outBase := 0;
      for i := 0 to |blocks[pos].txs|
        invariant outBase == OutBase(blocks[pos], i) && TablesOk() && View(ok) == InsertTxs(blocks, tops, pos, l, i)
      {
        RoomForTx(blocks, tops, pos, l, i);
        ok := InsertOne(pos, i, outBase, ok, InsertTxs(blocks, tops, pos, l, i));
        outBase := outBase + |blocks[pos].txs[i].outputs|;
      }
    }

    /** One block: every input, then its transactions. */
    method ResolveBlock(p: Params, pos: nat, ghost l: Link)
      requires Roomy() && pos < |blocks| && TablesOk() && View(l.ok) == l
      requires |l.spends| <= Ins(blocks, pos) && |l.table| <= Txs(blocks, pos)
      modifies this, tx`view, tx.slots, spend`view, spend.slots
      ensures TablesOk() && View(LinkBlock(p, blocks, tops, pos, l).ok) == LinkBlock(p, blocks, tops, pos, l)
    {
      if tops[pos].invalid {
        completable := completable + [false];
        return;
      }
      ghost var n, l0 := |blocks[pos].txs|, l.(ok := true);
      var ok := LinkInputs(p, pos, l0);
      ghost var l1 := LinkAt(p, blocks, tops, pos, l0, n, 0);
      WalkKeepsTable(p, blocks, tops, pos, l0, n, 0);
      WalkExtends(p, blocks, tops, pos, l0, 0, 0, n, 0);
      ok := InsertBlock(pos, ok, l1);
      InsertKeeps(blocks, tops, pos, l1, n);
      completable := completable + [ok];
    }

    /** `resolveSegmentInputs`. */
    method ResolveInputs(p: Params)
      requires Roomy() && TablesOk() && View(true) == NO_LINK
      modifies this, tx`view, tx.slots, spend`view, spend.slots
      ensures
        var l := LinkBlocks(p, blocks, tops, |blocks|);
        outMarks == l.outMarks && inMarks == l.inMarks && residual == l.residual && linked == l.linked
            && completable == l.completable
    {
      hide TablesOk;
      for pos := 0 to |blocks|
        invariant TablesOk() && View(LinkBlocks(p, blocks, tops, pos).ok) == LinkBlocks(p, blocks, tops, pos)
      {
        LinkBounds(p, blocks, tops, pos);
        ResolveBlock(p, pos, LinkBlocks(p, blocks, tops, pos));
      }
    }

    /** The wave: every slot put off is emptied and, if the coin is there and mature, filled. */
    method Wave(p: Params, base: Ledger, ghost l: Link)
      requires l.residual == residual && l.linked == linked && Named(residual)
      requires forall k :: 0 <= k < |residual| ==> ResidualOk(blocks, residual[k])
      modifies this`linked
      ensures Waved(p, blocks, base, l, linked, |residual|)
    {
      for r := 0 to |residual|
        invariant Waved(p, blocks, base, l, linked, r)
      {
        var key := (residual[r].block, residual[r].ordinal);
        ghost var before := linked;
        linked := linked - {key};
        var answer := Answer(p, blocks, base, residual[r]);
        if answer.Some? {
          linked := linked[key := answer.value];
        }
        WavedNext(p, blocks, base, l, before, linked, r);
      }
    }

    /** An empty slot cuts its block. */
    method CutEmpty(p: Params, base: Ledger, ghost l: Link)
      requires l.residual == residual && l.completable == completable
      requires forall k :: 0 <= k < |residual| ==> ResidualOk(blocks, residual[k]) && residual[k].block < |completable|
      requires Waved(p, blocks, base, l, linked, |residual|)
      modifies this`completable
      ensures |completable| == |l.completable|
      ensures forall k :: 0 <= k < |completable| ==> (completable[k] <==> Completable(p, blocks, base, l, k))
    {
      for r := 0 to |residual|
        invariant |completable| == |l.completable|
        invariant forall k :: 0 <= k < |completable| ==> (completable[k] <==> CutBy(p, blocks, base, l, k, r))
      {
        var input := residual[r];
        assert Filed(p, blocks, base, linked, l.residual[r]);
        if (input.block, input.ordinal) !in linked {
          completable := completable[input.block := false];
        }
      }
    }

    /** `resolveSegmentResidual`: every input put off is looked up, and one that finds nothing cuts its block. */
    method ResolveResidual(p: Params, base: Ledger, ghost l: Link)
      requires l.residual == residual && l.completable == completable && l.linked == linked && Named(residual)
      requires forall k :: 0 <= k < |residual| ==> ResidualOk(blocks, residual[k]) && residual[k].block < |completable|
      modifies this`linked, this`completable
      ensures |completable| == |l.completable|
      ensures forall k :: 0 <= k < |completable| ==> (completable[k] <==> Completable(p, blocks, base, l, k))
      ensures Waved(p, blocks, base, l, linked, |residual|)
    {
      Wave(p, base, l);
      CutEmpty(p, base, l);
    }
  }

  /** What linking an input comes to, case by case. */
  ghost predicate Linking(p: Params, blocks: seq<Block>, tops: seq<Topology>, pos: nat, l: Link, i: nat, j: nat,
        ordinal: nat, next: Link)
    requires pos < |blocks| == |tops| && j < Width(blocks[pos], i)
  {
    match LocalTx(tops[pos], ordinal)
    case Some(k) => next == LinkLocal(p, blocks[pos], pos, l, Spends(blocks[pos], i, j), ordinal, k)
    case None => next == LinkForeign(p, blocks, tops, pos, l, i, j, ordinal)
  }

  lemma LinkingIs(p: Params, blocks: seq<Block>, tops: seq<Topology>, pos: nat, l: Link, i: nat, j: nat)
    requires pos < |blocks| == |tops| && i <= |blocks[pos].txs| && j < Width(blocks[pos], i)
    ensures Linking(p, blocks, tops, pos, l, i, j, InBase(blocks[pos], i) + j, LinkInput(p, blocks, tops, pos, l, i, j))
  {
  }

  lemma RoomForInput(p: Params, blocks: seq<Block>, tops: seq<Topology>, pos: nat, l0: Link, i: nat, j: nat)
    requires pos < |blocks| == |tops| && i < |blocks[pos].txs| && j < Width(blocks[pos], i)
        && |l0.spends| <= Ins(blocks, pos)
    ensures |LinkAt(p, blocks, tops, pos, l0, i, j).spends| < Ins(blocks, |blocks|)
  {
    SpendsBound(p, blocks, tops, pos, l0, i, j);
    InBaseMonotone(blocks[pos], i, j + 1, |blocks[pos].txs|, 0);
    CountsGrow(blocks, pos + 1, |blocks|);
  }

  lemma RoomForTx(blocks: seq<Block>, tops: seq<Topology>, pos: nat, l: Link, i: nat)
    requires pos < |blocks| == |tops| && i < |blocks[pos].txs| && |l.table| <= Txs(blocks, pos)
    ensures |InsertTxs(blocks, tops, pos, l, i).table| < Txs(blocks, |blocks|)
  {
    TableBound(blocks, tops, pos, l, i);
    CountsGrow(blocks, pos + 1, |blocks|);
  }

  // ---- the wave --------------------------------------------------------------------------------------

  /** Two entries of one input are one entry. */
  ghost predicate Named(rs: seq<Residual>) {
    forall k, k' :: 0 <= k < |rs| && 0 <= k' < |rs| && SameSlot(rs[k], rs[k']) ==> rs[k] == rs[k']
  }

  predicate SameSlot(r: Residual, r': Residual) { r.block == r'.block && r.ordinal == r'.ordinal }

  /** The slot of an input put off holds the answer, and is empty without one. */
  ghost predicate Filed(p: Params, blocks: seq<Block>, base: Ledger, linked: map<(nat, nat), Coin>, r: Residual)
    requires ResidualOk(blocks, r)
  {
    && ((r.block, r.ordinal) in linked <==> Answer(p, blocks, base, r).Some?)
    && ((r.block, r.ordinal) in linked ==> linked[(r.block, r.ordinal)] == Answer(p, blocks, base, r).value)
  }

  ghost predicate IsPutOff(rs: seq<Residual>, n: nat, key: (nat, nat))
    requires n <= |rs|
  {
    exists k :: 0 <= k < n && (rs[k].block, rs[k].ordinal) == key
  }

  /** The first `n` inputs put off are filed, and nothing else has changed. */
  ghost predicate Waved(p: Params, blocks: seq<Block>, base: Ledger, l: Link, linked: map<(nat, nat), Coin>, n: nat)
    requires n <= |l.residual| && forall k :: 0 <= k < |l.residual| ==> ResidualOk(blocks, l.residual[k])
  {
    && (forall k :: 0 <= k < n ==> Filed(p, blocks, base, linked, l.residual[k]))
    && (forall key :: !IsPutOff(l.residual, n, key) ==> (key in linked <==> key in l.linked))
    && (forall key :: !IsPutOff(l.residual, n, key) && key in linked ==> linked[key] == l.linked[key])
  }

  lemma WavedNext(p: Params, blocks: seq<Block>, base: Ledger, l: Link, was: map<(nat, nat), Coin>,
        now: map<(nat, nat), Coin>, n: nat)
    requires n < |l.residual| && Named(l.residual)
        && forall k :: 0 <= k < |l.residual| ==> ResidualOk(blocks, l.residual[k])
    requires Waved(p, blocks, base, l, was, n)
    requires
      var r := l.residual[n];
      Filed(p, blocks, base, now, r)
          && forall key :: key != (r.block, r.ordinal) ==>
          (key in now <==> key in was) && (key in now ==> now[key] == was[key])
    ensures Waved(p, blocks, base, l, now, n + 1)
  {
    var rs, r, m := l.residual, l.residual[n], n + 1;
    forall k | 0 <= k < m ensures Filed(p, blocks, base, now, rs[k]) {
      if k < n {
        assert Filed(p, blocks, base, was, rs[k]);
        assert SameSlot(rs[k], r) ==> rs[k] == r;
      }
    }
    forall key | !IsPutOff(rs, m, key) ensures !IsPutOff(rs, n, key) && key != (r.block, r.ordinal) {
    }
  }

  /** Nothing against block `k` from linking and the first `n` lookups. */
  ghost predicate CutBy(p: Params, blocks: seq<Block>, base: Ledger, l: Link, k: nat, n: nat)
    requires k < |l.completable| && n <= |l.residual|
  {
    l.completable[k] && forall r :: 0 <= r < n && l.residual[r].block == k ==> Answered(p, blocks, base, l.residual[r])
  }

  lemma PuttingOff(pos: nat, l: Link, o: Outpoint, i: nat, j: nat, ordinal: nat, first: bool)
    requires first <==> o !in l.spends
    ensures LinkResidual(pos, l, o, i, j, ordinal) ==
            l.(residual := if first then l.residual + [Residual(pos, i, j, ordinal)] else l.residual,
               spends := if first then l.spends + {o} else l.spends, ok := l.ok && first)
  {
  }

  ghost predicate TxOk(h: Hashes, blocks: seq<Block>, tx: ProbeTable.Table<TxId, Slot>)
    reads tx, tx.slots
  {
    tx.Valid(TxKeys(h, blocks))
  }

  ghost predicate SpendOk(h: Hashes, blocks: seq<Block>, spend: ProbeTable.Table<Outpoint, nat>,
        residual: seq<Residual>)
    reads spend, spend.slots
  {
    spend.Valid(SpendKeys(h, blocks, residual)) && forall o :: o in spend.view ==> spend.view[o] < |residual|
  }

  /** The input joins the list, its outpoint the table; and leaves the list again if the outpoint is there. */
  method SpendInsert(h: Hashes, blocks: seq<Block>, spend: ProbeTable.Table<Outpoint, nat>, was: seq<Residual>,
        r: Residual)
      returns (residual: seq<Residual>, first: bool)
    requires SpendOk(h, blocks, spend, was) && ResidualOk(blocks, r)
        && 2 * (|spend.view.Keys| + 1) <= spend.slots.Length
    modifies spend`view, spend.slots
    ensures SpendOk(h, blocks, spend, residual)
    ensures
      var o := Spends(blocks[r.block], r.tx, r.idx);
      && (first <==> o !in old(spend.view.Keys)) && residual == (if first then was + [r] else was)
      && spend.view.Keys == if first then old(spend.view.Keys) + {o} else old(spend.view.Keys)
  {
    hide Spends, ProbeTable.TableOk;
    var o := Spends(blocks[r.block], r.tx, r.idx);
    residual := was + [r];
    GrownKeys(h, blocks, was, residual, spend.slots[..], spend.view);
    assert |spend.view.Keys| == |spend.view|;
    var twin := spend.Insert(SpendKeys(h, blocks, residual), o, |was|);
    first := twin == None;
    hide SpendKeys;
    if twin.Some? {
      residual := residual[..|was|];
      assert residual == was;
      ShrunkKeys(h, blocks, was, r, spend.slots[..], spend.view);
    }
  }

  lemma GrownKeys(h: Hashes, blocks: seq<Block>, was: seq<Residual>, now: seq<Residual>,
        slots: seq<ProbeTable.Slot<nat>>, view: map<Outpoint, nat>)
    requires was <= now && ProbeTable.TableOk(SpendKeys(h, blocks, was), slots, view)
        && forall o :: o in view ==> view[o] < |was|
    ensures ProbeTable.TableOk(SpendKeys(h, blocks, now), slots, view)
  {
    forall o | o in view ensures SpendKeys(h, blocks, now).keyOf(view[o]) == o {
      ProbeTable.RefsAreKeyed(SpendKeys(h, blocks, was), slots, view, o);
    }
    ProbeTable.Rekeyed(SpendKeys(h, blocks, was), SpendKeys(h, blocks, now), slots, view);
  }

  lemma ShrunkKeys(h: Hashes, blocks: seq<Block>, was: seq<Residual>, r: Residual, slots: seq<ProbeTable.Slot<nat>>,
        view: map<Outpoint, nat>)
    requires ProbeTable.TableOk(SpendKeys(h, blocks, was + [r]), slots, view)
        && forall o :: o in view ==> view[o] < |was|
    ensures ProbeTable.TableOk(SpendKeys(h, blocks, was), slots, view)
  {
    forall o | o in view ensures SpendKeys(h, blocks, was).keyOf(view[o]) == o {
      ProbeTable.RefsAreKeyed(SpendKeys(h, blocks, was + [r]), slots, view, o);
    }
    ProbeTable.Rekeyed(SpendKeys(h, blocks, was + [r]), SpendKeys(h, blocks, was), slots, view);
  }
}
