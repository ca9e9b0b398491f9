/**
Linking a segment of blocks before the coins it spends can be looked up, and the plain
way of connecting the same blocks one at a time.

A block is walked in one order by every pass: the inputs of a transaction, then its
outputs; the coinbase has no inputs to walk. A `Place` is a point of that walk, and the topology pass,
the linker and the plain connect are folds over it.
 */
module SegmentModel {
  import opened Wrappers

  /** A transaction hash, taken as an injective name. */
  type TxId = int

  datatype Outpoint = Outpoint(tx: TxId, index: nat)

  /** A parsed output: its type, the mark of a same-block spend, and everything else of it. */
  datatype Record = Record(kind: nat, local: bool, body: seq<int>)

  const OP_RETURN_KIND: nat := 1

  /** An output becomes a coin unless it is an OP_RETURN. */
  predicate IsCoin(r: Record) { r.kind != OP_RETURN_KIND }

  datatype Tx = Tx(id: TxId, inputs: seq<Outpoint>, outputs: seq<Record>, hogEx: bool)

  /** A block at its height; `repeat` marks the two historic repeats of a coinbase (BIP30). */
  datatype Block = Block(txs: seq<Tx>, height: nat, repeat: bool)

  /** A coin: its record and its word, height and flags packed. */
  datatype Coin = Coin(record: Record, word: nat)

  /** How many blocks a coinbase created at a height waits. */
  datatype Params = Params(maturity: nat -> nat)

  // ---- the coin word --------------------------------------------------------------

  const WORD: nat := 0x1_0000_0000

  /** `utxoMeta`: the height above three flag bits, in 32 bits. */
  function UtxoMeta(height: nat, flags: nat): nat
    requires flags < 8
  {
    (height * 8) % WORD + flags
  }

  function MetaHeight(word: nat): nat { word / 8 }

  predicate MetaCoinbase(word: nat) { word % 2 == 1 }

  predicate MetaPegout(word: nat) { word / 2 % 2 == 1 }

  predicate MetaRestored(word: nat) { word / 4 % 2 == 1 }

  /** `linkedMeta`: the restored mark is dropped. */
  function LinkedMeta(word: nat): nat {
    if MetaRestored(word) then word - 4 else word
  }

  const PEGOUT_MATURITY: nat := 6

  /** `coinMature`; the depth is a 32-bit difference. */
  predicate CoinMature(p: Params, word: nat, spendHeight: nat) {
    var depth := (spendHeight - MetaHeight(word)) % WORD;
    && (MetaCoinbase(word) ==> depth >= p.maturity(MetaHeight(word)))
    && (MetaPegout(word) ==> depth >= PEGOUT_MATURITY)
  }

  /** `utxoCreationFlags`. */
  function CreationFlags(tx: Tx, txIdx: nat, outIdx: nat): nat {
    (if txIdx == 0 then 1 else 0) + (if tx.hogEx && outIdx > 0 then 2 else 0)
  }

  /** The coin output `j` of transaction `i` of a block is created as. */
  function CoinOf(b: Block, i: nat, j: nat): Coin
    requires i < |b.txs| && j < |b.txs[i].outputs|
  {
    Coin(b.txs[i].outputs[j], UtxoMeta(b.height, CreationFlags(b.txs[i], i, j)))
  }

  function AsLocal(r: Record): Record { r.(local := true) }

  // ---- the walk -------------------------------------------------------------------

  /** Inputs of transaction `i` that are walked: the coinbase spends nothing. */
  function Width(b: Block, i: nat): nat {
    if 0 < i < |b.txs| then |b.txs[i].inputs| else 0
  }

  /** A place in the walk: `j` inputs of transaction `i` are done, and everything before. */
  predicate Place(b: Block, i: nat, j: nat) { i <= |b.txs| && j <= Width(b, i) }

  /** The outpoint input `j` of transaction `i` spends. */
  function Spends(b: Block, i: nat, j: nat): Outpoint
    requires j < Width(b, i)
  {
    b.txs[i].inputs[j]
  }

  /** Outputs before transaction `i`: where its own start in the block. */
  function OutBase(b: Block, i: nat): nat
    requires i <= |b.txs|
  {
    if i == 0 then 0 else OutBase(b, i - 1) + |b.txs[i - 1].outputs|
  }

  /** Walked inputs before transaction `i`. */
  function InBase(b: Block, i: nat): nat
    requires i <= |b.txs|
  {
    if i == 0 then 0 else InBase(b, i - 1) + Width(b, i - 1)
  }

  // ---- same-block topology: fillLocalSpendTopology ----------------------------------

  /** Where a transaction of this block lives: its index and its first output ordinal. */
  datatype Home = Home(tx: nat, base: nat)

  /** `InputLocalTx`, the transactions seen, `OutputSpentLocally`, the running output ordinal, `LocalSpendInvalid`. */
  datatype Topology = Topology(localTx: seq<Option<nat>>, seen: map<TxId, Home>, bits: set<nat>, outOrdinal: nat,
      invalid: bool)

  const NO_TOPOLOGY := Topology([], map[], {}, 0, false)

  function TopInput(b: Block, t: Topology, o: Outpoint): Topology {
    if o.tx !in t.seen then t.(localTx := t.localTx + [None])
    else
      var h := t.seen[o.tx];
      var t' := t.(localTx := t.localTx + [Some(h.tx)]);
      if h.tx < |b.txs| && o.index < |b.txs[h.tx].outputs| then
        var bit := h.base + o.index;
        t'.(bits := t.bits + {bit}, invalid := t.invalid || bit in t.bits)
      else t'.(invalid := true)
  }

  function TopOutputs(b: Block, t: Topology, i: nat): Topology
    requires i < |b.txs|
  {
    t.(seen := t.seen[b.txs[i].id := Home(i, t.outOrdinal)], outOrdinal := t.outOrdinal + |b.txs[i].outputs|)
  }

  /** Topology at a place of the walk. */
  function TopAt(b: Block, i: nat, j: nat): Topology
    requires Place(b, i, j)
    decreases i, j
  {
    if j > 0 then TopInput(b, TopAt(b, i, j - 1), Spends(b, i, j - 1))
    else if i > 0 then TopOutputs(b, TopAt(b, i - 1, Width(b, i - 1)), i - 1)
    else NO_TOPOLOGY
  }

  function TopologyOf(b: Block): Topology { TopAt(b, |b.txs|, 0) }

  // ---- linking: resolveSegmentInputs ------------------------------------------------

  /** `CTxSlot`: the place of a transaction in the segment. */
  datatype Slot = Slot(block: nat, tx: nat, base: nat)

  /** `CSegment::CInput`: an input only the state before the segment can answer. */
  datatype Residual = Residual(block: nat, tx: nat, idx: nat, ordinal: nat)

  /** The creators seen, `OutputSpentInBatch` and `InputSpendsInBatch` of all blocks, the residual list and the
      outpoints on it, the linked slots by block and input ordinal, the verdict on the block being linked and the
      verdicts on the blocks before it. */
  datatype Link = Link(
    table: map<TxId, Slot>,
    outMarks: set<(nat, nat)>,
    inMarks: set<(nat, nat)>,
    residual: seq<Residual>,
    spends: set<Outpoint>,
    linked: map<(nat, nat), Coin>,
    ok: bool,
    completable: seq<bool>)

  const NO_LINK := Link(map[], {}, {}, [], {}, map[], true, [])

  function LocalTx(t: Topology, ordinal: nat): Option<nat> {
    if ordinal < |t.localTx| then t.localTx[ordinal] else None
  }

  /** Spent inside its own block, or by a later block of the segment. */
  predicate SpentInside(l: Link, block: nat, top: Topology, ordinal: nat) {
    ordinal in top.bits || (block, ordinal) in l.outMarks
  }

  function LinkLocal(p: Params, b: Block, pos: nat, l: Link, o: Outpoint, ordinal: nat, k: nat): Link {
    if k < |b.txs| && o.index < |b.txs[k].outputs| then
      var coin := CoinOf(b, k, o.index);
      l.(linked := l.linked[(pos, ordinal) := Coin(AsLocal(coin.record), coin.word)],
         ok := l.ok && CoinMature(p, coin.word, b.height))
    else l.(ok := false)
  }

  function LinkEarlier(p: Params, blocks: seq<Block>, tops: seq<Topology>, pos: nat, l: Link, o: Outpoint, ordinal: nat,
        slot: Slot): Link
    requires pos < |blocks| == |tops|
  {
    if slot.block >= |blocks| || slot.tx >= |blocks[slot.block].txs|
        || o.index >= |blocks[slot.block].txs[slot.tx].outputs| then l.(ok := false)
    else
      var out := slot.base + o.index;
      var coin := CoinOf(blocks[slot.block], slot.tx, o.index);
      if SpentInside(l, slot.block, tops[slot.block], out) || !IsCoin(coin.record) then l.(ok := false)
      else
        var l' := l.(linked := l.linked[(pos, ordinal) := coin]);
        if !CoinMature(p, coin.word, blocks[pos].height) then l'.(ok := false)
        else l'.(outMarks := l.outMarks + {(slot.block, out)}, inMarks := l.inMarks + {(pos, ordinal)})
  }

  function LinkResidual(pos: nat, l: Link, o: Outpoint, i: nat, j: nat, ordinal: nat): Link {
    if o in l.spends then l.(ok := false)
    else l.(residual := l.residual + [Residual(pos, i, j, ordinal)], spends := l.spends + {o})
  }

  /** The part of an input's link that looks beyond its own block. */
  function LinkForeign(p: Params, blocks: seq<Block>, tops: seq<Topology>, pos: nat, l: Link, i: nat, j: nat,
        ordinal: nat): Link
    requires pos < |blocks| == |tops| && j < Width(blocks[pos], i)
  {
    var o := Spends(blocks[pos], i, j);
    if o.tx in l.table then LinkEarlier(p, blocks, tops, pos, l, o, ordinal, l.table[o.tx])
    else LinkResidual(pos, l, o, i, j, ordinal)
  }

  function LinkInput(p: Params, blocks: seq<Block>, tops: seq<Topology>, pos: nat, l: Link, i: nat, j: nat): Link
    requires pos < |blocks| == |tops| && i <= |blocks[pos].txs| && j < Width(blocks[pos], i)
  {
    var o, ordinal := Spends(blocks[pos], i, j), InBase(blocks[pos], i) + j;
    match LocalTx(tops[pos], ordinal)
    case Some(k) => LinkLocal(p, blocks[pos], pos, l, o, ordinal, k)
    case None => LinkForeign(p, blocks, tops, pos, l, i, j, ordinal)
  }

  /** The inputs of a block up to a place of its walk. */
  function LinkAt(p: Params, blocks: seq<Block>, tops: seq<Topology>, pos: nat, l: Link, i: nat, j: nat): Link
    requires pos < |blocks| == |tops| && Place(blocks[pos], i, j)
    decreases i, j
  {
    if j > 0 then LinkInput(p, blocks, tops, pos, LinkAt(p, blocks, tops, pos, l, i, j - 1), i, j - 1)
    else if i > 0 then LinkAt(p, blocks, tops, pos, l, i - 1, Width(blocks[pos], i - 1))
    else l
  }

  /** All outputs of the earlier transaction of the same name are spent. */
  predicate TwinSpent(blocks: seq<Block>, tops: seq<Topology>, l: Link, slot: Slot)
    requires |blocks| == |tops|
  {
    slot.block < |blocks| && slot.tx < |blocks[slot.block].txs| &&
    forall k :: 0 <= k < |blocks[slot.block].txs[slot.tx].outputs| ==> OutputSpent(l, slot, tops[slot.block], k)
  }

  predicate OutputSpent(l: Link, slot: Slot, top: Topology, k: nat) {
    SpentInside(l, slot.block, top, slot.base + k)
  }

  function InsertTx(blocks: seq<Block>, tops: seq<Topology>, pos: nat, l: Link, i: nat): Link
    requires pos < |blocks| == |tops| && i < |blocks[pos].txs|
  {
    var b := blocks[pos];
    var slot := Slot(pos, i, OutBase(b, i));
    if b.txs[i].id in l.table && !TwinSpent(blocks, tops, l, l.table[b.txs[i].id]) && !b.repeat then l.(ok := false)
    else l.(table := l.table[b.txs[i].id := slot])
  }

  /** The first `i` transactions of a block join the table. */
  function InsertTxs(blocks: seq<Block>, tops: seq<Topology>, pos: nat, l: Link, i: nat): Link
    requires pos < |blocks| == |tops| && i <= |blocks[pos].txs|
  {
    if i == 0 then l else InsertTx(blocks, tops, pos, InsertTxs(blocks, tops, pos, l, i - 1), i - 1)
  }

  function LinkBlock(p: Params, blocks: seq<Block>, tops: seq<Topology>, pos: nat, l: Link): Link
    requires pos < |blocks| == |tops|
  {
    if tops[pos].invalid then l.(completable := l.completable + [false])
    else
      var b := blocks[pos];
      var l1 := LinkAt(p, blocks, tops, pos, l.(ok := true), |b.txs|, 0);
      var l2 := InsertTxs(blocks, tops, pos, l1, |b.txs|);
      l2.(completable := l.completable + [l2.ok])
  }

  /** The first `n` blocks linked. */
  function LinkBlocks(p: Params, blocks: seq<Block>, tops: seq<Topology>, n: nat): Link
    requires n <= |blocks| == |tops|
  {
    if n == 0 then NO_LINK else LinkBlock(p, blocks, tops, n - 1, LinkBlocks(p, blocks, tops, n - 1))
  }

  function Topologies(blocks: seq<Block>): (tops: seq<Topology>)
    ensures |tops| == |blocks| && forall k :: 0 <= k < |blocks| ==> tops[k] == TopologyOf(blocks[k])
  {
    seq(|blocks|, k requires 0 <= k < |blocks| => TopologyOf(blocks[k]))
  }

  function LinkSegment(p: Params, blocks: seq<Block>): Link {
    LinkBlocks(p, blocks, Topologies(blocks), |blocks|)
  }

  // ---- the residual wave: resolveSegmentResidual -------------------------------------

  type Ledger = map<Outpoint, Coin>

  predicate ResidualOk(blocks: seq<Block>, r: Residual) {
    r.block < |blocks| && r.idx < Width(blocks[r.block], r.tx)
  }

  /** The coin the database answers an input with, if it is there and mature. */
  function Answer(p: Params, blocks: seq<Block>, base: Ledger, r: Residual): Option<Coin>
    requires ResidualOk(blocks, r)
  {
    var o := Spends(blocks[r.block], r.tx, r.idx);
    if o in base && CoinMature(p, LinkedMeta(base[o].word), blocks[r.block].height)
    then Some(Coin(base[o].record, LinkedMeta(base[o].word)))
    else None
  }

  // ---- connecting one block at a time ------------------------------------------------

  /** The live coins, the outputs of the block being connected that are not spent yet, and what was spent so far
      by block and input ordinal; or a refused block. */
  datatype Chain = Refused | Chain(ledger: Ledger, own: Ledger, spent: map<(nat, nat), Coin>)

  function SeqInput(p: Params, b: Block, pos: nat, s: Chain, o: Outpoint, ordinal: nat): Chain {
    if s.Refused? then Refused
    else if o in s.own then
      if CoinMature(p, s.own[o].word, b.height)
      then Chain(s.ledger, s.own - {o}, s.spent[(pos, ordinal) := Coin(AsLocal(s.own[o].record), s.own[o].word)])
      else Refused
    else if o in s.ledger && CoinMature(p, LinkedMeta(s.ledger[o].word), b.height)
    then Chain(s.ledger - {o}, s.own, s.spent[(pos, ordinal) := Coin(s.ledger[o].record, LinkedMeta(s.ledger[o].word))])
    else Refused
  }

  function SeqOutputs(b: Block, s: Chain, i: nat): Chain
    requires i < |b.txs|
  {
    if s.Refused? then Refused
    else s.(own := s.own + map o: Outpoint | o in OutpointsOf(b, i) :: CoinOf(b, i, o.index))
  }

  function OutpointsOf(b: Block, i: nat): (os: set<Outpoint>)
    requires i < |b.txs|
    ensures forall o :: o in os <==> o.tx == b.txs[i].id && o.index < |b.txs[i].outputs|
  {
    set j | 0 <= j < |b.txs[i].outputs| :: Outpoint(b.txs[i].id, j)
  }

  function SeqAt(p: Params, b: Block, pos: nat, s: Chain, i: nat, j: nat): Chain
    requires Place(b, i, j)
    decreases i, j
  {
    if j > 0 then SeqInput(p, b, pos, SeqAt(p, b, pos, s, i, j - 1), Spends(b, i, j - 1), InBase(b, i) + j - 1)
    else if i > 0 then SeqOutputs(b, SeqAt(p, b, pos, s, i - 1, Width(b, i - 1)), i - 1)
    else s
  }

  /** The block is over: what it left unspent becomes coins, OP_RETURN outputs excepted. */
  function Settle(s: Chain): Chain {
    if s.Refused? then Refused
    else Chain(s.ledger + (map o | o in s.own && IsCoin(s.own[o].record) :: s.own[o]), map[], s.spent)
  }

  function SeqBlock(p: Params, b: Block, pos: nat, s: Chain): Chain {
    Settle(SeqAt(p, b, pos, s, |b.txs|, 0))
  }

  /** The first `n` blocks connected to `base`. */
  function SeqBlocks(p: Params, blocks: seq<Block>, base: Ledger, n: nat): Chain
    requires n <= |blocks|
  {
    if n == 0 then Chain(base, map[], map[])
    else SeqBlock(p, blocks[n - 1], n - 1, SeqBlocks(p, blocks, base, n - 1))
  }
}
