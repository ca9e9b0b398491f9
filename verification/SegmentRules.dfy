/**
The rules of spending, said of places in the blocks alone: no ledger, no coin word, no order of passes. An
input is good when the output it names was made before it, is nobody else's by then, and is old enough. The
plain connect accepts exactly blocks whose inputs are all good, and so do linking and the wave.
 */
module SegmentRules {
  import opened SegmentModel
  import opened SegmentSimulation
  import opened SegmentVerdict
  import opened SegmentReorg

  /** An input, or an output, of a transaction of a block. */
  datatype Spot = Spot(block: nat, tx: nat, at: nat)

  /** The first transaction of a block mints; its input spends nothing. */
  predicate InputAt(blocks: seq<Block>, x: Spot) {
    x.block < |blocks| && 0 < x.tx < |blocks[x.block].txs| && x.at < |blocks[x.block].txs[x.tx].inputs|
  }

  predicate OutputAt(blocks: seq<Block>, y: Spot) {
    y.block < |blocks| && y.tx < |blocks[y.block].txs| && y.at < |blocks[y.block].txs[y.tx].outputs|
  }

  function Taken(blocks: seq<Block>, x: Spot): Outpoint
    requires InputAt(blocks, x)
  {
    blocks[x.block].txs[x.tx].inputs[x.at]
  }

  function OutputOf(blocks: seq<Block>, y: Spot): Record
    requires OutputAt(blocks, y)
  {
    blocks[y.block].txs[y.tx].outputs[y.at]
  }

  predicate Makes(blocks: seq<Block>, y: Spot, o: Outpoint) {
    OutputAt(blocks, y) && o.tx == blocks[y.block].txs[y.tx].id && o.index == y.at
  }

  /** The input comes before the point where `j` inputs of transaction `i` of block `pos` are done. */
  predicate Walked(pos: nat, i: nat, j: nat, x: Spot) {
    x.block < pos || (x.block == pos && (x.tx < i || (x.tx == i && x.at < j)))
  }

  /** Some input before that point has taken `o`. */
  ghost predicate Gone(blocks: seq<Block>, pos: nat, i: nat, j: nat, o: Outpoint) {
    exists x :: InputAt(blocks, x) && Walked(pos, i, j, x) && Taken(blocks, x) == o
  }

  /** Blocks on top of a coin, as the 32-bit difference of heights. */
  function Depth(spent: nat, made: nat): int {
    if made <= spent then spent - made else spent - made + 0x1_0000_0000
  }

  /** A minted output waits as long as the chain says; an output past the first of a HogEx waits six blocks. */
  predicate Young(p: Params, blocks: seq<Block>, y: Spot, height: nat)
    requires OutputAt(blocks, y)
  {
    var made := blocks[y.block].height;
    || (y.tx == 0 && Depth(height, made) < p.maturity(made))
    || (blocks[y.block].txs[y.tx].hogEx && y.at > 0 && Depth(height, made) < 6)
  }

  /** The same for a coin of the base: its height above three bits, minted the lowest, pegged out the next. */
  predicate YoungCoin(p: Params, word: nat, height: nat) {
    || (word % 2 == 1 && Depth(height, word / 8) < p.maturity(word / 8))
    || (word / 2 % 2 == 1 && Depth(height, word / 8) < 6)
  }

  /** Made where the input can reach it: earlier in its block, or in an earlier block and no data carrier. */
  predicate Reachable(blocks: seq<Block>, y: Spot, x: Spot)
    requires OutputAt(blocks, y)
  {
    (y.block == x.block && y.tx < x.tx) || (y.block < x.block && OutputOf(blocks, y).kind != 1)
  }

  ghost predicate Good(p: Params, blocks: seq<Block>, base: Ledger, x: Spot)
    requires InputAt(blocks, x)
  {
    var o, height := Taken(blocks, x), blocks[x.block].height;
    && !Gone(blocks, x.block, x.tx, x.at, o)
    && (|| (o in base && !YoungCoin(p, base[o].word, height))
        || (exists y :: Makes(blocks, y, o) && Reachable(blocks, y, x) && !Young(p, blocks, y, height)))
  }

  ghost predicate GoodTo(p: Params, blocks: seq<Block>, base: Ledger, pos: nat, i: nat, j: nat) {
    forall x :: InputAt(blocks, x) && Walked(pos, i, j, x) ==> Good(p, blocks, base, x)
  }

  /** Every input of the first `n` blocks is good. */
  ghost predicate Obeys(p: Params, blocks: seq<Block>, base: Ledger, n: nat) {
    forall x :: InputAt(blocks, x) && x.block < n ==> Good(p, blocks, base, x)
  }

  /** Heights and words are 32 bits wide, three of them flags. */
  ghost predicate Sized(blocks: seq<Block>, base: Ledger) {
    && (forall k :: 0 <= k < |blocks| ==> blocks[k].height < 0x2000_0000)
    && (forall o :: o in base ==> base[o].word < 0x1_0000_0000)
  }

  /** The coin an output becomes. */
  function Made(blocks: seq<Block>, y: Spot): Coin
    requires OutputAt(blocks, y)
  {
    var b := blocks[y.block];
    Coin(b.txs[y.tx].outputs[y.at],
         8 * b.height + (if b.txs[y.tx].hogEx && y.at > 0 then 2 else 0) + (if y.tx == 0 then 1 else 0))
  }

  // ---- the coin word ---------------------------------------------------------------------------------

  lemma Parity(k: nat, r: nat)
    ensures (2 * k + r) % 2 == r % 2
  {
  }

  /** A word taken apart: what lies above three bits, and the bits. */
  lemma ThreeBits(m: nat, r: nat)
    requires r < 8
    ensures
      var word := 8 * m + r;
      word / 8 == m && word % 2 == r % 2 && word / 2 % 2 == r / 2 % 2 && word / 4 % 2 == r / 4
  {
    assert (8 * m + r) / 4 == 2 * m + r / 4 && (8 * m + r) / 2 == 2 * (2 * m) + r / 2;
    Parity(4 * m, r);
    Parity(2 * m, r / 2);
    Parity(m, r / 4);
  }

  function Bit(b: bool): nat { if b then 1 else 0 }

  /** Height and flags come back from the word of a coin. */
  lemma WordSaysAll(height: nat, coinbase: bool, pegout: bool, restored: bool)
    requires height < 0x2000_0000
    ensures
      var word := UtxoMeta(height, Bit(coinbase) + 2 * Bit(pegout) + 4 * Bit(restored));
      && word < 0x1_0000_0000 && MetaHeight(word) == height
      && (MetaCoinbase(word) <==> coinbase) && (MetaPegout(word) <==> pegout) && (MetaRestored(word) <==> restored)
      && LinkedMeta(word) == UtxoMeta(height, Bit(coinbase) + 2 * Bit(pegout))
  {
    assert (height * 8) % WORD == 8 * height;
    ThreeBits(height, Bit(coinbase) + 2 * Bit(pegout) + 4 * Bit(restored));
  }

  lemma MadeIs(blocks: seq<Block>, y: Spot)
    requires OutputAt(blocks, y) && blocks[y.block].height < 0x2000_0000
    ensures CoinOf(blocks[y.block], y.tx, y.at) == Made(blocks, y)
  {
  }

  lemma DepthIs(spent: nat, made: nat)
    requires spent < 0x2000_0000 && made < 0x2000_0000
    ensures (spent - made) % WORD == Depth(spent, made)
  {
  }

  /** Dropping the restored mark leaves height and the other flags. */
  lemma LinkedKeeps(word: nat)
    ensures LinkedMeta(word) / 8 == word / 8
    ensures LinkedMeta(word) % 2 == word % 2 && LinkedMeta(word) / 2 % 2 == word / 2 % 2
  {
    var m, r := word / 8, word % 8;
    ThreeBits(m, r);
    if MetaRestored(word) {
      ThreeBits(m, r - 4);
    }
  }

  lemma AgeIs(p: Params, word: nat, height: nat)
    requires word < 0x1_0000_0000 && height < 0x2000_0000
    ensures CoinMature(p, word, height) <==> !YoungCoin(p, word, height)
    ensures CoinMature(p, LinkedMeta(word), height) <==> !YoungCoin(p, word, height)
  {
    DepthIs(height, word / 8);
    LinkedKeeps(word);
    hide LinkedMeta, Depth;
  }

  lemma MadeAge(p: Params, blocks: seq<Block>, y: Spot, height: nat)
    requires OutputAt(blocks, y) && blocks[y.block].height < 0x2000_0000 && height < 0x2000_0000
    ensures var word := Made(blocks, y).word;
            && word < 0x1_0000_0000 && LinkedMeta(word) == word
            && (YoungCoin(p, word, height) <==> Young(p, blocks, y, height))
  {
    var b := blocks[y.block];
    ThreeBits(b.height, Bit(y.tx == 0) + 2 * Bit(b.txs[y.tx].hogEx && y.at > 0));
  }

  // ---- what the plain connect knows at a place of its walk -----------------------------------------------

  ghost predicate MadeBefore(blocks: seq<Block>, pos: nat, o: Outpoint) {
    exists y :: Makes(blocks, y, o) && y.block < pos && OutputOf(blocks, y).kind != 1
  }

  ghost predicate MadeHere(blocks: seq<Block>, pos: nat, i: nat, o: Outpoint) {
    exists y :: Makes(blocks, y, o) && y.block == pos && y.tx < i
  }

  ghost predicate LedgerIs(blocks: seq<Block>, base: Ledger, pos: nat, i: nat, j: nat, ledger: Ledger, o: Outpoint) {
    && (o in ledger <==> (o in base || MadeBefore(blocks, pos, o)) && !Gone(blocks, pos, i, j, o))
    && (o in ledger && o in base ==> ledger[o] == base[o])
    && (forall y :: o in ledger && Makes(blocks, y, o) ==> ledger[o] == Made(blocks, y))
  }

  ghost predicate OwnIs(blocks: seq<Block>, pos: nat, i: nat, j: nat, own: Ledger, o: Outpoint) {
    && (o in own <==> MadeHere(blocks, pos, i, o) && !Gone(blocks, pos, i, j, o))
    && (forall y :: o in own && Makes(blocks, y, o) ==> own[o] == Made(blocks, y))
  }

  ghost predicate Knows(p: Params, blocks: seq<Block>, base: Ledger, pos: nat, i: nat, j: nat, s: Chain) {
    && (s.Chain? <==> GoodTo(p, blocks, base, pos, i, j))
    && (s.Chain? ==> forall o :: LedgerIs(blocks, base, pos, i, j, s.ledger, o) && OwnIs(blocks, pos, i, j, s.own, o))
  }

  ghost predicate Given(blocks: seq<Block>, base: Ledger) {
    Distinct(blocks) && NotLive(blocks, base) && Sized(blocks, base)
  }

  lemma MakerIsOne(blocks: seq<Block>, base: Ledger, y: Spot, y': Spot, o: Outpoint)
    requires Given(blocks, base) && Makes(blocks, y, o)
    ensures o !in base && (Makes(blocks, y', o) ==> y' == y)
  {
    assert ValidTx(blocks, y.block, y.tx) && IdOf(blocks, y.block, y.tx) == o.tx;
    if Makes(blocks, y', o) {
      assert ValidTx(blocks, y'.block, y'.tx) && IdOf(blocks, y'.block, y'.tx) == o.tx;
    }
  }

  // ---- an input ------------------------------------------------------------------------------------------

  lemma GoneMore(blocks: seq<Block>, x: Spot, o: Outpoint)
    requires InputAt(blocks, x)
    ensures Gone(blocks, x.block, x.tx, x.at + 1, o) <==> Gone(blocks, x.block, x.tx, x.at, o) || o == Taken(blocks, x)
  {
    var pos, i, j := x.block, x.tx, x.at;
    if Gone(blocks, pos, i, j + 1, o) {
      var x' :| InputAt(blocks, x') && Walked(pos, i, j + 1, x') && Taken(blocks, x') == o;
      assert Walked(pos, i, j, x') || x' == x;
    }
    if Gone(blocks, pos, i, j, o) {
      var x' :| InputAt(blocks, x') && Walked(pos, i, j, x') && Taken(blocks, x') == o;
      assert Walked(pos, i, j + 1, x');
    }
    assert Walked(pos, i, j + 1, x);
  }

  lemma GoodMore(p: Params, blocks: seq<Block>, base: Ledger, x: Spot)
    requires InputAt(blocks, x)
    ensures GoodTo(p, blocks, base, x.block, x.tx, x.at + 1) <==>
        GoodTo(p, blocks, base, x.block, x.tx, x.at) && Good(p, blocks, base, x)
  {
    var pos, i, j := x.block, x.tx, x.at;
    forall x': Spot ensures Walked(pos, i, j + 1, x') <==> Walked(pos, i, j, x') || x' == x {
      match x' case Spot(_, _, _) =>
    }
  }

  /** The coin the plain connect finds for an input, or none. */
  lemma InputIsGood(p: Params, blocks: seq<Block>, base: Ledger, x: Spot, s: Chain, ordinal: nat)
    requires Given(blocks, base) && InputAt(blocks, x) && s.Chain? && Knows(p, blocks, base, x.block, x.tx, x.at, s)
    ensures SeqInput(p, blocks[x.block], x.block, s, Taken(blocks, x), ordinal).Chain? <==> Good(p, blocks, base, x)
  {
    var o, height := Taken(blocks, x), blocks[x.block].height;
    assert LedgerIs(blocks, base, x.block, x.tx, x.at, s.ledger, o) && OwnIs(blocks, x.block, x.tx, x.at, s.own, o);
    if o in base {
      AgeIs(p, base[o].word, height);
    }
    if y :| Makes(blocks, y, o) {
      MadeAge(p, blocks, y, height);
      AgeIs(p, Made(blocks, y).word, height);
      forall y' ensures o !in base && (Makes(blocks, y', o) ==> y' == y) { MakerIsOne(blocks, base, y, y', o); }
    }
  }

  /** The outpoint is gone from whichever map it was in, and nothing else changes. */
  lemma InputKnows(p: Params, blocks: seq<Block>, base: Ledger, x: Spot, s: Chain, ordinal: nat)
    requires Given(blocks, base) && InputAt(blocks, x) && Knows(p, blocks, base, x.block, x.tx, x.at, s)
    ensures Knows(p, blocks, base, x.block, x.tx, x.at + 1,
        SeqInput(p, blocks[x.block], x.block, s, Taken(blocks, x), ordinal))
  {
    var s', o := SeqInput(p, blocks[x.block], x.block, s, Taken(blocks, x), ordinal), Taken(blocks, x);
    var j := x.at + 1;
    GoodMore(p, blocks, base, x);
    if s.Chain? {
      InputIsGood(p, blocks, base, x, s, ordinal);
    }
    if s'.Chain? {
      assert LedgerIs(blocks, base, x.block, x.tx, x.at, s.ledger, o) && OwnIs(blocks, x.block, x.tx, x.at, s.own, o);
      if o in s.own {
        NotBoth(blocks, base, x.block, x.tx, o);
      }
      forall q
        ensures LedgerIs(blocks, base, x.block, x.tx, j, s'.ledger, q) && OwnIs(blocks, x.block, x.tx, j, s'.own, q) {
        assert LedgerIs(blocks, base, x.block, x.tx, x.at, s.ledger, q) && OwnIs(blocks, x.block, x.tx, x.at, s.own, q);
        GoneMore(blocks, x, q);
      }
    }
  }

  /** What this block makes was not there before it. */
  lemma NotBoth(blocks: seq<Block>, base: Ledger, pos: nat, i: nat, o: Outpoint)
    requires Given(blocks, base) && MadeHere(blocks, pos, i, o)
    ensures o !in base && !MadeBefore(blocks, pos, o)
  {
    var y :| Makes(blocks, y, o) && y.block == pos && y.tx < i;
    forall y' ensures o !in base && (Makes(blocks, y', o) ==> y' == y) { MakerIsOne(blocks, base, y, y', o); }
  }

  // ---- the outputs of a transaction, and the end of a block --------------------------------------------------

  lemma GoneSame(blocks: seq<Block>, pos: nat, i: nat, j: nat, pos': nat, i': nat, j': nat, o: Outpoint)
    requires forall x :: InputAt(blocks, x) ==> (Walked(pos, i, j, x) <==> Walked(pos', i', j', x))
    ensures Gone(blocks, pos, i, j, o) <==> Gone(blocks, pos', i', j', o)
  {
    if Gone(blocks, pos, i, j, o) {
      var x :| InputAt(blocks, x) && Walked(pos, i, j, x) && Taken(blocks, x) == o;
      assert Walked(pos', i', j', x);
    }
    if Gone(blocks, pos', i', j', o) {
      var x :| InputAt(blocks, x) && Walked(pos', i', j', x) && Taken(blocks, x) == o;
      assert Walked(pos, i, j, x);
    }
  }

  /** No good input takes what is not made yet. */
  lemma NotYetGone(p: Params, blocks: seq<Block>, base: Ledger, pos: nat, i: nat, j: nat, y: Spot, o: Outpoint)
    requires Given(blocks, base) && GoodTo(p, blocks, base, pos, i, j)
    requires Makes(blocks, y, o) && y.block == pos && y.tx == i
    ensures !Gone(blocks, pos, i, j, o)
  {
    if Gone(blocks, pos, i, j, o) {
      var x :| InputAt(blocks, x) && Walked(pos, i, j, x) && Taken(blocks, x) == o;
      assert Good(p, blocks, base, x);
      forall y' ensures o !in base && (Makes(blocks, y', o) ==> y' == y) { MakerIsOne(blocks, base, y, y', o); }
    }
  }

  lemma MadeHereMore(blocks: seq<Block>, pos: nat, i: nat, o: Outpoint)
    requires pos < |blocks| && i < |blocks[pos].txs|
    ensures MadeHere(blocks, pos, i + 1, o) <==> MadeHere(blocks, pos, i, o) || o in OutpointsOf(blocks[pos], i)
  {
    if MadeHere(blocks, pos, i + 1, o) {
      var y :| Makes(blocks, y, o) && y.block == pos && y.tx < i + 1;
      assert y.tx < i ==> MadeHere(blocks, pos, i, o);
    }
    if MadeHere(blocks, pos, i, o) {
      var y :| Makes(blocks, y, o) && y.block == pos && y.tx < i;
    }
    if o in OutpointsOf(blocks[pos], i) {
      assert Makes(blocks, Spot(pos, i, o.index), o);
    }
  }

  lemma OwnMore(p: Params, blocks: seq<Block>, base: Ledger, pos: nat, i: nat, s: Chain, o: Outpoint)
    requires Given(blocks, base) && pos < |blocks| && i < |blocks[pos].txs| && s.Chain?
    requires GoodTo(p, blocks, base, pos, i, Width(blocks[pos], i))
    requires OwnIs(blocks, pos, i, Width(blocks[pos], i), s.own, o)
    requires Gone(blocks, pos, i, Width(blocks[pos], i), o) <==> Gone(blocks, pos, i + 1, 0, o)
    ensures OwnIs(blocks, pos, i + 1, 0, SeqOutputs(blocks[pos], s, i).own, o)
  {
    MadeHereMore(blocks, pos, i, o);
    if o in OutpointsOf(blocks[pos], i) {
      var y := Spot(pos, i, o.index);
      assert Makes(blocks, y, o);
      NotYetGone(p, blocks, base, pos, i, Width(blocks[pos], i), y, o);
      MadeIs(blocks, y);
      forall y' ensures Makes(blocks, y', o) ==> y' == y { MakerIsOne(blocks, base, y, y', o); }
    }
  }

  lemma OutputsKnow(p: Params, blocks: seq<Block>, base: Ledger, pos: nat, i: nat, s: Chain)
    requires Given(blocks, base) && pos < |blocks| && i < |blocks[pos].txs|
    requires Knows(p, blocks, base, pos, i, Width(blocks[pos], i), s)
    ensures Knows(p, blocks, base, pos, i + 1, 0, SeqOutputs(blocks[pos], s, i))
  {
    var j, s' := Width(blocks[pos], i), SeqOutputs(blocks[pos], s, i);
    assert forall x :: InputAt(blocks, x) ==> (Walked(pos, i, j, x) <==> Walked(pos, i + 1, 0, x));
    var n := i + 1;
    if s'.Chain? {
      forall o ensures LedgerIs(blocks, base, pos, n, 0, s'.ledger, o) && OwnIs(blocks, pos, n, 0, s'.own, o) {
        assert LedgerIs(blocks, base, pos, i, j, s.ledger, o) && OwnIs(blocks, pos, i, j, s.own, o);
        GoneSame(blocks, pos, i, j, pos, n, 0, o);
        OwnMore(p, blocks, base, pos, i, s, o);
      }
    }
  }

  lemma MadeBeforeMore(blocks: seq<Block>, pos: nat, o: Outpoint)
    requires pos < |blocks|
    ensures MadeBefore(blocks, pos + 1, o) <==>
        MadeBefore(blocks, pos, o) || exists y :: Makes(blocks, y, o) && y.block == pos && OutputOf(blocks, y).kind != 1
  {
    if MadeBefore(blocks, pos + 1, o) {
      var y :| Makes(blocks, y, o) && y.block < pos + 1 && OutputOf(blocks, y).kind != 1;
      assert y.block < pos ==> MadeBefore(blocks, pos, o);
    }
    if MadeBefore(blocks, pos, o) {
      var y :| Makes(blocks, y, o) && y.block < pos && OutputOf(blocks, y).kind != 1;
    }
  }

  lemma LedgerSettled(blocks: seq<Block>, base: Ledger, pos: nat, s: Chain, o: Outpoint)
    requires Given(blocks, base) && pos < |blocks| && s.Chain?
    requires
      var i := |blocks[pos].txs|;
      && LedgerIs(blocks, base, pos, i, 0, s.ledger, o) && OwnIs(blocks, pos, i, 0, s.own, o)
      && (Gone(blocks, pos, i, 0, o) <==> Gone(blocks, pos + 1, 0, 0, o))
    ensures LedgerIs(blocks, base, pos + 1, 0, 0, Settle(s).ledger, o)
  {
    MadeBeforeMore(blocks, pos, o);
    if y :| Makes(blocks, y, o) {
      forall y' ensures o !in base && (Makes(blocks, y', o) ==> y' == y) { MakerIsOne(blocks, base, y, y', o); }
    }
  }

  lemma BlockKnows(p: Params, blocks: seq<Block>, base: Ledger, pos: nat, s: Chain)
    requires Given(blocks, base) && pos < |blocks| && Knows(p, blocks, base, pos, |blocks[pos].txs|, 0, s)
    ensures Knows(p, blocks, base, pos + 1, 0, 0, Settle(s))
  {
    var i, n := |blocks[pos].txs|, pos + 1;
    assert forall x :: InputAt(blocks, x) ==> (Walked(pos, i, 0, x) <==> Walked(n, 0, 0, x));
    if s.Chain? {
      forall o ensures LedgerIs(blocks, base, n, 0, 0, Settle(s).ledger, o) && OwnIs(blocks, n, 0, 0, map[], o) {
        assert LedgerIs(blocks, base, pos, i, 0, s.ledger, o) && OwnIs(blocks, pos, i, 0, s.own, o);
        GoneSame(blocks, pos, i, 0, n, 0, 0, o);
        LedgerSettled(blocks, base, pos, s, o);
      }
    }
  }

  // ---- the coins taken -----------------------------------------------------------------------------------------

  /** Where the coin an input takes is filed: its block, and its number among the inputs walked there. */
  function KeyOf(blocks: seq<Block>, x: Spot): (nat, nat)
    requires InputAt(blocks, x)
  {
    (x.block, InBase(blocks[x.block], x.tx) + x.at)
  }

  /** The coin of the output taken, marked when it was made in the same block; of a base coin the restored mark goes. */
  ghost predicate IsTaken(blocks: seq<Block>, base: Ledger, x: Spot, coin: Coin)
    requires InputAt(blocks, x)
  {
    var o := Taken(blocks, x);
    && (o in base ==> coin == Coin(base[o].record, base[o].word - if base[o].word / 4 % 2 == 1 then 4 else 0))
    && (forall y :: Makes(blocks, y, o) ==>
          && coin.word == Made(blocks, y).word
          && coin.record == if y.block == x.block then OutputOf(blocks, y).(local := true) else OutputOf(blocks, y))
  }

  ghost predicate Filed(blocks: seq<Block>, base: Ledger, pos: nat, i: nat, j: nat, spent: map<(nat, nat), Coin>) {
    forall x :: InputAt(blocks, x) && Walked(pos, i, j, x) ==>
        KeyOf(blocks, x) in spent && IsTaken(blocks, base, x, spent[KeyOf(blocks, x)])
  }

  lemma KeysDiffer(blocks: seq<Block>, x: Spot, x': Spot)
    requires InputAt(blocks, x) && InputAt(blocks, x') && KeyOf(blocks, x) == KeyOf(blocks, x')
    ensures x == x'
  {
    var b := blocks[x.block];
    if x.tx < x'.tx {
      InBaseMonotone(b, x.tx, x.at + 1, x'.tx, x'.at);
    } else if x'.tx < x.tx {
      InBaseMonotone(b, x'.tx, x'.at + 1, x.tx, x.at);
    }
  }

  lemma InputFiles(p: Params, blocks: seq<Block>, base: Ledger, x: Spot, s: Chain)
    requires Given(blocks, base) && InputAt(blocks, x) && Knows(p, blocks, base, x.block, x.tx, x.at, s) && s.Chain?
    requires Filed(blocks, base, x.block, x.tx, x.at, s.spent)
    ensures
      var s' := SeqInput(p, blocks[x.block], x.block, s, Taken(blocks, x), KeyOf(blocks, x).1);
      s'.Chain? ==> Filed(blocks, base, x.block, x.tx, x.at + 1, s'.spent)
  {
    var s', o := SeqInput(p, blocks[x.block], x.block, s, Taken(blocks, x), KeyOf(blocks, x).1), Taken(blocks, x);
    assert LedgerIs(blocks, base, x.block, x.tx, x.at, s.ledger, o) && OwnIs(blocks, x.block, x.tx, x.at, s.own, o);
    if s'.Chain? {
      if o in s.own {
        NotBoth(blocks, base, x.block, x.tx, o);
      }
      TakenNow(p, blocks, base, x, s);
      forall x' | InputAt(blocks, x') && Walked(x.block, x.tx, x.at + 1, x')
        ensures KeyOf(blocks, x') in s'.spent && IsTaken(blocks, base, x', s'.spent[KeyOf(blocks, x')]) {
        if KeyOf(blocks, x') == KeyOf(blocks, x) {
          KeysDiffer(blocks, x, x');
        } else {
          assert Walked(x.block, x.tx, x.at, x');
        }
      }
    }
  }

  lemma TakenNow(p: Params, blocks: seq<Block>, base: Ledger, x: Spot, s: Chain)
    requires Given(blocks, base) && InputAt(blocks, x) && s.Chain?
    requires
      var o := Taken(blocks, x);
      LedgerIs(blocks, base, x.block, x.tx, x.at, s.ledger, o) && OwnIs(blocks, x.block, x.tx, x.at, s.own, o)
    ensures
      var s' := SeqInput(p, blocks[x.block], x.block, s, Taken(blocks, x), KeyOf(blocks, x).1);
      s'.Chain? ==> KeyOf(blocks, x) in s'.spent && IsTaken(blocks, base, x, s'.spent[KeyOf(blocks, x)])
  {
    var o := Taken(blocks, x);
    if y :| Makes(blocks, y, o) {
      MadeAge(p, blocks, y, 0);
      forall y' ensures o !in base && (Makes(blocks, y', o) ==> y' == y) { MakerIsOne(blocks, base, y, y', o); }
    }
  }

  // ---- whole runs of blocks ----------------------------------------------------------------------------------

  lemma {:induction false} WalkKnows(p: Params, blocks: seq<Block>, base: Ledger, pos: nat, s: Chain, i: nat, j: nat)
    requires Given(blocks, base) && pos < |blocks| && Place(blocks[pos], i, j) && Knows(p, blocks, base, pos, 0, 0, s)
    ensures Knows(p, blocks, base, pos, i, j, SeqAt(p, blocks[pos], pos, s, i, j))
    decreases i, j
  {
    hide Knows;
    var b := blocks[pos];
    if j > 0 {
      var x := Spot(pos, i, j - 1);
      WalkKnows(p, blocks, base, pos, s, i, x.at);
      InputKnows(p, blocks, base, x, SeqAt(p, b, pos, s, i, x.at), InBase(b, i) + x.at);
    } else if i > 0 {
      var k := i - 1;
      WalkKnows(p, blocks, base, pos, s, k, Width(b, k));
      OutputsKnow(p, blocks, base, pos, k, SeqAt(p, b, pos, s, k, Width(b, k)));
    }
  }

  lemma {:induction false} BlocksKnow(p: Params, blocks: seq<Block>, base: Ledger, n: nat)
    requires Given(blocks, base) && n <= |blocks|
    ensures Knows(p, blocks, base, n, 0, 0, SeqBlocks(p, blocks, base, n))
  {
    if n == 0 {
      assert Gone(blocks, 0, 0, 0, Outpoint(0, 0)) ==> false;
      forall o ensures LedgerIs(blocks, base, 0, 0, 0, base, o) && OwnIs(blocks, 0, 0, 0, map[], o) {
        if y :| Makes(blocks, y, o) {
          MakerIsOne(blocks, base, y, y, o);
        }
      }
    } else {
      var m := n - 1;
      BlocksKnow(p, blocks, base, m);
      WalkKnows(p, blocks, base, m, SeqBlocks(p, blocks, base, m), |blocks[m].txs|, 0);
      BlockKnows(p, blocks, base, m, SeqAt(p, blocks[m], m, SeqBlocks(p, blocks, base, m), |blocks[m].txs|, 0));
    }
  }

  lemma FiledSame(blocks: seq<Block>, base: Ledger, pos: nat, i: nat, j: nat, pos': nat, i': nat,
        spent: map<(nat, nat), Coin>)
    requires Filed(blocks, base, pos, i, j, spent)
    requires forall x :: InputAt(blocks, x) && Walked(pos', i', 0, x) ==> Walked(pos, i, j, x)
    ensures Filed(blocks, base, pos', i', 0, spent)
  {
  }

  lemma {:induction false} WalkFiles(p: Params, blocks: seq<Block>, base: Ledger, pos: nat, s: Chain, i: nat, j: nat)
    requires Given(blocks, base) && pos < |blocks| && Place(blocks[pos], i, j) && Knows(p, blocks, base, pos, 0, 0, s)
    requires s.Chain? && Filed(blocks, base, pos, 0, 0, s.spent)
    ensures
      var s' := SeqAt(p, blocks[pos], pos, s, i, j);
      s'.Chain? ==> Filed(blocks, base, pos, i, j, s'.spent)
    decreases i, j
  {
    hide Knows, Filed, CoinMature;
    var b := blocks[pos];
    if j > 0 {
      var x := Spot(pos, i, j - 1);
      WalkFiles(p, blocks, base, pos, s, i, x.at);
      WalkKnows(p, blocks, base, pos, s, i, x.at);
      if SeqAt(p, b, pos, s, i, x.at).Chain? {
        InputFiles(p, blocks, base, x, SeqAt(p, b, pos, s, i, x.at));
      }
    } else if i > 0 {
      var k := i - 1;
      WalkFiles(p, blocks, base, pos, s, k, Width(b, k));
      if SeqAt(p, b, pos, s, i, 0).Chain? {
        FiledSame(blocks, base, pos, k, Width(b, k), pos, i, SeqAt(p, b, pos, s, i, 0).spent);
      }
    }
  }

  lemma {:induction false} BlocksFile(p: Params, blocks: seq<Block>, base: Ledger, n: nat)
    requires Given(blocks, base) && n <= |blocks| && SeqBlocks(p, blocks, base, n).Chain?
    ensures Filed(blocks, base, n, 0, 0, SeqBlocks(p, blocks, base, n).spent)
  {
    if n > 0 {
      var m := n - 1;
      var s := SeqBlocks(p, blocks, base, m);
      PlainObeys(p, blocks, base, n);
      PlainObeys(p, blocks, base, m);
      BlocksFile(p, blocks, base, m);
      BlocksKnow(p, blocks, base, m);
      WalkFiles(p, blocks, base, m, s, |blocks[m].txs|, 0);
      FiledSame(blocks, base, m, |blocks[m].txs|, 0, n, 0, SeqBlocks(p, blocks, base, n).spent);
    }
  }

  /**
  Connecting the blocks one at a time gets through the first `n` exactly when all their inputs are good, and
  leaves exactly the coins of the base and of those blocks that no input of theirs takes, each as it was made.
   */
  lemma PlainObeys(p: Params, blocks: seq<Block>, base: Ledger, n: nat)
    requires Given(blocks, base) && n <= |blocks|
    ensures SeqBlocks(p, blocks, base, n).Chain? <==> Obeys(p, blocks, base, n)
    ensures SeqBlocks(p, blocks, base, n).Chain? ==>
        forall o :: LedgerIs(blocks, base, n, 0, 0, SeqBlocks(p, blocks, base, n).ledger, o)
  {
    BlocksKnow(p, blocks, base, n);
    assert forall x :: Walked(n, 0, 0, x) <==> x.block < n;
  }

  /** Linking ahead and one wave of lookups cut a segment exactly at its first block with an input that is not good. */
  lemma SegmentObeys(p: Params, blocks: seq<Block>, base: Ledger, n: nat)
    requires Given(blocks, base) && n <= |blocks|
    ensures n <= FailedAt(p, blocks, base) <==> Obeys(p, blocks, base, n)
  {
    PlainObeys(p, blocks, base, n);
    SegmentVerdictIsPlain(p, blocks, base, n);
  }

  /** Up to the cut the slot of every input, however it was answered, holds the coin of the output it takes. */
  lemma SlotHoldsTaken(p: Params, blocks: seq<Block>, base: Ledger, x: Spot)
    requires Given(blocks, base) && InputAt(blocks, x) && x.block < FailedAt(p, blocks, base)
    ensures
      var slot := SlotCoin(p, blocks, base, LinkSegment(p, blocks), x.block, x.tx, x.at);
      slot.Some? && IsTaken(blocks, base, x, slot.value)
  {
    hide SeqBlocks, LinkSegment, FailedAt, SlotCoin, IsTaken;
    var n := x.block + 1;
    SlotIsSpent(p, blocks, base, n, x.block, x.tx, x.at);
    BlocksFile(p, blocks, base, n);
  }
}
