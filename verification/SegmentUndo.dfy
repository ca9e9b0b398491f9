/**
Disconnecting. A block put back by the disconnect walk leaves the ledger it was connected to, up
to the mark on the coins it restored, and that mark never decides anything later.
 */
module SegmentUndo {
  import opened SegmentModel
  import opened SegmentTopology
  import opened SegmentSimulation
  import opened SegmentSteps
  import opened SegmentVerdict

  // ---- UTXODb::disconnect ---------------------------------------------------------------------------

  /** The word a restored coin goes back with. */
  function RestoredWord(word: nat): nat { if MetaRestored(word) then word else word + 4 }

  function UndoInput(top: Topology, ledger: Ledger, o: Outpoint, ordinal: nat, coin: Coin): Ledger {
    if LocalTx(top, ordinal).Some? then ledger else ledger[o := Coin(coin.record, RestoredWord(coin.word))]
  }

  /** Outputs of a transaction the disconnect erases: the run's marks are not looked at. */
  function Erased(b: Block, top: Topology, i: nat): set<Outpoint>
    requires i < |b.txs|
  {
    set o | o in OutpointsOf(b, i) && IsCoin(b.txs[i].outputs[o.index]) && OutBase(b, i) + o.index !in top.bits
  }

  predicate FilledAt(b: Block, pos: nat, spent: map<(nat, nat), Coin>, i: nat, j: nat) {
    i <= |b.txs| && j < Width(b, i) ==> (pos, InBase(b, i) + j) in spent
  }

  /** Every input of the block has its linked coin. */
  ghost predicate Filled(b: Block, pos: nat, spent: map<(nat, nat), Coin>) {
    forall i: nat, j: nat :: FilledAt(b, pos, spent, i, j)
  }

  ghost function UndoAt(b: Block, top: Topology, pos: nat, spent: map<(nat, nat), Coin>, ledger: Ledger, i: nat,
        j: nat): Ledger
    requires Place(b, i, j) && Filled(b, pos, spent)
    decreases i, j
  {
    if j > 0 then
      assert FilledAt(b, pos, spent, i, j - 1);
      UndoInput(top, UndoAt(b, top, pos, spent, ledger, i, j - 1), Spends(b, i, j - 1), InBase(b, i) + (j - 1),
          spent[(pos, InBase(b, i) + (j - 1))])
    else if i > 0 then UndoAt(b, top, pos, spent, ledger, i - 1, Width(b, i - 1)) - Erased(b, top, i - 1)
    else ledger
  }

  ghost function UndoBlock(b: Block, pos: nat, spent: map<(nat, nat), Coin>, ledger: Ledger): Ledger
    requires Filled(b, pos, spent)
  {
    UndoAt(b, TopologyOf(b), pos, spent, ledger, |b.txs|, 0)
  }

  // ---- the same coins, marks aside -----------------------------------------------------------------------

  predicate SameCoin(c: Coin, d: Coin) { c.record == d.record && LinkedMeta(c.word) == LinkedMeta(d.word) }

  predicate SameAt(a: Ledger, c: Ledger, o: Outpoint) { (o in a <==> o in c) && (o in a ==> SameCoin(a[o], c[o])) }

  ghost predicate SameCoins(a: Ledger, c: Ledger) { forall o :: SameAt(a, c, o) }

  lemma RestoredIsLinked(word: nat)
    ensures LinkedMeta(RestoredWord(word)) == LinkedMeta(word)
    ensures LinkedMeta(LinkedMeta(word)) == LinkedMeta(word)
  {
    var q, r := word / 8, word % 8;
    assert word == 8 * q + r;
    assert word / 4 == 2 * q + r / 4;
    if MetaRestored(word) {
      assert LinkedMeta(word) == 8 * q + (r - 4);
      assert (8 * q + (r - 4)) / 4 == 2 * q + (r - 4) / 4;
    } else {
      assert (word + 4) / 4 == 2 * q + (r + 4) / 4;
    }
  }

  // ---- what connecting one block did ------------------------------------------------------------------------

  /** No transaction of the block has a coin already, and no two share an id. */
  ghost predicate Fresh(b: Block, ledger: Ledger) {
    && (forall o, k :: o in ledger && 0 <= k < |b.txs| ==> o.tx != b.txs[k].id)
    && (forall k, k' :: 0 <= k < |b.txs| && 0 <= k' < |b.txs| && b.txs[k].id == b.txs[k'].id ==> k == k')
  }

  /** Outpoints spent by the inputs up to a place that no transaction of the block made. */
  function Foreign(b: Block, i: nat, j: nat): set<Outpoint>
    requires Place(b, i, j)
    decreases i, j
  {
    if j > 0 then
      var o := Spends(b, i, j - 1);
      if o.tx in TopAt(b, i, j - 1).seen then Foreign(b, i, j - 1) else Foreign(b, i, j - 1) + {o}
    else if i > 0 then Foreign(b, i - 1, Width(b, i - 1))
    else {}
  }

  lemma {:induction false} ForeignGrows(b: Block, i: nat, j: nat, i': nat, j': nat)
    requires PlaceOrder(b, i, j, i', j')
    ensures Foreign(b, i, j) <= Foreign(b, i', j')
    decreases i', j'
  {
    if i == i' && j == j' {
    } else if j' > 0 {
      ForeignGrows(b, i, j, i', j' - 1);
    } else {
      ForeignGrows(b, i, j, i' - 1, Width(b, i' - 1));
    }
  }

  /** The plain connect over a walk: the foreign coins leave, the own outputs follow the topology. */
  ghost predicate Shape(b: Block, i: nat, j: nat, was: Ledger, s: Chain)
    requires Place(b, i, j)
  {
    s.Chain? && s.ledger == was - Foreign(b, i, j) && OwnSim(b, TopAt(b, i, j), s.own) && Foreign(b, i, j) <= was.Keys
  }

  lemma ShapeInput(p: Params, b: Block, pos: nat, i: nat, j: nat, was: Ledger, s: Chain)
    requires Place(b, i, j) && j < Width(b, i) && Fresh(b, was) && Shape(b, i, j, was, s)
    requires SeqInput(p, b, pos, s, Spends(b, i, j), InBase(b, i) + j).Chain?
    ensures Shape(b, i, j + 1, was, SeqInput(p, b, pos, s, Spends(b, i, j), InBase(b, i) + j))
    ensures var o, s' := Spends(b, i, j), SeqInput(p, b, pos, s, Spends(b, i, j), InBase(b, i) + j);
            o.tx !in TopAt(b, i, j).seen ==>
                o in was && s'.spent[(pos, InBase(b, i) + j)] == Coin(was[o].record, LinkedMeta(was[o].word))
                && o !in Foreign(b, i, j)
  {
    var o, t := Spends(b, i, j), TopAt(b, i, j);
    TopFacts(b, i, j);
    assert OwnAt(b, t, s.own, o);
    if o.tx in t.seen {
      assert b.txs[t.seen[o.tx].tx].id == o.tx;
      assert o !in was;
      OwnSpend(b, i, j, t, s.own, o);
    } else {
      OwnForeign(b, t, s.own, o);
    }
  }

  lemma ShapeOutputs(b: Block, i: nat, was: Ledger, s: Chain)
    requires i < |b.txs| && Fresh(b, was) && Shape(b, i, Width(b, i), was, s)
    ensures Shape(b, i + 1, 0, was, SeqOutputs(b, s, i))
  {
    var t := TopAt(b, i, Width(b, i));
    TopFacts(b, i, Width(b, i));
    assert b.txs[i].id !in t.seen;
    OwnOutputs(b, i, t, s.own);
  }

  /** A refused walk stays refused. */
  lemma {:induction false} StillGoing(p: Params, b: Block, pos: nat, s: Chain, i: nat, j: nat, i': nat, j': nat)
    requires PlaceOrder(b, i, j, i', j') && SeqAt(p, b, pos, s, i', j').Chain?
    ensures SeqAt(p, b, pos, s, i, j).Chain?
    decreases i', j'
  {
    if i == i' && j == j' {
    } else if j' > 0 {
      StillGoing(p, b, pos, s, i, j, i', j' - 1);
    } else {
      StillGoing(p, b, pos, s, i, j, i' - 1, Width(b, i' - 1));
    }
  }

  lemma {:induction false} SeqShape(p: Params, b: Block, pos: nat, s: Chain, i: nat, j: nat)
    requires Place(b, i, j) && s.Chain? && s.own == map[] && Fresh(b, s.ledger) && SeqAt(p, b, pos, s, i, j).Chain?
    ensures Shape(b, i, j, s.ledger, SeqAt(p, b, pos, s, i, j))
    decreases i, j
  {
    if j > 0 {
      SeqShape(p, b, pos, s, i, j - 1);
      ShapeInput(p, b, pos, i, j - 1, s.ledger, SeqAt(p, b, pos, s, i, j - 1));
    } else if i > 0 {
      SeqShape(p, b, pos, s, i - 1, Width(b, i - 1));
      ShapeOutputs(b, i - 1, s.ledger, SeqAt(p, b, pos, s, i - 1, Width(b, i - 1)));
    } else {
      forall o ensures OwnAt(b, NO_TOPOLOGY, s.own, o) {
      }
    }
  }

  /** What was spent by a place is still on record later. */
  lemma {:induction false} SpentStays(p: Params, b: Block, pos: nat, s: Chain, i: nat, j: nat, i': nat, j': nat,
        key: (nat, nat))
    requires PlaceOrder(b, i, j, i', j') && SeqAt(p, b, pos, s, i', j').Chain? && SeqAt(p, b, pos, s, i, j).Chain?
    requires key in SeqAt(p, b, pos, s, i, j).spent && Before(key, pos, InBase(b, i) + j)
    ensures key in SeqAt(p, b, pos, s, i', j').spent
        && SeqAt(p, b, pos, s, i', j').spent[key] == SeqAt(p, b, pos, s, i, j).spent[key]
    decreases i', j'
  {
    if i == i' && j == j' {
    } else if j' > 0 {
      SpentStays(p, b, pos, s, i, j, i', j' - 1, key);
      InBaseMonotone(b, i, j, i', j' - 1);
    } else {
      SpentStays(p, b, pos, s, i, j, i' - 1, Width(b, i' - 1), key);
    }
  }

  /** The record of an input, right after it. */
  lemma JustSpent(p: Params, b: Block, pos: nat, s: Chain, i: nat, j: nat)
    requires s.Chain? && s.own == map[] && Fresh(b, s.ledger)
    requires i <= |b.txs| && j < Width(b, i) && SeqAt(p, b, pos, s, i, j).Chain? && SeqAt(p, b, pos, s, i, j + 1).Chain?
    ensures var key, o, spent := (pos, InBase(b, i) + j), Spends(b, i, j), SeqAt(p, b, pos, s, i, j + 1).spent;
            && key in spent
            && (o.tx !in TopAt(b, i, j).seen ==>
                 o in s.ledger && spent[key] == Coin(s.ledger[o].record, LinkedMeta(s.ledger[o].word)))
  {
    SeqShape(p, b, pos, s, i, j);
    ShapeInput(p, b, pos, i, j, s.ledger, SeqAt(p, b, pos, s, i, j));
  }

  lemma OnRecordToEnd(p: Params, b: Block, pos: nat, s: Chain, i: nat, j: nat)
    requires SeqAt(p, b, pos, s, |b.txs|, 0).Chain? && i <= |b.txs| && j < Width(b, i)
    ensures SeqAt(p, b, pos, s, i, j).Chain? && SeqAt(p, b, pos, s, i, j + 1).Chain?
    ensures var key, z, a := (pos, InBase(b, i) + j), SeqAt(p, b, pos, s, |b.txs|, 0), SeqAt(p, b, pos, s, i, j + 1);
            key in a.spent ==> key in z.spent && z.spent[key] == a.spent[key]
  {
    var key := (pos, InBase(b, i) + j);
    StillGoing(p, b, pos, s, i, j, |b.txs|, 0);
    StillGoing(p, b, pos, s, i, j + 1, |b.txs|, 0);
    if key in SeqAt(p, b, pos, s, i, j + 1).spent {
      SpentStays(p, b, pos, s, i, j + 1, |b.txs|, 0, key);
    }
  }

  /** The record of every input, once the block is connected. */
  lemma SpentOnRecord(p: Params, b: Block, pos: nat, s: Chain, i: nat, j: nat)
    requires s.Chain? && s.own == map[] && Fresh(b, s.ledger) && SeqAt(p, b, pos, s, |b.txs|, 0).Chain?
    requires i <= |b.txs| && j < Width(b, i)
    ensures var key, o, spent := (pos, InBase(b, i) + j), Spends(b, i, j), SeqAt(p, b, pos, s, |b.txs|, 0).spent;
            && key in spent
            && (o.tx !in TopAt(b, i, j).seen ==>
                 o in s.ledger && spent[key] == Coin(s.ledger[o].record, LinkedMeta(s.ledger[o].word)))
  {
    OnRecordToEnd(p, b, pos, s, i, j);
    JustSpent(p, b, pos, s, i, j);
  }

  // ---- undoing it ------------------------------------------------------------------------------------------------

  /** Coins of the block's own transactions from `i` on: not erased yet. */
  predicate OwnLeft(b: Block, i: nat, o: Outpoint) {
    && o.tx in TopologyOf(b).seen && i <= TopologyOf(b).seen[o.tx].tx < |b.txs|
    && o.index < |b.txs[TopologyOf(b).seen[o.tx].tx].outputs|
    && IsCoin(b.txs[TopologyOf(b).seen[o.tx].tx].outputs[o.index])
    && TopologyOf(b).seen[o.tx].base + o.index !in TopologyOf(b).bits
  }

  ghost predicate UndoneAt(b: Block, i: nat, back: set<Outpoint>, was: Ledger, ledger: Ledger, o: Outpoint) {
    && (o in ledger <==> (o in was && (o !in Foreign(b, |b.txs|, 0) || o in back)) || OwnLeft(b, i, o))
    && (o in ledger && o in was ==> SameCoin(ledger[o], was[o]))
  }

  ghost predicate Undone(b: Block, i: nat, back: set<Outpoint>, was: Ledger, ledger: Ledger) {
    forall o :: UndoneAt(b, i, back, was, ledger, o)
  }

  lemma UndoneInput(b: Block, i: nat, j: nat, was: Ledger, ledger: Ledger, o: Outpoint, coin: Coin)
    requires Place(b, i, j) && j < Width(b, i) && o == Spends(b, i, j) && Undone(b, i, Foreign(b, i, j), was, ledger)
    requires o in was && coin == Coin(was[o].record, LinkedMeta(was[o].word)) && o.tx !in TopAt(b, i, j).seen
    ensures Undone(b, i, Foreign(b, i, j + 1), was, ledger[o := Coin(coin.record, RestoredWord(coin.word))])
  {
    var ledger' := ledger[o := Coin(coin.record, RestoredWord(coin.word))];
    var back := Foreign(b, i, j + 1);
    RestoredIsLinked(was[o].word);
    RestoredIsLinked(LinkedMeta(was[o].word));
    ForeignGrows(b, i, j + 1, |b.txs|, 0);
    forall q ensures UndoneAt(b, i, back, was, ledger', q) {
      assert UndoneAt(b, i, Foreign(b, i, j), was, ledger, q);
    }
  }

  lemma HomeIn(b: Block, k: nat, was: Ledger)
    requires k < |b.txs| && Fresh(b, was)
    ensures b.txs[k].id in TopologyOf(b).seen && TopologyOf(b).seen[b.txs[k].id] == Home(k, OutBase(b, k))
  {
    TopFacts(b, |b.txs|, 0);
    assert b.txs[k].id in TopologyOf(b).seen;
  }

  lemma SeenIsOwn(b: Block, was: Ledger, o: Outpoint)
    requires Fresh(b, was) && o.tx in TopologyOf(b).seen
    ensures o !in was && TopologyOf(b).seen[o.tx].tx < |b.txs| && b.txs[TopologyOf(b).seen[o.tx].tx].id == o.tx
  {
    TopFacts(b, |b.txs|, 0);
    var k := TopologyOf(b).seen[o.tx].tx;
    assert b.txs[k].id == o.tx;
  }

  lemma UndoneOutputsAt(b: Block, i: nat, t: Topology, back: set<Outpoint>, was: Ledger, ledger: Ledger, o: Outpoint)
    requires i < |b.txs| && t == TopologyOf(b) && UndoneAt(b, i, back, was, ledger, o)
    requires b.txs[i].id in t.seen && t.seen[b.txs[i].id] == Home(i, OutBase(b, i))
    requires o.tx in t.seen ==> o !in was && t.seen[o.tx].tx < |b.txs| && b.txs[t.seen[o.tx].tx].id == o.tx
    ensures UndoneAt(b, i + 1, back, was, ledger - Erased(b, t, i), o)
  {
  }

  lemma UndoneOutputs(b: Block, i: nat, back: set<Outpoint>, was: Ledger, ledger: Ledger)
    requires i < |b.txs| && Fresh(b, was) && Undone(b, i, back, was, ledger)
    ensures Undone(b, i + 1, back, was, ledger - Erased(b, TopologyOf(b), i))
  {
    var next := i + 1;
    HomeIn(b, i, was);
    forall o ensures UndoneAt(b, next, back, was, ledger - Erased(b, TopologyOf(b), i), o) {
      assert UndoneAt(b, i, back, was, ledger, o);
      if o.tx in TopologyOf(b).seen {
        SeenIsOwn(b, was, o);
      }
      UndoneOutputsAt(b, i, TopologyOf(b), back, was, ledger, o);
    }
  }

  lemma UndoOpens(b: Block, was: Ledger, s: Chain, ledger: Ledger)
    requires Fresh(b, was) && Shape(b, |b.txs|, 0, was, s) && SameCoins(ledger, Settle(s).ledger)
    ensures Undone(b, 0, {}, was, ledger)
  {
    forall o ensures UndoneAt(b, 0, {}, was, ledger, o) {
      assert OwnAt(b, TopologyOf(b), s.own, o) && SameAt(ledger, Settle(s).ledger, o);
      if o.tx in TopologyOf(b).seen {
        SeenIsOwn(b, was, o);
      }
    }
  }

  lemma {:induction false} UndoWalk(p: Params, b: Block, pos: nat, s: Chain, spent: map<(nat, nat), Coin>,
        ledger: Ledger, i: nat, j: nat)
    requires Place(b, i, j) && Filled(b, pos, spent)
    requires s.Chain? && s.own == map[] && Fresh(b, s.ledger) && SeqAt(p, b, pos, s, |b.txs|, 0).Chain?
    requires forall x, y :: 0 <= x <= |b.txs| && 0 <= y < Width(b, x) ==> OnRecord(p, b, pos, s, spent, x, y)
    requires SameCoins(ledger, SeqBlock(p, b, pos, s).ledger)
    ensures Undone(b, i, Foreign(b, i, j), s.ledger, UndoAt(b, TopologyOf(b), pos, spent, ledger, i, j))
    decreases i, j
  {
    hide Undone, SameCoins, Fresh;
    if j > 0 {
      UndoWalk(p, b, pos, s, spent, ledger, i, j - 1);
      var o := Spends(b, i, j - 1);
      assert OnRecord(p, b, pos, s, spent, i, j - 1);
      SpentOnRecord(p, b, pos, s, i, j - 1);
      LocalTxAt(b, i, j - 1);
      if o.tx !in TopAt(b, i, j - 1).seen {
        UndoneInput(b, i, j - 1, s.ledger, UndoAt(b, TopologyOf(b), pos, spent, ledger, i, j - 1), o,
            spent[(pos, InBase(b, i) + (j - 1))]);
      }
    } else if i > 0 {
      UndoWalk(p, b, pos, s, spent, ledger, i - 1, Width(b, i - 1));
      UndoneOutputs(b, i - 1, Foreign(b, i - 1, Width(b, i - 1)), s.ledger,
          UndoAt(b, TopologyOf(b), pos, spent, ledger, i - 1, Width(b, i - 1)));
    } else {
      SeqShape(p, b, pos, s, |b.txs|, 0);
      UndoOpens(b, s.ledger, SeqAt(p, b, pos, s, |b.txs|, 0), ledger);
    }
  }

  /** The record handed to the disconnect is the one the connect made. */
  ghost predicate OnRecord(p: Params, b: Block, pos: nat, s: Chain, spent: map<(nat, nat), Coin>, i: nat, j: nat)
    requires i <= |b.txs| && j < Width(b, i)
  {
    var key, made := (pos, InBase(b, i) + j), SeqAt(p, b, pos, s, |b.txs|, 0);
    made.Chain? && key in spent && key in made.spent && spent[key] == made.spent[key]
  }

  /** Disconnecting a block restores the ledger it was connected to, restored marks aside. */
  lemma UndoIsInverse(p: Params, b: Block, pos: nat, s: Chain, spent: map<(nat, nat), Coin>, ledger: Ledger)
    requires s.Chain? && s.own == map[] && Fresh(b, s.ledger) && SeqBlock(p, b, pos, s).Chain? && Filled(b, pos, spent)
    requires forall x, y :: 0 <= x <= |b.txs| && 0 <= y < Width(b, x) ==> OnRecord(p, b, pos, s, spent, x, y)
    requires SameCoins(ledger, SeqBlock(p, b, pos, s).ledger)
    ensures SameCoins(UndoBlock(b, pos, spent, ledger), s.ledger)
  {
    UndoWalk(p, b, pos, s, spent, ledger, |b.txs|, 0);
    forall o ensures SameAt(UndoBlock(b, pos, spent, ledger), s.ledger, o) {
      assert UndoneAt(b, |b.txs|, Foreign(b, |b.txs|, 0), s.ledger, UndoBlock(b, pos, spent, ledger), o);
    }
  }

  // ---- which coins carry the mark --------------------------------------------------------------------------

  lemma MarkIsSet(word: nat)
    ensures RestoredWord(word) / 4 % 2 == 1 && RestoredWord(word) / 8 == word / 8 && RestoredWord(word) % 4 == word % 4
  {
    var q, r := word / 8, word % 8;
    assert word == 8 * q + r && word / 4 == 2 * q + r / 4;
    assert !MetaRestored(word) ==> (word + 4) / 4 == 2 * q + (r + 4) / 4;
  }

  lemma {:induction false} MarkedAt(b: Block, pos: nat, spent: map<(nat, nat), Coin>, ledger: Ledger, i: nat, j: nat,
        o: Outpoint)
    requires Place(b, i, j) && Filled(b, pos, spent)
    ensures
      var u := UndoAt(b, TopologyOf(b), pos, spent, ledger, i, j);
      o in u ==> if o in Foreign(b, i, j) then u[o].word / 4 % 2 == 1 else o in ledger && u[o] == ledger[o]
    decreases i, j
  {
    if j > 0 {
      MarkedAt(b, pos, spent, ledger, i, j - 1, o);
      LocalTxAt(b, i, j - 1);
      assert FilledAt(b, pos, spent, i, j - 1);
      MarkIsSet(spent[(pos, InBase(b, i) + (j - 1))].word);
    } else if i > 0 {
      MarkedAt(b, pos, spent, ledger, i - 1, Width(b, i - 1), o);
    }
  }

  /** A coin put back carries the mark, whatever it was filed with; every other coin is as it was. */
  lemma PutBackIsMarked(b: Block, pos: nat, spent: map<(nat, nat), Coin>, ledger: Ledger, o: Outpoint)
    requires Filled(b, pos, spent) && o in UndoBlock(b, pos, spent, ledger)
    ensures
      var c := UndoBlock(b, pos, spent, ledger)[o];
      if o in Foreign(b, |b.txs|, 0) then c.word / 4 % 2 == 1 else o in ledger && c == ledger[o]
  {
    MarkedAt(b, pos, spent, ledger, |b.txs|, 0, o);
  }

  // ---- the walk ------------------------------------------------------------------------------------------

  ghost function ErasedBelow(b: Block, top: Topology, i: nat, j: nat): set<Outpoint>
    requires i < |b.txs|
  {
    set o | o in Erased(b, top, i) && o.index < j
  }

  method EraseOutputs(b: Block, top: Topology, i: nat, outBase: nat, was: Ledger) returns (ledger: Ledger)
    requires i < |b.txs| && outBase == OutBase(b, i)
    ensures ledger == was - Erased(b, top, i)
  {
    ledger := was;
    assert ErasedBelow(b, top, i, 0) == {};
    for j := 0 to |b.txs[i].outputs|
      invariant ledger == was - ErasedBelow(b, top, i, j)
    {
      var o := Outpoint(b.txs[i].id, j);
      var spent := outBase + j in top.bits;
      assert ErasedBelow(b, top, i, j + 1) == ErasedBelow(b, top, i, j) + if o in Erased(b, top, i) then {o} else {};
      if !spent && IsCoin(b.txs[i].outputs[j]) {
        ledger := ledger - {o};
      }
    }
    assert ErasedBelow(b, top, i, |b.txs[i].outputs|) == Erased(b, top, i);
  }

  /** `disconnect`: forward through the block, putting back what it took and erasing what it made. */
  method DisconnectBlock(b: Block, top: Topology, pos: nat, spent: map<(nat, nat), Coin>, was: Ledger)
        returns (ledger: Ledger)
    requires Filled(b, pos, spent) && top == TopologyOf(b)
    ensures ledger == UndoBlock(b, pos, spent, was)
  {
    ledger := was;
    var outOrdinal, inOrdinal := 0, 0;
    for i := 0 to |b.txs|
      invariant inOrdinal == InBase(b, i) && outOrdinal == OutBase(b, i)
      invariant ledger == UndoAt(b, top, pos, spent, was, i, 0)
    {
      for j := 0 to Width(b, i)
        invariant inOrdinal == InBase(b, i) + j && ledger == UndoAt(b, top, pos, spent, was, i, j)
      {
        assert FilledAt(b, pos, spent, i, j);
        if LocalTx(top, inOrdinal).None? {
          var coin := spent[(pos, inOrdinal)];
          ledger := ledger[b.txs[i].inputs[j] := Coin(coin.record, RestoredWord(coin.word))];
        }
        inOrdinal := inOrdinal + 1;
      }
      ledger := EraseOutputs(b, top, i, outOrdinal, ledger);
      outOrdinal := outOrdinal + |b.txs[i].outputs|;
    }
  }
}
