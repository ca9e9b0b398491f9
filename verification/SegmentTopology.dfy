/** What the topology pass computes, and the ordinals it counts in. */
module SegmentTopology {
  import opened Wrappers
  import opened SegmentModel

  lemma {:induction false} OutBaseMonotone(b: Block, k: nat, i: nat)
    requires k < i <= |b.txs|
    ensures OutBase(b, k) + |b.txs[k].outputs| <= OutBase(b, i)
  {
    if k < i - 1 {
      OutBaseMonotone(b, k, i - 1);
    }
  }

  /** A block-wide output ordinal names one output. */
  lemma OrdinalInjective(b: Block, k: nat, x: nat, k': nat, x': nat)
    requires k < |b.txs| && x < |b.txs[k].outputs| && k' < |b.txs| && x' < |b.txs[k'].outputs|
    requires OutBase(b, k) + x == OutBase(b, k') + x'
    ensures k == k' && x == x'
  {
    if k < k' {
      OutBaseMonotone(b, k, k');
    } else if k' < k {
      OutBaseMonotone(b, k', k);
    }
  }

  /** Homes are true, and spent bits lie below what was walked. */
  ghost predicate TopOk(b: Block, i: nat, j: nat, t: Topology)
    requires i <= |b.txs|
  {
    && |t.localTx| == InBase(b, i) + j
    && t.outOrdinal == OutBase(b, i)
    && (forall id :: id in t.seen ==>
         t.seen[id].tx < i && b.txs[t.seen[id].tx].id == id && t.seen[id].base == OutBase(b, t.seen[id].tx))
    && (forall k :: 0 <= k < i ==> b.txs[k].id in t.seen)
    && (forall x :: x in t.bits ==> x < t.outOrdinal)
  }

  lemma TopInputOk(b: Block, i: nat, j: nat, t: Topology, o: Outpoint)
    requires i <= |b.txs| && TopOk(b, i, j, t)
    ensures TopOk(b, i, j + 1, TopInput(b, t, o))
  {
    if o.tx in t.seen {
      OutBaseMonotone(b, t.seen[o.tx].tx, i);
    }
  }

  lemma TopOutputsOk(b: Block, i: nat, t: Topology)
    requires i < |b.txs| && TopOk(b, i, Width(b, i), t)
    ensures TopOk(b, i + 1, 0, TopOutputs(b, t, i))
  {
    var t' := TopOutputs(b, t, i);
    assert InBase(b, i + 1) == InBase(b, i) + Width(b, i);
    assert OutBase(b, i + 1) == OutBase(b, i) + |b.txs[i].outputs|;
    forall id | id in t'.seen
      ensures t'.seen[id].tx < i + 1 && b.txs[t'.seen[id].tx].id == id && t'.seen[id].base == OutBase(b, t'.seen[id].tx)
    {
      if id != b.txs[i].id {
        assert id in t.seen;
      }
    }
  }

  lemma {:induction false} TopFacts(b: Block, i: nat, j: nat)
    requires Place(b, i, j)
    ensures TopOk(b, i, j, TopAt(b, i, j))
    decreases i, j
  {
    if j > 0 {
      TopFacts(b, i, j - 1);
      TopInputOk(b, i, j - 1, TopAt(b, i, j - 1), Spends(b, i, j - 1));
    } else if i > 0 {
      TopFacts(b, i - 1, Width(b, i - 1));
      TopOutputsOk(b, i - 1, TopAt(b, i - 1, Width(b, i - 1)));
    }
  }

  /** One place of the walk is no later than another. */
  predicate NoLater(i: nat, j: nat, i': nat, j': nat) { i < i' || (i == i' && j <= j') }

  /** Later parts of the walk add to what earlier ones found. */
  lemma {:induction false} TopExtends(b: Block, i: nat, j: nat, i': nat, j': nat)
    requires Place(b, i, j) && Place(b, i', j') && NoLater(i, j, i', j')
    ensures TopAt(b, i, j).localTx <= TopAt(b, i', j').localTx
    ensures TopAt(b, i, j).bits <= TopAt(b, i', j').bits
    ensures TopAt(b, i, j).invalid ==> TopAt(b, i', j').invalid
    decreases i', j'
  {
    if i == i' && j == j' {
    } else if j' > 0 {
      TopExtends(b, i, j, i', j' - 1);
    } else {
      TopExtends(b, i, j, i' - 1, Width(b, i' - 1));
    }
  }

  /** `InputLocalTx` of an input is what the map held when the pass came by. */
  lemma LocalTxAt(b: Block, i: nat, j: nat)
    requires Place(b, i, j) && j < Width(b, i)
    ensures var t, o := TopAt(b, i, j), Spends(b, i, j);
            LocalTx(TopologyOf(b), InBase(b, i) + j) == if o.tx in t.seen then Some(t.seen[o.tx].tx) else None
  {
    LocalLength(b, i, j);
    LocalTxWritten(b, i, j);
    TopExtends(b, i, j + 1, |b.txs|, 0);
    PrefixAt(TopAt(b, i, j + 1).localTx, TopologyOf(b).localTx, InBase(b, i) + j);
  }

  lemma LocalLength(b: Block, i: nat, j: nat)
    requires Place(b, i, j)
    ensures |TopAt(b, i, j).localTx| == InBase(b, i) + j
  {
    TopFacts(b, i, j);
  }

  lemma LocalTxWritten(b: Block, i: nat, j: nat)
    requires Place(b, i, j) && j < Width(b, i)
    ensures var t, o := TopAt(b, i, j), Spends(b, i, j);
            TopAt(b, i, j + 1).localTx == t.localTx + [if o.tx in t.seen then Some(t.seen[o.tx].tx) else None]
  {
  }

  lemma PrefixAt<T>(s: seq<T>, s': seq<T>, k: nat)
    requires s <= s' && k < |s|
    ensures k < |s'| && s'[k] == s[k]
  {
  }

  // ---- what the pass finds, said without the pass ---------------------------------------------------

  /** The last transaction of an id among the first `i` of a block. */
  function Creator(b: Block, i: nat, id: TxId): (k: Option<nat>)
    requires i <= |b.txs|
    ensures k.Some? ==> k.value < i && b.txs[k.value].id == id
    ensures k.None? ==> forall x :: 0 <= x < i ==> b.txs[x].id != id
  {
    if i == 0 then None else if b.txs[i - 1].id == id then Some(i - 1) else Creator(b, i - 1, id)
  }

  /** The transaction of this block, before the input's own, whose output the input names. */
  function CreatorOf(b: Block, i: nat, j: nat): (k: Option<nat>)
    requires i <= |b.txs| && j < Width(b, i)
    ensures k.Some? ==> k.value < i
  {
    Creator(b, i, Spends(b, i, j).tx)
  }

  /** The ordinal of the output of this block that the input spends, if there is one. */
  function LocalBit(b: Block, i: nat, j: nat): Option<nat>
    requires i <= |b.txs| && j < Width(b, i)
  {
    var k, o := CreatorOf(b, i, j), Spends(b, i, j);
    if k.Some? && o.index < |b.txs[k.value].outputs| then Some(OutBase(b, k.value) + o.index) else None
  }

  /** Input `j` of transaction `i` comes before a place of the walk. */
  predicate Passed(b: Block, i: nat, j: nat, i': nat, j': nat) {
    i <= |b.txs| && j < Width(b, i) && (i < i' || (i == i' && j < j'))
  }

  /** Some input before the place spends output `x` of its own block. */
  ghost predicate SpentBefore(b: Block, i': nat, j': nat, x: nat) {
    exists i, j :: Passed(b, i, j, i', j') && LocalBit(b, i, j) == Some(x)
  }

  /** The input names an output its creator does not have, or one that an input before it has spent. */
  ghost predicate Faulty(b: Block, i: nat, j: nat)
    requires i <= |b.txs| && j < Width(b, i)
  {
    || (CreatorOf(b, i, j).Some? && LocalBit(b, i, j).None?)
    || (LocalBit(b, i, j).Some? && SpentBefore(b, i, j, LocalBit(b, i, j).value))
  }

  ghost predicate FaultBefore(b: Block, i': nat, j': nat) { exists i, j :: Passed(b, i, j, i', j') && Faulty(b, i, j) }

  ghost predicate SeenIs(b: Block, i: nat, t: Topology, id: TxId)
    requires i <= |b.txs|
  {
    var k := Creator(b, i, id);
    (id in t.seen <==> k.Some?) && (k.Some? ==> t.seen[id] == Home(k.value, OutBase(b, k.value)))
  }

  /** The pass at a place, as these definitions have it. */
  ghost predicate Plainly(b: Block, i: nat, j: nat, t: Topology)
    requires i <= |b.txs|
  {
    && (forall id :: SeenIs(b, i, t, id)) && t.outOrdinal == OutBase(b, i)
    && (forall x :: x in t.bits <==> SpentBefore(b, i, j, x))
    && (t.invalid <==> FaultBefore(b, i, j))
  }

  lemma SpentNext(b: Block, i: nat, j: nat, x: nat)
    requires i <= |b.txs| && j < Width(b, i)
    ensures SpentBefore(b, i, j + 1, x) <==> SpentBefore(b, i, j, x) || LocalBit(b, i, j) == Some(x)
  {
    var m := j + 1;
    if SpentBefore(b, i, m, x) {
      var a, c :| Passed(b, a, c, i, m) && LocalBit(b, a, c) == Some(x);
      assert Passed(b, a, c, i, j) || (a == i && c == j);
    }
    if SpentBefore(b, i, j, x) {
      var a, c :| Passed(b, a, c, i, j) && LocalBit(b, a, c) == Some(x);
      assert Passed(b, a, c, i, m);
    }
    assert Passed(b, i, j, i, m);
  }

  lemma FaultNext(b: Block, i: nat, j: nat)
    requires i <= |b.txs| && j < Width(b, i)
    ensures FaultBefore(b, i, j + 1) <==> FaultBefore(b, i, j) || Faulty(b, i, j)
  {
    var m := j + 1;
    if FaultBefore(b, i, m) {
      var a, c :| Passed(b, a, c, i, m) && Faulty(b, a, c);
      assert Passed(b, a, c, i, j) || (a == i && c == j);
    }
    if FaultBefore(b, i, j) {
      var a, c :| Passed(b, a, c, i, j) && Faulty(b, a, c);
      assert Passed(b, a, c, i, m);
    }
    assert Passed(b, i, j, i, m);
  }

  /** Going on to the next transaction passes no input. */
  lemma PassedOn(b: Block, i: nat, a: nat, c: nat)
    requires i < |b.txs|
    ensures Passed(b, a, c, i + 1, 0) <==> Passed(b, a, c, i, Width(b, i))
  {
  }

  lemma InputPlainly(b: Block, i: nat, j: nat, t: Topology)
    requires i <= |b.txs| && j < Width(b, i) && SeenIs(b, i, t, Spends(b, i, j).tx)
    ensures
      var t', k, bit := TopInput(b, t, Spends(b, i, j)), CreatorOf(b, i, j), LocalBit(b, i, j);
      && t'.seen == t.seen && t'.outOrdinal == t.outOrdinal
      && t'.bits == (if bit.Some? then t.bits + {bit.value} else t.bits)
      && (t'.invalid <==> t.invalid || (k.Some? && bit.None?) || (bit.Some? && bit.value in t.bits))
  {
  }

  lemma PlainInput(b: Block, i: nat, j: nat, t: Topology)
    requires i <= |b.txs| && j < Width(b, i) && Plainly(b, i, j, t)
    ensures Plainly(b, i, j + 1, TopInput(b, t, Spends(b, i, j)))
  {
    var o, t', m := Spends(b, i, j), TopInput(b, t, Spends(b, i, j)), j + 1;
    assert SeenIs(b, i, t, o.tx);
    InputPlainly(b, i, j, t);
    forall id ensures SeenIs(b, i, t', id) {
      assert SeenIs(b, i, t, id);
    }
    forall x ensures x in t'.bits <==> SpentBefore(b, i, m, x) {
      SpentNext(b, i, j, x);
    }
    FaultNext(b, i, j);
  }

  lemma PlainOutputs(b: Block, i: nat, t: Topology)
    requires i < |b.txs| && Plainly(b, i, Width(b, i), t)
    ensures Plainly(b, i + 1, 0, TopOutputs(b, t, i))
  {
    var t', n := TopOutputs(b, t, i), i + 1;
    forall id ensures SeenIs(b, n, t', id) {
      assert SeenIs(b, i, t, id);
    }
    forall a, c ensures Passed(b, a, c, n, 0) <==> Passed(b, a, c, i, Width(b, i)) {
      PassedOn(b, i, a, c);
    }
    forall x ensures SpentBefore(b, n, 0, x) <==> SpentBefore(b, i, Width(b, i), x) {
    }
    assert FaultBefore(b, n, 0) <==> FaultBefore(b, i, Width(b, i));
  }

  lemma {:induction false} PlainAt(b: Block, i: nat, j: nat)
    requires Place(b, i, j)
    ensures Plainly(b, i, j, TopAt(b, i, j))
    decreases i, j
  {
    if j > 0 {
      PlainAt(b, i, j - 1);
      PlainInput(b, i, j - 1, TopAt(b, i, j - 1));
    } else if i > 0 {
      PlainAt(b, i - 1, Width(b, i - 1));
      PlainOutputs(b, i - 1, TopAt(b, i - 1, Width(b, i - 1)));
    }
  }

  /** `InputLocalTx` of an input names the last transaction before its own that has the id it spends from. */
  lemma LocalTxIs(b: Block, i: nat, j: nat)
    requires Place(b, i, j) && j < Width(b, i)
    ensures LocalTx(TopologyOf(b), InBase(b, i) + j) == CreatorOf(b, i, j)
  {
    LocalTxAt(b, i, j);
    PlainAt(b, i, j);
    assert SeenIs(b, i, TopAt(b, i, j), Spends(b, i, j).tx);
  }

  /** The bits are the outputs spent inside the block; the block is faulty when one of its inputs is. */
  lemma TopologyIs(b: Block)
    ensures forall x :: x in TopologyOf(b).bits <==> SpentBefore(b, |b.txs|, 0, x)
    ensures TopologyOf(b).invalid <==> FaultBefore(b, |b.txs|, 0)
  {
    PlainAt(b, |b.txs|, 0);
  }
}
