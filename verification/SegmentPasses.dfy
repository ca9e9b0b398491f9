/**
The passes over a segment as they run: nested loops over transactions and inputs that update the
tables, the marks and the slots in place. Each is proved against the function that describes it.
 */
module SegmentPasses {
  import opened Wrappers
  import opened SegmentModel
  import opened SegmentTopology
  import opened SegmentSimulation
  import opened SegmentVerdict
  import opened SegmentBatch
  import opened SegmentLinker
  import SegmentRules

  // ---- fillLocalSpendTopology -----------------------------------------------------------------

  /** A word as its sixty-four bits. */
  type Word = w: seq<bool> | |w| == 64 witness seq(64, _ => false)

  const CLEAR: Word := seq(64, _ => false)

  /** Bit `x` of a row of words. */
  predicate BitAt(words: seq<Word>, x: nat)
    requires x / 64 < |words|
  {
    words[x / 64][x % 64]
  }

  function WithBit(words: seq<Word>, x: nat): (r: seq<Word>)
    requires x / 64 < |words|
    ensures |r| == |words|
  {
    words[x / 64 := words[x / 64][x % 64 := true]]
  }

  lemma OneBit(words: seq<Word>, x: nat, y: nat)
    requires x / 64 < |words| && y / 64 < |words|
    ensures BitAt(WithBit(words, x), y) <==> BitAt(words, y) || y == x
  {
    assert x == 64 * (x / 64) + x % 64 && y == 64 * (y / 64) + y % 64;
  }

  /** The words hold a set of ordinals. */
  ghost predicate Packed(words: seq<Word>, bits: set<nat>) {
    && (forall x :: x in bits ==> x / 64 < |words|)
    && (forall x: nat :: x / 64 < |words| ==> (BitAt(words, x) <==> x in bits))
  }

  lemma PackedMore(words: seq<Word>, bits: set<nat>, x: nat)
    requires Packed(words, bits) && x / 64 < |words|
    ensures Packed(WithBit(words, x), bits + {x})
  {
    forall y: nat | y / 64 < |words| ensures BitAt(WithBit(words, x), y) <==> y in bits + {x} {
      OneBit(words, x, y);
    }
  }

  lemma NothingPacked(words: seq<Word>)
    requires forall k :: 0 <= k < |words| ==> words[k] == CLEAR
    ensures Packed(words, {})
  {
  }

  /** An ordinal has a word among as many as there are ordinals for, rounded up. */
  lemma WordOf(x: nat, n: nat)
    requires x < n
    ensures x / 64 < (n + 63) / 64
  {
  }

  /** The arrays of the pass hold a topology. */
  ghost predicate Matches(t: Topology, localTx: seq<Option<nat>>, words: seq<Word>, invalid: bool,
        seen: map<TxId, Home>, inOrdinal: nat)
  {
    && inOrdinal == |t.localTx| <= |localTx| && localTx[..inOrdinal] == t.localTx
    && Packed(words, t.bits) && invalid == t.invalid && seen == t.seen
  }

  method CountOrdinals(b: Block) returns (inputsNum: nat, outputsNum: nat)
    ensures inputsNum == InBase(b, |b.txs|) && outputsNum == OutBase(b, |b.txs|)
  {
    inputsNum, outputsNum := 0, 0;
    for i := 0 to |b.txs|
      invariant inputsNum == InBase(b, i) && outputsNum == OutBase(b, i)
    {
      outputsNum := outputsNum + |b.txs[i].outputs|;
      if i != 0 {
        inputsNum := inputsNum + |b.txs[i].inputs|;
      }
    }
  }

  /** A bit set, and whether it was set before. */
  method MarkBit(words: array<Word>, x: nat, ghost bits: set<nat>) returns (was: bool)
    requires x / 64 < words.Length && Packed(words[..], bits)
    modifies words
    ensures was == (x in bits) && Packed(words[..], bits + {x})
  {
    was := words[x / 64][x % 64];
    assert was == BitAt(words[..], x);
    PackedMore(words[..], bits, x);
    ghost var before := words[..];
    words[x / 64] := words[x / 64][x % 64 := true];
    assert words[..] == WithBit(before, x);
  }

  /** The creator an input has in its own block, by its place and its first output. */
  lemma HomeFits(b: Block, i: nat, j: nat, home: Home, o: Outpoint)
    requires Place(b, i, j) && i < |b.txs| && o.tx in TopAt(b, i, j).seen && home == TopAt(b, i, j).seen[o.tx]
    ensures home.tx < |b.txs|
    ensures o.index < |b.txs[home.tx].outputs| ==> home.base + o.index < OutBase(b, |b.txs|)
  {
    TopFacts(b, i, j);
    OutBaseMonotone(b, home.tx, |b.txs|);
  }

  lemma LocalFits(b: Block, i: nat, j: nat)
    requires i < |b.txs| && j < Width(b, i)
    ensures |TopAt(b, i, j).localTx| == InBase(b, i) + j < InBase(b, |b.txs|)
  {
    LocalLength(b, i, j);
    InBaseMonotone(b, i, j + 1, |b.txs|, 0);
  }

  /** One input: its creator in this block, if any, and the bit of the output it spends. */
  method FillInput(b: Block, i: nat, j: nat, localTx: array<Option<nat>>, words: array<Word>, was: bool,
        seen: map<TxId, Home>, inOrdinal: nat)
      returns (invalid: bool)
    requires 0 < i < |b.txs| && j < |b.txs[i].inputs|
    requires localTx.Length == InBase(b, |b.txs|) && words.Length == (OutBase(b, |b.txs|) + 63) / 64
    requires Matches(TopAt(b, i, j), localTx[..], words[..], was, seen, inOrdinal)
    modifies localTx, words
    ensures Matches(TopAt(b, i, j + 1), localTx[..], words[..], invalid, seen, inOrdinal + 1)
  {
    var o := b.txs[i].inputs[j];
    ghost var t, before := TopAt(b, i, j), localTx[..];
    LocalFits(b, i, j);
    invalid := was;
    if o.tx !in seen {
      localTx[inOrdinal] := None;
    } else {
      var home := seen[o.tx];
      HomeFits(b, i, j, home, o);
      localTx[inOrdinal] := Some(home.tx);
      if o.index < |b.txs[home.tx].outputs| {
        var bit := home.base + o.index;
        WordOf(bit, OutBase(b, |b.txs|));
        var spent := MarkBit(words, bit, t.bits);
        invalid := was || spent;
      } else {
        invalid := true;
      }
    }
    assert localTx[..inOrdinal + 1] == before[..inOrdinal] + [localTx[inOrdinal]];
  }

  /** `fillLocalSpendTopology`. */
  method FillLocalSpendTopology(b: Block) returns (localTx: array<Option<nat>>, words: array<Word>, invalid: bool)
    ensures localTx[..] == TopologyOf(b).localTx && invalid == TopologyOf(b).invalid
        && Packed(words[..], TopologyOf(b).bits)
  {
    var inputsNum, outputsNum := CountOrdinals(b);
    localTx := new Option<nat>[inputsNum](_ => None);
    words := new Word[(outputsNum + 63) / 64](_ => CLEAR);
    NothingPacked(words[..]);
    invalid := false;
    var seen: map<TxId, Home> := map[];
    var inOrdinal: nat, outOrdinal: nat := 0, 0;
    if |b.txs| == 0 {
      return;
    }
    CoinbaseJoins(b, localTx[..], words[..]);
    seen := seen[b.txs[0].id := Home(0, 0)];
    outOrdinal := |b.txs[0].outputs|;
    for i := 1 to |b.txs|
      invariant localTx.Length == InBase(b, |b.txs|) && words.Length == (OutBase(b, |b.txs|) + 63) / 64
          && fresh(localTx) && fresh(words)
      invariant Matches(TopAt(b, i, 0), localTx[..], words[..], invalid, seen, inOrdinal) && outOrdinal == OutBase(b, i)
    {
      invalid, inOrdinal := FillTx(b, i, localTx, words, invalid, seen, inOrdinal);
      JoinsSeen(b, i, localTx[..], words[..], invalid, seen, inOrdinal, outOrdinal);
      seen := seen[b.txs[i].id := Home(i, outOrdinal)];
      outOrdinal := outOrdinal + |b.txs[i].outputs|;
    }
    LocalLength(b, |b.txs|, 0);
  }

  /** The inputs of one transaction. */
  method FillTx(b: Block, i: nat, localTx: array<Option<nat>>, words: array<Word>, was: bool, seen: map<TxId, Home>,
        start: nat)
      returns (invalid: bool, inOrdinal: nat)
    requires 0 < i < |b.txs|
    requires localTx.Length == InBase(b, |b.txs|) && words.Length == (OutBase(b, |b.txs|) + 63) / 64
    requires Matches(TopAt(b, i, 0), localTx[..], words[..], was, seen, start)
    modifies localTx, words
    ensures Matches(TopAt(b, i, |b.txs[i].inputs|), localTx[..], words[..], invalid, seen, inOrdinal)
  {
    invalid, inOrdinal := was, start;
    for j := 0 to |b.txs[i].inputs|
      invariant Matches(TopAt(b, i, j), localTx[..], words[..], invalid, seen, inOrdinal)
    {
      invalid := FillInput(b, i, j, localTx, words, invalid, seen, inOrdinal);
      inOrdinal := inOrdinal + 1;
    }
  }

  /** The transaction joins the ones an input may spend from. */
  lemma JoinsSeen(b: Block, i: nat, localTx: seq<Option<nat>>, words: seq<Word>, invalid: bool, seen: map<TxId, Home>,
        inOrdinal: nat, outOrdinal: nat)
    requires i < |b.txs| && outOrdinal == OutBase(b, i)
    requires Matches(TopAt(b, i, Width(b, i)), localTx, words, invalid, seen, inOrdinal)
    ensures Matches(TopAt(b, i + 1, 0), localTx, words, invalid, seen[b.txs[i].id := Home(i, outOrdinal)], inOrdinal)
  {
    TopFacts(b, i, Width(b, i));
  }

  lemma CoinbaseJoins(b: Block, localTx: seq<Option<nat>>, words: seq<Word>)
    requires |b.txs| > 0 && Packed(words, {})
    ensures Matches(TopAt(b, 1, 0), localTx, words, false, map[b.txs[0].id := Home(0, 0)], 0)
  {
    assert TopAt(b, 1, 0) == TopOutputs(b, TopAt(b, 0, 0), 0);
  }

  // ---- connecting a segment ----------------------------------------------------------------------

  /** The scan for the first block that cannot be completed. */
  method FirstFailed(p: Params, blocks: seq<Block>, base: Ledger, completable: seq<bool>, ghost l: Link)
        returns (failedAt: nat)
    requires |completable| == |l.completable|
        && forall k :: 0 <= k < |completable| ==> (completable[k] <==> Completable(p, blocks, base, l, k))
    ensures failedAt == FailedFrom(p, blocks, base, l, 0)
  {
    failedAt := 0;
    while failedAt < |completable| && completable[failedAt]
      invariant failedAt <= |completable|
          && FailedFrom(p, blocks, base, l, 0) == FailedFrom(p, blocks, base, l, failedAt)
    {
      failedAt := failedAt + 1;
    }
  }

  // ---- UTXODb::connect ---------------------------------------------------------------------------------

  /** The connect walk of a batch. */
  method ConnectBatch(blocks: seq<Block>, tops: seq<Topology>, l: Link, base: Ledger) returns (ledger: Ledger)
    requires |tops| == |blocks|
    ensures ledger == ApplyBlocks(blocks, tops, l, base, |blocks|)
  {
    ledger := base;
    for pos := 0 to |blocks|
      invariant ledger == ApplyBlocks(blocks, tops, l, base, pos)
    {
      ledger := ConnectOne(blocks[pos], tops[pos], l, pos, ledger);
    }
  }

  method ConnectOne(b: Block, top: Topology, l: Link, pos: nat, was: Ledger) returns (ledger: Ledger)
    ensures ledger == ApplyAt(b, top, l, pos, was, |b.txs|, 0)
  {
    ledger := was;
    var outOrdinal, inOrdinal := 0, 0;
    for i := 0 to |b.txs|
      invariant inOrdinal == InBase(b, i) && outOrdinal == OutBase(b, i) && ledger == ApplyAt(b, top, l, pos, was, i, 0)
    {
      for j := 0 to Width(b, i)
        invariant inOrdinal == InBase(b, i) + j && ledger == ApplyAt(b, top, l, pos, was, i, j)
      {
        if LocalTx(top, inOrdinal).None? && (pos, inOrdinal) !in l.inMarks {
          ledger := ledger - {b.txs[i].inputs[j]};
        }
        inOrdinal := inOrdinal + 1;
      }
      ledger := WriteOutputs(b, top, l, pos, i, outOrdinal, ledger);
      outOrdinal := outOrdinal + |b.txs[i].outputs|;
    }
  }

  ghost function KeptBelow(b: Block, top: Topology, l: Link, pos: nat, i: nat, j: nat): Ledger
    requires i < |b.txs|
  {
    map o | o in OutpointsOf(b, i) && o.index < j && Kept(b, top, l, pos, i, o.index) :: CoinOf(b, i, o.index)
  }

  lemma KeptNext(b: Block, top: Topology, l: Link, pos: nat, i: nat, j: nat)
    requires i < |b.txs| && j < |b.txs[i].outputs|
    ensures KeptBelow(b, top, l, pos, i, j + 1) ==
            if Kept(b, top, l, pos, i, j)
                then KeptBelow(b, top, l, pos, i, j)[Outpoint(b.txs[i].id, j) := CoinOf(b, i, j)]
                else KeptBelow(b, top, l, pos, i, j)
  {
    var a, c := KeptBelow(b, top, l, pos, i, j + 1), KeptBelow(b, top, l, pos, i, j);
    forall o ensures o in a <==> o in c || (o == Outpoint(b.txs[i].id, j) && Kept(b, top, l, pos, i, j)) {
    }
  }

  ghost function Written(b: Block, top: Topology, l: Link, pos: nat, i: nat, was: Ledger, j: nat): Ledger
    requires i < |b.txs|
  {
    was + KeptBelow(b, top, l, pos, i, j)
  }

  lemma WriteOver(was: Ledger, kept: Ledger, o: Outpoint, c: Coin)
    ensures was + kept[o := c] == (was + kept)[o := c]
  {
  }

  lemma WrittenNext(b: Block, top: Topology, l: Link, pos: nat, i: nat, was: Ledger, j: nat)
    requires i < |b.txs| && j < |b.txs[i].outputs|
    ensures Written(b, top, l, pos, i, was, j + 1) ==
            if Kept(b, top, l, pos, i, j)
                then Written(b, top, l, pos, i, was, j)[Outpoint(b.txs[i].id, j) := CoinOf(b, i, j)]
            else Written(b, top, l, pos, i, was, j)
  {
    KeptNext(b, top, l, pos, i, j);
    WriteOver(was, KeptBelow(b, top, l, pos, i, j), Outpoint(b.txs[i].id, j), CoinOf(b, i, j));
  }

  lemma WrittenEnds(b: Block, top: Topology, l: Link, pos: nat, i: nat, was: Ledger)
    requires i < |b.txs|
    ensures Written(b, top, l, pos, i, was, 0) == was
    ensures Written(b, top, l, pos, i, was, |b.txs[i].outputs|) == was + KeptOf(b, top, l, pos, i)
  {
  }

  method WriteOutputs(b: Block, top: Topology, l: Link, pos: nat, i: nat, outBase: nat, was: Ledger)
        returns (ledger: Ledger)
    requires i < |b.txs| && outBase == OutBase(b, i)
    ensures ledger == was + KeptOf(b, top, l, pos, i)
  {
    ledger := was;
    WrittenEnds(b, top, l, pos, i, was);
    for j := 0 to |b.txs[i].outputs|
      invariant ledger == Written(b, top, l, pos, i, was, j)
    {
      WrittenNext(b, top, l, pos, i, was, j);
      if !SpentInside(l, pos, top, outBase + j) && IsCoin(b.txs[i].outputs[j]) {
        ledger := ledger[Outpoint(b.txs[i].id, j) := CoinOf(b, i, j)];
      }
    }
  }

  // ---- connectSegment -------------------------------------------------------------------------------------

  lemma InOrdinalInjective(b: Block, i: nat, j: nat, i': nat, j': nat)
    requires i <= |b.txs| && j < Width(b, i) && i' <= |b.txs| && j' < Width(b, i')
        && InBase(b, i) + j == InBase(b, i') + j'
    ensures i == i' && j == j'
  {
    if i < i' {
      InBaseMonotone(b, i, j + 1, i', j');
    } else if i' < i {
      InBaseMonotone(b, i', j' + 1, i, j);
    }
  }

  lemma ResidualsNamed(blocks: seq<Block>, n: nat, l: Link)
    requires Wf(blocks, n, 0, l)
    ensures Named(l.residual)
    ensures forall k :: 0 <= k < |l.residual| ==> ResidualOk(blocks, l.residual[k]) && l.residual[k].block < n
  {
    var rs := l.residual;
    forall k | 0 <= k < |rs| ensures ResidualOk(blocks, rs[k]) && rs[k].block < n {
      assert ResidualWf(blocks, n, 0, l, rs[k]);
    }
    forall k, k' | 0 <= k < |rs| && 0 <= k' < |rs| && SameSlot(rs[k], rs[k']) ensures rs[k] == rs[k'] {
      assert ResidualWf(blocks, n, 0, l, rs[k]) && ResidualWf(blocks, n, 0, l, rs[k']);
      InOrdinalInjective(blocks[rs[k].block], rs[k].tx, rs[k].idx, rs[k'].tx, rs[k'].idx);
    }
  }

  /**
  A segment linked ahead, answered in one wave and written as one batch: it gets exactly as far as
  connecting its blocks one by one gets, and leaves the same coins when it gets to the end. Cut
  short, it leaves the coins alone.
   */
  method ConnectSegment(p: Params, hashes: Hashes, blocks: seq<Block>, base: Ledger)
        returns (failedAt: nat, ledger: Ledger)
    requires Distinct(blocks) && NotLive(blocks, base)
    ensures failedAt <= |blocks|
    ensures forall n :: 0 <= n <= |blocks| ==> (SeqBlocks(p, blocks, base, n).Chain? <==> n <= failedAt)
    ensures SegmentRules.Sized(blocks, base) ==>
        forall n :: 0 <= n <= |blocks| ==> (SegmentRules.Obeys(p, blocks, base, n) <==> n <= failedAt)
    ensures failedAt == |blocks| ==> ledger == SeqBlocks(p, blocks, base, |blocks|).ledger
    ensures failedAt < |blocks| ==> ledger == base
  {
    if SegmentRules.Sized(blocks, base) {
      forall n | 0 <= n <= |blocks|
        ensures SeqBlocks(p, blocks, base, n).Chain? <==> SegmentRules.Obeys(p, blocks, base, n) {
        SegmentRules.PlainObeys(p, blocks, base, n);
      }
    }
    ghost var l := LinkSegment(p, blocks);
    BlocksExtend(p, blocks, Topologies(blocks), |blocks|, |blocks|);
    SegmentInStep(p, blocks, base, |blocks|);
    ResidualsNamed(blocks, |blocks|, l);
    FailedIsFirst(p, blocks, base, l, 0);
    forall n | 0 <= n <= |blocks| ensures SeqBlocks(p, blocks, base, n).Chain? <==> n <= FailedAt(p, blocks, base) {
      SegmentVerdictIsPlain(p, blocks, base, n);
    }
    var segment := new Segment(blocks, hashes);
    segment.ResolveInputs(p);
    var linked := Link(map[], segment.outMarks, segment.inMarks, segment.residual, {}, segment.linked, true,
        segment.completable);
    segment.ResolveResidual(p, base, l);
    failedAt := FirstFailed(p, blocks, base, segment.completable, l);
    ledger := base;
    if failedAt == |blocks| {
      ledger := ConnectBatch(blocks, segment.tops, linked, base);
      SameMarks(blocks, segment.tops, linked, l, base, |blocks|);
      BatchIsPlain(p, blocks, base);
    }
  }

  /** The batch looks at the marks and at nothing else the linker knew. */
  lemma {:induction false} SameMarks(blocks: seq<Block>, tops: seq<Topology>, l: Link, l': Link, base: Ledger, n: nat)
    requires n <= |blocks| == |tops| && l.outMarks == l'.outMarks && l.inMarks == l'.inMarks
    ensures ApplyBlocks(blocks, tops, l, base, n) == ApplyBlocks(blocks, tops, l', base, n)
  {
    if n > 0 {
      SameMarks(blocks, tops, l, l', base, n - 1);
      SameMarksAt(blocks[n - 1], tops[n - 1], l, l', n - 1, ApplyBlocks(blocks, tops, l, base, n - 1),
          |blocks[n - 1].txs|, 0);
    }
  }

  lemma {:induction false} SameMarksAt(b: Block, top: Topology, l: Link, l': Link, pos: nat, ledger: Ledger, i: nat,
        j: nat)
    requires Place(b, i, j) && l.outMarks == l'.outMarks && l.inMarks == l'.inMarks
    ensures ApplyAt(b, top, l, pos, ledger, i, j) == ApplyAt(b, top, l', pos, ledger, i, j)
    decreases i, j
  {
    if j > 0 {
      SameMarksAt(b, top, l, l', pos, ledger, i, j - 1);
    } else if i > 0 {
      SameMarksAt(b, top, l, l', pos, ledger, i - 1, Width(b, i - 1));
      assert KeptOf(b, top, l, pos, i - 1) == KeptOf(b, top, l', pos, i - 1);
    }
  }
}
