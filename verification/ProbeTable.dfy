/**
The open addressing tables of segment linking. A slot holds a hash and a reference to where the key
lives; hash zero is an empty slot. The table behaves as a map from keys to references.
 */
module ProbeTable {
  import opened Wrappers

  /** `CTxSlot`, `CSpendSlot`: a hash and a reference. */
  datatype Slot<Ref> = Slot(hash: nat, ref: Ref)

  /** `occupied`: the hash of an empty slot is taken by no key. */
  function Occupied(hash: nat): nat { if hash == 0 then 1 else hash }

  predicate PowerOfTwo(n: nat) { n == 1 || (n > 1 && n % 2 == 0 && PowerOfTwo(n / 2)) }

  lemma Doubles(n: nat)
    requires PowerOfTwo(n)
    ensures PowerOfTwo(2 * n)
  {
    assert (2 * n) / 2 == n;
  }

  lemma SmallestSize()
    ensures PowerOfTwo(1024)
  {
    assert PowerOfTwo(4) && PowerOfTwo(16) && PowerOfTwo(64) && PowerOfTwo(256);
  }

  /** `tableSize`: a power of two, never below 1024, at least twice what is expected and no bigger than needed. */
  method TableSize(expected: nat) returns (size: nat)
    ensures PowerOfTwo(size) && size >= 1024 && size >= 2 * expected && (size == 1024 || size < 4 * expected)
  {
    hide PowerOfTwo;
    size := 1024;
    SmallestSize();
    while size < 2 * expected
      invariant PowerOfTwo(size) && size >= 1024 && (size == 1024 || size < 4 * expected)
      decreases 2 * expected - size
    {
      Doubles(size);
      size := size * 2;
    }
  }

  // ---- probe order ----------------------------------------------------------------------------

  function Next(pos: nat, size: nat): nat { if pos + 1 == size then 0 else pos + 1 }

  /** `j` is probed before `pos` when starting at `home`. */
  predicate Before(home: nat, pos: nat, j: nat) {
    if home <= pos then home <= j < pos else home <= j || j < pos
  }

  /** Probes left from `pos` to `e`. */
  function Distance(pos: nat, e: nat, size: nat): nat
    requires pos < size && e < size
  {
    if pos <= e then e - pos else e + size - pos
  }

  lemma BeforeNext(home: nat, pos: nat, size: nat, j: nat)
    requires home < size && pos < size && j < size && Next(pos, size) != home
    ensures Before(home, Next(pos, size), j) <==> Before(home, pos, j) || j == pos
  {
  }

  /** Of two places on one probe sequence one comes first. */
  lemma OneIsFirst(home: nat, i: nat, j: nat)
    requires i != j
    ensures Before(home, i, j) || Before(home, j, i)
  {
  }

  // ---- the table -------------------------------------------------------------------------------------

  /** Where a key's probe starts. */
  function Home(hash: nat, size: nat): nat
    requires size > 0
  {
    hash % size
  }

  /** How keys are hashed and where a reference's key is read from. */
  datatype Keys<!Key, !Ref> = Keys(hashOf: Key -> nat, keyOf: Ref -> Key)

  predicate Taken<Ref>(slots: seq<Slot<Ref>>, i: nat)
  {
    i < |slots| && slots[i].hash != 0
  }

  function KeyAt<Key, Ref>(k: Keys<Key, Ref>, slots: seq<Slot<Ref>>, i: nat): Key
    requires i < |slots|
  {
    k.keyOf(slots[i].ref)
  }

  /** The slot carries its key's hash and every probe before it is taken. */
  ghost predicate SlotOk<Key, Ref>(k: Keys<Key, Ref>, slots: seq<Slot<Ref>>, i: nat)
    requires i < |slots|
  {
    slots[i].hash != 0 ==>
      && slots[i].hash == Occupied(k.hashOf(KeyAt(k, slots, i)))
      && forall j :: 0 <= j < |slots| && Before(Home(slots[i].hash, |slots|), i, j) ==> Taken(slots, j)
  }

  ghost predicate SlotsOk<Key, Ref>(k: Keys<Key, Ref>, slots: seq<Slot<Ref>>) {
    && |slots| > 0
    && (forall i :: 0 <= i < |slots| ==> SlotOk(k, slots, i))
    && (forall i, j ::
         0 <= i < |slots| && 0 <= j < |slots| && Taken(slots, i) && Taken(slots, j) ==>
           KeyAt(k, slots, i) == KeyAt(k, slots, j) ==> i == j)
  }

  /** The slots hold exactly the entries of a map. */
  ghost predicate Holds<Key, Ref>(k: Keys<Key, Ref>, slots: seq<Slot<Ref>>, view: map<Key, Ref>) {
    && (forall i :: 0 <= i < |slots| && Taken(slots, i) ==>
         KeyAt(k, slots, i) in view && view[KeyAt(k, slots, i)] == slots[i].ref)
    && (forall key :: key in view ==> exists i :: 0 <= i < |slots| && Taken(slots, i) && KeyAt(k, slots, i) == key)
  }

  ghost predicate TableOk<Key, Ref>(k: Keys<Key, Ref>, slots: seq<Slot<Ref>>, view: map<Key, Ref>) {
    SlotsOk(k, slots) && Holds(k, slots, view)
  }

  // ---- there is an empty slot -----------------------------------------------------------------------------

  lemma {:induction false} KeysOfFull<Key, Ref>(k: Keys<Key, Ref>, slots: seq<Slot<Ref>>, n: nat)
        returns (keys: set<Key>)
    requires SlotsOk(k, slots) && n <= |slots| && forall i :: 0 <= i < n ==> Taken(slots, i)
    ensures |keys| == n && forall key :: key in keys ==> exists i :: 0 <= i < n && KeyAt(k, slots, i) == key
  {
    if n == 0 {
      keys := {};
    } else {
      keys := KeysOfFull(k, slots, n - 1);
      var last := KeyAt(k, slots, n - 1);
      assert last !in keys;
      keys := keys + {last};
      forall key | key in keys ensures exists i :: 0 <= i < n && KeyAt(k, slots, i) == key {
        if key == last {
          assert KeyAt(k, slots, n - 1) == key;
        } else {
          var i :| 0 <= i < n - 1 && KeyAt(k, slots, i) == key;
        }
      }
    }
  }

  lemma Fewer<Key>(a: set<Key>, b: set<Key>)
    requires a <= b
    ensures |a| <= |b|
  {
    assert b == a + (b - a);
  }

  /** A table with fewer entries than slots has an empty one: every probe ends. */
  lemma EmptySlot<Key, Ref>(k: Keys<Key, Ref>, slots: seq<Slot<Ref>>, view: map<Key, Ref>) returns (e: nat)
    requires TableOk(k, slots, view) && |view| < |slots|
    ensures e < |slots| && !Taken(slots, e)
  {
    assert |view.Keys| == |view|;
    if i :| 0 <= i < |slots| && !Taken(slots, i) {
      e := i;
    } else {
      var keys := KeysOfFull(k, slots, |slots|);
      forall key | key in keys ensures key in view.Keys {
        var i :| 0 <= i < |slots| && KeyAt(k, slots, i) == key;
      }
      Fewer(keys, view.Keys);
      assert false;
    }
  }

  // ---- what a probe finds -----------------------------------------------------------------------------------

  /** Everything probed before `pos` is taken by another key. */
  ghost predicate Probed<Key, Ref>(k: Keys<Key, Ref>, slots: seq<Slot<Ref>>, key: Key, home: nat, pos: nat) {
    forall j :: 0 <= j < |slots| && Before(home, pos, j) ==> Taken(slots, j) && KeyAt(k, slots, j) != key
  }

  /** A probe that comes to an empty slot has seen every slot its key could be in. */
  lemma MissIsAbsent<Key, Ref>(k: Keys<Key, Ref>, slots: seq<Slot<Ref>>, view: map<Key, Ref>, key: Key, pos: nat)
    requires TableOk(k, slots, view) && pos < |slots| && !Taken(slots, pos)
    requires Probed(k, slots, key, Home(Occupied(k.hashOf(key)), |slots|), pos)
    ensures key !in view
  {
    if key in view {
      var i :| 0 <= i < |slots| && Taken(slots, i) && KeyAt(k, slots, i) == key;
      assert SlotOk(k, slots, i);
      OneIsFirst(Home(slots[i].hash, |slots|), i, pos);
    }
  }

  lemma ProbeOn<Key, Ref>(k: Keys<Key, Ref>, slots: seq<Slot<Ref>>, key: Key, home: nat, pos: nat, e: nat)
    requires home < |slots| && pos < |slots| && e < |slots| && !Taken(slots, e)
    requires Probed(k, slots, key, home, pos) && Taken(slots, pos) && KeyAt(k, slots, pos) != key
    ensures Probed(k, slots, key, home, Next(pos, |slots|))
        && Distance(Next(pos, |slots|), e, |slots|) < Distance(pos, e, |slots|)
  {
    assert Next(pos, |slots|) == home ==> Before(home, pos, e) || e == pos;
    forall j | 0 <= j < |slots| && Before(home, Next(pos, |slots|), j)
        ensures Taken(slots, j) && KeyAt(k, slots, j) != key {
      BeforeNext(home, pos, |slots|, j);
    }
  }

  /** A key written at the empty slot its probe came to. */
  lemma InsertKeeps<Key, Ref>(k: Keys<Key, Ref>, slots: seq<Slot<Ref>>, view: map<Key, Ref>, key: Key, pos: nat,
        ref: Ref)
    requires TableOk(k, slots, view) && pos < |slots| && !Taken(slots, pos) && k.keyOf(ref) == key && key !in view
    requires Probed(k, slots, key, Home(Occupied(k.hashOf(key)), |slots|), pos)
    ensures TableOk(k, slots[pos := Slot(Occupied(k.hashOf(key)), ref)], view[key := ref])
  {
    var slots' := slots[pos := Slot(Occupied(k.hashOf(key)), ref)];
    forall i | 0 <= i < |slots'| ensures SlotOk(k, slots', i) {
      assert SlotOk(k, slots, i);
      forall j | 0 <= j < |slots| && slots'[i].hash != 0 && Before(Home(slots'[i].hash, |slots|), i, j)
          ensures Taken(slots', j) {
        assert Taken(slots, j) || j == pos;
      }
    }
    forall i | 0 <= i < |slots| && Taken(slots', i) && i != pos
        ensures Taken(slots, i) && KeyAt(k, slots', i) == KeyAt(k, slots, i) && KeyAt(k, slots, i) != key {
      assert KeyAt(k, slots, i) in view;
    }
    var view' := view[key := ref];
    forall x | x in view' ensures exists i :: 0 <= i < |slots'| && Taken(slots', i) && KeyAt(k, slots', i) == x {
      if x == key {
        assert Taken(slots', pos) && KeyAt(k, slots', pos) == x;
      } else {
        var i :| 0 <= i < |slots| && Taken(slots, i) && KeyAt(k, slots, i) == x;
        assert Taken(slots', i) && KeyAt(k, slots', i) == x;
      }
    }
  }

  /** A slot turned to another place of the same key. */
  lemma RewriteKeeps<Key, Ref>(k: Keys<Key, Ref>, slots: seq<Slot<Ref>>, view: map<Key, Ref>, pos: nat, ref: Ref)
    requires TableOk(k, slots, view) && Taken(slots, pos) && k.keyOf(ref) == KeyAt(k, slots, pos)
    ensures TableOk(k, slots[pos := slots[pos].(ref := ref)], view[k.keyOf(ref) := ref])
  {
    var slots' := slots[pos := slots[pos].(ref := ref)];
    assert forall i :: 0 <= i < |slots| ==>
        (Taken(slots', i) <==> Taken(slots, i)) && KeyAt(k, slots', i) == KeyAt(k, slots, i);
    forall i | 0 <= i < |slots'| ensures SlotOk(k, slots', i) {
      assert SlotOk(k, slots, i);
    }
    var view' := view[k.keyOf(ref) := ref];
    forall x | x in view' ensures exists i :: 0 <= i < |slots'| && Taken(slots', i) && KeyAt(k, slots', i) == x {
      if x == k.keyOf(ref) {
        assert Taken(slots', pos) && KeyAt(k, slots', pos) == x;
      } else {
        var i :| 0 <= i < |slots| && Taken(slots, i) && KeyAt(k, slots, i) == x;
        assert Taken(slots', i) && KeyAt(k, slots', i) == x;
      }
    }
  }

  // ---- keys that live elsewhere ------------------------------------------------------------------------------------

  /**
  Keys read from a list that has grown, or shrunk again, behind the references in the table: it holds
  what it held.
   */
  lemma Rekeyed<Key, Ref>(k: Keys<Key, Ref>, k': Keys<Key, Ref>, slots: seq<Slot<Ref>>, view: map<Key, Ref>)
    requires TableOk(k, slots, view) && k'.hashOf == k.hashOf
    requires forall key :: key in view ==> k'.keyOf(view[key]) == key
    ensures TableOk(k', slots, view)
  {
    forall i | 0 <= i < |slots| && Taken(slots, i) ensures KeyAt(k', slots, i) == KeyAt(k, slots, i) {
      assert KeyAt(k, slots, i) in view;
    }
    forall i | 0 <= i < |slots| ensures SlotOk(k', slots, i) {
      assert SlotOk(k, slots, i);
    }
    forall key | key in view ensures exists i :: 0 <= i < |slots| && Taken(slots, i) && KeyAt(k', slots, i) == key {
      var i :| 0 <= i < |slots| && Taken(slots, i) && KeyAt(k, slots, i) == key;
      assert KeyAt(k', slots, i) == key;
    }
  }

  /** A reference's key is the one it is found under. */
  lemma RefsAreKeyed<Key, Ref>(k: Keys<Key, Ref>, slots: seq<Slot<Ref>>, view: map<Key, Ref>, key: Key)
    requires TableOk(k, slots, view) && key in view
    ensures k.keyOf(view[key]) == key
  {
    var i :| 0 <= i < |slots| && Taken(slots, i) && KeyAt(k, slots, i) == key;
  }

  // ---- the table in place ----------------------------------------------------------------------------------------

  /**
  One table: an array of slots, standing for a map that never has more than half as many entries. How a
  reference's key is read is given with every call.
   */
  class Table<!Key(==), !Ref(0)> {
    const slots: array<Slot<Ref>>
    ghost var view: map<Key, Ref>

    ghost predicate Valid(k: Keys<Key, Ref>)
      reads this, slots
    {
      TableOk(k, slots[..], view) && 2 * |view| <= slots.Length
    }

    /** Empty, with room for what is expected. */
    constructor (ghost k: Keys<Key, Ref>, expected: nat, nowhere: Ref)
      ensures Valid(k) && view == map[] && slots.Length >= 2 * expected && fresh(slots)
    {
      var size := TableSize(expected);
      slots := new Slot<Ref>[size](_ => Slot(0, nowhere));
      view := map[];
    }

    /** The shared probe loop: where the key is, or the empty slot its probe ends at. */
    method Probe(k: Keys<Key, Ref>, key: Key) returns (pos: nat)
      requires Valid(k)
      ensures pos < slots.Length
      ensures Probed(k, slots[..], key, Home(Occupied(k.hashOf(key)), slots.Length), pos)
      ensures key in view ==> Taken(slots[..], pos) && KeyAt(k, slots[..], pos) == key && view[key] == slots[pos].ref
      ensures key !in view ==> !Taken(slots[..], pos)
    {
      var hash := Occupied(k.hashOf(key));
      ghost var e := EmptySlot(k, slots[..], view);
      pos := Home(hash, slots.Length);
      while true
        invariant pos < slots.Length && Probed(k, slots[..], key, Home(hash, slots.Length), pos)
        decreases Distance(pos, e, slots.Length)
      {
        if slots[pos].hash == 0 {
          MissIsAbsent(k, slots[..], view, key, pos);
          return;
        }
        if slots[pos].hash == hash && k.keyOf(slots[pos].ref) == key {
          assert Taken(slots[..], pos);
          return;
        }
        assert SlotOk(k, slots[..], pos);
        ProbeOn(k, slots[..], key, Home(hash, slots.Length), pos, e);
        pos := if pos + 1 == slots.Length then 0 else pos + 1;
      }
    }

    /** `txFind`. */
    method Find(k: Keys<Key, Ref>, key: Key) returns (found: Option<Ref>)
      requires Valid(k)
      ensures found == if key in view then Some(view[key]) else None
    {
      var pos := Probe(k, key);
      found := if slots[pos].hash == 0 then None else Some(slots[pos].ref);
    }

    /** `txInsert` and `spendInsert`: the key goes in, or what is there stays and its slot is named. */
    method Insert(k: Keys<Key, Ref>, key: Key, ref: Ref) returns (twin: Option<nat>)
      requires Valid(k) && k.keyOf(ref) == key && 2 * (|view| + 1) <= slots.Length
      modifies this`view, slots
      ensures Valid(k)
      ensures key !in old(view) ==> twin == None && view == old(view)[key := ref]
      ensures key in old(view) ==> view == old(view) && twin.Some? && IsAt(k, twin.value, key)
    {
      var pos := Probe(k, key);
      if slots[pos].hash != 0 {
        return Some(pos);
      }
      InsertKeeps(k, slots[..], view, key, pos, ref);
      ghost var was := slots[..];
      slots[pos] := Slot(Occupied(k.hashOf(key)), ref);
      view := view[key := ref];
      assert slots[..] == was[pos := Slot(Occupied(k.hashOf(key)), ref)];
      return None;
    }

    /** A key's own slot. */
    ghost predicate IsAt(k: Keys<Key, Ref>, pos: nat, key: Key)
      reads this, slots
    {
      pos < slots.Length && Taken(slots[..], pos) && KeyAt(k, slots[..], pos) == key && key in view
          && view[key] == slots[pos].ref
    }

    /** The newer transaction of an id becomes its creator: the slot is rewritten where it stands. */
    method Rewrite(k: Keys<Key, Ref>, pos: nat, ref: Ref)
      requires Valid(k) && IsAt(k, pos, k.keyOf(ref))
      modifies this`view, slots
      ensures Valid(k) && view == old(view)[k.keyOf(ref) := ref]
    {
      RewriteKeeps(k, slots[..], view, pos, ref);
      ghost var was := slots[..];
      slots[pos] := slots[pos].(ref := ref);
      view := view[k.keyOf(ref) := ref];
      assert slots[..] == was[pos := was[pos].(ref := ref)];
    }
  }
}
