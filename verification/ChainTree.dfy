/** The tree of block indexes: paths from genesis, ancestors, the lowest common ancestor. */
module ChainTree {
  import opened Sequences
  import opened Wrappers

  type Id = int

  /** Every known block, its predecessor and its height. */
  datatype Tree = Tree(genesis: Id, nodes: set<Id>, prev: Id -> Id, height: Id -> nat)

  ghost predicate NodeOk(t: Tree, b: Id) {
    if b == t.genesis then t.height(b) == 0 else t.prev(b) in t.nodes && t.height(b) == t.height(t.prev(b)) + 1
  }

  ghost predicate TreeOk(t: Tree) { t.genesis in t.nodes && forall b :: b in t.nodes ==> NodeOk(t, b) }

  /** The blocks from genesis up to one. */
  ghost function Path(t: Tree, b: Id): (p: seq<Id>)
    requires TreeOk(t) && b in t.nodes
    ensures |p| == t.height(b) + 1 && p[t.height(b)] == b && p[0] == t.genesis
    ensures forall h :: 0 <= h < |p| ==> p[h] in t.nodes && t.height(p[h]) == h
    ensures forall h :: 0 < h < |p| ==> p[h] != t.genesis && t.prev(p[h]) == p[h - 1]
    decreases t.height(b)
  {
    assert NodeOk(t, b);
    if b == t.genesis then [b] else Path(t, t.prev(b)) + [b]
  }

  /** `a` is on the path of `b`, `b` itself included. */
  ghost predicate Anc(t: Tree, a: Id, b: Id)
    requires TreeOk(t) && b in t.nodes
  {
    a in Path(t, b)
  }

  /** A path holds the paths of everything on it. */
  lemma {:induction false} PathPrefix(t: Tree, a: Id, b: Id)
    requires TreeOk(t) && b in t.nodes && Anc(t, a, b)
    ensures a in t.nodes && t.height(a) <= t.height(b) && Path(t, a) == Path(t, b)[..t.height(a) + 1]
        && Path(t, b)[t.height(a)] == a
    decreases t.height(b)
  {
    var p := Path(t, b);
    var h :| 0 <= h < |p| && p[h] == a;
    if h < t.height(b) {
      assert NodeOk(t, b);
      var q := Path(t, t.prev(b));
      assert p == q + [b];
      assert q[h] == a;
      PathPrefix(t, a, t.prev(b));
    } else {
      assert p[..t.height(a) + 1] == p;
    }
  }

  lemma AncTrans(t: Tree, a: Id, b: Id, c: Id)
    requires TreeOk(t) && c in t.nodes && Anc(t, b, c) && b in t.nodes && Anc(t, a, b)
    ensures Anc(t, a, c)
  {
    PathPrefix(t, b, c);
  }

  /** The lowest common ancestor, by walking up. */
  ghost function Lca(t: Tree, x: Id, y: Id): (l: Id)
    requires TreeOk(t) && x in t.nodes && y in t.nodes
    ensures l in t.nodes
    decreases t.height(x) + t.height(y)
  {
    assert NodeOk(t, x) && NodeOk(t, y);
    if t.height(x) > t.height(y) then Lca(t, t.prev(x), y)
    else if t.height(y) > t.height(x) then Lca(t, x, t.prev(y))
    else if x == y then x
    else
      OnlyGenesisIsZero(t, x, y);
      Lca(t, t.prev(x), t.prev(y))
  }

  lemma OnlyGenesisIsZero(t: Tree, x: Id, y: Id)
    requires TreeOk(t) && x in t.nodes && y in t.nodes && t.height(x) == t.height(y) && x != y
    ensures x != t.genesis && y != t.genesis
  {
    assert NodeOk(t, x) && NodeOk(t, y);
  }

  /** It is an ancestor of both, and every ancestor of both is an ancestor of it. */
  lemma {:induction false} LcaIsLowest(t: Tree, x: Id, y: Id)
    requires TreeOk(t) && x in t.nodes && y in t.nodes
    ensures var l := Lca(t, x, y);
        Anc(t, l, x) && Anc(t, l, y) && forall a :: Anc(t, a, x) && Anc(t, a, y) ==> Anc(t, a, l)
    decreases t.height(x) + t.height(y)
  {
    assert NodeOk(t, x) && NodeOk(t, y);
    if t.height(x) > t.height(y) {
      LcaIsLowest(t, t.prev(x), y);
      ParentAnc(t, x, y);
    } else if t.height(y) > t.height(x) {
      LcaIsLowest(t, x, t.prev(y));
      ParentAnc(t, y, x);
    } else if x != y {
      OnlyGenesisIsZero(t, x, y);
      LcaIsLowest(t, t.prev(x), t.prev(y));
      ParentAnc(t, x, y);
      ParentAnc(t, y, x);
    }
  }

  /** A common ancestor with another block that is not lower is a common ancestor with the parent. */
  lemma ParentAnc(t: Tree, x: Id, y: Id)
    requires TreeOk(t) && x in t.nodes && y in t.nodes && x != t.genesis && t.height(x) >= t.height(y) && x != y
    ensures t.prev(x) in t.nodes && (forall a :: Anc(t, a, t.prev(x)) ==> Anc(t, a, x))
    ensures forall a :: Anc(t, a, x) && Anc(t, a, y) ==> Anc(t, a, t.prev(x))
  {
    assert NodeOk(t, x);
    assert Path(t, x) == Path(t, t.prev(x)) + [x];
    forall a | Anc(t, a, x) && Anc(t, a, y) ensures Anc(t, a, t.prev(x)) {
      PathPrefix(t, a, y);
    }
  }

  /** The part of a path above a block on it, in order. */
  ghost function Above(t: Tree, a: Id, b: Id): seq<Id>
    requires TreeOk(t) && b in t.nodes && Anc(t, a, b)
  {
    PathPrefix(t, a, b);
    Path(t, b)[t.height(a) + 1..]
  }

  /** One block taken off the top. */
  lemma AboveParent(t: Tree, a: Id, b: Id)
    requires TreeOk(t) && b in t.nodes && Anc(t, a, b) && a != b
    ensures b != t.genesis && t.prev(b) in t.nodes && Anc(t, a, t.prev(b))
        && Above(t, a, b) == Above(t, a, t.prev(b)) + [b]
    ensures t.height(a) <= t.height(t.prev(b))
  {
    PathPrefix(t, a, b);
    assert NodeOk(t, b);
    assert Path(t, b) == Path(t, t.prev(b)) + [b];
    assert Anc(t, a, t.prev(b));
    PathPrefix(t, a, t.prev(b));
  }

  lemma LcaHeights(t: Tree, x: Id, y: Id)
    requires TreeOk(t) && x in t.nodes && y in t.nodes
    ensures t.height(Lca(t, x, y)) <= t.height(x) && t.height(Lca(t, x, y)) <= t.height(y)
  {
    LcaIsLowest(t, x, y);
    PathPrefix(t, Lca(t, x, y), x);
    PathPrefix(t, Lca(t, x, y), y);
  }

  /** The first block of a path above an ancestor, if there is one. */
  ghost function ChildOn(t: Tree, a: Id, b: Id): Option<Id>
    requires TreeOk(t) && b in t.nodes && Anc(t, a, b)
  {
    if Above(t, a, b) == [] then None else Some(Above(t, a, b)[0])
  }

  /** Going down the new path: at `x`, with the block last left remembered. */
  ghost predicate NewWalk(t: Tree, l: Id, newBest: Id, x: Id, child: Option<Id>)
    requires TreeOk(t) && newBest in t.nodes
  {
    x in t.nodes && Anc(t, l, x) && Anc(t, x, newBest) && child == ChildOn(t, x, newBest)
  }

  /** Going down the old path: at `y`, with the blocks left listed. */
  ghost predicate OldWalk(t: Tree, l: Id, previousBest: Id, y: Id, left: seq<Id>)
    requires TreeOk(t) && previousBest in t.nodes && Anc(t, l, previousBest)
  {
    y in t.nodes && Anc(t, l, y) && Anc(t, y, previousBest)
        && left + Reversed(Above(t, l, y)) == Reversed(Above(t, l, previousBest))
  }

  lemma NewStep(t: Tree, l: Id, newBest: Id, x: Id, child: Option<Id>)
    requires TreeOk(t) && newBest in t.nodes && NewWalk(t, l, newBest, x, child) && x != l
    ensures x != t.genesis && NewWalk(t, l, newBest, t.prev(x), Some(x)) && t.height(t.prev(x)) < t.height(x)
  {
    AboveParent(t, l, x);
    PathPrefix(t, x, newBest);
    assert NodeOk(t, x);
    assert Path(t, newBest)[t.height(x) - 1] == t.prev(x);
    PathPrefix(t, t.prev(x), newBest);
  }

  lemma ParentIsAnc(t: Tree, y: Id, z: Id)
    requires TreeOk(t) && y in t.nodes && z in t.nodes && y != t.genesis && Anc(t, y, z)
    ensures t.prev(y) in t.nodes && Anc(t, t.prev(y), z) && t.height(t.prev(y)) < t.height(y)
  {
    assert NodeOk(t, y);
    assert Path(t, y)[t.height(y) - 1] == t.prev(y);
    AncTrans(t, t.prev(y), y, z);
  }

  lemma OldStep(t: Tree, l: Id, previousBest: Id, y: Id, left: seq<Id>)
    requires TreeOk(t) && previousBest in t.nodes && Anc(t, l, previousBest) && OldWalk(t, l, previousBest, y, left)
        && y != l
    ensures y != t.genesis && OldWalk(t, l, previousBest, t.prev(y), left + [y]) && t.height(t.prev(y)) < t.height(y)
  {
    AboveParent(t, l, y);
    ReversedPush(Above(t, l, t.prev(y)), y);
    ParentIsAnc(t, y, previousBest);
    assert (left + [y]) + Reversed(Above(t, l, t.prev(y))) == left + ([y] + Reversed(Above(t, l, t.prev(y))));
  }

  lemma Meet(t: Tree, newBest: Id, previousBest: Id, x: Id, child: Option<Id>, left: seq<Id>)
    requires TreeOk(t) && newBest in t.nodes && previousBest in t.nodes && Anc(t, x, previousBest)
    requires NewWalk(t, x, newBest, x, child) && OldWalk(t, x, previousBest, x, left)
    ensures left == Reversed(Above(t, x, previousBest)) && child == ChildOn(t, x, newBest)
  {
    PathPrefix(t, x, x);
    assert Above(t, x, x) == [];
    assert left + [] == left;
  }

  lemma WalksOpen(t: Tree, newBest: Id, previousBest: Id)
    requires TreeOk(t) && newBest in t.nodes && previousBest in t.nodes
    ensures var l := Lca(t, newBest, previousBest);
            && Anc(t, l, newBest) && Anc(t, l, previousBest)
            && NewWalk(t, l, newBest, newBest, None) && OldWalk(t, l, previousBest, previousBest, [])
    ensures ChildOn(t, Lca(t, newBest, previousBest), newBest).None? <==> Anc(t, newBest, previousBest)
  {
    var l := Lca(t, newBest, previousBest);
    LcaIsLowest(t, newBest, previousBest);
    assert Path(t, newBest)[t.height(newBest)] == newBest
        && Path(t, previousBest)[t.height(previousBest)] == previousBest;
    PathPrefix(t, newBest, newBest);
    PathPrefix(t, l, newBest);
    assert Above(t, newBest, newBest) == [];
    if Anc(t, newBest, previousBest) {
      PathPrefix(t, newBest, l);
    }
  }

  /** The new best right on top of the old one. */
  lemma DirectChild(t: Tree, newBest: Id, previousBest: Id)
    requires TreeOk(t) && newBest in t.nodes && previousBest in t.nodes && newBest != t.genesis
        && t.prev(newBest) == previousBest
    ensures Lca(t, newBest, previousBest) == previousBest
    ensures Anc(t, previousBest, newBest) && Anc(t, previousBest, previousBest)
    ensures Above(t, previousBest, previousBest) == [] && ChildOn(t, previousBest, newBest) == Some(newBest)
  {
    assert NodeOk(t, newBest);
    assert Path(t, newBest) == Path(t, previousBest) + [newBest];
    assert Path(t, previousBest)[t.height(previousBest)] == previousBest;
    PathPrefix(t, previousBest, newBest);
    PathPrefix(t, previousBest, previousBest);
  }

  /**
  `rebaseChain`: the blocks to disconnect, tip first, are the old path above the lowest common
  ancestor, and the result is the first block of the new path above it, none when the new best is
  the old one or one of its ancestors.
   */
  method RebaseChain(t: Tree, newBest: Id, previousBest: Id) returns (child: Option<Id>, forDisconnect: seq<Id>)
    requires TreeOk(t) && newBest in t.nodes && previousBest in t.nodes
    ensures var l := Lca(t, newBest, previousBest);
            && Anc(t, l, newBest) && Anc(t, l, previousBest)
            && forDisconnect == Reversed(Above(t, l, previousBest)) && child == ChildOn(t, l, newBest)
    ensures child.None? <==> Anc(t, newBest, previousBest)
  {
    ghost var l := Lca(t, newBest, previousBest);
    WalksOpen(t, newBest, previousBest);
    child, forDisconnect := None, [];
    if newBest != t.genesis && t.prev(newBest) == previousBest {
      DirectChild(t, newBest, previousBest);
      return Some(newBest), [];
    }
    if t.height(newBest) >= t.height(previousBest) {
      var lb, sb := newBest, previousBest;
      while t.height(lb) > t.height(previousBest)
        invariant NewWalk(t, l, newBest, lb, child) && t.height(lb) >= t.height(previousBest) && Lca(t, lb, sb) == l
        decreases t.height(lb)
      {
        LcaHeights(t, lb, sb);
        NewStep(t, l, newBest, lb, child);
        child, lb := Some(lb), t.prev(lb);
      }
      child, forDisconnect := WalkTogether(t, newBest, previousBest, lb, sb, child, [], l);
    } else {
      var lb, sb := previousBest, newBest;
      while t.height(lb) > t.height(newBest)
        invariant OldWalk(t, l, previousBest, lb, forDisconnect) && t.height(lb) >= t.height(newBest)
            && Lca(t, sb, lb) == l
        decreases t.height(lb)
      {
        LcaHeights(t, sb, lb);
        OldStep(t, l, previousBest, lb, forDisconnect);
        forDisconnect, lb := forDisconnect + [lb], t.prev(lb);
      }
      child, forDisconnect := WalkTogether(t, newBest, previousBest, sb, lb, child, forDisconnect, l);
    }
  }

  /** The second loop of both branches: down both paths until they meet. */
  method WalkTogether(t: Tree, newBest: Id, previousBest: Id, x0: Id, y0: Id, child0: Option<Id>, left0: seq<Id>,
        ghost l: Id)
      returns (child: Option<Id>, left: seq<Id>)
    requires TreeOk(t) && newBest in t.nodes && previousBest in t.nodes && Anc(t, l, previousBest) && Anc(t, l, newBest)
    requires NewWalk(t, l, newBest, x0, child0) && OldWalk(t, l, previousBest, y0, left0)
        && t.height(x0) == t.height(y0) && Lca(t, x0, y0) == l
    ensures left == Reversed(Above(t, l, previousBest)) && child == ChildOn(t, l, newBest)
  {
    var x, y := x0, y0;
    child, left := child0, left0;
    while x != y
      invariant NewWalk(t, l, newBest, x, child) && OldWalk(t, l, previousBest, y, left) && t.height(x) == t.height(y)
          && Lca(t, x, y) == l
      decreases t.height(x)
    {
      LcaHeights(t, x, y);
      OnlyGenesisIsZero(t, x, y);
      LcaIsLowest(t, x, y);
      ApartIsBelow(t, x, y);
      NewStep(t, l, newBest, x, child);
      OldStep(t, l, previousBest, y, left);
      left, y, child, x := left + [y], t.prev(y), Some(x), t.prev(x);
    }
    Meet(t, newBest, previousBest, x, child, left);
  }

  /** Two different blocks of one height have their common ancestor below both. */
  lemma ApartIsBelow(t: Tree, x: Id, y: Id)
    requires TreeOk(t) && x in t.nodes && y in t.nodes && t.height(x) == t.height(y) && x != y
    ensures Lca(t, x, y) != x && Lca(t, x, y) != y && t.height(t.prev(x)) == t.height(t.prev(y))
  {
    OnlyGenesisIsZero(t, x, y);
    assert NodeOk(t, x) && NodeOk(t, y);
    LcaHeights(t, t.prev(x), t.prev(y));
  }
}
