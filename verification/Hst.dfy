/**
  The Half-Space Trees detector of internal/domain/detect/hst.go as it runs:
  heap nodes with mutable reference and latest masses. Every method is proved
  against the brute-force windows of module HstDensity.
 */
module Hst {
  import opened Common
  import opened HstShape
  import opened HstDensity
  import opened RobustZ

  /**
    A node. Its links are fixed once built; only the masses change. The ghost
    coordinates say where it sits, so that distinct positions are distinct objects.
   */
  class Node {
    const dim: int
    const split: real
    const left: Node?
    const right: Node?
    var r: nat
    var l: nat
    ghost const tree: nat
    ghost const path: Path
    ghost const below: set<Node>

    constructor (dim: int, split: real, left: Node?, right: Node?, ghost tree: nat, ghost path: Path)
      ensures this.dim == dim && this.split == split && this.left == left && this.right == right
      ensures this.tree == tree && this.path == path && r == 0 && l == 0
      ensures below == Nodes(left) + Nodes(right)
    {
      this.dim, this.split, this.left, this.right := dim, split, left, right;
      this.tree, this.path, this.below := tree, path, Nodes(left) + Nodes(right);
      r, l := 0, 0;
    }
  }

  /** The nodes of the heap tree at `n`. */
  ghost function Nodes(n: Node?): set<Node> {
    if n == null then {} else {n} + n.below
  }

  /** The heap tree at `n` has shape `t` and sits at `path` of tree number `tree`. */
  ghost predicate Linked(n: Node?, t: Shape, tree: nat, path: Path)
    decreases t
  {
    && n != null && n.tree == tree && n.path == path && n.below == Nodes(n.left) + Nodes(n.right)
    && match t
       case Leaf => n.dim == -1 && n.left == null && n.right == null
       case Split(q, at, lt, rt) =>
         && n.dim == q && n.split == at
         && Linked(n.left, lt, tree, path + [false])
         && Linked(n.right, rt, tree, path + [true])
  }

  lemma {:induction false} NodesSitBelow(n: Node?, t: Shape, tree: nat, path: Path)
    requires Linked(n, t, tree, path)
    ensures forall m :: m in Nodes(n) ==> m.tree == tree && path <= m.path
    decreases t
  {
    match t
    case Leaf =>
    case Split(_, _, lt, rt) =>
      NodesSitBelow(n.left, lt, tree, path + [false]);
      NodesSitBelow(n.right, rt, tree, path + [true]);
      forall m | m in Nodes(n)
        ensures m.tree == tree && path <= m.path
      {
        if m in Nodes(n.left) {
          PrefixSplits'(path, false, m.path);
        } else if m in Nodes(n.right) {
          PrefixSplits'(path, true, m.path);
        }
      }
  }

  lemma PrefixSplits'(path: Path, side: bool, other: Path)
    requires path + [side] <= other
    ensures path <= other && path != other && other[|path|] == side
  {
    assert (path + [side])[|path|] == side;
  }

  /** Siblings' subtrees have no node in common, and neither contains the parent. */
  lemma Siblings(n: Node, t: Shape, tree: nat, path: Path)
    requires Linked(n, t, tree, path) && t.Split?
    ensures Nodes(n.left) !! Nodes(n.right)
    ensures n !in Nodes(n.left) && n !in Nodes(n.right)
  {
    NodesSitBelow(n.left, t.left, tree, path + [false]);
    NodesSitBelow(n.right, t.right, tree, path + [true]);
    forall m | m in Nodes(n.left) && m in Nodes(n.right)
      ensures false
    {
      PrefixSplits'(path, false, m.path);
      PrefixSplits'(path, true, m.path);
    }
    assert !(path + [false] <= path) && !(path + [true] <= path);
  }

  /** A node has two children one step further down in the tree, or none. */
  lemma {:induction false} ChildrenBelow(n: Node?, t: Shape, tree: nat, path: Path, levels: nat, d: nat, m: Node)
    requires Linked(n, t, tree, path) && Perfect(t, levels, d) && m in Nodes(n)
    ensures m.left == null <==> m.right == null
    ensures m.left != null ==>
              && m.left in Nodes(n) && m.left.path == m.path + [false]
              && m.right in Nodes(n) && m.right.path == m.path + [true]
              && |m.path| < |path| + levels
    decreases t
  {
    if t.Split? {
      if m in Nodes(n.left) {
        ChildrenBelow(n.left, t.left, tree, path + [false], levels - 1, d, m);
      } else if m in Nodes(n.right) {
        ChildrenBelow(n.right, t.right, tree, path + [true], levels - 1, d, m);
      }
    }
  }

  /** A node of the tree is known by its path. */
  lemma {:induction false} PathIsIdentity(n: Node?, t: Shape, tree: nat, path: Path, a: Node, b: Node)
    requires Linked(n, t, tree, path) && a in Nodes(n) && b in Nodes(n) && a.path == b.path
    ensures a == b
    decreases t
  {
    if t.Split? {
      NodesSitBelow(n.left, t.left, tree, path + [false]);
      NodesSitBelow(n.right, t.right, tree, path + [true]);
      var inLeftA, inLeftB := a in Nodes(n.left), b in Nodes(n.left);
      var inRightA, inRightB := a in Nodes(n.right), b in Nodes(n.right);
      if inLeftA { PrefixSplits'(path, false, a.path); }
      if inLeftB { PrefixSplits'(path, false, b.path); }
      if inRightA { PrefixSplits'(path, true, a.path); }
      if inRightB { PrefixSplits'(path, true, b.path); }
      if inLeftA && inLeftB {
        PathIsIdentity(n.left, t.left, tree, path + [false], a, b);
      } else if inRightA && inRightB {
        PathIsIdentity(n.right, t.right, tree, path + [true], a, b);
      }
    }
  }

  // ----- Building -----

  /**
    Grows a tree on the box held in `lo` and `hi`, overwriting one bound at a time
    and putting it back before returning.
   */
  method BuildTree(
      pick: Path -> nat, lo: array<real>, hi: array<real>, depth: nat, maxDepth: nat, ghost tree: nat, path: Path)
    returns (n: Node)
    requires lo != hi && lo.Length == hi.Length && depth <= maxDepth
    requires forall p :: pick(p) < lo.Length
    modifies lo, hi
    ensures lo[..] == old(lo[..]) && hi[..] == old(hi[..])
    ensures Linked(n, Grow(pick, Box(old(lo[..]), old(hi[..])), path, maxDepth - depth), tree, path)
    ensures fresh(Nodes(n)) && forall m :: m in Nodes(n) ==> m.r == 0 && m.l == 0
    decreases maxDepth - depth
  {
    hide Midpoint, Linked, Grow;
    if depth == maxDepth {
      n := MakeLeaf(pick, Box(lo[..], hi[..]), tree, path);
      return;
    }
    ghost var box := Box(lo[..], hi[..]);
    var q := pick(path);
    var split := Midpoint(lo[q], hi[q]);
    var left := BuildHalf(pick, lo, hi, hi, split, depth, maxDepth, tree, path, false);
    var right := BuildHalf(pick, lo, hi, lo, split, depth, maxDepth, tree, path, true);
    GrowsBySplit(pick, box, path, maxDepth - depth);
    n := Join(q, split, left, right, Grow(pick, box, path, maxDepth - depth), tree, path);
  }

  method MakeLeaf(ghost pick: Path -> nat, ghost b: Box, ghost tree: nat, ghost path: Path) returns (n: Node)
    requires |b.lo| == |b.hi| && forall p :: pick(p) < |b.lo|
    ensures Linked(n, Grow(pick, b, path, 0), tree, path)
    ensures fresh(Nodes(n)) && forall m :: m in Nodes(n) ==> m.r == 0 && m.l == 0
  {
    n := new Node(-1, 0.0, null, null, tree, path);
  }

  method Join(q: nat, split: real, left: Node, right: Node, ghost t: Shape, ghost tree: nat, ghost path: Path)
    returns (n: Node)
    requires t.Split? && t.dim == q && t.at == split
    requires Linked(left, t.left, tree, path + [false]) && Linked(right, t.right, tree, path + [true])
    requires forall m :: m in Nodes(left) + Nodes(right) ==> m.r == 0 && m.l == 0
    ensures Linked(n, t, tree, path)
    ensures fresh(n) && Nodes(n) == {n} + Nodes(left) + Nodes(right)
    ensures forall m :: m in Nodes(n) ==> m.r == 0 && m.l == 0
  {
    n := new Node(q, split, left, right, tree, path);
  }

  lemma GrowsBySplit(pick: Path -> nat, b: Box, path: Path, levels: nat)
    requires |b.lo| == |b.hi| && levels > 0 && forall p :: pick(p) < |b.lo|
    ensures var q := pick(path);
            var at := Midpoint(b.lo[q], b.hi[q]);
            Grow(pick, b, path, levels)
            == Split(q, at, Grow(pick, LeftBox(b, q, at), path + [false], levels - 1),
                     Grow(pick, RightBox(b, q, at), path + [true], levels - 1))
  {
  }

  /** Overwrites one bound with the split, builds that half, and restores the bound. */
  method BuildHalf(pick: Path -> nat, lo: array<real>, hi: array<real>, bound: array<real>, split: real,
                   depth: nat, maxDepth: nat, ghost tree: nat, path: Path, side: bool)
    returns (n: Node)
    requires lo != hi && lo.Length == hi.Length && depth < maxDepth && bound == if side then lo else hi
    requires forall p :: pick(p) < lo.Length
    modifies lo, hi
    ensures lo[..] == old(lo[..]) && hi[..] == old(hi[..])
    ensures var b := Box(old(lo[..]), old(hi[..]));
            var half := if side then RightBox(b, pick(path), split) else LeftBox(b, pick(path), split);
            Linked(n, Grow(pick, half, path + [side], maxDepth - depth - 1), tree, path + [side])
    ensures fresh(Nodes(n)) && forall m :: m in Nodes(n) ==> m.r == 0 && m.l == 0
    decreases maxDepth - depth, 0
  {
    hide Linked, Grow;
    var q := pick(path);
    ghost var before := bound[..];
    var kept := bound[q];
    bound[q] := split;
    assert bound[..] == before[q := split];
    n := BuildTree(pick, lo, hi, depth + 1, maxDepth, tree, path + [side]);
    bound[q] := kept;
    assert bound[..] == before;
  }

  // ----- Walking one tree -----

  predicate StrictlyAbove(a: Path, b: Path) {
    a < b
  }

  predicate AtOrAbove(a: Path, b: Path) {
    a <= b
  }

  /** Adds one to the latest mass of every node on the way down, and returns the leaf reached. */
  method Descend(root: Node, point: seq<real>, ghost t: Shape, ghost depth: nat, ghost tree: nat)
    returns (leaf: Node)
    requires Linked(root, t, tree, []) && Perfect(t, depth, |point|)
    modifies Nodes(root)`l
    ensures leaf in Nodes(root) && leaf.path == Route(t, point)
    ensures forall m :: m in Nodes(root) ==> m.l == old(m.l) + if AtOrAbove(m.path, Route(t, point)) then 1 else 0
  {
    hide StrictlyAbove, AtOrAbove, Perfect, Linked, Route;
    var n: Node := root;
    ghost var rest, levels := t, depth;
    RootIsTop(root, t, tree);
    assert [] + Route(t, point) == Route(t, point);
    while n.dim >= 0
      invariant Linked(n, rest, tree, n.path) && Perfect(rest, levels, |point|)
      invariant n in Nodes(root) && Nodes(n) <= Nodes(root)
      invariant n.path + Route(rest, point) == Route(t, point)
      invariant forall m :: m in Nodes(root) ==> m.l == old(m.l) + if StrictlyAbove(m.path, n.path) then 1 else 0
      decreases rest
    {
      StepDown(n, rest, levels, tree, point);
      n.l := n.l + 1;
      ghost var here := n;
      rest := if point[n.dim] < n.split then rest.left else rest.right;
      n := if point[n.dim] < n.split then n.left else n.right;
      levels := levels - 1;
      OneFurther(root, t, tree, here, n.path);
    }
    n.l := n.l + 1;
    leaf := n;
    AtLeaf(n, rest, levels, tree, point);
    LastOne(root, t, tree, leaf);
  }

  lemma RootIsTop(root: Node, t: Shape, tree: nat)
    requires Linked(root, t, tree, [])
    ensures root.path == [] && root.dim >= -1
    ensures forall m :: m in Nodes(root) ==> !StrictlyAbove(m.path, root.path)
  {
  }

  /** At an inner node: the split is there to be read, and either child continues the descent. */
  lemma StepDown(n: Node, t: Shape, levels: nat, tree: nat, point: seq<real>)
    requires Linked(n, t, tree, n.path) && Perfect(t, levels, |point|) && n.dim >= 0
    ensures t.Split? && 0 < levels && n.dim < |point| && n.left != null && n.right != null
    ensures Linked(n.left, t.left, tree, n.left.path) && Perfect(t.left, levels - 1, |point|)
    ensures Linked(n.right, t.right, tree, n.right.path) && Perfect(t.right, levels - 1, |point|)
    ensures n.left.path == n.path + [false] && n.right.path == n.path + [true]
    ensures Nodes(n.left) <= Nodes(n) && Nodes(n.right) <= Nodes(n)
    ensures var left := point[n.dim] < n.split;
            var next, child := if left then n.left else n.right, if left then t.left else t.right;
            next.path + Route(child, point) == n.path + Route(t, point)
  {
    if point[n.dim] < n.split {
      assert n.path + [false] + Route(t.left, point) == n.path + ([false] + Route(t.left, point));
    } else {
      assert n.path + [true] + Route(t.right, point) == n.path + ([true] + Route(t.right, point));
    }
  }

  lemma AtLeaf(n: Node, t: Shape, levels: nat, tree: nat, point: seq<real>)
    requires Linked(n, t, tree, n.path) && Perfect(t, levels, |point|) && n.dim < 0
    ensures n.path + Route(t, point) == n.path
  {
  }

  /** The nodes strictly above a child are those strictly above its parent, and the parent. */
  lemma OneFurther(root: Node, t: Shape, tree: nat, here: Node, next: Path)
    requires Linked(root, t, tree, []) && here in Nodes(root)
    requires next == here.path + [false] || next == here.path + [true]
    ensures forall m :: m in Nodes(root) ==>
              (StrictlyAbove(m.path, next) <==> m == here || StrictlyAbove(m.path, here.path))
    ensures !StrictlyAbove(here.path, here.path)
  {
    forall m | m in Nodes(root)
      ensures StrictlyAbove(m.path, next) <==> m == here || StrictlyAbove(m.path, here.path)
    {
      if m.path < next {
        assert m.path <= here.path by {
          assert m.path == next[..|m.path|] == here.path[..|m.path|];
        }
        if m.path == here.path {
          PathIsIdentity(root, t, tree, [], m, here);
        }
      }
      if m.path < here.path {
        assert m.path == next[..|m.path|];
      }
    }
  }

  lemma LastOne(root: Node, t: Shape, tree: nat, leaf: Node)
    requires Linked(root, t, tree, []) && leaf in Nodes(root)
    ensures forall m :: m in Nodes(root) ==>
              (AtOrAbove(m.path, leaf.path) <==> m == leaf || StrictlyAbove(m.path, leaf.path))
    ensures !StrictlyAbove(leaf.path, leaf.path)
  {
    forall m | m in Nodes(root) && m.path == leaf.path
      ensures m == leaf
    {
      PathIsIdentity(root, t, tree, [], m, leaf);
    }
  }

  /** The latest masses become the reference masses of the whole subtree. */
  method Rollover(n: Node?, ghost t: Shape, ghost tree: nat, ghost path: Path)
    requires n != null ==> Linked(n, t, tree, path)
    modifies Nodes(n)
    ensures forall m :: m in Nodes(n) ==> m.r == old(m.l) && m.l == 0
    decreases n != null, t
  {
    if n == null {
      return;
    }
    n.r := n.l;
    n.l := 0;
    if t.Split? {
      Siblings(n, t, tree, path);
    }
    Rollover(n.left, if t.Split? then t.left else t, tree, path + [false]);
    Rollover(n.right, if t.Split? then t.right else t, tree, path + [true]);
  }

  method ResetMass(n: Node?, ghost t: Shape, ghost tree: nat, ghost path: Path)
    requires n != null ==> Linked(n, t, tree, path)
    modifies Nodes(n)
    ensures forall m :: m in Nodes(n) ==> m.r == 0 && m.l == 0
    decreases n != null, t
  {
    if n == null {
      return;
    }
    n.r, n.l := 0, 0;
    if t.Split? {
      Siblings(n, t, tree, path);
    }
    ResetMass(n.left, if t.Split? then t.left else t, tree, path + [false]);
    ResetMass(n.right, if t.Split? then t.right else t, tree, path + [true]);
  }
}
