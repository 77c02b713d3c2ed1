/** The tree-based overlay network: rank 0 is the root and every other rank has a
    parent of lower rank. */
module Topology {

  datatype Tree = Tree(parent: seq<nat>)

  ghost predicate Valid(t: Tree) {
    && |t.parent| > 0
    && forall i | 0 < i < |t.parent| :: t.parent[i] < i
  }

  function Size(t: Tree): nat {
    |t.parent|
  }

  function Depth(t: Tree, d: nat): nat
    requires Valid(t) && d < Size(t)
  {
    if d == 0 then 0 else 1 + Depth(t, t.parent[d])
  }

  /** d is a or a descendant of a. */
  predicate Below(t: Tree, a: nat, d: nat)
    requires Valid(t) && d < Size(t)
    decreases d
  {
    d == a || (d > 0 && Below(t, a, t.parent[d]))
  }

  /** The child of a on the way down to d. */
  function ChildToward(t: Tree, a: nat, d: nat): (c: nat)
    requires Valid(t) && d < Size(t) && Below(t, a, d) && d != a
    ensures 0 < c < Size(t) && t.parent[c] == a && Below(t, c, d)
    decreases d
  {
    if t.parent[d] == a then d else ChildToward(t, a, t.parent[d])
  }

  /** Where a message for dst goes from r: down if dst is below r, up otherwise. */
  function NextHop(t: Tree, r: nat, dst: nat): (n: nat)
    requires Valid(t) && r < Size(t) && dst < Size(t) && r != dst
    ensures n < Size(t) && n != r
  {
    if Below(t, r, dst) then ChildToward(t, r, dst) else RootAbove(t, dst); t.parent[r]
  }

  lemma RootAbove(t: Tree, d: nat)
    requires Valid(t) && d < Size(t)
    ensures Below(t, 0, d)
  {
  }

  /** The number of edges between r and dst. */
  function Distance(t: Tree, r: nat, dst: nat): nat
    requires Valid(t) && r < Size(t) && dst < Size(t)
    decreases r
  {
    if Below(t, r, dst) then BelowDeeper(t, r, dst); Depth(t, dst) - Depth(t, r)
    else RootAbove(t, dst); 1 + Distance(t, t.parent[r], dst)
  }

  lemma {:induction false} BelowDeeper(t: Tree, a: nat, d: nat)
    requires Valid(t) && d < Size(t) && Below(t, a, d)
    ensures a <= d && Depth(t, a) <= Depth(t, d) && (a != d ==> a < d && Depth(t, a) < Depth(t, d))
    decreases d
  {
    if d != a {
      BelowDeeper(t, a, t.parent[d]);
    }
  }

  /** Every hop of NextHop brings a message nearer by one. */
  lemma HopNearer(t: Tree, r: nat, dst: nat)
    requires Valid(t) && r < Size(t) && dst < Size(t) && r != dst
    ensures Distance(t, NextHop(t, r, dst), dst) == Distance(t, r, dst) - 1
  {
    if Below(t, r, dst) {
      BelowDeeper(t, r, dst);
    }
  }

  lemma DistanceZero(t: Tree, r: nat, dst: nat)
    requires Valid(t) && r < Size(t) && dst < Size(t)
    ensures Distance(t, r, dst) == 0 <==> r == dst
  {
    if Below(t, r, dst) {
      BelowDeeper(t, r, dst);
    }
  }

  // ---------------------------------------------------------------- subtrees

  ghost function Subtree(t: Tree, a: nat): set<nat>
    requires Valid(t)
  {
    set d | 0 <= d < Size(t) && Below(t, a, d)
  }

  /** The part of the subtree of a that lies in the subtrees of its children below n. */
  ghost function Covered(t: Tree, a: nat, n: nat): set<nat>
    requires Valid(t) && n <= Size(t)
  {
    set d | 0 <= d < Size(t) && Below(t, a, d) && d != a && ChildToward(t, a, d) < n
  }

  ghost function ChildrenSum(t: Tree, a: nat, n: nat): nat
    requires Valid(t) && n <= Size(t)
  {
    if n == 0 then 0
    else ChildrenSum(t, a, n - 1) + if n - 1 > 0 && t.parent[n - 1] == a then |Subtree(t, n - 1)| else 0
  }

  lemma {:induction false} BelowTrans(t: Tree, a: nat, c: nat, d: nat)
    requires Valid(t) && d < Size(t) && c < Size(t) && Below(t, c, d) && Below(t, a, c)
    ensures Below(t, a, d)
    decreases d
  {
    if d != c {
      BelowTrans(t, a, c, t.parent[d]);
    }
  }

  /** What is below a child c of a goes through c. */
  lemma {:induction false} ThroughChild(t: Tree, a: nat, c: nat, d: nat)
    requires Valid(t) && d < Size(t) && 0 < c < Size(t) && t.parent[c] == a && Below(t, c, d)
    ensures Below(t, a, d) && d != a && ChildToward(t, a, d) == c
    decreases d
  {
    BelowDeeper(t, c, d);
    BelowTrans(t, a, c, d);
    if d != c {
      ThroughChild(t, a, c, t.parent[d]);
      BelowDeeper(t, c, t.parent[d]);
    }
  }

  /** One more child covers its subtree, which was not covered before. */
  lemma CoveredGrows(t: Tree, a: nat, c: nat)
    requires Valid(t) && 0 < c < Size(t) && t.parent[c] == a
    ensures Covered(t, a, c) !! Subtree(t, c)
    ensures Covered(t, a, c + 1) == Covered(t, a, c) + Subtree(t, c)
  {
    forall d | d in Subtree(t, c) ensures d in Covered(t, a, c + 1) && d !in Covered(t, a, c) {
      ThroughChild(t, a, c, d);
    }
    forall d | d in Covered(t, a, c + 1) ensures d in Covered(t, a, c) || d in Subtree(t, c) {
      assert Below(t, ChildToward(t, a, d), d);
    }
  }

  lemma CoveredSame(t: Tree, a: nat, c: nat)
    requires Valid(t) && c < Size(t) && (c == 0 || t.parent[c] != a)
    ensures Covered(t, a, c + 1) == Covered(t, a, c)
  {
    forall d | d in Covered(t, a, c + 1) ensures d in Covered(t, a, c) {
      assert t.parent[ChildToward(t, a, d)] == a;
    }
  }

  lemma {:induction false} ChildrenCover(t: Tree, a: nat, n: nat)
    requires Valid(t) && n <= Size(t)
    ensures |Covered(t, a, n)| == ChildrenSum(t, a, n)
  {
    if n == 0 {
      assert Covered(t, a, 0) == {};
    } else {
      ChildrenCover(t, a, n - 1);
      if n - 1 > 0 && t.parent[n - 1] == a {
        CoveredGrows(t, a, n - 1);
      } else {
        CoveredSame(t, a, n - 1);
      }
    }
  }

  /** A subtree is its root and the subtrees of the root's children. */
  lemma SubtreeSplits(t: Tree, a: nat)
    requires Valid(t) && a < Size(t)
    ensures |Subtree(t, a)| == 1 + ChildrenSum(t, a, Size(t))
  {
    ChildrenCover(t, a, Size(t));
    assert Subtree(t, a) == Covered(t, a, Size(t)) + {a};
  }

  lemma WholeTree(t: Tree)
    requires Valid(t)
    ensures |Subtree(t, 0)| == Size(t)
  {
    forall d | 0 <= d < Size(t) ensures Below(t, 0, d) {
      RootAbove(t, d);
    }
    assert Subtree(t, 0) == Ranks(Size(t));
  }

  ghost function Ranks(n: nat): (r: set<nat>)
    ensures |r| == n && forall d: nat :: d in r <==> d < n
  {
    if n == 0 then {} else Ranks(n - 1) + {n - 1}
  }
}
