/** The arithmetic of kary.c, which lays the overlay out as a complete k-ary tree, is the
    tree of Topology: parents, routes down and descendant counts agree. */
module Kary {
  import opened Basics
  import opened Topology

  /** kary_parentof; None is KARY_NONE. */
  function ParentOf(k: int, i: nat): Option<nat> {
    if i == 0 || k <= 0 then None
    else if k == 1 then Some(i - 1)
    else Some((k + (i + 1) - 2) / k - 1)
  }

  /** kary_childof: the jth child of i. */
  function ChildOf(k: int, size: nat, i: nat, j: int): Option<nat> {
    if k > 0 && 0 <= j < k && k * (i + 1) - (k - 2) + j - 1 < size
    then Some(k * (i + 1) - (k - 2) + j - 1) else None
  }

  lemma ParentIs(k: int, i: nat)
    requires k > 0 && i > 0
    ensures ParentOf(k, i) == Some((i - 1) / k) && (i - 1) / k < i
  {
    Shift(i - 1, k);
  }

  lemma {:induction false} MulGap(k: int, x: int, y: int)
    requires k > 0 && x < y
    ensures k * x + k <= k * y
    decreases y - x
  {
    if x + 1 < y {
      MulGap(k, x + 1, y);
    }
    assert k * (x + 1) == k * x + k;
  }

  lemma DivMod(a: int, k: int)
    requires k > 0
    ensures a == k * (a / k) + a % k && 0 <= a % k < k
  {
  }

  lemma DivUnique(a: int, k: int, q: int, r: int)
    requires k > 0 && 0 <= r < k && a == k * q + r
    ensures a / k == q && a % k == r
  {
    DivMod(a, k);
    if q > a / k {
      MulGap(k, a / k, q);
    } else if q < a / k {
      MulGap(k, q, a / k);
    }
  }

  lemma Shift(a: int, k: int)
    requires k > 0 && a >= 0
    ensures (a + k) / k == a / k + 1 && 0 <= a / k <= a
  {
    DivMod(a, k);
    var q := a / k;
    assert k * (q + 1) == k * q + k;
    DivUnique(a + k, k, q + 1, a % k);
    if q < 0 {
      MulGap(k, q, 0);
    } else if q > 0 {
      MulGap(q, 0, k);
    }
  }

  /** Rank c is the jth child of i for some j exactly when i is its parent. */
  lemma ChildIffParent(k: int, size: nat, i: nat, c: nat)
    requires k > 0 && 0 < c < size
    ensures (exists j :: ChildOf(k, size, i, j) == Some(c)) <==> ParentOf(k, c) == Some(i)
    ensures ParentOf(k, c) == Some(i) ==> ChildOf(k, size, i, (c - 1) % k) == Some(c)
    ensures forall j :: ChildOf(k, size, i, j) == Some(c) ==> j == (c - 1) % k
  {
    ParentIs(k, c);
    DivMod(c - 1, k);
    forall j | ChildOf(k, size, i, j) == Some(c) ensures (c - 1) / k == i && (c - 1) % k == j {
      assert k * (i + 1) == k * i + k;
      assert c - 1 == k * i + j;
      DivUnique(c - 1, k, i, j);
    }
    if (c - 1) / k == i {
      assert k * (i + 1) == k * i + k;
      assert ChildOf(k, size, i, (c - 1) % k) == Some(c);
    }
  }

  function TreeOf(k: int, size: nat): Tree
    requires k > 0
  {
    Tree(seq(size, i requires 0 <= i => if i == 0 then 0 else (i - 1) / k))
  }

  /** t is the tree that kary.c lays out for its size. */
  ghost predicate LaidOut(k: int, t: Tree) {
    && k > 0 && Valid(t)
    && forall i: nat {:trigger ParentOf(k, i)} | 0 < i < Size(t) :: ParentOf(k, i) == Some(t.parent[i])
  }

  lemma TreeOfLaidOut(k: int, size: nat)
    requires k > 0 && size > 0
    ensures LaidOut(k, TreeOf(k, size))
  {
    forall i | 0 < i < size ensures TreeOf(k, size).parent[i] < i && ParentOf(k, i) == Some(TreeOf(k, size).parent[i]) {
      ParentIs(k, i);
    }
  }

  /** kary_levelof is the depth in the tree. */
  function LevelOf(k: int, i: nat): nat
    requires k > 0
    decreases i
  {
    match ParentOf(k, i)
    case None => 0
    case Some(n) => ParentIs(k, i); 1 + LevelOf(k, n)
  }

  lemma {:induction false} LevelIsDepth(k: int, t: Tree, i: nat)
    requires LaidOut(k, t) && i < Size(t)
    ensures LevelOf(k, i) == Depth(t, i)
    decreases i
  {
    if i > 0 {
      assert ParentOf(k, i) == Some(t.parent[i]);
      LevelIsDepth(k, t, t.parent[i]);
    }
  }

  /** The inner loop of kary_child_route: is gw a child of src? */
  method IsChild(k: int, ghost t: Tree, size: nat, src: nat, gw: nat) returns (found: bool)
    requires LaidOut(k, t) && size == Size(t) && gw < size
    ensures found <==> gw > 0 && t.parent[gw] == src
  {
    found := false;
    var j := 0;
    while j < k && !found
      invariant 0 <= j <= k
      invariant found <==> exists m :: 0 <= m < j && ChildOf(k, size, src, m) == Some(gw)
    {
      found := ChildOf(k, size, src, j) == Some(gw);
      j := j + 1;
    }
    if gw > 0 {
      assert ParentOf(k, gw) == Some(t.parent[gw]);
      ChildIffParent(k, size, src, gw);
    }
  }

  method StepUp(k: int, ghost t: Tree, i: nat) returns (gw: Option<nat>)
    requires LaidOut(k, t) && i < Size(t)
    ensures gw == if i == 0 then None else Some(t.parent[i])
  {
    gw := ParentOf(k, i);
  }

  /** kary_child_route gives the child of src whose subtree holds dst, and nothing when dst
      is src, is not below src, or is out of range, or when there is no tree. */
  method ChildRoute(k: int, ghost t: Tree, size: nat, src: nat, dst: nat) returns (gw: Option<nat>)
    requires k > 0 ==> LaidOut(k, t) && size == Size(t)
    ensures gw == if k > 0 && src < size && dst < size && src != dst && Below(t, src, dst)
                  then Some(ChildToward(t, src, dst)) else None
  {
    if k <= 0 || src == dst || dst >= size || src >= size {
      return None;
    }
    gw := StepUp(k, t, dst);
    if gw == Some(src) {
      return Some(dst);
    }
    ghost var at: nat := dst;
    while gw.Some?
      invariant at < size && at != src && gw != Some(src)
      invariant gw == if at == 0 then None else Some(t.parent[at])
      invariant Below(t, src, dst) <==> Below(t, src, at)
      invariant Below(t, src, at) ==> ChildToward(t, src, dst) == ChildToward(t, src, at)
      decreases at
    {
      var child := IsChild(k, t, size, src, gw.value);
      if child {
        assert Below(t, src, gw.value) && ChildToward(t, src, gw.value) == gw.value;
        return;
      }
      at := gw.value;
      gw := StepUp(k, t, gw.value);
    }
  }

  /** The loop of kary_sum_descendants counts everything below i but i itself, and nothing
      when there is no tree. */
  method SumDescendants(k: int, ghost t: Tree, size: nat, i: nat) returns (sum: nat)
    requires k > 0 ==> LaidOut(k, t) && size == Size(t) && i < size
    ensures sum == if k > 0 then |Subtree(t, i)| - 1 else 0
    decreases if i < size then size - i else 0
  {
    sum := 0;
    var j := 0;
    if k > 0 {
      ChildRange(k, t, i);
    }
    while j < k
      invariant 0 <= j && (k > 0 ==> j <= k)
      invariant sum == if k > 0 then ChildrenSum(t, i, Min(k * i + j + 1, size)) else 0
    {
      var n := ChildOf(k, size, i, j);
      assert k * (i + 1) == k * i + k;
      if n.Some? {
        ChildIffParent(k, size, i, n.value);
        assert ParentOf(k, n.value) == Some(t.parent[n.value]);
        var below := SumDescendants(k, t, size, n.value);
        sum := sum + 1 + below;
      }
      j := j + 1;
    }
    if k > 0 {
      assert k * i + j + 1 == k * i + k + 1;
      SubtreeSplits(t, i);
    }
  }

  lemma {:induction false} NoChildren(t: Tree, i: nat, lo: nat, hi: nat)
    requires Valid(t) && lo <= hi <= Size(t)
    requires forall c | lo <= c < hi :: c == 0 || t.parent[c] != i
    ensures ChildrenSum(t, i, hi) == ChildrenSum(t, i, lo)
    decreases hi
  {
    if lo < hi {
      NoChildren(t, i, lo, hi - 1);
    }
  }

  /** The children of i are among k * i + 1 .. k * i + k. */
  lemma ChildRange(k: int, t: Tree, i: nat)
    requires LaidOut(k, t) && i < Size(t)
    ensures 0 <= k * i && ChildrenSum(t, i, Min(k * i + 1, Size(t))) == 0
    ensures ChildrenSum(t, i, Size(t)) == ChildrenSum(t, i, Min(k * i + k + 1, Size(t)))
  {
    if i > 0 {
      MulGap(k, 0, i);
    }
    forall c | 0 < c < Size(t) && t.parent[c] == i ensures k * i + 1 <= c <= k * i + k {
      assert ParentOf(k, c) == Some(i);
      ParentIs(k, c);
      DivMod(c - 1, k);
    }
    NoChildren(t, i, 0, Min(k * i + 1, Size(t)));
    NoChildren(t, i, Min(k * i + k + 1, Size(t)), Size(t));
  }
}
