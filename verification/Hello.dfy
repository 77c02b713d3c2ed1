/** The hello protocol: every rank counts itself and what its children report through a
    reduction handle, and rank 0 learns when all ranks have joined. */
module Hello {
  import opened Basics
  import opened Topology
  import R = Reduce

  /** A rank: its handle, the counts it has passed on in order, and how many of them its
      parent has taken; at rank 0 the sink takes them at once. */
  datatype Node = Node(started: bool, red: R.State, log: seq<nat>, taken: nat)

  /** count is what rank 0 has learned, and runs how often it has set run level 1. */
  datatype Sys = Sys(nodes: seq<Node>, count: nat, runs: nat)

  datatype Action = Start(r: nat) | Join(child: nat) | Timer(r: nat)

  /** The attributes hello.hwm and whether hello.timeout is positive. */
  datatype Setup = Setup(hwm: nat, timed: bool)

  function NewNode(s: Setup): Node {
    Node(false, R.State(s.timed, s.hwm > 0, 0, false, s.hwm, true, 0, 0, false), [], 0)
  }

  function Initial(setup: seq<Setup>): Sys {
    Sys(seq(|setup|, i requires 0 <= i < |setup| => NewNode(setup[i])), 0, 0)
  }

  /** The counts that an operation on the handle passes on. */
  function Emitted(n: Node, op: R.Op): seq<nat> {
    var out := R.Apply(n.red, op).out;
    seq(|out|, i requires 0 <= i < |out| => out[i].weight)
  }

  function Worked(n: Node, op: R.Op): Node {
    n.(red := R.Apply(n.red, op).state, log := n.log + Emitted(n, op))
  }

  /** Rank 0 adds up what reaches its sink and looks after each whether all have joined. */
  function Sunk(s: Sys, news: seq<nat>): Sys
    decreases |news|
  {
    if news == [] then s
    else
      var c := s.count + news[0];
      Sunk(s.(count := c, runs := s.runs + Bit(c == |s.nodes|)), news[1..])
  }

  function Perform(s: Sys, r: nat, op: R.Op): Sys
    requires r < |s.nodes|
  {
    var n := Worked(s.nodes[r], op);
    if r > 0 then s.(nodes := s.nodes[r := n])
    else Sunk(s.(nodes := s.nodes[r := n.(taken := |n.log|)]), Emitted(s.nodes[r], op))
  }

  predicate Enabled(t: Tree, s: Sys, a: Action) {
    match a
    case Start(r) => r < |s.nodes| && !s.nodes[r].started
    case Join(c) => 0 < c < |s.nodes| && c < Size(t) && t.parent[c] < |s.nodes|
                    && s.nodes[c].taken < |s.nodes[c].log| && s.nodes[t.parent[c]].started
    case Timer(r) => r < |s.nodes| && s.nodes[r].started && s.nodes[r].red.armed
  }

  function Next(t: Tree, s: Sys, a: Action): Sys
    requires Enabled(t, s, a)
  {
    match a
    case Start(r) => Perform(s.(nodes := s.nodes[r := s.nodes[r].(started := true)]), r, R.Append(1, 0))
    case Join(c) =>
      var n := s.nodes[c];
      Perform(s.(nodes := s.nodes[c := n.(taken := n.taken + 1)]), t.parent[c], R.Append(n.log[n.taken], 0))
    case Timer(r) => Perform(s, r, R.Op.Timer)
  }

  // ---------------------------------------------------------------- one rank

  function SumTo(log: seq<nat>, k: nat): nat
    requires k <= |log|
  {
    if k == 0 then 0 else SumTo(log, k - 1) + log[k - 1]
  }

  lemma {:induction false} SumPrefix(log: seq<nat>, more: seq<nat>, k: nat)
    requires k <= |log|
    ensures SumTo(log + more, k) == SumTo(log, k)
  {
    if k > 0 {
      SumPrefix(log, more, k - 1);
    }
  }

  lemma {:induction false} SumGrows(log: seq<nat>, j: nat, k: nat)
    requires j <= k <= |log|
    ensures SumTo(log, j) <= SumTo(log, k)
  {
    if j < k {
      SumGrows(log, j, k - 1);
    }
  }

  /** What every rank keeps: all that its handle has counted is queued or passed on. */
  ghost predicate NodeOk(n: Node) {
    && R.Inv(n.red) && n.red.batch == 0 && n.red.fixed
    && n.taken <= |n.log|
    && (forall i | 0 <= i < |n.log| :: n.log[i] > 0)
    && SumTo(n.log, |n.log|) + n.red.queue == n.red.count
    && (n.red.flushed ==> n.log != [])
    && (n.red.marked <==> n.red.hwm > 0)
  }

  /** The first count passed on was not below the mark. */
  predicate Steady(n: Node) {
    n.log != [] ==> n.log[0] >= n.red.hwm
  }

  predicate HelloOp(n: Node, op: R.Op) {
    R.OpOk(n.red, op) && (op.Append? ==> op.batch == 0)
  }

  lemma OneOut(s: R.State, op: R.Op)
    requires R.Inv(s) && s.batch == 0 && s.fixed && R.OpOk(s, op) && (op.Append? ==> op.batch == 0)
    ensures var r := R.Apply(s, op);
      && |r.out| <= 1
      && r.state.fixed && r.state.batch == 0
      && r.state.hwm == s.hwm && r.state.marked == s.marked && r.state.timed == s.timed
      && r.state.count == s.count + R.Taken(op, 0)
      && (r.out == [] ==> r.state.queue == s.queue + R.Taken(op, 0) && !r.state.flushed)
      && (|r.out| == 1 ==> r.out[0].weight + r.state.queue == s.queue + R.Taken(op, 0) && r.out[0].weight > 0)
      && (|r.out| == 1 && op.Append? && !s.flushed && s.marked ==> r.state.count >= s.hwm && r.state.queue == 0)
  {
  }

  lemma NodeStep(n: Node, op: R.Op)
    requires NodeOk(n) && HelloOp(n, op)
    ensures var m := Worked(n, op);
      && NodeOk(m) && |Emitted(n, op)| <= 1
      && m.red.count == n.red.count + R.Taken(op, 0)
      && m.red.hwm == n.red.hwm && m.red.timed == n.red.timed
      && (forall k | 0 <= k <= |n.log| :: SumTo(m.log, k) == SumTo(n.log, k))
      && (Steady(n) && op.Append? ==> Steady(m))
  {
    OneOut(n.red, op);
    R.ApplyKeeps(n.red, op);
    forall k | 0 <= k <= |n.log| ensures SumTo(n.log + Emitted(n, op), k) == SumTo(n.log, k) {
      SumPrefix(n.log, Emitted(n, op), k);
    }
  }

  // ---------------------------------------------------------------- the tree

  function SumOf(nodes: seq<Node>, n: nat, f: Node -> int): int
    requires n <= |nodes|
  {
    if n == 0 then 0 else SumOf(nodes, n - 1, f) + f(nodes[n - 1])
  }

  function Joined(n: Node): int {
    Bit(n.started)
  }

  function Queued(n: Node): int {
    n.red.queue
  }

  /** What the parent has taken of the counts passed on, and what is still under way. */
  function Got(n: Node): int {
    if n.taken <= |n.log| then SumTo(n.log, n.taken) else 0
  }

  function InFlight(n: Node): int {
    if n.taken <= |n.log| then SumTo(n.log, |n.log|) - SumTo(n.log, n.taken) else 0
  }

  function ChildrenGot(t: Tree, nodes: seq<Node>, a: nat, n: nat): int
    requires n <= |nodes| && n <= Size(t)
  {
    if n == 0 then 0
    else ChildrenGot(t, nodes, a, n - 1) + if n - 1 > 0 && t.parent[n - 1] == a then Got(nodes[n - 1]) else 0
  }

  lemma {:induction false} SumOfUpdate(nodes: seq<Node>, r: nat, m: Node, n: nat, f: Node -> int)
    requires r < |nodes| && n <= |nodes|
    ensures SumOf(nodes[r := m], n, f) == SumOf(nodes, n, f) + if r < n then f(m) - f(nodes[r]) else 0
  {
    if n > 0 {
      SumOfUpdate(nodes, r, m, n - 1, f);
    }
  }

  lemma {:induction false} GotUpdate(t: Tree, nodes: seq<Node>, c: nat, m: Node, a: nat, n: nat)
    requires c < |nodes| && n <= |nodes| && n <= Size(t)
    ensures ChildrenGot(t, nodes[c := m], a, n)
         == ChildrenGot(t, nodes, a, n) + if 0 < c < n && t.parent[c] == a then Got(m) - Got(nodes[c]) else 0
  {
    if n > 0 {
      GotUpdate(t, nodes, c, m, a, n - 1);
    }
  }

  /** What each rank keeps, when rank r still has to count w. */
  ghost predicate LocalOk(t: Tree, s: Sys, r: nat, w: nat, i: nat)
    requires |s.nodes| == Size(t) && i < Size(t)
  {
    var n := s.nodes[i];
    && NodeOk(n)
    && (!n.started ==> n.red.count == 0)
    && n.red.count + (if i == r then w else 0) == Joined(n) + ChildrenGot(t, s.nodes, i, Size(t))
  }

  ghost predicate Owing(t: Tree, s: Sys, r: nat, w: nat) {
    && Topology.Valid(t) && |s.nodes| == Size(t)
    && s.nodes[0].taken == |s.nodes[0].log|
    && (forall i | 0 <= i < Size(t) :: LocalOk(t, s, r, w, i))
    && s.count == Got(s.nodes[0])
    && s.count + SumOf(s.nodes, Size(t), Queued) + SumOf(s.nodes, Size(t), InFlight) + w
       == SumOf(s.nodes, Size(t), Joined)
  }

  ghost predicate Sound(t: Tree, s: Sys) {
    Owing(t, s, 0, 0)
  }

  lemma SunkIs(s: Sys, news: seq<nat>)
    requires |news| <= 1
    ensures var u := Sunk(s, news);
      && u.nodes == s.nodes && u.count == s.count + (if news == [] then 0 else news[0])
      && u.runs == s.runs + Bit(news != [] && u.count == |s.nodes|)
  {
  }

  /** The operation at rank r settles what the rank still had to count. */
  lemma PerformSound(t: Tree, s: Sys, r: nat, op: R.Op)
    requires r < |s.nodes| && Owing(t, s, r, R.Taken(op, 0)) && HelloOp(s.nodes[r], op) && s.nodes[r].started
    ensures Sound(t, Perform(s, r, op))
  {
    var n := s.nodes[r];
    assert LocalOk(t, s, r, R.Taken(op, 0), r);
    NodeStep(n, op);
    var m := Worked(n, op);
    if r == 0 {
      m := m.(taken := |m.log|);
    }
    var u := Perform(s, r, op);
    SunkIs(s.(nodes := s.nodes[r := m]), Emitted(n, op));
    assert u.nodes == s.nodes[r := m];
    SumOfUpdate(s.nodes, r, m, Size(t), Queued);
    SumOfUpdate(s.nodes, r, m, Size(t), InFlight);
    SumOfUpdate(s.nodes, r, m, Size(t), Joined);
    forall i | 0 <= i < Size(t) ensures LocalOk(t, u, 0, 0, i) {
      assert LocalOk(t, s, r, R.Taken(op, 0), i);
      GotUpdate(t, s.nodes, r, m, i, Size(t));
    }
  }

  lemma StartOwes(t: Tree, s: Sys, r: nat)
    requires Sound(t, s) && r < |s.nodes| && !s.nodes[r].started
    ensures Owing(t, s.(nodes := s.nodes[r := s.nodes[r].(started := true)]), r, 1)
  {
    var m := s.nodes[r].(started := true);
    var u := s.(nodes := s.nodes[r := m]);
    SumOfUpdate(s.nodes, r, m, Size(t), Queued);
    SumOfUpdate(s.nodes, r, m, Size(t), InFlight);
    SumOfUpdate(s.nodes, r, m, Size(t), Joined);
    forall i | 0 <= i < Size(t) ensures LocalOk(t, u, r, 1, i) {
      assert LocalOk(t, s, 0, 0, i);
      GotUpdate(t, s.nodes, r, m, i, Size(t));
    }
  }

  lemma JoinOwes(t: Tree, s: Sys, c: nat)
    requires Sound(t, s) && Enabled(t, s, Join(c))
    ensures var n := s.nodes[c];
      && n.log[n.taken] > 0
      && Owing(t, s.(nodes := s.nodes[c := n.(taken := n.taken + 1)]), t.parent[c], n.log[n.taken])
  {
    var n := s.nodes[c];
    assert LocalOk(t, s, 0, 0, c);
    var m := n.(taken := n.taken + 1);
    var u := s.(nodes := s.nodes[c := m]);
    SumOfUpdate(s.nodes, c, m, Size(t), Queued);
    SumOfUpdate(s.nodes, c, m, Size(t), InFlight);
    SumOfUpdate(s.nodes, c, m, Size(t), Joined);
    forall i | 0 <= i < Size(t) ensures LocalOk(t, u, t.parent[c], n.log[n.taken], i) {
      assert LocalOk(t, s, 0, 0, i);
      GotUpdate(t, s.nodes, c, m, i, Size(t));
    }
  }

  lemma NextSound(t: Tree, s: Sys, a: Action)
    requires Sound(t, s) && Enabled(t, s, a)
    ensures Sound(t, Next(t, s, a))
  {
    match a
    case Start(r) =>
      StartOwes(t, s, r);
      PerformSound(t, s.(nodes := s.nodes[r := s.nodes[r].(started := true)]), r, R.Append(1, 0));
    case Join(c) =>
      var n := s.nodes[c];
      JoinOwes(t, s, c);
      PerformSound(t, s.(nodes := s.nodes[c := n.(taken := n.taken + 1)]), t.parent[c], R.Append(n.log[n.taken], 0));
    case Timer(r) =>
      assert Owing(t, s, r, 0) by {
        forall i | 0 <= i < Size(t) ensures LocalOk(t, s, r, 0, i) {
          assert LocalOk(t, s, 0, 0, i);
        }
      }
      PerformSound(t, s, r, R.Op.Timer);
  }

  lemma {:induction false} Tally(nodes: seq<Node>, n: nat)
    requires n <= |nodes| && forall i | 0 <= i < n :: NodeOk(nodes[i])
    ensures SumOf(nodes, n, Queued) >= 0 && SumOf(nodes, n, InFlight) >= 0 && SumOf(nodes, n, Joined) <= n
    ensures SumOf(nodes, n, Joined) == n + SumOf(nodes, n, Queued) + SumOf(nodes, n, InFlight)
        ==> forall i | 0 <= i < n :: nodes[i].started && nodes[i].red.queue == 0 && InFlight(nodes[i]) == 0
  {
    if n > 0 {
      Tally(nodes, n - 1);
      SumGrows(nodes[n - 1].log, nodes[n - 1].taken, |nodes[n - 1].log|);
    }
  }

  /** All that rank 0 has learned is true: it never counts more ranks than there are, and
      when it has counted them all, each has joined and no count is queued or under way. */
  lemma CompleteIsTrue(t: Tree, s: Sys)
    requires Sound(t, s)
    ensures s.count <= Size(t)
    ensures s.count == Size(t) ==>
      forall i | 0 <= i < Size(t) :: s.nodes[i].started && s.nodes[i].red.queue == 0 && InFlight(s.nodes[i]) == 0
  {
    forall i | 0 <= i < Size(t) ensures NodeOk(s.nodes[i]) {
      assert LocalOk(t, s, 0, 0, i);
    }
    Tally(s.nodes, Size(t));
  }

  /** Run level 1 has been set once if all have joined, and not before. */
  predicate RunsOk(s: Sys) {
    s.runs == Bit(s.count == |s.nodes|)
  }

  lemma PerformRuns(t: Tree, s: Sys, r: nat, op: R.Op)
    requires r < |s.nodes| && NodeOk(s.nodes[r]) && HelloOp(s.nodes[r], op) && RunsOk(s)
    requires Sound(t, Perform(s, r, op))
    ensures RunsOk(Perform(s, r, op))
  {
    NodeStep(s.nodes[r], op);
    OneOut(s.nodes[r].red, op);
    CompleteIsTrue(t, Perform(s, r, op));
    if r == 0 {
      var m := Worked(s.nodes[r], op);
      SunkIs(s.(nodes := s.nodes[r := m.(taken := |m.log|)]), Emitted(s.nodes[r], op));
    }
  }

  lemma NextRuns(t: Tree, s: Sys, a: Action)
    requires Sound(t, s) && Enabled(t, s, a) && RunsOk(s)
    ensures RunsOk(Next(t, s, a))
  {
    NextSound(t, s, a);
    match a
    case Start(r) =>
      assert LocalOk(t, s, 0, 0, r);
      PerformRuns(t, s.(nodes := s.nodes[r := s.nodes[r].(started := true)]), r, R.Append(1, 0));
    case Join(c) =>
      var n := s.nodes[c];
      JoinOwes(t, s, c);
      assert LocalOk(t, s, 0, 0, t.parent[c]);
      PerformRuns(t, s.(nodes := s.nodes[c := n.(taken := n.taken + 1)]), t.parent[c], R.Append(n.log[n.taken], 0));
    case Timer(r) =>
      assert LocalOk(t, s, 0, 0, r);
      PerformRuns(t, s, r, R.Op.Timer);
  }
}
