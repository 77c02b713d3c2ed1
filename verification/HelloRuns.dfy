/** The hello protocol over whole runs: conservation, completion and its exact condition,
    and how few messages it needs. */
module HelloRuns {
  import opened Basics
  import opened Topology
  import opened Hello
  import R = Reduce

  datatype Run = Run(states: seq<Sys>, actions: seq<Action>)

  ghost predicate IsRun(t: Tree, setup: seq<Setup>, h: Run) {
    && Topology.Valid(t) && |setup| == Size(t)
    && |h.states| == |h.actions| + 1 && h.states[0] == Initial(setup)
    && forall i | 0 <= i < |h.actions| ::
         Enabled(t, h.states[i], h.actions[i]) && h.states[i + 1] == Next(t, h.states[i], h.actions[i])
  }

  lemma {:induction false} NothingYet(t: Tree, nodes: seq<Node>, a: nat, n: nat)
    requires n <= |nodes| && n <= Size(t)
    requires forall i | 0 <= i < |nodes| ::
      !nodes[i].started && nodes[i].red.queue == 0 && nodes[i].log == [] && nodes[i].taken == 0
    ensures ChildrenGot(t, nodes, a, n) == 0
    ensures SumOf(nodes, n, Queued) == SumOf(nodes, n, InFlight) == SumOf(nodes, n, Joined) == 0
  {
    if n > 0 {
      NothingYet(t, nodes, a, n - 1);
    }
  }

  lemma InitialSound(t: Tree, setup: seq<Setup>)
    requires Topology.Valid(t) && |setup| == Size(t)
    ensures Sound(t, Initial(setup)) && RunsOk(Initial(setup))
  {
    var s := Initial(setup);
    forall i | 0 <= i < Size(t) ensures LocalOk(t, s, 0, 0, i) {
      NothingYet(t, s.nodes, i, Size(t));
    }
    NothingYet(t, s.nodes, 0, Size(t));
  }

  /** In every run, rank 0's count, what is queued at all ranks and what is under way add
      up to the ranks that have started; so rank 0 finds the session complete only when
      every rank has joined, and it sets run level 1 exactly then and only once. */
  lemma {:induction false} HelloConserves(t: Tree, setup: seq<Setup>, h: Run, i: nat)
    requires IsRun(t, setup, h) && i < |h.states|
    ensures Sound(t, h.states[i])
    ensures var s := h.states[i];
      && s.count + SumOf(s.nodes, Size(t), Queued) + SumOf(s.nodes, Size(t), InFlight)
         == SumOf(s.nodes, Size(t), Joined)
      && (s.count == Size(t) ==> forall r | 0 <= r < Size(t) :: s.nodes[r].started)
      && s.runs == Bit(s.count == Size(t))
  {
    RunKeeps(t, setup, h, i);
    CompleteIsTrue(t, h.states[i]);
  }

  lemma {:induction false} RunKeeps(t: Tree, setup: seq<Setup>, h: Run, i: nat)
    requires IsRun(t, setup, h) && i < |h.states|
    ensures Sound(t, h.states[i]) && RunsOk(h.states[i])
  {
    if i == 0 {
      InitialSound(t, setup);
    } else {
      RunKeeps(t, setup, h, i - 1);
      NextSound(t, h.states[i - 1], h.actions[i - 1]);
      NextRuns(t, h.states[i - 1], h.actions[i - 1]);
    }
  }

  // ---------------------------------------------------------------- subtrees

  lemma {:induction false} ChildrenBound(t: Tree, s: Sys, a: nat, n: nat)
    requires Sound(t, s) && a < Size(t) && n <= Size(t)
    ensures ChildrenGot(t, s.nodes, a, n) <= ChildrenSum(t, a, n)
    decreases Size(t) - a, n
  {
    if n > 0 {
      ChildrenBound(t, s, a, n - 1);
      var c := n - 1;
      if c > 0 && t.parent[c] == a {
        CountBound(t, s, c);
        SumGrows(s.nodes[c].log, s.nodes[c].taken, |s.nodes[c].log|);
      }
    }
  }

  /** No rank counts more than its subtree. */
  lemma {:induction false} CountBound(t: Tree, s: Sys, r: nat)
    requires Sound(t, s) && r < Size(t)
    ensures NodeOk(s.nodes[r]) && s.nodes[r].red.count <= |Subtree(t, r)|
    decreases Size(t) - r, Size(t) + 1
  {
    assert LocalOk(t, s, 0, 0, r);
    ChildrenBound(t, s, r, Size(t));
    SubtreeSplits(t, r);
  }

  /** All have started, no count is under way and no timer runs. */
  predicate Quiescent(s: Sys) {
    forall i | 0 <= i < |s.nodes| :: s.nodes[i].started && s.nodes[i].taken == |s.nodes[i].log| && !s.nodes[i].red.armed
  }

  /** The rank does not wait for more than its subtree can give. */
  ghost predicate Modest(t: Tree, s: Setup, r: nat)
    requires Topology.Valid(t)
  {
    s.timed || s.hwm <= |Subtree(t, r)|
  }

  ghost predicate SetupOk(setup: seq<Setup>, s: Sys) {
    && |s.nodes| == |setup|
    && forall r | 0 <= r < |setup| :: s.nodes[r].red.hwm == setup[r].hwm && s.nodes[r].red.timed == setup[r].timed
  }

  lemma {:induction false} ChildrenSettled(t: Tree, setup: seq<Setup>, s: Sys, a: nat, n: nat)
    requires Sound(t, s) && SetupOk(setup, s) && Quiescent(s) && a < Size(t) && n <= Size(t)
    requires forall r | 0 <= r < Size(t) :: Modest(t, setup[r], r)
    ensures ChildrenGot(t, s.nodes, a, n) == ChildrenSum(t, a, n)
    decreases Size(t) - a, n
  {
    if n > 0 {
      ChildrenSettled(t, setup, s, a, n - 1);
      var c := n - 1;
      if c > 0 && t.parent[c] == a {
        Settled(t, setup, s, c);
      }
    }
  }

  /** Once everything is quiet a modest rank has passed on its whole subtree. */
  lemma {:induction false} Settled(t: Tree, setup: seq<Setup>, s: Sys, r: nat)
    requires Sound(t, s) && SetupOk(setup, s) && Quiescent(s) && r < Size(t)
    requires forall i | 0 <= i < Size(t) :: Modest(t, setup[i], i)
    ensures Got(s.nodes[r]) == |Subtree(t, r)|
    decreases Size(t) - r, Size(t) + 1
  {
    assert LocalOk(t, s, 0, 0, r);
    assert Modest(t, setup[r], r);
    ChildrenSettled(t, setup, s, r, Size(t));
    SubtreeSplits(t, r);
  }

  // ---------------------------------------------------------------- whole runs

  /** A rank after a step: its setup is the same, and it is steady unless its timer fired. */
  lemma NextNode(t: Tree, s: Sys, a: Action, r: nat)
    requires Sound(t, s) && Enabled(t, s, a) && r < Size(t)
    ensures |Next(t, s, a).nodes| == Size(t)
    ensures var m := Next(t, s, a).nodes[r];
      && m.red.hwm == s.nodes[r].red.hwm && m.red.timed == s.nodes[r].red.timed
      && (Steady(s.nodes[r]) && a != Timer(r) ==> Steady(m))
  {
    assert LocalOk(t, s, 0, 0, r);
    match a
    case Start(q) =>
      assert LocalOk(t, s, 0, 0, q);
      PerformNode(s.(nodes := s.nodes[q := s.nodes[q].(started := true)]), q, R.Append(1, 0), r);
    case Join(c) =>
      var n := s.nodes[c];
      JoinOwes(t, s, c);
      assert LocalOk(t, s, 0, 0, t.parent[c]);
      PerformNode(s.(nodes := s.nodes[c := n.(taken := n.taken + 1)]), t.parent[c], R.Append(n.log[n.taken], 0), r);
    case Timer(q) =>
      assert LocalOk(t, s, 0, 0, q);
      PerformNode(s, q, R.Op.Timer, r);
  }

  lemma PerformNode(s: Sys, q: nat, op: R.Op, r: nat)
    requires q < |s.nodes| && r < |s.nodes| && NodeOk(s.nodes[q]) && HelloOp(s.nodes[q], op)
    ensures var u := Perform(s, q, op);
      && |u.nodes| == |s.nodes|
      && u.nodes[r].red.hwm == s.nodes[r].red.hwm && u.nodes[r].red.timed == s.nodes[r].red.timed
      && (Steady(s.nodes[r]) && (q == r ==> op.Append?) ==> Steady(u.nodes[r]))
  {
    NodeStep(s.nodes[q], op);
    if q == 0 {
      var m := Worked(s.nodes[q], op);
      SunkIs(s.(nodes := s.nodes[q := m.(taken := |m.log|)]), Emitted(s.nodes[q], op));
    }
  }

  lemma {:induction false} RunNode(t: Tree, setup: seq<Setup>, h: Run, i: nat, r: nat)
    requires IsRun(t, setup, h) && i < |h.states| && r < Size(t)
    ensures |h.states[i].nodes| == Size(t)
    ensures h.states[i].nodes[r].red.hwm == setup[r].hwm && h.states[i].nodes[r].red.timed == setup[r].timed
    ensures (forall j | 0 <= j < i :: h.actions[j] != Timer(r)) ==> Steady(h.states[i].nodes[r])
  {
    if i > 0 {
      RunNode(t, setup, h, i - 1, r);
      RunKeeps(t, setup, h, i - 1);
      NextNode(t, h.states[i - 1], h.actions[i - 1], r);
      RunKeeps(t, setup, h, i);
    }
  }

  /** Without a timeout no timer fires. */
  lemma Untimed(t: Tree, setup: seq<Setup>, h: Run, i: nat, r: nat)
    requires IsRun(t, setup, h) && i < |h.actions| && r < Size(t) && !setup[r].timed
    ensures h.actions[i] != Timer(r)
  {
    RunKeeps(t, setup, h, i);
    RunNode(t, setup, h, i, r);
    assert LocalOk(t, h.states[i], 0, 0, r);
  }

  /** A rank that waits for more than its subtree keeps the session from ever completing. */
  lemma NeverComplete(t: Tree, setup: seq<Setup>, h: Run, i: nat, r: nat)
    requires IsRun(t, setup, h) && i < |h.states| && r < Size(t) && !Modest(t, setup[r], r)
    ensures h.states[i].count < Size(t)
  {
    var s := h.states[i];
    RunKeeps(t, setup, h, i);
    CompleteIsTrue(t, s);
    forall j | 0 <= j < i ensures h.actions[j] != Timer(r) {
      Untimed(t, setup, h, j, r);
    }
    RunNode(t, setup, h, i, r);
    CountBound(t, s, r);
    assert LocalOk(t, s, 0, 0, r);
    if s.nodes[r].started {
      StartedCounts(t, s, r);
    }
    if s.nodes[r].log != [] {
      SumGrows(s.nodes[r].log, 1, |s.nodes[r].log|);
    }
  }

  /** A rank that has started has counted itself. */
  lemma StartedCounts(t: Tree, s: Sys, r: nat)
    requires Sound(t, s) && r < Size(t) && s.nodes[r].started
    ensures s.nodes[r].red.count > 0
  {
    assert LocalOk(t, s, 0, 0, r);
    GotPositive(t, s, r, Size(t));
  }

  lemma {:induction false} GotPositive(t: Tree, s: Sys, a: nat, n: nat)
    requires |s.nodes| == Size(t) && n <= Size(t)
    ensures ChildrenGot(t, s.nodes, a, n) >= 0
  {
    if n > 0 {
      GotPositive(t, s, a, n - 1);
    }
  }

  /** When all have started and everything is quiet, the session is complete if and only if
      every rank has a timeout or a mark that its subtree can reach. */
  lemma CompletesIff(t: Tree, setup: seq<Setup>, h: Run, i: nat)
    requires IsRun(t, setup, h) && i < |h.states| && Quiescent(h.states[i])
    ensures h.states[i].count == Size(t) <==> forall r | 0 <= r < Size(t) :: Modest(t, setup[r], r)
  {
    var s := h.states[i];
    RunKeeps(t, setup, h, i);
    if r :| 0 <= r < Size(t) && !Modest(t, setup[r], r) {
      NeverComplete(t, setup, h, i, r);
    } else {
      forall r | 0 <= r < Size(t) ensures s.nodes[r].red.hwm == setup[r].hwm && s.nodes[r].red.timed == setup[r].timed {
        RunNode(t, setup, h, i, r);
      }
      Settled(t, setup, s, 0);
      WholeTree(t);
    }
  }

  /** With marks of descendants plus one and no timer firing, a rank passes on one count,
      the size of its subtree, or none yet: every rank but 0 sends at most one join, and
      the sink of rank 0 runs at most once, with the size of the session. */
  lemma OneJoinEach(t: Tree, setup: seq<Setup>, h: Run, i: nat, r: nat)
    requires IsRun(t, setup, h) && i < |h.states| && r < Size(t)
    requires setup[r].hwm == |Subtree(t, r)|
    requires forall j | 0 <= j < i :: h.actions[j] != Timer(r)
    ensures |h.states[i].nodes| == Size(t)
    ensures h.states[i].nodes[r].log == [] || h.states[i].nodes[r].log == [|Subtree(t, r)|]
    ensures r == 0 ==> h.states[i].count == 0 || h.states[i].count == Size(t)
  {
    var s := h.states[i];
    RunKeeps(t, setup, h, i);
    RunNode(t, setup, h, i, r);
    CountBound(t, s, r);
    var log := s.nodes[r].log;
    if log != [] {
      assert SumTo(log, 1) == log[0];
      SumGrows(log, 1, |log|);
      if |log| > 1 {
        assert SumTo(log, 2) == log[0] + log[1];
        SumGrows(log, 2, |log|);
      }
    }
    WholeTree(t);
  }
}
