/** The hello protocol comes to rest: once all ranks have started, every join that is taken and
    every timer that fires brings the counts nearer to rank 0. */
module HelloLive {
  import opened Topology
  import opened Hello
  import opened HelloRuns
  import R = Reduce

  /** The work left with a rank: a count under way to its parent and a queued count weigh by
      how far they still have to go. */
  ghost function Load(t: Tree, n: Node, r: nat): int
    requires Topology.Valid(t) && r < Size(t)
  {
    (|n.log| - n.taken) * (2 * Depth(t, r)) + if n.red.queue > 0 then 2 * Depth(t, r) + 1 else 0
  }

  ghost function Loads(t: Tree, nodes: seq<Node>, k: nat): int
    requires Topology.Valid(t) && k <= |nodes| && k <= Size(t)
  {
    if k == 0 then 0 else Loads(t, nodes, k - 1) + Load(t, nodes[k - 1], k - 1)
  }

  lemma {:induction false} LoadsUpdate(t: Tree, nodes: seq<Node>, r: nat, m: Node, k: nat)
    requires Topology.Valid(t) && r < |nodes| && r < Size(t) && k <= |nodes| && k <= Size(t)
    ensures Loads(t, nodes[r := m], k) == Loads(t, nodes, k) + if r < k then Load(t, m, r) - Load(t, nodes[r], r) else 0
  {
    if k > 0 {
      LoadsUpdate(t, nodes, r, m, k - 1);
    }
  }

  lemma {:induction false} LoadsPositive(t: Tree, nodes: seq<Node>, k: nat)
    requires Topology.Valid(t) && k <= |nodes| && k <= Size(t)
    requires forall i | 0 <= i < k :: nodes[i].taken <= |nodes[i].log|
    ensures Loads(t, nodes, k) >= 0
  {
    if k > 0 {
      LoadsPositive(t, nodes, k - 1);
      MulPositive(|nodes[k - 1].log| - nodes[k - 1].taken, 2 * Depth(t, k - 1));
    }
  }

  lemma MulPositive(a: int, b: int)
    requires a >= 0 && b >= 0
    ensures a * b >= 0
  {
  }

  lemma MulMore(a: int, b: int)
    ensures (a + 1) * b == a * b + b
  {
  }

  /** When something is passed on, nothing stays queued. */
  lemma OutEmpties(s: R.State, op: R.Op)
    requires R.Inv(s) && s.batch == 0 && R.OpOk(s, op) && (op.Append? ==> op.batch == 0)
    ensures var r := R.Apply(s, op);
      && (r.out != [] ==> r.state.queue == 0)
      && (op.Timer? ==> s.queue > 0 && |r.out| == 1)
  {
  }

  /** An operation adds at most what it takes to queue one more count, and a timer takes off. */
  lemma WorkedLoad(t: Tree, n: Node, op: R.Op, r: nat)
    requires Topology.Valid(t) && r < Size(t) && NodeOk(n) && HelloOp(n, op)
    ensures op.Append? ==> Load(t, Worked(n, op), r) <= Load(t, n, r) + 2 * Depth(t, r) + 1
    ensures op.Timer? ==> Load(t, Worked(n, op), r) < Load(t, n, r)
  {
    OneOut(n.red, op);
    OutEmpties(n.red, op);
    MulMore(|n.log| - n.taken, 2 * Depth(t, r));
  }

  /** At rank 0 counts under way weigh nothing. */
  lemma RootLoad(t: Tree, n: Node, k: nat)
    requires Topology.Valid(t) && Size(t) > 0
    ensures Load(t, n.(taken := k), 0) == Load(t, n, 0)
  {
  }

  lemma PerformLoads(t: Tree, s: Sys, r: nat, op: R.Op)
    requires Topology.Valid(t) && |s.nodes| == Size(t) && r < Size(t) && NodeOk(s.nodes[r]) && HelloOp(s.nodes[r], op)
    ensures var u := Perform(s, r, op);
      && |u.nodes| == Size(t)
      && Loads(t, u.nodes, Size(t)) - Loads(t, s.nodes, Size(t))
         == Load(t, Worked(s.nodes[r], op), r) - Load(t, s.nodes[r], r)
  {
    NodeStep(s.nodes[r], op);
    var m := Worked(s.nodes[r], op);
    if r == 0 {
      RootLoad(t, m, |m.log|);
      m := m.(taken := |m.log|);
      SunkIs(s.(nodes := s.nodes[r := m]), Emitted(s.nodes[r], op));
    }
    LoadsUpdate(t, s.nodes, r, m, Size(t));
  }

  lemma JoinDescends(t: Tree, s: Sys, c: nat)
    requires Sound(t, s) && Enabled(t, s, Join(c))
    ensures |Next(t, s, Join(c)).nodes| == Size(t)
    ensures Loads(t, Next(t, s, Join(c)).nodes, Size(t)) < Loads(t, s.nodes, Size(t))
  {
    var n, p := s.nodes[c], t.parent[c];
    JoinOwes(t, s, c);
    var m := n.(taken := n.taken + 1);
    var w := s.(nodes := s.nodes[c := m]);
    assert LocalOk(t, s, 0, 0, p);
    LoadsUpdate(t, s.nodes, c, m, Size(t));
    MulMore(|m.log| - m.taken, 2 * Depth(t, c));
    WorkedLoad(t, w.nodes[p], R.Append(n.log[n.taken], 0), p);
    PerformLoads(t, w, p, R.Append(n.log[n.taken], 0));
  }

  lemma TimerDescends(t: Tree, s: Sys, r: nat)
    requires Sound(t, s) && Enabled(t, s, Timer(r))
    ensures |Next(t, s, Timer(r)).nodes| == Size(t)
    ensures Loads(t, Next(t, s, Timer(r)).nodes, Size(t)) < Loads(t, s.nodes, Size(t))
  {
    assert LocalOk(t, s, 0, 0, r);
    WorkedLoad(t, s.nodes[r], R.Op.Timer, r);
    PerformLoads(t, s, r, R.Op.Timer);
  }

  ghost predicate AllStarted(s: Sys) {
    forall r | 0 <= r < |s.nodes| :: s.nodes[r].started
  }

  lemma PerformStarted(s: Sys, q: nat, op: R.Op)
    requires q < |s.nodes| && NodeOk(s.nodes[q]) && HelloOp(s.nodes[q], op)
    ensures |Perform(s, q, op).nodes| == |s.nodes|
    ensures forall r | 0 <= r < |s.nodes| :: Perform(s, q, op).nodes[r].started == s.nodes[r].started
  {
    NodeStep(s.nodes[q], op);
    if q == 0 {
      var m := Worked(s.nodes[q], op);
      SunkIs(s.(nodes := s.nodes[q := m.(taken := |m.log|)]), Emitted(s.nodes[q], op));
    }
  }

  /** When all have started, a step takes off some of the work left, and all stay started. */
  lemma StepDescends(t: Tree, s: Sys, a: Action)
    requires Sound(t, s) && Enabled(t, s, a) && AllStarted(s)
    ensures var u := Next(t, s, a);
      Sound(t, u) && AllStarted(u) && 0 <= Loads(t, u.nodes, Size(t)) < Loads(t, s.nodes, Size(t))
  {
    NextSound(t, s, a);
    LoadsNotNegative(t, Next(t, s, a));
    match a
    case Join(c) =>
      JoinDescends(t, s, c);
      JoinOwes(t, s, c);
      assert LocalOk(t, s, 0, 0, t.parent[c]);
      var n := s.nodes[c];
      PerformStarted(s.(nodes := s.nodes[c := n.(taken := n.taken + 1)]), t.parent[c], R.Append(n.log[n.taken], 0));
    case Timer(r) =>
      TimerDescends(t, s, r);
      assert LocalOk(t, s, 0, 0, r);
      PerformStarted(s, r, R.Op.Timer);
  }

  lemma LoadsNotNegative(t: Tree, s: Sys)
    requires Sound(t, s)
    ensures Loads(t, s.nodes, Size(t)) >= 0
  {
    forall i | 0 <= i < Size(t) ensures s.nodes[i].taken <= |s.nodes[i].log| {
      assert LocalOk(t, s, 0, 0, i);
    }
    LoadsPositive(t, s.nodes, Size(t));
  }

  /** Unless everything is quiet, a join can be taken or a timer can fire. */
  lemma CanMove(t: Tree, s: Sys) returns (a: Action)
    requires Sound(t, s) && AllStarted(s) && !Quiescent(s)
    ensures Enabled(t, s, a) && !a.Start?
  {
    var i :| 0 <= i < |s.nodes| && !(s.nodes[i].taken == |s.nodes[i].log| && !s.nodes[i].red.armed);
    assert LocalOk(t, s, 0, 0, i);
    a := if s.nodes[i].red.armed then Timer(i) else Join(i);
  }

  /** After the last start no run goes on for longer than the work left then. */
  lemma {:induction false} ComesToRest(t: Tree, setup: seq<Setup>, h: Run, i: nat, j: nat)
    requires IsRun(t, setup, h) && i <= j < |h.states| && AllStarted(h.states[i])
    ensures AllStarted(h.states[j]) && |h.states[i].nodes| == |h.states[j].nodes| == Size(t)
    ensures 0 <= Loads(t, h.states[j].nodes, Size(t)) <= Loads(t, h.states[i].nodes, Size(t)) - (j - i)
    decreases j
  {
    RunKeeps(t, setup, h, j);
    RunKeeps(t, setup, h, i);
    LoadsNotNegative(t, h.states[j]);
    if i < j {
      ComesToRest(t, setup, h, i, j - 1);
      RunKeeps(t, setup, h, j - 1);
      StepDescends(t, h.states[j - 1], h.actions[j - 1]);
    }
  }

  lemma Extend(t: Tree, setup: seq<Setup>, h: Run, a: Action) returns (h': Run)
    requires IsRun(t, setup, h) && Enabled(t, h.states[|h.actions|], a)
    ensures h' == Run(h.states + [Next(t, h.states[|h.actions|], a)], h.actions + [a]) && IsRun(t, setup, h')
  {
    h' := Run(h.states + [Next(t, h.states[|h.actions|], a)], h.actions + [a]);
  }

  /** And every run in which all have started can be continued until everything is quiet. */
  lemma {:induction false} GetsQuiet(t: Tree, setup: seq<Setup>, h: Run, work: nat) returns (h': Run)
    requires IsRun(t, setup, h) && |h.states[|h.actions|].nodes| == Size(t) && AllStarted(h.states[|h.actions|])
    requires Loads(t, h.states[|h.actions|].nodes, Size(t)) <= work
    ensures IsRun(t, setup, h') && h.states <= h'.states && h.actions <= h'.actions
    ensures Quiescent(h'.states[|h'.actions|]) && |h'.actions| <= |h.actions| + work
    decreases work
  {
    var s := h.states[|h.actions|];
    RunKeeps(t, setup, h, |h.actions|);
    if Quiescent(s) {
      h' := h;
    } else {
      var a := CanMove(t, s);
      StepDescends(t, s, a);
      h' := Extend(t, setup, h, a);
      h' := GetsQuiet(t, setup, h', work - 1);
    }
  }

  /** So the session completes: every run in which all have started, and every rank has a
      timeout or a mark that its subtree can reach, can be continued until rank 0 has counted
      all ranks and has set run level 1 once. */
  lemma HelloCompletes(t: Tree, setup: seq<Setup>, h: Run) returns (h': Run)
    requires IsRun(t, setup, h) && AllStarted(h.states[|h.actions|])
    requires forall r | 0 <= r < Size(t) :: Modest(t, setup[r], r)
    ensures IsRun(t, setup, h') && h.states <= h'.states && h.actions <= h'.actions
    ensures h'.states[|h'.actions|].count == Size(t) && h'.states[|h'.actions|].runs == 1
  {
    RunKeeps(t, setup, h, |h.actions|);
    LoadsNotNegative(t, h.states[|h.actions|]);
    h' := GetsQuiet(t, setup, h, Loads(t, h.states[|h.actions|].nodes, Size(t)));
    CompletesIff(t, setup, h', |h'.actions|);
    HelloConserves(t, setup, h', |h'.actions|);
  }
}
