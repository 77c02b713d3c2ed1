/** Requests that one rank sends to another arrive in the order in which they were sent,
    whatever other traffic shares the links of their path. */
module TrafficOrder {
  import opened Basics
  import opened Topology
  import opened Routing
  import opened Traffic
  import opened TrafficRuns

  /** A request from src to rank d. */
  ghost predicate Bound(env: Env, o: Origin, src: nat, d: nat) {
    && OriginOk(env, o) && d < Size(env.tree)
    && o.src == src && o.msg.nodeid == Node(d) && !o.msg.upstream
  }

  /** The link that such a request is on after n moves. */
  ghost function LinkAt(env: Env, src: nat, d: nat, n: nat): Link
    requires EnvOk(env) && src < Size(env.tree) && d < Size(env.tree)
  {
    Link(HopAt(env.tree, src, d, n), HopAt(env.tree, src, d, n + 1))
  }

  ghost predicate Before(q: seq<Item>, x: nat, y: nat) {
    forall i, j | 0 <= i < |q| && 0 <= j < |q| && q[i].id == x && q[j].id == y :: i < j
  }

  /** x has arrived, or is further on than y, or is before it on the same link. */
  ghost predicate Ahead(env: Env, net: Net, x: nat, y: nat, src: nat, d: nat)
    requires EnvOk(env) && src < Size(env.tree) && d < Size(env.tree)
    requires x < |net.moves| && y < |net.moves|
  {
    || net.moves[x] >= Distance(env.tree, src, d)
    || net.moves[y] < net.moves[x]
    || (net.moves[y] == net.moves[x] && Before(Queue(net, LinkAt(env, src, d, net.moves[x])), x, y))
  }

  // ---------------------------------------------------------------- queues

  /** What an action leaves of a queue before anything is put there. */
  function Left(net: Net, a: Action, l: Link): seq<Item> {
    if a == Deliver(l) && Queue(net, l) != [] then Queue(net, l)[1..] else Queue(net, l)
  }

  /** The message that an action puts somewhere. */
  function Placed(net: Net, a: Action): nat {
    if Mover(net, a).Some? then Mover(net, a).value else |net.sent|
  }

  /** q is left with, possibly, message z put at its end. */
  ghost predicate Grown(q: seq<Item>, left: seq<Item>, z: nat) {
    q == left || (|q| == |left| + 1 && q[..|left|] == left && q[|left|].id == z)
  }

  lemma PutGrows(net: Net, id: nat, p: Place, l: Link)
    ensures Grown(Queue(PutAt(net, id, p), l), Queue(net, l), id)
  {
  }

  lemma NextGrows(env: Env, net: Net, a: Action, l: Link)
    requires Sound(env, net) && Enabled(env, net, a)
    ensures Grown(Queue(Next(env, net, a), l), Left(net, a, l), Placed(net, a))
  {
    match a
    case Send(o) =>
      PutGrows(net.(sent := net.sent + [o], moves := net.moves + [0]), |net.sent|, HandleRequest(env, o.src, o.msg), l);
    case Deliver(k) =>
      var item := Queue(net, k)[0];
      PutGrows(Moved(Popped(net, k), item.id), item.id, Advance(env, Wire(k.from, k.to, item.msg)), l);
    case Respond(id) => PutGrows(Moved(Taken(net, id), id), id, Advance(env, net.held[id]), l);
  }

  /** The message that moves is in no queue any more. */
  lemma PlacedLeft(env: Env, net: Net, a: Action, l: Link, i: nat)
    requires Sound(env, net) && Enabled(env, net, a) && i < |Left(net, a, l)|
    ensures Left(net, a, l)[i].id != Placed(net, a)
  {
    match a
    case Send(_) => assert LinkTracks(net.links[l], l, Where(env, net), -1);
    case Deliver(k) =>
      PopTracks(net, Where(env, net), k);
      assert LinkTracks(Popped(net, k).links[l], l, Where(env, net), Placed(net, a));
    case Respond(id) =>
      TakeTracks(net, Where(env, net), id);
      assert LinkTracks(Taken(net, id).links[l], l, Where(env, net), id);
  }

  /** What is put at the end comes after what was there. */
  lemma LastIsAfter(q: seq<Item>, left: seq<Item>, x: nat, y: nat)
    requires Grown(q, left, y) && x != y && forall i | 0 <= i < |left| :: left[i].id != y
    ensures Before(q, x, y)
  {
    assert forall i | 0 <= i < |left| :: q[i] == left[i];
  }

  /** Taking the head and putting another message at the end keeps the order. */
  lemma OthersKeepOrder(q: seq<Item>, was: seq<Item>, left: seq<Item>, z: nat, x: nat, y: nat)
    requires left == was || (was != [] && left == was[1..])
    requires Grown(q, left, z) && z != x && z != y && Before(was, x, y)
    ensures Before(q, x, y)
  {
    var shift := |was| - |left|;
    forall i, j | 0 <= i < |q| && 0 <= j < |q| && q[i].id == x && q[j].id == y ensures i < j {
      assert i < |left| && j < |left| && q[i] == left[i] && q[j] == left[j];
      assert was[i + shift].id == x && was[j + shift].id == y;
    }
  }

  // ---------------------------------------------------------------- steps

  /** A request that has not arrived is on the link of its path. */
  lemma OnItsLink(env: Env, net: Net, x: nat, src: nat, d: nat)
    requires Sound(env, net) && x < |net.sent| && Bound(env, net.sent[x], src, d)
    requires net.moves[x] < Distance(env.tree, src, d)
    ensures var p := Where(env, net)[x];
      && p.Wire? && Link(p.from, p.to) == LinkAt(env, src, d, net.moves[x])
      && Item(x, p.msg) in Queue(net, Link(p.from, p.to))
  {
    OnPath(env, src, net.sent[x].msg, d, net.moves[x]);
    assert Found(net, x, Where(env, net)[x]);
  }

  /** If y moves while x has not arrived, then y was behind x by more than its place on a link. */
  lemma {:induction false} MoverBehind(env: Env, net: Net, a: Action, x: nat, y: nat, src: nat, d: nat)
    requires Sound(env, net) && Enabled(env, net, a) && x < |net.sent| && y < |net.sent| && Mover(net, a) == Some(y)
    requires Bound(env, net.sent[x], src, d) && Bound(env, net.sent[y], src, d) && Ahead(env, net, x, y, src, d)
    requires net.moves[x] < Distance(env.tree, src, d)
    ensures net.moves[y] < net.moves[x]
  {
    OnItsLink(env, net, x, src, d);
    OnItsLink(env, net, y, src, d);
    if net.moves[y] == net.moves[x] && a.Deliver? {
      PopTracks(net, Where(env, net), a.link);
    }
  }

  lemma {:induction false} AheadStep(env: Env, net: Net, a: Action, x: nat, y: nat, src: nat, d: nat)
    requires Sound(env, net) && Enabled(env, net, a) && x < |net.sent| && y < |net.sent| && x != y
    requires Bound(env, net.sent[x], src, d) && Bound(env, net.sent[y], src, d) && Ahead(env, net, x, y, src, d)
    ensures var net' := Next(env, net, a);
      x < |net'.moves| && y < |net'.moves| && Ahead(env, net', x, y, src, d)
  {
    NextCounts(env, net, a);
    if net.moves[x] < Distance(env.tree, src, d) {
      var l := LinkAt(env, src, d, net.moves[x]);
      NextGrows(env, net, a, l);
      if Mover(net, a) == Some(y) {
        MoverBehind(env, net, a, x, y, src, d);
        forall i | 0 <= i < |Left(net, a, l)| ensures Left(net, a, l)[i].id != y {
          PlacedLeft(env, net, a, l, i);
        }
        LastIsAfter(Queue(Next(env, net, a), l), Left(net, a, l), x, y);
      } else if Mover(net, a) != Some(x) && net.moves[y] == net.moves[x] {
        OthersKeepOrder(Queue(Next(env, net, a), l), Queue(net, l), Left(net, a, l), Placed(net, a), x, y);
      }
    }
  }

  /** A request that is sent now is behind all that were sent before. */
  lemma AheadNew(env: Env, net: Net, o: Origin, x: nat, src: nat, d: nat)
    requires Sound(env, net) && x < |net.sent| && Bound(env, net.sent[x], src, d) && Bound(env, o, src, d)
    ensures var y, net' := |net.sent|, Next(env, net, Send(o));
      y < |net'.moves| && Ahead(env, net', x, y, src, d)
  {
    var y, l := |net.sent|, LinkAt(env, src, d, 0);
    NextCounts(env, net, Send(o));
    NextGrows(env, net, Send(o), l);
    forall i | 0 <= i < |Queue(net, l)| ensures Queue(net, l)[i].id != y {
      PlacedLeft(env, net, Send(o), l, i);
    }
    LastIsAfter(Queue(Next(env, net, Send(o)), l), Queue(net, l), x, y);
  }

  lemma {:induction false} RunAhead(env: Env, run: Run, i: nat, x: nat, y: nat, src: nat, d: nat)
    requires IsRun(env, run) && i < |run.states| && x < y < |run.states[i].sent|
    requires Bound(env, run.states[i].sent[x], src, d) && Bound(env, run.states[i].sent[y], src, d)
    ensures y < |run.states[i].moves| && Ahead(env, run.states[i], x, y, src, d)
  {
    SentGrows(env, run, i);
    if y < |run.states[i - 1].sent| {
      RunAhead(env, run, i - 1, x, y, src, d);
      StaysAhead(env, run, i - 1, x, y, src, d);
    } else {
      StartsBehind(env, run, i - 1, x, src, d);
    }
  }

  /** A request that has been sent was sent by the last action, or before it. */
  lemma SentGrows(env: Env, run: Run, i: nat)
    requires IsRun(env, run) && i < |run.states| && run.states[i].sent != []
    ensures i > 0 && run.states[i - 1].sent <= run.states[i].sent
    ensures |run.states[i - 1].sent| < |run.states[i].sent| ==>
      && |run.states[i].sent| == |run.states[i - 1].sent| + 1 && run.actions[i - 1].Send?
      && run.states[i].sent[|run.states[i - 1].sent|] == run.actions[i - 1].origin
  {
    RunCounts(env, run, i - 1);
  }

  lemma StaysAhead(env: Env, run: Run, i: nat, x: nat, y: nat, src: nat, d: nat)
    requires IsRun(env, run) && i < |run.actions| && x < y < |run.states[i].sent|
    requires Bound(env, run.states[i].sent[x], src, d) && Bound(env, run.states[i].sent[y], src, d)
    requires y < |run.states[i].moves| && Ahead(env, run.states[i], x, y, src, d)
    ensures y < |run.states[i + 1].moves| && Ahead(env, run.states[i + 1], x, y, src, d)
  {
    RunSound(env, run, i);
    assert StepAt(env, run, i);
    AheadStep(env, run.states[i], run.actions[i], x, y, src, d);
  }

  lemma StartsBehind(env: Env, run: Run, i: nat, x: nat, src: nat, d: nat)
    requires IsRun(env, run) && i < |run.actions| && run.actions[i].Send? && x < |run.states[i].sent|
    requires Bound(env, run.states[i].sent[x], src, d) && Bound(env, run.actions[i].origin, src, d)
    ensures |run.states[i].sent| < |run.states[i + 1].moves|
    ensures Ahead(env, run.states[i + 1], x, |run.states[i].sent|, src, d)
  {
    RunSound(env, run, i);
    assert StepAt(env, run, i);
    AheadNew(env, run.states[i], run.actions[i].origin, x, src, d);
  }

  /** First come, first served: of two requests from src to d, the one sent first is the first
      to arrive, in every run. */
  lemma InOrder(env: Env, run: Run, i: nat, x: nat, y: nat, src: nat, d: nat)
    requires IsRun(env, run) && i < |run.states| && x < y < |run.states[i].sent|
    requires Bound(env, run.states[i].sent[x], src, d) && Bound(env, run.states[i].sent[y], src, d)
    ensures |run.states[i].moves| == |run.states[i].sent|
    ensures var hops, moves := Distance(env.tree, src, d), run.states[i].moves;
      moves[y] >= hops ==> moves[x] >= hops
  {
    RunSound(env, run, i);
    RunAhead(env, run, i, x, y, src, d);
  }
}
