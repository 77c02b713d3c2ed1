/** What holds in any traffic: every request is answered once, by the right rank, with the
    stack it started with, after a bounded number of moves; and requests from one rank to
    another arrive in the order in which they were sent. */
module TrafficRuns {
  import opened Basics
  import opened Topology
  import opened Routing
  import opened Traffic

  datatype Run = Run(states: seq<Net>, actions: seq<Action>)

  ghost predicate IsRun(env: Env, run: Run) {
    && EnvOk(env) && |run.states| == |run.actions| + 1 && run.states[0] == Net(map[], map[], map[], [], [])
    && forall i | 0 <= i < |run.actions| :: StepAt(env, run, i)
  }

  ghost predicate StepAt(env: Env, run: Run, i: nat)
    requires i < |run.actions| && |run.states| == |run.actions| + 1
  {
    Follows(env, run.states[i], run.actions[i], run.states[i + 1])
  }

  ghost predicate Follows(env: Env, net: Net, a: Action, net': Net) {
    Enabled(env, net, a) && net' == Next(env, net, a)
  }

  lemma InitialSound(env: Env)
    requires EnvOk(env)
    ensures Sound(env, Net(map[], map[], map[], [], []))
  {
  }

  lemma {:induction false} FollowsSound(env: Env, net: Net, a: Action, net': Net)
    requires Sound(env, net) && Follows(env, net, a, net')
    ensures Sound(env, net')
  {
    NextSound(env, net, a);
  }

  lemma {:induction false} RunSound(env: Env, run: Run, i: nat)
    requires IsRun(env, run) && i < |run.states|
    ensures Sound(env, run.states[i])
  {
    if i == 0 {
      InitialSound(env);
    } else {
      RunSound(env, run, i - 1);
      assert StepAt(env, run, i - 1);
      FollowsSound(env, run.states[i - 1], run.actions[i - 1], run.states[i]);
    }
  }

  // ---------------------------------------------------------------- the trip of one request

  /** How many moves a request takes until its answer is back, and the answer. */
  datatype Trip = Trip(moves: nat, answer: Place)

  /** A request as the broker makes them: for a rank, for whoever is nearest, or upstream
      from the sender. */
  ghost predicate Proper(env: Env, o: Origin) {
    && OriginOk(env, o) && HomeOk(env, o.src, o.msg.route)
    && (o.msg.nodeid.Any? || !o.msg.upstream || o.msg.nodeid == Node(o.src))
  }

  ghost function NearestTrip(env: Env, o: Origin, r: nat): Trip
    requires Proper(env, o) && r < Size(env.tree)
  {
    NearestIs(env, r, o.msg.topic);
    match Nearest(env, r, o.msg.topic)
    case Some(n) => Trip(2 * Distance(env.tree, o.src, n) + 1, Back(o.src, o.msg.route, None, n))
    case None => Trip(2 * Distance(env.tree, o.src, 0), Back(o.src, o.msg.route, Some(ENOSYS), 0))
  }

  ghost function TripOf(env: Env, o: Origin): Trip
    requires Proper(env, o)
  {
    var t, m := env.tree, o.msg;
    if m.nodeid.Any? then NearestTrip(env, o, o.src)
    else if m.upstream then
      if o.src == 0 then Trip(0, Back(0, m.route, Some(EHOSTUNREACH), 0))
      else NearestTrip(env, o, t.parent[o.src])
    else
      var d := m.nodeid.rank;
      if d >= Size(t) then Trip(2 * Distance(t, o.src, 0), Back(o.src, m.route, Some(EHOSTUNREACH), 0))
      else if Serves(env, d, m.topic) then Trip(2 * Distance(t, o.src, d) + 1, Back(o.src, m.route, None, d))
      else Trip(2 * Distance(t, o.src, d), Back(o.src, m.route, Some(ENOSYS), d))
  }

  lemma AnyEnds(env: Env, o: Origin)
    requires Proper(env, o) && o.msg.nodeid.Any?
    ensures var trip := NearestTrip(env, o, o.src); Spot(env, o, trip.moves) == trip.answer
  {
    AnyRoundTrip(env, o.src, o.msg);
    NearestIs(env, o.src, o.msg.topic);
  }

  lemma UpstreamEnds(env: Env, o: Origin)
    requires Proper(env, o) && o.msg.upstream && o.msg.nodeid == Node(o.src)
    ensures o.src == 0 ==> Spot(env, o, 0) == Back(0, o.msg.route, Some(EHOSTUNREACH), 0)
    ensures o.src > 0 ==>
      var trip := NearestTrip(env, o, env.tree.parent[o.src]); Spot(env, o, trip.moves) == trip.answer
  {
    UpstreamRoundTrip(env, o.src, o.msg);
    if o.src > 0 {
      NearestIs(env, env.tree.parent[o.src], o.msg.topic);
    }
  }

  lemma TripEnds(env: Env, o: Origin)
    requires Proper(env, o)
    ensures Spot(env, o, TripOf(env, o).moves) == TripOf(env, o).answer
  {
    var m := o.msg;
    if m.nodeid.Any? {
      AnyEnds(env, o);
    } else if m.upstream {
      UpstreamEnds(env, o);
    } else if m.nodeid.rank >= Size(env.tree) {
      StrayRoundTrip(env, o.src, m);
    } else {
      NodeRoundTrip(env, o.src, m.nodeid.rank, m);
    }
  }

  lemma {:induction false} Stays(env: Env, p: Place, n: nat)
    requires EnvOk(env) && (p.Back? || p.Lost?)
    ensures After(env, p, n) == p
    decreases n
  {
    if n > 0 {
      Stays(env, p, n - 1);
    }
  }

  /** Before the end of its trip a request is under way or held, and from then on its answer
      is back; it is never lost and never answered otherwise. */
  lemma TripPlace(env: Env, o: Origin, n: nat)
    requires Proper(env, o)
    ensures var p, trip := Spot(env, o, n), TripOf(env, o);
      && !p.Lost? && (p.Back? ==> p == trip.answer) && (n >= trip.moves ==> p == trip.answer)
  {
    var start, trip := HandleRequest(env, o.src, o.msg), TripOf(env, o);
    TripEnds(env, o);
    if n >= trip.moves {
      AfterAfter(env, start, trip.moves, n - trip.moves);
      Stays(env, trip.answer, n - trip.moves);
    } else {
      AfterAfter(env, start, n, trip.moves - n);
      if Spot(env, o, n).Back? || Spot(env, o, n).Lost? {
        Stays(env, Spot(env, o, n), trip.moves - n);
      }
    }
  }

  // ---------------------------------------------------------------- any traffic

  /** In every state of every run, an answer that has come back is the answer to the request:
      on the sender's rank, with exactly the sender's stack, from the rank that should serve
      it.  And a request that is not answered is in a queue or with a service. */
  lemma AnswersRight(env: Env, run: Run, i: nat, id: nat)
    requires IsRun(env, run) && i < |run.states| && id < |run.states[i].sent| && Proper(env, run.states[i].sent[id])
    ensures var net := run.states[i];
      if id in net.back then net.back[id] == TripOf(env, net.sent[id]).answer && id !in net.held
      else id in net.held || exists l, k :: l in net.links && 0 <= k < |net.links[l]| && net.links[l][k].id == id
  {
    var net := run.states[i];
    RunSound(env, run, i);
    TripPlace(env, net.sent[id], net.moves[id]);
    var p := Where(env, net)[id];
    assert Found(net, id, p);
    if p.Wire? {
      var q := Queue(net, Link(p.from, p.to));
      var k :| 0 <= k < |q| && q[k] == Item(id, p.msg);
      assert Link(p.from, p.to) in net.links && net.links[Link(p.from, p.to)][k].id == id;
    }
  }

  predicate Drained(net: Net) {
    net.held == map[] && forall l <- net.links :: net.links[l] == []
  }

  /** When the queues are empty and no service holds a request, every request has its answer. */
  lemma AllAnswered(env: Env, run: Run, i: nat, id: nat)
    requires IsRun(env, run) && i < |run.states| && id < |run.states[i].sent| && Proper(env, run.states[i].sent[id])
    requires Drained(run.states[i])
    ensures id in run.states[i].back && run.states[i].back[id] == TripOf(env, run.states[i].sent[id]).answer
  {
    AnswersRight(env, run, i, id);
  }

  /** The message that an action moves. */
  function Mover(net: Net, a: Action): Option<nat> {
    match a
    case Send(_) => None
    case Deliver(l) => if Queue(net, l) != [] then Some(Queue(net, l)[0].id) else None
    case Respond(id) => Some(id)
  }

  /** Only a message that is under way or held moves. */
  lemma MoverWaits(env: Env, net: Net, a: Action)
    requires Sound(env, net) && Enabled(env, net, a) && !a.Send?
    ensures Mover(net, a).Some? && Mover(net, a).value < |net.sent|
    ensures var p := Where(env, net)[Mover(net, a).value]; p.Wire? || p.Held?
  {
    if a.Deliver? {
      PopTracks(net, Where(env, net), a.link);
    }
  }

  lemma PutCounts(net: Net, id: nat, p: Place)
    ensures PutAt(net, id, p).sent == net.sent && PutAt(net, id, p).moves == net.moves
  {
  }

  /** What an action does to the counts. */
  ghost predicate Counted(net: Net, a: Action, net': Net) {
    match Mover(net, a)
    case None => a.Send? && net'.sent == net.sent + [a.origin] && net'.moves == net.moves + [0]
    case Some(x) =>
      x < |net.moves| && net'.sent == net.sent && net'.moves == net.moves[x := net.moves[x] + 1]
  }

  lemma SendCounts(net: Net, o: Origin, p: Place)
    ensures Counted(net, Send(o), PutAt(net.(sent := net.sent + [o], moves := net.moves + [0]), |net.sent|, p))
  {
    PutCounts(net.(sent := net.sent + [o], moves := net.moves + [0]), |net.sent|, p);
  }

  lemma MoveCounts(net: Net, a: Action, rest: Net, x: nat, p: Place)
    requires Mover(net, a) == Some(x) && x < |net.moves| && rest.sent == net.sent && rest.moves == net.moves
    ensures Counted(net, a, PutAt(Moved(rest, x), x, p))
  {
    PutCounts(Moved(rest, x), x, p);
  }

  lemma NextCounts(env: Env, net: Net, a: Action)
    requires Sound(env, net) && Enabled(env, net, a)
    ensures Counted(net, a, Next(env, net, a))
  {
    match a
    case Send(o) => SendCounts(net, o, HandleRequest(env, o.src, o.msg));
    case Deliver(l) =>
      MoverWaits(env, net, a);
      var item := Queue(net, l)[0];
      MoveCounts(net, a, Popped(net, l), item.id, Advance(env, Wire(l.from, l.to, item.msg)));
    case Respond(id) =>
      MoverWaits(env, net, a);
      MoveCounts(net, a, Taken(net, id), id, Advance(env, net.held[id]));
  }

  lemma {:induction false} RunCounts(env: Env, run: Run, i: nat)
    requires IsRun(env, run) && i < |run.actions|
    ensures Counted(run.states[i], run.actions[i], run.states[i + 1])
    ensures !run.actions[i].Send? <==> Mover(run.states[i], run.actions[i]).Some?
  {
    RunSound(env, run, i);
    assert StepAt(env, run, i);
    NextCounts(env, run.states[i], run.actions[i]);
  }

  lemma MoverEarly(env: Env, run: Run, i: nat, id: nat)
    requires IsRun(env, run) && i < |run.actions| && Mover(run.states[i], run.actions[i]) == Some(id)
    requires id < |run.states[i].sent| && Proper(env, run.states[i].sent[id])
    ensures id < |run.states[i].moves| && run.states[i].moves[id] < TripOf(env, run.states[i].sent[id]).moves
  {
    RunSound(env, run, i);
    assert StepAt(env, run, i);
    MoverWaits(env, run.states[i], run.actions[i]);
    TripPlace(env, run.states[i].sent[id], run.states[i].moves[id]);
  }

  lemma {:induction false} SentStays(env: Env, run: Run, i: nat, id: nat)
    requires IsRun(env, run) && i < |run.actions| && id < |run.states[i].sent|
    ensures id < |run.states[i + 1].sent| && run.states[i + 1].sent[id] == run.states[i].sent[id]
    ensures id < |run.states[i].moves| && id < |run.states[i + 1].moves|
    ensures run.states[i + 1].moves[id]
         == run.states[i].moves[id] + if Mover(run.states[i], run.actions[i]) == Some(id) then 1 else 0
  {
    RunSound(env, run, i);
    RunCounts(env, run, i);
  }

  lemma {:induction false} CountsAgree(env: Env, run: Run, i: nat)
    requires IsRun(env, run) && i < |run.states|
    ensures |run.states[i].moves| == |run.states[i].sent|
  {
    RunSound(env, run, i);
  }

  /** No request moves more often than its trip takes. */
  lemma {:induction false} MovesBounded(env: Env, run: Run, i: nat, id: nat)
    requires IsRun(env, run) && i < |run.states| && id < |run.states[i].sent| && Proper(env, run.states[i].sent[id])
    ensures |run.states[i].moves| == |run.states[i].sent|
    ensures run.states[i].moves[id] <= TripOf(env, run.states[i].sent[id]).moves
  {
    CountsAgree(env, run, i);
    if i > 0 {
      if id < |run.states[i - 1].sent| {
        SentStays(env, run, i - 1, id);
        MovesBounded(env, run, i - 1, id);
        if Mover(run.states[i - 1], run.actions[i - 1]) == Some(id) {
          MoverEarly(env, run, i - 1, id);
        }
      } else {
        NewcomerRests(env, run, i - 1, id);
      }
    }
  }

  lemma {:induction false} NewcomerRests(env: Env, run: Run, i: nat, id: nat)
    requires IsRun(env, run) && i < |run.actions| && |run.states[i].sent| <= id < |run.states[i + 1].sent|
    ensures id < |run.states[i + 1].moves| && run.states[i + 1].moves[id] == 0
  {
    RunSound(env, run, i);
    RunCounts(env, run, i);
  }

  function Sum(s: seq<nat>): nat {
    if s == [] then 0 else Sum(s[..|s| - 1]) + s[|s| - 1]
  }

  lemma {:induction false} SumUpdate(s: seq<nat>, i: nat, v: nat)
    requires i < |s|
    ensures Sum(s[i := v]) == Sum(s) - s[i] + v
  {
    var n := |s| - 1;
    if i < n {
      SumUpdate(s[..n], i, v);
      assert s[i := v][..n] == s[..n][i := v];
    } else {
      assert s[i := v][..n] == s[..n];
    }
  }

  ghost function Trips(env: Env, sent: seq<Origin>): seq<nat>
    requires forall id | 0 <= id < |sent| :: Proper(env, sent[id])
  {
    seq(|sent|, id requires 0 <= id < |sent| => TripOf(env, sent[id]).moves)
  }

  lemma {:induction false} SumBelow(s: seq<nat>, t: seq<nat>)
    requires |s| == |t| && forall i | 0 <= i < |s| :: s[i] <= t[i]
    ensures Sum(s) <= Sum(t)
  {
    if s != [] {
      SumBelow(s[..|s| - 1], t[..|t| - 1]);
    }
  }

  /** The deliveries and answers among the first i actions. */
  function Work(run: Run, i: nat): nat
    requires i <= |run.actions|
  {
    if i == 0 then 0 else Work(run, i - 1) + Bit(!run.actions[i - 1].Send?)
  }

  lemma SumCounted(net: Net, a: Action, net': Net)
    requires Counted(net, a, net')
    ensures Sum(net'.moves) == Sum(net.moves) + Bit(Mover(net, a).Some?)
  {
    var x := Mover(net, a);
    if x.Some? {
      SumUpdate(net.moves, x.value, net.moves[x.value] + 1);
    } else {
      assert (net.moves + [0])[..|net.moves|] == net.moves;
    }
  }

  lemma {:induction false} WorkIsMoves(env: Env, run: Run, i: nat)
    requires IsRun(env, run) && i < |run.states|
    ensures Work(run, i) == Sum(run.states[i].moves)
  {
    if i > 0 {
      WorkIsMoves(env, run, i - 1);
      RunCounts(env, run, i - 1);
      SumCounted(run.states[i - 1], run.actions[i - 1], run.states[i]);
    }
  }

  /** Traffic drains: as long as something is under way a delivery or an answer is possible,
      and there can be no more of them than the trips of the requests sent take together. */
  lemma TrafficDrains(env: Env, run: Run, i: nat)
    requires IsRun(env, run) && i < |run.states|
    requires forall id | 0 <= id < |run.states[i].sent| :: Proper(env, run.states[i].sent[id])
    ensures Work(run, i) <= Sum(Trips(env, run.states[i].sent))
    ensures Drained(run.states[i]) || exists a: Action :: !a.Send? && Enabled(env, run.states[i], a)
  {
    var net := run.states[i];
    RunSound(env, run, i);
    forall id | 0 <= id < |net.sent| ensures net.moves[id] <= Trips(env, net.sent)[id] {
      MovesBounded(env, run, i, id);
    }
    WorkIsMoves(env, run, i);
    SumBelow(net.moves, Trips(env, net.sent));
    if id :| id in net.held {
      assert Enabled(env, net, Respond(id));
    } else if l :| l in net.links && net.links[l] != [] {
      PopTracks(net, Where(env, net), l);
      assert Enabled(env, net, Deliver(l));
    }
  }

  // ---------------------------------------------------------------- first come, first served

  /** The rank that a request from r to d has reached after n hops. */
  ghost function HopAt(t: Tree, r: nat, d: nat, n: nat): (h: nat)
    requires Topology.Valid(t) && r < Size(t) && d < Size(t)
    ensures h < Size(t)
    decreases n
  {
    if n == 0 || r == d then r else HopAt(t, NextHop(t, r, d), d, n - 1)
  }

  /** On its way to d a request is on the links of the tree path, one after the other. */
  lemma {:induction false} OnPath(env: Env, r: nat, m: Msg, d: nat, n: nat)
    requires EnvOk(env) && r < Size(env.tree) && d < Size(env.tree) && n < Distance(env.tree, r, d)
    requires m.Request? && m.nodeid == Node(d) && !m.upstream
    ensures var p := After(env, HandleRequest(env, r, m), n);
      p.Wire? && p.from == HopAt(env.tree, r, d, n) && p.to == HopAt(env.tree, r, d, n + 1)
    decreases n
  {
    DistanceZero(env.tree, r, d);
    HopNearer(env.tree, r, d);
    var next := NextHop(env.tree, r, d);
    if n == 0 {
      FirstHop(env, r, m, d);
      assert HopAt(env.tree, r, d, 1) == HopAt(env.tree, next, d, 0);
    } else {
      RequestHop(env, r, m, d);
      OnPath(env, next, Push(m, Rank(r)), d, n - 1);
    }
  }

  lemma FirstHop(env: Env, r: nat, m: Msg, d: nat)
    requires EnvOk(env) && r < Size(env.tree) && d < Size(env.tree) && r != d
    requires m.Request? && m.nodeid == Node(d) && !m.upstream
    ensures var p := HandleRequest(env, r, m); p.Wire? && p.from == r && p.to == NextHop(env.tree, r, d)
  {
    RootAbove(env.tree, d);
  }
}
