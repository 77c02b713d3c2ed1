/** Requests and responses on the overlay.  A rank talks to its parent through a DEALER
    socket and to its children through a ROUTER socket, as in the ROUTER and DEALER sections
    of ZeroMQ RFC 28: a ROUTER pushes the sender's identity on what it receives and pops the
    destination's identity off what it sends.  Requests going down and responses going up use
    these sockets against their grain, and broker.c makes up for it by pushing and popping. */
module Routing {
  import opened Basics
  import opened Topology
  import opened Services

  /** The identity of a broker, which is its rank, or of a module. */
  datatype Frame = Rank(rank: nat) | Peer(uuid: Uuid)

  datatype NodeId = Any | Node(rank: nat)

  /** The route stack has its top at index 0.  server is the rank that made a response. */
  datatype Msg =
    | Request(topic: string, nodeid: NodeId, upstream: bool, route: seq<Frame>)
    | Response(route: seq<Frame>, errno: Option<Errno>, server: nat)

  datatype Provider = Builtin | Module(uuid: Uuid)

  /** For each rank the services by name, and the modules by uuid. */
  datatype Env = Env(tree: Tree, services: seq<map<string, Provider>>, modules: seq<set<Uuid>>)

  ghost predicate EnvOk(env: Env) {
    Valid(env.tree) && |env.services| == Size(env.tree) && |env.modules| == Size(env.tree)
  }

  /** Where a message is: between two brokers, in the hands of a service of a rank, or
      delivered as an answer to a module, or to the broker itself, of a rank. */
  datatype Place =
    | Wire(from: nat, to: nat, msg: Msg)
    | Held(rank: nat, msg: Msg, holder: Provider)
    | Back(rank: nat, route: seq<Frame>, errno: Option<Errno>, server: nat)
    | Lost

  ghost predicate PlaceOk(env: Env, p: Place) {
    match p
    case Wire(from, to, _) => from < Size(env.tree) && to < Size(env.tree)
    case Held(r, m, _) => r < Size(env.tree) && m.Request?
    case _ => true
  }

  function Push(m: Msg, f: Frame): Msg {
    m.(route := [f] + m.route)
  }

  /** Popping an empty stack does nothing. */
  function Pop(m: Msg): Msg {
    m.(route := if m.route == [] then [] else m.route[1..])
  }

  ghost function SendParent(env: Env, r: nat, m: Msg): (p: Place)
    requires EnvOk(env) && 0 < r < Size(env.tree)
    ensures PlaceOk(env, p)
  {
    Wire(r, env.tree.parent[r], m)
  }

  /** A ROUTER sends to the peer named on top of the stack, which it pops. */
  ghost function SendChild(env: Env, r: nat, m: Msg): (p: Place)
    requires EnvOk(env) && r < Size(env.tree)
    ensures PlaceOk(env, p)
  {
    if m.route != [] && m.route[0].Rank? && 0 < m.route[0].rank < Size(env.tree)
       && env.tree.parent[m.route[0].rank] == r
    then Wire(r, m.route[0].rank, Pop(m))
    else Lost
  }

  /** broker_response_sendmsg. */
  ghost function HandleResponse(env: Env, r: nat, m: Msg): (p: Place)
    requires EnvOk(env) && r < Size(env.tree) && m.Response?
    ensures PlaceOk(env, p)
  {
    if m.route == [] then Back(r, [], m.errno, m.server)
    else if r > 0 && m.route[0] == Rank(env.tree.parent[r]) then SendParent(env, r, m)
    else if m.route[0].Peer? && m.route[0].uuid in env.modules[r] then Back(r, m.route, m.errno, m.server)
    else SendChild(env, r, m)
  }

  function Answer(r: nat, m: Msg, errno: Option<Errno>): Msg {
    Response(m.route, errno, r)
  }

  ghost predicate Serves(env: Env, r: nat, topic: string)
    requires EnvOk(env) && r < Size(env.tree)
  {
    FirstWord(topic) in env.services[r]
  }

  /** service_send hands a request to the broker or, like a DEALER, to a module. */
  ghost function Serve(env: Env, r: nat, m: Msg): (p: Place)
    requires EnvOk(env) && r < Size(env.tree) && m.Request? && Serves(env, r, m.topic)
    ensures PlaceOk(env, p)
  {
    var provider := env.services[r][FirstWord(m.topic)];
    Held(r, if provider.Builtin? then m else Push(m, Rank(r)), provider)
  }

  /** Serve here or ask the parent; rank 0 has no parent to ask. */
  ghost function ServeOrAscend(env: Env, r: nat, m: Msg): (p: Place)
    requires EnvOk(env) && r < Size(env.tree) && m.Request?
    ensures PlaceOk(env, p)
  {
    if Serves(env, r, m.topic) then Serve(env, r, m)
    else if r > 0 then SendParent(env, r, m)
    else HandleResponse(env, r, Answer(r, m, Some(ENOSYS)))
  }

  ghost function Ascend(env: Env, r: nat, m: Msg): (p: Place)
    requires EnvOk(env) && r < Size(env.tree) && m.Request?
    ensures PlaceOk(env, p)
  {
    if r > 0 then SendParent(env, r, m) else HandleResponse(env, r, Answer(r, m, Some(EHOSTUNREACH)))
  }

  /** broker_request_sendmsg: an error is answered from here. */
  ghost function HandleRequest(env: Env, r: nat, m: Msg): (p: Place)
    requires EnvOk(env) && r < Size(env.tree) && m.Request?
    ensures PlaceOk(env, p)
  {
    if m.upstream && m.nodeid == Node(r) then Ascend(env, r, m)
    else if m.upstream || m.nodeid.Any? then ServeOrAscend(env, r, m)
    else if m.nodeid.rank == r then
      if Serves(env, r, m.topic) then Serve(env, r, m)
      else HandleResponse(env, r, Answer(r, m, Some(ENOSYS)))
    else if m.nodeid.rank < Size(env.tree) && Below(env.tree, r, m.nodeid.rank) then
      SendChild(env, r, Push(Push(m, Rank(r)), Rank(ChildToward(env.tree, r, m.nodeid.rank))))
    else Ascend(env, r, m)
  }

  /** child_cb on the ROUTER side, parent_cb on the DEALER side. */
  ghost function Receive(env: Env, from: nat, to: nat, m: Msg): (p: Place)
    requires EnvOk(env) && to < Size(env.tree) && from < Size(env.tree)
    ensures PlaceOk(env, p)
  {
    if 0 < from && env.tree.parent[from] == to then
      var got := Push(m, Rank(from));
      if m.Request? then HandleRequest(env, to, got) else HandleResponse(env, to, Pop(Pop(got)))
    else if m.Request? then HandleRequest(env, to, m) else HandleResponse(env, to, m)
  }

  /** A service answers; what a module sends passes module_recvmsg, which pops. */
  ghost function Reply(env: Env, r: nat, m: Msg, holder: Provider): (p: Place)
    requires EnvOk(env) && r < Size(env.tree) && m.Request?
    ensures PlaceOk(env, p)
  {
    HandleResponse(env, r, if holder.Module? then Pop(Answer(r, m, None)) else Answer(r, m, None))
  }

  /** The next thing that happens to a message. */
  ghost function Advance(env: Env, p: Place): (p': Place)
    requires EnvOk(env) && PlaceOk(env, p)
    ensures PlaceOk(env, p')
  {
    match p
    case Wire(from, to, m) => Receive(env, from, to, m)
    case Held(r, m, holder) => Reply(env, r, m, holder)
    case _ => p
  }

  ghost function After(env: Env, p: Place, n: nat): (p': Place)
    requires EnvOk(env) && PlaceOk(env, p)
    ensures PlaceOk(env, p')
    decreases n
  {
    if n == 0 then p else After(env, Advance(env, p), n - 1)
  }

  lemma {:induction false} AfterAfter(env: Env, p: Place, m: nat, n: nat)
    requires EnvOk(env) && PlaceOk(env, p)
    ensures After(env, After(env, p, m), n) == After(env, p, m + n)
    decreases m
  {
    if m > 0 {
      AfterAfter(env, Advance(env, p), m - 1, n);
    }
  }

  // ---------------------------------------------------------------- the way back

  predicate Adjacent(t: Tree, a: nat, b: nat) {
    (0 < a < Size(t) && t.parent[a] == b) || (0 < b < Size(t) && t.parent[b] == a)
  }

  /** A broker sends to its parent and its children only. */
  lemma {:induction false} HopsAreLinks(env: Env, r: nat, m: Msg)
    requires EnvOk(env) && r < Size(env.tree)
    ensures var p := if m.Request? then HandleRequest(env, r, m) else HandleResponse(env, r, m);
      && (p.Wire? ==> p.from == r && Adjacent(env.tree, r, p.to))
      && (p.Held? || p.Back? ==> p.rank == r)
  {
  }

  /** trail leads from r, rank by neighbouring rank, to home. */
  predicate Trail(t: Tree, r: nat, trail: seq<Frame>, home: nat)
    decreases |trail|
  {
    if trail == [] then r == home
    else trail[0].Rank? && trail[0].rank < Size(t) && Adjacent(t, r, trail[0].rank)
         && Trail(t, trail[0].rank, trail[1..], home)
  }

  /** The stack that a request of rank home starts with: empty when the broker itself asks,
      topped by the module's identity when a module asks. */
  ghost predicate HomeOk(env: Env, home: nat, stack: seq<Frame>)
    requires EnvOk(env) && home < Size(env.tree)
  {
    stack == [] || (stack[0].Peer? && stack[0].uuid in env.modules[home])
  }

  /** One hop of a response: from r to the neighbour x on top of its stack. */
  lemma {:induction false} ResponseHop(env: Env, r: nat, x: nat, rest: seq<Frame>, errno: Option<Errno>, server: nat)
    requires EnvOk(env) && r < Size(env.tree) && x < Size(env.tree) && Adjacent(env.tree, r, x)
    ensures Advance(env, HandleResponse(env, r, Response([Rank(x)] + rest, errno, server)))
            == HandleResponse(env, x, Response(rest, errno, server))
  {
    var m := Response([Rank(x)] + rest, errno, server);
    assert Pop(m) == Response(rest, errno, server);
    if r > 0 && env.tree.parent[r] == x {
      assert Pop(Push(m, Rank(r))) == m;
    }
  }

  /** A response retraces any trail of its stack, up or down, and arrives with exactly the
      stack that was below the trail. */
  lemma {:induction false} ResponseRetraces(env: Env, r: nat, trail: seq<Frame>, home: nat, stack: seq<Frame>,
                                            errno: Option<Errno>, server: nat)
    requires EnvOk(env) && r < Size(env.tree) && home < Size(env.tree) && Trail(env.tree, r, trail, home)
    requires HomeOk(env, home, stack)
    ensures After(env, HandleResponse(env, r, Response(trail + stack, errno, server)), |trail|)
            == Back(home, stack, errno, server)
    decreases |trail|
  {
    if trail == [] {
      assert trail + stack == stack;
    } else {
      var x := trail[0].rank;
      assert trail + stack == [Rank(x)] + (trail[1..] + stack);
      ResponseHop(env, r, x, trail[1..] + stack, errno, server);
      ResponseRetraces(env, x, trail[1..], home, stack, errno, server);
    }
  }

  // ---------------------------------------------------------------- the way there

  /** The frames that a request leaves on its stack between r and d. */
  ghost function TrailLeft(t: Tree, r: nat, d: nat): (trail: seq<Frame>)
    requires Valid(t) && r < Size(t) && d < Size(t)
    ensures |trail| == Distance(t, r, d)
    decreases Distance(t, r, d)
  {
    DistanceZero(t, r, d);
    if r == d then [] else
      HopNearer(t, r, d);
      TrailLeft(t, NextHop(t, r, d), d) + [Rank(r)]
  }

  lemma {:induction false} TrailSnoc(t: Tree, r: nat, trail: seq<Frame>, n: nat, home: nat)
    requires Trail(t, r, trail, n) && Adjacent(t, n, home) && home < Size(t)
    ensures Trail(t, r, trail + [Rank(home)], home)
    decreases |trail|
  {
    if trail != [] {
      assert (trail + [Rank(home)])[1..] == trail[1..] + [Rank(home)];
      TrailSnoc(t, trail[0].rank, trail[1..], n, home);
    } else {
      assert (trail + [Rank(home)])[1..] == [];
    }
  }

  lemma {:induction false} TrailLeftOk(t: Tree, r: nat, d: nat)
    requires Valid(t) && r < Size(t) && d < Size(t)
    ensures Trail(t, d, TrailLeft(t, r, d), r)
    decreases Distance(t, r, d)
  {
    DistanceZero(t, r, d);
    if r != d {
      HopNearer(t, r, d);
      var n := NextHop(t, r, d);
      TrailLeftOk(t, n, d);
      RootAbove(t, d);
      TrailSnoc(t, d, TrailLeft(t, n, d), n, r);
    }
  }

  function Routed(m: Msg, trail: seq<Frame>): Msg {
    m.(route := trail + m.route)
  }

  lemma {:induction false} RoutedMore(m: Msg, trail: seq<Frame>, r: nat)
    ensures Routed(Push(m, Rank(r)), trail) == Routed(m, trail + [Rank(r)])
  {
    assert trail + ([Rank(r)] + m.route) == trail + [Rank(r)] + m.route;
  }

  lemma {:induction false} AscendHop(env: Env, r: nat, m: Msg)
    requires EnvOk(env) && 0 < r < Size(env.tree) && m.Request?
    ensures Advance(env, SendParent(env, r, m)) == HandleRequest(env, env.tree.parent[r], Push(m, Rank(r)))
  {
  }

  /** One hop of a request for rank d: nearer by one, with the hop on the stack. */
  lemma {:induction false} RequestHop(env: Env, r: nat, m: Msg, d: nat)
    requires EnvOk(env) && r < Size(env.tree) && d < Size(env.tree) && r != d
    requires m.Request? && m.nodeid == Node(d) && !m.upstream
    ensures Advance(env, HandleRequest(env, r, m)) == HandleRequest(env, NextHop(env.tree, r, d), Push(m, Rank(r)))
  {
    if Below(env.tree, r, d) {
      var c := ChildToward(env.tree, r, d);
      assert Pop(Push(Push(m, Rank(r)), Rank(c))) == Push(m, Rank(r));
    } else {
      RootAbove(env.tree, d);
      AscendHop(env, r, m);
    }
  }

  lemma {:induction false} RequestArrives(env: Env, r: nat, m: Msg, d: nat)
    requires EnvOk(env) && r < Size(env.tree) && d < Size(env.tree)
    requires m.Request? && m.nodeid == Node(d) && !m.upstream
    ensures After(env, HandleRequest(env, r, m), Distance(env.tree, r, d))
            == HandleRequest(env, d, Routed(m, TrailLeft(env.tree, r, d)))
    decreases Distance(env.tree, r, d)
  {
    DistanceZero(env.tree, r, d);
    if r == d {
      assert Routed(m, []) == m;
    } else {
      var n := NextHop(env.tree, r, d);
      HopNearer(env.tree, r, d);
      RequestHop(env, r, m, d);
      AfterAfter(env, HandleRequest(env, r, m), 1, Distance(env.tree, n, d));
      RequestArrives(env, n, Push(m, Rank(r)), d);
      RoutedMore(m, TrailLeft(env.tree, n, d), r);
    }
  }

  /** An answer made on rank d goes back to src with the stack that src started with. */
  lemma {:induction false} AnswerReturns(env: Env, src: nat, d: nat, m: Msg, errno: Option<Errno>)
    requires EnvOk(env) && src < Size(env.tree) && d < Size(env.tree) && m.Request? && HomeOk(env, src, m.route)
    ensures After(env, HandleResponse(env, d, Answer(d, Routed(m, TrailLeft(env.tree, src, d)), errno)),
                  Distance(env.tree, src, d))
            == Back(src, m.route, errno, d)
  {
    TrailLeftOk(env.tree, src, d);
    ResponseRetraces(env, d, TrailLeft(env.tree, src, d), src, m.route, errno, d);
  }

  /** The request m of src is in the hands of the provider that rank d has registered for its
      topic.  It has the hops on its stack, and for a module the rank on top. */
  ghost predicate InHands(env: Env, p: Place, src: nat, d: nat, m: Msg)
    requires EnvOk(env) && src < Size(env.tree) && m.Request?
  {
    && p.Held? && p.rank == d < Size(env.tree) && Serves(env, d, m.topic)
    && p.holder == env.services[d][FirstWord(m.topic)]
    && p.msg == Routed(m, (if p.holder.Module? then [Rank(d)] else []) + TrailLeft(env.tree, src, d))
  }

  lemma {:induction false} ServeHolds(env: Env, src: nat, d: nat, m: Msg)
    requires EnvOk(env) && src < Size(env.tree) && d < Size(env.tree) && m.Request? && Serves(env, d, m.topic)
    ensures InHands(env, Serve(env, d, Routed(m, TrailLeft(env.tree, src, d))), src, d, m)
  {
    var trail := TrailLeft(env.tree, src, d);
    assert [] + trail == trail;
    assert [Rank(d)] + trail + m.route == [Rank(d)] + (trail + m.route);
  }

  /** A service that holds a request answers it towards where it came from. */
  lemma {:induction false} ServeReturns(env: Env, src: nat, d: nat, m: Msg)
    requires EnvOk(env) && src < Size(env.tree) && d < Size(env.tree) && m.Request? && HomeOk(env, src, m.route)
    requires Serves(env, d, m.topic)
    ensures var p := Serve(env, d, Routed(m, TrailLeft(env.tree, src, d)));
      After(env, p, Distance(env.tree, src, d) + 1) == Back(src, m.route, None, d)
  {
    var here := Routed(m, TrailLeft(env.tree, src, d));
    assert Pop(Answer(d, Push(here, Rank(d)), None)) == Answer(d, here, None);
    AfterAfter(env, Serve(env, d, here), 1, Distance(env.tree, src, d));
    AnswerReturns(env, src, d, m, None);
  }

  /** From the moment at which the request is served, or answered by a broker, to the end. */
  lemma {:induction false} ServedTrip(env: Env, p: Place, src: nat, d: nat, m: Msg)
    requires EnvOk(env) && PlaceOk(env, p) && src < Size(env.tree) && d < Size(env.tree)
    requires m.Request? && HomeOk(env, src, m.route) && Serves(env, d, m.topic)
    requires After(env, p, Distance(env.tree, src, d)) == Serve(env, d, Routed(m, TrailLeft(env.tree, src, d)))
    ensures InHands(env, After(env, p, Distance(env.tree, src, d)), src, d, m)
    ensures After(env, p, 2 * Distance(env.tree, src, d) + 1) == Back(src, m.route, None, d)
  {
    var hops := Distance(env.tree, src, d);
    ServeHolds(env, src, d, m);
    ServeReturns(env, src, d, m);
    AfterAfter(env, p, hops, hops + 1);
  }

  lemma {:induction false} RefusedTrip(env: Env, p: Place, src: nat, d: nat, m: Msg, errno: Errno)
    requires EnvOk(env) && PlaceOk(env, p) && src < Size(env.tree) && d < Size(env.tree)
    requires m.Request? && HomeOk(env, src, m.route)
    requires After(env, p, Distance(env.tree, src, d))
             == HandleResponse(env, d, Answer(d, Routed(m, TrailLeft(env.tree, src, d)), Some(errno)))
    ensures After(env, p, 2 * Distance(env.tree, src, d)) == Back(src, m.route, Some(errno), d)
  {
    var hops := Distance(env.tree, src, d);
    AnswerReturns(env, src, d, m, Some(errno));
    AfterAfter(env, p, hops, hops);
  }

  /** The round trip to a named rank.  For any tree, sender and rank d in range the request
      is in the hands of the service on d after exactly the tree distance in hops; its
      response is back after as many hops again, on the sender's rank, with exactly the
      stack that the request started with.  Without the service the answer is ENOSYS. */
  lemma {:induction false} NodeRoundTrip(env: Env, src: nat, d: nat, m: Msg)
    requires EnvOk(env) && src < Size(env.tree) && d < Size(env.tree)
    requires m.Request? && m.nodeid == Node(d) && !m.upstream && HomeOk(env, src, m.route)
    ensures var p, hops := HandleRequest(env, src, m), Distance(env.tree, src, d);
      if Serves(env, d, m.topic) then
        && InHands(env, After(env, p, hops), src, d, m)
        && After(env, p, 2 * hops + 1) == Back(src, m.route, None, d)
      else After(env, p, 2 * hops) == Back(src, m.route, Some(ENOSYS), d)
  {
    var p := HandleRequest(env, src, m);
    RequestArrives(env, src, m, d);
    if Serves(env, d, m.topic) {
      ServedTrip(env, p, src, d, m);
    } else {
      RefusedTrip(env, p, src, d, m, ENOSYS);
    }
  }

  // ---------------------------------------------------------------- the nearest provider

  /** The first of r, its parent, its grandparent, ... that offers the service. */
  ghost function Nearest(env: Env, r: nat, topic: string): Option<nat>
    requires EnvOk(env) && r < Size(env.tree)
    decreases r
  {
    if Serves(env, r, topic) then Some(r)
    else if r == 0 then None
    else Nearest(env, env.tree.parent[r], topic)
  }

  /** It is the deepest rank at or above r that offers the service. */
  lemma {:induction false} NearestIs(env: Env, r: nat, topic: string)
    requires EnvOk(env) && r < Size(env.tree)
    ensures match Nearest(env, r, topic)
      case Some(n) =>
        && n < Size(env.tree) && Below(env.tree, n, r) && Serves(env, n, topic)
        && forall a: nat | a < Size(env.tree) && Below(env.tree, a, r) && Serves(env, a, topic) :: Below(env.tree, a, n)
      case None => forall a: nat | a < Size(env.tree) && Below(env.tree, a, r) :: !Serves(env, a, topic)
    decreases r
  {
    if !Serves(env, r, topic) && r > 0 {
      NearestIs(env, env.tree.parent[r], topic);
    }
  }

  /** The request is for whoever is nearest: it carries no rank, or the rank of a sender
      that it has left behind. */
  predicate Seeking(m: Msg, r: nat) {
    m.Request? && (m.nodeid.Any? || (m.upstream && m.nodeid.rank > r))
  }

  lemma {:induction false} ParentHop(t: Tree, r: nat, a: nat)
    requires Valid(t) && 0 < r < Size(t) && a < Size(t) && Below(t, a, t.parent[r])
    ensures !Below(t, r, a) && r != a && NextHop(t, r, a) == t.parent[r]
    ensures TrailLeft(t, r, a) == TrailLeft(t, t.parent[r], a) + [Rank(r)]
    ensures Distance(t, r, a) == Distance(t, t.parent[r], a) + 1
  {
    BelowDeeper(t, a, t.parent[r]);
    if Below(t, r, a) {
      BelowDeeper(t, r, a);
    }
    HopNearer(t, r, a);
  }

  /** A request that seeks a service reaches the nearest provider at or above r, and if there
      is none rank 0 answers it ENOSYS. */
  ghost predicate FindsNearest(env: Env, r: nat, m: Msg)
    requires EnvOk(env) && r < Size(env.tree) && m.Request?
  {
    var p := HandleRequest(env, r, m);
    match Nearest(env, r, m.topic)
    case Some(n) =>
      && n < Size(env.tree) && Serves(env, n, m.topic)
      && After(env, p, Distance(env.tree, r, n)) == Serve(env, n, Routed(m, TrailLeft(env.tree, r, n)))
    case None =>
      After(env, p, Distance(env.tree, r, 0))
      == HandleResponse(env, 0, Answer(0, Routed(m, TrailLeft(env.tree, r, 0)), Some(ENOSYS)))
  }

  lemma {:induction false} SeekHere(env: Env, r: nat, m: Msg)
    requires EnvOk(env) && r < Size(env.tree) && Seeking(m, r) && (Serves(env, r, m.topic) || r == 0)
    ensures FindsNearest(env, r, m)
  {
    NearestIs(env, r, m.topic);
    DistanceZero(env.tree, r, r);
    assert Routed(m, []) == m;
  }

  lemma {:induction false} SeekClimbs(env: Env, r: nat, m: Msg)
    requires EnvOk(env) && 0 < r < Size(env.tree) && Seeking(m, r) && !Serves(env, r, m.topic)
    requires FindsNearest(env, env.tree.parent[r], Push(m, Rank(r)))
    ensures FindsNearest(env, r, m)
  {
    var up := env.tree.parent[r];
    NearestIs(env, r, m.topic);
    NearestIs(env, up, m.topic);
    AscendHop(env, r, m);
    var n := if Nearest(env, up, m.topic).Some? then Nearest(env, up, m.topic).value else 0;
    RootAbove(env.tree, up);
    ParentHop(env.tree, r, n);
    RoutedMore(m, TrailLeft(env.tree, up, n), r);
  }

  lemma {:induction false} SeekArrives(env: Env, r: nat, m: Msg)
    requires EnvOk(env) && r < Size(env.tree) && Seeking(m, r)
    ensures FindsNearest(env, r, m)
    decreases r
  {
    if Serves(env, r, m.topic) || r == 0 {
      SeekHere(env, r, m);
    } else {
      SeekArrives(env, env.tree.parent[r], Push(m, Rank(r)));
      SeekClimbs(env, r, m);
    }
  }

  /** A request without a rank is served by the nearest rank at or above the sender that
      offers the service, and the answer comes back with the sender's stack.  If there is
      none, one ENOSYS comes back from rank 0. */
  lemma {:induction false} AnyRoundTrip(env: Env, src: nat, m: Msg)
    requires EnvOk(env) && src < Size(env.tree) && m.Request? && m.nodeid.Any? && HomeOk(env, src, m.route)
    ensures var p := HandleRequest(env, src, m);
      match Nearest(env, src, m.topic)
      case Some(n) =>
        var hops := if n < Size(env.tree) then Distance(env.tree, src, n) else 0;
        && InHands(env, After(env, p, hops), src, n, m)
        && After(env, p, 2 * hops + 1) == Back(src, m.route, None, n)
      case None => After(env, p, 2 * Distance(env.tree, src, 0)) == Back(src, m.route, Some(ENOSYS), 0)
  {
    var p := HandleRequest(env, src, m);
    SeekArrives(env, src, m);
    match Nearest(env, src, m.topic)
    case Some(n) =>
      ServedTrip(env, p, src, n, m);
    case None =>
      RefusedTrip(env, p, src, 0, m, ENOSYS);
  }

  /** From the sender of an upstream request to the provider above it. */
  lemma {:induction false} UpstreamArrives(env: Env, src: nat, m: Msg)
    requires EnvOk(env) && 0 < src < Size(env.tree) && m.Request? && m.upstream && m.nodeid == Node(src)
    ensures var p := HandleRequest(env, src, m);
      match Nearest(env, env.tree.parent[src], m.topic)
      case Some(n) =>
        && n < Size(env.tree) && Serves(env, n, m.topic)
        && After(env, p, Distance(env.tree, src, n)) == Serve(env, n, Routed(m, TrailLeft(env.tree, src, n)))
      case None =>
        After(env, p, Distance(env.tree, src, 0))
        == HandleResponse(env, 0, Answer(0, Routed(m, TrailLeft(env.tree, src, 0)), Some(ENOSYS)))
  {
    var up := env.tree.parent[src];
    AscendHop(env, src, m);
    SeekArrives(env, up, Push(m, Rank(src)));
    NearestIs(env, up, m.topic);
    RootAbove(env.tree, up);
    var n := if Nearest(env, up, m.topic).Some? then Nearest(env, up, m.topic).value else 0;
    ParentHop(env.tree, src, n);
    RoutedMore(m, TrailLeft(env.tree, up, n), src);
  }

  /** A request sent upstream is served by the nearest rank above the sender; on rank 0,
      which has nobody above, it is answered EHOSTUNREACH. */
  lemma {:induction false} UpstreamRoundTrip(env: Env, src: nat, m: Msg)
    requires EnvOk(env) && src < Size(env.tree) && HomeOk(env, src, m.route)
    requires m.Request? && m.upstream && m.nodeid == Node(src)
    ensures var p := HandleRequest(env, src, m);
      if src == 0 then p == Back(0, m.route, Some(EHOSTUNREACH), 0)
      else match Nearest(env, env.tree.parent[src], m.topic)
        case Some(n) =>
          var hops := if n < Size(env.tree) then Distance(env.tree, src, n) else 0;
          && InHands(env, After(env, p, hops), src, n, m)
          && After(env, p, 2 * hops + 1) == Back(src, m.route, None, n)
        case None => After(env, p, 2 * Distance(env.tree, src, 0)) == Back(src, m.route, Some(ENOSYS), 0)
  {
    var p := HandleRequest(env, src, m);
    if src > 0 {
      UpstreamArrives(env, src, m);
      match Nearest(env, env.tree.parent[src], m.topic)
      case Some(n) =>
        ServedTrip(env, p, src, n, m);
      case None =>
        RefusedTrip(env, p, src, 0, m, ENOSYS);
    }
  }

  /** A rank that does not exist: the request climbs to rank 0, which answers EHOSTUNREACH. */
  lemma {:induction false} StrayArrives(env: Env, r: nat, m: Msg)
    requires EnvOk(env) && r < Size(env.tree)
    requires m.Request? && !m.upstream && m.nodeid.Node? && m.nodeid.rank >= Size(env.tree)
    ensures After(env, HandleRequest(env, r, m), Distance(env.tree, r, 0))
            == HandleResponse(env, 0, Answer(0, Routed(m, TrailLeft(env.tree, r, 0)), Some(EHOSTUNREACH)))
    decreases r
  {
    if r == 0 {
      DistanceZero(env.tree, 0, 0);
      assert Routed(m, []) == m;
    } else {
      var up := env.tree.parent[r];
      AscendHop(env, r, m);
      StrayArrives(env, up, Push(m, Rank(r)));
      RootAbove(env.tree, up);
      ParentHop(env.tree, r, 0);
      RoutedMore(m, TrailLeft(env.tree, up, 0), r);
    }
  }

  lemma {:induction false} StrayRoundTrip(env: Env, src: nat, m: Msg)
    requires EnvOk(env) && src < Size(env.tree) && HomeOk(env, src, m.route)
    requires m.Request? && !m.upstream && m.nodeid.Node? && m.nodeid.rank >= Size(env.tree)
    ensures After(env, HandleRequest(env, src, m), 2 * Distance(env.tree, src, 0))
            == Back(src, m.route, Some(EHOSTUNREACH), 0)
  {
    StrayArrives(env, src, m);
    RefusedTrip(env, HandleRequest(env, src, m), src, 0, m, EHOSTUNREACH);
  }

  lemma {:induction false} AfterNext(env: Env, p: Place, n: nat)
    requires EnvOk(env) && PlaceOk(env, p)
    ensures After(env, p, n + 1) == Advance(env, After(env, p, n))
    decreases n
  {
    if n > 0 {
      AfterNext(env, Advance(env, p), n - 1);
    }
  }
}
