/** The overlay under load: every link between two brokers is a first-in first-out queue that
    all messages share, and services answer the requests they hold in any order. */
module Traffic {
  import opened Topology
  import opened Routing

  datatype Link = Link(from: nat, to: nat)

  datatype Item = Item(id: nat, msg: Msg)

  /** Who sent a request, and what. */
  datatype Origin = Origin(src: nat, msg: Msg)

  /** The queues, the requests that services hold, and the answers that have come back.  sent
      and moves are the requests sent so far, by number, and the moves each has made. */
  datatype Net = Net(
    links: map<Link, seq<Item>>, held: map<nat, Place>, back: map<nat, Place>,
    sent: seq<Origin>, moves: seq<nat>)

  datatype Action = Send(origin: Origin) | Deliver(link: Link) | Respond(id: nat)

  function Queue(net: Net, l: Link): seq<Item> {
    if l in net.links then net.links[l] else []
  }

  /** A message that comes to a link goes to the end of its queue. */
  function PutAt(net: Net, id: nat, p: Place): Net {
    match p
    case Wire(from, to, m) =>
      net.(links := net.links[Link(from, to) := Queue(net, Link(from, to)) + [Item(id, m)]])
    case Held(_, _, _) => net.(held := net.held[id := p])
    case Back(_, _, _, _) => net.(back := net.back[id := p])
    case Lost => net
  }

  function Popped(net: Net, l: Link): Net
    requires Queue(net, l) != []
  {
    net.(links := net.links[l := Queue(net, l)[1..]])
  }

  function Taken(net: Net, id: nat): Net {
    net.(held := net.held - {id})
  }

  function Moved(net: Net, id: nat): Net {
    if id < |net.moves| then net.(moves := net.moves[id := net.moves[id] + 1]) else net
  }

  ghost predicate OriginOk(env: Env, o: Origin) {
    EnvOk(env) && o.src < Size(env.tree) && o.msg.Request?
  }

  ghost predicate Enabled(env: Env, net: Net, a: Action) {
    match a
    case Send(o) => OriginOk(env, o)
    case Deliver(l) => EnvOk(env) && l.from < Size(env.tree) && l.to < Size(env.tree) && Queue(net, l) != []
    case Respond(id) => EnvOk(env) && id in net.held && PlaceOk(env, net.held[id])
  }

  /** The head of a queue reaches the broker at its end, or a service answers. */
  ghost function Next(env: Env, net: Net, a: Action): Net
    requires Enabled(env, net, a)
  {
    match a
    case Send(o) =>
      PutAt(net.(sent := net.sent + [o], moves := net.moves + [0]), |net.sent|, HandleRequest(env, o.src, o.msg))
    case Deliver(l) =>
      var item := Queue(net, l)[0];
      PutAt(Moved(Popped(net, l), item.id), item.id, Advance(env, Wire(l.from, l.to, item.msg)))
    case Respond(id) =>
      PutAt(Moved(Taken(net, id), id), id, Advance(env, net.held[id]))
  }

  // ---------------------------------------------------------------- every message is in one place

  ghost predicate Unique(q: seq<Item>) {
    forall i, j | 0 <= i < j < |q| :: q[i].id != q[j].id
  }

  /** What is on a link is there by where, and gone is not. */
  ghost predicate LinkTracks(q: seq<Item>, l: Link, where: seq<Place>, gone: int) {
    && Unique(q)
    && forall i | 0 <= i < |q| ::
         q[i].id < |where| && q[i].id != gone && where[q[i].id] == Wire(l.from, l.to, q[i].msg)
  }

  predicate Found(net: Net, id: nat, p: Place) {
    match p
    case Wire(from, to, m) => Item(id, m) in Queue(net, Link(from, to))
    case Held(_, _, _) => id in net.held && net.held[id] == p
    case Back(_, _, _, _) => id in net.back && net.back[id] == p
    case Lost => true
  }

  /** Every message but gone is where it should be, once, and nowhere else. */
  ghost predicate Tracks(net: Net, where: seq<Place>, gone: int) {
    && (forall l <- net.links :: LinkTracks(net.links[l], l, where, gone))
    && (forall id <- net.held :: id < |where| && id != gone && net.held[id].Held? && where[id] == net.held[id])
    && (forall id <- net.back :: id < |where| && id != gone && net.back[id].Back? && where[id] == net.back[id])
    && (forall id | 0 <= id < |where| && id != gone :: Found(net, id, where[id]))
  }

  lemma LinkPut(q: seq<Item>, l: Link, where: seq<Place>, x: nat, m: Msg)
    requires x < |where| && LinkTracks(q, l, where, x)
    ensures LinkTracks(q + [Item(x, m)], l, where[x := Wire(l.from, l.to, m)], -1)
  {
  }

  /** A message that was nowhere is put somewhere. */
  lemma PutTracks(net: Net, where: seq<Place>, x: nat, p: Place)
    requires x < |where| && Tracks(net, where, x)
    ensures Tracks(PutAt(net, x, p), where[x := p], -1)
  {
    var net', where' := PutAt(net, x, p), where[x := p];
    forall l | l in net'.links ensures LinkTracks(net'.links[l], l, where', -1) {
      if p.Wire? && l == Link(p.from, p.to) {
        LinkPut(Queue(net, l), l, where, x, p.msg);
      } else {
        assert LinkTracks(net.links[l], l, where, x);
      }
    }
    forall id | 0 <= id < |where'| ensures Found(net', id, where'[id]) {
      assert id != x ==> Found(net, id, where[id]);
    }
  }

  lemma PopTracks(net: Net, where: seq<Place>, l: Link)
    requires Tracks(net, where, -1) && Queue(net, l) != []
    ensures Queue(net, l)[0].id < |where| && Tracks(Popped(net, l), where, Queue(net, l)[0].id)
    ensures where[Queue(net, l)[0].id] == Wire(l.from, l.to, Queue(net, l)[0].msg)
  {
    var q := Queue(net, l);
    var x, net' := q[0].id, Popped(net, l);
    assert LinkTracks(net.links[l], l, where, -1);
    forall k | k in net'.links ensures LinkTracks(net'.links[k], k, where, x) {
      assert LinkTracks(net.links[k], k, where, -1);
    }
    forall id | 0 <= id < |where| && id != x ensures Found(net', id, where[id]) {
      assert Found(net, id, where[id]);
    }
  }

  lemma TakeTracks(net: Net, where: seq<Place>, x: nat)
    requires Tracks(net, where, -1) && x in net.held
    ensures Tracks(Taken(net, x), where, x)
  {
    var net' := Taken(net, x);
    forall l | l in net'.links ensures LinkTracks(net'.links[l], l, where, x) {
      assert LinkTracks(net.links[l], l, where, -1);
    }
    forall id | 0 <= id < |where| && id != x ensures Found(net', id, where[id]) {
      assert Found(net, id, where[id]);
    }
  }

  // ---------------------------------------------------------------- where its own hops bring it

  /** Where a request is after n moves if it were alone. */
  ghost function Spot(env: Env, o: Origin, n: nat): (p: Place)
    requires OriginOk(env, o)
    ensures PlaceOk(env, p)
  {
    After(env, HandleRequest(env, o.src, o.msg), n)
  }

  lemma SpotNext(env: Env, o: Origin, n: nat)
    requires OriginOk(env, o)
    ensures Spot(env, o, 0) == HandleRequest(env, o.src, o.msg)
    ensures Spot(env, o, n + 1) == Advance(env, Spot(env, o, n))
  {
    AfterNext(env, HandleRequest(env, o.src, o.msg), n);
  }

  ghost predicate NetOk(env: Env, net: Net) {
    |net.moves| == |net.sent| && forall id | 0 <= id < |net.sent| :: OriginOk(env, net.sent[id])
  }

  ghost function Where(env: Env, net: Net): (where: seq<Place>)
    requires NetOk(env, net)
    ensures |where| == |net.sent|
    ensures forall id | 0 <= id < |where| :: where[id] == Spot(env, net.sent[id], net.moves[id])
  {
    seq(|net.sent|, id requires 0 <= id < |net.sent| => Spot(env, net.sent[id], net.moves[id]))
  }

  /** Every message is where its own hops have brought it, whatever else is under way. */
  ghost predicate Sound(env: Env, net: Net) {
    NetOk(env, net) && Tracks(net, Where(env, net), -1)
  }

  /** Tracks does not look at the counts. */
  lemma CountsAside(net: Net, net': Net, where: seq<Place>, gone: int)
    requires Tracks(net, where, gone) && net' == net.(sent := net'.sent, moves := net'.moves)
    ensures Tracks(net', where, gone)
  {
    forall id | 0 <= id < |where| && id != gone ensures Found(net', id, where[id]) {
      assert Found(net, id, where[id]);
    }
  }

  lemma Launched(env: Env, net: Net, o: Origin, p: Place)
    requires Sound(env, net) && OriginOk(env, o) && p == Spot(env, o, 0)
    ensures Sound(env, PutAt(net.(sent := net.sent + [o], moves := net.moves + [0]), |net.sent|, p))
  {
    var where, x := Where(env, net), |net.sent|;
    var net1 := net.(sent := net.sent + [o], moves := net.moves + [0]);
    RoomForOne(net, where);
    CountsAside(net, net1, where + [Lost], x);
    PutTracks(net1, where + [Lost], x, p);
    assert Where(env, PutAt(net1, x, p)) == (where + [Lost])[x := p];
  }

  lemma SendSound(env: Env, net: Net, o: Origin)
    requires Sound(env, net) && OriginOk(env, o)
    ensures Sound(env, Next(env, net, Send(o)))
  {
    SpotNext(env, o, 0);
    Launched(env, net, o, HandleRequest(env, o.src, o.msg));
  }

  lemma RoomForOne(net: Net, where: seq<Place>)
    requires Tracks(net, where, -1)
    ensures Tracks(net, where + [Lost], |where|)
  {
    var more := where + [Lost];
    forall l | l in net.links ensures LinkTracks(net.links[l], l, more, |where|) {
      assert LinkTracks(net.links[l], l, where, -1);
    }
    forall id | 0 <= id < |where| ensures Found(net, id, more[id]) {
      assert Found(net, id, where[id]);
    }
  }

  /** Message x, taken out of the network, lands where its next move brings it. */
  lemma Landed(env: Env, net: Net, rest: Net, x: nat, p: Place)
    requires NetOk(env, net) && x < |net.sent| && rest.sent == net.sent && rest.moves == net.moves
    requires Tracks(rest, Where(env, net), x) && p == Spot(env, net.sent[x], net.moves[x] + 1)
    ensures Sound(env, PutAt(Moved(rest, x), x, p))
  {
    var where := Where(env, net);
    CountsAside(rest, Moved(rest, x), where, x);
    PutTracks(Moved(rest, x), where, x, p);
    assert Where(env, PutAt(Moved(rest, x), x, p)) == where[x := p];
  }

  lemma DeliverSound(env: Env, net: Net, l: Link)
    requires Sound(env, net) && Enabled(env, net, Deliver(l))
    ensures Sound(env, Next(env, net, Deliver(l)))
  {
    var item := Queue(net, l)[0];
    PopTracks(net, Where(env, net), l);
    SpotNext(env, net.sent[item.id], net.moves[item.id]);
    Landed(env, net, Popped(net, l), item.id, Advance(env, Wire(l.from, l.to, item.msg)));
  }

  lemma RespondSound(env: Env, net: Net, x: nat)
    requires Sound(env, net) && Enabled(env, net, Respond(x))
    ensures Sound(env, Next(env, net, Respond(x)))
  {
    TakeTracks(net, Where(env, net), x);
    SpotNext(env, net.sent[x], net.moves[x]);
    Landed(env, net, Taken(net, x), x, Advance(env, net.held[x]));
  }

  lemma NextSound(env: Env, net: Net, a: Action)
    requires Sound(env, net) && Enabled(env, net, a)
    ensures Sound(env, Next(env, net, a))
  {
    match a
    case Send(o) => SendSound(env, net, o);
    case Deliver(l) => DeliverSound(env, net, l);
    case Respond(id) => RespondSound(env, net, id);
  }
}
