/** Event numbering and distribution: rank 0 numbers events, and every broker drops what it
    has seen, delivers the rest and copies it to the children that have checked in. */
module Events {
  import opened Topology

  /** last is the highest number seen, got the events delivered, and links the messages
      under way to each child that has checked in. */
  datatype Node = Node(last: nat, got: seq<nat>, links: map<nat, seq<nat>>)

  datatype Sys = Sys(seqno: nat, nodes: seq<Node>)

  /** Repeat is a message that reaches a child a second time. */
  datatype Action = Publish(encodes: bool) | CheckIn(c: nat) | Deliver(c: nat) | Repeat(c: nat, n: nat)

  function Mcast(links: map<nat, seq<nat>>, n: nat): map<nat, seq<nat>> {
    map c | c in links :: links[c] + [n]
  }

  function Handled(b: Node, n: nat): Node {
    if n <= b.last then b else Node(n, b.got + [n], Mcast(b.links, n))
  }

  /** How many events a broker reports lost when it sees number n. */
  function Lost(b: Node, n: nat): nat {
    if b.last == 0 || n <= b.last then 0 else n - (b.last + 1)
  }

  predicate Linked(t: Tree, s: Sys, c: nat) {
    0 < c < |s.nodes| && c < Size(t) && t.parent[c] < |s.nodes| && c in s.nodes[t.parent[c]].links
  }

  function Link(t: Tree, s: Sys, c: nat): seq<nat>
    requires Linked(t, s, c)
  {
    s.nodes[t.parent[c]].links[c]
  }

  function SetLink(t: Tree, s: Sys, c: nat, q: seq<nat>): Sys
    requires 0 < c < Size(t) && t.parent[c] < |s.nodes|
  {
    var p := t.parent[c];
    s.(nodes := s.nodes[p := s.nodes[p].(links := s.nodes[p].links[c := q])])
  }

  predicate Enabled(t: Tree, s: Sys, a: Action) {
    match a
    case Publish(_) => |s.nodes| > 0
    case CheckIn(c) => 0 < c < |s.nodes| && c < Size(t) && t.parent[c] < |s.nodes|
    case Deliver(c) => Linked(t, s, c) && Link(t, s, c) != []
    case Repeat(c, n) => Linked(t, s, c) && 0 < n <= Top(s.nodes[c].last, Link(t, s, c))
  }

  function Next(t: Tree, s: Sys, a: Action): Sys
    requires Enabled(t, s, a)
  {
    match a
    case Publish(encodes) =>
      if encodes then Sys(s.seqno + 1, s.nodes[0 := Handled(s.nodes[0], s.seqno + 1)]) else s
    case CheckIn(c) => if Linked(t, s, c) then s else SetLink(t, s, c, [])
    case Deliver(c) =>
      var q := Link(t, s, c);
      var u := SetLink(t, s, c, q[1..]);
      u.(nodes := u.nodes[c := Handled(u.nodes[c], q[0])])
    case Repeat(c, n) => SetLink(t, s, c, Link(t, s, c) + [n])
  }

  // ---------------------------------------------------------------- invariants

  /** The highest number once the messages of a link have been seen. */
  function Top(last: nat, q: seq<nat>): nat
    decreases |q|
  {
    if q == [] then last else Top(if q[0] > last then q[0] else last, q[1..])
  }

  /** Each message of a link was seen before, is the next, or is the first of all. */
  predicate Smooth(last: nat, q: seq<nat>)
    decreases |q|
  {
    q == [] || (q[0] > 0 && (last == 0 || q[0] <= last + 1) && Smooth(if q[0] > last then q[0] else last, q[1..]))
  }

  /** Without gap or repetition, up to the highest number seen. */
  predicate Contiguous(b: Node) {
    && (b.got == [] <==> b.last == 0)
    && (forall i | 0 <= i < |b.got| :: b.got[i] == b.last + 1 - |b.got| + i)
  }

  ghost predicate LinkOk(t: Tree, s: Sys, c: nat)
    requires Topology.Valid(t) && |s.nodes| == Size(t) && 0 < c < Size(t)
  {
    if c in s.nodes[t.parent[c]].links then
      var q := s.nodes[t.parent[c]].links[c];
      && Smooth(s.nodes[c].last, q)
      && (Top(s.nodes[c].last, q) == 0 || Top(s.nodes[c].last, q) == s.nodes[t.parent[c]].last)
    else s.nodes[c].last == 0
  }

  ghost predicate Sound(t: Tree, s: Sys) {
    && Topology.Valid(t) && |s.nodes| == Size(t)
    && s.nodes[0].last == s.seqno == |s.nodes[0].got|
    && (forall r | 0 <= r < Size(t) :: Contiguous(s.nodes[r]))
    && (forall c | 0 < c < Size(t) :: LinkOk(t, s, c))
  }

  lemma {:induction false} SmoothAppend(last: nat, q: seq<nat>, n: nat)
    requires Smooth(last, q) && n > 0 && (Top(last, q) == 0 || n <= Top(last, q) + 1)
    ensures Smooth(last, q + [n])
    ensures Top(last, q + [n]) == if n > Top(last, q) then n else Top(last, q)
    decreases |q|
  {
    if q == [] {
      assert (q + [n])[1..] == [];
    } else {
      SmoothAppend(if q[0] > last then q[0] else last, q[1..], n);
      assert (q + [n])[1..] == q[1..] + [n];
    }
  }

  /** A broker that sees the next event passes it to its children in order. */
  lemma HandledOk(b: Node, n: nat)
    requires Contiguous(b) && n > 0 && (b.last == 0 || n <= b.last + 1)
    ensures var m := Handled(b, n);
      Contiguous(m) && m.links.Keys == b.links.Keys && m.last == if n > b.last then n else b.last
  {
  }

  /** What handling a message at r does to the link to a child of r. */
  lemma ChildLinkOk(t: Tree, s: Sys, r: nat, n: nat, c: nat)
    requires Topology.Valid(t) && |s.nodes| == Size(t) && 0 < c < Size(t) && t.parent[c] == r
    requires LinkOk(t, s, c) && n > 0 && (s.nodes[r].last == 0 || n <= s.nodes[r].last + 1)
    ensures LinkOk(t, s.(nodes := s.nodes[r := Handled(s.nodes[r], n)]), c)
  {
    if n > s.nodes[r].last && c in s.nodes[r].links {
      SmoothAppend(s.nodes[c].last, s.nodes[r].links[c], n);
    }
  }

  lemma PublishSound(t: Tree, s: Sys)
    requires Sound(t, s)
    ensures Sound(t, Next(t, s, Publish(true)))
  {
    var u := Next(t, s, Publish(true));
    HandledOk(s.nodes[0], s.seqno + 1);
    forall c | 0 < c < Size(t) ensures LinkOk(t, u, c) {
      assert LinkOk(t, s, c);
      if t.parent[c] == 0 {
        ChildLinkOk(t, s, 0, s.seqno + 1, c);
      }
    }
  }

  lemma DeliverSound(t: Tree, s: Sys, c: nat)
    requires Sound(t, s) && Enabled(t, s, Deliver(c))
    ensures Sound(t, Next(t, s, Deliver(c)))
  {
    var q := Link(t, s, c);
    var w := SetLink(t, s, c, q[1..]);
    var u := Next(t, s, Deliver(c));
    assert LinkOk(t, s, c);
    HandledOk(w.nodes[c], q[0]);
    forall d | 0 < d < Size(t) ensures LinkOk(t, u, d) {
      assert LinkOk(t, s, d);
      if t.parent[d] == c {
        assert LinkOk(t, w, d);
        ChildLinkOk(t, w, c, q[0], d);
      }
    }
  }

  lemma NextSound(t: Tree, s: Sys, a: Action)
    requires Sound(t, s) && Enabled(t, s, a)
    ensures Sound(t, Next(t, s, a))
  {
    match a
    case Publish(encodes) => if encodes { PublishSound(t, s); }
    case Deliver(c) => DeliverSound(t, s, c);
    case CheckIn(c) =>
      forall d | 0 < d < Size(t) ensures LinkOk(t, Next(t, s, a), d) {
        assert LinkOk(t, s, d);
      }
    case Repeat(c, n) =>
      assert LinkOk(t, s, c);
      SmoothAppend(s.nodes[c].last, Link(t, s, c), n);
      forall d | 0 < d < Size(t) ensures LinkOk(t, Next(t, s, a), d) {
        assert LinkOk(t, s, d);
      }
  }

  // ---------------------------------------------------------------- runs

  datatype Run = Run(states: seq<Sys>, actions: seq<Action>)

  ghost predicate IsRun(t: Tree, h: Run) {
    && Topology.Valid(t)
    && |h.states| == |h.actions| + 1 && h.states[0] == Sys(0, seq(Size(t), _ => Node(0, [], map[])))
    && forall i | 0 <= i < |h.actions| ::
         Enabled(t, h.states[i], h.actions[i]) && h.states[i + 1] == Next(t, h.states[i], h.actions[i])
  }

  lemma {:induction false} RunSound(t: Tree, h: Run, i: nat)
    requires IsRun(t, h) && i < |h.states|
    ensures Sound(t, h.states[i])
  {
    if i > 0 {
      RunSound(t, h, i - 1);
      NextSound(t, h.states[i - 1], h.actions[i - 1]);
    }
  }

  /** In every run, whenever children check in and however often messages are repeated,
      rank 0 delivers 1, 2, 3 and so on, and what any rank delivers is a run of consecutive
      numbers. */
  lemma EventsContiguous(t: Tree, h: Run, i: nat, r: nat)
    requires IsRun(t, h) && i < |h.states| && r < Size(t)
    ensures |h.states[i].nodes| == Size(t)
    ensures var got := h.states[i].nodes[r].got;
      && (forall j, k | 0 <= j <= k < |got| :: got[k] == got[j] + k - j)
      && (forall j | 0 <= j < |h.states[i].nodes[0].got| :: h.states[i].nodes[0].got[j] == j + 1)
      && |h.states[i].nodes[0].got| == h.states[i].seqno
  {
    RunSound(t, h, i);
    assert Contiguous(h.states[i].nodes[r]) && Contiguous(h.states[i].nodes[0]);
  }

  /** Nothing is lost after the first event a rank sees: when the links are empty, its last
      event is the last that was published. */
  lemma {:induction false} NothingLost(t: Tree, h: Run, i: nat, r: nat)
    requires IsRun(t, h) && i < |h.states| && r < Size(t)
    requires forall c | Linked(t, h.states[i], c) :: Link(t, h.states[i], c) == []
    ensures |h.states[i].nodes| == Size(t)
    ensures var got := h.states[i].nodes[r].got;
      got == [] || got[|got| - 1] == h.states[i].seqno
  {
    RunSound(t, h, i);
    LastPublished(t, h.states[i], r);
    assert Contiguous(h.states[i].nodes[r]);
  }

  lemma {:induction false} LastPublished(t: Tree, s: Sys, r: nat)
    requires Sound(t, s) && r < Size(t)
    requires forall c | Linked(t, s, c) :: Link(t, s, c) == []
    ensures s.nodes[r].last == 0 || s.nodes[r].last == s.seqno
  {
    if r > 0 {
      assert LinkOk(t, s, r);
      if Linked(t, s, r) {
        LastPublished(t, s, t.parent[r]);
      }
    }
  }

  /** No broker ever reports a lost event. */
  lemma NoneReportedLost(t: Tree, h: Run, i: nat)
    requires IsRun(t, h) && i < |h.actions| && h.actions[i].Deliver?
    ensures var c := h.actions[i].c;
      Enabled(t, h.states[i], Deliver(c)) && Lost(h.states[i].nodes[c], Link(t, h.states[i], c)[0]) == 0
  {
    RunSound(t, h, i);
    assert LinkOk(t, h.states[i], h.actions[i].c);
  }

  // ---------------------------------------------------------------- with losses

  predicate Beyond(k: nat, a: nat) {
    a < k
  }

  /** The numbers strictly between two. */
  function Between(a: nat, b: nat): set<nat> {
    set k: nat | k < b && Beyond(k, a)
  }

  lemma {:induction false} BetweenSize(a: nat, b: nat)
    ensures |Between(a, b)| == if a < b then b - a - 1 else 0
    decreases b
  {
    if a + 1 < b {
      BetweenSize(a, b - 1);
      assert Between(a, b) == Between(a, b - 1) + {b - 1};
    } else {
      assert Between(a, b) == {};
    }
  }

  /** What a broker that has seen an event reports lost is the numbers strictly between. */
  lemma LostIsGap(b: Node, n: nat)
    ensures Lost(b, n) == if b.last == 0 then 0 else |Between(b.last, n)|
  {
    BetweenSize(b.last, n);
  }

  /** A broker is fed any messages whatever: some lost before, some repeated, in any order. */
  function Fed(b: Node, ns: seq<nat>): Node
    decreases |ns|
  {
    if ns == [] then b else Fed(Handled(b, ns[0]), ns[1..])
  }

  function Reports(b: Node, ns: seq<nat>): nat
    decreases |ns|
  {
    if ns == [] then 0 else Lost(b, ns[0]) + Reports(Handled(b, ns[0]), ns[1..])
  }

  predicate Rising(b: Node) {
    && (forall i, j | 0 <= i < j < |b.got| :: b.got[i] < b.got[j])
    && (b.got == [] ==> b.last == 0) && (b.got != [] ==> b.got[0] > 0 && b.got[|b.got| - 1] == b.last)
  }

  lemma {:induction false} FedAccounts(b: Node, ns: seq<nat>)
    requires Rising(b) && b.got != []
    ensures var m := Fed(b, ns); Rising(m) && b.got <= m.got && |m.got| + b.last - m.last + Reports(b, ns) == |b.got|
    decreases |ns|
  {
    if ns != [] {
      FedAccounts(Handled(b, ns[0]), ns[1..]);
    }
  }

  /** Whatever reaches a broker, it delivers rising numbers, and from its first event to its
      last each number was delivered or reported lost. */
  lemma LossAccounts(links: map<nat, seq<nat>>, n: nat, ns: seq<nat>)
    requires n > 0
    ensures var start := Node(0, [], links);
      var m := Fed(start, [n] + ns);
      && Rising(m) && m.got != [] && m.got[0] == n
      && |m.got| + Reports(start, [n] + ns) == m.last - n + 1
  {
    var start := Node(0, [], links);
    assert ([n] + ns)[1..] == ns;
    FedAccounts(Handled(start, n), ns);
  }
}
