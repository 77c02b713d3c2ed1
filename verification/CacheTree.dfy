/** A tree of content caches: each rank > 0 loads from and stores to its parent, rank 0
    loads from and stores to the backing store.  Messages are delivered in any order. */
module CacheTree {
  import opened Basics
  import opened Topology
  import opened CacheModel
  import opened CacheLemmas
  import opened CacheAnswers
  import opened CacheEffects

  /** A message on its way.  Answers to clients stay in the list as a record of what the
      clients were told; the backing store answers rank 0 as Child(0). */
  datatype Envelope = Envelope(from: nat, out: Output)

  /** up says that the content-backing service is there, store is what it holds, and
      ledger are the blobs ever stored by a client or found in the backing store. */
  datatype Sys = Sys(caches: seq<Cache>, net: seq<Envelope>, up: bool, store: map<Ref, Blob>, ledger: set<Blob>)

  datatype World = World(tree: Tree, hash: Blob -> Ref, conf: seq<Config>)

  ghost predicate WorldOk(w: World) {
    && Valid(w.tree) && |w.conf| == Size(w.tree)
    && forall r | 0 <= r < |w.conf| :: w.conf[r].hash == w.hash && w.conf[r].batchLimit > 0
  }

  function Tag(r: nat, out: seq<Output>): seq<Envelope> {
    seq(|out|, i requires 0 <= i < |out| => Envelope(r, out[i]))
  }

  // ---------------------------------------------------------------- RPC tokens

  /** An RPC that rank has sent upstream and not had answered. */
  datatype Rpc = Rpc(rank: nat, kind: Kind)

  /** The RPC that a message carries, as a request or as the answer to it. */
  function TokenOf(h: Blob -> Ref, e: Envelope): Option<Rpc> {
    match TickOf(h, e.out)
    case Answered(kind, Child(q)) => Some(Rpc(q, kind))
    case Sent(kind) => Some(Rpc(e.from, kind))
    case _ => None
  }

  ghost function Tokens(h: Blob -> Ref, net: seq<Envelope>, t: Rpc): nat {
    |set i | 0 <= i < |net| && TokenOf(h, net[i]) == Some(t)|
  }

  lemma TokensAppend(h: Blob -> Ref, net: seq<Envelope>, e: Envelope, t: Rpc)
    ensures Tokens(h, net + [e], t) == Tokens(h, net, t) + Bit(TokenOf(h, e) == Some(t))
  {
    var before := set i | 0 <= i < |net| && TokenOf(h, net[i]) == Some(t);
    var after := set i | 0 <= i < |net + [e]| && TokenOf(h, (net + [e])[i]) == Some(t);
    assert after == before + if TokenOf(h, e) == Some(t) then {|net|} else {};
  }

  lemma {:induction false} TokensConcat(h: Blob -> Ref, a: seq<Envelope>, b: seq<Envelope>, t: Rpc)
    ensures Tokens(h, a + b, t) == Tokens(h, a, t) + Tokens(h, b, t)
    decreases |b|
  {
    if b == [] {
      assert a + b == a;
    } else {
      var n := |b| - 1;
      TokensConcat(h, a, b[..n], t);
      TokensAppend(h, b[..n], b[n], t);
      TokensAppend(h, a + b[..n], b[n], t);
      assert b == b[..n] + [b[n]];
      assert a + b == a + b[..n] + [b[n]];
    }
  }

  function Without(net: seq<Envelope>, i: nat): seq<Envelope>
    requires i < |net|
  {
    net[..i] + net[i + 1..]
  }

  lemma TokensWithout(h: Blob -> Ref, net: seq<Envelope>, i: nat, t: Rpc)
    requires i < |net|
    ensures Tokens(h, net, t) == Tokens(h, Without(net, i), t) + Bit(TokenOf(h, net[i]) == Some(t))
  {
    assert net[..i] + [net[i]] == net[..i + 1];
    assert net == net[..i + 1] + net[i + 1..];
    TokensAppend(h, net[..i], net[i], t);
    TokensConcat(h, net[..i + 1], net[i + 1..], t);
    TokensConcat(h, net[..i], net[i + 1..], t);
  }

  lemma {:induction false} TokensTagged(h: Blob -> Ref, r: nat, out: seq<Output>, t: Rpc)
    ensures Tokens(h, Tag(r, out), t) ==
      Count(h, out, Answered(t.kind, Child(t.rank))) + if t.rank == r then Count(h, out, Sent(t.kind)) else 0
    decreases |out|
  {
    if out != [] {
      var n := |out| - 1;
      TokensTagged(h, r, out[..n], t);
      TokensAppend(h, Tag(r, out[..n]), Envelope(r, out[n]), t);
      CountAppend(h, out[..n], out[n], Answered(t.kind, Child(t.rank)));
      CountAppend(h, out[..n], out[n], Sent(t.kind));
      assert Tag(r, out) == Tag(r, out[..n]) + [Envelope(r, out[n])];
      assert out == out[..n] + [out[n]];
    }
  }

  // ---------------------------------------------------------------- steps

  /** What client requests and timers may set off on a rank.  The backing store is never
      unloaded. */
  predicate Local(ev: Event) {
    match ev
    case Load(from, _) => from.Client?
    case Store(from, _) => from.Client?
    case Flush(from) => from.Client?
    case SetBacking(from, on) => from.Client? && on
    case DropCache(from) => from.Client?
    case Heartbeat(_, _) => true
    case _ => false
  }

  /** Where a message between caches goes, and the event that it is there. */
  function Target(t: Tree, e: Envelope): Option<(nat, Event)> {
    match e.out
    case SendLoad(k) => if 0 < e.from < Size(t) then Some((t.parent[e.from], Load(Child(e.from), k))) else None
    case SendStore(data) => if 0 < e.from < Size(t) then Some((t.parent[e.from], Store(Child(e.from), data))) else None
    case AnswerLoad(Child(q), k, result) => Some((q, LoadReply(k, result)))
    case AnswerStore(Child(q), k, result) => Some((q, StoreReply(k, result)))
    case _ => None
  }

  /** Every send fails at once on rank 0 while the content-backing service is missing.  No
      failed send is reported as ENOENT, nor, once the service is there, as ENOSYS. */
  predicate SendOk(sys: Sys, r: nat, ch: Choice) {
    && (r == 0 && Sends(ch) ==> sys.up)
    && (ch.send.Some? ==> ch.send.value != ENOENT && (r == 0 && sys.up ==> ch.send.value != ENOSYS))
  }

  /** Rank r handles ev; rest is the network without the message that brought it. */
  ghost function Apply(w: World, sys: Sys, r: nat, ev: Event, ch: Choice, rest: seq<Envelope>): Sys
    requires r < |w.conf| && r < |sys.caches| && Enabled(w.conf[r], sys.caches[r], ev, ch)
  {
    var res := Handle(w.conf[r], sys.caches[r], ev, ch);
    sys.(caches := sys.caches[r := res.cache],
         net := rest + Tag(r, res.out),
         ledger := if ev.Store? && ev.from.Client? then sys.ledger + {ev.data} else sys.ledger)
  }

  /** The backing store answers rank 0.  It answers a load of what it holds with the blob
      or with a failure other than a missing blob; a store that it fails may have been done. */
  ghost predicate BackingAnswers(w: World, sys: Sys, o: Output, answer: Output, store': map<Ref, Blob>) {
    match o
    case SendLoad(k) =>
      && store' == sys.store && answer.AnswerLoad? && answer.to == Child(0) && answer.ref == k
      && (match answer.load
          case Loaded(data) => k in sys.store && data == sys.store[k]
          case LoadError(errno) => k in sys.store ==> errno != ENOENT && errno != ENOSYS)
    case SendStore(data) =>
      var k := w.hash(data);
      && answer.AnswerStore? && answer.to == Child(0) && answer.ref == k
      && (answer.store.Stored? ==> answer.store.ref == k && k in store')
      && (store' == sys.store || (k !in sys.store && store' == sys.store[k := data]))
    case _ => false
  }

  datatype Action =
    | Request(rank: nat, ev: Event, ch: Choice)
    | Deliver(msg: nat, ch: Choice)
    | Backing(msg: nat, answer: Output, store: map<Ref, Blob>)
    | ServiceUp

  /** The rank and the event that an action sets off in a cache, if any. */
  ghost function Actor(w: World, sys: Sys, a: Action): Option<(nat, Event)> {
    match a
    case Request(r, ev, _) => if Local(ev) then Some((r, ev)) else None
    case Deliver(i, _) => if i < |sys.net| then Target(w.tree, sys.net[i]) else None
    case _ => None
  }

  ghost function Rest(sys: Sys, a: Action): seq<Envelope> {
    match a
    case Deliver(i, _) => if i < |sys.net| then Without(sys.net, i) else sys.net
    case _ => sys.net
  }

  /** The guards that the code does not have.  (a) a failed load does not reach a dirty
      entry; (b) no entry is evicted while its load is in flight. */
  ghost predicate Careful(w: World, sys: Sys, a: Action) {
    var act := Actor(w, sys, a);
    act.Some? && act.value.0 < |sys.caches| ==>
      KeepsDirty(sys.caches[act.value.0], act.value.1) && Guarded(sys.caches[act.value.0], act.value.1)
  }

  /** A cache acts.  EntryThere is not asked for: Sound below implies it, and that is the
      point, since the code dereferences the entry without looking. */
  ghost predicate Acts(w: World, sys: Sys, a: Action, r: nat, ev: Event, ch: Choice, sys': Sys) {
    && r < |w.conf| && r < |sys.caches| && SendOk(sys, r, ch)
    && (EntryThere(sys.caches[r], ev) ==>
          ChoiceOk(w.conf[r], sys.caches[r], ev, ch) && sys' == Apply(w, sys, r, ev, ch, Rest(sys, a)))
  }

  ghost predicate Step(w: World, sys: Sys, a: Action, sys': Sys) {
    match a
    case Request(r, ev, ch) => Local(ev) && Acts(w, sys, a, r, ev, ch, sys')
    case Deliver(i, ch) =>
      var act := Actor(w, sys, a);
      act.Some? && Acts(w, sys, a, act.value.0, act.value.1, ch, sys')
    case Backing(i, answer, store') =>
      && i < |sys.net| && sys.net[i].from == 0
      && BackingAnswers(w, sys, sys.net[i].out, answer, store')
      && sys' == sys.(net := Without(sys.net, i) + [Envelope(0, answer)], store := store')
    case ServiceUp => |sys.caches| > 0 && sys.caches[0].backing && sys' == sys.(up := true)
  }

  // ---------------------------------------------------------------- pairing of RPCs

  /** Only children of r are parked on r. */
  ghost predicate ParkedChildren(t: Tree, r: nat, s: Cache) {
    forall kind: Kind, q: nat | Parked(s, kind, Child(q)) > 0 :: 0 < q < Size(t) && t.parent[q] == r
  }

  /** Every RPC is in exactly one place: in the network, or parked on the parent. */
  ghost predicate Paired(w: World, sys: Sys, t: Rpc)
    requires WorldOk(w) && |sys.caches| == Size(w.tree) && t.rank < Size(w.tree)
  {
    Tokens(w.hash, sys.net, t)
    + (if t.rank == 0 then 0 else Parked(sys.caches[w.tree.parent[t.rank]], t.kind, Child(t.rank)))
    == Bit(Awaits(sys.caches[t.rank], t.kind))
  }

  ghost predicate CacheSound(w: World, r: nat, s: Cache)
    requires r < |w.conf|
  {
    s.rank == r && Inv(w.conf[r], s) && Honest(w.conf[r], s) && ParkedChildren(w.tree, r, s)
  }

  /** A message names ranks of the tree and carries the blob or the blobref that it is about. */
  predicate EnvelopeOk(w: World, e: Envelope) {
    && (e.out.SendLoad? || e.out.SendStore? ==> e.from < Size(w.tree))
    && (match e.out
        case AnswerLoad(to, k, result) =>
          (to.Child? ==> to.rank < Size(w.tree)) && (result.Loaded? ==> w.hash(result.data) == k)
        case AnswerStore(to, k, result) =>
          (to.Child? ==> to.rank < Size(w.tree)) && (result.Stored? ==> result.ref == k)
        case _ => true)
  }

  /** Holds in every state that careful steps reach.  It says among other things that
      replies find their entries and that blobs are filed under their own hash. */
  ghost predicate Sound(w: World, sys: Sys)
    requires WorldOk(w)
  {
    && |sys.caches| == Size(w.tree)
    && (forall r | 0 <= r < Size(w.tree) :: CacheSound(w, r, sys.caches[r]))
    && (forall t: Rpc | t.rank < Size(w.tree) :: Paired(w, sys, t))
    && (forall e <- sys.net :: EnvelopeOk(w, e))
    && (forall k <- sys.store :: w.hash(sys.store[k]) == k)
    && (sys.up ==> sys.caches[0].backing)
  }

  /** The RPC whose request or answer rank r receives with ev. */
  function Consumed(h: Blob -> Ref, r: nat, ev: Event): Option<Rpc> {
    match Incoming(h, ev)
    case Some(Answered(kind, Child(q))) => Some(Rpc(q, kind))
    case Some(Sent(kind)) => Some(Rpc(r, kind))
    case _ => None
  }

  /** A rank hears from its children and from local clients. */
  ghost predicate SenderOk(t: Tree, r: nat, ev: Event) {
    match ev
    case Load(Child(q), _) => 0 < q < Size(t) && t.parent[q] == r
    case Store(Child(q), _) => 0 < q < Size(t) && t.parent[q] == r
    case Flush(from) => from.Client?
    case SetBacking(from, on) => from.Client? && on
    case DropCache(from) => from.Client?
    case _ => true
  }

  /** ev reaches r from the network, out of which it leaves rest. */
  ghost predicate Arrives(w: World, sys: Sys, r: nat, ev: Event, rest: seq<Envelope>) {
    && (forall t :: Tokens(w.hash, sys.net, t) == Tokens(w.hash, rest, t) + Bit(Consumed(w.hash, r, ev) == Some(t)))
    && (forall e <- rest :: e in sys.net)
    && SenderOk(w.tree, r, ev)
  }

  lemma ActorArrives(w: World, sys: Sys, a: Action)
    requires WorldOk(w) && Sound(w, sys) && Actor(w, sys, a).Some?
    ensures var (r, ev) := Actor(w, sys, a).value;
      && Arrives(w, sys, r, ev, Rest(sys, a))
      && (a.Deliver? ==> r < Size(w.tree) && TruthfulReply(w.conf[r], ev) && EntryThere(sys.caches[r], ev))
  {
    var (r, ev) := Actor(w, sys, a).value;
    if a.Deliver? {
      var e := sys.net[a.msg];
      assert EnvelopeOk(w, e);
      forall t ensures Tokens(w.hash, sys.net, t) ==
                       Tokens(w.hash, Rest(sys, a), t) + Bit(Consumed(w.hash, r, ev) == Some(t)) {
        TokensWithout(w.hash, sys.net, a.msg, t);
      }
      assert r < Size(w.tree);
      if ev.LoadReply? {
        assert Paired(w, sys, Rpc(r, Loading(ev.ref)));
      } else if ev.StoreReply? {
        assert Paired(w, sys, Rpc(r, Storing(ev.ref)));
      }
    }
  }

  /** The books of one cache stay in order. */
  lemma ParkedSound(w: World, r: nat, s: Cache, ev: Event, ch: Choice, kind: Kind, q: nat)
    requires WorldOk(w) && r < Size(w.tree) && CacheSound(w, r, s) && SenderOk(w.tree, r, ev)
    requires Enabled(w.conf[r], s, ev, ch) && Guarded(s, ev) && TruthfulReply(w.conf[r], ev)
    requires Parked(Handle(w.conf[r], s, ev, ch).cache, kind, Child(q)) > 0
    ensures 0 < q < Size(w.tree) && w.tree.parent[q] == r
  {
    HandleBalanced(w.conf[r], s, ev, ch, Answered(kind, Child(q)));
  }

  lemma HandleSound(w: World, r: nat, s: Cache, ev: Event, ch: Choice)
    requires WorldOk(w) && r < Size(w.tree) && CacheSound(w, r, s) && SenderOk(w.tree, r, ev)
    requires Enabled(w.conf[r], s, ev, ch) && Guarded(s, ev) && TruthfulReply(w.conf[r], ev)
    ensures CacheSound(w, r, Handle(w.conf[r], s, ev, ch).cache)
  {
    var c := w.conf[r];
    HandleKeeps(c, s, ev, ch);
    forall kind: Kind, q: nat | Parked(Handle(c, s, ev, ch).cache, kind, Child(q)) > 0
      ensures 0 < q < Size(w.tree) && w.tree.parent[q] == r
    {
      ParkedSound(w, r, s, ev, ch, kind, q);
    }
  }

  lemma OutputSound(w: World, r: nat, s: Cache, ev: Event, ch: Choice, o: Output)
    requires WorldOk(w) && r < Size(w.tree) && CacheSound(w, r, s) && SenderOk(w.tree, r, ev)
    requires Enabled(w.conf[r], s, ev, ch) && Guarded(s, ev) && TruthfulReply(w.conf[r], ev)
    requires o in Handle(w.conf[r], s, ev, ch).out
    ensures EnvelopeOk(w, Envelope(r, o))
    ensures (o.AnswerLoad? || o.AnswerStore?) && o.to.Child? ==>
              0 < o.to.rank < Size(w.tree) && w.tree.parent[o.to.rank] == r
  {
    var c := w.conf[r];
    HandleEffect(c, s, ev, ch, Ref(""), o);
    HandleKeeps(c, s, ev, ch);
    if (o.AnswerLoad? || o.AnswerStore?) && o.to.Child? {
      CountPositive(w.hash, Handle(c, s, ev, ch).out, o);
      HandleBalanced(c, s, ev, ch, TickOf(w.hash, o));
    }
  }

  /** An RPC stays in exactly one place when rank r acts: whatever the handler is, it is
      enough that its books balance. */
  lemma BalancedPaired(w: World, sys: Sys, r: nat, ev: Event, res: Result, rest: seq<Envelope>, t: Rpc)
    requires WorldOk(w) && |sys.caches| == Size(w.tree) && r < Size(w.tree) && t.rank < Size(w.tree)
    requires ParkedChildren(w.tree, r, sys.caches[r]) && Paired(w, sys, t)
    requires Arrives(w, sys, r, ev, rest)
    requires Balanced(w.conf[r], sys.caches[r], ev, res, Answered(t.kind, Child(t.rank)))
    requires Balanced(w.conf[r], sys.caches[r], ev, res, Sent(t.kind))
    ensures Paired(w, sys.(caches := sys.caches[r := res.cache], net := rest + Tag(r, res.out)), t)
  {
    TokensTagged(w.hash, r, res.out, t);
    TokensConcat(w.hash, rest, Tag(r, res.out), t);
    assert Tokens(w.hash, sys.net, t) == Tokens(w.hash, rest, t) + Bit(Consumed(w.hash, r, ev) == Some(t));
    if t.rank == 0 || w.tree.parent[t.rank] != r {
      assert Parked(sys.caches[r], t.kind, Child(t.rank)) == 0;
    }
  }

  lemma ApplySound(w: World, sys: Sys, r: nat, ev: Event, ch: Choice, rest: seq<Envelope>)
    requires WorldOk(w) && Sound(w, sys) && r < Size(w.tree) && Arrives(w, sys, r, ev, rest)
    requires Enabled(w.conf[r], sys.caches[r], ev, ch) && Guarded(sys.caches[r], ev)
    requires TruthfulReply(w.conf[r], ev)
    ensures Sound(w, Apply(w, sys, r, ev, ch, rest))
  {
    var sys' := Apply(w, sys, r, ev, ch, rest);
    assert CacheSound(w, r, sys.caches[r]);
    HandleSound(w, r, sys.caches[r], ev, ch);
    forall t: Rpc | t.rank < Size(w.tree) ensures Paired(w, sys', t) {
      HandleBalanced(w.conf[r], sys.caches[r], ev, ch, Answered(t.kind, Child(t.rank)));
      HandleBalanced(w.conf[r], sys.caches[r], ev, ch, Sent(t.kind));
      BalancedPaired(w, sys, r, ev, Handle(w.conf[r], sys.caches[r], ev, ch), rest, t);
      assert Paired(w, sys', t);
    }
    forall e | e in sys'.net ensures EnvelopeOk(w, e) {
      if e !in rest {
        OutputSound(w, r, sys.caches[r], ev, ch, e.out);
      }
    }
  }

  lemma BackingSound(w: World, sys: Sys, i: nat, answer: Output, store': map<Ref, Blob>, sys': Sys)
    requires WorldOk(w) && Sound(w, sys) && Step(w, sys, Backing(i, answer, store'), sys')
    ensures Sound(w, sys')
  {
    assert EnvelopeOk(w, sys.net[i]);
    forall t: Rpc | t.rank < Size(w.tree) ensures Paired(w, sys', t) {
      assert Paired(w, sys, t);
      TokensWithout(w.hash, sys.net, i, t);
      TokensAppend(w.hash, Without(sys.net, i), Envelope(0, answer), t);
    }
  }

  /** Careful steps keep every invariant of the tree, so the entry that a reply handler
      dereferences is always there. */
  lemma StepSound(w: World, sys: Sys, a: Action, sys': Sys)
    requires WorldOk(w) && Sound(w, sys) && Step(w, sys, a, sys') && Careful(w, sys, a)
    ensures Sound(w, sys')
    ensures Actor(w, sys, a).Some? ==> Actor(w, sys, a).value.0 < Size(w.tree)
    ensures Actor(w, sys, a).Some? ==> EntryThere(sys.caches[Actor(w, sys, a).value.0], Actor(w, sys, a).value.1)
  {
    match a
    case Request(r, ev, ch) =>
      ActorArrives(w, sys, a);
      ApplySound(w, sys, r, ev, ch, Rest(sys, a));
    case Deliver(i, ch) =>
      ActorArrives(w, sys, a);
      var (r, ev) := Actor(w, sys, a).value;
      ApplySound(w, sys, r, ev, ch, Rest(sys, a));
    case Backing(i, answer, store') => BackingSound(w, sys, i, answer, store', sys');
    case ServiceUp =>
      forall t: Rpc | t.rank < Size(w.tree) ensures Paired(w, sys', t) {
        assert Paired(w, sys, t);
      }
  }

  /** A message in the network means that its sender, or the rank it answers, awaits it. */
  lemma InFlightAwaited(w: World, sys: Sys, e: Envelope, t: Rpc)
    requires WorldOk(w) && Sound(w, sys) && e in sys.net && TokenOf(w.hash, e) == Some(t) && !t.kind.Managing?
    ensures t.rank < Size(w.tree) && Awaits(sys.caches[t.rank], t.kind)
  {
    assert EnvelopeOk(w, e);
    var i :| 0 <= i < |sys.net| && sys.net[i] == e;
    var hits := set i | 0 <= i < |sys.net| && TokenOf(w.hash, sys.net[i]) == Some(t);
    assert i in hits;
    assert t.rank < Size(w.tree);
    assert Paired(w, sys, t);
  }

  // ---------------------------------------------------------------- runs

  function EmptyCache(r: nat): Cache {
    Cache(r, map[], false, 0, [], 0, {})
  }

  /** All caches are empty; the backing store, if it comes up, may hold blobs already. */
  ghost predicate Initial(w: World, sys: Sys) {
    && |sys.caches| == Size(w.tree) && (forall r | 0 <= r < Size(w.tree) :: sys.caches[r] == EmptyCache(r))
    && sys.net == [] && !sys.up && sys.ledger == sys.store.Values
    && forall k <- sys.store :: w.hash(sys.store[k]) == k
  }

  datatype Run = Run(states: seq<Sys>, acts: seq<Action>)

  /** A run of careful steps from an initial state. */
  ghost predicate IsRun(w: World, run: Run) {
    && |run.states| == |run.acts| + 1
    && Initial(w, run.states[0])
    && forall i | 0 <= i < |run.acts| ::
         Step(w, run.states[i], run.acts[i], run.states[i + 1]) && Careful(w, run.states[i], run.acts[i])
  }

  lemma InitialSound(w: World, sys: Sys)
    requires WorldOk(w) && Initial(w, sys)
    ensures Sound(w, sys)
  {
    forall r | 0 <= r < Size(w.tree) ensures CacheSound(w, r, sys.caches[r]) {
      assert forall kind: Kind, q: nat :: Parked(sys.caches[r], kind, Child(q)) == 0;
    }
    forall t: Rpc | t.rank < Size(w.tree) ensures Paired(w, sys, t) {
      assert forall r | 0 <= r < Size(w.tree) :: Parked(sys.caches[r], t.kind, Child(t.rank)) == 0;
    }
  }

  lemma {:induction false} RunSound(w: World, run: Run, i: nat)
    requires WorldOk(w) && IsRun(w, run) && i < |run.states|
    ensures Sound(w, run.states[i])
  {
    if i == 0 {
      InitialSound(w, run.states[0]);
    } else {
      RunSound(w, run, i - 1);
      StepSound(w, run.states[i - 1], run.acts[i - 1], run.states[i]);
    }
  }
}
