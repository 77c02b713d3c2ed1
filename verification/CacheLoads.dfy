/** What a load promises: the bytes that were stored, and no ENOENT for a blob whose store
    has been answered, unless an answer of that kind was on its way already. */
module CacheLoads {
  import opened Basics
  import opened Topology
  import opened CacheModel
  import opened CacheLemmas
  import opened CacheAnswers
  import opened CacheEffects
  import opened CacheTree
  import opened CacheDurability

  // ---------------------------------------------------------------- ENOENT

  /** An errno that rank q reports to its requesters as ENOENT. */
  predicate Missing(q: nat, errno: Errno) {
    errno == ENOENT || (q == 0 && errno == ENOSYS)
  }

  /** A message that says that k is missing comes too late to be heard: the rank that it
      goes to has the blob, so nobody is parked there. */
  ghost predicate Harmless(sys: Sys, e: Envelope, k: Ref) {
    match e.out
    case AnswerLoad(Child(q), j, LoadError(errno)) =>
      j == k && Missing(q, errno) ==> q < |sys.caches| && Lookup(sys.caches[q], k).valid
    case _ => true
  }

  /** k can be found: it is durable, and no news of its absence will be heard. */
  ghost predicate Found(sys: Sys, k: Ref)
    requires |sys.caches| > 0
  {
    Durable(sys, k) && forall e <- sys.net :: Harmless(sys, e, k)
  }

  /** While k can be found, no rank tells anybody that k is missing. */
  lemma NotToldMissing(w: World, sys: Sys, r: nat, ev: Event, ch: Choice, o: Output, k: Ref)
    requires WorldOk(w) && Sound(w, sys) && r < Size(w.tree) && Durable(sys, k)
    requires Enabled(w.conf[r], sys.caches[r], ev, ch) && SendOk(sys, r, ch)
    requires ev.LoadReply? ==> Harmless(sys, Envelope(0, AnswerLoad(Child(r), ev.ref, ev.load)), k)
    requires o in Handle(w.conf[r], sys.caches[r], ev, ch).out
    ensures o.AnswerLoad? && o.ref == k && o.load.LoadError? ==> o.load.errno != ENOENT
  {
    assert CacheSound(w, r, sys.caches[r]);
    HandleEffect(w.conf[r], sys.caches[r], ev, ch, k, o);
  }

  /** News of absence that stays in the network stays harmless. */
  lemma StaysHarmless(w: World, sys: Sys, r: nat, ev: Event, ch: Choice, rest: seq<Envelope>, e: Envelope, k: Ref)
    requires WorldOk(w) && Sound(w, sys) && r < Size(w.tree)
    requires Enabled(w.conf[r], sys.caches[r], ev, ch) && KeepsDirty(sys.caches[r], ev)
    requires Sound(w, Apply(w, sys, r, ev, ch, rest))
    requires e in rest && Harmless(sys, e, k)
    ensures Harmless(Apply(w, sys, r, ev, ch, rest), e, k)
  {
    if e.out.AnswerLoad? && e.out.ref == k && e.out.to == Child(r) && e.out.load.LoadError? {
      assert CacheSound(w, r, sys.caches[r]);
      HandleEffect(w.conf[r], sys.caches[r], ev, ch, k, SendLoad(k));
      InFlightAwaited(w, Apply(w, sys, r, ev, ch, rest), e, Rpc(r, Loading(k)));
    }
  }

  lemma ApplyFound(w: World, sys: Sys, a: Action, r: nat, ev: Event, sys': Sys, k: Ref)
    requires WorldOk(w) && Sound(w, sys) && Actor(w, sys, a) == Some((r, ev)) && r < Size(w.tree)
    requires Enabled(w.conf[r], sys.caches[r], ev, a.ch) && Guarded(sys.caches[r], ev) && KeepsDirty(sys.caches[r], ev)
    requires TruthfulReply(w.conf[r], ev) && SenderOk(w.tree, r, ev) && SendOk(sys, r, a.ch)
    requires sys' == Apply(w, sys, r, ev, a.ch, Rest(sys, a)) && Sound(w, sys')
    requires CleanOk(sys, 0, k) && Found(sys, k)
    requires ev.LoadReply? ==> Harmless(sys, Envelope(0, AnswerLoad(Child(r), ev.ref, ev.load)), k)
    requires forall e <- Rest(sys, a) :: e in sys.net
    ensures Found(sys', k)
  {
    ApplyStaysDurable(w, sys, r, ev, a.ch, Rest(sys, a), k);
    forall e | e in sys'.net ensures Harmless(sys', e, k) {
      if e in Rest(sys, a) {
        StaysHarmless(w, sys, r, ev, a.ch, Rest(sys, a), e, k);
      } else {
        assert CacheSound(w, r, sys.caches[r]);
        OutputSound(w, r, sys.caches[r], ev, a.ch, e.out);
        NotToldMissing(w, sys, r, ev, a.ch, e.out, k);
      }
    }
  }

  /** A careful step from a state where k can be found leads to one where k can be found,
      and makes no cache tell anybody that k is missing. */
  lemma StepFound(w: World, sys: Sys, a: Action, sys': Sys, k: Ref)
    requires WorldOk(w) && Sound(w, sys) && Step(w, sys, a, sys') && Careful(w, sys, a)
    requires CleanOk(sys, 0, k) && Found(sys, k)
    ensures Sound(w, sys') && Found(sys', k)
    ensures forall to :: AnswerLoad(to, k, LoadError(ENOENT)) !in Outputs(w, sys, a)
  {
    StepSound(w, sys, a, sys');
    match a
    case Request(r, ev, ch) =>
      ActorArrives(w, sys, a);
      ApplyFound(w, sys, a, r, ev, sys', k);
      forall o | o in Outputs(w, sys, a) && o.AnswerLoad? && o.ref == k && o.load.LoadError?
        ensures o.load.errno != ENOENT
      {
        NotToldMissing(w, sys, r, ev, ch, o, k);
      }
    case Deliver(i, ch) =>
      ActorArrives(w, sys, a);
      var (r, ev) := Actor(w, sys, a).value;
      assert Harmless(sys, sys.net[i], k);
      ApplyFound(w, sys, a, r, ev, sys', k);
      forall o | o in Outputs(w, sys, a) && o.AnswerLoad? && o.ref == k && o.load.LoadError?
        ensures o.load.errno != ENOENT
      {
        NotToldMissing(w, sys, r, ev, ch, o, k);
      }
    case Backing(i, answer, store') =>
      forall e | e in sys'.net ensures Harmless(sys', e, k) {
        assert e in sys.net ==> Harmless(sys, e, k);
      }
    case ServiceUp =>
      forall e | e in sys'.net ensures Harmless(sys', e, k) {
        assert Harmless(sys, e, k);
      }
  }

  /** No rank has a load of k under way. */
  ghost predicate Quiet(sys: Sys, k: Ref) {
    forall r | 0 <= r < |sys.caches| :: !Lookup(sys.caches[r], k).loadPending
  }

  lemma QuietHarmless(w: World, sys: Sys, k: Ref)
    requires WorldOk(w) && Sound(w, sys) && Quiet(sys, k)
    ensures forall e <- sys.net :: Harmless(sys, e, k)
  {
    forall e | e in sys.net ensures Harmless(sys, e, k) {
      if e.out.AnswerLoad? && e.out.to.Child? && e.out.ref == k {
        InFlightAwaited(w, sys, e, Rpc(e.out.to.rank, Loading(k)));
      }
    }
  }

  lemma {:induction false} RunFound(w: World, run: Run, k: Ref, i: nat, j: nat)
    requires WorldOk(w) && IsRun(w, run) && Patient(w, run, k) && i <= j < |run.states|
    requires |run.states[i].caches| > 0 && Found(run.states[i], k)
    ensures Sound(w, run.states[j]) && Found(run.states[j], k)
    decreases j
  {
    RunKept(w, run, k, j);
    if i < j {
      RunFound(w, run, k, i, j - 1);
      RunKept(w, run, k, j - 1);
      StepFound(w, run.states[j - 1], run.acts[j - 1], run.states[j], k);
    }
  }

  /** The load promise: once a store of k has been answered with success and no message under
      way will make a rank without the blob report it missing, no load of k on any rank is
      ever answered ENOENT again. */
  lemma StoredIsFound(w: World, run: Run, k: Ref, i: nat, j: nat, e: Envelope, to: Requester)
    requires WorldOk(w) && IsRun(w, run) && Patient(w, run, k) && i <= j < |run.acts|
    requires e in run.states[i].net && e.out.AnswerStore? && e.out.ref == k && e.out.store.Stored?
    requires forall m <- run.states[i].net :: Harmless(run.states[i], m, k)
    ensures AnswerLoad(to, k, LoadError(ENOENT)) !in Outputs(w, run.states[j], run.acts[j])
  {
    StoredIsDurable(w, run, k, i, i, e);
    RunFound(w, run, k, i, j);
    RunKept(w, run, k, j);
    StepFound(w, run.states[j], run.acts[j], run.states[j + 1], k);
  }

  /** In particular when no load of k is under way anywhere. */
  lemma QuietIsFound(w: World, run: Run, k: Ref, i: nat, j: nat, e: Envelope, to: Requester)
    requires WorldOk(w) && IsRun(w, run) && Patient(w, run, k) && i <= j < |run.acts|
    requires e in run.states[i].net && e.out.AnswerStore? && e.out.ref == k && e.out.store.Stored?
    requires Quiet(run.states[i], k)
    ensures AnswerLoad(to, k, LoadError(ENOENT)) !in Outputs(w, run.states[j], run.acts[j])
  {
    RunKept(w, run, k, i);
    QuietHarmless(w, run.states[i], k);
    StoredIsFound(w, run, k, i, j, e, to);
  }

  /** No send succeeds, and none is needed. */
  const NoSend := Choice(Some(EIO), [])

  /** Case (c), and why no such message may be under way: a load that begins while one is
      joins the older load, and the delivery of the message answers it ENOENT, whatever has
      been stored meanwhile. */
  lemma HarmfulMisses(w: World, sys: Sys, i: nat, q: nat, k: Ref, id: nat) returns (sys1: Sys, sys2: Sys)
    requires WorldOk(w) && Sound(w, sys) && i < |sys.net| && !Harmless(sys, sys.net[i], k)
    requires sys.net[i].out.AnswerLoad? && sys.net[i].out.to == Child(q)
    ensures Step(w, sys, Request(q, Load(Client(id), k), NoSend), sys1)
    ensures Careful(w, sys, Request(q, Load(Client(id), k), NoSend))
    ensures Step(w, sys1, Deliver(i, NoSend), sys2) && Careful(w, sys1, Deliver(i, NoSend))
    ensures AnswerLoad(Client(id), k, LoadError(ENOENT)) in Outputs(w, sys1, Deliver(i, NoSend))
    ensures |sys2.caches| == |sys.caches| > 0 && (Durable(sys, k) ==> Durable(sys2, k))
  {
    var m := sys.net[i];
    var errno := m.out.load.errno;
    InFlightAwaited(w, sys, m, Rpc(q, Loading(k)));
    assert CacheSound(w, q, sys.caches[q]);
    var ask := Request(q, Load(Client(id), k), NoSend);
    sys1 := Apply(w, sys, q, Load(Client(id), k), NoSend, Rest(sys, ask));
    StepSound(w, sys, ask, sys1);
    assert sys1.net[i] == m;
    var e := Lookup(sys1.caches[q], k);
    assert e.loadReqs[|e.loadReqs| - 1] == Client(id);
    var told := Deliver(i, NoSend);
    assert Actor(w, sys1, told) == Some((q, LoadReply(k, LoadError(errno))));
    sys2 := Apply(w, sys1, q, LoadReply(k, LoadError(errno)), NoSend, Rest(sys1, told));
    var out := AnswerLoads(e.loadReqs, k, LoadError(ENOENT));
    assert out[|e.loadReqs| - 1] in out;
  }

  // ---------------------------------------------------------------- the right bytes

  predicate InLedger(sys: Sys, o: Output) {
    match o
    case AnswerLoad(_, _, Loaded(data)) => data in sys.ledger
    case SendStore(data) => data in sys.ledger
    case _ => true
  }

  /** Every blob anywhere was once stored by a client, or was in the backing store. */
  ghost predicate LedgerOk(sys: Sys) {
    && (forall r, k | 0 <= r < |sys.caches| && Lookup(sys.caches[r], k).valid ::
          Lookup(sys.caches[r], k).data in sys.ledger)
    && (forall e <- sys.net :: InLedger(sys, e.out))
    && (forall k <- sys.store :: sys.store[k] in sys.ledger)
  }

  predicate EventInLedger(sys: Sys, ev: Event) {
    match ev
    case Store(from, data) => from.Client? || data in sys.ledger
    case LoadReply(_, Loaded(data)) => data in sys.ledger
    case _ => true
  }

  lemma EntryLedger(w: World, sys: Sys, r: nat, ev: Event, ch: Choice, rest: seq<Envelope>, q: nat, k: Ref)
    requires WorldOk(w) && Sound(w, sys) && r < Size(w.tree) && q < Size(w.tree)
    requires Enabled(w.conf[r], sys.caches[r], ev, ch) && KeepsDirty(sys.caches[r], ev) && EventInLedger(sys, ev)
    requires Lookup(sys.caches[q], k).valid ==> Lookup(sys.caches[q], k).data in sys.ledger
    ensures var sys' := Apply(w, sys, r, ev, ch, rest);
      Lookup(sys'.caches[q], k).valid ==> Lookup(sys'.caches[q], k).data in sys'.ledger
  {
    assert CacheSound(w, r, sys.caches[r]);
    HandleEffect(w.conf[r], sys.caches[r], ev, ch, k, SendLoad(k));
  }

  lemma ApplyLedger(w: World, sys: Sys, r: nat, ev: Event, ch: Choice, rest: seq<Envelope>)
    requires WorldOk(w) && Sound(w, sys) && r < Size(w.tree) && LedgerOk(sys)
    requires Enabled(w.conf[r], sys.caches[r], ev, ch) && KeepsDirty(sys.caches[r], ev)
    requires EventInLedger(sys, ev) && forall e <- rest :: e in sys.net
    ensures LedgerOk(Apply(w, sys, r, ev, ch, rest))
  {
    var sys' := Apply(w, sys, r, ev, ch, rest);
    forall q, k | 0 <= q < |sys'.caches| && Lookup(sys'.caches[q], k).valid
      ensures Lookup(sys'.caches[q], k).data in sys'.ledger
    {
      EntryLedger(w, sys, r, ev, ch, rest, q, k);
    }
    forall e | e in sys'.net ensures InLedger(sys', e.out) {
      if e in rest {
        assert InLedger(sys, e.out);
      } else {
        assert CacheSound(w, r, sys.caches[r]);
        HandleEffect(w.conf[r], sys.caches[r], ev, ch, Ref(""), e.out);
        if e.out.SendStore? {
          EntryLedger(w, sys, r, ev, ch, rest, r, w.hash(e.out.data));
        } else if e.out.AnswerLoad? {
          EntryLedger(w, sys, r, ev, ch, rest, r, e.out.ref);
        }
      }
    }
  }

  lemma StepLedger(w: World, sys: Sys, a: Action, sys': Sys)
    requires WorldOk(w) && Sound(w, sys) && Step(w, sys, a, sys') && Careful(w, sys, a) && LedgerOk(sys)
    ensures LedgerOk(sys')
  {
    match a
    case Request(r, ev, ch) =>
      ActorArrives(w, sys, a);
      ApplyLedger(w, sys, r, ev, ch, Rest(sys, a));
    case Deliver(i, ch) =>
      ActorArrives(w, sys, a);
      var (r, ev) := Actor(w, sys, a).value;
      assert InLedger(sys, sys.net[i].out);
      ApplyLedger(w, sys, r, ev, ch, Rest(sys, a));
    case Backing(i, answer, store') =>
      assert InLedger(sys, sys.net[i].out);
    case ServiceUp =>
  }

  lemma {:induction false} RunLedger(w: World, run: Run, i: nat)
    requires WorldOk(w) && IsRun(w, run) && i < |run.states|
    ensures Sound(w, run.states[i]) && LedgerOk(run.states[i])
  {
    RunSound(w, run, i);
    if i > 0 {
      RunLedger(w, run, i - 1);
      StepLedger(w, run.states[i - 1], run.acts[i - 1], run.states[i]);
    }
  }

  /** Two different blobs ever stored have different blobrefs. */
  ghost predicate NoCollision(w: World, sys: Sys) {
    forall a, b | a in sys.ledger && b in sys.ledger :: w.hash(a) == w.hash(b) ==> a == b
  }

  /** Agreement with the ideal map: whatever a load of k returns has k as its hash and was
      stored by somebody, although load replies are never hashed again.  Without hash
      collisions among the stored blobs it is the one blob stored under k. */
  lemma LoadReturnsStored(w: World, run: Run, i: nat, e: Envelope)
    requires WorldOk(w) && IsRun(w, run) && i < |run.states|
    requires e in run.states[i].net && e.out.AnswerLoad? && e.out.load.Loaded?
    ensures w.hash(e.out.load.data) == e.out.ref && e.out.load.data in run.states[i].ledger
    ensures NoCollision(w, run.states[i]) ==>
              forall d <- run.states[i].ledger :: w.hash(d) == e.out.ref ==> d == e.out.load.data
  {
    RunLedger(w, run, i);
    assert EnvelopeOk(w, e);
    assert InLedger(run.states[i], e.out);
  }
}
