/** What a successful store promises.  The comment above the store handler says that after
    a store RPC returns, the entry may be loaded from any rank.  The code keeps that promise
    exactly as long as no rank > 0 hands a blob that has not reached rank 0 to a child. */
module CacheDurability {
  import opened Basics
  import opened Topology
  import opened CacheModel
  import opened CacheLemmas
  import opened CacheAnswers
  import opened CacheEffects
  import opened CacheTree

  ghost predicate Backed(sys: Sys, k: Ref) {
    sys.up && k in sys.store
  }

  /** Rank 0 holds the blob or the backing store does. */
  ghost predicate Durable(sys: Sys, k: Ref)
    requires |sys.caches| > 0
  {
    Lookup(sys.caches[0], k).valid || Backed(sys, k)
  }

  /** What a clean entry of rank r says about the blob. */
  ghost predicate CleanOk(sys: Sys, r: nat, k: Ref)
    requires r < |sys.caches|
  {
    var e := Lookup(sys.caches[r], k);
    e.valid && !e.dirty ==> if r == 0 then Backed(sys, k) else Durable(sys, k)
  }

  /** What a message about k says about the blob. */
  ghost predicate MessageOk(sys: Sys, e: Envelope, k: Ref)
    requires |sys.caches| > 0
  {
    match e.out
    case SendLoad(_) => e.from == 0 ==> sys.up
    case SendStore(_) => e.from == 0 ==> sys.up
    case AnswerLoad(Child(q), j, Loaded(_)) =>
      j == k ==> if q == 0 then Backed(sys, k)
                 else Durable(sys, k) || (q < |sys.caches| && Lookup(sys.caches[q], k).valid)
    case AnswerStore(to, j, Stored(_)) => j == k ==> if to == Child(0) then Backed(sys, k) else Durable(sys, k)
    case _ => true
  }

  /** Every promise made about k so far is kept. */
  ghost predicate Kept(sys: Sys, k: Ref)
    requires |sys.caches| > 0
  {
    && (forall r | 0 <= r < |sys.caches| :: CleanOk(sys, r, k))
    && (forall e <- sys.net :: MessageOk(sys, e, k))
  }

  /** The messages that an action makes a cache send. */
  ghost function Outputs(w: World, sys: Sys, a: Action): seq<Output> {
    var act := Actor(w, sys, a);
    if act.Some? && act.value.0 < |w.conf| && act.value.0 < |sys.caches|
       && Enabled(w.conf[act.value.0], sys.caches[act.value.0], act.value.1, a.ch)
    then Handle(w.conf[act.value.0], sys.caches[act.value.0], act.value.1, a.ch).out else []
  }

  /** Guard d: the action makes a rank > 0 answer child q, which does not have the blob,
      with a blob that is neither on rank 0 nor in the backing store. */
  ghost predicate Premature(w: World, sys: Sys, a: Action, sys': Sys, q: nat, k: Ref)
    requires |sys'.caches| > 0
  {
    && Actor(w, sys, a).Some? && Actor(w, sys, a).value.0 > 0
    && (exists data :: AnswerLoad(Child(q), k, Loaded(data)) in Outputs(w, sys, a))
    && q < |sys.caches| && !Lookup(sys.caches[q], k).valid && !Durable(sys', k)
  }

  ghost predicate HandsOutEarly(w: World, sys: Sys, a: Action, sys': Sys, k: Ref) {
    |sys'.caches| > 0 && exists q :: Premature(w, sys, a, sys', q, k)
  }

  lemma ApplyStaysDurable(w: World, sys: Sys, r: nat, ev: Event, ch: Choice, rest: seq<Envelope>, k: Ref)
    requires WorldOk(w) && Sound(w, sys) && r < Size(w.tree)
    requires Enabled(w.conf[r], sys.caches[r], ev, ch) && KeepsDirty(sys.caches[r], ev)
    requires CleanOk(sys, 0, k) && Durable(sys, k)
    ensures Durable(Apply(w, sys, r, ev, ch, rest), k)
  {
    if r == 0 {
      assert CacheSound(w, r, sys.caches[r]);
      HandleEffect(w.conf[r], sys.caches[r], ev, ch, k, SendLoad(k));
    }
  }

  /** The event of a reply was a message, with what the message says. */
  ghost predicate ReplyOk(sys: Sys, r: nat, ev: Event, k: Ref)
    requires 0 <= r < |sys.caches|
  {
    match ev
    case LoadReply(j, result) => MessageOk(sys, Envelope(0, AnswerLoad(Child(r), j, result)), k)
    case StoreReply(j, result) => MessageOk(sys, Envelope(0, AnswerStore(Child(r), j, result)), k)
    case _ => true
  }

  lemma ApplyCleanOk(w: World, sys: Sys, r: nat, ev: Event, ch: Choice, rest: seq<Envelope>, k: Ref)
    requires WorldOk(w) && Sound(w, sys) && r < Size(w.tree)
    requires Enabled(w.conf[r], sys.caches[r], ev, ch) && KeepsDirty(sys.caches[r], ev)
    requires forall q | 0 <= q < |sys.caches| :: CleanOk(sys, q, k)
    requires ReplyOk(sys, r, ev, k)
    ensures var sys' := Apply(w, sys, r, ev, ch, rest);
      forall q | 0 <= q < |sys'.caches| :: CleanOk(sys', q, k)
  {
    var sys' := Apply(w, sys, r, ev, ch, rest);
    assert CacheSound(w, r, sys.caches[r]);
    HandleEffect(w.conf[r], sys.caches[r], ev, ch, k, SendLoad(k));
    forall q | 0 <= q < |sys'.caches| ensures CleanOk(sys', q, k) {
      assert CleanOk(sys, q, k);
      if Durable(sys, k) {
        ApplyStaysDurable(w, sys, r, ev, ch, rest, k);
      }
    }
  }

  /** A message that stays in the network stays true. */
  lemma OldMessageOk(w: World, sys: Sys, r: nat, ev: Event, ch: Choice, rest: seq<Envelope>, e: Envelope, k: Ref)
    requires WorldOk(w) && Sound(w, sys) && r < Size(w.tree) && Arrives(w, sys, r, ev, rest)
    requires Enabled(w.conf[r], sys.caches[r], ev, ch) && KeepsDirty(sys.caches[r], ev)
    requires Sound(w, Apply(w, sys, r, ev, ch, rest))
    requires CleanOk(sys, 0, k) && e in rest && MessageOk(sys, e, k)
    ensures MessageOk(Apply(w, sys, r, ev, ch, rest), e, k)
  {
    var sys' := Apply(w, sys, r, ev, ch, rest);
    assert EnvelopeOk(w, e);
    if Durable(sys, k) {
      ApplyStaysDurable(w, sys, r, ev, ch, rest, k);
    } else if e.out.AnswerLoad? && e.out.ref == k && e.out.to == Child(r) && e.out.load.Loaded? {
      assert CacheSound(w, r, sys.caches[r]);
      HandleEffect(w.conf[r], sys.caches[r], ev, ch, k, SendLoad(k));
      InFlightAwaited(w, sys', e, Rpc(r, Loading(k)));
    }
  }

  /** A message that rank r sends is true, unless it is premature. */
  lemma NewMessageOk(w: World, sys: Sys, a: Action, r: nat, ev: Event, sys': Sys, o: Output, k: Ref)
    requires WorldOk(w) && Sound(w, sys) && Actor(w, sys, a) == Some((r, ev)) && r < Size(w.tree)
    requires Enabled(w.conf[r], sys.caches[r], ev, a.ch) && Guarded(sys.caches[r], ev)
    requires TruthfulReply(w.conf[r], ev) && SenderOk(w.tree, r, ev) && SendOk(sys, r, a.ch)
    requires sys' == Apply(w, sys, r, ev, a.ch, Rest(sys, a))
    requires o in Handle(w.conf[r], sys.caches[r], ev, a.ch).out
    requires CleanOk(sys', r, k)
    requires o.AnswerLoad? && o.to.Child? ==> !Premature(w, sys, a, sys', o.to.rank, k)
    ensures MessageOk(sys', Envelope(r, o), k)
  {
    assert CacheSound(w, r, sys.caches[r]);
    HandleEffect(w.conf[r], sys.caches[r], ev, a.ch, k, o);
    OutputSound(w, r, sys.caches[r], ev, a.ch, o);
    if o.AnswerLoad? && o.to.Child? && o.ref == k && o.load.Loaded? && r > 0 {
      assert AnswerLoad(Child(o.to.rank), k, Loaded(o.load.data)) in Outputs(w, sys, a);
    }
  }

  lemma ApplyKept(w: World, sys: Sys, a: Action, r: nat, ev: Event, sys': Sys, k: Ref)
    requires WorldOk(w) && Sound(w, sys) && Actor(w, sys, a) == Some((r, ev)) && r < Size(w.tree)
    requires Enabled(w.conf[r], sys.caches[r], ev, a.ch) && Guarded(sys.caches[r], ev) && KeepsDirty(sys.caches[r], ev)
    requires TruthfulReply(w.conf[r], ev) && Arrives(w, sys, r, ev, Rest(sys, a)) && SendOk(sys, r, a.ch)
    requires sys' == Apply(w, sys, r, ev, a.ch, Rest(sys, a)) && Sound(w, sys')
    requires Kept(sys, k) && ReplyOk(sys, r, ev, k)
    requires forall q :: !Premature(w, sys, a, sys', q, k)
    ensures Kept(sys', k)
  {
    ApplyCleanOk(w, sys, r, ev, a.ch, Rest(sys, a), k);
    forall e | e in sys'.net ensures MessageOk(sys', e, k) {
      if e in Rest(sys, a) {
        OldMessageOk(w, sys, r, ev, a.ch, Rest(sys, a), e, k);
      } else {
        NewMessageOk(w, sys, a, r, ev, sys', e.out, k);
      }
    }
  }

  /** One careful step that is not premature keeps every promise about k. */
  lemma StepKept(w: World, sys: Sys, a: Action, sys': Sys, k: Ref)
    requires WorldOk(w) && Sound(w, sys) && Step(w, sys, a, sys') && Careful(w, sys, a)
    requires Kept(sys, k)
    requires !HandsOutEarly(w, sys, a, sys', k)
    ensures Sound(w, sys') && Kept(sys', k)
    ensures Durable(sys, k) ==> Durable(sys', k)
  {
    StepSound(w, sys, a, sys');
    match a
    case Request(r, ev, ch) =>
      ActorArrives(w, sys, a);
      ApplyKept(w, sys, a, r, ev, sys', k);
      if Durable(sys, k) {
        ApplyStaysDurable(w, sys, r, ev, ch, Rest(sys, a), k);
      }
    case Deliver(i, ch) =>
      ActorArrives(w, sys, a);
      var (r, ev) := Actor(w, sys, a).value;
      assert MessageOk(sys, sys.net[i], k);
      ApplyKept(w, sys, a, r, ev, sys', k);
      if Durable(sys, k) {
        ApplyStaysDurable(w, sys, r, ev, ch, Rest(sys, a), k);
      }
    case Backing(i, answer, store') =>
      assert MessageOk(sys, sys.net[i], k);
      forall q | 0 <= q < |sys'.caches| ensures CleanOk(sys', q, k) {
        assert CleanOk(sys, q, k);
      }
      forall e | e in sys'.net ensures MessageOk(sys', e, k) {
        assert e in sys.net ==> MessageOk(sys, e, k);
      }
    case ServiceUp =>
      forall q | 0 <= q < |sys'.caches| ensures CleanOk(sys', q, k) {
        assert CleanOk(sys, q, k);
      }
      forall e | e in sys'.net ensures MessageOk(sys', e, k) {
        assert MessageOk(sys, e, k);
      }
  }

  // ---------------------------------------------------------------- runs

  /** No step of the run hands out k prematurely. */
  ghost predicate Patient(w: World, run: Run, k: Ref)
    requires |run.states| == |run.acts| + 1
  {
    forall i | 0 <= i < |run.acts| :: !HandsOutEarly(w, run.states[i], run.acts[i], run.states[i + 1], k)
  }

  lemma InitialKept(w: World, sys: Sys, k: Ref)
    requires WorldOk(w) && Initial(w, sys)
    ensures Sound(w, sys) && Kept(sys, k)
  {
    InitialSound(w, sys);
  }

  lemma {:induction false} RunKept(w: World, run: Run, k: Ref, i: nat)
    requires WorldOk(w) && IsRun(w, run) && Patient(w, run, k) && i < |run.states|
    ensures Sound(w, run.states[i]) && Kept(run.states[i], k)
  {
    if i == 0 {
      InitialKept(w, run.states[0], k);
    } else {
      RunKept(w, run, k, i - 1);
      StepKept(w, run.states[i - 1], run.acts[i - 1], run.states[i], k);
    }
  }

  lemma {:induction false} StaysDurable(w: World, run: Run, k: Ref, i: nat, j: nat)
    requires WorldOk(w) && IsRun(w, run) && Patient(w, run, k) && i <= j < |run.states|
    requires |run.states[i].caches| > 0 && Durable(run.states[i], k)
    ensures |run.states[j].caches| > 0 && Durable(run.states[j], k)
    decreases j
  {
    if i < j {
      StaysDurable(w, run, k, i, j - 1);
      RunKept(w, run, k, j - 1);
      StepKept(w, run.states[j - 1], run.acts[j - 1], run.states[j], k);
    }
  }

  /** The store promise: once any rank has answered any store of k with success, rank 0
      or the backing store holds the blob, and goes on holding it. */
  lemma StoredIsDurable(w: World, run: Run, k: Ref, i: nat, j: nat, e: Envelope)
    requires WorldOk(w) && IsRun(w, run) && Patient(w, run, k) && i <= j < |run.states|
    requires e in run.states[i].net && e.out.AnswerStore? && e.out.ref == k && e.out.store.Stored?
    ensures |run.states[j].caches| > 0 && Durable(run.states[j], k)
  {
    RunKept(w, run, k, i);
    assert MessageOk(run.states[i], e, k);
    StaysDurable(w, run, k, i, j);
  }

  // ---------------------------------------------------------------- a test that a cache can make

  /** The test that the code lacks, which a cache could make before it answers: a rank above 0
      serves the load of a child only out of an entry that is not dirty, and a store does not
      answer the loads of children that wait for the blob. */
  predicate AnswersClean(c: Config, s: Cache, ev: Event, k: Ref) {
    s.rank > 0 ==>
      match ev
      case Load(Child(_), j) => j == k ==> !Lookup(s, k).dirty
      case Store(_, data) =>
        c.hash(data) == k && !Lookup(s, k).valid ==> forall q <- Lookup(s, k).loadReqs :: q.Client?
      case _ => true
  }

  lemma StoreTellsNoChild(c: Config, s: Cache, from: Requester, blob: Blob, send: Option<Errno>,
                          q: nat, k: Ref, data: Blob)
    requires s.rank > 0 && AnswersClean(c, s, Store(from, blob), k)
    ensures AnswerLoad(Child(q), k, Loaded(data)) !in StoreRequest(c, s, from, blob, send).out
  {
    var j, o := c.hash(blob), AnswerLoad(Child(q), k, Loaded(data));
    var e := Lookup(s, j);
    forall i | 0 <= i < |e.loadReqs| && !e.valid ensures o != AnswerLoad(e.loadReqs[i], j, Loaded(blob)) {
      assert e.loadReqs[i] in e.loadReqs;
    }
  }

  /** With that test a blob is only ever handed to a child out of a clean entry. */
  lemma CleanAnswer(c: Config, s: Cache, ev: Event, ch: Choice, q: nat, k: Ref, data: Blob)
    requires Accounts(c, s) && Honest(c, s) && Enabled(c, s, ev, ch)
    requires s.rank > 0 && AnswersClean(c, s, ev, k)
    requires AnswerLoad(Child(q), k, Loaded(data)) in Handle(c, s, ev, ch).out
    ensures var e := Lookup(Handle(c, s, ev, ch).cache, k); e.valid && !e.dirty
  {
    HandleEffect(c, s, ev, ch, k, AnswerLoad(Child(q), k, Loaded(data)));
    assert EntryOk(s.rank, Lookup(s, k));
    if ev.Store? {
      StoreTellsNoChild(c, s, ev.from, ev.data, ch.send, q, k, data);
    }
  }

  ghost predicate Cautious(w: World, sys: Sys, a: Action, k: Ref) {
    var act := Actor(w, sys, a);
    act.Some? && act.value.0 < |sys.caches| && act.value.0 < |w.conf| ==>
      AnswersClean(w.conf[act.value.0], sys.caches[act.value.0], act.value.1, k)
  }

  lemma CautiousAnswer(w: World, sys: Sys, a: Action, sys': Sys, q: nat, k: Ref, data: Blob)
    requires WorldOk(w) && Sound(w, sys) && Step(w, sys, a, sys') && Careful(w, sys, a)
    requires Kept(sys, k) && Cautious(w, sys, a, k) && Actor(w, sys, a).Some? && Actor(w, sys, a).value.0 > 0
    requires AnswerLoad(Child(q), k, Loaded(data)) in Outputs(w, sys, a)
    ensures |sys'.caches| > 0 && Durable(sys', k)
  {
    var (r, ev) := Actor(w, sys, a).value;
    StepSound(w, sys, a, sys');
    ActorArrives(w, sys, a);
    assert CacheSound(w, r, sys.caches[r]);
    CleanAnswer(w.conf[r], sys.caches[r], ev, a.ch, q, k, data);
    assert a.Deliver? ==> MessageOk(sys, sys.net[a.msg], k);
    ApplyCleanOk(w, sys, r, ev, a.ch, Rest(sys, a), k);
    assert CleanOk(sys', r, k);
  }

  lemma CautiousNotEarly(w: World, sys: Sys, a: Action, sys': Sys, k: Ref)
    requires WorldOk(w) && Sound(w, sys) && Step(w, sys, a, sys') && Careful(w, sys, a)
    requires Kept(sys, k) && Cautious(w, sys, a, k)
    ensures !HandsOutEarly(w, sys, a, sys', k)
  {
    forall q, data | |sys'.caches| > 0 && Actor(w, sys, a).Some? && Actor(w, sys, a).value.0 > 0
                     && AnswerLoad(Child(q), k, Loaded(data)) in Outputs(w, sys, a)
      ensures Durable(sys', k)
    {
      CautiousAnswer(w, sys, a, sys', q, k, data);
    }
  }

  /** So a run in which every step passes the test is patient, and keeps the store promise. */
  lemma {:induction false} CautiousPatient(w: World, run: Run, k: Ref, i: nat)
    requires WorldOk(w) && IsRun(w, run) && i < |run.states|
    requires forall j | 0 <= j < |run.acts| :: Cautious(w, run.states[j], run.acts[j], k)
    ensures Sound(w, run.states[i]) && Kept(run.states[i], k)
    ensures forall j | 0 <= j < i :: !HandsOutEarly(w, run.states[j], run.acts[j], run.states[j + 1], k)
  {
    if i == 0 {
      InitialKept(w, run.states[0], k);
    } else {
      CautiousPatient(w, run, k, i - 1);
      CautiousNotEarly(w, run.states[i - 1], run.acts[i - 1], run.states[i], k);
      StepKept(w, run.states[i - 1], run.acts[i - 1], run.states[i], k);
    }
  }

  lemma CautiousIsDurable(w: World, run: Run, k: Ref, i: nat, j: nat, e: Envelope)
    requires WorldOk(w) && IsRun(w, run) && i <= j < |run.states|
    requires forall n | 0 <= n < |run.acts| :: Cautious(w, run.states[n], run.acts[n], k)
    requires e in run.states[i].net && e.out.AnswerStore? && e.out.ref == k && e.out.store.Stored?
    ensures |run.states[j].caches| > 0 && Durable(run.states[j], k)
  {
    CautiousPatient(w, run, k, |run.acts|);
    StoredIsDurable(w, run, k, i, j, e);
  }

  // ---------------------------------------------------------------- why patience is needed

  const Quick := Choice(None, [])

  /** A blob that arrives on rank q > 0 is valid and clean there, and that is all. */
  lemma DeliverBlob(w: World, sys: Sys, i: nat, q: nat, k: Ref, data: Blob) returns (sys': Sys)
    requires WorldOk(w) && Sound(w, sys) && i < |sys.net| && 0 < q < Size(w.tree)
    requires sys.net[i].out == AnswerLoad(Child(q), k, Loaded(data)) && !Lookup(sys.caches[q], k).valid
    ensures Step(w, sys, Deliver(i, Quick), sys') && Careful(w, sys, Deliver(i, Quick)) && Sound(w, sys')
    ensures Durable(sys', k) == Durable(sys, k)
    ensures Lookup(sys'.caches[q], k).valid && !Lookup(sys'.caches[q], k).dirty && w.hash(data) == k
  {
    var a := Deliver(i, Quick);
    assert EnvelopeOk(w, sys.net[i]);
    ActorArrives(w, sys, a);
    assert CacheSound(w, q, sys.caches[q]);
    sys' := Apply(w, sys, q, LoadReply(k, Loaded(data)), Quick, Rest(sys, a));
    StepSound(w, sys, a, sys');
  }

  /** A store of a blob that is valid and clean on rank q > 0 is answered at once. */
  lemma StoreClean(w: World, sys: Sys, q: nat, data: Blob, id: nat) returns (sys': Sys)
    requires WorldOk(w) && Sound(w, sys) && 0 < q < Size(w.tree) && |data| <= w.conf[q].blobLimit
    requires var e := Lookup(sys.caches[q], w.hash(data)); e.valid && !e.dirty
    ensures var a := Request(q, Store(Client(id), data), Quick); Step(w, sys, a, sys') && Careful(w, sys, a)
    ensures Envelope(q, AnswerStore(Client(id), w.hash(data), Stored(w.hash(data)))) in sys'.net
    ensures |sys'.caches| > 0 && Durable(sys', w.hash(data)) == Durable(sys, w.hash(data))
  {
    assert CacheSound(w, q, sys.caches[q]);
    sys' := Apply(w, sys, q, Store(Client(id), data), Quick, sys.net);
    var out := Handle(w.conf[q], sys.caches[q], Store(Client(id), data), Quick).out;
    assert out == [AnswerStore(Client(id), w.hash(data), Stored(w.hash(data)))];
    assert Tag(q, out)[0] in sys'.net;
  }

  /** Why patience is needed: after a premature answer two more careful steps, the delivery
      of that answer and a store of the same blob by a client of the child, answer a store
      with success although neither rank 0 nor the backing store holds the blob. */
  lemma PrematureBreaks(w: World, sys: Sys, a: Action, sys': Sys, q: nat, k: Ref, id: nat)
      returns (a1: Action, sys1: Sys, a2: Action, sys2: Sys)
    requires WorldOk(w) && Sound(w, sys) && Step(w, sys, a, sys') && Careful(w, sys, a)
    requires |sys'.caches| > 0 && Premature(w, sys, a, sys', q, k)
    requires forall data | AnswerLoad(Child(q), k, Loaded(data)) in Outputs(w, sys, a) ::
               q < |w.conf| && |data| <= w.conf[q].blobLimit
    ensures Step(w, sys', a1, sys1) && Careful(w, sys', a1)
    ensures Step(w, sys1, a2, sys2) && Careful(w, sys1, a2)
    ensures Envelope(q, AnswerStore(Client(id), k, Stored(k))) in sys2.net
    ensures |sys2.caches| > 0 && !Durable(sys2, k)
  {
    StepSound(w, sys, a, sys');
    ActorArrives(w, sys, a);
    var (r, ev) := Actor(w, sys, a).value;
    var data :| AnswerLoad(Child(q), k, Loaded(data)) in Outputs(w, sys, a);
    assert CacheSound(w, r, sys.caches[r]);
    OutputSound(w, r, sys.caches[r], ev, a.ch, AnswerLoad(Child(q), k, Loaded(data)));
    var i := IndexOf(sys', Rest(sys, a), r, Outputs(w, sys, a), AnswerLoad(Child(q), k, Loaded(data)));
    a1 := Deliver(i, Quick);
    sys1 := DeliverBlob(w, sys', i, q, k, data);
    a2 := Request(q, Store(Client(id), data), Quick);
    sys2 := StoreClean(w, sys1, q, data, id);
  }

  lemma IndexOf(sys: Sys, rest: seq<Envelope>, r: nat, out: seq<Output>, o: Output) returns (i: nat)
    requires sys.net == rest + Tag(r, out) && o in out
    ensures i < |sys.net| && sys.net[i] == Envelope(r, o)
  {
    var j :| 0 <= j < |out| && out[j] == o;
    i := |rest| + j;
  }
}
