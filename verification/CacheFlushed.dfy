/** What a successful flush promises: what the rank holds has reached the next level. */
module CacheFlushed {
  import opened Basics
  import opened Topology
  import opened CacheModel
  import opened CacheLemmas
  import opened CacheEffects
  import opened CacheTree
  import opened CacheDurability
  import opened CacheReplies

  /** What a message between rank 0 and the backing store says about k. */
  ghost predicate RootMessageOk(sys: Sys, e: Envelope, k: Ref) {
    match e.out
    case SendLoad(_) => e.from == 0 ==> sys.up
    case SendStore(_) => e.from == 0 ==> sys.up
    case AnswerLoad(Child(q), j, Loaded(_)) => q == 0 && j == k ==> Backed(sys, k)
    case AnswerStore(Child(q), j, Stored(_)) => q == 0 && j == k ==> Backed(sys, k)
    case _ => true
  }

  /** What is clean on rank 0 is in the backing store.  Unlike Kept, this needs no patience. */
  ghost predicate RootKept(sys: Sys, k: Ref)
    requires |sys.caches| > 0
  {
    CleanOk(sys, 0, k) && forall e <- sys.net :: RootMessageOk(sys, e, k)
  }

  lemma RootCleanOk(w: World, sys: Sys, r: nat, ev: Event, ch: Choice, rest: seq<Envelope>, k: Ref)
    requires WorldOk(w) && Sound(w, sys) && r < Size(w.tree) && CleanOk(sys, 0, k)
    requires Enabled(w.conf[r], sys.caches[r], ev, ch) && KeepsDirty(sys.caches[r], ev)
    requires r == 0 && (ev == StoreReply(k, Stored(k)) || (ev.LoadReply? && ev.ref == k && ev.load.Loaded?)) ==>
      Backed(sys, k)
    ensures CleanOk(Apply(w, sys, r, ev, ch, rest), 0, k)
  {
    if r == 0 {
      assert CacheSound(w, r, sys.caches[r]);
      HandleEffect(w.conf[r], sys.caches[r], ev, ch, k, SendLoad(k));
    }
  }

  lemma RootNewMessage(w: World, sys: Sys, r: nat, ev: Event, ch: Choice, rest: seq<Envelope>, o: Output, k: Ref)
    requires WorldOk(w) && Sound(w, sys) && r < Size(w.tree) && SenderOk(w.tree, r, ev) && SendOk(sys, r, ch)
    requires Enabled(w.conf[r], sys.caches[r], ev, ch) && Guarded(sys.caches[r], ev)
    requires TruthfulReply(w.conf[r], ev) && o in Handle(w.conf[r], sys.caches[r], ev, ch).out
    ensures RootMessageOk(Apply(w, sys, r, ev, ch, rest), Envelope(r, o), k)
  {
    assert CacheSound(w, r, sys.caches[r]);
    HandleEffect(w.conf[r], sys.caches[r], ev, ch, k, o);
    OutputSound(w, r, sys.caches[r], ev, ch, o);
  }

  lemma ApplyRootKept(w: World, sys: Sys, a: Action, r: nat, ev: Event, ch: Choice, k: Ref)
    requires WorldOk(w) && Sound(w, sys) && Actor(w, sys, a) == Some((r, ev)) && r < Size(w.tree) && RootKept(sys, k)
    requires Enabled(w.conf[r], sys.caches[r], ev, ch) && Guarded(sys.caches[r], ev) && KeepsDirty(sys.caches[r], ev)
    requires TruthfulReply(w.conf[r], ev) && SendOk(sys, r, ch) && Arrives(w, sys, r, ev, Rest(sys, a))
    ensures var sys' := Apply(w, sys, r, ev, ch, Rest(sys, a)); |sys'.caches| > 0 && RootKept(sys', k)
  {
    var sys' := Apply(w, sys, r, ev, ch, Rest(sys, a));
    assert a.Deliver? ==> RootMessageOk(sys, sys.net[a.msg], k);
    RootCleanOk(w, sys, r, ev, ch, Rest(sys, a), k);
    forall e | e in sys'.net ensures RootMessageOk(sys', e, k) {
      if e in Rest(sys, a) {
        assert RootMessageOk(sys, e, k);
      } else {
        RootNewMessage(w, sys, r, ev, ch, Rest(sys, a), e.out, k);
      }
    }
  }

  lemma StepRootKept(w: World, sys: Sys, a: Action, sys': Sys, k: Ref)
    requires WorldOk(w) && Sound(w, sys) && Step(w, sys, a, sys') && Careful(w, sys, a) && RootKept(sys, k)
    ensures |sys'.caches| > 0 && RootKept(sys', k)
  {
    StepSound(w, sys, a, sys');
    match a
    case Request(r, ev, ch) =>
      ActorArrives(w, sys, a);
      ApplyRootKept(w, sys, a, r, ev, ch, k);
    case Deliver(i, ch) =>
      ActorArrives(w, sys, a);
      var (r, ev) := Actor(w, sys, a).value;
      ApplyRootKept(w, sys, a, r, ev, ch, k);
    case Backing(i, answer, store') =>
      assert RootMessageOk(sys, sys.net[i], k);
      forall e | e in sys'.net ensures RootMessageOk(sys', e, k) {
        assert e in sys.net ==> RootMessageOk(sys, e, k);
      }
    case ServiceUp =>
      forall e | e in sys'.net ensures RootMessageOk(sys', e, k) {
        assert RootMessageOk(sys, e, k);
      }
  }

  lemma {:induction false} RunRootKept(w: World, run: Run, i: nat, k: Ref)
    requires WorldOk(w) && IsRun(w, run) && i < |run.states|
    ensures Sound(w, run.states[i]) && RootKept(run.states[i], k)
  {
    RunSound(w, run, i);
    if i > 0 {
      RunRootKept(w, run, i - 1, k);
      StepRootKept(w, run.states[i - 1], run.acts[i - 1], run.states[i], k);
    }
  }

  /** Action a makes rank r answer a flush request with success. */
  ghost predicate Flushes(w: World, sys: Sys, a: Action, r: nat, q: Requester) {
    && Actor(w, sys, a).Some? && Actor(w, sys, a).value.0 == r
    && (Actor(w, sys, a).value.1.Flush? || Actor(w, sys, a).value.1.StoreReply?)
    && Answer(q, None) in Outputs(w, sys, a)
  }

  /** Then nothing is dirty there. */
  lemma FlushedClean(w: World, sys: Sys, a: Action, sys': Sys, r: nat, q: Requester, k: Ref)
    requires WorldOk(w) && Sound(w, sys) && Step(w, sys, a, sys') && Careful(w, sys, a) && Flushes(w, sys, a, r, q)
    ensures r < |sys'.caches| && !Lookup(sys'.caches[r], k).dirty
  {
    StepSound(w, sys, a, sys');
    var ev := Actor(w, sys, a).value.1;
    assert CacheSound(w, r, sys.caches[r]);
    FlushAnswer(w.conf[r], sys.caches[r], ev, a.ch, Answer(q, None));
    if Lookup(sys'.caches[r], k).dirty {
      TotalPositive(sys'.caches[r].entries, DirtyOf, k);
    }
  }

  /** When rank 0 answers a flush with success, every blob that it holds is in the backing
      store, in every run. */
  lemma FlushedIsBacked(w: World, run: Run, i: nat, q: Requester, k: Ref)
    requires WorldOk(w) && IsRun(w, run) && i < |run.acts| && Flushes(w, run.states[i], run.acts[i], 0, q)
    ensures |run.states[i + 1].caches| > 0
    ensures Lookup(run.states[i + 1].caches[0], k).valid ==> Backed(run.states[i + 1], k)
  {
    RunRootKept(w, run, i, k);
    RunRootKept(w, run, i + 1, k);
    FlushedClean(w, run.states[i], run.acts[i], run.states[i + 1], 0, q, k);
  }

  /** So then every blob whose store has been answered with success, on any rank and at any
      time before, is in the backing store, as long as the promise to store it was kept. */
  lemma FlushedIsSafe(w: World, run: Run, n: nat, i: nat, q: Requester, k: Ref, e: Envelope)
    requires WorldOk(w) && IsRun(w, run) && Patient(w, run, k) && n <= i < |run.acts|
    requires e in run.states[n].net && e.out.AnswerStore? && e.out.ref == k && e.out.store.Stored?
    requires Flushes(w, run.states[i], run.acts[i], 0, q)
    ensures Backed(run.states[i + 1], k)
  {
    StoredIsDurable(w, run, k, n, i + 1, e);
    FlushedIsBacked(w, run, i, q, k);
  }

  /** When any rank answers a flush with success, what it holds is on rank 0 or in the backing
      store. */
  lemma FlushedIsDurable(w: World, run: Run, i: nat, r: nat, q: Requester, k: Ref)
    requires WorldOk(w) && IsRun(w, run) && Patient(w, run, k) && i < |run.acts|
    requires Flushes(w, run.states[i], run.acts[i], r, q)
    ensures r < |run.states[i + 1].caches|
    ensures Lookup(run.states[i + 1].caches[r], k).valid ==> Durable(run.states[i + 1], k)
  {
    RunKept(w, run, k, i);
    RunKept(w, run, k, i + 1);
    FlushedClean(w, run.states[i], run.acts[i], run.states[i + 1], r, q, k);
    assert CleanOk(run.states[i + 1], r, k);
  }
}
