/** Short runs that show that each guard is needed. */
module CacheWitness {
  import opened Basics
  import opened Topology
  import opened CacheModel
  import opened CacheLemmas
  import opened CacheTree
  import opened CacheDurability

  /** sys after rank r has handled a local event. */
  ghost function Asked(w: World, sys: Sys, r: nat, ev: Event): Sys
    requires r < |w.conf| && r < |sys.caches| && Enabled(w.conf[r], sys.caches[r], ev, Quick)
  {
    Apply(w, sys, r, ev, Quick, sys.net)
  }

  lemma Extend(w: World, run: Run, a: Action, sys: Sys) returns (longer: Run)
    requires IsRun(w, run) && Step(w, run.states[|run.acts|], a, sys) && Careful(w, run.states[|run.acts|], a)
    ensures longer == Run(run.states + [sys], run.acts + [a]) && IsRun(w, longer)
  {
    longer := Run(run.states + [sys], run.acts + [a]);
    forall i | 0 <= i < |longer.acts|
      ensures Step(w, longer.states[i], longer.acts[i], longer.states[i + 1])
      ensures Careful(w, longer.states[i], longer.acts[i])
    {
      if i < |run.acts| {
        assert Step(w, run.states[i], run.acts[i], run.states[i + 1]);
      }
    }
  }

  // ---------------------------------------------------------------- the store promise

  /** A client of r stores a blob, and a client of its child q asks for it. */
  lemma StoreAndAsk(w: World, sys0: Sys, r: nat, q: nat, data: Blob) returns (run: Run)
    requires WorldOk(w) && Initial(w, sys0) && 0 < r && 0 < q < Size(w.tree) && w.tree.parent[q] == r
    requires |data| <= w.conf[r].blobLimit
    ensures IsRun(w, run) && |run.acts| == 2 && run.states[0] == sys0
    ensures var k, last := w.hash(data), run.states[2];
      && last.net == [Envelope(r, SendStore(data)), Envelope(q, SendLoad(k))]
      && |last.caches| == Size(w.tree) && last.caches[0] == EmptyCache(0) && !last.up
      && Lookup(last.caches[r], k).valid && Lookup(last.caches[r], k).data == data
      && !Lookup(last.caches[q], k).valid
  {
    var k := w.hash(data);
    assert Filled(sys0.caches[r], k, data) == NewEntry.(valid := true, data := data, dirty := true);
    var sys1 := Asked(w, sys0, r, Store(Client(0), data));
    assert sys1.net == [Envelope(r, SendStore(data))];
    var sys2 := Asked(w, sys1, q, Load(Client(1), k));
    assert sys2.net == [Envelope(r, SendStore(data)), Envelope(q, SendLoad(k))];
    run := Extend(w, Run([sys0], []), Request(r, Store(Client(0), data), Quick), sys1);
    run := Extend(w, run, Request(q, Load(Client(1), k), Quick), sys2);
  }

  /** Before the blob gets to rank 0, the load of child q is answered. */
  lemma EarlyRun(w: World, sys0: Sys, q: nat, data: Blob) returns (run: Run)
    requires WorldOk(w) && Initial(w, sys0) && 0 < q < Size(w.tree) && 0 < w.tree.parent[q]
    requires |data| <= w.conf[w.tree.parent[q]].blobLimit
    ensures IsRun(w, run) && |run.acts| == 3 && run.states[0] == sys0
    ensures Sound(w, run.states[2]) && |run.states[3].caches| > 0
    ensures Premature(w, run.states[2], run.acts[2], run.states[3], q, w.hash(data))
    ensures Outputs(w, run.states[2], run.acts[2]) == [AnswerLoad(Child(q), w.hash(data), Loaded(data))]
  {
    var k, r, a := w.hash(data), w.tree.parent[q], Deliver(1, Quick);
    run := StoreAndAsk(w, sys0, r, q, data);
    RunSound(w, run, 2);
    var sys2 := run.states[2];
    assert Actor(w, sys2, a) == Some((r, Load(Child(q), k)));
    var sys3 := Apply(w, sys2, r, Load(Child(q), k), Quick, Rest(sys2, a));
    assert Outputs(w, sys2, a) == [AnswerLoad(Child(q), k, Loaded(data))];
    assert AnswerLoad(Child(q), k, Loaded(data)) in Outputs(w, sys2, a);
    run := Extend(w, run, a, sys3);
  }

  /** The store promise does not hold as it stands.  On every tree with a rank q at depth
      two or more, five careful steps lead from any initial state to one where a store has
      been answered with success and neither rank 0 nor the backing store holds the blob. */
  lemma StorePromiseBroken(w: World, sys0: Sys, q: nat, data: Blob) returns (run: Run)
    requires WorldOk(w) && Initial(w, sys0) && 0 < q < Size(w.tree) && 0 < w.tree.parent[q]
    requires |data| <= w.conf[q].blobLimit && |data| <= w.conf[w.tree.parent[q]].blobLimit
    ensures IsRun(w, run) && |run.acts| == 5 && run.states[0] == sys0
    ensures var last := run.states[5];
      && Envelope(q, AnswerStore(Client(2), w.hash(data), Stored(w.hash(data)))) in last.net
      && |last.caches| > 0 && !Durable(last, w.hash(data))
  {
    run := EarlyRun(w, sys0, q, data);
    var a4, sys4, a5, sys5 :=
      PrematureBreaks(w, run.states[2], run.acts[2], run.states[3], q, w.hash(data), 2);
    run := Extend(w, run, a4, sys4);
    run := Extend(w, run, a5, sys5);
  }

  // ---------------------------------------------------------------- a load that joins an older one

  const NoService := Choice(Some(ENOSYS), [])

  function Miss(q: nat, k: Ref): Envelope {
    Envelope(0, AnswerLoad(Child(q), k, LoadError(ENOENT)))
  }

  /** Child q of rank 0 asks for k and rank 0 answers that it is missing. */
  lemma FirstLoad(w: World, sys0: Sys, q: nat, k: Ref) returns (run: Run)
    requires WorldOk(w) && Initial(w, sys0) && 0 < q < Size(w.tree) && w.tree.parent[q] == 0
    ensures IsRun(w, run) && |run.acts| == 2
    ensures var last := run.states[2];
      && last.net == [Miss(q, k)] && !last.up && |last.caches| == Size(w.tree) && last.caches[0] == EmptyCache(0)
      && last.caches[q] == Put(EmptyCache(q), k, NewEntry.(loadPending := true, loadReqs := [Client(1)]))
  {
    var sys1 := Asked(w, sys0, q, Load(Client(1), k));
    assert [] + [Client(1)] == [Client(1)];
    assert sys1.net == [Envelope(q, SendLoad(k))];
    run := Extend(w, Run([sys0], []), Request(q, Load(Client(1), k), Quick), sys1);
    var sys2 := ParentMisses(w, sys1, q, k);
    run := Extend(w, run, Deliver(0, NoService), sys2);
  }

  /** Rank 0, which has nothing, answers the load of its child. */
  lemma ParentMisses(w: World, sys1: Sys, q: nat, k: Ref) returns (sys2: Sys)
    requires WorldOk(w) && 0 < q < Size(w.tree) && w.tree.parent[q] == 0 && |sys1.caches| == Size(w.tree)
    requires sys1.caches[0] == EmptyCache(0) && !sys1.up && sys1.net == [Envelope(q, SendLoad(k))]
    ensures Step(w, sys1, Deliver(0, NoService), sys2) && Careful(w, sys1, Deliver(0, NoService))
    ensures sys2.net == [Miss(q, k)] && !sys2.up && sys2.caches == sys1.caches
  {
    assert Actor(w, sys1, Deliver(0, NoService)) == Some((0, Load(Child(q), k)));
    sys2 := Apply(w, sys1, 0, Load(Child(q), k), NoService, Without(sys1.net, 0));
  }

  /** k is stored on rank 0, and q asks again before it has heard the first answer. */
  lemma SecondLoad(w: World, sys0: Sys, q: nat, data: Blob) returns (run: Run)
    requires WorldOk(w) && Initial(w, sys0) && 0 < q < Size(w.tree) && w.tree.parent[q] == 0
    requires |data| <= w.conf[0].blobLimit
    ensures IsRun(w, run) && |run.acts| == 4
    ensures var k, last := w.hash(data), run.states[4];
      && run.acts[3] == Request(q, Load(Client(3), k), Quick)
      && last.net == run.states[3].net == [Miss(q, k), Envelope(0, AnswerStore(Client(2), k, Stored(k)))]
      && |last.caches| == Size(w.tree)
      && last.caches[q] == Put(EmptyCache(q), k, NewEntry.(loadPending := true, loadReqs := [Client(1), Client(3)]))
  {
    var k := w.hash(data);
    run := FirstLoad(w, sys0, q, k);
    var sys2 := run.states[2];
    var sys3 := Apply(w, sys2, 0, Store(Client(2), data), NoService, sys2.net);
    assert sys3.net == [Miss(q, k), Envelope(0, AnswerStore(Client(2), k, Stored(k)))];
    var sys4 := Asked(w, sys3, q, Load(Client(3), k));
    assert [Client(1)] + [Client(3)] == [Client(1), Client(3)];
    run := Extend(w, run, Request(0, Store(Client(2), data), NoService), sys3);
    run := Extend(w, run, Request(q, Load(Client(3), k), Quick), sys4);
  }

  lemma BothTold(w: World, sys4: Sys, q: nat, k: Ref, rest: seq<Envelope>) returns (sys5: Sys)
    requires WorldOk(w) && 0 < q < Size(w.tree) && |sys4.caches| == Size(w.tree) && sys4.net == [Miss(q, k)] + rest
    requires sys4.caches[q] == Put(EmptyCache(q), k, NewEntry.(loadPending := true, loadReqs := [Client(1), Client(3)]))
    ensures Step(w, sys4, Deliver(0, Quick), sys5) && Careful(w, sys4, Deliver(0, Quick))
    ensures Envelope(q, AnswerLoad(Client(3), k, LoadError(ENOENT))) in sys5.net
  {
    assert Actor(w, sys4, Deliver(0, Quick)) == Some((q, LoadReply(k, LoadError(ENOENT))));
    sys5 := Apply(w, sys4, q, LoadReply(k, LoadError(ENOENT)), Quick, Without(sys4.net, 0));
    var told := Handle(w.conf[q], sys4.caches[q], LoadReply(k, LoadError(ENOENT)), Quick).out;
    assert told[1] == AnswerLoad(Client(3), k, LoadError(ENOENT));
    assert Tag(q, told)[1] in sys5.net;
  }

  /** A load may be answered ENOENT although it began after a store of the same blob was
      answered with success: it joins an older load whose answer was on its way. */
  lemma LateLoadMisses(w: World, sys0: Sys, q: nat, data: Blob) returns (run: Run)
    requires WorldOk(w) && Initial(w, sys0) && 0 < q < Size(w.tree) && w.tree.parent[q] == 0
    requires |data| <= w.conf[0].blobLimit
    ensures var k := w.hash(data);
      && IsRun(w, run) && |run.acts| == 5
      && Envelope(0, AnswerStore(Client(2), k, Stored(k))) in run.states[3].net
      && run.acts[3] == Request(q, Load(Client(3), k), Quick)
      && Envelope(q, AnswerLoad(Client(3), k, LoadError(ENOENT))) in run.states[5].net
  {
    run := SecondLoad(w, sys0, q, data);
    var sys5 := BothTold(w, run.states[4], q, w.hash(data), run.states[4].net[1..]);
    run := Extend(w, run, Deliver(0, Quick), sys5);
  }

  // ---------------------------------------------------------------- a store that overtakes a load

  const Told := Envelope(0, Answer(Client(0), None))

  function Success(k: Ref): Envelope {
    Envelope(0, AnswerStore(Client(2), k, Stored(k)))
  }

  /** The backing store comes up on rank 0. */
  lemma ServiceStarts(w: World, sys0: Sys) returns (run: Run)
    requires WorldOk(w) && Initial(w, sys0)
    ensures IsRun(w, run) && |run.acts| == 2
    ensures var last := run.states[2];
      && last.net == [Told] && last.up && last.store == sys0.store
      && |last.caches| == Size(w.tree) && last.caches[0] == EmptyCache(0).(backing := true)
  {
    var sys1 := Apply(w, sys0, 0, SetBacking(Client(0), true), NoService, sys0.net);
    assert sys1.net == [Told];
    run := Extend(w, Run([sys0], []), Request(0, SetBacking(Client(0), true), NoService), sys1);
    run := Extend(w, run, ServiceUp, sys1.(up := true));
  }

  /** Rank 0 with both a load and a store of k on their way to the backing store. */
  ghost predicate Overtaken(w: World, sys: Sys, store: map<Ref, Blob>, data: Blob) {
    var k := w.hash(data);
    && sys.net == [Told, Envelope(0, SendLoad(k)), Envelope(0, AnswerLoad(Client(1), k, Loaded(data))),
                   Envelope(0, SendStore(data)), Success(k)]
    && sys.up && sys.store == store && |sys.caches| == Size(w.tree) > 0
    && sys.caches[0] == Put(EmptyCache(0).(backing := true, batch := 1), k,
                            Entry(true, true, true, true, data, [], [], 0))
  }

  ghost predicate LoadSent(w: World, sys: Sys, store: map<Ref, Blob>, k: Ref) {
    && sys.net == [Told, Envelope(0, SendLoad(k))]
    && sys.up && sys.store == store && |sys.caches| == Size(w.tree) > 0
    && sys.caches[0] == Put(EmptyCache(0).(backing := true), k,
                            NewEntry.(loadPending := true, loadReqs := [Client(1)]))
  }

  lemma SendsLoad(w: World, sys0: Sys, k: Ref) returns (run: Run)
    requires WorldOk(w) && Initial(w, sys0)
    ensures IsRun(w, run) && |run.acts| == 3 && LoadSent(w, run.states[3], sys0.store, k)
  {
    run := ServiceStarts(w, sys0);
    var sys3 := Asked(w, run.states[2], 0, Load(Client(1), k));
    assert [] + [Client(1)] == [Client(1)];
    assert sys3.net == [Told, Envelope(0, SendLoad(k))];
    run := Extend(w, run, Request(0, Load(Client(1), k), Quick), sys3);
  }

  lemma Overtakes(w: World, sys: Sys, store: map<Ref, Blob>, data: Blob) returns (sys': Sys)
    requires WorldOk(w) && |data| <= w.conf[0].blobLimit && LoadSent(w, sys, store, w.hash(data))
    ensures Step(w, sys, Request(0, Store(Client(2), data), Quick), sys')
    ensures Careful(w, sys, Request(0, Store(Client(2), data), Quick))
    ensures Overtaken(w, sys', store, data)
  {
    var k := w.hash(data);
    var e := Filled(sys.caches[0], k, data);
    assert e == Entry(true, true, true, false, data, [], [], 0);
    sys' := Asked(w, sys, 0, Store(Client(2), data));
    assert AnswerLoads([Client(1)], k, Loaded(data)) == [AnswerLoad(Client(1), k, Loaded(data))];
    assert sys'.net == [Told, Envelope(0, SendLoad(k)), Envelope(0, AnswerLoad(Client(1), k, Loaded(data))),
                        Envelope(0, SendStore(data)), Success(k)];
    assert sys'.caches[0].entries == map[k := e.(storePending := true)];
  }

  /** A load of k goes out to the backing store; then k is stored on rank 0 and the store
      is answered with success. */
  lemma StoreOvertakesLoad(w: World, sys0: Sys, data: Blob) returns (run: Run)
    requires WorldOk(w) && Initial(w, sys0) && |data| <= w.conf[0].blobLimit
    ensures IsRun(w, run) && |run.acts| == 4 && Overtaken(w, run.states[4], sys0.store, data)
  {
    run := SendsLoad(w, sys0, w.hash(data));
    var sys4 := Overtakes(w, run.states[3], sys0.store, data);
    run := Extend(w, run, Request(0, Store(Client(2), data), Quick), sys4);
  }

  /** Guard a.  The backing store answers the load with ENOENT; when rank 0 hears that, it
      removes the entry although it is dirty, and the blob is lost. */
  lemma FailedLoadLosesBlob(w: World, sys0: Sys, data: Blob) returns (run: Run, a: Action, sys': Sys)
    requires WorldOk(w) && Initial(w, sys0) && |data| <= w.conf[0].blobLimit && w.hash(data) !in sys0.store
    ensures IsRun(w, run) && |run.acts| == 5
    ensures var k, last := w.hash(data), run.states[5];
      && Success(k) in last.net && |last.caches| > 0 && Durable(last, k)
      && Step(w, last, a, sys') && !Careful(w, last, a)
      && |sys'.caches| > 0 && !Durable(sys', k) && k in sys'.caches[0].orphans
  {
    var k := w.hash(data);
    run := StoreOvertakesLoad(w, sys0, data);
    var sys4 := run.states[4];
    var answer := AnswerLoad(Child(0), k, LoadError(ENOENT));
    var sys5 := sys4.(net := Without(sys4.net, 1) + [Envelope(0, answer)]);
    run := Extend(w, run, Backing(1, answer, sys4.store), sys5);
    a := Deliver(4, Quick);
    assert sys5.net[4] == Envelope(0, answer) && sys5.net[3] == Success(k);
    assert Actor(w, sys5, a) == Some((0, LoadReply(k, LoadError(ENOENT))));
    sys' := Apply(w, sys5, 0, LoadReply(k, LoadError(ENOENT)), Quick, Rest(sys5, a));
  }

  /** The backing store has k, rank 0 knows, and the load is still out. */
  lemma StoreSettles(w: World, sys0: Sys, data: Blob) returns (run: Run)
    requires WorldOk(w) && Initial(w, sys0) && |data| <= w.conf[0].blobLimit && w.hash(data) !in sys0.store
    ensures IsRun(w, run) && |run.acts| == 6
    ensures var k, last := w.hash(data), run.states[6];
      && |last.net| > 1 && last.net[1] == Envelope(0, SendLoad(k)) && last.up && |last.caches| == Size(w.tree)
      && last.caches[0].rank == 0
      && last.caches[0].entries == map[k := Entry(true, false, true, false, data, [], [], 0)]
  {
    var k := w.hash(data);
    run := StoreOvertakesLoad(w, sys0, data);
    var sys4 := run.states[4];
    var answer := AnswerStore(Child(0), k, Stored(k));
    var sys5 := sys4.(net := Without(sys4.net, 3) + [Envelope(0, answer)], store := sys4.store[k := data]);
    run := Extend(w, run, Backing(3, answer, sys4.store[k := data]), sys5);
    var a := Deliver(4, Quick);
    assert sys5.net[4] == Envelope(0, answer) && sys5.net[1] == Envelope(0, SendLoad(k));
    assert Actor(w, sys5, a) == Some((0, StoreReply(k, Stored(k))));
    var u := StoreSettled(sys5.caches[0], k, Stored(k)).cache;
    assert u.entries == map[k := Entry(true, false, true, false, data, [], [], 0)];
    TotalZero(u.entries, DirtyOf);
    var sys6 := Apply(w, sys5, 0, StoreReply(k, Stored(k)), Quick, Rest(sys5, a));
    run := Extend(w, run, a, sys6);
  }

  /** Guard b.  dropcache removes the clean entry while its load is still in flight: the
      reply to that load will find no entry. */
  lemma DropOrphansLoad(w: World, sys0: Sys, data: Blob) returns (run: Run, a: Action, sys': Sys)
    requires WorldOk(w) && Initial(w, sys0) && |data| <= w.conf[0].blobLimit && w.hash(data) !in sys0.store
    ensures IsRun(w, run) && |run.acts| == 6
    ensures var k, last := w.hash(data), run.states[6];
      && Step(w, last, a, sys') && !Careful(w, last, a)
      && |sys'.caches| > 0 && k in sys'.caches[0].orphans
      && Envelope(0, SendLoad(k)) in sys'.net
      && forall result :: !EntryThere(sys'.caches[0], LoadReply(k, result))
  {
    var k := w.hash(data);
    run := StoreSettles(w, sys0, data);
    var sys6 := run.states[6];
    a := Request(0, DropCache(Client(4)), Quick);
    assert AllDroppable(sys6.caches[0]) == {k};
    sys' := Asked(w, sys6, 0, DropCache(Client(4)));
    assert sys'.net[1] == Envelope(0, SendLoad(k));
  }
}
