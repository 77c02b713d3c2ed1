/** The content cache as content-cache.c has it: an object whose handlers update a hash of
    entries, three running totals and a batch count in place.  Every handler is proved to
    do what CacheModel says and to keep the totals equal to the sums over the entries. */
module ContentCache {
  import opened Basics
  import opened CacheModel
  import opened CacheLemmas
  import opened PurgeModel

  /** How a send that concerns the entry k fails at once, if it does. */
  function Failure(fails: map<Ref, Errno>, k: Ref): Option<Errno> {
    if k in fails then Some(fails[k]) else None
  }

  class ContentCache {
    const conf: Config
    const purge: PurgeLimits
    const rank: nat
    var entries: map<Ref, Entry>
    var backing: bool
    var flushReqs: seq<Requester>
    var epoch: int
    var batch: nat
    var acctSize: nat
    var acctValid: nat
    var acctDirty: nat
    ghost var orphans: set<Ref>

    ghost function State(): Cache
      reads this
    {
      Cache(rank, entries, backing, batch, flushReqs, epoch, orphans)
    }

    /** The running totals are the sums over the entries. */
    ghost predicate Counted()
      reads this
    {
      && acctSize == Total(entries, SizeOf)
      && acctValid == Total(entries, ValidOf)
      && acctDirty == Total(entries, DirtyOf)
    }

    ghost predicate Valid()
      reads this
    {
      Counted() && Inv(conf, State())
    }

    constructor (conf: Config, purge: PurgeLimits, rank: nat)
      ensures Valid() && this.conf == conf && this.purge == purge
      ensures State() == Cache(rank, map[], false, 0, [], 0, {})
    {
      this.conf, this.purge, this.rank := conf, purge, rank;
      entries, backing, flushReqs, epoch := map[], false, [], 0;
      batch, acctSize, acctValid, acctDirty := 0, 0, 0, 0;
      orphans := {};
    }

    // -------------------------------------------------------------- entries

    method InsertEntry(k: Ref, e: Entry)
      requires Counted() && k !in entries
      modifies `entries, `acctSize, `acctValid, `acctDirty
      ensures Counted() && entries == old(entries)[k := e]
    {
      TotalsPut(entries, k, e);
      if e.valid {
        acctSize := acctSize + |e.data|;
        acctValid := acctValid + 1;
      }
      if e.dirty {
        acctDirty := acctDirty + 1;
      }
      entries := entries[k := e];
    }

    method RemoveEntry(k: Ref)
      requires Counted() && k in entries
      modifies `entries, `acctSize, `acctValid, `acctDirty, `orphans
      ensures Counted() && State() == Evict(old(State()), {k})
    {
      TotalsRemove(entries, k);
      EvictOne(State(), k);
      var e := entries[k];
      if e.valid {
        acctSize := acctSize - |e.data|;
        acctValid := acctValid - 1;
      }
      if e.dirty {
        acctDirty := acctDirty - 1;
      }
      if Awaited(e) {
        orphans := orphans + {k};
      }
      entries := entries - {k};
    }

    /** Change what the totals do not depend on. */
    method Touch(k: Ref, e: Entry)
      requires Counted() && k in entries
      requires e.valid == entries[k].valid && e.dirty == entries[k].dirty && e.data == entries[k].data
      modifies `entries
      ensures Counted() && entries == old(entries)[k := e]
    {
      TotalsPut(entries, k, e);
      entries := entries[k := e];
    }

    /** cache_entry_fill and the accounting that goes with it. */
    method Fill(k: Ref, data: Blob)
      requires Counted() && k in entries && !entries[k].valid
      modifies `entries, `acctSize, `acctValid
      ensures Counted() && entries == old(entries)[k := old(entries)[k].(valid := true, data := data)]
    {
      var e := entries[k].(valid := true, data := data);
      TotalsPut(entries, k, e);
      acctValid := acctValid + 1;
      acctSize := acctSize + |data|;
      entries := entries[k := e];
    }

    method SetDirty(k: Ref)
      requires Counted() && k in entries && !entries[k].dirty
      modifies `entries, `acctDirty
      ensures Counted() && entries == old(entries)[k := old(entries)[k].(dirty := true)]
    {
      var e := entries[k].(dirty := true);
      TotalsPut(entries, k, e);
      acctDirty := acctDirty + 1;
      entries := entries[k := e];
    }

    method SetClean(k: Ref)
      requires Counted() && k in entries && entries[k].dirty
      modifies `entries, `acctDirty
      ensures Counted() && entries == old(entries)[k := old(entries)[k].(dirty := false)]
    {
      var e := entries[k].(dirty := false);
      TotalsPut(entries, k, e);
      TotalPositive(entries, DirtyOf, k);
      acctDirty := acctDirty - 1;
      entries := entries[k := e];
    }

    // -------------------------------------------------------------- load

    method LoadRequest(from: Requester, k: Ref, send: Option<Errno>) returns (out: seq<Output>)
      requires Counted()
      modifies this
      ensures Counted() && CacheModel.LoadRequest(old(State()), from, k, send) == Result(State(), out)
    {
      ghost var was := State();
      if k !in entries {
        if rank == 0 && !backing {
          return [AnswerLoad(from, k, LoadError(ENOENT))];
        }
        InsertEntry(k, NewEntry);
      }
      var e := entries[k];
      if e.valid {
        Touch(k, e.(lastUsed := epoch));
        out := [AnswerLoad(from, k, Loaded(e.data))];
      } else if e.loadPending {
        Touch(k, e.(loadReqs := e.loadReqs + [from]));
        out := [];
      } else if send.Some? {
        var errno := if send.value == ENOSYS && rank == 0 then ENOENT else send.value;
        out := [AnswerLoad(from, k, LoadError(errno))];
      } else {
        Touch(k, e.(loadPending := true, loadReqs := e.loadReqs + [from]));
        out := [SendLoad(k)];
      }
      assert entries == was.entries[k := entries[k]];
      assert State() == CacheModel.LoadRequest(was, from, k, send).cache;
    }

    /** The reply to a load.  A failed load removes the entry whatever has become of it. */
    method LoadContinuation(k: Ref, result: LoadResult) returns (out: seq<Output>)
      requires Counted() && k in entries
      modifies this
      ensures Counted() && LoadReplied(old(State()), k, result) == Result(State(), out)
    {
      ghost var was := State();
      var e := entries[k].(loadPending := false);
      Touch(k, e);
      match result
      case LoadError(errnum) =>
        var errno := if errnum == ENOSYS && rank == 0 then ENOENT else errnum;
        out := AnswerLoads(e.loadReqs, k, LoadError(errno));
        RemoveEntry(k);
        assert State() == LoadReplied(was, k, result).cache;
      case Loaded(data) =>
        if !e.valid {
          Fill(k, data);
        }
        e := entries[k];
        out := AnswerLoads(e.loadReqs, k, Loaded(e.data));
        Touch(k, e.(lastUsed := epoch, loadReqs := []));
        assert entries == was.entries[k := entries[k]];
        assert State() == LoadReplied(was, k, result).cache;
    }

    // -------------------------------------------------------------- store

    /** cache_store.  Nothing is sent when a store of the entry is on its way already, or
        when rank 0 has its full batch of stores outstanding. */
    method CacheStore(k: Ref, send: Option<Errno>) returns (rc: Option<Errno>, out: seq<Output>)
      requires Counted() && k in entries && entries[k].valid
      modifies `entries, `batch
      ensures Counted()
      ensures var was, e := old(State()), old(entries[k]);
        if !MayStore(conf, was, e) then rc.None? && out == [] && State() == was
        else if send.Some? then rc == send && out == [] && State() == was
        else rc.None? && out == [SendStore(e.data)] && State() == SendOne(was, k, e)
    {
      rc, out := None, [];
      if entries[k].storePending || (rank == 0 && batch >= conf.batchLimit) {
        return;
      }
      if send.Some? {
        return send, [];
      }
      out := [SendStore(entries[k].data)];
      Touch(k, entries[k].(storePending := true));
      batch := batch + 1;
    }

    /** The rest of a store request, once the blob is in the entry. */
    method WriteBlob(from: Requester, k: Ref, send: Option<Errno>) returns (out: seq<Output>)
      requires Counted() && k in entries && entries[k].valid
      modifies `entries, `batch, `acctDirty
      ensures Counted() && PassOn(conf, old(State()), from, k, old(entries[k]), send) == Result(State(), out)
      ensures rank == 0 && !backing ==> k in entries && entries[k].dirty && out == [AnswerStore(from, k, Stored(k))]
    {
      ghost var was := State();
      if entries[k].dirty {
        if rank > 0 || backing {
          var rc;
          rc, out := CacheStore(k, send);
          if rc.Some? {
            assert entries == was.entries[k := entries[k]];
            return [AnswerStore(from, k, StoreError(rc.value))];
          }
          if rank > 0 {
            Touch(k, entries[k].(storeReqs := entries[k].storeReqs + [from]));
            assert entries == was.entries[k := entries[k]];
            return;
          }
          assert entries == was.entries[k := entries[k]];
          return out + [AnswerStore(from, k, Stored(k))];
        }
      } else if rank == 0 && !backing {
        SetDirty(k);
      }
      assert entries == was.entries[k := entries[k]];
      out := [AnswerStore(from, k, Stored(k))];
    }

    /** Put the blob into its entry, new or old, and answer the loads that wait for it. */
    method FillBlob(k: Ref, data: Blob) returns (woken: seq<Output>)
      requires Counted()
      modifies this
      ensures Counted() && State() == Put(old(State()), k, Filled(old(State()), k, data))
      ensures var e := Lookup(old(State()), k);
        woken == if e.valid then [] else AnswerLoads(e.loadReqs, k, Loaded(data))
    {
      ghost var was := State();
      if k !in entries {
        InsertEntry(k, NewEntry);
      }
      var e := entries[k];
      if e.valid {
        woken := [];
        Touch(k, e.(lastUsed := epoch));
      } else {
        Fill(k, data);
        woken := AnswerLoads(e.loadReqs, k, Loaded(data));
        if !e.dirty {
          SetDirty(k);
        }
        Touch(k, entries[k].(loadReqs := [], lastUsed := epoch));
      }
      assert entries[k] == Filled(was, k, data);
      assert entries == was.entries[k := entries[k]];
    }

    method StoreRequest(from: Requester, data: Blob, send: Option<Errno>) returns (out: seq<Output>)
      requires Counted()
      modifies this
      ensures Counted() && CacheModel.StoreRequest(conf, old(State()), from, data, send) == Result(State(), out)
    {
      var k := conf.hash(data);
      if |data| > conf.blobLimit {
        return [AnswerStore(from, k, StoreError(EFBIG))];
      }
      PassOnFilled(conf, State(), from, k, Filled(State(), k, data), send);
      out := FillBlob(k, data);
      var own := WriteBlob(from, k, send);
      out := out + own;
    }

    // -------------------------------------------------------------- flush

    /** The walk has sent picks, starting from was. */
    ghost predicate Walking(was: Cache, picks: seq<Ref>, out: seq<Output>)
      reads this
    {
      && Counted() && CanSend(was.entries, picks)
      && State() == SendAll(was, picks) && out == SentStores(was, picks)
    }

    /** Visit one entry on the walk. */
    method FlushVisit(k: Ref, send: Option<Errno>, ghost was: Cache, picks: seq<Ref>, out: seq<Output>)
        returns (failed: Option<Errno>, picks': seq<Ref>, out': seq<Output>)
      requires Walking(was, picks, out) && k in was.entries && k !in picks && batch < conf.batchLimit
      requires EntriesOk(was)
      modifies `entries, `batch
      ensures Walking(was, picks', out')
      ensures failed == if UnsentOf(was.entries[k]) == 1 then send else None
      ensures picks' == if UnsentOf(was.entries[k]) == 1 && send.None? then picks + [k] else picks
    {
      failed, picks', out' := None, picks, out;
      assert entries[k] == was.entries[k];
      if entries[k].dirty && !entries[k].storePending {
        var sent;
        failed, sent := CacheStore(k, send);
        if failed.None? {
          MarkedOne(was.entries, picks, k);
          picks' := picks + [k];
          out' := out + sent;
          assert SentStores(was, picks') == out';
        }
      }
    }

    /** Walk over the hash in whatever order it has and send dirty entries until the batch
        is full.  fails says which sends fail and how; picks are the entries sent. */
    method CacheFlush(fails: map<Ref, Errno>) returns (rc: Option<Errno>, out: seq<Output>, picks: seq<Ref>)
      requires Counted() && Accounts(conf, State())
      modifies `entries, `batch
      ensures Counted()
      ensures var was, ch := old(State()), Choice(rc, picks);
        && WalkOf(conf, was, ch) && CacheModel.CacheFlush(conf, was, ch) == Result(State(), out)
        && (rc.Some? ==> FlushFails(conf, was, ch))
      ensures fails == map[] ==> rc.None?
      ensures forall k <- picks :: k !in fails
      ensures batch < conf.batchLimit ==>
        forall k <- old(entries) :: UnsentOf(old(entries)[k]) == 0 || k in picks || k in fails
    {
      ghost var was := State();
      UnsentCount(conf, was);
      if acctDirty - batch == 0 || batch >= conf.batchLimit {
        NoneUnsent(was.entries);
        assert Marked(entries, []) == entries;
        return None, [], [];
      }
      ghost var todo, missed;
      rc, out, picks, todo, missed := FlushWalk(fails, was);
      MarkedTotals(was.entries, picks);
      if rc.Some? {
        WalkMissed(was.entries, picks, missed);
      } else if todo == {} {
        WalkExhausted(was.entries, picks);
      }
    }

    /** The loop of cache_flush.  It ends with todo unvisited; missed is the last entry whose
        send failed. */
    method FlushWalk(fails: map<Ref, Errno>, ghost was: Cache)
        returns (rc: Option<Errno>, out: seq<Output>, picks: seq<Ref>, ghost todo: set<Ref>, ghost missed: Ref)
      requires was == State() && Counted() && EntriesOk(was) && batch < conf.batchLimit
      modifies `entries, `batch
      ensures Walking(was, picks, out) && batch <= conf.batchLimit && (todo == {} || batch == conf.batchLimit)
      ensures Visited(was.entries, fails, todo, picks, rc, missed)
    {
      rc, out, picks, missed := None, [], [], Ref("");
      assert Marked(entries, []) == entries;
      var left := entries.Keys;
      while left != {} && batch < conf.batchLimit
        invariant Walking(was, picks, out) && batch <= conf.batchLimit
        invariant Visited(was.entries, fails, left, picks, rc, missed)
        decreases left
      {
        var k :| k in left;
        left := left - {k};
        var failed;
        failed, picks, out := FlushVisit(k, Failure(fails, k), was, picks, out);
        if failed.Some? {
          rc := failed;
          missed := k;
        }
      }
      todo := left;
    }

    method FlushRespond() returns (out: seq<Output>)
      requires Counted()
      modifies `flushReqs
      ensures Counted() && CacheModel.FlushRespond(old(State())) == Result(State(), out)
      ensures forall o <- out :: o.Answer? && (o.status.None? <==> acctDirty == 0)
      ensures forall o <- out :: acctDirty > 0 ==> o.status == Some(if rank == 0 && !backing then ENOSYS else EIO)
    {
      var status := None;
      if acctDirty > 0 {
        status := Some(if rank == 0 && !backing then ENOSYS else EIO);
      }
      out := Answers(flushReqs, status);
      flushReqs := [];
    }

    method FlushRequest(from: Requester, fails: map<Ref, Errno>) returns (out: seq<Output>, ghost ch: Choice)
      requires Counted() && Accounts(conf, State())
      modifies this
      ensures Counted() && (fails == map[] ==> ch.send.None?)
      ensures var was := old(State());
        ChoiceOk(conf, was, Flush(from), ch) && CacheModel.FlushRequest(conf, was, from, ch) == Result(State(), out)
    {
      ch := Choice(None, []);
      if acctDirty == 0 {
        return [Answer(from, None)], ch;
      }
      var rc, picks;
      rc, out, picks := CacheFlush(fails);
      ch := Choice(rc, picks);
      if rc.Some? {
        return out + [Answer(from, rc)], ch;
      }
      flushReqs := flushReqs + [from];
    }

    /** The entry and its waiting requests once the reply to its store has come in. */
    method Settle(k: Ref, result: StoreResult) returns (out: seq<Output>)
      requires Counted() && k in entries && batch > 0
      modifies `entries, `batch, `acctDirty
      ensures Counted() && StoreSettled(old(State()), k, result) == Result(State(), out)
    {
      ghost var was := State();
      batch := batch - 1;
      var e := entries[k].(storePending := false, storeReqs := []);
      out := AnswerStores(entries[k].storeReqs, k,
                          if result.Stored? && result.ref != k then StoreError(EIO) else result);
      Touch(k, e);
      if result == Stored(k) && e.dirty {
        SetClean(k);
      }
      assert entries == was.entries[k := entries[k]];
    }

    method StoreContinuation(k: Ref, result: StoreResult, fails: map<Ref, Errno>)
        returns (out: seq<Output>, ghost ch: Choice)
      requires Counted() && Accounts(conf, State()) && k in entries && entries[k].storePending
      modifies this
      ensures Counted() && (fails == map[] ==> ch.send.None?)
      ensures var was := old(State());
        && EntryThere(was, StoreReply(k, result)) && ChoiceOk(conf, was, StoreReply(k, result), ch)
        && StoreReplied(conf, was, k, result, ch) == Result(State(), out)
    {
      TotalPositive(entries, PendingOf, k);
      StoreSettledKeeps(conf, State(), k, result);
      out := Settle(k, result);
      ch := Choice(None, []);
      var more := [];
      if acctDirty == 0 || (rank == 0 && !backing) {
        more := FlushRespond();
      } else if acctDirty - batch > 0 && batch <= conf.batchLimit / 2 {
        var rc, picks;
        rc, more, picks := CacheFlush(fails);
        ch := Choice(rc, picks);
      }
      out := out + more;
    }

    method BackingRequest(from: Requester, on: bool, fails: map<Ref, Errno>)
        returns (out: seq<Output>, ghost ch: Choice)
      requires Counted() && Accounts(conf, State())
      modifies this
      ensures Counted() && (fails == map[] ==> ch.send.None?)
      ensures var was, ev := old(State()), SetBacking(from, on);
        ChoiceOk(conf, was, ev, ch) && CacheModel.BackingRequest(conf, was, from, on, ch) == Result(State(), out)
    {
      ch := Choice(None, []);
      if rank != 0 {
        return [Answer(from, Some(EINVAL))], ch;
      }
      out := [];
      if !backing && on {
        backing := true;
        var rc, picks;
        rc, out, picks := CacheFlush(fails);
        ch := Choice(rc, picks);
      } else if backing && !on {
        backing := false;
      }
      out := out + [Answer(from, None)];
    }

    // -------------------------------------------------------------- dropcache and purge

    method DropcacheRequest(from: Requester) returns (out: seq<Output>)
      requires Counted()
      modifies this
      ensures Counted() && State() == Evict(old(State()), AllDroppable(old(State()))) && out == [Answer(from, None)]
    {
      ghost var was := State();
      var todo := entries.Keys;
      ghost var dropped := {};
      while todo != {}
        invariant Counted() && State() == Evict(was, dropped) && todo <= entries.Keys
        invariant dropped == AllDroppable(was) - todo
        decreases todo
      {
        var k :| k in todo;
        todo := todo - {k};
        if entries[k].valid && !entries[k].dirty {
          EvictMore(was, dropped, k);
          RemoveEntry(k);
          dropped := dropped + {k};
        }
      }
      out := [Answer(from, None)];
    }

    /** The first loop of cache_purge: choose victims on a walk in hash order. */
    method PlanPurge() returns (victims: seq<Ref>, afterSize: int, afterEntries: int)
      requires Counted()
      ensures Plan(purge, State(), victims) && Thorough(purge, State(), victims)
      ensures afterSize == Total(Left(entries, victims), SizeOf) && afterEntries == |Left(entries, victims)|
    {
      victims, afterSize, afterEntries := [], acctSize, |entries|;
      assert Left(entries, []) == entries;
      if acctDirty == |entries| {
        AllDirty(entries);
        return;
      }
      var todo := entries.Keys;
      while todo != {} && !Met(purge, afterSize, afterEntries)
        invariant Walked(purge, State(), victims, todo, afterSize, afterEntries)
        decreases todo
      {
        var k :| k in todo;
        assert todo == (todo - {k}) + {k};
        todo := todo - {k};
        var e := entries[k];
        if !e.valid || e.dirty {
          continue;
        }
        if Age(epoch, e) < purge.oldEntry {
          continue;
        }
        if afterEntries <= purge.entries && |e.data| < purge.largeEntry {
          continue;
        }
        WalkedMore(purge, State(), victims, todo, k, afterSize, afterEntries);
        victims := victims + [k];
        afterSize := afterSize - |e.data|;
        afterEntries := afterEntries - 1;
      }
    }

    /** The second loop of cache_purge. */
    method RemoveAll(victims: seq<Ref>)
      requires Counted() && Distinct(victims) && forall k <- victims :: k in entries
      modifies `entries, `acctSize, `acctValid, `acctDirty, `orphans
      ensures Counted() && State() == Evict(old(State()), Chosen(victims))
    {
      ghost var was := State();
      var i := 0;
      EvictNone(was);
      while i < |victims|
        invariant i <= |victims| && Counted() && State() == Evict(was, Chosen(victims[..i]))
      {
        ChosenMore(victims, i);
        EvictMore(was, Chosen(victims[..i]), victims[i]);
        RemoveEntry(victims[i]);
        i := i + 1;
      }
      assert victims[..i] == victims;
    }

    method CachePurge() returns (victims: seq<Ref>)
      requires Counted()
      modifies `entries, `acctSize, `acctValid, `acctDirty, `orphans
      ensures Counted() && Plan(purge, old(State()), victims) && Thorough(purge, old(State()), victims)
      ensures State() == Evict(old(State()), Chosen(victims))
    {
      var size, count;
      victims, size, count := PlanPurge();
      PlanPresent(purge, State(), victims);
      RemoveAll(victims);
    }

    method HeartbeatEvent(now: int) returns (victims: seq<Ref>)
      requires Counted()
      modifies this
      ensures Counted() && Chosen(victims) <= AllDroppable(old(State()))
      ensures PurgeOf(purge, old(State()).(epoch := now), Chosen(victims))
      ensures State() == Evict(old(State()).(epoch := now), Chosen(victims))
    {
      epoch := now;
      ghost var s := State();
      victims := CachePurge();
      PlanPresent(purge, s, victims);
    }

    // -------------------------------------------------------------- dispatch

    /** The reactor hands a message, a reply or a heartbeat to its handler.  Whatever it is,
        the cache does what Handle says and its totals stay the sums over the entries; under
        guard a it keeps the accounting, and with guard b too every reply finds its entry. */
    method Dispatch(req: Event, fails: map<Ref, Errno>) returns (out: seq<Output>, ghost ev: Event, ghost ch: Choice)
      requires Counted() && Accounts(conf, State()) && EntryThere(State(), req) && conf.batchLimit > 0
      modifies this
      ensures Counted() && (ev == req || (req.Heartbeat? && ev.Heartbeat? && ev.now == req.now))
      ensures fails == map[] ==> ch.send.None?
      ensures req.Heartbeat? ==> PurgeOf(purge, old(State()).(epoch := req.now), ev.evicted)
      ensures Enabled(conf, old(State()), ev, ch) && Handle(conf, old(State()), ev, ch) == Result(State(), out)
      ensures KeepsStores(old(State()), ev) ==> Accounts(conf, State())
      ensures old(Valid()) && Guarded(old(State()), ev) ==> Valid()
    {
      ghost var was := State();
      ev, ch := req, Choice(None, []);
      match req {
      case Load(from, k) =>
        out := LoadRequest(from, k, Failure(fails, k));
        ch := Choice(Failure(fails, k), []);
      case Store(from, data) =>
        out := StoreRequest(from, data, Failure(fails, conf.hash(data)));
        ch := Choice(Failure(fails, conf.hash(data)), []);
      case LoadReply(k, result) => out := LoadContinuation(k, result);
      case StoreReply(k, result) => out, ch := StoreContinuation(k, result, fails);
      case Flush(from) => out, ch := FlushRequest(from, fails);
      case SetBacking(from, on) => out, ch := BackingRequest(from, on, fails);
      case DropCache(from) => out := DropcacheRequest(from);
      case Heartbeat(now, _) =>
        var victims := HeartbeatEvent(now);
        out, ev := [], Heartbeat(now, Chosen(victims));
      }
      if KeepsStores(was, ev) {
        HandleKeeps(conf, was, ev, ch);
      }
    }
  }

  // ---------------------------------------------------------------- entries and sums

  lemma EvictNone(s: Cache)
    ensures Evict(s, Chosen([])) == s
  {
    assert s.entries - {} == s.entries;
  }

  lemma EvictMore(s: Cache, gone: set<Ref>, k: Ref)
    requires k !in gone
    ensures Evict(Evict(s, gone), {k}) == Evict(s, gone + {k})
  {
    assert s.entries - gone - {k} == s.entries - (gone + {k});
    assert Get(s.entries - gone, k) == Get(s.entries, k);
  }

  /** A walk that has met every entry has sent all that was unsent. */
  lemma WalkExhausted(m: map<Ref, Entry>, picks: seq<Ref>)
    requires CanSend(m, picks)
    requires forall k <- m :: UnsentOf(m[k]) == 0 || k in picks
    ensures Total(m, UnsentOf) == |picks|
  {
    MarkedTotals(m, picks);
    TotalZero(Marked(m, picks), UnsentOf);
  }

  /** A flush walk has visited all entries but todo and sent picks; rc is the last failure. */
  ghost predicate Visited(m: map<Ref, Entry>, fails: map<Ref, Errno>, todo: set<Ref>, picks: seq<Ref>,
                          rc: Option<Errno>, missed: Ref) {
    && todo <= m.Keys && (forall k <- picks :: k !in todo && k !in fails)
    && (forall k <- m :: k in todo || UnsentOf(m[k]) == 0 || k in picks || (k in fails && rc.Some?))
    && (rc.Some? ==> missed in fails && missed in m && missed !in todo && missed !in picks && UnsentOf(m[missed]) == 1)
  }

  lemma WalkMissed(m: map<Ref, Entry>, picks: seq<Ref>, k: Ref)
    requires CanSend(m, picks) && k in m && UnsentOf(m[k]) == 1 && k !in picks
    ensures |picks| < Total(m, UnsentOf)
  {
    MarkedTotals(m, picks);
    TotalPositive(Marked(m, picks), UnsentOf, k);
  }

  lemma NoneUnsent(m: map<Ref, Entry>)
    ensures Total(m, UnsentOf) == 0 ==> forall k <- m :: UnsentOf(m[k]) == 0
  {
    if k :| k in m && UnsentOf(m[k]) > 0 {
      TotalPositive(m, UnsentOf, k);
    }
  }

  lemma PutPut(m: map<Ref, Entry>, k: Ref, e: Entry, e': Entry)
    ensures m[k := e][k := e'] == m[k := e']
  {
  }

  lemma PassOnFilled(c: Config, s: Cache, from: Requester, k: Ref, e: Entry, send: Option<Errno>)
    ensures PassOn(c, Put(s, k, e), from, k, e, send) == PassOn(c, s, from, k, e, send)
  {
    PutPut(s.entries, k, e, PassOn(c, s, from, k, e, send).cache.entries[k]);
  }

  lemma TotalsRemove(m: map<Ref, Entry>, k: Ref)
    requires k in m
    ensures Total(m - {k}, SizeOf) == Total(m, SizeOf) - SizeOf(m[k])
    ensures Total(m - {k}, ValidOf) == Total(m, ValidOf) - ValidOf(m[k])
    ensures Total(m - {k}, DirtyOf) == Total(m, DirtyOf) - DirtyOf(m[k])
  {
    TotalSplit(m, SizeOf, k);
    TotalSplit(m, ValidOf, k);
    TotalSplit(m, DirtyOf, k);
  }

  lemma EvictOne(s: Cache, k: Ref)
    requires k in s.entries
    ensures Evict(s, {k}) == s.(entries := s.entries - {k},
                                orphans := if Awaited(s.entries[k]) then s.orphans + {k} else s.orphans)
  {
  }

  lemma TotalsPut(m: map<Ref, Entry>, k: Ref, e: Entry)
    ensures Total(m[k := e], SizeOf) == Total(m, SizeOf) + SizeOf(e) - (if k in m then SizeOf(m[k]) else 0)
    ensures Total(m[k := e], ValidOf) == Total(m, ValidOf) + ValidOf(e) - (if k in m then ValidOf(m[k]) else 0)
    ensures Total(m[k := e], DirtyOf) == Total(m, DirtyOf) + DirtyOf(e) - (if k in m then DirtyOf(m[k]) else 0)
  {
    TotalPut(m, SizeOf, k, e);
    TotalPut(m, ValidOf, k, e);
    TotalPut(m, DirtyOf, k, e);
  }
}
