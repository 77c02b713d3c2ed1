/** What every handler of one cache keeps: the accounting, the pairing of replies with
    entries, and the wakeup of flush requests. */
module CacheLemmas {
  import opened Basics
  import opened CacheModel

  // ---------------------------------------------------------------- sums

  lemma {:induction false} TotalSplit(m: map<Ref, Entry>, f: Entry -> nat, k: Ref)
    requires k in m
    ensures Total(m, f) == f(m[k]) + Total(m - {k}, f)
    decreases |m|
  {
    var j :| j in m && Total(m, f) == f(m[j]) + Total(m - {j}, f);
    if j != k {
      TotalSplit(m - {j}, f, k);
      TotalSplit(m - {k}, f, j);
      assert m - {j} - {k} == m - {k} - {j};
    }
  }

  lemma TotalPut(m: map<Ref, Entry>, f: Entry -> nat, k: Ref, e: Entry)
    ensures Total(m[k := e], f) == Total(m, f) + f(e) - (if k in m then f(m[k]) else 0)
  {
    TotalSplit(m[k := e], f, k);
    assert m[k := e] - {k} == m - {k};
    if k in m {
      TotalSplit(m, f, k);
    } else {
      assert m - {k} == m;
    }
  }

  lemma {:induction false} TotalZero(m: map<Ref, Entry>, f: Entry -> nat)
    requires forall k <- m :: f(m[k]) == 0
    ensures Total(m, f) == 0
    decreases |m|
  {
    if m != map[] {
      var j :| j in m && Total(m, f) == f(m[j]) + Total(m - {j}, f);
      TotalZero(m - {j}, f);
    }
  }

  lemma TotalPositive(m: map<Ref, Entry>, f: Entry -> nat, k: Ref)
    requires k in m && f(m[k]) > 0
    ensures Total(m, f) > 0
  {
    TotalSplit(m, f, k);
  }

  /** Removing entries whose weight is zero changes no sum. */
  lemma {:induction false} TotalDrop(m: map<Ref, Entry>, f: Entry -> nat, gone: set<Ref>)
    requires forall k <- gone :: k in m ==> f(m[k]) == 0
    ensures Total(m - gone, f) == Total(m, f)
    decreases |gone|
  {
    if k :| k in gone {
      TotalDrop(m, f, gone - {k});
      var n := m - (gone - {k});
      assert n - {k} == m - gone;
      if k in m {
        TotalSplit(n, f, k);
      } else {
        assert n - {k} == n;
      }
    } else {
      assert m - gone == m;
    }
  }

  // ---------------------------------------------------------------- the invariant

  predicate EntryOk(rank: nat, e: Entry) {
    && (e.dirty ==> e.valid)
    && (e.storePending ==> e.dirty)
    && (e.loadReqs != [] ==> e.loadPending && !e.valid)
    && (e.storeReqs != [] ==> e.storePending && rank > 0)
    && (!e.valid ==> e.data == [])
  }

  ghost predicate EntriesOk(s: Cache) {
    forall k <- s.entries :: EntryOk(s.rank, s.entries[k])
  }

  ghost predicate BatchOk(c: Config, s: Cache) {
    s.batch == Pending(s) && (s.rank == 0 ==> s.batch <= c.batchLimit)
  }

  ghost predicate Accounts(c: Config, s: Cache) {
    EntriesOk(s) && BatchOk(c, s)
  }

  /** The accounting holds and every reply still to come will find its entry. */
  ghost predicate Inv(c: Config, s: Cache) {
    Accounts(c, s) && s.orphans == {}
  }

  /** Blobs are filed under their own hash. */
  ghost predicate Honest(c: Config, s: Cache) {
    forall k <- s.entries :: s.entries[k].valid ==> c.hash(s.entries[k].data) == k
  }

  /** A parked flush request has a store reply to wait for. */
  ghost predicate Wakes(s: Cache) {
    s.flushReqs != [] ==> s.batch > 0
  }

  /** Dirty entries are those on their way plus those not sent, so the subtraction
      acct_dirty - flush_batch_count cannot underflow. */
  lemma {:induction false} DirtySplits(m: map<Ref, Entry>)
    requires forall k <- m :: m[k].storePending ==> m[k].dirty
    ensures Total(m, DirtyOf) == Total(m, PendingOf) + Total(m, UnsentOf)
    decreases |m|
  {
    if k :| k in m {
      DirtySplits(m - {k});
      TotalSplit(m, DirtyOf, k);
      TotalSplit(m, PendingOf, k);
      TotalSplit(m, UnsentOf, k);
    }
  }

  lemma UnsentCount(c: Config, s: Cache)
    requires Accounts(c, s)
    ensures Dirty(s) == s.batch + Unsent(s)
  {
    DirtySplits(s.entries);
  }

  // ---------------------------------------------------------------- one entry changes

  /** t differs from s in the entry under k and in the batch count that goes with it. */
  ghost predicate Changes(c: Config, s: Cache, t: Cache, k: Ref) {
    && k in t.entries && t.entries == s.entries[k := t.entries[k]] && t.rank == s.rank
    && EntryOk(t.rank, t.entries[k])
    && t.orphans == s.orphans
    && t.batch == s.batch + Bit(t.entries[k].storePending) - Bit(Lookup(s, k).storePending)
    && (t.rank == 0 ==> t.batch <= c.batchLimit)
  }

  lemma ChangeKeeps(c: Config, s: Cache, t: Cache, k: Ref)
    requires Accounts(c, s) && Changes(c, s, t, k)
    ensures Accounts(c, t)
    ensures Pending(t) == Pending(s) + PendingOf(t.entries[k]) - PendingOf(Lookup(s, k))
    ensures Unsent(t) == Unsent(s) + UnsentOf(t.entries[k]) - UnsentOf(Lookup(s, k))
  {
    TotalPut(s.entries, PendingOf, k, t.entries[k]);
    TotalPut(s.entries, UnsentOf, k, t.entries[k]);
  }

  // ---------------------------------------------------------------- the flush walk

  lemma {:induction false} MarkedTotals(m: map<Ref, Entry>, picks: seq<Ref>)
    requires CanSend(m, picks)
    ensures Total(Marked(m, picks), PendingOf) == Total(m, PendingOf) + |picks|
    ensures Total(Marked(m, picks), UnsentOf) == Total(m, UnsentOf) - |picks|
    ensures Total(Marked(m, picks), DirtyOf) == Total(m, DirtyOf)
    decreases |picks|
  {
    if picks == [] {
      assert Marked(m, picks) == m;
    } else {
      var n := |picks| - 1;
      MarkedTotals(m, picks[..n]);
      assert picks == picks[..n] + [picks[n]];
      MarkedOne(m, picks[..n], picks[n]);
    }
  }

  lemma MarkedOne(m: map<Ref, Entry>, picks: seq<Ref>, k: Ref)
    requires k in m && k !in picks && m[k].dirty && !m[k].storePending
    ensures var n := Marked(m, picks);
      && Marked(m, picks + [k]) == n[k := m[k].(storePending := true)]
      && Total(Marked(m, picks + [k]), PendingOf) == Total(n, PendingOf) + 1
      && Total(Marked(m, picks + [k]), UnsentOf) == Total(n, UnsentOf) - 1
      && Total(Marked(m, picks + [k]), DirtyOf) == Total(n, DirtyOf)
  {
    var n := Marked(m, picks);
    var e := m[k].(storePending := true);
    assert Marked(m, picks + [k]) == n[k := e];
    TotalPut(n, PendingOf, k, e);
    TotalPut(n, UnsentOf, k, e);
    TotalPut(n, DirtyOf, k, e);
  }

  lemma SendAllKeeps(c: Config, s: Cache, picks: seq<Ref>)
    requires Accounts(c, s) && CanSend(s.entries, picks)
    requires |picks| <= Room(c, s)
    ensures Accounts(c, SendAll(s, picks))
    ensures Unsent(SendAll(s, picks)) == Unsent(s) - |picks|
  {
    MarkedTotals(s.entries, picks);
  }

  lemma CacheFlushKeeps(c: Config, s: Cache, ch: Choice)
    requires Accounts(c, s) && WalkOf(c, s, ch)
    ensures var t := CacheFlush(c, s, ch).cache;
      && Accounts(c, t) && t.batch == s.batch + |ch.picks|
      && t == s.(entries := t.entries, batch := t.batch)
      && (Honest(c, s) ==> Honest(c, t))
      && (ch.send.None? && Unsent(s) > 0 && c.batchLimit > 0 ==> t.batch > 0)
  {
    SendAllKeeps(c, s, ch.picks);
  }

  // ---------------------------------------------------------------- the guards

  /** Guard a, as far as the accounting needs it: a failed load does not take an entry away
      whose store is on its way. */
  predicate KeepsStores(s: Cache, ev: Event) {
    ev.LoadReply? && ev.load.LoadError? ==> !Lookup(s, ev.ref).storePending
  }

  /** The replies and evictions that the code does not guard against: guard a, and guard b,
      that dropcache and purge take no entry away whose load is still in flight. */
  predicate Guarded(s: Cache, ev: Event) {
    match ev
    case LoadReply(_, _) => KeepsStores(s, ev)
    case DropCache(_) => forall k <- AllDroppable(s) :: !Lookup(s, k).loadPending
    case Heartbeat(_, evicted) => forall k <- evicted :: !Lookup(s, k).loadPending
    case _ => true
  }

  /** A reply carries the blob of its blobref, or an error. */
  predicate TruthfulReply(c: Config, ev: Event) {
    ev.LoadReply? && ev.load.Loaded? ==> c.hash(ev.load.data) == ev.ref
  }

  lemma LoadRequestKeeps(c: Config, s: Cache, from: Requester, k: Ref, send: Option<Errno>)
    requires Accounts(c, s)
    ensures Accounts(c, LoadRequest(s, from, k, send).cache)
    ensures LoadRequest(s, from, k, send).cache.orphans == s.orphans
    ensures Honest(c, s) ==> Honest(c, LoadRequest(s, from, k, send).cache)
    ensures Wakes(s) ==> Wakes(LoadRequest(s, from, k, send).cache)
  {
    var t := LoadRequest(s, from, k, send).cache;
    if t != s {
      assert Changes(c, s, t, k);
      ChangeKeeps(c, s, t, k);
    }
  }

  /** A blob that is passed on keeps its place and its bytes. */
  lemma PassOnChanges(c: Config, s: Cache, from: Requester, k: Ref, e: Entry, send: Option<Errno>)
    requires EntryOk(s.rank, e) && e.valid && e.loadReqs == []
    requires s.rank == 0 ==> s.batch <= c.batchLimit
    requires e.storePending == Lookup(s, k).storePending && e.storeReqs == Lookup(s, k).storeReqs
    ensures var t := PassOn(c, s, from, k, e, send).cache;
      && Changes(c, s, t, k)
      && t.entries[k].valid && t.entries[k].data == e.data
      && t == s.(entries := t.entries, batch := t.batch) && t.batch >= s.batch
  {
  }

  lemma StoreRequestKeeps(c: Config, s: Cache, from: Requester, data: Blob, send: Option<Errno>)
    requires Accounts(c, s)
    ensures Accounts(c, StoreRequest(c, s, from, data, send).cache)
    ensures StoreRequest(c, s, from, data, send).cache.orphans == s.orphans
    ensures Honest(c, s) ==> Honest(c, StoreRequest(c, s, from, data, send).cache)
    ensures Wakes(s) ==> Wakes(StoreRequest(c, s, from, data, send).cache)
  {
    if |data| <= c.blobLimit {
      var k := c.hash(data);
      var e := Filled(s, k, data);
      PassOnChanges(c, s, from, k, e, send);
      ChangeKeeps(c, s, PassOn(c, s, from, k, e, send).cache, k);
    }
  }

  /** A load reply keeps the accounting exactly when it does not remove an entry whose
      store is on its way, and then it orphans nothing. */
  lemma LoadReplyKeeps(c: Config, s: Cache, k: Ref, result: LoadResult)
    requires Accounts(c, s) && k in s.entries && s.entries[k].loadPending
    ensures Accounts(c, LoadReplied(s, k, result).cache) <==> KeepsStores(s, LoadReply(k, result))
    ensures KeepsStores(s, LoadReply(k, result)) ==> LoadReplied(s, k, result).cache.orphans == s.orphans
    ensures Honest(c, s) && TruthfulReply(c, LoadReply(k, result)) ==> Honest(c, LoadReplied(s, k, result).cache)
    ensures Wakes(s) ==> Wakes(LoadReplied(s, k, result).cache)
  {
    var t := LoadReplied(s, k, result).cache;
    if result.LoadError? {
      TotalSplit(s.entries, PendingOf, k);
      assert t.entries == s.entries - {k};
      assert k in t.orphans <==> s.entries[k].storePending || k in s.orphans;
    } else {
      assert Changes(c, s, t, k);
      ChangeKeeps(c, s, t, k);
    }
  }

  lemma StoreSettledKeeps(c: Config, s: Cache, k: Ref, result: StoreResult)
    requires Accounts(c, s) && k in s.entries && s.entries[k].storePending
    ensures var t := StoreSettled(s, k, result).cache;
      && Accounts(c, t) && t.orphans == s.orphans && t.batch == s.batch - 1
      && (Honest(c, s) ==> Honest(c, t))
  {
    var t := StoreSettled(s, k, result).cache;
    TotalPositive(s.entries, PendingOf, k);
    assert Changes(c, s, t, k);
    ChangeKeeps(c, s, t, k);
  }

  /** No lost wakeup: after a store reply a parked flush still has a reply to wait for,
      unless this was the last one outstanding, the flush is not finished, and every send
      that would resume it fails at once. */
  lemma StoreReplyKeeps(c: Config, s: Cache, k: Ref, result: StoreResult, ch: Choice)
    requires Accounts(c, s) && Enabled(c, s, StoreReply(k, result), ch)
    requires c.batchLimit > 0
    ensures var t, u := StoreReplied(c, s, k, result, ch).cache, StoreSettled(s, k, result).cache;
      && Accounts(c, t) && t.orphans == s.orphans
      && (Honest(c, s) ==> Honest(c, t))
      && (Wakes(t) <==> !(s.flushReqs != [] && s.batch == 1 && !FlushDone(u) && ch.picks == []))
      && (s.batch == 1 && !FlushDone(u) && ch.picks == [] ==> ch.send.Some?)
  {
    var u := StoreSettled(s, k, result).cache;
    StoreSettledKeeps(c, s, k, result);
    UnsentCount(c, u);
    if Resumes(c, u) {
      CacheFlushKeeps(c, u, ch);
    }
  }

  lemma FlushRequestKeeps(c: Config, s: Cache, from: Requester, ch: Choice)
    requires Accounts(c, s) && Enabled(c, s, Flush(from), ch)
    requires c.batchLimit > 0
    ensures var t := FlushRequest(c, s, from, ch).cache;
      && Accounts(c, t) && t.orphans == s.orphans
      && (Honest(c, s) ==> Honest(c, t)) && (Wakes(s) ==> Wakes(t))
  {
    UnsentCount(c, s);
    if Dirty(s) > 0 {
      CacheFlushKeeps(c, s, ch);
    }
  }

  lemma BackingKeeps(c: Config, s: Cache, from: Requester, on: bool, ch: Choice)
    requires Accounts(c, s) && Enabled(c, s, SetBacking(from, on), ch)
    ensures var t := BackingRequest(c, s, from, on, ch).cache;
      && Accounts(c, t) && t.orphans == s.orphans
      && (Honest(c, s) ==> Honest(c, t)) && (Wakes(s) ==> Wakes(t))
  {
    if TurnsOn(s, on) {
      CacheFlushKeeps(c, s.(backing := true), ch);
    }
  }

  /** Eviction always keeps the accounting.  It orphans nothing exactly when no evicted
      entry has a load in flight. */
  lemma EvictKeeps(c: Config, s: Cache, evicted: set<Ref>)
    requires Accounts(c, s) && evicted <= AllDroppable(s)
    ensures Accounts(c, Evict(s, evicted))
    ensures s.orphans == {} ==> (Evict(s, evicted).orphans == {} <==> forall k <- evicted :: !Lookup(s, k).loadPending)
    ensures Honest(c, s) ==> Honest(c, Evict(s, evicted))
    ensures Wakes(s) ==> Wakes(Evict(s, evicted))
  {
    var t := Evict(s, evicted);
    TotalDrop(s.entries, PendingOf, evicted);
    if k :| k in evicted && Lookup(s, k).loadPending {
      assert k in t.orphans;
    }
  }

  /** Every handler keeps the accounting under guard a alone, whatever load replies carry.
      With guard b every reply still to come finds its entry; with truthful replies blobs
      stay under their hash. */
  lemma HandleKeeps(c: Config, s: Cache, ev: Event, ch: Choice)
    requires Accounts(c, s) && Enabled(c, s, ev, ch) && KeepsStores(s, ev)
    requires c.batchLimit > 0
    ensures var t := Handle(c, s, ev, ch).cache;
      && Accounts(c, t)
      && (s.orphans == {} && Guarded(s, ev) ==> t.orphans == {})
      && (Honest(c, s) && TruthfulReply(c, ev) ==> Honest(c, t))
      && (Wakes(s) && ch.send.None? ==> Wakes(t))
  {
    match ev
    case Load(from, k) => LoadRequestKeeps(c, s, from, k, ch.send);
    case Store(from, data) => StoreRequestKeeps(c, s, from, data, ch.send);
    case LoadReply(k, result) => LoadReplyKeeps(c, s, k, result);
    case StoreReply(k, result) => StoreReplyKeeps(c, s, k, result, ch);
    case Flush(from) => FlushRequestKeeps(c, s, from, ch);
    case SetBacking(from, on) => BackingKeeps(c, s, from, on, ch);
    case DropCache(from) => EvictKeeps(c, s, AllDroppable(s));
    case Heartbeat(now, evicted) => EvictKeeps(c, s.(epoch := now), evicted);
  }
}
