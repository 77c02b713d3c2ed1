/** What one handler call can do to one blob, and what its messages promise. */
module CacheEffects {
  import opened Basics
  import opened CacheModel
  import opened CacheLemmas

  /** How the entry under k may change.  Blobs come in by a store or by a load reply, they
      get clean by a store reply, and only clean ones go. */
  predicate EntryEffect(c: Config, s: Cache, ev: Event, t: Cache, k: Ref) {
    var e, e' := Lookup(s, k), Lookup(t, k);
    && (e.valid && e'.valid ==> e'.data == e.data)
    && (e.valid && !e'.valid ==> !e.dirty && k !in t.entries)
    && (!e.valid && e'.valid ==>
          || (ev.Store? && c.hash(ev.data) == k && e'.data == ev.data && e'.dirty)
          || (ev.LoadReply? && ev.ref == k && ev.load == Loaded(e'.data)))
    && (e.dirty && e'.valid && !e'.dirty ==> ev == StoreReply(k, Stored(k)))
  }

  /** At least one send of the call did not fail at once. */
  predicate Sends(ch: Choice) {
    ch.send.None? || ch.picks != []
  }

  /** What a message sent by a handler says about the cache it leaves behind. */
  predicate OutputEffect(c: Config, s: Cache, ev: Event, ch: Choice, t: Cache, o: Output) {
    match o
    case AnswerLoad(q, k, Loaded(data)) => Lookup(t, k).valid && Lookup(t, k).data == data
    case AnswerLoad(q, k, LoadError(errno)) =>
      && !Lookup(s, k).valid
      && (|| (ev.LoadReply? && ev.ref == k && ev.load.LoadError? && errno == LoadErrno(s, ev.load.errno))
          || (errno == ENOENT && s.rank == 0 && !s.backing)
          || (ch.send.Some? && errno == LoadErrno(s, ch.send.value)))
    case AnswerStore(q, k, Stored(k')) =>
      k' == k && Lookup(t, k).valid && (s.rank > 0 ==> !Lookup(t, k).dirty)
    case SendStore(data) => Sends(ch) && Lookup(t, c.hash(data)).valid && Lookup(t, c.hash(data)).data == data
    case SendLoad(k) => Sends(ch)
    case _ => true
  }

  /** Guard a: a failed load does not take away a dirty entry. */
  predicate KeepsDirty(s: Cache, ev: Event) {
    ev.LoadReply? && ev.load.LoadError? ==> !Lookup(s, ev.ref).dirty
  }

  // ---------------------------------------------------------------- requests for one blob

  lemma LoadRequestEffect(c: Config, s: Cache, from: Requester, k: Ref, ch: Choice, j: Ref, o: Output)
    requires EntryOk(s.rank, Lookup(s, k))
    ensures var r := LoadRequest(s, from, k, ch.send);
      && EntryEffect(c, s, Load(from, k), r.cache, j)
      && (o in r.out ==> OutputEffect(c, s, Load(from, k), ch, r.cache, o))
  {
  }

  lemma LoadReplyEffect(c: Config, s: Cache, k: Ref, result: LoadResult, ch: Choice, j: Ref, o: Output)
    requires k in s.entries && EntryOk(s.rank, s.entries[k])
    ensures var r := LoadReplied(s, k, result);
      && (KeepsDirty(s, LoadReply(k, result)) ==> EntryEffect(c, s, LoadReply(k, result), r.cache, j))
      && (o in r.out ==> OutputEffect(c, s, LoadReply(k, result), ch, r.cache, o))
  {
  }

  /** Passing a blob on never makes it clean. */
  lemma PassOnEffect(c: Config, s: Cache, from: Requester, k: Ref, e: Entry, send: Option<Errno>, o: Output)
    requires e.valid && c.hash(e.data) == k
    ensures var r := PassOn(c, s, from, k, e, send);
      && k in r.cache.entries && r.cache.entries == s.entries[k := r.cache.entries[k]]
      && r.cache.entries[k].valid && r.cache.entries[k].data == e.data
      && (e.dirty ==> r.cache.entries[k].dirty)
      && (o in r.out ==> o.SendStore? || o.AnswerStore?)
      && (o in r.out && o.SendStore? ==> o.data == e.data && send.None?)
      && (o in r.out && o.AnswerStore? ==> o.ref == k)
      && (o in r.out && o.AnswerStore? && o.store.Stored? ==>
            o.store.ref == k && (s.rank > 0 ==> !r.cache.entries[k].dirty))
  {
  }

  lemma StoreRequestEffect(c: Config, s: Cache, from: Requester, data: Blob, ch: Choice, j: Ref, o: Output)
    requires Lookup(s, c.hash(data)).valid ==> c.hash(Lookup(s, c.hash(data)).data) == c.hash(data)
    ensures var r := StoreRequest(c, s, from, data, ch.send);
      && EntryEffect(c, s, Store(from, data), r.cache, j)
      && (o in r.out ==> OutputEffect(c, s, Store(from, data), ch, r.cache, o))
  {
    if |data| <= c.blobLimit {
      var k := c.hash(data);
      PassOnEffect(c, s, from, k, Filled(s, k, data), ch.send, o);
    }
  }

  // ---------------------------------------------------------------- flush

  /** A walk changes no blob and no dirty bit, and sends blobs that are there. */
  lemma CacheFlushEffect(c: Config, s: Cache, ch: Choice, j: Ref, o: Output)
    requires WalkOf(c, s, ch) && EntriesOk(s) && Honest(c, s)
    ensures var r := CacheFlush(c, s, ch);
      && Lookup(r.cache, j) == Lookup(s, j).(storePending := Lookup(r.cache, j).storePending)
      && (o in r.out ==> Sends(ch) && o.SendStore?)
      && (o in r.out ==> Lookup(s, c.hash(o.data)).valid && Lookup(s, c.hash(o.data)).data == o.data)
  {
    if o in SentStores(s, ch.picks) {
      var i :| 0 <= i < |ch.picks| && o == SendStore(s.entries[ch.picks[i]].data);
      assert ch.picks[i] in s.entries;
    }
  }

  lemma AfterStoreEffect(c: Config, s: Cache, ch: Choice, j: Ref, o: Output)
    requires (Resumes(c, s) ==> WalkOf(c, s, ch)) && EntriesOk(s) && Honest(c, s)
    ensures var r := AfterStore(c, s, ch);
      && Lookup(r.cache, j) == Lookup(s, j).(storePending := Lookup(r.cache, j).storePending)
      && (o in r.out && !o.Answer? ==>
            && Sends(ch) && o.SendStore?
            && Lookup(s, c.hash(o.data)).valid && Lookup(s, c.hash(o.data)).data == o.data)
  {
    if !FlushDone(s) && Resumes(c, s) {
      CacheFlushEffect(c, s, ch, j, o);
    }
  }

  lemma StoreReplyEntry(c: Config, s: Cache, k: Ref, result: StoreResult, ch: Choice, j: Ref, o: Output)
    requires Accounts(c, s) && Honest(c, s) && Enabled(c, s, StoreReply(k, result), ch)
    ensures EntryEffect(c, s, StoreReply(k, result), StoreReplied(c, s, k, result, ch).cache, j)
  {
    StoreSettledKeeps(c, s, k, result);
    AfterStoreEffect(c, StoreSettled(s, k, result).cache, ch, j, o);
  }

  lemma StoreReplyEffect(c: Config, s: Cache, k: Ref, result: StoreResult, ch: Choice, j: Ref, o: Output)
    requires Accounts(c, s) && Honest(c, s) && Enabled(c, s, StoreReply(k, result), ch)
    ensures var r := StoreReplied(c, s, k, result, ch);
      && EntryEffect(c, s, StoreReply(k, result), r.cache, j)
      && (o in r.out ==> OutputEffect(c, s, StoreReply(k, result), ch, r.cache, o))
  {
    var u := StoreSettled(s, k, result).cache;
    StoreReplyEntry(c, s, k, result, ch, j, o);
    if o in StoreReplied(c, s, k, result, ch).out {
      StoreSettledKeeps(c, s, k, result);
      AfterStoreEffect(c, u, ch, k, o);
      if o.SendStore? {
        AfterStoreEffect(c, u, ch, c.hash(o.data), o);
      }
    }
  }

  lemma FlushRequestEffect(c: Config, s: Cache, from: Requester, ch: Choice, j: Ref, o: Output)
    requires EntriesOk(s) && Honest(c, s) && Enabled(c, s, Flush(from), ch)
    ensures var r := FlushRequest(c, s, from, ch);
      && EntryEffect(c, s, Flush(from), r.cache, j)
      && (o in r.out ==> OutputEffect(c, s, Flush(from), ch, r.cache, o))
  {
    if Dirty(s) > 0 {
      CacheFlushEffect(c, s, ch, j, o);
      if o.SendStore? {
        CacheFlushEffect(c, s, ch, c.hash(o.data), o);
      }
    }
  }

  lemma BackingEffect(c: Config, s: Cache, from: Requester, on: bool, ch: Choice, j: Ref, o: Output)
    requires EntriesOk(s) && Honest(c, s) && Enabled(c, s, SetBacking(from, on), ch)
    ensures var r := BackingRequest(c, s, from, on, ch);
      && EntryEffect(c, s, SetBacking(from, on), r.cache, j)
      && (o in r.out ==> OutputEffect(c, s, SetBacking(from, on), ch, r.cache, o))
  {
    if TurnsOn(s, on) {
      CacheFlushEffect(c, s.(backing := true), ch, j, o);
      if o.SendStore? {
        CacheFlushEffect(c, s.(backing := true), ch, c.hash(o.data), o);
      }
    }
  }

  // ---------------------------------------------------------------- every handler

  lemma HandleEffect(c: Config, s: Cache, ev: Event, ch: Choice, j: Ref, o: Output)
    requires Accounts(c, s) && Honest(c, s) && Enabled(c, s, ev, ch)
    ensures KeepsDirty(s, ev) ==> EntryEffect(c, s, ev, Handle(c, s, ev, ch).cache, j)
    ensures o in Handle(c, s, ev, ch).out ==> OutputEffect(c, s, ev, ch, Handle(c, s, ev, ch).cache, o)
  {
    match ev
    case Load(from, k) => LoadRequestEffect(c, s, from, k, ch, j, o);
    case Store(from, data) => StoreRequestEffect(c, s, from, data, ch, j, o);
    case LoadReply(k, result) => LoadReplyEffect(c, s, k, result, ch, j, o);
    case StoreReply(k, result) => StoreReplyEffect(c, s, k, result, ch, j, o);
    case Flush(from) => FlushRequestEffect(c, s, from, ch, j, o);
    case SetBacking(from, on) => BackingEffect(c, s, from, on, ch, j, o);
    case DropCache(from) =>
    case Heartbeat(now, evicted) =>
  }
}
