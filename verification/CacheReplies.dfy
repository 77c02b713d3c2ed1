/** What the answers of one cache say to whoever asked, stated by what the cache then holds,
    and what that is worth over whole runs. */
module CacheReplies {
  import opened Basics
  import opened CacheModel
  import opened CacheLemmas
  import opened CacheEffects
  import opened CacheRuns

  // ---------------------------------------------------------------- stores

  /** A successful store leaves the blob valid, and dirty on rank 0 while there is no backing
      store to hold it.  A failed one reports a blob over the limit, the error of the send or
      of the reply, or EIO for a reply about another blob. */
  ghost predicate StoreTold(c: Config, s: Cache, ev: Event, ch: Choice, t: Cache, k: Ref, result: StoreResult) {
    match result
    case Stored(j) => j == k && Lookup(t, k).valid && (t.rank == 0 && !t.backing ==> Lookup(t, k).dirty)
    case StoreError(errno) =>
      match ev
      case Store(_, data) =>
        c.hash(data) == k && if |data| > c.blobLimit then errno == EFBIG && t == s else ch.send == Some(errno)
      case StoreReply(j, reply) =>
        j == k && if reply.Stored? then reply.ref != k && errno == EIO else reply.errno == errno
      case _ => false
  }

  lemma StoreRequestTold(c: Config, s: Cache, from: Requester, data: Blob, ch: Choice, o: Output)
    requires o in StoreRequest(c, s, from, data, ch.send).out && o.AnswerStore?
    ensures StoreTold(c, s, Store(from, data), ch, StoreRequest(c, s, from, data, ch.send).cache, o.ref, o.store)
  {
  }

  lemma StoreReplyTold(c: Config, s: Cache, k: Ref, result: StoreResult, ch: Choice, o: Output)
    requires Accounts(c, s) && Enabled(c, s, StoreReply(k, result), ch)
    requires o in StoreReplied(c, s, k, result, ch).out && o.AnswerStore?
    ensures StoreTold(c, s, StoreReply(k, result), ch, StoreReplied(c, s, k, result, ch).cache, o.ref, o.store)
  {
    assert EntryOk(s.rank, s.entries[k]);
  }

  lemma StoreAnswer(c: Config, s: Cache, ev: Event, ch: Choice, o: Output)
    requires Accounts(c, s) && Enabled(c, s, ev, ch) && o in Handle(c, s, ev, ch).out && o.AnswerStore?
    ensures StoreTold(c, s, ev, ch, Handle(c, s, ev, ch).cache, o.ref, o.store)
  {
    match ev
    case Store(from, data) => StoreRequestTold(c, s, from, data, ch, o);
    case StoreReply(k, result) => StoreReplyTold(c, s, k, result, ch, o);
    case _ =>
  }

  /** What a store reply does to the entry it is about: clean if the blobref is confirmed, and
      otherwise as dirty as before. */
  lemma StoreCleans(c: Config, s: Cache, k: Ref, result: StoreResult, ch: Choice)
    requires Accounts(c, s) && Enabled(c, s, StoreReply(k, result), ch)
    ensures var e := Lookup(StoreReplied(c, s, k, result, ch).cache, k); e.valid && (e.dirty <==> result != Stored(k))
  {
    assert EntryOk(s.rank, s.entries[k]);
  }

  // ---------------------------------------------------------------- loads

  /** How an errno of the next level is reported: on rank 0 a missing service means that the
      blob is missing. */
  predicate Reported(rank: nat, errno: Errno, told: Errno) {
    if rank == 0 && errno == ENOSYS then told == ENOENT else told == errno
  }

  /** A successful load gives the bytes held.  A failed one says that rank 0 has neither the
      entry nor a backing store, or reports the send or the reply that failed. */
  ghost predicate LoadTold(s: Cache, ev: Event, ch: Choice, t: Cache, k: Ref, result: LoadResult) {
    match result
    case Loaded(data) => Lookup(t, k).valid && Lookup(t, k).data == data
    case LoadError(told) =>
      match ev
      case Load(_, j) =>
        && j == k && !Lookup(s, k).valid
        && if s.rank == 0 && !s.backing && k !in s.entries then told == ENOENT && t == s
           else ch.send.Some? && Reported(s.rank, ch.send.value, told)
      case LoadReply(j, reply) =>
        j == k && reply.LoadError? && Reported(s.rank, reply.errno, told) && k !in t.entries
      case _ => false
  }

  lemma LoadAnswer(c: Config, s: Cache, ev: Event, ch: Choice, o: Output)
    requires Accounts(c, s) && Enabled(c, s, ev, ch) && o in Handle(c, s, ev, ch).out && o.AnswerLoad?
    ensures LoadTold(s, ev, ch, Handle(c, s, ev, ch).cache, o.ref, o.load)
  {
    match ev
    case Store(from, data) => StoreLoadTold(c, s, from, data, ch, o);
    case _ =>
  }

  lemma StoreLoadTold(c: Config, s: Cache, from: Requester, data: Blob, ch: Choice, o: Output)
    requires o in StoreRequest(c, s, from, data, ch.send).out && o.AnswerLoad?
    ensures LoadTold(s, Store(from, data), ch, StoreRequest(c, s, from, data, ch.send).cache, o.ref, o.load)
  {
  }

  // ---------------------------------------------------------------- flush, backing, dropcache

  /** A flush is answered with success exactly when nothing is dirty.  The request itself can
      fail only by a send, and one that waited only because rank 0 has no backing store. */
  lemma FlushAnswer(c: Config, s: Cache, ev: Event, ch: Choice, o: Output)
    requires Accounts(c, s) && Enabled(c, s, ev, ch) && o in Handle(c, s, ev, ch).out && o.Answer?
    requires ev.Flush? || ev.StoreReply?
    ensures var t := Handle(c, s, ev, ch).cache;
      && (o.status.None? <==> Dirty(t) == 0)
      && (o.status.Some? && ev.Flush? ==> o.status == ch.send && s.batch < c.batchLimit && Unsent(s) > 0)
      && (o.status.Some? && ev.StoreReply? ==> o.status == Some(ENOSYS) && t.rank == 0 && !t.backing)
  {
    match ev
    case Flush(from) =>
      if Dirty(s) > 0 {
        MarkedTotals(s.entries, ch.picks);
      }
    case StoreReply(k, result) =>
  }

  /** Only rank 0 takes a backing store, and there the bit is what was asked for. */
  lemma BackingAnswer(c: Config, s: Cache, from: Requester, on: bool, ch: Choice)
    requires Enabled(c, s, SetBacking(from, on), ch)
    ensures var r := BackingRequest(c, s, from, on, ch);
      && r.cache.backing == (if s.rank == 0 then on else s.backing)
      && Answer(from, if s.rank == 0 then None else Some(EINVAL)) in r.out
      && (forall o <- r.out :: o.SendStore? || o == Answer(from, if s.rank == 0 then None else Some(EINVAL)))
      && (s.rank > 0 || s.backing || !on ==> r.cache.entries == s.entries && |r.out| == 1)
  {
    var r := BackingRequest(c, s, from, on, ch);
    assert r.out[|r.out| - 1].Answer?;
  }

  /** dropcache leaves no entry that is valid and clean, and every other entry as it was. */
  lemma DropLeaves(c: Config, s: Cache, from: Requester, ch: Choice, k: Ref)
    ensures var r := Handle(c, s, DropCache(from), ch);
      && r.out == [Answer(from, None)]
      && (k in r.cache.entries <==> k in s.entries && !(s.entries[k].valid && !s.entries[k].dirty))
      && (k in r.cache.entries ==> r.cache.entries[k] == s.entries[k])
  {
  }

  /** The backing bit and the epoch change by their own messages only. */
  lemma RestStays(c: Config, s: Cache, ev: Event, ch: Choice)
    requires Enabled(c, s, ev, ch)
    ensures var t := Handle(c, s, ev, ch).cache;
      && t.rank == s.rank
      && (t.backing != s.backing ==> ev.SetBacking? && t.backing == ev.on)
      && t.epoch == if ev.Heartbeat? then ev.now else s.epoch
  {
  }

  // ---------------------------------------------------------------- sending

  /** A dirty blob that is stored goes out at once, unless it is on its way already, rank 0
      has no backing store or a full batch, or the send fails. */
  lemma StoreSends(c: Config, s: Cache, from: Requester, data: Blob)
    requires |data| <= c.blobLimit && (s.rank > 0 || (s.backing && s.batch < c.batchLimit))
    ensures var r, k := StoreRequest(c, s, from, data, None), c.hash(data);
      && (Lookup(r.cache, k).dirty ==> Lookup(r.cache, k).storePending)
      && (Lookup(r.cache, k).dirty && !Lookup(s, k).storePending ==> SendStore(Lookup(r.cache, k).data) in r.out)
  {
    var r := StoreRequest(c, s, from, data, None);
    var own := PassOn(c, s, from, c.hash(data), Filled(s, c.hash(data), data), None);
    if own.out != [] {
      assert r.out[|r.out| - |own.out|] == own.out[0];
    }
  }

  /** The low-water rule: a store reply sends more only if at most half of the batch is then
      outstanding, and it leaves something unsent only with more than half outstanding,
      unless a send fails or rank 0 has no backing store. */
  lemma LowWater(c: Config, s: Cache, k: Ref, result: StoreResult, ch: Choice)
    requires Accounts(c, s) && Enabled(c, s, StoreReply(k, result), ch) && c.batchLimit > 0
    ensures var r := StoreReplied(c, s, k, result, ch);
      && (forall o <- r.out :: o.SendStore? ==> 2 * (s.batch - 1) <= c.batchLimit)
      && (ch.send.None? && (r.cache.rank > 0 || r.cache.backing) && Unsent(r.cache) > 0 ==>
            2 * r.cache.batch > c.batchLimit)
  {
    var u := StoreSettled(s, k, result).cache;
    StoreSettledKeeps(c, s, k, result);
    UnsentCount(c, u);
    if Resumes(c, u) {
      SendAllKeeps(c, u, ch.picks);
    }
  }

  // ---------------------------------------------------------------- what stays

  /** Passing a blob on changes nothing else, and in its entry neither blob nor time of use. */
  lemma PassOnKeeps(c: Config, s: Cache, from: Requester, k: Ref, e: Entry, send: Option<Errno>)
    ensures var t := PassOn(c, s, from, k, e, send).cache;
      && t == s.(entries := t.entries, batch := t.batch) && k in t.entries
      && t.entries == s.entries[k := t.entries[k]]
      && t.entries[k].valid == e.valid && t.entries[k].data == e.data && t.entries[k].lastUsed == e.lastUsed
      && (e.dirty ==> t.entries[k].dirty)
  {
  }

  /** A dirty blob stays, with its bytes, until its store is confirmed. */
  lemma DirtyStays(c: Config, s: Cache, ev: Event, ch: Choice, k: Ref)
    requires Accounts(c, s) && Enabled(c, s, ev, ch) && KeepsDirty(s, ev) && Lookup(s, k).dirty
    requires ev != StoreReply(k, Stored(k))
    ensures var e := Lookup(Handle(c, s, ev, ch).cache, k); e.valid && e.dirty && e.data == Lookup(s, k).data
  {
    assert EntryOk(s.rank, s.entries[k]);
    match ev
    case Store(from, data) => StoreKeepsDirty(c, s, from, data, ch.send, k);
    case StoreReply(j, result) => ReplyKeepsDirty(c, s, j, result, ch, k);
    case Flush(from) => WalkKeepsEntry(c, s, ch, k);
    case SetBacking(from, on) => WalkKeepsEntry(c, s.(backing := true), ch, k);
    case _ =>
  }

  lemma WalkKeepsEntry(c: Config, s: Cache, ch: Choice, k: Ref)
    ensures WalkOf(c, s, ch) ==>
      var e := Lookup(CacheFlush(c, s, ch).cache, k); e == Lookup(s, k).(storePending := e.storePending)
  {
  }

  lemma ReplyKeepsEntry(c: Config, s: Cache, j: Ref, result: StoreResult, ch: Choice, k: Ref)
    requires Enabled(c, s, StoreReply(j, result), ch)
    ensures var e, e' := Lookup(s, k), Lookup(StoreReplied(c, s, j, result, ch).cache, k);
      e'.valid == e.valid && e'.data == e.data && e'.lastUsed == e.lastUsed
  {
    WalkKeepsEntry(c, StoreSettled(s, j, result).cache, ch, k);
  }

  lemma ReplyKeepsDirty(c: Config, s: Cache, j: Ref, result: StoreResult, ch: Choice, k: Ref)
    requires Enabled(c, s, StoreReply(j, result), ch) && Lookup(s, k).dirty && (j == k ==> result != Stored(k))
    ensures var e := Lookup(StoreReplied(c, s, j, result, ch).cache, k);
      e.valid == Lookup(s, k).valid && e.dirty && e.data == Lookup(s, k).data
  {
    WalkKeepsEntry(c, StoreSettled(s, j, result).cache, ch, k);
  }

  lemma StoreKeepsDirty(c: Config, s: Cache, from: Requester, data: Blob, send: Option<Errno>, k: Ref)
    requires Lookup(s, k).dirty && Lookup(s, k).valid
    ensures var e := Lookup(StoreRequest(c, s, from, data, send).cache, k);
      e.valid && e.dirty && e.data == Lookup(s, k).data
  {
    PassOnKeeps(c, s, from, c.hash(data), Filled(s, c.hash(data), data), send);
  }

  // ---------------------------------------------------------------- runs

  lemma DirtyServed(s: Cache, from: Requester, k: Ref, send: Option<Errno>)
    requires Lookup(s, k).valid
    ensures LoadRequest(s, from, k, send).out == [AnswerLoad(from, k, Loaded(Lookup(s, k).data))]
  {
  }

  /** Nothing in the run confirms that k is stored, and no failed load takes a dirty entry
      away, from event i up to event j. */
  ghost predicate Unconfirmed(h: History, k: Ref, i: nat, j: nat)
    requires i <= j <= |h.events| && j <= |h.states|
  {
    forall n | i <= n < j :: KeepsDirty(h.states[n], h.events[n]) && h.events[n] != StoreReply(k, Stored(k))
  }

  lemma {:induction false} StaysHeld(c: Config, h: History, k: Ref, i: nat, j: nat)
    requires IsHistory(c, h) && i <= j <= |h.events| && Unconfirmed(h, k, i, j) && Lookup(h.states[i], k).dirty
    ensures var e := Lookup(h.states[j], k); e.valid && e.dirty && e.data == Lookup(h.states[i], k).data
    decreases j
  {
    HistoryKeeps(c, h, i);
    assert EntryOk(h.states[i].rank, Lookup(h.states[i], k));
    if i < j {
      StaysHeld(c, h, k, i, j - 1);
      HistoryKeeps(c, h, j - 1);
      assert Follows(c, h.states[j - 1], h.events[j - 1], h.choices[j - 1], h.states[j]);
      DirtyStays(c, h.states[j - 1], h.events[j - 1], h.choices[j - 1], k);
    }
  }

  ghost predicate Emits(c: Config, h: History, i: nat, o: Output)
    requires IsHistory(c, h) && i < |h.events|
  {
    assert Follows(c, h.states[i], h.events[i], h.choices[i], h.states[i + 1]);
    o in Handle(c, h.states[i], h.events[i], h.choices[i]).out
  }

  /** What a successful store on rank 0 is worth while there is no backing store: until the
      blob is confirmed by a backing store that has come back, no dropcache or heartbeat takes
      it away and every load of it is answered at once with the same bytes. */
  lemma HeldWithoutBacking(c: Config, h: History, i: nat, j: nat, to: Requester, k: Ref, ref: Ref)
    requires IsHistory(c, h) && i < j < |h.events| && Emits(c, h, i, AnswerStore(to, k, Stored(ref)))
    requires h.states[i + 1].rank == 0 && !h.states[i + 1].backing && Unconfirmed(h, k, i + 1, j + 1)
    ensures Lookup(h.states[j + 1], k).valid && Lookup(h.states[j + 1], k).data == Lookup(h.states[i + 1], k).data
    ensures forall q, errno :: !Emits(c, h, j, AnswerLoad(q, k, LoadError(errno)))
    ensures h.events[j].Load? && h.events[j].ref == k ==>
      Emits(c, h, j, AnswerLoad(h.events[j].from, k, Loaded(Lookup(h.states[i + 1], k).data)))
  {
    assert Follows(c, h.states[i], h.events[i], h.choices[i], h.states[i + 1]);
    HistoryKeeps(c, h, i);
    StoreAnswer(c, h.states[i], h.events[i], h.choices[i], AnswerStore(to, k, Stored(ref)));
    StaysHeld(c, h, k, i + 1, j);
    StaysHeld(c, h, k, i + 1, j + 1);
    HistoryKeeps(c, h, j);
    forall q, errno ensures !Emits(c, h, j, AnswerLoad(q, k, LoadError(errno))) {
      if Emits(c, h, j, AnswerLoad(q, k, LoadError(errno))) {
        LoadAnswer(c, h.states[j], h.events[j], h.choices[j], AnswerLoad(q, k, LoadError(errno)));
      }
    }
    if h.events[j].Load? && h.events[j].ref == k {
      DirtyServed(h.states[j], h.events[j].from, k, h.choices[j].send);
    }
  }
}
