/** The purge over whole runs: a blob in use stays. */
module PurgeRuns {
  import opened Basics
  import opened CacheModel
  import opened CacheLemmas
  import opened CacheRuns
  import opened CacheReplies
  import opened PurgeModel

  /** Heartbeats do not go backwards, and each purges as cache_purge does. */
  ghost predicate Beats(p: PurgeLimits, s: Cache, ev: Event) {
    ev.Heartbeat? ==> s.epoch <= ev.now && PurgeOf(p, s.(epoch := ev.now), ev.evicted)
  }

  ghost predicate Timed(c: Config, p: PurgeLimits, h: History) {
    IsHistory(c, h) && forall i | 0 <= i < |h.events| :: Beats(p, h.states[i], h.events[i])
  }

  /** The event loads or stores the blob k. */
  predicate Uses(c: Config, s: Cache, ev: Event, k: Ref) {
    match ev
    case Load(_, j) => j == k && Lookup(s, k).valid
    case Store(_, data) => c.hash(data) == k && |data| <= c.blobLimit
    case LoadReply(j, result) => j == k && result.Loaded?
    case _ => false
  }

  /** The entry was used at or after epoch since, and not in the future. */
  predicate UsedSince(s: Cache, k: Ref, since: int) {
    Lookup(s, k).valid ==> since <= Lookup(s, k).lastUsed <= s.epoch
  }

  /** A blob that is loaded or stored is there, and marked with the current epoch. */
  lemma UseMarks(c: Config, s: Cache, ev: Event, ch: Choice, k: Ref)
    requires Enabled(c, s, ev, ch) && Uses(c, s, ev, k)
    ensures var t := Handle(c, s, ev, ch).cache;
      Lookup(t, k).valid && Lookup(t, k).lastUsed == s.epoch == t.epoch
  {
    if ev.Store? {
      PassOnKeeps(c, s, ev.from, k, Filled(s, k, ev.data), ch.send);
    }
  }

  /** Without one of these events the mark of a blob that is there does not change. */
  lemma MarkStays(c: Config, s: Cache, ev: Event, ch: Choice, k: Ref)
    requires Enabled(c, s, ev, ch) && !Uses(c, s, ev, k) && Lookup(Handle(c, s, ev, ch).cache, k).valid
    ensures Lookup(s, k).valid && Lookup(Handle(c, s, ev, ch).cache, k).lastUsed == Lookup(s, k).lastUsed
  {
    match ev
    case Store(from, data) => PassOnKeeps(c, s, from, c.hash(data), Filled(s, c.hash(data), data), ch.send);
    case StoreReply(j, result) => ReplyKeepsEntry(c, s, j, result, ch, k);
    case Flush(from) => WalkKeepsEntry(c, s, ch, k);
    case SetBacking(from, on) => WalkKeepsEntry(c, s.(backing := true), ch, k);
    case _ =>
  }

  lemma UsedStep(c: Config, p: PurgeLimits, s: Cache, ev: Event, ch: Choice, k: Ref, since: int)
    requires Enabled(c, s, ev, ch) && Beats(p, s, ev) && UsedSince(s, k, since) && since <= s.epoch
    ensures var t := Handle(c, s, ev, ch).cache; UsedSince(t, k, since) && since <= t.epoch
  {
    RestStays(c, s, ev, ch);
    if Lookup(Handle(c, s, ev, ch).cache, k).valid {
      if Uses(c, s, ev, k) {
        UseMarks(c, s, ev, ch, k);
      } else {
        MarkStays(c, s, ev, ch, k);
      }
    }
  }

  lemma TimedStep(c: Config, p: PurgeLimits, h: History, i: nat)
    requires Timed(c, p, h) && i < |h.events|
    ensures Enabled(c, h.states[i], h.events[i], h.choices[i]) && Beats(p, h.states[i], h.events[i])
    ensures h.states[i + 1] == Handle(c, h.states[i], h.events[i], h.choices[i]).cache
  {
    assert Follows(c, h.states[i], h.events[i], h.choices[i], h.states[i + 1]);
  }

  /** In every run no entry was used in the future. */
  lemma {:induction false} NeverAhead(c: Config, p: PurgeLimits, h: History, i: nat, k: Ref)
    requires Timed(c, p, h) && i < |h.states| && Lookup(h.states[i], k).valid
    ensures Lookup(h.states[i], k).lastUsed <= h.states[i].epoch
  {
    if i > 0 {
      var s := h.states[i - 1];
      TimedStep(c, p, h, i - 1);
      RestStays(c, s, h.events[i - 1], h.choices[i - 1]);
      if Uses(c, s, h.events[i - 1], k) {
        UseMarks(c, s, h.events[i - 1], h.choices[i - 1], k);
      } else {
        MarkStays(c, s, h.events[i - 1], h.choices[i - 1], k);
        NeverAhead(c, p, h, i - 1, k);
      }
    }
  }

  lemma {:induction false} UsedLater(c: Config, p: PurgeLimits, h: History, i: nat, j: nat, k: Ref)
    requires Timed(c, p, h) && i < j < |h.states| && Uses(c, h.states[i], h.events[i], k)
    ensures UsedSince(h.states[j], k, h.states[i].epoch) && h.states[i].epoch <= h.states[j].epoch
    decreases j
  {
    TimedStep(c, p, h, j - 1);
    if j == i + 1 {
      UseMarks(c, h.states[i], h.events[i], h.choices[i], k);
    } else {
      UsedLater(c, p, h, i, j - 1, k);
      UsedStep(c, p, h.states[j - 1], h.events[j - 1], h.choices[j - 1], k, h.states[i].epoch);
    }
  }

  /** The heartbeat comes less than oldEntry heartbeats after epoch since. */
  predicate Soon(p: PurgeLimits, since: int, ev: Event) {
    ev.Heartbeat? ==> ev.now - since < p.oldEntry && ev.now - since < WRAP
  }

  /** No heartbeat purges a blob that was loaded or stored less than oldEntry heartbeats ago;
      with a positive oldEntry, never one used since the last heartbeat. */
  lemma RecentSurvives(c: Config, p: PurgeLimits, h: History, i: nat, j: nat, k: Ref)
    requires Timed(c, p, h) && i < j < |h.events| && Uses(c, h.states[i], h.events[i], k)
    requires h.events[j].Heartbeat? && Soon(p, h.states[i].epoch, h.events[j])
    ensures k !in h.events[j].evicted
  {
    TimedStep(c, p, h, j);
    UsedLater(c, p, h, i, j, k);
    if k in h.events[j].evicted {
      VictimOld(p, h.states[j].(epoch := h.events[j].now), h.events[j].evicted, k);
    }
  }

  /** What else can take a blob away. */
  predicate Takes(ev: Event, k: Ref) {
    ev.DropCache? || (ev.LoadReply? && ev.ref == k && ev.load.LoadError?)
  }

  lemma StoreKeepsValid(c: Config, s: Cache, from: Requester, data: Blob, send: Option<Errno>, k: Ref)
    requires Lookup(s, k).valid
    ensures var e := Lookup(StoreRequest(c, s, from, data, send).cache, k); e.valid && e.data == Lookup(s, k).data
  {
    PassOnKeeps(c, s, from, c.hash(data), Filled(s, c.hash(data), data), send);
  }

  lemma ValidStays(c: Config, s: Cache, ev: Event, ch: Choice, k: Ref)
    requires Enabled(c, s, ev, ch) && Lookup(s, k).valid && !Takes(ev, k)
    requires ev.Heartbeat? ==> k !in ev.evicted
    ensures var e := Lookup(Handle(c, s, ev, ch).cache, k); e.valid && e.data == Lookup(s, k).data
  {
    match ev
    case Store(from, data) => StoreKeepsValid(c, s, from, data, ch.send, k);
    case StoreReply(j, result) => ReplyKeepsEntry(c, s, j, result, ch, k);
    case Flush(from) => WalkKeepsEntry(c, s, ch, k);
    case SetBacking(from, on) => WalkKeepsEntry(c, s.(backing := true), ch, k);
    case _ =>
  }

  /** Event n does not take k away, and is no heartbeat later than that. */
  ghost predicate Spares(p: PurgeLimits, h: History, since: int, n: nat, k: Ref)
    requires n < |h.events|
  {
    !Takes(h.events[n], k) && Soon(p, since, h.events[n])
  }

  lemma CachedStep(c: Config, p: PurgeLimits, h: History, i: nat, n: nat, k: Ref)
    requires Timed(c, p, h) && i < n < |h.events| && Uses(c, h.states[i], h.events[i], k)
    requires Spares(p, h, h.states[i].epoch, n, k) && Lookup(h.states[n], k).valid
    ensures var e := Lookup(h.states[n + 1], k); e.valid && e.data == Lookup(h.states[n], k).data
  {
    TimedStep(c, p, h, n);
    if h.events[n].Heartbeat? {
      RecentSurvives(c, p, h, i, n, k);
    }
    ValidStays(c, h.states[n], h.events[n], h.choices[n], k);
  }

  /** So a blob that is in use stays in the cache, with its bytes: after a load or a store it
      is there until oldEntry heartbeats later, unless a dropcache or a failed load takes it. */
  lemma {:induction false} StaysCached(c: Config, p: PurgeLimits, h: History, i: nat, j: nat, k: Ref)
    requires Timed(c, p, h) && i < j < |h.states| && Uses(c, h.states[i], h.events[i], k)
    requires forall n | i < n < j :: Spares(p, h, h.states[i].epoch, n, k)
    ensures var e := Lookup(h.states[j], k); e.valid && e.data == Lookup(h.states[i + 1], k).data
    decreases j
  {
    if j == i + 1 {
      TimedStep(c, p, h, i);
      UseMarks(c, h.states[i], h.events[i], h.choices[i], k);
    } else {
      StaysCached(c, p, h, i, j - 1, k);
      assert Spares(p, h, h.states[i].epoch, j - 1, k);
      CachedStep(c, p, h, i, j - 1, k);
    }
  }
}
