/** Whole runs of one cache, whatever its parent or backing store answers. */
module CacheRuns {
  import opened Basics
  import opened CacheModel
  import opened CacheLemmas
  import opened CacheAnswers

  /** What happened to a cache, and the states in between. */
  datatype History = History(states: seq<Cache>, events: seq<Event>, choices: seq<Choice>)

  /** A reply whose entry was removed while it was under way never comes. */
  predicate NoOrphan(s: Cache, ev: Event) {
    match ev
    case LoadReply(k, _) => k !in s.orphans
    case StoreReply(k, _) => k !in s.orphans
    case _ => true
  }

  /** A run that meets guard a.  Entries may be evicted while their load is in flight, and
      load replies may carry anything. */
  ghost predicate IsHistory(c: Config, h: History) {
    && |h.states| == |h.events| + 1 && |h.choices| == |h.events| && c.batchLimit > 0
    && h.states[0].entries == map[] && h.states[0].batch == 0 && h.states[0].orphans == {}
    && h.states[0].flushReqs == []
    && forall i | 0 <= i < |h.events| :: Follows(c, h.states[i], h.events[i], h.choices[i], h.states[i + 1])
  }

  ghost predicate Follows(c: Config, s: Cache, ev: Event, ch: Choice, t: Cache) {
    && Enabled(c, s, ev, ch) && KeepsStores(s, ev) && NoOrphan(s, ev)
    && t == Handle(c, s, ev, ch).cache
  }

  /** In every state of every run under guard a: the batch count is the number of stores on
      their way, dirty entries are valid, and requests are parked only where a reply will
      answer them. */
  lemma {:induction false} HistoryKeeps(c: Config, h: History, i: nat)
    requires IsHistory(c, h) && i < |h.states|
    ensures Accounts(c, h.states[i])
  {
    if i > 0 {
      HistoryKeeps(c, h, i - 1);
      assert Follows(c, h.states[i - 1], h.events[i - 1], h.choices[i - 1], h.states[i]);
      HandleKeeps(c, h.states[i - 1], h.events[i - 1], h.choices[i - 1]);
    }
  }

  ghost predicate GuardedUpTo(h: History, i: nat)
    requires i <= |h.events| && i <= |h.states|
  {
    i == 0 || (GuardedUpTo(h, i - 1) && Guarded(h.states[i - 1], h.events[i - 1]))
  }

  /** With guard b as well, no reply still to come finds its entry gone. */
  lemma {:induction false} NothingOrphaned(c: Config, h: History, i: nat)
    requires IsHistory(c, h) && i < |h.states| && GuardedUpTo(h, i)
    ensures Inv(c, h.states[i])
  {
    HistoryKeeps(c, h, i);
    if i > 0 {
      NothingOrphaned(c, h, i - 1);
      assert Follows(c, h.states[i - 1], h.events[i - 1], h.choices[i - 1], h.states[i]);
      HandleKeeps(c, h.states[i - 1], h.events[i - 1], h.choices[i - 1]);
    }
  }

  /** With truthful load replies, blobs are filed under their hash. */
  lemma {:induction false} StaysHonest(c: Config, h: History, i: nat)
    requires IsHistory(c, h) && i < |h.states|
    requires forall j | 0 <= j < i :: TruthfulReply(c, h.events[j])
    ensures Honest(c, h.states[i])
  {
    if i > 0 {
      StaysHonest(c, h, i - 1);
      HistoryKeeps(c, h, i - 1);
      assert Follows(c, h.states[i - 1], h.events[i - 1], h.choices[i - 1], h.states[i]);
      HandleKeeps(c, h.states[i - 1], h.events[i - 1], h.choices[i - 1]);
    }
  }

  /** No lost wakeup: under guard a alone, when no send fails at once, a parked flush request
      always has the reply to a store to wait for. */
  lemma {:induction false} FlushNeverForgotten(c: Config, h: History, i: nat)
    requires IsHistory(c, h) && i < |h.states|
    requires forall j | 0 <= j < i :: h.choices[j].send.None?
    ensures Wakes(h.states[i])
  {
    if i > 0 {
      FlushNeverForgotten(c, h, i - 1);
      HistoryKeeps(c, h, i - 1);
      assert Follows(c, h.states[i - 1], h.events[i - 1], h.choices[i - 1], h.states[i]);
      HandleKeeps(c, h.states[i - 1], h.events[i - 1], h.choices[i - 1]);
    }
  }

  lemma TotalOne(k: Ref, e: Entry, f: Entry -> nat)
    ensures Total(map[k := e], f) == f(e)
  {
    TotalPut(map[], f, k, e);
    assert map[][k := e] == map[k := e];
  }

  /** Rank 0 with one dirty blob, whose store is on its way or not, and a parked flush. */
  function Stuck(k: Ref, data: Blob, pending: bool): Cache {
    Cache(0, map[k := Entry(true, true, false, pending, data, [], [], 0)], true, Bit(pending), [Client(2)], 0, {})
  }

  /** The first three events: the backing store comes up, a blob is stored, a flush parks. */
  lemma FlushParks(c: Config, data: Blob) returns (h: History)
    requires c.batchLimit > 0 && |data| <= c.blobLimit
    ensures IsHistory(c, h) && |h.events| == 3 && h.states[3] == Stuck(c.hash(data), data, true)
    ensures forall j | 0 <= j < 3 :: h.choices[j].send.None?
  {
    var k, quick := c.hash(data), Choice(None, []);
    var s0 := Cache(0, map[], false, 0, [], 0, {});
    var s1 := s0.(backing := true);
    var e := Entry(true, true, false, true, data, [], [], 0);
    var s2 := s1.(entries := map[k := e], batch := 1);
    var s3 := Stuck(k, data, true);
    assert Marked(map[], []) == map[] && Marked(map[k := e], []) == map[k := e];
    TotalOne(k, e, DirtyOf);
    TotalOne(k, e, UnsentOf);
    assert [] + [Client(2)] == [Client(2)];
    assert Follows(c, s0, SetBacking(Client(0), true), quick, s1);
    assert Filled(s1, k, data) == e.(storePending := false);
    assert map[][k := e] == map[k := e];
    assert Follows(c, s1, Store(Client(1), data), quick, s2);
    assert Follows(c, s2, Flush(Client(2)), quick, s3);
    h := History([s0, s1, s2, s3], [SetBacking(Client(0), true), Store(Client(1), data), Flush(Client(2))],
                 [quick, quick, quick]);
  }

  /** The exception is reached.  The store fails, the send that would resume the walk fails
      at once, and the flush is parked with no store under way to wake it. */
  lemma FlushForgotten(c: Config, data: Blob) returns (h: History)
    requires c.batchLimit > 0 && |data| <= c.blobLimit
    ensures IsHistory(c, h) && |h.events| == 4
    ensures var last := h.states[4];
      !Wakes(last) && last.flushReqs == [Client(2)] && forall k, result :: !EntryThere(last, StoreReply(k, result))
  {
    var k, ch := c.hash(data), Choice(Some(EIO), []);
    var ev := StoreReply(k, StoreError(EIO));
    h := FlushParks(c, data);
    var u := Stuck(k, data, false);
    TotalOne(k, u.entries[k], DirtyOf);
    TotalOne(k, u.entries[k], UnsentOf);
    assert StoreSettled(h.states[3], k, StoreError(EIO)).cache == u;
    assert Marked(u.entries, []) == u.entries;
    assert Follows(c, h.states[3], ev, ch, u);
    h := History(h.states + [u], h.events + [ev], h.choices + [ch]);
  }

  // ---------------------------------------------------------------- answers

  ghost function Requested(c: Config, h: History, i: nat, t: Tick): nat
    requires i <= |h.events|
  {
    if i == 0 then 0 else Requested(c, h, i - 1, t) + Bit(Incoming(c.hash, h.events[i - 1]) == Some(t))
  }

  ghost function Delivered(c: Config, h: History, i: nat, t: Tick): nat
    requires IsHistory(c, h) && i <= |h.events|
  {
    if i == 0 then 0 else
      assert Follows(c, h.states[i - 1], h.events[i - 1], h.choices[i - 1], h.states[i]);
      Delivered(c, h, i - 1, t)
      + Emitted(c, h.states[i - 1], h.events[i - 1], h.choices[i - 1], t)
  }

  ghost function Emitted(c: Config, s: Cache, ev: Event, ch: Choice, t: Tick): nat
    requires Enabled(c, s, ev, ch)
  {
    Count(c.hash, Handle(c, s, ev, ch).out, t)
  }

  /** Over any run under guard a, what was asked is what was answered plus what is parked,
      for each requester and kind of request. */
  lemma {:induction false} ExactlyOnce(c: Config, h: History, i: nat, kind: Kind, q: Requester)
    requires IsHistory(c, h) && i <= |h.events|
    ensures var t := Answered(kind, q);
      Requested(c, h, i, t) == Delivered(c, h, i, t) + Parked(h.states[i], kind, q)
  {
    if i == 0 {
      NobodyParked(h.states[0], kind, q);
    } else {
      ExactlyOnce(c, h, i - 1, kind, q);
      HistoryKeeps(c, h, i - 1);
      AnswerStep(c, h.states[i - 1], h.events[i - 1], h.choices[i - 1], h.states[i], kind, q);
    }
  }

  lemma AnswerStep(c: Config, s: Cache, ev: Event, ch: Choice, t: Cache, kind: Kind, q: Requester)
    requires Follows(c, s, ev, ch, t) && Accounts(c, s)
    ensures Emitted(c, s, ev, ch, Answered(kind, q)) + Parked(t, kind, q)
         == Bit(Incoming(c.hash, ev) == Some(Answered(kind, q))) + Parked(s, kind, q)
  {
    HandleBalanced(c, s, ev, ch, Answered(kind, q));
  }

  /** With guard b and truthful load replies, the RPCs sent are the RPCs replied to plus at
      most one on its way for each blobref and kind. */
  lemma {:induction false} OneRpcEach(c: Config, h: History, i: nat, kind: Kind)
    requires IsHistory(c, h) && i <= |h.events| && GuardedUpTo(h, i)
    requires forall j | 0 <= j < i :: TruthfulReply(c, h.events[j])
    ensures Delivered(c, h, i, Sent(kind)) == Requested(c, h, i, Sent(kind)) + Bit(Awaits(h.states[i], kind))
  {
    if i > 0 {
      OneRpcEach(c, h, i - 1, kind);
      HistoryKeeps(c, h, i - 1);
      StaysHonest(c, h, i - 1);
      RpcStep(c, h.states[i - 1], h.events[i - 1], h.choices[i - 1], h.states[i], kind);
    }
  }

  lemma RpcStep(c: Config, s: Cache, ev: Event, ch: Choice, t: Cache, kind: Kind)
    requires Follows(c, s, ev, ch, t) && Accounts(c, s) && Honest(c, s) && Guarded(s, ev)
    ensures Emitted(c, s, ev, ch, Sent(kind)) + Bit(Awaits(s, kind))
         == Bit(Incoming(c.hash, ev) == Some(Sent(kind))) + Bit(Awaits(t, kind))
  {
    HandleBalanced(c, s, ev, ch, Sent(kind));
  }

  lemma NobodyParked(s: Cache, kind: Kind, q: Requester)
    requires s.entries == map[] && s.flushReqs == []
    ensures Parked(s, kind, q) == 0
  {
    assert (set i | 0 <= i < |NewEntry.loadReqs| && NewEntry.loadReqs[i] == q) == {};
  }
}
