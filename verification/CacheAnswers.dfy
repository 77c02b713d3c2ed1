/** Exactly one answer per request, and at most one RPC of each kind per blobref. */
module CacheAnswers {
  import opened Basics
  import opened CacheModel
  import opened CacheLemmas

  /** What a request asks for: requests of the same kind share a parking list. */
  datatype Kind = Loading(ref: Ref) | Storing(ref: Ref) | Managing

  /** What one message stands for in the books: an answer, or an RPC sent upstream. */
  datatype Tick = Answered(kind: Kind, to: Requester) | Sent(kind: Kind)

  function TickOf(h: Blob -> Ref, o: Output): Tick {
    match o
    case AnswerLoad(to, k, _) => Answered(Loading(k), to)
    case AnswerStore(to, k, _) => Answered(Storing(k), to)
    case Answer(to, _) => Answered(Managing, to)
    case SendLoad(k) => Sent(Loading(k))
    case SendStore(data) => Sent(Storing(h(data)))
  }

  ghost function Count(h: Blob -> Ref, out: seq<Output>, t: Tick): nat {
    |set i | 0 <= i < |out| && TickOf(h, out[i]) == t|
  }

  ghost function Occurs(reqs: seq<Requester>, q: Requester): nat {
    |set i | 0 <= i < |reqs| && reqs[i] == q|
  }

  ghost function Parked(s: Cache, kind: Kind, q: Requester): nat {
    match kind
    case Loading(k) => Occurs(Lookup(s, k).loadReqs, q)
    case Storing(k) => Occurs(Lookup(s, k).storeReqs, q)
    case Managing => Occurs(s.flushReqs, q)
  }

  function Awaits(s: Cache, kind: Kind): bool {
    match kind
    case Loading(k) => Lookup(s, k).loadPending
    case Storing(k) => Lookup(s, k).storePending
    case Managing => false
  }

  /** Answers that the cache owes to a requester, or, as a negative number, the replies
      that it is owed itself. */
  ghost function Owed(s: Cache, t: Tick): int {
    match t
    case Answered(kind, q) => Parked(s, kind, q)
    case Sent(kind) => 0 - Bit(Awaits(s, kind))
  }

  /** A request makes the cache owe an answer, a reply pays back what the cache is owed. */
  function Incoming(h: Blob -> Ref, ev: Event): Option<Tick> {
    match ev
    case Load(from, k) => Some(Answered(Loading(k), from))
    case Store(from, data) => Some(Answered(Storing(h(data)), from))
    case Flush(from) => Some(Answered(Managing, from))
    case SetBacking(from, _) => Some(Answered(Managing, from))
    case DropCache(from) => Some(Answered(Managing, from))
    case LoadReply(k, _) => Some(Sent(Loading(k)))
    case StoreReply(k, _) => Some(Sent(Storing(k)))
    case Heartbeat(_, _) => None
  }

  /** The books balance.  For an Answered tick: requests parked afterwards and answers sent
      are the requests parked before and the one received.  For a Sent tick: the pending
      bit counts the RPCs that were sent and not replied to. */
  ghost predicate Balanced(c: Config, s: Cache, ev: Event, r: Result, t: Tick) {
    Owed(r.cache, t) + Count(c.hash, r.out, t) == Owed(s, t) + Bit(Incoming(c.hash, ev) == Some(t))
  }

  // ---------------------------------------------------------------- counting

  lemma CountAppend(h: Blob -> Ref, out: seq<Output>, o: Output, t: Tick)
    ensures Count(h, out + [o], t) == Count(h, out, t) + Bit(TickOf(h, o) == t)
  {
    var before := set i | 0 <= i < |out| && TickOf(h, out[i]) == t;
    var all := out + [o];
    var after := set i | 0 <= i < |all| && TickOf(h, all[i]) == t;
    assert all[|out|] == o && forall i | 0 <= i < |out| :: all[i] == out[i];
    assert after == before + if TickOf(h, o) == t then {|out|} else {};
  }

  lemma OccursAppend(reqs: seq<Requester>, x: Requester, q: Requester)
    ensures Occurs(reqs + [x], q) == Occurs(reqs, q) + Bit(x == q)
  {
    var before := set i | 0 <= i < |reqs| && reqs[i] == q;
    var after := set i | 0 <= i < |reqs + [x]| && (reqs + [x])[i] == q;
    assert after == before + if x == q then {|reqs|} else {};
  }

  lemma {:induction false} CountConcat(h: Blob -> Ref, a: seq<Output>, b: seq<Output>, t: Tick)
    ensures Count(h, a + b, t) == Count(h, a, t) + Count(h, b, t)
    decreases |b|
  {
    if b == [] {
      assert a + b == a;
    } else {
      var n := |b| - 1;
      CountConcat(h, a, b[..n], t);
      CountAppend(h, b[..n], b[n], t);
      CountAppend(h, a + b[..n], b[n], t);
      assert b == b[..n] + [b[n]];
      assert a + b == a + b[..n] + [b[n]];
    }
  }

  lemma CountSmall(h: Blob -> Ref, out: seq<Output>, t: Tick)
    ensures |out| == 0 ==> Count(h, out, t) == 0
    ensures |out| == 1 ==> Count(h, out, t) == Bit(TickOf(h, out[0]) == t)
    ensures |out| == 2 ==> Count(h, out, t) == Bit(TickOf(h, out[0]) == t) + Bit(TickOf(h, out[1]) == t)
  {
    if |out| == 1 {
      assert out == [] + [out[0]];
      CountAppend(h, [], out[0], t);
    } else if |out| == 2 {
      assert out == [] + [out[0]] + [out[1]];
      CountAppend(h, [], out[0], t);
      CountAppend(h, [] + [out[0]], out[1], t);
    }
  }

  lemma CountPositive(h: Blob -> Ref, out: seq<Output>, o: Output)
    requires o in out
    ensures Count(h, out, TickOf(h, o)) > 0
  {
    var i :| 0 <= i < |out| && out[i] == o;
    var hits := set i | 0 <= i < |out| && TickOf(h, out[i]) == TickOf(h, o);
    assert i in hits;
  }

  /** out answers, with the given kind, exactly the requests in reqs. */
  lemma CountAnswers(h: Blob -> Ref, out: seq<Output>, kind: Kind, reqs: seq<Requester>, t: Tick)
    requires |out| == |reqs|
    requires forall i | 0 <= i < |reqs| :: TickOf(h, out[i]) == Answered(kind, reqs[i])
    ensures Count(h, out, t) == if t.Answered? && t.kind == kind then Occurs(reqs, t.to) else 0
  {
    var hits := set i | 0 <= i < |out| && TickOf(h, out[i]) == t;
    if t.Answered? && t.kind == kind {
      assert hits == set i | 0 <= i < |reqs| && reqs[i] == t.to;
    } else {
      assert hits == {};
    }
  }

  lemma CountSent(h: Blob -> Ref, s: Cache, picks: seq<Ref>, t: Tick)
    requires forall i, j | 0 <= i < j < |picks| :: picks[i] != picks[j]
    requires forall k <- picks :: k in s.entries && (t.Sent? ==> h(s.entries[k].data) == k)
    ensures Count(h, SentStores(s, picks), t) == Bit(t.Sent? && t.kind.Storing? && t.kind.ref in picks)
  {
    var out := SentStores(s, picks);
    var hits := set i | 0 <= i < |out| && TickOf(h, out[i]) == t;
    assert forall i | 0 <= i < |out| :: t.Sent? ==> TickOf(h, out[i]) == Sent(Storing(picks[i]));
    if t.Sent? && t.kind.Storing? && t.kind.ref in picks {
      var i :| 0 <= i < |picks| && picks[i] == t.kind.ref;
      assert hits == {i};
    } else {
      assert hits == {};
    }
  }

  // ---------------------------------------------------------------- load

  lemma LoadRequestBalanced(c: Config, s: Cache, from: Requester, k: Ref, send: Option<Errno>, t: Tick)
    requires EntryOk(s.rank, Lookup(s, k))
    ensures Balanced(c, s, Load(from, k), LoadRequest(s, from, k, send), t)
  {
    if t.kind == Loading(k) && t.Answered? {
      OccursAppend(Lookup(s, k).loadReqs, from, t.to);
    }
    CountSmall(c.hash, LoadRequest(s, from, k, send).out, t);
  }

  lemma LoadReplyBalanced(c: Config, s: Cache, k: Ref, result: LoadResult, t: Tick)
    requires k in s.entries && s.entries[k].loadPending && EntryOk(s.rank, s.entries[k])
    requires KeepsStores(s, LoadReply(k, result))
    ensures Balanced(c, s, LoadReply(k, result), LoadReplied(s, k, result), t)
  {
    var r := LoadReplied(s, k, result);
    CountAnswers(c.hash, r.out, Loading(k), s.entries[k].loadReqs, t);
    if t.kind.Managing? || t.kind.ref != k {
      assert t.kind.Managing? || Lookup(r.cache, t.kind.ref) == Lookup(s, t.kind.ref);
    }
  }

  // ---------------------------------------------------------------- store

  lemma PassOnSends(c: Config, s: Cache, from: Requester, k: Ref, e: Entry, send: Option<Errno>, kind: Kind)
    requires c.hash(e.data) == k
    requires e.loadPending == Lookup(s, k).loadPending && e.storePending == Lookup(s, k).storePending
    ensures var r := PassOn(c, s, from, k, e, send);
      Bit(Awaits(r.cache, kind)) == Bit(Awaits(s, kind)) + Count(c.hash, r.out, Sent(kind))
  {
    CountSmall(c.hash, PassOn(c, s, from, k, e, send).out, Sent(kind));
  }

  lemma PassOnAnswers(c: Config, s: Cache, from: Requester, k: Ref, e: Entry, send: Option<Errno>,
                      kind: Kind, q: Requester)
    requires e.loadReqs == [] && e.storeReqs == Lookup(s, k).storeReqs
    ensures var r := PassOn(c, s, from, k, e, send);
      Parked(r.cache, kind, q) + Count(c.hash, r.out, Answered(kind, q)) ==
      (if kind == Loading(k) then 0 else Parked(s, kind, q)) + Bit(kind == Storing(k) && from == q)
  {
    if kind == Storing(k) {
      OccursAppend(e.storeReqs, from, q);
    }
    CountSmall(c.hash, PassOn(c, s, from, k, e, send).out, Answered(kind, q));
  }

  lemma StoreRequestBalanced(c: Config, s: Cache, from: Requester, data: Blob, send: Option<Errno>, t: Tick)
    requires EntryOk(s.rank, Lookup(s, c.hash(data)))
    requires t.Sent? && Lookup(s, c.hash(data)).valid ==> c.hash(Lookup(s, c.hash(data)).data) == c.hash(data)
    ensures Balanced(c, s, Store(from, data), StoreRequest(c, s, from, data, send), t)
  {
    var k := c.hash(data);
    if |data| > c.blobLimit {
      CountSmall(c.hash, StoreRequest(c, s, from, data, send).out, t);
    } else {
      var e := Lookup(s, k);
      var woken := if e.valid then [] else AnswerLoads(e.loadReqs, k, Loaded(data));
      CountAnswers(c.hash, woken, Loading(k), e.loadReqs, t);
      CountConcat(c.hash, woken, PassOn(c, s, from, k, Filled(s, k, data), send).out, t);
      match t
      case Sent(kind) => PassOnSends(c, s, from, k, Filled(s, k, data), send, kind);
      case Answered(kind, q) => PassOnAnswers(c, s, from, k, Filled(s, k, data), send, kind, q);
    }
  }

  // ---------------------------------------------------------------- flush and store reply

  /** A walk answers nobody and sends one store for each entry that it marks. */
  lemma CacheFlushBalanced(c: Config, s: Cache, ch: Choice, t: Tick)
    requires WalkOf(c, s, ch) && EntriesOk(s) && (t.Sent? ==> Honest(c, s))
    ensures var r := CacheFlush(c, s, ch);
      Owed(r.cache, t) + Count(c.hash, r.out, t) == Owed(s, t)
  {
    CountSent(c.hash, s, ch.picks, t);
  }

  lemma StoreSettledBalanced(c: Config, s: Cache, k: Ref, result: StoreResult, t: Tick)
    requires k in s.entries && s.entries[k].storePending
    ensures Balanced(c, s, StoreReply(k, result), StoreSettled(s, k, result), t)
  {
    CountAnswers(c.hash, StoreSettled(s, k, result).out, Storing(k), s.entries[k].storeReqs, t);
  }

  lemma AfterStoreBalanced(c: Config, s: Cache, ch: Choice, t: Tick)
    requires (Resumes(c, s) ==> WalkOf(c, s, ch)) && EntriesOk(s) && (t.Sent? ==> Honest(c, s))
    ensures var r := AfterStore(c, s, ch);
      Owed(r.cache, t) + Count(c.hash, r.out, t) == Owed(s, t)
  {
    if FlushDone(s) {
      CountAnswers(c.hash, FlushRespond(s).out, Managing, s.flushReqs, t);
    } else if Resumes(c, s) {
      CacheFlushBalanced(c, s, ch, t);
    }
  }

  lemma StoreReplyBalanced(c: Config, s: Cache, k: Ref, result: StoreResult, ch: Choice, t: Tick)
    requires Accounts(c, s) && (t.Sent? ==> Honest(c, s)) && Enabled(c, s, StoreReply(k, result), ch)
    ensures Balanced(c, s, StoreReply(k, result), StoreReplied(c, s, k, result, ch), t)
  {
    var u := StoreSettled(s, k, result);
    StoreSettledKeeps(c, s, k, result);
    StoreSettledBalanced(c, s, k, result, t);
    AfterStoreBalanced(c, u.cache, ch, t);
    CountConcat(c.hash, u.out, AfterStore(c, u.cache, ch).out, t);
  }

  lemma FlushRequestBalanced(c: Config, s: Cache, from: Requester, ch: Choice, t: Tick)
    requires EntriesOk(s) && (t.Sent? ==> Honest(c, s)) && Enabled(c, s, Flush(from), ch)
    ensures Balanced(c, s, Flush(from), FlushRequest(c, s, from, ch), t)
  {
    if Dirty(s) == 0 {
      CountSmall(c.hash, FlushRequest(c, s, from, ch).out, t);
    } else {
      CacheFlushBalanced(c, s, ch, t);
      if FlushFails(c, s, ch) {
        CountConcat(c.hash, CacheFlush(c, s, ch).out, [Answer(from, ch.send)], t);
        CountSmall(c.hash, [Answer(from, ch.send)], t);
      } else if t.Answered? {
        OccursAppend(s.flushReqs, from, t.to);
      }
    }
  }

  lemma BackingBalanced(c: Config, s: Cache, from: Requester, on: bool, ch: Choice, t: Tick)
    requires EntriesOk(s) && (t.Sent? ==> Honest(c, s)) && Enabled(c, s, SetBacking(from, on), ch)
    ensures Balanced(c, s, SetBacking(from, on), BackingRequest(c, s, from, on, ch), t)
  {
    var r := BackingRequest(c, s, from, on, ch);
    if TurnsOn(s, on) {
      CacheFlushBalanced(c, s.(backing := true), ch, t);
      CountConcat(c.hash, CacheFlush(c, s.(backing := true), ch).out, [Answer(from, None)], t);
      CountSmall(c.hash, [Answer(from, None)], t);
    } else {
      CountSmall(c.hash, r.out, t);
    }
  }

  /** An evicted entry has nobody waiting on it and, by guard b, nothing on its way. */
  lemma EvictBalanced(s: Cache, evicted: set<Ref>, t: Tick)
    requires EntriesOk(s) && evicted <= AllDroppable(s)
    requires t.Sent? ==> forall k <- evicted :: !Lookup(s, k).loadPending
    ensures Owed(Evict(s, evicted), t) == Owed(s, t)
  {
  }

  // ---------------------------------------------------------------- every handler

  /** Under guard a every request is answered exactly once or parked, over any call of any
      handler.  With guard b too, and blobs under their hash, the pending bits count exactly
      the RPCs that are out. */
  lemma HandleBalanced(c: Config, s: Cache, ev: Event, ch: Choice, t: Tick)
    requires Accounts(c, s) && Enabled(c, s, ev, ch) && KeepsStores(s, ev)
    requires t.Sent? ==> Honest(c, s) && Guarded(s, ev)
    ensures Balanced(c, s, ev, Handle(c, s, ev, ch), t)
  {
    match ev
    case Load(from, k) => LoadRequestBalanced(c, s, from, k, ch.send, t);
    case Store(from, data) => StoreRequestBalanced(c, s, from, data, ch.send, t);
    case LoadReply(k, result) => LoadReplyBalanced(c, s, k, result, t);
    case StoreReply(k, result) => StoreReplyBalanced(c, s, k, result, ch, t);
    case Flush(from) => FlushRequestBalanced(c, s, from, ch, t);
    case SetBacking(from, on) => BackingBalanced(c, s, from, on, ch, t);
    case DropCache(from) =>
      EvictBalanced(s, AllDroppable(s), t);
      CountSmall(c.hash, [Answer(from, None)], t);
    case Heartbeat(now, evicted) => EvictBalanced(s.(epoch := now), evicted, t);
  }
}
