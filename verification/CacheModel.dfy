/** One content cache as a value: what each handler of content-cache.c does to the
    entries, and which messages it sends.  The counters acct_size, acct_valid and
    acct_dirty do not appear here: they are sums over the entries, and the class in
    ContentCache.dfy proves that its running totals are those sums. */
module CacheModel {
  import opened Basics

  datatype Ref = Ref(name: string)
  type Byte = b: int | 0 <= b < 256
  type Blob = seq<Byte>

  /** Who sent a request: a local client, or the cache of a child rank. */
  datatype Requester = Client(id: nat) | Child(rank: nat)

  datatype Entry = Entry(
    valid: bool, dirty: bool, loadPending: bool, storePending: bool, data: Blob,
    loadReqs: seq<Requester>, storeReqs: seq<Requester>, lastUsed: int)

  const NewEntry := Entry(false, false, false, false, [], [], [], 0)

  /** The handler of a reply keeps the address of its entry.  orphans are the blobrefs of
      entries that were removed while a reply was still to come: that reply will use a
      freed entry. */
  datatype Cache = Cache(
    rank: nat, entries: map<Ref, Entry>, backing: bool, batch: nat, flushReqs: seq<Requester>,
    epoch: int, orphans: set<Ref>)

  datatype Config = Config(hash: Blob -> Ref, blobLimit: nat, batchLimit: nat)

  datatype LoadResult = Loaded(data: Blob) | LoadError(errno: Errno)
  datatype StoreResult = Stored(ref: Ref) | StoreError(errno: Errno)

  datatype Output =
    | AnswerLoad(to: Requester, ref: Ref, load: LoadResult)
    | AnswerStore(to: Requester, ref: Ref, store: StoreResult)
    | Answer(to: Requester, status: Option<Errno>)
    | SendLoad(ref: Ref)
    | SendStore(data: Blob)

  /** evicted is the set of entries that a heartbeat purge removes. */
  datatype Event =
    | Load(from: Requester, ref: Ref)
    | Store(from: Requester, data: Blob)
    | LoadReply(ref: Ref, load: LoadResult)
    | StoreReply(ref: Ref, store: StoreResult)
    | Flush(from: Requester)
    | SetBacking(from: Requester, on: bool)
    | DropCache(from: Requester)
    | Heartbeat(now: int, evicted: set<Ref>)

  /** What the handler does not decide itself: the error of a send that fails at once, if
      one does, and the entries that a flush sends on its walk of the hash. */
  datatype Choice = Choice(send: Option<Errno>, picks: seq<Ref>)

  datatype Result = Result(cache: Cache, out: seq<Output>)

  // ---------------------------------------------------------------- sums over the entries

  ghost function Total(m: map<Ref, Entry>, f: Entry -> nat): nat
  {
    if m == map[] then 0 else
      var k :| k in m;
      f(m[k]) + Total(m - {k}, f)
  }

  function ValidOf(e: Entry): nat { Bit(e.valid) }
  function SizeOf(e: Entry): nat { if e.valid then |e.data| else 0 }
  function DirtyOf(e: Entry): nat { Bit(e.dirty) }
  function PendingOf(e: Entry): nat { Bit(e.storePending) }
  function UnsentOf(e: Entry): nat { Bit(e.dirty && !e.storePending) }

  ghost function Dirty(s: Cache): nat { Total(s.entries, DirtyOf) }
  ghost function Pending(s: Cache): nat { Total(s.entries, PendingOf) }
  ghost function Unsent(s: Cache): nat { Total(s.entries, UnsentOf) }

  // ---------------------------------------------------------------- helpers

  function Put(s: Cache, k: Ref, e: Entry): Cache {
    s.(entries := s.entries[k := e])
  }

  function Get(m: map<Ref, Entry>, k: Ref): Entry {
    if k in m then m[k] else NewEntry
  }

  function Lookup(s: Cache, k: Ref): Entry {
    Get(s.entries, k)
  }

  /** remove_entry, for a set of entries. */
  function Evict(s: Cache, evicted: set<Ref>): Cache {
    s.(entries := s.entries - evicted, orphans := s.orphans + set k | k in evicted && Awaited(Lookup(s, k)))
  }

  predicate Awaited(e: Entry) {
    e.loadPending || e.storePending
  }

  function AnswerLoads(reqs: seq<Requester>, k: Ref, result: LoadResult): seq<Output> {
    seq(|reqs|, i requires 0 <= i < |reqs| => AnswerLoad(reqs[i], k, result))
  }

  function AnswerStores(reqs: seq<Requester>, k: Ref, result: StoreResult): seq<Output> {
    seq(|reqs|, i requires 0 <= i < |reqs| => AnswerStore(reqs[i], k, result))
  }

  function Answers(reqs: seq<Requester>, status: Option<Errno>): seq<Output> {
    seq(|reqs|, i requires 0 <= i < |reqs| => Answer(reqs[i], status))
  }

  // ---------------------------------------------------------------- load

  /** On rank 0 a missing content-backing service means that the blob is nowhere. */
  function LoadErrno(s: Cache, errno: Errno): Errno {
    if errno == ENOSYS && s.rank == 0 then ENOENT else errno
  }

  function LoadRequest(s: Cache, from: Requester, k: Ref, send: Option<Errno>): Result {
    if k !in s.entries && s.rank == 0 && !s.backing then
      Result(s, [AnswerLoad(from, k, LoadError(ENOENT))])
    else
      var e := Lookup(s, k);
      if e.valid then
        Result(Put(s, k, e.(lastUsed := s.epoch)), [AnswerLoad(from, k, Loaded(e.data))])
      else if e.loadPending then
        Result(Put(s, k, e.(loadReqs := e.loadReqs + [from])), [])
      else if send.Some? then
        Result(Put(s, k, e), [AnswerLoad(from, k, LoadError(LoadErrno(s, send.value)))])
      else
        Result(Put(s, k, e.(loadPending := true, loadReqs := e.loadReqs + [from])), [SendLoad(k)])
  }

  function LoadReplied(s: Cache, k: Ref, result: LoadResult): Result
    requires k in s.entries
  {
    var e := s.entries[k];
    match result
    case LoadError(errno) =>
      Result(Evict(Put(s, k, e.(loadPending := false)), {k}),
             AnswerLoads(e.loadReqs, k, LoadError(LoadErrno(s, errno))))
    case Loaded(data) =>
      var held := if e.valid then e.data else data;
      Result(Put(s, k, e.(valid := true, data := held, loadPending := false, loadReqs := [], lastUsed := s.epoch)),
             AnswerLoads(e.loadReqs, k, Loaded(held)))
  }

  // ---------------------------------------------------------------- store

  /** cache_store sends nothing when a store of the entry is on its way already, or when
      rank 0 has its full batch of stores outstanding. */
  function MayStore(c: Config, s: Cache, e: Entry): bool {
    !e.storePending && (s.rank == 0 ==> s.batch < c.batchLimit)
  }

  function SendOne(s: Cache, k: Ref, e: Entry): Cache {
    Put(s, k, e.(storePending := true)).(batch := s.batch + 1)
  }

  /** The entry once the blob is in it. */
  function Filled(s: Cache, k: Ref, data: Blob): Entry {
    var e := Lookup(s, k);
    if e.valid then e.(lastUsed := s.epoch)
    else e.(valid := true, data := data, dirty := true, loadReqs := [], lastUsed := s.epoch)
  }

  /** Pass a dirty blob on, then park the request (rank > 0, write-through) or answer it
      (rank 0, write-back).  A clean blob is answered at once; rank 0 marks it dirty while
      no backing store is there to hold it. */
  function PassOn(c: Config, s: Cache, from: Requester, k: Ref, e: Entry, send: Option<Errno>): Result {
    var done := AnswerStore(from, k, Stored(k));
    if !e.dirty || (s.rank == 0 && !s.backing) then
      Result(Put(s, k, e.(dirty := e.dirty || (s.rank == 0 && !s.backing))), [done])
    else if !MayStore(c, s, e) then
      if s.rank > 0 then Result(Put(s, k, e.(storeReqs := e.storeReqs + [from])), [])
      else Result(Put(s, k, e), [done])
    else if send.Some? then
      Result(Put(s, k, e), [AnswerStore(from, k, StoreError(send.value))])
    else if s.rank > 0 then
      Result(SendOne(s, k, e.(storeReqs := e.storeReqs + [from])), [SendStore(e.data)])
    else
      Result(SendOne(s, k, e), [SendStore(e.data), done])
  }

  function StoreRequest(c: Config, s: Cache, from: Requester, data: Blob, send: Option<Errno>): Result {
    var k := c.hash(data);
    if |data| > c.blobLimit then
      Result(s, [AnswerStore(from, k, StoreError(EFBIG))])
    else
      var e := Lookup(s, k);
      var woken := if e.valid then [] else AnswerLoads(e.loadReqs, k, Loaded(data));
      var r := PassOn(c, s, from, k, Filled(s, k, data), send);
      Result(r.cache, woken + r.out)
  }

  // ---------------------------------------------------------------- flush

  /** Some entries that are dirty and not on their way, each once. */
  ghost predicate CanSend(m: map<Ref, Entry>, picks: seq<Ref>) {
    && (forall k <- picks :: k in m && m[k].dirty && !m[k].storePending)
    && (forall i, j | 0 <= i < j < |picks| :: picks[i] != picks[j])
  }

  function Marked(m: map<Ref, Entry>, picks: seq<Ref>): map<Ref, Entry> {
    map k | k in m :: if k in picks then m[k].(storePending := true) else m[k]
  }

  function SendAll(s: Cache, picks: seq<Ref>): Cache {
    s.(entries := Marked(s.entries, picks), batch := s.batch + |picks|)
  }

  function SentStores(s: Cache, picks: seq<Ref>): seq<Output>
    requires forall k <- picks :: k in s.entries
  {
    seq(|picks|, i requires 0 <= i < |picks| => SendStore(s.entries[picks[i]].data))
  }

  ghost function Room(c: Config, s: Cache): nat {
    if s.batch < c.batchLimit then c.batchLimit - s.batch else 0
  }

  /** A walk sends every unsent dirty entry that fits into the batch, except those whose
      send fails. */
  ghost predicate WalkOf(c: Config, s: Cache, ch: Choice) {
    && CanSend(s.entries, ch.picks) && |ch.picks| <= Min(Unsent(s), Room(c, s))
    && (ch.send.None? ==> |ch.picks| == Min(Unsent(s), Room(c, s)))
    && (FlushFails(c, s, ch) ==> |ch.picks| < Unsent(s))
  }

  ghost function CacheFlush(c: Config, s: Cache, ch: Choice): Result
    requires WalkOf(c, s, ch)
  {
    Result(SendAll(s, ch.picks), SentStores(s, ch.picks))
  }

  ghost predicate FlushFails(c: Config, s: Cache, ch: Choice) {
    ch.send.Some? && Unsent(s) > 0 && s.batch < c.batchLimit
  }

  /** Answer the parked flush requests; called when no store is expected to change anything. */
  ghost function FlushRespond(s: Cache): Result {
    var status := if Dirty(s) == 0 then None else if s.rank == 0 && !s.backing then Some(ENOSYS) else Some(EIO);
    Result(s.(flushReqs := []), Answers(s.flushReqs, status))
  }

  ghost function FlushRequest(c: Config, s: Cache, from: Requester, ch: Choice): Result
    requires Dirty(s) > 0 ==> WalkOf(c, s, ch)
  {
    if Dirty(s) == 0 then
      Result(s, [Answer(from, None)])
    else
      var r := CacheFlush(c, s, ch);
      if FlushFails(c, s, ch) then Result(r.cache, r.out + [Answer(from, ch.send)])
      else Result(r.cache.(flushReqs := s.flushReqs + [from]), r.out)
  }

  // ---------------------------------------------------------------- store reply

  /** The entry and its waiting requests once the reply to its store has come in. */
  function StoreSettled(s: Cache, k: Ref, result: StoreResult): Result
    requires k in s.entries
  {
    var e := s.entries[k];
    var ok := result == Stored(k);
    var answer := if ok then Stored(k) else if result.Stored? then StoreError(EIO) else result;
    var s1 := Put(s, k, e.(storePending := false, dirty := e.dirty && !ok, storeReqs := []));
    Result(s1.(batch := if s.batch > 0 then s.batch - 1 else 0),
           AnswerStores(e.storeReqs, k, answer))
  }

  ghost predicate FlushDone(s: Cache) {
    Dirty(s) == 0 || (s.rank == 0 && !s.backing)
  }

  /** The low-water rule: scan again only when at most half of the batch is outstanding. */
  ghost predicate Resumes(c: Config, s: Cache) {
    !FlushDone(s) && Dirty(s) > s.batch && s.batch <= c.batchLimit / 2
  }

  /** What follows: answer the flush requests, resume the walk, or wait. */
  ghost function AfterStore(c: Config, s: Cache, ch: Choice): Result
    requires Resumes(c, s) ==> WalkOf(c, s, ch)
  {
    if FlushDone(s) then FlushRespond(s) else if Resumes(c, s) then CacheFlush(c, s, ch) else Result(s, [])
  }

  ghost function StoreReplied(c: Config, s: Cache, k: Ref, result: StoreResult, ch: Choice): Result
    requires k in s.entries
    requires Resumes(c, StoreSettled(s, k, result).cache) ==> WalkOf(c, StoreSettled(s, k, result).cache, ch)
  {
    var r := StoreSettled(s, k, result);
    var rest := AfterStore(c, r.cache, ch);
    Result(rest.cache, r.out + rest.out)
  }

  // ---------------------------------------------------------------- backing, dropcache, purge

  ghost predicate TurnsOn(s: Cache, on: bool) {
    s.rank == 0 && !s.backing && on
  }

  ghost function BackingRequest(c: Config, s: Cache, from: Requester, on: bool, ch: Choice): Result
    requires TurnsOn(s, on) ==> WalkOf(c, s.(backing := true), ch)
  {
    if s.rank != 0 then
      Result(s, [Answer(from, Some(EINVAL))])
    else if TurnsOn(s, on) then
      var r := CacheFlush(c, s.(backing := true), ch);
      Result(r.cache, r.out + [Answer(from, None)])
    else
      Result(s.(backing := on), [Answer(from, None)])
  }

  predicate Droppable(e: Entry) {
    e.valid && !e.dirty
  }

  function AllDroppable(s: Cache): set<Ref> {
    set k | k in s.entries && Droppable(s.entries[k])
  }

  // ---------------------------------------------------------------- every handler

  /** What a reply handler takes for granted: the entry that asked for the reply. */
  predicate EntryThere(s: Cache, ev: Event) {
    match ev
    case LoadReply(k, _) => k in s.entries && s.entries[k].loadPending
    case StoreReply(k, _) => k in s.entries && s.entries[k].storePending
    case _ => true
  }

  /** The choices open to the walk and to the purge that an event sets off. */
  ghost predicate ChoiceOk(c: Config, s: Cache, ev: Event, ch: Choice)
    requires EntryThere(s, ev)
  {
    match ev
    case StoreReply(k, result) =>
      Resumes(c, StoreSettled(s, k, result).cache) ==> WalkOf(c, StoreSettled(s, k, result).cache, ch)
    case Flush(_) => Dirty(s) > 0 ==> WalkOf(c, s, ch)
    case SetBacking(_, on) => TurnsOn(s, on) ==> WalkOf(c, s.(backing := true), ch)
    case Heartbeat(_, evicted) => evicted <= AllDroppable(s)
    case _ => true
  }

  ghost predicate Enabled(c: Config, s: Cache, ev: Event, ch: Choice) {
    EntryThere(s, ev) && ChoiceOk(c, s, ev, ch)
  }

  ghost function Handle(c: Config, s: Cache, ev: Event, ch: Choice): Result
    requires Enabled(c, s, ev, ch)
  {
    match ev
    case Load(from, k) => LoadRequest(s, from, k, ch.send)
    case Store(from, data) => StoreRequest(c, s, from, data, ch.send)
    case LoadReply(k, result) => LoadReplied(s, k, result)
    case StoreReply(k, result) => StoreReplied(c, s, k, result, ch)
    case Flush(from) => FlushRequest(c, s, from, ch)
    case SetBacking(from, on) => BackingRequest(c, s, from, on, ch)
    case DropCache(from) => Result(Evict(s, AllDroppable(s)), [Answer(from, None)])
    case Heartbeat(now, evicted) => Result(Evict(s.(epoch := now), evicted), [])
  }
}
