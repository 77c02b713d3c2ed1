/** What a purge may remove: the walk of cache_purge over the hash, in any order, with its
    targets for size and number of entries. */
module PurgeModel {
  import opened Basics
  import opened CacheModel
  import opened CacheLemmas

  datatype PurgeLimits = PurgeLimits(entries: nat, size: nat, oldEntry: nat, largeEntry: nat)

  const WRAP: int := 0x1_0000_0000

  /** Heartbeats since the entry was used; the difference is compared as an unsigned number. */
  function Age(epoch: int, e: Entry): nat {
    (epoch - e.lastUsed) % WRAP
  }

  predicate Met(p: PurgeLimits, size: int, count: int) {
    size <= p.size && count <= p.entries
  }

  function Chosen(victims: seq<Ref>): set<Ref> {
    set k | k in victims
  }

  function Left(m: map<Ref, Entry>, victims: seq<Ref>): map<Ref, Entry> {
    m - Chosen(victims)
  }

  /** Why an entry is not purged while the targets are exceeded. */
  predicate Spared(p: PurgeLimits, epoch: int, e: Entry, count: int) {
    !Droppable(e) || Age(epoch, e) < p.oldEntry || (count <= p.entries && |e.data| < p.largeEntry)
  }

  predicate Distinct(victims: seq<Ref>) {
    forall i, j | 0 <= i < j < |victims| :: victims[i] != victims[j]
  }

  /** Victim i is a clean old entry, chosen while a target is exceeded, and small only if
      there are too many entries. */
  ghost predicate Justified(p: PurgeLimits, s: Cache, victims: seq<Ref>, i: nat)
    requires i < |victims|
  {
    var left := Left(s.entries, victims[..i]);
    && victims[i] in s.entries
    && !Spared(p, s.epoch, s.entries[victims[i]], |left|) && !Met(p, Total(left, SizeOf), |left|)
  }

  ghost predicate Plan(p: PurgeLimits, s: Cache, victims: seq<Ref>) {
    Distinct(victims) && forall i | 0 <= i < |victims| :: Justified(p, s, victims, i)
  }

  lemma PlanPresent(p: PurgeLimits, s: Cache, victims: seq<Ref>)
    requires Plan(p, s, victims)
    ensures forall k <- victims :: k in s.entries && Droppable(s.entries[k])
  {
    forall k | k in victims ensures k in s.entries && Droppable(s.entries[k]) {
      var i :| 0 <= i < |victims| && victims[i] == k;
      assert Justified(p, s, victims, i);
    }
  }

  lemma PlanMore(p: PurgeLimits, s: Cache, victims: seq<Ref>, k: Ref)
    requires Plan(p, s, victims) && k in s.entries && k !in victims
    requires var left := Left(s.entries, victims);
      !Spared(p, s.epoch, s.entries[k], |left|) && !Met(p, Total(left, SizeOf), |left|)
    ensures Plan(p, s, victims + [k])
  {
    var more := victims + [k];
    forall i | 0 <= i < |more| ensures Justified(p, s, more, i) {
      assert more[..i] == victims[..i];
      if i < |victims| {
        assert Justified(p, s, victims, i);
      } else {
        assert more[..i] == victims;
      }
    }
  }

  lemma ChosenMore(victims: seq<Ref>, i: nat)
    requires Distinct(victims) && i < |victims|
    ensures Chosen(victims[..i + 1]) == Chosen(victims[..i]) + {victims[i]} && victims[i] !in Chosen(victims[..i])
  {
    assert victims[..i + 1] == victims[..i] + [victims[i]];
  }

  /** Either both targets are met or every survivor is spared for a reason. */
  ghost predicate Thorough(p: PurgeLimits, s: Cache, victims: seq<Ref>) {
    var left := Left(s.entries, victims);
    Met(p, Total(left, SizeOf), |left|) || forall k <- left :: Spared(p, s.epoch, s.entries[k], |left|)
  }

  lemma LeftMore(m: map<Ref, Entry>, victims: seq<Ref>, k: Ref)
    requires k in m && k !in victims && m[k].valid
    ensures Left(m, victims + [k]) == Left(m, victims) - {k}
    ensures Total(Left(m, victims + [k]), SizeOf) == Total(Left(m, victims), SizeOf) - |m[k].data|
    ensures |Left(m, victims + [k])| == |Left(m, victims)| - 1
  {
    var left := Left(m, victims);
    assert Left(m, victims + [k]) == left - {k};
    TotalSplit(left, SizeOf, k);
    assert (left - {k}).Keys == left.Keys - {k};
  }

  /** The walk of cache_purge has seen all but todo and chosen victims. */
  ghost predicate Walked(p: PurgeLimits, s: Cache, victims: seq<Ref>, todo: set<Ref>, size: int, count: int) {
    && todo <= s.entries.Keys && (forall k <- victims :: k !in todo)
    && Plan(p, s, victims)
    && size == Total(Left(s.entries, victims), SizeOf) && count == |Left(s.entries, victims)|
    && (forall k <- Left(s.entries, victims) :: k in todo || Spared(p, s.epoch, s.entries[k], count))
  }

  lemma WalkedMore(p: PurgeLimits, s: Cache, victims: seq<Ref>, todo: set<Ref>, k: Ref, size: int, count: int)
    requires k !in todo && Walked(p, s, victims, todo + {k}, size, count)
    requires !Met(p, size, count) && !Spared(p, s.epoch, s.entries[k], count)
    ensures Walked(p, s, victims + [k], todo, size - |s.entries[k].data|, count - 1)
  {
    LeftMore(s.entries, victims, k);
    PlanMore(p, s, victims, k);
  }

  /** When as many entries are dirty as there are entries, each of them is. */
  lemma {:induction false} AllDirty(m: map<Ref, Entry>)
    requires Total(m, DirtyOf) == |m|
    ensures forall k <- m :: m[k].dirty
    decreases |m|
  {
    forall k | k in m ensures m[k].dirty {
      TotalSplit(m, DirtyOf, k);
      assert (m - {k}).Keys == m.Keys - {k};
      DirtyBound(m - {k});
    }
  }

  lemma {:induction false} DirtyBound(m: map<Ref, Entry>)
    ensures Total(m, DirtyOf) <= |m|
    decreases |m|
  {
    if k :| k in m {
      TotalSplit(m, DirtyOf, k);
      assert (m - {k}).Keys == m.Keys - {k};
      DirtyBound(m - {k});
    }
  }

  // ---------------------------------------------------------------- what that means

  /** evicted is what a purge removes from s. */
  ghost predicate PurgeOf(p: PurgeLimits, s: Cache, evicted: set<Ref>) {
    exists victims :: Plan(p, s, victims) && Thorough(p, s, victims) && Chosen(victims) == evicted
  }

  lemma VictimAge(p: PurgeLimits, s: Cache, victims: seq<Ref>, i: nat)
    requires Plan(p, s, victims) && i < |victims|
    ensures victims[i] in s.entries && s.entries[victims[i]].valid && !s.entries[victims[i]].dirty
    ensures var age := s.epoch - s.entries[victims[i]].lastUsed; 0 <= age < WRAP ==> age >= p.oldEntry
  {
    assert Justified(p, s, victims, i);
  }

  /** Only valid clean entries go, and none that was used less than oldEntry heartbeats ago. */
  lemma VictimOld(p: PurgeLimits, s: Cache, evicted: set<Ref>, k: Ref)
    requires PurgeOf(p, s, evicted) && k in evicted
    ensures k in s.entries && s.entries[k].valid && !s.entries[k].dirty
    ensures 0 <= s.epoch - s.entries[k].lastUsed < WRAP ==> s.epoch - s.entries[k].lastUsed >= p.oldEntry
  {
    var victims :| Plan(p, s, victims) && Thorough(p, s, victims) && Chosen(victims) == evicted;
    assert k in victims;
    var i :| 0 <= i < |victims| && victims[i] == k;
    VictimAge(p, s, victims, i);
  }

  /** Each victim is taken while there are too many bytes or too many entries, and a small one
      only while there are too many entries. */
  lemma VictimNeeded(p: PurgeLimits, s: Cache, victims: seq<Ref>, i: nat)
    requires Plan(p, s, victims) && i < |victims|
    ensures var left := Left(s.entries, victims[..i]);
      && (Total(left, SizeOf) > p.size || |left| > p.entries)
      && victims[i] in s.entries && (|s.entries[victims[i]].data| >= p.largeEntry || |left| > p.entries)
  {
    assert Justified(p, s, victims, i);
  }

  lemma NoneNeeded(p: PurgeLimits, s: Cache, victims: seq<Ref>)
    requires Plan(p, s, victims) && Total(s.entries, SizeOf) <= p.size && |s.entries| <= p.entries
    ensures victims == []
  {
    assert Left(s.entries, []) == s.entries;
    if victims != [] {
      VictimNeeded(p, s, victims, 0);
    }
  }

  /** A cache within its targets loses nothing. */
  lemma WithinTargets(p: PurgeLimits, s: Cache, evicted: set<Ref>)
    requires PurgeOf(p, s, evicted) && Total(s.entries, SizeOf) <= p.size && |s.entries| <= p.entries
    ensures evicted == {}
  {
    var victims :| Plan(p, s, victims) && Thorough(p, s, victims) && Chosen(victims) == evicted;
    NoneNeeded(p, s, victims);
  }

  /** Whatever is left over the targets is there for a reason: not valid, dirty, used less than
      oldEntry heartbeats ago, or small while there are not too many entries. */
  lemma SurvivorSpared(p: PurgeLimits, s: Cache, evicted: set<Ref>, k: Ref)
    requires PurgeOf(p, s, evicted) && k in s.entries && k !in evicted
    requires var left := s.entries - evicted; Total(left, SizeOf) > p.size || |left| > p.entries
    ensures var e := s.entries[k];
      || !e.valid || e.dirty || (0 <= s.epoch - e.lastUsed < WRAP ==> s.epoch - e.lastUsed < p.oldEntry)
      || (|s.entries - evicted| <= p.entries && |e.data| < p.largeEntry)
  {
    var victims :| Plan(p, s, victims) && Thorough(p, s, victims) && Chosen(victims) == evicted;
    assert k in Left(s.entries, victims);
  }
}
