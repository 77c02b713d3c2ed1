/** How long an entry stays in the log, and who is refused. */
module LogHistory {
  import opened Basics
  import opened LogRing

  /** The entry with number n is in the buffer. */
  predicate Holds(l: Log, n: int) {
    exists i :: 0 <= i < |l.buf| && l.buf[i].seqno == n
  }

  lemma HoldsIff(l: Log, n: int)
    requires RingOk(l)
    ensures Holds(l, n) <==> Oldest(l) <= n < l.seqno
  {
    if Oldest(l) <= n < l.seqno {
      assert l.buf[n - Oldest(l)].seqno == n;
    }
  }

  /** A new entry is in the buffer, and the buffer has grown by one unless it was full. */
  lemma AppendLogs(l: Log, text: string)
    requires RingOk(l)
    ensures var m := Appended(l, text);
      && |m.buf| == Min(|l.buf| + 1, l.ring) && m.ring == l.ring
      && (l.ring > 0 ==> m.buf[|m.buf| - 1] == Entry(l.seqno, text) && m.seqno == l.seqno + 1)
      && (l.ring == 0 ==> m == l)
  {
  }

  /** A new size is taken unless it is negative, and the newest entries that fit stay. */
  lemma ResizeFits(l: Log, size: int)
    ensures var m := Apply(l, Resize(size));
      && (size < 0 ==> m == l)
      && (size >= 0 ==> m.ring == size && |m.buf| == Min(|l.buf|, size) && m.buf == l.buf[|l.buf| - |m.buf|..])
  {
  }

  lemma FrontGone(l: Log, k: nat, n: int)
    requires RingOk(l) && k <= |l.buf|
    ensures Holds(l.(buf := l.buf[k..]), n) <==> Holds(l, n) && n >= Oldest(l) + k
  {
    var m := l.(buf := l.buf[k..]);
    assert RingOk(m);
    HoldsIff(l, n);
    HoldsIff(m, n);
  }

  /** Clearing up to a number leaves exactly the later ones, and -1 leaves none. */
  lemma ClearLeaves(l: Log, upTo: int, n: int)
    requires RingOk(l)
    ensures Holds(Apply(l, Clear(upTo)), n) <==> Holds(l, n) && upTo != -1 && n > upTo
  {
    AfterIs(l.buf, Oldest(l), upTo);
    HoldsIff(l, n);
    var k := if upTo == -1 then |l.buf| else |l.buf| - |After(l.buf, upTo)|;
    assert Apply(l, Clear(upTo)) == l.(buf := l.buf[k..]);
    FrontGone(l, k, n);
  }

  /** The action takes entry n out of the buffer: a clear that covers it, a ring too small for
      it and all that came after, or a new entry when ring entries from n on are there. */
  predicate Evicts(l: Log, a: Action, n: int) {
    match a
    case Append(_) => 0 < l.ring <= l.seqno - n
    case Clear(upTo) => upTo == -1 || n <= upTo
    case Resize(size) => 0 <= size < l.seqno - n
    case _ => false
  }

  lemma LeavesIff(l: Log, a: Action, n: int)
    requires Inv(l) && Holds(l, n)
    ensures Holds(Apply(l, a), n) <==> !Evicts(l, a, n)
  {
    ApplyKeeps(l, a);
    HoldsIff(l, n);
    HoldsIff(Apply(l, a), n);
    match a
    case Append(text) => AppendLogs(l, text);
    case Clear(upTo) => ClearLeaves(l, upTo, n);
    case Resize(size) => ResizeFits(l, size);
    case _ =>
  }

  /** What has left does not come back. */
  lemma LoggedStep(h: Run, i: nat, k: nat, n: int)
    requires IsRun(h) && i <= k < |h.actions| && Holds(h.states[i], n)
    ensures Holds(h.states[k + 1], n) <==> Holds(h.states[k], n) && !Evicts(h.states[k], h.actions[k], n)
  {
    RunKeeps(h, i, k);
    RunKeeps(h, k, k + 1);
    if Holds(h.states[k], n) {
      LeavesIff(h.states[k], h.actions[k], n);
    } else {
      HoldsIff(h.states[i], n);
      HoldsIff(h.states[k], n);
      HoldsIff(h.states[k + 1], n);
    }
  }

  /** In every run an entry that is in the buffer stays there until, and only until, a clear
      covers it, the ring is made too small for it, or ring later entries have come. */
  lemma {:induction false} LoggedIff(h: Run, i: nat, j: nat, n: int)
    requires IsRun(h) && i <= j < |h.states| && Holds(h.states[i], n)
    ensures Holds(h.states[j], n) <==> forall k | i <= k < j :: !Evicts(h.states[k], h.actions[k], n)
    decreases j
  {
    if i < j {
      LoggedIff(h, i, j - 1, n);
      LoggedStep(h, i, j - 1, n);
    }
  }

  /** Without clears and resizes the buffer always holds the last ring entries. */
  lemma {:induction false} LastOnes(h: Run, i: nat)
    requires IsRun(h) && i < |h.states|
    requires forall k | 0 <= k < i :: !h.actions[k].Clear? && !h.actions[k].Resize?
    ensures |h.states[i].buf| == Min(h.states[i].seqno, h.states[i].ring) && h.states[i].ring == h.states[0].ring
  {
    if i > 0 {
      LastOnes(h, i - 1);
      RunKeeps(h, i - 1, i);
      if h.actions[i - 1].Append? {
        AppendLogs(h.states[i - 1], h.actions[i - 1].text);
      }
    }
  }

  // ---------------------------------------------------------------- who is refused

  /** Only a request that does not follow is refused, with ENOENT, and only when the buffer
      holds nothing after its cursor. */
  lemma RefusedIff(h: Run, u: nat, id: nat, errno: Errno)
    requires IsRun(h) && u < |h.actions|
    ensures var before, after := h.states[u].answers, h.states[u + 1].answers;
      && |before| <= |after|
      && (Error(id, errno) in after[|before|..] <==>
            var a := h.actions[u];
            && a.Dmesg? && a.id == id && !a.follow && errno == ENOENT
            && forall n | n > a.cursor :: !Holds(h.states[u], n))
  {
    RunKeeps(h, u, u);
    match h.actions[u]
    case Dmesg(ask, _, cursor, follow) => AskRefused(h.states[u], ask, h.actions[u].sender, cursor, follow, id, errno);
    case _ =>
  }

  lemma NothingAfter(l: Log, cursor: int)
    requires RingOk(l)
    ensures First(l.buf, cursor).None? <==> forall n | n > cursor :: !Holds(l, n)
  {
    FirstIs(l, cursor);
    if First(l.buf, cursor).None? {
      forall n | n > cursor ensures !Holds(l, n) {
        HoldsIff(l, n);
      }
    } else {
      HoldsIff(l, l.seqno - 1);
    }
  }

  lemma AskRefused(l: Log, ask: nat, sender: Uuid, cursor: int, follow: bool, id: nat, errno: Errno)
    requires RingOk(l)
    ensures var after := Asked(l, ask, sender, cursor, follow).answers;
      && |l.answers| <= |after|
      && (Error(id, errno) in after[|l.answers|..] <==>
            ask == id && !follow && errno == ENOENT && forall n | n > cursor :: !Holds(l, n))
  {
    NothingAfter(l, cursor);
    var news := Asked(l, ask, sender, cursor, follow).answers[|l.answers|..];
    if First(l.buf, cursor).None? && !follow {
      assert news == [Error(ask, ENOENT)];
    }
  }
}
