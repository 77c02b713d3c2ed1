/** A reader of the log that asks again and again, each time for what comes after its last
    answer.  It is defined by the answers sent to it, at once or by the wake loop. */
module LogFollower {
  import opened Basics
  import opened LogRing

  /** Action u sends the answer with entry e to request id. */
  ghost predicate Tells(h: Run, u: nat, id: nat, e: Entry)
    requires |h.states| == |h.actions| + 1 && u < |h.actions|
  {
    var before, after := h.states[u].answers, h.states[u + 1].answers;
    |before| <= |after| && Line(id, e) in after[|before|..]
  }

  /** A sleeper with that id is given e out of m. */
  ghost predicate Woke(l: Log, m: Log, id: nat, e: Entry) {
    exists s :: s in l.sleepers && s.id == id && First(m.buf, s.cursor) == Some(e)
  }

  /** Whoever sleeps has asked. */
  lemma {:induction false} SleeperAsked(h: Run, i: nat, s: Sleeper) returns (j: nat)
    requires IsRun(h) && i < |h.states| && s in h.states[i].sleepers
    ensures j < i && h.actions[j] == Dmesg(s.id, s.sender, s.cursor, true)
  {
    var l, a := h.states[i - 1], h.actions[i - 1];
    if s in l.sleepers {
      j := SleeperAsked(h, i - 1, s);
    } else {
      if a.Disconnect? {
        OthersIn(l.sleepers, a.sender);
      }
      j := i - 1;
    }
  }

  /** What an answer says: it is the first entry after the cursor of the request, in the
      buffer as it was when the request came in, or as it is when the request is woken. */
  lemma ToldFirst(h: Run, u: nat, id: nat, e: Entry)
    requires IsRun(h) && u < |h.actions| && Tells(h, u, id, e)
    ensures || (h.actions[u].Dmesg? && h.actions[u].id == id && First(h.states[u].buf, h.actions[u].cursor) == Some(e))
            || (h.actions[u].Append? && Woke(h.states[u], h.states[u + 1], id, e))
  {
    RunKeeps(h, u, u);
    match h.actions[u]
    case Append(text) => AppendTells(h.states[u], text, id, e);
    case _ =>
  }

  lemma AppendTells(l: Log, text: string, id: nat, e: Entry)
    requires Inv(l) && (l.ring > 0 ==> Below(l))
    requires Line(id, e) in Appended(l, text).answers[|l.answers|..]
    ensures Woke(l, Appended(l, text), id, e)
  {
    var n, answers := |l.answers|, Appended(l, text).answers;
    var j :| n <= j < |answers| && answers[j] == Line(id, e);
    var s := l.sleepers[j - n];
    WokenBy(l, text, s.cursor);
    assert s in l.sleepers;
  }

  /** A follower: request k is made by action asks[k], with the last number it got, under an
      id of its own, and is answered with entry got[k] by action tells[k]. */
  ghost predicate Follows(h: Run, start: int, asks: seq<nat>, tells: seq<nat>, got: seq<Entry>) {
    && IsRun(h) && |asks| == |tells| == |got|
    && (forall k | 0 <= k < |got| :: asks[k] <= tells[k] < |h.actions|)
    && (forall j, k | 0 <= j < k < |got| :: tells[j] < asks[k])
    && (forall k | 0 <= k < |got| :: AskedAndTold(h, start, asks[k], tells[k], got, k))
  }

  ghost predicate AskedAndTold(h: Run, start: int, ask: nat, tell: nat, got: seq<Entry>, k: nat)
    requires |h.states| == |h.actions| + 1 && ask < |h.actions| && tell < |h.actions| && k < |got|
  {
    var a := h.actions[ask];
    && a.Dmesg? && a.cursor == Cursor(start, got, k) && Tells(h, tell, a.id, got[k])
    && forall j | 0 <= j < |h.actions| :: h.actions[j].Dmesg? && h.actions[j].id == a.id ==> j == ask
  }

  /** The state of the buffer that answer k was read from. */
  function TimeOf(h: Run, tell: nat): nat {
    if tell < |h.actions| && h.actions[tell].Append? then tell + 1 else tell
  }

  lemma FollowerReadsAt(h: Run, start: int, asks: seq<nat>, tells: seq<nat>, got: seq<Entry>, k: nat)
    requires Follows(h, start, asks, tells, got) && k < |got|
    ensures TimeOf(h, tells[k]) < |h.states| && GotAt(h, start, TimeOf(h, tells[k]), got, k)
  {
    assert AskedAndTold(h, start, asks[k], tells[k], got, k);
    var u, id := tells[k], h.actions[asks[k]].id;
    ToldFirst(h, u, id, got[k]);
    if h.actions[u].Append? {
      var s :| s in h.states[u].sleepers && s.id == id && First(h.states[u + 1].buf, s.cursor) == Some(got[k]);
      var j := SleeperAsked(h, u, s);
    }
  }

  lemma FollowerReads(h: Run, start: int, asks: seq<nat>, tells: seq<nat>, got: seq<Entry>) returns (times: seq<nat>)
    requires Follows(h, start, asks, tells, got)
    ensures Reads(h, start, times, got) && forall k | 0 <= k < |times| :: times[k] <= tells[k] + 1
  {
    times := seq(|tells|, k requires 0 <= k < |tells| => TimeOf(h, tells[k]));
    forall k | 0 <= k < |times| ensures times[k] < |h.states| && GotAt(h, start, times[k], got, k) {
      FollowerReadsAt(h, start, asks, tells, got, k);
    }
    forall j, k | 0 <= j <= k < |times| ensures times[j] <= times[k] {
      assert j < k ==> tells[j] < asks[k] <= tells[k];
    }
  }

  /** A follower is told ever later entries, each as it was appended. */
  lemma FollowerAdvances(h: Run, start: int, asks: seq<nat>, tells: seq<nat>, got: seq<Entry>, k: nat)
    requires Follows(h, start, asks, tells, got) && k < |got|
    ensures got[k].seqno > Cursor(start, got, k)
    ensures 0 <= got[k].seqno < |h.states[|h.states| - 1].texts|
    ensures got[k].text == h.states[|h.states| - 1].texts[got[k].seqno]
  {
    var times := FollowerReads(h, start, asks, tells, got);
    ReaderAdvances(h, start, times, got, k);
  }

  /** A follower misses only what was trimmed or cleared: a number up to its last that it was
      not told is out of the buffer when it is told a later one, and ever after. */
  lemma FollowerMisses(h: Run, start: int, asks: seq<nat>, tells: seq<nat>, got: seq<Entry>, k: nat, n: int, i: nat)
    requires Follows(h, start, asks, tells, got) && k < |got|
    requires start < n <= got[k].seqno && forall j | 0 <= j <= k :: got[j].seqno != n
    requires tells[k] < i < |h.states|
    ensures n < Oldest(h.states[i])
  {
    var times := FollowerReads(h, start, asks, tells, got);
    ReaderMisses(h, start, times, got, k, n, i);
  }
}
