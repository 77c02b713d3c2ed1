/** The circular log buffer of log.c and the requests that follow it. */
module LogRing {
  import opened Basics

  datatype Entry = Entry(seqno: int, text: string)

  /** A dmesg request waiting for an entry after its cursor. */
  datatype Sleeper = Sleeper(id: nat, sender: Uuid, cursor: int)

  datatype Answer = Line(id: nat, entry: Entry) | Error(id: nat, errno: Errno)

  /** texts is everything that has been appended. */
  datatype Log = Log(
    buf: seq<Entry>, ring: nat, seqno: nat, sleepers: seq<Sleeper>, answers: seq<Answer>, texts: seq<string>)

  datatype Action =
    | Append(text: string)
    | Clear(upTo: int)
    | Resize(size: int)
    | Dmesg(id: nat, sender: Uuid, cursor: int, follow: bool)
    | Disconnect(sender: Uuid)

  function Trimmed(buf: seq<Entry>, size: nat): seq<Entry> {
    if |buf| > size then buf[|buf| - size..] else buf
  }

  function After(buf: seq<Entry>, cursor: int): seq<Entry> {
    if buf != [] && buf[0].seqno <= cursor then After(buf[1..], cursor) else buf
  }

  function First(buf: seq<Entry>, cursor: int): Option<Entry> {
    if After(buf, cursor) == [] then None else Some(After(buf, cursor)[0])
  }

  function Others(sleepers: seq<Sleeper>, sender: Uuid): seq<Sleeper> {
    if sleepers == [] then []
    else if sleepers[0].sender == sender then Others(sleepers[1..], sender)
    else [sleepers[0]] + Others(sleepers[1..], sender)
  }

  /** The new entry is in place and nobody has been woken. */
  function WithEntry(l: Log, text: string): Log
    requires l.ring > 0
  {
    l.(buf := Trimmed(l.buf, l.ring - 1) + [Entry(l.seqno, text)], seqno := l.seqno + 1, texts := l.texts + [text])
  }

  /** One turn of the wake loop: the first sleeper is answered or sleeps again, at the end. */
  function Turn(l: Log): Log
    requires l.sleepers != []
  {
    var s := l.sleepers[0];
    match First(l.buf, s.cursor)
    case Some(e) => l.(sleepers := l.sleepers[1..], answers := l.answers + [Line(s.id, e)])
    case None => l.(sleepers := l.sleepers[1..] + [s])
  }

  function Turns(l: Log, k: nat): Log
    decreases k
  {
    if k == 0 || l.sleepers == [] then l else Turns(Turn(l), k - 1)
  }

  /** No sleeper waits for more than the next entry. */
  predicate Below(l: Log) {
    forall i | 0 <= i < |l.sleepers| :: l.sleepers[i].cursor < l.seqno
  }

  function Woken(sleepers: seq<Sleeper>, e: Entry): seq<Answer> {
    seq(|sleepers|, i requires 0 <= i < |sleepers| => Line(sleepers[i].id, e))
  }

  /** Every sleeper is given the new entry. */
  function Appended(l: Log, text: string): Log {
    if l.ring == 0 then l
    else WithEntry(l, text).(sleepers := [], answers := l.answers + Woken(l.sleepers, Entry(l.seqno, text)))
  }

  function Asked(l: Log, id: nat, sender: Uuid, cursor: int, follow: bool): Log {
    match First(l.buf, cursor)
    case Some(e) => l.(answers := l.answers + [Line(id, e)])
    case None =>
      if follow then l.(sleepers := l.sleepers + [Sleeper(id, sender, cursor)])
      else l.(answers := l.answers + [Error(id, ENOENT)])
  }

  function Apply(l: Log, a: Action): Log {
    match a
    case Append(text) => Appended(l, text)
    case Clear(upTo) => l.(buf := if upTo == -1 then [] else After(l.buf, upTo))
    case Resize(size) => if size < 0 then l else l.(buf := Trimmed(l.buf, size), ring := size)
    case Dmesg(id, sender, cursor, follow) => Asked(l, id, sender, cursor, follow)
    case Disconnect(sender) => l.(sleepers := Others(l.sleepers, sender))
  }

  // ---------------------------------------------------------------- invariants

  function Oldest(l: Log): int {
    l.seqno - |l.buf|
  }

  /** The buffer holds the last numbers given out, one after the other, with their texts. */
  ghost predicate RingOk(l: Log) {
    && |l.buf| <= l.ring && |l.buf| <= l.seqno == |l.texts|
    && forall i | 0 <= i < |l.buf| :: l.buf[i] == Entry(Oldest(l) + i, l.texts[Oldest(l) + i])
  }

  /** Whoever sleeps has seen all there is. */
  ghost predicate SleepersOk(l: Log) {
    forall i | 0 <= i < |l.sleepers| :: First(l.buf, l.sleepers[i].cursor) == None
  }

  ghost predicate Inv(l: Log) {
    RingOk(l) && SleepersOk(l)
  }

  /** In a buffer of consecutive numbers starting at lo, what is after a cursor. */
  lemma {:induction false} AfterIs(buf: seq<Entry>, lo: int, cursor: int)
    requires forall i | 0 <= i < |buf| :: buf[i].seqno == lo + i
    ensures After(buf, cursor)
         == if cursor < lo then buf else if cursor < lo + |buf| then buf[cursor + 1 - lo..] else []
  {
    if buf != [] && cursor >= lo {
      AfterIs(buf[1..], lo + 1, cursor);
    }
  }

  /** A request gets the oldest buffered entry after its cursor, or none if there is none. */
  lemma FirstIs(l: Log, cursor: int)
    requires RingOk(l)
    ensures First(l.buf, cursor)
         == if l.buf == [] || cursor >= l.seqno - 1 then None
            else if cursor < Oldest(l) then Some(l.buf[0])
            else Some(l.buf[cursor + 1 - Oldest(l)])
  {
    AfterIs(l.buf, Oldest(l), cursor);
  }

  lemma {:induction false} OthersIn(sleepers: seq<Sleeper>, sender: Uuid)
    ensures forall s | s in Others(sleepers, sender) :: s in sleepers && s.sender != sender
    ensures forall s | s in sleepers && s.sender != sender :: s in Others(sleepers, sender)
  {
    if sleepers != [] {
      OthersIn(sleepers[1..], sender);
    }
  }

  /** Removing from the front of the buffer keeps the invariant. */
  lemma FrontRemoved(l: Log, k: nat)
    requires Inv(l) && k <= |l.buf|
    ensures Inv(l.(buf := l.buf[k..]))
  {
    var m := l.(buf := l.buf[k..]);
    assert RingOk(m);
    forall i | 0 <= i < |m.sleepers| ensures First(m.buf, m.sleepers[i].cursor) == None {
      FirstIs(l, l.sleepers[i].cursor);
      FirstIs(m, l.sleepers[i].cursor);
    }
  }

  lemma EntryKeeps(l: Log, text: string)
    requires RingOk(l) && l.ring > 0
    ensures RingOk(WithEntry(l, text))
  {
    var k := if |l.buf| > l.ring - 1 then |l.buf| - (l.ring - 1) else 0;
    assert Trimmed(l.buf, l.ring - 1) == l.buf[k..];
  }

  lemma AppendKeeps(l: Log, text: string)
    requires Inv(l)
    ensures Inv(Appended(l, text))
  {
    if l.ring > 0 {
      EntryKeeps(l, text);
    }
  }

  lemma ClearKeeps(l: Log, upTo: int)
    requires Inv(l)
    ensures Inv(Apply(l, Clear(upTo))) && Oldest(Apply(l, Clear(upTo))) >= Oldest(l)
  {
    AfterIs(l.buf, Oldest(l), upTo);
    var k := |l.buf| - |Apply(l, Clear(upTo)).buf|;
    assert Apply(l, Clear(upTo)).buf == l.buf[k..];
    FrontRemoved(l, k);
  }

  lemma ResizeKeeps(l: Log, size: nat)
    requires Inv(l)
    ensures Inv(Apply(l, Resize(size))) && Oldest(Apply(l, Resize(size))) >= Oldest(l)
  {
    var k := if |l.buf| > size then |l.buf| - size else 0;
    assert Trimmed(l.buf, size) == l.buf[k..];
    FrontRemoved(l, k);
  }

  lemma DisconnectKeeps(l: Log, sender: Uuid)
    requires Inv(l)
    ensures Inv(Apply(l, Disconnect(sender)))
  {
    OthersIn(l.sleepers, sender);
    var m := Apply(l, Disconnect(sender));
    forall i | 0 <= i < |m.sleepers| ensures First(m.buf, m.sleepers[i].cursor) == None {
      assert m.sleepers[i] in l.sleepers;
    }
  }

  lemma ApplyKeeps(l: Log, a: Action)
    requires Inv(l)
    ensures Inv(Apply(l, a))
    ensures Oldest(Apply(l, a)) >= Oldest(l) && l.texts <= Apply(l, a).texts
  {
    match a
    case Append(text) => AppendKeeps(l, text);
    case Clear(upTo) => ClearKeeps(l, upTo);
    case Resize(size) => if size >= 0 { ResizeKeeps(l, size); }
    case Dmesg(id, sender, cursor, follow) =>
    case Disconnect(sender) => DisconnectKeeps(l, sender);
  }

  // ---------------------------------------------------------------- the wake loop

  /** What a waiting request is given by the wake loop that follows a new entry. */
  lemma WokenBy(l: Log, text: string, cursor: int)
    requires RingOk(l) && l.ring > 0 && First(l.buf, cursor) == None
    ensures First(WithEntry(l, text).buf, cursor) == if cursor < l.seqno then Some(Entry(l.seqno, text)) else None
  {
    var m := WithEntry(l, text);
    FirstIs(l, cursor);
    EntryKeeps(l, text);
    FirstIs(m, cursor);
  }

  /** If no cursor is beyond the new entry, the loop ends after one turn for each sleeper,
      and each has been answered once, with the new entry. */
  lemma {:induction false} WakeEnds(l: Log, text: string, m: Log)
    requires Inv(l) && l.ring > 0
    requires m == WithEntry(l, text).(sleepers := m.sleepers, answers := m.answers)
    requires forall i | 0 <= i < |m.sleepers| ::
      First(l.buf, m.sleepers[i].cursor) == None && m.sleepers[i].cursor < l.seqno
    ensures Turns(m, |m.sleepers|) == m.(sleepers := [], answers := m.answers + Woken(m.sleepers, Entry(l.seqno, text)))
    decreases |m.sleepers|
  {
    var e := Entry(l.seqno, text);
    if m.sleepers == [] {
      assert m.answers + Woken(m.sleepers, e) == m.answers;
    } else {
      WokenBy(l, text, m.sleepers[0].cursor);
      WakeEnds(l, text, Turn(m));
      assert m.answers + Woken(m.sleepers, e) == Turn(m).answers + Woken(Turn(m).sleepers, e);
    }
  }

  /** A sleeper that waits for more than the new entry is never let go. */
  lemma {:induction false} WakeSpins(m: Log, i: nat, k: nat)
    requires i < |m.sleepers| && First(m.buf, m.sleepers[i].cursor) == None
    ensures Turns(m, k).sleepers != []
    decreases k
  {
    if k > 0 {
      WakeSpins(Turn(m), if i > 0 then i - 1 else |Turn(m).sleepers| - 1, k - 1);
    }
  }

  /** Appending ends, and is what Appended says, if and only if no sleeper waits for more
      than the next entry. */
  lemma WakeEndsIff(l: Log, text: string)
    requires Inv(l) && l.ring > 0
    ensures (exists k: nat :: Turns(WithEntry(l, text), k).sleepers == []) <==> Below(l)
    ensures Below(l) ==> Turns(WithEntry(l, text), |l.sleepers|) == Appended(l, text)
  {
    var m := WithEntry(l, text);
    if Below(l) {
      WakeEnds(l, text, m);
      assert Turns(m, |l.sleepers|).sleepers == [];
    } else {
      var i :| 0 <= i < |l.sleepers| && l.sleepers[i].cursor >= l.seqno;
      WokenBy(l, text, l.sleepers[i].cursor);
      forall k: nat ensures Turns(m, k).sleepers != [] {
        WakeSpins(m, i, k);
      }
    }
  }

  // ---------------------------------------------------------------- runs

  datatype Run = Run(states: seq<Log>, actions: seq<Action>)

  predicate Fresh(l: Log) {
    l.buf == [] && l.seqno == 0 && l.sleepers == [] && l.answers == [] && l.texts == []
  }

  ghost predicate IsRun(h: Run) {
    && |h.states| == |h.actions| + 1 && Fresh(h.states[0])
    && forall i | 0 <= i < |h.actions| ::
         && h.states[i + 1] == Apply(h.states[i], h.actions[i])
         && (h.actions[i].Append? && h.states[i].ring > 0 ==> Below(h.states[i]))
  }

  /** At all times the buffer holds at most ring entries, the last that were appended, in
      order and unchanged; what has left it does not come back. */
  lemma {:induction false} RunKeeps(h: Run, j: nat, i: nat)
    requires IsRun(h) && j <= i < |h.states|
    ensures Inv(h.states[j]) && Inv(h.states[i])
    ensures Oldest(h.states[j]) <= Oldest(h.states[i]) && h.states[j].texts <= h.states[i].texts
  {
    if i > 0 {
      RunKeeps(h, if j < i then j else i - 1, i - 1);
      ApplyKeeps(h.states[i - 1], h.actions[i - 1]);
    }
  }

  /** A caller that asks only for entries from the next one on keeps appends from hanging. */
  lemma {:induction false} PoliteBelow(h: Run, i: nat)
    requires IsRun(h) && i < |h.states|
    requires forall j | 0 <= j < i :: h.actions[j].Dmesg? ==> h.actions[j].cursor < h.states[j].seqno
    ensures Below(h.states[i])
  {
    if i > 0 {
      PoliteBelow(h, i - 1);
      var l, a := h.states[i - 1], h.actions[i - 1];
      if a.Disconnect? {
        OthersIn(l.sleepers, a.sender);
        var m := h.states[i];
        forall k | 0 <= k < |m.sleepers| ensures m.sleepers[k].cursor < m.seqno {
          assert m.sleepers[k] in l.sleepers;
        }
      }
    }
  }

  /** A reader that feeds back the last number it got: times are the moments it asks. */
  ghost predicate Reads(h: Run, start: int, times: seq<nat>, got: seq<Entry>) {
    && |times| == |got|
    && (forall k | 0 <= k < |times| :: times[k] < |h.states|)
    && (forall j, k | 0 <= j <= k < |times| :: times[j] <= times[k])
    && forall k | 0 <= k < |got| :: GotAt(h, start, times[k], got, k)
  }

  ghost predicate GotAt(h: Run, start: int, t: nat, got: seq<Entry>, k: nat)
    requires t < |h.states| && k < |got|
  {
    First(h.states[t].buf, Cursor(start, got, k)) == Some(got[k])
  }

  function Cursor(start: int, got: seq<Entry>, k: nat): int
    requires k <= |got|
  {
    if k == 0 then start else got[k - 1].seqno
  }

  lemma FirstSkips(l: Log, cursor: int, e: Entry, n: int)
    requires RingOk(l) && First(l.buf, cursor) == Some(e)
    ensures e.seqno > cursor && 0 <= e.seqno < |l.texts| && e.text == l.texts[e.seqno]
    ensures cursor < n < e.seqno ==> n < Oldest(l)
  {
    FirstIs(l, cursor);
  }

  /** The reader gets ever later entries, each as it was appended. */
  lemma ReaderAdvances(h: Run, start: int, times: seq<nat>, got: seq<Entry>, k: nat)
    requires IsRun(h) && Reads(h, start, times, got) && k < |got|
    ensures got[k].seqno > Cursor(start, got, k)
    ensures 0 <= got[k].seqno < |h.states[|h.states| - 1].texts|
    ensures got[k].text == h.states[|h.states| - 1].texts[got[k].seqno]
  {
    var t := times[k];
    assert GotAt(h, start, t, got, k);
    RunKeeps(h, t, |h.states| - 1);
    FirstSkips(h.states[t], Cursor(start, got, k), got[k], 0);
  }

  /** The reader misses only what was trimmed or cleared: a number up to its last that it
      did not get was in the buffer neither when it passed it nor ever after. */
  lemma {:induction false} ReaderMisses(h: Run, start: int, times: seq<nat>, got: seq<Entry>, k: nat, n: int, i: nat)
    requires IsRun(h) && Reads(h, start, times, got) && k < |got|
    requires start < n <= got[k].seqno && (forall j | 0 <= j <= k :: got[j].seqno != n)
    requires times[k] <= i < |h.states|
    ensures n < Oldest(h.states[i])
  {
    if n > Cursor(start, got, k) {
      assert GotAt(h, start, times[k], got, k);
      PassedOver(h, times[k], i, Cursor(start, got, k), got[k], n);
    } else {
      assert times[k - 1] <= times[k];
      ReaderMisses(h, start, times, got, k - 1, n, i);
    }
  }

  lemma PassedOver(h: Run, t: nat, i: nat, cursor: int, e: Entry, n: int)
    requires IsRun(h) && t <= i < |h.states| && First(h.states[t].buf, cursor) == Some(e) && cursor < n < e.seqno
    ensures n < Oldest(h.states[i])
  {
    RunKeeps(h, t, i);
    FirstSkips(h.states[t], cursor, e, n);
  }
}
