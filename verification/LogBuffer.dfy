/** The log buffer of log.c as the mutable object it is. */
module LogBuffer {
  import opened Basics
  import opened LogRing

  function Mine(sleepers: seq<Sleeper>, sender: Uuid): seq<Sleeper> {
    if sleepers == [] then []
    else if sleepers[0].sender == sender then [sleepers[0]] + Mine(sleepers[1..], sender)
    else Mine(sleepers[1..], sender)
  }

  lemma {:induction false} MineConcat(x: seq<Sleeper>, y: seq<Sleeper>, sender: Uuid)
    ensures Mine(x + y, sender) == Mine(x, sender) + Mine(y, sender)
  {
    if x == [] {
      assert x + y == y;
    } else {
      MineConcat(x[1..], y, sender);
      assert (x + y)[0] == x[0] && (x + y)[1..] == x[1..] + y;
    }
  }

  lemma {:induction false} OthersConcat(x: seq<Sleeper>, y: seq<Sleeper>, sender: Uuid)
    ensures Others(x + y, sender) == Others(x, sender) + Others(y, sender)
  {
    if x == [] {
      assert x + y == y;
    } else {
      OthersConcat(x[1..], y, sender);
      assert (x + y)[0] == x[0] && (x + y)[1..] == x[1..] + y;
    }
  }

  lemma {:induction false} MineIn(x: seq<Sleeper>, sender: Uuid)
    ensures forall s | s in Mine(x, sender) :: s in x && s.sender == sender
  {
    if x != [] {
      MineIn(x[1..], sender);
    }
  }

  /** Taking out the first of a sender's sleepers. */
  lemma TakenOut(x: seq<Sleeper>, s: Sleeper, y: seq<Sleeper>, sender: Uuid)
    requires s.sender == sender && s !in x && Mine(x + ([s] + y), sender) != [] && Mine(x + ([s] + y), sender)[0] == s
    ensures Mine(x + y, sender) == Mine(x + ([s] + y), sender)[1..]
    ensures Others(x + y, sender) == Others(x + ([s] + y), sender)
  {
    MineConcat(x, [s] + y, sender);
    MineConcat(x, y, sender);
    OthersConcat(x, [s] + y, sender);
    OthersConcat(x, y, sender);
    assert ([s] + y)[1..] == y;
    MineIn(x, sender);
  }

  lemma {:induction false} NoneMine(x: seq<Sleeper>, sender: Uuid)
    requires Mine(x, sender) == []
    ensures Others(x, sender) == x
  {
    if x != [] {
      NoneMine(x[1..], sender);
    }
  }

  class LogBuffer {
    var buf: seq<Entry>
    var ring: nat
    var seqno: nat
    var sleepers: seq<Sleeper>
    var answers: seq<Answer>
    ghost var texts: seq<string>

    ghost function View(): Log
      reads this
    {
      Log(buf, ring, seqno, sleepers, answers, texts)
    }

    constructor (ring: nat)
      ensures Fresh(View()) && Inv(View()) && this.ring == ring
    {
      buf, this.ring, seqno, sleepers, answers, texts := [], ring, 0, [], [], [];
    }

    method Trim(size: nat)
      modifies `buf
      ensures buf == Trimmed(old(buf), size)
      ensures |buf| == Min(|old(buf)|, size) && buf == old(buf)[|old(buf)| - |buf|..]
    {
      while |buf| > size
        invariant |buf| <= |old(buf)| && buf == old(buf)[|old(buf)| - |buf|..]
        invariant |buf| >= size || buf == old(buf)
      {
        buf := buf[1..];
      }
    }

    method Clear(upTo: int)
      modifies `buf
      ensures View() == Apply(old(View()), Action.Clear(upTo))
    {
      if upTo == -1 {
        Trim(0);
      } else {
        while buf != [] && buf[0].seqno <= upTo
          invariant After(buf, upTo) == After(old(buf), upTo)
          decreases |buf|
        {
          buf := buf[1..];
        }
      }
    }

    method Get(cursor: int) returns (e: Option<Entry>)
      ensures e == First(buf, cursor)
    {
      var i := 0;
      while i < |buf| && buf[i].seqno <= cursor
        invariant i <= |buf| && After(buf[i..], cursor) == After(buf, cursor)
        decreases |buf| - i
      {
        assert buf[i..][1..] == buf[i + 1..];
        i := i + 1;
      }
      e := if i == |buf| then None else Some(buf[i]);
    }

    method SetRingSize(size: int) returns (ok: bool)
      modifies `buf, `ring
      ensures View() == Apply(old(View()), Resize(size)) && (ok <==> size >= 0)
    {
      if size < 0 {
        return false;
      }
      Trim(size);
      ring := size;
      ok := true;
    }

    method Dmesg(id: nat, sender: Uuid, cursor: int, follow: bool)
      modifies `sleepers, `answers
      ensures View() == Apply(old(View()), Action.Dmesg(id, sender, cursor, follow))
    {
      var e := Get(cursor);
      if e.None? {
        if follow {
          sleepers := sleepers + [Sleeper(id, sender, cursor)];
          return;
        }
        answers := answers + [Error(id, ENOENT)];
        return;
      }
      answers := answers + [Line(id, e.value)];
    }

    /** Append an entry and let every sleeper ask again. The loop ends under exactly this
        precondition, which LogRing.WakeEndsIff shows. */
    method Append(text: string)
      requires Inv(View()) && (ring > 0 ==> Below(View()))
      modifies this
      ensures Inv(View()) && View() == Apply(old(View()), Action.Append(text))
    {
      AppendKeeps(View(), text);
      if ring > 0 {
        Trim(ring - 1);
        buf := buf + [Entry(seqno, text)];
        seqno := seqno + 1;
        texts := texts + [text];
        ghost var start := View();
        assert start == WithEntry(old(View()), text);
        WakeAll(old(View()), text);
      }
    }

    method WakeAll(ghost l: Log, ghost text: string)
      requires Inv(l) && l.ring > 0 && Below(l) && View() == WithEntry(l, text)
      modifies `sleepers, `answers
      ensures View() == Appended(l, text)
    {
      WakeEnds(l, text, View());
      while sleepers != []
        invariant Turns(View(), |sleepers|) == Appended(l, text)
        invariant View() == WithEntry(l, text).(sleepers := sleepers, answers := answers)
        invariant forall i | 0 <= i < |sleepers| ::
          First(l.buf, sleepers[i].cursor) == None && sleepers[i].cursor < l.seqno
        decreases |sleepers|
      {
        ghost var before := View();
        var s := sleepers[0];
        sleepers := sleepers[1..];
        WokenBy(l, text, s.cursor);
        Dmesg(s.id, s.sender, s.cursor, true);
        assert View() == Turn(before);
      }
    }

    method Disconnect(sender: Uuid)
      modifies `sleepers
      ensures View() == Apply(old(View()), Action.Disconnect(sender))
    {
      var tmp := [];
      for i := 0 to |sleepers|
        invariant sleepers == old(sleepers) && tmp == Mine(sleepers[..i], sender)
      {
        assert sleepers[..i + 1] == sleepers[..i] + [sleepers[i]];
        MineConcat(sleepers[..i], [sleepers[i]], sender);
        if sleepers[i].sender == sender {
          tmp := tmp + [sleepers[i]];
        }
      }
      assert sleepers[..|sleepers|] == sleepers;
      while tmp != []
        invariant tmp == Mine(sleepers, sender) && Others(sleepers, sender) == Others(old(sleepers), sender)
        decreases |tmp|
      {
        var s := tmp[0];
        tmp := tmp[1..];
        Remove(s, sender);
      }
      NoneMine(sleepers, sender);
    }

    /** Remove the first sleeper of the sender, which is s. */
    method Remove(s: Sleeper, ghost sender: Uuid)
      requires Mine(sleepers, sender) != [] && Mine(sleepers, sender)[0] == s
      modifies `sleepers
      ensures Mine(sleepers, sender) == Mine(old(sleepers), sender)[1..]
      ensures Others(sleepers, sender) == Others(old(sleepers), sender)
    {
      MineIn(sleepers, sender);
      assert Mine(sleepers, sender)[0] in sleepers;
      var i := 0;
      while sleepers[i] != s
        invariant i < |sleepers| && s !in sleepers[..i] && s in sleepers[i..]
        decreases |sleepers| - i
      {
        i := i + 1;
      }
      assert sleepers == sleepers[..i] + ([s] + sleepers[i + 1..]);
      TakenOut(sleepers[..i], s, sleepers[i + 1..], sender);
      sleepers := sleepers[..i] + sleepers[i + 1..];
    }
  }
}
