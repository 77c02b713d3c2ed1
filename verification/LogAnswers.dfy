/** Every request to follow the log is answered once, or still sleeps, unless its sender
    has disconnected. */
module LogAnswers {
  import opened Basics
  import opened LogRing

  function Told(answers: seq<Answer>, id: nat): nat {
    if answers == [] then 0
    else Told(answers[..|answers| - 1], id) + Bit(answers[|answers| - 1].id == id)
  }

  function Asleep(sleepers: seq<Sleeper>, id: nat): nat {
    if sleepers == [] then 0
    else Asleep(sleepers[..|sleepers| - 1], id) + Bit(sleepers[|sleepers| - 1].id == id)
  }

  lemma {:induction false} ToldConcat(x: seq<Answer>, y: seq<Answer>, id: nat)
    ensures Told(x + y, id) == Told(x, id) + Told(y, id)
    decreases |y|
  {
    if y == [] {
      assert x + y == x;
    } else {
      assert (x + y)[..|x + y| - 1] == x + y[..|y| - 1];
      ToldConcat(x, y[..|y| - 1], id);
    }
  }

  lemma {:induction false} AsleepConcat(x: seq<Sleeper>, y: seq<Sleeper>, id: nat)
    ensures Asleep(x + y, id) == Asleep(x, id) + Asleep(y, id)
    decreases |y|
  {
    if y == [] {
      assert x + y == x;
    } else {
      assert (x + y)[..|x + y| - 1] == x + y[..|y| - 1];
      AsleepConcat(x, y[..|y| - 1], id);
    }
  }

  /** The wake loop answers each request as often as it sleeps. */
  lemma {:induction false} WokenTold(sleepers: seq<Sleeper>, e: Entry, id: nat)
    ensures Told(Woken(sleepers, e), id) == Asleep(sleepers, id)
    decreases |sleepers|
  {
    if sleepers != [] {
      var n := |sleepers| - 1;
      WokenTold(sleepers[..n], e, id);
      assert Woken(sleepers, e)[..n] == Woken(sleepers[..n], e);
    }
  }

  /** The sleepers with this id are all of one sender. */
  ghost predicate OfSender(sleepers: seq<Sleeper>, id: nat, sender: Uuid) {
    forall i | 0 <= i < |sleepers| :: sleepers[i].id == id ==> sleepers[i].sender == sender
  }

  /** A disconnect leaves the sleepers of other senders alone. */
  lemma {:induction false} OthersAsleep(sleepers: seq<Sleeper>, gone: Uuid, id: nat, sender: Uuid)
    requires OfSender(sleepers, id, sender) && gone != sender
    ensures Asleep(Others(sleepers, gone), id) == Asleep(sleepers, id)
  {
    if sleepers != [] {
      var s := sleepers[0];
      OthersAsleep(sleepers[1..], gone, id, sender);
      assert sleepers == [s] + sleepers[1..];
      AsleepConcat([s], sleepers[1..], id);
      AsleepConcat([s], Others(sleepers[1..], gone), id);
      assert [s][..0] == [];
    }
  }

  lemma OthersOfSender(sleepers: seq<Sleeper>, gone: Uuid, id: nat, sender: Uuid)
    requires OfSender(sleepers, id, sender)
    ensures OfSender(Others(sleepers, gone), id, sender)
  {
    var rest := Others(sleepers, gone);
    OthersIn(sleepers, gone);
    forall i | 0 <= i < |rest| && rest[i].id == id ensures rest[i].sender == sender {
      assert rest[i] in rest;
    }
  }

  ghost function Owed(l: Log, id: nat): nat {
    Told(l.answers, id) + Asleep(l.sleepers, id)
  }

  lemma AppendOwes(l: Log, text: string, id: nat)
    ensures Owed(Appended(l, text), id) == Owed(l, id)
  {
    var e := Entry(l.seqno, text);
    ToldConcat(l.answers, Woken(l.sleepers, e), id);
    WokenTold(l.sleepers, e, id);
  }

  lemma ToldOne(answers: seq<Answer>, a: Answer, id: nat)
    ensures Told(answers + [a], id) == Told(answers, id) + Bit(a.id == id)
  {
    assert (answers + [a])[..|answers|] == answers;
  }

  lemma AsleepOne(sleepers: seq<Sleeper>, s: Sleeper, id: nat)
    ensures Asleep(sleepers + [s], id) == Asleep(sleepers, id) + Bit(s.id == id)
  {
    assert (sleepers + [s])[..|sleepers|] == sleepers;
  }

  lemma AskOwes(l: Log, ask: nat, from: Uuid, cursor: int, follow: bool, id: nat)
    ensures Owed(Asked(l, ask, from, cursor, follow), id) == Owed(l, id) + Bit(ask == id)
  {
    match First(l.buf, cursor)
    case Some(e) => ToldOne(l.answers, Line(ask, e), id);
    case None =>
      if follow {
        AsleepOne(l.sleepers, Sleeper(ask, from, cursor), id);
      } else {
        ToldOne(l.answers, Error(ask, ENOENT), id);
      }
  }

  lemma ApplyOfSender(l: Log, a: Action, id: nat, sender: Uuid)
    requires OfSender(l.sleepers, id, sender) && (a.Dmesg? && a.id == id ==> a.sender == sender)
    ensures OfSender(Apply(l, a).sleepers, id, sender)
  {
    if a.Disconnect? {
      OthersOfSender(l.sleepers, a.sender, id, sender);
    }
  }

  /** What an action does to the answers and sleepers of one request. */
  lemma ApplyAnswers(l: Log, a: Action, id: nat, sender: Uuid)
    requires OfSender(l.sleepers, id, sender) && a != Disconnect(sender)
    ensures Owed(Apply(l, a), id) == Owed(l, id) + Bit(a.Dmesg? && a.id == id)
  {
    match a
    case Append(text) => AppendOwes(l, text, id);
    case Dmesg(ask, from, cursor, follow) => AskOwes(l, ask, from, cursor, follow, id);
    case Disconnect(gone) => OthersAsleep(l.sleepers, gone, id, sender);
    case Clear(_) =>
    case Resize(_) =>
  }

  ghost function Requests(h: Run, i: nat, id: nat): nat
    requires i <= |h.actions|
  {
    if i == 0 then 0 else Requests(h, i - 1, id) + Bit(h.actions[i - 1].Dmesg? && h.actions[i - 1].id == id)
  }

  /** Over any run: the requests made under an id, by a sender that has not disconnected,
      are the answers given to it plus those still asleep. */
  lemma {:induction false} FollowedOnce(h: Run, i: nat, id: nat, sender: Uuid)
    requires IsRun(h) && i <= |h.actions|
    requires forall j | 0 <= j < i :: h.actions[j] != Disconnect(sender)
    requires forall j | 0 <= j < i :: h.actions[j].Dmesg? && h.actions[j].id == id ==> h.actions[j].sender == sender
    ensures OfSender(h.states[i].sleepers, id, sender)
    ensures Requests(h, i, id) == Told(h.states[i].answers, id) + Asleep(h.states[i].sleepers, id)
  {
    if i > 0 {
      FollowedOnce(h, i - 1, id, sender);
      ApplyOfSender(h.states[i - 1], h.actions[i - 1], id, sender);
      ApplyAnswers(h.states[i - 1], h.actions[i - 1], id, sender);
    }
  }
}
