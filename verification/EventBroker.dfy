/** The publisher of rank 0 and the event handling of a broker as mutable objects. */
module EventBroker {
  import opened Basics
  import opened Events

  class Broker {
    var last: nat
    var got: seq<nat>
    var links: map<nat, seq<nat>>

    ghost function View(): Node
      reads this
    {
      Node(last, got, links)
    }

    constructor ()
      ensures View() == Node(0, [], map[])
    {
      last, got, links := 0, [], map[];
    }

    /** A message from a child registers it; one that is registered keeps its link. */
    method CheckinChild(c: nat)
      modifies `links
      ensures links == if c in old(links) then old(links) else old(links)[c := []]
    {
      if c !in links {
        links := links[c := []];
      }
    }

    method McastChild(n: nat)
      modifies `links
      ensures links == Mcast(old(links), n)
    {
      var todo := links.Keys;
      while todo != {}
        invariant todo <= links.Keys == old(links).Keys
        invariant forall c | c in links :: links[c] == if c in todo then old(links)[c] else old(links)[c] + [n]
        decreases todo
      {
        var c :| c in todo;
        links := links[c := links[c] + [n]];
        todo := todo - {c};
      }
    }

    /** Returns how many events are reported lost. */
    method HandleEvent(n: nat) returns (lost: nat)
      modifies this
      ensures View() == Handled(old(View()), n) && lost == Lost(old(View()), n)
    {
      lost := 0;
      if n <= last {
        return;
      }
      if last > 0 {
        var first := last + 1;
        lost := n - first;
      }
      last := n;
      McastChild(n);
      got := got + [n];
    }
  }

  class Publisher {
    var seqno: nat
    /** The numbers that each sender was given, in order of registration. */
    var boxes: seq<seq<nat>>

    /** Each sender was given consecutive numbers up to the last one used. */
    ghost predicate Valid()
      reads this
    {
      forall i | 0 <= i < |boxes| :: UpTo(boxes[i], seqno)
    }

    static ghost predicate UpTo(box: seq<nat>, last: nat) {
      |box| <= last && forall j | 0 <= j < |box| :: box[j] == last - |box| + j + 1
    }

    constructor ()
      ensures Valid() && seqno == 0 && boxes == []
    {
      seqno, boxes := 0, [];
    }

    method SetSender()
      requires Valid()
      modifies `boxes
      ensures Valid() && boxes == old(boxes) + [[]]
    {
      boxes := boxes + [[]];
    }

    method SendEvent(n: nat)
      modifies `boxes
      ensures |boxes| == |old(boxes)| && forall i | 0 <= i < |boxes| :: boxes[i] == old(boxes)[i] + [n]
    {
      var k := 0;
      while k < |boxes|
        invariant k <= |boxes| == |old(boxes)|
        invariant forall i | 0 <= i < |boxes| :: boxes[i] == if i < k then old(boxes)[i] + [n] else old(boxes)[i]
      {
        boxes := boxes[k := boxes[k] + [n]];
        k := k + 1;
      }
    }

    /** A publish request: the number is given back when the event cannot be encoded. */
    method Publish(malformed: Option<Errno>, encoding: Option<Errno>) returns (answer: PubResult)
      requires Valid()
      modifies this
      ensures Valid()
      ensures malformed.Some? ==> answer == Failed(malformed.value)
      ensures malformed.None? && encoding.Some? ==> answer == Failed(encoding.value)
      ensures malformed.None? && encoding.None? ==> answer == Published(old(seqno) + 1)
      ensures answer.Failed? ==> seqno == old(seqno) && boxes == old(boxes)
      ensures answer.Published? ==> seqno == answer.seqno && |boxes| == |old(boxes)|
      ensures answer.Published? ==> forall i | 0 <= i < |boxes| :: boxes[i] == old(boxes)[i] + [seqno]
    {
      if malformed.Some? {
        return Failed(malformed.value);
      }
      seqno := seqno + 1;
      if encoding.Some? {
        seqno := seqno - 1;
        return Failed(encoding.value);
      }
      SendEvent(seqno);
      answer := Published(seqno);
    }
  }

  datatype PubResult = Published(seqno: nat) | Failed(errno: Errno)
}
