/** How hello.c drives the reduction handle of its rank. */
module HelloNode {
  import opened Hello
  import opened ReduceHandle
  import R = Reduce

  /** The handle is the handle of a node, and what it has sent is what the node passed on. */
  ghost predicate Drives(h: Handle, n: Node)
    reads h
  {
    && h.Valid() && h.View() == n.red
    && |h.sent| == |n.log| && forall i | 0 <= i < |n.log| :: h.sent[i].weight == n.log[i]
  }

  /** hello_start: make a handle from the attributes and count this rank. */
  method HelloStart(rank: nat, size: nat, setup: Setup) returns (h: Handle)
    ensures fresh(h) && h.rank == rank && h.size == size
    ensures Drives(h, Worked(NewNode(setup), R.Append(1, 0)))
  {
    h := new Handle(rank, size, setup.timed, setup.hwm > 0, setup.hwm, true);
    h.Append(1, 0);
  }

  /** join_request: a malformed join ends the broker, which is ok == false here. */
  method JoinRequest(h: Handle, count: int, batch: int, ghost n: Node) returns (ok: bool)
    requires Drives(h, n)
    modifies h
    ensures ok <==> batch == 0 && count > 0
    ensures ok ==> Drives(h, Worked(n, R.Append(count, batch)))
    ensures !ok ==> Drives(h, n)
  {
    if batch != 0 || count <= 0 {
      return false;
    }
    h.Append(count, batch);
    ok := true;
  }

  method Timeout(h: Handle, ghost n: Node)
    requires Drives(h, n) && h.armed
    modifies h
    ensures Drives(h, Worked(n, R.Timer))
  {
    h.TimerFires();
  }
}
