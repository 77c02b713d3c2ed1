/** The reduction handle of reduce.c as the mutable object it is, with the operations that
    hello.c plugs into it; each method is tied to a function of module Reduce. */
module ReduceHandle {
  import opened Basics
  import opened Reduce

  function Sum(items: seq<nat>): nat {
    if items == [] then 0 else items[0] + Sum(items[1..])
  }

  function SentSum(sent: seq<Delivery>): nat {
    if sent == [] then 0 else SentSum(sent[..|sent| - 1]) + sent[|sent| - 1].weight
  }

  /** How often the sum of what was sent so far came to size. */
  function Hits(sent: seq<Delivery>, size: nat): nat {
    if sent == [] then 0 else Hits(sent[..|sent| - 1], size) + Bit(SentSum(sent) == size)
  }

  /** An item is its weight, and 0 stands for no item. */
  class Handle {
    const rank: nat
    const size: nat
    const timed: bool
    const marked: bool
    var items: seq<nat>
    var oldItem: nat
    var oldFlag: bool
    var armed: bool
    var hwm: nat
    var fixed: bool
    var count: nat
    var batch: int
    var flushed: bool
    /** The calls made of sink and forward, in order. */
    var sent: seq<Delivery>
    /** What the sink of rank 0 has counted, and how often it then set run level 1. */
    var total: nat
    var runs: nat

    ghost predicate CountOk()
      reads this
    {
      if rank == 0 then total == SentSum(sent) && runs == Hits(sent, size) else total == 0 && runs == 0
    }

    /** Between calls at most one item is queued, and no straggler is held. */
    ghost predicate Valid()
      reads this
    {
      && |items| <= 1 && (items != [] ==> items[0] > 0)
      && oldItem == 0 && !oldFlag
      && CountOk()
      && (armed ==> timed)
    }

    ghost function View(): State
      reads this
    {
      State(timed, marked, Sum(items), armed, hwm, fixed, count, batch, flushed)
    }

    constructor (rank: nat, size: nat, timed: bool, marked: bool, hwm: nat, fixed: bool)
      requires !fixed ==> hwm == 0
      ensures Valid() && Fresh(View()) && sent == [] && this.rank == rank && this.size == size
      ensures View().timed == timed && View().marked == marked && View().hwm == hwm && View().fixed == fixed
    {
      this.rank, this.size, total, runs := rank, size, 0, 0;
      this.timed, this.marked, this.hwm, this.fixed := timed, marked, hwm, fixed;
      items, oldItem, oldFlag, armed, count, batch, flushed, sent := [], 0, false, false, 0, 0, false, [];
    }

    method Pop() returns (item: nat)
      modifies `items, `oldItem
      ensures old(oldFlag) ==> item == old(oldItem) && oldItem == 0 && items == old(items)
      ensures !old(oldFlag) ==> oldItem == old(oldItem)
      ensures !old(oldFlag) && old(items) == [] ==> item == 0 && items == []
      ensures !old(oldFlag) && old(items) != [] ==> item == old(items)[0] && items == old(items)[1..]
    {
      if oldFlag {
        item, oldItem := oldItem, 0;
      } else if items == [] {
        item := 0;
      } else {
        item, items := items[0], items[1..];
      }
    }

    method Push(item: nat)
      modifies `items
      ensures items == [item] + old(items)
    {
      items := [item] + items;
    }

    /** However many items are queued, one is left, which is their sum. */
    method ReduceItems()
      requires !oldFlag && forall i | 0 <= i < |items| :: items[i] > 0
      modifies `items, `oldItem
      ensures oldItem == old(oldItem)
      ensures items == if old(items) == [] then [] else [Sum(old(items))]
    {
      var total := 0;
      var i: nat := Pop();
      while i > 0
        invariant forall k | 0 <= k < |items| :: items[k] > 0
        invariant oldItem == old(oldItem)
        invariant i == 0 ==> items == []
        invariant total + i + Sum(items) == Sum(old(items))
        invariant old(items) != [] ==> total + i > 0
        decreases |items| + if i > 0 then 1 else 0
        modifies `items, `oldItem
      {
        total := total + i;
        i := Pop();
      }
      if total > 0 {
        Push(total);
      }
    }

    method Sink(b: int)
      requires rank == 0 && CountOk()
      requires if oldFlag then oldItem > 0 else items != [] && items[0] > 0
      modifies `items, `oldItem, `sent, `total, `runs
      ensures CountOk() && Popped(old(oldFlag), old(oldItem), old(items), old(sent), b)
    {
      var item := Pop();
      sent := sent + [Delivery(b, item)];
      assert sent[..|sent| - 1] == old(sent);
      total := total + item;
      if total == size {
        runs := runs + 1;
      }
    }

    method Forward(b: int)
      requires rank > 0 && CountOk()
      requires if oldFlag then oldItem > 0 else items != [] && items[0] > 0
      modifies `items, `oldItem, `sent
      ensures CountOk() && Popped(old(oldFlag), old(oldItem), old(items), old(sent), b)
    {
      var item := Pop();
      sent := sent + [Delivery(b, item)];
    }

    /** One item has been taken and passed on. */
    ghost predicate Popped(flag: bool, straggler: nat, queue: seq<nat>, log: seq<Delivery>, b: int)
      requires !flag ==> queue != []
      reads this
    {
      if flag then oldItem == 0 && items == queue && sent == log + [Delivery(b, straggler)]
      else oldItem == straggler && items == queue[1..] && sent == log + [Delivery(b, queue[0])]
    }

    /** Drop the items that a sink or forward left behind. */
    method Discard()
      requires !oldFlag && forall i | 0 <= i < |items| :: items[i] > 0
      modifies `items, `oldItem
      ensures items == [] && oldItem == old(oldItem)
    {
      var item: nat := Pop();
      while item > 0
        invariant forall k | 0 <= k < |items| :: items[k] > 0
        invariant item == 0 ==> items == []
        invariant oldItem == old(oldItem)
        decreases |items| + if item > 0 then 1 else 0
      {
        item := Pop();
      }
    }

    method FlushQueue()
      requires Valid()
      modifies `items, `oldItem, `sent, `total, `runs, `armed, `flushed
      ensures Valid()
      ensures View() == FlushCurrent(old(View())).state
      ensures sent == old(sent) + FlushCurrent(old(View())).out
    {
      assert |items| == 1 ==> items[1..] == [];
      if |items| > 0 {
        if rank > 0 {
          Forward(batch);
        } else {
          Sink(batch);
        }
        Discard();
      }
      if timed {
        armed := false;
      }
      flushed := true;
    }

    method FlushOld(item: nat, b: int)
      requires Valid() && item > 0
      modifies `items, `oldItem, `oldFlag, `sent, `total, `runs
      ensures Valid() && View() == old(View()) && sent == old(sent) + [Delivery(b, item)]
    {
      oldItem, oldFlag := item, true;
      if rank > 0 {
        Forward(b);
      } else {
        Sink(b);
      }
      oldItem, oldFlag := 0, false;
    }

    method Enter(b: int)
      requires Valid()
      modifies this
      ensures Valid() && View() == NextBatch(old(View()), b).state
      ensures sent == old(sent) + NextBatch(old(View()), b).out
    {
      FlushQueue();
      if !fixed {
        hwm := count;
      }
      count, batch, flushed := 0, b, false;
    }

    method Queue(weight: nat)
      requires Valid() && weight > 0
      modifies this
      ensures Valid() && View() == Enqueue(old(View()), weight).state
      ensures sent == old(sent) + Enqueue(old(View()), weight).out
    {
      count := count + weight;
      Push(weight);
      if |items| > 1 {
        ReduceItems();
      }
      assert items == [old(Sum(items)) + weight];
      assert items[1..] == [];
      if marked {
        if count >= hwm {
          FlushQueue();
        }
      }
      if timed {
        if |items| > 0 && !armed {
          armed := true;
        }
      }
      if !marked && !timed {
        FlushQueue();
      }
    }

    method Append(weight: nat, b: int)
      requires Valid() && weight > 0
      modifies this
      ensures Valid() && View() == Apply(old(View()), Op.Append(weight, b)).state
      ensures sent == old(sent) + Apply(old(View()), Op.Append(weight, b)).out
    {
      if b < batch - 1 {
        FlushOld(weight, b);
      } else if b == batch - 1 {
        if !fixed {
          hwm := hwm + weight;
        }
        FlushOld(weight, b);
      } else if b == batch && flushed {
        count := count + weight;
        FlushOld(weight, b);
      } else {
        if b > batch {
          Enter(b);
        }
        Queue(weight);
      }
    }

    method TimerFires()
      requires Valid() && armed
      modifies this
      ensures Valid() && View() == Apply(old(View()), Timer).state
      ensures sent == old(sent) + Apply(old(View()), Timer).out
    {
      FlushQueue();
    }
  }
}
