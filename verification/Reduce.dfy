/** The reduction handle of reduce.c with a summing reduce operation and a sink and forward
    that take one item, as the hello protocol uses it. */
module Reduce {

  /** One call of sink or forward. */
  datatype Delivery = Delivery(batch: int, weight: nat)

  /** queue is the weight of the items queued for the current batch. */
  datatype State = State(
    timed: bool, marked: bool, queue: nat, armed: bool,
    hwm: nat, fixed: bool, count: nat, batch: int, flushed: bool)

  datatype Result = Result(state: State, out: seq<Delivery>)

  datatype Op = Append(weight: nat, batch: int) | Timer

  function FlushCurrent(s: State): Result {
    Result(s.(queue := 0, armed := false, flushed := true),
           if s.queue > 0 then [Delivery(s.batch, s.queue)] else [])
  }

  /** Leave the current batch for a later one, whose mark is what this one has counted. */
  function NextBatch(s: State, batch: int): Result {
    var r := FlushCurrent(s);
    Result(r.state.(hwm := if s.fixed then s.hwm else s.count, count := 0, batch := batch, flushed := false), r.out)
  }

  /** Queue an item of the current batch, then flush or see that the timer runs. */
  function Enqueue(s: State, weight: nat): Result {
    var s1 := s.(count := s.count + weight, queue := s.queue + weight);
    if (if s.marked then s1.count >= s.hwm else !s.timed) then FlushCurrent(s1)
    else Result(s1.(armed := s.armed || (s.timed && s1.queue > 0)), [])
  }

  function Appended(s: State, weight: nat, batch: int): Result {
    if batch < s.batch - 1 then
      Result(s, [Delivery(batch, weight)])
    else if batch == s.batch - 1 then
      Result(s.(hwm := if s.fixed then s.hwm else s.hwm + weight), [Delivery(batch, weight)])
    else if batch == s.batch && s.flushed then
      Result(s.(count := s.count + weight), [Delivery(batch, weight)])
    else if batch > s.batch then
      var n := NextBatch(s, batch);
      var r := Enqueue(n.state, weight);
      Result(r.state, n.out + r.out)
    else
      Enqueue(s, weight)
  }

  function Apply(s: State, op: Op): Result {
    match op
    case Append(weight, batch) => Appended(s, weight, batch)
    case Timer => FlushCurrent(s)
  }

  // ---------------------------------------------------------------- invariants

  /** The timer runs exactly while something is queued; below a mark nothing is queued
      once the mark is reached; without a policy nothing is ever queued. */
  predicate Inv(s: State) {
    && (s.armed <==> s.timed && s.queue > 0)
    && (s.queue > 0 ==> !s.flushed)
    && (s.marked && s.queue > 0 ==> s.count < s.hwm)
    && (!s.marked && !s.timed ==> s.queue == 0)
  }

  /** Items weigh something and timers fire only when they run. */
  predicate OpOk(s: State, op: Op) {
    match op
    case Append(weight, _) => weight > 0
    case Timer => s.armed
  }

  lemma ApplyKeeps(s: State, op: Op)
    requires Inv(s) && OpOk(s, op)
    ensures Inv(Apply(s, op).state)
  {
  }

  function Weight(out: seq<Delivery>, b: int): nat {
    if out == [] then 0
    else Weight(out[..|out| - 1], b) + if out[|out| - 1].batch == b then out[|out| - 1].weight else 0
  }

  function Queued(s: State, b: int): nat {
    if b == s.batch then s.queue else 0
  }

  function Taken(op: Op, b: int): nat {
    if op.Append? && op.batch == b then op.weight else 0
  }

  lemma {:induction false} WeightConcat(x: seq<Delivery>, y: seq<Delivery>, b: int)
    ensures Weight(x + y, b) == Weight(x, b) + Weight(y, b)
    decreases |y|
  {
    if y == [] {
      assert x + y == x;
    } else {
      assert (x + y)[..|x + y| - 1] == x + y[..|y| - 1];
      WeightConcat(x, y[..|y| - 1], b);
    }
  }

  lemma WeightSmall(out: seq<Delivery>, b: int)
    ensures out == [] ==> Weight(out, b) == 0
    ensures |out| == 1 ==> Weight(out, b) == if out[0].batch == b then out[0].weight else 0
  {
  }

  lemma FlushConserves(s: State, b: int)
    ensures Weight(FlushCurrent(s).out, b) == Queued(s, b)
  {
    WeightSmall(FlushCurrent(s).out, b);
  }

  lemma EnqueueConserves(s: State, weight: nat, b: int)
    ensures var r := Enqueue(s, weight);
      Weight(r.out, b) + Queued(r.state, b) == Queued(s, b) + if b == s.batch then weight else 0
  {
    FlushConserves(s.(count := s.count + weight, queue := s.queue + weight), b);
    WeightSmall([], b);
  }

  /** Nothing is lost or counted twice, and nothing is delivered under a wrong batch. */
  lemma ApplyConserves(s: State, op: Op, b: int)
    ensures var r := Apply(s, op);
      Weight(r.out, b) + Queued(r.state, b) == Queued(s, b) + Taken(op, b)
  {
    match op
    case Timer => FlushConserves(s, b);
    case Append(weight, batch) =>
      if batch > s.batch {
        var n := NextBatch(s, batch);
        FlushConserves(s, b);
        EnqueueConserves(n.state, weight, b);
        WeightConcat(n.out, Enqueue(n.state, weight).out, b);
      } else if batch == s.batch && !s.flushed {
        EnqueueConserves(s, weight, b);
      } else {
        WeightSmall([Delivery(batch, weight)], b);
      }
  }

  lemma BatchAfter(s: State, op: Op)
    ensures Apply(s, op).state.batch == if op.Append? && op.batch > s.batch then op.batch else s.batch
  {
  }

  lemma EnqueueMark(s: State, weight: nat)
    ensures var t := Enqueue(s, weight).state;
      t.count == s.count + weight && t.hwm == s.hwm && t.batch == s.batch && t.fixed == s.fixed
  {
  }

  /** What an operation does to the count and to a mark that is learned. */
  lemma MarkAfter(s: State, op: Op)
    requires !s.fixed
    ensures var t := Apply(s, op).state;
      && !t.fixed
      && t.count == (if op.Append? && op.batch > s.batch then 0 else s.count) + Taken(op, t.batch)
      && t.hwm == (if op.Append? && op.batch > s.batch then s.count else s.hwm + Taken(op, s.batch - 1))
  {
    if op.Append? {
      if op.batch > s.batch {
        EnqueueMark(NextBatch(s, op.batch).state, op.weight);
      } else if op.batch == s.batch && !s.flushed {
        EnqueueMark(s, op.weight);
      }
    }
  }

  // ---------------------------------------------------------------- runs

  datatype History = History(states: seq<State>, ops: seq<Op>)

  predicate IsHistory(h: History) {
    && |h.states| == |h.ops| + 1 && Fresh(h.states[0])
    && forall i | 0 <= i < |h.ops| ::
         OpOk(h.states[i], h.ops[i]) && h.states[i + 1] == Apply(h.states[i], h.ops[i]).state
  }

  /** A handle as flux_reduce_create makes it, with the mark possibly set by the caller. */
  predicate Fresh(s: State) {
    s.queue == 0 && !s.armed && s.count == 0 && s.batch == 0 && !s.flushed && (!s.fixed ==> s.hwm == 0)
  }

  function TotalTaken(h: History, i: nat, b: int): nat
    requires i <= |h.ops|
  {
    if i == 0 then 0 else TotalTaken(h, i - 1, b) + Taken(h.ops[i - 1], b)
  }

  function TotalDelivered(h: History, i: nat, b: int): nat
    requires IsHistory(h) && i <= |h.ops|
  {
    if i == 0 then 0 else TotalDelivered(h, i - 1, b) + Weight(Apply(h.states[i - 1], h.ops[i - 1]).out, b)
  }

  /** For any appends with any batch numbers and any timer firings, the weight appended to
      a batch is the weight delivered under that batch plus, for the current batch, the
      weight queued; and the policy invariants hold throughout. */
  lemma {:induction false} BatchConservation(h: History, i: nat, b: int)
    requires IsHistory(h) && i <= |h.ops|
    ensures Inv(h.states[i])
    ensures TotalTaken(h, i, b) == TotalDelivered(h, i, b) + Queued(h.states[i], b)
  {
    if i > 0 {
      BatchConservation(h, i - 1, b);
      ApplyKeeps(h.states[i - 1], h.ops[i - 1]);
      ApplyConserves(h.states[i - 1], h.ops[i - 1], b);
    }
  }

  /** A later batch is the next one. */
  predicate InStep(s: State, op: Op) {
    op.Append? && op.batch > s.batch ==> op.batch == s.batch + 1
  }

  /** count is the weight seen of the current batch, and hwm that of the one before. */
  predicate Learned(s: State, current: nat, previous: nat) {
    s.count == current && s.hwm == previous
  }

  /** Nothing has been seen of batches to come. */
  lemma {:induction false} FutureUnseen(h: History, i: nat, b: int)
    requires IsHistory(h) && i <= |h.ops| && b > h.states[i].batch
    ensures TotalTaken(h, i, b) == 0
  {
    if i > 0 {
      BatchAfter(h.states[i - 1], h.ops[i - 1]);
      FutureUnseen(h, i - 1, b);
    }
  }

  lemma LearnedStep(s: State, op: Op, current: nat, previous: nat)
    requires !s.fixed && InStep(s, op) && Learned(s, current, previous)
    ensures var t := Apply(s, op).state;
      && !t.fixed
      && (t.batch == s.batch || t.batch == s.batch + 1)
      && if t.batch == s.batch
         then Learned(t, current + Taken(op, s.batch), previous + Taken(op, s.batch - 1))
         else Learned(t, Taken(op, s.batch + 1), current + Taken(op, s.batch))
  {
    BatchAfter(s, op);
    MarkAfter(s, op);
  }

  /** The learned mark: when the caller does not fix it and batches first appear one after
      the other from 0, count and hwm are always the weights seen so far of the current and
      of the previous batch, stragglers included. */
  lemma {:induction false} LearnedMark(h: History, i: nat)
    requires IsHistory(h) && i <= |h.ops| && !h.states[0].fixed
    requires forall j | 0 <= j < i :: InStep(h.states[j], h.ops[j])
    ensures !h.states[i].fixed
    ensures Learned(h.states[i], TotalTaken(h, i, h.states[i].batch), TotalTaken(h, i, h.states[i].batch - 1))
  {
    if i > 0 {
      LearnedMark(h, i - 1);
      assert InStep(h.states[i - 1], h.ops[i - 1]);
      LearnedNext(h, i - 1);
    }
  }

  /** Whether the operation stays in its batch or begins the next. */
  lemma LearnedNext(h: History, i: nat)
    requires IsHistory(h) && i < |h.ops| && !h.states[i].fixed && InStep(h.states[i], h.ops[i])
    requires Learned(h.states[i], TotalTaken(h, i, h.states[i].batch), TotalTaken(h, i, h.states[i].batch - 1))
    ensures !h.states[i + 1].fixed
    ensures var b := h.states[i + 1].batch;
      Learned(h.states[i + 1], TotalTaken(h, i + 1, b), TotalTaken(h, i + 1, b - 1))
  {
    var b := h.states[i].batch;
    LearnedStep(h.states[i], h.ops[i], TotalTaken(h, i, b), TotalTaken(h, i, b - 1));
    FutureUnseen(h, i, b + 1);
  }

  /** A batch that is skipped breaks the learned mark, unless nothing had been counted: the
      mark is then the weight of the batch before the gap, and of the skipped batch nothing
      has been seen. */
  lemma SkipUnlearns(h: History, i: nat)
    requires IsHistory(h) && i < |h.ops| && !h.states[i].fixed
    requires Learned(h.states[i], TotalTaken(h, i, h.states[i].batch), TotalTaken(h, i, h.states[i].batch - 1))
    requires h.ops[i].Append? && h.ops[i].batch > h.states[i].batch
    ensures h.states[i + 1].hwm == TotalTaken(h, i + 1, h.states[i + 1].batch - 1)
            <==> h.ops[i].batch == h.states[i].batch + 1 || h.states[i].count == 0
  {
    BatchAfter(h.states[i], h.ops[i]);
    MarkAfter(h.states[i], h.ops[i]);
    if h.ops[i].batch > h.states[i].batch + 1 {
      FutureUnseen(h, i, h.ops[i].batch - 1);
    }
  }

  // ---------------------------------------------------------------- when a batch is delivered

  /** An item of the current batch that has not been flushed is held back below the mark, or
      with a timeout and no mark; otherwise all that is queued goes out with it.  Once the
      batch is flushed every item goes out by itself. */
  lemma HeldBack(s: State, weight: nat)
    requires Inv(s) && weight > 0
    ensures var r := Apply(s, Append(weight, s.batch));
      var held := !s.flushed && if s.marked then s.count + weight < s.hwm else s.timed;
      && (held ==> r.out == [] && r.state.queue == s.queue + weight && !r.state.flushed && r.state.armed == s.timed)
      && (!held ==> r.out == [Delivery(s.batch, s.queue + weight)] && r.state.queue == 0 && r.state.flushed)
  {
  }

  /** A timer delivers all that is queued, once. */
  lemma TimerDelivers(s: State)
    requires Inv(s) && s.armed
    ensures var r := Apply(s, Timer);
      r.out == [Delivery(s.batch, s.queue)] && r.state.queue == 0 && r.state.flushed && !r.state.armed
  {
  }

  lemma FlushedBy(s: State, op: Op)
    requires Inv(s) && OpOk(s, op) && s.timed && !s.marked
    ensures var t := Apply(s, op).state;
      && t.timed && !t.marked
      && (t.flushed <==> op.Timer? || (s.flushed && t.batch == s.batch))
  {
  }

  /** A timer has fired for the current batch. */
  predicate TimerFired(h: History, i: nat)
    requires |h.states| == |h.ops| + 1 && i <= |h.ops|
  {
    exists j :: 0 <= j < i && h.ops[j].Timer? && h.states[j].batch == h.states[i].batch
  }

  lemma {:induction false} BatchGrows(h: History, i: nat, j: nat)
    requires IsHistory(h) && i <= j < |h.states|
    ensures h.states[i].batch <= h.states[j].batch
    decreases j
  {
    if i < j {
      BatchGrows(h, i, j - 1);
      BatchStep(h, j - 1);
    }
  }

  lemma BatchStep(h: History, i: nat)
    requires IsHistory(h) && i < |h.ops|
    ensures h.states[i].batch <= h.states[i + 1].batch
  {
    BatchAfter(h.states[i], h.ops[i]);
  }

  /** With a timeout and no mark, a batch has been flushed exactly when its timer has fired. */
  lemma {:induction false} FlushedIffFired(h: History, i: nat)
    requires IsHistory(h) && i <= |h.ops| && h.states[0].timed && !h.states[0].marked
    ensures Inv(h.states[i]) && h.states[i].timed && !h.states[i].marked
    ensures h.states[i].flushed <==> TimerFired(h, i)
  {
    BatchConservation(h, i, 0);
    if i > 0 {
      var s, op := h.states[i - 1], h.ops[i - 1];
      FlushedIffFired(h, i - 1);
      FlushedBy(s, op);
      BatchAfter(s, op);
      FiredNext(h, i - 1);
    }
  }

  lemma FiredNext(h: History, i: nat)
    requires IsHistory(h) && i < |h.ops|
    ensures TimerFired(h, i + 1) <==>
      h.ops[i].Timer? || (TimerFired(h, i) && h.states[i + 1].batch == h.states[i].batch)
  {
    BatchAfter(h.states[i], h.ops[i]);
    if TimerFired(h, i + 1) && !h.ops[i].Timer? {
      var j :| 0 <= j < i + 1 && h.ops[j].Timer? && h.states[j].batch == h.states[i + 1].batch;
      BatchGrows(h, j, i);
    }
  }

  /** In every run with a timeout and no mark, an item of the current batch goes out as it
      comes if and only if the timer has fired for that batch; until then the batch is
      delivered by its timer or by the first item of a later one. */
  lemma TimedOnly(h: History, i: nat)
    requires IsHistory(h) && i < |h.ops| && h.states[0].timed && !h.states[0].marked
    requires h.ops[i].Append? && h.ops[i].batch == h.states[i].batch
    ensures Apply(h.states[i], h.ops[i]).out ==
      if TimerFired(h, i) then [Delivery(h.states[i].batch, h.ops[i].weight)] else []
  {
    FlushedIffFired(h, i);
    HeldBack(h.states[i], h.ops[i].weight);
  }
}
